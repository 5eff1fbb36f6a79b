/** The trading engine: an entry or exit carried through alone, and what that leaves behind. */
module TradingEngine {
  import opened Common
  import opened Charges
  import opened RiskModel
  import opened RiskManager
  import opened StoreModel
  import opened OrderProtocol
  import Throttle

  // Everything outside the engine that one call meets, in order of use.
  datatype Script = Script(
    quote: real, checkedAt: int, openedAt: int, intentCommits: bool,
    answer: Answer, markCommits: bool, recordCommits: bool)

  function EnvFor(script: Script, c: Call): Env {
    if c.Entry? then
      Env(if c.epc.EStart? then script.checkedAt else script.openedAt, script.quote,
          if c.epc.EIntent? then script.intentCommits
          else if c.epc.EMark? then script.markCommits else script.recordCommits,
          script.answer)
    else
      Env(script.checkedAt, script.quote,
          if c.xpc.XIntent? then script.intentCommits
          else if c.xpc.XMark? then script.markCommits else script.recordCommits,
          script.answer)
  }

  predicate Finished(c: Call) {
    if c.Entry? then c.epc.EDone? else c.xpc.XDone?
  }

  // How many steps a call can still take.
  function StepsLeft(c: Call): nat {
    if c.Entry? then
      match c.epc
      case EStart => 8 case EIntent => 7 case EOpen => 6 case ESend => 5 case EWait => 4
      case ERollback => 3 case EFill => 3 case EMark => 2 case ESavePosition => 1 case EDone => 0
    else
      match c.xpc
      case XAcquire => 9 case XLookup => 8 case XIntent => 7 case XSend => 6 case XWait => 5
      case XClose => 4 case XMark => 3 case XClosePosition => 2 case XRelease => 1 case XDone => 0
  }

  // The call run to its end with nothing in between.
  function Alone(cfg: RiskConfig, s: Shared, c: Call, script: Script): (r: (Shared, Call))
    ensures Finished(r.1) && r.1.Entry? == c.Entry?
    decreases StepsLeft(c)
  {
    if Finished(c) then (s, c)
    else
      var (s', c') := CallStep(cfg, s, c, EnvFor(script, c));
      Alone(cfg, s', c', script)
  }

  datatype EntryResult = NotSent | EntryRejected | EntryIndeterminate
                       | EntryFilled(quantity: int, price: real, positionId: nat)

  function EntryResultOf(c: Call): EntryResult
    requires c.Entry?
  {
    match c.reply
    case None => NotSent
    case Some(Reject) => EntryRejected
    case Some(Unknown) => EntryIndeterminate
    case Some(Fill(quantity, price)) => EntryFilled(quantity, price, c.positionId)
  }

  // ---- What a lone entry leaves behind ----

  lemma AloneStep(cfg: RiskConfig, s: Shared, c: Call, script: Script)
    requires !Finished(c)
    ensures var (s', c') := CallStep(cfg, s, c, EnvFor(script, c));
            Alone(cfg, s, c, script) == Alone(cfg, s', c', script)
  {
  }

  // An entry that never reached the broker: only the store has moved.
  predicate NeverSent(s: Shared, after: Shared, c: Call) {
    && after.risk == s.risk && after.log == s.log && after.sentEntries == s.sentEntries
    && after.answers == s.answers && after.inFlight == s.inFlight
    && Finished(c) && c.Entry? && c.reply.None?
  }

  // An entry the broker has been sent, its capital locked, its answer awaited.
  predicate AwaitsAnswer(cfg: RiskConfig, s: Shared, req: EntryRequest, script: Script, after: Shared, c: Call) {
    && c.Entry? && c.epc.EWait? && c.req == req && c.price == script.quote && c.reply.None?
    && c.positionId == s.store.positionSeq + 1 && c.id == s.store.orderSeq + 1
    && OpenFor(cfg, s.risk, req, script.openedAt, script.quote) == Some(after.risk)
    && after.log == s.log + [Opened(req.symbol), EntrySent(c.id, req.symbol, req.side, req.quantity)]
    && after.store.positions == s.store.positions && after.inFlight == s.inFlight
  }

  // An entry up to the moment just before the broker answers.
  lemma EntryUpToSend(cfg: RiskConfig, s: Shared, req: EntryRequest, script: Script) returns (sent: bool, s1: Shared, c1: Call)
    ensures !sent ==> NeverSent(s, Alone(cfg, s, NewEntry(req), script).0, Alone(cfg, s, NewEntry(req), script).1)
    ensures sent ==> AwaitsAnswer(cfg, s, req, script, s1, c1)
    ensures sent ==> Alone(cfg, s, NewEntry(req), script) == Alone(cfg, s1, c1, script)
  {
    var c := NewEntry(req);
    AloneStep(cfg, s, c, script);
    var (sa, ca) := CallStep(cfg, s, c, EnvFor(script, c));
    sent, s1, c1 := false, sa, ca;
    if !Finished(ca) {
      AloneStep(cfg, sa, ca, script);
      var (sb, cb) := CallStep(cfg, sa, ca, EnvFor(script, ca));
      if !Finished(cb) {
        AloneStep(cfg, sb, cb, script);
        var (sc, cc) := CallStep(cfg, sb, cb, EnvFor(script, cb));
        if !Finished(cc) {
          AloneStep(cfg, sc, cc, script);
          s1, c1 := CallStep(cfg, sc, cc, EnvFor(script, cc)).0, CallStep(cfg, sc, cc, EnvFor(script, cc)).1;
          sent := true;
        }
      }
    }
  }

  // The states from the broker's answer to the end.
  lemma EntryAfterAnswer(cfg: RiskConfig, s: Shared, c: Call, script: Script)
    requires c.Entry? && c.epc.EWait?
    ensures var (s', c') := Alone(cfg, s, c, script);
            && c'.Entry? && Finished(c') && c'.reply == Some(script.answer)
            && c'.positionId == c.positionId && c'.req == c.req
            && s'.log == s.log + [EntryAnswered(c.id, c.req.symbol, script.answer)]
            && s'.inFlight == s.inFlight
            && s'.risk == (match script.answer
                           case Fill(quantity, price) => UpdatePrice(cfg, s.risk, c.req.symbol, price, quantity)
                           case Reject => Rollback(s.risk, c.req.symbol)
                           case Unknown => s.risk)
            && s'.store.positions == (if script.answer.Fill? && script.recordCommits then
                 s.store.positions[c.positionId := PositionRow(c.req.symbol, c.req.side, FilledQuantity(script.answer),
                                                               FilledPrice(script.answer), 0.0, true)]
               else s.store.positions)
  {
    AloneStep(cfg, s, c, script);
    var (s1, c1) := CallStep(cfg, s, c, EnvFor(script, c));
    AloneStep(cfg, s1, c1, script);
    var (s2, c2) := CallStep(cfg, s1, c1, EnvFor(script, c1));
    if !Finished(c2) {
      AloneStep(cfg, s2, c2, script);
      var (s3, c3) := CallStep(cfg, s2, c2, EnvFor(script, c2));
      if !Finished(c3) {
        AloneStep(cfg, s3, c3, script);
      }
    }
  }

  // Same balances, positions and kill switch, and the same throttle count at every time from now on.
  ghost predicate SameForObservers(before: RiskState, after: RiskState, now: int) {
    && after.(orderTimes := []) == before.(orderTimes := [])
    && forall later :: now <= later ==> InWindow(after.orderTimes, later) == InWindow(before.orderTimes, later)
  }

  // An entry that is refused or rejected leaves no trace in the risk manager.
  lemma FailedEntryLeavesNoTrace(cfg: RiskConfig, s: Shared, req: EntryRequest, script: Script)
    requires req.symbol !in s.risk.open
    requires var result := EntryResultOf(Alone(cfg, s, NewEntry(req), script).1);
             result.NotSent? || result.EntryRejected?
    ensures SameForObservers(s.risk, Alone(cfg, s, NewEntry(req), script).0.risk, script.openedAt)
  {
    var sent, s1, c1 := EntryUpToSend(cfg, s, req, script);
    if sent {
      EntryAfterAnswer(cfg, s1, c1, script);
      assert script.answer.Reject?;
      var margin := if UsesMargin(req) then req.requiredMargin else 0.0;
      var s' := Alone(cfg, s, NewEntry(req), script).0;
      forall later | script.openedAt <= later
        ensures InWindow(s'.risk.orderTimes, later) == InWindow(s.risk.orderTimes, later)
      {
        Throttle.RollbackUndoesOpen(cfg, s.risk, script.openedAt, req.symbol, script.quote, req.quantity,
                                    req.tradeType, req.side, margin, later);
      }
      Throttle.RollbackUndoesOpen(cfg, s.risk, script.openedAt, req.symbol, script.quote, req.quantity,
                                  req.tradeType, req.side, margin, script.openedAt);
    }
  }

  // A filled or partially filled entry: the broker's quantity is stored (if that write
  // commits), and it is the risk manager's quantity exactly when the fill was usable
  // (positive price and quantity) or covered the whole request.
  lemma FilledEntryAgreesIff(cfg: RiskConfig, s: Shared, req: EntryRequest, script: Script)
    requires EntryResultOf(Alone(cfg, s, NewEntry(req), script).1).EntryFilled?
    ensures var (s', c') := Alone(cfg, s, NewEntry(req), script);
            var EntryFilled(quantity, price, id) := EntryResultOf(c');
            && script.answer == Fill(quantity, price)
            && s'.risk.open.Keys == s.risk.open.Keys + {req.symbol}
            && (script.recordCommits ==>
                  id in s'.store.positions
                  && s'.store.positions[id] == PositionRow(req.symbol, req.side, quantity, price, 0.0, true))
            && ((s'.risk.open[req.symbol].quantity == quantity)
                <==> ((quantity > 0 && price > 0.0) || quantity == req.quantity))
            && (price > 0.0 ==> s'.risk.open[req.symbol].entryPrice == price)
  {
    var sent, s1, c1 := EntryUpToSend(cfg, s, req, script);
    EntryAfterAnswer(cfg, s1, c1, script);
  }

  // An entry gets to the broker exactly when it passes its check and its intent is written.
  lemma EntrySentIff(cfg: RiskConfig, s: Shared, req: EntryRequest, script: Script)
    ensures !EntryResultOf(Alone(cfg, s, NewEntry(req), script).1).NotSent?
            <==> EntryVerdict(cfg, s.risk, req, script.checkedAt, script.quote).None? && script.intentCommits
    ensures var result := EntryResultOf(Alone(cfg, s, NewEntry(req), script).1);
            result.EntryFilled? <==> !result.NotSent? && script.answer.Fill?
  {
    var sent, s1, c1 := EntryUpToSend(cfg, s, req, script);
    if sent {
      EntryAfterAnswer(cfg, s1, c1, script);
    }
    SentIff(cfg, s, req, script);
  }

  lemma SentIff(cfg: RiskConfig, s: Shared, req: EntryRequest, script: Script)
    ensures Alone(cfg, s, NewEntry(req), script).1.reply.Some?
            <==> EntryVerdict(cfg, s.risk, req, script.checkedAt, script.quote).None? && script.intentCommits
  {
    FundsCheckIsExact(cfg, s.risk, req, script.checkedAt, script.quote);
    var c := NewEntry(req);
    AloneStep(cfg, s, c, script);
    var (s1, c1) := CallStep(cfg, s, c, EnvFor(script, c));
    if !Finished(c1) {
      AloneStep(cfg, s1, c1, script);
      var (s2, c2) := CallStep(cfg, s1, c1, EnvFor(script, c1));
      if !Finished(c2) {
        OpenLocks(cfg, s2.risk, req, script.openedAt, script.quote);
        AloneStep(cfg, s2, c2, script);
        var (s3, c3) := CallStep(cfg, s2, c2, EnvFor(script, c2));
        AloneStep(cfg, s3, c3, script);
        var (s4, c4) := CallStep(cfg, s3, c3, EnvFor(script, c3));
        EntryAfterAnswer(cfg, s4, c4, script);
      }
    }
  }

  // An indeterminate entry stays in the risk book at its requested size: the fill may have happened.
  lemma IndeterminateEntryStaysHeld(cfg: RiskConfig, s: Shared, req: EntryRequest, script: Script)
    requires EntryResultOf(Alone(cfg, s, NewEntry(req), script).1).EntryIndeterminate?
    ensures var s' := Alone(cfg, s, NewEntry(req), script).0;
            && s'.risk.open.Keys == s.risk.open.Keys + {req.symbol}
            && s'.risk.open[req.symbol].quantity == req.quantity
            && OpenFor(cfg, s.risk, req, script.openedAt, script.quote) == Some(s'.risk)
  {
    var sent, s1, c1 := EntryUpToSend(cfg, s, req, script);
    EntryAfterAnswer(cfg, s1, c1, script);
  }

  // ---- What a lone exit leaves behind ----

  datatype ExitResult = ExitRefused | ExitNoPosition | ExitRejected | ExitIndeterminate | ExitFilled(quantity: int, price: real)

  function ExitResultOf(s: Shared, symbol: Symbol, answer: Answer): ExitResult {
    if symbol in s.inFlight then ExitRefused
    else if symbol !in s.risk.open then ExitNoPosition
    else match answer
         case Reject => ExitRejected
         case Unknown => ExitIndeterminate
         case Fill(quantity, price) => ExitFilled(quantity, price)
  }

  // The flag is given back whatever happens; the position goes exactly when the broker
  // filled; and at most one order is sent, on the opposite side, for the whole position.
  lemma ExitEffects(cfg: RiskConfig, s: Shared, symbol: Symbol, record: Option<nat>, script: Script)
    ensures var (s', c') := Alone(cfg, s, NewExit(symbol, record), script);
            var result := ExitResultOf(s, symbol, script.answer);
            && Finished(c')
            && s'.inFlight == s.inFlight
            && s'.risk == (if result.ExitFilled? then ClosePosition(cfg, s.risk, symbol, result.price) else s.risk)
            && s'.log == (if result.ExitRefused? || result.ExitNoPosition? then s.log
                          else s.log + [ExitSent(symbol, s.risk.open[symbol].side.Opposite(), s.risk.open[symbol].quantity),
                                        ExitAnswered(symbol, script.answer)])
  {
    var c := NewExit(symbol, record);
    AloneStep(cfg, s, c, script);
    var (s1, c1) := CallStep(cfg, s, c, EnvFor(script, c));
    if !Finished(c1) {
      AloneStep(cfg, s1, c1, script);
      var (s2, c2) := CallStep(cfg, s1, c1, EnvFor(script, c1));
      if c2.xpc.XRelease? {
        AloneStep(cfg, s2, c2, script);
        assert s1.inFlight - {symbol} == s.inFlight;
      } else {
        AloneStep(cfg, s2, c2, script);
        var (s3, c3) := CallStep(cfg, s2, c2, EnvFor(script, c2));
        AloneStep(cfg, s3, c3, script);
        var (s4, c4) := CallStep(cfg, s3, c3, EnvFor(script, c3));
        ExitAfterSend(cfg, s4, c4, script);
        assert s1.inFlight - {symbol} == s.inFlight;
      }
    }
  }

  lemma ExitAfterSend(cfg: RiskConfig, s: Shared, c: Call, script: Script)
    requires c.Exit? && c.xpc.XWait?
    ensures var (s', c') := Alone(cfg, s, c, script);
            && Finished(c')
            && s'.inFlight == s.inFlight - {c.symbol}
            && s'.risk == (if script.answer.Fill? then ClosePosition(cfg, s.risk, c.symbol, script.answer.price) else s.risk)
            && s'.log == s.log + [ExitAnswered(c.symbol, script.answer)]
            && s'.store.positions
               == if script.answer.Fill? then RecordClosed(s.store.positions, c.record, script.answer.price, script.recordCommits)
                  else s.store.positions
  {
    AloneStep(cfg, s, c, script);
    var (s1, c1) := CallStep(cfg, s, c, EnvFor(script, c));
    if script.answer.Fill? {
      AloneStep(cfg, s1, c1, script);
      var (s2, c2) := CallStep(cfg, s1, c1, EnvFor(script, c1));
      ExitFromMark(cfg, s2, c2, script);
    } else {
      ExitFromMark(cfg, s1, c1, script);
    }
  }

  lemma ExitFromMark(cfg: RiskConfig, s: Shared, c: Call, script: Script)
    requires c.Exit? && c.xpc.XMark? && c.reply.Some?
    ensures var (s', c') := Alone(cfg, s, c, script);
            && Finished(c')
            && s'.inFlight == s.inFlight - {c.symbol} && s'.risk == s.risk && s'.log == s.log
            && s'.store.positions
               == if c.reply.value.Fill? then RecordClosed(s.store.positions, c.record, c.reply.value.price, script.recordCommits)
                  else s.store.positions
  {
    AloneStep(cfg, s, c, script);
    var (s1, c1) := CallStep(cfg, s, c, EnvFor(script, c));
    AloneStep(cfg, s1, c1, script);
    if c.reply.value.Fill? {
      var (s2, c2) := CallStep(cfg, s1, c1, EnvFor(script, c1));
      AloneStep(cfg, s2, c2, script);
    }
  }

  // What a filled exit does to the durable positions: the record it was given, if there is one,
  // is closed at the fill price.
  function RecordClosed(positions: map<nat, PositionRow>, record: Option<nat>, price: real, commits: bool): map<nat, PositionRow> {
    if commits && record.Some? && record.value in positions then
      var row := positions[record.value];
      positions[record.value := PositionRow(row.symbol, row.side, row.quantity, row.entryPrice, price, false)]
    else positions
  }

  // An exit closes the record it was given exactly when it is filled, and touches no other row;
  // a failed write, and every other outcome, leaves all rows as they were.
  lemma ExitClosesRecord(cfg: RiskConfig, s: Shared, symbol: Symbol, record: Option<nat>, script: Script)
    ensures var s' := Alone(cfg, s, NewExit(symbol, record), script).0;
            s'.store.positions
            == if symbol !in s.inFlight && symbol in s.risk.open && script.answer.Fill? then
                 RecordClosed(s.store.positions, record, script.answer.price, script.recordCommits)
               else s.store.positions
  {
    var c := NewExit(symbol, record);
    AloneStep(cfg, s, c, script);
    var (s1, c1) := CallStep(cfg, s, c, EnvFor(script, c));
    if !Finished(c1) {
      AloneStep(cfg, s1, c1, script);
      var (s2, c2) := CallStep(cfg, s1, c1, EnvFor(script, c1));
      AloneStep(cfg, s2, c2, script);
      if !c2.xpc.XRelease? {
        var (s3, c3) := CallStep(cfg, s2, c2, EnvFor(script, c2));
        AloneStep(cfg, s3, c3, script);
        var (s4, c4) := CallStep(cfg, s3, c3, EnvFor(script, c3));
        ExitAfterSend(cfg, s4, c4, script);
      }
    }
  }

  // The kill switch stops every entry before it has done anything.
  lemma KilledEntryDoesNothing(cfg: RiskConfig, s: Shared, req: EntryRequest, script: Script)
    requires s.risk.killed
    ensures Alone(cfg, s, NewEntry(req), script).0 == s
    ensures EntryResultOf(Alone(cfg, s, NewEntry(req), script).1).NotSent?
  {
    AloneStep(cfg, s, NewEntry(req), script);
  }

  // ---- The object ----

  function AfterEntryAnswer(c: Call, answer: Answer): Call
    requires c.Entry?
  {
    c.(epc := (match answer
               case Fill(_, _) => EFill
               case Reject => ERollback
               case Unknown => EMark),
       reply := Some(answer))
  }

  function AfterExitAnswer(c: Call, answer: Answer): Call
    requires c.Exit?
  {
    c.(xpc := if answer.Fill? then XClose else XMark, reply := Some(answer))
  }

  class Engine {
    const risk: Manager
    const store: Store
    var exitInFlight: set<Symbol>
    // What has happened at the broker.
    ghost var sentEntries: set<nat>
    ghost var sentExits: set<nat>
    ghost var answers: map<nat, Answer>
    ghost var log: seq<Event>

    ghost function View(): Shared
      reads this, risk, store
    {
      Shared(risk.View(), store.View(), exitInFlight, sentEntries, sentExits, answers, log)
    }

    constructor (risk: Manager, store: Store)
      ensures this.risk == risk && this.store == store
      ensures View() == Shared(risk.View(), store.View(), {}, {}, {}, map[], [])
    {
      this.risk, this.store := risk, store;
      exitInFlight, sentEntries, sentExits, answers, log := {}, {}, {}, map[], [];
    }

    // The risk manager's say; nothing changes.
    method Validate(ghost c: Call, req: EntryRequest, script: Script) returns (valid: bool)
      requires c == NewEntry(req)
      ensures !valid ==> Alone(risk.cfg, View(), c, script) == (View(), c.(epc := EDone))
      ensures valid ==>
                Alone(risk.cfg, View(), c, script) == Alone(risk.cfg, View(), c.(epc := EIntent, price := script.quote), script)
    {
      AloneStep(risk.cfg, View(), c, script);
      if req.quantity <= 0 {
        return false;
      }
      var price := script.quote;
      if price <= 0.0 {
        return false;
      }
      var refusal;
      if req.side == Sell && IsDerivative(req.tradeType) {
        refusal := risk.ValidateOrderWithMargin(script.checkedAt, price, req.quantity, req.tradeType, req.side, req.requiredMargin);
      } else {
        refusal := risk.ValidateOrder(script.checkedAt, price, req.quantity, req.tradeType, req.side);
      }
      valid := refusal.None?;
    }

    // The intent is durable before anything else happens; without it there is no order.
    method RecordIntent(ghost c: Call, req: EntryRequest, price: real, script: Script)
      returns (saved: bool, clientOrderId: nat, positionId: nat)
      requires c == Entry(EIntent, req, price, 0, 0, None)
      modifies store
      ensures var c' := c.(epc := if saved then EOpen else EDone, id := clientOrderId, positionId := positionId);
              Alone(risk.cfg, old(View()), c, script) == Alone(risk.cfg, View(), c', script)
      ensures View() == old(View()).(store := store.View())
    {
      AloneStep(risk.cfg, View(), c, script);
      clientOrderId := store.NextClientOrderId();
      positionId := store.NextPositionId();
      saved := store.SaveOrderAttempt(clientOrderId,
        OrderRow(req.symbol, req.side, req.quantity, price, Intent, 0, 0.0), script.intentCommits);
    }

    method LockCapital(ghost c: Call, req: EntryRequest, price: real, script: Script) returns (ok: bool)
      requires c.Entry? && c.epc.EOpen? && c.req == req && c.price == price
      modifies risk, this`log
      ensures Alone(risk.cfg, old(View()), c, script)
           == Alone(risk.cfg, View(), c.(epc := if ok then ESend else EDone), script)
      ensures View() == old(View()).(risk := risk.View(), log := log)
      ensures risk.stopTests == old(risk.stopTests)
    {
      AloneStep(risk.cfg, View(), c, script);
      ok := true;
      if req.side == Sell && IsDerivative(req.tradeType) {
        ok := risk.OpenMargined(script.openedAt, req.symbol, price, req.quantity, req.tradeType, req.side, req.requiredMargin);
      } else {
        risk.Open(script.openedAt, req.symbol, price, req.quantity, req.tradeType, req.side, 0.0);
      }
      if ok {
        log := log + [Opened(req.symbol)];
      }
    }

    // The order goes out and its answer comes back; the broker remembers both.
    method SendEntry(ghost c: Call, req: EntryRequest, id: nat, script: Script) returns (answer: Answer)
      requires c.Entry? && c.epc.ESend? && c.req == req && c.id == id
      modifies this`sentEntries, this`answers, this`log
      ensures answer == script.answer
      ensures Alone(risk.cfg, old(View()), c, script) == Alone(risk.cfg, View(), AfterEntryAnswer(c, answer), script)
    {
      AloneStep(risk.cfg, View(), c, script);
      sentEntries := sentEntries + {id};
      log := log + [EntrySent(id, req.symbol, req.side, req.quantity)];
      AloneStep(risk.cfg, View(), c.(epc := EWait), script);
      answer := script.answer;
      answers := answers[id := answer];
      log := log + [EntryAnswered(id, req.symbol, answer)];
    }

    method SettleEntry(ghost c: Call, req: EntryRequest, id: nat, positionId: nat, answer: Answer, script: Script)
      returns (result: EntryResult)
      requires c.Entry? && c.req == req && c.id == id && c.positionId == positionId
      requires c.reply == Some(answer) && c == AfterEntryAnswer(c, answer)
      modifies risk, store
      ensures var (s, c') := Alone(risk.cfg, old(View()), c, script);
              View() == s && result == EntryResultOf(c')
      ensures risk.stopTests == old(risk.stopTests)
    {
      AloneStep(risk.cfg, View(), c, script);
      match answer {
        case Unknown =>
          var _ := store.MarkOrderResolved(id, Indeterminate, 0, 0.0, script.markCommits);
          return EntryIndeterminate;
        case Reject =>
          var _ := risk.RollbackPosition(req.symbol);
          AloneStep(risk.cfg, View(), c.(epc := EMark), script);
          var _ := store.MarkOrderResolved(id, Rejected, 0, 0.0, script.markCommits);
          return EntryRejected;
        case Fill(filled, fillPrice) =>
          risk.UpdatePositionPrice(req.symbol, fillPrice, filled);
          RecordFill(c.(epc := EMark), req, id, positionId, filled, fillPrice, script);
          return EntryFilled(filled, fillPrice, positionId);
      }
    }

    method RecordFill(ghost c: Call, req: EntryRequest, id: nat, positionId: nat, filled: int, fillPrice: real, script: Script)
      requires c.Entry? && c.epc.EMark? && c.req == req && c.id == id && c.positionId == positionId
      requires c.reply == Some(Fill(filled, fillPrice))
      modifies store
      ensures Alone(risk.cfg, old(View()), c, script) == (View(), c.(epc := EDone))
    {
      AloneStep(risk.cfg, View(), c, script);
      var status := Filled;
      if req.quantity > 0 && filled < req.quantity {
        status := Partial;
      }
      var _ := store.MarkOrderResolved(id, status, filled, fillPrice, script.markCommits);
      AloneStep(risk.cfg, View(), c.(epc := ESavePosition), script);
      var _ := store.SavePositionRow(positionId, PositionRow(req.symbol, req.side, filled, fillPrice, 0.0, true),
                                     script.recordCommits);
    }

    method PlaceEntryOrder(req: EntryRequest, script: Script) returns (result: EntryResult)
      modifies this, risk, store
      ensures var (s, c) := Alone(risk.cfg, old(View()), NewEntry(req), script);
              View() == s && result == EntryResultOf(c)
      ensures old(risk.killed) ==> result == NotSent && View() == old(View())
      ensures risk.stopTests == old(risk.stopTests)
    {
      ghost var c := NewEntry(req);
      if risk.killed {
        KilledEntryDoesNothing(risk.cfg, View(), req, script);
      }
      var valid := Validate(c, req, script);
      if !valid {
        return NotSent;
      }
      c := c.(epc := EIntent, price := script.quote);
      var saved, clientOrderId, positionId := RecordIntent(c, req, script.quote, script);
      if !saved {
        return NotSent;
      }
      c := c.(epc := EOpen, id := clientOrderId, positionId := positionId);
      var locked := LockCapital(c, req, script.quote, script);
      if !locked {
        return NotSent;
      }
      c := c.(epc := ESend);
      var answer := SendEntry(c, req, clientOrderId, script);
      c := AfterEntryAnswer(c, answer);
      result := SettleEntry(c, req, clientOrderId, positionId, answer, script);
    }

    method RecordExitIntent(ghost c: Call, symbol: Symbol, side: Side, quantity: int, script: Script)
      returns (saved: bool, clientOrderId: nat)
      requires c.Exit? && c.xpc.XIntent? && c.symbol == symbol && c.side == side && c.quantity == quantity
      requires c.price == script.quote
      modifies store
      ensures Alone(risk.cfg, old(View()), c, script)
           == Alone(risk.cfg, View(), c.(xpc := XSend, id := clientOrderId, recorded := saved), script)
    {
      AloneStep(risk.cfg, View(), c, script);
      clientOrderId := store.NextClientOrderId();
      saved := store.SaveOrderAttempt(clientOrderId,
        OrderRow(symbol, side, quantity, script.quote, Intent, 0, 0.0), script.intentCommits);
    }

    method SendExit(ghost c: Call, id: nat, symbol: Symbol, side: Side, quantity: int, script: Script) returns (answer: Answer)
      requires c.Exit? && c.xpc.XSend? && c.symbol == symbol && c.side == side && c.quantity == quantity && c.id == id
      modifies this`sentExits, this`answers, this`log
      ensures answer == script.answer
      ensures Alone(risk.cfg, old(View()), c, script) == Alone(risk.cfg, View(), AfterExitAnswer(c, answer), script)
      ensures exitInFlight == old(exitInFlight)
    {
      AloneStep(risk.cfg, View(), c, script);
      sentExits := sentExits + {id};
      log := log + [ExitSent(symbol, side, quantity)];
      AloneStep(risk.cfg, View(), c.(xpc := XWait), script);
      answer := script.answer;
      answers := answers[id := answer];
      log := log + [ExitAnswered(symbol, answer)];
    }

    method SettleExit(ghost c: Call, id: nat, symbol: Symbol, record: Option<nat>, answer: Answer, script: Script)
      requires c.Exit? && c.id == id && c.symbol == symbol && c.record == record
      requires c.reply == Some(answer) && c == AfterExitAnswer(c, answer)
      modifies risk, store
      ensures Alone(risk.cfg, old(View()), c, script) == Alone(risk.cfg, View(), c.(xpc := XRelease), script)
      ensures risk.stopTests == old(risk.stopTests)
    {
      AloneStep(risk.cfg, View(), c, script);
      match answer {
        case Unknown =>
          var _ := store.MarkOrderResolved(id, Indeterminate, 0, 0.0, script.markCommits);
        case Reject =>
          var _ := store.MarkOrderResolved(id, Rejected, 0, 0.0, script.markCommits);
        case Fill(filled, fillPrice) =>
          var _, netPnL := risk.Close(symbol, fillPrice);
          RecordClose(c.(xpc := XMark), id, record, filled, fillPrice, script);
      }
    }

    method RecordClose(ghost c: Call, id: nat, record: Option<nat>, filled: int, fillPrice: real, script: Script)
      requires c.Exit? && c.xpc.XMark? && c.id == id && c.record == record
      requires c.reply == Some(Fill(filled, fillPrice))
      modifies store
      ensures Alone(risk.cfg, old(View()), c, script) == Alone(risk.cfg, View(), c.(xpc := XRelease), script)
    {
      AloneStep(risk.cfg, View(), c, script);
      var _ := store.MarkOrderResolved(id, Filled, filled, fillPrice, script.markCommits);
      AloneStep(risk.cfg, View(), c.(xpc := XClosePosition), script);
      if record.Some? {
        var _ := store.CloseRow(record.value, fillPrice, script.recordCommits);
      }
    }

    // The exit of a position that is held.
    method ExitHeld(ghost c: Call, symbol: Symbol, record: Option<nat>, script: Script) returns (result: ExitResult)
      requires c.Exit? && c.xpc.XLookup? && c.symbol == symbol && c.record == record && symbol in risk.open
      modifies this, risk, store
      ensures exists c': Call :: c'.Exit? && c'.symbol == symbol && c'.xpc.XRelease?
                && Alone(risk.cfg, old(View()), c, script) == Alone(risk.cfg, View(), c', script)
      ensures result == match script.answer
                        case Unknown => ExitIndeterminate
                        case Reject => ExitRejected
                        case Fill(filled, fillPrice) => ExitFilled(filled, fillPrice)
      ensures risk.stopTests == old(risk.stopTests)
    {
      ghost var now := c;
      AloneStep(risk.cfg, View(), now, script);
      var position := risk.open[symbol];
      var closeSide := Buy;
      if position.side == Buy {
        closeSide := Sell;
      }
      now := now.(xpc := XIntent, side := closeSide, quantity := position.quantity, price := script.quote);
      var saved, clientOrderId := RecordExitIntent(now, symbol, closeSide, position.quantity, script);
      now := now.(xpc := XSend, id := clientOrderId, recorded := saved);
      var answer := SendExit(now, clientOrderId, symbol, closeSide, position.quantity, script);
      now := AfterExitAnswer(now, answer);
      SettleExit(now, clientOrderId, symbol, record, answer, script);
      match answer {
        case Unknown => result := ExitIndeterminate;
        case Reject => result := ExitRejected;
        case Fill(filled, fillPrice) => result := ExitFilled(filled, fillPrice);
      }
    }

    method PlaceExitOrder(symbol: Symbol, record: Option<nat>, script: Script) returns (result: ExitResult)
      modifies this, risk, store
      ensures View() == Alone(risk.cfg, old(View()), NewExit(symbol, record), script).0
      ensures result == ExitResultOf(old(View()), symbol, script.answer)
      ensures View().store.positions
              == if result.ExitFilled? then RecordClosed(old(View()).store.positions, record, result.price, script.recordCommits)
                 else old(View()).store.positions
      ensures risk.stopTests == old(risk.stopTests)
    {
      ExitClosesRecord(risk.cfg, View(), symbol, record, script);
      AloneStep(risk.cfg, View(), NewExit(symbol, record), script);
      if symbol in exitInFlight {
        return ExitRefused;
      }
      exitInFlight := exitInFlight + {symbol};
      ghost var c := NewExit(symbol, record).(xpc := XLookup);
      if symbol in risk.open {
        result := ExitHeld(c, symbol, record, script);
        c :| c.Exit? && c.symbol == symbol && c.xpc.XRelease?
             && Alone(risk.cfg, old(View()), NewExit(symbol, record), script) == Alone(risk.cfg, View(), c, script);
      } else {
        AloneStep(risk.cfg, View(), c, script);
        result := ExitNoPosition;
        c := c.(xpc := XRelease);
      }
      AloneStep(risk.cfg, View(), c, script);
      exitInFlight := exitInFlight - {symbol};
    }
  }
}
