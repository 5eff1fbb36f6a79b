/** Entry and exit orders as a state machine over atomic steps; a crash is a run that stops. */
module OrderProtocol {
  import opened Common
  import opened Charges
  import opened RiskModel
  import opened StoreModel

  // What the broker says about an order it was sent.
  datatype Answer = Fill(quantity: int, price: real) | Reject | Unknown

  // Whatever the broker, the clock, the price feed and the disk do in the step that meets them.
  datatype Env = Env(now: int, price: real, commits: bool, answer: Answer)

  datatype Event =
    | Opened(symbol: Symbol)
    | EntrySent(id: nat, symbol: Symbol, side: Side, quantity: int)
    | EntryAnswered(id: nat, symbol: Symbol, answer: Answer)
    | ExitSent(symbol: Symbol, side: Side, quantity: int)
    | ExitAnswered(symbol: Symbol, answer: Answer)

  // sent* is what reached the broker and answers what it told, whether or not it was recorded.
  datatype Shared = Shared(
    risk: RiskState, store: StoreState, inFlight: set<Symbol>,
    sentEntries: set<nat>, sentExits: set<nat>, answers: map<nat, Answer>, log: seq<Event>)

  datatype EntryRequest = EntryRequest(
    symbol: Symbol, quantity: int, side: Side, tradeType: TradeType, requiredMargin: real)

  datatype EntryPc = EStart | EIntent | EOpen | ESend | EWait | ERollback | EFill | EMark | ESavePosition | EDone

  datatype ExitPc =
    | XAcquire | XLookup | XIntent | XSend | XWait | XClose | XMark | XClosePosition | XRelease | XDone

  // reply is the broker's answer once there is one; a call that is done without it never sent an order.
  datatype Call =
    | Entry(epc: EntryPc, req: EntryRequest, price: real, id: nat, positionId: nat, reply: Option<Answer>)
    | Exit(xpc: ExitPc, symbol: Symbol, record: Option<nat>, side: Side, quantity: int, price: real,
           id: nat, recorded: bool, reply: Option<Answer>)

  function NewEntry(req: EntryRequest): Call {
    Entry(EStart, req, 0.0, 0, 0, None)
  }

  function NewExit(symbol: Symbol, record: Option<nat>): Call {
    Exit(XAcquire, symbol, record, Buy, 0, 0.0, 0, false, None)
  }

  predicate UsesMargin(req: EntryRequest) {
    req.side.Sell? && IsDerivative(req.tradeType)
  }

  function EntryVerdict(cfg: RiskConfig, s: RiskState, req: EntryRequest, now: int, price: real): Option<Refusal> {
    if UsesMargin(req) then
      ValidateWithMargin(cfg, s, now, price, req.quantity, req.tradeType, req.side, req.requiredMargin)
    else
      Validate(cfg, s, now, price, req.quantity, req.tradeType, req.side, -1.0)
  }

  function OpenFor(cfg: RiskConfig, s: RiskState, req: EntryRequest, now: int, price: real): Option<RiskState> {
    if UsesMargin(req) then
      OpenWithMargin(cfg, s, now, req.symbol, price, req.quantity, req.tradeType, req.side, req.requiredMargin)
    else
      Some(OpenPosition(cfg, s, now, req.symbol, price, req.quantity, req.tradeType, req.side, 0.0))
  }

  function FreeCapital(s: RiskState): real {
    s.currentBalance - s.sessionBalanceUsed
  }

  // What validation is for: an entry it let through, opened while no less capital is free than
  // when it was checked, never leaves more capital locked than there is.
  lemma ValidatedEntryIsFunded(cfg: RiskConfig, s: RiskState, later: RiskState, req: EntryRequest, now: int, openedAt: int, price: real)
    requires EntryVerdict(cfg, s, req, now, price).None? && FreeCapital(s) <= FreeCapital(later)
    ensures OpenFor(cfg, later, req, openedAt, price).Some?
    ensures OpenFor(cfg, later, req, openedAt, price).value.sessionBalanceUsed <= later.currentBalance
    ensures OpenFor(cfg, later, req, openedAt, price).value.currentBalance == later.currentBalance
  {
  }

  // What an entry locks: the margin quoted for a short derivative, else its turnover; and charges.
  lemma OpenLocks(cfg: RiskConfig, s: RiskState, req: EntryRequest, now: int, price: real)
    requires UsesMargin(req) ==> req.requiredMargin > 0.0
    ensures OpenFor(cfg, s, req, now, price).Some?
    ensures FreeCapital(OpenFor(cfg, s, req, now, price).value)
         == FreeCapital(s) - (if UsesMargin(req) then req.requiredMargin else price * req.quantity as real)
            - cfg.fees(price, req.quantity, req.tradeType, req.side)
  {
  }

  // Nor does it turn away what could be paid: it lets through exactly the well-formed entries
  // that come while the kill switch is off, within the rate, with a margin quote where one is
  // needed, and whose capital fits.
  lemma FundsCheckIsExact(cfg: RiskConfig, s: RiskState, req: EntryRequest, now: int, price: real)
    ensures EntryVerdict(cfg, s, req, now, price).None?
            <==> && !s.killed && InWindow(s.orderTimes, now) < cfg.maxOrdersPerMin && price > 0.0 && req.quantity > 0
                 && (UsesMargin(req) ==> req.requiredMargin > 0.0)
                 && (if UsesMargin(req) then req.requiredMargin else price * req.quantity as real)
                    + cfg.fees(price, req.quantity, req.tradeType, req.side) <= s.currentBalance - s.sessionBalanceUsed
  {
  }

  // A fill below the requested quantity is partial.
  function EntryStatus(requested: int, a: Answer): OrderStatus {
    match a
    case Fill(quantity, _) => if requested > 0 && quantity < requested then Partial else Filled
    case Reject => Rejected
    case Unknown => Indeterminate
  }

  function ExitStatus(a: Answer): OrderStatus {
    match a
    case Fill(_, _) => Filled
    case Reject => Rejected
    case Unknown => Indeterminate
  }

  function FilledQuantity(a: Answer): int {
    if a.Fill? then a.quantity else 0
  }

  function FilledPrice(a: Answer): real {
    if a.Fill? then a.price else 0.0
  }

  function EntryStep(cfg: RiskConfig, s: Shared, c: Call, env: Env): (Shared, Call)
    requires c.Entry?
  {
    var req := c.req;
    match c.epc
    case EStart =>
      if req.quantity <= 0 || env.price <= 0.0 || EntryVerdict(cfg, s.risk, req, env.now, env.price).Some? then
        (s, c.(epc := EDone))
      else
        (s, c.(epc := EIntent, price := env.price))
    case EIntent =>
      var id, pos := s.store.orderSeq + 1, s.store.positionSeq + 1;
      var row := OrderRow(req.symbol, req.side, req.quantity, c.price, Intent, 0, 0.0);
      var store := SaveAttempt(s.store.(orderSeq := id, positionSeq := pos), id, row, env.commits);
      (s.(store := store), c.(epc := if env.commits then EOpen else EDone, id := id, positionId := pos))
    case EOpen =>
      (match OpenFor(cfg, s.risk, req, env.now, c.price)
       case None => (s, c.(epc := EDone))
       case Some(risk) => (s.(risk := risk, log := s.log + [Opened(req.symbol)]), c.(epc := ESend)))
    case ESend =>
      (s.(sentEntries := s.sentEntries + {c.id},
          log := s.log + [EntrySent(c.id, req.symbol, req.side, req.quantity)]),
       c.(epc := EWait))
    case EWait =>
      (s.(answers := s.answers[c.id := env.answer], log := s.log + [EntryAnswered(c.id, req.symbol, env.answer)]),
       c.(epc := (match env.answer
                  case Fill(_, _) => EFill
                  case Reject => ERollback
                  case Unknown => EMark),
          reply := Some(env.answer)))
    case ERollback =>
      (s.(risk := Rollback(s.risk, req.symbol)), c.(epc := EMark))
    case EFill =>
      (if c.reply.None? then s
       else s.(risk := UpdatePrice(cfg, s.risk, req.symbol, FilledPrice(c.reply.value), FilledQuantity(c.reply.value))),
       c.(epc := EMark))
    case EMark =>
      if c.reply.None? then (s, c.(epc := EDone))
      else
        var a := c.reply.value;
        (s.(store := MarkResolved(s.store, c.id, EntryStatus(req.quantity, a), FilledQuantity(a), FilledPrice(a), env.commits)),
         c.(epc := if a.Fill? then ESavePosition else EDone))
    case ESavePosition =>
      if c.reply.None? then (s, c.(epc := EDone))
      else
        var row := PositionRow(req.symbol, req.side, FilledQuantity(c.reply.value), FilledPrice(c.reply.value), 0.0, true);
        (s.(store := SavePosition(s.store, c.positionId, row, env.commits)), c.(epc := EDone))
    case EDone => (s, c)
  }

  function ExitStep(cfg: RiskConfig, s: Shared, c: Call, env: Env): (Shared, Call)
    requires c.Exit?
  {
    match c.xpc
    case XAcquire =>
      if c.symbol in s.inFlight then (s, c.(xpc := XDone))
      else (s.(inFlight := s.inFlight + {c.symbol}), c.(xpc := XLookup))
    case XLookup =>
      if c.symbol !in s.risk.open then (s, c.(xpc := XRelease))
      else
        var p := s.risk.open[c.symbol];
        (s, c.(xpc := XIntent, side := p.side.Opposite(), quantity := p.quantity, price := env.price))
    case XIntent =>
      var id := s.store.orderSeq + 1;
      var row := OrderRow(c.symbol, c.side, c.quantity, c.price, Intent, 0, 0.0);
      // an exit goes on even if its intent could not be written
      (s.(store := SaveAttempt(s.store.(orderSeq := id), id, row, env.commits)),
       c.(xpc := XSend, id := id, recorded := env.commits))
    case XSend =>
      (s.(sentExits := s.sentExits + {c.id}, log := s.log + [ExitSent(c.symbol, c.side, c.quantity)]),
       c.(xpc := XWait))
    case XWait =>
      (s.(answers := s.answers[c.id := env.answer], log := s.log + [ExitAnswered(c.symbol, env.answer)]),
       c.(xpc := if env.answer.Fill? then XClose else XMark, reply := Some(env.answer)))
    case XClose =>
      (if c.reply.None? then s
       else s.(risk := ClosePosition(cfg, s.risk, c.symbol, FilledPrice(c.reply.value))),
       c.(xpc := XMark))
    case XMark =>
      if c.reply.None? then (s, c.(xpc := XRelease))
      else
        var a := c.reply.value;
        (s.(store := MarkResolved(s.store, c.id, ExitStatus(a), FilledQuantity(a), FilledPrice(a), env.commits)),
         c.(xpc := if a.Fill? then XClosePosition else XRelease))
    case XClosePosition =>
      (if c.reply.None? || c.record.None? then s
       else s.(store := ClosePositionRow(s.store, c.record.value, FilledPrice(c.reply.value), env.commits)),
       c.(xpc := XRelease))
    case XRelease =>
      (s.(inFlight := s.inFlight - {c.symbol}), c.(xpc := XDone))
    case XDone => (s, c)
  }

  function CallStep(cfg: RiskConfig, s: Shared, c: Call, env: Env): (Shared, Call) {
    if c.Entry? then EntryStep(cfg, s, c, env) else ExitStep(cfg, s, c, env)
  }

  // ---- Many calls at once ----

  datatype System = System(shared: Shared, calls: seq<Call>)

  datatype Action =
    | StartEntry(req: EntryRequest)
    | StartExit(symbol: Symbol, record: Option<nat>)
    | Step(caller: nat, env: Env)
    | StopTest(symbol: Symbol, price: real)
    | Kill

  function Next(cfg: RiskConfig, sys: System, a: Action): System {
    match a
    case StartEntry(req) => sys.(calls := sys.calls + [NewEntry(req)])
    case StartExit(symbol, record) => sys.(calls := sys.calls + [NewExit(symbol, record)])
    case Step(caller, env) =>
      if caller < |sys.calls| then
        var (shared, c) := CallStep(cfg, sys.shared, sys.calls[caller], env);
        System(shared, sys.calls[caller := c])
      else sys
    case StopTest(symbol, price) =>
      sys.(shared := sys.shared.(risk := CheckStop(cfg, sys.shared.risk, symbol, price).0))
    case Kill => sys.(shared := sys.shared.(risk := sys.shared.risk.(killed := true)))
  }

  // The action is a step of some call.
  predicate Moves(sys: System, a: Action) {
    a.Step? && a.caller < |sys.calls|
  }

  // An entry that was let through and has not opened yet.
  predicate Checked(c: Call) {
    c.Entry? && (c.epc.EIntent? || c.epc.EOpen?)
  }

  // Actions in order; every prefix of a run is a run, so a property of all runs
  // holds at every moment the process can crash.
  function Run(cfg: RiskConfig, sys: System, actions: seq<Action>): System {
    if actions == [] then sys
    else Next(cfg, Run(cfg, sys, actions[..|actions| - 1]), actions[|actions| - 1])
  }

  lemma RunOneMore(cfg: RiskConfig, sys: System, actions: seq<Action>, a: Action)
    ensures Run(cfg, sys, actions + [a]) == Next(cfg, Run(cfg, sys, actions), a)
  {
    assert (actions + [a])[..|actions|] == actions;
  }

  // Before any call: whatever positions and records the session starts with.
  ghost predicate Quiet(sys: System) {
    && sys.calls == []
    && sys.shared.inFlight == {}
    && sys.shared.sentEntries == {} && sys.shared.sentExits == {} && sys.shared.answers == map[]
    && (forall id :: id in sys.shared.store.orders ==> id <= sys.shared.store.orderSeq)
    && (forall id :: id in sys.shared.store.positions ==> id <= sys.shared.store.positionSeq)
  }
}
