/** Entering and leaving a structure of several legs, one leg after another.
    Legs go out in the order of the plan, each short one with its share of the basket's margin. A
    leg that is not filled stops the entry, and the legs already on are unwound by exits. */
module MultiLeg {
  import opened Common
  import opened Charges
  import opened RiskModel
  import opened OrderProtocol
  import opened TradingEngine

  datatype OptionType = CE | PE

  // A strategy's leg: quantity is in lots.
  datatype OrderLeg = OrderLeg(direction: Side, strikeOffset: int, optionType: OptionType, quantity: int)

  datatype PlannedLeg = PlannedLeg(symbol: Symbol, side: Side, quantity: int)

  // A leg that is in the book, with its durable record if known.
  datatype LegRecord = LegRecord(symbol: Symbol, side: Side, record: Option<nat>)

  // What the n-th engine call of the session meets.
  type Feed = nat -> Script

  function PlanLeg(leg: OrderLeg, lotSize: int, target: (int, OptionType) -> Symbol): PlannedLeg {
    PlannedLeg(target(leg.strikeOffset, leg.optionType), leg.direction,
               (if leg.quantity <= 0 then 1 else leg.quantity) * lotSize)
  }

  function Plan(legs: seq<OrderLeg>, lotSize: int, target: (int, OptionType) -> Symbol): seq<PlannedLeg> {
    seq(|legs|, i requires 0 <= i < |legs| => PlanLeg(legs[i], lotSize, target))
  }

  function SellCount(plan: seq<PlannedLeg>): nat {
    if plan == [] then 0
    else SellCount(plan[..|plan| - 1]) + (if plan[|plan| - 1].side.Sell? then 1 else 0)
  }

  // The basket margin is split evenly over the short legs.
  function PerSellLeg(plan: seq<PlannedLeg>, total: real): real {
    if SellCount(plan) > 0 then total / SellCount(plan) as real else 0.0
  }

  function LegRequest(leg: PlannedLeg, perSell: real): EntryRequest {
    EntryRequest(leg.symbol, leg.quantity, leg.side, OptCarry, if leg.side.Sell? then perSell else 0.0)
  }

  // How far entering a plan got: the filled legs, their combined premium, and the result
  // of the leg that stopped it, if one did.
  datatype Progress = Progress(shared: Shared, filled: seq<LegRecord>, premium: real, stopped: Option<EntryResult>)

  // Places legs from number |done.filled| on, each only once the one before has filled.
  function Enter(cfg: RiskConfig, done: Progress, plan: seq<PlannedLeg>, perSell: real, feed: Feed, k: nat): Progress
    decreases |plan| - |done.filled|
  {
    if done.stopped.Some? || |done.filled| >= |plan| then done
    else
      var leg := plan[|done.filled|];
      var (s, c) := Alone(cfg, done.shared, NewEntry(LegRequest(leg, perSell)), feed(k));
      match EntryResultOf(c)
      case EntryFilled(_, price, id) =>
        Enter(cfg, Progress(s, done.filled + [LegRecord(leg.symbol, leg.side, Some(id))], done.premium + price, None),
              plan, perSell, feed, k + 1)
      case other => Progress(s, done.filled, done.premium, Some(other))
  }

  // Closes the legs in order, whether or not one of them fails.
  function ExitLegs(cfg: RiskConfig, s: Shared, legs: seq<LegRecord>, feed: Feed, k: nat): (Shared, bool)
    decreases |legs|
  {
    if legs == [] then (s, true)
    else
      var s1 := Alone(cfg, s, NewExit(legs[0].symbol, legs[0].record), feed(k)).0;
      var (s2, ok) := ExitLegs(cfg, s1, legs[1..], feed, k + 1);
      (s2, ExitResultOf(s, legs[0].symbol, feed(k).answer).ExitFilled? && ok)
  }

  // If a leg did not fill, the filled ones are closed again.
  function Unwound(cfg: RiskConfig, e: Progress, feed: Feed, k: nat): Progress {
    if e.stopped.None? then e
    else e.(shared := ExitLegs(cfg, e.shared, e.filled, feed, k + |e.filled| + 1).0)
  }

  // A whole entry.
  function EnterOrUnwind(cfg: RiskConfig, s: Shared, plan: seq<PlannedLeg>, perSell: real, feed: Feed, k: nat): Progress {
    Unwound(cfg, Enter(cfg, Progress(s, [], 0.0, None), plan, perSell, feed, k), feed, k)
  }

  // ---- One call, seen from outside ----

  predicate Distinct(plan: seq<PlannedLeg>) {
    forall i, j :: 0 <= i < j < |plan| ==> plan[i].symbol != plan[j].symbol
  }

  predicate DistinctLegs(legs: seq<LegRecord>) {
    forall i, j :: 0 <= i < j < |legs| ==> legs[i].symbol != legs[j].symbol
  }

  function EntryEvents(req: EntryRequest, id: nat, answer: Answer): seq<Event> {
    [Opened(req.symbol), EntrySent(id, req.symbol, req.side, req.quantity), EntryAnswered(id, req.symbol, answer)]
  }

  lemma EntrySummary(cfg: RiskConfig, s: Shared, req: EntryRequest, script: Script)
    requires req.symbol !in s.risk.open
    ensures var (s', c') := Alone(cfg, s, NewEntry(req), script);
            var result := EntryResultOf(c');
            && s'.inFlight == s.inFlight
            && s'.log == s.log + (if result.NotSent? then [] else EntryEvents(req, s.store.orderSeq + 1, script.answer))
            && (result.EntryFilled? <==> !result.NotSent? && script.answer.Fill?)
            && s'.risk.open.Keys == s.risk.open.Keys
                 + (if result.EntryFilled? || result.EntryIndeterminate? then {req.symbol} else {})
            && (forall k :: k in s.risk.open ==> s'.risk.open[k] == s.risk.open[k])
            && (result.EntryFilled? ==>
                  s'.risk.open[req.symbol].margin == if UsesMargin(req) then req.requiredMargin else 0.0)
  {
    var sent, s1, c1 := EntryUpToSend(cfg, s, req, script);
    if sent {
      EntryAfterAnswer(cfg, s1, c1, script);
      assert s.log + [Opened(req.symbol), EntrySent(c1.id, req.symbol, req.side, req.quantity)]
             + [EntryAnswered(c1.id, req.symbol, script.answer)]
          == s.log + EntryEvents(req, c1.id, script.answer);
      assert s1.risk.open == s.risk.open[req.symbol := s1.risk.open[req.symbol]];
    } else {
      assert s.log + [] == s.log;
    }
  }

  lemma ExitSummary(cfg: RiskConfig, s: Shared, leg: LegRecord, script: Script)
    ensures var s' := Alone(cfg, s, NewExit(leg.symbol, leg.record), script).0;
            var closes := ExitResultOf(s, leg.symbol, script.answer).ExitFilled?;
            && s'.inFlight == s.inFlight
            && (closes <==> leg.symbol !in s.inFlight && leg.symbol in s.risk.open && script.answer.Fill?)
            && s'.risk.open == (if closes then s.risk.open - {leg.symbol} else s.risk.open)
            && |s.log| <= |s'.log| && s'.log[..|s.log|] == s.log
            && NoEntryEvents(s'.log[|s.log|..])
  {
    ExitEffects(cfg, s, leg.symbol, leg.record, script);
  }

  // ---- What is held afterwards ----

  // The exit of this leg reaches the broker and is filled, provided the leg is held.
  predicate FillsExit(flags: set<Symbol>, leg: LegRecord, script: Script) {
    leg.symbol !in flags && script.answer.Fill?
  }

  function ClosedBy(flags: set<Symbol>, legs: seq<LegRecord>, feed: Feed, k: nat): set<Symbol> {
    if legs == [] then {}
    else (if FillsExit(flags, legs[0], feed(k)) then {legs[0].symbol} else {}) + ClosedBy(flags, legs[1..], feed, k + 1)
  }

  // Closing legs takes out of the book exactly those whose exit fills, and touches no other.
  lemma {:induction false} ExitLegsHeld(cfg: RiskConfig, s: Shared, legs: seq<LegRecord>, feed: Feed, k: nat)
    ensures var s' := ExitLegs(cfg, s, legs, feed, k).0;
            && s'.inFlight == s.inFlight
            && s'.risk.open == s.risk.open - ClosedBy(s.inFlight, legs, feed, k)
    decreases |legs|
  {
    if legs != [] {
      var s1 := Alone(cfg, s, NewExit(legs[0].symbol, legs[0].record), feed(k)).0;
      ExitSummary(cfg, s, legs[0], feed(k));
      ExitLegsHeld(cfg, s1, legs[1..], feed, k + 1);
    }
  }

  // Every leg's exit is filled.
  ghost predicate AllClose(s: Shared, legs: seq<LegRecord>, feed: Feed, k: nat) {
    forall i :: 0 <= i < |legs| ==> legs[i].symbol in s.risk.open && FillsExit(s.inFlight, legs[i], feed(k + i))
  }

  // An exit of distinct legs counts as complete exactly when every leg is held, free of
  // another exit, and filled by the broker.
  lemma {:induction false} ExitLegsCompleteIff(cfg: RiskConfig, s: Shared, legs: seq<LegRecord>, feed: Feed, k: nat)
    requires DistinctLegs(legs)
    ensures ExitLegs(cfg, s, legs, feed, k).1 <==> AllClose(s, legs, feed, k)
    decreases |legs|
  {
    if legs != [] {
      var rest := legs[1..];
      var s1 := Alone(cfg, s, NewExit(legs[0].symbol, legs[0].record), feed(k)).0;
      ExitSummary(cfg, s, legs[0], feed(k));
      ExitLegsCompleteIff(cfg, s1, rest, feed, k + 1);
      AllCloseCons(s, s1, legs, feed, k);
    }
  }

  lemma AllCloseCons(s: Shared, s1: Shared, legs: seq<LegRecord>, feed: Feed, k: nat)
    requires legs != [] && DistinctLegs(legs)
    requires s1.inFlight == s.inFlight
    requires s1.risk.open == s.risk.open || s1.risk.open == s.risk.open - {legs[0].symbol}
    ensures AllClose(s, legs, feed, k)
       <==> legs[0].symbol in s.risk.open && FillsExit(s.inFlight, legs[0], feed(k)) && AllClose(s1, legs[1..], feed, k + 1)
  {
    var rest := legs[1..];
    if AllClose(s, legs, feed, k) {
      forall i | 0 <= i < |rest|
        ensures rest[i].symbol in s1.risk.open && FillsExit(s1.inFlight, rest[i], feed(k + 1 + i))
      {
        assert rest[i] == legs[i + 1] && k + 1 + i == k + (i + 1);
        assert legs[0].symbol != legs[i + 1].symbol;
      }
      assert k + 0 == k && legs[0].symbol in s.risk.open;
    }
    if AllClose(s1, rest, feed, k + 1) && legs[0].symbol in s.risk.open && FillsExit(s.inFlight, legs[0], feed(k)) {
      forall i | 0 <= i < |legs|
        ensures legs[i].symbol in s.risk.open && FillsExit(s.inFlight, legs[i], feed(k + i))
      {
        if i > 0 {
          assert rest[i - 1] == legs[i] && k + 1 + (i - 1) == k + i;
        }
      }
    }
  }

  lemma {:induction false} AllCloseClosesAll(s: Shared, legs: seq<LegRecord>, feed: Feed, k: nat)
    requires forall i :: 0 <= i < |legs| ==> FillsExit(s.inFlight, legs[i], feed(k + i))
    ensures forall i :: 0 <= i < |legs| ==> legs[i].symbol in ClosedBy(s.inFlight, legs, feed, k)
    decreases |legs|
  {
    if legs != [] {
      var rest := legs[1..];
      forall i | 0 <= i < |rest| ensures FillsExit(s.inFlight, rest[i], feed(k + 1 + i)) {
        assert rest[i] == legs[i + 1] && k + 1 + i == k + (i + 1);
      }
      AllCloseClosesAll(s, rest, feed, k + 1);
      assert k + 0 == k && FillsExit(s.inFlight, legs[0], feed(k + 0));
      forall i | 0 <= i < |legs| ensures legs[i].symbol in ClosedBy(s.inFlight, legs, feed, k) {
        assert i > 0 ==> rest[i - 1] == legs[i];
      }
    }
  }

  // ---- Entering: the invariant along the legs ----

  predicate RecordsOf(plan: seq<PlannedLeg>, filled: seq<LegRecord>) {
    && |filled| <= |plan|
    && forall i :: 0 <= i < |filled| ==> filled[i].symbol == plan[i].symbol && filled[i].side == plan[i].side
  }

  function SymbolsOf(plan: seq<PlannedLeg>): set<Symbol> {
    set i | 0 <= i < |plan| :: plan[i].symbol
  }

  // The book is the old one plus the filled legs, each with its share of the margin, plus
  // the leg whose fate is unknown if that is what stopped the entry.
  ghost predicate Entered(before: Shared, p: Progress, plan: seq<PlannedLeg>, perSell: real) {
    && RecordsOf(plan, p.filled)
    && p.shared.inFlight == before.inFlight
    && p.shared.risk.open.Keys == before.risk.open.Keys + SymbolsOf(plan[..|p.filled|])
         + (if p.stopped == Some(EntryIndeterminate) && |p.filled| < |plan| then {plan[|p.filled|].symbol} else {})
    && (forall k :: k in before.risk.open ==> p.shared.risk.open[k] == before.risk.open[k])
    && (forall i :: 0 <= i < |p.filled| ==>
          plan[i].symbol in p.shared.risk.open
          && p.shared.risk.open[plan[i].symbol].margin == if plan[i].side.Sell? then perSell else 0.0)
    && (p.stopped.Some? ==> |p.filled| < |plan| && !p.stopped.value.EntryFilled?)
  }

  ghost predicate Enterable(before: Shared, plan: seq<PlannedLeg>) {
    Distinct(plan) && forall i :: 0 <= i < |plan| ==> plan[i].symbol !in before.risk.open
  }

  // The progress after one more leg.
  function EnterOne(cfg: RiskConfig, done: Progress, plan: seq<PlannedLeg>, perSell: real, script: Script): Progress
    requires done.stopped.None? && |done.filled| < |plan|
  {
    var leg := plan[|done.filled|];
    var (s, c) := Alone(cfg, done.shared, NewEntry(LegRequest(leg, perSell)), script);
    match EntryResultOf(c)
    case EntryFilled(_, price, id) =>
      Progress(s, done.filled + [LegRecord(leg.symbol, leg.side, Some(id))], done.premium + price, None)
    case other => Progress(s, done.filled, done.premium, Some(other))
  }

  lemma EnterUnrolls(cfg: RiskConfig, done: Progress, plan: seq<PlannedLeg>, perSell: real, feed: Feed, k: nat)
    ensures Enter(cfg, done, plan, perSell, feed, k) ==
            if done.stopped.Some? || |done.filled| >= |plan| then done
            else Enter(cfg, EnterOne(cfg, done, plan, perSell, feed(k)), plan, perSell, feed, k + 1)
  {
  }

  // What one more leg can do, seen from outside.
  ghost predicate LegOutcome(done: Progress, next: Progress, leg: PlannedLeg, perSell: real) {
    && next.shared.inFlight == done.shared.inFlight
    && (forall k :: k in done.shared.risk.open ==>
          k in next.shared.risk.open && next.shared.risk.open[k] == done.shared.risk.open[k])
    && next.shared.risk.open.Keys == done.shared.risk.open.Keys
         + (if next.stopped.None? || next.stopped.value.EntryIndeterminate? then {leg.symbol} else {})
    && (next.stopped.None? ==>
          && (exists id :: next.filled == done.filled + [LegRecord(leg.symbol, leg.side, id)])
          && leg.symbol in next.shared.risk.open
          && next.shared.risk.open[leg.symbol].margin == if leg.side.Sell? then perSell else 0.0)
    && (next.stopped.Some? ==> next.filled == done.filled && !next.stopped.value.EntryFilled?)
  }

  lemma EnterOneOutcome(cfg: RiskConfig, done: Progress, plan: seq<PlannedLeg>, perSell: real, script: Script)
    requires done.stopped.None? && |done.filled| < |plan| && plan[|done.filled|].symbol !in done.shared.risk.open
    ensures LegOutcome(done, EnterOne(cfg, done, plan, perSell, script), plan[|done.filled|], perSell)
  {
    EntrySummary(cfg, done.shared, LegRequest(plan[|done.filled|], perSell), script);
  }

  lemma EnteredFollows(before: Shared, done: Progress, next: Progress, plan: seq<PlannedLeg>, perSell: real)
    requires Entered(before, done, plan, perSell) && done.stopped.None? && |done.filled| < |plan|
    requires LegOutcome(done, next, plan[|done.filled|], perSell)
    ensures Entered(before, next, plan, perSell)
  {
    var n := |done.filled|;
    SymbolsSnoc(plan, n);
    MarginsFollow(before, done, next, plan, perSell);
    if next.stopped.None? {
      assert next.shared.risk.open.Keys == before.risk.open.Keys + SymbolsOf(plan[..n]) + {plan[n].symbol};
    }
  }

  lemma MarginsFollow(before: Shared, done: Progress, next: Progress, plan: seq<PlannedLeg>, perSell: real)
    requires Entered(before, done, plan, perSell) && done.stopped.None? && |done.filled| < |plan|
    requires LegOutcome(done, next, plan[|done.filled|], perSell)
    ensures forall i :: 0 <= i < |next.filled| ==>
      && plan[i].symbol in next.shared.risk.open
      && next.shared.risk.open[plan[i].symbol].margin == if plan[i].side.Sell? then perSell else 0.0
  {
    forall i | 0 <= i < |next.filled|
      ensures plan[i].symbol in next.shared.risk.open
           && next.shared.risk.open[plan[i].symbol].margin == if plan[i].side.Sell? then perSell else 0.0
    {
      assert i < |done.filled| ==> plan[i].symbol in done.shared.risk.open;
    }
  }

  lemma EnterOneEntered(cfg: RiskConfig, before: Shared, done: Progress, plan: seq<PlannedLeg>, perSell: real, script: Script)
    requires Enterable(before, plan) && Entered(before, done, plan, perSell)
    requires done.stopped.None? && |done.filled| < |plan|
    ensures Entered(before, EnterOne(cfg, done, plan, perSell, script), plan, perSell)
  {
    NextLegIsNew(before, done, plan, perSell);
    EnterOneOutcome(cfg, done, plan, perSell, script);
    EnteredFollows(before, done, EnterOne(cfg, done, plan, perSell, script), plan, perSell);
  }

  lemma NextLegIsNew(before: Shared, done: Progress, plan: seq<PlannedLeg>, perSell: real)
    requires Enterable(before, plan) && Entered(before, done, plan, perSell)
    requires done.stopped.None? && |done.filled| < |plan|
    ensures plan[|done.filled|].symbol !in done.shared.risk.open
  {
    var n := |done.filled|;
    assert plan[n].symbol !in SymbolsOf(plan[..n]);
  }

  lemma SymbolsSnoc(plan: seq<PlannedLeg>, n: nat)
    requires n < |plan|
    ensures SymbolsOf(plan[..n + 1]) == SymbolsOf(plan[..n]) + {plan[n].symbol}
  {
    var shorter, longer := plan[..n], plan[..n + 1];
    forall x | x in SymbolsOf(longer) ensures x in SymbolsOf(shorter) + {plan[n].symbol} {
      var i :| 0 <= i < |longer| && longer[i].symbol == x;
      assert i < n ==> shorter[i].symbol == x;
    }
    forall x | x in SymbolsOf(shorter) ensures x in SymbolsOf(longer) {
      var i :| 0 <= i < |shorter| && shorter[i].symbol == x;
      assert longer[i].symbol == x;
    }
    assert longer[n].symbol == plan[n].symbol;
  }

  lemma {:induction false} EnterKeepsEntered(cfg: RiskConfig, before: Shared, done: Progress, plan: seq<PlannedLeg>,
                                             perSell: real, feed: Feed, k: nat)
    requires Enterable(before, plan) && Entered(before, done, plan, perSell)
    ensures var p := Enter(cfg, done, plan, perSell, feed, k);
            Entered(before, p, plan, perSell) && (p.stopped.None? ==> |p.filled| == |plan|)
    decreases |plan| - |done.filled|, if done.stopped.None? then 1 else 0
  {
    EnterUnrolls(cfg, done, plan, perSell, feed, k);
    if done.stopped.None? && |done.filled| < |plan| {
      EnterOneEntered(cfg, before, done, plan, perSell, feed(k));
      EnterKeepsEntered(cfg, before, EnterOne(cfg, done, plan, perSell, feed(k)), plan, perSell, feed, k + 1);
    }
  }

  // Entering legs over distinct symbols that are not held. If every leg fills, exactly the
  // planned symbols are added to the book. If leg k is rejected or never sent, what is added
  // is the earlier legs whose own unwind was not filled; if its fate is unknown, that leg
  // stays as well.
  lemma EnterOrUnwindHeld(cfg: RiskConfig, s: Shared, plan: seq<PlannedLeg>, perSell: real, feed: Feed, k: nat)
    requires Enterable(s, plan)
    ensures HeldAfter(s, plan, EnterOrUnwind(cfg, s, plan, perSell, feed, k), feed, k)
  {
    var e := EnterFromScratch(cfg, s, plan, perSell, feed, k);
    UnwoundHeld(cfg, s, e, plan, perSell, feed, k);
  }

  lemma UnwoundHeld(cfg: RiskConfig, s: Shared, e: Progress, plan: seq<PlannedLeg>, perSell: real, feed: Feed, k: nat)
    requires Enterable(s, plan) && Entered(s, e, plan, perSell) && (e.stopped.None? ==> |e.filled| == |plan|)
    ensures HeldAfter(s, plan, Unwound(cfg, e, feed, k), feed, k)
  {
    if e.stopped.None? {
      EntirelyEntered(s, e, plan, perSell, feed, k);
    } else {
      UnwindOutcome(cfg, e, feed, k);
      UnwindHeld(s, e, Unwound(cfg, e, feed, k), plan, perSell, feed, k);
    }
  }

  // Unwinding changes nothing of the progress but what was closed.
  ghost predicate ClosesFilled(e: Progress, p: Progress, feed: Feed, k: nat) {
    && p == e.(shared := p.shared) && p.shared.inFlight == e.shared.inFlight
    && p.shared.risk.open == e.shared.risk.open - ClosedBy(e.shared.inFlight, e.filled, feed, k + |e.filled| + 1)
  }

  lemma UnwindOutcome(cfg: RiskConfig, e: Progress, feed: Feed, k: nat)
    requires e.stopped.Some?
    ensures ClosesFilled(e, Unwound(cfg, e, feed, k), feed, k)
  {
    ExitLegsHeld(cfg, e.shared, e.filled, feed, k + |e.filled| + 1);
  }

  ghost predicate HeldAfter(s: Shared, plan: seq<PlannedLeg>, p: Progress, feed: Feed, k: nat) {
    var n, held' := |p.filled|, p.shared.risk.open.Keys;
    && RecordsOf(plan, p.filled) && p.shared.inFlight == s.inFlight
    && (p.stopped.None? ==> n == |plan| && held' == s.risk.open.Keys + SymbolsOf(plan))
    && (p.stopped.Some? ==>
          && n < |plan| && !p.stopped.value.EntryFilled?
          && held' == s.risk.open.Keys
               + (SymbolsOf(plan[..n]) - ClosedBy(s.inFlight, p.filled, feed, k + n + 1))
               + (if p.stopped.value.EntryIndeterminate? then {plan[n].symbol} else {}))
  }

  lemma EntirelyEntered(s: Shared, e: Progress, plan: seq<PlannedLeg>, perSell: real, feed: Feed, k: nat)
    requires Entered(s, e, plan, perSell) && e.stopped.None? && |e.filled| == |plan|
    ensures HeldAfter(s, plan, e, feed, k)
  {
    assert plan[..|plan|] == plan;
  }

  lemma UnwindHeld(s: Shared, e: Progress, p: Progress, plan: seq<PlannedLeg>, perSell: real, feed: Feed, k: nat)
    requires Enterable(s, plan) && Entered(s, e, plan, perSell) && e.stopped.Some?
    requires ClosesFilled(e, p, feed, k)
    ensures HeldAfter(s, plan, p, feed, k)
  {
    assert plan[|e.filled|].symbol !in SymbolsOf(plan[..|e.filled|]);
    EnteredSymbolsAreNew(s, plan, |e.filled|);
    HeldOnceClosed(s, e, p, plan, feed, k);
  }

  lemma EnteredSymbolsAreNew(s: Shared, plan: seq<PlannedLeg>, n: nat)
    requires Enterable(s, plan) && n <= |plan|
    ensures SymbolsOf(plan[..n]) !! s.risk.open.Keys
  {
  }

  lemma HeldOnceClosed(s: Shared, e: Progress, p: Progress, plan: seq<PlannedLeg>, feed: Feed, k: nat)
    requires RecordsOf(plan, e.filled) && |e.filled| < |plan| && e.shared.inFlight == s.inFlight
    requires e.stopped.Some? && !e.stopped.value.EntryFilled? && ClosesFilled(e, p, feed, k)
    requires plan[|e.filled|].symbol !in SymbolsOf(plan[..|e.filled|]) && SymbolsOf(plan[..|e.filled|]) !! s.risk.open.Keys
    requires e.shared.risk.open.Keys == s.risk.open.Keys + SymbolsOf(plan[..|e.filled|])
               + (if e.stopped.value.EntryIndeterminate? then {plan[|e.filled|].symbol} else {})
    ensures HeldAfter(s, plan, p, feed, k)
  {
    var n := |e.filled|;
    var closed := ClosedBy(s.inFlight, e.filled, feed, k + n + 1);
    var extra := if e.stopped.value.EntryIndeterminate? then {plan[n].symbol} else {};
    ClosedInPlan(plan, e.filled, s.inFlight, feed, k + n + 1);
    TakeFromMiddle(s.risk.open.Keys, SymbolsOf(plan[..n]), extra, closed);
    assert p.shared.risk.open.Keys == e.shared.risk.open.Keys - closed;
  }

  lemma ClosedInPlan(plan: seq<PlannedLeg>, filled: seq<LegRecord>, flags: set<Symbol>, feed: Feed, k: nat)
    requires RecordsOf(plan, filled)
    ensures ClosedBy(flags, filled, feed, k) <= SymbolsOf(plan[..|filled|])
  {
    ClosedAreLegs(flags, filled, feed, k);
    forall x | x in ClosedBy(flags, filled, feed, k)
      ensures x in SymbolsOf(plan[..|filled|])
    {
      var i :| 0 <= i < |filled| && filled[i].symbol == x;
      assert plan[..|filled|][i].symbol == x;
    }
  }

  lemma TakeFromMiddle(base: set<Symbol>, part: set<Symbol>, extra: set<Symbol>, closed: set<Symbol>)
    requires closed <= part && part !! base && part !! extra
    ensures base + part + extra - closed == base + (part - closed) + extra
  {
  }

  lemma EnterFromScratch(cfg: RiskConfig, s: Shared, plan: seq<PlannedLeg>, perSell: real, feed: Feed, k: nat)
    returns (e: Progress)
    requires Enterable(s, plan)
    ensures EnterOrUnwind(cfg, s, plan, perSell, feed, k) == Unwound(cfg, e, feed, k)
    ensures Entered(s, e, plan, perSell) && (e.stopped.None? ==> |e.filled| == |plan|)
    ensures AlwaysInSequence(s.log, e.shared.log, plan)
  {
    var start := Progress(s, [], 0.0, None);
    e := Enter(cfg, start, plan, perSell, feed, k);
    assert SymbolsOf(plan[..0]) == {};
    SequenceStarts(s.log, plan);
    EnterKeepsEntered(cfg, s, start, plan, perSell, feed, k);
    EnterInSequence(cfg, s, start, plan, perSell, feed, k);
  }

  lemma {:induction false} ClosedAreLegs(flags: set<Symbol>, legs: seq<LegRecord>, feed: Feed, k: nat)
    ensures forall x :: x in ClosedBy(flags, legs, feed, k) ==> exists i :: 0 <= i < |legs| && legs[i].symbol == x
    decreases |legs|
  {
    if legs != [] {
      ClosedAreLegs(flags, legs[1..], feed, k + 1);
      forall x | x in ClosedBy(flags, legs, feed, k) ensures exists i :: 0 <= i < |legs| && legs[i].symbol == x {
        if x in ClosedBy(flags, legs[1..], feed, k + 1) {
          var i :| 0 <= i < |legs[1..]| && legs[1..][i].symbol == x;
          assert legs[i + 1].symbol == x;
        } else {
          assert legs[0].symbol == x;
        }
      }
    }
  }

  // In particular, when every unwind is filled a failed entry leaves the book as it was,
  // but for a leg whose fate is unknown.
  lemma FailedEntryUnwound(cfg: RiskConfig, s: Shared, plan: seq<PlannedLeg>, perSell: real, feed: Feed, k: nat, p: Progress)
    requires Enterable(s, plan)
    requires p == EnterOrUnwind(cfg, s, plan, perSell, feed, k) && p.stopped.Some?
    requires forall i :: 0 <= i < |p.filled| ==> FillsExit(s.inFlight, p.filled[i], feed(k + |p.filled| + 1 + i))
    ensures |p.filled| < |plan|
    ensures p.shared.risk.open.Keys ==
              s.risk.open.Keys + (if p.stopped.value.EntryIndeterminate? then {plan[|p.filled|].symbol} else {})
  {
    EnterOrUnwindHeld(cfg, s, plan, perSell, feed, k);
    NothingStays(s, plan, p, feed, k);
  }

  lemma NothingStays(s: Shared, plan: seq<PlannedLeg>, p: Progress, feed: Feed, k: nat)
    requires HeldAfter(s, plan, p, feed, k) && p.stopped.Some?
    requires forall i :: 0 <= i < |p.filled| ==> FillsExit(s.inFlight, p.filled[i], feed(k + |p.filled| + 1 + i))
    ensures |p.filled| < |plan|
    ensures p.shared.risk.open.Keys ==
              s.risk.open.Keys + (if p.stopped.value.EntryIndeterminate? then {plan[|p.filled|].symbol} else {})
  {
    NothingKept(s, plan, p, feed, k);
  }

  lemma NothingKept(s: Shared, plan: seq<PlannedLeg>, p: Progress, feed: Feed, k: nat)
    requires RecordsOf(plan, p.filled)
    requires forall i :: 0 <= i < |p.filled| ==> FillsExit(s.inFlight, p.filled[i], feed(k + |p.filled| + 1 + i))
    ensures SymbolsOf(plan[..|p.filled|]) <= ClosedBy(s.inFlight, p.filled, feed, k + |p.filled| + 1)
  {
    var n := |p.filled|;
    AllCloseClosesAll(s, p.filled, feed, k + n + 1);
    forall x | x in SymbolsOf(plan[..n]) ensures x in ClosedBy(s.inFlight, p.filled, feed, k + n + 1) {
      var i :| 0 <= i < n && plan[..n][i].symbol == x;
      assert p.filled[i].symbol == x;
    }
  }

  // ---- The basket's margin ----

  ghost function MarginLocked(open: map<Symbol, Position>, plan: seq<PlannedLeg>): real
    requires forall i :: 0 <= i < |plan| ==> plan[i].symbol in open
  {
    if plan == [] then 0.0
    else
      var n := |plan| - 1;
      assert forall i :: 0 <= i < n ==> plan[..n][i].symbol == plan[i].symbol;
      MarginLocked(open, plan[..n]) + open[plan[n].symbol].margin
  }

  lemma {:induction false} MarginAdds(open: map<Symbol, Position>, plan: seq<PlannedLeg>, perSell: real)
    requires forall i :: 0 <= i < |plan| ==>
               plan[i].symbol in open && open[plan[i].symbol].margin == if plan[i].side.Sell? then perSell else 0.0
    ensures MarginLocked(open, plan) == perSell * SellCount(plan) as real
    decreases |plan|
  {
    if plan != [] {
      var n := |plan| - 1;
      assert forall i :: 0 <= i < n ==> plan[..n][i] == plan[i];
      MarginAdds(open, plan[..n], perSell);
    }
  }

  lemma SharesAddUp(plan: seq<PlannedLeg>, total: real)
    ensures PerSellLeg(plan, total) * SellCount(plan) as real == if SellCount(plan) > 0 then total else 0.0
  {
  }

  // When the whole structure is on, the margin locked over its legs is the basket total,
  // nothing more and nothing less (none when no leg is short).
  lemma {:induction false} BasketMarginConserved(cfg: RiskConfig, s: Shared, plan: seq<PlannedLeg>, total: real, feed: Feed, k: nat, p: Progress)
    requires Enterable(s, plan)
    requires p == EnterOrUnwind(cfg, s, plan, PerSellLeg(plan, total), feed, k) && p.stopped.None?
    ensures forall i :: 0 <= i < |plan| ==> plan[i].symbol in p.shared.risk.open
    ensures MarginLocked(p.shared.risk.open, plan) == if SellCount(plan) > 0 then total else 0.0
  {
    EnteredWhole(cfg, s, plan, PerSellLeg(plan, total), feed, k, p);
    WholeMargin(s, p, plan, total);
  }

  lemma WholeMargin(s: Shared, p: Progress, plan: seq<PlannedLeg>, total: real)
    requires Entered(s, p, plan, PerSellLeg(plan, total)) && |p.filled| == |plan|
    ensures forall i :: 0 <= i < |plan| ==> plan[i].symbol in p.shared.risk.open
    ensures MarginLocked(p.shared.risk.open, plan) == if SellCount(plan) > 0 then total else 0.0
  {
    EnteredMargins(s, p, plan, PerSellLeg(plan, total));
    MarginAdds(p.shared.risk.open, plan, PerSellLeg(plan, total));
    SharesAddUp(plan, total);
  }

  lemma EnteredWhole(cfg: RiskConfig, s: Shared, plan: seq<PlannedLeg>, perSell: real, feed: Feed, k: nat, p: Progress)
    requires Enterable(s, plan)
    requires p == EnterOrUnwind(cfg, s, plan, perSell, feed, k) && p.stopped.None?
    ensures Entered(s, p, plan, perSell) && |p.filled| == |plan|
  {
    var e := EnterFromScratch(cfg, s, plan, perSell, feed, k);
  }

  // Every leg of a finished entry is held, a short one with its share of the margin.
  lemma EnteredMargins(s: Shared, e: Progress, plan: seq<PlannedLeg>, perSell: real)
    requires Entered(s, e, plan, perSell) && |e.filled| == |plan|
    ensures forall i :: 0 <= i < |plan| ==>
              plan[i].symbol in e.shared.risk.open
              && e.shared.risk.open[plan[i].symbol].margin == if plan[i].side.Sell? then perSell else 0.0
  {
  }

  // ---- The order in which legs reach the broker ----

  predicate NoEntryEvents(log: seq<Event>) {
    forall i :: 0 <= i < |log| ==> !log[i].EntrySent? && !log[i].EntryAnswered?
  }

  // Symbols of entry orders sent, in order.
  function SentLegs(log: seq<Event>): seq<(Symbol, Side, int)> {
    if log == [] then []
    else SentLegs(log[..|log| - 1])
         + (if log[|log| - 1].EntrySent? then [(log[|log| - 1].symbol, log[|log| - 1].side, log[|log| - 1].quantity)] else [])
  }

  // Symbols of entry orders the broker filled, in order.
  function FilledLegs(log: seq<Event>): seq<Symbol> {
    if log == [] then []
    else SentFill(log[|log| - 1], FilledLegs(log[..|log| - 1]))
  }

  function SentFill(e: Event, before: seq<Symbol>): seq<Symbol> {
    if e.EntryAnswered? && e.answer.Fill? then before + [e.symbol] else before
  }

  function AsSent(plan: seq<PlannedLeg>): seq<(Symbol, Side, int)> {
    seq(|plan|, i requires 0 <= i < |plan| => (plan[i].symbol, plan[i].side, plan[i].quantity))
  }

  function AsSymbols(plan: seq<PlannedLeg>): seq<Symbol> {
    seq(|plan|, i requires 0 <= i < |plan| => plan[i].symbol)
  }

  // At this moment the broker has filled exactly the first f planned legs and has been sent
  // exactly the first t, where t is f or f + 1.
  ghost predicate InSequence(before: seq<Event>, log: seq<Event>, plan: seq<PlannedLeg>, f: nat, t: nat) {
    && f <= t <= f + 1 && t <= |plan|
    && FilledLegs(log) == FilledLegs(before) + AsSymbols(plan[..f])
    && SentLegs(log) == SentLegs(before) + AsSent(plan[..t])
  }

  ghost predicate SomeSequence(before: seq<Event>, log: seq<Event>, plan: seq<PlannedLeg>) {
    exists f: nat, t: nat :: InSequence(before, log, plan, f, t)
  }

  // So it was at every moment since before.
  ghost predicate AlwaysInSequence(before: seq<Event>, log: seq<Event>, plan: seq<PlannedLeg>) {
    && |before| <= |log| && log[..|before|] == before
    && forall n :: |before| <= n <= |log| ==> SomeSequence(before, log[..n], plan)
  }

  lemma AppendEvent(log: seq<Event>, e: Event)
    ensures FilledLegs(log + [e]) == SentFill(e, FilledLegs(log))
    ensures SentLegs(log + [e]) == SentLegs(log) + (if e.EntrySent? then [(e.symbol, e.side, e.quantity)] else [])
  {
    assert (log + [e])[..|log|] == log;
  }

  lemma AlwaysAppend(before: seq<Event>, log: seq<Event>, e: Event, plan: seq<PlannedLeg>)
    requires AlwaysInSequence(before, log, plan)
    requires SomeSequence(before, log + [e], plan)
    ensures AlwaysInSequence(before, log + [e], plan)
  {
    var log' := log + [e];
    assert log'[..|before|] == log[..|before|];
    forall n | |before| <= n <= |log'| ensures SomeSequence(before, log'[..n], plan) {
      if n == |log'| {
        assert log'[..n] == log';
      } else {
        assert log'[..n] == log[..n];
      }
    }
  }

  lemma {:induction false} AlwaysAppendQuiet(before: seq<Event>, log: seq<Event>, more: seq<Event>, plan: seq<PlannedLeg>)
    requires AlwaysInSequence(before, log, plan) && NoEntryEvents(more)
    ensures AlwaysInSequence(before, log + more, plan)
    decreases |more|
  {
    if more == [] {
      assert log + more == log;
    } else {
      var n := |more| - 1;
      var log1 := log + more[..n];
      AlwaysAppendQuiet(before, log, more[..n], plan);
      assert log1[..|log1|] == log1;
      var f: nat, t: nat :| InSequence(before, log1, plan, f, t);
      AppendEvent(log1, more[n]);
      assert InSequence(before, log1 + [more[n]], plan, f, t);
      AlwaysAppend(before, log1, more[n], plan);
      assert log1 + [more[n]] == log + more;
    }
  }

  lemma OpenedAppends(before: seq<Event>, log: seq<Event>, plan: seq<PlannedLeg>, f: nat, symbol: Symbol)
    requires AlwaysInSequence(before, log, plan) && InSequence(before, log, plan, f, f)
    ensures AlwaysInSequence(before, log + [Opened(symbol)], plan)
    ensures InSequence(before, log + [Opened(symbol)], plan, f, f)
  {
    AppendEvent(log, Opened(symbol));
    assert InSequence(before, log + [Opened(symbol)], plan, f, f);
    assert SomeSequence(before, log + [Opened(symbol)], plan);
    AlwaysAppend(before, log, Opened(symbol), plan);
  }

  lemma SentAppends(before: seq<Event>, log: seq<Event>, plan: seq<PlannedLeg>, f: nat, id: nat)
    requires AlwaysInSequence(before, log, plan) && f < |plan| && InSequence(before, log, plan, f, f)
    ensures var e := EntrySent(id, plan[f].symbol, plan[f].side, plan[f].quantity);
            AlwaysInSequence(before, log + [e], plan) && InSequence(before, log + [e], plan, f, f + 1)
  {
    var e := EntrySent(id, plan[f].symbol, plan[f].side, plan[f].quantity);
    AppendEvent(log, e);
    assert AsSent(plan[..f + 1]) == AsSent(plan[..f]) + [(e.symbol, e.side, e.quantity)];
    assert SentLegs(log + [e]) == SentLegs(before) + AsSent(plan[..f + 1]);
    assert InSequence(before, log + [e], plan, f, f + 1);
    assert SomeSequence(before, log + [e], plan);
    AlwaysAppend(before, log, e, plan);
  }

  lemma AnsweredAppends(before: seq<Event>, log: seq<Event>, plan: seq<PlannedLeg>, f: nat, id: nat, answer: Answer)
    requires AlwaysInSequence(before, log, plan) && f < |plan| && InSequence(before, log, plan, f, f + 1)
    ensures var e := EntryAnswered(id, plan[f].symbol, answer);
            && AlwaysInSequence(before, log + [e], plan)
            && InSequence(before, log + [e], plan, if answer.Fill? then f + 1 else f, f + 1)
  {
    var e := EntryAnswered(id, plan[f].symbol, answer);
    AppendEvent(log, e);
    assert AsSymbols(plan[..f + 1]) == AsSymbols(plan[..f]) + [plan[f].symbol];
    if answer.Fill? {
      assert FilledLegs(log + [e]) == FilledLegs(before) + AsSymbols(plan[..f + 1]);
      assert InSequence(before, log + [e], plan, f + 1, f + 1);
    } else {
      assert InSequence(before, log + [e], plan, f, f + 1);
    }
    assert SomeSequence(before, log + [e], plan);
    AlwaysAppend(before, log, e, plan);
  }

  lemma LegAppends(before: seq<Event>, log: seq<Event>, plan: seq<PlannedLeg>, perSell: real, f: nat, id: nat, answer: Answer)
    requires AlwaysInSequence(before, log, plan) && f < |plan| && InSequence(before, log, plan, f, f)
    ensures var log' := log + EntryEvents(LegRequest(plan[f], perSell), id, answer);
            && AlwaysInSequence(before, log', plan)
            && InSequence(before, log', plan, if answer.Fill? then f + 1 else f, f + 1)
  {
    var leg := plan[f];
    var log1 := log + [Opened(leg.symbol)];
    var log2 := log1 + [EntrySent(id, leg.symbol, leg.side, leg.quantity)];
    OpenedAppends(before, log, plan, f, leg.symbol);
    SentAppends(before, log1, plan, f, id);
    AnsweredAppends(before, log2, plan, f, id, answer);
    assert log2 + [EntryAnswered(id, leg.symbol, answer)] == log + EntryEvents(LegRequest(leg, perSell), id, answer);
  }

  // What one leg adds to the log: nothing if it stops unsent, else its events; it goes on only
  // when it filled.
  ghost predicate LegLogged(done: Progress, next: Progress, req: EntryRequest, id: nat, answer: Answer) {
    if next.shared.log == done.shared.log then next.stopped.Some?
    else
      && next.shared.log == done.shared.log + EntryEvents(req, id, answer)
      && (next.stopped.None? ==> answer.Fill? && |next.filled| == |done.filled| + 1)
  }

  lemma EnterOneLogs(cfg: RiskConfig, done: Progress, plan: seq<PlannedLeg>, perSell: real, script: Script)
    requires done.stopped.None? && |done.filled| < |plan|
    requires plan[|done.filled|].symbol !in done.shared.risk.open
    ensures LegLogged(done, EnterOne(cfg, done, plan, perSell, script), LegRequest(plan[|done.filled|], perSell),
                      done.shared.store.orderSeq + 1, script.answer)
  {
    EntrySummary(cfg, done.shared, LegRequest(plan[|done.filled|], perSell), script);
    assert done.shared.log + [] == done.shared.log;
  }

  lemma LegLogFollows(before: seq<Event>, done: Progress, next: Progress, plan: seq<PlannedLeg>, perSell: real, id: nat, answer: Answer)
    requires done.stopped.None? && |done.filled| < |plan|
    requires AlwaysInSequence(before, done.shared.log, plan)
    requires InSequence(before, done.shared.log, plan, |done.filled|, |done.filled|)
    requires LegLogged(done, next, LegRequest(plan[|done.filled|], perSell), id, answer)
    ensures AlwaysInSequence(before, next.shared.log, plan)
    ensures next.stopped.None? ==> InSequence(before, next.shared.log, plan, |next.filled|, |next.filled|)
  {
    LegAppends(before, done.shared.log, plan, perSell, |done.filled|, id, answer);
  }

  lemma EnterOneInSequence(cfg: RiskConfig, before: Shared, done: Progress, plan: seq<PlannedLeg>, perSell: real, script: Script)
    requires Enterable(before, plan) && Entered(before, done, plan, perSell)
    requires done.stopped.None? && |done.filled| < |plan|
    requires AlwaysInSequence(before.log, done.shared.log, plan)
    requires InSequence(before.log, done.shared.log, plan, |done.filled|, |done.filled|)
    ensures var next := EnterOne(cfg, done, plan, perSell, script);
            && AlwaysInSequence(before.log, next.shared.log, plan)
            && (next.stopped.None? ==> InSequence(before.log, next.shared.log, plan, |next.filled|, |next.filled|))
  {
    NextLegIsFree(before, done, plan, perSell);
    EnterOneLogs(cfg, done, plan, perSell, script);
    LegLogFollows(before.log, done, EnterOne(cfg, done, plan, perSell, script), plan, perSell,
                  done.shared.store.orderSeq + 1, script.answer);
  }

  lemma NextLegIsFree(before: Shared, done: Progress, plan: seq<PlannedLeg>, perSell: real)
    requires Enterable(before, plan) && Entered(before, done, plan, perSell)
    requires done.stopped.None? && |done.filled| < |plan|
    ensures plan[|done.filled|].symbol !in done.shared.risk.open
  {
    var f := |done.filled|;
    assert plan[f].symbol !in SymbolsOf(plan[..f]);
  }

  lemma {:induction false} EnterInSequence(cfg: RiskConfig, before: Shared, done: Progress, plan: seq<PlannedLeg>,
                                           perSell: real, feed: Feed, k: nat)
    requires Enterable(before, plan) && Entered(before, done, plan, perSell)
    requires AlwaysInSequence(before.log, done.shared.log, plan)
    requires done.stopped.None? ==> InSequence(before.log, done.shared.log, plan, |done.filled|, |done.filled|)
    ensures AlwaysInSequence(before.log, Enter(cfg, done, plan, perSell, feed, k).shared.log, plan)
    decreases |plan| - |done.filled|, if done.stopped.None? then 1 else 0
  {
    EnterUnrolls(cfg, done, plan, perSell, feed, k);
    if done.stopped.None? && |done.filled| < |plan| {
      EnterOneEntered(cfg, before, done, plan, perSell, feed(k));
      EnterOneInSequence(cfg, before, done, plan, perSell, feed(k));
      EnterInSequence(cfg, before, EnterOne(cfg, done, plan, perSell, feed(k)), plan, perSell, feed, k + 1);
    }
  }

  lemma {:induction false} ExitLegsQuiet(cfg: RiskConfig, s: Shared, legs: seq<LegRecord>, feed: Feed, k: nat)
    ensures var s' := ExitLegs(cfg, s, legs, feed, k).0;
            |s.log| <= |s'.log| && s'.log[..|s.log|] == s.log && NoEntryEvents(s'.log[|s.log|..])
    decreases |legs|
  {
    var s' := ExitLegs(cfg, s, legs, feed, k).0;
    if legs == [] {
      assert s.log[..|s.log|] == s.log;
    } else {
      var s1 := Alone(cfg, s, NewExit(legs[0].symbol, legs[0].record), feed(k)).0;
      ExitSummary(cfg, s, legs[0], feed(k));
      ExitLegsQuiet(cfg, s1, legs[1..], feed, k + 1);
      QuietTransitive(s.log, s1.log, s'.log);
    }
  }

  lemma QuietTransitive(a: seq<Event>, b: seq<Event>, c: seq<Event>)
    requires |a| <= |b| <= |c| && b[..|a|] == a && c[..|b|] == b
    requires NoEntryEvents(b[|a|..]) && NoEntryEvents(c[|b|..])
    ensures c[..|a|] == a && NoEntryEvents(c[|a|..])
  {
    assert c[..|a|] == c[..|b|][..|a|];
    forall i | 0 <= i < |c[|a|..]| ensures !c[|a|..][i].EntrySent? && !c[|a|..][i].EntryAnswered? {
      if i < |b| - |a| {
        assert c[|a|..][i] == c[..|b|][|a| + i] == b[|a|..][i];
      } else {
        assert c[|a|..][i] == c[|b|..][i - (|b| - |a|)];
      }
    }
  }

  // At every moment of a multi-leg entry, unwind included, the legs the broker has been sent
  // are the first ones of the plan in the plan's order, and all of them but possibly the
  // last have been filled: no leg goes out before every earlier leg has filled.
  lemma LegsGoOutInOrder(cfg: RiskConfig, s: Shared, plan: seq<PlannedLeg>, perSell: real, feed: Feed, k: nat)
    requires Enterable(s, plan)
    ensures AlwaysInSequence(s.log, EnterOrUnwind(cfg, s, plan, perSell, feed, k).shared.log, plan)
  {
    var e := EnterFromScratch(cfg, s, plan, perSell, feed, k);
    UnwoundInSequence(cfg, s.log, e, plan, feed, k);
  }

  lemma UnwoundInSequence(cfg: RiskConfig, before: seq<Event>, e: Progress, plan: seq<PlannedLeg>, feed: Feed, k: nat)
    requires AlwaysInSequence(before, e.shared.log, plan)
    ensures AlwaysInSequence(before, Unwound(cfg, e, feed, k).shared.log, plan)
  {
    if e.stopped.Some? {
      var s' := ExitLegs(cfg, e.shared, e.filled, feed, k + |e.filled| + 1).0;
      ExitLegsQuiet(cfg, e.shared, e.filled, feed, k + |e.filled| + 1);
      AlwaysAppendQuiet(before, e.shared.log, s'.log[|e.shared.log|..], plan);
      assert s'.log == e.shared.log + s'.log[|e.shared.log|..];
    }
  }

  lemma SequenceStarts(log: seq<Event>, plan: seq<PlannedLeg>)
    ensures InSequence(log, log, plan, 0, 0) && AlwaysInSequence(log, log, plan)
  {
    assert log[..|log|] == log;
    assert FilledLegs(log) == FilledLegs(log) + AsSymbols(plan[..0]);
    assert SentLegs(log) == SentLegs(log) + AsSent(plan[..0]);
    assert InSequence(log, log, plan, 0, 0);
    assert SomeSequence(log, log, plan);
  }

  // ---- Hedges first ----

  // No long leg is listed after a short one.
  predicate HedgesFirst(plan: seq<PlannedLeg>) {
    forall i, j :: 0 <= i < j < |plan| && plan[j].side.Buy? ==> plan[i].side.Buy?
  }

  // The iron fly's legs: two wings bought, then the body sold.
  function IronFly(wingWidth: int): seq<OrderLeg> {
    [OrderLeg(Buy, wingWidth, CE, 1), OrderLeg(Buy, -wingWidth, PE, 1),
     OrderLeg(Sell, 0, CE, 1), OrderLeg(Sell, 0, PE, 1)]
  }

  // The broker has filled a leg of this entry.
  predicate NewlyFilled(before: seq<Event>, log: seq<Event>, symbol: Symbol) {
    |FilledLegs(before)| <= |FilledLegs(log)| && symbol in FilledLegs(log)[|FilledLegs(before)|..]
  }

  // With hedges listed first, whenever during the entry a short leg of the plan has been
  // filled, every long leg of the plan has been filled before it.
  lemma HedgesFillFirst(cfg: RiskConfig, s: Shared, plan: seq<PlannedLeg>, perSell: real, feed: Feed, k: nat,
                        moment: seq<Event>, i: int, j: int)
    requires Enterable(s, plan) && HedgesFirst(plan)
    requires 0 <= i < |plan| && 0 <= j < |plan| && plan[i].side.Sell? && plan[j].side.Buy?
    requires s.log <= moment <= EnterOrUnwind(cfg, s, plan, perSell, feed, k).shared.log
    ensures NewlyFilled(s.log, moment, plan[i].symbol) ==> NewlyFilled(s.log, moment, plan[j].symbol)
  {
    LegsGoOutInOrder(cfg, s, plan, perSell, feed, k);
    InOrderHedges(s.log, EnterOrUnwind(cfg, s, plan, perSell, feed, k).shared.log, plan, moment, i, j);
  }

  lemma InOrderHedges(before: seq<Event>, whole: seq<Event>, plan: seq<PlannedLeg>, log: seq<Event>, i: int, j: int)
    requires AlwaysInSequence(before, whole, plan) && HedgesFirst(plan) && Distinct(plan)
    requires 0 <= i < |plan| && 0 <= j < |plan| && plan[i].side.Sell? && plan[j].side.Buy?
    requires before <= log <= whole
    ensures NewlyFilled(before, log, plan[i].symbol) ==> NewlyFilled(before, log, plan[j].symbol)
  {
    assert log == whole[..|log|];
    assert SomeSequence(before, log, plan);
    var f: nat, t: nat :| InSequence(before, log, plan, f, t);
    var filled := FilledLegs(log)[|FilledLegs(before)|..];
    assert filled == AsSymbols(plan[..f]);
    if plan[i].symbol in filled {
      var m :| 0 <= m < f && filled[m] == plan[i].symbol;
      assert plan[m].symbol == plan[i].symbol;
      assert m == i;
      assert j < i;
      assert filled[j] == plan[j].symbol;
    }
  }

  // The iron fly never has a short leg filled before both wings are.
  lemma IronFlyWingsFillFirst(cfg: RiskConfig, s: Shared, wingWidth: int, lotSize: int, target: (int, OptionType) -> Symbol,
                              perSell: real, feed: Feed, k: nat, plan: seq<PlannedLeg>, moment: seq<Event>, short: int)
    requires short == 2 || short == 3
    requires plan == Plan(IronFly(wingWidth), lotSize, target) && Enterable(s, plan)
    requires s.log <= moment <= EnterOrUnwind(cfg, s, plan, perSell, feed, k).shared.log
    ensures NewlyFilled(s.log, moment, plan[short].symbol) ==>
              NewlyFilled(s.log, moment, plan[0].symbol) && NewlyFilled(s.log, moment, plan[1].symbol)
  {
    HedgesFillFirst(cfg, s, plan, perSell, feed, k, moment, short, 0);
    HedgesFillFirst(cfg, s, plan, perSell, feed, k, moment, short, 1);
  }
}
