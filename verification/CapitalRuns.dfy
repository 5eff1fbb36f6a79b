/** Capital when calls interleave: when the capital law holds, and by how much an entry overdraws. */
module CapitalRuns {
  import opened Common
  import opened Charges
  import opened RiskModel
  import opened RiskCapital
  import opened StoreModel
  import opened OrderProtocol

  // ---- What a run does to the capital ----

  function MarginOf(req: EntryRequest): real {
    if UsesMargin(req) then req.requiredMargin else 0.0
  }

  // The operation of the risk manager that a step performs, if any.
  function OpOfStep(cfg: RiskConfig, s: Shared, c: Call, env: Env): Option<RiskOp> {
    match c
    case Entry(EOpen, req, price, _, _, _) =>
      if OpenFor(cfg, s.risk, req, env.now, price).None? then None
      else Some(OpOpen(env.now, req.symbol, price, req.quantity, req.tradeType, req.side, MarginOf(req)))
    case Entry(ERollback, req, _, _, _, _) => Some(OpRollback(req.symbol))
    case Entry(EFill, req, _, _, _, Some(a)) => Some(OpFill(req.symbol, FilledPrice(a), FilledQuantity(a)))
    case Exit(XClose, symbol, _, _, _, _, _, _, Some(a)) => Some(OpClose(symbol, FilledPrice(a)))
    case _ => None
  }

  function OpOf(cfg: RiskConfig, sys: System, a: Action): Option<RiskOp> {
    match a
    case Step(caller, env) => if caller < |sys.calls| then OpOfStep(cfg, sys.shared, sys.calls[caller], env) else None
    case StopTest(symbol, price) => Some(OpTick(symbol, price))
    case Kill => Some(OpKill)
    case _ => None
  }

  function After(cfg: RiskConfig, s: RiskState, op: Option<RiskOp>): RiskState {
    if op.None? then s else Apply(cfg, s, op.value)
  }

  lemma StepApplies(cfg: RiskConfig, s: Shared, c: Call, env: Env)
    ensures CallStep(cfg, s, c, env).0.risk == After(cfg, s.risk, OpOfStep(cfg, s, c, env))
  {
  }

  lemma NextApplies(cfg: RiskConfig, sys: System, a: Action)
    ensures Next(cfg, sys, a).shared.risk == After(cfg, sys.shared.risk, OpOf(cfg, sys, a))
  {
    if Moves(sys, a) {
      StepApplies(cfg, sys.shared, sys.calls[a.caller], a.env);
    }
  }

  // ---- The capital law ----

  // The operation opens nothing, or a symbol that is not held or had locked nothing.
  predicate ForgetsNothing(s: RiskState, op: Option<RiskOp>) {
    op.Some? && op.value.OpOpen? && op.value.symbol in s.open ==> s.open[op.value.symbol].lockedCapital == 0.0
  }

  // Every operation of the run, in the state it meets.
  predicate OpensForgetNothing(cfg: RiskConfig, sys: System, actions: seq<Action>) {
    actions == [] ||
    (var n := |actions| - 1;
     var before := OrderProtocol.Run(cfg, sys, actions[..n]);
     OpensForgetNothing(cfg, sys, actions[..n]) && ForgetsNothing(before.shared.risk, OpOf(cfg, before, actions[n])))
  }

  // At the start, at the end and at every moment between.
  ghost predicate BalancedThroughout(cfg: RiskConfig, sys: System, actions: seq<Action>) {
    && CapitalBalanced(OrderProtocol.Run(cfg, sys, actions).shared.risk)
    && (actions == [] || BalancedThroughout(cfg, sys, actions[..|actions| - 1]))
  }

  lemma OneOperation(cfg: RiskConfig, s: RiskState, op: Option<RiskOp>)
    requires Invariant(cfg, s)
    ensures CapitalBalanced(After(cfg, s, op)) <==> ForgetsNothing(s, op)
    ensures ForgetsNothing(s, op) ==> Invariant(cfg, After(cfg, s, op))
  {
    if op.Some? && op.value.OpOpen? && op.value.symbol in s.open {
      var OpOpen(now, symbol, price, quantity, t, side, margin) := op.value;
      ReopenBalancedIff(cfg, s, now, symbol, price, quantity, t, side, margin);
    } else if op.Some? {
      StepKeepsInvariant(cfg, s, op.value);
    }
  }

  lemma NextBalancedIff(cfg: RiskConfig, sys: System, a: Action)
    requires Invariant(cfg, sys.shared.risk)
    ensures var risk, op := Next(cfg, sys, a).shared.risk, OpOf(cfg, sys, a);
            && (CapitalBalanced(risk) <==> ForgetsNothing(sys.shared.risk, op))
            && (ForgetsNothing(sys.shared.risk, op) ==> Invariant(cfg, risk))
  {
    NextApplies(cfg, sys, a);
    OneOperation(cfg, sys.shared.risk, OpOf(cfg, sys, a));
  }

  // At every moment of an interleaved run the capital marked as used is what the open positions
  // lock, and the balance the initial one plus the profit, if and only if every open of the run
  // found its symbol not held, or held with nothing locked.
  lemma {:induction false} CapitalLawHoldsIff(cfg: RiskConfig, sys: System, actions: seq<Action>)
    requires Invariant(cfg, sys.shared.risk)
    ensures BalancedThroughout(cfg, sys, actions) <==> OpensForgetNothing(cfg, sys, actions)
    ensures OpensForgetNothing(cfg, sys, actions) ==> Invariant(cfg, OrderProtocol.Run(cfg, sys, actions).shared.risk)
    decreases |actions|
  {
    if actions != [] {
      var n := |actions| - 1;
      CapitalLawHoldsIff(cfg, sys, actions[..n]);
      if OpensForgetNothing(cfg, sys, actions[..n]) {
        NextBalancedIff(cfg, OrderProtocol.Run(cfg, sys, actions[..n]), actions[n]);
      }
    }
  }

  // ---- Funds ----

  // The capital that opening a checked entry will lock.
  function ToLock(cfg: RiskConfig, c: Call): real
    requires c.Entry?
  {
    Locked(c.price, c.req.quantity, MarginOf(c.req), cfg.fees(c.price, c.req.quantity, c.req.tradeType, c.req.side))
  }

  // What an action takes of the free capital.
  function TakenBy(cfg: RiskConfig, sys: System, a: Action): real {
    var taken := FreeCapital(sys.shared.risk) - FreeCapital(Next(cfg, sys, a).shared.risk);
    if taken > 0.0 then taken else 0.0
  }

  predicate IsCheckOf(sys: System, a: Action, i: nat) {
    Moves(sys, a) && a.caller == i && sys.calls[i].Entry? && sys.calls[i].epc.EStart?
  }

  // What has been taken since call i was checked.
  function TakenSince(cfg: RiskConfig, sys: System, actions: seq<Action>, i: nat): (taken: real)
    ensures 0.0 <= taken
  {
    if actions == [] then 0.0
    else
      var earlier, a := actions[..|actions| - 1], actions[|actions| - 1];
      var before := OrderProtocol.Run(cfg, sys, earlier);
      if IsCheckOf(before, a, i) then 0.0 else TakenSince(cfg, sys, earlier, i) + TakenBy(cfg, before, a)
  }

  lemma StepChecks(cfg: RiskConfig, s: Shared, c: Call, env: Env)
    ensures var (s', c') := CallStep(cfg, s, c, env);
            Checked(c') ==>
              && c.Entry? && s'.risk == s.risk
              && (if c.epc.EStart? then ToLock(cfg, c') <= FreeCapital(s.risk) else Checked(c) && ToLock(cfg, c') == ToLock(cfg, c))
  {
  }

  ghost predicate Covered(cfg: RiskConfig, sys: System, run: System, actions: seq<Action>) {
    forall i: nat :: i < |run.calls| && Checked(run.calls[i]) ==>
      ToLock(cfg, run.calls[i]) <= FreeCapital(run.shared.risk) + TakenSince(cfg, sys, actions, i)
  }

  lemma {:induction false} EntriesAreCovered(cfg: RiskConfig, sys: System, actions: seq<Action>)
    requires sys.calls == []
    ensures Covered(cfg, sys, OrderProtocol.Run(cfg, sys, actions), actions)
    decreases |actions|
  {
    if actions != [] {
      var n := |actions| - 1;
      var a, before := actions[n], OrderProtocol.Run(cfg, sys, actions[..n]);
      EntriesAreCovered(cfg, sys, actions[..n]);
      var run := Next(cfg, before, a);
      forall i: nat | i < |run.calls| && Checked(run.calls[i])
        ensures ToLock(cfg, run.calls[i]) <= FreeCapital(run.shared.risk) + TakenSince(cfg, sys, actions, i)
      {
        StillCovered(cfg, before, a, i, TakenSince(cfg, sys, actions[..n], i));
      }
    }
  }

  lemma StillCovered(cfg: RiskConfig, before: System, a: Action, i: nat, taken: real)
    requires var run := Next(cfg, before, a); i < |run.calls| && Checked(run.calls[i])
    requires 0.0 <= taken
    requires i < |before.calls| && Checked(before.calls[i]) ==> ToLock(cfg, before.calls[i]) <= FreeCapital(before.shared.risk) + taken
    ensures var run := Next(cfg, before, a);
            ToLock(cfg, run.calls[i]) <= FreeCapital(run.shared.risk) + if IsCheckOf(before, a, i) then 0.0 else taken + TakenBy(cfg, before, a)
  {
    if Moves(before, a) && a.caller == i {
      StepChecks(cfg, before.shared, before.calls[i], a.env);
    }
  }

  // The action opens an entry of call i.
  predicate Opens(cfg: RiskConfig, sys: System, a: Action, i: nat) {
    Moves(sys, a) && a.caller == i && OpOf(cfg, sys, a).Some? && OpOf(cfg, sys, a).value.OpOpen?
  }

  // In every interleaving: an open locks more than the balance by at most what was taken of the
  // free capital between its entry's check and itself; so nothing when nothing was taken.
  lemma OverdraftIsWhatOthersTook(cfg: RiskConfig, sys: System, actions: seq<Action>, a: Action, i: nat)
    requires sys.calls == [] && Opens(cfg, OrderProtocol.Run(cfg, sys, actions), a, i)
    ensures var risk := OrderProtocol.Run(cfg, sys, actions + [a]).shared.risk;
            risk.sessionBalanceUsed <= risk.currentBalance + TakenSince(cfg, sys, actions, i)
  {
    var before := OrderProtocol.Run(cfg, sys, actions);
    EntriesAreCovered(cfg, sys, actions);
    RunOneMore(cfg, sys, actions, a);
    NextApplies(cfg, before, a);
    assert ToLock(cfg, before.calls[i]) <= FreeCapital(before.shared.risk) + TakenSince(cfg, sys, actions, i);
  }

  // Only other entries' opens, corrections to a fill, closes, and rollbacks of a position that
  // had locked less than nothing take any.
  lemma OnlyTheseTake(cfg: RiskConfig, sys: System, a: Action)
    requires TakenBy(cfg, sys, a) > 0.0
    ensures OpOf(cfg, sys, a).Some?
    ensures var op, risk := OpOf(cfg, sys, a).value, sys.shared.risk;
            || (op.OpOpen? && Moves(sys, a) && sys.calls[a.caller].Entry? && TakenBy(cfg, sys, a) == ToLock(cfg, sys.calls[a.caller]))
            || (op.OpFill? && op.symbol in risk.open && op.price > 0.0
                && TakenBy(cfg, sys, a) == Corrected(cfg, risk.open[op.symbol], op.price, op.quantity).lockedCapital
                                           - risk.open[op.symbol].lockedCapital)
            || (op.OpClose? && op.symbol in risk.open
                && TakenBy(cfg, sys, a) == -NetPnL(cfg, risk.open[op.symbol], op.price) - risk.open[op.symbol].lockedCapital)
            || (op.OpRollback? && op.symbol in risk.open && risk.open[op.symbol].lockedCapital < 0.0)
  {
    NextApplies(cfg, sys, a);
  }

  // ---- Two entries checked before either opens ----

  function Rules(): RiskConfig {
    RiskConfig((price: real, quantity: int, t: TradeType, side: Side) => 0.0,
               StopLossConfig(false, Percentage, 0.0, false, 0.0), 100.0, 2)
  }

  function Session(): System {
    System(Shared(RiskState(1000.0, 1000.0, 0.0, 0.0, false, [], map[]), StoreState(map[], map[], 0, 0),
                  {}, {}, {}, map[], []),
           [])
  }

  function Request(symbol: Symbol): EntryRequest {
    EntryRequest(symbol, 6, Buy, OptCarry, 0.0)
  }

  function Go(i: nat): Action {
    Step(i, Env(0, 100.0, true, Unknown))
  }

  // Both start, both are checked, both are recorded, both open.
  function BothAtOnce(x: Symbol, y: Symbol): seq<Action> {
    [] + [StartEntry(Request(x))] + [StartEntry(Request(y))] + [Go(0)] + [Go(1)] + [Go(0)] + [Go(1)] + [Go(0)] + [Go(1)]
  }

  // Two entries of 600 each, allowed by a balance of 1000 because neither had opened when the
  // other was checked: 1200 are marked as used. Of one symbol, only 600 of them are locked by
  // a position.
  lemma TwoChecksOverdraw(x: Symbol, y: Symbol)
    ensures var risk := OrderProtocol.Run(Rules(), Session(), BothAtOnce(x, y)).shared.risk;
            && risk.currentBalance == 1000.0 && risk.sessionBalanceUsed == 1200.0
            && TotalLocked(risk) == if x == y then 600.0 else 1200.0
  {
    var cfg, a0 := Rules(), [StartEntry(Request(x))];
    var s2 := Next(cfg, Next(cfg, Session(), StartEntry(Request(x))), StartEntry(Request(y)));
    var s4 := Next(cfg, Next(cfg, s2, Go(0)), Go(1));
    BothChecked(x, y, s2);
    BothOpened(x, y, s4);
    FirstActions(x, y);
    var a := [] + [StartEntry(Request(x))] + [StartEntry(Request(y))] + [Go(0)] + [Go(1)];
    RunOneMore(cfg, Session(), a, Go(0));
    RunOneMore(cfg, Session(), a + [Go(0)], Go(1));
    RunOneMore(cfg, Session(), a + [Go(0)] + [Go(1)], Go(0));
    RunOneMore(cfg, Session(), a + [Go(0)] + [Go(1)] + [Go(0)], Go(1));
  }

  lemma FirstActions(x: Symbol, y: Symbol)
    ensures var s2 := Next(Rules(), Next(Rules(), Session(), StartEntry(Request(x))), StartEntry(Request(y)));
            OrderProtocol.Run(Rules(), Session(), [] + [StartEntry(Request(x))] + [StartEntry(Request(y))] + [Go(0)] + [Go(1)])
            == Next(Rules(), Next(Rules(), s2, Go(0)), Go(1))
  {
    var none: seq<Action> := [];
    RunOneMore(Rules(), Session(), none, StartEntry(Request(x)));
    RunOneMore(Rules(), Session(), none + [StartEntry(Request(x))], StartEntry(Request(y)));
    var a := none + [StartEntry(Request(x))] + [StartEntry(Request(y))];
    RunOneMore(Rules(), Session(), a, Go(0));
    RunOneMore(Rules(), Session(), a + [Go(0)], Go(1));
  }

  predicate Ready(c: Call, symbol: Symbol, pc: EntryPc) {
    c.Entry? && c.epc == pc && c.req == Request(symbol) && c.price == 100.0
  }

  lemma BothChecked(x: Symbol, y: Symbol, s: System)
    requires s.calls == [NewEntry(Request(x)), NewEntry(Request(y))] && s.shared == Session().shared
    ensures var s' := Next(Rules(), Next(Rules(), s, Go(0)), Go(1));
            && |s'.calls| == 2 && Ready(s'.calls[0], x, EIntent) && Ready(s'.calls[1], y, EIntent) && s'.shared.risk == s.shared.risk
  {
    var s1 := Next(Rules(), s, Go(0));
    assert Ready(s1.calls[0], x, EIntent) && s1.shared == s.shared;
  }

  function Bought(risk: RiskState, symbol: Symbol): RiskState {
    OpenPosition(Rules(), risk, 0, symbol, 100.0, 6, OptCarry, Buy, 0.0)
  }

  lemma BothOpened(x: Symbol, y: Symbol, s: System)
    requires |s.calls| == 2 && Ready(s.calls[0], x, EIntent) && Ready(s.calls[1], y, EIntent) && s.shared.risk == Session().shared.risk
    ensures var risk := Next(Rules(), Next(Rules(), Next(Rules(), Next(Rules(), s, Go(0)), Go(1)), Go(0)), Go(1)).shared.risk;
            && risk.currentBalance == 1000.0 && risk.sessionBalanceUsed == 1200.0
            && TotalLocked(risk) == if x == y then 600.0 else 1200.0
  {
    var s1 := Next(Rules(), s, Go(0));
    assert Ready(s1.calls[0], x, EOpen) && s1.shared.risk == s.shared.risk;
    var s2 := Next(Rules(), s1, Go(1));
    assert Ready(s2.calls[0], x, EOpen) && Ready(s2.calls[1], y, EOpen) && s2.shared.risk == s.shared.risk;
    var s3 := Next(Rules(), s2, Go(0));
    assert s3.shared.risk == Bought(s.shared.risk, x) && Ready(s3.calls[1], y, EOpen);
    var s4 := Next(Rules(), s3, Go(1));
    assert s4.shared.risk == Bought(Bought(s.shared.risk, x), y);
    BoughtLocks(s.shared.risk, x);
    BoughtLocks(Bought(s.shared.risk, x), y);
    assert LockedBook(s.shared.risk.open) == map[];
  }

  lemma BoughtLocks(risk: RiskState, symbol: Symbol)
    ensures var after := Bought(risk, symbol);
            && after.sessionBalanceUsed == risk.sessionBalanceUsed + 600.0 && after.currentBalance == risk.currentBalance
            && symbol in after.open && after.open[symbol].lockedCapital == 600.0 && after.open.Keys == risk.open.Keys + {symbol}
            && TotalLocked(after) == TotalLocked(risk) + 600.0 - if symbol in risk.open then risk.open[symbol].lockedCapital else 0.0
  {
    var p := NewPosition(Rules(), 0, 100.0, 6, OptCarry, Buy, 0.0);
    assert p.lockedCapital == 600.0;
    LockedBookUpdate(risk.open, symbol, p);
  }
}
