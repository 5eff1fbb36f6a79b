/** Conservation of capital over every run of the risk manager. */
module RiskCapital {
  import opened Common
  import opened Charges
  import opened RiskModel

  datatype RiskOp =
    | OpOpen(now: int, symbol: Symbol, price: real, quantity: int, t: TradeType, side: Side, margin: real)
    | OpFill(symbol: Symbol, price: real, quantity: int)
    | OpRollback(symbol: Symbol)
    | OpClose(symbol: Symbol, price: real)
    | OpTick(symbol: Symbol, price: real)
    | OpKill

  function Apply(cfg: RiskConfig, s: RiskState, op: RiskOp): RiskState {
    match op
    case OpOpen(now, symbol, price, quantity, t, side, margin) =>
      OpenPosition(cfg, s, now, symbol, price, quantity, t, side, margin)
    case OpFill(symbol, price, quantity) => UpdatePrice(cfg, s, symbol, price, quantity)
    case OpRollback(symbol) => Rollback(s, symbol)
    case OpClose(symbol, price) => ClosePosition(cfg, s, symbol, price)
    case OpTick(symbol, price) => CheckStop(cfg, s, symbol, price).0
    case OpKill => s.(killed := true)
  }

  function Run(cfg: RiskConfig, s: RiskState, ops: seq<RiskOp>): RiskState
    decreases |ops|
  {
    if ops == [] then s else Run(cfg, Apply(cfg, s, ops[0]), ops[1..])
  }

  // Positions are opened only for symbols that are not held.
  predicate FreshOpens(cfg: RiskConfig, s: RiskState, ops: seq<RiskOp>)
    decreases |ops|
  {
    ops != [] ==>
      && (ops[0].OpOpen? ==> ops[0].symbol !in s.open)
      && FreshOpens(cfg, Apply(cfg, s, ops[0]), ops[1..])
  }

  ghost function LockedBook(open: map<Symbol, Position>): map<Symbol, real> {
    map k | k in open :: open[k].lockedCapital
  }

  // Capital locked over all open positions.
  ghost function TotalLocked(s: RiskState): real {
    MapSum(LockedBook(s.open))
  }

  ghost predicate CapitalBalanced(s: RiskState) {
    && s.sessionBalanceUsed == TotalLocked(s)
    && s.currentBalance == s.initialBalance + s.realizedPnL
  }

  // A position's charges and locked capital are those of its present price and quantity.
  ghost predicate Coherent(cfg: RiskConfig, p: Position) {
    && p.entryCharges == cfg.fees(p.entryPrice, p.quantity, p.tradeType, p.side)
    && p.lockedCapital == Locked(p.entryPrice, p.quantity, p.margin, p.entryCharges)
  }

  ghost predicate Invariant(cfg: RiskConfig, s: RiskState) {
    && CapitalBalanced(s)
    && forall k :: k in s.open ==> Coherent(cfg, s.open[k])
  }

  lemma LockedBookUpdate(open: map<Symbol, Position>, k: Symbol, p: Position)
    ensures MapSum(LockedBook(open[k := p]))
         == MapSum(LockedBook(open)) - (if k in open then open[k].lockedCapital else 0.0) + p.lockedCapital
  {
    assert LockedBook(open[k := p]) == LockedBook(open)[k := p.lockedCapital];
    MapSumUpdate(LockedBook(open), k, p.lockedCapital);
  }

  lemma LockedBookRemove(open: map<Symbol, Position>, k: Symbol)
    requires k in open
    ensures MapSum(LockedBook(open - {k})) == MapSum(LockedBook(open)) - open[k].lockedCapital
  {
    assert LockedBook(open - {k}) == LockedBook(open) - {k};
    MapSumRemove(LockedBook(open), k);
  }

  // The whole invariant survives every operation, opens of held symbols aside.
  lemma StepKeepsInvariant(cfg: RiskConfig, s: RiskState, op: RiskOp)
    requires Invariant(cfg, s)
    requires op.OpOpen? ==> op.symbol !in s.open
    ensures Invariant(cfg, Apply(cfg, s, op))
    ensures Apply(cfg, s, op).initialBalance == s.initialBalance
  {
    match op
    case OpOpen(now, symbol, price, quantity, t, side, margin) =>
      LockedBookUpdate(s.open, symbol, NewPosition(cfg, now, price, quantity, t, side, margin));
    case OpFill(symbol, price, quantity) =>
      if symbol in s.open && price > 0.0 {
        LockedBookUpdate(s.open, symbol, Corrected(cfg, s.open[symbol], price, quantity));
      }
    case OpRollback(symbol) =>
      if symbol in s.open {
        LockedBookRemove(s.open, symbol);
      }
    case OpClose(symbol, price) =>
      if symbol in s.open {
        LockedBookRemove(s.open, symbol);
      }
    case OpTick(symbol, price) =>
      if symbol in s.open {
        LockedBookUpdate(s.open, symbol, AfterTick(cfg.stop, s.open[symbol], price));
      }
    case OpKill =>
  }

  lemma {:induction false} RunKeepsInvariant(cfg: RiskConfig, s: RiskState, ops: seq<RiskOp>)
    requires Invariant(cfg, s)
    requires FreshOpens(cfg, s, ops)
    ensures Invariant(cfg, Run(cfg, s, ops))
    ensures Run(cfg, s, ops).initialBalance == s.initialBalance
    decreases |ops|
  {
    if ops != [] {
      StepKeepsInvariant(cfg, s, ops[0]);
      RunKeepsInvariant(cfg, Apply(cfg, s, ops[0]), ops[1..]);
    }
  }

  // From a new session: what is marked as used is exactly what the open positions
  // lock, the balance moves only by realized profit, and a flat book locks nothing.
  lemma SessionConservesCapital(cfg: RiskConfig, balance: real, ops: seq<RiskOp>)
    requires FreshOpens(cfg, RiskState(balance, balance, 0.0, 0.0, false, [], map[]), ops)
    ensures var s := Run(cfg, RiskState(balance, balance, 0.0, 0.0, false, [], map[]), ops);
            && s.sessionBalanceUsed == TotalLocked(s)
            && s.currentBalance - s.realizedPnL == balance
            && (s.open == map[] ==> s.sessionBalanceUsed == 0.0)
            && (forall k :: k in s.open ==> Coherent(cfg, s.open[k]))
  {
    var s0 := RiskState(balance, balance, 0.0, 0.0, false, [], map[]);
    assert LockedBook(s0.open) == map[];
    RunKeepsInvariant(cfg, s0, ops);
    var s := Run(cfg, s0, ops);
    if s.open == map[] {
      assert LockedBook(s.open) == map[];
    }
  }

  // Opening a symbol that is already held is outside the capital law: the balance
  // holds afterwards exactly when the forgotten position had locked nothing.
  lemma ReopenBalancedIff(cfg: RiskConfig, s: RiskState, now: int, symbol: Symbol, price: real, quantity: int,
                          t: TradeType, side: Side, margin: real)
    requires CapitalBalanced(s)
    ensures CapitalBalanced(OpenPosition(cfg, s, now, symbol, price, quantity, t, side, margin))
       <==> (symbol !in s.open || s.open[symbol].lockedCapital == 0.0)
  {
    LockedBookUpdate(s.open, symbol, NewPosition(cfg, now, price, quantity, t, side, margin));
  }

  // Two opens of one symbol from a new session without charges: 200 are marked as used, 100
  // are locked.
  lemma ReopenForgetsCapital(cfg: RiskConfig)
    requires forall price: real, quantity: int, t: TradeType, side: Side :: cfg.fees(price, quantity, t, side) == 0.0
    ensures var open := OpOpen(0, "A", 100.0, 1, OptCarry, Buy, 0.0);
            var s := Run(cfg, RiskState(1000.0, 1000.0, 0.0, 0.0, false, [], map[]), [open, open]);
            s.sessionBalanceUsed == 200.0 && TotalLocked(s) == 100.0
  {
    var open := OpOpen(0, "A", 100.0, 1, OptCarry, Buy, 0.0);
    var s0 := RiskState(1000.0, 1000.0, 0.0, 0.0, false, [], map[]);
    var s1 := Apply(cfg, s0, open);
    var s2 := Apply(cfg, s1, open);
    assert [open, open][1..] == [open] && [open][1..] == [];
    assert Run(cfg, s2, []) == s2 && Run(cfg, s1, [open]) == s2;
    assert s1.open["A"].lockedCapital == 100.0 && s2.open["A"].lockedCapital == 100.0;
    var empty: map<Symbol, Position> := map[];
    assert LockedBook(empty) == map[];
    LockedBookUpdate(empty, "A", s2.open["A"]);
    assert s2.open == empty["A" := s2.open["A"]];
  }

  // ---- Realized profit, recomputed from the fills ----

  // What the operation realizes: only a close of a held position does, and it
  // realizes the signed price move less the fees of both fills.
  ghost function Realizes(cfg: RiskConfig, s: RiskState, op: RiskOp): real {
    if op.OpClose? && op.symbol in s.open then
      var p := s.open[op.symbol];
      var gross := if p.side.Buy? then (op.price - p.entryPrice) * p.quantity as real
                   else -(op.price - p.entryPrice) * p.quantity as real;
      gross - cfg.fees(p.entryPrice, p.quantity, p.tradeType, p.side)
            - cfg.fees(op.price, p.quantity, p.tradeType, p.side.Opposite())
    else 0.0
  }

  ghost function RealizedOver(cfg: RiskConfig, s: RiskState, ops: seq<RiskOp>): real
    decreases |ops|
  {
    if ops == [] then 0.0
    else Realizes(cfg, s, ops[0]) + RealizedOver(cfg, Apply(cfg, s, ops[0]), ops[1..])
  }

  lemma CloseRealizes(cfg: RiskConfig, p: Position, exitPrice: real)
    requires Coherent(cfg, p)
    ensures NetPnL(cfg, p, exitPrice)
         == (if p.side.Buy? then (exitPrice - p.entryPrice) * p.quantity as real
             else -(exitPrice - p.entryPrice) * p.quantity as real)
            - cfg.fees(p.entryPrice, p.quantity, p.tradeType, p.side)
            - cfg.fees(exitPrice, p.quantity, p.tradeType, p.side.Opposite())
  {
    var move, q := exitPrice - p.entryPrice, p.quantity as real;
    if p.side.Sell? {
      assert (p.side.Sign() * p.quantity) as real == -q;
      SignMoves(move, q, -q);
    } else {
      assert (p.side.Sign() * p.quantity) as real == q;
    }
  }

  lemma SignMoves(move: real, q: real, minus: real)
    requires minus == -q
    ensures move * minus == -move * q
  {
  }

  lemma StepRealizes(cfg: RiskConfig, s: RiskState, op: RiskOp)
    requires Invariant(cfg, s)
    ensures Apply(cfg, s, op).realizedPnL == s.realizedPnL + Realizes(cfg, s, op)
  {
    if op.OpClose? && op.symbol in s.open {
      CloseRealizes(cfg, s.open[op.symbol], op.price);
    }
  }

  // The running profit figure is the sum over closes of gross profit at the corrected
  // fill price and quantity less the charges of entry and exit, each charged once.
  lemma {:induction false} RealizedIsSumOverCloses(cfg: RiskConfig, s: RiskState, ops: seq<RiskOp>)
    requires Invariant(cfg, s)
    requires FreshOpens(cfg, s, ops)
    ensures Run(cfg, s, ops).realizedPnL == s.realizedPnL + RealizedOver(cfg, s, ops)
    decreases |ops|
  {
    if ops != [] {
      StepRealizes(cfg, s, ops[0]);
      StepKeepsInvariant(cfg, s, ops[0]);
      RealizedIsSumOverCloses(cfg, Apply(cfg, s, ops[0]), ops[1..]);
    }
  }
}
