/** What rescaled costs make of a backtest: a report whose costs are scaled afterwards is that of
    the run with those costs, but for its drawdown, and when the drawdown is too.
    Two desks that differ in costs only are run side by side. They see the same candles and show
    their strategy the same contexts, so they give the same signals and the same trades; only the
    charges differ, and with them the equity curve, by what has been paid so far. */
module BacktestCosts {
  import opened Common
  import opened Backtest
  import opened BacktestRuns
  import Report

  // ---- The same backtest at other costs ----

  function CostlierLeg(l: Leg, m: real): Leg {
    l.(entryCharge := l.entryCharge * m, entrySpread := l.entrySpread * m)
  }

  function CostlierLegs(legs: seq<Leg>, m: real): (ls: seq<Leg>)
    ensures |ls| == |legs|
  {
    seq(|legs|, i requires 0 <= i < |legs| => CostlierLeg(legs[i], m))
  }

  function Costlier(p: Position, m: real): Position {
    p.(legs := CostlierLegs(p.legs, m))
  }

  // The trade at other charges.
  function Charged(t: Trade, charge: real -> real): Trade {
    t.(charges := charge(t.charges), net := t.gross - charge(t.charges))
  }

  function AllCharged(trades: seq<Trade>, charge: real -> real): (ts: seq<Trade>)
    ensures |ts| == |trades|
  {
    seq(|trades|, i requires 0 <= i < |trades| => Charged(trades[i], charge))
  }

  // What other costs make of a position, and of the charges of a trade.
  datatype Costs = Costs(position: Position -> Position, charge: real -> real)

  // All costs m times as high.
  function Times(m: real): Costs {
    Costs((p: Position) => Costlier(p, m), (charges: real) => charges * m)
  }

  // Charges and spread costs m times as high; prices and slippage the same.
  function AtCosts(cfg: Config, m: real): Config {
    cfg.(market := cfg.market.(
           legCharge := (premium: real, quantity: int, side: Side) => cfg.market.legCharge(premium, quantity, side) * m,
           spreadCost := (theo: real, quantity: int) => cfg.market.spreadCost(theo, quantity) * m))
  }

  // A desk that does as another, at other costs.
  ghost predicate Charges(desk: Desk, x: Costs, dear: Desk) {
    && (forall s, c :: dear.enter(s, c) == x.position(desk.enter(s, c)))
    && (forall p, c, r :: dear.leave(x.position(p), c, r) == Charged(desk.leave(p, c, r), x.charge))
    && (forall p, spot, now :: dear.unrealized(x.position(p), spot, now) == desk.unrealized(p, spot, now))
    && (forall p :: dear.entryPremium(x.position(p)) == desk.entryPremium(p))
    && (forall p, spot, now :: dear.currentPremium(x.position(p), spot, now) == desk.currentPremium(p, spot, now))
    && (forall p, now :: dear.expired(x.position(p), now) == desk.expired(p, now))
    && (forall p :: SameOutside(p, x.position(p)))
  }

  // Positions that differ in their legs only.
  predicate SameOutside(p: Position, q: Position) {
    q.kind == p.kind && q.openedAt == p.openedAt && q.entrySpot == p.entrySpot
  }

  // On a leg at m times its costs the one figure is k times what the other is on the leg.
  ghost predicate Scales(figure: Leg -> real, m: real, dear: Leg -> real, k: real) {
    forall l {:trigger CostlierLeg(l, m)} :: dear(CostlierLeg(l, m)) == figure(l) * k
  }

  lemma {:induction false} SumCostlier(legs: seq<Leg>, m: real, figure: Leg -> real, dear: Leg -> real, k: real)
    requires Scales(figure, m, dear, k)
    ensures Sum(CostlierLegs(legs, m), dear) == Sum(legs, figure) * k
    decreases |legs|
  {
    if legs != [] {
      var n := |legs| - 1;
      SumCostlier(legs[..n], m, figure, dear, k);
      assert CostlierLegs(legs, m)[..n] == CostlierLegs(legs[..n], m);
      assert CostlierLegs(legs, m)[n] == CostlierLeg(legs[n], m);
      Distributes(Sum(legs[..n], figure), figure(legs[n]), k);
    }
  }

  lemma SumSame(legs: seq<Leg>, m: real, figure: Leg -> real, dear: Leg -> real)
    requires Scales(figure, m, dear, 1.0)
    ensures Sum(CostlierLegs(legs, m), dear) == Sum(legs, figure)
  {
    SumCostlier(legs, m, figure, dear, 1.0);
  }

  lemma Distributes(x: real, y: real, k: real)
    ensures (x + y) * k == x * k + y * k
  {
  }

  lemma OpensAlike(cfg: Config, m: real, leg: OrderLeg, fill: Candle)
    ensures OpenLeg(leg, fill, AtCosts(cfg, m)) == CostlierLeg(OpenLeg(leg, fill, cfg), m)
  {
    var strike, expiry := RoundStrike(fill.open, cfg.strikeStep, leg.strikeOffset as real), cfg.market.expiryOf(leg.expiry, fill.time);
    var theo := cfg.market.price(leg.optionType, strike, expiry, fill.time, fill.open);
    assert FillPremium(theo, leg.side, AtCosts(cfg, m)) == FillPremium(theo, leg.side, cfg);
  }

  lemma OpensAllAlike(cfg: Config, m: real, legs: seq<OrderLeg>, fill: Candle)
    ensures OpenedMultiLeg(legs, fill, AtCosts(cfg, m)) == Costlier(OpenedMultiLeg(legs, fill, cfg), m)
  {
    var legsOpened, dear := OpenLegs(legs, fill, cfg), OpenLegs(legs, fill, AtCosts(cfg, m));
    forall i | 0 <= i < |legs|
      ensures dear[i] == CostlierLegs(legsOpened, m)[i]
    {
      OpensAlike(cfg, m, legs[i], fill);
    }
    assert dear == CostlierLegs(legsOpened, m);
  }

  lemma EntersAlike(cfg: Config, m: real, signal: Signal, fill: Candle)
    ensures OpenedBy(signal, fill, AtCosts(cfg, m)) == Costlier(OpenedBy(signal, fill, cfg), m)
  {
    OpensAllAlike(cfg, m, signal.legs, fill);
    OpensAllAlike(cfg, m, [DirectionalLeg(signal.action)], fill);
  }

  lemma LegCostsScale(cfg: Config, m: real, l: Leg, fill: Candle)
    ensures LegCosts(CostlierLeg(l, m), fill, AtCosts(cfg, m)) == LegCosts(l, fill, cfg) * m
  {
    var exit, theo := ExitPremium(l, fill, cfg), PriceNow(l, fill.open, fill.time, cfg);
    var a, b := l.entryCharge, l.entrySpread;
    var c, d := cfg.market.legCharge(exit, l.quantity, l.side.Opposite()), cfg.market.spreadCost(theo, l.quantity);
    assert ExitPremium(CostlierLeg(l, m), fill, AtCosts(cfg, m)) == exit;
    assert (a + b + c + d) * m == a * m + b * m + c * m + d * m;
  }

  lemma ExitsAlike(cfg: Config, m: real, fill: Candle)
    ensures Scales(ExitPnL(fill, cfg), m, ExitPnL(fill, AtCosts(cfg, m)), 1.0)
  {
    forall l {:trigger CostlierLeg(l, m)}
      ensures ExitPnL(fill, AtCosts(cfg, m))(CostlierLeg(l, m)) == ExitPnL(fill, cfg)(l) * 1.0
    {
      assert ExitPremium(CostlierLeg(l, m), fill, AtCosts(cfg, m)) == ExitPremium(l, fill, cfg);
    }
  }

  lemma CostsScale(cfg: Config, m: real, fill: Candle)
    ensures Scales(CostsAt(fill, cfg), m, CostsAt(fill, AtCosts(cfg, m)), m)
  {
    forall l {:trigger CostlierLeg(l, m)}
      ensures CostsAt(fill, AtCosts(cfg, m))(CostlierLeg(l, m)) == CostsAt(fill, cfg)(l) * m
    {
      LegCostsScale(cfg, m, l, fill);
    }
  }

  lemma ClosedIs(p: Position, fill: Candle, cfg: Config, reason: Reason, gross: real, charges: real)
    requires Sum(p.legs, ExitPnL(fill, cfg)) == gross && Sum(p.legs, CostsAt(fill, cfg)) == charges
    ensures Closed(p, fill, cfg, reason) == TradeWith(p, fill, reason, gross, charges)
  {
  }

  function TradeWith(p: Position, fill: Candle, reason: Reason, gross: real, charges: real): Trade {
    Trade(p.kind, p.openedAt, fill.time, |p.legs|, p.entrySpot, fill.open, gross, charges, gross - charges, reason)
  }

  lemma TradesAlike(p: Position, m: real, fill: Candle, reason: Reason, gross: real, charges: real, dear: real)
    requires dear == charges * m
    ensures TradeWith(Costlier(p, m), fill, reason, gross, dear) == Charged(TradeWith(p, fill, reason, gross, charges), Times(m).charge)
  {
  }

  // At an exit the dearer legs make the same gross profit and cost m times as much.
  ghost predicate ExitAlike(legs: seq<Leg>, cfg: Config, m: real, dear: seq<Leg>, dearCfg: Config, fill: Candle, gross: real, charges: real) {
    && |dear| == |legs|
    && Sum(legs, ExitPnL(fill, cfg)) == gross && Sum(legs, CostsAt(fill, cfg)) == charges
    && Sum(dear, ExitPnL(fill, dearCfg)) == gross && Sum(dear, CostsAt(fill, dearCfg)) == charges * m
  }

  lemma ClosedAlike(p: Position, cfg: Config, m: real, dear: Position, dearCfg: Config, fill: Candle, reason: Reason, gross: real, charges: real)
    requires dear == Costlier(p, m) && ExitAlike(p.legs, cfg, m, dear.legs, dearCfg, fill, gross, charges)
    ensures Closed(dear, fill, dearCfg, reason) == Charged(Closed(p, fill, cfg, reason), Times(m).charge)
  {
    ClosedIs(p, fill, cfg, reason, gross, charges);
    ClosedIs(dear, fill, dearCfg, reason, gross, charges * m);
    TradesAlike(p, m, fill, reason, gross, charges, charges * m);
  }

  lemma ExitsAreAlike(cfg: Config, m: real, legs: seq<Leg>, fill: Candle)
    ensures ExitAlike(legs, cfg, m, CostlierLegs(legs, m), AtCosts(cfg, m), fill, Sum(legs, ExitPnL(fill, cfg)), Sum(legs, CostsAt(fill, cfg)))
  {
    GrossAlike(cfg, m, legs, fill);
    ChargesScale(cfg, m, legs, fill);
  }

  lemma LeavesAlike(cfg: Config, m: real, p: Position, fill: Candle, reason: Reason)
    ensures Closed(Costlier(p, m), fill, AtCosts(cfg, m), reason) == Charged(Closed(p, fill, cfg, reason), Times(m).charge)
  {
    ExitsAreAlike(cfg, m, p.legs, fill);
    ClosedAlike(p, cfg, m, Costlier(p, m), AtCosts(cfg, m), fill, reason, Sum(p.legs, ExitPnL(fill, cfg)), Sum(p.legs, CostsAt(fill, cfg)));
  }

  lemma GrossAlike(cfg: Config, m: real, legs: seq<Leg>, fill: Candle)
    ensures Sum(CostlierLegs(legs, m), ExitPnL(fill, AtCosts(cfg, m))) == Sum(legs, ExitPnL(fill, cfg))
  {
    ExitsAlike(cfg, m, fill);
    SumSame(legs, m, ExitPnL(fill, cfg), ExitPnL(fill, AtCosts(cfg, m)));
  }

  lemma ChargesScale(cfg: Config, m: real, legs: seq<Leg>, fill: Candle)
    ensures Sum(CostlierLegs(legs, m), CostsAt(fill, AtCosts(cfg, m))) == Sum(legs, CostsAt(fill, cfg)) * m
  {
    CostsScale(cfg, m, fill);
    SumCostlier(legs, m, CostsAt(fill, cfg), CostsAt(fill, AtCosts(cfg, m)), m);
  }

  lemma MarkAlike(cfg: Config, m: real, legs: seq<Leg>, spot: real, now: int)
    ensures Sum(CostlierLegs(legs, m), PnLAt(spot, now, AtCosts(cfg, m))) == Sum(legs, PnLAt(spot, now, cfg))
  {
    assert Scales(PnLAt(spot, now, cfg), m, PnLAt(spot, now, AtCosts(cfg, m)), 1.0);
    SumSame(legs, m, PnLAt(spot, now, cfg), PnLAt(spot, now, AtCosts(cfg, m)));
  }

  lemma PremiumsAlike(cfg: Config, m: real, legs: seq<Leg>, spot: real, now: int)
    ensures Sum(CostlierLegs(legs, m), PremiumAt(spot, now, AtCosts(cfg, m))) == Sum(legs, PremiumAt(spot, now, cfg))
  {
    assert Scales(PremiumAt(spot, now, cfg), m, PremiumAt(spot, now, AtCosts(cfg, m)), 1.0);
    SumSame(legs, m, PremiumAt(spot, now, cfg), PremiumAt(spot, now, AtCosts(cfg, m)));
  }

  lemma EntryPremiumsAlike(legs: seq<Leg>, m: real)
    ensures Sum(CostlierLegs(legs, m), EntryPremiumOf()) == Sum(legs, EntryPremiumOf())
  {
    assert Scales(EntryPremiumOf(), m, EntryPremiumOf(), 1.0);
    SumSame(legs, m, EntryPremiumOf(), EntryPremiumOf());
  }

  lemma ExpiresAlike(cfg: Config, m: real, p: Position, now: int)
    ensures DeskOf(AtCosts(cfg, m)).expired(Costlier(p, m), now) == DeskOf(cfg).expired(p, now)
  {
    var ls := CostlierLegs(p.legs, m);
    assert forall i :: 0 <= i < |p.legs| ==> ls[i].expiry == p.legs[i].expiry;
  }

  lemma DeskOpens(cfg: Config, m: real, s: Signal, c: Candle)
    ensures DeskOf(AtCosts(cfg, m)).enter(s, c) == Times(m).position(DeskOf(cfg).enter(s, c))
  {
    EntersAlike(cfg, m, s, c);
  }

  lemma DeskCloses(cfg: Config, m: real, p: Position, c: Candle, r: Reason)
    ensures DeskOf(AtCosts(cfg, m)).leave(Times(m).position(p), c, r) == Charged(DeskOf(cfg).leave(p, c, r), Times(m).charge)
  {
    LeavesAlike(cfg, m, p, c, r);
  }

  lemma DeskMarks(cfg: Config, m: real, p: Position, spot: real, now: int)
    ensures DeskOf(AtCosts(cfg, m)).unrealized(Times(m).position(p), spot, now) == DeskOf(cfg).unrealized(p, spot, now)
    ensures DeskOf(AtCosts(cfg, m)).currentPremium(Times(m).position(p), spot, now) == DeskOf(cfg).currentPremium(p, spot, now)
  {
    MarkAlike(cfg, m, p.legs, spot, now);
    PremiumsAlike(cfg, m, p.legs, spot, now);
  }

  lemma DeskKnows(cfg: Config, m: real, p: Position, now: int)
    ensures DeskOf(AtCosts(cfg, m)).entryPremium(Times(m).position(p)) == DeskOf(cfg).entryPremium(p)
    ensures DeskOf(AtCosts(cfg, m)).expired(Times(m).position(p), now) == DeskOf(cfg).expired(p, now)
    ensures SameOutside(p, Times(m).position(p))
  {
    EntryPremiumsAlike(p.legs, m);
    ExpiresAlike(cfg, m, p, now);
  }

  lemma DeskCharges(cfg: Config, m: real)
    ensures Charges(DeskOf(cfg), Times(m), DeskOf(AtCosts(cfg, m)))
  {
    AllAlike(DeskOf(cfg), Times(m), DeskOf(AtCosts(cfg, m)), cfg, m);
  }

  lemma AllAlike(desk: Desk, x: Costs, dear: Desk, cfg: Config, m: real)
    requires desk == DeskOf(cfg) && x == Times(m) && dear == DeskOf(AtCosts(cfg, m))
    ensures Charges(desk, x, dear)
  {
    forall s, c
      ensures dear.enter(s, c) == x.position(desk.enter(s, c))
    {
      DeskOpens(cfg, m, s, c);
    }
    forall p, c, r
      ensures dear.leave(x.position(p), c, r) == Charged(desk.leave(p, c, r), x.charge)
    {
      DeskCloses(cfg, m, p, c, r);
    }
    forall p, spot, now
      ensures dear.unrealized(x.position(p), spot, now) == desk.unrealized(p, spot, now)
      ensures dear.currentPremium(x.position(p), spot, now) == desk.currentPremium(p, spot, now)
    {
      DeskMarks(cfg, m, p, spot, now);
    }
    forall p, now
      ensures dear.expired(x.position(p), now) == desk.expired(p, now)
    {
      DeskKnows(cfg, m, p, now);
    }
    forall p
      ensures dear.entryPremium(x.position(p)) == desk.entryPremium(p) && SameOutside(p, x.position(p))
    {
      DeskKnows(cfg, m, p, 0);
    }
  }

  // ---- Both runs, side by side ----

  function ChargesOf(trades: seq<Trade>): real {
    if trades == [] then 0.0 else ChargesOf(trades[..|trades| - 1]) + trades[|trades| - 1].charges
  }

  // What the trades cost more at other charges.
  function ExtraOf(trades: seq<Trade>, charge: real -> real): real {
    if trades == [] then 0.0
    else
      var last := trades[|trades| - 1].charges;
      ExtraOf(trades[..|trades| - 1], charge) + (charge(last) - last)
  }

  function ExtraAt(x: Costs): seq<Trade> -> real {
    (trades: seq<Trade>) => ExtraOf(trades, x.charge)
  }

  function LoopOf(candles: seq<Candle>, sim: Sim): int -> Option<State> {
    (n: int) => if 0 <= n < |candles| then Loop(candles, n, sim) else None
  }

  function TradesIn(st: Option<State>): seq<Trade> {
    if st.None? then [] else st.value.trades
  }

  // The total over the trades closed before each sample, for states that follow one another.
  function PaidFrom(loop: int -> Option<State>, from: nat, n: nat, total: seq<Trade> -> real): seq<real> {
    if n <= from then [] else PaidFrom(loop, from, n - 1, total) + [total(TradesIn(loop(n - 1)))]
  }

  function PaidAlong(candles: seq<Candle>, n: nat, sim: Sim, total: seq<Trade> -> real): seq<real> {
    PaidFrom(LoopOf(candles, sim), sim.from, n, total)
  }

  // With the sample after a forced close.
  function PaidAs(candles: seq<Candle>, sim: Sim, total: seq<Trade> -> real): seq<real>
    requires candles != []
  {
    var n := |candles| - 1;
    match Loop(candles, n, sim)
    case None => []
    case Some(st) =>
      if st.pos.None? then PaidAlong(candles, n, sim, total)
      else PaidAlong(candles, n, sim, total) + [total(ForceClosed(st, candles[n], sim.desk).trades)]
  }

  // The charges paid by each sample.
  function Paid(candles: seq<Candle>, sim: Sim): seq<real>
    requires candles != []
  {
    PaidAs(candles, sim, ChargesOf)
  }

  // Each sample less the extra charges paid by then.
  function Less(curve: seq<real>, extra: seq<real>): (lowered: seq<real>)
    requires |extra| == |curve|
    ensures |lowered| == |curve|
  {
    seq(|curve|, i requires 0 <= i < |curve| => curve[i] - extra[i])
  }

  function HeldAt(pos: Option<Position>, x: Costs): Option<Position> {
    if pos.None? then None else Some(x.position(pos.value))
  }

  // Same decisions and marks, trades at other charges, and every sample lower by the extra.
  ghost predicate Corresponds(st: State, x: Costs, extra: seq<real>, dear: State) {
    && SameBut(st, x, dear)
    && |extra| == |st.samples| && dear.samples == Less(st.samples, extra)
  }

  ghost predicate SameBut(st: State, x: Costs, dear: State) {
    && dear.pos == HeldAt(st.pos, x)
    && dear.trades == AllCharged(st.trades, x.charge)
    && dear.realized == st.realized - ExtraOf(st.trades, x.charge)
    && dear.premiums == st.premiums && dear.seen == st.seen
  }

  lemma BookCorresponds(st: State, x: Costs, dear: State, t: Trade)
    requires SameBut(st, x, dear) && t.net == t.gross - t.charges
    ensures SameBut(Book(st, t), x, Book(dear, Charged(t, x.charge)))
  {
    assert (st.trades + [t])[..|st.trades|] == st.trades;
  }

  // Why a signal closes a position of this kind, if it does.
  function ReasonToLeave(kind: Kind, s: Signal): Option<Reason> {
    if s.legs != [] || s.action == Hold then None
    else if s.action == Exiting then Some(ExitSignal)
    else if kind.Directional? && kind.side != s.action then Some(OppositeSignal)
    else None
  }

  lemma ActFlat(st: State, signal: Signal, fill: Candle, desk: Desk)
    requires st.pos.None?
    ensures Act(st, signal, fill, desk) == if Enters(signal) then st.(pos := Some(desk.enter(signal, fill))) else st
  {
  }

  lemma ActHeld(st: State, signal: Signal, fill: Candle, desk: Desk)
    requires st.pos.Some?
    ensures var reason := ReasonToLeave(st.pos.value.kind, signal);
            Act(st, signal, fill, desk) == if reason.None? then st else Book(st, desk.leave(st.pos.value, fill, reason.value))
  {
  }

  lemma ActCorresponds(st: State, x: Costs, dear: State, signal: Signal, fill: Candle, desk: Desk, dearDesk: Desk)
    requires SameBut(st, x, dear) && Charges(desk, x, dearDesk) && Sound(desk)
    ensures SameBut(Act(st, signal, fill, desk), x, Act(dear, signal, fill, dearDesk))
    ensures Act(st, signal, fill, desk).samples == st.samples && Act(dear, signal, fill, dearDesk).samples == dear.samples
  {
    if st.pos.None? {
      ActFlat(st, signal, fill, desk);
      ActFlat(dear, signal, fill, dearDesk);
    } else {
      ActHeld(st, signal, fill, desk);
      ActHeld(dear, signal, fill, dearDesk);
      assert SameOutside(st.pos.value, x.position(st.pos.value));
      var reason := ReasonToLeave(st.pos.value.kind, signal);
      if reason.Some? {
        var t := desk.leave(st.pos.value, fill, reason.value);
        assert Completes(t, st.pos.value, fill, reason.value);
        BookCorresponds(st, x, dear, t);
      }
    }
  }

  lemma LessOneMore(curve: seq<real>, paid: seq<real>, equity: real, extra: real)
    requires |paid| == |curve|
    ensures Less(curve + [equity], paid + [extra]) == Less(curve, paid) + [equity - extra]
  {
  }

  lemma LooksAlike(st: State, x: Costs, dear: State, history: seq<Candle>, desk: Desk, dearDesk: Desk)
    requires history != [] && SameBut(st, x, dear) && Charges(desk, x, dearDesk)
    ensures Shown(dear, history, dearDesk) == Shown(st, history, desk)
    ensures var last := history[|history| - 1];
            && Equity(dear, last, dearDesk) == Equity(st, last, desk) - ExtraOf(st.trades, x.charge)
            && Outlived(dear.pos, last.time, dearDesk) == Outlived(st.pos, last.time, desk)
  {
    assert st.pos.Some? ==> SameOutside(st.pos.value, x.position(st.pos.value));
  }

  lemma SampledCorresponds(st: State, x: Costs, paid: seq<real>, dear: State, equity: real, extra: real)
    requires Corresponds(st, x, paid, dear)
    ensures Corresponds(Sampled(st, equity), x, paid + [extra], Sampled(dear, equity - extra))
  {
    LessOneMore(st.samples, paid, equity, extra);
  }

  lemma ToldCorresponds(st: State, x: Costs, paid: seq<real>, dear: State, premiums: seq<real>, seen: seq<Context>)
    requires Corresponds(st, x, paid, dear)
    ensures Corresponds(st.(premiums := premiums, seen := seen), x, paid, dear.(premiums := premiums, seen := seen))
  {
  }

  lemma AskedIs(st: State, history: seq<Candle>, desk: Desk, equity: real, ctx: Context)
    requires history != [] && equity == Equity(st, history[|history| - 1], desk) && ctx == Shown(st, history, desk)
    ensures Asked(st, history, desk)
         == Sampled(st, equity).(premiums := if st.pos.Some? then ctx.prices else st.premiums, seen := st.seen + [ctx])
  {
  }

  lemma AskedCorresponds(st: State, x: Costs, paid: seq<real>, dear: State, history: seq<Candle>, desk: Desk, dearDesk: Desk)
    requires history != [] && Corresponds(st, x, paid, dear) && Charges(desk, x, dearDesk)
    ensures Corresponds(Asked(st, history, desk), x, paid + [ExtraOf(st.trades, x.charge)], Asked(dear, history, dearDesk))
  {
    var equity, ctx := Equity(st, history[|history| - 1], desk), Shown(st, history, desk);
    var extra := ExtraOf(st.trades, x.charge);
    LooksAlike(st, x, dear, history, desk, dearDesk);
    AskedIs(st, history, desk, equity, ctx);
    AskedIs(dear, history, dearDesk, equity - extra, ctx);
    SampledCorresponds(st, x, paid, dear, equity, extra);
    ToldCorresponds(Sampled(st, equity), x, paid + [extra], Sampled(dear, equity - extra),
                    if st.pos.Some? then ctx.prices else st.premiums, st.seen + [ctx]);
  }

  ghost predicate CorrespondsIfAny(st: Option<State>, x: Costs, paid: seq<real>, dear: Option<State>) {
    && st.None? == dear.None?
    && (st.Some? ==> Corresponds(st.value, x, paid, dear.value))
  }

  lemma IterateCorresponds(st: State, x: Costs, paid: seq<real>, dear: State, history: seq<Candle>, fill: Candle, sim: Sim, dearSim: Sim)
    requires history != [] && Corresponds(st, x, paid, dear) && SameAtCosts(sim, x, dearSim)
    ensures CorrespondsIfAny(Iterate(st, history, fill, sim), x, paid + [ExtraOf(st.trades, x.charge)], Iterate(dear, history, fill, dearSim))
  {
    LooksAlike(st, x, dear, history, sim.desk, dearSim.desk);
    AskedCorresponds(st, x, paid, dear, history, sim.desk, dearSim.desk);
    var asked, dearAsked := Asked(st, history, sim.desk), Asked(dear, history, dearSim.desk);
    ActCorresponds(asked, x, dearAsked, sim.strat(asked.seen), fill, sim.desk, dearSim.desk);
  }

  ghost predicate SameAtCosts(sim: Sim, x: Costs, dear: Sim) {
    dear.strat == sim.strat && dear.from == sim.from && Charges(sim.desk, x, dear.desk) && Sound(sim.desk)
  }

  lemma {:induction false} LoopCorresponds(candles: seq<Candle>, n: nat, sim: Sim, x: Costs, dear: Sim)
    requires n < |candles| && SameAtCosts(sim, x, dear)
    ensures CorrespondsIfAny(Loop(candles, n, sim), x, PaidAlong(candles, n, sim, ExtraAt(x)), Loop(candles, n, dear))
    decreases n
  {
    if n > sim.from {
      LoopCorresponds(candles, n - 1, sim, x, dear);
      var st := Loop(candles, n - 1, sim);
      if st.Some? {
        IterateCorresponds(st.value, x, PaidAlong(candles, n - 1, sim, ExtraAt(x)), Loop(candles, n - 1, dear).value,
                           candles[..n], candles[n], sim, dear);
      }
    }
  }

  lemma ForcedIs(st: State, last: Candle, desk: Desk, t: Trade)
    requires st.pos.Some? && t == desk.leave(st.pos.value, ClosingCandle(last), EndOfData)
    ensures ForceClosed(st, last, desk) == Sampled(Book(st, t), Book(st, t).realized)
  {
  }

  lemma BookedCorresponds(st: State, x: Costs, paid: seq<real>, dear: State, t: Trade)
    requires Corresponds(st, x, paid, dear) && t.net == t.gross - t.charges
    ensures var booked, dearBooked := Book(st, t), Book(dear, Charged(t, x.charge));
            Corresponds(Sampled(booked, booked.realized), x, paid + [ExtraOf(booked.trades, x.charge)],
                        Sampled(dearBooked, dearBooked.realized))
  {
    BookCorresponds(st, x, dear, t);
    var booked := Book(st, t);
    SampledCorresponds(booked, x, paid, Book(dear, Charged(t, x.charge)), booked.realized, ExtraOf(booked.trades, x.charge));
  }

  lemma ForcedCorresponds(st: State, x: Costs, paid: seq<real>, dear: State, last: Candle, desk: Desk, dearDesk: Desk)
    requires Corresponds(st, x, paid, dear) && Charges(desk, x, dearDesk) && Sound(desk)
    ensures var final := ForceClosed(st, last, desk);
            Corresponds(final, x, if st.pos.None? then paid else paid + [ExtraOf(final.trades, x.charge)], ForceClosed(dear, last, dearDesk))
  {
    if st.pos.Some? {
      var t := desk.leave(st.pos.value, ClosingCandle(last), EndOfData);
      assert Completes(t, st.pos.value, ClosingCandle(last), EndOfData);
      ForcedIs(st, last, desk, t);
      ForcedIs(dear, last, dearDesk, Charged(t, x.charge));
      BookedCorresponds(st, x, paid, dear, t);
    }
  }

  // The run at other costs finishes when the original does, with the same trades at other
  // charges, and an equity curve lower by what has been paid more so far.
  lemma RunAtCosts(candles: seq<Candle>, sim: Sim, x: Costs, dear: Sim)
    requires candles != [] && SameAtCosts(sim, x, dear)
    ensures CorrespondsIfAny(FinalState(candles, sim), x, PaidAs(candles, sim, ExtraAt(x)), FinalState(candles, dear))
  {
    var n := |candles| - 1;
    LoopCorresponds(candles, n, sim, x, dear);
    if Loop(candles, n, sim).Some? {
      ForcedCorresponds(Loop(candles, n, sim).value, x, PaidAlong(candles, n, sim, ExtraAt(x)), Loop(candles, n, dear).value,
                        candles[n], sim.desk, dear.desk);
    }
  }

  // ---- At m times the costs ----

  // What charges cost more at m times their height.
  function Extra(m: real, charges: real): real {
    (m - 1.0) * charges
  }

  lemma ExtraAdds(m: real, a: real, b: real)
    ensures Extra(m, a + b) == Extra(m, a) + Extra(m, b)
    ensures Extra(m, a - b) == Extra(m, a) - Extra(m, b)
    ensures Extra(m, 0.0) == 0.0
    ensures a * m == a + Extra(m, a)
  {
  }

  lemma {:induction false} ExtraIsMultiple(trades: seq<Trade>, m: real)
    ensures ExtraOf(trades, Times(m).charge) == Extra(m, ChargesOf(trades))
    decreases |trades|
  {
    if trades == [] {
      ExtraAdds(m, 0.0, 0.0);
    } else {
      var n := |trades| - 1;
      ExtraIsMultiple(trades[..n], m);
      ExtraAdds(m, ChargesOf(trades[..n]), trades[n].charges);
      ExtraAdds(m, trades[n].charges, 0.0);
    }
  }

  // The one is what the other costs more.
  predicate IsExtra(extra: seq<real>, paid: seq<real>, m: real) {
    |extra| == |paid| && forall i :: 0 <= i < |paid| ==> extra[i] == Extra(m, paid[i])
  }

  lemma {:induction false} ExtraAlong(loop: int -> Option<State>, from: nat, n: nat, m: real)
    ensures IsExtra(PaidFrom(loop, from, n, ExtraAt(Times(m))), PaidFrom(loop, from, n, ChargesOf), m)
    decreases n
  {
    if n > from {
      ExtraAlong(loop, from, n - 1, m);
      ExtraIsMultiple(TradesIn(loop(n - 1)), m);
    }
  }

  // With the trades after a forced close, if there was one.
  function Ended(along: seq<real>, flat: bool, total: seq<Trade> -> real, trades: seq<Trade>): seq<real> {
    if flat then along else along + [total(trades)]
  }

  lemma PaidIs(candles: seq<Candle>, sim: Sim, total: seq<Trade> -> real, st: State, trades: seq<Trade>)
    requires candles != [] && Loop(candles, |candles| - 1, sim) == Some(st)
    requires trades == ForceClosed(st, candles[|candles| - 1], sim.desk).trades
    ensures PaidAs(candles, sim, total) == Ended(PaidAlong(candles, |candles| - 1, sim, total), st.pos.None?, total, trades)
  {
  }

  lemma ExtraEnded(extra: seq<real>, paid: seq<real>, m: real, flat: bool, trades: seq<Trade>)
    requires IsExtra(extra, paid, m)
    ensures IsExtra(Ended(extra, flat, ExtraAt(Times(m)), trades), Ended(paid, flat, ChargesOf, trades), m)
  {
    ExtraIsMultiple(trades, m);
  }

  lemma ExtraPaid(candles: seq<Candle>, sim: Sim, m: real, st: State, trades: seq<Trade>)
    requires candles != [] && Loop(candles, |candles| - 1, sim) == Some(st)
    requires trades == ForceClosed(st, candles[|candles| - 1], sim.desk).trades
    ensures IsExtra(PaidAs(candles, sim, ExtraAt(Times(m))), Paid(candles, sim), m)
  {
    var n := |candles| - 1;
    ExtraAlong(LoopOf(candles, sim), sim.from, n, m);
    PaidIs(candles, sim, ExtraAt(Times(m)), st, trades);
    PaidIs(candles, sim, ChargesOf, st, trades);
    ExtraEnded(PaidAlong(candles, n, sim, ExtraAt(Times(m))), PaidAlong(candles, n, sim, ChargesOf), m, st.pos.None?, trades);
  }

  // Each sample less m - 1 times the charges paid by then.
  function Lowered(curve: seq<real>, paid: seq<real>, m: real): (lowered: seq<real>)
    requires |paid| == |curve|
    ensures |lowered| == |curve|
  {
    seq(|curve|, i requires 0 <= i < |curve| => curve[i] - Extra(m, paid[i]))
  }

  // The trades at m times their charges, and the equity curve lower by the extra.
  ghost predicate IsAtCosts(st: State, m: real, paid: seq<real>, dear: State) {
    && dear.trades == AllCharged(st.trades, Times(m).charge) && dear.seen == st.seen
    && |paid| == |st.samples| && dear.samples == Lowered(st.samples, paid, m)
  }

  lemma LessIsLowered(st: State, m: real, extra: seq<real>, paid: seq<real>, dear: State)
    requires Corresponds(st, Times(m), extra, dear) && IsExtra(extra, paid, m)
    ensures IsAtCosts(st, m, paid, dear)
  {
    assert Less(st.samples, extra) == Lowered(st.samples, paid, m);
  }

  lemma SimAtCosts(strat: Strategy, cfg: Config, m: real)
    ensures SameAtCosts(SimOf(strat, cfg), Times(m), SimOf(strat, AtCosts(cfg, m)))
  {
    DeskCharges(cfg, m);
    DeskIsSound(cfg);
  }

  // The backtest at m times the costs finishes when the original does, having shown the
  // strategy the same, with the same trades at m times their charges and an equity curve lower
  // by the extra charges paid so far.
  lemma BacktestAtCosts(candles: seq<Candle>, strat: Strategy, cfg: Config, m: real)
    requires candles != []
    ensures var sim, dear := SimOf(strat, cfg), SimOf(strat, AtCosts(cfg, m));
            && FinalState(candles, sim).Some? == FinalState(candles, dear).Some?
            && (FinalState(candles, sim).Some? ==>
                  IsAtCosts(FinalState(candles, sim).value, m, Paid(candles, sim), FinalState(candles, dear).value))
  {
    var sim, dear := SimOf(strat, cfg), SimOf(strat, AtCosts(cfg, m));
    SimAtCosts(strat, cfg, m);
    RunAtCosts(candles, sim, Times(m), dear);
    if FinalState(candles, sim).Some? {
      var st := Loop(candles, |candles| - 1, sim).value;
      ExtraPaid(candles, sim, m, st, ForceClosed(st, candles[|candles| - 1], sim.desk).trades);
      LessIsLowered(FinalState(candles, sim).value, m, PaidAs(candles, sim, ExtraAt(Times(m))), Paid(candles, sim),
                    FinalState(candles, dear).value);
    }
  }

  // ---- The drawdown at other costs ----

  // A height and a later sample.
  predicate Falls(curve: seq<real>, i: int, j: int) {
    -1 <= i <= j < |curve| && 0 <= j
  }

  function Fall(curve: seq<real>, i: int, j: int): real
    requires Falls(curve, i, j)
  {
    Height(curve, i) - curve[j]
  }

  // What was paid between them.
  function PaidBetween(paid: seq<real>, i: int, j: int): real
    requires Falls(paid, i, j)
  {
    paid[j] - Height(paid, i)
  }

  lemma LoweredFall(curve: seq<real>, paid: seq<real>, m: real, i: int, j: int)
    requires |paid| == |curve| && Falls(curve, i, j)
    ensures Fall(Lowered(curve, paid, m), i, j) == Fall(curve, i, j) + Extra(m, PaidBetween(paid, i, j))
  {
    ExtraAdds(m, paid[j], Height(paid, i));
  }

  ghost predicate NeverFalls(paid: seq<real>) {
    forall i, j :: Falls(paid, i, j) ==> 0.0 <= PaidBetween(paid, i, j)
  }

  // Every fall, with the extra charges paid during it, stays within the drawdown.
  ghost predicate StaysWithin(dd: real, curve: seq<real>, paid: seq<real>, m: real)
    requires |paid| == |curve|
  {
    forall i, j :: Falls(curve, i, j) ==> Fall(curve, i, j) + Extra(m, PaidBetween(paid, i, j)) <= dd
  }

  // There was no fall, or nothing was paid during one of the greatest.
  ghost predicate GreatestFallWasFree(dd: real, curve: seq<real>, paid: seq<real>)
    requires |paid| == |curve|
  {
    dd == 0.0 || exists i, j :: Falls(curve, i, j) && Fall(curve, i, j) == dd && PaidBetween(paid, i, j) == 0.0
  }

  // The same, in the words of the run.
  ghost predicate IsDrawdown(dd: real, curve: seq<real>) {
    && 0.0 <= dd
    && (forall i, j :: Falls(curve, i, j) ==> Fall(curve, i, j) <= dd)
    && (dd == 0.0 || exists i, j :: Falls(curve, i, j) && Fall(curve, i, j) == dd)
  }

  lemma SameDrawdown(dd: real, curve: seq<real>)
    requires IsMaxDrawdown(dd, curve)
    ensures IsDrawdown(dd, curve)
  {
    if dd != 0.0 {
      var i, j :| -1 <= i <= j < |curve| && 0 <= j && Height(curve, i) - curve[j] == dd;
      assert Falls(curve, i, j) && Fall(curve, i, j) == dd;
    }
  }

  lemma DearerCurve(dd: real, dear: real, curve: seq<real>, paid: seq<real>, m: real)
    requires |paid| == |curve| && NeverFalls(paid) && 1.0 <= m
    requires IsDrawdown(dd, curve) && IsDrawdown(dear, Lowered(curve, paid, m))
    ensures dd <= dear
    ensures dear == dd <==> StaysWithin(dd, curve, paid, m)
  {
    var lowered := Lowered(curve, paid, m);
    forall i, j | Falls(curve, i, j)
      ensures Fall(lowered, i, j) == Fall(curve, i, j) + Extra(m, PaidBetween(paid, i, j)) >= Fall(curve, i, j)
    {
      LoweredFall(curve, paid, m, i, j);
      ProductNonNegative(m - 1.0, PaidBetween(paid, i, j));
    }
    assert forall i, j :: Falls(lowered, i, j) <==> Falls(curve, i, j);
  }

  lemma CheaperCurve(dd: real, cheap: real, curve: seq<real>, paid: seq<real>, m: real)
    requires |paid| == |curve| && NeverFalls(paid) && m < 1.0
    requires IsDrawdown(dd, curve) && IsDrawdown(cheap, Lowered(curve, paid, m))
    ensures cheap <= dd
    ensures cheap == dd <==> GreatestFallWasFree(dd, curve, paid)
  {
    var lowered := Lowered(curve, paid, m);
    forall i, j | Falls(curve, i, j)
      ensures Fall(lowered, i, j) <= Fall(curve, i, j)
      ensures Fall(lowered, i, j) == Fall(curve, i, j) <==> PaidBetween(paid, i, j) == 0.0
    {
      LoweredFall(curve, paid, m, i, j);
      Discount(m, PaidBetween(paid, i, j));
    }
    assert forall i, j :: Falls(lowered, i, j) <==> Falls(curve, i, j);
  }

  lemma Discount(m: real, charges: real)
    requires m < 1.0 && 0.0 <= charges
    ensures Extra(m, charges) <= 0.0
    ensures Extra(m, charges) == 0.0 <==> charges == 0.0
  {
    if charges > 0.0 {
      assert (1.0 - m) * charges > 0.0;
    }
  }

  // ---- What is paid only grows ----

  ghost predicate NoCredits(trades: seq<Trade>) {
    forall t :: t in trades ==> 0.0 <= t.charges
  }

  lemma {:induction false} ChargesGrow(earlier: seq<Trade>, trades: seq<Trade>)
    requires earlier <= trades && NoCredits(trades)
    ensures 0.0 <= ChargesOf(earlier) <= ChargesOf(trades)
    decreases |trades|
  {
    if trades != [] {
      var n := |trades| - 1;
      if |earlier| <= n {
        ChargesGrow(earlier, trades[..n]);
      } else {
        assert earlier == trades;
        ChargesGrow(trades[..n], trades[..n]);
      }
    }
  }

  // Never falling, and never above this.
  ghost predicate RisesTo(paid: seq<real>, top: real) {
    NeverFalls(paid) && 0.0 <= top && forall j :: 0 <= j < |paid| ==> paid[j] <= top
  }

  lemma RisesOneMore(paid: seq<real>, charges: real, top: real)
    requires RisesTo(paid, charges) && charges <= top
    ensures RisesTo(paid + [charges], top)
  {
    var longer := paid + [charges];
    forall i, j | Falls(longer, i, j)
      ensures 0.0 <= PaidBetween(longer, i, j)
    {
      if j < |paid| {
        assert PaidBetween(longer, i, j) == PaidBetween(paid, i, j);
      }
    }
  }

  lemma CreditsBefore(earlier: seq<Trade>, trades: seq<Trade>)
    requires earlier <= trades && NoCredits(trades)
    ensures NoCredits(earlier) && 0.0 <= ChargesOf(earlier) <= ChargesOf(trades)
  {
    ChargesGrow(earlier, trades);
    assert forall i :: 0 <= i < |earlier| ==> earlier[i] == trades[i];
  }

  // Trades are only added to.
  ghost predicate Grows(loop: int -> Option<State>, k: int) {
    TradesIn(loop(k - 1)) <= TradesIn(loop(k))
  }

  // What is paid never falls, nor exceeds the charges of the trades so far.
  lemma {:induction false} RisesAlong(loop: int -> Option<State>, from: nat, n: nat)
    requires forall k :: from < k <= n ==> Grows(loop, k)
    requires NoCredits(TradesIn(loop(n)))
    ensures RisesTo(PaidFrom(loop, from, n, ChargesOf), ChargesOf(TradesIn(loop(n))))
  {
    var trades := TradesIn(loop(n));
    ChargesGrow(trades, trades);
    if n > from {
      var earlier := TradesIn(loop(n - 1));
      assert Grows(loop, n);
      CreditsBefore(earlier, trades);
      RisesAlong(loop, from, n - 1);
      RisesOneMore(PaidFrom(loop, from, n - 1, ChargesOf), ChargesOf(earlier), ChargesOf(trades));
    }
  }

  lemma Reaches(candles: seq<Candle>, n: nat, k: nat, sim: Sim)
    requires k <= n < |candles| && Loop(candles, n, sim).Some?
    ensures Loop(candles, k, sim).Some?
  {
    TradesOnlyGrow(candles, k, n, sim);
  }

  lemma PassGrows(candles: seq<Candle>, k: nat, sim: Sim)
    requires 0 < k < |candles| && Loop(candles, k, sim).Some?
    ensures Grows(LoopOf(candles, sim), k)
  {
    TradesOnlyGrow(candles, k - 1, k, sim);
  }

  lemma PaidAlongRises(candles: seq<Candle>, n: nat, sim: Sim)
    requires n < |candles| && Loop(candles, n, sim).Some? && NoCredits(Loop(candles, n, sim).value.trades)
    ensures RisesTo(PaidAlong(candles, n, sim, ChargesOf), ChargesOf(Loop(candles, n, sim).value.trades))
  {
    forall k | sim.from < k <= n
      ensures Grows(LoopOf(candles, sim), k)
    {
      Reaches(candles, n, k, sim);
      PassGrows(candles, k, sim);
    }
    RisesAlong(LoopOf(candles, sim), sim.from, n);
  }

  lemma PaidRises(candles: seq<Candle>, sim: Sim)
    requires candles != [] && FinalState(candles, sim).Some? && NoCredits(FinalState(candles, sim).value.trades)
    ensures RisesTo(Paid(candles, sim), ChargesOf(FinalState(candles, sim).value.trades))
  {
    var n := |candles| - 1;
    var st, trades := Loop(candles, n, sim).value, FinalState(candles, sim).value.trades;
    assert st.trades <= trades;
    PaidAlongRises(candles, n, sim);
    ChargesGrow(st.trades, trades);
    if st.pos.Some? {
      RisesUpTo(PaidAlong(candles, n, sim, ChargesOf), ChargesOf(st.trades), ChargesOf(trades));
      RisesOneMore(PaidAlong(candles, n, sim, ChargesOf), ChargesOf(trades), ChargesOf(trades));
    }
  }

  lemma RisesUpTo(paid: seq<real>, low: real, top: real)
    requires RisesTo(paid, low) && low <= top
    ensures RisesTo(paid, top)
  {
  }

  // ---- Results ----

  // The drawdown of one run, and of the same run at m times the costs. With higher costs it is
  // no smaller, and the same exactly when no fall of the equity curve, with the extra charges
  // paid during it, is above it; with lower costs no larger, and the same exactly when nothing
  // was paid during one of the greatest falls.
  ghost predicate DrawdownsCompare(kept: State, paid: seq<real>, m: real, dear: State) {
    && |paid| == |kept.samples|
    && (1.0 <= m ==> kept.maxDrawdown <= dear.maxDrawdown
                     && (dear.maxDrawdown == kept.maxDrawdown <==> StaysWithin(kept.maxDrawdown, kept.samples, paid, m)))
    && (m < 1.0 ==> dear.maxDrawdown <= kept.maxDrawdown
                    && (dear.maxDrawdown == kept.maxDrawdown <==> GreatestFallWasFree(kept.maxDrawdown, kept.samples, paid)))
  }

  // The drawdown a report keeps when its costs are scaled, against that of the run with the
  // scaled costs.
  lemma KeptDrawdownIff(candles: seq<Candle>, strat: Strategy, cfg: Config, m: real)
    requires candles != [] && FinalState(candles, SimOf(strat, cfg)).Some?
    requires NoCredits(FinalState(candles, SimOf(strat, cfg)).value.trades)
    ensures FinalState(candles, SimOf(strat, AtCosts(cfg, m))).Some?
    ensures DrawdownsCompare(FinalState(candles, SimOf(strat, cfg)).value, Paid(candles, SimOf(strat, cfg)), m,
                             FinalState(candles, SimOf(strat, AtCosts(cfg, m))).value)
  {
    var sim, dearSim := SimOf(strat, cfg), SimOf(strat, AtCosts(cfg, m));
    BacktestAtCosts(candles, strat, cfg, m);
    PaidRises(candles, sim);
    DrawdownIsGreatestFall(candles, sim);
    DrawdownIsGreatestFall(candles, dearSim);
    FinalsCompare(FinalState(candles, sim).value, Paid(candles, sim), m, FinalState(candles, dearSim).value);
  }

  lemma FinalsCompare(kept: State, paid: seq<real>, m: real, dear: State)
    requires IsAtCosts(kept, m, paid, dear) && NeverFalls(paid)
    requires IsMaxDrawdown(kept.maxDrawdown, kept.samples) && IsMaxDrawdown(dear.maxDrawdown, dear.samples)
    ensures DrawdownsCompare(kept, paid, m, dear)
  {
    SameDrawdown(kept.maxDrawdown, kept.samples);
    SameDrawdown(dear.maxDrawdown, dear.samples);
    if 1.0 <= m {
      DearerCurve(kept.maxDrawdown, dear.maxDrawdown, kept.samples, paid, m);
    } else {
      CheaperCurve(kept.maxDrawdown, dear.maxDrawdown, kept.samples, paid, m);
    }
  }

  // The drawdown of the run at m times the costs, once it is known to finish.
  function DrawdownAt(candles: seq<Candle>, strat: Strategy, cfg: Config, m: real): real
    requires candles != []
  {
    var final := FinalState(candles, SimOf(strat, AtCosts(cfg, m)));
    if final.None? then 0.0 else final.value.maxDrawdown
  }

  // The charges paid by the last sample.
  function PaidInAll(candles: seq<Candle>, strat: Strategy, cfg: Config): real
    requires candles != []
  {
    var paid := Paid(candles, SimOf(strat, cfg));
    Height(paid, |paid| - 1)
  }

  lemma OwnCosts(candles: seq<Candle>, strat: Strategy, cfg: Config)
    requires candles != [] && FinalState(candles, SimOf(strat, AtCosts(cfg, 1.0))).Some?
    ensures FinalState(candles, SimOf(strat, cfg)).Some?
    ensures FinalState(candles, SimOf(strat, cfg)).value.maxDrawdown == DrawdownAt(candles, strat, cfg, 1.0)
  {
    BacktestAtCosts(candles, strat, cfg, 1.0);
    DrawdownIsGreatestFall(candles, SimOf(strat, cfg));
    DrawdownIsGreatestFall(candles, SimOf(strat, AtCosts(cfg, 1.0)));
    var one, same := FinalState(candles, SimOf(strat, cfg)).value, FinalState(candles, SimOf(strat, AtCosts(cfg, 1.0))).value;
    assert same.samples == one.samples;
    SameDrawdown(one.maxDrawdown, one.samples);
    SameDrawdown(same.maxDrawdown, one.samples);
  }

  // The kept drawdown is right at every higher multiplier if and only if no charge had been
  // paid by the last sample.
  lemma KeptAtEveryMultiplierIff(candles: seq<Candle>, strat: Strategy, cfg: Config)
    requires candles != [] && FinalState(candles, SimOf(strat, cfg)).Some?
    requires NoCredits(FinalState(candles, SimOf(strat, cfg)).value.trades)
    ensures (forall m: real :: 1.0 <= m ==> DrawdownAt(candles, strat, cfg, m) == FinalState(candles, SimOf(strat, cfg)).value.maxDrawdown)
            <==> PaidInAll(candles, strat, cfg) == 0.0
  {
    var kept, paid := FinalState(candles, SimOf(strat, cfg)).value, Paid(candles, SimOf(strat, cfg));
    PaidRises(candles, SimOf(strat, cfg));
    DrawdownIsGreatestFall(candles, SimOf(strat, cfg));
    SameDrawdown(kept.maxDrawdown, kept.samples);
    KeptDrawdownIff(candles, strat, cfg, 1.0);
    if PaidInAll(candles, strat, cfg) == 0.0 {
      forall m: real | 1.0 <= m
        ensures DrawdownAt(candles, strat, cfg, m) == kept.maxDrawdown
      {
        KeptDrawdownIff(candles, strat, cfg, m);
        NothingPaid(kept.maxDrawdown, kept.samples, paid, m);
      }
    } else {
      var m := Telling(kept.maxDrawdown, kept.samples, paid);
      KeptDrawdownIff(candles, strat, cfg, m);
      assert DrawdownAt(candles, strat, cfg, m) != kept.maxDrawdown;
    }
  }

  lemma NothingPaid(dd: real, curve: seq<real>, paid: seq<real>, m: real)
    requires |paid| == |curve| && NeverFalls(paid) && Height(paid, |paid| - 1) == 0.0 && IsDrawdown(dd, curve)
    ensures StaysWithin(dd, curve, paid, m)
  {
    var n := |paid| - 1;
    forall i, j | Falls(curve, i, j)
      ensures Fall(curve, i, j) + Extra(m, PaidBetween(paid, i, j)) <= dd
    {
      assert Falls(paid, -1, j) && Falls(paid, i, j) && Falls(paid, j, n);
      assert PaidBetween(paid, -1, j) == paid[j] && PaidBetween(paid, j, n) == -paid[j];
      if i >= 0 {
        assert Falls(paid, -1, i) && PaidBetween(paid, -1, i) == paid[i];
      }
      assert PaidBetween(paid, i, j) == 0.0;
      ExtraAdds(m, 0.0, 0.0);
    }
  }

  // A multiplier so high that the charges paid alone exceed the drawdown.
  lemma Telling(dd: real, curve: seq<real>, paid: seq<real>) returns (m: real)
    requires |paid| == |curve| && NeverFalls(paid) && Height(paid, |paid| - 1) != 0.0 && IsDrawdown(dd, curve)
    ensures 1.0 <= m && !StaysWithin(dd, curve, paid, m)
  {
    var n := |paid| - 1;
    assert Falls(paid, -1, n) && Falls(curve, -1, n);
    var all := PaidBetween(paid, -1, n);
    assert all == paid[n] > 0.0;
    var short := dd + 1.0 - Fall(curve, -1, n);
    m := 1.0 + short / all;
    assert short / all >= 0.0;
    assert Extra(m, all) == short / all * all == short;
  }

  // ---- A backtest whose kept drawdown is wrong ----

  function Flat(time: int): Candle {
    Candle(time, 10.0, 10.0, 10.0, 10.0, 0)
  }

  function ThreeCandles(): seq<Candle> {
    [Flat(0), Flat(1), Flat(2)]
  }

  function AlwaysBuys(): Strategy {
    (seen: seq<Context>) => Signal(Buying, [])
  }

  // Options at 10 that never expire, each execution charged 1.
  function FlatMarket(): Config {
    Config(1, 1, 1.0, 0.0, 0.0,
           Market((t: string, strike: real, expiry: int, now: int, spot: real) => 10.0, (text: string, now: int) => 100,
                  (premium: real, quantity: int, side: Side) => 1.0, (theo: real, quantity: int) => 0.0))
  }

  // One trade that loses its charges, 2 in all: at m times the costs the drawdown is 2 m.
  lemma OneFlatTrade(m: real)
    requires 0.0 <= m
    ensures DrawdownAt(ThreeCandles(), AlwaysBuys(), FlatMarket(), m) == 2.0 * m
  {
    var cfg := AtCosts(FlatMarket(), m);
    var sim, candles := SimOf(AlwaysBuys(), cfg), ThreeCandles();
    assert candles[..2] == [Flat(0), Flat(1)];
    var asked := Asked(START, candles[..2], sim.desk);
    var st := Act(asked, Signal(Buying, []), candles[2], sim.desk);
    assert Loop(candles, 1, sim) == Some(START);
    assert Loop(candles, 2, sim) == Some(st);
    assert asked.samples == [0.0] && asked.maxDrawdown == 0.0 && asked.peak == 0.0;
    var pos := OpenedDirectional(Buying, candles[2], cfg);
    assert st.pos == Some(pos) && st.realized == 0.0;
    FlatTradeCosts(m, pos);
    var t := Closed(pos, ClosingCandle(candles[2]), cfg, EndOfData);
    assert ForceClosed(st, candles[2], sim.desk) == Sampled(Book(st, t), -(2.0 * m));
  }

  lemma FlatTradeCosts(m: real, pos: Position)
    requires pos == OpenedDirectional(Buying, Flat(2), AtCosts(FlatMarket(), m))
    ensures Closed(pos, ClosingCandle(Flat(2)), AtCosts(FlatMarket(), m), EndOfData).net == -(2.0 * m)
  {
    var cfg, fill := AtCosts(FlatMarket(), m), ClosingCandle(Flat(2));
    var l := OpenLeg(DirectionalLeg(Buying), Flat(2), cfg);
    assert pos.legs == [l] && [l][..0] == [];
    assert Sum([l], ExitPnL(fill, cfg)) == ExitPnL(fill, cfg)(l) && Sum([l], CostsAt(fill, cfg)) == CostsAt(fill, cfg)(l);
    assert l.quantity == 1 && l.entryPremium == 10.0 && ExitPremium(l, fill, cfg) == 10.0;
    assert LegCosts(l, fill, cfg) == 1.0 * m + 0.0 * m + 1.0 * m + 0.0 * m;
  }

  // Doubling the costs afterwards keeps a drawdown of 2 where the run at double costs has 4.
  lemma KeptDrawdownIsWrong()
    ensures FinalState(ThreeCandles(), SimOf(AlwaysBuys(), FlatMarket())).Some?
    ensures FinalState(ThreeCandles(), SimOf(AlwaysBuys(), FlatMarket())).value.maxDrawdown == 2.0
    ensures DrawdownAt(ThreeCandles(), AlwaysBuys(), FlatMarket(), 2.0) == 4.0
  {
    OneFlatTrade(1.0);
    OneFlatTrade(2.0);
    OwnCosts(ThreeCandles(), AlwaysBuys(), FlatMarket());
  }

  // ---- The report ----

  // The trades as the report groups them, by the calendar of their close.
  function ReportTrades(trades: seq<Trade>, day: int -> int, month: int -> int): (rows: seq<Report.Trade>)
    ensures |rows| == |trades|
  {
    seq(|trades|, i requires 0 <= i < |trades| =>
      Report.Trade(i, day(trades[i].closeTime), month(trades[i].closeTime), trades[i].gross, trades[i].charges, trades[i].net))
  }

  lemma ScaledRows(trades: seq<Trade>, m: real, day: int -> int, month: int -> int)
    requires forall t :: t in trades ==> t.net == t.gross - t.charges
    ensures ReportTrades(AllCharged(trades, Times(m).charge), day, month) == Report.Scaled(ReportTrades(trades, day, month), m)
  {
    var dear, scaled := ReportTrades(AllCharged(trades, Times(m).charge), day, month), Report.Scaled(ReportTrades(trades, day, month), m);
    forall i | 0 <= i < |trades|
      ensures dear[i] == scaled[i]
    {
      assert trades[i] in trades;
    }
  }

  // The engine gives a report.
  predicate Reports(candles: seq<Candle>, strat: Strategy, cfg: Config) {
    ValidCandles(candles) && |candles| > FirstIndex(cfg) + 1 && FinalState(candles, SimOf(strat, cfg)).Some?
  }

  // A backtest whose report is then scaled: trades and every figure are those of the backtest
  // run with the scaled costs, and the drawdown is that of the run with the original ones.
  method ScaledReport(candles: seq<Candle>, strat: Strategy, cfg: Config, day: int -> int, month: int -> int, m: real)
    returns (report: Report.Report?)
    ensures report == null <==> !Reports(candles, strat, cfg)
    ensures report != null ==>
              && fresh(report)
              && Reports(candles, strat, AtCosts(cfg, m))
              && report.trades == ReportTrades(FinalState(candles, SimOf(strat, AtCosts(cfg, m))).value.trades, day, month)
              && Report.Summarizes(report.View(), report.trades)
              && report.maxDrawdown == FinalState(candles, SimOf(strat, cfg)).value.maxDrawdown
  {
    var out := Backtest.Run(candles, strat, cfg);
    if !out.Finished? {
      return null;
    }
    report := new Report.Report(ReportTrades(out.trades, day, month), out.maxDrawdown);
    report.ScaleCosts(m);
    BacktestAtCosts(candles, strat, cfg, m);
    RunEndsFlatAndBalanced(candles, SimOf(strat, cfg));
    ScaledRows(out.trades, m, day, month);
  }
}
