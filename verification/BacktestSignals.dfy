/** What a backtest makes of its strategy's signals, and what it shows the strategy. */
module BacktestSignals {
  import opened Common
  import opened Backtest
  import opened BacktestRuns

  // ---- The legs ----

  // Calls gain as the spot rises, puts lose.
  ghost predicate CallsRisePutsFall(cfg: Config) {
    && (forall strike, expiry, now, a, b :: a <= b ==> cfg.market.price("CE", strike, expiry, now, a) <= cfg.market.price("CE", strike, expiry, now, b))
    && (forall strike, expiry, now, a, b :: a <= b ==> cfg.market.price("PE", strike, expiry, now, b) <= cfg.market.price("PE", strike, expiry, now, a))
  }

  // A buy signal without legs opens a position that gains when the spot rises, a sell signal one
  // that gains when it falls.
  lemma DirectionalFollowsSpot(cfg: Config, fill: Candle, now: int, a: real, b: real)
    requires CallsRisePutsFall(cfg) && 0 <= cfg.lotSize && a <= b
    ensures var long := Some(OpenedBy(Signal(Buying, []), fill, cfg)); Unrealized(long, a, now, cfg) <= Unrealized(long, b, now, cfg)
    ensures var short := Some(OpenedBy(Signal(Selling, []), fill, cfg)); Unrealized(short, b, now, cfg) <= Unrealized(short, a, now, cfg)
  {
    OneLegRises(cfg, OpenLeg(DirectionalLeg(Buying), fill, cfg), now, a, b);
    OneLegRises(cfg, OpenLeg(DirectionalLeg(Selling), fill, cfg), now, b, a);
    SumOfOne(OpenLeg(DirectionalLeg(Buying), fill, cfg), PnLAt(a, now, cfg));
    SumOfOne(OpenLeg(DirectionalLeg(Buying), fill, cfg), PnLAt(b, now, cfg));
    SumOfOne(OpenLeg(DirectionalLeg(Selling), fill, cfg), PnLAt(a, now, cfg));
    SumOfOne(OpenLeg(DirectionalLeg(Selling), fill, cfg), PnLAt(b, now, cfg));
    DirectionalLegs(Buying, fill, cfg);
    DirectionalLegs(Selling, fill, cfg);
  }

  lemma DirectionalLegs(action: Action, fill: Candle, cfg: Config)
    ensures OpenedBy(Signal(action, []), fill, cfg).legs == [OpenLeg(DirectionalLeg(action), fill, cfg)]
  {
  }

  lemma SumOfOne(l: Leg, figure: Leg -> real)
    ensures Sum([l], figure) == figure(l)
  {
    assert [l][..0] == [];
  }

  lemma OneLegRises(cfg: Config, l: Leg, now: int, low: real, high: real)
    requires l.side == Buy && 0 <= l.quantity && PriceNow(l, low, now, cfg) <= PriceNow(l, high, now, cfg)
    ensures PnLAt(low, now, cfg)(l) <= PnLAt(high, now, cfg)(l)
  {
    ProductsOrdered(PriceNow(l, low, now, cfg) - l.entryPremium, PriceNow(l, high, now, cfg) - l.entryPremium, l.quantity as real);
  }

  // A leg is what was asked for: its side and type, so many lots but at least one, and a strike
  // that less the offset is a whole number of steps within half a step of the open.
  predicate AsAsked(l: Leg, asked: OrderLeg, fill: Candle, cfg: Config) {
    var step := if cfg.strikeStep <= 0.0 then 1.0 else cfg.strikeStep;
    && l.side == asked.side && l.optionType == asked.optionType && l.expiry == cfg.market.expiryOf(asked.expiry, fill.time)
    && l.quantity == (if asked.lots > 1 then asked.lots * cfg.lotSize else cfg.lotSize)
    && -step / 2.0 <= l.strike - asked.strikeOffset as real - fill.open <= step / 2.0
  }

  lemma LegsAreAsAsked(signal: Signal, fill: Candle, cfg: Config)
    ensures var asked := if signal.legs != [] then signal.legs
                         else [OrderLeg(Buy, 0, if signal.action == Selling then "PE" else "CE", "", 1)];
            var legs := OpenedBy(signal, fill, cfg).legs;
            |legs| == |asked| && forall i :: 0 <= i < |legs| ==> AsAsked(legs[i], asked[i], fill, cfg)
  {
    forall asked: OrderLeg
      ensures AsAsked(OpenLeg(asked, fill, cfg), asked, fill, cfg)
    {
      StrikeIsNearest(fill.open, cfg.strikeStep, asked.strikeOffset as real);
    }
    DirectionalLegs(signal.action, fill, cfg);
    assert AsAsked(OpenLeg(DirectionalLeg(signal.action), fill, cfg), DirectionalLeg(signal.action), fill, cfg);
  }

  // ---- What they cost ----

  // Cash of one execution: a buy pays its premium, a sale receives it, and both pay charge and
  // spread.
  function Execution(side: Side, premium: real, theo: real, quantity: int, cfg: Config): real {
    var turnover := premium * quantity as real;
    (if side == Buy then -turnover else turnover) - cfg.market.legCharge(premium, quantity, side) - cfg.market.spreadCost(theo, quantity)
  }

  // A price moved against the execution by the larger of a percentage and one tick, and never
  // below zero.
  function Slipped(theo: real, side: Side, cfg: Config): real {
    var slip := if cfg.tickSize <= theo * cfg.slippagePct then theo * cfg.slippagePct else cfg.tickSize;
    match side
    case Buy => theo + slip
    case Sell => if slip <= theo then theo - slip else 0.0
  }

  // Cash of a leg over its life: opened at one candle, closed at another.
  function LegCash(asked: OrderLeg, opening: Candle, closing: Candle, cfg: Config): real {
    var l := OpenLeg(asked, opening, cfg);
    var entry := cfg.market.price(asked.optionType, l.strike, l.expiry, opening.time, opening.open);
    var exit := cfg.market.price(asked.optionType, l.strike, l.expiry, closing.time, closing.open);
    Execution(asked.side, Slipped(entry, asked.side, cfg), entry, l.quantity, cfg)
    + Execution(asked.side.Opposite(), Slipped(exit, asked.side.Opposite(), cfg), exit, l.quantity, cfg)
  }

  function CashOf(asked: seq<OrderLeg>, opening: Candle, closing: Candle, cfg: Config): real {
    if asked == [] then 0.0 else CashOf(asked[..|asked| - 1], opening, closing, cfg) + LegCash(asked[|asked| - 1], opening, closing, cfg)
  }

  lemma FillsAreSlipped(theo: real, side: Side, cfg: Config)
    ensures FillPremium(theo, side, cfg) == Slipped(theo, side, cfg)
  {
  }

  // Profit from one premium to another is the turnover of the closing execution less that of
  // the opening one.
  lemma ProfitIsTurnover(l: Leg, exit: real)
    ensures LegPnL(l, exit)
         == if l.side == Buy then exit * l.quantity as real - l.entryPremium * l.quantity as real
            else l.entryPremium * l.quantity as real - exit * l.quantity as real
  {
    Distributed2(exit, l.entryPremium, l.quantity as real);
  }

  lemma Distributed2(a: real, b: real, q: real)
    ensures (a - b) * q == a * q - b * q
    ensures (b - a) * q == b * q - a * q
  {
  }

  lemma ExecutionsAddUp(l: Leg, entry: real, exit: real, entryTheo: real, exitTheo: real, cfg: Config, profit: real, costs: real)
    requires l.entryPremium == entry
    requires profit == (if l.side == Buy then exit * l.quantity as real - entry * l.quantity as real
                        else entry * l.quantity as real - exit * l.quantity as real)
    requires costs == cfg.market.legCharge(entry, l.quantity, l.side) + cfg.market.spreadCost(entryTheo, l.quantity)
                      + cfg.market.legCharge(exit, l.quantity, l.side.Opposite()) + cfg.market.spreadCost(exitTheo, l.quantity)
    ensures profit - costs == Execution(l.side, entry, entryTheo, l.quantity, cfg) + Execution(l.side.Opposite(), exit, exitTheo, l.quantity, cfg)
  {
  }

  lemma LegNetIsCash(asked: OrderLeg, opening: Candle, closing: Candle, cfg: Config)
    ensures var l := OpenLeg(asked, opening, cfg);
            ExitPnL(closing, cfg)(l) - CostsAt(closing, cfg)(l) == LegCash(asked, opening, closing, cfg)
  {
    var l := OpenLeg(asked, opening, cfg);
    var entry := cfg.market.price(asked.optionType, l.strike, l.expiry, opening.time, opening.open);
    FillsAreSlipped(entry, asked.side, cfg);
    FillsAreSlipped(PriceNow(l, closing.open, closing.time, cfg), asked.side.Opposite(), cfg);
    ProfitIsTurnover(l, ExitPremium(l, closing, cfg));
    ExecutionsAddUp(l, l.entryPremium, ExitPremium(l, closing, cfg), entry, PriceNow(l, closing.open, closing.time, cfg), cfg,
                    LegPnL(l, ExitPremium(l, closing, cfg)), LegCosts(l, closing, cfg));
  }

  lemma {:induction false} LegsNetIsCash(asked: seq<OrderLeg>, opening: Candle, closing: Candle, cfg: Config)
    ensures var ls := OpenLegs(asked, opening, cfg);
            Sum(ls, ExitPnL(closing, cfg)) - Sum(ls, CostsAt(closing, cfg)) == CashOf(asked, opening, closing, cfg)
    decreases |asked|
  {
    if asked != [] {
      var n := |asked| - 1;
      LegsNetIsCash(asked[..n], opening, closing, cfg);
      var ls, shorter, last := OpenLegs(asked, opening, cfg), OpenLegs(asked[..n], opening, cfg), OpenLeg(asked[n], opening, cfg);
      assert ls == shorter + [last];
      SumOneMore(ls, shorter, last, ExitPnL(closing, cfg));
      SumOneMore(ls, shorter, last, CostsAt(closing, cfg));
      LegNetIsCash(asked[n], opening, closing, cfg);
    }
  }

  lemma SumOneMore(ls: seq<Leg>, shorter: seq<Leg>, last: Leg, figure: Leg -> real)
    requires ls == shorter + [last]
    ensures Sum(ls, figure) == Sum(shorter, figure) + figure(last)
  {
    assert ls[..|ls| - 1] == shorter;
  }

  // The net profit of a trade is the cash its executions brought in: what was paid and received
  // at slipped premiums, less charge and spread of every execution, each once.
  lemma NetIsCash(signal: Signal, opening: Candle, closing: Candle, cfg: Config, reason: Reason)
    ensures Closed(OpenedBy(signal, opening, cfg), closing, cfg, reason).net
         == CashOf(if signal.legs != [] then signal.legs else [DirectionalLeg(signal.action)], opening, closing, cfg)
  {
    LegsNetIsCash(if signal.legs != [] then signal.legs else [DirectionalLeg(signal.action)], opening, closing, cfg);
  }

  // ---- Signals are obeyed ----

  // Each signal is acted on at the next open: an entry signal while flat opens its position, a
  // signal that closes the one held closes it, and everything else changes nothing.
  lemma SignalsAreObeyed(candles: seq<Candle>, n: nat, sim: Sim)
    requires sim.from <= n && n + 1 < |candles| && Loop(candles, n, sim).Some? && Loop(candles, n + 1, sim).Some?
    ensures var was, now, signal, fill := Loop(candles, n, sim).value, Loop(candles, n + 1, sim).value, SignalAt(candles, n, sim), candles[n + 1];
            match was.pos
            case None => now.trades == was.trades && now.pos == if Enters(signal) then Some(sim.desk.enter(signal, fill)) else None
            case Some(p) =>
              if signal.legs == [] && signal.action == Exiting then
                now.pos == None && now.trades == was.trades + [sim.desk.leave(p, fill, ExitSignal)]
              else if signal.legs == [] && p.kind.Directional? && signal.action != Hold && signal.action != p.kind.side then
                now.pos == None && now.trades == was.trades + [sim.desk.leave(p, fill, OppositeSignal)]
              else now.pos == was.pos && now.trades == was.trades
  {
    var was, fill := Loop(candles, n, sim).value, candles[n + 1];
    var asked := Asked(was, candles[..n + 1], sim.desk);
    LoopUnrolls(candles, n, was, sim);
    ObeyedOnce(asked, sim.strat(asked.seen), fill, sim.desk);
  }

  lemma ObeyedOnce(st: State, signal: Signal, fill: Candle, desk: Desk)
    ensures var now := Act(st, signal, fill, desk);
            match st.pos
            case None => now.trades == st.trades && now.pos == if Enters(signal) then Some(desk.enter(signal, fill)) else None
            case Some(p) =>
              if signal.legs == [] && signal.action == Exiting then
                now.pos == None && now.trades == st.trades + [desk.leave(p, fill, ExitSignal)]
              else if signal.legs == [] && p.kind.Directional? && signal.action != Hold && signal.action != p.kind.side then
                now.pos == None && now.trades == st.trades + [desk.leave(p, fill, OppositeSignal)]
              else now.pos == st.pos && now.trades == st.trades
  {
  }

  // One of the legs held has expired.
  predicate LegExpired(pos: Option<Position>, now: int) {
    pos.Some? && exists i :: 0 <= i < |pos.value.legs| && pos.value.legs[i].expiry <= now
  }

  // The loop gets to candle n holding such a leg.
  predicate HoldsExpired(candles: seq<Candle>, n: nat, sim: Sim) {
    sim.from <= n < |candles| - 1 && Loop(candles, n, sim).Some? && LegExpired(Loop(candles, n, sim).value.pos, candles[n].time)
  }

  lemma ExpiredIsOutlived(pos: Option<Position>, now: int, cfg: Config)
    ensures Outlived(pos, now, DeskOf(cfg)) <==> LegExpired(pos, now)
  {
  }

  // The run fails if and only if at some candle but the last it holds a leg at or past expiry.
  lemma FailsIffExpired(candles: seq<Candle>, strat: Strategy, cfg: Config)
    requires candles != []
    ensures FinalState(candles, SimOf(strat, cfg)).None? <==> exists n: nat :: HoldsExpired(candles, n, SimOf(strat, cfg))
  {
    if FinalState(candles, SimOf(strat, cfg)).None? {
      var n := FirstFailure(candles, |candles| - 1, SimOf(strat, cfg), cfg);
    }
    if exists n: nat :: HoldsExpired(candles, n, SimOf(strat, cfg)) {
      var n: nat :| HoldsExpired(candles, n, SimOf(strat, cfg));
      ExpiredFails(candles, n, SimOf(strat, cfg), cfg);
    }
  }

  lemma ExpiredFails(candles: seq<Candle>, n: nat, sim: Sim, cfg: Config)
    requires sim.desk == DeskOf(cfg) && HoldsExpired(candles, n, sim)
    ensures FinalState(candles, sim).None?
  {
    ExpiredStops(candles, n, Loop(candles, n, sim).value, sim, cfg);
    FailsHasNoEnd(candles, sim);
  }

  lemma ExpiredStops(candles: seq<Candle>, n: nat, st: State, sim: Sim, cfg: Config)
    requires sim.desk == DeskOf(cfg) && sim.from <= n && n + 1 < |candles| && Loop(candles, n, sim) == Some(st)
    requires LegExpired(st.pos, candles[n].time)
    ensures Fails(candles, sim)
  {
    ExpiredIsOutlived(st.pos, candles[n].time, cfg);
    LoopNext(candles, n, st, None, sim);
  }

  lemma FailsHasNoEnd(candles: seq<Candle>, sim: Sim)
    requires Fails(candles, sim)
    ensures FinalState(candles, sim).None?
  {
  }

  lemma {:induction false} FirstFailure(candles: seq<Candle>, m: nat, sim: Sim, cfg: Config) returns (n: nat)
    requires sim.desk == DeskOf(cfg) && m < |candles| && Loop(candles, m, sim).None?
    ensures HoldsExpired(candles, n, sim)
    decreases m
  {
    if Loop(candles, m - 1, sim).None? {
      n := FirstFailure(candles, m - 1, sim, cfg);
    } else {
      n := m - 1;
      StoppedByExpiry(candles, n, Loop(candles, n, sim).value, sim, cfg);
    }
  }

  lemma StoppedByExpiry(candles: seq<Candle>, n: nat, st: State, sim: Sim, cfg: Config)
    requires sim.desk == DeskOf(cfg) && n + 1 < |candles| && Loop(candles, n, sim) == Some(st) && Loop(candles, n + 1, sim).None?
    ensures sim.from <= n && LegExpired(st.pos, candles[n].time)
  {
    LoopUnrolls(candles, n, st, sim);
    ExpiredIsOutlived(st.pos, candles[n].time, cfg);
  }

  // The loop's states, as a table.
  function States(candles: seq<Candle>, sim: Sim): int -> Option<State> {
    (n: int) => if 0 <= n < |candles| then Loop(candles, n, sim) else None
  }

  // What is shown at candle n: the candles up to it and no further, whether a position is held
  // there, and for how long; while none is, the closes and volumes.
  predicate Shows(candles: seq<Candle>, n: int, pos: Option<Position>, ctx: Context) {
    && 0 <= n < |candles| && ctx.candles == candles[..n + 1] && ctx.now == candles[n].time
    && ctx.hasPosition == pos.Some?
    && (if pos.Some? then ctx.positionAge == candles[n].time - pos.value.openedAt
        else |ctx.prices| == |ctx.volumes| == n + 1
             && forall k :: 0 <= k <= n ==> ctx.prices[k] == candles[k].close && ctx.volumes[k] == candles[k].volume)
  }

  predicate SeenAt(candles: seq<Candle>, n: int, states: int -> Option<State>, ctx: Context) {
    states(n).Some? && Shows(candles, n, states(n).value.pos, ctx)
  }

  ghost predicate AllSeen(candles: seq<Candle>, from: nat, n: int, states: int -> Option<State>, seen: seq<Context>) {
    |seen| == n - from && forall k :: 0 <= k < |seen| ==> SeenAt(candles, from + k, states, seen[k])
  }

  // It has been shown one context for each candle from the first it may act on.
  lemma StrategySeesEachCandleOnce(candles: seq<Candle>, n: nat, sim: Sim)
    requires sim.from <= n < |candles| && Loop(candles, n, sim).Some?
    ensures AllSeen(candles, sim.from, n, States(candles, sim), Loop(candles, n, sim).value.seen)
  {
    forall m | sim.from <= m < n
      ensures ShowsOne(candles, m, States(candles, sim))
    {
      ReachedBefore(candles, m, n, sim);
      OneMoreSeen(candles, m, Loop(candles, m, sim).value, Loop(candles, m + 1, sim).value, sim);
    }
    AllAreSeen(candles, sim.from, n, States(candles, sim));
  }

  // From this state to the next the strategy is shown one context, that of this candle.
  predicate ShowsOne(candles: seq<Candle>, n: int, states: int -> Option<State>) {
    && states(n).Some? && states(n + 1).Some?
    && var seen := states(n + 1).value.seen;
       seen != [] && seen[..|seen| - 1] == states(n).value.seen && SeenAt(candles, n, states, seen[|seen| - 1])
  }

  lemma {:induction false} AllAreSeen(candles: seq<Candle>, from: nat, n: nat, states: int -> Option<State>)
    requires from <= n && states(from) == Some(START) && states(n).Some?
    requires forall m :: from <= m < n ==> ShowsOne(candles, m, states)
    ensures AllSeen(candles, from, n, states, states(n).value.seen)
  {
    if n > from {
      assert ShowsOne(candles, n - 1, states);
      AllAreSeen(candles, from, n - 1, states);
    }
  }

  lemma OneMoreSeen(candles: seq<Candle>, n: nat, st: State, next: State, sim: Sim)
    requires sim.from <= n && n + 1 < |candles| && Loop(candles, n, sim) == Some(st) && Loop(candles, n + 1, sim) == Some(next)
    ensures ShowsOne(candles, n, States(candles, sim))
  {
    LoopUnrolls(candles, n, st, sim);
    assert next.seen == st.seen + [Shown(st, candles[..n + 1], sim.desk)];
    ShownShows(candles, n, st, sim.desk);
  }

  lemma ShownShows(candles: seq<Candle>, n: nat, st: State, desk: Desk)
    requires n < |candles|
    ensures Shows(candles, n, st.pos, Shown(st, candles[..n + 1], desk))
  {
  }

  // ---- The premiums shown ----

  // From candle n to the next a position's premiums gain its premium at candle n's close, and are
  // forgotten with it.
  predicate PremiumsMove(candles: seq<Candle>, n: int, states: int -> Option<State>, desk: Desk) {
    && 0 <= n < |candles| && states(n).Some? && states(n + 1).Some?
    && MovesPremiums(states(n).value, states(n + 1).value, candles[n], desk)
  }

  predicate MovesPremiums(st: State, next: State, c: Candle, desk: Desk) {
    if st.pos.None? then next.premiums == st.premiums
    else if next.pos.None? then next.premiums == []
    else next.pos == st.pos && next.premiums == st.premiums + [desk.currentPremium(st.pos.value, c.close, c.time)]
  }

  lemma PassMovesPremiums(st: State, history: seq<Candle>, fill: Candle, sim: Sim)
    requires history != [] && Iterate(st, history, fill, sim).Some?
    ensures MovesPremiums(st, Iterate(st, history, fill, sim).value, history[|history| - 1], sim.desk)
  {
    var asked := Asked(st, history, sim.desk);
    ActMovesPremiums(asked, sim.strat(asked.seen), fill, sim.desk);
  }

  lemma ActMovesPremiums(st: State, signal: Signal, fill: Candle, desk: Desk)
    ensures var next := Act(st, signal, fill, desk);
            && next.premiums == (if st.pos.Some? && next.pos.None? then [] else st.premiums)
            && (next.pos.Some? && st.pos.Some? ==> next.pos == st.pos)
  {
  }

  lemma OnePremium(candles: seq<Candle>, n: nat, st: State, next: State, sim: Sim)
    requires sim.from <= n && n + 1 < |candles| && Loop(candles, n, sim) == Some(st) && Loop(candles, n + 1, sim) == Some(next)
    ensures PremiumsMove(candles, n, States(candles, sim), sim.desk)
  {
    LoopUnrolls(candles, n, st, sim);
    PassMovesPremiums(st, candles[..n + 1], candles[n + 1], sim);
  }

  lemma {:induction false} FlatHasNoPremiums(candles: seq<Candle>, from: nat, n: nat, states: int -> Option<State>, desk: Desk)
    requires from <= n < |candles| && states(from) == Some(START) && states(n).Some? && states(n).value.pos.None?
    requires forall i :: from <= i < n ==> PremiumsMove(candles, i, states, desk)
    ensures states(n).value.premiums == []
    decreases n
  {
    if from < n {
      assert PremiumsMove(candles, n - 1, states, desk);
      if states(n - 1).value.pos.None? {
        FlatHasNoPremiums(candles, from, n - 1, states, desk);
      }
    }
  }

  // The same position was held at candles m to n, and none at the one before.
  ghost predicate HeldSince(states: int -> Option<State>, m: int, n: int, p: Position) {
    && states(m - 1).Some? && states(m - 1).value.pos.None?
    && forall j :: m <= j <= n ==> states(j).Some? && states(j).value.pos == Some(p)
  }

  // One premium for each candle from m on.
  predicate PremiumsFrom(candles: seq<Candle>, m: int, premiums: seq<real>, p: Position, desk: Desk) {
    && 0 <= m && m + |premiums| <= |candles|
    && forall k :: 0 <= k < |premiums| ==> premiums[k] == desk.currentPremium(p, candles[m + k].close, candles[m + k].time)
  }

  lemma {:induction false} PremiumsOfTable(candles: seq<Candle>, from: nat, n: nat, states: int -> Option<State>, desk: Desk) returns (m: nat)
    requires from <= n < |candles| && states(from) == Some(START) && states(n).Some? && states(n).value.pos.Some?
    requires forall i :: from <= i < n ==> PremiumsMove(candles, i, states, desk)
    ensures from < m <= n && HeldSince(states, m, n, states(n).value.pos.value)
    ensures |states(n).value.premiums| == n - m && PremiumsFrom(candles, m, states(n).value.premiums, states(n).value.pos.value, desk)
  {
    assert from < n;
    assert PremiumsMove(candles, n - 1, states, desk);
    if states(n - 1).value.pos.None? {
      FlatHasNoPremiums(candles, from, n - 1, states, desk);
      m := n;
    } else {
      m := PremiumsOfTable(candles, from, n - 1, states, desk);
    }
  }

  // While a position is held the strategy is shown its premium at the close of each candle since
  // the one it was opened at, and of no other position.
  lemma PremiumsShownSinceOpening(candles: seq<Candle>, n: nat, sim: Sim) returns (m: nat)
    requires sim.from <= n < |candles| && Loop(candles, n, sim).Some? && Loop(candles, n, sim).value.pos.Some?
    ensures sim.from < m <= n && HeldSince(States(candles, sim), m, n, Loop(candles, n, sim).value.pos.value)
    ensures var prices := Shown(Loop(candles, n, sim).value, candles[..n + 1], sim.desk).prices;
            |prices| == n + 1 - m && PremiumsFrom(candles, m, prices, Loop(candles, n, sim).value.pos.value, sim.desk)
  {
    forall i | sim.from <= i < n
      ensures PremiumsMove(candles, i, States(candles, sim), sim.desk)
    {
      ReachedBefore(candles, i, n, sim);
      OnePremium(candles, i, Loop(candles, i, sim).value, Loop(candles, i + 1, sim).value, sim);
    }
    m := PremiumsOfTable(candles, sim.from, n, States(candles, sim), sim.desk);
    LastShown(candles, n, m, Loop(candles, n, sim).value, sim.desk);
  }

  lemma ReachedBefore(candles: seq<Candle>, i: nat, n: nat, sim: Sim)
    requires sim.from <= i < n < |candles| && Loop(candles, n, sim).Some?
    ensures Loop(candles, i, sim).Some? && Loop(candles, i + 1, sim).Some?
  {
    if Loop(candles, i + 1, sim).None? {
      LoopStaysFailed(candles, i + 1, n, sim);
    }
    EarlierLoop(candles, i + 1, sim);
  }

  lemma LastShown(candles: seq<Candle>, n: nat, m: nat, st: State, desk: Desk)
    requires m <= n < |candles| && st.pos.Some? && |st.premiums| == n - m && PremiumsFrom(candles, m, st.premiums, st.pos.value, desk)
    ensures var prices := Shown(st, candles[..n + 1], desk).prices;
            |prices| == n + 1 - m && PremiumsFrom(candles, m, prices, st.pos.value, desk)
  {
  }

  // Without slippage a position is worth at its own fill what it was entered at.
  lemma PremiumsAgreeAtTheFill(cfg: Config, signal: Signal, fill: Candle)
    requires cfg.slippagePct == 0.0 && cfg.tickSize == 0.0
    requires forall l :: l in OpenedBy(signal, fill, cfg).legs ==> 0.0 <= PriceNow(l, fill.open, fill.time, cfg)
    ensures var p := OpenedBy(signal, fill, cfg);
            Sum(p.legs, EntryPremiumOf()) == Sum(p.legs, PremiumAt(fill.open, fill.time, cfg))
  {
    var asked := if signal.legs != [] then signal.legs else [DirectionalLeg(signal.action)];
    assert OpenedBy(signal, fill, cfg).legs == OpenLegs(asked, fill, cfg);
    LegPremiumsAgree(cfg, asked, fill);
  }

  lemma {:induction false} LegPremiumsAgree(cfg: Config, asked: seq<OrderLeg>, fill: Candle)
    requires cfg.slippagePct == 0.0 && cfg.tickSize == 0.0
    requires forall l :: l in OpenLegs(asked, fill, cfg) ==> 0.0 <= PriceNow(l, fill.open, fill.time, cfg)
    ensures Sum(OpenLegs(asked, fill, cfg), EntryPremiumOf()) == Sum(OpenLegs(asked, fill, cfg), PremiumAt(fill.open, fill.time, cfg))
    decreases |asked|
  {
    if asked != [] {
      var n := |asked| - 1;
      assert OpenLegs(asked, fill, cfg)[..n] == OpenLegs(asked[..n], fill, cfg);
      LegPremiumsAgree(cfg, asked[..n], fill);
      PaidItsPrice(cfg, asked[n], fill);
      assert OpenLegs(asked, fill, cfg)[n] == OpenLeg(asked[n], fill, cfg);
    }
  }

  lemma PaidItsPrice(cfg: Config, asked: OrderLeg, fill: Candle)
    requires cfg.slippagePct == 0.0 && cfg.tickSize == 0.0
    ensures var l := OpenLeg(asked, fill, cfg);
            0.0 <= PriceNow(l, fill.open, fill.time, cfg) ==> l.entryPremium == PriceNow(l, fill.open, fill.time, cfg)
  {
  }

  // A strategy first acts at candle minHistory, and never at the first candle.
  lemma FirstActsAt(strat: Strategy, cfg: Config)
    ensures SimOf(strat, cfg).from == (if cfg.minHistory > 1 then cfg.minHistory else 1)
  {
  }

  // A position left at the end is closed at the last close.
  lemma ForcedCloseIsAtLastClose(candles: seq<Candle>, sim: Sim)
    requires Sound(sim.desk) && candles != [] && FinalState(candles, sim).Some?
    ensures var last, trades := candles[|candles| - 1], FinalState(candles, sim).value.trades;
            forall k :: 0 <= k < |trades| && trades[k].reason == EndOfData ==>
              k == |trades| - 1 && trades[k].closeTime == last.time && trades[k].exitSpot == last.close
  {
    var n := |candles| - 1;
    var st := Loop(candles, n, sim).value;
    LoopClosesBySignal(candles, n, sim);
    if st.pos.Some? {
      assert Completes(sim.desk.leave(st.pos.value, ClosingCandle(candles[n]), EndOfData), st.pos.value, ClosingCandle(candles[n]), EndOfData);
    }
  }

  // The candles a run accepts.
  lemma ValidCandleIs(c: Candle)
    ensures ValidCandle(c) <==> 0.0 < c.low <= c.high && 0.0 < c.open && 0.0 < c.close
  {
  }
}
