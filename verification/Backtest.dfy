/** The backtest engine: one position at a time, every fill at the next candle's open. */
module Backtest {
  import opened Common

  datatype Candle = Candle(time: int, open: real, high: real, low: real, close: real, volume: int)

  datatype Action = Hold | Buying | Selling | Exiting

  // A leg as a strategy asks for it; the expiry text is resolved by the market's calendar.
  datatype OrderLeg = OrderLeg(side: Side, strikeOffset: int, optionType: string, expiry: string, lots: int)

  datatype Signal = Signal(action: Action, legs: seq<OrderLeg>)

  // What a strategy is shown at a candle.
  datatype Context = Context(candles: seq<Candle>, now: int, hasPosition: bool, entryPremium: real,
                             positionAge: int, prices: seq<real>, volumes: seq<int>)

  // A deterministic strategy: each signal depends on everything shown so far.
  type Strategy = seq<Context> -> Signal

  // The simulated market: pricing (type, strike, expiry, instant, spot), the expiry calendar,
  // and the costs of one leg.
  datatype Market = Market(price: (string, real, int, int, real) -> real,
                           expiryOf: (string, int) -> int,
                           legCharge: (real, int, Side) -> real,
                           spreadCost: (real, int) -> real)

  datatype Config = Config(minHistory: int, lotSize: int, strikeStep: real, slippagePct: real, tickSize: real, market: Market)

  datatype Leg = Leg(side: Side, optionType: string, strike: real, expiry: int, entryPremium: real,
                     quantity: int, entryCharge: real, entrySpread: real)

  datatype Kind = Directional(side: Action) | MultiLeg

  datatype Position = Position(kind: Kind, legs: seq<Leg>, openedAt: int, entrySpot: real)

  datatype Reason = ExitSignal | OppositeSignal | EndOfData

  datatype Trade = Trade(kind: Kind, openTime: int, closeTime: int, legs: nat, entrySpot: real, exitSpot: real,
                         gross: real, charges: real, net: real, reason: Reason)

  datatype Outcome =
    | BadCandle(index: nat)
    | TooFewCandles
    | OutlivedExpiry
    | Finished(trades: seq<Trade>, maxDrawdown: real)

  // ---- Pricing one leg ----

  function RoundHalfAway(x: real): int {
    if x >= 0.0 then (x + 0.5).Floor else -((0.5 - x).Floor)
  }

  function RoundStrike(spot: real, step: real, offset: real): real {
    var s := if step <= 0.0 then 1.0 else step;
    RoundHalfAway(spot / s) as real * s + offset
  }

  // Less its offset, the strike is a whole number of steps (of one point when no step is
  // given), and within half a step of the spot.
  lemma StrikeIsNearest(spot: real, step: real, offset: real)
    ensures var s, strike := if step <= 0.0 then 1.0 else step, RoundStrike(spot, step, offset);
            && (exists n: int :: strike == WholeSteps(n, s) + offset)
            && -s / 2.0 <= strike - offset - spot <= s / 2.0
  {
    var s, strike := if step <= 0.0 then 1.0 else step, RoundStrike(spot, step, offset);
    var n := RoundHalfAway(spot / s);
    StepsAreNear(spot, s, n);
    assert strike == WholeSteps(n, s) + offset;
  }

  lemma StepsAreNear(spot: real, s: real, n: int)
    requires 0.0 < s && n == RoundHalfAway(spot / s)
    ensures -s / 2.0 <= WholeSteps(n, s) - spot <= s / 2.0
  {
    assert -0.5 <= n as real - spot / s <= 0.5;
    Quotient(spot, s);
    Near(n, spot / s, s, spot);
  }

  lemma Quotient(x: real, s: real)
    requires 0.0 < s
    ensures x / s * s == x
  {
  }

  function WholeSteps(n: int, step: real): real {
    n as real * step
  }

  lemma Near(n: int, x: real, s: real, spot: real)
    requires -0.5 <= n as real - x <= 0.5 && 0.0 < s && x * s == spot
    ensures -s / 2.0 <= WholeSteps(n, s) - spot <= s / 2.0
  {
    var d := n as real - x;
    ProductNonNegative(0.5 - d, s);
    ProductNonNegative(d + 0.5, s);
    Distributed(n as real, x, s);
  }

  lemma Distributed(n: real, x: real, s: real)
    ensures (0.5 - (n - x)) * s == s / 2.0 - (n * s - x * s)
    ensures (n - x + 0.5) * s == n * s - x * s + s / 2.0
  {
  }

  // The larger of the percentage and one tick.
  function FillSlippage(theo: real, cfg: Config): real {
    if theo * cfg.slippagePct < cfg.tickSize then cfg.tickSize else theo * cfg.slippagePct
  }

  // What an execution pays or receives: slippage is always against it, and no premium is
  // negative.
  function FillPremium(theo: real, side: Side, cfg: Config): real {
    var slip := FillSlippage(theo, cfg);
    if side == Buy then theo + slip
    else if theo - slip < 0.0 then 0.0
    else theo - slip
  }

  function OpenLeg(leg: OrderLeg, fill: Candle, cfg: Config): Leg {
    var quantity := (if leg.lots <= 0 then 1 else leg.lots) * cfg.lotSize;
    var strike := RoundStrike(fill.open, cfg.strikeStep, leg.strikeOffset as real);
    var expiry := cfg.market.expiryOf(leg.expiry, fill.time);
    var theo := cfg.market.price(leg.optionType, strike, expiry, fill.time, fill.open);
    var premium := FillPremium(theo, leg.side, cfg);
    Leg(leg.side, leg.optionType, strike, expiry, premium, quantity,
        cfg.market.legCharge(premium, quantity, leg.side), cfg.market.spreadCost(theo, quantity))
  }

  function PriceNow(l: Leg, spot: real, now: int, cfg: Config): real {
    cfg.market.price(l.optionType, l.strike, l.expiry, now, spot)
  }

  function ExitPremium(l: Leg, fill: Candle, cfg: Config): real {
    FillPremium(PriceNow(l, fill.open, fill.time, cfg), l.side.Opposite(), cfg)
  }

  // Profit of a leg from its entry premium to another.
  function LegPnL(l: Leg, premium: real): real {
    if l.side == Buy then (premium - l.entryPremium) * l.quantity as real
    else (l.entryPremium - premium) * l.quantity as real
  }

  function LegCosts(l: Leg, fill: Candle, cfg: Config): real {
    l.entryCharge + l.entrySpread
    + cfg.market.legCharge(ExitPremium(l, fill, cfg), l.quantity, l.side.Opposite())
    + cfg.market.spreadCost(PriceNow(l, fill.open, fill.time, cfg), l.quantity)
  }

  // ---- Sums over legs ----

  function Sum(legs: seq<Leg>, figure: Leg -> real): real {
    if legs == [] then 0.0 else Sum(legs[..|legs| - 1], figure) + figure(legs[|legs| - 1])
  }

  function EntryPremiumOf(): Leg -> real { (l: Leg) => l.entryPremium }
  function PnLAt(spot: real, now: int, cfg: Config): Leg -> real { (l: Leg) => LegPnL(l, PriceNow(l, spot, now, cfg)) }
  function PremiumAt(spot: real, now: int, cfg: Config): Leg -> real { (l: Leg) => PriceNow(l, spot, now, cfg) }
  function ExitPnL(fill: Candle, cfg: Config): Leg -> real { (l: Leg) => LegPnL(l, ExitPremium(l, fill, cfg)) }
  function CostsAt(fill: Candle, cfg: Config): Leg -> real { (l: Leg) => LegCosts(l, fill, cfg) }

  lemma SumSnoc(legs: seq<Leg>, n: nat, figure: Leg -> real)
    requires n < |legs|
    ensures Sum(legs[..n + 1], figure) == Sum(legs[..n], figure) + figure(legs[n])
  {
    assert legs[..n + 1][..n] == legs[..n];
  }

  // ---- Positions ----

  function OpenLegs(legs: seq<OrderLeg>, fill: Candle, cfg: Config): (ls: seq<Leg>)
    ensures |ls| == |legs|
  {
    seq(|legs|, i requires 0 <= i < |legs| => OpenLeg(legs[i], fill, cfg))
  }

  function OpenedMultiLeg(legs: seq<OrderLeg>, fill: Candle, cfg: Config): Position {
    Position(MultiLeg, OpenLegs(legs, fill, cfg), fill.time, fill.open)
  }

  // A buy signal goes long an at-the-money call, a sell signal a put.
  function DirectionalLeg(action: Action): OrderLeg {
    OrderLeg(Buy, 0, if action == Selling then "PE" else "CE", "", 0)
  }

  function OpenedDirectional(action: Action, fill: Candle, cfg: Config): Position {
    OpenedMultiLeg([DirectionalLeg(action)], fill, cfg).(kind := Directional(action))
  }

  function Closed(pos: Position, fill: Candle, cfg: Config, reason: Reason): Trade {
    var gross, charges := Sum(pos.legs, ExitPnL(fill, cfg)), Sum(pos.legs, CostsAt(fill, cfg));
    Trade(pos.kind, pos.openedAt, fill.time, |pos.legs|, pos.entrySpot, fill.open, gross, charges, gross - charges, reason)
  }

  function Unrealized(pos: Option<Position>, spot: real, now: int, cfg: Config): real {
    if pos.None? then 0.0 else Sum(pos.value.legs, PnLAt(spot, now, cfg))
  }

  // What a directional or multi-leg signal opens.
  function OpenedBy(signal: Signal, fill: Candle, cfg: Config): Position {
    if signal.legs != [] then OpenedMultiLeg(signal.legs, fill, cfg) else OpenedDirectional(signal.action, fill, cfg)
  }

  // ---- The run, as a fold over the candles, for any way of pricing positions ----

  // How positions are opened on a signal, closed, marked, and their premiums summed.
  datatype Desk = Desk(enter: (Signal, Candle) -> Position,
                       leave: (Position, Candle, Reason) -> Trade,
                       unrealized: (Position, real, int) -> real,
                       entryPremium: Position -> real,
                       currentPremium: (Position, real, int) -> real,
                       expired: (Position, int) -> bool)

  function DeskOf(cfg: Config): Desk {
    Desk((signal: Signal, fill: Candle) => OpenedBy(signal, fill, cfg),
         (pos: Position, fill: Candle, reason: Reason) => Closed(pos, fill, cfg, reason),
         (pos: Position, spot: real, now: int) => Sum(pos.legs, PnLAt(spot, now, cfg)),
         (pos: Position) => Sum(pos.legs, EntryPremiumOf()),
         (pos: Position, spot: real, now: int) => Sum(pos.legs, PremiumAt(spot, now, cfg)),
         (pos: Position, now: int) => exists i :: 0 <= i < |pos.legs| && now >= pos.legs[i].expiry)
  }

  // What every desk owes the run: positions and trades dated and priced by their candles, net
  // profit after charges.
  ghost predicate Sound(desk: Desk) {
    && (forall s, c :: Dated(desk.enter(s, c), s, c))
    && (forall p, c, r :: Completes(desk.leave(p, c, r), p, c, r))
  }

  predicate Dated(p: Position, s: Signal, c: Candle) {
    && p.openedAt == c.time && p.entrySpot == c.open
    && p.kind == if s.legs != [] then MultiLeg else Directional(s.action)
  }

  predicate Completes(t: Trade, p: Position, c: Candle, r: Reason) {
    && t.kind == p.kind && t.reason == r
    && t.openTime == p.openedAt && t.closeTime == c.time && t.entrySpot == p.entrySpot && t.exitSpot == c.open
    && t.net == t.gross - t.charges
  }

  lemma DeskIsSound(cfg: Config)
    ensures Sound(DeskOf(cfg))
  {
  }

  // A simulation: the strategy, the first candle it is asked at, and the desk.
  datatype Sim = Sim(strat: Strategy, from: nat, desk: Desk)

  function SimOf(strat: Strategy, cfg: Config): Sim {
    Sim(strat, FirstIndex(cfg), DeskOf(cfg))
  }

  // The samples of the equity curve and the contexts shown are kept for the record.
  datatype State = State(pos: Option<Position>, trades: seq<Trade>, realized: real,
                         peak: real, maxDrawdown: real, samples: seq<real>,
                         premiums: seq<real>, seen: seq<Context>)

  const START := State(None, [], 0.0, 0.0, 0.0, [], [], [])

  function Closes(cs: seq<Candle>): (closes: seq<real>)
    ensures |closes| == |cs|
  {
    seq(|cs|, i requires 0 <= i < |cs| => cs[i].close)
  }

  function Volumes(cs: seq<Candle>): (volumes: seq<int>)
    ensures |volumes| == |cs|
  {
    seq(|cs|, i requires 0 <= i < |cs| => cs[i].volume)
  }

  // A new sample of the equity curve.
  function Sampled(st: State, equity: real): State {
    var peak := if equity > st.peak then equity else st.peak;
    st.(peak := peak, maxDrawdown := if peak - equity > st.maxDrawdown then peak - equity else st.maxDrawdown,
        samples := st.samples + [equity])
  }

  function Equity(st: State, c: Candle, desk: Desk): real {
    st.realized + if st.pos.None? then 0.0 else desk.unrealized(st.pos.value, c.close, c.time)
  }

  predicate Outlived(pos: Option<Position>, now: int, desk: Desk) {
    pos.Some? && desk.expired(pos.value, now)
  }

  // What the strategy is shown: the candles up to this one and no further.
  function Shown(st: State, history: seq<Candle>, desk: Desk): Context
    requires history != []
  {
    var c := history[|history| - 1];
    match st.pos
    case None => Context(history, c.time, false, 0.0, 0, Closes(history), Volumes(history))
    case Some(p) =>
      Context(history, c.time, true, desk.entryPremium(p), c.time - p.openedAt,
              st.premiums + [desk.currentPremium(p, c.close, c.time)], [])
  }

  function Book(st: State, t: Trade): State {
    st.(pos := None, trades := st.trades + [t], realized := st.realized + t.net, premiums := [])
  }

  function Act(st: State, signal: Signal, fill: Candle, desk: Desk): State {
    if signal.legs != [] then
      if st.pos.None? then st.(pos := Some(desk.enter(signal, fill))) else st
    else
      match signal.action
      case Hold => st
      case Exiting =>
        if st.pos.None? then st else Book(st, desk.leave(st.pos.value, fill, ExitSignal))
      case _ =>
        if st.pos.None? then st.(pos := Some(desk.enter(signal, fill)))
        else if st.pos.value.kind.Directional? && st.pos.value.kind.side != signal.action then
          Book(st, desk.leave(st.pos.value, fill, OppositeSignal))
        else st
  }

  // The state in which the strategy is asked, sampled and shown its context.
  function Asked(st: State, history: seq<Candle>, desk: Desk): State
    requires history != []
  {
    var c := history[|history| - 1];
    var sampled := Sampled(st, Equity(st, c, desk));
    var ctx := Shown(st, history, desk);
    sampled.(premiums := if st.pos.Some? then ctx.prices else st.premiums, seen := st.seen + [ctx])
  }

  // One pass of the loop; None when a leg has reached its expiry.
  function Iterate(st: State, history: seq<Candle>, fill: Candle, sim: Sim): Option<State>
    requires history != []
  {
    if Outlived(st.pos, history[|history| - 1].time, sim.desk) then None
    else
      var asked := Asked(st, history, sim.desk);
      Some(Act(asked, sim.strat(asked.seen), fill, sim.desk))
  }

  function FirstIndex(cfg: Config): nat {
    if cfg.minHistory < 1 then 1 else cfg.minHistory
  }

  // The state before candle n is evaluated.
  function Loop(candles: seq<Candle>, n: nat, sim: Sim): Option<State>
    requires n < |candles|
    decreases n
  {
    if n <= sim.from then Some(START)
    else
      match Loop(candles, n - 1, sim)
      case None => None
      case Some(st) => Iterate(st, candles[..n], candles[n], sim)
  }

  predicate ValidCandle(c: Candle) {
    c.open > 0.0 && c.high > 0.0 && c.low > 0.0 && c.close > 0.0 && c.high >= c.low
  }

  predicate ValidCandles(cs: seq<Candle>) {
    forall i :: 0 <= i < |cs| ==> ValidCandle(cs[i])
  }

  // A candle at which everything left is closed: the last close, as if it were an open.
  function ClosingCandle(last: Candle): Candle {
    last.(open := last.close, high := 0.0, low := 0.0, volume := 0)
  }

  function ForceClosed(st: State, last: Candle, desk: Desk): State {
    if st.pos.None? then st
    else
      var booked := Book(st, desk.leave(st.pos.value, ClosingCandle(last), EndOfData));
      Sampled(booked, booked.realized)
  }

  function FinalState(candles: seq<Candle>, sim: Sim): Option<State>
    requires candles != []
  {
    match Loop(candles, |candles| - 1, sim)
    case None => None
    case Some(st) => Some(ForceClosed(st, candles[|candles| - 1], sim.desk))
  }

  // ---- The engine ----

  method ValidateCandles(candles: seq<Candle>) returns (bad: Option<nat>)
    ensures bad.None? <==> ValidCandles(candles)
    ensures bad.Some? ==> bad.value < |candles| && !ValidCandle(candles[bad.value]) && ValidCandles(candles[..bad.value])
  {
    var i := 0;
    while i < |candles|
      invariant 0 <= i <= |candles| && ValidCandles(candles[..i])
    {
      var c := candles[i];
      if c.open <= 0.0 || c.high <= 0.0 || c.low <= 0.0 || c.close <= 0.0 {
        return Some(i);
      }
      if c.high < c.low {
        return Some(i);
      }
      assert candles[..i + 1] == candles[..i] + [c];
      i := i + 1;
    }
    assert candles[..i] == candles;
    return None;
  }

  method OpenMultiLeg(legs: seq<OrderLeg>, fill: Candle, cfg: Config) returns (pos: Position)
    ensures pos == OpenedMultiLeg(legs, fill, cfg)
  {
    var ls: seq<Leg> := [];
    var i := 0;
    while i < |legs|
      invariant 0 <= i <= |legs|
      invariant ls == OpenLegs(legs, fill, cfg)[..i]
    {
      var leg := legs[i];
      var lots := leg.lots;
      if lots <= 0 {
        lots := 1;
      }
      var quantity := lots * cfg.lotSize;
      var strike := RoundStrike(fill.open, cfg.strikeStep, leg.strikeOffset as real);
      var expiry := cfg.market.expiryOf(leg.expiry, fill.time);
      var theo := cfg.market.price(leg.optionType, strike, expiry, fill.time, fill.open);
      var premium := Fill(theo, leg.side, cfg);
      ls := ls + [Leg(leg.side, leg.optionType, strike, expiry, premium, quantity,
                              cfg.market.legCharge(premium, quantity, leg.side), cfg.market.spreadCost(theo, quantity))];
      i := i + 1;
    }
    pos := Position(MultiLeg, ls, fill.time, fill.open);
  }

  method Fill(theo: real, side: Side, cfg: Config) returns (premium: real)
    ensures premium == FillPremium(theo, side, cfg)
  {
    var slip := FillSlippage(theo, cfg);
    if side == Buy {
      premium := theo + slip;
    } else {
      premium := theo - slip;
      if premium < 0.0 {
        premium := 0.0;
      }
    }
  }

  method OpenDirectional(action: Action, fill: Candle, cfg: Config) returns (pos: Position)
    ensures pos == OpenedDirectional(action, fill, cfg)
  {
    var optionType := "CE";
    if action == Selling {
      optionType := "PE";
    }
    pos := OpenMultiLeg([OrderLeg(Buy, 0, optionType, "", 0)], fill, cfg);
    pos := pos.(kind := Directional(action));
  }

  method ClosePosition(pos: Position, fill: Candle, cfg: Config, reason: Reason) returns (t: Trade)
    ensures t == Closed(pos, fill, cfg, reason)
  {
    var gross, charges := 0.0, 0.0;
    var i := 0;
    while i < |pos.legs|
      invariant 0 <= i <= |pos.legs|
      invariant gross == Sum(pos.legs[..i], ExitPnL(fill, cfg))
      invariant charges == Sum(pos.legs[..i], CostsAt(fill, cfg))
    {
      var l := pos.legs[i];
      var theo := cfg.market.price(l.optionType, l.strike, l.expiry, fill.time, fill.open);
      var exit := Fill(theo, l.side.Opposite(), cfg);
      SumSnoc(pos.legs, i, ExitPnL(fill, cfg));
      SumSnoc(pos.legs, i, CostsAt(fill, cfg));
      gross := gross + LegPnL(l, exit);
      charges := charges + (l.entryCharge + l.entrySpread
                            + cfg.market.legCharge(exit, l.quantity, l.side.Opposite()) + cfg.market.spreadCost(theo, l.quantity));
      i := i + 1;
    }
    assert pos.legs[..i] == pos.legs;
    t := Trade(pos.kind, pos.openedAt, fill.time, |pos.legs|, pos.entrySpot, fill.open, gross, charges, gross - charges, reason);
  }

  // The loops of the three leg sums: entry premium, current premium, unrealized profit.
  method SumLegs(legs: seq<Leg>, figure: Leg -> real) returns (sum: real)
    ensures sum == Sum(legs, figure)
  {
    sum := 0.0;
    var i := 0;
    while i < |legs|
      invariant 0 <= i <= |legs| && sum == Sum(legs[..i], figure)
    {
      SumSnoc(legs, i, figure);
      sum := sum + figure(legs[i]);
      i := i + 1;
    }
    assert legs[..i] == legs;
  }

  method MarkToMarket(pos: Option<Position>, spot: real, now: int, cfg: Config) returns (unrealized: real)
    ensures unrealized == Unrealized(pos, spot, now, cfg)
  {
    if pos.None? {
      return 0.0;
    }
    unrealized := SumLegs(pos.value.legs, PnLAt(spot, now, cfg));
  }

  method CheckExpiry(pos: Option<Position>, now: int, ghost cfg: Config) returns (outlived: bool)
    ensures outlived == Outlived(pos, now, DeskOf(cfg))
  {
    if pos.None? {
      return false;
    }
    var i := 0;
    while i < |pos.value.legs|
      invariant 0 <= i <= |pos.value.legs|
      invariant forall j :: 0 <= j < i ==> now < pos.value.legs[j].expiry
    {
      if now >= pos.value.legs[i].expiry {
        return true;
      }
      i := i + 1;
    }
    return false;
  }

  method Show(st: State, history: seq<Candle>, cfg: Config) returns (ctx: Context)
    requires history != []
    ensures ctx == Shown(st, history, DeskOf(cfg))
  {
    var c := history[|history| - 1];
    ctx := Context(history, c.time, false, 0.0, 0, [], []);
    if st.pos.Some? {
      var p := st.pos.value;
      var entry := SumLegs(p.legs, EntryPremiumOf());
      var current := SumLegs(p.legs, PremiumAt(c.close, c.time, cfg));
      ctx := ctx.(hasPosition := true, entryPremium := entry, positionAge := c.time - p.openedAt, prices := st.premiums + [current]);
    } else {
      ctx := ctx.(prices := Closes(history), volumes := Volumes(history));
    }
  }

  method Ask(st: State, history: seq<Candle>, cfg: Config) returns (asked: State)
    requires history != []
    ensures asked == Asked(st, history, DeskOf(cfg))
  {
    var c := history[|history| - 1];
    var unrealized := MarkToMarket(st.pos, c.close, c.time, cfg);
    asked := Sampled(st, st.realized + unrealized);
    var ctx := Show(st, history, cfg);
    if st.pos.Some? {
      asked := asked.(premiums := ctx.prices);
    }
    asked := asked.(seen := asked.seen + [ctx]);
  }

  method Obey(st: State, signal: Signal, fill: Candle, cfg: Config) returns (after: State)
    ensures after == Act(st, signal, fill, DeskOf(cfg))
  {
    after := st;
    if |signal.legs| > 0 {
      if st.pos.None? {
        var entered := OpenMultiLeg(signal.legs, fill, cfg);
        after := after.(pos := Some(entered));
      }
    } else if signal.action == Exiting {
      if st.pos.Some? {
        var t := ClosePosition(st.pos.value, fill, cfg, ExitSignal);
        after := Book(after, t);
      }
    } else if signal.action == Buying || signal.action == Selling {
      if st.pos.None? {
        var entered := OpenDirectional(signal.action, fill, cfg);
        after := after.(pos := Some(entered));
      } else if st.pos.value.kind.Directional? && st.pos.value.kind.side != signal.action {
        var t := ClosePosition(st.pos.value, fill, cfg, OppositeSignal);
        after := Book(after, t);
      }
    }
  }

  method Run(candles: seq<Candle>, strat: Strategy, cfg: Config) returns (out: Outcome)
    ensures out.BadCandle? <==> !ValidCandles(candles)
    ensures out.TooFewCandles? <==> ValidCandles(candles) && |candles| <= FirstIndex(cfg) + 1
    ensures ValidCandles(candles) && |candles| > FirstIndex(cfg) + 1 ==>
              var final := FinalState(candles, SimOf(strat, cfg));
              out == if final.None? then OutlivedExpiry else Finished(final.value.trades, final.value.maxDrawdown)
  {
    var bad := ValidateCandles(candles);
    if bad.Some? {
      return BadCandle(bad.value);
    }
    if |candles| <= FirstIndex(cfg) + 1 {
      return TooFewCandles;
    }
    var ended := Simulate(candles, strat, cfg);
    if ended.None? {
      return OutlivedExpiry;
    }
    var st := ended.value;
    if st.pos.Some? {
      var t := ClosePosition(st.pos.value, ClosingCandle(candles[|candles| - 1]), cfg, EndOfData);
      st := Book(st, t);
      st := Sampled(st, st.realized);
    }
    return Finished(st.trades, st.maxDrawdown);
  }

  // The loop has got to candle n in this state.
  predicate Reached(candles: seq<Candle>, n: nat, st: State, sim: Sim) {
    n < |candles| && Loop(candles, n, sim) == Some(st)
  }

  // The loop cannot get past every candle.
  predicate Fails(candles: seq<Candle>, sim: Sim) {
    candles != [] && Loop(candles, |candles| - 1, sim).None?
  }

  // The loop over all candles but the last; None when a position outlived its expiry.
  method Simulate(candles: seq<Candle>, strat: Strategy, cfg: Config) returns (ended: Option<State>)
    requires |candles| > FirstIndex(cfg) + 1
    ensures ended.None? ==> Fails(candles, SimOf(strat, cfg))
    ensures ended.Some? ==> Reached(candles, |candles| - 1, ended.value, SimOf(strat, cfg))
  {
    ghost var sim := SimOf(strat, cfg);
    ended := Some(START);
    var i := FirstIndex(cfg);
    StartReached(candles, sim);
    while i < |candles| - 1
      invariant FirstIndex(cfg) <= i <= |candles| - 1
      invariant ended.Some? && Reached(candles, i, ended.value, sim)
    {
      ended := Advance(candles, i, ended.value, strat, cfg, sim);
      if ended.None? {
        return;
      }
      i := i + 1;
    }
  }

  method Pass(st: State, history: seq<Candle>, fill: Candle, strat: Strategy, cfg: Config) returns (next: Option<State>)
    requires history != []
    ensures next == Iterate(st, history, fill, SimOf(strat, cfg))
  {
    var outlived := CheckExpiry(st.pos, history[|history| - 1].time, cfg);
    if outlived {
      return None;
    }
    var asked := Ask(st, history, cfg);
    var after := Obey(asked, strat(asked.seen), fill, cfg);
    return Some(after);
  }

  method Advance(candles: seq<Candle>, i: nat, st: State, strat: Strategy, cfg: Config, ghost sim: Sim) returns (next: Option<State>)
    requires sim == SimOf(strat, cfg) && sim.from <= i && i + 1 < |candles| && Reached(candles, i, st, sim)
    ensures next.None? ==> Fails(candles, sim)
    ensures next.Some? ==> Reached(candles, i + 1, next.value, sim)
  {
    next := Pass(st, candles[..i + 1], candles[i + 1], strat, cfg);
    LoopNext(candles, i, st, next, sim);
  }

  lemma StartReached(candles: seq<Candle>, sim: Sim)
    requires sim.from < |candles|
    ensures Reached(candles, sim.from, START, sim)
  {
  }

  lemma LoopNext(candles: seq<Candle>, n: nat, st: State, next: Option<State>, sim: Sim)
    requires sim.from <= n && n + 1 < |candles| && Loop(candles, n, sim) == Some(st)
    requires next == Iterate(st, candles[..n + 1], candles[n + 1], sim)
    ensures next.Some? ==> Reached(candles, n + 1, next.value, sim)
    ensures next.None? ==> Fails(candles, sim)
  {
    LoopUnrolls(candles, n, st, sim);
    if next.None? {
      LoopStaysFailed(candles, n + 1, |candles| - 1, sim);
    }
  }

  lemma LoopUnrolls(candles: seq<Candle>, n: nat, st: State, sim: Sim)
    requires sim.from <= n && n + 1 < |candles| && Loop(candles, n, sim) == Some(st)
    ensures Loop(candles, n + 1, sim) == Iterate(st, candles[..n + 1], candles[n + 1], sim)
  {
  }

  lemma {:induction false} LoopStaysFailed(candles: seq<Candle>, n: nat, m: nat, sim: Sim)
    requires sim.from < n <= m < |candles| && Loop(candles, n, sim).None?
    ensures Loop(candles, m, sim).None?
    decreases m
  {
    if n < m {
      LoopStaysFailed(candles, n, m - 1, sim);
    }
  }
}
