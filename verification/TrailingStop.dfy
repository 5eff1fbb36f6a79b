/** The trailing stop as a ratchet over any price path, and when a stop test hits. */
module TrailingStop {
  import opened Common
  import opened Charges
  import opened RiskModel

  function TrailAll(stop: StopLossConfig, p: Position, prices: seq<real>): Position {
    if prices == [] then p
    else Trail(stop, TrailAll(stop, p, prices[..|prices| - 1]), prices[|prices| - 1])
  }

  // Strictly more favourable: higher for a long, lower for a short.
  predicate Better(side: Side, a: real, b: real) {
    if side.Buy? then a > b else a < b
  }

  // A stop that protects at least as much: higher for a long, lower for a short.
  predicate AtLeastAsTight(side: Side, a: real, b: real) {
    if side.Buy? then a >= b else a <= b
  }

  // The trailing level set when the price makes a new extreme.
  function StopAt(stop: StopLossConfig, side: Side): real -> real {
    if side.Buy? then (price: real) => price * (1.0 - stop.trailingDistance / 100.0)
    else (price: real) => price * (1.0 + stop.trailingDistance / 100.0)
  }

  // ---- The ratchet, for any rule that sets a level at a new extreme ----

  datatype Ratchet = Ratchet(peak: real, level: real)

  function Advance(side: Side, rule: real -> real, r: Ratchet, price: real): Ratchet {
    if Better(side, price, r.peak) then
      Ratchet(price, if Better(side, rule(price), r.level) then rule(price) else r.level)
    else r
  }

  function AdvanceAll(side: Side, rule: real -> real, r: Ratchet, prices: seq<real>): Ratchet {
    if prices == [] then r
    else Advance(side, rule, AdvanceAll(side, rule, r, prices[..|prices| - 1]), prices[|prices| - 1])
  }

  // price i is a new favourable extreme for a position entered at entry.
  ghost predicate Record(side: Side, entry: real, prices: seq<real>, i: int)
    requires 0 <= i < |prices|
  {
    && Better(side, prices[i], entry)
    && forall j :: 0 <= j < i ==> Better(side, prices[i], prices[j])
  }

  // After any prices the peak is the most favourable of the entry and all prices, and the
  // level is the tightest of the first level and those the rule sets at the records: it is
  // one of them, and none of them is tighter.
  ghost predicate Ratcheted(side: Side, rule: real -> real, r: Ratchet, prices: seq<real>, q: Ratchet) {
    && (q.peak == r.peak || q.peak in prices)
    && !Better(side, r.peak, q.peak)
    && (forall i :: 0 <= i < |prices| ==> !Better(side, prices[i], q.peak))
    && AtLeastAsTight(side, q.level, r.level)
    && (forall i :: 0 <= i < |prices| && Record(side, r.peak, prices, i)
          ==> AtLeastAsTight(side, q.level, rule(prices[i])))
    && (q.level == r.level
        || exists i :: 0 <= i < |prices| && Record(side, r.peak, prices, i) && q.level == rule(prices[i]))
  }

  lemma RecordExtends(side: Side, entry: real, prices: seq<real>, i: int)
    requires 0 <= i < |prices| - 1
    ensures Record(side, entry, prices, i) <==> Record(side, entry, prices[..|prices| - 1], i)
  {
    var shorter := prices[..|prices| - 1];
    assert shorter[i] == prices[i];
    assert forall j :: 0 <= j < i ==> shorter[j] == prices[j];
  }

  lemma RatchetStep(side: Side, rule: real -> real, r: Ratchet, shorter: seq<real>, price: real, before: Ratchet)
    requires Ratcheted(side, rule, r, shorter, before)
    ensures Ratcheted(side, rule, r, shorter + [price], Advance(side, rule, before, price))
  {
    var prices, n, after := shorter + [price], |shorter|, Advance(side, rule, before, price);
    assert prices[..n] == shorter;
    assert forall i :: 0 <= i < n ==> shorter[i] == prices[i];
    assert Record(side, r.peak, prices, n) <==> Better(side, price, before.peak);
    forall i | 0 <= i < n && Record(side, r.peak, prices, i)
      ensures AtLeastAsTight(side, after.level, rule(prices[i]))
    {
      RecordExtends(side, r.peak, prices, i);
      assert AtLeastAsTight(side, before.level, rule(shorter[i]));
    }
    if after.level == before.level && after.level != r.level {
      var i :| 0 <= i < |shorter| && Record(side, r.peak, shorter, i) && before.level == rule(shorter[i]);
      RecordExtends(side, r.peak, prices, i);
    }
  }

  lemma {:induction false} AdvanceRatchets(side: Side, rule: real -> real, r: Ratchet, prices: seq<real>)
    ensures Ratcheted(side, rule, r, prices, AdvanceAll(side, rule, r, prices))
    decreases |prices|
  {
    if prices != [] {
      var shorter, price := prices[..|prices| - 1], prices[|prices| - 1];
      AdvanceRatchets(side, rule, r, shorter);
      RatchetStep(side, rule, r, shorter, price, AdvanceAll(side, rule, r, shorter));
      assert prices == shorter + [price];
    }
  }

  // ---- The position's trailing stop is such a ratchet ----

  lemma {:induction false} TrailAdvances(stop: StopLossConfig, p: Position, prices: seq<real>)
    ensures var r := AdvanceAll(p.side, StopAt(stop, p.side), Ratchet(p.peakPrice, p.stopLossPrice), prices);
            TrailAll(stop, p, prices) == p.(peakPrice := r.peak, stopLossPrice := r.level)
    decreases |prices|
  {
    if prices != [] {
      TrailAdvances(stop, p, prices[..|prices| - 1]);
    }
  }

  // Over any price path the stop of a held position is the tightest level any record price
  // of the path has set, or the first one; nothing but peak and stop changes.
  lemma TrailingStopIsRatchet(stop: StopLossConfig, p: Position, prices: seq<real>)
    ensures var q := TrailAll(stop, p, prices);
            && q == p.(peakPrice := q.peakPrice, stopLossPrice := q.stopLossPrice)
            && Ratcheted(p.side, StopAt(stop, p.side), Ratchet(p.peakPrice, p.stopLossPrice), prices,
                         Ratchet(q.peakPrice, q.stopLossPrice))
  {
    TrailAdvances(stop, p, prices);
    AdvanceRatchets(p.side, StopAt(stop, p.side), Ratchet(p.peakPrice, p.stopLossPrice), prices);
  }

  lemma {:induction false} LevelNeverLoosens(side: Side, rule: real -> real, r: Ratchet, prices: seq<real>, more: seq<real>)
    ensures AtLeastAsTight(side, AdvanceAll(side, rule, r, prices + more).level, AdvanceAll(side, rule, r, prices).level)
    decreases |more|
  {
    if more == [] {
      assert prices + more == prices;
    } else {
      assert (prices + more)[..|prices + more| - 1] == prices + more[..|more| - 1];
      LevelNeverLoosens(side, rule, r, prices, more[..|more| - 1]);
    }
  }

  // Whatever prices follow, a price that would have hit the stop still hits it.
  lemma StopNeverLoosens(stop: StopLossConfig, p: Position, prices: seq<real>, more: seq<real>, x: real)
    ensures StopHit(TrailAll(stop, p, prices), x) ==> StopHit(TrailAll(stop, p, prices + more), x)
  {
    TrailAdvances(stop, p, prices);
    TrailAdvances(stop, p, prices + more);
    LevelNeverLoosens(p.side, StopAt(stop, p.side), Ratchet(p.peakPrice, p.stopLossPrice), prices, more);
  }

  // The tighter of the first level and the rule's level at the peak, once the peak has moved.
  function LevelAtPeak(side: Side, rule: real -> real, r: Ratchet, peak: real): real {
    if Better(side, peak, r.peak) && Better(side, rule(peak), r.level) then rule(peak) else r.level
  }

  lemma {:induction false} MonotoneRuleFollowsPeak(side: Side, rule: real -> real, r: Ratchet, prices: seq<real>)
    requires forall a, b :: Better(side, a, b) ==> AtLeastAsTight(side, rule(a), rule(b))
    ensures var q := AdvanceAll(side, rule, r, prices);
            !Better(side, r.peak, q.peak) && q.level == LevelAtPeak(side, rule, r, q.peak)
    decreases |prices|
  {
    if prices != [] {
      var n := |prices| - 1;
      MonotoneRuleFollowsPeak(side, rule, r, prices[..n]);
      var before := AdvanceAll(side, rule, r, prices[..n]);
      if Better(side, prices[n], before.peak) {
        assert AtLeastAsTight(side, rule(prices[n]), rule(before.peak));
      }
    }
  }

  lemma ScaleMonotone(a: real, b: real, d: real)
    requires 0.0 <= d <= 1.0 && a <= b
    ensures a * (1.0 - d) <= b * (1.0 - d)
    ensures a * (1.0 + d) <= b * (1.0 + d)
  {
    ProductNonNegative(b - a, 1.0 - d);
    ProductNonNegative(b - a, 1.0 + d);
  }

  // With a trailing distance between 0 and 100 percent the stop follows the peak: it is the
  // first stop or the trailing level at the most favourable price seen, whichever is tighter.
  lemma StopFollowsPeak(stop: StopLossConfig, p: Position, prices: seq<real>)
    requires 0.0 <= stop.trailingDistance <= 100.0
    ensures var q := TrailAll(stop, p, prices);
            q.stopLossPrice == LevelAtPeak(p.side, StopAt(stop, p.side), Ratchet(p.peakPrice, p.stopLossPrice), q.peakPrice)
  {
    var rule := StopAt(stop, p.side);
    forall a, b | Better(p.side, a, b) ensures AtLeastAsTight(p.side, rule(a), rule(b)) {
      var d := stop.trailingDistance / 100.0;
      if p.side.Buy? {
        ScaleMonotone(b, a, d);
      } else {
        ScaleMonotone(a, b, d);
      }
    }
    TrailAdvances(stop, p, prices);
    MonotoneRuleFollowsPeak(p.side, rule, Ratchet(p.peakPrice, p.stopLossPrice), prices);
  }

  // ---- When a stop test hits ----

  // A stop test of one symbol at a price.
  datatype Tick = Tick(symbol: Symbol, price: real)

  function TickAll(cfg: RiskConfig, s: RiskState, ticks: seq<Tick>): RiskState {
    if ticks == [] then s
    else CheckStop(cfg, TickAll(cfg, s, ticks[..|ticks| - 1]), ticks[|ticks| - 1].symbol, ticks[|ticks| - 1].price).0
  }

  function PricesOf(ticks: seq<Tick>, symbol: Symbol): seq<real> {
    if ticks == [] then []
    else
      var earlier, last := PricesOf(ticks[..|ticks| - 1], symbol), ticks[|ticks| - 1];
      if last.symbol == symbol then earlier + [last.price] else earlier
  }

  // The level set by an entry or a fill: so many percent or points below a long, above a short.
  function FirstLevel(stop: StopLossConfig, side: Side, price: real): real {
    match (stop.kind, side)
    case (Percentage, Buy) => price - price * stop.value / 100.0
    case (Percentage, Sell) => price + price * stop.value / 100.0
    case (Points, Buy) => price - stop.value
    case (Points, Sell) => price + stop.value
    case (OtherKind, Buy) => price - price / 20.0
    case (OtherKind, Sell) => price + price / 20.0
  }

  // The most favourable of the first price and the others.
  ghost predicate IsBest(side: Side, best: real, first: real, prices: seq<real>) {
    && (best == first || best in prices) && !Better(side, first, best)
    && forall i :: 0 <= i < |prices| ==> !Better(side, prices[i], best)
  }

  // Where the stop stands: at the first level, or when it trails and a better price was seen,
  // at the trailing level of the best price if that is tighter.
  function StopLevel(stop: StopLossConfig, side: Side, first: real, best: real): real {
    var level := FirstLevel(stop, side, first);
    var trailed := if side.Buy? then best - best * stop.trailingDistance / 100.0 else best + best * stop.trailingDistance / 100.0;
    if stop.trailing && best != first && Better(side, trailed, level) then trailed else level
  }

  // A price that stops a position out: at the level or past it.
  predicate AtOrPast(side: Side, price: real, level: real) {
    match side
    case Buy => price <= level
    case Sell => level <= price
  }

  // A position as an entry or a fill at this price leaves it.
  predicate StartsAt(cfg: RiskConfig, s: RiskState, symbol: Symbol, side: Side, price: real) {
    && symbol in s.open && s.open[symbol].side == side && s.open[symbol].peakPrice == price
    && (cfg.stop.enabled ==> s.open[symbol].stopLossPrice == FirstLevel(cfg.stop, side, price))
  }

  lemma {:induction false} TicksTrail(cfg: RiskConfig, s: RiskState, ticks: seq<Tick>, symbol: Symbol)
    requires symbol in s.open && cfg.stop.enabled
    ensures symbol in TickAll(cfg, s, ticks).open
    ensures TickAll(cfg, s, ticks).open[symbol]
         == if cfg.stop.trailing then TrailAll(cfg.stop, s.open[symbol], PricesOf(ticks, symbol)) else s.open[symbol]
    decreases |ticks|
  {
    if ticks != [] {
      var n := |ticks| - 1;
      TicksTrail(cfg, s, ticks[..n], symbol);
      var earlier, last := PricesOf(ticks[..n], symbol), ticks[n].price;
      assert (earlier + [last])[..|earlier|] == earlier;
    }
  }

  lemma PeakIsBest(stop: StopLossConfig, p: Position, prices: seq<real>, best: real)
    requires IsBest(p.side, best, p.peakPrice, prices)
    ensures TrailAll(stop, p, prices).peakPrice == best
  {
    TrailingStopIsRatchet(stop, p, prices);
  }

  lemma TrailingLevels(x: real, distance: real)
    ensures x * (1.0 - distance / 100.0) == x - x * distance / 100.0
    ensures x * (1.0 + distance / 100.0) == x + x * distance / 100.0
  {
  }

  lemma LevelsAgree(stop: StopLossConfig, side: Side, first: real, best: real)
    requires stop.trailing && !Better(side, first, best)
    ensures LevelAtPeak(side, StopAt(stop, side), Ratchet(first, FirstLevel(stop, side, first)), best) == StopLevel(stop, side, first, best)
  {
    TrailingLevels(best, stop.trailingDistance);
  }

  // Where a trailing stop stands after some prices.
  lemma TrailedLevel(stop: StopLossConfig, p: Position, prices: seq<real>, best: real)
    requires 0.0 <= stop.trailingDistance <= 100.0 && stop.trailing
    requires p.stopLossPrice == FirstLevel(stop, p.side, p.peakPrice) && IsBest(p.side, best, p.peakPrice, prices)
    ensures TrailAll(stop, p, prices).stopLossPrice == StopLevel(stop, p.side, p.peakPrice, best)
  {
    StopFollowsPeak(stop, p, prices);
    PeakIsBest(stop, p, prices, best);
    LevelsAgree(stop, p.side, p.peakPrice, best);
  }

  lemma TestHitsIff(cfg: RiskConfig, s: RiskState, symbol: Symbol, side: Side, first: real, ticks: seq<Tick>, price: real, best: real)
    requires StartsAt(cfg, s, symbol, side, first) && (cfg.stop.trailing ==> 0.0 <= cfg.stop.trailingDistance <= 100.0)
    requires IsBest(side, best, first, PricesOf(ticks, symbol) + [price])
    ensures CheckStop(cfg, TickAll(cfg, s, ticks), symbol, price).1
            <==> cfg.stop.enabled && AtOrPast(side, price, StopLevel(cfg.stop, side, first, best))
  {
    if cfg.stop.enabled {
      TicksTrail(cfg, s, ticks, symbol);
      if cfg.stop.trailing {
        var prices := PricesOf(ticks, symbol);
        assert (prices + [price])[..|prices|] == prices;
        assert AfterTick(cfg.stop, TickAll(cfg, s, ticks).open[symbol], price) == TrailAll(cfg.stop, s.open[symbol], prices + [price]);
        TrailedLevel(cfg.stop, s.open[symbol], prices + [price], best);
        TrailingStopIsRatchet(cfg.stop, s.open[symbol], prices + [price]);
      }
    }
  }

  lemma FirstLevels(stop: StopLossConfig, side: Side, price: real)
    ensures StopPrice(stop, price, side) == FirstLevel(stop, side, price)
  {
    TrailingLevels(price, stop.value);
  }

  // After an open at a price, and any tests of any symbols: the next test of the symbol hits if
  // and only if stops are enabled and its price is at or past where the stop stands.
  lemma HitAfterOpenIff(cfg: RiskConfig, s: RiskState, now: int, symbol: Symbol, price: real, quantity: int, t: TradeType,
                        side: Side, margin: real, ticks: seq<Tick>, x: real, best: real)
    requires cfg.stop.trailing ==> 0.0 <= cfg.stop.trailingDistance <= 100.0
    requires IsBest(side, best, price, PricesOf(ticks, symbol) + [x])
    ensures CheckStop(cfg, TickAll(cfg, OpenPosition(cfg, s, now, symbol, price, quantity, t, side, margin), ticks), symbol, x).1
            <==> cfg.stop.enabled && AtOrPast(side, x, StopLevel(cfg.stop, side, price, best))
  {
    FirstLevels(cfg.stop, side, price);
    TestHitsIff(cfg, OpenPosition(cfg, s, now, symbol, price, quantity, t, side, margin), symbol, side, price, ticks, x, best);
  }

  // The same after a fill at a price; and nothing that is not held ever hits.
  lemma HitAfterFillIff(cfg: RiskConfig, s: RiskState, symbol: Symbol, price: real, quantity: int, ticks: seq<Tick>, x: real, best: real)
    requires (cfg.stop.trailing ==> 0.0 <= cfg.stop.trailingDistance <= 100.0) && price > 0.0
    requires symbol in s.open ==> IsBest(s.open[symbol].side, best, price, PricesOf(ticks, symbol) + [x])
    ensures CheckStop(cfg, TickAll(cfg, UpdatePrice(cfg, s, symbol, price, quantity), ticks), symbol, x).1
            <==> symbol in s.open && cfg.stop.enabled
                 && AtOrPast(s.open[symbol].side, x, StopLevel(cfg.stop, s.open[symbol].side, price, best))
  {
    if symbol in s.open {
      FirstLevels(cfg.stop, s.open[symbol].side, price);
      TestHitsIff(cfg, UpdatePrice(cfg, s, symbol, price, quantity), symbol, s.open[symbol].side, price, ticks, x, best);
    } else {
      TicksKeepBook(cfg, s, ticks);
    }
  }

  lemma {:induction false} TicksKeepBook(cfg: RiskConfig, s: RiskState, ticks: seq<Tick>)
    ensures TickAll(cfg, s, ticks).open.Keys == s.open.Keys
    decreases |ticks|
  {
    if ticks != [] {
      var n := |ticks| - 1;
      TicksKeepBook(cfg, s, ticks[..n]);
      var before := TickAll(cfg, s, ticks[..n]);
      if cfg.stop.enabled && ticks[n].symbol in before.open {
        assert TickAll(cfg, s, ticks).open.Keys == before.open.Keys + {ticks[n].symbol};
      }
    }
  }
}
