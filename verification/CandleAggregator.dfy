/** Candles built tick by tick, and the batch grouping they must agree with.
    A tick extends the candle being built or completes it and opens the next; buckets start at
    whole intervals since local midnight. Fed in time order, with symbols interleaved in any
    order, each symbol's candles are those of grouping its own ticks by bucket. */
module CandleAggregator {
  import opened Common

  // Instants and intervals are nanoseconds; IST is a fixed offset from UTC.
  const MINUTE: int := 60_000_000_000
  const DAY: int := 1440 * MINUTE
  const IST_OFFSET: int := 330 * MINUTE
  const DEFAULT_INTERVAL: int := 5 * MINUTE

  datatype Tick = Tick(symbol: Symbol, price: real, cumVolume: real, time: int)

  datatype Candle = Candle(start: int, open: real, high: real, low: real, close: real, volume: int)

  datatype Bucket = Bucket(start: int, candle: Candle, lastCumVol: real)

  // One symbol's completed candles and the one being built.
  datatype Track = Track(done: seq<Candle>, building: Option<Bucket>)

  // ---- Buckets ----

  function DayStart(t: int): int {
    t - (t + IST_OFFSET) % DAY
  }

  // The instant floored to a multiple of the interval since local midnight.
  function FloorToInterval(t: int, interval: int): int {
    if interval <= 0 then t
    else DayStart(t) + (t - DayStart(t)) / interval * interval
  }

  lemma FloorIsTight(t: int, interval: int)
    requires interval > 0
    ensures FloorToInterval(t, interval) <= t < FloorToInterval(t, interval) + interval
    ensures DayStart(t) <= FloorToInterval(t, interval) < DayStart(t) + DAY
    ensures (FloorToInterval(t, interval) - DayStart(t)) % interval == 0
  {
    var elapsed := t - DayStart(t);
    DivisionIsTight(elapsed, interval);
    MultipleHasNoRest(elapsed / interval, interval);
    assert 0 <= elapsed < DAY;
  }

  lemma MultipleHasNoRest(k: int, n: int)
    requires 0 < n
    ensures k * n % n == 0
  {
    RestIsUnique(k * n, n, k * n / n, k);
  }

  lemma RestIsUnique(x: int, n: int, q: int, k: int)
    requires 0 < n && x == k * n && q == x / n
    ensures x % n == 0
  {
    assert x == q * n + x % n;
    if q < k {
      ProductsOrdered(q + 1, k, n);
    } else if k < q {
      ProductsOrdered(k + 1, q, n);
    }
  }

  // Days begin at midnight, five and a half hours ahead of universal time.
  lemma DayStartIsMidnight(t: int)
    ensures DayStart(t) <= t < DayStart(t) + 24 * 60 * MINUTE
    ensures (DayStart(t) + (5 * 60 + 30) * MINUTE) % (24 * 60 * MINUTE) == 0
  {
  }

  lemma DivisionIsTight(x: int, n: int)
    requires 0 <= x && 0 < n
    ensures 0 <= x / n * n <= x < x / n * n + n
  {
    assert x == x / n * n + x % n;
    assert x / n >= 0;
    ProductsOrdered(0, x / n, n);
  }

  lemma DivisionMonotone(x: int, y: int, n: int)
    requires 0 <= x <= y && 0 < n
    ensures x / n * n <= y / n * n
  {
    DivisionIsTight(x, n);
    DivisionIsTight(y, n);
    QuotientsOrdered(x / n, y / n, n, x, y);
    ProductsOrdered(x / n, y / n, n);
  }

  lemma QuotientsOrdered(a: int, b: int, n: int, x: int, y: int)
    requires 0 < n && a * n <= x <= y < b * n + n
    ensures a <= b
  {
    if b < a {
      ProductsOrdered(b + 1, a, n);
    }
  }

  lemma ProductsOrdered(a: int, b: int, n: int)
    requires a <= b && 0 < n
    ensures a * n <= b * n
  {
    assert 0 <= (b - a) * n;
  }

  // Later instants fall in the same bucket or a later one.
  lemma FloorIsMonotone(t: int, u: int, interval: int)
    requires t <= u
    ensures FloorToInterval(t, interval) <= FloorToInterval(u, interval)
  {
    if interval > 0 {
      if DayStart(t) == DayStart(u) {
        DivisionMonotone(t - DayStart(t), u - DayStart(u), interval);
      } else {
        DaysAreOrdered(t, u);
        FloorIsTight(t, interval);
        FloorIsTight(u, interval);
      }
    }
  }

  lemma DaysAreOrdered(t: int, u: int)
    requires t <= u && DayStart(t) != DayStart(u)
    ensures DayStart(t) + DAY <= DayStart(u)
  {
    var a, b := t + IST_OFFSET, u + IST_OFFSET;
    assert a == a / DAY * DAY + a % DAY && b == b / DAY * DAY + b % DAY;
    assert a / DAY <= b / DAY;
  }

  // The bucketing of instants that an interval makes.
  function Buckets(interval: int): int -> int {
    (t: int) => FloorToInterval(t, interval)
  }

  ghost predicate Monotone(bucket: int -> int) {
    forall t, u :: t <= u ==> bucket(t) <= bucket(u)
  }

  lemma BucketsMonotone(interval: int)
    ensures Monotone(Buckets(interval))
  {
    forall t, u | t <= u
      ensures Buckets(interval)(t) <= Buckets(interval)(u)
    {
      FloorIsMonotone(t, u, interval);
    }
  }

  // ---- One tick ----

  function LastOf(cs: seq<Candle>, keep: int): seq<Candle> {
    if keep > 0 && |cs| > keep then cs[|cs| - keep..] else cs
  }

  function Opened(tick: Tick, start: int): Bucket {
    Bucket(start, Candle(start, tick.price, tick.price, tick.price, tick.price, 0), tick.cumVolume)
  }

  // Volume traded between two readings of the day's running total; a fall is a restart.
  function Traded(earlier: real, later: real): int {
    if later >= earlier then (later - earlier).Floor else 0
  }

  function Extended(b: Bucket, tick: Tick): Bucket {
    var c := b.candle;
    Bucket(b.start,
           Candle(c.start,
                  c.open,
                  if tick.price > c.high then tick.price else c.high,
                  if tick.price < c.low then tick.price else c.low,
                  tick.price,
                  c.volume + Traded(b.lastCumVol, tick.cumVolume)),
           tick.cumVolume)
  }

  function Advance(t: Track, tick: Tick, bucket: int -> int, keep: int): Track {
    var start := bucket(tick.time);
    match t.building
    case None => Track(t.done, Some(Opened(tick, start)))
    case Some(b) =>
      if b.start != start then Track(LastOf(t.done + [b.candle], keep), Some(Opened(tick, start)))
      else Track(t.done, Some(Extended(b, tick)))
  }

  predicate Completes(t: Track, tick: Tick, bucket: int -> int) {
    t.building.Some? && t.building.value.start != bucket(tick.time)
  }

  class Aggregator {
    const interval: int
    const maxKeep: int
    var done: map<Symbol, seq<Candle>>
    var building: map<Symbol, Bucket>

    constructor (interval: int, maxKeep: int)
      ensures this.interval == (if interval <= 0 then DEFAULT_INTERVAL else interval)
      ensures this.maxKeep == maxKeep && done == map[] && building == map[]
    {
      this.interval := if interval <= 0 then DEFAULT_INTERVAL else interval;
      this.maxKeep := maxKeep;
      done, building := map[], map[];
    }

    function TrackOf(symbol: Symbol): Track
      reads this
    {
      Track(if symbol in done then done[symbol] else [],
            if symbol in building then Some(building[symbol]) else None)
    }

    // Feeds one tick; true exactly when it completes a candle.
    method Add(tick: Tick) returns (completed: bool)
      modifies this
      ensures completed == Completes(old(TrackOf(tick.symbol)), tick, Buckets(interval))
      ensures TrackOf(tick.symbol) == Advance(old(TrackOf(tick.symbol)), tick, Buckets(interval), maxKeep)
      ensures forall s: Symbol :: s != tick.symbol ==> TrackOf(s) == old(TrackOf(s))
    {
      var symbol := tick.symbol;
      var start := FloorToInterval(tick.time, interval);
      if symbol !in building || building[symbol].start != start {
        completed := symbol in building;
        if completed {
          var cs := (if symbol in done then done[symbol] else []) + [building[symbol].candle];
          done := done[symbol := cs];
          if maxKeep > 0 && |cs| > maxKeep {
            done := done[symbol := cs[|cs| - maxKeep..]];
          }
        }
        building := building[symbol := Opened(tick, start)];
        return;
      }
      var b := building[symbol];
      var c := b.candle.(close := tick.price);
      if tick.price > c.high {
        c := c.(high := tick.price);
      }
      if tick.price < c.low {
        c := c.(low := tick.price);
      }
      if tick.cumVolume >= b.lastCumVol {
        c := c.(volume := c.volume + (tick.cumVolume - b.lastCumVol).Floor);
      }
      building := building[symbol := Bucket(b.start, c, tick.cumVolume)];
      completed := false;
    }

    method Completed(symbol: Symbol) returns (cs: seq<Candle>)
      ensures cs == TrackOf(symbol).done
    {
      cs := if symbol in done then done[symbol] else [];
    }

    // The runner's feed: a whole stream of ticks, symbols interleaved in any order.
    method Feed(ticks: seq<Tick>)
      requires done == map[] && building == map[]
      modifies this
      ensures forall s: Symbol :: TrackOf(s) == Replay(TicksOf(ticks, s), Buckets(interval), maxKeep)
      ensures InTimeOrder(ticks) ==> forall s: Symbol :: Agrees(TrackOf(s), TicksOf(ticks, s), Buckets(interval), maxKeep)
    {
      var i := 0;
      while i < |ticks|
        invariant 0 <= i <= |ticks|
        invariant forall s: Symbol :: TrackOf(s) == Replay(TicksOf(ticks[..i], s), Buckets(interval), maxKeep)
      {
        var completed := Add(ticks[i]);
        assert ticks[..i + 1] == ticks[..i] + [ticks[i]];
        forall s: Symbol
          ensures TrackOf(s) == Replay(TicksOf(ticks[..i + 1], s), Buckets(interval), maxKeep)
        {
          OneMoreTick(ticks[..i], ticks[i], s, Buckets(interval), maxKeep);
        }
        i := i + 1;
      }
      assert ticks[..i] == ticks;
      if InTimeOrder(ticks) {
        forall s: Symbol
          ensures Agrees(TrackOf(s), TicksOf(ticks, s), Buckets(interval), maxKeep)
        {
          StreamAgrees(ticks, s, interval, maxKeep);
        }
      }
    }
  }

  // ---- Streams ----

  function TicksOf(ticks: seq<Tick>, symbol: Symbol): seq<Tick> {
    if ticks == [] then []
    else
      var earlier := TicksOf(ticks[..|ticks| - 1], symbol);
      var last := ticks[|ticks| - 1];
      if last.symbol == symbol then earlier + [last] else earlier
  }

  function Replay(ticks: seq<Tick>, bucket: int -> int, keep: int): Track
    decreases |ticks|
  {
    if ticks == [] then Track([], None)
    else Advance(Replay(ticks[..|ticks| - 1], bucket, keep), ticks[|ticks| - 1], bucket, keep)
  }

  lemma TicksOfSnoc(ticks: seq<Tick>, t: Tick, symbol: Symbol)
    ensures TicksOf(ticks + [t], symbol) == TicksOf(ticks, symbol) + (if t.symbol == symbol then [t] else [])
  {
    assert (ticks + [t])[..|ticks|] == ticks;
  }

  lemma ReplaySnoc(ticks: seq<Tick>, t: Tick, bucket: int -> int, keep: int)
    ensures Replay(ticks + [t], bucket, keep) == Advance(Replay(ticks, bucket, keep), t, bucket, keep)
  {
    assert (ticks + [t])[..|ticks|] == ticks;
  }

  // A tick advances the replay of its own symbol and leaves those of the others.
  lemma OneMoreTick(ticks: seq<Tick>, t: Tick, symbol: Symbol, bucket: int -> int, keep: int)
    ensures var before := Replay(TicksOf(ticks, symbol), bucket, keep);
            Replay(TicksOf(ticks + [t], symbol), bucket, keep) == if symbol == t.symbol then Advance(before, t, bucket, keep) else before
  {
    TicksOfSnoc(ticks, t, symbol);
    if symbol == t.symbol {
      ReplaySnoc(TicksOf(ticks, symbol), t, bucket, keep);
    }
  }

  lemma StreamAgrees(ticks: seq<Tick>, symbol: Symbol, interval: int, keep: int)
    requires InTimeOrder(ticks)
    ensures Agrees(Replay(TicksOf(ticks, symbol), Buckets(interval), keep), TicksOf(ticks, symbol), Buckets(interval), keep)
  {
    SubstreamOrdered(ticks, symbol);
    BucketsMonotone(interval);
    StreamingIsBatch(TicksOf(ticks, symbol), Buckets(interval), keep);
  }

  lemma {:induction false} SubstreamWithin(ticks: seq<Tick>, symbol: Symbol)
    ensures forall t :: t in TicksOf(ticks, symbol) ==> t in ticks
    decreases |ticks|
  {
    if ticks != [] {
      SubstreamWithin(ticks[..|ticks| - 1], symbol);
    }
  }

  // One symbol's ticks are in time order when the whole stream is.
  lemma {:induction false} SubstreamOrdered(ticks: seq<Tick>, symbol: Symbol)
    requires InTimeOrder(ticks)
    ensures InTimeOrder(TicksOf(ticks, symbol))
    decreases |ticks|
  {
    if ticks != [] {
      var earlier, last := ticks[..|ticks| - 1], ticks[|ticks| - 1];
      SubstreamOrdered(earlier, symbol);
      SubstreamWithin(earlier, symbol);
      assert forall t :: t in earlier ==> t.time <= last.time;
      var sub := TicksOf(earlier, symbol);
      assert forall i :: 0 <= i < |sub| ==> sub[i] in sub;
    }
  }

  // ---- The batch form: group all ticks by bucket ----

  // The distinct bucket starts, in order of first appearance.
  function Starts(ticks: seq<Tick>, bucket: int -> int): seq<int>
    decreases |ticks|
  {
    if ticks == [] then []
    else
      var earlier := Starts(ticks[..|ticks| - 1], bucket);
      var start := bucket(ticks[|ticks| - 1].time);
      if start in earlier then earlier else earlier + [start]
  }

  // All ticks of a bucket, wherever they stand in the stream.
  function Members(ticks: seq<Tick>, start: int, bucket: int -> int): seq<Tick>
    decreases |ticks|
  {
    if ticks == [] then []
    else
      var earlier := Members(ticks[..|ticks| - 1], start, bucket);
      var last := ticks[|ticks| - 1];
      if bucket(last.time) == start then earlier + [last] else earlier
  }

  function Highest(ticks: seq<Tick>): (m: real)
    requires ticks != []
    ensures forall i :: 0 <= i < |ticks| ==> ticks[i].price <= m
    ensures exists i :: 0 <= i < |ticks| && ticks[i].price == m
  {
    var last := ticks[|ticks| - 1].price;
    if |ticks| == 1 then last
    else
      var m := Highest(ticks[..|ticks| - 1]);
      assert forall i :: 0 <= i < |ticks| - 1 ==> ticks[i] == ticks[..|ticks| - 1][i];
      if last > m then last else m
  }

  function Lowest(ticks: seq<Tick>): (m: real)
    requires ticks != []
    ensures forall i :: 0 <= i < |ticks| ==> m <= ticks[i].price
    ensures exists i :: 0 <= i < |ticks| && ticks[i].price == m
  {
    var last := ticks[|ticks| - 1].price;
    if |ticks| == 1 then last
    else
      var m := Lowest(ticks[..|ticks| - 1]);
      assert forall i :: 0 <= i < |ticks| - 1 ==> ticks[i] == ticks[..|ticks| - 1][i];
      if last < m then last else m
  }

  function VolumeOf(ticks: seq<Tick>): int {
    if |ticks| <= 1 then 0
    else VolumeOf(ticks[..|ticks| - 1]) + Traded(ticks[|ticks| - 2].cumVolume, ticks[|ticks| - 1].cumVolume)
  }

  function CandleOf(members: seq<Tick>, start: int): Candle
    requires members != []
  {
    Candle(start, members[0].price, Highest(members), Lowest(members), members[|members| - 1].price, VolumeOf(members))
  }

  lemma {:induction false} StartsHaveMembers(ticks: seq<Tick>, start: int, bucket: int -> int)
    ensures start in Starts(ticks, bucket) <==> Members(ticks, start, bucket) != []
    decreases |ticks|
  {
    if ticks != [] {
      StartsHaveMembers(ticks[..|ticks| - 1], start, bucket);
    }
  }

  function Batch(ticks: seq<Tick>, bucket: int -> int): (cs: seq<Candle>)
    ensures |cs| == |Starts(ticks, bucket)|
  {
    var starts := Starts(ticks, bucket);
    seq(|starts|, i requires 0 <= i < |starts| =>
      StartsHaveMembers(ticks, starts[i], bucket);
      CandleOf(Members(ticks, starts[i], bucket), starts[i]))
  }

  predicate InTimeOrder(ticks: seq<Tick>) {
    forall i, j :: 0 <= i <= j < |ticks| ==> ticks[i].time <= ticks[j].time
  }

  // Buckets of an ordered stream strictly increase and end with the last tick's.
  lemma {:induction false} StartsIncrease(ticks: seq<Tick>, bucket: int -> int)
    requires InTimeOrder(ticks) && Monotone(bucket)
    ensures var starts := Starts(ticks, bucket);
            && (forall i, j :: 0 <= i < j < |starts| ==> starts[i] < starts[j])
            && (ticks != [] ==> starts != [] && starts[|starts| - 1] == bucket(ticks[|ticks| - 1].time))
    decreases |ticks|
  {
    if ticks != [] {
      var earlier := ticks[..|ticks| - 1];
      StartsIncrease(earlier, bucket);
      if earlier != [] {
        assert bucket(earlier[|earlier| - 1].time) <= bucket(ticks[|ticks| - 1].time);
      }
    }
  }

  lemma ExtendingMatches(members: seq<Tick>, t: Tick, start: int)
    requires members != []
    ensures CandleOf(members + [t], start)
         == Extended(Bucket(start, CandleOf(members, start), members[|members| - 1].cumVolume), t).candle
  {
    assert (members + [t])[..|members|] == members;
  }

  lemma LastOfLast(cs: seq<Candle>, c: Candle, keep: int)
    ensures LastOf(LastOf(cs, keep) + [c], keep) == LastOf(cs + [c], keep)
  {
  }

  lemma MembersSnoc(ticks: seq<Tick>, t: Tick, start: int, bucket: int -> int)
    ensures Members(ticks + [t], start, bucket)
         == if bucket(t.time) == start then Members(ticks, start, bucket) + [t] else Members(ticks, start, bucket)
  {
    assert (ticks + [t])[..|ticks|] == ticks;
  }

  lemma BatchAt(ticks: seq<Tick>, bucket: int -> int, i: nat, start: int)
    requires i < |Starts(ticks, bucket)| && Starts(ticks, bucket)[i] == start
    ensures Members(ticks, start, bucket) != [] && Batch(ticks, bucket)[i] == CandleOf(Members(ticks, start, bucket), start)
  {
    StartsHaveMembers(ticks, start, bucket);
  }

  lemma StartsSnoc(ticks: seq<Tick>, t: Tick, bucket: int -> int)
    requires bucket(t.time) !in Starts(ticks, bucket)
    ensures Starts(ticks + [t], bucket) == Starts(ticks, bucket) + [bucket(t.time)]
  {
    assert (ticks + [t])[..|ticks|] == ticks;
  }

  // A tick of a bucket not met before adds a candle to the batch.
  lemma BatchOpens(ticks: seq<Tick>, t: Tick, bucket: int -> int)
    requires bucket(t.time) !in Starts(ticks, bucket)
    ensures Batch(ticks + [t], bucket) == Batch(ticks, bucket) + [Opened(t, bucket(t.time)).candle]
  {
    var start, starts := bucket(t.time), Starts(ticks, bucket);
    var before, after := Batch(ticks, bucket), Batch(ticks + [t], bucket);
    StartsSnoc(ticks, t, bucket);
    forall i | 0 <= i < |starts|
      ensures after[i] == before[i]
    {
      EarlierCandleStays(ticks, t, bucket, i);
    }
    BatchAt(ticks + [t], bucket, |starts|, start);
    MembersSnoc(ticks, t, start, bucket);
    StartsHaveMembers(ticks, start, bucket);
    assert after[|starts|] == Opened(t, start).candle;
  }

  // A tick of the last bucket extends the last candle and no other.
  lemma BatchExtends(ticks: seq<Tick>, t: Tick, bucket: int -> int)
    requires InTimeOrder(ticks) && Monotone(bucket)
    requires ticks != [] && Last(ticks, bucket) == bucket(t.time)
    ensures var start, before := bucket(t.time), Batch(ticks, bucket);
            && before != []
            && Batch(ticks + [t], bucket)
            == before[..|before| - 1]
               + [Extended(Bucket(start, before[|before| - 1], ticks[|ticks| - 1].cumVolume), t).candle]
  {
    var start, n := bucket(t.time), |Starts(ticks, bucket)| - 1;
    LastStart(ticks, t, bucket);
    var before, after := Batch(ticks, bucket), Batch(ticks + [t], bucket);
    forall i | 0 <= i < n
      ensures after[i] == before[i]
    {
      EarlierCandleStays(ticks, t, bucket, i);
    }
    LastCandleExtends(ticks, t, bucket, n, start);
    SameButLast(before, after);
  }

  lemma SameButLast(before: seq<Candle>, after: seq<Candle>)
    requires before != [] && |after| == |before|
    requires forall i :: 0 <= i < |before| - 1 ==> after[i] == before[i]
    ensures after == before[..|before| - 1] + [after[|before| - 1]]
  {
  }

  // The last tick's bucket is the last, and no other has its start.
  lemma LastStart(ticks: seq<Tick>, t: Tick, bucket: int -> int)
    requires InTimeOrder(ticks) && Monotone(bucket)
    requires ticks != [] && Last(ticks, bucket) == bucket(t.time)
    ensures var starts := Starts(ticks, bucket);
            && Starts(ticks + [t], bucket) == starts && starts != [] && starts[|starts| - 1] == bucket(t.time)
            && forall i :: 0 <= i < |starts| - 1 ==> starts[i] < bucket(t.time)
  {
    var starts := Starts(ticks, bucket);
    assert (ticks + [t])[..|ticks|] == ticks;
    StartsIncrease(ticks, bucket);
    assert starts[|starts| - 1] in starts;
  }

  lemma EarlierCandleStays(ticks: seq<Tick>, t: Tick, bucket: int -> int, i: nat)
    requires i < |Starts(ticks, bucket)| <= |Starts(ticks + [t], bucket)|
    requires Starts(ticks + [t], bucket)[i] == Starts(ticks, bucket)[i] != bucket(t.time)
    ensures Batch(ticks + [t], bucket)[i] == Batch(ticks, bucket)[i]
  {
    var start := Starts(ticks, bucket)[i];
    BatchAt(ticks, bucket, i, start);
    BatchAt(ticks + [t], bucket, i, start);
    MembersSnoc(ticks, t, start, bucket);
  }

  lemma LastCandleExtends(ticks: seq<Tick>, t: Tick, bucket: int -> int, n: nat, start: int)
    requires Starts(ticks + [t], bucket) == Starts(ticks, bucket)
    requires ticks != [] && Last(ticks, bucket) == bucket(t.time) == start
    requires n < |Starts(ticks, bucket)| && Starts(ticks, bucket)[n] == start
    ensures Batch(ticks + [t], bucket)[n]
         == Extended(Bucket(start, Batch(ticks, bucket)[n], ticks[|ticks| - 1].cumVolume), t).candle
  {
    LastMember(ticks, bucket);
    BatchAt(ticks, bucket, n, start);
    BatchAt(ticks + [t], bucket, n, start);
    MembersSnoc(ticks, t, start, bucket);
    ExtendingMatches(Members(ticks, start, bucket), t, start);
  }

  function Last(ticks: seq<Tick>, bucket: int -> int): int
    requires ticks != []
  {
    bucket(ticks[|ticks| - 1].time)
  }

  lemma LastMember(ticks: seq<Tick>, bucket: int -> int)
    requires ticks != []
    ensures var m := Members(ticks, Last(ticks, bucket), bucket);
            m != [] && m[|m| - 1] == ticks[|ticks| - 1]
  {
  }

  // ---- Results ----

  // The stream's state for these batch candles, the last of them being built from this start.
  predicate Holds(t: Track, batch: seq<Candle>, start: int, cumVolume: real, keep: int) {
    && batch != []
    && t.done == LastOf(batch[..|batch| - 1], keep)
    && t.building == Some(Bucket(start, batch[|batch| - 1], cumVolume))
  }

  // The stream's state as the batch form describes it.
  predicate Agrees(t: Track, ticks: seq<Tick>, bucket: int -> int, keep: int) {
    if ticks == [] then t == Track([], None)
    else Holds(t, Batch(ticks, bucket), Last(ticks, bucket), ticks[|ticks| - 1].cumVolume, keep)
  }

  lemma ExtendingHolds(t: Track, batch: seq<Candle>, start: int, cumVolume: real, tick: Tick, bucket: int -> int, keep: int)
    requires Holds(t, batch, start, cumVolume, keep) && bucket(tick.time) == start
    ensures var n := |batch| - 1;
            Holds(Advance(t, tick, bucket, keep), batch[..n] + [Extended(Bucket(start, batch[n], cumVolume), tick).candle],
                  start, tick.cumVolume, keep)
  {
  }

  lemma OpeningHolds(t: Track, batch: seq<Candle>, start: int, cumVolume: real, tick: Tick, bucket: int -> int, keep: int)
    requires Holds(t, batch, start, cumVolume, keep) && bucket(tick.time) != start
    ensures var next := bucket(tick.time);
            Holds(Advance(t, tick, bucket, keep), batch + [Opened(tick, next).candle], next, tick.cumVolume, keep)
  {
    var n := |batch| - 1;
    assert batch == batch[..n] + [batch[n]];
    LastOfLast(batch[..n], batch[n], keep);
    assert (batch + [Opened(tick, bucket(tick.time)).candle])[..n + 1] == batch;
  }

  lemma NewBucket(ticks: seq<Tick>, tick: Tick, bucket: int -> int)
    requires ticks != [] && InTimeOrder(ticks + [tick]) && Monotone(bucket)
    requires Last(ticks, bucket) != bucket(tick.time)
    ensures bucket(tick.time) !in Starts(ticks, bucket)
  {
    var all := ticks + [tick];
    assert forall i :: 0 <= i < |ticks| ==> ticks[i] == all[i];
    StartsIncrease(ticks, bucket);
    assert all[|ticks| - 1].time <= all[|ticks|].time;
  }

  lemma AgreementKept(t: Track, ticks: seq<Tick>, tick: Tick, bucket: int -> int, keep: int)
    requires InTimeOrder(ticks + [tick]) && Monotone(bucket)
    requires Agrees(t, ticks, bucket, keep)
    ensures Agrees(Advance(t, tick, bucket, keep), ticks + [tick], bucket, keep)
  {
    if ticks == [] {
      BatchOpens(ticks, tick, bucket);
    } else if Last(ticks, bucket) == bucket(tick.time) {
      SameBucketKept(t, ticks, tick, bucket, keep, Batch(ticks, bucket));
    } else {
      NewBucketKept(t, ticks, tick, bucket, keep, Batch(ticks, bucket));
    }
  }

  lemma SameBucketKept(t: Track, ticks: seq<Tick>, tick: Tick, bucket: int -> int, keep: int, batch: seq<Candle>)
    requires ticks != [] && InTimeOrder(ticks + [tick]) && Monotone(bucket) && Last(ticks, bucket) == bucket(tick.time)
    requires batch == Batch(ticks, bucket) && Holds(t, batch, Last(ticks, bucket), ticks[|ticks| - 1].cumVolume, keep)
    ensures Agrees(Advance(t, tick, bucket, keep), ticks + [tick], bucket, keep)
  {
    PrefixInOrder(ticks, tick);
    BatchExtends(ticks, tick, bucket);
    ExtendingHolds(t, batch, Last(ticks, bucket), ticks[|ticks| - 1].cumVolume, tick, bucket, keep);
  }

  lemma NewBucketKept(t: Track, ticks: seq<Tick>, tick: Tick, bucket: int -> int, keep: int, batch: seq<Candle>)
    requires ticks != [] && InTimeOrder(ticks + [tick]) && Monotone(bucket) && Last(ticks, bucket) != bucket(tick.time)
    requires batch == Batch(ticks, bucket) && Holds(t, batch, Last(ticks, bucket), ticks[|ticks| - 1].cumVolume, keep)
    ensures Agrees(Advance(t, tick, bucket, keep), ticks + [tick], bucket, keep)
  {
    NewBucket(ticks, tick, bucket);
    BatchOpens(ticks, tick, bucket);
    OpeningHolds(t, batch, Last(ticks, bucket), ticks[|ticks| - 1].cumVolume, tick, bucket, keep);
  }

  lemma PrefixInOrder(ticks: seq<Tick>, tick: Tick)
    requires InTimeOrder(ticks + [tick])
    ensures InTimeOrder(ticks)
  {
    assert forall i :: 0 <= i < |ticks| ==> ticks[i] == (ticks + [tick])[i];
  }

  // Streaming agrees with the batch form: for ticks in time order, the completed candles
  // are the last `keep` of the batch's, all but the bucket still being built, and that one
  // is the batch's last.
  lemma {:induction false} StreamingIsBatch(ticks: seq<Tick>, bucket: int -> int, keep: int)
    requires InTimeOrder(ticks) && Monotone(bucket)
    ensures Agrees(Replay(ticks, bucket, keep), ticks, bucket, keep)
    decreases |ticks|
  {
    if ticks != [] {
      var earlier, tick := ticks[..|ticks| - 1], ticks[|ticks| - 1];
      assert ticks == earlier + [tick];
      StreamingIsBatch(earlier, bucket, keep);
      AgreementKept(Replay(earlier, bucket, keep), earlier, tick, bucket, keep);
    }
  }

  // What is kept are the last candles, as many as asked for, or all when none is asked for.
  lemma KeptAreTheLast(cs: seq<Candle>, keep: int)
    ensures |LastOf(cs, keep)| == if 0 < keep < |cs| then keep else |cs|
    ensures cs == cs[..|cs| - |LastOf(cs, keep)|] + LastOf(cs, keep)
  {
  }

  // A tick completes a candle exactly when the batch then has one more, the first excepted.
  lemma CompletesIff(ticks: seq<Tick>, tick: Tick, bucket: int -> int, keep: int)
    requires InTimeOrder(ticks + [tick]) && Monotone(bucket)
    ensures Completes(Replay(ticks, bucket, keep), tick, bucket)
            <==> ticks != [] && |Batch(ticks + [tick], bucket)| == |Batch(ticks, bucket)| + 1
  {
    PrefixInOrder(ticks, tick);
    StreamingIsBatch(ticks, bucket, keep);
    if ticks != [] {
      if Last(ticks, bucket) == bucket(tick.time) {
        BatchExtends(ticks, tick, bucket);
      } else {
        NewBucket(ticks, tick, bucket);
        BatchOpens(ticks, tick, bucket);
      }
    }
  }

  // Completed candles of an ordered stream stand in strictly increasing buckets.
  lemma CandlesIncrease(ticks: seq<Tick>, bucket: int -> int, keep: int)
    requires InTimeOrder(ticks) && Monotone(bucket)
    ensures var done := Replay(ticks, bucket, keep).done;
            forall i, j :: 0 <= i < j < |done| ==> done[i].start < done[j].start
  {
    StreamingIsBatch(ticks, bucket, keep);
    StartsIncrease(ticks, bucket);
  }

  predicate Rising(ticks: seq<Tick>) {
    forall i :: 0 < i < |ticks| ==> ticks[i - 1].cumVolume <= ticks[i].cumVolume
  }

  // Each reading is a whole number above the one before.
  predicate WholeSteps(ticks: seq<Tick>) {
    forall i :: 0 < i < |ticks| ==> IsWhole(ticks[i].cumVolume - ticks[i - 1].cumVolume)
  }

  predicate IsWhole(x: real) {
    x.Floor as real == x
  }

  lemma TradedBounds(earlier: real, later: real)
    requires earlier <= later
    ensures 0 <= Traded(earlier, later)
    ensures Traded(earlier, later) as real <= later - earlier < Traded(earlier, later) as real + 1.0
  {
  }

  // While the running total never falls, a candle's volume is at most its rise, and short of
  // it by less than one for each tick.
  lemma {:induction false} VolumeWithinRise(ticks: seq<Tick>)
    requires ticks != [] && Rising(ticks)
    ensures 0 <= VolumeOf(ticks)
    ensures VolumeOf(ticks) as real <= ticks[|ticks| - 1].cumVolume - ticks[0].cumVolume
    ensures ticks[|ticks| - 1].cumVolume - ticks[0].cumVolume < VolumeOf(ticks) as real + |ticks| as real
    decreases |ticks|
  {
    if |ticks| > 1 {
      var earlier := ticks[..|ticks| - 1];
      VolumeWithinRise(earlier);
      TradedBounds(ticks[|ticks| - 2].cumVolume, ticks[|ticks| - 1].cumVolume);
    }
  }

  // It is the rise exactly when every reading is a whole number above the one before.
  lemma {:induction false} VolumeIsRiseIff(ticks: seq<Tick>)
    requires ticks != [] && Rising(ticks)
    ensures VolumeOf(ticks) as real == ticks[|ticks| - 1].cumVolume - ticks[0].cumVolume <==> WholeSteps(ticks)
    decreases |ticks|
  {
    if |ticks| > 1 {
      var n := |ticks| - 1;
      var earlier := ticks[..n];
      VolumeIsRiseIff(earlier);
      VolumeWithinRise(earlier);
      TradedBounds(ticks[n - 1].cumVolume, ticks[n].cumVolume);
      WholeStepsSnoc(ticks, n);
    }
  }

  lemma WholeStepsSnoc(ticks: seq<Tick>, n: nat)
    requires n + 1 == |ticks| && 0 < n
    ensures WholeSteps(ticks) <==> WholeSteps(ticks[..n]) && IsWhole(ticks[n].cumVolume - ticks[n - 1].cumVolume)
  {
    var earlier := ticks[..n];
    assert forall i :: 0 <= i < n ==> earlier[i] == ticks[i];
  }

  // Every batch candle has the shape of its bucket: open first, close last, high and low the
  // extremes actually reached.
  lemma BatchCandle(ticks: seq<Tick>, bucket: int -> int, i: nat)
    requires i < |Batch(ticks, bucket)|
    ensures var c, start := Batch(ticks, bucket)[i], Starts(ticks, bucket)[i];
            var members := Members(ticks, start, bucket);
            && members != [] && c.start == start
            && c.open == members[0].price && c.close == members[|members| - 1].price
            && (forall j :: 0 <= j < |members| ==> c.low <= members[j].price <= c.high)
            && (exists j :: 0 <= j < |members| && members[j].price == c.high)
            && (exists j :: 0 <= j < |members| && members[j].price == c.low)
  {
    StartsHaveMembers(ticks, Starts(ticks, bucket)[i], bucket);
  }
}
