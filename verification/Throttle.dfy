/** The entry throttle: the pruned list of order times against the full order log. */
module Throttle {
  import opened Common
  import opened Charges
  import opened RiskModel
  import opened RiskCapital

  // Log of an unpruned throttle: an open appends its time, a rollback takes back the last one.
  datatype ThrottleOp = Push(now: int) | Pop

  // The list the manager keeps, pruned on every push.
  function Kept(times: seq<int>, ops: seq<ThrottleOp>): seq<int> {
    if ops == [] then times
    else
      var before := Kept(times, ops[..|ops| - 1]);
      match ops[|ops| - 1]
      case Push(now) => Prune(before, now) + [now]
      case Pop => if |before| > 0 then before[..|before| - 1] else before
  }

  // The list without pruning; a rollback drops its last entry, whoever made it.
  function FullLog(times: seq<int>, ops: seq<ThrottleOp>): seq<int> {
    if ops == [] then times
    else
      var before := FullLog(times, ops[..|ops| - 1]);
      match ops[|ops| - 1]
      case Push(now) => before + [now]
      case Pop => if |before| > 0 then before[..|before| - 1] else before
  }

  function LastTime(start: int, ops: seq<ThrottleOp>): int {
    if ops == [] then start
    else match ops[|ops| - 1]
         case Push(now) => now
         case Pop => LastTime(start, ops[..|ops| - 1])
  }

  predicate ClockMonotone(start: int, ops: seq<ThrottleOp>) {
    ops == [] ||
    (ClockMonotone(start, ops[..|ops| - 1])
     && (ops[|ops| - 1].Push? ==> LastTime(start, ops[..|ops| - 1]) <= ops[|ops| - 1].now))
  }

  // full is kept behind some entries that have expired by now.
  ghost predicate Refines(kept: seq<int>, full: seq<int>, now: int) {
    exists gone :: full == gone + kept && Expired(gone, now)
  }

  ghost predicate Expired(times: seq<int>, now: int) {
    forall i :: 0 <= i < |times| ==> times[i] <= now - MINUTE
  }

  lemma {:induction false} PruneDropsExpired(times: seq<int>, now: int) returns (gone: seq<int>)
    ensures times == gone + Prune(times, now) && Expired(gone, now)
  {
    gone := [];
    if |times| > 0 && times[0] <= now - MINUTE {
      var more := PruneDropsExpired(times[1..], now);
      gone := [times[0]] + more;
      assert times == [times[0]] + times[1..];
    }
  }

  lemma {:induction false} InWindowConcat(a: seq<int>, b: seq<int>, now: int)
    ensures InWindow(a + b, now) == InWindow(a, now) + InWindow(b, now)
    decreases |b|
  {
    if b == [] {
      assert a + b == a;
    } else {
      var b' := b[..|b| - 1];
      assert (a + b)[..|a + b| - 1] == a + b';
      InWindowConcat(a, b', now);
    }
  }

  lemma {:induction false} ExpiredCountsZero(times: seq<int>, now: int)
    requires Expired(times, now)
    ensures InWindow(times, now) == 0
    decreases |times|
  {
    if times != [] {
      ExpiredCountsZero(times[..|times| - 1], now);
    }
  }

  lemma RefinesCounts(kept: seq<int>, full: seq<int>, now: int, later: int)
    requires Refines(kept, full, now) && now <= later
    ensures InWindow(kept, later) == InWindow(full, later)
  {
    var gone :| full == gone + kept && Expired(gone, now);
    InWindowConcat(gone, kept, later);
    ExpiredCountsZero(gone, later);
  }

  lemma ExpiredConcat(a: seq<int>, b: seq<int>, before: int, now: int)
    requires before <= now && Expired(a, before) && Expired(b, now)
    ensures Expired(a + b, now)
  {
  }

  lemma PushRefines(kept: seq<int>, full: seq<int>, before: int, now: int)
    requires Refines(kept, full, before) && before <= now
    ensures Refines(Prune(kept, now) + [now], full + [now], now)
  {
    var gone :| full == gone + kept && Expired(gone, before);
    var more := PruneDropsExpired(kept, now);
    ExpiredConcat(gone, more, before, now);
    assert full + [now] == (gone + more) + (Prune(kept, now) + [now]);
  }

  lemma PopRefines(kept: seq<int>, full: seq<int>, now: int)
    requires Refines(kept, full, now)
    ensures Refines(if |kept| > 0 then kept[..|kept| - 1] else kept,
                    if |full| > 0 then full[..|full| - 1] else full, now)
  {
    var gone :| full == gone + kept && Expired(gone, now);
    if |kept| > 0 {
      assert full[..|full| - 1] == gone + kept[..|kept| - 1];
    } else if |full| > 0 {
      assert full[..|full| - 1] == gone[..|gone| - 1] + kept;
    }
  }

  lemma {:induction false} KeptRefinesLog(times: seq<int>, start: int, ops: seq<ThrottleOp>)
    requires ClockMonotone(start, ops)
    ensures Refines(Kept(times, ops), FullLog(times, ops), LastTime(start, ops))
    decreases |ops|
  {
    if ops == [] {
      assert times == [] + times && Expired([], start);
    } else {
      var earlier := ops[..|ops| - 1];
      KeptRefinesLog(times, start, earlier);
      match ops[|ops| - 1]
      case Push(now) => PushRefines(Kept(times, earlier), FullLog(times, earlier), LastTime(start, earlier), now);
      case Pop => PopRefines(Kept(times, earlier), FullLog(times, earlier), LastTime(start, earlier));
    }
  }

  // Pruning is invisible: at any time from the last order on, counting over the pruned
  // list gives what counting over the never-pruned order log would give, whatever the list
  // held to begin with.
  lemma PruningIsInvisible(times: seq<int>, start: int, ops: seq<ThrottleOp>, later: int)
    requires ClockMonotone(start, ops)
    requires LastTime(start, ops) <= later
    ensures InWindow(Kept(times, ops), later) == InWindow(FullLog(times, ops), later)
  {
    KeptRefinesLog(times, start, ops);
    RefinesCounts(Kept(times, ops), FullLog(times, ops), LastTime(start, ops), later);
  }

  // ---- The list inside the risk manager is this list ----

  // What a run of the manager does to its throttle.
  ghost function ThrottleTrace(cfg: RiskConfig, s: RiskState, ops: seq<RiskOp>): seq<ThrottleOp>
    decreases |ops|
  {
    if ops == [] then []
    else
      var rest := ThrottleTrace(cfg, Apply(cfg, s, ops[0]), ops[1..]);
      if ops[0].OpOpen? then [Push(ops[0].now)] + rest
      else if ops[0].OpRollback? && ops[0].symbol in s.open then [Pop] + rest
      else rest
  }

  lemma {:induction false} KeptCons(times: seq<int>, op: ThrottleOp, rest: seq<ThrottleOp>)
    ensures Kept(times, [op] + rest) == Kept(Kept(times, [op]), rest)
    decreases |rest|
  {
    if rest == [] {
      assert [op] + rest == [op];
    } else {
      var n := |rest| - 1;
      assert ([op] + rest)[..n + 1] == [op] + rest[..n];
      KeptCons(times, op, rest[..n]);
    }
  }

  lemma {:induction false} ManagerKeeps(cfg: RiskConfig, s: RiskState, ops: seq<RiskOp>)
    ensures Run(cfg, s, ops).orderTimes == Kept(s.orderTimes, ThrottleTrace(cfg, s, ops))
    decreases |ops|
  {
    if ops != [] {
      var s' := Apply(cfg, s, ops[0]);
      var rest := ThrottleTrace(cfg, s', ops[1..]);
      ManagerKeeps(cfg, s', ops[1..]);
      if ops[0].OpOpen? {
        var push := Push(ops[0].now);
        assert [push][..0] == [];
        KeptCons(s.orderTimes, push, rest);
      } else if ops[0].OpRollback? && ops[0].symbol in s.open {
        assert [Pop][..0] == [];
        KeptCons(s.orderTimes, Pop, rest);
      }
    }
  }

  // Over every run of the manager from a new session, with any mix of opens, fills,
  // rollbacks, closes and ticks, the count a validation sees is the count over the
  // whole order log.
  lemma ManagerCountsWholeLog(cfg: RiskConfig, balance: real, ops: seq<RiskOp>, start: int, later: int)
    requires var s0 := RiskState(balance, balance, 0.0, 0.0, false, [], map[]);
             ClockMonotone(start, ThrottleTrace(cfg, s0, ops)) && LastTime(start, ThrottleTrace(cfg, s0, ops)) <= later
    ensures var s0 := RiskState(balance, balance, 0.0, 0.0, false, [], map[]);
            InWindow(Run(cfg, s0, ops).orderTimes, later)
            == InWindow(FullLog([], ThrottleTrace(cfg, s0, ops)), later)
  {
    var s0 := RiskState(balance, balance, 0.0, 0.0, false, [], map[]);
    ManagerKeeps(cfg, s0, ops);
    PruningIsInvisible([], start, ThrottleTrace(cfg, s0, ops), later);
  }

  // ---- The rate limit ----

  // When an entry was checked: after how many throttle operations, and at what time.
  datatype Check = Check(at: nat, time: int)

  function Pushes(ops: seq<ThrottleOp>): nat {
    if ops == [] then 0 else Pushes(ops[..|ops| - 1]) + if ops[|ops| - 1].Push? then 1 else 0
  }

  // Push n was let through by a check made before it, against the pruned list of that moment,
  // and at most `overlap` entries were opened between that check and the push.
  predicate LetThrough(max: int, start: int, ops: seq<ThrottleOp>, n: nat, check: Check, overlap: nat)
    requires n < |ops| && ops[n].Push?
  {
    && check.at <= n
    && LastTime(start, ops[..check.at]) <= check.time <= ops[n].now
    && InWindow(Kept([], ops[..check.at]), check.time) < max
    && Pushes(ops[check.at..n]) <= overlap
  }

  predicate Validated(max: int, start: int, ops: seq<ThrottleOp>, checks: seq<Check>, overlap: nat)
    requires |checks| == |ops|
  {
    forall n :: 0 <= n < |ops| && ops[n].Push? ==> LetThrough(max, start, ops, n, checks[n], overlap)
  }

  // Counted back from each entry's own time, no minute holds more than max entries.
  ghost predicate EachEntryWithinLimit(max: int, full: seq<int>) {
    forall i :: 0 <= i < |full| ==> InWindow(full[..i + 1], full[i]) <= max
  }

  ghost predicate Ordered(full: seq<int>, upTo: int) {
    && (forall i, j :: 0 <= i < j < |full| ==> full[i] <= full[j])
    && (forall i :: 0 <= i < |full| ==> full[i] <= upTo)
  }

  lemma {:induction false} InWindowShrinks(times: seq<int>, now: int, later: int)
    requires now <= later
    ensures InWindow(times, later) <= InWindow(times, now)
    decreases |times|
  {
    if times != [] {
      InWindowShrinks(times[..|times| - 1], now, later);
    }
  }

  lemma {:induction false} LogSplits(times: seq<int>, a: seq<ThrottleOp>, b: seq<ThrottleOp>)
    ensures FullLog(times, a + b) == FullLog(FullLog(times, a), b)
    ensures Kept(times, a + b) == Kept(Kept(times, a), b)
    decreases |b|
  {
    if b == [] {
      assert a + b == a;
    } else {
      assert (a + b)[..|a + b| - 1] == a + b[..|b| - 1];
      LogSplits(times, a, b[..|b| - 1]);
    }
  }

  // Operations add at most their pushes to a count.
  lemma {:induction false} PushesBound(times: seq<int>, ops: seq<ThrottleOp>, now: int)
    ensures InWindow(FullLog(times, ops), now) <= InWindow(times, now) + Pushes(ops)
    decreases |ops|
  {
    if ops != [] {
      var before := FullLog(times, ops[..|ops| - 1]);
      PushesBound(times, ops[..|ops| - 1], now);
      match ops[|ops| - 1]
      case Push(t) => InWindowConcat(before, [t], now); WindowOfOne(t, now);
      case Pop =>
    }
  }

  lemma {:induction false} MonotonePrefix(start: int, ops: seq<ThrottleOp>, n: nat)
    requires ClockMonotone(start, ops) && n <= |ops|
    ensures ClockMonotone(start, ops[..n])
    decreases |ops|
  {
    if n < |ops| {
      MonotonePrefix(start, ops[..|ops| - 1], n);
      assert ops[..|ops| - 1][..n] == ops[..n];
    } else {
      assert ops[..n] == ops;
    }
  }

  // What was within the limit when checked is within limit and overlap when pushed.
  lemma LetThroughCount(max: int, start: int, ops: seq<ThrottleOp>, n: nat, check: Check, overlap: nat)
    requires ClockMonotone(start, ops) && n < |ops| && ops[n].Push?
    requires LetThrough(max, start, ops, n, check, overlap)
    ensures InWindow(FullLog([], ops[..n]), ops[n].now) < max + overlap
  {
    var a, b := ops[..check.at], ops[check.at..n];
    assert ops[..n] == a + b;
    LogSplits([], a, b);
    PushesBound(FullLog([], a), b, ops[n].now);
    MonotonePrefix(start, ops, check.at);
    PruningIsInvisible([], start, a, check.time);
    InWindowShrinks(FullLog([], a), check.time, ops[n].now);
  }

  lemma ValidatedPrefix(max: int, start: int, ops: seq<ThrottleOp>, checks: seq<Check>, overlap: nat)
    requires |checks| == |ops| > 0 && Validated(max, start, ops, checks, overlap)
    ensures Validated(max, start, ops[..|ops| - 1], checks[..|ops| - 1], overlap)
  {
    var n := |ops| - 1;
    forall i | 0 <= i < n && ops[..n][i].Push?
      ensures LetThrough(max, start, ops[..n], i, checks[..n][i], overlap)
    {
      assert LetThrough(max, start, ops, i, checks[i], overlap);
      assert ops[..n][..checks[i].at] == ops[..checks[i].at] && ops[..n][checks[i].at..i] == ops[checks[i].at..i];
    }
  }

  lemma {:induction false} LogWithinLimit(max: int, start: int, ops: seq<ThrottleOp>, checks: seq<Check>, overlap: nat)
    requires ClockMonotone(start, ops)
    requires |checks| == |ops| && Validated(max, start, ops, checks, overlap)
    ensures EachEntryWithinLimit(max + overlap, FullLog([], ops))
    decreases |ops|
  {
    if ops != [] {
      var n := |ops| - 1;
      ValidatedPrefix(max, start, ops, checks, overlap);
      LogWithinLimit(max, start, ops[..n], checks[..n], overlap);
      var before := FullLog([], ops[..n]);
      match ops[n]
      case Push(now) =>
        LetThroughCount(max, start, ops, n, checks[n], overlap);
        PushWithinLimit(max + overlap, before, now);
      case Pop => PopWithinLimit(max + overlap, before);
    }
  }

  lemma {:induction false} LogOrdered(start: int, ops: seq<ThrottleOp>)
    requires ClockMonotone(start, ops)
    ensures Ordered(FullLog([], ops), LastTime(start, ops))
    decreases |ops|
  {
    if ops != [] {
      LogOrdered(start, ops[..|ops| - 1]);
    }
  }

  lemma PushWithinLimit(max: int, before: seq<int>, now: int)
    requires EachEntryWithinLimit(max, before) && InWindow(before, now) < max
    ensures EachEntryWithinLimit(max, before + [now])
  {
    var full := before + [now];
    forall i | 0 <= i < |full| ensures InWindow(full[..i + 1], full[i]) <= max {
      if i < |before| {
        assert full[..i + 1] == before[..i + 1];
      } else {
        assert full[..i + 1] == full && full[..|full| - 1] == before;
      }
    }
  }

  lemma PopWithinLimit(max: int, before: seq<int>)
    requires EachEntryWithinLimit(max, before)
    ensures before != [] ==> EachEntryWithinLimit(max, before[..|before| - 1])
  {
    if before != [] {
      var full := before[..|before| - 1];
      forall i | 0 <= i < |full| ensures InWindow(full[..i + 1], full[i]) <= max {
        assert full[..i + 1] == before[..i + 1];
      }
    }
  }

  // Entries of an ordered log that lie after time t come last.
  lemma {:induction false} WindowUpTo(full: seq<int>, upTo: int, max: int, t: int)
    requires Ordered(full, upTo) && EachEntryWithinLimit(max, full) && 0 <= max
    ensures InWindow(UpTo(full, t), t) <= max
    decreases |full|
  {
    if full != [] {
      var n := |full| - 1;
      var shorter := full[..n];
      if full[n] > t {
        PopWithinLimit(max, full);
        WindowUpTo(shorter, upTo, max, t);
      } else {
        UpToAll(full, t);
        assert full[..n + 1] == full;
        InWindowShrinks(full, full[n], t);
      }
    }
  }

  // The entries made by time t.
  function UpTo(full: seq<int>, t: int): seq<int> {
    if full == [] then []
    else if full[|full| - 1] > t then UpTo(full[..|full| - 1], t)
    else UpTo(full[..|full| - 1], t) + [full[|full| - 1]]
  }

  lemma {:induction false} UpToAll(full: seq<int>, t: int)
    requires forall i :: 0 <= i < |full| ==> full[i] <= t
    ensures UpTo(full, t) == full
    decreases |full|
  {
    if full != [] {
      UpToAll(full[..|full| - 1], t);
    }
  }

  // If every entry was validated before it was opened, then no trailing minute, ending at
  // any time t, holds more times of the manager's list, pruned ones included, than max plus
  // the most entries opened between one entry's check and its own open. The list may have
  // lost other entries than those rolled back: Survivors bounds the entries themselves.
  lemma RateLimitHolds(max: int, start: int, ops: seq<ThrottleOp>, checks: seq<Check>, overlap: nat, t: int)
    requires 0 <= max && ClockMonotone(start, ops)
    requires |checks| == |ops| && Validated(max, start, ops, checks, overlap)
    ensures InWindow(UpTo(FullLog([], ops), t), t) <= max + overlap
  {
    LogOrdered(start, ops);
    LogWithinLimit(max, start, ops, checks, overlap);
    WindowUpTo(FullLog([], ops), LastTime(start, ops), max + overlap, t);
  }

  // ---- A rolled-back entry leaves no trace ----

  // Opening an unheld symbol and rolling it back restores everything the manager shows:
  // balances, positions, and every throttle count from that time on.
  lemma RollbackUndoesOpen(cfg: RiskConfig, s: RiskState, now: int, symbol: Symbol, price: real, quantity: int,
                           t: TradeType, side: Side, margin: real, later: int)
    requires symbol !in s.open
    requires now <= later
    ensures var s' := Rollback(OpenPosition(cfg, s, now, symbol, price, quantity, t, side, margin), symbol);
            && s'.(orderTimes := []) == s.(orderTimes := [])
            && InWindow(s'.orderTimes, later) == InWindow(s.orderTimes, later)
  {
    var after := OpenPosition(cfg, s, now, symbol, price, quantity, t, side, margin);
    var s' := Rollback(after, symbol);
    assert s'.open == s.open;
    assert s'.orderTimes == Prune(s.orderTimes, now);
    var gone := PruneDropsExpired(s.orderTimes, now);
    InWindowConcat(gone, s'.orderTimes, later);
    ExpiredCountsZero(gone, later);
  }

  predicate InMinute(time: int, now: int) {
    time > now - MINUTE
  }

  // Dropping the last of the log instead of one of its own entries counts the same exactly
  // when both are inside the window or both outside it.
  lemma DropLastCount(log: seq<int>, own: int, after: seq<int>, now: int)
    ensures var whole := log + [own] + after;
            InWindow(whole[..|whole| - 1], now) == InWindow(log + after, now)
            <==> after == [] || (InMinute(own, now) == InMinute(after[|after| - 1], now))
  {
    var whole := log + [own] + after;
    if after == [] {
      assert whole[..|whole| - 1] == log + after;
    } else {
      var rest, last := after[..|after| - 1], after[|after| - 1];
      assert whole[..|whole| - 1] == log + [own] + rest && log + after == log + rest + [last];
      InWindowConcat(log + [own], rest, now);
      InWindowConcat(log, [own], now);
      InWindowConcat(log + rest, [last], now);
      InWindowConcat(log, rest, now);
      WindowOfOne(own, now);
      WindowOfOne(last, now);
    }
  }

  // The times of the opens among some operations.
  function OpenTimes(ops: seq<RiskOp>): seq<int> {
    if ops == [] then []
    else (if ops[0].OpOpen? then [ops[0].now] else []) + OpenTimes(ops[1..])
  }

  predicate NoRollbacks(ops: seq<RiskOp>) {
    forall i :: 0 <= i < |ops| ==> !ops[i].OpRollback?
  }

  lemma {:induction false} TraceOfOpens(cfg: RiskConfig, s: RiskState, ops: seq<RiskOp>, times: seq<int>)
    requires NoRollbacks(ops)
    ensures FullLog(times, ThrottleTrace(cfg, s, ops)) == times + OpenTimes(ops)
    decreases |ops|
  {
    if ops != [] {
      var s' := Apply(cfg, s, ops[0]);
      var first := if ops[0].OpOpen? then [ops[0].now] else [];
      TraceOfOpens(cfg, s', ops[1..], times + first);
      var rest := ThrottleTrace(cfg, s', ops[1..]);
      OpenTakes(times, ops[0], rest);
      assert ThrottleTrace(cfg, s, ops) == (if ops[0].OpOpen? then [Push(ops[0].now)] else []) + rest;
      assert times + first + OpenTimes(ops[1..]) == times + OpenTimes(ops);
    }
  }

  lemma OpenTakes(times: seq<int>, op: RiskOp, rest: seq<ThrottleOp>)
    requires !op.OpRollback?
    ensures FullLog(times, (if op.OpOpen? then [Push(op.now)] else []) + rest)
         == FullLog(times + (if op.OpOpen? then [op.now] else []), rest)
  {
    if op.OpOpen? {
      LogSplits(times, [Push(op.now)], rest);
      assert [Push(op.now)][..0] == [];
    } else {
      assert [] + rest == rest && times + [] == times;
    }
  }

  // A rollback un-counts the LAST entry, whichever it was. From any state, after an open and
  // any further opens, fills, closes and ticks, rolling the first one back leaves the count
  // of all the others exactly when nothing else was opened, or its entry and the last one
  // are both inside the window or both outside it.
  lemma RollbackAfterOpens(cfg: RiskConfig, s: RiskState, own: RiskOp, between: seq<RiskOp>, start: int, later: int)
    requires own.OpOpen? && NoRollbacks(between) && own.symbol in Run(cfg, s, [own] + between).open
    requires var trace := ThrottleTrace(cfg, s, [own] + between);
             ClockMonotone(start, trace) && LastTime(start, trace) <= later
    ensures var others := OpenTimes(between);
            InWindow(Rollback(Run(cfg, s, [own] + between), own.symbol).orderTimes, later)
            == InWindow(s.orderTimes + others, later)
            <==> others == [] || (InMinute(own.now, later) == InMinute(others[|others| - 1], later))
  {
    var ops := [own] + between;
    var trace := ThrottleTrace(cfg, s, ops);
    var whole := s.orderTimes + [own.now] + OpenTimes(between);
    assert ops[1..] == between;
    TraceOfOpens(cfg, s, ops, s.orderTimes);
    assert s.orderTimes + OpenTimes(ops) == whole;
    ManagerKeeps(cfg, s, ops);
    assert (trace + [Pop])[..|trace|] == trace;
    PruningIsInvisible(s.orderTimes, start, trace + [Pop], later);
    DropLastCount(s.orderTimes, own.now, OpenTimes(between), later);
    RunThenRollback(cfg, s, ops, own.symbol);
  }

  lemma RunThenRollback(cfg: RiskConfig, s: RiskState, ops: seq<RiskOp>, symbol: Symbol)
    requires symbol in Run(cfg, s, ops).open && Run(cfg, s, ops).orderTimes == Kept(s.orderTimes, ThrottleTrace(cfg, s, ops))
    ensures Rollback(Run(cfg, s, ops), symbol).orderTimes == Kept(s.orderTimes, ThrottleTrace(cfg, s, ops) + [Pop])
  {
    var trace := ThrottleTrace(cfg, s, ops);
    assert (trace + [Pop])[..|trace|] == trace;
  }

  lemma WindowOfOne(time: int, now: int)
    ensures InWindow([time], now) == if InMinute(time, now) then 1 else 0
  {
    assert [time][..0] == [];
  }

  // An entry at 0 s and another at 59 s, the first rolled back: at 61 s the window holds the
  // second, but the manager counts none.
  lemma RollbackMiscounts(cfg: RiskConfig, s: RiskState, price: real, quantity: int, t: TradeType, side: Side)
    requires s.orderTimes == []
    ensures var own := OpOpen(0, "A", price, quantity, t, side, 0.0);
            var other := OpOpen(59 * SECOND, "B", price, quantity, t, side, 0.0);
            var after := Rollback(Run(cfg, s, [own] + [other]), "A");
            InWindow(after.orderTimes, 61 * SECOND) == 0 && InWindow([59 * SECOND], 61 * SECOND) == 1
  {
    var own := OpOpen(0, "A", price, quantity, t, side, 0.0);
    var other := OpOpen(59 * SECOND, "B", price, quantity, t, side, 0.0);
    var s1 := Apply(cfg, s, own);
    var s2 := Apply(cfg, s1, other);
    assert ([own] + [other])[1..] == [other] && [other][1..] == [];
    assert Run(cfg, s2, []) == s2;
    assert Run(cfg, s1, [other]) == s2;
    assert Run(cfg, s, [own] + [other]) == s2;
    assert s1.orderTimes == [] + [0];
    assert s2.orderTimes == [0] + [59 * SECOND];
    assert "A" in s1.open && "A" in s2.open && ([0] + [59 * SECOND])[..1] == [0];
    assert Rollback(s2, "A").orderTimes == [0];
    WindowOfOne(0, 61 * SECOND);
    WindowOfOne(59 * SECOND, 61 * SECOND);
  }
}
