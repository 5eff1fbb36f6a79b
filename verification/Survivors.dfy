/** Which entries the throttle should count, and which it does, whoever rolls back. */
module Survivors {
  import opened Common
  import opened RiskModel
  import opened RiskCapital
  import opened Throttle

  datatype Entry = Entry(id: nat, time: int)

  // Throttle operations with the entry they belong to: one is made, or taken back.
  datatype Tagged = Made(id: nat, now: int) | TakenBack(id: nat)

  function Plain(ops: seq<Tagged>): (plain: seq<ThrottleOp>)
    ensures |plain| == |ops|
  {
    seq(|ops|, i requires 0 <= i < |ops| => if ops[i].Made? then Push(ops[i].now) else Pop)
  }

  // The list as the manager treats it, every take-back dropping its last entry.
  function LogOf(ops: seq<Tagged>): seq<Entry> {
    if ops == [] then []
    else
      var before := LogOf(ops[..|ops| - 1]);
      match ops[|ops| - 1]
      case Made(id, now) => before + [Entry(id, now)]
      case TakenBack(_) => if before == [] then before else before[..|before| - 1]
  }

  // The entries that survive, every take-back removing its own.
  function Surviving(ops: seq<Tagged>): map<nat, int> {
    if ops == [] then map[]
    else
      var before := Surviving(ops[..|ops| - 1]);
      match ops[|ops| - 1]
      case Made(id, now) => before[id := now]
      case TakenBack(id) => before - {id}
  }

  // All entries ever made.
  function Entries(ops: seq<Tagged>): map<nat, int> {
    if ops == [] then map[]
    else
      var before := Entries(ops[..|ops| - 1]);
      match ops[|ops| - 1]
      case Made(id, now) => before[id := now]
      case TakenBack(_) => before
  }

  // Each entry is made once, and taken back at most once after that.
  predicate WellTagged(ops: seq<Tagged>) {
    ops == [] ||
    (var n := |ops| - 1;
     WellTagged(ops[..n])
     && match ops[n]
        case Made(id, _) => id !in Entries(ops[..n])
        case TakenBack(id) => id in Surviving(ops[..n]))
  }

  // ---- Counting the minute that ends at a time ----

  predicate Spans(time: int, t: int) {
    t - MINUTE < time <= t
  }

  function Bit(time: int, t: int): int {
    if Spans(time, t) then 1 else 0
  }

  function InSpan(es: seq<Entry>, t: int): int {
    if es == [] then 0 else InSpan(es[..|es| - 1], t) + Bit(es[|es| - 1].time, t)
  }

  function Within(m: map<nat, int>, t: int): set<nat> {
    set id | id in m && Spans(m[id], t)
  }

  function CountOf(m: map<nat, int>, t: int): int {
    |Within(m, t)|
  }

  // What the take-backs so far have wrongly left in the count of the survivors: those that
  // dropped an entry of the minute for one outside it, less those the other way round.
  function Miscount(ops: seq<Tagged>, t: int): int {
    if ops == [] then 0
    else
      var n := |ops| - 1;
      Miscount(ops[..n], t) + OneMiscount(ops[..n], ops[n], t)
  }

  function OneMiscount(before: seq<Tagged>, op: Tagged, t: int): int {
    var log := LogOf(before);
    if op.Made? || log == [] || op.id !in Entries(before) then 0
    else Bit(log[|log| - 1].time, t) - Bit(Entries(before)[op.id], t)
  }

  // How many take-backs dropped another entry than their own.
  function Foreign(ops: seq<Tagged>): nat {
    if ops == [] then 0
    else Foreign(ops[..|ops| - 1]) + if DropsAnother(ops[..|ops| - 1], ops[|ops| - 1]) then 1 else 0
  }

  predicate DropsAnother(before: seq<Tagged>, op: Tagged) {
    op.TakenBack? && LogOf(before) != [] && LogOf(before)[|LogOf(before)| - 1].id != op.id
  }

  // ---- Facts ----

  lemma {:induction false} TaggedFacts(ops: seq<Tagged>)
    requires WellTagged(ops)
    ensures |LogOf(ops)| == |Surviving(ops)|
    ensures forall e :: e in LogOf(ops) ==> e.id in Entries(ops) && Entries(ops)[e.id] == e.time
    ensures forall id :: id in Surviving(ops) ==> id in Entries(ops) && Entries(ops)[id] == Surviving(ops)[id]
    decreases |ops|
  {
    if ops != [] {
      var n := |ops| - 1;
      var s := Surviving(ops[..n]);
      TaggedFacts(ops[..n]);
      match ops[n]
      case Made(id, now) => assert s[id := now].Keys == s.Keys + {id};
      case TakenBack(id) => assert (s - {id}).Keys == s.Keys - {id};
    }
  }

  lemma CountMade(m: map<nat, int>, id: nat, now: int, t: int)
    requires id !in m
    ensures CountOf(m[id := now], t) == CountOf(m, t) + Bit(now, t)
  {
    assert Within(m[id := now], t) == Within(m, t) + (if Spans(now, t) then {id} else {});
  }

  lemma CountTakenBack(m: map<nat, int>, id: nat, t: int)
    requires id in m
    ensures CountOf(m - {id}, t) == CountOf(m, t) - Bit(m[id], t)
  {
    assert Within(m - {id}, t) == Within(m, t) - {id};
  }

  // The survivors of any minute are those the list counts, plus what was miscounted.
  lemma {:induction false} SurvivorsAndLog(ops: seq<Tagged>, t: int)
    requires WellTagged(ops)
    ensures CountOf(Surviving(ops), t) == InSpan(LogOf(ops), t) + Miscount(ops, t)
    decreases |ops|
  {
    if ops == [] {
      assert Within(map[], t) == {};
    } else {
      var n := |ops| - 1;
      var s, log := Surviving(ops[..n]), LogOf(ops[..n]);
      SurvivorsAndLog(ops[..n], t);
      TaggedFacts(ops[..n]);
      match ops[n]
      case Made(id, now) =>
        CountMade(s, id, now, t);
        assert (log + [Entry(id, now)])[..|log|] == log;
      case TakenBack(id) =>
        CountTakenBack(s, id, t);
        assert |s| > 0 by { assert id in s.Keys; }
    }
  }

  lemma {:induction false} MiscountBound(ops: seq<Tagged>, t: int)
    requires WellTagged(ops)
    ensures Miscount(ops, t) <= Foreign(ops)
    decreases |ops|
  {
    if ops != [] {
      var n := |ops| - 1;
      MiscountBound(ops[..n], t);
      TaggedFacts(ops[..n]);
      var log := LogOf(ops[..n]);
      if ops[n].TakenBack? && log != [] && log[|log| - 1].id == ops[n].id {
        assert log[|log| - 1] in log;
      }
    }
  }

  function TimesOf(es: seq<Entry>): (times: seq<int>)
    ensures |times| == |es|
  {
    seq(|es|, i requires 0 <= i < |es| => es[i].time)
  }

  lemma {:induction false} LogIsFull(ops: seq<Tagged>)
    ensures TimesOf(LogOf(ops)) == FullLog([], Plain(ops))
    decreases |ops|
  {
    if ops != [] {
      var n := |ops| - 1;
      LogIsFull(ops[..n]);
      assert Plain(ops)[..n] == Plain(ops[..n]);
    }
  }

  lemma {:induction false} SpanIsWindow(es: seq<Entry>, t: int)
    ensures InSpan(es, t) == InWindow(UpTo(TimesOf(es), t), t)
    decreases |es|
  {
    if es != [] {
      var n := |es| - 1;
      var times, last := TimesOf(es[..n]), es[n].time;
      SpanIsWindow(es[..n], t);
      assert TimesOf(es) == times + [last];
      UpToSnoc(times, last, t);
    }
  }

  lemma UpToSnoc(times: seq<int>, last: int, t: int)
    ensures InWindow(UpTo(times + [last], t), t) == InWindow(UpTo(times, t), t) + Bit(last, t)
  {
    assert (times + [last])[..|times|] == times;
    if last <= t {
      InWindowConcat(UpTo(times, t), [last], t);
      WindowOfOne(last, t);
    }
  }

  // ---- Results ----

  // With every entry checked before it was made: no minute holds more survivors than the
  // limit, plus the most entries made between one entry's check and its making, plus the
  // take-backs that dropped another entry than their own.
  lemma SurvivorsWithinLimit(max: int, start: int, ops: seq<Tagged>, checks: seq<Check>, overlap: nat, t: int)
    requires 0 <= max && WellTagged(ops) && ClockMonotone(start, Plain(ops))
    requires |checks| == |ops| && Validated(max, start, Plain(ops), checks, overlap)
    ensures CountOf(Surviving(ops), t) <= max + overlap + Miscount(ops, t) <= max + overlap + Foreign(ops)
  {
    RateLimitHolds(max, start, Plain(ops), checks, overlap, t);
    LogIsFull(ops);
    SpanIsWindow(LogOf(ops), t);
    SurvivorsAndLog(ops, t);
    MiscountBound(ops, t);
  }

  // The manager's own count is that of the survivors exactly when the miscounts cancel out.
  lemma CountIsRightIff(start: int, ops: seq<Tagged>, later: int)
    requires WellTagged(ops) && ClockMonotone(start, Plain(ops)) && LastTime(start, Plain(ops)) <= later
    ensures InWindow(Kept([], Plain(ops)), later) == CountOf(Surviving(ops), later) <==> Miscount(ops, later) == 0
  {
    PruningIsInvisible([], start, Plain(ops), later);
    LogOrdered(start, Plain(ops));
    UpToAll(FullLog([], Plain(ops)), later);
    LogIsFull(ops);
    SpanIsWindow(LogOf(ops), later);
    SurvivorsAndLog(ops, later);
  }

  // Each take-back dropped its own entry, or one on the same side of the minute as its own.
  predicate AlikeTakeBacks(ops: seq<Tagged>, t: int) {
    ops == [] ||
    (var n := |ops| - 1;
     AlikeTakeBacks(ops[..n], t) && (DropsAnother(ops[..n], ops[n]) ==> OneMiscount(ops[..n], ops[n], t) == 0))
  }

  lemma {:induction false} AlikeIsRight(ops: seq<Tagged>, t: int)
    requires WellTagged(ops) && AlikeTakeBacks(ops, t)
    ensures Miscount(ops, t) == 0
    decreases |ops|
  {
    if ops != [] {
      var n := |ops| - 1;
      AlikeIsRight(ops[..n], t);
      TaggedFacts(ops[..n]);
      var log := LogOf(ops[..n]);
      if ops[n].TakenBack? && log != [] && log[|log| - 1].id == ops[n].id {
        assert log[|log| - 1] in log;
      }
    }
  }

  // ---- Every run of the manager ----

  // The run's throttle operations with their entries: opens are numbered, and a rollback
  // takes back the latest open of its symbol.
  function TagsOf(held: set<Symbol>, ops: seq<RiskOp>, n: nat, owner: map<Symbol, nat>): seq<Tagged>
    decreases |ops|
  {
    if ops == [] then []
    else
      var op := ops[0];
      TagsFor(op, held, n, owner)
      + TagsOf(HeldAfter(op, held), ops[1..], if op.OpOpen? then n + 1 else n, OwnersAfter(op, n, owner))
  }

  function TagsFor(op: RiskOp, held: set<Symbol>, n: nat, owner: map<Symbol, nat>): seq<Tagged> {
    if op.OpOpen? then [Made(n, op.now)]
    else if op.OpRollback? && op.symbol in held then [TakenBack(if op.symbol in owner then owner[op.symbol] else n)]
    else []
  }

  function OwnersAfter(op: RiskOp, n: nat, owner: map<Symbol, nat>): map<Symbol, nat> {
    if op.OpOpen? then owner[op.symbol := n] else owner
  }

  function HeldAfter(op: RiskOp, held: set<Symbol>): set<Symbol> {
    if op.OpOpen? then held + {op.symbol} else if op.OpRollback? || op.OpClose? then held - {op.symbol} else held
  }

  // Held symbols have an entry of their own that survives.
  ghost predicate Owned(held: set<Symbol>, done: seq<Tagged>, n: nat, owner: map<Symbol, nat>) {
    && WellTagged(done)
    && (forall id :: id in Entries(done) ==> id < n)
    && (forall x :: x in held ==> x in owner && owner[x] in Surviving(done))
    && (forall x, y :: x in held && y in held && x != y && x in owner && y in owner ==> owner[x] != owner[y])
  }

  lemma OpKeepsHeld(cfg: RiskConfig, s: RiskState, op: RiskOp)
    ensures Apply(cfg, s, op).open.Keys == HeldAfter(op, s.open.Keys)
  {
    match op
    case OpFill(symbol, price, quantity) =>
    case OpTick(symbol, price) =>
      if cfg.stop.enabled && symbol in s.open {
        assert Apply(cfg, s, op).open.Keys == s.open.Keys;
      }
    case OpRollback(symbol) => assert Apply(cfg, s, op).open.Keys == s.open.Keys - {symbol};
    case OpClose(symbol, price) => assert Apply(cfg, s, op).open.Keys == s.open.Keys - {symbol};
    case OpOpen(now, symbol, price, quantity, t, side, margin) =>
    case OpKill =>
  }

  lemma TaggedSnoc(done: seq<Tagged>, op: Tagged)
    ensures Surviving(done + [op]) == if op.Made? then Surviving(done)[op.id := op.now] else Surviving(done) - {op.id}
    ensures Entries(done + [op]) == if op.Made? then Entries(done)[op.id := op.now] else Entries(done)
    ensures WellTagged(done + [op])
            <==> WellTagged(done) && (if op.Made? then op.id !in Entries(done) else op.id in Surviving(done))
  {
    assert (done + [op])[..|done|] == done;
  }

  lemma {:induction false} TagsAreWell(held: set<Symbol>, ops: seq<RiskOp>, n: nat, owner: map<Symbol, nat>, done: seq<Tagged>)
    requires Owned(held, done, n, owner)
    ensures WellTagged(done + TagsOf(held, ops, n, owner))
    decreases |ops|
  {
    if ops == [] {
      assert done + [] == done;
    } else {
      var op := ops[0];
      var n', owner' := if op.OpOpen? then n + 1 else n, OwnersAfter(op, n, owner);
      var tags, rest := TagsFor(op, held, n, owner), TagsOf(HeldAfter(op, held), ops[1..], n', owner');
      OwnedAfterOp(held, done, n, owner, op);
      TagsAreWell(HeldAfter(op, held), ops[1..], n', owner', done + tags);
      assert done + tags + rest == done + (tags + rest);
    }
  }

  lemma OwnedAfterOp(held: set<Symbol>, done: seq<Tagged>, n: nat, owner: map<Symbol, nat>, op: RiskOp)
    requires Owned(held, done, n, owner)
    ensures Owned(HeldAfter(op, held), done + TagsFor(op, held, n, owner), if op.OpOpen? then n + 1 else n, OwnersAfter(op, n, owner))
  {
    if op.OpOpen? {
      OwnedAfterOpen(held, done, n, owner, op.symbol, op.now);
    } else if op.OpRollback? && op.symbol in held {
      OwnedAfterBack(held, done, n, owner, op.symbol);
    } else {
      assert done + [] == done;
    }
  }

  lemma OwnedAfterBack(held: set<Symbol>, done: seq<Tagged>, n: nat, owner: map<Symbol, nat>, symbol: Symbol)
    requires Owned(held, done, n, owner) && symbol in held
    ensures Owned(held - {symbol}, done + [TakenBack(owner[symbol])], n, owner)
  {
    TaggedSnoc(done, TakenBack(owner[symbol]));
  }

  lemma OwnedAfterOpen(held: set<Symbol>, done: seq<Tagged>, n: nat, owner: map<Symbol, nat>, symbol: Symbol, now: int)
    requires Owned(held, done, n, owner)
    ensures Owned(held + {symbol}, done + [Made(n, now)], n + 1, owner[symbol := n])
  {
    TaggedSnoc(done, Made(n, now));
    TaggedFacts(done);
  }

  lemma {:induction false} TagsAreTrace(cfg: RiskConfig, s: RiskState, ops: seq<RiskOp>, n: nat, owner: map<Symbol, nat>)
    ensures Plain(TagsOf(s.open.Keys, ops, n, owner)) == ThrottleTrace(cfg, s, ops)
    decreases |ops|
  {
    if ops != [] {
      var op, s' := ops[0], Apply(cfg, s, ops[0]);
      var n', owner' := if op.OpOpen? then n + 1 else n, OwnersAfter(op, n, owner);
      OpKeepsHeld(cfg, s, op);
      TagsAreTrace(cfg, s', ops[1..], n', owner');
      OneTrace(op, s.open.Keys, n, owner, TagsOf(s'.open.Keys, ops[1..], n', owner'), ThrottleTrace(cfg, s', ops[1..]));
    }
  }

  lemma OneTrace(op: RiskOp, held: set<Symbol>, n: nat, owner: map<Symbol, nat>, tags: seq<Tagged>, trace: seq<ThrottleOp>)
    requires Plain(tags) == trace
    ensures Plain(TagsFor(op, held, n, owner) + tags)
         == if op.OpOpen? then [Push(op.now)] + trace else if op.OpRollback? && op.symbol in held then [Pop] + trace else trace
  {
    var first := TagsFor(op, held, n, owner);
    assert first == [] ==> first + tags == tags;
  }

  // Over every run of the manager from a new session, rollbacks among one another included:
  // the count a validation sees is that of the entries not rolled back if and only if the
  // miscounts cancel out, as they do when each rollback dropped its own entry or one on the
  // same side of the window.
  lemma InterleavedRollbackCount(cfg: RiskConfig, balance: real, ops: seq<RiskOp>, start: int, later: int)
    requires var s0 := RiskState(balance, balance, 0.0, 0.0, false, [], map[]);
             ClockMonotone(start, ThrottleTrace(cfg, s0, ops)) && LastTime(start, ThrottleTrace(cfg, s0, ops)) <= later
    ensures var s0 := RiskState(balance, balance, 0.0, 0.0, false, [], map[]);
            var tags := TagsOf({}, ops, 0, map[]);
            && WellTagged(tags) && Plain(tags) == ThrottleTrace(cfg, s0, ops)
            && (InWindow(Run(cfg, s0, ops).orderTimes, later) == CountOf(Surviving(tags), later) <==> Miscount(tags, later) == 0)
            && (AlikeTakeBacks(tags, later) ==> Miscount(tags, later) == 0)
  {
    var s0 := RiskState(balance, balance, 0.0, 0.0, false, [], map[]);
    var tags := TagsOf({}, ops, 0, map[]);
    TagsAreWell({}, ops, 0, map[], []);
    assert [] + tags == tags;
    assert s0.open.Keys == {};
    TagsAreTrace(cfg, s0, ops, 0, map[]);
    ManagerKeeps(cfg, s0, ops);
    CountIsRightIff(start, tags, later);
    if AlikeTakeBacks(tags, later) {
      AlikeIsRight(tags, later);
    }
  }
}
