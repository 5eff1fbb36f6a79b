/** The entry rate limit when calls interleave: checking and opening are two steps. */
module RateLimit {
  import opened RiskModel
  import opened OrderProtocol
  import opened Throttle
  import opened Survivors

  // ---- What a run does to the throttle ----

  // An entry's open pushes its time, an entry's rollback takes the last one back.
  function StepOps(cfg: RiskConfig, s: Shared, c: Call, env: Env): seq<ThrottleOp> {
    if c.Entry? && c.epc.EOpen? && OpenFor(cfg, s.risk, c.req, env.now, c.price).Some? then [Push(env.now)]
    else if c.Entry? && c.epc.ERollback? && c.req.symbol in s.risk.open then [Pop]
    else []
  }

  function OpsOf(cfg: RiskConfig, sys: System, a: Action): seq<ThrottleOp> {
    if Moves(sys, a) then StepOps(cfg, sys.shared, sys.calls[a.caller], a.env) else []
  }

  // What is known of a run so far: its throttle operations, the latest check of each call,
  // and beside each operation the check its call had passed.
  datatype History = History(trace: seq<ThrottleOp>, latest: map<nat, Check>, checks: seq<Check>)

  function Extended(cfg: RiskConfig, sys: System, h: History, a: Action): History {
    var ops := OpsOf(cfg, sys, a);
    History(h.trace + ops,
            if Moves(sys, a) && sys.calls[a.caller].Entry? && sys.calls[a.caller].epc.EStart? then
              h.latest[a.caller := Check(|h.trace|, a.env.now)]
            else h.latest,
            h.checks + (if ops == [] then []
                        else [if a.Step? && a.caller in h.latest then h.latest[a.caller] else Check(0, 0)]))
  }

  function HistoryOf(cfg: RiskConfig, sys: System, actions: seq<Action>): History {
    if actions == [] then History([], map[], [])
    else
      var earlier := actions[..|actions| - 1];
      Extended(cfg, Run(cfg, sys, earlier), HistoryOf(cfg, sys, earlier), actions[|actions| - 1])
  }

  // The time of the last step.
  function Now(start: int, actions: seq<Action>): int {
    if actions == [] then start
    else if actions[|actions| - 1].Step? then actions[|actions| - 1].env.now
    else Now(start, actions[..|actions| - 1])
  }

  predicate ClockAdvances(start: int, actions: seq<Action>) {
    actions == [] ||
    (var n := |actions| - 1;
     ClockAdvances(start, actions[..n]) && (actions[n].Step? ==> Now(start, actions[..n]) <= actions[n].env.now))
  }

  // ---- One step ----

  // A check found room in the window of its moment.
  predicate Passed(max: int, start: int, trace: seq<ThrottleOp>, check: Check, now: int) {
    && check.at <= |trace|
    && LastTime(start, trace[..check.at]) <= check.time <= now
    && InWindow(Kept([], trace[..check.at]), check.time) < max
  }

  lemma StepThrottles(cfg: RiskConfig, s: Shared, c: Call, env: Env)
    ensures var (s', c') := CallStep(cfg, s, c, env);
            && s'.risk.orderTimes == Kept(s.risk.orderTimes, StepOps(cfg, s, c, env))
            && (Checked(c') ==>
                  (c.Entry? && c.epc.EStart? && InWindow(s.risk.orderTimes, env.now) < cfg.maxOrdersPerMin)
                  || (Checked(c) && StepOps(cfg, s, c, env) == []))
            && (StepOps(cfg, s, c, env) != [] && StepOps(cfg, s, c, env)[0].Push? ==> Checked(c))
  {
    var none: seq<ThrottleOp> := [];
    assert [Push(env.now)][..0] == none && [Pop][..0] == none;
  }

  lemma NextThrottles(cfg: RiskConfig, sys: System, a: Action)
    ensures Next(cfg, sys, a).shared.risk.orderTimes == Kept(sys.shared.risk.orderTimes, OpsOf(cfg, sys, a))
  {
    if Moves(sys, a) {
      StepThrottles(cfg, sys.shared, sys.calls[a.caller], a.env);
    }
  }

  ghost predicate HistoryHolds(max: int, start: int, now: int, sys: System, h: History) {
    && sys.shared.risk.orderTimes == Kept([], h.trace)
    && ClockMonotone(start, h.trace) && LastTime(start, h.trace) <= now
    && |h.checks| == |h.trace|
    && (forall i :: 0 <= i < |sys.calls| && Checked(sys.calls[i]) ==>
          i in h.latest && Passed(max, start, h.trace, h.latest[i], now))
    && AllPassed(max, start, h)
  }

  // Each push had passed its check before it.
  ghost predicate AllPassed(max: int, start: int, h: History) {
    && |h.checks| == |h.trace|
    && forall n :: 0 <= n < |h.trace| && h.trace[n].Push? ==> Passed(max, start, h.trace[..n], h.checks[n], h.trace[n].now)
  }

  lemma PassedLasts(max: int, start: int, trace: seq<ThrottleOp>, ops: seq<ThrottleOp>, check: Check, now: int, later: int)
    requires Passed(max, start, trace, check, now) && now <= later
    ensures Passed(max, start, trace + ops, check, later)
  {
    assert (trace + ops)[..check.at] == trace[..check.at];
  }

  lemma MonotoneOneMore(start: int, trace: seq<ThrottleOp>, op: ThrottleOp)
    requires ClockMonotone(start, trace) && (op.Push? ==> LastTime(start, trace) <= op.now)
    ensures ClockMonotone(start, trace + [op])
    ensures LastTime(start, trace + [op]) == if op.Push? then op.now else LastTime(start, trace)
  {
    assert (trace + [op])[..|trace|] == trace;
  }

  lemma AllPassedOneMore(max: int, start: int, h: History, op: ThrottleOp, check: Check, latest: map<nat, Check>)
    requires AllPassed(max, start, h) && (op.Push? ==> Passed(max, start, h.trace, check, op.now))
    ensures AllPassed(max, start, History(h.trace + [op], latest, h.checks + [check]))
  {
    var longer := h.trace + [op];
    forall n | 0 <= n < |longer| && longer[n].Push?
      ensures Passed(max, start, longer[..n], (h.checks + [check])[n], longer[n].now)
    {
      assert longer[..n] == h.trace[..n];
      assert h.trace[..|h.trace|] == h.trace;
    }
  }

  // A step that leaves the throttle alone; an entry's check is such a step.
  lemma QuietStep(cfg: RiskConfig, start: int, now: int, sys: System, h: History, a: Action, now': int)
    requires HistoryHolds(cfg.maxOrdersPerMin, start, now, sys, h) && now <= now'
    requires OpsOf(cfg, sys, a) == [] && (a.Step? ==> now' == a.env.now)
    ensures HistoryHolds(cfg.maxOrdersPerMin, start, now', Next(cfg, sys, a), Extended(cfg, sys, h, a))
  {
    var max, sys', h' := cfg.maxOrdersPerMin, Next(cfg, sys, a), Extended(cfg, sys, h, a);
    NextThrottles(cfg, sys, a);
    assert h'.trace == h.trace && h'.checks == h.checks;
    forall i | 0 <= i < |sys'.calls| && Checked(sys'.calls[i])
      ensures i in h'.latest && Passed(max, start, h'.trace, h'.latest[i], now')
    {
      if Moves(sys, a) && i == a.caller {
        StepThrottles(cfg, sys.shared, sys.calls[i], a.env);
        assert h.trace[..|h.trace|] == h.trace;
      }
      if i < |sys.calls| && Checked(sys.calls[i]) {
        PassedLasts(max, start, h.trace, [], h.latest[i], now, now');
        assert h.trace + [] == h.trace;
      }
    }
  }

  // A step that pushes or pops.
  lemma ThrottlingStep(cfg: RiskConfig, start: int, now: int, sys: System, h: History, a: Action)
    requires HistoryHolds(cfg.maxOrdersPerMin, start, now, sys, h)
    requires Moves(sys, a) && now <= a.env.now && OpsOf(cfg, sys, a) != []
    ensures HistoryHolds(cfg.maxOrdersPerMin, start, a.env.now, Next(cfg, sys, a), Extended(cfg, sys, h, a))
  {
    var max, sys', h' := cfg.maxOrdersPerMin, Next(cfg, sys, a), Extended(cfg, sys, h, a);
    var op := OpsOf(cfg, sys, a)[0];
    assert OpsOf(cfg, sys, a) == [op] && (op.Push? ==> op.now == a.env.now);
    StepThrottles(cfg, sys.shared, sys.calls[a.caller], a.env);
    NextThrottles(cfg, sys, a);
    LogSplits([], h.trace, [op]);
    MonotoneOneMore(start, h.trace, op);
    var check := h'.checks[|h.checks|];
    if op.Push? {
      PassedLasts(max, start, h.trace, [], h.latest[a.caller], now, a.env.now);
      assert h.trace + [] == h.trace;
    }
    AllPassedOneMore(max, start, h, op, check, h'.latest);
    forall i | 0 <= i < |sys'.calls| && Checked(sys'.calls[i])
      ensures i in h'.latest && Passed(max, start, h'.trace, h'.latest[i], a.env.now)
    {
      assert i != a.caller;
      PassedLasts(max, start, h.trace, [op], h.latest[i], now, a.env.now);
    }
  }

  lemma {:induction false} RunKeepsHistory(cfg: RiskConfig, sys: System, actions: seq<Action>, start: int)
    requires Quiet(sys) && sys.shared.risk.orderTimes == [] && ClockAdvances(start, actions)
    ensures HistoryHolds(cfg.maxOrdersPerMin, start, Now(start, actions), Run(cfg, sys, actions), HistoryOf(cfg, sys, actions))
    decreases |actions|
  {
    if actions != [] {
      var n := |actions| - 1;
      var a, before, h := actions[n], Run(cfg, sys, actions[..n]), HistoryOf(cfg, sys, actions[..n]);
      RunKeepsHistory(cfg, sys, actions[..n], start);
      if OpsOf(cfg, before, a) == [] {
        QuietStep(cfg, start, Now(start, actions[..n]), before, h, a, Now(start, actions));
      } else {
        ThrottlingStep(cfg, start, Now(start, actions[..n]), before, h, a);
      }
    }
  }

  // ---- Results ----

  // At most `overlap` entries opened between any entry's check and its own open.
  predicate OverlapAtMost(h: History, overlap: nat)
    requires |h.checks| == |h.trace|
  {
    forall n :: 0 <= n < |h.trace| && h.trace[n].Push? && h.checks[n].at <= n ==>
      Pushes(h.trace[h.checks[n].at..n]) <= overlap
  }

  // ---- Whose entries they are ----

  // The run's throttle operations with the call they belong to.
  function TagFor(cfg: RiskConfig, sys: System, a: Action): seq<Tagged> {
    if OpsOf(cfg, sys, a) == [] || !a.Step? then []
    else if OpsOf(cfg, sys, a)[0].Push? then [Made(a.caller, a.env.now)]
    else [TakenBack(a.caller)]
  }

  function EntriesOf(cfg: RiskConfig, sys: System, actions: seq<Action>): seq<Tagged> {
    if actions == [] then []
    else
      var earlier := actions[..|actions| - 1];
      EntriesOf(cfg, sys, earlier) + TagFor(cfg, Run(cfg, sys, earlier), actions[|actions| - 1])
  }

  // Not opened yet, and opened but neither filled nor taken back.
  predicate Early(c: Call) {
    c.Entry? && (c.epc.EStart? || c.epc.EIntent? || c.epc.EOpen?)
  }

  predicate Opening(c: Call) {
    c.Entry? && (c.epc.ESend? || c.epc.EWait? || c.epc.ERollback?)
  }

  ghost predicate TagsHold(sys: System, tags: seq<Tagged>) {
    && WellTagged(tags)
    && (forall id :: id in Entries(tags) ==> id < |sys.calls| && !Early(sys.calls[id]))
    && (forall i: nat :: i < |sys.calls| && Opening(sys.calls[i]) ==> i in Surviving(tags))
  }

  lemma StepTags(cfg: RiskConfig, s: Shared, c: Call, env: Env)
    ensures var c', ops := CallStep(cfg, s, c, env).1, StepOps(cfg, s, c, env);
            && (ops == [] || ops == [Pop] || ops == [Push(env.now)])
            && (ops == [Push(env.now)] ==> Early(c) && Opening(c'))
            && (ops == [Pop] ==> Opening(c) && !Opening(c'))
            && (Early(c') ==> Early(c))
            && (Opening(c') ==> Opening(c) || ops == [Push(env.now)])
  {
  }

  lemma TagsFollow(sys: System, sys': System, tags: seq<Tagged>, tag: seq<Tagged>, caller: nat)
    requires TagsHold(sys, tags) && caller < |sys.calls| == |sys'.calls|
    requires sys'.calls == sys.calls[caller := sys'.calls[caller]]
    requires tag == [] || tag == [TakenBack(caller)] || (|tag| == 1 && tag[0].Made? && tag[0].id == caller)
    requires var (c, c') := (sys.calls[caller], sys'.calls[caller]);
             && (tag != [] && tag[0].Made? ==> Early(c) && Opening(c'))
             && (tag == [TakenBack(caller)] ==> Opening(c) && !Opening(c'))
             && (Early(c') ==> Early(c)) && (Opening(c') ==> Opening(c) || (tag != [] && tag[0].Made?))
    ensures TagsHold(sys', tags + tag)
  {
    if tag == [] {
      assert tags + tag == tags;
    } else {
      assert tag == [tag[0]];
      TaggedSnoc(tags, tag[0]);
    }
    forall i: nat | i < |sys'.calls| && Opening(sys'.calls[i])
      ensures i in Surviving(tags + tag)
    {
      assert i != caller ==> sys'.calls[i] == sys.calls[i];
    }
  }

  lemma MoreCalls(sys: System, sys': System, tags: seq<Tagged>)
    requires TagsHold(sys, tags) && |sys.calls| <= |sys'.calls| && sys'.calls[..|sys.calls|] == sys.calls
    requires forall i :: |sys.calls| <= i < |sys'.calls| ==> !Opening(sys'.calls[i])
    ensures TagsHold(sys', tags)
  {
    assert forall i :: 0 <= i < |sys.calls| ==> sys'.calls[i] == sys.calls[i];
  }

  lemma NextTags(cfg: RiskConfig, sys: System, a: Action, tags: seq<Tagged>)
    requires TagsHold(sys, tags)
    ensures TagsHold(Next(cfg, sys, a), tags + TagFor(cfg, sys, a))
    ensures Plain(tags + TagFor(cfg, sys, a)) == Plain(tags) + OpsOf(cfg, sys, a)
  {
    if Moves(sys, a) {
      StepTags(cfg, sys.shared, sys.calls[a.caller], a.env);
      TagsFollow(sys, Next(cfg, sys, a), tags, TagFor(cfg, sys, a), a.caller);
    } else {
      assert tags + [] == tags && Plain(tags) + [] == Plain(tags);
      MoreCalls(sys, Next(cfg, sys, a), tags);
    }
  }

  lemma {:induction false} RunTags(cfg: RiskConfig, sys: System, actions: seq<Action>)
    requires sys.calls == []
    ensures TagsHold(Run(cfg, sys, actions), EntriesOf(cfg, sys, actions))
    ensures Plain(EntriesOf(cfg, sys, actions)) == HistoryOf(cfg, sys, actions).trace
    decreases |actions|
  {
    if actions != [] {
      var n := |actions| - 1;
      RunTags(cfg, sys, actions[..n]);
      NextTags(cfg, Run(cfg, sys, actions[..n]), actions[n], EntriesOf(cfg, sys, actions[..n]));
    }
  }

  // In every interleaving, with a clock that does not go back: no minute, ending at any time
  // t, holds more entries that were not rolled back than the limit, plus the most entries that
  // opened between one entry's check and its own open, plus the rollbacks that un-counted
  // another entry than their own. So the limit itself holds when there was neither.
  lemma WindowWithinLimitAndOverlap(cfg: RiskConfig, sys: System, actions: seq<Action>, start: int, overlap: nat, t: int)
    requires Quiet(sys) && sys.shared.risk.orderTimes == [] && ClockAdvances(start, actions) && 0 <= cfg.maxOrdersPerMin
    requires var h := HistoryOf(cfg, sys, actions); |h.checks| == |h.trace| ==> OverlapAtMost(h, overlap)
    ensures var entries := EntriesOf(cfg, sys, actions);
            && WellTagged(entries) && Run(cfg, sys, actions).shared.risk.orderTimes == Kept([], Plain(entries))
            && CountOf(Surviving(entries), t) <= cfg.maxOrdersPerMin + overlap + Foreign(entries)
            && InWindow(UpTo(FullLog([], Plain(entries)), t), t) <= cfg.maxOrdersPerMin + overlap
  {
    RunKeepsHistory(cfg, sys, actions, start);
    RunTags(cfg, sys, actions);
    HistoryValidated(cfg.maxOrdersPerMin, start, HistoryOf(cfg, sys, actions), overlap);
    SurvivorsWithinLimit(cfg.maxOrdersPerMin, start, EntriesOf(cfg, sys, actions), HistoryOf(cfg, sys, actions).checks, overlap, t);
    RateLimitHolds(cfg.maxOrdersPerMin, start, HistoryOf(cfg, sys, actions).trace, HistoryOf(cfg, sys, actions).checks, overlap, t);
  }

  lemma HistoryValidated(max: int, start: int, h: History, overlap: nat)
    requires AllPassed(max, start, h) && OverlapAtMost(h, overlap)
    ensures Validated(max, start, h.trace, h.checks, overlap)
  {
    forall n | 0 <= n < |h.trace| && h.trace[n].Push?
      ensures LetThrough(max, start, h.trace, n, h.checks[n], overlap)
    {
      assert Passed(max, start, h.trace[..n], h.checks[n], h.trace[n].now);
      assert h.trace[..n][..h.checks[n].at] == h.trace[..h.checks[n].at];
    }
  }

  // And whenever the manager counts, it counts the entries not rolled back if and only if the
  // miscounts of the rollbacks so far cancel out.
  lemma CountOfRunIsRightIff(cfg: RiskConfig, sys: System, actions: seq<Action>, start: int, later: int)
    requires Quiet(sys) && sys.shared.risk.orderTimes == [] && ClockAdvances(start, actions) && Now(start, actions) <= later
    ensures var entries := EntriesOf(cfg, sys, actions);
            InWindow(Run(cfg, sys, actions).shared.risk.orderTimes, later) == CountOf(Surviving(entries), later)
            <==> Miscount(entries, later) == 0
  {
    RunKeepsHistory(cfg, sys, actions, start);
    RunTags(cfg, sys, actions);
    CountIsRightIff(start, EntriesOf(cfg, sys, actions), later);
  }
}
