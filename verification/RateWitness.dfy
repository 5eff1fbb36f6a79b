/** A run of the order protocol in which a rollback un-counts another call's entry, and the
    minute then holds one entry more than its limit although no two entries overlap.
    With one entry allowed a minute: A is opened and sent at 0 s. B is opened at 60 s, when A has
    just left the window. At 61 s A is rejected; its rollback drops the last time of the list,
    which is B's. So C finds an empty list at 62 s and is opened too, and both B and C are filled.
    The lemmas follow the book, the list and the entries through these phases, one phase at a
    time. */
module RateWitness {
  import opened Common
  import opened Charges
  import opened RiskModel
  import opened OrderProtocol
  import opened Throttle
  import opened Survivors
  import opened RateLimit
  import Witnesses

  function At(i: nat, seconds: int, answer: Answer): Action {
    Step(i, Env(seconds * SECOND, 10.0, true, answer))
  }

  const FILL := Witnesses.FILL

  function Rules(): RiskConfig { Witnesses.Rules() }
  function Fresh(): System { Witnesses.Session(map[]) }

  // Then check, intent and open, at one moment.
  function Enter(actions: seq<Action>, i: nat, seconds: int): seq<Action> {
    actions + [At(i, seconds, FILL)] + [At(i, seconds, FILL)] + [At(i, seconds, FILL)]
  }

  function Start(actions: seq<Action>, symbol: Symbol): seq<Action> {
    actions + [StartEntry(Witnesses.Request(symbol))]
  }

  function Start1(): seq<Action> { Start([], "A") }
  function Start2(): seq<Action> { Start(Start1(), "B") }
  function Starts(): seq<Action> { Start(Start2(), "C") }

  // A is opened and sent at 0 s; B opened at 60 s, just out of A's window; A rejected at 61 s,
  // which un-counts B; C checked and opened at 62 s; then B and C are sent and filled.
  function Opening1(): seq<Action> { Enter(Starts(), 0, 0) + [At(0, 0, FILL)] }
  function Opening2(): seq<Action> { Enter(Opening1(), 1, 60) }
  function Rejected1(): seq<Action> { Opening2() + [At(0, 61, Reject)] + [At(0, 61, Reject)] }
  function Opening3(): seq<Action> { Enter(Rejected1(), 2, 62) }
  function Filled1(): seq<Action> { Opening3() + [At(1, 63, FILL)] + [At(1, 63, FILL)] + [At(1, 63, FILL)] }
  function Whole(): seq<Action> { Filled1() + [At(2, 63, FILL)] + [At(2, 63, FILL)] + [At(2, 63, FILL)] }

  // ---- Phases ----

  lemma OneMore(actions: seq<Action>, a: Action)
    ensures Run(Rules(), Fresh(), actions + [a]) == Next(Rules(), Run(Rules(), Fresh(), actions), a)
    ensures HistoryOf(Rules(), Fresh(), actions + [a])
         == Extended(Rules(), Run(Rules(), Fresh(), actions), HistoryOf(Rules(), Fresh(), actions), a)
    ensures EntriesOf(Rules(), Fresh(), actions + [a])
         == EntriesOf(Rules(), Fresh(), actions) + TagFor(Rules(), Run(Rules(), Fresh(), actions), a)
  {
    assert (actions + [a])[..|actions|] == actions;
  }

  // An entry that finds room is checked, recorded and opened.
  lemma Enters(s: System, i: nat, symbol: Symbol, seconds: int)
    requires i < |s.calls| && s.calls[i] == NewEntry(Witnesses.Request(symbol))
    requires !s.shared.risk.killed && InWindow(s.shared.risk.orderTimes, seconds * SECOND) == 0 && FreeCapital(s.shared.risk) >= 10.0
    ensures var cfg, a := Rules(), At(i, seconds, FILL);
            var s1 := Next(cfg, s, a);
            var s2 := Next(cfg, s1, a);
            var s3 := Next(cfg, s2, a);
            && OpsOf(cfg, s, a) == [] && OpsOf(cfg, s1, a) == [] && OpsOf(cfg, s2, a) == [Push(seconds * SECOND)]
            && |s1.calls| == |s2.calls| == |s.calls|
            && s.calls[i].epc.EStart? && s1.calls[i].Entry? && s1.calls[i].epc.EIntent?
            && s2.calls[i].Entry? && s2.calls[i].epc.EOpen?
            && s3.shared.risk == OpenPosition(cfg, s.shared.risk, seconds * SECOND, symbol, 10.0, 1, OptCarry, Buy, 0.0)
            && |s3.calls| == |s.calls| && s3.calls == s.calls[i := s3.calls[i]]
            && s3.calls[i].Entry? && s3.calls[i].epc.ESend? && s3.calls[i].req == Witnesses.Request(symbol)
  {
    var cfg, a := Rules(), At(i, seconds, FILL);
    var s1 := Next(cfg, s, a);
    assert s1.calls[i].epc.EIntent? && s1.shared == s.shared && s1.calls[i].price == 10.0;
    var s2 := Next(cfg, s1, a);
    assert s2.calls[i].epc.EOpen? && s2.shared.risk == s.shared.risk && s2.calls[i].price == 10.0;
  }

  lemma EnterPhase(actions: seq<Action>, i: nat, symbol: Symbol, seconds: int)
    requires var s := Run(Rules(), Fresh(), actions);
             && i < |s.calls| && s.calls[i] == NewEntry(Witnesses.Request(symbol))
             && !s.shared.risk.killed && InWindow(s.shared.risk.orderTimes, seconds * SECOND) == 0 && FreeCapital(s.shared.risk) >= 10.0
    ensures var s, s' := Run(Rules(), Fresh(), actions), Run(Rules(), Fresh(), Enter(actions, i, seconds));
            && s'.shared.risk == OpenPosition(Rules(), s.shared.risk, seconds * SECOND, symbol, 10.0, 1, OptCarry, Buy, 0.0)
            && |s'.calls| == |s.calls| && s'.calls == s.calls[i := s'.calls[i]]
            && s'.calls[i].Entry? && s'.calls[i].epc.ESend? && s'.calls[i].req == Witnesses.Request(symbol)
    ensures var h, h' := HistoryOf(Rules(), Fresh(), actions), HistoryOf(Rules(), Fresh(), Enter(actions, i, seconds));
            h'.trace == h.trace + [Push(seconds * SECOND)] && h'.checks == h.checks + [Check(|h.trace|, seconds * SECOND)]
    ensures EntriesOf(Rules(), Fresh(), Enter(actions, i, seconds))
         == EntriesOf(Rules(), Fresh(), actions) + [Made(i, seconds * SECOND)]
  {
    var a, s := At(i, seconds, FILL), Run(Rules(), Fresh(), actions);
    Enters(s, i, symbol, seconds);
    OneMore(actions, a);
    OneMore(actions + [a], a);
    OneMore(actions + [a] + [a], a);
    var h := HistoryOf(Rules(), Fresh(), actions);
    var h1 := HistoryOf(Rules(), Fresh(), actions + [a]);
    assert h1.trace == h.trace + [] == h.trace && h1.checks == h.checks + [] == h.checks;
    assert h1.latest[i] == Check(|h.trace|, seconds * SECOND);
    var h2 := HistoryOf(Rules(), Fresh(), actions + [a] + [a]);
    assert h2.trace == h.trace + [] == h.trace && h2.checks == h.checks + [] == h.checks && h2.latest == h1.latest;
    var e := EntriesOf(Rules(), Fresh(), actions);
    assert e + [] + [] == e;
  }

  // A step that leaves the throttle alone leaves its history too.
  lemma QuietPhase(actions: seq<Action>, a: Action)
    requires OpsOf(Rules(), Run(Rules(), Fresh(), actions), a) == []
    ensures var h, h' := HistoryOf(Rules(), Fresh(), actions), HistoryOf(Rules(), Fresh(), actions + [a]);
            h'.trace == h.trace && h'.checks == h.checks
    ensures EntriesOf(Rules(), Fresh(), actions + [a]) == EntriesOf(Rules(), Fresh(), actions)
    ensures Run(Rules(), Fresh(), actions + [a]) == Next(Rules(), Run(Rules(), Fresh(), actions), a)
  {
    OneMore(actions, a);
    var h, e := HistoryOf(Rules(), Fresh(), actions), EntriesOf(Rules(), Fresh(), actions);
    assert h.trace + [] == h.trace && h.checks + [] == h.checks && e + [] == e;
  }

  // A call that has opened is sent.
  lemma SendPhase(actions: seq<Action>, i: nat, a: Action)
    requires var s := Run(Rules(), Fresh(), actions);
             i < |s.calls| && s.calls[i].Entry? && s.calls[i].epc.ESend? && a.Step? && a.caller == i
    ensures var s, s' := Run(Rules(), Fresh(), actions), Run(Rules(), Fresh(), actions + [a]);
            && s'.shared.risk == s.shared.risk && |s'.calls| == |s.calls| && s'.calls == s.calls[i := s'.calls[i]]
            && s'.calls[i].Entry? && s'.calls[i].epc.EWait? && s'.calls[i].req == s.calls[i].req
    ensures var h, h' := HistoryOf(Rules(), Fresh(), actions), HistoryOf(Rules(), Fresh(), actions + [a]);
            h'.trace == h.trace && h'.checks == h.checks
    ensures EntriesOf(Rules(), Fresh(), actions + [a]) == EntriesOf(Rules(), Fresh(), actions)
  {
    QuietPhase(actions, a);
  }

  // ---- The book and the list along the run ----

  function Opened0(r: RiskState, seconds: int, symbol: Symbol): RiskState {
    OpenPosition(Rules(), r, seconds * SECOND, symbol, 10.0, 1, OptCarry, Buy, 0.0)
  }

  // What matters of a book: who is held since when, the list, and the free capital.
  predicate Looks(r: RiskState, held: map<Symbol, int>, times: seq<int>, free: real) {
    && r.open.Keys == held.Keys && (forall x :: x in held ==> r.open[x].entryTime == held[x] && r.open[x].lockedCapital == 10.0
                                                              && r.open[x].tradeType == OptCarry && r.open[x].margin == 0.0)
    && r.orderTimes == times && FreeCapital(r) == free && !r.killed
  }

  lemma OpenLooks(r: RiskState, held: map<Symbol, int>, times: seq<int>, free: real, seconds: int, symbol: Symbol)
    requires Looks(r, held, times, free)
    ensures Looks(Opened0(r, seconds, symbol), held[symbol := seconds], Prune(times, seconds * SECOND) + [seconds * SECOND], free - 10.0)
  {
  }

  lemma RollbackLooks(r: RiskState, held: map<Symbol, int>, times: seq<int>, free: real, symbol: Symbol)
    requires Looks(r, held, times, free) && symbol in held && times != []
    ensures Looks(Rollback(r, symbol), held - {symbol}, times[..|times| - 1], free + 10.0)
  {
  }

  lemma FillLooks(r: RiskState, held: map<Symbol, int>, times: seq<int>, free: real, symbol: Symbol)
    requires Looks(r, held, times, free) && symbol in held
    ensures Looks(UpdatePrice(Rules(), r, symbol, 10.0, 1), held, times, free)
  {
    assert UpdatePrice(Rules(), r, symbol, 10.0, 1).open[symbol].lockedCapital == 10.0;
  }

  // Book and history of the run after some actions.
  ghost predicate Stage(actions: seq<Action>, held: map<Symbol, int>, times: seq<int>, free: real,
                        trace: seq<ThrottleOp>, checks: seq<Check>, entries: seq<Tagged>) {
    && Looks(Run(Rules(), Fresh(), actions).shared.risk, held, times, free)
    && HistoryOf(Rules(), Fresh(), actions).trace == trace
    && HistoryOf(Rules(), Fresh(), actions).checks == checks
    && EntriesOf(Rules(), Fresh(), actions) == entries
  }

  predicate Awaits(actions: seq<Action>, i: nat, symbol: Symbol, pc: EntryPc) {
    var calls := Run(Rules(), Fresh(), actions).calls;
    i < |calls| && calls[i].Entry? && calls[i].epc == pc && calls[i].req == Witnesses.Request(symbol)
  }

  predicate IsNew(actions: seq<Action>, i: nat, symbol: Symbol) {
    var calls := Run(Rules(), Fresh(), actions).calls;
    i < |calls| && calls[i] == NewEntry(Witnesses.Request(symbol))
  }

  // Calls other than i are as they were.
  predicate OthersSame(actions: seq<Action>, longer: seq<Action>, i: nat) {
    var calls, calls' := Run(Rules(), Fresh(), actions).calls, Run(Rules(), Fresh(), longer).calls;
    i < |calls| == |calls'| && calls' == calls[i := calls'[i]]
  }

  lemma OthersStay(actions: seq<Action>, longer: seq<Action>, i: nat, j: nat, symbol: Symbol, pc: EntryPc)
    requires OthersSame(actions, longer, i) && j != i
    ensures Awaits(actions, j, symbol, pc) ==> Awaits(longer, j, symbol, pc)
    ensures IsNew(actions, j, symbol) ==> IsNew(longer, j, symbol)
  {
  }

  lemma EnterStage(actions: seq<Action>, i: nat, symbol: Symbol, seconds: int, held: map<Symbol, int>, times: seq<int>, free: real,
                   trace: seq<ThrottleOp>, checks: seq<Check>, entries: seq<Tagged>)
    requires Stage(actions, held, times, free, trace, checks, entries) && IsNew(actions, i, symbol)
    requires InWindow(times, seconds * SECOND) == 0 && free >= 10.0
    ensures var longer := Enter(actions, i, seconds);
            && Stage(longer, held[symbol := seconds], Prune(times, seconds * SECOND) + [seconds * SECOND], free - 10.0,
                     trace + [Push(seconds * SECOND)], checks + [Check(|trace|, seconds * SECOND)], entries + [Made(i, seconds * SECOND)])
            && Awaits(longer, i, symbol, ESend) && OthersSame(actions, longer, i)
  {
    EnterPhase(actions, i, symbol, seconds);
    OpenLooks(Run(Rules(), Fresh(), actions).shared.risk, held, times, free, seconds, symbol);
  }

  lemma SendStage(actions: seq<Action>, i: nat, symbol: Symbol, a: Action, held: map<Symbol, int>, times: seq<int>, free: real,
                  trace: seq<ThrottleOp>, checks: seq<Check>, entries: seq<Tagged>)
    requires Stage(actions, held, times, free, trace, checks, entries) && Awaits(actions, i, symbol, ESend)
    requires a.Step? && a.caller == i
    ensures Stage(actions + [a], held, times, free, trace, checks, entries)
    ensures Awaits(actions + [a], i, symbol, EWait) && OthersSame(actions, actions + [a], i)
  {
    SendPhase(actions, i, a);
  }

  lemma AnswerStage(actions: seq<Action>, i: nat, symbol: Symbol, a: Action, held: map<Symbol, int>, times: seq<int>, free: real,
                    trace: seq<ThrottleOp>, checks: seq<Check>, entries: seq<Tagged>)
    requires Stage(actions, held, times, free, trace, checks, entries) && Awaits(actions, i, symbol, EWait)
    requires a.Step? && a.caller == i && !a.env.answer.Unknown?
    ensures Stage(actions + [a], held, times, free, trace, checks, entries)
    ensures Awaits(actions + [a], i, symbol, if a.env.answer.Reject? then ERollback else EFill) && OthersSame(actions, actions + [a], i)
    ensures Run(Rules(), Fresh(), actions + [a]).calls[i].reply == Some(a.env.answer)
  {
    QuietPhase(actions, a);
  }

  lemma RollbackStage(actions: seq<Action>, i: nat, symbol: Symbol, a: Action, held: map<Symbol, int>, times: seq<int>, free: real,
                      trace: seq<ThrottleOp>, checks: seq<Check>, entries: seq<Tagged>)
    returns (check: Check)
    requires Stage(actions, held, times, free, trace, checks, entries) && Awaits(actions, i, symbol, ERollback)
    requires a.Step? && a.caller == i && symbol in held && times != []
    ensures Stage(actions + [a], held - {symbol}, times[..|times| - 1], free + 10.0, trace + [Pop], checks + [check], entries + [TakenBack(i)])
    ensures OthersSame(actions, actions + [a], i)
  {
    OneMore(actions, a);
    RollbackLooks(Run(Rules(), Fresh(), actions).shared.risk, held, times, free, symbol);
    check := HistoryOf(Rules(), Fresh(), actions + [a]).checks[|checks|];
  }

  // Rejected, then rolled back.
  lemma RejectStage(actions: seq<Action>, i: nat, symbol: Symbol, a: Action, held: map<Symbol, int>, times: seq<int>, free: real,
                    trace: seq<ThrottleOp>, checks: seq<Check>, entries: seq<Tagged>)
    returns (check: Check)
    requires Stage(actions, held, times, free, trace, checks, entries) && Awaits(actions, i, symbol, EWait)
    requires a.Step? && a.caller == i && a.env.answer.Reject? && symbol in held && times != []
    ensures Stage(actions + [a] + [a], held - {symbol}, times[..|times| - 1], free + 10.0, trace + [Pop], checks + [check], entries + [TakenBack(i)])
    ensures OthersSame(actions, actions + [a] + [a], i)
  {
    AnswerStage(actions, i, symbol, a, held, times, free, trace, checks, entries);
    check := RollbackStage(actions + [a], i, symbol, a, held, times, free, trace, checks, entries);
  }

  lemma Corrects(s: System, i: nat, symbol: Symbol, a: Action)
    requires i < |s.calls| && s.calls[i].Entry? && s.calls[i].epc.EFill? && s.calls[i].req.symbol == symbol
    requires s.calls[i].reply == Some(FILL) && a.Step? && a.caller == i
    ensures var s' := Next(Rules(), s, a);
            && OpsOf(Rules(), s, a) == [] && s'.shared.risk == UpdatePrice(Rules(), s.shared.risk, symbol, 10.0, 1)
            && |s'.calls| == |s.calls| && s'.calls == s.calls[i := s'.calls[i]]
  {
  }

  lemma CorrectStage(actions: seq<Action>, i: nat, symbol: Symbol, a: Action, held: map<Symbol, int>, times: seq<int>, free: real,
                     trace: seq<ThrottleOp>, checks: seq<Check>, entries: seq<Tagged>)
    requires Stage(actions, held, times, free, trace, checks, entries) && Awaits(actions, i, symbol, EFill)
    requires Run(Rules(), Fresh(), actions).calls[i].reply == Some(FILL) && a.Step? && a.caller == i && symbol in held
    ensures Stage(actions + [a], held, times, free, trace, checks, entries)
    ensures OthersSame(actions, actions + [a], i)
  {
    Corrects(Run(Rules(), Fresh(), actions), i, symbol, a);
    QuietPhase(actions, a);
    FillLooks(Run(Rules(), Fresh(), actions).shared.risk, held, times, free, symbol);
  }

  // Sent, filled and corrected.
  lemma FillStage(actions: seq<Action>, i: nat, symbol: Symbol, held: map<Symbol, int>, times: seq<int>, free: real,
                  trace: seq<ThrottleOp>, checks: seq<Check>, entries: seq<Tagged>)
    requires Stage(actions, held, times, free, trace, checks, entries) && Awaits(actions, i, symbol, ESend) && symbol in held
    ensures var a := At(i, 63, FILL);
            && Stage(actions + [a] + [a] + [a], held, times, free, trace, checks, entries)
            && OthersSame(actions, actions + [a] + [a] + [a], i)
  {
    var a := At(i, 63, FILL);
    SendStage(actions, i, symbol, a, held, times, free, trace, checks, entries);
    AnswerStage(actions + [a], i, symbol, a, held, times, free, trace, checks, entries);
    CorrectStage(actions + [a] + [a], i, symbol, a, held, times, free, trace, checks, entries);
  }

  // ---- The run ----

  predicate CallCount(actions: seq<Action>, n: nat) {
    |Run(Rules(), Fresh(), actions).calls| == n
  }

  lemma StartStage(actions: seq<Action>, symbol: Symbol, n: nat)
    requires Stage(actions, map[], [], 1000.0, [], [], []) && CallCount(actions, n)
    ensures Stage(Start(actions, symbol), map[], [], 1000.0, [], [], []) && CallCount(Start(actions, symbol), n + 1)
    ensures IsNew(Start(actions, symbol), n, symbol)
  {
    QuietPhase(actions, StartEntry(Witnesses.Request(symbol)));
  }

  lemma NewStays(actions: seq<Action>, symbol: Symbol, i: nat, other: Symbol)
    requires IsNew(actions, i, other)
    ensures IsNew(Start(actions, symbol), i, other)
  {
    OneMore(actions, StartEntry(Witnesses.Request(symbol)));
  }

  lemma FirstStage()
    ensures Stage(Start1(), map[], [], 1000.0, [], [], []) && CallCount(Start1(), 1) && IsNew(Start1(), 0, "A")
  {
    FreshStage([]);
    StartStage([], "A", 0);
  }

  lemma SecondStage()
    ensures Stage(Start2(), map[], [], 1000.0, [], [], []) && CallCount(Start2(), 2)
    ensures IsNew(Start2(), 0, "A") && IsNew(Start2(), 1, "B")
  {
    FirstStage();
    StartStage(Start1(), "B", 1);
    NewStays(Start1(), "B", 0, "A");
  }

  lemma StartsStage()
    ensures Stage(Starts(), map[], [], 1000.0, [], [], [])
    ensures IsNew(Starts(), 0, "A") && IsNew(Starts(), 1, "B") && IsNew(Starts(), 2, "C")
  {
    SecondStage();
    StartStage(Start2(), "C", 2);
    NewStays(Start2(), "C", 0, "A");
    NewStays(Start2(), "C", 1, "B");
  }

  lemma FreshStage(none: seq<Action>)
    requires none == []
    ensures Stage(none, map[], [], 1000.0, [], [], []) && Run(Rules(), Fresh(), none).calls == []
  {
  }

  lemma UpToOpening1()
    ensures Stage(Opening1(), map["A" := 0], [0], 990.0, [Push(0)], [Check(0, 0)], [Made(0, 0)])
    ensures Awaits(Opening1(), 0, "A", EWait) && IsNew(Opening1(), 1, "B") && IsNew(Opening1(), 2, "C")
  {
    StartsStage();
    EnterStage(Starts(), 0, "A", 0, map[], [], 1000.0, [], [], []);
    var opened1 := Enter(Starts(), 0, 0);
    assert map[]["A" := 0] == map["A" := 0] && Prune([], 0) + [0] == [0];
    assert Stage(opened1, map["A" := 0], [0], 990.0, [Push(0)], [Check(0, 0)], [Made(0, 0)]);
    SendStage(opened1, 0, "A", At(0, 0, FILL), map["A" := 0], [0], 990.0, [Push(0)], [Check(0, 0)], [Made(0, 0)]);
    OthersStay(Starts(), opened1, 0, 1, "B", ESend);
    OthersStay(Starts(), opened1, 0, 2, "C", ESend);
    OthersStay(opened1, Opening1(), 0, 1, "B", ESend);
    OthersStay(opened1, Opening1(), 0, 2, "C", ESend);
  }

  lemma PrunedAway()
    ensures Prune([0], 60 * SECOND) + [60 * SECOND] == [60 * SECOND]
  {
    assert [0][1..] == [];
  }

  lemma BOpens()
    ensures Stage(Opening2(), map["A" := 0]["B" := 60], Prune([0], 60 * SECOND) + [60 * SECOND], 980.0,
                  [Push(0)] + [Push(60 * SECOND)], [Check(0, 0)] + [Check(1, 60 * SECOND)], [Made(0, 0)] + [Made(1, 60 * SECOND)])
    ensures Awaits(Opening2(), 0, "A", EWait) && Awaits(Opening2(), 1, "B", ESend) && IsNew(Opening2(), 2, "C")
  {
    UpToOpening1();
    WindowOfOne(0, 60 * SECOND);
    EnterStage(Opening1(), 1, "B", 60, map["A" := 0], [0], 990.0, [Push(0)], [Check(0, 0)], [Made(0, 0)]);
    OthersStay(Opening1(), Opening2(), 1, 0, "A", EWait);
    OthersStay(Opening1(), Opening2(), 1, 2, "C", ESend);
  }

  lemma UpToOpening2()
    ensures Stage(Opening2(), map["A" := 0, "B" := 60], [60 * SECOND], 980.0, [Push(0), Push(60 * SECOND)],
                  [Check(0, 0), Check(1, 60 * SECOND)], [Made(0, 0), Made(1, 60 * SECOND)])
    ensures Awaits(Opening2(), 0, "A", EWait) && Awaits(Opening2(), 1, "B", ESend) && IsNew(Opening2(), 2, "C")
  {
    BOpens();
    PrunedAway();
    assert map["A" := 0]["B" := 60] == map["A" := 0, "B" := 60];
  }

  lemma UpToRejected1() returns (check: Check)
    ensures Stage(Rejected1(), map["B" := 60], [], 990.0, [Push(0), Push(60 * SECOND), Pop],
                  [Check(0, 0), Check(1, 60 * SECOND), check], [Made(0, 0), Made(1, 60 * SECOND), TakenBack(0)])
    ensures Awaits(Rejected1(), 1, "B", ESend) && IsNew(Rejected1(), 2, "C")
  {
    UpToOpening2();
    var held, trace, checks := map["A" := 0, "B" := 60], [Push(0), Push(60 * SECOND)], [Check(0, 0), Check(1, 60 * SECOND)];
    var a, entries := At(0, 61, Reject), [Made(0, 0), Made(1, 60 * SECOND)];
    check := RejectStage(Opening2(), 0, "A", a, held, [60 * SECOND], 980.0, trace, checks, entries);
    assert held - {"A"} == map["B" := 60] && [60 * SECOND][..0] == [];
    OthersStay(Opening2(), Rejected1(), 0, 1, "B", ESend);
    OthersStay(Opening2(), Rejected1(), 0, 2, "C", ESend);
  }

  lemma UpToOpening3() returns (check: Check)
    ensures Stage(Opening3(), map["B" := 60, "C" := 62], [62 * SECOND], 980.0, [Push(0), Push(60 * SECOND), Pop, Push(62 * SECOND)],
                  [Check(0, 0), Check(1, 60 * SECOND), check, Check(3, 62 * SECOND)],
                  [Made(0, 0), Made(1, 60 * SECOND), TakenBack(0), Made(2, 62 * SECOND)])
    ensures Awaits(Opening3(), 1, "B", ESend) && Awaits(Opening3(), 2, "C", ESend)
  {
    check := UpToRejected1();
    EnterStage(Rejected1(), 2, "C", 62, map["B" := 60], [], 990.0, [Push(0), Push(60 * SECOND), Pop],
               [Check(0, 0), Check(1, 60 * SECOND), check], [Made(0, 0), Made(1, 60 * SECOND), TakenBack(0)]);
    assert Prune([], 62 * SECOND) + [62 * SECOND] == [62 * SECOND];
    assert map["B" := 60]["C" := 62] == map["B" := 60, "C" := 62];
    OthersStay(Rejected1(), Opening3(), 2, 1, "B", ESend);
  }

  lemma UpToWhole() returns (check: Check)
    ensures Stage(Whole(), map["B" := 60, "C" := 62], [62 * SECOND], 980.0, [Push(0), Push(60 * SECOND), Pop, Push(62 * SECOND)],
                  [Check(0, 0), Check(1, 60 * SECOND), check, Check(3, 62 * SECOND)],
                  [Made(0, 0), Made(1, 60 * SECOND), TakenBack(0), Made(2, 62 * SECOND)])
  {
    check := UpToOpening3();
    var held, trace := map["B" := 60, "C" := 62], [Push(0), Push(60 * SECOND), Pop, Push(62 * SECOND)];
    var checks := [Check(0, 0), Check(1, 60 * SECOND), check, Check(3, 62 * SECOND)];
    var entries := [Made(0, 0), Made(1, 60 * SECOND), TakenBack(0), Made(2, 62 * SECOND)];
    FillStage(Opening3(), 1, "B", held, [62 * SECOND], 980.0, trace, checks, entries);
    OthersStay(Opening3(), Filled1(), 1, 2, "C", ESend);
    FillStage(Filled1(), 2, "C", held, [62 * SECOND], 980.0, trace, checks, entries);
  }

  // The book ends holding B since 60 s and C since 62 s, the list holding C's time only. No
  // entry opened between another's check and open, one rollback un-counted another entry, and
  // the minute that allows one entry has two.
  lemma UncountedEntryBeatsTheLimit()
    ensures Rules().maxOrdersPerMin == 1
    ensures var r := Run(Rules(), Fresh(), Whole()).shared.risk;
            && r.open.Keys == {"B", "C"} && r.open["B"].entryTime == 60 && r.open["C"].entryTime == 62
            && r.orderTimes == [62 * SECOND]
    ensures var h, entries := HistoryOf(Rules(), Fresh(), Whole()), EntriesOf(Rules(), Fresh(), Whole());
            && |h.checks| == |h.trace| && OverlapAtMost(h, 0) && Foreign(entries) == 1
            && Surviving(entries) == map[1 := 60 * SECOND, 2 := 62 * SECOND]
            && CountOf(Surviving(entries), 62 * SECOND) == 2
  {
    var check := UpToWhole();
    EntriesCounted();
    NoOverlap(HistoryOf(Rules(), Fresh(), Whole()), check);
  }

  lemma NoOverlap(h: History, check: Check)
    requires h.trace == [Push(0), Push(60 * SECOND), Pop, Push(62 * SECOND)]
    requires h.checks == [Check(0, 0), Check(1, 60 * SECOND), check, Check(3, 62 * SECOND)]
    ensures OverlapAtMost(h, 0)
  {
    forall n | 0 <= n < |h.trace| && h.trace[n].Push? && h.checks[n].at <= n
      ensures Pushes(h.trace[h.checks[n].at..n]) <= 0
    {
      assert h.trace[h.checks[n].at..n] == [];
    }
  }

  lemma EntriesCounted()
    ensures var entries := [Made(0, 0), Made(1, 60 * SECOND), TakenBack(0), Made(2, 62 * SECOND)];
            && Foreign(entries) == 1 && Surviving(entries) == map[1 := 60 * SECOND, 2 := 62 * SECOND]
            && CountOf(Surviving(entries), 62 * SECOND) == 2
  {
    var e0: seq<Tagged> := [];
    var e1 := [Made(0, 0)];
    var e2 := [Made(0, 0), Made(1, 60 * SECOND)];
    var e3 := [Made(0, 0), Made(1, 60 * SECOND), TakenBack(0)];
    var e4 := [Made(0, 0), Made(1, 60 * SECOND), TakenBack(0), Made(2, 62 * SECOND)];
    assert e1[..0] == e0 && e2[..1] == e1 && e3[..2] == e2 && e4[..3] == e3;
    assert LogOf(e1) == [Survivors.Entry(0, 0)];
    assert LogOf(e2) == [Survivors.Entry(0, 0), Survivors.Entry(1, 60 * SECOND)];
    assert Surviving(e2) == map[0 := 0, 1 := 60 * SECOND];
    assert Surviving(e3) == map[1 := 60 * SECOND];
    assert Foreign(e1) == 0 && Foreign(e2) == 0;
    assert e3[2] == TakenBack(0) && LogOf(e2)[1].id == 1;
    assert DropsAnother(e2, e3[2]);
    assert Foreign(e3) == 1;
    assert Foreign(e4) == 1;
    assert Within(Surviving(e4), 62 * SECOND) == {1, 2};
  }
}
