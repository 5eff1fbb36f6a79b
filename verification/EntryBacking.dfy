/** Whether what an exit sells was ever bought: an entry enters the risk book before it is sent. */
module EntryBacking {
  import opened Common
  import opened RiskModel
  import opened OrderProtocol
  import opened ExitSafety

  // An entry of the symbol was filled, or may have been.
  predicate IsEntryFill(e: Event, symbol: Symbol) {
    e.EntryAnswered? && e.symbol == symbol && !e.answer.Reject?
  }

  // One was, since the symbol's latest filled exit.
  predicate BackedSinceExit(log: seq<Event>, symbol: Symbol) {
    if log == [] then false
    else
      var e := log[|log| - 1];
      if IsEntryFill(e, symbol) then true
      else if IsExitFill(e, symbol) then false
      else BackedSinceExit(log[..|log| - 1], symbol)
  }

  // The entry is in the risk book and the broker has not answered, or its rejection has not
  // been taken back yet.
  predicate Unsettled(c: Call, symbol: Symbol) {
    c.Entry? && c.req.symbol == symbol && (c.epc.ESend? || c.epc.EWait? || c.epc.ERollback?)
  }

  ghost predicate SomeoneEnters(sys: System, symbol: Symbol) {
    exists i :: 0 <= i < |sys.calls| && Unsettled(sys.calls[i], symbol)
  }

  // A held position is backed, unless an entry of it is unsettled or its exit is closing it.
  ghost predicate BookBacked(sys: System) {
    forall s :: s in sys.shared.risk.open ==>
      BackedSinceExit(sys.shared.log, s) || SomeoneEnters(sys, s) || SomeoneCloses(sys, s)
  }

  lemma BackedAppend(log: seq<Event>, events: seq<Event>, symbol: Symbol)
    requires |events| <= 1
    ensures BackedSinceExit(log + events, symbol)
         == if events == [] then BackedSinceExit(log, symbol)
            else IsEntryFill(events[0], symbol) || (!IsExitFill(events[0], symbol) && BackedSinceExit(log, symbol))
  {
    if events == [] {
      assert log + events == log;
    } else {
      assert (log + events)[..|log|] == log;
    }
  }

  // What a step can do to an entry's standing.
  ghost predicate EntryShape(sys: System, sys': System, caller: nat, events: seq<Event>)
    requires caller < |sys.calls| == |sys'.calls|
  {
    var (c, c') := (sys.calls[caller], sys'.calls[caller]);
    && (forall s :: events == [Opened(s)] ==> Unsettled(c', s))
    && (forall s :: Unsettled(c, s) ==>
          || Unsettled(c', s) || s !in sys'.shared.risk.open
          || (events != [] && IsEntryFill(events[0], s)))
  }

  lemma StepHasEntryShape(cfg: RiskConfig, sys: System, caller: nat, env: Env)
    requires caller < |sys.calls|
    ensures EntryShape(sys, Next(cfg, sys, Step(caller, env)), caller, StepEvents(cfg, sys.shared, sys.calls[caller], env))
  {
  }

  lemma BackingFollows(sys: System, sys': System, caller: nat, events: seq<Event>)
    requires BookBacked(sys) && StepShape(sys, sys', caller, events) && EntryShape(sys, sys', caller, events)
    ensures BookBacked(sys')
  {
    forall s | s in sys'.shared.risk.open
      ensures BackedSinceExit(sys'.shared.log, s) || SomeoneEnters(sys', s) || SomeoneCloses(sys', s)
    {
      BackedAppend(sys.shared.log, events, s);
      if events == [Opened(s)] {
        assert Unsettled(sys'.calls[caller], s);
      } else if events != [] && IsExitFill(events[0], s) {
        assert Closing(sys'.calls[caller]);
      } else if SomeoneEnters(sys, s) {
        var i :| 0 <= i < |sys.calls| && Unsettled(sys.calls[i], s);
        assert i != caller ==> Unsettled(sys'.calls[i], s);
      } else if SomeoneCloses(sys, s) {
        var i :| 0 <= i < |sys.calls| && Closing(sys.calls[i]) && sys.calls[i].symbol == s;
        assert i != caller && Closing(sys'.calls[i]);
      }
    }
  }

  lemma NextKeepsBacking(cfg: RiskConfig, sys: System, a: Action)
    requires BookBacked(sys) && ClosersHaveReply(sys)
    ensures BookBacked(Next(cfg, sys, a))
  {
    var sys' := Next(cfg, sys, a);
    if a.Step? && a.caller < |sys.calls| {
      StepHasShape(cfg, sys, a.caller, a.env);
      StepHasEntryShape(cfg, sys, a.caller, a.env);
      BackingFollows(sys, sys', a.caller, StepEvents(cfg, sys.shared, sys.calls[a.caller], a.env));
    } else {
      OthersKeepBacking(sys, sys');
    }
  }

  lemma OthersKeepBacking(sys: System, sys': System)
    requires BookBacked(sys) && sys'.shared.log == sys.shared.log && sys'.shared.risk.open.Keys == sys.shared.risk.open.Keys
    requires |sys.calls| <= |sys'.calls| && sys'.calls[..|sys.calls|] == sys.calls
    ensures BookBacked(sys')
  {
    forall s | s in sys'.shared.risk.open
      ensures BackedSinceExit(sys'.shared.log, s) || SomeoneEnters(sys', s) || SomeoneCloses(sys', s)
    {
      if SomeoneEnters(sys, s) {
        var i :| 0 <= i < |sys.calls| && Unsettled(sys.calls[i], s);
        assert sys'.calls[i] == sys.calls[i];
      } else if SomeoneCloses(sys, s) {
        var i :| 0 <= i < |sys.calls| && Closing(sys.calls[i]) && sys.calls[i].symbol == s;
        assert sys'.calls[i] == sys.calls[i];
      }
    }
  }

  // A session that starts with an empty log and nothing held.
  ghost predicate Fresh(sys: System) {
    Quiet(sys) && sys.shared.log == [] && sys.shared.risk.open == map[]
  }

  lemma {:induction false} RunKeepsBacking(cfg: RiskConfig, sys: System, actions: seq<Action>)
    requires Fresh(sys)
    ensures BookBacked(Run(cfg, sys, actions))
    decreases |actions|
  {
    if actions != [] {
      var n := |actions| - 1;
      RunKeepsBacking(cfg, sys, actions[..n]);
      RunKeepsLog(cfg, sys, actions[..n]);
      NextKeepsBacking(cfg, Run(cfg, sys, actions[..n]), actions[n]);
    }
  }

  // ---- When an exit may look ----

  // The exit's next step finds a position.
  predicate Looks(sys: System, i: nat) {
    i < |sys.calls| && sys.calls[i].Exit? && sys.calls[i].xpc.XLookup? && sys.calls[i].symbol in sys.shared.risk.open
  }

  // In any run of a fresh session, an exit that finds a position while no entry of the symbol
  // is unsettled finds a backed one.
  lemma SettledLookIsBacked(cfg: RiskConfig, sys: System, actions: seq<Action>, i: nat)
    requires Fresh(sys) && Looks(Run(cfg, sys, actions), i)
    requires !SomeoneEnters(Run(cfg, sys, actions), Run(cfg, sys, actions).calls[i].symbol)
    ensures BackedSinceExit(Run(cfg, sys, actions).shared.log, Run(cfg, sys, actions).calls[i].symbol)
  {
    var last := Run(cfg, sys, actions);
    RunKeepsBacking(cfg, sys, actions);
    RunKeepsFlags(cfg, sys, actions);
    CloserHolds(last, last.calls[i].symbol, i);
  }

  // ---- Every filled exit has its own entry ----

  // Every filled exit of the log comes after an entry of its own.
  predicate ExitsBacked(log: seq<Event>) {
    log == [] ||
    (var n := |log| - 1;
     ExitsBacked(log[..n])
     && (log[n].ExitAnswered? && log[n].answer.Fill? ==> BackedSinceExit(log[..n], log[n].symbol)))
  }

  // No exit of the run looked a position up while an entry of its symbol was unsettled.
  ghost predicate LooksSettled(cfg: RiskConfig, sys: System, actions: seq<Action>) {
    actions == [] ||
    (var n := |actions| - 1;
     var before := Run(cfg, sys, actions[..n]);
     LooksSettled(cfg, sys, actions[..n])
     && (actions[n].Step? && Looks(before, actions[n].caller) ==>
           !SomeoneEnters(before, before.calls[actions[n].caller].symbol)))
  }

  ghost predicate ExitsHaveEntries(sys: System) {
    && ExitsBacked(sys.shared.log)
    && forall i :: 0 <= i < |sys.calls| && Committed(sys.calls[i]) ==> BackedSinceExit(sys.shared.log, sys.calls[i].symbol)
  }

  lemma ExitsBackedAppend(log: seq<Event>, events: seq<Event>)
    requires |events| <= 1
    ensures ExitsBacked(log + events)
         == (ExitsBacked(log)
             && (events != [] && events[0].ExitAnswered? && events[0].answer.Fill? ==> BackedSinceExit(log, events[0].symbol)))
  {
    if events == [] {
      assert log + events == log;
    } else {
      assert (log + events)[..|log|] == log;
    }
  }

  lemma EntriesFollow(sys: System, sys': System, caller: nat, events: seq<Event>)
    requires FlagsExact(sys) && ExitsHaveEntries(sys) && StepShape(sys, sys', caller, events)
    requires Looks(sys, caller) ==> BackedSinceExit(sys.shared.log, sys.calls[caller].symbol)
    ensures ExitsHaveEntries(sys')
  {
    ExitsBackedAppend(sys.shared.log, events);
    forall i | 0 <= i < |sys'.calls| && Committed(sys'.calls[i])
      ensures BackedSinceExit(sys'.shared.log, sys'.calls[i].symbol)
    {
      BackedAppend(sys.shared.log, events, sys'.calls[i].symbol);
      if i != caller {
        assert Committed(sys.calls[i]) && Holds(sys.calls[i]);
        assert sys.calls[caller].Exit? && sys.calls[caller].xpc.XWait? ==> Holds(sys.calls[caller]);
      }
    }
  }

  lemma {:induction false} RunKeepsEntries(cfg: RiskConfig, sys: System, actions: seq<Action>)
    requires Fresh(sys) && LooksSettled(cfg, sys, actions)
    ensures ExitsHaveEntries(Run(cfg, sys, actions))
    decreases |actions|
  {
    if actions != [] {
      var n := |actions| - 1;
      var a, before := actions[n], Run(cfg, sys, actions[..n]);
      RunKeepsEntries(cfg, sys, actions[..n]);
      if a.Step? && a.caller < |before.calls| {
        RunKeepsLog(cfg, sys, actions[..n]);
        RunKeepsFlags(cfg, sys, actions[..n]);
        StepHasShape(cfg, before, a.caller, a.env);
        if Looks(before, a.caller) {
          SettledLookIsBacked(cfg, sys, actions[..n], a.caller);
        }
        EntriesFollow(before, Run(cfg, sys, actions), a.caller, StepEvents(cfg, before.shared, before.calls[a.caller], a.env));
      }
    }
  }

  lemma {:induction false} BackedAt(log: seq<Event>, j: int)
    requires ExitsBacked(log) && 0 <= j < |log| && log[j].ExitAnswered? && log[j].answer.Fill?
    ensures BackedSinceExit(log[..j], log[j].symbol)
    decreases |log|
  {
    if j < |log| - 1 {
      BackedAt(log[..|log| - 1], j);
      assert log[..|log| - 1][..j] == log[..j];
    }
  }

  lemma {:induction false} BackingWitness(log: seq<Event>, symbol: Symbol, after: int)
    requires -1 <= after < |log| && (after >= 0 ==> IsExitFill(log[after], symbol))
    requires BackedSinceExit(log, symbol)
    ensures exists k :: after < k < |log| && IsEntryFill(log[k], symbol)
    decreases |log|
  {
    var n := |log| - 1;
    if !IsEntryFill(log[n], symbol) {
      assert after < n;
      BackingWitness(log[..n], symbol, after);
      var k :| after < k < n && IsEntryFill(log[..n][k], symbol);
      assert IsEntryFill(log[k], symbol);
    }
  }

  // If no exit looks a symbol up while an entry of it is between its open and its settled
  // answer, then between any two filled exits of a symbol, and before the first, an entry of
  // it was filled or left unknown: each filled exit sells what an entry of its own bought.
  lemma FilledExitsHaveOwnEntries(cfg: RiskConfig, sys: System, actions: seq<Action>, symbol: Symbol, i: int, j: int)
    requires Fresh(sys) && LooksSettled(cfg, sys, actions)
    requires var log := Run(cfg, sys, actions).shared.log;
             -1 <= i < j < |log| && IsExitFill(log[j], symbol) && (i >= 0 ==> IsExitFill(log[i], symbol))
    ensures var log := Run(cfg, sys, actions).shared.log;
            exists k :: i < k < j && IsEntryFill(log[k], symbol)
  {
    var log := Run(cfg, sys, actions).shared.log;
    RunKeepsEntries(cfg, sys, actions);
    BackedAt(log, j);
    BackingWitness(log[..j], symbol, i);
    var k :| i < k < j && IsEntryFill(log[..j][k], symbol);
    assert IsEntryFill(log[k], symbol);
  }

  // ---- The exact guard, at the moment of looking ----

  // j is the first filled exit of the symbol from place n on.
  predicate FirstFillFrom(log: seq<Event>, n: nat, j: int, symbol: Symbol) {
    n <= j < |log| && IsExitFill(log[j], symbol) && forall k :: n <= k < j ==> !IsExitFill(log[k], symbol)
  }

  // Whatever happens from here on, the symbol's next filled exit is backed.
  ghost predicate NextExitBacked(cfg: RiskConfig, sys: System, symbol: Symbol) {
    forall more: seq<Action>, j: int ::
      FirstFillFrom(Run(cfg, sys, more).shared.log, |sys.shared.log|, j, symbol) ==>
        BackedSinceExit(Run(cfg, sys, more).shared.log[..j], symbol)
  }

  lemma {:induction false} BackingLasts(log: seq<Event>, n: nat, symbol: Symbol)
    requires n <= |log| && BackedSinceExit(log[..n], symbol)
    requires forall k :: n <= k < |log| ==> !IsExitFill(log[k], symbol)
    ensures BackedSinceExit(log, symbol)
    decreases |log|
  {
    if n < |log| {
      var shorter := log[..|log| - 1];
      assert shorter[..n] == log[..n];
      assert forall k :: n <= k < |shorter| ==> shorter[k] == log[k];
      BackingLasts(shorter, n, symbol);
    } else {
      assert log[..n] == log;
    }
  }

  lemma {:induction false} LogExtends(cfg: RiskConfig, sys: System, more: seq<Action>)
    ensures sys.shared.log <= Run(cfg, sys, more).shared.log
    decreases |more|
  {
    if more != [] {
      var n := |more| - 1;
      var before, a := Run(cfg, sys, more[..n]), more[n];
      LogExtends(cfg, sys, more[..n]);
      if a.Step? && a.caller < |before.calls| {
        StepLogs(cfg, before.shared, before.calls[a.caller], a.env);
      }
    }
  }

  // The steps of an exit that has found its position, up to a fill.
  function StraightToFill(i: nat, env: Env): seq<Action> {
    [Step(i, env), Step(i, env), Step(i, env), Step(i, env)]
  }

  // Nothing stops an exit that has found a position: its order goes out, and may be filled.
  lemma LookedMayFill(cfg: RiskConfig, sys: System, i: nat, env: Env)
    requires Looks(sys, i) && env.answer.Fill?
    ensures var p := sys.shared.risk.open[sys.calls[i].symbol];
            Run(cfg, sys, StraightToFill(i, env)).shared.log
            == sys.shared.log + [ExitSent(sys.calls[i].symbol, p.side.Opposite(), p.quantity), ExitAnswered(sys.calls[i].symbol, env.answer)]
  {
    var step := Step(i, env);
    var none: seq<Action> := [];
    RunOneMore(cfg, sys, none, step);
    RunOneMore(cfg, sys, none + [step], step);
    RunOneMore(cfg, sys, none + [step] + [step], step);
    RunOneMore(cfg, sys, none + [step] + [step] + [step], step);
    assert none + [step] + [step] + [step] + [step] == StraightToFill(i, env);
    var s1 := Next(cfg, sys, step);
    assert s1.calls[i].xpc.XIntent? && s1.shared == sys.shared;
    var s2 := Next(cfg, s1, step);
    assert s2.calls[i].xpc.XSend? && s2.shared.log == sys.shared.log;
    var s3 := Next(cfg, s2, step);
    assert s3.calls[i].xpc.XWait?;
  }

  // The exact guard: when an exit finds a position, its fill is sure to be backed if and only
  // if an entry of the symbol was filled or left unknown since its last filled exit.
  lemma LookIsSafeIff(cfg: RiskConfig, sys: System, i: nat)
    requires Looks(sys, i)
    ensures NextExitBacked(cfg, sys, sys.calls[i].symbol) <==> BackedSinceExit(sys.shared.log, sys.calls[i].symbol)
  {
    var symbol, n := sys.calls[i].symbol, |sys.shared.log|;
    if BackedSinceExit(sys.shared.log, symbol) {
      forall more: seq<Action>, j: int | FirstFillFrom(Run(cfg, sys, more).shared.log, n, j, symbol)
        ensures BackedSinceExit(Run(cfg, sys, more).shared.log[..j], symbol)
      {
        var log := Run(cfg, sys, more).shared.log;
        LogExtends(cfg, sys, more);
        assert log[..j][..n] == log[..n] == sys.shared.log;
        assert forall k :: n <= k < j ==> log[..j][k] == log[k];
        BackingLasts(log[..j], n, symbol);
      }
    } else {
      var env := Env(0, 0.0, true, Fill(1, 1.0));
      LookedMayFill(cfg, sys, i, env);
      var log := Run(cfg, sys, StraightToFill(i, env)).shared.log;
      assert FirstFillFrom(log, n, n + 1, symbol);
      assert log[..n + 1] == sys.shared.log + [log[n]];
      BackedAppend(sys.shared.log, [log[n]], symbol);
    }
  }
}
