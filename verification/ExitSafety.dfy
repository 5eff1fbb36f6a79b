/** Exits are mutually exclusive per symbol, and never close the same opening twice. */
module ExitSafety {
  import opened Common
  import opened RiskModel
  import opened OrderProtocol

  // The call has taken the symbol's in-flight flag and not yet given it back.
  predicate Holds(c: Call) {
    c.Exit? && !c.xpc.XAcquire? && !c.xpc.XDone?
  }

  // A reduce-only order is at the broker and its answer is awaited.
  predicate Outstanding(c: Call) {
    c.Exit? && c.xpc.XWait?
  }

  // The broker has filled the exit; the risk position is about to be deleted.
  predicate Closing(c: Call) {
    c.Exit? && c.xpc.XClose?
  }

  // Past the position check, not yet filled.
  predicate Committed(c: Call) {
    c.Exit? && (c.xpc.XIntent? || c.xpc.XSend? || c.xpc.XWait?)
  }

  // ---- The in-flight flag ----

  ghost predicate FlagsExact(sys: System) {
    && (forall i :: 0 <= i < |sys.calls| && Holds(sys.calls[i]) ==> sys.calls[i].symbol in sys.shared.inFlight)
    && (forall i, j :: 0 <= i < j < |sys.calls| && Holds(sys.calls[i]) && Holds(sys.calls[j])
          ==> sys.calls[i].symbol != sys.calls[j].symbol)
    && (forall s :: s in sys.shared.inFlight
          ==> exists i :: 0 <= i < |sys.calls| && Holds(sys.calls[i]) && sys.calls[i].symbol == s)
  }

  // What a step can do to the flags: take the caller's own, or give it back.
  lemma StepFlags(cfg: RiskConfig, s: Shared, c: Call, env: Env)
    ensures var (s', c') := CallStep(cfg, s, c, env);
            && c'.Exit? == c.Exit? && (c.Exit? ==> c'.symbol == c.symbol)
            && FlagChange(s.inFlight, c, s'.inFlight, c')
  {
  }

  predicate FlagChange(flags: set<Symbol>, c: Call, flags': set<Symbol>, c': Call) {
    if Holds(c) && !Holds(c') then flags' == flags - {c.symbol}
    else if !Holds(c) && Holds(c') then c'.symbol !in flags && flags' == flags + {c'.symbol}
    else flags' == flags
  }

  lemma FlagsFollow(sys: System, sys': System, caller: nat)
    requires FlagsExact(sys) && caller < |sys.calls| == |sys'.calls|
    requires sys'.calls == sys.calls[caller := sys'.calls[caller]]
    requires var (c, c') := (sys.calls[caller], sys'.calls[caller]);
             && c'.Exit? == c.Exit? && (c.Exit? ==> c'.symbol == c.symbol)
             && FlagChange(sys.shared.inFlight, c, sys'.shared.inFlight, c')
    ensures FlagsExact(sys')
  {
    forall s | s in sys'.shared.inFlight
      ensures exists i :: 0 <= i < |sys'.calls| && Holds(sys'.calls[i]) && sys'.calls[i].symbol == s
    {
      if s in sys.shared.inFlight {
        var i :| 0 <= i < |sys.calls| && Holds(sys.calls[i]) && sys.calls[i].symbol == s;
        assert i != caller ==> sys'.calls[i] == sys.calls[i];
        assert Holds(sys'.calls[i]) && sys'.calls[i].symbol == s;
      } else {
        assert Holds(sys'.calls[caller]);
      }
    }
    forall i, j | 0 <= i < j < |sys'.calls| && Holds(sys'.calls[i]) && Holds(sys'.calls[j])
      ensures sys'.calls[i].symbol != sys'.calls[j].symbol
    {
      assert i != caller ==> sys'.calls[i] == sys.calls[i];
      assert j != caller ==> sys'.calls[j] == sys.calls[j];
    }
    forall i | 0 <= i < |sys'.calls| && Holds(sys'.calls[i])
      ensures sys'.calls[i].symbol in sys'.shared.inFlight
    {
      if i != caller {
        assert sys'.calls[i] == sys.calls[i] && Holds(sys.calls[i]);
        if Holds(sys.calls[caller]) {
          assert sys.calls[i].symbol != sys.calls[caller].symbol;
        }
      }
    }
  }

  lemma StepKeepsFlags(cfg: RiskConfig, sys: System, caller: nat, env: Env)
    requires FlagsExact(sys) && caller < |sys.calls|
    ensures FlagsExact(Next(cfg, sys, Step(caller, env)))
  {
    StepFlags(cfg, sys.shared, sys.calls[caller], env);
    FlagsFollow(sys, Next(cfg, sys, Step(caller, env)), caller);
  }

  lemma NextKeepsFlags(cfg: RiskConfig, sys: System, a: Action)
    requires FlagsExact(sys)
    ensures FlagsExact(Next(cfg, sys, a))
  {
    if a.Step? && a.caller < |sys.calls| {
      StepKeepsFlags(cfg, sys, a.caller, a.env);
    } else {
      var sys' := Next(cfg, sys, a);
      forall s | s in sys'.shared.inFlight
        ensures exists i :: 0 <= i < |sys'.calls| && Holds(sys'.calls[i]) && sys'.calls[i].symbol == s
      {
        var i :| 0 <= i < |sys.calls| && Holds(sys.calls[i]) && sys.calls[i].symbol == s;
        assert sys'.calls[i] == sys.calls[i];
      }
    }
  }

  lemma {:induction false} RunKeepsFlags(cfg: RiskConfig, sys: System, actions: seq<Action>)
    requires Quiet(sys)
    ensures FlagsExact(Run(cfg, sys, actions))
    decreases |actions|
  {
    if actions != [] {
      RunKeepsFlags(cfg, sys, actions[..|actions| - 1]);
      NextKeepsFlags(cfg, Run(cfg, sys, actions[..|actions| - 1]), actions[|actions| - 1]);
    }
  }

  // However the calls interleave, two calls never have a reduce-only order for the same
  // symbol at the broker at the same time, and a symbol is marked in flight exactly while
  // some call works on it.
  lemma OneExitPerSymbol(cfg: RiskConfig, sys: System, actions: seq<Action>, i: int, j: int)
    requires Quiet(sys)
    requires 0 <= i < j < |Run(cfg, sys, actions).calls|
    requires Outstanding(Run(cfg, sys, actions).calls[i]) && Outstanding(Run(cfg, sys, actions).calls[j])
    ensures Run(cfg, sys, actions).calls[i].symbol != Run(cfg, sys, actions).calls[j].symbol
  {
    RunKeepsFlags(cfg, sys, actions);
  }

  lemma FlagNeverLeaks(cfg: RiskConfig, sys: System, actions: seq<Action>, symbol: Symbol)
    requires Quiet(sys)
    ensures symbol in Run(cfg, sys, actions).shared.inFlight
       <==> exists i :: 0 <= i < |Run(cfg, sys, actions).calls| && Holds(Run(cfg, sys, actions).calls[i])
                        && Run(cfg, sys, actions).calls[i].symbol == symbol
  {
    RunKeepsFlags(cfg, sys, actions);
  }

  // ---- Between two filled exits there is an open ----

  predicate IsExitFill(e: Event, symbol: Symbol) {
    e.ExitAnswered? && e.symbol == symbol && e.answer.Fill?
  }

  // The symbol was opened after its latest filled exit.
  predicate OpenedSinceExit(log: seq<Event>, symbol: Symbol) {
    if log == [] then false
    else
      var e := log[|log| - 1];
      if e == Opened(symbol) then true
      else if IsExitFill(e, symbol) then false
      else OpenedSinceExit(log[..|log| - 1], symbol)
  }

  // Every filled exit closes an opening of its own.
  predicate ExitsSeparated(log: seq<Event>) {
    log == [] ||
    (var n := |log| - 1;
     ExitsSeparated(log[..n])
     && (log[n].ExitAnswered? && log[n].answer.Fill? ==> OpenedSinceExit(log[..n], log[n].symbol)))
  }

  ghost predicate SomeoneCloses(sys: System, symbol: Symbol) {
    exists i :: 0 <= i < |sys.calls| && Closing(sys.calls[i]) && sys.calls[i].symbol == symbol
  }

  // A held position is one opened since the last filled exit, unless that exit's own call
  // is about to delete it; and a call that found a position is working on such an opening.
  ghost predicate LogExplainsBook(sys: System) {
    && ExitsSeparated(sys.shared.log)
    && (forall s :: s in sys.shared.risk.open ==> OpenedSinceExit(sys.shared.log, s) || SomeoneCloses(sys, s))
    && (forall i :: 0 <= i < |sys.calls| && Committed(sys.calls[i])
          ==> OpenedSinceExit(sys.shared.log, sys.calls[i].symbol))
  }

  lemma OpenedAppend(log: seq<Event>, e: Event, symbol: Symbol)
    ensures OpenedSinceExit(log + [e], symbol)
         == (e == Opened(symbol) || (!IsExitFill(e, symbol) && OpenedSinceExit(log, symbol)))
    ensures ExitsSeparated(log + [e])
         == (ExitsSeparated(log) && (e.ExitAnswered? && e.answer.Fill? ==> OpenedSinceExit(log, e.symbol)))
  {
    assert (log + [e])[..|log|] == log;
  }

  // What a step can do to the log: nothing, or append one event.
  function StepEvents(cfg: RiskConfig, s: Shared, c: Call, env: Env): seq<Event> {
    if c.Entry? then
      match c.epc
      case EOpen => if OpenFor(cfg, s.risk, c.req, env.now, c.price).Some? then [Opened(c.req.symbol)] else []
      case ESend => [EntrySent(c.id, c.req.symbol, c.req.side, c.req.quantity)]
      case EWait => [EntryAnswered(c.id, c.req.symbol, env.answer)]
      case _ => []
    else
      match c.xpc
      case XSend => [ExitSent(c.symbol, c.side, c.quantity)]
      case XWait => [ExitAnswered(c.symbol, env.answer)]
      case _ => []
  }

  lemma StepLogs(cfg: RiskConfig, s: Shared, c: Call, env: Env)
    ensures CallStep(cfg, s, c, env).0.log == s.log + StepEvents(cfg, s, c, env)
    ensures |StepEvents(cfg, s, c, env)| <= 1
  {
  }

  // What a step can do to the set of held symbols.
  lemma StepHeld(cfg: RiskConfig, s: Shared, c: Call, env: Env)
    ensures var held, held' := s.risk.open.Keys, CallStep(cfg, s, c, env).0.risk.open.Keys;
            if c.Entry? && c.epc.EOpen? && StepEvents(cfg, s, c, env) != [] then held' == held + {c.req.symbol}
            else if c.Exit? && c.xpc.XClose? && c.reply.Some? then held' == held - {c.symbol}
            else if c.Entry? && c.epc.ERollback? then held' == held - {c.req.symbol}
            else held' == held
  {
    var s' := CallStep(cfg, s, c, env).0;
    if c.Exit? && c.xpc.XClose? && c.reply.Some? {
      assert s'.risk.open.Keys == s.risk.open.Keys - {c.symbol};
    } else if c.Entry? && c.epc.ERollback? {
      assert s'.risk.open.Keys == s.risk.open.Keys - {c.req.symbol};
    } else if c.Entry? && c.epc.EOpen? && StepEvents(cfg, s, c, env) != [] {
      assert s'.risk.open.Keys == s.risk.open.Keys + {c.req.symbol};
    } else if c.Entry? && c.epc.EFill? {
      assert s'.risk.open.Keys == s.risk.open.Keys;
    }
  }

  // Calls waiting to delete a position carry the fill.
  ghost predicate ClosersHaveReply(sys: System) {
    forall i :: 0 <= i < |sys.calls| && Closing(sys.calls[i]) ==> sys.calls[i].reply.Some?
  }

  // What a step of one call can do to book, log and calls, seen from outside.
  ghost predicate StepShape(sys: System, sys': System, caller: nat, events: seq<Event>) {
    && caller < |sys.calls| == |sys'.calls| && sys'.calls == sys.calls[caller := sys'.calls[caller]]
    && sys'.shared.log == sys.shared.log + events && |events| <= 1
    && (var (c, c') := (sys.calls[caller], sys'.calls[caller]);
        && c'.Exit? == c.Exit? && (c.Exit? ==> c'.symbol == c.symbol)
        && (Committed(c') ==> Committed(c) || (c.xpc.XLookup? && c.symbol in sys.shared.risk.open))
        && (Committed(c') && events != [] ==> !IsExitFill(events[0], c'.symbol))
        && (Closing(c) ==> c.symbol !in sys'.shared.risk.open)
        && (events != [] && events[0].ExitAnswered? && events[0].answer.Fill? ==>
              c.Exit? && c.xpc.XWait? && c.symbol == events[0].symbol && Closing(c')))
    && (forall s :: s in sys'.shared.risk.open ==> s in sys.shared.risk.open || events == [Opened(s)])
  }

  lemma StepHasShape(cfg: RiskConfig, sys: System, caller: nat, env: Env)
    requires ClosersHaveReply(sys) && caller < |sys.calls|
    ensures StepShape(sys, Next(cfg, sys, Step(caller, env)), caller, StepEvents(cfg, sys.shared, sys.calls[caller], env))
  {
    StepLogs(cfg, sys.shared, sys.calls[caller], env);
    StepHeld(cfg, sys.shared, sys.calls[caller], env);
  }

  lemma EventsAppend(log: seq<Event>, events: seq<Event>, symbol: Symbol)
    requires |events| <= 1
    ensures events == [] ==> log + events == log
    ensures events != [] ==>
      && OpenedSinceExit(log + events, symbol)
         == (events[0] == Opened(symbol) || (!IsExitFill(events[0], symbol) && OpenedSinceExit(log, symbol)))
      && ExitsSeparated(log + events)
         == (ExitsSeparated(log) && (events[0].ExitAnswered? && events[0].answer.Fill? ==> OpenedSinceExit(log, events[0].symbol)))
  {
    if events != [] {
      assert events == [events[0]];
      OpenedAppend(log, events[0], symbol);
    }
  }

  lemma HeldStaysExplained(sys: System, sys': System, caller: nat, events: seq<Event>, s: Symbol)
    requires StepShape(sys, sys', caller, events) && s in sys'.shared.risk.open
    requires s in sys.shared.risk.open ==> OpenedSinceExit(sys.shared.log, s) || SomeoneCloses(sys, s)
    ensures OpenedSinceExit(sys'.shared.log, s) || SomeoneCloses(sys', s)
  {
    EventsAppend(sys.shared.log, events, s);
    if events != [] && IsExitFill(events[0], s) {
      assert Closing(sys'.calls[caller]);
    } else if s in sys.shared.risk.open && SomeoneCloses(sys, s) {
      var i :| 0 <= i < |sys.calls| && Closing(sys.calls[i]) && sys.calls[i].symbol == s;
      assert i != caller;
      assert Closing(sys'.calls[i]);
    }
  }

  lemma CommittedStaysOpened(sys: System, sys': System, caller: nat, events: seq<Event>, i: nat)
    requires FlagsExact(sys) && LogExplainsBook(sys) && StepShape(sys, sys', caller, events)
    requires i < |sys'.calls| && Committed(sys'.calls[i])
    ensures OpenedSinceExit(sys'.shared.log, sys'.calls[i].symbol)
  {
    EventsAppend(sys.shared.log, events, sys'.calls[i].symbol);
    if i != caller {
      assert Committed(sys.calls[i]) && Holds(sys.calls[i]);
    } else if sys.calls[caller].xpc.XLookup? {
      CloserHolds(sys, sys.calls[caller].symbol, caller);
    }
  }

  lemma StepKeepsLog(cfg: RiskConfig, sys: System, caller: nat, env: Env)
    requires FlagsExact(sys) && ClosersHaveReply(sys) && LogExplainsBook(sys) && caller < |sys.calls|
    ensures LogExplainsBook(Next(cfg, sys, Step(caller, env)))
  {
    StepHasShape(cfg, sys, caller, env);
    LogFollows(sys, Next(cfg, sys, Step(caller, env)), caller, StepEvents(cfg, sys.shared, sys.calls[caller], env));
  }

  lemma LogFollows(sys: System, sys': System, caller: nat, events: seq<Event>)
    requires FlagsExact(sys) && LogExplainsBook(sys) && StepShape(sys, sys', caller, events)
    ensures LogExplainsBook(sys')
  {
    if events != [] {
      EventsAppend(sys.shared.log, events, events[0].symbol);
    } else {
      EventsAppend(sys.shared.log, events, "");
    }
    forall s | s in sys'.shared.risk.open
      ensures OpenedSinceExit(sys'.shared.log, s) || SomeoneCloses(sys', s)
    {
      HeldStaysExplained(sys, sys', caller, events, s);
    }
    forall i: nat | i < |sys'.calls| && Committed(sys'.calls[i])
      ensures OpenedSinceExit(sys'.shared.log, sys'.calls[i].symbol)
    {
      CommittedStaysOpened(sys, sys', caller, events, i);
    }
  }

  lemma StepKeepsReplies(cfg: RiskConfig, sys: System, caller: nat, env: Env)
    requires ClosersHaveReply(sys) && caller < |sys.calls|
    ensures ClosersHaveReply(Next(cfg, sys, Step(caller, env)))
  {
  }

  // Nobody else deletes the position of a symbol whose flag this call has.
  lemma CloserHolds(sys: System, symbol: Symbol, caller: nat)
    requires FlagsExact(sys) && caller < |sys.calls|
    requires Holds(sys.calls[caller]) && sys.calls[caller].symbol == symbol && !Closing(sys.calls[caller])
    ensures !SomeoneCloses(sys, symbol)
  {
    forall i | 0 <= i < |sys.calls| && Holds(sys.calls[i]) && sys.calls[i].symbol == symbol
      ensures i == caller
    {
    }
  }

  lemma NextKeepsLog(cfg: RiskConfig, sys: System, a: Action)
    requires FlagsExact(sys) && ClosersHaveReply(sys) && LogExplainsBook(sys)
    ensures LogExplainsBook(Next(cfg, sys, a)) && ClosersHaveReply(Next(cfg, sys, a))
  {
    var sys' := Next(cfg, sys, a);
    if a.Step? && a.caller < |sys.calls| {
      StepKeepsLog(cfg, sys, a.caller, a.env);
      StepKeepsReplies(cfg, sys, a.caller, a.env);
    } else {
      assert sys'.shared.risk.open.Keys == sys.shared.risk.open.Keys;
      forall s | s in sys'.shared.risk.open
        ensures OpenedSinceExit(sys'.shared.log, s) || SomeoneCloses(sys', s)
      {
        if SomeoneCloses(sys, s) {
          var i :| 0 <= i < |sys.calls| && Closing(sys.calls[i]) && sys.calls[i].symbol == s;
          assert Closing(sys'.calls[i]);
        }
      }
    }
  }

  lemma {:induction false} RunKeepsLog(cfg: RiskConfig, sys: System, actions: seq<Action>)
    requires Quiet(sys) && LogExplainsBook(sys)
    ensures LogExplainsBook(Run(cfg, sys, actions)) && ClosersHaveReply(Run(cfg, sys, actions))
    decreases |actions|
  {
    if actions != [] {
      RunKeepsLog(cfg, sys, actions[..|actions| - 1]);
      RunKeepsFlags(cfg, sys, actions[..|actions| - 1]);
      NextKeepsLog(cfg, Run(cfg, sys, actions[..|actions| - 1]), actions[|actions| - 1]);
    }
  }

  lemma {:induction false} OpenedWitness(log: seq<Event>, symbol: Symbol, after: int)
    requires -1 <= after < |log| && (after >= 0 ==> IsExitFill(log[after], symbol))
    requires OpenedSinceExit(log, symbol)
    ensures exists k :: after < k < |log| && log[k] == Opened(symbol)
    decreases |log|
  {
    var n := |log| - 1;
    if log[n] != Opened(symbol) {
      assert after < n;
      OpenedWitness(log[..n], symbol, after);
      var k :| after < k < n && log[..n][k] == Opened(symbol);
      assert log[k] == Opened(symbol);
    }
  }

  lemma {:induction false} SeparatedAt(log: seq<Event>, j: int)
    requires ExitsSeparated(log) && 0 <= j < |log| && log[j].ExitAnswered? && log[j].answer.Fill?
    ensures OpenedSinceExit(log[..j], log[j].symbol)
    decreases |log|
  {
    if j < |log| - 1 {
      SeparatedAt(log[..|log| - 1], j);
      assert log[..|log| - 1][..j] == log[..j];
    }
  }

  // In every run, between any two filled exits of a symbol the symbol was opened again, and
  // before the first one it was opened at all: no opening is closed twice.
  lemma ExitsCloseDistinctOpens(cfg: RiskConfig, sys: System, actions: seq<Action>, symbol: Symbol, i: int, j: int)
    requires Quiet(sys) && LogExplainsBook(sys)
    requires var log := Run(cfg, sys, actions).shared.log;
             -1 <= i < j < |log| && IsExitFill(log[j], symbol) && (i >= 0 ==> IsExitFill(log[i], symbol))
    ensures var log := Run(cfg, sys, actions).shared.log;
            exists k :: i < k < j && log[k] == Opened(symbol)
  {
    var log := Run(cfg, sys, actions).shared.log;
    RunKeepsLog(cfg, sys, actions);
    SeparatedAt(log, j);
    OpenedWitness(log[..j], symbol, i);
    var k :| i < k < j && log[..j][k] == Opened(symbol);
    assert log[k] == Opened(symbol);
  }

  // ---- Exit orders whose fate is open ----

  predicate IsExitSend(e: Event, symbol: Symbol) {
    e.ExitSent? && e.symbol == symbol
  }

  predicate IsExitSettled(e: Event, symbol: Symbol) {
    e.ExitAnswered? && e.symbol == symbol && !e.answer.Unknown?
  }

  predicate IsExitUnknown(e: Event, symbol: Symbol) {
    e.ExitAnswered? && e.symbol == symbol && e.answer.Unknown?
  }

  function Count(log: seq<Event>, p: Event -> bool): nat {
    if log == [] then 0 else Count(log[..|log| - 1], p) + (if p(log[|log| - 1]) then 1 else 0)
  }

  function SentExits(log: seq<Event>, symbol: Symbol): nat {
    Count(log, (e: Event) => IsExitSend(e, symbol))
  }

  function SettledExits(log: seq<Event>, symbol: Symbol): nat {
    Count(log, (e: Event) => IsExitSettled(e, symbol))
  }

  function UnknownExits(log: seq<Event>, symbol: Symbol): nat {
    Count(log, (e: Event) => IsExitUnknown(e, symbol))
  }

  function Waiting(calls: seq<Call>, symbol: Symbol): nat {
    if calls == [] then 0
    else Waiting(calls[..|calls| - 1], symbol)
         + (if Outstanding(calls[|calls| - 1]) && calls[|calls| - 1].symbol == symbol then 1 else 0)
  }

  lemma {:induction false} WaitingUpdate(calls: seq<Call>, i: nat, c: Call, symbol: Symbol)
    requires i < |calls|
    ensures Waiting(calls[i := c], symbol) ==
            Waiting(calls, symbol)
            - (if Outstanding(calls[i]) && calls[i].symbol == symbol then 1 else 0)
            + (if Outstanding(c) && c.symbol == symbol then 1 else 0)
    decreases |calls|
  {
    var n := |calls| - 1;
    if i == n {
      assert calls[i := c][..n] == calls[..n];
    } else {
      assert calls[i := c][..n] == calls[..n][i := c];
      WaitingUpdate(calls[..n], i, c, symbol);
    }
  }

  lemma CountAppend(log: seq<Event>, e: Event, p: Event -> bool)
    ensures Count(log + [e], p) == Count(log, p) + (if p(e) then 1 else 0)
  {
    assert (log + [e])[..|log|] == log;
  }

  ghost predicate ExitsAccounted(sys: System, symbol: Symbol) {
    SentExits(sys.shared.log, symbol)
    == SettledExits(sys.shared.log, symbol) + UnknownExits(sys.shared.log, symbol) + Waiting(sys.calls, symbol)
  }

  lemma EventKeepsAccounts(log: seq<Event>, e: Event, symbol: Symbol)
    ensures SentExits(log + [e], symbol) == SentExits(log, symbol) + (if IsExitSend(e, symbol) then 1 else 0)
    ensures SettledExits(log + [e], symbol) == SettledExits(log, symbol) + (if IsExitSettled(e, symbol) then 1 else 0)
    ensures UnknownExits(log + [e], symbol) == UnknownExits(log, symbol) + (if IsExitUnknown(e, symbol) then 1 else 0)
  {
    CountAppend(log, e, (e: Event) => IsExitSend(e, symbol));
    CountAppend(log, e, (e: Event) => IsExitSettled(e, symbol));
    CountAppend(log, e, (e: Event) => IsExitUnknown(e, symbol));
  }

  // A step that sends an exit starts a wait, and one that answers it ends the wait.
  lemma StepWaits(cfg: RiskConfig, s: Shared, c: Call, env: Env, symbol: Symbol)
    ensures var c' := CallStep(cfg, s, c, env).1;
            var events := StepEvents(cfg, s, c, env);
            var was, now := Outstanding(c) && c.symbol == symbol, Outstanding(c') && c'.symbol == symbol;
            if events == [] then was == now
            else
              && (IsExitSend(events[0], symbol) <==> !was && now)
              && (IsExitSettled(events[0], symbol) || IsExitUnknown(events[0], symbol) <==> was && !now)
  {
  }

  lemma StepKeepsAccounts(cfg: RiskConfig, sys: System, caller: nat, env: Env, symbol: Symbol)
    requires ExitsAccounted(sys, symbol) && caller < |sys.calls|
    ensures ExitsAccounted(Next(cfg, sys, Step(caller, env)), symbol)
  {
    var c := sys.calls[caller];
    var (shared, c') := CallStep(cfg, sys.shared, c, env);
    var events := StepEvents(cfg, sys.shared, c, env);
    StepLogs(cfg, sys.shared, c, env);
    StepWaits(cfg, sys.shared, c, env, symbol);
    WaitingUpdate(sys.calls, caller, c', symbol);
    AccountsFollow(sys, System(shared, sys.calls[caller := c']), caller, events, symbol);
  }

  lemma AccountsFollow(sys: System, sys': System, caller: nat, events: seq<Event>, symbol: Symbol)
    requires ExitsAccounted(sys, symbol) && caller < |sys.calls| == |sys'.calls|
    requires sys'.shared.log == sys.shared.log + events && |events| <= 1
    requires var was := Outstanding(sys.calls[caller]) && sys.calls[caller].symbol == symbol;
             var now := Outstanding(sys'.calls[caller]) && sys'.calls[caller].symbol == symbol;
             && Waiting(sys'.calls, symbol) == Waiting(sys.calls, symbol) - (if was then 1 else 0) + (if now then 1 else 0)
             && (if events == [] then was == now
                 else
                   && (IsExitSend(events[0], symbol) <==> !was && now)
                   && (IsExitSettled(events[0], symbol) || IsExitUnknown(events[0], symbol) <==> was && !now))
    ensures ExitsAccounted(sys', symbol)
  {
    if events == [] {
      assert sys'.shared.log == sys.shared.log;
    } else {
      assert events == [events[0]];
      EventKeepsAccounts(sys.shared.log, events[0], symbol);
    }
  }

  lemma NextKeepsAccounts(cfg: RiskConfig, sys: System, a: Action, symbol: Symbol)
    requires ExitsAccounted(sys, symbol)
    ensures ExitsAccounted(Next(cfg, sys, a), symbol)
  {
    if a.Step? && a.caller < |sys.calls| {
      StepKeepsAccounts(cfg, sys, a.caller, a.env, symbol);
    } else if a.StartEntry? || a.StartExit? {
      assert Next(cfg, sys, a).calls[..|sys.calls|] == sys.calls;
    }
  }

  lemma {:induction false} RunKeepsAccounts(cfg: RiskConfig, sys: System, actions: seq<Action>, symbol: Symbol)
    requires Quiet(sys) && sys.shared.log == []
    ensures ExitsAccounted(Run(cfg, sys, actions), symbol)
    decreases |actions|
  {
    if actions != [] {
      RunKeepsAccounts(cfg, sys, actions[..|actions| - 1], symbol);
      NextKeepsAccounts(cfg, Run(cfg, sys, actions[..|actions| - 1]), actions[|actions| - 1], symbol);
    }
  }

  lemma {:induction false} WaitingAtMostOne(calls: seq<Call>, symbol: Symbol)
    requires forall i, j :: 0 <= i < j < |calls| && Holds(calls[i]) && Holds(calls[j]) ==> calls[i].symbol != calls[j].symbol
    ensures Waiting(calls, symbol) <= 1
    ensures Waiting(calls, symbol) == 1 ==> exists i :: 0 <= i < |calls| && Outstanding(calls[i]) && calls[i].symbol == symbol
    decreases |calls|
  {
    if calls != [] {
      var n := |calls| - 1;
      WaitingAtMostOne(calls[..n], symbol);
      if Waiting(calls[..n], symbol) == 1 {
        var i :| 0 <= i < n && Outstanding(calls[..n][i]) && calls[..n][i].symbol == symbol;
        assert Holds(calls[i]) && Outstanding(calls[i]);
        assert Outstanding(calls[n]) ==> Holds(calls[n]);
      }
    }
  }

  // The lock bounds calls, not orders: after an indeterminate answer the flag is released
  // although the order may still be live. At every moment the exit orders of a symbol whose
  // fate is open are those once answered "unknown" plus at most one in flight; so at most
  // one is open exactly when none was ever unknown, or one was and none is in flight.
  lemma OpenExitOrders(cfg: RiskConfig, sys: System, actions: seq<Action>, symbol: Symbol)
    requires Quiet(sys) && sys.shared.log == []
    ensures var last := Run(cfg, sys, actions);
            var undecided := SentExits(last.shared.log, symbol) - SettledExits(last.shared.log, symbol);
            var unknown, waiting := UnknownExits(last.shared.log, symbol), Waiting(last.calls, symbol);
            && undecided == unknown + waiting
            && waiting <= 1
            && (undecided <= 1 <==> (unknown == 0 || (unknown == 1 && waiting == 0)))
  {
    RunKeepsAccounts(cfg, sys, actions, symbol);
    RunKeepsFlags(cfg, sys, actions);
    WaitingAtMostOne(Run(cfg, sys, actions).calls, symbol);
  }

  lemma {:induction false} CountPositive(log: seq<Event>, p: Event -> bool)
    ensures Count(log, p) > 0 <==> exists k :: 0 <= k < |log| && p(log[k])
    decreases |log|
  {
    if log != [] {
      CountPositive(log[..|log| - 1], p);
      assert log[..|log| - 1] + [log[|log| - 1]] == log;
    }
  }

  predicate SomeExitUnknown(log: seq<Event>, symbol: Symbol) {
    exists k :: 0 <= k < |log| && IsExitUnknown(log[k], symbol)
  }

  // The moment of sending, in every run: the order about to go out leaves two or more exit
  // orders of the symbol open exactly when an earlier exit of it was answered "unknown".
  lemma SendLeavesTwoOpenIff(cfg: RiskConfig, sys: System, actions: seq<Action>, i: nat, env: Env)
    requires Quiet(sys) && sys.shared.log == []
    requires var last := Run(cfg, sys, actions);
             i < |last.calls| && last.calls[i].Exit? && last.calls[i].xpc.XSend?
    ensures var last, after := Run(cfg, sys, actions), Run(cfg, sys, actions + [Step(i, env)]);
            var symbol := last.calls[i].symbol;
            SentExits(after.shared.log, symbol) - SettledExits(after.shared.log, symbol) >= 2
            <==> SomeExitUnknown(last.shared.log, symbol)
  {
    var last, after := Run(cfg, sys, actions), Run(cfg, sys, actions + [Step(i, env)]);
    var symbol := last.calls[i].symbol;
    assert (actions + [Step(i, env)])[..|actions|] == actions;
    assert after == Next(cfg, last, Step(i, env));
    OpenExitOrders(cfg, sys, actions + [Step(i, env)], symbol);
    WaitingOne(after.calls, i, symbol);
    var e := ExitSent(symbol, last.calls[i].side, last.calls[i].quantity);
    assert after.shared.log == last.shared.log + [e];
    EventKeepsAccounts(last.shared.log, e, symbol);
    CountPositive(last.shared.log, (e: Event) => IsExitUnknown(e, symbol));
  }

  lemma {:induction false} WaitingOne(calls: seq<Call>, i: nat, symbol: Symbol)
    requires i < |calls| && Outstanding(calls[i]) && calls[i].symbol == symbol
    ensures Waiting(calls, symbol) >= 1
    decreases |calls|
  {
    if i < |calls| - 1 {
      WaitingOne(calls[..|calls| - 1], i, symbol);
    }
  }
}
