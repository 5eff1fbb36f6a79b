/** What the kill switch does in interleaved runs. */
module KillSwitch {
  import opened RiskModel
  import opened OrderProtocol

  // The entry has passed its check, whatever became of it afterwards.
  predicate PassedCheck(c: Call) {
    c.Entry? && !c.epc.EStart? && (c.epc.EDone? ==> c.id > 0)
  }

  // An open of an entry, or its order going out.
  predicate IsEntryEvent(e: Event) {
    e.Opened? || e.EntrySent?
  }

  // A call that has only started has no order id.
  predicate Unnumbered(c: Call) {
    c.Entry? && c.epc.EStart? ==> c.id == 0
  }

  lemma StepUnderKill(cfg: RiskConfig, s: Shared, c: Call, env: Env)
    requires Unnumbered(c)
    ensures var (s', c') := CallStep(cfg, s, c, env);
            && Unnumbered(c') && s'.risk.killed == s.risk.killed
            && (s.risk.killed && PassedCheck(c') ==> PassedCheck(c))
            && |s.log| <= |s'.log|
            && ((exists k :: |s.log| <= k < |s'.log| && IsEntryEvent(s'.log[k])) ==> PassedCheck(c))
  {
  }

  // Entries that have passed their check in the one had passed it in the other.
  ghost predicate PassedBefore(sys: System, earlier: System) {
    forall i: nat :: i < |sys.calls| && PassedCheck(sys.calls[i]) ==> i < |earlier.calls| && PassedCheck(earlier.calls[i])
  }

  ghost predicate AllUnnumbered(sys: System) {
    forall i :: 0 <= i < |sys.calls| ==> Unnumbered(sys.calls[i])
  }

  lemma NextUnderKill(cfg: RiskConfig, sys: System, a: Action)
    requires AllUnnumbered(sys)
    ensures AllUnnumbered(Next(cfg, sys, a))
    ensures sys.shared.risk.killed ==> Next(cfg, sys, a).shared.risk.killed && PassedBefore(Next(cfg, sys, a), sys)
  {
    if Moves(sys, a) {
      StepUnderKill(cfg, sys.shared, sys.calls[a.caller], a.env);
    }
  }

  lemma {:induction false} RunUnderKill(cfg: RiskConfig, sys: System, actions: seq<Action>)
    requires AllUnnumbered(sys)
    ensures AllUnnumbered(Run(cfg, sys, actions))
    ensures sys.shared.risk.killed ==> Run(cfg, sys, actions).shared.risk.killed && PassedBefore(Run(cfg, sys, actions), sys)
    decreases |actions|
  {
    if actions != [] {
      RunUnderKill(cfg, sys, actions[..|actions| - 1]);
      NextUnderKill(cfg, Run(cfg, sys, actions[..|actions| - 1]), actions[|actions| - 1]);
    }
  }

  // ---- Results ----

  // A kill action turns the switch on, and in every run it stays on: at any later moment the
  // entries that have passed their check are among those that had passed it at the kill.
  lemma KillIsForever(cfg: RiskConfig, sys: System, earlier: seq<Action>, more: seq<Action>)
    requires sys.calls == []
    ensures var killed := Next(cfg, Run(cfg, sys, earlier), Kill);
            Run(cfg, killed, more).shared.risk.killed && PassedBefore(Run(cfg, killed, more), Run(cfg, sys, earlier))
  {
    RunUnderKill(cfg, sys, earlier);
    RunUnderKill(cfg, Next(cfg, Run(cfg, sys, earlier), Kill), more);
  }

  // So whatever is opened or sent for an entry after the kill is the work of an entry that had
  // passed its check before it.
  lemma KilledSessionEntersNothingNew(cfg: RiskConfig, sys: System, earlier: seq<Action>, more: seq<Action>, a: Action)
    requires sys.calls == []
    ensures var atKill := Run(cfg, sys, earlier);
            var before := Run(cfg, Next(cfg, atKill, Kill), more);
            var was, now := before.shared.log, Next(cfg, before, a).shared.log;
            && |was| <= |now|
            && ((exists k :: |was| <= k < |now| && IsEntryEvent(now[k])) ==>
                  Moves(before, a) && a.caller < |atKill.calls| && PassedCheck(atKill.calls[a.caller]))
  {
    KillIsForever(cfg, sys, earlier, more);
    var killed := Next(cfg, Run(cfg, sys, earlier), Kill);
    RunUnderKill(cfg, sys, earlier);
    RunUnderKill(cfg, killed, more);
    var before := Run(cfg, killed, more);
    if Moves(before, a) {
      StepUnderKill(cfg, before.shared, before.calls[a.caller], a.env);
    }
  }
}
