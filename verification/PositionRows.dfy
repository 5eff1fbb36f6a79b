/** The durable position rows over interleaved runs: who writes them, and who closes them. */
module PositionRows {
  import opened Common
  import opened RiskModel
  import opened StoreModel
  import opened OrderProtocol
  import opened OrderDurability

  // An exit that was given this record, was filled, and is past writing its close.
  predicate ClosedIt(c: Call, r: nat) {
    c.Exit? && c.record == Some(r) && c.reply.Some? && c.reply.value.Fill? && (c.xpc.XRelease? || c.xpc.XDone?)
  }

  predicate SomeoneClosed(sys: System, r: nat) {
    exists i :: 0 <= i < |sys.calls| && ClosedIt(sys.calls[i], r)
  }

  // At this price.
  predicate ClosedAt(sys: System, r: nat, price: real) {
    exists i :: 0 <= i < |sys.calls| && ClosedIt(sys.calls[i], r) && FilledPrice(sys.calls[i].reply.value) == price
  }

  // An entry that has drawn its position id and may still write the row.
  predicate WillWrite(c: Call) {
    c.Entry? && !c.epc.EStart? && !c.epc.EIntent? && !c.epc.EDone?
  }

  // An exit has no reply before it asked for one, and closes rows only on a fill.
  predicate Orderly(c: Call) {
    c.Exit? ==>
      && (c.xpc.XAcquire? || c.xpc.XLookup? ==> c.reply.None?)
      && (c.xpc.XClosePosition? ==> c.reply.Some? && c.reply.value.Fill?)
  }

  // ---- No row is written twice ----

  ghost predicate RowsDistinct(sys: System) {
    && (forall r :: r in sys.shared.store.positions ==> r <= sys.shared.store.positionSeq)
    && (forall i :: 0 <= i < |sys.calls| && WillWrite(sys.calls[i]) ==>
          sys.calls[i].positionId <= sys.shared.store.positionSeq && sys.calls[i].positionId !in sys.shared.store.positions)
    && (forall i, j :: 0 <= i < j < |sys.calls| && WillWrite(sys.calls[i]) && WillWrite(sys.calls[j]) ==>
          sys.calls[i].positionId != sys.calls[j].positionId)
    && (forall i :: 0 <= i < |sys.calls| ==> Orderly(sys.calls[i]))
  }

  // What a step does to the rows, and to the ids drawn for them.
  lemma StepRows(cfg: RiskConfig, s: Shared, c: Call, env: Env)
    ensures var (s', c') := CallStep(cfg, s, c, env);
            && s.store.positionSeq <= s'.store.positionSeq
            && (WillWrite(c') && !WillWrite(c) ==>
                  c'.positionId == s'.store.positionSeq == s.store.positionSeq + 1 && s'.store.positions == s.store.positions)
            && (WillWrite(c') && WillWrite(c) ==> c'.positionId == c.positionId && s'.store.positions == s.store.positions)
            && (Orderly(c) ==> Orderly(c'))
            && (forall r :: r in s'.store.positions ==> r in s.store.positions || (WillWrite(c) && r == c.positionId))
  {
  }

  lemma NextRowsDistinct(cfg: RiskConfig, sys: System, a: Action)
    requires RowsDistinct(sys)
    ensures RowsDistinct(Next(cfg, sys, a))
  {
    if Moves(sys, a) {
      StepRows(cfg, sys.shared, sys.calls[a.caller], a.env);
    }
  }

  lemma {:induction false} RunRowsDistinct(cfg: RiskConfig, sys: System, actions: seq<Action>)
    requires Quiet(sys)
    ensures RowsDistinct(Run(cfg, sys, actions))
    decreases |actions|
  {
    if actions != [] {
      RunRowsDistinct(cfg, sys, actions[..|actions| - 1]);
      NextRowsDistinct(cfg, Run(cfg, sys, actions[..|actions| - 1]), actions[|actions| - 1]);
    }
  }

  // ---- One row ----

  // The row is there, what it says of the entry is as it was, and unless it is as it was it was
  // closed at the price of an exit that was given it. While no write fails, such an exit has
  // closed it.
  ghost predicate Follows(faultless: bool, row: PositionRow, sys: System, r: nat) {
    && r in sys.shared.store.positions
    && var now := sys.shared.store.positions[r];
       && now == PositionRow(row.symbol, row.side, row.quantity, row.entryPrice, now.exitPrice, now.isOpen)
       && (now == row || (!now.isOpen && ClosedAt(sys, r, now.exitPrice)))
       && (faultless && SomeoneClosed(sys, r) ==> !now.isOpen)
  }

  // A step leaves the row alone, unless it is the close of an exit that was given it.
  lemma StepOnRow(cfg: RiskConfig, s: Shared, c: Call, env: Env, r: nat)
    requires r in s.store.positions && (WillWrite(c) ==> c.positionId != r) && Orderly(c)
    ensures var (s', c') := CallStep(cfg, s, c, env);
            && r in s'.store.positions
            && (ClosedIt(c, r) ==> ClosedIt(c', r) && c'.reply == c.reply)
            && (s'.store.positions[r] == s.store.positions[r]
                || (ClosedIt(c', r)
                    && s'.store.positions[r] == s.store.positions[r].(isOpen := false, exitPrice := FilledPrice(c'.reply.value))))
            && (ClosedIt(c', r) && !ClosedIt(c, r) && env.commits ==> !s'.store.positions[r].isOpen)
  {
  }

  lemma FollowsOn(faultless: bool, row: PositionRow, sys: System, s': Shared, caller: nat, c': Call, r: nat)
    requires Follows(faultless, row, sys, r) && caller < |sys.calls| && r in s'.store.positions
    requires ClosedIt(sys.calls[caller], r) ==> ClosedIt(c', r) && c'.reply == sys.calls[caller].reply
    requires var before, after := sys.shared.store.positions[r], s'.store.positions[r];
             after == before || (ClosedIt(c', r) && after == before.(isOpen := false, exitPrice := FilledPrice(c'.reply.value)))
    requires faultless && ClosedIt(c', r) && !ClosedIt(sys.calls[caller], r) ==> !s'.store.positions[r].isOpen
    ensures Follows(faultless, row, System(s', sys.calls[caller := c']), r)
  {
    var sys' := System(s', sys.calls[caller := c']);
    assert forall i :: 0 <= i < |sys.calls| && i != caller ==> sys'.calls[i] == sys.calls[i];
    assert sys'.calls[caller] == c';
    var before, after := sys.shared.store.positions[r], s'.store.positions[r];
    if after == before && before != row {
      var i :| 0 <= i < |sys.calls| && ClosedIt(sys.calls[i], r) && FilledPrice(sys.calls[i].reply.value) == before.exitPrice;
      assert ClosedIt(sys'.calls[i], r) && FilledPrice(sys'.calls[i].reply.value) == after.exitPrice;
    }
    if faultless && SomeoneClosed(sys', r) && !SomeoneClosed(sys, r) {
      var i :| 0 <= i < |sys'.calls| && ClosedIt(sys'.calls[i], r);
      assert i == caller;
    }
  }

  lemma NextFollows(faultless: bool, cfg: RiskConfig, row: PositionRow, sys: System, a: Action, r: nat)
    requires RowsDistinct(sys) && Follows(faultless, row, sys, r) && (faultless && a.Step? ==> a.env.commits)
    ensures Follows(faultless, row, Next(cfg, sys, a), r)
  {
    if Moves(sys, a) {
      var (s', c') := CallStep(cfg, sys.shared, sys.calls[a.caller], a.env);
      StepOnRow(cfg, sys.shared, sys.calls[a.caller], a.env, r);
      FollowsOn(faultless, row, sys, s', a.caller, c', r);
    } else {
      MoreCallsFollow(faultless, row, sys, Next(cfg, sys, a), r);
    }
  }

  lemma MoreCallsFollow(faultless: bool, row: PositionRow, sys: System, after: System, r: nat)
    requires Follows(faultless, row, sys, r) && after.shared.store == sys.shared.store
    requires |sys.calls| <= |after.calls| && after.calls[..|sys.calls|] == sys.calls
    requires forall i :: |sys.calls| <= i < |after.calls| ==> !ClosedIt(after.calls[i], r)
    ensures Follows(faultless, row, after, r)
  {
    assert forall i :: 0 <= i < |sys.calls| ==> after.calls[i] == sys.calls[i];
    var now := sys.shared.store.positions[r];
    if now != row {
      var i :| 0 <= i < |sys.calls| && ClosedIt(sys.calls[i], r) && FilledPrice(sys.calls[i].reply.value) == now.exitPrice;
      assert ClosedIt(after.calls[i], r);
    }
    if SomeoneClosed(after, r) {
      var i :| 0 <= i < |after.calls| && ClosedIt(after.calls[i], r);
      assert ClosedIt(sys.calls[i], r);
    }
  }

  lemma {:induction false} RunFollows(faultless: bool, cfg: RiskConfig, row: PositionRow, sys: System, actions: seq<Action>, r: nat)
    requires RowsDistinct(sys) && Follows(faultless, row, sys, r) && (faultless ==> Faultless(actions))
    ensures RowsDistinct(Run(cfg, sys, actions)) && Follows(faultless, row, Run(cfg, sys, actions), r)
    decreases |actions|
  {
    if actions != [] {
      var n := |actions| - 1;
      RunFollows(faultless, cfg, row, sys, actions[..n], r);
      NextRowsDistinct(cfg, Run(cfg, sys, actions[..n]), actions[n]);
      NextFollows(faultless, cfg, row, Run(cfg, sys, actions[..n]), actions[n], r);
    }
  }

  // ---- Results ----

  // From any moment of any run at which a row is there and no exit given it has closed yet: the
  // row stays, with the same symbol, side, quantity and entry price. It changes only by the close
  // of a filled exit that was given it, to that exit's price. And while no write fails, it is
  // closed if and only if it was closed before or such an exit has got past its close.
  lemma RecordClosedIff(cfg: RiskConfig, sys: System, earlier: seq<Action>, more: seq<Action>, r: nat)
    requires Quiet(sys)
    requires var mid := Run(cfg, sys, earlier); r in mid.shared.store.positions && !SomeoneClosed(mid, r)
    ensures var was, last := Run(cfg, sys, earlier).shared.store.positions[r], Run(cfg, Run(cfg, sys, earlier), more);
            && r in last.shared.store.positions
            && var now := last.shared.store.positions[r];
               && now == PositionRow(was.symbol, was.side, was.quantity, was.entryPrice, now.exitPrice, now.isOpen)
               && (now == was || (!now.isOpen && ClosedAt(last, r, now.exitPrice)))
               && (Faultless(more) ==> (!now.isOpen <==> !was.isOpen || SomeoneClosed(last, r)))
  {
    var mid := Run(cfg, sys, earlier);
    RunRowsDistinct(cfg, sys, earlier);
    RunFollows(false, cfg, mid.shared.store.positions[r], mid, more, r);
    if Faultless(more) {
      RunFollows(true, cfg, mid.shared.store.positions[r], mid, more, r);
    }
  }

  // An entry that is filled and done has its row, from the moment it was written: of its symbol
  // and side, with the quantity and price of the fill.
  ghost predicate FilledEntriesHaveRows(sys: System) {
    forall i :: 0 <= i < |sys.calls| && IsFilledEntry(sys.calls[i]) ==> HasItsRow(sys, sys.calls[i])
  }

  predicate IsFilledEntry(c: Call) {
    c.Entry? && c.epc.EDone? && c.reply.Some? && c.reply.value.Fill?
  }

  predicate HasItsRow(sys: System, c: Call)
    requires c.Entry? && c.reply.Some?
  {
    && c.positionId in sys.shared.store.positions
    && var row := sys.shared.store.positions[c.positionId];
       && row.symbol == c.req.symbol && row.side == c.req.side
       && row.quantity == FilledQuantity(c.reply.value) && row.entryPrice == FilledPrice(c.reply.value)
  }

  // Early entries have no reply yet.
  predicate InTime(c: Call) {
    c.Entry? && (c.epc.EStart? || c.epc.EIntent? || c.epc.EOpen?) ==> c.reply.None?
  }

  ghost predicate RepliesInTime(sys: System) {
    forall i :: 0 <= i < |sys.calls| ==> InTime(sys.calls[i])
  }

  lemma StepWritesRow(cfg: RiskConfig, s: Shared, c: Call, env: Env)
    requires env.commits && InTime(c)
    ensures var (s', c') := CallStep(cfg, s, c, env);
            && InTime(c')
            && (IsFilledEntry(c') ==> (c == c' && s' == s) || HasItsRow(System(s', []), c'))
            && (forall r :: r in s.store.positions && !(WillWrite(c) && c.positionId == r) ==>
                  && r in s'.store.positions
                  && var was, now := s.store.positions[r], s'.store.positions[r];
                     now.symbol == was.symbol && now.side == was.side && now.quantity == was.quantity && now.entryPrice == was.entryPrice)
  {
  }

  lemma NextHasRows(cfg: RiskConfig, sys: System, a: Action)
    requires RowsDistinct(sys) && FilledEntriesHaveRows(sys) && RepliesInTime(sys) && (a.Step? ==> a.env.commits)
    ensures FilledEntriesHaveRows(Next(cfg, sys, a)) && RepliesInTime(Next(cfg, sys, a))
  {
    var after := Next(cfg, sys, a);
    if Moves(sys, a) {
      StepWritesRow(cfg, sys.shared, sys.calls[a.caller], a.env);
      forall i | 0 <= i < |after.calls| && IsFilledEntry(after.calls[i])
        ensures HasItsRow(after, after.calls[i])
      {
        if i != a.caller {
          assert after.calls[i] == sys.calls[i] && HasItsRow(sys, sys.calls[i]);
        }
      }
    } else {
      assert forall i :: 0 <= i < |sys.calls| ==> after.calls[i] == sys.calls[i];
    }
  }

  // While no write fails, every filled entry that is done has its row.
  lemma {:induction false} FilledEntryHasRow(cfg: RiskConfig, sys: System, actions: seq<Action>)
    requires Quiet(sys) && Faultless(actions)
    ensures FilledEntriesHaveRows(Run(cfg, sys, actions)) && RepliesInTime(Run(cfg, sys, actions))
    decreases |actions|
  {
    if actions != [] {
      var n := |actions| - 1;
      FilledEntryHasRow(cfg, sys, actions[..n]);
      RunRowsDistinct(cfg, sys, actions[..n]);
      NextHasRows(cfg, Run(cfg, sys, actions[..n]), actions[n]);
    }
  }
}
