/** What the durable store knows about orders at the broker, at every crash point. */
module OrderDurability {
  import opened Common
  import opened RiskModel
  import opened StoreModel
  import opened OrderProtocol

  // The row still asks for reconciliation.
  predicate Listed(s: Shared, id: nat) {
    id in Unresolved(s.store)
  }

  // The row says what the broker said: outcome, quantity and price.
  predicate Tells(row: OrderRow, status: OrderStatus, a: Answer) {
    row.status == status && row.filledQuantity == FilledQuantity(a) && row.filledPrice == FilledPrice(a)
  }

  predicate EntrySettled(s: Shared, id: nat) {
    && id in s.store.orders
    && (Listed(s, id)
        || (id in s.answers && Tells(s.store.orders[id], EntryStatus(s.store.orders[id].quantity, s.answers[id]), s.answers[id])))
  }

  predicate ExitSettled(s: Shared, id: nat) {
    id in s.store.orders ==>
      || Listed(s, id)
      || (id in s.answers && Tells(s.store.orders[id], ExitStatus(s.answers[id]), s.answers[id]))
  }

  // ---- Invariant ----

  ghost predicate AllSettled(s: Shared) {
    && (forall id :: id in s.sentEntries ==> EntrySettled(s, id))
    && (forall id :: id in s.sentExits ==> ExitSettled(s, id))
  }

  predicate PendingRow(s: Shared, id: nat) {
    id in s.store.orders && s.store.orders[id].status.Intent?
  }

  predicate Answered(s: Shared, c: Call) {
    c.reply.Some? && c.id in s.answers && s.answers[c.id] == c.reply.value
  }

  // What a call in progress knows of the store and the broker. faultless: no write has failed.
  ghost predicate EntryConsistent(faultless: bool, s: Shared, c: Call)
    requires c.Entry?
  {
    match c.epc
    case EStart => c.id == 0 && c.reply.None?
    case EIntent => c.id == 0 && c.reply.None?
    case EOpen => PendingEntry(s, c) && c.reply.None? && c.id !in s.sentEntries && c.id !in s.answers
    case ESend => PendingEntry(s, c) && c.reply.None? && c.id !in s.sentEntries && c.id !in s.answers
    case EWait => PendingEntry(s, c) && c.reply.None? && c.id in s.sentEntries && c.id !in s.answers
    case ERollback => PendingEntry(s, c) && c.id in s.sentEntries && Answered(s, c)
    case EFill => PendingEntry(s, c) && c.id in s.sentEntries && Answered(s, c)
    case EMark => PendingEntry(s, c) && c.id in s.sentEntries && Answered(s, c)
    case ESavePosition => MarkedEntry(faultless, s, c)
    case EDone => c.reply.Some? ==> MarkedEntry(faultless, s, c)
  }

  ghost predicate PendingEntry(s: Shared, c: Call)
    requires c.Entry?
  {
    && c.id > 0 && PendingRow(s, c.id) && c.id !in s.sentExits
    && Describes(s.store.orders[c.id], c.req.symbol, c.req.side, c.req.quantity, c.price)
  }

  // The row is that of this order.
  predicate Describes(row: OrderRow, symbol: Symbol, side: Side, quantity: int, price: real) {
    row.symbol == symbol && row.side == side && row.quantity == quantity && row.price == price
  }

  ghost predicate MarkedEntry(faultless: bool, s: Shared, c: Call)
    requires c.Entry?
  {
    && c.id > 0 && c.id in s.sentEntries && Answered(s, c) && c.id in s.store.orders
    && Describes(s.store.orders[c.id], c.req.symbol, c.req.side, c.req.quantity, c.price)
    && (faultless ==> Tells(s.store.orders[c.id], EntryStatus(c.req.quantity, c.reply.value), c.reply.value))
  }

  ghost predicate ExitConsistent(faultless: bool, s: Shared, c: Call)
    requires c.Exit?
  {
    match c.xpc
    case XAcquire => c.id == 0 && c.reply.None?
    case XLookup => c.id == 0 && c.reply.None?
    case XIntent => c.id == 0 && c.reply.None?
    case XSend => PendingExit(s, c) && c.reply.None? && c.id !in s.sentExits && c.id !in s.answers
    case XWait => PendingExit(s, c) && c.reply.None? && c.id in s.sentExits && c.id !in s.answers
    case XClose => PendingExit(s, c) && c.id in s.sentExits && Answered(s, c)
    case XMark => PendingExit(s, c) && c.id in s.sentExits && Answered(s, c)
    case XClosePosition => MarkedExit(faultless, s, c)
    case XRelease => c.id > 0 ==> MarkedExit(faultless, s, c)
    case XDone => c.id > 0 ==> MarkedExit(faultless, s, c)
  }

  ghost predicate PendingExit(s: Shared, c: Call)
    requires c.Exit?
  {
    && c.id > 0 && c.id !in s.sentEntries
    && c.recorded == (c.id in s.store.orders)
    && (c.recorded ==> PendingRow(s, c.id) && Describes(s.store.orders[c.id], c.symbol, c.side, c.quantity, c.price))
  }

  ghost predicate MarkedExit(faultless: bool, s: Shared, c: Call)
    requires c.Exit?
  {
    && c.id > 0 && c.id in s.sentExits && Answered(s, c)
    && c.recorded == (c.id in s.store.orders)
    && (c.recorded ==> Describes(s.store.orders[c.id], c.symbol, c.side, c.quantity, c.price))
    && (faultless && c.recorded ==> Tells(s.store.orders[c.id], ExitStatus(c.reply.value), c.reply.value))
  }

  ghost predicate Consistent(faultless: bool, s: Shared, c: Call) {
    if c.Entry? then EntryConsistent(faultless, s, c) else ExitConsistent(faultless, s, c)
  }

  // Ids are handed out once.
  ghost predicate IdsFresh(sys: System) {
    && (forall id :: id in sys.shared.store.orders ==> id <= sys.shared.store.orderSeq)
    && (forall id :: id in sys.shared.sentEntries ==> id <= sys.shared.store.orderSeq)
    && (forall id :: id in sys.shared.sentExits ==> id <= sys.shared.store.orderSeq)
    && (forall id :: id in sys.shared.answers ==> id <= sys.shared.store.orderSeq)
    && (forall i :: 0 <= i < |sys.calls| ==> sys.calls[i].id <= sys.shared.store.orderSeq)
    && (forall i, j :: 0 <= i < j < |sys.calls| && sys.calls[i].id > 0 ==> sys.calls[i].id != sys.calls[j].id)
  }

  ghost predicate Durable(faultless: bool, sys: System) {
    && IdsFresh(sys)
    && AllSettled(sys.shared)
    && forall i :: 0 <= i < |sys.calls| ==> Consistent(faultless, sys.shared, sys.calls[i])
  }

  // ---- One step ----

  // A step touches the rows, sends and answers of its own order only.
  ghost predicate TouchesOnly(s: Shared, s': Shared, id: nat) {
    && (forall k :: k != id ==>
          && (k in s'.store.orders <==> k in s.store.orders)
          && (k in s.store.orders ==> s'.store.orders[k] == s.store.orders[k])
          && (k in s'.answers <==> k in s.answers)
          && (k in s.answers ==> s'.answers[k] == s.answers[k])
          && (k in s'.sentEntries <==> k in s.sentEntries)
          && (k in s'.sentExits <==> k in s.sentExits))
  }

  lemma StepTouches(cfg: RiskConfig, s: Shared, c: Call, env: Env)
    requires c.id <= s.store.orderSeq
    ensures var (s', c') := CallStep(cfg, s, c, env);
            && TouchesOnly(s, s', c'.id)
            && (if c'.id == c.id then s'.store.orderSeq == s.store.orderSeq
                else c'.id == s'.store.orderSeq == s.store.orderSeq + 1)
  {
    if c.Entry? {
      EntryTouches(cfg, s, c, env);
    } else {
      ExitTouches(cfg, s, c, env);
    }
  }

  lemma EntryTouches(cfg: RiskConfig, s: Shared, c: Call, env: Env)
    requires c.Entry? && c.id <= s.store.orderSeq
    ensures var (s', c') := EntryStep(cfg, s, c, env);
            && TouchesOnly(s, s', c'.id)
            && (if c'.id == c.id then s'.store.orderSeq == s.store.orderSeq
                else c'.id == s'.store.orderSeq == s.store.orderSeq + 1)
  {
  }

  lemma ExitTouches(cfg: RiskConfig, s: Shared, c: Call, env: Env)
    requires c.Exit? && c.id <= s.store.orderSeq
    ensures var (s', c') := ExitStep(cfg, s, c, env);
            && TouchesOnly(s, s', c'.id)
            && (if c'.id == c.id then s'.store.orderSeq == s.store.orderSeq
                else c'.id == s'.store.orderSeq == s.store.orderSeq + 1)
  {
  }

  lemma EntryStepConsistent(faultless: bool, cfg: RiskConfig, s: Shared, c: Call, env: Env)
    requires c.Entry? && EntryConsistent(faultless, s, c) && (faultless ==> env.commits)
    requires AllSettled(s)
    requires forall id :: id in s.store.orders || id in s.sentEntries || id in s.sentExits || id in s.answers
               ==> id <= s.store.orderSeq
    ensures var (s', c') := CallStep(cfg, s, c, env);
            && c'.Entry? && EntryConsistent(faultless, s', c')
            && (c'.id in s'.sentEntries ==> EntrySettled(s', c'.id))
            && (c'.id in s'.sentExits ==> ExitSettled(s', c'.id))
  {
    assert c.id in s.sentEntries ==> EntrySettled(s, c.id);
    assert c.id in s.sentExits ==> ExitSettled(s, c.id);
  }

  lemma ExitStepConsistent(faultless: bool, cfg: RiskConfig, s: Shared, c: Call, env: Env)
    requires c.Exit? && ExitConsistent(faultless, s, c) && (faultless ==> env.commits)
    requires AllSettled(s)
    requires forall id :: id in s.store.orders || id in s.sentEntries || id in s.sentExits || id in s.answers
               ==> id <= s.store.orderSeq
    ensures var (s', c') := CallStep(cfg, s, c, env);
            && c'.Exit? && ExitConsistent(faultless, s', c')
            && (c'.id in s'.sentEntries ==> EntrySettled(s', c'.id))
            && (c'.id in s'.sentExits ==> ExitSettled(s', c'.id))
  {
    assert c.id in s.sentEntries ==> EntrySettled(s, c.id);
    assert c.id in s.sentExits ==> ExitSettled(s, c.id);
  }

  lemma OthersStayConsistent(faultless: bool, s: Shared, s': Shared, id: nat, c: Call)
    requires Consistent(faultless, s, c) && TouchesOnly(s, s', id)
    requires c.id > 0 ==> c.id != id
    ensures Consistent(faultless, s', c)
  {
  }

  lemma StepStaysDurable(faultless: bool, cfg: RiskConfig, sys: System, caller: nat, env: Env)
    requires Durable(faultless, sys) && caller < |sys.calls| && (faultless ==> env.commits)
    ensures Durable(faultless, Next(cfg, sys, Step(caller, env)))
  {
    var s, c := sys.shared, sys.calls[caller];
    var (s', c') := CallStep(cfg, s, c, env);
    StepTouches(cfg, s, c, env);
    assert Consistent(faultless, s, c);
    if c.Entry? {
      EntryStepConsistent(faultless, cfg, s, c, env);
    } else {
      ExitStepConsistent(faultless, cfg, s, c, env);
    }
    DurableFollows(faultless, sys, s', caller, c');
  }

  lemma DurableFollows(faultless: bool, sys: System, s': Shared, caller: nat, c': Call)
    requires Durable(faultless, sys) && caller < |sys.calls|
    requires TouchesOnly(sys.shared, s', c'.id)
    requires if c'.id == sys.calls[caller].id then s'.store.orderSeq == sys.shared.store.orderSeq
             else c'.id == s'.store.orderSeq == sys.shared.store.orderSeq + 1
    requires Consistent(faultless, s', c')
    requires c'.id in s'.sentEntries ==> EntrySettled(s', c'.id)
    requires c'.id in s'.sentExits ==> ExitSettled(s', c'.id)
    ensures Durable(faultless, System(s', sys.calls[caller := c']))
  {
    var s, sys' := sys.shared, System(s', sys.calls[caller := c']);
    assert forall i :: 0 <= i < |sys.calls| && i != caller ==> sys'.calls[i] == sys.calls[i];
    forall i | 0 <= i < |sys'.calls|
      ensures Consistent(faultless, s', sys'.calls[i])
    {
      if i != caller {
        OthersStayConsistent(faultless, s, s', c'.id, sys.calls[i]);
      }
    }
    forall id | id in s'.sentEntries ensures EntrySettled(s', id) {
      if id != c'.id {
        assert EntrySettled(s, id);
      }
    }
    forall id | id in s'.sentExits ensures ExitSettled(s', id) {
      if id != c'.id {
        assert ExitSettled(s, id);
      }
    }
  }

  // The disk never failed in this run.
  predicate Faultless(actions: seq<Action>) {
    forall i :: 0 <= i < |actions| ==> actions[i].Step? ==> actions[i].env.commits
  }

  lemma {:induction false} RunStaysDurable(faultless: bool, cfg: RiskConfig, sys: System, actions: seq<Action>)
    requires Quiet(sys) && (faultless ==> Faultless(actions))
    ensures Durable(faultless, Run(cfg, sys, actions))
    decreases |actions|
  {
    if actions != [] {
      var n := |actions| - 1;
      var before, a := Run(cfg, sys, actions[..n]), actions[n];
      RunStaysDurable(faultless, cfg, sys, actions[..n]);
      if a.Step? && a.caller < |before.calls| {
        StepStaysDurable(faultless, cfg, before, a.caller, a.env);
      } else {
        OtherActionsDurable(faultless, cfg, before, a);
      }
    }
  }

  // Starting a call, a stop test and the kill switch touch neither store nor broker.
  lemma OtherActionsDurable(faultless: bool, cfg: RiskConfig, sys: System, a: Action)
    requires Durable(faultless, sys) && !(a.Step? && a.caller < |sys.calls|)
    ensures Durable(faultless, Next(cfg, sys, a))
  {
    var after := Next(cfg, sys, a);
    assert after.shared.(risk := sys.shared.risk) == sys.shared;
    CallsAdded(faultless, sys, after);
  }

  lemma CallsAdded(faultless: bool, sys: System, after: System)
    requires Durable(faultless, sys) && after.shared.(risk := sys.shared.risk) == sys.shared
    requires |sys.calls| <= |after.calls| <= |sys.calls| + 1 && after.calls[..|sys.calls|] == sys.calls
    requires |after.calls| > |sys.calls| ==> after.calls[|sys.calls|].id == 0 && Consistent(faultless, after.shared, after.calls[|sys.calls|])
    ensures Durable(faultless, after)
  {
    assert forall i :: 0 <= i < |sys.calls| ==> after.calls[i] == sys.calls[i];
    forall i | 0 <= i < |after.calls| ensures Consistent(faultless, after.shared, after.calls[i]) {
      if i < |sys.calls| {
        OthersStayConsistent(faultless, sys.shared, after.shared, 0, sys.calls[i]);
      }
    }
  }

  // ---- Results ----

  // At every moment of every run, so wherever the process dies: an entry that reached the
  // broker has a durable row, and unless that row records exactly what the broker answered,
  // the entry is on the list of attempts to reconcile. Failed writes change nothing of this.
  lemma SentEntryIsAccountedFor(cfg: RiskConfig, sys: System, actions: seq<Action>, id: nat)
    requires Quiet(sys)
    requires id in Run(cfg, sys, actions).shared.sentEntries
    ensures EntrySettled(Run(cfg, sys, actions).shared, id)
  {
    RunStaysDurable(false, cfg, sys, actions);
  }

  // An exit is sent even when its intent could not be written. A sent exit has a durable row
  // exactly when that write succeeded, and a row it has is as trustworthy as an entry's.
  lemma SentExitIsAccountedForIff(cfg: RiskConfig, sys: System, actions: seq<Action>, i: nat)
    requires Quiet(sys)
    requires i < |Run(cfg, sys, actions).calls|
    requires var last := Run(cfg, sys, actions);
             last.calls[i].Exit? && last.calls[i].id in last.shared.sentExits && last.calls[i].id > 0
    ensures var last := Run(cfg, sys, actions);
            && (last.calls[i].id in last.shared.store.orders <==> last.calls[i].recorded)
            && ExitSettled(last.shared, last.calls[i].id)
  {
    RunStaysDurable(false, cfg, sys, actions);
    var last := Run(cfg, sys, actions);
    assert Consistent(false, last.shared, last.calls[i]);
  }

  // While the disk works, the list is exact: an entry call that has drawn its id is listed
  // until its outcome is marked, and after that exactly when the outcome is unknown.
  lemma ListIsExact(cfg: RiskConfig, sys: System, actions: seq<Action>, i: nat)
    requires Quiet(sys) && Faultless(actions)
    requires i < |Run(cfg, sys, actions).calls|
    requires var c := Run(cfg, sys, actions).calls[i];
             && c.Entry? && !c.epc.EStart? && !c.epc.EIntent?
             && (c.epc.EDone? ==> c.reply.Some?)
    ensures var last := Run(cfg, sys, actions);
            var c := last.calls[i];
            Listed(last.shared, c.id) <==> (!c.epc.ESavePosition? && !c.epc.EDone?) || c.reply == Some(Unknown)
  {
    RunStaysDurable(true, cfg, sys, actions);
    var last := Run(cfg, sys, actions);
    assert Consistent(true, last.shared, last.calls[i]);
  }

  // What a settled row says, answer by answer: a fill of less than was asked for is partial, and
  // what was not filled has no quantity and no price.
  predicate Says(row: OrderRow, requested: int, entry: bool, a: Answer) {
    match a
    case Fill(quantity, price) =>
      && row.filledQuantity == quantity && row.filledPrice == price
      && row.status == if entry && 0 < requested && quantity < requested then Partial else Filled
    case Reject => row.status == Rejected && row.filledQuantity == 0 && row.filledPrice == 0.0
    case Unknown => row.status == Indeterminate && row.filledQuantity == 0 && row.filledPrice == 0.0
  }

  // While the disk works, every call that is done with an answered order has left the row of
  // just that order, and the row says just that answer.
  lemma RowTellsOrderAndAnswer(cfg: RiskConfig, sys: System, actions: seq<Action>, i: nat)
    requires Quiet(sys) && Faultless(actions)
    requires i < |Run(cfg, sys, actions).calls|
    requires var c := Run(cfg, sys, actions).calls[i];
             if c.Entry? then c.epc.EDone? && c.reply.Some? else c.xpc.XDone? && c.id > 0 && c.recorded
    ensures var c, orders := Run(cfg, sys, actions).calls[i], Run(cfg, sys, actions).shared.store.orders;
            && c.id in orders && c.reply.Some?
            && if c.Entry? then
                 Describes(orders[c.id], c.req.symbol, c.req.side, c.req.quantity, c.price) && Says(orders[c.id], c.req.quantity, true, c.reply.value)
               else
                 Describes(orders[c.id], c.symbol, c.side, c.quantity, c.price) && Says(orders[c.id], c.quantity, false, c.reply.value)
  {
    RunStaysDurable(true, cfg, sys, actions);
    var last := Run(cfg, sys, actions);
    assert Consistent(true, last.shared, last.calls[i]);
  }
}
