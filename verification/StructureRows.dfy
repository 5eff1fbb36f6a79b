/** What a structure of legs leaves in the durable position rows, from its entry to its exit. */
module StructureRows {
  import opened Common
  import opened Charges
  import opened RiskModel
  import opened StoreModel
  import opened OrderProtocol
  import opened TradingEngine
  import opened MultiLeg

  // ---- The plan ----

  // Each planned leg is the one asked for: the symbol of its strike and type, its side, and so
  // many lots but at least one.
  lemma PlanIsAsAsked(legs: seq<OrderLeg>, lotSize: int, target: (int, OptionType) -> Symbol)
    ensures var plan := Plan(legs, lotSize, target);
            && |plan| == |legs|
            && forall i :: 0 <= i < |legs| ==>
                 && plan[i].symbol == target(legs[i].strikeOffset, legs[i].optionType) && plan[i].side == legs[i].direction
                 && plan[i].quantity == (if legs[i].quantity > 1 then legs[i].quantity * lotSize else lotSize)
  {
  }

  // What a leg needs to go out: the kill switch off, room in the window, a price and a quantity,
  // and the capital: its share of the margin when it is short, its premium when it is long, and
  // the charges of a carried option either way.
  predicate CanGoOut(cfg: RiskConfig, s: RiskState, leg: PlannedLeg, perSell: real, now: int, price: real) {
    && !s.killed && InWindow(s.orderTimes, now) < cfg.maxOrdersPerMin && price > 0.0 && leg.quantity > 0
    && (leg.side.Sell? ==> perSell > 0.0)
    && (if leg.side.Sell? then perSell else price * leg.quantity as real) + cfg.fees(price, leg.quantity, OptCarry, leg.side)
       <= s.currentBalance - s.sessionBalanceUsed
  }

  // The next leg fills exactly when it can go out, its intent is written and the broker fills it.
  lemma LegFillsIff(cfg: RiskConfig, done: Progress, plan: seq<PlannedLeg>, perSell: real, script: Script)
    requires done.stopped.None? && |done.filled| < |plan|
    ensures EnterOne(cfg, done, plan, perSell, script).stopped.None?
            <==> CanGoOut(cfg, done.shared.risk, plan[|done.filled|], perSell, script.checkedAt, script.quote)
                 && script.intentCommits && script.answer.Fill?
  {
    var req := LegRequest(plan[|done.filled|], perSell);
    EntrySentIff(cfg, done.shared, req, script);
    FundsCheckIsExact(cfg, done.shared.risk, req, script.checkedAt, script.quote);
  }

  // ---- The premium ----

  // The prices of the entry fills in a log.
  function FillPrices(log: seq<Event>): real {
    if log == [] then 0.0
    else
      var last := log[|log| - 1];
      FillPrices(log[..|log| - 1]) + if last.EntryAnswered? then FilledPrice(last.answer) else 0.0
  }

  lemma {:induction false} FillPricesAdd(log: seq<Event>, more: seq<Event>)
    ensures FillPrices(log + more) == FillPrices(log) + FillPrices(more)
    decreases |more|
  {
    if more == [] {
      assert log + more == log;
    } else {
      var n := |more| - 1;
      FillPricesAdd(log, more[..n]);
      assert (log + more)[..|log + more| - 1] == log + more[..n];
    }
  }

  lemma PriceOfOne(e: Event)
    ensures FillPrices([e]) == if e.EntryAnswered? then FilledPrice(e.answer) else 0.0
  {
    assert [e][..0] == [];
  }

  lemma EventsPrice(req: EntryRequest, id: nat, answer: Answer)
    ensures FillPrices(EntryEvents(req, id, answer)) == FilledPrice(answer)
  {
    var events := EntryEvents(req, id, answer);
    assert events == [events[0]] + [events[1]] + [events[2]];
    FillPricesAdd([events[0]] + [events[1]], [events[2]]);
    FillPricesAdd([events[0]], [events[1]]);
    PriceOfOne(events[0]);
    PriceOfOne(events[1]);
    PriceOfOne(events[2]);
  }

  lemma EnterOnePremium(cfg: RiskConfig, done: Progress, plan: seq<PlannedLeg>, perSell: real, script: Script)
    requires done.stopped.None? && |done.filled| < |plan| && plan[|done.filled|].symbol !in done.shared.risk.open
    ensures var next := EnterOne(cfg, done, plan, perSell, script);
            next.stopped.None? ==> next.premium - done.premium == FillPrices(next.shared.log) - FillPrices(done.shared.log)
  {
    var req := LegRequest(plan[|done.filled|], perSell);
    EntrySummary(cfg, done.shared, req, script);
    EntryAnswerIs(cfg, done.shared, req, script);
    FillPricesAdd(done.shared.log, EntryEvents(req, done.shared.store.orderSeq + 1, script.answer));
    EventsPrice(req, done.shared.store.orderSeq + 1, script.answer);
  }

  lemma EntryAnswerIs(cfg: RiskConfig, s: Shared, req: EntryRequest, script: Script)
    ensures var result := EntryResultOf(Alone(cfg, s, NewEntry(req), script).1);
            result.EntryFilled? ==> script.answer == Fill(result.quantity, result.price)
  {
    if EntryResultOf(Alone(cfg, s, NewEntry(req), script).1).EntryFilled? {
      FilledEntryAgreesIff(cfg, s, req, script);
    }
  }

  lemma {:induction false} EnterPremium(cfg: RiskConfig, before: Shared, done: Progress, plan: seq<PlannedLeg>, perSell: real, feed: Feed, k: nat)
    requires Enterable(before, plan) && Entered(before, done, plan, perSell)
    requires done.stopped.None? ==> done.premium == FillPrices(done.shared.log) - FillPrices(before.log)
    ensures var p := Enter(cfg, done, plan, perSell, feed, k);
            p.stopped.None? ==> p.premium == FillPrices(p.shared.log) - FillPrices(before.log)
    decreases |plan| - |done.filled|, if done.stopped.None? then 1 else 0
  {
    EnterUnrolls(cfg, done, plan, perSell, feed, k);
    if done.stopped.None? && |done.filled| < |plan| {
      NextLegIsFree(before, done, plan, perSell);
      EnterOneEntered(cfg, before, done, plan, perSell, feed(k));
      EnterOnePremium(cfg, done, plan, perSell, feed(k));
      EnterPremium(cfg, before, EnterOne(cfg, done, plan, perSell, feed(k)), plan, perSell, feed, k + 1);
    }
  }

  // The premium of a structure that is on is the sum of the prices its legs were filled at.
  lemma PremiumIsSumOfFills(cfg: RiskConfig, s: Shared, plan: seq<PlannedLeg>, perSell: real, feed: Feed, k: nat, p: Progress)
    requires Enterable(s, plan) && p == EnterOrUnwind(cfg, s, plan, perSell, feed, k) && p.stopped.None?
    ensures p.premium == FillPrices(p.shared.log) - FillPrices(s.log)
  {
    assert SymbolsOf(plan[..0]) == {};
    EnterPremium(cfg, s, Progress(s, [], 0.0, None), plan, perSell, feed, k);
  }

  // ---- The rows of an entry ----

  // Position ids are drawn in sequence.
  ghost predicate RowsDrawn(s: StoreState) {
    forall r :: r in s.positions ==> r <= s.positionSeq
  }

  // The row of a filled leg: given in its record, open, and of its symbol and side.
  predicate HasOpenRow(s: StoreState, leg: LegRecord) {
    && leg.record.Some? && leg.record.value in s.positions
    && s.positions[leg.record.value].isOpen
    && s.positions[leg.record.value].symbol == leg.symbol && s.positions[leg.record.value].side == leg.side
  }

  ghost predicate EachHasOpenRow(s: StoreState, legs: seq<LegRecord>) {
    forall i :: 0 <= i < |legs| ==> HasOpenRow(s, legs[i])
  }

  // One of the legs has this record.
  predicate Records(legs: seq<LegRecord>, r: nat) {
    exists i :: 0 <= i < |legs| && legs[i].record == Some(r)
  }

  // Rows are added for these legs only, and those there before are as they were.
  ghost predicate RowsAdded(before: StoreState, after: StoreState, legs: seq<LegRecord>) {
    && (forall r :: r in before.positions ==> r in after.positions && after.positions[r] == before.positions[r])
    && (forall r :: r in after.positions && r !in before.positions ==> Records(legs, r))
  }

  // An entry that has drawn its ids.
  predicate Drawn(c: Call) {
    c.Entry? && !c.epc.EStart? && !c.epc.EIntent?
  }

  lemma {:induction false} EntryDraws(cfg: RiskConfig, s: Shared, c: Call, script: Script)
    requires c.Entry?
    ensures var (s', c') := Alone(cfg, s, c, script);
            && (if Drawn(c) then s'.store.positionSeq == s.store.positionSeq && c'.positionId == c.positionId
                else s.store.positionSeq <= s'.store.positionSeq
                     && (c'.reply.Some? && c.reply.None? ==> c'.positionId == s'.store.positionSeq == s.store.positionSeq + 1))
            && (c'.reply.None? ==> s'.store.positions == s.store.positions)
    decreases StepsLeft(c)
  {
    if !Finished(c) {
      var (s1, c1) := CallStep(cfg, s, c, EnvFor(script, c));
      EntryDraws(cfg, s1, c1, script);
    }
  }

  // What an entry does to the rows: a filled one writes its own, under the next id.
  lemma EntryRows(cfg: RiskConfig, s: Shared, req: EntryRequest, script: Script)
    ensures var (s', c') := Alone(cfg, s, NewEntry(req), script);
            var result, r := EntryResultOf(c'), s.store.positionSeq + 1;
            && s.store.positionSeq <= s'.store.positionSeq
            && (result.EntryFilled? ==> result.positionId == r && s'.store.positionSeq == r)
            && s'.store.positions == if result.EntryFilled? && script.recordCommits then
                 s.store.positions[r := PositionRow(req.symbol, req.side, result.quantity, result.price, 0.0, true)]
               else s.store.positions
  {
    EntryDraws(cfg, s, NewEntry(req), script);
    var sent, s1, c1 := EntryUpToSend(cfg, s, req, script);
    if sent {
      EntryAfterAnswer(cfg, s1, c1, script);
    }
  }

  ghost predicate AllCommit(feed: Feed) {
    forall k: nat :: Commits(feed, k)
  }

  predicate Commits(feed: Feed, k: nat) {
    feed(k).recordCommits
  }

  ghost predicate RecordsNew(before: StoreState, legs: seq<LegRecord>) {
    forall i :: 0 <= i < |legs| && legs[i].record.Some? ==> legs[i].record.value !in before.positions
  }

  // The rows along an entry.
  ghost predicate RowsFollow(before: StoreState, p: Progress) {
    && RowsDrawn(p.shared.store) && EachHasOpenRow(p.shared.store, p.filled) && RowsAdded(before, p.shared.store, p.filled)
    && RecordsNew(before, p.filled)
  }

  lemma RowWritten(before: StoreState, was: StoreState, now: StoreState, legs: seq<LegRecord>, leg: LegRecord, row: PositionRow)
    requires RowsDrawn(was) && EachHasOpenRow(was, legs) && RowsAdded(before, was, legs) && RecordsNew(before, legs)
    requires leg.record == Some(now.positionSeq) && now.positionSeq == was.positionSeq + 1
    requires now.positions == was.positions[now.positionSeq := row] && row.symbol == leg.symbol && row.side == leg.side && row.isOpen
    ensures RowsDrawn(now) && EachHasOpenRow(now, legs + [leg]) && RowsAdded(before, now, legs + [leg]) && RecordsNew(before, legs + [leg])
  {
    forall r | r in now.positions && r !in before.positions
      ensures Records(legs + [leg], r)
    {
      if r == now.positionSeq {
        assert (legs + [leg])[|legs|].record == Some(r);
      } else {
        var i :| 0 <= i < |legs| && legs[i].record == Some(r);
        assert (legs + [leg])[i].record == Some(r);
      }
    }
  }

  lemma EnterOneRows(cfg: RiskConfig, before: StoreState, done: Progress, plan: seq<PlannedLeg>, perSell: real, script: Script)
    requires done.stopped.None? && |done.filled| < |plan| && RowsFollow(before, done) && script.recordCommits
    ensures RowsFollow(before, EnterOne(cfg, done, plan, perSell, script))
  {
    var leg := plan[|done.filled|];
    var req, next := LegRequest(leg, perSell), EnterOne(cfg, done, plan, perSell, script);
    EntryRows(cfg, done.shared, req, script);
    if next.stopped.None? {
      var result := EntryResultOf(Alone(cfg, done.shared, NewEntry(req), script).1);
      RowWritten(before, done.shared.store, next.shared.store, done.filled, next.filled[|done.filled|],
                 PositionRow(req.symbol, req.side, result.quantity, result.price, 0.0, true));
    }
  }

  lemma {:induction false} EnterRows(cfg: RiskConfig, before: StoreState, done: Progress, plan: seq<PlannedLeg>, perSell: real, feed: Feed, k: nat)
    requires RowsFollow(before, done) && AllCommit(feed)
    ensures RowsFollow(before, Enter(cfg, done, plan, perSell, feed, k))
    decreases |plan| - |done.filled|, if done.stopped.None? then 1 else 0
  {
    EnterUnrolls(cfg, done, plan, perSell, feed, k);
    if done.stopped.None? && |done.filled| < |plan| {
      assert Commits(feed, k);
      EnterOneRows(cfg, before, done, plan, perSell, feed(k));
      FilledGrows(cfg, done, plan, perSell, feed(k));
      EnterRows(cfg, before, EnterOne(cfg, done, plan, perSell, feed(k)), plan, perSell, feed, k + 1);
    }
  }

  lemma FilledGrows(cfg: RiskConfig, done: Progress, plan: seq<PlannedLeg>, perSell: real, script: Script)
    requires done.stopped.None? && |done.filled| < |plan|
    ensures var next := EnterOne(cfg, done, plan, perSell, script);
            if next.stopped.None? then |next.filled| == |done.filled| + 1 else |next.filled| == |done.filled|
  {
  }

  // ---- The rows of an exit ----

  lemma FirstOrLater(legs: seq<LegRecord>, r: nat)
    requires legs != []
    ensures Records(legs, r) <==> legs[0].record == Some(r) || Records(legs[1..], r)
  {
    if Records(legs, r) {
      var i :| 0 <= i < |legs| && legs[i].record == Some(r);
      if i > 0 {
        assert legs[1..][i - 1].record == Some(r);
      }
    }
    if Records(legs[1..], r) {
      var i :| 0 <= i < |legs[1..]| && legs[1..][i].record == Some(r);
      assert legs[i + 1].record == Some(r);
    }
  }

  // These legs' rows are closed, and all others as they were.
  ghost predicate RowsClosed(before: StoreState, after: StoreState, legs: seq<LegRecord>) {
    && after.positions.Keys == before.positions.Keys
    && forall r :: r in before.positions ==>
         if Records(legs, r) then !after.positions[r].isOpen else after.positions[r] == before.positions[r]
  }

  // Exits that all fill close the rows of their legs and no other.
  lemma {:induction false} ExitsCloseRows(cfg: RiskConfig, s: Shared, legs: seq<LegRecord>, feed: Feed, k: nat)
    requires AllCommit(feed) && ExitLegs(cfg, s, legs, feed, k).1
    ensures RowsClosed(s.store, ExitLegs(cfg, s, legs, feed, k).0.store, legs)
    decreases |legs|
  {
    if legs != [] {
      var s1 := Alone(cfg, s, NewExit(legs[0].symbol, legs[0].record), feed(k)).0;
      ExitClosesRecord(cfg, s, legs[0].symbol, legs[0].record, feed(k));
      assert Commits(feed, k);
      ExitsCloseRows(cfg, s1, legs[1..], feed, k + 1);
      OneMoreClosed(s.store, s1.store, ExitLegs(cfg, s, legs, feed, k).0.store, legs, feed(k).answer.price);
    }
  }

  lemma OneMoreClosed(before: StoreState, mid: StoreState, after: StoreState, legs: seq<LegRecord>, price: real)
    requires legs != [] && mid.positions == RecordClosed(before.positions, legs[0].record, price, true)
    requires RowsClosed(mid, after, legs[1..])
    ensures RowsClosed(before, after, legs)
  {
    forall r | r in before.positions
      ensures if Records(legs, r) then !after.positions[r].isOpen else after.positions[r] == before.positions[r]
    {
      FirstOrLater(legs, r);
    }
  }

  // ---- Results ----

  // While no write fails, a structure that is on has an open row for each leg, found under the
  // leg's record and of its symbol and side, and no other row has changed.
  lemma StructureHasItsRows(cfg: RiskConfig, s: Shared, plan: seq<PlannedLeg>, perSell: real, feed: Feed, k: nat, p: Progress)
    requires AllCommit(feed) && RowsDrawn(s.store)
    requires p == EnterOrUnwind(cfg, s, plan, perSell, feed, k) && p.stopped.None?
    ensures EachHasOpenRow(p.shared.store, p.filled) && RowsAdded(s.store, p.shared.store, p.filled)
  {
    EnterRows(cfg, s.store, Progress(s, [], 0.0, None), plan, perSell, feed, k);
  }

  // And an exit of it that succeeds closes them again: every row that was not there before the
  // entry is closed, and every row that was is as it was.
  lemma EnteredAndLeft(cfg: RiskConfig, s: Shared, plan: seq<PlannedLeg>, perSell: real, feed: Feed, k: nat, p: Progress, later: nat)
    requires AllCommit(feed) && RowsDrawn(s.store)
    requires p == EnterOrUnwind(cfg, s, plan, perSell, feed, k) && p.stopped.None? && ExitLegs(cfg, p.shared, p.filled, feed, later).1
    ensures NothingLeftOpen(s.store, ExitLegs(cfg, p.shared, p.filled, feed, later).0.store)
  {
    EnterRows(cfg, s.store, Progress(s, [], 0.0, None), plan, perSell, feed, k);
    ExitsCloseRows(cfg, p.shared, p.filled, feed, later);
  }

  // Rows that were there are as they were; those that were not are closed.
  ghost predicate NothingLeftOpen(before: StoreState, after: StoreState) {
    && (forall r :: r in before.positions ==> r in after.positions && after.positions[r] == before.positions[r])
    && (forall r :: r in after.positions && r !in before.positions ==> !after.positions[r].isOpen)
  }
}
