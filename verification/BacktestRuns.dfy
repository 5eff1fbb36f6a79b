/** What holds of every backtest: no rewritten past, trades in turn, closed accounts, a real drawdown. */
module BacktestRuns {
  import opened Common
  import opened Backtest

  // ---- Extending the data ----

  // The loop at a candle sees only candles up to it: two series that share a beginning give
  // the same state along it.
  lemma {:induction false} LoopSeesOnlyThePast(a: seq<Candle>, b: seq<Candle>, n: nat, sim: Sim)
    requires n < |a| <= |b| && a == b[..|a|]
    ensures Loop(a, n, sim) == Loop(b, n, sim)
    decreases n
  {
    if n > sim.from {
      LoopSeesOnlyThePast(a, b, n - 1, sim);
      SamePass(a, b, n, Loop(a, n - 1, sim), sim);
    }
  }

  lemma SamePass(a: seq<Candle>, b: seq<Candle>, n: nat, before: Option<State>, sim: Sim)
    requires sim.from < n < |a| <= |b| && a == b[..|a|]
    requires Loop(a, n - 1, sim) == before && Loop(b, n - 1, sim) == before
    ensures Loop(a, n, sim) == Loop(b, n, sim)
  {
    assert a[..n] == b[..n];
  }

  lemma ActKeepsTrades(st: State, signal: Signal, fill: Candle, desk: Desk)
    ensures st.trades <= Act(st, signal, fill, desk).trades
  {
  }

  lemma ActClosesBySignal(st: State, signal: Signal, fill: Candle, desk: Desk)
    requires Sound(desk)
    ensures forall t :: t in Act(st, signal, fill, desk).trades ==> t in st.trades || !t.reason.EndOfData?
  {
    if st.pos.Some? {
      assert Completes(desk.leave(st.pos.value, fill, ExitSignal), st.pos.value, fill, ExitSignal);
      assert Completes(desk.leave(st.pos.value, fill, OppositeSignal), st.pos.value, fill, OppositeSignal);
    }
  }

  lemma {:induction false} TradesOnlyGrow(candles: seq<Candle>, n: nat, m: nat, sim: Sim)
    requires n <= m < |candles| && Loop(candles, m, sim).Some?
    ensures Loop(candles, n, sim).Some?
    ensures Loop(candles, n, sim).value.trades <= Loop(candles, m, sim).value.trades
    decreases m
  {
    if n < m && sim.from < m {
      var st := Loop(candles, m - 1, sim).value;
      TradesOnlyGrow(candles, n, m - 1, sim);
      var asked := Asked(st, candles[..m], sim.desk);
      ActKeepsTrades(asked, sim.strat(asked.seen), candles[m], sim.desk);
    }
  }

  // Trades closed by a signal, leaving out a close forced by the end of the data.
  function SignalClosed(trades: seq<Trade>): seq<Trade> {
    if trades == [] then []
    else
      var earlier, last := SignalClosed(trades[..|trades| - 1]), trades[|trades| - 1];
      if last.reason.EndOfData? then earlier else earlier + [last]
  }

  lemma {:induction false} AllSignalClosed(trades: seq<Trade>)
    requires forall t :: t in trades ==> !t.reason.EndOfData?
    ensures SignalClosed(trades) == trades
    decreases |trades|
  {
    if trades != [] {
      AllSignalClosed(trades[..|trades| - 1]);
    }
  }

  lemma {:induction false} LoopClosesBySignal(candles: seq<Candle>, n: nat, sim: Sim)
    requires Sound(sim.desk)
    requires n < |candles| && Loop(candles, n, sim).Some?
    ensures forall t :: t in Loop(candles, n, sim).value.trades ==> !t.reason.EndOfData?
    decreases n
  {
    if n > sim.from {
      LoopClosesBySignal(candles, n - 1, sim);
      var asked := Asked(Loop(candles, n - 1, sim).value, candles[..n], sim.desk);
      ActClosesBySignal(asked, sim.strat(asked.seen), candles[n], sim.desk);
    }
  }

  lemma FinalTrades(candles: seq<Candle>, sim: Sim)
    requires Sound(sim.desk)
    requires candles != [] && FinalState(candles, sim).Some?
    ensures var st, final := Loop(candles, |candles| - 1, sim).value, FinalState(candles, sim).value;
            && final.pos.None? && st.trades <= final.trades
            && SignalClosed(final.trades) == st.trades
  {
    var st, final := Loop(candles, |candles| - 1, sim).value, FinalState(candles, sim).value;
    LoopClosesBySignal(candles, |candles| - 1, sim);
    AllSignalClosed(st.trades);
    if st.pos.Some? {
      assert final.trades[..|final.trades| - 1] == st.trades;
    }
  }

  // Extending the data never rewrites the past: the signal-closed trades of a run on a prefix
  // begin the trades of the run on the longer series, and a prefix fails no run that the
  // longer series completes.
  lemma ExtendingKeepsThePast(a: seq<Candle>, b: seq<Candle>, sim: Sim)
    requires Sound(sim.desk)
    requires a != [] && |a| <= |b| && a == b[..|a|]
    requires FinalState(b, sim).Some?
    ensures FinalState(a, sim).Some?
    ensures SignalClosed(FinalState(a, sim).value.trades) <= FinalState(b, sim).value.trades
    ensures ValidCandles(b) ==> ValidCandles(a)
  {
    PastTradesKept(a, b, sim);
    PrefixValid(a, b);
  }

  lemma PrefixValid(a: seq<Candle>, b: seq<Candle>)
    requires |a| <= |b| && a == b[..|a|]
    ensures ValidCandles(b) ==> ValidCandles(a)
  {
    assert forall i :: 0 <= i < |a| ==> a[i] == b[i];
  }

  lemma PastTradesKept(a: seq<Candle>, b: seq<Candle>, sim: Sim)
    requires Sound(sim.desk)
    requires a != [] && |a| <= |b| && a == b[..|a|]
    requires FinalState(b, sim).Some?
    ensures FinalState(a, sim).Some?
    ensures SignalClosed(FinalState(a, sim).value.trades) <= FinalState(b, sim).value.trades
  {
    var n := |a| - 1;
    LoopTradesAreFinal(b, n, sim);
    PrefixTrades(a, b, n, Loop(b, n, sim).value, sim);
  }

  // The run finishes, having closed just these trades by signal.
  predicate FinishesWith(candles: seq<Candle>, sim: Sim, trades: seq<Trade>)
    requires candles != []
  {
    FinalState(candles, sim).Some? && SignalClosed(FinalState(candles, sim).value.trades) == trades
  }

  lemma FinishesWithLoop(candles: seq<Candle>, n: nat, st: State, sim: Sim)
    requires Sound(sim.desk) && n + 1 == |candles| && Loop(candles, n, sim) == Some(st)
    ensures FinishesWith(candles, sim, st.trades)
  {
    assert FinalState(candles, sim).Some?;
    FinalTrades(candles, sim);
  }

  lemma PrefixTrades(a: seq<Candle>, b: seq<Candle>, n: nat, st: State, sim: Sim)
    requires Sound(sim.desk)
    requires n + 1 == |a| <= |b| && a == b[..|a|] && Loop(b, n, sim) == Some(st)
    ensures FinishesWith(a, sim, st.trades)
  {
    LoopSeesOnlyThePast(a, b, n, sim);
    FinishesWithLoop(a, n, st, sim);
  }

  lemma LoopTradesAreFinal(candles: seq<Candle>, n: nat, sim: Sim)
    requires Sound(sim.desk)
    requires n < |candles| && FinalState(candles, sim).Some?
    ensures Loop(candles, n, sim).Some?
    ensures Loop(candles, n, sim).value.trades <= FinalState(candles, sim).value.trades
  {
    var m := |candles| - 1;
    TradesOnlyGrow(candles, n, m, sim);
    FinalTrades(candles, sim);
    PrefixOfPrefix(Loop(candles, n, sim).value.trades, Loop(candles, m, sim).value.trades,
                   FinalState(candles, sim).value.trades);
  }

  lemma PrefixOfPrefix(x: seq<Trade>, y: seq<Trade>, z: seq<Trade>)
    requires x <= y && y <= z
    ensures x <= z
  {
  }

  // ---- The accounts ----

  function NetSum(trades: seq<Trade>): real {
    if trades == [] then 0.0
    else NetSum(trades[..|trades| - 1]) + (trades[|trades| - 1].gross - trades[|trades| - 1].charges)
  }

  predicate Balanced(st: State) {
    st.realized == NetSum(st.trades) && forall t :: t in st.trades ==> t.net == t.gross - t.charges
  }

  lemma BookBalances(st: State, t: Trade)
    requires Balanced(st) && t.net == t.gross - t.charges
    ensures Balanced(Book(st, t))
  {
    assert (st.trades + [t])[..|st.trades|] == st.trades;
  }

  lemma ActBalances(st: State, signal: Signal, fill: Candle, desk: Desk)
    requires Sound(desk)
    requires Balanced(st)
    ensures Balanced(Act(st, signal, fill, desk))
  {
    if st.pos.Some? {
      BookBalances(st, desk.leave(st.pos.value, fill, ExitSignal));
      BookBalances(st, desk.leave(st.pos.value, fill, OppositeSignal));
    }
  }

  lemma {:induction false} LoopBalances(candles: seq<Candle>, n: nat, sim: Sim)
    requires Sound(sim.desk)
    requires n < |candles| && Loop(candles, n, sim).Some?
    ensures Balanced(Loop(candles, n, sim).value)
    decreases n
  {
    if n > sim.from {
      LoopBalances(candles, n - 1, sim);
      var asked := Asked(Loop(candles, n - 1, sim).value, candles[..n], sim.desk);
      ActBalances(asked, sim.strat(asked.seen), candles[n], sim.desk);
    }
  }

  // A run ends flat, and what it realized is the gross profit of its trades less charges.
  lemma RunEndsFlatAndBalanced(candles: seq<Candle>, sim: Sim)
    requires Sound(sim.desk)
    requires candles != [] && FinalState(candles, sim).Some?
    ensures var final := FinalState(candles, sim).value;
            final.pos.None? && Balanced(final)
  {
    var st := Loop(candles, |candles| - 1, sim).value;
    LoopBalances(candles, |candles| - 1, sim);
    if st.pos.Some? {
      BookBalances(st, sim.desk.leave(st.pos.value, ClosingCandle(candles[|candles| - 1]), EndOfData));
    }
  }

  // ---- Where trades come from ----

  // Candles at whose open a trade was opened and closed.
  datatype Span = Span(entry: nat, exit: nat)

  // The signal given at candle n.
  function SignalAt(candles: seq<Candle>, n: nat, sim: Sim): Signal
    requires n < |candles|
  {
    match Loop(candles, n, sim)
    case None => Signal(Hold, [])
    case Some(st) => sim.strat(Asked(st, candles[..n + 1], sim.desk).seen)
  }

  predicate Enters(s: Signal) {
    s.legs != [] || s.action == Buying || s.action == Selling
  }

  // The signal that closes a position, and what the trade says was the reason.
  predicate Leaves(s: Signal, pos: Position, reason: Reason) {
    && s.legs == []
    && match reason
       case ExitSignal => s.action == Exiting
       case OppositeSignal => pos.kind.Directional? && s.action == OppositeOf(pos.kind.side)
       case EndOfData => false
  }

  function OppositeOf(side: Action): Action {
    if side == Buying then Selling else Buying
  }

  // The position was opened at candle `entry`, on the signal of the candle before.
  predicate OpenedAt(pos: Position, candles: seq<Candle>, entry: nat, sim: Sim) {
    && sim.from < entry < |candles|
    && Enters(SignalAt(candles, entry - 1, sim))
    && pos == sim.desk.enter(SignalAt(candles, entry - 1, sim), candles[entry])
  }

  // The trade is exactly the position its entry signal opened at the next open, closed at the
  // open after its exit signal.
  predicate Spans(t: Trade, span: Span, candles: seq<Candle>, sim: Sim) {
    && sim.from < span.entry < span.exit < |candles|
    && var pos := sim.desk.enter(SignalAt(candles, span.entry - 1, sim), candles[span.entry]);
       && OpenedAt(pos, candles, span.entry, sim)
       && Leaves(SignalAt(candles, span.exit - 1, sim), pos, t.reason)
       && t == sim.desk.leave(pos, candles[span.exit], t.reason)
  }

  predicate InTurn(spans: seq<Span>) {
    forall i, j :: 0 <= i < j < |spans| ==> spans[i].exit < spans[j].entry
  }

  predicate Traced(st: State, candles: seq<Candle>, n: nat, spans: seq<Span>, entry: nat, sim: Sim) {
    && |spans| == |st.trades| && InTurn(spans)
    && (forall k :: 0 <= k < |spans| ==> Spans(st.trades[k], spans[k], candles, sim) && spans[k].exit <= n)
    && (st.pos.Some? ==>
          && OpenedAt(st.pos.value, candles, entry, sim) && entry <= n
          && (st.pos.value.kind.Directional? ==> st.pos.value.kind.side in {Buying, Selling})
          && forall k :: 0 <= k < |spans| ==> spans[k].exit < entry)
  }

  // What acting on a signal can do: nothing to the book, open a position, or close one.
  lemma ActCases(st: State, signal: Signal, fill: Candle, desk: Desk)
    requires st.pos.Some? && st.pos.value.kind.Directional? ==> st.pos.value.kind.side in {Buying, Selling}
    ensures var after := Act(st, signal, fill, desk);
            || (after.pos == st.pos && after.trades == st.trades)
            || (st.pos.None? && Enters(signal) && after.pos == Some(desk.enter(signal, fill)) && after.trades == st.trades)
            || (st.pos.Some? && after.pos.None?
                && exists reason :: Leaves(signal, st.pos.value, reason)
                                    && after.trades == st.trades + [desk.leave(st.pos.value, fill, reason)])
  {
    if st.pos.Some? && signal.legs == [] {
      if signal.action == Exiting {
        assert Leaves(signal, st.pos.value, ExitSignal);
      } else if signal.action != Hold && st.pos.value.kind.Directional? && st.pos.value.kind.side != signal.action {
        assert Leaves(signal, st.pos.value, OppositeSignal);
      }
    }
  }

  lemma TraceKept(st: State, after: State, candles: seq<Candle>, n: nat, spans: seq<Span>, entry: nat, sim: Sim)
    requires Traced(st, candles, n, spans, entry, sim)
    requires after.pos == st.pos && after.trades == st.trades
    ensures Traced(after, candles, n + 1, spans, entry, sim)
  {
  }

  lemma TraceEntered(st: State, after: State, candles: seq<Candle>, n: nat, spans: seq<Span>, entry: nat, sim: Sim)
    requires Sound(sim.desk)
    requires Traced(st, candles, n, spans, entry, sim)
    requires after.pos.Some? && OpenedAt(after.pos.value, candles, n + 1, sim) && after.trades == st.trades
    ensures Traced(after, candles, n + 1, spans, n + 1, sim)
  {
    var kind := after.pos.value.kind;
    assert kind.Directional? ==> kind.side in {Buying, Selling};
  }

  lemma TraceLeft(st: State, after: State, t: Trade, candles: seq<Candle>, n: nat, spans: seq<Span>, entry: nat, sim: Sim)
    requires Traced(st, candles, n, spans, entry, sim)
    requires st.pos.Some? && after.pos.None? && after.trades == st.trades + [t]
    requires Spans(t, Span(entry, n + 1), candles, sim)
    ensures Traced(after, candles, n + 1, spans + [Span(entry, n + 1)], entry, sim)
  {
    var longer := spans + [Span(entry, n + 1)];
    forall k | 0 <= k < |longer|
      ensures Spans(after.trades[k], longer[k], candles, sim) && longer[k].exit <= n + 1
    {
      if k < |spans| {
        assert longer[k] == spans[k] && after.trades[k] == st.trades[k];
      }
    }
  }

  lemma TraceStep(st: State, candles: seq<Candle>, n: nat, spans: seq<Span>, entry: nat, sim: Sim)
    returns (spans': seq<Span>, entry': nat)
    requires Sound(sim.desk)
    requires sim.from <= n && n + 1 < |candles|
    requires Traced(st, candles, n, spans, entry, sim)
    ensures Traced(Act(st, SignalAt(candles, n, sim), candles[n + 1], sim.desk), candles, n + 1, spans', entry', sim)
  {
    var signal := SignalAt(candles, n, sim);
    var fill := candles[n + 1];
    var after := Act(st, signal, fill, sim.desk);
    ActCases(st, signal, fill, sim.desk);
    spans', entry' := spans, entry;
    if after.pos == st.pos && after.trades == st.trades {
      TraceKept(st, after, candles, n, spans, entry, sim);
    } else if st.pos.None? {
      entry' := n + 1;
      TraceEntered(st, after, candles, n, spans, entry, sim);
    } else {
      var reason :| Leaves(signal, st.pos.value, reason)
                    && after.trades == st.trades + [sim.desk.leave(st.pos.value, fill, reason)];
      spans' := spans + [Span(entry, n + 1)];
      TraceClosed(st, after, reason, candles, n, spans, entry, sim);
    }
  }

  lemma ClosedFor(desk: Desk, pos: Position, fill: Candle, reason: Reason)
    requires Sound(desk)
    ensures desk.leave(pos, fill, reason).reason == reason
  {
    assert Completes(desk.leave(pos, fill, reason), pos, fill, reason);
  }

  lemma ClosedSpans(pos: Position, t: Trade, candles: seq<Candle>, n: nat, entry: nat, sim: Sim)
    requires entry <= n && n + 1 < |candles| && OpenedAt(pos, candles, entry, sim)
    requires Leaves(SignalAt(candles, n, sim), pos, t.reason)
    requires t == sim.desk.leave(pos, candles[n + 1], t.reason)
    ensures Spans(t, Span(entry, n + 1), candles, sim)
  {
  }

  lemma TraceClosed(st: State, after: State, reason: Reason, candles: seq<Candle>, n: nat, spans: seq<Span>, entry: nat,
                    sim: Sim)
    requires Sound(sim.desk)
    requires n + 1 < |candles| && Traced(st, candles, n, spans, entry, sim)
    requires st.pos.Some? && after.pos.None? && Leaves(SignalAt(candles, n, sim), st.pos.value, reason)
    requires after.trades == st.trades + [sim.desk.leave(st.pos.value, candles[n + 1], reason)]
    ensures Traced(after, candles, n + 1, spans + [Span(entry, n + 1)], entry, sim)
  {
    var t := sim.desk.leave(st.pos.value, candles[n + 1], reason);
    ClosedFor(sim.desk, st.pos.value, candles[n + 1], reason);
    ClosedSpans(st.pos.value, t, candles, n, entry, sim);
    TraceLeft(st, after, t, candles, n, spans, entry, sim);
  }

  lemma SameBookTraced(st: State, asked: State, candles: seq<Candle>, n: nat, spans: seq<Span>, entry: nat, sim: Sim)
    requires Traced(st, candles, n, spans, entry, sim) && asked.pos == st.pos && asked.trades == st.trades
    ensures Traced(asked, candles, n, spans, entry, sim)
  {
  }

  lemma PassTraced(candles: seq<Candle>, n: nat, spans: seq<Span>, entry: nat, sim: Sim)
    returns (spans': seq<Span>, entry': nat)
    requires Sound(sim.desk)
    requires sim.from < n < |candles| && Loop(candles, n, sim).Some?
    requires LoopTraced(candles, n - 1, spans, entry, sim)
    ensures LoopTraced(candles, n, spans', entry', sim)
  {
    var st := Loop(candles, n - 1, sim).value;
    NextState(st, candles, n, sim);
    spans', entry' := ActTraced(st, Asked(st, candles[..n], sim.desk), candles, n - 1, spans, entry, sim);
  }

  lemma ActTraced(st: State, asked: State, candles: seq<Candle>, n: nat, spans: seq<Span>, entry: nat, sim: Sim)
    returns (spans': seq<Span>, entry': nat)
    requires Sound(sim.desk)
    requires sim.from <= n && n + 1 < |candles| && Loop(candles, n, sim) == Some(st)
    requires Traced(st, candles, n, spans, entry, sim) && asked == Asked(st, candles[..n + 1], sim.desk)
    ensures Traced(Act(asked, sim.strat(asked.seen), candles[n + 1], sim.desk), candles, n + 1, spans', entry', sim)
  {
    SameBookTraced(st, asked, candles, n, spans, entry, sim);
    assert SignalAt(candles, n, sim) == sim.strat(asked.seen);
    spans', entry' := TraceStep(asked, candles, n, spans, entry, sim);
  }

  lemma NextState(st: State, candles: seq<Candle>, n: nat, sim: Sim)
    requires sim.from < n < |candles|
    requires Loop(candles, n - 1, sim) == Some(st) && Loop(candles, n, sim).Some?
    ensures var asked := Asked(st, candles[..n], sim.desk);
            Loop(candles, n, sim).value == Act(asked, sim.strat(asked.seen), candles[n], sim.desk)
  {
  }

  predicate LoopTraced(candles: seq<Candle>, n: nat, spans: seq<Span>, entry: nat, sim: Sim)
    requires n < |candles|
  {
    Loop(candles, n, sim).Some? && Traced(Loop(candles, n, sim).value, candles, n, spans, entry, sim)
  }

  // Every trade of the loop, and its open position, came from a signal one candle earlier.
  ghost predicate TradesFromSignals(candles: seq<Candle>, n: nat, sim: Sim)
    requires n < |candles|
  {
    exists spans: seq<Span>, entry: nat :: LoopTraced(candles, n, spans, entry, sim)
  }

  lemma {:induction false} TradesAreTraced(candles: seq<Candle>, n: nat, sim: Sim)
    requires Sound(sim.desk)
    requires n < |candles| && Loop(candles, n, sim).Some?
    ensures TradesFromSignals(candles, n, sim)
    decreases n
  {
    if n <= sim.from {
      StartTraced(candles, n, sim);
    } else {
      EarlierLoop(candles, n, sim);
      TradesAreTraced(candles, n - 1, sim);
      PassKeepsTrace(candles, n, sim);
    }
  }

  lemma PassKeepsTrace(candles: seq<Candle>, n: nat, sim: Sim)
    requires Sound(sim.desk)
    requires sim.from < n < |candles| && Loop(candles, n, sim).Some?
    requires TradesFromSignals(candles, n - 1, sim)
    ensures TradesFromSignals(candles, n, sim)
  {
    var spans: seq<Span>, entry: nat :| LoopTraced(candles, n - 1, spans, entry, sim);
    spans, entry := PassTraced(candles, n, spans, entry, sim);
  }

  lemma StartTraced(candles: seq<Candle>, n: nat, sim: Sim)
    requires n <= sim.from && n < |candles|
    ensures TradesFromSignals(candles, n, sim)
  {
    assert LoopTraced(candles, n, [], 0, sim);
  }

  lemma EarlierLoop(candles: seq<Candle>, n: nat, sim: Sim)
    requires 0 < n < |candles| && Loop(candles, n, sim).Some?
    ensures Loop(candles, n - 1, sim).Some?
  {
  }

  predicate TimesIncrease(candles: seq<Candle>) {
    forall i, j :: 0 <= i < j < |candles| ==> candles[i].time < candles[j].time
  }

  predicate OneAfterAnother(trades: seq<Trade>) {
    && (forall i, j :: 0 <= i < j < |trades| ==> trades[i].closeTime < trades[j].openTime)
    && (forall i :: 0 <= i < |trades| ==>
          trades[i].openTime < trades[i].closeTime
          || (i == |trades| - 1 && trades[i].reason.EndOfData? && trades[i].openTime == trades[i].closeTime))
  }

  // Trades never overlap: each closes strictly after it opens and strictly before the next
  // opens; only a close forced by the end of the data may fall on its own opening candle.
  lemma TradesNeverOverlap(candles: seq<Candle>, sim: Sim)
    requires Sound(sim.desk)
    requires candles != [] && TimesIncrease(candles) && FinalState(candles, sim).Some?
    ensures OneAfterAnother(FinalState(candles, sim).value.trades)
  {
    var n := |candles| - 1;
    TradesAreTraced(candles, n, sim);
    var spans: seq<Span>, entry: nat :| LoopTraced(candles, n, spans, entry, sim);
    FinalTimes(Loop(candles, n, sim).value, candles, spans, entry, sim);
  }

  lemma FinalTimes(st: State, candles: seq<Candle>, spans: seq<Span>, entry: nat, sim: Sim)
    requires Sound(sim.desk)
    requires candles != [] && TimesIncrease(candles) && Traced(st, candles, |candles| - 1, spans, entry, sim)
    ensures OneAfterAnother(ForceClosed(st, candles[|candles| - 1], sim.desk).trades)
  {
    var n := |candles| - 1;
    var trades := ForceClosed(st, candles[n], sim.desk).trades;
    TracedTimes(st, candles, n, spans, entry, sim);
    if st.pos.Some? {
      ForcedTrade(st, candles[n], sim.desk);
      OpeningTime(st.pos.value, candles, entry, sim);
      TimesInTurn(trades, spans + [Span(entry, n)], candles, true);
    } else {
      TimesInTurn(trades, spans, candles, false);
    }
  }

  lemma ForcedTrade(st: State, last: Candle, desk: Desk)
    requires Sound(desk)
    requires st.pos.Some?
    ensures var final := ForceClosed(st, last, desk);
            && |final.trades| == |st.trades| + 1 && final.trades[..|st.trades|] == st.trades
            && final.trades[|st.trades|].openTime == st.pos.value.openedAt
            && final.trades[|st.trades|].closeTime == last.time
            && final.trades[|st.trades|].reason.EndOfData?
  {
  }

  lemma TracedTimes(st: State, candles: seq<Candle>, n: nat, spans: seq<Span>, entry: nat, sim: Sim)
    requires Sound(sim.desk)
    requires n < |candles| && Traced(st, candles, n, spans, entry, sim)
    ensures |spans| == |st.trades|
    ensures forall k :: 0 <= k < |spans| ==>
      && spans[k].entry < spans[k].exit < |candles|
      && st.trades[k].openTime == candles[spans[k].entry].time && st.trades[k].closeTime == candles[spans[k].exit].time
  {
    forall k | 0 <= k < |spans|
      ensures spans[k].entry < spans[k].exit < |candles|
      ensures st.trades[k].openTime == candles[spans[k].entry].time && st.trades[k].closeTime == candles[spans[k].exit].time
    {
      SpanTimes(st.trades[k], spans[k], candles, sim);
    }
  }

  lemma SpanTimes(t: Trade, span: Span, candles: seq<Candle>, sim: Sim)
    requires Sound(sim.desk)
    requires Spans(t, span, candles, sim)
    ensures t.openTime == candles[span.entry].time && t.closeTime == candles[span.exit].time
  {
  }

  lemma OpeningTime(pos: Position, candles: seq<Candle>, entry: nat, sim: Sim)
    requires Sound(sim.desk)
    requires OpenedAt(pos, candles, entry, sim)
    ensures pos.openedAt == candles[entry].time
  {
  }

  // Spans in turn over increasing times; only the last may be empty, when it was forced.
  lemma TimesInTurn(trades: seq<Trade>, spans: seq<Span>, candles: seq<Candle>, forced: bool)
    requires TimesIncrease(candles) && |trades| == |spans| && InTurn(spans) && (forced ==> trades != [])
    requires forall k :: 0 <= k < |spans| ==>
      && spans[k].entry <= spans[k].exit < |candles|
      && (spans[k].entry < spans[k].exit || (forced && k == |spans| - 1))
      && trades[k].openTime == candles[spans[k].entry].time && trades[k].closeTime == candles[spans[k].exit].time
    requires forced ==> trades[|trades| - 1].reason.EndOfData?
    ensures OneAfterAnother(trades)
  {
  }

  // ---- Drawdown ----

  // The highest equity so far, never below the zero it started from.
  ghost predicate IsPeak(peak: real, curve: seq<real>) {
    && 0.0 <= peak && (forall i :: 0 <= i < |curve| ==> curve[i] <= peak)
    && (peak == 0.0 || exists i :: 0 <= i < |curve| && curve[i] == peak)
  }

  // The height a sample falls from: an earlier sample, or the start.
  function Height(curve: seq<real>, i: int): real
    requires -1 <= i < |curve|
  {
    if i == -1 then 0.0 else curve[i]
  }

  // The greatest fall from any earlier height to any later sample.
  ghost predicate IsMaxDrawdown(dd: real, curve: seq<real>) {
    && 0.0 <= dd
    && (forall i, j :: -1 <= i <= j < |curve| && 0 <= j ==> Height(curve, i) - curve[j] <= dd)
    && (dd == 0.0 || exists i, j :: -1 <= i <= j < |curve| && 0 <= j && Height(curve, i) - curve[j] == dd)
  }

  ghost predicate Extremes(st: State) {
    IsPeak(st.peak, st.samples) && IsMaxDrawdown(st.maxDrawdown, st.samples)
  }

  lemma SampleKeepsExtremes(st: State, equity: real)
    requires Extremes(st)
    ensures Extremes(Sampled(st, equity))
  {
    var curve, longer, after, n := st.samples, st.samples + [equity], Sampled(st, equity), |st.samples|;
    assert longer[n] == equity;
    var top := if after.peak == 0.0 then -1 else PeakIndex(st.peak, curve, equity);
    assert Height(longer, top) == after.peak;
    forall i, j | -1 <= i <= j < |longer| && 0 <= j
      ensures Height(longer, i) - longer[j] <= after.maxDrawdown
    {
      if j < n {
        assert Height(longer, i) == Height(curve, i) && longer[j] == curve[j];
      } else {
        assert Height(longer, i) <= after.peak;
      }
    }
    if after.maxDrawdown == after.peak - equity {
      assert Height(longer, top) - longer[n] == after.maxDrawdown;
    } else if after.maxDrawdown != 0.0 {
      var i, j :| -1 <= i <= j < |curve| && 0 <= j && Height(curve, i) - curve[j] == st.maxDrawdown;
      assert Height(longer, i) - longer[j] == after.maxDrawdown;
    }
  }

  ghost function PeakIndex(peak: real, curve: seq<real>, equity: real): (i: nat)
    requires IsPeak(peak, curve) && (equity > peak || peak != 0.0)
    ensures i < |curve + [equity]| && (curve + [equity])[i] == if equity > peak then equity else peak
  {
    if equity > peak then |curve|
    else
      var i :| 0 <= i < |curve| && curve[i] == peak; i
  }

  lemma ActKeepsExtremes(st: State, signal: Signal, fill: Candle, desk: Desk)
    ensures var after := Act(st, signal, fill, desk);
            after.peak == st.peak && after.maxDrawdown == st.maxDrawdown && after.samples == st.samples
  {
  }

  lemma IterateKeepsExtremes(st: State, history: seq<Candle>, fill: Candle, sim: Sim)
    requires history != [] && Extremes(st) && Iterate(st, history, fill, sim).Some?
    ensures Extremes(Iterate(st, history, fill, sim).value)
  {
    var asked := Asked(st, history, sim.desk);
    SampleKeepsExtremes(st, Equity(st, history[|history| - 1], sim.desk));
    ActKeepsExtremes(asked, sim.strat(asked.seen), fill, sim.desk);
  }

  lemma {:induction false} LoopExtremes(candles: seq<Candle>, n: nat, sim: Sim)
    requires n < |candles| && Loop(candles, n, sim).Some?
    ensures Extremes(Loop(candles, n, sim).value)
    decreases n
  {
    if n > sim.from {
      LoopExtremes(candles, n - 1, sim);
      IterateKeepsExtremes(Loop(candles, n - 1, sim).value, candles[..n], candles[n], sim);
    }
  }

  // The one-pass drawdown is the greatest fall, over all pairs, from an earlier height of the
  // sampled equity curve to a later sample.
  lemma DrawdownIsGreatestFall(candles: seq<Candle>, sim: Sim)
    requires candles != [] && FinalState(candles, sim).Some?
    ensures var final := FinalState(candles, sim).value;
            IsMaxDrawdown(final.maxDrawdown, final.samples)
  {
    LoopExtremes(candles, |candles| - 1, sim);
    ForcedExtremes(Loop(candles, |candles| - 1, sim).value, candles[|candles| - 1], sim.desk);
  }

  lemma ForcedExtremes(st: State, last: Candle, desk: Desk)
    requires Extremes(st)
    ensures Extremes(ForceClosed(st, last, desk))
  {
    if st.pos.Some? {
      var booked := Book(st, desk.leave(st.pos.value, ClosingCandle(last), EndOfData));
      SampleKeepsExtremes(booked, booked.realized);
    }
  }

  // What was sampled: the equity at each candle the loop passed, as it stood there: what had
  // been realized and the mark of the position held.
  lemma NextSample(candles: seq<Candle>, n: nat, st: State, next: State, sim: Sim)
    requires sim.from <= n && n + 1 < |candles| && Loop(candles, n, sim) == Some(st) && Loop(candles, n + 1, sim) == Some(next)
    ensures next.samples
         == st.samples
            + [st.realized + match st.pos
                             case None => 0.0
                             case Some(p) => sim.desk.unrealized(p, candles[n].close, candles[n].time)]
  {
    LoopUnrolls(candles, n, st, sim);
    IterateSamples(st, candles[..n + 1], candles[n + 1], sim);
  }

  lemma IterateSamples(st: State, history: seq<Candle>, fill: Candle, sim: Sim)
    requires history != [] && Iterate(st, history, fill, sim).Some?
    ensures Iterate(st, history, fill, sim).value.samples == st.samples + [Equity(st, history[|history| - 1], sim.desk)]
  {
    var asked := Asked(st, history, sim.desk);
    ActKeepsExtremes(asked, sim.strat(asked.seen), fill, sim.desk);
  }

  // ---- Slippage ----

  // With no negative price, tick or quantity, closing never beats the mark: slippage only
  // takes away.
  lemma {:induction false} ClosingNeverBeatsTheMark(legs: seq<Leg>, fill: Candle, cfg: Config)
    requires 0.0 <= cfg.tickSize
    requires forall l :: l in legs ==> 0 <= l.quantity && 0.0 <= PriceNow(l, fill.open, fill.time, cfg)
    ensures Sum(legs, ExitPnL(fill, cfg)) <= Sum(legs, PnLAt(fill.open, fill.time, cfg))
    decreases |legs|
  {
    if legs != [] {
      ClosingNeverBeatsTheMark(legs[..|legs| - 1], fill, cfg);
      LegNeverBeatsTheMark(legs[|legs| - 1], fill, cfg);
    }
  }

  lemma LegNeverBeatsTheMark(l: Leg, fill: Candle, cfg: Config)
    requires 0.0 <= cfg.tickSize && 0 <= l.quantity && 0.0 <= PriceNow(l, fill.open, fill.time, cfg)
    ensures ExitPnL(fill, cfg)(l) <= PnLAt(fill.open, fill.time, cfg)(l)
  {
    var mark, exit, q := PriceNow(l, fill.open, fill.time, cfg), ExitPremium(l, fill, cfg), l.quantity as real;
    if l.side == Buy {
      assert exit <= mark;
      ProductsOrdered(exit - l.entryPremium, mark - l.entryPremium, q);
    } else {
      assert mark <= exit;
      ProductsOrdered(l.entryPremium - exit, l.entryPremium - mark, q);
    }
  }

  lemma ProductsOrdered(x: real, y: real, q: real)
    requires x <= y && 0.0 <= q
    ensures x * q <= y * q
  {
    assert 0.0 <= (y - x) * q;
  }
}
