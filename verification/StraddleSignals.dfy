/** When the 9:20 straddle signals an entry and when an exit, told from the events alone. */
module StraddleSignals {
  import opened Common
  import opened NineTwenty

  // ---- What has happened ----

  predicate IsEvaluation(es: seq<Event>, k: int, symbol: Symbol) {
    0 <= k < |es| && es[k].Evaluate? && es[k].ctx.symbol == symbol
  }

  // The symbol's evaluations from f to i fall on one day, and the one before f, if any, or the
  // day the run starts with, does not.
  ghost predicate DayBegins(l: Latch, es: seq<Event>, f: int, i: int, symbol: Symbol) {
    && f <= i && IsEvaluation(es, f, symbol) && IsEvaluation(es, i, symbol)
    && (forall j :: f <= j <= i && IsEvaluation(es, j, symbol) ==> es[j].ctx.now.day == es[i].ctx.now.day)
    && (forall j :: 0 <= j < f && IsEvaluation(es, j, symbol) && NoEvaluation(es, j + 1, f, symbol) ==>
          es[j].ctx.now.day != es[i].ctx.now.day)
    && (NoEvaluation(es, 0, f, symbol) ==> l.lastDate.None? || l.lastDate.value.day != es[i].ctx.now.day)
  }

  predicate NoEvaluation(es: seq<Event>, from: int, to: int, symbol: Symbol) {
    forall j :: from <= j < to ==> !IsEvaluation(es, j, symbol)
  }

  // Something happened at one of these places, and none of these events after it.
  ghost predicate Since(es: seq<Event>, from: int, to: int, opens: int -> bool, close: Event) {
    exists a :: from <= a < to && opens(a) && NotAfter(es, a, to, close)
  }

  predicate NotAfter(es: seq<Event>, a: int, to: int, close: Event) {
    forall b :: a < b < to && 0 <= b < |es| ==> es[b] != close
  }

  // An entry confirmed since the day began, and no exit after it.
  ghost predicate EntryConfirmedSince(es: seq<Event>, f: int, k: int, symbol: Symbol) {
    Since(es, f + 1, k, (a: int) => 0 <= a < |es| && es[a] == ConfirmEntry(symbol), ConfirmExit(symbol))
  }

  ghost predicate InPosition(es: seq<Event>, f: int, i: int, symbol: Symbol)
    requires IsEvaluation(es, i, symbol)
  {
    es[i].ctx.hasPosition || EntryConfirmedSince(es, f, i, symbol)
  }

  // A straddle signalled since the day began whose entry has not been confirmed.
  ghost predicate AwaitsEntry(p: Params, l: Latch, es: seq<Event>, f: int, k: int, symbol: Symbol) {
    Since(es, f, k, (a: int) => Signals(p, l, es, a, symbol, STRADDLE), ConfirmEntry(symbol))
  }

  // An exit signalled since the day began that has not been confirmed.
  ghost predicate AwaitsExit(p: Params, l: Latch, es: seq<Event>, f: int, k: int, symbol: Symbol) {
    Since(es, f, k, (a: int) => Signals(p, l, es, a, symbol, EXIT), ConfirmExit(symbol))
  }

  // The last positive entry premium shown while in position, since the day began or an exit was
  // confirmed.
  ghost function PremiumShown(es: seq<Event>, f: int, k: int, symbol: Symbol): real
    decreases k - f
  {
    if k < f || k < 0 || |es| <= k || es[k] == ConfirmExit(symbol) then 0.0
    else if IsEvaluation(es, k, symbol) && InPosition(es, f, k, symbol) && 0.0 < es[k].ctx.entryPremium then es[k].ctx.entryPremium
    else PremiumShown(es, f, k - 1, symbol)
  }

  // ---- One more event ----

  lemma SinceSnoc(es: seq<Event>, from: int, k: int, opens: int -> bool, close: Event)
    requires from <= k && 0 <= k < |es|
    ensures Since(es, from, k + 1, opens, close) <==> opens(k) || (Since(es, from, k, opens, close) && es[k] != close)
  {
    if opens(k) {
      assert NotAfter(es, k, k + 1, close);
    }
    if Since(es, from, k + 1, opens, close) && !opens(k) {
      var a :| from <= a < k + 1 && opens(a) && NotAfter(es, a, k + 1, close);
      assert NotAfter(es, a, k, close) && a < k;
    }
    if Since(es, from, k, opens, close) && es[k] != close {
      var a :| from <= a < k && opens(a) && NotAfter(es, a, k, close);
      assert NotAfter(es, a, k + 1, close);
    }
  }

  // What the latch knows just before event k is what has happened since the day began.
  ghost predicate Knows(p: Params, l: Latch, es: seq<Event>, f: int, k: int, symbol: Symbol, day: int, t: Latch) {
    && t.lastDate.Some? && t.lastDate.value.day == day
    && (t.entered <==> EntryConfirmedSince(es, f, k, symbol))
    && (t.signaledEntry <==> AwaitsEntry(p, l, es, f, k, symbol))
    && (t.pendingExit <==> AwaitsExit(p, l, es, f, k, symbol))
    && (!t.pendingExit ==> t.entryPremium == PremiumShown(es, f, k - 1, symbol))
  }

  // Another symbol's event changes nothing.
  lemma OtherSymbol(p: Params, l: Latch, es: seq<Event>, f: nat, k: nat, symbol: Symbol, day: int, t: Latch)
    requires f < k < |es| && Knows(p, l, es, f, k, symbol, day, t) && SymbolOf(es[k]) != symbol
    ensures Knows(p, l, es, f, k + 1, symbol, day, t)
  {
    SinceSnoc(es, f + 1, k, (a: int) => 0 <= a < |es| && es[a] == ConfirmEntry(symbol), ConfirmExit(symbol));
    SinceSnoc(es, f, k, (a: int) => Signals(p, l, es, a, symbol, STRADDLE), ConfirmEntry(symbol));
    SinceSnoc(es, f, k, (a: int) => Signals(p, l, es, a, symbol, EXIT), ConfirmExit(symbol));
  }

  lemma ConfirmationKnown(p: Params, l: Latch, es: seq<Event>, f: nat, k: nat, symbol: Symbol, day: int, t: Latch)
    requires f < k < |es| && Knows(p, l, es, f, k, symbol, day, t) && SymbolOf(es[k]) == symbol && !es[k].Evaluate?
    ensures Knows(p, l, es, f, k + 1, symbol, day, Step(p, t, es[k]))
  {
    SinceSnoc(es, f + 1, k, (a: int) => 0 <= a < |es| && es[a] == ConfirmEntry(symbol), ConfirmExit(symbol));
    SinceSnoc(es, f, k, (a: int) => Signals(p, l, es, a, symbol, STRADDLE), ConfirmEntry(symbol));
    SinceSnoc(es, f, k, (a: int) => Signals(p, l, es, a, symbol, EXIT), ConfirmExit(symbol));
  }

  // What an evaluation of the day signals, told from what the latch knows.
  predicate Told(p: Params, ctx: Context, inPosition: bool, awaitsEntry: bool, awaitsExit: bool, premium: real, signal: Signal) {
    && (signal == EXIT <==>
          inPosition && !awaitsExit
          && ((0.0 < premium && ctx.lastPrice.Some? && premium * (if p.stopMultiplier <= 0.0 then 1.4 else p.stopMultiplier) <= ctx.lastPrice.value)
              || p.squareOffHour < ctx.now.hour || (p.squareOffHour == ctx.now.hour && p.squareOffMinute <= ctx.now.minute)))
    && (signal == STRADDLE <==>
          !inPosition && !awaitsEntry && ctx.now.hour == p.entryHour && 0 <= ctx.now.minute - p.entryMinute < 5)
    && (signal == EXIT || signal == STRADDLE || signal == HOLD)
  }

  lemma EvaluationTells(p: Params, t: Latch, ctx: Context)
    requires t.lastDate.Some? && t.lastDate.value.day == ctx.now.day
    ensures Told(p, ctx, ctx.hasPosition || t.entered, t.signaledEntry, t.pendingExit,
                 if 0.0 < ctx.entryPremium then ctx.entryPremium else t.entryPremium, Evaluated(p, t, ctx).1)
    ensures Evaluated(p, t, ctx).0
         == t.(signaledEntry := t.signaledEntry || Evaluated(p, t, ctx).1 == STRADDLE,
               pendingExit := t.pendingExit || Evaluated(p, t, ctx).1 == EXIT,
               entryPremium := if (ctx.hasPosition || t.entered) && !t.pendingExit && 0.0 < ctx.entryPremium then ctx.entryPremium else t.entryPremium)
  {
  }

  lemma EvaluationKnown(p: Params, l: Latch, es: seq<Event>, f: nat, k: nat, symbol: Symbol, t: Latch)
    requires f < k < |es| && IsEvaluation(es, k, symbol) && Knows(p, l, es, f, k, symbol, es[k].ctx.now.day, t)
    requires t == LatchAfter(p, l, es[..k], symbol)
    ensures Knows(p, l, es, f, k + 1, symbol, es[k].ctx.now.day, Step(p, t, es[k]))
  {
    EvaluationTells(p, t, es[k].ctx);
    SinceSnoc(es, f + 1, k, (a: int) => 0 <= a < |es| && es[a] == ConfirmEntry(symbol), ConfirmExit(symbol));
    SinceSnoc(es, f, k, (a: int) => Signals(p, l, es, a, symbol, STRADDLE), ConfirmEntry(symbol));
    SinceSnoc(es, f, k, (a: int) => Signals(p, l, es, a, symbol, EXIT), ConfirmExit(symbol));
  }

  // ---- A day ----

  // The date a latch remembers is that of the last evaluation.
  lemma {:induction false} DateRemembered(p: Params, l: Latch, es: seq<Event>, k: nat, symbol: Symbol)
    requires k <= |es|
    ensures var t := LatchAfter(p, l, es[..k], symbol);
            if NoEvaluation(es, 0, k, symbol) then t.lastDate == l.lastDate
            else t.lastDate.Some?
                 && exists j :: 0 <= j < k && IsEvaluation(es, j, symbol) && NoEvaluation(es, j + 1, k, symbol)
                                && t.lastDate.value.day == es[j].ctx.now.day
    decreases k
  {
    if k > 0 {
      DateRemembered(p, l, es, k - 1, symbol);
      LatchSnoc(p, l, es, k - 1, symbol);
      var before := LatchAfter(p, l, es[..k - 1], symbol);
      if IsEvaluation(es, k - 1, symbol) {
        assert NoEvaluation(es, k, k, symbol);
        EvaluationDates(p, before, es[k - 1].ctx);
      } else if !NoEvaluation(es, 0, k - 1, symbol) {
        var j :| 0 <= j < k - 1 && IsEvaluation(es, j, symbol) && NoEvaluation(es, j + 1, k - 1, symbol)
                 && before.lastDate.value.day == es[j].ctx.now.day;
        assert NoEvaluation(es, j + 1, k, symbol);
      }
    }
  }

  lemma EvaluationDates(p: Params, t: Latch, ctx: Context)
    ensures var d := Evaluated(p, t, ctx).0.lastDate; d.Some? && d.value.day == ctx.now.day
  {
  }

  // The first evaluation of a day starts from nothing.
  lemma FirstOfDay(p: Params, l: Latch, es: seq<Event>, f: nat, i: nat, symbol: Symbol)
    requires DayBegins(l, es, f, i, symbol)
    ensures !SameDate(LatchAfter(p, l, es[..f], symbol).lastDate, es[f].ctx.now)
    ensures es[f].ctx.now.day == es[i].ctx.now.day
  {
    DateRemembered(p, l, es, f, symbol);
  }

  lemma FirstKnown(p: Params, l: Latch, es: seq<Event>, f: nat, symbol: Symbol)
    requires IsEvaluation(es, f, symbol) && !SameDate(LatchAfter(p, l, es[..f], symbol).lastDate, es[f].ctx.now)
    ensures Knows(p, l, es, f, f + 1, symbol, es[f].ctx.now.day, LatchAfter(p, l, es[..f + 1], symbol))
  {
    LatchSnoc(p, l, es, f, symbol);
    var t := LatchAfter(p, l, es[..f], symbol);
    var today := Today(t, es[f].ctx.now);
    assert Evaluated(p, t, es[f].ctx) == Evaluated(p, today, es[f].ctx);
    EvaluationTells(p, today, es[f].ctx);
    SinceSnoc(es, f, f, (a: int) => Signals(p, l, es, a, symbol, STRADDLE), ConfirmEntry(symbol));
    SinceSnoc(es, f, f, (a: int) => Signals(p, l, es, a, symbol, EXIT), ConfirmExit(symbol));
    assert !EntryConfirmedSince(es, f, f, symbol) && !EntryConfirmedSince(es, f, f + 1, symbol);
    assert PremiumShown(es, f, f - 1, symbol) == 0.0;
  }

  lemma {:induction false} DayKnown(p: Params, l: Latch, es: seq<Event>, f: nat, k: nat, i: nat, symbol: Symbol)
    requires DayBegins(l, es, f, i, symbol) && f < k <= i
    ensures Knows(p, l, es, f, k, symbol, es[i].ctx.now.day, LatchAfter(p, l, es[..k], symbol))
    decreases k
  {
    if k == f + 1 {
      FirstOfDay(p, l, es, f, i, symbol);
      FirstKnown(p, l, es, f, symbol);
    } else {
      DayKnown(p, l, es, f, k - 1, i, symbol);
      NextKnown(p, l, es, f, k - 1, symbol, es[i].ctx.now.day, LatchAfter(p, l, es[..k - 1], symbol));
    }
  }

  lemma NextKnown(p: Params, l: Latch, es: seq<Event>, f: nat, k: nat, symbol: Symbol, day: int, t: Latch)
    requires f < k < |es| && t == LatchAfter(p, l, es[..k], symbol) && Knows(p, l, es, f, k, symbol, day, t)
    requires IsEvaluation(es, k, symbol) ==> es[k].ctx.now.day == day
    ensures Knows(p, l, es, f, k + 1, symbol, day, LatchAfter(p, l, es[..k + 1], symbol))
  {
    LatchSnoc(p, l, es, k, symbol);
    if SymbolOf(es[k]) != symbol {
      OtherSymbol(p, l, es, f, k, symbol, day, t);
    } else if es[k].Evaluate? {
      EvaluationKnown(p, l, es, f, k, symbol, t);
    } else {
      ConfirmationKnown(p, l, es, f, k, symbol, day, t);
    }
  }

  lemma SignalTold(p: Params, l: Latch, es: seq<Event>, f: nat, i: nat, symbol: Symbol)
    requires DayBegins(l, es, f, i, symbol)
    ensures Told(p, es[i].ctx, InPosition(es, f, i, symbol), AwaitsEntry(p, l, es, f, i, symbol), AwaitsExit(p, l, es, f, i, symbol),
                 PremiumShown(es, f, i, symbol), SignalAt(p, l, es, i))
  {
    var t := LatchAfter(p, l, es[..i], symbol);
    if i == f {
      FirstOfDay(p, l, es, f, i, symbol);
      var today := Today(t, es[f].ctx.now);
      assert Evaluated(p, t, es[f].ctx) == Evaluated(p, today, es[f].ctx);
      EvaluationTells(p, today, es[f].ctx);
      assert PremiumShown(es, f, f - 1, symbol) == 0.0;
    } else {
      DayKnown(p, l, es, f, i, i, symbol);
      EvaluationTells(p, t, es[i].ctx);
    }
  }

  // ---- Results ----

  // In every run an evaluation signals an exit if and only if the symbol is in position that day,
  // no exit signalled that day still awaits its confirmation, and either the last price is at
  // least the multiplier times the last premium shown, or it is square-off time.
  lemma ExitsIff(p: Params, l: Latch, es: seq<Event>, f: nat, i: nat, symbol: Symbol)
    requires DayBegins(l, es, f, i, symbol)
    ensures SignalAt(p, l, es, i) == Signal(Exit, [])
            <==>
            && InPosition(es, f, i, symbol) && !AwaitsExit(p, l, es, f, i, symbol)
            && var ctx, premium, times := es[i].ctx, PremiumShown(es, f, i, symbol), if p.stopMultiplier <= 0.0 then 1.4 else p.stopMultiplier;
               || (0.0 < premium && ctx.lastPrice.Some? && premium * times <= ctx.lastPrice.value)
               || p.squareOffHour < ctx.now.hour || (p.squareOffHour == ctx.now.hour && p.squareOffMinute <= ctx.now.minute)
  {
    SignalTold(p, l, es, f, i, symbol);
  }

  // It signals the straddle, one call and one put sold at the money, if and only if the symbol is
  // flat that day, no straddle signalled that day still awaits its confirmation, and it is within
  // five minutes from the entry minute. Every other evaluation but an exit holds.
  lemma StraddlesIff(p: Params, l: Latch, es: seq<Event>, f: nat, i: nat, symbol: Symbol)
    requires DayBegins(l, es, f, i, symbol)
    ensures SignalAt(p, l, es, i) == Signal(Action.Sell, [Leg(Side.Sell, 0, "CE", 1), Leg(Side.Sell, 0, "PE", 1)])
            <==>
            && !InPosition(es, f, i, symbol) && !AwaitsEntry(p, l, es, f, i, symbol)
            && es[i].ctx.now.hour == p.entryHour && 0 <= es[i].ctx.now.minute - p.entryMinute < 5
    ensures SignalAt(p, l, es, i).action == Hold || SignalAt(p, l, es, i).action == Exit
            || SignalAt(p, l, es, i) == Signal(Action.Sell, [Leg(Side.Sell, 0, "CE", 1), Leg(Side.Sell, 0, "PE", 1)])
  {
    SignalTold(p, l, es, f, i, symbol);
  }

  // Every evaluation has a beginning of its day.
  lemma {:induction false} DayHasBeginning(l: Latch, es: seq<Event>, i: nat, symbol: Symbol) returns (f: nat)
    requires IsEvaluation(es, i, symbol)
    requires l.lastDate.None? || forall j :: 0 <= j <= i && IsEvaluation(es, j, symbol) ==> l.lastDate.value.day != es[j].ctx.now.day
    ensures DayBegins(l, es, f, i, symbol)
    decreases i
  {
    if NoEvaluation(es, 0, i, symbol) {
      f := i;
    } else {
      var j := LastBefore(es, i, symbol);
      if es[j].ctx.now.day == es[i].ctx.now.day {
        f := DayHasBeginning(l, es, j, symbol);
      } else {
        f := i;
      }
    }
  }

  lemma {:induction false} LastBefore(es: seq<Event>, k: nat, symbol: Symbol) returns (j: nat)
    requires k <= |es| && !NoEvaluation(es, 0, k, symbol)
    ensures j < k && IsEvaluation(es, j, symbol) && NoEvaluation(es, j + 1, k, symbol)
    decreases k
  {
    if IsEvaluation(es, k - 1, symbol) {
      j := k - 1;
    } else {
      j := LastBefore(es, k - 1, symbol);
    }
  }
}
