/** The backtest report: totals and month rows over the trades, and rescaled costs.
    The report object recomputes its figures from its trades. They are stated here over the
    trades alone, they add up, and they are the only ones; rescaling the costs of every trade and
    recomputing leaves a report that is exact again. */
module Report {

  // Closing day and month stand for the two calendar texts the report groups by; the id
  // stands for the fields that no total reads.
  datatype Trade = Trade(id: int, day: int, month: int, gross: real, charges: real, net: real)

  // A month row's figures.
  datatype Tally = Tally(trades: int, net: real, wins: int, losses: int) {
    function Plus(o: Tally): Tally {
      Tally(trades + o.trades, net + o.net, wins + o.wins, losses + o.losses)
    }
  }

  const ZERO := Tally(0, 0.0, 0, 0)

  datatype MonthStat = MonthStat(month: int, tally: Tally)

  datatype Summary = Summary(gross: real, charges: real, net: real, wins: int, losses: int,
                             grossWin: real, grossLoss: real, worstDay: real, byMonth: seq<MonthStat>)

  // ---- What each figure means ----

  function Sum(trades: seq<Trade>, figure: Trade -> real): real {
    if trades == [] then 0.0 else Sum(trades[..|trades| - 1], figure) + figure(trades[|trades| - 1])
  }

  function One(t: Trade): Tally {
    Tally(1, t.net, if t.net > 0.0 then 1 else 0, if t.net > 0.0 then 0 else 1)
  }

  function TallyOf(trades: seq<Trade>): Tally {
    if trades == [] then ZERO else TallyOf(trades[..|trades| - 1]).Plus(One(trades[|trades| - 1]))
  }

  // The trades that closed in one of the months.
  function Within(trades: seq<Trade>, months: set<int>): seq<Trade> {
    if trades == [] then []
    else
      var earlier, last := Within(trades[..|trades| - 1], months), trades[|trades| - 1];
      if last.month in months then earlier + [last] else earlier
  }

  function DayNet(trades: seq<Trade>, day: int): real {
    if trades == [] then 0.0
    else
      var last := trades[|trades| - 1];
      DayNet(trades[..|trades| - 1], day) + if last.day == day then last.net else 0.0
  }

  function Gross(t: Trade): real { t.gross }
  function Charges(t: Trade): real { t.charges }
  function Net(t: Trade): real { t.net }
  function Won(t: Trade): real { if t.net > 0.0 then t.net else 0.0 }
  function Lost(t: Trade): real { if t.net > 0.0 then 0.0 else -t.net }

  function MonthsOf(rows: seq<MonthStat>): set<int> {
    set r | r in rows :: r.month
  }

  function TradeMonths(trades: seq<Trade>): set<int> {
    set t | t in trades :: t.month
  }

  function MonthTally(trades: seq<Trade>, month: int): Tally {
    TallyOf(Within(trades, {month}))
  }

  predicate Increasing(rows: seq<MonthStat>) {
    forall i, j :: 0 <= i < j < |rows| ==> rows[i].month < rows[j].month
  }

  // Rows in increasing months, one for each month with trades, each with that month's tally.
  predicate IsMonthTable(rows: seq<MonthStat>, trades: seq<Trade>) {
    && Increasing(rows)
    && MonthsOf(rows) == TradeMonths(trades)
    && forall r :: r in rows ==> r.tally == MonthTally(trades, r.month)
  }

  // The lowest net of any day, or zero when none is negative.
  ghost predicate IsWorstDay(w: real, trades: seq<Trade>) {
    && w <= 0.0
    && (forall t :: t in trades ==> w <= DayNet(trades, t.day))
    && (w == 0.0 || exists t :: t in trades && w == DayNet(trades, t.day))
  }

  // The running figures of the single pass over the trades.
  datatype Figures = Figures(gross: real, charges: real, net: real, wins: int, losses: int, grossWin: real, grossLoss: real)

  function FiguresOf(trades: seq<Trade>): Figures {
    Figures(Sum(trades, Gross), Sum(trades, Charges), Sum(trades, Net),
            TallyOf(trades).wins, TallyOf(trades).losses, Sum(trades, Won), Sum(trades, Lost))
  }

  ghost predicate Summarizes(s: Summary, trades: seq<Trade>) {
    && Figures(s.gross, s.charges, s.net, s.wins, s.losses, s.grossWin, s.grossLoss) == FiguresOf(trades)
    && IsWorstDay(s.worstDay, trades) && IsMonthTable(s.byMonth, trades)
  }

  // ---- Cost scaling ----

  function Rescaled(t: Trade, mult: real): Trade {
    t.(charges := t.charges * mult, net := t.gross - t.charges * mult)
  }

  // A multiplier of one leaves trades as they are, even a net that does not add up.
  function Scaled(trades: seq<Trade>, mult: real): (scaled: seq<Trade>)
    ensures |scaled| == |trades|
  {
    if mult == 1.0 then trades else seq(|trades|, i requires 0 <= i < |trades| => Rescaled(trades[i], mult))
  }

  // ---- The report ----

  class Report {
    var trades: seq<Trade>
    const maxDrawdown: real
    var gross: real
    var charges: real
    var net: real
    var wins: int
    var losses: int
    var grossWin: real
    var grossLoss: real
    var worstDay: real
    var byMonth: seq<MonthStat>

    function View(): Summary
      reads this
    {
      Summary(gross, charges, net, wins, losses, grossWin, grossLoss, worstDay, byMonth)
    }

    constructor (trades: seq<Trade>, maxDrawdown: real)
      ensures this.trades == trades && this.maxDrawdown == maxDrawdown
      ensures Summarizes(View(), trades)
    {
      this.trades, this.maxDrawdown := trades, maxDrawdown;
      byMonth := [];
      new;
      RecomputeAggregates();
    }

    function Running(): Figures
      reads this
    {
      Figures(gross, charges, net, wins, losses, grossWin, grossLoss)
    }

    method RecomputeAggregates()
      modifies this
      ensures trades == old(trades)
      ensures Summarizes(View(), trades)
    {
      var byDay, months := Accumulate();
      worstDay := WorstOf(byDay, trades);
      byMonth := Table(months, trades);
    }

    // The single pass: totals in the fields, day and month groups in two maps.
    method Accumulate() returns (byDay: map<int, real>, months: map<int, Tally>)
      modifies this`gross, this`charges, this`net, this`wins, this`losses, this`grossWin, this`grossLoss
      ensures Running() == FiguresOf(trades)
      ensures DaysFor(byDay, trades) && MonthsFor(months, trades)
    {
      gross, charges, net, grossWin, grossLoss := 0.0, 0.0, 0.0, 0.0, 0.0;
      wins, losses := 0, 0;
      byDay, months := map[], map[];
      assert trades[..0] == [];
      var i := 0;
      while i < |trades|
        invariant 0 <= i <= |trades|
        invariant Running() == FiguresOf(trades[..i])
        invariant DaysFor(byDay, trades[..i]) && MonthsFor(months, trades[..i])
      {
        var t := trades[i];
        assert trades[..i + 1] == trades[..i] + [t];
        SnocFigures(trades[..i], t);
        SnocDays(byDay, trades[..i], t);
        SnocMonths(months, trades[..i], t);
        AddTrade(t);
        byDay := AddToDay(byDay, t);
        months := AddToMonth(months, t);
        i := i + 1;
      }
      assert trades[..i] == trades;
    }

    method AddTrade(t: Trade)
      modifies this`gross, this`charges, this`net, this`wins, this`losses, this`grossWin, this`grossLoss
      ensures Running() == Plus(old(Running()), t)
    {
      gross, charges, net := gross + t.gross, charges + t.charges, net + t.net;
      if t.net > 0.0 {
        wins := wins + 1;
        grossWin := grossWin + t.net;
      } else {
        losses := losses + 1;
        grossLoss := grossLoss + -t.net;
      }
    }

    method RescaleTrades(mult: real)
      requires mult != 1.0
      modifies this`trades
      ensures trades == Scaled(old(trades), mult)
    {
      ghost var was := trades;
      var i := 0;
      while i < |trades|
        invariant 0 <= i <= |trades| == |was|
        invariant forall j :: 0 <= j < i ==> trades[j] == Rescaled(was[j], mult)
        invariant forall j :: i <= j < |was| ==> trades[j] == was[j]
      {
        var t := trades[i];
        t := t.(charges := t.charges * mult);
        t := t.(net := t.gross - t.charges);
        assert t == Rescaled(was[i], mult);
        trades := trades[i := t];
        i := i + 1;
      }
    }

    // Every figure follows the new costs, except the drawdown, which is not touched.
    method ScaleCosts(mult: real)
      requires Summarizes(View(), trades)
      modifies this
      ensures trades == Scaled(old(trades), mult)
      ensures Summarizes(View(), trades)
    {
      if mult == 1.0 {
        return;
      }
      RescaleTrades(mult);
      RecomputeAggregates();
    }
  }

  function Plus(f: Figures, t: Trade): Figures {
    Figures(f.gross + t.gross, f.charges + t.charges, f.net + t.net,
            f.wins + One(t).wins, f.losses + One(t).losses, f.grossWin + Won(t), f.grossLoss + Lost(t))
  }

  // ---- The maps behind the groupings ----

  ghost predicate DaysFor(byDay: map<int, real>, trades: seq<Trade>) {
    && byDay.Keys == (set t | t in trades :: t.day)
    && forall d :: DayNet(trades, d) == if d in byDay then byDay[d] else 0.0
  }

  function AddToDay(byDay: map<int, real>, t: Trade): map<int, real> {
    byDay[t.day := (if t.day in byDay then byDay[t.day] else 0.0) + t.net]
  }

  function AddToMonth(months: map<int, Tally>, t: Trade): map<int, Tally> {
    months[t.month := (if t.month in months then months[t.month] else ZERO).Plus(One(t))]
  }

  ghost predicate MonthsFor(months: map<int, Tally>, trades: seq<Trade>) {
    && months.Keys == TradeMonths(trades)
    && forall m :: MonthTally(trades, m) == if m in months then months[m] else ZERO
  }

  lemma SnocFigures(trades: seq<Trade>, t: Trade)
    ensures FiguresOf(trades + [t]) == Plus(FiguresOf(trades), t)
    ensures TallyOf(trades + [t]) == TallyOf(trades).Plus(One(t))
  {
    assert (trades + [t])[..|trades|] == trades;
  }

  // A tally with one more trade, if the trade belongs.
  function With(tally: Tally, belongs: bool, one: Tally): Tally {
    if belongs then tally.Plus(one) else tally
  }

  lemma WithinTallySnoc(trades: seq<Trade>, t: Trade, months: set<int>)
    ensures TallyOf(Within(trades + [t], months)) == With(TallyOf(Within(trades, months)), t.month in months, One(t))
  {
    assert (trades + [t])[..|trades|] == trades;
    var w := Within(trades, months);
    assert Within(trades + [t], months) == if t.month in months then w + [t] else w;
    assert (w + [t])[..|w|] == w;
  }

  lemma SnocDays(byDay: map<int, real>, trades: seq<Trade>, t: Trade)
    requires DaysFor(byDay, trades)
    ensures DaysFor(AddToDay(byDay, t), trades + [t])
  {
    assert (trades + [t])[..|trades|] == trades;
    assert (set u | u in trades + [t] :: u.day) == (set u | u in trades :: u.day) + {t.day};
    assert forall d :: DayNet(trades + [t], d) == DayNet(trades, d) + if t.day == d then t.net else 0.0;
  }

  lemma TradeMonthsSnoc(trades: seq<Trade>, t: Trade)
    ensures TradeMonths(trades + [t]) == TradeMonths(trades) + {t.month}
  {
  }

  lemma SnocMonths(months: map<int, Tally>, trades: seq<Trade>, t: Trade)
    requires MonthsFor(months, trades)
    ensures MonthsFor(AddToMonth(months, t), trades + [t])
  {
    TradeMonthsSnoc(trades, t);
    forall m: int
      ensures MonthTally(trades + [t], m) == With(MonthTally(trades, m), t.month == m, One(t))
    {
      WithinTallySnoc(trades, t, {m});
    }
  }

  // The least value of the map, or zero, taking the keys in any order.
  method WorstOf(byDay: map<int, real>, ghost trades: seq<Trade>) returns (worst: real)
    requires DaysFor(byDay, trades)
    ensures IsWorstDay(worst, trades)
  {
    worst := 0.0;
    var todo := byDay.Keys;
    while todo != {}
      invariant todo <= byDay.Keys && worst <= 0.0
      invariant forall d :: d in byDay && d !in todo ==> worst <= byDay[d]
      invariant worst == 0.0 || exists d :: d in byDay && worst == byDay[d]
    {
      SomeMember(todo);
      var d :| d in todo;
      todo := todo - {d};
      if byDay[d] < worst {
        worst := byDay[d];
      }
    }
  }

  lemma SomeMember(s: set<int>)
    requires s != {}
    ensures exists x :: x in s
  {
    assert (forall x :: x !in s) ==> s == {};
  }

  function Insert(sorted: seq<int>, x: int): (r: seq<int>)
    requires forall i, j :: 0 <= i < j < |sorted| ==> sorted[i] < sorted[j]
    requires x !in sorted
    ensures forall i, j :: 0 <= i < j < |r| ==> r[i] < r[j]
    ensures forall y :: y in r <==> y in sorted || y == x
  {
    if sorted == [] || x < sorted[0] then [x] + sorted
    else
      assert sorted == [sorted[0]] + sorted[1..];
      var rest := Insert(sorted[1..], x);
      assert forall y :: y in rest ==> sorted[0] < y;
      assert forall i :: 0 <= i < |rest| ==> rest[i] in rest;
      [sorted[0]] + rest
  }

  method Table(months: map<int, Tally>, ghost trades: seq<Trade>) returns (rows: seq<MonthStat>)
    requires MonthsFor(months, trades)
    ensures IsMonthTable(rows, trades)
  {
    var sorted: seq<int> := [];
    var todo := months.Keys;
    while todo != {}
      invariant todo <= months.Keys
      invariant forall i, j :: 0 <= i < j < |sorted| ==> sorted[i] < sorted[j]
      invariant forall m :: m in sorted <==> m in months && m !in todo
    {
      SomeMember(todo);
      var m :| m in todo;
      todo := todo - {m};
      sorted := Insert(sorted, m);
    }
    rows := [];
    var i := 0;
    while i < |sorted|
      invariant 0 <= i <= |sorted| && |rows| == i
      invariant forall j :: 0 <= j < i ==> rows[j].month == sorted[j] && rows[j].tally == months[sorted[j]]
    {
      assert sorted[i] in sorted;
      rows := rows + [MonthStat(sorted[i], months[sorted[i]])];
      i := i + 1;
    }
    RowsAreTable(rows, sorted, months, trades);
  }

  lemma RowsAreTable(rows: seq<MonthStat>, sorted: seq<int>, months: map<int, Tally>, trades: seq<Trade>)
    requires MonthsFor(months, trades)
    requires forall i, j :: 0 <= i < j < |sorted| ==> sorted[i] < sorted[j]
    requires forall m :: m in sorted <==> m in months
    requires |rows| == |sorted| && forall j :: 0 <= j < |rows| ==> rows[j].month == sorted[j] && rows[j].tally == months[sorted[j]]
    ensures IsMonthTable(rows, trades)
  {
    forall m | m in months
      ensures m in MonthsOf(rows)
    {
      var j :| 0 <= j < |sorted| && sorted[j] == m;
      assert rows[j] in rows;
    }
    assert forall j :: 0 <= j < |rows| ==> rows[j].month in sorted;
    assert MonthsOf(rows) == months.Keys;
  }

  // ---- Results ----

  function Total(rows: seq<MonthStat>): Tally {
    if rows == [] then ZERO else Total(rows[..|rows| - 1]).Plus(rows[|rows| - 1].tally)
  }

  lemma {:induction false} WithinSplits(trades: seq<Trade>, months: set<int>, m: int)
    requires m !in months
    ensures TallyOf(Within(trades, months + {m})) == TallyOf(Within(trades, months)).Plus(MonthTally(trades, m))
    decreases |trades|
  {
    if trades != [] {
      var earlier, t := trades[..|trades| - 1], trades[|trades| - 1];
      assert trades == earlier + [t];
      WithinSplits(earlier, months, m);
      WithinTallySnoc(earlier, t, months + {m});
      WithinTallySnoc(earlier, t, months);
      WithinTallySnoc(earlier, t, {m});
      WithSplits(TallyOf(Within(earlier, months)), MonthTally(earlier, m), t.month in months, t.month == m, One(t));
    }
  }

  lemma WithSplits(x: Tally, y: Tally, p: bool, q: bool, one: Tally)
    requires !(p && q)
    ensures With(x.Plus(y), p || q, one) == With(x, p, one).Plus(With(y, q, one))
  {
  }

  lemma {:induction false} RowsTally(rows: seq<MonthStat>, trades: seq<Trade>)
    requires Increasing(rows) && forall r :: r in rows ==> r.tally == MonthTally(trades, r.month)
    ensures Total(rows) == TallyOf(Within(trades, MonthsOf(rows)))
    decreases |rows|
  {
    if rows == [] {
      WithinNone(trades);
      assert MonthsOf(rows) == {};
    } else {
      var earlier, last := rows[..|rows| - 1], rows[|rows| - 1];
      assert rows == earlier + [last];
      RowsTally(earlier, trades);
      LastIsGreatest(rows);
      MonthsOfSnoc(earlier, last);
      WithinSplits(trades, MonthsOf(earlier), last.month);
    }
  }

  lemma MonthsOfSnoc(rows: seq<MonthStat>, row: MonthStat)
    ensures MonthsOf(rows + [row]) == MonthsOf(rows) + {row.month}
    ensures Total(rows + [row]) == Total(rows).Plus(row.tally)
  {
    assert (rows + [row])[..|rows|] == rows;
  }

  lemma {:induction false} WithinNone(trades: seq<Trade>)
    ensures Within(trades, {}) == []
    decreases |trades|
  {
    if trades != [] {
      WithinNone(trades[..|trades| - 1]);
    }
  }

  lemma {:induction false} WithinAll(trades: seq<Trade>, months: set<int>)
    requires forall t :: t in trades ==> t.month in months
    ensures Within(trades, months) == trades
    decreases |trades|
  {
    if trades != [] {
      var earlier := trades[..|trades| - 1];
      assert trades == earlier + [trades[|trades| - 1]];
      WithinAll(earlier, months);
    }
  }

  // The month rows add up to the whole: trades, net profit, wins and losses.
  lemma MonthsAddUp(rows: seq<MonthStat>, trades: seq<Trade>)
    requires IsMonthTable(rows, trades)
    ensures Total(rows) == TallyOf(trades)
  {
    RowsTally(rows, trades);
    WithinAll(trades, MonthsOf(rows));
  }

  // The headline figures agree with one another: every trade is a win or a loss, net is
  // winnings less losings, and what the months say adds up to it.
  lemma {:induction false} FiguresAgree(s: Summary, trades: seq<Trade>)
    requires Summarizes(s, trades)
    ensures s.wins + s.losses == |trades|
    ensures s.net == s.grossWin - s.grossLoss
    ensures Total(s.byMonth) == Tally(|trades|, s.net, s.wins, s.losses)
  {
    TallyFigures(trades);
    MonthsAddUp(s.byMonth, trades);
  }

  lemma {:induction false} TallyFigures(trades: seq<Trade>)
    ensures TallyOf(trades).trades == |trades| && TallyOf(trades).net == Sum(trades, Net)
    ensures TallyOf(trades).wins + TallyOf(trades).losses == |trades|
    ensures Sum(trades, Net) == Sum(trades, Won) - Sum(trades, Lost)
    decreases |trades|
  {
    if trades != [] {
      TallyFigures(trades[..|trades| - 1]);
    }
  }

  // A summary is determined by the trades.
  lemma SummaryIsUnique(s: Summary, s': Summary, trades: seq<Trade>)
    requires Summarizes(s, trades) && Summarizes(s', trades)
    ensures s == s'
  {
    assert s.worstDay == s'.worstDay;
    TableIsUnique(s.byMonth, s'.byMonth, trades);
  }

  lemma TableIsUnique(a: seq<MonthStat>, b: seq<MonthStat>, trades: seq<Trade>)
    requires IsMonthTable(a, trades) && IsMonthTable(b, trades)
    ensures a == b
  {
    SameRows(a, b, m => MonthTally(trades, m));
  }

  lemma {:induction false} SameRows(a: seq<MonthStat>, b: seq<MonthStat>, tally: int -> Tally)
    requires Increasing(a) && Increasing(b) && MonthsOf(a) == MonthsOf(b)
    requires forall r :: r in a || r in b ==> r.tally == tally(r.month)
    ensures a == b
    decreases |a|
  {
    if a == [] {
      if b != [] {
        LastIsGreatest(b);
      }
    } else {
      LastIsGreatest(a);
      assert MonthsOf(b) != {};
      assert b != [];
      LastIsGreatest(b);
      SameLast(a, b, tally);
      SameRows(a[..|a| - 1], b[..|b| - 1], tally);
      assert a == a[..|a| - 1] + [a[|a| - 1]] && b == b[..|b| - 1] + [b[|b| - 1]];
    }
  }

  lemma SameLast(a: seq<MonthStat>, b: seq<MonthStat>, tally: int -> Tally)
    requires a != [] && b != [] && Increasing(a) && Increasing(b) && MonthsOf(a) == MonthsOf(b)
    requires forall r :: r in a || r in b ==> r.tally == tally(r.month)
    ensures a[|a| - 1] == b[|b| - 1]
  {
    LastIsGreatest(a);
    LastIsGreatest(b);
    var x, y := a[|a| - 1], b[|b| - 1];
    assert x.month == y.month;
    assert x in a && y in b;
  }

  lemma LastIsGreatest(rows: seq<MonthStat>)
    requires Increasing(rows) && rows != []
    ensures var last := rows[|rows| - 1].month;
            && last in MonthsOf(rows) && (forall m :: m in MonthsOf(rows) ==> m <= last)
            && MonthsOf(rows[..|rows| - 1]) == MonthsOf(rows) - {last}
  {
    var earlier, last := rows[..|rows| - 1], rows[|rows| - 1];
    assert rows == earlier + [last];
    assert forall r :: r in earlier ==> r.month < last.month;
    assert MonthsOf(rows) == MonthsOf(earlier) + {last.month};
  }

  predicate AddsUp(t: Trade) {
    t.net == t.gross - t.charges
  }

  predicate AllAddUp(trades: seq<Trade>) {
    forall i :: 0 <= i < |trades| ==> AddsUp(trades[i])
  }

  lemma RescaleTwice(t: Trade, a: real, b: real)
    ensures Rescaled(Rescaled(t, a), b) == Rescaled(t, a * b)
    ensures AddsUp(Rescaled(t, a))
    ensures AddsUp(t) ==> Rescaled(t, 1.0) == t
  {
    assert t.charges * a * b == t.charges * (a * b);
    assert t.charges * 1.0 == t.charges;
  }

  lemma ScaledAt(trades: seq<Trade>, a: real, i: nat)
    requires i < |trades| && AddsUp(trades[i])
    ensures Scaled(trades, a)[i] == Rescaled(trades[i], a) && AddsUp(Scaled(trades, a)[i])
  {
    RescaleTwice(trades[i], a, 1.0);
  }

  // Scaling by one multiplier and then another is scaling by their product, for every pair
  // of multipliers, exactly when every trade's net was its gross less its charges.
  lemma ScalingComposesIff(trades: seq<Trade>)
    ensures AllAddUp(trades) <==> forall a: real, b: real :: Scaled(Scaled(trades, a), b) == Scaled(trades, a * b)
  {
    if AllAddUp(trades) {
      forall a: real, b: real
        ensures Scaled(Scaled(trades, a), b) == Scaled(trades, a * b)
      {
        forall i | 0 <= i < |trades|
          ensures Scaled(Scaled(trades, a), b)[i] == Scaled(trades, a * b)[i]
        {
          ScaledAt(trades, a, i);
          ScaledAt(Scaled(trades, a), b, i);
          ScaledAt(trades, a * b, i);
          RescaleTwice(trades[i], a, b);
        }
      }
    } else {
      DoubledAndHalved(trades);
    }
  }

  lemma DoubledAndHalved(trades: seq<Trade>)
    requires !AllAddUp(trades)
    ensures Scaled(Scaled(trades, 2.0), 0.5) != Scaled(trades, 2.0 * 0.5)
  {
    var i :| 0 <= i < |trades| && !AddsUp(trades[i]);
    RescaleTwice(Rescaled(trades[i], 2.0), 0.5, 1.0);
    assert Scaled(Scaled(trades, 2.0), 0.5)[i] == Rescaled(Rescaled(trades[i], 2.0), 0.5);
    assert 2.0 * 0.5 == 1.0;
  }

  // Higher costs never make more winners.
  lemma {:induction false} WinsFallWithCosts(trades: seq<Trade>, a: real, b: real)
    requires AllAddUp(trades) && a <= b
    requires forall i :: 0 <= i < |trades| ==> 0.0 <= trades[i].charges
    ensures TallyOf(Scaled(trades, b)).wins <= TallyOf(Scaled(trades, a)).wins
    decreases |trades|
  {
    if trades != [] {
      var n := |trades| - 1;
      var earlier := trades[..n];
      WinsFallWithCosts(earlier, a, b);
      assert Scaled(trades, a)[..n] == Scaled(earlier, a);
      assert Scaled(trades, b)[..n] == Scaled(earlier, b);
      ScaledAt(trades, a, n);
      ScaledAt(trades, b, n);
      OneWinFalls(trades[n], a, b);
      TallyLast(Scaled(trades, a));
      TallyLast(Scaled(trades, b));
    }
  }

  lemma TallyLast(trades: seq<Trade>)
    requires trades != []
    ensures TallyOf(trades).wins == TallyOf(trades[..|trades| - 1]).wins + One(trades[|trades| - 1]).wins
  {
  }

  lemma OneWinFalls(t: Trade, a: real, b: real)
    requires a <= b && 0.0 <= t.charges
    ensures One(Rescaled(t, b)).wins <= One(Rescaled(t, a)).wins
  {
    CostsGrow(t.charges, a, b);
  }

  lemma CostsGrow(c: real, a: real, b: real)
    requires 0.0 <= c && a <= b
    ensures c * a <= c * b
  {
    assert c * (b - a) >= 0.0;
  }
}
