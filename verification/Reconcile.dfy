/** The startup comparison of our position records with the broker's. */
module Reconcile {
  import opened Common

  // The id stands for everything else a record carries.
  datatype Position = Position(id: int, symbol: Symbol, side: Side, quantity: int)

  datatype Verdict = Matched | Phantom | Orphan | QuantityMismatch

  datatype Item = Item(symbol: Symbol, verdict: Verdict,
                       internal: Option<Position>, broker: Option<Position>,
                       internalNet: int, brokerNet: int)

  datatype Report = Report(matched: seq<Item>, phantoms: seq<Item>, orphans: seq<Item>, mismatches: seq<Item>) {
    predicate Clean() {
      |phantoms| == 0 && |orphans| == 0 && |mismatches| == 0
    }

    function Bucket(v: Verdict): seq<Item> {
      match v
      case Matched => matched
      case Phantom => phantoms
      case Orphan => orphans
      case QuantityMismatch => mismatches
    }
  }

  function NetQuantity(p: Position): int {
    if p.side == Sell then -p.quantity else p.quantity
  }

  // ---- What a book says of a symbol ----

  predicate Has(book: seq<Position>, symbol: Symbol) {
    exists i :: 0 <= i < |book| && book[i].symbol == symbol
  }

  function Part(p: Position, symbol: Symbol): int {
    if p.symbol == symbol then NetQuantity(p) else 0
  }

  function NetOf(book: seq<Position>, symbol: Symbol): int {
    if book == [] then 0 else NetOf(book[..|book| - 1], symbol) + Part(book[|book| - 1], symbol)
  }

  // The record shown for a symbol is its last one.
  function SampleOf(book: seq<Position>, symbol: Symbol): Option<Position> {
    if book == [] then None
    else if book[|book| - 1].symbol == symbol then Some(book[|book| - 1])
    else SampleOf(book[..|book| - 1], symbol)
  }

  function VerdictOn(internal: seq<Position>, broker: seq<Position>, symbol: Symbol): Verdict {
    if !Has(broker, symbol) then Phantom
    else if !Has(internal, symbol) then Orphan
    else if NetOf(internal, symbol) == NetOf(broker, symbol) then Matched
    else QuantityMismatch
  }

  function ItemFor(internal: seq<Position>, broker: seq<Position>, symbol: Symbol): Item {
    Item(symbol, VerdictOn(internal, broker, symbol),
         SampleOf(internal, symbol), SampleOf(broker, symbol),
         NetOf(internal, symbol), NetOf(broker, symbol))
  }

  // Distinct symbols in order of first appearance.
  function FirstSeen(book: seq<Position>): seq<Symbol> {
    if book == [] then []
    else
      var earlier, last := FirstSeen(book[..|book| - 1]), book[|book| - 1].symbol;
      if last in earlier then earlier else earlier + [last]
  }

  function Select(symbols: seq<Symbol>, internal: seq<Position>, broker: seq<Position>, v: Verdict): seq<Item> {
    if symbols == [] then []
    else
      var earlier, last := Select(symbols[..|symbols| - 1], internal, broker, v), symbols[|symbols| - 1];
      if VerdictOn(internal, broker, last) == v then earlier + [ItemFor(internal, broker, last)] else earlier
  }

  // ---- The comparison ----

  datatype Agg = Agg(netQty: int, sample: Position)

  ghost predicate Aggregates(m: map<Symbol, Agg>, book: seq<Position>) {
    && (forall s :: s in m <==> Has(book, s))
    && (forall s :: s in m ==> m[s].netQty == NetOf(book, s) && Some(m[s].sample) == SampleOf(book, s))
    && (forall s :: s !in m ==> NetOf(book, s) == 0 && SampleOf(book, s) == None)
  }

  lemma SnocFacts(book: seq<Position>, n: nat, symbol: Symbol)
    requires n < |book|
    ensures NetOf(book[..n + 1], symbol) == NetOf(book[..n], symbol) + Part(book[n], symbol)
    ensures SampleOf(book[..n + 1], symbol) == if book[n].symbol == symbol then Some(book[n]) else SampleOf(book[..n], symbol)
    ensures Has(book[..n + 1], symbol) <==> Has(book[..n], symbol) || book[n].symbol == symbol
    ensures FirstSeen(book[..n + 1])
         == if book[n].symbol in FirstSeen(book[..n]) then FirstSeen(book[..n]) else FirstSeen(book[..n]) + [book[n].symbol]
  {
    var now := book[..n + 1];
    assert now[..n] == book[..n];
    assert forall i :: 0 <= i < n ==> now[i] == book[..n][i];
    assert now[n] == book[n];
  }

  lemma AggregatesOneMore(m: map<Symbol, Agg>, book: seq<Position>, n: nat)
    requires n < |book| && Aggregates(m, book[..n])
    ensures var p := book[n];
            var net := if p.symbol in m then m[p.symbol].netQty else 0;
            Aggregates(m[p.symbol := Agg(net + NetQuantity(p), p)], book[..n + 1])
  {
    forall s: Symbol
      ensures NetOf(book[..n + 1], s) == NetOf(book[..n], s) + Part(book[n], s)
      ensures SampleOf(book[..n + 1], s) == if book[n].symbol == s then Some(book[n]) else SampleOf(book[..n], s)
      ensures Has(book[..n + 1], s) <==> Has(book[..n], s) || book[n].symbol == s
    {
      SnocFacts(book, n, s);
    }
  }

  method Aggregate(book: seq<Position>) returns (m: map<Symbol, Agg>, order: seq<Symbol>)
    ensures Aggregates(m, book) && order == FirstSeen(book)
  {
    m, order := map[], [];
    var i := 0;
    while i < |book|
      invariant 0 <= i <= |book|
      invariant Aggregates(m, book[..i]) && order == FirstSeen(book[..i])
    {
      var p := book[i];
      ghost var before := m;
      if p.symbol !in m {
        order := order + [p.symbol];
      }
      var net := if p.symbol in m then m[p.symbol].netQty else 0;
      m := m[p.symbol := Agg(net + NetQuantity(p), p)];
      FirstSeenIsDistinct(book[..i]);
      AggregatesOneMore(before, book, i);
      SnocFacts(book, i, p.symbol);
      i := i + 1;
    }
    assert book[..i] == book;
  }

  // The report over these symbols, each met once.
  ghost predicate IsReport(report: Report, symbols: seq<Symbol>, internal: seq<Position>, broker: seq<Position>) {
    && (forall i, j :: 0 <= i < j < |symbols| ==> symbols[i] != symbols[j])
    && forall v :: report.Bucket(v) == Select(symbols, internal, broker, v)
  }

  method Reconcile(internal: seq<Position>, broker: seq<Position>) returns (report: Report)
    ensures IsReport(report, FirstSeen(internal + broker), internal, broker)
  {
    var ours, order := Aggregate(internal);
    var theirs, brokerOrder := Aggregate(broker);
    var symbols := Merge(internal, broker, order, brokerOrder);
    FirstSeenIsDistinct(internal + broker);
    forall sym | sym in symbols
      ensures Has(internal, sym) || Has(broker, sym)
    {
      HasSplits(internal, broker, sym);
    }
    report := Sort(symbols, ours, theirs, internal, broker);
  }

  // Each symbol's item into the bucket of its verdict.
  method Sort(symbols: seq<Symbol>, ours: map<Symbol, Agg>, theirs: map<Symbol, Agg>,
              ghost internal: seq<Position>, ghost broker: seq<Position>) returns (report: Report)
    requires Aggregates(ours, internal) && Aggregates(theirs, broker)
    requires forall sym :: sym in symbols ==> Has(internal, sym) || Has(broker, sym)
    ensures forall v :: report.Bucket(v) == Select(symbols, internal, broker, v)
  {
    report := Report([], [], [], []);
    var i := 0;
    while i < |symbols|
      invariant 0 <= i <= |symbols|
      invariant forall v :: report.Bucket(v) == Select(symbols[..i], internal, broker, v)
    {
      var sym := symbols[i];
      assert symbols[..i + 1] == symbols[..i] + [sym];
      var item := Compare(sym, ours, theirs, internal, broker);
      ghost var before := report;
      report := Added(report, item);
      forall v
        ensures report.Bucket(v) == Select(symbols[..i + 1], internal, broker, v)
      {
        SelectSnoc(symbols[..i], sym, internal, broker, v);
        assert before.Bucket(v) == Select(symbols[..i], internal, broker, v);
        AddedToBucket(before, item, v);
      }
      i := i + 1;
    }
    assert symbols[..i] == symbols;
  }

  function Added(report: Report, item: Item): Report {
    match item.verdict
    case Phantom => report.(phantoms := report.phantoms + [item])
    case Orphan => report.(orphans := report.orphans + [item])
    case Matched => report.(matched := report.matched + [item])
    case QuantityMismatch => report.(mismatches := report.mismatches + [item])
  }

  lemma AddedToBucket(report: Report, item: Item, v: Verdict)
    ensures Added(report, item).Bucket(v) == report.Bucket(v) + (if item.verdict == v then [item] else [])
  {
  }

  lemma SelectSnoc(symbols: seq<Symbol>, sym: Symbol, internal: seq<Position>, broker: seq<Position>, v: Verdict)
    ensures Select(symbols + [sym], internal, broker, v)
         == Select(symbols, internal, broker, v)
            + (if VerdictOn(internal, broker, sym) == v then [ItemFor(internal, broker, sym)] else [])
  {
    assert (symbols + [sym])[..|symbols|] == symbols;
  }

  // One symbol's item and verdict.
  method Compare(sym: Symbol, ours: map<Symbol, Agg>, theirs: map<Symbol, Agg>,
                 ghost internal: seq<Position>, ghost broker: seq<Position>) returns (item: Item)
    requires Aggregates(ours, internal) && Aggregates(theirs, broker)
    requires Has(internal, sym) || Has(broker, sym)
    ensures item == ItemFor(internal, broker, sym)
  {
    var hasInternal, hasBroker := sym in ours, sym in theirs;
    item := Item(sym, QuantityMismatch, None, None, 0, 0);
    if hasInternal {
      item := item.(internal := Some(ours[sym].sample), internalNet := ours[sym].netQty);
    }
    if hasBroker {
      item := item.(broker := Some(theirs[sym].sample), brokerNet := theirs[sym].netQty);
    }
    if hasInternal && !hasBroker {
      item := item.(verdict := Phantom);
    } else if !hasInternal && hasBroker {
      item := item.(verdict := Orphan);
    } else if ours[sym].netQty == theirs[sym].netQty {
      item := item.(verdict := Matched);
    }
  }

  // Our symbols first, then the broker's others, each once.
  method Merge(internal: seq<Position>, broker: seq<Position>, order: seq<Symbol>, brokerOrder: seq<Symbol>)
    returns (symbols: seq<Symbol>)
    requires order == FirstSeen(internal) && brokerOrder == FirstSeen(broker)
    ensures symbols == FirstSeen(internal + broker)
  {
    FirstSeenIsDistinct(internal);
    var seen: set<Symbol> := {};
    symbols := [];
    var i := 0;
    while i < |order|
      invariant 0 <= i <= |order|
      invariant symbols == order[..i] && forall s :: s in seen <==> s in symbols
    {
      if order[i] !in seen {
        seen := seen + {order[i]};
        symbols := symbols + [order[i]];
      }
      i := i + 1;
    }
    i := 0;
    while i < |brokerOrder|
      invariant 0 <= i <= |brokerOrder|
      invariant symbols == Union(order, brokerOrder[..i]) && forall s :: s in seen <==> s in symbols
    {
      assert brokerOrder[..i + 1][..i] == brokerOrder[..i];
      if brokerOrder[i] !in seen {
        seen := seen + {brokerOrder[i]};
        symbols := symbols + [brokerOrder[i]];
      }
      i := i + 1;
    }
    assert brokerOrder[..i] == brokerOrder;
    FirstSeenOfBoth(internal, broker);
  }

  // Symbols of the first list, then those of the second not met yet.
  function Union(a: seq<Symbol>, b: seq<Symbol>): seq<Symbol> {
    if b == [] then a
    else
      var earlier, last := Union(a, b[..|b| - 1]), b[|b| - 1];
      if last in earlier then earlier else earlier + [last]
  }

  lemma {:induction false} UnionMembers(a: seq<Symbol>, b: seq<Symbol>)
    ensures forall s :: s in Union(a, b) <==> s in a || s in b
  {
    if b != [] {
      UnionMembers(a, b[..|b| - 1]);
      assert b == b[..|b| - 1] + [b[|b| - 1]];
    }
  }

  lemma {:induction false} FirstSeenOfBoth(a: seq<Position>, b: seq<Position>)
    ensures FirstSeen(a + b) == Union(FirstSeen(a), FirstSeen(b))
    decreases |b|
  {
    if b == [] {
      assert a + b == a;
    } else {
      var earlier := b[..|b| - 1];
      assert (a + b)[..|a + b| - 1] == a + earlier;
      FirstSeenOfBoth(a, earlier);
      UnionMembers(FirstSeen(a), FirstSeen(earlier));
      var last := b[|b| - 1].symbol;
      if last !in FirstSeen(earlier) {
        assert (FirstSeen(earlier) + [last])[..|FirstSeen(earlier)|] == FirstSeen(earlier);
      }
    }
  }

  lemma HasSplits(a: seq<Position>, b: seq<Position>, symbol: Symbol)
    ensures Has(a + b, symbol) <==> Has(a, symbol) || Has(b, symbol)
  {
    var both := a + b;
    if Has(a, symbol) {
      var i :| 0 <= i < |a| && a[i].symbol == symbol;
      assert both[i].symbol == symbol;
    }
    if Has(b, symbol) {
      var i :| 0 <= i < |b| && b[i].symbol == symbol;
      assert both[|a| + i].symbol == symbol;
    }
  }

  lemma {:induction false} FirstSeenIsDistinct(book: seq<Position>)
    ensures forall s :: s in FirstSeen(book) <==> Has(book, s)
    ensures forall i, j :: 0 <= i < j < |FirstSeen(book)| ==> FirstSeen(book)[i] != FirstSeen(book)[j]
    decreases |book|
  {
    if book != [] {
      var n := |book| - 1;
      FirstSeenIsDistinct(book[..n]);
      assert book[..n + 1] == book;
      forall s: Symbol
        ensures s in FirstSeen(book) <==> Has(book, s)
      {
        SnocFacts(book, n, s);
      }
    }
  }

  // ---- Results ----

  function Occurrences(items: seq<Item>, symbol: Symbol): nat {
    if items == [] then 0
    else Occurrences(items[..|items| - 1], symbol) + if items[|items| - 1].symbol == symbol then 1 else 0
  }

  lemma {:induction false} SelectCounts(symbols: seq<Symbol>, internal: seq<Position>, broker: seq<Position>, v: Verdict, s: Symbol)
    requires forall i, j :: 0 <= i < j < |symbols| ==> symbols[i] != symbols[j]
    ensures Occurrences(Select(symbols, internal, broker, v), s)
         == if s in symbols && VerdictOn(internal, broker, s) == v then 1 else 0
    decreases |symbols|
  {
    if symbols != [] {
      var earlier, last := symbols[..|symbols| - 1], symbols[|symbols| - 1];
      SelectCounts(earlier, internal, broker, v, s);
      assert symbols == earlier + [last];
      assert last !in earlier;
      var items := Select(earlier, internal, broker, v);
      assert (items + [ItemFor(internal, broker, last)])[..|items|] == items;
    }
  }

  // An exact partition: every symbol of either book lands once, in the bucket of its
  // verdict, and no other symbol appears.
  lemma ReportPartitions(internal: seq<Position>, broker: seq<Position>, v: Verdict, s: Symbol)
    ensures Occurrences(Select(FirstSeen(internal + broker), internal, broker, v), s)
         == if (Has(internal, s) || Has(broker, s)) && VerdictOn(internal, broker, s) == v then 1 else 0
  {
    FirstSeenIsDistinct(internal + broker);
    SymbolsOfBoth(internal, broker, s);
    SelectCounts(FirstSeen(internal + broker), internal, broker, v, s);
  }

  // What a book's records of a symbol amount to on one side.
  function Amount(book: seq<Position>, symbol: Symbol, side: Side): int {
    if book == [] then 0
    else
      var last := book[|book| - 1];
      Amount(book[..|book| - 1], symbol, side) + if last.symbol == symbol && last.side == side then last.quantity else 0
  }

  // Bought less sold.
  function Net(book: seq<Position>, symbol: Symbol): int {
    Amount(book, symbol, Buy) - Amount(book, symbol, Sell)
  }

  lemma {:induction false} SignedSumIsNet(book: seq<Position>, symbol: Symbol)
    ensures NetOf(book, symbol) == Net(book, symbol)
    decreases |book|
  {
    if book != [] {
      SignedSumIsNet(book[..|book| - 1], symbol);
    }
  }

  // Which bucket a symbol lands in, told from the two books alone: a position only we hold is a
  // phantom, one only the broker holds an orphan, and one both hold matches when what we bought
  // less what we sold is what the broker says.
  lemma BucketsByPresence(symbols: seq<Symbol>, internal: seq<Position>, broker: seq<Position>, report: Report, s: Symbol)
    requires IsReport(report, symbols, internal, broker) && s in symbols && (Has(internal, s) || Has(broker, s))
    ensures Occurrences(report.phantoms, s) == if !Has(broker, s) then 1 else 0
    ensures Occurrences(report.orphans, s) == if !Has(internal, s) then 1 else 0
    ensures Occurrences(report.matched, s) == if Has(internal, s) && Has(broker, s) && Net(internal, s) == Net(broker, s) then 1 else 0
    ensures Occurrences(report.mismatches, s) == if Has(internal, s) && Has(broker, s) && Net(internal, s) != Net(broker, s) then 1 else 0
  {
    InBucket(symbols, internal, broker, report.phantoms, Phantom, s);
    InBucket(symbols, internal, broker, report.orphans, Orphan, s);
    InBucket(symbols, internal, broker, report.matched, Matched, s);
    InBucket(symbols, internal, broker, report.mismatches, QuantityMismatch, s);
    VerdictIs(internal, broker, s);
    assert report.phantoms == report.Bucket(Phantom) && report.orphans == report.Bucket(Orphan);
    assert report.matched == report.Bucket(Matched) && report.mismatches == report.Bucket(QuantityMismatch);
  }

  lemma InBucket(symbols: seq<Symbol>, internal: seq<Position>, broker: seq<Position>, items: seq<Item>, v: Verdict, s: Symbol)
    requires forall i, j :: 0 <= i < j < |symbols| ==> symbols[i] != symbols[j]
    requires s in symbols
    ensures items == Select(symbols, internal, broker, v) ==> Occurrences(items, s) == if VerdictOn(internal, broker, s) == v then 1 else 0
  {
    SelectCounts(symbols, internal, broker, v, s);
  }

  lemma VerdictIs(internal: seq<Position>, broker: seq<Position>, s: Symbol)
    requires Has(internal, s) || Has(broker, s)
    ensures VerdictOn(internal, broker, s) == Phantom <==> !Has(broker, s)
    ensures VerdictOn(internal, broker, s) == Orphan <==> !Has(internal, s)
    ensures VerdictOn(internal, broker, s) == Matched <==> Has(internal, s) && Has(broker, s) && Net(internal, s) == Net(broker, s)
    ensures VerdictOn(internal, broker, s) == QuantityMismatch <==> Has(internal, s) && Has(broker, s) && Net(internal, s) != Net(broker, s)
  {
    SignedSumIsNet(internal, s);
    SignedSumIsNet(broker, s);
  }

  // What an item says of one book: its sum, and one of its records of the symbol if there is one.
  predicate TellsOf(book: seq<Position>, symbol: Symbol, sample: Option<Position>, net: int) {
    && net == Net(book, symbol)
    && (sample.Some? <==> Has(book, symbol))
    && (sample.Some? ==> sample.value in book && sample.value.symbol == symbol)
  }

  lemma {:induction false} SampleIsRecord(book: seq<Position>, symbol: Symbol)
    ensures var sample := SampleOf(book, symbol);
            (sample.Some? <==> Has(book, symbol)) && (sample.Some? ==> sample.value in book && sample.value.symbol == symbol)
    decreases |book|
  {
    if book != [] {
      var n := |book| - 1;
      SampleIsRecord(book[..n], symbol);
      assert book[..n + 1] == book;
      SnocFacts(book, n, symbol);
    }
  }

  // Every item tells of both books, ours as ours and the broker's as the broker's.
  lemma {:induction false} ItemsTellOfBothBooks(symbols: seq<Symbol>, internal: seq<Position>, broker: seq<Position>, v: Verdict)
    ensures forall item :: item in Select(symbols, internal, broker, v) ==>
              item.verdict == v && TellsOf(internal, item.symbol, item.internal, item.internalNet)
              && TellsOf(broker, item.symbol, item.broker, item.brokerNet)
    decreases |symbols|
  {
    if symbols != [] {
      var last := symbols[|symbols| - 1];
      ItemsTellOfBothBooks(symbols[..|symbols| - 1], internal, broker, v);
      SampleIsRecord(internal, last);
      SampleIsRecord(broker, last);
      SignedSumIsNet(internal, last);
      SignedSumIsNet(broker, last);
    }
  }

  lemma {:induction false} SelectEmptyIff(symbols: seq<Symbol>, internal: seq<Position>, broker: seq<Position>, v: Verdict)
    ensures Select(symbols, internal, broker, v) == [] <==> forall s :: s in symbols ==> VerdictOn(internal, broker, s) != v
    decreases |symbols|
  {
    if symbols != [] {
      var earlier, last := symbols[..|symbols| - 1], symbols[|symbols| - 1];
      assert symbols == earlier + [last];
      SelectEmptyIff(earlier, internal, broker, v);
    }
  }

  ghost predicate SameBook(a: seq<Position>, b: seq<Position>) {
    forall s :: Agree(a, b, s)
  }

  predicate Agree(a: seq<Position>, b: seq<Position>, symbol: Symbol) {
    (Has(a, symbol) <==> Has(b, symbol)) && NetOf(a, symbol) == NetOf(b, symbol)
  }

  // A report is clean exactly when both books hold the same symbols at equal signed sums.
  lemma CleanIffSameBook(symbols: seq<Symbol>, internal: seq<Position>, broker: seq<Position>, report: Report)
    requires IsReport(report, symbols, internal, broker) && forall s :: s in symbols <==> Has(internal, s) || Has(broker, s)
    ensures report.Clean() <==> SameBook(internal, broker)
  {
    SelectEmptyIff(symbols, internal, broker, Phantom);
    SelectEmptyIff(symbols, internal, broker, Orphan);
    SelectEmptyIff(symbols, internal, broker, QuantityMismatch);
    assert report.phantoms == report.Bucket(Phantom) && report.orphans == report.Bucket(Orphan)
        && report.mismatches == report.Bucket(QuantityMismatch);
    AllMatchedIff(symbols, internal, broker);
  }

  lemma AllMatchedIff(symbols: seq<Symbol>, internal: seq<Position>, broker: seq<Position>)
    requires forall s :: s in symbols <==> Has(internal, s) || Has(broker, s)
    ensures SameBook(internal, broker) <==> forall s :: s in symbols ==> VerdictOn(internal, broker, s) == Matched
  {
    forall s: Symbol
      ensures Agree(internal, broker, s) <==> (s in symbols ==> VerdictOn(internal, broker, s) == Matched)
    {
      if !Has(internal, s) && !Has(broker, s) {
        AbsentNetsZero(internal, s);
        AbsentNetsZero(broker, s);
      }
    }
  }

  // The symbols of a report are those of either book.
  lemma SymbolsOfBoth(internal: seq<Position>, broker: seq<Position>, s: Symbol)
    ensures s in FirstSeen(internal + broker) <==> Has(internal, s) || Has(broker, s)
  {
    FirstSeenIsDistinct(internal + broker);
    HasSplits(internal, broker, s);
  }

  lemma {:induction false} AbsentNetsZero(book: seq<Position>, symbol: Symbol)
    requires !Has(book, symbol)
    ensures NetOf(book, symbol) == 0
    decreases |book|
  {
    if book != [] {
      var n := |book| - 1;
      assert book[..n + 1] == book;
      SnocFacts(book, n, symbol);
      AbsentNetsZero(book[..n], symbol);
      assert book[n].symbol != symbol;
    }
  }

  // Only presence and signed sums matter to a verdict.
  lemma VerdictsOfSameBooks(a: seq<Position>, a': seq<Position>, b: seq<Position>, b': seq<Position>, symbol: Symbol)
    requires SameBook(a, a') && SameBook(b, b')
    ensures VerdictOn(a, b, symbol) == VerdictOn(a', b', symbol)
  {
    assert Agree(a, a', symbol) && Agree(b, b', symbol);
  }

  lemma {:induction false} NetOfConcat(a: seq<Position>, b: seq<Position>, symbol: Symbol)
    ensures NetOf(a + b, symbol) == NetOf(a, symbol) + NetOf(b, symbol)
    decreases |b|
  {
    if b == [] {
      assert a + b == a;
    } else {
      assert (a + b)[..|a + b| - 1] == a + b[..|b| - 1];
      NetOfConcat(a, b[..|b| - 1], symbol);
    }
  }

  // Reordering records changes no verdict.
  lemma {:induction false} PermutedIsSameBook(a: seq<Position>, b: seq<Position>)
    requires multiset(a) == multiset(b)
    ensures SameBook(a, b)
  {
    forall s: Symbol
      ensures Agree(a, b, s)
    {
      PermutedNets(a, b, s);
      assert forall i :: 0 <= i < |a| ==> a[i] in multiset(b);
      assert forall i :: 0 <= i < |b| ==> b[i] in multiset(a);
    }
  }

  lemma NetWithout(before: seq<Position>, p: Position, after: seq<Position>, symbol: Symbol)
    ensures NetOf(before + [p] + after, symbol) == NetOf(before + after, symbol) + NetOf([p], symbol)
  {
    NetOfConcat(before, after, symbol);
    NetOfConcat(before + [p], after, symbol);
    NetOfConcat(before, [p], symbol);
  }

  lemma {:induction false} PermutedNets(a: seq<Position>, b: seq<Position>, symbol: Symbol)
    requires multiset(a) == multiset(b)
    ensures NetOf(a, symbol) == NetOf(b, symbol)
    decreases |a|
  {
    if a != [] {
      var earlier, last := a[..|a| - 1], a[|a| - 1];
      assert a == earlier + [last];
      var before, after := TakeOne(earlier, last, b);
      PermutedNets(earlier, before + after, symbol);
      NetWithout(before, last, after, symbol);
      NetOfConcat(earlier, [last], symbol);
    } else {
      assert |multiset(b)| == 0;
      assert b == [];
    }
  }

  lemma TakeOne(earlier: seq<Position>, last: Position, b: seq<Position>) returns (before: seq<Position>, after: seq<Position>)
    requires multiset(earlier + [last]) == multiset(b)
    ensures b == before + [last] + after && multiset(earlier) == multiset(before + after)
  {
    assert last in multiset(b);
    var k :| 0 <= k < |b| && b[k] == last;
    before, after := b[..k], b[k + 1..];
    assert b == before + [last] + after;
    assert multiset(before + after) == multiset(b) - multiset{last};
  }

  // Recording one position as two of its symbol, with the same signed sum, changes no verdict.
  lemma SplitIsSameBook(before: seq<Position>, p: Position, q: Position, r: Position, after: seq<Position>)
    requires p.symbol == q.symbol == r.symbol && NetQuantity(p) == NetQuantity(q) + NetQuantity(r)
    ensures SameBook(before + [p] + after, before + [q, r] + after)
  {
    forall s: Symbol
      ensures Agree(before + [p] + after, before + [q, r] + after, s)
    {
      HasSplits(before + [p], after, s);
      HasSplits(before, [p], s);
      HasSplits(before + [q, r], after, s);
      HasSplits(before, [q, r], s);
      assert [q, r] == [q] + [r];
      assert [p][0] == p && [q, r][0] == q && [q, r][1] == r;
      NetOfConcat(before + [p], after, s);
      NetOfConcat(before, [p], s);
      NetOfConcat(before + [q, r], after, s);
      NetOfConcat(before, [q] + [r], s);
      NetOfConcat([q], [r], s);
      Singleton(p, s);
      Singleton(q, s);
      Singleton(r, s);
    }
  }

  lemma Singleton(p: Position, symbol: Symbol)
    ensures NetOf([p], symbol) == Part(p, symbol)
  {
    assert [p][..0] == [];
  }
}
