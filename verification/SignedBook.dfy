/** The live broker's position book: signed positions at average cost, netting through zero. */
module SignedBook {
  import opened Common

  datatype Holding = Holding(quantity: int, averagePrice: real, side: Side)

  datatype Fill = Fill(symbol: Symbol, quantity: int, price: real, side: Side)

  type Book = map<Symbol, Holding>

  // A holding with more on its own side, at the weighted average price.
  function Grown(pos: Holding, quantity: int, price: real): Holding {
    var total := pos.averagePrice * pos.quantity as real + price * quantity as real;
    var q := pos.quantity + quantity;
    pos.(quantity := q, averagePrice := if q > 0 then total / q as real else pos.averagePrice)
  }

  // A holding of the symbol after one more fill; None is no holding.
  function Net(h: Option<Holding>, quantity: int, price: real, side: Side): Option<Holding> {
    match h
    case None =>
      if quantity <= 0 then None else Some(Holding(quantity, price, side))
    case Some(pos) =>
      if side == pos.side then Some(Grown(pos, quantity, price))
      else if quantity < pos.quantity then Some(pos.(quantity := pos.quantity - quantity))
      else if quantity == pos.quantity then None
      else Some(Holding(quantity - pos.quantity, price, side))
  }

  function Lookup(book: Book, symbol: Symbol): Option<Holding> {
    if symbol in book then Some(book[symbol]) else None
  }

  function Apply(book: Book, f: Fill): Book {
    match Net(Lookup(book, f.symbol), f.quantity, f.price, f.side)
    case None => book - {f.symbol}
    case Some(pos) => book[f.symbol := pos]
  }

  function After(fills: seq<Fill>): Book {
    if fills == [] then map[] else Apply(After(fills[..|fills| - 1]), fills[|fills| - 1])
  }

  class AngelBook {
    var positions: Book

    constructor ()
      ensures positions == map[]
    {
      positions := map[];
    }

    method UpdatePosition(symbol: Symbol, quantity: int, price: real, side: Side)
      modifies this
      ensures positions == Apply(old(positions), Fill(symbol, quantity, price, side))
    {
      if symbol !in positions {
        if quantity <= 0 {
          assert positions - {symbol} == positions;
          return;
        }
        positions := positions[symbol := Holding(quantity, price, side)];
        return;
      }
      var pos := positions[symbol];
      if side == pos.side {
        var totalValue := pos.averagePrice * pos.quantity as real + price * quantity as real;
        var q := pos.quantity + quantity;
        var grown := pos.(quantity := q);
        if q > 0 {
          grown := grown.(averagePrice := totalValue / q as real);
        }
        assert grown == Grown(pos, quantity, price);
        positions := positions[symbol := grown];
        return;
      }
      if quantity < pos.quantity {
        positions := positions[symbol := pos.(quantity := pos.quantity - quantity)];
      } else if quantity == pos.quantity {
        positions := positions - {symbol};
      } else {
        var remainder := quantity - pos.quantity;
        positions := positions[symbol := Holding(remainder, price, side)];
      }
    }
  }

  // ---- The fill history, summed without a book ----

  function Signed(f: Fill): int {
    f.side.Sign() * f.quantity
  }

  function SignedSum(fills: seq<Fill>, symbol: Symbol): int {
    if fills == [] then 0
    else
      var f := fills[|fills| - 1];
      SignedSum(fills[..|fills| - 1], symbol) + (if f.symbol == symbol then Signed(f) else 0)
  }

  // What the fills cost: bought less sold, at fill prices.
  function SignedCost(fills: seq<Fill>, symbol: Symbol): real {
    if fills == [] then 0.0
    else
      var f := fills[|fills| - 1];
      SignedCost(fills[..|fills| - 1], symbol) + CostFor(f, symbol)
  }

  // Profit a fill realizes on the quantity it closes, against the average price.
  function Realizes(h: Option<Holding>, f: Fill): real {
    if h.None? || h.value.side == f.side then 0.0
    else
      var closed := if f.quantity < h.value.quantity then f.quantity else h.value.quantity;
      (h.value.side.Sign() * closed) as real * (f.price - h.value.averagePrice)
  }

  function Realized(fills: seq<Fill>, symbol: Symbol): real {
    if fills == [] then 0.0
    else
      var earlier, f := fills[..|fills| - 1], fills[|fills| - 1];
      Realized(earlier, symbol) + RealizesFor(After(earlier), f, symbol)
  }

  predicate PositiveFills(fills: seq<Fill>) {
    forall i :: 0 <= i < |fills| ==> fills[i].quantity > 0
  }

  // Signed quantity and cost basis of a holding.
  function NetQuantity(h: Option<Holding>): int {
    if h.None? then 0 else h.value.side.Sign() * h.value.quantity
  }

  function CostBasis(h: Option<Holding>): real {
    if h.None? then 0.0 else (h.value.side.Sign() * h.value.quantity) as real * h.value.averagePrice
  }

  predicate WellFormed(h: Option<Holding>) {
    h.Some? ==> h.value.quantity > 0
  }

  lemma NetQuantityMoves(h: Option<Holding>, f: Fill)
    requires WellFormed(h) && f.quantity > 0
    ensures var h' := Net(h, f.quantity, f.price, f.side);
            WellFormed(h') && NetQuantity(h') == NetQuantity(h) + Signed(f)
  {
  }

  // Cost basis plus what was paid in is what was realized, fill by fill.
  lemma CostBasisMoves(h: Option<Holding>, f: Fill)
    requires WellFormed(h) && f.quantity > 0
    ensures CostBasis(Net(h, f.quantity, f.price, f.side))
         == CostBasis(h) + Signed(f) as real * f.price + Realizes(h, f)
  {
    var sign := f.side.Sign();
    if h.None? {
    } else if f.side == h.value.side {
      var pos := h.value;
      var q := (pos.quantity + f.quantity) as real;
      GrownCost(pos, f.quantity, f.price);
      assert (sign * (pos.quantity + f.quantity)) as real == sign as real * q;
      assert (sign * pos.quantity) as real == sign as real * pos.quantity as real;
      assert (sign * f.quantity) as real == sign as real * f.quantity as real;
      SignFactors(sign as real, pos.averagePrice, pos.quantity as real, f.price, f.quantity as real, Grown(pos, f.quantity, f.price).averagePrice, q);
    } else {
      OppositeFill(h.value, f);
    }
  }

  lemma GrownCost(pos: Holding, quantity: int, price: real)
    requires pos.quantity + quantity > 0
    ensures Grown(pos, quantity, price).averagePrice * (pos.quantity + quantity) as real
         == pos.averagePrice * pos.quantity as real + price * quantity as real
  {
    var total := pos.averagePrice * pos.quantity as real + price * quantity as real;
    var q := (pos.quantity + quantity) as real;
    assert total / q * q == total;
  }

  lemma SignFactors(s: real, a: real, m: real, p: real, n: real, avg: real, q: real)
    requires avg * q == a * m + p * n
    ensures s * q * avg == s * m * a + s * n * p
  {
    assert s * q * avg == s * (avg * q);
    assert s * (a * m + p * n) == s * (a * m) + s * (p * n);
    assert s * (a * m) == s * m * a && s * (p * n) == s * n * p;
  }

  lemma OppositeFill(pos: Holding, f: Fill)
    requires f.side != pos.side && f.quantity > 0 && pos.quantity > 0
    ensures CostBasis(Net(Some(pos), f.quantity, f.price, f.side))
         == CostBasis(Some(pos)) + Signed(f) as real * f.price + Realizes(Some(pos), f)
  {
    var q, m, a, p := f.quantity as real, pos.quantity as real, pos.averagePrice, f.price;
    var s := pos.side.Sign() as real;
    assert Signed(f) as real == -(s * q);
    assert (pos.side.Sign() * pos.quantity) as real == s * m;
    if f.quantity < pos.quantity {
      assert (pos.side.Sign() * (pos.quantity - f.quantity)) as real == s * (m - q);
      assert (pos.side.Sign() * f.quantity) as real == s * q;
      Distribute(s, m, q, a, p);
    } else if f.quantity == pos.quantity {
      Distribute(s, m, m, a, p);
    } else {
      assert (f.side.Sign() * (f.quantity - pos.quantity)) as real == -(s * (q - m));
      assert s * (q - m) * p == s * q * p - s * m * p;
      assert s * m * (p - a) == s * m * p - s * m * a;
    }
  }

  lemma Distribute(s: real, m: real, q: real, a: real, p: real)
    ensures s * (m - q) * a == s * m * a + -(s * q) * p + s * q * (p - a)
  {
    assert s * (m - q) * a == s * m * a - s * q * a;
    assert s * q * (p - a) == s * q * p - s * q * a;
  }

  // What one fill of any symbol costs a given symbol, and what it realizes there.
  function CostFor(f: Fill, symbol: Symbol): real {
    if f.symbol == symbol then Signed(f) as real * f.price else 0.0
  }

  function RealizesFor(book: Book, f: Fill, symbol: Symbol): real {
    if f.symbol == symbol then Realizes(Lookup(book, symbol), f) else 0.0
  }

  lemma LookupAfterApply(book: Book, f: Fill, symbol: Symbol)
    ensures Lookup(Apply(book, f), symbol)
         == if symbol == f.symbol then Net(Lookup(book, symbol), f.quantity, f.price, f.side) else Lookup(book, symbol)
  {
  }

  lemma BasisStep(book: Book, f: Fill, symbol: Symbol)
    requires WellFormed(Lookup(book, symbol)) && f.quantity > 0
    ensures CostBasis(Lookup(Apply(book, f), symbol))
         == CostBasis(Lookup(book, symbol)) + CostFor(f, symbol) + RealizesFor(book, f, symbol)
  {
    if f.symbol == symbol {
      var h := Lookup(book, symbol);
      LookupAfterApply(book, f, symbol);
      CostBasisMoves(h, f);
    } else {
      LookupAfterApply(book, f, symbol);
    }
  }

  // ---- Results ----

  // After any positive fills, flips through zero included, the book holds for every symbol
  // the signed sum of its fills: absent exactly when that is zero, on the side of its sign.
  lemma {:induction false} BookIsSignedSum(fills: seq<Fill>, symbol: Symbol)
    requires PositiveFills(fills)
    ensures var h, net := Lookup(After(fills), symbol), SignedSum(fills, symbol);
            && WellFormed(h)
            && (h.None? <==> net == 0)
            && (h.Some? ==> h.value.quantity == (if net > 0 then net else -net)
                            && h.value.side == if net > 0 then Buy else Sell)
    decreases |fills|
  {
    if fills != [] {
      var earlier, f := fills[..|fills| - 1], fills[|fills| - 1];
      BookIsSignedSum(earlier, symbol);
      if f.symbol == symbol {
        NetQuantityMoves(Lookup(After(earlier), symbol), f);
      }
    }
  }

  // Net quantity times average price, less what the fills cost, is the profit realized on
  // the quantity closed so far.
  lemma {:induction false} BookValuesFills(fills: seq<Fill>, symbol: Symbol)
    requires PositiveFills(fills)
    ensures CostBasis(Lookup(After(fills), symbol)) - SignedCost(fills, symbol) == Realized(fills, symbol)
    decreases |fills|
  {
    if fills != [] {
      var earlier, f := fills[..|fills| - 1], fills[|fills| - 1];
      BookValuesFills(earlier, symbol);
      BookIsSignedSum(earlier, symbol);
      BasisStep(After(earlier), f, symbol);
      assert After(fills) == Apply(After(earlier), f);
      assert SignedCost(fills, symbol) == SignedCost(earlier, symbol) + CostFor(f, symbol);
      assert Realized(fills, symbol) == Realized(earlier, symbol) + RealizesFor(After(earlier), f, symbol);
    }
  }

  // Whenever a symbol is flat, its realized profit is the cash it brought in.
  lemma FlatMeansCash(fills: seq<Fill>, symbol: Symbol)
    requires PositiveFills(fills) && SignedSum(fills, symbol) == 0
    ensures Realized(fills, symbol) == -SignedCost(fills, symbol)
  {
    BookIsSignedSum(fills, symbol);
    BookValuesFills(fills, symbol);
  }
}
