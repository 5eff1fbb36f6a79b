/** The paper broker's cash: fills, margin reserved for derivative shorts, and the books. */
module PaperCash {
  import opened Common

  const MIN_FILL_FRACTION := 0.1

  datatype Position = Position(quantity: int, averagePrice: real, side: Side)

  datatype Config = Config(marginOnShorts: bool, shortMarginPct: real, fee: real)

  datatype Cash = Cash(balance: real, positions: map<Symbol, Position>, reserved: map<Symbol, real>)

  // An order with what the simulation rolled for it.
  datatype Request = Request(symbol: Symbol, side: Side, rejected: bool, fillQty: int, fillPrice: real)

  datatype Reply = NotConnected | RejectedByExchange | InsufficientBalance | Filled(quantity: int, price: real)

  // ---- Instruments ----

  predicate HasSuffix(symbol: Symbol, suffix: string) {
    |suffix| <= |symbol| && symbol[|symbol| - |suffix|..] == suffix
  }

  // A strike digit stands right before CE or PE; an equity may merely end in those letters.
  predicate IsOption(symbol: Symbol) {
    && |symbol| >= 3
    && (HasSuffix(symbol, "CE") || HasSuffix(symbol, "PE"))
    && '0' <= symbol[|symbol| - 3] <= '9'
  }

  predicate IsDerivative(symbol: Symbol) {
    IsOption(symbol) || HasSuffix(symbol, "FUT")
  }

  predicate Margined(cfg: Config, symbol: Symbol) {
    cfg.marginOnShorts && IsDerivative(symbol)
  }

  // A position grown by a fill on its own side, at the weighted average price.
  function Grown(pos: Position, r: Request): (grown: Position)
    requires pos.quantity + r.fillQty != 0
    ensures grown.averagePrice * grown.quantity as real
         == pos.averagePrice * pos.quantity as real + r.fillPrice * r.fillQty as real
  {
    var total := pos.averagePrice * pos.quantity as real + r.fillPrice * r.fillQty as real;
    var q := pos.quantity + r.fillQty;
    pos.(quantity := q, averagePrice := total / q as real)
  }

  // What a short of this size and price ties up.
  function Margin(cfg: Config, price: real, quantity: int): real {
    price * quantity as real * (1.0 + cfg.shortMarginPct)
  }

  // The part of a short's reserve that covering some of it sets free.
  function Released(reserved: real, covered: int, held: int): (released: real)
    ensures held > 0 ==> released * held as real == reserved * covered as real
  {
    if held > 0 then reserved * covered as real / held as real else 0.0
  }

  // ---- One symbol's part of a fill ----

  // The change in cash, and the symbol's new reserve when the fill touches it.
  datatype Settlement = Settlement(delta: real, reserve: Option<real>)

  // Cash from covering a short: its margin set free, the profit on what is covered, less the
  // fee, and the full price of whatever is bought beyond it.
  function CoverCash(r: Request, pos: Position, covered: int, released: real, fee: real): real {
    var delta := released + (pos.averagePrice - r.fillPrice) * covered as real - fee;
    var remainder := r.fillQty - covered;
    if remainder > 0 then delta - r.fillPrice * remainder as real else delta
  }

  function Settle(cfg: Config, r: Request, existing: Option<Position>, reserved: real): Settlement {
    var turnover := r.fillPrice * r.fillQty as real;
    if !Margined(cfg, r.symbol) then
      Settlement(if r.side == Buy then -(turnover + cfg.fee) else turnover - cfg.fee, None)
    else if r.side == Sell then
      if existing.None? || existing.value.side == Sell then
        var needed := Margin(cfg, r.fillPrice, r.fillQty);
        Settlement(-(needed + cfg.fee), Some(reserved + needed))
      else Settlement(turnover - cfg.fee, None)
    else if existing.Some? && existing.value.side == Sell then
      var pos := existing.value;
      var covered := if r.fillQty > pos.quantity then pos.quantity else r.fillQty;
      var released := Released(reserved, covered, pos.quantity);
      Settlement(CoverCash(r, pos, covered, released, cfg.fee), Some(reserved - released))
    else Settlement(-(turnover + cfg.fee), None)
  }

  // Adding to a position leaves a quantity to average over; with none, the source stores a
  // quotient by zero, which no real number is. Every fill above zero of a position above zero
  // has one.
  predicate HasAverage(existing: Option<Position>, r: Request) {
    existing.Some? && existing.value.side == r.side ==> existing.value.quantity + r.fillQty != 0
  }

  function Book(existing: Option<Position>, r: Request): Option<Position> {
    match existing
    case None => Some(Position(r.fillQty, r.fillPrice, r.side))
    case Some(pos) =>
      if r.side == pos.side then
        // where there is no average, see HasAverage
        if pos.quantity + r.fillQty == 0 then None else Some(Grown(pos, r))
      else if pos.quantity - r.fillQty <= 0 then None
      else Some(pos.(quantity := pos.quantity - r.fillQty))
  }

  // ---- One order ----

  function Held(c: Cash, symbol: Symbol): Option<Position> {
    if symbol in c.positions then Some(c.positions[symbol]) else None
  }

  function ReservedFor(c: Cash, symbol: Symbol): real {
    if symbol in c.reserved then c.reserved[symbol] else 0.0
  }

  function SettleIn(cfg: Config, c: Cash, r: Request): Settlement {
    Settle(cfg, r, Held(c, r.symbol), ReservedFor(c, r.symbol))
  }

  predicate Opening(existing: Option<Position>, side: Side) {
    existing.None? || existing.value.side == side
  }

  predicate Refused(cfg: Config, c: Cash, r: Request) {
    var delta := SettleIn(cfg, c, r).delta;
    Opening(Held(c, r.symbol), r.side) && delta < 0.0 && -delta > c.balance
  }

  function WithReserve(reserved: map<Symbol, real>, symbol: Symbol, reserve: Option<real>): map<Symbol, real> {
    if reserve.Some? then reserved[symbol := reserve.value] else reserved
  }

  function Place(cfg: Config, c: Cash, r: Request): Cash {
    if r.rejected then c
    else
      var settled := SettleIn(cfg, c, r);
      var reserved := WithReserve(c.reserved, r.symbol, settled.reserve);
      // the reserve is already raised when the balance gate refuses
      if Refused(cfg, c, r) then c.(reserved := reserved)
      else
        match Book(Held(c, r.symbol), r)
        case None => Cash(c.balance + settled.delta, c.positions - {r.symbol}, reserved - {r.symbol})
        case Some(pos) => Cash(c.balance + settled.delta, c.positions[r.symbol := pos], reserved)
  }

  function Answer(cfg: Config, c: Cash, r: Request): Reply {
    if r.rejected then RejectedByExchange
    else if Refused(cfg, c, r) then InsufficientBalance
    else Filled(r.fillQty, r.fillPrice)
  }

  // ---- The broker ----

  class MockBroker {
    const cfg: Config
    var connected: bool
    var virtualBalance: real
    var openPositions: map<Symbol, Position>
    var marginReserved: map<Symbol, real>

    function Books(): Cash
      reads this
    {
      Cash(virtualBalance, openPositions, marginReserved)
    }

    constructor (initialBalance: real, cfg: Config)
      ensures this.cfg == cfg && !connected
      ensures Books() == Cash(initialBalance, map[], map[])
    {
      this.cfg := cfg;
      connected := false;
      virtualBalance, openPositions, marginReserved := initialBalance, map[], map[];
    }

    method SettleCash(r: Request, existing: Option<Position>) returns (delta: real)
      modifies this`marginReserved
      ensures var s := Settle(cfg, r, existing, old(ReservedFor(Books(), r.symbol)));
              delta == s.delta && marginReserved == WithReserve(old(marginReserved), r.symbol, s.reserve)
    {
      var turnover := r.fillPrice * r.fillQty as real;
      if !cfg.marginOnShorts || !IsDerivative(r.symbol) {
        delta := if r.side == Buy then -(turnover + cfg.fee) else turnover - cfg.fee;
        return;
      }
      var reserved := ReservedFor(Books(), r.symbol);
      if r.side == Sell {
        if existing.None? || existing.value.side == Sell {
          var needed := turnover * (1.0 + cfg.shortMarginPct);
          assert needed == Margin(cfg, r.fillPrice, r.fillQty);
          marginReserved := marginReserved[r.symbol := reserved + needed];
          delta := -(needed + cfg.fee);
        } else {
          delta := turnover - cfg.fee;
        }
      } else if existing.Some? && existing.value.side == Sell {
        var pos := existing.value;
        var covered := r.fillQty;
        if covered > pos.quantity {
          covered := pos.quantity;
        }
        var released := 0.0;
        if pos.quantity > 0 {
          released := reserved * covered as real / pos.quantity as real;
        }
        assert released == Released(reserved, covered, pos.quantity);
        marginReserved := marginReserved[r.symbol := reserved - released];
        delta := CoverCash(r, pos, covered, released, cfg.fee);
      } else {
        delta := -(turnover + cfg.fee);
      }
    }

    method UpdatePosition(r: Request)
      requires HasAverage(Held(Books(), r.symbol), r)
      modifies this`openPositions
      ensures var after := Book(old(Held(Books(), r.symbol)), r);
              openPositions == if after.Some? then old(openPositions)[r.symbol := after.value] else old(openPositions) - {r.symbol}
    {
      if r.symbol !in openPositions {
        openPositions := openPositions[r.symbol := Position(r.fillQty, r.fillPrice, r.side)];
        return;
      }
      var pos := openPositions[r.symbol];
      if r.side == pos.side {
        var totalValue := pos.averagePrice * pos.quantity as real + r.fillPrice * r.fillQty as real;
        var q := pos.quantity + r.fillQty;
        var grown := Position(q, totalValue / q as real, pos.side);
        assert grown == Grown(pos, r);
        openPositions := openPositions[r.symbol := grown];
      } else {
        pos := pos.(quantity := pos.quantity - r.fillQty);
        openPositions := openPositions[r.symbol := pos];
        if pos.quantity <= 0 {
          openPositions := openPositions - {r.symbol};
        }
        assert openPositions == if pos.quantity <= 0 then old(openPositions) - {r.symbol} else old(openPositions)[r.symbol := pos];
      }
    }

    method PlaceOrder(r: Request) returns (reply: Reply)
      requires connected && Answer(cfg, Books(), r).Filled? ==> HasAverage(Held(Books(), r.symbol), r)
      modifies this
      ensures connected == old(connected)
      ensures !connected ==> reply == NotConnected && Books() == old(Books())
      ensures connected ==> Books() == Place(cfg, old(Books()), r) && reply == Answer(cfg, old(Books()), r)
    {
      if !connected {
        return NotConnected;
      }
      if r.rejected {
        return RejectedByExchange;
      }
      var existing := Held(Books(), r.symbol);
      var opening := existing.None? || existing.value.side == r.side;
      var delta := SettleCash(r, existing);
      if opening && delta < 0.0 && -delta > virtualBalance {
        return InsufficientBalance;
      }
      virtualBalance := virtualBalance + delta;
      UpdatePosition(r);
      if r.symbol !in openPositions {
        marginReserved := marginReserved - {r.symbol};
      }
      return Filled(r.fillQty, r.fillPrice);
    }
  }

  // Half-spreads in percent, and the size above which they grow.
  datatype FillConfig = FillConfig(optionHalfSpread: real, equityHalfSpread: real, typicalLiquidity: real)

  const DEFAULT_FILLS := FillConfig(0.3, 0.02, 75.0)

  // Everything but an option, a future too, has the equity half-spread.
  function HalfSpread(fills: FillConfig, symbol: Symbol): real {
    if IsOption(symbol) then fills.optionHalfSpread else fills.equityHalfSpread
  }

  function Slippage(reference: real, fraction: real, scale: real): real {
    reference * fraction * scale
  }

  // The price of a paper fill: half the spread against the order, scaled with its size, and
  // never below zero.
  function SimulatedFillPrice(fills: FillConfig, symbol: Symbol, side: Side, reference: real, scale: real): real {
    var slippage := Slippage(reference, HalfSpread(fills, symbol) / 100.0, scale);
    if side == Buy then reference + slippage
    else if reference - slippage < 0.0 then 0.0
    else reference - slippage
  }

  // The scale is the root of the size in units of typical liquidity, once above it.
  predicate IsScale(scale: real, quantity: int, typicalLiquidity: real) {
    if typicalLiquidity > 0.0 && quantity as real > typicalLiquidity then
      scale >= 0.0 && scale * scale * typicalLiquidity == quantity as real
    else scale == 1.0
  }

  // A sale at a positive reference is filled for nothing exactly when the scaled half-spread
  // of its symbol reaches the whole price.
  lemma FreeSaleIff(fills: FillConfig, symbol: Symbol, reference: real, scale: real)
    requires reference > 0.0
    ensures SimulatedFillPrice(fills, symbol, Sell, reference, scale) == 0.0 <==> HalfSpread(fills, symbol) / 100.0 * scale >= 1.0
  {
    var fraction := HalfSpread(fills, symbol) / 100.0;
    SlippageReachesIff(reference, fraction, scale);
    assert SimulatedFillPrice(fills, symbol, Sell, reference, scale)
        == var slippage := Slippage(reference, fraction, scale); if reference - slippage < 0.0 then 0.0 else reference - slippage;
  }

  lemma SlippageReachesIff(reference: real, fraction: real, scale: real)
    requires reference > 0.0
    ensures reference - Slippage(reference, fraction, scale) <= 0.0 <==> fraction * scale >= 1.0
  {
    var k := fraction * scale;
    assert Slippage(reference, fraction, scale) == reference * k;
    if k >= 1.0 {
      assert reference * (k - 1.0) >= 0.0;
    } else {
      assert reference * (1.0 - k) > 0.0;
    }
  }

  // A fill is never better than the reference: a purchase costs more by the scaled half-spread of
  // its symbol, a sale brings as much less, but not less than nothing.
  lemma FillsAgainstTheOrder(fills: FillConfig, symbol: Symbol, reference: real, scale: real)
    requires 0.0 <= reference && 0.0 <= scale && 0.0 <= fills.optionHalfSpread && 0.0 <= fills.equityHalfSpread
    ensures var bought, sold := SimulatedFillPrice(fills, symbol, Buy, reference, scale), SimulatedFillPrice(fills, symbol, Sell, reference, scale);
            var spread := if IsOption(symbol) then fills.optionHalfSpread else fills.equityHalfSpread;
            && 0.0 <= sold <= reference <= bought
            && bought - reference == reference * (spread / 100.0) * scale
            && (0.0 < sold ==> reference - sold == bought - reference)
  {
    var fraction := HalfSpread(fills, symbol) / 100.0;
    assert 0.0 <= reference * fraction;
    assert 0.0 <= Slippage(reference, fraction, scale);
  }

  // At the default spreads 111556 lots of 75 of an option sell for nothing; of an equity, for
  // 93.32 at a price of 100.
  lemma LargeSaleIsFree()
    ensures IsScale(334.0, 8366700, DEFAULT_FILLS.typicalLiquidity)
    ensures IsOption("X1CE") && SimulatedFillPrice(DEFAULT_FILLS, "X1CE", Sell, 100.0, 334.0) == 0.0
    ensures !IsOption("X") && SimulatedFillPrice(DEFAULT_FILLS, "X", Sell, 100.0, 334.0) == 93.32
  {
    assert "X1CE"[2..] == "CE";
    FreeSaleIff(DEFAULT_FILLS, "X1CE", 100.0, 334.0);
  }

  // How much of an order fills, given whether it is drawn to fill partially and the
  // uniform draw for the fraction.
  method SimulateFillQuantity(requested: int, rate: real, minFraction: real, roll: real, draw: real) returns (qty: int)
    requires 0.0 <= draw < 1.0
    ensures requested >= 1 ==> 1 <= qty <= requested
    ensures requested <= 1 || rate <= 0.0 || roll >= rate ==> qty == requested
    ensures requested > 1 && roll < rate && rate > 0.0 ==> qty < requested
  {
    if requested <= 1 || rate <= 0.0 {
      return requested;
    }
    if roll >= rate {
      return requested;
    }
    var least := minFraction;
    if least <= 0.0 {
      least := MIN_FILL_FRACTION;
    }
    if least > 1.0 {
      least := 1.0;
    }
    var fraction := least + draw * (1.0 - least);
    qty := (requested as real * fraction).Floor;
    if qty >= requested {
      qty := requested - 1;
    }
    if qty < 1 {
      qty := 1;
    }
  }

  // ---- What the books are worth ----

  // Cost of a long, owed proceeds of an unmargined short; a margined short's worth is
  // its reserve, counted apart.
  function Worth(cfg: Config, symbol: Symbol, pos: Position): real {
    if pos.side == Buy then pos.averagePrice * pos.quantity as real
    else if Margined(cfg, symbol) then 0.0
    else -(pos.averagePrice * pos.quantity as real)
  }

  function Worths(cfg: Config, c: Cash): map<Symbol, real> {
    map s | s in c.positions :: Worth(cfg, s, c.positions[s])
  }

  ghost function Value(cfg: Config, c: Cash): real {
    c.balance + MapSum(c.reserved) + MapSum(Worths(cfg, c))
  }

  predicate PositiveBook(c: Cash) {
    forall s :: s in c.positions ==> c.positions[s].quantity > 0
  }

  // Profit on the quantity a fill closes, against the average price.
  function Realizes(existing: Option<Position>, r: Request): real {
    if Opening(existing, r.side) then 0.0
    else
      var pos := existing.value;
      var closed := if r.fillQty > pos.quantity then pos.quantity else r.fillQty;
      if pos.side == Buy then (r.fillPrice - pos.averagePrice) * closed as real
      else (pos.averagePrice - r.fillPrice) * closed as real
  }

  // How much of a fill lies beyond zero.
  function Excess(existing: Option<Position>, r: Request): int {
    if Opening(existing, r.side) || r.fillQty <= existing.value.quantity then 0
    else r.fillQty - existing.value.quantity
  }

  // A fill past zero is paid for in full, and none of the excess is booked.
  function UnbookedCash(existing: Option<Position>, r: Request): real {
    if r.side == Buy then -(r.fillPrice * Excess(existing, r) as real)
    else r.fillPrice * Excess(existing, r) as real
  }

  // One symbol's accounts balance over a fill, whatever it does to the position.
  predicate Balances(cfg: Config, r: Request, existing: Option<Position>, reserved: real) {
    var s, after := Settle(cfg, r, existing, reserved), Book(existing, r);
    s.delta
    + (if s.reserve.Some? then s.reserve.value - reserved else 0.0)
    + (if after.Some? then Worth(cfg, r.symbol, after.value) else 0.0)
    - (if existing.Some? then Worth(cfg, r.symbol, existing.value) else 0.0)
    == Realizes(existing, r) - cfg.fee + UnbookedCash(existing, r)
  }

  lemma FillBalances(cfg: Config, r: Request, existing: Option<Position>, reserved: real)
    requires r.fillQty > 0 && (existing.Some? ==> existing.value.quantity > 0)
    ensures Balances(cfg, r, existing, reserved)
  {
    if existing.None? {
      FirstFillBalances(cfg, r, reserved);
    } else if existing.value.side == r.side {
      AddingFillBalances(cfg, r, existing.value, reserved);
    } else if r.fillQty < existing.value.quantity {
      ReducingFillBalances(cfg, r, existing.value, reserved);
    } else {
      ClosingFillBalances(cfg, r, existing.value, reserved);
    }
  }

  lemma FirstFillBalances(cfg: Config, r: Request, reserved: real)
    requires r.fillQty > 0
    ensures Balances(cfg, r, None, reserved)
  {
    assert UnbookedCash(None, r) == 0.0;
  }

  lemma AddingFillBalances(cfg: Config, r: Request, pos: Position, reserved: real)
    requires r.fillQty > 0 && pos.quantity > 0 && pos.side == r.side
    ensures Balances(cfg, r, Some(pos), reserved)
  {
    assert Book(Some(pos), r) == Some(Grown(pos, r));
    assert UnbookedCash(Some(pos), r) == 0.0;
    assert Realizes(Some(pos), r) == 0.0;
  }

  lemma ReducingFillBalances(cfg: Config, r: Request, pos: Position, reserved: real)
    requires 0 < r.fillQty < pos.quantity && pos.side != r.side
    ensures Balances(cfg, r, Some(pos), reserved)
  {
    var a, p, m, n := pos.averagePrice, r.fillPrice, pos.quantity as real, r.fillQty as real;
    assert Book(Some(pos), r) == Some(pos.(quantity := pos.quantity - r.fillQty));
    assert (pos.quantity - r.fillQty) as real == m - n;
    assert a * (m - n) == a * m - a * n;
    assert (p - a) * n == p * n - a * n;
    assert (a - p) * n == a * n - p * n;
    assert UnbookedCash(Some(pos), r) == 0.0;
  }

  lemma ClosingFillBalances(cfg: Config, r: Request, pos: Position, reserved: real)
    requires r.fillQty >= pos.quantity > 0 && pos.side != r.side
    ensures Balances(cfg, r, Some(pos), reserved)
  {
    if Margined(cfg, r.symbol) && r.side == Buy {
      CoveringFillBalances(cfg, r, pos, reserved);
    } else if r.side == Buy {
      BuyingBackBalances(cfg, r, pos, reserved);
    } else {
      SellingOutBalances(cfg, r, pos, reserved);
    }
  }

  lemma CoveringFillBalances(cfg: Config, r: Request, pos: Position, reserved: real)
    requires r.fillQty >= pos.quantity > 0 && pos.side == Sell && r.side == Buy && Margined(cfg, r.symbol)
    ensures Balances(cfg, r, Some(pos), reserved)
  {
    var released := Released(reserved, pos.quantity, pos.quantity);
    var profit := (pos.averagePrice - r.fillPrice) * pos.quantity as real;
    CoverIs(r, pos, released, cfg.fee, Excess(Some(pos), r));
    assert Settle(cfg, r, Some(pos), reserved)
        == Settlement(CoverCash(r, pos, pos.quantity, released, cfg.fee), Some(reserved - released));
    assert Realizes(Some(pos), r) == profit && Book(Some(pos), r) == None && Worth(cfg, r.symbol, pos) == 0.0;
  }

  lemma CoverIs(r: Request, pos: Position, released: real, fee: real, beyond: int)
    requires r.fillQty >= pos.quantity > 0 && pos.side == Sell && r.side == Buy && beyond == Excess(Some(pos), r)
    ensures CoverCash(r, pos, pos.quantity, released, fee)
         == released + (pos.averagePrice - r.fillPrice) * pos.quantity as real - fee + UnbookedCash(Some(pos), r)
  {
    if beyond > 0 {
      assert r.fillQty - pos.quantity == beyond;
    } else {
      assert r.fillQty == pos.quantity;
      assert UnbookedCash(Some(pos), r) == 0.0;
    }
  }

  // Bought back or sold out whole, with the rest at the same price.
  lemma WholeAndRest(a: real, p: real, m: real, n: real)
    ensures a * m - p * n == (a - p) * m - p * (n - m)
    ensures p * n - a * m == (p - a) * m + p * (n - m)
  {
  }

  lemma BuyingBackBalances(cfg: Config, r: Request, pos: Position, reserved: real)
    requires r.fillQty >= pos.quantity > 0 && pos.side == Sell && r.side == Buy && !Margined(cfg, r.symbol)
    ensures Balances(cfg, r, Some(pos), reserved)
  {
    var a, p, m, n := pos.averagePrice, r.fillPrice, pos.quantity as real, r.fillQty as real;
    WholeAndRest(a, p, m, n);
    assert Excess(Some(pos), r) as real == n - m;
    assert Settle(cfg, r, Some(pos), reserved) == Settlement(-(p * n + cfg.fee), None);
    assert Realizes(Some(pos), r) == (a - p) * m && UnbookedCash(Some(pos), r) == -(p * (n - m));
    assert Book(Some(pos), r) == None && Worth(cfg, r.symbol, pos) == -(a * m);
  }

  lemma SellingOutBalances(cfg: Config, r: Request, pos: Position, reserved: real)
    requires r.fillQty >= pos.quantity > 0 && pos.side == Buy && r.side == Sell
    ensures Balances(cfg, r, Some(pos), reserved)
  {
    var a, p, m, n := pos.averagePrice, r.fillPrice, pos.quantity as real, r.fillQty as real;
    WholeAndRest(a, p, m, n);
    assert Excess(Some(pos), r) as real == n - m;
    assert Settle(cfg, r, Some(pos), reserved) == Settlement(p * n - cfg.fee, None);
    assert Realizes(Some(pos), r) == (p - a) * m && UnbookedCash(Some(pos), r) == p * (n - m);
    assert Book(Some(pos), r) == None && Worth(cfg, r.symbol, pos) == a * m;
  }

  // ---- Value over one order ----

  // Margin put in reserve for an order that was then refused.
  function StrandedReserve(cfg: Config, c: Cash, r: Request): real {
    var s := SettleIn(cfg, c, r);
    if !r.rejected && Refused(cfg, c, r) && s.reserve.Some? then s.reserve.value - ReservedFor(c, r.symbol) else 0.0
  }

  // Reserve thrown away when a fill leaves no position.
  function DroppedReserve(cfg: Config, c: Cash, r: Request): real {
    if !Answer(cfg, c, r).Filled? || Book(Held(c, r.symbol), r).Some? then 0.0
    else
      var s := SettleIn(cfg, c, r);
      if s.reserve.Some? then s.reserve.value else ReservedFor(c, r.symbol)
  }

  function StepProfit(cfg: Config, c: Cash, r: Request): real {
    if Answer(cfg, c, r).Filled? then Realizes(Held(c, r.symbol), r) - cfg.fee else 0.0
  }

  function StepDrift(cfg: Config, c: Cash, r: Request): real {
    StrandedReserve(cfg, c, r) - DroppedReserve(cfg, c, r)
    + if Answer(cfg, c, r).Filled? then UnbookedCash(Held(c, r.symbol), r) else 0.0
  }

  lemma ReserveSum(reserved: map<Symbol, real>, symbol: Symbol, reserve: Option<real>)
    ensures MapSum(WithReserve(reserved, symbol, reserve))
         == MapSum(reserved) + (if reserve.Some? then reserve.value - (if symbol in reserved then reserved[symbol] else 0.0) else 0.0)
  {
    if reserve.Some? {
      MapSumUpdate(reserved, symbol, reserve.value);
    }
  }

  lemma SumWithout(m: map<Symbol, real>, symbol: Symbol)
    ensures MapSum(m - {symbol}) == MapSum(m) - (if symbol in m then m[symbol] else 0.0)
  {
    if symbol in m {
      MapSumRemove(m, symbol);
    } else {
      assert m - {symbol} == m;
    }
  }

  lemma WorthSum(cfg: Config, c: Cash, r: Request)
    requires Answer(cfg, c, r).Filled?
    ensures MapSum(Worths(cfg, Place(cfg, c, r))) == MapSum(Worths(cfg, c)) + WorthChange(cfg, c, r)
  {
    var c' := Place(cfg, c, r);
    var before := Worths(cfg, c);
    match Book(Held(c, r.symbol), r)
    case None =>
      assert Worths(cfg, c') == before - {r.symbol};
      SumWithout(before, r.symbol);
    case Some(pos) =>
      assert Worths(cfg, c') == before[r.symbol := Worth(cfg, r.symbol, pos)];
      MapSumUpdate(before, r.symbol, Worth(cfg, r.symbol, pos));
  }

  function WorthChange(cfg: Config, c: Cash, r: Request): real {
    var existing := Held(c, r.symbol);
    var after := Book(existing, r);
    (if after.Some? then Worth(cfg, r.symbol, after.value) else 0.0)
    - (if existing.Some? then Worth(cfg, r.symbol, existing.value) else 0.0)
  }

  // Whatever an order does, the books' value moves by exactly its profit and its drift.
  lemma StepAccounts(cfg: Config, c: Cash, r: Request)
    requires PositiveBook(c) && r.fillQty > 0
    ensures PositiveBook(Place(cfg, c, r))
    ensures Value(cfg, Place(cfg, c, r)) == Value(cfg, c) + StepProfit(cfg, c, r) + StepDrift(cfg, c, r)
  {
    if !r.rejected {
      var s := SettleIn(cfg, c, r);
      ReserveSum(c.reserved, r.symbol, s.reserve);
      if !Refused(cfg, c, r) {
        WorthSum(cfg, c, r);
        FillBalances(cfg, r, Held(c, r.symbol), ReservedFor(c, r.symbol));
        SumWithout(WithReserve(c.reserved, r.symbol, s.reserve), r.symbol);
      }
    }
  }

  // ---- Runs ----

  function After(cfg: Config, c: Cash, rs: seq<Request>): Cash
    decreases |rs|
  {
    if rs == [] then c else Place(cfg, After(cfg, c, rs[..|rs| - 1]), rs[|rs| - 1])
  }

  function Profit(cfg: Config, c: Cash, rs: seq<Request>): real
    decreases |rs|
  {
    if rs == [] then 0.0
    else
      var earlier := rs[..|rs| - 1];
      Profit(cfg, c, earlier) + StepProfit(cfg, After(cfg, c, earlier), rs[|rs| - 1])
  }

  function Drift(cfg: Config, c: Cash, rs: seq<Request>): real
    decreases |rs|
  {
    if rs == [] then 0.0
    else
      var earlier := rs[..|rs| - 1];
      Drift(cfg, c, earlier) + StepDrift(cfg, After(cfg, c, earlier), rs[|rs| - 1])
  }

  // Over any run at all, value is where it started, plus profit less fees, plus drift.
  lemma {:induction false} RunAccounts(cfg: Config, c: Cash, rs: seq<Request>)
    requires PositiveBook(c) && forall i :: 0 <= i < |rs| ==> rs[i].fillQty > 0
    ensures PositiveBook(After(cfg, c, rs))
    ensures Value(cfg, After(cfg, c, rs)) == Value(cfg, c) + Profit(cfg, c, rs) + Drift(cfg, c, rs)
    decreases |rs|
  {
    if rs != [] {
      var earlier := rs[..|rs| - 1];
      RunAccounts(cfg, c, earlier);
      StepAccounts(cfg, After(cfg, c, earlier), rs[|rs| - 1]);
    }
  }

  // ---- Reserves ----

  predicate MarginedShort(cfg: Config, c: Cash, symbol: Symbol) {
    symbol in c.positions && c.positions[symbol].side == Sell && Margined(cfg, symbol)
  }

  function ExactReserve(cfg: Config, pos: Position): real {
    Margin(cfg, pos.averagePrice, pos.quantity)
  }

  // Reserves stand against open margined shorts only, each at cost plus its percentage.
  ghost predicate ReservesExact(cfg: Config, c: Cash) {
    && (forall s :: s in c.reserved ==> MarginedShort(cfg, c, s))
    && (forall s :: MarginedShort(cfg, c, s) ==> s in c.reserved && c.reserved[s] == ExactReserve(cfg, c.positions[s]))
  }

  // The balance gate turned a margined short away after its reserve was raised.
  predicate StrandsReserve(cfg: Config, c: Cash, r: Request) {
    !r.rejected && Refused(cfg, c, r) && r.side == Sell && Margined(cfg, r.symbol)
  }

  predicate Crosses(c: Cash, r: Request) {
    Excess(Held(c, r.symbol), r) > 0
  }

  lemma ShortGrows(cfg: Config, pos: Position, r: Request)
    requires pos.quantity > 0 && r.fillQty > 0
    ensures ExactReserve(cfg, Grown(pos, r))
         == ExactReserve(cfg, pos) + Margin(cfg, r.fillPrice, r.fillQty)
  {
    var k := 1.0 + cfg.shortMarginPct;
    var cost, turnover := pos.averagePrice * pos.quantity as real, r.fillPrice * r.fillQty as real;
    var grown := Grown(pos, r);
    assert grown.averagePrice * grown.quantity as real == cost + turnover;
    assert (cost + turnover) * k == cost * k + turnover * k;
  }

  lemma ShortShrinks(cfg: Config, pos: Position, covered: int)
    requires 0 < covered <= pos.quantity
    ensures ExactReserve(cfg, pos) - Released(ExactReserve(cfg, pos), covered, pos.quantity)
         == ExactReserve(cfg, pos.(quantity := pos.quantity - covered))
  {
    var a, k, m, n := pos.averagePrice, 1.0 + cfg.shortMarginPct, pos.quantity as real, covered as real;
    var released := Released(ExactReserve(cfg, pos), covered, pos.quantity);
    assert a * m * k * n == (a * n * k) * m;
    assert released * m == (a * n * k) * m;
    Cancel(released, a * n * k, m);
    assert (pos.quantity - covered) as real == m - n;
    assert a * (m - n) * k == a * m * k - a * n * k;
  }

  lemma Cancel(x: real, y: real, m: real)
    requires m != 0.0 && x * m == y * m
    ensures x == y
  {
    assert (x - y) * m == 0.0;
  }

  // What a fill leaves in reserve is exact for the position it leaves, and nothing when it
  // leaves none. Before it, the reserve stands as `was`, or not at all.
  predicate ReserveFits(cfg: Config, r: Request, existing: Option<Position>, was: Option<real>) {
    var reserve, after := Settle(cfg, r, existing, if was.Some? then was.value else 0.0).reserve, Book(existing, r);
    && (after.None? && reserve.Some? ==> reserve.value == 0.0)
    && (after.None? && reserve.None? ==> was.None?)
    && (after.Some? && after.value.side == Sell && Margined(cfg, r.symbol) ==> reserve == Some(ExactReserve(cfg, after.value)))
    && (after.Some? && !(after.value.side == Sell && Margined(cfg, r.symbol)) ==> reserve.None? && was.None?)
  }

  lemma FirstReserveFits(cfg: Config, r: Request)
    ensures ReserveFits(cfg, r, None, None)
  {
    if Margined(cfg, r.symbol) && r.side == Sell {
      var needed := Margin(cfg, r.fillPrice, r.fillQty);
      assert ExactReserve(cfg, Position(r.fillQty, r.fillPrice, Sell)) == needed;
      assert Settle(cfg, r, None, 0.0).reserve == Some(0.0 + needed);
    }
  }

  lemma UnreservedFits(cfg: Config, r: Request, pos: Position)
    requires pos.quantity > 0 && r.fillQty > 0 && !(pos.side == Sell && Margined(cfg, r.symbol))
    ensures ReserveFits(cfg, r, Some(pos), None)
  {
  }

  lemma ShortReserveFits(cfg: Config, r: Request, pos: Position)
    requires pos.quantity > 0 && r.fillQty > 0 && pos.side == Sell && Margined(cfg, r.symbol)
    ensures ReserveFits(cfg, r, Some(pos), Some(ExactReserve(cfg, pos)))
  {
    if r.side == Sell {
      ShortGrows(cfg, pos, r);
    } else {
      ShortShrinks(cfg, pos, if r.fillQty > pos.quantity then pos.quantity else r.fillQty);
    }
  }

  lemma ReserveFollowsPosition(cfg: Config, c: Cash, r: Request)
    requires ReservesExact(cfg, c) && PositiveBook(c) && r.fillQty > 0
    ensures ReserveFits(cfg, r, Held(c, r.symbol), if r.symbol in c.reserved then Some(c.reserved[r.symbol]) else None)
  {
    if r.symbol !in c.positions {
      FirstReserveFits(cfg, r);
    } else if MarginedShort(cfg, c, r.symbol) {
      ShortReserveFits(cfg, r, c.positions[r.symbol]);
    } else {
      UnreservedFits(cfg, r, c.positions[r.symbol]);
    }
  }

  // Unless it strands a reserve, an order keeps every reserve exact; then the reserve left
  // when a position closes is zero, so clearing it drops nothing.
  lemma ReservesStayExact(cfg: Config, c: Cash, r: Request)
    requires ReservesExact(cfg, c) && PositiveBook(c) && r.fillQty > 0
    ensures DroppedReserve(cfg, c, r) == 0.0
    ensures !StrandsReserve(cfg, c, r) ==> ReservesExact(cfg, Place(cfg, c, r))
  {
    ReserveFollowsPosition(cfg, c, r);
    if Answer(cfg, c, r).Filled? {
      var c' := Place(cfg, c, r);
      assert forall s :: s != r.symbol ==> (s in c'.reserved <==> s in c.reserved) && (s in c'.positions <==> s in c.positions);
    }
  }

  // Exactly which orders break conservation: a fill at a real price that goes past zero, and
  // a margined short the balance gate refuses.
  lemma StepConservesIff(cfg: Config, c: Cash, r: Request)
    requires ReservesExact(cfg, c) && PositiveBook(c) && r.fillQty > 0
    requires 0.0 <= r.fillPrice && 0.0 <= cfg.shortMarginPct
    ensures Value(cfg, Place(cfg, c, r)) == Value(cfg, c) + StepProfit(cfg, c, r)
            <==> r.rejected || r.fillPrice == 0.0 || (!Crosses(c, r) && !StrandsReserve(cfg, c, r))
  {
    StepAccounts(cfg, c, r);
    ReservesStayExact(cfg, c, r);
    if !r.rejected && Refused(cfg, c, r) {
      assert Excess(Held(c, r.symbol), r) == 0;
      if r.side == Sell && Margined(cfg, r.symbol) {
        assert StrandedReserve(cfg, c, r) == Margin(cfg, r.fillPrice, r.fillQty);
        PositiveProduct(r.fillPrice, r.fillQty as real, 1.0 + cfg.shortMarginPct);
      }
    } else if !r.rejected {
      var excess := Excess(Held(c, r.symbol), r);
      PositiveProduct(r.fillPrice, excess as real, 1.0);
    }
  }

  lemma PositiveProduct(x: real, y: real, z: real)
    requires 0.0 <= x && 0.0 <= y && 0.0 < z
    ensures x * y * z == 0.0 <==> x == 0.0 || y == 0.0
  {
    if x > 0.0 && y > 0.0 {
      assert x * y > 0.0;
      assert x * y * z > 0.0;
    }
  }

  // Every order of the run filled within its position, or was turned away without a trace.
  predicate Clean(cfg: Config, c: Cash, rs: seq<Request>) {
    forall i :: 0 <= i < |rs| ==>
      && rs[i].fillQty > 0
      && (rs[i].rejected || !Crosses(After(cfg, c, rs[..i]), rs[i]))
      && !StrandsReserve(cfg, After(cfg, c, rs[..i]), rs[i])
  }

  lemma CleanPrefix(cfg: Config, c: Cash, rs: seq<Request>, n: nat)
    requires Clean(cfg, c, rs) && n <= |rs|
    ensures Clean(cfg, c, rs[..n])
  {
    forall i | 0 <= i < n
      ensures rs[..n][..i] == rs[..i]
    {
    }
  }

  // Paper cash is conserved: over every clean run from an empty account, balance plus
  // reserves plus the worth of the positions is the initial balance plus profit net of fees,
  // and the reserves are exact throughout.
  lemma {:induction false} CashIsConserved(cfg: Config, initial: real, rs: seq<Request>)
    requires Clean(cfg, Cash(initial, map[], map[]), rs)
    ensures var c := Cash(initial, map[], map[]);
            && PositiveBook(After(cfg, c, rs)) && ReservesExact(cfg, After(cfg, c, rs))
            && Value(cfg, After(cfg, c, rs)) == initial + Profit(cfg, c, rs)
    decreases |rs|
  {
    var c := Cash(initial, map[], map[]);
    if rs == [] {
      assert Worths(cfg, c) == map[];
    } else {
      var earlier, r := rs[..|rs| - 1], rs[|rs| - 1];
      CleanPrefix(cfg, c, rs, |rs| - 1);
      CashIsConserved(cfg, initial, earlier);
      var d := After(cfg, c, earlier);
      CleanLast(cfg, c, rs);
      CleanStep(cfg, d, r);
      OneMoreRequest(cfg, c, rs);
    }
  }

  lemma CleanLast(cfg: Config, c: Cash, rs: seq<Request>)
    requires Clean(cfg, c, rs) && rs != []
    ensures var d, r := After(cfg, c, rs[..|rs| - 1]), rs[|rs| - 1];
            r.fillQty > 0 && (r.rejected || !Crosses(d, r)) && !StrandsReserve(cfg, d, r)
  {
  }

  lemma OneMoreRequest(cfg: Config, c: Cash, rs: seq<Request>)
    requires rs != []
    ensures var d, r := After(cfg, c, rs[..|rs| - 1]), rs[|rs| - 1];
            After(cfg, c, rs) == Place(cfg, d, r) && Profit(cfg, c, rs) == Profit(cfg, c, rs[..|rs| - 1]) + StepProfit(cfg, d, r)
  {
  }

  lemma CleanStep(cfg: Config, c: Cash, r: Request)
    requires PositiveBook(c) && ReservesExact(cfg, c) && r.fillQty > 0
    requires (r.rejected || !Crosses(c, r)) && !StrandsReserve(cfg, c, r)
    ensures PositiveBook(Place(cfg, c, r)) && ReservesExact(cfg, Place(cfg, c, r))
    ensures Value(cfg, Place(cfg, c, r)) == Value(cfg, c) + StepProfit(cfg, c, r)
  {
    ReservesStayExact(cfg, c, r);
    StepAccounts(cfg, c, r);
    assert StepDrift(cfg, c, r) == 0.0;
  }

  // Once flat, a clean account's cash is what it started with plus its profit: no margin is
  // left behind.
  lemma FlatAccountIsAllCash(cfg: Config, initial: real, rs: seq<Request>)
    requires Clean(cfg, Cash(initial, map[], map[]), rs)
    requires After(cfg, Cash(initial, map[], map[]), rs).positions == map[]
    ensures var c := After(cfg, Cash(initial, map[], map[]), rs);
            c.reserved == map[] && c.balance == initial + Profit(cfg, Cash(initial, map[], map[]), rs)
  {
    CashIsConserved(cfg, initial, rs);
    var c := After(cfg, Cash(initial, map[], map[]), rs);
    assert c.reserved.Keys == {};
    assert Worths(cfg, c) == map[];
  }

  // Selling two of one held credits both and books neither beyond zero: money from nowhere.
  lemma CrossingCreatesCash()
    ensures var cfg := Config(true, 0.13, 20.0);
            var c := Cash(1000.0, map["INFY" := Position(1, 100.0, Buy)], map[]);
            var r := Request("INFY", Sell, false, 2, 100.0);
            Place(cfg, c, r) == Cash(1180.0, map[], map[]) && StepDrift(cfg, c, r) == 100.0
  {
    var c := Cash(1000.0, map["INFY" := Position(1, 100.0, Buy)], map[]);
    assert !IsDerivative("INFY");
    assert c.positions - {"INFY"} == map[];
  }

  // A short refused for lack of cash still leaves its margin in reserve.
  lemma RefusedShortStrandsReserve()
    ensures var cfg := Config(true, 0.13, 20.0);
            var c := Cash(50.0, map[], map[]);
            var r := Request("X1CE", Sell, false, 1, 100.0);
            Answer(cfg, c, r).InsufficientBalance? && Place(cfg, c, r) == c.(reserved := map["X1CE" := 113.0])
  {
    assert HasSuffix("X1CE", "CE");
  }

  // ---- One order, seen from outside ----

  // What an order that opens or adds takes of the cash: a buy its price, a margined short its
  // price and the margin on it, both with the fee; an unmargined short brings its price in.
  function CostOfOpening(cfg: Config, r: Request): real {
    var turnover := r.fillPrice * r.fillQty as real;
    if r.side == Buy then turnover + cfg.fee
    else if cfg.marginOnShorts && IsDerivative(r.symbol) then turnover + turnover * cfg.shortMarginPct + cfg.fee
    else cfg.fee - turnover
  }

  // An order that opens or adds is filled and paid for, unless it costs more than there is: then
  // it is refused, and neither cash nor positions change. So it never overdraws the account.
  lemma OpeningIsPaidFor(cfg: Config, c: Cash, r: Request)
    requires !r.rejected && (r.symbol in c.positions ==> c.positions[r.symbol].side == r.side)
    ensures var cost, after := CostOfOpening(cfg, r), Place(cfg, c, r);
            if 0.0 < cost && c.balance < cost then
              Answer(cfg, c, r) == InsufficientBalance && after.balance == c.balance && after.positions == c.positions
            else
              Answer(cfg, c, r) == Filled(r.fillQty, r.fillPrice) && after.balance == c.balance - cost
    ensures 0.0 <= c.balance ==> 0.0 <= Place(cfg, c, r).balance
  {
    DeltaIsCost(cfg, r, Held(c, r.symbol), ReservedFor(c, r.symbol));
  }

  lemma DeltaIsCost(cfg: Config, r: Request, existing: Option<Position>, reserved: real)
    requires existing.Some? ==> existing.value.side == r.side
    ensures Settle(cfg, r, existing, reserved).delta == -CostOfOpening(cfg, r)
  {
    MarginIs(cfg, r);
  }

  lemma MarginIs(cfg: Config, r: Request)
    ensures var turnover := r.fillPrice * r.fillQty as real;
            Margin(cfg, r.fillPrice, r.fillQty) == turnover + turnover * cfg.shortMarginPct
  {
    Grows(r.fillPrice * r.fillQty as real, cfg.shortMarginPct);
  }

  lemma Grows(x: real, pct: real)
    ensures x * (1.0 + pct) == x + x * pct
  {
  }

  // An order the exchange rejects changes nothing, and one that reduces is never refused.
  lemma RejectionsAndReductions(cfg: Config, c: Cash, r: Request)
    ensures r.rejected ==> Answer(cfg, c, r) == RejectedByExchange && Place(cfg, c, r) == c
    ensures !r.rejected && r.symbol in c.positions && c.positions[r.symbol].side != r.side ==>
              Answer(cfg, c, r) == Filled(r.fillQty, r.fillPrice)
  {
  }

  // Held long counts up, held short counts down.
  function SignedHolding(c: Cash, symbol: Symbol): int {
    if symbol !in c.positions then 0
    else if c.positions[symbol].side == Buy then c.positions[symbol].quantity
    else -c.positions[symbol].quantity
  }

  // What a filled order leaves of the positions: the signed quantity moves by the fill, but not
  // past zero; adding averages what was paid, reducing keeps the average; no other symbol moves.
  lemma HoldingAfterFill(cfg: Config, c: Cash, r: Request)
    requires Answer(cfg, c, r).Filled? && 0 < r.fillQty && (r.symbol in c.positions ==> 0 < c.positions[r.symbol].quantity)
    ensures var after, was := Place(cfg, c, r), SignedHolding(c, r.symbol);
            var moved := was + r.side.Sign() * r.fillQty;
            && (SignedHolding(after, r.symbol) == if was != 0 && (was < 0) != (moved < 0) then 0 else moved)
            && (r.symbol in after.positions <==> SignedHolding(after, r.symbol) != 0)
            && (r.symbol in after.positions ==> 0 < after.positions[r.symbol].quantity && AverageIs(c, r, after.positions[r.symbol]))
            && (forall s :: s != r.symbol ==> (s in after.positions <==> s in c.positions)
                                              && (s in c.positions ==> after.positions[s] == c.positions[s]))
  {
    if r.symbol in c.positions && c.positions[r.symbol].side == r.side {
      AveragePaid(c.positions[r.symbol], r);
    }
  }

  predicate AverageIs(c: Cash, r: Request, pos: Position) {
    if r.symbol !in c.positions then pos.averagePrice == r.fillPrice
    else
      var was := c.positions[r.symbol];
      if was.side == r.side then
        pos.averagePrice * pos.quantity as real == was.averagePrice * was.quantity as real + r.fillPrice * r.fillQty as real
      else pos.averagePrice == was.averagePrice
  }

  lemma AveragePaid(pos: Position, r: Request)
    requires 0 < pos.quantity && 0 < r.fillQty
    ensures var grown := Grown(pos, r);
            grown.averagePrice * grown.quantity as real == pos.averagePrice * pos.quantity as real + r.fillPrice * r.fillQty as real
  {
    var total, q := pos.averagePrice * pos.quantity as real + r.fillPrice * r.fillQty as real, (pos.quantity + r.fillQty) as real;
    assert total / q * q == total;
  }
}
