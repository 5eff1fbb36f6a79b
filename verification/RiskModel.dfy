/** The risk manager's state as a value, and every operation on it as a function. */
module RiskModel {
  import opened Common
  import opened Charges

  // Times are integer nanoseconds.
  const MINUTE: int := 60_000_000_000
  const SECOND: int := 1_000_000_000

  datatype StopKind = Percentage | Points | OtherKind

  datatype StopLossConfig = StopLossConfig(
    enabled: bool, kind: StopKind, value: real, trailing: bool, trailingDistance: real)

  // fees is the charge for one executed order (price, quantity, product, side).
  datatype RiskConfig = RiskConfig(
    fees: (real, int, TradeType, Side) -> real,
    stop: StopLossConfig, maxDrawdownPercent: real, maxOrdersPerMin: int)

  datatype Position = Position(
    entryPrice: real, quantity: int, side: Side, tradeType: TradeType,
    entryCharges: real, entryTime: int, stopLossPrice: real, peakPrice: real,
    margin: real, lockedCapital: real)

  datatype RiskState = RiskState(
    initialBalance: real, currentBalance: real, sessionBalanceUsed: real, realizedPnL: real,
    killed: bool, orderTimes: seq<int>, open: map<Symbol, Position>)

  datatype Refusal = KillSwitch | RateLimit | InvalidOrder | Insufficient | MarginUnknown

  // ---- Stop-loss level and locked capital ----

  function StopPrice(stop: StopLossConfig, price: real, side: Side): real {
    match stop.kind
    case Percentage =>
      if side.Buy? then price * (1.0 - stop.value / 100.0) else price * (1.0 + stop.value / 100.0)
    case Points =>
      if side.Buy? then price - stop.value else price + stop.value
    case OtherKind =>
      if side.Buy? then price * 0.95 else price * 1.05
  }

  function InitialStop(stop: StopLossConfig, price: real, side: Side): real {
    if stop.enabled then StopPrice(stop, price, side) else 0.0
  }

  function Locked(price: real, quantity: int, margin: real, charges: real): real {
    if margin > 0.0 then margin + charges else price * quantity as real + charges
  }

  // ---- Throttle window ----

  // Drops the leading entries that are a minute old or older.
  function Prune(times: seq<int>, now: int): seq<int> {
    if |times| > 0 && times[0] <= now - MINUTE then Prune(times[1..], now) else times
  }

  // How many entries are younger than a minute.
  function InWindow(times: seq<int>, now: int): nat {
    if times == [] then 0
    else InWindow(times[..|times| - 1], now) + (if times[|times| - 1] > now - MINUTE then 1 else 0)
  }

  // ---- Validation ----

  // requiredMargin >= 0 asks for margin plus charges; a negative one for turnover plus charges.
  function Validate(cfg: RiskConfig, s: RiskState, now: int, price: real, quantity: int,
                    t: TradeType, side: Side, requiredMargin: real): Option<Refusal> {
    if s.killed then Some(KillSwitch)
    else if InWindow(s.orderTimes, now) >= cfg.maxOrdersPerMin then Some(RateLimit)
    else if price <= 0.0 || quantity <= 0 then Some(InvalidOrder)
    else
      var charges := cfg.fees(price, quantity, t, side);
      var need := if requiredMargin >= 0.0 then requiredMargin + charges
                  else price * quantity as real + charges;
      if need > s.currentBalance - s.sessionBalanceUsed then Some(Insufficient) else None
  }

  function ValidateWithMargin(cfg: RiskConfig, s: RiskState, now: int, price: real, quantity: int,
                              t: TradeType, side: Side, requiredMargin: real): Option<Refusal> {
    if side.Sell? && IsDerivative(t) then
      if requiredMargin <= 0.0 then Some(MarginUnknown)
      else Validate(cfg, s, now, price, quantity, t, side, requiredMargin)
    else Validate(cfg, s, now, price, quantity, t, side, -1.0)
  }

  // ---- Position lifecycle ----

  function NewPosition(cfg: RiskConfig, now: int, price: real, quantity: int, t: TradeType,
                       side: Side, margin: real): Position {
    var charges := cfg.fees(price, quantity, t, side);
    Position(price, quantity, side, t, charges, now / SECOND, InitialStop(cfg.stop, price, side),
             price, margin, Locked(price, quantity, margin, charges))
  }

  function OpenPosition(cfg: RiskConfig, s: RiskState, now: int, symbol: Symbol, price: real, quantity: int,
                        t: TradeType, side: Side, margin: real): RiskState {
    var p := NewPosition(cfg, now, price, quantity, t, side, margin);
    s.(sessionBalanceUsed := s.sessionBalanceUsed + p.lockedCapital,
       orderTimes := Prune(s.orderTimes, now) + [now],
       open := s.open[symbol := p])
  }

  // None: refused, nothing recorded.
  function OpenWithMargin(cfg: RiskConfig, s: RiskState, now: int, symbol: Symbol, price: real, quantity: int,
                          t: TradeType, side: Side, requiredMargin: real): Option<RiskState> {
    if side.Sell? && IsDerivative(t) then
      if requiredMargin <= 0.0 then None
      else Some(OpenPosition(cfg, s, now, symbol, price, quantity, t, side, requiredMargin))
    else Some(OpenPosition(cfg, s, now, symbol, price, quantity, t, side, 0.0))
  }

  // Without a position for the symbol this is an error that changes nothing.
  function Rollback(s: RiskState, symbol: Symbol): RiskState {
    if symbol !in s.open then s
    else
      s.(sessionBalanceUsed := s.sessionBalanceUsed - s.open[symbol].lockedCapital,
         orderTimes := if |s.orderTimes| > 0 then s.orderTimes[..|s.orderTimes| - 1] else s.orderTimes,
         open := s.open - {symbol})
  }

  // The position after the broker confirmed a fill at price for quantity units.
  function Corrected(cfg: RiskConfig, p: Position, price: real, quantity: int): Position {
    var q := if quantity > 0 then quantity else p.quantity;
    var charges := cfg.fees(price, q, p.tradeType, p.side);
    p.(entryPrice := price, peakPrice := price, quantity := q,
       stopLossPrice := if cfg.stop.enabled then StopPrice(cfg.stop, price, p.side) else p.stopLossPrice,
       entryCharges := charges,
       lockedCapital := Locked(price, q, p.margin, charges))
  }

  function UpdatePrice(cfg: RiskConfig, s: RiskState, symbol: Symbol, price: real, quantity: int): RiskState {
    if symbol !in s.open || price <= 0.0 then s
    else
      var p := s.open[symbol];
      var p' := Corrected(cfg, p, price, quantity);
      s.(sessionBalanceUsed := s.sessionBalanceUsed + (p'.lockedCapital - p.lockedCapital),
         open := s.open[symbol := p'])
  }

  function NetPnL(cfg: RiskConfig, p: Position, exitPrice: real): real {
    (exitPrice - p.entryPrice) * (p.side.Sign() * p.quantity) as real
      - (p.entryCharges + cfg.fees(exitPrice, p.quantity, p.tradeType, p.side.Opposite()))
  }

  function ClosePosition(cfg: RiskConfig, s: RiskState, symbol: Symbol, exitPrice: real): RiskState {
    if symbol !in s.open then s
    else
      var p := s.open[symbol];
      var net := NetPnL(cfg, p, exitPrice);
      s.(sessionBalanceUsed := s.sessionBalanceUsed - p.lockedCapital,
         currentBalance := s.currentBalance + net,
         realizedPnL := s.realizedPnL + net,
         open := s.open - {symbol})
  }

  // ---- Stop-loss checks ----

  function Trail(stop: StopLossConfig, p: Position, price: real): Position {
    var d := stop.trailingDistance / 100.0;
    if p.side.Buy? then
      if price > p.peakPrice then
        var newStop := price * (1.0 - d);
        p.(peakPrice := price, stopLossPrice := if newStop > p.stopLossPrice then newStop else p.stopLossPrice)
      else p
    else
      if price < p.peakPrice then
        var newStop := price * (1.0 + d);
        p.(peakPrice := price, stopLossPrice := if newStop < p.stopLossPrice then newStop else p.stopLossPrice)
      else p
  }

  function AfterTick(stop: StopLossConfig, p: Position, price: real): Position {
    if stop.trailing then Trail(stop, p, price) else p
  }

  predicate StopHit(p: Position, price: real) {
    if p.side.Buy? then price <= p.stopLossPrice else price >= p.stopLossPrice
  }

  function CheckStop(cfg: RiskConfig, s: RiskState, symbol: Symbol, price: real): (RiskState, bool) {
    if !cfg.stop.enabled || symbol !in s.open then (s, false)
    else
      var p := AfterTick(cfg.stop, s.open[symbol], price);
      (s.(open := s.open[symbol := p]), StopHit(p, price))
  }

  // Kill switch, a depleted balance, or a drawdown from the session's initial balance.
  predicate Breached(cfg: RiskConfig, s: RiskState) {
    || s.killed
    || s.currentBalance <= 0.0
    || (s.initialBalance > 0.0
        && (s.initialBalance - s.currentBalance) / s.initialBalance * 100.0 >= cfg.maxDrawdownPercent)
  }

  // For a session that began with something: halted by the kill switch, by having nothing left,
  // or by having lost so many percent of what it began with.
  lemma BreachedIff(cfg: RiskConfig, s: RiskState)
    requires 0.0 < s.initialBalance
    ensures Breached(cfg, s)
            <==> s.killed || s.currentBalance <= 0.0
                 || cfg.maxDrawdownPercent * s.initialBalance <= (s.initialBalance - s.currentBalance) * 100.0
  {
    var lost, all := s.initialBalance - s.currentBalance, s.initialBalance;
    assert lost / all * all == lost;
    if cfg.maxDrawdownPercent <= lost / all * 100.0 {
      assert cfg.maxDrawdownPercent * all <= lost / all * 100.0 * all;
    } else {
      assert cfg.maxDrawdownPercent * all > lost / all * 100.0 * all;
    }
  }
}
