/** The risk manager as the stateful object the engine shares. */
module RiskManager {
  import opened Common
  import opened Charges
  import opened RiskModel

  datatype StopTest = StopTest(symbol: Symbol, price: real, hit: bool)

  class Manager {
    const cfg: RiskConfig
    var initialBalance: real
    var currentBalance: real
    var sessionBalanceUsed: real
    var realizedPnL: real
    var killed: bool
    var orderTimes: seq<int>
    var open: map<Symbol, Position>
    // Every stop test made so far: the symbol, the price it was made at, whether it hit.
    ghost var stopTests: seq<StopTest>

    function View(): RiskState
      reads this
    {
      RiskState(initialBalance, currentBalance, sessionBalanceUsed, realizedPnL, killed, orderTimes, open)
    }

    constructor (cfg: RiskConfig, sessionLimit: real)
      ensures this.cfg == cfg.(maxOrdersPerMin := if cfg.maxOrdersPerMin <= 0 then 20 else cfg.maxOrdersPerMin)
      ensures View() == RiskState(sessionLimit, sessionLimit, 0.0, 0.0, false, [], map[])
      ensures stopTests == []
    {
      this.cfg := if cfg.maxOrdersPerMin <= 0 then cfg.(maxOrdersPerMin := 20) else cfg;
      initialBalance, currentBalance := sessionLimit, sessionLimit;
      sessionBalanceUsed, realizedPnL := 0.0, 0.0;
      killed := false;
      orderTimes, open, stopTests := [], map[], [];
    }

    method TriggerKillSwitch()
      modifies this`killed
      ensures View() == old(View()).(killed := true)
    {
      killed := true;
    }

    method PruneOrderTimes(now: int)
      modifies this`orderTimes
      ensures orderTimes == Prune(old(orderTimes), now)
    {
      var cutoff := now - MINUTE;
      var i := 0;
      while i < |orderTimes| && orderTimes[i] <= cutoff
        invariant 0 <= i <= |orderTimes|
        invariant orderTimes == old(orderTimes)
        invariant Prune(orderTimes, now) == Prune(orderTimes[i..], now)
      {
        assert orderTimes[i..][1..] == orderTimes[i + 1..];
        i := i + 1;
      }
      if i > 0 {
        orderTimes := orderTimes[i..];
      }
    }

    method OrdersInWindow(now: int) returns (n: nat)
      ensures n == InWindow(orderTimes, now)
    {
      var cutoff := now - MINUTE;
      n := 0;
      var i := 0;
      while i < |orderTimes|
        invariant 0 <= i <= |orderTimes|
        invariant n == InWindow(orderTimes[..i], now)
      {
        assert orderTimes[..i + 1][..i] == orderTimes[..i];
        if orderTimes[i] > cutoff {
          n := n + 1;
        }
        i := i + 1;
      }
      assert orderTimes[..i] == orderTimes;
    }

    method ValidateCore(now: int, price: real, quantity: int, t: TradeType, side: Side, requiredMargin: real)
      returns (refusal: Option<Refusal>)
      ensures refusal == Validate(cfg, View(), now, price, quantity, t, side, requiredMargin)
    {
      if killed {
        return Some(KillSwitch);
      }
      var n := OrdersInWindow(now);
      if n >= cfg.maxOrdersPerMin {
        return Some(RateLimit);
      }
      if price <= 0.0 || quantity <= 0 {
        return Some(InvalidOrder);
      }
      var totalCost := cfg.fees(price, quantity, t, side);
      if requiredMargin >= 0.0 {
        totalCost := requiredMargin + totalCost;
      } else {
        totalCost := price * quantity as real + totalCost;
      }
      if totalCost > currentBalance - sessionBalanceUsed {
        return Some(Insufficient);
      }
      return None;
    }

    method ValidateOrder(now: int, price: real, quantity: int, t: TradeType, side: Side)
      returns (refusal: Option<Refusal>)
      ensures refusal == Validate(cfg, View(), now, price, quantity, t, side, -1.0)
    {
      refusal := ValidateCore(now, price, quantity, t, side, -1.0);
    }

    method ValidateOrderWithMargin(now: int, price: real, quantity: int, t: TradeType, side: Side, requiredMargin: real)
      returns (refusal: Option<Refusal>)
      ensures refusal == ValidateWithMargin(cfg, View(), now, price, quantity, t, side, requiredMargin)
    {
      if side == Sell && IsDerivative(t) {
        if requiredMargin <= 0.0 {
          return Some(MarginUnknown);
        }
        refusal := ValidateCore(now, price, quantity, t, side, requiredMargin);
      } else {
        refusal := ValidateCore(now, price, quantity, t, side, -1.0);
      }
    }

    // margin > 0 locks margin plus charges, otherwise turnover plus charges.
    method Open(now: int, symbol: Symbol, price: real, quantity: int, t: TradeType, side: Side, margin: real)
      modifies this
      ensures View() == OpenPosition(cfg, old(View()), now, symbol, price, quantity, t, side, margin)
      ensures stopTests == old(stopTests)
    {
      var charges := cfg.fees(price, quantity, t, side);
      var locked;
      if margin > 0.0 {
        locked := margin + charges;
      } else {
        locked := price * quantity as real + charges;
      }
      sessionBalanceUsed := sessionBalanceUsed + locked;
      PruneOrderTimes(now);
      orderTimes := orderTimes + [now];
      var stopLossPrice := 0.0;
      if cfg.stop.enabled {
        stopLossPrice := StopPrice(cfg.stop, price, side);
      }
      open := open[symbol := Position(price, quantity, side, t, charges, now / SECOND,
                                      stopLossPrice, price, margin, locked)];
    }

    method OpenMargined(now: int, symbol: Symbol, price: real, quantity: int, t: TradeType, side: Side,
                        requiredMargin: real)
      returns (ok: bool)
      modifies this
      ensures var r := OpenWithMargin(cfg, old(View()), now, symbol, price, quantity, t, side, requiredMargin);
              ok == r.Some? && View() == if ok then r.value else old(View())
      ensures stopTests == old(stopTests)
    {
      if side == Sell && IsDerivative(t) {
        if requiredMargin <= 0.0 {
          return false;
        }
        Open(now, symbol, price, quantity, t, side, requiredMargin);
        return true;
      }
      Open(now, symbol, price, quantity, t, side, 0.0);
      return true;
    }

    method RollbackPosition(symbol: Symbol) returns (ok: bool)
      modifies this
      ensures ok == (symbol in old(open))
      ensures View() == Rollback(old(View()), symbol)
      ensures stopTests == old(stopTests)
    {
      if symbol !in open {
        return false;
      }
      sessionBalanceUsed := sessionBalanceUsed - open[symbol].lockedCapital;
      if |orderTimes| > 0 {
        orderTimes := orderTimes[..|orderTimes| - 1];
      }
      open := open - {symbol};
      return true;
    }

    method UpdatePositionPrice(symbol: Symbol, fillPrice: real, fillQuantity: int)
      modifies this
      ensures View() == UpdatePrice(cfg, old(View()), symbol, fillPrice, fillQuantity)
      ensures stopTests == old(stopTests)
    {
      if symbol !in open || fillPrice <= 0.0 {
        return;
      }
      var position := open[symbol];
      var previous := position.lockedCapital;
      position := position.(entryPrice := fillPrice, peakPrice := fillPrice);
      if fillQuantity > 0 && fillQuantity != position.quantity {
        position := position.(quantity := fillQuantity);
      }
      if cfg.stop.enabled {
        position := position.(stopLossPrice := StopPrice(cfg.stop, fillPrice, position.side));
      }
      var newCharges := cfg.fees(fillPrice, position.quantity, position.tradeType, position.side);
      var newLocked;
      if position.margin > 0.0 {
        newLocked := position.margin + newCharges;
      } else {
        newLocked := fillPrice * position.quantity as real + newCharges;
      }
      sessionBalanceUsed := sessionBalanceUsed + (newLocked - previous);
      open := open[symbol := position.(entryCharges := newCharges, lockedCapital := newLocked)];
    }

    method Close(symbol: Symbol, exitPrice: real) returns (ok: bool, netPnL: real)
      modifies this
      ensures ok == (symbol in old(open))
      ensures netPnL == if ok then NetPnL(cfg, old(open)[symbol], exitPrice) else 0.0
      ensures View() == ClosePosition(cfg, old(View()), symbol, exitPrice)
      ensures stopTests == old(stopTests)
    {
      if symbol !in open {
        return false, 0.0;
      }
      var position := open[symbol];
      var exitCharges := cfg.fees(exitPrice, position.quantity, position.tradeType, position.side.Opposite());
      var pnl;
      if position.side == Buy {
        pnl := (exitPrice - position.entryPrice) * position.quantity as real;
      } else {
        pnl := (position.entryPrice - exitPrice) * position.quantity as real;
        SignFlip(exitPrice - position.entryPrice, position.quantity);
      }
      netPnL := pnl - (position.entryCharges + exitCharges);
      sessionBalanceUsed := sessionBalanceUsed - position.lockedCapital;
      currentBalance := currentBalance + netPnL;
      realizedPnL := realizedPnL + netPnL;
      open := open - {symbol};
      ok := true;
    }

    lemma SignFlip(d: real, q: int)
      ensures (-d) * q as real == d * (-1 * q) as real
    {
      assert (-1 * q) as real == -(q as real);
    }

    method ShouldTriggerStopLoss(symbol: Symbol, price: real) returns (hit: bool)
      modifies this`open, this`stopTests
      ensures var (s, b) := CheckStop(cfg, old(View()), symbol, price); View() == s && hit == b
      ensures hit <==> cfg.stop.enabled && symbol in open
                       && if open[symbol].side == Buy then price <= open[symbol].stopLossPrice else open[symbol].stopLossPrice <= price
      ensures stopTests == old(stopTests) + [StopTest(symbol, price, hit)]
    {
      stopTests := stopTests + [StopTest(symbol, price, CheckStop(cfg, View(), symbol, price).1)];
      if !cfg.stop.enabled || symbol !in open {
        return false;
      }
      var position := open[symbol];
      if cfg.stop.trailing {
        position := UpdateTrailingStop(position, price);
      }
      open := open[symbol := position];
      if position.side == Buy {
        return price <= position.stopLossPrice;
      }
      return price >= position.stopLossPrice;
    }

    method UpdateTrailingStop(position: Position, price: real) returns (p: Position)
      ensures p == Trail(cfg.stop, position, price)
    {
      var trailPercent := cfg.stop.trailingDistance / 100.0;
      p := position;
      if p.side == Buy {
        if price > p.peakPrice {
          p := p.(peakPrice := price);
          var newStop := price * (1.0 - trailPercent);
          if newStop > p.stopLossPrice {
            p := p.(stopLossPrice := newStop);
          }
        }
      } else {
        if price < p.peakPrice {
          p := p.(peakPrice := price);
          var newStop := price * (1.0 + trailPercent);
          if newStop < p.stopLossPrice {
            p := p.(stopLossPrice := newStop);
          }
        }
      }
    }

    method CheckRisk() returns (breached: bool)
      ensures breached == Breached(cfg, View())
    {
      if killed {
        return true;
      }
      if currentBalance <= 0.0 {
        return true;
      }
      if initialBalance > 0.0 {
        var drawdownPercent := (initialBalance - currentBalance) / initialBalance * 100.0;
        if drawdownPercent >= cfg.maxDrawdownPercent {
          return true;
        }
      }
      return false;
    }
  }
}
