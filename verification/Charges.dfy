/** The fee schedule: charges for one executed order. */
module Charges {
  import opened Common

  datatype TradeType =
    | EquityDelivery | EquityIntraday
    | FutIntraday | FutCarry
    | OptIntraday | OptCarry
    | Fno // deprecated alias, treated as OptCarry

  function Normalize(t: TradeType): TradeType {
    if t.Fno? then OptCarry else t
  }

  predicate IsOption(t: TradeType) {
    Normalize(t).OptIntraday? || Normalize(t).OptCarry?
  }

  predicate IsFuture(t: TradeType) {
    Normalize(t).FutIntraday? || Normalize(t).FutCarry?
  }

  predicate IsDerivative(t: TradeType) {
    IsOption(t) || IsFuture(t)
  }

  // Every *Pct field is a percentage.
  datatype Rates = Rates(
    brokerageFlat: real, brokerageEquityPct: real,
    sttOptionSellPct: real, sttFutureSellPct: real, sttIntradaySellPct: real, sttDeliveryPct: real,
    txnOptionPct: real, txnFuturePct: real, txnEquityPct: real,
    stampOptionPct: real, stampFuturePct: real, stampDeliveryPct: real, stampIntradayPct: real,
    sebiPct: real, gstPct: real)

  const DEFAULT_RATES := Rates(
    20.0, 0.03,
    0.1, 0.02, 0.025, 0.1,
    0.03503, 0.00173, 0.00297,
    0.003, 0.002, 0.015, 0.003,
    0.0001, 18.0)

  datatype Breakdown = Breakdown(
    turnover: real, brokerage: real, stt: real, exchangeTxn: real,
    sebiFee: real, gst: real, stampDuty: real, total: real)

  function Percent(amount: real, pct: real): real {
    amount * pct / 100.0
  }

  function Min(a: real, b: real): real {
    if a <= b then a else b
  }

  function SttPct(r: Rates, tradeType: TradeType, side: Side): real {
    var t := Normalize(tradeType);
    if IsOption(t) then (if side.Sell? then r.sttOptionSellPct else 0.0)
    else if IsFuture(t) then (if side.Sell? then r.sttFutureSellPct else 0.0)
    else if t.EquityIntraday? then (if side.Sell? then r.sttIntradaySellPct else 0.0)
    else r.sttDeliveryPct
  }

  function TxnPct(r: Rates, tradeType: TradeType): real {
    var t := Normalize(tradeType);
    if IsOption(t) then r.txnOptionPct
    else if IsFuture(t) then r.txnFuturePct
    else r.txnEquityPct
  }

  function StampPct(r: Rates, tradeType: TradeType, side: Side): real {
    var t := Normalize(tradeType);
    if side.Sell? then 0.0
    else if IsOption(t) then r.stampOptionPct
    else if IsFuture(t) then r.stampFuturePct
    else if t.EquityDelivery? then r.stampDeliveryPct
    else r.stampIntradayPct
  }

  function EstimateWithRates(r: Rates, price: real, quantity: int, tradeType: TradeType, side: Side): Breakdown {
    var turnover := price * quantity as real;
    var brokerage := if IsDerivative(tradeType) then r.brokerageFlat
                     else Min(r.brokerageFlat, Percent(turnover, r.brokerageEquityPct));
    var stt := Percent(turnover, SttPct(r, tradeType, side));
    var txn := Percent(turnover, TxnPct(r, tradeType));
    var sebi := Percent(turnover, r.sebiPct);
    var gst := Percent(brokerage + txn + sebi, r.gstPct);
    var stamp := Percent(turnover, StampPct(r, tradeType, side));
    Breakdown(turnover, brokerage, stt, txn, sebi, gst, stamp,
              brokerage + stt + txn + sebi + gst + stamp)
  }

  function EstimateTotal(price: real, quantity: int, tradeType: TradeType, side: Side): real {
    EstimateWithRates(DEFAULT_RATES, price, quantity, tradeType, side).total
  }

  ghost predicate NonNegativeRates(r: Rates) {
    && 0.0 <= r.brokerageFlat && 0.0 <= r.brokerageEquityPct
    && 0.0 <= r.sttOptionSellPct && 0.0 <= r.sttFutureSellPct
    && 0.0 <= r.sttIntradaySellPct && 0.0 <= r.sttDeliveryPct
    && 0.0 <= r.txnOptionPct && 0.0 <= r.txnFuturePct && 0.0 <= r.txnEquityPct
    && 0.0 <= r.stampOptionPct && 0.0 <= r.stampFuturePct
    && 0.0 <= r.stampDeliveryPct && 0.0 <= r.stampIntradayPct
    && 0.0 <= r.sebiPct && 0.0 <= r.gstPct
  }

  lemma PercentBounds(a: real, b: real, pct: real)
    requires 0.0 <= a <= b && 0.0 <= pct
    ensures 0.0 <= Percent(a, pct) <= Percent(b, pct)
  {
    assert 0.0 <= a * pct;
    assert b * pct - a * pct == (b - a) * pct >= 0.0;
  }

  // Charges are never negative, and trading more is never cheaper: on any
  // non-negative rate card the total grows with turnover. A flat fee per order
  // for derivatives and a capped percentage for equity both respect this.
  lemma ChargesMonotone(r: Rates, p: real, q: int, p': real, q': int, t: TradeType, side: Side)
    requires NonNegativeRates(r)
    requires 0.0 <= p * q as real <= p' * q' as real
    ensures 0.0 <= EstimateWithRates(r, p, q, t, side).total <= EstimateWithRates(r, p', q', t, side).total
  {
    var a, b := p * q as real, p' * q' as real;
    PercentBounds(a, b, r.brokerageEquityPct);
    PercentBounds(a, b, SttPct(r, t, side));
    PercentBounds(a, b, TxnPct(r, t));
    PercentBounds(a, b, r.sebiPct);
    PercentBounds(a, b, StampPct(r, t, side));
    var ea, eb := EstimateWithRates(r, p, q, t, side), EstimateWithRates(r, p', q', t, side);
    PercentBounds(ea.brokerage + ea.exchangeTxn + ea.sebiFee, eb.brokerage + eb.exchangeTxn + eb.sebiFee, r.gstPct);
  }

  // What each unit of turnover costs at the default rates, tax on it included: the exchange's
  // share, transaction tax and stamp duty.
  function DefaultRate(t: TradeType, side: Side): real {
    match (t, side)
    case (EquityDelivery, Buy) => 0.001186226
    case (EquityDelivery, Sell) => 0.001036226
    case (EquityIntraday, Buy) => 0.000066226
    case (EquityIntraday, Sell) => 0.000286226
    case (FutIntraday, Buy) => 0.000041594
    case (FutIntraday, Sell) => 0.000221594
    case (FutCarry, Buy) => 0.000041594
    case (FutCarry, Sell) => 0.000221594
    case (_, Buy) => 0.000444534
    case (_, Sell) => 0.001414534
  }

  // The engine's charges for every order: 23.60 for a derivative, 3.54 in ten thousand and at most
  // 23.60 for equity, and a rate on the turnover; the deprecated product is charged as an option.
  lemma DefaultCharges(price: real, quantity: int, t: TradeType, side: Side)
    ensures var turnover := price * quantity as real;
            EstimateTotal(price, quantity, t, side)
            == turnover * DefaultRate(t, side)
               + if t.EquityDelivery? || t.EquityIntraday? then (if turnover * 0.000354 <= 23.6 then turnover * 0.000354 else 23.6) else 23.6
  {
    DefaultChargesOf(price * quantity as real, t, side, price, quantity);
  }

  lemma DefaultChargesOf(turnover: real, t: TradeType, side: Side, price: real, quantity: int)
    requires turnover == price * quantity as real
    ensures EstimateTotal(price, quantity, t, side)
         == turnover * DefaultRate(t, side)
            + if t.EquityDelivery? || t.EquityIntraday? then (if turnover * 0.000354 <= 23.6 then turnover * 0.000354 else 23.6) else 23.6
  {
  }
}
