/** Implied volatility by bisection, over any pricing function of the volatility. */
module ImpliedVol {

  datatype Kind = Call | Put

  datatype Solution = Solved(vol: real) | NonPositivePrice | BelowIntrinsic | AboveUpperBound

  const LO_VOL: real := 0.000001
  const HI_VOL: real := 5.0
  const MAX_ITER: nat := 200
  const PRICE_TOL: real := 0.000001
  const VOL_TOL: real := 0.00000001
  const MIN_TIME_TO_EXPIRY: real := 1.0 / 525600.0

  function Max(x: real, y: real): real {
    if x > y then x else y
  }

  function Abs(x: real): real {
    if x < 0.0 then -x else x
  }

  function Intrinsic(spot: real, strike: real, kind: Kind): real {
    if kind == Put then Max(strike - spot, 0.0) else Max(spot - strike, 0.0)
  }

  // Black-Scholes before expiry: the price rises with the volatility.
  ghost predicate StrictlyIncreasing(price: real -> real) {
    forall v, w :: 0.0 < v < w ==> price(v) < price(w)
  }

  // The bracket's width after n halvings.
  function Width(n: nat): real {
    if n == 0 then HI_VOL - LO_VOL else Width(n - 1) / 2.0
  }

  lemma {:induction false} WidthFalls(m: nat, n: nat)
    requires m <= n
    ensures 0.0 < Width(n) <= Width(m)
    decreases n
  {
    if m < n {
      WidthFalls(m, n - 1);
    } else if n > 0 {
      WidthFalls(n - 1, n - 1);
    }
  }

  lemma WidthAt29()
    ensures Width(29) == (HI_VOL - LO_VOL) / 536870912.0
    ensures Width(29) < VOL_TOL <= Width(28)
  {
    assert Width(10) == (HI_VOL - LO_VOL) / 1024.0;
    assert Width(20) == (HI_VOL - LO_VOL) / 1048576.0;
    assert Width(28) == (HI_VOL - LO_VOL) / 268435456.0;
  }

  // The bracket is below the volatility tolerance only from 29 halvings on.
  lemma StillWide(n: nat)
    requires VOL_TOL <= Width(n)
    ensures n < 29
  {
    WidthAt29();
    WidthFalls(29, if n < 29 then 29 else n);
  }

  // The result prices the market to within the price tolerance, or lies in a sliver that the
  // market price falls across.
  ghost predicate Accurate(price: real -> real, market: real, vol: real) {
    Abs(price(vol) - market) < PRICE_TOL || exists lo, hi :: Sliver(price, market, vol, lo, hi)
  }

  // A bracket of the market price, narrower than the volatility tolerance, centred on vol.
  predicate Sliver(price: real -> real, market: real, vol: real, lo: real, hi: real) {
    && LO_VOL <= lo <= hi <= HI_VOL && hi - lo < VOL_TOL && vol == (lo + hi) / 2.0
    && price(lo) <= market <= price(hi)
  }

  // The lowest volatility the loop can try: the middle of the bracket halved 29 times.
  const LAST_VOL: real := LO_VOL + (HI_VOL - LO_VOL) / 1073741824.0

  // With its lower end never moved, the bracket's middle is above that, and is that when the
  // bracket has become narrower than the volatility tolerance.
  lemma MiddleOfLowBracket(n: nat)
    requires n < 30
    ensures LAST_VOL <= LO_VOL + Width(n) / 2.0
    ensures Width(n) < VOL_TOL ==> LO_VOL + Width(n) / 2.0 == LAST_VOL
  {
    WidthAt29();
    WidthFalls(n, 29);
    if n < 29 {
      WidthFalls(n, 28);
    }
  }

  // Below the lowest volatility's price, the last volatility tried is the best there is.
  lemma JudgedByLast(price: real -> real, market: real, vol: real)
    requires StrictlyIncreasing(price) && market < price(LO_VOL) && LAST_VOL <= vol
    requires Abs(price(vol) - market) < PRICE_TOL || vol == LAST_VOL
    ensures Accurate(price, market, vol) <==> price(LAST_VOL) - market < PRICE_TOL
  {
    assert price(LO_VOL) < price(LAST_VOL) && (vol == LAST_VOL || price(LAST_VOL) < price(vol));
    assert forall lo, hi :: LO_VOL <= lo ==> price(LO_VOL) <= price(lo) && !Sliver(price, market, vol, lo, hi);
  }

  // A deep in-the-money call: worth 20 at any small volatility and 10 at once. A market price
  // of 15 is accepted, and no volatility in range comes within 5 of it.
  lemma GuessBelowLowestPrice()
    ensures var price, market := (v: real) => 20.0 + v, 15.0;
            && StrictlyIncreasing(price)
            && Intrinsic(110.0, 100.0, Call) - PRICE_TOL <= market <= price(HI_VOL)
            && !(price(LO_VOL) <= market || price(LAST_VOL) - market < PRICE_TOL)
            && forall v :: LO_VOL <= v <= HI_VOL ==> Abs(price(v) - market) > 5.0
  {
  }

  // The loop: halve the bracket until the price or the width is within its tolerance.
  method Bisect(price: real -> real, market: real) returns (vol: real, passes: nat)
    requires market <= price(HI_VOL)
    ensures passes <= 30
    ensures LO_VOL <= vol <= HI_VOL
    ensures price(LO_VOL) <= market ==> Accurate(price, market, vol)
    ensures StrictlyIncreasing(price) ==>
              (Accurate(price, market, vol) <==> price(LO_VOL) <= market || price(LAST_VOL) - market < PRICE_TOL)
    ensures StrictlyIncreasing(price) && market <= price(LO_VOL) - PRICE_TOL ==>
              vol < LO_VOL + VOL_TOL && price(vol) - market > PRICE_TOL
  {
    passes := 0;
    var lo, hi := LO_VOL, HI_VOL;
    while passes < MAX_ITER
      invariant passes < 30
      invariant LO_VOL <= lo < hi <= HI_VOL
      invariant hi - lo == Width(passes)
      invariant market <= price(hi)
      invariant lo == LO_VOL || price(lo) <= market
    {
      var mid := (lo + hi) / 2.0;
      var diff := price(mid) - market;
      ghost var n := passes;
      passes := passes + 1;
      if Abs(diff) < PRICE_TOL || hi - lo < VOL_TOL {
        if price(LO_VOL) <= market && !(Abs(diff) < PRICE_TOL) {
          assert Sliver(price, market, mid, lo, hi);
        }
        if StrictlyIncreasing(price) && market < price(LO_VOL) {
          MiddleOfLowBracket(n);
          JudgedByLast(price, market, mid);
        }
        return mid, passes;
      }
      StillWide(n);
      if diff > 0.0 {
        hi := mid;
      } else {
        lo := mid;
      }
    }
    assert false;
  }

  // An accurate answer to the price of a volatility in range: the price is within its
  // tolerance or the volatility within half of its own.
  lemma AccurateRecoversVol(price: real -> real, v: real, vol: real)
    requires StrictlyIncreasing(price) && LO_VOL <= v <= HI_VOL
    requires Accurate(price, price(v), vol)
    ensures Abs(price(vol) - price(v)) < PRICE_TOL || Abs(vol - v) < VOL_TOL / 2.0
  {
    if Abs(price(vol) - price(v)) >= PRICE_TOL {
      var lo, hi :| Sliver(price, price(v), vol, lo, hi);
      assert lo <= v <= hi;
    }
  }

  method ImpliedVol(price: real -> real, market: real, spot: real, strike: real, timeToExpiry: real, kind: Kind)
    returns (s: Solution, passes: nat)
    // errors: exactly the three kinds of price no volatility can explain
    ensures s.NonPositivePrice? <==> market <= 0.0
    ensures s.BelowIntrinsic? <==> market > 0.0 && market < Intrinsic(spot, strike, kind) - PRICE_TOL
    ensures s.AboveUpperBound? <==>
              market > 0.0 && market >= Intrinsic(spot, strike, kind) - PRICE_TOL
              && timeToExpiry > MIN_TIME_TO_EXPIRY && price(HI_VOL) < market
    ensures s.Solved? && timeToExpiry <= MIN_TIME_TO_EXPIRY ==> s.vol == 0.0
    // it always stops on a tolerance, far short of its iteration limit
    ensures passes <= 30
    // a price some volatility in range reaches is met in price or in volatility
    ensures s.Solved? && timeToExpiry > MIN_TIME_TO_EXPIRY ==>
              LO_VOL <= s.vol <= HI_VOL && (price(LO_VOL) <= market ==> Accurate(price, market, s.vol))
    // so the price of a volatility in range gives that volatility back, up to a tolerance
    ensures s.Solved? && timeToExpiry > MIN_TIME_TO_EXPIRY && StrictlyIncreasing(price) ==>
              forall v :: LO_VOL <= v <= HI_VOL && price(v) == market ==>
                Abs(price(s.vol) - market) < PRICE_TOL || Abs(s.vol - v) < VOL_TOL / 2.0
    // the answer is accurate exactly when the market price is not below the lowest volatility's,
    // or by less than the tolerance below the last one tried
    ensures s.Solved? && timeToExpiry > MIN_TIME_TO_EXPIRY && StrictlyIncreasing(price) ==>
              (Accurate(price, market, s.vol) <==> price(LO_VOL) <= market || price(LAST_VOL) - market < PRICE_TOL)
    // a price under the lowest volatility's is answered with about that volatility
    ensures s.Solved? && timeToExpiry > MIN_TIME_TO_EXPIRY && StrictlyIncreasing(price) && market <= price(LO_VOL) - PRICE_TOL ==>
              s.vol < LO_VOL + VOL_TOL && price(s.vol) - market > PRICE_TOL
  {
    passes := 0;
    if market <= 0.0 {
      return NonPositivePrice, passes;
    }
    var intrinsic := Intrinsic(spot, strike, kind);
    if market < intrinsic - PRICE_TOL {
      return BelowIntrinsic, passes;
    }
    if timeToExpiry <= MIN_TIME_TO_EXPIRY {
      return Solved(0.0), passes;
    }
    if price(HI_VOL) < market {
      return AboveUpperBound, passes;
    }
    var vol;
    vol, passes := Bisect(price, market);
    s := Solved(vol);
    if StrictlyIncreasing(price) {
      forall v | LO_VOL <= v <= HI_VOL && price(v) == market
        ensures Abs(price(vol) - market) < PRICE_TOL || Abs(vol - v) < VOL_TOL / 2.0
      {
        assert v == LO_VOL || price(LO_VOL) < price(v);
        AccurateRecoversVol(price, v, vol);
      }
    }
  }
}
