/** The runner: open structures, their exits, flattening and the software stop pass. */
module Runner {
  import opened Common
  import opened RiskModel
  import opened OrderProtocol
  import opened TradingEngine
  import opened MultiLeg
  import opened ExitTrail

  datatype Structure = Structure(legs: seq<LegRecord>, entryPremium: real, multiLeg: bool)

  // A price and how old it is (nanoseconds), or none.
  datatype Quote = NoQuote | Quoted(price: real, age: int)

  // Fresh enough to decide a stop on.
  predicate Usable(q: Quote, staleAge: int) {
    q.Quoted? && q.price > 0.0 && q.age <= staleAge
  }

  function SymbolsOfLegs(legs: seq<LegRecord>): set<Symbol> {
    set i | 0 <= i < |legs| :: legs[i].symbol
  }

  lemma CheckStopKeepsBook(cfg: RiskConfig, s: RiskState, symbol: Symbol, price: real)
    ensures CheckStop(cfg, s, symbol, price).0.open.Keys == s.open.Keys
  {
    if cfg.stop.enabled && symbol in s.open {
      assert CheckStop(cfg, s, symbol, price).0.open.Keys == s.open.Keys;
    }
  }

  // The exits from leg i on, after those before it went well or not.
  function ExitRest(cfg: RiskConfig, s: Shared, legs: seq<LegRecord>, i: nat, feed: Feed, k: nat, allOk: bool): (Shared, bool)
    requires i <= |legs|
  {
    var (s', ok) := ExitLegs(cfg, s, legs[i..], feed, k);
    (s', allOk && ok)
  }

  lemma ExitRestStep(cfg: RiskConfig, s: Shared, legs: seq<LegRecord>, i: nat, feed: Feed, k: nat, allOk: bool)
    requires i < |legs|
    ensures ExitRest(cfg, s, legs, i, feed, k, allOk)
         == ExitRest(cfg, Alone(cfg, s, NewExit(legs[i].symbol, legs[i].record), feed(k)).0, legs, i + 1, feed, k + 1,
                     allOk && ExitResultOf(s, legs[i].symbol, feed(k).answer).ExitFilled?)
  {
    assert legs[i..][1..] == legs[i + 1..];
  }

  predicate Fills(feed: Feed, k: nat) {
    feed(k).answer.Fill?
  }

  // The broker fills whatever it is sent.
  ghost predicate AlwaysFills(feed: Feed) {
    forall k: nat :: Fills(feed, k)
  }

  // Every leg of every tracked structure is held, and is a leg of that structure only.
  ghost predicate LegsHeldOnce(tracked: map<Symbol, Structure>, held: set<Symbol>) {
    && (forall u :: u in tracked ==> DistinctLegs(tracked[u].legs) && SymbolsOfLegs(tracked[u].legs) <= held)
    && (forall u, v :: u in tracked && v in tracked && u != v ==>
          SymbolsOfLegs(tracked[u].legs) !! SymbolsOfLegs(tracked[v].legs))
  }

  // When every exit fills, such a structure is closed whole and the others stay as they were.
  lemma StructureGone(cfg: RiskConfig, s: Shared, tracked: map<Symbol, Structure>, u: Symbol, feed: Feed, k: nat)
    requires s.inFlight == {} && AlwaysFills(feed) && LegsHeldOnce(tracked, s.risk.open.Keys) && u in tracked
    ensures var (s', ok) := ExitLegs(cfg, s, tracked[u].legs, feed, k);
            ok && s'.inFlight == {} && LegsHeldOnce(tracked - {u}, s'.risk.open.Keys)
  {
    var legs := tracked[u].legs;
    var s' := ExitLegs(cfg, s, legs, feed, k).0;
    forall i | 0 <= i < |legs|
      ensures legs[i].symbol in s.risk.open && FillsExit(s.inFlight, legs[i], feed(k + i))
    {
      assert legs[i].symbol in SymbolsOfLegs(legs);
      assert Fills(feed, k + i);
    }
    ExitLegsCompleteIff(cfg, s, legs, feed, k);
    ExitLegsHeld(cfg, s, legs, feed, k);
    ClosedAreLegs(s.inFlight, legs, feed, k);
    assert ClosedBy(s.inFlight, legs, feed, k) <= SymbolsOfLegs(legs);
  }

  // The stop test of a symbol at a price would hit.
  predicate WouldHit(cfg: RiskConfig, s: RiskState, symbol: Symbol, price: real) {
    CheckStop(cfg, s, symbol, price).1
  }

  // A second test at the same price changes nothing and says the same.
  lemma TestedTwice(stop: StopLossConfig, p: Position, price: real)
    ensures AfterTick(stop, AfterTick(stop, p, price), price) == AfterTick(stop, p, price)
  {
  }

  // What is held was held when the pass began, untouched but for tests at the quoted price; and
  // the tests of what is held said what a test at the beginning would have said.
  ghost predicate AsAtStart(cfg: RiskConfig, tests: seq<RiskManager.StopTest>, held: map<Symbol, Position>, n: nat, start: RiskState,
                            quote: Symbol -> Quote) {
    && (forall s :: s in held ==>
          s in start.open
          && (held[s] == start.open[s]
              || (quote(s).Quoted? && held[s] == AfterTick(cfg.stop, start.open[s], quote(s).price))))
    && forall i :: n <= i < |tests| && tests[i].symbol in held ==>
         tests[i].hit == WouldHit(cfg, start, tests[i].symbol, tests[i].price)
  }

  lemma ExitsKeepTests(cfg: RiskConfig, tests: seq<RiskManager.StopTest>, a: Shared, b: Shared, n: nat, start: RiskState, quote: Symbol -> Quote)
    requires AsAtStart(cfg, tests, a.risk.open, n, start, quote) && PositionsKept(a, b)
    ensures AsAtStart(cfg, tests, b.risk.open, n, start, quote)
  {
  }

  class TickRunner {
    const te: Engine
    const staleAge: int
    // What each engine call of the session meets, and how many there have been.
    const feed: Feed
    var cursor: nat
    var open: map<Symbol, Structure>

    constructor (te: Engine, staleAge: int, feed: Feed)
      ensures this.te == te && this.staleAge == staleAge && this.feed == feed
      ensures cursor == 0 && open == map[]
    {
      this.te, this.staleAge, this.feed := te, staleAge, feed;
      cursor, open := 0, map[];
    }

    // Exits every leg in order, whatever happens to the others.
    method CloseLegs(legs: seq<LegRecord>) returns (allOk: bool)
      modifies this`cursor, te, te.risk, te.store
      ensures (te.View(), allOk) == ExitLegs(te.risk.cfg, old(te.View()), legs, feed, old(cursor))
      ensures cursor == old(cursor) + |legs|
      ensures te.risk.stopTests == old(te.risk.stopTests)
    {
      ghost var cfg, start := te.risk.cfg, te.View();
      allOk := true;
      var i := 0;
      assert legs[i..] == legs;
      while i < |legs|
        invariant 0 <= i <= |legs|
        invariant cursor == old(cursor) + i
        invariant ExitLegs(cfg, start, legs, feed, old(cursor)) == ExitRest(cfg, te.View(), legs, i, feed, cursor, allOk)
        invariant te.risk.stopTests == old(te.risk.stopTests)
      {
        ExitRestStep(cfg, te.View(), legs, i, feed, cursor, allOk);
        var result := te.PlaceExitOrder(legs[i].symbol, legs[i].record, feed(cursor));
        if !result.ExitFilled? {
          allOk := false;
        }
        cursor := cursor + 1;
        i := i + 1;
      }
    }

    // One leg of an entry.
    method PlaceLeg(leg: PlannedLeg, perSell: real, ghost plan: seq<PlannedLeg>, filled: seq<LegRecord>, premium: real)
      returns (filled': seq<LegRecord>, premium': real, stopped: Option<EntryResult>)
      requires |filled| < |plan| && leg == plan[|filled|]
      modifies this`cursor, te, te.risk, te.store
      ensures Progress(te.View(), filled', premium', stopped)
           == EnterOne(te.risk.cfg, Progress(old(te.View()), filled, premium, None), plan, perSell, feed(old(cursor)))
      ensures cursor == old(cursor) + 1
      ensures stopped.None? ==> |filled'| == |filled| + 1
    {
      var result := te.PlaceEntryOrder(LegRequest(leg, perSell), feed(cursor));
      cursor := cursor + 1;
      if result.EntryFilled? {
        return filled + [LegRecord(leg.symbol, leg.side, Some(result.positionId))], premium + result.price, None;
      }
      return filled, premium, Some(result);
    }

    // Places the legs in the order given, each after the one before has filled.
    method PlaceLegs(plan: seq<PlannedLeg>, perSell: real)
      returns (filled: seq<LegRecord>, premium: real, stopped: Option<EntryResult>)
      modifies this`cursor, te, te.risk, te.store
      ensures Progress(te.View(), filled, premium, stopped)
           == Enter(te.risk.cfg, Progress(old(te.View()), [], 0.0, None), plan, perSell, feed, old(cursor))
      ensures cursor == old(cursor) + |filled| + (if stopped.Some? then 1 else 0)
    {
      ghost var cfg, k, start := te.risk.cfg, cursor, Progress(te.View(), [], 0.0, None);
      filled, premium, stopped := [], 0.0, None;
      while |filled| < |plan| && stopped.None?
        invariant cursor == k + |filled| + (if stopped.Some? then 1 else 0)
        invariant Enter(cfg, start, plan, perSell, feed, k)
               == Enter(cfg, Progress(te.View(), filled, premium, stopped), plan, perSell, feed, cursor)
        decreases |plan| - |filled|, stopped.None?
      {
        EnterUnrolls(cfg, Progress(te.View(), filled, premium, stopped), plan, perSell, feed, cursor);
        filled, premium, stopped := PlaceLeg(plan[|filled|], perSell, plan, filled, premium);
      }
      EnterUnrolls(cfg, Progress(te.View(), filled, premium, stopped), plan, perSell, feed, cursor);
    }

    method PlaceOrUnwind(plan: seq<PlannedLeg>, perSell: real)
      returns (filled: seq<LegRecord>, premium: real, stopped: Option<EntryResult>)
      modifies this`cursor, te, te.risk, te.store
      ensures Progress(te.View(), filled, premium, stopped)
           == EnterOrUnwind(te.risk.cfg, old(te.View()), plan, perSell, feed, old(cursor))
    {
      filled, premium, stopped := PlaceLegs(plan, perSell);
      if stopped.Some? {
        var _ := CloseLegs(filled);
      }
    }

    // Enters a structure: nothing without a margin quote for its short legs; the legs in
    // order; and if one of them does not fill, the filled ones closed again and nothing tracked.
    method EnterMultiLeg(underlying: Symbol, legs: seq<OrderLeg>, lotSize: int,
                         target: (int, OptionType) -> Symbol, basketMargin: Option<real>)
      returns (entered: bool)
      modifies this, te, te.risk, te.store
      ensures var plan := Plan(legs, lotSize, target);
              if SellCount(plan) > 0 && basketMargin.None? then
                !entered && te.View() == old(te.View()) && open == old(open)
              else
                var total := if basketMargin.Some? then basketMargin.value else 0.0;
                var p := EnterOrUnwind(te.risk.cfg, old(te.View()), plan, PerSellLeg(plan, total), feed, old(cursor));
                && te.View() == p.shared && entered == p.stopped.None?
                && open == if entered then old(open)[underlying := Structure(p.filled, p.premium, true)] else old(open)
    {
      var plan := Plan(legs, lotSize, target);
      var sellCount := CountSells(plan);
      var perSell := 0.0;
      if sellCount > 0 {
        if basketMargin.None? {
          return false;
        }
        perSell := basketMargin.value / sellCount as real;
      }
      assert perSell == PerSellLeg(plan, if basketMargin.Some? then basketMargin.value else 0.0);
      var filled, premium, stopped := PlaceOrUnwind(plan, perSell);
      if stopped.Some? {
        return false;
      }
      open := open[underlying := Structure(filled, premium, true)];
      return true;
    }

    method CountSells(plan: seq<PlannedLeg>) returns (n: nat)
      ensures n == SellCount(plan)
    {
      n := 0;
      var i := 0;
      while i < |plan|
        invariant 0 <= i <= |plan|
        invariant n == SellCount(plan[..i])
      {
        assert plan[..i + 1][..i] == plan[..i];
        if plan[i].side == Sell {
          n := n + 1;
        }
        i := i + 1;
      }
      assert plan[..i] == plan;
    }

    // A structure is forgotten exactly when the exits of all its legs were filled.
    method ExitStructure(underlying: Symbol)
      modifies this, te, te.risk, te.store
      ensures underlying !in old(open) ==>
                te.View() == old(te.View()) && open == old(open) && cursor == old(cursor)
      ensures underlying in old(open) ==>
                var (s, ok) := ExitLegs(te.risk.cfg, old(te.View()), old(open)[underlying].legs, feed, old(cursor));
                && te.View() == s
                && cursor == old(cursor) + |old(open)[underlying].legs|
                && open == (if ok then old(open) - {underlying} else old(open))
      ensures te.risk.stopTests == old(te.risk.stopTests)
    {
      if underlying !in open {
        return;
      }
      var allOk := CloseLegs(open[underlying].legs);
      if allOk {
        open := open - {underlying};
      }
    }

    // Closes every tracked structure and then whatever the risk manager still holds. A
    // position held at the start is gone exactly when an exit of it was filled; one that
    // remains had its exit refused because another was in flight, or sent and not filled.
    // When nothing is in flight and the broker fills, nothing stays held, and no structure
    // whose legs were there to close stays tracked.
    method FlattenAll()
      modifies this, te, te.risk, te.store
      ensures te.exitInFlight == old(te.exitInFlight)
      ensures te.risk.open.Keys <= old(te.risk.open.Keys)
      ensures forall s :: s in old(te.risk.open) ==>
                (s !in te.risk.open <==> Answered(te.log, |old(te.log)|, s, true))
      ensures forall s :: s in te.risk.open ==>
                s in te.exitInFlight
                || (Sent(te.log, |old(te.log)|, s) && Answered(te.log, |old(te.log)|, s, false))
      ensures old(te.exitInFlight) == {} && AlwaysFills(feed) ==>
                te.risk.open == map[] && (LegsHeldOnce(old(open), old(te.risk.open.Keys)) ==> open == map[])
    {
      ghost var start := te.View();
      ExitStructures();
      ghost var middle := te.View();
      CloseHeld();
      OnlyExitsChain(start, middle, te.View());
      forall s | s in te.risk.open
        ensures Tried(start, te.View(), s)
      {
        TriedLasts(start, middle, te.View(), s);
      }
    }

    method ExitStructures()
      modifies this, te, te.risk, te.store
      ensures OnlyExits(old(te.View()), te.View())
      ensures old(te.exitInFlight) == {} && AlwaysFills(feed) && LegsHeldOnce(old(open), old(te.risk.open.Keys)) ==> open == map[]
    {
      ghost var start := te.View();
      ghost var clear := te.exitInFlight == {} && AlwaysFills(feed) && LegsHeldOnce(open, te.risk.open.Keys);
      var underlyings := open.Keys;
      while underlyings != {}
        invariant OnlyExits(start, te.View())
        invariant clear ==> open.Keys == underlyings && te.exitInFlight == {} && LegsHeldOnce(open, te.risk.open.Keys)
        decreases underlyings
      {
        var u :| u in underlyings;
        underlyings := underlyings - {u};
        ghost var before := te.View();
        if u in open {
          ExitLegsTrail(te.risk.cfg, te.View(), open[u].legs, feed, cursor);
          if clear {
            StructureGone(te.risk.cfg, te.View(), open, u, feed, cursor);
          }
        }
        ExitStructure(u);
        OnlyExitsChain(start, before, te.View());
      }
    }

    // One exit of a symbol that may be held.
    method CloseOne(symbol: Symbol)
      modifies this`cursor, te, te.risk, te.store
      ensures OnlyExits(old(te.View()), te.View()) && PositionsKept(old(te.View()), te.View())
      ensures symbol in old(te.risk.open) ==> Tried(old(te.View()), te.View(), symbol)
      ensures old(te.exitInFlight) == {} && AlwaysFills(feed) ==> symbol !in te.risk.open
      ensures te.risk.stopTests == old(te.risk.stopTests)
    {
      ExitCallTrail(te.risk.cfg, te.View(), symbol, None, feed(cursor));
      ExitSummary(te.risk.cfg, te.View(), LegRecord(symbol, Buy, None), feed(cursor));
      assert AlwaysFills(feed) ==> Fills(feed, cursor);
      var _ := te.PlaceExitOrder(symbol, None, feed(cursor));
      cursor := cursor + 1;
    }

    // An exit for each symbol the risk manager holds, tracked or not.
    method CloseHeld()
      modifies this`cursor, te, te.risk, te.store
      ensures OnlyExits(old(te.View()), te.View())
      ensures forall s :: s in te.risk.open ==> Tried(old(te.View()), te.View(), s)
      ensures old(te.exitInFlight) == {} && AlwaysFills(feed) ==> te.risk.open == map[]
    {
      ghost var start := te.View();
      ghost var clear := te.exitInFlight == {} && AlwaysFills(feed);
      var leftovers := te.risk.open.Keys;
      while leftovers != {}
        invariant OnlyExits(start, te.View())
        invariant forall s :: s in te.risk.open ==> s in leftovers || Tried(start, te.View(), s)
        invariant clear ==> te.exitInFlight == {} && te.risk.open.Keys <= leftovers
        decreases leftovers
      {
        var symbol :| symbol in leftovers;
        leftovers := leftovers - {symbol};
        ghost var before := te.View();
        CloseOne(symbol);
        OnlyExitsChain(start, before, te.View());
        forall s | s in te.risk.open && s !in leftovers
          ensures Tried(start, te.View(), s)
        {
          TriedLasts(start, before, te.View(), s);
        }
      }
    }

    // ---- The software stop pass ----

    // symbol was tested against its stop during this pass, at the price quoted for it.
    ghost predicate TestedSince(n: nat, symbol: Symbol, quote: Symbol -> Quote)
      reads te.risk
    {
      exists i :: n <= i < |te.risk.stopTests| && te.risk.stopTests[i].symbol == symbol
        && Usable(quote(symbol), staleAge) && te.risk.stopTests[i].price == quote(symbol).price
    }

    // Every test of this pass used a usable price.
    ghost predicate OnlyFreshTests(n: nat, quote: Symbol -> Quote)
      reads te.risk
    {
      n <= |te.risk.stopTests| &&
      forall i :: n <= i < |te.risk.stopTests| ==>
        var t := te.risk.stopTests[i]; Usable(quote(t.symbol), staleAge) && t.price == quote(t.symbol).price
    }

    ghost predicate NoHitSince(n: nat)
      reads te.risk
    {
      forall i :: n <= i < |te.risk.stopTests| ==> !te.risk.stopTests[i].hit
    }

    // Every stop hit in this pass had an exit of its symbol sent since place m of the log,
    // unless another exit of it was in flight.
    ghost predicate HitsExited(n: nat, m: nat)
      reads te, te.risk
    {
      forall i :: n <= i < |te.risk.stopTests| && te.risk.stopTests[i].hit ==>
        te.risk.stopTests[i].symbol in te.exitInFlight || Sent(te.log, m, te.risk.stopTests[i].symbol)
    }

    ghost predicate TestedAsAtStart(n: nat, start: RiskState, quote: Symbol -> Quote)
      reads te.risk
    {
      AsAtStart(te.risk.cfg, te.risk.stopTests, te.risk.open, n, start, quote)
    }

    // Tests one symbol if it has a usable price; only a held symbol can hit.
    method TestStop(symbol: Symbol, quote: Symbol -> Quote, ghost n: nat, ghost start: RiskState) returns (hit: bool)
      requires OnlyFreshTests(n, quote) && TestedAsAtStart(n, start, quote)
      modifies te.risk
      ensures TestedAsAtStart(n, start, quote)
      ensures te.risk.open.Keys == old(te.risk.open.Keys)
      ensures |old(te.risk.stopTests)| <= |te.risk.stopTests|
      ensures te.risk.stopTests[..|old(te.risk.stopTests)|] == old(te.risk.stopTests)
      ensures forall i :: |old(te.risk.stopTests)| <= i < |te.risk.stopTests| ==>
                te.risk.stopTests[i].symbol == symbol && te.risk.stopTests[i].hit == hit
      ensures OnlyFreshTests(n, quote)
      ensures !Usable(quote(symbol), staleAge) || TestedSince(n, symbol, quote)
      ensures hit ==> symbol in te.risk.open && |old(te.risk.stopTests)| < |te.risk.stopTests| && !NoHitSince(n)
      ensures !hit && old(NoHitSince(n)) ==> NoHitSince(n)
    {
      var q := quote(symbol);
      if q.NoQuote? || q.price <= 0.0 {
        return false;
      }
      if q.age > staleAge {
        return false;
      }
      CheckStopKeepsBook(te.risk.cfg, te.risk.View(), symbol, q.price);
      if symbol in te.risk.open {
        TestedTwice(te.risk.cfg.stop, start.open[symbol], q.price);
      }
      hit := te.risk.ShouldTriggerStopLoss(symbol, q.price);
      assert te.risk.stopTests[|old(te.risk.stopTests)|] == RiskManager.StopTest(symbol, q.price, hit);
    }

    // One whole pass: first the legs of the tracked structures, then whatever else the risk
    // manager holds. quote is the price feed during the pass. Each symbol held when the pass
    // starts is closed, or tested at a price no older than the limit, or has no usable price,
    // also when a triggered leg cuts its structure short. A symbol whose fresh price is at or past
    // its stop has an exit sent, unless one is in flight already. No test uses a stale price, nothing is opened,
    // what goes was closed by a filled exit, and without a hit nothing is sent.
    method SoftStopLossCheck(quote: Symbol -> Quote)
      modifies this, te, te.risk, te.store
      ensures !te.risk.cfg.stop.enabled ==>
                te.View() == old(te.View()) && te.risk.stopTests == old(te.risk.stopTests)
      ensures te.risk.cfg.stop.enabled ==>
                forall s :: s in old(te.risk.open) ==>
                  s !in te.risk.open || !Usable(quote(s), staleAge) || TestedSince(|old(te.risk.stopTests)|, s, quote)
      ensures HitsExited(|old(te.risk.stopTests)|, |old(te.log)|)
      ensures forall s :: s in old(te.risk.open) && quote(s).Quoted? && 0.0 < quote(s).price && quote(s).age <= staleAge
                          && WouldHit(te.risk.cfg, old(te.risk.View()), s, quote(s).price) ==>
                s in te.exitInFlight || Sent(te.log, |old(te.log)|, s)
      ensures OnlyFreshTests(|old(te.risk.stopTests)|, quote)
      ensures OnlyExits(old(te.View()), te.View())
      ensures NoHitSince(|old(te.risk.stopTests)|) ==> te.risk.open.Keys == old(te.risk.open.Keys) && te.log == old(te.log)
    {
      if !te.risk.cfg.stop.enabled {
        return;
      }
      ghost var start, n, m := te.View(), |te.risk.stopTests|, |te.log|;
      var covered := CheckStructures(quote, n, m, start.risk);
      ghost var middle := te.View();
      CheckLeftovers(covered, quote, n, m, start.risk);
      OnlyExitsChain(start, middle, te.View());
    }

    // Every held symbol that no structure has covered.
    method CheckLeftovers(covered: set<Symbol>, quote: Symbol -> Quote, ghost n: nat, ghost m: nat, ghost atStart: RiskState)
      requires OnlyFreshTests(n, quote) && HitsExited(n, m) && m <= |te.log|
      requires TestedAsAtStart(n, atStart, quote)
      requires forall s :: s in covered ==> !Usable(quote(s), staleAge) || TestedSince(n, s, quote)
      modifies this, te, te.risk, te.store
      ensures TestedAsAtStart(n, atStart, quote)
      ensures OnlyExits(old(te.View()), te.View())
      ensures OnlyFreshTests(n, quote) && HitsExited(n, m)
      ensures forall s :: s in te.risk.open ==> !Usable(quote(s), staleAge) || TestedSince(n, s, quote)
      ensures NoHitSince(n) ==> old(NoHitSince(n)) && te.risk.open.Keys == old(te.risk.open.Keys) && te.log == old(te.log)
    {
      ghost var start := te.View();
      var remaining := te.risk.open.Keys;
      while remaining != {}
        invariant OnlyExits(start, te.View()) && TestedAsAtStart(n, atStart, quote)
        invariant OnlyFreshTests(n, quote) && HitsExited(n, m)
        invariant forall s :: s in covered ==> !Usable(quote(s), staleAge) || TestedSince(n, s, quote)
        invariant forall s :: s in te.risk.open ==>
                    s in remaining || !Usable(quote(s), staleAge) || TestedSince(n, s, quote)
        invariant NoHitSince(n) ==> old(NoHitSince(n)) && te.risk.open.Keys == old(te.risk.open.Keys) && te.log == old(te.log)
        decreases remaining
      {
        var symbol :| symbol in remaining;
        remaining := remaining - {symbol};
        ghost var before := te.View();
        if symbol !in covered {
          CheckLeftover(symbol, quote, n, m, atStart);
        }
        OnlyExitsChain(start, before, te.View());
      }
    }

    method CheckLeftover(symbol: Symbol, quote: Symbol -> Quote, ghost n: nat, ghost m: nat, ghost atStart: RiskState)
      requires OnlyFreshTests(n, quote) && HitsExited(n, m) && m <= |te.log|
      requires TestedAsAtStart(n, atStart, quote)
      modifies this`cursor, te, te.risk, te.store
      ensures TestedAsAtStart(n, atStart, quote)
      ensures OnlyExits(old(te.View()), te.View())
      ensures OnlyFreshTests(n, quote) && HitsExited(n, m)
      ensures |old(te.risk.stopTests)| <= |te.risk.stopTests|
      ensures te.risk.stopTests[..|old(te.risk.stopTests)|] == old(te.risk.stopTests)
      ensures !Usable(quote(symbol), staleAge) || TestedSince(n, symbol, quote)
      ensures NoHitSince(n) ==> old(NoHitSince(n)) && te.risk.open.Keys == old(te.risk.open.Keys) && te.log == old(te.log)
    {
      ghost var start := te.View();
      var hit := TestStop(symbol, quote, n, atStart);
      if hit {
        ghost var before := te.View();
        CloseOne(symbol);
        ExitsKeepTests(te.risk.cfg, te.risk.stopTests, before, te.View(), n, atStart, quote);
        TestedThenExited(start, before, te.View(), m, symbol);
      }
    }

    // The tracked structures; covered are the legs that were looked at.
    method CheckStructures(quote: Symbol -> Quote, ghost n: nat, ghost m: nat, ghost atStart: RiskState) returns (covered: set<Symbol>)
      requires n == |te.risk.stopTests| && m == |te.log| && atStart == te.risk.View()
      modifies this, te, te.risk, te.store
      ensures TestedAsAtStart(n, atStart, quote)
      ensures OnlyExits(old(te.View()), te.View())
      ensures OnlyFreshTests(n, quote) && HitsExited(n, m)
      ensures forall s :: s in covered ==> !Usable(quote(s), staleAge) || TestedSince(n, s, quote)
      ensures NoHitSince(n) ==> te.risk.open.Keys == old(te.risk.open.Keys) && te.log == old(te.log)
    {
      ghost var start := te.View();
      var underlyings := open.Keys;
      covered := {};
      while underlyings != {}
        invariant OnlyExits(start, te.View()) && TestedAsAtStart(n, atStart, quote)
        invariant OnlyFreshTests(n, quote) && HitsExited(n, m)
        invariant forall s :: s in covered ==> !Usable(quote(s), staleAge) || TestedSince(n, s, quote)
        invariant NoHitSince(n) ==> te.risk.open.Keys == old(te.risk.open.Keys) && te.log == old(te.log)
        decreases underlyings
      {
        var u :| u in underlyings;
        underlyings := underlyings - {u};
        ghost var before := te.View();
        if u in open {
          var seen := CheckStructure(u, quote, n, m, atStart);
          covered := covered + seen;
        }
        OnlyExitsChain(start, before, te.View());
      }
    }

    // One structure, leg by leg; the first stop hit exits the whole structure.
    method CheckStructure(u: Symbol, quote: Symbol -> Quote, ghost n: nat, ghost m: nat, ghost atStart: RiskState)
      returns (covered: set<Symbol>)
      requires u in open && OnlyFreshTests(n, quote) && HitsExited(n, m) && m <= |te.log|
      requires TestedAsAtStart(n, atStart, quote)
      modifies this, te, te.risk, te.store
      ensures TestedAsAtStart(n, atStart, quote)
      ensures OnlyExits(old(te.View()), te.View())
      ensures OnlyFreshTests(n, quote) && HitsExited(n, m)
      ensures |old(te.risk.stopTests)| <= |te.risk.stopTests|
      ensures te.risk.stopTests[..|old(te.risk.stopTests)|] == old(te.risk.stopTests)
      ensures covered <= SymbolsOfLegs(old(open)[u].legs)
      ensures forall s :: s in covered ==> !Usable(quote(s), staleAge) || TestedSince(n, s, quote)
      ensures NoHitSince(|old(te.risk.stopTests)|) ==> covered == SymbolsOfLegs(old(open)[u].legs) && open == old(open)
      ensures !NoHitSince(|old(te.risk.stopTests)|) ==>
                forall s :: s in SymbolsOfLegs(old(open)[u].legs) && s in old(te.risk.open) ==> Tried(old(te.View()), te.View(), s)
      ensures NoHitSince(n) ==> te.risk.open.Keys == old(te.risk.open.Keys) && te.log == old(te.log)
      ensures NoHitSince(n) ==> old(NoHitSince(n))
    {
      var legs := open[u].legs;
      ghost var start := te.View();
      var hit;
      covered, hit := TestLegs(legs, quote, n, atStart);
      if hit.Some? {
        ghost var before := te.View();
        ExitHit(u);
        ExitsKeepTests(te.risk.cfg, te.risk.stopTests, before, te.View(), n, atStart, quote);
        TestedThenExited(start, before, te.View(), m, hit.value);
      }
    }

    // A tracked structure whose stop was hit: an exit of every leg.
    method ExitHit(u: Symbol)
      requires u in open
      modifies this, te, te.risk, te.store
      ensures OnlyExits(old(te.View()), te.View()) && PositionsKept(old(te.View()), te.View())
      ensures forall s :: s in SymbolsOfLegs(old(open)[u].legs) && s in old(te.risk.open) ==> Tried(old(te.View()), te.View(), s)
      ensures te.risk.stopTests == old(te.risk.stopTests)
    {
      ExitLegsTrail(te.risk.cfg, te.View(), open[u].legs, feed, cursor);
      ExitStructure(u);
    }

    // Tests the legs in order up to the first hit; covered are those tested or skipped.
    method TestLegs(legs: seq<LegRecord>, quote: Symbol -> Quote, ghost n: nat, ghost atStart: RiskState)
      returns (covered: set<Symbol>, hit: Option<Symbol>)
      requires OnlyFreshTests(n, quote) && TestedAsAtStart(n, atStart, quote)
      modifies te.risk
      ensures TestedAsAtStart(n, atStart, quote)
      ensures te.risk.open.Keys == old(te.risk.open.Keys)
      ensures OnlyFreshTests(n, quote)
      ensures |old(te.risk.stopTests)| <= |te.risk.stopTests|
      ensures te.risk.stopTests[..|old(te.risk.stopTests)|] == old(te.risk.stopTests)
      ensures forall s :: s in covered ==> !Usable(quote(s), staleAge) || TestedSince(n, s, quote)
      ensures hit.None? <==> NoHitSince(|old(te.risk.stopTests)|)
      ensures hit.None? ==> covered == SymbolsOfLegs(legs)
      ensures hit.Some? ==> hit.value in te.risk.open && exists i :: 0 <= i < |legs| && legs[i].symbol == hit.value
      ensures forall i :: |old(te.risk.stopTests)| <= i < |te.risk.stopTests| && te.risk.stopTests[i].hit ==>
                hit == Some(te.risk.stopTests[i].symbol)
      ensures covered <= SymbolsOfLegs(legs)
    {
      covered, hit := {}, None;
      var i := 0;
      while i < |legs|
        invariant 0 <= i <= |legs|
        invariant te.risk.open.Keys == old(te.risk.open.Keys)
        invariant OnlyFreshTests(n, quote) && TestedAsAtStart(n, atStart, quote)
        invariant |old(te.risk.stopTests)| <= |te.risk.stopTests|
        invariant te.risk.stopTests[..|old(te.risk.stopTests)|] == old(te.risk.stopTests)
        invariant NoHitSince(|old(te.risk.stopTests)|)
        invariant covered == SymbolsOfLegs(legs[..i]) && covered <= SymbolsOfLegs(legs)
        invariant forall s :: s in covered ==> !Usable(quote(s), staleAge) || TestedSince(n, s, quote)
      {
        assert SymbolsOfLegs(legs[..i + 1]) == SymbolsOfLegs(legs[..i]) + {legs[i].symbol};
        covered := covered + {legs[i].symbol};
        var fired := TestStop(legs[i].symbol, quote, n, atStart);
        if fired {
          assert te.risk.stopTests[|te.risk.stopTests| - 1].hit;
          return covered, Some(legs[i].symbol);
        }
        i := i + 1;
      }
      assert legs[..i] == legs;
    }
  }

  // A test changes neither book nor log; the exit after it is then all that happened.
  lemma TestedThenExited(start: Shared, before: Shared, after: Shared, m: nat, symbol: Symbol)
    requires before.(risk := start.risk) == start && before.risk.open.Keys == start.risk.open.Keys
    requires OnlyExits(before, after) && Tried(before, after, symbol) && m <= |start.log|
    ensures OnlyExits(start, after)
    ensures symbol in after.inFlight || Sent(after.log, m, symbol)
    ensures forall s :: Tried(before, after, s) ==> Tried(start, after, s)
    ensures forall s :: Sent(start.log, m, s) ==> Sent(after.log, m, s)
  {
    forall s | Sent(start.log, m, s)
      ensures Sent(after.log, m, s)
    {
      SentExtends(start.log, after.log, m, s);
    }
  }
}
