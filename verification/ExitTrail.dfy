/** What a series of exits leaves in the log: who is gone, who was tried in vain.
    The runner flattens the book, closes structures and answers stop hits by exits one after
    another. Each either sends an order for a whole position, or nothing when the symbol is not
    held or in flight. So of the symbols held before, those that are gone had an exit filled,
    and those that were tried and remain had one sent and not filled. Relations of this kind
    chain over any number of exits. */
module ExitTrail {
  import opened Common
  import opened RiskModel
  import opened OrderProtocol
  import opened TradingEngine
  import opened MultiLeg

  // An exit order for the symbol went out at or after place n of the log.
  predicate Sent(log: seq<Event>, n: nat, symbol: Symbol) {
    exists i :: n <= i < |log| && log[i].ExitSent? && log[i].symbol == symbol
  }

  // One was answered there, with a fill or without.
  predicate Answered(log: seq<Event>, n: nat, symbol: Symbol, filled: bool) {
    exists i :: n <= i < |log| && log[i].ExitAnswered? && log[i].symbol == symbol && log[i].answer.Fill? == filled
  }

  // Only exits happened between two moments: flags are as they were, nothing new is held, what
  // was held is gone exactly when an exit of it was filled in between, and no exit was answered
  // that was not sent.
  ghost predicate OnlyExits(a: Shared, b: Shared) {
    && b.inFlight == a.inFlight && a.log <= b.log && b.risk.open.Keys <= a.risk.open.Keys
    && (forall s :: s in a.risk.open ==> (s !in b.risk.open <==> Answered(b.log, |a.log|, s, true)))
    && (forall s :: Answered(b.log, |a.log|, s, true) ==> Sent(b.log, |a.log|, s))
  }

  // Whatever is still held is as it was.
  ghost predicate PositionsKept(a: Shared, b: Shared) {
    forall s :: s in b.risk.open ==> s in a.risk.open && b.risk.open[s] == a.risk.open[s]
  }

  // The symbol's exit was refused because another was in flight, or was sent and answered.
  predicate Tried(a: Shared, b: Shared, symbol: Symbol) {
    || symbol in a.inFlight
    || (Sent(b.log, |a.log|, symbol)
        && (Answered(b.log, |a.log|, symbol, true) || Answered(b.log, |a.log|, symbol, false)))
  }

  lemma AnsweredSplits(a: seq<Event>, b: seq<Event>, n: nat, symbol: Symbol, filled: bool)
    requires n <= |a| && a <= b
    ensures Answered(b, n, symbol, filled) <==> Answered(a, n, symbol, filled) || Answered(b, |a|, symbol, filled)
  {
    if Answered(a, n, symbol, filled) {
      var i :| n <= i < |a| && a[i].ExitAnswered? && a[i].symbol == symbol && a[i].answer.Fill? == filled;
      assert b[i] == a[i];
    }
  }

  lemma SentExtends(a: seq<Event>, b: seq<Event>, n: nat, symbol: Symbol)
    requires a <= b && Sent(a, n, symbol)
    ensures Sent(b, n, symbol)
  {
    var i :| n <= i < |a| && a[i].ExitSent? && a[i].symbol == symbol;
    assert b[i] == a[i];
  }

  lemma OnlyExitsChain(a: Shared, b: Shared, c: Shared)
    requires OnlyExits(a, b) && OnlyExits(b, c)
    ensures OnlyExits(a, c)
  {
    forall s | s in a.risk.open
      ensures s !in c.risk.open <==> Answered(c.log, |a.log|, s, true)
    {
      AnsweredSplits(b.log, c.log, |a.log|, s, true);
    }
    forall s | Answered(c.log, |a.log|, s, true)
      ensures Sent(c.log, |a.log|, s)
    {
      AnsweredSplits(b.log, c.log, |a.log|, s, true);
      if Answered(b.log, |a.log|, s, true) {
        SentExtends(b.log, c.log, |a.log|, s);
      }
    }
  }

  // Once tried, tried for good; and a later beginning counts from an earlier one.
  lemma TriedLasts(a: Shared, b: Shared, c: Shared, symbol: Symbol)
    requires OnlyExits(a, b) && OnlyExits(b, c)
    ensures Tried(a, b, symbol) ==> Tried(a, c, symbol)
    ensures Tried(b, c, symbol) ==> Tried(a, c, symbol)
  {
    AnsweredSplits(b.log, c.log, |a.log|, symbol, true);
    AnsweredSplits(b.log, c.log, |a.log|, symbol, false);
    if Sent(b.log, |a.log|, symbol) {
      SentExtends(b.log, c.log, |a.log|, symbol);
    }
  }

  lemma ExitCallTrail(cfg: RiskConfig, s: Shared, symbol: Symbol, record: Option<nat>, script: Script)
    ensures var s' := Alone(cfg, s, NewExit(symbol, record), script).0;
            OnlyExits(s, s') && PositionsKept(s, s') && (symbol in s.risk.open ==> Tried(s, s', symbol))
  {
    ExitEffects(cfg, s, symbol, record, script);
    ExitCallLog(cfg, s, Alone(cfg, s, NewExit(symbol, record), script).0, symbol, script.answer);
  }

  lemma ExitCallLog(cfg: RiskConfig, s: Shared, s': Shared, symbol: Symbol, answer: Answer)
    requires s'.inFlight == s.inFlight
    requires var result := ExitResultOf(s, symbol, answer);
             && s'.risk == (if result.ExitFilled? then ClosePosition(cfg, s.risk, symbol, result.price) else s.risk)
             && s'.log == (if result.ExitRefused? || result.ExitNoPosition? then s.log
                           else s.log + [ExitSent(symbol, s.risk.open[symbol].side.Opposite(), s.risk.open[symbol].quantity),
                                         ExitAnswered(symbol, answer)])
    ensures OnlyExits(s, s') && PositionsKept(s, s') && (symbol in s.risk.open ==> Tried(s, s', symbol))
  {
    var n := |s.log|;
    if |s'.log| > n {
      assert s'.log[n].ExitSent? && s'.log[n + 1] == ExitAnswered(symbol, answer);
    }
  }

  lemma {:induction false} ExitLegsTrail(cfg: RiskConfig, s: Shared, legs: seq<LegRecord>, feed: Feed, k: nat)
    ensures var s' := ExitLegs(cfg, s, legs, feed, k).0;
            && OnlyExits(s, s') && PositionsKept(s, s')
            && forall i :: 0 <= i < |legs| && legs[i].symbol in s.risk.open ==> Tried(s, s', legs[i].symbol)
    decreases |legs|
  {
    if legs != [] {
      var s1 := Alone(cfg, s, NewExit(legs[0].symbol, legs[0].record), feed(k)).0;
      var s' := ExitLegs(cfg, s1, legs[1..], feed, k + 1).0;
      ExitCallTrail(cfg, s, legs[0].symbol, legs[0].record, feed(k));
      ExitLegsTrail(cfg, s1, legs[1..], feed, k + 1);
      OneMoreLeg(cfg, s, s1, s', legs, feed(k));
    }
  }

  lemma OneMoreLeg(cfg: RiskConfig, s: Shared, s1: Shared, s': Shared, legs: seq<LegRecord>, script: Script)
    requires legs != [] && s1 == Alone(cfg, s, NewExit(legs[0].symbol, legs[0].record), script).0
    requires OnlyExits(s, s1) && OnlyExits(s1, s') && (legs[0].symbol in s.risk.open ==> Tried(s, s1, legs[0].symbol))
    requires forall i :: 0 <= i < |legs[1..]| && legs[1..][i].symbol in s1.risk.open ==> Tried(s1, s', legs[1..][i].symbol)
    ensures OnlyExits(s, s')
    ensures forall i :: 0 <= i < |legs| && legs[i].symbol in s.risk.open ==> Tried(s, s', legs[i].symbol)
  {
    OnlyExitsChain(s, s1, s');
    ExitSummary(cfg, s, legs[0], script);
    forall i | 0 <= i < |legs| && legs[i].symbol in s.risk.open
      ensures Tried(s, s', legs[i].symbol)
    {
      TriedLasts(s, s1, s', legs[i].symbol);
      if legs[i].symbol != legs[0].symbol {
        assert legs[i] == legs[1..][i - 1];
        assert legs[i].symbol in s1.risk.open;
      }
    }
  }
}
