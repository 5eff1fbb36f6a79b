/** Concrete runs that the order protocol allows, one for each promise it does not keep.
    Two exits live at once; an exit of what was never bought; an early look that sells nothing;
    an exit without a row; two entries in a minute that allows one. Each run is given action by
    action, and its lemmas follow the shared state and the calls from one action to the next. */
module Witnesses {
  import opened Common
  import opened Charges
  import opened RiskModel
  import opened StoreModel
  import opened OrderProtocol
  import EntryBacking

  // A session of 1000 with one order a minute and no charges, nothing held, nothing logged.
  function Rules(): RiskConfig {
    RiskConfig((price: real, quantity: int, t: TradeType, side: Side) => 0.0,
               StopLossConfig(false, Percentage, 0.0, false, 0.0), 100.0, 1)
  }

  function Session(held: map<Symbol, Position>): System {
    System(Shared(RiskState(1000.0, 1000.0, 0.0, 0.0, false, [], held), StoreState(map[], map[], 0, 0),
                  {}, {}, {}, map[], []),
           [])
  }

  function Request(symbol: Symbol): EntryRequest {
    EntryRequest(symbol, 1, Buy, OptCarry, 0.0)
  }

  function Go(i: nat, commits: bool, answer: Answer): Action {
    Step(i, Env(0, 10.0, commits, answer))
  }

  const FILL: Answer := Fill(1, 10.0)

  // ---- Two entries in one minute that allows one ----

  function ChecksFirst(): seq<Action> {
    [StartEntry(Request("A")), StartEntry(Request("B")),
     Go(0, true, FILL), Go(1, true, FILL), Go(0, true, FILL), Go(1, true, FILL), Go(0, true, FILL), Go(1, true, FILL)]
  }

  // Both entries are checked before either opens: the window holds two, the limit is one.
  lemma TwoChecksBeatTheLimit()
    ensures Rules().maxOrdersPerMin == 1
    ensures Run(Rules(), Session(map[]), ChecksFirst()).shared.risk.orderTimes == [0, 0]
    ensures InWindow([0, 0], 0) == 2
  {
    var cfg, start := Rules(), Session(map[]);
    var s2 := Next(cfg, Next(cfg, start, StartEntry(Request("A"))), StartEntry(Request("B")));
    BothCheck(s2);
    BothOpen(Next(cfg, Next(cfg, s2, Go(0, true, FILL)), Go(1, true, FILL)));
    ChecksFirstRun(cfg, start);
    assert [0, 0][..1] == [0] && [0][..0] == [];
  }

  lemma BothCheck(s: System)
    requires s.calls == [NewEntry(Request("A")), NewEntry(Request("B"))] && s.shared == Session(map[]).shared
    ensures var s' := Next(Rules(), Next(Rules(), s, Go(0, true, FILL)), Go(1, true, FILL));
            && |s'.calls| == 2 && s'.calls[0].Entry? && s'.calls[1].Entry?
            && s'.calls[0].epc == EIntent && s'.calls[1].epc == EIntent
            && s'.calls[0].req == Request("A") && s'.calls[1].req == Request("B") && s'.shared == s.shared
  {
    var s1 := Next(Rules(), s, Go(0, true, FILL));
    assert s1.calls[0].epc == EIntent && s1.shared == s.shared;
  }

  lemma ChecksFirstRun(cfg: RiskConfig, start: System)
    ensures var go0, go1 := Go(0, true, FILL), Go(1, true, FILL);
            var s2 := Next(cfg, Next(cfg, start, StartEntry(Request("A"))), StartEntry(Request("B")));
            var s4 := Next(cfg, Next(cfg, s2, go0), go1);
            Run(cfg, start, ChecksFirst()) == Next(cfg, Next(cfg, Next(cfg, Next(cfg, s4, go0), go1), go0), go1)
  {
    var go0, go1, a, b := Go(0, true, FILL), Go(1, true, FILL), StartEntry(Request("A")), StartEntry(Request("B"));
    var none: seq<Action> := [];
    RunOneMore(cfg, start, none, a);
    RunOneMore(cfg, start, none + [a], b);
    var a2 := none + [a] + [b];
    RunOneMore(cfg, start, a2, go0);
    RunOneMore(cfg, start, a2 + [go0], go1);
    var a4 := a2 + [go0] + [go1];
    RunOneMore(cfg, start, a4, go0);
    RunOneMore(cfg, start, a4 + [go0], go1);
    RunOneMore(cfg, start, a4 + [go0] + [go1], go0);
    RunOneMore(cfg, start, a4 + [go0] + [go1] + [go0], go1);
    assert a4 + [go0] + [go1] + [go0] + [go1] == ChecksFirst();
  }

  // From two checked entries, intents and opens follow without another check.
  lemma BothOpen(s: System)
    requires |s.calls| == 2 && s.calls[0].Entry? && s.calls[1].Entry? && s.calls[0].epc == EIntent && s.calls[1].epc == EIntent
    requires s.calls[0].req == Request("A") && s.calls[1].req == Request("B") && s.shared.risk.orderTimes == []
    ensures var cfg, go0, go1 := Rules(), Go(0, true, FILL), Go(1, true, FILL);
            Next(cfg, Next(cfg, Next(cfg, Next(cfg, s, go0), go1), go0), go1).shared.risk.orderTimes == [0, 0]
  {
    var cfg, go0, go1 := Rules(), Go(0, true, FILL), Go(1, true, FILL);
    var s1 := Next(cfg, s, go0);
    assert s1.calls[0].epc == EOpen && s1.shared.risk == s.shared.risk;
    var s2 := Next(cfg, s1, go1);
    assert s2.calls[1].epc == EOpen && s2.shared.risk == s.shared.risk;
    var s3 := Next(cfg, s2, go0);
    assert s3.shared.risk.orderTimes == [] + [0];
    var s4 := Next(cfg, s3, go1);
    assert s4.shared.risk.orderTimes == [0] + [0];
  }

  // ---- A sale of something never bought ----

  function ExitOvertakes(): seq<Action> {
    [StartEntry(Request("A")), StartExit("A", None),
     Go(0, true, FILL), Go(0, true, FILL), Go(0, true, FILL),
     Go(1, true, FILL), Go(1, true, FILL), Go(1, true, FILL), Go(1, true, FILL), Go(1, true, FILL)]
  }

  // An exit overtakes the entry between its open and its send: the log is an open, a sale and
  // its fill, and no entry was ever sent.
  lemma ExitOfNothingBought()
    ensures EntryBacking.Fresh(Session(map[]))
    ensures Run(Rules(), Session(map[]), ExitOvertakes()).shared.log
         == [Opened("A"), ExitSent("A", Sell, 1), ExitAnswered("A", FILL)]
    ensures Run(Rules(), Session(map[]), ExitOvertakes()).shared.sentEntries == {}
    ensures !EntryBacking.ExitsBacked([Opened("A"), ExitSent("A", Sell, 1), ExitAnswered("A", FILL)])
  {
    var cfg, start, go0, go1 := Rules(), Session(map[]), Go(0, true, FILL), Go(1, true, FILL);
    var s2 := Next(cfg, Next(cfg, start, StartEntry(Request("A"))), StartExit("A", None));
    EntryOpens(s2);
    var s5 := Next(cfg, Next(cfg, Next(cfg, s2, go0), go0), go0);
    ExitFinds(s5);
    var s6 := Next(cfg, s5, go1);
    EntryBacking.LookedMayFill(cfg, s6, 1, Env(0, 10.0, true, FILL));
    FourSteps(cfg, s6, go1);
    FourStepsSendNoEntry(cfg, s6, 1, Env(0, 10.0, true, FILL));
    OvertakesRun(cfg, start);
    NothingBacks();
  }

  lemma EntryOpens(s: System)
    requires s.calls == [NewEntry(Request("A")), NewExit("A", None)] && s.shared == Session(map[]).shared
    ensures var cfg, go := Rules(), Go(0, true, FILL);
            var s' := Next(cfg, Next(cfg, Next(cfg, s, go), go), go);
            && s'.shared.log == [Opened("A")] && s'.shared.sentEntries == {} && s'.shared.inFlight == {}
            && |s'.calls| == 2 && s'.calls[1] == NewExit("A", None)
            && "A" in s'.shared.risk.open && s'.shared.risk.open["A"].side == Buy && s'.shared.risk.open["A"].quantity == 1
  {
    var cfg, go := Rules(), Go(0, true, FILL);
    var s1 := Next(cfg, s, go);
    assert s1.calls[0].epc == EIntent && s1.shared == s.shared;
    var s2 := Next(cfg, s1, go);
    assert s2.calls[0].epc == EOpen && s2.shared.risk == s.shared.risk && s2.shared.log == [];
    var s3 := Next(cfg, s2, go);
    assert s3.shared.log == [] + [Opened("A")];
  }

  lemma ExitFinds(s: System)
    requires |s.calls| == 2 && s.calls[1] == NewExit("A", None) && s.shared.inFlight == {} && "A" in s.shared.risk.open
    ensures var s' := Next(Rules(), s, Go(1, true, FILL));
            && EntryBacking.Looks(s', 1) && s'.calls[1].symbol == "A" && s'.shared.log == s.shared.log
            && s'.shared.risk == s.shared.risk && s'.shared.sentEntries == s.shared.sentEntries
  {
  }

  lemma OvertakesRun(cfg: RiskConfig, start: System)
    ensures var go0, go1 := Go(0, true, FILL), Go(1, true, FILL);
            var s2 := Next(cfg, Next(cfg, start, StartEntry(Request("A"))), StartExit("A", None));
            var s6 := Next(cfg, Next(cfg, Next(cfg, Next(cfg, s2, go0), go0), go0), go1);
            Run(cfg, start, ExitOvertakes()) == Next(cfg, Next(cfg, Next(cfg, Next(cfg, s6, go1), go1), go1), go1)
  {
    var go0, go1, entry, exit := Go(0, true, FILL), Go(1, true, FILL), StartEntry(Request("A")), StartExit("A", None);
    var none: seq<Action> := [];
    RunOneMore(cfg, start, none, entry);
    RunOneMore(cfg, start, none + [entry], exit);
    var a2 := none + [entry] + [exit];
    RunOneMore(cfg, start, a2, go0);
    RunOneMore(cfg, start, a2 + [go0], go0);
    RunOneMore(cfg, start, a2 + [go0] + [go0], go0);
    var a5 := a2 + [go0] + [go0] + [go0];
    RunOneMore(cfg, start, a5, go1);
    var a6 := a5 + [go1];
    RunOneMore(cfg, start, a6, go1);
    RunOneMore(cfg, start, a6 + [go1], go1);
    RunOneMore(cfg, start, a6 + [go1] + [go1], go1);
    RunOneMore(cfg, start, a6 + [go1] + [go1] + [go1], go1);
    assert a6 + [go1] + [go1] + [go1] + [go1] == ExitOvertakes();
  }

  // Looking too early need not do harm: the run up to that look has filled no exit, so none
  // without an entry. What is exact is the guard at the look, over all that may follow.
  lemma EarlyLookAlone()
    ensures var run := ExitOvertakes()[..7];
            && !EntryBacking.LooksSettled(Rules(), Session(map[]), run)
            && EntryBacking.ExitsBacked(Run(Rules(), Session(map[]), run).shared.log)
  {
    var cfg, start, go0, go1 := Rules(), Session(map[]), Go(0, true, FILL), Go(1, true, FILL);
    var s2 := Next(cfg, Next(cfg, start, StartEntry(Request("A"))), StartExit("A", None));
    EntryOpens(s2);
    var s5 := Next(cfg, Next(cfg, Next(cfg, s2, go0), go0), go0);
    ExitFinds(s5);
    var s6 := Next(cfg, s5, go1);
    assert EntryBacking.Unsettled(s5.calls[0], "A") by {
      EntryWaitsToSend(s2);
    }
    assert s6.calls[0] == s5.calls[0];
    assert EntryBacking.SomeoneEnters(s6, "A");
    SixSteps(cfg, start);
    var run := ExitOvertakes()[..7];
    assert run[..6] == ExitOvertakes()[..6] && run[6] == go1;
    assert Run(cfg, start, run[..6]) == s6;
    assert Next(cfg, s6, go1).shared.log == [Opened("A")];
    assert [Opened("A")][..0] == [];
  }

  lemma EntryWaitsToSend(s: System)
    requires s.calls == [NewEntry(Request("A")), NewExit("A", None)] && s.shared == Session(map[]).shared
    ensures var cfg, go := Rules(), Go(0, true, FILL);
            EntryBacking.Unsettled(Next(cfg, Next(cfg, Next(cfg, s, go), go), go).calls[0], "A")
  {
    var cfg, go := Rules(), Go(0, true, FILL);
    var s1 := Next(cfg, s, go);
    assert s1.calls[0].epc == EIntent && s1.shared == s.shared && s1.calls[0].req == Request("A");
    var s2 := Next(cfg, s1, go);
    assert s2.calls[0].epc == EOpen && s2.shared.risk == s.shared.risk;
  }

  lemma SixSteps(cfg: RiskConfig, start: System)
    ensures var go0, go1 := Go(0, true, FILL), Go(1, true, FILL);
            var s2 := Next(cfg, Next(cfg, start, StartEntry(Request("A"))), StartExit("A", None));
            Run(cfg, start, ExitOvertakes()[..6]) == Next(cfg, Next(cfg, Next(cfg, Next(cfg, s2, go0), go0), go0), go1)
  {
    var go0, go1, entry, exit := Go(0, true, FILL), Go(1, true, FILL), StartEntry(Request("A")), StartExit("A", None);
    var none: seq<Action> := [];
    RunOneMore(cfg, start, none, entry);
    RunOneMore(cfg, start, none + [entry], exit);
    var a2 := none + [entry] + [exit];
    RunOneMore(cfg, start, a2, go0);
    RunOneMore(cfg, start, a2 + [go0], go0);
    RunOneMore(cfg, start, a2 + [go0] + [go0], go0);
    RunOneMore(cfg, start, a2 + [go0] + [go0] + [go0], go1);
    assert a2 + [go0] + [go0] + [go0] + [go1] == ExitOvertakes()[..6];
  }

  lemma FourSteps(cfg: RiskConfig, s: System, a: Action)
    ensures Run(cfg, s, [a, a, a, a]) == Next(cfg, Next(cfg, Next(cfg, Next(cfg, s, a), a), a), a)
  {
    var none: seq<Action> := [];
    RunOneMore(cfg, s, none, a);
    RunOneMore(cfg, s, none + [a], a);
    RunOneMore(cfg, s, none + [a] + [a], a);
    RunOneMore(cfg, s, none + [a] + [a] + [a], a);
    assert none + [a] + [a] + [a] + [a] == [a, a, a, a];
  }

  lemma FourStepsSendNoEntry(cfg: RiskConfig, s: System, i: nat, env: Env)
    requires i < |s.calls| && s.calls[i].Exit?
    ensures var a := Step(i, env);
            Next(cfg, Next(cfg, Next(cfg, Next(cfg, s, a), a), a), a).shared.sentEntries == s.shared.sentEntries
  {
    ExitSendsNoEntry(cfg, s, i, env);
    var s1 := Next(cfg, s, Step(i, env));
    ExitSendsNoEntry(cfg, s1, i, env);
    var s2 := Next(cfg, s1, Step(i, env));
    ExitSendsNoEntry(cfg, s2, i, env);
    ExitSendsNoEntry(cfg, Next(cfg, s2, Step(i, env)), i, env);
  }

  lemma ExitSendsNoEntry(cfg: RiskConfig, s: System, i: nat, env: Env)
    requires i < |s.calls| && s.calls[i].Exit?
    ensures var s' := Next(cfg, s, Step(i, env));
            s'.shared.sentEntries == s.shared.sentEntries && i < |s'.calls| && s'.calls[i].Exit?
  {
  }

  lemma NothingBacks()
    ensures !EntryBacking.ExitsBacked([Opened("A"), ExitSent("A", Sell, 1), ExitAnswered("A", FILL)])
  {
    var log := [Opened("A"), ExitSent("A", Sell, 1), ExitAnswered("A", FILL)];
    assert log[..2] == [Opened("A"), ExitSent("A", Sell, 1)];
    assert log[..2][..1] == [Opened("A")] && log[..2][..1][..0] == [];
    assert !EntryBacking.BackedSinceExit(log[..2][..1], "A");
    assert !EntryBacking.BackedSinceExit(log[..2], "A");
  }

  // ---- Two live exits, and an exit without a row ----

  function Holding(): map<Symbol, Position> {
    map["A" := Position(10.0, 1, Buy, OptCarry, 0.0, 0, 0.0, 10.0, 0.0, 10.0)]
  }

  // A call that has taken the flag and found the position, ready to record its intent.
  predicate Ready(s: System, i: nat) {
    && i < |s.calls| && s.calls[i].Exit? && s.calls[i].xpc == XIntent && s.calls[i].symbol == "A"
    && s.calls[i].side == Sell && s.calls[i].quantity == 1
  }

  // A new exit call takes the flag and finds the position.
  lemma ExitGetsReady(s: System)
    requires "A" !in s.shared.inFlight && "A" in s.shared.risk.open
    requires s.shared.risk.open["A"].side == Buy && s.shared.risk.open["A"].quantity == 1
    ensures var cfg, i := Rules(), |s.calls|;
            var s' := Next(cfg, Next(cfg, Next(cfg, s, StartExit("A", None)), Go(i, true, Unknown)), Go(i, true, Unknown));
            && Ready(s', i) && s'.shared == s.shared.(inFlight := s.shared.inFlight + {"A"})
            && |s'.calls| == i + 1
  {
    var cfg, i := Rules(), |s.calls|;
    var s1 := Next(cfg, s, StartExit("A", None));
    assert s1.calls[i] == NewExit("A", None);
    var s2 := Next(cfg, s1, Go(i, true, Unknown));
    assert s2.calls[i].xpc == XLookup;
  }

  // Its intent is written or not; the order goes out all the same.
  lemma ReadySends(s: System, i: nat, commits: bool)
    requires Ready(s, i)
    ensures var cfg := Rules();
            var s' := Next(cfg, Next(cfg, s, Go(i, commits, Unknown)), Go(i, true, Unknown));
            && i < |s'.calls| == |s.calls| && s'.calls[i].Exit? && s'.calls[i].xpc == XWait && s'.calls[i].symbol == "A"
            && s'.shared.log == s.shared.log + [ExitSent("A", Sell, 1)] && s'.shared.risk == s.shared.risk
            && s'.shared.inFlight == s.shared.inFlight
            && s'.shared.sentExits == s.shared.sentExits + {s.shared.store.orderSeq + 1}
            && s'.shared.store.orders.Keys == s.shared.store.orders.Keys + (if commits then {s.shared.store.orderSeq + 1} else {})
  {
    var s1 := Next(Rules(), s, Go(i, commits, Unknown));
    assert s1.calls[i].xpc == XSend && s1.calls[i].id == s.shared.store.orderSeq + 1;
  }

  // An unknown answer gives the flag back and keeps the position.
  lemma UnknownLetsGo(s: System, i: nat)
    requires i < |s.calls| && s.calls[i].Exit? && s.calls[i].xpc == XWait && s.calls[i].symbol == "A"
    ensures var cfg, go := Rules(), Go(i, true, Unknown);
            var s' := Next(cfg, Next(cfg, Next(cfg, s, go), go), go);
            && s'.shared.inFlight == s.shared.inFlight - {"A"} && s'.shared.risk == s.shared.risk
            && s'.shared.log == s.shared.log + [ExitAnswered("A", Unknown)] && |s'.calls| == |s.calls|
  {
    var s1 := Next(Rules(), s, Go(i, true, Unknown));
    assert s1.calls[i].xpc == XMark && s1.calls[i].reply == Some(Unknown);
    var s2 := Next(Rules(), s1, Go(i, true, Unknown));
    assert s2.calls[i].xpc == XRelease;
  }

  function TwoExits(): seq<Action> {
    [StartExit("A", None), Go(0, true, Unknown), Go(0, true, Unknown), Go(0, true, Unknown), Go(0, true, Unknown),
     Go(0, true, Unknown), Go(0, true, Unknown), Go(0, true, Unknown),
     StartExit("A", None), Go(1, true, Unknown), Go(1, true, Unknown), Go(1, true, Unknown), Go(1, true, Unknown)]
  }

  // After an unknown answer a second exit goes out: two orders, each for the whole position,
  // may be live at once.
  lemma TwoExitsLive()
    ensures Run(Rules(), Session(Holding()), TwoExits()).shared.log
         == [ExitSent("A", Sell, 1), ExitAnswered("A", Unknown), ExitSent("A", Sell, 1)]
  {
    var cfg, start := Rules(), Session(Holding());
    var go0, go1 := Go(0, true, Unknown), Go(1, true, Unknown);
    ExitGetsReady(start);
    var s3 := Next(cfg, Next(cfg, Next(cfg, start, StartExit("A", None)), go0), go0);
    ReadySends(s3, 0, true);
    var s5 := Next(cfg, Next(cfg, s3, go0), go0);
    UnknownLetsGo(s5, 0);
    var s8 := Next(cfg, Next(cfg, Next(cfg, s5, go0), go0), go0);
    ExitGetsReady(s8);
    var s11 := Next(cfg, Next(cfg, Next(cfg, s8, StartExit("A", None)), go1), go1);
    ReadySends(s11, 1, true);
    TwoExitsRun(cfg, start);
  }

  lemma TwoExitsRun(cfg: RiskConfig, start: System)
    ensures var go0, go1, exit := Go(0, true, Unknown), Go(1, true, Unknown), StartExit("A", None);
            var s3 := Next(cfg, Next(cfg, Next(cfg, start, exit), go0), go0);
            var s5 := Next(cfg, Next(cfg, s3, go0), go0);
            var s8 := Next(cfg, Next(cfg, Next(cfg, s5, go0), go0), go0);
            var s11 := Next(cfg, Next(cfg, Next(cfg, s8, exit), go1), go1);
            Run(cfg, start, TwoExits()) == Next(cfg, Next(cfg, s11, go1), go1)
  {
    var go0, go1, exit := Go(0, true, Unknown), Go(1, true, Unknown), StartExit("A", None);
    var none: seq<Action> := [];
    RunOneMore(cfg, start, none, exit);
    var a1 := none + [exit];
    RunOneMore(cfg, start, a1, go0);
    RunOneMore(cfg, start, a1 + [go0], go0);
    var a3 := a1 + [go0] + [go0];
    RunOneMore(cfg, start, a3, go0);
    RunOneMore(cfg, start, a3 + [go0], go0);
    var a5 := a3 + [go0] + [go0];
    RunOneMore(cfg, start, a5, go0);
    RunOneMore(cfg, start, a5 + [go0], go0);
    RunOneMore(cfg, start, a5 + [go0] + [go0], go0);
    var a8 := a5 + [go0] + [go0] + [go0];
    RunOneMore(cfg, start, a8, exit);
    RunOneMore(cfg, start, a8 + [exit], go1);
    RunOneMore(cfg, start, a8 + [exit] + [go1], go1);
    var a11 := a8 + [exit] + [go1] + [go1];
    RunOneMore(cfg, start, a11, go1);
    RunOneMore(cfg, start, a11 + [go1], go1);
    assert a11 + [go1] + [go1] == TwoExits();
  }

  function UnwrittenExit(): seq<Action> {
    [StartExit("A", None), Go(0, true, Unknown), Go(0, true, Unknown), Go(0, false, Unknown), Go(0, true, Unknown)]
  }

  // An exit whose intent could not be written is at the broker, and the store knows no order.
  lemma ExitWithoutRow()
    ensures var last := Run(Rules(), Session(Holding()), UnwrittenExit()).shared;
            last.sentExits == {1} && last.store.orders == map[]
  {
    var cfg, start := Rules(), Session(Holding());
    var exit, go, fails := StartExit("A", None), Go(0, true, Unknown), Go(0, false, Unknown);
    ExitGetsReady(start);
    var s3 := Next(cfg, Next(cfg, Next(cfg, start, exit), go), go);
    ReadySends(s3, 0, false);
    var none: seq<Action> := [];
    RunOneMore(cfg, start, none, exit);
    RunOneMore(cfg, start, none + [exit], go);
    RunOneMore(cfg, start, none + [exit] + [go], go);
    RunOneMore(cfg, start, none + [exit] + [go] + [go], fails);
    RunOneMore(cfg, start, none + [exit] + [go] + [go] + [fails], go);
    assert none + [exit] + [go] + [go] + [fails] + [go] == UnwrittenExit();
  }
}
