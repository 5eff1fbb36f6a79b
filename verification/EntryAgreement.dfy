/** Whether the risk book holds what the broker filled: live always, on paper not always. */
module EntryAgreement {
  import opened Common
  import opened Charges
  import opened RiskModel
  import opened StoreModel
  import opened OrderProtocol
  import opened TradingEngine
  import OrderOutcome
  import SignedBook
  import PaperCash

  // What the engine makes of the live broker's outcome: anything but a fill or an
  // indeterminate order is a rejection to it.
  function AnswerOf(o: OrderOutcome.Outcome): Answer {
    match o
    case Rejected => Reject
    case CancelledUnfilled => Reject
    case Filled(quantity, price) => Fill(quantity, price)
    case Indeterminate => Unknown
  }

  // An entry sent to the live broker, which books what it fills. A filled entry leaves risk book
  // and durable position at the same quantity and price, those the exchange filled, and so does
  // the broker's own book, where the symbol was flat. A rejected entry is out of the risk book;
  // the exchange may have filled some of it only if the reply to its submission was lost.
  method PlaceLiveEntry(te: Engine, broker: SignedBook.AngelBook, req: EntryRequest, script: Script, order: OrderOutcome.Order)
    returns (result: EntryResult)
    modifies te, te.risk, te.store, broker
    ensures result.EntryFilled? ==>
              && req.symbol in te.risk.open
              && te.risk.open[req.symbol].quantity == result.quantity > 0
              && te.risk.open[req.symbol].entryPrice == result.price > 0.0
              && (script.recordCommits ==>
                    result.positionId in te.store.positions
                    && te.store.positions[result.positionId].quantity == result.quantity
                    && te.store.positions[result.positionId].entryPrice == result.price)
              && (OrderOutcome.Truthful(order) ==> order.filled == result.quantity)
              && broker.positions == SignedBook.Apply(old(broker.positions), SignedBook.Fill(req.symbol, result.quantity, result.price, req.side))
              && (req.symbol !in old(broker.positions) ==>
                    req.symbol in broker.positions
                    && broker.positions[req.symbol] == SignedBook.Holding(result.quantity, result.price, req.side))
    ensures !result.EntryFilled? ==> broker.positions == old(broker.positions)
    ensures result.EntryRejected? ==>
              && req.symbol !in te.risk.open
              && (OrderOutcome.NeverFills(order) <==> !order.submission.ReplyLost?)
  {
    var outcome := OrderOutcome.PlaceOrder(order);
    var told := script.(answer := AnswerOf(outcome));
    ghost var before := te.View();
    result := te.PlaceEntryOrder(req, told);
    if result.EntryFilled? {
      FilledEntryAgreesIff(te.risk.cfg, before, req, told);
      broker.UpdatePosition(req.symbol, result.quantity, result.price, req.side);
    } else if result.EntryRejected? {
      RejectedEntryIsGone(te.risk.cfg, before, req, told);
    }
  }

  // An entry told to be rejected is rolled back, whether or not the symbol was held.
  lemma RejectedEntryIsGone(cfg: RiskConfig, s: Shared, req: EntryRequest, script: Script)
    requires EntryResultOf(Alone(cfg, s, NewEntry(req), script).1).EntryRejected?
    ensures script.answer.Reject? && req.symbol !in Alone(cfg, s, NewEntry(req), script).0.risk.open
  {
    var sent, s1, c1 := EntryUpToSend(cfg, s, req, script);
    EntryAfterAnswer(cfg, s1, c1, script);
  }

  // ---- On paper ----

  function Rules(): RiskConfig {
    RiskConfig((price: real, quantity: int, t: TradeType, side: Side) => 0.0,
               StopLossConfig(false, Percentage, 0.0, false, 0.0), 100.0, 20)
  }

  function Session(): Shared {
    Shared(RiskState(1000.0, 1000.0, 0.0, 0.0, false, [], map[]), StoreState(map[], map[], 0, 0), {}, {}, {}, map[], [])
  }

  // What the paper broker gives for so large a sale, at its default spreads.
  function PaperPrice(symbol: Symbol): real {
    PaperCash.SimulatedFillPrice(PaperCash.DEFAULT_FILLS, symbol, Sell, 100.0, 334.0)
  }

  // A large sale of an option, filled in part.
  function FreeSale(): Script {
    Script(100.0, 0, 0, true, Fill(4000000, PaperPrice(LargeSale().symbol)), true, true)
  }

  function LargeSale(): EntryRequest {
    EntryRequest("X1CE", 8366700, Sell, OptCarry, 500.0)
  }

  // A fill without a positive price leaves the risk book at the quantity requested.
  lemma FreeFillKeepsRequest(cfg: RiskConfig, s: Shared, req: EntryRequest, script: Script)
    requires Alone(cfg, s, NewEntry(req), script).1.reply.Some? && script.answer.Fill? && script.answer.price <= 0.0
    ensures var (s', c') := Alone(cfg, s, NewEntry(req), script);
            && EntryResultOf(c') == EntryFilled(script.answer.quantity, script.answer.price, s.store.positionSeq + 1)
            && req.symbol in s'.risk.open && s'.risk.open[req.symbol].quantity == req.quantity
            && (script.recordCommits ==>
                  s.store.positionSeq + 1 in s'.store.positions
                  && s'.store.positions[s.store.positionSeq + 1].quantity == script.answer.quantity)
  {
    var sent, s1, c1 := EntryUpToSend(cfg, s, req, script);
    EntryAfterAnswer(cfg, s1, c1, script);
  }

  // The store records the 4000000 that filled, the risk book keeps the 8366700 requested.
  lemma FreePartialSaleDisagrees()
    ensures var (s, c) := Alone(Rules(), Session(), NewEntry(LargeSale()), FreeSale());
            && EntryResultOf(c) == EntryFilled(4000000, 0.0, 1)
            && 1 in s.store.positions && s.store.positions[1].quantity == 4000000
            && "X1CE" in s.risk.open && s.risk.open["X1CE"].quantity == 8366700
  {
    FreeSaleAnswer();
    LargeSaleIsSent();
    FreeFillKeepsRequest(Rules(), Session(), LargeSale(), FreeSale());
  }

  lemma FreeSaleAnswer()
    ensures FreeSale().answer == Fill(4000000, 0.0)
  {
    PaperCash.LargeSaleIsFree();
  }

  lemma LargeSaleIsSent()
    ensures Alone(Rules(), Session(), NewEntry(LargeSale()), FreeSale()).1.reply.Some?
  {
    var cfg, c := Rules(), NewEntry(LargeSale());
    AloneStep(cfg, Session(), c, FreeSale());
    var (s1, c1) := CallStep(cfg, Session(), c, EnvFor(FreeSale(), c));
    assert c1.epc.EIntent? && s1.risk == Session().risk;
    AloneStep(cfg, s1, c1, FreeSale());
    var (s2, c2) := CallStep(cfg, s1, c1, EnvFor(FreeSale(), c1));
    assert c2.epc.EOpen? && s2.risk == Session().risk;
    AloneStep(cfg, s2, c2, FreeSale());
    var (s3, c3) := CallStep(cfg, s2, c2, EnvFor(FreeSale(), c2));
    assert c3.epc.ESend?;
    AloneStep(cfg, s3, c3, FreeSale());
    var (s4, c4) := CallStep(cfg, s3, c3, EnvFor(FreeSale(), c3));
    assert c4.epc.EWait?;
    EntryAfterAnswer(cfg, s4, c4, FreeSale());
  }
}
