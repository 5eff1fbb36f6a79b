/** How the live broker decides what became of an order it submitted. */
module OrderOutcome {
  import opened Common

  const POLL_ATTEMPTS := 10

  datatype OrderState = OrderState(status: string, price: real, quantity: int)

  datatype Outcome = Rejected | CancelledUnfilled | Filled(quantity: int, price: real) | Indeterminate

  // The statuses at which polling stops.
  predicate Terminal(status: string) {
    status == "complete" || status == "rejected" || status == "cancelled"
  }

  function Classify(last: OrderState, terminal: bool): Outcome {
    if last.status == "rejected" then Rejected
    else if last.status == "cancelled" && last.quantity <= 0 then CancelledUnfilled
    else if terminal && last.quantity > 0 && last.price > 0.0 then Filled(last.quantity, last.price)
    else Indeterminate
  }

  // The order book's replies within the budget; None is a failed request.
  function Replies(polls: seq<Option<OrderState>>): seq<Option<OrderState>> {
    if |polls| <= POLL_ATTEMPTS then polls else polls[..POLL_ATTEMPTS]
  }

  predicate IsTerminal(reply: Option<OrderState>) {
    reply.Some? && Terminal(reply.value.status)
  }

  // The last state the broker told; a failed request tells nothing.
  function LastTold(replies: seq<Option<OrderState>>): OrderState {
    if replies == [] then OrderState("", 0.0, 0)
    else if replies[|replies| - 1].Some? then replies[|replies| - 1].value
    else LastTold(replies[..|replies| - 1])
  }

  method PollOrderFill(polls: seq<Option<OrderState>>) returns (last: OrderState, terminal: bool, used: nat)
    ensures used <= |Replies(polls)|
    // it stops at the first terminal reply, or uses the whole budget
    ensures terminal <==> exists i :: 0 <= i < |Replies(polls)| && IsTerminal(Replies(polls)[i])
    ensures terminal ==> used > 0 && IsTerminal(Replies(polls)[used - 1]) && last == Replies(polls)[used - 1].value
                         && forall i :: 0 <= i < used - 1 ==> !IsTerminal(Replies(polls)[i])
    ensures !terminal ==> used == |Replies(polls)| && !Terminal(last.status)
    // a failed request keeps the last state told
    ensures last == LastTold(Replies(polls)[..used])
  {
    var replies := Replies(polls);
    last, terminal, used := OrderState("", 0.0, 0), false, 0;
    while used < |replies|
      invariant 0 <= used <= |replies|
      invariant forall i :: 0 <= i < used ==> !IsTerminal(replies[i])
      invariant !Terminal(last.status)
      invariant last == LastTold(replies[..used])
    {
      var reply := replies[used];
      assert replies[..used + 1][..used] == replies[..used];
      used := used + 1;
      if reply.Some? {
        last := reply.value;
        if Terminal(last.status) {
          return last, true, used;
        }
      }
    }
  }

  // Polling ends on the first terminal reply, and its state alone decides: a fill exactly
  // when the order was not killed and the quantity and price are positive, and then with
  // these; dead exactly when rejected, or cancelled with nothing filled. Everything else,
  // above all an exhausted budget, is indeterminate.
  method Resolve(polls: seq<Option<OrderState>>) returns (outcome: Outcome)
    ensures outcome.Filled? <==> EndsOn(Replies(polls), Usable)
    ensures outcome.Filled? ==> exists i :: 0 <= i < |Replies(polls)| && Reports(Replies(polls), i, outcome)
    ensures outcome.Rejected? <==> EndsOn(Replies(polls), IsRejected)
    ensures outcome.CancelledUnfilled? <==> EndsOn(Replies(polls), IsCancelledEmpty)
    ensures outcome.Indeterminate? <==> (NoneTerminal(Replies(polls)) || EndsOn(Replies(polls), Unusable))
    // in the order book's own words, of the first ten replies
    ensures forall i :: 0 <= i < |polls| && i < 10 && SettlesAt(polls, i) ==> outcome == Settled(polls[i].value)
    ensures (forall i :: 0 <= i < |polls| && i < 10 ==> !SettlesAt(polls, i)) ==> outcome == Indeterminate
  {
    var last, terminal, used := PollOrderFill(polls);
    outcome := Classify(last, terminal);
    if terminal {
      assert FirstTerminal(Replies(polls), used - 1);
      assert outcome.Filled? ==> Reports(Replies(polls), used - 1, outcome);
    }
    InWords(polls, last, terminal, used);
  }

  // The reply that ends the polling is the first one that says the order is over.
  lemma InWords(polls: seq<Option<OrderState>>, last: OrderState, terminal: bool, used: nat)
    requires used <= |Replies(polls)| && (!terminal ==> NoneTerminal(Replies(polls)) && !Terminal(last.status))
    requires terminal ==> used > 0 && FirstTerminal(Replies(polls), used - 1) && last == Replies(polls)[used - 1].value
    ensures forall i :: 0 <= i < |polls| && i < 10 && SettlesAt(polls, i) ==> Classify(last, terminal) == Settled(polls[i].value)
    ensures (forall i :: 0 <= i < |polls| && i < 10 ==> !SettlesAt(polls, i)) ==> Classify(last, terminal) == Indeterminate
  {
    WordsSettle(polls);
    if terminal {
      OnlyOneSettles(polls, used - 1);
    }
  }

  lemma OnlyOneSettles(polls: seq<Option<OrderState>>, i: nat)
    requires i < |polls| && SettlesAt(polls, i)
    ensures forall j :: 0 <= j < |polls| && SettlesAt(polls, j) ==> j == i
  {
  }

  predicate Says(reply: Option<OrderState>, status: string) {
    reply.Some? && reply.value.status == status
  }

  // The first reply that says the order is over.
  predicate SettlesAt(polls: seq<Option<OrderState>>, i: int)
    requires 0 <= i < |polls|
  {
    && (Says(polls[i], "complete") || Says(polls[i], "rejected") || Says(polls[i], "cancelled"))
    && forall j :: 0 <= j < i ==> !Says(polls[j], "complete") && !Says(polls[j], "rejected") && !Says(polls[j], "cancelled")
  }

  // What such a reply means.
  function Settled(s: OrderState): Outcome {
    if s.status == "rejected" then Rejected
    else if s.status == "cancelled" && s.quantity <= 0 then CancelledUnfilled
    else if s.quantity <= 0 || s.price <= 0.0 then Indeterminate
    else Filled(s.quantity, s.price)
  }

  predicate NoneTerminal(replies: seq<Option<OrderState>>) {
    forall i :: 0 <= i < |replies| ==> !IsTerminal(replies[i])
  }

  predicate FirstTerminal(replies: seq<Option<OrderState>>, i: int)
    requires 0 <= i < |replies|
  {
    IsTerminal(replies[i]) && forall j :: 0 <= j < i ==> !IsTerminal(replies[j])
  }

  // The first terminal reply is of this kind.
  predicate EndsOn(replies: seq<Option<OrderState>>, kind: OrderState -> bool) {
    exists i :: 0 <= i < |replies| && FirstTerminal(replies, i) && kind(replies[i].value)
  }

  predicate IsRejected(s: OrderState) {
    s.status == "rejected"
  }

  predicate IsCancelledEmpty(s: OrderState) {
    s.status == "cancelled" && s.quantity <= 0
  }

  predicate Usable(s: OrderState) {
    !IsRejected(s) && !IsCancelledEmpty(s) && s.quantity > 0 && s.price > 0.0
  }

  // Neither dead nor carrying a usable fill.
  predicate Unusable(s: OrderState) {
    !IsRejected(s) && !IsCancelledEmpty(s) && (s.quantity <= 0 || s.price <= 0.0)
  }

  // The first terminal reply is the fill the outcome gives.
  predicate Reports(replies: seq<Option<OrderState>>, i: int, outcome: Outcome)
    requires 0 <= i < |replies| && outcome.Filled?
  {
    && FirstTerminal(replies, i)
    && replies[i].value.quantity == outcome.quantity > 0
    && replies[i].value.price == outcome.price > 0.0
  }

  lemma WordsSettle(polls: seq<Option<OrderState>>)
    ensures forall i :: 0 <= i < |polls| && i < 10 ==>
              i < |Replies(polls)| && Replies(polls)[i] == polls[i] && (SettlesAt(polls, i) <==> FirstTerminal(Replies(polls), i))
    ensures |Replies(polls)| == if |polls| < 10 then |polls| else 10
  {
  }

  // ---- Submitting an order ----

  // What came of handing an order in: it was turned away (by the client, its circuit breaker or
  // the broker's reply), accepted under an id, or no reply could be read, which does not tell
  // whether the order arrived.
  datatype Submission = TurnedAway | Accepted | ReplyLost

  // An order as it went: its submission, the order book's replies, and how much the exchange
  // fills of it in the end.
  datatype Order = Order(submission: Submission, polls: seq<Option<OrderState>>, filled: int)

  // How much a terminal state says was filled.
  function FilledBy(s: OrderState): int {
    if s.status == "rejected" || s.quantity <= 0 then 0 else s.quantity
  }

  // The exchange fills nothing of an order turned away, and a terminal state is its last word.
  predicate Truthful(o: Order) {
    && 0 <= o.filled
    && (o.submission.TurnedAway? ==> o.filled == 0)
    && (o.submission.Accepted? ==> forall i :: 0 <= i < |o.polls| && IsTerminal(o.polls[i]) ==> o.filled == FilledBy(o.polls[i].value))
  }

  // An outcome that the engine takes for an order that is gone without a fill.
  predicate Dead(told: Outcome) {
    told.Rejected? || told.CancelledUnfilled?
  }

  // Every failure to submit is told as a rejection, a lost reply among them. A fill told is what
  // the exchange filled. An order told to be dead can have filled nothing, if and only if its
  // submission got a reply.
  method PlaceOrder(o: Order) returns (told: Outcome)
    ensures !o.submission.Accepted? ==> told == Rejected
    ensures told.Filled? ==> o.submission.Accepted? && told.quantity > 0 && told.price > 0.0 && (Truthful(o) ==> o.filled == told.quantity)
    ensures Dead(told) ==> (NeverFills(o) <==> !o.submission.ReplyLost?)
  {
    if !o.submission.Accepted? {
      LostReplyTellsNothing(o);
      return Rejected;
    }
    told := Resolve(o.polls);
    if told.Filled? {
      var i :| 0 <= i < |Replies(o.polls)| && Reports(Replies(o.polls), i, told);
      assert Replies(o.polls)[i] == o.polls[i];
    } else if Dead(told) {
      DeadIsLastWord(o, if told.Rejected? then IsRejected else IsCancelledEmpty);
    }
  }

  // Whatever the exchange truthfully fills of the order, it is nothing.
  ghost predicate NeverFills(o: Order) {
    forall filled: int :: Truthful(o.(filled := filled)) ==> filled == 0
  }

  lemma LostReplyTellsNothing(o: Order)
    requires !o.submission.Accepted?
    ensures NeverFills(o) <==> !o.submission.ReplyLost?
  {
    if o.submission.ReplyLost? {
      assert Truthful(o.(filled := 1));
    }
  }

  lemma DeadIsLastWord(o: Order, kind: OrderState -> bool)
    requires o.submission.Accepted? && EndsOn(Replies(o.polls), kind)
    requires forall s: OrderState :: kind(s) ==> FilledBy(s) == 0
    ensures NeverFills(o)
  {
    var i :| 0 <= i < |Replies(o.polls)| && FirstTerminal(Replies(o.polls), i) && kind(Replies(o.polls)[i].value);
    assert Replies(o.polls)[i] == o.polls[i];
    assert FilledBy(o.polls[i].value) == 0;
  }
}
