/** The durable store: order attempts and position records keyed by id. */
module StoreModel {
  import opened Common

  datatype OrderStatus = Intent | Filled | Partial | Rejected | Indeterminate | Cancelled

  datatype OrderRow = OrderRow(
    symbol: Symbol, side: Side, quantity: int, price: real,
    status: OrderStatus, filledQuantity: int, filledPrice: real)

  datatype PositionRow = PositionRow(
    symbol: Symbol, side: Side, quantity: int, entryPrice: real, exitPrice: real, isOpen: bool)

  datatype StoreState = StoreState(
    orders: map<nat, OrderRow>, positions: map<nat, PositionRow>, orderSeq: nat, positionSeq: nat)

  // A write either commits whole or, when the transaction fails, leaves the store as it was.

  function SaveAttempt(s: StoreState, id: nat, row: OrderRow, commits: bool): StoreState {
    if commits then s.(orders := s.orders[id := row]) else s
  }

  function MarkResolved(s: StoreState, id: nat, status: OrderStatus, quantity: int, price: real, commits: bool): StoreState {
    if commits && id in s.orders then
      s.(orders := s.orders[id := s.orders[id].(status := status, filledQuantity := quantity, filledPrice := price)])
    else s
  }

  function SavePosition(s: StoreState, id: nat, row: PositionRow, commits: bool): StoreState {
    if commits then s.(positions := s.positions[id := row]) else s
  }

  function ClosePositionRow(s: StoreState, id: nat, exitPrice: real, commits: bool): StoreState {
    if commits && id in s.positions then
      s.(positions := s.positions[id := s.positions[id].(isOpen := false, exitPrice := exitPrice)])
    else s
  }

  // The attempts a restart has to settle against the broker's order book.
  function Unresolved(s: StoreState): set<nat> {
    set id | id in s.orders && (s.orders[id].status.Intent? || s.orders[id].status.Indeterminate?)
  }

  class Store {
    var orders: map<nat, OrderRow>
    var positions: map<nat, PositionRow>
    var orderSeq: nat
    var positionSeq: nat

    function View(): StoreState
      reads this
    {
      StoreState(orders, positions, orderSeq, positionSeq)
    }

    constructor ()
      ensures View() == StoreState(map[], map[], 0, 0)
    {
      orders, positions, orderSeq, positionSeq := map[], map[], 0, 0;
    }

    method NextClientOrderId() returns (id: nat)
      modifies this`orderSeq
      ensures id == old(orderSeq) + 1
      ensures View() == old(View()).(orderSeq := id)
    {
      orderSeq := orderSeq + 1;
      id := orderSeq;
    }

    method NextPositionId() returns (id: nat)
      modifies this`positionSeq
      ensures id == old(positionSeq) + 1
      ensures View() == old(View()).(positionSeq := id)
    {
      positionSeq := positionSeq + 1;
      id := positionSeq;
    }

    method SaveOrderAttempt(id: nat, row: OrderRow, commits: bool) returns (ok: bool)
      modifies this`orders
      ensures ok == commits
      ensures View() == SaveAttempt(old(View()), id, row, commits)
    {
      if !commits {
        return false;
      }
      orders := orders[id := row];
      return true;
    }

    method MarkOrderResolved(id: nat, status: OrderStatus, quantity: int, price: real, commits: bool)
      returns (ok: bool)
      modifies this`orders
      ensures ok == (commits && id in old(orders))
      ensures View() == MarkResolved(old(View()), id, status, quantity, price, commits)
    {
      if !commits || id !in orders {
        return false;
      }
      var row := orders[id];
      orders := orders[id := row.(status := status, filledQuantity := quantity, filledPrice := price)];
      return true;
    }

    method SavePositionRow(id: nat, row: PositionRow, commits: bool) returns (ok: bool)
      modifies this`positions
      ensures ok == commits
      ensures View() == SavePosition(old(View()), id, row, commits)
    {
      if !commits {
        return false;
      }
      positions := positions[id := row];
      return true;
    }

    method CloseRow(id: nat, exitPrice: real, commits: bool) returns (ok: bool)
      modifies this`positions
      ensures ok == (commits && id in old(positions))
      ensures View() == ClosePositionRow(old(View()), id, exitPrice, commits)
    {
      if !commits || id !in positions {
        return false;
      }
      var row := positions[id];
      positions := positions[id := row.(isOpen := false, exitPrice := exitPrice)];
      return true;
    }

    method ListUnresolved() returns (ids: set<nat>)
      ensures ids == Unresolved(View())
    {
      ids := set id | id in orders && (orders[id].status.Intent? || orders[id].status.Indeterminate?);
    }
  }
}
