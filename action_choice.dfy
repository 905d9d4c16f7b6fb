/** Which actions the action-choice screen offers (ActionChoiceScreen.tsx):
    taking tools when some order is requested, returning them when some order
    is in progress, and a 'no active orders' message when neither. */
module ActionChoice {
  import opened Wrappers
  import opened Domain
  import opened OrderSelection

  /** orders.some(order => order.status === status), scanning from the front. */
  function AnyWithStatus(orders: seq<Order>, status: string): (b: bool)
    ensures b <==> exists i :: 0 <= i < |orders| && orders[i].status == status
  {
    if orders == [] then false
    else if orders[0].status == status then true
    else
      assert forall i :: 1 <= i < |orders| ==> orders[i] == orders[1..][i - 1];
      AnyWithStatus(orders[1..], status)
  }

  function IsTakeActive(orders: seq<Order>): bool {
    AnyWithStatus(orders, Requested)
  }

  function IsReturnActive(orders: seq<Order>): bool {
    AnyWithStatus(orders, InProgress)
  }

  /** The buttons the screen shows, and whether the message is shown. */
  datatype Choices = Choices(takeShown: bool, returnShown: bool, noActiveOrders: bool)

  function ChoicesFor(orders: seq<Order>): Choices {
    var take, ret := IsTakeActive(orders), IsReturnActive(orders);
    Choices(take, ret, !take && !ret)
  }

  /** A button is shown exactly when the next screen would list some order for
      its action; the message is shown exactly when neither button is. */
  lemma ChoicesMatchFilter(orders: seq<Order>)
    ensures ChoicesFor(orders).takeShown <==> FilteredOrders(orders, Some(Take)) != []
    ensures ChoicesFor(orders).returnShown <==> FilteredOrders(orders, Some(Return)) != []
    ensures ChoicesFor(orders).noActiveOrders <==> !ChoicesFor(orders).takeShown && !ChoicesFor(orders).returnShown
  {
    forall a: Action
      ensures FilteredOrders(orders, Some(a)) != [] <==> exists i :: 0 <= i < |orders| && orders[i].status == StatusFor(a)
    {
      FilteredByStatus(orders, a);
      var r := FilteredOrders(orders, Some(a));
      if r != [] {
        assert r[0] in orders;
      }
      if i :| 0 <= i < |orders| && orders[i].status == StatusFor(a) {
        assert orders[i] in r;
      }
    }
  }

  /** With no orders the screen shows only the message. */
  lemma NoOrdersNoChoices()
    ensures ChoicesFor([]) == Choices(false, false, true)
  {
  }

  /** Only the statuses matter: orders with the same statuses, position by
      position, offer the same choices. */
  lemma OnlyStatusesMatter(a: seq<Order>, b: seq<Order>)
    requires |a| == |b| && forall i :: 0 <= i < |a| ==> a[i].status == b[i].status
    ensures ChoicesFor(a) == ChoicesFor(b)
  {
    assert IsTakeActive(a) == IsTakeActive(b);
    assert IsReturnActive(a) == IsReturnActive(b);
  }

  /** Both buttons at once: a requested order and an order in progress. */
  lemma BothChoices(requested: Order, inProgress: Order)
    requires requested.status == Requested && inProgress.status == InProgress
    ensures ChoicesFor([requested, inProgress]) == Choices(true, true, false)
  {
    assert [requested, inProgress][0] == requested;
    assert [requested, inProgress][1] == inProgress;
  }
}
