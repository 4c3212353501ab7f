/**
  The order detail view: the fulfilment timeline and which of its steps
  are completed or current, the digits-only phone used for the WhatsApp
  link, the short order number, the status label, and the notes and
  status updates it sends to the page.
 */
module OrderDetails {
  import opened Seqs
  import opened Text
  import opened Page
  import OrdersManagement

  /** `orderTimeline`: the five fulfilment steps in order; cancellation is not a step. */
  const Timeline: seq<OrderStatus> := [Pending, Confirmed, Processing, Shipped, Delivered]

  function IsStatus(status: OrderStatus): OrderStatus -> bool
  {
    (s: OrderStatus) => s == status
  }

  /** `getCurrentStatusIndex`: the position of the status on the timeline, -1 when it is not on it. */
  function CurrentStatusIndex(status: OrderStatus): (r: int)
    ensures status == Cancelled <==> r == -1
    ensures r != -1 ==> 0 <= r < |Timeline| && Timeline[r] == status
  {
    FirstIndex(IsStatus(status), Timeline)
  }

  /** A step is completed when it is at or before the current one. */
  predicate IsCompleted(step: int, status: OrderStatus)
  {
    step <= CurrentStatusIndex(status)
  }

  /** A step is current when it is the current one. */
  predicate IsCurrent(step: int, status: OrderStatus)
  {
    step == CurrentStatusIndex(status)
  }

  /**
    The completed steps are a prefix of the timeline; a status on the
    timeline makes exactly its own step current, a cancelled order has no
    completed and no current step.
   */
  lemma TimelineSteps(status: OrderStatus)
    ensures forall i, j :: 0 <= i <= j < |Timeline| && IsCompleted(j, status) ==> IsCompleted(i, status)
    ensures status != Cancelled ==>
              exists k :: 0 <= k < |Timeline| && Timeline[k] == status
                && forall i :: 0 <= i < |Timeline| ==> (IsCurrent(i, status) <==> i == k)
    ensures status == Cancelled ==>
              forall i :: 0 <= i < |Timeline| ==> !IsCompleted(i, status) && !IsCurrent(i, status)
  {
    if status != Cancelled {
      var k := CurrentStatusIndex(status);
      assert 0 <= k < |Timeline| && Timeline[k] == status;
    }
  }

  /** The phone in the WhatsApp link: the digits of the customer's phone, in order. */
  function WhatsAppPhone(customerPhone: string): (r: string)
    ensures forall i :: 0 <= i < |r| ==> IsDigit(r[i])
    ensures IsSubsequence(r, customerPhone)
    ensures forall c :: IsDigit(c) ==> (c in r <==> c in customerPhone)
    ensures forall c :: multiset(r)[c] == if IsDigit(c) then multiset(customerPhone)[c] else 0
  {
    DigitsOnly(customerPhone)
  }

  /** A phone already written as digits only goes into the link unchanged. */
  lemma WhatsAppPhoneOfDigits(customerPhone: string)
    requires forall i :: 0 <= i < |customerPhone| ==> IsDigit(customerPhone[i])
    ensures WhatsAppPhone(customerPhone) == customerPhone
  {
    DigitsOnlyOfDigits(customerPhone);
  }

  /** `order.id.slice(-6)`: the last six characters of the id, or the whole id when shorter. */
  function ShortId(id: string): (r: string)
    ensures |r| == if |id| < 6 then |id| else 6
    ensures r == id[|id| - |r|..]
  {
    TakeLast(id, 6)
  }

  /** The status badge: the status name with its first letter upper-cased. */
  function StatusLabel(status: OrderStatus): (r: string)
    ensures |r| == |StatusName(status)|
    ensures r[0] == UpperChar(StatusName(status)[0]) && r[1..] == StatusName(status)[1..]
    ensures 'A' <= r[0] <= 'Z'
  {
    Capitalize(StatusName(status))
  }

  /** `handleNotesUpdate`: an update for this order carrying only the notes; editing ends. */
  function NotesUpdate(order: Order, notes: string): (r: (string, OrderPatch, bool))
    ensures r.0 == order.id && !r.2
    ensures forall o :: MergeOrder(o, r.1) == o.(notes := Some(notes))
  {
    (order.id, OrderPatch(None, None, None, None, None, None, None, None, Some(notes)), false)
  }

  /** `handleStatusUpdate`: an update for this order carrying only the new status. */
  function StatusUpdate(order: Order, status: OrderStatus): (r: (string, OrderPatch))
    ensures r.0 == order.id
    ensures forall o :: MergeOrder(o, r.1) == o.(status := status)
  {
    (order.id, OrdersManagement.StatusPatch(status))
  }

  /** Sending the notes update to the page changes the notes of this order and nothing else. */
  lemma NotesUpdateChangesOnlyNotes(orders: seq<Order>, order: Order, notes: string)
    ensures var u := NotesUpdate(order, notes);
            var r := UpdateOrder(orders, u.0, u.1);
            |r| == |orders| && forall i :: 0 <= i < |orders| ==>
              r[i] == if orders[i].id == order.id then orders[i].(notes := Some(notes)) else orders[i]
  {
  }
}
