/**
  The orders screen: the search and status filter over the order list, and
  the new-order form whose item lines are added, removed and edited before
  the order is submitted with its computed total. Item ids drawn from the
  clock are parameters; prices are integer cents.
 */
module OrdersManagement {
  import opened Seqs
  import opened Text
  import opened Page

  /** The order search: customer name (case-folded), phone or order id contains the query. */
  predicate MatchesOrderSearch(o: Order, query: string)
  {
    || Contains(Lower(o.customerName), Lower(query))
    || Contains(o.customerPhone, query)
    || Contains(o.id, query)
  }

  /** The status filter: "all", or the order's status name. */
  predicate MatchesStatus(o: Order, statusFilter: string)
  {
    statusFilter == "all" || StatusName(o.status) == statusFilter
  }

  function MatchesOrder(query: string, statusFilter: string): Order -> bool
  {
    (o: Order) => MatchesOrderSearch(o, query) && MatchesStatus(o, statusFilter)
  }

  /** `filteredOrders`: the orders passing both the search and the status filter, in list order. */
  function FilteredOrders(orders: seq<Order>, query: string, statusFilter: string): (r: seq<Order>)
    ensures forall o :: o in r <==> o in orders && MatchesOrderSearch(o, query) && MatchesStatus(o, statusFilter)
    ensures forall o :: multiset(r)[o] == if MatchesOrderSearch(o, query) && MatchesStatus(o, statusFilter) then multiset(orders)[o] else 0
    ensures IsSubsequence(r, orders)
    ensures statusFilter != "all" ==> forall o :: o in r ==> StatusName(o.status) == statusFilter
  {
    FilterIsSubsequence(MatchesOrder(query, statusFilter), orders);
    FilterMultiplicity(MatchesOrder(query, statusFilter), orders);
    Filter(MatchesOrder(query, statusFilter), orders)
  }

  /** With status "all" and an empty query the whole list is shown. */
  lemma NoFilterShowsAllOrders(orders: seq<Order>)
    ensures FilteredOrders(orders, "", "all") == orders
  {
    forall o | o in orders
      ensures MatchesOrder("", "all")(o)
    {
      ContainsEmpty(Lower(o.customerName));
    }
    FilterKeepsAll(MatchesOrder("", "all"), orders);
  }

  /** The new-order form (`newOrder`). */
  datatype OrderForm = OrderForm(
    customerId: string,
    customerName: string,
    customerPhone: string,
    items: seq<OrderItem>,
    status: OrderStatus,
    notes: string)

  /** The line a new form starts with, and the one `handleAddItem` appends under a fresh id. */
  function BlankItem(id: string): OrderItem
  {
    OrderItem(id, "", 1, 0)
  }

  /** The form as first shown and as reset after a submit. */
  const EmptyForm := OrderForm("", "", "", [BlankItem("1")], Pending, "")

  /** `handleAddItem`: one blank line is appended; the existing lines stay. */
  function AddItem(form: OrderForm, newId: string): (r: OrderForm)
    ensures |r.items| == |form.items| + 1 && r.items[..|form.items|] == form.items
    ensures r.items[|form.items|] == OrderItem(newId, "", 1, 0)
    ensures r == form.(items := r.items)
  {
    form.(items := form.items + [BlankItem(newId)])
  }

  function KeepsItem(id: string): OrderItem -> bool
  {
    (item: OrderItem) => item.id != id
  }

  /** `handleRemoveItem`: every line with this id goes, the others keep their order. */
  function RemoveItem(form: OrderForm, id: string): (r: OrderForm)
    ensures forall item :: item in r.items <==> item in form.items && item.id != id
    ensures forall item :: multiset(r.items)[item] == if item.id != id then multiset(form.items)[item] else 0
    ensures IsSubsequence(r.items, form.items)
    ensures r == form.(items := r.items)
  {
    FilterIsSubsequence(KeepsItem(id), form.items);
    FilterMultiplicity(KeepsItem(id), form.items);
    form.(items := Filter(KeepsItem(id), form.items))
  }

  /** The field `handleItemChange` writes, with its new value. */
  datatype ItemChange = SetId(id: string) | SetName(name: string) | SetQuantity(quantity: int) | SetPrice(price: int)

  /** `{ ...item, [field]: value }`. */
  function ApplyChange(item: OrderItem, change: ItemChange): OrderItem
  {
    match change
    case SetId(v) => item.(id := v)
    case SetName(v) => item.(name := v)
    case SetQuantity(v) => item.(quantity := v)
    case SetPrice(v) => item.(price := v)
  }

  /** `handleItemChange`: the lines with this id get the one field changed; everything else stays. */
  function ChangeItem(form: OrderForm, id: string, change: ItemChange): (r: OrderForm)
    ensures |r.items| == |form.items|
    ensures forall i :: 0 <= i < |form.items| && form.items[i].id != id ==> r.items[i] == form.items[i]
    ensures forall i :: 0 <= i < |form.items| && form.items[i].id == id ==> r.items[i] == ApplyChange(form.items[i], change)
    ensures r == form.(items := r.items)
  {
    form.(items := seq(|form.items|, i requires 0 <= i < |form.items| =>
      if form.items[i].id == id then ApplyChange(form.items[i], change) else form.items[i]))
  }

  /** A change of one field leaves the other three of the line as they were. */
  lemma ChangeItemTouchesOneField(form: OrderForm, id: string, change: ItemChange, i: nat)
    requires i < |form.items|
    ensures var before, after := form.items[i], ChangeItem(form, id, change).items[i];
      && (after.id == before.id || change.SetId?)
      && (after.name == before.name || change.SetName?)
      && (after.quantity == before.quantity || change.SetQuantity?)
      && (after.price == before.price || change.SetPrice?)
  {
  }

  /** `calculateTotal`: the sum of quantity times price, folded from the first line. */
  function CalculateTotal(items: seq<OrderItem>): int
  {
    if items == [] then 0
    else CalculateTotal(items[..|items| - 1]) + items[|items| - 1].quantity * items[|items| - 1].price
  }

  /** The total is additive over a split of the lines. */
  lemma {:induction false} TotalAdditive(a: seq<OrderItem>, b: seq<OrderItem>)
    ensures CalculateTotal(a + b) == CalculateTotal(a) + CalculateTotal(b)
    decreases |b|
  {
    if b == [] {
      assert a + b == a;
    } else {
      var b' := b[..|b| - 1];
      assert (a + b)[..|a + b| - 1] == a + b';
      TotalAdditive(a, b');
    }
  }

  /** A blank line costs nothing, so adding one keeps the total. */
  lemma AddItemKeepsTotal(form: OrderForm, newId: string)
    ensures CalculateTotal(AddItem(form, newId).items) == CalculateTotal(form.items)
  {
    assert AddItem(form, newId).items == form.items + [BlankItem(newId)];
    TotalAdditive(form.items, [BlankItem(newId)]);
    assert [BlankItem(newId)][..0] == [];
  }

  /** The total of a fresh form is 0. */
  lemma EmptyFormTotal()
    ensures CalculateTotal(EmptyForm.items) == 0
  {
    assert EmptyForm.items[..0] == [];
  }

  /**
    `handleSubmitOrder`: the form is handed to the page with its computed
    total, and the form is reset to a single blank line with status pending.
   */
  function SubmitOrder(form: OrderForm): (r: (OrderDraft, OrderForm))
    ensures r.0.total == CalculateTotal(form.items)
    ensures r.0.items == form.items && r.0.status == form.status && r.0.notes == Some(form.notes)
    ensures r.0.customerId == form.customerId && r.0.customerName == form.customerName
    ensures r.0.customerPhone == form.customerPhone
    ensures r.1 == EmptyForm && r.1.items == [OrderItem("1", "", 1, 0)] && r.1.status == Pending
  {
    (OrderDraft(form.customerId, form.customerName, form.customerPhone, form.items,
                CalculateTotal(form.items), form.status, Some(form.notes)),
     EmptyForm)
  }

  /** `handleStatusUpdate`: an update carrying only the new status, so merging it changes nothing else. */
  function StatusPatch(status: OrderStatus): (r: OrderPatch)
    ensures forall o :: MergeOrder(o, r) == o.(status := status)
  {
    OrderPatch(None, None, None, None, None, None, Some(status), None, None)
  }
}
