/**
  The panel's home page: the contact and order records it keeps in state,
  and the `prev => next` transitions its handlers apply to them (add and
  delete contact, add, update and delete order) together with the search
  over the roster. Ids and timestamps, which the page draws from the
  clock, are parameters.
 */
module Page {
  import opened Seqs
  import opened Text

  datatype Contact = Contact(id: string, name: string, phone: string, tags: seq<string>, addedDate: string)

  /** A contact without the `id` and `addedDate` the page assigns. */
  datatype ContactDraft = ContactDraft(name: string, phone: string, tags: seq<string>)

  datatype OrderStatus = Pending | Confirmed | Processing | Shipped | Delivered | Cancelled

  /** The string each status is stored and compared as. */
  function StatusName(s: OrderStatus): string
  {
    match s
    case Pending => "pending"
    case Confirmed => "confirmed"
    case Processing => "processing"
    case Shipped => "shipped"
    case Delivered => "delivered"
    case Cancelled => "cancelled"
  }

  /** No two statuses share a name, so comparing names is comparing statuses. */
  lemma StatusNameInjective(a: OrderStatus, b: OrderStatus)
    ensures StatusName(a) == StatusName(b) <==> a == b
  {
    if a != b {
      assert Initials(StatusName(a)) != Initials(StatusName(b));
    }
  }

  /** The first two characters of a name, which already tell the statuses apart. */
  function Initials(name: string): (char, char)
  {
    if |name| < 2 then (' ', ' ') else (name[0], name[1])
  }

  /** One line of an order; `price` is in cents. */
  datatype OrderItem = OrderItem(id: string, name: string, quantity: int, price: int)

  datatype Order = Order(
    id: string,
    customerId: string,
    customerName: string,
    customerPhone: string,
    items: seq<OrderItem>,
    total: int,
    status: OrderStatus,
    orderDate: string,
    notes: Option<string>)

  /** An order without the `id` and `orderDate` the page assigns. */
  datatype OrderDraft = OrderDraft(
    customerId: string,
    customerName: string,
    customerPhone: string,
    items: seq<OrderItem>,
    total: int,
    status: OrderStatus,
    notes: Option<string>)

  /** A partial order: each present field overrides the order's own when spread over it. */
  datatype OrderPatch = OrderPatch(
    id: Option<string>,
    customerId: Option<string>,
    customerName: Option<string>,
    customerPhone: Option<string>,
    items: Option<seq<OrderItem>>,
    total: Option<int>,
    status: Option<OrderStatus>,
    orderDate: Option<string>,
    notes: Option<string>)

  const NoOrderChanges := OrderPatch(None, None, None, None, None, None, None, None, None)

  /** The value a spread leaves in one field. */
  function Over<T>(update: Option<T>, current: T): T
  {
    if update.Some? then update.value else current
  }

  /** `{ ...order, ...updates }`. */
  function MergeOrder(o: Order, p: OrderPatch): (r: Order)
    ensures p == NoOrderChanges ==> r == o
    ensures (p.id.Some? ==> r.id == p.id.value) && (p.id.None? ==> r.id == o.id)
    ensures (p.customerId.Some? ==> r.customerId == p.customerId.value) && (p.customerId.None? ==> r.customerId == o.customerId)
    ensures (p.customerName.Some? ==> r.customerName == p.customerName.value)
         && (p.customerName.None? ==> r.customerName == o.customerName)
    ensures (p.customerPhone.Some? ==> r.customerPhone == p.customerPhone.value)
         && (p.customerPhone.None? ==> r.customerPhone == o.customerPhone)
    ensures (p.items.Some? ==> r.items == p.items.value) && (p.items.None? ==> r.items == o.items)
    ensures (p.total.Some? ==> r.total == p.total.value) && (p.total.None? ==> r.total == o.total)
    ensures (p.status.Some? ==> r.status == p.status.value) && (p.status.None? ==> r.status == o.status)
    ensures (p.orderDate.Some? ==> r.orderDate == p.orderDate.value) && (p.orderDate.None? ==> r.orderDate == o.orderDate)
    ensures (p.notes.Some? ==> r.notes == p.notes) && (p.notes.None? ==> r.notes == o.notes)
  {
    Order(
      Over(p.id, o.id),
      Over(p.customerId, o.customerId),
      Over(p.customerName, o.customerName),
      Over(p.customerPhone, o.customerPhone),
      Over(p.items, o.items),
      Over(p.total, o.total),
      Over(p.status, o.status),
      Over(p.orderDate, o.orderDate),
      if p.notes.Some? then p.notes else o.notes)
  }

  /** Spreading the same patch a second time changes nothing more. */
  lemma MergeOrderIdempotent(o: Order, p: OrderPatch)
    ensures MergeOrder(MergeOrder(o, p), p) == MergeOrder(o, p)
  {
  }

  /** `addContact`: the new contact, with the given id and date, goes at the end. */
  function AddContact(contacts: seq<Contact>, draft: ContactDraft, id: string, addedDate: string): (r: seq<Contact>)
    ensures |r| == |contacts| + 1
    ensures r[..|contacts|] == contacts
    ensures r[|contacts|] == Contact(id, draft.name, draft.phone, draft.tags, addedDate)
  {
    contacts + [Contact(id, draft.name, draft.phone, draft.tags, addedDate)]
  }

  function KeepsContact(id: string): Contact -> bool
  {
    (c: Contact) => c.id != id
  }

  /** The roster without any contact carrying `id`, the rest in order. */
  function WithoutContact(contacts: seq<Contact>, id: string): (r: seq<Contact>)
    ensures forall c :: c in r <==> c in contacts && c.id != id
    ensures forall c :: multiset(r)[c] == if c.id != id then multiset(contacts)[c] else 0
    ensures IsSubsequence(r, contacts)
  {
    FilterIsSubsequence(KeepsContact(id), contacts);
    FilterMultiplicity(KeepsContact(id), contacts);
    Filter(KeepsContact(id), contacts)
  }

  function Keeps(v: string): string -> bool
  {
    (x: string) => x != v
  }

  /** `xs.filter(x => x !== v)`: every occurrence of `v` removed, the rest in order. */
  function Without(xs: seq<string>, v: string): (r: seq<string>)
    ensures v !in r
    ensures forall x :: x != v ==> (x in r <==> x in xs)
    ensures forall x :: multiset(r)[x] == if x != v then multiset(xs)[x] else 0
    ensures IsSubsequence(r, xs)
  {
    FilterIsSubsequence(Keeps(v), xs);
    FilterMultiplicity(Keeps(v), xs);
    Filter(Keeps(v), xs)
  }

  /** `deleteContact`: drops the contact from the roster and its id from the selection. */
  function DeleteContact(contacts: seq<Contact>, selected: seq<string>, id: string): (r: (seq<Contact>, seq<string>))
    ensures forall c :: c in r.0 <==> c in contacts && c.id != id
    ensures id !in r.1 && forall x :: x != id ==> (x in r.1 <==> x in selected)
    ensures forall c :: multiset(r.0)[c] == if c.id != id then multiset(contacts)[c] else 0
    ensures forall x :: multiset(r.1)[x] == if x != id then multiset(selected)[x] else 0
    ensures IsSubsequence(r.0, contacts) && IsSubsequence(r.1, selected)
  {
    (WithoutContact(contacts, id), Without(selected, id))
  }

  /** Deleting a contact that was just added under a fresh id restores the roster. */
  lemma DeleteUndoesAddContact(contacts: seq<Contact>, draft: ContactDraft, id: string, addedDate: string)
    requires forall c :: c in contacts ==> c.id != id
    ensures WithoutContact(AddContact(contacts, draft, id, addedDate), id) == contacts
  {
    var added := Contact(id, draft.name, draft.phone, draft.tags, addedDate);
    FilterAppend(KeepsContact(id), contacts, [added]);
    FilterKeepsAll(KeepsContact(id), contacts);
    assert Filter(KeepsContact(id), [added]) == [];
  }

  /** `addOrder`: the new order, with the given id and date, goes at the end. */
  function AddOrder(orders: seq<Order>, draft: OrderDraft, id: string, orderDate: string): (r: seq<Order>)
    ensures |r| == |orders| + 1
    ensures r[..|orders|] == orders
    ensures r[|orders|].id == id && r[|orders|].orderDate == orderDate
    ensures r[|orders|].customerId == draft.customerId && r[|orders|].customerName == draft.customerName
    ensures r[|orders|].customerPhone == draft.customerPhone
    ensures r[|orders|].items == draft.items && r[|orders|].total == draft.total
    ensures r[|orders|].status == draft.status && r[|orders|].notes == draft.notes
  {
    orders + [Order(id, draft.customerId, draft.customerName, draft.customerPhone,
                    draft.items, draft.total, draft.status, orderDate, draft.notes)]
  }

  /** `updateOrder`: every order with this id gets the patch spread over it; the others stay. */
  function UpdateOrder(orders: seq<Order>, id: string, patch: OrderPatch): (r: seq<Order>)
    ensures |r| == |orders|
    ensures forall i :: 0 <= i < |orders| && orders[i].id != id ==> r[i] == orders[i]
    ensures forall i :: 0 <= i < |orders| && orders[i].id == id ==> r[i] == MergeOrder(orders[i], patch)
  {
    seq(|orders|, i requires 0 <= i < |orders| =>
      if orders[i].id == id then MergeOrder(orders[i], patch) else orders[i])
  }

  /** Applying the same update twice is the same as applying it once. */
  lemma UpdateOrderIdempotent(orders: seq<Order>, id: string, patch: OrderPatch)
    ensures UpdateOrder(UpdateOrder(orders, id, patch), id, patch) == UpdateOrder(orders, id, patch)
  {
    var once := UpdateOrder(orders, id, patch);
    var twice := UpdateOrder(once, id, patch);
    forall i | 0 <= i < |orders|
      ensures twice[i] == once[i]
    {
      if orders[i].id == id {
        MergeOrderIdempotent(orders[i], patch);
      }
    }
  }

  function KeepsOrder(id: string): Order -> bool
  {
    (o: Order) => o.id != id
  }

  /** `deleteOrder` (and the local store's): drops every order with this id, the rest in order. */
  function WithoutOrder(orders: seq<Order>, id: string): (r: seq<Order>)
    ensures forall o :: o in r <==> o in orders && o.id != id
    ensures forall o :: multiset(r)[o] == if o.id != id then multiset(orders)[o] else 0
    ensures IsSubsequence(r, orders)
  {
    FilterIsSubsequence(KeepsOrder(id), orders);
    FilterMultiplicity(KeepsOrder(id), orders);
    Filter(KeepsOrder(id), orders)
  }

  /** Deleting an order that was just added under a fresh id restores the list. */
  lemma DeleteUndoesAddOrder(orders: seq<Order>, draft: OrderDraft, id: string, orderDate: string)
    requires forall o :: o in orders ==> o.id != id
    ensures WithoutOrder(AddOrder(orders, draft, id, orderDate), id) == orders
  {
    var added := AddOrder(orders, draft, id, orderDate)[|orders|];
    assert AddOrder(orders, draft, id, orderDate) == orders + [added];
    FilterAppend(KeepsOrder(id), orders, [added]);
    FilterKeepsAll(KeepsOrder(id), orders);
    assert Filter(KeepsOrder(id), [added]) == [];
  }

  /** The roster search: name, phone or one of the tags contains the query. */
  predicate MatchesContact(c: Contact, query: string)
  {
    || Contains(Lower(c.name), Lower(query))
    || Contains(c.phone, query)
    || exists t :: t in c.tags && Contains(Lower(t), Lower(query))
  }

  function MatchesQuery(query: string): Contact -> bool
  {
    (c: Contact) => MatchesContact(c, query)
  }

  /** `filteredContacts`: the contacts the search matches, in roster order. */
  function FilteredContacts(contacts: seq<Contact>, query: string): (r: seq<Contact>)
    ensures forall c :: c in r <==> c in contacts && MatchesContact(c, query)
    ensures forall c :: multiset(r)[c] == if MatchesContact(c, query) then multiset(contacts)[c] else 0
    ensures IsSubsequence(r, contacts)
  {
    FilterIsSubsequence(MatchesQuery(query), contacts);
    FilterMultiplicity(MatchesQuery(query), contacts);
    Filter(MatchesQuery(query), contacts)
  }

  /** An empty search shows the whole roster. */
  lemma EmptySearchShowsAll(contacts: seq<Contact>)
    ensures FilteredContacts(contacts, "") == contacts
  {
    forall c | c in contacts
      ensures MatchesQuery("")(c)
    {
      ContainsEmpty(Lower(c.name));
    }
    FilterKeepsAll(MatchesQuery(""), contacts);
  }
}
