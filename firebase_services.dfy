/**
  The browser-storage fallback the data services use when Firebase is not
  configured: a store mapping keys to lists, read and written whole, and
  the contact, order and message-history operations built on it (read the
  list, prepend, replace the first match or filter, write it back). The
  `Date.now()` id and the ISO time an operation stamps are parameters.
 */
module FirebaseServices {
  import opened Seqs
  import opened Page
  import opened MessageComposer

  const ContactsKey := "whatsapp-contacts"
  const OrdersKey := "whatsapp-orders"
  const HistoryKey := "whatsapp-message-history"

  /** The browser's key-value storage, holding one list per key; outside a browser it holds nothing. */
  class Store<T> {
    const inBrowser: bool
    var items: map<string, seq<T>>

    constructor (inBrowser: bool, items: map<string, seq<T>>)
      ensures this.inBrowser == inBrowser && this.items == items
    {
      this.inBrowser := inBrowser;
      this.items := items;
    }

    /** `get…`: the stored list, or the empty list when the key is absent or there is no browser. */
    function Get(key: string): (r: seq<T>)
      reads this
      ensures !inBrowser || key !in items ==> r == []
      ensures inBrowser && key in items ==> r == items[key]
    {
      if inBrowser && key in items then items[key] else []
    }

    /** `save…`: in a browser the list replaces what the key held; elsewhere nothing happens. */
    method Save(key: string, list: seq<T>)
      modifies this
      ensures inBrowser ==> items == old(items)[key := list]
      ensures !inBrowser ==> items == old(items)
      ensures inBrowser ==> Get(key) == list
      ensures forall k :: k != key ==> Get(k) == old(Get(k))
    {
      if inBrowser {
        items := items[key := list];
      }
    }
  }

  /** A partial contact, spread over a contact in the same way. */
  datatype ContactPatch = ContactPatch(
    id: Option<string>,
    name: Option<string>,
    phone: Option<string>,
    tags: Option<seq<string>>,
    addedDate: Option<string>)

  /** `{ ...contacts[index], ...updates }`: each present field overrides the contact's own. */
  function MergeContact(c: Contact, p: ContactPatch): (r: Contact)
    ensures p == ContactPatch(None, None, None, None, None) ==> r == c
    ensures (p.id.Some? ==> r.id == p.id.value) && (p.id.None? ==> r.id == c.id)
    ensures (p.name.Some? ==> r.name == p.name.value) && (p.name.None? ==> r.name == c.name)
    ensures (p.phone.Some? ==> r.phone == p.phone.value) && (p.phone.None? ==> r.phone == c.phone)
    ensures (p.tags.Some? ==> r.tags == p.tags.value) && (p.tags.None? ==> r.tags == c.tags)
    ensures (p.addedDate.Some? ==> r.addedDate == p.addedDate.value) && (p.addedDate.None? ==> r.addedDate == c.addedDate)
  {
    Contact(
      Over(p.id, c.id),
      Over(p.name, c.name),
      Over(p.phone, c.phone),
      Over(p.tags, c.tags),
      Over(p.addedDate, c.addedDate))
  }

  /** Spreading the same patch a second time changes nothing more. */
  lemma MergeContactIdempotent(c: Contact, p: ContactPatch)
    ensures MergeContact(MergeContact(c, p), p) == MergeContact(c, p)
  {
  }

  /**
    `contacts[index] = f(contacts[index])` at the `findIndex` of `p`: only
    the first element satisfying `p` is replaced; with none the list is
    returned as it was.
   */
  function ReplaceFirst<T>(s: seq<T>, p: T -> bool, f: T -> T): (r: seq<T>)
    ensures |r| == |s|
    ensures var k := FirstIndex(p, s); forall i :: 0 <= i < |s| && i != k ==> r[i] == s[i]
    ensures var k := FirstIndex(p, s); k >= 0 ==> r[k] == f(s[k])
    ensures (forall i :: 0 <= i < |s| ==> !p(s[i])) ==> r == s
  {
    var k := FirstIndex(p, s);
    if k == -1 then s else s[k := f(s[k])]
  }

  function HasContactId(id: string): Contact -> bool
  {
    (c: Contact) => c.id == id
  }

  function MergeContactWith(updates: ContactPatch): Contact -> Contact
  {
    (c: Contact) => MergeContact(c, updates)
  }

  function HasOrderId(id: string): Order -> bool
  {
    (o: Order) => o.id == id
  }

  function MergeOrderWith(updates: OrderPatch): Order -> Order
  {
    (o: Order) => MergeOrder(o, updates)
  }

  /**
    When no two orders share an id, replacing the first match is the page's
    `updateOrder`, which updates every match.
   */
  lemma ReplaceFirstIsUpdateWhenIdsUnique(orders: seq<Order>, id: string, updates: OrderPatch)
    requires forall i, j :: 0 <= i < j < |orders| ==> orders[i].id != orders[j].id
    ensures ReplaceFirst(orders, HasOrderId(id), MergeOrderWith(updates)) == UpdateOrder(orders, id, updates)
  {
    var r := ReplaceFirst(orders, HasOrderId(id), MergeOrderWith(updates));
    var u := UpdateOrder(orders, id, updates);
    var k := FirstIndex(HasOrderId(id), orders);
    forall i | 0 <= i < |orders|
      ensures r[i] == u[i]
    {
      if orders[i].id == id {
        assert HasOrderId(id)(orders[i]);
        assert k >= 0 && orders[k].id == id;
      }
    }
  }

  /** Removing a contact that was just prepended under a fresh id gives back the earlier list. */
  lemma DeleteUndoesPrepend(contacts: seq<Contact>, c: Contact)
    requires forall d :: d in contacts ==> d.id != c.id
    ensures WithoutContact([c] + contacts, c.id) == contacts
  {
    assert ([c] + contacts)[1..] == contacts;
    FilterKeepsAll(KeepsContact(c.id), contacts);
  }

  /** Local `addContact`: the contact, stamped with the new id and date, goes to the front; its id is returned. */
  method LocalAddContact(store: Store<Contact>, draft: ContactDraft, millis: string, iso: string) returns (id: string)
    modifies store
    ensures id == millis
    ensures store.inBrowser ==>
      store.Get(ContactsKey) == [Contact(millis, draft.name, draft.phone, draft.tags, iso)] + old(store.Get(ContactsKey))
    ensures store.inBrowser ==> |store.Get(ContactsKey)| == |old(store.Get(ContactsKey))| + 1
    ensures forall k :: k != ContactsKey ==> store.Get(k) == old(store.Get(k))
  {
    var contacts := store.Get(ContactsKey);
    var contact := Contact(millis, draft.name, draft.phone, draft.tags, iso);
    contacts := [contact] + contacts;
    store.Save(ContactsKey, contacts);
    id := contact.id;
  }

  /**
    Local `updateContact`: the first contact with this id gets the updates
    merged over it; with no such contact nothing is written.
   */
  method LocalUpdateContact(store: Store<Contact>, id: string, updates: ContactPatch)
    modifies store
    ensures store.Get(ContactsKey) == ReplaceFirst(old(store.Get(ContactsKey)), HasContactId(id), MergeContactWith(updates))
    ensures |store.Get(ContactsKey)| == |old(store.Get(ContactsKey))|
    ensures FirstIndex(HasContactId(id), old(store.Get(ContactsKey))) == -1 ==> store.items == old(store.items)
    ensures forall k :: k != ContactsKey ==> store.Get(k) == old(store.Get(k))
  {
    var contacts := store.Get(ContactsKey);
    var index := FirstIndex(HasContactId(id), contacts);
    if index != -1 {
      contacts := contacts[index := MergeContact(contacts[index], updates)];
      store.Save(ContactsKey, contacts);
    }
  }

  /** Local `deleteContact`: every contact with this id is dropped, the rest keep their order. */
  method LocalDeleteContact(store: Store<Contact>, id: string)
    modifies store
    ensures store.Get(ContactsKey) == if store.inBrowser then WithoutContact(old(store.Get(ContactsKey)), id) else []
    ensures forall c :: c in store.Get(ContactsKey) <==> c in old(store.Get(ContactsKey)) && c.id != id
    ensures forall k :: k != ContactsKey ==> store.Get(k) == old(store.Get(k))
  {
    var contacts := store.Get(ContactsKey);
    var filtered := WithoutContact(contacts, id);
    store.Save(ContactsKey, filtered);
  }

  /** Local `addOrder`: the order, stamped with the new id and date, goes to the front; its id is returned. */
  method LocalAddOrder(store: Store<Order>, draft: OrderDraft, millis: string, iso: string) returns (id: string)
    modifies store
    ensures id == millis
    ensures store.inBrowser ==>
      store.Get(OrdersKey) == [Order(millis, draft.customerId, draft.customerName, draft.customerPhone,
                                     draft.items, draft.total, draft.status, iso, draft.notes)] + old(store.Get(OrdersKey))
    ensures store.inBrowser ==> |store.Get(OrdersKey)| == |old(store.Get(OrdersKey))| + 1
    ensures forall k :: k != OrdersKey ==> store.Get(k) == old(store.Get(k))
  {
    var orders := store.Get(OrdersKey);
    var order := Order(millis, draft.customerId, draft.customerName, draft.customerPhone,
                       draft.items, draft.total, draft.status, iso, draft.notes);
    orders := [order] + orders;
    store.Save(OrdersKey, orders);
    id := order.id;
  }

  /**
    Local `updateOrder`: the first order with this id gets the updates
    merged over it; with no such order nothing is written.
   */
  method LocalUpdateOrder(store: Store<Order>, id: string, updates: OrderPatch)
    modifies store
    ensures store.Get(OrdersKey) == ReplaceFirst(old(store.Get(OrdersKey)), HasOrderId(id), MergeOrderWith(updates))
    ensures |store.Get(OrdersKey)| == |old(store.Get(OrdersKey))|
    ensures FirstIndex(HasOrderId(id), old(store.Get(OrdersKey))) == -1 ==> store.items == old(store.items)
    ensures forall k :: k != OrdersKey ==> store.Get(k) == old(store.Get(k))
  {
    var orders := store.Get(OrdersKey);
    var index := FirstIndex(HasOrderId(id), orders);
    if index != -1 {
      orders := orders[index := MergeOrder(orders[index], updates)];
      store.Save(OrdersKey, orders);
    }
  }

  /** Local `deleteOrder`: every order with this id is dropped, the rest keep their order. */
  method LocalDeleteOrder(store: Store<Order>, id: string)
    modifies store
    ensures store.Get(OrdersKey) == if store.inBrowser then WithoutOrder(old(store.Get(OrdersKey)), id) else []
    ensures forall o :: o in store.Get(OrdersKey) <==> o in old(store.Get(OrdersKey)) && o.id != id
    ensures forall k :: k != OrdersKey ==> store.Get(k) == old(store.Get(k))
  {
    var orders := store.Get(OrdersKey);
    var filtered := WithoutOrder(orders, id);
    store.Save(OrdersKey, filtered);
  }

  /** Local `addMessage`: the entry, with a fresh id and `sentAt`, goes to the front; its id is returned. */
  method LocalAddMessage(store: Store<HistoryEntry>, message: HistoryEntry, millis: string, iso: string) returns (id: string)
    modifies store
    ensures id == millis
    ensures store.inBrowser ==>
      store.Get(HistoryKey) == [message.(id := millis, sentAt := iso)] + old(store.Get(HistoryKey))
    ensures forall k :: k != HistoryKey ==> store.Get(k) == old(store.Get(k))
  {
    var messages := store.Get(HistoryKey);
    var entry := message.(id := millis, sentAt := iso);
    messages := [entry] + messages;
    store.Save(HistoryKey, messages);
    id := entry.id;
  }
}
