/** The customers page: the search, the counters above the table, the VIP
    badge, and the create/edit modal and delete button that issue mutations
    against the `customers` table. */
module Customers {
  import opened Common
  import Store

  /** A customer row; `totalOrders` is None where the column holds null. */
  datatype Customer = Customer(
    id: string,
    fullName: string,
    whatsapp: Option<string>,
    instagram: Option<string>,
    address: Option<string>,
    totalOrders: Option<int>,
    sellerId: string)

  /** `total_orders || 0`. */
  function OrdersOrZero(c: Customer): (n: int)
    ensures c.totalOrders.Some? ==> n == c.totalOrders.value
    ensures c.totalOrders.None? ==> n == 0
  {
    if c.totalOrders.Some? then c.totalOrders.value else 0
  }

  const VipThreshold: int := 5

  /** `isVIP`: five orders or more. */
  function IsVip(c: Customer): (vip: bool)
    ensures c.totalOrders.None? ==> !vip
    ensures vip <==> c.totalOrders.Some? && c.totalOrders.value >= 5
  {
    OrdersOrZero(c) >= VipThreshold
  }

  /** The status badge: its text and its colour. */
  function StatusBadge(c: Customer): (badge: (string, string))
    ensures badge.0 == "VIP" <==> IsVip(c)
    ensures badge.0 == "Actif" <==> !IsVip(c)
    ensures badge.1 == "bg-purple-500/15 text-purple-500 border-purple-500/20" <==> IsVip(c)
  {
    if IsVip(c) then ("VIP", "bg-purple-500/15 text-purple-500 border-purple-500/20")
    else ("Actif", "bg-green-500/15 text-green-500 border-green-500/20")
  }

  /** The colour of the orders badge: it is highlighted exactly for VIPs. */
  function OrdersBadgeColor(c: Customer): (color: string)
    ensures color == StatusBadge(c).1 <==> IsVip(c)
  {
    if IsVip(c) then "bg-purple-500/15 text-purple-500 border-purple-500/20" else "bg-muted"
  }

  // ---------------------------------------------------------------------
  // Search and counters
  // ---------------------------------------------------------------------

  function NameMatches(term: string): Customer -> bool
  {
    (c: Customer) => SearchMatch(c.fullName, term)
  }

  /** `filteredCustomers`: the customers whose full name contains the term,
      ignoring case, in their original order. */
  function FilteredCustomers(customers: seq<Customer>, term: string): (r: seq<Customer>)
    ensures forall c :: c in r <==> c in customers && SearchMatch(c.fullName, term)
    ensures SubsequenceOf(r, customers)
  {
    Filter(customers, NameMatches(term))
  }

  /** The empty search keeps every customer. */
  lemma EmptySearchKeepsAll(customers: seq<Customer>)
    ensures FilteredCustomers(customers, "") == customers
  {
    forall c | c in customers ensures NameMatches("")(c) {
      EmptyTermMatches(c.fullName);
    }
    FilterKeepsAll(customers, NameMatches(""));
  }

  /** The term's letter case does not change the result. */
  lemma SearchCaseInsensitive(customers: seq<Customer>, term: string)
    ensures FilteredCustomers(customers, Lower(term)) == FilteredCustomers(customers, term)
  {
    forall c | c in customers ensures NameMatches(Lower(term))(c) == NameMatches(term)(c) {
      SearchIgnoresTermCase(c.fullName, term);
    }
    FilterCongruent(customers, NameMatches(Lower(term)), NameMatches(term));
  }

  /** `totalOrders`. */
  function TotalOrders(customers: seq<Customer>): (total: int)
    ensures (forall c :: c in customers ==> OrdersOrZero(c) >= 0) ==> total >= 0
  {
    var total := SumInt(customers, OrdersOrZero);
    assert (forall c :: c in customers ==> OrdersOrZero(c) >= 0) ==> total >= 0 by {
      if forall c :: c in customers ==> OrdersOrZero(c) >= 0 {
        SumIntNonNegative(customers, OrdersOrZero);
      }
    }
    total
  }

  function VipPredicate(): Customer -> bool
  {
    (c: Customer) => IsVip(c)
  }

  /** `vipCustomers`. */
  function VipCount(customers: seq<Customer>): (n: nat)
    ensures n <= |customers|
    ensures n == 0 <==> forall c :: c in customers ==> !IsVip(c)
  {
    Count(customers, VipPredicate())
  }

  /** With no negative order counts, each VIP accounts for at least five of
      the orders in the total, so the VIP counter never exceeds a fifth of
      the orders counter. */
  lemma {:induction false} VipsBoundedByOrders(customers: seq<Customer>)
    requires forall c :: c in customers ==> OrdersOrZero(c) >= 0
    ensures VipThreshold * VipCount(customers) <= TotalOrders(customers)
    decreases |customers|
  {
    if customers != [] {
      var rest := customers[1..];
      assert forall c :: c in rest ==> c in customers;
      VipsBoundedByOrders(rest);
      assert TotalOrders(customers) == OrdersOrZero(customers[0]) + TotalOrders(rest);
      if IsVip(customers[0]) {
        assert VipCount(customers) == 1 + VipCount(rest);
      } else {
        assert VipCount(customers) == VipCount(rest);
      }
    }
  }

  // ---------------------------------------------------------------------
  // The modal form and the mutations
  // ---------------------------------------------------------------------

  datatype CustomerForm = CustomerForm(fullName: string, whatsapp: string, instagram: string, address: string)

  const EmptyForm: CustomerForm := CustomerForm("", "", "", "")

  /** The form pre-filled from a customer. */
  function PrefillForm(c: Customer): CustomerForm
  {
    CustomerForm(c.fullName, OrEmpty(c.whatsapp), OrEmpty(c.instagram), OrEmpty(c.address))
  }

  /** The columns `handleSubmit` writes on both paths. */
  datatype CustomerPayload = CustomerPayload(
    fullName: string,
    whatsapp: Option<string>,
    instagram: Option<string>,
    address: Option<string>,
    sellerId: Option<string>)

  function BuildPayload(form: CustomerForm, sellerId: Option<string>): (p: CustomerPayload)
    ensures p.fullName == form.fullName && p.sellerId == sellerId
    ensures p.whatsapp == NullIfEmpty(form.whatsapp)
    ensures p.instagram == NullIfEmpty(form.instagram)
    ensures p.address == NullIfEmpty(form.address)
  {
    CustomerPayload(form.fullName, NullIfEmpty(form.whatsapp), NullIfEmpty(form.instagram),
      NullIfEmpty(form.address), sellerId)
  }

  /** An update writes the payload only; an insert adds `total_orders: 0`. */
  datatype CustomerMutation =
    | UpdateCustomer(id: string, payload: CustomerPayload)
    | InsertCustomer(payload: CustomerPayload, totalOrders: int)
    | DeleteCustomer(id: string)

  function SubmitMutation(editing: Option<Customer>, form: CustomerForm, sellerId: Option<string>): (m: CustomerMutation)
    ensures !m.DeleteCustomer? && m.payload == BuildPayload(form, sellerId)
    ensures m.UpdateCustomer? <==> editing.Some?
    ensures m.UpdateCustomer? ==> m.id == editing.value.id
    ensures m.InsertCustomer? ==> m.totalOrders == 0
  {
    var payload := BuildPayload(form, sellerId);
    if editing.Some? then UpdateCustomer(editing.value.id, payload) else InsertCustomer(payload, 0)
  }

  /** What `handleDelete(id)` issues: nothing unless the user confirmed. */
  function DeleteMutation(id: string, confirmed: bool): (m: Option<CustomerMutation>)
    ensures m.Some? <==> confirmed
    ensures m.Some? ==> m.value == DeleteCustomer(id)
  {
    if confirmed then Some(DeleteCustomer(id)) else None
  }

  /** A stored customer: the written columns and the order count. */
  datatype CustomerRow = CustomerRow(payload: CustomerPayload, totalOrders: Option<int>)

  function Apply(t: Store.Table<CustomerRow>, m: CustomerMutation, newId: string): (t': Store.Table<CustomerRow>)
    ensures m.InsertCustomer? ==>
      && t'.Keys == t.Keys + {newId}
      && (newId !in t ==> t'[newId] == CustomerRow(m.payload, Some(m.totalOrders)))
    ensures m.UpdateCustomer? ==>
      && t'.Keys == t.Keys
      && (m.id in t ==> t'[m.id] == CustomerRow(m.payload, t[m.id].totalOrders))
    ensures m.DeleteCustomer? ==> t'.Keys == t.Keys - {m.id}
    ensures forall k :: k in t && k in t' && k != (if m.InsertCustomer? then newId else m.id) ==> t'[k] == t[k]
  {
    match m
    case InsertCustomer(p, n) => Store.Insert(t, newId, CustomerRow(p, Some(n)))
    case UpdateCustomer(id, p) => Store.Update(t, id, (r: CustomerRow) => CustomerRow(p, r.totalOrders))
    case DeleteCustomer(id) => Store.Delete(t, id)
  }

  /** Editing a customer never touches their order count, so a VIP stays a
      VIP however the form is saved. */
  lemma EditKeepsOrders(t: Store.Table<CustomerRow>, c: Customer, form: CustomerForm, sellerId: Option<string>, newId: string)
    requires c.id in t
    ensures var t' := Apply(t, SubmitMutation(Some(c), form, sellerId), newId);
      c.id in t' && t'[c.id].totalOrders == t[c.id].totalOrders && t'[c.id].payload == BuildPayload(form, sellerId)
  {
  }

  /** A created customer starts with zero orders, so is shown as "Actif". */
  lemma NewCustomerIsNotVip(t: Store.Table<CustomerRow>, form: CustomerForm, sellerId: Option<string>, newId: string, c: Customer)
    requires newId !in t
    requires c.totalOrders == Apply(t, SubmitMutation(None, form, sellerId), newId)[newId].totalOrders
    ensures c.totalOrders == Some(0)
    ensures StatusBadge(c).0 == "Actif"
  {
  }

  /** The stored columns a fetched customer shows. */
  predicate Shows(c: Customer, row: CustomerRow)
  {
    && row.payload.fullName == c.fullName && row.payload.whatsapp == c.whatsapp
    && row.payload.instagram == c.instagram && row.payload.address == c.address
    && row.payload.sellerId == Some(c.sellerId) && row.totalOrders == c.totalOrders
  }

  /** Opening a customer and saving the form unchanged leaves their row as it
      was, provided no contact column holds "" and the session user owns the
      customer. */
  lemma {:induction false} UnchangedEditIsIdempotent(t: Store.Table<CustomerRow>, c: Customer, newId: string)
    requires c.id in t && Shows(c, t[c.id])
    requires c.whatsapp != Some("") && c.instagram != Some("") && c.address != Some("")
    ensures Apply(t, SubmitMutation(Some(c), PrefillForm(c), Some(c.sellerId)), newId) == t
  {
    NullableRoundTrip(c.whatsapp);
    NullableRoundTrip(c.instagram);
    NullableRoundTrip(c.address);
    var row := CustomerRow(BuildPayload(PrefillForm(c), Some(c.sellerId)), t[c.id].totalOrders);
    assert row == t[c.id];
    assert t[c.id := row] == t;
  }

  /** A confirmed delete removes the row and nothing else; a declined one
      issues nothing. */
  lemma DeleteOnlyWhenConfirmed(t: Store.Table<CustomerRow>, id: string, confirmed: bool, newId: string)
    ensures DeleteMutation(id, confirmed).None? <==> !confirmed
    ensures confirmed ==>
      var t' := Apply(t, DeleteMutation(id, confirmed).value, newId);
      id !in t' && t'.Keys == t.Keys - {id} && (forall k :: k in t' ==> t'[k] == t[k])
  {
  }

  // ---------------------------------------------------------------------
  // The page
  // ---------------------------------------------------------------------

  class CustomersPage {
    var customers: seq<Customer>
    var isLoading: bool
    var isModalOpen: bool
    var editingCustomer: Option<Customer>
    var form: CustomerForm
    var searchTerm: string
    /** The mutations sent to the `customers` table, oldest first. */
    var issued: seq<CustomerMutation>

    constructor ()
      ensures customers == [] && isLoading && !isModalOpen && editingCustomer == None
      ensures form == EmptyForm && searchTerm == "" && issued == []
    {
      customers, isLoading, isModalOpen, editingCustomer := [], true, false, None;
      form, searchTerm, issued := EmptyForm, "", [];
    }

    /** `fetchCustomers`: the list is replaced by the query's rows, or kept
        when it returned no data. */
    method FetchCustomers(fetched: Option<seq<Customer>>)
      modifies this
      ensures customers == (if fetched.Some? then fetched.value else old(customers)) && !isLoading
      ensures isModalOpen == old(isModalOpen) && editingCustomer == old(editingCustomer)
      ensures form == old(form) && searchTerm == old(searchTerm) && issued == old(issued)
    {
      isLoading := true;
      if fetched.Some? { customers := fetched.value; }
      isLoading := false;
    }

    /** `handleOpenModal(customer?)`. */
    method OpenModal(customer: Option<Customer>)
      modifies this
      ensures editingCustomer == customer && isModalOpen
      ensures form == if customer.Some? then PrefillForm(customer.value) else EmptyForm
      ensures customers == old(customers) && isLoading == old(isLoading)
      ensures searchTerm == old(searchTerm) && issued == old(issued)
    {
      if customer.Some? {
        editingCustomer := customer;
        form := PrefillForm(customer.value);
      } else {
        editingCustomer := None;
        form := EmptyForm;
      }
      isModalOpen := true;
    }

    /** `handleSubmit`: issue the mutation, close the modal, fetch again. */
    method Submit(sellerId: Option<string>, fetched: Option<seq<Customer>>)
      modifies this
      ensures issued == old(issued) + [SubmitMutation(old(editingCustomer), old(form), sellerId)]
      ensures !isModalOpen && !isLoading
      ensures customers == (if fetched.Some? then fetched.value else old(customers))
      ensures editingCustomer == old(editingCustomer) && form == old(form) && searchTerm == old(searchTerm)
    {
      issued := issued + [SubmitMutation(editingCustomer, form, sellerId)];
      isModalOpen := false;
      FetchCustomers(fetched);
    }

    /** `handleDelete(id)`: unless confirmed nothing happens; otherwise the
        delete is issued and the list fetched again. */
    method Delete(id: string, confirmed: bool, fetched: Option<seq<Customer>>)
      modifies this
      ensures var m := DeleteMutation(id, confirmed);
        issued == old(issued) + (if m.Some? then [m.value] else [])
      ensures customers == (if confirmed && fetched.Some? then fetched.value else old(customers))
      ensures isLoading == (if confirmed then false else old(isLoading))
      ensures isModalOpen == old(isModalOpen) && editingCustomer == old(editingCustomer)
      ensures form == old(form) && searchTerm == old(searchTerm)
    {
      var m := DeleteMutation(id, confirmed);
      if m.None? {
        return;
      }
      issued := issued + [m.value];
      FetchCustomers(fetched);
    }

    /** Typing in the search box: the table then lists the search's
        result over the current rows. */
    method SetSearchTerm(term: string)
      modifies this
      ensures searchTerm == term
      ensures customers == old(customers) && isLoading == old(isLoading) && isModalOpen == old(isModalOpen)
      ensures editingCustomer == old(editingCustomer) && form == old(form) && issued == old(issued)
    {
      searchTerm := term;
    }

    method CloseModal()
      modifies this
      ensures !isModalOpen
      ensures customers == old(customers) && isLoading == old(isLoading) && editingCustomer == old(editingCustomer)
      ensures form == old(form) && searchTerm == old(searchTerm) && issued == old(issued)
    {
      isModalOpen := false;
    }
  }
}
