/** The appointment calendar page: the per-day index of the fetched
    appointments, the per-day potential revenue, the status colours, and the
    create/edit modal whose submit and delete buttons issue mutations against
    the `appointments` table. */
module Calendar {
  import opened Common
  import opened CalendarGrid
  import Store

  // ---------------------------------------------------------------------
  // Rows
  // ---------------------------------------------------------------------

  /** The joined customer summary (`customer:customer_id (...)`). */
  datatype CustomerSummary = CustomerSummary(id: string, fullName: string, whatsapp: Option<string>)

  /** The joined product summary (`product:product_id (...)`). */
  datatype ProductSummary = ProductSummary(id: string, name: string, price: real)

  /** A fetched appointment. `date` is the day that `appointment_date`
      (`yyyy-MM-dd`) denotes; `duration` and `revenue` may be null. */
  datatype Appointment = Appointment(
    id: string,
    date: Day,
    time: string,
    duration: Option<int>,
    status: string,
    revenue: Option<real>,
    location: Option<string>,
    notes: Option<string>,
    customer: Option<CustomerSummary>,
    product: Option<ProductSummary>)

  // ---------------------------------------------------------------------
  // Day index and day revenue
  // ---------------------------------------------------------------------

  /** The appointment is on day `d`, and its negation. */
  function OnDay(d: Day): Appointment -> bool { (a: Appointment) => a.date == d }
  function OffDay(d: Day): Appointment -> bool { (a: Appointment) => a.date != d }

  /** `getDayAppointments(date)`: the appointments on day `d`, in the order
      they were fetched. */
  function DayAppointments(appts: seq<Appointment>, d: Day): (r: seq<Appointment>)
    ensures forall a :: a in r <==> a in appts && a.date == d
    ensures SubsequenceOf(r, appts)
  {
    Filter(appts, OnDay(d))
  }

  /** The day index keeps every appointment of the day exactly as often as
      it was fetched, and nothing from other days. */
  lemma DayAppointmentsExact(appts: seq<Appointment>, d: Day, a: Appointment)
    ensures multiset(DayAppointments(appts, d))[a] == if a.date == d then multiset(appts)[a] else 0
  {
    FilterMultiplicity(appts, OnDay(d), a);
  }

  /** `apt.potential_revenue || 0`. */
  function RevenueOrZero(a: Appointment): (r: real)
    ensures a.revenue.None? ==> r == 0.0
    ensures a.revenue.Some? ==> r == a.revenue.value
  {
    if a.revenue.Some? then a.revenue.value else 0.0
  }

  /** `getDayTotalRevenue(date)`. */
  function DayTotalRevenue(appts: seq<Appointment>, d: Day): (total: real)
    ensures DayAppointments(appts, d) == [] ==> total == 0.0
    ensures (forall a :: a in appts && a.date == d ==> RevenueOrZero(a) >= 0.0) ==> total >= 0.0
  {
    var day := DayAppointments(appts, d);
    var total := Sum(day, RevenueOrZero);
    assert (forall a :: a in appts && a.date == d ==> RevenueOrZero(a) >= 0.0) ==> total >= 0.0 by {
      if forall a :: a in appts && a.date == d ==> RevenueOrZero(a) >= 0.0 {
        SumNonNegative(day, RevenueOrZero);
      }
    }
    total
  }

  /** A day without appointments has total 0. */
  lemma {:induction false} EmptyDayTotal(appts: seq<Appointment>, d: Day)
    requires forall a :: a in appts ==> a.date != d
    ensures DayAppointments(appts, d) == []
    ensures DayTotalRevenue(appts, d) == 0.0
  {
    assert forall a :: a in DayAppointments(appts, d) ==> a in appts && a.date == d;
  }

  /** The revenue of all fetched appointments is the day's total plus the
      revenue of the appointments on other days. */
  lemma DayTotalSplitsRevenue(appts: seq<Appointment>, d: Day)
    ensures Sum(appts, RevenueOrZero)
         == DayTotalRevenue(appts, d) + Sum(Filter(appts, OffDay(d)), RevenueOrZero)
  {
    SumSplit(appts, RevenueOrZero, OnDay(d), OffDay(d));
  }

  /** With non-negative revenues the day total is non-negative and at most
      the month's total. */
  lemma DayTotalBounds(appts: seq<Appointment>, d: Day)
    requires forall a :: a in appts ==> RevenueOrZero(a) >= 0.0
    ensures 0.0 <= DayTotalRevenue(appts, d) <= Sum(appts, RevenueOrZero)
  {
    DayTotalSplitsRevenue(appts, d);
    SumNonNegative(DayAppointments(appts, d), RevenueOrZero);
    SumNonNegative(Filter(appts, OffDay(d)), RevenueOrZero);
  }

  // ---------------------------------------------------------------------
  // Status colours
  // ---------------------------------------------------------------------

  const Scheduled: string := "Schedulé"
  const StatusLabels: seq<string> := [Scheduled, "Confirmé", "En cours", "Terminé", "Annulé", "No-show"]

  const StatusClasses: map<string, string> := map[
    Scheduled := "bg-blue-500/15 text-blue-500 border-blue-500/20",
    "Confirmé" := "bg-green-500/15 text-green-500 border-green-500/20",
    "En cours" := "bg-orange-500/15 text-orange-500 border-orange-500/20",
    "Terminé" := "bg-purple-500/15 text-purple-500 border-purple-500/20",
    "Annulé" := "bg-red-500/15 text-red-500 border-red-500/20",
    "No-show" := "bg-gray-500/15 text-gray-500 border-gray-500/20"]

  const GrayFallback: string := "bg-gray-500/15 text-gray-500"

  /** `getStatusColor(status)`: the fixed classes of the six labels; any
      other plain label gets the gray fallback, which differs from every
      label's classes (even No-show's, which carries a border). Labels naming
      an `Object.prototype` member are outside this model. */
  function StatusColor(status: string): (c: string)
    ensures status in StatusLabels <==> c != GrayFallback
    ensures status in StatusLabels ==> c == StatusClasses[status]
  {
    if status in StatusClasses && StatusClasses[status] != "" then StatusClasses[status] else GrayFallback
  }

  /** Distinct labels get distinct classes. */
  lemma StatusColorsDistinct(s: string, t: string)
    requires s in StatusLabels && t in StatusLabels && s != t
    ensures StatusColor(s) != StatusColor(t)
  {
  }

  // ---------------------------------------------------------------------
  // The form, its defaults and the edit prefill
  // ---------------------------------------------------------------------

  datatype AppointmentForm = AppointmentForm(
    customerId: string,
    productId: string,
    time: string,
    duration: int,
    status: string,
    revenue: string,
    location: string,
    notes: string)

  /** The initial form, and the form after a click on a day. */
  const DefaultForm: AppointmentForm := AppointmentForm("", "", "14:00", 30, Scheduled, "", "", "")

  /** The form pre-filled from an appointment (`handleEditAppointment`);
      `showRevenue` is `Number.prototype.toString`. */
  function EditForm(a: Appointment, showRevenue: real -> string): AppointmentForm
  {
    AppointmentForm(
      customerId := if a.customer.Some? then a.customer.value.id else "",
      productId := if a.product.Some? then a.product.value.id else "",
      time := a.time,
      duration := if a.duration.Some? && a.duration.value != 0 then a.duration.value else 30,
      status := a.status,
      revenue := if a.revenue.Some? then showRevenue(a.revenue.value) else "",
      location := OrEmpty(a.location),
      notes := OrEmpty(a.notes))
  }

  /** The prefill turns nulls into "" and a missing or zero duration into 30,
      and keeps time and status verbatim. */
  lemma EditFormDefaults(a: Appointment, showRevenue: real -> string)
    ensures var f := EditForm(a, showRevenue);
      && (a.customer.None? ==> f.customerId == "")
      && (a.product.None? ==> f.productId == "")
      && (a.revenue.None? ==> f.revenue == "")
      && (a.location.None? ==> f.location == "")
      && (a.notes.None? ==> f.notes == "")
      && (f.duration == 30 <==> a.duration.None? || a.duration.value in {0, 30})
      && f.time == a.time && f.status == a.status
  {
  }

  // ---------------------------------------------------------------------
  // Submit: form strings to a mutation payload
  // ---------------------------------------------------------------------

  /** The columns an appointment mutation writes. */
  datatype AppointmentPayload = AppointmentPayload(
    date: Day,
    time: string,
    duration: int,
    status: string,
    revenue: real,
    location: Option<string>,
    notes: Option<string>,
    customerId: Option<string>,
    productId: Option<string>)

  /** `parseFloat(field) || 0`, with `parseFloat` given as `parse` (None for NaN). */
  function ParsedRevenue(field: string, parse: string -> Option<real>): (v: real)
    ensures parse(field).None? ==> v == 0.0
    ensures parse(field).Some? ==> v == parse(field).value
  {
    if parse(field).Some? then parse(field).value else 0.0
  }

  /** The payload `handleSubmit` builds for day `day`. The duration is an
      integer already, so `parseInt(duration.toString())` is the identity. */
  function BuildPayload(form: AppointmentForm, day: Day, parse: string -> Option<real>): (p: AppointmentPayload)
    ensures p.date == day
    ensures p.time == form.time && p.duration == form.duration && p.status == form.status
    ensures p.revenue == ParsedRevenue(form.revenue, parse)
    ensures p.location == NullIfEmpty(form.location) && p.notes == NullIfEmpty(form.notes)
    ensures p.customerId == NullIfEmpty(form.customerId) && p.productId == NullIfEmpty(form.productId)
  {
    AppointmentPayload(day, form.time, form.duration, form.status, ParsedRevenue(form.revenue, parse),
      NullIfEmpty(form.location), NullIfEmpty(form.notes), NullIfEmpty(form.customerId), NullIfEmpty(form.productId))
  }

  /** A revenue field that does not parse is stored as 0, and so is the
      empty field when `parse("")` fails as `parseFloat("")` does. */
  lemma EmptyRevenueStoresZero(form: AppointmentForm, day: Day, parse: string -> Option<real>)
    requires form.revenue == "" && parse("").None?
    ensures BuildPayload(form, day, parse).revenue == 0.0
  {
  }

  datatype AppointmentMutation =
    | UpdateAppointment(id: string, payload: AppointmentPayload)
    | InsertAppointment(payload: AppointmentPayload, sellerId: Option<string>)
    | DeleteAppointment(id: string)

  /** What `handleSubmit` issues: nothing without a selected day; otherwise
      an update keyed by the edited appointment's id, or an insert stamped
      with the session's user id, both dated with the selected day. */
  function SubmitMutation(selectedDay: Option<Day>, editing: Option<Appointment>, form: AppointmentForm,
                          sellerId: Option<string>, parse: string -> Option<real>): (m: Option<AppointmentMutation>)
    ensures m.None? <==> selectedDay.None?
    ensures m.Some? ==> !m.value.DeleteAppointment? && m.value.payload == BuildPayload(form, selectedDay.value, parse)
    ensures m.Some? && editing.Some? ==> m.value.UpdateAppointment? && m.value.id == editing.value.id
    ensures m.Some? && editing.None? ==> m.value.InsertAppointment? && m.value.sellerId == sellerId
  {
    if selectedDay.None? then None
    else
      var payload := BuildPayload(form, selectedDay.value, parse);
      if editing.Some? then Some(UpdateAppointment(editing.value.id, payload))
      else Some(InsertAppointment(payload, sellerId))
  }

  /** An edit always writes the selected day, never the edited appointment's
      own date: submitting an edit moves the appointment to whichever day was
      last clicked. */
  lemma EditWritesSelectedDay(d: Day, a: Appointment, form: AppointmentForm,
                              sellerId: Option<string>, parse: string -> Option<real>)
    ensures var m := SubmitMutation(Some(d), Some(a), form, sellerId, parse);
      m.Some? && m.value.UpdateAppointment? && m.value.payload.date == d
  {
  }

  /** With no day selected (an appointment opened before any day was
      clicked), submitting the edit issues nothing. */
  lemma EditWithoutSelectedDayIsLost(a: Appointment, form: AppointmentForm,
                                     sellerId: Option<string>, parse: string -> Option<real>)
    ensures SubmitMutation(None, Some(a), form, sellerId, parse) == None
  {
  }

  /** `handleDeleteAppointment`: a delete by id when editing, else nothing. */
  function DeleteMutation(editing: Option<Appointment>): (m: Option<AppointmentMutation>)
    ensures m.Some? <==> editing.Some?
    ensures m.Some? ==> m.value == DeleteAppointment(editing.value.id)
  {
    if editing.Some? then Some(DeleteAppointment(editing.value.id)) else None
  }

  // ---------------------------------------------------------------------
  // The appointments table
  // ---------------------------------------------------------------------

  datatype AppointmentRow = AppointmentRow(payload: AppointmentPayload, sellerId: Option<string>)

  /** The effect of a mutation on the table; `newId` is the id the backend
      generates for an insert. An update rewrites the written columns and
      keeps the owning seller. */
  function Apply(t: Store.Table<AppointmentRow>, m: AppointmentMutation, newId: string): (t': Store.Table<AppointmentRow>)
    ensures m.InsertAppointment? ==>
      && t'.Keys == t.Keys + {newId}
      && (newId !in t ==> t'[newId] == AppointmentRow(m.payload, m.sellerId))
    ensures m.UpdateAppointment? ==>
      && t'.Keys == t.Keys
      && (m.id in t ==> t'[m.id] == AppointmentRow(m.payload, t[m.id].sellerId))
    ensures m.DeleteAppointment? ==> t'.Keys == t.Keys - {m.id}
    ensures forall k :: k in t && k in t' && k != (if m.InsertAppointment? then newId else m.id) ==> t'[k] == t[k]
  {
    match m
    case InsertAppointment(p, s) => Store.Insert(t, newId, AppointmentRow(p, s))
    case UpdateAppointment(id, p) => Store.Update(t, id, (row: AppointmentRow) => row.(payload := p))
    case DeleteAppointment(id) => Store.Delete(t, id)
  }

  /** Creating an appointment stores exactly the submitted fields, dated with
      the selected day and owned by the session's user, under the new id,
      and leaves every other row as it was. */
  lemma CreateStoresSubmittedFields(t: Store.Table<AppointmentRow>, d: Day, form: AppointmentForm,
                                    sellerId: Option<string>, parse: string -> Option<real>, newId: string)
    requires newId !in t
    ensures var m := SubmitMutation(Some(d), None, form, sellerId, parse);
      && m.Some?
      && var t' := Apply(t, m.value, newId);
      && t'.Keys == t.Keys + {newId}
      && t'[newId] == AppointmentRow(BuildPayload(form, d, parse), sellerId)
      && t'[newId].payload.date == d
      && (forall k :: k in t ==> t'[k] == t[k])
  {
  }

  /** Deleting the edited appointment removes its row and nothing else. */
  lemma DeleteRemovesRow(t: Store.Table<AppointmentRow>, a: Appointment, newId: string)
    ensures var m := DeleteMutation(Some(a));
      && m.Some?
      && var t' := Apply(t, m.value, newId);
      && a.id !in t' && t'.Keys == t.Keys - {a.id}
      && (forall k :: k in t' ==> t'[k] == t[k])
  {
  }

  /** The stored columns that a fetched appointment shows. */
  predicate Shows(a: Appointment, p: AppointmentPayload)
  {
    && p.date == a.date && p.time == a.time && a.duration == Some(p.duration) && p.status == a.status
    && a.revenue == Some(p.revenue) && p.location == a.location && p.notes == a.notes
    && p.customerId == (if a.customer.Some? then Some(a.customer.value.id) else None)
    && p.productId == (if a.product.Some? then Some(a.product.value.id) else None)
  }

  /** Submitting the edit form unchanged leaves the stored row as it was,
      provided the selected day is the appointment's own day, its duration
      is not 0, its revenue prints and parses back to itself, and no text
      column holds "" (which would be written back as null). */
  lemma {:induction false} UnchangedEditIsIdempotent(t: Store.Table<AppointmentRow>, a: Appointment,
                                                     showRevenue: real -> string, parse: string -> Option<real>,
                                                     sellerId: Option<string>, newId: string)
    requires a.id in t && Shows(a, t[a.id].payload)
    requires a.duration != Some(0)
    requires parse(showRevenue(a.revenue.value)) == Some(a.revenue.value)
    requires a.location != Some("") && a.notes != Some("")
    requires a.customer.Some? ==> a.customer.value.id != ""
    requires a.product.Some? ==> a.product.value.id != ""
    ensures var m := SubmitMutation(Some(a.date), Some(a), EditForm(a, showRevenue), sellerId, parse);
      m.Some? && Apply(t, m.value, newId) == t
  {
    var p := BuildPayload(EditForm(a, showRevenue), a.date, parse);
    NullableRoundTrip(a.location);
    NullableRoundTrip(a.notes);
    assert p == t[a.id].payload;
    assert t[a.id := t[a.id].(payload := p)] == t;
  }

  /** The same unchanged edit submitted while another day is selected moves
      the stored appointment to that day. */
  lemma UnchangedEditMovesToSelectedDay(t: Store.Table<AppointmentRow>, a: Appointment, d: Day,
                                        showRevenue: real -> string, parse: string -> Option<real>,
                                        sellerId: Option<string>, newId: string)
    requires a.id in t && d != a.date
    ensures var m := SubmitMutation(Some(d), Some(a), EditForm(a, showRevenue), sellerId, parse);
      m.Some? && Apply(t, m.value, newId)[a.id].payload.date == d != a.date
  {
  }

  // ---------------------------------------------------------------------
  // The product selector's filter
  // ---------------------------------------------------------------------

  /** `.eq('stock_quantity', 0).gt('stock_quantity', 0)`. */
  predicate SelectorStockFilter(stock: int)
  {
    stock == 0 && stock > 0
  }

  /** No stock level passes the selector's filter, so the product selector
      is always empty. */
  lemma SelectorFilterMatchesNothing(stocks: seq<int>)
    ensures Filter(stocks, SelectorStockFilter) == []
  {
  }

  // ---------------------------------------------------------------------
  // The page
  // ---------------------------------------------------------------------

  class CalendarPage {
    var appointments: seq<Appointment>
    var customers: seq<CustomerSummary>
    var products: seq<ProductSummary>
    var selectedDay: Option<Day>
    var isModalOpen: bool
    var editingAppointment: Option<Appointment>
    var isLoading: bool
    var form: AppointmentForm
    /** The mutations sent to the `appointments` table, oldest first. */
    var issued: seq<AppointmentMutation>

    constructor ()
      ensures appointments == [] && customers == [] && products == []
      ensures selectedDay == None && !isModalOpen && editingAppointment == None
      ensures isLoading && form == DefaultForm && issued == []
    {
      appointments, customers, products := [], [], [];
      selectedDay, isModalOpen, editingAppointment := None, false, None;
      isLoading, form, issued := true, DefaultForm, [];
    }

    /** `fetchData`: each list is replaced by its query's rows, or kept when
        the query returned no data. */
    method FetchData(appts: Option<seq<Appointment>>, custs: Option<seq<CustomerSummary>>,
                     prods: Option<seq<ProductSummary>>)
      modifies this
      ensures appointments == (if appts.Some? then appts.value else old(appointments))
      ensures customers == (if custs.Some? then custs.value else old(customers))
      ensures products == (if prods.Some? then prods.value else old(products))
      ensures !isLoading
      ensures selectedDay == old(selectedDay) && isModalOpen == old(isModalOpen)
      ensures editingAppointment == old(editingAppointment) && form == old(form) && issued == old(issued)
    {
      isLoading := true;
      if appts.Some? { appointments := appts.value; }
      if custs.Some? { customers := custs.value; }
      if prods.Some? { products := prods.value; }
      isLoading := false;
    }

    /** `handleDayClick(d)`: a blank create form for day `d`. */
    method DayClick(d: Day)
      modifies this
      ensures selectedDay == Some(d) && form == DefaultForm
      ensures editingAppointment == None && isModalOpen
      ensures appointments == old(appointments) && customers == old(customers) && products == old(products)
      ensures isLoading == old(isLoading) && issued == old(issued)
    {
      selectedDay := Some(d);
      form := DefaultForm;
      editingAppointment := None;
      isModalOpen := true;
    }

    /** `handleEditAppointment(a)`: the form pre-filled from `a`; the selected
        day is left as it was. */
    method EditAppointment(a: Appointment, showRevenue: real -> string)
      modifies this
      ensures editingAppointment == Some(a) && form == EditForm(a, showRevenue) && isModalOpen
      ensures selectedDay == old(selectedDay)
      ensures appointments == old(appointments) && customers == old(customers) && products == old(products)
      ensures isLoading == old(isLoading) && issued == old(issued)
    {
      editingAppointment := Some(a);
      form := EditForm(a, showRevenue);
      isModalOpen := true;
    }

    /** The cancel button and the dialog's dismissal. */
    method CloseModal()
      modifies this
      ensures !isModalOpen
      ensures selectedDay == old(selectedDay) && editingAppointment == old(editingAppointment) && form == old(form)
      ensures appointments == old(appointments) && customers == old(customers) && products == old(products)
      ensures isLoading == old(isLoading) && issued == old(issued)
    {
      isModalOpen := false;
    }

    /** `handleSubmit`: without a selected day nothing happens (the modal
        stays open); otherwise the mutation is issued, the modal closes and
        the data is fetched again whatever the mutation's outcome. */
    method Submit(sellerId: Option<string>, parse: string -> Option<real>,
                  appts: Option<seq<Appointment>>, custs: Option<seq<CustomerSummary>>,
                  prods: Option<seq<ProductSummary>>)
      modifies this
      ensures var m := SubmitMutation(old(selectedDay), old(editingAppointment), old(form), sellerId, parse);
        issued == old(issued) + (if m.Some? then [m.value] else [])
      ensures old(selectedDay).None? ==>
        && isModalOpen == old(isModalOpen) && appointments == old(appointments)
        && customers == old(customers) && products == old(products) && isLoading == old(isLoading)
      ensures old(selectedDay).Some? ==>
        && !isModalOpen && !isLoading
        && appointments == (if appts.Some? then appts.value else old(appointments))
        && customers == (if custs.Some? then custs.value else old(customers))
        && products == (if prods.Some? then prods.value else old(products))
      ensures selectedDay == old(selectedDay) && editingAppointment == old(editingAppointment) && form == old(form)
    {
      var m := SubmitMutation(selectedDay, editingAppointment, form, sellerId, parse);
      if m.None? {
        return;
      }
      issued := issued + [m.value];
      isModalOpen := false;
      FetchData(appts, custs, prods);
    }

    /** `handleDeleteAppointment`: nothing unless an appointment is being
        edited; then a delete by its id, the modal closes and the data is
        fetched again. There is no confirmation on this page. */
    method DeleteAppointment(appts: Option<seq<Appointment>>, custs: Option<seq<CustomerSummary>>,
                             prods: Option<seq<ProductSummary>>)
      modifies this
      ensures var m := DeleteMutation(old(editingAppointment));
        issued == old(issued) + (if m.Some? then [m.value] else [])
      ensures old(editingAppointment).None? ==>
        && isModalOpen == old(isModalOpen) && appointments == old(appointments)
        && customers == old(customers) && products == old(products) && isLoading == old(isLoading)
      ensures old(editingAppointment).Some? ==>
        && !isModalOpen && !isLoading
        && appointments == (if appts.Some? then appts.value else old(appointments))
        && customers == (if custs.Some? then custs.value else old(customers))
        && products == (if prods.Some? then prods.value else old(products))
      ensures selectedDay == old(selectedDay) && editingAppointment == old(editingAppointment) && form == old(form)
    {
      var m := DeleteMutation(editingAppointment);
      if m.None? {
        return;
      }
      issued := issued + [m.value];
      isModalOpen := false;
      FetchData(appts, custs, prods);
    }
  }
}
