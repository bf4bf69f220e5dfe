/**
 * The booking page: the service catalogue, the booking form and the order
 * its submit hands to the ledger.
 */
module ServiceBooking {
  import opened Wrappers
  import opened Routes
  import opened AuthContext
  import opened OrderContext

  datatype Service = Service(id: string, name: string, price: int)

  /** The fixed catalogue, prices in whole rupiah. */
  const Catalogue: seq<Service> := [
    Service("laundry", "Express Laundry", 15000),
    Service("gallon", "Gallon Delivery", 10000),
    Service("lamp", "Lamp Replacement", 25000),
    Service("cleaning", "Room Cleaning", 40000),
    Service("shopping", "Shopping Assistant", 20000)
  ]

  /** The ten time slots the form offers. */
  const TimeSlots: seq<string> :=
    ["08:00", "09:00", "10:00", "11:00", "13:00", "14:00", "15:00", "16:00", "17:00", "18:00"]

  /** The hour of an "HH:00" slot. */
  function SlotHour(slot: string): int
    requires |slot| == 5
  {
    (slot[0] as int - '0' as int) * 10 + (slot[1] as int - '0' as int)
  }

  /**
   * The slots are on the hour, from 08:00 to 18:00 in increasing order (so
   * no slot is offered twice), with no slot at 12:00.
   */
  lemma TimeSlotsHourly()
    ensures |TimeSlots| == 10
    ensures forall i :: 0 <= i < |TimeSlots| ==> |TimeSlots[i]| == 5 && TimeSlots[i][2..] == ":00"
    ensures SlotHour(TimeSlots[0]) == 8 && SlotHour(TimeSlots[9]) == 18
    ensures forall i, j :: 0 <= i < j < |TimeSlots| ==> SlotHour(TimeSlots[i]) < SlotHour(TimeSlots[j])
    ensures forall i :: 0 <= i < |TimeSlots| ==> SlotHour(TimeSlots[i]) != 12
  {
    var hours := [8, 9, 10, 11, 13, 14, 15, 16, 17, 18];
    forall i | 0 <= i < |TimeSlots|
      ensures |TimeSlots[i]| == 5 && TimeSlots[i][2..] == ":00" && SlotHour(TimeSlots[i]) == hours[i]
    {
    }
  }

  /** `services.find(s => s.id === id)` over a list of services. */
  function FindService(services: seq<Service>, id: string): (r: Option<Service>)
    ensures r.Some? ==> r.value in services && r.value.id == id
    ensures r.None? <==> forall sv :: sv in services ==> sv.id != id
  {
    if services == [] then None
    else if services[0].id == id then Some(services[0])
    else FindService(services[1..], id)
  }

  /** `selectedService`: the catalogue entry for an id; every entry is priced between 10000 and 40000. */
  function SelectedService(id: string): (r: Option<Service>)
    ensures r.Some? ==> r.value.id == id && 10000 <= r.value.price <= 40000
    ensures r.None? <==> id !in {"laundry", "gallon", "lamp", "cleaning", "shopping"}
  {
    FindService(Catalogue, id)
  }

  /** `find` returns the entry at `k` when it carries the id and no earlier entry does. */
  lemma {:induction false} FindServiceAt(services: seq<Service>, id: string, k: int)
    requires 0 <= k < |services| && services[k].id == id
    requires forall j :: 0 <= j < k ==> services[j].id != id
    ensures FindService(services, id) == Some(services[k])
    decreases k
  {
    if k > 0 {
      var rest := services[1..];
      forall j | 0 <= j < k - 1
        ensures rest[j].id != id
      {
        assert rest[j] == services[j + 1];
      }
      FindServiceAt(rest, id, k - 1);
    }
  }

  /** Each catalogue entry is what its own id selects: the ids are distinct, so no entry shadows another. */
  lemma CatalogueEntries(k: int)
    requires 0 <= k < |Catalogue|
    ensures SelectedService(Catalogue[k].id) == Some(Catalogue[k])
  {
    if k == 0 {
      FindServiceAt(Catalogue, "laundry", 0);
    } else if k == 1 {
      FindServiceAt(Catalogue, "gallon", 1);
    } else if k == 2 {
      FindServiceAt(Catalogue, "lamp", 2);
    } else if k == 3 {
      FindServiceAt(Catalogue, "cleaning", 3);
    } else {
      FindServiceAt(Catalogue, "shopping", 4);
    }
  }

  /** The booking form's fields; `service` holds a catalogue id, '' while none is chosen. */
  datatype BookingForm = BookingForm(
    service: string, details: string, address: string, date: string, time: string, notes: string)

  /** The form as the page first fills it: everything empty except the address, which is the user's own. */
  function InitialForm(user: Option<User>): (f: BookingForm)
    ensures f.service == "" && f.details == "" && f.date == "" && f.time == "" && f.notes == ""
    ensures user.Some? ==> f.address == user.value.address
    ensures user.None? ==> f.address == ""
  {
    BookingForm("", "", if user.Some? then user.value.address else "", "", "", "")
  }

  /** Without a user the page goes to the login page. */
  function Guard(user: Option<User>): (out: Outcome)
    ensures out == Render <==> user.Some?
    ensures out != Render ==> out == Redirect("/login")
  {
    if user.None? then Redirect("/login") else Render
  }

  /** The submit button is disabled while loading or while no service is chosen. */
  function SubmitDisabled(form: BookingForm, loading: bool): (disabled: bool)
    ensures !disabled <==> !loading && form.service != ""
  {
    loading || form.service == ""
  }

  /**
   * What `handleSubmit` passes to `createOrder`: the logged-in user's id, the
   * selected service's name and price (falling back to '' and 0 when the id
   * matches no service) and the form's details, address, date and time.
   */
  function OrderDataFor(user: User, form: BookingForm): (d: OrderData)
    ensures d.userId == user.id
    ensures d.details == form.details && d.address == form.address && d.date == form.date && d.time == form.time
    ensures SelectedService(form.service).Some? ==>
      d.service == SelectedService(form.service).value.name && d.price == SelectedService(form.service).value.price
    ensures SelectedService(form.service).None? ==> d.service == "" && d.price == 0
    ensures d.price >= 0
  {
    var sel := SelectedService(form.service);
    OrderData(
      user.id,
      if sel.Some? then sel.value.name else "",
      form.details, form.address, form.date, form.time,
      if sel.Some? then sel.value.price else 0)
  }

  /** The notes field is collected but never reaches the ledger. */
  lemma NotesIgnored(user: User, form: BookingForm, notes: string)
    ensures OrderDataFor(user, form.(notes := notes)) == OrderDataFor(user, form)
  {
  }

  /**
   * `handleSubmit` for a logged-in user: one order is appended for the form
   * and the page then goes to the tracking page highlighting it. `id` and
   * `now` are what the clock supplies.
   */
  method HandleSubmit(store: OrderStore, user: User, form: BookingForm, id: string, now: int)
    returns (nav: string)
    modifies store
    ensures store.orders == old(store.orders) + [NewOrder(OrderDataFor(user, form), id, now)]
    ensures nav == "/track-order?highlight=" + id
  {
    var orderId := store.CreateOrder(OrderDataFor(user, form), id, now);
    nav := "/track-order?highlight=" + orderId;
  }
}
