/**
 * The booking endpoints of the API: the free-slot filter of
 * `GET /api/timeslots` and the stored record and response of
 * `POST /api/bookings`. The database is a parameter (the booking records it
 * holds); the reference, the id and the clock readings are parameters too.
 */
module Server {
  import opened Optional
  import opened Subsequence

  /** `TIME_SLOTS`. */
  const TimeSlots: seq<string> := [
    "9:00 AM", "9:30 AM", "10:00 AM", "10:30 AM", "11:00 AM", "11:30 AM",
    "12:00 PM", "12:30 PM", "1:00 PM", "1:30 PM", "2:00 PM", "2:30 PM",
    "3:00 PM", "3:30 PM", "4:00 PM", "4:30 PM", "5:00 PM", "5:30 PM",
    "6:00 PM", "6:30 PM", "7:00 PM"
  ]

  /** The id of the "Any Available" stylist. */
  const AnyAvailable: int := 4

  /** `ServiceItem` as the booking request declares it. */
  datatype ServiceItem = ServiceItem(category: string, name: string, price: string, duration: int)

  datatype ClientInfo = ClientInfo(
    firstName: string, lastName: string, email: string, phone: string, notes: Option<string>)

  /** `BookingCreate`: a legacy single service, or a list of services, plus the rest. */
  datatype BookingCreate = BookingCreate(
    serviceCategory: Option<string>, serviceName: Option<string>,
    servicePrice: Option<string>, serviceDuration: Option<int>,
    services: Option<seq<ServiceItem>>, totalDuration: Option<int>, totalPriceMin: Option<string>,
    date: string, time: string, stylistId: int, stylistName: string, client: ClientInfo)

  /** `Booking`, the stored record; `createdAt` is a clock reading. */
  datatype Booking = Booking(
    id: string, reference: string, status: string,
    serviceCategory: Option<string>, serviceName: Option<string>,
    servicePrice: Option<string>, serviceDuration: Option<int>,
    services: Option<seq<ServiceItem>>, totalDuration: Option<int>, totalPriceMin: Option<string>,
    date: string, time: string, stylistId: int, stylistName: string,
    clientFirstName: string, clientLastName: string, clientEmail: string,
    clientPhone: string, clientNotes: string, createdAt: int)

  // ------------------------------------------------------------ time slots

  /** The Mongo filter: a date, and a stylist id only when one is set. */
  datatype Query = Query(date: string, stylistId: Option<int>)

  /** The query of `get_time_slots`: a stylist filter only for a given, non-zero id that is not "Any Available". */
  function SlotQuery(date: string, stylistId: Option<int>): (q: Query)
    ensures q.date == date
    ensures q.stylistId.Some? <==> stylistId.Some? && stylistId.value != 0 && stylistId.value != AnyAvailable
    ensures q.stylistId.Some? ==> q.stylistId == stylistId
  {
    match stylistId
    case Some(id) => if id != 0 && id != AnyAvailable then Query(date, Some(id)) else Query(date, None)
    case None => Query(date, None)
  }

  predicate Matches(q: Query, b: Booking) {
    b.date == q.date && (q.stylistId.Some? ==> b.stylistId == q.stylistId.value)
  }

  /** `db.bookings.find(query)`: the stored records the query matches. */
  function Find(db: seq<Booking>, q: Query): (found: seq<Booking>)
    ensures forall b :: b in found <==> b in db && Matches(q, b)
  {
    if db == [] then []
    else (if Matches(q, db[0]) then [db[0]] else []) + Find(db[1..], q)
  }

  /** `[slot for slot in slots if slot not in booked]`. */
  function AvailableSlots(slots: seq<string>, booked: seq<string>): (free: seq<string>)
    ensures IsSubsequence(free, slots)
    ensures forall s :: s in free <==> s in slots && s !in booked
  {
    if slots == [] then []
    else
      var rest := AvailableSlots(slots[1..], booked);
      assert [slots[0]] + slots[1..] == slots;
      if slots[0] in booked then
        SubsequenceSkip(rest, slots[1..], slots[0]);
        rest
      else
        SubsequenceKeep(rest, slots[1..], slots[0]);
        [slots[0]] + rest
  }

  datatype TimeSlotsResponse = TimeSlotsResponse(date: string, stylistId: Option<int>, availableSlots: seq<string>)

  /**
   * `get_time_slots`: collect the times of the matching bookings, then keep
   * the slots none of them takes, in `TIME_SLOTS` order.
   */
  method GetTimeSlots(date: string, stylistId: Option<int>, db: seq<Booking>) returns (r: TimeSlotsResponse)
    ensures r.date == date && r.stylistId == stylistId
    ensures IsSubsequence(r.availableSlots, TimeSlots)
    ensures forall slot :: slot in r.availableSlots <==>
      slot in TimeSlots && !(exists b :: b in db && Matches(SlotQuery(date, stylistId), b) && b.time == slot)
  {
    var query := SlotQuery(date, stylistId);
    var found := Find(db, query);
    var bookedTimes: seq<string> := [];
    var i := 0;
    while i < |found|
      invariant 0 <= i <= |found|
      invariant |bookedTimes| == i
      invariant forall j :: 0 <= j < i ==> bookedTimes[j] == found[j].time
    {
      bookedTimes := bookedTimes + [found[i].time];
      i := i + 1;
    }
    var availableSlots := AvailableSlots(TimeSlots, bookedTimes);
    forall slot
      ensures slot in bookedTimes <==> exists b :: b in db && Matches(query, b) && b.time == slot
    {
      if slot in bookedTimes {
        var j :| 0 <= j < |bookedTimes| && bookedTimes[j] == slot;
        assert found[j] in found;
      }
      if exists b :: b in db && Matches(query, b) && b.time == slot {
        var b :| b in db && Matches(query, b) && b.time == slot;
        var j :| 0 <= j < |found| && found[j] == b;
        assert bookedTimes[j] == slot;
      }
    }
    r := TimeSlotsResponse(date, stylistId, availableSlots);
  }

  /** With no stylist, stylist 0 or "Any Available", only the date decides what is booked. */
  lemma AnyStylistFiltersByDateOnly(date: string, stylistId: Option<int>, b: Booking)
    requires stylistId == None || stylistId == Some(0) || stylistId == Some(AnyAvailable)
    ensures Matches(SlotQuery(date, stylistId), b) <==> b.date == date
  {
  }

  // --------------------------------------------------------------- bookings

  /** `booking_data.services and len(booking_data.services) > 0`. */
  predicate HasServices(data: BookingCreate) {
    data.services.Some? && |data.services.value| > 0
  }

  /** `notes or ""`. */
  function NotesOrEmpty(notes: Option<string>): string {
    match notes
    case Some(n) => n
    case None => ""
  }

  /** The record `create_booking` builds, before the insert overwrites `created_at`. */
  function BookingRecord(data: BookingCreate, reference: string, id: string, createdAt: int): (b: Booking)
    ensures b.id == id && b.reference == reference && b.status == "confirmed" && b.createdAt == createdAt
    ensures b.services.Some? <==> HasServices(data)
    ensures HasServices(data) ==>
      && b.services == data.services
      && b.totalDuration == data.totalDuration && b.totalPriceMin == data.totalPriceMin
      && b.serviceCategory == None && b.serviceName == None
      && b.servicePrice == None && b.serviceDuration == None
    ensures !HasServices(data) ==>
      && b.totalDuration == None && b.totalPriceMin == None
      && b.serviceCategory == data.serviceCategory && b.serviceName == data.serviceName
      && b.servicePrice == data.servicePrice && b.serviceDuration == data.serviceDuration
    ensures b.date == data.date && b.time == data.time
    ensures b.stylistId == data.stylistId && b.stylistName == data.stylistName
    ensures b.clientFirstName == data.client.firstName && b.clientLastName == data.client.lastName
    ensures b.clientEmail == data.client.email && b.clientPhone == data.client.phone
    ensures b.clientNotes == if data.client.notes.Some? then data.client.notes.value else ""
  {
    if HasServices(data) then
      Booking(id, reference, "confirmed", None, None, None, None,
              data.services, data.totalDuration, data.totalPriceMin,
              data.date, data.time, data.stylistId, data.stylistName,
              data.client.firstName, data.client.lastName, data.client.email,
              data.client.phone, NotesOrEmpty(data.client.notes), createdAt)
    else
      Booking(id, reference, "confirmed",
              data.serviceCategory, data.serviceName, data.servicePrice, data.serviceDuration,
              None, None, None,
              data.date, data.time, data.stylistId, data.stylistName,
              data.client.firstName, data.client.lastName, data.client.email,
              data.client.phone, NotesOrEmpty(data.client.notes), createdAt)
  }

  /** The fields that depend on the kind of booking. */
  datatype ServiceDetails =
    | MultiService(services: seq<ServiceItem>, totalDuration: Option<int>, totalPriceMin: Option<string>)
    | SingleService(category: Option<string>, name: Option<string>, price: Option<string>, duration: Option<int>)

  datatype BookingResponse = BookingResponse(
    id: string, reference: string, status: string, date: string, time: string,
    stylistName: string, clientName: string, clientEmail: string, createdAt: int,
    details: ServiceDetails)

  /** The response dict of `create_booking`, built from the record. */
  function ResponseOf(b: Booking): (r: BookingResponse)
    ensures r.reference == b.reference && r.createdAt == b.createdAt
    ensures r.clientName == b.clientFirstName + " " + b.clientLastName
    ensures r.details.MultiService? <==> b.services.Some? && |b.services.value| > 0
    ensures r.details.MultiService? ==>
      && r.details.services == b.services.value
      && r.details.totalDuration == b.totalDuration && r.details.totalPriceMin == b.totalPriceMin
    ensures r.details.SingleService? ==>
      r.details == SingleService(b.serviceCategory, b.serviceName, b.servicePrice, b.serviceDuration)
  {
    var details :=
      if b.services.Some? && |b.services.value| > 0 then
        MultiService(b.services.value, b.totalDuration, b.totalPriceMin)
      else
        SingleService(b.serviceCategory, b.serviceName, b.servicePrice, b.serviceDuration);
    BookingResponse(b.id, b.reference, "confirmed", b.date, b.time, b.stylistName,
                    b.clientFirstName + " " + b.clientLastName, b.clientEmail, b.createdAt, details)
  }

  datatype Created = Created(stored: Booking, response: BookingResponse)

  /**
   * `create_booking`: the record as inserted (its `created_at` replaced by a
   * second clock reading, `storedAt`) and the response, which reports the
   * record's own `createdAt`.
   */
  function CreateBooking(data: BookingCreate, reference: string, id: string, createdAt: int, storedAt: int)
    : (c: Created)
    ensures c.stored == BookingRecord(data, reference, id, createdAt).(createdAt := storedAt)
    ensures c.response.reference == reference && c.response.createdAt == createdAt
    ensures c.response.details.MultiService? <==> HasServices(data)
    ensures HasServices(data) ==>
      c.response.details == MultiService(data.services.value, data.totalDuration, data.totalPriceMin)
    ensures !HasServices(data) ==>
      c.response.details == SingleService(data.serviceCategory, data.serviceName,
                                           data.servicePrice, data.serviceDuration)
    ensures c.response.clientName == data.client.firstName + " " + data.client.lastName
  {
    var booking := BookingRecord(data, reference, id, createdAt);
    Created(booking.(createdAt := storedAt), ResponseOf(booking))
  }
}
