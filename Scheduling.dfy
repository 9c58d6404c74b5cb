/** Consultation session slots and bookings (main/models.py SessionTime and
    Booking, the public bookings form in main/views.py, and the dashboard's
    booking and session endpoints in dashboard/views.py). The two tables
    are maps from primary key to row; a status is the HTTP status code of
    the JSON reply. */
module Scheduling {
  import opened Base
  import opened Calendar

  /** A session's (date, time); the time is minutes after midnight. */
  datatype Slot = Slot(date: Date, minute: nat)

  datatype SessionTime = SessionTime(slot: Slot, isAvailable: bool)

  datatype Booking = Booking(
    fullName: string,
    email: string,
    whatsappNumber: string,
    sessionId: nat,
    durationHours: int,
    totalPrice: int,
    status: string)

  /** Booking.STATUS_CHOICES, by stored value. */
  const StatusChoices: seq<string> := ["pending", "ongoing", "completed", "cancelled"]

  const DefaultStatus: string := "pending"
  const DefaultDuration: int := 1

  /** The price in naira of a booking of the given hours. */
  const HourlyRate: int := 10000

  function Price(hours: int): (p: int)
    ensures hours >= 0 ==> p >= 0
    ensures p == HourlyRate * hours
  {
    hours * HourlyRate
  }

  predicate IsStatus(s: string) {
    s in StatusChoices
  }

  /** The default booking is pending, lasts one hour and costs 10000. */
  lemma DefaultBookingPrice()
    ensures IsStatus(DefaultStatus) && Price(DefaultDuration) == 10000
  {
  }

  /** A session other than `exclude` already holds the slot. */
  predicate SlotTaken(sessions: map<nat, SessionTime>, slot: Slot, exclude: Option<nat>) {
    exists id :: id in sessions && sessions[id].slot == slot && exclude != Some(id)
  }

  /** The (date, time) pairs are unique. */
  predicate SlotsUnique(sessions: map<nat, SessionTime>) {
    forall i, j :: i in sessions && j in sessions && i != j ==> sessions[i].slot != sessions[j].slot
  }

  predicate HasBookings(bookings: map<nat, Booking>, sessionId: nat) {
    exists b :: b in bookings && bookings[b].sessionId == sessionId
  }

  /** The result of the public bookings form. */
  datatype FormOutcome =
    | Submitted(id: nat)
    | MissingFields          // "Please fill in all required fields!"
    | SessionUnavailable     // SessionTime.DoesNotExist
    | Failed                 // any other exception, such as int() of a non-number

  /** The column sizes of a booking row: full_name 200, email 254
      (EmailField's default), whatsapp_number 20, and total_price a
      numeric(10, 2), whose absolute value stays below 10^8. */
  const NameWidth: nat := 200
  const EmailWidth: nat := 254
  const WhatsappWidth: nat := 20
  const PriceBound: int := 100_000_000

  /** The row fits its columns; PostgreSQL refuses any other and the
      INSERT or UPDATE raises. A price in range also keeps duration_hours
      inside its 32-bit integer column. */
  predicate FitsColumns(b: Booking) {
    && |b.fullName| <= NameWidth
    && |b.email| <= EmailWidth
    && |b.whatsappNumber| <= WhatsappWidth
    && -PriceBound < b.totalPrice < PriceBound
  }

  /** A form value is present and not empty (Python truthiness). */
  predicate Filled(v: Option<string>) {
    v.Some? && v.value != ""
  }

  /** int(request.POST.get('duration_hours', 1)); None when int() raises. */
  function DurationOf(raw: Option<string>): (r: Option<int>)
    ensures raw.None? ==> r == Some(DefaultDuration)
    ensures raw.Some? ==> r == ParseInt(raw.value)
  {
    if raw.None? then Some(DefaultDuration) else ParseInt(raw.value)
  }

  predicate AllFilled(a: Option<string>, b: Option<string>, c: Option<string>, d: Option<string>) {
    Filled(a) && Filled(b) && Filled(c) && Filled(d)
  }

  /** SessionTime.objects.get(id=..., is_available=True) finds a row. */
  predicate Bookable(sessions: map<nat, SessionTime>, id: Option<int>) {
    id.Some? && id.value >= 0 && id.value in sessions && sessions[id.value].isAvailable
  }

  /** The row Booking.objects.create writes. */
  function NewBooking(fullName: string, email: string, whatsappNumber: string, sessionId: nat, hours: int): (b: Booking)
    ensures b.status == DefaultStatus && b.totalPrice == hours * 10000
  {
    Booking(fullName, email, whatsappNumber, sessionId, hours, Price(hours), DefaultStatus)
  }

  /** 10000 hours cost 100000000.00, which overflows numeric(10, 2): such a
      booking cannot be stored, whatever its other fields. */
  lemma TenThousandHoursDoNotFit(fullName: string, email: string, whatsappNumber: string, sessionId: nat)
    ensures !FitsColumns(NewBooking(fullName, email, whatsappNumber, sessionId, 10000))
    ensures FitsColumns(NewBooking("", "", "", sessionId, 9999))
  {
  }

  /** A form without duration_hours books one hour for 10000. */
  lemma DefaultFormDuration(fullName: string, email: string, whatsappNumber: string, sessionId: nat)
    ensures DurationOf(None) == Some(1)
    ensures NewBooking(fullName, email, whatsappNumber, sessionId, DurationOf(None).value).totalPrice == 10000
  {
  }

  class Schedule {
    var sessions: map<nat, SessionTime>
    var bookings: map<nat, Booking>
    /** The next primary key of each table. */
    var nextSessionId: nat
    var nextBookingId: nat

    /** The database invariants: unique slots, keys below the counters,
        every booking on an existing session (on_delete=PROTECT), with a
        valid status and the price its save computed. */
    predicate Valid()
      reads this
    {
      && SlotsUnique(sessions)
      && (forall id :: id in sessions ==> id < nextSessionId)
      && (forall id :: id in bookings ==> id < nextBookingId)
      && (forall id :: id in bookings ==> bookings[id].sessionId in sessions)
      && (forall id :: id in bookings ==> IsStatus(bookings[id].status))
      && (forall id :: id in bookings ==> bookings[id].totalPrice == Price(bookings[id].durationHours))
      && (forall id :: id in bookings ==> FitsColumns(bookings[id]))
    }

    constructor()
      ensures Valid() && sessions == map[] && bookings == map[]
    {
      sessions := map[];
      bookings := map[];
      nextSessionId := 1;
      nextBookingId := 1;
    }

    /** Booking.save: the price is recomputed from the hours whatever it
        held; a booking on an unavailable session raises ValidationError,
        and a row that does not fit its columns makes the database raise;
        either way nothing is written. `id` is None for a new row. */
    method SaveBooking(id: Option<nat>, b: Booking) returns (saved: Option<nat>)
      requires Valid()
      requires b.sessionId in sessions && IsStatus(b.status)
      requires id.Some? ==> id.value in bookings
      modifies this
      ensures Valid()
      ensures sessions == old(sessions) && nextSessionId == old(nextSessionId)
      ensures saved.None? <==> !sessions[b.sessionId].isAvailable || !FitsColumns(b.(totalPrice := Price(b.durationHours)))
      ensures saved.None? ==> bookings == old(bookings) && nextBookingId == old(nextBookingId)
      ensures saved.Some? ==>
                && (id.Some? ==> saved == id && nextBookingId == old(nextBookingId))
                && (id.None? ==> saved == Some(old(nextBookingId)) && nextBookingId == old(nextBookingId) + 1)
                && bookings == old(bookings)[saved.value := b.(totalPrice := Price(b.durationHours))]
    {
      var row := b.(totalPrice := Price(b.durationHours));
      if !sessions[b.sessionId].isAvailable {
        return None;
      }
      if !FitsColumns(row) {
        return None;
      }
      var key;
      if id.Some? {
        key := id.value;
      } else {
        key := nextBookingId;
        nextBookingId := nextBookingId + 1;
      }
      bookings := bookings[key := row];
      saved := Some(key);
    }

    /** The POST branch of the bookings view: duration_hours is converted
        first (default 1), then the four required fields are checked, then
        an available session with the given id is looked up, and the new
        booking is created as pending; a row that does not fit its columns
        fails like any other exception. Every failure creates nothing. */
    method SubmitBooking(
      fullName: Option<string>, email: Option<string>, whatsappNumber: Option<string>,
      durationHours: Option<string>, sessionTimeId: Option<string>)
      returns (outcome: FormOutcome)
      requires Valid()
      modifies this
      ensures Valid()
      ensures sessions == old(sessions)
      ensures !outcome.Submitted? ==> bookings == old(bookings) && nextBookingId == old(nextBookingId)
      ensures DurationOf(durationHours).None? ==> outcome == Failed
      ensures DurationOf(durationHours).Some? && !AllFilled(fullName, email, whatsappNumber, sessionTimeId) ==>
                outcome == MissingFields
      ensures outcome == SessionUnavailable ==>
                sessionTimeId.Some? && !Bookable(old(sessions), ParseInt(sessionTimeId.value))
      ensures DurationOf(durationHours).Some? && AllFilled(fullName, email, whatsappNumber, sessionTimeId) ==>
                var sid := ParseInt(sessionTimeId.value);
                && (sid.None? ==> outcome == Failed)
                && (sid.Some? && !Bookable(old(sessions), sid) ==> outcome == SessionUnavailable)
                && (Bookable(old(sessions), sid) ==>
                      var row := NewBooking(fullName.value, email.value, whatsappNumber.value,
                                            sid.value, DurationOf(durationHours).value);
                      (FitsColumns(row) ==> outcome.Submitted?) && (!FitsColumns(row) ==> outcome == Failed))
      ensures outcome.Submitted? ==>
                && AllFilled(fullName, email, whatsappNumber, sessionTimeId)
                && DurationOf(durationHours).Some?
                && Bookable(old(sessions), ParseInt(sessionTimeId.value))
                && FitsColumns(NewBooking(fullName.value, email.value, whatsappNumber.value,
                                          ParseInt(sessionTimeId.value).value, DurationOf(durationHours).value))
                && outcome.id == old(nextBookingId)
                && bookings == old(bookings)[outcome.id :=
                     NewBooking(fullName.value, email.value, whatsappNumber.value,
                                ParseInt(sessionTimeId.value).value, DurationOf(durationHours).value)]
    {
      var hours := DurationOf(durationHours);
      if hours.None? {
        return Failed;
      }
      if !AllFilled(fullName, email, whatsappNumber, sessionTimeId) {
        return MissingFields;
      }
      var sid := ParseInt(sessionTimeId.value);
      if sid.None? {
        return Failed;
      }
      if !Bookable(sessions, sid) {
        return SessionUnavailable;
      }
      var b := Booking(fullName.value, email.value, whatsappNumber.value, sid.value, hours.value, 0, DefaultStatus);
      var saved := SaveBooking(None, b);
      if saved.None? {
        return Failed;
      }
      outcome := Submitted(saved.value);
    }

    /** booking_update_status: 400 for a request that is not AJAX or a
        status outside the four choices, 404 for an unknown booking, 500 when
        save raises for an unavailable session, 200 once saved. */
    method UpdateBookingStatus(ajax: bool, id: nat, newStatus: Option<string>) returns (status: int)
      requires Valid()
      modifies this
      ensures Valid()
      ensures sessions == old(sessions) && nextBookingId == old(nextBookingId)
      ensures status != 200 ==> bookings == old(bookings)
      ensures !ajax ==> status == 400
      ensures ajax && id !in old(bookings) ==> status == 404
      ensures ajax && id in old(bookings) && !(newStatus.Some? && IsStatus(newStatus.value)) ==> status == 400
      ensures status == 500 <==>
                ajax && id in old(bookings) && newStatus.Some? && IsStatus(newStatus.value)
                && !sessions[old(bookings)[id].sessionId].isAvailable
      ensures (ajax && id in old(bookings) && newStatus.Some? && IsStatus(newStatus.value)
               && sessions[old(bookings)[id].sessionId].isAvailable) ==> status == 200
      ensures status == 200 ==>
                && newStatus.Some? && id in old(bookings)
                && bookings == old(bookings)[id := old(bookings)[id].(status := newStatus.value)]
    {
      if !ajax {
        return 400;
      }
      if id !in bookings {
        return 404;
      }
      if newStatus.None? || !IsStatus(newStatus.value) {
        return 400;
      }
      var b := bookings[id].(status := newStatus.value);
      var saved := SaveBooking(Some(id), b);
      if saved.None? {
        return 500;
      }
      status := 200;
    }

    /** booking_delete. */
    method DeleteBooking(ajax: bool, id: nat) returns (status: int)
      requires Valid()
      modifies this
      ensures Valid()
      ensures sessions == old(sessions) && nextBookingId == old(nextBookingId)
      ensures !ajax ==> status == 400 && bookings == old(bookings)
      ensures ajax && id !in old(bookings) ==> status == 404 && bookings == old(bookings)
      ensures ajax && id in old(bookings) ==> status == 200 && bookings == old(bookings) - {id}
    {
      if !ajax {
        return 400;
      }
      if id !in bookings {
        return 404;
      }
      bookings := bookings - {id};
      status := 200;
    }

    /** session_create: an unparseable date or time raises (500); a slot
        already held gives 400; otherwise an available session is added. */
    method CreateSession(ajax: bool, slot: Option<Slot>) returns (status: int, created: Option<nat>)
      requires Valid()
      modifies this
      ensures Valid()
      ensures bookings == old(bookings) && nextBookingId == old(nextBookingId)
      ensures created.None? ==> sessions == old(sessions)
      ensures !ajax ==> status == 400 && created.None?
      ensures ajax && slot.None? ==> status == 500 && created.None?
      ensures ajax && slot.Some? && SlotTaken(old(sessions), slot.value, None) ==> status == 400 && created.None?
      ensures ajax && slot.Some? && !SlotTaken(old(sessions), slot.value, None) ==>
                && status == 200 && created == Some(old(nextSessionId))
                && sessions == old(sessions)[created.value := SessionTime(slot.value, true)]
    {
      created := None;
      if !ajax {
        return 400, None;
      }
      if slot.None? {
        return 500, None;
      }
      if SlotTaken(sessions, slot.value, None) {
        return 400, None;
      }
      var id := nextSessionId;
      sessions := sessions[id := SessionTime(slot.value, true)];
      nextSessionId := nextSessionId + 1;
      status, created := 200, Some(id);
    }

    /** session_update: 404 for an unknown session, 500 for an unparseable
        date or time, 400 when another session holds the new slot; otherwise
        the slot and the availability (kept when not given) are written. */
    method UpdateSession(ajax: bool, id: nat, slot: Option<Slot>, isAvailable: Option<bool>) returns (status: int)
      requires Valid()
      modifies this
      ensures Valid()
      ensures bookings == old(bookings) && nextBookingId == old(nextBookingId) && nextSessionId == old(nextSessionId)
      ensures status != 200 ==> sessions == old(sessions)
      ensures !ajax ==> status == 400
      ensures ajax && id !in old(sessions) ==> status == 404
      ensures ajax && id in old(sessions) && slot.None? ==> status == 500
      ensures ajax && id in old(sessions) && slot.Some? && SlotTaken(old(sessions), slot.value, Some(id)) ==> status == 400
      ensures ajax && id in old(sessions) && slot.Some? && !SlotTaken(old(sessions), slot.value, Some(id)) ==>
                && status == 200
                && sessions == old(sessions)[id := SessionTime(slot.value,
                     if isAvailable.Some? then isAvailable.value else old(sessions)[id].isAvailable)]
    {
      if !ajax {
        return 400;
      }
      if id !in sessions {
        return 404;
      }
      if slot.None? {
        return 500;
      }
      if SlotTaken(sessions, slot.value, Some(id)) {
        return 400;
      }
      var available := if isAvailable.Some? then isAvailable.value else sessions[id].isAvailable;
      var old_sessions := sessions;
      sessions := sessions[id := SessionTime(slot.value, available)];
      forall i, j | i in sessions && j in sessions && i != j
        ensures sessions[i].slot != sessions[j].slot
      {
        if i == id {
          assert old_sessions[j].slot == sessions[j].slot;
        } else if j == id {
          assert old_sessions[i].slot == sessions[i].slot;
        }
      }
      status := 200;
    }

    /** session_delete: a session that still has bookings is refused. */
    method DeleteSession(ajax: bool, id: nat) returns (status: int)
      requires Valid()
      modifies this
      ensures Valid()
      ensures bookings == old(bookings) && nextBookingId == old(nextBookingId) && nextSessionId == old(nextSessionId)
      ensures status != 200 ==> sessions == old(sessions)
      ensures !ajax ==> status == 400
      ensures ajax && id !in old(sessions) ==> status == 404
      ensures ajax && id in old(sessions) && HasBookings(old(bookings), id) ==> status == 400
      ensures ajax && id in old(sessions) && !HasBookings(old(bookings), id) ==>
                status == 200 && sessions == old(sessions) - {id}
    {
      if !ajax {
        return 400;
      }
      if id !in sessions {
        return 404;
      }
      if HasBookings(bookings, id) {
        return 400;
      }
      sessions := sessions - {id};
      status := 200;
    }
  }

  /** A slot can be re-saved on its own session: the exclusion in
      session_update is what lets an unchanged slot through. */
  lemma OwnSlotNotTaken(sessions: map<nat, SessionTime>, id: nat)
    requires SlotsUnique(sessions) && id in sessions
    ensures !SlotTaken(sessions, sessions[id].slot, Some(id))
    ensures SlotTaken(sessions, sessions[id].slot, None)
  {
  }
}
