/** The /bookings routes. Each handler runs after the auth middleware, which
    supplies `callerId` (req.user.id) of a user that exists. A new row's
    UUID and the clock are parameters. A column value outside its ENUM, or a
    reference to an event or service that does not exist, makes the save
    fail, which the handler answers with a 500 and no change. */
module BookingRoutes {
  import opened Common
  import opened Query
  import opened BookingModel
  import opened Store

  const BookingTypeRequired := "Booking type is required"
  const EventIdRequired := "Event ID is required for event booking"
  const ServiceIdRequired := "Service ID is required for service booking"
  const ErrorCreating := "Error creating booking"
  const BookingNotFound := "Booking not found"
  const NotAuthorizedToUpdate := "Not authorized to update this booking"
  const NotAuthorizedToCancel := "Not authorized to cancel this booking"
  const ErrorUpdating := "Error updating booking"

  /** The fields of a POST /bookings body; `None` is an absent field. */
  datatype CreateBookingRequest = CreateBookingRequest(
    eventId: Option<Id>,
    serviceId: Option<Id>,
    bookingType: Option<string>,
    quantity: Option<int>,
    preferredDate: Option<Date>,
    notes: Option<string>,
    totalPrice: Option<Cents>)

  /** The 400 checks of POST /bookings, in their order. */
  function CreateBookingError(req: CreateBookingRequest): (err: Option<string>)
    ensures !TruthyStr(req.bookingType) ==> err == Some(BookingTypeRequired)
    ensures TruthyStr(req.bookingType) && req.bookingType.value == "Event" && !TruthyStr(req.eventId) ==>
              err == Some(EventIdRequired)
    ensures TruthyStr(req.bookingType) && req.bookingType.value == "Service" && !TruthyStr(req.serviceId) ==>
              err == Some(ServiceIdRequired)
    ensures err.None? <==>
              && TruthyStr(req.bookingType)
              && (req.bookingType.value == "Event" ==> TruthyStr(req.eventId))
              && (req.bookingType.value == "Service" ==> TruthyStr(req.serviceId))
  {
    if !TruthyStr(req.bookingType) then Some(BookingTypeRequired)
    else if req.bookingType.value == "Event" && !TruthyStr(req.eventId) then Some(EventIdRequired)
    else if req.bookingType.value == "Service" && !TruthyStr(req.serviceId) then Some(ServiceIdRequired)
    else None
  }

  /** The row Booking.create stores for a request that passed the checks;
      `None` when the type is not one of the ENUM values. */
  function BookingFromRequest(id: Id, callerId: Id, req: CreateBookingRequest, now: Date): (b: Option<Booking>)
    requires req.bookingType.Some?
    ensures b.Some? <==> ParseBookingType(req.bookingType.value).Some?
    ensures b.Some? ==> b.value.id == id && b.value.userId == callerId
    ensures b.Some? ==> BookingTypeName(b.value.bookingType) == req.bookingType.value
    ensures b.Some? && b.value.bookingType == EventBooking ==> b.value.eventId == req.eventId && b.value.serviceId == None
    ensures b.Some? && b.value.bookingType == ServiceBooking ==> b.value.serviceId == req.serviceId && b.value.eventId == None
    ensures b.Some? && TruthyInt(req.quantity) ==> b.value.quantity == req.quantity.value
    ensures b.Some? && !TruthyInt(req.quantity) ==> b.value.quantity == 1
    ensures b.Some? ==> b.value.status == Pending && b.value.bookingDate == now
    ensures b.Some? ==> b.value.preferredDate == req.preferredDate && b.value.notes == req.notes
    ensures b.Some? ==> b.value.totalPrice == req.totalPrice
  {
    match ParseBookingType(req.bookingType.value)
    case None => None
    case Some(t) =>
      Some(NewBooking(id, callerId,
                      if t == EventBooking then req.eventId else None,
                      if t == ServiceBooking then req.serviceId else None,
                      t, Some(OrInt(req.quantity, 1)), req.totalPrice, req.preferredDate, req.notes, now))
  }

  /** A booking that passes the checks holds exactly the reference its type
      calls for, and it is non-empty. */
  lemma CreatedBookingHasMatchingReference(id: Id, callerId: Id, req: CreateBookingRequest, now: Date)
    requires CreateBookingError(req).None?
    requires BookingFromRequest(id, callerId, req, now).Some?
    ensures var b := BookingFromRequest(id, callerId, req, now).value;
            ReferenceMatchesType(b) &&
            (b.eventId.Some? ==> b.eventId.value != "") && (b.serviceId.Some? ==> b.serviceId.value != "")
  {
  }

  /** POST /bookings. */
  method CreateBooking(db: Database, callerId: Id, req: CreateBookingRequest, id: Id, now: Date)
    returns (r: Response<Booking>)
    requires db.Valid() && callerId in db.users
    modifies db
    ensures db.Valid()
    ensures db.users == old(db.users) && db.events == old(db.events) && db.services == old(db.services)
    ensures CreateBookingError(req).Some? ==> r == BadRequest(CreateBookingError(req).value)
    ensures CreateBookingError(req).None? ==>
              var b := BookingFromRequest(id, callerId, req, now);
              if b.Some? && id !in old(db.bookings) && ReferencesExist(b.value, db.events, db.services)
              then r == Created(b.value)
              else r == ServerError(ErrorCreating)
    ensures r.Created? ==> db.bookings == old(db.bookings)[id := r.value]
    ensures !r.Created? ==> db.bookings == old(db.bookings)
  {
    if !TruthyStr(req.bookingType) {
      return BadRequest(BookingTypeRequired);
    }
    if req.bookingType.value == "Event" && !TruthyStr(req.eventId) {
      return BadRequest(EventIdRequired);
    }
    if req.bookingType.value == "Service" && !TruthyStr(req.serviceId) {
      return BadRequest(ServiceIdRequired);
    }
    var booking := BookingFromRequest(id, callerId, req, now);
    // the insert fails on a taken key, a value outside an ENUM or a dangling foreign key
    if booking.None? || id in db.bookings || !ReferencesExist(booking.value, db.events, db.services) {
      return ServerError(ErrorCreating);
    }
    CreatedBookingHasMatchingReference(id, callerId, req, now);
    PutBookingKeepsConsistent(db.users, db.events, db.services, db.bookings, id, booking.value);
    db.bookings := db.bookings[id := booking.value];
    r := Created(booking.value);
  }

  /** `ORDER BY bookingDate DESC`. */
  predicate NewerFirst(a: Booking, b: Booking) {
    a.bookingDate >= b.bookingDate
  }

  /** GET /bookings: every booking, newest first. */
  method AllBookings(db: Database) returns (rows: seq<Booking>)
    requires db.Valid()
    ensures multiset(rows) == multiset(db.bookings.Values)
    ensures Sorted(rows, NewerFirst)
  {
    db.TablesInjective();
    rows := Select(db.bookings, (b: Booking) => true, NewerFirst);
    assert Rows(db.bookings, (b: Booking) => true, db.bookings.Keys) == db.bookings.Values;
  }

  /** GET /bookings/user/my-bookings: exactly the caller's bookings, newest first. */
  method MyBookings(db: Database, callerId: Id) returns (rows: seq<Booking>)
    requires db.Valid()
    ensures multiset(rows) == multiset(set k | k in db.bookings && db.bookings[k].userId == callerId :: db.bookings[k])
    ensures forall i :: 0 < i < |rows| ==> rows[i - 1].bookingDate >= rows[i].bookingDate
  {
    db.TablesInjective();
    rows := Select(db.bookings, (b: Booking) => b.userId == callerId, NewerFirst);
    assert Rows(db.bookings, (b: Booking) => b.userId == callerId, db.bookings.Keys) ==
           set k | k in db.bookings && db.bookings[k].userId == callerId :: db.bookings[k];
  }

  /** GET /bookings/:id. */
  method GetBooking(db: Database, id: Id) returns (r: Response<Booking>)
    ensures id in db.bookings ==> r == Ok(db.bookings[id])
    ensures id !in db.bookings ==> r == NotFound(BookingNotFound)
  {
    if id !in db.bookings {
      return NotFound(BookingNotFound);
    }
    r := Ok(db.bookings[id]);
  }

  /** The fields of a PUT /bookings/:id body. */
  datatype UpdateBookingRequest = UpdateBookingRequest(
    quantity: Option<int>,
    preferredDate: Option<Date>,
    notes: Option<string>,
    status: Option<string>,
    totalPrice: Option<Cents>)

  /** The row the update saves: each of the five fields takes the request's
      value when that value is truthy. `None` when the status is not one of
      the ENUM values, so the save fails. */
  function MergeBooking(b: Booking, req: UpdateBookingRequest): (r: Option<Booking>)
    ensures r.None? <==> TruthyStr(req.status) && ParseBookingStatus(req.status.value).None?
    ensures r.Some? ==>
              r.value.(quantity := b.quantity, preferredDate := b.preferredDate, notes := b.notes,
                       status := b.status, totalPrice := b.totalPrice) == b
    ensures r.Some? ==> r.value.quantity == OrInt(req.quantity, b.quantity)
    ensures r.Some? ==> r.value.preferredDate == if req.preferredDate.Some? then req.preferredDate else b.preferredDate
    ensures r.Some? ==> r.value.notes == OrText(req.notes, b.notes)
    ensures r.Some? && TruthyStr(req.status) ==> BookingStatusName(r.value.status) == req.status.value
    ensures r.Some? && !TruthyStr(req.status) ==> r.value.status == b.status
    ensures r.Some? ==> r.value.totalPrice == OrNumber(req.totalPrice, b.totalPrice)
  {
    var status := if TruthyStr(req.status) then ParseBookingStatus(req.status.value) else Some(b.status);
    if status.None? then None
    else
      Some(b.(quantity := OrInt(req.quantity, b.quantity),
              preferredDate := if req.preferredDate.Some? then req.preferredDate else b.preferredDate,
              notes := OrText(req.notes, b.notes),
              status := status.value,
              totalPrice := OrNumber(req.totalPrice, b.totalPrice)))
  }

  /** Applying the same update twice is the same as applying it once. */
  lemma MergeBookingIdempotent(b: Booking, req: UpdateBookingRequest)
    requires MergeBooking(b, req).Some?
    ensures MergeBooking(MergeBooking(b, req).value, req) == MergeBooking(b, req)
  {
  }

  /** An update whose fields are all falsy (0, "", absent) changes nothing:
      the truthy-only merge cannot set quantity to 0 or clear the notes. */
  lemma FalsyUpdateChangesNothing(b: Booking, req: UpdateBookingRequest)
    requires !TruthyInt(req.quantity) && req.preferredDate.None? && !TruthyStr(req.notes)
    requires !TruthyStr(req.status) && !TruthyInt(req.totalPrice)
    ensures MergeBooking(b, req) == Some(b)
  {
  }

  /** The owner may move a cancelled booking back to Pending or on to Confirmed. */
  lemma UpdateCanLeaveCancelled(b: Booking)
    requires b.status == Cancelled
    ensures MergeBooking(b, UpdateBookingRequest(None, None, None, Some("Confirmed"), None)) ==
            Some(b.(status := Confirmed))
  {
  }

  /** PUT /bookings/:id: 404 before 403, and only the owner's truthy fields change. */
  method UpdateBooking(db: Database, callerId: Id, id: Id, req: UpdateBookingRequest)
    returns (r: Response<Booking>)
    requires db.Valid()
    modifies db
    ensures db.Valid()
    ensures db.users == old(db.users) && db.events == old(db.events) && db.services == old(db.services)
    ensures id !in old(db.bookings) ==> r == NotFound(BookingNotFound)
    ensures id in old(db.bookings) && old(db.bookings)[id].userId != callerId ==> r == Forbidden(NotAuthorizedToUpdate)
    ensures id in old(db.bookings) && old(db.bookings)[id].userId == callerId ==>
              var merged := MergeBooking(old(db.bookings)[id], req);
              if merged.Some? then r == Ok(merged.value) else r == ServerError(ErrorUpdating)
    ensures r.Ok? ==> db.bookings == old(db.bookings)[id := r.value]
    ensures !r.Ok? ==> db.bookings == old(db.bookings)
  {
    if id !in db.bookings {
      return NotFound(BookingNotFound);
    }
    var booking := db.bookings[id];
    if booking.userId != callerId {
      return Forbidden(NotAuthorizedToUpdate);
    }
    booking := booking.(quantity := OrInt(req.quantity, booking.quantity));
    booking := booking.(preferredDate := if req.preferredDate.Some? then req.preferredDate else booking.preferredDate);
    booking := booking.(notes := OrText(req.notes, booking.notes));
    var status := if TruthyStr(req.status) then ParseBookingStatus(req.status.value) else Some(booking.status);
    booking := booking.(totalPrice := OrNumber(req.totalPrice, booking.totalPrice));
    // booking.save() checks the ENUM column before writing anything
    if status.None? {
      return ServerError(ErrorUpdating);
    }
    booking := booking.(status := status.value);
    PutBookingKeepsConsistent(db.users, db.events, db.services, db.bookings, id, booking);
    db.bookings := db.bookings[id := booking];
    r := Ok(booking);
  }

  /** DELETE /bookings/:id: a status write, not a deletion; 404 before 403. */
  method CancelBooking(db: Database, callerId: Id, id: Id) returns (r: Response<()>)
    requires db.Valid()
    modifies db
    ensures db.Valid()
    ensures db.users == old(db.users) && db.events == old(db.events) && db.services == old(db.services)
    ensures id !in old(db.bookings) ==> r == NotFound(BookingNotFound) && db.bookings == old(db.bookings)
    ensures id in old(db.bookings) && old(db.bookings)[id].userId != callerId ==>
              r == Forbidden(NotAuthorizedToCancel) && db.bookings == old(db.bookings)
    ensures id in old(db.bookings) && old(db.bookings)[id].userId == callerId ==>
              r == Ok(()) && db.bookings == old(db.bookings)[id := old(db.bookings)[id].(status := Cancelled)]
    ensures id in old(db.bookings) && old(db.bookings)[id].userId == callerId && old(db.bookings)[id].status == Cancelled ==>
              r == Ok(()) && db.bookings == old(db.bookings)
  {
    if id !in db.bookings {
      return NotFound(BookingNotFound);
    }
    var booking := db.bookings[id];
    if booking.userId != callerId {
      return Forbidden(NotAuthorizedToCancel);
    }
    booking := booking.(status := Cancelled);
    PutBookingKeepsConsistent(db.users, db.events, db.services, db.bookings, id, booking);
    db.bookings := db.bookings[id := booking];
    r := Ok(());
  }
}
