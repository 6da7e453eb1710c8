/** The /events routes. Listing and reading are public; creating, updating
    and deleting run after the auth middleware, which supplies `callerId`.
    A date field of the body that is absent or empty is `None`. */
module EventRoutes {
  import opened Common
  import opened Query
  import opened EventModel
  import opened Store

  const FieldsRequired := "Title, description, location, and date are required"
  const ErrorCreating := "Error creating event"
  const EventNotFound := "Event not found"
  const NotAuthorizedToUpdate := "Not authorized to update this event"
  const NotAuthorizedToDelete := "Not authorized to delete this event"
  const ErrorUpdating := "Error updating event"

  /** The fields of a POST /events or PUT /events/:id body. */
  datatype EventRequest = EventRequest(
    title: Option<string>,
    description: Option<string>,
    eventType: Option<string>,
    location: Option<string>,
    eventDate: Option<Date>,
    startTime: Option<string>,
    endTime: Option<string>,
    guestCount: Option<int>,
    budget: Option<Cents>,
    imageUrl: Option<string>,
    status: Option<string>)

  /** The one 400 check of POST /events: an absent or empty title,
      description or location, or an absent date, is rejected. */
  predicate HasRequiredFields(req: EventRequest): (ok: bool)
    ensures ok <==> req.title !in {None, Some("")} && req.description !in {None, Some("")} &&
                    req.location !in {None, Some("")} && req.eventDate != None
  {
    TruthyStr(req.title) && TruthyStr(req.description) && TruthyStr(req.location) && req.eventDate.Some?
  }

  /** `eventType || 'Other'`, then the ENUM check of the save. */
  function RequestedType(req: EventRequest): (t: Option<EventType>)
    ensures !TruthyStr(req.eventType) ==> t == Some(Other)
    ensures TruthyStr(req.eventType) ==> (t.Some? <==> ParseEventType(req.eventType.value).Some?)
    ensures TruthyStr(req.eventType) && t.Some? ==> EventTypeName(t.value) == req.eventType.value
  {
    if TruthyStr(req.eventType) then ParseEventType(req.eventType.value) else Some(Other)
  }

  /** The row Event.create stores; the body's `status` is not read, so a new
      event is always Upcoming. `None` when the type is not an ENUM value. */
  function EventFromRequest(id: Id, callerId: Id, req: EventRequest): (e: Option<EventModel.Event>)
    requires HasRequiredFields(req)
    ensures e.Some? <==> RequestedType(req).Some?
    ensures e.Some? ==> e.value.id == id && e.value.userId == callerId && e.value.status == Upcoming
    ensures e.Some? ==> e.value.eventType == RequestedType(req).value
    ensures e.Some? ==> Some(e.value.title) == req.title && Some(e.value.description) == req.description
    ensures e.Some? ==> Some(e.value.location) == req.location && Some(e.value.eventDate) == req.eventDate
    ensures e.Some? ==> e.value.startTime == req.startTime && e.value.endTime == req.endTime
    ensures e.Some? ==> e.value.guestCount == req.guestCount && e.value.budget == req.budget
    ensures e.Some? ==> e.value.imageUrl == req.imageUrl
  {
    match RequestedType(req)
    case None => None
    case Some(t) =>
      Some(NewEvent(id, req.title.value, req.description.value, Some(t), req.location.value,
                    req.eventDate.value, req.startTime, req.endTime, req.guestCount, req.budget,
                    req.imageUrl, callerId))
  }

  /** POST /events: the new event belongs to the caller. */
  method CreateEvent(db: Database, callerId: Id, req: EventRequest, id: Id) returns (r: Response<EventModel.Event>)
    requires db.Valid() && callerId in db.users
    modifies db
    ensures db.Valid()
    ensures db.users == old(db.users) && db.services == old(db.services) && db.bookings == old(db.bookings)
    ensures !HasRequiredFields(req) ==> r == BadRequest(FieldsRequired)
    ensures HasRequiredFields(req) ==>
              var e := EventFromRequest(id, callerId, req);
              if e.Some? && id !in old(db.events) then r == Created(e.value)
              else r == ServerError(ErrorCreating)
    ensures r.Created? ==> db.events == old(db.events)[id := r.value]
    ensures !r.Created? ==> db.events == old(db.events)
  {
    if !TruthyStr(req.title) || !TruthyStr(req.description) || !TruthyStr(req.location) || req.eventDate.None? {
      return BadRequest(FieldsRequired);
    }
    var event := EventFromRequest(id, callerId, req);
    if event.None? || id in db.events {
      return ServerError(ErrorCreating);
    }
    PutEventKeepsConsistent(db.users, db.events, db.services, db.bookings, id, event.value);
    db.events := db.events[id := event.value];
    r := Created(event.value);
  }

  /** `ORDER BY eventDate ASC`. */
  predicate SoonerFirst(a: EventModel.Event, b: EventModel.Event) {
    a.eventDate <= b.eventDate
  }

  /** The `where` of GET /events: each truthy query parameter must equal
      the column's value. */
  predicate MatchesQuery(e: EventModel.Event, status: Option<string>, eventType: Option<string>) {
    && (TruthyStr(status) ==> EventStatusName(e.status) == status.value)
    && (TruthyStr(eventType) ==> EventTypeName(e.eventType) == eventType.value)
  }

  /** Without query parameters every event matches; a parameter that names no
      ENUM value matches none. */
  lemma MatchesQueryBounds(e: EventModel.Event, status: Option<string>, eventType: Option<string>)
    ensures !TruthyStr(status) && !TruthyStr(eventType) ==> MatchesQuery(e, status, eventType)
    ensures TruthyStr(status) && ParseEventStatus(status.value).None? ==> !MatchesQuery(e, status, eventType)
    ensures TruthyStr(eventType) && ParseEventType(eventType.value).None? ==> !MatchesQuery(e, status, eventType)
  {
  }

  /** GET /events: the matching events, soonest first. */
  method ListEvents(db: Database, status: Option<string>, eventType: Option<string>)
    returns (rows: seq<EventModel.Event>)
    requires db.Valid()
    ensures multiset(rows) ==
            multiset(set k | k in db.events && MatchesQuery(db.events[k], status, eventType) :: db.events[k])
    ensures forall i :: 0 < i < |rows| ==> rows[i - 1].eventDate <= rows[i].eventDate
  {
    db.TablesInjective();
    var keep := (e: EventModel.Event) => MatchesQuery(e, status, eventType);
    rows := Select(db.events, keep, SoonerFirst);
    assert Rows(db.events, keep, db.events.Keys) ==
           set k | k in db.events && MatchesQuery(db.events[k], status, eventType) :: db.events[k];
  }

  /** GET /events/user/my-events: exactly the caller's events, soonest first. */
  method MyEvents(db: Database, callerId: Id) returns (rows: seq<EventModel.Event>)
    requires db.Valid()
    ensures multiset(rows) == multiset(set k | k in db.events && db.events[k].userId == callerId :: db.events[k])
    ensures forall i :: 0 < i < |rows| ==> rows[i - 1].eventDate <= rows[i].eventDate
  {
    db.TablesInjective();
    var keep := (e: EventModel.Event) => e.userId == callerId;
    rows := Select(db.events, keep, SoonerFirst);
    assert Rows(db.events, keep, db.events.Keys) ==
           set k | k in db.events && db.events[k].userId == callerId :: db.events[k];
  }

  /** GET /events/:id. */
  method GetEvent(db: Database, id: Id) returns (r: Response<EventModel.Event>)
    ensures id in db.events ==> r == Ok(db.events[id])
    ensures id !in db.events ==> r == NotFound(EventNotFound)
  {
    if id !in db.events {
      return NotFound(EventNotFound);
    }
    r := Ok(db.events[id]);
  }

  /** The row PUT /events/:id saves: each of the eleven fields takes the
      request's value when that value is truthy; id and owner never change.
      `None` when a given type or status is not an ENUM value. */
  function MergeEvent(e: EventModel.Event, req: EventRequest): (r: Option<EventModel.Event>)
    ensures r.None? <==>
              (TruthyStr(req.eventType) && ParseEventType(req.eventType.value).None?) ||
              (TruthyStr(req.status) && ParseEventStatus(req.status.value).None?)
    ensures r.Some? ==> r.value.id == e.id && r.value.userId == e.userId
    ensures r.Some? ==> r.value.title == OrStr(req.title, e.title)
    ensures r.Some? ==> r.value.description == OrStr(req.description, e.description)
    ensures r.Some? ==> r.value.location == OrStr(req.location, e.location)
    ensures r.Some? ==> r.value.eventDate == req.eventDate.GetOr(e.eventDate)
    ensures r.Some? ==> r.value.startTime == OrText(req.startTime, e.startTime)
    ensures r.Some? ==> r.value.endTime == OrText(req.endTime, e.endTime)
    ensures r.Some? ==> r.value.guestCount == OrNumber(req.guestCount, e.guestCount)
    ensures r.Some? ==> r.value.budget == OrNumber(req.budget, e.budget)
    ensures r.Some? ==> r.value.imageUrl == OrText(req.imageUrl, e.imageUrl)
    ensures r.Some? && TruthyStr(req.eventType) ==> EventTypeName(r.value.eventType) == req.eventType.value
    ensures r.Some? && !TruthyStr(req.eventType) ==> r.value.eventType == e.eventType
    ensures r.Some? && TruthyStr(req.status) ==> EventStatusName(r.value.status) == req.status.value
    ensures r.Some? && !TruthyStr(req.status) ==> r.value.status == e.status
  {
    var eventType := if TruthyStr(req.eventType) then ParseEventType(req.eventType.value) else Some(e.eventType);
    var status := if TruthyStr(req.status) then ParseEventStatus(req.status.value) else Some(e.status);
    if eventType.None? || status.None? then None
    else
      Some(EventModel.Event(e.id, OrStr(req.title, e.title), OrStr(req.description, e.description),
                            eventType.value, OrStr(req.location, e.location), req.eventDate.GetOr(e.eventDate),
                            OrText(req.startTime, e.startTime), OrText(req.endTime, e.endTime),
                            OrNumber(req.guestCount, e.guestCount), OrNumber(req.budget, e.budget),
                            OrText(req.imageUrl, e.imageUrl), status.value, e.userId))
  }

  /** Applying the same update twice is the same as applying it once. */
  lemma MergeEventIdempotent(e: EventModel.Event, req: EventRequest)
    requires MergeEvent(e, req).Some?
    ensures MergeEvent(MergeEvent(e, req).value, req) == MergeEvent(e, req)
  {
  }

  /** A body whose fields are all falsy (absent, "", 0) changes nothing: the
      update cannot clear a nullable column or set a count to 0. */
  lemma EmptyUpdateChangesNothing(e: EventModel.Event, req: EventRequest)
    requires !TruthyStr(req.title) && !TruthyStr(req.description) && !TruthyStr(req.eventType)
    requires !TruthyStr(req.location) && req.eventDate.None? && !TruthyStr(req.startTime)
    requires !TruthyStr(req.endTime) && !TruthyInt(req.guestCount) && !TruthyInt(req.budget)
    requires !TruthyStr(req.imageUrl) && !TruthyStr(req.status)
    ensures MergeEvent(e, req) == Some(e)
  {
  }

  /** PUT /events/:id: 404 before 403, and only the owner's truthy fields change. */
  method UpdateEvent(db: Database, callerId: Id, id: Id, req: EventRequest) returns (r: Response<EventModel.Event>)
    requires db.Valid()
    modifies db
    ensures db.Valid()
    ensures db.users == old(db.users) && db.services == old(db.services) && db.bookings == old(db.bookings)
    ensures id !in old(db.events) ==> r == NotFound(EventNotFound)
    ensures id in old(db.events) && old(db.events)[id].userId != callerId ==> r == Forbidden(NotAuthorizedToUpdate)
    ensures id in old(db.events) && old(db.events)[id].userId == callerId ==>
              var merged := MergeEvent(old(db.events)[id], req);
              if merged.Some? then r == Ok(merged.value) else r == ServerError(ErrorUpdating)
    ensures r.Ok? ==> db.events == old(db.events)[id := r.value]
    ensures !r.Ok? ==> db.events == old(db.events)
  {
    if id !in db.events {
      return NotFound(EventNotFound);
    }
    var event := db.events[id];
    if event.userId != callerId {
      return Forbidden(NotAuthorizedToUpdate);
    }
    event := event.(title := OrStr(req.title, event.title));
    event := event.(description := OrStr(req.description, event.description));
    var eventType := if TruthyStr(req.eventType) then ParseEventType(req.eventType.value) else Some(event.eventType);
    event := event.(location := OrStr(req.location, event.location));
    event := event.(eventDate := req.eventDate.GetOr(event.eventDate));
    event := event.(startTime := OrText(req.startTime, event.startTime));
    event := event.(endTime := OrText(req.endTime, event.endTime));
    event := event.(guestCount := OrNumber(req.guestCount, event.guestCount));
    event := event.(budget := OrNumber(req.budget, event.budget));
    event := event.(imageUrl := OrText(req.imageUrl, event.imageUrl));
    var status := if TruthyStr(req.status) then ParseEventStatus(req.status.value) else Some(event.status);
    // event.save() checks the ENUM columns before writing anything
    if eventType.None? || status.None? {
      return ServerError(ErrorUpdating);
    }
    event := event.(eventType := eventType.value, status := status.value);
    PutEventKeepsConsistent(db.users, db.events, db.services, db.bookings, id, event);
    db.events := db.events[id := event];
    r := Ok(event);
  }

  /** DELETE /events/:id: only the owner, and the event's bookings go with it. */
  method DeleteEvent(db: Database, callerId: Id, id: Id) returns (r: Response<()>)
    requires db.Valid()
    modifies db
    ensures db.Valid()
    ensures db.users == old(db.users) && db.services == old(db.services)
    ensures id !in old(db.events) ==> r == NotFound(EventNotFound)
    ensures id in old(db.events) && old(db.events)[id].userId != callerId ==> r == Forbidden(NotAuthorizedToDelete)
    ensures id in old(db.events) && old(db.events)[id].userId == callerId ==> r == Ok(())
    ensures r.Ok? ==> db.events == old(db.events) - {id} &&
                      db.bookings == DeleteWhere(old(db.bookings), b => OfEvent(b, id))
    ensures !r.Ok? ==> db.events == old(db.events) && db.bookings == old(db.bookings)
  {
    if id !in db.events {
      return NotFound(EventNotFound);
    }
    if db.events[id].userId != callerId {
      return Forbidden(NotAuthorizedToDelete);
    }
    db.RemoveEvent(id);
    r := Ok(());
  }
}
