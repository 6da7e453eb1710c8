/** The Event table's row type: its enums, nullable columns and defaults. */
module EventModel {
  import opened Common

  datatype EventType = Wedding | Birthday | Anniversary | Corporate | Other

  datatype EventStatus = Upcoming | Completed | Cancelled

  function EventTypeName(t: EventType): string {
    match t
    case Wedding => "Wedding"
    case Birthday => "Birthday"
    case Anniversary => "Anniversary"
    case Corporate => "Corporate"
    case Other => "Other"
  }

  /** The ENUM column accepts exactly the names of the five types. */
  function ParseEventType(s: string): (t: Option<EventType>)
    ensures t.Some? ==> EventTypeName(t.value) == s
    ensures t.None? ==> forall u :: EventTypeName(u) != s
  {
    if s == "Wedding" then Some(Wedding)
    else if s == "Birthday" then Some(Birthday)
    else if s == "Anniversary" then Some(Anniversary)
    else if s == "Corporate" then Some(Corporate)
    else if s == "Other" then Some(Other)
    else None
  }

  function EventStatusName(s: EventStatus): string {
    match s
    case Upcoming => "Upcoming"
    case Completed => "Completed"
    case Cancelled => "Cancelled"
  }

  /** The ENUM column accepts exactly the names of the three statuses. */
  function ParseEventStatus(s: string): (st: Option<EventStatus>)
    ensures st.Some? ==> EventStatusName(st.value) == s
    ensures st.None? ==> forall u :: EventStatusName(u) != s
  {
    if s == "Upcoming" then Some(Upcoming)
    else if s == "Completed" then Some(Completed)
    else if s == "Cancelled" then Some(Cancelled)
    else None
  }

  /** A stored event. title, description, location, eventDate and userId are
      NOT NULL; the times, guest count, budget and image are nullable. */
  datatype Event = Event(
    id: Id,
    title: string,
    description: string,
    eventType: EventType,
    location: string,
    eventDate: Date,
    startTime: Option<string>,
    endTime: Option<string>,
    guestCount: Option<int>,
    budget: Option<Cents>,
    imageUrl: Option<string>,
    status: EventStatus,
    userId: Id)

  const DefaultEventType := Other
  const DefaultEventStatus := Upcoming

  /** Event.create: the given columns, with eventType Other when undefined
      and status Upcoming. */
  function NewEvent(id: Id, title: string, description: string, eventType: Option<EventType>,
                    location: string, eventDate: Date, startTime: Option<string>, endTime: Option<string>,
                    guestCount: Option<int>, budget: Option<Cents>, imageUrl: Option<string>,
                    userId: Id): (e: Event)
    ensures e.id == id && e.userId == userId
    ensures e.title == title && e.description == description && e.location == location
    ensures e.eventDate == eventDate
    ensures eventType.None? ==> e.eventType == Other
    ensures eventType.Some? ==> e.eventType == eventType.value
    ensures e.status == Upcoming
    ensures e.startTime == startTime && e.endTime == endTime && e.guestCount == guestCount
    ensures e.budget == budget && e.imageUrl == imageUrl
  {
    Event(id, title, description, eventType.GetOr(DefaultEventType), location, eventDate,
          startTime, endTime, guestCount, budget, imageUrl, DefaultEventStatus, userId)
  }
}
