/** The Booking table's row type: its enums, which columns may be null,
    and the defaults the schema fills in. */
module BookingModel {
  import opened Common

  /** The discriminator: whether the booking is for an event or a service. */
  datatype BookingType = EventBooking | ServiceBooking

  datatype BookingStatus = Pending | Confirmed | Cancelled

  function BookingTypeName(t: BookingType): string {
    match t
    case EventBooking => "Event"
    case ServiceBooking => "Service"
  }

  /** The ENUM column accepts exactly the names of the two types. */
  function ParseBookingType(s: string): (t: Option<BookingType>)
    ensures t.Some? ==> BookingTypeName(t.value) == s
    ensures t.None? ==> forall u :: BookingTypeName(u) != s
  {
    if s == "Event" then Some(EventBooking)
    else if s == "Service" then Some(ServiceBooking)
    else None
  }

  function BookingStatusName(s: BookingStatus): string {
    match s
    case Pending => "Pending"
    case Confirmed => "Confirmed"
    case Cancelled => "Cancelled"
  }

  /** The ENUM column accepts exactly the names of the three statuses. */
  function ParseBookingStatus(s: string): (st: Option<BookingStatus>)
    ensures st.Some? ==> BookingStatusName(st.value) == s
    ensures st.None? ==> forall u :: BookingStatusName(u) != s
  {
    if s == "Pending" then Some(Pending)
    else if s == "Confirmed" then Some(Confirmed)
    else if s == "Cancelled" then Some(Cancelled)
    else None
  }

  /** A stored booking. `Option` marks the nullable columns; `userId`,
      `bookingType` and the defaulted columns are never null. */
  datatype Booking = Booking(
    id: Id,
    userId: Id,
    eventId: Option<Id>,
    serviceId: Option<Id>,
    bookingType: BookingType,
    quantity: int,
    totalPrice: Option<Cents>,
    bookingDate: Date,
    preferredDate: Option<Date>,
    notes: Option<string>,
    status: BookingStatus)

  /** The discriminator decides which reference a booking holds: exactly
      the one that matches its type. The schema does not enforce this; the
      create route establishes it and no other code writes the references. */
  predicate ReferenceMatchesType(b: Booking) {
    match b.bookingType
    case EventBooking => b.eventId.Some? && b.serviceId.None?
    case ServiceBooking => b.serviceId.Some? && b.eventId.None?
  }

  const DefaultQuantity := 1
  const DefaultStatus := Pending

  /** Booking.create: the given columns, with the schema defaults for the
      ones left undefined (quantity 1, bookingDate now, status Pending). */
  function NewBooking(id: Id, userId: Id, eventId: Option<Id>, serviceId: Option<Id>,
                      bookingType: BookingType, quantity: Option<int>, totalPrice: Option<Cents>,
                      preferredDate: Option<Date>, notes: Option<string>, now: Date): (b: Booking)
    ensures b.id == id && b.userId == userId && b.bookingType == bookingType
    ensures b.eventId == eventId && b.serviceId == serviceId
    ensures quantity.None? ==> b.quantity == 1
    ensures quantity.Some? ==> b.quantity == quantity.value
    ensures b.status == Pending && b.bookingDate == now
    ensures b.totalPrice == totalPrice && b.preferredDate == preferredDate && b.notes == notes
  {
    Booking(id, userId, eventId, serviceId, bookingType, quantity.GetOr(DefaultQuantity),
            totalPrice, now, preferredDate, notes, DefaultStatus)
  }
}
