/** The booking form of the front end: its state, the type switch, the
    ordered checks of the submit handler, the request body it builds and the
    unit price it shows. The stored token, the network exchange and the
    redirects are parameters or left out; the loaded lists are the rows the
    listing routes return. A date input left empty is `None`. */
module BookingPage {
  import opened Common
  import opened BookingModel
  import EventModel
  import ServiceModel
  import BookingRoutes
  import opened Query

  const LoginRequired := "Please login to make a booking"
  const DateRequired := "Please select a preferred date"
  const EventRequired := "Please select an event"
  const ServiceRequired := "Please select a service"
  const BookingFailed := "Booking failed"
  const BookingCreated := "Booking created successfully! Redirecting to your bookings..."
  const NetworkError := "Error creating booking. Please try again."

  /** The checks of the submit handler, in their order: the token, the date,
      then the selection the chosen type needs. */
  function BookingError(token: Option<string>, preferredDate: Option<Date>, bookingType: BookingType,
                        selectedEvent: Id, selectedService: Id): (err: Option<string>)
    ensures !TruthyStr(token) ==> err == Some(LoginRequired)
    ensures TruthyStr(token) && preferredDate.None? ==> err == Some(DateRequired)
    ensures TruthyStr(token) && preferredDate.Some? && bookingType == EventBooking ==>
              err == (if selectedEvent == "" then Some(EventRequired) else None)
    ensures TruthyStr(token) && preferredDate.Some? && bookingType == ServiceBooking ==>
              err == (if selectedService == "" then Some(ServiceRequired) else None)
  {
    if !TruthyStr(token) then Some(LoginRequired)
    else if preferredDate.None? then Some(DateRequired)
    else if bookingType == EventBooking && selectedEvent == "" then Some(EventRequired)
    else if bookingType == ServiceBooking && selectedService == "" then Some(ServiceRequired)
    else None
  }

  /** The JSON body of the booking request. It has no totalPrice field. */
  datatype BookingPayload = BookingPayload(
    bookingType: string,
    quantity: int,
    preferredDate: Date,
    notes: string,
    eventId: Option<Id>,
    serviceId: Option<Id>)

  /** `bookingData`: the common fields, then the id of the chosen type only. */
  function Payload(bookingType: BookingType, quantity: int, preferredDate: Date, notes: string,
                   selectedEvent: Id, selectedService: Id): (p: BookingPayload)
    ensures ParseBookingType(p.bookingType) == Some(bookingType)
    ensures p.quantity == quantity && p.preferredDate == preferredDate && p.notes == notes
    ensures p.eventId.Some? <==> bookingType == EventBooking
    ensures p.serviceId.Some? <==> bookingType == ServiceBooking
    ensures p.eventId.Some? ==> p.eventId.value == selectedEvent
    ensures p.serviceId.Some? ==> p.serviceId.value == selectedService
  {
    match bookingType
    case EventBooking => BookingPayload("Event", quantity, preferredDate, notes, Some(selectedEvent), None)
    case ServiceBooking => BookingPayload("Service", quantity, preferredDate, notes, None, Some(selectedService))
  }

  /** How the server reads the body: every field present, no totalPrice. */
  function AsRequest(p: BookingPayload): (req: BookingRoutes.CreateBookingRequest)
    ensures req.bookingType == Some(p.bookingType) && req.totalPrice == None
    ensures req.eventId == p.eventId && req.serviceId == p.serviceId
    ensures req.quantity == Some(p.quantity) && req.preferredDate == Some(p.preferredDate) && req.notes == Some(p.notes)
  {
    BookingRoutes.CreateBookingRequest(p.eventId, p.serviceId, Some(p.bookingType), Some(p.quantity),
                                       Some(p.preferredDate), Some(p.notes), None)
  }

  /** A body the form lets through passes the server's own checks, and the
      booking the server then stores is the caller's, with the form's type,
      reference, date and notes, the form's quantity (1 in place of 0) and
      no total price. */
  lemma FormChecksImplyServerChecks(token: Option<string>, preferredDate: Option<Date>, bookingType: BookingType,
                                    quantity: int, notes: string, selectedEvent: Id, selectedService: Id,
                                    id: Id, callerId: Id, now: Date)
    requires BookingError(token, preferredDate, bookingType, selectedEvent, selectedService).None?
    ensures var req := AsRequest(Payload(bookingType, quantity, preferredDate.value, notes, selectedEvent, selectedService));
            && BookingRoutes.CreateBookingError(req).None?
            && var b := BookingRoutes.BookingFromRequest(id, callerId, req, now);
               && b.Some? && b.value.bookingType == bookingType && b.value.totalPrice == None
               && b.value.userId == callerId
               && b.value.quantity == (if quantity != 0 then quantity else 1)
               && b.value.preferredDate == preferredDate && b.value.notes == Some(notes)
               && (bookingType == EventBooking ==> b.value.eventId == Some(selectedEvent))
               && (bookingType == ServiceBooking ==> b.value.serviceId == Some(selectedService))
  {
    var p := Payload(bookingType, quantity, preferredDate.value, notes, selectedEvent, selectedService);
    assert BookingTypeName(bookingType) == p.bookingType;
  }

  /** `events.find((e) => e.id === selectedEvent)`. */
  function EventWithId(events: seq<EventModel.Event>, id: Id): Option<EventModel.Event> {
    Find(events, (e: EventModel.Event) => e.id == id)
  }

  /** `services.find((s) => s.id === selectedService)`. */
  function ServiceWithId(services: seq<ServiceModel.Service>, id: Id): Option<ServiceModel.Service> {
    Find(services, (s: ServiceModel.Service) => s.id == id)
  }

  /** `getSelectedItemPrice()`: the budget of the selected event or the price
      of the selected service, and 0 when nothing loaded has that id or the
      event has no budget. */
  function SelectedItemPrice(bookingType: BookingType, events: seq<EventModel.Event>,
                             services: seq<ServiceModel.Service>, selectedEvent: Id,
                             selectedService: Id): (price: Cents)
    ensures bookingType == EventBooking ==>
              if forall i :: 0 <= i < |events| ==> events[i].id != selectedEvent then price == 0
              else exists i :: 0 <= i < |events| && events[i].id == selectedEvent &&
                               (forall j :: 0 <= j < i ==> events[j].id != selectedEvent) &&
                               price == events[i].budget.GetOr(0)
    ensures bookingType == ServiceBooking ==>
              if forall i :: 0 <= i < |services| ==> services[i].id != selectedService then price == 0
              else exists i :: 0 <= i < |services| && services[i].id == selectedService &&
                               (forall j :: 0 <= j < i ==> services[j].id != selectedService) &&
                               price == services[i].price
  {
    match bookingType
    case EventBooking =>
      (match EventWithId(events, selectedEvent)
       case None => 0
       case Some(e) => OrInt(e.budget, 0))
    case ServiceBooking =>
      (match ServiceWithId(services, selectedService)
       case None => 0
       case Some(s) => s.price)
  }

  /** Nothing selected (the state right after a type switch) shows price 0,
      since no row has the empty id. */
  lemma NoSelectionHasNoPrice(bookingType: BookingType, events: seq<EventModel.Event>,
                              services: seq<ServiceModel.Service>)
    requires forall i :: 0 <= i < |events| ==> events[i].id != ""
    requires forall i :: 0 <= i < |services| ==> services[i].id != ""
    ensures SelectedItemPrice(bookingType, events, services, "", "") == 0
  {
  }

  /** The state of the booking form. */
  class BookingForm {
    var bookingType: BookingType
    var events: seq<EventModel.Event>
    var services: seq<ServiceModel.Service>
    var selectedEvent: Id
    var selectedService: Id
    var quantity: int
    var preferredDate: Option<Date>
    var notes: string
    var loading: bool
    var error: string
    var success: string

    /** The initial state: an event booking, nothing selected, one ticket. */
    constructor ()
      ensures bookingType == EventBooking && events == [] && services == []
      ensures selectedEvent == "" && selectedService == "" && quantity == 1
      ensures preferredDate == None && notes == "" && !loading && error == "" && success == ""
    {
      bookingType := EventBooking;
      events, services := [], [];
      selectedEvent, selectedService := "", "";
      quantity := 1;
      preferredDate := None;
      notes := "";
      loading := false;
      error, success := "", "";
    }

    /** The Event button: switch to events and clear the event selection. */
    method ChooseEvent()
      modifies this
      ensures bookingType == EventBooking && selectedEvent == ""
      ensures selectedService == old(selectedService) && events == old(events) && services == old(services)
      ensures quantity == old(quantity) && preferredDate == old(preferredDate) && notes == old(notes)
      ensures loading == old(loading) && error == old(error) && success == old(success)
    {
      bookingType := EventBooking;
      selectedEvent := "";
    }

    /** The Service button: switch to services and clear the service selection. */
    method ChooseService()
      modifies this
      ensures bookingType == ServiceBooking && selectedService == ""
      ensures selectedEvent == old(selectedEvent) && events == old(events) && services == old(services)
      ensures quantity == old(quantity) && preferredDate == old(preferredDate) && notes == old(notes)
      ensures loading == old(loading) && error == old(error) && success == old(success)
    {
      bookingType := ServiceBooking;
      selectedService := "";
    }

    /** The submit handler up to the request: it clears both messages, stops
        at the first failing check with its message, and otherwise turns
        `loading` on and yields the body to send. */
    method HandleBook(token: Option<string>) returns (sent: Option<BookingPayload>)
      modifies this
      ensures var err := BookingError(token, old(preferredDate), old(bookingType), old(selectedEvent), old(selectedService));
              && (sent.Some? <==> err.None?)
              && error == err.GetOr("")
              && (err.None? ==> sent.value == Payload(old(bookingType), old(quantity), old(preferredDate).value,
                                                      old(notes), old(selectedEvent), old(selectedService)))
              && loading == (err.None? || old(loading))
      ensures success == ""
      ensures bookingType == old(bookingType) && selectedEvent == old(selectedEvent)
      ensures selectedService == old(selectedService) && events == old(events) && services == old(services)
      ensures quantity == old(quantity) && preferredDate == old(preferredDate) && notes == old(notes)
    {
      error := "";
      success := "";
      if !TruthyStr(token) {
        error := LoginRequired;
        return None;
      }
      if preferredDate.None? {
        error := DateRequired;
        return None;
      }
      if bookingType == EventBooking && selectedEvent == "" {
        error := EventRequired;
        return None;
      }
      if bookingType == ServiceBooking && selectedService == "" {
        error := ServiceRequired;
        return None;
      }
      loading := true;
      sent := Some(Payload(bookingType, quantity, preferredDate.value, notes, selectedEvent, selectedService));
    }

    /** The answer to the request: an error shows the server's message (or a
        fallback), a success the confirmation; `loading` goes off either way. */
    method ReceiveResponse(ok: bool, message: Option<string>)
      modifies this
      ensures !ok ==> error == OrStr(message, BookingFailed) && success == old(success)
      ensures ok ==> success == BookingCreated && error == old(error)
      ensures !loading
      ensures bookingType == old(bookingType) && selectedEvent == old(selectedEvent)
      ensures selectedService == old(selectedService) && events == old(events) && services == old(services)
      ensures quantity == old(quantity) && preferredDate == old(preferredDate) && notes == old(notes)
    {
      if !ok {
        error := OrStr(message, BookingFailed);
      } else {
        success := BookingCreated;
      }
      loading := false;
    }

    /** The request itself failed (no answer to read). */
    method ReceiveFailure()
      modifies this
      ensures error == NetworkError && success == old(success) && !loading
      ensures bookingType == old(bookingType) && selectedEvent == old(selectedEvent)
      ensures selectedService == old(selectedService) && events == old(events) && services == old(services)
      ensures quantity == old(quantity) && preferredDate == old(preferredDate) && notes == old(notes)
    {
      error := NetworkError;
      loading := false;
    }
  }
}
