/** The four tables and the ON DELETE CASCADE rules of the associations:
    deleting a user deletes their events and bookings, deleting an event or a
    service deletes the bookings that reference it. */
module Store {
  import opened Common
  import opened Query
  import opened BookingModel
  import opened EventModel
  import opened ServiceModel
  import opened UserModel

  type Users = map<Id, User>
  type Events = map<Id, EventModel.Event>
  type Services = map<Id, ServiceModel.Service>
  type Bookings = map<Id, Booking>

  /** Every row is stored under its own primary key. */
  ghost predicate KeysAreIds(users: Users, events: Events, services: Services, bookings: Bookings) {
    && (forall k :: k in users ==> users[k].id == k)
    && (forall k :: k in events ==> events[k].id == k)
    && (forall k :: k in services ==> services[k].id == k)
    && (forall k :: k in bookings ==> bookings[k].id == k)
  }

  /** No two users share an email (the UNIQUE constraint). */
  ghost predicate UniqueEmails(users: Users) {
    forall a, b :: a in users && b in users && users[a].email == users[b].email ==> a == b
  }

  /** The `userId` FOREIGN KEYs: every event and booking has an owner that exists. */
  ghost predicate OwnersExist(users: Users, events: Events, bookings: Bookings) {
    && (forall k :: k in events ==> events[k].userId in users)
    && (forall k :: k in bookings ==> bookings[k].userId in users)
  }

  /** Bookings that the cascade from deleting event `eventId` removes. */
  predicate OfEvent(b: Booking, eventId: Id) {
    b.eventId == Some(eventId)
  }

  predicate OfService(b: Booking, serviceId: Id) {
    b.serviceId == Some(serviceId)
  }

  /** Bookings that deleting user `userId` removes: their own, and (through
      the events cascade) those of the events in `removedEvents`. */
  predicate OfUser(b: Booking, userId: Id, removedEvents: set<Id>) {
    b.userId == userId || (b.eventId.Some? && b.eventId.value in removedEvents)
  }

  /** The FOREIGN KEY constraints of a booking: the event or service it names exists. */
  predicate ReferencesExist(b: Booking, events: Events, services: Services) {
    && (b.eventId.Some? ==> b.eventId.value in events)
    && (b.serviceId.Some? ==> b.serviceId.value in services)
  }

  /** Every booking holds the reference its type calls for, and that row exists.
      The first half is no database rule (the two references are independent
      nullable columns); it is an invariant the routes keep, because only the
      create route writes a booking's references. */
  ghost predicate BookingsWellFormed(events: Events, services: Services, bookings: Bookings) {
    forall k :: k in bookings ==> ReferenceMatchesType(bookings[k]) && ReferencesExist(bookings[k], events, services)
  }

  /** The schema's constraints on the four tables together (keys, unique
      emails, foreign keys), plus the route-kept invariant that every booking
      holds the reference its type calls for. */
  ghost predicate Consistent(users: Users, events: Events, services: Services, bookings: Bookings) {
    && KeysAreIds(users, events, services, bookings)
    && UniqueEmails(users)
    && OwnersExist(users, events, bookings)
    && BookingsWellFormed(events, services, bookings)
  }

  /** Saving a user row keeps the tables consistent when its key and email stay. */
  lemma PutUserKeepsConsistent(users: Users, events: Events, services: Services, bookings: Bookings, k: Id, u: User)
    requires Consistent(users, events, services, bookings)
    requires k in users && u.id == k && u.email == users[k].email
    ensures Consistent(users[k := u], events, services, bookings)
  {
  }

  /** Saving an event row (new or updated) keeps the tables consistent when
      it sits under its own key and its owner exists. */
  lemma PutEventKeepsConsistent(users: Users, events: Events, services: Services, bookings: Bookings, k: Id, e: EventModel.Event)
    requires Consistent(users, events, services, bookings)
    requires e.id == k && e.userId in users
    ensures Consistent(users, events[k := e], services, bookings)
  {
  }

  /** Saving a service row (new or updated) under its own key keeps the tables consistent. */
  lemma PutServiceKeepsConsistent(users: Users, events: Events, services: Services, bookings: Bookings, k: Id, s: ServiceModel.Service)
    requires Consistent(users, events, services, bookings)
    requires s.id == k
    ensures Consistent(users, events, services[k := s], bookings)
  {
  }

  /** Saving a booking row (new or updated) keeps the tables consistent when
      it sits under its own key, its owner exists, and it holds exactly the
      reference its type calls for, to a row that exists. */
  lemma PutBookingKeepsConsistent(users: Users, events: Events, services: Services, bookings: Bookings, k: Id, b: Booking)
    requires Consistent(users, events, services, bookings)
    requires b.id == k && b.userId in users && ReferenceMatchesType(b) && ReferencesExist(b, events, services)
    ensures Consistent(users, events, services, bookings[k := b])
  {
  }

  class Database {
    var users: Users
    var events: Events
    var services: Services
    var bookings: Bookings

    ghost predicate Valid()
      reads this
    {
      Consistent(users, events, services, bookings)
    }

    constructor ()
      ensures Valid()
      ensures users == map[] && events == map[] && services == map[] && bookings == map[]
    {
      users, events, services, bookings := map[], map[], map[], map[];
    }

    /** Rows carry their own key, so no two keys hold the same row. */
    lemma TablesInjective()
      requires Valid()
      ensures Injective(users) && Injective(events) && Injective(services) && Injective(bookings)
    {
    }

    /** event.destroy(): the event and, by cascade, its bookings. */
    method RemoveEvent(id: Id)
      requires Valid()
      modifies this
      ensures Valid()
      ensures events == old(events) - {id}
      ensures bookings == DeleteWhere(old(bookings), b => OfEvent(b, id))
      ensures users == old(users) && services == old(services)
    {
      events := events - {id};
      bookings := DeleteWhere(bookings, b => OfEvent(b, id));
      assert BookingsWellFormed(events, services, bookings);
    }

    /** service.destroy(): the service and, by cascade, its bookings. */
    method RemoveService(id: Id)
      requires Valid()
      modifies this
      ensures Valid()
      ensures services == old(services) - {id}
      ensures bookings == DeleteWhere(old(bookings), b => OfService(b, id))
      ensures users == old(users) && events == old(events)
    {
      services := services - {id};
      bookings := DeleteWhere(bookings, b => OfService(b, id));
      assert BookingsWellFormed(events, services, bookings);
    }

    /** User.destroy({ where: { id } }): the user, their events, their bookings
        and the bookings of their events. */
    method RemoveUser(id: Id)
      requires Valid()
      modifies this
      ensures Valid()
      ensures users == old(users) - {id}
      ensures events == DeleteWhere(old(events), (e: EventModel.Event) => e.userId == id)
      ensures bookings == DeleteWhere(old(bookings), b => OfUser(b, id, EventsOf(old(events), id)))
      ensures services == old(services)
      ensures forall k :: k in events ==> events[k].userId != id
      ensures forall k :: k in bookings ==> bookings[k].userId != id
      ensures forall k :: k in bookings && bookings[k].eventId.Some? ==> bookings[k].eventId.value !in EventsOf(old(events), id)
    {
      var removed := EventsOf(events, id);
      users := users - {id};
      events := DeleteWhere(events, (e: EventModel.Event) => e.userId == id);
      bookings := DeleteWhere(bookings, b => OfUser(b, id, removed));
      assert KeysAreIds(users, events, services, bookings);
      assert UniqueEmails(users);
      assert OwnersExist(users, events, bookings);
      assert BookingsWellFormed(events, services, bookings) by {
        forall k | k in bookings
          ensures ReferencesExist(bookings[k], events, services)
        {
          var b := bookings[k];
          if b.eventId.Some? {
            assert b.eventId.value !in removed;
            assert b.eventId.value in old(events);
          }
        }
      }
    }
  }

  /** The keys of the events user `userId` owns. */
  function EventsOf(events: map<Id, EventModel.Event>, userId: Id): (ids: set<Id>)
    ensures forall k :: k in ids <==> k in events && events[k].userId == userId
  {
    set k | k in events && events[k].userId == userId
  }
}
