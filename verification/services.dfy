/** The /services routes. Listing, reading and the category list are public;
    creating, updating and deleting only need an authenticated caller: no
    ownership or role is checked, so any signed-in user may change any service. */
module ServiceRoutes {
  import opened Common
  import opened Query
  import opened Strings
  import opened ServiceModel
  import opened Store

  const FieldsRequired := "Name, description, category, and price are required"
  const ErrorCreating := "Error creating service"
  const ServiceNotFound := "Service not found"
  const ErrorUpdating := "Error updating service"

  /** The fields of a POST /services or PUT /services/:id body. */
  datatype ServiceRequest = ServiceRequest(
    name: Option<string>,
    description: Option<string>,
    category: Option<string>,
    price: Option<Cents>,
    imageUrl: Option<string>,
    rating: Option<int>,
    reviews: Option<int>,
    isActive: Option<bool>)

  /** The one 400 check of POST /services; a price of 0 is rejected as missing. */
  predicate HasRequiredFields(req: ServiceRequest): (ok: bool)
    ensures ok <==> req.name !in {None, Some("")} && req.description !in {None, Some("")} &&
                    req.category !in {None, Some("")} && req.price !in {None, Some(0)}
  {
    TruthyStr(req.name) && TruthyStr(req.description) && TruthyStr(req.category) && TruthyInt(req.price)
  }

  /** The row Service.create stores: only name, description, category, price
      and imageUrl are read from the body, so rating, reviews and isActive
      take their defaults. `None` when the category is not an ENUM value. */
  function ServiceFromRequest(id: Id, req: ServiceRequest): (s: Option<ServiceModel.Service>)
    requires HasRequiredFields(req)
    ensures s.Some? <==> ParseCategory(req.category.value).Some?
    ensures s.Some? ==> s.value.id == id && CategoryName(s.value.category) == req.category.value
    ensures s.Some? ==> Some(s.value.name) == req.name && Some(s.value.description) == req.description
    ensures s.Some? ==> Some(s.value.price) == req.price && s.value.imageUrl == req.imageUrl
    ensures s.Some? ==> s.value.rating == 0 && s.value.reviews == 0 && s.value.isActive
  {
    match ParseCategory(req.category.value)
    case None => None
    case Some(c) => Some(NewService(id, req.name.value, req.description.value, c, req.price.value, req.imageUrl))
  }

  /** POST /services. */
  method CreateService(db: Database, req: ServiceRequest, id: Id) returns (r: Response<ServiceModel.Service>)
    requires db.Valid()
    modifies db
    ensures db.Valid()
    ensures db.users == old(db.users) && db.events == old(db.events) && db.bookings == old(db.bookings)
    ensures !HasRequiredFields(req) ==> r == BadRequest(FieldsRequired)
    ensures HasRequiredFields(req) ==>
              var s := ServiceFromRequest(id, req);
              if s.Some? && id !in old(db.services) then r == Created(s.value)
              else r == ServerError(ErrorCreating)
    ensures r.Created? ==> db.services == old(db.services)[id := r.value]
    ensures !r.Created? ==> db.services == old(db.services)
  {
    if !TruthyStr(req.name) || !TruthyStr(req.description) || !TruthyStr(req.category) || !TruthyInt(req.price) {
      return BadRequest(FieldsRequired);
    }
    var service := ServiceFromRequest(id, req);
    if service.None? || id in db.services {
      return ServerError(ErrorCreating);
    }
    PutServiceKeepsConsistent(db.users, db.events, db.services, db.bookings, id, service.value);
    db.services := db.services[id := service.value];
    r := Created(service.value);
  }

  /** The `order` of GET /services. */
  datatype ServiceOrder = NameAsc | PriceAsc | PriceDesc | RatingDesc

  /** `sortBy` picks the order; any other value (or none) sorts by name. */
  function OrderFor(sortBy: Option<string>): (o: ServiceOrder)
    ensures o == PriceAsc <==> sortBy == Some("price-low")
    ensures o == PriceDesc <==> sortBy == Some("price-high")
    ensures o == RatingDesc <==> sortBy == Some("rating")
  {
    if sortBy == Some("rating") then RatingDesc
    else if sortBy == Some("price-high") then PriceDesc
    else if sortBy == Some("price-low") then PriceAsc
    else NameAsc
  }

  /** May `a` come before `b` under order `o`. */
  predicate Precedes(o: ServiceOrder, a: ServiceModel.Service, b: ServiceModel.Service) {
    match o
    case NameAsc => LexLe(a.name, b.name)
    case PriceAsc => a.price <= b.price
    case PriceDesc => a.price >= b.price
    case RatingDesc => a.rating >= b.rating
  }

  /** Every order compares any two services. */
  lemma PrecedesTotal(o: ServiceOrder)
    ensures Total((a: ServiceModel.Service, b: ServiceModel.Service) => Precedes(o, a, b))
  {
    forall a: ServiceModel.Service, b: ServiceModel.Service
      ensures Precedes(o, a, b) || Precedes(o, b, a)
    {
      LexTotal(a.name, b.name);
    }
  }

  /** The `where` of GET /services: active, and of the category when one is given. */
  predicate Listed(s: ServiceModel.Service, category: Option<string>) {
    s.isActive && (TruthyStr(category) ==> CategoryName(s.category) == category.value)
  }

  /** GET /services: the active services of the category, in the requested order. */
  method ListServices(db: Database, category: Option<string>, sortBy: Option<string>)
    returns (rows: seq<ServiceModel.Service>)
    requires db.Valid()
    ensures multiset(rows) ==
            multiset(set k | k in db.services && Listed(db.services[k], category) :: db.services[k])
    ensures forall i :: 0 < i < |rows| ==> Precedes(OrderFor(sortBy), rows[i - 1], rows[i])
  {
    db.TablesInjective();
    var order := OrderFor(sortBy);
    PrecedesTotal(order);
    var keep := (s: ServiceModel.Service) => Listed(s, category);
    var le := (a: ServiceModel.Service, b: ServiceModel.Service) => Precedes(order, a, b);
    rows := Select(db.services, keep, le);
    assert Rows(db.services, keep, db.services.Keys) ==
           set k | k in db.services && Listed(db.services[k], category) :: db.services[k];
    assert Sorted(rows, le);
  }

  /** GET /services/categories/list: the six category names. */
  function CategoryList(): (names: seq<string>)
    ensures |names| == 6
    ensures forall s :: s in names <==> ParseCategory(s).Some?
    ensures forall i, j :: 0 <= i < j < |names| ==> names[i] != names[j]
  {
    ["Catering", "Decoration", "Photography", "Music", "Venue", "Planning"]
  }

  /** Every category a service can have is in the list. */
  lemma CategoryListComplete(c: Category)
    ensures CategoryName(c) in CategoryList()
  {
  }

  /** GET /services/:id. */
  method GetService(db: Database, id: Id) returns (r: Response<ServiceModel.Service>)
    ensures id in db.services ==> r == Ok(db.services[id])
    ensures id !in db.services ==> r == NotFound(ServiceNotFound)
  {
    if id !in db.services {
      return NotFound(ServiceNotFound);
    }
    r := Ok(db.services[id]);
  }

  /** The row PUT /services/:id saves: name, description, category, price and
      imageUrl take the request's value when it is truthy; rating, reviews
      and isActive whenever it is present, so they can be set to 0 or false.
      `None` when a given category is not an ENUM value. */
  function MergeService(s: ServiceModel.Service, req: ServiceRequest): (r: Option<ServiceModel.Service>)
    ensures r.None? <==> TruthyStr(req.category) && ParseCategory(req.category.value).None?
    ensures r.Some? ==> r.value.id == s.id
    ensures r.Some? ==> r.value.name == OrStr(req.name, s.name)
    ensures r.Some? ==> r.value.description == OrStr(req.description, s.description)
    ensures r.Some? && TruthyStr(req.category) ==> CategoryName(r.value.category) == req.category.value
    ensures r.Some? && !TruthyStr(req.category) ==> r.value.category == s.category
    ensures r.Some? ==> r.value.price == OrInt(req.price, s.price)
    ensures r.Some? ==> r.value.imageUrl == OrText(req.imageUrl, s.imageUrl)
    ensures r.Some? ==> r.value.rating == req.rating.GetOr(s.rating)
    ensures r.Some? ==> r.value.reviews == req.reviews.GetOr(s.reviews)
    ensures r.Some? ==> r.value.isActive == req.isActive.GetOr(s.isActive)
  {
    var category := if TruthyStr(req.category) then ParseCategory(req.category.value) else Some(s.category);
    if category.None? then None
    else
      Some(ServiceModel.Service(s.id, OrStr(req.name, s.name), OrStr(req.description, s.description),
                                category.value, OrInt(req.price, s.price), OrText(req.imageUrl, s.imageUrl),
                                req.rating.GetOr(s.rating), req.reviews.GetOr(s.reviews),
                                req.isActive.GetOr(s.isActive)))
  }

  /** Applying the same update twice is the same as applying it once. */
  lemma MergeServiceIdempotent(s: ServiceModel.Service, req: ServiceRequest)
    requires MergeService(s, req).Some?
    ensures MergeService(MergeService(s, req).value, req) == MergeService(s, req)
  {
  }

  /** `isActive: false` deactivates a service, which drops it from every
      listing; a falsy price, by contrast, is ignored. */
  lemma DeactivateHides(s: ServiceModel.Service, category: Option<string>)
    ensures var r := MergeService(s, ServiceRequest(None, None, None, Some(0), None, None, None, Some(false)));
            r == Some(s.(isActive := false)) && !Listed(r.value, category)
  {
  }

  /** PUT /services/:id. */
  method UpdateService(db: Database, id: Id, req: ServiceRequest) returns (r: Response<ServiceModel.Service>)
    requires db.Valid()
    modifies db
    ensures db.Valid()
    ensures db.users == old(db.users) && db.events == old(db.events) && db.bookings == old(db.bookings)
    ensures id !in old(db.services) ==> r == NotFound(ServiceNotFound)
    ensures id in old(db.services) ==>
              var merged := MergeService(old(db.services)[id], req);
              if merged.Some? then r == Ok(merged.value) else r == ServerError(ErrorUpdating)
    ensures r.Ok? ==> db.services == old(db.services)[id := r.value]
    ensures !r.Ok? ==> db.services == old(db.services)
  {
    if id !in db.services {
      return NotFound(ServiceNotFound);
    }
    var service := db.services[id];
    service := service.(name := OrStr(req.name, service.name));
    service := service.(description := OrStr(req.description, service.description));
    var category := if TruthyStr(req.category) then ParseCategory(req.category.value) else Some(service.category);
    service := service.(price := OrInt(req.price, service.price));
    service := service.(imageUrl := OrText(req.imageUrl, service.imageUrl));
    service := service.(rating := req.rating.GetOr(service.rating));
    service := service.(reviews := req.reviews.GetOr(service.reviews));
    service := service.(isActive := req.isActive.GetOr(service.isActive));
    // service.save() checks the ENUM column before writing anything
    if category.None? {
      return ServerError(ErrorUpdating);
    }
    service := service.(category := category.value);
    PutServiceKeepsConsistent(db.users, db.events, db.services, db.bookings, id, service);
    db.services := db.services[id := service];
    r := Ok(service);
  }

  /** DELETE /services/:id: the service and, by cascade, its bookings. */
  method DeleteService(db: Database, id: Id) returns (r: Response<()>)
    requires db.Valid()
    modifies db
    ensures db.Valid()
    ensures db.users == old(db.users) && db.events == old(db.events)
    ensures id !in old(db.services) <==> r == NotFound(ServiceNotFound)
    ensures id in old(db.services) <==> r == Ok(())
    ensures r.Ok? ==> db.services == old(db.services) - {id} &&
                      db.bookings == DeleteWhere(old(db.bookings), b => OfService(b, id))
    ensures !r.Ok? ==> db.services == old(db.services) && db.bookings == old(db.bookings)
  {
    if id !in db.services {
      return NotFound(ServiceNotFound);
    }
    db.RemoveService(id);
    r := Ok(());
  }
}
