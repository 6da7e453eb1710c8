/** The Service table's row type: the category enum and the defaults. */
module ServiceModel {
  import opened Common

  datatype Category = Catering | Decoration | Photography | Music | Venue | Planning

  function CategoryName(c: Category): string {
    match c
    case Catering => "Catering"
    case Decoration => "Decoration"
    case Photography => "Photography"
    case Music => "Music"
    case Venue => "Venue"
    case Planning => "Planning"
  }

  /** The ENUM column accepts exactly the names of the six categories. */
  function ParseCategory(s: string): (c: Option<Category>)
    ensures c.Some? ==> CategoryName(c.value) == s
    ensures c.None? ==> forall u :: CategoryName(u) != s
  {
    if s == "Catering" then Some(Catering)
    else if s == "Decoration" then Some(Decoration)
    else if s == "Photography" then Some(Photography)
    else if s == "Music" then Some(Music)
    else if s == "Venue" then Some(Venue)
    else if s == "Planning" then Some(Planning)
    else None
  }

  /** A stored service. name, description, category and price are NOT NULL;
      rating is DECIMAL(3, 2), kept in hundredths. */
  datatype Service = Service(
    id: Id,
    name: string,
    description: string,
    category: Category,
    price: Cents,
    imageUrl: Option<string>,
    rating: int,
    reviews: int,
    isActive: bool)

  /** Service.create: rating and reviews start at 0 and the service is active. */
  function NewService(id: Id, name: string, description: string, category: Category,
                      price: Cents, imageUrl: Option<string>): (s: Service)
    ensures s.id == id && s.name == name && s.description == description
    ensures s.category == category && s.price == price && s.imageUrl == imageUrl
    ensures s.rating == 0 && s.reviews == 0 && s.isActive
  {
    Service(id, name, description, category, price, imageUrl, 0, 0, true)
  }
}
