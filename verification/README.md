# Event booking: request rules and page logic in Dafny

This project models the core of an event-booking web application. Its backend
is a REST API over four tables: users, events, services and bookings. Its front
end is a set of React pages that call that API.

The model covers these parts:

- **Record schemas** (`BookingModel`, `EventModel`, `ServiceModel`, `UserModel`).
  - Each table's row is a datatype. ENUM columns are Dafny datatypes, each with a parser that accepts exactly the enum names.
  - A nullable column is an `Option`. Defaults are filled in by the `New…` constructors.
  - The user password hooks are modelled with bcrypt as a symbolic term: `Hashed(salt, secret)`. `comparePassword` re-hashes the candidate with the stored salt.
  - `toJSON` returns every column except the password.
- **The store** (`Store.Database`). This class holds the four tables as maps from primary key to row.
  - `Valid()` states the schema's constraints:
    - rows are stored under their own key;
    - emails are unique;
    - every foreign key names a row that exists.
  - `Valid()` also states one invariant that the routes keep and the database does not: every booking holds the reference its type calls for. The schema declares `eventId` and `serviceId` as independent nullable columns. The rule holds because only the create route writes a booking's references (backend/routes/bookings.js:38-39). Update and cancel never touch them.
  - The four ON DELETE CASCADE associations (backend/server.js:29-39) are covered by the three `Remove…` methods: `RemoveUser` covers both User associations (to Event and to Booking). Each method is proved to keep `Valid()`.
- **Route handlers** (`BookingRoutes`, `EventRoutes`, `ServiceRoutes`, `UserRoutes`).
  - Each handler is a module-level method that takes the store (`db: Database`).
  - A single-row handler returns a `Response`: 200, 201, 400, 401, 403, 404 or 500. A listing returns its rows.
  - A state-changing handler carries `modifies db`. It changes the store only when it succeeds, and only where its contract says.
  - Its contract also states the order of the checks and the exact error messages.
  - A partial update is a pure `Merge…` function. The handler is proved to save what that function computes. Idempotence and "falsy fields change nothing" are proved about the merge.
  - A listing is the generic `Query.Select`. It returns every selected row exactly once, ordered by the route's `order` clause.
- **Auth middleware** (`Auth`).
  - The token is the second space-separated word of the `Authorization` header.
  - Token verification (`jwt.verify`) is an oracle parameter that yields the user id of a valid token.
  - Each failure maps to a distinct status (401, 403 or 404). `next()` is counted and happens only on success.
- **Front-end logic**:
  - the booking form's type switch, ordered checks, request body and unit-price lookup (`BookingPage`);
  - the sign-up checks (`SignUpPage`);
  - the case-insensitive event search (`EventPage`);
  - the gallery filter (`GalleryPage`);
  - the bounded ticket counter (`EventDetailsPage`).
  - `FormChecksImplyServerChecks` connects the front end to the back end. Every body the booking form sends passes the server's own checks. The booking the server stores keeps the form's type, reference, quantity (1 in place of 0), date and notes, and has no total price.

Inputs that come from outside the program are parameters of the operations that use them:

- the new row's UUID;
- the clock (`now`);
- the bcrypt salt;
- the token verifier;
- the stored token of the browser;
- the server's answer to a front-end request.

Request bodies use these conventions:

- An absent body field is `None`.
- JavaScript truthiness is spelled out: a string is truthy when non-empty, a number when non-zero.
- A date field that is absent or empty is `None`.
- Money is an integer number of hundredths.
- Dates are ordered integers.

Where the code and the intended design differ, the model follows the code:

- Booking update lets the owner write any status. This includes moving a Cancelled booking back to Pending or Confirmed (`UpdateCanLeaveCancelled`). Cancelled is meant to be final.
- Services can be updated and deleted by any authenticated caller. No ownership or role is checked.
- The `lowercase` and `trim` options on the user and event columns are not Sequelize options, so they have no effect. Emails are stored as given, and uniqueness is by exact string.
- The database configuration is not part of this model, so two assumptions are made about how it treats ENUM columns:
  - A request value outside an ENUM fails when the row is saved, so the handler answers 500 and nothing changes. Examples are a booking type other than Event or Service, and an unknown event status or service category.
  - A list filter value outside an ENUM is compared as text and matches no row, so the list is empty (`EventRoutes.MatchesQueryBounds`, `ServiceRoutes.ListServices`). A database that rejects such a value in a WHERE clause, as PostgreSQL does, would answer 500 instead.
- The cascade rules rely on the database enforcing foreign keys. Creating a booking that names a missing event or service therefore fails with 500.

## Model

| member | source | states |
|---|---|---|
| BookingModel.ParseBookingType | backend/models/Booking.js:36-39 | the booking type column accepts exactly "Event" and "Service" |
| BookingModel.ParseBookingStatus | backend/models/Booking.js:60-63 | the status column accepts exactly Pending, Confirmed and Cancelled |
| BookingModel.NewBooking | backend/models/Booking.js:40-63 | a created booking keeps the given columns; quantity defaults to 1, status to Pending, bookingDate to now |
| EventModel.ParseEventType | backend/models/Event.js:21-24 | the event type column accepts exactly its five names |
| EventModel.ParseEventStatus | backend/models/Event.js:53-56 | the event status column accepts exactly Upcoming, Completed and Cancelled |
| EventModel.NewEvent | backend/models/Event.js:12-64 | a created event keeps the given columns; the type defaults to Other and the status to Upcoming |
| ServiceModel.ParseCategory | backend/models/Service.js:21-24 | the category column accepts exactly its six names |
| ServiceModel.NewService | backend/models/Service.js:33-44 | a created service starts with rating 0, no reviews, active |
| UserModel.MatchesHash | backend/models/user.js:85-87 | a hash matches a candidate iff the candidate is the hashed text |
| UserModel.BeforeCreate | backend/models/user.js:69-74 | a non-empty password is replaced by its hash; nothing else changes |
| UserModel.NewUser | backend/models/user.js:49-74 | a new user is active and unverified, and a non-empty password is stored hashed and accepts only itself |
| UserModel.BeforeUpdate | backend/models/user.js:75-80 | the password is re-hashed iff the save changed it; nothing else changes |
| UserModel.ComparePassword | backend/models/user.js:85-87 | accepts exactly the text the stored hash was made from; a stored value that is not a hash accepts nothing |
| UserModel.ToJSON | backend/models/user.js:89-92 | the JSON view carries every column but the password |
| UserModel.ToJSONForgetsOnlyPassword | backend/models/user.js:89-92 | two users have the same JSON view iff they differ at most in their password |
| Store.PutUserKeepsConsistent | backend/models/user.js:23-32 | saving a user under its key with its email unchanged keeps the tables consistent, emails unique included |
| Store.PutEventKeepsConsistent | backend/models/Event.js:57-64 | saving an event whose owner exists keeps the tables consistent |
| Store.PutServiceKeepsConsistent | backend/models/Service.js:7-11 | saving a service under its key keeps the tables consistent |
| Store.PutBookingKeepsConsistent | backend/models/Booking.js:12-35 | saving a booking whose owner and referenced row exist, with the reference its type calls for, keeps the tables consistent |
| Store.Database.RemoveEvent | backend/server.js:35-36 | deleting an event deletes exactly the bookings that reference it, and the tables stay consistent |
| Store.Database.RemoveService | backend/server.js:38-39 | deleting a service deletes exactly the bookings that reference it, and the tables stay consistent |
| Store.Database.RemoveUser | backend/server.js:29-33 | deleting a user deletes their events, their bookings and the bookings of their events; no row refers to the user afterwards |
| Query.Select | backend/routes/events.js:68-77 | findAll with where and order: each selected row exactly once, no other row, adjacent rows in order |
| Query.DeleteWhere | backend/server.js:29-39 | a destroy keeps exactly the rows not matched, unchanged |
| Query.Filter | frontend/src/pages/EventPage.jsx:112 | filter keeps every copy of each element that passes and nothing else, as an order-preserving subsequence |
| Strings.ToLower | frontend/src/pages/EventPage.jsx:113-114 | lower-casing keeps the length and maps each character |
| Strings.ToLowerIdempotent | frontend/src/pages/EventPage.jsx:113-114 | lower-casing twice equals lower-casing once |
| Strings.Includes | frontend/src/pages/EventPage.jsx:113-114 | includes holds iff the text occurs at some index |
| Strings.IncludesEmpty | frontend/src/pages/EventPage.jsx:113 | the empty string occurs in every string |
| Strings.Split | backend/middleware/auth.js:7 | split yields at least one piece and no piece contains the separator |
| Strings.JoinSplit | backend/middleware/auth.js:7 | joining the pieces of a split gives back the string |
| Strings.SplitJoin | backend/middleware/auth.js:7 | splitting a join of separator-free pieces gives back the pieces |
| Strings.LexTotal | backend/routes/services.js:49 | the name order compares any two names |
| Auth.ExtractToken | backend/middleware/auth.js:6-7 | a token is non-empty and has no space; no header gives no token |
| Auth.ExtractTokenWords | backend/middleware/auth.js:7 | the token is the second word of the header when that word is non-empty, otherwise there is none |
| Auth.SchemeIsIgnored | backend/middleware/auth.js:7 | any first word followed by a token yields the token: the scheme is not checked to be Bearer |
| Auth.OneWordHasNoToken | backend/middleware/auth.js:7-14 | a header without a space carries no token |
| Auth.Gate | backend/middleware/auth.js:9-30 | no token gives 401, a token that does not verify gives 403, a missing user gives 404, otherwise the user |
| Auth.AuthenticateToken | backend/middleware/auth.js:16-33 | the outcome is Gate's; only on success is req.user set and next called, exactly once |
| BookingRoutes.CreateBookingError | backend/routes/bookings.js:15-34 | the 400 checks in order: the type, then the reference the type needs; none fails iff all pass |
| BookingRoutes.BookingFromRequest | backend/routes/bookings.js:36-45 | the stored booking is the caller's, keeps only the reference of its type, and has quantity `quantity or 1`, status Pending and bookingDate now; none for a type outside the ENUM |
| BookingRoutes.CreatedBookingHasMatchingReference | backend/routes/bookings.js:38-39 | a booking that passed the checks holds exactly the non-empty reference its type calls for |
| BookingRoutes.CreateBooking | backend/routes/bookings.js:11-58 | 400 with the first failing check, else 201 adding exactly the new booking, else 500 with no change; the store stays consistent |
| BookingRoutes.AllBookings | backend/routes/bookings.js:62-84 | every booking exactly once, newest first |
| BookingRoutes.MyBookings | backend/routes/bookings.js:97-116 | exactly the caller's bookings, each once, newest first |
| BookingRoutes.GetBooking | backend/routes/bookings.js:129-157 | the stored booking, or 404 |
| BookingRoutes.MergeBooking | backend/routes/bookings.js:187-193 | only quantity, preferredDate, notes, status and totalPrice can change, each only to a truthy request value; none for a status outside the ENUM |
| BookingRoutes.MergeBookingIdempotent | backend/routes/bookings.js:189-193 | applying an update twice equals applying it once |
| BookingRoutes.FalsyUpdateChangesNothing | backend/routes/bookings.js:189-193 | an update whose fields are all falsy leaves the booking as it is |
| BookingRoutes.UpdateCanLeaveCancelled | backend/routes/bookings.js:192 | the owner can move a cancelled booking to Confirmed |
| BookingRoutes.UpdateBooking | backend/routes/bookings.js:169-201 | 404 before 403; the owner's update saves the merge; the table is unchanged on every failure |
| BookingRoutes.CancelBooking | backend/routes/bookings.js:212-237 | 404 before 403; the owner's cancel sets status Cancelled and nothing else, and leaves an already-cancelled booking as it was |
| EventRoutes.RequestedType | backend/routes/events.js:34 | `eventType or Other`, checked against the ENUM |
| EventRoutes.HasRequiredFields | backend/routes/events.js:24 | rejects a body whose title, description or location is absent or empty, or whose date is absent |
| EventRoutes.EventFromRequest | backend/routes/events.js:31-43 | the stored event is the caller's, Upcoming, with the request's columns and the requested type |
| EventRoutes.CreateEvent | backend/routes/events.js:9-50 | 400 unless title, description, location and date are given; else 201 adding exactly the new event, or 500 with no change |
| EventRoutes.MatchesQueryBounds | backend/routes/events.js:62-66 | no filters select every event; a filter naming no ENUM value selects none (the text-comparison assumption above) |
| EventRoutes.ListEvents | backend/routes/events.js:60-83 | exactly the events matching the given status and type, each once, soonest first |
| EventRoutes.MyEvents | backend/routes/events.js:94-105 | exactly the caller's events, each once, soonest first |
| EventRoutes.GetEvent | backend/routes/events.js:116-137 | the stored event, or 404 |
| EventRoutes.MergeEvent | backend/routes/events.js:166-190 | each of the eleven fields changes only to a truthy request value; id and owner never change; none for a type or status outside the ENUM |
| EventRoutes.MergeEventIdempotent | backend/routes/events.js:180-190 | applying an update twice equals applying it once |
| EventRoutes.EmptyUpdateChangesNothing | backend/routes/events.js:180-190 | an update whose eleven fields are all falsy (absent, empty or 0) leaves the event as it is |
| EventRoutes.UpdateEvent | backend/routes/events.js:148-198 | 404 before 403; the owner's update saves the merge; the table is unchanged on every failure |
| EventRoutes.DeleteEvent | backend/routes/events.js:209-232 | 404 before 403; the owner's delete removes the event and exactly its bookings |
| ServiceRoutes.ServiceFromRequest | backend/routes/services.js:19-25 | the stored service has the request's columns, rating 0, no reviews, active; none for a category outside the ENUM |
| ServiceRoutes.HasRequiredFields | backend/routes/services.js:12 | rejects a body whose name, description or category is absent or empty, or whose price is absent or 0 |
| ServiceRoutes.CreateService | backend/routes/services.js:8-31 | 400 unless name, description, category and a non-zero price are given; else 201 adding exactly the new service, or 500 with no change |
| ServiceRoutes.OrderFor | backend/routes/services.js:49-52 | price-low, price-high and rating pick their orders; every other value sorts by name |
| ServiceRoutes.PrecedesTotal | backend/routes/services.js:49-52 | each of the four orders compares any two services |
| ServiceRoutes.ListServices | backend/routes/services.js:42-63 | exactly the active services of the given category, each once, in the requested order |
| ServiceRoutes.CategoryList | backend/routes/services.js:74-89 | six distinct names, exactly those the category column accepts |
| ServiceRoutes.CategoryListComplete | backend/models/Service.js:21-24 | every category a service can have is listed |
| ServiceRoutes.GetService | backend/routes/services.js:99-113 | the stored service, or 404 |
| ServiceRoutes.MergeService | backend/routes/services.js:135-145 | name, description, category, price and imageUrl change only to truthy values; rating, reviews and isActive to any given value |
| ServiceRoutes.MergeServiceIdempotent | backend/routes/services.js:138-145 | applying an update twice equals applying it once |
| ServiceRoutes.DeactivateHides | backend/routes/services.js:141-145 | `isActive: false` is applied and hides the service from every listing, while a price of 0 is ignored |
| ServiceRoutes.UpdateService | backend/routes/services.js:124-153 | 404 for a missing id, otherwise the merge is saved for any caller; the table is unchanged on failure |
| ServiceRoutes.DeleteService | backend/routes/services.js:164-180 | 404 for a missing id, otherwise the service and exactly its bookings are removed, for any caller |
| UserRoutes.GetProfile | backend/routes/users.js:8-19 | the caller's row without the password |
| UserRoutes.MergeProfile | backend/routes/users.js:27-37 | only firstName, lastName, phone, bio and profileImage change, to truthy values; email and password hash stay |
| UserRoutes.ProfileKeepsPassword | backend/routes/users.js:31-37 | a profile update never changes which passwords the account accepts |
| UserRoutes.MergeProfileIdempotent | backend/routes/users.js:31-35 | applying a profile update twice equals applying it once |
| UserRoutes.UpdateProfile | backend/routes/users.js:25-43 | the merge is saved and returned without the password; other tables unchanged; the store stays consistent |
| UserRoutes.PasswordChangeError | backend/routes/users.js:58-70 | a missing field is reported first, then the mismatch message when the new passwords differ; none iff all three are given and the new ones agree |
| UserRoutes.ChangePassword | backend/routes/users.js:54-88 | 400s first, 401 iff the current password is wrong; on success exactly the stored hash becomes the hash of the new password, otherwise nothing changes |
| UserRoutes.ChangedPasswordAcceptsOnlyNew | backend/routes/users.js:82-83 | after the change the account accepts the new password and no other |
| UserRoutes.DeleteAccount | backend/routes/users.js:99-106 | 200; the caller, their events, their bookings and their events' bookings are gone |
| UserRoutes.AllUsers | backend/routes/users.js:117-127 | every user exactly once, each as its password-free view |
| BookingPage.BookingError | frontend/src/pages/BookingPage.jsx:53-73 | the login error whenever there is no token, then the date, then the selection the type needs |
| BookingPage.Payload | frontend/src/pages/BookingPage.jsx:78-89 | the body names the chosen type and carries eventId only for Event and serviceId only for Service |
| BookingPage.AsRequest | frontend/src/pages/BookingPage.jsx:78-98 | the server receives the body's type, reference, quantity, date and notes, and no totalPrice |
| BookingPage.FormChecksImplyServerChecks | frontend/src/pages/BookingPage.jsx:53-98 | a body the form sends passes the server's checks, and the stored booking is the caller's, with the form's type, reference, date and notes, its quantity (1 in place of 0) and no total price |
| Query.Find | frontend/src/pages/BookingPage.jsx:121-124 | find yields the first element that passes, and nothing iff none passes |
| BookingPage.SelectedItemPrice | frontend/src/pages/BookingPage.jsx:119-127 | 0 when no loaded row has the selected id, otherwise the budget (0 when none) of the first event, or the price of the first service, with that id |
| BookingPage.NoSelectionHasNoPrice | frontend/src/pages/BookingPage.jsx:119-127 | with nothing selected the unit price is 0 |
| BookingPage.BookingForm.constructor | frontend/src/pages/BookingPage.jsx:7-17 | the form starts as an event booking with nothing selected and quantity 1 |
| BookingPage.BookingForm.ChooseEvent | frontend/src/pages/BookingPage.jsx:157-160 | switching to Event clears the event selection and nothing else |
| BookingPage.BookingForm.ChooseService | frontend/src/pages/BookingPage.jsx:167-170 | switching to Service clears the service selection and nothing else |
| BookingPage.BookingForm.HandleBook | frontend/src/pages/BookingPage.jsx:48-89 | the first failing check's message and no request, or the body built from the form with loading on |
| BookingPage.BookingForm.ReceiveResponse | frontend/src/pages/BookingPage.jsx:100-110 | a failure shows the server's message or the fallback, a success the confirmation; loading goes off |
| BookingPage.BookingForm.ReceiveFailure | frontend/src/pages/BookingPage.jsx:111-116 | a failed request shows the retry message and turns loading off |
| SignUpPage.SignUpError | frontend/src/pages/SignUp.jsx:21-34 | a missing field first, then a password under 6 characters, then the mismatch message when the passwords differ; none iff all pass |
| SignUpPage.SignUpForm.constructor | frontend/src/pages/SignUp.jsx:7-14 | the form starts with every field empty, no message and loading off |
| SignUpPage.EmptyConfirmIsMismatch | frontend/src/pages/SignUp.jsx:21-34 | an empty confirmation with a valid password is reported as a mismatch |
| SignUpPage.SignUpForm.HandleSignUp | frontend/src/pages/SignUp.jsx:16-49 | the request is sent iff all checks pass; otherwise the first failing check's message is shown |
| SignUpPage.SignUpForm.ReceiveResponse | frontend/src/pages/SignUp.jsx:51-64 | a failure shows the server's message or the fallback; a success shows the confirmation and keeps the token, and only then; loading goes off |
| SignUpPage.SignUpForm.ReceiveFailure | frontend/src/pages/SignUp.jsx:65-70 | a failed request shows the retry message and turns loading off |
| EventPage.FilteredEvents | frontend/src/pages/EventPage.jsx:112-117 | a card is shown iff it matches the search and the category, as often as it occurs, in the original order |
| EventPage.MatchesSearch | frontend/src/pages/EventPage.jsx:113-114 | the lower-cased query occurs at some position of the lower-cased title or location; the empty query always matches |
| EventPage.NoFilterShowsAll | frontend/src/pages/EventPage.jsx:112-117 | an empty search with 'all' shows the whole list |
| EventPage.EmptySearchMatches | frontend/src/pages/EventPage.jsx:113 | the empty search matches every card |
| EventPage.SearchIgnoresQueryCase | frontend/src/pages/EventPage.jsx:113-114 | a query and its lower-case form match the same cards |
| EventPage.VerbatimQueryMatches | frontend/src/pages/EventPage.jsx:113-114 | a query that occurs verbatim in the title or location finds the card |
| EventPage.CategoryIsExact | frontend/src/pages/EventPage.jsx:115 | a category other than 'all' shows only cards of exactly that category |
| EventDetailsPage.TicketCounter.constructor | frontend/src/pages/EventDetailsPage.jsx:5 | the count starts at 1 |
| EventDetailsPage.TicketCounter.Increment | frontend/src/pages/EventDetailsPage.jsx:33-35 | adds one below 10, otherwise nothing; the count stays within 1..10 |
| EventDetailsPage.TicketCounter.Decrement | frontend/src/pages/EventDetailsPage.jsx:37-39 | removes one above 1, otherwise nothing; the count stays within 1..10 |
| EventDetailsPage.TicketCounter.TotalPrice | frontend/src/pages/EventDetailsPage.jsx:41 | price times count, between one and ten tickets' worth |
| EventDetailsPage.Press | frontend/src/pages/EventDetailsPage.jsx:33-39 | one press keeps the count within 1..10 |
| EventDetailsPage.Presses | frontend/src/pages/EventDetailsPage.jsx:33-39 | any sequence of presses keeps the count within 1..10 |
| EventDetailsPage.EnoughIncrementsReachMax | frontend/src/pages/EventDetailsPage.jsx:33-35 | enough presses of + reach 10 from any count |
| GalleryPage.FilteredGallery | frontend/src/pages/GalleryPage.jsx:24-26 | 'all' is the whole gallery; otherwise exactly the items of the category, every copy, in order |
| GalleryPage.UnknownCategoryIsEmpty | frontend/src/pages/GalleryPage.jsx:26 | a category no item has shows nothing |

## Left out

- Register and login: backend/routes/auth.js is not part of this model. The model starts from users already in the table.
- Joins and attribute projections (`include: [...]`, `attributes`) in listings and reads. A listing returns the rows of its own table.
- The `createdAt`/`updatedAt` timestamps.
- Sequelize's own row-level validators other than ENUM membership and NOT NULL, such as `isEmail`.
- The UNIQUE email constraint is kept as an invariant. It is not re-checked on the paths modelled here, because none of them writes an email.
- Range limits of DECIMAL(10, 2), DECIMAL(3, 2) and INTEGER columns; a value out of range fails in the database.
- The text order of `ORDER BY name` is code-point order (`Strings.LexLe`), not the database collation. The order among rows with equal sort keys is left open.
- `toLowerCase` maps only the ASCII letters here, not the full Unicode case mapping. `password.length` counts characters, not UTF-16 code units.
- bcrypt's truncation of passwords at 72 bytes.
- JWT signing, expiry and secret handling, which are inside the verifier oracle. So is the 500 "Authentication error" path of the middleware.
- `null` and `undefined` in request bodies are both `None`. So a `rating: null` in a service update counts as absent, though the source would write null.
- `parseInt` of a non-numeric quantity (NaN), and the `toFixed(2)` display of the booking total.
- fetch, localStorage, setTimeout redirects and React rendering. The stored token and the server's answer are parameters of the page methods; the token the sign-up form keeps is its result.
- The `user` object the sign-up form also keeps in local storage.
- Concurrency between requests (last write wins); each handler is one atomic step here.
- The `error.message` text that 500 answers carry.
- The seed script and server start-up, apart from the cascade rules of the associations.
- The static pages and the MyBookings page.
