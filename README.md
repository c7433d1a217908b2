# CabConnect booking backend in Dafny

This project models the booking and availability logic of the CabConnect cab-booking service's
GraphQL backend. That logic consists of the resolvers in `backend/resolvers/index.js` and the
Cab and Booking record schemas in `backend/models/`.

There are three tables: users, cabs and bookings. Each is a `map<Id, Record>` field of the class
`Resolvers.Store`. Every mutating resolver is a method of that class. Each method states its
whole new state in terms of the old one, and keeps the store invariant `Valid()`:

- identifiers are fresh (every id lies below the store's `nextId`);
- no two cabs share a licence plate (the schema's unique index);
- no two accounts share an email (kept by `register`).

The guards and the read-side resolvers are pure functions over the tables:

- `requireAuth` and `requireAdmin`;
- `getAvailableCabs` and `getUserBookings`, the two filters;
- `getDashboardStats`, the counts and the completed-booking revenue.

Lemmas connect the mutations to the queries:

- taking a cab removes exactly that cab from the available list;
- releasing a cab adds it back;
- a new booking appears only in its own user's list;
- a new booking leaves the revenue unchanged;
- rewriting a status changes the revenue by the difference of what the old and new records earn.

Modules, one per part of the backend:

- `Common` (common.dfy): identifiers, times, `Option`, `Result`, `Outcome` and the errors the
  resolvers throw.
- `CabModel` (cab_model.dfy): the Cab schema, its defaults and the plate uniqueness.
- `BookingModel` (booking_model.dfy): the Booking schema, the four-value `Status` enum and the
  defaults.
- `UserModel` (user_model.dfy): the user record the resolvers read and write.
- `Auth` (auth.dfy): the two guards.
- `Queries` (queries.dfy): the query resolvers.
- `Resolvers` (resolvers.dfy): the `Store` class with the mutation resolvers, plus three
  scenario methods that Dafny verifies.

The scenario method `BookAndCompleteTrip` follows one trip. A user books a cab priced at 2.5 per
km for 10 km. The booking costs 25 and the cab becomes unavailable. When an admin completes the
booking, the cab is available again and the revenue grows by 25.

The scenario method `BookedCabIsRefused` shows two refusals. A second booking of a booked cab
fails, and a non-admin cannot complete a booking.

The scenario method `RewoundStatusAllowsSecondBooking` shows that `updateBookingStatus` checks no
transition. A completed booking can be set back to "pending" while its cab stays available. Then
another user can book the same cab, and the cab has two pending bookings. So the rule one would
expect does not hold after this sequence. That rule is: a cab referenced by a pending or confirmed
booking is unavailable.

Where the code does less than one might expect, the model follows the code:

- The stored status is text. `findByIdAndUpdate` runs no schema validators, so
  `updateBookingStatus` stores any string. Only creation is checked against the enum.
- A distance is not checked to be positive.
- `updateCab` does not check required fields, but the unique index on `licensePlate` still
  rejects a plate that another cab holds.
- `updateBookingStatus` writes the status before it touches the cab. So when the status is
  "completed" or "cancelled" and the booking's cab has been deleted, the call fails
  (`CabMissing`) with the status already written.

## Model

| member | source | states |
|---|---|---|
| `Auth.RequireAuth` | backend/resolvers/index.js:14-18 | fails, with the not-logged-in error, exactly when there is no caller |
| `Auth.RequireAdmin` | backend/resolvers/index.js:20-25 | passes exactly when there is a caller whose role is "admin"; no caller gives the not-logged-in error, any other role the admin-required error |
| `Auth.AdminImpliesAuth` | backend/resolvers/index.js:20-22 | whoever passes the admin guard passes the login guard |
| `CabModel.NewCab` | backend/models/Cab.js:3-42 | a new cab carries exactly the input fields, is available by default, and has both timestamps set to the creation time |
| `CabModel.Overwrite` | backend/resolvers/index.js:111-114 | an update replaces exactly the input fields; availability and creation time stay, the update time is the call's time |
| `CabModel.WithAvailability` | backend/resolvers/index.js:143-144 | flipping availability leaves every input field and the creation time as they were |
| `CabModel.HasRequiredFields` | backend/models/Cab.js:5-38 | a cab input fails the `required` validator exactly when one of its five text fields is the empty string |
| `CabModel.UniquePlatesIsSoleHolders` | backend/models/Cab.js:13-17 | the unique index on licensePlate (`UniquePlates`: no two cabs share a plate) holds exactly when each cab is the only holder of its own plate |
| `CabModel.PlateHolders` | backend/models/Cab.js:13-17 | the cabs holding a plate are exactly those in the table with that plate |
| `CabModel.UniquePlatesAfterWrite` | backend/models/Cab.js:13-17 | writing a cab whose plate no other cab holds, by insert or overwrite, keeps plates unique |
| `CabModel.UniquePlatesAfterSamePlate` | backend/resolvers/index.js:143-144 | rewriting a cab without changing its plate, as the availability flip does, keeps plates unique |
| `BookingModel.IsTerminal` | backend/resolvers/index.js:162-163 | a status releases the cab exactly when it is the text "completed" or "cancelled" |
| `BookingModel.PassesValidation` | backend/models/Booking.js:5-35 | a new booking passes the schema's validation exactly when pickup and drop are non-empty and the status is one of the four enum texts |
| `BookingModel.ParseStatus` | backend/models/Booking.js:31-35 | a text accepted as a status is exactly that status's stored text |
| `BookingModel.StatusRoundTrip` | backend/models/Booking.js:33 | each of the four enum values reads back as itself from its stored text |
| `BookingModel.TerminalIsEnumValue` | backend/resolvers/index.js:162-163 | the statuses that release a cab are exactly the enum values completed and cancelled |
| `BookingModel.NewBooking` | backend/resolvers/index.js:130-139 | the booking's user is the caller, its cab the input cab; pickup, drop and distance are copied; price is distance times the cab's rate; status is "pending"; bookingDate is the creation time |
| `BookingModel.NewBookingValidation` | backend/models/Booking.js:5-35 | a new booking passes the schema's validation exactly when pickup and drop are non-empty |
| `BookingModel.WithStatus` | backend/resolvers/index.js:154-158 | a status update changes the status (to any text) and the update time, and nothing else |
| `UserModel.EmailTaken` | backend/resolvers/index.js:78-79 | an email is taken exactly when it is among the emails of the stored accounts |
| `UserModel.NewUser` | backend/resolvers/index.js:83-84 | a registered account keeps the input fields, stores the hashed password and has the plain "user" role, not "admin" |
| `Queries.GetAvailableCabs` | backend/resolvers/index.js:38-40 | exactly the cabs whose availability flag is set, with their records |
| `Queries.AvailableAfterTaking` | backend/resolvers/index.js:143-144 | marking a cab unavailable removes exactly that cab from the available list |
| `Queries.AvailableAfterReleasing` | backend/resolvers/index.js:162-165 | marking a cab available adds exactly that cab, with its new record, to the available list |
| `Queries.GetUserBookings` | backend/resolvers/index.js:42-47 | fails exactly when there is no caller; otherwise exactly the bookings whose user is the caller |
| `Queries.UserBookingsAfterInsert` | backend/resolvers/index.js:132-141 | a new booking appears in its own user's list and no other list changes |
| `Queries.Earned` | backend/resolvers/index.js:60-62 | a booking contributes its price when its status is exactly "completed", and nothing otherwise |
| `Queries.Revenue` | backend/resolvers/index.js:60-65 | the revenue is 0 when no booking is completed |
| `Queries.RevenueSplit` | backend/resolvers/index.js:60-62 | the sum is independent of order: any one booking's contribution can be split off |
| `Queries.RevenueAfterInsert` | backend/resolvers/index.js:60-65 | a new booking adds exactly what it earns to the revenue |
| `Queries.RevenueAfterReplace` | backend/resolvers/index.js:60-65 | replacing a booking changes the revenue by new minus old contribution |
| `Queries.CountUsers` | backend/resolvers/index.js:56 | counts only "user"-role accounts: at most the table size, all of it when every account is a plain user, 0 when none is |
| `Queries.CountUsersAfterInsert` | backend/resolvers/index.js:56 | a new account raises the count by one exactly when its role is "user" |
| `Queries.GetDashboardStats` | backend/resolvers/index.js:54-73 | admin only (the guard's error otherwise); totalUsers is the user-role count, totalCabs and totalBookings the table sizes, totalRevenue the completed revenue |
| `Resolvers.Store.Valid` | backend/models/Cab.js:13-17 | the store invariant: every stored id lies below the next id, so the next id is fresh in all three tables; plates are unique (the unique index); emails are unique |
| `Resolvers.Store.Register` | backend/resolvers/index.js:77-88 | an email already on file fails with no change; otherwise exactly one new plain account under a fresh id, and the user count grows by one |
| `Resolvers.Store.Login` | backend/resolvers/index.js:90-103 | succeeds exactly when the account with that email accepts the password; an unknown email and a wrong password give the same error |
| `Resolvers.Store.AddCab` | backend/resolvers/index.js:105-109 | admin only; missing required field, then taken plate, fail with no change; otherwise one new available cab under a fresh id, existing cabs unchanged |
| `Resolvers.Store.UpdateCab` | backend/resolvers/index.js:111-114 | admin only; unknown id or a plate held by another cab fail with no change; otherwise only that cab's input fields change, availability stays |
| `Resolvers.Store.DeleteCab` | backend/resolvers/index.js:116-120 | admin only; removes the cab if present and always answers true; bookings are untouched |
| `Resolvers.Store.BookCab` | backend/resolvers/index.js:122-149 | no caller, then a missing or unavailable cab, then an empty pickup or drop (ValidationFailed), fail with no change; otherwise one pending booking at distance × rate under a fresh id, the cab becomes unavailable and leaves the available list, no other cab or booking changes, revenue unchanged |
| `Resolvers.Store.UpdateBookingStatus` | backend/resolvers/index.js:151-168 | admin only; unknown booking fails with no change; otherwise the status is overwritten with no transition check; "completed"/"cancelled" makes its cab available (or fails after the write if the cab is gone), any other status leaves cabs alone; revenue moves by the booking's change in contribution |

## Left out

- Tokens: `generateToken` and JWT signing are not modelled, so `register` and `login` return the
  account's id rather than a token and user.
- Request identity: `backend/server.js` derives the caller with `verifyToken` (in
  `backend/middleware/auth.js`). The model takes the caller as a parameter instead:
  `Option<Caller>`, where `Caller.userId` is the id the resolvers read as `user.userId`.
- Passwords: hashing and `comparePassword` are library calls. They become the function
  parameters `hash` and `comparePassword`.
- The User schema (backend/models/User.js) is not part of this model. The account created by
  `register` is taken to have the role "user". No User-level validation or unique index is
  modelled; `register`'s own email check keeps emails unique.
- `getUsers`, `getCabs` and `getAllBookings` are not modelled. Each returns a whole table, two of
  them behind `RequireAdmin`, and has no logic beyond the guard.
- `populate`: results are booking and cab ids, not populated documents. For a non-terminal status
  update whose cab was deleted, the resolver returns normally and the model answers `Ok`. GraphQL's
  later non-null error on the missing cab is not modelled.
- Identifier casting: ids are natural numbers handed out by one counter. A malformed ObjectId
  (a CastError in the source) has no counterpart.
- Concurrency and crashes: each resolver is one atomic step. The race between two `bookCab`
  calls, and a crash between the booking write and the cab write, are not modelled.
- Numbers: prices and distances are `real`, not IEEE doubles. `capacity` is an unbounded `int`,
  not a 32-bit GraphQL Int.
- Errors are constructors of `Error`; the exact message texts and error classes are not modelled.
- Clock: `Date.now` and the schema timestamps take the time from a `now` parameter.
- `Queries.Revenue` and `Queries.GetDashboardStats` are ghost definitions: the aggregation
  pipeline is stated as a sum over the table, not computed step by step.
