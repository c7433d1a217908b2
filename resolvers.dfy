/** The three tables and the resolvers that write them. Each resolver is one atomic step. */
module Resolvers {
  import opened Common
  import opened CabModel
  import opened BookingModel
  import opened UserModel
  import opened Auth
  import opened Queries

  class Store {
    var users: map<Id, User>
    var cabs: map<Id, Cab>
    var bookings: map<Id, Booking>
    /** The next identifier the database hands out; every stored id lies below it. */
    var nextId: Id

    /** The store's invariant: identifiers are fresh below `nextId`, the unique index on
        licensePlate holds, and registration keeps one account per email. */
    ghost predicate Valid()
      reads this
      ensures Valid() ==> nextId !in users && nextId !in cabs && nextId !in bookings
    {
      && (forall id :: id in users ==> id < nextId)
      && (forall id :: id in cabs ==> id < nextId)
      && (forall id :: id in bookings ==> id < nextId)
      && UniquePlates(cabs)
      && UniqueEmails(users)
    }

    constructor ()
      ensures Valid()
      ensures users == map[] && cabs == map[] && bookings == map[]
    {
      users, cabs, bookings := map[], map[], map[];
      nextId := 0;
    }

    /** register: refuses an email already on file; otherwise stores a new plain account. */
    method Register(input: RegisterInput, hash: string -> string, now: Time) returns (r: Result<Id>)
      requires Valid()
      modifies this
      ensures Valid()
      ensures cabs == old(cabs) && bookings == old(bookings)
      ensures EmailTaken(old(users), input.email) ==> r == Err(UserExists) && users == old(users)
      ensures !EmailTaken(old(users), input.email) ==>
                && r.Ok? && r.value !in old(users)
                && users == old(users)[r.value := NewUser(input, hash(input.password), now)]
      ensures r.Ok? ==> CountUsers(users) == old(CountUsers(users)) + 1
    {
      if EmailTaken(users, input.email) {
        return Err(UserExists);
      }
      var id := nextId;
      var u := NewUser(input, hash(input.password), now);
      CountUsersAfterInsert(users, id, u);
      users := users[id := u];
      nextId := nextId + 1;
      r := Ok(id);
    }

    /** login: succeeds exactly when the account with the email accepts the password; an unknown
        email and a wrong password fail alike. `comparePassword(candidate, stored)` stands for the
        account's password check. */
    method Login(input: LoginInput, comparePassword: (string, string) -> bool) returns (r: Result<Id>)
      requires Valid()
      ensures r.Ok? <==> exists id :: id in users && users[id].email == input.email && comparePassword(input.password, users[id].password)
      ensures r.Ok? ==> r.value in users && users[r.value].email == input.email
      ensures r.Err? ==> r.error == InvalidCredentials
    {
      if !EmailTaken(users, input.email) {
        return Err(InvalidCredentials);
      }
      var id :| id in users && users[id].email == input.email;
      if !comparePassword(input.password, users[id].password) {
        return Err(InvalidCredentials);
      }
      r := Ok(id);
    }

    /** addCab: admin only; validates the required fields, then the unique plate, then stores an
        available cab. Existing cabs are untouched. */
    method AddCab(caller: Option<Caller>, input: CabInput, now: Time) returns (r: Result<Id>)
      requires Valid()
      modifies this
      ensures Valid()
      ensures users == old(users) && bookings == old(bookings)
      ensures RequireAdmin(caller).Fail? ==> r == Err(RequireAdmin(caller).error)
      ensures RequireAdmin(caller).Pass? && !HasRequiredFields(input) ==> r == Err(ValidationFailed)
      ensures RequireAdmin(caller).Pass? && HasRequiredFields(input) && PlateHolders(old(cabs), input.licensePlate) != {} ==>
                r == Err(DuplicateKey)
      ensures r.Ok? <==> RequireAdmin(caller).Pass? && HasRequiredFields(input) && PlateHolders(old(cabs), input.licensePlate) == {}
      ensures r.Ok? ==> r.value !in old(cabs) && cabs == old(cabs)[r.value := NewCab(input, now)]
      ensures r.Err? ==> cabs == old(cabs)
    {
      var guard := RequireAdmin(caller);
      if guard.Fail? {
        return Err(guard.error);
      }
      if !HasRequiredFields(input) {
        return Err(ValidationFailed);
      }
      if PlateHolders(cabs, input.licensePlate) != {} {
        return Err(DuplicateKey);
      }
      var id := nextId;
      UniquePlatesAfterWrite(cabs, id, NewCab(input, now));
      cabs := cabs[id := NewCab(input, now)];
      nextId := nextId + 1;
      r := Ok(id);
    }

    /** updateCab: admin only; replaces the input fields of an existing cab. No `required` check
        runs on an update, but the unique plate is still enforced. The availability flag stays. */
    method UpdateCab(caller: Option<Caller>, id: Id, input: CabInput, now: Time) returns (r: Result<Id>)
      requires Valid()
      modifies this
      ensures Valid()
      ensures users == old(users) && bookings == old(bookings)
      ensures RequireAdmin(caller).Fail? ==> r == Err(RequireAdmin(caller).error)
      ensures RequireAdmin(caller).Pass? && id !in old(cabs) ==> r == Err(NotFound)
      ensures RequireAdmin(caller).Pass? && id in old(cabs) && PlateHolders(old(cabs), input.licensePlate) - {id} != {} ==>
                r == Err(DuplicateKey)
      ensures r.Ok? <==> RequireAdmin(caller).Pass? && id in old(cabs) && PlateHolders(old(cabs), input.licensePlate) <= {id}
      ensures r.Ok? ==> r.value == id && cabs == old(cabs)[id := Overwrite(old(cabs)[id], input, now)]
      ensures r.Ok? ==> cabs[id].isAvailable == old(cabs)[id].isAvailable
      ensures r.Err? ==> cabs == old(cabs)
    {
      var guard := RequireAdmin(caller);
      if guard.Fail? {
        return Err(guard.error);
      }
      if id !in cabs {
        return Err(NotFound);
      }
      if PlateHolders(cabs, input.licensePlate) - {id} != {} {
        return Err(DuplicateKey);
      }
      UniquePlatesAfterWrite(cabs, id, Overwrite(cabs[id], input, now));
      cabs := cabs[id := Overwrite(cabs[id], input, now)];
      r := Ok(id);
    }

    /** deleteCab: admin only; removes the cab if present and answers true either way. Bookings
        that name the cab keep naming it. */
    method DeleteCab(caller: Option<Caller>, id: Id) returns (r: Result<bool>)
      requires Valid()
      modifies this
      ensures Valid()
      ensures users == old(users) && bookings == old(bookings)
      ensures RequireAdmin(caller).Fail? ==> r == Err(RequireAdmin(caller).error) && cabs == old(cabs)
      ensures RequireAdmin(caller).Pass? ==> r == Ok(true) && cabs == old(cabs) - {id}
    {
      var guard := RequireAdmin(caller);
      if guard.Fail? {
        return Err(guard.error);
      }
      cabs := cabs - {id};
      r := Ok(true);
    }

    /** bookCab: for an identified caller and an existing, available cab, stores a pending booking
        priced at distance times the cab's rate, then marks the cab unavailable. */
    method BookCab(caller: Option<Caller>, input: BookingInput, now: Time) returns (r: Result<Id>)
      requires Valid()
      modifies this
      ensures Valid()
      ensures users == old(users)
      ensures caller.None? ==> r == Err(NotLoggedIn)
      ensures caller.Some? && !(input.cabId in old(cabs) && old(cabs)[input.cabId].isAvailable) ==>
                r == Err(CabNotAvailable)
      ensures r.Ok? <==> && caller.Some?
                         && input.cabId in old(cabs) && old(cabs)[input.cabId].isAvailable
                         && input.pickupLocation != "" && input.dropLocation != ""
      ensures && caller.Some? && input.cabId in old(cabs) && old(cabs)[input.cabId].isAvailable
              && (input.pickupLocation == "" || input.dropLocation == "") ==>
                r == Err(ValidationFailed)
      ensures r.Err? ==> cabs == old(cabs) && bookings == old(bookings)
      ensures r.Ok? ==>
                var cab := old(cabs)[input.cabId];
                && r.value !in old(bookings)
                && bookings == old(bookings)[r.value := NewBooking(caller.value.userId, input, cab.pricePerKm, now)]
                && cabs == old(cabs)[input.cabId := WithAvailability(cab, false, now)]
      ensures r.Ok? ==> bookings[r.value].totalPrice == input.distance * old(cabs)[input.cabId].pricePerKm
      ensures r.Ok? ==> GetAvailableCabs(cabs) == old(GetAvailableCabs(cabs)) - {input.cabId}
      ensures r.Ok? ==> Revenue(bookings) == old(Revenue(bookings))
    {
      var guard := RequireAuth(caller);
      if guard.Fail? {
        return Err(guard.error);
      }
      if input.cabId !in cabs || !cabs[input.cabId].isAvailable {
        return Err(CabNotAvailable);
      }
      var cab := cabs[input.cabId];
      var booking := NewBooking(caller.value.userId, input, cab.pricePerKm, now);
      NewBookingValidation(caller.value.userId, input, cab.pricePerKm, now);
      if !PassesValidation(booking) {
        return Err(ValidationFailed);
      }
      var id := nextId;
      RevenueAfterInsert(bookings, id, booking);
      bookings := bookings[id := booking];
      nextId := nextId + 1;
      AvailableAfterTaking(cabs, input.cabId, now);
      UniquePlatesAfterSamePlate(cabs, input.cabId, WithAvailability(cab, false, now));
      cabs := cabs[input.cabId := WithAvailability(cab, false, now)];
      r := Ok(id);
    }

    /** updateBookingStatus: admin only; overwrites the status with any text. A "completed" or
        "cancelled" status then makes the booking's cab available again; if that cab has been
        deleted, the status is already written when the call fails. */
    method UpdateBookingStatus(caller: Option<Caller>, id: Id, status: string, now: Time) returns (r: Result<Id>)
      requires Valid()
      modifies this
      ensures Valid()
      ensures users == old(users)
      ensures RequireAdmin(caller).Fail? ==>
                r == Err(RequireAdmin(caller).error) && cabs == old(cabs) && bookings == old(bookings)
      ensures RequireAdmin(caller).Pass? && id !in old(bookings) ==>
                r == Err(NotFound) && cabs == old(cabs) && bookings == old(bookings)
      ensures RequireAdmin(caller).Pass? && id in old(bookings) ==>
                var cabId := old(bookings)[id].cab;
                && bookings == old(bookings)[id := WithStatus(old(bookings)[id], status, now)]
                && (IsTerminal(status) && cabId in old(cabs) ==>
                      r == Ok(id) && cabs == old(cabs)[cabId := WithAvailability(old(cabs)[cabId], true, now)])
                && (IsTerminal(status) && cabId !in old(cabs) ==> r == Err(CabMissing) && cabs == old(cabs))
                && (!IsTerminal(status) ==> r == Ok(id) && cabs == old(cabs))
      ensures RequireAdmin(caller).Pass? && id in old(bookings) ==>
                Revenue(bookings) == old(Revenue(bookings)) - Earned(old(bookings)[id]) + Earned(bookings[id])
      ensures r.Ok? && IsTerminal(status) ==> bookings[id].cab in GetAvailableCabs(cabs)
    {
      var guard := RequireAdmin(caller);
      if guard.Fail? {
        return Err(guard.error);
      }
      if id !in bookings {
        return Err(NotFound);
      }
      var booking := WithStatus(bookings[id], status, now);
      RevenueAfterReplace(bookings, id, booking);
      bookings := bookings[id := booking];
      if IsTerminal(status) {
        if booking.cab !in cabs {
          return Err(CabMissing);
        }
        AvailableAfterReleasing(cabs, booking.cab, now);
        cabs := cabs[booking.cab := WithAvailability(cabs[booking.cab], true, now)];
      }
      r := Ok(id);
    }
  }

  /** A scenario that Dafny verifies: an administrator adds a cab at 2.5 per km, a user books it for
      10 km, and the administrator completes the booking. */
  method BookAndCompleteTrip()
  {
    var store := new Store();
    var admin := Some(Caller(100, AdminRole));
    var rider := Some(Caller(200, UserRole));

    var taxi := CabInput("Nimal", "Axio", "CAB-4521", 4, 2.5, "Colombo", "0771234567");
    assert HasRequiredFields(taxi) && PlateHolders(store.cabs, taxi.licensePlate) == {};
    var added := store.AddCab(admin, taxi, 1000);
    var cab := added.value;

    var booked := store.BookCab(rider, BookingInput(cab, "Fort", "Kandy", 10.0), 2000);
    assert booked.Ok?;
    var trip := booked.value;
    assert store.bookings[trip].totalPrice == 25.0;
    assert ParseStatus(store.bookings[trip].status) == Some(Pending);
    assert !store.cabs[cab].isAvailable && cab !in GetAvailableCabs(store.cabs);

    ghost var before := Revenue(store.bookings);
    var done := store.UpdateBookingStatus(admin, trip, "completed", 5000);
    assert done == Ok(trip);
    assert store.cabs[cab].isAvailable;
    assert Revenue(store.bookings) == before + 25.0;
  }

  /** A scenario that Dafny verifies: once a cab is booked, a second booking of it is refused, and
      a user who is not an administrator cannot complete the first one. */
  method BookedCabIsRefused()
  {
    var store := new Store();
    var admin := Some(Caller(100, AdminRole));
    var rider := Some(Caller(200, UserRole));

    var taxi := CabInput("Nimal", "Axio", "CAB-4521", 4, 2.5, "Colombo", "0771234567");
    assert HasRequiredFields(taxi) && PlateHolders(store.cabs, taxi.licensePlate) == {};
    var added := store.AddCab(admin, taxi, 1000);
    var cab := added.value;
    var booked := store.BookCab(rider, BookingInput(cab, "Fort", "Kandy", 10.0), 2000);
    var trip := booked.value;

    var again := store.BookCab(rider, BookingInput(cab, "Kandy", "Fort", 10.0), 3000);
    assert again == Err(CabNotAvailable);
    var refused := store.UpdateBookingStatus(rider, trip, "completed", 4000);
    assert refused == Err(AdminRequired);
  }

  /** A scenario that Dafny verifies. No transition is checked: a completed booking can be set
      back to "pending" while its cab stays available, and a second user can then book the same
      cab, leaving two pending bookings on it. */
  method RewoundStatusAllowsSecondBooking()
  {
    var store := new Store();
    var admin := Some(Caller(100, AdminRole));
    var first := Some(Caller(200, UserRole));
    var second := Some(Caller(300, UserRole));

    var added := store.AddCab(admin, CabInput("Nimal", "Axio", "CAB-4521", 4, 2.5, "Colombo", "0771234567"), 1000);
    var cab := added.value;
    var booked := store.BookCab(first, BookingInput(cab, "Fort", "Kandy", 10.0), 2000);
    var trip := booked.value;
    var done := store.UpdateBookingStatus(admin, trip, "completed", 3000);
    var rewound := store.UpdateBookingStatus(admin, trip, "pending", 4000);
    assert rewound == Ok(trip);
    assert store.cabs[cab].isAvailable;

    var other := store.BookCab(second, BookingInput(cab, "Galle", "Matara", 5.0), 5000);
    assert other.Ok? && other.value != trip;
    assert store.bookings[trip].cab == cab && store.bookings[trip].status == "pending";
    assert store.bookings[other.value].cab == cab && store.bookings[other.value].status == "pending";
  }
}
