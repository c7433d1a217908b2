/** The read-side resolvers: filters over the cab and booking tables, and the dashboard figures. */
module Queries {
  import opened Common
  import opened CabModel
  import opened BookingModel
  import opened UserModel
  import opened Auth

  // ---------------------------------------------------------------------------------------------
  // getAvailableCabs

  /** Public: the cabs whose availability flag is set, and no others. */
  function GetAvailableCabs(cabs: map<Id, Cab>): (r: map<Id, Cab>)
    ensures forall id :: id in r <==> id in cabs && cabs[id].isAvailable
    ensures forall id :: id in r ==> r[id] == cabs[id]
  {
    map id | id in cabs && cabs[id].isAvailable :: cabs[id]
  }

  /** Taking a cab removes exactly that cab from the available list. */
  lemma AvailableAfterTaking(cabs: map<Id, Cab>, id: Id, now: Time)
    requires id in cabs
    ensures GetAvailableCabs(cabs[id := WithAvailability(cabs[id], false, now)]) == GetAvailableCabs(cabs) - {id}
  {
  }

  /** Releasing a cab adds exactly that cab, with its new record, to the available list. */
  lemma AvailableAfterReleasing(cabs: map<Id, Cab>, id: Id, now: Time)
    requires id in cabs
    ensures var released := WithAvailability(cabs[id], true, now);
            GetAvailableCabs(cabs[id := released]) == GetAvailableCabs(cabs)[id := released]
  {
  }

  // ---------------------------------------------------------------------------------------------
  // getUserBookings

  /** Only for an identified caller: the bookings whose user is the caller, and no others. */
  function GetUserBookings(caller: Option<Caller>, bookings: map<Id, Booking>): (r: Result<map<Id, Booking>>)
    ensures r.Err? <==> caller.None?
    ensures r.Err? ==> r.error == NotLoggedIn
    ensures r.Ok? ==> forall id :: id in r.value <==> id in bookings && bookings[id].user == caller.value.userId
    ensures r.Ok? ==> forall id :: id in r.value ==> r.value[id] == bookings[id]
  {
    match RequireAuth(caller)
    case Fail(e) => Err(e)
    case Pass =>
      var me := caller.value.userId;
      Ok(map id | id in bookings && bookings[id].user == me :: bookings[id])
  }

  /** A new booking shows up in its own user's list only; every other list is unchanged. */
  lemma UserBookingsAfterInsert(caller: Caller, bookings: map<Id, Booking>, id: Id, b: Booking)
    requires id !in bookings
    ensures var before := GetUserBookings(Some(caller), bookings).value;
            var after := GetUserBookings(Some(caller), bookings[id := b]).value;
            after == if b.user == caller.userId then before[id := b] else before
  {
  }

  // ---------------------------------------------------------------------------------------------
  // getDashboardStats

  /** What one booking adds to the revenue: its price when its status is exactly "completed". */
  function Earned(b: Booking): (amount: real)
    ensures b.status != StatusText(Completed) ==> amount == 0.0
    ensures b.status == StatusText(Completed) ==> amount == b.totalPrice
  {
    if b.status == StatusText(Completed) then b.totalPrice else 0.0
  }

  /** The sum of the prices of the completed bookings; 0 when there are none. */
  ghost function Revenue(bookings: map<Id, Booking>): (total: real)
    ensures (forall id :: id in bookings ==> bookings[id].status != StatusText(Completed)) ==> total == 0.0
    decreases |bookings|
  {
    if bookings == map[] then 0.0
    else
      var id :| id in bookings;
      assert |bookings - {id}| < |bookings| by {
        assert (bookings - {id}).Keys == bookings.Keys - {id};
      }
      Earned(bookings[id]) + Revenue(bookings - {id})
  }

  /** The sum does not depend on the order in which bookings are taken: any one booking can be
      split off. */
  lemma {:induction false} RevenueSplit(bookings: map<Id, Booking>, id: Id)
    requires id in bookings
    ensures Revenue(bookings) == Earned(bookings[id]) + Revenue(bookings - {id})
    decreases |bookings|
  {
    var first :| first in bookings && Revenue(bookings) == Earned(bookings[first]) + Revenue(bookings - {first});
    if first != id {
      var rest := bookings - {first};
      assert (bookings - {first}).Keys == bookings.Keys - {first};
      assert |rest| < |bookings|;
      RevenueSplit(rest, id);
      assert rest - {id} == (bookings - {id}) - {first};
      var others := bookings - {id};
      assert others.Keys == bookings.Keys - {id};
      assert |others| < |bookings|;
      RevenueSplit(others, first);
    }
  }

  /** A new booking adds what it earns to the revenue. */
  lemma RevenueAfterInsert(bookings: map<Id, Booking>, id: Id, b: Booking)
    requires id !in bookings
    ensures Revenue(bookings[id := b]) == Revenue(bookings) + Earned(b)
  {
    RevenueSplit(bookings[id := b], id);
    assert bookings[id := b] - {id} == bookings;
  }

  /** Replacing a booking changes the revenue by the difference of what the two records earn. */
  lemma RevenueAfterReplace(bookings: map<Id, Booking>, id: Id, b: Booking)
    requires id in bookings
    ensures Revenue(bookings[id := b]) == Revenue(bookings) - Earned(bookings[id]) + Earned(b)
  {
    RevenueSplit(bookings, id);
    RevenueSplit(bookings[id := b], id);
    assert bookings[id := b] - {id} == bookings - {id};
  }

  /** The number of accounts with the plain "user" role; administrators are not counted. */
  function CountUsers(users: map<Id, User>): (n: nat)
    ensures n <= |users|
    ensures (forall id :: id in users ==> users[id].role == UserRole) ==> n == |users|
    ensures (forall id :: id in users ==> users[id].role != UserRole) ==> n == 0
  {
    var plain := set id | id in users && users[id].role == UserRole;
    assert plain <= users.Keys;
    SubsetCardinality(plain, users.Keys);
    assert (forall id :: id in users ==> users[id].role == UserRole) ==> plain == users.Keys;
    |plain|
  }

  lemma SubsetCardinality(a: set<Id>, b: set<Id>)
    requires a <= b
    ensures |a| <= |b|
  {
    if a != {} {
      var x :| x in a;
      SubsetCardinality(a - {x}, b - {x});
    }
  }

  /** A new account adds one to the count exactly when its role is "user". */
  lemma CountUsersAfterInsert(users: map<Id, User>, id: Id, u: User)
    requires id !in users
    ensures CountUsers(users[id := u]) == CountUsers(users) + (if u.role == UserRole then 1 else 0)
  {
    var before := set i | i in users && users[i].role == UserRole;
    var grown := users[id := u];
    var after := set i | i in grown && grown[i].role == UserRole;
    if u.role == UserRole {
      assert after == before + {id};
    } else {
      assert after == before;
    }
  }

  datatype DashboardStats = DashboardStats(totalUsers: nat, totalCabs: nat, totalBookings: nat, totalRevenue: real)

  /** Admin only: the user-role count, the table sizes and the completed-booking revenue. */
  ghost function GetDashboardStats(caller: Option<Caller>, users: map<Id, User>, cabs: map<Id, Cab>,
                                   bookings: map<Id, Booking>): (r: Result<DashboardStats>)
    ensures r.Err? <==> RequireAdmin(caller).Fail?
    ensures r.Err? ==> r.error == RequireAdmin(caller).error
    ensures r.Ok? ==> r.value.totalUsers == CountUsers(users) && r.value.totalCabs == |cabs| && r.value.totalBookings == |bookings|
    ensures r.Ok? ==> r.value.totalRevenue == Revenue(bookings)
  {
    match RequireAdmin(caller)
    case Fail(e) => Err(e)
    case Pass => Ok(DashboardStats(CountUsers(users), |cabs|, |bookings|, Revenue(bookings)))
  }
}
