/** The Booking schema: the fields of a booking record, the status enum and the defaults. */
module BookingModel {
  import opened Common

  /** The four values the schema's status enum admits. */
  datatype Status = Pending | Confirmed | Completed | Cancelled

  /** The text under which a status is stored. */
  function StatusText(s: Status): string {
    match s
    case Pending => "pending"
    case Confirmed => "confirmed"
    case Completed => "completed"
    case Cancelled => "cancelled"
  }

  /** The enum value a stored text stands for; None for a text outside the enum. */
  function ParseStatus(text: string): (r: Option<Status>)
    ensures r.Some? ==> StatusText(r.value) == text
  {
    if text == "pending" then Some(Pending)
    else if text == "confirmed" then Some(Confirmed)
    else if text == "completed" then Some(Completed)
    else if text == "cancelled" then Some(Cancelled)
    else None
  }

  lemma StatusRoundTrip(s: Status)
    ensures ParseStatus(StatusText(s)) == Some(s)
  {
  }

  /** A status after which the booking's cab is released: exactly "completed" or "cancelled". */
  function IsTerminal(status: string): (r: bool)
    ensures r <==> status in {"completed", "cancelled"}
  {
    status == StatusText(Completed) || status == StatusText(Cancelled)
  }

  lemma TerminalIsEnumValue(status: string)
    ensures IsTerminal(status) <==> ParseStatus(status) == Some(Completed) || ParseStatus(status) == Some(Cancelled)
  {
  }

  /** What a user supplies when booking (GraphQL BookingInput). */
  datatype BookingInput = BookingInput(
    cabId: Id,
    pickupLocation: string,
    dropLocation: string,
    distance: real)

  /** A stored booking. The status is stored as text, since updates bypass the enum check. */
  datatype Booking = Booking(
    user: Id,
    cab: Id,
    pickupLocation: string,
    dropLocation: string,
    distance: real,
    totalPrice: real,
    status: string,
    bookingDate: Time,
    createdAt: Time,
    updatedAt: Time)

  /** The booking a user makes against a cab priced at `pricePerKm`, with the schema's defaults:
      status "pending" and bookingDate the creation time. */
  function NewBooking(user: Id, input: BookingInput, pricePerKm: real, now: Time): (b: Booking)
    ensures b.user == user && b.cab == input.cabId
    ensures b.pickupLocation == input.pickupLocation && b.dropLocation == input.dropLocation
    ensures b.distance == input.distance
    ensures b.totalPrice == input.distance * pricePerKm
    ensures ParseStatus(b.status) == Some(Pending)
    ensures b.bookingDate == now && b.createdAt == now && b.updatedAt == now
  {
    Booking(user, input.cabId, input.pickupLocation, input.dropLocation, input.distance,
            input.distance * pricePerKm, StatusText(Pending), now, now, now)
  }

  /** The schema's validation on creation: required strings are non-empty and the status is one
      of the enum's values. The ids and numbers are always present. */
  function PassesValidation(b: Booking): (ok: bool)
    ensures ok <==> && b.pickupLocation != "" && b.dropLocation != ""
                    && b.status in {"pending", "confirmed", "completed", "cancelled"}
  {
    b.pickupLocation != "" && b.dropLocation != "" && ParseStatus(b.status).Some?
  }

  lemma NewBookingValidation(user: Id, input: BookingInput, pricePerKm: real, now: Time)
    ensures PassesValidation(NewBooking(user, input, pricePerKm, now))
        <==> input.pickupLocation != "" && input.dropLocation != ""
  {
  }

  /** An update that overwrites the status text and nothing else but the update time. */
  function WithStatus(b: Booking, status: string, now: Time): (r: Booking)
    ensures r.status == status && r.updatedAt == now
    ensures r.(status := b.status, updatedAt := b.updatedAt) == b
  {
    b.(status := status, updatedAt := now)
  }
}
