/**
 * The records of bookings/models.py: flights, passengers and bookings, the derived refund
 * difference and the string forms. Money is held as a whole number of cents, which is exact for a
 * decimal field with two decimal places.
 */
module Models {
  import opened Wrappers

  /** A scheduled flight; read-only to the booking lifecycle. */
  datatype Flight = Flight(flightNumber: string, origin: string, destination: string, fare: int)

  /** A passenger, identified by a unique email address. */
  datatype Passenger = Passenger(firstName: string, lastName: string, email: string)

  /** The three choices of `payment_status`; a value outside them cannot be represented. */
  datatype Status = Pending | Confirmed | Refunded

  /**
   * A booking row. `flight` is the flight's key in the flight table, `passenger` the passenger's
   * email; the nullable columns are options, and the comma-joined columns stay strings.
   */
  datatype Booking = Booking(
    id: nat,
    flight: nat,
    passenger: string,
    seatNumbers: string,
    totalFare: int,
    status: Status,
    pnrCodes: Option<string>,
    originalFare: Option<int>,
    refundNeeded: bool,
    refundAmount: Option<int>,
    refundedSeats: Option<string>)

  /** A booking with every column the caller does not supply at its declared default. */
  function NewBooking(id: nat, flight: nat, passenger: string, seatNumbers: string): (b: Booking)
    ensures b.id == id && b.flight == flight && b.passenger == passenger && b.seatNumbers == seatNumbers
    ensures b.status == Pending && b.totalFare == 0 && !b.refundNeeded
    ensures b.pnrCodes == None && b.originalFare == None && b.refundAmount == None && b.refundedSeats == None
  {
    Booking(id, flight, passenger, seatNumbers, 0, Pending, None, None, false, None, None)
  }

  /** True when `s` is a non-null, non-zero amount: Python's truth value of a Decimal column. */
  predicate Truthy(s: Option<int>)
  {
    s.Some? && s.value != 0
  }

  /**
   * The `refund_difference` property: what the passenger is owed back, the original fare less the
   * current one. Python's truth test makes a null original fare, and also a zero original or
   * current fare, yield 0.
   */
  function RefundDifference(b: Booking): (r: int)
    ensures r >= 0
    ensures r > 0 <==> Truthy(b.originalFare) && b.totalFare != 0 && b.originalFare.value > b.totalFare
    ensures r > 0 ==> b.originalFare.value == b.totalFare + r
    ensures b.originalFare.Some? && b.totalFare > 0 ==>
              r == if b.originalFare.value > b.totalFare then b.originalFare.value - b.totalFare else 0
  {
    if Truthy(b.originalFare) && b.totalFare != 0 && b.originalFare.value > b.totalFare
    then b.originalFare.value - b.totalFare
    else 0
  }

  function DigitChar(n: nat): char
    requires n < 10
  {
    "0123456789"[n]
  }

  /** Decimal digits of a key, as an f-string prints an integer. */
  function NatToString(n: nat): string
  {
    if n < 10 then [DigitChar(n)] else NatToString(n / 10) + [DigitChar(n % 10)]
  }

  /** `str(flight)`: "<number>: <origin> → <destination>". */
  function FlightStr(f: Flight): string
  {
    f.flightNumber + ": " + f.origin + " \U{2192} " + f.destination
  }

  /** `str(passenger)`: "<first> <last>". */
  function PassengerStr(p: Passenger): string
  {
    p.firstName + " " + p.lastName
  }

  /** `str(booking)`, given the passenger and flight the booking refers to. */
  function BookingStr(b: Booking, p: Passenger, f: Flight): string
  {
    "Booking " + NatToString(b.id) + " - " + PassengerStr(p) + " on " + FlightStr(f) + " (" + b.seatNumbers + ")"
  }

  predicate OccursAt(s: string, t: string, i: int)
  {
    0 <= i <= |s| - |t| && s[i..i + |t|] == t
  }

  ghost predicate Contains(s: string, t: string)
  {
    exists i :: OccursAt(s, t, i)
  }

  /** The string form of a booking names its passenger. */
  lemma BookingStrNamesPassenger(b: Booking, p: Passenger, f: Flight)
    ensures Contains(BookingStr(b, p, f), PassengerStr(p))
  {
    var s, t := BookingStr(b, p, f), PassengerStr(p);
    var prefix := "Booking " + NatToString(b.id) + " - ";
    var suffix := " on " + FlightStr(f) + " (" + b.seatNumbers + ")";
    assert s == prefix + t + suffix;
    assert OccursAt(s, t, |prefix|);
  }

  /** The flight and passenger of the repository's own tests print as those tests expect. */
  lemma StrExamples()
    ensures FlightStr(Flight("AB123", "Dublin", "London", 19999)) == "AB123: Dublin \U{2192} London"
    ensures PassengerStr(Passenger("John", "Doe", "john@example.com")) == "John Doe"
  {
  }
}
