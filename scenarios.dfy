/**
 * Walk-throughs of the booking lifecycle, read off the handlers' contracts: the booking of two
 * seats on AB123 from Dublin to London and its payment, a refused double booking, the fare and
 * refund columns after a seat change down, sideways and up on a 100.00 fare, and a refund asked
 * for before any seat change. Seat names are left symbolic; fares are in cents.
 */
module Scenarios {
  import opened Wrappers
  import opened Csv
  import opened Models
  import opened Bookings

  /** Two seats at 199.99 each cost 399.98 and wait for payment, with no PNR yet. */
  method BookTwoSeats(x: string, y: string)
  {
    var store := new Store(map[1 := Flight("AB123", "Dublin", "London", 19999)]);
    assert Occupied([], 1, None) == [];
    var r := store.BookFlight(1, "Ada", "Lovelace", "ada@example.com", [x, y]);
    assert r == Ok(0);
    var b := store.bookings[0];
    assert b.totalFare == 39998 && b.status == Pending && b.pnrCodes == Some("");
    assert b.seatNumbers == Join([x, y], ',');
  }

  /**
   * Paying for those two seats confirms them and records 399.98 as the original fare; the PNRs
   * issued, one per seat, are the subject of `PaidSeatPnrPairs`.
   */
  method PayTwoSeats(store: Store, id: nat, k: nat, token: nat -> Token)
    requires store.Valid() && FindBooking(store.bookings, id) == Some(k)
    requires store.flights[store.bookings[k].flight].flightNumber == "AB123"
    requires store.bookings[k].totalFare == 39998
    modifies store
  {
    var b := store.bookings[k];
    var p := store.Pay(id, token);
    var paid := store.bookings[k];
    assert paid == Paid(b, "AB123", token);
    assert paid.status == Confirmed && paid.originalFare == Some(39998);
  }

  /** A selection that includes a booked seat is refused with the first such seat, and nothing is stored. */
  method RefuseTakenSeat(store: Store, flight: nat, x: string, y: string, z: string)
    requires store.Valid() && flight in store.flights
    requires Occupied(store.bookings, flight, None) == [x, y] && z != x && z != y
    requires !HasBooking(store.bookings, flight, "bob@example.com")
    modifies store
  {
    var before := store.bookings;
    var picked := [z, y];
    assert picked[1] in Occupied(before, flight, None) && picked[0] !in Occupied(before, flight, None);
    var again := store.BookFlight(flight, "Bob", "Ross", "bob@example.com", picked);
    assert again.Err? && again.error.SeatAlreadyBooked?;
    ghost var i :| 0 <= i < |picked| && picked[i] == again.error.seat && again.error.seat in Occupied(before, flight, None);
    assert i == 1;
    assert again == Err(SeatAlreadyBooked(y)) && store.bookings == before;
  }

  /** Three seats down to two on a 100.00 fare: 300.00 becomes 200.00 and a refund of 100.00 is armed. */
  method SeatsDown(store: Store, id: nat, k: nat, a: string, b: string, token: nat -> Token)
    requires store.Valid() && FindBooking(store.bookings, id) == Some(k)
    requires store.bookings == [store.bookings[k]]
    requires store.flights[store.bookings[k].flight].fare == 10000 && store.bookings[k].totalFare == 30000
    modifies store
  {
    var down := store.UpdateSeats(id, [a, b], token);
    assert down == Ok(RefundArmed);
    var booking := store.bookings[k];
    assert booking.totalFare == 20000 && booking.status == Confirmed;
    assert booking.refundNeeded && booking.refundAmount == Some(10000);
  }

  /** Two seats for two others on the same 100.00 fare: the refund armed is 0 and the booking stays confirmed. */
  method SeatsSwapped(store: Store, id: nat, k: nat, a: string, b: string, token: nat -> Token)
    requires store.Valid() && FindBooking(store.bookings, id) == Some(k)
    requires store.bookings == [store.bookings[k]]
    requires store.flights[store.bookings[k].flight].fare == 10000 && store.bookings[k].totalFare == 20000
    modifies store
  {
    var swap := store.UpdateSeats(id, [a, b], token);
    assert swap == Ok(RefundArmed);
    var booking := store.bookings[k];
    assert booking.totalFare == 20000 && booking.refundNeeded && booking.refundAmount == Some(0);
  }

  /** Two seats up to three on a 100.00 fare: 200.00 becomes 300.00 and the booking goes back to payment. */
  method SeatsUp(store: Store, id: nat, k: nat, a: string, b: string, c: string, token: nat -> Token)
    requires store.Valid() && FindBooking(store.bookings, id) == Some(k)
    requires store.bookings == [store.bookings[k]]
    requires store.flights[store.bookings[k].flight].fare == 10000 && store.bookings[k].totalFare == 20000
    modifies store
  {
    var up := store.UpdateSeats(id, [a, b, c], token);
    assert up == Ok(AwaitingPayment);
    var booking := store.bookings[k];
    assert booking.totalFare == 30000 && booking.status == Pending;
  }

  /** A refund asked for while none is armed is turned down and leaves the booking as it was. */
  method RefundRefused(store: Store, id: nat, k: nat)
    requires store.Valid() && FindBooking(store.bookings, id) == Some(k)
    requires !store.bookings[k].refundNeeded
    modifies store
  {
    var before := store.bookings[k];
    var refused := store.RequestRefund(id);
    assert refused == Err(RefundNotAllowed) && store.bookings[k] == before;
  }
}
