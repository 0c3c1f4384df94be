/**
 * The booking lifecycle of bookings/views.py: the booking store, and the handlers that create a
 * booking, pay for it, change its seats, refund it and delete it. Each handler is a method of the
 * store that updates one booking step by step; its new state is tied to a pure function of the old
 * booking (Paid, Reseated, RefundGranted), and what the handlers promise is proved about those
 * functions and kept as invariants of the store.
 */
module Bookings {
  import opened Wrappers
  import opened Csv
  import opened Models

  /** The ways a handler turns a request down. */
  datatype Error =
    | FlightNotFound
    | BookingNotFound
    | NoSeatsSelected
    | SeatAlreadyBooked(seat: string)
    | SeatsTaken(seats: set<string>)
    | DuplicateBooking
    | RefundNotAllowed

  /** Where a successful seat change sends the passenger next. */
  datatype EditOutcome = AwaitingPayment | RefundArmed

  // ---------------------------------------------------------------------------------------------
  // PNR codes
  // ---------------------------------------------------------------------------------------------

  predicate IsUpperHex(c: char)
  {
    '0' <= c <= '9' || 'A' <= c <= 'F'
  }

  /** The first six characters of a random UUID, upper-cased: six upper-case hex digits. */
  type Token = t: string | |t| == 6 && forall i :: 0 <= i < |t| ==> IsUpperHex(t[i]) witness "000000"

  /** `generate_pnr`: the flight number, the seat and a random token, separated by dashes. */
  function GeneratePnr(seat: string, flightNumber: string, token: Token): (r: string)
    ensures |r| == |flightNumber| + |seat| + 8
    ensures r[..|flightNumber| + |seat| + 2] == flightNumber + "-" + seat + "-"
    ensures r[|r| - 6..] == token
    ensures ',' !in flightNumber && ',' !in seat ==> ',' !in r
  {
    var r := flightNumber + "-" + seat + "-" + token;
    assert forall i :: 0 <= i < |r| ==> r[i] in flightNumber || r[i] == '-' || r[i] in seat || r[i] in token;
    r
  }

  /**
   * The list comprehension that issues one PNR per seat, in seat order; `token(i)` is the random
   * token drawn for the i-th seat.
   */
  function PnrList(seats: seq<string>, flightNumber: string, token: nat -> Token): (r: seq<string>)
    ensures |r| == |seats|
    ensures forall i :: 0 <= i < |r| ==> r[i] == GeneratePnr(seats[i], flightNumber, token(i))
  {
    seq(|seats|, i requires 0 <= i < |seats| => GeneratePnr(seats[i], flightNumber, token(i)))
  }

  predicate CommaFree(xs: seq<string>)
  {
    forall k :: 0 <= k < |xs| ==> ',' !in xs[k]
  }

  /** The comma-joined PNR column decodes to the PNRs issued, seat for seat. */
  lemma PnrListRoundTrip(seats: seq<string>, flightNumber: string, token: nat -> Token)
    ensures ',' !in flightNumber && CommaFree(seats) ==>
              SplitOrEmpty(Some(Join(PnrList(seats, flightNumber, token), ',')), ',')
              == PnrList(seats, flightNumber, token)
  {
    if ',' !in flightNumber && CommaFree(seats) {
      var pnrs := PnrList(seats, flightNumber, token);
      assert forall k :: 0 <= k < |pnrs| ==> pnrs[k] != "" && ',' !in pnrs[k];
      SplitOrEmptyJoin(pnrs, ',');
    }
  }

  // ---------------------------------------------------------------------------------------------
  // Occupied seats
  // ---------------------------------------------------------------------------------------------

  /** A booking whose seats are scanned: on the flight, and not the excluded booking. */
  predicate Scanned(b: Booking, flight: nat, exclude: Option<nat>)
  {
    b.flight == flight && exclude != Some(b.id)
  }

  /**
   * The seats occupied on a flight: every scanned booking's seat column split on commas (without
   * a guard, so an empty column contributes ""), concatenated in table order.
   */
  function Occupied(bs: seq<Booking>, flight: nat, exclude: Option<nat>): seq<string>
  {
    if bs == [] then []
    else
      var last := bs[|bs| - 1];
      Occupied(bs[..|bs| - 1], flight, exclude)
      + (if Scanned(last, flight, exclude) then Split(last.seatNumbers, ',') else [])
  }

  /** A seat is occupied exactly when some scanned booking lists it. */
  lemma {:induction false} OccupiedMembership(bs: seq<Booking>, flight: nat, exclude: Option<nat>, s: string)
    ensures s in Occupied(bs, flight, exclude) <==>
              exists i :: 0 <= i < |bs| && Scanned(bs[i], flight, exclude) && s in Split(bs[i].seatNumbers, ',')
  {
    if bs != [] {
      var front := bs[..|bs| - 1];
      OccupiedMembership(front, flight, exclude, s);
      if s in Occupied(bs, flight, exclude) && s !in Occupied(front, flight, exclude) {
        var n := |bs| - 1;
        assert Scanned(bs[n], flight, exclude) && s in Split(bs[n].seatNumbers, ',');
      }
      if exists i :: 0 <= i < |bs| && Scanned(bs[i], flight, exclude) && s in Split(bs[i].seatNumbers, ',') {
        var i :| 0 <= i < |bs| && Scanned(bs[i], flight, exclude) && s in Split(bs[i].seatNumbers, ',');
        if i < |bs| - 1 {
          assert front[i] == bs[i];
        }
      }
    }
  }

  // ---------------------------------------------------------------------------------------------
  // Store invariants
  // ---------------------------------------------------------------------------------------------

  function AsSet(xs: seq<string>): set<string>
  {
    set x | x in xs
  }

  /** The seats a booking holds, as the conflict checks read its seat column. */
  function Seats(b: Booking): set<string>
  {
    AsSet(Split(b.seatNumbers, ','))
  }

  /** The identifying columns of a row: key, flight and passenger. */
  predicate SameRow(a: Booking, b: Booking)
  {
    a.id == b.id && a.flight == b.flight && a.passenger == b.passenger
  }

  ghost predicate UniqueIds(bs: seq<Booking>)
  {
    forall i, j :: 0 <= i < j < |bs| ==> bs[i].id != bs[j].id
  }

  /** The unique (flight, passenger) constraint. */
  ghost predicate OnePerPassenger(bs: seq<Booking>)
  {
    forall i, j :: 0 <= i < j < |bs| ==> bs[i].flight != bs[j].flight || bs[i].passenger != bs[j].passenger
  }

  /** No seat of a flight is held by two of its bookings. */
  ghost predicate SeatsDisjoint(bs: seq<Booking>)
  {
    forall i, j :: 0 <= i < |bs| && 0 <= j < |bs| && i != j && bs[i].flight == bs[j].flight ==>
      Seats(bs[i]) !! Seats(bs[j])
  }

  predicate HasBooking(bs: seq<Booking>, flight: nat, email: string)
  {
    exists i :: 0 <= i < |bs| && bs[i].flight == flight && bs[i].passenger == email
  }

  /** Looking a booking up by its key. */
  function FindBooking(bs: seq<Booking>, id: nat): (r: Option<nat>)
    ensures r.Some? ==> r.value < |bs| && bs[r.value].id == id
    ensures r.None? <==> forall i :: 0 <= i < |bs| ==> bs[i].id != id
  {
    if bs == [] then None
    else if bs[0].id == id then Some(0)
    else
      match FindBooking(bs[1..], id)
      case None => assert forall i :: 0 < i < |bs| ==> bs[i] == bs[1..][i - 1]; None
      case Some(k) => Some(k + 1)
  }

  lemma ReplaceKeepsInvariants(bs: seq<Booking>, k: nat, nb: Booking)
    requires k < |bs| && SameRow(nb, bs[k])
    ensures UniqueIds(bs) ==> UniqueIds(bs[k := nb])
    ensures OnePerPassenger(bs) ==> OnePerPassenger(bs[k := nb])
    ensures SeatsDisjoint(bs) && Seats(nb) == Seats(bs[k]) ==> SeatsDisjoint(bs[k := nb])
    ensures SeatsDisjoint(bs)
            && (forall j :: 0 <= j < |bs| && j != k && bs[j].flight == nb.flight ==> Seats(nb) !! Seats(bs[j]))
            ==> SeatsDisjoint(bs[k := nb])
  {
  }

  lemma AppendKeepsDisjoint(bs: seq<Booking>, nb: Booking)
    requires SeatsDisjoint(bs)
    requires forall j :: 0 <= j < |bs| && bs[j].flight == nb.flight ==> Seats(nb) !! Seats(bs[j])
    ensures SeatsDisjoint(bs + [nb])
  {
  }

  /** A new booking for seats nobody on its flight holds keeps the flight's bookings seat-disjoint. */
  lemma CreateKeepsInvariants(bs: seq<Booking>, nb: Booking, seatsSelected: seq<string>)
    requires nb.seatNumbers == Join(seatsSelected, ',')
    ensures && SeatsDisjoint(bs) && |seatsSelected| > 0 && CommaFree(seatsSelected)
            && (forall i :: 0 <= i < |seatsSelected| ==> seatsSelected[i] !in Occupied(bs, nb.flight, None))
            ==> SeatsDisjoint(bs + [nb])
  {
    if && SeatsDisjoint(bs) && |seatsSelected| > 0 && CommaFree(seatsSelected)
       && (forall i :: 0 <= i < |seatsSelected| ==> seatsSelected[i] !in Occupied(bs, nb.flight, None)) {
      SplitJoin(seatsSelected, ',');
      forall j | 0 <= j < |bs| && bs[j].flight == nb.flight
        ensures Seats(nb) !! Seats(bs[j])
      {
        forall s | s in Seats(nb) ensures s !in Seats(bs[j]) {
          OccupiedMembership(bs, nb.flight, None, s);
        }
      }
      AppendKeepsDisjoint(bs, nb);
    }
  }

  /** Booking `k`'s new seats, if no other booking on its flight holds one, are disjoint from all of theirs. */
  lemma ReseatIsDisjoint(bs: seq<Booking>, k: nat, nb: Booking, seatNumbers: seq<string>)
    requires k < |bs| && nb.flight == bs[k].flight && nb.seatNumbers == Join(seatNumbers, ',')
    requires |seatNumbers| > 0 && CommaFree(seatNumbers)
    requires forall j :: !Clash(bs, k, seatNumbers, j)
    ensures forall i :: 0 <= i < |bs| && i != k && bs[i].flight == nb.flight ==> Seats(nb) !! Seats(bs[i])
  {
    SplitJoin(seatNumbers, ',');
    assert Seats(nb) == AsSet(seatNumbers);
    forall i | 0 <= i < |bs| && i != k && bs[i].flight == nb.flight
      ensures Seats(nb) !! Seats(bs[i])
    {
      assert !Clash(bs, k, seatNumbers, i);
    }
  }

  lemma RemoveKeepsInvariants(bs: seq<Booking>, k: nat)
    requires k < |bs|
    ensures var cs := bs[..k] + bs[k + 1..];
      && (UniqueIds(bs) ==> UniqueIds(cs))
      && (OnePerPassenger(bs) ==> OnePerPassenger(cs))
      && (SeatsDisjoint(bs) ==> SeatsDisjoint(cs))
      && forall i :: 0 <= i < |cs| ==> cs[i] in bs
  {
  }

  /** Once a booking is deleted, none of its seats is occupied on its flight any more. */
  lemma DeleteFreesSeats(bs: seq<Booking>, k: nat, s: string)
    requires k < |bs| && SeatsDisjoint(bs)
    requires s in Seats(bs[k])
    ensures s !in Occupied(bs[..k] + bs[k + 1..], bs[k].flight, None)
  {
    var cs := bs[..k] + bs[k + 1..];
    OccupiedMembership(cs, bs[k].flight, None, s);
    forall i | 0 <= i < |cs| && Scanned(cs[i], bs[k].flight, None)
      ensures s !in Split(cs[i].seatNumbers, ',')
    {
      var j := if i < k then i else i + 1;
      assert cs[i] == bs[j] && j != k;
      assert Seats(bs[k]) !! Seats(bs[j]);
    }
  }

  // ---------------------------------------------------------------------------------------------
  // The new state of a booking after each handler
  // ---------------------------------------------------------------------------------------------

  /**
   * How a seat list survives being stored comma-joined and read back with a plain or a guarded
   * split: `Csv.SplitJoin` and `Csv.SplitOrEmptyJoin` at the comma, stated as implications so that
   * a function body can appeal to both without first testing their preconditions.
   */
  lemma SeatListRoundTrip(xs: seq<string>)
    ensures |xs| > 0 && CommaFree(xs) ==> Split(Join(xs, ','), ',') == xs
    ensures (forall k :: 0 <= k < |xs| ==> xs[k] != "" && ',' !in xs[k]) ==> SplitOrEmpty(Some(Join(xs, ',')), ',') == xs
  {
    if |xs| > 0 && CommaFree(xs) {
      SplitJoin(xs, ',');
    }
    if forall k :: 0 <= k < |xs| ==> xs[k] != "" && ',' !in xs[k] {
      SplitOrEmptyJoin(xs, ',');
    }
  }

  /** The booking after `pay_booking`. */
  function Paid(b: Booking, flightNumber: string, token: nat -> Token): (r: Booking)
    ensures SameRow(r, b) && r.seatNumbers == b.seatNumbers && r.totalFare == b.totalFare
    ensures r.status == Confirmed && r.originalFare == Some(b.totalFare)
    ensures !r.refundNeeded && r.refundAmount == None && r.refundedSeats == Some("")
    ensures ',' !in flightNumber ==>
              SplitOrEmpty(r.pnrCodes, ',') == PnrList(Split(b.seatNumbers, ','), flightNumber, token)
  {
    var pnrs := PnrList(Split(b.seatNumbers, ','), flightNumber, token);
    PnrListRoundTrip(Split(b.seatNumbers, ','), flightNumber, token);
    b.(pnrCodes := Some(Join(pnrs, ',')), status := Confirmed, originalFare := Some(b.totalFare),
       refundNeeded := false, refundAmount := None, refundedSeats := Some(""))
  }

  /**
   * The booking after a seat change to `seatNumbers` on a flight with the given per-seat fare;
   * `removed` lists the dropped seats in the order a Python set happens to yield them.
   */
  function Reseated(b: Booking, seatNumbers: seq<string>, fare: int, removed: seq<string>,
                    flightNumber: string, token: nat -> Token): (r: Booking)
    ensures SameRow(r, b) && r.seatNumbers == Join(seatNumbers, ',') && r.totalFare == fare * |seatNumbers|
    ensures |seatNumbers| > 0 && CommaFree(seatNumbers) ==> Split(r.seatNumbers, ',') == seatNumbers
    ensures r.totalFare > b.totalFare ==>
              && r.status == Pending && r.pnrCodes == Some("") && r.refundedSeats == Some("")
              && r.originalFare == b.originalFare && r.refundNeeded == b.refundNeeded
              && r.refundAmount == b.refundAmount
    ensures r.totalFare <= b.totalFare ==>
              && r.status == Confirmed && r.originalFare == Some(b.totalFare) && r.refundNeeded
              && r.refundAmount.Some? && r.refundAmount.value >= 0
              && r.totalFare + r.refundAmount.value == b.totalFare
              && r.refundedSeats.Some?
              && ((forall k :: 0 <= k < |removed| ==> removed[k] != "" && ',' !in removed[k]) ==>
                    SplitOrEmpty(r.refundedSeats, ',') == removed)
              && (',' !in flightNumber && CommaFree(seatNumbers) ==>
                    SplitOrEmpty(r.pnrCodes, ',') == PnrList(seatNumbers, flightNumber, token))
  {
    SeatListRoundTrip(seatNumbers);
    SeatListRoundTrip(removed);
    PnrListRoundTrip(seatNumbers, flightNumber, token);
    var newFare := fare * |seatNumbers|;
    var moved := b.(seatNumbers := Join(seatNumbers, ','), totalFare := newFare);
    if newFare > b.totalFare then
      moved.(status := Pending, pnrCodes := Some(""), refundedSeats := Some(""))
    else
      moved.(originalFare := Some(b.totalFare), refundNeeded := true,
             refundAmount := Some(b.totalFare - newFare), refundedSeats := Some(Join(removed, ',')),
             pnrCodes := Some(Join(PnrList(seatNumbers, flightNumber, token), ',')), status := Confirmed)
  }

  /** A booking a refund may be requested for. */
  predicate RefundEligible(b: Booking)
  {
    b.status == Confirmed && b.refundNeeded
  }

  /** The booking after a granted `request_refund`. */
  function RefundGranted(b: Booking): (r: Booking)
    ensures SameRow(r, b) && r.seatNumbers == b.seatNumbers && r.totalFare == b.totalFare
    ensures r.pnrCodes == b.pnrCodes && r.originalFare == b.originalFare && r.refundedSeats == b.refundedSeats
    ensures r.status == Refunded && !r.refundNeeded && !RefundEligible(r)
    ensures r.refundAmount == Some(RefundDifference(b))
    ensures r.refundAmount.Some? && r.refundAmount.value >= 0
    ensures r.refundAmount.value > 0 ==> b.originalFare.Some? && r.refundAmount.value + b.totalFare == b.originalFare.value
  {
    b.(status := Refunded, refundAmount := Some(RefundDifference(b)), refundNeeded := false)
  }

  // ---------------------------------------------------------------------------------------------
  // What the handlers promise, proved about their new-state functions
  // ---------------------------------------------------------------------------------------------

  /** After payment the seat/PNR pairs shown to the passenger cover every seat once, in order. */
  lemma PaidSeatPnrPairs(b: Booking, flightNumber: string, token: nat -> Token)
    requires ',' !in flightNumber && b.seatNumbers != ""
    ensures var seats := Split(b.seatNumbers, ',');
            var paid := Paid(b, flightNumber, token);
            var pairs := SeatPnrPairs(paid.seatNumbers, paid.pnrCodes);
            && |pairs| == |seats|
            && forall i :: 0 <= i < |pairs| ==> pairs[i] == (seats[i], GeneratePnr(seats[i], flightNumber, token(i)))
  {
  }

  /**
   * Paying for a booking whose seat column is empty issues one PNR (for the seat "" that the
   * unguarded split yields), yet the pairs shown are none.
   */
  lemma PaidEmptySeatColumn(b: Booking, flightNumber: string, token: nat -> Token)
    requires ',' !in flightNumber && b.seatNumbers == ""
    ensures var paid := Paid(b, flightNumber, token);
            && SplitOrEmpty(paid.pnrCodes, ',') == [GeneratePnr("", flightNumber, token(0))]
            && SeatPnrPairs(paid.seatNumbers, paid.pnrCodes) == []
  {
  }

  /** Paying twice is paying once with the second draw of tokens: still Confirmed, fares unchanged. */
  lemma PayTwice(b: Booking, flightNumber: string, first: nat -> Token, second: nat -> Token)
    ensures Paid(Paid(b, flightNumber, first), flightNumber, second) == Paid(b, flightNumber, second)
  {
  }

  /**
   * A booking's own seats never count as a conflict when it changes them: keeping any of them,
   * while the flight is seat-disjoint, clashes with no other booking.
   */
  lemma OwnSeatsNeverClash(bs: seq<Booking>, k: nat, seatNumbers: seq<string>)
    requires k < |bs| && SeatsDisjoint(bs)
    requires AsSet(seatNumbers) <= Seats(bs[k])
    ensures forall j :: !Clash(bs, k, seatNumbers, j)
  {
  }

  /**
   * When a seat change lowers or keeps the fare, the refunded-seats column reads back as exactly
   * the seats dropped: the old seats that are not among the new ones.
   */
  lemma RefundedSeatsAreDropped(b: Booking, seatNumbers: seq<string>, fare: int, removed: seq<string>,
                                flightNumber: string, token: nat -> Token)
    requires Enumerates(removed, AsSet(SplitOrEmpty(Some(b.seatNumbers), ',')) - AsSet(seatNumbers))
    requires "" !in Seats(b)
    requires fare * |seatNumbers| <= b.totalFare
    ensures var r := Reseated(b, seatNumbers, fare, removed, flightNumber, token);
            AsSet(SplitOrEmpty(r.refundedSeats, ',')) == AsSet(SplitOrEmpty(Some(b.seatNumbers), ',')) - AsSet(seatNumbers)
  {
    forall k | 0 <= k < |removed| ensures removed[k] != "" && ',' !in removed[k] {
      assert removed[k] in AsSet(removed);
      var pieces := Split(b.seatNumbers, ',');
      assert removed[k] in AsSet(pieces);
      var i :| 0 <= i < |pieces| && pieces[i] == removed[k];
    }
  }

  /**
   * The refund actually granted after a seat change that lowered the fare is recomputed from the
   * fares; it agrees with the amount the change armed unless one of the two fares is zero.
   */
  lemma RefundAfterReseat(b: Booking, seatNumbers: seq<string>, fare: int, removed: seq<string>,
                          flightNumber: string, token: nat -> Token)
    requires fare * |seatNumbers| <= b.totalFare
    ensures var armed := Reseated(b, seatNumbers, fare, removed, flightNumber, token);
            var newFare := fare * |seatNumbers|;
            && RefundEligible(armed)
            && (RefundGranted(armed).refundAmount == armed.refundAmount <==>
                  newFare == b.totalFare || (newFare != 0 && b.totalFare != 0))
  {
  }

  predicate NoDuplicates(xs: seq<string>)
  {
    forall i, j :: 0 <= i < j < |xs| ==> xs[i] != xs[j]
  }

  /** `xs` lists the elements of `s`, each once, in some order. */
  ghost predicate Enumerates(xs: seq<string>, s: set<string>)
  {
    AsSet(xs) == s && NoDuplicates(xs)
  }

  /** `list(s)` for a Python set: its elements once each, in an order the model leaves open. */
  method Enumerate(s: set<string>) returns (xs: seq<string>)
    ensures Enumerates(xs, s)
  {
    xs := [];
    var rest := s;
    while rest != {}
      invariant AsSet(xs) + rest == s && AsSet(xs) !! rest
      invariant NoDuplicates(xs)
      decreases |rest|
    {
      var x :| x in rest;
      assert x !in AsSet(xs);
      xs := xs + [x];
      rest := rest - {x};
    }
  }

  // ---------------------------------------------------------------------------------------------
  // The store
  // ---------------------------------------------------------------------------------------------

  /** A seat conflict for a change of booking `k`'s seats: another booking on its flight holds one. */
  predicate Clash(bs: seq<Booking>, k: nat, seatNumbers: seq<string>, j: int)
    requires k < |bs|
  {
    0 <= j < |bs| && j != k && bs[j].flight == bs[k].flight && !(AsSet(seatNumbers) !! Seats(bs[j]))
  }

  /** The first seat of the selection that is occupied. */
  ghost predicate FirstTaken(seatsSelected: seq<string>, occupied: seq<string>, s: string)
  {
    exists i :: 0 <= i < |seatsSelected| && seatsSelected[i] == s && s in occupied
      && forall j :: 0 <= j < i ==> seatsSelected[j] !in occupied
  }

  /** The intersection reported for the first conflicting booking, in table order. */
  ghost predicate FirstClash(bs: seq<Booking>, k: nat, seatNumbers: seq<string>, taken: set<string>)
    requires k < |bs|
  {
    exists j :: Clash(bs, k, seatNumbers, j) && taken == AsSet(seatNumbers) * Seats(bs[j])
      && forall i :: 0 <= i < j ==> !Clash(bs, k, seatNumbers, i)
  }

  /** The double-booking loop: the first selected seat that is already booked, if any. */
  method FirstBookedSeat(seatsSelected: seq<string>, booked: seq<string>) returns (r: Option<string>)
    ensures r.None? <==> forall i :: 0 <= i < |seatsSelected| ==> seatsSelected[i] !in booked
    ensures r.Some? ==> FirstTaken(seatsSelected, booked, r.value)
  {
    var i := 0;
    while i < |seatsSelected|
      invariant 0 <= i <= |seatsSelected|
      invariant forall j :: 0 <= j < i ==> seatsSelected[j] !in booked
    {
      if seatsSelected[i] in booked {
        return Some(seatsSelected[i]);
      }
      i := i + 1;
    }
    return None;
  }

  class Store {
    /** The flight table, read-only here. */
    const flights: map<nat, Flight>
    /** The passenger table, keyed by the unique email. */
    var passengers: map<string, Passenger>
    /** The booking table, in key order. */
    var bookings: seq<Booking>
    /** The key the next booking gets. */
    var nextId: nat

    ghost predicate Valid()
      reads this
    {
      && (forall e :: e in passengers ==> passengers[e].email == e)
      && (forall i :: 0 <= i < |bookings| ==>
            bookings[i].id < nextId && bookings[i].flight in flights && bookings[i].passenger in passengers)
      && UniqueIds(bookings)
      && OnePerPassenger(bookings)
    }

    constructor(flights: map<nat, Flight>)
      ensures Valid()
      ensures this.flights == flights && passengers == map[] && bookings == [] && nextId == 0
    {
      this.flights := flights;
      passengers := map[];
      bookings := [];
      nextId := 0;
    }

    /**
     * The loop that collects the booked seats of a flight, optionally leaving out one booking
     * (the one being edited).
     */
    method BookedSeats(flight: nat, exclude: Option<nat>) returns (seats: seq<string>)
      ensures seats == Occupied(bookings, flight, exclude)
    {
      seats := [];
      var i := 0;
      while i < |bookings|
        invariant 0 <= i <= |bookings|
        invariant seats == Occupied(bookings[..i], flight, exclude)
      {
        var b := bookings[i];
        if b.flight == flight && exclude != Some(b.id) {
          seats := seats + Split(b.seatNumbers, ',');
        }
        assert bookings[..i + 1][..i] == bookings[..i];
        i := i + 1;
      }
      assert bookings[..i] == bookings;
    }

    /** `get_or_create` by email, then the name overwrite: the passenger ends up with the submitted name. */
    method UpsertPassenger(firstName: string, lastName: string, email: string)
      requires Valid()
      modifies this`passengers
      ensures Valid()
      ensures passengers == old(passengers)[email := Passenger(firstName, lastName, email)]
    {
      if email in passengers {
        var passenger := passengers[email];
        passenger := passenger.(firstName := firstName);
        passenger := passenger.(lastName := lastName);
        passengers := passengers[email := passenger];
      } else {
        passengers := passengers[email := Passenger(firstName, lastName, email)];
      }
    }

    /** `Booking.objects.create` for a pending booking of the selected seats at the flight's fare. */
    method AddBooking(flightId: nat, email: string, seatsSelected: seq<string>) returns (id: nat)
      requires Valid() && flightId in flights && email in passengers
      requires !HasBooking(bookings, flightId, email)
      modifies this`bookings, this`nextId
      ensures Valid()
      ensures id == old(nextId) && nextId == old(nextId) + 1
      ensures bookings == old(bookings) + [NewBooking(id, flightId, email, Join(seatsSelected, ','))
                                             .(totalFare := flights[flightId].fare * |seatsSelected|,
                                               pnrCodes := Some(""))]
      ensures && old(SeatsDisjoint(bookings)) && |seatsSelected| > 0 && CommaFree(seatsSelected)
              && (forall i :: 0 <= i < |seatsSelected| ==> seatsSelected[i] !in Occupied(old(bookings), flightId, None))
              ==> SeatsDisjoint(bookings)
    {
      var booking := NewBooking(nextId, flightId, email, Join(seatsSelected, ','));
      booking := booking.(totalFare := flights[flightId].fare * |seatsSelected|);
      booking := booking.(status := Pending);
      booking := booking.(pnrCodes := Some(""));
      CreateKeepsInvariants(bookings, booking, seatsSelected);
      bookings := bookings + [booking];
      nextId := nextId + 1;
      id := booking.id;
    }

    /** `book_flight` on a POST: validate the selection, upsert the passenger, create the booking. */
    method BookFlight(flightId: nat, firstName: string, lastName: string, email: string,
                      seatsSelected: seq<string>) returns (r: Result<nat, Error>)
      requires Valid()
      modifies this`passengers, this`bookings, this`nextId
      ensures Valid()
      ensures r.Ok? <==>
                && flightId in flights && |seatsSelected| > 0
                && (forall i :: 0 <= i < |seatsSelected| ==> seatsSelected[i] !in Occupied(old(bookings), flightId, None))
                && !HasBooking(old(bookings), flightId, email)
      ensures r.Err? ==>
                r.error.FlightNotFound? || r.error.NoSeatsSelected? || r.error.SeatAlreadyBooked? || r.error.DuplicateBooking?
      ensures r == Err(FlightNotFound) <==> flightId !in flights
      ensures r == Err(NoSeatsSelected) <==> flightId in flights && |seatsSelected| == 0
      ensures r.Err? && r.error.SeatAlreadyBooked? ==>
                FirstTaken(seatsSelected, Occupied(old(bookings), flightId, None), r.error.seat)
      ensures flightId in flights && (exists i :: 0 <= i < |seatsSelected| && seatsSelected[i] in Occupied(old(bookings), flightId, None)) ==>
                && r.Err? && r.error.SeatAlreadyBooked?
                && passengers == old(passengers) && bookings == old(bookings) && nextId == old(nextId)
      ensures r.Err? && r.error != DuplicateBooking ==>
                passengers == old(passengers) && bookings == old(bookings) && nextId == old(nextId)
      ensures r == Err(DuplicateBooking) ==>
                && HasBooking(old(bookings), flightId, email)
                && (forall i :: 0 <= i < |seatsSelected| ==> seatsSelected[i] !in Occupied(old(bookings), flightId, None))
                && passengers == old(passengers)[email := Passenger(firstName, lastName, email)]
                && bookings == old(bookings) && nextId == old(nextId)
      ensures r.Ok? ==>
                && r.value == old(nextId) && nextId == old(nextId) + 1
                && passengers == old(passengers)[email := Passenger(firstName, lastName, email)]
                && bookings == old(bookings) + [NewBooking(r.value, flightId, email, Join(seatsSelected, ','))
                                                  .(totalFare := flights[flightId].fare * |seatsSelected|,
                                                    pnrCodes := Some(""))]
      ensures old(SeatsDisjoint(bookings)) && CommaFree(seatsSelected) ==> SeatsDisjoint(bookings)
    {
      if flightId !in flights {
        return Err(FlightNotFound);
      }
      var booked := BookedSeats(flightId, None);

      if |seatsSelected| == 0 {
        return Err(NoSeatsSelected);
      }

      var taken := FirstBookedSeat(seatsSelected, booked);
      if taken.Some? {
        return Err(SeatAlreadyBooked(taken.value));
      }

      UpsertPassenger(firstName, lastName, email);

      if HasBooking(bookings, flightId, email) {
        return Err(DuplicateBooking);
      }

      var id := AddBooking(flightId, email, seatsSelected);
      r := Ok(id);
    }

    /** `pay_booking` on a POST: issue one PNR per seat and confirm the booking. */
    method Pay(id: nat, token: nat -> Token) returns (r: Result<(), Error>)
      requires Valid()
      modifies this`bookings
      ensures Valid()
      ensures FindBooking(old(bookings), id).None? ==> r == Err(BookingNotFound) && bookings == old(bookings)
      ensures FindBooking(old(bookings), id).Some? ==>
                var k := FindBooking(old(bookings), id).value;
                var b := old(bookings)[k];
                r == Ok(()) && bookings == old(bookings)[k := Paid(b, flights[b.flight].flightNumber, token)]
      ensures old(SeatsDisjoint(bookings)) ==> SeatsDisjoint(bookings)
    {
      var found := FindBooking(bookings, id);
      if found.None? {
        return Err(BookingNotFound);
      }
      var k := found.value;
      var b := bookings[k];
      var flightNumber := flights[b.flight].flightNumber;

      var seats := Split(b.seatNumbers, ',');
      var pnrList := PnrList(seats, flightNumber, token);
      b := b.(pnrCodes := Some(Join(pnrList, ',')));
      b := b.(status := Confirmed);
      b := b.(originalFare := Some(b.totalFare));
      b := b.(refundNeeded := false);
      b := b.(refundAmount := None);
      b := b.(refundedSeats := Some(""));

      ReplaceKeepsInvariants(bookings, k, b);
      bookings := bookings[k := b];
      r := Ok(());
    }

    /**
     * The conflict loop of the seat change: the seats of the selection that the first other
     * booking on the same flight already holds, if there is such a booking.
     */
    method FindClash(k: nat, seatNumbers: seq<string>) returns (taken: Option<set<string>>)
      requires k < |bookings| && UniqueIds(bookings)
      ensures taken.None? <==> forall j :: !Clash(bookings, k, seatNumbers, j)
      ensures taken.Some? ==> FirstClash(bookings, k, seatNumbers, taken.value)
    {
      var b := bookings[k];
      var j := 0;
      while j < |bookings|
        invariant 0 <= j <= |bookings|
        invariant forall i :: 0 <= i < j ==> !Clash(bookings, k, seatNumbers, i)
      {
        var other := bookings[j];
        if other.flight == b.flight && other.id != b.id {
          var common := AsSet(seatNumbers) * AsSet(Split(other.seatNumbers, ','));
          if common != {} {
            assert exists s :: s in AsSet(seatNumbers) && s in Seats(other);
            assert Clash(bookings, k, seatNumbers, j);
            return Some(common);
          }
          assert common == AsSet(seatNumbers) * Seats(other);
          forall s | s in AsSet(seatNumbers) ensures s !in Seats(other) {
            assert s !in common;
          }
        }
        assert j != k && other.flight == b.flight ==> other.id != b.id;
        j := j + 1;
      }
      return None;
    }

    /**
     * The writes of the seat change once it is validated: the new seats and fare, then either
     * back to payment (the fare rose) or a refund of the difference armed with fresh PNRs.
     */
    method Reseat(k: nat, seatNumbers: seq<string>, removed: seq<string>, token: nat -> Token)
      returns (outcome: EditOutcome)
      requires Valid() && k < |bookings| && |seatNumbers| > 0
      requires forall j :: !Clash(bookings, k, seatNumbers, j)
      modifies this`bookings
      ensures Valid()
      ensures var b := old(bookings)[k];
              var flight := flights[b.flight];
              && outcome == (if flight.fare * |seatNumbers| > b.totalFare then AwaitingPayment else RefundArmed)
              && bookings == old(bookings)[k := Reseated(b, seatNumbers, flight.fare, removed, flight.flightNumber, token)]
      ensures old(SeatsDisjoint(bookings)) && CommaFree(seatNumbers) ==> SeatsDisjoint(bookings)
    {
      var b := bookings[k];
      var flight := flights[b.flight];
      var oldFare := b.totalFare;
      var newFare := flight.fare * |seatNumbers|;

      b := b.(seatNumbers := Join(seatNumbers, ','));
      b := b.(totalFare := newFare);

      if newFare > oldFare {
        b := b.(status := Pending);
        b := b.(pnrCodes := Some(""));
        b := b.(refundedSeats := Some(""));
        outcome := AwaitingPayment;
      } else {
        var refund := oldFare - newFare;
        b := b.(originalFare := Some(oldFare));
        b := b.(refundNeeded := true);
        b := b.(refundAmount := Some(refund));
        b := b.(refundedSeats := Some(Join(removed, ',')));
        var pnrList := PnrList(seatNumbers, flight.flightNumber, token);
        b := b.(pnrCodes := Some(Join(pnrList, ',')));
        b := b.(status := Confirmed);
        outcome := RefundArmed;
      }

      if SeatsDisjoint(bookings) && CommaFree(seatNumbers) {
        ReseatIsDisjoint(bookings, k, b, seatNumbers);
      }
      ReplaceKeepsInvariants(bookings, k, b);
      bookings := bookings[k := b];
    }

    /**
     * `BookingUpdateView.post`: move a booking to a new seat selection, charging the difference
     * (back to payment) or arming a refund of it (confirmed, with fresh PNRs).
     */
    method UpdateSeats(id: nat, seatNumbers: seq<string>, token: nat -> Token) returns (r: Result<EditOutcome, Error>)
      requires Valid()
      modifies this`bookings
      ensures Valid()
      ensures r == Err(BookingNotFound) <==> FindBooking(old(bookings), id).None?
      ensures r == Err(NoSeatsSelected) <==> FindBooking(old(bookings), id).Some? && |seatNumbers| == 0
      ensures r.Err? && !r.error.SeatsTaken? ==> bookings == old(bookings)
      ensures FindBooking(old(bookings), id).Some? && |seatNumbers| > 0 ==>
                var k := FindBooking(old(bookings), id).value;
                (r.Err? <==> exists j :: Clash(old(bookings), k, seatNumbers, j))
      ensures r.Err? ==> r.error.BookingNotFound? || r.error.NoSeatsSelected? || r.error.SeatsTaken?
      ensures r.Err? && r.error.SeatsTaken? ==>
                && bookings == old(bookings)
                && FindBooking(old(bookings), id).Some?
                && FirstClash(old(bookings), FindBooking(old(bookings), id).value, seatNumbers, r.error.seats)
      ensures r.Ok? ==>
                && FindBooking(old(bookings), id).Some?
                && var k := FindBooking(old(bookings), id).value;
                   var b := old(bookings)[k];
                   var flight := flights[b.flight];
                   && r.value == (if flight.fare * |seatNumbers| > b.totalFare then AwaitingPayment else RefundArmed)
                   && exists removed ::
                        && Enumerates(removed, AsSet(SplitOrEmpty(Some(b.seatNumbers), ',')) - AsSet(seatNumbers))
                        && bookings == old(bookings)[k := Reseated(b, seatNumbers, flight.fare, removed, flight.flightNumber, token)]
      ensures old(SeatsDisjoint(bookings)) && CommaFree(seatNumbers) ==> SeatsDisjoint(bookings)
    {
      var found := FindBooking(bookings, id);
      if found.None? {
        return Err(BookingNotFound);
      }
      var k := found.value;
      var b := bookings[k];
      var flight := flights[b.flight];

      if |seatNumbers| == 0 {
        return Err(NoSeatsSelected);
      }

      var taken := FindClash(k, seatNumbers);
      if taken.Some? {
        return Err(SeatsTaken(taken.value));
      }

      var oldSeats := if b.seatNumbers != "" then AsSet(Split(b.seatNumbers, ',')) else {};
      var newSeats := AsSet(seatNumbers);
      var removed := Enumerate(oldSeats - newSeats);
      assert Enumerates(removed, AsSet(SplitOrEmpty(Some(b.seatNumbers), ',')) - AsSet(seatNumbers));

      var outcome := Reseat(k, seatNumbers, removed, token);
      r := Ok(outcome);
    }

    /** `request_refund`: refund a confirmed booking whose refund is armed, and list its refunded seats. */
    method RequestRefund(id: nat) returns (r: Result<seq<string>, Error>)
      requires Valid()
      modifies this`bookings
      ensures Valid()
      ensures FindBooking(old(bookings), id).None? ==> r == Err(BookingNotFound) && bookings == old(bookings)
      ensures FindBooking(old(bookings), id).Some? ==>
                var k := FindBooking(old(bookings), id).value;
                var b := old(bookings)[k];
                if RefundEligible(b) then
                  r == Ok(SplitOrEmpty(b.refundedSeats, ',')) && bookings == old(bookings)[k := RefundGranted(b)]
                else
                  r == Err(RefundNotAllowed) && bookings == old(bookings)
      ensures old(SeatsDisjoint(bookings)) ==> SeatsDisjoint(bookings)
    {
      var found := FindBooking(bookings, id);
      if found.None? {
        return Err(BookingNotFound);
      }
      var k := found.value;
      var b := bookings[k];

      if b.status == Confirmed && b.refundNeeded {
        ghost var before := b;
        b := b.(status := Refunded);
        b := b.(refundAmount := Some(RefundDifference(b)));
        b := b.(refundNeeded := false);
        assert b == RefundGranted(before);
        assert SameRow(b, bookings[k]) && Seats(b) == Seats(bookings[k]);
        ReplaceKeepsInvariants(bookings, k, b);
        bookings := bookings[k := b];

        var refunded := if b.refundedSeats.Some? && b.refundedSeats.value != "" then Split(b.refundedSeats.value, ',') else [];
        r := Ok(refunded);
      } else {
        r := Err(RefundNotAllowed);
      }
    }

    /** `BookingDeleteView`: remove a booking from the table. */
    method Delete(id: nat) returns (r: Result<(), Error>)
      requires Valid()
      modifies this`bookings
      ensures Valid()
      ensures FindBooking(old(bookings), id).None? ==> r == Err(BookingNotFound) && bookings == old(bookings)
      ensures FindBooking(old(bookings), id).Some? ==>
                var k := FindBooking(old(bookings), id).value;
                r == Ok(()) && bookings == old(bookings)[..k] + old(bookings)[k + 1..]
      ensures old(SeatsDisjoint(bookings)) ==> SeatsDisjoint(bookings)
    {
      var found := FindBooking(bookings, id);
      if found.None? {
        return Err(BookingNotFound);
      }
      var k := found.value;
      RemoveKeepsInvariants(bookings, k);
      bookings := bookings[..k] + bookings[k + 1..];
      r := Ok(());
    }
  }
}
