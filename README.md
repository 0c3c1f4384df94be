# Flight booking: seat inventory and fare/refund lifecycle

A Dafny model of the core of a small Django flight-booking app. Passengers book seats on a flight,
pay, change their seats, ask for a refund and delete bookings. Every seat list is stored in a single
text column as a comma-joined string and is read back with Python's `str.split`.

The model has four modules:

- `Wrappers`: `Option` and `Result`.
- `Csv`: Python's `str.split` and `str.join` for a one-character delimiter, and the two template
  helpers `split` and `seat_pnr_pairs`. Python's split returns `[""]` for the empty string, and the
  model keeps that. The guarded split, which returns `[]` for a null or empty value, is a separate
  function, `SplitOrEmpty`.
- `Models`: the `Flight`, `Passenger` and `Booking` records, the `refund_difference` property and
  the `__str__` formats.
  - Money is a whole number of cents. That is exact for a decimal column with two decimal places.
  - Nullable columns are `Option`s.
  - `Truthy` models Python's truth test on a decimal, so a zero amount counts as false.
- `Bookings`: the booking store and the request handlers of `views.py`.
  - `Store` is a class. It holds the flight table, the passenger table keyed by email, the booking
    table in key order, and the next key.
  - Each handler is a method that validates the request, then rewrites one booking field by field.
  - Each handler's `ensures` ties the new table to a pure function of the old booking:
    - `Paid` for payment;
    - `Reseated` for a seat change;
    - `RefundGranted` for a refund.
  - What the source promises is proved about those functions and kept as invariants of the store:
    - unique keys;
    - one booking per (flight, passenger);
    - no seat of a flight held by two bookings.

The random part of a PNR is the first six characters of a UUID, upper-cased. The model takes it
as a parameter `token: nat -> Token`, where `Token` is six upper-case hex digits and `token(i)` is
the draw for the i-th seat.

Python's `list(set)` yields the refunded seats in an unspecified order. The model's `Enumerate`
returns them once each, in an order it leaves open.

The module `Scenarios` walks through the lifecycle on concrete fares, using only the handlers'
contracts:

- booking and paying for two seats on AB123 from Dublin to London at 199.99;
- a refused double booking;
- a change of seats down, sideways and up on a 100.00 fare;
- a refund asked for before any change.

Two behaviours of the code worth knowing. The model follows the code in both:

- A `Refunded` booking is not final. Paying again, or changing seats, moves it back to `Confirmed`
  or `Pending` (`views.py:142`, `views.py:215`, `views.py:229`). `Reseated` states this for every
  prior status.
- A refund recomputes its amount with `refund_difference` instead of reusing the amount the seat
  change armed. `RefundAfterReseat` proves exactly when the two agree: when the fare is unchanged,
  or when both the old and the new fare are non-zero.

## Model

| member | source | states |
|---|---|---|
| Csv.Split | flightbooking/bookings/views.py:138 | Python's unguarded `split`: one more piece than there are delimiters, none of them containing the delimiter, so `""` gives `[""]` |
| Csv.Join | flightbooking/bookings/views.py:110 | `",".join`: the result starts with the first piece; for delimiter-free pieces it holds exactly one delimiter fewer than there are pieces |
| Csv.JoinSplit | flightbooking/bookings/templatetags/booking_extras.py:8 | joining the pieces of a split gives back the original string, for every string |
| Csv.SplitJoin | flightbooking/bookings/views.py:110 | a non-empty list of delimiter-free pieces, joined and then split, is the same list |
| Csv.SplitOrEmpty | flightbooking/bookings/templatetags/booking_extras.py:8 | the `split` filter is empty exactly for a null or empty value; otherwise it has delimiters + 1 pieces, which join back to the value |
| Csv.SplitOrEmptyJoin | flightbooking/bookings/templatetags/booking_extras.py:8 | the `split` filter applied to a join of non-empty, delimiter-free codes gives the codes back, including the empty list |
| Csv.Zip | flightbooking/bookings/templatetags/booking_extras.py:17 | `zip` has the length of the shorter input, and pair i is (a[i], b[i]) |
| Csv.SeatPnrPairs | flightbooking/bookings/templatetags/booking_extras.py:15-17 | min(#seats, #pnrs) pairs, pair i being (seats[i], pnrs[i]); an empty seat column or a null or empty PNR column gives no pairs |
| Models.NewBooking | flightbooking/bookings/models.py:29-49 | a fresh booking is Pending with total fare 0, no refund pending, and null PNRs, original fare, refund amount and refunded seats |
| Models.RefundDifference | flightbooking/bookings/models.py:59-64 | never negative; positive exactly when the original fare is non-null and non-zero, the total fare is non-zero and the original exceeds it, and then it is their difference; for a positive total it is the plain original − total or 0 |
| Models.BookingStrNamesPassenger | flightbooking/bookings/models.py:57 | the string form of a booking contains the passenger's string form |
| Models.StrExamples | flightbooking/bookings/models.py:15-26 | the flight AB123 Dublin→London prints as `AB123: Dublin → London` and John Doe as `John Doe` |
| Bookings.GeneratePnr | flightbooking/bookings/views.py:53-55 | the PNR is `flight_number + "-" + seat + "-"` followed by the six-character token; it has no comma when its parts have none |
| Bookings.PnrList | flightbooking/bookings/views.py:139 | one PNR per seat, in seat order; entry i is the PNR of seat i with token i |
| Bookings.PnrListRoundTrip | flightbooking/bookings/views.py:139-141 | the comma-joined PNR column reads back, through the guarded split, as the PNRs issued |
| Bookings.OccupiedMembership | flightbooking/bookings/views.py:62-64 | a seat is in the booked-seat list of a flight exactly when some booking of that flight, other than the excluded one, lists it |
| Bookings.FindBooking | flightbooking/bookings/views.py:134 | looking a booking up by key finds a row with that key, and finds none exactly when no row has it |
| Bookings.ReplaceKeepsInvariants | flightbooking/bookings/views.py:141-147 | rewriting a row's non-key columns keeps keys unique and one booking per (flight, passenger); it keeps seats disjoint when the seats are unchanged or clash with no other booking of the flight |
| Bookings.AppendKeepsDisjoint | flightbooking/bookings/views.py:84-94 | adding a booking whose seats no booking of its flight holds keeps the flight's bookings seat-disjoint |
| Bookings.CreateKeepsInvariants | flightbooking/bookings/views.py:84-114 | a new booking for a non-empty, comma-free selection with no seat in the booked-seat list keeps the bookings seat-disjoint |
| Bookings.ReseatIsDisjoint | flightbooking/bookings/views.py:193-199 | a comma-free selection that passes the conflict loop shares no seat with any other booking of the flight |
| Bookings.RemoveKeepsInvariants | flightbooking/bookings/views.py:234-237 | deleting a row keeps every invariant of the table, and the remaining rows were all in it |
| Bookings.DeleteFreesSeats | flightbooking/bookings/views.py:234-237 | after a booking is deleted, none of its seats is in the flight's booked-seat list |
| Bookings.SeatListRoundTrip | flightbooking/bookings/views.py:110 | a corollary of `Csv.SplitJoin` and `Csv.SplitOrEmptyJoin` at the comma: a comma-free seat list survives the seat column through the unguarded split; a list of non-empty codes also survives the guarded one |
| Bookings.Paid | flightbooking/bookings/views.py:138-147 | payment confirms the booking, records the original fare as the total fare, clears the refund fields, and stores one PNR per split seat, in order |
| Bookings.Reseated | flightbooking/bookings/views.py:202-230 | new seats and fare = fare × count; if the fare rose: Pending, PNRs and refunded seats cleared, refund fields untouched; otherwise Confirmed whatever the prior status, refund of old − new ≥ 0 armed, the removed seats recorded, one fresh PNR per new seat |
| Bookings.RefundGranted | flightbooking/bookings/views.py:243-247 | a granted refund sets Refunded, stores `refund_difference` as the amount (never negative, and original − total when positive), clears the refund flag, and cannot be granted a second time; seats, fares and PNRs are kept |
| Bookings.PaidSeatPnrPairs | flightbooking/bookings/templatetags/booking_extras.py:15-17 | after payment, the pairs shown cover every seat exactly once, in order, each with its own PNR |
| Bookings.PaidEmptySeatColumn | flightbooking/bookings/views.py:138-141 | paying for a booking with an empty seat column issues one PNR for the seat "", yet shows no pairs |
| Bookings.PayTwice | flightbooking/bookings/views.py:136-147 | paying twice is paying once with the second draw of tokens: still Confirmed, fares unchanged |
| Bookings.OwnSeatsNeverClash | flightbooking/bookings/views.py:193 | while the flight is seat-disjoint, keeping any of a booking's own seats never counts as a conflict |
| Bookings.RefundedSeatsAreDropped | flightbooking/bookings/views.py:206-226 | when the fare does not rise, the refunded-seats column reads back as exactly the old seats not among the new ones |
| Bookings.RefundAfterReseat | flightbooking/bookings/views.py:243-245 | after a seat change that did not raise the fare a refund may be requested; the amount granted equals the amount armed iff the fare is unchanged or both fares are non-zero |
| Bookings.Enumerate | flightbooking/bookings/views.py:208 | `list(set)`: every element of the set, once each |
| Bookings.FirstBookedSeat | flightbooking/bookings/views.py:84-94 | the double-booking loop finds nothing exactly when no selected seat is booked, else the first selected seat that is |
| Bookings.Store.constructor | flightbooking/bookings/models.py:29-54 | an empty store over a flight table satisfies the table invariants |
| Bookings.Store.BookedSeats | flightbooking/bookings/views.py:62-64 | the loop collecting a flight's booked seats, optionally leaving out one booking, computes the booked-seat list |
| Bookings.Store.UpsertPassenger | flightbooking/bookings/views.py:97-104 | the passenger with the email ends up with the submitted names, whether created or overwritten |
| Bookings.Store.AddBooking | flightbooking/bookings/views.py:107-114 | exactly one booking is appended: the joined selection, fare × count, Pending, empty PNRs, a fresh key |
| Bookings.Store.BookFlight | flightbooking/bookings/views.py:58-116 | succeeds iff the flight exists, the selection is non-empty, no selected seat is booked and the passenger has no booking on the flight; an empty selection, or one with any booked seat, writes nothing, and a booked seat is refused as such even when the passenger already has a booking on the flight; the first booked seat is reported; a duplicate (flight, passenger) is refused only for a free selection, after the passenger upsert; success upserts the passenger and adds one booking; seats stay disjoint |
| Bookings.Store.Pay | flightbooking/bookings/views.py:133-155 | the booking becomes `Paid` of its old value, and nothing else changes |
| Bookings.Store.FindClash | flightbooking/bookings/views.py:193-199 | the conflict loop finds nothing exactly when no other booking of the flight shares a seat with the selection, else the intersection with the first one that does |
| Bookings.Store.Reseat | flightbooking/bookings/views.py:210-230 | the booking becomes `Reseated` of its old value; the outcome says whether it goes back to payment; seats stay disjoint |
| Bookings.Store.UpdateSeats | flightbooking/bookings/views.py:183-231 | an empty or conflicting selection changes nothing; it is refused exactly when another booking of the flight holds a selected seat; otherwise the booking becomes `Reseated` with the removed seats listed once each |
| Bookings.Store.RequestRefund | flightbooking/bookings/views.py:240-257 | a Confirmed booking with a refund pending becomes `RefundGranted` and its guarded-split refunded seats are returned; any other booking is refused and unchanged |
| Bookings.Store.Delete | flightbooking/bookings/views.py:234-237 | the booking with the key is removed and the rest keep their order |

## Left out

- Bookings.Store.BookFlight: keeps the bookings seat-disjoint only for a selection with no comma inside a seat code. Such a seat is split into several seats when read back, so the source does not keep them disjoint either.
- Bookings.Store.UpdateSeats: the same comma-free condition on seat-disjointness as `BookFlight`.
- Bookings.Store.Reseat: the same comma-free condition on seat-disjointness as `BookFlight`.
- The booked-seat scan and the conflict loop visit bookings in key order. The source's queries (`views.py:63`, `views.py:193`) have no `order_by`, so the database picks the order. Only the intersection that `SeatsTaken` reports depends on it.
- A selection may name the same seat twice, as the source allows. It is then charged twice and stored twice.
- `home`, the search view, is not modelled. It consists of ORM filters and date parsing that swallows errors.
- `my_bookings`, `get_context_data`, rendering, redirects, flash messages and the fixed seat-map geometry are not modelled. These are presentation only.
- The `departure_time`, `arrival_time` and `booking_date` columns are left out. No part of the lifecycle reads them.
- Column widths (`max_length`) and decimal precision limits (`max_digits`) are not enforced. Amounts are unbounded integers of cents.
- The PNR suffix comes from `uuid4` and is random. It is a caller-supplied token here, and PNR uniqueness is not claimed.
- The database is a value held by `Store`.
  - A 404 is the error `FlightNotFound` or `BookingNotFound`.
  - The `IntegrityError` for a second booking by a passenger on a flight is the error `DuplicateBooking`. It is returned after the passenger upsert has taken effect, as in autocommit mode.
- A booking refers to its passenger by email, which is unique, instead of by a numeric key.
- Flights and passengers are never deleted, so the cascading deletes are not modelled.
- Bookings are rows held by value. A handler's step-by-step field updates followed by `save()` become the replacement of one row. Aliasing between Python objects that hold the same row is not modelled.
- Concurrent requests, and the race between the seat check and the write, are not modelled. The model is sequential.
- GET requests only render pages, so only the POST paths of the handlers are modelled.
- The template filter's delimiter is a single character. Every use in the app passes `","`.
