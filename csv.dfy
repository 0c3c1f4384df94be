/**
 * The comma-joined string encoding the booking app uses for seat lists, PNR lists and refunded
 * seats: Python's `str.split` and `str.join` for a one-character delimiter, and the two template
 * helpers of bookings/templatetags/booking_extras.py built on them.
 */
module Csv {
  import opened Wrappers

  /** How many times `d` occurs in `s`. */
  function Occurrences(s: string, d: char): nat
  {
    if s == [] then 0 else (if s[0] == d then 1 else 0) + Occurrences(s[1..], d)
  }

  lemma {:induction false} OccurrencesAppend(a: string, b: string, d: char)
    ensures Occurrences(a + b, d) == Occurrences(a, d) + Occurrences(b, d)
  {
    if a == [] {
      assert a + b == b;
    } else {
      assert (a + b)[0] == a[0];
      assert (a + b)[1..] == a[1..] + b;
      OccurrencesAppend(a[1..], b, d);
    }
  }

  lemma {:induction false} OccurrencesAbsent(s: string, d: char)
    ensures d !in s ==> Occurrences(s, d) == 0
  {
    if s != [] {
      OccurrencesAbsent(s[1..], d);
    }
  }

  /**
   * Python's `s.split(d)`: the pieces between the delimiters, in order. It never returns an
   * empty list: `"".split(",")` is `[""]`.
   */
  function Split(s: string, d: char): (r: seq<string>)
    ensures |r| == Occurrences(s, d) + 1
    ensures forall k :: 0 <= k < |r| ==> d !in r[k]
  {
    if s == [] then [""]
    else
      var rest := Split(s[1..], d);
      if s[0] == d then [""] + rest
      else [[s[0]] + rest[0]] + rest[1..]
  }

  /** Python's `d.join(xs)`: the pieces with one delimiter between neighbours. */
  function Join(xs: seq<string>, d: char): (r: string)
    ensures |xs| > 0 ==> |xs[0]| <= |r| && r[..|xs[0]|] == xs[0]
    ensures |xs| > 0 && (forall k :: 0 <= k < |xs| ==> d !in xs[k]) ==> Occurrences(r, d) == |xs| - 1
  {
    if |xs| == 0 then ""
    else if |xs| == 1 then
      OccurrencesAbsent(xs[0], d);
      xs[0]
    else
      OccurrencesAbsent(xs[0], d);
      OccurrencesAppend(xs[0], [d], d);
      OccurrencesAppend(xs[0] + [d], Join(xs[1..], d), d);
      assert Occurrences([d], d) == 1;
      xs[0] + [d] + Join(xs[1..], d)
  }

  /** Splitting a piece that holds no delimiter in front of `t` extends the first piece of `t`. */
  lemma {:induction false} SplitFreePrefix(w: string, t: string, d: char)
    requires d !in w
    ensures Split(w + t, d) == [w + Split(t, d)[0]] + Split(t, d)[1..]
  {
    if w == [] {
      assert w + t == t;
      assert w + Split(t, d)[0] == Split(t, d)[0];
      assert [Split(t, d)[0]] + Split(t, d)[1..] == Split(t, d);
    } else {
      assert (w + t)[0] == w[0];
      assert (w + t)[1..] == w[1..] + t;
      SplitFreePrefix(w[1..], t, d);
      assert [w[0]] + (w[1..] + Split(t, d)[0]) == w + Split(t, d)[0];
    }
  }

  lemma JoinConsChar(c: char, xs: seq<string>, d: char)
    requires |xs| > 0
    ensures Join([[c] + xs[0]] + xs[1..], d) == [c] + Join(xs, d)
  {
  }

  /** Joining the pieces of a split gives back the string. */
  lemma {:induction false} JoinSplit(s: string, d: char)
    ensures Join(Split(s, d), d) == s
  {
    if s != [] {
      JoinSplit(s[1..], d);
      var rest := Split(s[1..], d);
      if s[0] == d {
        assert ([""] + rest)[1..] == rest;
        assert s == [d] + s[1..];
      } else {
        JoinConsChar(s[0], rest, d);
        assert s == [s[0]] + s[1..];
      }
    }
  }

  /** Splitting a join gives back the pieces, when there is at least one and none holds the delimiter. */
  lemma {:induction false} SplitJoin(xs: seq<string>, d: char)
    requires |xs| > 0
    requires forall k :: 0 <= k < |xs| ==> d !in xs[k]
    ensures Split(Join(xs, d), d) == xs
  {
    if |xs| == 1 {
      SplitFreePrefix(xs[0], "", d);
      assert xs[0] + "" == xs[0];
    } else {
      SplitJoin(xs[1..], d);
      var t := [d] + Join(xs[1..], d);
      assert t[0] == d && t[1..] == Join(xs[1..], d);
      assert Split(t, d) == [""] + xs[1..];
      SplitFreePrefix(xs[0], t, d);
      assert xs[0] + [d] + Join(xs[1..], d) == xs[0] + t;
      assert xs[0] + "" == xs[0];
      assert xs == [xs[0]] + xs[1..];
    }
  }

  /**
   * The `split` template filter (booking_extras.py:8), and every guarded split of the views:
   * a null or empty value gives no pieces, anything else is split as Python does.
   */
  function SplitOrEmpty(value: Option<string>, d: char): (r: seq<string>)
    ensures r == [] <==> value == None || value == Some("")
    ensures value.Some? && value.value != "" ==>
              |r| == Occurrences(value.value, d) + 1 && Join(r, d) == value.value
  {
    if value.None? || value.value == "" then []
    else
      JoinSplit(value.value, d);
      Split(value.value, d)
  }

  /**
   * The encoding of a seat or PNR list is faithful when no element is empty or holds the
   * delimiter; the empty list round-trips too, through the empty string.
   */
  lemma {:induction false} SplitOrEmptyJoin(xs: seq<string>, d: char)
    requires forall k :: 0 <= k < |xs| ==> xs[k] != "" && d !in xs[k]
    ensures SplitOrEmpty(Some(Join(xs, d)), d) == xs
  {
    if xs != [] {
      SplitJoin(xs, d);
      assert |Join(xs, d)| >= |xs[0]| > 0;
    }
  }

  function Min(a: nat, b: nat): nat { if a <= b then a else b }

  /** Python's `zip`: pairs elements at equal positions, stopping at the shorter input. */
  function Zip<A, B>(a: seq<A>, b: seq<B>): (r: seq<(A, B)>)
    ensures |r| == Min(|a|, |b|)
    ensures forall i :: 0 <= i < |r| ==> r[i] == (a[i], b[i])
  {
    if a == [] || b == [] then [] else [(a[0], b[0])] + Zip(a[1..], b[1..])
  }

  /**
   * The `seat_pnr_pairs` template tag (booking_extras.py:15-17): the seats and PNRs of a booking,
   * paired by position; a null or empty field contributes no pieces.
   */
  function SeatPnrPairs(seatNumbers: string, pnrCodes: Option<string>): (r: seq<(string, string)>)
    ensures var seats, pnrs := SplitOrEmpty(Some(seatNumbers), ','), SplitOrEmpty(pnrCodes, ',');
      && |r| == Min(|seats|, |pnrs|)
      && forall i :: 0 <= i < |r| ==> r[i] == (seats[i], pnrs[i])
    ensures seatNumbers == "" || pnrCodes == None || pnrCodes == Some("") ==> r == []
  {
    var seats := SplitOrEmpty(Some(seatNumbers), ',');
    var pnrs := SplitOrEmpty(pnrCodes, ',');
    Zip(seats, pnrs)
  }
}
