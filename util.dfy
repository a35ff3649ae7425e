/**
 * Model of util/util.js: wind-speed conversion, nearest-date selection, the
 * forecast time window and the split of a flight designator.
 *
 * Instants are integer milliseconds since the epoch. The clock is never read:
 * every function that needs "now" takes it as a parameter.
 */
module Util {
  import opened Optional

  // ---------------------------------------------------------------------
  // Truncation and wind speed
  // ---------------------------------------------------------------------

  /** `n` is `x` with its fractional part dropped (rounding toward zero). */
  predicate TruncatesTo(x: real, n: int) {
    if 0.0 <= x then n as real <= x < n as real + 1.0
    else n as real - 1.0 < x <= n as real
  }

  /** Math.trunc. */
  function Trunc(x: real): (n: int)
    ensures TruncatesTo(x, n)
  {
    if 0.0 <= x then x.Floor else -((-x).Floor)
  }

  /** mpsToKmph: metres per second to kilometres per hour, without decimals. */
  function MpsToKmph(mps: real): (kmh: int)
    ensures TruncatesTo(mps * 3.6, kmh)
    ensures 0.0 <= mps ==> 0 <= kmh
  {
    Trunc(mps * 3.6)
  }

  /** Truncation is a function of its input: only one integer truncates `x`. */
  lemma TruncatesToUnique(x: real, n: int, m: int)
    requires TruncatesTo(x, n) && TruncatesTo(x, m)
    ensures n == m
  {
  }

  lemma MpsToKmphExamples()
    ensures MpsToKmph(0.0) == 0
    ensures MpsToKmph(10.0) == 36
    ensures Trunc(-3.7) == -3
  {
    TruncatesToUnique(36.0, MpsToKmph(10.0), 36);
    TruncatesToUnique(-3.7, Trunc(-3.7), -3);
  }

  /** For non-negative speeds, a faster wind never reads slower in km/h. */
  lemma MpsToKmphMonotone(a: real, b: real)
    requires 0.0 <= a <= b
    ensures MpsToKmph(a) <= MpsToKmph(b)
  {
    assert a * 3.6 <= b * 3.6;
  }

  // ---------------------------------------------------------------------
  // First match and minimum (the Array built-ins the source relies on)
  // ---------------------------------------------------------------------

  /**
   * The first index whose element satisfies `p`, or -1: the first-match
   * search that indexOf, find and filter(...)[0] all perform.
   */
  function FindIndex<T>(s: seq<T>, p: T -> bool): (i: int)
    ensures -1 <= i < |s|
    ensures 0 <= i ==> p(s[i]) && forall j :: 0 <= j < i ==> !p(s[j])
    ensures i == -1 ==> forall j :: 0 <= j < |s| ==> !p(s[j])
  {
    if |s| == 0 then -1
    else if p(s[0]) then 0
    else
      var k := FindIndex(s[1..], p);
      if k == -1 then -1 else k + 1
  }

  /** Array.prototype.find (and filter(...)[0]): the first element satisfying `p`. */
  function Find<T>(s: seq<T>, p: T -> bool): (r: Option<T>)
    ensures r.None? <==> forall j :: 0 <= j < |s| ==> !p(s[j])
    ensures r.Some? ==> r.value == s[FindIndex(s, p)]
  {
    var i := FindIndex(s, p);
    if i < 0 then None else Some(s[i])
  }

  /** Math.min.apply(null, s); `None` stands for the Infinity it yields on no arguments. */
  function Min(s: seq<int>): (m: Option<int>)
    ensures m.None? <==> |s| == 0
    ensures m.Some? ==> m.value in s && forall i :: 0 <= i < |s| ==> m.value <= s[i]
  {
    if |s| == 0 then None
    else
      match Min(s[1..])
      case None => Some(s[0])
      case Some(rest) => Some(if s[0] <= rest then s[0] else rest)
  }

  // ---------------------------------------------------------------------
  // Nearest date
  // ---------------------------------------------------------------------

  /** Math.abs on a difference of instants. */
  function Abs(x: int): nat {
    if x < 0 then -x else x
  }

  /**
   * How far candidate `d` lies from `date`: |new Date(d) - new Date(date)|,
   * where `millis` is what `new Date` makes of a candidate.
   */
  function Distance<D>(date: int, d: D, millis: D -> int): nat {
    Abs(millis(d) - date)
  }

  /** dateArray.map(n => Math.abs(new Date(n) - new Date(date))) */
  function Distances<D>(date: int, dateArray: seq<D>, millis: D -> int): (diffs: seq<int>)
    ensures |diffs| == |dateArray|
    ensures forall i :: 0 <= i < |dateArray| ==> diffs[i] == Distance(date, dateArray[i], millis)
  {
    seq(|dateArray|, i requires 0 <= i < |dateArray| => Distance(date, dateArray[i], millis))
  }

  /**
   * Index `k` holds a candidate nearest to `date`, and every candidate before
   * it is strictly farther: the first of the nearest candidates.
   */
  predicate IsFirstNearest<D>(date: int, dateArray: seq<D>, millis: D -> int, k: int) {
    && 0 <= k < |dateArray|
    && (forall j :: 0 <= j < |dateArray| ==>
          Distance(date, dateArray[k], millis) <= Distance(date, dateArray[j], millis))
    && (forall j :: 0 <= j < k ==>
          Distance(date, dateArray[k], millis) < Distance(date, dateArray[j], millis))
  }

  /** The tie-break makes the chosen index unique. */
  lemma FirstNearestUnique<D>(date: int, dateArray: seq<D>, millis: D -> int, k1: int, k2: int)
    requires IsFirstNearest(date, dateArray, millis, k1)
    requires IsFirstNearest(date, dateArray, millis, k2)
    ensures k1 == k2
  {
    // Both are nearest, so they lie equally far; the strict tie-break then
    // rules out either one preceding the other.
    var d1, d2 := Distance(date, dateArray[k1], millis), Distance(date, dateArray[k2], millis);
    assert d1 == d2;
    if k1 < k2 {
      assert false;
    } else if k2 < k1 {
      assert false;
    }
  }

  /**
   * The index findNearestDateFromList reads: indexOf of Math.min of the
   * distances, -1 when there are no candidates.
   */
  function NearestIndex<D>(date: int, dateArray: seq<D>, millis: D -> int): (k: int)
    ensures k == -1 <==> |dateArray| == 0
    ensures 0 <= k ==> IsFirstNearest(date, dateArray, millis, k)
  {
    var diffs := Distances(date, dateArray, millis);
    match Min(diffs)
    case None => -1
    case Some(m) =>
      var k := FindIndex(diffs, d => d == m);
      assert diffs[k] == m;
      k
  }

  /**
   * findNearestDateFromList: the candidate nearest to `date`, the earliest one
   * on a tie; `None` (JavaScript's undefined) when there are no candidates.
   */
  function FindNearestDateFromList<D>(date: int, dateArray: seq<D>, millis: D -> int): (r: Option<D>)
    ensures r.None? <==> |dateArray| == 0
    ensures r.Some? ==> r.value in dateArray
    ensures r.Some? ==> forall j :: 0 <= j < |dateArray| ==>
      Distance(date, r.value, millis) <= Distance(date, dateArray[j], millis)
    ensures r.Some? ==> r.value == dateArray[NearestIndex(date, dateArray, millis)]
  {
    var idx := NearestIndex(date, dateArray, millis);
    if idx < 0 then None else Some(dateArray[idx])
  }

  /** What `new Date(n)` makes of a number: the instant n milliseconds after the epoch. */
  function NumberMillis(n: int): int {
    n
  }

  lemma NearestDateExamples()
    ensures FindNearestDateFromList(10, [0, 20, 30], NumberMillis) == Some(0)
    ensures FindNearestDateFromList(24, [0, 20, 30], NumberMillis) == Some(20)
    ensures FindNearestDateFromList(5, [], NumberMillis) == None
  {
    var a := [0, 20, 30];
    var k := NearestIndex(10, a, NumberMillis);
    assert Distance(10, a[0], NumberMillis) == Distance(10, a[1], NumberMillis);
    assert k != 1 && k != 2;
    var k' := NearestIndex(24, a, NumberMillis);
    assert Distance(24, a[1], NumberMillis) < Distance(24, a[2], NumberMillis);
    assert Distance(24, a[1], NumberMillis) < Distance(24, a[0], NumberMillis);
  }

  // ---------------------------------------------------------------------
  // The forecast time window
  // ---------------------------------------------------------------------

  /** The backward grace: a request up to 2 minutes old is still in the future. */
  const GraceMillis: int := 120000

  /** The forecast horizon: 5 days ahead. */
  const HorizonMillis: int := 5 * 24 * 60 * 60 * 1000

  const MinuteMillis: int := 60 * 1000
  const DayMillis: int := 24 * 60 * 60 * 1000

  /** isDateInFuture: in the future, or at most 2 minutes in the past. */
  predicate IsDateInFuture(date: int, now: int)
    ensures IsDateInFuture(date, now) <==> now - date <= 2 * MinuteMillis
    ensures now <= date ==> IsDateInFuture(date, now)
  {
    now - GraceMillis <= date
  }

  /** isDateInRange: no later than 5 days from now; past dates are not checked. */
  predicate IsDateInRange(date: int, now: int)
    ensures IsDateInRange(date, now) <==> date - now <= 5 * DayMillis
  {
    date <= now + HorizonMillis
  }

  lemma TimeWindowExamples(now: int)
    ensures IsDateInFuture(now - MinuteMillis, now)
    ensures !IsDateInFuture(now - 3 * MinuteMillis, now)
    ensures IsDateInRange(now + 4 * DayMillis, now)
    ensures !IsDateInRange(now + 6 * DayMillis, now)
  {
  }

  /** Every date up to now is "in range": the range check only bounds the future. */
  lemma PastDatesAreInRange(date: int, now: int)
    requires date <= now
    ensures IsDateInRange(date, now)
  {
  }

  // ---------------------------------------------------------------------
  // Flight designators
  // ---------------------------------------------------------------------

  /** A carrier and a flight number, e.g. "LH" and "123". */
  datatype Designator = Designator(carrier: string, flightNumber: string)

  /** \d and [0-9]. */
  predicate IsDigit(c: char) {
    '0' <= c <= '9'
  }

  /**
   * The class [A-za-z] of the carrier pattern. The range A-z runs from 'A'
   * to 'z', so besides the letters it admits [ \ ] ^ _ and the backquote.
   */
  predicate IsCarrierLetter(c: char) {
    'A' <= c <= 'z'
  }

  /** The end of the run of digits that starts at `i`. */
  function DigitRunEnd(s: string, i: nat): (j: nat)
    requires i <= |s|
    ensures i <= j <= |s|
    ensures forall k :: i <= k < j ==> IsDigit(s[k])
    ensures j < |s| ==> !IsDigit(s[j])
    decreases |s| - i
  {
    if i < |s| && IsDigit(s[i]) then DigitRunEnd(s, i + 1) else i
  }

  /** The end of the run of carrier letters that starts at `i`. */
  function LetterRunEnd(s: string, i: nat): (j: nat)
    requires i <= |s|
    ensures i <= j <= |s|
    ensures forall k :: i <= k < j ==> IsCarrierLetter(s[k])
    ensures j < |s| ==> !IsCarrierLetter(s[j])
    decreases |s| - i
  {
    if i < |s| && IsCarrierLetter(s[i]) then LetterRunEnd(s, i + 1) else i
  }

  /**
   * The leftmost match of /[0-9]*[A-za-z]+/ that starts at `i` or later. Digits
   * and carrier letters are disjoint, so a match starts at `i` exactly when the
   * greedy run of digits from `i` is followed by a carrier letter.
   */
  function CarrierMatchFrom(s: string, i: nat): (r: Option<string>)
    requires i <= |s|
    ensures r.Some? ==> 0 < |r.value| && IsCarrierLetter(r.value[|r.value| - 1])
    decreases |s| - i
  {
    if i == |s| then None
    else
      var j := DigitRunEnd(s, i);
      if j < |s| && IsCarrierLetter(s[j]) then Some(s[i..LetterRunEnd(s, j)])
      else CarrierMatchFrom(s, i + 1)
  }

  /** Where the maximal trailing run of digits starts. */
  function TrailingDigitsStart(s: string): (i: nat)
    ensures i <= |s|
    ensures forall k :: i <= k < |s| ==> IsDigit(s[k])
    ensures 0 < i ==> !IsDigit(s[i - 1])
  {
    if 0 < |s| && IsDigit(s[|s| - 1]) then TrailingDigitsStart(s[..|s| - 1]) else |s|
  }

  /** The match of /\d+$/: the maximal non-empty run of digits that ends the string. */
  function TrailingDigits(s: string): (r: Option<string>)
  {
    var i := TrailingDigitsStart(s);
    if i < |s| then Some(s[i..]) else None
  }

  /**
   * splitFlightId: the carrier is the first match of /[0-9]*[A-za-z]+/, the
   * number the match of /\d+$/. When either pattern does not match, the source
   * throws (it calls join on null); the model answers None.
   */
  function SplitFlightId(flightId: string): (r: Option<Designator>)
    ensures (|flightId| == 0 || !IsDigit(flightId[|flightId| - 1])) ==> r.None?
    ensures r.Some? ==>
      var n := r.value.flightNumber;
      && 0 < |n| <= |flightId|
      && n == flightId[|flightId| - |n|..]
      && (forall k :: 0 <= k < |n| ==> IsDigit(n[k]))
      && (|n| < |flightId| ==> !IsDigit(flightId[|flightId| - |n| - 1]))
    ensures r.Some? ==> 0 < |r.value.carrier|
  {
    match (CarrierMatchFrom(flightId, 0), TrailingDigits(flightId))
    case (Some(carrier), Some(number)) => Some(Designator(carrier, number))
    case _ => None
  }

  /** A well-formed carrier code: optional leading digits, then carrier letters. */
  predicate IsCarrierCode(c: string) {
    var k := DigitRunEnd(c, 0);
    k < |c| && forall i :: k <= i < |c| ==> IsCarrierLetter(c[i])
  }

  /** A well-formed flight number: one or more digits. */
  predicate IsFlightNumber(n: string) {
    0 < |n| && forall i :: 0 <= i < |n| ==> IsDigit(n[i])
  }

  lemma {:induction false} DigitRunEndAppend(c: string, n: string, i: nat)
    requires i <= |c|
    requires DigitRunEnd(c, i) < |c|
    ensures DigitRunEnd(c + n, i) == DigitRunEnd(c, i)
    decreases |c| - i
  {
    if i < |c| && IsDigit(c[i]) {
      DigitRunEndAppend(c, n, i + 1);
    }
  }

  lemma {:induction false} LetterRunEndAppend(c: string, n: string, i: nat)
    requires i <= |c|
    requires forall k :: i <= k < |c| ==> IsCarrierLetter(c[k])
    requires 0 < |n| && IsDigit(n[0])
    ensures LetterRunEnd(c + n, i) == |c|
    decreases |c| - i
  {
    if i < |c| {
      LetterRunEndAppend(c, n, i + 1);
    } else {
      assert (c + n)[i] == n[0];
    }
  }

  /**
   * Joining a well-formed carrier and number and splitting the result gives
   * both back: splitFlightId inverts concatenation.
   */
  lemma {:induction false} SplitFlightIdRoundTrip(c: string, n: string)
    requires IsCarrierCode(c) && IsFlightNumber(n)
    ensures SplitFlightId(c + n) == Some(Designator(c, n))
  {
    var s := c + n;
    var k := DigitRunEnd(c, 0);
    DigitRunEndAppend(c, n, 0);
    assert s[k] == c[k];
    LetterRunEndAppend(c, n, k);
    assert s[0..|c|] == c;
    assert CarrierMatchFrom(s, 0) == Some(c);
    var t := TrailingDigitsStart(s);
    assert s[t..] == n;
  }

  lemma SplitFlightIdExamples()
    ensures SplitFlightId("LH123") == Some(Designator("LH", "123"))
    ensures SplitFlightId("LH") == None
  {
    assert DigitRunEnd("LH", 0) == 0;
    SplitFlightIdRoundTrip("LH", "123");
    assert "LH" + "123" == "LH123";
  }

  /** A carrier code may begin with a digit: "4U9525" is carrier "4U", number "9525". */
  lemma SplitFlightIdLeadingDigitExample()
    ensures SplitFlightId("4U9525") == Some(Designator("4U", "9525"))
  {
    assert DigitRunEnd("4U", 1) == 1;
    assert DigitRunEnd("4U", 0) == 1;
    SplitFlightIdRoundTrip("4U", "9525");
    assert "4U" + "9525" == "4U9525";
  }

  // ---------------------------------------------------------------------
  // Time zones (moment-timezone)
  // ---------------------------------------------------------------------

  /**
   * The moment-timezone operations the core uses, which are not part of this
   * model and are given as functions.
   */
  datatype TimeZones = TimeZones(
    /** moment_tz.tz(localTime, zone).toDate(): a wall-clock time in a zone, as an instant. */
    toInstant: (string, string) -> int,
    /** getFormattedLocalTime: an instant shown as 'YYYY-MM-DD HH:mm z' in a zone. */
    formatLocal: (int, string) -> string)

}
