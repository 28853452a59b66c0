/**
 * JavaScript's relational operators on strings (`a < b`, `a >= b`):
 * lexicographic order on characters, a proper prefix sorting first.
 * Used by the due-date rule of src/components/TaskForm.tsx, which compares
 * dates as strings; the lemmas here show that for `YYYY-MM-DD` dates this
 * string order is the calendar order.
 */
module JsString {

  datatype Ordering = Lt | Eq | Gt

  function Compare(a: string, b: string): (r: Ordering)
    ensures r == Eq <==> a == b
  {
    if a == [] && b == [] then Eq
    else if a == [] then Lt
    else if b == [] then Gt
    else if a[0] < b[0] then Lt
    else if a[0] > b[0] then Gt
    else Compare(a[1..], b[1..])
  }

  /** JavaScript `a >= b` on two strings. */
  predicate AtLeast(a: string, b: string): (r: bool)
    ensures a == b ==> r
    ensures b == [] ==> r
    ensures a == [] ==> (r <==> b == [])
  {
    Compare(a, b) != Lt
  }

  function CompareInt(x: int, y: int): Ordering
  {
    if x < y then Lt else if x > y then Gt else Eq
  }

  lemma {:induction false} CompareReflexive(a: string)
    ensures Compare(a, a) == Eq
  {
    if a != [] {
      CompareReflexive(a[1..]);
    }
  }

  /** The empty string is below every other string and equal only to itself. */
  lemma EmptyIsLeast(b: string)
    ensures Compare([], b) == (if b == [] then Eq else Lt)
  {
  }

  /** Comparing two concatenations whose first parts have equal length. */
  lemma {:induction false} CompareConcat(x: string, y: string, x': string, y': string)
    requires |x| == |x'|
    ensures Compare(x + y, x' + y') == if Compare(x, x') == Eq then Compare(y, y') else Compare(x, x')
  {
    if x == [] {
      assert x + y == y && x' + y' == y';
    } else {
      assert (x + y)[1..] == x[1..] + y;
      assert (x' + y')[1..] == x'[1..] + y';
      CompareConcat(x[1..], y, x'[1..], y');
    }
  }

  predicate AllDigits(s: string)
  {
    forall i :: 0 <= i < |s| ==> '0' <= s[i] <= '9'
  }

  function DigitValue(c: char): int { (c as int) - ('0' as int) }

  function Pow10(n: nat): (p: nat)
    ensures p >= 1
  {
    if n == 0 then 1 else 10 * Pow10(n - 1)
  }

  /** The number a string of decimal digits denotes, most significant first. */
  function Number(s: string): int
    requires AllDigits(s)
  {
    if s == [] then 0 else DigitValue(s[0]) * Pow10(|s| - 1) + Number(s[1..])
  }

  lemma {:induction false} NumberBounds(s: string)
    requires AllDigits(s)
    ensures 0 <= Number(s) < Pow10(|s|)
  {
    if s != [] {
      NumberBounds(s[1..]);
      var d, p, t := DigitValue(s[0]), Pow10(|s| - 1), Number(s[1..]);
      assert Number(s) == d * p + t;
      assert Pow10(|s|) == 10 * p;
      LeadingDigitBound(d, p, t);
    }
  }

  /** A leading digit d over a tail below p stays below 10 * p. */
  lemma {:induction false} LeadingDigitBound(d: int, p: int, t: int)
    requires 0 <= d <= 9 && 0 <= t < p
    ensures 0 <= d * p + t < 10 * p
    decreases d
  {
    if d > 0 {
      LeadingDigitBound(d - 1, p, t);
      assert d * p == (d - 1) * p + p;
    }
  }

  /** For digit strings of one length, string order is numeric order. */
  lemma {:induction false} DigitsOrder(a: string, b: string)
    requires AllDigits(a) && AllDigits(b) && |a| == |b|
    ensures Compare(a, b) == CompareInt(Number(a), Number(b))
  {
    if a != [] {
      var p := Pow10(|a| - 1);
      var da, db := DigitValue(a[0]), DigitValue(b[0]);
      var ta, tb := Number(a[1..]), Number(b[1..]);
      assert Number(a) == da * p + ta;
      assert Number(b) == db * p + tb;
      NumberBounds(a[1..]);
      NumberBounds(b[1..]);
      if da != db {
        PlaceValueOrder(da, ta, db, tb, p);
      } else {
        assert a[0] == b[0];
        DigitsOrder(a[1..], b[1..]);
      }
    }
  }

  /** Comparing `hi * base + lo` is comparing `hi`, then `lo`, when `lo` is a digit below `base`. */
  lemma PlaceValueOrder(hi: int, lo: int, hi': int, lo': int, base: int)
    requires base > 0 && 0 <= lo < base && 0 <= lo' < base
    ensures CompareInt(hi * base + lo, hi' * base + lo') ==
      if hi == hi' then CompareInt(lo, lo') else CompareInt(hi, hi')
  {
    if hi < hi' {
      assert (hi + 1) * base == hi * base + base;
      ScaleMonotone(hi + 1, hi', base);
    } else if hi > hi' {
      assert (hi' + 1) * base == hi' * base + base;
      ScaleMonotone(hi' + 1, hi, base);
    }
  }

  /** Scaling by a positive base keeps order. */
  lemma {:induction false} ScaleMonotone(x: int, y: int, base: int)
    requires x <= y && base > 0
    ensures x * base <= y * base
    decreases y - x
  {
    if x < y {
      ScaleMonotone(x + 1, y, base);
      assert (x + 1) * base == x * base + base;
    }
  }

  /** The shape `<input type="date">` produces and `toISOString()` starts with: `YYYY-MM-DD`. */
  predicate IsIsoDate(s: string)
  {
    |s| == 10 && s[4] == '-' && s[7] == '-' &&
    AllDigits(s[..4]) && AllDigits(s[5..7]) && AllDigits(s[8..])
  }

  function Year(s: string): int requires IsIsoDate(s) { Number(s[..4]) }
  function Month(s: string): int requires IsIsoDate(s) { Number(s[5..7]) }
  function Day(s: string): int requires IsIsoDate(s) { Number(s[8..]) }

  /** Calendar order of two dates: year, then month, then day. */
  function CalendarOrder(a: string, b: string): Ordering
    requires IsIsoDate(a) && IsIsoDate(b)
  {
    if Year(a) != Year(b) then CompareInt(Year(a), Year(b))
    else if Month(a) != Month(b) then CompareInt(Month(a), Month(b))
    else CompareInt(Day(a), Day(b))
  }

  /** A single number that orders dates as the calendar does. */
  function DayNumber(s: string): int
    requires IsIsoDate(s)
  {
    (Year(s) * 100 + Month(s)) * 100 + Day(s)
  }

  lemma DayNumberOrder(a: string, b: string)
    requires IsIsoDate(a) && IsIsoDate(b)
    ensures CompareInt(DayNumber(a), DayNumber(b)) == CalendarOrder(a, b)
  {
    NumberBounds(a[5..7]); NumberBounds(b[5..7]);
    NumberBounds(a[8..]); NumberBounds(b[8..]);
    NumberBounds(a[..4]); NumberBounds(b[..4]);
    PlaceValueOrder(Year(a) * 100 + Month(a), Day(a), Year(b) * 100 + Month(b), Day(b), 100);
    PlaceValueOrder(Year(a), Month(a), Year(b), Month(b), 100);
  }

  /** Split a date as year + "-" + month + "-" + day. */
  lemma IsoDateSplit(s: string)
    requires IsIsoDate(s)
    ensures s == s[..4] + ("-" + (s[5..7] + ("-" + s[8..])))
  {
  }

  /** For `YYYY-MM-DD` dates, JavaScript string comparison is the calendar order. */
  lemma IsoDateStringOrder(a: string, b: string)
    requires IsIsoDate(a) && IsIsoDate(b)
    ensures Compare(a, b) == CalendarOrder(a, b)
  {
    IsoDateSplit(a);
    IsoDateSplit(b);
    var ra, rb := "-" + (a[5..7] + ("-" + a[8..])), "-" + (b[5..7] + ("-" + b[8..]));
    CompareConcat(a[..4], ra, b[..4], rb);
    DigitsOrder(a[..4], b[..4]);
    assert Compare(ra, rb) == Compare(a[5..7] + ("-" + a[8..]), b[5..7] + ("-" + b[8..]));
    CompareConcat(a[5..7], "-" + a[8..], b[5..7], "-" + b[8..]);
    DigitsOrder(a[5..7], b[5..7]);
    assert Compare("-" + a[8..], "-" + b[8..]) == Compare(a[8..], b[8..]);
    DigitsOrder(a[8..], b[8..]);
  }
}
