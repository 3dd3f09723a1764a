/** The few Python built-ins the simulator leans on: round() on a real, int() on a
    roster field and str() of an integer (the partner that int() inverts). */
module Builtins {

  datatype Option<T> = None | Some(value: T)

  // ---------------------------------------------------------------------------
  // round()

  /** Python's round(x): the nearest integer, a tie going to the even neighbour. */
  function Round(x: real): int {
    var f := x.Floor;
    var frac := x - f as real;
    if frac < 0.5 then f
    else if frac > 0.5 then f + 1
    else if f % 2 == 0 then f else f + 1
  }

  /** round() lands within a half of its argument, and a tie lands on an even number. */
  lemma RoundIsNearest(x: real)
    ensures -0.5 <= Round(x) as real - x <= 0.5
    ensures (Round(x) as real - x == 0.5 || x - Round(x) as real == 0.5) ==> Round(x) % 2 == 0
  {
  }

  /** round() leaves whole numbers alone. */
  lemma RoundOfWhole(n: int)
    ensures Round(n as real) == n
  {
  }

  /** round() never reverses the order of its arguments: lowering a stat never raises a
      rounded total. */
  lemma RoundMonotonic(x: real, y: real)
    requires x <= y
    ensures Round(x) <= Round(y)
  {
    var fx, fy := x.Floor, y.Floor;
    assert fx <= fy;
    if fx < fy {
      assert Round(x) <= fx + 1 <= fy <= Round(y);
    } else {
      assert x - fx as real <= y - fy as real;
    }
  }

  // ---------------------------------------------------------------------------
  // int() and str()

  /** The characters str.strip() removes that int() tolerates around a number (ASCII only). */
  predicate IsSpace(c: char) {
    c == ' ' || 9 <= c as int <= 13 || 28 <= c as int <= 31
  }

  predicate IsDigit(c: char) {
    '0' <= c <= '9'
  }

  predicate AllDigits(s: string) {
    forall i :: 0 <= i < |s| ==> IsDigit(s[i])
  }

  function TrimLeft(s: string): (r: string)
    ensures |r| <= |s| && r == s[|s| - |r|..]
    ensures r != [] ==> !IsSpace(r[0])
  {
    if s != [] && IsSpace(s[0]) then TrimLeft(s[1..]) else s
  }

  function TrimRight(s: string): (r: string)
    ensures |r| <= |s| && r == s[..|r|]
    ensures r != [] ==> !IsSpace(r[|r| - 1])
  {
    if s != [] && IsSpace(s[|s| - 1]) then TrimRight(s[..|s| - 1]) else s
  }

  function Trim(s: string): string {
    TrimRight(TrimLeft(s))
  }

  /** The value of a run of decimal digits, most significant first. */
  function DigitsValue(s: string): (n: nat)
    requires AllDigits(s)
  {
    if s == [] then 0 else DigitsValue(s[..|s| - 1]) * 10 + (s[|s| - 1] as int - '0' as int)
  }

  /** int(s) for base ten: surrounding whitespace, an optional sign and at least one digit;
      anything else is the ValueError the source would raise, here None. */
  function ParseInt(s: string): Option<int> {
    ParseTrimmed(Trim(s))
  }

  /** int() on a field whose surrounding whitespace is already stripped. */
  function ParseTrimmed(t: string): Option<int> {
    if |t| > 1 && (t[0] == '-' || t[0] == '+') && AllDigits(t[1..]) then
      Some(if t[0] == '-' then 0 - DigitsValue(t[1..]) as int else DigitsValue(t[1..]))
    else if |t| > 0 && AllDigits(t) then
      Some(DigitsValue(t))
    else
      None
  }

  function ShowDigit(d: nat): char
    requires d < 10
  {
    ('0' as int + d) as char
  }

  /** str(n) for n >= 0: its decimal digits without leading zeros. */
  function ShowNat(n: nat): (s: string)
    ensures |s| > 0 && AllDigits(s)
  {
    if n < 10 then [ShowDigit(n)] else ShowNat(n / 10) + [ShowDigit(n % 10)]
  }

  /** str(n): a minus sign for negative numbers, then the digits. */
  function ShowInt(n: int): string {
    if n < 0 then "-" + ShowNat(-n) else ShowNat(n)
  }

  lemma {:induction false} DigitsOfShowNat(n: nat)
    ensures DigitsValue(ShowNat(n)) == n
  {
    if n >= 10 {
      var s := ShowNat(n);
      assert s[..|s| - 1] == ShowNat(n / 10);
      DigitsOfShowNat(n / 10);
    }
  }

  lemma NoSpaceTrims(s: string)
    requires s != [] && !IsSpace(s[0]) && !IsSpace(s[|s| - 1])
    ensures Trim(s) == s
  {
  }

  /** int() reads back what str() writes: a roster field written from n parses to n. */
  lemma ParseShowRoundTrip(n: int)
    ensures ParseInt(ShowInt(n)) == Some(n)
  {
    var s := ShowInt(n);
    var digits := if n < 0 then ShowNat(-n) else ShowNat(n);
    assert !IsSpace(s[|s| - 1]) by {
      assert s[|s| - 1] == digits[|digits| - 1];
      assert IsDigit(digits[|digits| - 1]);
    }
    assert !IsSpace(s[0]) by {
      if n >= 0 { assert IsDigit(digits[0]); }
    }
    NoSpaceTrims(s);
    DigitsOfShowNat(if n < 0 then -n else n);
    if n < 0 {
      assert s[1..] == digits;
    }
  }

  /** Stripping from the left sees a character added at the end only once something that
      is not whitespace has been kept. */
  lemma {:induction false} TrimLeftSnoc(s: string, c: char)
    ensures TrimLeft(s + [c]) == if TrimLeft(s) == [] then TrimLeft([c]) else TrimLeft(s) + [c]
  {
    if s != [] {
      assert (s + [c])[0] == s[0];
      assert (s + [c])[1..] == s[1..] + [c];
      if IsSpace(s[0]) {
        TrimLeftSnoc(s[1..], c);
      }
    }
  }

  lemma TrimDropsLeading(c: char, s: string)
    requires IsSpace(c)
    ensures Trim([c] + s) == Trim(s)
  {
    assert ([c] + s)[1..] == s;
  }

  lemma TrimDropsTrailing(c: char, s: string)
    requires IsSpace(c)
    ensures Trim(s + [c]) == Trim(s)
  {
    TrimLeftSnoc(s, c);
    var t := TrimLeft(s);
    if t != [] {
      assert (t + [c])[..|t + [c]| - 1] == t;
    }
  }

  /** Whitespace around a field does not change what int() reads, whether it comes before
      the field or after it. */
  lemma ParseIgnoresSurroundingSpace(c: char, s: string)
    requires IsSpace(c)
    ensures ParseInt([c] + s) == ParseInt(s)
    ensures ParseInt(s + [c]) == ParseInt(s)
  {
    TrimDropsLeading(c, s);
    TrimDropsTrailing(c, s);
  }
}
