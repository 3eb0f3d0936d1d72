/** Small value-level helpers shared by every module: an Option type and the
    few Python built-ins whose exact behaviour the modelled code relies on
    (`round`, `int`, `str.rstrip`, `int(str)`), plus the clamp used by the
    position limits and the cursor. */
module Common {

  datatype Option<+T> = None | Some(value: T)

  function Abs(x: real): (r: real) { if x < 0.0 then -x else x }

  /** The source's clamp: the low bound is compared first, then the high one. */
  function Clamp(v: real, lo: real, hi: real): (r: real)
    ensures lo <= hi ==> lo <= r <= hi
    ensures lo <= v <= hi ==> r == v
    ensures lo <= hi ==> (r == v <==> lo <= v <= hi)
  {
    if v < lo then lo else if v > hi then hi else v
  }

  /** On an ordered interval, the clamp is the point of the interval nearest to `v`. */
  lemma ClampIsNearest(v: real, lo: real, hi: real, x: real)
    requires lo <= x <= hi
    ensures Abs(Clamp(v, lo, hi) - v) <= Abs(x - v)
  {
  }

  lemma FloorIs(x: real, n: int)
    requires n as real <= x < n as real + 1.0
    ensures x.Floor == n
  {
  }

  /** Python's `round(x)` on a float: the nearest integer, ties going to the even one. */
  function Round(x: real): (r: int)
    ensures -0.5 <= x - r as real <= 0.5
    ensures (x - r as real == 0.5 || r as real - x == 0.5) ==> r % 2 == 0
  {
    var f := x.Floor;
    var d := x - f as real;
    if d < 0.5 then f
    else if d > 0.5 then f + 1
    else if f % 2 == 0 then f
    else f + 1
  }

  /** Rounding a whole number gives the number back, so rounding twice is rounding once. */
  lemma {:induction false} RoundOfInteger(k: int)
    ensures Round(k as real) == k
  {
    FloorIs(k as real, k);
  }

  /** Python's `int(x)` on a float: truncation toward zero. */
  function Trunc(x: real): (r: int)
    ensures 0.0 <= x ==> r as real <= x < r as real + 1.0
    ensures x < 0.0 ==> r as real - 1.0 < x <= r as real
  {
    if x >= 0.0 then x.Floor else -((-x).Floor)
  }

  /** The characters for which Python's `str.isspace()` holds (the ones
      `strip`, `rstrip` and `int` skip). */
  predicate IsSpace(c: char)
  {
    var n := c as int;
    (9 <= n <= 13) || (28 <= n <= 32) || n == 0x85 || n == 0xA0 || n == 0x1680
    || (0x2000 <= n <= 0x200A) || n == 0x2028 || n == 0x2029 || n == 0x202F
    || n == 0x205F || n == 0x3000
  }

  /** Python's `s.rstrip()`: the longest prefix of `s` that does not end in whitespace. */
  function RStrip(s: string): (r: string)
    ensures |r| <= |s| && r == s[..|r|]
    ensures r == [] || !IsSpace(r[|r| - 1])
    ensures forall i :: |r| <= i < |s| ==> IsSpace(s[i])
  {
    if |s| > 0 && IsSpace(s[|s| - 1]) then RStrip(s[..|s| - 1]) else s
  }

  /** Python's `s.lstrip()`. */
  function LStrip(s: string): (r: string)
    ensures |r| <= |s| && r == s[|s| - |r|..]
    ensures r == [] || !IsSpace(r[0])
    ensures forall i :: 0 <= i < |s| - |r| ==> IsSpace(s[i])
  {
    if |s| > 0 && IsSpace(s[0]) then LStrip(s[1..]) else s
  }

  /** A string that does not end in whitespace is its own `rstrip`. */
  lemma RStripOfStripped(s: string)
    requires s == [] || !IsSpace(s[|s| - 1])
    ensures RStrip(s) == s
  {
  }

  /** `int` strips its argument itself, so stripping it first changes nothing. */
  lemma ParseIntOfRStrip(s: string)
    ensures ParseInt(RStrip(s)) == ParseInt(s)
  {
    RStripOfStripped(RStrip(s));
  }

  predicate IsDigit(c: char) { '0' <= c <= '9' }

  function DigitValue(c: char): (n: nat)
    requires IsDigit(c)
  {
    c as int - '0' as int
  }

  function DigitChar(d: nat): (c: char)
    requires d < 10
    ensures IsDigit(c) && DigitValue(c) == d
  {
    ('0' as int + d) as char
  }

  /** The digit groups Python's `int()` accepts after the sign: digits, with
      single underscores allowed between two digits. */
  predicate IsDigitRun(d: string)
  {
    |d| > 0 && IsDigit(d[0]) && IsDigit(d[|d| - 1])
    && (forall i :: 0 <= i < |d| ==> IsDigit(d[i]) || d[i] == '_')
    && (forall i :: 0 <= i < |d| - 1 ==> d[i] == '_' ==> d[i + 1] != '_')
  }

  /** The number a digit run denotes; underscores are skipped. */
  function RunValue(d: string): (n: nat)
    requires forall i :: 0 <= i < |d| ==> IsDigit(d[i]) || d[i] == '_'
  {
    if d == [] then 0
    else if d[|d| - 1] == '_' then RunValue(d[..|d| - 1])
    else RunValue(d[..|d| - 1]) * 10 + DigitValue(d[|d| - 1])
  }

  /** Python's `int(s)` for a string: surrounding whitespace is ignored, an
      optional sign, then a digit run; anything else raises, which is `None` here. */
  function ParseInt(s: string): (r: Option<int>)
    ensures var t := LStrip(RStrip(s));
            r.Some? ==> |t| > 0 && (IsDigit(t[0]) || t[0] == '+' || t[0] == '-')
                        && (forall i :: 0 < i < |t| ==> IsDigit(t[i]) || t[i] == '_')
                        && (r.value < 0 ==> t[0] == '-') && (t[0] == '-' ==> r.value <= 0)
  {
    ParseSigned(LStrip(RStrip(s)))
  }

  /** `int()` on a string already stripped of surrounding whitespace. */
  function ParseSigned(t: string): (r: Option<int>)
    ensures r.Some? ==> |t| > 0 && (IsDigit(t[0]) || t[0] == '+' || t[0] == '-')
    ensures r.Some? ==> forall i :: 0 < i < |t| ==> IsDigit(t[i]) || t[i] == '_'
    ensures r.Some? ==> (r.value < 0 ==> t[0] == '-') && (t[0] == '-' ==> r.value <= 0)
  {
    var negative := |t| > 0 && t[0] == '-';
    var digits := if |t| > 0 && (t[0] == '-' || t[0] == '+') then t[1..] else t;
    if IsDigitRun(digits) then
      Some(if negative then -(RunValue(digits) as int) else RunValue(digits) as int)
    else None
  }

  /** Decimal notation of a natural number, as Python's `str` writes it. */
  function ShowNat(n: nat): (s: string)
    ensures |s| > 0 && forall i :: 0 <= i < |s| ==> IsDigit(s[i])
  {
    if n < 10 then [DigitChar(n)] else ShowNat(n / 10) + [DigitChar(n % 10)]
  }

  function ShowInt(i: int): (s: string)
  {
    if i < 0 then "-" + ShowNat(-i) else ShowNat(i)
  }

  lemma {:induction false} RunValueOfShowNat(n: nat)
    ensures RunValue(ShowNat(n)) == n
  {
    if n >= 10 {
      var s := ShowNat(n);
      assert s[..|s| - 1] == ShowNat(n / 10);
      RunValueOfShowNat(n / 10);
    }
  }

  /** A reply written in decimal, with or without a line ending, parses back to its number. */
  lemma ParseShowInt(i: int, ending: string)
    requires forall k :: 0 <= k < |ending| ==> IsSpace(ending[k])
    ensures ParseInt(ShowInt(i) + ending) == Some(i)
  {
    var s := ShowInt(i);
    var n: nat := if i < 0 then -i else i;
    var digits := ShowNat(n);
    assert s[|s| - 1] == digits[|digits| - 1];
    RStripDropsSpaces(s, ending);
    assert !IsSpace(s[0]);
    assert LStrip(s) == s;
    ParseSignedShowInt(i);
  }

  lemma ParseSignedShowInt(i: int)
    ensures ParseSigned(ShowInt(i)) == Some(i)
  {
    var n: nat := if i < 0 then -i else i;
    var digits := ShowNat(n);
    RunValueOfShowNat(n);
    assert IsDigitRun(digits);
    if i < 0 {
      assert ShowInt(i)[1..] == digits;
    }
  }

  lemma {:induction false} RStripDropsSpaces(s: string, ending: string)
    requires s == [] || !IsSpace(s[|s| - 1])
    requires forall k :: 0 <= k < |ending| ==> IsSpace(ending[k])
    ensures RStrip(s + ending) == s
  {
    if ending == [] {
      assert s + ending == s;
    } else {
      var e := ending[..|ending| - 1];
      assert (s + ending)[..|s + ending| - 1] == s + e;
      RStripDropsSpaces(s, e);
    }
  }

  /** An empty or blank line (what a read with nothing waiting returns) is not a number. */
  lemma BlankIsNotANumber(s: string)
    requires forall k :: 0 <= k < |s| ==> IsSpace(s[k])
    ensures ParseInt(s) == None
  {
    assert RStrip(s) == [];
  }
}
