/** Python's fixed-point number formatting (`f"{x:.2f}"`, `f"{x:.1f}"`) and
    `str.join`, for numbers given as exact integers of the last shown unit
    (cents for `.2f`, tenths for `.1f`). */
module Formatting {
  import opened Basics

  function Pow10(n: nat): (r: nat)
    ensures r >= 1
  {
    if n == 0 then 1 else 10 * Pow10(n - 1)
  }

  predicate IsDigit(c: char) {
    '0' <= c <= '9'
  }

  predicate AllDigits(s: string) {
    forall i :: 0 <= i < |s| ==> IsDigit(s[i])
  }

  function DigitChar(d: nat): (c: char)
    requires d < 10
    ensures IsDigit(c)
  {
    ('0' as int + d) as char
  }

  function DigitValue(c: char): (d: nat)
    requires IsDigit(c)
    ensures d < 10 && DigitChar(d) == c
  {
    c as int - '0' as int
  }

  /** Decimal digits of a natural number, no leading zeros: the text opens
      with '0' only for zero itself, which is the single digit "0". */
  function NatDigits(n: nat): (s: string)
    ensures |s| >= 1 && AllDigits(s)
    ensures s[0] == '0' <==> n == 0
    ensures n == 0 ==> s == "0"
    decreases n
  {
    if n < 10 then [DigitChar(n)] else NatDigits(n / 10) + [DigitChar(n % 10)]
  }

  /** The lowest `width` decimal digits of `n`, zero-padded on the left. */
  function PaddedDigits(n: nat, width: nat): (s: string)
    ensures |s| == width && AllDigits(s)
  {
    if width == 0 then [] else PaddedDigits(n / 10, width - 1) + [DigitChar(n % 10)]
  }

  /** The number a string of decimal digits denotes. */
  function DigitsValue(s: string): nat
    requires AllDigits(s)
  {
    if s == [] then 0 else 10 * DigitsValue(s[..|s| - 1]) + DigitValue(s[|s| - 1])
  }

  /** `n / 10^places`, one decimal digit at a time. */
  function WholePart(n: nat, places: nat): nat {
    if places == 0 then n else WholePart(n / 10, places - 1)
  }

  function Abs(v: int): nat {
    if v < 0 then -v else v
  }

  /** Whole digits without leading zeros: at least one digit, and a leading
      '0' only in the single digit "0". */
  predicate CanonicalWhole(w: string) {
    |w| >= 1 && AllDigits(w) && (w[0] == '0' ==> w == "0")
  }

  /** The digits of `n / 10^places`, a point and the `places` lowest digits of `n`. */
  function UnsignedFixed(n: nat, places: nat): (s: string)
    ensures |s| >= places + 2 && IsDigit(s[0])
    ensures s[|s| - places - 1] == '.'
    ensures AllDigits(s[|s| - places..])
  {
    var w := NatDigits(WholePart(n, places));
    var f := PaddedDigits(n, places);
    assert (w + "." + f)[|w|] == '.';
    assert (w + "." + f)[|w| + 1..] == f;
    w + "." + f
  }

  /** The shape of Python's fixed-point text: an optional minus sign, whole
      digits without leading zeros, a point and exactly `places` digits. */
  predicate CanonicalFixed(s: string, places: nat) {
    var sign := if |s| > 0 && s[0] == '-' then 1 else 0;
    |s| >= sign + places + 2 && CanonicalWhole(s[sign..|s| - places - 1]) &&
    s[|s| - places - 1] == '.' && AllDigits(s[|s| - places..])
  }

  /** `f"{v / 10^places:.{places}f}"` for an exact value `v` in units of
      10^-places: an optional minus sign, the whole part, a point and exactly
      `places` fraction digits (FormatFixedCanonical adds that the whole part
      has no leading zeros). */
  function FormatFixed(v: int, places: nat): (s: string)
    ensures |s| >= places + 2
    ensures s[|s| - places - 1] == '.'
    ensures AllDigits(s[|s| - places..])
    ensures (s[0] == '-') <==> v < 0
  {
    var u := UnsignedFixed(Abs(v), places);
    if v < 0 then
      assert ("-" + u)[|u| + 1 - places..] == u[|u| - places..];
      "-" + u
    else u
  }

  /** The formatted text has Python's canonical shape: the whole part has no
      leading zeros, and it is "0" for values below one unit. */
  lemma FormatFixedCanonical(v: int, places: nat)
    ensures CanonicalFixed(FormatFixed(v, places), places)
    ensures Abs(v) < Pow10(places) ==> WholeText(FormatFixed(v, places), places) == "0"
  {
    var u := UnsignedFixed(Abs(v), places);
    UnsignedCanonical(Abs(v), places);
    if v < 0 {
      var s := FormatFixed(v, places);
      assert s == "-" + u;
      assert s[1..|s| - places - 1] == u[..|u| - places - 1];
    }
  }

  /** The whole digits of canonical text, after any minus sign. */
  function WholeText(s: string, places: nat): string
    requires |s| >= places + 2
  {
    var sign := if s[0] == '-' then 1 else 0;
    s[sign..|s| - places - 1]
  }

  lemma UnsignedCanonical(n: nat, places: nat)
    ensures var u := UnsignedFixed(n, places);
            CanonicalWhole(u[..|u| - places - 1]) &&
            (n < Pow10(places) ==> u[..|u| - places - 1] == "0")
  {
    var whole := WholePart(n, places);
    var w := NatDigits(whole);
    var u := w + "." + PaddedDigits(n, places);
    assert UnsignedFixed(n, places) == u;
    assert u[..|u| - places - 1] == w;
    if n < Pow10(places) {
      SplitDecimal(n, places, 0, n);
    }
  }

  /** `:.2f` of an amount held in cents. */
  function Fmt2(cents: int): string {
    FormatFixed(cents, 2)
  }

  /** `:.1f` of a percentage held in tenths. */
  function Fmt1(tenths: int): string {
    FormatFixed(tenths, 1)
  }

  /** Reads back what UnsignedFixed writes. */
  function ParseUnsigned(body: string, places: nat): Option<nat> {
    if |body| < places + 2 || body[|body| - places - 1] != '.' then None
    else
      var whole := body[..|body| - places - 1];
      var frac := body[|body| - places..];
      if !AllDigits(whole) || !AllDigits(frac) then None
      else Some(DigitsValue(whole) * Pow10(places) + DigitsValue(frac))
  }

  /** Reads back what FormatFixed writes: the partner that shows the
      formatting loses nothing. */
  function ParseFixed(s: string, places: nat): Option<int> {
    if |s| > 0 && s[0] == '-' then
      match ParseUnsigned(s[1..], places)
      case None => None
      case Some(m) => Some(-(m as int))
    else
      match ParseUnsigned(s, places)
      case None => None
      case Some(m) => Some(m)
  }

  lemma {:induction false} NatDigitsValue(n: nat)
    ensures DigitsValue(NatDigits(n)) == n
    decreases n
  {
    if n >= 10 {
      var s := NatDigits(n);
      NatDigitsValue(n / 10);
      assert s[..|s| - 1] == NatDigits(n / 10);
    }
  }

  /** The padded low digits and the whole part together make up the number. */
  lemma {:induction false} PaddedDigitsSplit(n: nat, width: nat)
    ensures n == WholePart(n, width) * Pow10(width) + DigitsValue(PaddedDigits(n, width))
  {
    if width > 0 {
      var s := PaddedDigits(n, width);
      var low := PaddedDigits(n / 10, width - 1);
      PaddedDigitsSplit(n / 10, width - 1);
      assert s[..|s| - 1] == low;
      var w, p, d := WholePart(n / 10, width - 1), Pow10(width - 1), DigitsValue(low);
      assert DigitsValue(s) == 10 * d + n % 10;
      ShiftDecimal(w, p);
    }
  }

  lemma ShiftDecimal(w: nat, p: nat)
    ensures w * (10 * p) == 10 * (w * p)
  {
  }

  lemma UnsignedRoundTrip(n: nat, places: nat)
    ensures ParseUnsigned(UnsignedFixed(n, places), places) == Some(n)
  {
    var whole := WholePart(n, places);
    var w := NatDigits(whole);
    var f := PaddedDigits(n, places);
    assert UnsignedFixed(n, places) == w + "." + f;
    NatDigitsValue(whole);
    PaddedDigitsSplit(n, places);
    ParseDigitsPointDigits(w, f, places, whole, n);
  }

  /** Whole digits, a point and `places` fraction digits read back as
      whole * 10^places + fraction (named `n`). */
  lemma ParseDigitsPointDigits(w: string, f: string, places: nat, whole: nat, n: nat)
    requires |w| >= 1 && AllDigits(w) && |f| == places && AllDigits(f)
    requires DigitsValue(w) == whole && n == whole * Pow10(places) + DigitsValue(f)
    ensures ParseUnsigned(w + "." + f, places) == Some(n)
  {
    var body := w + "." + f;
    assert |body| - places - 1 == |w|;
    assert body[|w|] == '.';
    assert body[..|w|] == w;
    assert body[|w| + 1..] == f;
  }

  /** Formatting and then parsing gives back the exact value. */
  lemma ParseFormatRoundTrip(v: int, places: nat)
    ensures ParseFixed(FormatFixed(v, places), places) == Some(v)
  {
    var u := UnsignedFixed(Abs(v), places);
    UnsignedRoundTrip(Abs(v), places);
    if v < 0 {
      assert FormatFixed(v, places)[1..] == u;
    } else {
      assert FormatFixed(v, places) == u;
    }
  }

  /** Two different values never print alike. */
  lemma FormatFixedInjective(a: int, b: int, places: nat)
    requires FormatFixed(a, places) == FormatFixed(b, places)
    ensures a == b
  {
    ParseFormatRoundTrip(a, places);
    ParseFormatRoundTrip(b, places);
  }

  /** A string of digits that opens with a non-zero digit denotes a positive number. */
  lemma {:induction false} LeadingDigitPositive(s: string)
    requires |s| >= 1 && AllDigits(s) && s[0] != '0'
    ensures DigitsValue(s) >= 1
    decreases |s|
  {
    if |s| > 1 {
      LeadingDigitPositive(s[..|s| - 1]);
    }
  }

  /** Whole digits without leading zeros are the digits of their own value. */
  lemma {:induction false} NatDigitsOfValue(w: string)
    requires CanonicalWhole(w)
    ensures NatDigits(DigitsValue(w)) == w
    decreases |w|
  {
    if |w| > 1 {
      var init := w[..|w| - 1];
      assert init[0] == w[0];
      LeadingDigitPositive(init);
      NatDigitsOfValue(init);
      assert init + [w[|w| - 1]] == w;
    }
  }

  /** A fixed-width string of digits is the padded digits of its own value. */
  lemma {:induction false} PaddedDigitsOfValue(f: string)
    requires AllDigits(f)
    ensures PaddedDigits(DigitsValue(f), |f|) == f
    decreases |f|
  {
    if |f| > 0 {
      var init := f[..|f| - 1];
      PaddedDigitsOfValue(init);
      assert init + [f[|f| - 1]] == f;
    }
  }

  lemma {:induction false} DigitsValueBound(f: string)
    requires AllDigits(f)
    ensures DigitsValue(f) < Pow10(|f|)
    decreases |f|
  {
    if |f| > 0 {
      DigitsValueBound(f[..|f| - 1]);
    }
  }

  /** For `n = whole * 10^k + frac` with `frac < 10^k`, the whole part of `n`
      is `whole` and its `k` low digits are those of `frac`. */
  lemma {:induction false} SplitDecimal(n: nat, k: nat, whole: nat, frac: nat)
    requires frac < Pow10(k) && n == whole * Pow10(k) + frac
    ensures WholePart(n, k) == whole && PaddedDigits(n, k) == PaddedDigits(frac, k)
  {
    if k > 0 {
      var p := Pow10(k - 1);
      ShiftDecimal(whole, p);
      DivTen(n, whole * p + frac / 10, frac % 10);
      SplitDecimal(n / 10, k - 1, whole, frac / 10);
    }
  }

  /** Division by ten of `10 * q + d` for a digit `d`. */
  lemma DivTen(n: nat, q: nat, d: nat)
    requires d < 10 && n == 10 * q + d
    ensures n / 10 == q && n % 10 == d
  {
  }

  /** FormatFixed is the only canonical text that reads back as `v`, apart from
      a minus sign in front of zero. */
  lemma FormatFixedUnique(s: string, places: nat, v: int)
    requires CanonicalFixed(s, places) && ParseFixed(s, places) == Some(v)
    requires s[0] == '-' ==> v != 0
    ensures s == FormatFixed(v, places)
  {
    if s[0] == '-' {
      assert s == "-" + s[1..];
      UnsignedUnique(s[1..], places, Abs(v));
    } else {
      UnsignedUnique(s, places, v);
    }
  }

  /** Unsigned canonical text is the UnsignedFixed text of the value it reads as. */
  lemma UnsignedUnique(body: string, places: nat, m: nat)
    requires |body| >= places + 2 && CanonicalWhole(body[..|body| - places - 1])
    requires ParseUnsigned(body, places) == Some(m)
    ensures UnsignedFixed(m, places) == body
  {
    var w := body[..|body| - places - 1];
    var f := body[|body| - places..];
    assert w + "." + f == body;
    DigitsValueBound(f);
    SplitDecimal(m, places, DigitsValue(w), DigitsValue(f));
    NatDigitsOfValue(w);
    PaddedDigitsOfValue(f);
  }

  /** `sep.join(parts)`. */
  function Join(parts: seq<string>, sep: string): (s: string)
    ensures |parts| == 1 ==> s == parts[0]
  {
    if |parts| == 0 then ""
    else if |parts| == 1 then parts[0]
    else parts[0] + sep + Join(parts[1..], sep)
  }

  /** Joining with one more part appends the separator and that part. */
  lemma {:induction false} JoinSnoc(parts: seq<string>, sep: string, last: string)
    requires |parts| >= 1
    ensures Join(parts + [last], sep) == Join(parts, sep) + sep + last
    decreases |parts|
  {
    if |parts| > 1 {
      assert (parts + [last])[1..] == parts[1..] + [last];
      JoinSnoc(parts[1..], sep, last);
    } else {
      assert (parts + [last])[1..] == [last];
    }
  }

  /** The joined text of at least two parts starts with the first part and the
      separator and ends with the separator and the last part. */
  lemma {:induction false} JoinEnds(parts: seq<string>, sep: string)
    requires |parts| >= 2
    ensures Join(parts, sep) == parts[0] + sep + Join(parts[1..], sep)
    ensures Join(parts, sep) == Join(parts[..|parts| - 1], sep) + sep + parts[|parts| - 1]
  {
    var init := parts[..|parts| - 1];
    JoinSnoc(init, sep, parts[|parts| - 1]);
    assert init + [parts[|parts| - 1]] == parts;
  }
}
