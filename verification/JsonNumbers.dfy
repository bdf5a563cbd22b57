/**
 * Number::toString of ECMAScript (section 6.1.6.1.20 of ECMA-262), which JSON.stringify prints numbers
 * with (packages/artifacts/src/fingerprint.ts): different numbers never print the same text.
 */
module JsonNumbers {
  /**
   * A finite number as its shortest decimal: the value 0.d1 d2 ... dk * 10^point, negated or not.
   * Negative zero prints as zero and is not told apart from it.
   */
  datatype Decimal = Decimal(negative: bool, digits: string, point: int)

  predicate Digit(c: char) { '0' <= c <= '9' }

  predicate AllDigits(s: string) { forall k :: 0 <= k < |s| ==> Digit(s[k]) }

  /** Shortest digits neither begin nor end with a zero. */
  predicate Shortest(d: Decimal) {
    && d.digits != "" && AllDigits(d.digits)
    && ((d.digits[0] != '0' && d.digits[|d.digits| - 1] != '0') || d == Decimal(false, "0", 1))
  }

  type Number = d: Decimal | Shortest(d) witness Decimal(false, "0", 1)

  // ---- Printing ----

  function Zeros(n: nat): (z: string)
    ensures |z| == n && forall k :: 0 <= k < n ==> z[k] == '0'
  {
    seq(n, _ => '0')
  }

  function DigitChar(n: nat): char
    requires n < 10
  {
    '0' + n as char
  }

  function NatText(n: nat): (s: string)
    ensures s != "" && AllDigits(s)
  {
    if n < 10 then [DigitChar(n)] else NatText(n / 10) + [DigitChar(n % 10)]
  }

  /** The exponent behind the letter e, with its sign. */
  function ExponentText(e: int): string { if e < 0 then ['-'] + NatText(-e) else ['+'] + NatText(e) }

  /** One digit before the point, the others behind it. */
  function Mantissa(s: string): string
    requires s != ""
  {
    if |s| == 1 then s else [s[0]] + ['.'] + s[1..]
  }

  datatype Form = Whole | Pointed | Small | Scientific

  function FormOf(d: Number): Form {
    if |d.digits| <= d.point <= 21 then Whole
    else if 0 < d.point <= 21 then Pointed
    else if -6 < d.point <= 0 then Small
    else Scientific
  }

  function UnsignedText(d: Number): string {
    var s, n := d.digits, d.point;
    match FormOf(d)
    case Whole => s + Zeros(n - |s|)
    case Pointed => s[..n] + ['.'] + s[n..]
    case Small => ['0', '.'] + Zeros(-n) + s
    case Scientific => Mantissa(s) + ['e'] + ExponentText(n - 1)
  }

  function NumberText(d: Number): string { if d.negative then ['-'] + UnsignedText(d) else UnsignedText(d) }

  predicate NumberChar(c: char) { Digit(c) || c == '+' || c == '-' || c == '.' || c == 'e' }

  // ---- Different numbers differ ----

  function ReadNat(s: string): nat
    requires AllDigits(s)
  {
    if s == "" then 0 else ReadNat(s[..|s| - 1]) * 10 + (s[|s| - 1] - '0') as nat
  }

  lemma {:induction false} ReadNatOfText(n: nat)
    ensures ReadNat(NatText(n)) == n
  {
    if n >= 10 {
      ReadNatOfText(n / 10);
      assert NatText(n)[..|NatText(n)| - 1] == NatText(n / 10);
    } else {
      assert NatText(n)[..0] == "";
    }
  }

  lemma ExponentDiffers(e: int, f: int)
    requires ExponentText(e) == ExponentText(f)
    ensures e == f
  {
    assert NatText(if e < 0 then -e else e) == ExponentText(e)[1..];
    assert NatText(if f < 0 then -f else f) == ExponentText(f)[1..];
    assert ExponentText(e)[0] == ExponentText(f)[0];
    ReadNatOfText(if e < 0 then -e else e);
    ReadNatOfText(if f < 0 then -f else f);
  }

  /** A letter that occurs in neither front part marks where both end. */
  lemma SplitAt(a: string, b: string, c: char, x: string, y: string)
    requires c !in a && c !in b && a + [c] + x == b + [c] + y
    ensures a == b && x == y
  {
    var s := a + [c] + x;
    assert s[|a|] == c && s[|b|] == c;
    assert forall k :: 0 <= k < |a| ==> s[k] == a[k] && a[k] in a;
    assert forall k :: 0 <= k < |b| ==> s[k] == b[k] && b[k] in b;
    assert a == s[..|a|] && b == s[..|b|];
    assert x == s[|a| + 1..] && y == s[|b| + 1..];
  }

  lemma MantissaDiffers(s: string, t: string)
    requires s != "" && t != "" && Mantissa(s) == Mantissa(t)
    ensures s == t
  {
    assert |s| > 1 ==> s == [Mantissa(s)[0]] + Mantissa(s)[2..];
    assert |t| > 1 ==> t == [Mantissa(t)[0]] + Mantissa(t)[2..];
  }

  lemma MantissaChars(s: string)
    requires s != "" && AllDigits(s)
    ensures 'e' !in Mantissa(s)
  {
    assert forall k :: 0 <= k < |Mantissa(s)| ==> Mantissa(s)[k] != 'e';
  }

  lemma ScientificParts(s: string, t: string, e: int, f: int)
    requires s != "" && t != "" && AllDigits(s) && AllDigits(t)
    requires Mantissa(s) + ['e'] + ExponentText(e) == Mantissa(t) + ['e'] + ExponentText(f)
    ensures s == t && e == f
  {
    var a, b, x, y := Mantissa(s), Mantissa(t), ExponentText(e), ExponentText(f);
    MantissaChars(s);
    MantissaChars(t);
    SplitAt(a, b, 'e', x, y);
    MantissaDiffers(s, t);
    ExponentDiffers(e, f);
  }

  lemma ScientificDiffers(x: Number, y: Number)
    requires FormOf(x).Scientific? && FormOf(y).Scientific? && UnsignedText(x) == UnsignedText(y)
    ensures x.digits == y.digits && x.point == y.point
  {
    ScientificParts(x.digits, y.digits, x.point - 1, y.point - 1);
  }

  lemma WholeNotLonger(x: Number, y: Number)
    requires FormOf(x).Whole? && FormOf(y).Whole? && UnsignedText(x) == UnsignedText(y)
    ensures |x.digits| >= |y.digits| && x.point == y.point
  {
    var text := UnsignedText(x);
    assert |text| == x.point == y.point;
    assert forall k :: |x.digits| <= k < |text| ==> text[k] == '0';
    assert text[|y.digits| - 1] == y.digits[|y.digits| - 1];
  }

  lemma WholeDiffers(x: Number, y: Number)
    requires FormOf(x).Whole? && FormOf(y).Whole? && UnsignedText(x) == UnsignedText(y)
    ensures x.digits == y.digits && x.point == y.point
  {
    WholeNotLonger(x, y);
    WholeNotLonger(y, x);
    assert x.digits == UnsignedText(x)[..|x.digits|] && y.digits == UnsignedText(y)[..|y.digits|];
  }

  lemma PointedDiffers(x: Number, y: Number)
    requires FormOf(x).Pointed? && FormOf(y).Pointed? && UnsignedText(x) == UnsignedText(y)
    ensures x.digits == y.digits && x.point == y.point
  {
    SplitAt(x.digits[..x.point], y.digits[..y.point], '.', x.digits[x.point..], y.digits[y.point..]);
    assert x.digits == x.digits[..x.point] + x.digits[x.point..] && y.digits == y.digits[..y.point] + y.digits[y.point..];
  }

  lemma SmallNotLater(x: Number, y: Number)
    requires FormOf(x).Small? && FormOf(y).Small? && UnsignedText(x) == UnsignedText(y)
    ensures x.point <= y.point
  {
    var text := UnsignedText(x);
    assert text[2 - x.point] == x.digits[0];
    assert forall k :: 2 <= k < 2 - y.point ==> text[k] == '0';
  }

  lemma SmallDiffers(x: Number, y: Number)
    requires FormOf(x).Small? && FormOf(y).Small? && UnsignedText(x) == UnsignedText(y)
    ensures x.digits == y.digits && x.point == y.point
  {
    SmallNotLater(x, y);
    SmallNotLater(y, x);
    assert x.digits == UnsignedText(x)[2 - x.point..] && y.digits == UnsignedText(y)[2 - y.point..];
  }

  /** What a text shows of its form. */
  lemma FormShows(x: Number)
    ensures UnsignedText(x) != "" && Digit(UnsignedText(x)[0])
    ensures forall k :: 0 <= k < |UnsignedText(x)| ==> NumberChar(UnsignedText(x)[k])
    ensures 'e' in UnsignedText(x) <==> FormOf(x).Scientific?
    ensures !FormOf(x).Scientific? ==> ('.' in UnsignedText(x) <==> !FormOf(x).Whole?)
    ensures FormOf(x).Small? ==> UnsignedText(x)[0] == '0'
    ensures FormOf(x).Pointed? ==> UnsignedText(x)[0] != '0'
  {
    var text, s, n := UnsignedText(x), x.digits, x.point;
    match FormOf(x)
    case Whole =>
    case Pointed => assert text[n] == '.';
    case Small => assert text[1] == '.';
    case Scientific => assert text[|Mantissa(s)|] == 'e';
  }

  /** Only numbers from 10^21 on and below 10^-6 are written with an exponent; of the others only fractions have a point. */
  lemma PlainNumbers(x: Number)
    ensures 'e' in NumberText(x) <==> x.point > 21 || x.point < -5
    ensures 'e' !in NumberText(x) ==> ('.' in NumberText(x) <==> x.point < |x.digits|)
  {
    FormShows(x);
    if x.negative {
      assert NumberText(x) == ['-'] + UnsignedText(x);
      assert forall c :: c in NumberText(x) <==> c == '-' || c in UnsignedText(x);
    }
  }

  lemma UnsignedDiffers(x: Number, y: Number)
    requires UnsignedText(x) == UnsignedText(y)
    ensures x.digits == y.digits && x.point == y.point
  {
    FormShows(x);
    FormShows(y);
    assert FormOf(x) == FormOf(y);
    match FormOf(x)
    case Whole => WholeDiffers(x, y);
    case Pointed => PointedDiffers(x, y);
    case Small => SmallDiffers(x, y);
    case Scientific => ScientificDiffers(x, y);
  }

  /** The first character tells a number from every other JSON value, and only number characters follow. */
  lemma NumberTextChars(x: Number)
    ensures NumberText(x) != "" && (NumberText(x)[0] == '-' || Digit(NumberText(x)[0]))
    ensures forall k :: 0 <= k < |NumberText(x)| ==> NumberChar(NumberText(x)[k])
  {
    FormShows(x);
  }

  lemma NumberTextDiffers(x: Number, y: Number)
    requires NumberText(x) == NumberText(y)
    ensures x == y
  {
    FormShows(x);
    FormShows(y);
    assert x.negative ==> UnsignedText(x) == NumberText(x)[1..];
    assert y.negative ==> UnsignedText(y) == NumberText(y)[1..];
    assert x.negative == (NumberText(x)[0] == '-') && y.negative == (NumberText(y)[0] == '-');
    UnsignedDiffers(x, y);
  }
}
