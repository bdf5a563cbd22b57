/**
 * A reader of JSON texts without white space between tokens, after the grammar of RFC 8259 (sections 2 to 7):
 * canonical text is JSON, and reading it gives back the value in canonical form.
 */
module JsonReader {
  import opened Basics
  import opened JsonNumbers
  import opened CanonicalJson

  // ---- Strings (section 7) ----

  function HexValue(c: char): Option<nat> {
    if '0' <= c <= '9' then Some((c - '0') as nat)
    else if 'a' <= c <= 'f' then Some((c - 'a') as nat + 10)
    else if 'A' <= c <= 'F' then Some((c - 'A') as nat + 10)
    else None
  }

  /** The character behind \\u and four hexadecimal digits; surrogates are not read. */
  function FourHex(t: string): Option<char>
    requires |t| >= 4
  {
    match (HexValue(t[0]), HexValue(t[1]), HexValue(t[2]), HexValue(t[3]))
    case (Some(a), Some(b), Some(c), Some(d)) =>
      var n := ((a * 16 + b) * 16 + c) * 16 + d;
      if n < 0xD800 || 0xE000 <= n < 0x10000 then Some(n as char) else None
    case _ => None
  }

  /** The character an escape of two characters stands for. */
  function Unescaped(c: char): Option<char> {
    match c
    case '\"' => Some('\"')
    case '\\' => Some('\\')
    case '/' => Some('/')
    case 'b' => Some(8 as char)
    case 'f' => Some(12 as char)
    case 'n' => Some(10 as char)
    case 'r' => Some(13 as char)
    case 't' => Some(9 as char)
    case _ => None
  }

  /** One character of a string, as it stands or escaped, and what follows it. */
  function ReadChar(t: string): (r: Option<(char, string)>)
    ensures r.Some? ==> |r.value.1| < |t|
  {
    if t == "" || t[0] == '\"' || (t[0] as int) < 32 then None
    else if t[0] != '\\' then Some((t[0], t[1..]))
    else if |t| < 2 then None
    else if t[1] == 'u' then
      if |t| < 6 || FourHex(t[2..]).None? then None else Some((FourHex(t[2..]).value, t[6..]))
    else if Unescaped(t[1]).None? then None
    else Some((Unescaped(t[1]).value, t[2..]))
  }

  /** The characters up to the closing quote, and what follows it. */
  function ReadChars(t: string): (r: Option<(string, string)>)
    ensures r.Some? ==> |r.value.1| < |t|
    decreases |t|
  {
    if t == "" then None
    else if t[0] == '\"' then Some(("", t[1..]))
    else
      match ReadChar(t)
      case None => None
      case Some((c, rest)) =>
        var more := ReadChars(rest);
        if more.None? then None else Some(([c] + more.value.0, more.value.1))
  }

  lemma HexReads(n: nat)
    requires n < 16
    ensures HexValue(HEX[n]) == Some(n)
  {}

  lemma CharReadsBack(c: char, x: string)
    ensures ReadChar(EscapeChar(c) + x) == Some((c, x)) && (EscapeChar(c) + x)[0] != '\"'
  {
    var s, n := EscapeChar(c), c as int;
    assert (s + x)[|s|..] == x && (s + x)[0] == s[0];
    if |s| > 1 { assert (s + x)[1] == s[1]; }
    if |s| == 6 {
      var h := (s + x)[2..];
      assert h[0] == '0' && h[1] == '0' && h[2] == HEX[n / 16] && h[3] == HEX[n % 16];
      HexReads(n / 16);
      HexReads(n % 16);
      assert n / 16 * 16 + n % 16 == n;
    }
  }

  /** A character is escaped only where JSON asks for it, and then as briefly as JSON can: no text that reads as it is shorter. */
  lemma EscapesAreShortest(c: char, t: string)
    requires ReadChar(t) == Some((c, ""))
    ensures |EscapeChar(c)| <= |t|
  {
    assert |t| >= 1;
    if t[0] == '\\' && |t| >= 2 && t[1] == 'u' { assert |t| >= 6; }
  }

  /** Reading a quoted string gives the string back. */
  lemma {:induction false} CharsReadBack(s: string, x: string)
    ensures ReadChars(EscapedText(s) + x) == Some((s, x))
  {
    if s == "" {
      assert (['\"'] + x)[1..] == x;
    } else {
      EscapedStep(s, x);
      CharReadsBack(s[0], EscapedText(s[1..]) + x);
      CharsReadBack(s[1..], x);
      assert [s[0]] + s[1..] == s;
    }
  }

  // ---- Numbers (section 6) ----

  /** The longest front of number characters. */
  function NumberFront(t: string): (n: nat)
    ensures n <= |t| && (forall k :: 0 <= k < n ==> NumberChar(t[k])) && (n < |t| ==> !NumberChar(t[n]))
  {
    if t == "" || !NumberChar(t[0]) then 0 else 1 + NumberFront(t[1..])
  }

  /** Where a character first stands, or the length of the text. */
  function IndexOf(t: string, c: char): (i: nat)
    ensures i <= |t| && (i < |t| ==> t[i] == c) && forall k :: 0 <= k < i ==> t[k] != c
  {
    if t == "" || t[0] == c then 0 else 1 + IndexOf(t[1..], c)
  }

  function LeadingZeros(s: string): (n: nat)
    ensures n <= |s| && (forall k :: 0 <= k < n ==> s[k] == '0') && (n < |s| ==> s[n] != '0')
  {
    if s == "" || s[0] != '0' then 0 else 1 + LeadingZeros(s[1..])
  }

  /** The length of the text without the zeros at its end. */
  function Trimmed(s: string): (n: nat)
    ensures n <= |s| && (forall k :: n <= k < |s| ==> s[k] == '0') && (n > 0 ==> s[n - 1] != '0')
  {
    if s == "" then 0 else if s[|s| - 1] != '0' then |s| else Trimmed(s[..|s| - 1])
  }

  /** The number 0.digits * 10^point, by its shortest digits. */
  function Shortened(negative: bool, digits: string, point: int): Number
    requires AllDigits(digits)
  {
    var lead := LeadingZeros(digits);
    var rest := digits[lead..];
    var shortest := rest[..Trimmed(rest)];
    if shortest == "" then Decimal(false, "0", 1) else Decimal(negative, shortest, point - lead)
  }

  predicate IsInteger(s: string) { s != "" && AllDigits(s) && (|s| == 1 || s[0] != '0') }

  function ReadExponent(t: string): Option<int> {
    if t == "" then None
    else
      var digits := if t[0] == '+' || t[0] == '-' then t[1..] else t;
      if digits == "" || !AllDigits(digits) then None
      else Some(if t[0] == '-' then 0 - ReadNat(digits) else ReadNat(digits))
  }

  /** The number 0.digits * 10^point, as it is written. */
  datatype Written = Written(digits: string, point: int)

  /** int [ frac ], with its exponent. */
  function ReadMantissa(m: string, e: int): (w: Option<Written>)
    ensures w.Some? ==> AllDigits(w.value.digits)
  {
    var dot := IndexOf(m, '.');
    if dot == |m| then (if IsInteger(m) then Some(Written(m, |m| + e)) else None)
    else
      var whole, fraction := m[..dot], m[dot + 1..];
      if IsInteger(whole) && AllDigits(fraction) && fraction != "" then Some(Written(whole + fraction, |whole| + e)) else None
  }

  /** int [ frac ] [ exp ], without its sign. */
  function ReadUnsigned(t: string): (w: Option<Written>)
    ensures w.Some? ==> AllDigits(w.value.digits)
  {
    var mark := IndexOf(t, 'e');
    if mark == |t| then ReadMantissa(t, 0)
    else
      var e := ReadExponent(t[mark + 1..]);
      if e.None? then None else ReadMantissa(t[..mark], e.value)
  }

  function ReadNumber(t: string): Option<Number> {
    var negative := t != "" && t[0] == '-';
    match ReadUnsigned(if negative then t[1..] else t)
    case None => None
    case Some(w) => Some(Shortened(negative, w.digits, w.point))
  }

  lemma IndexIsFirst(t: string, c: char, i: nat)
    requires i <= |t| && (i < |t| ==> t[i] == c) && forall k :: 0 <= k < i ==> t[k] != c
    ensures IndexOf(t, c) == i
  {
    var j := IndexOf(t, c);
  }

  /** Shortest digits with zeros before and behind them are shortened to themselves. */
  lemma ShortenedPadded(d: Number, before: nat, behind: nat)
    requires d.digits != "0"
    ensures AllDigits(Zeros(before) + d.digits + Zeros(behind))
    ensures Shortened(d.negative, Zeros(before) + d.digits + Zeros(behind), d.point + before) == d
  {
    var s := d.digits;
    var t := Zeros(before) + s + Zeros(behind);
    LeadIs(t, before);
    assert t[before..] == s + Zeros(behind);
    TrimIs(t[before..], |s|);
    assert t[before..][..|s|] == s;
  }

  lemma LeadIs(t: string, n: nat)
    requires n < |t| && (forall k :: 0 <= k < n ==> t[k] == '0') && t[n] != '0'
    ensures LeadingZeros(t) == n
  {
    var m := LeadingZeros(t);
  }

  lemma TrimIs(t: string, n: nat)
    requires 0 < n <= |t| && (forall k :: n <= k < |t| ==> t[k] == '0') && t[n - 1] != '0'
    ensures Trimmed(t) == n
  {
    var m := Trimmed(t);
  }

  /** The mantissa of these digits, with a point exactly when there is a fraction. */
  function Pointed(whole: string, fraction: string): string { if fraction == "" then whole else whole + ['.'] + fraction }

  lemma PointedChars(whole: string, fraction: string)
    requires IsInteger(whole) && AllDigits(fraction)
    ensures forall k :: 0 <= k < |Pointed(whole, fraction)| ==> Pointed(whole, fraction)[k] != 'e'
  {
    var m := Pointed(whole, fraction);
    assert forall k :: 0 <= k < |whole| ==> m[k] == whole[k];
    assert forall k :: |whole| < k < |m| ==> m[k] == fraction[k - |whole| - 1];
  }

  lemma MantissaReads(whole: string, fraction: string, e: int)
    requires IsInteger(whole) && AllDigits(fraction)
    ensures ReadMantissa(Pointed(whole, fraction), e) == Some(Written(whole + fraction, |whole| + e))
  {
    if fraction == "" {
      IndexIsFirst(whole, '.', |whole|);
      assert whole + "" == whole;
    } else {
      CutAtMark(whole, '.', fraction);
    }
  }

  lemma ExponentReadsBack(e: int)
    ensures ReadExponent(ExponentText(e)) == Some(e)
  {
    var t := ExponentText(e);
    var n := if e < 0 then -e else e;
    assert t[1..] == NatText(n);
    ReadNatOfText(n);
  }

  lemma PlainReads(whole: string, fraction: string)
    requires IsInteger(whole) && AllDigits(fraction)
    ensures ReadUnsigned(Pointed(whole, fraction)) == Some(Written(whole + fraction, |whole|))
  {
    PointedChars(whole, fraction);
    IndexIsFirst(Pointed(whole, fraction), 'e', |Pointed(whole, fraction)|);
    MantissaReads(whole, fraction, 0);
  }

  lemma CutAtMark(m: string, c: char, x: string)
    requires forall k :: 0 <= k < |m| ==> m[k] != c
    ensures var t := m + [c] + x; IndexOf(t, c) == |m| < |t| && t[..|m|] == m && t[|m| + 1..] == x
  {
    var t := m + [c] + x;
    assert forall k :: 0 <= k < |m| ==> t[k] == m[k];
    assert t[|m|] == c;
    IndexIsFirst(t, c, |m|);
  }

  lemma ScaledReads(whole: string, fraction: string, e: int)
    requires IsInteger(whole) && AllDigits(fraction)
    ensures ReadUnsigned(Pointed(whole, fraction) + ['e'] + ExponentText(e)) == Some(Written(whole + fraction, |whole| + e))
  {
    PointedChars(whole, fraction);
    ExponentReadsBack(e);
    CutAtMark(Pointed(whole, fraction), 'e', ExponentText(e));
    MantissaReads(whole, fraction, e);
  }

  /** A text without an exponent, by its integer part and its fraction, which together are the number's digits. */
  ghost predicate Splits(d: Number, whole: string, fraction: string) {
    && IsInteger(whole) && AllDigits(fraction) && UnsignedText(d) == Pointed(whole, fraction)
    && Shortened(d.negative, whole + fraction, |whole|) == d
  }

  lemma WholeSplits(d: Number)
    requires FormOf(d).Whole? && d.digits != "0"
    ensures Splits(d, UnsignedText(d), "")
  {
    var t := UnsignedText(d);
    assert t + "" == Zeros(0) + d.digits + Zeros(d.point - |d.digits|);
    ShortenedPadded(d, 0, d.point - |d.digits|);
  }

  lemma Bare(d: Number)
    requires d.digits != "0"
    ensures Shortened(d.negative, d.digits, d.point) == d
  {
    assert Zeros(0) + d.digits + Zeros(0) == d.digits;
    ShortenedPadded(d, 0, 0);
  }

  lemma PointedSplits(d: Number)
    requires FormOf(d).Pointed?
    ensures Splits(d, d.digits[..d.point], d.digits[d.point..])
  {
    assert d.digits[..d.point] + d.digits[d.point..] == d.digits;
    Bare(d);
  }

  lemma SmallSplits(d: Number)
    requires FormOf(d).Small?
    ensures Splits(d, "0", Zeros(-d.point) + d.digits)
  {
    var fraction := Zeros(-d.point) + d.digits;
    assert ['0', '.'] + Zeros(-d.point) + d.digits == "0" + ['.'] + fraction;
    assert "0" + fraction == Zeros(1 - d.point) + d.digits + Zeros(0);
    ShortenedPadded(d, 1 - d.point, 0);
  }

  lemma ScientificSplits(d: Number)
    requires FormOf(d).Scientific?
    ensures var whole, fraction := d.digits[..1], d.digits[1..];
            && IsInteger(whole) && AllDigits(fraction) && Mantissa(d.digits) == Pointed(whole, fraction)
            && Shortened(d.negative, whole + fraction, |whole| + (d.point - 1)) == d
  {
    MantissaIsPointed(d.digits);
    Bare(d);
  }

  lemma MantissaIsPointed(s: string)
    requires s != ""
    ensures s[..1] + s[1..] == s && Mantissa(s) == Pointed(s[..1], s[1..])
  {
    assert s[1..] == "" ==> s[..1] == s;
    assert [s[0]] == s[..1];
  }

  /** What is written of a number is read, and is the number. */
  ghost predicate ReadsAs(t: string, d: Number) {
    ReadUnsigned(t).Some? && Shortened(d.negative, ReadUnsigned(t).value.digits, ReadUnsigned(t).value.point) == d
  }

  lemma SplitReads(d: Number, whole: string, fraction: string)
    requires Splits(d, whole, fraction)
    ensures ReadsAs(UnsignedText(d), d)
  {
    PlainReads(whole, fraction);
  }

  lemma ScientificText(d: Number)
    requires FormOf(d).Scientific?
    ensures UnsignedText(d) == Mantissa(d.digits) + ['e'] + ExponentText(d.point - 1)
  {}

  lemma ScientificReads(d: Number)
    requires FormOf(d).Scientific?
    ensures ReadsAs(UnsignedText(d), d)
  {
    ScientificText(d);
    ScientificSplits(d);
    ScaledReads(d.digits[..1], d.digits[1..], d.point - 1);
  }

  lemma ZeroReads(d: Number)
    requires d.digits == "0"
    ensures ReadsAs(UnsignedText(d), d)
  {
    assert d == Decimal(false, "0", 1) && UnsignedText(d) == "0";
    assert "0" + "" == "0";
    PlainReads("0", "");
  }

  lemma UnsignedReadsBack(d: Number)
    ensures ReadsAs(UnsignedText(d), d)
  {
    if d.digits == "0" {
      ZeroReads(d);
    } else {
      match FormOf(d)
      case Whole =>
        WholeSplits(d);
        SplitReads(d, UnsignedText(d), "");
      case Pointed =>
        PointedSplits(d);
        SplitReads(d, d.digits[..d.point], d.digits[d.point..]);
      case Small =>
        SmallSplits(d);
        SplitReads(d, "0", Zeros(-d.point) + d.digits);
      case Scientific => ScientificReads(d);
    }
  }

  /** A number's text is a JSON number, and reading it gives the number back. */
  lemma NumberReadsBack(d: Number)
    ensures ReadNumber(NumberText(d)) == Some(d)
  {
    FormShows(d);
    UnsignedReadsBack(d);
    assert d.negative ==> NumberText(d)[1..] == UnsignedText(d);
  }

  // ---- Values (sections 3 to 5) ----

  function ReadWord(t: string, word: string, v: Json): (r: Option<(Json, string)>)
    requires word != ""
    ensures r.Some? ==> |r.value.1| < |t|
  {
    if word <= t then Some((v, t[|word|..])) else None
  }

  function ReadNumberValue(t: string): (r: Option<(Json, string)>)
    ensures r.Some? ==> |r.value.1| < |t|
  {
    var n := NumberFront(t);
    if n == 0 || ReadNumber(t[..n]).None? then None else Some((JNumber(ReadNumber(t[..n]).value), t[n..]))
  }

  function ReadStringValue(t: string): (r: Option<(Json, string)>)
    requires t != ""
    ensures r.Some? ==> |r.value.1| < |t|
  {
    match ReadChars(t[1..])
    case None => None
    case Some((s, rest)) => Some((JString(s), rest))
  }

  /** A value at the start of the text, and what follows it. */
  function ReadValue(t: string): (r: Option<(Json, string)>)
    ensures r.Some? ==> |r.value.1| < |t|
    decreases |t|, 0
  {
    if t == "" then None
    else if t[0] == '-' || Digit(t[0]) then ReadNumberValue(t)
    else if t[0] == 'n' then ReadWord(t, "null", JNull)
    else if t[0] == 't' then ReadWord(t, "true", JBool(true))
    else if t[0] == 'f' then ReadWord(t, "false", JBool(false))
    else if t[0] == '"' then
      match ReadChars(t[1..])
      case None => None
      case Some((s, rest)) => Some((JString(s), rest))
    else if t[0] == '[' then
      if |t| > 1 && t[1] == ']' then Some((JArray([]), t[2..]))
      else
        match ReadItems(t[1..])
        case None => None
        case Some((items, rest)) => Some((JArray(items), rest))
    else if t[0] == '{' then
      if |t| > 1 && t[1] == '}' then Some((JObject([]), t[2..]))
      else
        match ReadEntries(t[1..])
        case None => None
        case Some((entries, rest)) => Some((JObject(entries), rest))
    else None
  }

  /** One item or more, and the bracket that closes them. */
  function ReadItems(t: string): (r: Option<(seq<Json>, string)>)
    ensures r.Some? ==> |r.value.1| < |t|
    decreases |t|, 2
  {
    match ReadValue(t)
    case None => None
    case Some((v, rest)) => ReadMoreItems(v, rest)
  }

  /** What follows an item. */
  function ReadMoreItems(v: Json, rest: string): (r: Option<(seq<Json>, string)>)
    ensures r.Some? ==> |r.value.1| < |rest|
    decreases |rest|, 3
  {
    if rest == "" then None
    else if rest[0] == ']' then Some(([v], rest[1..]))
    else if rest[0] != ',' then None
    else
      match ReadItems(rest[1..])
      case None => None
      case Some((more, end)) => Some(([v] + more, end))
  }

  /** A key and its value. */
  function ReadEntry(t: string): (r: Option<(Entry, string)>)
    ensures r.Some? ==> |r.value.1| < |t|
    decreases |t|, 2
  {
    if t == "" || t[0] != '\"' then None
    else
      match ReadChars(t[1..])
      case None => None
      case Some((key, rest)) => ReadEntryValue(key, rest)
  }

  function ReadEntryValue(key: string, rest: string): (r: Option<(Entry, string)>)
    ensures r.Some? ==> |r.value.1| < |rest|
    decreases |rest|, 1
  {
    if rest == "" || rest[0] != ':' then None
    else
      match ReadValue(rest[1..])
      case None => None
      case Some((v, end)) => Some((Entry(key, v), end))
  }

  function ReadEntries(t: string): (r: Option<(seq<Entry>, string)>)
    ensures r.Some? ==> |r.value.1| < |t|
    decreases |t|, 3
  {
    match ReadEntry(t)
    case None => None
    case Some((e, rest)) => ReadMoreEntries(e, rest)
  }

  function ReadMoreEntries(e: Entry, rest: string): (r: Option<(seq<Entry>, string)>)
    ensures r.Some? ==> |r.value.1| < |rest|
    decreases |rest|, 4
  {
    if rest == "" then None
    else if rest[0] == '}' then Some(([e], rest[1..]))
    else if rest[0] != ',' then None
    else
      match ReadEntries(rest[1..])
      case None => None
      case Some((more, end)) => Some(([e] + more, end))
  }

  /** A whole text that is one value. */
  function Read(t: string): Option<Json> {
    match ReadValue(t)
    case None => None
    case Some((v, rest)) => if rest == "" then Some(v) else None
  }

  // ---- Reading what is shown ----

  lemma WordReadsBack(word: string, v: Json, x: string)
    requires word != ""
    ensures ReadWord(word + x, word, v) == Some((v, x)) && (word + x)[0] == word[0]
  {
    assert (word + x)[..|word|] == word && (word + x)[|word|..] == x;
  }

  lemma FrontIs(t: string, n: nat)
    requires n <= |t| && (forall k :: 0 <= k < n ==> NumberChar(t[k])) && (n < |t| ==> !NumberChar(t[n]))
    ensures NumberFront(t) == n
  {
    var m := NumberFront(t);
  }

  lemma NumberValueReadsBack(d: Number, x: string)
    requires Stops(x)
    ensures ReadNumberValue(NumberText(d) + x) == Some((JNumber(d), x))
  {
    var s := NumberText(d);
    var t := s + x;
    NumberTextChars(d);
    assert forall k :: 0 <= k < |s| ==> t[k] == s[k];
    assert x != "" ==> t[|s|] == x[0];
    FrontIs(t, |s|);
    assert t[..|s|] == s && t[|s|..] == x;
    NumberReadsBack(d);
  }

  lemma NumberReads(d: Number, x: string)
    requires Stops(x)
    ensures ReadValue(NumberText(d) + x) == Some((JNumber(d), x))
  {
    NumberTextChars(d);
    NumberValueReadsBack(d, x);
    assert (NumberText(d) + x)[0] == NumberText(d)[0];
  }

  lemma StringValueReadsBack(s: string, x: string)
    ensures ReadStringValue(Quote(s) + x) == Some((JString(s), x))
  {
    var t := Quote(s) + x;
    assert t[1..] == EscapedText(s) + x;
    CharsReadBack(s, x);
  }

  lemma StringReads(s: string, x: string)
    ensures ReadValue(Quote(s) + x) == Some((JString(s), x))
  {
    StringValueReadsBack(s, x);
    assert (Quote(s) + x)[0] == '\"';
  }

  /** The text of a value, with whatever may follow it in a text, is read as that value and no further. */
  lemma {:induction false} ValueReadsBack(v: Json, x: string)
    requires Stops(x)
    ensures ReadValue(Show(v) + x) == Some((v, x))
    decreases v
  {
    match v
    case JNull => WordReadsBack("null", v, x);
    case JBool(b) => WordReadsBack(if b then "true" else "false", v, x);
    case JNumber(d) => NumberReads(d, x);
    case JString(s) => StringReads(s, x);
    case JArray(items) => ArrayReadsBack(items, x);
    case JObject(entries) => ObjectReadsBack(entries, x);
  }

  lemma {:induction false} ArrayReadsBack(items: seq<Json>, x: string)
    ensures ReadValue(Show(JArray(items)) + x) == Some((JArray(items), x))
    decreases items, 2
  {
    var t := Show(JArray(items)) + x;
    assert t[0] == '[' && t[1..] == ItemsText(items, true) + x;
    if items == [] {
      assert t[1] == ']' && t[2..] == x;
    } else {
      ItemsOpen(items, true, x);
      assert t[1] == (ItemsText(items, true) + x)[0];
      ItemsReadBack(items, x);
    }
  }

  lemma {:induction false} ItemsReadBack(items: seq<Json>, x: string)
    requires items != []
    ensures ReadItems(ItemsText(items, true) + x) == Some((items, x))
    decreases items, 1
  {
    var rest := ItemsText(items[1..], false) + x;
    ItemsPeel(items, true, x);
    ListsStop(items[1..], [], x);
    assert [] + (Show(items[0]) + rest) == Show(items[0]) + rest;
    ValueReadsBack(items[0], rest);
    MoreItemsReadBack(items, x);
  }

  lemma {:induction false} MoreItemsReadBack(items: seq<Json>, x: string)
    requires items != []
    ensures ReadMoreItems(items[0], ItemsText(items[1..], false) + x) == Some((items, x))
    decreases items, 0
  {
    var rest := ItemsText(items[1..], false) + x;
    if |items| == 1 {
      assert items[1..] == [] && rest == [']'] + x && rest[1..] == x && [items[0]] == items;
    } else {
      NextItems(items[1..], x);
      ItemsReadBack(items[1..], x);
      assert [items[0]] + items[1..] == items;
    }
  }

  lemma NextItems(items: seq<Json>, x: string)
    requires items != []
    ensures var rest := ItemsText(items, false) + x; rest != "" && rest[0] == ',' && rest[1..] == ItemsText(items, true) + x
  {
    ItemsPeel(items, false, x);
    ItemsPeel(items, true, x);
    var more := Show(items[0]) + (ItemsText(items[1..], false) + x);
    assert [] + more == more && ([','] + more)[1..] == more;
  }

  lemma {:induction false} ObjectReadsBack(entries: seq<Entry>, x: string)
    ensures ReadValue(Show(JObject(entries)) + x) == Some((JObject(entries), x))
    decreases entries, 2
  {
    var t := Show(JObject(entries)) + x;
    assert t[0] == '{' && t[1..] == EntriesText(entries, true) + x;
    if entries == [] {
      assert t[1] == '}' && t[2..] == x;
    } else {
      EntriesOpen(entries, true, x);
      assert t[1] == (EntriesText(entries, true) + x)[0];
      EntriesReadBack(entries, x);
    }
  }

  lemma {:induction false} EntryReadsBack(e: Entry, x: string)
    requires Stops(x)
    ensures ReadEntry(EntryText(e, x)) == Some((e, x))
    decreases e, 1
  {
    KeyReadsBack(e.key, [':'] + (Show(e.value) + x));
    EntryValueReadsBack(e, x);
  }

  lemma KeyReadsBack(key: string, after: string)
    ensures var t := Quote(key) + after; t[0] == '\"' && ReadChars(t[1..]) == Some((key, after))
  {
    assert (Quote(key) + after)[1..] == EscapedText(key) + after;
    CharsReadBack(key, after);
  }

  lemma {:induction false} EntryValueReadsBack(e: Entry, x: string)
    requires Stops(x)
    ensures ReadEntryValue(e.key, [':'] + (Show(e.value) + x)) == Some((e, x))
    decreases e, 0
  {
    assert ([':'] + (Show(e.value) + x))[1..] == Show(e.value) + x;
    ValueReadsBack(e.value, x);
  }

  lemma {:induction false} EntriesReadBack(entries: seq<Entry>, x: string)
    requires entries != []
    ensures ReadEntries(EntriesText(entries, true) + x) == Some((entries, x))
    decreases entries, 1
  {
    var rest := EntriesText(entries[1..], false) + x;
    EntriesPeel(entries, true, x);
    ListsStop([], entries[1..], x);
    assert [] + EntryText(entries[0], rest) == EntryText(entries[0], rest);
    EntryReadsBack(entries[0], rest);
    MoreEntriesReadBack(entries, x);
  }

  lemma {:induction false} MoreEntriesReadBack(entries: seq<Entry>, x: string)
    requires entries != []
    ensures ReadMoreEntries(entries[0], EntriesText(entries[1..], false) + x) == Some((entries, x))
    decreases entries, 0
  {
    var rest := EntriesText(entries[1..], false) + x;
    if |entries| == 1 {
      assert entries[1..] == [] && rest == ['}'] + x && rest[1..] == x && [entries[0]] == entries;
    } else {
      NextEntries(entries[1..], x);
      EntriesReadBack(entries[1..], x);
      assert [entries[0]] + entries[1..] == entries;
    }
  }

  lemma NextEntries(entries: seq<Entry>, x: string)
    requires entries != []
    ensures var rest := EntriesText(entries, false) + x; rest != "" && rest[0] == ',' && rest[1..] == EntriesText(entries, true) + x
  {
    EntriesPeel(entries, false, x);
    EntriesPeel(entries, true, x);
    var more := EntryText(entries[0], EntriesText(entries[1..], false) + x);
    assert [] + more == more && ([','] + more)[1..] == more;
  }

  /** Canonical text is JSON, and reading it gives back the value with its keys in order. */
  lemma CanonicalReadsBack(le: KeyOrder, v: Json)
    ensures Read(Canonical(le, v)) == Some(Canon(le, v))
  {
    ValueReadsBack(Canon(le, v), "");
    assert Canonical(le, v) + "" == Canonical(le, v);
  }
}
