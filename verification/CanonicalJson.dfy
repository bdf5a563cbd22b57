/**
 * Canonical JSON text (packages/artifacts/src/fingerprint.ts): it tells values apart, and forgets
 * nothing but the order of object keys. The key comparison is a parameter.
 */
module CanonicalJson {
  import opened Sorting
  import opened JsonNumbers

  /** A JSON value; an object lists its entries in insertion order. */
  datatype Json = JNull | JBool(b: bool) | JNumber(n: Number) | JString(s: string)
                | JArray(items: seq<Json>) | JObject(entries: seq<Entry>)

  datatype Entry = Entry(key: string, value: Json)

  type KeyOrder = (string, string) -> bool

  // ---- Printing ----

  const HEX := "0123456789abcdef"

  /** QuoteJSONString of ECMAScript for one character. */
  function EscapeChar(c: char): string {
    var n := c as int;
    if c == '\"' then ['\\', '\"'] else if c == '\\' then ['\\', '\\']
    else if n == 8 then ['\\', 'b'] else if n == 9 then ['\\', 't'] else if n == 10 then ['\\', 'n']
    else if n == 12 then ['\\', 'f'] else if n == 13 then ['\\', 'r']
    else if n < 32 then ['\\', 'u', '0', '0', HEX[n / 16], HEX[n % 16]]
    else [c]
  }

  /** The characters of a quoted string and its closing quote. */
  function EscapedText(s: string): string {
    if s == "" then ['\"'] else EscapeChar(s[0]) + EscapedText(s[1..])
  }

  function Quote(s: string): string { ['\"'] + EscapedText(s) }

  function Show(v: Json): string
    decreases v
  {
    match v
    case JNull => "null"
    case JBool(b) => if b then "true" else "false"
    case JNumber(n) => NumberText(n)
    case JString(s) => Quote(s)
    case JArray(items) => ['['] + ItemsText(items, true)
    case JObject(entries) => ['{'] + EntriesText(entries, true)
  }

  /** The items of an array, separated by commas, and its closing bracket. */
  function ItemsText(items: seq<Json>, first: bool): string
    decreases items
  {
    if items == [] then [']']
    else (if first then [] else [',']) + (Show(items[0]) + ItemsText(items[1..], false))
  }

  function EntriesText(entries: seq<Entry>, first: bool): string
    decreases entries
  {
    if entries == [] then ['}']
    else (if first then [] else [',']) + (Quote(entries[0].key) + ([':'] + (Show(entries[0].value) + EntriesText(entries[1..], false))))
  }

  // ---- Canonical order ----

  function ByKey(le: KeyOrder): (Entry, Entry) -> bool {
    (x: Entry, y: Entry) => le(x.key, y.key)
  }

  /** The value with the entries of every object sorted by key. */
  function Canon(le: KeyOrder, v: Json): Json
    decreases v
  {
    match v
    case JArray(items) => JArray(CanonItems(le, items))
    case JObject(entries) => JObject(StableSort(ByKey(le), CanonEntries(le, entries)))
    case _ => v
  }

  function CanonItems(le: KeyOrder, items: seq<Json>): (r: seq<Json>)
    ensures |r| == |items|
    decreases items
  {
    if items == [] then [] else [Canon(le, items[0])] + CanonItems(le, items[1..])
  }

  function CanonEntries(le: KeyOrder, entries: seq<Entry>): (r: seq<Entry>)
    ensures |r| == |entries|
    decreases entries
  {
    if entries == [] then [] else [Entry(entries[0].key, Canon(le, entries[0].value))] + CanonEntries(le, entries[1..])
  }

  /** canonicalJson. Sorting compares keys only, so entries may be sorted before or after they are printed. */
  function Canonical(le: KeyOrder, v: Json): string { Show(Canon(le, v)) }

  // ---- The text tells values apart ----

  /** What may follow a value inside a text. */
  predicate Stops(x: string) { x == "" || x[0] == ',' || x[0] == ']' || x[0] == '}' }

  lemma HexDiffers(a: nat, b: nat)
    requires a < 16 && b < 16 && HEX[a] == HEX[b]
    ensures a == b
  {}

  lemma EscapeCharDiffers(c: char, d: char, x: string, y: string)
    requires EscapeChar(c) + x == EscapeChar(d) + y
    ensures c == d && x == y
  {
    var s, t := EscapeChar(c), EscapeChar(d);
    assert (s + x)[0] == s[0] && (t + y)[0] == t[0];
    if s[0] == '\\' {
      assert (s + x)[1] == s[1] && (t + y)[1] == t[1];
      if |s| == 6 {
        assert (s + x)[4] == s[4] && (t + y)[4] == t[4] && (s + x)[5] == s[5] && (t + y)[5] == t[5];
        HexDiffers((c as int) / 16, (d as int) / 16);
        HexDiffers((c as int) % 16, (d as int) % 16);
      }
    }
    assert x == (s + x)[|s|..] && y == (t + y)[|t|..];
  }

  lemma {:induction false} QuoteDiffers(s: string, t: string, x: string, y: string)
    requires EscapedText(s) + x == EscapedText(t) + y
    ensures s == t && x == y
  {
    if s == "" || t == "" {
      OpenQuote(s, x);
      OpenQuote(t, y);
      TailsEqual(['\"'], x, y);
    } else {
      EscapedStep(s, x);
      EscapedStep(t, y);
      EscapeCharDiffers(s[0], t[0], EscapedText(s[1..]) + x, EscapedText(t[1..]) + y);
      QuoteDiffers(s[1..], t[1..], x, y);
      assert s == [s[0]] + s[1..] && t == [t[0]] + t[1..];
    }
  }

  lemma Regroup(a: string, b: string, x: string)
    ensures a + b + x == a + (b + x)
  {}

  lemma EscapedStep(s: string, x: string)
    requires s != ""
    ensures EscapedText(s) + x == EscapeChar(s[0]) + (EscapedText(s[1..]) + x)
  {
    Regroup(EscapeChar(s[0]), EscapedText(s[1..]), x);
  }

  lemma OpenQuote(s: string, x: string)
    ensures EscapedText(s) + x != "" && ((EscapedText(s) + x)[0] == '\"' <==> s == "")
  {
    if s != "" {
      EscapedStep(s, x);
      assert (EscapedText(s) + x)[0] == EscapeChar(s[0])[0];
    }
  }

  /** The first character shows what kind of value follows. */
  function Kind(v: Json): nat {
    match v
    case JNull => 0
    case JBool(b) => if b then 1 else 2
    case JNumber(_) => 3
    case JString(_) => 4
    case JArray(_) => 5
    case JObject(_) => 6
  }

  predicate Opens(k: nat, c: char) {
    match k
    case 0 => c == 'n'
    case 1 => c == 't'
    case 2 => c == 'f'
    case 3 => c == '-' || Digit(c)
    case 4 => c == '\"'
    case 5 => c == '['
    case _ => c == '{'
  }

  lemma ShowOpens(v: Json)
    ensures Show(v) != "" && Opens(Kind(v), Show(v)[0])
  {
    if v.JNumber? { NumberTextChars(v.n); }
  }

  lemma SameKind(a: Json, b: Json, x: string, y: string)
    requires Show(a) + x == Show(b) + y
    ensures Kind(a) == Kind(b)
  {
    ShowOpens(a);
    ShowOpens(b);
    assert (Show(a) + x)[0] == Show(a)[0] && (Show(b) + y)[0] == Show(b)[0];
  }

  lemma NumberDiffers(m: Number, n: Number, x: string, y: string)
    requires Stops(x) && Stops(y) && NumberText(m) + x == NumberText(n) + y && |NumberText(m)| <= |NumberText(n)|
    ensures m == n && x == y
  {
    var s, t := NumberText(m), NumberText(n);
    NumberTextChars(n);
    assert forall k :: 0 <= k < |t| ==> (s + x)[k] == t[k] && NumberChar(t[k]);
    assert x != "" ==> (s + x)[|s|] == x[0];
    assert s == (s + x)[..|s|] && t == (t + y)[..|t|];
    assert x == (s + x)[|s|..] && y == (t + y)[|t|..];
    NumberTextDiffers(m, n);
  }

  lemma TailsEqual(a: string, x: string, y: string)
    requires a + x == a + y
    ensures x == y
  {
    assert x == (a + x)[|a|..] && y == (a + y)[|a|..];
  }

  lemma ListsStop(items: seq<Json>, entries: seq<Entry>, x: string)
    ensures Stops(ItemsText(items, false) + x) && Stops(EntriesText(entries, false) + x)
  {
    assert ItemsText(items, false)[0] == if items == [] then ']' else ',';
    assert EntriesText(entries, false)[0] == if entries == [] then '}' else ',';
  }

  /** A text determines the value it starts with, and where that value ends. */
  lemma {:induction false} ShowDiffers(a: Json, b: Json, x: string, y: string)
    requires Stops(x) && Stops(y) && Show(a) + x == Show(b) + y
    ensures a == b && x == y
    decreases a
  {
    SameKind(a, b, x, y);
    match a
    case JNull => TailsEqual("null", x, y);
    case JBool(v) => TailsEqual(Show(a), x, y);
    case JNumber(n) => if |NumberText(n)| <= |NumberText(b.n)| { NumberDiffers(n, b.n, x, y); } else { NumberDiffers(b.n, n, y, x); }
    case JString(s) =>
      Peel('\"', EscapedText(s), EscapedText(b.s), x, y);
      QuoteDiffers(s, b.s, x, y);
    case JArray(items) =>
      Peel('[', ItemsText(items, true), ItemsText(b.items, true), x, y);
      ItemsDiffer(items, b.items, true, x, y);
    case JObject(entries) =>
      Peel('{', EntriesText(entries, true), EntriesText(b.entries, true), x, y);
      EntriesDiffer(entries, b.entries, true, x, y);
  }

  lemma Peel(c: char, s: string, t: string, x: string, y: string)
    requires [c] + s + x == [c] + t + y
    ensures s + x == t + y
  {
    assert [c] + s + x == [c] + (s + x) && [c] + t + y == [c] + (t + y);
    TailsEqual([c], s + x, t + y);
  }

  lemma {:induction false} ItemsDiffer(a: seq<Json>, b: seq<Json>, first: bool, x: string, y: string)
    requires ItemsText(a, first) + x == ItemsText(b, first) + y
    ensures a == b && x == y
    decreases a
  {
    if a == [] || b == [] {
      ItemsOpen(a, first, x);
      ItemsOpen(b, first, y);
      TailsEqual([']'], x, y);
    } else {
      ItemsPeel(a, first, x);
      ItemsPeel(b, first, y);
      TailsEqual(if first then [] else [','], Show(a[0]) + (ItemsText(a[1..], false) + x),
                 Show(b[0]) + (ItemsText(b[1..], false) + y));
      ListsStop(a[1..], [], x);
      ListsStop(b[1..], [], y);
      ShowDiffers(a[0], b[0], ItemsText(a[1..], false) + x, ItemsText(b[1..], false) + y);
      ItemsDiffer(a[1..], b[1..], false, x, y);
      assert a == [a[0]] + a[1..] && b == [b[0]] + b[1..];
    }
  }

  predicate StartsWith(s: string, c: char) { s != "" && s[0] == c }

  lemma ItemsOpen(a: seq<Json>, first: bool, x: string)
    ensures StartsWith(ItemsText(a, first) + x, ']') <==> a == []
  {
    if a != [] {
      ShowOpens(a[0]);
      ItemsPeel(a, first, x);
    }
  }

  lemma ItemsPeel(a: seq<Json>, first: bool, x: string)
    requires a != []
    ensures ItemsText(a, first) + x ==
            (if first then [] else [',']) + (Show(a[0]) + (ItemsText(a[1..], false) + x))
  {
    Associate(if first then [] else [','], Show(a[0]), ItemsText(a[1..], false), x);
  }

  lemma Associate(p: string, s: string, t: string, x: string)
    ensures p + (s + t) + x == p + (s + (t + x))
  {}

  lemma {:induction false} EntriesDiffer(a: seq<Entry>, b: seq<Entry>, first: bool, x: string, y: string)
    requires EntriesText(a, first) + x == EntriesText(b, first) + y
    ensures a == b && x == y
    decreases a
  {
    if a == [] || b == [] {
      EntriesOpen(a, first, x);
      EntriesOpen(b, first, y);
      TailsEqual(['}'], x, y);
    } else {
      var restA, restB := EntriesText(a[1..], false) + x, EntriesText(b[1..], false) + y;
      EntriesPeel(a, first, x);
      EntriesPeel(b, first, y);
      var s, t := EntryText(a[0], restA), EntryText(b[0], restB);
      TailsEqual(if first then [] else [','], s, t);
      ListsStop([], a[1..], x);
      ListsStop([], b[1..], y);
      KeyDiffers(a[0], b[0], restA, restB);
      ShowDiffers(a[0].value, b[0].value, restA, restB);
      EntriesDiffer(a[1..], b[1..], false, x, y);
      assert a == [a[0]] + a[1..] && b == [b[0]] + b[1..];
    }
  }

  function EntryText(e: Entry, rest: string): string {
    Quote(e.key) + ([':'] + (Show(e.value) + rest))
  }

  lemma KeyDiffers(a: Entry, b: Entry, x: string, y: string)
    requires EntryText(a, x) == EntryText(b, y)
    ensures a.key == b.key && Show(a.value) + x == Show(b.value) + y
  {
    Peel('\"', EscapedText(a.key), EscapedText(b.key), [':'] + (Show(a.value) + x), [':'] + (Show(b.value) + y));
    QuoteDiffers(a.key, b.key, [':'] + (Show(a.value) + x), [':'] + (Show(b.value) + y));
    TailsEqual([':'], Show(a.value) + x, Show(b.value) + y);
  }

  lemma EntriesOpen(a: seq<Entry>, first: bool, x: string)
    ensures StartsWith(EntriesText(a, first) + x, '}') <==> a == []
  {
    if a != [] && first { assert EntriesText(a, first)[0] == '\"'; }
  }

  lemma EntriesPeel(a: seq<Entry>, first: bool, x: string)
    requires a != []
    ensures EntriesText(a, first) + x ==
            (if first then [] else [',']) + EntryText(a[0], EntriesText(a[1..], false) + x)
  {}

  /** Two values print the same canonical text exactly when they have the same canonical form. */
  lemma TextIsCanonicalForm(le: KeyOrder, a: Json, b: Json)
    ensures Canonical(le, a) == Canonical(le, b) <==> Canon(le, a) == Canon(le, b)
  {
    if Canonical(le, a) == Canonical(le, b) {
      assert Canonical(le, a) + "" == Canonical(le, b) + "";
      ShowDiffers(Canon(le, a), Canon(le, b), "", "");
    }
  }

  // ---- Equal up to key order ----

  ghost predicate DistinctKeys(entries: seq<Entry>) {
    forall j, k :: 0 <= j < k < |entries| ==> entries[j].key != entries[k].key
  }

  /** No object names a key twice. */
  ghost predicate WellFormed(v: Json)
    decreases v
  {
    match v
    case JArray(items) => forall k :: 0 <= k < |items| ==> WellFormed(items[k])
    case JObject(entries) => DistinctKeys(entries) && forall k :: 0 <= k < |entries| ==> WellFormed(entries[k].value)
    case _ => true
  }

  ghost predicate Same(a: Json, b: Json)
    decreases a
  {
    match (a, b)
    case (JArray(x), JArray(y)) => |x| == |y| && forall k :: 0 <= k < |x| ==> Same(x[k], y[k])
    case (JObject(x), JObject(y)) =>
      |x| == |y| && forall k :: 0 <= k < |x| ==> SamePartner(x[k], y)
    case _ => a == b
  }

  /** An entry of the same key with the same value. */
  ghost predicate SamePartner(e: Entry, y: seq<Entry>)
    decreases e
  {
    exists m :: 0 <= m < |y| && y[m].key == e.key && Same(e.value, y[m].value)
  }

  ghost predicate Antisymmetric(le: KeyOrder) { forall k, l :: le(k, l) && le(l, k) ==> k == l }

  lemma {:induction false} CanonItemsAt(le: KeyOrder, items: seq<Json>, k: nat)
    requires k < |items|
    ensures CanonItems(le, items)[k] == Canon(le, items[k])
  {
    if k > 0 { CanonItemsAt(le, items[1..], k - 1); }
  }

  lemma {:induction false} CanonEntriesAt(le: KeyOrder, entries: seq<Entry>, k: nat)
    requires k < |entries|
    ensures CanonEntries(le, entries)[k] == Entry(entries[k].key, Canon(le, entries[k].value))
  {
    if k > 0 { CanonEntriesAt(le, entries[1..], k - 1); }
  }

  lemma CanonKeepsKeys(le: KeyOrder, entries: seq<Entry>)
    requires DistinctKeys(entries)
    ensures DistinctKeys(CanonEntries(le, entries))
  {
    forall j, k | 0 <= j < k < |entries| ensures CanonEntries(le, entries)[j].key != CanonEntries(le, entries)[k].key {
      CanonEntriesAt(le, entries, j);
      CanonEntriesAt(le, entries, k);
    }
  }

  /** b without its element at i. */
  lemma TakenOut(b: seq<Entry>, i: nat) returns (rest: seq<Entry>)
    requires i < |b| && DistinctKeys(b)
    ensures |rest| == |b| - 1 && DistinctKeys(rest) && multiset(b) == multiset(rest) + multiset{b[i]}
    ensures forall x :: x in b && x != b[i] ==> x in rest
  {
    rest := b[..i] + b[i + 1..];
    assert b == b[..i] + [b[i]] + b[i + 1..];
  }

  /** Two lists without repetition of the same length, one within the other, have the same elements. */
  lemma {:induction false} SameElements(a: seq<Entry>, b: seq<Entry>)
    requires DistinctKeys(a) && DistinctKeys(b) && |a| == |b| && forall x :: x in a ==> x in b
    ensures multiset(a) == multiset(b)
  {
    if a != [] {
      var n := |a| - 1;
      assert a[n] in a;
      var i :| 0 <= i < |b| && b[i] == a[n];
      var rest := TakenOut(b, i);
      assert a == a[..n] + [a[n]];
      forall x | x in a[..n] ensures x in rest {
        assert x in a && x.key != a[n].key;
      }
      SameElements(a[..n], rest);
    }
  }

  lemma ByKeyIsOrder(le: KeyOrder)
    requires TotalPreorder(le)
    ensures TotalPreorder(ByKey(le))
  {
    var f := ByKey(le);
    assert forall x, y :: f(x, y) == le(x.key, y.key);
  }

  /** With a comparison that ties no two keys, sorting forgets the order of entries. */
  lemma SortForgetsOrder(le: KeyOrder, a: seq<Entry>, b: seq<Entry>)
    requires TotalPreorder(le) && Antisymmetric(le) && DistinctKeys(a) && multiset(a) == multiset(b)
    ensures StableSort(ByKey(le), a) == StableSort(ByKey(le), b)
  {
    ByKeyIsOrder(le);
    StableSortSorts(ByKey(le), a);
    StableSortSorts(ByKey(le), b);
    var s := StableSort(ByKey(le), a);
    forall x, y | x in s && y in s && ByKey(le)(x, y) && ByKey(le)(y, x) ensures x == y {
      assert x in multiset(a) && y in multiset(a);
      var j :| 0 <= j < |a| && a[j] == x;
      var k :| 0 <= k < |a| && a[k] == y;
      assert x.key == y.key;
      assert j == k;
    }
    SortedIsUnique(ByKey(le), s, StableSort(ByKey(le), b));
  }

  /** An entry of the other value with the same key and the same canonical value. */
  predicate Partner(le: KeyOrder, e: Entry, f: Entry) { f.key == e.key && Canon(le, f.value) == Canon(le, e.value) }

  lemma PartnerAt(le: KeyOrder, x: seq<Entry>, y: seq<Entry>, k: nat) returns (m: nat)
    requires k < |x| && multiset(CanonEntries(le, x)) == multiset(CanonEntries(le, y))
    ensures m < |y| && Partner(le, x[k], y[m])
  {
    m := PositionIn(CanonEntries(le, x), CanonEntries(le, y), k);
    CanonEntriesAt(le, x, k);
    CanonEntriesAt(le, y, m);
  }

  lemma PositionIn(s: seq<Entry>, t: seq<Entry>, k: nat) returns (m: nat)
    requires k < |s| && multiset(s) == multiset(t)
    ensures m < |t| && t[m] == s[k]
  {
    assert s[k] in multiset(t);
    m :| 0 <= m < |t| && t[m] == s[k];
  }

  ghost predicate HasPartner(le: KeyOrder, e: Entry, y: seq<Entry>) {
    exists m :: 0 <= m < |y| && Partner(le, e, y[m])
  }

  lemma EntryHasPartner(le: KeyOrder, x: seq<Entry>, y: seq<Entry>, k: nat)
    requires k < |x| && multiset(CanonEntries(le, x)) == multiset(CanonEntries(le, y))
    ensures HasPartner(le, x[k], y)
  {
    var m := PartnerAt(le, x, y, k);
  }

  /** Equal canonical forms come from values that are equal up to key order. */
  lemma {:induction false} CanonImpliesSame(le: KeyOrder, a: Json, b: Json)
    requires Canon(le, a) == Canon(le, b)
    ensures Same(a, b)
    decreases a, 1
  {
    match (a, b)
    case (JArray(x), JArray(y)) => CanonItemsImplySame(le, x, y);
    case (JObject(x), JObject(y)) =>
      SameSortSameElements(ByKey(le), CanonEntries(le, x), CanonEntries(le, y));
      CanonEntriesImplySame(le, x, y);
    case _ =>
  }

  lemma {:induction false} CanonItemsImplySame(le: KeyOrder, x: seq<Json>, y: seq<Json>)
    requires CanonItems(le, x) == CanonItems(le, y)
    ensures |x| == |y| && forall k :: 0 <= k < |x| ==> Same(x[k], y[k])
    decreases x, 0
  {
    assert |CanonItems(le, x)| == |CanonItems(le, y)|;
    forall k | 0 <= k < |x| ensures Same(x[k], y[k]) {
      CanonItemsAt(le, x, k);
      CanonItemsAt(le, y, k);
      CanonImpliesSame(le, x[k], y[k]);
    }
  }

  lemma {:induction false} CanonEntriesImplySame(le: KeyOrder, x: seq<Entry>, y: seq<Entry>)
    requires multiset(CanonEntries(le, x)) == multiset(CanonEntries(le, y))
    ensures forall k :: 0 <= k < |x| ==> SamePartner(x[k], y)
    decreases x, 0
  {
    forall k | 0 <= k < |x| ensures SamePartner(x[k], y) {
      EntryHasPartner(le, x, y, k);
      var m :| 0 <= m < |y| && Partner(le, x[k], y[m]);
      CanonImpliesSame(le, x[k].value, y[m].value);
    }
  }

  /** Values that are equal up to key order have one canonical form when the comparison ties no keys. */
  lemma {:induction false} SameImpliesCanon(le: KeyOrder, a: Json, b: Json)
    requires TotalPreorder(le) && Antisymmetric(le) && WellFormed(a) && WellFormed(b) && Same(a, b)
    ensures Canon(le, a) == Canon(le, b)
    decreases a
  {
    match (a, b)
    case (JArray(x), JArray(y)) =>
      forall k | 0 <= k < |x| ensures CanonItems(le, x)[k] == CanonItems(le, y)[k] {
        CanonItemsAt(le, x, k);
        CanonItemsAt(le, y, k);
        SameImpliesCanon(le, x[k], y[k]);
      }
    case (JObject(x), JObject(y)) =>
      var s, t := CanonEntries(le, x), CanonEntries(le, y);
      CanonKeepsKeys(le, x);
      CanonKeepsKeys(le, y);
      forall e | e in s ensures e in t {
        var k :| 0 <= k < |s| && s[k] == e;
        CanonEntriesAt(le, x, k);
        assert SamePartner(x[k], y);
        var m :| 0 <= m < |y| && y[m].key == x[k].key && Same(x[k].value, y[m].value);
        SameImpliesCanon(le, x[k].value, y[m].value);
        CanonEntriesAt(le, y, m);
        assert t[m] == e;
      }
      SameElements(s, t);
      SortForgetsOrder(le, s, t);
    case _ =>
  }

  /** Whatever the comparison, equal texts come from values that are equal up to key order. */
  lemma CanonicalTellsApart(le: KeyOrder, a: Json, b: Json)
    requires Canonical(le, a) == Canonical(le, b)
    ensures Same(a, b)
  {
    TextIsCanonicalForm(le, a, b);
    CanonImpliesSame(le, a, b);
  }

  /** With a comparison that ties no keys, two values print the same text exactly when they are equal up to key order. */
  lemma CanonicalIffSame(le: KeyOrder, a: Json, b: Json)
    requires TotalPreorder(le) && Antisymmetric(le) && WellFormed(a) && WellFormed(b)
    ensures Canonical(le, a) == Canonical(le, b) <==> Same(a, b)
  {
    if Same(a, b) { SameImpliesCanon(le, a, b); } else if Canonical(le, a) == Canonical(le, b) { CanonicalTellsApart(le, a, b); }
  }

  ghost predicate ForgetsKeyOrder(le: KeyOrder) {
    forall a, b :: WellFormed(a) && WellFormed(b) && Same(a, b) ==> Canonical(le, a) == Canonical(le, b)
  }

  function Pair(k: string, l: string): Json { JObject([Entry(k, JNull), Entry(l, JNull)]) }

  lemma TiedKeysKeepOrder(le: KeyOrder, k: string, l: string)
    requires le(k, l)
    ensures Canon(le, Pair(k, l)) == Pair(k, l)
  {
    var entries := [Entry(k, JNull), Entry(l, JNull)];
    assert entries[1..] == [Entry(l, JNull)] && [Entry(l, JNull)][1..] == [];
    assert CanonEntries(le, [Entry(l, JNull)]) == [Entry(l, JNull)];
    assert CanonEntries(le, entries) == entries;
    StableSortOfSorted(ByKey(le), entries);
  }

  /**
   * The text is independent of key order exactly when the comparison ties no two different keys;
   * a locale comparison that finds two keys equivalent leaves them in insertion order.
   */
  lemma KeyOrderForgottenIff(le: KeyOrder)
    requires TotalPreorder(le)
    ensures ForgetsKeyOrder(le) <==> Antisymmetric(le)
  {
    if Antisymmetric(le) {
      forall a, b | WellFormed(a) && WellFormed(b) && Same(a, b) ensures Canonical(le, a) == Canonical(le, b) {
        CanonicalIffSame(le, a, b);
      }
    } else {
      var k, l :| le(k, l) && le(l, k) && k != l;
      TiedPairsDiffer(le, k, l);
      PairsAreSame(k, l);
    }
  }

  lemma TiedPairsDiffer(le: KeyOrder, k: string, l: string)
    requires le(k, l) && le(l, k) && k != l
    ensures Canonical(le, Pair(k, l)) != Canonical(le, Pair(l, k))
  {
    TiedKeysKeepOrder(le, k, l);
    TiedKeysKeepOrder(le, l, k);
    TextIsCanonicalForm(le, Pair(k, l), Pair(l, k));
    assert Pair(k, l).entries[0] != Pair(l, k).entries[0];
  }

  lemma PairsAreSame(k: string, l: string)
    requires k != l
    ensures Same(Pair(k, l), Pair(l, k)) && WellFormed(Pair(k, l)) && WellFormed(Pair(l, k))
  {
    var x, y := [Entry(k, JNull), Entry(l, JNull)], [Entry(l, JNull), Entry(k, JNull)];
    assert Same(JNull, JNull);
    assert SamePartner(x[0], y) by { assert y[1].key == k; }
    assert SamePartner(x[1], y) by { assert y[0].key == l; }
  }

  // ---- Comparisons of both kinds exist ----

  /** By code points, as characters compare here; code units differ above U+FFFF only. It ties no keys. */
  predicate ByCodePoints(s: string, t: string) {
    s == "" || (t != "" && (s[0] < t[0] || (s[0] == t[0] && ByCodePoints(s[1..], t[1..]))))
  }

  lemma {:induction false} CodePointsCompare(s: string, t: string, u: string)
    ensures ByCodePoints(s, t) || ByCodePoints(t, s)
    ensures ByCodePoints(s, t) && ByCodePoints(t, u) ==> ByCodePoints(s, u)
    ensures ByCodePoints(s, t) && ByCodePoints(t, s) ==> s == t
  {
    if s != "" && t != "" {
      CodePointsCompare(s[1..], t[1..], if u == "" then u else u[1..]);
      if s[1..] == t[1..] && s[0] == t[0] { assert s == [s[0]] + s[1..] && t == [t[0]] + t[1..]; }
    }
  }

  /** Under the comparison by code points, texts are equal exactly when values are equal up to key order. */
  lemma CodePointsForgetKeyOrder()
    ensures ForgetsKeyOrder(ByCodePoints)
  {
    forall s, t, u
      ensures ByCodePoints(s, t) || ByCodePoints(t, s)
      ensures ByCodePoints(s, t) && ByCodePoints(t, u) ==> ByCodePoints(s, u)
      ensures ByCodePoints(s, t) && ByCodePoints(t, s) ==> s == t
    {
      CodePointsCompare(s, t, u);
    }
    KeyOrderForgottenIff(ByCodePoints);
  }
}
