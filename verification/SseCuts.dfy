/**
 * Exactly which texts the stream parser of packages/ai/src/sse.ts reads alike however they are cut.
 */
module SseCuts {
  import opened Basics
  import opened Sse

  predicate HasBlankLine(t: string) { Boundary(t) < |t| }

  /** The text once every carriage return that stands, through others, before a line feed is gone. */
  function Drop(t: string): string {
    if t == "" then ""
    else
      var d := Drop(t[1..]);
      if t[0] == '\r' && d != "" && d[0] == '\n' then d else [t[0]] + d
  }

  /** However the text is cut, and whatever parses its blocks, it yields the events of the whole. */
  ghost predicate ReadsAlike(text: string) {
    forall parse: BlockParser, chunks: seq<string>, tail: string ::
      Concat(chunks) + tail == text && Parsable(parse, text) ==> Stream(parse, chunks, tail) == Ok(OneShot(parse, text))
  }

  /**
   * Normalising once leaves no carriage return before a line feed, or only behind the last blank line, where
   * nothing but white space follows and dropping them makes no blank line.
   */
  ghost predicate CutsAreHarmless(text: string) {
    var t := Normalize(text);
    CrLfFree(t) || (CrLfFree(Join(Blocks(t))) && Calm(Rest(t)))
  }

  predicate Calm(t: string) { Blank(t) && !HasBlankLine(Drop(t)) }

  // ---- Text ----

  lemma Regroup(x: string, y: string, z: string)
    ensures x + (y + z) == (x + y) + z
  {}

  lemma BlankLineFound(t: string, k: nat)
    requires BlankLineAt(t, k)
    ensures Boundary(t) <= k && HasBlankLine(t)
  {}

  lemma {:induction false} RestHasNone(t: string)
    ensures !HasBlankLine(Rest(t))
    decreases |t|
  {
    if HasBlankLine(t) { RestHasNone(t[Boundary(t) + 2..]); }
  }

  lemma {:induction false} DropNormalized(x: string, y: string)
    ensures Drop(Normalize(x) + y) == Drop(x + y)
  {
    if x != "" {
      var tail := x[Skip(x)..];
      NormalizeStep(x);
      DropNormalized(tail, y);
      assert (Normalize(x) + y)[0] == Head(x) && (Normalize(x) + y)[1..] == Normalize(tail) + y;
      assert (x + y)[0] == x[0] && (x + y)[1..] == x[1..] + y;
      if CrLfAt(x, 0) {
        assert (x[1..] + y)[0] == '\n' && (x[1..] + y)[1..] == tail + y;
        assert Drop(x[1..] + y) == ['\n'] + Drop(tail + y);
      }
    }
  }

  lemma {:induction false} DropOfFree(t: string)
    requires CrLfFree(t)
    ensures Drop(t) == t && (t != "" ==> Drop(t)[0] == t[0])
  {
    if t != "" {
      PartsHaveNone(t, 1);
      DropOfFree(t[1..]);
      assert !CrLfAt(t, 0);
      assert t == [t[0]] + t[1..];
    }
  }

  /** Blank lines stay when carriage returns go. */
  lemma {:induction false} BlankLineStays(t: string, k: nat)
    requires BlankLineAt(t, k)
    ensures HasBlankLine(Drop(t))
  {
    if k == 0 {
      assert t[1..][0] == '\n' && Drop(t[1..])[0] == '\n';
      BlankLineFound(Drop(t), 0);
    } else {
      BlankLineStays(t[1..], k - 1);
      var d := Drop(t[1..]);
      if Drop(t) != d { BlankLineFound(Drop(t), Boundary(d) + 1); }
    }
  }

  lemma {:induction false} BlankNormalized(t: string)
    ensures Blank(Normalize(t)) <==> Blank(t)
  {
    if t != "" {
      var tail := t[Skip(t)..];
      NormalizeStep(t);
      BlankNormalized(tail);
      assert Normalize(t)[0] == Head(t) && Normalize(t)[1..] == Normalize(tail);
      assert forall k :: 0 <= k < |tail| ==> tail[k] == t[k + Skip(t)];
      assert forall k :: 0 <= k < |Normalize(tail)| ==> Normalize(tail)[k] == Normalize(t)[k + 1];
      assert forall k :: Skip(t) <= k < |t| ==> t[k] == tail[k - Skip(t)];
      assert forall k :: 1 <= k < |Normalize(t)| ==> Normalize(t)[k] == Normalize(tail)[k - 1];
    }
  }

  lemma HeadAlone(x: string, y: string)
    requires x != "" && x[|x| - 1] != '\r'
    ensures Skip(x + y) == Skip(x) && Head(x + y) == Head(x) && (x + y)[Skip(x)..] == x[Skip(x)..] + y
  {}

  /** Where no carriage return ends the front, normalising goes piece by piece. */
  lemma {:induction false} NormalizeApart(x: string, y: string)
    requires x == "" || x[|x| - 1] != '\r'
    ensures Normalize(x + y) == Normalize(x) + Normalize(y)
  {
    if x == "" {
      assert x + y == y;
    } else {
      var tail := x[Skip(x)..];
      HeadAlone(x, y);
      NormalizeStep(x);
      NormalizeStep(x + y);
      NormalizeApart(tail, y);
      assert Normalize(x) + Normalize(y) == [Head(x)] + (Normalize(tail) + Normalize(y));
    }
  }

  lemma {:induction false} NormalizeKeepsLast(x: string)
    requires x != "" && x[|x| - 1] != '\r'
    ensures Normalize(x) != "" && Normalize(x)[|Normalize(x)| - 1] == x[|x| - 1]
  {
    NormalizeStep(x);
    var tail := x[Skip(x)..];
    if tail != "" { NormalizeKeepsLast(tail); }
  }

  lemma FrontStep(t: string, k: nat)
    requires t != "" && Skip(t) + k <= |t|
    ensures var front := t[..Skip(t) + k];
            front != "" && Skip(front) == Skip(t) && Head(front) == Head(t) && front[Skip(t)..] == t[Skip(t)..][..k]
    ensures t[Skip(t) + k..] == t[Skip(t)..][k..]
  {}

  /** Every front of the normalised text comes from a front of the text. */
  lemma {:induction false} RawCut(t: string, n: nat) returns (m: nat)
    requires n <= |Normalize(t)|
    ensures m <= |t| && Normalize(t[..m]) == Normalize(t)[..n] && Normalize(t[m..]) == Normalize(t)[n..]
  {
    if n == 0 {
      m := 0;
      assert t[0..] == t;
    } else {
      var tail := t[Skip(t)..];
      NormalizeStep(t);
      var k := RawCut(tail, n - 1);
      m := Skip(t) + k;
      FrontStep(t, k);
      NormalizeStep(t[..m]);
      TakeMore(Head(t), Normalize(tail), n);
    }
  }

  lemma TakeMore(c: char, s: string, n: nat)
    requires 0 < n <= |s| + 1
    ensures ([c] + s)[..n] == [c] + s[..n - 1] && ([c] + s)[n..] == s[n - 1..]
  {}

  lemma {:induction false} JoinEndsInBlankLine(blocks: seq<string>)
    requires blocks != []
    ensures var j := Join(blocks); |j| >= 2 && j[|j| - 1] == '\n' && j[|j| - 2] == '\n'
  {
    if |blocks| > 1 {
      JoinEndsInBlankLine(blocks[1..]);
    } else {
      assert Join(blocks[1..]) == "";
    }
  }

  // ---- Harmless cuts ----

  /** Calm white space stays calm, and yields nothing, while it is read. */
  lemma CalmStep(b: string, c: string, more: string)
    requires Calm(b + c + more)
    ensures !HasBlankLine(Normalize(b + c)) && Calm(Normalize(b + c) + more)
  {
    var u := Normalize(b + c);
    DropNormalized(b + c, more);
    assert forall k :: 0 <= k < |b + c| ==> (b + c)[k] == (b + c + more)[k];
    assert forall k :: 0 <= k < |more| ==> more[k] == (b + c + more)[k + |b + c|];
    BlankNormalized(b + c);
    if HasBlankLine(u) {
      assert BlankLineAt(u + more, Boundary(u));
      BlankLineStays(u + more, Boundary(u));
    }
  }

  /** A text whose blocks are complete, before calm white space. */
  ghost predicate Complete(parse: BlockParser, a: string) {
    Fine(parse, a) && Rest(Normalize(a)) == "" && (a == "" || a[|a| - 1] == '\n')
  }

  /** What the parser stands for after the front p of the text a + q. */
  ghost predicate StandsBefore(parse: BlockParser, a: string, q: string, s: Parser, p: string) {
    if |p| <= |a| then Stands(parse, s, p)
    else s.terminal == Prefix(parse, a).terminal && (!s.terminal ==> |p| <= |a + q| && Calm(s.buffer + (a + q)[|p|..]))
  }

  function FoundBefore(parse: BlockParser, a: string, p: string): seq<StreamEvent> {
    if |p| <= |a| then Found(parse, p) else Found(parse, a)
  }

  /** A chunk of calm white space. */
  lemma CalmPush(parse: BlockParser, s: Parser, c: string, more: string)
    requires !s.terminal && Calm(s.buffer + c + more)
    ensures Push(parse, s, c) == (Parser(Normalize(s.buffer + c), false), Ok([])) && Calm(Normalize(s.buffer + c) + more)
  {
    CalmStep(s.buffer, c, more);
  }

  /** The chunk that leads over from the blocks to the white space. */
  lemma CrossingPush(parse: BlockParser, a: string, p: string, c: string, q: string)
    requires Complete(parse, a) && p + c == a && !Prefix(parse, p).terminal && !HasBlankLine(Normalize(q))
    ensures var (s, r) := Push(parse, Prefix(parse, p), c + q);
            && r.Ok? && Found(parse, a) == Found(parse, p) + r.value
            && s.terminal == Prefix(parse, a).terminal && (!s.terminal ==> s.buffer == Normalize(q))
  {
    PrefixIsFine(parse, p, c);
    PushFollowsText(parse, p, c);
    ChunkAdds(p, c);
    var b := Rest(Normalize(p));
    var x := Normalize(b + c);
    BlocksParse(parse, Blocks(Normalize(p)), Blocks(x));
    EventsGoOn(parse, Blocks(Normalize(p)), Blocks(x));
    if c != "" { assert (b + c)[|b + c| - 1] == a[|a| - 1]; } else { assert p + c == p && b + c == b; }
    CompletedByChunk(parse, b, c, q);
  }

  lemma AllBlocks(x: string)
    requires Rest(x) == ""
    ensures x == Join(Blocks(x))
  {
    BlocksJoin(x);
    assert Join(Blocks(x)) + "" == Join(Blocks(x));
  }

  lemma CompletedByChunk(parse: BlockParser, b: string, c: string, q: string)
    requires b + c == "" || (b + c)[|b + c| - 1] != '\r'
    requires Rest(Normalize(b + c)) == "" && !HasBlankLine(Normalize(q)) && ParsesOn(parse, Blocks(Normalize(b + c)))
    ensures var x, (s, r) := Normalize(b + c), Drained(parse, b + (c + q), false);
            && r == Ok(EventsOf(parse, Blocks(x))) && s.terminal == Ends(parse, Blocks(x))
            && (!s.terminal ==> s.buffer == Normalize(q))
  {
    var x := Normalize(b + c);
    NormalizeApart(b + c, q);
    Regroup(b, c, q);
    AllBlocks(x);
    BlocksGoOn(x, Normalize(q));
    assert Blocks(x) + [] == Blocks(x);
    ConsumeParsesBlocks(parse, x + Normalize(q), []);
    assert [] + EventsOf(parse, Blocks(x)) == EventsOf(parse, Blocks(x));
  }

  lemma StepBefore(parse: BlockParser, a: string, q: string, s: Parser, p: string, c: string, more: string)
    requires Complete(parse, a) && Calm(q) && StandsBefore(parse, a, q, s, p) && p + c + more == a + q
    ensures var (t, r) := Push(parse, s, c);
            r.Ok? && StandsBefore(parse, a, q, t, p + c) && FoundBefore(parse, a, p + c) == FoundBefore(parse, a, p) + r.value
  {
    if |p + c| <= |a| {
      assert p + c == (a + q)[..|p + c|] == a[..|p + c|];
      PrefixIsFineFront(parse, a, p + c);
      PrefixIsFine(parse, p, c);
      PushStep(parse, s, p, c);
    } else if |p| <= |a| {
      StepAcross(parse, a, q, s, p, c, more);
    } else {
      assert (a + q)[|p|..] == c + more && (a + q)[|p + c|..] == more;
      if !s.terminal {
        assert s.buffer + (c + more) == s.buffer + c + more;
        CalmPush(parse, s, c, more);
      }
      assert Found(parse, a) + [] == Found(parse, a);
    }
  }

  lemma PrefixIsFineFront(parse: BlockParser, a: string, p: string)
    requires Fine(parse, a) && |p| <= |a| && p == a[..|p|]
    ensures Fine(parse, p)
  {
    assert a == p + a[|p|..];
    PrefixIsFine(parse, p, a[|p|..]);
  }

  lemma SplitAcross(a: string, q: string, p: string, c: string, more: string) returns (front: string, back: string)
    requires p + c + more == a + q && |p| <= |a| < |p + c|
    ensures a == p + front && c == front + back && q == back + more
  {
    var w, n := a + q, |a| - |p|;
    front, back := c[..n], c[n..];
    assert forall k :: 0 <= k < |a| ==> a[k] == w[k] == (p + front)[k];
    assert forall k :: 0 <= k < |q| ==> q[k] == w[|a| + k] == (back + more)[k];
  }

  /** A chunk that completes the blocks of a and begins its white space. */
  lemma PushAcross(parse: BlockParser, a: string, s: Parser, p: string, front: string, back: string, more: string)
    requires Complete(parse, a) && Calm(back + more) && Stands(parse, s, p) && a == p + front
    ensures var (t, r) := Push(parse, s, front + back);
            && r.Ok? && Found(parse, a) == Found(parse, p) + r.value
            && t.terminal == Prefix(parse, a).terminal && (!t.terminal ==> Calm(t.buffer + more))
  {
    assert "" + back == back && "" + back + more == back + more;
    CalmStep("", back, more);
    if s.terminal {
      PrefixIsFine(parse, p, front);
      PushStep(parse, s, p, front);
      assert Found(parse, p) + [] == Found(parse, p);
    } else {
      CrossingPush(parse, a, p, front, back);
    }
  }

  lemma StepAcross(parse: BlockParser, a: string, q: string, s: Parser, p: string, c: string, more: string)
    requires Complete(parse, a) && Calm(q) && Stands(parse, s, p) && p + c + more == a + q && |p| <= |a| < |p + c|
    ensures var (t, r) := Push(parse, s, c);
            r.Ok? && StandsBefore(parse, a, q, t, p + c) && Found(parse, a) == Found(parse, p) + r.value
  {
    var front, back := SplitAcross(a, q, p, c, more);
    PushAcross(parse, a, s, p, front, back, more);
    Remainder(a + q, p + c, more);
  }

  lemma Remainder(w: string, x: string, y: string)
    requires x + y == w
    ensures |x| <= |w| && w[|x|..] == y
  {}

  lemma {:induction false} EndedIsEmpty(parse: BlockParser, buffer: string, events: seq<StreamEvent>)
    ensures Consume(parse, buffer, events).1 ==> Consume(parse, buffer, events).0 == ""
    decreases |buffer|
  {
    var i := Boundary(buffer);
    if i < |buffer| && parse(buffer[..i]).Ok? && !HasDone(parse(buffer[..i]).value) {
      EndedIsEmpty(parse, buffer[i + 2..], events + parse(buffer[..i]).value);
    }
  }

  /** Blocks before calm white space are read alike however both are cut. */
  lemma CalmTextReadsAlike(parse: BlockParser, a: string, q: string, chunks: seq<string>, tail: string)
    requires Complete(parse, a) && Calm(q) && q != "" && Concat(chunks) + tail == a + q
    ensures Stream(parse, chunks, tail) == Ok(Found(parse, a))
  {
    var whole := Concat(chunks);
    var stands := (s: Parser, p: string) => StandsBefore(parse, a, q, s, p);
    var found := (p: string) => FoundBefore(parse, a, p);
    forall s, p, c, more | stands(s, p) && whole == p + c + more ensures StepHolds(parse, stands, found, s, p, c) {
      assert p + c + (more + tail) == a + q;
      StepBefore(parse, a, q, s, p, c, more + tail);
    }
    NothingRead(parse);
    assert "" + whole == whole;
    FeedInduction(parse, stands, found, Parser("", false), "", chunks, whole);
    var (s, r) := Feed(parse, Parser("", false), chunks);
    assert Found(parse, "") == [] && [] + r.value == r.value;
    assert whole + tail + "" == a + q;
    StepBefore(parse, a, q, s, whole, tail, "");
    if s.terminal {
      assert r.value + [] == r.value;
    } else {
      FinishIsPushAndFlush(parse, s, tail);
      EndedIsEmpty(parse, Normalize(s.buffer + tail), []);
      var t := Push(parse, s, tail).0;
      assert |whole + tail| > |a| && t.buffer + (a + q)[|whole + tail|..] == t.buffer;
    }
  }

  lemma HarmlessCuts(parse: BlockParser, text: string, chunks: seq<string>, tail: string)
    requires CutsAreHarmless(text) && Parsable(parse, text) && Concat(chunks) + tail == text
    ensures Stream(parse, chunks, tail) == Ok(OneShot(parse, text))
  {
    var t := Normalize(text);
    if CrLfFree(t) {
      if !NoCrCrLf(text) { CrCrLfLeavesCrLf(text); }
      ChunksDoNotMatter(parse, chunks, tail);
    } else {
      var a, q := CalmSplit(parse, text);
      CalmTextReadsAlike(parse, a, q, chunks, tail);
    }
  }

  lemma FrontOfBlocks(a: string)
    requires CrLfFree(Normalize(a)) && (Normalize(a) == "" || Normalize(a)[|Normalize(a)| - 1] == '\n')
    ensures NoCrCrLf(a) && (a == "" || a[|a| - 1] == '\n')
  {
    if !NoCrCrLf(a) { CrCrLfLeavesCrLf(a); }
    NormalizeHead(a);
    if a != "" && a[|a| - 1] == '\r' { LastReturnStays(a); }
    if a != "" && a[|a| - 1] != '\r' { NormalizeKeepsLast(a); }
  }

  lemma JoinedBlocks(t: string)
    ensures Blocks(Join(Blocks(t))) == Blocks(t) && Rest(Join(Blocks(t))) == ""
  {
    BlocksGoOn(t, "");
    assert Join(Blocks(t)) + "" == Join(Blocks(t)) && Blocks("") == [] && Blocks(t) + [] == Blocks(t);
  }

  /** The text before and behind its last blank line. */
  lemma SplitText(text: string) returns (a: string, q: string)
    ensures var t := Normalize(text); text == a + q && Normalize(a) == Join(Blocks(t)) && Normalize(q) == Rest(t)
  {
    var t := Normalize(text);
    var j := Join(Blocks(t));
    BlocksJoin(t);
    var m := RawCut(text, |j|);
    a, q := text[..m], text[m..];
    assert t[..|j|] == j && t[|j|..] == Rest(t);
  }

  lemma CalmIsCalm(q: string)
    requires Calm(Normalize(q))
    ensures Calm(q)
  {
    BlankNormalized(q);
    DropNormalized(q, "");
    assert Normalize(q) + "" == Normalize(q) && q + "" == q;
  }

  lemma CalmSplit(parse: BlockParser, text: string) returns (a: string, q: string)
    requires Parsable(parse, text) && CutsAreHarmless(text) && !CrLfFree(Normalize(text))
    ensures text == a + q && q != "" && Complete(parse, a) && Calm(q) && OneShot(parse, text) == Found(parse, a)
  {
    var t := Normalize(text);
    a, q := SplitText(text);
    JoinedBlocks(t);
    JoinEndsInNewline(Blocks(t));
    FrontOfBlocks(a);
    CalmIsCalm(q);
    assert a + "" == a;
    NormalizeHead(q);
  }

  lemma {:induction false} LastReturnStays(x: string)
    requires x != "" && x[|x| - 1] == '\r'
    ensures Normalize(x) != "" && Normalize(x)[|Normalize(x)| - 1] == '\r'
  {
    NormalizeStep(x);
    if |x| > 1 { LastReturnStays(x[Skip(x)..]); }
  }

  // ---- Harmful cuts, with the parser that yields every block as it is ----

  function Deltas(blocks: seq<string>): (es: seq<StreamEvent>)
    ensures |es| == |blocks| && forall k :: 0 <= k < |es| ==> es[k] == DeltaEvent(blocks[k])
  {
    seq(|blocks|, k requires 0 <= k < |blocks| => DeltaEvent(blocks[k]))
  }

  function Flushed(t: string): seq<StreamEvent> { if Blank(t) then [] else [DeltaEvent(t)] }

  lemma {:induction false} EchoEvents(blocks: seq<string>)
    ensures EventsOf(Echo(), blocks) == Deltas(blocks) && !Ends(Echo(), blocks) && ParsesOn(Echo(), blocks)
  {
    if blocks != [] {
      EchoEvents(blocks[1..]);
      assert EventsOf(Echo(), blocks) == [DeltaEvent(blocks[0])] + Deltas(blocks[1..]);
    }
  }

  lemma EchoDrained(buffer: string, flush: bool)
    ensures var u := Normalize(buffer);
            Drained(Echo(), buffer, flush) ==
            (Parser(if flush && !Blank(Rest(u)) then "" else Rest(u), false),
             Ok(if flush then Deltas(Blocks(u)) + Flushed(Rest(u)) else Deltas(Blocks(u))))
  {
    var u := Normalize(buffer);
    EchoEvents(Blocks(u));
    ConsumeParsesBlocks(Echo(), u, []);
    assert [] + Deltas(Blocks(u)) == Deltas(Blocks(u));
    assert Deltas(Blocks(u)) + [] == Deltas(Blocks(u));
  }

  lemma EchoOneShot(text: string)
    ensures var t := Normalize(text);
            Parsable(Echo(), text) && OneShot(Echo(), text) == Deltas(Blocks(t)) + Flushed(Rest(t))
  {
    EchoEvents(Blocks(Normalize(text)));
    assert Deltas(Blocks(Normalize(text))) + [] == Deltas(Blocks(Normalize(text)));
  }

  /** One push and the finish. */
  lemma EchoStream(p: string, tail: string)
    ensures var b := Rest(Normalize(p));
            var u := Normalize(b + tail);
            Stream(Echo(), [p], tail) == Ok(Deltas(Blocks(Normalize(p))) + (Deltas(Blocks(u)) + Flushed(Rest(u))))
  {
    assert "" + p == p;
    EchoDrained(p, false);
    FeedOne(Echo(), Parser("", false), p);
    EchoDrained(Rest(Normalize(p)) + tail, true);
  }

  /** A carriage return that survives inside a block or its blank line: the cut behind it moves that block's end. */
  lemma CutInBlocks(text: string)
    requires !CrLfFree(Join(Blocks(Normalize(text))))
    ensures !ReadsAlike(text)
  {
    var t := Normalize(text);
    var j := Join(Blocks(t));
    BlocksJoin(t);
    var k: nat :| CrLfAt(j, k);
    var m := RawCut(text, k + 2);
    var p, tail := text[..m], text[m..];
    assert Concat([p]) + tail == text;
    var b, v, u := ShorterBlock(t, k, p, tail);
    EchoStream(p, tail);
    EchoOneShot(text);
    var n := |Blocks(Normalize(p))|;
    assert OneShot(Echo(), text)[n] == DeltaEvent(Blocks(v)[0]);
    assert Stream(Echo(), [p], tail).value[n] == DeltaEvent(Blocks(u)[0]);
    assert Parsable(Echo(), text) && Stream(Echo(), [p], tail) != Ok(OneShot(Echo(), text));
  }

  /** What follows the blocks of the front, uncut (v) and cut (u): the first block of u is shorter. */
  lemma ShorterBlock(t: string, k: nat, p: string, tail: string) returns (b: string, v: string, u: string)
    requires CrLfAt(Join(Blocks(t)), k) && k + 2 <= |t| && Normalize(p) == t[..k + 2] && Normalize(tail) == t[k + 2..]
    ensures b == Rest(Normalize(p)) && u == Normalize(b + tail)
    ensures Blocks(t) == Blocks(Normalize(p)) + Blocks(v) && Blocks(v) != [] && Blocks(u) != []
    ensures |Blocks(u)[0]| < |Blocks(v)[0]|
  {
    FrontEndsInCrLf(t, k);
    assert t == Normalize(p) + Normalize(tail);
    b, v, u := ShorterBehind(t, Normalize(p), Normalize(tail), tail);
  }

  lemma ShorterBehind(t: string, f: string, y: string, tail: string) returns (b: string, v: string, u: string)
    requires t == f + y && y == Normalize(tail) && |f| <= |Join(Blocks(t))|
    requires |f| >= 2 && f[|f| - 2] == '\r' && f[|f| - 1] == '\n'
    ensures b == Rest(f) && u == Normalize(b + tail)
    ensures Blocks(t) == Blocks(f) + Blocks(v) && Blocks(v) != [] && Blocks(u) != []
    ensures |Blocks(u)[0]| < |Blocks(v)[0]|
  {
    b := Rest(f);
    v := b + y;
    RestEndsInCrLf(f);
    BlocksBehind(t, f, y);
    NormalizeApart(b, tail);
    u := Normalize(b) + y;
    RestHasNone(f);
    EarlierBoundary(b, y);
  }

  lemma BlocksBehind(t: string, f: string, y: string)
    requires t == f + y && |f| <= |Join(Blocks(t))| && |Rest(f)| >= 2
    ensures Blocks(t) == Blocks(f) + Blocks(Rest(f) + y) && Blocks(Rest(f) + y) != []
  {
    var j, v := Join(Blocks(f)), Rest(f) + y;
    BlocksJoin(f);
    Regroup(j, Rest(f), y);
    BlocksGoOn(f, v);
    assert |j| < |f|;
    assert Blocks(v) == [] ==> Blocks(f) + Blocks(v) == Blocks(f);
  }

  lemma FrontEndsInCrLf(t: string, k: nat)
    requires CrLfAt(Join(Blocks(t)), k) && k + 2 <= |t|
    ensures t[k] == '\r' && t[k + 1] == '\n' && k + 2 <= |Join(Blocks(t))|
  {
    BlocksJoin(t);
  }

  lemma RestEndsInCrLf(f: string)
    requires |f| >= 2 && f[|f| - 2] == '\r' && f[|f| - 1] == '\n'
    ensures var b := Rest(f); |b| >= 2 && b[|b| - 2] == '\r' && b[|b| - 1] == '\n'
  {
    BlocksJoin(f);
    var j, b := Join(Blocks(f)), Rest(f);
    assert j + b == f;
    if Blocks(f) != [] {
      JoinEndsInBlankLine(Blocks(f));
      assert f[|j| - 1] == '\n' && f[|j| - 2] == '\n';
    }
    assert |b| >= 2;
    assert b[|b| - 2] == f[|f| - 2] && b[|b| - 1] == f[|f| - 1];
  }

  lemma EarlierBoundary(b: string, y: string)
    requires |b| >= 2 && b[|b| - 2] == '\r' && b[|b| - 1] == '\n' && !HasBlankLine(b) && HasBlankLine(b + y)
    ensures var v, u := b + y, Normalize(b) + y;
            HasBlankLine(u) && |Blocks(u)[0]| < |Blocks(v)[0]|
  {
    var v, u, i := b + y, Normalize(b) + y, Boundary(b + y);
    assert CrLfAt(b, |b| - 2);
    NormalizeShortens(b);
    NormalizeKeepsLast(b);
    if i + 1 < |b| {
      assert BlankLineAt(b, i);
      BlankLineFound(b, i);
    }
    var d := |b| - |Normalize(b)|;
    assert v[i + 1] == u[i + 1 - d];
    assert u[i - d] == '\n';
    BlankLineFound(u, i - d);
    BlocksStep(u);
    BlocksStep(v);
  }

  lemma CrLfBehindBlocks(t: string)
    requires !CrLfFree(t) && CrLfFree(Join(Blocks(t)))
    ensures !CrLfFree(Rest(t))
  {
    var j := Join(Blocks(t));
    BlocksJoin(t);
    JoinEndsInNewline(Blocks(t));
    var k: nat :| CrLfAt(t, k);
    assert k + 1 < |j| ==> CrLfAt(j, k);
    assert CrLfAt(Rest(t), k - |j|);
  }

  /** What is flushed in the end is normalised once more. */
  lemma CutInRest(text: string)
    requires var t := Normalize(text); !CrLfFree(Rest(t)) && !Blank(Rest(t))
    ensures !ReadsAlike(text)
  {
    var t := Normalize(text);
    var r := Rest(t);
    var u := Normalize(r);
    assert Concat([text]) + "" == text && r + "" == r;
    EchoStream(text, "");
    EchoOneShot(text);
    NormalizeShortens(r);
    ShorterTextDiffers(u, r);
    var got := Deltas(Blocks(u)) + Flushed(Rest(u));
    TailsDiffer(Deltas(Blocks(t)), got, [DeltaEvent(r)]);
    assert Parsable(Echo(), text) && Stream(Echo(), [text], "") != Ok(OneShot(Echo(), text));
  }

  lemma ShorterTextDiffers(u: string, r: string)
    requires |u| < |r|
    ensures Deltas(Blocks(u)) + Flushed(Rest(u)) != [DeltaEvent(r)]
  {
    var got := Deltas(Blocks(u)) + Flushed(Rest(u));
    if Blocks(u) != [] {
      BlocksStep(u);
      assert got[0] == DeltaEvent(Blocks(u)[0]) && |Blocks(u)[0]| < |r|;
    } else if !Blank(Rest(u)) {
      BlocksJoin(u);
      assert got[0] == DeltaEvent(u);
    }
  }

  lemma TailsDiffer(a: seq<StreamEvent>, x: seq<StreamEvent>, y: seq<StreamEvent>)
    requires x != y
    ensures a + x != a + y
  {
    assert x == (a + x)[|a|..] && y == (a + y)[|a|..];
  }

  function Empties(n: nat): seq<string> { if n == 0 then [] else [""] + Empties(n - 1) }

  lemma {:induction false} EchoFeeds(s: Parser, chunks: seq<string>)
    requires !s.terminal
    ensures Feed(Echo(), s, chunks).1.Ok? && !Feed(Echo(), s, chunks).0.terminal
    decreases |chunks|
  {
    if chunks != [] {
      EchoDrained(s.buffer + chunks[0], false);
      EchoFeeds(Push(Echo(), s, chunks[0]).0, chunks[1..]);
    }
  }

  /** White space in which dropping carriage returns makes a blank line yields a block once it was drained often enough. */
  lemma {:induction false} EventuallyYields(b: string, n: nat)
    requires !HasBlankLine(b) && HasBlankLine(Drop(b)) && |b| <= n
    ensures Feed(Echo(), Parser(b, false), Empties(n)).1.Ok? && Feed(Echo(), Parser(b, false), Empties(n)).1.value != []
    decreases n
  {
    if CrLfFree(b) { DropOfFree(b); }
    var u := Normalize(b);
    NormalizeShortens(b);
    assert Empties(n)[0] == "" && Empties(n)[1..] == Empties(n - 1) && b + "" == b && u + "" == u;
    EchoDrained(b, false);
    EchoFeeds(Parser(Rest(u), false), Empties(n - 1));
    if !HasBlankLine(u) {
      DropNormalized(b, "");
      EventuallyYields(u, n - 1);
    }
  }

  lemma {:induction false} EmptiesAreEmpty(n: nat)
    ensures Concat(Empties(n)) == ""
  {
    if n > 0 { EmptiesAreEmpty(n - 1); }
  }

  lemma CutInWhiteSpace(text: string)
    requires var t := Normalize(text); Blank(Rest(t)) && HasBlankLine(Drop(Rest(t)))
    ensures !ReadsAlike(text)
  {
    var t := Normalize(text);
    var r := Rest(t);
    var more := Empties(|r|);
    var chunks := [text] + more;
    RestHasNone(t);
    EventuallyYields(r, |r|);
    EmptiesAreEmpty(|r|);
    assert chunks[0] == text && chunks[1..] == more && "" + text == text;
    assert Concat(chunks) + "" == text;
    EchoDrained(text, false);
    EchoOneShot(text);
    var s := Feed(Echo(), Parser(r, false), more).0;
    EchoFeeds(Parser(r, false), more);
    EchoDrained(s.buffer + "", true);
    var fed := Feed(Echo(), Parser("", false), chunks).1;
    assert |fed.value| > |Blocks(t)|;
    StreamStartsWith(Echo(), chunks, "");
    assert |Stream(Echo(), chunks, "").value| > |OneShot(Echo(), text)|;
    assert Parsable(Echo(), text) && Stream(Echo(), chunks, "") != Ok(OneShot(Echo(), text));
  }

  // ---- Both ways ----

  /** A text is read alike however it is cut exactly when its cuts are harmless. */
  lemma ReadsAlikeIff(text: string)
    ensures ReadsAlike(text) <==> CutsAreHarmless(text)
  {
    var t := Normalize(text);
    if CutsAreHarmless(text) {
      forall parse: BlockParser, chunks: seq<string>, tail: string | Concat(chunks) + tail == text && Parsable(parse, text)
        ensures Stream(parse, chunks, tail) == Ok(OneShot(parse, text))
      {
        HarmlessCuts(parse, text, chunks, tail);
      }
    } else if !CrLfFree(Join(Blocks(t))) {
      CutInBlocks(text);
    } else if !Blank(Rest(t)) {
      CrLfBehindBlocks(t);
      CutInRest(text);
    } else {
      CutInWhiteSpace(text);
    }
  }

  lemma LastIsInRest(t: string)
    requires t != "" && !IsSpace(t[|t| - 1])
    ensures !Blank(Rest(t))
  {
    BlocksJoin(t);
    JoinEndsInNewline(Blocks(t));
    var r := Rest(t);
    assert r != "" && r[|r| - 1] == t[|t| - 1];
  }

  /** A text that does not end in white space is read alike exactly when no two carriage returns stand before a line feed. */
  lemma VisibleEndReadsAlikeIff(text: string)
    requires text != "" && !IsSpace(text[|text| - 1])
    ensures ReadsAlike(text) <==> NoCrCrLf(text)
  {
    ReadsAlikeIff(text);
    NormalizeKeepsLast(text);
    LastIsInRest(Normalize(text));
    if NoCrCrLf(text) { NormalizedIsFree(text); } else { CrCrLfLeavesCrLf(text); }
  }
}
