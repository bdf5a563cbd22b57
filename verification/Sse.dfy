/**
 * The incremental parser of provider event streams (packages/ai/src/sse.ts): however a text is cut
 * into chunks, it yields the events of the whole text. The block parser is a parameter.
 */
module Sse {
  import opened Basics

  datatype StreamEvent = DoneEvent | DeltaEvent(text: string) | ToolCallDeltaEvent(index: nat, arguments: string)
                       | UsageEvent(inputTokens: nat, outputTokens: nat)

  datatype ParseError = MalformedBlock

  /** parseSseBlock: the events of one block, or its thrown error. */
  type BlockParser = string -> Result<seq<StreamEvent>, ParseError>

  // ---- Text ----

  /** replaceAll("\r\n", "\n"). */
  function Normalize(t: string): string {
    if |t| < 2 then t
    else if t[0] == '\r' && t[1] == '\n' then ['\n'] + Normalize(t[2..])
    else [t[0]] + Normalize(t[1..])
  }

  predicate BlankLineAt(t: string, k: nat) { k + 1 < |t| && t[k] == '\n' && t[k + 1] == '\n' }

  /** The first blank line at k or behind it, or the length of the text. */
  function BoundaryFrom(t: string, k: nat): (i: nat)
    requires k <= |t|
    ensures i == |t| || (k <= i && BlankLineAt(t, i))
    ensures forall j: nat :: k <= j < i ==> !BlankLineAt(t, j)
    decreases |t| - k
  {
    if k == |t| || BlankLineAt(t, k) then k else BoundaryFrom(t, k + 1)
  }

  /** indexOf("\n\n"), or the length of the text when there is none. */
  function Boundary(t: string): (i: nat)
    ensures FirstBlankLine(t, i)
  {
    BoundaryFrom(t, 0)
  }

  ghost predicate FirstBlankLine(t: string, i: nat) {
    (i == |t| || BlankLineAt(t, i)) && forall k: nat :: k < i ==> !BlankLineAt(t, k)
  }

  /** The white space that String.prototype.trim removes. */
  predicate IsSpace(c: char) {
    var n := c as int;
    9 <= n <= 13 || n == 32 || n == 0xA0 || n == 0x1680 || 0x2000 <= n <= 0x200A
    || n == 0x2028 || n == 0x2029 || n == 0x202F || n == 0x205F || n == 0x3000 || n == 0xFEFF
  }

  predicate Blank(t: string) { forall k :: 0 <= k < |t| ==> IsSpace(t[k]) }

  // ---- The whole text at once ----

  /** The blocks before blank lines, and what follows the last one. */
  function Blocks(t: string): seq<string>
    decreases |t|
  {
    var i := Boundary(t);
    if i == |t| then [] else [t[..i]] + Blocks(t[i + 2..])
  }

  function Rest(t: string): string
    decreases |t|
  {
    var i := Boundary(t);
    if i == |t| then t else Rest(t[i + 2..])
  }

  predicate HasDone(es: seq<StreamEvent>) { DoneEvent in es }

  function Parsed(parse: BlockParser, block: string): seq<StreamEvent> {
    match parse(block) case Ok(es) => es case Err(_) => []
  }

  /** The events of the blocks, up to the first block that ends the stream. */
  function EventsOf(parse: BlockParser, blocks: seq<string>): seq<StreamEvent> {
    if blocks == [] then []
    else
      var es := Parsed(parse, blocks[0]);
      if HasDone(es) then es else es + EventsOf(parse, blocks[1..])
  }

  predicate Ends(parse: BlockParser, blocks: seq<string>) { exists k :: 0 <= k < |blocks| && HasDone(Parsed(parse, blocks[k])) }

  /** Normalise line ends once, split at blank lines, stop after the first done event, and flush the rest. */
  function OneShot(parse: BlockParser, text: string): seq<StreamEvent> {
    var t := Normalize(text);
    var es := EventsOf(parse, Blocks(t));
    if Ends(parse, Blocks(t)) || Blank(Rest(t)) then es else es + Parsed(parse, Rest(t))
  }

  /** The blocks parse, up to the first one that ends the stream. */
  predicate ParsesOn(parse: BlockParser, blocks: seq<string>) {
    blocks == [] || (parse(blocks[0]).Ok? && (HasDone(Parsed(parse, blocks[0])) || ParsesOn(parse, blocks[1..])))
  }

  /** Everything that is looked at parses: the blocks up to the end of the stream, and the rest unless the stream ended before it. */
  predicate Parsable(parse: BlockParser, text: string) {
    var t := Normalize(text);
    ParsesOn(parse, Blocks(t)) && (Ends(parse, Blocks(t)) || Blank(Rest(t)) || parse(Rest(t)).Ok?)
  }

  // ---- The parser as it runs ----

  /** The loop of drain over a normalised buffer. */
  function Consume(parse: BlockParser, buffer: string, events: seq<StreamEvent>): (string, bool, Result<seq<StreamEvent>, ParseError>)
    decreases |buffer|
  {
    var i := Boundary(buffer);
    if i == |buffer| then (buffer, false, Ok(events))
    else
      match parse(buffer[..i])
      case Err(e) => (buffer[i + 2..], false, Err(e))
      case Ok(es) =>
        if HasDone(es) then ("", true, Ok(events + es)) else Consume(parse, buffer[i + 2..], events + es)
  }

  datatype Parser = Parser(buffer: string, terminal: bool)

  function Drained(parse: BlockParser, buffer: string, flush: bool): (Parser, Result<seq<StreamEvent>, ParseError>) {
    var (rest, done, r) := Consume(parse, Normalize(buffer), []);
    if r.Err? || !flush || Blank(rest) then (Parser(rest, done), r)
    else
      match parse(rest)
      case Err(e) => (Parser(rest, done), Err(e))
      case Ok(es) => (Parser("", done), Ok(r.value + es))
  }

  function Push(parse: BlockParser, p: Parser, chunk: string): (Parser, Result<seq<StreamEvent>, ParseError>) {
    if p.terminal then (p, Ok([])) else Drained(parse, p.buffer + chunk, false)
  }

  function Finish(parse: BlockParser, p: Parser, tail: string): (Parser, Result<seq<StreamEvent>, ParseError>) {
    if p.terminal then (p, Ok([])) else Drained(parse, p.buffer + tail, true)
  }

  /** A text pushed chunk by chunk, and everything it yields. */
  function Feed(parse: BlockParser, p: Parser, chunks: seq<string>): (Parser, Result<seq<StreamEvent>, ParseError>)
    decreases |chunks|
  {
    if chunks == [] then (p, Ok([]))
    else
      var (q, r) := Push(parse, p, chunks[0]);
      var (last, rest) := Feed(parse, q, chunks[1..]);
      (last, if r.Ok? && rest.Ok? then Ok(r.value + rest.value) else Err(MalformedBlock))
  }

  function Stream(parse: BlockParser, chunks: seq<string>, tail: string): Result<seq<StreamEvent>, ParseError> {
    var (p, r) := Feed(parse, Parser("", false), chunks);
    var end := Finish(parse, p, tail).1;
    if r.Ok? && end.Ok? then Ok(r.value + end.value) else Err(MalformedBlock)
  }

  function Concat(chunks: seq<string>): string {
    if chunks == [] then "" else chunks[0] + Concat(chunks[1..])
  }

  class OpenAiCompatSseParser {
    const parse: BlockParser
    var buffer: string
    var terminal: bool

    ghost function State(): Parser
      reads this
    {
      Parser(buffer, terminal)
    }

    constructor (parse: BlockParser)
      ensures State() == Parser("", false) && this.parse == parse
    {
      this.parse, buffer, terminal := parse, "", false;
    }

    method PushText(chunk: string) returns (r: Result<seq<StreamEvent>, ParseError>)
      modifies this
      ensures (State(), r) == Push(parse, old(State()), chunk)
    {
      if terminal { return Ok([]); }
      buffer := buffer + chunk;
      r := Drain(false);
    }

    method FinishText(tail: string) returns (r: Result<seq<StreamEvent>, ParseError>)
      modifies this
      ensures (State(), r) == Finish(parse, old(State()), tail)
    {
      if terminal { return Ok([]); }
      buffer := buffer + tail;
      r := Drain(true);
    }

    /** The loop of the source; a block that does not parse drops the events found before it. */
    method Drain(flush: bool) returns (r: Result<seq<StreamEvent>, ParseError>)
      requires !terminal
      modifies this
      ensures (State(), r) == Drained(parse, old(buffer), flush)
    {
      var events: seq<StreamEvent> := [];
      ghost var start := Normalize(buffer);
      buffer := Normalize(buffer);
      var boundary := Boundary(buffer);
      while boundary != |buffer| && !terminal
        invariant boundary == Boundary(buffer)
        invariant !terminal ==> Consume(parse, start, []) == Consume(parse, buffer, events)
        invariant terminal ==> Consume(parse, start, []) == (buffer, true, Ok(events)) && buffer == ""
        decreases |buffer|, !terminal
      {
        var rawEvent := buffer[..boundary];
        var parsed := parse(rawEvent);
        buffer := buffer[boundary + 2..];
        if parsed.Err? { return Err(parsed.error); }
        events := events + parsed.value;
        if HasDone(parsed.value) {
          terminal := true;
          buffer := "";
        }
        boundary := Boundary(buffer);
      }
      if flush && !Blank(buffer) {
        var parsed := parse(buffer);
        if parsed.Err? { return Err(parsed.error); }
        events := events + parsed.value;
        buffer := "";
      }
      r := Ok(events);
    }
  }

  // ---- Normalising in pieces ----

  predicate CrLfAt(t: string, k: nat) { k + 1 < |t| && t[k] == '\r' && t[k + 1] == '\n' }

  predicate CrCrLfAt(t: string, k: nat) { k + 2 < |t| && t[k] == '\r' && t[k + 1] == '\r' && t[k + 2] == '\n' }

  ghost predicate CrLfFree(t: string) { forall k: nat :: !CrLfAt(t, k) }

  ghost predicate NoCrCrLf(t: string) { forall k: nat :: !CrCrLfAt(t, k) }

  lemma PartsHaveNone(t: string, i: nat)
    requires i <= |t|
    ensures NoCrCrLf(t) ==> NoCrCrLf(t[i..]) && NoCrCrLf(t[..i])
    ensures CrLfFree(t) ==> CrLfFree(t[i..]) && CrLfFree(t[..i])
  {
    forall k: nat ensures CrCrLfAt(t[i..], k) ==> CrCrLfAt(t, i + k) {}
    forall k: nat ensures CrCrLfAt(t[..i], k) ==> CrCrLfAt(t, k) {}
    forall k: nat ensures CrLfAt(t[i..], k) ==> CrLfAt(t, i + k) {}
    forall k: nat ensures CrLfAt(t[..i], k) ==> CrLfAt(t, k) {}
  }

  lemma {:induction false} NormalizeHead(t: string)
    ensures (t == "" <==> Normalize(t) == "")
    ensures t != "" ==> Normalize(t)[0] == if CrLfAt(t, 0) then '\n' else t[0]
  {}

  /** How many characters the first step of normalising takes, and what it leaves of them. */
  function Skip(t: string): nat { if CrLfAt(t, 0) then 2 else 1 }

  function Head(t: string): char
    requires t != ""
  {
    if CrLfAt(t, 0) then '\n' else t[0]
  }

  lemma NormalizeStep(t: string)
    requires t != ""
    ensures Skip(t) <= |t| && Normalize(t) == [Head(t)] + Normalize(t[Skip(t)..])
  {}

  lemma {:induction false} NormalizedIsFree(t: string)
    requires NoCrCrLf(t)
    ensures CrLfFree(Normalize(t))
  {
    if t != "" {
      var tail := t[Skip(t)..];
      NormalizeStep(t);
      PartsHaveNone(t, Skip(t));
      NormalizedIsFree(tail);
      NormalizeHead(tail);
      var n := Normalize(tail);
      forall k: nat ensures !CrLfAt(Normalize(t), k) {
        assert !CrCrLfAt(t, 0);
        if k > 0 { assert CrLfAt(Normalize(t), k) ==> CrLfAt(n, k - 1); }
      }
    }
  }

  /** Normalising again what was already normalised, with more text behind it, is normalising all of it. */
  lemma {:induction false} NormalizeInPieces(p: string, c: string)
    requires NoCrCrLf(p + c)
    ensures Normalize(Normalize(p) + c) == Normalize(p + c)
  {
    if |p| >= 2 {
      var tail := p[Skip(p)..];
      var n := Normalize(tail) + c;
      PartsHaveNone(p + c, Skip(p));
      assert (p + c)[Skip(p)..] == tail + c;
      NormalizeInPieces(tail, c);
      NormalizeStep(p);
      NormalizeStep(p + c);
      assert Normalize(p) + c == [Head(p)] + n;
      HeadStands(p, c);
      NormalizeStep([Head(p)] + n);
      assert ([Head(p)] + n)[1..] == n;
    }
  }

  lemma HeadStands(p: string, c: string)
    requires |p| >= 2 && NoCrCrLf(p + c)
    ensures Skip(p + c) == Skip(p) && Head(p + c) == Head(p)
    ensures !CrLfAt([Head(p)] + (Normalize(p[Skip(p)..]) + c), 0)
  {
    assert !CrCrLfAt(p + c, 0);
    if CrLfAt([Head(p)] + (Normalize(p[Skip(p)..]) + c), 0) { JoinedHead(p, c); }
  }

  /** Normalising brings a carriage return and a line feed together only where two carriage returns stood before it. */
  lemma JoinedHead(p: string, c: string)
    requires |p| >= 2 && CrLfAt([Head(p)] + (Normalize(p[Skip(p)..]) + c), 0)
    ensures CrCrLfAt(p + c, 0)
  {
    var tail := p[Skip(p)..];
    NormalizeHead(tail);
    assert Skip(p) == 1 && tail[0] == p[1];
  }

  /** Normalised text that does not end in a carriage return stays as it is in front of any text. */
  lemma {:induction false} NormalizeBehind(x: string, y: string)
    requires CrLfFree(x) && (x == "" || x[|x| - 1] != '\r')
    ensures Normalize(x + y) == x + Normalize(y)
  {
    if x == "" {
      assert x + y == y;
    } else {
      assert (x + y)[1..] == x[1..] + y;
      PartsHaveNone(x, 1);
      NormalizeBehind(x[1..], y);
      assert !CrLfAt(x, 0);
      assert !CrLfAt(x + y, 0);
      NormalizeStep(x + y);
      assert x + Normalize(y) == [x[0]] + (x[1..] + Normalize(y));
    }
  }

  /** Normalising is idempotent exactly on texts without two carriage returns before a line feed. */
  lemma NormalizeIdempotentIff(t: string)
    ensures Normalize(Normalize(t)) == Normalize(t) <==> NoCrCrLf(t)
  {
    if NoCrCrLf(t) {
      assert t + "" == t && Normalize(t) + "" == Normalize(t);
      NormalizeInPieces(t, "");
    } else {
      CrCrLfLeavesCrLf(t);
      NormalizeShortens(Normalize(t));
    }
  }

  lemma {:induction false} CrCrLfLeavesCrLf(t: string)
    requires !NoCrCrLf(t)
    ensures !CrLfFree(Normalize(t))
  {
    var k: nat :| CrCrLfAt(t, k);
    var tail := t[Skip(t)..];
    NormalizeStep(t);
    if k == 0 {
      assert CrLfAt(tail, 0);
      NormalizeHead(tail);
      assert CrLfAt(Normalize(t), 0);
    } else {
      assert CrCrLfAt(tail, k - Skip(t));
      CrCrLfLeavesCrLf(tail);
      var j: nat :| CrLfAt(Normalize(tail), j);
      assert CrLfAt(Normalize(t), j + 1);
    }
  }

  lemma {:induction false} NormalizeShortens(t: string)
    ensures |Normalize(t)| <= |t|
    ensures !CrLfFree(t) ==> |Normalize(t)| < |t|
  {
    if t != "" {
      NormalizeStep(t);
      NormalizeShortens(t[Skip(t)..]);
      if !CrLfFree(t) && Skip(t) == 1 {
        var k: nat :| CrLfAt(t, k);
        assert CrLfAt(t[1..], k - 1);
      }
    }
  }

  // ---- Splitting in pieces ----

  const BLANK_LINE: string := ['\n', '\n']

  /** The text before the rest: every block with the blank line that ends it. */
  function Join(blocks: seq<string>): string {
    if blocks == [] then "" else blocks[0] + BLANK_LINE + Join(blocks[1..])
  }

  lemma CutAt(t: string, i: nat)
    requires BlankLineAt(t, i)
    ensures t == t[..i] + BLANK_LINE + t[i + 2..]
  {}

  lemma BlocksStep(t: string)
    requires Boundary(t) < |t|
    ensures var i := Boundary(t); Blocks(t) == [t[..i]] + Blocks(t[i + 2..])
  {}

  lemma RestStep(t: string)
    requires Boundary(t) < |t|
    ensures Rest(t) == Rest(t[Boundary(t) + 2..])
  {}

  lemma JoinCons(block: string, blocks: seq<string>)
    ensures Join([block] + blocks) == block + BLANK_LINE + Join(blocks)
  {
    assert ([block] + blocks)[1..] == blocks;
  }

  lemma Associate(a: string, b: string, c: string)
    ensures a + BLANK_LINE + (b + c) == a + BLANK_LINE + b + c
  {}

  lemma {:induction false} BlocksJoin(t: string)
    ensures t == Join(Blocks(t)) + Rest(t)
    decreases |t|
  {
    var i := Boundary(t);
    if i < |t| {
      BlocksStep(t);
      RestStep(t);
      JoinCons(t[..i], Blocks(t[i + 2..]));
      BlocksJoin(t[i + 2..]);
      CutAt(t, i);
      Associate(t[..i], Join(Blocks(t[i + 2..])), Rest(t));
    }
  }

  lemma SameAt(t: string, u: string, n: nat, k: nat)
    requires n <= |t| && n <= |u| && t[..n] == u[..n] && k + 1 < n && BlankLineAt(t, k)
    ensures BlankLineAt(u, k)
  {
    assert t[k] == t[..n][k] && t[k + 1] == t[..n][k + 1];
    assert u[k] == u[..n][k] && u[k + 1] == u[..n][k + 1];
  }

  lemma SameFirst(t: string, u: string, i: nat, j: nat)
    requires FirstBlankLine(t, i) && FirstBlankLine(u, j) && i < |t|
    requires i + 2 <= |t| && i + 2 <= |u| && t[..i + 2] == u[..i + 2]
    ensures i == j
  {
    SameAt(t, u, i + 2, i);
    if j < i { SameAt(u, t, i + 2, j); }
  }

  /** A boundary is found again when the text goes on differently behind it. */
  lemma BoundaryStands(t: string, u: string)
    requires Boundary(t) < |t| && Boundary(t) + 2 <= |u| && u[..Boundary(t) + 2] == t[..Boundary(t) + 2]
    ensures Boundary(u) == Boundary(t)
  {
    SameFirst(t, u, Boundary(t), Boundary(u));
  }

  /** The first block of t is still the first when other text follows the blank line. */
  lemma FirstBlockStands(t: string, more: string)
    requires Boundary(t) < |t|
    ensures var i := Boundary(t);
            var u := t[..i] + BLANK_LINE + more;
            Blocks(u) == [t[..i]] + Blocks(more) && Rest(u) == Rest(more)
  {
    var i := Boundary(t);
    var u := t[..i] + BLANK_LINE + more;
    CutAt(t, i);
    assert u[..i + 2] == t[..i + 2];
    BoundaryStands(t, u);
    assert u[..i] == t[..i] && u[i + 2..] == more;
    BlocksStep(u);
    RestStep(u);
  }

  lemma {:induction false} BlocksGoOn(t: string, y: string)
    ensures Blocks(Join(Blocks(t)) + y) == Blocks(t) + Blocks(y)
    ensures Rest(Join(Blocks(t)) + y) == Rest(y)
    decreases |t|
  {
    var i := Boundary(t);
    if i == |t| {
      assert Join([]) + y == y;
    } else {
      BlocksGoOn(t[i + 2..], y);
      BlocksGoOnStep(t, y);
    }
  }

  lemma BlocksGoOnStep(t: string, y: string)
    requires Boundary(t) < |t|
    requires var more := Join(Blocks(t[Boundary(t) + 2..])) + y;
             Blocks(more) == Blocks(t[Boundary(t) + 2..]) + Blocks(y) && Rest(more) == Rest(y)
    ensures Blocks(Join(Blocks(t)) + y) == Blocks(t) + Blocks(y) && Rest(Join(Blocks(t)) + y) == Rest(y)
  {
    var i := Boundary(t);
    BlocksStep(t);
    JoinCons(t[..i], Blocks(t[i + 2..]));
    JoinGoesOn(t, Join(Blocks(t)), Join(Blocks(t[i + 2..])), Blocks(t[i + 2..]), y);
  }

  lemma JoinGoesOn(t: string, joined: string, inner: string, blocks: seq<string>, y: string)
    requires Boundary(t) < |t| && joined == t[..Boundary(t)] + BLANK_LINE + inner
    requires Blocks(inner + y) == blocks + Blocks(y) && Rest(inner + y) == Rest(y)
    ensures Blocks(joined + y) == [t[..Boundary(t)]] + blocks + Blocks(y) && Rest(joined + y) == Rest(y)
  {
    Associate(t[..Boundary(t)], inner, y);
    FirstBlockStands(t, inner + y);
    assert [t[..Boundary(t)]] + (blocks + Blocks(y)) == [t[..Boundary(t)]] + blocks + Blocks(y);
  }

  lemma {:induction false} JoinEndsInNewline(blocks: seq<string>)
    ensures Join(blocks) == "" || Join(blocks)[|Join(blocks)| - 1] == '\n'
  {
    if blocks != [] { JoinEndsInNewline(blocks[1..]); }
  }

  /** A normalised text whose front x ends in a line feed is normalised again with more behind it from b on. */
  lemma NormalizeRest(t: string, x: string, b: string, c: string)
    requires CrLfFree(t) && t == x + b && (x == "" || x[|x| - 1] == '\n')
    ensures Normalize(t + c) == x + Normalize(b + c)
  {
    assert x == t[..|x|] && t + c == x + (b + c);
    PartsHaveNone(t, |x|);
    NormalizeBehind(x, b + c);
  }

  /** What a chunk adds: the blocks of the rest with the chunk, behind the blocks already found. */
  lemma ChunkAdds(p: string, c: string)
    requires NoCrCrLf(p) && NoCrCrLf(p + c)
    ensures var t, u := Normalize(p), Normalize(Rest(Normalize(p)) + c);
            Blocks(Normalize(p + c)) == Blocks(t) + Blocks(u) && Rest(Normalize(p + c)) == Rest(u)
  {
    NormalizedIsFree(p);
    NormalizeInPieces(p, c);
    RestGoesOn(Normalize(p), c, Normalize(p + c));
  }

  lemma RestGoesOn(t: string, c: string, whole: string)
    requires CrLfFree(t) && whole == Normalize(t + c)
    ensures var u := Normalize(Rest(t) + c);
            Blocks(whole) == Blocks(t) + Blocks(u) && Rest(whole) == Rest(u)
  {
    BlocksJoin(t);
    JoinEndsInNewline(Blocks(t));
    NormalizeRest(t, Join(Blocks(t)), Rest(t), c);
    BlocksGoOn(t, Normalize(Rest(t) + c));
  }

  // ---- The loop against the blocks ----

  lemma {:induction false} ConsumeParsesBlocks(parse: BlockParser, t: string, events: seq<StreamEvent>)
    requires ParsesOn(parse, Blocks(t))
    ensures Consume(parse, t, events) ==
            (if Ends(parse, Blocks(t)) then "" else Rest(t), Ends(parse, Blocks(t)), Ok(events + EventsOf(parse, Blocks(t))))
    decreases |t|
  {
    var i := Boundary(t);
    if i == |t| {
      assert events + [] == events;
    } else {
      var block, tail := t[..i], t[i + 2..];
      assert Blocks(t)[0] == block && Blocks(t)[1..] == Blocks(tail);
      EndsInTail(parse, Blocks(t));
      if !HasDone(Parsed(parse, block)) {
        ConsumeParsesBlocks(parse, tail, events + Parsed(parse, block));
        assert events + Parsed(parse, block) + EventsOf(parse, Blocks(tail)) == events + (Parsed(parse, block) + EventsOf(parse, Blocks(tail)));
      }
    }
  }

  lemma EndsInTail(parse: BlockParser, blocks: seq<string>)
    requires blocks != []
    ensures Ends(parse, blocks) <==> HasDone(Parsed(parse, blocks[0])) || Ends(parse, blocks[1..])
  {
    if k :| 0 < k < |blocks| && HasDone(Parsed(parse, blocks[k])) { assert blocks[1..][k - 1] == blocks[k]; }
    if k :| 0 <= k < |blocks[1..]| && HasDone(Parsed(parse, blocks[1..][k])) { assert blocks[k + 1] == blocks[1..][k]; }
  }

  lemma {:induction false} EventsGoOn(parse: BlockParser, a: seq<string>, b: seq<string>)
    ensures Ends(parse, a + b) <==> Ends(parse, a) || Ends(parse, b)
    ensures EventsOf(parse, a + b) == if Ends(parse, a) then EventsOf(parse, a) else EventsOf(parse, a) + EventsOf(parse, b)
  {
    if a == [] {
      assert a + b == b;
    } else {
      assert (a + b)[1..] == a[1..] + b;
      EventsGoOn(parse, a[1..], b);
      EndsInTail(parse, a);
      EndsInTail(parse, a + b);
    }
  }

  // ---- Chunks against the whole text ----

  function Prefix(parse: BlockParser, p: string): Parser {
    var t := Normalize(p);
    Parser(if Ends(parse, Blocks(t)) then "" else Rest(t), Ends(parse, Blocks(t)))
  }

  /** After the text p the parser is in the state of p, and a chunk yields what p then gains. */
  lemma PushFollowsText(parse: BlockParser, p: string, c: string)
    requires NoCrCrLf(p) && NoCrCrLf(p + c) && ParsesOn(parse, Blocks(Normalize(p + c)))
    ensures Push(parse, Prefix(parse, p), c).1.Ok?
    ensures Push(parse, Prefix(parse, p), c).0.terminal == Prefix(parse, p + c).terminal
    ensures !Prefix(parse, p).terminal ==> Push(parse, Prefix(parse, p), c).0 == Prefix(parse, p + c)
    ensures EventsOf(parse, Blocks(Normalize(p + c))) == EventsOf(parse, Blocks(Normalize(p))) + Push(parse, Prefix(parse, p), c).1.value
  {
    var t := Normalize(p);
    var u := Normalize(Rest(t) + c);
    ChunkAdds(p, c);
    EventsGoOn(parse, Blocks(t), Blocks(u));
    if Ends(parse, Blocks(t)) {
      assert EventsOf(parse, Blocks(t)) + [] == EventsOf(parse, Blocks(t));
    } else {
      BlocksParse(parse, Blocks(t), Blocks(u));
      ConsumeParsesBlocks(parse, u, []);
      assert [] + EventsOf(parse, Blocks(u)) == EventsOf(parse, Blocks(u));
    }
  }

  lemma {:induction false} BlocksParse(parse: BlockParser, a: seq<string>, b: seq<string>)
    ensures ParsesOn(parse, a + b) <==> ParsesOn(parse, a) && (Ends(parse, a) || ParsesOn(parse, b))
  {
    if a == [] {
      assert a + b == b;
    } else {
      assert (a + b)[1..] == a[1..] + b;
      BlocksParse(parse, a[1..], b);
      EndsInTail(parse, a);
    }
  }

  /** A parser state that stands for the text p. */
  predicate Stands(parse: BlockParser, s: Parser, p: string) {
    s.terminal == Prefix(parse, p).terminal && (!s.terminal ==> s == Prefix(parse, p))
  }

  lemma TerminalStays(parse: BlockParser, s: Parser, p: string, c: string)
    requires Stands(parse, s, p) && NoCrCrLf(p) && NoCrCrLf(p + c) && ParsesOn(parse, Blocks(Normalize(p + c)))
    ensures Push(parse, s, c).1 == Push(parse, Prefix(parse, p), c).1
    ensures Stands(parse, Push(parse, s, c).0, p + c)
  {
    PushFollowsText(parse, p, c);
  }

  lemma PrefixIsFine(parse: BlockParser, p: string, c: string)
    requires NoCrCrLf(p + c) && ParsesOn(parse, Blocks(Normalize(p + c)))
    ensures NoCrCrLf(p) && ParsesOn(parse, Blocks(Normalize(p)))
  {
    PartsHaveNone(p + c, |p|);
    assert (p + c)[..|p|] == p;
    ChunkAdds(p, c);
    BlocksParse(parse, Blocks(Normalize(p)), Blocks(Normalize(Rest(Normalize(p)) + c)));
  }

  /** A text whose blocks all parse, without the sequence that normalising cannot settle at once. */
  ghost predicate Fine(parse: BlockParser, p: string) { NoCrCrLf(p) && ParsesOn(parse, Blocks(Normalize(p))) }

  function Found(parse: BlockParser, p: string): seq<StreamEvent> { EventsOf(parse, Blocks(Normalize(p))) }

  /** One push on a state that stands for p. */
  lemma PushStep(parse: BlockParser, s: Parser, p: string, c: string)
    requires Stands(parse, s, p) && Fine(parse, p) && Fine(parse, p + c)
    ensures var (q, r) := Push(parse, s, c);
            r.Ok? && Stands(parse, q, p + c) && Found(parse, p + c) == Found(parse, p) + r.value
  {
    PushFollowsText(parse, p, c);
    TerminalStays(parse, s, p, c);
  }

  lemma FeedCons(parse: BlockParser, s: Parser, chunks: seq<string>)
    requires chunks != [] && Push(parse, s, chunks[0]).1.Ok?
    requires Feed(parse, Push(parse, s, chunks[0]).0, chunks[1..]).1.Ok?
    ensures var (q, r) := Push(parse, s, chunks[0]);
            var (last, rest) := Feed(parse, q, chunks[1..]);
            Feed(parse, s, chunks) == (last, Ok(r.value + rest.value))
  {}

  lemma ConcatCons(p: string, chunks: seq<string>)
    requires chunks != []
    ensures p + Concat(chunks) == (p + chunks[0]) + Concat(chunks[1..])
  {}

  /** One chunk on a state that stands for p yields what p gains. */
  ghost predicate StepHolds(parse: BlockParser, stands: (Parser, string) -> bool, found: string -> seq<StreamEvent>,
                            s: Parser, p: string, c: string) {
    var (q, r) := Push(parse, s, c);
    r.Ok? && stands(q, p + c) && found(p + c) == found(p) + r.value
  }

  ghost predicate StepsHold(parse: BlockParser, stands: (Parser, string) -> bool, found: string -> seq<StreamEvent>, whole: string) {
    forall s, p, c, more :: stands(s, p) && whole == p + c + more ==> StepHolds(parse, stands, found, s, p, c)
  }

  lemma {:induction false} FeedInduction(parse: BlockParser, stands: (Parser, string) -> bool, found: string -> seq<StreamEvent>,
                                         s: Parser, p: string, chunks: seq<string>, whole: string)
    requires StepsHold(parse, stands, found, whole) && stands(s, p) && whole == p + Concat(chunks)
    ensures var (q, r) := Feed(parse, s, chunks);
            r.Ok? && stands(q, whole) && found(whole) == found(p) + r.value
    decreases |chunks|
  {
    if chunks == [] {
      assert p + Concat(chunks) == p && found(p) + [] == found(p);
    } else {
      var c := chunks[0];
      ConcatCons(p, chunks);
      assert StepHolds(parse, stands, found, s, p, c);
      FeedInduction(parse, stands, found, Push(parse, s, c).0, p + c, chunks[1..], whole);
      FeedCons(parse, s, chunks);
    }
  }

  lemma FeedFollowsText(parse: BlockParser, chunks: seq<string>, whole: string)
    requires Fine(parse, whole) && whole == Concat(chunks)
    ensures var (q, r) := Feed(parse, Parser("", false), chunks);
            r.Ok? && Stands(parse, q, whole) && Found(parse, whole) == r.value
  {
    var stands := (s: Parser, p: string) => Stands(parse, s, p);
    var found := (p: string) => Found(parse, p);
    forall s, p, c, more | stands(s, p) && whole == p + c + more ensures StepHolds(parse, stands, found, s, p, c) {
      FirstChunk(parse, s, p, c, more, whole);
    }
    NothingRead(parse);
    assert "" + whole == whole;
    FeedInduction(parse, stands, found, Parser("", false), "", chunks, whole);
    assert [] + Feed(parse, Parser("", false), chunks).1.value == Feed(parse, Parser("", false), chunks).1.value;
  }

  lemma FirstChunk(parse: BlockParser, s: Parser, p: string, c: string, more: string, whole: string)
    requires Stands(parse, s, p) && Fine(parse, whole) && whole == p + c + more
    ensures var (q, r) := Push(parse, s, c);
            r.Ok? && Stands(parse, q, p + c) && Found(parse, p + c) == Found(parse, p) + r.value
  {
    PrefixIsFine(parse, p + c, more);
    PrefixIsFine(parse, p, c);
    PushStep(parse, s, p, c);
  }

  lemma FinishWhenEnded(parse: BlockParser, p: string, tail: string)
    requires Fine(parse, p) && Fine(parse, p + tail) && Prefix(parse, p).terminal
    ensures OneShot(parse, p + tail) == Found(parse, p)
  {
    ChunkAdds(p, tail);
    EventsGoOn(parse, Blocks(Normalize(p)), Blocks(Normalize(Rest(Normalize(p)) + tail)));
  }

  /** Finishing is one more push and the flush of what is left. */
  lemma FinishIsPushAndFlush(parse: BlockParser, s: Parser, tail: string)
    requires !s.terminal && Push(parse, s, tail).1.Ok?
    ensures var (q, r) := Push(parse, s, tail);
            Finish(parse, s, tail).1 ==
            if Blank(q.buffer) then r else match parse(q.buffer) case Ok(es) => Ok(r.value + es) case Err(e) => Err(e)
  {}

  lemma FinishFollowsText(parse: BlockParser, s: Parser, p: string, tail: string)
    requires Stands(parse, s, p) && NoCrCrLf(p + tail) && Parsable(parse, p + tail)
    ensures Finish(parse, s, tail).1.Ok?
    ensures OneShot(parse, p + tail) == Found(parse, p) + Finish(parse, s, tail).1.value
  {
    PrefixIsFine(parse, p, tail);
    if s.terminal {
      FinishWhenEnded(parse, p, tail);
      assert Found(parse, p) + [] == Found(parse, p);
    } else {
      PushStep(parse, s, p, tail);
      PushFollowsText(parse, p, tail);
      FinishIsPushAndFlush(parse, s, tail);
      FlushFollowsText(parse, p + tail, Found(parse, p), Push(parse, s, tail).1.value);
    }
  }

  lemma FlushFollowsText(parse: BlockParser, text: string, before: seq<StreamEvent>, pushed: seq<StreamEvent>)
    requires Found(parse, text) == before + pushed
    ensures OneShot(parse, text) ==
            before + if Blank(Prefix(parse, text).buffer) then pushed else pushed + Parsed(parse, Prefix(parse, text).buffer)
  {
    var t := Normalize(text);
    assert before + (pushed + Parsed(parse, Rest(t))) == before + pushed + Parsed(parse, Rest(t));
  }

  /**
   * For every way to cut a text into chunks, when no two carriage returns stand before a line feed
   * and every block parses, the parser yields exactly the events of the whole text.
   */
  lemma ChunksDoNotMatter(parse: BlockParser, chunks: seq<string>, tail: string)
    requires NoCrCrLf(Concat(chunks) + tail) && Parsable(parse, Concat(chunks) + tail)
    ensures Stream(parse, chunks, tail) == Ok(OneShot(parse, Concat(chunks) + tail))
  {
    var text := Concat(chunks);
    PrefixIsFine(parse, text, tail);
    FeedFollowsText(parse, chunks, text);
    FinishFollowsText(parse, Feed(parse, Parser("", false), chunks).0, text, tail);
  }

  /** The loop goes through only where everything parses up to the end of the stream. */
  lemma {:induction false} ConsumedBlocksParse(parse: BlockParser, t: string, events: seq<StreamEvent>)
    requires Consume(parse, t, events).2.Ok?
    ensures ParsesOn(parse, Blocks(t))
    decreases |t|
  {
    var i := Boundary(t);
    if i < |t| {
      BlocksStep(t);
      assert Blocks(t)[1..] == Blocks(t[i + 2..]);
      if !HasDone(Parsed(parse, t[..i])) { ConsumedBlocksParse(parse, t[i + 2..], events + Parsed(parse, t[..i])); }
    }
  }

  lemma PushedIsFine(parse: BlockParser, s: Parser, p: string, c: string)
    requires Stands(parse, s, p) && Fine(parse, p) && NoCrCrLf(p + c) && Push(parse, s, c).1.Ok?
    ensures Fine(parse, p + c)
  {
    var t, u := Normalize(p), Normalize(Rest(Normalize(p)) + c);
    ChunkAdds(p, c);
    BlocksParse(parse, Blocks(t), Blocks(u));
    if !s.terminal { ConsumedBlocksParse(parse, u, []); }
  }

  lemma {:induction false} FedIsFine(parse: BlockParser, s: Parser, p: string, chunks: seq<string>)
    requires Stands(parse, s, p) && Fine(parse, p) && NoCrCrLf(p + Concat(chunks)) && Feed(parse, s, chunks).1.Ok?
    ensures Fine(parse, p + Concat(chunks)) && Stands(parse, Feed(parse, s, chunks).0, p + Concat(chunks))
    decreases |chunks|
  {
    if chunks == [] {
      assert p + Concat(chunks) == p;
    } else {
      ConcatCons(p, chunks);
      FrontHasNone(p + chunks[0], Concat(chunks[1..]));
      PushedIsFine(parse, s, p, chunks[0]);
      PushStep(parse, s, p, chunks[0]);
      FedIsFine(parse, Push(parse, s, chunks[0]).0, p + chunks[0], chunks[1..]);
    }
  }

  lemma FrontHasNone(p: string, c: string)
    requires NoCrCrLf(p + c)
    ensures NoCrCrLf(p)
  {
    PartsHaveNone(p + c, |p|);
    assert (p + c)[..|p|] == p;
  }

  lemma FinishedIsParsable(parse: BlockParser, s: Parser, p: string, tail: string)
    requires Stands(parse, s, p) && Fine(parse, p) && NoCrCrLf(p + tail) && Finish(parse, s, tail).1.Ok?
    ensures Parsable(parse, p + tail)
  {
    PushedIsFine(parse, s, p, tail);
    PushFollowsText(parse, p, tail);
    if s.terminal {
      ChunkAdds(p, tail);
      EventsGoOn(parse, Blocks(Normalize(p)), Blocks(Normalize(Rest(Normalize(p)) + tail)));
    } else {
      FinishIsPushAndFlush(parse, s, tail);
    }
  }

  /**
   * A malformed block is reported, however the text is cut and unless the stream ended before it, and nothing else
   * is: the parser throws exactly when something it has to look at does not parse.
   */
  lemma MalformedIsReportedIff(parse: BlockParser, chunks: seq<string>, tail: string)
    requires NoCrCrLf(Concat(chunks) + tail)
    ensures Stream(parse, chunks, tail).Err? <==> !Parsable(parse, Concat(chunks) + tail)
  {
    var start, text := Parser("", false), Concat(chunks);
    if Parsable(parse, text + tail) {
      ChunksDoNotMatter(parse, chunks, tail);
    } else if Stream(parse, chunks, tail).Ok? {
      FrontHasNone(text, tail);
      NothingRead(parse);
      assert "" + text == text;
      FedIsFine(parse, start, "", chunks);
      FinishedIsParsable(parse, Feed(parse, start, chunks).0, text, tail);
    }
  }

  lemma NothingRead(parse: BlockParser)
    ensures Stands(parse, Parser("", false), "") && Found(parse, "") == []
  {}

  function Echo(): BlockParser { (block: string) => Ok([DeltaEvent(block)]) }

  lemma UncutYields()
    ensures Push(Echo(), Parser("", false), "a\r\r\n\nb") == (Parser("b", false), Ok([DeltaEvent("a\r")]))
  {
    var one, t := "a\r\r\n\nb", "a\r\n\nb";
    assert "" + one == one;
    NormalizeSteps();
    assert Boundary(t) == 2 && t[..2] == "a\r" && t[4..] == "b" && Boundary("b") == 1;
    assert Consume(Echo(), "b", [] + [DeltaEvent("a\r")]) == ("b", false, Ok([] + [DeltaEvent("a\r")]));
    assert [] + [DeltaEvent("a\r")] == [DeltaEvent("a\r")];
  }

  lemma CutYields()
    ensures Push(Echo(), Parser("", false), "a\r\r\n") == (Parser("a\r\n", false), Ok([]))
    ensures Push(Echo(), Parser("a\r\n", false), "\nb") == (Parser("b", false), Ok([DeltaEvent("a")]))
  {
    NormalizeSteps();
    assert "" + "a\r\r\n" == "a\r\r\n";
    assert Boundary("a\r\n") == 3;
    assert "a\r\n" + "\nb" == "a\r\n\nb";
    var t := "a\n\nb";
    assert Boundary(t) == 1 && t[..1] == "a" && t[3..] == "b" && Boundary("b") == 1;
    assert Consume(Echo(), "b", [] + [DeltaEvent("a")]) == ("b", false, Ok([] + [DeltaEvent("a")]));
    assert [] + [DeltaEvent("a")] == [DeltaEvent("a")];
  }

  /** With such a sequence the cut does matter: the same text yields different blocks. */
  lemma CutThroughCrCrLfMatters()
    ensures Stream(Echo(), ["a\r\r\n\nb"], "") != Stream(Echo(), ["a\r\r\n", "\nb"], "")
  {
    var one, first, second := "a\r\r\n\nb", "a\r\r\n", "\nb";
    UncutYields();
    CutYields();
    StreamStartsWith(Echo(), [one], "");
    StreamStartsWith(Echo(), [first, second], "");
    FeedOne(Echo(), Parser("", false), one);
    FeedOne(Echo(), Parser("a\r\n", false), second);
    assert [first, second][1..] == [second];
    assert Feed(Echo(), Parser("", false), [first, second]).1 == Ok([] + [DeltaEvent("a")]);
    assert Stream(Echo(), [one], "").Ok? ==> Stream(Echo(), [one], "").value[0] == DeltaEvent("a\r");
    assert Stream(Echo(), [first, second], "").Ok? ==> Stream(Echo(), [first, second], "").value[0] == DeltaEvent("a");
    FinishesFine(Parser("b", false));
  }

  lemma FinishesFine(p: Parser)
    requires p == Parser("b", false)
    ensures Finish(Echo(), p, "").1.Ok?
  {
    assert p.buffer + "" == "b";
    assert Normalize("b") == "b" && Boundary("b") == 1;
  }

  lemma NormalizeSteps()
    ensures Normalize("a\r\r\n\nb") == "a\r\n\nb" && Normalize("a\r\r\n") == "a\r\n" && Normalize("a\r\n\nb") == "a\n\nb"
  {
    assert "a\r\r\n\nb"[1..] == "\r\r\n\nb" && "\r\r\n\nb"[1..] == "\r\n\nb" && "\r\n\nb"[2..] == "\nb" && "\nb"[1..] == "b";
    assert Normalize("\nb") == "\nb";
    assert Normalize("\r\n\nb") == "\n\nb";
    assert Normalize("\r\r\n\nb") == "\r\n\nb";
    assert "a\r\r\n"[1..] == "\r\r\n" && "\r\r\n"[1..] == "\r\n" && "\r\n"[2..] == "";
    assert Normalize("\r\n") == "\n";
    assert Normalize("\r\r\n") == "\r\n";
    assert "a\r\n\nb"[1..] == "\r\n\nb";
  }

  lemma FeedOne(parse: BlockParser, p: Parser, chunk: string)
    requires Push(parse, p, chunk).1.Ok?
    ensures Feed(parse, p, [chunk]) == Push(parse, p, chunk)
  {
    assert [chunk][1..] == [];
    var r := Push(parse, p, chunk).1.value;
    assert r + [] == r;
  }

  lemma StreamStartsWith(parse: BlockParser, chunks: seq<string>, tail: string)
    ensures Stream(parse, chunks, tail).Ok? ==>
              var fed := Feed(parse, Parser("", false), chunks).1;
              fed.Ok? && fed.value <= Stream(parse, chunks, tail).value
  {}
}
