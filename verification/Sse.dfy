/** Server-sent events on the wire: the daemon's frame printer and the client's line parser,
    over byte strings, including the scanner's limit on line length. */
module Sse {
  import opened Wrappers

  /** The client's scanner gives up on a line of this many bytes or more. */
  const MAX_LINE: nat := 1024 * 1024

  const NL: char := '\n'
  const CR: char := '\r'

  // ---------------------------------------------------------------- printing

  /** What the server writes in one go: a frame with optional id and event lines, or a comment
      such as a heartbeat. */
  datatype Chunk = Frame(event: string, id: string, data: string) | Comment(text: string)

  function Line(text: string): string { text + [NL] }

  function Unlines(lines: seq<string>): string {
    if lines == [] then "" else Unlines(lines[..|lines| - 1]) + Line(lines[|lines| - 1])
  }

  /** The optional lines of a frame. */
  function Head(event: string, id: string): seq<string> {
    (if id != "" then ["id: " + id] else []) + (if event != "" then ["event: " + event] else [])
  }

  /** The lines of a chunk: optional id and event, the data, and a blank line. */
  function Lines(c: Chunk): seq<string> {
    match c
    case Frame(event, id, data) => Head(event, id) + ["data: " + data, ""]
    case Comment(text) => [":" + text, ""]
  }

  function Print(c: Chunk): string { Unlines(Lines(c)) }

  function PrintAll(chunks: seq<Chunk>): string {
    if chunks == [] then "" else PrintAll(chunks[..|chunks| - 1]) + Print(chunks[|chunks| - 1])
  }

  // ---------------------------------------------------------------- parsing

  /** The parser: the line read so far, the frame being assembled, the (event, data) frames
      delivered, and whether the scanner has given up. */
  datatype Parser = Parser(line: string, event: string, data: string, out: seq<(string, string)>, dead: bool)

  const START: Parser := Parser("", "", "", [], false)

  function DropCR(line: string): string {
    if line != "" && line[|line| - 1] == CR then line[..|line| - 1] else line
  }

  /** The `switch` over one line. */
  function TakeLine(p: Parser, line: string): Parser {
    if "event: " <= line then p.(event := line[7..])
    else if "data: " <= line then p.(data := line[6..])
    else if line == "" && (p.event != "" || p.data != "") then
      p.(event := "", data := "", out := p.out + [(p.event, p.data)])
    else p
  }

  function Feed(p: Parser, c: char): Parser {
    if p.dead then p
    else if c == NL then TakeLine(p, DropCR(p.line)).(line := "")
    else if |p.line| + 1 < MAX_LINE then p.(line := p.line + [c])
    else p.(dead := true)
  }

  function FeedAll(p: Parser, s: string): Parser {
    if s == "" then p else Feed(FeedAll(p, s[..|s| - 1]), s[|s| - 1])
  }

  /** At the end of the stream a last line without a newline still counts. */
  function Finish(p: Parser): seq<(string, string)> {
    if !p.dead && p.line != "" then TakeLine(p, DropCR(p.line)).out else p.out
  }

  function Parse(s: string): seq<(string, string)> { Finish(FeedAll(START, s)) }

  // ---------------------------------------------------------------- what comes back

  /** A chunk whose fields hold no newline: each field fits on its own line. */
  predicate OneLiners(c: Chunk) {
    match c
    case Frame(event, id, data) => NL !in event && NL !in id && NL !in data
    case Comment(text) => NL !in text
  }

  /** A chunk all of whose lines the scanner accepts. */
  predicate Short(c: Chunk) {
    forall line | line in Lines(c) :: |line| < MAX_LINE
  }

  /** What the client sees of one chunk: nothing of a comment, and a frame without a carriage
      return at the end of its fields. */
  function Seen(c: Chunk): seq<(string, string)> {
    match c
    case Frame(event, _, data) =>
      var e, d := DropCR(event), DropCR(data);
      if e == "" && d == "" then [] else [(e, d)]
    case Comment(_) => []
  }

  function SeenAll(chunks: seq<Chunk>): seq<(string, string)> {
    if chunks == [] then [] else SeenAll(chunks[..|chunks| - 1]) + Seen(chunks[|chunks| - 1])
  }

  /** The chunks before the first one with an overlong line. */
  function Readable(chunks: seq<Chunk>): seq<Chunk> {
    if chunks == [] then []
    else
      var n := |chunks| - 1;
      var before := Readable(chunks[..n]);
      if |before| == n && Short(chunks[n]) then chunks else before
  }

  // ---------------------------------------------------------------- proofs

  lemma {:induction false} FeedConcat(p: Parser, s: string, t: string)
    ensures FeedAll(p, s + t) == FeedAll(FeedAll(p, s), t)
    decreases |t|
  {
    if t == "" {
      assert s + t == s;
    } else {
      var n := |t| - 1;
      FeedConcat(p, s, t[..n]);
      assert (s + t)[..|s + t| - 1] == s + t[..n];
    }
  }

  lemma {:induction false} FeedText(p: Parser, text: string)
    requires p.line == "" && !p.dead && NL !in text
    ensures FeedAll(p, text) ==
      if |text| < MAX_LINE then p.(line := text) else p.(line := text[..MAX_LINE - 1], dead := true)
  {
    if text != "" {
      var n := |text| - 1;
      FeedText(p, text[..n]);
      assert text == text[..n] + [text[n]];
      assert |text| > MAX_LINE ==> text[..n][..MAX_LINE - 1] == text[..MAX_LINE - 1];
    }
  }

  lemma {:induction false} FeedLine(p: Parser, text: string)
    requires p.line == "" && !p.dead && NL !in text && |text| < MAX_LINE
    ensures FeedAll(p, Line(text)) == TakeLine(p, DropCR(text))
  {
    FeedText(p, text);
    assert Line(text)[..|text|] == text;
    assert TakeLine(p.(line := text), DropCR(text)).(line := "") == TakeLine(p, DropCR(text));
  }

  lemma {:induction false} FeedDead(p: Parser, s: string)
    requires p.dead
    ensures FeedAll(p, s) == p
  {
    if s != "" { FeedDead(p, s[..|s| - 1]); }
  }

  lemma {:induction false} FeedLongLine(p: Parser, text: string, rest: string)
    requires p.line == "" && !p.dead && NL !in text && |text| >= MAX_LINE
    ensures FeedAll(p, Line(text) + rest).dead && FeedAll(p, Line(text) + rest).out == p.out
  {
    FeedText(p, text);
    assert Line(text) + rest == text + ([NL] + rest);
    FeedConcat(p, text, [NL] + rest);
    FeedDead(FeedAll(p, text), [NL] + rest);
  }

  // Whole lines.

  function TakeLines(p: Parser, lines: seq<string>): Parser {
    if lines == [] then p
    else TakeLine(TakeLines(p, lines[..|lines| - 1]), DropCR(lines[|lines| - 1]))
  }

  /** The lines before the first overlong one. */
  function Accepted(lines: seq<string>): seq<string> {
    if lines == [] then []
    else
      var n := |lines| - 1;
      var before := Accepted(lines[..n]);
      if |before| == n && |lines[n]| < MAX_LINE then lines else before
  }

  /** `q` is what feeding printed `lines` to `p` must give. */
  ghost predicate Reads(p: Parser, lines: seq<string>, q: Parser) {
    && Accepted(lines) <= lines
    && (Accepted(lines) == lines ==> q == TakeLines(p, lines) && q.line == "" && !q.dead)
    && (Accepted(lines) != lines ==> q.dead && q.out == TakeLines(p, Accepted(lines)).out)
  }

  lemma {:induction false} AcceptedSnoc(lines: seq<string>, last: string)
    ensures Accepted(lines + [last]) ==
      if |Accepted(lines)| == |lines| && |last| < MAX_LINE then lines + [last] else Accepted(lines)
    ensures Unlines(lines + [last]) == Unlines(lines) + Line(last)
  {
    assert (lines + [last])[..|lines|] == lines;
  }

  lemma {:induction false} TakeSnoc(p: Parser, lines: seq<string>, last: string)
    ensures TakeLines(p, lines + [last]) == TakeLine(TakeLines(p, lines), DropCR(last))
  {
    assert (lines + [last])[..|lines|] == lines;
  }

  /** One more line after lines that were all accepted. */
  lemma {:induction false} FeedAccepted(q: Parser, last: string)
    requires q.line == "" && !q.dead && NL !in last
    ensures |last| < MAX_LINE ==> FeedAll(q, Line(last)) == TakeLine(q, DropCR(last))
    ensures |last| >= MAX_LINE ==> FeedAll(q, Line(last)).dead && FeedAll(q, Line(last)).out == q.out
  {
    if |last| < MAX_LINE {
      FeedLine(q, last);
    } else {
      FeedLongLine(q, last, "");
      assert Line(last) + "" == Line(last);
    }
  }

  lemma {:induction false} FeedSnoc(p: Parser, lines: seq<string>, last: string)
    requires p.line == "" && !p.dead && NL !in last
    requires Reads(p, lines, FeedAll(p, Unlines(lines)))
    ensures Reads(p, lines + [last], FeedAll(p, Unlines(lines + [last])))
  {
    var q := FeedAll(p, Unlines(lines));
    var q' := FeedAll(q, Line(last));
    FeedConcat(p, Unlines(lines), Line(last));
    AcceptedSnoc(lines, last);
    assert q' == FeedAll(p, Unlines(lines + [last]));
    if Accepted(lines) != lines {
      FeedDead(q, Line(last));
    } else {
      FeedAccepted(q, last);
      TakeSnoc(p, lines, last);
    }
  }

  lemma {:induction false} FeedUnlines(p: Parser, lines: seq<string>)
    requires p.line == "" && !p.dead && forall line | line in lines :: NL !in line
    ensures Reads(p, lines, FeedAll(p, Unlines(lines)))
  {
    hide Feed, TakeLine, Line;
    if lines != [] {
      var init, last := lines[..|lines| - 1], lines[|lines| - 1];
      assert last in lines && forall line | line in init :: line in lines;
      assert init + [last] == lines;
      hide *;
      FeedUnlines(p, init);
      FeedSnoc(p, init, last);
    }
  }

  lemma {:induction false} AcceptedAll(lines: seq<string>)
    ensures Accepted(lines) <= lines
    ensures Accepted(lines) == lines <==> forall line | line in lines :: |line| < MAX_LINE
  {
    if lines != [] {
      var n := |lines| - 1;
      AcceptedAll(lines[..n]);
      AcceptedSnoc(lines[..n], lines[n]);
      assert lines == lines[..n] + [lines[n]];
    }
  }

  /** Lines that are not blank deliver nothing. */
  lemma {:induction false} NothingDelivered(p: Parser, lines: seq<string>)
    requires forall line | line in lines :: DropCR(line) != ""
    ensures TakeLines(p, lines).out == p.out
  {
    if lines != [] {
      assert lines[|lines| - 1] in lines && forall line | line in lines[..|lines| - 1] :: line in lines;
      NothingDelivered(p, lines[..|lines| - 1]);
    }
  }

  // One chunk.

  lemma {:induction false} DropCRAfter(prefix: string, field: string)
    requires field != "" || (prefix != "" && prefix[|prefix| - 1] != CR)
    ensures DropCR(prefix + field) == prefix + DropCR(field)
  {
    if field == "" { assert prefix + field == prefix; }
  }

  /** The parser is between frames. */
  ghost predicate Idle(p: Parser) { p.line == "" && p.event == "" && p.data == "" && !p.dead }

  lemma {:induction false} TakeId(p: Parser, id: string)
    requires id != ""
    ensures TakeLine(p, DropCR("id: " + id)) == p && DropCR("id: " + id) != ""
  {
    DropCRAfter("id: ", id);
    assert ("id: " + DropCR(id))[0] == 'i';
  }

  lemma {:induction false} TakeEvent(p: Parser, event: string)
    requires event != ""
    ensures TakeLine(p, DropCR("event: " + event)) == p.(event := DropCR(event)) && DropCR("event: " + event) != ""
  {
    DropCRAfter("event: ", event);
    assert ("event: " + DropCR(event))[7..] == DropCR(event);
  }

  lemma {:induction false} TakeData(p: Parser, data: string)
    ensures TakeLine(p, DropCR("data: " + data)) == p.(data := DropCR(data)) && DropCR("data: " + data) != ""
  {
    DropCRAfter("data: ", data);
    var line := "data: " + DropCR(data);
    assert line[6..] == DropCR(data);
    assert line[0] == 'd';
  }

  lemma {:induction false} TakeComment(p: Parser, text: string)
    ensures TakeLine(p, DropCR(":" + text)) == p && DropCR(":" + text) != ""
  {
    DropCRAfter(":", text);
    assert (":" + DropCR(text))[0] == ':';
  }

  lemma {:induction false} TakeTwo(p: Parser, lines: seq<string>, a: string, b: string)
    ensures TakeLines(p, lines + [a, b]) == TakeLine(TakeLine(TakeLines(p, lines), DropCR(a)), DropCR(b))
  {
    TakeSnoc(p, lines, a);
    TakeSnoc(p, lines + [a], b);
    assert lines + [a, b] == lines + [a] + [b];
  }

  lemma {:induction false} TakeHead(p: Parser, event: string, id: string)
    requires Idle(p)
    ensures TakeLines(p, Head(event, id)) == p.(event := DropCR(event))
    ensures forall line | line in Head(event, id) :: DropCR(line) != ""
  {
    var ids := if id != "" then ["id: " + id] else [];
    if id != "" {
      TakeId(p, id);
      TakeSnoc(p, [], "id: " + id);
      assert [] + ["id: " + id] == ids;
    }
    if event != "" {
      TakeEvent(p, event);
      TakeSnoc(p, ids, "event: " + event);
    } else {
      assert Head(event, id) == ids;
    }
  }

  lemma {:induction false} BlankLine(p: Parser, q: Parser)
    requires q == p.(event := q.event, data := q.data) && Idle(p)
    ensures TakeLine(q, DropCR("")) ==
      p.(out := p.out + if q.event != "" || q.data != "" then [(q.event, q.data)] else [])
  {
    assert p.out + [] == p.out;
  }

  lemma {:induction false} TakeFrame(p: Parser, event: string, id: string, data: string)
    requires Idle(p)
    ensures TakeLines(p, Lines(Frame(event, id, data))) == p.(out := p.out + Seen(Frame(event, id, data)))
  {
    var q := p.(event := DropCR(event));
    TakeHead(p, event, id);
    TakeData(q, data);
    TakeTwo(p, Head(event, id), "data: " + data, "");
    BlankLine(p, q.(data := DropCR(data)));
    hide TakeLines, TakeLine, DropCR, Head, Idle;
  }

  lemma {:induction false} TakeCommentLines(p: Parser, text: string)
    requires Idle(p)
    ensures TakeLines(p, Lines(Comment(text))) == p.(out := p.out + Seen(Comment(text)))
  {
    TakeComment(p, text);
    assert [":" + text, ""] == [] + [":" + text, ""] && TakeLines(p, []) == p;
    TakeTwo(p, [], ":" + text, "");
    BlankLine(p, p);
    assert p.out + [] == p.out;
    hide TakeLines, TakeLine, DropCR;
  }

  /** Only the last line of a chunk is blank. */
  lemma {:induction false} LastLineIsBlank(c: Chunk)
    ensures forall line | line in Lines(c)[..|Lines(c)| - 1] :: DropCR(line) != ""
  {
    match c
    case Comment(text) =>
      TakeComment(START, text);
      assert Lines(c)[..|Lines(c)| - 1] == [":" + text];
    case Frame(event, id, data) =>
      TakeHead(START, event, id);
      TakeData(START, data);
      hide TakeLines, TakeLine, DropCR, Head;
      assert Lines(c)[..|Lines(c)| - 1] == Head(event, id) + ["data: " + data];
  }

  lemma {:induction false} TakeChunk(p: Parser, c: Chunk)
    requires Idle(p)
    ensures TakeLines(p, Lines(c)) == p.(out := p.out + Seen(c))
    ensures forall line | line in Lines(c)[..|Lines(c)| - 1] :: DropCR(line) != ""
  {
    hide *;
    LastLineIsBlank(c);
    match c
    case Comment(text) => TakeCommentLines(p, text);
    case Frame(event, id, data) => TakeFrame(p, event, id, data);
  }

  lemma {:induction false} LinesAreLines(c: Chunk)
    requires OneLiners(c)
    ensures forall line | line in Lines(c) :: NL !in line
  {
  }

  lemma {:induction false} PartDelivered(p: Parser, lines: seq<string>, part: seq<string>)
    requires part <= lines && part != lines
    requires forall line | line in lines[..|lines| - 1] :: DropCR(line) != ""
    ensures TakeLines(p, part).out == p.out
  {
    var init := lines[..|lines| - 1];
    assert forall i | 0 <= i < |part| :: part[i] == init[i];
    NothingDelivered(p, part);
  }

  /** Feeding one printed chunk to a parser that is between frames. */
  lemma {:induction false} FeedChunk(p: Parser, c: Chunk)
    requires Idle(p) && OneLiners(c)
    ensures Short(c) ==> FeedAll(p, Print(c)) == p.(out := p.out + Seen(c))
    ensures !Short(c) ==> FeedAll(p, Print(c)).dead && FeedAll(p, Print(c)).out == p.out
  {
    LinesAreLines(c);
    FeedUnlines(p, Lines(c));
    AcceptedAll(Lines(c));
    TakeChunk(p, c);
    if !Short(c) {
      PartDelivered(p, Lines(c), Accepted(Lines(c)));
    }
  }

  /** `p` is what feeding printed `chunks` to a fresh parser must give. */
  ghost predicate Delivers(chunks: seq<Chunk>, p: Parser) {
    && Readable(chunks) <= chunks
    && p.out == SeenAll(Readable(chunks))
    && (p.dead <==> Readable(chunks) != chunks)
    && (!p.dead ==> Idle(p))
  }

  lemma {:induction false} SeenSnoc(chunks: seq<Chunk>, c: Chunk)
    ensures SeenAll(chunks + [c]) == SeenAll(chunks) + Seen(c)
  {
    assert (chunks + [c])[..|chunks|] == chunks;
  }

  lemma {:induction false} ChunksSnoc(chunks: seq<Chunk>, c: Chunk)
    ensures Readable(chunks + [c]) ==
      if |Readable(chunks)| == |chunks| && Short(c) then chunks + [c] else Readable(chunks)
    ensures PrintAll(chunks + [c]) == PrintAll(chunks) + Print(c)
  {
    assert (chunks + [c])[..|chunks|] == chunks;
  }

  lemma {:induction false} FeedChunkSnoc(chunks: seq<Chunk>, c: Chunk)
    requires OneLiners(c) && Delivers(chunks, FeedAll(START, PrintAll(chunks)))
    ensures Delivers(chunks + [c], FeedAll(START, PrintAll(chunks + [c])))
  {
    var p := FeedAll(START, PrintAll(chunks));
    ChunksSnoc(chunks, c);
    SeenSnoc(chunks, c);
    FeedConcat(START, PrintAll(chunks), Print(c));
    if p.dead {
      FeedDead(p, Print(c));
    } else {
      FeedChunk(p, c);
    }
  }

  ghost predicate Clean(chunks: seq<Chunk>) {
    forall c | c in chunks :: OneLiners(c)
  }

  lemma {:induction false} CleanSnoc(chunks: seq<Chunk>, c: Chunk)
    requires Clean(chunks + [c])
    ensures Clean(chunks) && OneLiners(c)
  {
    hide OneLiners;
    assert (chunks + [c])[|chunks|] == c;
  }

  lemma {:induction false} FeedChunks(chunks: seq<Chunk>)
    requires Clean(chunks)
    ensures Delivers(chunks, FeedAll(START, PrintAll(chunks)))
  {
    if chunks != [] {
      hide *;
      var init, c := chunks[..|chunks| - 1], chunks[|chunks| - 1];
      assert init + [c] == chunks;
      CleanSnoc(init, c);
      FeedChunks(init);
      FeedChunkSnoc(init, c);
    }
  }

  /** Round trip: for any frames and comments without newlines in their fields, the client
      parses back exactly the frames before the first overlong line. */
  lemma {:induction false} RoundTrip(chunks: seq<Chunk>)
    requires forall c | c in chunks :: OneLiners(c)
    ensures Parse(PrintAll(chunks)) == SeenAll(Readable(chunks))
    ensures (forall c | c in chunks :: Short(c)) ==> Parse(PrintAll(chunks)) == SeenAll(chunks)
  {
    FeedChunks(chunks);
    AllShortIsReadable(chunks);
  }

  lemma {:induction false} AllShortIsReadable(chunks: seq<Chunk>)
    ensures (forall c | c in chunks :: Short(c)) ==> Readable(chunks) == chunks
  {
    if chunks != [] && forall c | c in chunks :: Short(c) {
      assert chunks[|chunks| - 1] in chunks && forall b | b in chunks[..|chunks| - 1] :: b in chunks;
      AllShortIsReadable(chunks[..|chunks| - 1]);
    }
  }

  predicate EndsCR(s: string) { s != "" && s[|s| - 1] == CR }

  /** A frame comes back unchanged exactly when neither field ends in a carriage return and
      they are not both empty. */
  lemma {:induction false} SeenUnchanged(c: Chunk)
    requires c.Frame?
    ensures Seen(c) == [(c.event, c.data)] <==>
      !EndsCR(c.event) && !EndsCR(c.data) && (c.event != "" || c.data != "")
  {
    assert EndsCR(c.event) ==> |DropCR(c.event)| < |c.event|;
    assert EndsCR(c.data) ==> |DropCR(c.data)| < |c.data|;
  }

  // ---------------------------------------------------------------- cut streams

  /** No line starts with a carriage return. */
  ghost predicate NoLeadingCR(s: string) {
    && (s != "" ==> s[0] != CR)
    && (forall i | 0 < i < |s| :: s[i - 1] == NL ==> s[i] != CR)
  }

  lemma {:induction false} NoLeadingCRConcat(s: string, t: string)
    requires NoLeadingCR(s) && NoLeadingCR(t)
    ensures NoLeadingCR(s + t)
  {
    var u := s + t;
    forall i | 0 < i < |u| && u[i - 1] == NL ensures u[i] != CR {
      assert i > |s| ==> u[i] == t[i - |s|] && u[i - 1] == t[i - |s| - 1];
    }
  }

  lemma {:induction false} LineStarts(text: string)
    requires NL !in text && (text != "" ==> text[0] != CR)
    ensures NoLeadingCR(Line(text))
  {
    assert forall i | 0 <= i < |text| :: text[i] in text;
  }

  lemma {:induction false} UnlinesStart(lines: seq<string>)
    requires forall line | line in lines :: NL !in line && (line != "" ==> line[0] != CR)
    ensures NoLeadingCR(Unlines(lines))
  {
    if lines != [] {
      var n := |lines| - 1;
      assert lines[n] in lines && forall line | line in lines[..n] :: line in lines;
      UnlinesStart(lines[..n]);
      LineStarts(lines[n]);
      NoLeadingCRConcat(Unlines(lines[..n]), Line(lines[n]));
    }
  }

  lemma {:induction false} PrintNoLeadingCR(c: Chunk)
    requires OneLiners(c)
    ensures NoLeadingCR(Print(c))
  {
    LinesAreLines(c);
    assert forall line | line in Lines(c) && line != "" :: line[0] != CR;
    UnlinesStart(Lines(c));
  }

  lemma {:induction false} PrintAllNoLeadingCR(chunks: seq<Chunk>)
    requires forall c | c in chunks :: OneLiners(c)
    ensures NoLeadingCR(PrintAll(chunks))
  {
    if chunks != [] {
      var n := |chunks| - 1;
      assert chunks[n] in chunks && forall b | b in chunks[..n] :: b in chunks;
      PrintAllNoLeadingCR(chunks[..n]);
      PrintNoLeadingCR(chunks[n]);
      NoLeadingCRConcat(PrintAll(chunks[..n]), Print(chunks[n]));
    }
  }

  lemma {:induction false} NoLeadingCRCut(s: string, n: nat)
    requires NoLeadingCR(s) && n <= |s|
    ensures NoLeadingCR(s[..n])
  {
    var cut := s[..n];
    forall i | 0 < i < n && cut[i - 1] == NL ensures cut[i] != CR {
      assert s[i - 1] == NL;
    }
  }

  /** An unfinished last line delivers nothing. */
  lemma {:induction false} CutAddsNothing(s: string)
    requires NoLeadingCR(s)
    ensures Parse(s) == FeedAll(START, s).out
  {
    PendingLine(s);
    var p := FeedAll(START, s);
    if !p.dead && p.line != "" {
      assert DropCR(p.line) != "";
    }
  }

  /** The unfinished line of a live parser never is a lone carriage return. */
  lemma {:induction false} PendingLine(s: string)
    requires NoLeadingCR(s)
    ensures
      var p := FeedAll(START, s);
      !p.dead ==>
        && (p.line == "" ==> s == "" || s[|s| - 1] == NL)
        && (p.line != "" ==> p.line[0] != CR)
  {
    if s != "" {
      var init := s[..|s| - 1];
      NoLeadingCRCut(s, |s| - 1);
      PendingLine(init);
      assert init != "" ==> init[|init| - 1] == s[|s| - 2];
    }
  }

  lemma {:induction false} FeedOnlyAdds(p: Parser, s: string)
    ensures p.out <= FeedAll(p, s).out
  {
    if s != "" { FeedOnlyAdds(p, s[..|s| - 1]); }
  }

  /** A stream cut anywhere, even inside a line, parses to a prefix of the frames sent: no
      partial or garbled frame is ever delivered. */
  lemma {:induction false} CutStream(chunks: seq<Chunk>, n: nat)
    requires forall c | c in chunks :: OneLiners(c)
    requires n <= |PrintAll(chunks)|
    ensures Parse(PrintAll(chunks)[..n]) <= SeenAll(Readable(chunks))
  {
    var all := PrintAll(chunks);
    var cut := all[..n];
    PrintAllNoLeadingCR(chunks);
    NoLeadingCRCut(all, n);
    assert all == cut + all[n..];
    FeedConcat(START, cut, all[n..]);
    FeedOnlyAdds(FeedAll(START, cut), all[n..]);
    FeedChunks(chunks);
    CutAddsNothing(cut);
  }

  // ---------------------------------------------------------------- the imperative code

  /** The response body, and the chunks it is the text of. */
  class ResponseWriter {
    var body: string
    ghost var chunks: seq<Chunk>

    ghost predicate Valid()
      reads this
    {
      body == PrintAll(chunks)
    }

    constructor ()
      ensures Valid() && chunks == []
    {
      body, chunks := "", [];
    }

    method WriteLine(ghost from: string, ghost lines: seq<string>, text: string)
      requires body == from + Unlines(lines)
      modifies this`body
      ensures body == from + Unlines(lines + [text])
    {
      AcceptedSnoc(lines, text);
      hide Unlines, Accepted, Line;
      assert body + Line(text) == from + (Unlines(lines) + Line(text));
      body := body + Line(text);
    }

    method WriteFrame(event: string, id: string, data: string)
      requires Valid()
      modifies this
      ensures Valid() && chunks == old(chunks) + [Frame(event, id, data)]
    {
      ghost var lines: seq<string> := [];
      if id != "" {
        WriteLine(old(body), lines, "id: " + id);
        lines := ["id: " + id];
      }
      if event != "" {
        WriteLine(old(body), lines, "event: " + event);
        lines := lines + ["event: " + event];
      }
      WriteLine(old(body), lines, "data: " + data);
      WriteLine(old(body), lines + ["data: " + data], "");
      assert lines + ["data: " + data] + [""] == Lines(Frame(event, id, data));
      Wrote(Frame(event, id, data), old(body));
    }

    method WriteComment(text: string)
      requires Valid()
      modifies this
      ensures Valid() && chunks == old(chunks) + [Comment(text)]
    {
      WriteLine(body, [], ":" + text);
      WriteLine(old(body), [":" + text], "");
      assert [":" + text] + [""] == Lines(Comment(text));
      Wrote(Comment(text), old(body));
    }

    ghost method Wrote(c: Chunk, before: string)
      requires before == PrintAll(chunks) && body == before + Unlines(Lines(c))
      modifies this`chunks
      ensures Valid() && chunks == old(chunks) + [c]
    {
      ChunksSnoc(chunks, c);
      chunks := chunks + [c];
    }
  }

  /** bufio.Scanner: the end of the line that starts at `i`, or None when it is too long. */
  method ScanLine(s: string, i: nat) returns (end: Option<nat>)
    requires i < |s|
    ensures end.Some? ==> i <= end.value <= |s| && NL !in s[i..end.value] && end.value - i < MAX_LINE
    ensures end.Some? && end.value < |s| ==> s[end.value] == NL
    ensures end.None? ==> i + MAX_LINE <= |s| && NL !in s[i..i + MAX_LINE]
  {
    var j := i;
    while j < |s| && s[j] != NL && j - i < MAX_LINE
      invariant i <= j <= |s| && j - i <= MAX_LINE
      invariant NL !in s[i..j]
    {
      assert s[i..j + 1] == s[i..j] + [s[j]];
      j := j + 1;
    }
    if j - i == MAX_LINE {
      end := None;
    } else {
      end := Some(j);
    }
  }

  /** The switch over one line, as it comes from the scanner. */
  method Switch(ghost p: Parser, raw: string, event: string, data: string, out: seq<(string, string)>)
    returns (event': string, data': string, out': seq<(string, string)>)
    requires p == Parser("", event, data, out, false)
    ensures TakeLine(p, DropCR(raw)) == Parser("", event', data', out', false)
  {
    event', data', out' := event, data, out;
    var line := if raw != "" && raw[|raw| - 1] == CR then raw[..|raw| - 1] else raw;
    if "event: " <= line {
      event' := line[7..];
    } else if "data: " <= line {
      data' := line[6..];
    } else if line == "" && (event != "" || data != "") {
      out' := out + [(event, data)];
      event', data' := "", "";
    }
  }

  /** At the end of the text with no line pending, what was delivered is the parse. */
  lemma {:induction false} NothingPending(s: string, i: nat, p: Parser)
    requires i == |s| && p == FeedAll(START, s[..i]) && p.line == ""
    ensures Parse(s) == p.out
  {
    assert s[..i] == s;
    hide FeedAll;
  }

  /** The client's reader: lines one by one, a frame delivered at each blank line. */
  method ReadSSE(s: string) returns (out: seq<(string, string)>)
    ensures out == Parse(s)
  {
    var event, data := "", "";
    out := [];
    var i := 0;
    assert FeedAll(START, s[..0]) == Parser("", "", "", [], false);
    hide *;
    while i < |s|
      invariant 0 <= i <= |s|
      invariant FeedAll(START, s[..i]) == Parser("", event, data, out, false)
    {
      ghost var p := FeedAll(START, s[..i]);
      var end := ScanLine(s, i);
      if end.None? {
        GivesUp(s, i, p);
        return;
      }
      AdvanceLine(s, i, end.value, p);
      event, data, out := Switch(p, s[i..end.value], event, data, out);
      if end.value == |s| {
        return;
      }
      i := end.value + 1;
    }
    NothingPending(s, i, FeedAll(START, s[..i]));
  }

  lemma {:induction false} GivesUp(s: string, i: nat, p: Parser)
    requires i + MAX_LINE <= |s| && NL !in s[i..i + MAX_LINE]
    requires p == FeedAll(START, s[..i]) && p.line == "" && !p.dead
    ensures Parse(s) == p.out
  {
    var text, rest := s[i..i + MAX_LINE], s[i + MAX_LINE..];
    assert s == s[..i] + (text + rest);
    FeedConcat(START, s[..i], text + rest);
    FeedConcat(p, text, rest);
    FeedText(p, text);
    FeedDead(FeedAll(p, text), rest);
  }

  /** A line with its newline is one step of the parser. */
  lemma {:induction false} FullLine(s: string, i: nat, end: nat, p: Parser)
    requires i <= end < |s| && s[end] == NL && NL !in s[i..end] && end - i < MAX_LINE
    requires p == FeedAll(START, s[..i]) && p.line == "" && !p.dead
    ensures FeedAll(START, s[..end + 1]) == TakeLine(p, DropCR(s[i..end]))
  {
    var raw := s[i..end];
    assert s[..end] == s[..i] + raw && s[..end + 1] == s[..end] + [NL];
    assert s[..i] + raw + [NL] == s[..i] + (raw + [NL]);
    assert s[..end + 1] == s[..i] + Line(raw);
    hide *;
    FeedConcat(START, s[..i], Line(raw));
    FeedLine(p, raw);
  }

  /** A last line without one still counts. */
  lemma {:induction false} LastLine(s: string, i: nat, p: Parser)
    requires i < |s| && NL !in s[i..] && |s| - i < MAX_LINE
    requires p == FeedAll(START, s[..i]) && p.line == "" && !p.dead
    ensures Parse(s) == TakeLine(p, DropCR(s[i..])).out
  {
    var raw := s[i..];
    assert s == s[..i] + raw && Parse(s) == Finish(FeedAll(START, s));
    FinishTakes(p, raw);
    hide *;
    FeedConcat(START, s[..i], raw);
    FeedText(p, raw);
  }

  lemma {:induction false} FinishTakes(p: Parser, raw: string)
    requires p.line == "" && !p.dead && raw != ""
    ensures Finish(p.(line := raw)) == TakeLine(p, DropCR(raw)).out
  {
    hide DropCR;
  }

  lemma {:induction false} AdvanceLine(s: string, i: nat, end: nat, p: Parser)
    requires i <= end <= |s| && NL !in s[i..end] && end - i < MAX_LINE
    requires p == FeedAll(START, s[..i]) && p.line == "" && !p.dead
    ensures end < |s| && s[end] == NL ==> FeedAll(START, s[..end + 1]) == TakeLine(p, DropCR(s[i..end]))
    ensures end == |s| && i < end ==> Parse(s) == TakeLine(p, DropCR(s[i..end])).out
  {
    hide *;
    if end < |s| && s[end] == NL {
      FullLine(s, i, end, p);
    } else if end == |s| && i < end {
      assert s[i..end] == s[i..];
      LastLine(s, i, p);
    }
  }
}
