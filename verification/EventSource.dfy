/** A reader of the event stream that keeps the id lines, as a resuming client must: lines first,
    then frames of id, event and data. */
module EventSource {
  import opened Sse

  /** A frame as read; a text of "" stands for a line that was not there. */
  datatype Tagged = Tagged(id: string, event: string, data: string)

  /** The complete lines of a text, and what follows the last newline. */
  datatype Text = Text(lines: seq<string>, rest: string)

  function Split(s: string): Text {
    if s == "" then Text([], "")
    else
      var t, c := Split(s[..|s| - 1]), s[|s| - 1];
      if c == NL then Text(t.lines + [t.rest], "") else t.(rest := t.rest + [c])
  }

  /** The frame being assembled, and those delivered. */
  datatype Reader = Reader(frame: Tagged, out: seq<Tagged>)

  const BLANK: Tagged := Tagged("", "", "")

  function ReadLine(r: Reader, line: string): Reader {
    if "id: " <= line then r.(frame := r.frame.(id := line[4..]))
    else if "event: " <= line then r.(frame := r.frame.(event := line[7..]))
    else if "data: " <= line then r.(frame := r.frame.(data := line[6..]))
    else if line == "" && r.frame != BLANK then Reader(BLANK, r.out + [r.frame])
    else r
  }

  function ReadLines(r: Reader, lines: seq<string>): Reader {
    if lines == [] then r else ReadLine(ReadLines(r, lines[..|lines| - 1]), lines[|lines| - 1])
  }

  function ReadTagged(s: string): seq<Tagged> {
    ReadLines(Reader(BLANK, []), Split(s).lines).out
  }

  // ---------------------------------------------------------------- splitting what was printed

  lemma {:induction false} SplitText(s: string, x: string)
    requires Split(s).rest == "" && NL !in x
    ensures Split(s + x) == Text(Split(s).lines, x)
  {
    if x == "" {
      assert s + x == s;
    } else {
      var init, c := x[..|x| - 1], x[|x| - 1];
      assert x == init + [c] && c in x && c != NL;
      SplitText(s, init);
      assert (s + x)[..|s + x| - 1] == s + init;
    }
  }

  lemma {:induction false} SplitLine(s: string, x: string)
    requires Split(s).rest == "" && NL !in x
    ensures Split(s + Line(x)) == Text(Split(s).lines + [x], "")
  {
    SplitText(s, x);
    assert (s + Line(x))[..|s + Line(x)| - 1] == s + x;
  }

  lemma {:induction false} SplitUnlines(s: string, lines: seq<string>)
    requires Split(s).rest == "" && forall line | line in lines :: NL !in line
    ensures Split(s + Unlines(lines)) == Text(Split(s).lines + lines, "")
  {
    if lines == [] {
      assert s + Unlines(lines) == s && Split(s).lines + [] == Split(s).lines;
    } else {
      hide Split, Line;
      var init, last := lines[..|lines| - 1], lines[|lines| - 1];
      assert last in lines && forall line | line in init :: line in lines;
      SplitUnlines(s, init);
      SplitLine(s + Unlines(init), last);
      JoinThree(s, Unlines(init), Line(last));
      JoinThree(Split(s).lines, init, [last]);
      assert init + [last] == lines;
    }
  }

  lemma {:induction false} JoinThree<T>(a: seq<T>, b: seq<T>, c: seq<T>)
    ensures a + b + c == a + (b + c)
  {
  }

  // ---------------------------------------------------------------- reading one chunk

  /** What a chunk whose fields do not end in CR is read as. */
  function Tags(c: Chunk): seq<Tagged> {
    match c
    case Frame(event, id, data) => if id != "" || event != "" || data != "" then [Tagged(id, event, data)] else []
    case Comment(_) => []
  }

  function TagsAll(chunks: seq<Chunk>): seq<Tagged> {
    if chunks == [] then [] else TagsAll(chunks[..|chunks| - 1]) + Tags(chunks[|chunks| - 1])
  }

  lemma {:induction false} ReadSnoc(r: Reader, lines: seq<string>, last: string)
    ensures ReadLines(r, lines + [last]) == ReadLine(ReadLines(r, lines), last)
  {
    assert (lines + [last])[..|lines|] == lines;
  }

  lemma {:induction false} ReadConcat(r: Reader, a: seq<string>, b: seq<string>)
    ensures ReadLines(r, a + b) == ReadLines(ReadLines(r, a), b)
  {
    hide ReadLine;
    if b == [] {
      assert a + b == a;
    } else {
      var init, last := b[..|b| - 1], b[|b| - 1];
      ReadConcat(r, a, init);
      ReadSnoc(r, a + init, last);
      assert a + b == a + init + [last];
    }
  }

  lemma {:induction false} ReadId(r: Reader, id: string)
    ensures ReadLine(r, "id: " + id) == r.(frame := r.frame.(id := id))
  {
    var line := "id: " + id;
    assert line[4..] == id && "id: " <= line;
  }

  lemma {:induction false} ReadEvent(r: Reader, event: string)
    ensures ReadLine(r, "event: " + event) == r.(frame := r.frame.(event := event))
  {
    var line := "event: " + event;
    assert line[7..] == event && "event: " <= line && line[0] == 'e';
  }

  lemma {:induction false} ReadData(r: Reader, data: string)
    ensures ReadLine(r, "data: " + data) == r.(frame := r.frame.(data := data))
  {
    var line := "data: " + data;
    assert line[6..] == data && "data: " <= line && line[0] == 'd';
  }

  lemma {:induction false} ReadHead(r: Reader, event: string, id: string)
    requires r.frame == BLANK
    ensures ReadLines(r, Head(event, id)) == r.(frame := Tagged(id, event, ""))
  {
    hide ReadLine;
    var ids := if id != "" then ["id: " + id] else [];
    if id != "" {
      ReadId(r, id);
      ReadSnoc(r, [], "id: " + id);
      assert [] + ["id: " + id] == ids;
    }
    if event != "" {
      ReadEvent(r.(frame := r.frame.(id := id)), event);
      ReadSnoc(r, ids, "event: " + event);
    } else {
      assert Head(event, id) == ids;
    }
  }

  lemma {:induction false} ReadBlank(r: Reader)
    ensures ReadLine(r, "") == Reader(BLANK, r.out + if r.frame == BLANK then [] else [r.frame])
  {
    assert r.out + [] == r.out;
  }

  lemma {:induction false} ReadFrame(r: Reader, event: string, id: string, data: string)
    requires r.frame == BLANK
    ensures ReadLines(r, Lines(Frame(event, id, data))) == r.(out := r.out + Tags(Frame(event, id, data)))
  {
    hide ReadLine;
    var head := Head(event, id);
    ReadHead(r, event, id);
    ReadData(r.(frame := Tagged(id, event, "")), data);
    ReadSnoc(r, head, "data: " + data);
    ReadBlank(r.(frame := Tagged(id, event, data)));
    ReadSnoc(r, head + ["data: " + data], "");
    assert Lines(Frame(event, id, data)) == head + ["data: " + data] + [""];
  }

  lemma {:induction false} ReadComment(r: Reader, text: string)
    requires r.frame == BLANK
    ensures ReadLines(r, Lines(Comment(text))) == r
  {
    var line := ":" + text;
    assert line[0] == ':';
    assert ReadLine(r, line) == r;
    ReadBlank(r);
    ReadSnoc(r, [], line);
    ReadSnoc(r, [] + [line], "");
    assert Lines(Comment(text)) == [] + [line] + [""];
    assert r.out + [] == r.out;
  }

  lemma {:induction false} ReadChunk(r: Reader, c: Chunk)
    requires r.frame == BLANK
    ensures ReadLines(r, Lines(c)) == r.(out := r.out + Tags(c))
  {
    hide ReadLine, ReadLines, Lines;
    match c
    case Frame(event, id, data) => ReadFrame(r, event, id, data);
    case Comment(text) => ReadComment(r, text); assert r.out + [] == r.out;
  }

  // ---------------------------------------------------------------- reading a stream

  lemma {:induction false} PrintedLines(s: string, c: Chunk)
    requires Split(s).rest == "" && OneLiners(c)
    ensures Split(s + Print(c)) == Text(Split(s).lines + Lines(c), "")
  {
    LinesAreLines(c);
    hide Lines, OneLiners;
    SplitUnlines(s, Lines(c));
  }

  lemma {:induction false} ReadsChunks(chunks: seq<Chunk>)
    requires Clean(chunks)
    ensures Split(PrintAll(chunks)).rest == ""
    ensures ReadLines(Reader(BLANK, []), Split(PrintAll(chunks)).lines) == Reader(BLANK, TagsAll(chunks))
  {
    if chunks != [] {
      hide ReadLines, Split, Tags, Clean, OneLiners, Lines, Print;
      var init, c := chunks[..|chunks| - 1], chunks[|chunks| - 1];
      assert init + [c] == chunks;
      CleanSnoc(init, c);
      ReadsChunks(init);
      PrintedLines(PrintAll(init), c);
      ReadConcat(Reader(BLANK, []), Split(PrintAll(init)).lines, Lines(c));
      ReadChunk(Reader(BLANK, TagsAll(init)), c);
    }
  }

  /** Reading printed chunks gives, frame by frame, the id, event and data that were printed;
      comments leave nothing. */
  lemma {:induction false} TaggedRoundTrip(chunks: seq<Chunk>)
    requires forall c | c in chunks :: OneLiners(c)
    ensures ReadTagged(PrintAll(chunks)) == TagsAll(chunks)
  {
    hide OneLiners;
    ReadsChunks(chunks);
  }
}
