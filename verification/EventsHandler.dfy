/** The GET /v1/events handler: greeting, paged replay, and a live loop that reads its channel,
    proved to write what the transition system's session writes in the same moves. */
module EventsHandler {
  import opened Wrappers
  import opened EventLog
  import opened EventStream
  import opened StreamSafety
  import Broadcast
  import Broadcaster
  import Cursor
  import Sse

  const LAGGED: string :=
    "{\"v\":1,\"code\":\"events.lagged\",\"detail\":\"subscriber buffer overflowed; "
    + "reconnect with Last-Event-ID\"}"

  /** How a frame is written; `status` is the connection.state payload of the moment. */
  function Wire(f: Frame, status: string): Sse.Chunk {
    match f
    case ConnectionState => Sse.Frame("connection.state", "0", status)
    case Row(ev) => RowChunk(ev)
    case Lagged => Sse.Frame("error", "", LAGGED)
  }

  function RowChunk(ev: Event): Sse.Chunk {
    Sse.Frame(ev.kind, Cursor.FormatInt(ev.id), ev.payload)
  }

  function RowChunks(rows: seq<Event>): seq<Sse.Chunk> {
    seq(|rows|, i requires 0 <= i < |rows| => RowChunk(rows[i]))
  }

  // ---------------------------------------------------------------- replay

  /** What a paged read has gathered: the rows after `cursor` of the log as of the last query. */
  datatype Replayed = Replayed(rows: seq<Event>, last: nat, complete: bool)

  method WriteRows(w: Sse.ResponseWriter, rows: seq<Event>)
    requires w.Valid()
    modifies w
    ensures w.Valid() && w.chunks == old(w.chunks) + RowChunks(rows)
  {
    hide Sse.PrintAll;
    var i := 0;
    while i < |rows|
      invariant 0 <= i <= |rows|
      invariant w.Valid() && w.chunks == old(w.chunks) + RowChunks(rows[..i])
    {
      var row := rows[i];
      assert RowChunks(rows[..i + 1]) == RowChunks(rows[..i]) + [RowChunk(row)];
      w.WriteFrame(row.kind, Cursor.FormatInt(row.id), row.payload);
      i := i + 1;
    }
    assert rows[..i] == rows;
  }

  /** The n-th query of a replay sees the log `pages(n)`; other sessions may append in between.
      `final` bounds the appends that happen while this replay lasts. */
  ghost predicate Growing(pages: nat -> seq<Event>, final: seq<Event>) {
    && IsLog(final)
    && (forall n :: pages(n) <= final)
    && (forall m, n | m <= n :: pages(m) <= pages(n))
  }

  lemma {:induction false} PrefixIsLog(log: seq<Event>, prefix: seq<Event>)
    requires IsLog(log) && prefix <= log
    ensures IsLog(prefix)
  {
  }

  /** One page more: still a prefix of what an unbounded query would return now, all of it when
      the page is short. */
  lemma {:induction false} PageExtends(log: seq<Event>, cursor: nat, read: seq<Event>, limit: nat)
    requires IsLog(log) && read <= After(log, cursor)
    ensures
      var page := Page(log, LastId(read, cursor), limit);
      && read + page <= After(log, cursor)
      && (|page| < limit ==> read + page == After(log, cursor))
      && LastId(read + page, cursor) == LastId(page, LastId(read, cursor))
  {
    ResumeContinues(log, cursor, read);
    assert After(log, cursor) == read + After(log, cursor)[|read|..];
  }

  /** The rows a page leaves to read are fewer, unless it was empty. */
  lemma {:induction false} PageShrinks(log: seq<Event>, final: seq<Event>, cursor: nat, limit: nat)
    requires IsLog(final) && log <= final && limit > 0
    requires Page(log, cursor, limit) != []
    ensures |After(final, LastId(Page(log, cursor, limit), cursor))| < |After(final, cursor)|
  {
    PrefixIsLog(final, log);
    var page := Page(log, cursor, limit);
    AfterMonotone(log, final[|log|..], cursor);
    assert log + final[|log|..] == final;
    ResumeContinues(final, cursor, page);
  }

  lemma {:induction false} StillPrefix(before: seq<Event>, now: seq<Event>, rows: seq<Event>, cursor: nat)
    requires before <= now && rows <= After(before, cursor)
    ensures rows <= After(now, cursor)
  {
    assert before + now[|before|..] == now;
    AfterMonotone(before, now[|before|..], cursor);
  }

  /** One turn of the replay loop: the page read from `log`, written out, and whether it was
      the last. */
  method ReplayTurn(w: Sse.ResponseWriter, log: seq<Event>, ghost final: seq<Event>, cursor: nat, rows: seq<Event>,
                    last: nat)
    returns (rows': seq<Event>, last': nat, done: bool)
    requires w.Valid() && IsLog(final) && log <= final
    requires rows <= After(log, cursor) && last == LastId(rows, cursor)
    modifies w
    ensures rows <= rows' && w.Valid() && w.chunks == old(w.chunks) + RowChunks(rows'[|rows|..])
    ensures rows' == rows + Page(log, last, REPLAY_BATCH) && last' == LastId(Page(log, last, REPLAY_BATCH), last)
    ensures done <==> |Page(log, last, REPLAY_BATCH)| < REPLAY_BATCH
    ensures |rows'| - |rows| <= 256 && (done <==> |rows'| - |rows| < 256)
    ensures rows' <= After(log, cursor) && last' == LastId(rows', cursor)
    ensures done ==> rows' == After(log, cursor)
    ensures !done ==> |After(final, last')| < |After(final, last)|
  {
    hide Sse.PrintAll, After;
    PrefixIsLog(final, log);
    PageExtends(log, cursor, rows, REPLAY_BATCH);
    var page := Page(log, last, REPLAY_BATCH);
    rows' := rows + page;
    assert rows'[|rows|..] == page;
    last' := last;
    done := |page| < REPLAY_BATCH;
    if |page| > 0 {
      PageShrinks(log, final, last, REPLAY_BATCH);
      WriteRows(w, page);
      last' := page[|page| - 1].id;
    }
  }

  /** A replaying session of the transition system after its first `n` pages. */
  function ReplayRun(h: Session, pages: nat -> seq<Event>, n: nat): Session {
    if n == 0 then h
    else
      var before := ReplayRun(h, pages, n - 1);
      if before.phase.Replaying? then ReplayPage(before, pages(n - 1)) else before
  }

  /** The session that has read these rows. */
  function HasRead(h: Session, rows: seq<Event>, last: nat, phase: Phase): Session {
    h.(frames := h.frames + RowFrames(rows), last := last, phase := phase)
  }

  lemma {:induction false} ReadsPage(h: Session, rows: seq<Event>, last: nat, log: seq<Event>)
    ensures
      var page := Page(log, last, REPLAY_BATCH);
      ReplayPage(HasRead(h, rows, last, Replaying), log) ==
        HasRead(h, rows + page, LastId(page, last), if |page| < REPLAY_BATCH then Live else Replaying)
  {
    hide Page;
    var page := Page(log, last, REPLAY_BATCH);
    assert h.frames + RowFrames(rows) + RowFrames(page) == h.frames + RowFrames(rows + page);
  }

  /** The session has replayed what was gathered; a failed query is none of its moves. */
  ghost predicate Replays(r: Replayed, h: Session, pages: nat -> seq<Event>, queries: nat) {
    && queries > 0
    && ReplayRun(h, pages, if r.complete then queries else queries - 1) ==
         HasRead(h, r.rows, r.last, if r.complete then Live else Replaying)
  }

  /** The replay loop. Reading page by page while the log grows gives exactly the rows after
      the cursor as of the last query, and the loop ends because fewer rows remain after each
      full page. A failing query ends the handler. Page by page it is the session's replay. */
  method Replay(w: Sse.ResponseWriter, pages: nat -> seq<Event>, fails: nat -> bool, ghost final: seq<Event>,
                cursor: nat, ghost h: Session)
    returns (r: Replayed, queries: nat)
    requires w.Valid() && Growing(pages, final)
    requires h.phase.Replaying? && h.last == cursor
    modifies w
    ensures w.Valid() && w.chunks == old(w.chunks) + RowChunks(r.rows)
    ensures queries > 0
    ensures r.complete ==> r.rows == After(pages(queries - 1), cursor)
    ensures !r.complete ==> fails(queries - 1) && r.rows <= After(pages(queries - 1), cursor)
    ensures r.last == LastId(r.rows, cursor)
    ensures Replays(r, h, pages, queries)
  {
    hide Sse.PrintAll, After, Sse.Print, ReplayPage, Page;
    var rows: seq<Event>, last, done := [], cursor, false;
    queries := 0;
    assert RowFrames(rows) == [] && h.frames + [] == h.frames;
    assert ReplayRun(h, pages, queries) == HasRead(h, rows, last, Replaying);
    hide HasRead, RowFrames;
    while !done
      invariant w.Valid() && w.chunks == old(w.chunks) + RowChunks(rows)
      invariant last == LastId(rows, cursor)
      invariant !done ==> rows <= After(pages(queries), cursor)
      invariant done ==> queries > 0 && rows == After(pages(queries - 1), cursor)
      invariant ReplayRun(h, pages, queries) == HasRead(h, rows, last, if done then Live else Replaying)
      decreases !done, |After(final, last)|
    {
      queries := queries + 1;
      if fails(queries - 1) {
        return Replayed(rows, last, false), queries;
      }
      ghost var before := rows;
      ReadsPage(h, rows, last, pages(queries - 1));
      rows, last, done := ReplayTurn(w, pages(queries - 1), final, cursor, rows, last);
      assert RowChunks(rows) == RowChunks(before) + RowChunks(rows[|before|..]);
      StillPrefix(pages(queries - 1), pages(queries), rows, cursor);
    }
    r := Replayed(rows, last, true);
  }

  // ---------------------------------------------------------------- live tail

  /** What the live loop's select yields. */
  datatype Input = Disconnected | HeartbeatDue | Taken(ev: Event) | ChannelClosed

  /** A live session after some inputs, in the transition system's own moves. */
  function LiveRun(h: Session, inputs: seq<Input>): Session {
    if inputs == [] then h
    else LiveMove(LiveRun(h, inputs[..|inputs| - 1]), inputs[|inputs| - 1])
  }

  function LiveMove(h: Session, input: Input): Session {
    if h.phase.Finished? then h
    else
      match input
      case Disconnected => h.(phase := Finished)
      case HeartbeatDue => h
      case Taken(ev) => Tail(h, ev)
      case ChannelClosed => h.(frames := h.frames + [Lagged], phase := Finished)
  }

  /** The chunks written meanwhile: the new frames, with heartbeats in between. */
  function LiveChunks(h: Session, inputs: seq<Input>): seq<Sse.Chunk> {
    if inputs == [] then []
    else
      var n := |inputs| - 1;
      LiveChunks(h, inputs[..n]) + LiveChunk(LiveRun(h, inputs[..n]), inputs[n])
  }

  function LiveChunk(h: Session, input: Input): seq<Sse.Chunk> {
    if h.phase.Finished? then []
    else
      match input
      case Disconnected => []
      case HeartbeatDue => [Sse.Comment("ping")]
      case Taken(ev) => if ev.id <= h.last then [] else [RowChunk(ev)]
      case ChannelClosed => [Wire(Lagged, "")]
  }

  function WireAll(frames: seq<Frame>, status: string): seq<Sse.Chunk> {
    if frames == [] then [] else WireAll(frames[..|frames| - 1], status) + [Wire(frames[|frames| - 1], status)]
  }

  function WithoutComments(chunks: seq<Sse.Chunk>): seq<Sse.Chunk> {
    if chunks == [] then []
    else
      var c := chunks[|chunks| - 1];
      WithoutComments(chunks[..|chunks| - 1]) + if c.Comment? then [] else [c]
  }

  lemma {:induction false} WireSnoc(frames: seq<Frame>, f: Frame, status: string, chunks: seq<Sse.Chunk>,
                                    c: Sse.Chunk)
    ensures WireAll(frames + [f], status) == WireAll(frames, status) + [Wire(f, status)]
    ensures WithoutComments(chunks + [c]) == WithoutComments(chunks) + if c.Comment? then [] else [c]
    ensures chunks + [] == chunks && frames + [] == frames
  {
    assert (frames + [f])[..|frames|] == frames && (chunks + [c])[..|chunks|] == chunks;
  }

  /** Comments aside, the live loop writes exactly the frames the session gains. */
  lemma {:induction false} LiveChunksAreFrames(h: Session, inputs: seq<Input>, status: string)
    returns (gained: seq<Frame>)
    requires h.phase.Live?
    ensures LiveRun(h, inputs).frames == h.frames + gained
    ensures WithoutComments(LiveChunks(h, inputs)) == WireAll(gained, status)
  {
    gained := [];
    if inputs != [] {
      var n := |inputs| - 1;
      gained := LiveChunksAreFrames(h, inputs[..n], status);
      var before, chunks := LiveRun(h, inputs[..n]), LiveChunks(h, inputs[..n]);
      gained := gained + Gained(before, inputs[n]);
      OneMoveGains(h, gained[..|gained| - |Gained(before, inputs[n])|], status, before, chunks, inputs[n]);
    }
  }

  /** The frame one input adds, if any. */
  function Gained(h: Session, input: Input): seq<Frame> {
    if h.phase.Finished? then []
    else if input.Taken? && input.ev.id > h.last then [Row(input.ev)]
    else if input.ChannelClosed? then [Lagged]
    else []
  }

  lemma {:induction false} OneMoveGains(start: Session, gained: seq<Frame>, status: string, h: Session,
                                        chunks: seq<Sse.Chunk>, input: Input)
    requires h.frames == start.frames + gained && WithoutComments(chunks) == WireAll(gained, status)
    ensures LiveMove(h, input).frames == start.frames + (gained + Gained(h, input))
    ensures WithoutComments(chunks + LiveChunk(h, input)) == WireAll(gained + Gained(h, input), status)
  {
    hide WithoutComments, WireAll;
    WireSnoc(gained, Lagged, status, chunks, Sse.Comment("ping"));
    if Gained(h, input) != [] {
      var f := Gained(h, input)[0];
      WireSnoc(gained, f, status, chunks, Wire(f, status));
      assert Gained(h, input) == [f] && LiveChunk(h, input) == [Wire(f, status)];
      assert LiveMove(h, input).frames == h.frames + [f];
      assert start.frames + gained + [f] == start.frames + (gained + [f]);
    } else {
      assert LiveChunk(h, input) == [] || LiveChunk(h, input) == [Sse.Comment("ping")];
      assert LiveMove(h, input).frames == h.frames && gained + [] == gained && chunks + [] == chunks;
    }
  }

  /** What the select does with what it yields. */
  method Select(w: Sse.ResponseWriter, ghost h: Session, lastReplayed: nat, input: Input)
    returns (last: nat, returned: bool)
    requires h.phase.Live? && h.last == lastReplayed
    requires w.Valid()
    modifies w
    ensures w.Valid() && w.chunks == old(w.chunks) + LiveChunk(h, input)
    ensures last == LiveMove(h, input).last
    ensures returned <==> LiveMove(h, input).phase.Finished?
  {
    last, returned := lastReplayed, false;
    match input {
      case Disconnected =>
        returned := true;
      case HeartbeatDue =>
        w.WriteComment("ping");
      case ChannelClosed =>
        w.WriteFrame("error", "", LAGGED);
        returned := true;
      case Taken(ev) =>
        if ev.id > last {
          w.WriteFrame(ev.kind, Cursor.FormatInt(ev.id), ev.payload);
          last := ev.id;
        }
    }
  }

  // ---------------------------------------------------------------- reading the channel

  /** What wakes the live loop: a disconnect, a heartbeat, or its channel, after other goroutines
      have published these events. */
  datatype Wake = Disconnect | Beat | Look(published: seq<Event>)

  function PublishAll(b: Broadcast.State, evs: seq<Event>): Broadcast.State {
    if evs == [] then b else Broadcast.Publish(PublishAll(b, evs[..|evs| - 1]), evs[|evs| - 1])
  }

  /** What the select yields then; an open empty channel keeps it waiting. */
  function InputOf(b: Broadcast.State, id: nat, wake: Wake): (input: seq<Input>)
    ensures |input| <= 1
  {
    match wake
    case Disconnect => [Disconnected]
    case Beat => [HeartbeatDue]
    case Look(evs) =>
      var after := PublishAll(b, evs);
      if id !in after.chans then []
      else if after.chans[id].buf != [] then [Taken(after.chans[id].buf[0])]
      else if after.chans[id].status.Open? then [] else [ChannelClosed]
  }

  function AfterWake(b: Broadcast.State, id: nat, wake: Wake): Broadcast.State {
    if wake.Look? then Broadcast.Receive(PublishAll(b, wake.published), id) else b
  }

  function AfterWakes(b: Broadcast.State, id: nat, wakes: seq<Wake>): Broadcast.State {
    if wakes == [] then b else AfterWake(AfterWakes(b, id, wakes[..|wakes| - 1]), id, wakes[|wakes| - 1])
  }

  function InputsOf(b: Broadcast.State, id: nat, wakes: seq<Wake>): seq<Input> {
    if wakes == [] then []
    else
      var n := |wakes| - 1;
      InputsOf(b, id, wakes[..n]) + InputOf(AfterWakes(b, id, wakes[..n]), id, wakes[n])
  }

  method PublishEach(b: Broadcaster.Broadcaster, evs: seq<Event>)
    requires b.Valid()
    modifies b, b.Repr
    ensures b.Valid() && b.View() == PublishAll(old(b.View()), evs)
    ensures b.chans == old(b.chans) && b.Repr == old(b.Repr)
  {
    hide Broadcast.Publish, Broadcast.Inv;
    var i := 0;
    while i < |evs|
      invariant 0 <= i <= |evs|
      invariant b.Valid() && b.View() == PublishAll(old(b.View()), evs[..i])
      invariant b.chans == old(b.chans) && b.Repr == old(b.Repr)
    {
      assert evs[..i + 1][..i] == evs[..i];
      b.Publish(evs[i]);
      i := i + 1;
    }
    assert evs[..i] == evs;
  }

  /** One turn of the select: the receive takes the oldest event off the subscribed channel. */
  method Wait(b: Broadcaster.Broadcaster, ghost id: nat, ch: Broadcaster.Channel, wake: Wake)
    returns (input: Option<Input>)
    requires b.Valid() && id in b.chans && b.chans[id] == ch
    modifies b, b.Repr
    ensures b.Valid() && b.View() == AfterWake(old(b.View()), id, wake)
    ensures b.chans == old(b.chans) && b.Repr == old(b.Repr)
    ensures InputOf(old(b.View()), id, wake) == if input.Some? then [input.value] else []
  {
    hide Broadcast.Publish, Broadcast.Inv, Broadcast.Receive, PublishAll;
    match wake {
      case Disconnect =>
        input := Some(Disconnected);
      case Beat =>
        input := Some(HeartbeatDue);
      case Look(evs) =>
        PublishEach(b, evs);
        var r := b.Take(id, ch);
        input := match r case Got(ev) => Some(Taken(ev)) case Closed => Some(ChannelClosed) case WouldBlock => None;
    }
  }

  /** What one turn, with an input or without, does to the session and the output. */
  function TurnMove(h: Session, input: seq<Input>): Session {
    if input == [] then h else LiveMove(h, input[0])
  }

  function TurnChunks(h: Session, input: seq<Input>): seq<Sse.Chunk> {
    if input == [] then [] else LiveChunk(h, input[0])
  }

  lemma {:induction false} OneMoreTurn(h: Session, inputs: seq<Input>, input: seq<Input>)
    requires |input| <= 1
    ensures LiveRun(h, inputs + input) == TurnMove(LiveRun(h, inputs), input)
    ensures LiveChunks(h, inputs + input) == LiveChunks(h, inputs) + TurnChunks(LiveRun(h, inputs), input)
  {
    if input == [] {
      assert inputs + input == inputs;
    } else {
      assert (inputs + input)[..|inputs|] == inputs;
    }
  }

  /** The live loop's state: the broadcaster, the session, and everything written. */
  datatype Tailing = Tailing(b: Broadcast.State, h: Session, chunks: seq<Sse.Chunk>)

  function TailTurn(t: Tailing, id: nat, wake: Wake): Tailing {
    var input := InputOf(t.b, id, wake);
    Tailing(AfterWake(t.b, id, wake), TurnMove(t.h, input), t.chunks + TurnChunks(t.h, input))
  }

  function TailTurns(t: Tailing, id: nat, wakes: seq<Wake>): Tailing {
    if wakes == [] then t else TailTurn(TailTurns(t, id, wakes[..|wakes| - 1]), id, wakes[|wakes| - 1])
  }

  /** A live loop that has had these inputs. */
  function Tailed(t: Tailing, b: Broadcast.State, inputs: seq<Input>): Tailing {
    Tailing(b, LiveRun(t.h, inputs), t.chunks + LiveChunks(t.h, inputs))
  }

  lemma {:induction false} TurnIsLive(t: Tailing, b: Broadcast.State, inputs: seq<Input>, id: nat, wake: Wake)
    ensures TailTurn(Tailed(t, b, inputs), id, wake) == Tailed(t, AfterWake(b, id, wake), inputs + InputOf(b, id, wake))
  {
    var input := InputOf(b, id, wake);
    OneMoreTurn(t.h, inputs, input);
    var more := TurnChunks(LiveRun(t.h, inputs), input);
    hide LiveRun, LiveChunks, TurnMove, TurnChunks, InputOf, AfterWake;
    assert t.chunks + LiveChunks(t.h, inputs) + more == t.chunks + (LiveChunks(t.h, inputs) + more);
  }

  /** Turn by turn the loop does what the session does on the inputs its channel gives it. */
  lemma {:induction false} TurnsAreLive(t: Tailing, id: nat, wakes: seq<Wake>)
    ensures TailTurns(t, id, wakes) == Tailed(t, AfterWakes(t.b, id, wakes), InputsOf(t.b, id, wakes))
  {
    if wakes == [] {
      assert t.chunks + [] == t.chunks;
    } else {
      hide Tailed, TailTurn, InputOf, AfterWake;
      var n := |wakes| - 1;
      TurnsAreLive(t, id, wakes[..n]);
      TurnIsLive(t, AfterWakes(t.b, id, wakes[..n]), InputsOf(t.b, id, wakes[..n]), id, wakes[n]);
    }
  }

  /** One turn of the live loop: wait, then act on what the select yields. */
  method Turn(w: Sse.ResponseWriter, b: Broadcaster.Broadcaster, ghost id: nat, ch: Broadcaster.Channel,
              ghost h: Session, lastReplayed: nat, wake: Wake)
    returns (last: nat, returned: bool, ghost h': Session)
    requires h.phase.Live? && h.last == lastReplayed
    requires w.Valid() && b.Valid() && id in b.chans && b.chans[id] == ch
    modifies w, b, b.Repr
    ensures w.Valid() && b.Valid() && b.chans == old(b.chans) && b.Repr == old(b.Repr)
    ensures Tailing(b.View(), h', w.chunks) == TailTurn(Tailing(old(b.View()), h, old(w.chunks)), id, wake)
    ensures last == h'.last && if returned then h'.phase.Finished? else h'.phase.Live?
    ensures wake.Disconnect? ==> returned && w.chunks == old(w.chunks)
    ensures wake.Beat? ==> !returned && w.chunks == old(w.chunks) + [Sse.Comment("ping")]
  {
    hide Sse.PrintAll, Sse.Print, Broadcast.Inv, AfterWake;
    last, returned := lastReplayed, false;
    h' := TurnMove(h, InputOf(b.View(), id, wake));
    var input := Wait(b, id, ch, wake);
    if input.Some? {
      last, returned := Select(w, h, last, input.value);
    }
  }

  lemma {:induction false} TurnsSnoc(t: Tailing, id: nat, wakes: seq<Wake>, i: nat)
    requires i < |wakes|
    ensures TailTurns(t, id, wakes[..i + 1]) == TailTurn(TailTurns(t, id, wakes[..i]), id, wakes[i])
  {
    assert wakes[..i + 1][..i] == wakes[..i];
  }

  /** The session lives at least until the last of these wakes. */
  ghost predicate LiveUntil(h: Session, b: Broadcast.State, id: nat, wakes: seq<Wake>) {
    forall k | 0 <= k < |wakes| :: LiveRun(h, InputsOf(b, id, wakes[..k])).phase.Live?
  }

  /** The live loop: it writes what the session writes on the inputs its channel gives it, and
      returns exactly when the session finishes. */
  method LiveTail(w: Sse.ResponseWriter, b: Broadcaster.Broadcaster, ghost id: nat, ch: Broadcaster.Channel,
                  ghost h: Session, lastReplayed: nat, wakes: seq<Wake>)
    returns (last: nat, returned: bool, used: nat)
    requires h.phase.Live? && h.last == lastReplayed
    requires w.Valid() && b.Valid() && id in b.chans && b.chans[id] == ch
    modifies w, b, b.Repr
    ensures w.Valid() && b.Valid() && b.chans == old(b.chans) && b.Repr == old(b.Repr)
    ensures used <= |wakes| && (!returned ==> used == |wakes|)
    ensures b.View() == AfterWakes(old(b.View()), id, wakes[..used])
    ensures
      var inputs := InputsOf(old(b.View()), id, wakes[..used]);
      && w.chunks == old(w.chunks) + LiveChunks(h, inputs)
      && last == LiveRun(h, inputs).last && (returned <==> LiveRun(h, inputs).phase.Finished?)
    ensures forall i | 0 <= i < used && wakes[i].Disconnect? :: returned && i == used - 1
    ensures LiveUntil(h, old(b.View()), id, wakes[..used])
  {
    hide Sse.PrintAll, Sse.Print, Broadcast.Inv, TailTurn, InputsOf, AfterWakes, LiveRun, LiveChunks;
    last, returned, used := lastReplayed, false, 0;
    ghost var start, now := Tailing(b.View(), h, w.chunks), h;
    assert TailTurns(start, id, wakes[..0]) == start;
    hide TailTurns;
    while used < |wakes| && !returned
      invariant 0 <= used <= |wakes|
      invariant w.Valid() && b.Valid() && b.chans == old(b.chans) && b.Repr == old(b.Repr)
      invariant Tailing(b.View(), now, w.chunks) == TailTurns(start, id, wakes[..used])
      invariant last == now.last && if returned then now.phase.Finished? else now.phase.Live?
      invariant forall i | 0 <= i < used && wakes[i].Disconnect? :: returned && i == used - 1
      invariant forall k | 0 <= k < used :: TailTurns(start, id, wakes[..k]).h.phase.Live?
    {
      TurnsSnoc(start, id, wakes, used);
      last, returned, now := Turn(w, b, id, ch, now, last, wakes[used]);
      used := used + 1;
    }
    forall k | 0 <= k <= used
      ensures TailTurns(start, id, wakes[..k]) == Tailed(start, AfterWakes(start.b, id, wakes[..k]),
                                                         InputsOf(start.b, id, wakes[..k]))
    {
      TurnsAreLive(start, id, wakes[..k]);
    }
    assert forall k | 0 <= k <= used :: wakes[..used][..k] == wakes[..k];
  }

  // ---------------------------------------------------------------- the whole handler

  /** What is written before the live loop, comments aside. */
  function Told(status: string, rows: seq<Event>): seq<Sse.Chunk> {
    [Wire(ConnectionState, status)] + RowChunks(rows)
  }

  function Closing(lagged: bool): seq<Sse.Chunk> {
    if lagged then [Wire(Lagged, "")] else []
  }

  /** Comments aside, these chunks are rows and, if `lagged`, the final error. */
  ghost predicate CarriesRows(chunks: seq<Sse.Chunk>, rows: seq<Event>, lagged: bool) {
    WithoutComments(chunks) == RowChunks(rows) + Closing(lagged)
  }

  /** The greeting, and then that. */
  ghost predicate Carries(chunks: seq<Sse.Chunk>, status: string, rows: seq<Event>, lagged: bool) {
    WithoutComments(chunks) == Told(status, rows) + Closing(lagged)
  }

  lemma {:induction false} CarriesMove(rows: seq<Event>, chunks: seq<Sse.Chunk>, c: Sse.Chunk)
    requires CarriesRows(chunks, rows, false)
    ensures c.Comment? ==> CarriesRows(chunks + [c], rows, false)
    ensures c == Wire(Lagged, "") ==> CarriesRows(chunks + [c], rows, true)
    ensures forall ev | c == RowChunk(ev) :: CarriesRows(chunks + [c], rows + [ev], false)
  {
    WireSnoc([], Lagged, "", chunks, c);
    hide WithoutComments;
    forall ev | c == RowChunk(ev) ensures RowChunks(rows + [ev]) == RowChunks(rows) + [c] {
    }
  }

  lemma {:induction false} CarriesOneMore(h: Session, rows: seq<Event>, chunks: seq<Sse.Chunk>, input: Input)
    returns (more: seq<Event>)
    requires CarriesRows(chunks, rows, false) && !h.phase.Finished?
    ensures CarriesRows(chunks + LiveChunk(h, input), rows + more, input.ChannelClosed?)
    ensures Rising(more, h.last) && LiveMove(h, input).last == LastId(more, h.last)
  {
    more := if input.Taken? && input.ev.id > h.last then [input.ev] else [];
    assert rows + [] == rows && chunks + [] == chunks;
    hide CarriesRows, Wire, RowChunk;
    match input
    case Disconnected =>
    case HeartbeatDue => CarriesMove(rows, chunks, Sse.Comment("ping"));
    case Taken(ev) => CarriesMove(rows, chunks, RowChunk(ev));
    case ChannelClosed => CarriesMove(rows, chunks, Wire(Lagged, ""));
  }

  /** The rows of a live loop: their ids rise from where the session stood, whatever its channel held. */
  lemma {:induction false} LiveRows(h: Session, inputs: seq<Input>) returns (rows: seq<Event>, lagged: bool)
    requires h.phase.Live?
    ensures CarriesRows(LiveChunks(h, inputs), rows, lagged)
    ensures Rising(rows, h.last) && LiveRun(h, inputs).last == LastId(rows, h.last)
    ensures lagged ==> LiveRun(h, inputs).phase.Finished?
  {
    rows, lagged := [], false;
    if inputs != [] {
      hide CarriesRows, LiveChunk;
      var n := |inputs| - 1;
      rows, lagged := LiveRows(h, inputs[..n]);
      var before := LiveRun(h, inputs[..n]);
      if before.phase.Finished? {
        assert LiveChunk(before, inputs[n]) == [];
        assert LiveChunks(h, inputs) == LiveChunks(h, inputs[..n]);
      } else {
        var more := CarriesOneMore(before, rows, LiveChunks(h, inputs[..n]), inputs[n]);
        RisingConcat(rows, more, h.last);
        rows, lagged := rows + more, inputs[n].ChannelClosed?;
      }
    }
  }

  lemma {:induction false} CommentsApart(a: seq<Sse.Chunk>, b: seq<Sse.Chunk>)
    ensures WithoutComments(a + b) == WithoutComments(a) + WithoutComments(b)
  {
    if b == [] {
      assert a + b == a;
    } else {
      CommentsApart(a, b[..|b| - 1]);
      assert (a + b)[..|a + b| - 1] == a + b[..|b| - 1];
    }
  }

  lemma {:induction false} NoComments(chunks: seq<Sse.Chunk>)
    requires forall c | c in chunks :: !c.Comment?
    ensures WithoutComments(chunks) == chunks
  {
    if chunks != [] {
      var init, last := chunks[..|chunks| - 1], chunks[|chunks| - 1];
      assert last in chunks && forall c | c in init :: c in chunks;
      NoComments(init);
    }
  }

  lemma {:induction false} ReadyAndTold(status: string, rows: seq<Event>)
    ensures WithoutComments([Sse.Comment("ready")] + Told(status, rows)) == Told(status, rows)
  {
    var ready := [Sse.Comment("ready")];
    CommentsApart(ready, Told(status, rows));
    assert ready[..0] == [] && WithoutComments(ready) == [];
    NoComments(Told(status, rows));
  }

  lemma {:induction false} CarriesOn(a: seq<Sse.Chunk>, status: string, rows: seq<Event>, b: seq<Sse.Chunk>,
                                     more: seq<Event>, lagged: bool)
    requires WithoutComments(a) == Told(status, rows) && CarriesRows(b, more, lagged)
    ensures Carries(a + b, status, rows + more, lagged)
  {
    CommentsApart(a, b);
    hide WithoutComments, Wire, RowChunk, Closing;
    assert RowChunks(rows + more) == RowChunks(rows) + RowChunks(more);
  }

  lemma {:induction false} OutputSplits(r: Replayed, h: Session, status: string, inputs: seq<Input>)
    ensures [Sse.Comment("ready")] + Output(r, h, status, inputs) ==
      [Sse.Comment("ready")] + Told(status, r.rows) + if r.complete then LiveChunks(h, inputs) else []
  {
    hide Told, LiveChunks;
  }

  /** What one connection writes, comments aside: the greeting, rows with ids that rise from its cursor,
      beginning with those of the replay, and at most one final error. */
  lemma {:induction false} OutputCarries(r: Replayed, h: Session, status: string, inputs: seq<Input>,
                                         final: seq<Event>, cursor: nat) returns (written: seq<Event>, lagged: bool)
    requires IsLog(final) && r.rows <= After(final, cursor) && r.last == LastId(r.rows, cursor)
    requires r.complete ==> h.phase.Live? && h.last == r.last
    ensures Carries([Sse.Comment("ready")] + Output(r, h, status, inputs), status, written, lagged)
    ensures r.rows <= written && Rising(written, cursor)
    ensures r.complete ==> LiveRun(h, inputs).last == LastId(written, cursor)
    ensures r.complete && lagged ==> LiveRun(h, inputs).phase.Finished?
    ensures !r.complete ==> written == r.rows && !lagged
  {
    AfterIsSuffix(final, cursor);
    assert Rising(r.rows, cursor);
    hide After, LiveChunks, LiveRun, IsLog;
    assert CarriesRows([], [], false);
    hide WithoutComments, Carries, CarriesRows, Wire, RowChunk, RowChunks, Told, Output;
    var start, more := [Sse.Comment("ready")] + Told(status, r.rows), [];
    ReadyAndTold(status, r.rows);
    lagged := false;
    if r.complete {
      more, lagged := LiveRows(h, inputs);
      RisingConcat(r.rows, more, cursor);
    }
    hide Rising;
    var live := if r.complete then LiveChunks(h, inputs) else [];
    CarriesOn(start, status, r.rows, live, more, lagged);
    written := r.rows + more;
    OutputSplits(r, h, status, inputs);
  }

  /** The session of the transition system right after its greeting. */
  function Greeted(cursor: nat, sub: nat): Session {
    Greet(Session(cursor, sub, Greeting, cursor, []))
  }

  /** What one subscribed connection writes: the greeting, the replayed rows and, when no query
      failed, the output of the live loop. */
  function Output(r: Replayed, h: Session, status: string, inputs: seq<Input>): seq<Sse.Chunk> {
    Told(status, r.rows) + if r.complete then LiveChunks(h, inputs) else []
  }

  /** The greeting and the replay. */
  method Backfill(w: Sse.ResponseWriter, cursor: nat, ghost sub: nat, status: string, pages: nat -> seq<Event>,
                  fails: nat -> bool, ghost final: seq<Event>)
    returns (r: Replayed, queries: nat)
    requires w.Valid() && Growing(pages, final)
    modifies w
    ensures w.Valid() && w.chunks == old(w.chunks) + Told(status, r.rows)
    ensures r.rows <= After(final, cursor) && r.last == LastId(r.rows, cursor)
    ensures Replays(r, Greeted(cursor, sub), pages, queries)
  {
    hide Sse.PrintAll, Sse.Print, After, Replays, RowChunks;
    w.WriteFrame("connection.state", "0", status);
    r, queries := Replay(w, pages, fails, final, cursor, Greeted(cursor, sub));
    StillPrefix(pages(queries - 1), final, r.rows, cursor);
  }

  /** The handler between its Subscribe and its deferred Unsubscribe. */
  method Stream(w: Sse.ResponseWriter, b: Broadcaster.Broadcaster, cursor: nat, ghost sub: nat, ch: Broadcaster.Channel,
                status: string, pages: nat -> seq<Event>, fails: nat -> bool, ghost final: seq<Event>,
                wakes: seq<Wake>)
    returns (r: Replayed, queries: nat, used: nat)
    requires w.Valid() && Growing(pages, final) && b.Valid() && sub in b.chans && b.chans[sub] == ch
    modifies w, b, b.Repr
    ensures w.Valid() && b.Valid() && b.chans == old(b.chans) && b.Repr == old(b.Repr)
    ensures r.rows <= After(final, cursor) && r.last == LastId(r.rows, cursor)
    ensures Replays(r, Greeted(cursor, sub), pages, queries)
    ensures used <= |wakes| && (!r.complete ==> used == 0)
    ensures forall i | 0 <= i < used && wakes[i].Disconnect? :: i == used - 1
    ensures b.View() == AfterWakes(old(b.View()), sub, wakes[..used])
    ensures
      var h := ReplayRun(Greeted(cursor, sub), pages, queries);
      && w.chunks == old(w.chunks) + Output(r, h, status, InputsOf(old(b.View()), sub, wakes[..used]))
      && LiveUntil(h, old(b.View()), sub, wakes[..used])
  {
    hide Sse.PrintAll, Sse.Print, After, LiveChunks, LiveRun, Broadcast.Inv, InputsOf, ReplayRun, RowFrames, RowChunks;
    hide Growing, Told;
    assert wakes[..0] == [] && AfterWakes(b.View(), sub, []) == b.View();
    hide AfterWakes;
    r, queries := Backfill(w, cursor, sub, status, pages, fails, final);
    used := 0;
    if r.complete {
      var _, _, n := LiveTail(w, b, sub, ch, ReplayRun(Greeted(cursor, sub), pages, queries), r.last, wakes);
      used := n;
    }
  }

  /** The ready comment and the subscription. */
  method Attach(w: Sse.ResponseWriter, b: Broadcaster.Broadcaster) returns (id: nat, ch: Broadcaster.Channel)
    requires w.Valid() && b.Valid()
    modifies w, b
    ensures w.Valid() && w.chunks == old(w.chunks) + [Sse.Comment("ready")]
    ensures b.Valid() && b.View() == Broadcast.Subscribe(old(b.View())) && id == old(b.next) + 1
    ensures fresh(ch) && id in b.chans && b.chans[id] == ch && b.Repr == old(b.Repr) + {ch}
  {
    hide Sse.PrintAll, Sse.Print, Broadcast.Inv;
    w.WriteComment("ready");
    id, ch := b.Subscribe();
    assert b.View().next == old(b.View()).next + 1;
  }

  /** The handler from its ready comment on: subscribe, stream, and unsubscribe on every way out. */
  method Serve(w: Sse.ResponseWriter, b: Broadcaster.Broadcaster, cursor: nat, status: string,
               pages: nat -> seq<Event>, fails: nat -> bool, ghost final: seq<Event>, wakes: seq<Wake>)
    returns (r: Replayed, queries: nat, used: nat)
    requires w.Valid() && b.Valid() && Growing(pages, final)
    modifies w, b, b.Repr
    ensures w.Valid() && b.Valid()
    ensures r.rows <= After(final, cursor) && r.last == LastId(r.rows, cursor)
    ensures used <= |wakes| && (!r.complete ==> used == 0)
    ensures Replays(r, Greeted(cursor, old(b.next) + 1), pages, queries)
    ensures forall i | 0 <= i < used && wakes[i].Disconnect? :: i == used - 1
    ensures var sub := old(b.next) + 1; sub !in b.subs && sub in b.chans && b.chans[sub].closed
    ensures
      var sub, subscribed := old(b.next) + 1, Broadcast.Subscribe(old(b.View()));
      var h := ReplayRun(Greeted(cursor, sub), pages, queries);
      && w.chunks == old(w.chunks) + [Sse.Comment("ready")]
                     + Output(r, h, status, InputsOf(subscribed, sub, wakes[..used]))
      && LiveUntil(h, subscribed, sub, wakes[..used])
      && b.View() == Broadcast.Unsubscribe(AfterWakes(subscribed, sub, wakes[..used]), sub)
  {
    hide *;
    var id, ch := Attach(w, b);
    r, queries, used := Stream(w, b, cursor, id, ch, status, pages, fails, final, wakes);
    b.Unsubscribe(id);
  }

  /** EventsHandler: a bad cursor is refused before anything happens; otherwise subscribe, greet,
      replay, tail the subscribed channel, and unsubscribe on every way out. */
  method Handle(w: Sse.ResponseWriter, b: Broadcaster.Broadcaster, header: string, since: string, status: string,
                pages: nat -> seq<Event>, fails: nat -> bool, ghost final: seq<Event>, wakes: seq<Wake>)
    returns (code: nat, r: Replayed, queries: nat, used: nat, ghost written: seq<Event>, ghost lagged: bool)
    requires w.Valid() && b.Valid() && Growing(pages, final)
    modifies w, b, b.Repr
    ensures w.Valid() && b.Valid()
    ensures code == if Cursor.ResolveLastSeq(header, since).Err? then 400 else 200
    ensures code == 400 ==> w.chunks == old(w.chunks) && b.View() == old(b.View())
    ensures code == 200 ==>
      var cursor, sub := Cursor.ResolveLastSeq(header, since).value, old(b.next) + 1;
      && old(w.chunks) <= w.chunks && Carries(w.chunks[|old(w.chunks)|..], status, written, lagged)
      && r.rows <= written && Rising(written, cursor)
      && (forall i | 0 <= i < used && i < |wakes| && wakes[i].Disconnect? :: i == used - 1)
      && sub !in b.subs && sub in b.chans && b.chans[sub].closed
    ensures code == 200 ==>
      var cursor, sub := Cursor.ResolveLastSeq(header, since).value, old(b.next) + 1;
      var h, subscribed := ReplayRun(Greeted(cursor, sub), pages, queries), Broadcast.Subscribe(old(b.View()));
      && r.rows <= After(final, cursor) && used <= |wakes| && (!r.complete ==> used == 0)
      && Replays(r, Greeted(cursor, sub), pages, queries) && LiveUntil(h, subscribed, sub, wakes[..used])
      && w.chunks == old(w.chunks) + [Sse.Comment("ready")]
                     + Output(r, h, status, InputsOf(subscribed, sub, wakes[..used]))
      && b.View() == Broadcast.Unsubscribe(AfterWakes(subscribed, sub, wakes[..used]), sub)
  {
    hide Sse.PrintAll, After, Output, Broadcast.Inv, Broadcast.Subscribe, Broadcast.Unsubscribe;
    hide Cursor.ResolveLastSeq, AfterWakes, InputsOf, ReplayRun, Carries, Rising;
    var cursor := Cursor.ResolveLastSeq(header, since);
    if cursor.Err? {
      return 400, Replayed([], 0, false), 0, 0, [], false;
    }
    r, queries, used := Serve(w, b, cursor.value, status, pages, fails, final, wakes);
    code := 200;
    ghost var sub, subscribed := old(b.next) + 1, Broadcast.Subscribe(old(b.View()));
    ghost var h := ReplayRun(Greeted(cursor.value, sub), pages, queries);
    ghost var inputs := InputsOf(subscribed, sub, wakes[..used]);
    written, lagged := OutputCarries(r, h, status, inputs, final, cursor.value);
    assert w.chunks[|old(w.chunks)|..] == [Sse.Comment("ready")] + Output(r, h, status, inputs);
  }

  // ---------------------------------------------------------------- what the client reads

  /** Event names and payloads as the daemon makes them: on one line, not ending in a carriage
      return, not both empty, and within the client's line limit. */
  predicate Printable(ev: Event) {
    var c := RowChunk(ev);
    && Sse.OneLiners(c) && Sse.Short(c)
    && !Sse.EndsCR(ev.kind) && !Sse.EndsCR(ev.payload) && (ev.kind != "" || ev.payload != "")
  }

  function KindAndPayload(rows: seq<Event>): seq<(string, string)> {
    if rows == [] then []
    else KindAndPayload(rows[..|rows| - 1]) + [(rows[|rows| - 1].kind, rows[|rows| - 1].payload)]
  }

  lemma {:induction false} RowsSeen(rows: seq<Event>)
    requires forall ev | ev in rows :: Sse.Seen(RowChunk(ev)) == [(ev.kind, ev.payload)]
    ensures Sse.SeenAll(RowChunks(rows)) == KindAndPayload(rows)
  {
    hide Sse.Seen;
    if rows != [] {
      var n := |rows| - 1;
      var before, last := rows[..n], rows[n];
      assert last in rows && forall ev | ev in before :: ev in rows;
      RowsSeen(before);
      Sse.SeenSnoc(RowChunks(before), RowChunk(last));
      assert RowChunks(rows) == RowChunks(before) + [RowChunk(last)];
    }
  }

  /** A client with this parser gets the written rows' kinds and payloads back, one frame a
      row, in log order. */
  lemma {:induction false} RowsReadBack(rows: seq<Event>)
    requires forall ev | ev in rows :: Printable(ev)
    ensures Sse.Parse(Sse.PrintAll(RowChunks(rows))) == KindAndPayload(rows)
  {
    forall ev | ev in rows ensures Sse.Seen(RowChunk(ev)) == [(ev.kind, ev.payload)] {
      Sse.SeenUnchanged(RowChunk(ev));
    }
    RowsSeen(rows);
    forall c | c in RowChunks(rows) ensures Sse.OneLiners(c) && Sse.Short(c) {
      var i :| 0 <= i < |rows| && RowChunks(rows)[i] == c;
      assert Printable(rows[i]);
    }
    Sse.RoundTrip(RowChunks(rows));
  }
}
