/** The handler's connection as a session of the transition system, and as a client reads it. */
module EventsWire {
  import opened Wrappers
  import opened EventLog
  import opened EventStream
  import opened EventsHandler
  import opened StreamSafety
  import Broadcast
  import Cursor
  import Sse
  import EventSource

  // ---------------------------------------------------------------- the live loop's turns

  /** Other goroutines publish these events. */
  function Published(s: State, evs: seq<Event>): State {
    if evs == [] then s
    else
      var before := Published(s, evs[..|evs| - 1]);
      Next(before.(pending := [evs[|evs| - 1]] + before.pending), Publish(0))
  }

  /** What wakes the live loop, as steps of the transition system. */
  function StreamTurn(s: State, sid: nat, wake: Wake): State {
    match wake
    case Disconnect => Next(s, Leave(sid))
    case Beat => s
    case Look(evs) => Next(Published(s, evs), Receive(sid))
  }

  function StreamTurns(s: State, sid: nat, wakes: seq<Wake>): State {
    if wakes == [] then s else StreamTurn(StreamTurns(s, sid, wakes[..|wakes| - 1]), sid, wakes[|wakes| - 1])
  }

  lemma {:induction false} PublishedIs(s: State, evs: seq<Event>)
    ensures Published(s, evs) == s.(b := PublishAll(s.b, evs))
  {
    hide Broadcast.Publish;
    if evs != [] {
      PublishedIs(s, evs[..|evs| - 1]);
      var pending := [evs[|evs| - 1]] + s.pending;
      assert pending[..0] + pending[1..] == s.pending;
    }
  }

  /** The session and the broadcaster stand where the handler's do; a session that has finished has
      already given up its subscription, which the handler does when it returns. */
  ghost predicate At(s: State, sid: nat, h: Session, b: Broadcast.State) {
    && sid in s.sessions && s.sessions[sid] == h
    && s.b == if h.phase.Finished? then Broadcast.Unsubscribe(b, h.sub) else b
  }

  lemma {:induction false} PublishAllKeepsChans(b: Broadcast.State, evs: seq<Event>)
    ensures PublishAll(b, evs).chans.Keys == b.chans.Keys
  {
    if evs != [] { PublishAllKeepsChans(b, evs[..|evs| - 1]); }
  }

  /** One turn of the live loop is one step of the session: a disconnect is its `Leave`, a look at the
      channel its `Receive`, and a heartbeat nothing. */
  lemma {:induction false} TurnIsNext(s: State, sid: nat, h: Session, b: Broadcast.State, wake: Wake)
    requires At(s, sid, h, b) && h.phase.Live? && h.sub in b.chans
    ensures At(StreamTurn(s, sid, wake), sid, TurnMove(h, InputOf(b, h.sub, wake)), AfterWake(b, h.sub, wake))
  {
    match wake
    case Disconnect =>
    case Beat =>
    case Look(evs) =>
      PublishedIs(s, evs);
      PublishAllKeepsChans(b, evs);
      hide PublishAll, Published, Broadcast.Unsubscribe;
      LookIsReceive(s.(b := PublishAll(b, evs)), sid, h);
  }

  lemma {:induction false} LookIsReceive(s: State, sid: nat, h: Session)
    requires sid in s.sessions && s.sessions[sid] == h && h.phase.Live? && h.sub in s.b.chans
    ensures
      var c := s.b.chans[h.sub];
      var input := if c.buf != [] then [Taken(c.buf[0])] else if c.status.Open? then [] else [ChannelClosed];
      At(Next(s, Receive(sid)), sid, TurnMove(h, input), Broadcast.Receive(s.b, h.sub))
  {
    hide Broadcast.Unsubscribe;
  }

  lemma {:induction false} StillThere(h: Session, b: Broadcast.State, wakes: seq<Wake>, inputs: seq<Input>)
    requires h.sub in b.chans
    ensures h.sub in AfterWakes(b, h.sub, wakes).chans
    ensures LiveRun(h, inputs).sub == h.sub
    decreases |wakes| + |inputs|
  {
    hide PublishAll;
    if wakes != [] {
      var n := |wakes| - 1;
      StillThere(h, b, wakes[..n], []);
      if wakes[n].Look? { PublishAllKeepsChans(AfterWakes(b, h.sub, wakes[..n]), wakes[n].published); }
    }
    if inputs != [] { StillThere(h, b, [], inputs[..|inputs| - 1]); }
  }

  lemma {:induction false} NoTurns(h: Session, b: Broadcast.State)
    ensures LiveRun(h, InputsOf(b, h.sub, [])) == h && AfterWakes(b, h.sub, []) == b
  {
  }

  lemma {:induction false} LiveBefore(h: Session, b: Broadcast.State, wakes: seq<Wake>, wake: Wake)
    requires LiveUntil(h, b, h.sub, wakes + [wake])
    ensures LiveUntil(h, b, h.sub, wakes) && LiveRun(h, InputsOf(b, h.sub, wakes)).phase.Live?
  {
    var all := wakes + [wake];
    assert all[..|wakes|] == wakes && forall k | 0 <= k <= |wakes| :: all[..k] == wakes[..k];
    hide LiveRun, InputsOf;
  }

  lemma {:induction false} OneTurnMore(s: State, sid: nat, h: Session, b: Broadcast.State, wakes: seq<Wake>, wake: Wake)
    ensures StreamTurns(s, sid, wakes + [wake]) == StreamTurn(StreamTurns(s, sid, wakes), sid, wake)
    ensures AfterWakes(b, h.sub, wakes + [wake]) == AfterWake(AfterWakes(b, h.sub, wakes), h.sub, wake)
    ensures LiveRun(h, InputsOf(b, h.sub, wakes + [wake])) ==
      TurnMove(LiveRun(h, InputsOf(b, h.sub, wakes)), InputOf(AfterWakes(b, h.sub, wakes), h.sub, wake))
  {
    assert (wakes + [wake])[..|wakes|] == wakes;
    hide StreamTurn, AfterWake, LiveRun, TurnMove;
    OneMoreTurn(h, InputsOf(b, h.sub, wakes), InputOf(AfterWakes(b, h.sub, wakes), h.sub, wake));
  }

  /** Turn by turn, the live loop makes the session's own steps, up to the one that finishes it. */
  lemma {:induction false} TurnsAreNext(s: State, sid: nat, h: Session, wakes: seq<Wake>)
    requires At(s, sid, h, s.b) && h.phase.Live? && h.sub in s.b.chans
    requires LiveUntil(h, s.b, h.sub, wakes)
    ensures At(StreamTurns(s, sid, wakes), sid, LiveRun(h, InputsOf(s.b, h.sub, wakes)), AfterWakes(s.b, h.sub, wakes))
  {
    if wakes == [] {
      NoTurns(h, s.b);
    } else {
      hide *;
      var before, wake := wakes[..|wakes| - 1], wakes[|wakes| - 1];
      assert before + [wake] == wakes;
      var inputs, b := InputsOf(s.b, h.sub, before), AfterWakes(s.b, h.sub, before);
      LiveBefore(h, s.b, before, wake);
      TurnsAreNext(s, sid, h, before);
      StillThere(h, s.b, before, inputs);
      TurnIsNext(StreamTurns(s, sid, before), sid, LiveRun(h, inputs), b, wake);
      OneTurnMore(s, sid, h, s.b, before, wake);
    }
  }

  // ---------------------------------------------------------------- the whole connection

  /** A session up to the end of its n-th replay query; in between, others append what it then sees. */
  function Backfilled(s: State, sid: nat, cursor: nat, pages: nat -> seq<Event>, n: nat): State {
    if n == 0 then Next(Next(s, Open(sid, cursor)), GreetStep(sid))
    else Next(Backfilled(s, sid, cursor, pages, n - 1).(log := pages(n - 1)), Replay(sid))
  }

  /** A whole connection: a session opens, replays, has these turns, and leaves if it is still there. */
  function Connection(s: State, sid: nat, cursor: nat, pages: nat -> seq<Event>, n: nat, wakes: seq<Wake>): State {
    Next(StreamTurns(Backfilled(s, sid, cursor, pages, n), sid, wakes), Leave(sid))
  }

  lemma {:induction false} ReplaysAreNext(s: State, sid: nat, cursor: nat, pages: nat -> seq<Event>, n: nat)
    requires sid !in s.sessions
    ensures
      var sub := s.b.next + 1;
      At(Backfilled(s, sid, cursor, pages, n), sid, ReplayRun(Greeted(cursor, sub), pages, n), Broadcast.Subscribe(s.b))
    ensures !ReplayRun(Greeted(cursor, s.b.next + 1), pages, n).phase.Finished?
    ensures ReplayRun(Greeted(cursor, s.b.next + 1), pages, n).sub == s.b.next + 1
  {
    hide Broadcast.Unsubscribe, Page;
    if n > 0 { ReplaysAreNext(s, sid, cursor, pages, n - 1); }
  }

  lemma {:induction false} WireConcat(a: seq<Frame>, b: seq<Frame>, status: string)
    ensures WireAll(a + b, status) == WireAll(a, status) + WireAll(b, status)
  {
    hide Wire;
    if b == [] {
      assert a + b == a;
    } else {
      WireConcat(a, b[..|b| - 1], status);
      assert (a + b)[..|a + b| - 1] == a + b[..|b| - 1];
    }
  }

  lemma {:induction false} WireRows(rows: seq<Event>, status: string)
    ensures WireAll(RowFrames(rows), status) == RowChunks(rows)
  {
    if rows != [] {
      var n := |rows| - 1;
      WireRows(rows[..n], status);
      assert RowFrames(rows)[..n] == RowFrames(rows[..n]);
      assert RowChunks(rows) == RowChunks(rows[..n]) + [RowChunk(rows[n])];
    }
  }

  lemma {:induction false} ToldIsWire(cursor: nat, sub: nat, status: string, rows: seq<Event>, last: nat, phase: Phase)
    ensures Told(status, rows) == WireAll(HasRead(Greeted(cursor, sub), rows, last, phase).frames, status)
  {
    WireRows(rows, status);
    WireConcat([ConnectionState], RowFrames(rows), status);
    assert [ConnectionState][..0] == [] && WireAll([ConnectionState], status) == [Wire(ConnectionState, status)];
    assert HasRead(Greeted(cursor, sub), rows, last, phase).frames == [ConnectionState] + RowFrames(rows);
  }

  /** Finishing, or leaving, ends at the same place. */
  lemma {:induction false} LeaveEnds(s: State, sid: nat, h: Session, b: Broadcast.State)
    requires At(s, sid, h, b)
    ensures
      var s' := Next(s, Leave(sid));
      sid in s'.sessions && s'.sessions[sid].frames == h.frames && s'.b == Broadcast.Unsubscribe(b, h.sub)
  {
    hide Broadcast.Unsubscribe;
  }

  /** The live half of a connection, from a session that has replayed. */
  lemma {:induction false} LiveHalf(s: State, sid: nat, h: Session, status: string, told: seq<Sse.Chunk>,
                                    wakes: seq<Wake>)
    requires At(s, sid, h, s.b) && h.phase.Live? && h.sub in s.b.chans
    requires LiveUntil(h, s.b, h.sub, wakes)
    requires WithoutComments(told) == WireAll(h.frames, status)
    ensures
      var s' := Next(StreamTurns(s, sid, wakes), Leave(sid));
      && s'.b == Broadcast.Unsubscribe(AfterWakes(s.b, h.sub, wakes), h.sub)
      && sid in s'.sessions
      && WithoutComments(told + LiveChunks(h, InputsOf(s.b, h.sub, wakes))) == WireAll(s'.sessions[sid].frames, status)
  {
    var inputs := InputsOf(s.b, h.sub, wakes);
    TurnsAreNext(s, sid, h, wakes);
    StillThere(h, s.b, wakes, inputs);
    hide *;
    LeaveEnds(StreamTurns(s, sid, wakes), sid, LiveRun(h, inputs), AfterWakes(s.b, h.sub, wakes));
    var gained := LiveChunksAreFrames(h, inputs, status);
    WireConcat(h.frames, gained, status);
    CommentsApart(told, LiveChunks(h, inputs));
  }

  /** The replaying half: it stands where the handler does, having written what the handler told. */
  lemma {:induction false} ReplayHalf(s: State, sid: nat, cursor: nat, status: string, pages: nat -> seq<Event>,
                                      r: Replayed, queries: nat)
    requires sid !in s.sessions && Replays(r, Greeted(cursor, s.b.next + 1), pages, queries)
    ensures
      var n := if r.complete then queries else queries - 1;
      var h := ReplayRun(Greeted(cursor, s.b.next + 1), pages, n);
      && At(Backfilled(s, sid, cursor, pages, n), sid, h, Broadcast.Subscribe(s.b))
      && h.phase == (if r.complete then Live else Replaying) && h.sub == s.b.next + 1
      && WithoutComments(Told(status, r.rows)) == WireAll(h.frames, status)
  {
    var sub, n := s.b.next + 1, if r.complete then queries else queries - 1;
    var h := ReplayRun(Greeted(cursor, sub), pages, n);
    ReplaysAreNext(s, sid, cursor, pages, n);
    assert h.phase == if r.complete then Live else Replaying;
    assert h.frames == HasRead(Greeted(cursor, sub), r.rows, r.last, h.phase).frames;
    ToldIsWire(cursor, sub, status, r.rows, r.last, h.phase);
    NoComments(Told(status, r.rows));
  }

  /** The handler's connection is a run of one session of the transition system: from wherever the
      system stands, the broadcaster it leaves is the system's, and what it wrote, comments aside, is the
      session's frames. */
  lemma {:induction false} ConnectionIsASession(s: State, sid: nat, cursor: nat, status: string,
                                                pages: nat -> seq<Event>, r: Replayed, queries: nat, wakes: seq<Wake>)
    requires sid !in s.sessions && Replays(r, Greeted(cursor, s.b.next + 1), pages, queries)
    requires !r.complete ==> wakes == []
    requires r.complete ==>
      LiveUntil(ReplayRun(Greeted(cursor, s.b.next + 1), pages, queries), Broadcast.Subscribe(s.b), s.b.next + 1, wakes)
    ensures
      var sub, subscribed := s.b.next + 1, Broadcast.Subscribe(s.b);
      var out := Output(r, ReplayRun(Greeted(cursor, sub), pages, queries), status, InputsOf(subscribed, sub, wakes));
      var s' := Connection(s, sid, cursor, pages, if r.complete then queries else queries - 1, wakes);
      && s'.b == Broadcast.Unsubscribe(AfterWakes(subscribed, sub, wakes), sub)
      && sid in s'.sessions && WithoutComments(out) == WireAll(s'.sessions[sid].frames, status)
  {
    var sub, n := s.b.next + 1, if r.complete then queries else queries - 1;
    var h := ReplayRun(Greeted(cursor, sub), pages, n);
    ReplayHalf(s, sid, cursor, status, pages, r, queries);
    assert sub in Broadcast.Subscribe(s.b).chans;
    var before := Backfilled(s, sid, cursor, pages, n);
    hide WireAll, WithoutComments, Told, Greeted, Backfilled, ReplayRun, StreamTurn, Broadcast.Unsubscribe;
    hide Broadcast.Subscribe, LiveChunks, LiveRun, LiveUntil, InputOf, AfterWake, Next, HasRead;
    if r.complete {
      LiveHalf(before, sid, h, status, Told(status, r.rows), wakes);
    } else {
      LeaveEnds(before, sid, h, before.b);
      assert Told(status, r.rows) + [] == Told(status, r.rows);
    }
  }

  // ---------------------------------------------------------------- read back with its ids

  /** The cursor of a client that reads these frames: the last id that is not zero. */
  function LastNonZero(read: seq<EventSource.Tagged>, cursor: nat): nat {
    if read == [] then cursor
    else
      var id := Cursor.ResolveLastSeq(read[|read| - 1].id, "");
      if id.Ok? && id.value != 0 then id.value else LastNonZero(read[..|read| - 1], cursor)
  }

  /** Frame chunks with an id or an event name. */
  predicate Named(chunks: seq<Sse.Chunk>) {
    forall i | 0 <= i < |chunks| :: chunks[i].Frame? && (chunks[i].id != "" || chunks[i].event != "")
  }

  lemma {:induction false} CommentsLeaveNothing(chunks: seq<Sse.Chunk>)
    ensures EventSource.TagsAll(chunks) == EventSource.TagsAll(WithoutComments(chunks))
  {
    if chunks != [] {
      CommentsLeaveNothing(chunks[..|chunks| - 1]);
      var rest, c := WithoutComments(chunks[..|chunks| - 1]), chunks[|chunks| - 1];
      assert !c.Comment? ==> (rest + [c])[..|rest|] == rest;
      assert rest + [] == rest;
      assert EventSource.TagsAll(rest) + [] == EventSource.TagsAll(rest);
    }
  }

  lemma {:induction false} NamedFrames(chunks: seq<Sse.Chunk>)
    requires Named(chunks)
    ensures var read := EventSource.TagsAll(chunks);
      && |read| == |chunks|
      && forall i | 0 <= i < |read| ::
           read[i] == EventSource.Tagged(chunks[i].id, chunks[i].event, chunks[i].data)
  {
    if chunks != [] { NamedFrames(chunks[..|chunks| - 1]); }
  }

  function TagOf(ev: Event): EventSource.Tagged {
    EventSource.Tagged(Cursor.FormatInt(ev.id), ev.kind, ev.payload)
  }

  lemma {:induction false} FramesCarried(status: string, rows: seq<Event>, lagged: bool)
    ensures var frames := Told(status, rows) + Closing(lagged);
      && Named(frames) && |frames| == 1 + |rows| + (if lagged then 1 else 0)
      && frames[0] == Sse.Frame("connection.state", "0", status)
      && (forall i | 0 <= i < |rows| :: frames[1 + i] == RowChunk(rows[i]))
      && (lagged ==> frames[1 + |rows|] == Sse.Frame("error", "", LAGGED))
  {
    var frames := Told(status, rows) + Closing(lagged);
    forall i | 0 <= i < |frames| ensures frames[i].Frame? && (frames[i].id != "" || frames[i].event != "") {
      if 1 <= i <= |rows| {
        assert frames[i] == RowChunk(rows[i - 1]);
        Cursor.FormatParses(rows[i - 1].id);
      }
    }
  }

  lemma {:induction false} ReadsCarried(chunks: seq<Sse.Chunk>, status: string, rows: seq<Event>, lagged: bool)
    requires Carries(chunks, status, rows, lagged)
    requires forall c | c in chunks :: Sse.OneLiners(c)
    ensures
      var read := EventSource.ReadTagged(Sse.PrintAll(chunks));
      && |read| == 1 + |rows| + (if lagged then 1 else 0)
      && read[0] == EventSource.Tagged("0", "connection.state", status)
      && (forall i | 0 <= i < |rows| :: read[1 + i] == TagOf(rows[i]))
      && (lagged ==> read[1 + |rows|] == EventSource.Tagged("", "error", LAGGED))
  {
    EventSource.TaggedRoundTrip(chunks);
    CommentsLeaveNothing(chunks);
    FramesCarried(status, rows, lagged);
    hide Told, Closing, Cursor.FormatInt, EventSource.TagsAll, WithoutComments, EventSource.ReadTagged, Sse.PrintAll;
    NamedFrames(Told(status, rows) + Closing(lagged));
  }

  lemma {:induction false} LastNonZeroRow(read: seq<EventSource.Tagged>, rows: seq<Event>, cursor: nat, n: nat)
    requires n <= |rows| && 1 + n <= |read|
    requires Cursor.ResolveLastSeq(read[0].id, "") == Ok(0)
    requires forall i | 0 <= i < n :: rows[i].id > 0 && Cursor.ResolveLastSeq(read[1 + i].id, "") == Ok(rows[i].id)
    ensures LastNonZero(read[..1 + n], cursor) == LastId(rows[..n], cursor)
  {
    var init := read[..1 + n];
    assert init[n] == read[n];
    if n == 0 { assert init[..0] == []; }
  }

  /** What a client reads of one connection, with its ids: the greeting under id 0, then each row, in
      order, under a text that a reconnect resolves to that row's id, and the final error under none. So
      the last id it read that is not zero is that of the last row, the cursor at which a reconnect
      continues. */
  lemma {:induction false} ConnectionReadsBack(chunks: seq<Sse.Chunk>, status: string, rows: seq<Event>, lagged: bool,
                                               cursor: nat)
    requires Carries(chunks, status, rows, lagged) && Rising(rows, cursor)
    requires forall c | c in chunks :: Sse.OneLiners(c)
    requires forall i | 0 <= i < |rows| :: rows[i].id <= Cursor.MAX_INT64
    ensures
      var read := EventSource.ReadTagged(Sse.PrintAll(chunks));
      && |read| == 1 + |rows| + (if lagged then 1 else 0)
      && Cursor.ResolveLastSeq(read[0].id, "") == Ok(0)
      && read[0].event == "connection.state" && read[0].data == status
      && (forall i | 0 <= i < |rows| ::
            && Cursor.ResolveLastSeq(read[1 + i].id, "") == Ok(rows[i].id)
            && read[1 + i].event == rows[i].kind && read[1 + i].data == rows[i].payload)
      && (lagged ==>
            && read[1 + |rows|].id == "" && read[1 + |rows|].event == "error"
            && read[1 + |rows|].data ==
                 "{\"v\":1,\"code\":\"events.lagged\",\"detail\":\"subscriber buffer overflowed; "
                 + "reconnect with Last-Event-ID\"}")
      && LastNonZero(read, cursor) == LastId(rows, cursor)
  {
    var read := EventSource.ReadTagged(Sse.PrintAll(chunks));
    ReadsCarried(chunks, status, rows, lagged);
    hide Carries, Sse.OneLiners, EventSource.ReadTagged, Sse.PrintAll;
    forall i | 0 <= i < |rows| ensures Cursor.ResolveLastSeq(read[1 + i].id, "") == Ok(rows[i].id) {
      Cursor.CursorRoundTrip(rows[i].id, "");
      assert read[1 + i] == TagOf(rows[i]);
    }
    Cursor.CursorRoundTrip(0, "");
    assert Cursor.FormatInt(0) == "0";
    hide Cursor.FormatInt, Cursor.ParseInt;
    LastNonZeroRow(read, rows, cursor, |rows|);
    assert rows[..|rows|] == rows;
    assert if lagged then read[..|read| - 1] == read[..1 + |rows|] else read == read[..1 + |rows|];
  }
}
