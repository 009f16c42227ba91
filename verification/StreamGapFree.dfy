/** Gap-free delivery: when rows are published in the order they were appended, every session
    writes a prefix of the log after its cursor, and every client receives one across all its
    sessions, whatever the interleaving, overflows, disconnects and crashes. */
module StreamGapFree {
  import opened Wrappers
  import opened EventLog
  import Broadcast
  import opened EventStream
  import opened StreamSafety
  import opened StreamClients

  /** What this process published, then what it has yet to publish, is the log since birth. */
  ghost predicate Aligned(s: State) {
    s.born <= |s.log| && s.b.published + s.pending == s.log[s.born..]
  }

  /** The log index of the next event a running session will take from its channel. */
  ghost function Position(s: State, h: Session): nat
    requires h.sub in s.b.chans
  {
    s.born + s.b.chans[h.sub].start + |s.b.chans[h.sub].received|
  }

  ghost predicate PassedAll(log: seq<Event>, n: nat, last: nat) {
    n <= |log| && forall i | 0 <= i < n :: log[i].id <= last
  }

  ghost predicate SessionGapFree(s: State, h: Session) {
    && Rows(h.frames) <= After(s.log, h.cursor)
    && (!h.phase.Finished? && h.sub in s.b.chans ==>
          if h.phase.Live? then PassedAll(s.log, Position(s, h), h.last)
          else s.b.chans[h.sub].received == [])
  }

  ghost predicate GapFree(s: State) {
    && Safe(s)
    && Aligned(s)
    && (forall sid | sid in s.sessions :: SessionGapFree(s, s.sessions[sid]))
  }

  // ---------------------------------------------------------------- one session's moves

  lemma {:induction false} ReplayGapFree(log: seq<Event>, h: Session)
    requires IsLog(log) && Sound(log, h) && h.phase.Replaying?
    requires Rows(h.frames) <= After(log, h.cursor)
    ensures var h' := ReplayPage(h, log); Rows(h'.frames) <= After(log, h'.cursor)
    ensures var h' := ReplayPage(h, log); h'.phase.Live? ==> Rows(h'.frames) == After(log, h'.cursor)
    ensures var h' := ReplayPage(h, log); h'.phase.Live? ==> PassedAll(log, |log|, h'.last)
  {
    var h' := ReplayPage(h, log);
    var read := Rows(h.frames);
    ReplaySound(log, h);
    PageIsRising(log, h.last, REPLAY_BATCH);
    ResumeContinues(log, h.cursor, read);
    assert After(log, h.cursor) == read + After(log, h.last);
    if h'.phase.Live? {
      ResumeContinues(log, h.cursor, Rows(h'.frames));
      AfterIsSuffix(log, h'.last);
      assert After(log, h'.last) == [];
    }
  }

  lemma {:induction false} FirstBeyond(log: seq<Event>, n: nat, last: nat)
    requires IsLog(log) && PassedAll(log, n, last)
    requires n < |log| && log[n].id > last
    ensures After(log, last) == log[n..]
  {
    var k := Passed(log, last);
    forall i | n <= i < |log| ensures log[i].id > last {
      assert n < i ==> log[n].id < log[i].id;
    }
    assert k < |log| ==> log[k].id > last;
    assert k > 0 ==> log[k - 1].id <= last;
    AfterIsSuffix(log, last);
  }

  lemma {:induction false} PrefixSnoc(all: seq<Event>, read: seq<Event>, rest: seq<Event>)
    requires read <= all && all[|read|..] == rest && rest != []
    ensures read + [rest[0]] <= all
  {
    assert all[|read|] == rest[0];
  }

  lemma {:induction false} NextRowExtends(log: seq<Event>, cursor: nat, read: seq<Event>, n: nat)
    requires IsLog(log) && read <= After(log, cursor)
    requires PassedAll(log, n, LastId(read, cursor))
    requires n < |log| && log[n].id > LastId(read, cursor)
    ensures read + [log[n]] <= After(log, cursor)
  {
    ResumeContinues(log, cursor, read);
    FirstBeyond(log, n, LastId(read, cursor));
    PrefixSnoc(After(log, cursor), read, log[n..]);
  }

  lemma {:induction false} PassedByRow(log: seq<Event>, n: nat)
    requires IsLog(log) && n < |log|
    ensures PassedAll(log, n + 1, log[n].id)
  {
    forall i | 0 <= i < n + 1 ensures log[i].id <= log[n].id {
      assert i < n ==> log[i].id < log[n].id;
    }
  }

  lemma {:induction false} TailGapFree(log: seq<Event>, h: Session, n: nat)
    requires IsLog(log) && Sound(log, h) && h.phase.Live? && n < |log|
    requires Rows(h.frames) <= After(log, h.cursor)
    requires PassedAll(log, n, h.last)
    ensures var h' := Tail(h, log[n]); Rows(h'.frames) <= After(log, h'.cursor)
    ensures PassedAll(log, n + 1, Tail(h, log[n]).last)
  {
    if log[n].id > h.last {
      TailSound(log, h, log[n]);
      NextRowExtends(log, h.cursor, Rows(h.frames), n);
      PassedByRow(log, n);
    }
  }

  /** The event at the head of a session's channel is the log row at its position. */
  lemma {:induction false} HeadIsLogRow(s: State, sid: nat)
    requires Safe(s) && Aligned(s) && Running(s, sid)
    ensures s.sessions[sid].sub in s.b.chans
    ensures
      var c := s.b.chans[s.sessions[sid].sub];
      var n := Position(s, s.sessions[sid]);
      && n + |c.buf| <= |s.log|
      && c.buf == s.log[n..n + |c.buf|]
      && (c.status.Open? ==> s.log[n + |c.buf|..] == s.pending)
  {
    SoundAt(s, sid);
    var c := s.b.chans[s.sessions[sid].sub];
    var n := Position(s, s.sessions[sid]);
    assert Broadcast.Contiguous(s.b, c);
    var m := c.start + |c.received|;
    assert c.buf == c.Accepted()[|c.received|..];
    assert c.buf == s.b.published[m..m + |c.buf|];
    assert s.b.published == s.log[s.born..][..|s.b.published|];
    assert c.buf == s.log[n..n + |c.buf|];
    if c.status.Open? {
      assert s.pending == s.log[s.born..][|s.b.published|..];
    }
  }

  // ---------------------------------------------------------------- steps

  lemma {:induction false} StepLog(s: State, step: Step)
    ensures s.log <= Next(s, step).log
  {
  }

  lemma {:induction false} StepAligned(s: State, step: Step)
    requires Aligned(s)
    requires step.Publish? ==> step.index == 0
    ensures Aligned(Next(s, step))
  {
    if step.Publish? && s.pending != [] {
      assert s.b.published + [s.pending[0]] + s.pending[1..] == s.b.published + s.pending;
    }
    if step.Append? {
      var row := Event(LastId(s.log, 0) + 1 + step.skipped, step.kind, step.payload);
      assert (s.log + [row])[s.born..] == s.log[s.born..] + [row];
      assert s.b.published + (s.pending + [row]) == s.b.published + s.pending + [row];
    }
  }

  /** Whether a step takes an event from this session's channel. */
  ghost predicate Takes(s: State, step: Step, sid: nat, h: Session) {
    step == Receive(sid) && h.phase.Live? && h.sub in s.b.chans && s.b.chans[h.sub].buf != []
  }

  /** What one step does to a session. */
  ghost function Moved(s: State, step: Step, sid: nat, h: Session): Session {
    if step == GreetStep(sid) && h.phase.Greeting? then Greet(h)
    else if step == Replay(sid) && h.phase.Replaying? then ReplayPage(h, s.log)
    else if Takes(s, step, sid, h) then Tail(h, s.b.chans[h.sub].buf[0])
    else if step == Receive(sid) && h.phase.Live? && h.sub in s.b.chans && !s.b.chans[h.sub].status.Open? then
      h.(frames := h.frames + [Lagged], phase := Finished)
    else if step == Leave(sid) || step == Crash then h.(phase := Finished)
    else h
  }

  lemma {:induction false} StepMoves(s: State, step: Step, sid: nat)
    requires sid in s.sessions
    ensures sid in Next(s, step).sessions
    ensures Next(s, step).sessions[sid] == Moved(s, step, sid, s.sessions[sid])
  {
    match step
    case Receive(_) =>
    case Crash =>
    case Append(_, _, _) =>
    case Publish(_) =>
    case Open(_, _) =>
    case GreetStep(_) =>
    case Replay(_) =>
    case Leave(_) =>
    case NewClient(_, _) =>
    case Connect(_, _) =>
    case Deliver(_) =>
  }

  /** No step but the session's own `Receive` takes anything from its channel. */
  ghost predicate ChannelMoved(s: State, step: Step, sid: nat, h: Session, s': State) {
    && h.sub in s.b.chans && h.sub in s'.b.chans
    && s'.born == s.born
    && s'.b.chans[h.sub].start == s.b.chans[h.sub].start
    && s'.b.chans[h.sub].received ==
         s.b.chans[h.sub].received + if Takes(s, step, sid, h) then [s.b.chans[h.sub].buf[0]] else []
  }

  lemma {:induction false} ReceiveMovesChannel(s: State, other: nat, sid: nat)
    requires Running(s, sid) && s.sessions[sid].sub in s.b.chans
    requires Running(s, other) && other != sid ==> s.sessions[other].sub != s.sessions[sid].sub
    ensures ChannelMoved(s, Receive(other), sid, s.sessions[sid], Next(s, Receive(other)))
  {
  }

  lemma {:induction false} PublishMovesChannel(s: State, index: nat, sid: nat)
    requires Running(s, sid) && s.sessions[sid].sub in s.b.chans
    ensures ChannelMoved(s, Publish(index), sid, s.sessions[sid], Next(s, Publish(index)))
  {
  }

  lemma {:induction false} OpenMovesChannel(s: State, step: Step, sid: nat)
    requires Running(s, sid) && s.sessions[sid].sub in s.b.chans && s.sessions[sid].sub <= s.b.next
    requires step.Open? || step.Connect? || step.Leave?
    ensures ChannelMoved(s, step, sid, s.sessions[sid], Next(s, step))
  {
  }

  lemma {:induction false} StepMovesChannel(s: State, step: Step, sid: nat)
    requires Safe(s) && Running(s, sid) && step != Crash
    ensures ChannelMoved(s, step, sid, s.sessions[sid], Next(s, step))
  {
    SoundAt(s, sid);
    if step.Receive? {
      ReceiveMovesChannel(s, step.sid, sid);
    } else if step.Publish? {
      PublishMovesChannel(s, step.index, sid);
    } else if step.Open? || step.Connect? || step.Leave? {
      OpenMovesChannel(s, step, sid);
    }
  }

  /** The prefix property after one move, against the log of that moment. */
  lemma {:induction false} MovePrefix(s: State, step: Step, sid: nat, h: Session)
    requires IsLog(s.log) && Sound(s.log, h) && Rows(h.frames) <= After(s.log, h.cursor)
    requires Takes(s, step, sid, h) ==>
      && Position(s, h) < |s.log| && s.b.chans[h.sub].buf[0] == s.log[Position(s, h)]
      && PassedAll(s.log, Position(s, h), h.last)
    ensures var h' := Moved(s, step, sid, h); Rows(h'.frames) <= After(s.log, h'.cursor)
  {
    if step == GreetStep(sid) && h.phase.Greeting? {
      RowsSnoc([], ConnectionState);
    } else if step == Replay(sid) && h.phase.Replaying? {
      ReplayGapFree(s.log, h);
    } else if Takes(s, step, sid, h) {
      TailGapFree(s.log, h, Position(s, h));
    } else {
      RowsSnoc(h.frames, Lagged);
    }
  }

  /** The rows a live session has passed after one move. */
  lemma {:induction false} MovePassed(s: State, step: Step, sid: nat, h: Session)
    requires IsLog(s.log) && Sound(s.log, h) && Rows(h.frames) <= After(s.log, h.cursor)
    requires !h.phase.Finished? && h.sub in s.b.chans && Position(s, h) + |s.b.chans[h.sub].buf| <= |s.log|
    requires Takes(s, step, sid, h) ==> s.b.chans[h.sub].buf[0] == s.log[Position(s, h)]
    requires h.phase.Live? ==> PassedAll(s.log, Position(s, h), h.last)
    requires Moved(s, step, sid, h).phase.Live?
    ensures PassedAll(s.log, Position(s, h) + if Takes(s, step, sid, h) then 1 else 0, Moved(s, step, sid, h).last)
  {
    if step == Replay(sid) && h.phase.Replaying? {
      ReplayGapFree(s.log, h);
    } else if Takes(s, step, sid, h) {
      TailGapFree(s.log, h, Position(s, h));
    }
  }

  /** What is known of a session's row prefix and channel, carried into the next state. */
  lemma {:induction false} MoveGapFree(s: State, step: Step, sid: nat, h: Session, s': State)
    requires SessionGapFree(s, h) && s.log <= s'.log
    requires var h' := Moved(s, step, sid, h); Rows(h'.frames) <= After(s.log, h'.cursor)
    requires !h.phase.Finished? && step != Crash ==> ChannelMoved(s, step, sid, h, s')
    requires !h.phase.Finished? && Moved(s, step, sid, h).phase.Live? && h.sub in s.b.chans ==>
      PassedAll(s.log, Position(s, h) + if Takes(s, step, sid, h) then 1 else 0, Moved(s, step, sid, h).last)
    ensures SessionGapFree(s', Moved(s, step, sid, h))
  {
    var h' := Moved(s, step, sid, h);
    assert s.log + s'.log[|s.log|..] == s'.log;
    AfterMonotone(s.log, s'.log[|s.log|..], h'.cursor);
  }

  lemma {:induction false} SessionStepGapFree(s: State, step: Step, sid: nat)
    requires GapFree(s) && sid in s.sessions
    ensures sid in Next(s, step).sessions
    ensures SessionGapFree(Next(s, step), Next(s, step).sessions[sid])
  {
    var h := s.sessions[sid];
    assert SessionGapFree(s, h) && Sound(s.log, h);
    StepMoves(s, step, sid);
    StepLog(s, step);
    if !h.phase.Finished? {
      SoundAt(s, sid);
      HeadIsLogRow(s, sid);
      if step != Crash { StepMovesChannel(s, step, sid); }
      if Moved(s, step, sid, h).phase.Live? { MovePassed(s, step, sid, h); }
    }
    hide Next, Safe, Sound, Rows, After, PassedAll, IsLog;
    MovePrefix(s, step, sid, h);
    MoveGapFree(s, step, sid, h, Next(s, step));
  }

  lemma {:induction false} OpenedGapFree(s: State, step: Step, sid: nat)
    requires GapFree(s) && sid !in s.sessions && sid in Next(s, step).sessions
    ensures SessionGapFree(Next(s, step), Next(s, step).sessions[sid])
  {
    hide GapFree;
    assert Next(s, step).sessions[sid].frames == [] && Next(s, step).sessions[sid].phase.Greeting?;
  }

  lemma {:induction false} StepGapFree(s: State, step: Step)
    requires GapFree(s)
    requires step.Publish? ==> step.index == 0
    ensures GapFree(Next(s, step))
  {
    StepSafe(s, step);
    StepAligned(s, step);
    forall sid | sid in Next(s, step).sessions
      ensures SessionGapFree(Next(s, step), Next(s, step).sessions[sid])
    {
      if sid in s.sessions {
        SessionStepGapFree(s, step, sid);
      } else {
        OpenedGapFree(s, step, sid);
      }
    }
  }

  /** In every state of every run whose rows are published in append order, the rows each
      session has written are exactly a prefix of the log rows after its cursor: no gap, no
      duplicate, in order, up to and including an `events.lagged` frame. */
  lemma {:induction false} SessionsAreGapFree(bufSize: int, steps: seq<Step>)
    requires InOrder(steps)
    ensures GapFree(Run(Init(bufSize), steps))
    ensures var s := Run(Init(bufSize), steps);
      forall sid | sid in s.sessions :: Rows(s.sessions[sid].frames) <= After(s.log, s.sessions[sid].cursor)
  {
    if steps != [] {
      var n := |steps| - 1;
      assert forall i | 0 <= i < n :: steps[..n][i] == steps[i];
      SessionsAreGapFree(bufSize, steps[..n]);
      StepGapFree(Run(Init(bufSize), steps[..n]), steps[n]);
    }
    var s := Run(Init(bufSize), steps);
    forall sid | sid in s.sessions ensures Rows(s.sessions[sid].frames) <= After(s.log, s.sessions[sid].cursor) {
      assert SessionGapFree(s, s.sessions[sid]);
    }
  }

  /** The session is live and has nothing more to take: its open channel is empty and every row of
      the log has been published. */
  ghost predicate CaughtUp(s: State, sid: nat) {
    && Running(s, sid) && s.sessions[sid].phase.Live? && s.pending == []
    && s.sessions[sid].sub in s.b.chans
    && s.b.chans[s.sessions[sid].sub].buf == [] && s.b.chans[s.sessions[sid].sub].status.Open?
  }

  /** Nothing is left behind: a live session that has emptied its open channel, with no row
      waiting to be published, has written every row after its cursor. */
  lemma {:induction false} CaughtUpIsComplete(s: State, sid: nat)
    requires GapFree(s) && CaughtUp(s, sid)
    ensures Rows(s.sessions[sid].frames) == After(s.log, s.sessions[sid].cursor)
  {
    var h := s.sessions[sid];
    SoundAt(s, sid);
    HeadIsLogRow(s, sid);
    assert SessionGapFree(s, h);
    assert Position(s, h) == |s.log|;
    NothingAfter(s.log, h.last);
    ResumeContinues(s.log, h.cursor, Rows(h.frames));
  }

  // ---------------------------------------------------------------- clients

  /** What every session wrote and what every client received are prefixes of the rows asked for. */
  ghost predicate AllPrefixes(s: State) {
    && ClientsSafe(s)
    && (forall sid | sid in s.sessions :: Rows(s.sessions[sid].frames) <= After(s.log, s.sessions[sid].cursor))
    && (forall cid | cid in s.clients :: s.clients[cid].received <= After(s.log, s.clients[cid].first))
  }

  ghost predicate ClientsGapFree(s: State) {
    GapFree(s) && AllPrefixes(s)
  }

  /** A client that has taken every frame of a caught-up session has received every row after its
      first cursor, over however many sessions it took to get there. */
  lemma {:induction false} CaughtUpClientIsComplete(s: State, cid: nat)
    requires ClientsGapFree(s) && cid in s.clients && s.clients[cid].session.Some?
    requires CaughtUp(s, s.clients[cid].session.value)
    requires s.clients[cid].delivered == |s.sessions[s.clients[cid].session.value].frames|
    ensures s.clients[cid].received == After(s.log, s.clients[cid].first)
  {
    var c := s.clients[cid];
    var h := s.sessions[c.session.value];
    CaughtUpIsComplete(s, c.session.value);
    assert ClientSafe(s.log, s.sessions, c);
    var prior :| Follows(h, c, prior);
    assert h.frames[..c.delivered] == h.frames;
    assert prior <= c.received;
    ResumeContinues(s.log, c.first, prior);
    assert After(s.log, c.first) == prior + After(s.log, h.cursor);
  }

  /** Resuming where a prefix ended and reading another prefix gives a longer prefix. */
  lemma {:induction false} PrefixesChain(log: seq<Event>, first: nat, prior: seq<Event>, rows: seq<Event>)
    requires IsLog(log) && prior <= After(log, first)
    requires rows <= After(log, LastId(prior, first))
    ensures prior + rows <= After(log, first)
  {
    ResumeContinues(log, first, prior);
    assert After(log, first) == prior + After(log, first)[|prior|..];
  }

  lemma {:induction false} TakeFrameGapFree(log: seq<Event>, h: Session, c: Client, prior: seq<Event>)
    requires IsLog(log) && Sound(log, h) && Follows(h, c, prior) && c.delivered < |h.frames|
    requires c.resume == LastId(c.received, c.first)
    requires c.received <= After(log, c.first) && Rows(h.frames) <= After(log, h.cursor)
    ensures TakeFrame(c, h.frames[c.delivered]).received <= After(log, c.first)
  {
    TakeFrameFollows(log, h, c, prior);
    RowsSplit(h.frames, c.delivered + 1);
    assert prior <= c.received;
    PrefixesChain(log, c.first, prior, Rows(h.frames[..c.delivered + 1]));
  }

  /** The log only grows under a client that takes nothing. */
  lemma {:induction false} ReceivedStaysPrefix(s: State, step: Step, received: seq<Event>, first: nat)
    requires received <= After(s.log, first)
    ensures received <= After(Next(s, step).log, first)
  {
    var s' := Next(s, step);
    StepLog(s, step);
    assert s.log + s'.log[|s.log|..] == s'.log;
    AfterMonotone(s.log, s'.log[|s.log|..], first);
  }

  lemma {:induction false} DeliveredGapFree(s: State, cid: nat)
    requires AllPrefixes(s) && cid in s.clients
    requires Next(s, Deliver(cid)).clients[cid] != s.clients[cid]
    ensures var s' := Next(s, Deliver(cid)); s'.clients[cid].received <= After(s'.log, s'.clients[cid].first)
  {
    var c := s.clients[cid];
    var h := s.sessions[c.session.value];
    assert ClientSafe(s.log, s.sessions, c) && Sound(s.log, h);
    var prior :| Follows(h, c, prior);
    TakeFrameGapFree(s.log, h, c, prior);
  }

  lemma {:induction false} StepClientGapFree(s: State, step: Step, cid: nat)
    requires AllPrefixes(s) && cid in Next(s, step).clients
    ensures var s' := Next(s, step); s'.clients[cid].received <= After(s'.log, s'.clients[cid].first)
  {
    if step == Deliver(cid) && cid in s.clients && Next(s, step).clients[cid] != s.clients[cid] {
      DeliveredGapFree(s, cid);
    } else {
      ClientMoves(s, step, cid);
      if cid in s.clients { ReceivedStaysPrefix(s, step, s.clients[cid].received, s.clients[cid].first); }
    }
  }

  /** The resume theorem: over any number of sessions, disconnects, overflows and crashes
      (including one between append and publish), what a client that resumes from its last
      non-zero id has received in all is a prefix of the log rows after its first cursor,
      each row once. */
  lemma {:induction false} ClientsAreGapFree(bufSize: int, steps: seq<Step>)
    requires InOrder(steps)
    ensures ClientsGapFree(Run(Init(bufSize), steps))
    ensures var s := Run(Init(bufSize), steps);
      forall cid | cid in s.clients ::
        && s.clients[cid].received <= After(s.log, s.clients[cid].first)
        && s.clients[cid].resume == LastId(s.clients[cid].received, s.clients[cid].first)
  {
    SessionsAreGapFree(bufSize, steps);
    ClientNeverSeesDuplicates(bufSize, steps);
    var s := Run(Init(bufSize), steps);
    if steps != [] {
      var n := |steps| - 1;
      assert forall i | 0 <= i < n :: steps[..n][i] == steps[i];
      ClientsAreGapFree(bufSize, steps[..n]);
      forall cid | cid in s.clients ensures s.clients[cid].received <= After(s.log, s.clients[cid].first) {
        StepClientGapFree(Run(Init(bufSize), steps[..n]), steps[n], cid);
      }
    }
    forall cid | cid in s.clients
      ensures s.clients[cid].resume == LastId(s.clients[cid].received, s.clients[cid].first)
    {
      assert ClientSafe(s.log, s.sessions, s.clients[cid]);
    }
  }
}
