/** What holds of the event stream under any schedule, with any number of unsynchronised
    emitters: ids rise, every frame is a log row, and `events.lagged` means overflow. */
module StreamSafety {
  import opened Wrappers
  import opened EventLog
  import Broadcast
  import opened EventStream

  /** Strictly increasing ids, all beyond a cursor. */
  ghost predicate Rising(evs: seq<Event>, cursor: nat) {
    && (forall i | 0 <= i < |evs| :: evs[i].id > cursor)
    && (forall i, j | 0 <= i < j < |evs| :: evs[i].id < evs[j].id)
  }

  ghost predicate AllIn(evs: seq<Event>, log: seq<Event>) {
    forall ev | ev in evs :: ev in log
  }

  /** connection.state comes first and once, then rows, then at most one final error. */
  ghost predicate Shaped(h: Session) {
    && (h.phase.Greeting? ==> h.frames == [])
    && (h.phase.Replaying? || h.phase.Live? ==> h.frames != [])
    && (h.frames != [] ==> h.frames[0].ConnectionState?)
    && (forall i | 1 <= i < |h.frames| ::
          h.frames[i].Row? || (h.frames[i].Lagged? && i == |h.frames| - 1 && h.phase.Finished?))
  }

  ghost predicate Sound(log: seq<Event>, h: Session) {
    && Rising(Rows(h.frames), h.cursor)
    && AllIn(Rows(h.frames), log)
    && h.last == LastId(Rows(h.frames), h.cursor)
    && Shaped(h)
  }

  /** Running sessions own distinct channels that nobody else has unsubscribed. */
  ghost predicate Wired(s: State) {
    && (forall sid | Running(s, sid) ::
          && s.sessions[sid].sub in s.b.chans
          && !s.b.chans[s.sessions[sid].sub].status.Unsubscribed?)
    && (forall i, j | Running(s, i) && Running(s, j) && i != j :: s.sessions[i].sub != s.sessions[j].sub)
  }

  ghost predicate BufferedIn(s: State) {
    forall id | id in s.b.chans :: AllIn(s.b.chans[id].buf, s.log)
  }

  ghost predicate Safe(s: State) {
    && IsLog(s.log)
    && Broadcast.Inv(s.b)
    && AllIn(s.pending, s.log)
    && BufferedIn(s)
    && Wired(s)
    && (forall sid | sid in s.sessions :: Sound(s.log, s.sessions[sid]))
  }

  // ---------------------------------------------------------------- frames

  lemma {:induction false} RowsSnoc(frames: seq<Frame>, f: Frame)
    ensures Rows(frames + [f]) == Rows(frames) + if f.Row? then [f.ev] else []
  {
    assert (frames + [f])[..|frames|] == frames;
  }

  lemma {:induction false} RowsOfRowFrames(frames: seq<Frame>, rows: seq<Event>)
    ensures Rows(frames + RowFrames(rows)) == Rows(frames) + rows
    decreases |rows|
  {
    if rows == [] {
      assert frames + RowFrames(rows) == frames;
    } else {
      var n := |rows| - 1;
      RowsOfRowFrames(frames, rows[..n]);
      RowsSnoc(frames + RowFrames(rows[..n]), Row(rows[n]));
      assert frames + RowFrames(rows) == frames + RowFrames(rows[..n]) + [Row(rows[n])];
      assert rows == rows[..n] + [rows[n]];
    }
  }

  // ---------------------------------------------------------------- one session's moves

  lemma {:induction false} RisingConcat(evs: seq<Event>, more: seq<Event>, cursor: nat)
    requires Rising(evs, cursor) && Rising(more, LastId(evs, cursor))
    ensures Rising(evs + more, cursor)
    ensures LastId(evs + more, cursor) == LastId(more, LastId(evs, cursor))
  {
    var all, last := evs + more, LastId(evs, cursor);
    forall i | 0 <= i < |evs| ensures cursor < evs[i].id <= last {
      assert i < |evs| - 1 ==> evs[i].id < evs[|evs| - 1].id;
    }
    forall i, j | 0 <= i < j < |all| ensures all[i].id < all[j].id {
      assert i < |evs| ==> all[i] == evs[i];
      assert j >= |evs| ==> all[j] == more[j - |evs|];
    }
  }

  lemma {:induction false} PageIsRising(log: seq<Event>, cursor: nat, limit: nat)
    requires IsLog(log)
    ensures Rising(Page(log, cursor, limit), cursor)
    ensures AllIn(Page(log, cursor, limit), log)
    ensures Page(log, cursor, limit) <= After(log, cursor)
  {
    AfterIsSuffix(log, cursor);
  }

  lemma {:induction false} ReplaySound(log: seq<Event>, h: Session)
    requires IsLog(log) && Sound(log, h) && h.phase.Replaying?
    ensures Sound(log, ReplayPage(h, log))
    ensures Rows(ReplayPage(h, log).frames) == Rows(h.frames) + Page(log, h.last, REPLAY_BATCH)
  {
    var rows := Page(log, h.last, REPLAY_BATCH);
    PageIsRising(log, h.last, REPLAY_BATCH);
    RowsOfRowFrames(h.frames, rows);
    RisingConcat(Rows(h.frames), rows, h.cursor);
  }

  lemma {:induction false} TailSound(log: seq<Event>, h: Session, ev: Event)
    requires Sound(log, h) && h.phase.Live? && ev in log
    ensures Sound(log, Tail(h, ev))
    ensures Rows(Tail(h, ev).frames) == Rows(h.frames) + if ev.id > h.last then [ev] else []
  {
    if ev.id > h.last {
      RowsSnoc(h.frames, Row(ev));
      RisingConcat(Rows(h.frames), [ev], h.cursor);
    }
  }

  // ---------------------------------------------------------------- steps

  lemma {:induction false} AppendSafe(s: State, kind: string, payload: string, skipped: nat)
    requires Safe(s)
    ensures Safe(Next(s, Append(kind, payload, skipped)))
  {
  }

  lemma {:induction false} PublishKeepsBuffers(s: State, ev: Event)
    requires Broadcast.Inv(s.b) && BufferedIn(s) && ev in s.log
    ensures BufferedIn(s.(b := Broadcast.Publish(s.b, ev)))
  {
    var b' := Broadcast.Publish(s.b, ev);
    forall id | id in b'.chans ensures AllIn(b'.chans[id].buf, s.log) {
      assert AllIn(s.b.chans[id].buf, s.log);
      assert b'.chans[id].buf == s.b.chans[id].buf || b'.chans[id].buf == s.b.chans[id].buf + [ev];
    }
  }

  lemma {:induction false} PublishKeepsWired(s: State, ev: Event)
    requires Broadcast.Inv(s.b) && Wired(s)
    ensures Wired(s.(b := Broadcast.Publish(s.b, ev)))
  {
    var s' := s.(b := Broadcast.Publish(s.b, ev));
    forall sid | Running(s', sid)
      ensures s'.sessions[sid].sub in s'.b.chans && !s'.b.chans[s'.sessions[sid].sub].status.Unsubscribed?
    {
      assert Running(s, sid);
    }
    assert forall sid :: Running(s', sid) <==> Running(s, sid);
  }

  lemma {:induction false} PublishSafe(s: State, i: nat)
    requires Safe(s) && i < |s.pending|
    ensures Safe(Next(s, Publish(i)))
  {
    var ev := s.pending[i];
    assert ev in s.log;
    Broadcast.ApplyKeepsInv(s.b, Broadcast.PublishOp(ev));
    PublishKeepsBuffers(s, ev);
    PublishKeepsWired(s, ev);
    PendingDoesNotMatter(s.(b := Broadcast.Publish(s.b, ev)), s.pending[..i] + s.pending[i + 1..]);
  }

  lemma {:induction false} PendingDoesNotMatter(s: State, pending: seq<Event>)
    requires Safe(s) && AllIn(pending, s.log)
    ensures Safe(s.(pending := pending))
  {
    assert forall sid :: Running(s.(pending := pending), sid) <==> Running(s, sid);
  }

  lemma {:induction false} OpenKeepsWired(s: State, sid: nat, cursor: nat)
    requires Broadcast.Inv(s.b) && Wired(s) && sid !in s.sessions
    ensures Wired(OpenSession(s, sid, cursor))
  {
    var s' := OpenSession(s, sid, cursor);
    forall other | Running(s', other)
      ensures s'.sessions[other].sub in s'.b.chans && !s'.b.chans[s'.sessions[other].sub].status.Unsubscribed?
      ensures other != sid ==> s'.sessions[other].sub != s'.sessions[sid].sub
    {
      assert other != sid ==> Running(s, other);
    }
    assert forall other | other != sid :: Running(s', other) <==> Running(s, other);
  }

  lemma {:induction false} OpenSafe(s: State, sid: nat, cursor: nat)
    requires Safe(s) && sid !in s.sessions
    ensures Safe(OpenSession(s, sid, cursor))
  {
    Broadcast.ApplyKeepsInv(s.b, Broadcast.SubscribeOp);
    OpenKeepsWired(s, sid, cursor);
    assert Sound(s.log, Session(cursor, s.b.next + 1, Greeting, cursor, []));
  }

  lemma {:induction false} SessionStepSafe(s: State, sid: nat, h: Session)
    requires Safe(s) && sid in s.sessions && Sound(s.log, h)
    requires h.sub == s.sessions[sid].sub && (h.phase.Finished? <==> s.sessions[sid].phase.Finished?)
    ensures Safe(s.(sessions := s.sessions[sid := h]))
  {
  }

  lemma {:induction false} FinishSafe(s: State, sid: nat, h: Session)
    requires Safe(s) && Running(s, sid) && h.sub == s.sessions[sid].sub
    requires Sound(s.log, h.(phase := Finished))
    ensures Safe(Finish(s, sid, h))
  {
    Broadcast.ApplyKeepsInv(s.b, Broadcast.UnsubscribeOp(h.sub));
    var s' := Finish(s, sid, h);
    forall other | Running(s', other)
      ensures s'.sessions[other].sub in s'.b.chans && !s'.b.chans[s'.sessions[other].sub].status.Unsubscribed?
    {
      assert Running(s, other) && other != sid;
    }
  }

  lemma {:induction false} LeaveSafe(s: State, sid: nat)
    requires Safe(s)
    ensures Safe(Next(s, Leave(sid)))
  {
    if Running(s, sid) {
      assert Sound(s.log, s.sessions[sid]);
      FinishSafe(s, sid, s.sessions[sid]);
    }
  }

  lemma {:induction false} LaggedSound(log: seq<Event>, h: Session)
    requires Sound(log, h) && h.phase.Live?
    ensures Sound(log, h.(frames := h.frames + [Lagged], phase := Finished))
  {
    RowsSnoc(h.frames, Lagged);
  }

  lemma {:induction false} TakeSafe(s: State, id: nat)
    requires Safe(s)
    ensures Safe(s.(b := Broadcast.Receive(s.b, id)))
  {
    Broadcast.ApplyKeepsInv(s.b, Broadcast.ReceiveOp(id));
  }

  lemma {:induction false} SoundAt(s: State, sid: nat)
    requires Safe(s) && Running(s, sid)
    ensures Sound(s.log, s.sessions[sid]) && s.sessions[sid].sub in s.b.chans
    ensures forall ev | ev in s.b.chans[s.sessions[sid].sub].buf :: ev in s.log
  {
  }

  lemma {:induction false} ReceiveEventSafe(s: State, sid: nat)
    requires Safe(s) && Running(s, sid) && s.sessions[sid].phase.Live?
    requires s.sessions[sid].sub in s.b.chans && s.b.chans[s.sessions[sid].sub].buf != []
    ensures Safe(Next(s, Receive(sid)))
  {
    var h := s.sessions[sid];
    var ev := s.b.chans[h.sub].buf[0];
    var taken := s.(b := Broadcast.Receive(s.b, h.sub));
    SoundAt(s, sid);
    hide Safe, Sound, Rows, IsLog, AllIn;
    TailSound(s.log, h, ev);
    TakeSafe(s, h.sub);
    SessionStepSafe(taken, sid, Tail(h, ev));
    assert Next(s, Receive(sid)) == taken.(sessions := taken.sessions[sid := Tail(h, ev)]);
  }

  lemma {:induction false} ReceiveClosedSafe(s: State, sid: nat)
    requires Safe(s) && Running(s, sid) && s.sessions[sid].phase.Live?
    requires s.sessions[sid].sub in s.b.chans && s.b.chans[s.sessions[sid].sub].buf == []
    ensures Safe(Next(s, Receive(sid)))
  {
    var h := s.sessions[sid];
    LaggedSound(s.log, h);
    FinishSafe(s, sid, h.(frames := h.frames + [Lagged]));
  }

  lemma {:induction false} GreetSafe(s: State, sid: nat)
    requires Safe(s) && sid in s.sessions && s.sessions[sid].phase.Greeting?
    ensures Safe(Next(s, GreetStep(sid)))
  {
    RowsSnoc([], ConnectionState);
    SessionStepSafe(s, sid, Greet(s.sessions[sid]));
  }

  lemma {:induction false} ReplaySafe(s: State, sid: nat)
    requires Safe(s) && sid in s.sessions && s.sessions[sid].phase.Replaying?
    ensures Safe(Next(s, Replay(sid)))
  {
    ReplaySound(s.log, s.sessions[sid]);
    SessionStepSafe(s, sid, ReplayPage(s.sessions[sid], s.log));
  }

  lemma {:induction false} CrashSafe(s: State)
    requires Safe(s)
    ensures Safe(Next(s, Crash))
  {
    forall sid | sid in s.sessions ensures Sound(s.log, s.sessions[sid].(phase := Finished)) {
      assert Sound(s.log, s.sessions[sid]);
    }
  }

  lemma {:induction false} ClientsDoNotMatter(s: State, clients: map<nat, Client>)
    requires Safe(s)
    ensures Safe(s.(clients := clients))
  {
  }

  lemma {:induction false} StepSafe(s: State, step: Step)
    requires Safe(s)
    ensures Safe(Next(s, step))
  {
    hide Safe, Sound, Broadcast.Publish, Broadcast.Subscribe, Broadcast.Unsubscribe, Broadcast.Receive;
    match step
    case Append(kind, payload, skipped) => AppendSafe(s, kind, payload, skipped);
    case Publish(i) => if i < |s.pending| { PublishSafe(s, i); }
    case Open(sid, cursor) => if sid !in s.sessions { OpenSafe(s, sid, cursor); }
    case GreetStep(sid) => if sid in s.sessions && s.sessions[sid].phase.Greeting? { GreetSafe(s, sid); }
    case Replay(sid) => if sid in s.sessions && s.sessions[sid].phase.Replaying? { ReplaySafe(s, sid); }
    case Receive(sid) =>
      if Running(s, sid) && s.sessions[sid].phase.Live? {
        SoundAt(s, sid);
        if s.b.chans[s.sessions[sid].sub].buf != [] { ReceiveEventSafe(s, sid); } else { ReceiveClosedSafe(s, sid); }
      }
    case Leave(sid) => LeaveSafe(s, sid);
    case Crash => CrashSafe(s);
    case NewClient(_, _) => ClientsDoNotMatter(s, Next(s, step).clients);
    case Connect(cid, sid) =>
      if cid in s.clients && sid !in s.sessions {
        OpenSafe(s, sid, s.clients[cid].resume);
        ClientsDoNotMatter(OpenSession(s, sid, s.clients[cid].resume), Next(s, step).clients);
      }
    case Deliver(_) => ClientsDoNotMatter(s, Next(s, step).clients);
  }

  lemma {:induction false} RunSafe(bufSize: int, steps: seq<Step>)
    ensures Safe(Run(Init(bufSize), steps))
  {
    if steps != [] {
      RunSafe(bufSize, steps[..|steps| - 1]);
      StepSafe(Run(Init(bufSize), steps[..|steps| - 1]), steps[|steps| - 1]);
    }
  }

  /** What any session has written under any schedule, emitters unsynchronised: first the
      synthetic frame, then log rows, each with the kind and payload of the row with its id,
      with strictly increasing ids beyond the cursor, then at most one final error. */
  lemma {:induction false} FramesUnderAnySchedule(bufSize: int, steps: seq<Step>, sid: nat)
    requires sid in Run(Init(bufSize), steps).sessions
    ensures
      var s := Run(Init(bufSize), steps);
      var h := s.sessions[sid];
      && (h.frames != [] ==> h.frames[0] == ConnectionState)
      && (forall i | 1 <= i < |h.frames| :: h.frames[i].Row? || (h.frames[i].Lagged? && i == |h.frames| - 1))
      && Rising(Rows(h.frames), h.cursor)
      && (forall ev | ev in Rows(h.frames) :: ev in s.log)
      && (forall ev, row | ev in Rows(h.frames) && row in s.log && row.id == ev.id :: row == ev)
  {
    RunSafe(bufSize, steps);
    var s := Run(Init(bufSize), steps);
    assert Sound(s.log, s.sessions[sid]);
  }

  /** Output only grows, and a session keeps its cursor and subscription. */
  ghost predicate Extends(h: Session, h': Session) {
    && h.frames <= h'.frames
    && h'.cursor == h.cursor && h'.sub == h.sub
    && (h.phase.Finished? ==> h' == h)
  }

  lemma {:induction false} ReceiveExtends(s: State, sid: nat, other: nat)
    requires other in s.sessions
    ensures other in Next(s, Receive(sid)).sessions
    ensures Extends(s.sessions[other], Next(s, Receive(sid)).sessions[other])
  {
  }

  lemma {:induction false} CrashExtends(s: State, sid: nat)
    requires sid in s.sessions
    ensures sid in Next(s, Crash).sessions
    ensures Extends(s.sessions[sid], Next(s, Crash).sessions[sid])
  {
  }

  lemma {:induction false} StepExtends(s: State, step: Step, sid: nat)
    requires sid in s.sessions
    ensures sid in Next(s, step).sessions
    ensures Extends(s.sessions[sid], Next(s, step).sessions[sid])
  {
    match step
    case Receive(other) => ReceiveExtends(s, other, sid);
    case Crash => CrashExtends(s, sid);
    case Append(_, _, _) =>
    case Publish(_) =>
    case Open(_, _) =>
    case GreetStep(_) =>
    case Replay(_) =>
    case Leave(_) =>
    case NewClient(_, _) =>
    case Connect(_, _) =>
    case Deliver(_) =>
  }

  ghost predicate EndsLagged(h: Session) {
    h.frames != [] && h.frames[|h.frames| - 1].Lagged?
  }

  lemma {:induction false} TailEnd(h: Session, ev: Event)
    requires !EndsLagged(h)
    ensures !EndsLagged(Tail(h, ev))
  {
  }

  /** No step but the session's own `Receive` can write the lagged error. */
  lemma {:induction false} OnlyReceiveWritesLagged(s: State, step: Step, sid: nat)
    requires sid in s.sessions && step != Receive(sid)
    requires !EndsLagged(s.sessions[sid])
    ensures sid in Next(s, step).sessions && !EndsLagged(Next(s, step).sessions[sid])
  {
    match step
    case Receive(_) =>
    case Crash =>
    case Append(_, _, _) =>
    case Publish(_) =>
    case Open(_, _) =>
    case GreetStep(_) =>
    case Replay(_) =>
    case Leave(_) =>
    case NewClient(_, _) =>
    case Connect(_, _) =>
    case Deliver(_) =>
  }

  /** A session writes `events.lagged` only when the broadcaster dropped its channel on
      overflow: all that was accepted has been taken, at least a full buffer of it, and an
      event published after that was lost to this subscriber. */
  lemma {:induction false} LaggedMeansOverflow(s: State, step: Step, sid: nat)
    requires Safe(s) && sid in s.sessions
    requires !EndsLagged(s.sessions[sid])
    requires sid in Next(s, step).sessions && EndsLagged(Next(s, step).sessions[sid])
    ensures step == Receive(sid) && s.sessions[sid].sub in s.b.chans
    ensures
      var c := s.b.chans[s.sessions[sid].sub];
      && c.status == Broadcast.Overflowed
      && c.received == s.b.published[c.start..c.start + |c.received|]
      && c.start + |c.received| < |s.b.published|
      && |c.received| >= s.b.bufSize
    ensures Next(s, step).sessions[sid].phase.Finished?
    ensures Next(s, step).sessions[sid].frames == s.sessions[sid].frames + [Lagged]
  {
    if step != Receive(sid) {
      OnlyReceiveWritesLagged(s, step, sid);
      assert false;
    }
    assert Running(s, sid);
    var c := s.b.chans[s.sessions[sid].sub];
    assert Broadcast.Contiguous(s.b, c);
    if c.buf == [] {
      assert c.Accepted() == c.received;
    } else {
      TailEnd(s.sessions[sid], c.buf[0]);
      assert false;
    }
  }

  // ---------------------------------------------------------------- nothing is left behind

  /** Every id in the broadcaster's map is the subscription of a session that is still running: a
      handler that returned has taken its own out. */
  ghost predicate NoneLeft(s: State) {
    forall id | id in s.b.subs :: exists sid :: Running(s, sid) && s.sessions[sid].sub == id
  }

  /** The running sessions stay, with their subscriptions. */
  lemma {:induction false} StillHeld(s: State, s': State)
    requires NoneLeft(s) && s'.b.subs <= s.b.subs
    requires forall sid | Running(s, sid) && s.sessions[sid].sub in s'.b.subs ::
      Running(s', sid) && s'.sessions[sid].sub == s.sessions[sid].sub
    ensures NoneLeft(s')
  {
    forall id | id in s'.b.subs
      ensures exists sid :: Running(s', sid) && s'.sessions[sid].sub == id
    {
      var sid :| Running(s, sid) && s.sessions[sid].sub == id;
      assert Running(s', sid) && s'.sessions[sid].sub == id;
    }
  }

  lemma {:induction false} OpenHolds(s: State, sid: nat, cursor: nat)
    requires NoneLeft(s) && sid !in s.sessions
    ensures NoneLeft(OpenSession(s, sid, cursor))
  {
    var s' := OpenSession(s, sid, cursor);
    forall id | id in s'.b.subs
      ensures exists other :: Running(s', other) && s'.sessions[other].sub == id
    {
      if id == s.b.next + 1 {
        assert Running(s', sid) && s'.sessions[sid].sub == id;
      } else {
        var other :| Running(s, other) && s.sessions[other].sub == id;
        assert Running(s', other) && s'.sessions[other].sub == id;
      }
    }
  }

  lemma {:induction false} FinishHolds(s: State, sid: nat, h: Session)
    requires Safe(s) && NoneLeft(s) && Running(s, sid) && h.sub == s.sessions[sid].sub
    ensures NoneLeft(Finish(s, sid, h))
  {
    Broadcast.UnsubscribeRemoves(s.b, h.sub);
    hide Broadcast.Unsubscribe;
    StillHeld(s, Finish(s, sid, h));
  }

  lemma {:induction false} ReceiveHolds(s: State, sid: nat)
    requires Safe(s) && NoneLeft(s)
    ensures NoneLeft(Next(s, Receive(sid)))
  {
    if sid in s.sessions && s.sessions[sid].phase.Live? && s.sessions[sid].sub in s.b.chans {
      var h := s.sessions[sid];
      var c := s.b.chans[h.sub];
      if c.buf == [] && !c.status.Open? {
        FinishHolds(s, sid, h.(frames := h.frames + [Lagged]));
      } else {
        hide NoneLeft;
        SessionHolds(s, sid, Next(s, Receive(sid)).sessions[sid]);
        MapStays(s.(sessions := Next(s, Receive(sid)).sessions), Next(s, Receive(sid)));
      }
    }
  }

  lemma {:induction false} MapStays(s: State, s': State)
    requires NoneLeft(s) && s'.b.subs == s.b.subs
    requires forall sid | Running(s, sid) :: Running(s', sid) && s'.sessions[sid].sub == s.sessions[sid].sub
    ensures NoneLeft(s')
  {
    hide NoneLeft;
    StillHeld(s, s');
  }

  lemma {:induction false} PublishHolds(s: State, i: nat)
    requires NoneLeft(s)
    ensures NoneLeft(Next(s, Publish(i)))
  {
    hide NoneLeft;
    StillHeld(s, Next(s, Publish(i)));
  }

  lemma {:induction false} SessionHolds(s: State, sid: nat, h: Session)
    requires NoneLeft(s) && Running(s, sid) && h.sub == s.sessions[sid].sub && !h.phase.Finished?
    ensures NoneLeft(s.(sessions := s.sessions[sid := h]))
  {
    hide NoneLeft;
    MapStays(s, s.(sessions := s.sessions[sid := h]));
  }

  lemma {:induction false} ConnectHolds(s: State, cid: nat, sid: nat)
    requires NoneLeft(s) && cid in s.clients && sid !in s.sessions
    ensures NoneLeft(Next(s, Connect(cid, sid)))
  {
    hide NoneLeft;
    OpenHolds(s, sid, s.clients[cid].resume);
    MapStays(OpenSession(s, sid, s.clients[cid].resume), Next(s, Connect(cid, sid)));
  }

  lemma {:induction false} StepHolds(s: State, step: Step)
    requires Safe(s) && NoneLeft(s)
    ensures NoneLeft(Next(s, step))
  {
    hide NoneLeft, Safe, Broadcast.Publish, Broadcast.Subscribe, Broadcast.Unsubscribe, Broadcast.Receive;
    match step
    case Append(_, _, _) => MapStays(s, Next(s, step));
    case Publish(i) => PublishHolds(s, i);
    case Open(sid, cursor) => if sid !in s.sessions { OpenHolds(s, sid, cursor); }
    case GreetStep(sid) =>
      if sid in s.sessions && s.sessions[sid].phase.Greeting? { SessionHolds(s, sid, Greet(s.sessions[sid])); }
    case Replay(sid) =>
      if sid in s.sessions && s.sessions[sid].phase.Replaying? {
        SessionHolds(s, sid, ReplayPage(s.sessions[sid], s.log));
      }
    case Receive(sid) => ReceiveHolds(s, sid);
    case Leave(sid) => if Running(s, sid) { FinishHolds(s, sid, s.sessions[sid]); }
    case Crash => CrashHolds(s);
    case NewClient(_, _) => MapStays(s, Next(s, step));
    case Connect(cid, sid) => if cid in s.clients && sid !in s.sessions { ConnectHolds(s, cid, sid); }
    case Deliver(_) => MapStays(s, Next(s, step));
  }

  lemma {:induction false} CrashHolds(s: State)
    ensures NoneLeft(Next(s, Crash))
  {
  }

  /** In every run the map holds running sessions only: whatever way a session ended, by leaving, by
      its lagged frame or with the process, its subscription is gone. */
  lemma {:induction false} NoSubscriptionLeft(bufSize: int, steps: seq<Step>)
    ensures NoneLeft(Run(Init(bufSize), steps))
  {
    if steps != [] {
      var init := steps[..|steps| - 1];
      NoSubscriptionLeft(bufSize, init);
      RunSafe(bufSize, init);
      StepHolds(Run(Init(bufSize), init), steps[|steps| - 1]);
    }
  }
}
