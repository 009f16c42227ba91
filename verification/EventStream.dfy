/** The resumable event stream as a transition system: emitters that append and then publish,
    the broadcaster, any number of `/v1/events` sessions and of reconnecting clients, and
    daemon crashes, interleaved in any order. */
module EventStream {
  import opened Wrappers
  import opened EventLog
  import Broadcast

  const REPLAY_BATCH: nat := 256

  /** A frame on the wire: the synthetic connection.state (id 0), a log row, or the terminal
      events.lagged error (no id). */
  datatype Frame = ConnectionState | Row(ev: Event) | Lagged

  datatype Phase = Greeting | Replaying | Live | Finished

  /** One run of the handler: its resume cursor, subscription, `lastReplayedSeq` and output. */
  datatype Session = Session(cursor: nat, sub: nat, phase: Phase, last: nat, frames: seq<Frame>)

  /** A consumer across reconnects: `resume` is the last non-zero id it has seen, and
      `delivered` counts the frames of its current session that have reached it. */
  datatype Client = Client(first: nat, resume: nat, received: seq<Event>, session: Option<nat>, delivered: nat)

  /** `pending` holds, in append order, rows appended but not yet published; `born` is the
      length of the log when this daemon process started. */
  datatype State = State(
    log: seq<Event>, born: nat, b: Broadcast.State, pending: seq<Event>,
    sessions: map<nat, Session>, clients: map<nat, Client>)

  function Init(bufSize: int): State {
    State([], 0, Broadcast.New(bufSize), [], map[], map[])
  }

  function Rows(frames: seq<Frame>): seq<Event> {
    if frames == [] then []
    else
      var f := frames[|frames| - 1];
      Rows(frames[..|frames| - 1]) + if f.Row? then [f.ev] else []
  }

  function RowFrames(rows: seq<Event>): seq<Frame> {
    seq(|rows|, i requires 0 <= i < |rows| => Row(rows[i]))
  }

  // ---------------------------------------------------------------- the handler's moves

  function Greet(h: Session): Session {
    h.(frames := h.frames + [ConnectionState], phase := Replaying)
  }

  /** One turn of the replay loop. */
  function ReplayPage(h: Session, log: seq<Event>): Session {
    var rows := Page(log, h.last, REPLAY_BATCH);
    h.(frames := h.frames + RowFrames(rows),
       last := LastId(rows, h.last),
       phase := if |rows| < REPLAY_BATCH then Live else Replaying)
  }

  /** One event taken from the live channel: the duplicate filter, then the write. */
  function Tail(h: Session, ev: Event): Session {
    if ev.id <= h.last then h
    else h.(frames := h.frames + [Row(ev)], last := ev.id)
  }

  // ---------------------------------------------------------------- the client's side

  function FrameId(f: Frame): Option<nat> {
    match f
    case ConnectionState => Some(0)
    case Row(ev) => Some(ev.id)
    case Lagged => None
  }

  /** The rule this API asks of its clients: id 0 never moves the resume cursor. */
  function NextResume(resume: nat, f: Frame): nat {
    match FrameId(f)
    case Some(id) => if id != 0 then id else resume
    case None => resume
  }

  /** The rule of the HTML Standard, section 9.2.6: any id field sets the last event id. */
  function StandardResume(resume: nat, frames: seq<Frame>): nat {
    if frames == [] then resume
    else
      match FrameId(frames[|frames| - 1])
      case Some(id) => id
      case None => StandardResume(resume, frames[..|frames| - 1])
  }

  function TakeFrame(c: Client, f: Frame): Client {
    c.(resume := NextResume(c.resume, f),
       received := c.received + if f.Row? then [f.ev] else [],
       delivered := c.delivered + 1)
  }

  // ---------------------------------------------------------------- transitions

  datatype Step =
    | Append(kind: string, payload: string, skipped: nat)
    | Publish(index: nat)
    | Open(sid: nat, cursor: nat)
    | GreetStep(sid: nat)
    | Replay(sid: nat)
    | Receive(sid: nat)
    | Leave(sid: nat)
    | Crash
    | NewClient(cid: nat, cursor: nat)
    | Connect(cid: nat, sid: nat)
    | Deliver(cid: nat)

  predicate Running(s: State, sid: nat) {
    sid in s.sessions && !s.sessions[sid].phase.Finished?
  }

  function OpenSession(s: State, sid: nat, cursor: nat): State {
    var b := Broadcast.Subscribe(s.b);
    s.(b := b, sessions := s.sessions[sid := Session(cursor, b.next, Greeting, cursor, [])])
  }

  /** The handler returns: its deferred Unsubscribe runs. */
  function Finish(s: State, sid: nat, h: Session): State {
    s.(b := Broadcast.Unsubscribe(s.b, h.sub), sessions := s.sessions[sid := h.(phase := Finished)])
  }

  /** Steps that are not enabled leave the state as it is. `Leave` covers a client that
      disconnects and a replay query that fails; `Receive` on an open empty channel waits. */
  function Next(s: State, step: Step): State {
    match step
    case Append(kind, payload, skipped) =>
      var row := Event(LastId(s.log, 0) + 1 + skipped, kind, payload);
      s.(log := s.log + [row], pending := s.pending + [row])
    case Publish(i) =>
      if i < |s.pending| then
        s.(b := Broadcast.Publish(s.b, s.pending[i]), pending := s.pending[..i] + s.pending[i + 1..])
      else s
    case Open(sid, cursor) =>
      if sid !in s.sessions then OpenSession(s, sid, cursor) else s
    case GreetStep(sid) =>
      if sid in s.sessions && s.sessions[sid].phase.Greeting? then
        s.(sessions := s.sessions[sid := Greet(s.sessions[sid])])
      else s
    case Replay(sid) =>
      if sid in s.sessions && s.sessions[sid].phase.Replaying? then
        s.(sessions := s.sessions[sid := ReplayPage(s.sessions[sid], s.log)])
      else s
    case Receive(sid) =>
      if sid in s.sessions && s.sessions[sid].phase.Live? && s.sessions[sid].sub in s.b.chans then
        var h := s.sessions[sid];
        var c := s.b.chans[h.sub];
        if c.buf != [] then
          s.(b := Broadcast.Receive(s.b, h.sub), sessions := s.sessions[sid := Tail(h, c.buf[0])])
        else if !c.status.Open? then
          Finish(s, sid, h.(frames := h.frames + [Lagged]))
        else s
      else s
    case Leave(sid) =>
      if Running(s, sid) then Finish(s, sid, s.sessions[sid]) else s
    case Crash =>
      s.(born := |s.log|, b := Broadcast.New(s.b.bufSize), pending := [],
         sessions := map sid | sid in s.sessions :: s.sessions[sid].(phase := Finished))
    case NewClient(cid, cursor) =>
      if cid !in s.clients then s.(clients := s.clients[cid := Client(cursor, cursor, [], None, 0)]) else s
    case Connect(cid, sid) =>
      if cid in s.clients && sid !in s.sessions then
        var c := s.clients[cid];
        OpenSession(s, sid, c.resume).(clients := s.clients[cid := c.(session := Some(sid), delivered := 0)])
      else s
    case Deliver(cid) =>
      if cid in s.clients && s.clients[cid].session.Some? && s.clients[cid].session.value in s.sessions
         && s.clients[cid].delivered < |s.sessions[s.clients[cid].session.value].frames| then
        var c := s.clients[cid];
        s.(clients := s.clients[cid := TakeFrame(c, s.sessions[c.session.value].frames[c.delivered])])
      else s
  }

  function Run(s: State, steps: seq<Step>): State {
    if steps == [] then s else Next(Run(s, steps[..|steps| - 1]), steps[|steps| - 1])
  }

  /** Emits publish in the order they appended. Serialised Emit calls have this property; it is
      all the gap-freedom theorems need. */
  predicate InOrder(steps: seq<Step>) {
    forall i | 0 <= i < |steps| :: steps[i].Publish? ==> steps[i].index == 0
  }
}
