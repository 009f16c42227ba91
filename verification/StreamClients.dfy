/** Clients across reconnects: what their received events and resume cursor are made of. */
module StreamClients {
  import opened Wrappers
  import opened EventLog
  import opened EventStream
  import opened StreamSafety

  /** A client that was at `h.cursor` when it opened `h`, and has taken the first
      `c.delivered` frames of it since. */
  ghost predicate Follows(h: Session, c: Client, prior: seq<Event>) {
    && c.delivered <= |h.frames|
    && c.received == prior + Rows(h.frames[..c.delivered])
    && LastId(prior, c.first) == h.cursor
  }

  ghost predicate Linked(sessions: map<nat, Session>, c: Client) {
    && c.resume == LastId(c.received, c.first)
    && (c.session.Some? ==>
          && c.session.value in sessions
          && exists prior :: Follows(sessions[c.session.value], c, prior))
  }

  ghost predicate ClientSafe(log: seq<Event>, sessions: map<nat, Session>, c: Client) {
    Linked(sessions, c) && Rising(c.received, c.first) && AllIn(c.received, log)
  }

  ghost predicate ClientsSafe(s: State) {
    && Safe(s)
    && (forall cid | cid in s.clients ::
          ClientSafe(s.log, s.sessions, s.clients[cid]))
  }

  lemma {:induction false} RowsSplit(frames: seq<Frame>, n: nat)
    requires n <= |frames|
    ensures Rows(frames[..n]) <= Rows(frames)
    decreases |frames|
  {
    if n == |frames| {
      assert frames[..n] == frames;
    } else {
      var m := |frames| - 1;
      RowsSplit(frames[..m], n);
      assert frames[..m][..n] == frames[..n];
    }
  }

  lemma {:induction false} FollowsStays(h: Session, h': Session, c: Client, prior: seq<Event>)
    requires Follows(h, c, prior) && Extends(h, h')
    ensures Follows(h', c, prior)
  {
    assert h.frames[..c.delivered] == h'.frames[..c.delivered];
  }

  lemma {:induction false} ClientSafeStays(s: State, step: Step, c: Client)
    requires Safe(s) && ClientSafe(s.log, s.sessions, c)
    ensures ClientSafe(Next(s, step).log, Next(s, step).sessions, c)
  {
    if c.session.Some? {
      var sid := c.session.value;
      StepExtends(s, step, sid);
      var prior :| Follows(s.sessions[sid], c, prior);
      FollowsStays(s.sessions[sid], Next(s, step).sessions[sid], c, prior);
    }
    assert s.log <= Next(s, step).log;
  }

  lemma {:induction false} InPrefix(a: seq<Event>, b: seq<Event>, ev: Event)
    requires a <= b && ev in a
    ensures ev in b
  {
    var i :| 0 <= i < |a| && a[i] == ev;
    assert b[i] == ev;
  }

  lemma {:induction false} RowsAt(frames: seq<Frame>, n: nat)
    requires n < |frames|
    ensures Rows(frames[..n + 1]) == Rows(frames[..n]) + if frames[n].Row? then [frames[n].ev] else []
    ensures frames[n].Row? ==> frames[n].ev in Rows(frames)
  {
    var before, f := frames[..n], frames[n];
    assert frames[..n + 1] == before + [f];
    RowsSnoc(before, f);
    RowsSplit(frames, n + 1);
    if f.Row? {
      InPrefix(Rows(frames[..n + 1]), Rows(frames), f.ev);
    }
  }

  /** One delivered frame, after everything delivered before it. */
  lemma {:induction false} TakeFrameFollows(log: seq<Event>, h: Session, c: Client, prior: seq<Event>)
    requires Sound(log, h) && IsLog(log) && Follows(h, c, prior) && c.delivered < |h.frames|
    requires c.resume == LastId(c.received, c.first)
    ensures Follows(h, TakeFrame(c, h.frames[c.delivered]), prior)
    ensures
      var c' := TakeFrame(c, h.frames[c.delivered]);
      c'.resume == LastId(c'.received, c'.first)
  {
    var f, c' := h.frames[c.delivered], TakeFrame(c, h.frames[c.delivered]);
    RowsAt(h.frames, c.delivered);
    var before := Rows(h.frames[..c.delivered]);
    if f.Row? {
      assert f.ev in log;
      assert prior + before + [f.ev] == prior + (before + [f.ev]);
    } else {
      assert c.received + [] == c.received && before + [] == before;
    }
  }

  lemma {:induction false} FollowsIsRising(log: seq<Event>, h: Session, c: Client, prior: seq<Event>)
    requires Sound(log, h) && Follows(h, c, prior)
    requires Rising(prior, c.first) && AllIn(prior, log)
    ensures Rising(c.received, c.first) && AllIn(c.received, log)
  {
    RowsSplit(h.frames, c.delivered);
    RisingConcat(prior, Rows(h.frames[..c.delivered]), c.first);
  }

  lemma {:induction false} TakeFrameSafe(log: seq<Event>, sessions: map<nat, Session>, c: Client)
    requires IsLog(log) && ClientSafe(log, sessions, c) && c.session.Some?
    requires Sound(log, sessions[c.session.value]) && c.delivered < |sessions[c.session.value].frames|
    ensures ClientSafe(log, sessions, TakeFrame(c, sessions[c.session.value].frames[c.delivered]))
  {
    var h := sessions[c.session.value];
    var prior :| Follows(h, c, prior);
    TakeFrameFollows(log, h, c, prior);
    assert Rising(prior, c.first) && AllIn(prior, log) by {
      assert forall i | 0 <= i < |prior| :: prior[i] == c.received[i];
    }
    FollowsIsRising(log, h, TakeFrame(c, h.frames[c.delivered]), prior);
  }

  lemma {:induction false} ConnectSafe(s: State, cid: nat, sid: nat)
    requires ClientsSafe(s) && cid in s.clients && sid !in s.sessions
    ensures var s' := Next(s, Connect(cid, sid)); ClientSafe(s'.log, s'.sessions, s'.clients[cid])
  {
    var s' := Next(s, Connect(cid, sid));
    var c := s'.clients[cid];
    assert c.received == c.received + [];
    assert Follows(s'.sessions[sid], c, c.received);
  }

  /** Only `Deliver` adds to what a client has received. */
  lemma {:induction false} ClientMoves(s: State, step: Step, cid: nat)
    requires cid in Next(s, step).clients
    ensures
      var c' := Next(s, step).clients[cid];
      if cid !in s.clients then c' == Client(c'.first, c'.first, [], None, 0)
      else
        || c' == s.clients[cid]
        || (step == Deliver(cid) && c'.first == s.clients[cid].first)
        || (step.Connect? && step.cid == cid && step.sid !in s.sessions
            && c' == s.clients[cid].(session := Some(step.sid), delivered := 0))
  {
  }

  lemma {:induction false} StepClientSafe(s: State, step: Step, cid: nat)
    requires ClientsSafe(s) && cid in Next(s, step).clients
    ensures ClientSafe(Next(s, step).log, Next(s, step).sessions, Next(s, step).clients[cid])
  {
    ClientMoves(s, step, cid);
    if cid in s.clients {
      var c := s.clients[cid];
      assert ClientSafe(s.log, s.sessions, c);
      if Next(s, step).clients[cid] == c {
        ClientSafeStays(s, step, c);
      } else if step.Deliver? {
        TakeFrameSafe(s.log, s.sessions, c);
      } else {
        ConnectSafe(s, cid, step.sid);
      }
    }
  }

  lemma {:induction false} StepClientsSafe(s: State, step: Step)
    requires ClientsSafe(s)
    ensures ClientsSafe(Next(s, step))
  {
    var s' := Next(s, step);
    StepSafe(s, step);
    forall cid | cid in s'.clients ensures ClientSafe(s'.log, s'.sessions, s'.clients[cid]) {
      StepClientSafe(s, step, cid);
    }
  }

  /** Even with racing emitters, what a client has received over all its sessions is strictly
      increasing log rows beyond its first cursor: it never sees a row twice. */
  lemma {:induction false} ClientNeverSeesDuplicates(bufSize: int, steps: seq<Step>)
    ensures ClientsSafe(Run(Init(bufSize), steps))
  {
    if steps != [] {
      ClientNeverSeesDuplicates(bufSize, steps[..|steps| - 1]);
      StepClientsSafe(Run(Init(bufSize), steps[..|steps| - 1]), steps[|steps| - 1]);
    }
  }
}
