/** Where the delivery guarantee ends: emitters that publish out of append order, and clients
    that follow the HTML Standard's last-event-id rule. */
module StreamLimits {
  import opened Wrappers
  import opened EventLog
  import Broadcast
  import opened EventStream
  import opened StreamSafety
  import opened StreamGapFree

  // ---------------------------------------------------------------- publish order

  lemma {:induction false} EarlierRowMissed(log: seq<Event>, cursor: nat, read: seq<Event>, m: nat)
    requires IsLog(log) && read <= After(log, cursor)
    requires 0 < m < |log| && log[m - 1].id > LastId(read, cursor)
    ensures !(read + [log[m]] <= After(log, cursor))
  {
    var last := LastId(read, cursor);
    ResumeContinues(log, cursor, read);
    AfterIsSuffix(log, last);
    var k := Passed(log, last);
    forall i | m - 1 <= i < |log| ensures log[i].id > last {
      assert m - 1 < i ==> log[m - 1].id < log[i].id;
    }
    assert k > 0 ==> log[k - 1].id <= last;
    assert After(log, cursor)[|read|..][0] == log[k];
    assert After(log, cursor)[|read|] == log[k];
    assert log[k].id < log[m].id;
    assert (read + [log[m]])[|read|] == log[m];
  }

  /** Taking row `m` of the log when everything before row `n` has been passed. */
  lemma {:induction false} TailIsPrefixIff(log: seq<Event>, h: Session, n: nat, m: nat)
    requires IsLog(log) && Sound(log, h) && h.phase.Live?
    requires Rows(h.frames) <= After(log, h.cursor)
    requires PassedAll(log, n, h.last) && n <= m < |log|
    ensures Rows(Tail(h, log[m]).frames) <= After(log, h.cursor) <==>
      m == n || log[m].id <= h.last || log[m - 1].id <= h.last
  {
    var read := Rows(h.frames);
    TailSound(log, h, log[m]);
    if log[m].id > h.last {
      if m == n {
        NextRowExtends(log, h.cursor, read, m);
      } else if log[m - 1].id <= h.last {
        PassedByRow(log, m - 1);
        NextRowExtends(log, h.cursor, read, m);
      } else {
        EarlierRowMissed(log, h.cursor, read, m);
      }
    }
  }

  /** Taking `k` events from a session's channel, one after the other. */
  function Receives(s: State, sid: nat, k: nat): State {
    if k == 0 then s else Next(Receives(s, sid, k - 1), Receive(sid))
  }

  function TailAll(h: Session, evs: seq<Event>): Session {
    if evs == [] then h else Tail(TailAll(h, evs[..|evs| - 1]), evs[|evs| - 1])
  }

  lemma {:induction false} TailAllSnoc(h: Session, evs: seq<Event>, ev: Event)
    ensures TailAll(h, evs + [ev]) == Tail(TailAll(h, evs), ev)
  {
    assert (evs + [ev])[..|evs|] == evs;
  }

  lemma {:induction false} TailAllStays(h: Session, evs: seq<Event>)
    ensures TailAll(h, evs).(frames := h.frames, last := h.last) == h
  {
    if evs != [] { TailAllStays(h, evs[..|evs| - 1]); }
  }

  lemma {:induction false} ReceivesOne(s: State, sid: nat)
    requires sid in s.sessions && s.sessions[sid].phase.Live? && s.sessions[sid].sub in s.b.chans
    requires s.b.chans[s.sessions[sid].sub].buf != []
    ensures
      var h, s' := s.sessions[sid], Next(s, Receive(sid));
      && s'.log == s.log && sid in s'.sessions && s'.sessions[sid] == Tail(h, s.b.chans[h.sub].buf[0])
      && h.sub in s'.b.chans && s'.b.chans[h.sub].buf == s.b.chans[h.sub].buf[1..]
  {
  }

  /** Draining a channel writes its events through the duplicate filter, in order. */
  lemma {:induction false} ReceivesTail(s: State, sid: nat, k: nat)
    requires sid in s.sessions && s.sessions[sid].phase.Live? && s.sessions[sid].sub in s.b.chans
    requires k <= |s.b.chans[s.sessions[sid].sub].buf|
    ensures
      var h, s' := s.sessions[sid], Receives(s, sid, k);
      var buf := s.b.chans[h.sub].buf;
      && s'.log == s.log && sid in s'.sessions && s'.sessions[sid] == TailAll(h, buf[..k])
      && h.sub in s'.b.chans && s'.b.chans[h.sub].buf == buf[k..]
  {
    if k > 0 {
      ReceivesTail(s, sid, k - 1);
      var h := s.sessions[sid];
      var buf := s.b.chans[h.sub].buf;
      TailAllStays(h, buf[..k - 1]);
      ReceivesOne(Receives(s, sid, k - 1), sid);
      assert buf[..k][..k - 1] == buf[..k - 1];
      hide Next;
    }
  }

  /** A live gap-free session that has passed the first `m` rows; its last id is either `last` or,
      beyond that, the id of the last row passed. */
  ghost predicate Drained(log: seq<Event>, h: Session, m: nat, last: nat) {
    && Sound(log, h) && h.phase.Live? && Rows(h.frames) <= After(log, h.cursor) && PassedAll(log, m, h.last)
    && (h.last == last || (m > 0 && h.last == log[m - 1].id && h.last > last))
  }

  lemma {:induction false} DrainsOneMore(log: seq<Event>, h: Session, m: nat, last: nat)
    requires IsLog(log) && m < |log| && Drained(log, h, m, last)
    ensures Drained(log, Tail(h, log[m]), m + 1, last)
  {
    TailGapFree(log, h, m);
    TailSound(log, h, log[m]);
    hide Sound, After, Rows, PassedAll;
    assert m > 0 ==> log[m - 1].id < log[m].id;
  }

  /** A gap-free session takes consecutive log rows. */
  lemma {:induction false} TailAllGapFree(log: seq<Event>, h: Session, n: nat, k: nat)
    requires IsLog(log) && n + k <= |log| && Drained(log, h, n, h.last)
    ensures Drained(log, TailAll(h, log[n..n + k]), n + k, h.last)
  {
    hide Drained, Tail, IsLog;
    if k == 0 {
      assert log[n..n + k] == [];
    } else {
      TailAllGapFree(log, h, n, k - 1);
      DrainsOneMore(log, TailAll(h, log[n..n + k - 1]), n + k - 1, h.last);
      TailAllSnoc(h, log[n..n + k - 1], log[n + k - 1]);
      assert log[n..n + k] == log[n..n + k - 1] + [log[n + k - 1]];
    }
  }

  /** Draining does not move the condition: a row after those drained is passed by the last id
      exactly if it was before. */
  lemma {:induction false} SameCondition(log: seq<Event>, m: nat, i: nat, last: nat, drained: nat)
    requires IsLog(log) && m + i < |log|
    requires drained == last || (m > 0 && drained == log[m - 1].id && drained > last)
    ensures i == 0 || log[m + i].id <= drained || log[m + i - 1].id <= drained <==> i == 0 || log[m + i - 1].id <= last
  {
    if i > 0 {
      assert log[m + i - 1].id < log[m + i].id;
      assert m > 0 ==> log[m - 1].id < log[m + i - 1].id;
    }
  }

  lemma {:induction false} PublishedToRoom(s: State, sid: nat, i: nat)
    requires Safe(s) && Running(s, sid) && i < |s.pending|
    requires s.sessions[sid].sub in s.b.chans
    requires var c := s.b.chans[s.sessions[sid].sub]; c.status.Open? && |c.buf| < s.b.bufSize
    ensures
      var s1, sub := Next(s, Publish(i)), s.sessions[sid].sub;
      && s1.sessions == s.sessions && s1.log == s.log
      && sub in s1.b.chans && s1.b.chans[sub].buf == s.b.chans[sub].buf + [s.pending[i]]
  {
  }

  /** Publish a pending row to a live session and let it read all that its channel then holds. */
  function PublishAndRead(s: State, sid: nat, i: nat, buffered: nat): State {
    Receives(Next(s, Publish(i)), sid, buffered + 1)
  }

  lemma {:induction false} ReadsPublished(s: State, sid: nat, i: nat)
    requires Safe(s) && Running(s, sid) && s.sessions[sid].phase.Live? && i < |s.pending|
    requires s.sessions[sid].sub in s.b.chans
    requires var c := s.b.chans[s.sessions[sid].sub]; c.status.Open? && |c.buf| < s.b.bufSize
    ensures
      var h := s.sessions[sid];
      var buf := s.b.chans[h.sub].buf;
      var s' := PublishAndRead(s, sid, i, |buf|);
      s'.log == s.log && sid in s'.sessions && s'.sessions[sid] == Tail(TailAll(h, buf), s.pending[i])
  {
    PublishedToRoom(s, sid, i);
    var buf := s.b.chans[s.sessions[sid].sub].buf;
    var s1 := Next(s, Publish(i));
    hide Next;
    ReceivesTail(s1, sid, |buf| + 1);
    assert (buf + [s.pending[i]])[..|buf| + 1] == buf + [s.pending[i]];
    TailAllSnoc(s.sessions[sid], buf, s.pending[i]);
  }

  /** One more row for a drained session, `m` rows into the log. */
  lemma {:induction false} OrderIff(log: seq<Event>, pending: seq<Event>, h: Session, m: nat, last: nat, i: nat)
    requires IsLog(log) && Drained(log, h, m, last) && m <= |log| && log[m..] == pending && i < |pending|
    ensures Rows(Tail(h, pending[i]).frames) <= After(log, h.cursor) <==> i == 0 || pending[i - 1].id <= last
  {
    assert pending[i] == log[m + i];
    assert i > 0 ==> pending[i - 1] == log[m + i - 1];
    TailIsPrefixIff(log, h, m, m + i);
    SameCondition(log, m, i, last, h.last);
    hide Rows, After, Tail, IsLog;
  }

  /** A live session whose open channel has room, empty or not, is given a pending row and reads on.
      Its output stays a gap-free prefix exactly when that row is the oldest pending one or the row
      before it is not beyond what the session had already written: publishing oldest first is
      needed, not just enough. */
  lemma {:induction false} PublishOrderMatters(s: State, sid: nat, i: nat)
    requires GapFree(s) && Running(s, sid) && s.sessions[sid].phase.Live?
    requires s.sessions[sid].sub in s.b.chans
    requires var c := s.b.chans[s.sessions[sid].sub]; c.status.Open? && |c.buf| < s.b.bufSize
    requires i < |s.pending|
    ensures
      var h := s.sessions[sid];
      var s' := PublishAndRead(s, sid, i, |s.b.chans[h.sub].buf|);
      && sid in s'.sessions
      && (Rows(s'.sessions[sid].frames) <= After(s'.log, h.cursor) <==>
            i == 0 || s.pending[i - 1].id <= h.last)
  {
    hide Safe, Sound, IsLog, Rows, After, Tail, TailAll, PassedAll, PublishAndRead, Position;
    ReadsPublished(s, sid, i);
    LiveFacts(s, sid);
    var h := s.sessions[sid];
    DrainedOrderIff(s.log, s.pending, h, Position(s, h), |s.b.chans[h.sub].buf|, i);
  }

  lemma {:induction false} DrainedOrderIff(log: seq<Event>, pending: seq<Event>, h: Session, n: nat, k: nat, i: nat)
    requires IsLog(log) && Sound(log, h) && h.phase.Live? && Rows(h.frames) <= After(log, h.cursor)
    requires PassedAll(log, n, h.last) && n + k <= |log| && log[n + k..] == pending && i < |pending|
    ensures Rows(Tail(TailAll(h, log[n..n + k]), pending[i]).frames) <= After(log, h.cursor) <==>
      i == 0 || pending[i - 1].id <= h.last
  {
    hide *;
    LiveDrains(log, h, n, k);
    OrderIff(log, pending, TailAll(h, log[n..n + k]), n + k, h.last, i);
  }

  lemma {:induction false} LiveDrains(log: seq<Event>, h: Session, n: nat, k: nat)
    requires IsLog(log) && Sound(log, h) && h.phase.Live? && Rows(h.frames) <= After(log, h.cursor)
    requires PassedAll(log, n, h.last) && n + k <= |log|
    ensures Drained(log, TailAll(h, log[n..n + k]), n + k, h.last)
    ensures TailAll(h, log[n..n + k]).cursor == h.cursor
  {
    TailAllGapFree(log, h, n, k);
    TailAllStays(h, log[n..n + k]);
    hide TailAll;
  }

  lemma {:induction false} LiveFacts(s: State, sid: nat)
    requires GapFree(s) && Running(s, sid) && s.sessions[sid].phase.Live?
    requires s.sessions[sid].sub in s.b.chans && s.b.chans[s.sessions[sid].sub].status.Open?
    ensures
      var h := s.sessions[sid];
      var n, k := Position(s, h), |s.b.chans[h.sub].buf|;
      && IsLog(s.log) && Sound(s.log, h) && Rows(h.frames) <= After(s.log, h.cursor)
      && PassedAll(s.log, n, h.last) && n + k <= |s.log|
      && s.b.chans[h.sub].buf == s.log[n..n + k] && s.log[n + k..] == s.pending
  {
    SoundAt(s, sid);
    HeadIsLogRow(s, sid);
    assert SessionGapFree(s, s.sessions[sid]);
  }

  lemma {:induction false} RunSnoc(s: State, t: seq<Step>, n: nat, u: State, u': State)
    requires n < |t| && u == Run(s, t[..n]) && u' == Next(u, t[n])
    ensures u' == Run(s, t[..n + 1])
  {
    assert t[..n + 1][..n] == t[..n];
  }

  /** One subscriber, already live; two emitters append rows 1 and 2, and the second publishes
      first. */
  function RacingEmitters(): seq<Step> {
    [Open(0, 0), GreetStep(0), Replay(0), Append("a", "", 0), Append("b", "", 0),
     Publish(1), Receive(0), Publish(0), Receive(0)]
  }

  lemma {:induction false} AppendsOfTwo(s: State)
    requires s == Next(Next(Init(8), Open(0, 0)), GreetStep(0))
    ensures
      var s' := Next(Next(Next(s, Replay(0)), Append("a", "", 0)), Append("b", "", 0));
      && s'.log == s'.pending == [Event(1, "a", ""), Event(2, "b", "")]
      && s'.b == Broadcast.Subscribe(Broadcast.New(8))
      && s'.sessions == map[0 := Session(0, 1, Live, 0, [ConnectionState])]
  {
    assert s.sessions[0] == Session(0, 1, Replaying, 0, [ConnectionState]);
    assert [ConnectionState] + RowFrames([]) == [ConnectionState];
    assert ReplayPage(s.sessions[0], s.log) == Session(0, 1, Live, 0, [ConnectionState]);
  }

  lemma {:induction false} PublishBackwards(s: State, a: Event, b: Event)
    requires s.pending == [a, b] && 0 < a.id < b.id
    requires s.b == Broadcast.Subscribe(Broadcast.New(8))
    requires s.sessions == map[0 := Session(0, 1, Live, 0, [ConnectionState])]
    ensures
      var s' := Next(Next(Next(Next(s, Publish(1)), Receive(0)), Publish(0)), Receive(0));
      && s'.log == s.log && s'.pending == []
      && s'.sessions == map[0 := Session(0, 1, Live, b.id, [ConnectionState, Row(b)])]
      && 1 in s'.b.chans && s'.b.chans[1].buf == [] && s'.b.chans[1].status.Open?
  {
    var s1 := Next(s, Publish(1));
    assert s1.b.chans[1].buf == [b] && s1.pending == [a];
    var s2 := Next(s1, Receive(0));
    assert s2.b.chans[1].buf == [] && s2.sessions[0].frames == [ConnectionState, Row(b)];
    var s3 := Next(s2, Publish(0));
    assert s3.b.chans[1].buf == [a] && s3.pending == [];
  }

  lemma {:induction false} RunOfAppends() returns (s5: State)
    ensures s5 == Run(Init(8), RacingEmitters()[..5])
    ensures s5.log == s5.pending == [Event(1, "a", ""), Event(2, "b", "")]
    ensures s5.b == Broadcast.Subscribe(Broadcast.New(8))
    ensures s5.sessions == map[0 := Session(0, 1, Live, 0, [ConnectionState])]
  {
    hide *;
    var s, t := Init(8), RacingEmitters();
    TheSteps();
    RunNothing(s);
    assert t[..0] == [];
    var s1 := Next(s, Open(0, 0));
    var s2 := Next(s1, GreetStep(0));
    var s3 := Next(s2, Replay(0));
    var s4 := Next(s3, Append("a", "", 0));
    s5 := Next(s4, Append("b", "", 0));
    AppendsOfTwo(s2);
    RunSnoc(s, t, 0, s, s1);
    RunSnoc(s, t, 1, s1, s2);
    RunSnoc(s, t, 2, s2, s3);
    RunSnoc(s, t, 3, s3, s4);
    RunSnoc(s, t, 4, s4, s5);
  }

  lemma {:induction false} RunNothing(s: State)
    ensures Run(s, []) == s
  {
  }

  lemma {:induction false} TheSteps()
    ensures
      var t := RacingEmitters();
      && |t| == 9 && t[0] == Open(0, 0) && t[1] == GreetStep(0) && t[2] == Replay(0)
      && t[3] == Append("a", "", 0) && t[4] == Append("b", "", 0)
      && t[5] == Publish(1) && t[6] == Receive(0) && t[7] == Publish(0) && t[8] == Receive(0)
  {
  }

  lemma {:induction false} RunOfPublishes(s5: State) returns (s9: State)
    requires s5 == Run(Init(8), RacingEmitters()[..5])
    ensures s9 == Run(Init(8), RacingEmitters())
    ensures s9 == Next(Next(Next(Next(s5, Publish(1)), Receive(0)), Publish(0)), Receive(0))
  {
    hide *;
    var s, t := Init(8), RacingEmitters();
    TheSteps();
    assert t[..9] == t;
    var s6 := Next(s5, Publish(1));
    var s7 := Next(s6, Receive(0));
    var s8 := Next(s7, Publish(0));
    s9 := Next(s8, Receive(0));
    RunSnoc(s, t, 5, s5, s6);
    RunSnoc(s, t, 6, s6, s7);
    RunSnoc(s, t, 7, s7, s8);
    RunSnoc(s, t, 8, s8, s9);
  }

  /** In that run row 1 is never delivered although the session is live, its channel open and
      drained, and nothing is left to publish. */
  lemma {:induction false} RacingEmittersLoseARow()
    ensures
      var s := Run(Init(8), RacingEmitters());
      && s.log == [Event(1, "a", ""), Event(2, "b", "")]
      && s.pending == []
      && 1 in s.b.chans && s.b.chans[1].buf == [] && s.b.chans[1].status.Open?
      && s.sessions == map[0 := Session(0, 1, Live, 2, [ConnectionState, Row(Event(2, "b", ""))])]
      && !(Rows(s.sessions[0].frames) <= After(s.log, 0))
  {
    var a, b := Event(1, "a", ""), Event(2, "b", "");
    var s5 := RunOfAppends();
    PublishBackwards(s5, a, b);
    var s9 := RunOfPublishes(s5);
    RowsSnoc([ConnectionState], Row(b));
    RowsSnoc([], ConnectionState);
    assert [ConnectionState, Row(b)] == [ConnectionState] + [Row(b)];
    assert [ConnectionState] == [] + [ConnectionState];
    AfterGrows([], a, 0);
    AfterGrows([a], b, 0);
    assert [a, b] == [a] + [b] && [a] == [] + [a];
  }

  // ---------------------------------------------------------------- the id 0 frame

  /** After taking some frames of a session, the standard rule and the API's rule agree on the
      next cursor, except when only the synthetic frame arrived: then the standard says 0. */
  lemma {:induction false} StandardCursor(h: Session, n: nat)
    requires Shaped(h) && Rising(Rows(h.frames), h.cursor) && n <= |h.frames|
    ensures StandardResume(h.cursor, h.frames[..n]) ==
      if n > 0 && Rows(h.frames[..n]) == [] then 0 else LastId(Rows(h.frames[..n]), h.cursor)
  {
    if n > 0 {
      StandardCursor(h, n - 1);
      var frames := h.frames[..n];
      assert frames == h.frames[..n - 1] + [h.frames[n - 1]];
      RowsSnoc(h.frames[..n - 1], h.frames[n - 1]);
      assert frames[..n - 1] == h.frames[..n - 1];
    }
  }

  /** A client that reconnects by the standard rule continues exactly where it stopped if and
      only if it had received nothing in that session, or some row, or no log row lies at or
      below its cursor. Otherwise the whole log is sent again. */
  lemma {:induction false} StandardClientResumes(log: seq<Event>, h: Session, n: nat)
    requires IsLog(log) && Sound(log, h) && n <= |h.frames|
    requires Rows(h.frames[..n]) <= After(log, h.cursor)
    ensures
      var frames := h.frames[..n];
      After(log, StandardResume(h.cursor, frames)) == After(log, h.cursor)[|Rows(frames)|..] <==>
        n == 0 || Rows(frames) != [] || Passed(log, h.cursor) == 0
    ensures
      var frames := h.frames[..n];
      n > 0 && Rows(frames) == [] ==> After(log, StandardResume(h.cursor, frames)) == log
  {
    var read := Rows(h.frames[..n]);
    StandardCursor(h, n);
    ResumeContinues(log, h.cursor, read);
    AfterIsSuffix(log, h.cursor);
    AfterIsSuffix(log, 0);
    if n > 0 && read == [] {
      assert Passed(log, 0) == 0;
      assert |After(log, h.cursor)[0..]| == |log| - Passed(log, h.cursor);
    }
  }

  /** The input on which that rule fails: a client that has seen row 1 reconnects, gets only the
      synthetic frame, and by the rule then asks for the whole log again. */
  lemma {:induction false} StandardClientStartsOver()
    ensures
      var s := Run(Init(8), [Append("a", "", 0), Open(0, 1), GreetStep(0)]);
      && 0 in s.sessions && s.sessions[0].cursor == 1 && s.sessions[0].frames == [ConnectionState]
      && StandardResume(1, s.sessions[0].frames) == 0
      && After(s.log, 1) == [] && After(s.log, 0) == s.log == [Event(1, "a", "")]
  {
    var t := [Append("a", "", 0), Open(0, 1), GreetStep(0)];
    var s1, s2, s3 := OneRowSteps();
    assert t[..0] == [] && t[..3] == t;
    RunSnoc(Init(8), t, 0, Init(8), s1);
    RunSnoc(Init(8), t, 1, s1, s2);
    RunSnoc(Init(8), t, 2, s2, s3);
    hide Run, Next;
    var a := Event(1, "a", "");
    assert [a] == [] + [a];
    AfterGrows([], a, 0);
    AfterGrows([], a, 1);
  }

  lemma {:induction false} OneRowSteps() returns (s1: State, s2: State, s3: State)
    ensures s1 == Next(Init(8), Append("a", "", 0)) && s2 == Next(s1, Open(0, 1)) && s3 == Next(s2, GreetStep(0))
    ensures s3.log == [Event(1, "a", "")] && s3.sessions == map[0 := Session(1, 1, Replaying, 1, [ConnectionState])]
  {
    s1 := Next(Init(8), Append("a", "", 0));
    s2 := Next(s1, Open(0, 1));
    s3 := Next(s2, GreetStep(0));
    assert s1.log == [Event(1, "a", "")];
    assert s2.sessions[0] == Session(1, 1, Greeting, 1, []);
    assert Greet(s2.sessions[0]) == Session(1, 1, Replaying, 1, [ConnectionState]);
  }
}
