/** Gap-freedom under any publish order: exactly which publishes a session survives, over whole runs. */
module StreamOrder {
  import opened Wrappers
  import opened EventLog
  import Broadcast
  import opened EventStream
  import opened StreamSafety
  import opened StreamClients
  import opened StreamGapFree
  import opened StreamLimits

  /** A session once it has read what its channel holds now. */
  function Outlook(s: State, sid: nat): Session
    requires sid in s.sessions
  {
    var h := s.sessions[sid];
    if h.phase.Live? && h.sub in s.b.chans then TailAll(h, s.b.chans[h.sub].buf) else h
  }

  /** It has left no gap and has none coming. */
  ghost predicate Promising(s: State, sid: nat) {
    sid in s.sessions && Rows(Outlook(s, sid).frames) <= After(s.log, s.sessions[sid].cursor)
  }

  /** The step publishes a row into the open channel of this session, which is past its replay. */
  predicate Gives(s: State, step: Step, sid: nat) {
    && step.Publish? && step.index < |s.pending|
    && sid in s.sessions && s.sessions[sid].phase.Live? && s.sessions[sid].sub in s.b.chans
    && s.b.chans[s.sessions[sid].sub].status.Open? && |s.b.chans[s.sessions[sid].sub].buf| < s.b.bufSize
  }

  /** No row of the log lies between what the session will have passed and this one: it is the
      oldest row beyond, or not beyond at all. */
  ghost predicate Fits(s: State, sid: nat, ev: Event)
    requires sid in s.sessions
  {
    forall row | row in s.log :: !(Outlook(s, sid).last < row.id < ev.id)
  }

  /** Every row the run gave to the session while it was live fitted when it was given. Nothing is
      asked of what is published while the session is still replaying, or to other sessions. */
  ghost predicate GivenInOrder(bufSize: int, steps: seq<Step>, sid: nat) {
    steps == [] ||
    var init := steps[..|steps| - 1];
    var s, step := Run(Init(bufSize), init), steps[|steps| - 1];
    GivenInOrder(bufSize, init, sid) && (Gives(s, step, sid) ==> Fits(s, sid, s.pending[step.index]))
  }

  // ---------------------------------------------------------------- one session's rows

  lemma {:induction false} TailAllSound(log: seq<Event>, h: Session, evs: seq<Event>)
    requires Sound(log, h) && h.phase.Live? && AllIn(evs, log)
    ensures Sound(log, TailAll(h, evs)) && TailAll(h, evs).phase.Live?
    ensures Rows(h.frames) <= Rows(TailAll(h, evs).frames)
  {
    if evs != [] {
      var init, last := evs[..|evs| - 1], evs[|evs| - 1];
      assert last in evs && forall ev | ev in init :: ev in evs;
      TailAllSound(log, h, init);
      TailSound(log, TailAll(h, init), last);
      hide Sound, Rows;
    }
  }

  lemma {:induction false} TailAllCons(h: Session, ev: Event, rest: seq<Event>)
    ensures TailAll(h, [ev] + rest) == TailAll(Tail(h, ev), rest)
  {
    hide Tail;
    var all := [ev] + rest;
    if rest == [] {
      assert all[..0] == [] && TailAll(h, []) == h;
    } else {
      var n := |rest| - 1;
      TailAllCons(h, ev, rest[..n]);
      assert all[..|all| - 1] == [ev] + rest[..n];
    }
  }

  lemma {:induction false} TailAllFiltered(h: Session, evs: seq<Event>)
    requires forall ev | ev in evs :: ev.id <= h.last
    ensures TailAll(h, evs) == h
  {
    if evs != [] {
      var init := evs[..|evs| - 1];
      assert evs[|evs| - 1] in evs && forall ev | ev in init :: ev in evs;
      TailAllFiltered(h, init);
    }
  }

  /** A row extends a gap-free session exactly if nothing in the log lies between. */
  lemma {:induction false} NextRowIff(log: seq<Event>, cursor: nat, read: seq<Event>, ev: Event)
    requires IsLog(log) && read <= After(log, cursor) && ev in log && ev.id > LastId(read, cursor)
    ensures read + [ev] <= After(log, cursor) <==> forall row | row in log :: !(LastId(read, cursor) < row.id < ev.id)
  {
    var last := LastId(read, cursor);
    var k := Passed(log, last);
    ResumeContinues(log, cursor, read);
    AfterIsSuffix(log, last);
    var i :| 0 <= i < |log| && log[i] == ev;
    assert k <= i;
    assert After(log, cursor)[|read|..] == log[k..];
    assert After(log, cursor)[|read|] == log[k];
    if k == i {
      PrefixSnoc(After(log, cursor), read, log[k..]);
      forall row | row in log
        ensures !(last < row.id < ev.id)
      {
        var j :| 0 <= j < |log| && log[j] == row;
        assert j > i ==> log[i].id < log[j].id;
      }
    } else {
      assert log[k] in log && last < log[k].id < ev.id;
      assert (read + [ev])[|read|] != log[k];
    }
  }

  lemma {:induction false} TailFits(log: seq<Event>, h: Session, ev: Event)
    requires IsLog(log) && Sound(log, h) && h.phase.Live? && ev in log
    ensures
      var h' := Tail(h, ev);
      Rows(h'.frames) <= After(log, h'.cursor) <==>
        Rows(h.frames) <= After(log, h.cursor) && forall row | row in log :: !(h.last < row.id < ev.id)
  {
    TailSound(log, h, ev);
    if ev.id > h.last && Rows(h.frames) <= After(log, h.cursor) { NextRowIff(log, h.cursor, Rows(h.frames), ev); }
  }

  /** Rows of the log are a prefix of what a query returned then if they are of what it returns
      after the log has grown. */
  lemma {:induction false} PrefixIffGrown(log: seq<Event>, grown: seq<Event>, cursor: nat, rows: seq<Event>)
    requires log <= grown && IsLog(grown) && AllIn(rows, log)
    ensures rows <= After(grown, cursor) <==> rows <= After(log, cursor)
  {
    assert log + grown[|log|..] == grown;
    AfterMonotone(log, grown[|log|..], cursor);
    var n := |After(log, cursor)|;
    if rows <= After(grown, cursor) && |rows| > n {
      assert After(grown, cursor)[n] == rows[n];
      assert rows[n] in rows;
      NotInPrefix(log, grown, cursor, n);
    }
  }

  lemma {:induction false} NotInPrefix(log: seq<Event>, grown: seq<Event>, cursor: nat, n: nat)
    requires log <= grown && IsLog(grown) && n == |After(log, cursor)| < |After(grown, cursor)|
    ensures After(grown, cursor)[n] !in log
  {
    assert IsLog(log);
    AfterIsSuffix(log, cursor);
    AfterIsSuffix(grown, cursor);
    var k, m := Passed(log, cursor), Passed(grown, cursor);
    assert After(grown, cursor)[n] == grown[m + n];
    assert k > 0 ==> grown[k - 1].id <= cursor;
    assert m >= k;
    assert m + n >= |log|;
    forall i | 0 <= i < |log|
      ensures log[i] != grown[m + n]
    {
      assert grown[i].id < grown[m + n].id;
    }
  }

  // ---------------------------------------------------------------- steps

  lemma {:induction false} OutlookSound(s: State, sid: nat)
    requires Safe(s) && sid in s.sessions
    ensures
      var h := s.sessions[sid];
      && Sound(s.log, Outlook(s, sid)) && Outlook(s, sid).cursor == h.cursor
      && Rows(h.frames) <= Rows(Outlook(s, sid).frames)
  {
    var h := s.sessions[sid];
    assert Sound(s.log, h);
    if h.phase.Live? && h.sub in s.b.chans {
      TailAllSound(s.log, h, s.b.chans[h.sub].buf);
      TailAllStays(h, s.b.chans[h.sub].buf);
    }
  }

  /** Nothing this session reads or has read changed, though the log may have grown. */
  lemma {:induction false} SameOutlook(s: State, s': State, sid: nat)
    requires Safe(s) && Safe(s') && s.log <= s'.log && sid in s.sessions && sid in s'.sessions
    requires Rows(Outlook(s', sid).frames) == Rows(Outlook(s, sid).frames)
    requires s'.sessions[sid].cursor == s.sessions[sid].cursor
    ensures Promising(s', sid) <==> Promising(s, sid)
  {
    OutlookSound(s, sid);
    PrefixIffGrown(s.log, s'.log, s.sessions[sid].cursor, Rows(Outlook(s, sid).frames));
  }

  lemma {:induction false} GivenRow(s: State, step: Step, sid: nat)
    requires Safe(s) && Gives(s, step, sid)
    ensures
      var s' := Next(s, step);
      sid in s'.sessions && s'.log == s.log && Outlook(s', sid) == Tail(Outlook(s, sid), s.pending[step.index])
  {
    PublishedToRoom(s, sid, step.index);
    TailAllSnoc(s.sessions[sid], s.b.chans[s.sessions[sid].sub].buf, s.pending[step.index]);
  }

  /** A given row keeps the promise exactly if it fits. */
  lemma {:induction false} GivesIff(s: State, step: Step, sid: nat)
    requires Safe(s) && Gives(s, step, sid)
    ensures Promising(Next(s, step), sid) <==> Promising(s, sid) && Fits(s, sid, s.pending[step.index])
  {
    GivenRow(s, step, sid);
    OutlookSound(s, sid);
    TailAllSound(s.log, s.sessions[sid], s.b.chans[s.sessions[sid].sub].buf);
    TailAllStays(s.sessions[sid], s.b.chans[s.sessions[sid].sub].buf);
    assert s.pending[step.index] in s.pending;
    TailFits(s.log, Outlook(s, sid), s.pending[step.index]);
    StepMoves(s, step, sid);
    hide Outlook, Next, Gives, Safe, TailAll;
  }

  /** What a step other than a session's own receive and the publishes given to it leaves in its
      channel: at least as long as it is live, everything. */
  lemma {:induction false} ChannelKept(s: State, step: Step, sid: nat)
    requires Safe(s) && Running(s, sid) && s.sessions[sid].phase.Live?
    requires step != Receive(sid) && step != Leave(sid) && step != Crash && !Gives(s, step, sid)
    ensures s.sessions[sid].sub in s.b.chans && s.sessions[sid].sub in Next(s, step).b.chans
    ensures Next(s, step).b.chans[s.sessions[sid].sub].buf == s.b.chans[s.sessions[sid].sub].buf
  {
    SoundAt(s, sid);
    if step.Receive? && Running(s, step.sid) { assert s.sessions[step.sid].sub != s.sessions[sid].sub; }
    if step.Leave? && Running(s, step.sid) { assert s.sessions[step.sid].sub != s.sessions[sid].sub; }
    hide Sound, BufferedIn, AllIn;
  }

  lemma {:induction false} QuietIff(s: State, step: Step, sid: nat)
    requires Safe(s) && sid in s.sessions && !Gives(s, step, sid)
    requires step != Receive(sid) && step != Replay(sid) && step != GreetStep(sid)
    requires Running(s, sid) ==> step != Leave(sid) && step != Crash
    ensures Promising(Next(s, step), sid) <==> Promising(s, sid)
  {
    StepSafe(s, step);
    StepLog(s, step);
    StepMoves(s, step, sid);
    if s.sessions[sid].phase.Live? { ChannelKept(s, step, sid); }
    hide Safe, Next;
    SameOutlook(s, Next(s, step), sid);
  }

  lemma {:induction false} Greets(s: State, sid: nat)
    requires Safe(s) && sid in s.sessions
    ensures
      var s' := Next(s, GreetStep(sid));
      && sid in s'.sessions && s'.log == s.log && s'.sessions[sid].cursor == s.sessions[sid].cursor
      && Rows(Outlook(s', sid).frames) == Rows(Outlook(s, sid).frames)
  {
    RowsSnoc([], ConnectionState);
    assert Shaped(s.sessions[sid]) by { assert Sound(s.log, s.sessions[sid]); }
    hide Safe, Sound, Rows;
  }

  lemma {:induction false} GreetIff(s: State, sid: nat)
    requires Safe(s) && sid in s.sessions
    ensures Promising(Next(s, GreetStep(sid)), sid) <==> Promising(s, sid)
  {
    Greets(s, sid);
    hide Next, Safe, Outlook;
  }

  /** A replay page keeps the promise, and what the channel gathered meanwhile is all behind it. */
  lemma {:induction false} ReplayIff(s: State, sid: nat)
    requires Safe(s) && sid in s.sessions && s.sessions[sid].phase.Replaying?
    ensures Promising(Next(s, Replay(sid)), sid) <==> Promising(s, sid)
  {
    var h := s.sessions[sid];
    AllBehind(s, sid);
    assert Sound(s.log, h) && Outlook(s, sid) == h;
    PageIff(s.log, h);
    hide Next, Safe, Outlook, ReplayPage, Rows, Sound;
  }

  lemma {:induction false} PageIff(log: seq<Event>, h: Session)
    requires IsLog(log) && Sound(log, h) && h.phase.Replaying?
    ensures ReplayPage(h, log).cursor == h.cursor
    ensures Rows(ReplayPage(h, log).frames) <= After(log, h.cursor) <==> Rows(h.frames) <= After(log, h.cursor)
  {
    ReplaySound(log, h);
    if Rows(h.frames) <= After(log, h.cursor) { ReplayGapFree(log, h); }
    hide Rows, After, Sound;
  }

  lemma {:induction false} AllBehind(s: State, sid: nat)
    requires Safe(s) && sid in s.sessions && s.sessions[sid].phase.Replaying?
    ensures
      var h' := ReplayPage(s.sessions[sid], s.log);
      && Next(s, Replay(sid)).sessions[sid] == h' && Next(s, Replay(sid)).log == s.log
      && Outlook(Next(s, Replay(sid)), sid) == h'
  {
    var h := s.sessions[sid];
    var h' := ReplayPage(h, s.log);
    assert Running(s, sid);
    SoundAt(s, sid);
    if h'.phase.Live? {
      ShortPagePasses(s.log, h);
      var buf := s.b.chans[h.sub].buf;
      forall ev | ev in buf
        ensures ev.id <= h'.last
      {
        var i :| 0 <= i < |s.log| && s.log[i] == ev;
      }
      TailAllFiltered(h', buf);
    }
  }

  /** After a short page the session is past the whole log. */
  lemma {:induction false} ShortPagePasses(log: seq<Event>, h: Session)
    requires IsLog(log) && ReplayPage(h, log).phase.Live?
    ensures PassedAll(log, |log|, ReplayPage(h, log).last)
  {
    AfterIsSuffix(log, h.last);
    var k := Passed(log, h.last);
    var page := Page(log, h.last, REPLAY_BATCH);
    assert page == log[k..];
    forall i | 0 <= i < |log|
      ensures log[i].id <= ReplayPage(h, log).last
    {
      assert i < |log| - 1 ==> log[i].id < log[|log| - 1].id;
    }
  }

  lemma {:induction false} Lags(s: State, sid: nat)
    requires sid in s.sessions && s.sessions[sid].phase.Live? && s.sessions[sid].sub in s.b.chans
    requires s.b.chans[s.sessions[sid].sub].buf == []
    ensures
      var s' := Next(s, Receive(sid));
      && sid in s'.sessions && s'.log == s.log && s'.sessions[sid].cursor == s.sessions[sid].cursor
      && Rows(Outlook(s', sid).frames) == Rows(Outlook(s, sid).frames)
  {
    RowsSnoc(s.sessions[sid].frames, Lagged);
    hide Rows;
  }

  lemma {:induction false} Reads(s: State, sid: nat)
    requires sid in s.sessions && s.sessions[sid].phase.Live? && s.sessions[sid].sub in s.b.chans
    requires s.b.chans[s.sessions[sid].sub].buf != []
    ensures
      var s' := Next(s, Receive(sid));
      && sid in s'.sessions && s'.log == s.log && s'.sessions[sid].cursor == s.sessions[sid].cursor
      && Outlook(s', sid) == Outlook(s, sid)
  {
    var h := s.sessions[sid];
    var buf := s.b.chans[h.sub].buf;
    ReceivesOne(s, sid);
    assert buf == [buf[0]] + buf[1..];
    TailAllCons(h, buf[0], buf[1..]);
    hide Next, TailAll;
  }

  lemma {:induction false} ReceiveIff(s: State, sid: nat)
    requires Safe(s) && sid in s.sessions
    ensures Promising(Next(s, Receive(sid)), sid) <==> Promising(s, sid)
  {
    if s.sessions[sid].phase.Live? {
      assert Running(s, sid);
      SoundAt(s, sid);
      if s.b.chans[s.sessions[sid].sub].buf != [] { Reads(s, sid); } else { Lags(s, sid); }
      hide Next, Outlook, Safe;
    }
  }

  /** Leaving or crashing throws the channel away: what was written so far was no worse. */
  lemma {:induction false} StopsPromising(s: State, step: Step, sid: nat)
    requires Safe(s) && Running(s, sid) && (step == Leave(sid) || step == Crash) && Promising(s, sid)
    ensures Promising(Next(s, step), sid)
  {
    OutlookSound(s, sid);
    StepMoves(s, step, sid);
  }

  lemma {:induction false} StepPromises(s: State, step: Step, sid: nat)
    requires Safe(s) && sid in s.sessions
    requires Running(s, sid) ==> step != Leave(sid) && step != Crash
    ensures Promising(Next(s, step), sid) <==>
      Promising(s, sid) && (Gives(s, step, sid) ==> Fits(s, sid, s.pending[step.index]))
  {
    if Gives(s, step, sid) {
      GivesIff(s, step, sid);
    } else if step == Receive(sid) {
      ReceiveIff(s, sid);
    } else if step == GreetStep(sid) {
      GreetIff(s, sid);
    } else if step == Replay(sid) && s.sessions[sid].phase.Replaying? {
      ReplayIff(s, sid);
    } else if step == Replay(sid) {
      assert Next(s, step) == s;
    } else {
      QuietIff(s, step, sid);
    }
  }

  lemma {:induction false} OpensPromising(s: State, step: Step, sid: nat)
    requires sid !in s.sessions && sid in Next(s, step).sessions
    ensures Promising(Next(s, step), sid)
  {
    assert Next(s, step).sessions[sid].frames == [];
  }

  // ---------------------------------------------------------------- whole runs

  /** The session has not been stopped with events still in its channel. */
  ghost predicate ReadItsChannel(h: Session) {
    !h.phase.Finished? || EndsLagged(h)
  }

  lemma {:induction false} MovedReading(s: State, step: Step, sid: nat, h: Session)
    requires Shaped(h) && ReadItsChannel(Moved(s, step, sid, h))
    ensures ReadItsChannel(h)
    ensures !h.phase.Finished? ==> step != Leave(sid) && step != Crash
  {
    hide After, Rows, Page;
  }

  lemma {:induction false} StillReading(s: State, step: Step, sid: nat)
    requires Safe(s) && sid in s.sessions && sid in Next(s, step).sessions
    requires ReadItsChannel(Next(s, step).sessions[sid])
    ensures ReadItsChannel(s.sessions[sid])
    ensures Running(s, sid) ==> step != Leave(sid) && step != Crash
  {
    StepMoves(s, step, sid);
    assert Shaped(s.sessions[sid]) by { assert Sound(s.log, s.sessions[sid]); }
    hide Next, Safe, Sound, Rows, Shaped, Moved, ReadItsChannel;
    MovedReading(s, step, sid, s.sessions[sid]);
  }

  lemma {:induction false} OnePromise(s: State, step: Step, sid: nat, before: bool)
    requires Safe(s) && (sid !in s.sessions ==> before)
    requires sid in s.sessions && before ==> Promising(s, sid)
    requires sid in s.sessions && ReadItsChannel(s.sessions[sid]) ==> (before <==> Promising(s, sid))
    ensures
      var s' := Next(s, step);
      var now := before && (Gives(s, step, sid) ==> Fits(s, sid, s.pending[step.index]));
      && (sid !in s'.sessions ==> now)
      && (sid in s'.sessions && now ==> Promising(s', sid))
      && (sid in s'.sessions && ReadItsChannel(s'.sessions[sid]) ==> (now <==> Promising(s', sid)))
  {
    var s' := Next(s, step);
    if sid in s.sessions {
      StepMoves(s, step, sid);
      if ReadItsChannel(s'.sessions[sid]) { StillReading(s, step, sid); }
      if Running(s, sid) && (step == Leave(sid) || step == Crash) {
        if before { StopsPromising(s, step, sid); }
      } else {
        StepPromises(s, step, sid);
      }
    } else if sid in s'.sessions {
      OpensPromising(s, step, sid);
    }
  }

  /** Over every run, with emitters in any order: a session that is running, or ended by its lagged
      frame, has no gap and none coming if and only if every row given to it once it was live was the
      oldest one beyond what it would then have passed. A stopped session given only such rows has
      written no gap either. */
  lemma {:induction false} GapFreeIffGivenInOrder(bufSize: int, steps: seq<Step>, sid: nat)
    ensures
      var s := Run(Init(bufSize), steps);
      && (sid !in s.sessions ==> GivenInOrder(bufSize, steps, sid))
      && (sid in s.sessions && GivenInOrder(bufSize, steps, sid) ==> Promising(s, sid))
      && (sid in s.sessions && ReadItsChannel(s.sessions[sid]) ==>
            (GivenInOrder(bufSize, steps, sid) <==> Promising(s, sid)))
  {
    if steps != [] {
      var init := steps[..|steps| - 1];
      GapFreeIffGivenInOrder(bufSize, init, sid);
      RunSafe(bufSize, init);
      hide Next, Promising, Gives, Fits, ReadItsChannel, Safe;
      OnePromise(Run(Init(bufSize), init), steps[|steps| - 1], sid, GivenInOrder(bufSize, init, sid));
    }
  }

  lemma {:induction false} WrittenIsPrefix(bufSize: int, steps: seq<Step>, sid: nat)
    requires GivenInOrder(bufSize, steps, sid) && sid in Run(Init(bufSize), steps).sessions
    ensures
      var s := Run(Init(bufSize), steps);
      Rows(s.sessions[sid].frames) <= After(s.log, s.sessions[sid].cursor)
  {
    RunSafe(bufSize, steps);
    GapFreeIffGivenInOrder(bufSize, steps, sid);
    OutlookSound(Run(Init(bufSize), steps), sid);
  }

  /** The resume theorem for any publish order: clients hold a prefix of the log after their first
      cursor whenever each session was given its rows in order while it was live. */
  lemma {:induction false} ClientsArePrefixes(bufSize: int, steps: seq<Step>)
    requires forall sid :: GivenInOrder(bufSize, steps, sid)
    ensures AllPrefixes(Run(Init(bufSize), steps))
  {
    var s := Run(Init(bufSize), steps);
    ClientNeverSeesDuplicates(bufSize, steps);
    forall sid | sid in s.sessions
      ensures Rows(s.sessions[sid].frames) <= After(s.log, s.sessions[sid].cursor)
    {
      WrittenIsPrefix(bufSize, steps, sid);
    }
    if steps != [] {
      var init := steps[..|steps| - 1];
      forall sid
        ensures GivenInOrder(bufSize, init, sid)
      {
        assert GivenInOrder(bufSize, steps, sid);
      }
      ClientsArePrefixes(bufSize, init);
      forall cid | cid in s.clients
        ensures s.clients[cid].received <= After(s.log, s.clients[cid].first)
      {
        StepClientGapFree(Run(Init(bufSize), init), steps[|steps| - 1], cid);
      }
    }
  }

  /** Publishing in append order gives every session its rows in order. */
  lemma {:induction false} InOrderFits(bufSize: int, steps: seq<Step>, sid: nat)
    requires InOrder(steps)
    ensures GivenInOrder(bufSize, steps, sid)
  {
    if steps != [] {
      var n := |steps| - 1;
      assert forall i | 0 <= i < n :: steps[..n][i] == steps[i];
      InOrderFits(bufSize, steps[..n], sid);
      SessionsAreGapFree(bufSize, steps[..n]);
      if Gives(Run(Init(bufSize), steps[..n]), steps[n], sid) {
        OldestFits(Run(Init(bufSize), steps[..n]), sid);
      }
    }
  }

  lemma {:induction false} OldestFits(s: State, sid: nat)
    requires GapFree(s) && Gives(s, Publish(0), sid)
    ensures Fits(s, sid, s.pending[0])
  {
    var h := s.sessions[sid];
    assert Running(s, sid);
    LiveFacts(s, sid);
    var n, k := Position(s, h), |s.b.chans[h.sub].buf|;
    TailAllGapFree(s.log, h, n, k);
    assert s.pending[0] == s.log[n + k] && Outlook(s, sid) == TailAll(h, s.log[n..n + k]);
    hide Outlook, TailAll, GapFree, Sound, Rows, After, Gives, Position;
    forall row | row in s.log
      ensures !(Outlook(s, sid).last < row.id < s.pending[0].id)
    {
      var i :| 0 <= i < |s.log| && s.log[i] == row;
      assert i > n + k ==> s.log[n + k].id < s.log[i].id;
    }
  }
}
