/** The stream and the store together: what a reconnecting client knows about the tables. */
module EndToEnd {
  import opened EventLog
  import opened LogFold
  import opened LogText
  import S = ServiceSteps
  import Service
  import MediaStore
  import EventStream
  import StreamGapFree
  import StreamOrder

  lemma {:induction false} EverythingIsAfterZero(log: seq<Event>)
    requires IsLog(log)
    ensures After(log, 0) == log
  {
    AfterIsSuffix(log, 0);
    assert Passed(log, 0) == 0;
  }

  /** A client that started at the beginning of the log. */
  ghost predicate FromTheStart(stream: EventStream.State, cid: nat) {
    cid in stream.clients && stream.clients[cid].first == 0
  }

  /** The client has taken every frame of a caught-up session. */
  ghost predicate Latest(stream: EventStream.State, cid: nat) {
    && cid in stream.clients && stream.clients[cid].session.Some?
    && StreamGapFree.CaughtUp(stream, stream.clients[cid].session.value)
    && stream.clients[cid].delivered == |stream.sessions[stream.clients[cid].session.value].frames|
  }

  /** What such a client has received is a prefix of the log, all of it once it is caught up. */
  lemma {:induction false} ReceivesAPrefix(stream: EventStream.State, cid: nat)
    requires StreamGapFree.AllPrefixes(stream) && FromTheStart(stream, cid)
    ensures stream.clients[cid].received <= stream.log
    ensures StreamGapFree.GapFree(stream) && Latest(stream, cid) ==> stream.clients[cid].received == stream.log
  {
    EverythingIsAfterZero(stream.log);
    if StreamGapFree.GapFree(stream) && Latest(stream, cid) { StreamGapFree.CaughtUpClientIsComplete(stream, cid); }
    hide Latest;
  }

  /** A prefix of the log of such a run folds to the tables of an earlier moment, the whole of it to
      the present ones. */
  lemma {:induction false} RowsFoldToAPast(h: MediaStore.Digest, root: string, ops: seq<S.Op>,
                                           fields: string -> Payload, log: seq<Event>, rows: seq<Event>)
    returns (n: nat)
    requires forall i | 0 <= i < |ops| :: IsLoggedEvent(ops[i])
    requires Carries(log, fields, S.Run(h, root, S.INIT, ops).log) && rows <= log
    ensures n <= |ops| && (rows == log ==> n == |ops|)
    ensures FoldRows(rows, fields) == TableReplica(S.Run(h, root, S.INIT, ops[..n]).t)
  {
    var entries := S.Run(h, root, S.INIT, ops).log;
    RowsFold(log, rows, fields, entries);
    if rows == log {
      n := |ops|;
      assert ops[..n] == ops && entries[..|rows|] == entries;
      hide *;
      LogRebuildsTables(h, root, ops);
    } else {
      hide *;
      n := PrefixIsPastState(h, root, ops, |rows|);
    }
  }

  /** A client that follows the stream from the beginning and folds what it has received, over any
      reconnects, overflows and crashes, holds the message and reaction tables exactly as they were
      at some earlier point: never a mixture of states. With rows published in append order it holds
      them as they are now once it is caught up. All steps of the service's run are events from the
      network whose appends succeed. */
  lemma {:induction false} FollowerHoldsAPastState(
      h: MediaStore.Digest, root: string, ops: seq<S.Op>, fields: string -> Payload, bufSize: int,
      steps: seq<EventStream.Step>, cid: nat) returns (n: nat)
    requires forall i | 0 <= i < |ops| :: IsLoggedEvent(ops[i])
    requires forall sid :: StreamOrder.GivenInOrder(bufSize, steps, sid)
    requires Carries(EventStream.Run(EventStream.Init(bufSize), steps).log, fields, S.Run(h, root, S.INIT, ops).log)
    requires FromTheStart(EventStream.Run(EventStream.Init(bufSize), steps), cid)
    ensures n <= |ops|
    ensures
      var stream := EventStream.Run(EventStream.Init(bufSize), steps);
      && FoldRows(stream.clients[cid].received, fields) == TableReplica(S.Run(h, root, S.INIT, ops[..n]).t)
      && (EventStream.InOrder(steps) && Latest(stream, cid) ==> n == |ops|)
  {
    var stream := EventStream.Run(EventStream.Init(bufSize), steps);
    StreamOrder.ClientsArePrefixes(bufSize, steps);
    if EventStream.InOrder(steps) { StreamGapFree.SessionsAreGapFree(bufSize, steps); }
    ReceivesAPrefix(stream, cid);
    hide *;
    n := RowsFoldToAPast(h, root, ops, fields, stream.log, stream.clients[cid].received);
  }

  /** Whatever the calls and faults, a caught-up client agrees with the tables at every message and
      reaction that no call silently changed. */
  lemma {:induction false} FollowerAgreesWhereAnnounced(
      h: MediaStore.Digest, root: string, ops: seq<S.Op>, fields: string -> Payload, bufSize: int,
      steps: seq<EventStream.Step>, cid: nat, id: string, key: (string, string))
    requires EventStream.InOrder(steps)
    requires Carries(EventStream.Run(EventStream.Init(bufSize), steps).log, fields, S.Run(h, root, S.INIT, ops).log)
    requires FromTheStart(EventStream.Run(EventStream.Init(bufSize), steps), cid)
    requires Latest(EventStream.Run(EventStream.Init(bufSize), steps), cid)
    ensures
      var r := FoldRows(EventStream.Run(EventStream.Init(bufSize), steps).clients[cid].received, fields);
      var t := S.Run(h, root, S.INIT, ops).t;
      && (NeverSilentRow(h, root, ops, id) ==> ReplicaRow(r, id) == TableRow(t, id))
      && (NeverSilentEmoji(h, root, ops, key) ==> ReplicaEmoji(r, key) == TableEmoji(t, key))
  {
    var stream := EventStream.Run(EventStream.Init(bufSize), steps);
    StreamGapFree.ClientsAreGapFree(bufSize, steps);
    ReceivesAPrefix(stream, cid);
    hide *;
    LogFoldsToTheTables(h, root, ops, fields, stream.log, id, key);
  }

  lemma {:induction false} LogFoldsToTheTables(
      h: MediaStore.Digest, root: string, ops: seq<S.Op>, fields: string -> Payload, log: seq<Event>,
      id: string, key: (string, string))
    requires Carries(log, fields, S.Run(h, root, S.INIT, ops).log)
    ensures
      var r, t := FoldRows(log, fields), S.Run(h, root, S.INIT, ops).t;
      && (NeverSilentRow(h, root, ops, id) ==> ReplicaRow(r, id) == TableRow(t, id))
      && (NeverSilentEmoji(h, root, ops, key) ==> ReplicaEmoji(r, key) == TableEmoji(t, key))
  {
    var entries := S.Run(h, root, S.INIT, ops).log;
    RowsFold(log, log, fields, entries);
    assert entries[..|log|] == entries;
    FoldAgreesWhereAnnounced(h, root, ops, id, key);
    hide S.Run, Fold, FoldRows, ReplicaRow, ReplicaEmoji, TableRow, TableEmoji, NeverSilentRow, NeverSilentEmoji;
  }

  /** The same for a running service: an object in a valid state that has performed `ops`, whose own
      events log feeds the stream. */
  lemma {:induction false} FollowerOfService(svc: Service.Service, ops: seq<S.Op>, fields: string -> Payload,
                                             bufSize: int, steps: seq<EventStream.Step>, cid: nat) returns (n: nat)
    requires svc.Valid() && svc.View() == S.Run(svc.mediaStore.digest, svc.mediaStore.root, S.INIT, ops)
    requires forall i | 0 <= i < |ops| :: IsLoggedEvent(ops[i])
    requires forall sid :: StreamOrder.GivenInOrder(bufSize, steps, sid)
    requires Reads(svc.encode, fields)
    requires EventStream.Run(EventStream.Init(bufSize), steps).log == svc.emitter.log.rows
    requires FromTheStart(EventStream.Run(EventStream.Init(bufSize), steps), cid)
    ensures n <= |ops|
    ensures
      var stream := EventStream.Run(EventStream.Init(bufSize), steps);
      var r := FoldRows(stream.clients[cid].received, fields);
      && r == TableReplica(S.Run(svc.mediaStore.digest, svc.mediaStore.root, S.INIT, ops[..n]).t)
      && (EventStream.InOrder(steps) && Latest(stream, cid) ==> r == TableReplica(svc.bundle.View()))
  {
    hide S.Run, EventStream.Run, EventStream.InOrder, StreamOrder.GivenInOrder;
    hide Fold, Latest, FromTheStart, TableReplica;
    assert svc.LogValid();
    var h, root := svc.mediaStore.digest, svc.mediaStore.root;
    EncodedLogCarries(svc.encode, fields, svc.emitter.log.rows, svc.entries);
    n := FollowerHoldsAPastState(h, root, ops, fields, bufSize, steps, cid);
    assert ops[..|ops|] == ops;
  }

  /** And its log has exactly one row for each call that is announced, named for what the event was and
      with that event's fields. */
  lemma {:induction false} ServiceRowsTellOfCalls(svc: Service.Service, ops: seq<S.Op>, fields: string -> Payload)
    returns (calls: seq<nat>)
    requires svc.Valid() && svc.View() == S.Run(svc.mediaStore.digest, svc.mediaStore.root, S.INIT, ops)
    requires Reads(svc.encode, fields)
    ensures TellOf(ops, svc.emitter.log.rows, fields, calls)
    ensures AreAnnounced(svc.mediaStore.digest, svc.mediaStore.root, ops, calls)
  {
    assert svc.LogValid();
    EncodedLogCarries(svc.encode, fields, svc.emitter.log.rows, svc.entries);
    hide Carries, TellOf, AreAnnounced, S.Run;
    calls := RowsTellOfCalls(svc.mediaStore.digest, svc.mediaStore.root, ops, svc.emitter.log.rows, fields);
  }
}
