/** Every media row points at a complete file with the row's digest and size. */
module MediaRows {
  import opened Wrappers
  import opened Store
  import opened ServiceSteps
  import M = MediaStore

  /** The bodies that the steps of a run hand to the media store. */
  function BodiesOf(op: Op): set<M.Bytes> {
    match op
    case SendMedia(_, _, _, _, body, _, _, _) => {body}
    case Download(_, fetched, _, _) => if fetched.Some? then {fetched.value.0} else {}
    case CrashInWrite(body, _, _) => {body}
    case _ => {}
  }

  function Bodies(ops: seq<Op>): set<M.Bytes> {
    if ops == [] then {} else Bodies(ops[..|ops| - 1]) + BodiesOf(ops[|ops| - 1])
  }

  ghost predicate RowHolds(h: M.Digest, files: map<string, M.Bytes>, ref: MediaRef) {
    && !M.IsTmp(ref.path) && ref.path in files
    && h(files[ref.path]) == ref.sha && |files[ref.path]| == ref.size
  }

  ghost predicate RowsHold(h: M.Digest, files: map<string, M.Bytes>, media: map<string, MediaRef>) {
    forall id | id in media :: RowHolds(h, files, media[id])
  }

  /** Finished files hold bodies of the run, each under the name of its digest. */
  ghost predicate FilesFrom(h: M.Digest, root: string, files: map<string, M.Bytes>, bodies: set<M.Bytes>) {
    && M.FilesNamed(h, root, files)
    && (forall path | path in files && !M.IsTmp(path) :: files[path] in bodies)
  }

  ghost predicate Inv(h: M.Digest, root: string, s: State, bodies: set<M.Bytes>) {
    FilesFrom(h, root, s.files, bodies) && RowsHold(h, s.files, s.t.media)
  }

  /** A Write that meets no collision keeps every finished file as it was. */
  lemma {:induction false} WriteKeepsFiles(h: M.Digest, root: string, files: map<string, M.Bytes>, bodies: set<M.Bytes>,
                                           body: M.Bytes, mime: string, outcome: M.Outcome)
    requires M.HexDigest(h) && FilesFrom(h, root, files, bodies)
    requires body in bodies && M.CollisionFree(h, bodies)
    ensures
      var files' := M.WriteFiles(files, M.PathOf(h, root, body, mime), body, outcome);
      && FilesFrom(h, root, files', bodies)
      && (forall path | path in files && !M.IsTmp(path) :: path in files' && files'[path] == files[path])
  {
    var path, ext := M.PathOf(h, root, body, mime), M.ExtFromMIME(mime);
    hide M.EXTENSIONS, M.ExtFromMIME, M.Path;
    M.WriteKeepsNames(h, root, files, body, mime, outcome);
    assert M.Named(h, root, path, body) by { assert ext in M.EXTENSIONS && path == M.Path(root, h(body), ext); }
    M.NamedIsNotTmp(h, root, path, body);
    M.TmpNameIsTmp(path);
    if path in files {
      M.SameNameSameDigest(h, root, path, files[path], body);
      assert files[path] == body;
    }
    hide M.IsTmp, M.Named, M.PathOf, M.CollisionFree, M.HexDigest;
  }

  /** A successful Write leaves the file that its row describes. */
  lemma {:induction false} WriteFillsRow(h: M.Digest, root: string, files: map<string, M.Bytes>, body: M.Bytes,
                                         mime: string, outcome: M.Outcome)
    requires M.HexDigest(h) && M.FilesNamed(h, root, files)
    requires M.Succeeds(files, M.PathOf(h, root, body, mime), body, outcome)
    ensures RowHolds(h, M.WriteFiles(files, M.PathOf(h, root, body, mime), body, outcome), RefFor(h, root, body, mime))
  {
    var path, ext := M.PathOf(h, root, body, mime), M.ExtFromMIME(mime);
    if M.AlreadyStored(files, path, body) { M.ShortcutHoldsBody(h, root, files, body, mime); }
    hide M.EXTENSIONS, M.ExtFromMIME, M.Path, M.HexDigest;
    assert M.Named(h, root, path, body) by { assert ext in M.EXTENSIONS && path == M.Path(root, h(body), ext); }
    M.NamedIsNotTmp(h, root, path, body);
  }

  lemma {:induction false} RowsSurvive(h: M.Digest, files: map<string, M.Bytes>, files': map<string, M.Bytes>,
                                       media: map<string, MediaRef>)
    requires RowsHold(h, files, media)
    requires forall path | path in files && !M.IsTmp(path) :: path in files' && files'[path] == files[path]
    ensures RowsHold(h, files', media)
  {
    hide M.IsTmp;
  }

  /** A step that hands nothing to the media store touches neither files nor media rows. */
  lemma {:induction false} OthersLeaveMedia(h: M.Digest, root: string, s: State, op: Op)
    requires !op.SendMedia? && !op.Download? && !op.CrashInWrite?
    ensures Next(h, root, s, op).files == s.files && Next(h, root, s, op).t.media == s.t.media
  {
    hide Sound, NormalChat, KindFromJID;
    if op.ReceiveReceipt? { ReceiptRowsFrame(s.t, op.ids, op.reader, op.kind, op.ts, op.rejects); }
  }

  lemma {:induction false} StepKeepsRows(h: M.Digest, root: string, s: State, op: Op, bodies: set<M.Bytes>)
    requires M.HexDigest(h) && M.CollisionFree(h, bodies) && BodiesOf(op) <= bodies
    requires Inv(h, root, s, bodies)
    ensures Inv(h, root, Next(h, root, s, op), bodies)
  {
    hide M.IsTmp, M.HexDigest, M.CollisionFree, Sound, KindFromJID, FilesFrom;
    match op
    case SendMedia(_, _, _, mime, body, _, outcome, _) => WriteStep(h, root, s, op, bodies, body, mime, outcome);
    case Download(_, fetched, outcome, _) =>
      if fetched.Some? { WriteStep(h, root, s, op, bodies, fetched.value.0, fetched.value.1, outcome); }
    case CrashInWrite(body, mime, written) =>
      WriteStep(h, root, s, op, bodies, body, mime, M.WriteFailed(written));
    case _ => OthersLeaveMedia(h, root, s, op);
  }

  /** What the steps that write a file do to the media rows: at most add the row of that file, and
      that only after a successful Write. */
  ghost predicate AddsAtMost(media: map<string, MediaRef>, media': map<string, MediaRef>, ref: MediaRef,
                             allowed: bool) {
    forall id | id in media' :: (id in media && media'[id] == media[id]) || (allowed && media'[id] == ref)
  }

  lemma {:induction false} RowsExtend(h: M.Digest, files: map<string, M.Bytes>, media: map<string, MediaRef>,
                                      media': map<string, MediaRef>, ref: MediaRef, allowed: bool)
    requires RowsHold(h, files, media) && AddsAtMost(media, media', ref, allowed)
    requires allowed ==> RowHolds(h, files, ref)
    ensures RowsHold(h, files, media')
  {
    hide RowHolds;
  }

  lemma {:induction false} WriteStep(h: M.Digest, root: string, s: State, op: Op, bodies: set<M.Bytes>, body: M.Bytes,
                                     mime: string, outcome: M.Outcome)
    requires M.HexDigest(h) && M.CollisionFree(h, bodies) && body in bodies
    requires Inv(h, root, s, bodies)
    requires
      || (op.SendMedia? && op.body == body && op.mime == mime && op.outcome == outcome)
      || (op.Download? && op.fetched == Some((body, mime)) && op.outcome == outcome)
      || (op.CrashInWrite? && op.body == body && op.mime == mime && outcome == M.WriteFailed(op.written))
    ensures Inv(h, root, Next(h, root, s, op), bodies)
  {
    WriteStepShape(h, root, s, op, body, mime, outcome);
    var path := M.PathOf(h, root, body, mime);
    var s' := Next(h, root, s, op);
    if s' != s {
      var allowed := M.Succeeds(s.files, path, body, outcome);
      WriteKeepsFiles(h, root, s.files, bodies, body, mime, outcome);
      if allowed { WriteFillsRow(h, root, s.files, body, mime, outcome) by { assert M.FilesNamed(h, root, s.files); } }
      RowsSurvive(h, s.files, s'.files, s.t.media);
      RowsExtend(h, s'.files, s.t.media, s'.t.media, RefFor(h, root, body, mime), allowed);
    }
  }

  lemma {:induction false} WriteStepShape(h: M.Digest, root: string, s: State, op: Op, body: M.Bytes, mime: string,
                                          outcome: M.Outcome)
    requires
      || (op.SendMedia? && op.body == body && op.mime == mime && op.outcome == outcome)
      || (op.Download? && op.fetched == Some((body, mime)) && op.outcome == outcome)
      || (op.CrashInWrite? && op.body == body && op.mime == mime && outcome == M.WriteFailed(op.written))
    ensures
      var s', path := Next(h, root, s, op), M.PathOf(h, root, body, mime);
      s' == s ||
      (&& s'.files == M.WriteFiles(s.files, path, body, outcome)
       && AddsAtMost(s.t.media, s'.t.media, RefFor(h, root, body, mime), M.Succeeds(s.files, path, body, outcome)))
  {
    hide Sound, KindFromJID, M.PathOf, M.WriteFiles, M.Succeeds, RefFor;
  }

  lemma {:induction false} RunKeepsRows(h: M.Digest, root: string, ops: seq<Op>, bodies: set<M.Bytes>)
    requires M.HexDigest(h) && M.CollisionFree(h, bodies) && Bodies(ops) <= bodies
    ensures Inv(h, root, Run(h, root, INIT, ops), bodies)
  {
    if ops != [] {
      var init := ops[..|ops| - 1];
      RunKeepsRows(h, root, init, bodies);
      StepKeepsRows(h, root, Run(h, root, INIT, init), ops[|ops| - 1], bodies);
    }
  }

  /** After any run of sends, downloads, failures and crashes in the middle of a file, whose bodies
      do not collide, every media row's file is there, complete, and has the row's digest and size. */
  lemma {:induction false} MediaRowsPointAtFiles(h: M.Digest, root: string, ops: seq<Op>, id: string)
    requires M.HexDigest(h) && M.CollisionFree(h, Bodies(ops))
    requires id in Run(h, root, INIT, ops).t.media
    ensures
      var s := Run(h, root, INIT, ops);
      var ref := s.t.media[id];
      ref.path in s.files && h(s.files[ref.path]) == ref.sha && |s.files[ref.path]| == ref.size
  {
    RunKeepsRows(h, root, ops, Bodies(ops));
  }
}
