/** The media rows again, with the steps of every write and the insertion of its row interleaved:
    sends and downloads of different bodies overlap, and anything may happen between a rename and
    the row that points at the file. */
module MediaOverlap {
  import opened Wrappers
  import opened Store
  import M = MediaStore

  /** What a successful Write returned to its caller. */
  datatype Stored = Stored(path: string, sha: string, size: int)

  /** `stored` are the writes whose callers have not crashed since. */
  datatype World = World(disk: M.Disk, stored: set<Stored>, media: map<string, MediaRef>)

  const EMPTY: World := World(M.Disk(map[], map[]), {}, map[])

  datatype Act = File(step: M.Step) | Insert(message: string, mime: string, file: Stored)

  /** The rename of this write goes through. */
  predicate Renames(d: M.Disk, path: string) {
    path in d.jobs && d.jobs[path].written == Some(|d.jobs[path].body|) && path + M.TMP in d.files
  }

  function StoredAs(h: M.Digest, path: string, body: M.Bytes): Stored {
    Stored(path, h(body), |body|)
  }

  /** The writes that succeed in this step: by the stat shortcut, or by their own rename. */
  function Succeeded(h: M.Digest, root: string, d: M.Disk, step: M.Step): set<Stored> {
    match step
    case Begin(body, mime) =>
      var path := M.PathOf(h, root, body, mime);
      if path !in d.jobs && M.AlreadyStored(d.files, path, body) then {StoredAs(h, path, body)} else {}
    case Rename(path) => if Renames(d, path) then {StoredAs(h, path, d.jobs[path].body)} else {}
    case _ => {}
  }

  /** A row can be inserted at any time after its own write succeeded. A crash loses every caller. */
  function Next(h: M.Digest, root: string, w: World, act: Act): World {
    match act
    case File(step) =>
      World(M.Next(h, root, w.disk, step),
            if step.Crash? then {} else w.stored + Succeeded(h, root, w.disk, step),
            w.media)
    case Insert(message, mime, file) =>
      if file in w.stored then w.(media := w.media[message := MediaRef(mime, file.size, file.sha, file.path)]) else w
  }

  function Run(h: M.Digest, root: string, acts: seq<Act>): World {
    if acts == [] then EMPTY else Next(h, root, Run(h, root, acts[..|acts| - 1]), acts[|acts| - 1])
  }

  function BodyOf(act: Act): set<M.Bytes> {
    if act.File? && act.step.Begin? then {act.step.body} else {}
  }

  function Bodies(acts: seq<Act>): set<M.Bytes> {
    if acts == [] then {} else Bodies(acts[..|acts| - 1]) + BodyOf(acts[|acts| - 1])
  }

  // ---------------------------------------------------------------- invariant

  ghost predicate Holds(h: M.Digest, files: map<string, M.Bytes>, st: Stored) {
    && !M.IsTmp(st.path) && st.path in files
    && h(files[st.path]) == st.sha && |files[st.path]| == st.size
  }

  ghost predicate BodiesIn(d: M.Disk, bodies: set<M.Bytes>) {
    && (forall path | path in d.jobs :: d.jobs[path].body in bodies)
    && (forall path | path in d.files && !M.IsTmp(path) :: d.files[path] in bodies)
  }

  ghost predicate AllHold(h: M.Digest, w: World) {
    && (forall st | st in w.stored :: Holds(h, w.disk.files, st))
    && (forall id | id in w.media ::
          Holds(h, w.disk.files, Stored(w.media[id].path, w.media[id].sha, w.media[id].size)))
  }

  ghost predicate Inv(h: M.Digest, root: string, w: World, bodies: set<M.Bytes>) {
    M.Inv(h, root, w.disk) && BodiesIn(w.disk, bodies) && AllHold(h, w)
  }

  ghost predicate KeepsFinals(files: map<string, M.Bytes>, files': map<string, M.Bytes>) {
    forall path | path in files && !M.IsTmp(path) :: path in files' && files'[path] == files[path]
  }

  // ---------------------------------------------------------------- steps

  /** The rename leaves the body it wrote; only an equal body could have been there. */
  lemma {:induction false} RenameFacts(h: M.Digest, root: string, d: M.Disk, bodies: set<M.Bytes>, path: string)
    requires M.HexDigest(h) && M.CollisionFree(h, bodies)
    requires M.Inv(h, root, d) && BodiesIn(d, bodies) && Renames(d, path)
    ensures
      var body := d.jobs[path].body;
      && d.files[path + M.TMP] == body && !M.IsTmp(path) && M.IsTmp(path + M.TMP)
      && (path in d.files ==> d.files[path] == body)
  {
    var job := d.jobs[path];
    assert job.body[..|job.body|] == job.body;
    M.NamedIsNotTmp(h, root, path, job.body);
    M.TmpNameIsTmp(path);
    if path in d.files { M.SameNameSameDigest(h, root, path, d.files[path], job.body); }
    hide M.Named, M.IsTmp, M.HexDigest;
  }

  lemma {:induction false} RenameKeeps(h: M.Digest, root: string, d: M.Disk, bodies: set<M.Bytes>, path: string)
    requires M.HexDigest(h) && M.CollisionFree(h, bodies)
    requires M.Inv(h, root, d) && BodiesIn(d, bodies)
    ensures
      var d' := M.Next(h, root, d, M.Rename(path));
      && KeepsFinals(d.files, d'.files) && BodiesIn(d', bodies)
      && (Renames(d, path) ==> Holds(h, d'.files, StoredAs(h, path, d.jobs[path].body)))
  {
    if Renames(d, path) { RenameFacts(h, root, d, bodies, path); }
    hide M.Inv, M.IsTmp, M.HexDigest, M.CollisionFree;
  }

  lemma {:induction false} BeginKeeps(h: M.Digest, root: string, d: M.Disk, bodies: set<M.Bytes>, body: M.Bytes,
                                      mime: string)
    requires M.HexDigest(h) && M.Inv(h, root, d) && BodiesIn(d, bodies) && body in bodies
    ensures
      var d', path := M.Next(h, root, d, M.Begin(body, mime)), M.PathOf(h, root, body, mime);
      && KeepsFinals(d.files, d'.files) && BodiesIn(d', bodies)
      && (M.AlreadyStored(d.files, path, body) ==> Holds(h, d'.files, StoredAs(h, path, body)))
  {
    var path, ext := M.PathOf(h, root, body, mime), M.ExtFromMIME(mime);
    M.FinalNameIsNotTmp(root, h(body), ext);
    if M.AlreadyStored(d.files, path, body) { M.ShortcutHoldsBody(h, root, d.files, body, mime); }
    hide M.PathOf, M.IsTmp, M.Inv, M.HexDigest;
  }

  lemma {:induction false} FileKeeps(h: M.Digest, root: string, d: M.Disk, bodies: set<M.Bytes>, step: M.Step)
    requires M.HexDigest(h) && M.CollisionFree(h, bodies) && BodyOf(File(step)) <= bodies
    requires M.Inv(h, root, d) && BodiesIn(d, bodies)
    ensures
      var d' := M.Next(h, root, d, step);
      && KeepsFinals(d.files, d'.files) && BodiesIn(d', bodies)
      && (forall st | st in Succeeded(h, root, d, step) :: Holds(h, d'.files, st))
  {
    match step
    case Begin(body, mime) => BeginKeeps(h, root, d, bodies, body, mime); hide M.Next, M.PathOf, BodiesIn, Holds;
    case Rename(path) => RenameKeeps(h, root, d, bodies, path); hide M.Next, BodiesIn, Holds;
    case WriteTmp(path, _) => M.TmpNameIsTmp(path); hide M.IsTmp, M.Inv;
    case FailRename(path) => M.TmpNameIsTmp(path); hide M.IsTmp, M.Inv;
    case FailWrite(_) =>
    case Crash =>
  }

  lemma {:induction false} StepKeeps(h: M.Digest, root: string, w: World, bodies: set<M.Bytes>, act: Act)
    requires M.HexDigest(h) && M.CollisionFree(h, bodies) && BodyOf(act) <= bodies
    requires Inv(h, root, w, bodies)
    ensures Inv(h, root, Next(h, root, w, act), bodies)
  {
    if act.File? {
      M.StepKeeps(h, root, w.disk, act.step);
      FileKeeps(h, root, w.disk, bodies, act.step);
      hide M.Next, M.Inv, M.IsTmp, BodiesIn, Succeeded;
    } else {
      hide M.Inv, BodiesIn, Holds;
    }
  }

  lemma {:induction false} RunKeeps(h: M.Digest, root: string, acts: seq<Act>, bodies: set<M.Bytes>)
    requires M.HexDigest(h) && M.CollisionFree(h, bodies) && Bodies(acts) <= bodies
    ensures Inv(h, root, Run(h, root, acts), bodies)
  {
    if acts != [] {
      RunKeeps(h, root, acts[..|acts| - 1], bodies);
      StepKeeps(h, root, Run(h, root, acts[..|acts| - 1]), bodies, acts[|acts| - 1]);
    }
  }

  /** In every interleaving of writes, failures, crashes and row insertions, if the bodies written do
      not collide, every media row's file is there, complete, with the row's digest and size. */
  lemma {:induction false} RowsPointAtFiles(h: M.Digest, root: string, acts: seq<Act>, id: string)
    requires M.HexDigest(h) && M.CollisionFree(h, Bodies(acts))
    requires id in Run(h, root, acts).media
    ensures
      var w := Run(h, root, acts);
      var ref := w.media[id];
      ref.path in w.disk.files && h(w.disk.files[ref.path]) == ref.sha && |w.disk.files[ref.path]| == ref.size
  {
    RunKeeps(h, root, acts, Bodies(acts));
    hide Run, M.Inv, M.HexDigest, M.CollisionFree;
  }
}
