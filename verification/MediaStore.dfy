/** The content-addressed media store: file names, the write-to-temporary-then-rename sequence
    as interleaved steps with crashes, and the Write method itself. */
module MediaStore {
  import opened Wrappers

  type Bytes = seq<bv8>

  /** SHA-256 followed by hex encoding, as far as the store depends on it. */
  type Digest = Bytes -> string

  predicate IsHex(c: char) { '0' <= c <= '9' || 'a' <= c <= 'f' }

  ghost predicate HexDigest(h: Digest) {
    forall body: Bytes :: |h(body)| == 64 && forall c | c in h(body) :: IsHex(c)
  }

  /** No two of these bodies share a digest. */
  ghost predicate CollisionFree(h: Digest, bodies: set<Bytes>) {
    forall a, b | a in bodies && b in bodies && h(a) == h(b) :: a == b
  }

  // ---------------------------------------------------------------- names

  const TMP: string := ".tmp"

  const EXTENSIONS: set<string> := {
    ".jpg", ".png", ".webp", ".gif", ".heic", ".mp4", ".mov", ".webm", ".ogg", ".mp3", ".aac", ".wav", ".pdf",
    ".zip", ".tar", ".txt", ".bin"
  }

  function ExtFromMIME(mime: string): (ext: string)
    ensures ext in EXTENSIONS
  {
    if mime == "image/jpeg" || mime == "image/jpg" then ".jpg"
    else if mime == "image/png" then ".png"
    else if mime == "image/webp" then ".webp"
    else if mime == "image/gif" then ".gif"
    else if mime == "image/heic" then ".heic"
    else if mime == "video/mp4" then ".mp4"
    else if mime == "video/quicktime" then ".mov"
    else if mime == "video/webm" then ".webm"
    else if mime == "audio/ogg" || mime == "audio/ogg; codecs=opus" then ".ogg"
    else if mime == "audio/mpeg" then ".mp3"
    else if mime == "audio/aac" then ".aac"
    else if mime == "audio/wav" then ".wav"
    else if mime == "application/pdf" then ".pdf"
    else if mime == "application/zip" then ".zip"
    else if mime == "application/x-tar" then ".tar"
    else if mime == "text/plain" then ".txt"
    else ".bin"
  }

  function Path(root: string, sha: string, ext: string): string {
    if |sha| >= 2 then root + "/" + sha[..2] + "/" + sha + ext else root + "/" + sha + ext
  }

  /** The six spellings whose extension is not their subtype. */
  predicate IsAlias(mime: string) {
    || mime == "image/jpeg" || mime == "video/quicktime" || mime == "audio/ogg; codecs=opus" || mime == "audio/mpeg"
    || mime == "application/x-tar" || mime == "text/plain"
  }

  lemma {:induction false} ImageExtension(mime: string)
    ensures ExtFromMIME(mime) in {".jpg", ".png", ".webp", ".gif", ".heic"} ==>
      IsAlias(mime) || mime == "image/" + ExtFromMIME(mime)[1..]
  {
    hide EXTENSIONS;
    match ExtFromMIME(mime)
    case ".jpg" => assert ".jpg"[1..] == "jpg";
    case ".png" => assert ".png"[1..] == "png";
    case ".webp" => assert ".webp"[1..] == "webp";
    case ".gif" => assert ".gif"[1..] == "gif";
    case ".heic" => assert ".heic"[1..] == "heic";
    case _ =>
  }

  lemma {:induction false} AudioVideoExtension(mime: string)
    ensures ExtFromMIME(mime) in {".mp4", ".mov", ".webm"} ==>
      IsAlias(mime) || mime == "video/" + ExtFromMIME(mime)[1..]
    ensures ExtFromMIME(mime) in {".ogg", ".mp3", ".aac", ".wav"} ==>
      IsAlias(mime) || mime == "audio/" + ExtFromMIME(mime)[1..]
  {
    hide EXTENSIONS;
    match ExtFromMIME(mime)
    case ".mp4" => assert ".mp4"[1..] == "mp4";
    case ".webm" => assert ".webm"[1..] == "webm";
    case ".ogg" => assert ".ogg"[1..] == "ogg";
    case ".aac" => assert ".aac"[1..] == "aac";
    case ".wav" => assert ".wav"[1..] == "wav";
    case _ =>
  }

  lemma {:induction false} DocumentExtension(mime: string)
    ensures ExtFromMIME(mime) in {".pdf", ".zip", ".tar", ".txt"} ==>
      IsAlias(mime) || mime == "application/" + ExtFromMIME(mime)[1..]
  {
    hide EXTENSIONS;
    match ExtFromMIME(mime)
    case ".pdf" => assert ".pdf"[1..] == "pdf";
    case ".zip" => assert ".zip"[1..] == "zip";
    case _ =>
  }

  /** An extension other than .bin is the subtype, but for six spellings. */
  lemma {:induction false} ExtensionIsSubtype(mime: string)
    ensures
      var ext := ExtFromMIME(mime);
      IsAlias(mime) || ext == ".bin" || mime == "image/" + ext[1..] || mime == "video/" + ext[1..]
      || mime == "audio/" + ext[1..] || mime == "application/" + ext[1..]
  {
    hide ExtFromMIME, IsAlias;
    ImageExtension(mime);
    AudioVideoExtension(mime);
    DocumentExtension(mime);
  }

  lemma {:induction false} AliasExtensions()
    ensures ExtFromMIME("image/jpeg") == ".jpg" && ExtFromMIME("video/quicktime") == ".mov"
    ensures ExtFromMIME("audio/ogg; codecs=opus") == ".ogg" && ExtFromMIME("audio/mpeg") == ".mp3"
    ensures ExtFromMIME("application/x-tar") == ".tar" && ExtFromMIME("text/plain") == ".txt"
  {
    hide EXTENSIONS;
  }

  /** Which types are known at all. */
  lemma {:induction false} UnknownIff(mime: string)
    ensures ExtFromMIME(mime) != ".bin" <==>
      || IsAlias(mime)
      || mime in {"image/jpg", "image/png", "image/webp", "image/gif", "image/heic"}
      || mime in {"video/mp4", "video/webm", "audio/ogg", "audio/aac", "audio/wav"}
      || mime in {"application/pdf", "application/zip"}
  {
    hide EXTENSIONS;
  }

  predicate IsTmp(name: string) {
    |name| >= 4 && name[|name| - 4..] == TMP
  }

  lemma {:induction false} TmpNameIsTmp(path: string)
    ensures IsTmp(path + TMP)
  {
  }

  lemma {:induction false} ExtensionShape(ext: string)
    requires ext in EXTENSIONS
    ensures |ext| >= 4 && !IsTmp(ext)
  {
    assert ext[|ext| - 2] != 'm';
    assert IsTmp(ext) ==> ext[|ext| - 4..][2] == TMP[2] by { hide EXTENSIONS; }
  }

  lemma {:induction false} TailDecides(stem: string, ext: string)
    requires |ext| >= 4
    ensures IsTmp(stem + ext) <==> IsTmp(ext)
  {
    var path := stem + ext;
    assert path[|path| - 4..] == ext[|ext| - 4..];
  }

  /** Final names never look like temporary ones. */
  lemma {:induction false} FinalNameIsNotTmp(root: string, sha: string, ext: string)
    requires ext in EXTENSIONS
    ensures !IsTmp(Path(root, sha, ext))
  {
    hide EXTENSIONS, IsTmp, TMP;
    ExtensionShape(ext);
    TailDecides(if |sha| >= 2 then root + "/" + sha[..2] + "/" + sha else root + "/" + sha, ext);
  }

  /** A final name determines the digest it was made from. */
  lemma {:induction false} PathInjective(root: string, sha: string, ext: string, sha': string, ext': string)
    requires |sha| == |sha'| == 64
    requires Path(root, sha, ext) == Path(root, sha', ext')
    ensures sha == sha'
  {
    var prefix := root + "/" + sha[..2] + "/";
    var prefix' := root + "/" + sha'[..2] + "/";
    var n := |prefix|;
    assert n == |prefix'|;
    assert Path(root, sha, ext)[n..n + 64] == sha;
    assert Path(root, sha', ext')[n..n + 64] == sha';
  }

  // ---------------------------------------------------------------- interleaved writes

  /** One Write past its stat, and how much of the temporary file it has written, if any. */
  datatype Job = Job(body: Bytes, written: Option<nat>)

  /** The files on disk, and the running writes by final path: writes to one path take turns. */
  datatype Disk = Disk(files: map<string, Bytes>, jobs: map<string, Job>)

  datatype Step =
    | Begin(body: Bytes, mime: string)
    | WriteTmp(path: string, upTo: nat)
    | Rename(path: string)
    | FailWrite(path: string)
    | FailRename(path: string)
    | Crash

  function PathOf(h: Digest, root: string, body: Bytes, mime: string): string {
    Path(root, h(body), ExtFromMIME(mime))
  }

  /** The stat shortcut: a file of the right size is already there. */
  predicate AlreadyStored(files: map<string, Bytes>, path: string, body: Bytes) {
    path in files && |files[path]| == |body|
  }

  function Next(h: Digest, root: string, d: Disk, step: Step): Disk {
    match step
    case Begin(body, mime) =>
      var path := PathOf(h, root, body, mime);
      if path in d.jobs || AlreadyStored(d.files, path, body) then d
      else d.(jobs := d.jobs[path := Job(body, None)])
    case WriteTmp(path, upTo) =>
      if path in d.jobs && upTo <= |d.jobs[path].body|
         && (d.jobs[path].written.Some? ==> d.jobs[path].written.value <= upTo) then
        Disk(d.files[path + TMP := d.jobs[path].body[..upTo]],
             d.jobs[path := d.jobs[path].(written := Some(upTo))])
      else d
    case Rename(path) =>
      if path in d.jobs && d.jobs[path].written == Some(|d.jobs[path].body|) && path + TMP in d.files then
        Disk((d.files - {path + TMP})[path := d.files[path + TMP]], d.jobs - {path})
      else d
    case FailWrite(path) => d.(jobs := d.jobs - {path})
    case FailRename(path) =>
      if path in d.jobs && d.jobs[path].written == Some(|d.jobs[path].body|) then
        Disk(d.files - {path + TMP}, d.jobs - {path})
      else d
    case Crash => d.(jobs := map[])
  }

  function Run(h: Digest, root: string, d: Disk, steps: seq<Step>): Disk {
    if steps == [] then d else Next(h, root, Run(h, root, d, steps[..|steps| - 1]), steps[|steps| - 1])
  }

  /** A final file sits under the name of its own digest. */
  ghost predicate Named(h: Digest, root: string, path: string, body: Bytes) {
    exists ext :: ext in EXTENSIONS && path == Path(root, h(body), ext)
  }

  ghost predicate FilesNamed(h: Digest, root: string, files: map<string, Bytes>) {
    forall path | path in files && !IsTmp(path) :: Named(h, root, path, files[path])
  }

  ghost predicate Inv(h: Digest, root: string, d: Disk) {
    && FilesNamed(h, root, d.files)
    && (forall path | path in d.jobs ::
          && Named(h, root, path, d.jobs[path].body)
          && (d.jobs[path].written.Some? ==>
                && d.jobs[path].written.value <= |d.jobs[path].body|
                && path + TMP in d.files
                && d.files[path + TMP] == d.jobs[path].body[..d.jobs[path].written.value]))
  }

  lemma {:induction false} TmpNamesDiffer(a: string, b: string)
    requires a + TMP == b + TMP
    ensures a == b
  {
    assert (a + TMP)[..|a|] == a && (b + TMP)[..|b|] == b;
  }

  lemma {:induction false} NamedIsNotTmp(h: Digest, root: string, path: string, body: Bytes)
    requires Named(h, root, path, body)
    ensures !IsTmp(path)
  {
    var ext :| ext in EXTENSIONS && path == Path(root, h(body), ext);
    FinalNameIsNotTmp(root, h(body), ext);
  }

  lemma {:induction false} BeginKeeps(h: Digest, root: string, d: Disk, body: Bytes, mime: string)
    requires Inv(h, root, d)
    ensures Inv(h, root, Next(h, root, d, Begin(body, mime)))
  {
    var path, ext := PathOf(h, root, body, mime), ExtFromMIME(mime);
    hide EXTENSIONS, ExtFromMIME, Path;
    assert ext in EXTENSIONS && path == Path(root, h(body), ext);
    assert Named(h, root, path, body);
  }

  lemma {:induction false} WriteTmpKeeps(h: Digest, root: string, d: Disk, path: string, upTo: nat)
    requires Inv(h, root, d)
    ensures Inv(h, root, Next(h, root, d, WriteTmp(path, upTo)))
  {
    hide EXTENSIONS, Path, Named;
    TmpNameIsTmp(path);
    hide IsTmp;
    var d' := Next(h, root, d, WriteTmp(path, upTo));
    forall other | other in d'.jobs && other != path
      ensures other + TMP != path + TMP
    {
      if other + TMP == path + TMP { TmpNamesDiffer(other, path); }
    }
  }

  lemma {:induction false} RenameKeeps(h: Digest, root: string, d: Disk, path: string)
    requires Inv(h, root, d)
    ensures Inv(h, root, Next(h, root, d, Rename(path)))
    ensures Inv(h, root, Next(h, root, d, FailRename(path)))
  {
    hide EXTENSIONS, Path;
    forall other | other in d.jobs && other != path
      ensures other + TMP != path + TMP && (path in d.jobs ==> other + TMP != path)
    {
      if other + TMP == path + TMP { TmpNamesDiffer(other, path); }
      if path in d.jobs { NamedIsNotTmp(h, root, path, d.jobs[path].body); }
      TmpNameIsTmp(other);
    }
    if path in d.jobs {
      var job := d.jobs[path];
      NamedIsNotTmp(h, root, path, job.body);
      TmpNameIsTmp(path);
      hide IsTmp, Named;
      assert job.written == Some(|job.body|) ==> job.body[..|job.body|] == job.body;
    }
  }

  lemma {:induction false} StepKeeps(h: Digest, root: string, d: Disk, step: Step)
    requires Inv(h, root, d)
    ensures Inv(h, root, Next(h, root, d, step))
  {
    hide EXTENSIONS, Path, Named, IsTmp, PathOf;
    match step
    case Begin(body, mime) => BeginKeeps(h, root, d, body, mime);
    case WriteTmp(path, upTo) => WriteTmpKeeps(h, root, d, path, upTo);
    case Rename(path) => RenameKeeps(h, root, d, path);
    case FailRename(path) => RenameKeeps(h, root, d, path);
    case FailWrite(_) =>
    case Crash =>
  }

  lemma {:induction false} RunKeeps(h: Digest, root: string, steps: seq<Step>)
    ensures Inv(h, root, Run(h, root, Disk(map[], map[]), steps))
  {
    if steps != [] {
      RunKeeps(h, root, steps[..|steps| - 1]);
      StepKeeps(h, root, Run(h, root, Disk(map[], map[]), steps[..|steps| - 1]), steps[|steps| - 1]);
    }
  }

  /** Whatever writes, failures and crashes there were, a file found under a final name has that
      name's digest: it is never a partial write. */
  lemma {:induction false} FinalFilesAreComplete(h: Digest, root: string, steps: seq<Step>, sha: string, ext: string)
    requires HexDigest(h) && |sha| == 64 && ext in EXTENSIONS
    ensures
      var files := Run(h, root, Disk(map[], map[]), steps).files;
      Path(root, sha, ext) in files ==> h(files[Path(root, sha, ext)]) == sha
  {
    RunKeeps(h, root, steps);
    FinalNameIsNotTmp(root, sha, ext);
    var files := Run(h, root, Disk(map[], map[]), steps).files;
    if Path(root, sha, ext) in files {
      NamedHasDigest(h, root, files, sha, ext);
    }
  }

  lemma {:induction false} NamedHasDigest(h: Digest, root: string, files: map<string, Bytes>, sha: string, ext: string)
    requires HexDigest(h) && |sha| == 64 && ext in EXTENSIONS
    requires FilesNamed(h, root, files) && Path(root, sha, ext) in files
    ensures h(files[Path(root, sha, ext)]) == sha
  {
    var path := Path(root, sha, ext);
    FinalNameIsNotTmp(root, sha, ext);
    var ext' :| ext' in EXTENSIONS && path == Path(root, h(files[path]), ext');
    PathInjective(root, sha, ext, h(files[path]), ext');
  }

  /** The shortcut is right: it takes a file whose digest and length are the given body's. Only
      an equal-length digest collision could make that another body. */
  lemma {:induction false} ShortcutHoldsBody(h: Digest, root: string, files: map<string, Bytes>, body: Bytes,
                                             mime: string)
    requires HexDigest(h) && FilesNamed(h, root, files)
    requires AlreadyStored(files, PathOf(h, root, body, mime), body)
    ensures
      var found := files[PathOf(h, root, body, mime)];
      h(found) == h(body) && |found| == |body| && (CollisionFree(h, {found, body}) ==> found == body)
  {
    NamedHasDigest(h, root, files, h(body), ExtFromMIME(mime));
  }

  /** No step removes a final file, and it can only be replaced by a body of the same digest. */
  lemma {:induction false} FinalFilesStay(h: Digest, root: string, d: Disk, step: Step, path: string)
    requires HexDigest(h) && Inv(h, root, d)
    requires path in d.files && !IsTmp(path)
    ensures path in Next(h, root, d, step).files
    ensures h(Next(h, root, d, step).files[path]) == h(d.files[path])
  {
    hide EXTENSIONS, Path;
    match step
    case WriteTmp(p, _) => TmpNameIsTmp(p);
    case Rename(p) =>
      TmpNameIsTmp(p);
      if p == path && p in d.jobs {
        SameNameSameDigest(h, root, path, d.files[path], d.jobs[path].body);
        hide Named, IsTmp;
        var job := d.jobs[path];
        assert job.written == Some(|job.body|) ==> job.body[..|job.body|] == job.body;
      }
    case FailRename(p) => TmpNameIsTmp(p);
    case Begin(_, _) =>
    case FailWrite(_) =>
    case Crash =>
  }

  lemma {:induction false} SameNameSameDigest(h: Digest, root: string, path: string, a: Bytes, b: Bytes)
    requires HexDigest(h) && Named(h, root, path, a) && Named(h, root, path, b)
    ensures h(a) == h(b)
  {
    hide EXTENSIONS, Path;
    var ext :| ext in EXTENSIONS && path == Path(root, h(a), ext);
    var ext' :| ext' in EXTENSIONS && path == Path(root, h(b), ext');
    PathInjective(root, h(a), ext, h(b), ext');
  }

  // ---------------------------------------------------------------- one whole Write

  /** How a Write that does not take the shortcut ends. */
  datatype Outcome = Stored | MkdirFailed | WriteFailed(written: nat) | RenameFailed

  /** What Write leaves on disk. */
  function WriteFiles(files: map<string, Bytes>, path: string, body: Bytes, outcome: Outcome): map<string, Bytes> {
    if AlreadyStored(files, path, body) then files
    else
      match outcome
      case Stored => (files - {path + TMP})[path := body]
      case MkdirFailed => files
      case WriteFailed(n) => files[path + TMP := if n <= |body| then body[..n] else body]
      case RenameFailed => files - {path + TMP}
  }

  predicate Succeeds(files: map<string, Bytes>, path: string, body: Bytes, outcome: Outcome) {
    AlreadyStored(files, path, body) || outcome.Stored?
  }

  /** A successful Write is the run Begin, write all, rename of the interleaved system. */
  lemma {:induction false} WriteIsARun(h: Digest, root: string, d: Disk, body: Bytes, mime: string)
    requires PathOf(h, root, body, mime) !in d.jobs
    ensures
      var path := PathOf(h, root, body, mime);
      var d1 := Next(h, root, d, Begin(body, mime));
      var d2 := Next(h, root, d1, WriteTmp(path, |body|));
      var d3 := Next(h, root, d2, Rename(path));
      d3.files == WriteFiles(d.files, path, body, Stored) && d3.jobs == d.jobs
  {
    hide PathOf;
    var path := PathOf(h, root, body, mime);
    assert body[..|body|] == body;
    assert path != path + TMP by { assert |path| != |path + TMP|; }
  }

  /** And one that fails at its directory, its temporary file or its rename is the run that fails there. */
  lemma {:induction false} FailedWriteIsARun(h: Digest, root: string, d: Disk, body: Bytes, mime: string, n: nat)
    requires PathOf(h, root, body, mime) !in d.jobs && n <= |body|
    ensures
      var path := PathOf(h, root, body, mime);
      var begun := Next(h, root, d, Begin(body, mime));
      var noDir := Next(h, root, begun, FailWrite(path));
      var noFile := Next(h, root, Next(h, root, begun, WriteTmp(path, n)), FailWrite(path));
      var noRename := Next(h, root, Next(h, root, begun, WriteTmp(path, |body|)), FailRename(path));
      && noDir == d.(files := WriteFiles(d.files, path, body, MkdirFailed))
      && noFile == d.(files := WriteFiles(d.files, path, body, WriteFailed(n)))
      && noRename == d.(files := WriteFiles(d.files, path, body, RenameFailed))
  {
    hide PathOf;
    var path := PathOf(h, root, body, mime);
    assert body[..|body|] == body;
    var jobs, written := d.jobs[path := Job(body, None)], d.files[path + TMP := body];
    assert jobs - {path} == d.jobs && d.jobs - {path} == d.jobs;
    assert forall w :: jobs[path := Job(body, Some(w))] - {path} == d.jobs;
    assert written - {path + TMP} == d.files - {path + TMP};
  }

  lemma {:induction false} WriteKeepsNames(h: Digest, root: string, files: map<string, Bytes>, body: Bytes,
                                           mime: string, outcome: Outcome)
    requires FilesNamed(h, root, files)
    ensures FilesNamed(h, root, WriteFiles(files, PathOf(h, root, body, mime), body, outcome))
  {
    var path, ext := PathOf(h, root, body, mime), ExtFromMIME(mime);
    hide EXTENSIONS, ExtFromMIME, Path;
    assert ext in EXTENSIONS && path == Path(root, h(body), ext);
    assert Named(h, root, path, body);
    TmpNameIsTmp(path);
    hide Named, IsTmp;
  }

  class MediaStore {
    const root: string
    const digest: Digest
    var files: map<string, Bytes>

    constructor (root: string, digest: Digest)
      ensures this.root == root && this.digest == digest && files == map[]
    {
      this.root, this.digest, files := root, digest, map[];
    }

    /** Write, one file-system call after the other; `outcome` says which of them fails. A
        success returns the digest and the path at which exactly the body is stored, unless the
        shortcut found a file of that digest and length. */
    method Write(body: Bytes, mime: string, outcome: Outcome) returns (r: Result<(string, string), string>)
      requires HexDigest(digest) && FilesNamed(digest, root, files)
      modifies this
      ensures FilesNamed(digest, root, files)
      ensures files == WriteFiles(old(files), PathOf(digest, root, body, mime), body, outcome)
      ensures r.Ok? <==> Succeeds(old(files), PathOf(digest, root, body, mime), body, outcome)
      ensures r.Ok? ==>
        && r.value == (digest(body), PathOf(digest, root, body, mime))
        && r.value.1 in files
        && digest(files[r.value.1]) == r.value.0 && |files[r.value.1]| == |body|
    {
      WriteKeepsNames(digest, root, files, body, mime, outcome);
      var sha := digest(body);
      var path := PathOf(digest, root, body, mime);
      if path in files && |files[path]| == |body| {
        ShortcutHoldsBody(digest, root, files, body, mime);
        return Ok((sha, path));
      }
      hide EXTENSIONS, ExtFromMIME, Path, PathOf, FilesNamed, HexDigest;
      if outcome.MkdirFailed? {
        return Err("mediastore mkdir");
      }
      var tmp := path + TMP;
      if outcome.WriteFailed? {
        files := files[tmp := if outcome.written <= |body| then body[..outcome.written] else body];
        return Err("mediastore write tmp");
      }
      var before := files;
      files := files[tmp := body];
      if outcome.RenameFailed? {
        files := files - {tmp};
        assert files == before - {tmp};
        return Err("mediastore rename");
      }
      files := (files - {tmp})[path := files[tmp]];
      assert files == (before - {tmp})[path := body];
      r := Ok((sha, path));
    }
  }
}
