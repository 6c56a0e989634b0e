/**
 From the machine's chunk files to the directory that keeps them: every step is followed
 there by at most one file operation, and a restart loads from the directory, left by a
 crash anywhere, even between the two halves of a file operation, what the machine had.
 */
module WriteBackRestart {
  import opened Volume
  import opened Numerals
  import opened SnapshotFormat
  import opened DiskCache
  import opened WriteBackState
  import opened WriteBackSteps
  import opened WriteBackInv
  import opened WriteBackView
  import opened WriteBackDisk
  import opened WriteBack

  datatype FileOp = NoFile | WriteFile(i: Index, data: Bytes) | RemoveFile(i: Index)

  function OnFiles(files: Files, op: FileOp): Files {
    match op
    case NoFile => files
    case WriteFile(i, data) => files[i := data]
    case RemoveFile(i) => files - {i}
  }

  function OnDir(dir: Dir, op: FileOp): Dir {
    match op
    case NoFile => dir
    case WriteFile(i, data) => Renamed(Aside(dir, i, data), i, data)
    case RemoveFile(i) => dir - {FlatKey(i)}
  }

  /** Chunk indexes are 64 bits wide. */
  ghost predicate Indexed(img: Image) {
    forall i :: i in img ==> i < U64
  }

  function RemoveOp(idx: nat, removed: bool): FileOp {
    if removed && idx < U64 then RemoveFile(idx) else NoFile
  }

  /** The file operation of a step. */
  ghost function OpOf(cfg: Config, s: State, l: Label): FileOp
    requires Enabled(cfg, s, l)
  {
    match l
    case Load(a) =>
      if a == Persist(true) && s.writer.c.idx < U64
      then WriteFile(s.writer.c.idx, Splice(s.writer.chunk, s.writer.c.within, s.writer.op.Patch(s.writer.c))) else NoFile
    case Evict(a) => if a == EvictUnlink(true) then RemoveOp(s.writer.idx, true) else NoFile
    case Work(a) => if a == Unlink(true) then RemoveOp(s.worker.idx, s.worker.idx !in s.dirty.chunks) else NoFile
    case Manage(a) =>
      if a == UnlinkJob(true) then RemoveOp(s.admin.jobs[0].idx, s.admin.jobs[0].idx !in s.dirty.chunks)
      else if a == DropJob(true) then RemoveOp(s.admin.jobs[0].idx, true) else NoFile
  }

  lemma PersistOp(cfg: Config, s: State, ok: bool)
    requires cfg.disk && Inv(cfg, s) && Enabled(cfg, s, Load(Persist(ok))) && Indexed(s.files)
    ensures LoadNext(cfg, s, Persist(ok)).files == OnFiles(s.files, OpOf(cfg, s, Load(Persist(ok))))
  {
    var op, c, x := s.writer.op, s.writer.c, Splice(s.writer.chunk, s.writer.c.within, s.writer.op.Patch(s.writer.c));
    IndexBelow(cfg, op, c);
    if ok {
      assert OpOf(cfg, s, Load(Persist(true))) == WriteFile(c.idx, x);
    }
  }

  lemma OtherLoadOp(cfg: Config, s: State, a: LoadStep)
    requires Enabled(cfg, s, Load(a)) && !a.Persist?
    ensures OpOf(cfg, s, Load(a)) == NoFile && LoadNext(cfg, s, a).files == s.files
  {
    match a { case ChunksDone => case _ => }
  }

  /** Before a file is written, and after, nothing in the chunk loop touches the directory. */
  lemma LoadOp(cfg: Config, s: State, a: LoadStep)
    requires cfg.disk && Inv(cfg, s) && Enabled(cfg, s, Load(a)) && Indexed(s.files)
    ensures LoadNext(cfg, s, a).files == OnFiles(s.files, OpOf(cfg, s, Load(a)))
  {
    match a {
      case Persist(ok) => PersistOp(cfg, s, ok);
      case _ => OtherLoadOp(cfg, s, a);
    }
  }

  lemma IndexBelow(cfg: Config, op: Op, c: Cursor)
    requires op.InRange(cfg) && op.Fits(cfg, c)
    ensures c.idx < U64
  {
    IndexBelowOffset(cfg.chunkSize, c.idx);
  }

  lemma EvictOp(cfg: Config, s: State, a: EvictStep)
    requires Enabled(cfg, s, Evict(a)) && Indexed(s.files)
    ensures EvictNext(cfg, s, a).files == OnFiles(s.files, OpOf(cfg, s, Evict(a)))
  {
    match a { case EndWrite => case _ => }
  }

  lemma WorkOp(cfg: Config, s: State, a: WorkStep)
    requires Enabled(cfg, s, Work(a)) && Indexed(s.files)
    ensures WorkNext(cfg, s, a).files == OnFiles(s.files, OpOf(cfg, s, Work(a)))
  {
    match a { case Nap => case _ => }
  }

  lemma AdminOp(cfg: Config, s: State, a: AdminStep)
    requires Enabled(cfg, s, Manage(a)) && Indexed(s.files)
    ensures AdminNext(cfg, s, a).files == OnFiles(s.files, OpOf(cfg, s, Manage(a)))
  {
    match a { case Release => case _ => }
  }

  lemma StepOp(cfg: Config, s: State, l: Label)
    requires cfg.disk && Inv(cfg, s) && Enabled(cfg, s, l) && Indexed(s.files)
    ensures Next(cfg, s, l).files == OnFiles(s.files, OpOf(cfg, s, l)) && Indexed(Next(cfg, s, l).files)
  {
    match l
    case Load(a) => LoadOp(cfg, s, a);
    case Evict(a) => EvictOp(cfg, s, a);
    case Work(a) => WorkOp(cfg, s, a);
    case Manage(a) => AdminOp(cfg, s, a);
  }

  lemma OpHolds(dir: Dir, files: Files, op: FileOp)
    requires Holds(dir, files)
    ensures Holds(OnDir(dir, op), OnFiles(files, op))
  {
    match op
    case NoFile =>
    case WriteFile(i, data) => PersistIsAtomic(dir, files, i, data);
    case RemoveFile(i) => RemoveHolds(dir, files, i);
  }

  /** The directory after a run. */
  ghost function DirAfter(cfg: Config, s: State, ls: seq<Label>, dir: Dir): Dir
    requires CanRun(cfg, s, ls)
    decreases |ls|
  {
    if ls == [] then dir else DirAfter(cfg, Next(cfg, s, ls[0]), ls[1..], OnDir(dir, OpOf(cfg, s, ls[0])))
  }

  lemma {:induction false} RunHolds(cfg: Config, s: State, ls: seq<Label>, dir: Dir)
    requires cfg.disk && Inv(cfg, s) && CanRun(cfg, s, ls) && Indexed(s.files) && Holds(dir, s.files)
    ensures Indexed(Run(cfg, s, ls).files) && Holds(DirAfter(cfg, s, ls, dir), Run(cfg, s, ls).files)
    decreases |ls|
  {
    if ls != [] {
      StepInv(cfg, s, ls[0]);
      StepOp(cfg, s, ls[0]);
      OpHolds(dir, s.files, OpOf(cfg, s, ls[0]));
      RunHolds(cfg, Next(cfg, s, ls[0]), ls[1..], OnDir(dir, OpOf(cfg, s, ls[0])));
    }
  }

  /** What a crash finds of a directory: itself, or a file written aside and not yet renamed. */
  ghost predicate Crashed(dir: Dir, left: Dir) {
    left == dir || exists i: Index, data: Bytes :: left == Aside(dir, i, data)
  }

  lemma CrashHolds(dir: Dir, left: Dir, files: Files)
    requires Holds(dir, files) && Crashed(dir, left)
    ensures Holds(left, files)
  {
    if left != dir {
      var i: Index, data: Bytes :| left == Aside(dir, i, data);
      PersistIsAtomic(dir, files, i, data);
    }
  }

  /** Nothing a restart looks at has a wrong length. */
  lemma HeldWholeFiles(dir: Dir, files: Files, cs: nat)
    requires Holds(dir, files) && Whole(files, cs)
    ensures forall name :: name in dir && Considered(name) ==> |dir[name]| == cs
  {
    forall name | name in dir && Considered(name) ensures |dir[name]| == cs {
      assert Owned(files, name);
    }
  }

  /**
   Run, crash anywhere, restart: loading the directory cannot fail, and the initiator then
   reads the disk journal of the run replayed.
   */
  lemma RestartFromDirectory(cfg: Config, s: State, ls: seq<Label>, dir: Dir, left: Dir, loaded: Files, d: Dirty)
    requires Initial(cfg, s) && cfg.disk && CanRun(cfg, s, ls) && Indexed(s.files) && Holds(dir, s.files)
    requires Crashed(DirAfter(cfg, s, ls, dir), left) && DiskCache.Loaded(left, loaded, {}) && Reloads(d, loaded)
    ensures forall name :: name in left && Considered(name) ==> |left[name]| == cfg.chunkSize
    ensures Initial(cfg, Restarted(cfg, Run(cfg, s, ls), d))
    ensures FlatView(cfg, Restarted(cfg, Run(cfg, s, ls), d)) == Replay(FlatView(cfg, s), DiskJournal(cfg, s, ls))
  {
    var t := Run(cfg, s, ls);
    InitialInv(cfg, s);
    RunHolds(cfg, s, ls, dir);
    CrashHolds(DirAfter(cfg, s, ls, dir), left, t.files);
    LoadsWhatIsHeld(left, t.files, loaded);
    CrashRecovers(cfg, s, ls);
    HeldWholeFiles(left, t.files, cfg.chunkSize);
    RestartFindsWrites(cfg, s, ls, d);
  }
}
