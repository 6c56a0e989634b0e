/**
 Disk mode: how the files of the cache keep up with the chunks it holds, through every
 step of every run. A file falls out of step with its chunk in two ways only, a flush or
 discard that gives up and one race of the worker; the chunks concerned are tracked.
 */
module WriteBackRecovery {
  import opened Volume
  import opened WriteBackState
  import opened WriteBackSteps
  import opened WriteBackInv
  import opened WriteBackView

  /** The writer has written the file of chunk `i` and not yet made the chunk dirty. */
  predicate Pending(s: State, i: nat) {
    s.writer.Persisted? && s.writer.c.idx == i
  }

  /** The file of chunk `i` holds its newest copy; without one it may only repeat the inner store. */
  ghost predicate FileOk(cfg: Config, s: State, i: nat) {
    if Pending(s, i) then i in s.files && s.files[i] == s.writer.chunk
    else if i in s.dirty.chunks then i in s.files && s.files[i] == s.dirty.chunks[i].data
    else if i in s.queue.chunks then i in s.files && s.files[i] == s.queue.chunks[i].data
    else if Drained(s.admin) && i in JobMap(s.admin.jobs) then
      i in s.files && s.files[i] == JobMap(s.admin.jobs)[i].data
    else i in s.files && cfg.InCap(i) ==> i in s.inner && s.inner[i] == s.files[i]
  }

  /**
   Chunk `i` has lost step with its file: nobody holds it and the file, if any, is left
   from a flush that gave up, or the put queue holds it and the race took its file.
   */
  ghost predicate LooseOk(s: State, i: nat) {
    && !Pending(s, i) && i !in s.dirty.chunks
    && (i in s.queue.chunks || (Drained(s.admin) && i in JobMap(s.admin.jobs)) ==> i !in s.files)
  }

  ghost predicate OneOk(cfg: Config, s: State, loose: set<nat>, i: nat) {
    if i in loose then LooseOk(s, i) else FileOk(cfg, s, i)
  }

  ghost predicate FilesOk(cfg: Config, s: State, loose: set<nat>) {
    Whole(s.files, cfg.chunkSize) && forall i :: OneOk(cfg, s, loose, i)
  }

  /**
   The worker has taken the put chunk off the queue and, before it looks for a dirty
   copy, `evict_into_buffer` has moved a newer copy from the dirty map to the queue.
   */
  predicate Race(s: State, l: WorkStep) {
    l == Unlink(true) && s.worker.Cleaning? &&
    s.worker.idx in s.queue.chunks && s.worker.idx !in s.dirty.chunks
  }

  predicate GivesUp(l: AdminStep) {
    (l.PutJob? && l.put.Failed?) || (l.UnlinkJob? && !l.ok) || (l.DropJob? && !l.ok)
  }

  /** The chunks that are out of step with their files after a step. */
  ghost function LooseNext(s: State, l: Label, loose: set<nat>): set<nat> {
    match l
    case Load(a) => if a == Persist(true) && s.writer.Loaded? then loose - {s.writer.c.idx} else loose
    case Evict(_) => loose
    case Work(a) => if Race(s, a) then loose + {s.worker.idx} else loose
    case Manage(a) => if GivesUp(a) && Drained(s.admin) then loose + JobMap(s.admin.jobs).Keys else loose
  }

  ghost predicate SameAt(s: State, t: State, i: nat) {
    && (Pending(t, i) <==> Pending(s, i)) && (Pending(s, i) ==> t.writer.chunk == s.writer.chunk)
    && (i in t.dirty.chunks <==> i in s.dirty.chunks)
    && (i in s.dirty.chunks ==> t.dirty.chunks[i].data == s.dirty.chunks[i].data)
    && (i in t.queue.chunks <==> i in s.queue.chunks)
    && (i in s.queue.chunks ==> t.queue.chunks[i].data == s.queue.chunks[i].data)
    && (i in t.files <==> i in s.files) && (i in s.files ==> t.files[i] == s.files[i])
    && (i in t.inner <==> i in s.inner) && (i in s.inner ==> t.inner[i] == s.inner[i])
    && ((Drained(t.admin) && i in JobMap(t.admin.jobs)) <==> (Drained(s.admin) && i in JobMap(s.admin.jobs)))
    && (Drained(s.admin) && i in JobMap(s.admin.jobs) ==> JobMap(t.admin.jobs)[i] == JobMap(s.admin.jobs)[i])
  }

  /** A step that touches the copies and the file of no chunk but `idx`. */
  lemma OnlyFile(cfg: Config, s: State, t: State, loose: set<nat>, next: set<nat>, idx: nat)
    requires FilesOk(cfg, s, loose) && OneOk(cfg, t, next, idx) && Whole(t.files, cfg.chunkSize)
    requires forall i :: i != idx ==> SameAt(s, t, i) && (i in next <==> i in loose)
    ensures FilesOk(cfg, t, next)
  {
    forall i ensures OneOk(cfg, t, next, i) {
      assert OneOk(cfg, s, loose, i);
      assert i != idx ==> SameAt(s, t, i);
    }
  }

  /** A step that changes no copy and no file. */
  ghost predicate Still(s: State, t: State) {
    && t.dirty.chunks == s.dirty.chunks && t.queue.chunks == s.queue.chunks
    && t.files == s.files && t.inner == s.inner
    && (t.writer.Persisted? <==> s.writer.Persisted?)
    && (s.writer.Persisted? ==> t.writer == s.writer)
    && (Drained(t.admin) <==> Drained(s.admin))
    && (Drained(s.admin) ==> t.admin.jobs == s.admin.jobs)
  }

  lemma StillFiles(cfg: Config, s: State, t: State, loose: set<nat>)
    requires FilesOk(cfg, s, loose) && Still(s, t)
    ensures FilesOk(cfg, t, loose)
  {
    forall i ensures OneOk(cfg, t, loose, i) {
      assert OneOk(cfg, s, loose, i);
    }
  }

  lemma PersistFiles(cfg: Config, s: State, ok: bool, loose: set<nat>)
    requires cfg.disk && Sizes(cfg, s) && FilesOk(cfg, s, loose) && LoadEnabled(cfg, s, Persist(ok))
    ensures FilesOk(cfg, LoadNext(cfg, s, Persist(ok)), LooseNext(s, Load(Persist(ok)), loose))
  {
    var idx := s.writer.c.idx;
    assert OneOk(cfg, s, loose, idx);
    if ok {
      OnlyFile(cfg, s, LoadNext(cfg, s, Persist(true)), loose, loose - {idx}, idx);
    } else {
      StillFiles(cfg, s, LoadNext(cfg, s, Persist(false)), loose);
    }
  }

  lemma InsertFiles(cfg: Config, s: State, loose: set<nat>)
    requires FilesOk(cfg, s, loose) && LoadEnabled(cfg, s, Insert)
    ensures FilesOk(cfg, LoadNext(cfg, s, Insert), loose)
  {
    var idx := s.writer.c.idx;
    assert OneOk(cfg, s, loose, idx);
    OnlyFile(cfg, s, LoadNext(cfg, s, Insert), loose, loose, idx);
  }

  lemma LoadFiles(cfg: Config, s: State, l: LoadStep, loose: set<nat>)
    requires cfg.disk && Sizes(cfg, s) && Handshake(cfg, s) && FilesOk(cfg, s, loose) && LoadEnabled(cfg, s, l)
    ensures FilesOk(cfg, LoadNext(cfg, s, l), LooseNext(s, Load(l), loose))
  {
    match l
    case Persist(ok) => PersistFiles(cfg, s, ok, loose);
    case Insert => InsertFiles(cfg, s, loose);
    case _ => StillFiles(cfg, s, LoadNext(cfg, s, l), loose);
  }

  lemma MoveFiles(cfg: Config, s: State, idx: nat, loose: set<nat>)
    requires FilesOk(cfg, s, loose) && idx in s.dirty.chunks && idx !in s.queue.chunks
    ensures FilesOk(cfg, Move(s, idx), loose)
  {
    assert OneOk(cfg, s, loose, idx);
    OnlyFile(cfg, s, Move(s, idx), loose, loose, idx);
  }

  ghost predicate HeldSomewhere(s: State, i: nat) {
    i in s.dirty.chunks || i in s.queue.chunks || (Drained(s.admin) && i in JobMap(s.admin.jobs))
  }

  lemma PutFiles(cfg: Config, s: State, idx: nat, h: Held, loose: set<nat>)
    requires FilesOk(cfg, s, loose) && HeldSomewhere(s, idx)
    ensures FilesOk(cfg, InnerPut(cfg, s, idx, h), loose)
  {
    assert OneOk(cfg, s, loose, idx);
    OnlyFile(cfg, s, InnerPut(cfg, s, idx, h), loose, loose, idx);
  }

  lemma DropFiles(cfg: Config, s: State, loose: set<nat>)
    requires cfg.Ok() && Accounts(cfg, s) && Handshake(cfg, s) && WriterKnows(cfg, s) && FilesOk(cfg, s, loose)
    requires EvictEnabled(cfg, s, EvictDrop)
    ensures FilesOk(cfg, EvictNext(cfg, s, EvictDrop), loose)
  {
    assert OneOk(cfg, s, loose, s.writer.idx);
    OnlyFile(cfg, s, EvictNext(cfg, s, EvictDrop), loose, loose, s.writer.idx);
  }

  lemma EvictUnlinkFiles(cfg: Config, s: State, ok: bool, loose: set<nat>)
    requires cfg.Ok() && Accounts(cfg, s) && Handshake(cfg, s) && WriterKnows(cfg, s) && FilesOk(cfg, s, loose)
    requires EvictEnabled(cfg, s, EvictUnlink(ok))
    ensures FilesOk(cfg, EvictNext(cfg, s, EvictUnlink(ok)), loose)
  {
    assert OneOk(cfg, s, loose, s.writer.idx);
    OnlyFile(cfg, s, EvictNext(cfg, s, EvictUnlink(ok)), loose, loose, s.writer.idx);
  }

  lemma EvictFiles(cfg: Config, s: State, l: EvictStep, loose: set<nat>)
    requires Base(cfg, s) && WriterKnows(cfg, s) && FilesOk(cfg, s, loose) && EvictEnabled(cfg, s, l)
    ensures FilesOk(cfg, EvictNext(cfg, s, l), loose)
  {
    var t := EvictNext(cfg, s, l);
    match l
    case EvictMove(idx) => MoveFiles(cfg, s, idx, loose);
    case EvictPut(put) =>
      PutFiles(cfg, s, s.writer.idx, s.writer.held, loose);
      StillFiles(cfg, if put.Lands() then InnerPut(cfg, s, s.writer.idx, s.writer.held) else s, t, loose);
    case EvictDrop => DropFiles(cfg, s, loose);
    case EvictUnlink(ok) => EvictUnlinkFiles(cfg, s, ok, loose);
    case _ => StillFiles(cfg, s, t, loose);
  }

  lemma CompleteFiles(cfg: Config, s: State, current: bool, loose: set<nat>)
    requires Handshake(cfg, s) && JobHeld(cfg, s) && FilesOk(cfg, s, loose) && WorkEnabled(cfg, s, Complete(current))
    ensures FilesOk(cfg, WorkNext(cfg, s, Complete(current)), loose)
  {
    assert OneOk(cfg, s, loose, s.worker.job.idx);
    OnlyFile(cfg, s, WorkNext(cfg, s, Complete(current)), loose, loose, s.worker.job.idx);
  }

  lemma UnlinkFiles(cfg: Config, s: State, ok: bool, loose: set<nat>)
    requires Handshake(cfg, s) && FilesOk(cfg, s, loose) && WorkEnabled(cfg, s, Unlink(ok))
    ensures FilesOk(cfg, WorkNext(cfg, s, Unlink(ok)), LooseNext(s, Work(Unlink(ok)), loose))
  {
    var idx := s.worker.idx;
    assert OneOk(cfg, s, loose, idx);
    OnlyFile(cfg, s, WorkNext(cfg, s, Unlink(ok)), loose, LooseNext(s, Work(Unlink(ok)), loose), idx);
  }

  lemma HandoffFiles(cfg: Config, s: State, idx: nat, loose: set<nat>)
    requires FilesOk(cfg, s, loose) && WorkEnabled(cfg, s, Handoff(idx))
    ensures FilesOk(cfg, WorkNext(cfg, s, Handoff(idx)), loose)
  {
    MoveFiles(cfg, s, idx, loose);
    StillFiles(cfg, Move(s, idx), WorkNext(cfg, s, Handoff(idx)), loose);
  }

  lemma WorkerPutFiles(cfg: Config, s: State, put: Put, loose: set<nat>)
    requires JobHeld(cfg, s) && FilesOk(cfg, s, loose) && WorkEnabled(cfg, s, WorkerPut(put))
    ensures FilesOk(cfg, WorkNext(cfg, s, WorkerPut(put)), loose)
  {
    var job := s.worker.job;
    PutFiles(cfg, s, job.idx, job.held, loose);
    StillFiles(cfg, if put.Lands() then InnerPut(cfg, s, job.idx, job.held) else s,
               WorkNext(cfg, s, WorkerPut(put)), loose);
  }

  lemma WorkFiles(cfg: Config, s: State, l: WorkStep, loose: set<nat>)
    requires Base(cfg, s) && FilesOk(cfg, s, loose) && WorkEnabled(cfg, s, l)
    ensures FilesOk(cfg, WorkNext(cfg, s, l), LooseNext(s, Work(l), loose))
  {
    var t := WorkNext(cfg, s, l);
    match l
    case Handoff(idx) => HandoffFiles(cfg, s, idx, loose);
    case WorkerPut(put) => WorkerPutFiles(cfg, s, put, loose);
    case Complete(current) => CompleteFiles(cfg, s, current, loose);
    case Unlink(ok) => UnlinkFiles(cfg, s, ok, loose);
    case _ => StillFiles(cfg, s, t, loose);
  }

  lemma TakeFiles(cfg: Config, s: State, jobs: seq<Job>, loose: set<nat>)
    requires Handshake(cfg, s) && FilesOk(cfg, s, loose) && AdminEnabled(cfg, s, Take(jobs))
    ensures FilesOk(cfg, AdminNext(cfg, s, Take(jobs)), loose)
  {
    forall i ensures OneOk(cfg, AdminNext(cfg, s, Take(jobs)), loose, i) {
      assert OneOk(cfg, s, loose, i);
    }
  }

  lemma JobDone(cfg: Config, s: State, t: State, loose: set<nat>)
    requires Drained(s.admin) && |s.admin.jobs| > 0 && Unique(s.admin.jobs) && FilesOk(cfg, s, loose)
    requires s.writer.Resting? && t == s.(files := s.files - {s.admin.jobs[0].idx}, admin := t.admin)
    requires t.admin.Draining? && t.admin.jobs == s.admin.jobs[1..] && NothingHeldBack(s)
    ensures FilesOk(cfg, t, loose)
  {
    assert OneOk(cfg, s, loose, s.admin.jobs[0].idx);
    OnlyFile(cfg, s, t, loose, loose, s.admin.jobs[0].idx);
  }

  lemma PutJobFiles(cfg: Config, s: State, loose: set<nat>)
    requires FilesOk(cfg, s, loose) && AdminEnabled(cfg, s, PutJob(Stored))
    ensures FilesOk(cfg, AdminNext(cfg, s, PutJob(Stored)), loose)
  {
    var job := s.admin.jobs[0];
    PutFiles(cfg, s, job.idx, job.held, loose);
    StillFiles(cfg, InnerPut(cfg, s, job.idx, job.held), AdminNext(cfg, s, PutJob(Stored)), loose);
  }

  /** A flush or discard that gives up lets go of all it had drained and not yet dealt with. */
  lemma GivingUpFiles(cfg: Config, s: State, l: AdminStep, loose: set<nat>)
    requires Sizes(cfg, s) && Handshake(cfg, s) && FilesOk(cfg, s, loose) && AdminEnabled(cfg, s, l) && GivesUp(l)
    ensures FilesOk(cfg, AdminNext(cfg, s, l), loose + JobMap(s.admin.jobs).Keys)
  {
    var t := AdminNext(cfg, s, l);
    forall i ensures OneOk(cfg, t, loose + JobMap(s.admin.jobs).Keys, i) {
      assert OneOk(cfg, s, loose, i);
    }
  }

  lemma AdminFiles(cfg: Config, s: State, l: AdminStep, loose: set<nat>)
    requires Sizes(cfg, s) && Handshake(cfg, s) && FilesOk(cfg, s, loose) && AdminEnabled(cfg, s, l)
    ensures FilesOk(cfg, AdminNext(cfg, s, l), LooseNext(s, Manage(l), loose))
  {
    var t := AdminNext(cfg, s, l);
    if GivesUp(l) {
      GivingUpFiles(cfg, s, l, loose);
    } else {
      match l
      case Take(jobs) => TakeFiles(cfg, s, jobs, loose);
      case PutJob(put) => PutJobFiles(cfg, s, loose);
      case UnlinkJob(_) => JobDone(cfg, s, t, loose);
      case DropJob(_) => JobDone(cfg, s, t, loose);
      case Resume =>
        assert OneOk(cfg, s, loose, 0);
        OnlyFile(cfg, s, t, loose, loose, 0);
      case _ => StillFiles(cfg, s, t, loose);
    }
  }

  // ---------------------------------------------------- chunks being unlinked

  /** A chunk whose file is about to go is in step with it, or has none. */
  ghost predicate Unlinking(s: State, loose: set<nat>) {
    && (s.worker.Cleaning? && s.worker.idx in loose ==> s.worker.idx !in s.files)
    && (s.writer.VictimGone? ==> s.writer.idx !in loose)
  }

  lemma LoadUnlinking(cfg: Config, s: State, l: LoadStep, loose: set<nat>)
    requires Handshake(cfg, s) && Unlinking(s, loose) && LoadEnabled(cfg, s, l)
    ensures Unlinking(LoadNext(cfg, s, l), LooseNext(s, Load(l), loose))
  {
    match l
    case ChunksDone =>
    case _ =>
  }

  lemma EvictUnlinking(cfg: Config, s: State, l: EvictStep, loose: set<nat>)
    requires cfg.Ok() && Handshake(cfg, s) && WriterKnows(cfg, s) && FilesOk(cfg, s, loose)
    requires Unlinking(s, loose) && EvictEnabled(cfg, s, l)
    ensures Unlinking(EvictNext(cfg, s, l), loose)
  {
    match l
    case EvictDrop => assert OneOk(cfg, s, loose, s.writer.idx);
    case _ =>
  }

  lemma WorkUnlinking(cfg: Config, s: State, l: WorkStep, loose: set<nat>)
    requires Handshake(cfg, s) && JobHeld(cfg, s) && FilesOk(cfg, s, loose) && Unlinking(s, loose)
    requires WorkEnabled(cfg, s, l)
    ensures Unlinking(WorkNext(cfg, s, l), LooseNext(s, Work(l), loose))
  {
    match l
    case Complete(_) => assert OneOk(cfg, s, loose, s.worker.job.idx);
    case _ =>
  }

  lemma AdminUnlinking(cfg: Config, s: State, l: AdminStep, loose: set<nat>)
    requires Handshake(cfg, s) && Unlinking(s, loose) && AdminEnabled(cfg, s, l)
    ensures Unlinking(AdminNext(cfg, s, l), LooseNext(s, Manage(l), loose))
  {
    match l
    case Release =>
    case _ =>
  }
}
