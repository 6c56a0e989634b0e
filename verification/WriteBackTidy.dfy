/**
 What the write cache does not leave behind, over whole runs: no chunk file without a chunk,
 no byte past the capacity, no eviction within the budget.
 */
module WriteBackTidy {
  import opened Volume
  import opened WriteBackState
  import opened WriteBackSteps
  import opened WriteBackInv
  import opened WriteBackOrder
  import opened WriteBackView
  import opened WriteBackRecovery
  import opened WriteBack
  import opened WriteBackFifo

  // ------------------------------------------------------------ no file too many

  /** Somebody holds chunk `i`, or is about to remove its file. */
  ghost predicate Accounted(s: State, i: nat) {
    || Pending(s, i) || i in s.dirty.chunks || i in s.queue.chunks
    || (Drained(s.admin) && i in JobMap(s.admin.jobs))
    || (s.worker.Cleaning? && s.worker.idx == i)
    || (s.writer.VictimGone? && s.writer.idx == i)
  }

  ghost predicate Tidy(s: State) {
    forall i :: i in s.files ==> Accounted(s, i)
  }

  /** A removal of a file that fails, and a flush or discard that gives up. */
  predicate LeavesFile(l: Label) {
    match l
    case Evict(a) => a == EvictUnlink(false)
    case Work(a) => a == Unlink(false)
    case Manage(a) => GivesUp(a)
    case _ => false
  }

  lemma LoadTidy(cfg: Config, s: State, l: LoadStep)
    requires Handshake(cfg, s) && Tidy(s) && LoadEnabled(cfg, s, l)
    ensures Tidy(LoadNext(cfg, s, l))
  {
    var t := LoadNext(cfg, s, l);
    forall i | i in t.files ensures Accounted(t, i) {
      assert i in s.files ==> Accounted(s, i);
      match l { case ChunksDone => case _ => }
    }
  }

  lemma EvictTidy(cfg: Config, s: State, l: EvictStep)
    requires Tidy(s) && EvictEnabled(cfg, s, l) && !LeavesFile(Evict(l))
    ensures Tidy(EvictNext(cfg, s, l))
  {
    var t := EvictNext(cfg, s, l);
    forall i | i in t.files ensures Accounted(t, i) {
      assert Accounted(s, i);
      match l { case EndWrite => case _ => }
    }
  }

  lemma WorkTidy(cfg: Config, s: State, l: WorkStep)
    requires JobHeld(cfg, s) && Tidy(s) && WorkEnabled(cfg, s, l) && !LeavesFile(Work(l))
    ensures Tidy(WorkNext(cfg, s, l))
  {
    var t := WorkNext(cfg, s, l);
    forall i | i in t.files ensures Accounted(t, i) {
      assert Accounted(s, i);
      match l { case Nap => case _ => }
    }
  }

  lemma AdminTidy(cfg: Config, s: State, l: AdminStep)
    requires Sizes(cfg, s) && Handshake(cfg, s) && Tidy(s) && AdminEnabled(cfg, s, l) && !LeavesFile(Manage(l))
    ensures Tidy(AdminNext(cfg, s, l))
  {
    var t := AdminNext(cfg, s, l);
    forall i | i in t.files ensures Accounted(t, i) {
      assert Accounted(s, i);
      match l { case Release => case _ => }
    }
  }

  lemma StepTidy(cfg: Config, s: State, l: Label)
    requires Inv(cfg, s) && Tidy(s) && Enabled(cfg, s, l) && !LeavesFile(l)
    ensures Tidy(Next(cfg, s, l))
  {
    match l
    case Load(a) => LoadTidy(cfg, s, a);
    case Evict(a) => EvictTidy(cfg, s, a);
    case Work(a) => WorkTidy(cfg, s, a);
    case Manage(a) => AdminTidy(cfg, s, a);
  }

  ghost predicate LeavesNone(ls: seq<Label>) {
    forall k :: 0 <= k < |ls| ==> !LeavesFile(ls[k])
  }

  lemma {:induction false} RunTidy(cfg: Config, s: State, ls: seq<Label>)
    requires Inv(cfg, s) && Tidy(s) && CanRun(cfg, s, ls) && LeavesNone(ls)
    ensures Tidy(Run(cfg, s, ls))
    decreases |ls|
  {
    if ls != [] {
      assert !LeavesFile(ls[0]);
      assert forall k :: 0 <= k < |ls[1..]| ==> ls[1..][k] == ls[k + 1];
      StepInv(cfg, s, ls[0]);
      StepTidy(cfg, s, ls[0]);
      RunTidy(cfg, Next(cfg, s, ls[0]), ls[1..]);
    }
  }

  /**
   Unless a removal has failed or a flush or discard given up: every chunk file is that of a
   chunk held or about to be unlinked, and one that has dealt with its last chunk has left none.
   */
  lemma NoFileLeft(cfg: Config, s: State, ls: seq<Label>)
    requires Initial(cfg, s) && CanRun(cfg, s, ls) && LeavesNone(ls)
    ensures Tidy(Run(cfg, s, ls))
    ensures var t := Run(cfg, s, ls); t.admin.Draining? && t.admin.jobs == [] ==> t.files == map[]
  {
    InitialInv(cfg, s);
    RunInv(cfg, s, ls);
    RunTidy(cfg, s, ls);
    var t := Run(cfg, s, ls);
    if t.admin.Draining? && t.admin.jobs == [] {
      assert forall i :: !Accounted(t, i);
    }
  }

  // ------------------------------------------------- nothing past the capacity

  /** The bytes of chunk `i` from the capacity on are zero. */
  ghost predicate ZeroTail(cfg: Config, i: nat, data: Bytes) {
    forall k :: Valid(cfg.chunkSize, cfg.capacity, i) <= k < |data| ==> data[k] == 0
  }

  ghost predicate ZeroTails(cfg: Config, held: map<nat, Held>) {
    forall i :: i in held ==> ZeroTail(cfg, i, held[i].data)
  }

  ghost predicate InnerTails(cfg: Config, inner: Image) {
    forall i :: i in inner ==> ZeroTail(cfg, i, inner[i])
  }

  /** So for every chunk held, and, if asked for, in the inner store. */
  ghost predicate TailsOk(cfg: Config, s: State, below: bool) {
    && ZeroTails(cfg, s.dirty.chunks) && ZeroTails(cfg, s.queue.chunks) && (below ==> InnerTails(cfg, s.inner))
    && (s.writer.Loaded? || s.writer.Persisted? ==> ZeroTail(cfg, s.writer.c.idx, s.writer.chunk))
    && (s.writer.Victim? ==> ZeroTail(cfg, s.writer.idx, s.writer.held.data))
    && (Drained(s.admin) ==> ZeroTails(cfg, JobMap(s.admin.jobs)))
  }

  lemma PatchTail(cfg: Config, op: Op, c: Cursor, chunk: Bytes)
    requires op.InRange(cfg) && op.Fits(cfg, c) && |chunk| == cfg.chunkSize && ZeroTail(cfg, c.idx, chunk)
    ensures ZeroTail(cfg, c.idx, Splice(chunk, c.within, op.Patch(c)))
  {
    UnderCursor(cfg, op, c);
  }

  lemma PersistTails(cfg: Config, s: State, ok: bool, below: bool)
    requires Inv(cfg, s) && TailsOk(cfg, s, below) && LoadEnabled(cfg, s, Persist(ok))
    ensures TailsOk(cfg, LoadNext(cfg, s, Persist(ok)), below)
  {
    PatchTail(cfg, s.writer.op, s.writer.c, s.writer.chunk);
  }

  lemma LoadTails(cfg: Config, s: State, l: LoadStep, below: bool)
    requires Inv(cfg, s) && TailsOk(cfg, s, below) && LoadEnabled(cfg, s, l)
    ensures TailsOk(cfg, LoadNext(cfg, s, l), below)
  {
    match l
    case Persist(ok) => PersistTails(cfg, s, ok, below);
    case _ =>
  }

  lemma EvictTails(cfg: Config, s: State, l: EvictStep, below: bool)
    requires TailsOk(cfg, s, below) && EvictEnabled(cfg, s, l)
    ensures TailsOk(cfg, EvictNext(cfg, s, l), below)
  {
    match l { case EndWrite => case _ => }
  }

  lemma WorkTails(cfg: Config, s: State, l: WorkStep, below: bool)
    requires JobHeld(cfg, s) && TailsOk(cfg, s, below) && WorkEnabled(cfg, s, l)
    ensures TailsOk(cfg, WorkNext(cfg, s, l), below)
  {
    match l
    case WorkerPut(put) => WorkerPutTails(cfg, s, put, below);
    case _ =>
  }

  lemma WorkerPutTails(cfg: Config, s: State, put: Put, below: bool)
    requires JobHeld(cfg, s) && TailsOk(cfg, s, below) && WorkEnabled(cfg, s, WorkerPut(put))
    ensures TailsOk(cfg, WorkNext(cfg, s, WorkerPut(put)), below)
  {
    var t := WorkNext(cfg, s, WorkerPut(put));
    assert t.dirty == s.dirty && t.queue == s.queue && t.writer == s.writer && t.admin == s.admin;
  }

  lemma PutJobTails(cfg: Config, s: State, put: Put, below: bool)
    requires TailsOk(cfg, s, below) && AdminEnabled(cfg, s, PutJob(put))
    ensures TailsOk(cfg, AdminNext(cfg, s, PutJob(put)), below)
  {
    var job, t := s.admin.jobs[0], AdminNext(cfg, s, PutJob(put));
    assert job.idx in JobMap(s.admin.jobs) && JobMap(s.admin.jobs)[job.idx] == job.held;
    assert t.dirty == s.dirty && t.queue == s.queue && t.writer == s.writer;
  }

  lemma AdminTails(cfg: Config, s: State, l: AdminStep, below: bool)
    requires Sizes(cfg, s) && TailsOk(cfg, s, below) && AdminEnabled(cfg, s, l)
    ensures TailsOk(cfg, AdminNext(cfg, s, l), below)
  {
    match l
    case PutJob(put) => PutJobTails(cfg, s, put, below);
    case UnlinkJob(_) => TailJobs(cfg, s.admin.jobs); JobDoneTails(cfg, s, l, below);
    case DropJob(_) => TailJobs(cfg, s.admin.jobs); JobDoneTails(cfg, s, l, below);
    case _ =>
  }

  lemma JobDoneTails(cfg: Config, s: State, l: AdminStep, below: bool)
    requires TailsOk(cfg, s, below) && AdminEnabled(cfg, s, l) && (l.UnlinkJob? || l.DropJob?)
    requires JobMap(s.admin.jobs[1..]) == JobMap(s.admin.jobs) - {s.admin.jobs[0].idx}
    ensures TailsOk(cfg, AdminNext(cfg, s, l), below)
  {
    var t := AdminNext(cfg, s, l);
    assert t.dirty == s.dirty && t.queue == s.queue && t.writer == s.writer && t.inner == s.inner;
  }

  lemma StepTails(cfg: Config, s: State, l: Label, below: bool)
    requires Inv(cfg, s) && TailsOk(cfg, s, below) && Enabled(cfg, s, l)
    ensures TailsOk(cfg, Next(cfg, s, l), below)
  {
    match l
    case Load(a) => LoadTails(cfg, s, a, below);
    case Evict(a) => EvictTails(cfg, s, a, below);
    case Work(a) => WorkTails(cfg, s, a, below);
    case Manage(a) => AdminTails(cfg, s, a, below);
  }

  /** Over every run no copy held ever gets a byte past the capacity that is not zero, whatever the inner
   store has there, and neither does the inner store if it had none. */
  lemma {:induction false} RunTails(cfg: Config, s: State, ls: seq<Label>, below: bool)
    requires Inv(cfg, s) && TailsOk(cfg, s, below) && CanRun(cfg, s, ls)
    ensures TailsOk(cfg, Run(cfg, s, ls), below)
    decreases |ls|
  {
    if ls != [] {
      StepInv(cfg, s, ls[0]);
      StepTails(cfg, s, ls[0], below);
      RunTails(cfg, Next(cfg, s, ls[0]), ls[1..], below);
    }
  }

  /** So whatever was written and flushed, a volume that grows shows zeros where it was not. */
  lemma GrowthShowsZeros(cfg: Config, s: State, ls: seq<Label>, newCapacity: nat)
    requires Initial(cfg, s) && TailsOk(cfg, s, true) && CanRun(cfg, s, ls) && cfg.capacity <= newCapacity
    ensures var t := Run(cfg, s, ls);
            && Whole(t.inner, cfg.chunkSize)
            && Flat(t.inner, cfg.chunkSize, newCapacity)
               == Flat(t.inner, cfg.chunkSize, cfg.capacity) + Zeros(newCapacity - cfg.capacity)
  {
    InitialInv(cfg, s);
    RunInv(cfg, s, ls);
    RunTails(cfg, s, ls, true);
    var t := Run(cfg, s, ls);
    TailsZeroPast(cfg, t.inner);
    FlatGrow(t.inner, cfg.chunkSize, cfg.capacity, newCapacity);
  }

  lemma TailsZeroPast(cfg: Config, inner: Image)
    requires cfg.Ok() && Whole(inner, cfg.chunkSize) && InnerTails(cfg, inner)
    ensures ZeroPast(inner, cfg.chunkSize, cfg.capacity)
  {
    forall i, k | i in inner && 0 <= k < cfg.chunkSize && i * cfg.chunkSize + k >= cfg.capacity ensures inner[i][k] == 0 {
      assert ZeroTail(cfg, i, inner[i]);
    }
  }

  // -------------------------------------------------------- no eviction too many

  predicate Evicts(l: Label) {
    l.Evict? && (l.evict.EvictMove? || l.evict.EvictPick?)
  }

  function Evicted(l: Label): nat
    requires Evicts(l)
  {
    l.evict.idx
  }

  /**
   Over every run a write evicts only as long as there is a budget and the dirty bytes are
   over it, and then the chunk whose last write is longest ago, as long as the 64-bit tick
   has not come round.
   */
  lemma EvictsOldestOverBudget(cfg: Config, s: State, ls: seq<Label>, k: nat)
    requires Initial(cfg, s) && CanRun(cfg, s, ls) && k < |ls| && Evicts(ls[k])
    ensures CanRun(cfg, s, ls[..k])
    ensures var t := Run(cfg, s, ls[..k]);
            && 0 < cfg.cacheMax < t.dirty.used
            && (t.dirty.stamp < U64 ==> LeastRecent(t.dirty, Evicted(ls[k])))
  {
    RunTo(cfg, s, ls, k + 1);
    LastStep(cfg, s, ls[..k + 1]);
    assert ls[..k + 1][..k] == ls[..k];
    InitialInv(cfg, s);
    RunPuts(cfg, s, ls[..k], 0);
    if Run(cfg, s, ls[..k]).dirty.stamp < U64 {
      OldestTick(Run(cfg, s, ls[..k]), Evicted(ls[k]));
    }
  }

  lemma OldestTick(s: State, idx: nat)
    requires Stamps(s) && s.dirty.Oldest(idx) && s.dirty.stamp < U64
    ensures LeastRecent(s.dirty, idx)
  {
  }
}
