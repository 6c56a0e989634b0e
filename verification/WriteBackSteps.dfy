/**
 The critical sections of the write-back cache as atomic steps. A label names the
 step and fixes what the source leaves open: which chunk, in which order a hash map
 is drained, whether an I/O call succeeds. A failed put of the inner store may have
 taken effect or not.
 */
module WriteBackSteps {
  import opened Volume
  import opened WriteBackState

  datatype Put = Stored | Failed(landed: bool) {
    predicate Lands() { Stored? || landed }
  }

  /** The chunk loop of `write_at`. */
  datatype LoadStep =
    | BeginWrite(op: Op)
    | LookDirty(c: Cursor)
    | LookQueue
    | ReadInner(ok: bool)
    | Persist(ok: bool)
    | Insert
    | ChunksDone

  /** Its eviction loop, into the queue or straight to the inner store, and its return. */
  datatype EvictStep =
    | EvictDone
    | EvictMove(idx: nat)
    | EvictPick(idx: nat)
    | EvictPut(put: Put)
    | EvictDrop
    | EvictUnlink(ok: bool)
    | EndWrite

  /** `run_worker`. */
  datatype WorkStep =
    | AtTop
    | Unpark
    | NextJob(idx: nat)
    | NoJob
    | CheckAbort
    | ClearInflight
    | WorkerPut(put: Put)
    | Complete(current: bool)
    | Unlink(ok: bool)
    | Handoff(idx: nat)
    | Nap

  /** `flush` and `discard_dirty`. */
  datatype AdminStep =
    | Request(kind: Kind)
    | Gain
    | Pause
    | SeeParked
    | Take(jobs: seq<Job>)
    | PutJob(put: Put)
    | UnlinkJob(ok: bool)
    | DropJob(ok: bool)
    | Resume
    | Release

  datatype Label = Load(load: LoadStep) | Evict(evict: EvictStep) | Work(work: WorkStep) | Manage(manage: AdminStep)

  ghost predicate LoadEnabled(cfg: Config, s: State, l: LoadStep) {
    match l
    case BeginWrite(op) =>
      s.writer.Resting? && !s.exclusive && cfg.Ok() && op.done == 0 && op.base == FlatView(cfg, s)
    case LookDirty(c) =>
      && s.writer.Writing? && s.writer.op.done < |s.writer.op.data| && cfg.Ok()
      && c == At(cfg.chunkSize, s.writer.op.offset, |s.writer.op.data|, s.writer.op.done)
    case LookQueue => s.writer.MissDirty?
    case ReadInner(_) => s.writer.MissBoth? && |Chunk(s.inner, cfg.chunkSize, s.writer.c.idx)| == cfg.chunkSize
    case Persist(_) =>
      && s.writer.Loaded? && s.fileLock.Free?
      && s.writer.op.Fits(cfg, s.writer.c) && |s.writer.chunk| == cfg.chunkSize
    case Insert => s.writer.Persisted?
    case ChunksDone => s.writer.Writing? && s.writer.op.done == |s.writer.op.data|
  }

  ghost predicate EvictEnabled(cfg: Config, s: State, l: EvictStep) {
    match l
    case EvictDone =>
      s.writer.Evicting? && (cfg.cacheMax == 0 || s.dirty.used <= cfg.cacheMax || s.dirty.chunks == map[])
    case EvictMove(idx) =>
      && s.writer.Evicting? && cfg.buffered && 0 < cfg.cacheMax < s.dirty.used
      && s.dirty.Oldest(idx)
      && s.queue.Admits(idx, |s.dirty.chunks[idx].data|, cfg.bufferMax)
    case EvictPick(idx) =>
      s.writer.Evicting? && !cfg.buffered && 0 < cfg.cacheMax < s.dirty.used && s.dirty.Oldest(idx)
    case EvictPut(_) => s.writer.Victim?
    case EvictDrop => s.writer.VictimPut? && s.fileLock.Free?
    case EvictUnlink(_) => s.writer.VictimGone?
    case EndWrite => s.writer.Leaving?
  }

  ghost predicate WorkEnabled(cfg: Config, s: State, l: WorkStep) {
    match l
    case AtTop => s.worker.Top?
    case Unpark => s.worker.Parked? && !s.pause
    case NextJob(idx) =>
      && s.worker.Seek? && s.queue.inflight.None?
      && |s.queue.order| > 0 && s.queue.order[0] == idx && idx in s.queue.chunks
    case NoJob =>
      && s.worker.Seek?
      && (s.queue.inflight.Some? || |s.queue.order| == 0 || s.queue.order[0] !in s.queue.chunks)
    case CheckAbort => s.worker.Got?
    case ClearInflight => s.worker.Aborting?
    case WorkerPut(_) => s.worker.Putting?
    case Complete(current) =>
      && s.worker.Wrote? && s.fileLock.Free?
      && current == (var idx := s.worker.job.idx;
                     idx in s.queue.chunks && s.queue.chunks[idx].Tick() == s.worker.job.held.Tick())
    case Unlink(_) => s.worker.Cleaning?
    // The source hands off its oldest chunk untouched for 100 ms: any dirty chunk here.
    case Handoff(idx) =>
      && s.worker.Quiet? && idx in s.dirty.chunks
      && s.queue.Admits(idx, |s.dirty.chunks[idx].data|, cfg.bufferMax)
    case Nap => s.worker.Quiet?
  }

  ghost predicate AdminEnabled(cfg: Config, s: State, l: AdminStep) {
    match l
    case Request(_) => s.admin.Away?
    case Gain => s.admin.Asked? && s.writers == 0
    case Pause => s.admin.Gained?
    case SeeParked => s.admin.Pausing? && s.parked
    case Take(jobs) =>
      s.admin.Halted? && Unique(jobs) && JobMap(jobs) == s.queue.chunks + s.dirty.chunks
    case PutJob(_) => s.admin.Draining? && s.admin.kind.Flush? && |s.admin.jobs| > 0
    case UnlinkJob(_) => s.admin.WroteJob? && |s.admin.jobs| > 0 && s.fileLock.Free?
    case DropJob(_) => s.admin.Draining? && s.admin.kind.Discard? && |s.admin.jobs| > 0 && s.fileLock.Free?
    case Resume => s.admin.Draining? && |s.admin.jobs| == 0
    case Release => s.admin.Releasing?
  }

  /** `write_inner`: a chunk past the capacity is dropped without an error. */
  ghost function InnerPut(cfg: Config, s: State, idx: nat, h: Held): State {
    if cfg.InCap(idx) then s.(inner := s.inner[idx := h.data], landed := s.landed[idx := h.stamp]) else s
  }

  ghost function Move(s: State, idx: nat): State
    requires idx in s.dirty.chunks
  {
    s.(dirty := s.dirty.Remove(idx), queue := s.queue.Push(idx, s.dirty.chunks[idx]))
  }

  ghost function LoadNext(cfg: Config, s: State, l: LoadStep): State
    requires LoadEnabled(cfg, s, l)
  {
    match l
    case BeginWrite(op) =>
      s.(writers := s.writers + 1,
         writer := if op.offset + |op.data| <= cfg.capacity then Writing(op) else Leaving(op, false))
    case LookDirty(c) =>
      var op := s.writer.op;
      s.(writer := if c.idx in s.dirty.chunks then Loaded(op, c, s.dirty.chunks[c.idx].data)
                   else MissDirty(op, c))
    case LookQueue =>
      var op, c := s.writer.op, s.writer.c;
      s.(writer := if c.idx in s.queue.chunks then Loaded(op, c, s.queue.chunks[c.idx].data)
                   else MissBoth(op, c))
    case ReadInner(ok) =>
      var op, c := s.writer.op, s.writer.c;
      s.(writer := if ok then Loaded(op, c, cfg.Trim(c.idx, Chunk(s.inner, cfg.chunkSize, c.idx))) else Leaving(op, false))
    case Persist(ok) =>
      var op, c := s.writer.op, s.writer.c;
      var chunk := Splice(s.writer.chunk, c.within, op.Patch(c));
      if !ok then s.(writer := Leaving(op, false))
      else s.(writer := Persisted(op, c, chunk), fileLock := ByWriter,
              files := if cfg.disk then s.files[c.idx := chunk] else s.files)
    case Insert =>
      var op, c := s.writer.op, s.writer.c;
      s.(writer := Writing(op.(done := op.done + c.take)), fileLock := Free,
         dirty := s.dirty.Insert(c.idx, s.writer.chunk))
    case ChunksDone => s.(writer := Evicting(s.writer.op))
  }

  ghost function EvictNext(cfg: Config, s: State, l: EvictStep): State
    requires EvictEnabled(cfg, s, l)
  {
    match l
    case EvictDone => s.(writer := Leaving(s.writer.op, true))
    case EvictMove(idx) => Move(s, idx)
    case EvictPick(idx) => s.(writer := Victim(s.writer.op, idx, s.dirty.chunks[idx]))
    case EvictPut(put) =>
      var s1 := if put.Lands() then InnerPut(cfg, s, s.writer.idx, s.writer.held) else s;
      s1.(writer := if put.Stored? then VictimPut(s.writer.op, s.writer.idx) else Leaving(s.writer.op, false))
    case EvictDrop =>
      s.(writer := VictimGone(s.writer.op, s.writer.idx), fileLock := ByWriter,
         dirty := s.dirty.Remove(s.writer.idx))
    case EvictUnlink(ok) =>
      s.(writer := if ok then Evicting(s.writer.op) else Leaving(s.writer.op, false), fileLock := Free,
         files := if ok then s.files - {s.writer.idx} else s.files)
    case EndWrite => s.(writer := Resting, writers := SatSub(s.writers, 1))
  }

  ghost function WorkNext(cfg: Config, s: State, l: WorkStep): State
    requires WorkEnabled(cfg, s, l)
  {
    match l
    case AtTop => if s.pause then s.(worker := Parked, parked := true) else s.(worker := Seek)
    case Unpark => s.(worker := Top, parked := false)
    case NextJob(idx) =>
      s.(worker := Got(Job(idx, s.queue.chunks[idx])), queue := s.queue.(inflight := Some(idx)))
    case NoJob => s.(worker := Quiet)
    case CheckAbort => s.(worker := if s.pause then Aborting(s.worker.job) else Putting(s.worker.job))
    case ClearInflight =>
      s.(worker := Top,
         queue := if s.queue.inflight == Some(s.worker.job.idx) then s.queue.(inflight := None) else s.queue)
    case WorkerPut(put) =>
      var job := s.worker.job;
      var s1 := if put.Lands() then InnerPut(cfg, s, job.idx, job.held) else s;
      s1.(worker := Wrote(job, put.Stored?))
    case Complete(current) =>
      var job, ok := s.worker.job, s.worker.ok;
      var q := if s.queue.inflight == Some(job.idx) then s.queue.(inflight := None) else s.queue;
      s.(queue := if ok && current then q.Remove(job.idx) else q,
         worker := if ok then Cleaning(job.idx) else Top,
         fileLock := if ok then ByWorker else Free)
    case Unlink(ok) =>
      s.(worker := Top, fileLock := Free,
         files := if ok && s.worker.idx !in s.dirty.chunks then s.files - {s.worker.idx} else s.files)
    case Handoff(idx) => Move(s, idx).(worker := Top)
    case Nap => s.(worker := Top)
  }

  ghost function AdminNext(cfg: Config, s: State, l: AdminStep): State
    requires AdminEnabled(cfg, s, l)
  {
    match l
    case Request(kind) => s.(exclusive := true, admin := Asked(kind))
    case Gain => s.(admin := Gained(s.admin.kind, View(cfg, s)))
    case Pause =>
      if cfg.buffered then s.(pause := true, admin := Pausing(s.admin.kind, s.admin.at))
      else s.(admin := Halted(s.admin.kind, s.admin.at))
    case SeeParked => s.(admin := Halted(s.admin.kind, s.admin.at))
    case Take(jobs) =>
      s.(dirty := Dirty(map[], 0, s.dirty.stamp), queue := NoQueue,
         admin := Draining(s.admin.kind, s.admin.at, jobs))
    case PutJob(put) =>
      var job := s.admin.jobs[0];
      var s1 := if put.Lands() then InnerPut(cfg, s, job.idx, job.held) else s;
      s1.(admin := if put.Stored? then WroteJob(s.admin.kind, s.admin.at, s.admin.jobs)
                   else Releasing(s.admin.kind, s.admin.at, false))
    case UnlinkJob(ok) =>
      var idx := s.admin.jobs[0].idx;
      s.(files := if ok && idx !in s.dirty.chunks then s.files - {idx} else s.files,
         admin := if ok || idx in s.dirty.chunks then Draining(s.admin.kind, s.admin.at, s.admin.jobs[1..])
                  else Releasing(s.admin.kind, s.admin.at, false))
    case DropJob(ok) =>
      s.(files := if ok then s.files - {s.admin.jobs[0].idx} else s.files,
         admin := if ok then Draining(s.admin.kind, s.admin.at, s.admin.jobs[1..])
                  else Releasing(s.admin.kind, s.admin.at, false))
    case Resume => s.(pause := false, admin := Releasing(s.admin.kind, s.admin.at, true))
    case Release => s.(exclusive := false, admin := Away)
  }

  ghost predicate Enabled(cfg: Config, s: State, l: Label) {
    cfg.Ok() &&
    match l
    case Load(a) => LoadEnabled(cfg, s, a)
    case Evict(a) => EvictEnabled(cfg, s, a)
    case Work(a) => WorkEnabled(cfg, s, a)
    case Manage(a) => AdminEnabled(cfg, s, a)
  }

  ghost function Next(cfg: Config, s: State, l: Label): State
    requires Enabled(cfg, s, l)
  {
    match l
    case Load(a) => LoadNext(cfg, s, a)
    case Evict(a) => EvictNext(cfg, s, a)
    case Work(a) => WorkNext(cfg, s, a)
    case Manage(a) => AdminNext(cfg, s, a)
  }

  /** Runs are lists of labels, taken in order. */
  ghost predicate CanRun(cfg: Config, s: State, ls: seq<Label>)
    decreases |ls|
  {
    ls == [] || (Enabled(cfg, s, ls[0]) && CanRun(cfg, Next(cfg, s, ls[0]), ls[1..]))
  }

  ghost function Run(cfg: Config, s: State, ls: seq<Label>): State
    requires CanRun(cfg, s, ls)
    decreases |ls|
  {
    if ls == [] then s else Run(cfg, Next(cfg, s, ls[0]), ls[1..])
  }

  ghost predicate Initial(cfg: Config, s: State) {
    && cfg.Ok()
    && s.writer == Resting && s.admin == Away && s.worker == (if cfg.buffered then Top else Absent)
    && s.queue == NoQueue && s.fileLock == Free && s.landed == map[]
    && HeldWhole(cfg, s.dirty.chunks) && s.dirty.Counted()
    && (forall i :: i in s.dirty.chunks ==> 1 <= s.dirty.chunks[i].stamp <= s.dirty.stamp)
    && Whole(s.inner, cfg.chunkSize)
    && s.files == (if cfg.disk then Data(s.dirty.chunks) else map[])
    && !s.pause && !s.parked && !s.exclusive && s.writers == 0
  }
}
