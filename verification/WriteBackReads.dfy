/**
 Reads take no hold and no lock across their three lookups: dirty map, put queue, inner
 store, with any steps of any thread between them. Each chunk piece is nevertheless one
 that the overlay view showed at some moment of the read.
 */
module WriteBackReads {
  import opened Volume
  import opened WriteBackState
  import opened WriteBackSteps
  import opened WriteBackInv
  import opened WriteBackView
  import opened WriteBackDisk
  import opened WriteBack

  /** What the view showed of chunk `idx`, in every state of a run. */
  ghost function Shown(cfg: Config, s: State, ls: seq<Label>, idx: nat): set<Bytes>
    requires CanRun(cfg, s, ls)
    decreases |ls|
  {
    {ViewChunk(cfg, s, idx)} + if ls == [] then {} else Shown(cfg, Next(cfg, s, ls[0]), ls[1..], idx)
  }

  /**
   The chunk a read returns that looks at the dirty map in state `s`, at the queue after
   the steps `a` and at the inner store after the further steps `b`.
   */
  ghost function ChunkRead(cfg: Config, s: State, a: seq<Label>, b: seq<Label>, idx: nat): Bytes
    requires CanRun(cfg, s, a) && CanRun(cfg, Run(cfg, s, a), b)
  {
    var q := Run(cfg, s, a);
    if idx in s.dirty.chunks then s.dirty.chunks[idx].data
    else if idx in q.queue.chunks then q.queue.chunks[idx].data
    else Below(cfg, Run(cfg, q, b), idx)
  }

  /**
   What the lookups still to come can find was shown already. Before the queue is looked
   at, the inner store matters only if the queue does not have the chunk.
   */
  ghost predicate Covered(cfg: Config, s: State, idx: nat, shown: set<Bytes>, queueSeen: bool) {
    && ViewChunk(cfg, s, idx) in shown
    && (idx in s.queue.chunks ==> s.queue.chunks[idx].data in shown)
    && (queueSeen || idx !in s.queue.chunks ==> Below(cfg, s, idx) in shown)
  }

  /** A step after which the view shows the chunk it showed before, and no lookup changed. */
  lemma StillCovered(cfg: Config, s: State, t: State, idx: nat, shown: set<Bytes>, queueSeen: bool)
    requires Covered(cfg, s, idx, shown, queueSeen) && t.queue.chunks == s.queue.chunks && t.inner == s.inner
    ensures Covered(cfg, t, idx, shown + {ViewChunk(cfg, t, idx)}, queueSeen)
  {
  }

  lemma MoveCovered(cfg: Config, s: State, t: State, moved: nat, idx: nat, shown: set<Bytes>, queueSeen: bool)
    requires Covered(cfg, s, idx, shown, queueSeen) && cfg.InCap(idx)
    requires moved in s.dirty.chunks && moved !in s.queue.chunks
    requires t.queue.chunks == s.queue.chunks[moved := s.dirty.chunks[moved]] && t.inner == s.inner
    ensures Covered(cfg, t, idx, shown + {ViewChunk(cfg, t, idx)}, queueSeen)
  {
    LookedUp(cfg, s, idx);
  }

  /** A put of a copy that the view shows, or that is still queued. */
  lemma PutCovered(cfg: Config, s: State, t: State, put: nat, h: Held, idx: nat, shown: set<Bytes>, queueSeen: bool)
    requires Covered(cfg, s, idx, shown, queueSeen) && cfg.InCap(idx) && t.queue.chunks == s.queue.chunks
    requires t.inner == InnerPut(cfg, s, put, h).inner
    requires put == idx ==>
      || (idx in s.queue.chunks && s.queue.chunks[idx] == h)
      || (idx in s.dirty.chunks && s.dirty.chunks[idx] == h)
      || ViewChunk(cfg, t, idx) == h.data
    ensures Covered(cfg, t, idx, shown + {ViewChunk(cfg, t, idx)}, queueSeen)
  {
    LookedUp(cfg, s, idx);
  }

  lemma WorkCovered(cfg: Config, s: State, l: WorkStep, idx: nat, shown: set<Bytes>, queueSeen: bool)
    requires Base(cfg, s) && WorkEnabled(cfg, s, l) && cfg.InCap(idx) && Covered(cfg, s, idx, shown, queueSeen)
    ensures var t := WorkNext(cfg, s, l); Covered(cfg, t, idx, shown + {ViewChunk(cfg, t, idx)}, queueSeen)
  {
    var t := WorkNext(cfg, s, l);
    match l
    case Handoff(moved) => MoveCovered(cfg, s, t, moved, idx, shown, queueSeen);
    case WorkerPut(put) =>
      if put.Lands() {
        PutCovered(cfg, s, t, s.worker.job.idx, s.worker.job.held, idx, shown, queueSeen);
      } else {
        StillCovered(cfg, s, t, idx, shown, queueSeen);
      }
    case Complete(current) => CompleteCovered(cfg, s, current, idx, shown, queueSeen);
    case _ => StillCovered(cfg, s, t, idx, shown, queueSeen);
  }

  /** What leaves the queue is in the inner store. */
  lemma CompleteCovered(cfg: Config, s: State, current: bool, idx: nat, shown: set<Bytes>, queueSeen: bool)
    requires JobHeld(cfg, s) && WorkEnabled(cfg, s, Complete(current)) && cfg.InCap(idx)
    requires Covered(cfg, s, idx, shown, queueSeen)
    ensures var t := WorkNext(cfg, s, Complete(current));
            Covered(cfg, t, idx, shown + {ViewChunk(cfg, t, idx)}, queueSeen)
  {
    var t := WorkNext(cfg, s, Complete(current));
    assert t.inner == s.inner;
    assert s.worker.ok && cfg.InCap(s.worker.job.idx) ==>
             Below(cfg, s, s.worker.job.idx) == s.queue.chunks[s.worker.job.idx].data;
  }

  lemma EvictCovered(cfg: Config, s: State, l: EvictStep, idx: nat, shown: set<Bytes>, queueSeen: bool)
    requires Base(cfg, s) && WriterKnows(cfg, s) && EvictEnabled(cfg, s, l)
    requires cfg.InCap(idx) && Covered(cfg, s, idx, shown, queueSeen)
    ensures var t := EvictNext(cfg, s, l); Covered(cfg, t, idx, shown + {ViewChunk(cfg, t, idx)}, queueSeen)
  {
    var t := EvictNext(cfg, s, l);
    match l
    case EvictMove(moved) => MoveCovered(cfg, s, t, moved, idx, shown, queueSeen);
    case EvictPut(put) =>
      if put.Lands() {
        PutCovered(cfg, s, t, s.writer.idx, s.writer.held, idx, shown, queueSeen);
      } else {
        StillCovered(cfg, s, t, idx, shown, queueSeen);
      }
    case _ => StillCovered(cfg, s, t, idx, shown, queueSeen);
  }

  lemma AdminCovered(cfg: Config, s: State, l: AdminStep, idx: nat, shown: set<Bytes>, queueSeen: bool)
    requires Base(cfg, s) && AdminEnabled(cfg, s, l) && cfg.InCap(idx) && Covered(cfg, s, idx, shown, queueSeen)
    ensures var t := AdminNext(cfg, s, l); Covered(cfg, t, idx, shown + {ViewChunk(cfg, t, idx)}, queueSeen)
  {
    var t := AdminNext(cfg, s, l);
    LookedUp(cfg, t, idx);
    match l
    case Take(_) => assert ViewChunk(cfg, t, idx) == Below(cfg, t, idx);
    case PutJob(put) => assert ViewChunk(cfg, t, idx) == Below(cfg, t, idx);
    case _ => StillCovered(cfg, s, t, idx, shown, queueSeen);
  }

  lemma LoadCovered(cfg: Config, s: State, l: LoadStep, idx: nat, shown: set<Bytes>, queueSeen: bool)
    requires LoadEnabled(cfg, s, l) && Covered(cfg, s, idx, shown, queueSeen)
    ensures var t := LoadNext(cfg, s, l); Covered(cfg, t, idx, shown + {ViewChunk(cfg, t, idx)}, queueSeen)
  {
    match l
    case ChunksDone => StillCovered(cfg, s, LoadNext(cfg, s, l), idx, shown, queueSeen);
    case _ => StillCovered(cfg, s, LoadNext(cfg, s, l), idx, shown, queueSeen);
  }

  lemma StepCovered(cfg: Config, s: State, l: Label, idx: nat, shown: set<Bytes>, queueSeen: bool)
    requires Inv(cfg, s) && Enabled(cfg, s, l) && cfg.InCap(idx) && Covered(cfg, s, idx, shown, queueSeen)
    ensures var t := Next(cfg, s, l); Covered(cfg, t, idx, shown + {ViewChunk(cfg, t, idx)}, queueSeen)
  {
    match l
    case Load(a) => LoadCovered(cfg, s, a, idx, shown, queueSeen);
    case Evict(a) => EvictCovered(cfg, s, a, idx, shown, queueSeen);
    case Work(a) => WorkCovered(cfg, s, a, idx, shown, queueSeen);
    case Manage(a) => AdminCovered(cfg, s, a, idx, shown, queueSeen);
  }

  lemma {:induction false} RunCovered(cfg: Config, s: State, ls: seq<Label>, idx: nat, shown: set<Bytes>, queueSeen: bool)
    requires Inv(cfg, s) && CanRun(cfg, s, ls) && cfg.InCap(idx) && Covered(cfg, s, idx, shown, queueSeen)
    ensures Covered(cfg, Run(cfg, s, ls), idx, shown + Shown(cfg, s, ls, idx), queueSeen)
    decreases |ls|
  {
    if ls != [] {
      var t := Next(cfg, s, ls[0]);
      StepInv(cfg, s, ls[0]);
      StepCovered(cfg, s, ls[0], idx, shown, queueSeen);
      var more := shown + {ViewChunk(cfg, t, idx)};
      RunCovered(cfg, t, ls[1..], idx, more, queueSeen);
      assert more + Shown(cfg, t, ls[1..], idx) == shown + Shown(cfg, s, ls, idx);
    } else {
      assert shown + Shown(cfg, s, ls, idx) == shown;
    }
  }

  /**
   Every read of a chunk, in every run: between its lookups the writer may insert, the
   worker hand off, put and complete, a flush or a discard drain, and still the chunk it
   returns is one the view showed at some moment between its first lookup and its last.
   */
  lemma ReadShowsView(cfg: Config, s: State, a: seq<Label>, b: seq<Label>, idx: nat)
    requires Inv(cfg, s) && CanRun(cfg, s, a) && CanRun(cfg, Run(cfg, s, a), b) && cfg.InCap(idx)
    ensures ChunkRead(cfg, s, a, b, idx) in Shown(cfg, s, a, idx) + Shown(cfg, Run(cfg, s, a), b, idx)
  {
    var q := Run(cfg, s, a);
    LookedUp(cfg, s, idx);
    if idx !in s.dirty.chunks {
      RunInv(cfg, s, a);
      RunCovered(cfg, s, a, idx, {ViewChunk(cfg, s, idx)}, false);
      var shown := {ViewChunk(cfg, s, idx)} + Shown(cfg, s, a, idx);
      assert shown == Shown(cfg, s, a, idx);
      if idx !in q.queue.chunks {
        RunCovered(cfg, q, b, idx, shown, true);
      }
    }
  }
}
