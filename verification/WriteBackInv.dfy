/** What every step of every thread keeps. */
module WriteBackInv {
  import opened Volume
  import opened Totals
  import opened WriteBackState
  import opened WriteBackSteps

  /** Every chunk held anywhere is a whole chunk. */
  ghost predicate Sizes(cfg: Config, s: State) {
    && HeldWhole(cfg, s.dirty.chunks)
    && HeldWhole(cfg, s.queue.chunks)
    && Whole(s.inner, cfg.chunkSize)
    && (s.writer.Loaded? || s.writer.Persisted? ==> |s.writer.chunk| == cfg.chunkSize)
    && (s.writer.Victim? ==> |s.writer.held.data| == cfg.chunkSize)
    && (Drained(s.admin) ==> Unique(s.admin.jobs) && HeldWhole(cfg, JobMap(s.admin.jobs)))
  }

  /** Counters are the sums of what is held, and the queue is a listing of its chunks. */
  ghost predicate Accounts(cfg: Config, s: State) {
    && s.dirty.Counted() && s.queue.Counted() && s.queue.Ordered()
    && (cfg.buffered ==> s.queue.used <= cfg.bufferMax)
    && (!cfg.buffered ==> s.queue == NoQueue)
  }

  predicate InSection(a: Admin) {
    !a.Away? && !a.Asked?
  }

  predicate Drained(a: Admin) {
    a.Draining? || a.WroteJob?
  }

  /** Who may be where at the same time. */
  ghost predicate Handshake(cfg: Config, s: State) {
    && (s.parked <==> s.worker.Parked?)
    && (cfg.buffered <==> !s.worker.Absent?)
    && s.writers == (if s.writer.Resting? then 0 else 1)
    && (s.exclusive <==> !s.admin.Away?)
    && (InSection(s.admin) ==> s.writer.Resting?)
    && (s.admin.Pausing? ==> cfg.buffered && s.pause)
    && (s.admin.Halted? || Drained(s.admin) ==> cfg.buffered ==> s.pause && s.parked)
    && (s.writer.Victim? || s.writer.VictimPut? || s.writer.VictimGone? ==> !cfg.buffered)
    && (s.fileLock.ByWriter? <==> s.writer.Persisted? || s.writer.VictimGone?)
    && (s.fileLock.ByWorker? <==> s.worker.Cleaning?)
    && (Drained(s.admin) ==> s.dirty.chunks == map[] && s.queue.chunks == map[])
    && (s.admin.WroteJob? ==> s.admin.kind.Flush? && |s.admin.jobs| > 0)
  }

  predicate HasJob(w: Worker) {
    w.Got? || w.Aborting? || w.Putting? || w.Wrote?
  }

  /** The worker's job is the queue's own copy, and stays there until the put completes. */
  ghost predicate JobHeld(cfg: Config, s: State) {
    if HasJob(s.worker) then
      var idx := s.worker.job.idx;
      && s.queue.inflight == Some(idx)
      && idx in s.queue.chunks && s.queue.chunks[idx] == s.worker.job.held
      && (s.worker.Wrote? && s.worker.ok && cfg.InCap(idx) ==>
            idx in s.inner && s.inner[idx] == s.worker.job.held.data)
    else s.queue.inflight == None
  }

  ghost predicate Base(cfg: Config, s: State) {
    cfg.Ok() && Sizes(cfg, s) && Accounts(cfg, s) && Handshake(cfg, s) && JobHeld(cfg, s)
  }

  // -------------------------------------------------------- the queue's order

  lemma {:induction false} WithoutSpec(order: seq<nat>, idx: nat)
    requires forall i, j :: 0 <= i < j < |order| ==> order[i] != order[j]
    ensures var w := Without(order, idx);
            && (forall i :: i in w <==> i in order && i != idx)
            && (forall i, j :: 0 <= i < j < |w| ==> w[i] != w[j])
            && (order != [] && order[0] == idx ==> w == order[1..])
            && (order != [] && order[0] != idx ==> w != [] && w[0] == order[0])
  {
    if order != [] {
      WithoutSpec(order[1..], idx);
      var w := Without(order[1..], idx);
      assert forall i :: i in order <==> i == order[0] || i in order[1..];
      if order[0] == idx {
        WithoutAbsent(order[1..], idx);
      } else {
        var v := [order[0]] + w;
        assert forall i :: i in v <==> i == order[0] || i in w;
        assert order[0] !in w;
        forall i, j | 0 <= i < j < |v| ensures v[i] != v[j] {
          assert v[j] == w[j - 1] && w[j - 1] in w;
        }
      }
    }
  }

  lemma {:induction false} WithoutAbsent(order: seq<nat>, idx: nat)
    requires idx !in order
    ensures Without(order, idx) == order
  {
    if order != [] {
      assert order[0] in order;
      assert forall i :: i in order[1..] ==> i in order;
      WithoutAbsent(order[1..], idx);
      assert order == [order[0]] + order[1..];
    }
  }

  lemma PushKeeps(q: Queue, idx: nat, h: Held)
    requires q.Ordered() && q.Counted() && idx !in q.chunks
    ensures q.Push(idx, h).Ordered() && q.Push(idx, h).Counted()
    ensures q.Push(idx, h).used == q.used + |h.data|
  {
    TotalPut(q.chunks, HeldSize, idx, h);
    var p := q.Push(idx, h);
    assert forall i :: i in p.order <==> i == idx || i in q.order;
    assert idx !in q.order;
  }

  lemma RemoveKeeps(q: Queue, idx: nat)
    requires q.Ordered() && q.Counted() && q.inflight == None
    ensures q.Remove(idx).Ordered() && q.Remove(idx).Counted() && q.Remove(idx).used <= q.used
  {
    if idx in q.chunks {
      TotalRemove(q.chunks, HeldSize, idx);
      WithoutSpec(q.order, idx);
    }
  }

  lemma DirtyInsertCounted(d: Dirty, idx: nat, data: Bytes)
    requires d.Counted()
    ensures d.Insert(idx, data).Counted()
  {
    TotalPut(d.chunks, HeldSize, idx, Held(data, d.stamp + 1));
  }

  lemma DirtyRemoveCounted(d: Dirty, idx: nat)
    requires d.Counted()
    ensures d.Remove(idx).Counted() && d.Remove(idx).used <= d.used
  {
    if idx in d.chunks {
      TotalRemove(d.chunks, HeldSize, idx);
    }
  }

  lemma NothingHeld()
    ensures NoQueue.Counted() && NoQueue.Ordered()
    ensures forall stamp :: Dirty(map[], 0, stamp).Counted()
  {
    TotalEmpty(NoQueue.chunks, HeldSize);
    var none: map<nat, Held> := map[];
    TotalEmpty(none, HeldSize);
  }

  // --------------------------------------------------- Base, step by step

  lemma MoveKeeps(cfg: Config, s: State, idx: nat)
    requires Base(cfg, s) && cfg.buffered && idx in s.dirty.chunks
    requires s.queue.Admits(idx, |s.dirty.chunks[idx].data|, cfg.bufferMax)
    requires !Drained(s.admin)
    ensures Base(cfg, Move(s, idx))
  {
    PushKeeps(s.queue, idx, s.dirty.chunks[idx]);
    DirtyRemoveCounted(s.dirty, idx);
  }

  lemma TailJobs(cfg: Config, jobs: seq<Job>)
    requires |jobs| > 0 && Unique(jobs) && HeldWhole(cfg, JobMap(jobs))
    ensures HeldWhole(cfg, JobMap(jobs[1..])) && |jobs[0].held.data| == cfg.chunkSize
    ensures JobMap(jobs[1..]) == JobMap(jobs) - {jobs[0].idx}
  {
    var m := JobMap(jobs[1..]);
    assert JobMap(jobs)[jobs[0].idx] == jobs[0].held;
    forall i | i in m ensures |m[i].data| == cfg.chunkSize {
      assert JobMap(jobs)[i] == m[i];
    }
  }

  lemma LoadSizes(cfg: Config, s: State, l: LoadStep)
    requires cfg.Ok() && Sizes(cfg, s) && JobHeld(cfg, s) && LoadEnabled(cfg, s, l)
    ensures Sizes(cfg, LoadNext(cfg, s, l))
  {
    match l
    case ChunksDone =>
    case _ =>
  }

  lemma LoadAccounts(cfg: Config, s: State, l: LoadStep)
    requires Base(cfg, s) && LoadEnabled(cfg, s, l)
    ensures Accounts(cfg, LoadNext(cfg, s, l))
  {
    match l
    case Insert => DirtyInsertCounted(s.dirty, s.writer.c.idx, s.writer.chunk);
    case _ =>
  }

  lemma LoadHandshake(cfg: Config, s: State, l: LoadStep)
    requires cfg.Ok() && Handshake(cfg, s) && LoadEnabled(cfg, s, l)
    ensures Handshake(cfg, LoadNext(cfg, s, l))
  {
    match l
    case ChunksDone =>
    case _ =>
  }

  lemma LoadJobHeld(cfg: Config, s: State, l: LoadStep)
    requires cfg.Ok() && Handshake(cfg, s) && JobHeld(cfg, s) && LoadEnabled(cfg, s, l)
    ensures JobHeld(cfg, LoadNext(cfg, s, l))
  {
    match l
    case ChunksDone =>
    case _ =>
  }

  lemma EvictSizes(cfg: Config, s: State, l: EvictStep)
    requires cfg.Ok() && Sizes(cfg, s) && JobHeld(cfg, s) && EvictEnabled(cfg, s, l)
    ensures Sizes(cfg, EvictNext(cfg, s, l))
  {
    match l
    case EndWrite =>
    case _ =>
  }

  lemma EvictAccounts(cfg: Config, s: State, l: EvictStep)
    requires Base(cfg, s) && EvictEnabled(cfg, s, l)
    ensures Accounts(cfg, EvictNext(cfg, s, l))
  {
    match l
    case EvictMove(idx) => MoveKeeps(cfg, s, idx);
    case EvictDrop => DirtyRemoveCounted(s.dirty, s.writer.idx);
    case _ =>
  }

  lemma EvictHandshake(cfg: Config, s: State, l: EvictStep)
    requires cfg.Ok() && Handshake(cfg, s) && EvictEnabled(cfg, s, l)
    ensures Handshake(cfg, EvictNext(cfg, s, l))
  {
    match l
    case EndWrite =>
    case _ =>
  }

  lemma EvictJobHeld(cfg: Config, s: State, l: EvictStep)
    requires cfg.Ok() && Handshake(cfg, s) && JobHeld(cfg, s) && EvictEnabled(cfg, s, l)
    ensures JobHeld(cfg, EvictNext(cfg, s, l))
  {
    match l
    case EndWrite =>
    case _ =>
  }

  lemma WorkSizes(cfg: Config, s: State, l: WorkStep)
    requires cfg.Ok() && Sizes(cfg, s) && JobHeld(cfg, s) && WorkEnabled(cfg, s, l)
    ensures Sizes(cfg, WorkNext(cfg, s, l))
  {
    match l
    case Nap =>
    case _ =>
  }

  lemma WorkAccounts(cfg: Config, s: State, l: WorkStep)
    requires Base(cfg, s) && WorkEnabled(cfg, s, l)
    ensures Accounts(cfg, WorkNext(cfg, s, l))
  {
    match l
    case Handoff(idx) => MoveKeeps(cfg, s, idx);
    case Complete(_) => RemoveKeeps(s.queue.(inflight := None), s.worker.job.idx);
    case _ =>
  }

  lemma WorkHandshake(cfg: Config, s: State, l: WorkStep)
    requires cfg.Ok() && Handshake(cfg, s) && WorkEnabled(cfg, s, l)
    ensures Handshake(cfg, WorkNext(cfg, s, l))
  {
    match l
    case Nap =>
    case _ =>
  }

  lemma WorkJobHeld(cfg: Config, s: State, l: WorkStep)
    requires cfg.Ok() && Handshake(cfg, s) && JobHeld(cfg, s) && WorkEnabled(cfg, s, l)
    ensures JobHeld(cfg, WorkNext(cfg, s, l))
  {
    match l
    case Nap =>
    case _ =>
  }

  lemma AdminSizes(cfg: Config, s: State, l: AdminStep)
    requires cfg.Ok() && Sizes(cfg, s) && JobHeld(cfg, s) && AdminEnabled(cfg, s, l)
    ensures Sizes(cfg, AdminNext(cfg, s, l))
  {
    match l
    case PutJob(_) => TailJobs(cfg, s.admin.jobs);
    case UnlinkJob(_) => TailJobs(cfg, s.admin.jobs);
    case DropJob(_) => TailJobs(cfg, s.admin.jobs);
    case _ =>
  }

  lemma AdminAccounts(cfg: Config, s: State, l: AdminStep)
    requires Base(cfg, s) && AdminEnabled(cfg, s, l)
    ensures Accounts(cfg, AdminNext(cfg, s, l))
  {
    NothingHeld();
  }

  lemma AdminHandshake(cfg: Config, s: State, l: AdminStep)
    requires cfg.Ok() && Handshake(cfg, s) && AdminEnabled(cfg, s, l)
    ensures Handshake(cfg, AdminNext(cfg, s, l))
  {
    match l
    case Release =>
    case _ =>
  }

  lemma AdminJobHeld(cfg: Config, s: State, l: AdminStep)
    requires cfg.Ok() && Handshake(cfg, s) && JobHeld(cfg, s) && AdminEnabled(cfg, s, l)
    ensures JobHeld(cfg, AdminNext(cfg, s, l))
  {
    match l
    case Release =>
    case _ =>
  }
}
