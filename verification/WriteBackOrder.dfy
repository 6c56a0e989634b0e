/**
 Newer never loses to older: the insertion numbers of what is dirty, queued, drained
 and already put, kept in order through every step.
 */
module WriteBackOrder {
  import opened Volume
  import opened WriteBackState
  import opened WriteBackSteps
  import opened WriteBackInv
  import opened WriteBackView

  ghost predicate HeldBelow(m: map<nat, Held>, landed: map<nat, nat>, top: nat) {
    forall i :: i in m ==> m[i].stamp <= top && (i in landed ==> landed[i] <= m[i].stamp)
  }

  /** A dirty copy is newer than the queued one, and both at least as new as the last put. */
  ghost predicate Stamps(s: State) {
    && HeldBelow(s.dirty.chunks, s.landed, s.dirty.stamp)
    && HeldBelow(s.queue.chunks, s.landed, s.dirty.stamp)
    && (forall i :: i in s.landed ==> s.landed[i] <= s.dirty.stamp)
    && (forall i :: i in s.dirty.chunks && i in s.queue.chunks ==> s.queue.chunks[i].stamp < s.dirty.chunks[i].stamp)
    && (Drained(s.admin) ==> HeldBelow(JobMap(s.admin.jobs), s.landed, s.dirty.stamp))
  }

  /** Everything still to be put was inserted after insertion number `top`. */
  ghost predicate AllAfter(s: State, top: nat) {
    && top <= s.dirty.stamp
    && (forall i :: i in s.dirty.chunks ==> s.dirty.chunks[i].stamp > top)
    && (forall i :: i in s.queue.chunks ==> s.queue.chunks[i].stamp > top)
    && (Drained(s.admin) ==> forall i :: i in JobMap(s.admin.jobs) ==> JobMap(s.admin.jobs)[i].stamp > top)
  }

  /** The inner store took no put of chunk `i`. */
  ghost predicate Untouched(s: State, t: State, i: nat) {
    && (i in t.landed <==> i in s.landed) && (i in s.landed ==> t.landed[i] == s.landed[i])
    && (i in t.inner <==> i in s.inner) && (i in s.inner ==> t.inner[i] == s.inner[i])
  }

  /** What a step did to the inner store: put nothing older, and nothing from before `top`. */
  ghost predicate Puts(s: State, t: State, top: nat) {
    && (forall i :: i in s.landed ==> i in t.landed && s.landed[i] <= t.landed[i])
    && (forall i :: Untouched(s, t, i) || (i in t.landed && t.landed[i] > top))
    && s.inner.Keys <= t.inner.Keys
  }

  lemma JobTail(jobs: seq<Job>)
    requires |jobs| > 0 && Unique(jobs)
    ensures jobs[0].idx in JobMap(jobs) && JobMap(jobs)[jobs[0].idx] == jobs[0].held
    ensures forall i :: i in JobMap(jobs[1..]) ==> i != jobs[0].idx && i in JobMap(jobs) && JobMap(jobs)[i] == JobMap(jobs[1..])[i]
  {
  }

  ghost predicate Orderly(s: State, top: nat) {
    Stamps(s) && AllAfter(s, top)
  }

  ghost predicate Newest(s: State, idx: nat, h: Held) {
    && (idx in s.dirty.chunks ==> h.stamp <= s.dirty.chunks[idx].stamp)
    && (idx in s.queue.chunks ==> h.stamp <= s.queue.chunks[idx].stamp)
    && (Drained(s.admin) && idx in JobMap(s.admin.jobs) ==> h.stamp <= JobMap(s.admin.jobs)[idx].stamp)
  }

  lemma PutOrder(cfg: Config, s: State, idx: nat, h: Held, top: nat)
    requires Orderly(s, top) && top < h.stamp <= s.dirty.stamp
    requires Newest(s, idx, h) && (idx in s.landed ==> s.landed[idx] <= h.stamp)
    ensures Orderly(InnerPut(cfg, s, idx, h), top) && Puts(s, InnerPut(cfg, s, idx, h), top)
  {
    var t := InnerPut(cfg, s, idx, h);
    assert t.dirty == s.dirty && t.queue == s.queue && t.admin == s.admin;
    assert forall i :: i in t.landed <==> i in s.landed || (i == idx && cfg.InCap(idx));
    assert forall i :: i in t.landed && i != idx ==> t.landed[i] == s.landed[i];
  }

  lemma MoveOrder(s: State, idx: nat, top: nat)
    requires Orderly(s, top) && idx in s.dirty.chunks && idx !in s.queue.chunks
    ensures Orderly(Move(s, idx), top) && Puts(s, Move(s, idx), top)
  {
  }

  ghost predicate SubMap(a: map<nat, Held>, b: map<nat, Held>) {
    forall i :: i in a ==> i in b && a[i] == b[i]
  }

  /** Steps that put nothing and insert nothing. */
  ghost predicate Lets(s: State, t: State) {
    && t.inner == s.inner && t.landed == s.landed && t.dirty.stamp == s.dirty.stamp
    && SubMap(t.dirty.chunks, s.dirty.chunks)
    && SubMap(t.queue.chunks, s.queue.chunks)
    && (Drained(t.admin) ==> Drained(s.admin) && SubMap(JobMap(t.admin.jobs), JobMap(s.admin.jobs)))
  }

  lemma LetsOrder(s: State, t: State, top: nat)
    requires Orderly(s, top) && Lets(s, t)
    ensures Orderly(t, top) && Puts(s, t, top)
  {
  }

  lemma PutsJoin(s: State, t: State, u: State, top: nat)
    requires Puts(s, t, top) && Puts(t, u, top)
    ensures Puts(s, u, top)
  {
    forall i ensures Untouched(s, u, i) || (i in u.landed && u.landed[i] > top) {
      assert Untouched(s, t, i) || (i in t.landed && t.landed[i] > top);
      assert Untouched(t, u, i) || (i in u.landed && u.landed[i] > top);
    }
  }

  /** A put, with whatever else the step lets go of. */
  lemma PutThenLets(cfg: Config, s: State, idx: nat, h: Held, t: State, top: nat)
    requires Orderly(s, top) && top < h.stamp <= s.dirty.stamp
    requires Newest(s, idx, h) && (idx in s.landed ==> s.landed[idx] <= h.stamp)
    requires Lets(InnerPut(cfg, s, idx, h), t)
    ensures Orderly(t, top) && Puts(s, t, top)
  {
    PutOrder(cfg, s, idx, h, top);
    LetsOrder(InnerPut(cfg, s, idx, h), t, top);
    PutsJoin(s, InnerPut(cfg, s, idx, h), t, top);
  }

  lemma InsertOrder(cfg: Config, s: State, top: nat)
    requires Handshake(cfg, s) && Orderly(s, top) && LoadEnabled(cfg, s, Insert)
    ensures Orderly(LoadNext(cfg, s, Insert), top) && Puts(s, LoadNext(cfg, s, Insert), top)
  {
    InsertedOrder(s, LoadNext(cfg, s, Insert), s.writer.c.idx, s.writer.chunk, top);
  }

  lemma InsertedOrder(s: State, t: State, idx: nat, data: Bytes, top: nat)
    requires Orderly(s, top) && t.dirty == s.dirty.Insert(idx, data) && t.queue == s.queue
    requires t.inner == s.inner && t.landed == s.landed && t.admin == s.admin
    ensures Orderly(t, top) && Puts(s, t, top)
  {
  }

  lemma LoadLets(cfg: Config, s: State, l: LoadStep)
    requires Handshake(cfg, s) && LoadEnabled(cfg, s, l) && !l.Insert?
    ensures Lets(s, LoadNext(cfg, s, l))
  {
    var t := LoadNext(cfg, s, l);
    assert t.dirty == s.dirty && t.queue == s.queue && t.inner == s.inner && t.landed == s.landed && t.admin == s.admin by {
      match l { case ChunksDone => case _ => }
    }
  }

  lemma LoadOrder(cfg: Config, s: State, l: LoadStep, top: nat)
    requires Handshake(cfg, s) && Orderly(s, top) && LoadEnabled(cfg, s, l)
    ensures Orderly(LoadNext(cfg, s, l), top) && Puts(s, LoadNext(cfg, s, l), top)
  {
    match l
    case Insert => InsertOrder(cfg, s, top);
    case _ =>
      LoadLets(cfg, s, l);
      LetsOrder(s, LoadNext(cfg, s, l), top);
  }

  lemma EvictOrder(cfg: Config, s: State, l: EvictStep, top: nat)
    requires Base(cfg, s) && WriterKnows(cfg, s) && Orderly(s, top) && EvictEnabled(cfg, s, l)
    ensures Orderly(EvictNext(cfg, s, l), top) && Puts(s, EvictNext(cfg, s, l), top)
  {
    match l
    case EvictMove(idx) => MoveOrder(s, idx, top);
    case EvictPut(put) =>
      if put.Lands() {
        PutThenLets(cfg, s, s.writer.idx, s.writer.held, EvictNext(cfg, s, l), top);
      } else {
        LetsOrder(s, EvictNext(cfg, s, l), top);
      }
    case _ => LetsOrder(s, EvictNext(cfg, s, l), top);
  }

  lemma WorkOrder(cfg: Config, s: State, l: WorkStep, top: nat)
    requires Base(cfg, s) && Orderly(s, top) && WorkEnabled(cfg, s, l)
    ensures Orderly(WorkNext(cfg, s, l), top) && Puts(s, WorkNext(cfg, s, l), top)
  {
    match l
    case Handoff(idx) =>
      MoveOrder(s, idx, top);
      LetsOrder(Move(s, idx), WorkNext(cfg, s, l), top);
      PutsJoin(s, Move(s, idx), WorkNext(cfg, s, l), top);
    case WorkerPut(put) =>
      var job := s.worker.job;
      if put.Lands() {
        PutThenLets(cfg, s, job.idx, job.held, WorkNext(cfg, s, l), top);
      } else {
        LetsOrder(s, WorkNext(cfg, s, l), top);
      }
    case _ => LetsOrder(s, WorkNext(cfg, s, l), top);
  }

  lemma TakeOrder(cfg: Config, s: State, jobs: seq<Job>, top: nat)
    requires Orderly(s, top) && AdminEnabled(cfg, s, Take(jobs))
    ensures Orderly(AdminNext(cfg, s, Take(jobs)), top) && Puts(s, AdminNext(cfg, s, Take(jobs)), top)
  {
    TakenOrder(s, AdminNext(cfg, s, Take(jobs)), top);
  }

  lemma TakenOrder(s: State, t: State, top: nat)
    requires Orderly(s, top) && t.dirty.chunks == map[] && t.queue.chunks == map[]
    requires t.landed == s.landed && t.inner == s.inner && t.dirty.stamp == s.dirty.stamp
    requires t.admin.Draining? && JobMap(t.admin.jobs) == s.queue.chunks + s.dirty.chunks
    ensures Orderly(t, top) && Puts(s, t, top)
  {
    BelowUnion(s.queue.chunks, s.dirty.chunks, s.landed, s.dirty.stamp, top);
  }

  lemma BelowUnion(q: map<nat, Held>, d: map<nat, Held>, landed: map<nat, nat>, stamp: nat, top: nat)
    requires HeldBelow(q, landed, stamp) && HeldBelow(d, landed, stamp)
    requires (forall i :: i in q ==> q[i].stamp > top) && (forall i :: i in d ==> d[i].stamp > top)
    ensures HeldBelow(q + d, landed, stamp) && forall i :: i in q + d ==> (q + d)[i].stamp > top
  {
  }

  lemma PutJobOrder(cfg: Config, s: State, put: Put, top: nat)
    requires Sizes(cfg, s) && Handshake(cfg, s) && Orderly(s, top) && AdminEnabled(cfg, s, PutJob(put))
    ensures Orderly(AdminNext(cfg, s, PutJob(put)), top) && Puts(s, AdminNext(cfg, s, PutJob(put)), top)
  {
    var job, t := s.admin.jobs[0], AdminNext(cfg, s, PutJob(put));
    JobTail(s.admin.jobs);
    if put.Lands() {
      PutThenLets(cfg, s, job.idx, job.held, t, top);
    } else {
      LetsOrder(s, t, top);
    }
  }

  lemma AdminLets(cfg: Config, s: State, l: AdminStep)
    requires Sizes(cfg, s) && Handshake(cfg, s) && AdminEnabled(cfg, s, l) && !l.Take? && !l.PutJob?
    ensures Lets(s, AdminNext(cfg, s, l))
  {
    match l
    case UnlinkJob(_) => JobTail(s.admin.jobs);
    case DropJob(_) => JobTail(s.admin.jobs);
    case _ =>
  }

  lemma AdminOrder(cfg: Config, s: State, l: AdminStep, top: nat)
    requires Sizes(cfg, s) && Handshake(cfg, s) && Orderly(s, top) && AdminEnabled(cfg, s, l)
    ensures Orderly(AdminNext(cfg, s, l), top) && Puts(s, AdminNext(cfg, s, l), top)
  {
    match l
    case Take(jobs) => TakeOrder(cfg, s, jobs, top);
    case PutJob(put) => PutJobOrder(cfg, s, put, top);
    case _ =>
      AdminLets(cfg, s, l);
      LetsOrder(s, AdminNext(cfg, s, l), top);
  }
}
