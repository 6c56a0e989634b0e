/**
 The overlay view through every step: of the steps of writer and worker only an
 insertion changes what an initiator reads, and it changes exactly the patched bytes; a
 flush or discard takes away what it drains, and a flush that ends leaves the inner store
 equal to the view it started from.
 */
module WriteBackView {
  import opened Volume
  import opened WriteBackState
  import opened WriteBackSteps
  import opened WriteBackInv

  // ------------------------------------------------------ how the view moves

  /** The view, one chunk at a time. */
  ghost function Copy(cfg: Config, s: State, i: nat): Option<Bytes> {
    if !cfg.InCap(i) then None
    else if i in s.dirty.chunks then Some(s.dirty.chunks[i].data)
    else if i in s.queue.chunks then Some(s.queue.chunks[i].data)
    else if i in s.inner then Some(s.inner[i])
    else None
  }

  lemma ViewCopies(cfg: Config, s: State)
    ensures forall i :: i in View(cfg, s) <==> Copy(cfg, s, i).Some?
    ensures forall i :: i in View(cfg, s) ==> View(cfg, s)[i] == Copy(cfg, s, i).value
  {
  }

  lemma SameCopies(cfg: Config, s: State, t: State)
    requires forall i :: Copy(cfg, s, i) == Copy(cfg, t, i)
    ensures View(cfg, s) == View(cfg, t)
  {
    ViewCopies(cfg, s);
    ViewCopies(cfg, t);
  }

  lemma SameMaps(cfg: Config, s: State, t: State)
    requires t.inner == s.inner && t.queue.chunks == s.queue.chunks && t.dirty.chunks == s.dirty.chunks
    ensures View(cfg, t) == View(cfg, s)
  {
  }

  lemma MoveView(cfg: Config, s: State, idx: nat)
    requires idx in s.dirty.chunks && idx !in s.queue.chunks
    ensures View(cfg, Move(s, idx)) == View(cfg, s)
  {
    SameCopies(cfg, s, Move(s, idx));
  }

  /** A put changes nothing visible while a newer or equal copy is held above it. */
  lemma PutView(cfg: Config, s: State, idx: nat, h: Held)
    requires idx in s.dirty.chunks || idx in s.queue.chunks
    ensures View(cfg, InnerPut(cfg, s, idx, h)) == View(cfg, s)
  {
    SameCopies(cfg, s, InnerPut(cfg, s, idx, h));
  }

  /** Forgetting a queued copy the inner store already has changes nothing visible. */
  lemma ForgetQueued(cfg: Config, s: State, t: State, idx: nat)
    requires idx in s.queue.chunks && t.queue.chunks == s.queue.chunks - {idx}
    requires t.dirty.chunks == s.dirty.chunks && t.inner == s.inner
    requires cfg.InCap(idx) ==> idx in s.inner && s.inner[idx] == s.queue.chunks[idx].data
    ensures View(cfg, t) == View(cfg, s)
  {
    SameCopies(cfg, s, t);
  }

  lemma ForgetDirty(cfg: Config, s: State, t: State, idx: nat)
    requires idx in s.dirty.chunks && idx !in s.queue.chunks && t.dirty.chunks == s.dirty.chunks - {idx}
    requires t.queue.chunks == s.queue.chunks && t.inner == s.inner
    requires cfg.InCap(idx) ==> idx in s.inner && s.inner[idx] == s.dirty.chunks[idx].data
    ensures View(cfg, t) == View(cfg, s)
  {
    SameCopies(cfg, s, t);
  }

  lemma InsertView(cfg: Config, s: State, t: State, idx: nat, data: Bytes)
    requires cfg.InCap(idx) && idx in t.dirty.chunks && t.dirty.chunks[idx].data == data
    requires t.dirty.chunks == s.dirty.chunks[idx := t.dirty.chunks[idx]]
    requires t.queue.chunks == s.queue.chunks && t.inner == s.inner
    ensures View(cfg, t) == View(cfg, s)[idx := data]
  {
    ViewCopies(cfg, s);
    ViewCopies(cfg, t);
    var a, b := View(cfg, t), View(cfg, s)[idx := data];
    forall i ensures (i in a <==> i in b) && (i in a ==> a[i] == b[i]) {
      assert i != idx ==> Copy(cfg, s, i) == Copy(cfg, t, i);
    }
  }

  // -------------------------------------------------- what the threads know

  ghost predicate Agree(cfg: Config, idx: nat, a: Bytes, b: Bytes) {
    && |a| == cfg.chunkSize == |b|
    && a[..Valid(cfg.chunkSize, cfg.capacity, idx)] == b[..Valid(cfg.chunkSize, cfg.capacity, idx)]
  }

  ghost function ViewChunk(cfg: Config, s: State, idx: nat): Bytes {
    Chunk(View(cfg, s), cfg.chunkSize, idx)
  }

  /** How far a write has come: the flat array is its start with the done bytes spliced in. */
  ghost predicate Reached(cfg: Config, flat: Bytes, op: Op) {
    && |op.base| == cfg.capacity
    && if op.InRange(cfg) then flat == Splice(op.base, op.offset, op.data[..op.done])
       else op.done == 0 && flat == op.base
  }

  ghost predicate Progress(cfg: Config, s: State, op: Op)
    requires cfg.Ok()
  {
    Reached(cfg, FlatView(cfg, s), op)
  }

  ghost predicate WriterKnows(cfg: Config, s: State)
    requires cfg.Ok()
  {
    match s.writer
    case Resting => true
    case Writing(op) => Progress(cfg, s, op) && op.InRange(cfg)
    case MissDirty(op, c) =>
      Progress(cfg, s, op) && op.InRange(cfg) && op.Fits(cfg, c) && c.idx !in s.dirty.chunks
    case MissBoth(op, c) =>
      && Progress(cfg, s, op) && op.InRange(cfg) && op.Fits(cfg, c)
      && c.idx !in s.dirty.chunks && c.idx !in s.queue.chunks
    case Loaded(op, c, chunk) =>
      && Progress(cfg, s, op) && op.InRange(cfg) && op.Fits(cfg, c)
      && Agree(cfg, c.idx, chunk, ViewChunk(cfg, s, c.idx))
    case Persisted(op, c, chunk) =>
      && Progress(cfg, s, op) && op.InRange(cfg) && op.Fits(cfg, c)
      && |ViewChunk(cfg, s, c.idx)| == cfg.chunkSize
      && Agree(cfg, c.idx, chunk, Splice(ViewChunk(cfg, s, c.idx), c.within, op.Patch(c)))
    case Evicting(op) => Progress(cfg, s, op) && op.InRange(cfg) && op.done == |op.data|
    case Victim(op, idx, held) =>
      && Progress(cfg, s, op) && op.InRange(cfg) && op.done == |op.data|
      && idx in s.dirty.chunks && s.dirty.chunks[idx] == held
    case VictimPut(op, idx) =>
      && Progress(cfg, s, op) && op.InRange(cfg) && op.done == |op.data|
      && idx in s.dirty.chunks
      && (cfg.InCap(idx) ==> idx in s.inner && s.inner[idx] == s.dirty.chunks[idx].data)
    case VictimGone(op, idx) =>
      && Progress(cfg, s, op) && op.InRange(cfg) && op.done == |op.data| && idx !in s.dirty.chunks
    case Leaving(op, ok) =>
      && Progress(cfg, s, op)
      && (ok ==> op.InRange(cfg) && op.done == |op.data| && (cfg.cacheMax > 0 ==> s.dirty.used <= cfg.cacheMax))
  }

  predicate NothingHeldBack(s: State) {
    s.dirty.chunks == map[] && s.queue.chunks == map[]
  }

  ghost predicate AdminKnows(cfg: Config, s: State) {
    match s.admin
    case Gained(_, at) => View(cfg, s) == at
    case Pausing(_, at) => View(cfg, s) == at
    case Halted(_, at) => View(cfg, s) == at
    case Draining(kind, at, jobs) =>
      kind.Flush? ==> Visible(cfg, s.inner + Data(JobMap(jobs))) == at
    case WroteJob(_, at, jobs) =>
      && Visible(cfg, s.inner + Data(JobMap(jobs))) == at
      && |jobs| > 0
      && (cfg.InCap(jobs[0].idx) ==> jobs[0].idx in s.inner && s.inner[jobs[0].idx] == jobs[0].held.data)
    case Releasing(kind, at, ok) =>
      ok ==> NothingHeldBack(s) && (kind.Flush? ==> Visible(cfg, s.inner) == at)
    case _ => true
  }

  ghost predicate Inv(cfg: Config, s: State) {
    Base(cfg, s) && WriterKnows(cfg, s) && AdminKnows(cfg, s)
  }

  lemma ViewWhole(cfg: Config, s: State)
    requires Sizes(cfg, s)
    ensures Whole(View(cfg, s), cfg.chunkSize)
  {
  }

  // -------------------------------------------------------- steps that only move

  lemma EvictKeepsView(cfg: Config, s: State, l: EvictStep)
    requires Inv(cfg, s) && EvictEnabled(cfg, s, l)
    ensures View(cfg, EvictNext(cfg, s, l)) == View(cfg, s)
    ensures EvictNext(cfg, s, l).admin == s.admin
  {
    var t := EvictNext(cfg, s, l);
    match l
    case EvictMove(idx) => MoveView(cfg, s, idx);
    case EvictPut(put) =>
      PutView(cfg, s, s.writer.idx, s.writer.held);
      SameMaps(cfg, if put.Lands() then InnerPut(cfg, s, s.writer.idx, s.writer.held) else s, t);
    case EvictDrop => ForgetDirty(cfg, s, t, s.writer.idx);
    case _ => SameMaps(cfg, s, t);
  }

  lemma WorkKeepsView(cfg: Config, s: State, l: WorkStep)
    requires Base(cfg, s) && WorkEnabled(cfg, s, l)
    ensures View(cfg, WorkNext(cfg, s, l)) == View(cfg, s)
    ensures WorkNext(cfg, s, l).admin == s.admin
  {
    var t := WorkNext(cfg, s, l);
    match l
    case Handoff(idx) =>
      MoveView(cfg, s, idx);
      SameMaps(cfg, Move(s, idx), t);
    case WorkerPut(put) =>
      var job := s.worker.job;
      PutView(cfg, s, job.idx, job.held);
      SameMaps(cfg, if put.Lands() then InnerPut(cfg, s, job.idx, job.held) else s, t);
    case Complete(current) =>
      if s.worker.ok && current {
        ForgetQueued(cfg, s, t, s.worker.job.idx);
      } else {
        SameMaps(cfg, s, t);
      }
    case _ => SameMaps(cfg, s, t);
  }

  lemma LoadKeepsView(cfg: Config, s: State, l: LoadStep)
    requires LoadEnabled(cfg, s, l) && !l.Insert?
    ensures View(cfg, LoadNext(cfg, s, l)) == View(cfg, s)
    ensures LoadNext(cfg, s, l).admin == s.admin
  {
    match l
    case Insert =>
    case _ => SameMaps(cfg, s, LoadNext(cfg, s, l));
  }

  lemma AdminKeepsView(cfg: Config, s: State, l: AdminStep)
    requires AdminEnabled(cfg, s, l) && !l.Take? && !l.PutJob?
    ensures View(cfg, AdminNext(cfg, s, l)) == View(cfg, s)
  {
    match l
    case Take(_) =>
    case PutJob(_) =>
    case _ => SameMaps(cfg, s, AdminNext(cfg, s, l));
  }

  // ---------------------------------------------------- a chunk step of write_at

  lemma UnderCursor(cfg: Config, op: Op, c: Cursor)
    requires op.InRange(cfg) && op.Fits(cfg, c)
    ensures cfg.InCap(c.idx)
    ensures c.within + c.take <= Valid(cfg.chunkSize, cfg.capacity, c.idx)
  {
  }

  lemma SpliceAgree(cfg: Config, idx: nat, a: Bytes, b: Bytes, within: nat, patch: Bytes)
    requires Agree(cfg, idx, a, b) && within + |patch| <= cfg.chunkSize
    ensures Agree(cfg, idx, Splice(a, within, patch), Splice(b, within, patch))
  {
    var n := Valid(cfg.chunkSize, cfg.capacity, idx);
    var x, y := Splice(a, within, patch), Splice(b, within, patch);
    forall k | 0 <= k < n ensures x[k] == y[k] {
      assert a[k] == a[..n][k] && b[k] == b[..n][k];
    }
  }

  /** Putting a chunk that agrees with the patched view chunk splices the flat array. */
  lemma PatchFlat(cfg: Config, v: Image, op: Op, c: Cursor, chunk: Bytes)
    requires cfg.Ok() && Whole(v, cfg.chunkSize) && op.InRange(cfg) && op.Fits(cfg, c)
    requires Agree(cfg, c.idx, chunk, Splice(Chunk(v, cfg.chunkSize, c.idx), c.within, op.Patch(c)))
    ensures Whole(v[c.idx := chunk], cfg.chunkSize)
    ensures Flat(v[c.idx := chunk], cfg.chunkSize, cfg.capacity)
         == Splice(Flat(v, cfg.chunkSize, cfg.capacity), op.offset + op.done, op.Patch(c))
  {
    var cs, cap := cfg.chunkSize, cfg.capacity;
    var patched := v[c.idx := Splice(Chunk(v, cs, c.idx), c.within, op.Patch(c))];
    var w := v[c.idx := chunk];
    FlatSplice(v, cs, cap, c.idx, c.within, op.Patch(c));
    forall idx ensures SameChunk(w, patched, cs, cap, idx) {
    }
    FlatAgree(w, patched, cs, cap);
  }

  /** The insertion step: exactly the patched bytes of the flat array change. */
  lemma InsertSplices(cfg: Config, s: State)
    requires cfg.Ok() && Sizes(cfg, s) && WriterKnows(cfg, s) && LoadEnabled(cfg, s, Insert)
    ensures var op, c := s.writer.op, s.writer.c;
            && op.done + c.take <= |op.data| && op.offset + |op.data| <= cfg.capacity
            && FlatView(cfg, LoadNext(cfg, s, Insert))
                 == Splice(FlatView(cfg, s), op.offset + op.done, op.Patch(c))
  {
    var op, c := s.writer.op, s.writer.c;
    var t := LoadNext(cfg, s, Insert);
    UnderCursor(cfg, op, c);
    InsertView(cfg, s, t, c.idx, s.writer.chunk);
    assert View(cfg, t) == View(cfg, s)[c.idx := s.writer.chunk];
    ViewWhole(cfg, s);
    PatchFlat(cfg, View(cfg, s), op, c, s.writer.chunk);
  }

  lemma LookedUp(cfg: Config, s: State, idx: nat)
    requires cfg.InCap(idx)
    ensures idx in s.dirty.chunks ==> ViewChunk(cfg, s, idx) == s.dirty.chunks[idx].data
    ensures idx !in s.dirty.chunks && idx in s.queue.chunks ==> ViewChunk(cfg, s, idx) == s.queue.chunks[idx].data
    ensures idx !in s.dirty.chunks && idx !in s.queue.chunks ==> ViewChunk(cfg, s, idx) == Chunk(s.inner, cfg.chunkSize, idx)
  {
  }

  lemma InsertWriterKnows(cfg: Config, s: State, t: State, op: Op, c: Cursor)
    requires cfg.Ok() && op.InRange(cfg) && op.Fits(cfg, c) && Progress(cfg, s, op)
    requires t.writer == Writing(op.(done := op.done + c.take))
    requires FlatView(cfg, t) == Splice(FlatView(cfg, s), op.offset + op.done, op.Patch(c))
    ensures WriterKnows(cfg, t)
  {
    ReachedMore(cfg, FlatView(cfg, s), op, c);
  }

  lemma ReachedMore(cfg: Config, flat: Bytes, op: Op, c: Cursor)
    requires op.InRange(cfg) && op.Fits(cfg, c) && Reached(cfg, flat, op)
    ensures Reached(cfg, Splice(flat, op.offset + op.done, op.Patch(c)), op.(done := op.done + c.take))
  {
    SpliceMore(op.base, op.offset, op.data, op.done, c.take);
  }

  /** The three-place lookup finds the view's chunk although the worker moves it meanwhile. */
  lemma LookWriterKnows(cfg: Config, s: State, l: LoadStep)
    requires cfg.Ok() && Sizes(cfg, s) && WriterKnows(cfg, s) && LoadEnabled(cfg, s, l)
    requires l.LookDirty? || l.LookQueue? || l.ReadInner?
    ensures WriterKnows(cfg, LoadNext(cfg, s, l))
  {
    LoadKeepsView(cfg, s, l);
    var op := s.writer.op;
    var c := if l.LookDirty? then l.c else s.writer.c;
    UnderCursor(cfg, op, c);
    LookedUp(cfg, s, c.idx);
  }

  lemma PersistWriterKnows(cfg: Config, s: State, ok: bool)
    requires Inv(cfg, s) && LoadEnabled(cfg, s, Persist(ok))
    ensures WriterKnows(cfg, LoadNext(cfg, s, Persist(ok)))
  {
    LoadKeepsView(cfg, s, Persist(ok));
    var op, c := s.writer.op, s.writer.c;
    SpliceAgree(cfg, c.idx, s.writer.chunk, ViewChunk(cfg, s, c.idx), c.within, op.Patch(c));
  }

  lemma InsertKnows(cfg: Config, s: State)
    requires cfg.Ok() && Sizes(cfg, s) && WriterKnows(cfg, s) && LoadEnabled(cfg, s, Insert)
    ensures WriterKnows(cfg, LoadNext(cfg, s, Insert))
  {
    var op, c, t := s.writer.op, s.writer.c, LoadNext(cfg, s, Insert);
    assert t.writer == Writing(op.(done := op.done + c.take));
    InsertSplices(cfg, s);
    InsertWriterKnows(cfg, s, t, op, c);
  }

  lemma LoadWriterKnows(cfg: Config, s: State, l: LoadStep)
    requires Inv(cfg, s) && LoadEnabled(cfg, s, l)
    ensures WriterKnows(cfg, LoadNext(cfg, s, l))
  {
    match l
    case BeginWrite(op) => LoadBegins(cfg, s, op);
    case Insert => InsertKnows(cfg, s);
    case Persist(ok) => PersistWriterKnows(cfg, s, ok);
    case ChunksDone => LoadKeepsView(cfg, s, l);
    case LookDirty(_) => LookWriterKnows(cfg, s, l);
    case LookQueue => LookWriterKnows(cfg, s, l);
    case ReadInner(_) => LookWriterKnows(cfg, s, l);
  }

  lemma LoadBegins(cfg: Config, s: State, op: Op)
    requires cfg.Ok() && LoadEnabled(cfg, s, BeginWrite(op))
    ensures Progress(cfg, LoadNext(cfg, s, BeginWrite(op)), op)
  {
    LoadKeepsView(cfg, s, BeginWrite(op));
    if op.offset <= |op.base| {
      assert Splice(op.base, op.offset, []) == op.base;
    }
  }

  lemma EvictWriterKnows(cfg: Config, s: State, l: EvictStep)
    requires cfg.Ok() && WriterKnows(cfg, s) && s.dirty.Counted() && EvictEnabled(cfg, s, l)
    requires View(cfg, EvictNext(cfg, s, l)) == View(cfg, s)
    ensures WriterKnows(cfg, EvictNext(cfg, s, l))
  {
    match l
    case EndWrite =>
    case _ =>
  }

  /** What a step of another thread has to leave alone for the writer to stay right. */
  ghost predicate LeavesWriter(cfg: Config, s: State, t: State) {
    && t.writer == s.writer
    && View(cfg, t) == View(cfg, s)
    && (forall i :: i in t.dirty.chunks ==> i in s.dirty.chunks)
    && (forall i :: i in t.queue.chunks ==> i in s.queue.chunks || i in s.dirty.chunks)
    && t.dirty.used <= s.dirty.used
    && (s.writer.Victim? || s.writer.VictimPut? || s.writer.VictimGone? ==> t.dirty == s.dirty && t.inner == s.inner)
  }

  lemma WriterUndisturbed(cfg: Config, s: State, t: State)
    requires cfg.Ok() && WriterKnows(cfg, s) && LeavesWriter(cfg, s, t)
    ensures WriterKnows(cfg, t)
  {
    match s.writer
    case Resting =>
    case _ =>
  }

  lemma WorkWriterKnows(cfg: Config, s: State, l: WorkStep)
    requires Inv(cfg, s) && WorkEnabled(cfg, s, l)
    ensures WriterKnows(cfg, WorkNext(cfg, s, l))
  {
    WorkKeepsView(cfg, s, l);
    WorkLeavesWriter(cfg, s, l);
    WriterUndisturbed(cfg, s, WorkNext(cfg, s, l));
  }

  lemma WorkLeavesWriter(cfg: Config, s: State, l: WorkStep)
    requires Handshake(cfg, s) && s.dirty.Counted() && WorkEnabled(cfg, s, l)
    requires View(cfg, WorkNext(cfg, s, l)) == View(cfg, s)
    ensures LeavesWriter(cfg, s, WorkNext(cfg, s, l))
  {
    var t := WorkNext(cfg, s, l);
    match l
    case Handoff(idx) => DirtyRemoveCounted(s.dirty, idx);
    case _ =>
      assert t.writer == s.writer && t.dirty == s.dirty && t.queue.chunks.Keys <= s.queue.chunks.Keys;
  }

  lemma AdminWriterKnows(cfg: Config, s: State, l: AdminStep)
    requires Inv(cfg, s) && AdminEnabled(cfg, s, l)
    ensures WriterKnows(cfg, AdminNext(cfg, s, l))
  {
    if !l.Take? && !l.PutJob? {
      AdminKeepsView(cfg, s, l);
    }
    match l
    case Release =>
    case _ =>
  }

  // ------------------------------------------------------- flush and discard

  lemma LoadAdminKnows(cfg: Config, s: State, l: LoadStep)
    requires Inv(cfg, s) && LoadEnabled(cfg, s, l)
    ensures AdminKnows(cfg, LoadNext(cfg, s, l))
  {
    match l
    case ChunksDone =>
    case _ =>
  }

  lemma EvictAdminKnows(cfg: Config, s: State, l: EvictStep)
    requires Inv(cfg, s) && EvictEnabled(cfg, s, l)
    ensures AdminKnows(cfg, EvictNext(cfg, s, l))
  {
    match l
    case EndWrite =>
    case _ =>
  }

  lemma WorkAdminKnows(cfg: Config, s: State, l: WorkStep)
    requires Inv(cfg, s) && WorkEnabled(cfg, s, l)
    ensures AdminKnows(cfg, WorkNext(cfg, s, l))
  {
    WorkKeepsView(cfg, s, l);
    match l
    case Nap =>
    case _ =>
  }

  lemma DataUnion(inner: Image, q: map<nat, Held>, d: map<nat, Held>)
    ensures inner + Data(q + d) == inner + Data(q) + Data(d)
  {
  }

  lemma TakeKnows(cfg: Config, s: State, jobs: seq<Job>)
    requires Inv(cfg, s) && AdminEnabled(cfg, s, Take(jobs))
    ensures AdminKnows(cfg, AdminNext(cfg, s, Take(jobs)))
  {
    DataUnion(s.inner, s.queue.chunks, s.dirty.chunks);
  }

  /** Putting the first drained job changes nothing of inner-plus-jobs. */
  lemma PutJobKeeps(cfg: Config, inner: Image, jobs: seq<Job>)
    requires |jobs| > 0
    ensures Visible(cfg, inner[jobs[0].idx := jobs[0].held.data] + Data(JobMap(jobs)))
         == Visible(cfg, inner + Data(JobMap(jobs)))
  {
  }

  lemma DoneJobKeeps(cfg: Config, inner: Image, jobs: seq<Job>)
    requires |jobs| > 0 && Unique(jobs)
    requires cfg.InCap(jobs[0].idx) ==> jobs[0].idx in inner && inner[jobs[0].idx] == jobs[0].held.data
    ensures Visible(cfg, inner + Data(JobMap(jobs[1..]))) == Visible(cfg, inner + Data(JobMap(jobs)))
  {
    var head, tail := jobs[0], JobMap(jobs[1..]);
    assert JobMap(jobs) == tail[head.idx := head.held];
    var a, b := Visible(cfg, inner + Data(tail)), Visible(cfg, inner + Data(JobMap(jobs)));
    forall i ensures (i in a <==> i in b) && (i in a ==> a[i] == b[i]) {
    }
  }

  lemma PutJobKnows(cfg: Config, s: State, put: Put)
    requires AdminKnows(cfg, s) && AdminEnabled(cfg, s, PutJob(put))
    ensures AdminKnows(cfg, AdminNext(cfg, s, PutJob(put)))
  {
    PutJobKeeps(cfg, s.inner, s.admin.jobs);
  }

  lemma UnlinkJobKnows(cfg: Config, s: State, ok: bool)
    requires Handshake(cfg, s) && Sizes(cfg, s) && AdminKnows(cfg, s) && AdminEnabled(cfg, s, UnlinkJob(ok))
    ensures AdminKnows(cfg, AdminNext(cfg, s, UnlinkJob(ok)))
  {
    DoneJobKeeps(cfg, s.inner, s.admin.jobs);
  }

  lemma ResumeKnows(cfg: Config, s: State)
    requires Handshake(cfg, s) && AdminKnows(cfg, s) && AdminEnabled(cfg, s, Resume)
    ensures AdminKnows(cfg, AdminNext(cfg, s, Resume))
  {
    assert s.inner + Data(JobMap(s.admin.jobs)) == s.inner;
  }

  lemma AdminAdminKnows(cfg: Config, s: State, l: AdminStep)
    requires Inv(cfg, s) && AdminEnabled(cfg, s, l)
    ensures AdminKnows(cfg, AdminNext(cfg, s, l))
  {
    match l
    case Take(jobs) => TakeKnows(cfg, s, jobs);
    case PutJob(put) => PutJobKnows(cfg, s, put);
    case UnlinkJob(ok) => UnlinkJobKnows(cfg, s, ok);
    case Resume => ResumeKnows(cfg, s);
    case _ =>
  }
}
