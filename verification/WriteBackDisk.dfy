/**
 Disk mode: what a restart finds after a crash between any two steps, the files of the
 cache over the inner store. Each step is followed by the events it causes in that
 array: the patch of a write, or a range falling to another copy of its chunk.
 */
module WriteBackDisk {
  import opened Volume
  import opened WriteBackState
  import opened WriteBackSteps
  import opened WriteBackInv
  import opened WriteBackView
  import opened WriteBackRecovery

  /** What can happen to a flat array. */
  datatype Event =
    | Patched(at: nat, bytes: Bytes)   // the patch of a write
    | Fell(at: nat, bytes: Bytes)    // a range now shows another copy of its chunk
    | Sank(flat: Bytes)              // everything held above the inner store is gone

  function Apply(flat: Bytes, e: Event): Bytes {
    match e
    case Patched(at, bytes) => if at + |bytes| <= |flat| then Splice(flat, at, bytes) else flat
    case Fell(at, bytes) => if at + |bytes| <= |flat| then Splice(flat, at, bytes) else flat
    case Sank(below) => below
  }

  function Replay(flat: Bytes, es: seq<Event>): Bytes
    decreases |es|
  {
    if es == [] then flat else Replay(Apply(flat, es[0]), es[1..])
  }

  /** The events that are patches of writes. */
  function Writes(es: seq<Event>): seq<Event>
    decreases |es|
  {
    if es == [] then []
    else (if es[0].Patched? then [es[0]] else []) + Writes(es[1..])
  }

  lemma {:induction false} ReplayJoin(flat: Bytes, a: seq<Event>, b: seq<Event>)
    ensures Replay(flat, a + b) == Replay(Replay(flat, a), b)
    decreases |a|
  {
    if a == [] {
      assert a + b == b;
    } else {
      assert (a + b)[0] == a[0] && (a + b)[1..] == a[1..] + b;
      ReplayJoin(Apply(flat, a[0]), a[1..], b);
    }
  }

  lemma {:induction false} WritesJoin(a: seq<Event>, b: seq<Event>)
    ensures Writes(a + b) == Writes(a) + Writes(b)
    decreases |a|
  {
    if a == [] {
      assert a + b == b;
    } else {
      assert (a + b)[0] == a[0] && (a + b)[1..] == a[1..] + b;
      WritesJoin(a[1..], b);
    }
  }

  ghost predicate OnlyWrites(es: seq<Event>) {
    forall k :: 0 <= k < |es| ==> es[k].Patched?
  }

  lemma {:induction false} WritesAll(es: seq<Event>)
    requires OnlyWrites(es)
    ensures Writes(es) == es
    decreases |es|
  {
    if es != [] {
      WritesAll(es[1..]);
      assert es == [es[0]] + es[1..];
    }
  }

  // ------------------------------------------------------ one chunk of an array

  /** The chunk a restart would find. */
  ghost function OnDisk(cfg: Config, s: State, i: nat): Bytes {
    Chunk(Recovered(cfg, s), cfg.chunkSize, i)
  }

  ghost function Below(cfg: Config, s: State, i: nat): Bytes {
    Chunk(s.inner, cfg.chunkSize, i)
  }

  /** The range of chunk `idx` falls to the bytes of `chunk`. */
  function FallsTo(cfg: Config, idx: nat, chunk: Bytes): Event {
    Fell(idx * cfg.chunkSize, chunk[..Min(|chunk|, Valid(cfg.chunkSize, cfg.capacity, idx))])
  }

  /** Images that differ in one chunk differ in one range of the flat array. */
  lemma ChunkFalls(cfg: Config, v: Image, w: Image, idx: nat, x: Bytes)
    requires cfg.Ok() && Whole(v, cfg.chunkSize) && Whole(w, cfg.chunkSize) && cfg.InCap(idx)
    requires forall i :: i != idx ==> Chunk(w, cfg.chunkSize, i) == Chunk(v, cfg.chunkSize, i)
    requires Agree(cfg, idx, Chunk(w, cfg.chunkSize, idx), x)
    ensures FlatOf(cfg, w) == Apply(FlatOf(cfg, v), FallsTo(cfg, idx, x))
  {
    var cs, cap := cfg.chunkSize, cfg.capacity;
    var n := Valid(cs, cap, idx);
    var patched := v[idx := Splice(Chunk(v, cs, idx), 0, x[..n])];
    FlatSplice(v, cs, cap, idx, 0, x[..n]);
    assert Chunk(patched, cs, idx)[..n] == x[..n];
    forall i ensures SameChunk(w, patched, cs, cap, i) {
    }
    FlatAgree(w, patched, cs, cap);
  }

  /** Images whose chunks agree below the capacity are one flat array, and only those. */
  lemma FlatIff(cfg: Config, v: Image, w: Image)
    requires cfg.Ok() && Whole(v, cfg.chunkSize) && Whole(w, cfg.chunkSize)
    ensures FlatOf(cfg, v) == FlatOf(cfg, w) <==>
            forall i :: cfg.InCap(i) ==> Agree(cfg, i, Chunk(v, cfg.chunkSize, i), Chunk(w, cfg.chunkSize, i))
  {
    var cs, cap := cfg.chunkSize, cfg.capacity;
    if FlatOf(cfg, v) == FlatOf(cfg, w) {
      forall i | cfg.InCap(i) ensures Agree(cfg, i, Chunk(v, cs, i), Chunk(w, cs, i)) {
        FlatSlice(v, cs, cap, i, 0, Valid(cs, cap, i));
        FlatSlice(w, cs, cap, i, 0, Valid(cs, cap, i));
      }
    }
    if forall i :: cfg.InCap(i) ==> Agree(cfg, i, Chunk(v, cs, i), Chunk(w, cs, i)) {
      forall i ensures SameChunk(v, w, cs, cap, i) {
        assert cfg.InCap(i) ==> Agree(cfg, i, Chunk(v, cs, i), Chunk(w, cs, i));
      }
      FlatAgree(v, w, cs, cap);
    }
  }

  /** Copies laid over an image change the array iff one of them differs from what it covers. */
  lemma OverlayIff(cfg: Config, base: Image, over: Image)
    requires cfg.Ok() && Whole(base, cfg.chunkSize) && Whole(over, cfg.chunkSize)
    ensures FlatOf(cfg, Visible(cfg, base)) == FlatOf(cfg, Visible(cfg, base + over)) <==>
            forall i :: i in over && cfg.InCap(i) ==> Agree(cfg, i, Chunk(base, cfg.chunkSize, i), over[i])
  {
    var v, w := Visible(cfg, base), Visible(cfg, base + over);
    FlatIff(cfg, v, w);
    var cs := cfg.chunkSize;
    forall i | cfg.InCap(i)
      ensures Agree(cfg, i, Chunk(v, cs, i), Chunk(w, cs, i))
         <==> (i in over ==> Agree(cfg, i, Chunk(base, cs, i), over[i]))
    {
    }
  }

  // ------------------------------------------------- what each step does on disk

  /** Outside the patched range two copies of a chunk show the same bytes. */
  ghost predicate SameAround(cfg: Config, c: Cursor, a: Bytes, b: Bytes) {
    && |a| == cfg.chunkSize == |b|
    && forall k :: 0 <= k < Valid(cfg.chunkSize, cfg.capacity, c.idx) && !(c.within <= k < c.within + c.take)
         ==> a[k] == b[k]
  }

  function PatchOf(op: Op, c: Cursor): Event {
    if op.done + c.take <= |op.data| then Patched(op.offset + op.done, op.Patch(c)) else Patched(0, [])
  }

  /** What the writer is about to insert. */
  function InHand(s: State): Event {
    if s.writer.Persisted? then PatchOf(s.writer.op, s.writer.c) else Patched(0, [])
  }

  /**
   The file of the patched chunk is written whole, from the copy that was loaded: if the
   disk showed other bytes around the patch, those fall first.
   */
  ghost function PersistEvents(cfg: Config, op: Op, c: Cursor, chunk: Bytes, disk: Bytes): seq<Event> {
    (if SameAround(cfg, c, chunk, disk) then [] else [FallsTo(cfg, c.idx, chunk)]) + [PatchOf(op, c)]
  }

  ghost function FallEvents(cfg: Config, idx: nat, disk: Bytes, to: Bytes): seq<Event> {
    if cfg.InCap(idx) && !Agree(cfg, idx, disk, to) then [FallsTo(cfg, idx, to)] else []
  }

  ghost function LoadEvents(cfg: Config, s: State, l: LoadStep): seq<Event> {
    match l
    case Persist(ok) =>
      if ok && s.writer.Loaded?
      then PersistEvents(cfg, s.writer.op, s.writer.c, s.writer.chunk, OnDisk(cfg, s, s.writer.c.idx)) else []
    case _ => []
  }

  ghost function WorkEvents(cfg: Config, s: State, l: WorkStep): seq<Event> {
    match l
    case Unlink(ok) =>
      if Race(s, l) then FallEvents(cfg, s.worker.idx, OnDisk(cfg, s, s.worker.idx), Below(cfg, s, s.worker.idx)) else []
    case WorkerPut(put) =>
      if put.Lands() && s.worker.Putting? && s.worker.job.idx !in s.files
      then FallEvents(cfg, s.worker.job.idx, OnDisk(cfg, s, s.worker.job.idx), s.worker.job.held.data) else []
    case _ => []
  }

  ghost function AdminEvents(cfg: Config, s: State, l: AdminStep): seq<Event> {
    if !Drained(s.admin) || |s.admin.jobs| == 0 then []
    else
      var job := s.admin.jobs[0];
      match l
      case PutJob(put) =>
        if put.Lands() && job.idx !in s.files
        then FallEvents(cfg, job.idx, OnDisk(cfg, s, job.idx), job.held.data) else []
      case DropJob(ok) =>
        if ok then FallEvents(cfg, job.idx, OnDisk(cfg, s, job.idx), Below(cfg, s, job.idx)) else []
      case _ => []
  }

  ghost function DiskEvents(cfg: Config, s: State, l: Label): seq<Event> {
    match l
    case Load(a) => LoadEvents(cfg, s, a)
    case Evict(_) => []
    case Work(a) => WorkEvents(cfg, s, a)
    case Manage(a) => AdminEvents(cfg, s, a)
  }

  /** From `v` to `w` the array changes by these events; exactly the patches, iff none is a fall. */
  ghost predicate Follows(cfg: Config, v: Image, es: seq<Event>, w: Image)
    requires cfg.Ok()
  {
    && FlatOf(cfg, w) == Replay(FlatOf(cfg, v), es)
    && (OnlyWrites(es) <==> FlatOf(cfg, w) == Replay(FlatOf(cfg, v), Writes(es)))
  }

  lemma DiskWhole(cfg: Config, s: State)
    requires Whole(s.inner, cfg.chunkSize) && Whole(s.files, cfg.chunkSize)
    ensures Whole(Recovered(cfg, s), cfg.chunkSize)
  {
  }

  lemma NoEvents(cfg: Config, s: State, t: State)
    requires cfg.Ok() && Recovered(cfg, t) == Recovered(cfg, s)
    ensures Follows(cfg, Recovered(cfg, s), [], Recovered(cfg, t))
  {
  }

  /** One chunk of the array changes to `to`. */
  lemma OneFalls(cfg: Config, v: Image, w: Image, idx: nat, to: Bytes)
    requires cfg.Ok() && Whole(v, cfg.chunkSize) && Whole(w, cfg.chunkSize) && |to| == cfg.chunkSize
    requires forall i :: i != idx ==> Chunk(w, cfg.chunkSize, i) == Chunk(v, cfg.chunkSize, i)
    requires cfg.InCap(idx) ==> Agree(cfg, idx, Chunk(w, cfg.chunkSize, idx), to)
    ensures Follows(cfg, v, FallEvents(cfg, idx, Chunk(v, cfg.chunkSize, idx), to), w)
  {
    var disk := Chunk(v, cfg.chunkSize, idx);
    FlatIff(cfg, v, w);
    if cfg.InCap(idx) && !Agree(cfg, idx, disk, to) {
      ChunkFalls(cfg, v, w, idx, to);
      assert FallEvents(cfg, idx, disk, to) == [FallsTo(cfg, idx, to)];
    }
  }

  /** A chunk that agrees with the patched one: the array takes the patch. */
  lemma PatchApplies(cfg: Config, v: Image, op: Op, c: Cursor, chunk: Bytes)
    requires cfg.Ok() && Whole(v, cfg.chunkSize) && op.InRange(cfg) && op.Fits(cfg, c)
    requires Agree(cfg, c.idx, chunk, Splice(Chunk(v, cfg.chunkSize, c.idx), c.within, op.Patch(c)))
    ensures Whole(v[c.idx := chunk], cfg.chunkSize)
    ensures FlatOf(cfg, v[c.idx := chunk]) == Apply(FlatOf(cfg, v), PatchOf(op, c))
  {
    PatchFlat(cfg, v, op, c, chunk);
  }

  /** The patched chunk is written over the loaded one, whatever the disk showed before. */
  lemma PersistFollows(cfg: Config, v: Image, op: Op, c: Cursor, chunk: Bytes)
    requires cfg.Ok() && Whole(v, cfg.chunkSize) && op.InRange(cfg) && op.Fits(cfg, c) && |chunk| == cfg.chunkSize
    ensures Whole(v[c.idx := Splice(chunk, c.within, op.Patch(c))], cfg.chunkSize)
    ensures Follows(cfg, v, PersistEvents(cfg, op, c, chunk, Chunk(v, cfg.chunkSize, c.idx)),
                    v[c.idx := Splice(chunk, c.within, op.Patch(c))])
  {
    var cs := cfg.chunkSize;
    var disk := Chunk(v, cs, c.idx);
    var patch := op.Patch(c);
    var w := v[c.idx := Splice(chunk, c.within, patch)];
    var u := v[c.idx := Splice(disk, c.within, patch)];
    UnderCursor(cfg, op, c);
    PatchApplies(cfg, v, op, c, Splice(disk, c.within, patch));
    AroundIff(cfg, c, chunk, disk, patch);
    FlatIff(cfg, u, w);
    assert FlatOf(cfg, u) == Replay(FlatOf(cfg, v), [PatchOf(op, c)]);
    assert SameAround(cfg, c, chunk, disk) <==> FlatOf(cfg, u) == FlatOf(cfg, w) by {
      assert forall i :: i != c.idx ==> Chunk(u, cs, i) == Chunk(w, cs, i) && |Chunk(u, cs, i)| == cs;
    }
    if SameAround(cfg, c, chunk, disk) {
      assert PersistEvents(cfg, op, c, chunk, disk) == [PatchOf(op, c)];
    } else {
      assert PersistEvents(cfg, op, c, chunk, disk) == [FallsTo(cfg, c.idx, chunk), PatchOf(op, c)];
      PersistFell(cfg, v, op, c, chunk);
      FallThenPatch(FlatOf(cfg, v), FallsTo(cfg, c.idx, chunk), PatchOf(op, c));
    }
  }

  lemma AroundIff(cfg: Config, c: Cursor, a: Bytes, b: Bytes, patch: Bytes)
    requires |a| == cfg.chunkSize == |b| && c.within + c.take <= cfg.chunkSize && |patch| == c.take
    ensures SameAround(cfg, c, a, b) <==> Agree(cfg, c.idx, Splice(a, c.within, patch), Splice(b, c.within, patch))
  {
    var n := Valid(cfg.chunkSize, cfg.capacity, c.idx);
    var x, y := Splice(a, c.within, patch), Splice(b, c.within, patch);
    if SameAround(cfg, c, a, b) {
      forall k | 0 <= k < n ensures x[..n][k] == y[..n][k] {
      }
    }
    if Agree(cfg, c.idx, x, y) {
      forall k | 0 <= k < n && !(c.within <= k < c.within + c.take) ensures a[k] == b[k] {
        assert x[..n][k] == y[..n][k];
      }
    }
  }

  lemma FallThenPatch(flat: Bytes, f: Event, p: Event)
    requires f.Fell? && p.Patched?
    ensures Replay(flat, [f, p]) == Apply(Apply(flat, f), p) && Writes([f, p]) == [p]
  {
    assert [f, p] == [f] + [p];
    ReplayJoin(flat, [f], [p]);
    WritesJoin([f], [p]);
  }

  /** The losing case: the range falls to the loaded copy, then takes the patch. */
  lemma PersistFell(cfg: Config, v: Image, op: Op, c: Cursor, chunk: Bytes)
    requires cfg.Ok() && Whole(v, cfg.chunkSize) && op.InRange(cfg) && op.Fits(cfg, c) && |chunk| == cfg.chunkSize
    ensures FlatOf(cfg, v[c.idx := Splice(chunk, c.within, op.Patch(c))])
         == Apply(Apply(FlatOf(cfg, v), FallsTo(cfg, c.idx, chunk)), PatchOf(op, c))
  {
    var fell := v[c.idx := chunk];
    var patched := Splice(chunk, c.within, op.Patch(c));
    assert cfg.InCap(c.idx) by { UnderCursor(cfg, op, c); }
    ChunkFalls(cfg, v, fell, c.idx, chunk);
    PatchApplies(cfg, fell, op, c, patched);
    assert fell[c.idx := patched] == v[c.idx := patched];
  }

  lemma FileShows(cfg: Config, s: State, t: State, idx: nat, x: Bytes)
    requires t.files == s.files[idx := x] && t.inner == s.inner && cfg.InCap(idx)
    ensures Recovered(cfg, t) == Recovered(cfg, s)[idx := x]
  {
  }

  lemma PersistDisk(cfg: Config, s: State, ok: bool, loose: set<nat>)
    requires Inv(cfg, s) && cfg.disk && FilesOk(cfg, s, loose) && LoadEnabled(cfg, s, Persist(ok))
    ensures Follows(cfg, Recovered(cfg, s), LoadEvents(cfg, s, Persist(ok)), Recovered(cfg, LoadNext(cfg, s, Persist(ok))))
  {
    var op, c, chunk := s.writer.op, s.writer.c, s.writer.chunk;
    var t, v := LoadNext(cfg, s, Persist(ok)), Recovered(cfg, s);
    if ok {
      DiskWhole(cfg, s);
      UnderCursor(cfg, op, c);
      FileShows(cfg, s, t, c.idx, Splice(chunk, c.within, op.Patch(c)));
      PersistFollows(cfg, v, op, c, chunk);
    } else {
      NoEvents(cfg, s, t);
    }
  }

  lemma LoadDisk(cfg: Config, s: State, l: LoadStep, loose: set<nat>)
    requires Inv(cfg, s) && cfg.disk && FilesOk(cfg, s, loose) && LoadEnabled(cfg, s, l)
    ensures Follows(cfg, Recovered(cfg, s), LoadEvents(cfg, s, l), Recovered(cfg, LoadNext(cfg, s, l)))
  {
    match l
    case Persist(ok) => PersistDisk(cfg, s, ok, loose);
    case _ => NoEvents(cfg, s, LoadNext(cfg, s, l));
  }

  lemma SameFilesAndInner(cfg: Config, s: State, t: State)
    requires t.inner == s.inner && t.files == s.files
    ensures Recovered(cfg, t) == Recovered(cfg, s)
  {
  }

  /** A put is hidden by the file of its chunk. */
  lemma PutHidden(cfg: Config, s: State, t: State, idx: nat, data: Bytes)
    requires t.files == s.files && t.inner == s.inner[idx := data] && idx in s.files
    ensures Recovered(cfg, t) == Recovered(cfg, s)
  {
  }

  lemma PutShows(cfg: Config, s: State, t: State, idx: nat, data: Bytes)
    requires cfg.Ok() && Whole(s.inner, cfg.chunkSize) && Whole(s.files, cfg.chunkSize) && |data| == cfg.chunkSize
    requires t.files == s.files && t.inner == s.inner[idx := data] && idx !in s.files && cfg.InCap(idx)
    ensures Follows(cfg, Recovered(cfg, s), FallEvents(cfg, idx, OnDisk(cfg, s, idx), data), Recovered(cfg, t))
  {
    DiskWhole(cfg, s);
    DiskWhole(cfg, t);
    OneFalls(cfg, Recovered(cfg, s), Recovered(cfg, t), idx, data);
  }

  /** Without its file a chunk shows what the inner store holds. */
  lemma UnlinkShows(cfg: Config, s: State, t: State, idx: nat)
    requires cfg.Ok() && Whole(s.inner, cfg.chunkSize) && Whole(s.files, cfg.chunkSize)
    requires t.files == s.files - {idx} && t.inner == s.inner
    ensures Follows(cfg, Recovered(cfg, s), FallEvents(cfg, idx, OnDisk(cfg, s, idx), Below(cfg, s, idx)), Recovered(cfg, t))
  {
    DiskWhole(cfg, s);
    DiskWhole(cfg, t);
    OneFalls(cfg, Recovered(cfg, s), Recovered(cfg, t), idx, Below(cfg, s, idx));
  }

  /** The file that goes only repeated the inner store. */
  lemma UnlinkHidden(cfg: Config, s: State, t: State, idx: nat)
    requires t.files == s.files - {idx} && t.inner == s.inner
    requires idx in s.files && cfg.InCap(idx) ==> idx in s.inner && s.inner[idx] == s.files[idx]
    ensures Recovered(cfg, t) == Recovered(cfg, s)
  {
    var a, b := Recovered(cfg, t), Recovered(cfg, s);
    forall i ensures (i in a <==> i in b) && (i in a ==> a[i] == b[i]) {
    }
  }

  lemma EvictDisk(cfg: Config, s: State, l: EvictStep, loose: set<nat>)
    requires Inv(cfg, s) && FilesOk(cfg, s, loose) && Unlinking(s, loose) && EvictEnabled(cfg, s, l)
    ensures Follows(cfg, Recovered(cfg, s), [], Recovered(cfg, EvictNext(cfg, s, l)))
  {
    var t := EvictNext(cfg, s, l);
    match l {
      case EvictPut(put) =>
        assert OneOk(cfg, s, loose, s.writer.idx);
        if put.Lands() && cfg.InCap(s.writer.idx) {
          PutHidden(cfg, s, t, s.writer.idx, s.writer.held.data);
        } else {
          SameFilesAndInner(cfg, s, t);
        }
      case EvictUnlink(ok) =>
        assert OneOk(cfg, s, loose, s.writer.idx);
        if ok {
          UnlinkHidden(cfg, s, t, s.writer.idx);
        } else {
          SameFilesAndInner(cfg, s, t);
        }
      case _ => SameFilesAndInner(cfg, s, t);
    }
    NoEvents(cfg, s, t);
  }

  lemma UnlinkDisk(cfg: Config, s: State, ok: bool, loose: set<nat>)
    requires Inv(cfg, s) && FilesOk(cfg, s, loose) && Unlinking(s, loose) && WorkEnabled(cfg, s, Unlink(ok))
    ensures Follows(cfg, Recovered(cfg, s), WorkEvents(cfg, s, Unlink(ok)), Recovered(cfg, WorkNext(cfg, s, Unlink(ok))))
  {
    var t, idx := WorkNext(cfg, s, Unlink(ok)), s.worker.idx;
    assert OneOk(cfg, s, loose, idx);
    if Race(s, Unlink(ok)) {
      UnlinkShows(cfg, s, t, idx);
    } else {
      if ok && idx !in s.dirty.chunks {
        UnlinkHidden(cfg, s, t, idx);
      } else {
        SameFilesAndInner(cfg, s, t);
      }
      NoEvents(cfg, s, t);
    }
  }

  lemma WorkerPutDisk(cfg: Config, s: State, put: Put, loose: set<nat>)
    requires Inv(cfg, s) && FilesOk(cfg, s, loose) && WorkEnabled(cfg, s, WorkerPut(put))
    ensures Follows(cfg, Recovered(cfg, s), WorkEvents(cfg, s, WorkerPut(put)), Recovered(cfg, WorkNext(cfg, s, WorkerPut(put))))
  {
    var t, job := WorkNext(cfg, s, WorkerPut(put)), s.worker.job;
    if !put.Lands() || !cfg.InCap(job.idx) {
      SameFilesAndInner(cfg, s, t);
      NoEvents(cfg, s, t);
    } else if job.idx in s.files {
      PutHidden(cfg, s, t, job.idx, job.held.data);
      NoEvents(cfg, s, t);
    } else {
      PutShows(cfg, s, t, job.idx, job.held.data);
    }
  }

  lemma WorkDisk(cfg: Config, s: State, l: WorkStep, loose: set<nat>)
    requires Inv(cfg, s) && FilesOk(cfg, s, loose) && Unlinking(s, loose) && WorkEnabled(cfg, s, l)
    ensures Follows(cfg, Recovered(cfg, s), WorkEvents(cfg, s, l), Recovered(cfg, WorkNext(cfg, s, l)))
  {
    match l
    case Unlink(ok) => UnlinkDisk(cfg, s, ok, loose);
    case WorkerPut(put) => WorkerPutDisk(cfg, s, put, loose);
    case _ =>
      SameFilesAndInner(cfg, s, WorkNext(cfg, s, l));
      NoEvents(cfg, s, WorkNext(cfg, s, l));
  }

  lemma PutJobDisk(cfg: Config, s: State, put: Put, loose: set<nat>)
    requires Inv(cfg, s) && FilesOk(cfg, s, loose) && AdminEnabled(cfg, s, PutJob(put))
    ensures Follows(cfg, Recovered(cfg, s), AdminEvents(cfg, s, PutJob(put)), Recovered(cfg, AdminNext(cfg, s, PutJob(put))))
  {
    var t, job := AdminNext(cfg, s, PutJob(put)), s.admin.jobs[0];
    assert job.idx in JobMap(s.admin.jobs) && JobMap(s.admin.jobs)[job.idx] == job.held;
    if !put.Lands() || !cfg.InCap(job.idx) {
      SameFilesAndInner(cfg, s, t);
      NoEvents(cfg, s, t);
    } else if job.idx in s.files {
      PutHidden(cfg, s, t, job.idx, job.held.data);
      NoEvents(cfg, s, t);
    } else {
      PutShows(cfg, s, t, job.idx, job.held.data);
    }
  }

  lemma UnlinkJobDisk(cfg: Config, s: State, ok: bool, loose: set<nat>)
    requires Inv(cfg, s) && FilesOk(cfg, s, loose) && AdminEnabled(cfg, s, UnlinkJob(ok))
    ensures Recovered(cfg, AdminNext(cfg, s, UnlinkJob(ok))) == Recovered(cfg, s)
  {
    var t, job := AdminNext(cfg, s, UnlinkJob(ok)), s.admin.jobs[0];
    assert job.idx in JobMap(s.admin.jobs) && JobMap(s.admin.jobs)[job.idx] == job.held;
    assert OneOk(cfg, s, loose, job.idx);
    if ok {
      UnlinkHidden(cfg, s, t, job.idx);
    } else {
      SameFilesAndInner(cfg, s, t);
    }
  }

  lemma AdminDisk(cfg: Config, s: State, l: AdminStep, loose: set<nat>)
    requires Inv(cfg, s) && FilesOk(cfg, s, loose) && AdminEnabled(cfg, s, l)
    ensures Follows(cfg, Recovered(cfg, s), AdminEvents(cfg, s, l), Recovered(cfg, AdminNext(cfg, s, l)))
  {
    var t := AdminNext(cfg, s, l);
    match l
    case PutJob(put) => PutJobDisk(cfg, s, put, loose);
    case UnlinkJob(ok) =>
      UnlinkJobDisk(cfg, s, ok, loose);
      NoEvents(cfg, s, t);
    case DropJob(ok) =>
      if ok {
        UnlinkShows(cfg, s, t, s.admin.jobs[0].idx);
      } else {
        NoEvents(cfg, s, t);
      }
    case _ =>
      SameFilesAndInner(cfg, s, t);
      NoEvents(cfg, s, t);
  }

  // ------------------------------------------------------ the disk and the view

  /**
   Outside a drain, chunk by chunk: the disk shows the view, plus the one file written
   ahead of its chunk; a loose chunk shows its left-over file or, without one, the inner store.
   */
  lemma RecoversView(cfg: Config, s: State, loose: set<nat>, i: nat)
    requires Base(cfg, s) && FilesOk(cfg, s, loose) && !Drained(s.admin) && cfg.InCap(i)
    ensures i !in loose ==> OnDisk(cfg, s, i) == (if Pending(s, i) then s.writer.chunk else ViewChunk(cfg, s, i))
    ensures i in loose ==>
      && OnDisk(cfg, s, i) == (if i in s.files then s.files[i] else Below(cfg, s, i))
      && ViewChunk(cfg, s, i) == (if i in s.queue.chunks then s.queue.chunks[i].data else Below(cfg, s, i))
      && (i in s.queue.chunks ==> i !in s.files)
  {
    assert OneOk(cfg, s, loose, i);
    LookedUp(cfg, s, i);
  }

  /** While a flush drains, the disk shows what the flush set out to store. */
  lemma RecoversDrain(cfg: Config, s: State, loose: set<nat>, i: nat)
    requires Base(cfg, s) && AdminKnows(cfg, s) && FilesOk(cfg, s, loose) && i !in loose && cfg.InCap(i)
    requires Drained(s.admin) && s.admin.kind.Flush?
    ensures OnDisk(cfg, s, i) == Chunk(s.admin.at, cfg.chunkSize, i)
  {
    assert OneOk(cfg, s, loose, i);
    var v := Visible(cfg, s.inner + Data(JobMap(s.admin.jobs)));
    assert v == s.admin.at;
    assert i in v <==> i in s.inner || i in JobMap(s.admin.jobs);
  }

  /** A flush that fails leaves on disk, if nowhere else, all it had set out to store. */
  lemma FailedFlushRecovers(cfg: Config, s: State, l: AdminStep, loose: set<nat>, i: nat)
    requires Base(cfg, s) && AdminKnows(cfg, s) && FilesOk(cfg, s, loose) && i !in loose && cfg.InCap(i)
    requires AdminEnabled(cfg, s, l) && GivesUp(l) && s.admin.kind.Flush?
    ensures AdminNext(cfg, s, l).admin == Releasing(Flush, s.admin.at, false)
    ensures OnDisk(cfg, AdminNext(cfg, s, l), i) == Chunk(s.admin.at, cfg.chunkSize, i)
  {
    RecoversDrain(cfg, s, loose, i);
    var idx := s.admin.jobs[0].idx;
    assert idx in JobMap(s.admin.jobs);
    assert OneOk(cfg, s, loose, i);
  }

  /** A fall changes the array, exactly. */
  lemma FallsIff(cfg: Config, v: Image, w: Image, idx: nat, disk: Bytes, to: Bytes)
    requires cfg.Ok() && Follows(cfg, v, FallEvents(cfg, idx, disk, to), w)
    ensures FlatOf(cfg, w) != FlatOf(cfg, v) <==> cfg.InCap(idx) && !Agree(cfg, idx, disk, to)
  {
    var es := FallEvents(cfg, idx, disk, to);
    if es != [] {
      assert es == [es[0]] && es[0].Fell?;
      assert !OnlyWrites(es) && Writes(es) == [];
    }
  }

  /** The race, exactly: the unlink loses a write iff the file it removes was the queue's newer copy. */
  lemma UnlinkLoses(cfg: Config, s: State, loose: set<nat>)
    requires Inv(cfg, s) && FilesOk(cfg, s, loose) && Unlinking(s, loose)
    requires s.worker.Cleaning? && cfg.InCap(s.worker.idx)
    ensures WorkEnabled(cfg, s, Unlink(true))
    ensures var idx := s.worker.idx;
            FlatOf(cfg, Recovered(cfg, WorkNext(cfg, s, Unlink(true)))) != FlatOf(cfg, Recovered(cfg, s))
            <==> Race(s, Unlink(true)) && idx in s.files
                 && !Agree(cfg, idx, s.queue.chunks[idx].data, Below(cfg, s, idx))
  {
    var idx := s.worker.idx;
    UnlinkDisk(cfg, s, true, loose);
    if Race(s, Unlink(true)) {
      RecoversView(cfg, s, loose, idx);
      LookedUp(cfg, s, idx);
      FallsIff(cfg, Recovered(cfg, s), Recovered(cfg, WorkNext(cfg, s, Unlink(true))), idx,
               OnDisk(cfg, s, idx), Below(cfg, s, idx));
      assert OneOk(cfg, s, loose, idx);
    }
  }

  // --------------------------------------------------- when nothing falls at all

  /** Neither the race, nor a flush or discard that fails, nor a file dropped by a discard. */
  predicate Plain(s: State, l: Label) {
    match l
    case Work(a) => !Race(s, a)
    case Manage(a) => !GivesUp(a) && !a.DropJob?
    case _ => true
  }

  lemma PersistPlain(cfg: Config, s: State)
    requires Inv(cfg, s) && cfg.disk && FilesOk(cfg, s, {}) && LoadEnabled(cfg, s, Persist(true))
    ensures LoadEvents(cfg, s, Persist(true)) == [PatchOf(s.writer.op, s.writer.c)]
  {
    var op, c, chunk := s.writer.op, s.writer.c, s.writer.chunk;
    UnderCursor(cfg, op, c);
    RecoversView(cfg, s, {}, c.idx);
    var n, v := Valid(cfg.chunkSize, cfg.capacity, c.idx), ViewChunk(cfg, s, c.idx);
    assert Agree(cfg, c.idx, chunk, v);
    assert SameAround(cfg, c, chunk, v) by {
      forall k | 0 <= k < n ensures chunk[k] == v[k] {
        assert chunk[..n][k] == v[..n][k];
      }
    }
  }

  /** With every file in step, a plain step makes no range fall. */
  lemma PlainEvents(cfg: Config, s: State, l: Label)
    requires Inv(cfg, s) && cfg.disk && FilesOk(cfg, s, {}) && Enabled(cfg, s, l) && Plain(s, l)
    ensures OnlyWrites(DiskEvents(cfg, s, l)) && LooseNext(s, l, {}) == {}
  {
    match l
    case Load(a) => if a == Persist(true) { PersistPlain(cfg, s); }
    case Evict(_) =>
    case Work(a) => if a.WorkerPut? { assert OneOk(cfg, s, {}, s.worker.job.idx); }
    case Manage(a) =>
      if a.PutJob? {
        assert s.admin.jobs[0].idx in JobMap(s.admin.jobs);
        assert OneOk(cfg, s, {}, s.admin.jobs[0].idx);
      }
  }
}
