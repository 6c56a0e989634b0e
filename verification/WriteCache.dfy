/**
 The shared state of the write-back cache as the source keeps it, updated in place. Each
 method is one critical section; its contract is the step of the state machine it performs.
 */
module WriteCache {
  import opened Volume
  import opened WriteBackState
  import opened WriteBackInv
  import DiskCache

  datatype DirtyChunk = DirtyChunk(data: Bytes, tick: nat, writtenAt: nat)
  datatype BufferedChunk = BufferedChunk(data: Bytes, generation: nat)

  /** A job as the worker carries it. */
  datatype PutJob = PutJob(idx: nat, data: Bytes, generation: nat)

  ghost function DirtyHeld(chunks: map<nat, DirtyChunk>, stamps: map<nat, nat>): map<nat, Held> {
    map i | i in chunks && i in stamps :: Held(chunks[i].data, stamps[i])
  }

  ghost function BufferedHeld(chunks: map<nat, BufferedChunk>, stamps: map<nat, nat>): map<nat, Held> {
    map i | i in chunks && i in stamps :: Held(chunks[i].data, stamps[i])
  }

  lemma DirtyHeldPut(chunks: map<nat, DirtyChunk>, stamps: map<nat, nat>, i: nat, c: DirtyChunk, stamp: nat)
    ensures DirtyHeld(chunks[i := c], stamps[i := stamp]) == DirtyHeld(chunks, stamps)[i := Held(c.data, stamp)]
  {
  }

  lemma BufferedHeldPut(chunks: map<nat, BufferedChunk>, stamps: map<nat, nat>, i: nat, c: BufferedChunk, stamp: nat)
    ensures BufferedHeld(chunks[i := c], stamps[i := stamp]) == BufferedHeld(chunks, stamps)[i := Held(c.data, stamp)]
  {
  }

  // ------------------------------------------------------- the dirty chunks

  class DirtyState {
    var chunks: map<nat, DirtyChunk>
    var tick: nat
    var usedBytes: nat
    /** The insertions counted without the wrap of `tick`. */
    ghost var stamp: nat
    ghost var stamps: map<nat, nat>

    ghost predicate Valid()
      reads this
    {
      && tick == stamp % U64 && stamps.Keys == chunks.Keys
      && forall i :: i in chunks ==> chunks[i].tick == stamps[i] % U64
    }

    ghost function Abs(): Dirty
      requires Valid()
      reads this
    {
      Dirty(DirtyHeld(chunks, stamps), usedBytes, stamp)
    }

    constructor ()
      ensures Valid() && Abs() == Dirty(map[], 0, 0)
    {
      chunks, tick, usedBytes, stamp, stamps := map[], 0, 0, 0, map[];
    }

    method Insert(idx: nat, data: Bytes, now: nat)
      requires Valid()
      modifies this
      ensures Valid() && Abs() == old(Abs()).Insert(idx, data)
      ensures idx in chunks && chunks[idx].writtenAt == now
    {
      WrappingAdd(stamp);
      tick := (tick + 1) % U64;
      stamp := stamp + 1;
      if idx in chunks {
        usedBytes := SatSub(usedBytes, |chunks[idx].data|);
      }
      DirtyHeldPut(chunks, stamps, idx, DirtyChunk(data, tick, now), stamp);
      chunks := chunks[idx := DirtyChunk(data, tick, now)];
      stamps := stamps[idx := stamp];
      usedBytes := usedBytes + |data|;
    }

    method Remove(idx: nat) returns (r: Option<Bytes>)
      requires Valid()
      modifies this
      ensures Valid() && Abs() == old(Abs()).Remove(idx) && chunks == old(chunks) - {idx}
      ensures r == if idx in old(chunks) then Some(old(chunks)[idx].data) else None
    {
      if idx !in chunks {
        return None;
      }
      r := Some(chunks[idx].data);
      usedBytes := SatSub(usedBytes, |chunks[idx].data|);
      chunks := chunks - {idx};
      stamps := stamps - {idx};
    }

    /** Lets go of every chunk. */
    method Drain()
      requires Valid()
      modifies this
      ensures Valid() && chunks == map[] && Abs() == Dirty(map[], 0, old(stamp))
    {
      chunks, stamps, usedBytes := map[], map[], 0;
    }

    /** The chunk with the lowest tick. */
    method Oldest() returns (r: Option<nat>)
      requires Valid()
      ensures r.None? <==> chunks == map[]
      ensures r.Some? ==> Abs().Oldest(r.value)
    {
      r := None;
      var rest := chunks.Keys;
      while rest != {}
        invariant rest <= chunks.Keys && (r.None? <==> rest == chunks.Keys)
        invariant r.Some? ==> r.value in chunks
        invariant r.Some? ==> forall j :: j in chunks && j !in rest ==> chunks[r.value].tick <= chunks[j].tick
        decreases rest
      {
        var k :| k in rest;
        if r.None? || chunks[k].tick < chunks[r.value].tick {
          r := Some(k);
        }
        rest := rest - {k};
      }
    }

    ghost predicate QuietAt(now: nat, quiet: nat, i: nat)
      reads this
    {
      i in chunks && SatSub(now, chunks[i].writtenAt) >= quiet
    }

    ghost predicate NoneQuiet(now: nat, quiet: nat)
      reads this
    {
      forall i :: !QuietAt(now, quiet, i)
    }

    ghost predicate QuietLongest(now: nat, quiet: nat, idx: nat)
      reads this
    {
      QuietAt(now, quiet, idx) && forall i :: QuietAt(now, quiet, i) ==> chunks[idx].writtenAt <= chunks[i].writtenAt
    }

    /** Of the chunks not written for `quiet`, the one written longest ago. */
    method OldestQuiet(now: nat, quiet: nat) returns (r: Option<nat>)
      ensures r.None? <==> NoneQuiet(now, quiet)
      ensures r.Some? ==> QuietLongest(now, quiet, r.value)
    {
      r := None;
      var rest := chunks.Keys;
      while rest != {}
        invariant rest <= chunks.Keys
        invariant r.Some? ==> QuietAt(now, quiet, r.value)
        invariant forall i :: QuietAt(now, quiet, i) && i !in rest ==>
                    r.Some? && chunks[r.value].writtenAt <= chunks[i].writtenAt
        decreases rest
      {
        var k :| k in rest;
        if SatSub(now, chunks[k].writtenAt) >= quiet && (r.None? || chunks[k].writtenAt < chunks[r.value].writtenAt) {
          r := Some(k);
        }
        rest := rest - {k};
      }
    }
  }

  ghost function Besides(m: Image, rest: set<nat>): Image {
    map i | i in m && i !in rest :: m[i]
  }

  lemma BesidesMore(m: Image, rest: set<nat>, k: nat)
    requires k in m && k in rest
    ensures Besides(m, rest - {k}) == Besides(m, rest)[k := m[k]]
  {
  }

  lemma InsertReloads(d: Dirty, files: Image, idx: nat, data: Bytes)
    requires Reloads(d, files)
    ensures Reloads(d.Insert(idx, data), files[idx := data])
  {
    DirtyInsertCounted(d, idx, data);
    assert Data(d.Insert(idx, data).chunks) == files[idx := data];
  }

  /** Recovered chunks are inserted one by one, in no particular order. */
  method FromRecovered(files: Image, now: nat) returns (d: DirtyState)
    ensures fresh(d) && d.Valid() && Reloads(d.Abs(), files)
  {
    d := new DirtyState();
    NothingHeld();
    var rest := files.Keys;
    assert Data(d.Abs().chunks) == map[] == Besides(files, rest);
    while rest != {}
      invariant fresh(d) && d.Valid() && rest <= files.Keys && Reloads(d.Abs(), Besides(files, rest))
      decreases rest
    {
      var k :| k in rest;
      InsertReloads(d.Abs(), Besides(files, rest), k, files[k]);
      BesidesMore(files, rest, k);
      d.Insert(k, files[k], now);
      rest := rest - {k};
    }
    assert Besides(files, {}) == files;
  }

  /** The start of a disk cache: what the directory holds is dirty again. */
  method Recover(dir: DiskCache.Dir, chunkSize: nat, now: nat) returns (r: Outcome<DirtyState>)
    ensures r.Ok? <==> forall name :: name in dir && DiskCache.Considered(name) ==> |dir[name]| == chunkSize
    ensures r.Ok? ==> fresh(r.value) && r.value.Valid()
    ensures r.Ok? ==> forall files: DiskCache.Files :: DiskCache.Holds(dir, files) ==> Reloads(r.value.Abs(), files)
  {
    var loaded := DiskCache.LoadDiskCache(dir, chunkSize);
    if loaded.Err? {
      return Err(loaded.error);
    }
    forall files: DiskCache.Files | DiskCache.Holds(dir, files) ensures files == loaded.value {
      DiskCache.LoadsWhatIsHeld(dir, files, loaded.value);
    }
    var d := FromRecovered(loaded.value, now);
    r := Ok(d);
  }

  lemma WrappingAdd(stamp: nat)
    ensures (stamp % U64 + 1) % U64 == (stamp + 1) % U64
  {
  }

  // ------------------------------------------- the queue of snapshots to put

  class BufState {
    var chunks: map<nat, BufferedChunk>
    var order: seq<nat>
    var usedBytes: nat
    var inflight: Option<nat>
    ghost var stamps: map<nat, nat>

    ghost predicate Valid()
      reads this
    {
      && stamps.Keys == chunks.Keys
      && forall i :: i in chunks ==> chunks[i].generation == stamps[i] % U64
    }

    ghost function Abs(): Queue
      requires Valid()
      reads this
    {
      Queue(BufferedHeld(chunks, stamps), order, usedBytes, inflight)
    }

    constructor ()
      ensures Valid() && Abs() == NoQueue
    {
      chunks, order, usedBytes, inflight, stamps := map[], [], 0, None, map[];
    }

    /** `retain`: the order without `idx`. */
    method Retain(idx: nat)
      modifies this`order
      ensures order == Without(old(order), idx)
    {
      var kept: seq<nat> := [];
      var n := 0;
      while n < |order|
        invariant n <= |order| && order == old(order) && kept + Without(order[n..], idx) == Without(order, idx)
      {
        assert order[n..][1..] == order[n + 1..];
        if order[n] != idx {
          kept := kept + [order[n]];
        }
        n := n + 1;
      }
      order := kept;
    }

    method Push(idx: nat, data: Bytes, generation: nat, ghost stamp: nat)
      requires Valid() && generation == stamp % U64
      modifies this
      ensures Valid() && Abs() == old(Abs()).Push(idx, Held(data, stamp))
    {
      if idx in chunks {
        usedBytes := SatSub(usedBytes, |chunks[idx].data|);
        Retain(idx);
      }
      BufferedHeldPut(chunks, stamps, idx, BufferedChunk(data, generation), stamp);
      chunks := chunks[idx := BufferedChunk(data, generation)];
      stamps := stamps[idx := stamp];
      usedBytes := usedBytes + |data|;
      order := order + [idx];
    }

    method Remove(idx: nat)
      requires Valid()
      modifies this
      ensures Valid() && Abs() == old(Abs()).Remove(idx)
    {
      if idx !in chunks {
        return;
      }
      usedBytes := SatSub(usedBytes, |chunks[idx].data|);
      chunks := chunks - {idx};
      stamps := stamps - {idx};
      Retain(idx);
      if inflight == Some(idx) {
        inflight := None;
      }
    }

    method Clear()
      modifies this
      ensures Valid() && Abs() == NoQueue
    {
      chunks, order, usedBytes, inflight, stamps := map[], [], 0, None, map[];
    }
  }

  // ------------------------------------------------- sections over both

  datatype Move = Done | Blocked(idx: nat) | Moved(idx: nat)

  /** A job as the state machine sees it. */
  ghost predicate Same(job: PutJob, j: Job) {
    job.idx == j.idx && job.data == j.held.data && job.generation == j.held.Tick()
  }

  ghost predicate SameJobs(jobs: seq<PutJob>, js: seq<Job>) {
    |jobs| == |js| && forall k :: 0 <= k < |jobs| ==> Same(jobs[k], js[k])
  }

  /** What a map has outside `rest`. */
  ghost function Outside(m: map<nat, Held>, rest: set<nat>): map<nat, Held> {
    map i | i in m && i !in rest :: m[i]
  }

  class Core {
    const dirty: DirtyState
    const queue: BufState
    const cacheMax: nat
    const bufferMax: nat

    constructor (dirty: DirtyState, queue: BufState, cacheMax: nat, bufferMax: nat)
      ensures this.dirty == dirty && this.queue == queue && this.cacheMax == cacheMax && this.bufferMax == bufferMax
    {
      this.dirty, this.queue, this.cacheMax, this.bufferMax := dirty, queue, cacheMax, bufferMax;
    }

    /** Hands one dirty chunk to the queue if the queue admits it. */
    method HandOver(idx: nat) returns (moved: bool)
      requires dirty.Valid() && queue.Valid() && idx in dirty.chunks
      modifies dirty, queue
      ensures dirty.Valid() && queue.Valid()
      ensures moved <==> old(queue.Abs()).Admits(idx, |old(dirty.chunks)[idx].data|, bufferMax)
      ensures !moved ==> dirty.Abs() == old(dirty.Abs()) && queue.Abs() == old(queue.Abs())
      ensures moved ==> dirty.Abs() == old(dirty.Abs()).Remove(idx)
                        && queue.Abs() == old(queue.Abs()).Push(idx, old(dirty.Abs()).chunks[idx])
    {
      var size, generation := |dirty.chunks[idx].data|, dirty.chunks[idx].tick;
      ghost var stamp := dirty.stamps[idx];
      if queue.inflight == Some(idx) || idx in queue.chunks {
        return false;
      }
      if queue.usedBytes + size > bufferMax {
        return false;
      }
      var data := dirty.Remove(idx);
      queue.Push(idx, data.value, generation, stamp);
      moved := true;
    }

    /** One turn of the eviction loop: the least recently written chunk goes to the queue. */
    method EvictOne() returns (r: Move)
      requires dirty.Valid() && queue.Valid()
      modifies dirty, queue
      ensures dirty.Valid() && queue.Valid()
      ensures r.Done? <==> old(dirty.usedBytes) <= cacheMax || old(dirty.chunks) == map[]
      ensures !r.Moved? ==> dirty.Abs() == old(dirty.Abs()) && queue.Abs() == old(queue.Abs())
      ensures r.Blocked? ==>
                && old(dirty.Abs()).Oldest(r.idx)
                && !old(queue.Abs()).Admits(r.idx, |old(dirty.chunks)[r.idx].data|, bufferMax)
      ensures r.Moved? ==>
                && old(dirty.Abs()).Oldest(r.idx)
                && old(queue.Abs()).Admits(r.idx, |old(dirty.chunks)[r.idx].data|, bufferMax)
                && dirty.Abs() == old(dirty.Abs()).Remove(r.idx)
                && queue.Abs() == old(queue.Abs()).Push(r.idx, old(dirty.Abs()).chunks[r.idx])
    {
      if dirty.usedBytes <= cacheMax {
        return Done;
      }
      var oldest := dirty.Oldest();
      if oldest.None? {
        return Done;
      }
      var moved := HandOver(oldest.value);
      r := if moved then Moved(oldest.value) else Blocked(oldest.value);
    }

    /** The worker's handoff of a chunk that has been quiet. */
    method HandoffQuiet(now: nat, quiet: nat) returns (r: Move)
      requires dirty.Valid() && queue.Valid()
      modifies dirty, queue
      ensures dirty.Valid() && queue.Valid()
      ensures r.Done? <==> old(dirty.NoneQuiet(now, quiet))
      ensures !r.Moved? ==> dirty.Abs() == old(dirty.Abs()) && queue.Abs() == old(queue.Abs())
      ensures r.Blocked? ==>
                && old(dirty.QuietLongest(now, quiet, r.idx))
                && !old(queue.Abs()).Admits(r.idx, |old(dirty.chunks)[r.idx].data|, bufferMax)
      ensures r.Moved? ==>
                && old(dirty.QuietLongest(now, quiet, r.idx))
                && old(queue.Abs()).Admits(r.idx, |old(dirty.chunks)[r.idx].data|, bufferMax)
                && dirty.Abs() == old(dirty.Abs()).Remove(r.idx)
                && queue.Abs() == old(queue.Abs()).Push(r.idx, old(dirty.Abs()).chunks[r.idx])
    {
      var oldest := dirty.OldestQuiet(now, quiet);
      if oldest.None? {
        return Done;
      }
      var moved := HandOver(oldest.value);
      r := if moved then Moved(oldest.value) else Blocked(oldest.value);
    }

    /** The front of the queue, unless a put is in flight. */
    method NextJob() returns (r: Option<PutJob>, ghost j: Job)
      requires queue.Valid()
      modifies queue`inflight
      ensures queue.Valid()
      ensures r.Some? <==> old(queue.inflight).None? && |queue.order| > 0 && queue.order[0] in queue.chunks
      ensures r.None? ==> queue.inflight == old(queue.inflight)
      ensures r.Some? ==>
                && j == Job(queue.order[0], old(queue.Abs()).chunks[queue.order[0]]) && Same(r.value, j)
                && queue.Abs() == old(queue.Abs()).(inflight := Some(j.idx))
    {
      j := Job(0, Held([], 0));
      if queue.inflight.Some? || |queue.order| == 0 || queue.order[0] !in queue.chunks {
        return None, j;
      }
      var idx := queue.order[0];
      j := Job(idx, Held(queue.chunks[idx].data, queue.stamps[idx]));
      r := Some(PutJob(idx, queue.chunks[idx].data, queue.chunks[idx].generation));
      queue.inflight := Some(idx);
    }

    method ClearInflight(idx: nat)
      requires queue.Valid()
      modifies queue`inflight
      ensures queue.Valid()
      ensures queue.Abs() == if old(queue.inflight) == Some(idx) then old(queue.Abs()).(inflight := None) else old(queue.Abs())
    {
      if queue.inflight == Some(idx) {
        queue.inflight := None;
      }
    }

    /** After a put: the chunk leaves the queue if it is still the snapshot that was put. */
    method CompletePut(job: PutJob, ok: bool)
      requires queue.Valid()
      modifies queue
      ensures queue.Valid()
      ensures var q := if old(queue.inflight) == Some(job.idx) then old(queue.Abs()).(inflight := None) else old(queue.Abs());
              var current := job.idx in q.chunks && q.chunks[job.idx].Tick() == job.generation;
              queue.Abs() == if ok && current then q.Remove(job.idx) else q
    {
      ClearInflight(job.idx);
      if ok && job.idx in queue.chunks && queue.chunks[job.idx].generation == job.generation {
        queue.Remove(job.idx);
      }
    }

    /** Empties both: every dirty chunk, and every queued one that is not dirty again. */
    method TakeAllJobs() returns (jobs: seq<PutJob>, ghost js: seq<Job>)
      requires dirty.Valid() && queue.Valid()
      modifies dirty, queue
      ensures dirty.Valid() && queue.Valid()
      ensures dirty.Abs() == Dirty(map[], 0, old(dirty.stamp)) && queue.Abs() == NoQueue
      ensures SameJobs(jobs, js) && Unique(js)
      ensures JobMap(js) == old(queue.Abs()).chunks + old(dirty.Abs()).chunks
    {
      ghost var d, q := dirty.Abs().chunks, queue.Abs().chunks;
      jobs, js := DirtyJobs();
      var queued;
      ghost var qs;
      queued, qs := QueuedJobs(jobs, js);
      dirty.Drain();
      queue.Clear();
      jobs, js := queued, qs;
    }

    method DirtyJobs() returns (jobs: seq<PutJob>, ghost js: seq<Job>)
      requires dirty.Valid()
      ensures SameJobs(jobs, js) && Unique(js) && JobMap(js) == dirty.Abs().chunks
    {
      ghost var d := dirty.Abs().chunks;
      jobs, js := [], [];
      var rest := dirty.chunks.Keys;
      assert Outside(d, rest) == map[];
      while rest != {}
        invariant rest <= dirty.chunks.Keys && SameJobs(jobs, js) && Unique(js) && JobMap(js) == Outside(d, rest)
        decreases rest
      {
        var k :| k in rest;
        OutsideMore(d, rest, k);
        ghost var j := Job(k, d[k]);
        Prepended(j, js);
        jobs, js := [PutJob(k, dirty.chunks[k].data, dirty.chunks[k].tick)] + jobs, [j] + js;
        rest := rest - {k};
      }
      assert Outside(d, {}) == d;
    }

    /** The queued snapshots of chunks that are not dirty, before the dirty ones. */
    method QueuedJobs(dirtyJobs: seq<PutJob>, ghost ds: seq<Job>) returns (jobs: seq<PutJob>, ghost js: seq<Job>)
      requires dirty.Valid() && queue.Valid()
      requires SameJobs(dirtyJobs, ds) && Unique(ds) && JobMap(ds) == dirty.Abs().chunks
      ensures SameJobs(jobs, js) && Unique(js) && JobMap(js) == queue.Abs().chunks + dirty.Abs().chunks
    {
      ghost var d, q := dirty.Abs().chunks, queue.Abs().chunks;
      jobs, js := dirtyJobs, ds;
      var rest := queue.chunks.Keys;
      OverEnds(q, d);
      while rest != {}
        invariant rest <= queue.chunks.Keys && SameJobs(jobs, js) && Unique(js) && JobMap(js) == Over(q, d, rest)
        decreases rest
      {
        var k :| k in rest;
        OverMore(q, d, rest, k);
        if k !in dirty.chunks {
          ghost var j := Job(k, q[k]);
          Prepended(j, js);
          jobs, js := [PutJob(k, queue.chunks[k].data, queue.chunks[k].generation)] + jobs, [j] + js;
        }
        rest := rest - {k};
      }
    }
  }

  ghost function Over(q: map<nat, Held>, d: map<nat, Held>, rest: set<nat>): map<nat, Held> {
    Outside(q, rest) + d
  }

  lemma OverEnds(q: map<nat, Held>, d: map<nat, Held>)
    ensures Over(q, d, q.Keys) == d && Over(q, d, {}) == q + d
  {
    assert Outside(q, {}) == q;
  }

  lemma OverMore(q: map<nat, Held>, d: map<nat, Held>, rest: set<nat>, k: nat)
    requires k in rest && k in q
    ensures Over(q, d, rest - {k}) == if k in d then Over(q, d, rest) else Over(q, d, rest)[k := q[k]]
    ensures k !in d ==> k !in Over(q, d, rest)
  {
    OutsideMore(q, rest, k);
  }

  lemma OutsideMore(m: map<nat, Held>, rest: set<nat>, k: nat)
    requires k in rest && k in m
    ensures Outside(m, rest - {k}) == Outside(m, rest)[k := m[k]] && k !in Outside(m, rest)
  {
  }

  lemma Prepended(j: Job, js: seq<Job>)
    ensures JobMap([j] + js) == JobMap(js)[j.idx := j.held]
    ensures Unique([j] + js) <==> j.idx !in JobMap(js) && Unique(js)
  {
    assert ([j] + js)[1..] == js;
  }
}
