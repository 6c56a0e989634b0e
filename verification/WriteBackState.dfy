/**
 The state of the write-back cache: dirty chunks in memory (and, in disk mode, in
 files), a bounded queue of snapshots that a worker thread puts to the inner store,
 and the pause/park/exclusive handshake between the threads that share them.

 Three threads run: a writer (`write_at`), the worker (`run_worker`), and an admin
 caller of `flush` or `discard_dirty`. Each has a program counter here, so that the
 state between any two critical sections of the source is a state of the model.
 */
module WriteBackState {
  import opened Volume
  import opened Totals

  datatype Config = Config(
    chunkSize: nat,
    capacity: nat,
    cacheMax: nat,     // 0: no budget for dirty bytes
    bufferMax: nat,
    buffered: bool,    // a put queue and its worker exist
    disk: bool         // dirty chunks are also kept in files
  ) {
    ghost predicate Ok() {
      chunkSize > 0 && capacity < U64
    }

    /** Does chunk `idx` start below the capacity? */
    predicate InCap(idx: nat) {
      idx * chunkSize < capacity
    }

    /** A chunk as `read_full_chunk` returns it: zeros from the capacity on. */
    function Trim(idx: nat, data: Bytes): (d: Bytes)
      requires |data| == chunkSize
      ensures |d| == chunkSize
    {
      var n := Valid(chunkSize, capacity, idx);
      data[..n] + Zeros(chunkSize - n)
    }
  }

  /**
   A chunk held for writing. `stamp` numbers the insertions since start; the source
   keeps its low 64 bits (`tick` of a dirty chunk, `generation` of a queued one).
   */
  datatype Held = Held(data: Bytes, stamp: nat) {
    function Tick(): nat { stamp % U64 }
  }

  ghost predicate HeldWhole(cfg: Config, m: map<nat, Held>) {
    forall i :: i in m ==> |m[i].data| == cfg.chunkSize
  }

  function HeldSize(h: Held): nat { |h.data| }

  datatype Job = Job(idx: nat, held: Held)

  function SatSub(a: nat, b: nat): nat {
    if a <= b then 0 else a - b
  }

  // ------------------------------------------------------- the dirty chunks

  datatype Dirty = Dirty(chunks: map<nat, Held>, used: nat, stamp: nat) {

    function Insert(idx: nat, data: Bytes): Dirty {
      var before := if idx in chunks then |chunks[idx].data| else 0;
      Dirty(chunks[idx := Held(data, stamp + 1)], SatSub(used, before) + |data|, stamp + 1)
    }

    function Remove(idx: nat): Dirty {
      if idx in chunks then Dirty(chunks - {idx}, SatSub(used, |chunks[idx].data|), stamp) else this
    }

    ghost predicate Oldest(idx: nat) {
      idx in chunks && forall j :: j in chunks ==> chunks[idx].Tick() <= chunks[j].Tick()
    }

    ghost predicate Counted() {
      used == Total(chunks, HeldSize)
    }
  }

  // ------------------------------------------- the queue of snapshots to put

  function Without(order: seq<nat>, idx: nat): seq<nat> {
    if order == [] then []
    else if order[0] == idx then Without(order[1..], idx)
    else [order[0]] + Without(order[1..], idx)
  }

  datatype Queue = Queue(chunks: map<nat, Held>, order: seq<nat>, used: nat, inflight: Option<nat>) {

    function Push(idx: nat, h: Held): Queue {
      if idx in chunks then
        Queue(chunks[idx := h], Without(order, idx) + [idx],
              SatSub(used, |chunks[idx].data|) + |h.data|, inflight)
      else
        Queue(chunks[idx := h], order + [idx], used + |h.data|, inflight)
    }

    function Remove(idx: nat): Queue {
      if idx in chunks then
        Queue(chunks - {idx}, Without(order, idx), SatSub(used, |chunks[idx].data|),
              if inflight == Some(idx) then None else inflight)
      else this
    }

    /** May the dirty chunk `idx` be handed to the queue? */
    predicate Admits(idx: nat, size: nat, max: nat) {
      inflight != Some(idx) && idx !in chunks && used + size <= max
    }

    ghost predicate Ordered() {
      && (forall i, j :: 0 <= i < j < |order| ==> order[i] != order[j])
      && (forall i :: i in order <==> i in chunks)
      && (inflight.Some? ==> |order| > 0 && order[0] == inflight.value)
    }

    ghost predicate Counted() {
      used == Total(chunks, HeldSize)
    }
  }

  const NoQueue: Queue := Queue(map[], [], 0, None)

  // ------------------------------------------------------------ the threads

  /** A `write_at` in progress; `base` records the flat array it started from. */
  datatype Op = Op(offset: nat, data: Bytes, done: nat, base: Bytes) {
    ghost predicate InRange(cfg: Config) {
      && cfg.Ok() && offset + |data| <= cfg.capacity == |base| && done <= |data|
    }

    /** The bytes that go to the chunk under the cursor. */
    function Patch(c: Cursor): Bytes
      requires done + c.take <= |data|
    {
      data[done..done + c.take]
    }

    ghost predicate Fits(cfg: Config, c: Cursor) {
      && done < |data|
      && c.within + c.take <= cfg.chunkSize && done + c.take <= |data| && 0 < c.take
      && c.idx * cfg.chunkSize + c.within == offset + done
    }
  }

  datatype Writer =
    | Resting
    | Writing(op: Op)
    | MissDirty(op: Op, c: Cursor)                // not found dirty, queue not looked at yet
    | MissBoth(op: Op, c: Cursor)                 // not found in the queue either
    | Loaded(op: Op, c: Cursor, chunk: Bytes)
    | Persisted(op: Op, c: Cursor, chunk: Bytes)  // file written, not yet in the dirty map
    | Evicting(op: Op)
    | Victim(op: Op, idx: nat, held: Held)     // chosen by evict_direct
    | VictimPut(op: Op, idx: nat)              // stored by the inner store
    | VictimGone(op: Op, idx: nat)             // out of the dirty map, file still there
    | Leaving(op: Op, ok: bool)

  datatype Worker =
    | Absent
    | Top
    | Parked
    | Seek
    | Got(job: Job)
    | Aborting(job: Job)
    | Putting(job: Job)
    | Wrote(job: Job, ok: bool)
    | Cleaning(idx: nat)                       // out of the queue, file not looked at yet
    | Quiet

  datatype Kind = Flush | Discard

  /** `at` records the view at the moment exclusivity was gained. */
  datatype Admin =
    | Away
    | Asked(kind: Kind)
    | Gained(kind: Kind, at: Image)
    | Pausing(kind: Kind, at: Image)
    | Halted(kind: Kind, at: Image)
    | Draining(kind: Kind, at: Image, jobs: seq<Job>)
    | WroteJob(kind: Kind, at: Image, jobs: seq<Job>)
    | Releasing(kind: Kind, at: Image, ok: bool)

  datatype Owner = Free | ByWriter | ByWorker

  datatype State = State(
    dirty: Dirty,
    queue: Queue,
    inner: Image,              // the inner store; bytes past the capacity are not readable
    landed: map<nat, nat>,     // per chunk, the stamp of the last put the inner store took
    files: Image,
    fileLock: Owner,
    pause: bool,
    parked: bool,
    exclusive: bool,
    writers: nat,
    writer: Writer,
    worker: Worker,
    admin: Admin
  )

  // ------------------------------------------------------------------ views

  ghost function Data(held: map<nat, Held>): Image {
    map i | i in held :: held[i].data
  }

  ghost function Visible(cfg: Config, img: Image): Image {
    map i | i in img && cfg.InCap(i) :: img[i]
  }

  /** Dirty over queued over inner, as far as the capacity reaches. */
  ghost function View(cfg: Config, s: State): Image {
    Visible(cfg, s.inner + Data(s.queue.chunks) + Data(s.dirty.chunks))
  }

  ghost function FlatOf(cfg: Config, img: Image): (flat: Bytes)
    requires cfg.Ok()
    ensures |flat| == cfg.capacity
  {
    if Whole(img, cfg.chunkSize) then Flat(img, cfg.chunkSize, cfg.capacity) else Zeros(cfg.capacity)
  }

  /** The view as the flat array an initiator reads. */
  ghost function FlatView(cfg: Config, s: State): (flat: Bytes)
    requires cfg.Ok()
    ensures |flat| == cfg.capacity
  {
    FlatOf(cfg, View(cfg, s))
  }

  /** What a restart finds: the files of the disk cache over the inner store. */
  ghost function Recovered(cfg: Config, s: State): Image {
    Visible(cfg, s.inner + s.files)
  }

  /** The dirty map as a start rebuilds it from the chunk files. */
  ghost predicate Reloads(d: Dirty, files: Image) {
    && Data(d.chunks) == files && d.Counted()
    && forall i :: i in d.chunks ==> 1 <= d.chunks[i].stamp <= d.stamp
  }

  // ------------------------------------------------------------- drained jobs

  ghost function JobMap(jobs: seq<Job>): map<nat, Held> {
    if |jobs| == 0 then map[] else JobMap(jobs[1..])[jobs[0].idx := jobs[0].held]
  }

  ghost predicate Unique(jobs: seq<Job>) {
    |jobs| == 0 || (jobs[0].idx !in JobMap(jobs[1..]) && Unique(jobs[1..]))
  }
}
