/**
 Runs in which acknowledged writes are lost, step by step from an empty cache under a
 configuration the program accepts: the race of the worker, and a flush that fails.
 */
module WriteBackRace {
  import opened Volume
  import opened WriteBackState
  import opened WriteBackSteps
  import opened WriteBackInv
  import opened WriteBackRecovery
  import opened WriteBackPause

  /** What configuration validation asks of the two budgets; there is a queue iff it has one. */
  predicate Accepted(cfg: Config) {
    && cfg.chunkSize > 0 && 0 < cfg.capacity < U64
    && (cfg.cacheMax == 0 || cfg.chunkSize <= cfg.cacheMax)
    && (cfg.bufferMax == 0 || cfg.chunkSize <= cfg.bufferMax)
    && (cfg.buffered <==> cfg.bufferMax > 0)
  }

  ghost predicate Reaches(cfg: Config, s: State, t: State) {
    exists ls :: CanRun(cfg, s, ls) && Run(cfg, s, ls) == t
  }

  lemma {:induction false} OneMore(cfg: Config, s: State, ls: seq<Label>, l: Label)
    requires CanRun(cfg, s, ls) && Enabled(cfg, Run(cfg, s, ls), l)
    ensures CanRun(cfg, s, ls + [l]) && Run(cfg, s, ls + [l]) == Next(cfg, Run(cfg, s, ls), l)
    decreases |ls|
  {
    if ls == [] {
      assert ([] + [l])[1..] == [];
    } else {
      OneMore(cfg, Next(cfg, s, ls[0]), ls[1..], l);
      assert (ls + [l])[1..] == ls[1..] + [l];
    }
  }

  lemma Step(cfg: Config, s: State, t: State, l: Label) returns (u: State)
    requires Reaches(cfg, s, t) && Enabled(cfg, t, l)
    ensures u == Next(cfg, t, l) && Reaches(cfg, s, u)
  {
    var ls :| CanRun(cfg, s, ls) && Run(cfg, s, ls) == t;
    OneMore(cfg, s, ls, l);
    u := Next(cfg, t, l);
  }

  /** A fresh start: nothing dirty, no files, an inner store never written. */
  function Fresh(buffered: bool): State {
    State(Dirty(map[], 0, 0), NoQueue, map[], map[], map[], Free, false, false, false, 0,
          Resting, if buffered then Top else Absent, Away)
  }

  lemma FreshIsInitial(cfg: Config)
    requires cfg.Ok()
    ensures Initial(cfg, Fresh(cfg.buffered))
  {
    NothingHeld();
    assert Data(Fresh(cfg.buffered).dirty.chunks) == map[];
  }

  lemma ReachesItself(cfg: Config, s: State)
    ensures Reaches(cfg, s, s)
  {
    assert CanRun(cfg, s, []) && Run(cfg, s, []) == s;
  }

  // ----------------------------------------------------------- whole writes

  lemma InsertsAgain(d: Dirty, idx: nat, data: Bytes)
    requires idx in d.chunks && |d.chunks[idx].data| == |data| <= d.used
    ensures d.Insert(idx, data) == Dirty(d.chunks[idx := Held(data, d.stamp + 1)], d.used, d.stamp + 1)
  {
  }

  lemma InsertsFirst(d: Dirty, idx: nat, data: Bytes)
    requires d.chunks == map[] && d.used == 0
    ensures d.Insert(idx, data) == Dirty(map[idx := Held(data, d.stamp + 1)], |data|, d.stamp + 1)
  {
  }

  /** The lookup of chunk `idx` in the three places finds `was`. */
  ghost predicate Finds(cfg: Config, s: State, idx: nat, was: Bytes) {
    && |was| == cfg.chunkSize
    && if idx in s.dirty.chunks then was == s.dirty.chunks[idx].data
       else if idx in s.queue.chunks then was == s.queue.chunks[idx].data
       else |Chunk(s.inner, cfg.chunkSize, idx)| == cfg.chunkSize && was == cfg.Trim(idx, Chunk(s.inner, cfg.chunkSize, idx))
  }

  /** A chunk of two bytes that nobody ever wrote. */
  lemma FindsZeros(cfg: Config, s: State, idx: nat)
    requires cfg.chunkSize == 2 && idx !in s.dirty.chunks && idx !in s.queue.chunks && idx !in s.inner
    ensures Finds(cfg, s, idx, [0, 0])
  {
    assert Zeros(2) == [0, 0];
    var n := Valid(cfg.chunkSize, cfg.capacity, idx);
    assert Zeros(2)[..n] + Zeros(2 - n) == Zeros(2);
  }

  /** The cursor stands at byte `at` of a write with `left` bytes to go, and takes what its chunk allows. */
  ghost predicate Stands(c: Cursor, cs: nat, at: nat, left: nat) {
    c.idx * cs + c.within == at && c.within < cs && c.take == Min(cs - c.within, left)
  }

  lemma StandsAt(c: Cursor, cs: nat, offset: nat, len: nat, done: nat)
    requires cs > 0 && done < len && Stands(c, cs, offset + done, len - done)
    ensures At(cs, offset, len, done) == c
  {
    DivMod(cs, c.idx, c.within);
  }

  lemma Looks(cfg: Config, start: State, s: State, op: Op, c: Cursor, was: Bytes) returns (t: State)
    requires Reaches(cfg, start, s) && cfg.Ok() && s.writer == Writing(op) && op.done < |op.data|
    requires c == At(cfg.chunkSize, op.offset, |op.data|, op.done) && Finds(cfg, s, c.idx, was)
    ensures Reaches(cfg, start, t) && t == s.(writer := Loaded(op, c, was))
  {
    t := Step(cfg, start, s, Load(LookDirty(c)));
    if c.idx !in s.dirty.chunks {
      t := Step(cfg, start, t, Load(LookQueue));
      if c.idx !in s.queue.chunks {
        t := Step(cfg, start, t, Load(ReadInner(true)));
      }
    }
  }

  lemma Inserts(cfg: Config, start: State, s: State, op: Op, c: Cursor, was: Bytes, x: Bytes) returns (t: State, next: Op)
    requires Reaches(cfg, start, s) && cfg.Ok() && cfg.disk && s.fileLock.Free?
    requires s.writer == Loaded(op, c, was) && |was| == cfg.chunkSize && op.Fits(cfg, c)
    requires x == Splice(was, c.within, op.data[op.done..op.done + c.take])
    ensures Reaches(cfg, start, t)
    ensures next == op.(done := op.done + c.take)
    ensures t == s.(writer := Writing(next), dirty := s.dirty.Insert(c.idx, x), files := s.files[c.idx := x])
  {
    t := Step(cfg, start, s, Load(Persist(true)));
    t := Step(cfg, start, t, Load(Insert));
    next := t.writer.op;
  }

  /** One chunk of a write: found as `was`, patched to `x`, put into its file and made dirty. */
  lemma Piece(cfg: Config, start: State, s: State, op: Op, c: Cursor, was: Bytes, x: Bytes) returns (t: State, next: Op)
    requires Reaches(cfg, start, s) && cfg.Ok() && cfg.disk && s.fileLock.Free?
    requires s.writer == Writing(op) && op.done < |op.data|
    requires Stands(c, cfg.chunkSize, op.offset + op.done, |op.data| - op.done) && Finds(cfg, s, c.idx, was)
    requires x == Splice(was, c.within, op.data[op.done..op.done + c.take])
    ensures Reaches(cfg, start, t)
    ensures next == op.(done := op.done + c.take)
    ensures t == s.(writer := Writing(next), dirty := s.dirty.Insert(c.idx, x), files := s.files[c.idx := x])
  {
    StandsAt(c, cfg.chunkSize, op.offset, |op.data|, op.done);
    t := Looks(cfg, start, s, op, c, was);
    t, next := Inserts(cfg, start, t, op, c, was, x);
  }

  lemma Begins(cfg: Config, start: State, s: State, offset: nat, data: Bytes) returns (t: State, op: Op)
    requires Reaches(cfg, start, s) && cfg.Ok() && s.writer.Resting? && !s.exclusive && s.writers == 0
    requires offset + |data| <= cfg.capacity
    ensures Reaches(cfg, start, t) && op.offset == offset && op.data == data && op.done == 0
    ensures t == s.(writers := 1, writer := Writing(op))
  {
    op := Op(offset, data, 0, FlatView(cfg, s));
    t := Step(cfg, start, s, Load(BeginWrite(op)));
  }

  lemma EndsChunks(cfg: Config, start: State, s: State, op: Op) returns (t: State)
    requires Reaches(cfg, start, s) && cfg.Ok() && s.writer == Writing(op) && op.done == |op.data|
    ensures Reaches(cfg, start, t) && t == s.(writer := Evicting(op))
  {
    t := Step(cfg, start, s, Load(ChunksDone));
  }

  /** A write that lies in one chunk, up to its eviction loop. */
  lemma SingleWrite(cfg: Config, start: State, s: State, offset: nat, data: Bytes, c: Cursor, was: Bytes, x: Bytes)
    returns (t: State)
    requires Reaches(cfg, start, s) && cfg.Ok() && cfg.disk && s.fileLock.Free?
    requires s.writer.Resting? && !s.exclusive && s.writers == 0
    requires 0 < |data| && offset + |data| <= cfg.capacity
    requires Stands(c, cfg.chunkSize, offset, |data|) && c.take == |data|
    requires Finds(cfg, s, c.idx, was) && x == Splice(was, c.within, data)
    ensures Reaches(cfg, start, t) && t.writer.Evicting?
    ensures t == s.(writers := 1, writer := t.writer, dirty := s.dirty.Insert(c.idx, x), files := s.files[c.idx := x])
  {
    var op;
    t, op := Begins(cfg, start, s, offset, data);
    assert data[0..0 + c.take] == data;
    t, op := Piece(cfg, start, t, op, c, was, x);
    t := Step(cfg, start, t, Load(ChunksDone));
  }

  lemma Returns(cfg: Config, start: State, s: State) returns (t: State)
    requires Reaches(cfg, start, s) && cfg.Ok() && s.writers == 1
    requires s.writer.Evicting? && (cfg.cacheMax == 0 || s.dirty.used <= cfg.cacheMax)
    ensures Reaches(cfg, start, t) && t == s.(writers := 0, writer := Resting)
  {
    t := Step(cfg, start, s, Evict(EvictDone));
    t := Step(cfg, start, t, Evict(EndWrite));
  }

  /** The patched chunks of the runs below. */
  lemma Patches()
    ensures Splice([0, 0], 0, [1, 1]) == [1, 1] && Splice([1, 1], 0, [2, 2]) == [2, 2] && Splice([0, 0], 0, [3, 3]) == [3, 3]
    ensures Splice([0, 0], 0, [2, 2]) == [2, 2] && Splice([2, 2], 0, [4, 4]) == [4, 4] && Splice([3, 3], 0, [5, 5]) == [5, 5]
    ensures Splice([0, 0], 0, [1]) == [1, 0] && Splice([0, 0], 1, [2]) == [0, 2]
  {
  }

  // ------------------------------------------------------------- the race

  /** Two chunks of two bytes; dirty map and queue hold one each. */
  const CFG := Config(2, 4, 2, 2, true, true)

  const START: State := Fresh(true)

  const OLD: Held := Held([1, 1], 1)
  const NEW: Held := Held([2, 2], 2)
  const OTHER: Held := Held([3, 3], 3)

  /** [1, 1] is written to chunk 0, within both budgets. */
  lemma FirstWrite() returns (t: State)
    ensures Reaches(CFG, START, t)
    ensures t == START.(dirty := Dirty(map[0 := OLD], 2, 1), files := map[0 := [1, 1]])
  {
    ReachesItself(CFG, START);
    FindsZeros(CFG, START, 0);
    Patches();
    InsertsFirst(START.dirty, 0, [1, 1]);
    t := SingleWrite(CFG, START, START, 0, [1, 1], Cursor(0, 0, 2), [0, 0], [1, 1]);
    assert t.dirty == Dirty(map[0 := OLD], 2, 1);
    t := Returns(CFG, START, t);
  }

  /** The worker has put the first version and has not yet taken it off the queue. */
  lemma WorkerPuts(s: State) returns (t: State)
    requires Reaches(CFG, START, s) && s == START.(dirty := Dirty(map[0 := OLD], 2, 1), files := map[0 := [1, 1]])
    ensures Reaches(CFG, START, t)
    ensures t == s.(dirty := Dirty(map[], 0, 1), queue := Queue(map[0 := OLD], [0], 2, Some(0)),
                    inner := map[0 := [1, 1]], landed := map[0 := 1], worker := Wrote(Job(0, OLD), true))
  {
    t := Step(CFG, START, s, Work(AtTop));
    t := Step(CFG, START, t, Work(NoJob));
    assert t.dirty.chunks - {0} == map[];
    t := Step(CFG, START, t, Work(Handoff(0)));
    assert t.queue == Queue(map[0 := OLD], [0], 2, None);
    t := Step(CFG, START, t, Work(AtTop));
    t := Step(CFG, START, t, Work(NextJob(0)));
    t := Step(CFG, START, t, Work(CheckAbort));
    t := Step(CFG, START, t, Work(WorkerPut(Stored)));
  }

  /** Meanwhile [2, 2, 3, 3] is written over both chunks: the first is found in the queue. */
  lemma SecondWrite(s: State) returns (t: State)
    requires Reaches(CFG, START, s) && s.writer.Resting? && !s.exclusive && s.writers == 0 && s.fileLock.Free?
    requires s.dirty == Dirty(map[], 0, 1) && s.queue == Queue(map[0 := OLD], [0], 2, Some(0))
    requires s.inner == map[0 := [1, 1]]
    ensures Reaches(CFG, START, t) && t.writer.Evicting?
    ensures t == s.(writers := 1, writer := t.writer, dirty := Dirty(map[0 := NEW, 1 := OTHER], 4, 3),
                    files := s.files[0 := [2, 2]][1 := [3, 3]])
  {
    var op;
    t, op := Begins(CFG, START, s, 0, [2, 2, 3, 3]);
    Patches();
    assert op.data[0..2] == [2, 2] && op.data[2..4] == [3, 3];
    t, op := Piece(CFG, START, t, op, Cursor(0, 0, 2), [1, 1], [2, 2]);
    FindsZeros(CFG, t, 1);
    t, op := Piece(CFG, START, t, op, Cursor(1, 0, 2), [0, 0], [3, 3]);
    t := Step(CFG, START, t, Load(ChunksDone));
  }

  /** The put leaves the queue; its file has not been looked at yet. */
  lemma PutCompletes(s: State) returns (t: State)
    requires Reaches(CFG, START, s) && s.fileLock.Free? && s.worker == Wrote(Job(0, OLD), true)
    requires s.queue == Queue(map[0 := OLD], [0], 2, Some(0))
    ensures Reaches(CFG, START, t) && t == s.(queue := NoQueue, worker := Cleaning(0), fileLock := ByWorker)
  {
    t := Step(CFG, START, s, Work(Complete(true)));
    assert t.queue.chunks == map[] && t.queue.order == [];
  }

  /** The new version of the chunk enters the queue, and the write returns. */
  lemma WriteIsAcknowledged(s: State) returns (t: State)
    requires Reaches(CFG, START, s) && s.writer.Evicting? && s.writers == 1
    requires s.dirty == Dirty(map[0 := NEW, 1 := OTHER], 4, 3) && s.queue == NoQueue
    ensures Reaches(CFG, START, t)
    ensures t == s.(dirty := Dirty(map[1 := OTHER], 2, 3), queue := Queue(map[0 := NEW], [0], 2, None),
                    writers := 0, writer := Resting)
  {
    t := Step(CFG, START, s, Evict(EvictMove(0)));
    assert t.dirty.chunks == map[1 := OTHER] && t.queue == Queue(map[0 := NEW], [0], 2, None);
    t := Returns(CFG, START, t);
  }

  /**
   The write of [2, 2, 3, 3] has returned Ok, nobody is writing, and a crash now recovers
   [1, 1] in chunk 0: the worker has removed the file that a newer copy had taken over.
   */
  lemma RaceHappens() returns (t: State)
    ensures Accepted(CFG) && Initial(CFG, START) && Reaches(CFG, START, t)
    ensures t.writer == Resting && t.admin == Away
    ensures 0 in View(CFG, t) && View(CFG, t)[0] == [2, 2]
    ensures 0 in Recovered(CFG, t) && Recovered(CFG, t)[0] == [1, 1]
  {
    FreshIsInitial(CFG);
    t := FirstWrite();
    t := WorkerPuts(t);
    t := SecondWrite(t);
    t := PutCompletes(t);
    t := WriteIsAcknowledged(t);
    assert Race(t, Unlink(true));
    t := Step(CFG, START, t, Work(Unlink(true)));
    assert 0 !in t.files && 0 in t.inner && t.inner[0] == [1, 1];
  }

  // ------------------------------------------------------ a flush that fails

  /** One chunk of two bytes, no budget, no queue. */
  const SMALL := Config(2, 2, 0, 0, false, true)

  const EMPTY: State := Fresh(false)

  const FIRST: Held := Held([1, 0], 1)

  /** [1] is written to byte 0. */
  lemma WriteOne() returns (t: State)
    ensures Reaches(SMALL, EMPTY, t)
    ensures t == EMPTY.(dirty := Dirty(map[0 := FIRST], 2, 1), files := map[0 := [1, 0]])
  {
    ReachesItself(SMALL, EMPTY);
    FindsZeros(SMALL, EMPTY, 0);
    Patches();
    InsertsFirst(EMPTY.dirty, 0, [1, 0]);
    t := SingleWrite(SMALL, EMPTY, EMPTY, 0, [1], Cursor(0, 0, 1), [0, 0], [1, 0]);
    assert t.dirty == Dirty(map[0 := FIRST], 2, 1);
    t := Returns(SMALL, EMPTY, t);
  }

  /** A flush has drained the chunk and not yet put it. */
  lemma FlushTakes(s: State) returns (t: State)
    requires Reaches(SMALL, EMPTY, s)
    requires s == EMPTY.(dirty := Dirty(map[0 := FIRST], 2, 1), files := map[0 := [1, 0]])
    ensures Reaches(SMALL, EMPTY, t)
    ensures t == s.(dirty := Dirty(map[], 0, 1), exclusive := true,
                    admin := Draining(Flush, View(SMALL, s), [Job(0, FIRST)]))
  {
    t := Step(SMALL, EMPTY, s, Manage(Request(Flush)));
    assert View(SMALL, t) == View(SMALL, s);
    t := Step(SMALL, EMPTY, t, Manage(Gain));
    t := Step(SMALL, EMPTY, t, Manage(Pause));
    var jobs := [Job(0, FIRST)];
    assert JobMap(jobs[1..]) == map[] && JobMap(jobs) == map[0 := FIRST];
    assert Unique(jobs[1..]) && Unique(jobs);
    assert t.queue.chunks + t.dirty.chunks == map[0 := FIRST];
    t := Step(SMALL, EMPTY, t, Manage(Take(jobs)));
  }

  /** In the middle of a flush an initiator reads zeros where it had written, and been told so, a 1. */
  lemma FlushHidesWrite() returns (t: State)
    ensures Accepted(SMALL) && Initial(SMALL, EMPTY) && Reaches(SMALL, EMPTY, t)
    ensures Drained(t.admin) && t.admin.kind == Flush
    ensures 0 in t.admin.at && t.admin.at[0] == [1, 0]
    ensures Chunk(View(SMALL, t), 2, 0) == [0, 0]
  {
    FreshIsInitial(SMALL);
    t := WriteOne();
    t := FlushTakes(t);
    assert Zeros(2) == [0, 0];
  }

  /** The put of the inner store fails: the flush returns the error and the drained chunk is gone. */
  lemma FlushFails() returns (t: State)
    ensures Reaches(SMALL, EMPTY, t)
    ensures t == EMPTY.(dirty := Dirty(map[], 0, 1), files := map[0 := [1, 0]])
  {
    t := WriteOne();
    t := FlushTakes(t);
    t := Step(SMALL, EMPTY, t, Manage(PutJob(Failed(false))));
    t := Step(SMALL, EMPTY, t, Manage(Release));
  }

  /**
   Two writes have returned Ok, [1] at byte 0 and, after a failed flush, [2] at byte 1.
   Byte 0 is lost: in memory, because the second write was patched into the inner
   store's chunk, and on disk, because its file replaced the one that still had the 1.
   */
  lemma FailedFlushLoses() returns (t: State)
    ensures Accepted(SMALL) && Initial(SMALL, EMPTY) && Reaches(SMALL, EMPTY, t)
    ensures t.writer == Resting && t.admin == Away
    ensures 0 in View(SMALL, t) && View(SMALL, t)[0] == [0, 2]
    ensures 0 in Recovered(SMALL, t) && Recovered(SMALL, t)[0] == [0, 2]
  {
    FreshIsInitial(SMALL);
    t := FlushFails();
    FindsZeros(SMALL, t, 0);
    Patches();
    t := SingleWrite(SMALL, EMPTY, t, 1, [2], Cursor(0, 1, 1), [0, 0], [0, 2]);
    t := Returns(SMALL, EMPTY, t);
  }

  // ------------------------------------- a failed flush and the worker's pause

  /** With a queue: the flush has parked the worker, and gives up without letting it go. */
  lemma FailedFlushParks() returns (t: State)
    ensures Accepted(CFG) && Initial(CFG, START) && Reaches(CFG, START, t)
    ensures t == START.(dirty := Dirty(map[], 0, 1), files := map[0 := [1, 1]], pause := true, parked := true, worker := Parked)
    ensures !Enabled(CFG, t, Work(Unpark))
  {
    FreshIsInitial(CFG);
    t := FirstWrite();
    t := ParksForFlush(t);
    t := Step(CFG, START, t, Manage(PutJob(Failed(false))));
    t := Step(CFG, START, t, Manage(Release));
  }

  lemma ParksForFlush(s: State) returns (t: State)
    requires Reaches(CFG, START, s) && s == START.(dirty := Dirty(map[0 := OLD], 2, 1), files := map[0 := [1, 1]])
    ensures Reaches(CFG, START, t)
    ensures t == s.(dirty := Dirty(map[], 0, 1), exclusive := true, pause := true, parked := true, worker := Parked,
                    admin := Draining(Flush, View(CFG, s), [Job(0, OLD)]))
  {
    t := Step(CFG, START, s, Manage(Request(Flush)));
    assert View(CFG, t) == View(CFG, s);
    t := Step(CFG, START, t, Manage(Gain));
    t := Step(CFG, START, t, Manage(Pause));
    t := Step(CFG, START, t, Work(AtTop));
    t := Step(CFG, START, t, Manage(SeeParked));
    var jobs := [Job(0, OLD)];
    assert JobMap(jobs[1..]) == map[] && JobMap(jobs) == map[0 := OLD];
    assert Unique(jobs[1..]) && Unique(jobs);
    assert t.queue.chunks + t.dirty.chunks == map[0 := OLD];
    t := Step(CFG, START, t, Manage(Take(jobs)));
  }

  const FOUR: Held := Held([4, 4], 4)
  const FIVE: Held := Held([5, 5], 5)

  /** A write over both chunks, one of which goes to the queue. */
  lemma FillsQueue(s: State) returns (t: State)
    requires Reaches(CFG, START, s)
    requires s == START.(dirty := Dirty(map[], 0, 1), files := map[0 := [1, 1]], pause := true, parked := true, worker := Parked)
    ensures Reaches(CFG, START, t)
    ensures t == s.(dirty := Dirty(map[1 := OTHER], 2, 3), queue := Queue(map[0 := NEW], [0], 2, None), files := t.files)
  {
    var op;
    t, op := Begins(CFG, START, s, 0, [2, 2, 3, 3]);
    Patches();
    assert op.data[0..2] == [2, 2] && op.data[2..4] == [3, 3];
    FindsZeros(CFG, t, 0);
    t, op := Piece(CFG, START, t, op, Cursor(0, 0, 2), [0, 0], [2, 2]);
    FindsZeros(CFG, t, 1);
    t, op := Piece(CFG, START, t, op, Cursor(1, 0, 2), [0, 0], [3, 3]);
    t := Step(CFG, START, t, Load(ChunksDone));
    t := WriteIsAcknowledged(t);
  }

  /** The next write over both: its first chunk is found in the queue. */
  lemma WritesFirst(s: State) returns (t: State, op: Op)
    requires Reaches(CFG, START, s) && s.writer.Resting? && !s.exclusive && s.writers == 0 && s.fileLock.Free?
    requires s.dirty == Dirty(map[1 := OTHER], 2, 3) && s.queue == Queue(map[0 := NEW], [0], 2, None)
    ensures Reaches(CFG, START, t) && op.offset == 0 && op.data == [4, 4, 5, 5] && op.done == 2
    ensures t == s.(writers := 1, writer := Writing(op), dirty := Dirty(map[0 := FOUR, 1 := OTHER], 4, 4), files := t.files)
  {
    t, op := Begins(CFG, START, s, 0, [4, 4, 5, 5]);
    Patches();
    assert op.data[0..2] == [4, 4];
    t, op := Piece(CFG, START, t, op, Cursor(0, 0, 2), [2, 2], [4, 4]);
    assert t.dirty.chunks == map[0 := FOUR, 1 := OTHER];
  }

  /** Its second is dirty already. */
  lemma WritesSecond(s: State, op: Op) returns (t: State)
    requires Reaches(CFG, START, s) && s.fileLock.Free? && s.writer == Writing(op)
    requires op.offset == 0 && op.data == [4, 4, 5, 5] && op.done == 2
    requires s.dirty == Dirty(map[0 := FOUR, 1 := OTHER], 4, 4)
    ensures Reaches(CFG, START, t) && t.writer.Evicting?
    ensures t == s.(writer := t.writer, dirty := Dirty(map[0 := FOUR, 1 := FIVE], 4, 5), files := t.files)
  {
    Patches();
    assert op.data[2..4] == [5, 5];
    InsertsAgain(s.dirty, 1, [5, 5]);
    assert s.dirty.chunks[1 := FIVE] == map[0 := FOUR, 1 := FIVE];
    var next;
    t, next := Piece(CFG, START, s, op, Cursor(1, 0, 2), [3, 3], [5, 5]);
    t := EndsChunks(CFG, START, t, next);
  }

  /** After a failed flush two writes suffice: the second never returns, whatever happens next. */
  lemma FailedFlushBlocks() returns (t: State)
    ensures Accepted(CFG) && Initial(CFG, START) && Reaches(CFG, START, t)
    ensures Blocked(CFG, t)
  {
    t := FailedFlushParks();
    t := FillsQueue(t);
    var op;
    t, op := WritesFirst(t);
    t := WritesSecond(t, op);
    FourIsOldest(t.dirty);
  }

  lemma FourIsOldest(d: Dirty)
    requires d == Dirty(map[0 := FOUR, 1 := FIVE], 4, 5)
    ensures d.chunks != map[] && forall idx :: d.Oldest(idx) ==> idx == 0
  {
    assert 0 in d.chunks && d.chunks[0].Tick() == 4 && d.chunks[1].Tick() == 5;
  }
}
