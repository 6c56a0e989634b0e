/**
 Nobody waits for ever: from every state a run can reach there is a way on in which a write
 that is under way returns Ok, and one in which a flush or discard does, with the one
 exception that a pause left behind makes.
 */
module WriteBackProgress {
  import opened Volume
  import opened WriteBackState
  import opened WriteBackSteps
  import opened WriteBackInv
  import opened WriteBackView
  import opened WriteBackRecovery
  import opened WriteBack
  import opened WriteBackPause

  /** A queue takes at least one chunk. */
  predicate RoomForOne(cfg: Config) {
    cfg.buffered ==> cfg.chunkSize <= cfg.bufferMax
  }

  lemma Prepend(cfg: Config, s: State, l: Label, rest: seq<Label>)
    requires Enabled(cfg, s, l) && CanRun(cfg, Next(cfg, s, l), rest)
    ensures CanRun(cfg, s, [l] + rest) && Run(cfg, s, [l] + rest) == Run(cfg, Next(cfg, s, l), rest)
  {
    assert ([l] + rest)[1..] == rest;
  }

  lemma {:induction false} Join(cfg: Config, s: State, a: seq<Label>, u: State, b: seq<Label>, v: State)
    requires CanRun(cfg, s, a) && Run(cfg, s, a) == u && CanRun(cfg, u, b) && Run(cfg, u, b) == v
    ensures CanRun(cfg, s, a + b) && Run(cfg, s, a + b) == v
    decreases |a|
  {
    if a == [] {
      assert s == u && a + b == b;
    } else {
      var t := First(cfg, s, a);
      Join(cfg, t, a[1..], u, b, v);
      Prepend(cfg, s, a[0], a[1..] + b);
      Regroup(a, b);
    }
  }

  lemma Regroup(a: seq<Label>, b: seq<Label>)
    requires a != []
    ensures [a[0]] + (a[1..] + b) == a + b
  {
  }

  lemma First(cfg: Config, s: State, a: seq<Label>) returns (t: State)
    requires a != [] && CanRun(cfg, s, a)
    ensures Enabled(cfg, s, a[0]) && t == Next(cfg, s, a[0])
    ensures CanRun(cfg, t, a[1..]) && Run(cfg, t, a[1..]) == Run(cfg, s, a)
  {
    t := Next(cfg, s, a[0]);
  }

  // ------------------------------------------------------------------- the worker

  /** The worker's next step, its requests answered and nothing handed off. */
  ghost function Onward(s: State): WorkStep {
    match s.worker
    case Parked => Unpark
    case Seek =>
      if s.queue.inflight.None? && |s.queue.order| > 0 && s.queue.order[0] in s.queue.chunks
      then NextJob(s.queue.order[0]) else NoJob
    case Got(_) => CheckAbort
    case Aborting(_) => ClearInflight
    case Putting(_) => WorkerPut(Stored)
    case Wrote(job, _) =>
      Complete(job.idx in s.queue.chunks && s.queue.chunks[job.idx].Tick() == job.held.Tick())
    case Cleaning(_) => Unlink(true)
    case Quiet => Nap
    case _ => AtTop
  }

  lemma OnwardEnabled(cfg: Config, s: State)
    requires cfg.Ok() && Handshake(cfg, s) && cfg.buffered && !s.fileLock.ByWriter?
    requires s.worker.Parked? ==> !s.pause
    ensures WorkEnabled(cfg, s, Onward(s))
  {
    match s.worker { case Quiet => case _ => }
  }

  /** What the worker leaves to the others when it hands nothing off. */
  ghost predicate OnlyQueue(s: State, t: State) {
    t.dirty == s.dirty && t.writer == s.writer && t.writers == s.writers && t.pause == s.pause && t.admin == s.admin
  }

  lemma WorkOnlyQueue(cfg: Config, s: State, l: WorkStep)
    requires WorkEnabled(cfg, s, l) && !l.Handoff?
    ensures OnlyQueue(s, WorkNext(cfg, s, l))
  {
    match l { case Nap => case _ => }
  }

  /** Under a pause: steps to the place where it parks. */
  function ToPark(w: Worker): nat {
    match w
    case Parked => 0
    case Absent => 0
    case Top => 1
    case Got(_) => 3
    case Wrote(_, _) => 3
    case Seek => 4
    case Putting(_) => 4
    case _ => 2
  }

  lemma OnwardParks(cfg: Config, s: State)
    requires WorkEnabled(cfg, s, Onward(s)) && s.pause
    ensures ToPark(WorkNext(cfg, s, Onward(s)).worker) < ToPark(s.worker)
  {
    match s.worker { case Quiet => case _ => }
  }

  /** Not under a pause: steps to the next put. */
  function ToPut(w: Worker): nat {
    match w
    case Wrote(_, ok) => if ok then 1 else 7
    case Putting(_) => 2
    case Got(_) => 3
    case Seek => 4
    case Top => 5
    case Parked => 6
    case _ => 7
  }

  lemma OnwardPuts(cfg: Config, s: State)
    requires Accounts(cfg, s) && JobHeld(cfg, s) && WorkEnabled(cfg, s, Onward(s)) && !s.pause && s.queue.chunks != map[]
    ensures var t := WorkNext(cfg, s, Onward(s));
            if s.worker.Wrote? && s.worker.ok then t.queue.chunks == s.queue.chunks - {s.worker.job.idx}
            else t.queue.chunks == s.queue.chunks && ToPut(t.worker) < ToPut(s.worker)
  {
    if s.worker.Wrote? {
      CompletesJob(cfg, s);
    } else {
      if s.worker.Seek? {
        FindsJob(cfg, s);
      }
      WorkTowardsPut(cfg, s, Onward(s));
    }
  }

  lemma WorkTowardsPut(cfg: Config, s: State, l: WorkStep)
    requires WorkEnabled(cfg, s, l) && !s.pause && !l.Complete? && !l.NoJob? && !l.Handoff? && l != WorkerPut(Failed(false)) && l != WorkerPut(Failed(true))
    ensures var t := WorkNext(cfg, s, l); t.queue.chunks == s.queue.chunks && ToPut(t.worker) < ToPut(s.worker)
  {
    match l { case Nap => case _ => }
  }

  lemma FindsJob(cfg: Config, s: State)
    requires Accounts(cfg, s) && JobHeld(cfg, s) && s.worker.Seek? && s.queue.chunks != map[]
    ensures |s.queue.order| > 0 && Onward(s) == NextJob(s.queue.order[0])
  {
    var i :| i in s.queue.chunks;
    assert i in s.queue.order;
  }

  lemma CompletesJob(cfg: Config, s: State)
    requires JobHeld(cfg, s) && s.worker.Wrote? && WorkEnabled(cfg, s, Onward(s))
    ensures Onward(s) == Complete(true)
    ensures var t := WorkNext(cfg, s, Complete(true));
            if s.worker.ok then t.queue.chunks == s.queue.chunks - {s.worker.job.idx}
            else t.queue.chunks == s.queue.chunks && t.worker == Top
  {
  }

  /** With nobody paused the worker can empty the queue while all others wait. */
  lemma {:induction false} MakesRoom(cfg: Config, s: State) returns (ls: seq<Label>)
    requires Inv(cfg, s) && cfg.buffered && !s.pause && !s.fileLock.ByWriter?
    ensures CanRun(cfg, s, ls) && Inv(cfg, Run(cfg, s, ls))
    ensures OnlyQueue(s, Run(cfg, s, ls)) && Run(cfg, s, ls).queue.chunks == map[]
    decreases |s.queue.chunks|, ToPut(s.worker)
  {
    if s.queue.chunks == map[] {
      ls := [];
    } else {
      var t := OnwardStep(cfg, s);
      OnwardPuts(cfg, s);
      if s.worker.Wrote? && s.worker.ok {
        Fewer(s.queue.chunks, s.worker.job.idx);
      }
      var rest := MakesRoom(cfg, t);
      Prepend(cfg, s, Work(Onward(s)), rest);
      ls := [Work(Onward(s))] + rest;
    }
  }

  lemma OnwardStep(cfg: Config, s: State) returns (t: State)
    requires Inv(cfg, s) && cfg.buffered && !s.fileLock.ByWriter? && (s.worker.Parked? ==> !s.pause)
    ensures Enabled(cfg, s, Work(Onward(s))) && t == Next(cfg, s, Work(Onward(s))) && t == WorkNext(cfg, s, Onward(s))
    ensures Inv(cfg, t) && OnlyQueue(s, t) && !t.fileLock.ByWriter?
  {
    OnwardEnabled(cfg, s);
    WorkOnlyQueue(cfg, s, Onward(s));
    StepInv(cfg, s, Work(Onward(s)));
    t := Next(cfg, s, Work(Onward(s)));
  }

  lemma Fewer(m: map<nat, Held>, i: nat)
    requires i in m
    ensures |m - {i}| < |m|
  {
    assert (m - {i}).Keys == m.Keys - {i};
    assert |(m - {i}).Keys| == |m - {i}| && |m.Keys| == |m|;
  }

  /** Under a pause it can park. */
  lemma {:induction false} Parks(cfg: Config, s: State) returns (ls: seq<Label>)
    requires Inv(cfg, s) && cfg.buffered && s.pause && !s.fileLock.ByWriter?
    ensures CanRun(cfg, s, ls) && Inv(cfg, Run(cfg, s, ls))
    ensures OnlyQueue(s, Run(cfg, s, ls)) && Run(cfg, s, ls).parked
    decreases ToPark(s.worker)
  {
    if s.worker.Parked? {
      ls := [];
    } else {
      var t := OnwardStep(cfg, s);
      OnwardParks(cfg, s);
      var rest := Parks(cfg, t);
      Prepend(cfg, s, Work(Onward(s)), rest);
      ls := [Work(Onward(s))] + rest;
    }
  }

  // ------------------------------------------------------------------- the writer

  lemma {:induction false} LowestTick(m: map<nat, Held>) returns (idx: nat)
    requires m != map[]
    ensures idx in m && forall j :: j in m ==> m[idx].Tick() <= m[j].Tick()
    decreases |m|
  {
    idx :| idx in m;
    var rest := m - {idx};
    if rest != map[] {
      Fewer(m, idx);
      var other := LowestTick(rest);
      assert forall j :: j in m && j != idx ==> j in rest && rest[j] == m[j];
      if m[other].Tick() < m[idx].Tick() {
        idx := other;
      }
    }
  }

  predicate Evictor(w: Writer) {
    w.Evicting? || w.Victim? || w.VictimPut? || w.VictimGone?
  }

  function ToEvict(w: Writer): nat {
    match w
    case VictimPut(_, _) => 0
    case Victim(_, _, _) => 1
    case Evicting(_) => 2
    case _ => 3
  }

  /** A way to go on evicting without the queue, and what it brings. */
  ghost function DirectOnward(s: State, oldest: nat): EvictStep {
    match s.writer
    case Victim(_, _, _) => EvictPut(Stored)
    case VictimPut(_, _) => EvictDrop
    case VictimGone(_, _) => EvictUnlink(true)
    case _ => EvictPick(oldest)
  }

  lemma DirectEnabled(cfg: Config, s: State, oldest: nat)
    requires Inv(cfg, s) && !cfg.buffered && Evictor(s.writer)
    requires s.writer.Evicting? ==> 0 < cfg.cacheMax < s.dirty.used && s.dirty.Oldest(oldest)
    ensures EvictEnabled(cfg, s, DirectOnward(s, oldest))
  {
    match s.writer { case Evicting(_) => case _ => }
  }

  /** What a step of the eviction changes. */
  lemma DirectLeaves(cfg: Config, s: State, l: EvictStep)
    requires EvictEnabled(cfg, s, l) && (l.EvictPick? || l == EvictPut(Stored) || l == EvictDrop || l == EvictUnlink(true))
    ensures var t := EvictNext(cfg, s, l);
            && Evictor(t.writer) && t.writer.op == s.writer.op && t.pause == s.pause && t.admin == s.admin
            && (if l == EvictDrop then t.dirty == s.dirty.Remove(s.writer.idx)
                else t.dirty == s.dirty && ToEvict(t.writer) < ToEvict(s.writer))
  {
    match l { case EvictDrop => case _ => }
  }

  lemma DirectStep(cfg: Config, s: State) returns (l: EvictStep, t: State)
    requires Inv(cfg, s) && !cfg.buffered && Evictor(s.writer)
    requires s.writer.Evicting? ==> 0 < cfg.cacheMax < s.dirty.used && s.dirty.chunks != map[]
    ensures Enabled(cfg, s, Evict(l)) && t == Next(cfg, s, Evict(l)) && Inv(cfg, t)
    ensures Evictor(t.writer) && t.writer.op == s.writer.op && t.pause == s.pause && t.admin == s.admin
    ensures |t.dirty.chunks| < |s.dirty.chunks| || (t.dirty == s.dirty && ToEvict(t.writer) < ToEvict(s.writer))
  {
    var oldest := 0;
    if s.writer.Evicting? {
      oldest := LowestTick(s.dirty.chunks);
    }
    l := DirectOnward(s, oldest);
    DirectEnabled(cfg, s, oldest);
    DirectLeaves(cfg, s, l);
    StepInv(cfg, s, Evict(l));
    t := Next(cfg, s, Evict(l));
    if l == EvictDrop {
      Fewer(s.dirty.chunks, s.writer.idx);
    }
  }

  /** A way to go on evicting into the queue: let it run empty, then move the oldest chunk. */
  lemma QueueSteps(cfg: Config, s: State) returns (ls: seq<Label>)
    requires Inv(cfg, s) && cfg.buffered && cfg.chunkSize <= cfg.bufferMax && !s.pause && s.writer.Evicting?
    requires 0 < cfg.cacheMax < s.dirty.used && s.dirty.chunks != map[]
    ensures CanRun(cfg, s, ls)
    ensures var t := Run(cfg, s, ls);
            && Inv(cfg, t) && t.writer == s.writer && t.pause == s.pause && t.admin == s.admin
            && |t.dirty.chunks| < |s.dirty.chunks|
  {
    var room := MakesRoom(cfg, s);
    var u := Run(cfg, s, room);
    var idx := LowestTick(u.dirty.chunks);
    MovesOldest(cfg, u, idx);
    Join(cfg, s, room, u, [Evict(EvictMove(idx))], Run(cfg, u, [Evict(EvictMove(idx))]));
    ls := room + [Evict(EvictMove(idx))];
  }

  lemma MovesOldest(cfg: Config, s: State, idx: nat)
    requires Inv(cfg, s) && cfg.buffered && cfg.chunkSize <= cfg.bufferMax && s.writer.Evicting?
    requires 0 < cfg.cacheMax < s.dirty.used && s.dirty.Oldest(idx) && s.queue.chunks == map[]
    ensures CanRun(cfg, s, [Evict(EvictMove(idx))])
    ensures var t := Run(cfg, s, [Evict(EvictMove(idx))]);
            && Inv(cfg, t) && t.writer == s.writer && t.pause == s.pause && t.admin == s.admin
            && |t.dirty.chunks| < |s.dirty.chunks|
  {
    NothingHeld();
    assert s.queue.inflight.None?;
    StepInv(cfg, s, Evict(EvictMove(idx)));
    Fewer(s.dirty.chunks, idx);
    Prepend(cfg, s, Evict(EvictMove(idx)), []);
  }

  lemma EvictsNone(cfg: Config, s: State) returns (ls: seq<Label>)
    requires Inv(cfg, s) && EvictEnabled(cfg, s, EvictDone)
    ensures CanRun(cfg, s, ls) && Inv(cfg, Run(cfg, s, ls))
    ensures var t := Run(cfg, s, ls); t.writer == Leaving(s.writer.op, true) && t.pause == s.pause && t.admin == s.admin
  {
    StepInv(cfg, s, Evict(EvictDone));
    Prepend(cfg, s, Evict(EvictDone), []);
    ls := [Evict(EvictDone)] + [];
  }

  /** A write that evicts can get within its budget and return Ok. */
  lemma {:induction false} EvictsOn(cfg: Config, s: State) returns (ls: seq<Label>)
    requires Inv(cfg, s) && RoomForOne(cfg) && !s.pause && Evictor(s.writer)
    ensures CanRun(cfg, s, ls) && Inv(cfg, Run(cfg, s, ls))
    ensures var t := Run(cfg, s, ls); t.writer == Leaving(s.writer.op, true) && t.pause == s.pause && t.admin == s.admin
    decreases |s.dirty.chunks|, ToEvict(s.writer)
  {
    if s.writer.Evicting? && (cfg.cacheMax == 0 || s.dirty.used <= cfg.cacheMax || s.dirty.chunks == map[]) {
      ls := EvictsNone(cfg, s);
    } else if cfg.buffered {
      var first := QueueSteps(cfg, s);
      var t := Run(cfg, s, first);
      var rest := EvictsOn(cfg, t);
      Join(cfg, s, first, t, rest, Run(cfg, t, rest));
      ls := first + rest;
    } else {
      var l, t := DirectStep(cfg, s);
      var rest := EvictsOn(cfg, t);
      Prepend(cfg, s, Evict(l), rest);
      ls := [Evict(l)] + rest;
    }
  }

  predicate Loader(w: Writer) {
    w.Writing? || w.MissDirty? || w.MissBoth? || w.Loaded? || w.Persisted?
  }

  function ToInsert(w: Writer): nat {
    match w
    case Writing(_) => 5
    case MissDirty(_, _) => 4
    case MissBoth(_, _) => 3
    case Loaded(_, _, _) => 2
    case _ => 1
  }

  /** The bytes a write has still to bring in. */
  function Missing(w: Writer): int
    requires Loader(w)
  {
    |w.op.data| - w.op.done
  }

  predicate SameOp(a: Op, b: Op) {
    a.offset == b.offset && a.data == b.data && a.base == b.base
  }

  /** A step of the chunk loop that does not fail. */
  predicate Succeeds(l: LoadStep) {
    l != ReadInner(false) && l != Persist(false)
  }

  lemma LoadOnward(cfg: Config, s: State) returns (l: LoadStep)
    requires Inv(cfg, s) && Loader(s.writer) && (s.writer.Loaded? ==> !s.worker.Cleaning?)
    ensures LoadEnabled(cfg, s, l) && Succeeds(l)
  {
    var op := s.writer.op;
    match s.writer {
      case Writing(_) =>
        l := if op.done < |op.data| then LookDirty(At(cfg.chunkSize, op.offset, |op.data|, op.done)) else ChunksDone;
      case MissDirty(_, _) => l := LookQueue;
      case MissBoth(_, _) => l := ReadInner(true);
      case Loaded(_, _, _) => l := Persist(true);
      case Persisted(_, _, _) => l := Insert;
    }
  }

  /** What a step that does not fail brings the writer to. */
  ghost predicate Nearer(w: Writer, v: Writer)
    requires Loader(w)
  {
    if w.Persisted? then v == Writing(w.op.(done := w.op.done + w.c.take))
    else (v == Evicting(w.op) || (Loader(v) && v.op == w.op && ToInsert(v) < ToInsert(w)))
  }

  lemma LoadNearer(cfg: Config, s: State, l: LoadStep)
    requires LoadEnabled(cfg, s, l) && Loader(s.writer) && Succeeds(l)
    ensures Nearer(s.writer, LoadNext(cfg, s, l).writer)
  {
    match l { case ChunksDone => case _ => }
  }

  lemma LoaderFits(cfg: Config, s: State)
    requires Inv(cfg, s) && Loader(s.writer)
    ensures s.writer.op.done <= |s.writer.op.data|
    ensures s.writer.Persisted? ==> 0 < s.writer.c.take <= Missing(s.writer)
  {
  }

  /** It keeps its operation and, a chunk brought in, misses fewer bytes. */
  lemma NearerLess(w: Writer, v: Writer)
    requires Loader(w) && Nearer(w, v) && w.op.done <= |w.op.data|
    requires w.Persisted? ==> 0 < w.c.take <= Missing(w)
    ensures (v.Evicting? || Loader(v)) && SameOp(v.op, w.op)
    ensures Loader(v) ==> 0 <= Missing(v) < Missing(w) || (v.op == w.op && ToInsert(v) < ToInsert(w))
  {
  }

  lemma LoadsOne(cfg: Config, s: State) returns (l: LoadStep, t: State)
    requires Inv(cfg, s) && Loader(s.writer) && (s.writer.Loaded? ==> !s.worker.Cleaning?)
    ensures Enabled(cfg, s, Load(l)) && t == Next(cfg, s, Load(l)) && Inv(cfg, t)
    ensures t.pause == s.pause && t.admin == s.admin
    ensures (t.writer.Evicting? || Loader(t.writer)) && SameOp(t.writer.op, s.writer.op)
    ensures Loader(t.writer) ==> 0 <= Missing(t.writer) < Missing(s.writer)
                                 || (t.writer.op == s.writer.op && ToInsert(t.writer) < ToInsert(s.writer))
  {
    l := LoadOnward(cfg, s);
    LoadNearer(cfg, s, l);
    LoadLeavesControl(cfg, s, l);
    StepInv(cfg, s, Load(l));
    t := Next(cfg, s, Load(l));
    LoaderFits(cfg, s);
    NearerLess(s.writer, t.writer);
  }

  /** The worker lets go of the file it is looking at. */
  lemma LetsGo(cfg: Config, s: State) returns (t: State)
    requires Inv(cfg, s) && s.worker.Cleaning?
    ensures Enabled(cfg, s, Work(Unlink(true))) && t == Next(cfg, s, Work(Unlink(true)))
    ensures Inv(cfg, t) && OnlyQueue(s, t) && !t.worker.Cleaning?
  {
    StepInv(cfg, s, Work(Unlink(true)));
    t := Next(cfg, s, Work(Unlink(true)));
  }

  /** A write that brings in its chunks can bring in the last of them. */
  lemma {:induction false} LoadsOn(cfg: Config, s: State) returns (ls: seq<Label>)
    requires Inv(cfg, s) && Loader(s.writer)
    ensures CanRun(cfg, s, ls) && Inv(cfg, Run(cfg, s, ls))
    ensures var t := Run(cfg, s, ls);
            t.writer.Evicting? && SameOp(t.writer.op, s.writer.op) && t.pause == s.pause && t.admin == s.admin
    decreases Missing(s.writer), ToInsert(s.writer), if s.worker.Cleaning? then 1 else 0
  {
    LoaderFits(cfg, s);
    if s.worker.Cleaning? && s.writer.Loaded? {
      var t := LetsGo(cfg, s);
      var rest := LoadsOn(cfg, t);
      Prepend(cfg, s, Work(Unlink(true)), rest);
      ls := [Work(Unlink(true))] + rest;
    } else {
      var l, t := LoadsOne(cfg, s);
      var rest := [];
      if Loader(t.writer) {
        rest := LoadsOn(cfg, t);
      }
      Prepend(cfg, s, Load(l), rest);
      ls := [Load(l)] + rest;
    }
  }

  predicate UnderWay(w: Writer) {
    Loader(w) || Evictor(w)
  }

  lemma WriteFinishes(cfg: Config, s: State) returns (ls: seq<Label>)
    requires Inv(cfg, s) && RoomForOne(cfg) && !s.pause && UnderWay(s.writer)
    ensures CanRun(cfg, s, ls) && Inv(cfg, Run(cfg, s, ls))
    ensures var t := Run(cfg, s, ls);
            && t.writer.Leaving? && t.writer.ok && SameOp(t.writer.op, s.writer.op)
            && t.pause == s.pause && t.admin == s.admin
  {
    if Loader(s.writer) {
      var first := LoadsOn(cfg, s);
      var t := Run(cfg, s, first);
      var rest := EvictsOn(cfg, t);
      Join(cfg, s, first, t, rest, Run(cfg, t, rest));
      ls := first + rest;
    } else {
      ls := EvictsOn(cfg, s);
    }
  }

  // --------------------------------------------------------- flush and discard

  lemma {:induction false} JobsFor(m: map<nat, Held>) returns (jobs: seq<Job>)
    ensures Unique(jobs) && JobMap(jobs) == m
    decreases |m|
  {
    if m == map[] {
      jobs := [];
    } else {
      var i :| i in m;
      Fewer(m, i);
      var rest := JobsFor(m - {i});
      jobs := [Job(i, m[i])] + rest;
      assert jobs[1..] == rest;
    }
  }

  function Phase(a: Admin): nat {
    match a
    case Gained(_, _) => 4
    case Pausing(_, _) => 3
    case Halted(_, _) => 2
    case _ => 1
  }

  predicate Underneath(a: Admin) {
    InSection(a) && !a.Releasing?
  }

  /** The section's next step, its requests answered; `jobs` is what it takes. */
  ghost function SectionOnward(s: State, jobs: seq<Job>): AdminStep {
    match s.admin
    case Gained(_, _) => Pause
    case Pausing(_, _) => SeeParked
    case Halted(_, _) => Take(jobs)
    case Draining(kind, _, jobs) => if jobs == [] then Resume else if kind.Flush? then PutJob(Stored) else DropJob(true)
    case _ => UnlinkJob(true)
  }

  lemma SectionEnabled(cfg: Config, s: State, jobs: seq<Job>)
    requires Handshake(cfg, s) && Underneath(s.admin) && (s.admin.Pausing? ==> s.parked)
    requires Unique(jobs) && JobMap(jobs) == s.queue.chunks + s.dirty.chunks
    ensures AdminEnabled(cfg, s, SectionOnward(s, jobs))
  {
    match s.admin { case WroteJob(_, _, _) => case _ => }
  }

  /** What a step that does not fail brings the section to. */
  ghost predicate Further(a: Admin, b: Admin)
    requires Underneath(a)
  {
    || b == Releasing(a.kind, a.at, true)
    || (Underneath(b) && b.kind == a.kind && b.at == a.at && Phase(b) < Phase(a))
    || (Drained(a) && |a.jobs| > 0 && b == Draining(a.kind, a.at, a.jobs[1..]))
    || (a.Draining? && b == WroteJob(a.kind, a.at, a.jobs))
  }

  lemma AdminFurther(cfg: Config, s: State, l: AdminStep)
    requires AdminEnabled(cfg, s, l) && Underneath(s.admin) && !GivesUp(l)
    ensures Further(s.admin, AdminNext(cfg, s, l).admin)
  {
    match l { case Resume => case _ => }
  }

  lemma SectionStep(cfg: Config, s: State) returns (l: AdminStep, t: State)
    requires Inv(cfg, s) && Underneath(s.admin) && (s.admin.Pausing? ==> s.parked)
    ensures Enabled(cfg, s, Manage(l)) && t == Next(cfg, s, Manage(l)) && Inv(cfg, t) && Further(s.admin, t.admin)
  {
    var jobs := JobsFor(s.queue.chunks + s.dirty.chunks);
    l := SectionOnward(s, jobs);
    SectionEnabled(cfg, s, jobs);
    AdminFurther(cfg, s, l);
    StepInv(cfg, s, Manage(l));
    t := Next(cfg, s, Manage(l));
  }

  /** One that has exclusivity can return Ok, whatever an earlier one left behind. */
  lemma {:induction false} SectionFinishes(cfg: Config, s: State) returns (ls: seq<Label>)
    requires Inv(cfg, s) && Underneath(s.admin)
    ensures CanRun(cfg, s, ls) && Run(cfg, s, ls).admin == Releasing(s.admin.kind, s.admin.at, true)
    decreases Phase(s.admin), if Drained(s.admin) then |s.admin.jobs| else 0,
              if s.admin.WroteJob? then 0 else 1, if s.parked then 0 else 1
  {
    if s.admin.Pausing? && !s.parked {
      var first := Parks(cfg, s);
      var t := Run(cfg, s, first);
      var rest := SectionFinishes(cfg, t);
      Join(cfg, s, first, t, rest, Run(cfg, t, rest));
      ls := first + rest;
    } else {
      var l, t := SectionStep(cfg, s);
      var rest := [];
      if !t.admin.Releasing? {
        rest := SectionFinishes(cfg, t);
      }
      Prepend(cfg, s, Manage(l), rest);
      ls := [Manage(l)] + rest;
    }
  }

  lemma {:induction false} EndsWrite(cfg: Config, s: State) returns (ls: seq<Label>)
    requires Inv(cfg, s) && (UnderWay(s.writer) ==> RoomForOne(cfg) && !s.pause)
    ensures CanRun(cfg, s, ls) && Inv(cfg, Run(cfg, s, ls))
    ensures Run(cfg, s, ls).writer.Resting? && Run(cfg, s, ls).admin == s.admin
    decreases UnderWay(s.writer)
  {
    if s.writer.Resting? {
      ls := [];
    } else if s.writer.Leaving? {
      StepInv(cfg, s, Evict(EndWrite));
      Prepend(cfg, s, Evict(EndWrite), []);
      ls := [Evict(EndWrite)] + [];
    } else {
      var first := WriteFinishes(cfg, s);
      var t := Run(cfg, s, first);
      var rest := EndsWrite(cfg, t);
      Join(cfg, s, first, t, rest, Run(cfg, t, rest));
      ls := first + rest;
    }
  }

  /** One that waits for exclusivity gets it when the write it waits for has returned. */
  lemma AskedFinishes(cfg: Config, s: State) returns (ls: seq<Label>)
    requires Inv(cfg, s) && s.admin.Asked? && (UnderWay(s.writer) ==> RoomForOne(cfg) && !s.pause)
    ensures CanRun(cfg, s, ls)
    ensures var a := Run(cfg, s, ls).admin; a.Releasing? && a.ok && a.kind == s.admin.kind
  {
    var first := EndsWrite(cfg, s);
    var t := Run(cfg, s, first);
    StepInv(cfg, t, Manage(Gain));
    var rest := SectionFinishes(cfg, Next(cfg, t, Manage(Gain)));
    Prepend(cfg, t, Manage(Gain), rest);
    Join(cfg, s, first, t, [Manage(Gain)] + rest, Run(cfg, t, [Manage(Gain)] + rest));
    ls := first + ([Manage(Gain)] + rest);
  }

  // ------------------------------------------------------------------ over runs

  /**
   Over every run, unless the last flush or discard to end gave up: a write under way can
   still return Ok.
   */
  lemma WriteMayReturn(cfg: Config, s: State, ls: seq<Label>)
    requires Initial(cfg, s) && CanRun(cfg, s, ls) && RoomForOne(cfg)
    requires UnderWay(Run(cfg, s, ls).writer) && !GaveUpLast(ls)
    ensures exists more :: CanRun(cfg, Run(cfg, s, ls), more) && Run(cfg, Run(cfg, s, ls), more).writer.Leaving?
                           && Run(cfg, Run(cfg, s, ls), more).writer.ok
                           && SameOp(Run(cfg, Run(cfg, s, ls), more).writer.op, Run(cfg, s, ls).writer.op)
  {
    InitialInv(cfg, s);
    RunInv(cfg, s, ls);
    PausedIff(cfg, s, ls);
    var more := WriteFinishes(cfg, Run(cfg, s, ls));
  }

  /**
   And a flush or discard that has asked can still return Ok: with exclusivity gained always,
   while it waits for a write whenever that write can return.
   */
  lemma SectionMayReturn(cfg: Config, s: State, ls: seq<Label>)
    requires Initial(cfg, s) && CanRun(cfg, s, ls)
    requires !Run(cfg, s, ls).admin.Away? && !Run(cfg, s, ls).admin.Releasing?
    requires UnderWay(Run(cfg, s, ls).writer) ==> RoomForOne(cfg) && !GaveUpLast(ls)
    ensures exists more :: CanRun(cfg, Run(cfg, s, ls), more) && Run(cfg, Run(cfg, s, ls), more).admin.Releasing?
                           && Run(cfg, Run(cfg, s, ls), more).admin.ok
                           && Run(cfg, Run(cfg, s, ls), more).admin.kind == Run(cfg, s, ls).admin.kind
  {
    InitialInv(cfg, s);
    RunInv(cfg, s, ls);
    PausedIff(cfg, s, ls);
    var t := Run(cfg, s, ls);
    if t.admin.Asked? {
      var more := AskedFinishes(cfg, t);
    } else {
      var more := SectionFinishes(cfg, t);
    }
  }
}
