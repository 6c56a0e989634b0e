/** The write-back cache over whole runs: every interleaving of writer, worker and admin. */
module WriteBack {
  import opened Volume
  import opened Totals
  import opened WriteBackState
  import opened WriteBackSteps
  import opened WriteBackInv
  import opened WriteBackView
  import opened WriteBackOrder
  import opened WriteBackRecovery
  import opened WriteBackDisk

  // ------------------------------------------------------------ the invariant

  lemma StepBase(cfg: Config, s: State, l: Label)
    requires Inv(cfg, s) && Enabled(cfg, s, l)
    ensures Base(cfg, Next(cfg, s, l))
  {
    match l
    case Load(a) =>
      LoadSizes(cfg, s, a); LoadAccounts(cfg, s, a); LoadHandshake(cfg, s, a); LoadJobHeld(cfg, s, a);
    case Evict(a) =>
      EvictSizes(cfg, s, a); EvictAccounts(cfg, s, a); EvictHandshake(cfg, s, a); EvictJobHeld(cfg, s, a);
    case Work(a) =>
      WorkSizes(cfg, s, a); WorkAccounts(cfg, s, a); WorkHandshake(cfg, s, a); WorkJobHeld(cfg, s, a);
    case Manage(a) =>
      AdminSizes(cfg, s, a); AdminAccounts(cfg, s, a); AdminHandshake(cfg, s, a); AdminJobHeld(cfg, s, a);
  }

  lemma StepInv(cfg: Config, s: State, l: Label)
    requires Inv(cfg, s) && Enabled(cfg, s, l)
    ensures Inv(cfg, Next(cfg, s, l))
  {
    StepBase(cfg, s, l);
    match l
    case Load(a) => LoadWriterKnows(cfg, s, a); LoadAdminKnows(cfg, s, a);
    case Evict(a) =>
      EvictKeepsView(cfg, s, a); EvictWriterKnows(cfg, s, a); EvictAdminKnows(cfg, s, a);
    case Work(a) => WorkWriterKnows(cfg, s, a); WorkAdminKnows(cfg, s, a);
    case Manage(a) => AdminWriterKnows(cfg, s, a); AdminAdminKnows(cfg, s, a);
  }

  lemma InitialInv(cfg: Config, s: State)
    requires Initial(cfg, s)
    ensures Inv(cfg, s) && Stamps(s)
    ensures cfg.disk ==> FilesOk(cfg, s, {}) && Unlinking(s, {})
  {
    NothingHeld();
  }

  /**
   Over every run: counters are the sums of what is held, the queue order lists the
   queued chunks once each with the one in flight first, and the queue is in budget.
   */
  lemma {:induction false} RunInv(cfg: Config, s: State, ls: seq<Label>)
    requires Inv(cfg, s) && CanRun(cfg, s, ls)
    ensures Inv(cfg, Run(cfg, s, ls))
    decreases |ls|
  {
    if ls != [] {
      StepInv(cfg, s, ls[0]);
      RunInv(cfg, Next(cfg, s, ls[0]), ls[1..]);
    }
  }

  lemma RunAccounting(cfg: Config, s: State, ls: seq<Label>)
    requires Initial(cfg, s) && CanRun(cfg, s, ls)
    ensures var t := Run(cfg, s, ls);
            && t.dirty.used == Total(t.dirty.chunks, HeldSize)
            && t.queue.used == Total(t.queue.chunks, HeldSize)
            && (cfg.buffered ==> t.queue.used <= cfg.bufferMax)
            && (forall i, j :: 0 <= i < j < |t.queue.order| ==> t.queue.order[i] != t.queue.order[j])
            && (forall i :: i in t.queue.order <==> i in t.queue.chunks)
            && (t.queue.inflight.Some? ==> |t.queue.order| > 0 && t.queue.order[0] == t.queue.inflight.value)
  {
    InitialInv(cfg, s);
    RunInv(cfg, s, ls);
  }

  // ------------------------------------------------------------- write_at

  /**
   A write that returns Ok has spliced exactly its bytes into the flat array it found
   when it began, and leaves the dirty bytes within the budget.
   */
  lemma WriteReturns(cfg: Config, s: State, ls: seq<Label>)
    requires Initial(cfg, s) && CanRun(cfg, s, ls)
    requires Run(cfg, s, ls).writer.Leaving?
    ensures var t := Run(cfg, s, ls);
            var op := t.writer.op;
            && (t.writer.ok ==>
                 && op.offset + |op.data| <= cfg.capacity == |op.base|
                 && FlatView(cfg, t) == Splice(op.base, op.offset, op.data)
                 && (cfg.cacheMax > 0 ==> t.dirty.used <= cfg.cacheMax))
            && (op.offset + |op.data| <= cfg.capacity ==>
                 && op.done <= |op.data| && |op.base| == cfg.capacity
                 && FlatView(cfg, t) == Splice(op.base, op.offset, op.data[..op.done]))
            && (op.offset + |op.data| > cfg.capacity ==> !t.writer.ok && FlatView(cfg, t) == op.base)
  {
    InitialInv(cfg, s);
    RunInv(cfg, s, ls);
    var op := Run(cfg, s, ls).writer.op;
    assert op.done == |op.data| ==> op.data[..op.done] == op.data;
  }

  // ---------------------------------------------------- the journal of a run

  /** The view, or, while a flush has emptied the maps, what it is storing. */
  ghost function Logical(cfg: Config, s: State): Image {
    if Drained(s.admin) && s.admin.kind.Flush? then s.admin.at else View(cfg, s)
  }

  /** Every held chunk below the capacity is already what the inner store shows. */
  ghost predicate AllStored(cfg: Config, inner: Image, held: map<nat, Held>) {
    forall i :: i in held && cfg.InCap(i) ==> Agree(cfg, i, Chunk(inner, cfg.chunkSize, i), held[i].data)
  }

  /** Letting go of `held` over the inner store: nothing to see iff all of it is stored. */
  ghost function DropEvents(cfg: Config, inner: Image, held: map<nat, Held>): seq<Event>
    requires cfg.Ok()
  {
    if AllStored(cfg, inner, held) then [] else [Sank(FlatOf(cfg, Visible(cfg, inner)))]
  }

  /** What a step does to the logical array: an insertion patches it, a discard and a flush that fails let go. */
  ghost function ViewEvents(cfg: Config, s: State, l: Label): seq<Event>
    requires Enabled(cfg, s, l)
  {
    match l
    case Load(a) => if a.Insert? then [InHand(s)] else []
    case Manage(a) =>
      if a.Take? && s.admin.kind.Discard? then DropEvents(cfg, s.inner, JobMap(a.jobs))
      else if GivesUp(a) && s.admin.kind.Flush? then DropEvents(cfg, AdminNext(cfg, s, a).inner, JobMap(s.admin.jobs))
      else []
    case _ => []
  }

  lemma DropFollows(cfg: Config, inner: Image, held: map<nat, Held>)
    requires cfg.Ok() && Whole(inner, cfg.chunkSize) && HeldWhole(cfg, held)
    ensures Follows(cfg, Visible(cfg, inner + Data(held)), DropEvents(cfg, inner, held), Visible(cfg, inner))
    ensures FlatOf(cfg, Visible(cfg, inner)) == FlatOf(cfg, Visible(cfg, inner + Data(held))) <==> AllStored(cfg, inner, held)
  {
    OverlayIff(cfg, inner, Data(held));
    assert forall i :: i in Data(held) <==> i in held;
    var es := DropEvents(cfg, inner, held);
    if es != [] {
      assert es == [es[0]] && es[0].Sank?;
      assert !OnlyWrites(es) && Writes(es) == [];
    }
  }

  /** Without dirty or queued chunks the view is the inner store. */
  lemma EmptyView(cfg: Config, s: State)
    requires NothingHeldBack(s)
    ensures View(cfg, s) == Visible(cfg, s.inner)
  {
  }

  /**
   While a flush drains, an initiator reads the inner store alone: it sees the array it
   wrote iff every chunk not yet put is already stored.
   */
  lemma DrainViewIff(cfg: Config, s: State)
    requires Inv(cfg, s) && Drained(s.admin) && s.admin.kind.Flush?
    ensures FlatView(cfg, s) == FlatOf(cfg, Logical(cfg, s)) <==> AllStored(cfg, s.inner, JobMap(s.admin.jobs))
  {
    EmptyView(cfg, s);
    DropFollows(cfg, s.inner, JobMap(s.admin.jobs));
  }

  /** What a failing flush leaves of inner-plus-jobs. */
  ghost predicate LetGo(cfg: Config, t: State, at: Image, jobs: seq<Job>) {
    && NothingHeldBack(t) && t.admin == Releasing(Flush, at, false)
    && Whole(t.inner, cfg.chunkSize) && HeldWhole(cfg, JobMap(jobs))
    && Visible(cfg, t.inner + Data(JobMap(jobs))) == at
  }

  lemma PutJobFails(cfg: Config, s: State, landed: bool)
    requires Inv(cfg, s) && AdminEnabled(cfg, s, PutJob(Failed(landed)))
    ensures LetGo(cfg, AdminNext(cfg, s, PutJob(Failed(landed))), s.admin.at, s.admin.jobs)
  {
    var jobs, t := s.admin.jobs, AdminNext(cfg, s, PutJob(Failed(landed)));
    assert t.dirty == s.dirty && t.queue == s.queue && t.admin == Releasing(Flush, s.admin.at, false);
    assert jobs[0].idx in JobMap(jobs) && JobMap(jobs)[jobs[0].idx] == jobs[0].held;
    if t.inner != s.inner {
      PutJobKeeps(cfg, s.inner, jobs);
      assert t.inner == s.inner[jobs[0].idx := jobs[0].held.data];
    }
  }

  lemma GivingUpKeeps(cfg: Config, s: State, l: AdminStep)
    requires Inv(cfg, s) && AdminEnabled(cfg, s, l) && GivesUp(l) && s.admin.kind.Flush?
    ensures LetGo(cfg, AdminNext(cfg, s, l), s.admin.at, s.admin.jobs)
  {
    match l
    case PutJob(put) => PutJobFails(cfg, s, put.landed);
    case UnlinkJob(_) =>
  }

  /** A flush that fails keeps the array iff every chunk it had drained is stored; otherwise those writes are gone. */
  lemma FailedFlushIff(cfg: Config, s: State, l: AdminStep)
    requires Inv(cfg, s) && AdminEnabled(cfg, s, l) && GivesUp(l) && s.admin.kind.Flush?
    ensures var t := AdminNext(cfg, s, l);
            && Follows(cfg, s.admin.at, DropEvents(cfg, t.inner, JobMap(s.admin.jobs)), View(cfg, t))
            && (FlatView(cfg, t) == FlatOf(cfg, s.admin.at) <==> AllStored(cfg, t.inner, JobMap(s.admin.jobs)))
  {
    var t := AdminNext(cfg, s, l);
    GivingUpKeeps(cfg, s, l);
    EmptyView(cfg, t);
    DropFollows(cfg, t.inner, JobMap(s.admin.jobs));
  }

  lemma TakeFollows(cfg: Config, s: State, jobs: seq<Job>)
    requires Inv(cfg, s) && AdminEnabled(cfg, s, Take(jobs))
    ensures Follows(cfg, View(cfg, s), DropEvents(cfg, s.inner, JobMap(jobs)), View(cfg, AdminNext(cfg, s, Take(jobs))))
  {
    EmptyView(cfg, AdminNext(cfg, s, Take(jobs)));
    DataUnion(s.inner, s.queue.chunks, s.dirty.chunks);
    DropFollows(cfg, s.inner, JobMap(jobs));
  }

  /** When a flush ends, the view is again what it set out to store. */
  lemma ResumeLogical(cfg: Config, s: State)
    requires Inv(cfg, s) && AdminEnabled(cfg, s, Resume)
    ensures Logical(cfg, AdminNext(cfg, s, Resume)) == Logical(cfg, s)
  {
    var t := AdminNext(cfg, s, Resume);
    AdminKeepsView(cfg, s, Resume);
    ResumeKnows(cfg, s);
    if s.admin.kind.Flush? {
      EmptyView(cfg, t);
    }
  }

  /** Admin steps that let go of nothing. */
  lemma AdminKeepsLogical(cfg: Config, s: State, l: AdminStep)
    requires Inv(cfg, s) && AdminEnabled(cfg, s, l)
    requires !(l.Take? && s.admin.kind.Discard?) && !(GivesUp(l) && s.admin.kind.Flush?)
    ensures Logical(cfg, AdminNext(cfg, s, l)) == Logical(cfg, s)
  {
    match l
    case Take(_) =>
    case PutJob(_) =>
    case Resume => ResumeLogical(cfg, s);
    case _ => AdminKeepsView(cfg, s, l);
  }

  lemma GivingUpLogical(cfg: Config, s: State, l: AdminStep)
    requires Inv(cfg, s) && Enabled(cfg, s, Manage(l)) && GivesUp(l) && s.admin.kind.Flush?
    ensures Follows(cfg, Logical(cfg, s), ViewEvents(cfg, s, Manage(l)), Logical(cfg, AdminNext(cfg, s, l)))
  {
    var t := AdminNext(cfg, s, l);
    FailedFlushIff(cfg, s, l);
    GivingUpKeeps(cfg, s, l);
    assert Logical(cfg, s) == s.admin.at && Logical(cfg, t) == View(cfg, t);
    assert ViewEvents(cfg, s, Manage(l)) == DropEvents(cfg, t.inner, JobMap(s.admin.jobs));
  }

  lemma AdminLogical(cfg: Config, s: State, l: AdminStep)
    requires Inv(cfg, s) && Enabled(cfg, s, Manage(l))
    ensures Follows(cfg, Logical(cfg, s), ViewEvents(cfg, s, Manage(l)), Logical(cfg, AdminNext(cfg, s, l)))
  {
    if l.Take? && s.admin.kind.Discard? {
      TakeFollows(cfg, s, l.jobs);
    } else if GivesUp(l) && s.admin.kind.Flush? {
      GivingUpLogical(cfg, s, l);
    } else {
      AdminKeepsLogical(cfg, s, l);
    }
  }

  lemma OnePatch(cfg: Config, v: Image, w: Image, p: Event)
    requires cfg.Ok() && p.Patched? && FlatOf(cfg, w) == Apply(FlatOf(cfg, v), p)
    ensures Follows(cfg, v, [p], w)
  {
    assert [p][1..] == [];
  }

  lemma InsertLogical(cfg: Config, s: State)
    requires Inv(cfg, s) && LoadEnabled(cfg, s, Insert)
    ensures Follows(cfg, Logical(cfg, s), [InHand(s)], Logical(cfg, LoadNext(cfg, s, Insert)))
  {
    var t, v := LoadNext(cfg, s, Insert), View(cfg, s);
    assert !Drained(s.admin) && t.admin == s.admin;
    assert Logical(cfg, s) == v && Logical(cfg, t) == View(cfg, t);
    var op, c, chunk := s.writer.op, s.writer.c, s.writer.chunk;
    assert cfg.InCap(c.idx) by { UnderCursor(cfg, op, c); }
    InsertView(cfg, s, t, c.idx, chunk);
    ViewWhole(cfg, s);
    PatchApplies(cfg, v, op, c, chunk);
    OnePatch(cfg, v, View(cfg, t), InHand(s));
  }

  /** Every step, failing or not: the logical array changes by the step's events alone. */
  lemma StepLogical(cfg: Config, s: State, l: Label)
    requires Inv(cfg, s) && Enabled(cfg, s, l)
    ensures Follows(cfg, Logical(cfg, s), ViewEvents(cfg, s, l), Logical(cfg, Next(cfg, s, l)))
  {
    match l
    case Load(a) =>
      if a.Insert? {
        InsertLogical(cfg, s);
      } else {
        LoadKeepsView(cfg, s, a);
      }
    case Evict(a) => EvictKeepsView(cfg, s, a);
    case Work(a) => WorkKeepsView(cfg, s, a);
    case Manage(a) => AdminLogical(cfg, s, a);
  }

  ghost function Journal(cfg: Config, s: State, ls: seq<Label>): seq<Event>
    requires CanRun(cfg, s, ls)
    decreases |ls|
  {
    if ls == [] then [] else ViewEvents(cfg, s, ls[0]) + Journal(cfg, Next(cfg, s, ls[0]), ls[1..])
  }

  /**
   Every interleaving, without exception: whatever the worker hands off, puts, fails to put
   or completes, and whatever flushes and discards run or fail, the array is the journal
   replayed in order: the inserted patches, cut only by the discards and failed flushes
   that let go of something not yet stored.
   */
  lemma {:induction false} RunReplaysJournal(cfg: Config, s: State, ls: seq<Label>)
    requires Inv(cfg, s) && CanRun(cfg, s, ls)
    ensures FlatOf(cfg, Logical(cfg, Run(cfg, s, ls)))
         == Replay(FlatOf(cfg, Logical(cfg, s)), Journal(cfg, s, ls))
    decreases |ls|
  {
    if ls != [] {
      var t := Next(cfg, s, ls[0]);
      StepInv(cfg, s, ls[0]);
      StepLogical(cfg, s, ls[0]);
      RunReplaysJournal(cfg, t, ls[1..]);
      ReplayJoin(FlatOf(cfg, Logical(cfg, s)), ViewEvents(cfg, s, ls[0]), Journal(cfg, t, ls[1..]));
    }
  }

  // ----------------------------------------------------- flush and discard

  ghost predicate InOneSection(ls: seq<Label>) {
    forall k :: 0 <= k < |ls| ==> ls[k] != Manage(Release) && ls[k] != Manage(Gain)
  }

  /** Only the admin's own steps move the admin. */
  lemma OthersLeaveAdmin(cfg: Config, s: State, l: Label)
    requires Enabled(cfg, s, l) && !l.Manage?
    ensures Next(cfg, s, l).admin == s.admin
  {
    match l
    case Load(a) => LoadLeavesAdmin(cfg, s, a);
    case Evict(a) => EvictLeavesAdmin(cfg, s, a);
    case Work(a) => WorkLeavesAdmin(cfg, s, a);
  }

  lemma LoadLeavesAdmin(cfg: Config, s: State, l: LoadStep)
    requires LoadEnabled(cfg, s, l)
    ensures LoadNext(cfg, s, l).admin == s.admin
  {
    match l { case ChunksDone => case _ => }
  }

  lemma EvictLeavesAdmin(cfg: Config, s: State, l: EvictStep)
    requires EvictEnabled(cfg, s, l)
    ensures EvictNext(cfg, s, l).admin == s.admin
  {
    match l { case EndWrite => case _ => }
  }

  lemma WorkLeavesAdmin(cfg: Config, s: State, l: WorkStep)
    requires WorkEnabled(cfg, s, l)
    ensures WorkNext(cfg, s, l).admin == s.admin
  {
    match l { case Nap => case _ => }
  }

  lemma AdminKeepsAt(cfg: Config, s: State, l: AdminStep)
    requires AdminEnabled(cfg, s, l) && l != Release && l != Gain && InSection(s.admin)
    ensures var t := AdminNext(cfg, s, l); InSection(t.admin) && t.admin.at == s.admin.at && t.admin.kind == s.admin.kind
  {
    match l { case Release => case _ => }
  }

  lemma {:induction false} SectionKeepsAt(cfg: Config, s: State, ls: seq<Label>)
    requires CanRun(cfg, s, ls) && InOneSection(ls) && InSection(s.admin)
    ensures var t := Run(cfg, s, ls); InSection(t.admin) && t.admin.at == s.admin.at && t.admin.kind == s.admin.kind
    decreases |ls|
  {
    if ls != [] {
      assert ls[0] != Manage(Release) && ls[0] != Manage(Gain);
      assert forall k :: 0 <= k < |ls[1..]| ==> ls[1..][k] == ls[k + 1];
      if ls[0].Manage? {
        AdminKeepsAt(cfg, s, ls[0].manage);
      } else {
        OthersLeaveAdmin(cfg, s, ls[0]);
      }
      SectionKeepsAt(cfg, Next(cfg, s, ls[0]), ls[1..]);
    }
  }

  /**
   A flush that returns Ok leaves nothing dirty or queued, and the inner store equal,
   byte for byte up to the capacity, to the view at the moment it gained exclusivity.
   */
  lemma FlushReturns(cfg: Config, s: State, ls: seq<Label>)
    requires Inv(cfg, s) && CanRun(cfg, s, ls)
    requires s.admin == Asked(Flush) && |ls| > 0 && ls[0] == Manage(Gain) && InOneSection(ls[1..])
    requires Run(cfg, s, ls).admin.Releasing? && Run(cfg, s, ls).admin.ok
    ensures var t := Run(cfg, s, ls);
            && t.dirty.chunks == map[] && t.queue.chunks == map[]
            && Whole(t.inner, cfg.chunkSize)
            && Flat(t.inner, cfg.chunkSize, cfg.capacity) == FlatView(cfg, s)
  {
    var g, t := Next(cfg, s, ls[0]), Run(cfg, s, ls);
    RunInv(cfg, s, ls);
    SectionKeepsAt(cfg, g, ls[1..]);
    ViewWhole(cfg, s);
    ViewWhole(cfg, t);
    assert Visible(cfg, t.inner) == View(cfg, s);
    VisibleFlat(cfg, t.inner);
  }

  lemma VisibleFlat(cfg: Config, img: Image)
    requires cfg.Ok() && Whole(img, cfg.chunkSize)
    ensures Whole(Visible(cfg, img), cfg.chunkSize)
    ensures Flat(Visible(cfg, img), cfg.chunkSize, cfg.capacity) == Flat(img, cfg.chunkSize, cfg.capacity)
  {
    forall idx ensures SameChunk(Visible(cfg, img), img, cfg.chunkSize, cfg.capacity, idx) {
    }
    FlatAgree(Visible(cfg, img), img, cfg.chunkSize, cfg.capacity);
  }

  lemma StepOrder(cfg: Config, s: State, l: Label, top: nat)
    requires Inv(cfg, s) && Orderly(s, top) && Enabled(cfg, s, l)
    ensures Orderly(Next(cfg, s, l), top) && Puts(s, Next(cfg, s, l), top)
  {
    match l
    case Load(a) => LoadOrder(cfg, s, a, top);
    case Evict(a) => EvictOrder(cfg, s, a, top);
    case Work(a) => WorkOrder(cfg, s, a, top);
    case Manage(a) => AdminOrder(cfg, s, a, top);
  }

  /** Over every run, per chunk, no put is older than one before it, and none is from before `top`. */
  lemma {:induction false} RunPuts(cfg: Config, s: State, ls: seq<Label>, top: nat)
    requires Inv(cfg, s) && Orderly(s, top) && CanRun(cfg, s, ls)
    ensures Orderly(Run(cfg, s, ls), top) && Puts(s, Run(cfg, s, ls), top)
    decreases |ls|
  {
    if ls != [] {
      StepInv(cfg, s, ls[0]);
      StepOrder(cfg, s, ls[0], top);
      RunPuts(cfg, Next(cfg, s, ls[0]), ls[1..], top);
      PutsJoin(s, Next(cfg, s, ls[0]), Run(cfg, s, ls), top);
    }
  }

  /**
   Once `discard_dirty` is about to return, whatever the inner store takes later in the
   run was inserted after it: no snapshot from before the discard is ever put.
   */
  lemma DiscardForgets(cfg: Config, s: State, ls: seq<Label>)
    requires Inv(cfg, s) && Stamps(s) && CanRun(cfg, s, ls)
    requires s.admin.Releasing? && s.admin.kind == Discard && s.admin.ok
    ensures s.dirty.chunks == map[] && s.queue.chunks == map[]
    ensures var t := Run(cfg, s, ls);
            forall i :: Untouched(s, t, i) || (i in t.landed && t.landed[i] > s.dirty.stamp)
  {
    RunPuts(cfg, s, ls, s.dirty.stamp);
  }

  /** In every reachable state a dirty copy is newer than the queued one and than any put. */
  lemma DirtyIsNewest(cfg: Config, s: State, ls: seq<Label>, i: nat)
    requires Initial(cfg, s) && CanRun(cfg, s, ls)
    ensures var t := Run(cfg, s, ls);
            && (i in t.dirty.chunks && i in t.queue.chunks ==> t.queue.chunks[i].stamp < t.dirty.chunks[i].stamp)
            && (i in t.dirty.chunks && i in t.landed ==> t.landed[i] <= t.dirty.chunks[i].stamp)
            && (i in t.queue.chunks && i in t.landed ==> t.landed[i] <= t.queue.chunks[i].stamp)
  {
    InitialInv(cfg, s);
    RunPuts(cfg, s, ls, 0);
  }

  // ------------------------------------------------------- the 64-bit ticks

  ghost predicate StampsIn(d: Dirty, lo: nat, hi: nat) {
    forall i :: i in d.chunks ==> lo < d.chunks[i].stamp <= hi
  }

  ghost predicate LeastRecent(d: Dirty, idx: nat) {
    idx in d.chunks && forall j :: j in d.chunks ==> d.chunks[idx].stamp <= d.chunks[j].stamp
  }

  lemma SameLap(a: nat, b: nat)
    requires a / U64 == b / U64
    ensures a % U64 <= b % U64 <==> a <= b
  {
  }

  lemma Laps(a: nat, x: nat, b: nat)
    requires a <= x <= b && a / U64 == b / U64
    ensures x / U64 == a / U64
  {
  }

  /**
   Eviction compares 64-bit ticks. It picks the least recently written chunk, whatever is
   dirty, iff the counter did not pass a multiple of 2^64 while the dirty chunks were written.
   */
  lemma EvictionOrderIff(lo: nat, hi: nat)
    ensures (forall d: Dirty, idx :: StampsIn(d, lo, hi) && d.Oldest(idx) ==> LeastRecent(d, idx))
       <==> (hi <= lo || (lo + 1) / U64 == hi / U64)
  {
    if hi <= lo || (lo + 1) / U64 == hi / U64 {
      forall d: Dirty, idx | StampsIn(d, lo, hi) && d.Oldest(idx) ensures LeastRecent(d, idx) {
        forall j | j in d.chunks ensures d.chunks[idx].stamp <= d.chunks[j].stamp {
          var a, b := d.chunks[idx].stamp, d.chunks[j].stamp;
          assert lo < a <= hi && lo < b <= hi;
          Laps(lo + 1, a, hi);
          Laps(lo + 1, b, hi);
          SameLap(a, b);
        }
      }
    } else {
      var k := hi / U64 * U64;
      assert lo + 1 < k <= hi && k % U64 == 0 && (k - 1) % U64 == U64 - 1;
      var d := Dirty(map[0 := Held([], k - 1), 1 := Held([], k)], 0, hi);
      assert StampsIn(d, lo, hi) && d.Oldest(1);
      assert d.chunks[0].stamp < d.chunks[1].stamp && !LeastRecent(d, 1);
    }
  }

  // -------------------------------------------------------- crash recovery

  lemma StepFiles(cfg: Config, s: State, l: Label, loose: set<nat>)
    requires cfg.disk && Inv(cfg, s) && FilesOk(cfg, s, loose) && Unlinking(s, loose) && Enabled(cfg, s, l)
    ensures FilesOk(cfg, Next(cfg, s, l), LooseNext(s, l, loose)) && Unlinking(Next(cfg, s, l), LooseNext(s, l, loose))
  {
    match l
    case Load(a) => LoadFiles(cfg, s, a, loose); LoadUnlinking(cfg, s, a, loose);
    case Evict(a) => EvictFiles(cfg, s, a, loose); EvictUnlinking(cfg, s, a, loose);
    case Work(a) => WorkFiles(cfg, s, a, loose); WorkUnlinking(cfg, s, a, loose);
    case Manage(a) => AdminFiles(cfg, s, a, loose); AdminUnlinking(cfg, s, a, loose);
  }

  /** Every step, failing or not: what a crash would recover changes by the step's events alone. */
  lemma StepDisk(cfg: Config, s: State, l: Label, loose: set<nat>)
    requires cfg.disk && Inv(cfg, s) && FilesOk(cfg, s, loose) && Unlinking(s, loose) && Enabled(cfg, s, l)
    ensures Follows(cfg, Recovered(cfg, s), DiskEvents(cfg, s, l), Recovered(cfg, Next(cfg, s, l)))
  {
    match l
    case Load(a) => LoadDisk(cfg, s, a, loose);
    case Evict(a) => EvictDisk(cfg, s, a, loose);
    case Work(a) => WorkDisk(cfg, s, a, loose);
    case Manage(a) => AdminDisk(cfg, s, a, loose);
  }

  ghost function DiskJournal(cfg: Config, s: State, ls: seq<Label>): seq<Event>
    requires CanRun(cfg, s, ls)
    decreases |ls|
  {
    if ls == [] then [] else DiskEvents(cfg, s, ls[0]) + DiskJournal(cfg, Next(cfg, s, ls[0]), ls[1..])
  }

  lemma {:induction false} RunDisk(cfg: Config, s: State, ls: seq<Label>, loose: set<nat>)
    requires cfg.disk && Inv(cfg, s) && FilesOk(cfg, s, loose) && Unlinking(s, loose) && CanRun(cfg, s, ls)
    ensures Whole(Run(cfg, s, ls).files, cfg.chunkSize)
    ensures FlatOf(cfg, Recovered(cfg, Run(cfg, s, ls)))
         == Replay(FlatOf(cfg, Recovered(cfg, s)), DiskJournal(cfg, s, ls))
    decreases |ls|
  {
    if ls != [] {
      var t := Next(cfg, s, ls[0]);
      StepInv(cfg, s, ls[0]);
      StepFiles(cfg, s, ls[0], loose);
      StepDisk(cfg, s, ls[0], loose);
      RunDisk(cfg, t, ls[1..], LooseNext(s, ls[0], loose));
      ReplayJoin(FlatOf(cfg, Recovered(cfg, s)), DiskEvents(cfg, s, ls[0]), DiskJournal(cfg, t, ls[1..]));
    }
  }

  // ------------------------------------------- the two journals hold the same writes

  /** The patch whose file is written and which is not yet inserted. */
  function Ahead(s: State): seq<Event> {
    if s.writer.Persisted? then [InHand(s)] else []
  }

  lemma PersistSamePatches(cfg: Config, op: Op, c: Cursor, chunk: Bytes, disk: Bytes)
    ensures Writes(PersistEvents(cfg, op, c, chunk, disk)) == [PatchOf(op, c)]
  {
    WritesJoin(if SameAround(cfg, c, chunk, disk) then [] else [FallsTo(cfg, c.idx, chunk)], [PatchOf(op, c)]);
  }

  lemma PersistAhead(cfg: Config, s: State, ok: bool)
    requires Enabled(cfg, s, Load(Persist(ok)))
    ensures Ahead(s) == [] && Writes(LoadEvents(cfg, s, Persist(ok))) == Ahead(LoadNext(cfg, s, Persist(ok)))
  {
    if ok {
      PersistSamePatches(cfg, s.writer.op, s.writer.c, s.writer.chunk, OnDisk(cfg, s, s.writer.c.idx));
      assert Ahead(LoadNext(cfg, s, Persist(ok))) == [PatchOf(s.writer.op, s.writer.c)];
    }
  }

  lemma InsertAhead(cfg: Config, s: State)
    requires Enabled(cfg, s, Load(Insert))
    ensures Ahead(s) == [InHand(s)] == Writes([InHand(s)]) && Ahead(LoadNext(cfg, s, Insert)) == []
  {
    assert [InHand(s)][1..] == [];
  }

  lemma LoadSamePatches(cfg: Config, s: State, l: LoadStep)
    requires Enabled(cfg, s, Load(l))
    ensures Ahead(s) + Writes(LoadEvents(cfg, s, l)) == Writes(ViewEvents(cfg, s, Load(l))) + Ahead(LoadNext(cfg, s, l))
  {
    match l
    case Persist(ok) => PersistAhead(cfg, s, ok);
    case Insert => InsertAhead(cfg, s);
    case _ => assert Ahead(s) == [] == Ahead(LoadNext(cfg, s, l));
  }

  lemma StepSamePatches(cfg: Config, s: State, l: Label)
    requires Enabled(cfg, s, l) && Handshake(cfg, s)
    ensures Ahead(s) + Writes(DiskEvents(cfg, s, l)) == Writes(ViewEvents(cfg, s, l)) + Ahead(Next(cfg, s, l))
  {
    match l
    case Load(a) => LoadSamePatches(cfg, s, a);
    case Evict(a) => EvictAhead(cfg, s, a);
    case Work(a) => WorkAhead(cfg, s, a);
    case Manage(a) => AdminAhead(cfg, s, a);
  }

  lemma EvictAhead(cfg: Config, s: State, l: EvictStep)
    requires EvictEnabled(cfg, s, l)
    ensures Ahead(EvictNext(cfg, s, l)) == Ahead(s) == []
  {
    match l { case EndWrite => case _ => }
  }

  lemma WorkAhead(cfg: Config, s: State, l: WorkStep)
    requires WorkEnabled(cfg, s, l)
    ensures Ahead(WorkNext(cfg, s, l)) == Ahead(s) && Writes(WorkEvents(cfg, s, l)) == []
  {
    match l { case Nap => case _ => }
  }

  lemma AdminAhead(cfg: Config, s: State, l: AdminStep)
    requires Enabled(cfg, s, Manage(l))
    ensures Ahead(AdminNext(cfg, s, l)) == Ahead(s)
    ensures Writes(AdminEvents(cfg, s, l)) == [] == Writes(ViewEvents(cfg, s, Manage(l)))
  {
    match l { case Release => case _ => }
  }

  /** Memory and disk take the same patches in the same order; the disk is at most one ahead. */
  lemma {:induction false} SamePatches(cfg: Config, s: State, ls: seq<Label>)
    requires Inv(cfg, s) && CanRun(cfg, s, ls)
    ensures Ahead(s) + Writes(DiskJournal(cfg, s, ls)) == Writes(Journal(cfg, s, ls)) + Ahead(Run(cfg, s, ls))
    decreases |ls|
  {
    if ls != [] {
      var t := Next(cfg, s, ls[0]);
      var d, v := DiskJournal(cfg, t, ls[1..]), Journal(cfg, t, ls[1..]);
      StepInv(cfg, s, ls[0]);
      StepSamePatches(cfg, s, ls[0]);
      SamePatches(cfg, t, ls[1..]);
      WritesJoin(DiskEvents(cfg, s, ls[0]), d);
      WritesJoin(ViewEvents(cfg, s, ls[0]), v);
      JoinSwap(Ahead(s), Writes(DiskEvents(cfg, s, ls[0])), Writes(d),
               Writes(ViewEvents(cfg, s, ls[0])), Ahead(t), Writes(v), Ahead(Run(cfg, s, ls)));
    } else {
      assert Ahead(s) + [] == [] + Ahead(s);
    }
  }

  lemma JoinSwap(a: seq<Event>, b: seq<Event>, c: seq<Event>, x: seq<Event>, y: seq<Event>, z: seq<Event>, w: seq<Event>)
    requires a + b == x + y && y + c == z + w
    ensures a + (b + c) == (x + z) + w
  {
    assert a + (b + c) == (a + b) + c;
    assert (x + y) + c == x + (y + c);
    assert x + (z + w) == (x + z) + w;
  }

  /** A fresh start sees on disk what it holds in memory. */
  lemma InitialDisk(cfg: Config, s: State)
    requires cfg.disk && Initial(cfg, s)
    ensures View(cfg, s) == Recovered(cfg, s)
  {
    assert Data(s.queue.chunks) == map[];
    assert s.inner + Data(s.queue.chunks) + Data(s.dirty.chunks) == s.inner + s.files;
  }

  /**
   Disk mode, a crash after any step of any run, without exception: files over inner are
   the disk journal replayed. It holds the inserted patches in order, plus at most the one
   in hand, and falls only where a step lost something, each with what was lost to.
   */
  lemma CrashRecovers(cfg: Config, s: State, ls: seq<Label>)
    requires Initial(cfg, s) && cfg.disk && CanRun(cfg, s, ls)
    ensures var t := Run(cfg, s, ls);
            && Whole(t.files, cfg.chunkSize)
            && FlatOf(cfg, Recovered(cfg, t)) == Replay(FlatView(cfg, s), DiskJournal(cfg, s, ls))
            && Writes(DiskJournal(cfg, s, ls)) == Writes(Journal(cfg, s, ls)) + Ahead(t)
  {
    InitialInv(cfg, s);
    InitialDisk(cfg, s);
    RunDisk(cfg, s, ls, {});
    SamePatches(cfg, s, ls);
    assert Ahead(s) == [];
    var d := Writes(DiskJournal(cfg, s, ls));
    assert [] + d == d;
  }

  /** If no range fell, a crash recovers every inserted patch, plus at most the one in hand. */
  lemma LosslessCrash(cfg: Config, s: State, ls: seq<Label>)
    requires Initial(cfg, s) && cfg.disk && CanRun(cfg, s, ls) && OnlyWrites(DiskJournal(cfg, s, ls))
    ensures FlatOf(cfg, Recovered(cfg, Run(cfg, s, ls)))
         == Replay(FlatView(cfg, s), Writes(Journal(cfg, s, ls)) + Ahead(Run(cfg, s, ls)))
  {
    CrashRecovers(cfg, s, ls);
    WritesAll(DiskJournal(cfg, s, ls));
  }

  ghost predicate PlainRun(cfg: Config, s: State, ls: seq<Label>)
    requires CanRun(cfg, s, ls)
    decreases |ls|
  {
    ls == [] || (Plain(s, ls[0]) && PlainRun(cfg, Next(cfg, s, ls[0]), ls[1..]))
  }

  /** A range falls only after a race, or a flush or discard that fails, or by a discard. */
  lemma {:induction false} PlainIsLossless(cfg: Config, s: State, ls: seq<Label>)
    requires cfg.disk && Inv(cfg, s) && FilesOk(cfg, s, {}) && Unlinking(s, {}) && CanRun(cfg, s, ls) && PlainRun(cfg, s, ls)
    ensures OnlyWrites(DiskJournal(cfg, s, ls))
    decreases |ls|
  {
    if ls != [] {
      StepInv(cfg, s, ls[0]);
      StepFiles(cfg, s, ls[0], {});
      PlainEvents(cfg, s, ls[0]);
      PlainIsLossless(cfg, Next(cfg, s, ls[0]), ls[1..]);
    }
  }

  /** No label lets a flush or discard fail, or a discard drop a file. */
  ghost predicate NothingDropped(ls: seq<Label>) {
    forall k :: 0 <= k < |ls| && ls[k].Manage? ==> !GivesUp(ls[k].manage) && !ls[k].manage.DropJob?
  }

  /** Without the queue there is no worker, so the race cannot happen. */
  lemma {:induction false} NoQueueNoRace(cfg: Config, s: State, ls: seq<Label>)
    requires Inv(cfg, s) && !cfg.buffered && CanRun(cfg, s, ls)
    ensures forall k :: 0 <= k < |ls| ==> !ls[k].Work?
    ensures NothingDropped(ls) ==> PlainRun(cfg, s, ls)
    decreases |ls|
  {
    if ls != [] {
      assert !ls[0].Work?;
      StepInv(cfg, s, ls[0]);
      NoQueueNoRace(cfg, Next(cfg, s, ls[0]), ls[1..]);
      assert forall k :: 0 < k < |ls| ==> ls[k] == ls[1..][k - 1];
      if NothingDropped(ls) {
        assert forall k :: 0 <= k < |ls[1..]| ==> ls[1..][k] == ls[k + 1];
      }
    }
  }

  /** Disk mode with the queue off: whatever the schedule, only a discard or a failing flush can lose anything. */
  lemma CrashRecoversWithoutQueue(cfg: Config, s: State, ls: seq<Label>)
    requires Initial(cfg, s) && cfg.disk && !cfg.buffered && CanRun(cfg, s, ls)
    ensures FlatOf(cfg, Recovered(cfg, Run(cfg, s, ls))) == Replay(FlatView(cfg, s), DiskJournal(cfg, s, ls))
    ensures NothingDropped(ls) ==>
              && OnlyWrites(DiskJournal(cfg, s, ls))
              && FlatOf(cfg, Recovered(cfg, Run(cfg, s, ls)))
                   == Replay(FlatView(cfg, s), Writes(Journal(cfg, s, ls)) + Ahead(Run(cfg, s, ls)))
  {
    InitialInv(cfg, s);
    NoQueueNoRace(cfg, s, ls);
    CrashRecovers(cfg, s, ls);
    if NothingDropped(ls) {
      PlainIsLossless(cfg, s, ls);
      LosslessCrash(cfg, s, ls);
    }
  }

  // ----------------------------------------------------------------- restart

  /** The cache a restart builds: the recovered files are dirty again, over the inner store as it is. */
  ghost function Restarted(cfg: Config, t: State, d: Dirty): State {
    State(d, NoQueue, t.inner, map[], t.files, Free, false, false, false, 0,
          Resting, if cfg.buffered then Top else Absent, Away)
  }

  lemma RestartSees(cfg: Config, t: State, d: Dirty)
    requires cfg.Ok() && cfg.disk && Whole(t.inner, cfg.chunkSize) && Whole(t.files, cfg.chunkSize)
    requires Reloads(d, t.files)
    ensures Initial(cfg, Restarted(cfg, t, d))
    ensures View(cfg, Restarted(cfg, t, d)) == Recovered(cfg, t)
  {
    var r := Restarted(cfg, t, d);
    assert forall i :: i in d.chunks ==> i in t.files && d.chunks[i].data == t.files[i];
    InitialDisk(cfg, r);
  }

  /** Run, crash, restart, with or without the queue: the initiator finds the disk journal replayed. */
  lemma RestartFindsWrites(cfg: Config, s: State, ls: seq<Label>, d: Dirty)
    requires Initial(cfg, s) && cfg.disk && CanRun(cfg, s, ls) && Reloads(d, Run(cfg, s, ls).files)
    ensures var r := Restarted(cfg, Run(cfg, s, ls), d);
            && Initial(cfg, r)
            && FlatView(cfg, r) == Replay(FlatView(cfg, s), DiskJournal(cfg, s, ls))
            && (OnlyWrites(DiskJournal(cfg, s, ls)) ==>
                  FlatView(cfg, r) == Replay(FlatView(cfg, s), Writes(Journal(cfg, s, ls)) + Ahead(Run(cfg, s, ls))))
  {
    CrashRecovers(cfg, s, ls);
    InitialInv(cfg, s);
    RunInv(cfg, s, ls);
    RestartSees(cfg, Run(cfg, s, ls), d);
    if OnlyWrites(DiskJournal(cfg, s, ls)) {
      LosslessCrash(cfg, s, ls);
    }
  }
}
