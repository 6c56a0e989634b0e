/**
 The pause of the worker over whole runs: when it is lifted, when it stays, and what a
 pause that stays does to the volume.
 */
module WriteBackPause {
  import opened Volume
  import opened WriteBackState
  import opened WriteBackSteps
  import opened WriteBackInv
  import opened WriteBackView
  import opened WriteBackRecovery
  import opened WriteBackOrder
  import opened WriteBack

  // --------------------------------------------------------- when it is lifted

  /** A flush or discard gives up at label `k`, and none has ended well since. */
  ghost predicate GaveUpAt(ls: seq<Label>, k: nat) {
    && k < |ls| && ls[k].Manage? && GivesUp(ls[k].manage)
    && forall j :: k < j < |ls| ==> ls[j] != Manage(Resume)
  }

  /** The last flush or discard to end has given up. */
  ghost predicate GaveUpLast(ls: seq<Label>) {
    exists k: nat :: GaveUpAt(ls, k)
  }

  /** The same, label by label, from `before` on. */
  ghost function GivenUp(before: bool, ls: seq<Label>): bool
    decreases |ls|
  {
    if ls == [] then before
    else GivenUp(if ls[0].Manage? && GivesUp(ls[0].manage) then true else before && ls[0] != Manage(Resume), ls[1..])
  }

  ghost predicate Resumes(ls: seq<Label>) {
    exists j :: 0 <= j < |ls| && ls[j] == Manage(Resume)
  }

  lemma GaveUpTail(ls: seq<Label>)
    requires ls != []
    ensures GaveUpLast(ls) <==>
            GaveUpLast(ls[1..]) || (ls[0].Manage? && GivesUp(ls[0].manage) && !Resumes(ls[1..]))
    ensures Resumes(ls) <==> ls[0] == Manage(Resume) || Resumes(ls[1..])
  {
    var tail := ls[1..];
    assert forall k :: 0 <= k < |tail| ==> tail[k] == ls[k + 1];
    if GaveUpLast(tail) {
      var k: nat :| GaveUpAt(tail, k);
      forall j | k + 1 < j < |ls| ensures ls[j] != Manage(Resume) {
        assert tail[j - 1] == ls[j];
      }
      assert GaveUpAt(ls, k + 1);
    }
    if GaveUpLast(ls) {
      var k: nat :| GaveUpAt(ls, k);
      if k > 0 {
        assert GaveUpAt(tail, k - 1);
      }
    }
    if ls[0].Manage? && GivesUp(ls[0].manage) && !Resumes(tail) {
      forall j | 0 < j < |ls| ensures ls[j] != Manage(Resume) {
        assert tail[j - 1] == ls[j];
      }
      assert GaveUpAt(ls, 0);
    }
    if Resumes(tail) {
      var j :| 0 <= j < |tail| && tail[j] == Manage(Resume);
      assert ls[j + 1] == Manage(Resume);
    }
  }

  lemma {:induction false} GivenUpIs(before: bool, ls: seq<Label>)
    ensures GivenUp(before, ls) <==> GaveUpLast(ls) || (before && !Resumes(ls))
    decreases |ls|
  {
    if ls != [] {
      GaveUpTail(ls);
      GivenUpIs(if ls[0].Manage? && GivesUp(ls[0].manage) then true else before && ls[0] != Manage(Resume), ls[1..]);
    }
  }

  /** What the pause flag is at every point of a section and outside of it. */
  ghost predicate PauseOk(cfg: Config, s: State, givenUp: bool) {
    match s.admin
    case Away => s.pause <==> cfg.buffered && givenUp
    case Asked(_) => s.pause <==> cfg.buffered && givenUp
    case Gained(_, _) => s.pause <==> cfg.buffered && givenUp
    case Releasing(_, _, ok) => (ok <==> !givenUp) && (s.pause <==> cfg.buffered && givenUp)
    case _ => s.pause <==> cfg.buffered
  }

  lemma AdminPause(cfg: Config, s: State, l: AdminStep, givenUp: bool)
    requires Handshake(cfg, s) && AdminEnabled(cfg, s, l) && PauseOk(cfg, s, givenUp)
    ensures PauseOk(cfg, AdminNext(cfg, s, l), if GivesUp(l) then true else givenUp && l != Resume)
  {
    match l { case Release => case _ => }
  }

  /** What the writer leaves to the other two. */
  ghost predicate LeavesControl(s: State, t: State) {
    t.pause == s.pause && t.admin == s.admin && t.worker == s.worker
  }

  lemma LoadLeavesControl(cfg: Config, s: State, l: LoadStep)
    requires LoadEnabled(cfg, s, l)
    ensures LeavesControl(s, LoadNext(cfg, s, l))
  {
    match l { case ChunksDone => case _ => }
  }

  lemma EvictLeavesControl(cfg: Config, s: State, l: EvictStep)
    requires EvictEnabled(cfg, s, l)
    ensures LeavesControl(s, EvictNext(cfg, s, l))
  {
    match l { case EndWrite => case _ => }
  }

  lemma WorkLeavesPause(cfg: Config, s: State, l: WorkStep)
    requires WorkEnabled(cfg, s, l)
    ensures WorkNext(cfg, s, l).pause == s.pause && WorkNext(cfg, s, l).admin == s.admin
  {
    match l { case Nap => case _ => }
  }

  /** Only flush and discard touch the flag. */
  lemma OthersPause(cfg: Config, s: State, l: Label)
    requires Enabled(cfg, s, l) && !l.Manage?
    ensures Next(cfg, s, l).pause == s.pause && Next(cfg, s, l).admin == s.admin
  {
    match l
    case Load(a) => LoadLeavesControl(cfg, s, a);
    case Evict(a) => EvictLeavesControl(cfg, s, a);
    case Work(a) => WorkLeavesPause(cfg, s, a);
  }

  lemma {:induction false} RunPause(cfg: Config, s: State, ls: seq<Label>, givenUp: bool)
    requires Inv(cfg, s) && CanRun(cfg, s, ls) && PauseOk(cfg, s, givenUp)
    ensures PauseOk(cfg, Run(cfg, s, ls), GivenUp(givenUp, ls))
    decreases |ls|
  {
    if ls != [] {
      StepInv(cfg, s, ls[0]);
      if ls[0].Manage? {
        AdminPause(cfg, s, ls[0].manage, givenUp);
      } else {
        OthersPause(cfg, s, ls[0]);
      }
      RunPause(cfg, Next(cfg, s, ls[0]), ls[1..],
               if ls[0].Manage? && GivesUp(ls[0].manage) then true else givenUp && ls[0] != Manage(Resume));
    }
  }

  /**
   Over every run: a flush or discard about to return Ok has lifted the pause, one about to
   return an error has not, and outside of them the worker is paused iff there is one and the
   last of them to end gave up.
   */
  lemma PausedIff(cfg: Config, s: State, ls: seq<Label>)
    requires Initial(cfg, s) && CanRun(cfg, s, ls)
    ensures var t := Run(cfg, s, ls);
            && (t.admin.Releasing? ==> (t.pause <==> cfg.buffered && !t.admin.ok))
            && (!InSection(t.admin) ==> (t.pause <==> cfg.buffered && GaveUpLast(ls)))
  {
    InitialInv(cfg, s);
    assert forall k: nat :: !GaveUpAt([], k);
    RunPause(cfg, s, ls, false);
    GivenUpIs(false, ls);
  }

  /** So outside of them a parked worker can go on iff the last of them to end did not give up. */
  lemma UnparksIff(cfg: Config, s: State, ls: seq<Label>)
    requires Initial(cfg, s) && CanRun(cfg, s, ls)
    requires Run(cfg, s, ls).worker.Parked? && !InSection(Run(cfg, s, ls).admin)
    ensures Enabled(cfg, Run(cfg, s, ls), Work(Unpark)) <==> !GaveUpLast(ls)
  {
    InitialInv(cfg, s);
    RunInv(cfg, s, ls);
    PausedIff(cfg, s, ls);
  }

  // --------------------------------------------------------- what a pause stops

  ghost predicate NoResume(ls: seq<Label>) {
    forall k :: 0 <= k < |ls| ==> ls[k] != Manage(Resume)
  }

  function WorkerPuts(ls: seq<Label>): nat
    decreases |ls|
  {
    if ls == [] then 0 else (if ls[0].Work? && ls[0].work.WorkerPut? then 1 else 0) + WorkerPuts(ls[1..])
  }

  /** A worker under pause: how many puts it still makes. */
  function PutsLeft(s: State): nat {
    if s.worker.Putting? then 1 else 0
  }

  lemma WorkUnderPause(cfg: Config, s: State, l: WorkStep)
    requires WorkEnabled(cfg, s, l) && s.pause
    ensures var t := WorkNext(cfg, s, l);
            && t.pause && (s.worker.Parked? ==> t.worker.Parked?)
            && (if l.WorkerPut? then PutsLeft(s) == 1 && PutsLeft(t) == 0 else PutsLeft(t) <= PutsLeft(s))
  {
    match l { case Nap => case _ => }
  }

  lemma AdminLeavesWorker(cfg: Config, s: State, l: AdminStep)
    requires AdminEnabled(cfg, s, l) && l != Resume && s.pause
    ensures AdminNext(cfg, s, l).worker == s.worker && AdminNext(cfg, s, l).pause
  {
    match l { case Release => case _ => }
  }

  lemma OthersLeaveWorker(cfg: Config, s: State, l: Label)
    requires Enabled(cfg, s, l) && !l.Work? && l != Manage(Resume) && s.pause
    ensures Next(cfg, s, l).worker == s.worker && Next(cfg, s, l).pause
  {
    match l
    case Load(a) => LoadLeavesControl(cfg, s, a);
    case Evict(a) => EvictLeavesControl(cfg, s, a);
    case Manage(a) => AdminLeavesWorker(cfg, s, a);
  }

  /**
   From the moment the pause is set until it is lifted the worker starts no put: at most the
   one it had begun is still made. A worker that has parked stays parked.
   */
  lemma {:induction false} PauseStopsPuts(cfg: Config, s: State, ls: seq<Label>)
    requires CanRun(cfg, s, ls) && NoResume(ls) && s.pause
    ensures WorkerPuts(ls) <= PutsLeft(s) && Run(cfg, s, ls).pause
    ensures s.worker.Parked? ==> Run(cfg, s, ls).worker.Parked?
    decreases |ls|
  {
    if ls != [] {
      assert ls[0] != Manage(Resume);
      assert forall k :: 0 <= k < |ls[1..]| ==> ls[1..][k] == ls[k + 1];
      if ls[0].Work? {
        WorkUnderPause(cfg, s, ls[0].work);
      } else {
        OthersLeaveWorker(cfg, s, ls[0]);
      }
      PauseStopsPuts(cfg, Next(cfg, s, ls[0]), ls[1..]);
    }
  }

  // ------------------------------------------------- a write that never returns

  /** A writer over budget under a pause: its oldest chunk cannot go, and nobody will make room. */
  ghost predicate Blocked(cfg: Config, s: State) {
    && cfg.buffered && s.pause && s.worker.Parked? && !InSection(s.admin)
    && s.writer.Evicting? && s.writers > 0
    && 0 < cfg.cacheMax < s.dirty.used && s.dirty.chunks != map[]
    && forall idx :: s.dirty.Oldest(idx) ==> !s.queue.Admits(idx, |s.dirty.chunks[idx].data|, cfg.bufferMax)
  }

  lemma BlockedElsewhere(cfg: Config, s: State)
    requires Blocked(cfg, s)
    ensures forall a :: !LoadEnabled(cfg, s, a)
    ensures forall a :: !EvictEnabled(cfg, s, a)
    ensures forall a :: !WorkEnabled(cfg, s, a)
  {
  }

  /** The only step left is another caller asking for exclusivity, which it does not get. */
  lemma BlockedStep(cfg: Config, s: State, l: Label)
    requires Blocked(cfg, s) && Enabled(cfg, s, l)
    ensures l.Manage? && l.manage.Request?
    ensures Blocked(cfg, Next(cfg, s, l)) && Next(cfg, s, l).writer == s.writer && Next(cfg, s, l).inner == s.inner
  {
    BlockedElsewhere(cfg, s);
    match l
    case Manage(a) => match a { case Release => case _ => }
  }

  /** In every run from there the write stays where it is and the inner store as it is. */
  lemma {:induction false} BlockedForGood(cfg: Config, s: State, ls: seq<Label>)
    requires Blocked(cfg, s) && CanRun(cfg, s, ls)
    ensures var t := Run(cfg, s, ls); Blocked(cfg, t) && t.writer == s.writer && t.inner == s.inner
    decreases |ls|
  {
    if ls != [] {
      BlockedStep(cfg, s, ls[0]);
      BlockedForGood(cfg, Next(cfg, s, ls[0]), ls[1..]);
    }
  }

  /** Such a state is reached only after a flush or discard that gave up. */
  lemma BlockedAfterGivingUp(cfg: Config, s: State, ls: seq<Label>)
    requires Initial(cfg, s) && CanRun(cfg, s, ls) && Blocked(cfg, Run(cfg, s, ls))
    ensures GaveUpLast(ls)
  {
    PausedIff(cfg, s, ls);
  }
}
