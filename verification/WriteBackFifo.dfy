/**
 The put queue is first in, first out, over whole runs: told from the labels of a run alone,
 chunks stand in the queue in the order in which they were handed over.
 */
module WriteBackFifo {
  import opened Volume
  import opened WriteBackState
  import opened WriteBackSteps
  import opened WriteBackInv
  import opened WriteBackView
  import opened WriteBack

  /** The chunk a label hands to the queue, from `write_at` or from the worker. */
  function Handed(l: Label): Option<nat> {
    if l.Evict? && l.evict.EvictMove? then Some(l.evict.idx)
    else if l.Work? && l.work.Handoff? then Some(l.work.idx)
    else None
  }

  predicate Hands(l: Label, i: nat) {
    Handed(l) == Some(i)
  }

  /** Where in a run chunk `i` was last handed over; -1 if it never was. */
  function LastHanded(ls: seq<Label>, i: nat): (k: int)
    ensures -1 <= k < |ls|
    ensures k >= 0 ==> Hands(ls[k], i)
    ensures forall j :: k < j < |ls| ==> !Hands(ls[j], i)
  {
    if ls == [] then -1
    else if Hands(ls[|ls| - 1], i) then |ls| - 1
    else LastHanded(ls[..|ls| - 1], i)
  }

  lemma LastHandedIs(ls: seq<Label>, i: nat, k: nat)
    requires k < |ls| && Hands(ls[k], i) && forall j :: k < j < |ls| ==> !Hands(ls[j], i)
    ensures LastHanded(ls, i) == k
  {
  }

  /** The order lists chunks by when they were last handed over, each of them once. */
  ghost predicate InTurn(order: seq<nat>, ls: seq<Label>) {
    && (forall a :: 0 <= a < |order| ==> LastHanded(ls, order[a]) >= 0)
    && (forall a, b :: 0 <= a < b < |order| ==> LastHanded(ls, order[a]) < LastHanded(ls, order[b]))
  }

  // ---------------------------------------------------------------- one step

  /** What a step may do to the order, as far as turns go. */
  ghost predicate TurnsKept(s: State, t: State, l: Label) {
    match Handed(l)
    case Some(i) => i !in s.queue.order && t.queue.order == s.queue.order + [i]
    case None =>
      t.queue.order == s.queue.order || t.queue.order == [] || (s.queue.order != [] && t.queue.order == s.queue.order[1..])
  }

  lemma EvictTurns(cfg: Config, s: State, l: EvictStep)
    requires Accounts(cfg, s) && EvictEnabled(cfg, s, l)
    ensures TurnsKept(s, EvictNext(cfg, s, l), Evict(l))
  {
    match l { case EndWrite => case _ => }
  }

  /** Only the chunk in front leaves on completion of a put. */
  lemma CompleteTurns(cfg: Config, s: State, current: bool)
    requires Accounts(cfg, s) && JobHeld(cfg, s) && WorkEnabled(cfg, s, Complete(current))
    ensures TurnsKept(s, WorkNext(cfg, s, Complete(current)), Work(Complete(current)))
  {
    WithoutSpec(s.queue.order, s.worker.job.idx);
  }

  lemma WorkTurns(cfg: Config, s: State, l: WorkStep)
    requires Accounts(cfg, s) && JobHeld(cfg, s) && WorkEnabled(cfg, s, l)
    ensures TurnsKept(s, WorkNext(cfg, s, l), Work(l))
  {
    match l
    case Handoff(idx) =>
    case Complete(current) => CompleteTurns(cfg, s, current);
    case _ => WorkKeepsOrder(cfg, s, l);
  }

  lemma WorkKeepsOrder(cfg: Config, s: State, l: WorkStep)
    requires WorkEnabled(cfg, s, l) && !l.Handoff? && !l.Complete?
    ensures WorkNext(cfg, s, l).queue.order == s.queue.order
  {
    match l { case Nap => case _ => }
  }

  lemma LoadTurns(cfg: Config, s: State, l: LoadStep)
    requires LoadEnabled(cfg, s, l)
    ensures LoadNext(cfg, s, l).queue == s.queue
  {
    match l { case ChunksDone => case _ => }
  }

  lemma AdminTurns(cfg: Config, s: State, l: AdminStep)
    requires AdminEnabled(cfg, s, l)
    ensures AdminNext(cfg, s, l).queue == s.queue || AdminNext(cfg, s, l).queue.order == []
  {
    match l { case Release => case _ => }
  }

  lemma StepTurns(cfg: Config, s: State, l: Label)
    requires Inv(cfg, s) && Enabled(cfg, s, l)
    ensures TurnsKept(s, Next(cfg, s, l), l)
  {
    match l
    case Load(a) => LoadTurns(cfg, s, a);
    case Evict(a) => EvictTurns(cfg, s, a);
    case Work(a) => WorkTurns(cfg, s, a);
    case Manage(a) => AdminTurns(cfg, s, a);
  }

  lemma OneMoreLabel(ls: seq<Label>, l: Label, i: nat)
    ensures LastHanded(ls + [l], i) == if Hands(l, i) then |ls| else LastHanded(ls, i)
  {
    assert (ls + [l])[..|ls|] == ls;
  }

  lemma TurnsAfter(s: State, t: State, ls: seq<Label>, l: Label)
    requires InTurn(s.queue.order, ls) && TurnsKept(s, t, l)
    ensures InTurn(t.queue.order, ls + [l])
  {
    var was, now, more := s.queue.order, t.queue.order, ls + [l];
    forall a | 0 <= a < |now| ensures LastHanded(more, now[a]) == if Hands(l, now[a]) then |ls| else LastHanded(ls, now[a]) {
      OneMoreLabel(ls, l, now[a]);
    }
    match Handed(l)
    case Some(i) => forall a | 0 <= a < |was| ensures now[a] == was[a] != i { }
    case None => TurnsTail(was, ls);
  }

  lemma TurnsTail(order: seq<nat>, ls: seq<Label>)
    requires InTurn(order, ls)
    ensures order != [] ==> InTurn(order[1..], ls)
  {
    if order != [] {
      var tail := order[1..];
      assert forall a :: 0 <= a < |tail| ==> tail[a] == order[a + 1];
    }
  }

  // ---------------------------------------------------------------- whole runs

  lemma {:induction false} LastStep(cfg: Config, s: State, ls: seq<Label>)
    requires CanRun(cfg, s, ls) && ls != []
    ensures CanRun(cfg, s, ls[..|ls| - 1]) && Enabled(cfg, Run(cfg, s, ls[..|ls| - 1]), ls[|ls| - 1])
    ensures Run(cfg, s, ls) == Next(cfg, Run(cfg, s, ls[..|ls| - 1]), ls[|ls| - 1])
    decreases |ls|
  {
    var init := ls[..|ls| - 1];
    if |ls| > 1 {
      var tail := ls[1..];
      LastStep(cfg, Next(cfg, s, ls[0]), tail);
      assert tail[..|tail| - 1] == init[1..] && tail[|tail| - 1] == ls[|ls| - 1];
    }
  }

  lemma {:induction false} RunTo(cfg: Config, s: State, ls: seq<Label>, k: nat)
    requires CanRun(cfg, s, ls) && k <= |ls|
    ensures CanRun(cfg, s, ls[..k])
    decreases |ls| - k
  {
    if k < |ls| {
      RunTo(cfg, s, ls, k + 1);
      LastStep(cfg, s, ls[..k + 1]);
      assert ls[..k + 1][..k] == ls[..k];
    } else {
      assert ls[..k] == ls;
    }
  }

  /** Over every run the queue lists its chunks by when they were last handed over. */
  lemma {:induction false} RunInTurn(cfg: Config, s: State, ls: seq<Label>)
    requires Initial(cfg, s) && CanRun(cfg, s, ls)
    ensures InTurn(Run(cfg, s, ls).queue.order, ls)
    decreases |ls|
  {
    if ls != [] {
      var init, l := ls[..|ls| - 1], ls[|ls| - 1];
      LastStep(cfg, s, ls);
      RunInTurn(cfg, s, init);
      InitialInv(cfg, s);
      RunInv(cfg, s, init);
      StepTurns(cfg, Run(cfg, s, init), l);
      TurnsAfter(Run(cfg, s, init), Run(cfg, s, ls), init, l);
      assert init + [l] == ls;
    }
  }

  /** Handed over at label `k`, chunk `i` has been in the queue in every state since. */
  ghost predicate QueuedSince(cfg: Config, s: State, ls: seq<Label>, k: nat, i: nat)
    requires CanRun(cfg, s, ls)
  {
    && k < |ls| && Hands(ls[k], i)
    && forall n :: k < n <= |ls| ==> CanRun(cfg, s, ls[..n]) && i in Run(cfg, s, ls[..n]).queue.chunks
  }

  lemma QueuedIsLast(cfg: Config, s: State, ls: seq<Label>, k: nat, i: nat)
    requires CanRun(cfg, s, ls) && QueuedSince(cfg, s, ls, k, i)
    ensures LastHanded(ls, i) == k && i in Run(cfg, s, ls).queue.chunks
  {
    forall j | k < j < |ls| ensures !Hands(ls[j], i) {
      RunTo(cfg, s, ls, j + 1);
      LastStep(cfg, s, ls[..j + 1]);
      assert ls[..j + 1][..j] == ls[..j];
      assert i in Run(cfg, s, ls[..j]).queue.chunks;
    }
    LastHandedIs(ls, i, k);
    assert ls[..|ls|] == ls;
  }

  /** Of two chunks in the queue since they were handed over, the one handed over first stands first. */
  lemma HandedFirstStandsFirst(cfg: Config, s: State, ls: seq<Label>, k: nat, i: nat, m: nat, j: nat, a: nat, b: nat)
    requires Initial(cfg, s) && CanRun(cfg, s, ls)
    requires QueuedSince(cfg, s, ls, k, i) && QueuedSince(cfg, s, ls, m, j) && k < m
    requires a < |Run(cfg, s, ls).queue.order| && Run(cfg, s, ls).queue.order[a] == i
    requires b < |Run(cfg, s, ls).queue.order| && Run(cfg, s, ls).queue.order[b] == j
    ensures a < b
  {
    RunInTurn(cfg, s, ls);
    QueuedIsLast(cfg, s, ls, k, i);
    QueuedIsLast(cfg, s, ls, m, j);
  }

  /** The worker takes the chunk handed over longest ago. */
  lemma NextJobIsFirst(cfg: Config, s: State, ls: seq<Label>, idx: nat, j: nat)
    requires Initial(cfg, s) && CanRun(cfg, s, ls) && Enabled(cfg, Run(cfg, s, ls), Work(NextJob(idx)))
    requires j in Run(cfg, s, ls).queue.chunks && j != idx
    ensures 0 <= LastHanded(ls, idx) < LastHanded(ls, j)
  {
    RunInTurn(cfg, s, ls);
    InitialInv(cfg, s);
    RunInv(cfg, s, ls);
    var order := Run(cfg, s, ls).queue.order;
    assert j in order;
    var b :| 0 <= b < |order| && order[b] == j;
    assert order[0] == idx;
  }

  // ------------------------------------------------------- the queue by itself

  /** `x` stands before `y`. */
  ghost predicate Before(order: seq<nat>, x: nat, y: nat) {
    exists a, b :: 0 <= a < b < |order| && order[a] == x && order[b] == y
  }

  lemma BeforeHead(order: seq<nat>, x: nat, y: nat)
    requires order != []
    ensures Before(order, x, y) <==> (order[0] == x && y in order[1..]) || Before(order[1..], x, y)
  {
    var tail := order[1..];
    assert forall a :: 0 <= a < |tail| ==> tail[a] == order[a + 1];
    if Before(order, x, y) {
      var a, b :| 0 <= a < b < |order| && order[a] == x && order[b] == y;
      assert tail[b - 1] == y;
      if a > 0 {
        assert tail[a - 1] == x;
      }
    }
    if order[0] == x && y in tail {
      var b :| 0 <= b < |tail| && tail[b] == y;
      assert order[b + 1] == y;
    }
    if Before(tail, x, y) {
      var a, b :| 0 <= a < b < |tail| && tail[a] == x && tail[b] == y;
      assert order[a + 1] == x && order[b + 1] == y;
    }
  }

  lemma {:induction false} WithoutBefore(order: seq<nat>, idx: nat, x: nat, y: nat)
    requires x != idx && y != idx
    ensures Before(Without(order, idx), x, y) <==> Before(order, x, y)
    ensures y in Without(order, idx) <==> y in order
  {
    if order != [] {
      WithoutBefore(order[1..], idx, x, y);
      BeforeHead(order, x, y);
      assert y in order <==> y == order[0] || y in order[1..];
      if order[0] != idx {
        var w := Without(order, idx);
        assert w[1..] == Without(order[1..], idx);
        BeforeHead(w, x, y);
      }
    }
  }

  /** Pushing puts a chunk behind all others, which keep their order, also when it was queued before. */
  lemma PushedIsLast(q: Queue, idx: nat, h: Held, x: nat, y: nat)
    requires q.Ordered() && x != idx && y != idx
    ensures x in q.chunks ==> Before(q.Push(idx, h).order, x, idx) && !Before(q.Push(idx, h).order, idx, x)
    ensures Before(q.Push(idx, h).order, x, y) <==> Before(q.order, x, y)
  {
    var rest := if idx in q.chunks then Without(q.order, idx) else q.order;
    var order := rest + [idx];
    WithoutBefore(q.order, idx, x, y);
    WithoutBefore(q.order, idx, y, x);
    WithoutSpec(q.order, idx);
    assert order == q.Push(idx, h).order && idx !in rest;
    LastBefore(rest, idx, x, y);
  }

  lemma LastBefore(rest: seq<nat>, idx: nat, x: nat, y: nat)
    requires idx !in rest && x != idx && y != idx
    ensures x in rest ==> Before(rest + [idx], x, idx)
    ensures !Before(rest + [idx], idx, x)
    ensures Before(rest + [idx], x, y) <==> Before(rest, x, y)
  {
    var order := rest + [idx];
    if x in rest {
      var a :| 0 <= a < |rest| && rest[a] == x;
      assert order[a] == x && order[|rest|] == idx;
    }
    if Before(order, x, y) {
      var a, b :| 0 <= a < b < |order| && order[a] == x && order[b] == y;
      assert rest[a] == x && rest[b] == y;
    }
    if Before(rest, x, y) {
      var a, b :| 0 <= a < b < |rest| && rest[a] == x && rest[b] == y;
      assert order[a] == x && order[b] == y;
    }
  }

  /** Removing a chunk ends its put in flight and no other, and leaves the others in their order. */
  lemma RemovedIsGone(q: Queue, idx: nat, x: nat, y: nat)
    requires q.Ordered() && x != idx && y != idx
    ensures idx !in q.Remove(idx).chunks && idx !in q.Remove(idx).order
    ensures idx in q.chunks ==> q.Remove(idx).inflight == if q.inflight == Some(idx) then None else q.inflight
    ensures Before(q.Remove(idx).order, x, y) <==> Before(q.order, x, y)
  {
    WithoutBefore(q.order, idx, x, y);
    WithoutSpec(q.order, idx);
  }
}
