/**
 Several daemons writing one chunk by read-modify-write with If-Match, as a state machine
 whose steps are the requests they send. The chunk's key holds a name and a pool holds
 bodies by name. In the copy-on-write layout the name is a content hash; in the legacy
 layout it is the body itself.
 */
module CasWrites {
  import opened Volume

  datatype Params = Params(cs: nat, name: Bytes -> Bytes)

  type Tag = nat

  /** A key and its entity tag. */
  datatype Cell = Absent | Present(ptr: Bytes, tag: Tag)

  datatype Patch = Patch(within: nat, data: Bytes)

  predicate Fits(cs: nat, x: Patch) {
    0 < |x.data| && x.within + |x.data| <= cs
  }

  predicate Full(cs: nat, x: Patch) {
    x.within == 0 && |x.data| == cs
  }

  const MAX_CAS_ATTEMPTS: nat := 8

  /** Where one daemon stands in writing one patch. */
  datatype Daemon =
    | Idle
    | Getting(x: Patch, attempt: nat)
    | Storing(x: Patch, attempt: nat, chunk: Bytes, etag: Option<Tag>)
    | Pointing(x: Patch, attempt: nat, chunk: Bytes, etag: Option<Tag>)
    | Wrote
    | Failed(landed: bool)

  /** A put that took effect. */
  datatype Entry = Entry(d: nat, x: Patch)

  /**
   `log`, `tags` and `put` record the run: the puts that took effect, what every issued
   tag was issued for, and every body ever put. `under` is what a read finds where the
   key is missing: zeros, or the body of the legacy key's older, flat form, without a tag.
   */
  datatype State = State(
    cell: Cell, under: Bytes, pool: map<Bytes, Bytes>, daemons: map<nat, Daemon>,
    log: seq<Entry>, tags: map<Tag, Bytes>, put: set<Bytes>)

  /** What becomes of a request: answered, lost, or carried out with the answer lost. */
  datatype Fate = Fine | Lost | Landed

  datatype Label =
    | Begin(x: Patch)
    | Get
    | Store(fate: Fate)
    | Point(fate: Fate, tag: Tag)

  datatype Event = Event(d: nat, l: Label)

  function At(s: State, d: nat): Daemon {
    if d in s.daemons then s.daemons[d] else Idle
  }

  function To(s: State, d: nat, p: Daemon): State {
    s.(daemons := s.daemons[d := p])
  }

  /** If-Match: the key is there with this tag. No etag, no condition. */
  predicate Matches(c: Cell, etag: Option<Tag>) {
    etag.Some? ==> c.Present? && c.tag == etag.value
  }

  /** A tag is never issued for two different values of the key. */
  predicate MayIssue(s: State, tag: Tag, ptr: Bytes) {
    tag in s.tags ==> s.tags[tag] == ptr
  }

  function Begun(p: Params, x: Patch): Daemon {
    if Full(p.cs, x) then Storing(x, 1, x.data, None) else Getting(x, 1)
  }

  function DoGet(p: Params, s: State, d: nat, x: Patch, attempt: nat): State {
    if s.cell.Absent? then
      if Fits(|s.under|, x) then To(s, d, Storing(x, attempt, Splice(s.under, x.within, x.data), None)) else s
    else if s.cell.ptr in s.pool && Fits(|s.pool[s.cell.ptr]|, x) then
      To(s, d, Storing(x, attempt, Splice(s.pool[s.cell.ptr], x.within, x.data), Some(s.cell.tag)))
    else To(s, d, Failed(false))
  }

  function DoStore(p: Params, s: State, d: nat, q: Daemon, fate: Fate): State
    requires q.Storing?
  {
    var t := if fate == Lost then s else s.(pool := s.pool[p.name(q.chunk) := q.chunk], put := s.put + {q.chunk});
    To(t, d, if fate == Fine then Pointing(q.x, q.attempt, q.chunk, q.etag) else Failed(false))
  }

  /** The put of the key: 412 if the condition fails, and then another round, up to the eighth. */
  function DoPoint(p: Params, s: State, d: nat, q: Daemon, fate: Fate, tag: Tag): State
    requires q.Pointing?
  {
    if fate == Lost then To(s, d, Failed(false))
    else if !Matches(s.cell, q.etag) then
      To(s, d, if fate == Fine && q.attempt < MAX_CAS_ATTEMPTS then Getting(q.x, q.attempt + 1) else Failed(false))
    else if !MayIssue(s, tag, p.name(q.chunk)) then s
    else
      var t := s.(cell := Present(p.name(q.chunk), tag), tags := s.tags[tag := p.name(q.chunk)], log := s.log + [Entry(d, q.x)]);
      To(t, d, if fate == Fine then Wrote else Failed(true))
  }

  /** One step; an event that is not enabled changes nothing. */
  function Next(p: Params, s: State, e: Event): State {
    match e.l
    case Begin(x) =>
      if Fits(p.cs, x) && (At(s, e.d).Idle? || At(s, e.d).Wrote? || At(s, e.d).Failed?) then To(s, e.d, Begun(p, x)) else s
    case Get => if At(s, e.d).Getting? then DoGet(p, s, e.d, At(s, e.d).x, At(s, e.d).attempt) else s
    case Store(fate) => if At(s, e.d).Storing? then DoStore(p, s, e.d, At(s, e.d), fate) else s
    case Point(fate, tag) => if At(s, e.d).Pointing? then DoPoint(p, s, e.d, At(s, e.d), fate, tag) else s
  }

  function After(p: Params, s: State, es: seq<Event>): State {
    if |es| == 0 then s else Next(p, After(p, s, es[..|es| - 1]), es[|es| - 1])
  }

  // ------------------------------------------------------- what is promised

  function Content(p: Params, s: State): Bytes {
    if s.cell.Present? && s.cell.ptr in s.pool then s.pool[s.cell.ptr] else s.under
  }

  function Apply(b: Bytes, x: Patch): Bytes {
    if Fits(|b|, x) then Splice(b, x.within, x.data) else b
  }

  /** The patches of the log applied in order. */
  function Replay(b: Bytes, log: seq<Entry>): Bytes {
    if |log| == 0 then b else Apply(Replay(b, log[..|log| - 1]), log[|log| - 1].x)
  }

  ghost predicate NoCollision(p: Params, put: set<Bytes>) {
    forall a, b :: a in put && b in put && p.name(a) == p.name(b) ==> a == b
  }

  // ------------------------------------------------------------- invariant

  ghost predicate PoolOk(p: Params, s: State) {
    forall n :: n in s.pool ==> p.name(s.pool[n]) == n && s.pool[n] in s.put && |s.pool[n]| == p.cs
  }

  /** Every issued tag stands for a name that resolves, the key's own tag for its value. */
  ghost predicate TagsOk(s: State) {
    && (forall t :: t in s.tags ==> s.tags[t] in s.pool)
    && (s.cell.Present? ==> s.cell.tag in s.tags && s.tags[s.cell.tag] == s.cell.ptr)
  }

  /** The chunk a daemon is about to put is its patch on what its etag was issued for. */
  ghost predicate Based(p: Params, s: State, x: Patch, chunk: Bytes, etag: Option<Tag>) {
    && Fits(p.cs, x) && |chunk| == p.cs
    && (etag.None? ==> Full(p.cs, x) && chunk == x.data)
    && (etag.Some? ==> etag.value in s.tags && s.tags[etag.value] in s.pool)
    && (etag.Some? && NoCollision(p, s.put) ==> chunk == Apply(s.pool[s.tags[etag.value]], x))
  }

  ghost predicate DaemonOk(p: Params, s: State, q: Daemon) {
    match q
    case Getting(x, attempt) => Fits(p.cs, x) && 1 <= attempt <= MAX_CAS_ATTEMPTS
    case Storing(x, attempt, chunk, etag) => Based(p, s, x, chunk, etag) && 1 <= attempt <= MAX_CAS_ATTEMPTS
    case Pointing(x, attempt, chunk, etag) =>
      Based(p, s, x, chunk, etag) && 1 <= attempt <= MAX_CAS_ATTEMPTS && p.name(chunk) in s.pool && chunk in s.put
    case _ => true
  }

  /** The key exists, or every patch is a whole chunk. */
  predicate Covered(p: Params, s: State) {
    s.cell.Present? || p.cs <= 1
  }

  ghost predicate Inv(p: Params, s: State) {
    && Covered(p, s) && PoolOk(p, s) && TagsOk(s) && |s.under| == p.cs
    && (forall d :: d in s.daemons ==> DaemonOk(p, s, s.daemons[d]))
  }

  /** The pool and the tags only grow, and names keep their bodies unless two bodies collide. */
  ghost predicate Grows(p: Params, s: State, t: State) {
    && s.put <= t.put && t.under == s.under
    && (forall n :: n in s.pool ==> n in t.pool && (NoCollision(p, t.put) ==> t.pool[n] == s.pool[n]))
    && (forall g :: g in s.tags ==> g in t.tags && t.tags[g] == s.tags[g])
  }

  lemma FewerCollide(p: Params, less: set<Bytes>, put: set<Bytes>)
    requires less <= put && NoCollision(p, put)
    ensures NoCollision(p, less)
  {
  }

  lemma StillOk(p: Params, s: State, t: State, q: Daemon)
    requires Grows(p, s, t) && DaemonOk(p, s, q)
    ensures DaemonOk(p, t, q)
  {
    if NoCollision(p, t.put) {
      FewerCollide(p, s.put, t.put);
    }
    match q
    case Storing(x, attempt, chunk, etag) =>
    case Pointing(x, attempt, chunk, etag) =>
    case _ =>
  }

  lemma OthersOk(p: Params, s: State, t: State, d: nat)
    requires Inv(p, s) && Grows(p, s, t) && d in t.daemons && t.daemons == s.daemons[d := t.daemons[d]]
    requires Covered(p, t) && PoolOk(p, t) && TagsOk(t) && DaemonOk(p, t, t.daemons[d])
    ensures Inv(p, t)
  {
    forall e | e in t.daemons ensures DaemonOk(p, t, t.daemons[e]) {
      if e != d {
        StillOk(p, s, t, s.daemons[e]);
      }
    }
  }

  /** With a daemon at `q`, what its next request does to key, pool and tags. */
  ghost predicate Steps(p: Params, s: State, t: State, d: nat) {
    && Inv(p, t) && Grows(p, s, t)
    && (t.log == s.log || exists x :: t.log == s.log + [Entry(d, x)])
    && (NoCollision(p, t.put) ==>
          Content(p, t) == if t.log == s.log then Content(p, s) else Apply(Content(p, s), t.log[|t.log| - 1].x))
  }

  lemma StepGet(p: Params, s: State, d: nat)
    requires Inv(p, s) && At(s, d).Getting?
    ensures Steps(p, s, DoGet(p, s, d, At(s, d).x, At(s, d).attempt), d)
  {
    var q := At(s, d);
    var t := DoGet(p, s, d, q.x, q.attempt);
    assert DaemonOk(p, s, q);
    OthersOk(p, s, t, d);
  }

  lemma StepStore(p: Params, s: State, d: nat, fate: Fate)
    requires Inv(p, s) && At(s, d).Storing?
    ensures Steps(p, s, DoStore(p, s, d, At(s, d), fate), d)
  {
    var q := At(s, d);
    var t := DoStore(p, s, d, q, fate);
    assert DaemonOk(p, s, q);
    if NoCollision(p, t.put) {
      FewerCollide(p, s.put, t.put);
    }
    assert Grows(p, s, t);
    StillOk(p, s, t, q);
    OthersOk(p, s, t, d);
  }

  lemma StepPoint(p: Params, s: State, d: nat, fate: Fate, tag: Tag)
    requires Inv(p, s) && At(s, d).Pointing?
    ensures Steps(p, s, DoPoint(p, s, d, At(s, d), fate, tag), d)
  {
    var q := At(s, d);
    assert DaemonOk(p, s, q);
    if fate != Lost && Matches(s.cell, q.etag) && MayIssue(s, tag, p.name(q.chunk)) {
      PointLands(p, s, d, q, fate, tag);
    } else {
      var t := DoPoint(p, s, d, q, fate, tag);
      assert t == s.(daemons := t.daemons);
      if t.daemons != s.daemons {
        OthersOk(p, s, t, d);
      }
    }
  }

  /** The put takes effect, whether or not its answer arrives. */
  lemma PointLands(p: Params, s: State, d: nat, q: Daemon, fate: Fate, tag: Tag)
    requires Inv(p, s) && q == At(s, d) && q.Pointing? && DaemonOk(p, s, q)
    requires fate != Lost && Matches(s.cell, q.etag) && MayIssue(s, tag, p.name(q.chunk))
    ensures Steps(p, s, DoPoint(p, s, d, q, fate, tag), d)
  {
    var t := DoPoint(p, s, d, q, fate, tag);
    assert Grows(p, s, t);
    OthersOk(p, s, t, d);
    Applied(p, s, q, t);
    assert t.log == s.log + [Entry(d, q.x)];
  }

  /** A put whose condition held is the patch applied to what was there. */
  lemma Applied(p: Params, s: State, q: Daemon, t: State)
    requires Inv(p, s) && q.Pointing? && DaemonOk(p, s, q) && Matches(s.cell, q.etag)
    requires t.pool == s.pool && t.put == s.put && t.cell.Present? && t.cell.ptr == p.name(q.chunk)
    ensures NoCollision(p, t.put) ==> Content(p, t) == Apply(Content(p, s), q.x)
  {
    if NoCollision(p, t.put) {
      assert s.pool[p.name(q.chunk)] == q.chunk;
      if q.etag.None? {
        assert |Content(p, s)| == p.cs;
        assert Splice(Content(p, s), 0, q.x.data) == q.x.data;
      }
    }
  }

  lemma StepBegin(p: Params, s: State, d: nat, x: Patch)
    requires Inv(p, s) && Fits(p.cs, x)
    ensures Steps(p, s, To(s, d, Begun(p, x)), d)
  {
    OthersOk(p, s, To(s, d, Begun(p, x)), d);
  }

  lemma StepSteps(p: Params, s: State, e: Event)
    requires Inv(p, s)
    ensures Steps(p, s, Next(p, s, e), e.d)
  {
    match e.l
    case Begin(x) =>
      if Fits(p.cs, x) && (At(s, e.d).Idle? || At(s, e.d).Wrote? || At(s, e.d).Failed?) {
        StepBegin(p, s, e.d, x);
      }
    case Get =>
      if At(s, e.d).Getting? {
        StepGet(p, s, e.d);
      }
    case Store(fate) =>
      if At(s, e.d).Storing? {
        StepStore(p, s, e.d, fate);
      }
    case Point(fate, tag) =>
      if At(s, e.d).Pointing? {
        StepPoint(p, s, e.d, fate, tag);
      }
  }

  // ------------------------------------------------------------- whole runs

  /** Nobody is writing and nothing has been put yet in this run. */
  ghost predicate Start(p: Params, s: State) {
    && s.daemons == map[] && s.log == [] && PoolOk(p, s) && TagsOk(s) && |s.under| == p.cs
  }

  lemma {:induction false} RunInv(p: Params, s: State, es: seq<Event>)
    requires Start(p, s) && Covered(p, s)
    ensures Inv(p, After(p, s, es))
    ensures NoCollision(p, After(p, s, es).put) ==> Content(p, After(p, s, es)) == Replay(Content(p, s), After(p, s, es).log)
  {
    if |es| > 0 {
      var init := es[..|es| - 1];
      var a, b := After(p, s, init), After(p, s, es);
      RunInv(p, s, init);
      StepSteps(p, a, es[|es| - 1]);
      if NoCollision(p, b.put) {
        FewerCollide(p, a.put, b.put);
        if b.log != a.log {
          assert b.log[..|b.log| - 1] == a.log;
        }
      }
    }
  }

  // ------------------------------------------------- a write that gives up

  ghost predicate Quiet(es: seq<Event>, d: nat) {
    forall k :: 0 <= k < |es| ==> !(es[k].d == d && es[k].l.Begin?)
  }

  ghost predicate NoneOf(log: seq<Entry>, from: nat, d: nat) {
    forall k :: from <= k < |log| ==> log[k].d != d
  }

  /** Every put of a daemon's write ends that write, with success or with the answer lost. */
  lemma PutEnds(p: Params, s: State, e: Event)
    ensures var t := Next(p, s, e);
            && s.log <= t.log && |t.log| <= |s.log| + 1
            && (t.log != s.log ==> t.log[|s.log|].d == e.d && (At(t, e.d) == Wrote || At(t, e.d) == Failed(true)))
            && (forall d :: d != e.d ==> At(t, d) == At(s, d))
  {
    match e.l
    case Begin(x) =>
    case Get =>
    case Store(fate) =>
    case Point(fate, tag) =>
  }

  /** A write that ends in plain failure, as after eight conflicts, has put nothing. */
  lemma {:induction false} GivingUpPutsNothing(p: Params, s: State, es: seq<Event>, d: nat)
    requires Quiet(es, d)
    ensures s.log <= After(p, s, es).log
    ensures At(After(p, s, es), d) == Wrote || At(After(p, s, es), d) == Failed(true) || NoneOf(After(p, s, es).log, |s.log|, d)
  {
    if |es| > 0 {
      var init := es[..|es| - 1];
      var e := es[|es| - 1];
      GivingUpPutsNothing(p, s, init, d);
      PutEnds(p, After(p, s, init), e);
      assert e.d == d ==> !e.l.Begin?;
    }
  }

  // ------------------------------------------------ how often a write tries

  /** The event begins a write of its daemon. */
  predicate Starts(p: Params, s: State, e: Event) {
    e.l.Begin? && Fits(p.cs, e.l.x) && (At(s, e.d).Idle? || At(s, e.d).Wrote? || At(s, e.d).Failed?)
  }

  /** The event is a put of the key that finds another tag there than it asks for. */
  predicate Refused(s: State, e: Event) {
    e.l.Point? && e.l.fate != Lost && At(s, e.d).Pointing? && !Matches(s.cell, At(s, e.d).etag)
  }

  /** The event is a request whose answer does not arrive, or a read that finds a name without a body. */
  predicate Trouble(p: Params, s: State, e: Event) {
    match e.l
    case Begin(_) => false
    case Get => At(s, e.d).Getting? && s.cell.Present? && !(s.cell.ptr in s.pool && Fits(|s.pool[s.cell.ptr]|, At(s, e.d).x))
    case Store(fate) => At(s, e.d).Storing? && fate != Fine
    case Point(fate, tag) =>
      && At(s, e.d).Pointing? && fate != Fine
      && (fate == Landed && Matches(s.cell, At(s, e.d).etag) ==> MayIssue(s, tag, p.name(At(s, e.d).chunk)))
  }

  /** What has happened to a daemon's write since it began. */
  datatype Tally = Tally(trouble: bool, refused: nat)

  function TallyOf(p: Params, s: State, es: seq<Event>, d: nat): Tally {
    if |es| == 0 then Tally(false, 0) else
    var init, e := es[..|es| - 1], es[|es| - 1];
    var a, h := After(p, s, init), TallyOf(p, s, init, d);
    if e.d != d then h
    else if Starts(p, a, e) then Tally(false, 0)
    else Tally(h.trouble || Trouble(p, a, e), h.refused + if Refused(a, e) then 1 else 0)
  }

  ghost predicate Tallied(q: Daemon, h: Tally) {
    match q
    case Idle => h == Tally(false, 0)
    case Getting(_, attempt) => !h.trouble && attempt == h.refused + 1 <= 8
    case Storing(_, attempt, _, _) => !h.trouble && attempt == h.refused + 1 <= 8
    case Pointing(_, attempt, _, _) => !h.trouble && attempt == h.refused + 1 <= 8
    case Wrote => !h.trouble && h.refused < 8
    case Failed(landed) => h.refused <= 8 && (h.trouble || (h.refused == 8 && !landed))
  }

  lemma StepTallied(p: Params, s: State, e: Event, h: Tally)
    requires Tallied(At(s, e.d), h)
    ensures Tallied(At(Next(p, s, e), e.d),
                    if Starts(p, s, e) then Tally(false, 0)
                    else Tally(h.trouble || Trouble(p, s, e), h.refused + if Refused(s, e) then 1 else 0))
  {
    match e.l
    case Begin(x) =>
    case Get =>
    case Store(fate) =>
    case Point(fate, tag) =>
  }

  lemma {:induction false} RunTallied(p: Params, s: State, es: seq<Event>, d: nat)
    requires s.daemons == map[]
    ensures Tallied(At(After(p, s, es), d), TallyOf(p, s, es, d))
  {
    if |es| > 0 {
      var init, e := es[..|es| - 1], es[|es| - 1];
      RunTallied(p, s, init, d);
      if e.d == d {
        StepTallied(p, After(p, s, init), e, TallyOf(p, s, init, d));
      } else {
        PutEnds(p, After(p, s, init), e);
      }
    }
  }

  /**
   A write whose requests are all answered and whose reads find what they are sent to fails
   iff eight of its puts were refused since it began: it goes round again after each of the
   first seven refusals, and never a ninth time.
   */
  lemma EightRefusals(p: Params, s: State, es: seq<Event>, d: nat)
    requires s.daemons == map[]
    ensures TallyOf(p, s, es, d).refused <= 8
    ensures !TallyOf(p, s, es, d).trouble ==>
              (At(After(p, s, es), d).Failed? <==> TallyOf(p, s, es, d).refused == 8)
    ensures At(After(p, s, es), d) == Failed(true) ==> TallyOf(p, s, es, d).trouble
  {
    RunTallied(p, s, es, d);
  }

  /** A write of a whole chunk reads nothing and asks for no tag. */
  ghost predicate WholeUnread(p: Params, q: Daemon) {
    match q
    case Getting(x, _) => !Full(p.cs, x)
    case Storing(x, _, chunk, etag) => Full(p.cs, x) ==> etag.None? && chunk == x.data
    case Pointing(x, _, chunk, etag) => Full(p.cs, x) ==> etag.None? && chunk == x.data
    case _ => true
  }

  lemma {:induction false} RunWholeUnread(p: Params, s: State, es: seq<Event>, d: nat)
    requires s.daemons == map[]
    ensures WholeUnread(p, At(After(p, s, es), d))
  {
    if |es| > 0 {
      var init, e := es[..|es| - 1], es[|es| - 1];
      RunWholeUnread(p, s, init, d);
      PutEnds(p, After(p, s, init), e);
      if e.d == d {
        StepWholeUnread(p, After(p, s, init), e);
      }
    }
  }

  lemma StepWholeUnread(p: Params, s: State, e: Event)
    requires WholeUnread(p, At(s, e.d))
    ensures WholeUnread(p, At(Next(p, s, e), e.d))
  {
    match e.l
    case Begin(x) =>
    case Get =>
    case Store(fate) =>
    case Point(fate, tag) =>
  }

  /** So it is never refused: in every run its first put that arrives takes effect. */
  lemma WholeNeverRefused(p: Params, s: State, es: seq<Event>, e: Event)
    requires s.daemons == map[] && At(After(p, s, es), e.d).Pointing? && Full(p.cs, At(After(p, s, es), e.d).x)
    ensures !Refused(After(p, s, es), e)
  {
    RunWholeUnread(p, s, es, e.d);
  }

  /** In a run that starts from stored chunks whose key is there, no read is sent to a missing body. */
  lemma ReadsFind(p: Params, s: State, es: seq<Event>, d: nat)
    requires Start(p, s) && Covered(p, s) && At(After(p, s, es), d).Getting?
    ensures !Trouble(p, After(p, s, es), Event(d, Get))
  {
    RunInv(p, s, es);
    var t := After(p, s, es);
    assert DaemonOk(p, t, t.daemons[d]);
  }

  /**
   A write that is refused for less than the eighth time and then left alone succeeds: it
   reads again what is there and its next put meets the tag it read.
   */
  lemma RetrySucceeds(p: Params, s: State, es: seq<Event>, d: nat, tag: Tag)
    requires Start(p, s) && Covered(p, s) && s.daemons == map[] && !TallyOf(p, s, es, d).trouble
    requires Refused(After(p, s, es), Event(d, Point(Fine, tag))) && TallyOf(p, s, es, d).refused < 7
    requires tag !in After(p, s, es).tags
    ensures var t := After(p, s, es);
            var refused := Next(p, t, Event(d, Point(Fine, tag)));
            var read := Next(p, refused, Event(d, Get));
            var stored := Next(p, read, Event(d, Store(Fine)));
            var done := Next(p, stored, Event(d, Point(Fine, tag)));
            At(done, d) == Wrote && done.log == t.log + [Entry(d, At(t, d).x)]
  {
    var t, e := After(p, s, es), Event(d, Point(Fine, tag));
    RunTallied(p, s, es, d);
    RunInv(p, s, es);
    assert DaemonOk(p, t, t.daemons[d]);
    if Full(p.cs, At(t, d).x) {
      WholeNeverRefused(p, s, es, e);
    }
    GoesRound(p, t, e);
    var again := es + [e];
    assert again[..|es|] == es && After(p, s, again) == Next(p, t, e);
    ReadsFind(p, s, again, d);
    LeftAlone(p, Next(p, t, e), d, tag);
  }

  lemma GoesRound(p: Params, t: State, e: Event)
    requires Refused(t, e) && e.l.fate == Fine && At(t, e.d).attempt < 8
    ensures Next(p, t, e) == To(t, e.d, Getting(At(t, e.d).x, At(t, e.d).attempt + 1))
  {
  }

  lemma LeftAlone(p: Params, t: State, d: nat, tag: Tag)
    requires At(t, d).Getting? && t.cell.Present? && !Trouble(p, t, Event(d, Get)) && tag !in t.tags
    ensures var read := Next(p, t, Event(d, Get));
            var stored := Next(p, read, Event(d, Store(Fine)));
            var done := Next(p, stored, Event(d, Point(Fine, tag)));
            At(done, d) == Wrote && done.log == t.log + [Entry(d, At(t, d).x)]
  {
    var x, chunk := At(t, d).x, Splice(t.pool[t.cell.ptr], At(t, d).x.within, At(t, d).x.data);
    var read := Next(p, t, Event(d, Get));
    assert read == To(t, d, Storing(x, At(t, d).attempt, chunk, Some(t.cell.tag)));
    var stored := Next(p, read, Event(d, Store(Fine)));
    assert At(stored, d) == Pointing(x, At(t, d).attempt, chunk, Some(t.cell.tag));
    assert stored.cell == t.cell && stored.tags == t.tags && stored.log == t.log;
  }

  // --------------------------------------------- when the key is not there

  /** Whatever the daemons do, the chunk is the puts replayed in order. */
  ghost predicate AlwaysReplays(p: Params, s: State) {
    forall es :: Replays(p, s, es)
  }

  ghost predicate Replays(p: Params, s: State, es: seq<Event>) {
    Content(p, After(p, s, es)) == Replay(Content(p, s), After(p, s, es).log)
  }

  lemma {:induction false} AfterFirst(p: Params, s: State, e: Event, es: seq<Event>)
    ensures After(p, s, [e] + es) == After(p, Next(p, s, e), es)
  {
    if |es| > 0 {
      assert ([e] + es)[..|es|] == [e] + es[..|es| - 1];
      AfterFirst(p, s, e, es[..|es| - 1]);
    } else {
      assert ([e] + es)[..0] == [] && [e] + es == [e];
    }
  }

  lemma AfterFour(p: Params, s: State, e1: Event, e2: Event, e3: Event, e4: Event, es: seq<Event>)
    ensures After(p, s, [e1, e2, e3, e4] + es) == After(p, Next(p, Next(p, Next(p, Next(p, s, e1), e2), e3), e4), es)
  {
    assert [e1, e2, e3, e4] + es == [e1] + ([e2] + ([e3] + ([e4] + es)));
    AfterFirst(p, s, e1, [e2] + ([e3] + ([e4] + es)));
    AfterFirst(p, Next(p, s, e1), e2, [e3] + ([e4] + es));
    AfterFirst(p, Next(p, Next(p, s, e1), e2), e3, [e4] + es);
    AfterFirst(p, Next(p, Next(p, Next(p, s, e1), e2), e3), e4, es);
  }

  lemma {:induction false} FreshTag(tags: set<Tag>) returns (g: Tag)
    ensures forall t :: t in tags ==> t < g
  {
    if tags == {} {
      g := 0;
    } else {
      var t :| t in tags;
      var h := FreshTag(tags - {t});
      g := if h <= t then t + 1 else h;
      forall u | u in tags ensures u < g {
        assert u == t || u in tags - {t};
      }
    }
  }

  /** A write of the first byte that changes it, and one of the second. */
  function First(under: Bytes): Patch
    requires |under| >= 2
  {
    Patch(0, [if under[0] == 0 then 1 else 0])
  }

  const SECOND := Patch(1, [1])

  /** Both daemons have found no key and hold their byte on what is under it. */
  lemma BothFindNothing(p: Params, s: State, first: Patch) returns (t: State)
    requires Start(p, s) && s.cell.Absent? && p.cs >= 2 && first == First(s.under)
    ensures forall es :: After(p, s, [Event(0, Begin(first)), Event(1, Begin(SECOND)), Event(0, Get), Event(1, Get)] + es) == After(p, t, es)
    ensures t == s.(daemons := t.daemons) && 0 in t.daemons && 1 in t.daemons
    ensures t.daemons[0] == Storing(first, 1, Apply(s.under, first), None)
    ensures t.daemons[1] == Storing(SECOND, 1, Apply(s.under, SECOND), None)
  {
    var e1, e2, e3, e4 := Event(0, Begin(first)), Event(1, Begin(SECOND)), Event(0, Get), Event(1, Get);
    t := Next(p, Next(p, Next(p, Next(p, s, e1), e2), e3), e4);
    forall es ensures After(p, s, [e1, e2, e3, e4] + es) == After(p, t, es) {
      AfterFour(p, s, e1, e2, e3, e4, es);
    }
  }

  /** Both put, and the second put wipes out the first. */
  lemma BothPut(p: Params, s: State, first: Patch, g: Tag) returns (t: State)
    requires p.cs >= 2 && 0 in s.daemons && 1 in s.daemons && g !in s.tags && g + 1 !in s.tags
    requires s.daemons[0] == Storing(first, 1, Apply(s.under, first), None)
    requires s.daemons[1] == Storing(SECOND, 1, Apply(s.under, SECOND), None)
    ensures t == After(p, s, [Event(0, Store(Fine)), Event(1, Store(Fine)), Event(0, Point(Fine, g)), Event(1, Point(Fine, g + 1))])
    ensures Content(p, t) == Apply(s.under, SECOND) && t.log == s.log + [Entry(0, first), Entry(1, SECOND)]
  {
    var e1, e2, e3, e4 := Event(0, Store(Fine)), Event(1, Store(Fine)), Event(0, Point(Fine, g)), Event(1, Point(Fine, g + 1));
    AfterFour(p, s, e1, e2, e3, e4, []);
    assert [e1, e2, e3, e4] + [] == [e1, e2, e3, e4];
    var s2 := Next(p, Next(p, s, e1), e2);
    assert At(s2, 0) == Pointing(first, 1, Apply(s.under, first), None);
    var s3 := Next(p, s2, e3);
    assert At(s3, 1) == Pointing(SECOND, 1, Apply(s.under, SECOND), None);
    t := Next(p, s3, e4);
  }

  /** With no key to match, two first writes of part of the chunk lose one of them. */
  lemma AbsentLoses(p: Params, s: State) returns (es: seq<Event>)
    requires Start(p, s) && s.cell.Absent? && p.cs >= 2
    ensures !Replays(p, s, es)
  {
    var g := FreshTag(s.tags.Keys);
    var first := First(s.under);
    var m := BothFindNothing(p, s, first);
    var t := BothPut(p, m, first, g);
    var rest := [Event(0, Store(Fine)), Event(1, Store(Fine)), Event(0, Point(Fine, g)), Event(1, Point(Fine, g + 1))];
    es := [Event(0, Begin(first)), Event(1, Begin(SECOND)), Event(0, Get), Event(1, Get)] + rest;
    assert After(p, s, es) == t;
    assert s.log + [Entry(0, first), Entry(1, SECOND)] == [Entry(0, first), Entry(1, SECOND)];
    ReplayTwo(Content(p, s), t.log);
    assert Replay(Content(p, s), t.log)[0] == first.data[0] != s.under[0];
    assert Content(p, t)[0] == s.under[0];
  }

  lemma ReplayTwo(b: Bytes, log: seq<Entry>)
    requires |log| == 2
    ensures Replay(b, log) == Apply(Apply(b, log[0].x), log[1].x)
  {
    assert log[..1][..0] == [];
    assert Replay(b, log[..1]) == Apply(b, log[0].x);
  }

  /**
   In the legacy layout, where a body is its own name, every run of every set of daemons
   replays its puts in order iff the key is there to begin with or a chunk is one byte.
   */
  lemma ReplaysIff(p: Params, s: State)
    requires Start(p, s) && forall a :: p.name(a) == a
    ensures AlwaysReplays(p, s) <==> s.cell.Present? || p.cs <= 1
  {
    if Covered(p, s) {
      forall es ensures Replays(p, s, es) {
        RunInv(p, s, es);
      }
    } else {
      var es := AbsentLoses(p, s);
      assert !Replays(p, s, es);
    }
  }
}
