/** Several volumes on one pool: no run of requests can tell the pool is there. */
module CachedRun {
  import opened Volume
  import opened ChunkCache
  import opened MemoryStore
  import opened CachedStore

  datatype Op =
    | Read(volume: string, offset: nat, len: nat)
    | Write(volume: string, offset: nat, data: Bytes)
    | Delete(volume: string, idx: nat)
    | Grow(volume: string, capacity: Size)
    | Lock(volume: string)
    | Unlock(volume: string)
    | Invalidate(volume: string)
    | SetMax(max: nat)
    | EnableCache(budget: Option<nat>)
    | ClearCache

  type Size = n: nat | n < U64

  datatype Answer = Data(data: Bytes) | Done | Failed(error: StoreError)

  // ------------------------------------------------ the specification: flat arrays and no pool

  datatype Plain = Plain(flat: Bytes, blockSize: nat, chunkSize: nat, locked: bool)
  type World = map<string, Plain>

  /** One request on one uncached volume. */
  ghost function OnVolume(p: Plain, op: Op): (r: (Plain, Answer))
    requires |p.flat| < U64 && p.chunkSize > 0 && p.blockSize > 0
    ensures |r.0.flat| < U64 && r.0.chunkSize == p.chunkSize && r.0.blockSize == p.blockSize
  {
    match op
    case Lock(_) => (p.(locked := true), Done)
    case Unlock(_) => (p.(locked := false), Done)
    case Invalidate(_) => (p, Done)
    case Read(_, offset, len) =>
      if p.locked then (p, Failed(Other)) else
      var r := CheckRange(|p.flat|, offset, len);
      (p, if r.Ok? then Data(p.flat[offset..offset + len]) else Failed(r.error))
    case Write(_, offset, data) =>
      if p.locked then (p, Failed(Other)) else
      var r := CheckRange(|p.flat|, offset, |data|);
      if r.Ok? then (p.(flat := Splice(p.flat, offset, data)), Done) else (p, Failed(r.error))
    case Delete(_, idx) =>
      if p.locked then (p, Failed(Other)) else (p.(flat := Erased(p.flat, p.chunkSize, idx)), Done)
    case Grow(_, capacity) =>
      if p.locked then (p, Failed(Other)) else
      var r := GrowCheck(p.blockSize, |p.flat|, capacity);
      if r.Ok? then (p.(flat := p.flat + Zeros(capacity - |p.flat|)), Done) else (p, Failed(r.error))
    case SetMax(_) => (p, Done)
    case EnableCache(_) => (p, Done)
    case ClearCache => (p, Done)
  }

  predicate ForPool(op: Op) {
    op.SetMax? || op.EnableCache? || op.ClearCache?
  }

  ghost predicate Sound(w: World) {
    forall v :: v in w ==> |w[v].flat| < U64 && w[v].chunkSize > 0 && w[v].blockSize > 0
  }

  ghost function Step(w: World, op: Op): (r: (World, Answer))
    requires Sound(w)
    ensures Sound(r.0)
  {
    if ForPool(op) then (w, Done)
    else if op.volume !in w then (w, Failed(Other))
    else var r := OnVolume(w[op.volume], op); (w[op.volume := r.0], r.1)
  }

  /** The answers a run of requests gets, and the arrays it leaves. */
  ghost function Run(w: World, ops: seq<Op>): (r: (World, seq<Answer>))
    requires Sound(w)
    ensures Sound(r.0)
  {
    if |ops| == 0 then (w, []) else
    var prefix := Run(w, ops[..|ops| - 1]);
    var last := Step(prefix.0, ops[|ops| - 1]);
    (last.0, prefix.1 + [last.1])
  }

  // ------------------------------------------------ the cached volumes

  /** A cached volume as a plain one. */
  ghost function AsPlain(s: CachedStore): Plain
    requires s.Valid()
    reads s, s.inner, s.cache
  {
    Plain(s.inner.Content(), s.inner.blockSize, s.inner.chunkSize, s.ioLocked)
  }

  method Request(s: CachedStore, op: Op) returns (a: Answer)
    requires s.Valid() && !ForPool(op) && op.volume == s.volume
    modifies s`ioLocked, s.inner`chunks, s.inner`capacity, s.cache`tick, s.cache`entries, s.cache`used
    ensures s.Valid() && OthersKept(old(s.cache.entries), s.cache.entries, s.volume)
    ensures (AsPlain(s), a) == OnVolume(old(AsPlain(s)), op)
  {
    match op {
      case Read(_, offset, len) =>
        var buf := new Byte[len];
        var r := s.ReadAt(offset, buf);
        a := if r.Ok? then Data(buf[..]) else Failed(r.error);
      case Write(_, offset, data) =>
        var r := s.WriteAt(offset, data);
        a := if r.Ok? then Done else Failed(r.error);
      case Delete(_, idx) =>
        var r := s.DeleteChunk(idx);
        a := if r.Ok? then Done else Failed(r.error);
      case Grow(_, capacity) =>
        var r := s.SetCapacity(capacity);
        a := if r.Ok? then Done else Failed(r.error);
      case Lock(_) =>
        s.LockIo();
        a := Done;
      case Unlock(_) =>
        s.UnlockIo();
        a := Done;
      case Invalidate(_) =>
        s.cache.InvalidateVolume(s.volume);
        a := Done;
    }
  }

  method PoolRequest(pool: Pool, op: Op)
    requires pool.Valid() && pool.lastNonzero > 0 && ForPool(op)
    modifies pool
    ensures pool.Valid() && pool.lastNonzero > 0 && SubEntries(pool.entries, old(pool.entries))
  {
    match op {
      case SetMax(max) => pool.SetMaxBytes(max);
      case EnableCache(budget) => pool.Enable(budget);
      case ClearCache => pool.Clear();
    }
  }

  class Host {
    const pool: Pool
    const stores: map<string, CachedStore>

    ghost predicate Apart(v: string, w: string)
      requires v in stores && w in stores
    {
      v != w ==> stores[v].inner != stores[w].inner && stores[v] != stores[w]
    }

    ghost predicate Valid()
      reads this, pool, stores.Values, set v | v in stores :: stores[v].inner
    {
      && pool.Valid() && pool.lastNonzero > 0
      && (forall v :: v in stores ==> stores[v].cache == pool && stores[v].volume == v && stores[v].Valid())
      && (forall v, w :: v in stores && w in stores ==> Apart(v, w))
    }

    ghost function Seen(): (w: World)
      requires Valid()
      reads this, pool, stores.Values, set v | v in stores :: stores[v].inner
      ensures Sound(w)
    {
      map v | v in stores :: AsPlain(stores[v])
    }

    constructor (pool: Pool, stores: map<string, CachedStore>)
      requires pool.Valid() && pool.lastNonzero > 0
      requires forall v :: v in stores ==> stores[v].cache == pool && stores[v].volume == v && stores[v].Valid()
      requires forall v, w :: v in stores && w in stores && v != w ==> stores[v].inner != stores[w].inner
      ensures Valid() && this.pool == pool && this.stores == stores
    {
      this.pool, this.stores := pool, stores;
    }

    twostate predicate SameVolume(w: string)
      requires w in stores
      reads stores[w], stores[w].inner
    {
      unchanged(stores[w], stores[w].inner)
    }

    /** One request on one volume leaves the other volumes as they were. */
    twostate lemma OthersStand(v: string)
      requires v in stores && old(Valid()) && pool.Valid() && pool.lastNonzero > 0 && stores[v].Valid()
      requires OthersKept(old(pool.entries), pool.entries, v)
      requires forall w :: w in stores && w != v ==> SameVolume(w)
      ensures Valid() && Seen() == old(Seen())[v := AsPlain(stores[v])]
    {
      forall w | w in stores ensures stores[w].Valid() {
        if w != v {
          OthersCoherent(old(pool.entries), pool.entries, v, w, stores[w].inner.Content(), stores[w].inner.chunkSize);
        }
      }
    }

    method OnStore(op: Op) returns (a: Answer)
      requires Valid() && !ForPool(op) && op.volume in stores
      modifies pool, stores.Values, set v | v in stores :: stores[v].inner
      ensures Valid()
      ensures (Seen(), a) == Step(old(Seen()), op)
    {
      var s := stores[op.volume];
      a := Request(s, op);
      forall w | w in stores && w != op.volume ensures SameVolume(w) {
        assert Apart(op.volume, w);
      }
      OthersStand(op.volume);
    }

    method OnPool(op: Op)
      requires Valid() && ForPool(op)
      modifies pool
      ensures Valid() && Seen() == old(Seen())
    {
      PoolRequest(pool, op);
    }

    method Apply(op: Op) returns (a: Answer)
      requires Valid()
      modifies pool, stores.Values, set v | v in stores :: stores[v].inner
      ensures Valid()
      ensures (Seen(), a) == Step(old(Seen()), op)
    {
      if ForPool(op) {
        OnPool(op);
        a := Done;
      } else if op.volume in stores {
        a := OnStore(op);
      } else {
        a := Failed(Other);
      }
    }

    /** Every answer of every run is the one plain flat arrays would give. */
    method Serve(ops: seq<Op>) returns (answers: seq<Answer>)
      requires Valid()
      modifies pool, stores.Values, set v | v in stores :: stores[v].inner
      ensures Valid()
      ensures (Seen(), answers) == Run(old(Seen()), ops)
    {
      answers := [];
      var i := 0;
      while i < |ops|
        invariant i <= |ops| && Valid()
        invariant (Seen(), answers) == Run(old(Seen()), ops[..i])
      {
        assert ops[..i + 1][..i] == ops[..i];
        var a := Apply(ops[i]);
        answers := answers + [a];
        i := i + 1;
      }
      assert ops[..i] == ops;
    }
  }
}
