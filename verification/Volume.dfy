/**
 A volume seen two ways: as a sparse table of fixed-size chunks, which is how every
 store of the system keeps it, and as the flat array of `capacity` bytes that an
 initiator reads and writes. Everything that needs chunk arithmetic is proved here,
 once, as a fact relating the two.
 */
module Volume {

  newtype Byte = x: int | 0 <= x < 0x100
  type Bytes = seq<Byte>

  /** Sparse chunks by index; a missing chunk reads as zeros. */
  type Image = map<nat, Bytes>

  datatype Option<+T> = None | Some(value: T)

  datatype StoreError =
    | OutOfRange(offset: nat, len: nat, capacity: nat)
    | ShrinkRefused(current: nat, requested: nat)
    | GeometryMismatch
    | S3Error
    | PreconditionFailed
    | MetaError
    | Other

  datatype Outcome<+T> = Ok(value: T) | Err(error: StoreError)

  /** 2^64: what the source's `u64` counts modulo. */
  const U64: nat := 0x1_0000_0000_0000_0000

  function Min(a: nat, b: nat): nat {
    if a <= b then a else b
  }

  function Zeros(n: nat): Bytes {
    seq(n, _ => 0)
  }

  /** `b` with the bytes from `at` on replaced by `patch`. */
  function Splice(b: Bytes, at: nat, patch: Bytes): Bytes
    requires at + |patch| <= |b|
  {
    b[..at] + patch + b[at + |patch|..]
  }

  /**
   The range check every store makes first. The sum is formed in 64 bits with
   `checked_add`, so an end past 2^64 is refused whatever the capacity.
   */
  function CheckRange(capacity: nat, offset: nat, len: nat): (r: Outcome<()>)
    requires capacity < U64
    ensures r.Ok? <==> offset + len <= capacity
    ensures r.Err? ==> r.error == OutOfRange(offset, len, capacity)
  {
    if offset + len >= U64 then Err(OutOfRange(offset, len, capacity))
    else if offset + len > capacity then Err(OutOfRange(offset, len, capacity))
    else Ok(())
  }

  // ---------------------------------------------------------------- chunks

  ghost predicate Whole(img: Image, cs: nat) {
    forall i :: i in img ==> |img[i]| == cs
  }

  function Chunk(img: Image, cs: nat, idx: nat): Bytes {
    if idx in img then img[idx] else Zeros(cs)
  }

  /** How many bytes of chunk `idx` lie below the capacity. */
  function Valid(cs: nat, cap: nat, idx: nat): (n: nat)
    ensures n <= cs
  {
    if idx * cs >= cap then 0 else Min(cs, cap - idx * cs)
  }

  /** The flat array an initiator sees. */
  ghost function Flat(img: Image, cs: nat, cap: nat): (flat: Bytes)
    requires cs > 0 && Whole(img, cs)
    ensures |flat| == cap
  {
    seq(cap, i requires 0 <= i < cap => Chunk(img, cs, i / cs)[i % cs])
  }

  /** Bytes at or past `cap` are zero in every chunk: what growing a volume relies on. */
  ghost predicate ZeroPast(img: Image, cs: nat, cap: nat)
    requires cs > 0 && Whole(img, cs)
  {
    forall idx, k :: idx in img && 0 <= k < cs && idx * cs + k >= cap ==> img[idx][k] == 0
  }

  lemma DivMod(cs: nat, idx: nat, k: nat)
    requires k < cs
    ensures (idx * cs + k) / cs == idx && (idx * cs + k) % cs == k
  {
    var n := idx * cs + k;
    var q, r := n / cs, n % cs;
    assert n == q * cs + r;
    assert q < idx ==> (q + 1) * cs <= idx * cs;
    assert q > idx ==> (idx + 1) * cs <= q * cs;
  }

  lemma IndexBelowOffset(cs: nat, idx: nat)
    requires cs > 0
    ensures idx <= idx * cs
  {
    assert idx * cs == idx + idx * (cs - 1);
    assert idx * (cs - 1) >= 0;
  }

  /** A byte's chunk and offset inside it put the byte back. */
  lemma Position(cs: nat, i: nat)
    requires cs > 0
    ensures i == (i / cs) * cs + i % cs && 0 <= i % cs < cs
  {
  }

  /** Chunk `idx` covers exactly `Valid` flat bytes from `idx * cs` on. */
  lemma InChunk(cs: nat, cap: nat, i: nat)
    requires cs > 0 && i < cap
    ensures i % cs < Valid(cs, cap, i / cs)
  {
    Position(cs, i);
  }

  /**
   Patching one chunk is patching the flat array: no byte outside the patch moves,
   in the same chunk or in any other.
   */
  lemma FlatSplice(img: Image, cs: nat, cap: nat, idx: nat, within: nat, patch: Bytes)
    requires cs > 0 && Whole(img, cs)
    requires within + |patch| <= cs
    requires idx * cs + within + |patch| <= cap
    ensures var patched := img[idx := Splice(Chunk(img, cs, idx), within, patch)];
            && Whole(patched, cs)
            && Flat(patched, cs, cap) == Splice(Flat(img, cs, cap), idx * cs + within, patch)
  {
    var patched := img[idx := Splice(Chunk(img, cs, idx), within, patch)];
    var before, after := Flat(img, cs, cap), Flat(patched, cs, cap);
    var spliced := Splice(before, idx * cs + within, patch);
    forall i | 0 <= i < cap ensures after[i] == spliced[i] {
      Position(cs, i);
      if i / cs == idx {
        assert i == idx * cs + i % cs;
      } else if idx * cs + within <= i < idx * cs + within + |patch| {
        DivMod(cs, idx, i - idx * cs);
      }
    }
  }

  ghost predicate SameChunk(a: Image, b: Image, cs: nat, cap: nat, idx: nat)
    requires Whole(a, cs) && Whole(b, cs)
  {
    Chunk(a, cs, idx)[..Valid(cs, cap, idx)] == Chunk(b, cs, idx)[..Valid(cs, cap, idx)]
  }

  lemma SameByte(a: Image, b: Image, cs: nat, cap: nat, i: nat)
    requires cs > 0 && Whole(a, cs) && Whole(b, cs) && i < cap
    requires SameChunk(a, b, cs, cap, i / cs)
    ensures Chunk(a, cs, i / cs)[i % cs] == Chunk(b, cs, i / cs)[i % cs]
  {
    var n, k := Valid(cs, cap, i / cs), i % cs;
    InChunk(cs, cap, i);
    var x, y := Chunk(a, cs, i / cs), Chunk(b, cs, i / cs);
    assert x[..n][k] == y[..n][k];
  }

  /** Two images whose chunks agree below the capacity are the same flat array. */
  lemma FlatAgree(a: Image, b: Image, cs: nat, cap: nat)
    requires cs > 0 && Whole(a, cs) && Whole(b, cs)
    requires forall idx :: SameChunk(a, b, cs, cap, idx)
    ensures Flat(a, cs, cap) == Flat(b, cs, cap)
  {
    forall i | 0 <= i < cap ensures Flat(a, cs, cap)[i] == Flat(b, cs, cap)[i] {
      SameByte(a, b, cs, cap, i);
    }
  }

  lemma FlatByte(img: Image, cs: nat, cap: nat, idx: nat, k: nat)
    requires cs > 0 && Whole(img, cs) && k < cs && idx * cs + k < cap
    ensures Flat(img, cs, cap)[idx * cs + k] == Chunk(img, cs, idx)[k]
  {
    DivMod(cs, idx, k);
  }

  /** The part of the flat array that lies in chunk `idx`. */
  lemma FlatSlice(img: Image, cs: nat, cap: nat, idx: nat, within: nat, take: nat)
    requires cs > 0 && Whole(img, cs)
    requires within + take <= cs && idx * cs + within + take <= cap
    ensures var abs := idx * cs + within;
            Flat(img, cs, cap)[abs..abs + take] == Chunk(img, cs, idx)[within..within + take]
  {
    var abs := idx * cs + within;
    var a, b := Flat(img, cs, cap)[abs..abs + take], Chunk(img, cs, idx)[within..within + take];
    forall k | 0 <= k < take ensures a[k] == b[k] {
      FlatByte(img, cs, cap, idx, within + k);
    }
  }

  /** Growing a volume whose hidden tail is zero appends zeros and moves nothing. */
  lemma FlatGrow(img: Image, cs: nat, cap: nat, newCap: nat)
    requires cs > 0 && Whole(img, cs)
    requires ZeroPast(img, cs, cap)
    requires cap <= newCap
    ensures Flat(img, cs, newCap) == Flat(img, cs, cap) + Zeros(newCap - cap)
    ensures ZeroPast(img, cs, newCap)
  {
    forall i | cap <= i < newCap ensures Flat(img, cs, newCap)[i] == 0 {
      Position(cs, i);
      var idx, k := i / cs, i % cs;
      assert idx in img ==> img[idx][k] == 0;
    }
  }

  /** A patch below the capacity keeps the tail past it zero. */
  lemma ZeroPastSplice(img: Image, cs: nat, cap: nat, idx: nat, within: nat, patch: Bytes)
    requires cs > 0 && Whole(img, cs) && ZeroPast(img, cs, cap)
    requires within + |patch| <= cs
    requires idx * cs + within + |patch| <= cap
    ensures ZeroPast(img[idx := Splice(Chunk(img, cs, idx), within, patch)], cs, cap)
  {
  }

  // ------------------------------------------------- walking a range by chunks

  /** Where the walk over `[offset, offset + len)` stands after `done` bytes. */
  datatype Cursor = Cursor(idx: nat, within: nat, take: nat)

  /** The cursor stands at byte `at`, with at most `left` bytes to go. */
  ghost predicate Under(c: Cursor, cs: nat, at: nat, left: int) {
    match c
    case Cursor(idx, within, take) => idx * cs + within == at && within + take <= cs && 0 < take <= left
  }

  function At(cs: nat, offset: nat, len: nat, done: nat): (c: Cursor)
    requires cs > 0 && done < len
    ensures c.idx * cs + c.within == offset + done
    ensures c.within < cs && c.within + c.take <= cs
    ensures 0 < c.take <= len - done
    ensures Under(c, cs, offset + done, len - done)
  {
    var abs := offset + done;
    Position(cs, abs);
    Cursor(abs / cs, abs % cs, Min(cs - abs % cs, len - done))
  }

  /** One more piece of a splice. */
  lemma SpliceMore(b: Bytes, at: nat, data: Bytes, done: nat, take: nat)
    requires at + |data| <= |b|
    requires done + take <= |data|
    ensures Splice(Splice(b, at, data[..done]), at + done, data[done..done + take])
         == Splice(b, at, data[..done + take])
  {
    var l := Splice(Splice(b, at, data[..done]), at + done, data[done..done + take]);
    var r := Splice(b, at, data[..done + take]);
    assert |l| == |r|;
    forall i | 0 <= i < |r| ensures l[i] == r[i] {
    }
  }
}
