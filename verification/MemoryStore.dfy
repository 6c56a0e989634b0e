/** The chunked sparse store, updated in place, against a flat array of bytes. */
module MemoryStore {
  import opened Volume

  /** The chunks that a range of bytes touches. */
  predicate Touches(cs: nat, offset: nat, len: nat, idx: nat) {
    idx * cs < offset + len && offset < idx * cs + cs && len > 0
  }

  ghost predicate Ascending(s: seq<nat>) {
    forall i, j :: 0 <= i < j < |s| ==> s[i] < s[j]
  }

  /** Geometry a store may be created with. */
  predicate Geometry(capacity: nat, blockSize: nat, chunkSize: nat) {
    && blockSize != 0 && chunkSize != 0 && chunkSize % blockSize == 0
    && capacity != 0 && capacity % blockSize == 0
  }

  /** Capacities only grow, by whole blocks. */
  function GrowCheck(blockSize: nat, capacity: nat, newCapacity: nat): (r: Outcome<()>)
    requires blockSize > 0
    ensures r.Ok? <==> newCapacity % blockSize == 0 && newCapacity >= capacity
    ensures newCapacity % blockSize != 0 ==> r == Err(GeometryMismatch)
    ensures newCapacity % blockSize == 0 && newCapacity < capacity ==> r == Err(ShrinkRefused(capacity, newCapacity))
  {
    if newCapacity % blockSize != 0 then Err(GeometryMismatch)
    else if newCapacity < capacity then Err(ShrinkRefused(capacity, newCapacity))
    else Ok(())
  }

  datatype Shape = Shape(chunkSize: nat, capacity: nat)

  /** Whole chunks that start below the capacity and are zero from it on. */
  ghost predicate InShape(img: Image, shape: Shape) {
    match shape
    case Shape(cs, cap) =>
      && cs > 0 && Whole(img, cs) && ZeroPast(img, cs, cap)
      && (forall i :: i in img ==> i * cs < cap)
  }

  class Store {
    const blockSize: nat
    const chunkSize: nat
    var capacity: nat
    var chunks: Image

    ghost predicate Valid()
      reads this
    {
      blockSize > 0 && chunkSize > 0 && capacity < U64 && InShape(chunks, Shape(chunkSize, capacity))
    }

    /** What the store is: `capacity` bytes. */
    ghost function Content(): Bytes
      requires Valid()
      reads this
    {
      Flat(chunks, chunkSize, capacity)
    }

    constructor (capacity: nat, blockSize: nat, chunkSize: nat)
      requires blockSize > 0 && chunkSize > 0 && capacity < U64
      ensures Valid() && chunks == map[]
      ensures this.capacity == capacity && this.blockSize == blockSize && this.chunkSize == chunkSize
      ensures Content() == Zeros(capacity)
    {
      this.capacity, this.blockSize, this.chunkSize := capacity, blockSize, chunkSize;
      this.chunks := map[];
    }

    static method New(capacity: nat, blockSize: nat, chunkSize: nat) returns (r: Outcome<Store>)
      requires capacity < U64
      ensures r.Ok? <==> Geometry(capacity, blockSize, chunkSize)
      ensures r.Err? ==> r.error == GeometryMismatch
      ensures r.Ok? ==> fresh(r.value) && r.value.Valid() && r.value.chunks == map[]
                        && r.value.capacity == capacity && r.value.blockSize == blockSize
                        && r.value.chunkSize == chunkSize && r.value.Content() == Zeros(capacity)
    {
      if blockSize == 0 || chunkSize == 0 || chunkSize % blockSize != 0 {
        return Err(GeometryMismatch);
      }
      if capacity == 0 || capacity % blockSize != 0 {
        return Err(GeometryMismatch);
      }
      var s := new Store(capacity, blockSize, chunkSize);
      r := Ok(s);
    }

    /** Fills the slice `buf[lo..hi]` from `offset` on; a missing chunk reads as zeros. */
    method ReadAt(offset: nat, buf: array<Byte>, lo: nat, hi: nat) returns (r: Outcome<()>)
      requires Valid() && lo <= hi <= buf.Length
      modifies buf
      ensures r == CheckRange(capacity, offset, hi - lo)
      ensures r.Err? ==> buf[..] == old(buf[..])
      ensures r.Ok? ==> Wrote(old(buf[..]), buf[..], lo, Content()[offset..offset + (hi - lo)])
    {
      r := CheckRange(capacity, offset, hi - lo);
      if r.Err? {
        return;
      }
      forall k | lo <= k < hi {
        buf[k] := 0;
      }
      Fill(chunks, chunkSize, capacity, offset, buf, lo, hi - lo);
    }

    method WriteAt(offset: nat, data: Bytes) returns (r: Outcome<()>)
      requires Valid()
      modifies this`chunks
      ensures Valid()
      ensures r == CheckRange(capacity, offset, |data|)
      ensures r.Err? ==> chunks == old(chunks)
      ensures r.Ok? ==> Content() == Splice(old(Content()), offset, data)
      ensures r.Ok? ==> TouchedOnly(old(chunks), chunks, Span(chunkSize, offset, |data|))
    {
      r := CheckRange(capacity, offset, |data|);
      if r.Err? {
        return;
      }
      ghost var was, img := Content(), chunks;
      assert Splice(was, offset, data[..0]) == was;
      var done: nat := 0;
      while done < |data|
        invariant Written(was, img, offset, data, done)
      {
        var c := At(chunkSize, offset, |data|, done);
        WritePiece(c, offset, data, done, was, img);
        done := done + c.take;
      }
      assert data[..done] == data;
    }

    /** The store held `was`, in the chunks `img`, and then the first `done` bytes of a write were done. */
    ghost predicate Written(was: Bytes, img: Image, offset: nat, data: Bytes, done: nat)
      reads this
    {
      && Valid() && done <= |data| && offset + |data| <= capacity == |was|
      && Content() == Splice(was, offset, data[..done]) && TouchedOnly(img, chunks, Span(chunkSize, offset, done))
    }

    /** One turn of the write loop. */
    method WritePiece(c: Cursor, ghost offset: nat, data: Bytes, done: nat, ghost was: Bytes, ghost img: Image)
      requires Valid() && done <= |data| && Under(c, chunkSize, offset + done, |data| - done)
      requires offset + |data| <= capacity == |was| && Content() == Splice(was, offset, data[..done])
      requires TouchedOnly(img, chunks, Span(chunkSize, offset, done))
      modifies this`chunks
      ensures Valid() && Content() == Splice(was, offset, data[..done + c.take])
      ensures TouchedOnly(img, chunks, Span(chunkSize, offset, done + c.take))
    {
      var patch := data[done..done + c.take];
      ghost var before := chunks;
      PieceWritten(chunks, chunkSize, capacity, was, offset, data, done, c, patch);
      chunks := chunks[c.idx := Splice(Chunk(chunks, chunkSize, c.idx), c.within, patch)];
      TouchedMore(img, before, chunks, chunkSize, offset, done, c);
    }

    method SetCapacity(newCapacity: nat) returns (r: Outcome<()>)
      requires Valid() && newCapacity < U64
      modifies this`capacity
      ensures Valid()
      ensures r == GrowCheck(blockSize, old(capacity), newCapacity)
      ensures r.Err? ==> capacity == old(capacity)
      ensures r.Ok? ==> capacity == newCapacity
      ensures r.Ok? ==> Content() == old(Content()) + Zeros(newCapacity - old(capacity))
    {
      r := GrowCheck(blockSize, capacity, newCapacity);
      if r.Err? {
        return;
      }
      FlatGrow(chunks, chunkSize, capacity, newCapacity);
      capacity := newCapacity;
    }

    /** The present chunks in ascending order. */
    method PresentChunks() returns (idxs: seq<nat>)
      ensures Ascending(idxs)
      ensures forall i :: i in idxs <==> i in chunks
    {
      idxs := Sorted(chunks.Keys);
    }

    method DeleteChunk(idx: nat)
      requires Valid()
      modifies this`chunks
      ensures Valid() && chunks == old(chunks) - {idx}
    {
      chunks := chunks - {idx};
    }
  }

  lemma NextChunk(cs: nat, i: nat, j: nat)
    requires i < j
    ensures i * cs + cs <= j * cs
  {
    assert (i + 1) * cs <= j * cs;
  }

  /** A stretch of bytes of a volume of chunks of `cs` bytes. */
  datatype Span = Span(cs: nat, offset: nat, len: nat)

  /** A write of the first `done` bytes has added the chunks it touches and no other. */
  ghost predicate TouchedOnly(was: Image, now: Image, span: Span) {
    match span
    case Span(cs, offset, done) => forall i :: i in now <==> i in was || Touches(cs, offset, done, i)
  }

  /** One more piece of a write, on the chunks and on the flat array. */
  lemma PieceWritten(chunks: Image, cs: nat, cap: nat, was: Bytes, offset: nat, data: Bytes, done: nat, c: Cursor, patch: Bytes)
    requires cs > 0 && InShape(chunks, Shape(cs, cap)) && Under(c, cs, offset + done, |data| - done)
    requires offset + |data| <= cap == |was| && Flat(chunks, cs, cap) == Splice(was, offset, data[..done])
    requires patch == data[done..done + c.take]
    ensures var next := chunks[c.idx := Splice(Chunk(chunks, cs, c.idx), c.within, patch)];
            InShape(next, Shape(cs, cap)) && Flat(next, cs, cap) == Splice(was, offset, data[..done + c.take])
  {
    FlatSplice(chunks, cs, cap, c.idx, c.within, patch);
    ZeroPastSplice(chunks, cs, cap, c.idx, c.within, patch);
    SpliceMore(was, offset, data, done, c.take);
  }

  lemma TouchedMore(was: Image, mid: Image, now: Image, cs: nat, offset: nat, done: nat, c: Cursor)
    requires cs > 0 && TouchedOnly(was, mid, Span(cs, offset, done)) && now.Keys == mid.Keys + {c.idx}
    requires c.idx * cs + c.within == offset + done && c.within + c.take <= cs && 0 < c.take
    ensures TouchedOnly(was, now, Span(cs, offset, done + c.take))
  {
    forall i ensures i in now <==> i in was || Touches(cs, offset, done + c.take, i) {
      TouchesMore(cs, offset, done, c, i);
    }
  }

  lemma TouchesMore(cs: nat, offset: nat, done: nat, c: Cursor, i: nat)
    requires cs > 0 && c.idx * cs + c.within == offset + done && c.within + c.take <= cs && 0 < c.take
    ensures Touches(cs, offset, done + c.take, i) <==> Touches(cs, offset, done, i) || i == c.idx
  {
    if i < c.idx {
      NextChunk(cs, i, c.idx);
    } else if i > c.idx {
      NextChunk(cs, c.idx, i);
    }
  }

  /** The slice of a buffer that starts at `at` now holds `data`; the rest is as it was. */
  ghost predicate Wrote(was: Bytes, now: Bytes, at: nat, data: Bytes) {
    && |was| == |now| && at + |data| <= |now|
    && (forall k :: at <= k < at + |data| ==> now[k] == data[k - at])
    && (forall k :: 0 <= k < at || at + |data| <= k < |now| ==> now[k] == was[k])
  }

  lemma WroteSlice(was: Bytes, now: Bytes, at: nat, data: Bytes)
    requires Wrote(was, now, at, data)
    ensures now == Splice(was, at, data) && now[at..at + |data|] == data
  {
  }

  /** The copy loop of `read_at`, into a slice already filled with zeros. */
  method Fill(img: Image, cs: nat, ghost cap: nat, offset: nat, buf: array<Byte>, lo: nat, len: nat)
    requires cs > 0 && Whole(img, cs) && offset + len <= cap && lo + len <= buf.Length
    requires forall k :: lo <= k < lo + len ==> buf[k] == 0
    modifies buf
    ensures Wrote(old(buf[..]), buf[..], lo, Flat(img, cs, cap)[offset..offset + len])
  {
    ghost var data := Flat(img, cs, cap)[offset..offset + len];
    var done := 0;
    while done < len
      invariant done <= len
      invariant forall k :: lo <= k < lo + done ==> buf[k] == data[k - lo]
      invariant forall k :: lo + done <= k < lo + len ==> buf[k] == 0
      invariant forall k :: 0 <= k < lo || lo + len <= k < buf.Length ==> buf[k] == old(buf[k])
    {
      var c := At(cs, offset, len, done);
      forall k | done <= k < done + c.take
        ensures data[k] == (if c.idx in img then img[c.idx][c.within + (k - done)] else 0)
      {
        PieceByte(img, cs, cap, offset, len, done, k);
      }
      if c.idx in img {
        var chunk := img[c.idx];
        forall k | lo + done <= k < lo + done + c.take {
          buf[k] := chunk[c.within + (k - lo - done)];
        }
      }
      done := done + c.take;
    }
  }

  lemma PieceByte(img: Image, cs: nat, cap: nat, offset: nat, len: nat, done: nat, k: nat)
    requires cs > 0 && Whole(img, cs) && done < len && offset + len <= cap
    requires done <= k < done + At(cs, offset, len, done).take
    ensures var c := At(cs, offset, len, done);
            Flat(img, cs, cap)[offset..offset + len][k]
            == (if c.idx in img then img[c.idx][c.within + (k - done)] else 0)
  {
    var c := At(cs, offset, len, done);
    DivMod(cs, c.idx, c.within + (k - done));
  }

  /** What sorting the listed keys gives. */
  method Sorted(s: set<nat>) returns (q: seq<nat>)
    ensures Ascending(q) && |q| == |s|
    ensures forall i :: i in q <==> i in s
  {
    q := [];
    var rest := s;
    while rest != {}
      invariant rest <= s && Ascending(q) && |q| + |rest| == |s|
      invariant forall i :: i in q <==> i in s && i !in rest
      invariant forall i, j :: i in q && j in rest ==> i < j
      decreases |rest|
    {
      var least := Least(rest);
      assert forall k :: 0 <= k < |q| ==> q[k] in q;
      q := q + [least];
      rest := rest - {least};
    }
  }

  method Least(s: set<nat>) returns (least: nat)
    requires s != {}
    ensures least in s && forall i :: i in s ==> least <= i
  {
    least :| least in s;
    var rest := s - {least};
    while rest != {}
      invariant rest <= s && least in s
      invariant forall i :: i in s && i !in rest ==> least <= i
      decreases |rest|
    {
      var k :| k in rest;
      if k < least {
        least := k;
      }
      rest := rest - {k};
    }
  }
}
