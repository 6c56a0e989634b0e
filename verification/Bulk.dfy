/** Copying, seeding and exporting whole volumes through `read_at` and `write_at`. */
module Bulk {
  import opened Volume
  import opened MemoryStore

  // ------------------------------------------------------- rows of a flat array

  /** The bytes of the flat array that lie in chunk `idx`. */
  function Row(flat: Bytes, cs: nat, idx: nat): Bytes {
    flat[Min(idx * cs, |flat|)..Min(idx * cs + cs, |flat|)]
  }

  lemma RowIs(flat: Bytes, cs: nat, idx: nat, offset: nat, len: nat)
    requires offset == idx * cs < |flat| && len == Min(|flat| - offset, cs)
    ensures Row(flat, cs, idx) == flat[offset..offset + len]
  {
  }

  lemma RowsEqual(a: Bytes, b: Bytes, cs: nat)
    requires cs > 0 && |a| == |b|
    requires forall idx :: Row(a, cs, idx) == Row(b, cs, idx)
    ensures a == b
  {
    forall i | 0 <= i < |a| ensures a[i] == b[i] {
      Position(cs, i);
      var idx := i / cs;
      assert Row(a, cs, idx) == Row(b, cs, idx);
      assert Row(a, cs, idx)[i - idx * cs] == a[i];
      assert Row(b, cs, idx)[i - idx * cs] == b[i];
    }
  }

  lemma SliceOutside(a: Bytes, at: nat, row: Bytes, lo: nat, hi: nat)
    requires at + |row| <= |a| && lo <= hi <= |a| && (hi <= at || at + |row| <= lo)
    ensures Splice(a, at, row)[lo..hi] == a[lo..hi]
  {
  }

  lemma SliceInside(a: Bytes, at: nat, row: Bytes)
    requires at + |row| <= |a|
    ensures Splice(a, at, row)[at..at + |row|] == row
  {
  }

  /** Writing one row leaves the others. */
  lemma RowSplice(a: Bytes, cs: nat, idx: nat, row: Bytes, j: nat)
    requires cs > 0 && idx * cs <= |a| && |row| == Min(cs, |a| - idx * cs)
    ensures Row(Splice(a, idx * cs, row), cs, j) == (if j == idx then row else Row(a, cs, j))
  {
    if j == idx {
      SliceInside(a, idx * cs, row);
    } else {
      if j < idx {
        NextChunk(cs, j, idx);
      } else {
        NextChunk(cs, idx, j);
      }
      SliceOutside(a, idx * cs, row, Min(j * cs, |a|), Min(j * cs + cs, |a|));
    }
  }

  lemma AbsentRow(img: Image, cs: nat, cap: nat, idx: nat)
    requires cs > 0 && Whole(img, cs) && idx !in img
    ensures Row(Flat(img, cs, cap), cs, idx) == Zeros(Min(idx * cs + cs, cap) - Min(idx * cs, cap))
  {
    if idx * cs < cap {
      var n := Min(cs, cap - idx * cs);
      FlatSlice(img, cs, cap, idx, 0, n);
      assert Chunk(img, cs, idx)[..n] == Zeros(n);
    }
  }

  /** Deleting one chunk leaves the others. */
  lemma DeleteRow(img: Image, cs: nat, cap: nat, idx: nat, j: nat)
    requires cs > 0 && Whole(img, cs) && j != idx
    ensures Row(Flat(img - {idx}, cs, cap), cs, j) == Row(Flat(img, cs, cap), cs, j)
  {
    if j * cs < cap {
      var n := Min(cs, cap - j * cs);
      FlatSlice(img, cs, cap, j, 0, n);
      FlatSlice(img - {idx}, cs, cap, j, 0, n);
    }
  }

  // ---------------------------------------------------------------- copying

  datatype CopyResult = CopyResult(copied: nat, deleted: nat)

  /** Where a copy meets an I/O error; the write or delete may have taken effect. */
  datatype Trouble = NoTrouble | AtChunk(idx: nat, landed: bool) | AtDelete(idx: nat, landed: bool) | AtFlush

  ghost predicate SameGeometry(src: Store, dst: Store)
    reads src, dst
  {
    src.chunkSize == dst.chunkSize && src.blockSize == dst.blockSize && src.capacity == dst.capacity
  }

  /** Is chunk `idx` copied by a run that resumes at `from`? */
  predicate Copies(chunks: Image, from: Option<nat>, idx: nat) {
    idx in chunks && FromOn(from, idx)
  }

  /** A copy: the source and its chunks, the destination as it was, the chunk size, where to resume. */
  datatype Transfer = Transfer(src: Bytes, chunks: Image, dst: Bytes, cs: nat, from: Option<nat>)

  /** Row `j` of a copy in progress once the chunks below `upto` are copied. */
  ghost predicate RowDone(now: Bytes, t: Transfer, upto: nat, j: nat) {
    Row(now, t.cs, j) == if Copies(t.chunks, t.from, j) && j < upto then Row(t.src, t.cs, j) else Row(t.dst, t.cs, j)
  }

  ghost predicate CopiedUpto(now: Bytes, t: Transfer, upto: nat) {
    match t
    case Transfer(src, _, dst, _, _) => |now| == |src| == |dst| && forall j :: RowDone(now, t, upto, j)
  }

  /** As `CopiedUpto`, except that row `idx` itself may hold anything. */
  ghost predicate FailedAt(now: Bytes, t: Transfer, idx: nat) {
    match t
    case Transfer(src, _, dst, _, _) => |now| == |src| == |dst| && forall j :: j != idx ==> RowDone(now, t, idx, j)
  }

  lemma RowMore(now: Bytes, src: Bytes, chunks: Image, dst: Bytes, cs: nat, from: Option<nat>, upto: nat, idx: nat, j: nat)
    requires cs > 0 && |now| == |src| && upto <= idx && idx * cs < |src|
    requires RowDone(now, Transfer(src, chunks, dst, cs, from), upto, j)
    requires upto <= j < idx ==> j !in chunks
    ensures var t := Splice(now, idx * cs, Row(src, cs, idx));
            && (j != idx ==> RowDone(t, Transfer(src, chunks, dst, cs, from), idx, j))
            && (Copies(chunks, from, idx) ==> RowDone(t, Transfer(src, chunks, dst, cs, from), idx + 1, j))
  {
    RowSplice(now, cs, idx, Row(src, cs, idx), j);
  }

  lemma CopiedMore(now: Bytes, src: Bytes, chunks: Image, dst: Bytes, cs: nat, from: Option<nat>, upto: nat, idx: nat, then_: Bytes)
    requires cs > 0 && CopiedUpto(now, Transfer(src, chunks, dst, cs, from), upto)
    requires upto <= idx && idx * cs < |src| && Copies(chunks, from, idx)
    requires forall j :: upto <= j < idx ==> j !in chunks
    requires then_ == Splice(now, idx * cs, Row(src, cs, idx))
    ensures CopiedUpto(then_, Transfer(src, chunks, dst, cs, from), idx + 1)
    ensures FailedAt(then_, Transfer(src, chunks, dst, cs, from), idx)
  {
    var next, t := idx + 1, Transfer(src, chunks, dst, cs, from);
    forall j
      ensures RowDone(then_, t, next, j)
      ensures j != idx ==> RowDone(then_, t, idx, j)
    {
      assert RowDone(now, t, upto, j);
      RowMore(now, src, chunks, dst, cs, from, upto, idx, j);
    }
  }

  lemma CopiedFails(now: Bytes, t: Transfer, upto: nat, idx: nat)
    requires CopiedUpto(now, t, upto) && upto <= idx && forall j :: upto <= j < idx ==> j !in t.chunks
    ensures FailedAt(now, t, idx)
  {
    forall j | j != idx ensures RowDone(now, t, idx, j) {
      assert RowDone(now, t, upto, j);
    }
  }

  lemma CopiedStart(src: Bytes, chunks: Image, dst: Bytes, cs: nat, from: Option<nat>)
    requires |src| == |dst|
    ensures CopiedUpto(dst, Transfer(src, chunks, dst, cs, from), 0)
  {
  }

  lemma CopiedSkip(now: Bytes, src: Bytes, chunks: Image, dst: Bytes, cs: nat, from: Option<nat>, upto: nat, idx: nat)
    requires CopiedUpto(now, Transfer(src, chunks, dst, cs, from), upto)
    requires upto <= idx && (idx * cs >= |src| || !Copies(chunks, from, idx))
    requires forall j :: upto <= j < idx ==> j !in chunks
    ensures CopiedUpto(now, Transfer(src, chunks, dst, cs, from), idx + 1)
  {
    var next := idx + 1;
    forall j ensures RowDone(now, Transfer(src, chunks, dst, cs, from), next, j) {
      assert RowDone(now, Transfer(src, chunks, dst, cs, from), upto, j);
    }
  }

  /** In an ascending listing nothing lies between one entry and the next. */
  function Past(idxs: seq<nat>, n: nat): nat
    requires n <= |idxs|
  {
    if n == 0 then 0 else idxs[n - 1] + 1
  }

  lemma NoneBetween(idxs: seq<nat>, n: nat, chunks: Image)
    requires Lists(idxs, chunks) && n < |idxs|
    ensures Past(idxs, n) <= idxs[n]
    ensures forall j :: Past(idxs, n) <= j < idxs[n] ==> j !in chunks
  {
    forall j | Past(idxs, n) <= j < idxs[n] ensures j !in chunks {
      assert j !in idxs;
    }
  }

  method CopyOne(src: Store, dst: Store, idx: nat)
    requires src.Valid() && dst.Valid() && src != dst && SameGeometry(src, dst) && idx * src.chunkSize < src.capacity
    modifies dst`chunks
    ensures dst.Valid()
    ensures dst.Content() == Splice(old(dst.Content()), idx * src.chunkSize, Row(src.Content(), src.chunkSize, idx))
    ensures forall i :: i in dst.chunks <==> i in old(dst.chunks) || i == idx
  {
    var cs := src.chunkSize;
    var buf := new Byte[cs];
    var offset := idx * cs;
    var len := Min(src.capacity - offset, cs);
    ghost var before := buf[..];
    var r := src.ReadAt(offset, buf, 0, len);
    WroteSlice(before, buf[..], 0, src.Content()[offset..offset + len]);
    RowIs(src.Content(), cs, idx, offset, len);
    ghost var was := dst.chunks;
    r := dst.WriteAt(offset, buf[0..len]);
    OneChunkMore(was, dst.chunks, cs, idx, len);
  }

  lemma OneChunkMore(was: Image, now: Image, cs: nat, idx: nat, len: nat)
    requires 0 < len <= cs && TouchedOnly(was, now, Span(cs, idx * cs, len))
    ensures forall i :: i in now <==> i in was || i == idx
  {
    forall i ensures i in now <==> i in was || i == idx {
      OneChunk(cs, idx, len, i);
    }
  }

  lemma OneChunk(cs: nat, idx: nat, len: nat, i: nat)
    requires 0 < len <= cs
    ensures Touches(cs, idx * cs, len, i) <==> i == idx
  {
    if i < idx {
      NextChunk(cs, i, idx);
    } else if i > idx {
      NextChunk(cs, idx, i);
    }
  }

  /** The transfer of `src` as it is over a destination that was `t.dst`. */
  ghost predicate CopyOf(t: Transfer, src: Store, from: Option<nat>)
    requires src.Valid()
    reads src
  {
    match t
    case Transfer(s, chunks, d, cs, f) =>
      s == src.Content() && chunks == src.chunks && cs == src.chunkSize && f == from && |d| == |s|
  }

  ghost predicate Lists(idxs: seq<nat>, chunks: Image) {
    Ascending(idxs) && forall i {:trigger i in idxs} :: i in idxs <==> i in chunks
  }

  /** How many of the first `n` listed chunks a run from `from` copies. */
  ghost function CountFrom(idxs: seq<nat>, from: Option<nat>, n: nat): nat
    requires n <= |idxs|
  {
    if n == 0 then 0 else CountFrom(idxs, from, n - 1) + if FromOn(from, idxs[n - 1]) then 1 else 0
  }

  predicate FromOn(from: Option<nat>, i: nat) {
    from.Some? ==> i >= from.value
  }

  ghost function Listed(s: seq<nat>, from: Option<nat>): set<nat> {
    set i | i in s && FromOn(from, i)
  }

  lemma ListedMore(s: seq<nat>, x: nat, from: Option<nat>)
    requires x !in s
    ensures |Listed(s + [x], from)| == |Listed(s, from)| + if FromOn(from, x) then 1 else 0
  {
    assert Listed(s + [x], from) == Listed(s, from) + if FromOn(from, x) then {x} else {};
  }

  lemma {:induction false} CountIs(idxs: seq<nat>, from: Option<nat>, n: nat)
    requires Ascending(idxs) && n <= |idxs|
    ensures CountFrom(idxs, from, n) == |Listed(idxs[..n], from)|
  {
    if n > 0 {
      CountIs(idxs, from, n - 1);
      assert idxs[..n] == idxs[..n - 1] + [idxs[n - 1]];
      assert idxs[n - 1] !in idxs[..n - 1];
      ListedMore(idxs[..n - 1], idxs[n - 1], from);
    }
  }

  ghost predicate AddsOnly(was: Image, now: Image, chunks: Image) {
    forall i :: i in now ==> i in was || i in chunks
  }

  /** Where the copying loop stands: the first `n` listed chunks dealt with, `copied` of them copied. */
  ghost predicate Copying(src: Store, dst: Store, idxs: seq<nat>, n: nat, from: Option<nat>, t: Transfer, was: Image, copied: nat)
    reads src, dst
  {
    match t
    case Transfer(_, _, _, _, _) =>
      && src.Valid() && dst.Valid() && src != dst && SameGeometry(src, dst) && CopyOf(t, src, from)
      && n <= |idxs| && Lists(idxs, src.chunks)
      && CopiedUpto(dst.Content(), t, Past(idxs, n))
      && AddsOnly(was, dst.chunks, src.chunks) && copied == CountFrom(idxs, from, n)
  }

  lemma SkipNext(src: Store, dst: Store, idxs: seq<nat>, n: nat, from: Option<nat>, t: Transfer, was: Image, copied: nat)
    requires n < |idxs| && Copying(src, dst, idxs, n, from, t, was, copied)
    requires (from.Some? && idxs[n] < from.value) || idxs[n] * src.chunkSize >= src.capacity
    ensures Copying(src, dst, idxs, n + 1, from, t, was, copied)
  {
    var idx := idxs[n];
    assert idx in idxs;
    NoneBetween(idxs, n, src.chunks);
    CopiedSkip(dst.Content(), t.src, t.chunks, t.dst, t.cs, from, Past(idxs, n), idx);
  }

  /** One turn of the copying loop: the `n`th source chunk is skipped, copied or fails. */
  method CopyNext(src: Store, dst: Store, idxs: seq<nat>, n: nat, from: Option<nat>, x: Trouble,
                  ghost t: Transfer, ghost was: Image, copied: nat)
    returns (ok: bool, next: nat)
    requires n < |idxs| && Copying(src, dst, idxs, n, from, t, was, copied)
    modifies dst`chunks
    ensures ok ==> Copying(src, dst, idxs, n + 1, from, t, was, next)
    ensures !ok ==> dst.Valid() && x.AtChunk? && FailedAt(dst.Content(), t, x.idx)
  {
    var idx := idxs[n];
    assert idx in idxs;
    ghost var upto := Past(idxs, n);
    NoneBetween(idxs, n, src.chunks);
    if (from.Some? && idx < from.value) || idx * src.chunkSize >= src.capacity {
      SkipNext(src, dst, idxs, n, from, t, was, copied);
      return true, copied;
    }
    if x.AtChunk? && x.idx == idx {
      CopiedFails(dst.Content(), t, upto, idx);
      if x.landed {
        CopyStep(src, dst, idx, t, upto);
      }
      return false, copied;
    }
    CopyStep(src, dst, idx, t, upto);
    assert CopyOf(t, src, from) && CopiedUpto(dst.Content(), t, Past(idxs, n + 1));
    assert AddsOnly(was, dst.chunks, src.chunks);
    assert copied + 1 == CountFrom(idxs, from, n + 1);
    return true, copied + 1;
  }

  /** Copies one chunk, the next after those below `upto`. */
  method CopyStep(src: Store, dst: Store, idx: nat, ghost t: Transfer, ghost upto: nat)
    requires src.Valid() && dst.Valid() && src != dst && SameGeometry(src, dst) && CopyOf(t, src, t.from)
    requires CopiedUpto(dst.Content(), t, upto) && upto <= idx && idx * src.chunkSize < src.capacity
    requires Copies(t.chunks, t.from, idx) && forall j :: upto <= j < idx ==> j !in t.chunks
    modifies dst`chunks
    ensures dst.Valid() && CopiedUpto(dst.Content(), t, idx + 1) && FailedAt(dst.Content(), t, idx)
    ensures forall i :: i in dst.chunks <==> i in old(dst.chunks) || i == idx
  {
    ghost var now := dst.Content();
    CopyOne(src, dst, idx);
    CopiedMore(now, t.src, t.chunks, t.dst, t.cs, t.from, upto, idx, dst.Content());
  }

  /** The copying loop over the source's chunks in ascending order. */
  method CopyChunks(src: Store, dst: Store, idxs: seq<nat>, from: Option<nat>, x: Trouble, ghost t: Transfer)
    returns (ok: bool, copied: nat)
    requires Copying(src, dst, idxs, 0, from, t, dst.chunks, 0)
    modifies dst`chunks
    ensures ok ==> Copying(src, dst, idxs, |idxs|, from, t, old(dst.chunks), copied)
    ensures !ok ==> dst.Valid() && x.AtChunk? && FailedAt(dst.Content(), t, x.idx)
  {
    ghost var was := dst.chunks;
    copied := 0;
    var n: nat := 0;
    while n < |idxs|
      invariant n <= |idxs| && Copying(src, dst, idxs, n, from, t, was, copied)
    {
      ok, copied := CopyNext(src, dst, idxs, n, from, x, t, was, copied);
      if !ok {
        return;
      }
      n := n + 1;
    }
    ok := true;
  }

  ghost predicate RowKept(a: Bytes, b: Bytes, cs: nat, j: nat) {
    Row(a, cs, j) == Row(b, cs, j)
  }

  /** Rows of source chunks are as they were, and no chunk came up. */
  ghost predicate Cleaned(src: Store, was: Bytes, had: Image, dst: Store)
    requires src.Valid() && dst.Valid()
    reads src, dst
  {
    && (forall j :: j in src.chunks ==> RowKept(dst.Content(), was, src.chunkSize, j))
    && (forall i :: i in dst.chunks ==> i in had)
  }

  /** Deletes one destination chunk that the source does not have. */
  method DeleteOne(src: Store, dst: Store, idx: nat, ghost was: Bytes, ghost had: Image)
    requires src.Valid() && dst.Valid() && src != dst && SameGeometry(src, dst) && idx !in src.chunks
    requires Cleaned(src, was, had, dst)
    modifies dst`chunks
    ensures dst.Valid() && dst.chunks == old(dst.chunks) - {idx} && Cleaned(src, was, had, dst)
  {
    ghost var img := dst.chunks;
    dst.DeleteChunk(idx);
    forall j | j in src.chunks ensures RowKept(dst.Content(), was, src.chunkSize, j) {
      DeleteRow(img, src.chunkSize, src.capacity, idx, j);
      assert RowKept(Flat(img, src.chunkSize, src.capacity), was, src.chunkSize, j);
    }
  }

  /** The deletion loop: destination chunks the source does not have. */
  method DeleteOthers(src: Store, dst: Store, idxs: seq<nat>, x: Trouble) returns (ok: bool, deleted: nat)
    requires Ascending(idxs) && src.Valid() && dst.Valid() && src != dst && SameGeometry(src, dst)
    requires forall i :: i in dst.chunks ==> i in idxs || i in src.chunks
    modifies dst`chunks
    ensures dst.Valid() && Cleaned(src, old(dst.Content()), old(dst.chunks), dst)
    ensures ok ==> (forall i :: i in dst.chunks ==> i in src.chunks) && deleted == |Strangers(idxs, src.chunks)|
    ensures !ok <==> x.AtDelete? && x.idx in Strangers(idxs, src.chunks)
  {
    ghost var was, had := dst.Content(), dst.chunks;
    deleted := 0;
    var n: nat := 0;
    while n < |idxs|
      invariant n <= |idxs| && dst.Valid() && deleted == |Strangers(idxs[..n], src.chunks)|
      invariant forall i :: i in dst.chunks ==> i in src.chunks || i in idxs[n..]
      invariant Cleaned(src, was, had, dst)
      invariant x.AtDelete? ==> x.idx !in Strangers(idxs[..n], src.chunks)
    {
      var idx := idxs[n];
      assert idxs[n..] == [idx] + idxs[n + 1..];
      StrangersMore(idxs, n, src.chunks);
      if idx !in src.chunks {
        if x.AtDelete? && x.idx == idx {
          if x.landed {
            DeleteOne(src, dst, idx, was, had);
          }
          assert idx in Strangers(idxs, src.chunks);
          return false, deleted;
        }
        DeleteOne(src, dst, idx, was, had);
        deleted := deleted + 1;
      }
      n := n + 1;
    }
    assert idxs[..n] == idxs;
    ok := true;
  }

  /** The listed chunks that the source has not. */
  ghost function Strangers(idxs: seq<nat>, chunks: Image): set<nat> {
    set i | i in idxs && i !in chunks
  }

  lemma StrangersMore(idxs: seq<nat>, n: nat, chunks: Image)
    requires n < |idxs| && Ascending(idxs)
    ensures |Strangers(idxs[..n + 1], chunks)| == |Strangers(idxs[..n], chunks)| + (if idxs[n] in chunks then 0 else 1)
    ensures Strangers(idxs[..n + 1], chunks) == Strangers(idxs[..n], chunks) + (if idxs[n] in chunks then {} else {idxs[n]})
  {
    var was, now := Strangers(idxs[..n], chunks), Strangers(idxs[..n + 1], chunks);
    assert idxs[..n + 1] == idxs[..n] + [idxs[n]];
    assert now == was + (if idxs[n] in chunks then {} else {idxs[n]});
    assert idxs[n] !in was;
  }

  /** A source chunk that a resumed run takes for already copied. */
  predicate Assumed(chunks: Image, from: Option<nat>, j: nat) {
    j in chunks && from.Some? && j < from.value
  }

  ghost predicate RowFinal(now: Bytes, t: Transfer, j: nat) {
    Row(now, t.cs, j) == if Assumed(t.chunks, t.from, j) then Row(t.dst, t.cs, j) else Row(t.src, t.cs, j)
  }

  ghost predicate AlreadyCopied(t: Transfer) {
    match t
    case Transfer(src, chunks, dst, cs, from) => forall j :: Assumed(chunks, from, j) ==> RowKept(src, dst, cs, j)
  }

  lemma FinalRows(src: Image, dst: Image, mid: Bytes, d: Bytes, cs: nat, cap: nat, from: Option<nat>, upto: nat, j: nat)
    requires cs > 0 && Whole(src, cs) && Whole(dst, cs)
    requires RowDone(mid, Transfer(Flat(src, cs, cap), src, d, cs, from), upto, j)
    requires j in src ==> j < upto && RowKept(Flat(dst, cs, cap), mid, cs, j)
    requires j in dst ==> j in src
    ensures RowFinal(Flat(dst, cs, cap), Transfer(Flat(src, cs, cap), src, d, cs, from), j)
  {
    if j !in src {
      AbsentRow(src, cs, cap, j);
      AbsentRow(dst, cs, cap, j);
    }
  }

  /** The copy is exact iff what a resumed run skipped was already right. */
  lemma ExactIff(now: Bytes, src: Bytes, chunks: Image, dst: Bytes, cs: nat, from: Option<nat>)
    requires cs > 0 && |now| == |src|
    requires forall j :: RowFinal(now, Transfer(src, chunks, dst, cs, from), j)
    ensures now == src <==> AlreadyCopied(Transfer(src, chunks, dst, cs, from))
  {
    if now == src {
      forall j | Assumed(chunks, from, j) ensures RowKept(src, dst, cs, j) {
        assert RowFinal(now, Transfer(src, chunks, dst, cs, from), j);
      }
    }
    if AlreadyCopied(Transfer(src, chunks, dst, cs, from)) {
      forall j ensures Row(now, cs, j) == Row(src, cs, j) {
        assert RowFinal(now, Transfer(src, chunks, dst, cs, from), j);
        assert Assumed(chunks, from, j) ==> RowKept(src, dst, cs, j);
      }
      RowsEqual(now, src, cs);
    }
  }

  /** Every source chunk is where it should be, though others may be left over. */
  ghost predicate SourceRows(now: Bytes, t: Transfer) {
    match t
    case Transfer(src, chunks, dst, cs, from) => |now| == |src| && forall j :: j in chunks ==> RowFinal(now, t, j)
  }

  lemma CopiedRows(src: Store, dst: Store, mid: Bytes, had: Image, t: Transfer, upto: nat)
    requires src.Valid() && dst.Valid() && src != dst && SameGeometry(src, dst) && CopyOf(t, src, t.from)
    requires CopiedUpto(mid, t, upto) && Cleaned(src, mid, had, dst) && forall j :: j in src.chunks ==> j < upto
    ensures SourceRows(dst.Content(), t)
    ensures (forall i :: i in dst.chunks ==> i in src.chunks) ==> (dst.Content() == src.Content() <==> AlreadyCopied(t))
  {
    forall j | j in src.chunks ensures RowFinal(dst.Content(), t, j) {
      assert RowDone(mid, t, upto, j) && RowKept(dst.Content(), mid, t.cs, j);
    }
    if forall i :: i in dst.chunks ==> i in src.chunks {
      forall j ensures RowFinal(dst.Content(), t, j) {
        assert RowDone(mid, t, upto, j);
        FinalRows(src.chunks, dst.chunks, mid, t.dst, t.cs, src.capacity, t.from, upto, j);
      }
      ExactIff(dst.Content(), src.Content(), src.chunks, t.dst, t.cs, t.from);
    }
  }

  /**
   Sparse copy. A run that ends Ok makes the destination equal to the source, and holds no
   chunk the source has not, exactly when every chunk below `from` was already right. One
   that fails at a chunk has copied those below it; one that fails later, all of them.
   */
  method CopyVolume(src: Store, dst: Store, from: Option<nat>, x: Trouble) returns (r: Outcome<CopyResult>)
    requires src.Valid() && dst.Valid() && src != dst
    modifies dst`chunks
    ensures dst.Valid()
    ensures !SameGeometry(src, dst) ==> r == Err(GeometryMismatch) && dst.chunks == old(dst.chunks)
    ensures r.Ok? ==> forall i :: i in dst.chunks ==> i in src.chunks
    ensures r.Ok? ==> (dst.Content() == src.Content()
                       <==> AlreadyCopied(Transfer(src.Content(), src.chunks, old(dst.Content()), src.chunkSize, from)))
    ensures r.Ok? ==> && r.value.copied == |set i | i in src.chunks && Copies(src.chunks, from, i)|
                      && r.value.deleted == |set i | i in old(dst.chunks) && i !in src.chunks|
    ensures r.Err? && SameGeometry(src, dst) ==>
              var t := Transfer(src.Content(), src.chunks, old(dst.Content()), src.chunkSize, from);
              !x.NoTrouble? && if x.AtChunk? then FailedAt(dst.Content(), t, x.idx) else SourceRows(dst.Content(), t)
  {
    if src.chunkSize != dst.chunkSize || src.blockSize != dst.blockSize || src.capacity != dst.capacity {
      return Err(GeometryMismatch);
    }
    ghost var d, cs := dst.Content(), src.chunkSize;
    ghost var t := Transfer(src.Content(), src.chunks, d, cs, from);
    var srcIdxs := src.PresentChunks();
    var dstIdxs := dst.PresentChunks();
    CopiedStart(src.Content(), src.chunks, d, cs, from);
    var ok, copied := CopyChunks(src, dst, srcIdxs, from, x, t);
    if !ok {
      return Err(Other);
    }
    ghost var mid, had, upto := dst.Content(), dst.chunks, Past(srcIdxs, |srcIdxs|);
    AllCounted(srcIdxs, src.chunks, from);
    assert Strangers(dstIdxs, src.chunks) == set i | i in old(dst.chunks) && i !in src.chunks;
    var deleted;
    ok, deleted := DeleteOthers(src, dst, dstIdxs, x);
    forall j | j in src.chunks ensures j < upto {
      ListedBelow(srcIdxs, src.chunks, j);
    }
    CopiedRows(src, dst, mid, had, t, upto);
    if !ok || x.AtFlush? {
      return Err(Other);
    }
    r := Ok(CopyResult(copied, deleted));
  }

  lemma AllCounted(idxs: seq<nat>, chunks: Image, from: Option<nat>)
    requires Lists(idxs, chunks)
    ensures CountFrom(idxs, from, |idxs|) == |set i | i in chunks && Copies(chunks, from, i)|
  {
    CountIs(idxs, from, |idxs|);
    assert idxs[..|idxs|] == idxs;
    assert Listed(idxs, from) == set i | i in chunks && Copies(chunks, from, i);
  }

  lemma ListedBelow(idxs: seq<nat>, chunks: Image, j: nat)
    requires Lists(idxs, chunks)
    ensures j in chunks ==> j < Past(idxs, |idxs|)
  {
    if j in chunks {
      assert j in idxs;
      var k :| 0 <= k < |idxs| && idxs[k] == j;
    }
  }

  /** The destination has every source chunk below `from` as the source has it. */
  ghost predicate RightBelow(src: Store, dst: Store, from: Option<nat>)
    requires src.Valid() && dst.Valid()
    reads src, dst
  {
    forall j :: Assumed(src.chunks, from, j) ==> RowKept(src.Content(), dst.Content(), src.chunkSize, j)
  }

  /** A run that fails, and where to resume: at the chunk it names, or else where it was started. */
  method CopyAttempt(src: Store, dst: Store, from: Option<nat>, x: Trouble) returns (done: bool, next: Option<nat>)
    requires src.Valid() && dst.Valid() && src != dst && SameGeometry(src, dst) && RightBelow(src, dst, from)
    modifies dst`chunks
    ensures dst.Valid() && RightBelow(src, dst, next)
    ensures done ==> dst.Content() == src.Content() && forall i :: i in dst.chunks ==> i in src.chunks
    ensures x.NoTrouble? ==> done
  {
    ghost var d, s, cs := dst.Content(), src.Content(), src.chunkSize;
    ghost var t := Transfer(s, src.chunks, d, cs, from);
    assert AlreadyCopied(t);
    var r := CopyVolume(src, dst, from, x);
    done := r.Ok?;
    next := if !done && x.AtChunk? then Some(x.idx) else from;
    if !done {
      forall j | Assumed(src.chunks, next, j) ensures RowKept(s, dst.Content(), cs, j) {
        assert Assumed(src.chunks, from, j) ==> RowKept(s, d, cs, j);
        if x.AtChunk? {
          assert RowDone(dst.Content(), t, x.idx, j);
        } else {
          assert RowFinal(dst.Content(), t, j);
        }
      }
    }
  }

  /** However often a copy fails, each time run again from the chunk it named, it ends as a full copy. */
  method CopyWithResume(src: Store, dst: Store, troubles: seq<Trouble>)
    requires src.Valid() && dst.Valid() && src != dst && SameGeometry(src, dst)
    modifies dst`chunks
    ensures dst.Valid() && dst.Content() == src.Content()
    ensures forall i :: i in dst.chunks ==> i in src.chunks
  {
    var from: Option<nat> := None;
    var n: nat := 0;
    while n < |troubles|
      invariant n <= |troubles| && dst.Valid() && SameGeometry(src, dst) && RightBelow(src, dst, from)
    {
      var done;
      done, from := CopyAttempt(src, dst, from, troubles[n]);
      if done {
        return;
      }
      n := n + 1;
    }
    var done;
    done, from := CopyAttempt(src, dst, from, NoTrouble);
  }

  // ------------------------------------------------------ seeding, exporting

  datatype SeedResult = SeedResult(bytesRead: nat, bytesStored: nat, chunksWritten: nat, zeroChunksSkipped: nat)

  /** Is the piece of the image that goes to chunk `idx` all zeros, and so skipped? */
  ghost predicate Blank(image: Bytes, cs: nat, idx: nat) {
    forall k :: idx * cs <= k < idx * cs + cs && k < |image| ==> image[k] == 0
  }

  /** Byte `k` after the first `upto` bytes of the image: skipped pieces leave what was there. */
  ghost predicate Seeded(now: Bytes, was: Bytes, image: Bytes, cs: nat, upto: nat, k: nat)
    requires cs > 0 && |image| <= |was| == |now| && k < |was|
  {
    now[k] == if k < upto && k < |image| && !Blank(image, cs, k / cs) then image[k] else was[k]
  }

  ghost predicate SeededUpto(now: Bytes, was: Bytes, image: Bytes, cs: nat, upto: nat)
    requires cs > 0
  {
    |image| <= |was| == |now| && forall k :: 0 <= k < |was| ==> Seeded(now, was, image, cs, upto, k)
  }

  lemma SeededMore(now: Bytes, was: Bytes, image: Bytes, cs: nat, n: nat, at: nat, upto: nat, then_: Bytes)
    requires cs > 0 && n * cs == at < |image| && upto == at + Min(|image| - at, cs)
    requires SeededUpto(now, was, image, cs, at)
    requires then_ == if Blank(image, cs, n) then now else Splice(now, at, image[at..upto])
    ensures SeededUpto(then_, was, image, cs, upto)
  {
    forall k | 0 <= k < |was| ensures Seeded(then_, was, image, cs, upto, k) {
      assert Seeded(now, was, image, cs, at, k);
      if at <= k < upto {
        DivMod(cs, n, k - at);
      }
    }
  }

  lemma SeededByte(now: Bytes, was: Bytes, image: Bytes, cs: nat, k: nat)
    requires cs > 0 && SeededUpto(now, was, image, cs, |image|) && k < |was|
    ensures k < |image| ==> (now[k] == image[k] <==> (Blank(image, cs, k / cs) ==> was[k] == 0))
    ensures k >= |image| ==> now[k] == was[k]
  {
    assert Seeded(now, was, image, cs, |image|, k);
    Position(cs, k);
  }

  /** Was the volume zero wherever the image had a piece that is skipped? */
  ghost predicate ZeroUnderBlanks(was: Bytes, image: Bytes, cs: nat)
    requires cs > 0 && |image| <= |was|
  {
    forall k :: 0 <= k < |image| && Blank(image, cs, k / cs) ==> was[k] == 0
  }

  lemma SeedExact(now: Bytes, was: Bytes, image: Bytes, cs: nat, size: nat)
    requires cs > 0 && size == |image| && SeededUpto(now, was, image, cs, size)
    ensures now[size..] == was[size..]
    ensures now[..size] == image <==> ZeroUnderBlanks(was, image, cs)
  {
    forall k | |image| <= k < |was| ensures now[k] == was[k] {
      SeededByte(now, was, image, cs, k);
    }
    if now[..|image|] == image {
      forall k | 0 <= k < |image| && Blank(image, cs, k / cs) ensures was[k] == 0 {
        SeededByte(now, was, image, cs, k);
        assert now[..|image|][k] == now[k];
      }
    } else {
      var k :| 0 <= k < |image| && now[k] != image[k];
      SeededByte(now, was, image, cs, k);
    }
  }

  predicate AllZero(b: Bytes) {
    forall k :: 0 <= k < |b| ==> b[k] == 0
  }

  lemma BlankPiece(image: Bytes, cs: nat, n: nat, piece: Bytes)
    requires n * cs < |image| && piece == image[n * cs..n * cs + Min(|image| - n * cs, cs)]
    ensures AllZero(piece) <==> Blank(image, cs, n)
  {
    var at := n * cs;
    if AllZero(piece) {
      forall k | at <= k < at + cs && k < |image| ensures image[k] == 0 {
        assert piece[k - at] == image[k];
      }
    }
  }

  lemma PieceSeeded(now: Bytes, was: Bytes, image: Bytes, cs: nat, n: nat, offset: nat, buf: Bytes)
    requires cs > 0 && StartsAt(n, cs, offset) && offset < |image| && SeededUpto(now, was, image, cs, offset)
    requires |buf| == Min(|image| - offset, cs) && buf == image[offset..offset + |buf|]
    ensures SeededUpto(if AllZero(buf) then now else Splice(now, offset, buf), was, image, cs, offset + |buf|)
  {
    BlankPiece(image, cs, n, buf);
    SeededMore(now, was, image, cs, n, offset, offset + |buf|, if AllZero(buf) then now else Splice(now, offset, buf));
  }

  /** The offset of chunk `n`. */
  ghost predicate StartsAt(n: nat, cs: nat, offset: nat) {
    n * cs == offset
  }

  lemma StartsNext(n: nat, cs: nat, offset: nat)
    requires StartsAt(n, cs, offset)
    ensures StartsAt(n + 1, cs, offset + cs)
  {
  }

  /** How many of the first `n` pieces are blank, and how many bytes the others hold. */
  ghost function Blanks(image: Bytes, cs: nat, n: nat): nat {
    if n == 0 then 0 else Blanks(image, cs, n - 1) + if Blank(image, cs, n - 1) then 1 else 0
  }

  ghost function StoredBytes(image: Bytes, cs: nat, n: nat): nat {
    if n == 0 then 0
    else StoredBytes(image, cs, n - 1) + if Blank(image, cs, n - 1) then 0 else |Row(image, cs, n - 1)|
  }

  /** The pieces of an image. */
  function Pieces(size: nat, cs: nat): nat
    requires cs > 0
  {
    if size == 0 then 0 else (size - 1) / cs + 1
  }

  lemma PiecesIs(size: nat, cs: nat, n: nat, offset: nat)
    requires cs > 0 && StartsAt(n, cs, offset) && offset < size <= offset + cs
    ensures n + 1 == Pieces(size, cs)
  {
    DivMod(cs, n, size - 1 - offset);
  }

  /** One turn of the seeding loop; a write that fails may have taken effect. */
  method SeedNext(store: Store, buf: Bytes, ghost n: nat, offset: nat, x: Trouble, ghost image: Bytes, ghost was: Bytes)
    returns (ok: bool, wrote: bool, ghost upto: nat)
    requires store.Valid() && |image| <= store.capacity && StartsAt(n, store.chunkSize, offset) && offset < |image|
    requires |buf| == Min(|image| - offset, store.chunkSize) && buf == image[offset..offset + |buf|]
    requires SeededUpto(store.Content(), was, image, store.chunkSize, offset)
    modifies store`chunks
    ensures store.Valid() && SeededUpto(store.Content(), was, image, store.chunkSize, upto)
    ensures ok ==> upto == offset + |buf| && (wrote <==> !Blank(image, store.chunkSize, n))
    ensures !ok ==> !x.NoTrouble?
  {
    ghost var now, cs := store.Content(), store.chunkSize;
    PieceSeeded(now, was, image, cs, n, offset, buf);
    BlankPiece(image, cs, n, buf);
    wrote, ok, upto := !AllZero(buf), true, offset;
    if wrote {
      ok := !(x.AtChunk? && x.idx * store.chunkSize == offset);
      if ok || x.landed {
        var w := store.WriteAt(offset, buf);
        upto := offset + |buf|;
      }
    } else {
      upto := offset + |buf|;
    }
  }

  /** The counters of the seeding loop after `n` pieces. */
  ghost predicate Tallied(image: Bytes, cs: nat, n: nat, stored: nat, written: nat, skipped: nat) {
    written + skipped == n && skipped == Blanks(image, cs, n) && stored == StoredBytes(image, cs, n)
  }

  lemma TallyMore(image: Bytes, cs: nat, n: nat, offset: nat, len: nat)
    requires StartsAt(n, cs, offset) && offset < |image| && len == Min(|image| - offset, cs)
    ensures |Row(image, cs, n)| == len
  {
    RowIs(image, cs, n, offset, len);
  }

  /**
   Seeding reads `size` bytes and writes them chunk by chunk, skipping blank chunks; input
   that ends early is an error. The volume then starts with the image iff it was zero
   under every skipped chunk. A run that fails has seeded the first `upto` bytes so.
   */
  method SeedImage(store: Store, input: Bytes, size: nat, x: Trouble) returns (r: Outcome<SeedResult>, ghost upto: nat)
    requires store.Valid()
    modifies store`chunks
    ensures store.Valid()
    ensures r.Ok? ==> size <= store.capacity && size <= |input|
    ensures r.Err? ==> size > store.capacity || size > |input| || !x.NoTrouble?
    ensures size > store.capacity ==> store.chunks == old(store.chunks)
    ensures size <= store.capacity ==>
              SeededUpto(store.Content(), old(store.Content()), input[..Min(size, |input|)], store.chunkSize, upto)
    ensures r.Ok? ==>
              && store.Content()[size..] == old(store.Content())[size..]
              && (store.Content()[..size] == input[..size]
                  <==> ZeroUnderBlanks(old(store.Content()), input[..size], store.chunkSize))
    ensures r.Ok? ==>
              && r.value.bytesRead == size
              && Tallied(input[..size], store.chunkSize, Pieces(size, store.chunkSize),
                         r.value.bytesStored, r.value.chunksWritten, r.value.zeroChunksSkipped)
  {
    upto := 0;
    if size > store.capacity {
      return Err(Other), 0;
    }
    ghost var was, image := store.Content(), input[..Min(size, |input|)];
    var remaining: nat, offset: nat := size, 0;
    ghost var n: nat := 0;
    var stored: nat, written: nat, skipped: nat := 0, 0, 0;
    while remaining > 0
      invariant store.Valid() && offset + remaining == size && offset <= |input| && upto == offset
      invariant if remaining > 0 then StartsAt(n, store.chunkSize, offset) else n == Pieces(size, store.chunkSize)
      invariant SeededUpto(store.Content(), was, image, store.chunkSize, offset)
      invariant Tallied(image, store.chunkSize, n, stored, written, skipped)
    {
      var len := Min(remaining, store.chunkSize);
      if offset + len > |input| {
        return Err(Other), upto;
      }
      var ok, wrote;
      ok, wrote, upto := SeedNext(store, input[offset..offset + len], n, offset, x, image, was);
      if !ok {
        return Err(Other), upto;
      }
      TallyMore(image, store.chunkSize, n, offset, len);
      if wrote {
        written, stored := written + 1, stored + len;
      } else {
        skipped := skipped + 1;
      }
      SeedAdvances(n, store.chunkSize, offset, size, len);
      offset, remaining, n := offset + len, remaining - len, n + 1;
    }
    assert image == input[..size];
    SeedExact(store.Content(), was, input[..size], store.chunkSize, size);
    r := Ok(SeedResult(size, stored, written, skipped));
  }

  lemma SeedAdvances(n: nat, cs: nat, offset: nat, size: nat, len: nat)
    requires cs > 0 && StartsAt(n, cs, offset) && offset < size && len == Min(size - offset, cs)
    ensures if offset + len < size then StartsAt(n + 1, cs, offset + len) else n + 1 == Pieces(size, cs)
  {
    if offset + len < size {
      StartsNext(n, cs, offset);
    } else {
      PiecesIs(size, cs, n, offset);
    }
  }

  lemma TakeMore(b: Bytes, offset: nat, len: nat)
    requires offset + len <= |b|
    ensures b[..offset] + b[offset..offset + len] == b[..offset + len]
  {
  }

  method ExportImage(store: Store, size: nat) returns (r: Outcome<Bytes>)
    requires store.Valid()
    ensures r.Ok? <==> size <= store.capacity
    ensures r.Ok? ==> r.value == store.Content()[..size]
  {
    var cs := store.chunkSize;
    if size > store.capacity {
      return Err(Other);
    }
    var buf := new Byte[cs];
    var remaining: nat, offset: nat, out := size, 0, [];
    ghost var content := store.Content();
    while remaining > 0
      invariant offset + remaining == size && out == content[..offset]
    {
      var len := Min(remaining, cs);
      ghost var before := buf[..];
      var w := store.ReadAt(offset, buf, 0, len);
      WroteSlice(before, buf[..], 0, content[offset..offset + len]);
      TakeMore(content, offset, len);
      out := out + buf[0..len];
      offset, remaining := offset + len, remaining - len;
    }
    r := Ok(out);
  }

  /** Seeding an empty volume and exporting the same size gives the image back. */
  method SeedThenExport(store: Store, image: Bytes) returns (r: Outcome<Bytes>)
    requires store.Valid() && store.chunks == map[] && |image| <= store.capacity
    modifies store`chunks
    ensures r == Ok(image)
  {
    ghost var was := store.Content();
    assert was == Zeros(store.capacity);
    assert image[..|image|] == image;
    var s; ghost var upto;
    s, upto := SeedImage(store, image, |image|, NoTrouble);
    r := ExportImage(store, |image|);
  }
}
