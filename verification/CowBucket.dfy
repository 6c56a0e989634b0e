/**
 The bucket of a copy-on-write volume: pointers from chunk index to content hash, a pool of
 payloads named by the hash of their body, and snapshots, each a manifest and a `chunks.bin`.
 */
module CowBucket {
  import opened Volume
  import opened SnapshotFormat

  datatype SnapshotState = Creating | Ready | Deleting

  datatype Manifest = Manifest(
    id: string, capacity: Index, chunkSize: nat, blockSize: nat, algorithm: nat, chunkCount: nat, state: SnapshotState)

  datatype Bucket = Bucket(
    pointers: map<Index, Bytes>,
    objects: map<string, Bytes>,
    manifests: map<string, Manifest>,
    bins: map<string, Bytes>,
    meta: nat)

  /** How hashes, pointers and lists of references are written and read. */
  datatype Formats = Formats(
    name: Hash -> string, parse: string -> Option<Hash>,
    pointer: Hash -> Bytes, target: Bytes -> Outcome<Hash>,
    bin: seq<ChunkRef> -> Bytes, records: Bytes -> Outcome<seq<ChunkRef>>)

  ghost predicate Invert(f: Formats) {
    match f
    case Formats(name, parse, pointer, target, bin, records) =>
      && (forall h :: parse(name(h)) == Some(h))
      && (forall h :: target(pointer(h)) == Ok(h))
      && (forall refs {:trigger bin(refs)} :: |refs| < U64 ==> records(bin(refs)) == Ok(refs))
  }

  /** The formats of the repository. */
  const STORED := Formats(RelPath, HashFromRelPath, EncodePointer, DecodePointer, EncodeBin, DecodeBin)

  lemma StoredInvert()
    ensures Invert(STORED)
  {
    forall h: Hash ensures HashFromRelPath(RelPath(h)) == Some(h) && DecodePointer(EncodePointer(h)) == Ok(h) {
      NameRoundTrip(h);
      PointerIff(EncodePointer(h), h);
    }
    forall refs: seq<ChunkRef> | |refs| < U64 ensures DecodeBin(EncodeBin(refs)) == Ok(refs) {
      BinRoundTrip(refs);
    }
  }

  /** Geometry, the content hash, the chunk codec and the formats of a volume. */
  datatype Params = Params(
    cs: nat, bs: nat, algorithm: nat,
    hash: Bytes -> Hash, encode: Bytes -> Bytes, decode: Bytes -> Outcome<Bytes>, fmt: Formats)

  ghost predicate Codes(p: Params) {
    match p
    case Params(cs, _, _, _, encode, decode, _) =>
      && (forall d {:trigger encode(d)} :: |d| == cs ==> decode(encode(d)) == Ok(d))
      && (forall s :: decode(s).Ok? ==> |decode(s).value| == cs)
  }

  /** What is asked of codec and formats: what is written reads back. */
  ghost predicate Usable(p: Params) {
    && p.cs > 0 && p.bs > 0 && Invert(p.fmt) && Codes(p)
  }

  // ------------------------------------------------------------ resolution

  predicate Has(p: Params, b: Bucket, h: Hash) {
    p.fmt.name(h) in b.objects
  }

  /** The object's body hashes to its name and decodes. */
  ghost predicate Named(p: Params, b: Bucket, n: string)
    requires n in b.objects
  {
    n == p.fmt.name(p.hash(b.objects[n])) && p.decode(b.objects[n]).Ok?
  }

  ghost predicate PointerOk(p: Params, b: Bucket, i: Index)
    requires i in b.pointers
  {
    p.fmt.target(b.pointers[i]).Ok? && Has(p, b, p.fmt.target(b.pointers[i]).value)
  }

  ghost predicate BinOk(p: Params, b: Bucket, bin: Bytes) {
    p.fmt.records(bin).Ok? && forall k :: 0 <= k < |Records(p, bin)| ==> Has(p, b, Records(p, bin)[k].hash)
  }

  ghost predicate SnapshotOk(p: Params, b: Bucket, id: string)
    requires id in b.bins
  {
    id in b.manifests && BinOk(p, b, b.bins[id])
  }

  /**
   Every live pointer and every record of every stored `chunks.bin` names an object that is
   there, every object is named by the hash of its body, and no `chunks.bin` is unlisted.
   */
  ghost predicate Safe(p: Params, b: Bucket) {
    && (forall n :: n in b.objects ==> Named(p, b, n))
    && (forall i :: i in b.pointers ==> PointerOk(p, b, i))
    && (forall id :: id in b.bins ==> SnapshotOk(p, b, id))
    && (forall id :: id in b.manifests ==> b.manifests[id].id == id)
  }

  // ----------------------------------------------------------- what is seen

  type Refs = map<Index, Hash>

  /** The live pointers. */
  ghost function Live(p: Params, b: Bucket): Refs {
    map i | i in b.pointers && p.fmt.target(b.pointers[i]).Ok? :: p.fmt.target(b.pointers[i]).value
  }

  /** A list of references as a table; a later record overrides an earlier one. */
  function Table(refs: seq<ChunkRef>): Refs {
    if |refs| == 0 then map[]
    else Table(refs[..|refs| - 1])[refs[|refs| - 1].index := refs[|refs| - 1].hash]
  }

  function Records(p: Params, bin: Bytes): seq<ChunkRef> {
    if p.fmt.records(bin).Ok? then p.fmt.records(bin).value else []
  }

  ghost predicate Distinct(refs: seq<ChunkRef>) {
    forall j, k :: 0 <= j < k < |refs| ==> refs[j].index != refs[k].index
  }

  lemma {:induction false} TableAt(refs: seq<ChunkRef>, k: nat)
    requires Distinct(refs) && k < |refs|
    ensures refs[k].index in Table(refs) && Table(refs)[refs[k].index] == refs[k].hash
  {
    var n := |refs|;
    if k < n - 1 {
      TableAt(refs[..n - 1], k);
    }
  }

  ghost predicate Resolves(p: Params, b: Bucket, refs: Refs) {
    forall i :: i in refs ==> Has(p, b, refs[i]) && Named(p, b, p.fmt.name(refs[i]))
  }

  function DataOf(p: Params, b: Bucket, h: Hash): (d: Bytes)
    requires Has(p, b, h) && p.decode(b.objects[p.fmt.name(h)]).Ok?
  {
    p.decode(b.objects[p.fmt.name(h)]).value
  }

  /** The chunks a table of references stands for. */
  ghost function Chunks(p: Params, b: Bucket, refs: Refs): Image
    requires Resolves(p, b, refs)
  {
    map i: nat | i in refs :: DataOf(p, b, refs[i])
  }

  lemma {:induction false} TableFrom(refs: seq<ChunkRef>, i: Index)
    requires i in Table(refs)
    ensures exists k :: 0 <= k < |refs| && refs[k] == ChunkRef(i, Table(refs)[i])
  {
    var n := |refs|;
    if refs[n - 1].index == i {
      assert refs[n - 1] == ChunkRef(i, Table(refs)[i]);
    } else {
      TableFrom(refs[..n - 1], i);
      var k :| 0 <= k < n - 1 && refs[..n - 1][k] == ChunkRef(i, Table(refs)[i]);
      assert refs[k] == ChunkRef(i, Table(refs)[i]);
    }
  }

  lemma LiveResolves(p: Params, b: Bucket)
    requires Safe(p, b)
    ensures Resolves(p, b, Live(p, b)) && Live(p, b).Keys == b.pointers.Keys
  {
    forall i | i in b.pointers ensures i in Live(p, b) && Has(p, b, Live(p, b)[i]) && Named(p, b, p.fmt.name(Live(p, b)[i])) {
      assert PointerOk(p, b, i);
    }
  }

  lemma SnapshotResolves(p: Params, b: Bucket, id: string)
    requires Safe(p, b) && id in b.bins
    ensures Resolves(p, b, Table(Records(p, b.bins[id])))
  {
    var refs := Records(p, b.bins[id]);
    assert SnapshotOk(p, b, id);
    forall i | i in Table(refs) ensures Has(p, b, Table(refs)[i]) && Named(p, b, p.fmt.name(Table(refs)[i])) {
      TableFrom(refs, i);
    }
  }

  // --------------------------------------------------------- no collisions

  /** No two different bodies among `put` have one hash. */
  ghost predicate NoCollision(p: Params, put: set<Bytes>) {
    forall a, c :: a in put && c in put && p.hash(a) == p.hash(c) ==> a == c
  }

  ghost predicate AllPut(b: Bucket, put: set<Bytes>) {
    forall n :: n in b.objects ==> b.objects[n] in put
  }

  /** Whatever happens to the pool, a hash that resolves before and after stands for the same bytes. */
  lemma SameData(p: Params, a: Bucket, b: Bucket, put: set<Bytes>, h: Hash)
    requires Invert(p.fmt) && NoCollision(p, put) && AllPut(a, put) && AllPut(b, put)
    requires Has(p, a, h) && Named(p, a, p.fmt.name(h)) && Has(p, b, h) && Named(p, b, p.fmt.name(h))
    ensures DataOf(p, a, h) == DataOf(p, b, h)
  {
    var x, y := a.objects[p.fmt.name(h)], b.objects[p.fmt.name(h)];
    assert p.fmt.parse(p.fmt.name(p.hash(x))) == p.fmt.parse(p.fmt.name(p.hash(y)));
  }

  lemma SameChunks(p: Params, a: Bucket, b: Bucket, put: set<Bytes>, refs: Refs)
    requires Invert(p.fmt) && NoCollision(p, put) && AllPut(a, put) && AllPut(b, put)
    requires Resolves(p, a, refs) && Resolves(p, b, refs)
    ensures Chunks(p, a, refs) == Chunks(p, b, refs)
  {
    forall i | i in refs ensures DataOf(p, a, refs[i]) == DataOf(p, b, refs[i]) {
      SameData(p, a, b, put, refs[i]);
    }
  }

  // ------------------------------------------------------------- requests

  function AddObject(p: Params, b: Bucket, body: Bytes): Bucket {
    b.(objects := b.objects[p.fmt.name(p.hash(body)) := body])
  }

  function DropObject(b: Bucket, n: string): Bucket {
    b.(objects := b.objects - {n})
  }

  function SetPointer(p: Params, b: Bucket, i: Index, h: Hash): Bucket {
    b.(pointers := b.pointers[i := p.fmt.pointer(h)])
  }

  function DropPointer(b: Bucket, i: Index): Bucket {
    b.(pointers := b.pointers - {i})
  }

  function SetManifest(b: Bucket, m: Manifest): Bucket {
    b.(manifests := b.manifests[m.id := m])
  }

  function DropManifest(b: Bucket, id: string): Bucket {
    b.(manifests := b.manifests - {id})
  }

  function SetBin(b: Bucket, id: string, bin: Bytes): Bucket {
    b.(bins := b.bins[id := bin])
  }

  function DropBin(b: Bucket, id: string): Bucket {
    b.(bins := b.bins - {id})
  }

  ghost predicate Covers(a: Bucket, b: Bucket) {
    forall n :: n in a.objects ==> n in b.objects
  }

  /** More objects resolve no less. */
  lemma CoversOk(p: Params, a: Bucket, b: Bucket)
    requires Covers(a, b)
    ensures forall bin :: BinOk(p, a, bin) ==> BinOk(p, b, bin)
  {
  }

  lemma AddObjectSafe(p: Params, b: Bucket, body: Bytes)
    requires Safe(p, b) && p.decode(body).Ok?
    ensures Safe(p, AddObject(p, b, body)) && Has(p, AddObject(p, b, body), p.hash(body))
  {
    var c := AddObject(p, b, body);
    CoversOk(p, b, c);
    forall n | n in c.objects ensures Named(p, c, n) {
      assert n in b.objects ==> Named(p, b, n);
    }
    forall i | i in c.pointers ensures PointerOk(p, c, i) {
      assert PointerOk(p, b, i);
    }
    forall id | id in c.bins ensures SnapshotOk(p, c, id) {
      assert SnapshotOk(p, b, id);
    }
  }

  /** Changes to pointers leave objects and snapshots. */
  lemma SameSnapshots(p: Params, b: Bucket, c: Bucket)
    requires Safe(p, b) && c == b.(pointers := c.pointers)
    requires forall i :: i in c.pointers ==> PointerOk(p, c, i)
    ensures Safe(p, c)
  {
    forall n | n in c.objects ensures Named(p, c, n) {
      assert Named(p, b, n);
    }
    forall id | id in c.bins ensures SnapshotOk(p, c, id) {
      assert SnapshotOk(p, b, id);
    }
  }

  lemma SetPointerSafe(p: Params, b: Bucket, i: Index, h: Hash)
    requires Invert(p.fmt) && Safe(p, b) && Has(p, b, h)
    ensures Safe(p, SetPointer(p, b, i, h))
  {
    var c := SetPointer(p, b, i, h);
    assert p.fmt.target(p.fmt.pointer(h)) == Ok(h);
    forall j | j in c.pointers ensures PointerOk(p, c, j) {
      assert j in b.pointers ==> PointerOk(p, b, j);
    }
    SameSnapshots(p, b, c);
  }

  lemma SetPointerLive(p: Params, b: Bucket, i: Index, h: Hash)
    requires Invert(p.fmt)
    ensures Live(p, SetPointer(p, b, i, h)) == Live(p, b)[i := h]
  {
    assert p.fmt.target(p.fmt.pointer(h)) == Ok(h);
  }

  lemma DropPointerSafe(p: Params, b: Bucket, i: Index)
    requires Safe(p, b)
    ensures Safe(p, DropPointer(b, i))
  {
    var c := DropPointer(b, i);
    forall j | j in c.pointers ensures PointerOk(p, c, j) {
      assert PointerOk(p, b, j);
    }
    SameSnapshots(p, b, c);
  }

  lemma DropPointerLive(p: Params, b: Bucket, i: Index)
    ensures Live(p, DropPointer(b, i)) == Live(p, b) - {i}
  {
  }

  /** Changes to manifests and bins leave objects and pointers. */
  lemma SameObjects(p: Params, b: Bucket, c: Bucket)
    requires Safe(p, b) && c.objects == b.objects && c.pointers == b.pointers
    ensures forall n :: n in c.objects ==> Named(p, c, n)
    ensures forall i :: i in c.pointers ==> PointerOk(p, c, i)
    ensures forall id :: id in c.bins && id in b.bins && c.bins[id] == b.bins[id] && id in c.manifests ==> SnapshotOk(p, c, id)
  {
    forall n | n in c.objects ensures Named(p, c, n) {
      assert Named(p, b, n);
    }
    forall i | i in c.pointers ensures PointerOk(p, c, i) {
      assert PointerOk(p, b, i);
    }
    forall id | id in c.bins && id in b.bins && c.bins[id] == b.bins[id] && id in c.manifests ensures SnapshotOk(p, c, id) {
      assert SnapshotOk(p, b, id);
    }
  }

  lemma SetManifestSafe(p: Params, b: Bucket, m: Manifest)
    requires Safe(p, b)
    ensures Safe(p, SetManifest(b, m))
  {
    var c := SetManifest(b, m);
    SameObjects(p, b, c);
    forall id | id in c.bins ensures SnapshotOk(p, c, id) {
      assert SnapshotOk(p, b, id);
    }
  }

  lemma SetBinSafe(p: Params, b: Bucket, id: string, bin: Bytes)
    requires Safe(p, b) && id in b.manifests && BinOk(p, b, bin)
    ensures Safe(p, SetBin(b, id, bin))
  {
    var c := SetBin(b, id, bin);
    SameObjects(p, b, c);
    CoversOk(p, b, c);
    forall j | j in c.bins ensures SnapshotOk(p, c, j) {
      assert j != id ==> SnapshotOk(p, b, j);
    }
  }

  lemma DropBinSafe(p: Params, b: Bucket, id: string)
    requires Safe(p, b)
    ensures Safe(p, DropBin(b, id))
  {
    var c := DropBin(b, id);
    SameObjects(p, b, c);
    forall j | j in c.bins ensures SnapshotOk(p, c, j) {
      assert SnapshotOk(p, b, j);
    }
  }

  /** A manifest may go once its `chunks.bin` has, and only then: what is unlisted is unprotected. */
  lemma DropManifestIff(p: Params, b: Bucket, id: string)
    requires Safe(p, b)
    ensures Safe(p, DropManifest(b, id)) <==> id !in b.bins
  {
    var c := DropManifest(b, id);
    if id in b.bins {
      assert !SnapshotOk(p, c, id);
    } else {
      SameObjects(p, b, c);
      forall j | j in c.bins ensures SnapshotOk(p, c, j) {
        assert SnapshotOk(p, b, j);
      }
    }
  }

  /** Is the hash named by a live pointer or by a stored `chunks.bin`? */
  ghost predicate Referenced(p: Params, b: Bucket, h: Hash) {
    (exists i :: LiveNames(p, b, i, h)) || (exists id :: SnapNames(p, b, id, h))
  }

  ghost predicate LiveNames(p: Params, b: Bucket, i: Index, h: Hash) {
    i in b.pointers && p.fmt.target(b.pointers[i]) == Ok(h)
  }

  ghost predicate SnapNames(p: Params, b: Bucket, id: string, h: Hash) {
    id in b.bins && Mentions(p, b.bins[id], h)
  }

  ghost predicate Mentions(p: Params, bin: Bytes, h: Hash) {
    exists k :: 0 <= k < |Records(p, bin)| && Records(p, bin)[k].hash == h
  }

  lemma Survives(p: Params, b: Bucket, n: string, h: Hash)
    requires Invert(p.fmt) && Has(p, b, h) && Referenced(p, b, h)
    requires p.fmt.parse(n).Some? && !Referenced(p, b, p.fmt.parse(n).value)
    ensures Has(p, DropObject(b, n), h)
  {
    assert p.fmt.parse(p.fmt.name(h)) == Some(h);
  }

  lemma DropObjectSafe(p: Params, b: Bucket, n: string)
    requires Invert(p.fmt) && Safe(p, b) && p.fmt.parse(n).Some? && !Referenced(p, b, p.fmt.parse(n).value)
    ensures Safe(p, DropObject(b, n))
  {
    var c := DropObject(b, n);
    forall m | m in c.objects ensures Named(p, c, m) {
      assert Named(p, b, m);
    }
    forall i | i in c.pointers ensures PointerOk(p, c, i) {
      assert PointerOk(p, b, i);
      assert LiveNames(p, b, i, p.fmt.target(b.pointers[i]).value);
      Survives(p, b, n, p.fmt.target(b.pointers[i]).value);
    }
    forall id | id in c.bins ensures SnapshotOk(p, c, id) {
      assert SnapshotOk(p, b, id);
      forall k | 0 <= k < |Records(p, b.bins[id])| ensures Has(p, c, Records(p, b.bins[id])[k].hash) {
        var h := Records(p, b.bins[id])[k].hash;
        assert SnapNames(p, b, id, h);
        Survives(p, b, n, h);
      }
    }
  }
}
