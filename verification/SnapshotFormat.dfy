/** Pointers, object names, chunk keys and the `chunks.bin` index, as bytes and strings. */
module SnapshotFormat {
  import opened Volume
  import opened Numerals

  const HASH_LEN: nat := 32
  const REF_LEN: nat := 8 + HASH_LEN
  const PTR_LEN: nat := 4 + 1 + HASH_LEN

  type Hash = b: Bytes | |b| == HASH_LEN witness Zeros(HASH_LEN)
  type Index = n: nat | n < U64

  datatype ChunkRef = ChunkRef(index: Index, hash: Hash)

  // --------------------------------------------------------------- pointers

  /** "ISCP" */
  const PTR_MAGIC: Bytes := [0x49, 0x53, 0x43, 0x50]
  const PTR_ALGO_BLAKE3: Byte := 1

  function EncodePointer(hash: Hash): Bytes {
    PTR_MAGIC + [PTR_ALGO_BLAKE3] + hash
  }

  function DecodePointer(b: Bytes): Outcome<Hash> {
    if |b| != PTR_LEN || b[0..4] != PTR_MAGIC || b[4] != PTR_ALGO_BLAKE3 then Err(Other)
    else Ok(b[5..])
  }

  /** A pointer decodes to a hash iff it is that hash's encoding. */
  lemma PointerIff(b: Bytes, hash: Hash)
    ensures DecodePointer(b) == Ok(hash) <==> b == EncodePointer(hash)
  {
    if DecodePointer(b) == Ok(hash) {
      assert b == b[0..4] + [b[4]] + b[5..];
    }
  }

  // ----------------------------------------------------------- object names

  function ShardName(name: string): string {
    if |name| < 4 then name else name[..2] + "/" + name[2..4] + "/" + name[4..]
  }

  /** Key of a payload relative to the pool of objects. */
  function RelPath(hash: Hash): string {
    ShardName(Hex(hash))
  }

  function SplitSharded(rel: string): Option<string> {
    if |rel| < 6 || rel[2] != '/' || rel[5] != '/' || '/' in rel[6..] then None
    else Some(rel[..2] + rel[3..5] + rel[6..])
  }

  function HashOfHex(s: string): Option<Hash> {
    if |s| != HASH_LEN * 2 then None else Unhex(s, ParseByte)
  }

  function HashFromRelPath(rel: string): Option<Hash> {
    var name := SplitSharded(rel);
    if name.Some? then HashOfHex(name.value) else None
  }

  /** The loop over pairs of digits. */
  method ParseHashHex(s: string) returns (r: Outcome<Hash>)
    ensures r == if HashOfHex(s).Some? then Ok(HashOfHex(s).value) else Err(Other)
  {
    if |s| != HASH_LEN * 2 {
      return Err(Other);
    }
    var out: Bytes := [];
    var i := 0;
    while i < HASH_LEN
      invariant i <= HASH_LEN && Unhex(s[..2 * i], ParseByte) == Some(out)
    {
      var t := s[..2 * i + 2];
      assert t[..|t| - 2] == s[..2 * i];
      var pair := ParseByte(s[i * 2], s[i * 2 + 1]);
      if pair.None? {
        UnhexPrefix(s, i + 1, ParseByte);
        return Err(Other);
      }
      out := out + [pair.value];
      i := i + 1;
    }
    assert s[..2 * i] == s;
    r := Ok(out);
  }

  /** One pair that does not parse spoils the whole. */
  lemma {:induction false} UnhexPrefix(s: string, n: nat, pair: (char, char) -> Option<Byte>)
    requires |s| % 2 == 0 && 2 * n <= |s| && Unhex(s[..2 * n], pair).None?
    ensures Unhex(s, pair).None?
  {
    if 2 * n == |s| {
      assert s[..2 * n] == s;
    } else {
      var init := s[..|s| - 2];
      assert init[..2 * n] == s[..2 * n];
      UnhexPrefix(init, n, pair);
    }
  }

  /** The shape `RelPath` gives: two slashes and lower-case digits. */
  ghost predicate CanonicalRel(rel: string) {
    forall i :: 0 <= i < |rel| && i != 2 && i != 5 ==> LowerHex(rel[i])
  }

  lemma ReadsPairs()
    ensures Reads(ParseByte) && Reads(PairValue)
  {
  }

  /** A name belongs to a hash iff it parses to it and is written canonically. */
  lemma NameIff(rel: string, hash: Hash)
    ensures rel == RelPath(hash) <==> HashFromRelPath(rel) == Some(hash) && CanonicalRel(rel)
  {
    ReadsPairs();
    if rel == RelPath(hash) {
      UnhexHex(hash, ParseByte);
      NameShape(Hex(hash));
    }
    if HashFromRelPath(rel) == Some(hash) && CanonicalRel(rel) {
      var name := SplitSharded(rel).value;
      assert Canonical(name);
      HexUnhex(name, ParseByte);
      assert rel == ShardName(name);
    }
  }

  lemma NameShape(name: string)
    requires Canonical(name) && |name| == HASH_LEN * 2
    ensures CanonicalRel(ShardName(name)) && SplitSharded(ShardName(name)) == Some(name)
  {
    var rel := ShardName(name);
    assert name == name[..2] + name[2..4] + name[4..];
    assert rel[6..] == name[4..] && rel[..2] == name[..2] && rel[3..5] == name[2..4];
  }

  lemma NameRoundTrip(hash: Hash)
    ensures HashFromRelPath(RelPath(hash)) == Some(hash)
  {
    NameIff(RelPath(hash), hash);
  }

  /** Parsing alone does not pin the name: a plus sign for a leading zero reads the same. */
  lemma {:induction false} PlusReadsAsZero(s: string)
    requires |s| % 2 == 0 && |s| > 0 && s[0] == '0'
    ensures Unhex(s[0 := '+'], ParseByte) == Unhex(s, ParseByte)
  {
    var t := s[0 := '+'];
    if |s| > 2 {
      assert t[..|t| - 2] == s[..|s| - 2][0 := '+'];
      PlusReadsAsZero(s[..|s| - 2]);
    } else {
      assert t[..0] == s[..0];
    }
  }

  lemma PlusNameIsAnother(hash: Hash)
    requires hash[0] < 16
    ensures var rel := RelPath(hash)[0 := '+'];
            rel != RelPath(hash) && HashFromRelPath(rel) == Some(hash)
  {
    var name := Hex(hash);
    ReadsPairs();
    UnhexHex(hash, ParseByte);
    NameShape(name);
    HexStart(hash);
    PlusReadsAsZero(name);
    var rel := RelPath(hash)[0 := '+'];
    assert rel[6..] == RelPath(hash)[6..];
    assert rel[..2] + rel[3..5] + rel[6..] == name[0 := '+'];
  }

  lemma {:induction false} HexStart(b: Bytes)
    requires |b| > 0
    ensures Hex(b)[..2] == HexByte(b[0])
  {
    if |b| > 1 {
      HexStart(b[..|b| - 1]);
      assert Hex(b)[..2] == Hex(b[..|b| - 1])[..2];
    }
  }

  // ------------------------------------------------------------- chunk keys

  /** `{index:016x}` */
  function FlatKey(index: Index): (s: string)
    ensures |s| == 16
  {
    Hex(ToBE(index, 8))
  }

  /** Low-order digits first, as two directory levels. */
  function ShardKey(index: Index): (s: string)
    ensures |s| == 18
  {
    var hex := FlatKey(index);
    hex[14..16] + "/" + hex[12..14] + "/" + hex[..12]
  }

  /** `u64::from_str_radix` of sixteen characters. */
  function ParseIndex(hex: string): (r: Option<Index>)
    requires |hex| == 16
  {
    var digits := if hex[0] == '+' then "0" + hex[1..] else hex;
    var b := Unhex(digits, PairValue);
    if b.Some? then
      ToFromBE(b.value);
      Widths();
      Some(FromBE(b.value))
    else None
  }

  function IndexFromRelPath(rel: string): Option<Index> {
    var hex :=
      if |rel| == 18 && rel[2] == '/' && rel[5] == '/' then Some(rel[6..] + rel[3..5] + rel[..2])
      else if |rel| > 0 && '/' !in rel then Some(rel)
      else None;
    if hex.Some? && |hex.value| == 16 then ParseIndex(hex.value) else None
  }

  lemma {:induction false} HexHasNoSlash(b: Bytes)
    ensures '/' !in Hex(b) && '+' !in Hex(b)
  {
    ReadsPairs();
    UnhexHex(b, PairValue);
  }

  lemma ParseFlat(index: Index)
    ensures ParseIndex(FlatKey(index)) == Some(index)
  {
    var b := ToBE(index, 8);
    ReadsPairs();
    UnhexHex(b, PairValue);
    HexHasNoSlash(b);
    assert FlatKey(index)[0] in FlatKey(index);
    Widths();
    FromToBE(index, 8);
  }

  lemma ShardParts(index: Index)
    ensures var s := ShardKey(index);
            s[2] == '/' && s[5] == '/' && s[6..] + s[3..5] + s[..2] == FlatKey(index)
  {
    var hex, s := FlatKey(index), ShardKey(index);
    assert s[6..] == hex[..12] && s[3..5] == hex[12..14] && s[..2] == hex[14..16];
    assert hex == hex[..12] + hex[12..14] + hex[14..16];
  }

  /** Both forms of a chunk key read back as their index, and no key is of both forms. */
  lemma KeysRoundTrip(index: Index, other: Index)
    ensures IndexFromRelPath(FlatKey(index)) == Some(index)
    ensures IndexFromRelPath(ShardKey(index)) == Some(index)
    ensures FlatKey(index) != ShardKey(other)
    ensures FlatKey(index) == FlatKey(other) || ShardKey(index) == ShardKey(other) ==> index == other
  {
    ParseFlat(index);
    ParseFlat(other);
    HexHasNoSlash(ToBE(index, 8));
    ShardParts(index);
    ShardParts(other);
  }

  /** A leading plus sign is read as a zero, so an index below 2^60 has a second flat name. */
  lemma PlusIsZero(index: Index)
    requires FlatKey(index)[0] == '0'
    ensures IndexFromRelPath("+" + FlatKey(index)[1..]) == Some(index)
    ensures "+" + FlatKey(index)[1..] != FlatKey(index)
  {
    var flat := FlatKey(index);
    var rel := "+" + flat[1..];
    assert "0" + rel[1..] == flat;
    ParseFlat(index);
    HexHasNoSlash(ToBE(index, 8));
    forall c | c in rel ensures c != '/' {
      assert c == '+' || c in flat;
    }
  }

  lemma ReadsAsKey(rel: string, index: Index)
    requires IndexFromRelPath(rel) == Some(index) && (Canonical(rel) || (|rel| == 18 && CanonicalRel(rel)))
    ensures rel == FlatKey(index) || rel == ShardKey(index)
  {
    if |rel| == 18 && rel[2] == '/' && rel[5] == '/' {
      ParseCanonical(rel[6..] + rel[3..5] + rel[..2]);
      Reassemble(rel);
    } else {
      ParseCanonical(rel);
    }
  }

  /** A canonical key that reads as an index is one of that index's two keys. */
  lemma KeyIff(rel: string, index: Index)
    ensures (rel == FlatKey(index) || rel == ShardKey(index)) <==>
            (IndexFromRelPath(rel) == Some(index) && (Canonical(rel) || (|rel| == 18 && CanonicalRel(rel))))
  {
    if rel == FlatKey(index) || rel == ShardKey(index) {
      KeysRoundTrip(index, index);
      CanonicalKeys(index);
    } else if IndexFromRelPath(rel) == Some(index) && (Canonical(rel) || (|rel| == 18 && CanonicalRel(rel))) {
      ReadsAsKey(rel, index);
    }
  }

  lemma Reassemble(rel: string)
    requires |rel| == 18 && rel[2] == '/' && rel[5] == '/'
    ensures var hex := rel[6..] + rel[3..5] + rel[..2];
            rel == hex[14..16] + "/" + hex[12..14] + "/" + hex[..12]
  {
    var hex := rel[6..] + rel[3..5] + rel[..2];
    assert rel[6..] == hex[..12] && rel[3..5] == hex[12..14] && rel[..2] == hex[14..16];
  }

  lemma CanonicalKeys(index: Index)
    ensures Canonical(FlatKey(index)) && CanonicalRel(ShardKey(index))
  {
    ReadsPairs();
    UnhexHex(ToBE(index, 8), PairValue);
  }

  lemma ParseCanonical(hex: string)
    requires |hex| == 16 && Canonical(hex)
    ensures ParseIndex(hex).Some? && FlatKey(ParseIndex(hex).value) == hex
  {
    ReadsPairs();
    HexUnhex(hex, PairValue);
    ToFromBE(Unhex(hex, PairValue).value);
  }

  // ------------------------------------------------------------- chunks.bin

  /** "ISC3SNAP" */
  const SNAP_MAGIC: Bytes := [0x49, 0x53, 0x43, 0x33, 0x53, 0x4E, 0x41, 0x50]
  const SNAP_INDEX_VERSION: nat := 1
  const BIN_HEADER: nat := 20

  function EncodeRef(r: ChunkRef): (b: Bytes)
    ensures |b| == REF_LEN
  {
    ToBE(r.index, 8) + r.hash
  }

  function EncodeRefs(refs: seq<ChunkRef>): (b: Bytes)
    ensures |b| == REF_LEN * |refs|
  {
    if |refs| == 0 then [] else EncodeRefs(refs[..|refs| - 1]) + EncodeRef(refs[|refs| - 1])
  }

  function Header(count: nat): (b: Bytes)
    ensures |b| == BIN_HEADER
  {
    SNAP_MAGIC + ToBE(SNAP_INDEX_VERSION, 4) + ToBE(count, 8)
  }

  function EncodeBin(refs: seq<ChunkRef>): Bytes {
    Header(|refs|) + EncodeRefs(refs)
  }

  function DecodeRef(b: Bytes): (r: ChunkRef)
    requires |b| == REF_LEN
  {
    ToFromBE(b[..8]);
    Widths();
    ChunkRef(FromBE(b[..8]), b[8..])
  }

  function DecodeRefs(b: Bytes, count: nat): (r: seq<ChunkRef>)
    requires |b| >= REF_LEN * count
    ensures |r| == count
  {
    if count == 0 then []
    else DecodeRefs(b, count - 1) + [DecodeRef(b[REF_LEN * (count - 1)..REF_LEN * count])]
  }

  /** What a reader makes of the file; bytes after the last record are not looked at. */
  function DecodeBin(b: Bytes): Outcome<seq<ChunkRef>> {
    if |b| < BIN_HEADER || b[..8] != SNAP_MAGIC || FromBE(b[8..12]) != SNAP_INDEX_VERSION then Err(Other) else
    var count := FromBE(b[12..20]);
    if |b| - BIN_HEADER < REF_LEN * count then Err(Other) else Ok(DecodeRefs(b[BIN_HEADER..], count))
  }

  method WriteChunksBin(refs: seq<ChunkRef>) returns (w: Bytes)
    ensures w == EncodeBin(refs)
  {
    w := SNAP_MAGIC;
    w := w + ToBE(SNAP_INDEX_VERSION, 4);
    w := w + ToBE(|refs|, 8);
    ghost var head := w;
    var i := 0;
    while i < |refs|
      invariant i <= |refs| && w == head + EncodeRefs(refs[..i])
    {
      ghost var was := EncodeRefs(refs[..i]);
      assert refs[..i + 1][..i] == refs[..i];
      w := w + ToBE(refs[i].index, 8);
      w := w + refs[i].hash;
      Regroup(head, was, ToBE(refs[i].index, 8), refs[i].hash);
      i := i + 1;
    }
    assert refs[..i] == refs;
  }

  lemma Regroup(a: Bytes, b: Bytes, c: Bytes, d: Bytes)
    ensures a + b + c + d == a + (b + (c + d))
  {
  }

  method ReadChunksBin(b: Bytes) returns (r: Outcome<seq<ChunkRef>>)
    ensures r == DecodeBin(b)
  {
    if |b| < 8 || b[..8] != SNAP_MAGIC {
      return Err(Other);
    }
    if |b| < 12 || FromBE(b[8..12]) != SNAP_INDEX_VERSION {
      return Err(Other);
    }
    if |b| < 20 {
      return Err(Other);
    }
    r := ReadRefs(b[BIN_HEADER..], FromBE(b[12..20]));
  }

  lemma DecodeMore(b: Bytes, i: nat, at: nat)
    requires at == REF_LEN * i && at + REF_LEN <= |b|
    ensures DecodeRefs(b, i + 1) == DecodeRefs(b, i) + [DecodeRef(b[at..at + REF_LEN])]
  {
  }

  /** The records, one by one; the first that is cut short is an error. */
  method ReadRefs(rest: Bytes, count: nat) returns (r: Outcome<seq<ChunkRef>>)
    ensures r == if |rest| < REF_LEN * count then Err(Other) else Ok(DecodeRefs(rest, count))
  {
    var refs: seq<ChunkRef> := [];
    var i, at := 0, 0;
    while i < count
      invariant i <= count && at == REF_LEN * i <= |rest| && refs == DecodeRefs(rest, i)
    {
      if |rest| < at + 8 || |rest| < at + REF_LEN {
        return Err(Other);
      }
      var ref := ReadRef(rest[at..at + REF_LEN]);
      DecodeMore(rest, i, at);
      refs := refs + [ref];
      i, at := i + 1, at + REF_LEN;
    }
    r := Ok(refs);
  }

  method ReadRef(record: Bytes) returns (r: ChunkRef)
    requires |record| == REF_LEN
    ensures r == DecodeRef(record)
  {
    ToFromBE(record[..8]);
    Widths();
    r := ChunkRef(FromBE(record[..8]), record[8..]);
  }

  lemma RefRoundTrip(r: ChunkRef, b: Bytes)
    requires |b| == REF_LEN
    ensures DecodeRef(b) == r <==> b == EncodeRef(r)
  {
    Widths();
    FromToBE(r.index, 8);
    ToFromBE(b[..8]);
    Concat(b[..8], b[8..], ToBE(r.index, 8), r.hash);
    assert b == b[..8] + b[8..];
  }

  lemma {:induction false} RefsIff(b: Bytes, refs: seq<ChunkRef>)
    requires |b| >= REF_LEN * |refs|
    ensures DecodeRefs(b, |refs|) == refs <==> b[..REF_LEN * |refs|] == EncodeRefs(refs)
  {
    var n := |refs|;
    if n > 0 {
      var init, last := refs[..n - 1], refs[n - 1];
      var lo, hi := REF_LEN * (n - 1), REF_LEN * n;
      RefsIff(b, init);
      TakeMore(b, lo, hi);
      assert refs == init + [last];
      LastRef(b[..lo], b[lo..hi], DecodeRefs(b, n - 1), init, last, EncodeRefs(init));
    }
  }

  lemma TakeMore(b: Bytes, lo: nat, hi: nat)
    requires lo <= hi <= |b|
    ensures b[..hi] == b[..lo] + b[lo..hi]
  {
  }

  lemma LastRef(head: Bytes, piece: Bytes, decoded: seq<ChunkRef>, init: seq<ChunkRef>, last: ChunkRef, encoded: Bytes)
    requires |piece| == REF_LEN && |decoded| == |init| && |encoded| == |head| && (decoded == init <==> head == encoded)
    ensures decoded + [DecodeRef(piece)] == init + [last] <==> head + piece == encoded + EncodeRef(last)
  {
    RefRoundTrip(last, piece);
    Concat(decoded, [DecodeRef(piece)], init, [last]);
    Concat(head, piece, encoded, EncodeRef(last));
  }

  lemma Concat<T>(a: seq<T>, b: seq<T>, c: seq<T>, d: seq<T>)
    requires |a| == |c|
    ensures a + b == c + d <==> a == c && b == d
  {
    if a + b == c + d {
      assert a == (a + b)[..|a|] && c == (c + d)[..|a|];
      assert b == (a + b)[|a|..] && d == (c + d)[|a|..];
    }
  }

  lemma HeaderIff(b: Bytes, count: nat)
    requires |b| == BIN_HEADER && count < U64
    ensures b == Header(count) <==>
            b[..8] == SNAP_MAGIC && FromBE(b[8..12]) == SNAP_INDEX_VERSION && FromBE(b[12..20]) == count
  {
    Widths();
    FromToBE(SNAP_INDEX_VERSION, 4);
    FromToBE(count, 8);
    ToFromBE(b[8..12]);
    ToFromBE(b[12..20]);
    assert b == b[..8] + b[8..12] + b[12..20];
    if b == Header(count) {
      assert b[8..12] == ToBE(SNAP_INDEX_VERSION, 4) && b[12..20] == ToBE(count, 8);
    }
  }

  /** The parts of a file long enough for `n` bytes of records. */
  lemma BinParts(b: Bytes, n: nat)
    requires |b| >= BIN_HEADER + n
    ensures b[..BIN_HEADER][..8] == b[..8] && b[..BIN_HEADER][8..12] == b[8..12] && b[..BIN_HEADER][12..20] == b[12..20]
    ensures b[..BIN_HEADER + n] == b[..BIN_HEADER] + b[BIN_HEADER..][..n]
  {
  }

  lemma BinPrefix(b: Bytes, refs: seq<ChunkRef>)
    requires |b| >= BIN_HEADER + REF_LEN * |refs|
    ensures EncodeBin(refs) <= b <==>
            b[..BIN_HEADER] == Header(|refs|) && b[BIN_HEADER..][..REF_LEN * |refs|] == EncodeRefs(refs)
  {
    var n, e := REF_LEN * |refs|, EncodeBin(refs);
    BinParts(b, n);
    assert e <= b <==> e == b[..BIN_HEADER + n];
    Concat(b[..BIN_HEADER], b[BIN_HEADER..][..n], Header(|refs|), EncodeRefs(refs));
  }

  /** A file reads as a list of references iff it starts with that list's encoding. */
  lemma BinIff(b: Bytes, refs: seq<ChunkRef>)
    requires |refs| < U64
    ensures DecodeBin(b) == Ok(refs) <==> EncodeBin(refs) <= b
  {
    if |b| >= BIN_HEADER + REF_LEN * |refs| {
      BinPrefix(b, refs);
      BinParts(b, REF_LEN * |refs|);
      HeaderIff(b[..BIN_HEADER], |refs|);
      RefsIff(b[BIN_HEADER..], refs);
    }
  }

  lemma BinRoundTrip(refs: seq<ChunkRef>)
    requires |refs| < U64
    ensures DecodeBin(EncodeBin(refs)) == Ok(refs)
  {
    BinIff(EncodeBin(refs), refs);
  }
}
