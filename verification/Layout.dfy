/** The stored bytes and names by position: what stands where, digit by digit. */
module Layout {
  import opened Volume
  import opened Numerals
  import opened SnapshotFormat
  import opened Compression

  lemma DivDiv(n: nat, b: nat)
    requires b > 0
    ensures n / 256 / b == n / (256 * b)
  {
    var q, r := n / 256, n % 256;
    var p, t := q / b, q % b;
    assert q == p * b + t;
    assert p * (256 * b) == 256 * (p * b);
    assert n == p * (256 * b) + (256 * t + r);
    DivMod(256 * b, p, 256 * t + r);
  }

  lemma {:induction false} PowPositive(k: nat)
    ensures Pow256(k) > 0
  {
    if k > 0 {
      PowPositive(k - 1);
    }
  }

  /** Most significant byte first: byte `j` of `k` counts multiples of 256 to the power `k - 1 - j`. */
  lemma {:induction false} DigitBE(n: nat, k: nat, j: nat)
    requires j < k
    ensures Pow256(k - 1 - j) > 0 && ToBE(n, k)[j] as nat == n / Pow256(k - 1 - j) % 256
  {
    PowPositive(k - 1 - j);
    if j < k - 1 {
      DigitBE(n / 256, k - 1, j);
      DivDiv(n, Pow256(k - 2 - j));
      assert Pow256(k - 1 - j) == 256 * Pow256(k - 2 - j);
    }
  }

  /** The sixteen lower-case digits. */
  lemma HexDigit(n: nat)
    requires n < 16
    ensures HEX[n] as int == if n < 10 then 0x30 + n else 0x61 + n - 10
  {
  }

  /** Two digits a byte, high half first. */
  lemma {:induction false} HexAt(b: Bytes, j: nat)
    requires j < |b|
    ensures Hex(b)[2 * j] == HEX[b[j] as nat / 16] && Hex(b)[2 * j + 1] == HEX[b[j] as nat % 16]
  {
    if j < |b| - 1 {
      HexAt(b[..|b| - 1], j);
    }
  }

  // ------------------------------------------------------- the frame of a chunk

  /** "ISC3", the algorithm as 1, 2 or 3, a zero, and four bytes of length. */
  lemma FrameBytes(algo: Algorithm, len: nat, j: nat)
    requires algo != Plain && j < 4
    ensures Frame(algo, len)[..4] == [0x49, 0x53, 0x43, 0x33]
    ensures Frame(algo, len)[4] == if algo == Lz4 then 1 else if algo == Zstd then 2 else 3
    ensures Frame(algo, len)[5] == 0
    ensures Pow256(3 - j) > 0 && Frame(algo, len)[6 + j] as nat == len / Pow256(3 - j) % 256
  {
    DigitBE(len, 4, j);
  }

  // ------------------------------------------------------------- pointers

  /** "ISCP", a 1 for the hash function, and the hash. */
  lemma PointerBytes(hash: Hash)
    ensures |EncodePointer(hash)| == 37 && EncodePointer(hash)[..5] == [0x49, 0x53, 0x43, 0x50, 1]
    ensures EncodePointer(hash)[5..] == hash
  {
  }

  // ------------------------------------------------------------ chunks.bin

  /** The twenty bytes before the records: magic, version and count. */
  lemma HeaderBytes(refs: seq<ChunkRef>, j: nat)
    requires j < 8
    ensures |EncodeBin(refs)| == 20 + 40 * |refs| && EncodeBin(refs)[..8] == [0x49, 0x53, 0x43, 0x33, 0x53, 0x4E, 0x41, 0x50]
    ensures EncodeBin(refs)[8..12] == [0, 0, 0, 1]
    ensures Pow256(7 - j) > 0 && EncodeBin(refs)[12 + j] as nat == |refs| / Pow256(7 - j) % 256
  {
    DigitBE(|refs|, 8, j);
    var h := Header(|refs|);
    assert EncodeBin(refs)[..20] == h;
    VersionBytes();
    assert h[8..12] == ToBE(SNAP_INDEX_VERSION, 4) && h[12..20] == ToBE(|refs|, 8);
    assert EncodeBin(refs)[8..12] == h[8..12] && EncodeBin(refs)[12 + j] == h[12..20][j];
  }

  lemma VersionBytes()
    ensures ToBE(SNAP_INDEX_VERSION, 4) == [0, 0, 0, 1]
  {
  }

  /** Record `k` is the forty bytes from 20 + 40 * k on. */
  lemma {:induction false} RecordAt(refs: seq<ChunkRef>, k: nat)
    requires k < |refs|
    ensures EncodeRefs(refs)[REF_LEN * k..REF_LEN * k + REF_LEN] == EncodeRef(refs[k])
  {
    var init := refs[..|refs| - 1];
    if k < |refs| - 1 {
      RecordAt(init, k);
      assert EncodeRefs(refs)[REF_LEN * k..REF_LEN * k + REF_LEN] == EncodeRefs(init)[REF_LEN * k..REF_LEN * k + REF_LEN];
    }
  }

  /** In each record eight bytes of index, most significant first, then the hash. */
  lemma RecordBytes(refs: seq<ChunkRef>, k: nat, j: nat)
    requires k < |refs| && j < 40 && 20 + 40 * k + j < |EncodeBin(refs)|
    ensures j < 8 ==> Pow256(7 - j) > 0 && EncodeBin(refs)[20 + 40 * k + j] as nat == refs[k].index / Pow256(7 - j) % 256
    ensures j >= 8 ==> EncodeBin(refs)[20 + 40 * k + j] == refs[k].hash[j - 8]
  {
    RecordAt(refs, k);
    var all, rec := EncodeRefs(refs), EncodeRef(refs[k]);
    assert EncodeBin(refs)[20 + 40 * k + j] == all[40 * k + j] == all[REF_LEN * k..REF_LEN * k + REF_LEN][j] == rec[j];
    if j < 8 {
      DigitBE(refs[k].index, 8, j);
    }
  }

  // ------------------------------------------------------------------ names

  /** A flat key is sixteen digits, most significant first. */
  lemma FlatKeyDigits(index: Index, j: nat)
    requires j < 8
    ensures Pow256(7 - j) > 0
    ensures FlatKey(index)[2 * j] == HEX[index / Pow256(7 - j) % 256 / 16]
    ensures FlatKey(index)[2 * j + 1] == HEX[index / Pow256(7 - j) % 256 % 16]
  {
    DigitBE(index, 8, j);
    HexAt(ToBE(index, 8), j);
  }

  /** A sharded key starts with its two low digits, then the two above, then the other twelve as in the flat key. */
  lemma ShardKeyDigits(index: Index, i: nat)
    requires i < 12
    ensures var s := ShardKey(index);
            && s[0] == HEX[index % 256 / 16] && s[1] == HEX[index % 256 % 16] && s[2] == '/'
            && s[3] == HEX[index / 256 % 256 / 16] && s[4] == HEX[index / 256 % 256 % 16] && s[5] == '/'
            && s[6 + i] == FlatKey(index)[i]
  {
    FlatKeyDigits(index, 7);
    FlatKeyDigits(index, 6);
    assert Pow256(0) == 1 && Pow256(1) == 256;
  }

  /** An object's name: the digits of its hash, with a slash after the first byte and after the second. */
  lemma ObjectNameDigits(hash: Hash, j: nat)
    requires 2 <= j < 32
    ensures |RelPath(hash)| == 66
    ensures var s := RelPath(hash);
            && s[0] == HEX[hash[0] as nat / 16] && s[1] == HEX[hash[0] as nat % 16] && s[2] == '/'
            && s[3] == HEX[hash[1] as nat / 16] && s[4] == HEX[hash[1] as nat % 16] && s[5] == '/'
            && s[2 * j + 2] == HEX[hash[j] as nat / 16] && s[2 * j + 3] == HEX[hash[j] as nat % 16]
  {
    HexAt(hash, 0);
    HexAt(hash, 1);
    HexAt(hash, j);
  }
}
