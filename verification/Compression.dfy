/** The frame around a stored chunk, over codecs that are left abstract. */
module Compression {
  import opened Volume
  import opened Numerals

  datatype Algorithm = Plain | Lz4 | Zstd | Deflate

  /** A codec may refuse an input; `decompress` is told the length to expect. */
  datatype Codec = Codec(compress: Bytes -> Outcome<Bytes>, decompress: (Bytes, nat) -> Outcome<Bytes>)

  ghost predicate Inverts(codec: Codec) {
    forall p {:trigger codec.compress(p)} :: codec.compress(p).Ok? ==> codec.decompress(codec.compress(p).value, |p|) == Ok(p)
  }

  /** "ISC3" */
  const MAGIC: Bytes := [0x49, 0x53, 0x43, 0x33]
  const HEADER_LEN: nat := 10

  function WireId(algo: Algorithm): Byte
    requires algo != Plain
  {
    match algo
    case Lz4 => 1
    case Zstd => 2
    case Deflate => 3
  }

  function FromWireId(id: Byte): Outcome<Algorithm> {
    if id == 1 then Ok(Lz4) else if id == 2 then Ok(Zstd) else if id == 3 then Ok(Deflate) else Err(Other)
  }

  /** Magic, algorithm, flags and the plain length cut to 32 bits. */
  function Frame(algo: Algorithm, len: nat): (b: Bytes)
    requires algo != Plain
    ensures |b| == HEADER_LEN
  {
    MAGIC + [WireId(algo)] + [0] + ToBE(len, 4)
  }

  function EncodeChunk(codecs: Algorithm -> Codec, algo: Algorithm, plain: Bytes): Outcome<Bytes> {
    if algo == Plain then Ok(plain) else
    var c := codecs(algo).compress(plain);
    if c.Err? then c else Ok(Frame(algo, |plain|) + c.value)
  }

  function DecodeChunk(codecs: Algorithm -> Codec, algo: Algorithm, stored: Bytes, expected: nat): (r: Outcome<Bytes>)
    ensures r.Ok? ==> |r.value| == expected
  {
    if algo == Plain then (if |stored| != expected then Err(S3Error) else Ok(stored))
    else if |stored| < HEADER_LEN || stored[..4] != MAGIC then Err(S3Error)
    else
      var wire := FromWireId(stored[4]);
      if wire.Err? then Err(wire.error)
      else if wire.value != algo || FromBE(stored[6..10]) != expected then Err(S3Error)
      else
        var p := codecs(algo).decompress(stored[HEADER_LEN..], expected);
        if p.Err? then p else if |p.value| != expected then Err(S3Error) else p
  }

  lemma FrameParts(algo: Algorithm, len: nat, rest: Bytes)
    requires algo != Plain
    ensures var b := Frame(algo, len) + rest;
            && b[..4] == MAGIC && b[4] == WireId(algo) && b[6..10] == ToBE(len, 4) && b[HEADER_LEN..] == rest
            && FromWireId(b[4]) == Ok(algo)
    ensures FromBE(ToBE(len, 4)) == len <==> len < 0x1_0000_0000
  {
    var b, f := Frame(algo, len) + rest, Frame(algo, len);
    assert f[6..10] == ToBE(len, 4);
    assert b[6..10] == f[6..10] && b[..4] == f[..4];
    Widths();
    ToFromBE(ToBE(len, 4));
    if len < 0x1_0000_0000 {
      FromToBE(len, 4);
    }
  }

  /** A stored chunk reads back iff it is unframed or its length fits the frame's 32 bits. */
  lemma FrameInverts(codecs: Algorithm -> Codec, algo: Algorithm, plain: Bytes)
    requires algo != Plain ==> Inverts(codecs(algo))
    requires EncodeChunk(codecs, algo, plain).Ok?
    ensures DecodeChunk(codecs, algo, EncodeChunk(codecs, algo, plain).value, |plain|) == Ok(plain)
            <==> algo == Plain || |plain| < 0x1_0000_0000
  {
    if algo != Plain {
      FrameParts(algo, |plain|, codecs(algo).compress(plain).value);
    }
  }

  /**
   A framed body reads as `plain` iff it is the magic, the algorithm's id, one byte of flags,
   the length asked for in 32 bits, and what the codec expands to `plain`.
   */
  lemma DecodesIff(codecs: Algorithm -> Codec, algo: Algorithm, stored: Bytes, expected: nat, plain: Bytes)
    requires algo != Plain
    ensures DecodeChunk(codecs, algo, stored, expected) == Ok(plain) <==>
            && |stored| >= 10 && |plain| == expected < 0x1_0000_0000
            && stored[..10] == [0x49, 0x53, 0x43, 0x33, WireId(algo), stored[5]] + ToBE(expected, 4)
            && codecs(algo).decompress(stored[10..], expected) == Ok(plain)
  {
    if |stored| >= 10 {
      var head := [0x49, 0x53, 0x43, 0x33, WireId(algo), stored[5]] + ToBE(expected, 4);
      assert head[..4] == MAGIC && head[6..10] == ToBE(expected, 4);
      assert stored[..10][..4] == stored[..4] && stored[..10][6..10] == stored[6..10];
      Widths();
      ToFromBE(stored[6..10]);
      if expected < 0x1_0000_0000 {
        FromToBE(expected, 4);
      }
      if stored[..4] == MAGIC && stored[4] == WireId(algo) && stored[6..10] == ToBE(expected, 4) {
        assert stored[..10] == stored[..4] + [stored[4], stored[5]] + stored[6..10];
      }
    }
  }

  /** A framed chunk is refused by a volume set to any other framing algorithm, whatever it expects. */
  lemma OtherAlgorithmRefused(codecs: Algorithm -> Codec, algo: Algorithm, other: Algorithm, plain: Bytes, expected: nat)
    requires algo != Plain && other != Plain && other != algo && EncodeChunk(codecs, algo, plain).Ok?
    ensures DecodeChunk(codecs, other, EncodeChunk(codecs, algo, plain).value, expected).Err?
  {
    FrameParts(algo, |plain|, codecs(algo).compress(plain).value);
  }
}
