/** The copy-on-write store is proved for any codec and formats that invert; the repository's do. */
module Deployed {
  import opened Volume
  import opened SnapshotFormat
  import opened CowBucket
  import opened Compression

  function Encode(codecs: Algorithm -> Codec, algo: Algorithm): Bytes -> Bytes {
    (d: Bytes) => var r := EncodeChunk(codecs, algo, d); if r.Ok? then r.value else []
  }

  function Decode(codecs: Algorithm -> Codec, algo: Algorithm, cs: nat): Bytes -> Outcome<Bytes> {
    (s: Bytes) => DecodeChunk(codecs, algo, s, cs)
  }

  /** Framed or plain chunks of less than 2^32 bytes, with the stored formats, are usable. */
  lemma RepositoryUsable(codecs: Algorithm -> Codec, algo: Algorithm, wire: nat, cs: nat, bs: nat, hash: Bytes -> Hash)
    requires cs > 0 && bs > 0 && (algo == Plain || cs < 0x1_0000_0000)
    requires algo != Plain ==> Inverts(codecs(algo)) && forall d {:trigger codecs(algo).compress(d)} :: |d| == cs ==> codecs(algo).compress(d).Ok?
    ensures Usable(Params(cs, bs, wire, hash, Encode(codecs, algo), Decode(codecs, algo, cs), STORED))
  {
    StoredInvert();
    Chunked(codecs, algo, wire, cs, bs, hash);
  }

  lemma Chunked(codecs: Algorithm -> Codec, algo: Algorithm, wire: nat, cs: nat, bs: nat, hash: Bytes -> Hash)
    requires algo == Plain || cs < 0x1_0000_0000
    requires algo != Plain ==> Inverts(codecs(algo)) && forall d {:trigger codecs(algo).compress(d)} :: |d| == cs ==> codecs(algo).compress(d).Ok?
    ensures Codes(Params(cs, bs, wire, hash, Encode(codecs, algo), Decode(codecs, algo, cs), STORED))
  {
    forall d: Bytes | |d| == cs ensures Decode(codecs, algo, cs)(Encode(codecs, algo)(d)) == Ok(d) {
      FrameInverts(codecs, algo, d);
    }
  }
}
