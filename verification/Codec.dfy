/** The verified compression container: a 48-byte little-endian header, a checksum of the
    packed payload, and a digest of the raw one.

    The packer, its inverse, the digest and the checksum are functions of their bytes;
    nothing is assumed of them unless a lemma says so. */
module Codec {
  import opened Common

  type Byte = x: int | 0 <= x < 256

  datatype Library = Library(
    pack: seq<Byte> -> seq<Byte>, unpack: seq<Byte> -> Option<seq<Byte>>,
    sha: seq<Byte> -> seq<Byte>, crc: seq<Byte> -> nat)

  datatype Error =
    | EmptyPayload | TooLong | Truncated | BadMagic | CrcMismatch | DecodeFailed | WrongSize | ShaMismatch | NotBitExact

  datatype Result<T> = Ok(value: T) | Err(error: Error)

  const MAGIC: seq<Byte> := [83, 87, 90, 49]
  const HEADER_SIZE: nat := 48

  /** What the digest and checksum produce: 32 bytes and 32 bits. */
  ghost predicate Sized(lib: Library) {
    (forall b :: |lib.sha(b)| == 32) && (forall b :: lib.crc(b) < Power256(4))
  }

  // ---------------------------------------------------------------- little-endian numbers

  function Power256(k: nat): nat { if k == 0 then 1 else 256 * Power256(k - 1) }

  function LittleEndian(n: nat, k: nat): (b: seq<Byte>)
    ensures |b| == k
  {
    if k == 0 then [] else [n % 256] + LittleEndian(n / 256, k - 1)
  }

  function Number(b: seq<Byte>): nat { if b == [] then 0 else b[0] + 256 * Number(b[1..]) }

  lemma {:induction false} NumberOfLittleEndian(n: nat, k: nat)
    requires n < Power256(k)
    ensures Number(LittleEndian(n, k)) == n
  {
    if k > 0 {
      NumberOfLittleEndian(n / 256, k - 1);
      assert LittleEndian(n, k)[1..] == LittleEndian(n / 256, k - 1);
    }
  }

  // ---------------------------------------------------------------- the header

  datatype Header = Header(rawSize: nat, digest: seq<Byte>, crc: nat)

  function PackHeader(h: Header): seq<Byte> {
    MAGIC + LittleEndian(h.rawSize, 8) + h.digest + LittleEndian(h.crc, 4)
  }

  function ParseHeader(blob: seq<Byte>): Result<Header> {
    if |blob| < HEADER_SIZE then Err(Truncated)
    else if blob[..4] != MAGIC then Err(BadMagic)
    else Ok(Header(Number(blob[4..12]), blob[12..44], Number(blob[44..48])))
  }

  lemma ParseOfPack(h: Header, payload: seq<Byte>)
    requires h.rawSize < Power256(8) && |h.digest| == 32 && h.crc < Power256(4)
    ensures ParseHeader(PackHeader(h) + payload) == Ok(h)
    ensures |PackHeader(h)| == HEADER_SIZE && (PackHeader(h) + payload)[HEADER_SIZE..] == payload
  {
    var blob := PackHeader(h) + payload;
    NumberOfLittleEndian(h.rawSize, 8);
    NumberOfLittleEndian(h.crc, 4);
    assert blob[..4] == MAGIC;
    assert blob[4..12] == LittleEndian(h.rawSize, 8);
    assert blob[12..44] == h.digest;
    assert blob[44..48] == LittleEndian(h.crc, 4);
  }

  // ---------------------------------------------------------------- decompress, compress

  function Decompress(lib: Library, blob: seq<Byte>, checkSha: bool): Result<seq<Byte>> {
    var parsed := ParseHeader(blob);
    if parsed.Err? then Err(parsed.error)
    else
      var payload := blob[HEADER_SIZE..];
      if lib.crc(payload) != parsed.value.crc then Err(CrcMismatch)
      else
        var out := lib.unpack(payload);
        if out.None? then Err(DecodeFailed)
        else if |out.value| != parsed.value.rawSize then Err(WrongSize)
        else if checkSha && lib.sha(out.value) != parsed.value.digest then Err(ShaMismatch)
        else Ok(out.value)
  }

  function Container(lib: Library, raw: seq<Byte>): seq<Byte> {
    var blob := lib.pack(raw);
    PackHeader(Header(|raw|, lib.sha(raw), lib.crc(blob))) + blob
  }

  /** Compress, then decode the result afresh and compare digests before returning it. */
  function Compress(lib: Library, raw: seq<Byte>): Result<seq<Byte>> {
    if raw == [] then Err(EmptyPayload)
    else if |raw| >= Power256(8) then Err(TooLong)
    else
      var out := Container(lib, raw);
      var restored := Decompress(lib, out, false);
      if restored.Err? then Err(restored.error)
      else if lib.sha(restored.value) != lib.sha(raw) then Err(NotBitExact)
      else Ok(out)
  }

  function VerifyBlob(lib: Library, blob: seq<Byte>): bool { Decompress(lib, blob, true).Ok? }

  /** What decoding a container comes down to. */
  lemma DecompressOfContainer(lib: Library, raw: seq<Byte>, checkSha: bool)
    requires Sized(lib) && |raw| < Power256(8)
    ensures Decompress(lib, Container(lib, raw), checkSha) ==
      var out := lib.unpack(lib.pack(raw));
      if out.None? then Err(DecodeFailed)
      else if |out.value| != |raw| then Err(WrongSize)
      else if checkSha && lib.sha(out.value) != lib.sha(raw) then Err(ShaMismatch)
      else Ok(out.value)
  {
    hide PackHeader, ParseHeader, Power256;
    ParseOfPack(Header(|raw|, lib.sha(raw), lib.crc(lib.pack(raw))), lib.pack(raw));
  }

  /** What compression accepts decodes, with or without the digest check, to bytes of the same
      length and digest: nothing is assumed of the packer. */
  lemma CompressedDecodes(lib: Library, raw: seq<Byte>, checkSha: bool)
    requires Sized(lib) && Compress(lib, raw).Ok?
    ensures var restored := Decompress(lib, Compress(lib, raw).value, checkSha);
      restored.Ok? && lib.sha(restored.value) == lib.sha(raw) && |restored.value| == |raw|
    ensures VerifyBlob(lib, Compress(lib, raw).value)
  {
    hide Power256, Container;
    DecompressOfContainer(lib, raw, false);
    DecompressOfContainer(lib, raw, true);
  }

  /** The digest tells `raw` from what the packer makes of it: whatever unpacking the packed
      bytes gives is `raw` itself or has another digest. */
  ghost predicate Restores(lib: Library, raw: seq<Byte>) {
    var out := lib.unpack(lib.pack(raw));
    out.Some? && lib.sha(out.value) == lib.sha(raw) ==> out.value == raw
  }

  /** Round trip, resting on the digest alone: the packer may fail on `raw` or distort it. */
  lemma RoundTrip(lib: Library, raw: seq<Byte>, checkSha: bool)
    requires Sized(lib) && Restores(lib, raw) && Compress(lib, raw).Ok?
    ensures Decompress(lib, Compress(lib, raw).value, checkSha) == Ok(raw)
  {
    hide Power256, Container;
    DecompressOfContainer(lib, raw, false);
    DecompressOfContainer(lib, raw, true);
  }

  /** Compression succeeds exactly on the non-empty payloads, of fewer than 2^64 bytes, that
      the packer itself restores. */
  lemma CompressSucceedsWhen(lib: Library, raw: seq<Byte>)
    requires Sized(lib) && Restores(lib, raw)
    ensures Compress(lib, raw).Ok? <==> raw != [] && |raw| < Power256(8) && lib.unpack(lib.pack(raw)) == Some(raw)
  {
    hide Container, Power256;
    if |raw| < Power256(8) { DecompressOfContainer(lib, raw, false); }
  }

  /** A payload altered after packing decodes only if the checksum collides; with the digest
      check it decodes only to the original bytes or to ones that share their digest. */
  lemma AlteredPayload(lib: Library, raw: seq<Byte>, payload: seq<Byte>, checkSha: bool)
    requires Sized(lib) && Compress(lib, raw).Ok?
    ensures var altered := PackHeader(Header(|raw|, lib.sha(raw), lib.crc(lib.pack(raw)))) + payload;
      var r := Decompress(lib, altered, checkSha);
      && (r.Ok? ==>
          lib.unpack(payload) == Some(r.value) && lib.crc(payload) == lib.crc(lib.pack(raw)) && |r.value| == |raw|)
      && (lib.crc(payload) != lib.crc(lib.pack(raw)) ==> r == Err(CrcMismatch))
      && (r.Ok? && checkSha ==> lib.sha(r.value) == lib.sha(raw))
      && (r.Ok? && checkSha
          && (lib.sha(lib.unpack(payload).value) == lib.sha(raw) ==> lib.unpack(payload).value == raw)
          ==> r.value == raw)
  {
    hide PackHeader, ParseHeader, Power256;
    ParseOfPack(Header(|raw|, lib.sha(raw), lib.crc(lib.pack(raw))), payload);
  }

  // ---------------------------------------------------------------- libraries that meet the hypotheses

  /** Packing that changes nothing, with a digest and a checksum that tell nothing apart. */
  function Stored(): Library {
    Library(b => b, b => Some(b), b => seq(32, _ => 0), b => 0)
  }

  /** The hypotheses above can be met, for every payload at once, and then compression
      accepts every non-empty payload below 2^64 bytes. */
  lemma StoredRestores(raw: seq<Byte>)
    ensures Sized(Stored()) && Restores(Stored(), raw)
    ensures Compress(Stored(), raw).Ok? <==> raw != [] && |raw| < Power256(8)
  {
    hide Compress;
    assert Sized(Stored()) by { assert Power256(4) > 0; }
    CompressSucceedsWhen(Stored(), raw);
  }

  /** A packer that returns zeros, under the same digest. */
  function Zeroing(): Library { Stored().(unpack := b => Some(seq(|b|, _ => 0))) }

  /** Without `Restores` the round trip does fail. */
  lemma DigestIsNeeded(checkSha: bool)
    ensures var lib := Zeroing();
      Sized(lib) && !Restores(lib, [1])
      && Compress(lib, [1]).Ok? && Decompress(lib, Compress(lib, [1]).value, checkSha) == Ok([0])
  {
    hide PackHeader, ParseHeader, Power256, Container;
    var lib := Zeroing();
    PowersArePositive();
    assert Sized(lib);
    assert lib.unpack(lib.pack([1])).value == [0];
    DecompressOfContainer(lib, [1], false);
    DecompressOfContainer(lib, [1], checkSha);
  }

  lemma PowersArePositive()
    ensures Power256(4) > 0 && Power256(8) > 1
  {}
}
