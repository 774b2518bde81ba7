/**
 * The windows a file is cut into, their encryption and their decryption in
 * arrival order (client/src/webrtc/fileTransfer.js, with the framing of
 * client/src/crypto/encryption.js).
 *
 * The sender encrypts each window on its own and sends it as one binary
 * payload; the receiver decrypts the payloads in the order they arrived and
 * concatenates the results.
 */
module Chunking {
  import opened Base
  import opened Encryption
  import opened Transport

  const ChunkSize: nat := 16384
  const TurboChunkSize: nat := 65536

  /** `currentChunkSize`, fixed once per sendFile call. */
  function ChunkSizeFor(turbo: bool): (cs: nat)
    ensures cs == (if turbo then 65536 else 16384)
  {
    if turbo then TurboChunkSize else ChunkSize
  }

  /** One onProgress report, of the sender or of the receiver; the percentage is transferred / total, speed and time left are not modelled. */
  datatype Progress = Progress(transferred: nat, total: nat, paused: bool)

  /** The browser File being sent; its `size` is the length of its bytes. */
  datatype File = File(name: string, mimeType: string, data: Bytes)

  /**
   * The `encryptFile` callback. It draws a fresh IV on every call; the draw
   * is modelled as a function of the offset the chunk was read at, which is
   * different for every call within one transfer.
   */
  type ChunkEncryptor = (Bytes, nat) -> Bytes

  /** `decryptChunk`; None is a rejected promise. */
  type ChunkDecryptor = Bytes -> Option<Bytes>

  // ---------------------------------------------------------------------
  // Chunking
  // ---------------------------------------------------------------------

  /** readChunk(offset, size): `file.slice(offset, offset + size)`, which clamps at the end. */
  function ReadChunk(data: Bytes, offset: nat, size: nat): (chunk: Bytes)
    ensures offset <= |data| ==> |chunk| == Min(size, |data| - offset)
    ensures offset <= |data| ==> chunk == data[offset..offset + |chunk|]
  {
    data[Min(offset, |data|)..Min(offset + size, |data|)]
  }

  /** The windows a sender with chunk size `cs` cuts `d` into, in order. */
  function Chunks(d: Bytes, cs: nat): seq<Bytes>
    requires cs > 0
    decreases |d|
  {
    if d == [] then [] else [d[..Min(cs, |d|)]] + Chunks(d[Min(cs, |d|)..], cs)
  }

  /** Concatenating the windows gives the bytes back. */
  lemma {:induction false} ChunksFlatten(d: Bytes, cs: nat)
    requires cs > 0
    ensures Flatten(Chunks(d, cs)) == d
    decreases |d|
  {
    if d != [] {
      var k := Min(cs, |d|);
      ChunksFlatten(d[k..], cs);
      assert d[..k] + d[k..] == d;
    }
  }

  lemma MulGrows(a: int, cs: int)
    requires a >= 1 && cs > 0
    ensures a * cs >= cs
  {
    assert a * cs == (a - 1) * cs + cs;
  }

  /** Euclidean division is determined by quotient and remainder. */
  lemma DivUnique(x: int, cs: int, q: int, r: int)
    requires cs > 0 && x == q * cs + r && 0 <= r < cs
    ensures x / cs == q
  {
    var q' := x / cs;
    var r' := x % cs;
    assert x == q' * cs + r';
    if q' < q {
      assert (q - q') * cs == q * cs - q' * cs;
      MulGrows(q - q', cs);
    } else if q' > q {
      assert (q' - q) * cs == q' * cs - q * cs;
      MulGrows(q' - q, cs);
    }
  }

  /** Ceiling division: one for at most a window. */
  lemma CeilOne(m: nat, cs: nat)
    requires 0 < m <= cs
    ensures (m + cs - 1) / cs == 1
  {
    DivUnique(m + cs - 1, cs, 1, m - 1);
  }

  /** Ceiling division: one more per extra window. */
  lemma CeilStep(m: nat, cs: nat)
    requires 0 < cs < m
    ensures (m + cs - 1) / cs == (m - 1) / cs + 1
  {
    var y := m - 1;
    var q := y / cs;
    var r := y % cs;
    assert y == q * cs + r;
    assert (q + 1) * cs == q * cs + cs;
    DivUnique(y + cs, cs, q + 1, r);
  }

  /** A non-empty file takes at least one window. */
  lemma CeilPositive(m: nat, cs: nat)
    requires 0 < m && 0 < cs
    ensures (m + cs - 1) / cs >= 1
  {
    if m <= cs {
      CeilOne(m, cs);
    } else {
      CeilStep(m, cs);
    }
  }

  /** A file of size n is sent in ceil(n / cs) windows (none for an empty file). */
  lemma {:induction false} ChunksCount(d: Bytes, cs: nat)
    requires cs > 0
    ensures |Chunks(d, cs)| == (|d| + cs - 1) / cs
    decreases |d|
  {
    if d == [] {
      DivUnique(cs - 1, cs, 0, cs - 1);
    } else if |d| <= cs {
      CeilOne(|d|, cs);
      assert d[|d|..] == [];
    } else {
      ChunksCount(d[cs..], cs);
      CeilStep(|d|, cs);
    }
  }

  /** Window i is the read of one chunk size at offset i * cs, so it has length min(cs, n - i * cs). */
  lemma {:induction false} ChunkAt(d: Bytes, cs: nat, i: nat)
    requires cs > 0 && i < |Chunks(d, cs)|
    ensures i * cs < |d|
    ensures Chunks(d, cs)[i] == ReadChunk(d, i * cs, cs)
    ensures |Chunks(d, cs)[i]| == Min(cs, |d| - i * cs)
    decreases |d|
  {
    var k := Min(cs, |d|);
    if i > 0 {
      var rest := d[k..];
      assert Chunks(d, cs)[i] == Chunks(rest, cs)[i - 1];
      assert k == cs;
      ChunkAt(rest, cs, i - 1);
      ShiftRead(d, cs, i - 1);
    }
  }

  /** Reading one window further into the file after dropping its first window. */
  lemma ShiftRead(d: Bytes, cs: nat, j: nat)
    requires 0 < cs <= |d| && j * cs < |d| - cs
    ensures (j + 1) * cs == j * cs + cs
    ensures ReadChunk(d[cs..], j * cs, cs) == ReadChunk(d, (j + 1) * cs, cs)
  {
    var o := j * cs;
    assert (j + 1) * cs == o + cs;
    var m := Min(cs, |d| - cs - o);
    assert ReadChunk(d[cs..], o, cs) == d[cs..][o..o + m];
    assert d[cs..][o..o + m] == d[o + cs..o + cs + m];
  }

  /** Every window is non-empty. */
  lemma {:induction false} ChunksNonEmpty(d: Bytes, cs: nat, i: nat)
    requires cs > 0 && i < |Chunks(d, cs)|
    ensures |Chunks(d, cs)[i]| > 0
  {
    ChunkAt(d, cs, i);
  }

  /** x is a whole number of windows of size cs. */
  predicate Multiple(x: int, cs: int)
    requires cs > 0
    decreases x
  {
    x == 0 || (x >= cs && Multiple(x - cs, cs))
  }

  lemma {:induction false} MultipleAdd(x: int, y: int, cs: int)
    requires cs > 0 && Multiple(x, cs) && Multiple(y, cs)
    ensures Multiple(x + y, cs)
    decreases x
  {
    if x != 0 {
      MultipleAdd(x - cs, y, cs);
      assert x + y - cs == (x - cs) + y;
    } else {
      assert x + y == y;
    }
  }

  /** Cutting a prefix that is a whole number of windows commutes with concatenation. */
  lemma {:induction false} ChunksAppend(a: Bytes, b: Bytes, cs: nat)
    requires cs > 0 && Multiple(|a|, cs)
    ensures Chunks(a + b, cs) == Chunks(a, cs) + Chunks(b, cs)
    decreases |a|
  {
    if a == [] {
      assert a + b == b;
    } else {
      assert (a + b)[..cs] == a[..cs];
      assert (a + b)[cs..] == a[cs..] + b;
      ChunksAppend(a[cs..], b, cs);
    }
  }

  // ---------------------------------------------------------------------
  // Encryption of the windows, and decryption in arrival order
  // ---------------------------------------------------------------------

  /** The wire chunks for `chunks` read from offset `at` on: chunk i is encrypted with the draw at its own offset. */
  function Seal(chunks: seq<Bytes>, at: nat, enc: ChunkEncryptor): (wire: seq<Bytes>)
    ensures |wire| == |chunks|
  {
    if chunks == [] then [] else [enc(chunks[0], at)] + Seal(chunks[1..], at + |chunks[0]|, enc)
  }

  lemma {:induction false} SealAppend(a: seq<Bytes>, b: seq<Bytes>, at: nat, enc: ChunkEncryptor)
    ensures Seal(a + b, at, enc) == Seal(a, at, enc) + Seal(b, at + TotalLength(a), enc)
  {
    if a == [] {
      assert a + b == b;
    } else {
      assert (a + b)[1..] == a[1..] + b;
      SealAppend(a[1..], b, at + |a[0]|, enc);
    }
  }

  /** The `encryptFile` the send page passes: encryptChunk of one key, with the IV drawn for the offset. */
  function Sealer(u: EncryptionUtils, ivs: nat -> Iv): ChunkEncryptor
  {
    (p: Bytes, at: nat) => u.EncryptChunk(ivs(at), p)
  }

  function Opener(u: EncryptionUtils): ChunkDecryptor
  {
    (c: Bytes) => u.DecryptChunk(c)
  }

  /** The `for ... of this.chunks` loop of assembleFile: decrypt each chunk in order; any rejection aborts. */
  function DecryptAll(parts: seq<Bytes>, dec: ChunkDecryptor): (r: Option<seq<Bytes>>)
    ensures r.Some? ==> |r.value| == |parts|
  {
    if parts == [] then Some([])
    else match dec(parts[0])
      case None => None
      case Some(p) =>
        match DecryptAll(parts[1..], dec)
        case None => None
        case Some(rest) => Some([p] + rest)
  }

  lemma {:induction false} DecryptAllSnoc(parts: seq<Bytes>, c: Bytes, dec: ChunkDecryptor)
    ensures DecryptAll(parts + [c], dec) ==
      match DecryptAll(parts, dec)
      case None => None
      case Some(ps) => (match dec(c) case None => None case Some(p) => Some(ps + [p]))
  {
    if parts == [] {
      assert parts + [c] == [c];
      assert [c][1..] == [];
      match dec(c)
      case None =>
      case Some(p) =>
        assert [p] + [] == [] + [p];
    } else {
      assert (parts + [c])[0] == parts[0];
      assert (parts + [c])[1..] == parts[1..] + [c];
      DecryptAllSnoc(parts[1..], c, dec);
      match dec(parts[0])
      case None =>
      case Some(p0) =>
        match DecryptAll(parts[1..], dec)
        case None =>
        case Some(rest) =>
          match dec(c)
          case None =>
          case Some(p) =>
            assert [p0] + (rest + [p]) == ([p0] + rest) + [p];
    }
  }

  /** One rejected chunk rejects the whole decryption, whatever follows it. */
  lemma {:induction false} DecryptAllRejected(a: seq<Bytes>, b: seq<Bytes>, dec: ChunkDecryptor)
    requires DecryptAll(a, dec) == None
    ensures DecryptAll(a + b, dec) == None
  {
    if a != [] {
      assert (a + b)[0] == a[0];
      assert (a + b)[1..] == a[1..] + b;
      match dec(a[0])
      case None =>
      case Some(_) =>
        DecryptAllRejected(a[1..], b, dec);
    }
  }

  /** Decrypting, in order, the wire chunks sealed under one key gives back the plaintext windows. */
  lemma {:induction false} OpenSealed(u: EncryptionUtils, ivs: nat -> Iv, chunks: seq<Bytes>, at: nat)
    requires RoundTrips(u.cipher)
    ensures DecryptAll(Seal(chunks, at, Sealer(u, ivs)), Opener(u)) == Some(chunks)
  {
    if chunks != [] {
      var wire := Seal(chunks, at, Sealer(u, ivs));
      DecryptEncrypt(u.cipher, u.key, ivs(at), chunks[0]);
      assert wire[0] == u.EncryptChunk(ivs(at), chunks[0]);
      assert Opener(u)(wire[0]) == Some(chunks[0]);
      assert wire[1..] == Seal(chunks[1..], at + |chunks[0]|, Sealer(u, ivs));
      OpenSealed(u, ivs, chunks[1..], at + |chunks[0]|);
      assert [chunks[0]] + chunks[1..] == chunks;
    }
  }

  /** Reassembly yields the original bytes: decrypt every wire chunk of the file in order and concatenate. */
  lemma ReassemblyRoundTrip(u: EncryptionUtils, ivs: nat -> Iv, data: Bytes, cs: nat)
    requires RoundTrips(u.cipher) && cs > 0
    ensures DecryptAll(Seal(Chunks(data, cs), 0, Sealer(u, ivs)), Opener(u)) == Some(Chunks(data, cs))
    ensures Flatten(Chunks(data, cs)) == data
  {
    OpenSealed(u, ivs, Chunks(data, cs), 0);
    ChunksFlatten(data, cs);
  }

  /** Under AES-GCM framing every wire chunk is 28 bytes longer than its window. */
  lemma {:induction false} SealedLength(u: EncryptionUtils, ivs: nat -> Iv, chunks: seq<Bytes>, at: nat)
    requires AppendsTag(u.cipher)
    ensures TotalLength(Seal(chunks, at, Sealer(u, ivs))) == TotalLength(chunks) + (IvLength + TagLength) * |chunks|
  {
    if chunks != [] {
      var wire := Seal(chunks, at, Sealer(u, ivs));
      EncryptLength(u.cipher, u.key, ivs(at), chunks[0]);
      assert wire[1..] == Seal(chunks[1..], at + |chunks[0]|, Sealer(u, ivs));
      SealedLength(u, ivs, chunks[1..], at + |chunks[0]|);
    }
  }

  /** The bytes a receiver counts for a whole file: its size plus 28 per chunk, not its size. */
  lemma WireBytes(u: EncryptionUtils, ivs: nat -> Iv, data: Bytes, cs: nat)
    requires AppendsTag(u.cipher) && cs > 0
    ensures TotalLength(Seal(Chunks(data, cs), 0, Sealer(u, ivs))) == |data| + 28 * ((|data| + cs - 1) / cs)
  {
    SealedLength(u, ivs, Chunks(data, cs), 0);
    ChunksFlatten(data, cs);
    TotalLengthIsFlattenLength(Chunks(data, cs));
    ChunksCount(data, cs);
  }
}
