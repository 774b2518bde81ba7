/**
 * End-to-end chunk encryption (client/src/crypto/encryption.js).
 *
 * AES-GCM itself is abstract: a `Cipher` is a pair of total functions,
 * `seal(key, iv, plaintext)` and `open(key, iv, ciphertext)`, the latter
 * answering None when authentication fails. What the model fixes is the
 * framing around it: a fresh 12-byte IV is put in front of the ciphertext,
 * and decryption takes the first 12 bytes back off as the IV.
 */
module Encryption {
  import opened Base

  /** Length of the IV drawn for each encryption, the 96-bit IV of NIST SP 800-38D, section 5.2.1.1. */
  const IvLength: nat := 12

  /** Length of the authentication tag Web Crypto appends to an AES-GCM ciphertext by default. */
  const TagLength: nat := 16

  type Iv = s: Bytes | |s| == IvLength witness [0, 0, 0, 0, 0, 0, 0, 0, 0, 0, 0, 0]

  /** A key in its exported, raw form (the byte array carried in the metadata message). */
  type Key = Bytes

  datatype Cipher = Cipher(seal: (Key, Bytes, Bytes) -> Bytes, open: (Key, Bytes, Bytes) -> Option<Bytes>)

  /** The AEAD property the model relies on: opening with the same key and IV gives back the plaintext. */
  ghost predicate RoundTrips(c: Cipher)
  {
    forall k: Key, iv: Bytes, p: Bytes {:trigger c.seal(k, iv, p)} ::
      |iv| == IvLength ==> c.open(k, iv, c.seal(k, iv, p)) == Some(p)
  }

  /** The ciphertext is the plaintext's length plus the 16-byte tag. */
  ghost predicate AppendsTag(c: Cipher)
  {
    forall k: Key, iv: Bytes, p: Bytes {:trigger c.seal(k, iv, p)} ::
      |c.seal(k, iv, p)| == |p| + TagLength
  }

  /** The buffer `encrypt` returns: the IV at offset 0, the ciphertext after it. */
  function Combine(iv: Bytes, ciphertext: Bytes): (combined: Bytes)
    ensures |combined| == |iv| + |ciphertext|
  {
    iv + ciphertext
  }

  /**
   * `data.slice(0, 12)` and `data.slice(12)`: slices clamp, so input shorter
   * than an IV gives a short IV and an empty ciphertext.
   */
  function SplitIv(data: Bytes): (parts: (Bytes, Bytes))
    ensures parts.0 + parts.1 == data
    ensures |data| >= IvLength ==> |parts.0| == IvLength
    ensures |data| < IvLength ==> parts.1 == []
  {
    var n := Min(IvLength, |data|);
    (data[..n], data[n..])
  }

  /** encrypt(data, key) with the IV the random source drew for this call. */
  function Encrypt(c: Cipher, key: Key, iv: Iv, data: Bytes): (wire: Bytes)
    ensures |wire| == IvLength + |c.seal(key, iv, data)|
    ensures wire[..IvLength] == iv
    ensures wire[IvLength..] == c.seal(key, iv, data)
  {
    Combine(iv, c.seal(key, iv, data))
  }

  /** decrypt(encryptedData, key); None stands for the rejected promise of a failed authentication. */
  function Decrypt(c: Cipher, key: Key, data: Bytes): Option<Bytes>
  {
    var (iv, ciphertext) := SplitIv(data);
    c.open(key, iv, ciphertext)
  }

  /** Framing round trip: splitting a combined buffer at 12 gives back the IV and the ciphertext. */
  lemma SplitCombine(iv: Bytes, ciphertext: Bytes)
    requires |iv| == IvLength
    ensures SplitIv(Combine(iv, ciphertext)) == (iv, ciphertext)
  {
    var data := Combine(iv, ciphertext);
    assert data[..IvLength] == iv;
    assert data[IvLength..] == ciphertext;
  }

  /** Decrypting what Encrypt produced under the same key gives the plaintext back. */
  lemma DecryptEncrypt(c: Cipher, key: Key, iv: Iv, data: Bytes)
    requires RoundTrips(c)
    ensures Decrypt(c, key, Encrypt(c, key, iv, data)) == Some(data)
  {
    SplitCombine(iv, c.seal(key, iv, data));
  }

  /** Under an AES-GCM-shaped cipher a wire chunk is 28 bytes longer than its plaintext. */
  lemma EncryptLength(c: Cipher, key: Key, iv: Iv, data: Bytes)
    requires AppendsTag(c)
    ensures |Encrypt(c, key, iv, data)| == |data| + IvLength + TagLength
  {
    assert |c.seal(key, iv, data)| == |data| + TagLength;
  }

  /** The pair of closures createEncryptionUtils(key) returns; both capture the same key. */
  datatype EncryptionUtils = EncryptionUtils(cipher: Cipher, key: Key)
  {
    function EncryptChunk(iv: Iv, chunk: Bytes): Bytes
    {
      Encrypt(cipher, key, iv, chunk)
    }

    function DecryptChunk(chunk: Bytes): Option<Bytes>
    {
      Decrypt(cipher, key, chunk)
    }
  }

  function CreateEncryptionUtils(c: Cipher, key: Key): (u: EncryptionUtils)
    ensures u.cipher == c && u.key == key
  {
    EncryptionUtils(c, key)
  }

  /** decryptChunk(encryptChunk(x)) == x for the utilities built from one key. */
  lemma UtilsRoundTrip(c: Cipher, key: Key, iv: Iv, chunk: Bytes)
    requires RoundTrips(c)
    ensures var u := CreateEncryptionUtils(c, key); u.DecryptChunk(u.EncryptChunk(iv, chunk)) == Some(chunk)
  {
    DecryptEncrypt(c, key, iv, chunk);
  }
}
