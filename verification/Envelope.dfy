/** Sealing and opening the at-rest envelope (wb_atrest.py, `seal`, `open_envelope`, `_gcm_open`, `aad`). */
module Envelope {
  import opened Gf128
  import opened Gcm

  datatype Result<+T> = Ok(value: T) | Err(error: OpenError)

  /** `Overflow` is Python's own error when a length does not fit its bytes. */
  datatype OpenError = UnknownFraming | KeyIdMismatch | BadTag | Overflow

  datatype Framing = File | Field | Record | Stream | Unknown

  /** The three decoded parts, and what the header names; an absent key id is empty. */
  datatype Sealed = Sealed(suite: int, keyId: Bytes, nonce: Bytes, tag: Bytes, ciphertext: Bytes)

  const SUITE: nat := 1

  // ---------------------------------------------------------------- authenticated encryption

  function HashKey(aes: Cipher): Block {
    BlockOf(aes(ZeroBytes(16)))
  }

  /** Section 7.1, step 2: the pre-counter block. */
  function J0(aes: Cipher, nonce: Bytes): Bytes16 {
    if |nonce| == 12 then nonce + ToBytes(NatBits(1, 32)) else ToBytes(GhashOf(HashKey(aes), [], nonce))
  }

  function TagOf(aes: Cipher, nonce: Bytes, aad: Bytes, ciphertext: Bytes): Bytes16 {
    ToBytes(Xor(BlockOf(aes(J0(aes, nonce))), GhashOf(HashKey(aes), aad, ciphertext)))
  }

  predicate SizesFit(nonce: Bytes, aad: Bytes, data: Bytes) {
    (|nonce| == 12 || LengthFits(nonce)) && LengthFits(aad) && LengthFits(data)
  }

  /** The ciphertext and the tag. */
  function GcmSeal(aes: Cipher, nonce: Bytes, aad: Bytes, plaintext: Bytes): (Bytes, Bytes) {
    var ciphertext := GctrOf(aes, J0(aes, nonce), plaintext);
    (ciphertext, TagOf(aes, nonce, aad, ciphertext))
  }

  function GcmOpenOf(aes: Cipher, nonce: Bytes, aad: Bytes, ciphertext: Bytes, tag: Bytes): Result<Bytes> {
    if !SizesFit(nonce, aad, ciphertext) then Err(Overflow)
    else if TagOf(aes, nonce, aad, ciphertext) != tag then Err(BadTag)
    else Ok(GctrOf(aes, J0(aes, nonce), ciphertext))
  }

  method ComputeJ0(aes: Cipher, nonce: Bytes) returns (j0: Bytes16)
    requires |nonce| == 12 || LengthFits(nonce)
    ensures j0 == J0(aes, nonce)
  {
    if |nonce| == 12 {
      return nonce + ToBytes(NatBits(1, 32));
    }
    var hash := Ghash(HashKey(aes), [], nonce);
    j0 := ToBytes(hash);
  }

  method GcmOpen(aes: Cipher, nonce: Bytes, aad: Bytes, ciphertext: Bytes, tag: Bytes) returns (r: Result<Bytes>)
    ensures r == GcmOpenOf(aes, nonce, aad, ciphertext, tag)
  {
    if !SizesFit(nonce, aad, ciphertext) {
      return Err(Overflow);
    }
    var j0 := ComputeJ0(aes, nonce);
    var hash := Ghash(HashKey(aes), aad, ciphertext);
    if ToBytes(Xor(BlockOf(aes(j0)), hash)) != tag {
      return Err(BadTag);
    }
    var plaintext := Gctr(aes, j0, ciphertext);
    return Ok(plaintext);
  }

  /** Opening yields p exactly when (ciphertext, tag) is what sealing p yields: nothing else opens. */
  lemma OpensOnlyWhatWasSealed(aes: Cipher, nonce: Bytes, aad: Bytes, ciphertext: Bytes, tag: Bytes, plaintext: Bytes)
    requires SizesFit(nonce, aad, ciphertext)
    ensures GcmOpenOf(aes, nonce, aad, ciphertext, tag) == Ok(plaintext) <==> GcmSeal(aes, nonce, aad, plaintext) == (ciphertext, tag)
  {
    GctrInvolution(aes, J0(aes, nonce), plaintext);
    GctrInvolution(aes, J0(aes, nonce), ciphertext);
  }

  /** Section 7.1: for a nonce of any other length J0 is the GHASH of the padded nonce and its length. */
  lemma J0MatchesNist(aes: Cipher, nonce: Bytes)
    requires |nonce| != 12
    ensures var s := PadBits(8 * |nonce|);
            var x := Bits(nonce) + Zeros(s + 64) + NatBits(8 * |nonce|, 64);
            |x| % 128 == 0 && Bits(J0(aes, nonce)) == NistGhash(HashKey(aes), Zero(), x)
  {
    GhashMatchesNist(HashKey(aes), [], nonce);
    BitsOfToBytes(GhashOf(HashKey(aes), [], nonce));
    var s := PadBits(8 * |nonce|);
    ZeroNat(64);
    PadNone();
    assert Bits([]) + Zeros(PadBits(0)) + (Bits(nonce) + Zeros(s)) + (NatBits(0, 64) + NatBits(8 * |nonce|, 64))
        == Bits(nonce) + Zeros(s + 64) + NatBits(8 * |nonce|, 64);
  }

  lemma {:induction false} ZeroNat(w: nat)
    ensures NatBits(0, w) == Zeros(w)
  {
    if w > 0 {
      ZeroNat(w - 1);
    }
  }

  // ---------------------------------------------------------------- associated data

  function Ascii(s: string): (b: Bytes)
    ensures |b| == |s|
  {
    seq(|s|, i requires 0 <= i < |s| => NatBits(s[i] as nat, 8))
  }

  function U32(n: nat): (b: Bytes)
    ensures |b| == 4
  {
    ToBytes(NatBits(n, 32))
  }

  /** A four-byte length, then the text. */
  function Lp(text: Bytes): Bytes {
    U32(|text|) + text
  }

  function Magic(f: Framing): string {
    match f
    case File => "WBEF1"
    case Field => "WBEV1"
    case Record => "WBER1"
    case Stream => "WBES1"
    case Unknown => ""
  }

  function Code(f: Framing): nat {
    match f
    case File => 1
    case Field => 2
    case Record => 3
    case Stream => 4
    case Unknown => 0
  }

  /** Everything before the suite. */
  function Preamble(f: Framing): Bytes {
    Ascii("WB-AAD\0") + [NatBits(1, 8)] + Lp(Ascii(Magic(f))) + Lp(Ascii("sym-v1"))
  }

  function Aad(keyId: Bytes, suite: nat, f: Framing): Bytes {
    Preamble(f) + U32(suite) + Lp(keyId) + [NatBits(Code(f), 8)] + ZeroBytes(2)
  }

  lemma {:induction false} NatBitsInjective(m: nat, n: nat, w: nat)
    requires NatBits(m, w) == NatBits(n, w) && Fits(m, w) && Fits(n, w)
    ensures m == n
  {
    if w > 0 {
      var a, b := NatBits(m, w), NatBits(n, w);
      assert a[..w - 1] == NatBits(m / 2, w - 1) && b[..w - 1] == NatBits(n / 2, w - 1);
      assert a[w - 1] == b[w - 1];
      NatBitsInjective(m / 2, n / 2, w - 1);
    }
  }

  /** n has at most w binary digits. */
  predicate Fits(n: nat, w: nat) {
    if w == 0 then n == 0 else Fits(n / 2, w - 1)
  }

  lemma U32Injective(m: nat, n: nat)
    requires U32(m) == U32(n) && Fits(m, 32) && Fits(n, 32)
    ensures m == n
  {
    BitsOfToBytes(NatBits(m, 32));
    BitsOfToBytes(NatBits(n, 32));
    NatBitsInjective(m, n, 32);
  }

  lemma PreambleLength(f: Framing)
    requires f != Unknown
    ensures |Preamble(f)| == 27
  {
    assert |Magic(f)| == 5;
  }

  lemma AadLayout(keyId: Bytes, suite: nat, f: Framing)
    requires f != Unknown
    ensures var a := Aad(keyId, suite, f);
            && |a| == 38 + |keyId| && a[27..31] == U32(suite) && a[35..|a| - 3] == keyId && a[|a| - 3] == NatBits(Code(f), 8)
  {
    hide Preamble, U32, ZeroBytes, NatBits, Code;
    PreambleLength(f);
    SixParts(Preamble(f), U32(suite), U32(|keyId|), keyId, NatBits(Code(f), 8), ZeroBytes(2));
  }

  lemma SixParts(p: Bytes, s: Bytes, l: Bytes, k: Bytes, c: Byte, z: Bytes)
    requires |p| == 27 && |s| == 4 && |l| == 4 && |z| == 2
    ensures var a := p + s + (l + k) + [c] + z;
            |a| == 38 + |k| && a[27..31] == s && a[35..|a| - 3] == k && a[|a| - 3] == c
  {
    var a := p + s + (l + k) + [c] + z;
    assert a[27..31] == s;
    assert a[35..|a| - 3] == k;
  }

  /** The associated data name one key id, one suite and one framing only. */
  lemma AadInjective(k1: Bytes, s1: nat, f1: Framing, k2: Bytes, s2: nat, f2: Framing)
    requires f1 != Unknown && f2 != Unknown && Fits(s1, 32) && Fits(s2, 32)
    requires Aad(k1, s1, f1) == Aad(k2, s2, f2)
    ensures k1 == k2 && s1 == s2 && f1 == f2
  {
    AadLayout(k1, s1, f1);
    AadLayout(k2, s2, f2);
    U32Injective(s1, s2);
    NatBitsInjective(Code(f1), Code(f2), 8);
  }

  // ---------------------------------------------------------------- the envelope

  /** A key as the code uses it: its block cipher and its derived id. */
  datatype Key = Key(aes: Cipher, id: Bytes)

  /** Suite and length of the key id are written in four bytes each. */
  predicate AadFits(keyId: Bytes, suite: int) {
    0 <= suite < 0x1_0000_0000 && |keyId| < 0x1_0000_0000
  }

  /** `random` are the bytes that the operating system gives; they are the nonce if the caller gives none, or an empty one. */
  function SealEnvelope(key: Key, plaintext: Bytes, f: Framing, keyId: Bytes, nonce: Bytes, random: Bytes): Result<Sealed>
    requires |random| == 12
  {
    var id := if keyId == [] then key.id else keyId;
    var iv := if nonce == [] then random else nonce;
    if f == Unknown then Err(UnknownFraming)
    else if !AadFits(id, SUITE) || !SizesFit(iv, Aad(id, SUITE, f), plaintext) then Err(Overflow)
    else
      var (ciphertext, tag) := GcmSeal(key.aes, iv, Aad(id, SUITE, f), plaintext);
      Ok(Sealed(SUITE, id, iv, tag, ciphertext))
  }

  function OpenEnvelope(key: Key, e: Sealed, f: Framing): Result<Bytes> {
    if e.keyId != [] && e.keyId != key.id then Err(KeyIdMismatch)
    else if f == Unknown then Err(UnknownFraming)
    else if !AadFits(key.id, e.suite) then Err(Overflow)
    else GcmOpenOf(key.aes, e.nonce, Aad(key.id, e.suite, f), e.ciphertext, e.tag)
  }

  /**
    What was sealed opens to the same bytes exactly when the caller gave no key id or the key's own: a key id of
    another key is written into the envelope and refused on opening.
   */
  lemma SealedOpens(key: Key, plaintext: Bytes, f: Framing, keyId: Bytes, nonce: Bytes, random: Bytes)
    requires |random| == 12 && SealEnvelope(key, plaintext, f, keyId, nonce, random).Ok? && key.id != []
    ensures var e := SealEnvelope(key, plaintext, f, keyId, nonce, random).value;
            OpenEnvelope(key, e, f) == Ok(plaintext) <==> keyId == [] || keyId == key.id
  {
    var e := SealEnvelope(key, plaintext, f, keyId, nonce, random).value;
    var aad := Aad(e.keyId, SUITE, f);
    hide GcmOpenOf, GcmSeal, Aad;
    OpensOnlyWhatWasSealed(key.aes, e.nonce, aad, e.ciphertext, e.tag, plaintext);
    SealedIsGcm(key, plaintext, f, keyId, nonce, random);
  }

  lemma SealedIsGcm(key: Key, plaintext: Bytes, f: Framing, keyId: Bytes, nonce: Bytes, random: Bytes)
    requires |random| == 12 && SealEnvelope(key, plaintext, f, keyId, nonce, random).Ok?
    ensures var e := SealEnvelope(key, plaintext, f, keyId, nonce, random).value;
            && e.suite == SUITE && |e.ciphertext| == |plaintext| && SizesFit(e.nonce, Aad(e.keyId, SUITE, f), e.ciphertext)
            && GcmSeal(key.aes, e.nonce, Aad(e.keyId, SUITE, f), plaintext) == (e.ciphertext, e.tag)
  {
    hide Aad, TagOf;
  }
}
