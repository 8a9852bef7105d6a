/**
  AES-GCM as written in wb_atrest.py, over an arbitrary block function.

  A byte is its eight bits, most significant first, so the integers the code builds with `int.from_bytes(..., "big")`
  are bit strings here.  The references are sections 6.2 to 6.5 and 7.1 of NIST SP 800-38D.
 */
module Gcm {
  import opened Gf128

  type Byte = b: seq<bool> | |b| == 8 witness seq(8, _ => false)
  type Bytes = seq<Byte>
  type Bytes16 = b: seq<Byte> | |b| == 16 witness seq(16, _ => seq(8, _ => false))
  type Cipher = Bytes16 -> Bytes16

  const TWO32: nat := 0x1_0000_0000

  // ---------------------------------------------------------------- bits, bytes and numbers

  function Zeros(n: nat): (z: seq<bool>)
    ensures |z| == n
  {
    seq(n, _ => false)
  }

  function ZeroBytes(n: nat): (z: Bytes)
    ensures |z| == n
  {
    seq(n, _ => Zeros(8))
  }

  function Bits(bytes: Bytes): (b: seq<bool>)
    ensures |b| == 8 * |bytes|
  {
    if bytes == [] then [] else bytes[0] + Bits(bytes[1..])
  }

  /** The last w binary digits of n, most significant first (`to_bytes(..., "big")`). */
  function NatBits(n: nat, w: nat): (b: seq<bool>)
    ensures |b| == w
  {
    if w == 0 then [] else NatBits(n / 2, w - 1) + [n % 2 == 1]
  }

  function BitsNat(b: seq<bool>): nat {
    if b == [] then 0 else 2 * BitsNat(b[..|b| - 1]) + if b[|b| - 1] then 1 else 0
  }

  function ToBytes(bits: seq<bool>): (r: Bytes)
    requires |bits| % 8 == 0
    ensures |r| == |bits| / 8
  {
    if bits == [] then [] else [bits[..8]] + ToBytes(bits[8..])
  }

  lemma {:induction false} BitsAppend(a: Bytes, b: Bytes)
    ensures Bits(a + b) == Bits(a) + Bits(b)
  {
    if a == [] {
      assert a + b == b;
    } else {
      assert (a + b)[1..] == a[1..] + b;
      BitsAppend(a[1..], b);
      assert Bits(a + b) == a[0] + (Bits(a[1..]) + Bits(b));
    }
  }

  lemma {:induction false} BitsOfZeros(n: nat)
    ensures Bits(ZeroBytes(n)) == Zeros(8 * n)
  {
    if n > 0 {
      assert ZeroBytes(n)[1..] == ZeroBytes(n - 1);
      BitsOfZeros(n - 1);
    }
  }

  lemma {:induction false} BitsOfToBytes(bits: seq<bool>)
    requires |bits| % 8 == 0
    ensures Bits(ToBytes(bits)) == bits
  {
    if bits != [] {
      BitsOfToBytes(bits[8..]);
      assert bits == bits[..8] + bits[8..];
      assert ToBytes(bits)[1..] == ToBytes(bits[8..]);
    }
  }

  // ---------------------------------------------------------------- GHASH

  /** Split into 16-byte blocks, the last one padded with zeros. */
  function Blocks(data: Bytes): seq<Bytes16> {
    if data == [] then []
    else if |data| <= 16 then [data + ZeroBytes(16 - |data|)]
    else [data[..16]] + Blocks(data[16..])
  }

  function BlockOf(b: Bytes16): Block {
    Bits(b)
  }

  function Fold(h: Block, x: Block, blocks: seq<Bytes16>): Block
    decreases |blocks|
  {
    if blocks == [] then x else Fold(h, Product(Xor(x, BlockOf(blocks[0])), h), blocks[1..])
  }

  /** `len(...) * 8` must fit eight bytes, or `to_bytes` raises. */
  predicate LengthFits(data: Bytes) {
    8 * |data| < TWO32 * TWO32
  }

  function Tail(aad: Bytes, ciphertext: Bytes): Bytes16 {
    ToBytes(NatBits(8 * |aad|, 64)) + ToBytes(NatBits(8 * |ciphertext|, 64))
  }

  function GhashOf(h: Block, aad: Bytes, ciphertext: Bytes): Block {
    Fold(h, Zero(), Blocks(aad) + Blocks(ciphertext) + [Tail(aad, ciphertext)])
  }

  method Ghash(h: Block, aad: Bytes, ciphertext: Bytes) returns (x: Block)
    requires LengthFits(aad) && LengthFits(ciphertext)
    ensures x == GhashOf(h, aad, ciphertext)
  {
    x := Zero();
    var blocks := Blocks(aad) + Blocks(ciphertext) + [Tail(aad, ciphertext)];
    for i := 0 to |blocks|
      invariant Fold(h, x, blocks[i..]) == Fold(h, Zero(), blocks)
    {
      assert blocks[i..][1..] == blocks[i + 1..];
      x := GfMul(Xor(x, BlockOf(blocks[i])), h);
    }
  }

  /** Section 6.4: the reference GHASH of a bit string of whole blocks. */
  function NistGhash(h: Block, y: Block, x: seq<bool>): Block
    requires |x| % 128 == 0
    decreases |x|
  {
    if x == [] then y else NistGhash(h, Product(Xor(y, x[..128]), h), x[128..])
  }

  /** The number of zero bits up to the next whole block. */
  function PadBits(n: nat): nat {
    (128 - n % 128) % 128
  }

  lemma {:induction false} FoldIsNist(h: Block, x: Block, blocks: seq<Bytes16>, bits: seq<bool>)
    requires bits == AllBits(blocks)
    ensures |bits| % 128 == 0 && Fold(h, x, blocks) == NistGhash(h, x, bits)
    decreases |blocks|
  {
    if blocks != [] {
      var rest := AllBits(blocks[1..]);
      FoldIsNist(h, Product(Xor(x, BlockOf(blocks[0])), h), blocks[1..], rest);
      assert bits[..128] == BlockOf(blocks[0]) && bits[128..] == rest;
    }
  }

  function AllBits(blocks: seq<Bytes16>): (b: seq<bool>)
    ensures |b| == 128 * |blocks|
  {
    if blocks == [] then [] else BlockOf(blocks[0]) + AllBits(blocks[1..])
  }

  lemma {:induction false} AllBitsAppend(a: seq<Bytes16>, b: seq<Bytes16>)
    ensures AllBits(a + b) == AllBits(a) + AllBits(b)
  {
    if a == [] {
      assert a + b == b;
    } else {
      assert (a + b)[1..] == a[1..] + b;
      AllBitsAppend(a[1..], b);
      assert AllBits(a + b) == BlockOf(a[0]) + (AllBits(a[1..]) + AllBits(b));
    }
  }

  lemma PadShort(n: nat)
    requires 0 < n <= 16
    ensures PadBits(8 * n) == 8 * (16 - n)
  {
  }

  lemma PadStep(n: nat)
    requires n >= 16
    ensures PadBits(8 * n) == PadBits(8 * (n - 16))
  {
    ModStep(8 * n);
    assert 8 * (n - 16) == 8 * n - 128;
  }

  lemma ModStep(a: nat)
    requires a >= 128
    ensures (a - 128) % 128 == a % 128
  {
  }

  lemma {:induction false} BlocksArePadded(data: Bytes)
    ensures AllBits(Blocks(data)) == Bits(data) + Zeros(PadBits(8 * |data|))
    decreases |data|
  {
    hide PadBits;
    if data == [] {
      assert PadBits(0) == 0 by {
        PadNone();
      }
    } else if |data| <= 16 {
      PadShort(|data|);
      BitsAppend(data, ZeroBytes(16 - |data|));
      BitsOfZeros(16 - |data|);
      OneBlock(data + ZeroBytes(16 - |data|));
    } else {
      PadStep(|data|);
      BlocksArePadded(data[16..]);
      BitsAppend(data[..16], data[16..]);
      assert data == data[..16] + data[16..];
      FirstBlock(data[..16], Blocks(data[16..]));
      assert BlockOf(data[..16]) + (Bits(data[16..]) + Zeros(PadBits(8 * |data[16..]|)))
          == Bits(data) + Zeros(PadBits(8 * |data[16..]|));
    }
  }

  lemma PadNone()
    ensures PadBits(0) == 0
  {
  }

  lemma OneBlock(b: Bytes16)
    ensures AllBits([b]) == Bits(b)
  {
    FirstBlock(b, []);
    assert [b] == [b] + [];
    assert Bits(b) + [] == Bits(b);
  }

  lemma FirstBlock(b: Bytes16, rest: seq<Bytes16>)
    ensures AllBits([b] + rest) == BlockOf(b) + AllBits(rest)
  {
    assert ([b] + rest)[1..] == rest;
  }

  /** Sections 6.4 and 7.1: what the code hashes is A and C, each padded, then the two 64-bit lengths. */
  lemma GhashMatchesNist(h: Block, aad: Bytes, ciphertext: Bytes)
    ensures var x := Bits(aad) + Zeros(PadBits(8 * |aad|)) + (Bits(ciphertext) + Zeros(PadBits(8 * |ciphertext|)))
                     + (NatBits(8 * |aad|, 64) + NatBits(8 * |ciphertext|, 64));
            |x| % 128 == 0 && GhashOf(h, aad, ciphertext) == NistGhash(h, Zero(), x)
  {
    BlocksArePadded(aad);
    BlocksArePadded(ciphertext);
    var tail := Tail(aad, ciphertext);
    BitsAppend(ToBytes(NatBits(8 * |aad|, 64)), ToBytes(NatBits(8 * |ciphertext|, 64)));
    BitsOfToBytes(NatBits(8 * |aad|, 64));
    BitsOfToBytes(NatBits(8 * |ciphertext|, 64));
    assert AllBits([tail]) == BlockOf(tail) + AllBits([]) == Bits(tail);
    AllBitsAppend(Blocks(aad), Blocks(ciphertext));
    AllBitsAppend(Blocks(aad) + Blocks(ciphertext), [tail]);
    FoldIsNist(h, Zero(), Blocks(aad) + Blocks(ciphertext) + [tail], AllBits(Blocks(aad) + Blocks(ciphertext) + [tail]));
  }

  // ---------------------------------------------------------------- GHASH is a polynomial in h

  function PowerOf(h: Block, k: nat): Block {
    if k == 0 then One() else Product(PowerOf(h, k - 1), h)
  }

  /** X1 h^m + X2 h^(m-1) + ... + Xm h. */
  function Horner(h: Block, blocks: seq<Bytes16>): Block {
    if blocks == [] then Zero()
    else Xor(Product(BlockOf(blocks[0]), PowerOf(h, |blocks|)), Horner(h, blocks[1..]))
  }

  lemma {:induction false} FoldIsPolynomial(h: Block, x: Block, blocks: seq<Bytes16>)
    ensures Fold(h, x, blocks) == Xor(Product(x, PowerOf(h, |blocks|)), Horner(h, blocks))
    decreases |blocks|
  {
    if blocks == [] {
      ProductCommutes(x, One());
      ProductOne(x);
    } else {
      var b, m := BlockOf(blocks[0]), |blocks|;
      FoldIsPolynomial(h, Product(Xor(x, b), h), blocks[1..]);
      ProductAssociates(Xor(x, b), h, PowerOf(h, m - 1));
      ProductCommutes(h, PowerOf(h, m - 1));
      ProductDistributes(x, b, PowerOf(h, m));
      XorAssociates(Product(x, PowerOf(h, m)), Product(b, PowerOf(h, m)), Horner(h, blocks[1..]));
    }
  }

  lemma XorAssociates(a: Block, b: Block, c: Block)
    ensures Xor(Xor(a, b), c) == Xor(a, Xor(b, c))
  {
  }

  lemma ZeroProduct(x: Block)
    ensures Product(Zero(), x) == Zero()
  {
    assert Xor(Zero(), Zero()) == Zero();
    ProductDistributes(Zero(), Zero(), x);
    var p := Product(Zero(), x);
    assert Xor(p, p) == Zero();
  }

  /** GHASH evaluates the polynomial whose coefficients are the blocks. */
  lemma GhashIsPolynomial(h: Block, aad: Bytes, ciphertext: Bytes)
    ensures GhashOf(h, aad, ciphertext) == Horner(h, Blocks(aad) + Blocks(ciphertext) + [Tail(aad, ciphertext)])
  {
    var blocks := Blocks(aad) + Blocks(ciphertext) + [Tail(aad, ciphertext)];
    FoldIsPolynomial(h, Zero(), blocks);
    ZeroProduct(PowerOf(h, |blocks|));
  }

  // ---------------------------------------------------------------- counter mode

  function XorByte(a: Byte, b: Byte): Byte {
    Xor(a, b)
  }

  /** The byte-wise exclusive or of `zip(data, stream)`. */
  function XorBytes(data: Bytes, stream: Bytes16): (r: Bytes)
    requires |data| <= 16
    ensures |r| == |data|
  {
    seq(|data|, i requires 0 <= i < |data| => XorByte(data[i], stream[i]))
  }

  /** Section 6.2: increment the low 32 bits, wrapping. */
  function Inc32(counter: nat): nat {
    counter - counter % TWO32 + (counter + 1) % TWO32
  }

  function CounterBlock(counter: nat): Bytes16 {
    ToBytes(NatBits(counter, 128))
  }

  function GctrFrom(aes: Cipher, counter: nat, data: Bytes): (r: Bytes)
    ensures |r| == |data|
    decreases |data|
  {
    if data == [] then []
    else
      var next := Inc32(counter);
      var n := if |data| < 16 then |data| else 16;
      XorBytes(data[..n], aes(CounterBlock(next))) + GctrFrom(aes, next, data[n..])
  }

  function GctrOf(aes: Cipher, j0: Bytes16, data: Bytes): (r: Bytes)
    ensures |r| == |data|
  {
    GctrFrom(aes, BitsNat(Bits(j0)), data)
  }

  lemma GctrHead(aes: Cipher, counter: nat, data: Bytes, n: nat)
    requires data != [] && n == if |data| < 16 then |data| else 16
    ensures GctrFrom(aes, counter, data) == XorBytes(data[..n], aes(CounterBlock(Inc32(counter)))) + GctrFrom(aes, Inc32(counter), data[n..])
  {
  }

  method Gctr(aes: Cipher, j0: Bytes16, data: Bytes) returns (out: Bytes)
    ensures out == GctrOf(aes, j0, data)
  {
    hide GctrFrom, XorBytes, CounterBlock;
    out := [];
    var counter: nat := BitsNat(Bits(j0));
    var off := 0;
    while off < |data|
      invariant 0 <= off <= |data|
      invariant out + GctrFrom(aes, counter, data[off..]) == GctrFrom(aes, BitsNat(Bits(j0)), data)
    {
      var end := if off + 16 < |data| then off + 16 else |data|;
      GctrHead(aes, counter, data[off..], end - off);
      assert data[off..][..end - off] == data[off..end];
      assert data[off..][end - off..] == data[end..];
      counter := counter - counter % TWO32 + (counter + 1) % TWO32;
      var stream := aes(CounterBlock(counter));
      out := out + XorBytes(data[off..end], stream);
      off := end;
    }
  }

  /** The counter of block k: the high bits stay, the low 32 bits advance by k and wrap. */
  function CounterAt(counter: nat, k: nat): nat {
    counter - counter % TWO32 + (counter % TWO32 + k) % TWO32
  }

  lemma CounterAdvances(counter: nat, k: nat)
    ensures Inc32(counter) == CounterAt(counter, 1)
    ensures CounterAt(Inc32(counter), k) == CounterAt(counter, k + 1)
  {
    var lo := counter % TWO32;
    assert (counter + 1) % TWO32 == (lo + 1) % TWO32;
    assert Inc32(counter) % TWO32 == (lo + 1) % TWO32;
    assert ((lo + 1) % TWO32 + k) % TWO32 == (lo + 1 + k) % TWO32;
  }

  /** The first block of the output, and the rest. */
  lemma GctrStep(aes: Cipher, counter: nat, data: Bytes, i: nat)
    requires i < |data|
    ensures i < 16 ==> GctrFrom(aes, counter, data)[i] == XorByte(data[i], aes(CounterBlock(Inc32(counter)))[i])
    ensures i >= 16 ==> GctrFrom(aes, counter, data)[i] == GctrFrom(aes, Inc32(counter), data[16..])[i - 16]
  {
    hide Inc32, CounterBlock, XorByte;
    var n := if |data| < 16 then |data| else 16;
    assert data[..n][..n] == data[..n];
  }

  /** Every output byte is its input byte masked with its own key-stream byte, whatever the length and the wrap. */
  lemma {:induction false} GctrByte(aes: Cipher, counter: nat, data: Bytes, i: nat)
    requires i < |data|
    ensures GctrFrom(aes, counter, data)[i] == XorByte(data[i], aes(CounterBlock(CounterAt(counter, 1 + i / 16)))[i % 16])
    decreases |data|
  {
    hide GctrFrom, XorByte, CounterBlock, CounterAt, Inc32;
    GctrStep(aes, counter, data, i);
    if i < 16 {
      CounterAdvances(counter, 0);
    } else {
      GctrByte(aes, Inc32(counter), data[16..], i - 16);
      CounterAdvances(counter, 1 + (i - 16) / 16);
      assert i / 16 == 1 + (i - 16) / 16 && (i - 16) % 16 == i % 16;
    }
  }

  lemma XorByteTwice(a: Byte, b: Byte)
    ensures XorByte(XorByte(a, b), b) == a
  {
  }

  /** Counter mode undoes itself. */
  lemma GctrInvolution(aes: Cipher, j0: Bytes16, data: Bytes)
    ensures GctrOf(aes, j0, GctrOf(aes, j0, data)) == data
  {
    var counter := BitsNat(Bits(j0));
    var once := GctrOf(aes, j0, data);
    forall i: nat | i < |data| ensures GctrOf(aes, j0, once)[i] == data[i] {
      GctrByte(aes, counter, data, i);
      GctrByte(aes, counter, once, i);
      XorByteTwice(data[i], aes(CounterBlock(CounterAt(counter, 1 + i / 16)))[i % 16]);
    }
  }
}
