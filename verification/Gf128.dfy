/**
  The field of GCM (wb_atrest.py, `_gf_mul`).

  A 128-bit block is its bit string, most significant bit first; in GCM's order bit i is the coefficient of alpha^i.
  A polynomial over GF(2) is the set of its exponents, so adding is symmetric difference.  The reference is plain
  polynomial multiplication, and the product of two blocks is the one block congruent to it modulo
  alpha^128 + alpha^7 + alpha^2 + alpha + 1.
 */
module Gf128 {
  type Block = b: seq<bool> | |b| == 128 witness seq(128, _ => false)
  type Poly = set<nat>

  function Zero(): Block {
    seq(128, _ => false)
  }

  function One(): Block {
    seq(128, i => i == 0)
  }

  /** 0xE1 and fifteen zero bytes. */
  function Reduction(): Block {
    seq(128, i => i == 0 || i == 1 || i == 2 || i == 7)
  }

  // ---------------------------------------------------------------- polynomials

  function Add(p: Poly, q: Poly): Poly {
    (p - q) + (q - p)
  }

  function Shift(p: Poly, k: nat): Poly {
    set i | i in p :: i + k
  }

  /** The product of the terms of p below n with q. */
  function Mul(p: Poly, n: nat, q: Poly): Poly {
    if n == 0 then {}
    else Add(Mul(p, n - 1, q), if n - 1 in p then Shift(q, n - 1) else {})
  }

  /** The multiples of the modulus. */
  function Multiple(t: Poly): Poly {
    Add(Add(Add(Add(t, Shift(t, 1)), Shift(t, 2)), Shift(t, 7)), Shift(t, 128))
  }

  ghost predicate Congruent(a: Poly, b: Poly) {
    exists t :: Add(a, b) == Multiple(t)
  }

  predicate Below(p: Poly, n: nat) {
    forall i | i in p :: i < n
  }

  lemma InShift(p: Poly, k: nat, e: nat)
    ensures e in Shift(p, k) <==> e >= k && e - k in p
  {
    if e >= k && e - k in p {
      assert (e - k) + k == e;
    }
  }

  lemma InMultiple(t: Poly, e: nat)
    ensures e in Multiple(t) <==>
      (((((e in t) != (e >= 1 && e - 1 in t)) != (e >= 2 && e - 2 in t)) != (e >= 7 && e - 7 in t)) != (e >= 128 && e - 128 in t))
  {
    InShift(t, 1, e);
    InShift(t, 2, e);
    InShift(t, 7, e);
    InShift(t, 128, e);
  }

  lemma ShiftAdd(p: Poly, q: Poly, k: nat)
    ensures Shift(Add(p, q), k) == Add(Shift(p, k), Shift(q, k))
  {
    forall e: nat ensures e in Shift(Add(p, q), k) <==> e in Add(Shift(p, k), Shift(q, k)) {
      InShift(p, k, e);
      InShift(q, k, e);
      InShift(Add(p, q), k, e);
    }
  }

  lemma ShiftShift(p: Poly, j: nat, k: nat)
    ensures Shift(Shift(p, j), k) == Shift(p, j + k)
  {
    forall e: nat ensures e in Shift(Shift(p, j), k) <==> e in Shift(p, j + k) {
      InShift(p, j + k, e);
      InShift(Shift(p, j), k, e);
      if e >= k {
        InShift(p, j, e - k);
      }
    }
  }

  lemma MultipleAdd(s: Poly, t: Poly)
    ensures Multiple(Add(s, t)) == Add(Multiple(s), Multiple(t))
  {
    forall e: nat ensures e in Multiple(Add(s, t)) <==> e in Add(Multiple(s), Multiple(t)) {
      InMultiple(s, e);
      InMultiple(t, e);
      InMultiple(Add(s, t), e);
    }
  }

  lemma MultipleShift(t: Poly, k: nat)
    ensures Multiple(Shift(t, k)) == Shift(Multiple(t), k)
  {
    hide Multiple;
    forall e: nat ensures e in Multiple(Shift(t, k)) <==> e in Shift(Multiple(t), k) {
      InMultiple(Shift(t, k), e);
      InShift(Multiple(t), k, e);
      InShift(t, k, e);
      if e >= k {
        InMultiple(t, e - k);
      }
      if e >= 1 { InShift(t, k, e - 1); }
      if e >= 2 { InShift(t, k, e - 2); }
      if e >= 7 { InShift(t, k, e - 7); }
      if e >= 128 { InShift(t, k, e - 128); }
    }
  }

  // ---------------------------------------------------------------- congruence

  lemma CongruentIntro(a: Poly, b: Poly, t: Poly)
    requires Add(a, b) == Multiple(t)
    ensures Congruent(a, b)
  {
  }

  lemma CongruentRefl(a: Poly)
    ensures Congruent(a, a)
  {
    assert Add(a, a) == {};
    assert Multiple({}) == {};
  }

  lemma CongruentSym(a: Poly, b: Poly)
    requires Congruent(a, b)
    ensures Congruent(b, a)
  {
    assert Add(a, b) == Add(b, a);
  }

  lemma CongruentAdd(a: Poly, b: Poly, c: Poly, d: Poly)
    requires Congruent(a, b) && Congruent(c, d)
    ensures Congruent(Add(a, c), Add(b, d))
  {
    var s :| Add(a, b) == Multiple(s);
    var t :| Add(c, d) == Multiple(t);
    MultipleAdd(s, t);
    assert Add(Add(a, c), Add(b, d)) == Add(Add(a, b), Add(c, d));
    CongruentIntro(Add(a, c), Add(b, d), Add(s, t));
  }

  lemma CongruentTrans(a: Poly, b: Poly, c: Poly)
    requires Congruent(a, b) && Congruent(b, c)
    ensures Congruent(a, c)
  {
    var s :| Add(a, b) == Multiple(s);
    var t :| Add(b, c) == Multiple(t);
    MultipleAdd(s, t);
    assert Add(a, c) == Add(Add(a, b), Add(b, c));
    CongruentIntro(a, c, Add(s, t));
  }

  lemma CongruentShift(a: Poly, b: Poly, k: nat)
    requires Congruent(a, b)
    ensures Congruent(Shift(a, k), Shift(b, k))
  {
    var t :| Add(a, b) == Multiple(t);
    ShiftAdd(a, b, k);
    MultipleShift(t, k);
    CongruentIntro(Shift(a, k), Shift(b, k), Shift(t, k));
  }

  /** A nonzero multiple of the modulus has a term of degree 128 or more. */
  lemma MultipleIsLarge(t: Poly)
    requires t != {}
    ensures !Below(Multiple(t), 128)
  {
    var m := Top(t);
    InMultiple(t, m + 128);
    assert m + 128 in Multiple(t);
  }

  lemma {:induction false} Top(t: Poly) returns (m: nat)
    requires t != {}
    ensures m in t && forall i | i in t :: i <= m
  {
    var a :| a in t;
    if t == {a} {
      m := a;
    } else {
      assert t == (t - {a}) + {a};
      var k := Top(t - {a});
      m := if k > a then k else a;
      assert forall i | i in t :: i == a || i in t - {a};
    }
  }

  /** Remainders are unique. */
  lemma ReducedUnique(a: Poly, b: Poly)
    requires Below(a, 128) && Below(b, 128) && Congruent(a, b)
    ensures a == b
  {
    var t :| Add(a, b) == Multiple(t);
    assert Below(Add(a, b), 128);
    if t != {} {
      MultipleIsLarge(t);
    } else {
      assert Multiple({}) == {};
      assert Add(a, b) == {};
    }
  }

  // ---------------------------------------------------------------- polynomial multiplication

  lemma {:induction false} MulAddRight(p: Poly, n: nat, q: Poly, r: Poly)
    ensures Mul(p, n, Add(q, r)) == Add(Mul(p, n, q), Mul(p, n, r))
  {
    if n > 0 {
      MulAddRight(p, n - 1, q, r);
      ShiftAdd(q, r, n - 1);
    }
  }

  lemma {:induction false} MulAddLeft(p: Poly, s: Poly, n: nat, q: Poly)
    ensures Mul(Add(p, s), n, q) == Add(Mul(p, n, q), Mul(s, n, q))
  {
    if n > 0 {
      MulAddLeft(p, s, n - 1, q);
    }
  }

  lemma {:induction false} MulShiftRight(p: Poly, n: nat, q: Poly, k: nat)
    ensures Mul(p, n, Shift(q, k)) == Shift(Mul(p, n, q), k)
  {
    if n > 0 {
      MulShiftRight(p, n - 1, q, k);
      ShiftShift(q, k, n - 1);
      ShiftShift(q, n - 1, k);
      ShiftAdd(Mul(p, n - 1, q), if n - 1 in p then Shift(q, n - 1) else {}, k);
    }
  }

  lemma {:induction false} MulMonomial(q: Poly, m: nat, k: nat)
    requires Below(q, m)
    ensures Mul(q, m, {k}) == Shift(q, k)
  {
    if m > 0 {
      MulMonomial(q - {m - 1}, m - 1, k);
      MulRestrict(q, q - {m - 1}, m - 1, {k});
      assert Shift({k}, m - 1) == {k + (m - 1)};
      forall e: nat ensures e in Mul(q, m, {k}) <==> e in Shift(q, k) {
        InShift(q, k, e);
        InShift(q - {m - 1}, k, e);
      }
    } else {
      assert q == {};
    }
  }

  lemma {:induction false} MulRestrict(p: Poly, s: Poly, n: nat, q: Poly)
    requires forall i: nat | i < n :: i in p <==> i in s
    ensures Mul(p, n, q) == Mul(s, n, q)
  {
    if n > 0 {
      MulRestrict(p, s, n - 1, q);
    }
  }

  lemma {:induction false} MulZero(q: Poly, m: nat)
    ensures Mul(q, m, {}) == {}
  {
    if m > 0 {
      MulZero(q, m - 1);
    }
  }

  lemma {:induction false} MulCommutes(p: Poly, n: nat, q: Poly, m: nat)
    requires Below(p, n) && Below(q, m)
    ensures Mul(p, n, q) == Mul(q, m, p)
  {
    if n == 0 {
      assert p == {};
      MulZero(q, m);
    } else {
      var rest := p - {n - 1};
      var top: Poly := if n - 1 in p then {n - 1} else {};
      MulCommutes(rest, n - 1, q, m);
      MulRestrict(p, rest, n - 1, q);
      assert p == Add(rest, top);
      MulAddRight(q, m, rest, top);
      if n - 1 in p {
        MulMonomial(q, m, n - 1);
      } else {
        MulZero(q, m);
      }
    }
  }

  lemma {:induction false} MulBelow(p: Poly, n: nat, q: Poly, m: nat)
    requires Below(q, m)
    ensures Below(Mul(p, n, q), n + m)
  {
    if n > 0 {
      MulBelow(p, n - 1, q, m);
    }
  }

  /** Terms of p beyond its degree do not matter. */
  lemma {:induction false} MulExtend(p: Poly, n: nat, m: nat, q: Poly)
    requires Below(p, n) && n <= m
    ensures Mul(p, m, q) == Mul(p, n, q)
  {
    if n < m {
      MulExtend(p, n, m - 1, q);
    }
  }

  lemma {:induction false} MulAssociates(p: Poly, n: nat, q: Poly, m: nat, r: Poly)
    requires Below(q, m)
    ensures Mul(Mul(p, n, q), n + m, r) == Mul(p, n, Mul(q, m, r))
  {
    if n > 0 {
      MulAssociates(p, n - 1, q, m, r);
      var low := Mul(p, n - 1, q);
      MulBelow(p, n - 1, q, m);
      MulExtend(low, n - 1 + m, n + m, r);
      var top := if n - 1 in p then Shift(q, n - 1) else {};
      MulAddLeft(low, top, n + m, r);
      if n - 1 in p {
        MulShiftLeft(q, m, n - 1, r, n + m);
      } else {
        MulNothing(n + m, r);
      }
    } else {
      MulNothing(m, r);
    }
  }

  lemma {:induction false} MulNothing(n: nat, r: Poly)
    ensures Mul({}, n, r) == {}
  {
    if n > 0 {
      MulNothing(n - 1, r);
    }
  }

  lemma MulShiftLeft(q: Poly, m: nat, k: nat, r: Poly, n: nat)
    requires Below(q, m) && n >= m + k
    ensures Mul(Shift(q, k), n, r) == Shift(Mul(q, m, r), k)
  {
    var b := UpperBound(r);
    MulCommutes(Shift(q, k), n, r, b);
    MulShiftRight(r, b, q, k);
    MulCommutes(r, b, q, m);
  }

  lemma UpperBound(r: Poly) returns (b: nat)
    ensures Below(r, b)
  {
    if r == {} {
      b := 0;
    } else {
      b := Top(r);
      b := b + 1;
    }
  }

  /** Congruent factors give congruent products. */
  lemma {:induction false} MulCongruent(p: Poly, n: nat, a: Poly, b: Poly)
    requires Congruent(a, b)
    ensures Congruent(Mul(p, n, a), Mul(p, n, b))
  {
    if n == 0 {
      CongruentRefl({});
    } else {
      MulCongruent(p, n - 1, a, b);
      if n - 1 in p {
        CongruentShift(a, b, n - 1);
        CongruentAdd(Mul(p, n - 1, a), Mul(p, n - 1, b), Shift(a, n - 1), Shift(b, n - 1));
      } else {
        CongruentRefl({});
        CongruentAdd(Mul(p, n - 1, a), Mul(p, n - 1, b), {}, {});
      }
    }
  }

  // ---------------------------------------------------------------- the multiplication of the code

  function PolyOf(b: seq<bool>): Poly {
    set i: nat | i < |b| && b[i]
  }

  function Xor(a: seq<bool>, b: seq<bool>): (c: seq<bool>)
    requires |a| == |b|
    ensures |c| == |a|
  {
    seq(|a|, i requires 0 <= i < |a| => a[i] != b[i])
  }

  /** Shift right by one bit, and reduce if a bit fell off. */
  function Times2(v: Block): Block {
    if v[127] then Xor([false] + v[..127], Reduction()) else [false] + v[..127]
  }

  function Power2(y: Block, i: nat): Block {
    if i == 0 then y else Times2(Power2(y, i - 1))
  }

  function Partial(x: Block, y: Block, i: nat): Block
    requires i <= 128
  {
    if i == 0 then Zero()
    else if x[i - 1] then Xor(Partial(x, y, i - 1), Power2(y, i - 1)) else Partial(x, y, i - 1)
  }

  function Product(x: Block, y: Block): Block {
    Partial(x, y, 128)
  }

  method GfMul(x: Block, y: Block) returns (z: Block)
    ensures z == Product(x, y)
  {
    z := Zero();
    var v := y;
    for i := 0 to 128
      invariant v == Power2(y, i) && z == Partial(x, y, i)
    {
      if x[i] {
        z := Xor(z, v);
      }
      var shifted := [false] + v[..127];
      if v[127] {
        v := Xor(shifted, Reduction());
      } else {
        v := shifted;
      }
    }
  }

  lemma PolyXor(a: seq<bool>, b: seq<bool>)
    requires |a| == |b|
    ensures PolyOf(Xor(a, b)) == Add(PolyOf(a), PolyOf(b))
  {
  }

  lemma PolyBelow(b: Block)
    ensures Below(PolyOf(b), 128)
  {
  }

  lemma PolyInjective(a: Block, b: Block)
    requires PolyOf(a) == PolyOf(b)
    ensures a == b
  {
    forall i: nat | i < 128 ensures a[i] == b[i] {
      assert i in PolyOf(a) <==> i in PolyOf(b);
    }
  }

  lemma ReductionPoly()
    ensures PolyOf(Reduction()) == {0, 1, 2, 7}
    ensures Add({128}, PolyOf(Reduction())) == Multiple({0})
  {
    assert PolyOf(Reduction()) == {0, 1, 2, 7};
    forall e: nat ensures e in Multiple({0}) <==> e in {0, 1, 2, 7, 128} {
      InMultiple({0}, e);
    }
  }

  lemma Times2Congruent(v: Block)
    ensures Congruent(Shift(PolyOf(v), 1), PolyOf(Times2(v)))
  {
    var shifted := [false] + v[..127];
    var top: Poly := if v[127] then {128} else {};
    forall e: nat ensures e in Shift(PolyOf(v), 1) <==> e in Add(PolyOf(shifted), top) {
      InShift(PolyOf(v), 1, e);
    }
    if v[127] {
      ReductionPoly();
      PolyXor(shifted, Reduction());
      assert Add(Shift(PolyOf(v), 1), PolyOf(Times2(v))) == Add({128}, PolyOf(Reduction()));
      CongruentIntro(Shift(PolyOf(v), 1), PolyOf(Times2(v)), {0});
    } else {
      assert Add(PolyOf(shifted), {}) == PolyOf(shifted);
      CongruentRefl(PolyOf(shifted));
    }
  }

  lemma {:induction false} Power2Congruent(y: Block, i: nat)
    ensures Congruent(Shift(PolyOf(y), i), PolyOf(Power2(y, i)))
  {
    if i == 0 {
      assert Shift(PolyOf(y), 0) == PolyOf(y);
      CongruentRefl(PolyOf(y));
    } else {
      Power2Congruent(y, i - 1);
      CongruentShift(Shift(PolyOf(y), i - 1), PolyOf(Power2(y, i - 1)), 1);
      ShiftShift(PolyOf(y), i - 1, 1);
      Times2Congruent(Power2(y, i - 1));
      CongruentTrans(Shift(PolyOf(y), i), Shift(PolyOf(Power2(y, i - 1)), 1), PolyOf(Power2(y, i)));
    }
  }

  lemma {:induction false} PartialCongruent(x: Block, y: Block, i: nat)
    requires i <= 128
    ensures Congruent(Mul(PolyOf(x), i, PolyOf(y)), PolyOf(Partial(x, y, i)))
  {
    if i == 0 {
      assert PolyOf(Zero()) == {};
      CongruentRefl({});
    } else {
      PartialCongruent(x, y, i - 1);
      var p, q := Mul(PolyOf(x), i - 1, PolyOf(y)), PolyOf(Partial(x, y, i - 1));
      if x[i - 1] {
        Power2Congruent(y, i - 1);
        PolyXor(Partial(x, y, i - 1), Power2(y, i - 1));
        CongruentAdd(p, q, Shift(PolyOf(y), i - 1), PolyOf(Power2(y, i - 1)));
      } else {
        CongruentRefl({});
        CongruentAdd(p, q, {}, {});
        assert Add(q, {}) == q;
      }
    }
  }

  /** The product is the one block congruent to the product of the polynomials. */
  lemma ProductIsRemainder(x: Block, y: Block, z: Block)
    ensures z == Product(x, y) <==> Congruent(Mul(PolyOf(x), 128, PolyOf(y)), PolyOf(z))
  {
    PartialCongruent(x, y, 128);
    var p := Mul(PolyOf(x), 128, PolyOf(y));
    if Congruent(p, PolyOf(z)) {
      CongruentSym(p, PolyOf(z));
      CongruentTrans(PolyOf(z), p, PolyOf(Product(x, y)));
      PolyBelow(z);
      PolyBelow(Product(x, y));
      ReducedUnique(PolyOf(z), PolyOf(Product(x, y)));
      PolyInjective(z, Product(x, y));
    }
  }

  lemma ProductCommutes(x: Block, y: Block)
    ensures Product(x, y) == Product(y, x)
  {
    PolyBelow(x);
    PolyBelow(y);
    MulCommutes(PolyOf(x), 128, PolyOf(y), 128);
    ProductIsRemainder(x, y, Product(x, y));
    ProductIsRemainder(y, x, Product(x, y));
  }

  lemma ProductDistributes(x: Block, y: Block, z: Block)
    ensures Product(Xor(x, y), z) == Xor(Product(x, z), Product(y, z))
  {
    PolyXor(x, y);
    PolyXor(Product(x, z), Product(y, z));
    MulAddLeft(PolyOf(x), PolyOf(y), 128, PolyOf(z));
    ProductIsRemainder(x, z, Product(x, z));
    ProductIsRemainder(y, z, Product(y, z));
    CongruentAdd(Mul(PolyOf(x), 128, PolyOf(z)), PolyOf(Product(x, z)), Mul(PolyOf(y), 128, PolyOf(z)), PolyOf(Product(y, z)));
    ProductIsRemainder(Xor(x, y), z, Xor(Product(x, z), Product(y, z)));
  }

  lemma ProductAssociates(x: Block, y: Block, z: Block)
    ensures Product(Product(x, y), z) == Product(x, Product(y, z))
  {
    var p, q, r := PolyOf(x), PolyOf(y), PolyOf(z);
    PolyBelow(x);
    PolyBelow(y);
    PolyBelow(z);
    PolyBelow(Product(x, y));
    ProductIsRemainder(x, y, Product(x, y));
    ProductIsRemainder(y, z, Product(y, z));
    // x(yz) is congruent to p(qr)
    MulCongruent(p, 128, Mul(q, 128, r), PolyOf(Product(y, z)));
    // (xy)z is congruent to (pq)r
    MulBelow(p, 128, q, 128);
    MulCongruent(r, 128, Mul(p, 128, q), PolyOf(Product(x, y)));
    MulCommutes(r, 128, Mul(p, 128, q), 256);
    MulCommutes(r, 128, PolyOf(Product(x, y)), 128);
    MulAssociates(p, 128, q, 128, r);
    ProductIsRemainder(Product(x, y), z, Product(Product(x, y), z));
    ProductIsRemainder(x, Product(y, z), Product(x, Product(y, z)));
    var a, b := Mul(p, 128, Mul(q, 128, r)), Mul(p, 128, PolyOf(Product(y, z)));
    CongruentSym(a, Mul(PolyOf(Product(x, y)), 128, r));
    CongruentTrans(Mul(PolyOf(Product(x, y)), 128, r), a, b);
    CongruentTrans(Mul(PolyOf(Product(x, y)), 128, r), b, PolyOf(Product(x, Product(y, z))));
    ProductIsRemainder(Product(x, y), z, Product(x, Product(y, z)));
  }

  lemma ProductOne(x: Block)
    ensures Product(One(), x) == x
  {
    assert PolyOf(One()) == {0};
    PolyBelow(x);
    MulMonomial(PolyOf(x), 128, 0);
    assert Shift(PolyOf(x), 0) == PolyOf(x);
    MulCommutes({0}, 128, PolyOf(x), 128);
    CongruentRefl(PolyOf(x));
    ProductIsRemainder(One(), x, x);
  }
}
