// fmt's handmade floating point: 64-bit significands multiplied through their 32-bit halves.
module HandmadeFp {

  // A number f * 2^e.
  datatype Fp = Fp(f: nat, e: int) {
    predicate Fits() {
      f < 0x1_0000_0000_0000_0000
    }
  }

  // uint64_t arithmetic
  function Wrap(x: nat): (r: nat)
    ensures x < 0x1_0000_0000_0000_0000 ==> r == x
  {
    x % 0x1_0000_0000_0000_0000
  }

  // The upper 64 bits of the sum of the four half products, rounded.
  function Combine(ac: nat, bc: nat, ad: nat, bd: nat): nat {
    var mid := Wrap(Wrap(Wrap(bd / 0x1_0000_0000 + ad % 0x1_0000_0000) + bc % 0x1_0000_0000) + 0x8000_0000);
    Wrap(Wrap(Wrap(ac + ad / 0x1_0000_0000) + bc / 0x1_0000_0000) + mid / 0x1_0000_0000)
  }

  function Multiply(x: Fp, y: Fp): Fp
    requires x.Fits() && y.Fits()
  {
    var a, b := x.f / 0x1_0000_0000, x.f % 0x1_0000_0000;
    var c, d := y.f / 0x1_0000_0000, y.f % 0x1_0000_0000;
    Fp(Combine(Wrap(a * c), Wrap(b * c), Wrap(a * d), Wrap(b * d)), x.e + y.e + 64)
  }

  lemma Monotone(a: nat, b: nat, c: nat)
    requires a <= b
    ensures a * c <= b * c
  {
    assert b * c - a * c == (b - a) * c;
  }

  lemma HalfProduct(a: nat, c: nat)
    requires a < 0x1_0000_0000 && c < 0x1_0000_0000
    ensures a * c <= 0xFFFF_FFFE_0000_0001
  {
    Monotone(a, 0xFFFF_FFFF, c);
  }

  lemma Expand(a: nat, b: nat, c: nat, d: nat)
    ensures (a * 0x1_0000_0000 + b) * (c * 0x1_0000_0000 + d) ==
            (a * c) * 0x1_0000_0000_0000_0000 + (b * c + a * d) * 0x1_0000_0000 + b * d
  {
  }

  // The sum of the four products, carried through 32-bit columns.
  lemma Columns(ac: nat, bc: nat, ad: nat, bd: nat, xy: nat)
    requires bc <= 0xFFFF_FFFE_0000_0001 && ad <= 0xFFFF_FFFE_0000_0001 && bd <= 0xFFFF_FFFE_0000_0001
    requires xy == ac * 0x1_0000_0000_0000_0000 + (bc + ad) * 0x1_0000_0000 + bd
    requires xy <= 0xFFFF_FFFF_FFFF_FFFE_0000_0000_0000_0001
    ensures Combine(ac, bc, ad, bd) == (xy + 0x8000_0000_0000_0000) / 0x1_0000_0000_0000_0000
  {
    var mid := bd / 0x1_0000_0000 + ad % 0x1_0000_0000 + bc % 0x1_0000_0000 + 0x8000_0000;
    var top := ac + ad / 0x1_0000_0000 + bc / 0x1_0000_0000 + mid / 0x1_0000_0000;
    var rest := mid % 0x1_0000_0000 * 0x1_0000_0000 + bd % 0x1_0000_0000;
    assert xy + 0x8000_0000_0000_0000 == top * 0x1_0000_0000_0000_0000 + rest;
    assert rest < 0x1_0000_0000_0000_0000;
    assert top < 0x1_0000_0000_0000_0000;
  }

  lemma FullProduct(x: nat, y: nat)
    requires x < 0x1_0000_0000_0000_0000 && y < 0x1_0000_0000_0000_0000
    ensures x * y <= 0xFFFF_FFFF_FFFF_FFFE_0000_0000_0000_0001
  {
    Monotone(x, 0xFFFF_FFFF_FFFF_FFFF, y);
  }

  /** The product is rounded to nearest, ties up, and no 64-bit step wraps around. */
  lemma MultiplyRounds(x: Fp, y: Fp)
    requires x.Fits() && y.Fits()
    ensures Multiply(x, y).f == (x.f * y.f + 0x8000_0000_0000_0000) / 0x1_0000_0000_0000_0000
    ensures Multiply(x, y).Fits() && Multiply(x, y).e == x.e + y.e + 64
  {
    var a, b := x.f / 0x1_0000_0000, x.f % 0x1_0000_0000;
    var c, d := y.f / 0x1_0000_0000, y.f % 0x1_0000_0000;
    HalfProduct(a, c);
    HalfProduct(b, c);
    HalfProduct(a, d);
    HalfProduct(b, d);
    FullProduct(x.f, y.f);
    ghost var xy := x.f * y.f;
    assert xy == (a * c) * 0x1_0000_0000_0000_0000 + (b * c + a * d) * 0x1_0000_0000 + b * d by {
      Expand(a, b, c, d);
    }
    Columns(a * c, b * c, a * d, b * d, xy);
  }
}
