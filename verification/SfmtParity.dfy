/** The parity certificate of a state: its inner product with the parity vector. */
module SfmtParity {
  import opened SfmtWords

  function And32(x: bv32, y: bv32): bv32 { x & y }
  function LowBit(x: bv32): bv32 { x & 1 }

  /** 1 when an odd number of the lowest `n` bits are set, and 0 otherwise. */
  function Odd(x: bv32, n: nat): bv32 {
    if n == 0 then 0 else Xor32(LowBit(x), Odd(Half(x), n - 1))
  }

  /** The bits of the first word that the parity vector selects, added up piece by piece. */
  function Selected(parity: W128, w: W128): bv32 {
    Xor32(Xor32(Xor32(And32(w.u0, parity.u0), And32(w.u1, parity.u1)), And32(w.u2, parity.u2)), And32(w.u3, parity.u3))
  }

  /** The inner product over GF(2) of the first 128 bits with the parity vector. */
  function Inner(parity: W128, w: W128): bv32 { Odd(Selected(parity, w), 32) }

  // ----- parity by folding -----

  lemma LowBitXor(x: bv32, y: bv32)
    ensures LowBit(Xor32(x, y)) == Xor32(LowBit(x), LowBit(y))
  {}

  lemma {:induction false} OddXor(x: bv32, y: bv32, n: nat)
    ensures Odd(Xor32(x, y), n) == Xor32(Odd(x, n), Odd(y, n))
    decreases n
  {
    hide Xor32, LowBit, Half;
    if n == 0 { XorZero(); }
    else {
      LowBitXor(x, y);
      HalfXor(x, y);
      OddXor(Half(x), Half(y), n - 1);
      XorPairs32(LowBit(x), LowBit(y), Odd(Half(x), n - 1), Odd(Half(y), n - 1));
    }
  }

  lemma XorZero()
    ensures Xor32(0, 0) == 0
  {}

  /** `x` shifted right `m` times by one bit. */
  function Halved(x: bv32, m: nat): bv32 { if m == 0 then x else Halved(Half(x), m - 1) }

  lemma {:induction false} HalvedTwice(x: bv32, m: nat, n: nat)
    ensures Halved(x, m + n) == Halved(Halved(x, m), n)
    decreases m
  {
    hide Half;
    if m > 0 { HalvedTwice(Half(x), m - 1, n); }
  }

  lemma HalvedBy1(x: bv32)
    ensures Halved(x, 1) == Shr(x, 1)
  {
    assert Halved(x, 1) == Halved(Half(x), 0);
  }

  lemma ShrBy2(x: bv32)
    ensures Shr(Shr(x, 1), 1) == Shr(x, 2)
  {}

  lemma HalvedBy2(x: bv32)
    ensures Halved(x, 2) == Shr(x, 2)
  {
    hide Halved, Half, Shr;
    HalvedTwice(x, 1, 1);
    HalvedBy1(x);
    HalvedBy1(Shr(x, 1));
    ShrBy2(x);
  }

  lemma ShrBy4(x: bv32)
    ensures Shr(Shr(x, 2), 2) == Shr(x, 4)
  {}

  lemma HalvedBy4(x: bv32)
    ensures Halved(x, 4) == Shr(x, 4)
  {
    hide Halved, Half, Shr;
    HalvedTwice(x, 2, 2);
    HalvedBy2(x);
    HalvedBy2(Shr(x, 2));
    ShrBy4(x);
  }

  lemma ShrBy8(x: bv32)
    ensures Shr(Shr(x, 4), 4) == Shr(x, 8)
  {}

  lemma HalvedBy8(x: bv32)
    ensures Halved(x, 8) == Shr(x, 8)
  {
    hide Halved, Half, Shr;
    HalvedTwice(x, 4, 4);
    HalvedBy4(x);
    HalvedBy4(Shr(x, 4));
    ShrBy8(x);
  }

  lemma ShrBy16(x: bv32)
    ensures Shr(Shr(x, 8), 8) == Shr(x, 16)
  {}

  lemma HalvedBy16(x: bv32)
    ensures Halved(x, 16) == Shr(x, 16)
  {
    hide Halved, Half, Shr;
    HalvedTwice(x, 8, 8);
    HalvedBy8(x);
    HalvedBy8(Shr(x, 8));
    ShrBy16(x);
  }

  /** The parity of `m + n` bits is that of the lowest `m` and that of the next `n`. */
  lemma {:induction false} OddSplit(x: bv32, m: nat, n: nat)
    ensures Odd(x, m + n) == Xor32(Odd(x, m), Odd(Halved(x, m), n))
    decreases m
  {
    hide Xor32, LowBit, Half;
    if m == 0 { Xor32Unit(Odd(x, n)); }
    else {
      OddSplit(Half(x), m - 1, n);
      Xor32Laws(LowBit(x), Odd(Half(x), m - 1), Odd(Halved(x, m), n));
    }
  }

  lemma Xor32Unit(x: bv32)
    ensures Xor32(0, x) == x && Xor32(x, 0) == x
  {}

  /** Folding the upper half of `2 * n` bits onto the lower half keeps the parity. */
  lemma FoldKeepsOdd(x: bv32, n: nat)
    ensures Odd(Xor32(x, Halved(x, n)), n) == Odd(x, n + n)
  {
    hide Xor32, LowBit, Half, Halved;
    OddSplit(x, n, n);
    OddXor(x, Halved(x, n), n);
  }

  /** The source's parity computation: folding by 16, 8, 4, 2 and 1. */
  lemma FoldsToOdd(x: bv32, y1: bv32, y2: bv32, y3: bv32, y4: bv32, y5: bv32)
    requires y1 == Xor32(x, Shr(x, 16)) && y2 == Xor32(y1, Shr(y1, 8)) && y3 == Xor32(y2, Shr(y2, 4))
    requires y4 == Xor32(y3, Shr(y3, 2)) && y5 == Xor32(y4, Shr(y4, 1))
    ensures LowBit(y5) == Odd(x, 32)
  {
    hide Xor32, LowBit, Half, Halved, Shr;
    FoldKeepsOdd(x, 16);
    FoldKeepsOdd(y1, 8);
    FoldKeepsOdd(y2, 4);
    FoldKeepsOdd(y3, 2);
    FoldKeepsOdd(y4, 1);
    HalvedBy16(x);
    HalvedBy8(y1);
    HalvedBy4(y2);
    HalvedBy2(y3);
    HalvedBy1(y4);
    Xor32Unit(LowBit(y5));
    assert Odd(y5, 1) == Xor32(LowBit(y5), Odd(Half(y5), 0));
  }

  // ----- single bits -----

  function Bit(j: nat): bv32
    requires j < 32
  {
    if j == 0 then 1 else Bit(j - 1) << 1
  }

  lemma BitSteps(j: nat)
    requires j < 32
    ensures Bit(0) == 1 && (j + 1 < 32 ==> Bit(j + 1) == Shl(Bit(j), 1))
  {}

  lemma BitValues()
    ensures Bit(0) == 0x1 && Bit(1) == 0x2 && Bit(2) == 0x4 && Bit(3) == 0x8 && Bit(4) == 0x10 && Bit(5) == 0x20
    ensures Bit(6) == 0x40 && Bit(7) == 0x80
    ensures Bit(8) == 0x100 && Bit(9) == 0x200 && Bit(10) == 0x400 && Bit(11) == 0x800
      && Bit(12) == 0x1000 && Bit(13) == 0x2000 && Bit(14) == 0x4000 && Bit(15) == 0x8000
    ensures Bit(16) == 0x10000 && Bit(17) == 0x20000 && Bit(18) == 0x40000 && Bit(19) == 0x80000
      && Bit(20) == 0x100000 && Bit(21) == 0x200000 && Bit(22) == 0x400000 && Bit(23) == 0x800000
    ensures Bit(24) == 0x1000000 && Bit(25) == 0x2000000 && Bit(26) == 0x4000000 && Bit(27) == 0x8000000
      && Bit(28) == 0x10000000 && Bit(29) == 0x20000000 && Bit(30) == 0x40000000 && Bit(31) == 0x80000000
  {
    assert Bit(0) == 0x1;
    assert Bit(1) == 0x2;
    assert Bit(2) == 0x4;
    assert Bit(3) == 0x8;
    assert Bit(4) == 0x10;
    assert Bit(5) == 0x20;
    assert Bit(6) == 0x40;
    assert Bit(7) == 0x80;
    assert Bit(8) == 0x100;
    assert Bit(9) == 0x200;
    assert Bit(10) == 0x400;
    assert Bit(11) == 0x800;
    assert Bit(12) == 0x1000;
    assert Bit(13) == 0x2000;
    assert Bit(14) == 0x4000;
    assert Bit(15) == 0x8000;
    assert Bit(16) == 0x10000;
    assert Bit(17) == 0x20000;
    assert Bit(18) == 0x40000;
    assert Bit(19) == 0x80000;
    assert Bit(20) == 0x100000;
    assert Bit(21) == 0x200000;
    assert Bit(22) == 0x400000;
    assert Bit(23) == 0x800000;
    assert Bit(24) == 0x1000000;
    assert Bit(25) == 0x2000000;
    assert Bit(26) == 0x4000000;
    assert Bit(27) == 0x8000000;
    assert Bit(28) == 0x10000000;
    assert Bit(29) == 0x20000000;
    assert Bit(30) == 0x40000000;
    assert Bit(31) == 0x80000000;
  }

  /** Multiplying by two and halving again, except at the top bit. */
  lemma BitHalf(j: nat)
    requires 1 <= j < 32
    ensures Half(Bit(j)) == Bit(j - 1) && LowBit(Bit(j)) == 0
  {
    hide Bit;
    BitValues();
    match j
    case 1 => case 2 => case 3 => case 4 => case 5 => case 6 => case 7 =>
    case 8 => case 9 => case 10 => case 11 => case 12 => case 13 => case 14 => case 15 =>
    case 16 => case 17 => case 18 => case 19 => case 20 => case 21 => case 22 => case 23 =>
    case 24 => case 25 => case 26 => case 27 => case 28 => case 29 => case 30 => case 31 =>
  }

  lemma OneBit(j: nat, x: bv32)
    requires j < 32
    ensures And32(Bit(j), x) == 0 || And32(Bit(j), x) == Bit(j)
  {
    hide Bit;
    BitValues();
    match j
    case 0 => case 1 => case 2 => case 3 => case 4 => case 5 => case 6 => case 7 =>
    case 8 => case 9 => case 10 => case 11 => case 12 => case 13 => case 14 => case 15 =>
    case 16 => case 17 => case 18 => case 19 => case 20 => case 21 => case 22 => case 23 =>
    case 24 => case 25 => case 26 => case 27 => case 28 => case 29 => case 30 => case 31 =>
  }

  lemma NoBits(x: bv32)
    requires forall j :: 0 <= j < 32 ==> And32(Bit(j), x) == 0
    ensures x == 0
  {
    hide Bit;
    BitValues();
    assert And32(Bit(0), x) == 0;
  }

  lemma {:induction false} OddZero(n: nat)
    ensures Odd(0, n) == 0
  {
    if n > 0 { OddZero(n - 1); }
  }

  lemma {:induction false} OddBit(j: nat, n: nat)
    requires j < n <= 32
    ensures Odd(Bit(j), n) == 1
    decreases j
  {
    hide Xor32, Bit;
    if j == 0 {
      BitValues();
      OddZero(n - 1);
      Xor32Unit(1);
      assert Half(1) == 0 && LowBit(1) == 1;
    } else {
      BitHalf(j);
      OddBit(j - 1, n - 1);
      Xor32Unit(1);
    }
  }

  // ----- certification -----

  /** The first bit of the parity vector that is set, counting from bit `m`; 128 if there is none. */
  function FirstBit(parity: W128, m: nat): (r: nat)
    requires m <= 128
    ensures m <= r <= 128
    ensures r < 128 ==> And32(Bit(r % 32), Piece(parity, r / 32)) != 0
    ensures forall k :: m <= k < r ==> And32(Bit(k % 32), Piece(parity, k / 32)) == 0
    decreases 128 - m
  {
    if m == 128 || And32(Bit(m % 32), Piece(parity, m / 32)) != 0 then m else FirstBit(parity, m + 1)
  }

  /** Bit `j` of piece `i` is the first one set, or the search goes on. */
  lemma FirstBitStep(parity: W128, i: nat, j: nat)
    requires i < 4 && j < 32
    ensures FirstBit(parity, 32 * i + j) ==
      if And32(Bit(j), Piece(parity, i)) != 0 then 32 * i + j else FirstBit(parity, 32 * i + j + 1)
  {
    hide Bit, Piece, And32;
    assert (32 * i + j) / 32 == i && (32 * i + j) % 32 == j;
  }

  lemma FlipAt(w: W128, i: nat, j: nat)
    requires i < 4 && j < 32
    ensures Flip(w, 32 * i + j) == SetPiece(w, i, Xor32(Piece(w, i), Bit(j)))
  {
    hide Bit, Piece, Xor32, SetPiece;
    assert (32 * i + j) / 32 == i && (32 * i + j) % 32 == j;
  }

  function Flip(w: W128, m: nat): W128
    requires m < 128
  {
    SetPiece(w, m / 32, Xor32(Piece(w, m / 32), Bit(m % 32)))
  }

  /** The first word of a state after period_certification. */
  function Certified(parity: W128, w: W128): W128 {
    var m := FirstBit(parity, 0);
    if Inner(parity, w) == 1 || m == 128 then w else Flip(w, m)
  }

  /** The word whose only set bit is bit `m`. */
  function Single(m: nat): W128
    requires m < 128
  {
    SetPiece(ZERO, m / 32, Bit(m % 32))
  }

  lemma SetIsXor(w: W128, k: nat, v: bv32)
    requires k < 4
    ensures SetPiece(w, k, Xor32(Piece(w, k), v)) == Xor(w, SetPiece(ZERO, k, v))
  {
    hide Xor32, Xor, Piece, SetPiece;
    var l, r := SetPiece(w, k, Xor32(Piece(w, k), v)), Xor(w, SetPiece(ZERO, k, v));
    forall j | 0 <= j < 4 ensures Piece(l, j) == Piece(r, j) {
      SetThenGet(w, k, Xor32(Piece(w, k), v), j);
      SetThenGet(ZERO, k, v, j);
      PieceXor(w, SetPiece(ZERO, k, v), j);
      PieceZero(j);
      XorNothing(Piece(w, j));
    }
    SamePieces(l, r);
  }

  lemma PieceXor(v: W128, w: W128, j: nat)
    ensures Piece(Xor(v, w), j) == Xor32(Piece(v, j), Piece(w, j))
  {
    hide Xor32;
  }

  lemma PieceZero(j: nat)
    ensures Piece(ZERO, j) == 0
  {}

  lemma XorNothing(x: bv32)
    ensures Xor32(x, 0) == x
  {}

  lemma FlipIsXor(w: W128, m: nat)
    requires m < 128
    ensures Flip(w, m) == Xor(w, Single(m))
  {
    hide Bit, Xor32, SetPiece, Piece, Xor;
    SetIsXor(w, m / 32, Bit(m % 32));
  }

  lemma And32Laws(x: bv32, y: bv32, m: bv32)
    ensures And32(Xor32(x, y), m) == Xor32(And32(x, m), And32(y, m))
    ensures And32(0, m) == 0
  {
    MaskXor(x, y, m);
  }

  lemma SelectedXor(parity: W128, v: W128, w: W128)
    ensures Selected(parity, Xor(v, w)) == Xor32(Selected(parity, v), Selected(parity, w))
  {
    hide Xor32, And32;
    var p := parity;
    And32Laws(v.u0, w.u0, p.u0);
    And32Laws(v.u1, w.u1, p.u1);
    And32Laws(v.u2, w.u2, p.u2);
    And32Laws(v.u3, w.u3, p.u3);
    var v0, w0 := And32(v.u0, p.u0), And32(w.u0, p.u0);
    XorPairs32(v0, w0, And32(v.u1, p.u1), And32(w.u1, p.u1));
    var v1, w1 := Xor32(v0, And32(v.u1, p.u1)), Xor32(w0, And32(w.u1, p.u1));
    XorPairs32(v1, w1, And32(v.u2, p.u2), And32(w.u2, p.u2));
    var v2, w2 := Xor32(v1, And32(v.u2, p.u2)), Xor32(w1, And32(w.u2, p.u2));
    XorPairs32(v2, w2, And32(v.u3, p.u3), And32(w.u3, p.u3));
  }

  lemma SelectedSet(parity: W128, k: nat, b: bv32)
    ensures Selected(parity, SetPiece(ZERO, k, b)) == And32(b, Piece(parity, k))
  {
    hide Xor32, And32;
    And32Laws(0, 0, parity.u0);
    And32Laws(0, 0, parity.u1);
    And32Laws(0, 0, parity.u2);
    And32Laws(0, 0, parity.u3);
    Xor32Unit(0);
    Xor32Unit(And32(b, Piece(parity, k)));
  }

  lemma SelectedSingle(parity: W128, m: nat)
    requires m < 128
    ensures Selected(parity, Single(m)) == And32(Bit(m % 32), Piece(parity, m / 32))
  {
    hide Xor32, And32, Bit, SetPiece, Piece, Selected;
    SelectedSet(parity, m / 32, Bit(m % 32));
  }

  /** Flipping a bit the parity vector selects changes the inner product. */
  lemma FlipChangesInner(parity: W128, w: W128, m: nat)
    requires m < 128 && And32(Bit(m % 32), Piece(parity, m / 32)) != 0
    ensures Inner(parity, Flip(w, m)) == Xor32(Inner(parity, w), 1)
  {
    hide Xor32, And32, Bit, Selected, Odd, Flip, Single;
    FlipIsXor(w, m);
    SelectedXor(parity, w, Single(m));
    SelectedSingle(parity, m);
    OneBit(m % 32, Piece(parity, m / 32));
    OddXor(Selected(parity, w), Bit(m % 32), 32);
    OddBit(m % 32, 32);
  }

  lemma NoBitIn(parity: W128, i: nat)
    requires FirstBit(parity, 0) == 128 && i < 4
    ensures Piece(parity, i) == 0
  {
    hide And32, Bit, Piece;
    forall j | 0 <= j < 32 ensures And32(Bit(j), Piece(parity, i)) == 0 {
      assert (32 * i + j) % 32 == j && (32 * i + j) / 32 == i;
    }
    NoBits(Piece(parity, i));
  }

  lemma NoFirstBit(parity: W128)
    ensures FirstBit(parity, 0) == 128 <==> parity == ZERO
  {
    hide And32, Bit, FirstBit;
    if FirstBit(parity, 0) == 128 {
      NoBitIn(parity, 0);
      NoBitIn(parity, 1);
      NoBitIn(parity, 2);
      NoBitIn(parity, 3);
    } else if parity == ZERO {
      And32Zero(Bit(FirstBit(parity, 0) % 32));
    }
  }

  lemma And32Zero(x: bv32)
    ensures And32(x, 0) == 0
  {}

  lemma {:induction false} OddIsBit(x: bv32, n: nat)
    ensures Odd(x, n) == 0 || Odd(x, n) == 1
    decreases n
  {
    hide Half;
    if n > 0 { OddIsBit(Half(x), n - 1); }
  }

  lemma ZeroInner(parity: W128)
    ensures Inner(parity, ZERO) == 0
  {
    hide Xor32, And32, Odd;
    And32Laws(0, 0, parity.u0);
    And32Laws(0, 0, parity.u1);
    And32Laws(0, 0, parity.u2);
    And32Laws(0, 0, parity.u3);
    XorZero();
    OddZero(32);
  }

  /** After certification the inner product is 1, unless it was not and the parity vector is
      zero; the first bit the parity vector selects has changed, and no other, or none at all if the
      inner product was 1 already. */
  lemma CertifiedInner(parity: W128, w: W128)
    ensures Inner(parity, Certified(parity, w)) == 1 <==> Inner(parity, w) == 1 || parity != ZERO
    ensures Inner(parity, w) == 1 ==> Certified(parity, w) == w
    ensures Inner(parity, w) != 1 && parity != ZERO ==>
      FirstBit(parity, 0) < 128 && Certified(parity, w) == Xor(w, Single(FirstBit(parity, 0)))
    ensures parity == ZERO ==> Certified(parity, w) == w
    ensures Inner(parity, Certified(parity, w)) == 1 ==> Certified(parity, w) != ZERO
  {
    hide Xor32, And32, Bit, Selected, Odd, Flip, Single, Xor, Piece;
    NoFirstBit(parity);
    ZeroInner(parity);
    OddIsBit(Selected(parity, w), 32);
    var m := FirstBit(parity, 0);
    if m < 128 {
      FlipChangesInner(parity, w, m);
      FlipIsXor(w, m);
      Xor32Unit(1);
    }
  }
}
