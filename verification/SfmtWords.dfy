/** The 128-bit words of the SFMT generator and its recursion, on 32-bit pieces
    (little-endian, without SIMD). */
module SfmtWords {
  /** The parameters of a generator: state size, pick-up position, shifts, masks, parity vector.
      Shift counts are small constants; sl2 and sr2 count bytes. */
  datatype Params = Params(
    N: nat, pos1: nat, sl1: bv8, sl2: bv8, sr1: bv8, sr2: bv8,
    mask: W128, parity: W128)
  {
    predicate Valid() {
      N >= 5 && 0 < pos1 < N && sl1 < 32 && sr1 < 32 && 1 <= sl2 <= 7 && 1 <= sr2 <= 7
    }
  }

  datatype W128 = W128(u0: bv32, u1: bv32, u2: bv32, u3: bv32)

  const ZERO: W128 := W128(0, 0, 0, 0)

  function Piece(w: W128, k: nat): bv32 {
    if k == 0 then w.u0 else if k == 1 then w.u1 else if k == 2 then w.u2 else w.u3
  }

  function SetPiece(w: W128, k: nat, v: bv32): W128 {
    if k == 0 then w.(u0 := v) else if k == 1 then w.(u1 := v) else if k == 2 then w.(u2 := v) else w.(u3 := v)
  }

  lemma SetThenGet(w: W128, k: nat, v: bv32, j: nat)
    requires k < 4 && j < 4
    ensures Piece(SetPiece(w, k, v), j) == if j == k then v else Piece(w, j)
  {}

  lemma SamePieces(v: W128, w: W128)
    requires forall j :: 0 <= j < 4 ==> Piece(v, j) == Piece(w, j)
    ensures v == w
  {
    assert Piece(v, 0) == Piece(w, 0) && Piece(v, 1) == Piece(w, 1) && Piece(v, 2) == Piece(w, 2)
      && Piece(v, 3) == Piece(w, 3);
  }

  function Xor32(x: bv32, y: bv32): bv32 { x ^ y }
  function Xor64(x: bv64, y: bv64): bv64 { x ^ y }
  function Or64(x: bv64, y: bv64): bv64 { x | y }

  function Xor(a: W128, b: W128): W128 {
    W128(Xor32(a.u0, b.u0), Xor32(a.u1, b.u1), Xor32(a.u2, b.u2), Xor32(a.u3, b.u3))
  }

  // ----- 128-bit shifts -----

  function Wide(hi: bv32, lo: bv32): bv64 { ((hi as bv64) << 32) | lo as bv64 }
  function High(w: W128): bv64 { Wide(w.u3, w.u2) }
  function Low(w: W128): bv64 { Wide(w.u1, w.u0) }
  function Trunc(x: bv64): bv32 { (x & 0xffff_ffff) as bv32 }
  function Upper(x: bv64): bv32 { (x >> 32) as bv32 }

  function Pack(oh: bv64, ol: bv64): W128 { W128(Trunc(ol), Upper(ol), Trunc(oh), Upper(oh)) }

  /** Shifts by `k` bytes. */
  function Up(x: bv64, k: bv8): bv64 requires 1 <= k <= 7 { x << (k * 8) }
  function Down(x: bv64, k: bv8): bv64 requires 1 <= k <= 7 { x >> (k * 8) }

  /** The upper half of a left shift, and the lower half of a right shift. */
  function LeftHigh(th: bv64, tl: bv64, k: bv8): bv64 requires 1 <= k <= 7 { Or64(Up(th, k), Down(tl, 8 - k)) }
  function RightLow(th: bv64, tl: bv64, k: bv8): bv64 requires 1 <= k <= 7 { Or64(Down(tl, k), Up(th, 8 - k)) }

  function Lshift128(w: W128, k: bv8): W128
    requires 1 <= k <= 7
  {
    Pack(LeftHigh(High(w), Low(w), k), Up(Low(w), k))
  }

  function Rshift128(w: W128, k: bv8): W128
    requires 1 <= k <= 7
  {
    Pack(Down(High(w), k), RightLow(High(w), Low(w), k))
  }

  /** The 128-bit number a word stands for. */
  function Number(w: W128): bv128 {
    ((w.u3 as bv128) << 96) | ((w.u2 as bv128) << 64) | ((w.u1 as bv128) << 32) | w.u0 as bv128
  }

  /** `x` times 2^(8k), modulo 2^128. */
  function Times256(x: bv128, k: bv8): bv128
    requires 1 <= k <= 7
  {
    if k == 1 then x * 0x100
    else if k == 2 then x * 0x1_0000
    else if k == 3 then x * 0x100_0000
    else if k == 4 then x * 0x1_0000_0000
    else if k == 5 then x * 0x100_0000_0000
    else if k == 6 then x * 0x1_0000_0000_0000
    else x * 0x100_0000_0000_0000
  }

  /** `x` divided by 2^(8k), rounding down. */
  function Over256(x: bv128, k: bv8): bv128
    requires 1 <= k <= 7
  {
    if k == 1 then x / 0x100
    else if k == 2 then x / 0x1_0000
    else if k == 3 then x / 0x100_0000
    else if k == 4 then x / 0x1_0000_0000
    else if k == 5 then x / 0x100_0000_0000
    else if k == 6 then x / 0x1_0000_0000_0000
    else x / 0x100_0000_0000_0000
  }

  function Halves(oh: bv64, ol: bv64): bv128 { ((oh as bv128) << 64) | ol as bv128 }

  lemma PackNumber(oh: bv64, ol: bv64)
    ensures Number(Pack(oh, ol)) == Halves(oh, ol)
  {}

  lemma NumberHalves(w: W128)
    ensures Number(w) == Halves(High(w), Low(w))
  {}

  lemma UpLiterals(x: bv64)
    ensures Up(x, 1) == x << 8
    ensures Up(x, 2) == x << 16
    ensures Up(x, 3) == x << 24
    ensures Up(x, 4) == x << 32
    ensures Up(x, 5) == x << 40
    ensures Up(x, 6) == x << 48
    ensures Up(x, 7) == x << 56
  {}

  lemma DownLiterals(x: bv64)
    ensures Down(x, 1) == x >> 8
    ensures Down(x, 2) == x >> 16
    ensures Down(x, 3) == x >> 24
    ensures Down(x, 4) == x >> 32
    ensures Down(x, 5) == x >> 40
    ensures Down(x, 6) == x >> 48
    ensures Down(x, 7) == x >> 56
  {}

  lemma UpBytes(x: bv64, k: bv8)
    requires 1 <= k <= 7
    ensures Up(x, k) ==
      if k == 1 then x << 8 else if k == 2 then x << 16 else if k == 3 then x << 24 else if k == 4 then x << 32
      else if k == 5 then x << 40 else if k == 6 then x << 48 else x << 56
  {
    hide Up;
    ByteCounts(k);
    UpLiterals(x);
  }

  lemma DownBytes(x: bv64, k: bv8)
    requires 1 <= k <= 7
    ensures Down(x, k) ==
      if k == 1 then x >> 8 else if k == 2 then x >> 16 else if k == 3 then x >> 24 else if k == 4 then x >> 32
      else if k == 5 then x >> 40 else if k == 6 then x >> 48 else x >> 56
  {
    hide Down;
    ByteCounts(k);
    DownLiterals(x);
  }

  lemma ByteCounts(k: bv8)
    requires 1 <= k <= 7
    ensures k == 1 || k == 2 || k == 3 || k == 4 || k == 5 || k == 6 || k == 7
  {}

  lemma LeftBy1(th: bv64, tl: bv64)
    ensures Halves(Or64(th << 8, tl >> 56), tl << 8) == Halves(th, tl) * 0x100
  {}

  lemma LeftBy2(th: bv64, tl: bv64)
    ensures Halves(Or64(th << 16, tl >> 48), tl << 16) == Halves(th, tl) * 0x1_0000
  {}

  lemma LeftBy3(th: bv64, tl: bv64)
    ensures Halves(Or64(th << 24, tl >> 40), tl << 24) == Halves(th, tl) * 0x100_0000
  {}

  lemma LeftBy4(th: bv64, tl: bv64)
    ensures Halves(Or64(th << 32, tl >> 32), tl << 32) == Halves(th, tl) * 0x1_0000_0000
  {}

  lemma LeftBy5(th: bv64, tl: bv64)
    ensures Halves(Or64(th << 40, tl >> 24), tl << 40) == Halves(th, tl) * 0x100_0000_0000
  {}

  lemma LeftBy6(th: bv64, tl: bv64)
    ensures Halves(Or64(th << 48, tl >> 16), tl << 48) == Halves(th, tl) * 0x1_0000_0000_0000
  {}

  lemma LeftBy7(th: bv64, tl: bv64)
    ensures Halves(Or64(th << 56, tl >> 8), tl << 56) == Halves(th, tl) * 0x100_0000_0000_0000
  {}

  lemma RightBy1(th: bv64, tl: bv64)
    ensures Halves(th >> 8, Or64(tl >> 8, th << 56)) == Halves(th, tl) / 0x100
  {}

  lemma RightBy2(th: bv64, tl: bv64)
    ensures Halves(th >> 16, Or64(tl >> 16, th << 48)) == Halves(th, tl) / 0x1_0000
  {}

  lemma RightBy3(th: bv64, tl: bv64)
    ensures Halves(th >> 24, Or64(tl >> 24, th << 40)) == Halves(th, tl) / 0x100_0000
  {}

  lemma RightBy4(th: bv64, tl: bv64)
    ensures Halves(th >> 32, Or64(tl >> 32, th << 32)) == Halves(th, tl) / 0x1_0000_0000
  {}

  lemma RightBy5(th: bv64, tl: bv64)
    ensures Halves(th >> 40, Or64(tl >> 40, th << 24)) == Halves(th, tl) / 0x100_0000_0000
  {}

  lemma RightBy6(th: bv64, tl: bv64)
    ensures Halves(th >> 48, Or64(tl >> 48, th << 16)) == Halves(th, tl) / 0x1_0000_0000_0000
  {}

  lemma RightBy7(th: bv64, tl: bv64)
    ensures Halves(th >> 56, Or64(tl >> 56, th << 8)) == Halves(th, tl) / 0x100_0000_0000_0000
  {}

  lemma LeftHalves(th: bv64, tl: bv64, k: bv8)
    requires 1 <= k <= 7
    ensures Halves(LeftHigh(th, tl, k), Up(tl, k)) == Times256(Halves(th, tl), k)
  {
    hide Halves, Up, Down, Or64;
    ByteCounts(k);
    UpBytes(th, k);
    UpBytes(tl, k);
    DownBytes(tl, 8 - k);
    if k == 1 { LeftBy1(th, tl); }
    if k == 2 { LeftBy2(th, tl); }
    if k == 3 { LeftBy3(th, tl); }
    if k == 4 { LeftBy4(th, tl); }
    if k == 5 { LeftBy5(th, tl); }
    if k == 6 { LeftBy6(th, tl); }
    if k == 7 { LeftBy7(th, tl); }
  }

  lemma RightHalves(th: bv64, tl: bv64, k: bv8)
    requires 1 <= k <= 7
    ensures Halves(Down(th, k), RightLow(th, tl, k)) == Over256(Halves(th, tl), k)
  {
    hide Halves, Up, Down, Or64;
    ByteCounts(k);
    DownBytes(th, k);
    DownBytes(tl, k);
    UpBytes(th, 8 - k);
    if k == 1 { RightBy1(th, tl); }
    if k == 2 { RightBy2(th, tl); }
    if k == 3 { RightBy3(th, tl); }
    if k == 4 { RightBy4(th, tl); }
    if k == 5 { RightBy5(th, tl); }
    if k == 6 { RightBy6(th, tl); }
    if k == 7 { RightBy7(th, tl); }
  }

  /** lshift128 multiplies by 2^(8k), modulo 2^128. */
  lemma Lshift128Multiplies(w: W128, k: bv8)
    requires 1 <= k <= 7
    ensures Number(Lshift128(w, k)) == Times256(Number(w), k)
  {
    hide Number, High, Low, Pack, Up, LeftHigh, Halves, Times256;
    NumberHalves(w);
    PackNumber(LeftHigh(High(w), Low(w), k), Up(Low(w), k));
    LeftHalves(High(w), Low(w), k);
  }

  /** rshift128 is floor division by 2^(8k). */
  lemma Rshift128Divides(w: W128, k: bv8)
    requires 1 <= k <= 7
    ensures Number(Rshift128(w, k)) == Over256(Number(w), k)
  {
    hide Number, High, Low, Pack, Down, RightLow, Halves, Over256;
    NumberHalves(w);
    PackNumber(Down(High(w), k), RightLow(High(w), Low(w), k));
    RightHalves(High(w), Low(w), k);
  }

  // ----- the recursion -----

  function Shl(x: bv32, n: bv8): bv32 requires n < 32 { x << n }
  function Shr(x: bv32, n: bv8): bv32 requires n < 32 { x >> n }

  function Masked(x: bv32, mask: bv32): bv32 { x & mask }
  function Sum(a: bv32, x: bv32, b: bv32, y: bv32, d: bv32): bv32 { Xor32(Xor32(Xor32(Xor32(a, x), b), y), d) }

  /** One 32-bit piece of do_recursion. */
  function RecPiece(p: Params, mask: bv32, a: bv32, x: bv32, b: bv32, y: bv32, d: bv32): bv32
    requires p.Valid()
  {
    Sum(a, x, Masked(Shr(b, p.sr1), mask), y, Shl(d, p.sl1))
  }

  function LeftOf(p: Params, w: W128): W128 requires p.Valid() { Lshift128(w, p.sl2) }
  function RightOf(p: Params, w: W128): W128 requires p.Valid() { Rshift128(w, p.sr2) }

  /** do_recursion. */
  function Rec(p: Params, a: W128, b: W128, c: W128, d: W128): W128
    requires p.Valid()
  {
    var x, y := LeftOf(p, a), RightOf(p, c);
    W128(
      RecPiece(p, p.mask.u0, a.u0, x.u0, b.u0, y.u0, d.u0),
      RecPiece(p, p.mask.u1, a.u1, x.u1, b.u1, y.u1, d.u1),
      RecPiece(p, p.mask.u2, a.u2, x.u2, b.u2, y.u2, d.u2),
      RecPiece(p, p.mask.u3, a.u3, x.u3, b.u3, y.u3, d.u3))
  }

  // ----- linearity over GF(2) -----

  function Half(x: bv32): bv32 { x >> 1 }
  function Twice(x: bv32): bv32 { x << 1 }

  lemma HalfXor(x: bv32, y: bv32)
    ensures Half(Xor32(x, y)) == Xor32(Half(x), Half(y))
  {}

  lemma TwiceXor(x: bv32, y: bv32)
    ensures Twice(Xor32(x, y)) == Xor32(Twice(x), Twice(y))
  {}

  lemma ShrStep(x: bv32, n: bv8)
    requires 0 < n < 32
    ensures Shr(x, n) == Half(Shr(x, n - 1))
  {}

  lemma ShlStep(x: bv32, n: bv8)
    requires 0 < n < 32
    ensures Shl(x, n) == Twice(Shl(x, n - 1))
  {}

  lemma ShiftByZero(x: bv32)
    ensures Shl(x, 0) == x && Shr(x, 0) == x
  {}

  lemma {:induction false} ShlXor(x: bv32, y: bv32, n: bv8)
    requires n < 32
    ensures Shl(Xor32(x, y), n) == Xor32(Shl(x, n), Shl(y, n))
    decreases n
  {
    hide Shl, Xor32, Twice;
    if n == 0 {
      ShiftByZero(x);
      ShiftByZero(y);
      ShiftByZero(Xor32(x, y));
    } else {
      ShlXor(x, y, n - 1);
      ShlStep(x, n);
      ShlStep(y, n);
      ShlStep(Xor32(x, y), n);
      TwiceXor(Shl(x, n - 1), Shl(y, n - 1));
    }
  }

  lemma {:induction false} ShrXor(x: bv32, y: bv32, n: bv8)
    requires n < 32
    ensures Shr(Xor32(x, y), n) == Xor32(Shr(x, n), Shr(y, n))
    decreases n
  {
    hide Shr, Xor32, Half;
    if n == 0 {
      ShiftByZero(x);
      ShiftByZero(y);
      ShiftByZero(Xor32(x, y));
    } else {
      ShrXor(x, y, n - 1);
      ShrStep(x, n);
      ShrStep(y, n);
      ShrStep(Xor32(x, y), n);
      HalfXor(Shr(x, n - 1), Shr(y, n - 1));
    }
  }

  function Up1(x: bv64): bv64 { x << 8 }

  lemma Up1Xor(x: bv64, y: bv64)
    ensures Up1(Xor64(x, y)) == Xor64(Up1(x), Up1(y))
  {}

  lemma UpOnce(x: bv64)
    ensures Up(x, 1) == Up1(x)
  {}

  lemma UpStep(x: bv64, n: bv8)
    requires 1 < n <= 7
    ensures Up(x, n) == Up1(Up(x, n - 1))
  {}

  lemma {:induction false} UpXor(x: bv64, y: bv64, n: bv8)
    requires 1 <= n <= 7
    ensures Up(Xor64(x, y), n) == Xor64(Up(x, n), Up(y, n))
    decreases n
  {
    hide Up, Up1, Xor64;
    if n == 1 {
      UpOnce(x);
      UpOnce(y);
      UpOnce(Xor64(x, y));
      Up1Xor(x, y);
    } else {
      UpXor(x, y, n - 1);
      UpStep(x, n);
      UpStep(y, n);
      UpStep(Xor64(x, y), n);
      Up1Xor(Up(x, n - 1), Up(y, n - 1));
    }
  }

  function Down1(x: bv64): bv64 { x >> 8 }

  lemma Down1Xor(x: bv64, y: bv64)
    ensures Down1(Xor64(x, y)) == Xor64(Down1(x), Down1(y))
  {}

  lemma DownOnce(x: bv64)
    ensures Down(x, 1) == Down1(x)
  {}

  lemma DownStep(x: bv64, n: bv8)
    requires 1 < n <= 7
    ensures Down(x, n) == Down1(Down(x, n - 1))
  {}

  lemma {:induction false} DownXor(x: bv64, y: bv64, n: bv8)
    requires 1 <= n <= 7
    ensures Down(Xor64(x, y), n) == Xor64(Down(x, n), Down(y, n))
    decreases n
  {
    hide Down, Down1, Xor64;
    if n == 1 {
      DownOnce(x);
      DownOnce(y);
      DownOnce(Xor64(x, y));
      Down1Xor(x, y);
    } else {
      DownXor(x, y, n - 1);
      DownStep(x, n);
      DownStep(y, n);
      DownStep(Xor64(x, y), n);
      Down1Xor(Down(x, n - 1), Down(y, n - 1));
    }
  }

  /** The two parts of a shifted half do not overlap. */
  lemma PartsBits(x: bv64, y: bv64, k: bv8)
    requires 1 <= k <= 7
    ensures Up(x, k) | Down(y, 8 - k) == Up(x, k) ^ Down(y, 8 - k)
  {
    hide Up, Down;
    UpBytes(x, k);
    DownBytes(y, 8 - k);
  }

  lemma PartsXor(x: bv64, y: bv64, k: bv8)
    requires 1 <= k <= 7
    ensures Or64(Up(x, k), Down(y, 8 - k)) == Xor64(Up(x, k), Down(y, 8 - k))
  {
    hide Up, Down;
    PartsBits(x, y, k);
  }

  lemma WideXor(a: bv32, b: bv32, c: bv32, d: bv32)
    ensures Wide(Xor32(a, b), Xor32(c, d)) == Xor64(Wide(a, c), Wide(b, d))
  {}

  lemma HalvesXor(v: W128, w: W128)
    ensures High(Xor(v, w)) == Xor64(High(v), High(w)) && Low(Xor(v, w)) == Xor64(Low(v), Low(w))
  {
    hide Wide, Xor32, Xor64;
    WideXor(v.u3, w.u3, v.u2, w.u2);
    WideXor(v.u1, w.u1, v.u0, w.u0);
  }

  lemma TruncXor(x: bv64, y: bv64)
    ensures Trunc(Xor64(x, y)) == Xor32(Trunc(x), Trunc(y))
  {}

  lemma UpperXor(x: bv64, y: bv64)
    ensures Upper(Xor64(x, y)) == Xor32(Upper(x), Upper(y))
  {}

  lemma PackXor(x: bv64, y: bv64, x': bv64, y': bv64)
    ensures Pack(Xor64(x, x'), Xor64(y, y')) == Xor(Pack(x, y), Pack(x', y'))
  {
    hide Trunc, Upper, Xor32, Xor64;
    TruncXor(x, x');
    TruncXor(y, y');
    UpperXor(x, x');
    UpperXor(y, y');
  }

  lemma XorPairs(a: bv64, b: bv64, c: bv64, d: bv64)
    ensures Xor64(Xor64(a, b), Xor64(c, d)) == Xor64(Xor64(a, c), Xor64(b, d))
    ensures Or64(a, b) == Or64(b, a)
  {}

  lemma LeftHighXor(th: bv64, tl: bv64, th': bv64, tl': bv64, k: bv8)
    requires 1 <= k <= 7
    ensures LeftHigh(Xor64(th, th'), Xor64(tl, tl'), k) == Xor64(LeftHigh(th, tl, k), LeftHigh(th', tl', k))
  {
    hide Up, Down, Xor64, Or64;
    PartsXor(th, tl, k);
    PartsXor(th', tl', k);
    PartsXor(Xor64(th, th'), Xor64(tl, tl'), k);
    UpXor(th, th', k);
    DownXor(tl, tl', 8 - k);
    XorPairs(Up(th, k), Up(th', k), Down(tl, 8 - k), Down(tl', 8 - k));
  }

  lemma RightIsLeft(th: bv64, tl: bv64, k: bv8)
    requires 1 <= k <= 7
    ensures RightLow(th, tl, k) == LeftHigh(th, tl, 8 - k)
  {
    hide Up, Down, Or64;
    XorPairs(Down(tl, k), Up(th, 8 - k), 0, 0);
    assert 8 - (8 - k) == k;
  }

  lemma RightLowXor(th: bv64, tl: bv64, th': bv64, tl': bv64, k: bv8)
    requires 1 <= k <= 7
    ensures RightLow(Xor64(th, th'), Xor64(tl, tl'), k) == Xor64(RightLow(th, tl, k), RightLow(th', tl', k))
  {
    hide LeftHigh, RightLow, Xor64;
    RightIsLeft(th, tl, k);
    RightIsLeft(th', tl', k);
    RightIsLeft(Xor64(th, th'), Xor64(tl, tl'), k);
    LeftHighXor(th, tl, th', tl', 8 - k);
  }

  lemma Lshift128Xor(v: W128, w: W128, k: bv8)
    requires 1 <= k <= 7
    ensures Lshift128(Xor(v, w), k) == Xor(Lshift128(v, k), Lshift128(w, k))
  {
    hide High, Low, Pack, Up, LeftHigh, Xor, Xor64;
    HalvesXor(v, w);
    LeftHighXor(High(v), Low(v), High(w), Low(w), k);
    UpXor(Low(v), Low(w), k);
    PackXor(LeftHigh(High(v), Low(v), k), Up(Low(v), k), LeftHigh(High(w), Low(w), k), Up(Low(w), k));
  }

  lemma Rshift128Xor(v: W128, w: W128, k: bv8)
    requires 1 <= k <= 7
    ensures Rshift128(Xor(v, w), k) == Xor(Rshift128(v, k), Rshift128(w, k))
  {
    hide High, Low, Pack, Down, RightLow, Xor, Xor64;
    HalvesXor(v, w);
    RightLowXor(High(v), Low(v), High(w), Low(w), k);
    DownXor(High(v), High(w), k);
    PackXor(Down(High(v), k), RightLow(High(v), Low(v), k), Down(High(w), k), RightLow(High(w), Low(w), k));
  }

  lemma MaskXor(x: bv32, y: bv32, m: bv32)
    ensures Masked(Xor32(x, y), m) == Xor32(Masked(x, m), Masked(y, m))
  {}

  lemma SumXor(a: bv32, x: bv32, b: bv32, y: bv32, d: bv32, a': bv32, x': bv32, b': bv32, y': bv32, d': bv32)
    ensures Sum(Xor32(a, a'), Xor32(x, x'), Xor32(b, b'), Xor32(y, y'), Xor32(d, d'))
         == Xor32(Sum(a, x, b, y, d), Sum(a', x', b', y', d'))
  {
    hide Xor32;
    XorPairs32(a, a', x, x');
    var s, s' := Xor32(a, x), Xor32(a', x');
    XorPairs32(s, s', b, b');
    s, s' := Xor32(s, b), Xor32(s', b');
    XorPairs32(s, s', y, y');
    s, s' := Xor32(s, y), Xor32(s', y');
    XorPairs32(s, s', d, d');
  }

  lemma XorPairs32(a: bv32, b: bv32, c: bv32, d: bv32)
    ensures Xor32(Xor32(a, b), Xor32(c, d)) == Xor32(Xor32(a, c), Xor32(b, d))
  {
    hide Xor32;
    Xor32Laws(a, b, Xor32(c, d));
    Xor32Laws(b, c, d);
    Xor32Laws(c, b, d);
    Xor32Laws(a, c, Xor32(b, d));
  }

  lemma Xor32Laws(a: bv32, b: bv32, c: bv32)
    ensures Xor32(a, b) == Xor32(b, a)
    ensures Xor32(Xor32(a, b), c) == Xor32(a, Xor32(b, c))
  {}

  lemma RecPieceXor(p: Params, m: bv32, a: bv32, x: bv32, b: bv32, y: bv32, d: bv32, a': bv32, x': bv32, b': bv32,
      y': bv32, d': bv32)
    requires p.Valid()
    ensures RecPiece(p, m, Xor32(a, a'), Xor32(x, x'), Xor32(b, b'), Xor32(y, y'), Xor32(d, d'))
         == Xor32(RecPiece(p, m, a, x, b, y, d), RecPiece(p, m, a', x', b', y', d'))
  {
    hide Shl, Shr, Xor32, Masked, Sum;
    ShrXor(b, b', p.sr1);
    ShlXor(d, d', p.sl1);
    MaskXor(Shr(b, p.sr1), Shr(b', p.sr1), m);
    SumXor(a, x, Masked(Shr(b, p.sr1), m), y, Shl(d, p.sl1), a', x', Masked(Shr(b', p.sr1), m), y', Shl(d', p.sl1));
  }

  /** The recursion is linear. */
  lemma RecXor(p: Params, a: W128, b: W128, c: W128, d: W128, a': W128, b': W128, c': W128, d': W128)
    requires p.Valid()
    ensures Rec(p, Xor(a, a'), Xor(b, b'), Xor(c, c'), Xor(d, d')) == Xor(Rec(p, a, b, c, d), Rec(p, a', b', c', d'))
  {
    hide RecPiece, Lshift128, Rshift128, Xor32;
    Lshift128Xor(a, a', p.sl2);
    Rshift128Xor(c, c', p.sr2);
    var x, x', y, y' := Lshift128(a, p.sl2), Lshift128(a', p.sl2), Rshift128(c, p.sr2), Rshift128(c', p.sr2);
    RecPieceXor(p, p.mask.u0, a.u0, x.u0, b.u0, y.u0, d.u0, a'.u0, x'.u0, b'.u0, y'.u0, d'.u0);
    RecPieceXor(p, p.mask.u1, a.u1, x.u1, b.u1, y.u1, d.u1, a'.u1, x'.u1, b'.u1, y'.u1, d'.u1);
    RecPieceXor(p, p.mask.u2, a.u2, x.u2, b.u2, y.u2, d.u2, a'.u2, x'.u2, b'.u2, y'.u2, d'.u2);
    RecPieceXor(p, p.mask.u3, a.u3, x.u3, b.u3, y.u3, d.u3, a'.u3, x'.u3, b'.u3, y'.u3, d'.u3);
  }

  // ----- the recursion operand by operand -----

  function Xor128(x: bv128, y: bv128): bv128 { x ^ y }

  lemma NumberXor(v: W128, w: W128)
    ensures Number(Xor(v, w)) == Xor128(Number(v), Number(w))
  {
    hide Number, Halves;
    HalvesXor(v, w);
    NumberHalves(v);
    NumberHalves(w);
    NumberHalves(Xor(v, w));
    WiderXor(High(v), Low(v), High(w), Low(w));
  }

  lemma WiderXor(h: bv64, l: bv64, h': bv64, l': bv64)
    ensures Halves(Xor64(h, h'), Xor64(l, l')) == Xor128(Halves(h, l), Halves(h', l'))
  {}

  lemma NothingShifted(n: bv8)
    requires n < 32
    ensures Shl(0, n) == 0 && Shr(0, n) == 0
  {
    hide Shl, Shr, Xor32;
    ShlXor(0, 0, n);
    ShrXor(0, 0, n);
    XorSelf(Shl(0, n));
    XorSelf(Shr(0, n));
    XorSelf(0);
  }

  lemma XorSelf(x: bv32)
    ensures Xor32(x, x) == 0
  {}

  lemma ShiftsOfZero(k: bv8)
    requires 1 <= k <= 7
    ensures Lshift128(ZERO, k) == ZERO && Rshift128(ZERO, k) == ZERO
  {
    hide Lshift128, Rshift128, Xor32;
    Lshift128Xor(ZERO, ZERO, k);
    Rshift128Xor(ZERO, ZERO, k);
    XorSame(ZERO);
    XorSame(Lshift128(ZERO, k));
    XorSame(Rshift128(ZERO, k));
  }

  lemma XorSame(w: W128)
    ensures Xor(w, w) == ZERO
  {
    hide Xor32;
    XorSelf(w.u0);
    XorSelf(w.u1);
    XorSelf(w.u2);
    XorSelf(w.u3);
  }

  lemma XorZero(x: bv32)
    ensures Xor32(x, 0) == x && Xor32(0, x) == x
  {}

  lemma MaskZero(m: bv32)
    ensures Masked(0, m) == 0
  {}

  lemma SumWithZeros(x: bv32, y: bv32, m: bv32)
    ensures Sum(x, y, 0, 0, 0) == Xor32(x, y) && Sum(0, 0, x, 0, 0) == x
    ensures Sum(0, 0, 0, x, 0) == x && Sum(0, 0, 0, 0, x) == x
    ensures Masked(0, m) == 0
  {
    hide Xor32, Masked;
    XorZero(x);
    XorZero(Xor32(x, y));
    XorZero(0);
    MaskZero(m);
  }

  /** A piece shifted right and masked; a piece shifted left. */
  function Down32(x: bv32, n: bv8, m: bv32): bv32 requires n < 32 { (x >> n) & m }
  function Up32(x: bv32, n: bv8): bv32 requires n < 32 { x << n }

  lemma ShiftedMasked(x: bv32, n: bv8, m: bv32)
    requires n < 32
    ensures Masked(Shr(x, n), m) == Down32(x, n, m)
  {}

  lemma ShiftedLeft(x: bv32, n: bv8)
    requires n < 32
    ensures Shl(x, n) == Up32(x, n)
  {}

  function PiecesDown(w: W128, n: bv8, m: W128): W128
    requires n < 32
  {
    W128(Down32(w.u0, n, m.u0), Down32(w.u1, n, m.u1), Down32(w.u2, n, m.u2), Down32(w.u3, n, m.u3))
  }

  function PiecesUp(w: W128, n: bv8): W128
    requires n < 32
  {
    W128(Up32(w.u0, n), Up32(w.u1, n), Up32(w.u2, n), Up32(w.u3, n))
  }

  lemma XorWithZero(w: W128)
    ensures Xor(w, ZERO) == w && Xor(ZERO, w) == w
  {}

  /** The second operand is shifted right piece by piece, and masked. */
  lemma SecondOperand(p: Params, b: W128)
    requires p.Valid()
    ensures Rec(p, ZERO, b, ZERO, ZERO) == PiecesDown(b, p.sr1, p.mask)
  {
    hide Lshift128, Rshift128, Shl, Shr, Sum, Masked, Down32;
    ShiftsOfZero(p.sl2);
    ShiftsOfZero(p.sr2);
    NothingShifted(p.sl1);
    SumWithZeros(Masked(Shr(b.u0, p.sr1), p.mask.u0), 0, 0);
    SumWithZeros(Masked(Shr(b.u1, p.sr1), p.mask.u1), 0, 0);
    SumWithZeros(Masked(Shr(b.u2, p.sr1), p.mask.u2), 0, 0);
    SumWithZeros(Masked(Shr(b.u3, p.sr1), p.mask.u3), 0, 0);
    ShiftedMasked(b.u0, p.sr1, p.mask.u0);
    ShiftedMasked(b.u1, p.sr1, p.mask.u1);
    ShiftedMasked(b.u2, p.sr1, p.mask.u2);
    ShiftedMasked(b.u3, p.sr1, p.mask.u3);
  }

  /** The fourth operand is shifted left piece by piece. */
  lemma FourthOperand(p: Params, d: W128)
    requires p.Valid()
    ensures Rec(p, ZERO, ZERO, ZERO, d) == PiecesUp(d, p.sl1)
  {
    hide Lshift128, Rshift128, Shl, Shr, Sum, Masked, Up32;
    ShiftsOfZero(p.sl2);
    ShiftsOfZero(p.sr2);
    NothingShifted(p.sr1);
    SumWithZeros(Shl(d.u0, p.sl1), 0, p.mask.u0);
    SumWithZeros(Shl(d.u1, p.sl1), 0, p.mask.u1);
    SumWithZeros(Shl(d.u2, p.sl1), 0, p.mask.u2);
    SumWithZeros(Shl(d.u3, p.sl1), 0, p.mask.u3);
    ShiftedLeft(d.u0, p.sl1);
    ShiftedLeft(d.u1, p.sl1);
    ShiftedLeft(d.u2, p.sl1);
    ShiftedLeft(d.u3, p.sl1);
  }

  /** The first operand is added to itself times 2^(8 * sl2). */
  lemma FirstOperand(p: Params, a: W128)
    requires p.Valid()
    ensures Number(Rec(p, a, ZERO, ZERO, ZERO)) == Xor128(Number(a), Times256(Number(a), p.sl2))
  {
    hide Lshift128, Rshift128, Shr, Shl, Sum, Masked, Number, Times256, Xor32, Xor128;
    ShiftsOfZero(p.sr2);
    NothingShifted(p.sr1);
    NothingShifted(p.sl1);
    var x := Lshift128(a, p.sl2);
    SumWithZeros(a.u0, x.u0, p.mask.u0);
    SumWithZeros(a.u1, x.u1, p.mask.u1);
    SumWithZeros(a.u2, x.u2, p.mask.u2);
    SumWithZeros(a.u3, x.u3, p.mask.u3);
    assert Rec(p, a, ZERO, ZERO, ZERO) == Xor(a, x);
    NumberXor(a, x);
    Lshift128Multiplies(a, p.sl2);
  }

  /** The third operand is divided by 2^(8 * sr2). */
  lemma ThirdOperand(p: Params, c: W128)
    requires p.Valid()
    ensures Number(Rec(p, ZERO, ZERO, c, ZERO)) == Over256(Number(c), p.sr2)
  {
    hide Lshift128, Rshift128, Shr, Shl, Sum, Masked, Number, Over256, Xor32;
    ShiftsOfZero(p.sl2);
    NothingShifted(p.sr1);
    NothingShifted(p.sl1);
    var y := Rshift128(c, p.sr2);
    SumWithZeros(y.u0, 0, p.mask.u0);
    SumWithZeros(y.u1, 0, p.mask.u1);
    SumWithZeros(y.u2, 0, p.mask.u2);
    SumWithZeros(y.u3, 0, p.mask.u3);
    assert Rec(p, ZERO, ZERO, c, ZERO) == y;
    Rshift128Divides(c, p.sr2);
  }

  /** The four operands act independently of each other; with the lemmas on one operand alone this
      determines the recursion. */
  lemma RecSplits(p: Params, a: W128, b: W128, c: W128, d: W128)
    requires p.Valid()
    ensures Rec(p, a, b, c, d) ==
      Xor(Xor(Rec(p, a, ZERO, ZERO, ZERO), Rec(p, ZERO, b, ZERO, ZERO)),
          Xor(Rec(p, ZERO, ZERO, c, ZERO), Rec(p, ZERO, ZERO, ZERO, d)))
  {
    hide Rec, Xor;
    XorWithZero(a);
    XorWithZero(b);
    XorWithZero(c);
    XorWithZero(d);
    XorWithZero(ZERO);
    RecXor(p, a, ZERO, ZERO, ZERO, ZERO, b, ZERO, ZERO);
    RecXor(p, ZERO, ZERO, c, ZERO, ZERO, ZERO, ZERO, d);
    RecXor(p, a, b, ZERO, ZERO, ZERO, ZERO, c, d);
  }

  /** The whole recursion as one equation on 128-bit numbers. */
  lemma RecNumber(p: Params, a: W128, b: W128, c: W128, d: W128)
    requires p.Valid()
    ensures Number(Rec(p, a, b, c, d)) ==
      Xor128(Xor128(Xor128(Number(a), Times256(Number(a), p.sl2)), Number(PiecesDown(b, p.sr1, p.mask))),
             Xor128(Over256(Number(c), p.sr2), Number(PiecesUp(d, p.sl1))))
  {
    hide Rec, Xor, Number, Times256, Over256, Xor128, PiecesDown, PiecesUp;
    RecSplits(p, a, b, c, d);
    FirstOperand(p, a);
    SecondOperand(p, b);
    ThirdOperand(p, c);
    FourthOperand(p, d);
    NumberXor(Rec(p, a, ZERO, ZERO, ZERO), Rec(p, ZERO, b, ZERO, ZERO));
    NumberXor(Rec(p, ZERO, ZERO, c, ZERO), Rec(p, ZERO, ZERO, ZERO, d));
    NumberXor(Xor(Rec(p, a, ZERO, ZERO, ZERO), Rec(p, ZERO, b, ZERO, ZERO)),
              Xor(Rec(p, ZERO, ZERO, c, ZERO), Rec(p, ZERO, ZERO, ZERO, d)));
  }
}
