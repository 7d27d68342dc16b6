/** Initialising a generator: the state array seen as 32-bit words, filled and certified. */
module SfmtSeeding {
  import opened SfmtWords
  import opened SfmtStream
  import opened SfmtGenerator
  import opened SfmtParity
  import opened SfmtMixing
  import opened SfmtIntegers

  /** The words of a state as the 32-bit words psfmt32 points to. */
  function Flat(ws: seq<W128>): (s: seq<bv32>)
    ensures |s| == 4 * |ws|
    ensures forall n :: 0 <= n < |s| ==> s[n] == Piece(ws[n / 4], n % 4)
  {
    seq(4 * |ws|, n requires 0 <= n < 4 * |ws| => Piece(ws[n / 4], n % 4))
  }

  function Grouped(s: seq<bv32>): (ws: seq<W128>)
    ensures |ws| == |s| / 4
    ensures forall i :: 0 <= i < |ws| ==> ws[i] == W128(s[4 * i], s[4 * i + 1], s[4 * i + 2], s[4 * i + 3])
  {
    seq(|s| / 4, i requires 0 <= i < |s| / 4 => W128(s[4 * i], s[4 * i + 1], s[4 * i + 2], s[4 * i + 3]))
  }

  lemma GroupedFlat(ws: seq<W128>)
    ensures Grouped(Flat(ws)) == ws
  {
    hide Piece;
    forall i | 0 <= i < |ws| ensures Grouped(Flat(ws))[i] == ws[i] {
      PiecesOf(ws[i]);
      assert (4 * i) / 4 == i && (4 * i) % 4 == 0;
      assert (4 * i + 1) / 4 == i && (4 * i + 1) % 4 == 1;
      assert (4 * i + 2) / 4 == i && (4 * i + 2) % 4 == 2;
      assert (4 * i + 3) / 4 == i && (4 * i + 3) % 4 == 3;
    }
  }

  lemma PiecesOf(w: W128)
    ensures w == W128(Piece(w, 0), Piece(w, 1), Piece(w, 2), Piece(w, 3))
  {}

  lemma FlatSet(ws: seq<W128>, n: nat, v: bv32)
    requires n < 4 * |ws|
    ensures Flat(ws[n / 4 := SetPiece(ws[n / 4], n % 4, v)]) == Flat(ws)[n := v]
  {
    hide Piece, SetPiece;
    var ws' := ws[n / 4 := SetPiece(ws[n / 4], n % 4, v)];
    forall m | 0 <= m < 4 * |ws| ensures Flat(ws')[m] == Flat(ws)[n := v][m] {
      SetThenGet(ws[n / 4], n % 4, v, m % 4);
    }
  }

  /** psfmt32[n]. */
  function Get(state: array<W128>, n: nat): (v: bv32)
    requires n < 4 * state.Length
    reads state
    ensures v == Flat(state[..])[n]
  {
    Piece(state[n / 4], n % 4)
  }

  /** psfmt32[n] = v. */
  method Set(state: array<W128>, n: nat, v: bv32)
    requires n < 4 * state.Length
    modifies state
    ensures Flat(state[..]) == old(Flat(state[..]))[n := v]
  {
    hide Piece, SetPiece, Flat;
    FlatSet(state[..], n, v);
    ghost var ws := state[..];
    state[n / 4] := SetPiece(state[n / 4], n % 4, v);
    assert state[..] == ws[n / 4 := SetPiece(ws[n / 4], n % 4, v)];
  }

  // ----- certification -----

  /** The state after period_certification. */
  function Certify(p: Params, ws: seq<W128>): seq<W128>
    requires |ws| > 0
  {
    ws[0 := Certified(p.parity, ws[0])]
  }

  /** The selected bits, folded by 16, 8, 4, 2 and 1. */
  method InnerProduct(parity: W128, w: W128) returns (inner: bv32)
    ensures inner == Inner(parity, w)
  {
    hide Xor32, And32, Odd, Shr, LowBit;
    inner := 0;
    Xor32Unit(And32(w.u0, parity.u0));
    for i := 0 to 4
      invariant inner == (if i == 0 then 0 else if i == 1 then And32(w.u0, parity.u0)
        else if i == 2 then Xor32(And32(w.u0, parity.u0), And32(w.u1, parity.u1))
        else if i == 3 then Xor32(Xor32(And32(w.u0, parity.u0), And32(w.u1, parity.u1)), And32(w.u2, parity.u2))
        else Selected(parity, w))
    {
      inner := Xor32(inner, And32(Piece(w, i), Piece(parity, i)));
    }
    inner := Folded(inner);
    inner := LowBit(inner);
  }

  method Folded(x: bv32) returns (inner: bv32)
    ensures LowBit(inner) == Odd(x, 32)
  {
    hide Xor32, Odd, Shr, LowBit;
    inner := x;
    ghost var y1 := Xor32(x, Shr(x, 16));
    ghost var y2 := Xor32(y1, Shr(y1, 8));
    ghost var y3 := Xor32(y2, Shr(y2, 4));
    ghost var y4 := Xor32(y3, Shr(y3, 2));
    ghost var y5 := Xor32(y4, Shr(y4, 1));
    FoldsToOdd(x, y1, y2, y3, y4, y5);
    var i: bv8 := 16;
    while i > 0
      invariant (i == 16 && inner == x) || (i == 8 && inner == y1) || (i == 4 && inner == y2)
             || (i == 2 && inner == y3) || (i == 1 && inner == y4) || (i == 0 && inner == y5)
      decreases i
    {
      inner := Xor32(inner, Shr(inner, i));
      i := i >> 1;
    }
  }

  /** period_certification. */
  method PeriodCertification(g: Sfmt)
    requires g.Valid()
    modifies g.state
    ensures g.state[..] == Certify(g.p, old(g.state[..]))
  {
    hide Params.Valid, Inner, Bit, And32, Xor32, Piece, SetPiece, FirstBit, Flip;
    SizesOk(g.p);
    var parity := g.p.parity;
    ghost var ws := g.state[..];
    var inner := InnerProduct(parity, g.state[0]);
    if inner == 1 { return; }
    for i := 0 to 4
      invariant FirstBit(parity, 0) == FirstBit(parity, 32 * i) && g.state[..] == ws
    {
      var work: bv32 := 1;
      BitSteps(0);
      for j := 0 to 32
        invariant FirstBit(parity, 0) == FirstBit(parity, 32 * i + j) && g.state[..] == ws
        invariant j < 32 ==> work == Bit(j)
      {
        FirstBitStep(parity, i, j);
        if And32(work, Piece(parity, i)) != 0 {
          FlipAt(ws[0], i, j);
          g.state[0] := SetPiece(g.state[0], i, Xor32(Piece(g.state[0], i), work));
          return;
        }
        BitSteps(j);
        work := Shl(work, 1);
      }
    }
  }

  /** A certified state is never all zero, provided the parity vector is not. */
  lemma CertifyNonzero(p: Params, ws: seq<W128>)
    requires |ws| > 0 && p.parity != ZERO
    ensures Inner(p.parity, Certify(p, ws)[0]) == 1 && Certify(p, ws)[0] != ZERO
  {
    hide Inner, Certified;
    CertifiedInner(p.parity, ws[0]);
  }

  // ----- seeding by one number -----

  /** Word `i` of the state sfmt_init_gen_rand fills. */
  function SeedWord(seed: bv32, i: nat): bv32 {
    if i == 0 then seed
    else Add32(Mul32(Xor32(SeedWord(seed, i - 1), Shr(SeedWord(seed, i - 1), 30)), 1812433253), U32(i))
  }

  function SeedWords(seed: bv32, n: nat): (s: seq<bv32>)
    ensures |s| == n
  {
    seq(n, i requires 0 <= i < n => SeedWord(seed, i))
  }

  lemma SeedNext(seed: bv32, i: nat)
    requires i > 0
    ensures SeedWord(seed, 0) == seed
    ensures SeedWord(seed, i) ==
      Add32(Mul32(Xor32(SeedWord(seed, i - 1), Shr(SeedWord(seed, i - 1), 30)), 1812433253), U32(i))
  {
    hide Xor32, Add32, Mul32, Shr, U32;
  }

  /** The loop of sfmt_init_gen_rand. */
  method FillSeeds(state: array<W128>, seed: bv32)
    requires state.Length > 0
    modifies state
    ensures Flat(state[..]) == SeedWords(seed, 4 * state.Length)
  {
    hide Xor32, Add32, Mul32, Shr, U32, Flat, Piece, SeedWord;
    Set(state, 0, seed);
    SeedNext(seed, 1);
    for i := 1 to 4 * state.Length
      invariant forall k :: 0 <= k < i ==> Flat(state[..])[k] == SeedWord(seed, k)
    {
      var last := Get(state, i - 1);
      SeedNext(seed, i);
      Set(state, i, Add32(Mul32(Xor32(last, Shr(last, 30)), 1812433253), U32(i)));
    }
  }

  /** sfmt_init_gen_rand. */
  method InitGenRand(g: Sfmt, seed: bv32)
    requires g.Valid()
    modifies g`idx, g.state
    ensures g.Valid() && g.idx == 4 * g.p.N
    ensures g.p.N >= 5 && g.state[..] == Certify(g.p, Grouped(SeedWords(seed, 4 * g.p.N)))
    ensures g.p.parity != ZERO ==> Inner(g.p.parity, g.state[0]) == 1 && g.state[0] != ZERO
  {
    hide Params.Valid, Flat, Grouped, Certify, Inner, SeedWords;
    SizesOk(g.p);
    FillSeeds(g.state, seed);
    g.idx := 4 * g.p.N;
    ghost var ws := g.state[..];
    GroupedFlat(ws);
    PeriodCertification(g);
    CertifiedState(g.p, g.state[..], ws);
  }

  // ----- seeding by an array -----

  /** The state memset leaves. */
  function Filled(n: nat): (s: State32)
    requires n >= 20
    ensures |s| == n && forall k :: 0 <= k < n ==> s[k] == 0x8b8b8b8b
  {
    seq(n, _ => 0x8b8b8b8b)
  }

  /** The body of the first two loops; also, at index 0, the step before them. */
  method MixAdd(state: array<W128>, i: nat, inc: bv32)
    requires state.Length >= 5 && i < 4 * state.Length
    modifies state
    ensures Flat(state[..]) == RoundAdd(old(Flat(state[..])), i, inc)
  {
    hide Flat, Func1, Xor32, Add32, Piece;
    var n := 4 * state.Length;
    var mid, lag := Mid(n), Lag(n);
    var r := Func1(Xor32(Xor32(Get(state, i), Get(state, (i + mid) % n)), Get(state, (i + n - 1) % n)));
    Set(state, (i + mid) % n, Add32(Get(state, (i + mid) % n), r));
    r := Add32(r, inc);
    Set(state, (i + mid + lag) % n, Add32(Get(state, (i + mid + lag) % n), r));
    Set(state, i, r);
  }

  /** The body of the third loop. */
  method MixXor(state: array<W128>, i: nat, dec: bv32)
    requires state.Length >= 5 && i < 4 * state.Length
    modifies state
    ensures Flat(state[..]) == RoundXor(old(Flat(state[..])), i, dec)
  {
    hide Flat, Func2, Xor32, Add32, Sub32, Piece;
    var n := 4 * state.Length;
    var mid, lag := Mid(n), Lag(n);
    var r := Func2(Add32(Add32(Get(state, i), Get(state, (i + mid) % n)), Get(state, (i + n - 1) % n)));
    Set(state, (i + mid) % n, Xor32(Get(state, (i + mid) % n), r));
    r := Sub32(r, dec);
    Set(state, (i + mid + lag) % n, Xor32(Get(state, (i + mid + lag) % n), r));
    Set(state, i, r);
  }

  /** The first two loops of sfmt_init_by_array; returns the index they end at. */
  method MixAllKeys(state: array<W128>, keys: seq<bv32>) returns (i: nat)
    requires state.Length >= 5
    modifies state
    ensures Flat(state[..]) == MixKeys(old(Flat(state[..])), 1, Padded(4 * state.Length, keys))
    ensures i == Wrap(1 + |Padded(4 * state.Length, keys)|, 4 * state.Length)
  {
    hide Flat, RoundAdd, U32, Add32, MixKeys, Wrap;
    var n := 4 * state.Length;
    var count := if |keys| + 1 > n then |keys| + 1 else n;
    ghost var rounds := Padded(n, keys);
    ghost var s1: State32 := Flat(state[..]);
    MixNothing(s1, rounds);
    WrapSmall(1, n);
    count := count - 1;
    var j := 0;
    i := 1;
    while j < count && j < |keys|
      invariant 0 <= j <= |keys| && i == Wrap(1 + j, n) && Flat(state[..]) == MixKeys(s1, 1, rounds[..j])
    {
      MixStep(s1, rounds, j);
      MixAdd(state, i, Add32(keys[j], U32(i)));
      WrapNext(1 + j, n);
      i := Wrap(i + 1, n);
      j := j + 1;
    }
    while j < count
      invariant |keys| <= j <= count && i == Wrap(1 + j, n) && Flat(state[..]) == MixKeys(s1, 1, rounds[..j])
    {
      MixStep(s1, rounds, j);
      AddZero(U32(i));
      MixAdd(state, i, U32(i));
      WrapNext(1 + j, n);
      i := Wrap(i + 1, n);
      j := j + 1;
    }
    assert rounds[..j] == rounds;
  }

  /** The third loop of sfmt_init_by_array. */
  method MixAllDown(state: array<W128>, start: nat)
    requires state.Length >= 5 && start < 4 * state.Length
    modifies state
    ensures Flat(state[..]) == MixDown(old(Flat(state[..])), start, 4 * state.Length)
  {
    hide Flat, RoundXor, U32, MixDown, Wrap;
    var n := 4 * state.Length;
    ghost var s2: State32 := Flat(state[..]);
    DownNothing(s2, start);
    WrapSmall(start, n);
    var i, j := start, 0;
    while j < n
      invariant 0 <= j <= n && i == Wrap(start + j, n) && Flat(state[..]) == MixDown(s2, start, j)
    {
      DownStep(s2, start, j);
      MixXor(state, i, U32(i));
      WrapNext(start + j, n);
      i := Wrap(i + 1, n);
      j := j + 1;
    }
  }

  lemma CertifiedState(p: Params, state: seq<W128>, ws: seq<W128>)
    requires |ws| > 0 && state == Certify(p, ws)
    ensures p.parity != ZERO ==> Inner(p.parity, state[0]) == 1 && state[0] != ZERO
  {
    hide Inner, Certify;
    if p.parity != ZERO { CertifyNonzero(p, ws); }
  }

  lemma SeededIs(s: State32, keys: seq<bv32>)
    ensures
      var n, rounds := |s|, Padded(|s|, keys);
      Seeded(s, keys) == MixDown(MixKeys(RoundAdd(s, 0, U32(|keys|)), 1, rounds), Wrap(1 + |rounds|, n), n)
  {}

  /** sfmt_init_by_array. */
  method InitByArray(g: Sfmt, keys: seq<bv32>)
    requires g.Valid()
    modifies g`idx, g.state
    ensures g.Valid() && g.idx == 4 * g.p.N
    ensures g.p.N >= 5 && g.state[..] == Certify(g.p, Grouped(Seeded(Filled(4 * g.p.N), keys)))
    ensures g.p.parity != ZERO ==> Inner(g.p.parity, g.state[0]) == 1 && g.state[0] != ZERO
  {
    hide Params.Valid, Flat, Grouped, Certify, Seeded, RoundAdd, MixKeys, MixDown, U32, Padded, Filled, Inner;
    SizesOk(g.p);
    SeededIs(Filled(4 * g.p.N), keys);
    FillState(g.state);
    MixAdd(g.state, 0, U32(|keys|));
    var i := MixAllKeys(g.state, keys);
    MixAllDown(g.state, i);
    g.idx := 4 * g.p.N;
    ghost var ws := g.state[..];
    GroupedFlat(ws);
    PeriodCertification(g);
    CertifiedState(g.p, g.state[..], ws);
  }

  /** memset(sfmt, 0x8b, sizeof(sfmt_t)) on the state words. */
  method FillState(state: array<W128>)
    requires state.Length >= 5
    modifies state
    ensures Flat(state[..]) == Filled(4 * state.Length)
  {
    hide Flat, Piece;
    for n := 0 to 4 * state.Length
      invariant forall k :: 0 <= k < n ==> Flat(state[..])[k] == 0x8b8b8b8b
    {
      Set(state, n, 0x8b8b8b8b);
    }
  }

  lemma MixStep(s1: State32, rounds: seq<bv32>, j: nat)
    requires j < |rounds|
    ensures MixKeys(s1, 1, rounds[..j + 1]) ==
      RoundAdd(MixKeys(s1, 1, rounds[..j]), Wrap(1 + j, |s1|), Add32(rounds[j], U32(Wrap(1 + j, |s1|))))
  {
    hide RoundAdd, U32, Add32;
    assert rounds[..j + 1][..j] == rounds[..j];
  }

  lemma DownNothing(s2: State32, start: nat)
    requires start < |s2|
    ensures MixDown(s2, start, 0) == s2
  {}

  lemma DownStep(s2: State32, start: nat, j: nat)
    requires start < |s2|
    ensures MixDown(s2, start, j + 1) ==
      RoundXor(MixDown(s2, start, j), Wrap(start + j, |s2|), U32(Wrap(start + j, |s2|)))
  {
    hide RoundXor, U32;
  }

  lemma MixNothing(s1: State32, rounds: seq<bv32>)
    ensures MixKeys(s1, 1, rounds[..0]) == s1
  {}

  lemma {:induction false} WrapNext(a: nat, n: nat)
    requires n > 0
    ensures Wrap(Wrap(a, n) + 1, n) == Wrap(a + 1, n)
  {
    if a >= n {
      WrapNext(a - n, n);
      WrapLess(a, n);
      WrapLess(a + 1, n);
    } else {
      WrapSmall(a, n);
    }
  }

  lemma WrapLess(a: nat, n: nat)
    requires 0 < n <= a
    ensures Wrap(a, n) == Wrap(a - n, n)
  {
    var q, r, q', r' := a / n, a % n, (a - n) / n, (a - n) % n;
    assert a == n * q + r && a - n == n * q' + r';
    assert n * (q - 1 - q') == n * q - n - n * q';
    Multiple(n, q - 1 - q');
  }

  lemma Multiple(n: nat, x: int)
    ensures x >= 1 ==> n * x >= n
    ensures x <= -1 ==> n * x <= -(n as int)
  {}

  lemma WrapSmall(a: nat, n: nat)
    requires a < n
    ensures Wrap(a, n) == a
  {}

  lemma AddZero(x: bv32)
    ensures Add32(0, x) == x
  {}
}
