/** The sequence of 128-bit words a generator produces from a state, defined by one recurrence. */
module SfmtStream {
  import opened SfmtWords

  /** Word `i` of the sequence that starts with the state itself. */
  function Block(p: Params, s: seq<W128>, i: nat): W128
    requires p.Valid() && |s| == p.N
    decreases i
  {
    if i < p.N then s[i]
    else Rec(p, Block(p, s, i - p.N), Block(p, s, i - p.N + p.pos1), Block(p, s, i - 2), Block(p, s, i - 1))
  }

  /** The state after `m` steps: N consecutive words of the sequence. */
  function Window(p: Params, s: seq<W128>, m: nat): (w: seq<W128>)
    requires p.Valid() && |s| == p.N
    ensures |w| == p.N
  {
    seq(p.N, k requires 0 <= k < p.N => Block(p, s, m + k))
  }

  /** 32-bit piece `n` of the sequence. */
  function Word(p: Params, s: seq<W128>, n: nat): bv32
    requires p.Valid() && |s| == p.N
  {
    Piece(Block(p, s, n / 4), n % 4)
  }

  lemma BlockStart(p: Params, s: seq<W128>, i: nat)
    requires p.Valid() && |s| == p.N && i < p.N
    ensures Block(p, s, i) == s[i]
  {}

  lemma BlockStep(p: Params, s: seq<W128>, i: nat)
    requires p.Valid() && |s| == p.N
    ensures Block(p, s, p.N + i) ==
      Rec(p, Block(p, s, i), Block(p, s, i + p.pos1), Block(p, s, p.N + i - 2), Block(p, s, p.N + i - 1))
  {
    hide Rec;
  }

  lemma SizesOk(p: Params)
    requires p.Valid()
    ensures p.N >= 5 && 0 < p.pos1 < p.N
  {}

  /** The sequence goes on from any of its windows. */
  lemma {:induction false} WindowContinues(p: Params, s: seq<W128>, m: nat, i: nat)
    requires p.Valid() && |s| == p.N
    ensures Block(p, Window(p, s, m), i) == Block(p, s, m + i)
    decreases i
  {
    hide Rec;
    if i >= p.N {
      WindowContinues(p, s, m, i - p.N);
      WindowContinues(p, s, m, i - p.N + p.pos1);
      WindowContinues(p, s, m, i - 2);
      WindowContinues(p, s, m, i - 1);
    }
  }

  lemma WordContinues(p: Params, s: seq<W128>, m: nat, n: nat)
    requires p.Valid() && |s| == p.N
    ensures Word(p, Window(p, s, m), n) == Word(p, s, 4 * m + n)
  {
    WindowContinues(p, s, m, n / 4);
    assert (4 * m + n) / 4 == m + n / 4 && (4 * m + n) % 4 == n % 4;
  }

  function XorAll(s: seq<W128>, t: seq<W128>): (r: seq<W128>)
    requires |s| == |t|
    ensures |r| == |s|
  {
    seq(|s|, k requires 0 <= k < |s| => Xor(s[k], t[k]))
  }

  /** Every word of the sequence is a linear function of the state. */
  lemma {:induction false} BlockLinear(p: Params, s: seq<W128>, t: seq<W128>, i: nat)
    requires p.Valid() && |s| == p.N && |t| == p.N
    ensures Block(p, XorAll(s, t), i) == Xor(Block(p, s, i), Block(p, t, i))
    decreases i
  {
    hide Rec, Xor;
    if i >= p.N {
      var a, b, c, d := i - p.N, i - p.N + p.pos1, i - 2, i - 1;
      BlockLinear(p, s, t, a);
      BlockLinear(p, s, t, b);
      BlockLinear(p, s, t, c);
      BlockLinear(p, s, t, d);
      RecXor(p, Block(p, s, a), Block(p, s, b), Block(p, s, c), Block(p, s, d),
             Block(p, t, a), Block(p, t, b), Block(p, t, c), Block(p, t, d));
    }
  }

  /** Whole-state transitions are linear over GF(2). */
  lemma WindowLinear(p: Params, s: seq<W128>, t: seq<W128>, m: nat)
    requires p.Valid() && |s| == p.N && |t| == p.N
    ensures Window(p, XorAll(s, t), m) == XorAll(Window(p, s, m), Window(p, t, m))
  {
    hide Xor, Block;
    forall k | 0 <= k < p.N ensures Window(p, XorAll(s, t), m)[k] == XorAll(Window(p, s, m), Window(p, t, m))[k] {
      BlockLinear(p, s, t, m + k);
    }
  }

  // ----- drawing -----

  /** A generator between calls: its state array and the index of the next unused piece. */
  datatype Gen = Gen(s: seq<W128>, idx: nat)

  predicate GenOk(p: Params, g: Gen) { p.Valid() && |g.s| == p.N && g.idx <= 4 * p.N }

  /** The `t`-th 32-bit number still to come. */
  function Upcoming(p: Params, g: Gen, t: nat): bv32
    requires GenOk(p, g)
  {
    Word(p, g.s, g.idx + t)
  }

  /** sfmt_genrand_uint32. */
  function Draw(p: Params, g: Gen): (r: (Gen, bv32))
    requires GenOk(p, g)
    ensures GenOk(p, r.0)
  {
    var g1 := if g.idx >= 4 * p.N then Gen(Window(p, g.s, p.N), 0) else g;
    (Gen(g1.s, g1.idx + 1), Piece(g1.s[g1.idx / 4], g1.idx % 4))
  }

  /** `n` calls in a row, and what they return. */
  function Draws(p: Params, g: Gen, n: nat): (r: (Gen, seq<bv32>))
    requires GenOk(p, g)
    ensures GenOk(p, r.0) && |r.1| == n
  {
    if n == 0 then (g, [])
    else var (g1, out) := Draws(p, g, n - 1); var (g2, x) := Draw(p, g1); (g2, out + [x])
  }

  /** sfmt_fill_array32 with `size` numbers. */
  function Fill(p: Params, g: Gen, size: nat): (r: (Gen, seq<bv32>))
    requires GenOk(p, g)
    ensures |r.1| == size
  {
    (Gen(Window(p, g.s, size / 4), 4 * p.N), seq(size, t requires 0 <= t < size => Word(p, g.s, 4 * p.N + t)))
  }

  /** A draw returns the next number and leaves the others to come. */
  lemma DrawTakesNext(p: Params, g: Gen, t: nat)
    requires GenOk(p, g)
    ensures
      var (g', x) := Draw(p, g);
      x == Upcoming(p, g, 0) && Upcoming(p, g', t) == Upcoming(p, g, t + 1)
  {
    hide Window, Rec;
    if g.idx >= 4 * p.N {
      WordContinues(p, g.s, p.N, 0);
      WordContinues(p, g.s, p.N, t + 1);
      assert Draw(p, g).1 == Word(p, Window(p, g.s, p.N), 0);
    }
  }

  lemma {:induction false} DrawsTakeNext(p: Params, g: Gen, n: nat, t: nat)
    requires GenOk(p, g)
    ensures
      var (g', out) := Draws(p, g, n);
      && (forall k :: 0 <= k < n ==> out[k] == Upcoming(p, g, k))
      && Upcoming(p, g', t) == Upcoming(p, g, n + t)
    decreases n
  {
    hide Draw, Upcoming;
    if n > 0 {
      DrawsTakeNext(p, g, n - 1, 0);
      DrawsTakeNext(p, g, n - 1, t + 1);
      DrawTakesNext(p, Draws(p, g, n - 1).0, t);
    }
  }

  /** Filling an array yields what as many single draws yield, and so do all later draws. */
  lemma FillIsDraws(p: Params, g: Gen, size: nat, later: nat)
    requires GenOk(p, g) && g.idx == 4 * p.N && size % 4 == 0 && size >= 4 * p.N
    ensures
      var (g1, out1) := Fill(p, g, size);
      var (g2, out2) := Draws(p, g, size);
      && out1 == out2
      && Draws(p, g1, later).1 == Draws(p, g2, later).1
  {
    hide Word, Window, Draws;
    var (g1, out1) := Fill(p, g, size);
    var (g2, out2) := Draws(p, g, size);
    DrawsTakeNext(p, g, size, 0);
    DrawsTakeNext(p, g1, later, 0);
    DrawsTakeNext(p, g2, later, 0);
    forall k | 0 <= k < later ensures Draws(p, g1, later).1[k] == Draws(p, g2, later).1[k] {
      DrawsTakeNext(p, g, size, k);
      WordContinues(p, g.s, size / 4, 4 * p.N + k);
    }
  }
}
