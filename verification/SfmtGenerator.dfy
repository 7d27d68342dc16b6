/** The SFMT generator: a state array updated in place, proved against the sequence of
    SfmtStream. A word is an element of an array of four 32-bit pieces each. */
module SfmtGenerator {
  import opened SfmtWords
  import opened SfmtStream

  /** lshift128. */
  method LeftShift128(w: W128, shift: bv8) returns (out: W128)
    requires 1 <= shift <= 7
    ensures out == Lshift128(w, shift)
  {
    hide High, Low, Up, Down, Or64, Trunc, Upper;
    var th, tl := High(w), Low(w);
    var oh := Up(th, shift);
    var ol := Up(tl, shift);
    oh := Or64(oh, Down(tl, 8 - shift));
    out := W128(Trunc(ol), Upper(ol), Trunc(oh), Upper(oh));
  }

  /** rshift128. */
  method RightShift128(w: W128, shift: bv8) returns (out: W128)
    requires 1 <= shift <= 7
    ensures out == Rshift128(w, shift)
  {
    hide High, Low, Up, Down, Or64, Trunc, Upper;
    var th, tl := High(w), Low(w);
    var oh := Down(th, shift);
    var ol := Down(tl, shift);
    ol := Or64(ol, Up(th, 8 - shift));
    out := W128(Trunc(ol), Upper(ol), Trunc(oh), Upper(oh));
  }

  /** The two shifted words of the recursion. */
  method Shifted(p: Params, a: W128, c: W128) returns (x: W128, y: W128)
    requires p.Valid()
    ensures x == LeftOf(p, a) && y == RightOf(p, c)
  {
    x := LeftShift128(a, p.sl2);
    y := RightShift128(c, p.sr2);
  }

  /** Pieces `k` and up of `w` are those of `w0`. */
  predicate Rest(w: W128, w0: W128, k: nat) { forall j :: k <= j < 4 ==> Piece(w, j) == Piece(w0, j) }

  /** Pieces below `k` of `w` are those of `w0`. */
  predicate Done(w: W128, w0: W128, k: nat) { forall j :: 0 <= j < k ==> Piece(w, j) == Piece(w0, j) }

  /** Piece `k` of the recursion. */
  function RecAt(p: Params, k: nat, a: W128, x: W128, b: W128, y: W128, d: W128): bv32
    requires p.Valid()
  {
    RecPiece(p, Piece(p.mask, k), Piece(a, k), Piece(x, k), Piece(b, k), Piece(y, k), Piece(d, k))
  }

  /** One assignment of do_recursion. */
  method RecurPiece(p: Params, k: nat, r: array<W128>, ri: nat, a: array<W128>, ai: nat, x: W128, b: array<W128>,
      bi: nat,
                    y: W128, d: array<W128>, di: nat, ghost a0: W128, ghost b0: W128, ghost d0: W128, ghost t: W128)
    requires p.Valid() && k < 4 && ri < r.Length && ai < a.Length && bi < b.Length && di < d.Length
    requires Rest(a[ai], a0, k) && Rest(b[bi], b0, k) && Rest(d[di], d0, k) && Done(r[ri], t, k)
    requires Piece(t, k) == RecAt(p, k, a0, x, b0, y, d0)
    modifies r
    ensures Rest(a[ai], a0, k + 1) && Rest(b[bi], b0, k + 1) && Rest(d[di], d0, k + 1) && Done(r[ri], t, k + 1)
    ensures forall i :: 0 <= i < r.Length && i != ri ==> r[i] == old(r[i])
  {
    hide Piece, SetPiece, RecPiece, Params.Valid;
    var v := RecAt(p, k, a[ai], x, b[bi], y, d[di]);
    forall j | 0 <= j < 4 ensures Piece(SetPiece(r[ri], k, v), j) == if j == k then v else Piece(r[ri], j) {
      SetThenGet(r[ri], k, v, j);
    }
    r[ri] := SetPiece(r[ri], k, v);
  }

  lemma RecPieces(p: Params, a: W128, b: W128, c: W128, d: W128, k: nat)
    requires p.Valid() && k < 4
    ensures Piece(Rec(p, a, b, c, d), k) == RecAt(p, k, a, LeftOf(p, a), b, RightOf(p, c), d)
  {
    hide RecPiece, LeftOf, RightOf, Params.Valid;
  }

  /** do_recursion, one 32-bit piece after the other; the output may be any of the inputs. */
  method DoRecursion(p: Params, r: array<W128>, ri: nat, a: array<W128>, ai: nat, b: array<W128>, bi: nat,
                     c: array<W128>, ci: nat, d: array<W128>, di: nat)
    requires p.Valid()
    requires ri < r.Length && ai < a.Length && bi < b.Length && ci < c.Length && di < d.Length
    modifies r
    ensures r[ri] == Rec(p, old(a[ai]), old(b[bi]), old(c[ci]), old(d[di]))
    ensures Number(r[ri]) ==
      Xor128(Xor128(Xor128(old(Number(a[ai])), Times256(old(Number(a[ai])), p.sl2)),
                    Number(PiecesDown(old(b[bi]), p.sr1, p.mask))),
             Xor128(Over256(old(Number(c[ci])), p.sr2), Number(PiecesUp(old(d[di]), p.sl1))))
    ensures forall i :: 0 <= i < r.Length && i != ri ==> r[i] == old(r[i])
  {
    hide LeftOf, RightOf, RecAt, Params.Valid, Rec, Rest, Number, Xor128, Times256, Over256, PiecesDown, PiecesUp;
    ghost var a0, b0, c0, d0 := a[ai], b[bi], c[ci], d[di];
    RecNumber(p, a0, b0, c0, d0);
    ghost var t := Rec(p, a0, b0, c0, d0);
    var x, y := Shifted(p, a[ai], c[ci]);
    RecPieces(p, a0, b0, c0, d0, 0);
    RecPieces(p, a0, b0, c0, d0, 1);
    RecPieces(p, a0, b0, c0, d0, 2);
    RecPieces(p, a0, b0, c0, d0, 3);
    NothingDone(a0, b0, d0, r[ri], t);
    RecurPiece(p, 0, r, ri, a, ai, x, b, bi, y, d, di, a0, b0, d0, t);
    RecurPiece(p, 1, r, ri, a, ai, x, b, bi, y, d, di, a0, b0, d0, t);
    RecurPiece(p, 2, r, ri, a, ai, x, b, bi, y, d, di, a0, b0, d0, t);
    RecurPiece(p, 3, r, ri, a, ai, x, b, bi, y, d, di, a0, b0, d0, t);
    SamePieces(r[ri], t);
  }

  lemma NothingDone(a: W128, b: W128, d: W128, r: W128, t: W128)
    ensures Rest(a, a, 0) && Rest(b, b, 0) && Rest(d, d, 0) && Done(r, t, 0)
  {}

  class Sfmt {
    const p: Params
    const state: array<W128>
    var idx: nat

    constructor (p: Params)
      requires p.Valid()
      ensures Valid() && fresh(state) && this.p == p && idx == 4 * p.N
    {
      this.p := p;
      state := new W128[p.N](_ => ZERO);
      idx := 4 * p.N;
    }

    ghost predicate Valid()
      reads this
    {
      p.Valid() && state.Length == p.N && idx <= 4 * p.N
    }

    ghost function Abs(): (g: Gen)
      requires Valid()
      reads this, state
      ensures GenOk(p, g)
    {
      Gen(state[..], idx)
    }

    /** Regeneration of `s0` has replaced the words before `i`; `r1` and `r2` are the two words
        before word N + i of the sequence. */
    ghost predicate Regenerating(s0: seq<W128>, i: nat, r1: nat, r2: nat)
      reads state
    {
      && p.Valid() && state.Length == p.N == |s0| && i <= p.N
      && r1 == (if i < 2 then p.N - 2 + i else i - 2) && r2 == (if i < 1 then p.N - 1 else i - 1)
      && (forall k :: 0 <= k < i ==> state[k] == Block(p, s0, p.N + k))
      && (forall k :: i <= k < p.N ==> state[k] == s0[k])
    }

    /** The four words a turn reads are words of the sequence. */
    lemma RegenerateReads(i: nat, b: nat, r1: nat, r2: nat, s0: seq<W128>)
      requires Regenerating(s0, i, r1, r2) && i < p.N
      requires b == (if i + p.pos1 < p.N then i + p.pos1 else i + p.pos1 - p.N)
      ensures b < p.N && r1 < p.N && r2 < p.N
      ensures state[i] == Block(p, s0, i) && state[b] == Block(p, s0, i + p.pos1)
      ensures i + p.N >= 2 && state[r1] == Block(p, s0, p.N + i - 2) && state[r2] == Block(p, s0, p.N + i - 1)
    {
      hide Rec, Block, Params.Valid;
      SizesOk(p);
      BlockStart(p, s0, i);
      if i + p.pos1 < p.N { BlockStart(p, s0, i + p.pos1); }
      if i < 1 { BlockStart(p, s0, p.N - 1); }
      if i < 2 { BlockStart(p, s0, p.N + i - 2); }
    }

    /** One turn of the loops of sfmt_gen_rand_all. */
    method Regenerate(i: nat, b: nat, r1: nat, r2: nat, ghost s0: seq<W128>)
      requires Regenerating(s0, i, r1, r2) && i < p.N
      requires b == (if i + p.pos1 < p.N then i + p.pos1 else i + p.pos1 - p.N)
      modifies state
      ensures Regenerating(s0, i + 1, r2, i)
    {
      hide Rec, Block, Params.Valid;
      SizesOk(p);
      BlockStep(p, s0, i);
      RegenerateReads(i, b, r1, r2, s0);
      DoRecursion(p, state, i, state, i, state, b, state, r1, state, r2);
    }

    /** sfmt_gen_rand_all: every word is replaced in place by the one N places further on. */
    method GenRandAll()
      requires Valid()
      modifies state
      ensures state[..] == Window(p, old(state[..]), p.N)
    {
      hide Rec, Block, Params.Valid;
      SizesOk(p);
      ghost var s0 := state[..];
      var r1: nat, r2: nat := p.N - 2, p.N - 1;
      var i: nat := 0;
      while i < p.N - p.pos1
        invariant i <= p.N - p.pos1 && Regenerating(s0, i, r1, r2)
      {
        Regenerate(i, i + p.pos1, r1, r2, s0);
        r1 := r2;
        r2 := i;
        i := i + 1;
      }
      while i < p.N
        invariant p.N - p.pos1 <= i <= p.N && Regenerating(s0, i, r1, r2)
      {
        Regenerate(i, i + p.pos1 - p.N, r1, r2, s0);
        r1 := r2;
        r2 := i;
        i := i + 1;
      }
    }

    /** gen_rand_array has put the words before `i` into `out`; `r1` and `r2` point to the two
        words before word N + i of the sequence. */
    ghost predicate Filling(s0: seq<W128>, out: array<W128>, i: nat, r1: array<W128>, i1: nat, r2: array<W128>, i2: nat)
      reads state, out
    {
      && p.Valid() && state.Length == p.N == |s0| && i <= out.Length && out != state
      && (if i < 2 then r1 == state && i1 == p.N - 2 + i else r1 == out && i1 == i - 2)
      && (if i < 1 then r2 == state && i2 == p.N - 1 else r2 == out && i2 == i - 1)
      && (i < p.N ==> state[..] == s0)
      && (forall k :: 0 <= k < i ==> out[k] == Block(p, s0, p.N + k))
    }

    /** One turn of the first three loops of gen_rand_array. */
    method FillOne(out: array<W128>, i: nat, a: array<W128>, ai: nat, b: array<W128>, bi: nat,
                   r1: array<W128>, i1: nat, r2: array<W128>, i2: nat, ghost s0: seq<W128>)
      requires Filling(s0, out, i, r1, i1, r2, i2) && i < out.Length
      requires if i < p.N then a == state && ai == i else a == out && ai == i - p.N
      requires if i + p.pos1 < p.N then b == state && bi == i + p.pos1 else b == out && bi == i + p.pos1 - p.N
      modifies out
      ensures Filling(s0, out, i + 1, r2, i2, out, i)
      ensures forall k :: i < k < out.Length ==> out[k] == old(out[k])
    {
      hide Rec, Block, Params.Valid;
      SizesOk(p);
      BlockStep(p, s0, i);
      OperandsOf(s0, out, i, a, ai, b, bi, r1, i1, r2, i2);
      DoRecursion(p, out, i, a, ai, b, bi, r1, i1, r2, i2);
    }

    /** The four words the recursion takes are those of the sequence. */
    lemma OperandsOf(s0: seq<W128>, out: array<W128>, i: nat, a: array<W128>, ai: nat, b: array<W128>, bi: nat,
                     r1: array<W128>, i1: nat, r2: array<W128>, i2: nat)
      requires Filling(s0, out, i, r1, i1, r2, i2) && i < out.Length
      requires if i < p.N then a == state && ai == i else a == out && ai == i - p.N
      requires if i + p.pos1 < p.N then b == state && bi == i + p.pos1 else b == out && bi == i + p.pos1 - p.N
      ensures p.Valid() && ai < a.Length && bi < b.Length && i1 < r1.Length && i2 < r2.Length && i + p.N >= 2
      ensures a[ai] == Block(p, s0, i) && b[bi] == Block(p, s0, i + p.pos1)
      ensures r1[i1] == Block(p, s0, p.N + i - 2) && r2[i2] == Block(p, s0, p.N + i - 1)
    {
      hide Rec, Block, Params.Valid;
      SizesOk(p);
      if i < p.N { BlockStart(p, s0, i); }
      if i + p.pos1 < p.N { BlockStart(p, s0, i + p.pos1); }
      if i < 1 { BlockStart(p, s0, p.N - 1); }
      if i < 2 { BlockStart(p, s0, p.N + i - 2); }
    }

    /** gen_rand_array: the next `size` words go to the array, and the last N of them become
        the new state. */
    method GenRandArray(out: array<W128>, size: nat)
      requires Valid() && out != state && p.N <= size <= out.Length
      modifies state, out
      ensures forall k :: 0 <= k < size ==> out[k] == Block(p, old(state[..]), p.N + k)
      ensures forall k :: size <= k < out.Length ==> out[k] == old(out[k])
      ensures state[..] == Window(p, old(state[..]), size)
    {
      hide Rec, Block, Params.Valid;
      SizesOk(p);
      ghost var s0 := state[..];
      var r1, r2 := state, state;
      var i1: nat, i2: nat := p.N - 2, p.N - 1;
      var i: nat := 0;
      while i < p.N - p.pos1
        invariant i <= p.N - p.pos1 && Filling(s0, out, i, r1, i1, r2, i2)
        invariant state[..] == s0 && forall k :: size <= k < out.Length ==> out[k] == old(out[k])
      {
        FillOne(out, i, state, i, state, i + p.pos1, r1, i1, r2, i2, s0);
        r1, i1 := r2, i2;
        r2, i2 := out, i;
        i := i + 1;
      }
      while i < p.N
        invariant p.N - p.pos1 <= i <= p.N && Filling(s0, out, i, r1, i1, r2, i2)
        invariant state[..] == s0 && forall k :: size <= k < out.Length ==> out[k] == old(out[k])
      {
        FillOne(out, i, state, i, out, i + p.pos1 - p.N, r1, i1, r2, i2, s0);
        r1, i1 := r2, i2;
        r2, i2 := out, i;
        i := i + 1;
      }
      while i < size - p.N
        invariant p.N <= i && (i <= size - p.N || i == p.N) && Filling(s0, out, i, r1, i1, r2, i2)
        invariant forall k :: size <= k < out.Length ==> out[k] == old(out[k])
      {
        FillOne(out, i, out, i - p.N, out, i + p.pos1 - p.N, r1, i1, r2, i2, s0);
        r1, i1 := r2, i2;
        r2, i2 := out, i;
        i := i + 1;
      }
      var j: nat := 0;
      while j < 2 * p.N - size
        invariant j <= p.N && (j == 0 || j <= 2 * p.N - size) && Filling(s0, out, i, r1, i1, r2, i2)
        invariant forall k :: 0 <= k < j ==> state[k] == Block(p, s0, size + k)
        invariant forall k :: size <= k < out.Length ==> out[k] == old(out[k])
      {
        state[j] := out[j + size - p.N];
        j := j + 1;
      }
      while i < size
        invariant p.N <= i <= size && j == i - (size - p.N) && Filling(s0, out, i, r1, i1, r2, i2)
        invariant forall k :: 0 <= k < j ==> state[k] == Block(p, s0, size + k)
        invariant forall k :: size <= k < out.Length ==> out[k] == old(out[k])
      {
        FillOne(out, i, out, i - p.N, out, i + p.pos1 - p.N, r1, i1, r2, i2, s0);
        r1, i1 := r2, i2;
        r2, i2 := out, i;
        state[j] := out[i];
        i, j := i + 1, j + 1;
      }
    }

    /** sfmt_genrand_uint32. */
    method GenRand32() returns (r: bv32)
      requires Valid()
      modifies this`idx, state
      ensures Valid() && (Abs(), r) == Draw(p, old(Abs()))
    {
      hide Rec, Block, Params.Valid, Piece;
      SizesOk(p);
      if idx >= 4 * p.N {
        GenRandAll();
        idx := 0;
      }
      r := Piece(state[idx / 4], idx % 4);
      idx := idx + 1;
    }

    /** sfmt_fill_array32: number `t` is piece t % 4 of word t / 4 of the array. */
    method FillArray32(out: array<W128>, size: nat)
      requires Valid() && out != state && idx == 4 * p.N && size % 4 == 0 && size >= 4 * p.N && size / 4 <= out.Length
      modifies this`idx, state, out
      ensures Valid() && Abs() == Fill(p, old(Abs()), size).0
      ensures forall t :: 0 <= t < size ==> Piece(out[t / 4], t % 4) == Fill(p, old(Abs()), size).1[t]
      ensures forall k :: size / 4 <= k < out.Length ==> out[k] == old(out[k])
    {
      hide Rec, Block, Params.Valid, Piece;
      SizesOk(p);
      ghost var s0 := state[..];
      GenRandArray(out, size / 4);
      idx := 4 * p.N;
      forall t | 0 <= t < size ensures Piece(out[t / 4], t % 4) == Word(p, s0, 4 * p.N + t) {
        assert (4 * p.N + t) / 4 == p.N + t / 4 && (4 * p.N + t) % 4 == t % 4;
      }
    }
  }
}
