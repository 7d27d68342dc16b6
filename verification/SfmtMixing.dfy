/** Seeding by an array of keys: the mixing rounds lose no information. */
module SfmtMixing {
  import opened SfmtWords
  import opened SfmtIntegers

  lemma SubOfSum(x: bv32, y: bv32)
    ensures Sub32(x + y, y) == x && Add32(x - y, y) == x
  {}

  /** Modular addition and subtraction cancel, and so does adding twice over GF(2). */
  lemma AddSub(x: bv32, y: bv32)
    ensures Sub32(Add32(x, y), y) == x && Add32(Sub32(x, y), y) == x
  {
    SubOfSum(x, y);
  }

  lemma XorOfXor(x: bv32, y: bv32)
    ensures Xor32(x ^ y, y) == x
  {}

  lemma XorTwice(x: bv32, y: bv32)
    ensures Xor32(Xor32(x, y), y) == x
  {
    XorOfXor(x, y);
  }

  // ----- func1 and func2 -----

  function Fold27(x: bv32): bv32 { x ^ (x >> 27) }

  function Func1(x: bv32): bv32 { Mul32(Fold27(x), 1664525) }
  function Func2(x: bv32): bv32 { Mul32(Fold27(x), 1566083941) }

  /** The inverses: multiplication by the inverse of the odd constant modulo 2^32, then the fold again. */
  function Inv1(y: bv32): bv32 { Fold27(Mul32(y, 4276115653)) }
  function Inv2(y: bv32): bv32 { Fold27(Mul32(y, 1786162797)) }

  lemma FoldOfFold(x: bv32)
    ensures Fold27(x ^ (x >> 27)) == x
  {}

  lemma Fold27Twice(x: bv32)
    ensures Fold27(Fold27(x)) == x
  {
    FoldOfFold(x);
  }

  lemma InverseFactors()
    ensures Mul32(1664525, 4276115653) == 1 && Mul32(4276115653, 1664525) == 1
    ensures Mul32(1566083941, 1786162797) == 1 && Mul32(1786162797, 1566083941) == 1
  {}

  /** Multiplying by an odd constant and by its inverse cancel. */
  lemma FactorsCancel(x: bv32, c: bv32, d: bv32)
    requires Mul32(c, d) == 1
    ensures Mul32(Mul32(x, c), d) == x
  {
    hide Mul32;
    TimesAssociates(x, c, d);
    TimesOne(x);
  }

  /** func1 is a permutation of the 32-bit words. */
  lemma Func1Permutes(x: bv32)
    ensures Inv1(Func1(x)) == x && Func1(Inv1(x)) == x
  {
    hide Fold27, Mul32;
    InverseFactors();
    FactorsCancel(Fold27(x), 1664525, 4276115653);
    FactorsCancel(x, 4276115653, 1664525);
    Fold27Twice(x);
    Fold27Twice(Mul32(x, 4276115653));
  }

  /** func2 is a permutation of the 32-bit words. */
  lemma Func2Permutes(x: bv32)
    ensures Inv2(Func2(x)) == x && Func2(Inv2(x)) == x
  {
    hide Fold27, Mul32;
    InverseFactors();
    FactorsCancel(Fold27(x), 1566083941, 1786162797);
    FactorsCancel(x, 1786162797, 1566083941);
    Fold27Twice(x);
    Fold27Twice(Mul32(x, 1786162797));
  }

  // ----- the indices of a round -----

  function Lag(n: nat): nat {
    if n >= 623 then 11 else if n >= 68 then 7 else if n >= 39 then 5 else 3
  }

  function Mid(n: nat): nat
    requires n >= 20
  {
    (n - Lag(n)) / 2
  }

  function MidIx(n: nat, i: nat): (r: nat) requires n >= 20 ensures r < n { (i + Mid(n)) % n }
  function LagIx(n: nat, i: nat): (r: nat) requires n >= 20 ensures r < n { (i + Mid(n) + Lag(n)) % n }
  function PrevIx(n: nat, i: nat): (r: nat) requires n >= 20 ensures r < n { (i + n - 1) % n }

  lemma ModOnce(a: nat, n: nat)
    requires 0 < n && a < 2 * n
    ensures a % n == if a < n then a else a - n
  {
    var q := a / n;
    assert a == q * n + a % n;
    if q >= 2 { TwiceAtLeast(q, n); }
    if q == 0 { assert a % n == a; }
  }

  lemma TwiceAtLeast(q: nat, n: nat)
    requires q >= 2
    ensures q * n >= 2 * n
  {}

  /** The four words a round touches are different ones. */
  lemma IndicesDistinct(n: nat, i: nat)
    requires n >= 20 && i < n
    ensures i != MidIx(n, i) && i != LagIx(n, i) && i != PrevIx(n, i)
    ensures MidIx(n, i) != LagIx(n, i) && MidIx(n, i) != PrevIx(n, i) && LagIx(n, i) != PrevIx(n, i)
  {
    ModOnce(i + Mid(n), n);
    ModOnce(i + Mid(n) + Lag(n), n);
    ModOnce(i + n - 1, n);
  }

  // ----- rounds -----

  type State32 = s: seq<bv32> | |s| >= 20 witness seq(20, _ => 0)

  /** A round of the first two loops: `inc` is the key word plus the index. */
  function RoundAdd(s: State32, i: nat, inc: bv32): (t: State32)
    requires i < |s|
    ensures |t| == |s|
  {
    var n := |s|;
    var m, k := MidIx(n, i), LagIx(n, i);
    var r := Func1(Xor32(Xor32(s[i], s[m]), s[PrevIx(n, i)]));
    var s1 := s[m := Add32(s[m], r)];
    var r' := Add32(r, inc);
    var s2 := s1[k := Add32(s1[k], r')];
    s2[i := r']
  }

  function UndoAdd(t: State32, i: nat, inc: bv32): (s: State32)
    requires i < |t|
    ensures |s| == |t|
  {
    var n := |t|;
    var m, k := MidIx(n, i), LagIx(n, i);
    var r := Sub32(t[i], inc);
    var s2 := t[k := Sub32(t[k], t[i])];
    var s1 := s2[m := Sub32(s2[m], r)];
    s1[i := Xor32(Xor32(Inv1(r), s1[PrevIx(n, i)]), s1[m])]
  }

  /** A round of the third loop. */
  function RoundXor(s: State32, i: nat, dec: bv32): (t: State32)
    requires i < |s|
    ensures |t| == |s|
  {
    var n := |s|;
    var m, k := MidIx(n, i), LagIx(n, i);
    var r := Func2(Add32(Add32(s[i], s[m]), s[PrevIx(n, i)]));
    var s1 := s[m := Xor32(s[m], r)];
    var r' := Sub32(r, dec);
    var s2 := s1[k := Xor32(s1[k], r')];
    s2[i := r']
  }

  function UndoXor(t: State32, i: nat, dec: bv32): (s: State32)
    requires i < |t|
    ensures |s| == |t|
  {
    var n := |t|;
    var m, k := MidIx(n, i), LagIx(n, i);
    var r := Add32(t[i], dec);
    var s2 := t[k := Xor32(t[k], t[i])];
    var s1 := s2[m := Xor32(s2[m], r)];
    s1[i := Sub32(Sub32(Inv2(r), s1[PrevIx(n, i)]), s1[m])]
  }

  /** Rounds of the first two loops are permutations of the states. */
  lemma RoundAddPermutes(s: State32, i: nat, inc: bv32)
    requires i < |s|
    ensures UndoAdd(RoundAdd(s, i, inc), i, inc) == s
    ensures RoundAdd(UndoAdd(s, i, inc), i, inc) == s
  {
    hide RoundAdd, UndoAdd;
    UndoAddOfRound(s, i, inc);
    RoundOfUndoAdd(s, i, inc);
  }

  lemma UndoAddOfRound(s: State32, i: nat, inc: bv32)
    requires i < |s|
    ensures UndoAdd(RoundAdd(s, i, inc), i, inc) == s
  {
    hide Func1, Inv1, Xor32, Add32, Sub32, MidIx, LagIx, PrevIx;
    var n := |s|;
    IndicesDistinct(n, i);
    AddForward(s[i], s[MidIx(n, i)], s[LagIx(n, i)], s[PrevIx(n, i)], inc);
  }

  lemma RoundOfUndoAdd(s: State32, i: nat, inc: bv32)
    requires i < |s|
    ensures RoundAdd(UndoAdd(s, i, inc), i, inc) == s
  {
    hide Func1, Inv1, Xor32, Add32, Sub32, MidIx, LagIx, PrevIx;
    var n := |s|;
    IndicesDistinct(n, i);
    AddBackward(s[i], s[MidIx(n, i)], s[LagIx(n, i)], s[PrevIx(n, i)], inc);
  }

  /** Rounds of the third loop are permutations of the states. */
  lemma RoundXorPermutes(s: State32, i: nat, dec: bv32)
    requires i < |s|
    ensures UndoXor(RoundXor(s, i, dec), i, dec) == s
    ensures RoundXor(UndoXor(s, i, dec), i, dec) == s
  {
    hide RoundXor, UndoXor;
    UndoXorOfRound(s, i, dec);
    RoundOfUndoXor(s, i, dec);
  }

  lemma UndoXorOfRound(s: State32, i: nat, dec: bv32)
    requires i < |s|
    ensures UndoXor(RoundXor(s, i, dec), i, dec) == s
  {
    hide Func2, Inv2, Xor32, Add32, Sub32, MidIx, LagIx, PrevIx;
    var n := |s|;
    IndicesDistinct(n, i);
    XorForward(s[i], s[MidIx(n, i)], s[LagIx(n, i)], s[PrevIx(n, i)], dec);
  }

  lemma RoundOfUndoXor(s: State32, i: nat, dec: bv32)
    requires i < |s|
    ensures RoundXor(UndoXor(s, i, dec), i, dec) == s
  {
    hide Func2, Inv2, Xor32, Add32, Sub32, MidIx, LagIx, PrevIx;
    var n := |s|;
    IndicesDistinct(n, i);
    XorBackward(s[i], s[MidIx(n, i)], s[LagIx(n, i)], s[PrevIx(n, i)], dec);
  }

  lemma AddForward(x: bv32, m: bv32, k: bv32, q: bv32, inc: bv32)
    ensures
      var r := Func1(Xor32(Xor32(x, m), q));
      var r' := Add32(r, inc);
      && Sub32(r', inc) == r && Sub32(Add32(k, r'), r') == k && Sub32(Add32(m, r), r) == m
      && Xor32(Xor32(Inv1(r), q), m) == x
  {
    hide Func1, Inv1, Xor32, Add32, Sub32;
    var r := Func1(Xor32(Xor32(x, m), q));
    Func1Permutes(Xor32(Xor32(x, m), q));
    AddSub(r, inc);
    AddSub(k, Add32(r, inc));
    AddSub(m, r);
    XorTwice(Xor32(x, m), q);
    XorTwice(x, m);
  }

  lemma AddBackward(y: bv32, m: bv32, k: bv32, q: bv32, inc: bv32)
    ensures
      var r := Sub32(y, inc);
      var m' := Sub32(m, r);
      && Func1(Xor32(Xor32(Xor32(Xor32(Inv1(r), q), m'), m'), q)) == r
      && Add32(m', r) == m && Add32(r, inc) == y && Add32(Sub32(k, y), y) == k
  {
    hide Func1, Inv1, Xor32, Add32, Sub32;
    var r := Sub32(y, inc);
    Func1Permutes(r);
    AddSub(y, inc);
    AddSub(k, y);
    AddSub(m, r);
    XorTwice(Xor32(Inv1(r), q), Sub32(m, r));
    XorTwice(Inv1(r), q);
  }

  lemma XorForward(x: bv32, m: bv32, k: bv32, q: bv32, dec: bv32)
    ensures
      var r := Func2(Add32(Add32(x, m), q));
      var r' := Sub32(r, dec);
      && Add32(r', dec) == r && Xor32(Xor32(k, r'), r') == k && Xor32(Xor32(m, r), r) == m
      && Sub32(Sub32(Inv2(r), q), m) == x
  {
    hide Func2, Inv2, Xor32, Add32, Sub32;
    var r := Func2(Add32(Add32(x, m), q));
    Func2Permutes(Add32(Add32(x, m), q));
    AddSub(r, dec);
    XorTwice(k, Sub32(r, dec));
    XorTwice(m, r);
    AddSub(Add32(x, m), q);
    AddSub(x, m);
  }

  lemma XorBackward(y: bv32, m: bv32, k: bv32, q: bv32, dec: bv32)
    ensures
      var r := Add32(y, dec);
      var m' := Xor32(m, r);
      && Func2(Add32(Add32(Sub32(Sub32(Inv2(r), q), m'), m'), q)) == r
      && Xor32(m', r) == m && Sub32(r, dec) == y && Xor32(Xor32(k, y), y) == k
  {
    hide Func2, Inv2, Xor32, Add32, Sub32;
    var r := Add32(y, dec);
    Func2Permutes(r);
    AddSub(y, dec);
    XorTwice(k, y);
    XorTwice(m, r);
    AddSub(Sub32(Inv2(r), q), Xor32(m, r));
    AddSub(Inv2(r), q);
  }

  // ----- the three loops -----

  /** The index `k` steps along the state. */
  function Wrap(k: nat, n: nat): (r: nat)
    requires n > 0
    ensures r < n
  {
    k % n
  }

  /** A C int used as an unsigned 32-bit word. */
  function U32(i: nat): bv32 { (i % 0x1_0000_0000) as bv32 }

  /** The first two loops: one round for each word of `keys`, from index `i` on. */
  function MixKeys(s: State32, i: nat, keys: seq<bv32>): (t: State32)
    requires i < |s|
    ensures |t| == |s|
  {
    if keys == [] then s
    else
      var last := |keys| - 1;
      var j := Wrap(i + last, |s|);
      RoundAdd(MixKeys(s, i, keys[..last]), j, Add32(keys[last], U32(j)))
  }

  /** The third loop: `count` rounds from index `i` on. */
  function MixDown(s: State32, i: nat, count: nat): (t: State32)
    requires i < |s|
    ensures |t| == |s|
  {
    if count == 0 then s
    else
      var j := Wrap(i + (count - 1), |s|);
      RoundXor(MixDown(s, i, count - 1), j, U32(j))
  }

  /** The words of the key, and zeros up to the number of rounds of the first two loops. */
  function Padded(n: nat, keys: seq<bv32>): (r: seq<bv32>)
    requires n > 0
    ensures |r| == (if |keys| + 1 > n then |keys| + 1 else n) - 1 && keys <= r
  {
    keys + seq((if |keys| + 1 > n then |keys| + 1 else n) - 1 - |keys|, _ => 0)
  }

  /** sfmt_init_by_array before certification, from the state memset has left. */
  function Seeded(s: State32, keys: seq<bv32>): (t: State32)
    ensures |t| == |s|
  {
    var n := |s|;
    var rounds := Padded(n, keys);
    var s1 := RoundAdd(s, 0, U32(|keys|));
    var s2 := MixKeys(s1, 1, rounds);
    MixDown(s2, Wrap(1 + |rounds|, n), n)
  }

  lemma RoundAddInjective(s: State32, t: State32, i: nat, inc: bv32)
    requires i < |s| == |t| && RoundAdd(s, i, inc) == RoundAdd(t, i, inc)
    ensures s == t
  {
    hide RoundAdd, UndoAdd;
    RoundAddPermutes(s, i, inc);
    RoundAddPermutes(t, i, inc);
  }

  lemma RoundXorInjective(s: State32, t: State32, i: nat, dec: bv32)
    requires i < |s| == |t| && RoundXor(s, i, dec) == RoundXor(t, i, dec)
    ensures s == t
  {
    hide RoundXor, UndoXor;
    RoundXorPermutes(s, i, dec);
    RoundXorPermutes(t, i, dec);
  }

  lemma {:induction false} MixKeysInjective(s: State32, t: State32, i: nat, keys: seq<bv32>)
    requires i < |s| == |t| && MixKeys(s, i, keys) == MixKeys(t, i, keys)
    ensures s == t
    decreases |keys|
  {
    hide RoundAdd, U32, Add32;
    if keys != [] {
      var last := |keys| - 1;
      var j := Wrap(i + last, |s|);
      RoundAddInjective(MixKeys(s, i, keys[..last]), MixKeys(t, i, keys[..last]), j, Add32(keys[last], U32(j)));
      MixKeysInjective(s, t, i, keys[..last]);
    }
  }

  lemma {:induction false} MixDownInjective(s: State32, t: State32, i: nat, count: nat)
    requires i < |s| == |t| && MixDown(s, i, count) == MixDown(t, i, count)
    ensures s == t
    decreases count
  {
    hide RoundXor, U32;
    if count > 0 {
      var j := Wrap(i + (count - 1), |s|);
      RoundXorInjective(MixDown(s, i, count - 1), MixDown(t, i, count - 1), j, U32(j));
      MixDownInjective(s, t, i, count - 1);
    }
  }

  /** Seeding with a given key loses nothing of the state it starts from. */
  lemma SeededInjective(s: State32, t: State32, keys: seq<bv32>)
    requires |s| == |t| && Seeded(s, keys) == Seeded(t, keys)
    ensures s == t
  {
    hide RoundAdd, U32, MixKeys, MixDown, Padded;
    var n, rounds := |s|, Padded(|s|, keys);
    var s1, t1 := RoundAdd(s, 0, U32(|keys|)), RoundAdd(t, 0, U32(|keys|));
    MixDownInjective(MixKeys(s1, 1, rounds), MixKeys(t1, 1, rounds), Wrap(1 + |rounds|, n), n);
    MixKeysInjective(s1, t1, 1, rounds);
    RoundAddInjective(s, t, 0, U32(|keys|));
  }

  /** Two keys of the same length that differ in exactly one word. */
  predicate DifferAt(keys: seq<bv32>, keys': seq<bv32>, j: nat) {
    |keys| == |keys'| && j < |keys| && keys[j] != keys'[j] && keys'[j := keys[j]] == keys
  }

  lemma AddInjective(x: bv32, y: bv32, z: bv32)
    requires Add32(x, z) == Add32(y, z)
    ensures x == y
  {
    hide Add32, Sub32;
    AddSub(x, z);
    AddSub(y, z);
  }

  lemma AddInjectiveRight(x: bv32, y: bv32, z: bv32)
    requires Add32(z, x) == Add32(z, y)
    ensures x == y
  {
    hide Add32;
    AddCommutes(x, z);
    AddCommutes(y, z);
    AddInjective(x, y, z);
  }

  /** Different increments give different states, as the new word shows. */
  lemma RoundAddSeesInc(s: State32, i: nat, inc: bv32, inc': bv32)
    requires i < |s| && inc != inc'
    ensures RoundAdd(s, i, inc) != RoundAdd(s, i, inc')
  {
    NewWordDiffers(s, i, inc, inc');
  }

  /** Every key word is consumed: changing one changes the state after the loops. */
  lemma {:induction false} MixKeysSeesEveryWord(s: State32, i: nat, keys: seq<bv32>, keys': seq<bv32>, j: nat)
    requires i < |s| && DifferAt(keys, keys', j)
    ensures MixKeys(s, i, keys) != MixKeys(s, i, keys')
    decreases |keys|
  {
    hide RoundAdd, U32, Add32;
    var last := |keys| - 1;
    var ix := Wrap(i + last, |s|);
    if j == last {
      assert keys[..last] == keys'[..last] by { assert keys == keys'[j := keys[j]]; }
      if Add32(keys[last], U32(ix)) == Add32(keys'[last], U32(ix)) { AddInjective(keys[last], keys'[last], U32(ix)); }
      RoundAddSeesInc(MixKeys(s, i, keys[..last]), ix, Add32(keys[last], U32(ix)), Add32(keys'[last], U32(ix)));
    } else {
      assert DifferAt(keys[..last], keys'[..last], j) by { assert keys == keys'[j := keys[j]]; }
      assert keys[last] == keys'[last] by { assert keys == keys'[j := keys[j]]; }
      MixKeysSeesEveryWord(s, i, keys[..last], keys'[..last], j);
      if MixKeys(s, i, keys) == MixKeys(s, i, keys') {
        RoundAddInjective(MixKeys(s, i, keys[..last]), MixKeys(s, i, keys'[..last]), ix, Add32(keys[last], U32(ix)));
      }
    }
  }

  lemma SeededSeesEveryWord(s: State32, keys: seq<bv32>, keys': seq<bv32>, j: nat)
    requires DifferAt(keys, keys', j)
    ensures Seeded(s, keys) != Seeded(s, keys')
  {
    hide RoundAdd, U32, MixKeys, MixDown;
    var n, rounds, rounds' := |s|, Padded(|s|, keys), Padded(|s|, keys');
    var s1 := RoundAdd(s, 0, U32(|keys|));
    assert DifferAt(rounds, rounds', j) by { assert rounds'[j := rounds[j]] == rounds; }
    MixKeysSeesEveryWord(s1, 1, rounds, rounds', j);
    if Seeded(s, keys) == Seeded(s, keys') {
      MixDownInjective(MixKeys(s1, 1, rounds), MixKeys(s1, 1, rounds'), Wrap(1 + |rounds|, n), n);
    }
  }

  // ----- short keys are told apart -----

  /** A round changes the words at three indices only. */
  lemma RoundAddKeeps(s: State32, i: nat, inc: bv32, d: nat)
    requires i < |s| && d < |s| && d != i && d != MidIx(|s|, i) && d != LagIx(|s|, i)
    ensures RoundAdd(s, i, inc)[d] == s[d]
  {
    hide Func1, Xor32, Add32, MidIx, LagIx, PrevIx;
  }

  /** The rounds of a short key do not come back to the words they have written. */
  lemma {:induction false} MixKeysWord(s: State32, keys: seq<bv32>, d: nat)
    requires d < |keys| <= Mid(|s|)
    ensures MixKeys(s, 1, keys)[1 + d] == MixKeys(s, 1, keys[..d + 1])[1 + d]
    decreases |keys|
  {
    hide RoundAdd, U32, Add32;
    var n, last := |s|, |keys| - 1;
    if d < last {
      var j := 1 + last;
      ModOnce(j, n);
      ModOnce(j + Mid(n), n);
      ModOnce(j + Mid(n) + Lag(n), n);
      assert keys[..last][..d + 1] == keys[..d + 1];
      MixKeysWord(s, keys[..last], d);
      RoundAddKeeps(MixKeys(s, 1, keys[..last]), j, Add32(keys[last], U32(j)), 1 + d);
    } else { assert keys[..d + 1] == keys; }
  }

  /** The first word in which two lists of the same length differ. */
  function FirstDiff(xs: seq<bv32>, ys: seq<bv32>): (d: nat)
    requires |xs| == |ys|
    ensures d <= |xs| && xs[..d] == ys[..d] && (if d < |xs| then xs[d] != ys[d] else xs == ys)
  {
    if xs == [] || xs[0] != ys[0] then 0
    else
      var d := FirstDiff(xs[1..], ys[1..]);
      assert xs[..1 + d] == [xs[0]] + xs[1..][..d] && ys[..1 + d] == [ys[0]] + ys[1..][..d];
      1 + d
  }

  lemma MixKeysTellsApart(s: State32, keys: seq<bv32>, keys': seq<bv32>)
    requires |keys| == |keys'| <= Mid(|s|) && keys != keys'
    ensures MixKeys(s, 1, keys) != MixKeys(s, 1, keys')
  {
    hide RoundAdd, U32, Add32;
    var n, d := |s|, FirstDiff(keys, keys');
    ModOnce(1 + d, n);
    MixKeysWord(s, keys, d);
    MixKeysWord(s, keys', d);
    var inc, inc' := Add32(keys[d], U32(1 + d)), Add32(keys'[d], U32(1 + d));
    if inc == inc' { AddInjective(keys[d], keys'[d], U32(1 + d)); }
    assert keys[..d + 1][..d] == keys[..d] && keys'[..d + 1][..d] == keys'[..d];
    NewWordDiffers(MixKeys(s, 1, keys[..d]), 1 + d, inc, inc');
  }

  lemma NewWordDiffers(s: State32, i: nat, inc: bv32, inc': bv32)
    requires i < |s| && inc != inc'
    ensures RoundAdd(s, i, inc)[i] != RoundAdd(s, i, inc')[i]
  {
    hide Func1, Xor32, Add32, MidIx, LagIx, PrevIx;
    var r := Func1(Xor32(Xor32(s[i], s[MidIx(|s|, i)]), s[PrevIx(|s|, i)]));
    if Add32(r, inc) == Add32(r, inc') { AddInjectiveRight(inc, inc', r); }
    assert RoundAdd(s, i, inc)[i] == Add32(r, inc);
    assert RoundAdd(s, i, inc')[i] == Add32(r, inc');
  }

  /** Rounds that follow with the same words keep the difference. */
  lemma {:induction false} MixKeysKeepsApart(s: State32, xs: seq<bv32>, ys: seq<bv32>, len: nat)
    requires |xs| == |ys| && len <= |xs| && xs[len..] == ys[len..]
    requires MixKeys(s, 1, xs[..len]) != MixKeys(s, 1, ys[..len])
    ensures MixKeys(s, 1, xs) != MixKeys(s, 1, ys)
    decreases |xs|
  {
    hide RoundAdd, U32, Add32;
    var last := |xs| - 1;
    if len == |xs| { assert xs[..len] == xs && ys[..len] == ys; }
    else {
      assert xs[last] == ys[last] by { assert xs[len..][last - len] == ys[len..][last - len]; }
      assert xs[..last][..len] == xs[..len] && ys[..last][..len] == ys[..len];
      assert xs[..last][len..] == xs[len..][..last - len] && ys[..last][len..] == ys[len..][..last - len];
      MixKeysKeepsApart(s, xs[..last], ys[..last], len);
      var ix := Wrap(1 + last, |s|);
      if MixKeys(s, 1, xs) == MixKeys(s, 1, ys) {
        RoundAddInjective(MixKeys(s, 1, xs[..last]), MixKeys(s, 1, ys[..last]), ix, Add32(xs[last], U32(ix)));
      }
    }
  }

  /** Any two different keys of one length, not longer than the distance to the middle word,
      seed different states. */
  lemma ShortKeysTellApart(s: State32, keys: seq<bv32>, keys': seq<bv32>)
    requires |keys| == |keys'| <= Mid(|s|) && keys != keys'
    ensures Seeded(s, keys) != Seeded(s, keys')
  {
    hide RoundAdd, U32, MixKeys, MixDown;
    var n, rounds, rounds' := |s|, Padded(|s|, keys), Padded(|s|, keys');
    var s1 := RoundAdd(s, 0, U32(|keys|));
    assert rounds[..|keys|] == keys && rounds'[..|keys|] == keys' && rounds[|keys|..] == rounds'[|keys|..];
    MixKeysTellsApart(s1, keys, keys');
    MixKeysKeepsApart(s1, rounds, rounds', |keys|);
    if Seeded(s, keys) == Seeded(s, keys') {
      MixDownInjective(MixKeys(s1, 1, rounds), MixKeys(s1, 1, rounds'), Wrap(1 + |rounds|, n), n);
    }
  }
}
