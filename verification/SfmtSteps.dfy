/** What seeding does, in plain figures: the distances between the words a step touches, the value
    of each word it writes, and all steps of sfmt_init_by_array in one row. */
module SfmtSteps {
  import opened SfmtWords
  import opened SfmtIntegers
  import opened SfmtMixing
  import opened SfmtSeeding

  // ----- the words a step touches -----

  /** From word `i`, the middle word and the one behind it; and the word before it. */
  lemma Distances(n: nat, i: nat)
    requires n >= 20 && i < n
    ensures n >= 623 ==> MidIx(n, i) == (i + (n - 11) / 2) % n && LagIx(n, i) == (MidIx(n, i) + 11) % n
    ensures 68 <= n < 623 ==> MidIx(n, i) == (i + (n - 7) / 2) % n && LagIx(n, i) == (MidIx(n, i) + 7) % n
    ensures 39 <= n < 68 ==> MidIx(n, i) == (i + (n - 5) / 2) % n && LagIx(n, i) == (MidIx(n, i) + 5) % n
    ensures n < 39 ==> MidIx(n, i) == (i + (n - 3) / 2) % n && LagIx(n, i) == (MidIx(n, i) + 3) % n
    ensures PrevIx(n, i) == if i == 0 then n - 1 else i - 1
  {
    ModOnce(i + Mid(n), n);
    ModOnce(i + Mid(n) + Lag(n), n);
    ModOnce(MidIx(n, i) + Lag(n), n);
    ModOnce(i + n - 1, n);
  }

  // ----- the values it writes -----

  lemma Factor1()
    ensures Int(1664525) == 1664525
  {}

  lemma Factor2()
    ensures Int(1566083941) == 1566083941
  {}

  lemma Factor3()
    ensures Int(1812433253) == 1812433253
  {}

  lemma Fold27Is(x: bv32)
    ensures Fold27(x) == x ^ (x >> 27)
  {}

  /** func1. */
  lemma Func1Is(x: bv32)
    ensures Int(Func1(x)) == (Int(x ^ (x >> 27)) * 1664525) % 0x1_0000_0000
  {
    hide Int, Fold27, Mul32;
    Fold27Is(x);
    IntTimes(Fold27(x), 1664525);
    Factor1();
  }

  /** func2. */
  lemma Func2Is(x: bv32)
    ensures Int(Func2(x)) == (Int(x ^ (x >> 27)) * 1566083941) % 0x1_0000_0000
  {
    hide Int, Fold27, Mul32;
    Fold27Is(x);
    IntTimes(Fold27(x), 1566083941);
    Factor2();
  }

  /** The step before the first loop, and every step of the first two loops: what becomes of each
      word, the key word and index in `inc` being added. */
  lemma AddedWords(s: State32, i: nat, inc: bv32)
    requires i < |s|
    ensures
      var t := RoundAdd(s, i, inc);
      var m, k, q := MidIx(|s|, i), LagIx(|s|, i), PrevIx(|s|, i);
      var x := Xor32(Xor32(s[i], s[m]), s[q]);
      var r := (Int(x ^ (x >> 27)) * 1664525) % 0x1_0000_0000;
      && Int(t[m]) == (Int(s[m]) + r) % 0x1_0000_0000
      && Int(t[i]) == (r + Int(inc)) % 0x1_0000_0000
      && Int(t[k]) == (Int(s[k]) + r + Int(inc)) % 0x1_0000_0000
  {
    hide Int, Func1, Xor32, Add32, MidIx, LagIx, PrevIx;
    var m, k, q := MidIx(|s|, i), LagIx(|s|, i), PrevIx(|s|, i);
    IndicesDistinct(|s|, i);
    var x := Xor32(Xor32(s[i], s[m]), s[q]);
    var r := Func1(x);
    Func1Is(x);
    IntPlus(s[m], r);
    IntPlus(r, inc);
    IntPlus(s[k], Add32(r, inc));
    SumModulo(Int(s[k]), Int(r) + Int(inc));
  }

  lemma SumModulo(a: int, b: int)
    ensures (a + b % 0x1_0000_0000) % 0x1_0000_0000 == (a + b) % 0x1_0000_0000
  {}

  /** No step touches any other word. */
  lemma OtherWords(s: State32, i: nat, x: bv32, j: nat)
    requires i < |s| && j < |s| && j != i && j != MidIx(|s|, i) && j != LagIx(|s|, i)
    ensures RoundAdd(s, i, x)[j] == s[j] && RoundXor(s, i, x)[j] == s[j]
  {
    hide Func1, Func2, Xor32, Add32, Sub32, MidIx, LagIx, PrevIx;
  }

  /** Every step of the third loop; the index is in `dec`. */
  lemma MixedWords(s: State32, i: nat, dec: bv32)
    requires i < |s|
    ensures
      var t := RoundXor(s, i, dec);
      var m, k, q := MidIx(|s|, i), LagIx(|s|, i), PrevIx(|s|, i);
      var y := Add32(Add32(s[i], s[m]), s[q]);
      var r := Func2(y);
      && Int(y) == (Int(s[i]) + Int(s[m]) + Int(s[q])) % 0x1_0000_0000
      && Int(r) == (Int(y ^ (y >> 27)) * 1566083941) % 0x1_0000_0000
      && t[m] == Xor32(s[m], r)
      && Int(t[i]) == (Int(r) - Int(dec)) % 0x1_0000_0000
      && t[k] == Xor32(s[k], t[i])
  {
    hide Int, Func2, Xor32, Add32, Sub32, MidIx, LagIx, PrevIx;
    var m, k, q := MidIx(|s|, i), LagIx(|s|, i), PrevIx(|s|, i);
    IndicesDistinct(|s|, i);
    var y := Add32(Add32(s[i], s[m]), s[q]);
    var r := Func2(y);
    IntPlus(s[i], s[m]);
    IntPlus(Add32(s[i], s[m]), s[q]);
    SumModulo(Int(s[q]), Int(s[i]) + Int(s[m]));
    Func2Is(y);
    IntMinus(r, dec);
  }

  // ----- all steps in one row -----

  function Larger(a: nat, b: nat): nat { if a > b then a else b }

  /** What step `t` of sfmt_init_by_array adds or takes away: the number of key words at first, then
      one key word after the other with the index, then the index alone. */
  function StepWord(n: nat, keys: seq<bv32>, t: nat): bv32
    requires n > 0
  {
    if t == 0 then U32(|keys|)
    else if t <= |keys| then Add32(keys[t - 1], U32(t % n))
    else U32(t % n)
  }

  /** The state after `t` steps: step `t` is at word `t % n`, additive before all key words and all
      words of the state have had their turn, and then once more around the state. */
  function AfterSteps(s: State32, keys: seq<bv32>, t: nat): (s': State32)
    ensures |s'| == |s|
  {
    if t == 0 then s
    else
      var n, j := |s|, t - 1;
      var before := AfterSteps(s, keys, j);
      if j < Larger(|keys| + 1, n) then RoundAdd(before, j % n, StepWord(n, keys, j))
      else RoundXor(before, j % n, StepWord(n, keys, j))
  }

  lemma {:induction false} KeysAreSteps(s: State32, keys: seq<bv32>, j: nat)
    requires j <= |Padded(|s|, keys)|
    ensures MixKeys(RoundAdd(s, 0, U32(|keys|)), 1, Padded(|s|, keys)[..j]) == AfterSteps(s, keys, 1 + j)
    decreases j
  {
    hide RoundAdd, U32, Add32;
    var n, rounds, s1 := |s|, Padded(|s|, keys), RoundAdd(s, 0, U32(|keys|));
    if j == 0 {
      WrapSmall(0, n);
      assert AfterSteps(s, keys, 0) == s;
    } else {
      KeysAreSteps(s, keys, j - 1);
      MixStep(s1, rounds, j - 1);
      AddZero(U32(j % n));
    }
  }

  lemma {:induction false} DownIsSteps(s: State32, keys: seq<bv32>, j: nat)
    ensures
      var n, c := |s|, Larger(|keys| + 1, |s|);
      MixDown(AfterSteps(s, keys, c), c % n, j) == AfterSteps(s, keys, c + j)
    decreases j
  {
    hide RoundXor, RoundAdd, U32;
    var n, c := |s|, Larger(|keys| + 1, |s|);
    var s2 := AfterSteps(s, keys, c);
    if j == 0 { DownNothing(s2, c % n); }
    else {
      DownIsSteps(s, keys, j - 1);
      SfmtSeeding.DownStep(s2, c % n, j - 1);
      WrapTwice(c, j - 1, n);
    }
  }

  lemma {:induction false} WrapTwice(a: nat, j: nat, n: nat)
    requires n > 0
    ensures Wrap(Wrap(a, n) + j, n) == Wrap(a + j, n)
    decreases j
  {
    hide Wrap;
    if j == 0 {
      WrapSmall(Wrap(a, n), n);
    } else {
      WrapTwice(a, j - 1, n);
      WrapNext(Wrap(a, n) + (j - 1), n);
      WrapNext(a + (j - 1), n);
    }
  }

  /** sfmt_init_by_array is max(key length + 1, N32) additive steps and N32 more, one word further
      each time. */
  lemma SeededIsSteps(s: State32, keys: seq<bv32>)
    ensures Seeded(s, keys) == AfterSteps(s, keys, Larger(|keys| + 1, |s|) + |s|)
  {
    hide RoundAdd, U32, MixKeys, MixDown, AfterSteps, Wrap, Padded, Seeded, Larger;
    var n, rounds, c := |s|, Padded(|s|, keys), Larger(|keys| + 1, |s|);
    PaddedLength(n, keys);
    SeededIs(s, keys);
    KeysAreSteps(s, keys, |rounds|);
    assert rounds[..|rounds|] == rounds;
    WrapIs(c, n);
    DownIsSteps(s, keys, n);
  }

  lemma PaddedLength(n: nat, keys: seq<bv32>)
    requires n > 0
    ensures 1 + |Padded(n, keys)| == Larger(|keys| + 1, n)
  {}

  lemma WrapIs(k: nat, n: nat)
    requires n > 0
    ensures Wrap(k, n) == k % n
  {}

  /** The values of the step words. */
  lemma StepWordIs(n: nat, keys: seq<bv32>, t: nat)
    requires n > 0
    ensures Int(StepWord(n, keys, t)) ==
      if t == 0 then |keys| % 0x1_0000_0000
      else if t <= |keys| then (Int(keys[t - 1]) + t % n) % 0x1_0000_0000
      else (t % n) % 0x1_0000_0000
  {
    hide Int, Add32;
    IntU32(|keys|);
    IntU32(t % n);
    if 0 < t <= |keys| {
      IntPlus(keys[t - 1], U32(t % n));
      SumModulo(Int(keys[t - 1]), t % n);
    }
  }

  lemma IntU32(i: nat)
    ensures Int(U32(i)) == i % 0x1_0000_0000
  {
    hide Int;
    IntOfInt(i % 0x1_0000_0000);
  }

  // ----- seeding by one number -----

  lemma Shift30(x: bv32)
    ensures Xor32(x, Shr(x, 30)) == x ^ (x >> 30)
  {}

  /** The recurrence of sfmt_init_gen_rand, modulo 2^32. */
  lemma SeedWordIs(seed: bv32, i: nat)
    ensures SeedWord(seed, 0) == seed
    ensures i > 0 ==>
      var w := SeedWord(seed, i - 1);
      Int(SeedWord(seed, i)) == (Int(w ^ (w >> 30)) * 1812433253 + i) % 0x1_0000_0000
  {
    hide Int, Xor32, Add32, Mul32, Shr, SeedWord, U32;
    if i == 0 { SeedNext(seed, 1); }
    else {
      var w := SeedWord(seed, i - 1);
      var x := Xor32(w, Shr(w, 30));
      SeedNext(seed, i);
      Shift30(w);
      IntTimes(x, 1812433253);
      Factor3();
      IntU32(i);
      IntPlus(Mul32(x, 1812433253), U32(i));
      SumModulo(i, Int(x) * 1812433253);
      SumModulo(Int(Mul32(x, 1812433253)), i);
    }
  }
}
