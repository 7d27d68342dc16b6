/** 32-bit words as integers: the word operations are arithmetic modulo 2^32. */
module SfmtIntegers {
  import opened SfmtWords

  function Int(x: bv32): nat { x as int }

  function TwiceOne(x: bv32): bv32 { (x << 1) | 1 }
  function LastBit(x: bv32): bv32 { x & 1 }
  function Cleared(x: bv32): bv32 { x & 0x7fff_ffff }

  function Add32(x: bv32, y: bv32): bv32 { x + y }
  function Sub32(x: bv32, y: bv32): bv32 { x - y }
  function Mul32(x: bv32, y: bv32): bv32 { x * y }

  lemma IntTwice(x: bv32)
    requires x < 0x8000_0000
    ensures Int(Twice(x)) == 2 * Int(x) && Int(TwiceOne(x)) == 2 * Int(x) + 1
  {}

  lemma IntCleared(x: bv32)
    requires x >= 0x8000_0000
    ensures Int(x) == Int(Cleared(x)) + 0x8000_0000 && Cleared(x) < 0x8000_0000
  {}

  lemma IntZero()
    ensures Int(0) == 0 && Int(1) == 1
  {}

  lemma Halved(x: bv32)
    ensures Half(x) < 0x8000_0000
    ensures x == if LastBit(x) == 0 then Twice(Half(x)) else TwiceOne(Half(x))
  {}

  /** A word is twice its upper bits plus its last one. */
  lemma IntSplit(x: bv32)
    ensures Int(x) == 2 * Int(Half(x)) + (if LastBit(x) == 0 then 0 else 1)
  {
    hide Int, Half, Twice, TwiceOne, LastBit;
    Halved(x);
    IntTwice(Half(x));
  }

  /** Words below 2^31, by their value. */
  lemma IntSmall(x: bv32)
    requires Int(x) < 0x8000_0000
    ensures x < 0x8000_0000
  {
    hide Int, Cleared;
    if x >= 0x8000_0000 { IntCleared(x); }
  }

  lemma TwiceIs(x: bv32)
    ensures Twice(x) == Add32(x, x)
  {}

  lemma TwiceOneIs(x: bv32)
    ensures TwiceOne(x) == Add32(Add32(x, x), 1)
  {}

  lemma PlusIs(a: bv32, b: bv32)
    ensures Add32(a, b) == a + b
  {}

  lemma SumAssociates(a: bv32, b: bv32, c: bv32)
    ensures Add32(a + b, c) == Add32(a, b + c)
  {}

  lemma AddCommutes(x: bv32, y: bv32)
    ensures Add32(x, y) == Add32(y, x)
  {}

  lemma AddAssociates(a: bv32, b: bv32, c: bv32)
    ensures Add32(Add32(a, b), c) == Add32(a, Add32(b, c))
  {
    hide Add32;
    PlusIs(a, b);
    PlusIs(b, c);
    SumAssociates(a, b, c);
  }

  /** Four summands in another order. */
  lemma AddSwaps(a: bv32, b: bv32, c: bv32, d: bv32)
    ensures Add32(Add32(a, b), Add32(c, d)) == Add32(Add32(a, c), Add32(b, d))
  {
    hide Add32;
    AddAssociates(a, b, Add32(c, d));
    AddAssociates(b, c, d);
    AddCommutes(b, c);
    AddAssociates(c, b, d);
    AddAssociates(a, c, Add32(b, d));
  }

  lemma PlusPairs(a: bv32, b: bv32)
    ensures Add32(Add32(a, a), Add32(b, b)) == Add32(Add32(a, b), Add32(a, b))
    ensures Add32(Add32(Add32(a, a), 1), Add32(b, b)) == Add32(Add32(Add32(a, b), Add32(a, b)), 1)
    ensures Add32(Add32(a, a), Add32(Add32(b, b), 1)) == Add32(Add32(Add32(a, b), Add32(a, b)), 1)
    ensures Add32(Add32(Add32(a, a), 1), Add32(Add32(b, b), 1)) == Add32(Add32(Add32(a, b), 1), Add32(Add32(a, b), 1))
  {
    hide Add32;
    var s, t := Add32(a, a), Add32(b, b);
    AddSwaps(a, a, b, b);
    AddAssociates(s, t, 1);
    AddAssociates(s, 1, t);
    AddCommutes(1, t);
    AddSwaps(s, 1, t, 1);
    AddSwaps(Add32(a, b), 1, Add32(a, b), 1);
  }

  lemma SumHalves(x: bv32, y: bv32)
    ensures
      var s := Add32(Half(x), Half(y));
      Add32(x, y) ==
        if LastBit(x) == 0 && LastBit(y) == 0 then Twice(s)
        else if LastBit(x) == 0 || LastBit(y) == 0 then TwiceOne(s) else Twice(Add32(s, 1))
  {
    hide Half, Twice, TwiceOne, LastBit, Add32;
    var s := Add32(Half(x), Half(y));
    Halved(x);
    Halved(y);
    TwiceIs(Half(x));
    TwiceOneIs(Half(x));
    TwiceIs(Half(y));
    TwiceOneIs(Half(y));
    TwiceIs(s);
    TwiceOneIs(s);
    TwiceIs(Add32(s, 1));
    PlusPairs(Half(x), Half(y));
  }

  lemma PlusZero(x: bv32)
    ensures Add32(x, 0) == x && Add32(0, x) == x
    ensures Half(1) == 0 && LastBit(1) == 1
  {}

  lemma ZeroWord(x: bv32)
    requires Int(x) == 0
    ensures x == 0
  {
    assert (x as int) as bv32 == x;
  }

  /** Addition that does not overflow. */
  lemma {:induction false} IntPlusExact(x: bv32, y: bv32)
    requires Int(x) + Int(y) < 0x1_0000_0000
    ensures Int(Add32(x, y)) == Int(x) + Int(y)
    decreases Int(x) + Int(y)
  {
    hide Int, Half, Twice, TwiceOne, LastBit, Add32;
    PlusZero(x);
    PlusZero(y);
    IntZero();
    if Int(x) == 0 { ZeroWord(x); }
    else if Int(y) == 0 { ZeroWord(y); }
    else {
      IntSplit(x);
      IntSplit(y);
      SumHalves(x, y);
      var s := Add32(Half(x), Half(y));
      IntPlusExact(Half(x), Half(y));
      IntSmall(s);
      IntTwice(s);
      if LastBit(x) != 0 && LastBit(y) != 0 {
        IntPlusExact(s, 1);
        IntSmall(Add32(s, 1));
        IntTwice(Add32(s, 1));
      }
    }
  }

  lemma TopBit(x: bv32)
    requires x >= 0x8000_0000
    ensures x == Add32(Cleared(x), 0x8000_0000)
  {}

  lemma TopBitTwice()
    ensures Add32(0x8000_0000, 0x8000_0000) == 0
  {}

  lemma BothLarge(x: bv32, y: bv32)
    requires x >= 0x8000_0000 && y >= 0x8000_0000
    ensures Add32(x, y) == Add32(Cleared(x), Cleared(y))
  {
    hide Add32, Cleared;
    TopBit(x);
    TopBit(y);
    AddSwaps(Cleared(x), 0x8000_0000, Cleared(y), 0x8000_0000);
    TopBitTwice();
    PlusZero(Add32(Cleared(x), Cleared(y)));
  }

  lemma TopBitOff(t: bv32)
    requires t >= 0x8000_0000
    ensures Add32(t, 0x8000_0000) == Cleared(t)
  {}

  lemma OneLarge(x: bv32, y: bv32)
    requires x >= 0x8000_0000 && y < 0x8000_0000 && Add32(Cleared(x), y) >= 0x8000_0000
    ensures Add32(x, y) == Cleared(Add32(Cleared(x), y))
  {
    hide Add32, Cleared;
    TopBit(x);
    AddAssociates(Cleared(x), 0x8000_0000, y);
    AddCommutes(0x8000_0000, y);
    AddAssociates(Cleared(x), y, 0x8000_0000);
    TopBitOff(Add32(Cleared(x), y));
  }

  lemma IntSmaller(x: bv32)
    requires x < 0x8000_0000
    ensures Int(x) < 0x8000_0000
  {
    hide Int, Twice, TwiceOne;
    IntTwice(x);
    IntRange(Twice(x));
  }

  lemma IntRange(x: bv32)
    ensures Int(x) < 0x1_0000_0000
  {}

  lemma IntBounded(x: bv32)
    ensures Int(x) < 0x1_0000_0000
    ensures x < 0x8000_0000 ==> Int(x) < 0x8000_0000
  {
    hide Int;
    IntRange(x);
    if x < 0x8000_0000 { IntSmaller(x); }
  }

  /** An overflow of one large word and a small one. */
  lemma IntPlusOneLarge(x: bv32, y: bv32)
    requires x >= 0x8000_0000 && y < 0x8000_0000 && Int(x) + Int(y) >= 0x1_0000_0000
    ensures Int(Add32(x, y)) == Int(x) + Int(y) - 0x1_0000_0000
  {
    hide Int, Add32, Cleared;
    IntCleared(x);
    IntBounded(Cleared(x));
    IntBounded(y);
    var t := Add32(Cleared(x), y);
    IntPlusExact(Cleared(x), y);
    IntBounded(t);
    OneLarge(x, y);
    IntCleared(t);
  }

  /** Addition is addition modulo 2^32. */
  lemma IntPlus(x: bv32, y: bv32)
    ensures Int(Add32(x, y)) == (Int(x) + Int(y)) % 0x1_0000_0000
  {
    hide Int, Add32, Cleared;
    IntBounded(x);
    IntBounded(y);
    if Int(x) + Int(y) < 0x1_0000_0000 { IntPlusExact(x, y); }
    else if x >= 0x8000_0000 && y >= 0x8000_0000 {
      IntCleared(x);
      IntCleared(y);
      BothLarge(x, y);
      IntPlusExact(Cleared(x), Cleared(y));
    } else if x >= 0x8000_0000 { IntPlusOneLarge(x, y); }
    else {
      AddCommutes(x, y);
      IntPlusOneLarge(y, x);
    }
  }

  lemma DifferenceSum(x: bv32, y: bv32)
    ensures Add32(x - y, y) == x
    ensures Sub32(x, y) == x - y
  {}

  lemma MinusPlus(x: bv32, y: bv32)
    ensures Add32(Sub32(x, y), y) == x
  {
    hide Add32, Sub32;
    DifferenceSum(x, y);
  }

  /** Subtraction is subtraction modulo 2^32. */
  lemma IntMinus(x: bv32, y: bv32)
    ensures Int(Sub32(x, y)) == (Int(x) - Int(y)) % 0x1_0000_0000
  {
    hide Int, Add32, Sub32;
    MinusPlus(x, y);
    IntPlus(Sub32(x, y), y);
    IntBounded(x);
    IntBounded(y);
    IntBounded(Sub32(x, y));
  }

  lemma ProductOfSum(a: bv32, b: bv32, y: bv32)
    ensures Mul32(a + b, y) == Add32(a * y, b * y)
  {}

  lemma TimesIs(x: bv32, y: bv32)
    ensures Mul32(x, y) == x * y
  {}

  lemma TimesDistributes(a: bv32, b: bv32, y: bv32)
    ensures Mul32(Add32(a, b), y) == Add32(Mul32(a, y), Mul32(b, y))
  {
    hide Add32, Mul32;
    ProductOfSum(a, b, y);
    PlusIs(a, b);
    TimesIs(a, y);
    TimesIs(b, y);
  }

  lemma TimesOne(y: bv32)
    ensures Mul32(1, y) == y && Mul32(y, 1) == y
  {}

  lemma ProductAssociates(a: bv32, b: bv32, c: bv32)
    ensures Mul32(a * b, c) == Mul32(a, b * c)
  {}

  lemma TimesAssociates(a: bv32, b: bv32, c: bv32)
    ensures Mul32(Mul32(a, b), c) == Mul32(a, Mul32(b, c))
  {
    hide Mul32;
    TimesIs(a, b);
    TimesIs(b, c);
    ProductAssociates(a, b, c);
  }

  lemma TimesSum(h: bv32, y: bv32)
    ensures Mul32(Add32(h, h), y) == Add32(Mul32(h, y), Mul32(h, y))
    ensures Mul32(Add32(Add32(h, h), 1), y) == Add32(Add32(Mul32(h, y), Mul32(h, y)), y)
  {
    hide Add32, Mul32;
    TimesDistributes(h, h, y);
    TimesDistributes(Add32(h, h), 1, y);
    TimesOne(y);
  }

  lemma TimesHalves(x: bv32, y: bv32)
    ensures Mul32(x, y) ==
      if LastBit(x) == 0 then Add32(Mul32(Half(x), y), Mul32(Half(x), y))
      else Add32(Add32(Mul32(Half(x), y), Mul32(Half(x), y)), y)
  {
    hide Half, Twice, TwiceOne, LastBit, Add32, Mul32;
    Halved(x);
    TwiceIs(Half(x));
    TwiceOneIs(Half(x));
    TimesSum(Half(x), y);
  }

  /** Multiplication is multiplication modulo 2^32. */
  lemma {:induction false} IntTimes(x: bv32, y: bv32)
    ensures Int(Mul32(x, y)) == (Int(x) * Int(y)) % 0x1_0000_0000
    decreases Int(x)
  {
    hide Int, Half, LastBit, Add32, Mul32;
    if Int(x) == 0 {
      ZeroWord(x);
      TimesZero(y);
      IntZero();
    } else {
      var h, p := Half(x), Mul32(Half(x), y);
      IntSplit(x);
      IntTimes(h, y);
      TimesHalves(x, y);
      IntPlus(p, p);
      IntPlus(Add32(p, p), y);
      DoubleModulo(Int(x), Int(h), if LastBit(x) == 0 then 0 else 1, Int(y));
    }
  }

  lemma TimesZero(y: bv32)
    ensures Mul32(0, y) == 0
  {}

  lemma DoubleModulo(x: nat, h: nat, b: nat, y: nat)
    requires x == 2 * h + b && b <= 1
    ensures
      var p := (h * y) % 0x1_0000_0000;
      (x * y) % 0x1_0000_0000 ==
        if b == 0 then (p + p) % 0x1_0000_0000 else ((p + p) % 0x1_0000_0000 + y) % 0x1_0000_0000
  {
    var M := 0x1_0000_0000;
    var q, p := (h * y) / M, (h * y) % M;
    var r := (p + p) / M;
    assert x * y == 2 * (h * y) + b * y;
    if b == 0 { SameModulo(x * y, p + p, 2 * q); }
    else { SameModulo(x * y, (p + p) % M + y, 2 * q + r); }
  }

  lemma SameModulo(a: int, b: int, k: int)
    requires a == 0x1_0000_0000 * k + b
    ensures a % 0x1_0000_0000 == b % 0x1_0000_0000
  {}

  /** The word with a given value. */
  function Word(n: nat): (x: bv32)
    requires n < 0x1_0000_0000
  {
    if n == 0 then 0 else if n % 2 == 0 then Twice(Word(n / 2)) else TwiceOne(Word(n / 2))
  }

  lemma {:induction false} IntWord(n: nat)
    requires n < 0x1_0000_0000
    ensures Int(Word(n)) == n
  {
    hide Int, Twice, TwiceOne;
    IntZero();
    if n > 0 {
      IntWord(n / 2);
      IntSmall(Word(n / 2));
      IntTwice(Word(n / 2));
    }
  }

  lemma WordAgain(x: bv32)
    ensures (Int(x) as bv32) == x
  {}

  /** A C int as a word, and back. */
  lemma IntOfInt(n: nat)
    requires n < 0x1_0000_0000
    ensures Int(n as bv32) == n
  {
    hide Int, Word;
    IntWord(n);
    WordAgain(Word(n));
  }
}
