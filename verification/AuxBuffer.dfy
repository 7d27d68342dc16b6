/** The string buffer of the auxiliary library, with its wrapping size arithmetic. */
module AuxBuffer {
  /** size_t is 64 bits wide: every size is below this, and arithmetic wraps around it. */
  const SIZE_LIMIT: nat := 0x1_0000_0000_0000_0000

  function Plus(x: int, y: int): (r: nat) ensures r < SIZE_LIMIT { (x + y) % SIZE_LIMIT }
  function Minus(x: int, y: int): (r: nat) ensures r < SIZE_LIMIT { (x - y) % SIZE_LIMIT }
  function Twice(x: int): (r: nat) ensures r < SIZE_LIMIT { (x * 2) % SIZE_LIMIT }

  /** The size luaL_prepbuffsize asks for, before its check. */
  function NewSize(size: nat, n: nat, sz: nat): (r: nat)
    ensures r < SIZE_LIMIT
  {
    if Minus(Twice(size), n) < sz then Plus(n, sz) else Twice(size)
  }

  /** The check of luaL_prepbuffsize: does the size fail to hold the new content? */
  predicate Rejected(newsize: nat, n: nat, sz: nat) { newsize < n || Minus(newsize, n) < sz }

  /** Exactly when the check raises an error: the content would not fit any size, or doubling
      has wrapped around to less than the content there is. */
  predicate TooLarge(size: nat, n: nat, sz: nat) {
    || n + sz >= 0x1_0000_0000_0000_0000
    || (size * 2 >= 0x1_0000_0000_0000_0000 && size * 2 - 0x1_0000_0000_0000_0000 < n)
  }

  /** The check is exact, and a size that passes it never wrapped and holds the new content. */
  lemma GrowthIsSafe(size: nat, n: nat, sz: nat)
    requires n <= size < SIZE_LIMIT && sz < SIZE_LIMIT && Minus(size, n) < sz
    ensures Rejected(NewSize(size, n, sz), n, sz) <==> TooLarge(size, n, sz)
    ensures !TooLarge(size, n, sz) ==>
      var newsize := NewSize(size, n, sz);
      size < newsize && n + sz <= newsize && (newsize == n + sz || newsize == size * 2)
  {
    MinusIs(size, n);
    TwiceIs(size);
    MinusIs(Twice(size), n);
    PlusIs(n, sz);
    MinusIs(NewSize(size, n, sz), n);
  }

  /** An error for content that would fit: doubling 2^63 wraps to 0, which is not too small for
      the first test, and the second one rejects it. */
  lemma WrappedDoublingRejects()
    ensures
      var size, sz := 0x8000_0000_0000_0000, 1;
      Minus(size, size) < sz && size + sz < SIZE_LIMIT && Rejected(NewSize(size, size, sz), size, sz)
  {
    TwiceIs(SIZE_LIMIT / 2);
    MinusIs(0, SIZE_LIMIT / 2);
    MinusIs(SIZE_LIMIT / 2, SIZE_LIMIT / 2);
  }

  lemma MinusIs(x: nat, y: nat)
    requires x < SIZE_LIMIT && y < SIZE_LIMIT
    ensures Minus(x, y) == if x >= y then x - y else x - y + SIZE_LIMIT
  {}

  lemma PlusIs(x: nat, y: nat)
    requires x < SIZE_LIMIT && y < SIZE_LIMIT
    ensures Plus(x, y) == if x + y < SIZE_LIMIT then x + y else x + y - SIZE_LIMIT
  {}

  lemma TwiceIs(x: nat)
    requires x < SIZE_LIMIT
    ensures Twice(x) == if x * 2 < SIZE_LIMIT then x * 2 else x * 2 - SIZE_LIMIT
  {}

  /** What is on the Lua stack: strings, and the userdata a large buffer lives in. */
  datatype SVal = Str(s: string) | Box

  /** memcpy of a string to a position in an array. */
  method CopyTo(b: array<char>, at: nat, s: string)
    requires at + |s| <= b.Length
    modifies b
    ensures b[..at + |s|] == old(b[..at]) + s
  {
    ghost var done := b[..at];
    var i := 0;
    while i < |s|
      invariant 0 <= i <= |s| && b[..at + i] == done + s[..i]
    {
      b[at + i] := s[i];
      i := i + 1;
    }
    assert s[..i] == s;
  }

  class Buffer {
    const initb: array<char>
    var b: array<char>
    var n: nat
    var size: nat
    var stack: seq<SVal>

    /** luaL_buffinit, with LUAL_BUFFERSIZE characters inside the buffer itself. */
    constructor (buffersize: nat, stack: seq<SVal>)
      requires 0 < buffersize < SIZE_LIMIT / 2
      ensures Valid() && fresh(b) && Contents() == "" && this.stack == stack && !OnStack() && Lean()
      ensures initb.Length == buffersize
    {
      initb := new char[buffersize];
      n, size := 0, buffersize;
      this.stack := stack;
      new;
      b := initb;
    }

    ghost predicate Valid()
      reads this
    {
      n <= size == b.Length < SIZE_LIMIT && 0 < initb.Length < SIZE_LIMIT / 2 && (b == initb ==> size == initb.Length)
    }

    ghost function Contents(): string
      requires Valid()
      reads this, b
    {
      b[..n]
    }

    /** buffonstack. */
    predicate OnStack()
      reads this
    {
      b != initb
    }

    /** The buffer has not grown beyond twice what it holds. */
    ghost predicate Lean()
      reads this
    {
      size == initb.Length || size <= 2 * n
    }

    /** The stack when the buffer, if it is boxed, is on top of `below`. */
    ghost predicate Above(below: seq<SVal>)
      reads this
    {
      stack == below + if OnStack() then [Box] else []
    }

    /** luaL_prepbuffsize. */
    method PrepBuffSize(sz: nat, ghost below: seq<SVal>) returns (ok: bool)
      requires Valid() && sz < SIZE_LIMIT && Above(below)
      modifies this
      ensures Valid() && Above(below) && n == old(n) && Contents() == old(Contents())
      ensures ok <==> old(size - n >= sz || !TooLarge(size, n, sz))
      ensures ok ==> n + sz <= size && (b == old(b) || (fresh(b) && size <= 2 * (n + sz)))
      ensures !ok ==> b == old(b) && size == old(size)
      ensures size >= old(size) && (b == old(b) ==> size == old(size))
    {
      hide TooLarge, Minus, Plus, Twice;
      MinusSmall(size, n);
      if Minus(size, n) < sz {
        GrowthIsSafe(size, n, sz);
        var newsize := Twice(size);
        if Minus(newsize, n) < sz {
          newsize := Plus(n, sz);
        }
        if newsize < n || Minus(newsize, n) < sz { return false; }
        var newbuff := new char[newsize];
        ghost var done := b[..n];
        stack := stack + [Box];
        forall i | 0 <= i < n { newbuff[i] := b[i]; }
        if OnStack() {
          stack := stack[..|stack| - 2] + [stack[|stack| - 1]];
        }
        b := newbuff;
        size := newsize;
        assert b[..n] == done;
      }
      return true;
    }

    lemma MinusSmall(x: nat, y: nat)
      requires y <= x < SIZE_LIMIT
      ensures Minus(x, y) == x - y
    {}

    /** luaL_addlstring. */
    method AddLString(s: string, ghost below: seq<SVal>) returns (ok: bool)
      requires Valid() && |s| < SIZE_LIMIT && Above(below)
      modifies this, b
      ensures Valid() && Above(below) && (b == old(b) || fresh(b))
      ensures ok <==> old(size - n >= |s| || !TooLarge(size, n, |s|))
      ensures Contents() == old(Contents()) + if ok then s else ""
      ensures ok && old(Lean()) ==> Lean()
    {
      hide TooLarge;
      ok := PrepBuffSize(|s|, below);
      if !ok { return; }
      CopyTo(b, n, s);
      n := n + |s|;
    }

    /** luaL_addchar. */
    method AddChar(c: char, ghost below: seq<SVal>) returns (ok: bool)
      requires Valid() && Above(below)
      modifies this, b
      ensures Valid() && Above(below) && (b == old(b) || fresh(b))
      ensures ok <==> old(n < size || !TooLarge(size, n, 1))
      ensures Contents() == old(Contents()) + if ok then [c] else ""
    {
      hide TooLarge;
      ok := true;
      if n >= size { ok := PrepBuffSize(1, below); }
      if !ok { return; }
      ghost var done := b[..n];
      b[n] := c;
      n := n + 1;
      assert b[..n] == done + [c];
    }

    /** luaL_addvalue: the value on top of the stack goes into the buffer. */
    method AddValue(s: string, ghost below: seq<SVal>) returns (ok: bool)
      requires Valid() && |s| < SIZE_LIMIT
      requires stack == below + (if OnStack() then [Box] else []) + [Str(s)]
      modifies this, b
      ensures Valid() && (b == old(b) || fresh(b))
      ensures ok <==> old(size - n >= |s| || !TooLarge(size, n, |s|))
      ensures Contents() == old(Contents()) + if ok then s else ""
      ensures ok ==> Above(below)
    {
      hide TooLarge;
      if OnStack() {
        stack := stack[..|stack| - 2] + [stack[|stack| - 1], stack[|stack| - 2]];
      }
      assert stack == (below + [Str(s)]) + if OnStack() then [Box] else [];
      ok := AddLString(s, below + [Str(s)]);
      if !ok { return; }
      if OnStack() {
        stack := stack[..|stack| - 2] + [stack[|stack| - 1]];
      } else {
        stack := stack[..|stack| - 1];
      }
    }

    /** luaL_pushresult: the whole content is pushed, and the box, if any, removed. */
    method PushResult(ghost below: seq<SVal>)
      requires Valid() && Above(below)
      modifies this`stack
      ensures stack == below + [Str(old(Contents()))]
    {
      stack := stack + [Str(b[..n])];
      if OnStack() {
        stack := stack[..|stack| - 2] + [stack[|stack| - 1]];
      }
    }

    /** luaL_pushresultsize, after the caller has filled `sz` characters of the free area. */
    method PushResultSize(sz: nat, ghost below: seq<SVal>)
      requires Valid() && n + sz <= size && Above(below)
      modifies this`stack, this`n
      ensures stack == below + [Str(b[..old(n) + sz])]
    {
      n := n + sz;
      PushResult(below);
    }
  }
}
