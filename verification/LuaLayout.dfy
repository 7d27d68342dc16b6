/** The bytes of a precompiled chunk, one field after the other: a reference for the dumper that
    knows neither its blocks nor the loader. */
module LuaLayout {
  import opened Wrappers
  import opened LuaValues
  import opened LittleEndian
  import opened LuaDump
  import opened LuaDumper

  /** Four and eight bytes, the least significant first. */
  function Int4(x: nat): (b: Bytes)
    ensures |b| == 4
  {
    [x % 256, x / 256 % 256, x / 65536 % 256, x / 16777216 % 256]
  }

  function Int8(x: nat): (b: Bytes)
    ensures |b| == 8
  {
    Int4(x) + Int4(x / 4294967296)
  }

  /** A string with its size and a trailing zero; size 0 stands for no string. */
  function Text(s: Option<Bytes>): Bytes {
    if s.None? then [0, 0, 0, 0, 0, 0, 0, 0] else Int8(|s.value| + 1) + s.value + [0]
  }

  function Words(ws: seq<Word>): (b: Bytes)
    ensures |b| == 4 * |ws|
  {
    if ws == [] then [] else Int4(ws[0]) + Words(ws[1..])
  }

  /** A constant: its type tag, then its value. */
  function Constant(c: Const): Bytes {
    match c
    case KNil => [0]
    case KBool(b) => [1, if b then 1 else 0]
    case KNumber(n) => [3] + Int8(n)
    case KString(s) => [4] + Int8(|s| + 1) + s + [0]
  }

  /** The bytes of all items, one after the other. */
  function Each<T>(xs: seq<T>, f: T -> Bytes): Bytes {
    if xs == [] then [] else Each(xs[..|xs| - 1], f) + f(xs[|xs| - 1])
  }

  function Capture(u: Upvaldesc): Bytes { [u.instack, u.idx] }
  function Name(u: Upvaldesc): Bytes { Text(u.name) }
  function Variable(v: LocVar): Bytes { Text(v.varname) + Int4(v.startpc) + Int4(v.endpc) }

  /** Source name, line numbers, local variables and names of upvalues; all empty when stripped. */
  function Debug(f: Proto, strip: bool): Bytes {
    if strip then [0, 0, 0, 0, 0, 0, 0, 0] + [0, 0, 0, 0] + [0, 0, 0, 0] + [0, 0, 0, 0]
    else
      Text(f.source) + Int4(|f.lineinfo|) + Words(f.lineinfo) + Int4(|f.locvars|) + Each(f.locvars, Variable)
      + Int4(|f.upvalues|) + Each(f.upvalues, Name)
  }

  /** A function: its fixed fields, its code, constants, nested functions, upvalues, debug information. */
  function Function(f: Proto, strip: bool): Bytes
    decreases f, 1, 0
  {
    Int4(f.linedefined) + Int4(f.lastlinedefined) + [f.numparams, f.isVararg, f.maxstacksize]
    + Int4(|f.code|) + Words(f.code) + Int4(|f.k|) + Each(f.k, Constant) + Int4(|f.p|) + Nested(f, strip, |f.p|)
    + Int4(|f.upvalues|) + Each(f.upvalues, Capture) + Debug(f, strip)
  }

  function Nested(f: Proto, strip: bool, n: nat): Bytes
    requires n <= |f.p|
    decreases f, 0, n
  {
    if n == 0 then [] else Nested(f, strip, n - 1) + Function(f.p[n - 1], strip)
  }

  // ----- numbers -----

  /** The first four of some little-endian bytes. */
  lemma FourBytes(x: nat, w: nat)
    ensures LE(x, 4 + w) == Int4(x) + LE(x / 4294967296, w)
  {
    Quotients(x);
    assert LE(x, 4 + w) == [x % 256] + LE(x / 256, 3 + w);
    assert LE(x / 256, 3 + w) == [x / 256 % 256] + LE(x / 65536, 2 + w);
    assert LE(x / 65536, 2 + w) == [x / 65536 % 256] + LE(x / 16777216, 1 + w);
    assert LE(x / 16777216, 1 + w) == [x / 16777216 % 256] + LE(x / 4294967296, w);
  }

  lemma Quotients(x: nat)
    ensures x / 256 / 256 == x / 65536 && x / 65536 / 256 == x / 16777216 && x / 16777216 / 256 == x / 4294967296
  {}

  lemma IntBytes(x: nat)
    ensures LE(x, 4) == Int4(x) && LE(x, 8) == Int8(x)
  {
    FourBytes(x, 0);
    FourBytes(x, 4);
    FourBytes(x / 4294967296, 0);
  }

  lemma ZeroBytes()
    ensures Int4(0) == [0, 0, 0, 0] && Int8(0) == [0, 0, 0, 0, 0, 0, 0, 0]
  {}

  // ----- the pieces -----

  lemma FlatTwo(x: Bytes, y: Bytes)
    ensures Flat([x, y]) == x + y && Flat([x]) == x
  {
    assert [x, y][1..] == [y] && [y][1..] == [] && [x][1..] == [];
    assert Flat([y]) == y + Flat([]) && Flat([x]) == x + Flat([]);
  }

  lemma StringIs(s: Option<Bytes>)
    ensures Flat(StringBlocks(s)) == Text(s)
  {
    hide LE, Int8;
    ZeroBytes();
    match s
    case None =>
      IntBytes(0);
      FlatTwo(LE(0, 8), []);
    case Some(b) =>
      IntBytes(|b| + 1);
      FlatTwo(LE(|b| + 1, 8), b + [0]);
  }

  lemma IntIs(x: nat)
    ensures Flat(IntBlocks(x)) == Int4(x)
  {
    hide LE, Int4;
    IntBytes(x);
    FlatTwo(LE(x, 4), []);
  }

  lemma CharIs(y: Byte)
    ensures Flat(CharBlocks(y)) == [y]
  {}

  /** A dumped constant starts with 0, 1, 3 or 4. */
  lemma ConstantIs(c: Const)
    ensures Flat(ConstBlocks(c)) == Constant(c)
  {
    hide LE, Int8, Flat;
    FlatPlus(CharBlocks(Tag(c)), match c case KNil => [] case KBool(b) => CharBlocks(if b then 1 else 0)
      case KNumber(n) => NumberBlocks(n) case KString(s) => StringBlocks(Some(s)));
    CharIs(Tag(c));
    match c
    case KNil => FlatNone();
    case KBool(b) => CharIs(if b then 1 else 0);
    case KNumber(n) =>
      IntBytes(n);
      FlatTwo(LE(n, 8), []);
    case KString(s) => StringIs(Some(s));
  }

  lemma FlatNone()
    ensures Flat([]) == []
  {}

  lemma {:induction false} WordsLast(ws: seq<Word>, w: Word)
    ensures Words(ws + [w]) == Words(ws) + Int4(w)
    decreases |ws|
  {
    hide Int4;
    if ws == [] { assert ws + [w] == [w] && [w][1..] == []; }
    else {
      assert (ws + [w])[1..] == ws[1..] + [w];
      WordsLast(ws[1..], w);
    }
  }

  lemma {:induction false} WordsAre(ws: seq<Word>)
    ensures WordsBytes(ws) == Words(ws)
    decreases |ws|
  {
    hide LE, Int4;
    if ws != [] {
      var last := |ws| - 1;
      WordsAre(ws[..last]);
      WordsLast(ws[..last], ws[last]);
      assert ws[..last] + [ws[last]] == ws;
      IntBytes(ws[last]);
    }
  }

  lemma VectorIs(ws: seq<Word>)
    ensures Flat(VectorBlocks(ws)) == Int4(|ws|) + Words(ws)
  {
    hide Flat, Int4, LE;
    FlatPlus(IntBlocks(|ws|), [WordsBytes(ws)]);
    IntIs(|ws|);
    FlatTwo(WordsBytes(ws), []);
    WordsAre(ws);
  }

  lemma {:induction false} JoinIs<T>(xs: seq<T>, f: T -> Blocks, g: T -> Bytes)
    requires forall x :: x in xs ==> Flat(f(x)) == g(x)
    ensures Flat(Join(xs, f)) == Each(xs, g)
    decreases |xs|
  {
    hide Flat;
    if xs == [] { FlatNone(); }
    else {
      var last := |xs| - 1;
      JoinIs(xs[..last], f, g);
      FlatPlus(Join(xs[..last], f), f(xs[last]));
    }
  }

  lemma CaptureIs(u: Upvaldesc)
    ensures Flat(UpvalueBlocks(u)) == Capture(u)
  {
    hide Flat;
    FlatPlus(CharBlocks(u.instack), CharBlocks(u.idx));
    CharIs(u.instack);
    CharIs(u.idx);
  }

  lemma VariableIs(v: LocVar)
    ensures Flat(LocVarBlocks(v)) == Variable(v)
  {
    hide Flat, Int4, Text, StringBlocks, IntBlocks;
    FlatPlus(StringBlocks(v.varname) + IntBlocks(v.startpc), IntBlocks(v.endpc));
    FlatPlus(StringBlocks(v.varname), IntBlocks(v.startpc));
    StringIs(v.varname);
    IntIs(v.startpc);
    IntIs(v.endpc);
  }

  lemma HeadIs(f: Proto)
    ensures Flat(HeadBlocks(f)) ==
      Int4(f.linedefined) + Int4(f.lastlinedefined) + [f.numparams, f.isVararg, f.maxstacksize]
      + Int4(|f.code|) + Words(f.code) + Int4(|f.k|) + Each(f.k, Constant)
  {
    hide Flat, Int4, IntBlocks, VectorBlocks, CharBlocks, Join, Each, Words;
    var a := IntBlocks(f.linedefined) + IntBlocks(f.lastlinedefined);
    var b := a + CharBlocks(f.numparams);
    var c := b + CharBlocks(f.isVararg);
    var d := c + CharBlocks(f.maxstacksize);
    FlatPlus(IntBlocks(f.linedefined), IntBlocks(f.lastlinedefined));
    FlatPlus(a, CharBlocks(f.numparams));
    FlatPlus(b, CharBlocks(f.isVararg));
    FlatPlus(c, CharBlocks(f.maxstacksize));
    FlatPlus(d, VectorBlocks(f.code));
    FlatPlus(d + VectorBlocks(f.code), IntBlocks(|f.k|));
    FlatPlus(d + VectorBlocks(f.code) + IntBlocks(|f.k|), Join(f.k, ConstBlocks));
    IntIs(f.linedefined);
    IntIs(f.lastlinedefined);
    CharIs(f.numparams);
    CharIs(f.isVararg);
    CharIs(f.maxstacksize);
    VectorIs(f.code);
    IntIs(|f.k|);
    forall x | x in f.k ensures Flat(ConstBlocks(x)) == Constant(x) { ConstantIs(x); }
    JoinIs(f.k, ConstBlocks, Constant);
  }

  lemma UpvaluesAre(f: Proto)
    ensures Flat(UpvaluesBlocks(f)) == Int4(|f.upvalues|) + Each(f.upvalues, Capture)
  {
    hide Flat, Int4, IntBlocks, Join, Each, UpvalueBlocks;
    FlatPlus(IntBlocks(|f.upvalues|), Join(f.upvalues, UpvalueBlocks));
    IntIs(|f.upvalues|);
    forall x | x in f.upvalues ensures Flat(UpvalueBlocks(x)) == Capture(x) { CaptureIs(x); }
    JoinIs(f.upvalues, UpvalueBlocks, Capture);
  }

  /** The five parts of the debug information. */
  lemma DebugParts(a: Blocks, b: Blocks, c: Blocks, d: Blocks, e: Blocks, g: Blocks)
    ensures Flat(a + b + c + d + e + g) == Flat(a) + Flat(b) + Flat(c) + Flat(d) + Flat(e) + Flat(g)
  {
    hide Flat;
    FlatPlus(a, b);
    FlatPlus(a + b, c);
    FlatPlus(a + b + c, d);
    FlatPlus(a + b + c + d, e);
    FlatPlus(a + b + c + d + e, g);
  }

  lemma DebugIs(f: Proto, strip: bool)
    ensures Flat(DebugBlocks(f, strip)) == Debug(f, strip)
  {
    hide Flat, Int4, IntBlocks, Join, Each, StringBlocks, VectorBlocks, NameBlocks, LocVarBlocks, Text, Words;
    if strip {
      DebugParts(StringBlocks(None), VectorBlocks([]), IntBlocks(0), [], IntBlocks(0), []);
      StringIs(None);
      VectorIs([]);
      IntIs(0);
      FlatNone();
      ZeroBytes();
      NoText();
    } else {
      DebugParts(StringBlocks(f.source), VectorBlocks(f.lineinfo), IntBlocks(|f.locvars|), Join(f.locvars,
          LocVarBlocks),
        IntBlocks(|f.upvalues|), Join(f.upvalues, NameBlocks));
      StringIs(f.source);
      VectorIs(f.lineinfo);
      IntIs(|f.locvars|);
      IntIs(|f.upvalues|);
      forall x | x in f.locvars ensures Flat(LocVarBlocks(x)) == Variable(x) { VariableIs(x); }
      JoinIs(f.locvars, LocVarBlocks, Variable);
      forall x | x in f.upvalues ensures Flat(NameBlocks(x)) == Name(x) { NameIs(x); }
      JoinIs(f.upvalues, NameBlocks, Name);
    }
  }

  lemma NoText()
    ensures Text(None) == [0, 0, 0, 0, 0, 0, 0, 0] && Words([]) == []
  {}

  lemma NameIs(u: Upvaldesc)
    ensures Flat(NameBlocks(u)) == Name(u)
  {
    StringIs(u.name);
  }

  /** The dumper writes exactly these bytes. */
  lemma {:induction false} DumpIs(f: Proto, strip: bool)
    ensures Dump(f, strip) == Function(f, strip)
    decreases f, 1, 0
  {
    hide Flat, Int4, IntBlocks, HeadBlocks, UpvaluesBlocks, DebugBlocks, Each, Words, Debug;
    var a := HeadBlocks(f) + IntBlocks(|f.p|);
    FlatPlus(HeadBlocks(f), IntBlocks(|f.p|));
    FlatPlus(a, NestedBlocks(f, strip, |f.p|));
    FlatPlus(a + NestedBlocks(f, strip, |f.p|), UpvaluesBlocks(f));
    FlatPlus(a + NestedBlocks(f, strip, |f.p|) + UpvaluesBlocks(f), DebugBlocks(f, strip));
    HeadIs(f);
    IntIs(|f.p|);
    NestedIs(f, strip, |f.p|);
    UpvaluesAre(f);
    DebugIs(f, strip);
  }

  lemma {:induction false} NestedIs(f: Proto, strip: bool, n: nat)
    requires n <= |f.p|
    ensures Flat(NestedBlocks(f, strip, n)) == Nested(f, strip, n)
    decreases f, 0, n
  {
    hide Flat, FunctionBlocks, Function;
    if n == 0 { FlatNone(); }
    else {
      NestedIs(f, strip, n - 1);
      FlatPlus(NestedBlocks(f, strip, n - 1), FunctionBlocks(f.p[n - 1], strip));
      DumpIs(f.p[n - 1], strip);
    }
  }

  // ----- positions -----

  lemma {:induction false} WordAt(ws: seq<Word>, i: nat)
    requires i < |ws|
    ensures Words(ws)[4 * i..4 * i + 4] == Int4(ws[i])
    decreases i
  {
    hide Int4;
    if i > 0 {
      WordAt(ws[1..], i - 1);
      assert Words(ws)[4 * i..4 * i + 4] == Words(ws[1..])[4 * (i - 1)..4 * (i - 1) + 4];
    }
  }

  /** Where the fixed fields and the instructions are. */
  lemma Positions(f: Proto, strip: bool)
    ensures
      var d := Dump(f, strip);
      && |d| >= 15 + 4 * |f.code|
      && d[0..4] ==
           [f.linedefined % 256, f.linedefined / 256 % 256, f.linedefined / 65536 % 256, f.linedefined / 16777216 % 256]
      && d[4..8] == Int4(f.lastlinedefined)
      && d[8] == f.numparams && d[9] == f.isVararg && d[10] == f.maxstacksize
      && d[11..15] == Int4(|f.code|)
      && forall i {:trigger f.code[i]} :: 0 <= i < |f.code| ==> d[15 + 4 * i..15 + 4 * i + 4] == Int4(f.code[i])
  {
    DumpIs(f, strip);
    FieldsAt(f, strip);
    hide Words, Function;
    var d := Dump(f, strip);
    forall i | 0 <= i < |f.code| ensures d[15 + 4 * i..15 + 4 * i + 4] == Int4(f.code[i]) {
      WordAt(f.code, i);
      SliceOfSlice(d, 15, 15 + 4 * |f.code|, 4 * i, 4 * i + 4);
    }
  }

  lemma SliceOfSlice(d: Bytes, a: nat, b: nat, i: nat, j: nat)
    requires a <= b <= |d| && i <= j <= b - a
    ensures d[a..b][i..j] == d[a + i..a + j]
  {
    var l, r := d[a..b][i..j], d[a + i..a + j];
    forall k | 0 <= k < |l| ensures l[k] == r[k] {
      assert l[k] == d[a..b][i + k] && r[k] == d[a + i + k];
    }
  }

  lemma FieldsAt(f: Proto, strip: bool)
    ensures
      var d := Function(f, strip);
      && |d| >= 15 + 4 * |f.code|
      && d[0..4] == Int4(f.linedefined) && d[4..8] == Int4(f.lastlinedefined)
      && d[8] == f.numparams && d[9] == f.isVararg && d[10] == f.maxstacksize
      && d[11..15] == Int4(|f.code|) && d[15..15 + 4 * |f.code|] == Words(f.code)
  {
    hide Int4, Words, Each, Nested, Debug;
    var rest := Int4(|f.k|) + Each(f.k, Constant) + Int4(|f.p|) + Nested(f, strip, |f.p|)
      + Int4(|f.upvalues|) + Each(f.upvalues, Capture) + Debug(f, strip);
    var fields := [f.numparams, f.isVararg, f.maxstacksize];
    assert Function(f, strip) ==
      Int4(f.linedefined) + Int4(f.lastlinedefined) + fields + Int4(|f.code|) + Words(f.code) + rest;
  }

  /** The header: signature, version 5.2, official format, little-endian, ..., and the tail. */
  lemma HeaderBytes()
    ensures |HEADER| == 18
    ensures HEADER[0] == 27 && HEADER[1] == 'L' as int && HEADER[2] == 'u' as int && HEADER[3] == 'a' as int
    ensures HEADER[4] == 5 * 16 + 2 && HEADER[5] == 0 && HEADER[6] == 1 && HEADER[11] == 0
    ensures HEADER[12] == 0x19 && HEADER[13] == 0x93 && HEADER[14] == '\r' as int && HEADER[15] == '\n' as int
    ensures HEADER[16] == 0x1a && HEADER[17] == '\n' as int
  {}

  /** ... and in between the sizes the dump really uses for an int, a size, an instruction and a
      number; the byte before them tells that the least significant byte comes first. */
  lemma HeaderSizes(x: nat, s: Option<Bytes>, w: Word, n: Number)
    ensures Flat(IntBlocks(x)) == Int4(x) && HEADER[7] == |Flat(IntBlocks(x))|
    ensures |StringBlocks(s)| > 0 && HEADER[8] == |StringBlocks(s)[0]|
    ensures HEADER[9] == |WordsBytes([w])| && HEADER[10] == |Flat(NumberBlocks(n))|
    ensures HEADER[6] == Flat(IntBlocks(1))[0]
  {
    hide LE, Int8;
    IntIs(x);
    IntIs(1);
    WordsAre([w]);
    IntBytes(n);
    FlatTwo(LE(n, 8), []);
  }
}
