/** Precompiled chunks: the dumper, block by block, and the loader that reads its bytes back. */
module LuaDump {
  import opened Wrappers
  import opened LuaValues
  import opened LittleEndian

  // ----- function prototypes -----

  /** A non-negative C int. */
  type CInt = x: int | 0 <= x < 0x8000_0000
  /** A 32-bit pattern: an instruction, or a line number as it is stored. */
  type Word = x: int | 0 <= x < 0x1_0000_0000

  datatype Const = KNil | KBool(b: bool) | KNumber(n: Number) | KString(s: Bytes)
  datatype Upvaldesc = Upvaldesc(name: Option<Bytes>, instack: Byte, idx: Byte)
  datatype LocVar = LocVar(varname: Option<Bytes>, startpc: CInt, endpc: CInt)

  /** A string that may be NULL is an Option; NULL and the empty string are different. */
  datatype Proto = Proto(
    linedefined: CInt, lastlinedefined: CInt, numparams: Byte, isVararg: Byte, maxstacksize: Byte,
    code: seq<Word>, k: seq<Const>, p: seq<Proto>, upvalues: seq<Upvaldesc>,
    source: Option<Bytes>, lineinfo: seq<Word>, locvars: seq<LocVar>)

  predicate CountOk(n: nat) { n < 0x8000_0000 }
  predicate StringOk(s: Bytes) { |s| + 1 < 0x1_0000_0000_0000_0000 }
  predicate NameOk(s: Option<Bytes>) { s.Some? ==> StringOk(s.value) }

  /** The sizes a prototype can have: its counts are C ints, its string sizes size_t values. */
  predicate WellFormed(f: Proto)
    decreases f
  {
    && CountOk(|f.code|) && CountOk(|f.k|) && CountOk(|f.p|) && CountOk(|f.upvalues|)
    && CountOk(|f.lineinfo|) && CountOk(|f.locvars|) && NameOk(f.source)
    && (forall i :: 0 <= i < |f.k| && f.k[i].KString? ==> StringOk(f.k[i].s))
    && (forall i :: 0 <= i < |f.upvalues| ==> NameOk(f.upvalues[i].name))
    && (forall i :: 0 <= i < |f.locvars| ==> NameOk(f.locvars[i].varname))
    && (forall i :: 0 <= i < |f.p| ==> WellFormed(f.p[i]))
  }

  function Nameless(u: Upvaldesc): Upvaldesc { u.(name := None) }

  function Map<T, U>(f: T -> U, xs: seq<T>): (ys: seq<U>)
    ensures |ys| == |xs|
    ensures forall i :: 0 <= i < |xs| ==> ys[i] == f(xs[i])
  {
    seq(|xs|, i requires 0 <= i < |xs| => f(xs[i]))
  }

  /** A prototype without debug information, at every nesting level. */
  function Erase(f: Proto): Proto
    decreases f
  {
    f.(source := None, lineinfo := [], locvars := [], upvalues := Map(Nameless, f.upvalues),
       p := seq(|f.p|, i requires 0 <= i < |f.p| => Erase(f.p[i])))
  }

  const INT_SIZE: nat := 4
  const SIZE_T_SIZE: nat := 8
  const NUMBER_SIZE: nat := 8

  const LUA_TNIL: Byte := 0
  const LUA_TBOOLEAN: Byte := 1
  const LUA_TNUMBER: Byte := 3
  const LUA_TSTRING: Byte := 4

  // ----- what is written, block by block -----

  type Blocks = seq<Bytes>

  function Flat(bs: Blocks): Bytes {
    if bs == [] then [] else bs[0] + Flat(bs[1..])
  }

  lemma {:induction false} FlatPlus(a: Blocks, b: Blocks)
    ensures Flat(a + b) == Flat(a) + Flat(b)
    decreases |a|
  {
    if a == [] { assert a + b == b; }
    else {
      FlatPlus(a[1..], b);
      assert (a + b)[1..] == a[1..] + b;
    }
  }

  function Join<T>(xs: seq<T>, f: T -> Blocks): Blocks {
    if xs == [] then [] else Join(xs[..|xs| - 1], f) + f(xs[|xs| - 1])
  }

  function CharBlocks(y: Byte): Blocks { [[y]] }
  function IntBlocks(x: nat): Blocks { [LE(x, INT_SIZE)] }
  function NumberBlocks(x: Number): Blocks { [LE(x, NUMBER_SIZE)] }

  function WordsBytes(ws: seq<Word>): Bytes {
    if ws == [] then [] else WordsBytes(ws[..|ws| - 1]) + LE(ws[|ws| - 1], INT_SIZE)
  }

  /** DumpVector on 32-bit items: the count, then all items in one block. */
  function VectorBlocks(ws: seq<Word>): Blocks { IntBlocks(|ws|) + [WordsBytes(ws)] }

  /** DumpString: size 0 for NULL, otherwise the size with the trailing zero, and the bytes. */
  function StringBlocks(s: Option<Bytes>): Blocks {
    match s
    case None => [LE(0, SIZE_T_SIZE)]
    case Some(b) => [LE(|b| + 1, SIZE_T_SIZE), b + [0]]
  }

  function Tag(c: Const): Byte {
    match c
    case KNil => LUA_TNIL
    case KBool(_) => LUA_TBOOLEAN
    case KNumber(_) => LUA_TNUMBER
    case KString(_) => LUA_TSTRING
  }

  function ConstBlocks(c: Const): Blocks {
    CharBlocks(Tag(c)) +
    match c
    case KNil => []
    case KBool(b) => CharBlocks(if b then 1 else 0)
    case KNumber(n) => NumberBlocks(n)
    case KString(s) => StringBlocks(Some(s))
  }

  function UpvalueBlocks(u: Upvaldesc): Blocks { CharBlocks(u.instack) + CharBlocks(u.idx) }
  function LocVarBlocks(v: LocVar): Blocks { StringBlocks(v.varname) + IntBlocks(v.startpc) + IntBlocks(v.endpc) }
  function NameBlocks(u: Upvaldesc): Blocks { StringBlocks(u.name) }

  function DebugBlocks(f: Proto, strip: bool): Blocks {
    StringBlocks(if strip then None else f.source)
    + VectorBlocks(if strip then [] else f.lineinfo)
    + IntBlocks(if strip then 0 else |f.locvars|) + (if strip then [] else Join(f.locvars, LocVarBlocks))
    + IntBlocks(if strip then 0 else |f.upvalues|) + (if strip then [] else Join(f.upvalues, NameBlocks))
  }

  function HeadBlocks(f: Proto): Blocks {
    IntBlocks(f.linedefined) + IntBlocks(f.lastlinedefined)
    + CharBlocks(f.numparams) + CharBlocks(f.isVararg) + CharBlocks(f.maxstacksize)
    + VectorBlocks(f.code)
    + IntBlocks(|f.k|) + Join(f.k, ConstBlocks)
  }

  function UpvaluesBlocks(f: Proto): Blocks { IntBlocks(|f.upvalues|) + Join(f.upvalues, UpvalueBlocks) }

  /** DumpFunction. */
  function FunctionBlocks(f: Proto, strip: bool): Blocks
    decreases f, 1, 0
  {
    HeadBlocks(f) + IntBlocks(|f.p|) + NestedBlocks(f, strip, |f.p|) + UpvaluesBlocks(f) + DebugBlocks(f, strip)
  }

  /** The first `n` nested functions. */
  function NestedBlocks(f: Proto, strip: bool, n: nat): Blocks
    requires n <= |f.p|
    decreases f, 0, n
  {
    if n == 0 then [] else NestedBlocks(f, strip, n - 1) + FunctionBlocks(f.p[n - 1], strip)
  }

  /** The bytes of a dumped function. */
  function Dump(f: Proto, strip: bool): Bytes { Flat(FunctionBlocks(f, strip)) }
}
