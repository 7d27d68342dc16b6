/** The loader of precompiled chunks, and the round trip that makes the dump format uniquely
    decodable. */
module LuaUndump {
  import opened Wrappers
  import opened LuaValues
  import opened LittleEndian
  import opened LuaDump

  datatype LoadError = Truncated | Corrupted

  /** A value read from the front of some bytes, and the bytes after it. */
  datatype Loaded<T> = Ok(value: T, rest: Bytes) | Err(error: LoadError)

  ghost predicate Shrinks<T(!new)>(one: Bytes -> Loaded<T>) {
    forall b: Bytes :: one(b).Ok? ==> |one(b).rest| <= |b|
  }

  function LoadBlock(b: Bytes, n: nat): (r: Loaded<Bytes>)
    ensures r.Ok? ==> |r.value| == n && |r.rest| + n == |b|
  {
    if n <= |b| then Ok(b[..n], b[n..]) else Err(Truncated)
  }

  function LoadChar(b: Bytes): (r: Loaded<Byte>)
    ensures r.Ok? ==> |r.rest| < |b|
  {
    if b == [] then Err(Truncated) else Ok(b[0], b[1..])
  }

  function LoadWord(b: Bytes): (r: Loaded<Word>)
    ensures r.Ok? ==> |r.rest| < |b|
  {
    var x := LoadBlock(b, INT_SIZE);
    if x.Err? then Err(x.error) else LEWord(x.value); Ok(FromLE(x.value), x.rest)
  }

  /** LoadInt: a negative count is rejected. */
  function LoadInt(b: Bytes): (r: Loaded<CInt>)
    ensures r.Ok? ==> |r.rest| < |b|
  {
    var x := LoadWord(b);
    if x.Err? then Err(x.error) else if x.value >= 0x8000_0000 then Err(Corrupted) else Ok(x.value, x.rest)
  }

  function LoadNumber(b: Bytes): (r: Loaded<Number>)
    ensures r.Ok? ==> |r.rest| < |b|
  {
    var x := LoadBlock(b, NUMBER_SIZE);
    if x.Err? then Err(x.error) else LEWord(x.value); Ok(FromLE(x.value), x.rest)
  }

  function LoadString(b: Bytes): (r: Loaded<Option<Bytes>>)
    ensures r.Ok? ==> |r.rest| < |b|
  {
    var size := LoadBlock(b, SIZE_T_SIZE);
    if size.Err? then Err(size.error)
    else if FromLE(size.value) == 0 then Ok(None, size.rest)
    else
      var s := LoadBlock(size.rest, FromLE(size.value));
      if s.Err? then Err(s.error) else Ok(Some(s.value[..|s.value| - 1]), s.rest)
  }

  lemma {:induction false} FromLEBound(b: Bytes)
    ensures FromLE(b) < Pow256(|b|)
  {
    if b != [] { FromLEBound(b[1..]); }
  }

  lemma LEWord(b: Bytes)
    ensures |b| == INT_SIZE ==> FromLE(b) < 0x1_0000_0000
    ensures |b| == NUMBER_SIZE ==> FromLE(b) < 0x1_0000_0000_0000_0000
  {
    FromLEBound(b);
    Pow256Values();
  }

  /** `n` values, one after the other. */
  function Many<T(!new)>(n: nat, b: Bytes, one: Bytes -> Loaded<T>): (r: Loaded<seq<T>>)
    requires Shrinks(one)
    ensures r.Ok? ==> |r.value| == n && |r.rest| <= |b|
  {
    if n == 0 then Ok([], b)
    else
      var xs := Many(n - 1, b, one);
      if xs.Err? then Err(xs.error)
      else
        var x := one(xs.rest);
        if x.Err? then Err(x.error) else Ok(xs.value + [x.value], x.rest)
  }

  function LoadConst(b: Bytes): (r: Loaded<Const>)
    ensures r.Ok? ==> |r.rest| < |b|
  {
    var t := LoadChar(b);
    if t.Err? then Err(t.error)
    else if t.value == LUA_TNIL then Ok(KNil, t.rest)
    else if t.value == LUA_TBOOLEAN then
      var x := LoadChar(t.rest);
      if x.Err? then Err(x.error) else Ok(KBool(x.value != 0), x.rest)
    else if t.value == LUA_TNUMBER then
      var x := LoadNumber(t.rest);
      if x.Err? then Err(x.error) else Ok(KNumber(x.value), x.rest)
    else if t.value == LUA_TSTRING then
      var x := LoadString(t.rest);
      if x.Err? then Err(x.error) else if x.value.None? then Err(Corrupted) else Ok(KString(x.value.value), x.rest)
    else Err(Corrupted)
  }

  function LoadUpvalue(b: Bytes): (r: Loaded<Upvaldesc>)
    ensures r.Ok? ==> |r.rest| < |b|
  {
    var x := LoadChar(b);
    if x.Err? then Err(x.error)
    else
      var y := LoadChar(x.rest);
      if y.Err? then Err(y.error) else Ok(Upvaldesc(None, x.value, y.value), y.rest)
  }

  function LoadLocVar(b: Bytes): (r: Loaded<LocVar>)
    ensures r.Ok? ==> |r.rest| < |b|
  {
    var x := LoadString(b);
    if x.Err? then Err(x.error)
    else
      var y := LoadInt(x.rest);
      if y.Err? then Err(y.error)
      else
        var z := LoadInt(y.rest);
        if z.Err? then Err(z.error) else Ok(LocVar(x.value, y.value, z.value), z.rest)
  }

  /** A count and that many values. */
  function Counted<T(!new)>(b: Bytes, one: Bytes -> Loaded<T>): (r: Loaded<seq<T>>)
    requires Shrinks(one)
    ensures r.Ok? ==> |r.rest| < |b|
  {
    var n := LoadInt(b);
    if n.Err? then Err(n.error) else Many(n.value, n.rest, one)
  }

  /** The fields before the nested functions. */
  datatype Head = Head(
    linedefined: CInt, lastlinedefined: CInt, numparams: Byte, isVararg: Byte, maxstacksize: Byte,
    code: seq<Word>, k: seq<Const>)

  function LoadHead(b: Bytes): (r: Loaded<Head>)
    ensures r.Ok? ==> |r.rest| < |b|
  {
    var first := LoadInt(b);
    if first.Err? then Err(first.error) else
    var last := LoadInt(first.rest);
    if last.Err? then Err(last.error) else
    var params := LoadChar(last.rest);
    if params.Err? then Err(params.error) else
    var vararg := LoadChar(params.rest);
    if vararg.Err? then Err(vararg.error) else
    var stack := LoadChar(vararg.rest);
    if stack.Err? then Err(stack.error) else
    var code := Counted(stack.rest, LoadWord);
    if code.Err? then Err(code.error) else
    var k := Counted(code.rest, LoadConst);
    if k.Err? then Err(k.error) else
    Ok(Head(first.value, last.value, params.value, vararg.value, stack.value, code.value, k.value), k.rest)
  }

  /** The debug information; names of upvalues are fewer than upvalues in a stripped chunk. */
  datatype Debug = Debug(source: Option<Bytes>, lineinfo: seq<Word>, locvars: seq<LocVar>, names: seq<Option<Bytes>>)

  function LoadDebug(b: Bytes): (r: Loaded<Debug>)
    ensures r.Ok? ==> |r.rest| < |b|
  {
    var source := LoadString(b);
    if source.Err? then Err(source.error) else
    var lines := Counted(source.rest, LoadWord);
    if lines.Err? then Err(lines.error) else
    var vars := Counted(lines.rest, LoadLocVar);
    if vars.Err? then Err(vars.error) else
    var names := Counted(vars.rest, LoadString);
    if names.Err? then Err(names.error) else
    Ok(Debug(source.value, lines.value, vars.value, names.value), names.rest)
  }

  /** The upvalues, the first of them with the names read. */
  function Named(us: seq<Upvaldesc>, names: seq<Option<Bytes>>): (r: seq<Upvaldesc>)
    requires |names| <= |us|
    ensures |r| == |us|
  {
    seq(|us|, i requires 0 <= i < |us| => if i < |names| then us[i].(name := names[i]) else us[i])
  }

  /** LoadFunction. */
  function LoadFunction(b: Bytes): (r: Loaded<Proto>)
    ensures r.Ok? ==> |r.rest| < |b|
    decreases |b|, 0, 0
  {
    var h := LoadHead(b);
    if h.Err? then Err(h.error) else
    var n := LoadInt(h.rest);
    if n.Err? then Err(n.error) else
    var ps := LoadProtos(n.value, n.rest);
    if ps.Err? then Err(ps.error) else
    var us := Counted(ps.rest, LoadUpvalue);
    if us.Err? then Err(us.error) else
    var d := LoadDebug(us.rest);
    if d.Err? then Err(d.error) else
    if |d.value.names| > |us.value| then Err(Corrupted) else
    Ok(Proto(h.value.linedefined, h.value.lastlinedefined, h.value.numparams, h.value.isVararg, h.value.maxstacksize,
             h.value.code, h.value.k, ps.value, Named(us.value, d.value.names),
             d.value.source, d.value.lineinfo, d.value.locvars), d.rest)
  }

  function LoadProtos(n: nat, b: Bytes): (r: Loaded<seq<Proto>>)
    ensures r.Ok? ==> |r.value| == n && |r.rest| <= |b|
    decreases |b|, 1, n
  {
    if n == 0 then Ok([], b)
    else
      var fs := LoadProtos(n - 1, b);
      if fs.Err? then Err(fs.error)
      else
        var f := LoadFunction(fs.rest);
        if f.Err? then Err(f.error) else Ok(fs.value + [f.value], f.rest)
  }

  // ----- reading back what was written -----

  lemma LoadBlockBack(x: Bytes, y: Bytes)
    ensures LoadBlock(x + y, |x|) == Ok(x, y)
  {}

  lemma CharBack(c: Byte, y: Bytes)
    ensures LoadChar(Flat(CharBlocks(c)) + y) == Ok(c, y)
  {
    assert Flat([[c]]) == [c];
  }

  lemma FlatOne(x: Bytes)
    ensures Flat([x]) == x
  {}

  lemma WordBack(x: Word, y: Bytes)
    ensures LoadWord(LE(x, INT_SIZE) + y) == Ok(x, y)
  {
    Pow256Values();
    FromLEofLE(x, INT_SIZE);
    LoadBlockBack(LE(x, INT_SIZE), y);
  }

  lemma IntBack(x: CInt, y: Bytes)
    ensures LoadInt(Flat(IntBlocks(x)) + y) == Ok(x, y)
  {
    FlatOne(LE(x, INT_SIZE));
    WordBack(x, y);
  }

  lemma NumberBack(x: Number, y: Bytes)
    ensures LoadNumber(Flat(NumberBlocks(x)) + y) == Ok(x, y)
  {
    Pow256Values();
    FlatOne(LE(x, NUMBER_SIZE));
    FromLEofLE(x, NUMBER_SIZE);
    LoadBlockBack(LE(x, NUMBER_SIZE), y);
  }

  lemma StringBack(s: Option<Bytes>, y: Bytes)
    requires NameOk(s)
    ensures LoadString(Flat(StringBlocks(s)) + y) == Ok(s, y)
  {
    hide LE, FromLE;
    Pow256Values();
    match s
    case None =>
      FlatOne(LE(0, SIZE_T_SIZE));
      FromLEofLE(0, SIZE_T_SIZE);
      LoadBlockBack(LE(0, SIZE_T_SIZE), y);
    case Some(b) =>
      var size := LE(|b| + 1, SIZE_T_SIZE);
      FlatPlus([size], [b + [0]]);
      FlatOne(size);
      FlatOne(b + [0]);
      FromLEofLE(|b| + 1, SIZE_T_SIZE);
      LoadBlockBack(size, (b + [0]) + y);
      assert size + (b + [0]) + y == size + ((b + [0]) + y);
      LoadBlockBack(b + [0], y);
      assert (b + [0])[..|b|] == b;
  }

  /** Reading what two groups of blocks wrote starts with the first group. */
  lemma FlatThen(a: Blocks, b: Blocks, y: Bytes)
    ensures Flat(a + b) + y == Flat(a) + (Flat(b) + y)
  {
    FlatPlus(a, b);
  }

  lemma ConstBack(c: Const, y: Bytes)
    requires c.KString? ==> StringOk(c.s)
    ensures LoadConst(Flat(ConstBlocks(c)) + y) == Ok(c, y)
  {
    hide Flat, LoadString, LoadNumber, LoadChar, CharBlocks, NumberBlocks, StringBlocks;
    match c
    case KNil =>
      assert CharBlocks(LUA_TNIL) + [] == CharBlocks(LUA_TNIL);
      CharBack(LUA_TNIL, y);
    case KBool(b) =>
      var x: Byte := if b then 1 else 0;
      FlatThen(CharBlocks(LUA_TBOOLEAN), CharBlocks(x), y);
      CharBack(LUA_TBOOLEAN, Flat(CharBlocks(x)) + y);
      CharBack(x, y);
    case KNumber(n) =>
      FlatThen(CharBlocks(LUA_TNUMBER), NumberBlocks(n), y);
      CharBack(LUA_TNUMBER, Flat(NumberBlocks(n)) + y);
      NumberBack(n, y);
    case KString(s) =>
      FlatThen(CharBlocks(LUA_TSTRING), StringBlocks(Some(s)), y);
      CharBack(LUA_TSTRING, Flat(StringBlocks(Some(s))) + y);
      StringBack(Some(s), y);
  }

  lemma UpvalueBack(u: Upvaldesc, y: Bytes)
    ensures LoadUpvalue(Flat(UpvalueBlocks(u)) + y) == Ok(Nameless(u), y)
  {
    hide Flat, LoadChar, CharBlocks;
    FlatThen(CharBlocks(u.instack), CharBlocks(u.idx), y);
    CharBack(u.instack, Flat(CharBlocks(u.idx)) + y);
    CharBack(u.idx, y);
  }

  lemma LocVarBack(v: LocVar, y: Bytes)
    requires NameOk(v.varname)
    ensures LoadLocVar(Flat(LocVarBlocks(v)) + y) == Ok(v, y)
  {
    hide Flat, LoadString, LoadInt, StringBlocks, IntBlocks;
    FlatThen(StringBlocks(v.varname) + IntBlocks(v.startpc), IntBlocks(v.endpc), y);
    FlatThen(StringBlocks(v.varname), IntBlocks(v.startpc), Flat(IntBlocks(v.endpc)) + y);
    StringBack(v.varname, Flat(IntBlocks(v.startpc)) + (Flat(IntBlocks(v.endpc)) + y));
    IntBack(v.startpc, Flat(IntBlocks(v.endpc)) + y);
    IntBack(v.endpc, y);
  }

  /** `one` reads back what `out` writes for `x`, as `back(x)`. */
  ghost predicate Reads<S(!new), T(!new)>(out: S -> Blocks, one: Bytes -> Loaded<T>, back: S -> T, x: S) {
    forall y: Bytes :: one(Flat(out(x)) + y) == Ok(back(x), y)
  }

  lemma {:induction false} ManyBack<S(!new), T(!new)>(xs: seq<S>, out: S -> Blocks, one: Bytes -> Loaded<T>,
      back: S -> T, y: Bytes)
    requires Shrinks(one) && forall i :: 0 <= i < |xs| ==> Reads(out, one, back, xs[i])
    ensures Many(|xs|, Flat(Join(xs, out)) + y, one) == Ok(Map(back, xs), y)
    decreases |xs|
  {
    hide Flat, Shrinks, Reads;
    if xs == [] { FlatNothing(); assert [] + y == y; assert Map(back, xs) == []; }
    else {
      var last := |xs| - 1;
      var x := xs[last];
      FlatThen(Join(xs[..last], out), out(x), y);
      ManyBack(xs[..last], out, one, back, Flat(out(x)) + y);
      ReadsOne(out, one, back, x, y);
      assert Map(back, xs) == Map(back, xs[..last]) + [back(x)];
    }
  }

  lemma ReadsOne<S(!new), T(!new)>(out: S -> Blocks, one: Bytes -> Loaded<T>, back: S -> T, x: S, y: Bytes)
    requires Reads(out, one, back, x)
    ensures one(Flat(out(x)) + y) == Ok(back(x), y)
  {}

  lemma FlatNothing()
    ensures Flat([]) == []
  {}

  lemma CountedBack<S(!new), T(!new)>(xs: seq<S>, out: S -> Blocks, one: Bytes -> Loaded<T>, back: S -> T, y: Bytes)
    requires Shrinks(one) && CountOk(|xs|) && forall i :: 0 <= i < |xs| ==> Reads(out, one, back, xs[i])
    ensures Counted(Flat(IntBlocks(|xs|) + Join(xs, out)) + y, one) == Ok(Map(back, xs), y)
  {
    hide Flat, Shrinks, Reads, LoadInt, IntBlocks;
    FlatThen(IntBlocks(|xs|), Join(xs, out), y);
    IntBack(|xs|, Flat(Join(xs, out)) + y);
    ManyBack(xs, out, one, back, y);
  }

  lemma {:induction false} WordsBack(ws: seq<Word>, y: Bytes)
    ensures Many(|ws|, WordsBytes(ws) + y, LoadWord) == Ok(ws, y)
    decreases |ws|
  {
    hide LE, LoadWord;
    WordsShrink();
    if ws == [] { assert WordsBytes(ws) + y == y; }
    else {
      var last := |ws| - 1;
      var w := LE(ws[last], INT_SIZE);
      assert WordsBytes(ws) + y == WordsBytes(ws[..last]) + (w + y);
      WordsBack(ws[..last], w + y);
      WordBack(ws[last], y);
      assert ws[..last] + [ws[last]] == ws;
    }
  }

  lemma WordsShrink()
    ensures Shrinks(LoadWord) && Shrinks(LoadConst) && Shrinks(LoadUpvalue) && Shrinks(LoadLocVar)
    ensures Shrinks(LoadString)
  {}

  lemma VectorBack(ws: seq<Word>, y: Bytes)
    requires CountOk(|ws|)
    ensures Counted(Flat(VectorBlocks(ws)) + y, LoadWord) == Ok(ws, y)
  {
    hide Flat, LoadInt, IntBlocks, LoadWord, WordsBytes, Shrinks;
    WordsShrink();
    FlatThen(IntBlocks(|ws|), [WordsBytes(ws)], y);
    FlatOne(WordsBytes(ws));
    IntBack(|ws|, WordsBytes(ws) + y);
    WordsBack(ws, y);
  }

  function HeadOf(f: Proto): Head {
    Head(f.linedefined, f.lastlinedefined, f.numparams, f.isVararg, f.maxstacksize, f.code, f.k)
  }

  lemma ConstsBack(k: seq<Const>, y: Bytes)
    requires CountOk(|k|) && forall i :: 0 <= i < |k| && k[i].KString? ==> StringOk(k[i].s)
    ensures Shrinks(LoadConst) && Counted(Flat(IntBlocks(|k|) + Join(k, ConstBlocks)) + y, LoadConst) == Ok(k, y)
  {
    hide Counted, Flat, IntBlocks, Shrinks, ConstBlocks, LoadConst;
    WordsShrink();
    var same: Const -> Const := c => c;
    forall i | 0 <= i < |k| ensures Reads(ConstBlocks, LoadConst, same, k[i]) {
      forall z: Bytes ensures LoadConst(Flat(ConstBlocks(k[i])) + z) == Ok(same(k[i]), z) { ConstBack(k[i], z); }
    }
    CountedBack(k, ConstBlocks, LoadConst, same, y);
    assert Map(same, k) == k;
  }

  lemma HeadBack(f: Proto, y: Bytes)
    requires WellFormed(f)
    ensures LoadHead(Flat(HeadBlocks(f)) + y) == Ok(HeadOf(f), y)
  {
    hide Flat, LoadInt, IntBlocks, LoadChar, CharBlocks, VectorBlocks, ConstBlocks, LoadConst, LoadWord, Join,
      Counted, Shrinks;
    WordsShrink();
    var b1, b2, b3, b4, b5 := IntBlocks(f.linedefined), IntBlocks(f.lastlinedefined), CharBlocks(f.numparams),
        CharBlocks(f.isVararg), CharBlocks(f.maxstacksize);
    var b6, b7 := VectorBlocks(f.code), IntBlocks(|f.k|) + Join(f.k, ConstBlocks);
    assert HeadBlocks(f) == b1 + (b2 + (b3 + (b4 + (b5 + (b6 + b7)))));
    var y7 := Flat(b7) + y;
    var y6 := Flat(b6) + y7;
    var y5 := Flat(b5) + y6;
    var y4 := Flat(b4) + y5;
    var y3 := Flat(b3) + y4;
    var y2 := Flat(b2) + y3;
    FlatThen(b1, b2 + (b3 + (b4 + (b5 + (b6 + b7)))), y);
    FlatThen(b2, b3 + (b4 + (b5 + (b6 + b7))), y);
    FlatThen(b3, b4 + (b5 + (b6 + b7)), y);
    FlatThen(b4, b5 + (b6 + b7), y);
    FlatThen(b5, b6 + b7, y);
    FlatThen(b6, b7, y);
    IntBack(f.linedefined, y2);
    IntBack(f.lastlinedefined, y3);
    CharBack(f.numparams, y4);
    CharBack(f.isVararg, y5);
    CharBack(f.maxstacksize, y6);
    VectorBack(f.code, y7);
    ConstsBack(f.k, y);
  }

  function NameOf(u: Upvaldesc): Option<Bytes> { u.name }

  function DebugOf(f: Proto, strip: bool): Debug {
    if strip then Debug(None, [], [], []) else Debug(f.source, f.lineinfo, f.locvars, Map(NameOf, f.upvalues))
  }

  lemma LocVarsBack(vs: seq<LocVar>, y: Bytes)
    requires CountOk(|vs|) && forall i :: 0 <= i < |vs| ==> NameOk(vs[i].varname)
    ensures Shrinks(LoadLocVar) && Counted(Flat(IntBlocks(|vs|) + Join(vs, LocVarBlocks)) + y, LoadLocVar) == Ok(vs, y)
  {
    hide Counted, Flat, IntBlocks, Shrinks, LocVarBlocks, LoadLocVar;
    WordsShrink();
    var same: LocVar -> LocVar := v => v;
    forall i | 0 <= i < |vs| ensures Reads(LocVarBlocks, LoadLocVar, same, vs[i]) {
      forall z: Bytes ensures LoadLocVar(Flat(LocVarBlocks(vs[i])) + z) == Ok(same(vs[i]), z) { LocVarBack(vs[i], z); }
    }
    CountedBack(vs, LocVarBlocks, LoadLocVar, same, y);
    assert Map(same, vs) == vs;
  }

  lemma NamesBack(us: seq<Upvaldesc>, y: Bytes)
    requires CountOk(|us|) && forall i :: 0 <= i < |us| ==> NameOk(us[i].name)
    ensures Shrinks(LoadString)
    ensures Counted(Flat(IntBlocks(|us|) + Join(us, NameBlocks)) + y, LoadString) == Ok(Map(NameOf, us), y)
  {
    hide Counted, Flat, IntBlocks, Shrinks, StringBlocks, LoadString;
    WordsShrink();
    forall i | 0 <= i < |us| ensures Reads(NameBlocks, LoadString, NameOf, us[i]) {
      forall z: Bytes ensures LoadString(Flat(NameBlocks(us[i])) + z) ==
        Ok(NameOf(us[i]), z) { StringBack(us[i].name, z); }
    }
    CountedBack(us, NameBlocks, LoadString, NameOf, y);
  }

  lemma UpvaluesBack(us: seq<Upvaldesc>, y: Bytes)
    requires CountOk(|us|)
    ensures Shrinks(LoadUpvalue)
    ensures Counted(Flat(IntBlocks(|us|) + Join(us, UpvalueBlocks)) + y, LoadUpvalue) == Ok(Map(Nameless, us), y)
  {
    hide Counted, Flat, IntBlocks, Shrinks, UpvalueBlocks, LoadUpvalue;
    WordsShrink();
    forall i | 0 <= i < |us| ensures Reads(UpvalueBlocks, LoadUpvalue, Nameless, us[i]) {
      forall z: Bytes ensures LoadUpvalue(Flat(UpvalueBlocks(us[i])) + z) ==
        Ok(Nameless(us[i]), z) { UpvalueBack(us[i], z); }
    }
    CountedBack(us, UpvalueBlocks, LoadUpvalue, Nameless, y);
  }

  lemma DebugBack(f: Proto, strip: bool, y: Bytes)
    requires WellFormed(f)
    ensures LoadDebug(Flat(DebugBlocks(f, strip)) + y) == Ok(DebugOf(f, strip), y)
  {
    hide Flat, IntBlocks, StringBlocks, VectorBlocks, LocVarBlocks, NameBlocks, LoadLocVar, LoadString,
      LoadWord, Counted, Shrinks;
    WordsShrink();
    var source := if strip then None else f.source;
    var lines := if strip then [] else f.lineinfo;
    var vars := if strip then [] else f.locvars;
    var us := if strip then [] else f.upvalues;
    var b1, b2 := StringBlocks(source), VectorBlocks(lines);
    var b3, b4 := IntBlocks(|vars|) + Join(vars, LocVarBlocks), IntBlocks(|us|) + Join(us, NameBlocks);
    assert DebugBlocks(f, strip) == b1 + (b2 + (b3 + b4));
    FlatThen(b1, b2 + (b3 + b4), y);
    FlatThen(b2, b3 + b4, y);
    FlatThen(b3, b4, y);
    StringBack(source, Flat(b2) + (Flat(b3) + (Flat(b4) + y)));
    VectorBack(lines, Flat(b3) + (Flat(b4) + y));
    LocVarsBack(vars, Flat(b4) + y);
    NamesBack(us, y);
  }

  /** What a chunk holds of a prototype: all of it, or all but the debug information. */
  function Kept(f: Proto, strip: bool): Proto { if strip then Erase(f) else f }

  lemma KeptFields(f: Proto, strip: bool)
    ensures
      var d := DebugOf(f, strip);
      var g := Kept(f, strip);
      && |d.names| <= |f.upvalues|
      && Named(Map(Nameless, f.upvalues), d.names) == g.upvalues
      && d.source == g.source && d.lineinfo == g.lineinfo && d.locvars == g.locvars
      && HeadOf(g) == HeadOf(f)
      && g.p == seq(|f.p|, i requires 0 <= i < |f.p| => Kept(f.p[i], strip))
  {
    var d := DebugOf(f, strip);
    assert Named(Map(Nameless, f.upvalues), d.names) == Kept(f, strip).upvalues;
  }

  function KeptAll(ps: seq<Proto>, strip: bool): (r: seq<Proto>)
    ensures |r| == |ps|
  {
    seq(|ps|, i requires 0 <= i < |ps| => Kept(ps[i], strip))
  }

  /** Loading gives back the dumped prototype, and stops exactly where the dump ended. */
  lemma {:induction false} FunctionBack(f: Proto, strip: bool, y: Bytes)
    requires WellFormed(f)
    ensures LoadFunction(Dump(f, strip) + y) == Ok(Kept(f, strip), y)
    decreases f, 1, 0
  {
    hide Flat, IntBlocks, HeadBlocks, UpvaluesBlocks, DebugBlocks, LoadHead, LoadInt, LoadDebug, LoadUpvalue,
      Counted, Shrinks, HeadOf, DebugOf, Kept, NestedBlocks, Named, Map;
    WordsShrink();
    var b1, b2, b3, b4, b5 :=
      HeadBlocks(f), IntBlocks(|f.p|), NestedBlocks(f, strip, |f.p|), UpvaluesBlocks(f), DebugBlocks(f, strip);
    assert FunctionBlocks(f, strip) == b1 + (b2 + (b3 + (b4 + b5)));
    var y5 := Flat(b5) + y;
    var y4 := Flat(b4) + y5;
    var y3 := Flat(b3) + y4;
    FlatThen(b1, b2 + (b3 + (b4 + b5)), y);
    FlatThen(b2, b3 + (b4 + b5), y);
    FlatThen(b3, b4 + b5, y);
    FlatThen(b4, b5, y);
    HeadBack(f, Flat(b2) + y3);
    IntBack(|f.p|, y3);
    NestedBack(f, strip, |f.p|, y4);
    UpvaluesOf(f, y5);
    DebugBack(f, strip, y);
    KeptFields(f, strip);
    WholeIs(f, strip);
    assert f.p[..|f.p|] == f.p;
  }

  lemma UpvaluesOf(f: Proto, y: Bytes)
    requires CountOk(|f.upvalues|)
    ensures Shrinks(LoadUpvalue)
    ensures Counted(Flat(UpvaluesBlocks(f)) + y, LoadUpvalue) == Ok(Map(Nameless, f.upvalues), y)
  {
    UpvaluesBack(f.upvalues, y);
  }

  lemma WholeIs(f: Proto, strip: bool)
    ensures
      var g := Kept(f, strip);
      var h := HeadOf(f);
      g == Proto(h.linedefined, h.lastlinedefined, h.numparams, h.isVararg, h.maxstacksize, h.code, h.k,
                 KeptAll(f.p, strip), g.upvalues, g.source, g.lineinfo, g.locvars)
  {
    KeptFields(f, strip);
  }

  lemma {:induction false} NestedBack(f: Proto, strip: bool, n: nat, y: Bytes)
    requires WellFormed(f) && n <= |f.p|
    ensures LoadProtos(n, Flat(NestedBlocks(f, strip, n)) + y) == Ok(KeptAll(f.p[..n], strip), y)
    decreases f, 0, n
  {
    hide Flat, FunctionBlocks, LoadFunction, Kept;
    if n == 0 { FlatNothing(); assert [] + y == y; }
    else {
      var g := f.p[n - 1];
      FlatThen(NestedBlocks(f, strip, n - 1), FunctionBlocks(g, strip), y);
      NestedBack(f, strip, n - 1, Flat(FunctionBlocks(g, strip)) + y);
      FunctionBack(g, strip, y);
      assert KeptAll(f.p[..n], strip) == KeptAll(f.p[..n - 1], strip) + [Kept(g, strip)];
    }
  }

  // ----- unique decodability -----

  /** Unstripped dumps with anything after them determine the prototype and what follows. */
  lemma UniquelyDecodable(f: Proto, g: Proto, x: Bytes, y: Bytes)
    requires WellFormed(f) && WellFormed(g) && Dump(f, false) + x == Dump(g, false) + y
    ensures f == g && x == y
  {
    hide Dump, LoadFunction;
    FunctionBack(f, false, x);
    FunctionBack(g, false, y);
  }

  /** No stripped dump is a proper prefix of another, and it determines all but the debug data. */
  lemma StrippedDecodable(f: Proto, g: Proto, x: Bytes, y: Bytes)
    requires WellFormed(f) && WellFormed(g) && Dump(f, true) + x == Dump(g, true) + y
    ensures Erase(f) == Erase(g) && x == y
  {
    hide Dump, LoadFunction, Erase;
    FunctionBack(f, true, x);
    FunctionBack(g, true, y);
  }

  /** Debug information does not show in a stripped dump. */
  lemma {:induction false} EraseDumpsSame(f: Proto)
    ensures FunctionBlocks(Erase(f), true) == FunctionBlocks(f, true)
    decreases f, 1, 0
  {
    NestedDumpsSame(f, |f.p|);
    UpvalueDumpsSame(f.upvalues);
  }

  lemma {:induction false} NestedDumpsSame(f: Proto, n: nat)
    requires n <= |f.p|
    ensures NestedBlocks(Erase(f), true, n) == NestedBlocks(f, true, n)
    decreases f, 0, n
  {
    hide FunctionBlocks;
    if n > 0 {
      NestedDumpsSame(f, n - 1);
      EraseDumpsSame(f.p[n - 1]);
    }
  }

  lemma {:induction false} UpvalueDumpsSame(us: seq<Upvaldesc>)
    ensures Join(Map(Nameless, us), UpvalueBlocks) == Join(us, UpvalueBlocks)
    decreases |us|
  {
    if us != [] {
      var last := |us| - 1;
      UpvalueDumpsSame(us[..last]);
      assert Map(Nameless, us)[..last] == Map(Nameless, us[..last]);
    }
  }

  /** Stripped dumps coincide exactly when the prototypes agree up to debug information. */
  lemma StrippedCoincide(f: Proto, g: Proto)
    requires WellFormed(f) && WellFormed(g)
    ensures Dump(f, true) == Dump(g, true) <==> Erase(f) == Erase(g)
  {
    hide FunctionBlocks, Flat, Erase, LoadFunction;
    if Dump(f, true) == Dump(g, true) {
      assert Dump(f, true) + [] == Dump(g, true) + [];
      StrippedDecodable(f, g, [], []);
    }
    EraseDumpsSame(f);
    EraseDumpsSame(g);
  }
}
