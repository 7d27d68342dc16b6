/** The dumper itself: a writer that may refuse a block, and a status that stops the dump. */
module LuaDumper {
  import opened Wrappers
  import opened LuaValues
  import opened LittleEndian
  import opened LuaDump
  import opened LuaUndump

  /** The blocks a writer has been given, and the status of the dump. */
  datatype Progress = Progress(blocks: Blocks, status: int)

  /** The status a writer returns, as a function of all it has been given. */
  type Verdict = Blocks -> int

  function Offer(v: Verdict, d: Progress, b: Bytes): Progress {
    if d.status != 0 then d else Progress(d.blocks + [b], v(d.blocks + [b]))
  }

  function OfferAll(v: Verdict, d: Progress, bs: Blocks): Progress {
    if bs == [] then d else Offer(v, OfferAll(v, d, bs[..|bs| - 1]), bs[|bs| - 1])
  }

  lemma {:induction false} OfferPlus(v: Verdict, d: Progress, a: Blocks, b: Blocks)
    ensures OfferAll(v, d, a + b) == OfferAll(v, OfferAll(v, d, a), b)
    decreases |b|
  {
    hide Offer;
    if b == [] { assert a + b == a; }
    else {
      var last := |b| - 1;
      OfferPlus(v, d, a, b[..last]);
      assert (a + b)[..|a| + last] == a + b[..last];
    }
  }

  lemma OfferOne(v: Verdict, d: Progress, b: Bytes)
    ensures OfferAll(v, d, [b]) == Offer(v, d, b)
  {
    hide Offer;
    assert [b][..0] == [];
  }

  /** One more item of a list, after the blocks `bs`. */
  lemma OfferMore<T>(v: Verdict, d: Progress, bs: Blocks, xs: seq<T>, i: nat, f: T -> Blocks)
    requires i < |xs|
    ensures OfferAll(v, d, bs + Join(xs[..i + 1], f)) == OfferAll(v, OfferAll(v, d, bs + Join(xs[..i], f)), f(xs[i]))
  {
    hide OfferAll;
    OfferPlus(v, d, bs + Join(xs[..i], f), f(xs[i]));
    assert xs[..i + 1][..i] == xs[..i];
    assert bs + Join(xs[..i + 1], f) == bs + Join(xs[..i], f) + f(xs[i]);
  }

  lemma JoinNothing<T>(bs: Blocks, xs: seq<T>, f: T -> Blocks)
    ensures bs + Join(xs[..0], f) == bs
  {}

  /** The writer refuses none of the first `n` blocks. */
  ghost predicate Accepted(v: Verdict, bs: Blocks, n: nat)
    requires n <= |bs|
  {
    forall k :: 0 < k <= n ==> v(bs[..k]) == 0
  }

  lemma AcceptedPrefix(v: Verdict, bs: Blocks, m: nat, n: nat)
    requires n <= m <= |bs|
    ensures Accepted(v, bs[..m], n) == Accepted(v, bs, n)
  {
    assert forall k :: 0 <= k <= m ==> bs[..m][..k] == bs[..k];
  }

  lemma AcceptedMore(v: Verdict, bs: Blocks, n: nat)
    requires n < |bs|
    ensures Accepted(v, bs, n + 1) <==> Accepted(v, bs, n) && v(bs[..n + 1]) == 0
  {}

  /** The blocks up to and including the first that is refused. */
  ghost predicate UpToRefusal(v: Verdict, d: Progress, bs: Blocks) {
    && |d.blocks| <= |bs| && d.blocks == bs[..|d.blocks|]
    && (d.status == 0 <==> Accepted(v, bs, |bs|))
    && (d.status == 0 ==> d.blocks == bs)
    && (d.status != 0 ==> d.blocks != [] && d.status == v(d.blocks) && Accepted(v, bs, |d.blocks| - 1))
  }

  /** The writer gets the blocks in order up to and including the first it refuses, and no
      more; the status is 0 exactly if it refuses none. */
  lemma {:induction false} OfferedPrefix(v: Verdict, bs: Blocks)
    ensures UpToRefusal(v, OfferAll(v, Progress([], 0), bs), bs)
    decreases |bs|
  {
    hide Accepted;
    if bs == [] { NothingRefused(v, bs); }
    else {
      var bs' := bs[..|bs| - 1];
      OfferedPrefix(v, bs');
      OneMoreOffer(v, OfferAll(v, Progress([], 0), bs'), bs);
    }
  }

  lemma OneMoreOffer(v: Verdict, d: Progress, bs: Blocks)
    requires bs != [] && UpToRefusal(v, d, bs[..|bs| - 1])
    ensures UpToRefusal(v, Offer(v, d, bs[|bs| - 1]), bs)
  {
    hide Accepted;
    var last := |bs| - 1;
    AcceptedPrefix(v, bs, last, last);
    AcceptedMore(v, bs, last);
    assert bs[..|bs|] == bs;
    if d.status == 0 { assert d.blocks + [bs[last]] == bs; }
    else {
      AcceptedPrefix(v, bs, last, |d.blocks| - 1);
      assert bs[..last][..|d.blocks|] == bs[..|d.blocks|];
      RefusedLater(v, bs, |d.blocks|, last);
    }
  }

  lemma NothingRefused(v: Verdict, bs: Blocks)
    ensures Accepted(v, bs, 0)
  {}

  lemma RefusedLater(v: Verdict, bs: Blocks, m: nat, n: nat)
    requires 0 < m <= n <= |bs| && v(bs[..m]) != 0
    ensures !Accepted(v, bs, n)
  {}

  /** A user's writer function with its data. */
  class Writer {
    const verdict: Verdict
    var blocks: Blocks

    constructor (verdict: Verdict)
      ensures this.verdict == verdict && blocks == []
    {
      this.verdict := verdict;
      blocks := [];
    }

    method Write(b: Bytes) returns (status: int)
      modifies this
      ensures blocks == old(blocks) + [b] && status == verdict(blocks)
    {
      blocks := blocks + [b];
      status := verdict(blocks);
    }
  }

  /** DumpState. */
  class DumpState {
    const writer: Writer
    const strip: bool
    var status: int

    constructor (writer: Writer, strip: bool)
      ensures this.writer == writer && this.strip == strip && status == 0
    {
      this.writer, this.strip, status := writer, strip, 0;
    }

    function State(): Progress
      reads this, writer
    {
      Progress(writer.blocks, status)
    }

    /** Everything in `bs` has been offered since `d`. */
    predicate Offered(d: Progress, bs: Blocks)
      reads this, writer
    {
      State() == OfferAll(writer.verdict, d, bs)
    }

    method DumpBlock(b: Bytes)
      modifies this, writer
      ensures Offered(old(State()), [b])
    {
      OfferOne(writer.verdict, State(), b);
      if status == 0 {
        status := writer.Write(b);
      }
    }

    method DumpChar(y: Byte)
      modifies this, writer
      ensures Offered(old(State()), CharBlocks(y))
    {
      DumpBlock([y]);
    }

    method DumpInt(x: nat)
      modifies this, writer
      ensures Offered(old(State()), IntBlocks(x))
    {
      DumpBlock(LE(x, INT_SIZE));
    }

    method DumpNumber(x: Number)
      modifies this, writer
      ensures Offered(old(State()), NumberBlocks(x))
    {
      DumpBlock(LE(x, NUMBER_SIZE));
    }

    method DumpVector(ws: seq<Word>)
      modifies this, writer
      ensures Offered(old(State()), VectorBlocks(ws))
    {
      ghost var d := State();
      DumpInt(|ws|);
      DumpBlock(WordsBytes(ws));
      OfferPlus(writer.verdict, d, IntBlocks(|ws|), [WordsBytes(ws)]);
    }

    method DumpString(s: Option<Bytes>)
      modifies this, writer
      ensures Offered(old(State()), StringBlocks(s))
    {
      ghost var d := State();
      match s {
        case None =>
          DumpBlock(LE(0, SIZE_T_SIZE));
        case Some(b) =>
          DumpBlock(LE(|b| + 1, SIZE_T_SIZE));
          DumpBlock(b + [0]);
          OfferPlus(writer.verdict, d, [LE(|b| + 1, SIZE_T_SIZE)], [b + [0]]);
          assert [LE(|b| + 1, SIZE_T_SIZE)] + [b + [0]] == StringBlocks(s);
      }
    }

    method DumpConst(c: Const)
      modifies this, writer
      ensures Offered(old(State()), ConstBlocks(c))
    {
      hide OfferAll, CharBlocks, NumberBlocks, StringBlocks;
      ghost var d := State();
      DumpChar(Tag(c));
      match c {
        case KNil =>
          assert ConstBlocks(c) == CharBlocks(Tag(c));
        case KBool(b) =>
          DumpChar(if b then 1 else 0);
          OfferPlus(writer.verdict, d, CharBlocks(Tag(c)), CharBlocks(if b then 1 else 0));
        case KNumber(n) =>
          DumpNumber(n);
          OfferPlus(writer.verdict, d, CharBlocks(Tag(c)), NumberBlocks(n));
        case KString(s) =>
          DumpString(Some(s));
          OfferPlus(writer.verdict, d, CharBlocks(Tag(c)), StringBlocks(Some(s)));
      }
    }

    method DumpHead(f: Proto)
      modifies this, writer
      ensures Offered(old(State()), HeadBlocks(f))
    {
      hide OfferAll, CharBlocks, IntBlocks, VectorBlocks, ConstBlocks;
      ghost var d, v := State(), writer.verdict;
      DumpInt(f.linedefined);
      ghost var bs := IntBlocks(f.linedefined);
      DumpInt(f.lastlinedefined);
      OfferPlus(v, d, bs, IntBlocks(f.lastlinedefined));
      bs := bs + IntBlocks(f.lastlinedefined);
      DumpChar(f.numparams);
      OfferPlus(v, d, bs, CharBlocks(f.numparams));
      bs := bs + CharBlocks(f.numparams);
      DumpChar(f.isVararg);
      OfferPlus(v, d, bs, CharBlocks(f.isVararg));
      bs := bs + CharBlocks(f.isVararg);
      DumpChar(f.maxstacksize);
      OfferPlus(v, d, bs, CharBlocks(f.maxstacksize));
      bs := bs + CharBlocks(f.maxstacksize);
      DumpVector(f.code);
      OfferPlus(v, d, bs, VectorBlocks(f.code));
      bs := bs + VectorBlocks(f.code);
      DumpInt(|f.k|);
      OfferPlus(v, d, bs, IntBlocks(|f.k|));
      bs := bs + IntBlocks(|f.k|);
      JoinNothing(bs, f.k, ConstBlocks);
      for i := 0 to |f.k|
        invariant Offered(d, bs + Join(f.k[..i], ConstBlocks))
      {
        DumpConst(f.k[i]);
        OfferMore(v, d, bs, f.k, i, ConstBlocks);
      }
      assert f.k[..|f.k|] == f.k;
    }

    method DumpUpvalues(f: Proto)
      modifies this, writer
      ensures Offered(old(State()), UpvaluesBlocks(f))
    {
      hide OfferAll, CharBlocks, IntBlocks;
      ghost var d, v := State(), writer.verdict;
      DumpInt(|f.upvalues|);
      ghost var bs := IntBlocks(|f.upvalues|);
      JoinNothing(bs, f.upvalues, UpvalueBlocks);
      for i := 0 to |f.upvalues|
        invariant Offered(d, bs + Join(f.upvalues[..i], UpvalueBlocks))
      {
        ghost var e := State();
        DumpChar(f.upvalues[i].instack);
        DumpChar(f.upvalues[i].idx);
        OfferPlus(v, e, CharBlocks(f.upvalues[i].instack), CharBlocks(f.upvalues[i].idx));
        OfferMore(v, d, bs, f.upvalues, i, UpvalueBlocks);
      }
      assert f.upvalues[..|f.upvalues|] == f.upvalues;
    }

    method DumpLocVar(x: LocVar)
      modifies this, writer
      ensures Offered(old(State()), LocVarBlocks(x))
    {
      hide OfferAll, StringBlocks, IntBlocks;
      ghost var d, v := State(), writer.verdict;
      DumpString(x.varname);
      DumpInt(x.startpc);
      OfferPlus(v, d, StringBlocks(x.varname), IntBlocks(x.startpc));
      DumpInt(x.endpc);
      OfferPlus(v, d, StringBlocks(x.varname) + IntBlocks(x.startpc), IntBlocks(x.endpc));
    }

    method DumpDebug(f: Proto)
      modifies this, writer
      ensures Offered(old(State()), DebugBlocks(f, strip))
    {
      hide OfferAll, StringBlocks, VectorBlocks, IntBlocks, LocVarBlocks, NameBlocks;
      ghost var d, v := State(), writer.verdict;
      var source := if strip then None else f.source;
      DumpString(source);
      ghost var bs := StringBlocks(source);
      var lines := if strip then [] else f.lineinfo;
      DumpVector(lines);
      OfferPlus(v, d, bs, VectorBlocks(lines));
      bs := bs + VectorBlocks(lines);
      var vars := if strip then [] else f.locvars;
      DumpInt(|vars|);
      OfferPlus(v, d, bs, IntBlocks(|vars|));
      bs := bs + IntBlocks(|vars|);
      JoinNothing(bs, vars, LocVarBlocks);
      for i := 0 to |vars|
        invariant Offered(d, bs + Join(vars[..i], LocVarBlocks))
      {
        DumpLocVar(vars[i]);
        OfferMore(v, d, bs, vars, i, LocVarBlocks);
      }
      assert vars[..|vars|] == vars;
      bs := bs + Join(vars, LocVarBlocks);
      var names := if strip then [] else f.upvalues;
      DumpInt(|names|);
      OfferPlus(v, d, bs, IntBlocks(|names|));
      bs := bs + IntBlocks(|names|);
      JoinNothing(bs, names, NameBlocks);
      for i := 0 to |names|
        invariant Offered(d, bs + Join(names[..i], NameBlocks))
      {
        NameIs(names[i]);
        DumpString(names[i].name);
        OfferMore(v, d, bs, names, i, NameBlocks);
      }
      assert names[..|names|] == names;
    }

    lemma NameIs(u: Upvaldesc)
      ensures NameBlocks(u) == StringBlocks(u.name)
    {}

    /** DumpFunction. */
    method DumpFunction(f: Proto)
      modifies this, writer
      ensures Offered(old(State()), FunctionBlocks(f, strip))
      decreases f
    {
      hide OfferAll, HeadBlocks, IntBlocks, UpvaluesBlocks, DebugBlocks;
      ghost var d, v := State(), writer.verdict;
      DumpHead(f);
      ghost var bs := HeadBlocks(f);
      DumpInt(|f.p|);
      OfferPlus(v, d, bs, IntBlocks(|f.p|));
      bs := bs + IntBlocks(|f.p|);
      assert bs + NestedBlocks(f, strip, 0) == bs;
      for i := 0 to |f.p|
        invariant Offered(d, bs + NestedBlocks(f, strip, i))
      {
        DumpFunction(f.p[i]);
        OfferPlus(v, d, bs + NestedBlocks(f, strip, i), FunctionBlocks(f.p[i], strip));
        assert bs + NestedBlocks(f, strip, i + 1) == bs + NestedBlocks(f, strip, i) + FunctionBlocks(f.p[i], strip);
      }
      bs := bs + NestedBlocks(f, strip, |f.p|);
      DumpUpvalues(f);
      OfferPlus(v, d, bs, UpvaluesBlocks(f));
      bs := bs + UpvaluesBlocks(f);
      DumpDebug(f);
      OfferPlus(v, d, bs, DebugBlocks(f, strip));
    }
  }

  /** luaU_header, for 4-byte ints and instructions, 8-byte sizes and numbers, little-endian. */
  const HEADER: Bytes := [0x1B, 0x4C, 0x75, 0x61, 0x52, 0, 1, 4, 8, 4, 8, 0, 0x19, 0x93, 0x0D, 0x0A, 0x1A, 0x0A]

  function ChunkBlocks(f: Proto, strip: bool): Blocks { [HEADER] + FunctionBlocks(f, strip) }

  /** luaU_dump: status 0 means that the writer has taken the whole chunk, and any other status
      is its answer to the last block it was given, with nothing given to it after that. */
  method DumpChunk(f: Proto, w: Writer, strip: bool) returns (status: int)
    requires w.blocks == []
    modifies w
    ensures Progress(w.blocks, status) == OfferAll(w.verdict, Progress([], 0), ChunkBlocks(f, strip))
    ensures |w.blocks| <= |ChunkBlocks(f, strip)| && w.blocks == ChunkBlocks(f, strip)[..|w.blocks|]
    ensures status == 0 <==> Accepted(w.verdict, ChunkBlocks(f, strip), |ChunkBlocks(f, strip)|)
    ensures status == 0 ==> Flat(w.blocks) == HEADER + Dump(f, strip)
    ensures status != 0 ==>
      w.blocks != [] && status == w.verdict(w.blocks) && Accepted(w.verdict, ChunkBlocks(f, strip), |w.blocks| - 1)
  {
    hide OfferAll, FunctionBlocks, Accepted;
    var d := new DumpState(w, strip);
    d.DumpBlock(HEADER);
    d.DumpFunction(f);
    OfferPlus(w.verdict, Progress([], 0), [HEADER], FunctionBlocks(f, strip));
    OfferedPrefix(w.verdict, ChunkBlocks(f, strip));
    FlatPlus([HEADER], FunctionBlocks(f, strip));
    FlatOne(HEADER);
    return d.status;
  }

  /** luaU_undump on a whole chunk. */
  function Undump(b: Bytes): Loaded<Proto> {
    var h := LoadBlock(b, |HEADER|);
    if h.Err? then Err(h.error) else if h.value != HEADER then Err(Corrupted) else LoadFunction(h.rest)
  }

  /** A chunk that was dumped without a refusal loads back as the prototype. */
  lemma ChunkBack(f: Proto, strip: bool, y: Bytes)
    requires WellFormed(f)
    ensures Undump(HEADER + Dump(f, strip) + y) == Ok(Kept(f, strip), y)
  {
    hide Dump, LoadFunction, Kept;
    assert HEADER + Dump(f, strip) + y == HEADER + (Dump(f, strip) + y);
    LoadBlockBack(HEADER, Dump(f, strip) + y);
    FunctionBack(f, strip, y);
  }
}
