/** The code generator itself: a FuncState updated in place, with jump lists threaded through
    the jump instructions. Every method does what the function of the same name in LuaCode
    does to the lists as sequences. */
module LuaFuncState {
  import opened LittleEndian
  import opened LuaValues
  import opened LuaOpcodes
  import opened LuaPatch
  import opened LuaConstants
  import opened LuaCode
  import opened LuaShape
  import opened LuaEncoding
  import opened LuaShapeOps
  import opened LuaStatements
  import Spec = LuaCode
  import opened LuaLinks

  datatype Error = TooLong | TooComplex | TooMany | NoLoop

  /** A call that may end in a syntax error, which abandons the function being compiled. */
  datatype Result<T> = Ok(value: T) | Err(error: Error) {
    predicate IsFailure() { Err? }
    function PropagateFailure<U>(): Result<U>
      requires Err?
    {
      Err(error)
    }
    function Extract(): T
      requires Ok?
    {
      value
    }
  }

  /** An expression descriptor; `t` and `f` head its jump lists. */
  class ExpDesc {
    var k: Kind
    var t: int
    var f: int
    ghost var abs: Exp

    constructor (k: Kind)
      requires !k.VJmp?
      ensures this.k == k && t == NO_JUMP && f == NO_JUMP && abs == Exp(k, [], [])
    {
      this.k, t, f, abs := k, NO_JUMP, NO_JUMP, Exp(k, [], []);
    }

    /** init_exp. */
    method Init(k: Kind)
      requires !k.VJmp?
      modifies this
      ensures this.k == k && t == NO_JUMP && f == NO_JUMP && abs == Exp(k, [], [])
    {
      this.k, t, f, abs := k, NO_JUMP, NO_JUMP, Exp(k, [], []);
    }

    ghost predicate Lists(code: seq<Instr>)
      reads this
    {
      abs.k == k && Chain(code, t, abs.t) && Chain(code, f, abs.f)
    }

    /** ... and the jump of a comparison is not on any list yet. */
    ghost predicate Valid(code: seq<Instr>)
      reads this
    {
      Lists(code) && (k.VJmp? ==> Chain(code, k.info, [k.info]))
    }

    predicate HasJumps()
      reads this
    {
      t != f
    }

    /** Comparing the two heads is enough: disjoint lists only share NO_JUMP. */
    lemma HasJumpsMeansLists(code: seq<Instr>)
      requires Valid(code) && Disjoint(abs.t, abs.f)
      ensures HasJumps() == Spec.HasJumps(abs)
    {
      if abs.t != [] && abs.f != [] { assert abs.t[0] in abs.t && abs.f[0] in abs.f; }
    }
  }

  class FuncState {
    var code: seq<Instr>
    var lasttarget: nat
    var jpc: int
    var freereg: nat
    var nactvar: nat
    var maxstack: nat
    var k: seq<Value>
    var h: map<Key, nat>
    ghost var abs: State

    /** open_func. */
    constructor ()
      ensures Valid() && abs == Opened()
    {
      code, lasttarget, jpc, k, h := [], 0, NO_JUMP, [], map[];
      freereg, nactvar, maxstack := 0, 0, 2;
      abs := Opened();
    }

    /** The fields represent the abstract state. */
    ghost predicate Valid()
      reads this
    {
      && Represents(code, abs.code)
      && Chain(code, jpc, abs.jpc)
      && abs == State(abs.code, lasttarget, abs.jpc, freereg, nactvar, maxstack, Pool(k, h), false, abs.labels)
      && Pending(abs.code, abs.jpc)
    }

    /** fixjump. */
    method FixJump(pc: nat, dest: int) returns (r: Result<()>)
      requires pc < |code| && code[pc].Jmp? && dest != NO_JUMP
      modifies this`code
      ensures r.Ok? <==> !Far(pc, dest)
      ensures code == if r.Ok? then old(code)[pc := Jmp(dest - (pc + 1))] else old(code)
    {
      var offset := dest - (pc + 1);
      if offset > MAXARG_SBX || -offset > MAXARG_SBX { return Err(TooLong); }
      code := code[pc := Jmp(offset)];
      return Ok(());
    }

    /** The position of the instruction that controls the jump at `pc`. */
    function GetJumpControl(pc: nat): (i: nat)
      requires pc < |code|
      reads this
      ensures i < |code| && (i == pc || i + 1 == pc)
      ensures code[pc].Jmp? ==> (code[i].TestSet? <==> Carries(code, pc))
    {
      if pc >= 1 && code[pc - 1].IsTest() then pc - 1 else pc
    }

    /** need_value: some jump of the list does not carry a value. */
    method NeedValue(list: int, ghost nodes: seq<nat>) returns (b: bool)
      requires Chain(code, list, nodes)
      ensures b == Spec.NeedValue(code, nodes)
    {
      var l := list;
      ghost var i := 0;
      while l != NO_JUMP
        invariant 0 <= i <= |nodes| && l == NodeAt(nodes, i)
        invariant forall n :: 0 <= n < i ==> Carries(code, nodes[n])
        decreases |nodes| - i
      {
        if !code[GetJumpControl(l)].TestSet? { return true; }
        l := GetJump(code, l);
        i := i + 1;
      }
      return false;
    }

    /** patchtestreg: makes the TESTSET that controls `node` store into `reg`, if there is one. */
    method PatchTestReg(node: nat, reg: nat) returns (b: bool)
      requires node < |code| && code[node].Jmp?
      modifies this`code
      ensures b == old(Carries(code, node))
      ensures code == Retested(old(code), node, reg)
    {
      var i := GetJumpControl(node);
      if !code[i].TestSet? { return false; }
      if reg != NO_REG && reg != code[i].b {
        code := code[i := TestSet(reg, code[i].b, code[i].when)];
      } else {
        code := code[i := Test(code[i].b, code[i].when)];
      }
      return true;
    }
  
    /** One turn of the loop in patchlistaux. */
    method PatchNode(node: nat, vtarget: int, reg: nat, dtarget: int) returns (r: Result<()>)
      requires node < |code| && code[node].Jmp? && vtarget != NO_JUMP
      requires dtarget != NO_JUMP || Carries(code, node)
      modifies this`code
      ensures r.Ok? <==> !Far(node, if Carries(old(code), node) then vtarget else dtarget)
      ensures r.Ok? ==> code == PatchedOne(old(code), node, vtarget, reg, dtarget)
    {
      var patched := PatchTestReg(node, reg);
      r := FixJump(node, if patched then vtarget else dtarget);
    }

    /** patchlistaux: walks the list, reading each link before it is overwritten. */
    method PatchListAux(list: int, vtarget: int, reg: nat, dtarget: int, ghost nodes: seq<nat>) returns (r: Result<()>)
      requires Chain(code, list, nodes) && vtarget != NO_JUMP
      requires dtarget != NO_JUMP || !Spec.NeedValue(code, nodes)
      modifies this`code
      ensures r.Ok? <==> !FarPatch(old(code), nodes, vtarget, dtarget)
      ensures r.Ok? ==> code == Patch(old(code), nodes, vtarget, reg, dtarget)
    {
      hide Patch, PatchAt, PatchedOne, Far, FarPatch, Chain, Carries, GetJump, Spec.NeedValue;
      FarNothing(code, nodes, vtarget, dtarget);
      ChainHead(code, list, nodes);
      ghost var c0 := code;
      ghost var i := 0;
      var l := list;
      PatchNothing(c0, vtarget, reg, dtarget);
      assert nodes[..0] == [];
      while l != NO_JUMP
        invariant 0 <= i <= |nodes| && l == NodeAt(nodes, i)
        invariant code == Patch(c0, nodes[..i], vtarget, reg, dtarget)
        invariant !FarPatch(c0, nodes[..i], vtarget, dtarget)
        decreases |nodes| - i
      {
        PatchTurn(c0, list, nodes, i, vtarget, reg, dtarget);
        var next := GetJump(code, l);
        var _ :- PatchNode(l, vtarget, reg, dtarget);
        l := next;
        i := i + 1;
      }
      assert nodes[..i] == nodes;
      return Ok(());
    }

    /** The loop of luaK_concat: the last jump of a list. */
    method LastOf(list: int, ghost nodes: seq<nat>) returns (last: nat)
      requires Chain(code, list, nodes) && nodes != []
      ensures last == nodes[|nodes| - 1]
    {
      last := list;
      ghost var i := 0;
      var next := GetJump(code, last);
      while next != NO_JUMP
        invariant 0 <= i < |nodes| && last == nodes[i] && next == NodeAt(nodes, i + 1)
        decreases |nodes| - i
      {
        i := i + 1;
        last := next;
        next := GetJump(code, last);
      }
    }

    /** luaK_concat on the lists headed by `l1` and `l2`. */
    method Concat(l1: int, l2: int, ghost xs: seq<nat>, ghost ys: seq<nat>) returns (r: Result<int>)
      requires Chain(code, l1, xs) && Chain(code, l2, ys) && Disjoint(xs, ys)
      modifies this`code
      ensures r.Ok? <==> !(xs != [] && ys != [] && Far(xs[|xs| - 1], ys[0]))
      ensures r.Ok? ==> Chain(code, r.value, xs + ys)
      ensures SameOutside(old(code), code, xs)
    {
      if l2 == NO_JUMP {
        assert xs + ys == xs;
        return Ok(l1);
      } else if l1 == NO_JUMP {
        assert xs + ys == ys;
        return Ok(l2);
      }
      var last := LastOf(l1, xs);
      var _ :- FixJump(last, l2);
      JoinedChain(old(code), code, xs, ys);
      return Ok(l1);
    }

    // ----- emitting code -----

    /** dischargejpc. */
    method DischargeJpc() returns (r: Result<()>)
      requires Valid()
      modifies this
      ensures r.Err? ==> Discharge(old(abs)).err
      ensures r.Ok? ==> Valid() && abs == Discharge(old(abs)) && Links(old(abs), old(code), code, [])
    {
      hide Patch, PatchAt, CodeOk, PoolOk, FormOk, FarPatch;
      PatchRepresents(code, abs.code, abs.jpc, |code|, NO_REG, |code|);
      var _ :- PatchListAux(jpc, |code|, NO_REG, |code|, abs.jpc);
      jpc := NO_JUMP;
      abs := Discharge(abs);
      return Ok(());
    }

    /** luaK_code. */
    method Code(i: Instr) returns (r: Result<nat>)
      requires Valid() && !i.Jmp?
      modifies this
      ensures r.Err? ==> Emit(old(abs), i).err
      ensures r.Ok? ==> Valid() && abs == Emit(old(abs), i) && r.value == |old(code)|
      ensures r.Ok? ==> Links(old(abs), old(code), code, [])
    {
      hide Discharge, Represents, Chain, Pending, Links;
      SameLength(code, abs.code);
      ghost var s, c := abs, code;
      var _ :- DischargeJpc();
      ghost var c1 := code;
      SameLength(code, abs.code);
      if |code| >= MAX_INT { return Err(TooMany); }
      code := code + [i];
      GrowRepresents(c1, abs.code, i);
      GrowLinks(s, c, c1, i);
      EmptyList(c1, jpc);
      EmptyChain(code);
      NothingPending(abs.code + [i]);
      abs := Emit(s, i);
      return Ok(|code| - 1);
    }

    /** luaK_jump: `jpc` is saved before the new jump is coded, and joined to its list. */
    method Jump() returns (r: Result<int>)
      requires Valid()
      modifies this
      ensures r.Err? ==> Spec.Jump(old(abs)).0.err
      ensures r.Ok? ==> Valid() && abs == Spec.Jump(old(abs)).0 && Chain(code, r.value, Spec.Jump(old(abs)).1)
      ensures r.Ok? ==> Links(old(abs), old(code), code, [])
    {
      hide Chain, Represents, SameOutside;
      SameLength(code, abs.code);
      ghost var s, c := abs, code;
      var onHold := jpc;
      jpc := NO_JUMP;
      if |code| >= MAX_INT { return Err(TooMany); }
      var j := |code|;
      code := code + [Jmp(NO_JUMP)];
      ghost var c1 := code;
      NewChain(c);
      ChainExtends(c, c1, onHold, s.jpc);
      GrowJump(c, s.code);
      var l :- Concat(j, onHold, [j], s.jpc);
      RelinkRepresents(c1, code, s.code + [Jmp(OPEN)], [j]);
      JumpLinks(s, c, c1, code);
      abs := Spec.Jump(s).0;
      EmptyChain(code);
      return Ok(l);
    }

    /** luaK_getlabel. */
    method GetLabel()
      requires Valid()
      modifies this`lasttarget, this`abs
      ensures Valid() && abs == Spec.GetLabel(old(abs))
    {
      lasttarget := |code|;
      abs := Spec.GetLabel(abs);
    }

    /** luaK_patchtohere. */
    method PatchToHere(list: int, ghost nodes: seq<nat>) returns (r: Result<()>)
      requires Valid() && Chain(code, list, nodes) && ListOk(abs, nodes, 0)
      modifies this
      ensures r.Err? ==> Spec.PatchToHere(old(abs), nodes).err
      ensures r.Ok? ==> Valid() && abs == Spec.PatchToHere(old(abs), nodes)
      ensures r.Ok? ==> Links(old(abs), old(code), code, nodes)
    {
      hide Represents, SameOutside, CodeOk, PoolOk, FormOk, Chain, Pending, Disjoint, Distinct, ListOk, Far;
      JoinJpc(abs, nodes);
      ghost var s, c := abs, code;
      GetLabel();
      var l :- Concat(jpc, list, abs.jpc, nodes);
      jpc := l;
      RelinkRepresents(c, code, s.code, s.jpc);
      RelinkLinks(s, c, code, nodes);
      abs := Spec.PatchToHere(s, nodes);
      return Ok(());
    }

    /** condjump. */
    method CondJump(i: Instr) returns (r: Result<int>)
      requires Valid() && i.IsTest()
      modifies this
      ensures r.Err? ==> Spec.CondJump(old(abs), i).0.err
      ensures r.Ok? ==> Valid() && abs == Spec.CondJump(old(abs), i).0
      ensures r.Ok? ==> Chain(code, r.value, Spec.CondJump(old(abs), i).1)
      ensures r.Ok? ==> Links(old(abs), old(code), code, [])
    {
      hide Patch, PatchAt, CodeOk, PoolOk, FormOk, FarPatch;
      var _ :- Code(i);
      r := Jump();
    }

    // ----- registers and constants -----

    /** luaK_checkstack and luaK_reserveregs. */
    method CheckStack(n: nat) returns (r: Result<()>)
      requires Valid()
      modifies this`maxstack, this`abs
      ensures r.Err? <==> old(freereg) + n > old(maxstack) && old(freereg) + n >= 250
      ensures r.Err? ==> Spec.ReserveRegs(old(abs), n).err
      ensures r.Ok? ==> Valid() && abs == Spec.ReserveRegs(old(abs), n).(freereg := freereg)
      ensures r.Ok? ==> freereg + n <= maxstack
    {
      var newstack := freereg + n;
      if newstack > maxstack {
        if newstack >= MAXSTACK { return Err(TooComplex); }
        maxstack := newstack;
      }
      abs := abs.(maxstack := maxstack);
      return Ok(());
    }

    method ReserveRegs(n: nat) returns (r: Result<()>)
      requires Valid()
      modifies this`maxstack, this`freereg, this`abs
      ensures r.Err? ==> Spec.ReserveRegs(old(abs), n).err
      ensures r.Ok? ==> Valid() && abs == Spec.ReserveRegs(old(abs), n)
    {
      var _ :- CheckStack(n);
      freereg := freereg + n;
      abs := abs.(freereg := freereg);
      return Ok(());
    }

    /** freereg; its assertion is the precondition. */
    method FreeReg(reg: nat)
      requires Valid() && (!IsK(reg) && reg >= nactvar ==> reg + 1 == freereg)
      modifies this`freereg, this`abs
      ensures Valid() && abs == Spec.FreeReg(old(abs), reg)
    {
      if !IsK(reg) && reg >= nactvar { freereg := freereg - 1; }
      abs := Spec.FreeReg(abs, reg);
    }

    method FreeExp(e: ExpDesc)
      requires Valid() && e.Valid(code) && LastTaken(abs, e.abs)
      modifies this`freereg, this`abs
      ensures Valid() && abs == Spec.FreeExp(old(abs), e.abs)
    {
      if e.k.VNonReloc? { FreeReg(e.k.info); }
    }

    /** addk. */
    method AddK(key: Key, v: Value) returns (r: Result<nat>)
      requires Valid() && PoolOk(abs.pool) && IsConstant(v) && key == KeyOf(v)
      modifies this`k, this`h, this`abs
      ensures r.Err? ==> AddConst(old(abs), v).0.err
      ensures r.Ok? ==> Valid() && (abs, r.value) == AddConst(old(abs), v)
    {
      ghost var s := abs;
      if key in h {
        var i := h[key];
        if RawEqual(k[i], v) {
          abs := AddConst(s, v).0;
          return Ok(i);
        }
      }
      var i := |k|;
      h := h[key := i];
      if i >= MAXARG_AX { return Err(TooMany); }
      k := k + [v];
      abs := AddConst(s, v).0;
      return Ok(i);
    }

    method StringK(str: seq<Byte>) returns (r: Result<nat>)
      requires Valid() && PoolOk(abs.pool)
      modifies this`k, this`h, this`abs
      ensures r.Err? ==> AddConst(old(abs), Str(str)).0.err
      ensures r.Ok? ==> Valid() && (abs, r.value) == AddConst(old(abs), Str(str))
    {
      r := AddK(KStr(str), Str(str));
    }

    /** luaK_numberK: zeros and NaNs use their raw bytes as key. */
    method NumberK(n: Number) returns (r: Result<nat>)
      requires Valid() && PoolOk(abs.pool)
      modifies this`k, this`h, this`abs
      ensures r.Err? ==> AddConst(old(abs), Num(n)).0.err
      ensures r.Ok? ==> Valid() && (abs, r.value) == AddConst(old(abs), Num(n))
    {
      if IsZero(n) || IsNaN(n) {
        r := AddK(KStr(LE(n, 8)), Num(n));
      } else {
        r := AddK(KNum(n), Num(n));
      }
    }

    method BoolK(b: bool) returns (r: Result<nat>)
      requires Valid() && PoolOk(abs.pool)
      modifies this`k, this`h, this`abs
      ensures r.Err? ==> AddConst(old(abs), Bool(b)).0.err
      ensures r.Ok? ==> Valid() && (abs, r.value) == AddConst(old(abs), Bool(b))
    {
      r := AddK(KBool(b), Bool(b));
    }

    method NilK() returns (r: Result<nat>)
      requires Valid() && PoolOk(abs.pool)
      modifies this`k, this`h, this`abs
      ensures r.Err? ==> AddConst(old(abs), Nil).0.err
      ensures r.Ok? ==> Valid() && (abs, r.value) == AddConst(old(abs), Nil)
    {
      r := AddK(KTable, Nil);
    }

    // ----- putting values into registers -----

    /** luaK_nil: the LOADNIL just emitted is widened when it touches the new range and no
        jump lands here. */
    method LoadNils(from: nat, n: nat) returns (r: Result<()>)
      requires Valid() && Wf(abs) && n > 0
      modifies this
      ensures r.Err? ==> Spec.LoadNils(old(abs), from, n).err
      ensures r.Ok? ==> Valid() && abs == Spec.LoadNils(old(abs), from, n) && Links(old(abs), old(code), code, [])
    {
      hide Patch, PatchAt, PoolOk, FormOk, CodeOk, Emit;
      var l := from + n - 1;
      var lo := from;
      if |code| > lasttarget {
        var previous := code[|code| - 1];
        if previous.LoadNil? {
          var pl := previous.a + previous.b;
          if (previous.a <= from <= pl + 1) || (from <= previous.a <= l + 1) {
            if previous.a < lo { lo := previous.a; }
            if pl > l { l := pl; }
            code := code[|code| - 1 := LoadNil(lo, l - lo)];
            abs := Spec.LoadNils(abs, from, n);
            return Ok(());
          }
        }
      }
      var _ :- Code(LoadNil(from, n - 1));
      return Ok(());
    }

    /** luaK_codek. */
    method CodeK(reg: nat, i: nat) returns (r: Result<()>)
      requires Valid()
      modifies this
      ensures r.Err? ==> LoadConst(old(abs), reg, i).err
      ensures r.Ok? ==> Valid() && abs == LoadConst(old(abs), reg, i) && Links(old(abs), old(code), code, [])
    {
      hide Patch, PatchAt, Represents, Chain;
      if i <= MAXARG_BX {
        var _ :- Code(LoadK(reg, i));
      } else {
        ghost var s, c := abs, code;
        var _ :- Code(LoadKX(reg));
        ghost var c1 := code;
        var _ :- Code(ExtraArg(i));
        LinksTwice(s, c, LoadKX(reg), c1, code);
      }
      return Ok(());
    }

    /** A numeral: luaK_numberK, then luaK_codek. */
    method CodeNumber(reg: nat, n: Number) returns (r: Result<()>)
      requires Valid() && PoolOk(abs.pool)
      modifies this
      ensures
        var (s1, i) := AddConst(old(abs), Num(n));
        var s' := LoadConst(s1, reg, i);
        && (r.Err? ==> s'.err)
        && (r.Ok? ==> Valid() && abs == s')
      ensures r.Ok? ==> Links(old(abs), old(code), code, [])
    {
      hide Chain, Represents, Patch, PatchAt, CodeOk, PoolOk, FormOk, LoadConst, AddConst, Links, Pending;
      ghost var s, c := abs, code;
      var i :- NumberK(n);
      ghost var s1 := abs;
      var _ :- CodeK(reg, i);
      LinksSameCode(s, s1, c, code);
      return Ok(());
    }

    /** luaK_dischargevars on the kinds modelled here. */
    method DischargeVars(e: ExpDesc)
      requires e.Valid(code)
      modifies e`k, e`abs
      ensures e.Valid(code) && e.abs == Spec.DischargeVars(old(e.abs))
    {
      if e.k.VLocal? { e.k := VNonReloc(e.k.info); }
      e.abs := Spec.DischargeVars(e.abs);
    }

    /** What an operation on `e` must leave: the state and descriptor of the specification. */
    ghost predicate Gives(e: ExpDesc, s': State, e': Exp)
      reads this, e
    {
      Valid() && abs == s' && e.Valid(code) && e.abs == e'
    }

    /** Changes an argument of the operator that is still the last instruction. */
    method SetOperator(i: nat, x: Instr)
      requires Valid() && KindOk(abs.code, VReloc(i)) && abs.jpc == [] && x.Relocatable()
      modifies this`code, this`abs
      ensures Valid() && abs == old(abs).(code := old(abs).code[i := x])
      ensures Links(old(abs), old(code), code, [])
    {
      hide Chain, Represents, Links;
      ghost var s, c := abs, code;
      LastIs(code, abs.code, i);
      RelocRepresents(code, abs.code, i, x);
      RelocChain(c, s, i, x, jpc);
      code := code[i := x];
      abs := abs.(code := abs.code[i := x]);
    }

    /** discharge2reg. */
    method Discharge2Reg(e: ExpDesc, reg: nat, ghost base: nat) returns (r: Result<()>)
      requires Valid() && e.Valid(code) && Wf(abs) && PlaceAt(abs, e.abs.k, base) && ListsOk(abs, e.abs, base)
      modifies this, e
      ensures r.Err? ==> Spec.Discharge2Reg(old(abs), old(e.abs), reg).0.err
      ensures r.Ok? ==> var (s', e') := Spec.Discharge2Reg(old(abs), old(e.abs), reg); Gives(e, s', e')
      ensures r.Ok? ==> Links(old(abs), old(code), code, [])
    {
      hide Chain, Represents, Patch, PatchAt, CodeOk, PoolOk, FormOk, Emit, Spec.LoadNils, LoadConst, AddConst,
        Distinct, Links, Disjoint, ListOk, Far;
      ghost var s, c := abs, code;
      LinksSame(s, c);
      ListsFromStart(s, e.abs, base);
      DischargeVars(e);
      match e.k {
        case VNil =>
          var _ :- LoadNils(reg, 1);
        case VFalse =>
          var _ :- Code(LoadBool(reg, false, false));
        case VTrue =>
          var _ :- Code(LoadBool(reg, true, false));
        case VK(i) =>
          var _ :- CodeK(reg, i);
        case VKNum(n) =>
          var _ :- CodeNumber(reg, n);
        case VReloc(i) =>
          LastIs(code, abs.code, i);
          SetOperator(i, code[i].SetA(reg));
        case VNonReloc(i) =>
          if reg != i {
            var _ :- Code(Move(reg, i));
          }
        case VJmp(_) =>
          return Ok(());
      }
      e.k := VNonReloc(reg);
      e.abs := e.abs.(k := VNonReloc(reg));
      ChainKept(s, c, code, [], e.t, e.abs.t);
      ChainKept(s, c, code, [], e.f, e.abs.f);
      return Ok(());
    }

    /** discharge2anyreg. */
    method Discharge2AnyReg(e: ExpDesc, ghost base: nat, ghost r0: nat) returns (r: Result<()>)
      requires Valid() && e.Valid(code) && ExpOk(abs, e.abs, base, r0)
      modifies this, e
      ensures r.Err? ==> Spec.Discharge2AnyReg(old(abs), old(e.abs)).0.err
      ensures r.Ok? ==> var (s', e') := Spec.Discharge2AnyReg(old(abs), old(e.abs)); Gives(e, s', e')
      ensures r.Ok? ==> Links(old(abs), old(code), code, [])
    {
      hide Chain, Represents, CodeOk, PoolOk, FormOk, Spec.Discharge2Reg, Links, Distinct;
      ghost var s, c := abs, code;
      LinksSame(s, c);
      if !e.k.VNonReloc? {
        var _ :- ReserveRegs(1);
        ghost var s1 := abs;
        ReserveOk(s, 1);
        var _ :- Discharge2Reg(e, freereg - 1, base);
        LinksSameCode(s, s1, c, code);
      }
      return Ok(());
    }

    /** code_label. */
    method CodeLabel(a: nat, flag: bool, skip: bool) returns (r: Result<nat>)
      requires Valid()
      modifies this
      ensures r.Err? ==> Spec.CodeLabel(old(abs), a, flag, skip).err
      ensures r.Ok? ==> Valid() && abs == Spec.CodeLabel(old(abs), a, flag, skip) && r.value == |old(code)|
      ensures r.Ok? ==> Links(old(abs), old(code), code, [])
    {
      hide Chain, Represents, Links, Emit;
      ghost var s, c := abs, code;
      GetLabel();
      ghost var s1 := abs;
      r := Code(LoadBool(a, flag, skip));
      if r.Ok? { LinksSameCode(s, s1, c, code); }
    }

    /** The part of exp2reg that emits the LOADBOOL pair. */
    method LoadLabels(isJump: bool, reg: nat) returns (r: Result<int>)
      requires Valid() && Wf(abs) && (isJump ==> abs.jpc == [])
      modifies this
      ensures r.Err? ==> Spec.LoadLabels(old(abs), isJump, reg).0.err
      ensures r.Ok? ==> Valid() && (abs, r.value) == Spec.LoadLabels(old(abs), isJump, reg)
      ensures r.Ok? ==> Links(old(abs), old(code), code, [])
    {
      hide Chain, Represents, Links, Emit, CodeOk, PoolOk, FormOk, Distinct, Spec.CodeLabel, Spec.PatchToHere;
      ghost var s, c := abs, code;
      ghost var nodes := if isJump then [] else Spec.Jump(s).1;
      var fj := NO_JUMP;
      LinksSame(s, c);
      EmptyChain(c);
      if !isJump {
        fj :- Jump();
        JumpOk(s);
      }
      ghost var s1, c1 := abs, code;
      var p_f :- CodeLabel(reg, false, true);
      ghost var s2, c2 := abs, code;
      var p_t :- CodeLabel(reg, true, false);
      ghost var s3, c3 := abs, code;
      LabelLists(s, s1, isJump, reg, nodes, c, c1, c2, c3, fj);
      var _ :- PatchToHere(fj, nodes);
      LabelLinks(s, s1, s3, isJump, c, c1, c3, code, nodes);
      return Ok(p_f);
    }

    /** patchlistaux on a list of an expression. */
    method PatchList(list: int, vtarget: int, reg: nat, dtarget: int, ghost nodes: seq<nat>) returns (r: Result<()>)
      requires Valid() && Chain(code, list, nodes) && ListOk(abs, nodes, 0) && vtarget != NO_JUMP
      requires dtarget != NO_JUMP || !Spec.NeedValue(abs.code, nodes)
      modifies this`code, this`abs
      ensures r.Err? ==> Spec.PatchList(old(abs), nodes, vtarget, reg, dtarget).err
      ensures r.Ok? ==> Valid() && abs == Spec.PatchList(old(abs), nodes, vtarget, reg, dtarget)
      ensures r.Ok? ==> Links(old(abs), old(code), code, nodes)
    {
      hide Chain, Represents, Patch, PatchAt, Links, Distinct, FarPatch, Pending;
      ghost var s, c := abs, code;
      PatchRepresents(c, s.code, nodes, vtarget, reg, dtarget);
      PatchedLinks(s, c, jpc, nodes, vtarget, reg, dtarget);
      NeedSame(c, s.code, nodes);
      var _ :- PatchListAux(list, vtarget, reg, dtarget, nodes);
      abs := Spec.PatchList(s, nodes, vtarget, reg, dtarget);
      return Ok(());
    }

    /** luaK_patchlist. */
    method PatchTo(list: int, target: nat, ghost nodes: seq<nat>) returns (r: Result<()>)
      requires Valid() && Chain(code, list, nodes) && ListOk(abs, nodes, 0) && target <= |code|
      modifies this
      ensures r.Err? ==> LuaStatements.PatchTo(old(abs), nodes, target).err
      ensures r.Ok? ==> Valid() && abs == LuaStatements.PatchTo(old(abs), nodes, target)
      ensures r.Ok? ==> Links(old(abs), old(code), code, nodes)
    {
      hide Chain, Represents, Links, ListOk, Pending, Spec.PatchToHere, Spec.PatchList;
      SameLength(code, abs.code);
      if target == |code| {
        r := PatchToHere(list, nodes);
      } else {
        r := PatchList(list, target, NO_REG, target, nodes);
      }
    }

    /** exp2reg after the value itself: pending jumps get their destinations. */
    method CloseLists(e: ExpDesc, isJump: bool, reg: nat) returns (r: Result<()>)
      requires Valid() && IsReg(reg) && e.Valid(code) && Wf(abs) && ListsOk(abs, e.abs, 0) && (isJump ==> abs.jpc == [])
      modifies this
      ensures r.Err? ==> Spec.CloseLists(old(abs), e.abs, isJump, reg).err
      ensures r.Ok? ==> Valid() && abs == Spec.CloseLists(old(abs), e.abs, isJump, reg)
      ensures r.Ok? ==> Links(old(abs), old(code), code, e.abs.t + e.abs.f)
    {
      hide Represents, Patch, PatchAt, Links, FarPatch, Spec.LoadLabels, CodeOk, PoolOk, FormOk, Chain, Distinct,
        Pending;
      ghost var s, c := abs, code;
      LinksSame(s, c);
      NeedSame(c, s.code, e.abs.t);
      NeedSame(c, s.code, e.abs.f);
      var p_f, p_t := NO_JUMP, NO_JUMP;
      var need := NeedValue(e.t, e.abs.t);
      if !need { need := NeedValue(e.f, e.abs.f); }
      if need {
        p_f :- LoadLabels(isJump, reg);
        p_t := p_f + 1;
      }
      ghost var s1 := abs;
      GetLabel();
      ghost var s2, c2 := abs, code;
      var final := |code|;
      assert !s2.err && (s2, p_f, p_t) == Labelled(s, e.abs, isJump, reg);
      CloseStart(s, c, c2, e.t, e.f, e.abs, isJump, reg);
      var _ :- PatchList(e.f, final, reg, p_f, e.abs.f);
      ghost var s3, c3 := abs, code;
      CloseMiddle(s, s3, c2, c3, e.t, e.abs, isJump, reg);
      var _ :- PatchList(e.t, final, reg, p_t, e.abs.t);
      CloseEnd(s, s3, c, c2, c3, code, e.abs, isJump, reg);
      return Ok(());
    }

    /** The jump of a comparison joins the list of jumps taken when the value is true. */
    method JoinComparison(e: ExpDesc, ghost base: nat) returns (r: Result<()>)
      requires Valid() && e.Valid(code) && ExpAt(abs, e.abs, base) && e.k.VJmp?
      modifies this`code, e`t, e`abs
      ensures r.Err? ==> Link(abs, old(e.abs).t, [e.k.info]).err
      ensures r.Ok? ==> abs == Link(abs, old(e.abs).t, [e.k.info])
      ensures r.Ok? ==> Valid() && e.Valid(code) && e.abs == old(e.abs).(t := old(e.abs).t + [e.k.info])
      ensures r.Ok? ==> Links(abs, old(code), code, old(e.abs).t)
    {
      hide Represents, Links, CodeOk, PoolOk, FormOk, Chain, Distinct, Pending, SameOutside, Far, Disjoint, Wf,
        ListsOk;
      ghost var c := code;
      JumpJoins(abs, c, e.abs, base);
      var t :- Concat(e.t, e.k.info, e.abs.t, [e.k.info]);
      JumpJoined(abs, c, code, e.abs, jpc, e.f, base);
      e.t := t;
      e.abs := e.abs.(t := e.abs.t + [e.k.info]);
      return Ok(());
    }

    /** exp2reg. */
    method Exp2Reg(e: ExpDesc, reg: nat, ghost base: nat) returns (r: Result<()>)
      requires Valid() && IsReg(reg) && e.Valid(code) && ExpAt(abs, e.abs, base)
      modifies this, e
      ensures r.Err? ==> Spec.Exp2Reg(old(abs), old(e.abs), reg).0.err
      ensures r.Ok? ==> var (s', e') := Spec.Exp2Reg(old(abs), old(e.abs), reg); Gives(e, s', e')
      ensures r.Ok? ==> Links(old(abs), old(code), code, Own(old(e.abs)))
    {
      hide Represents, Patch, PatchAt, Links, Spec.CloseLists, CodeOk, PoolOk, FormOk, Chain, Distinct, Pending,
        Spec.Discharge2Reg, SameOutside, Keeps, Disjoint;
      ghost var s, c, e0 := abs, code, e.abs;
      var _ :- Discharge2Reg(e, reg, base);
      ghost var s1, c1 := abs, code;
      Discharge2RegOk(s, e0, reg, base);
      DischargedLists(s, s1, e0, base);
      LinksSame(s1, c1);
      LinksWeaken(s1, c1, c1, e0.t);
      if e.k.VJmp? {
        var _ :- JoinComparison(e, base);
        JumpJoins(s1, c1, e0, base);
      }
      ghost var c2, t2 := code, e.abs.t;
      var isJump := e.k.VJmp?;
      e.HasJumpsMeansLists(code);
      LinksSame(s1, c2);
      LinksWeaken(s1, c2, c2, t2 + e0.f);
      if e.HasJumps() {
        var _ :- CloseLists(e, isJump, reg);
      }
      Exp2RegLinks(s, s1, c, c1, c2, code, e0, t2, e0.f);
      e.k, e.t, e.f := VNonReloc(reg), NO_JUMP, NO_JUMP;
      e.abs := Exp(VNonReloc(reg), [], []);
      EmptyChain(code);
      return Ok(());
    }

    /** luaK_exp2nextreg. */
    method Exp2NextReg(e: ExpDesc, ghost base: nat, ghost r0: nat) returns (r: Result<()>)
      requires Valid() && e.Valid(code) && ExpOk(abs, e.abs, base, r0)
      modifies this, e
      ensures r.Err? ==> Spec.Exp2NextReg(old(abs), old(e.abs)).0.err
      ensures r.Ok? ==> var (s', e') := Spec.Exp2NextReg(old(abs), old(e.abs)); Gives(e, s', e')
      ensures r.Ok? ==> Links(old(abs), old(code), code, Own(old(e.abs)))
    {
      hide Represents, Chain, Links, Distinct, ExpOk, ExpAt, Own, Spec.Exp2Reg, Pending, PlaceAt, LastTaken;
      ghost var s, c, e0 := abs, code, e.abs;
      NextRegReady(s, e0, base, r0);
      DischargeVars(e);
      FreeExp(e);
      var _ :- ReserveRegs(1);
      ghost var s2 := abs;
      var _ :- Exp2Reg(e, freereg - 1, base);
      LinksSameOwn(s, s2, c, code, Own(e0));
      return Ok(());
    }

    /** luaK_exp2anyreg. */
    method Exp2AnyReg(e: ExpDesc, ghost base: nat, ghost r0: nat) returns (r: Result<nat>)
      requires Valid() && e.Valid(code) && Wf(abs)
      requires (e.k.VNonReloc? && !Spec.HasJumps(e.abs)) || ExpOk(abs, e.abs, base, r0)
      modifies this, e
      ensures r.Err? ==> Spec.Exp2AnyReg(old(abs), old(e.abs)).0.err
      ensures r.Ok? ==> var (s', e') := Spec.Exp2AnyReg(old(abs), old(e.abs)); Gives(e, s', e') && r.value == e'.k.info
      ensures r.Ok? ==> Links(old(abs), old(code), code, Own(old(e.abs)))
      ensures r.Ok? && old(e.k.VNonReloc? && !Spec.HasJumps(e.abs)) ==> code == old(code)
    {
      hide Represents, Chain, Links, Distinct, CodeOk, PoolOk, FormOk, Spec.Exp2Reg, Spec.Exp2NextReg, Pending;
      ghost var s, c, e0 := abs, code, e.abs;
      e.HasJumpsMeansLists(code);
      LinksSame(s, c);
      LinksWeaken(s, c, c, Own(e0));
      DischargeVars(e);
      if e.k.VNonReloc? {
        if !e.HasJumps() { return Ok(e.k.info); }
        assert ExpOk(abs, e.abs, base, r0);
        if e.k.info >= nactvar {
          var _ :- Exp2Reg(e, e.k.info, base);
          return Ok(e.k.info);
        }
      }
      assert ExpOk(abs, e.abs, base, r0);
      var _ :- Exp2NextReg(e, base, r0);
      return Ok(e.k.info);
    }

    /** luaK_exp2val. */
    method Exp2Val(e: ExpDesc, ghost base: nat, ghost r0: nat) returns (r: Result<()>)
      requires Valid() && e.Valid(code) && Wf(abs) && (IsOperand(e.abs) || ExpOk(abs, e.abs, base, r0))
      modifies this, e
      ensures r.Err? ==> Spec.Exp2Val(old(abs), old(e.abs)).0.err
      ensures r.Ok? ==> var (s', e') := Spec.Exp2Val(old(abs), old(e.abs)); Gives(e, s', e')
      ensures r.Ok? ==> Links(old(abs), old(code), code, Own(old(e.abs)))
      ensures r.Ok? && old(!Spec.HasJumps(e.abs)) ==> code == old(code)
    {
      hide Represents, Chain, Links, Distinct, CodeOk, PoolOk, FormOk, Spec.Exp2AnyReg, Pending;
      ghost var s, c, e0 := abs, code, e.abs;
      LinksSame(s, c);
      LinksWeaken(s, c, c, Own(e0));
      e.HasJumpsMeansLists(code);
      if e.HasJumps() {
        var _ :- Exp2AnyReg(e, base, r0);
      } else {
        DischargeVars(e);
      }
      return Ok(());
    }

    /** The cases of luaK_exp2RK that add to the constant table. */
    method AsConstant(e: ExpDesc) returns (r: Result<()>)
      requires Valid() && e.Valid(code) && PoolOk(abs.pool)
      modifies this`k, this`h, this`abs, e`k, e`abs
      ensures r.Err? ==> Spec.AsConstant(old(abs), old(e.abs)).0.err
      ensures r.Ok? ==> var (s', e') := Spec.AsConstant(old(abs), old(e.abs)); Gives(e, s', e')
      ensures code == old(code)
    {
      hide Represents, Chain, Distinct, PoolOk, FormOk, Pending, AddConst;
      if (e.k.VTrue? || e.k.VFalse? || e.k.VNil?) && |k| > MAXINDEXRK { return Ok(()); }
      var i: nat;
      match e.k {
        case VNil => i :- NilK();
        case VTrue => i :- BoolK(true);
        case VFalse => i :- BoolK(false);
        case VKNum(n) => i :- NumberK(n);
        case _ => return Ok(());
      }
      e.k := VK(i);
      e.abs := e.abs.(k := VK(i));
      return Ok(());
    }

    /** luaK_exp2RK. */
    method Exp2RK(e: ExpDesc, ghost base: nat, ghost r0: nat) returns (r: Result<nat>)
      requires Valid() && e.Valid(code) && Wf(abs) && (IsOperand(e.abs) || ExpOk(abs, e.abs, base, r0))
      modifies this, e
      ensures r.Err? ==> Spec.Exp2RK(old(abs), old(e.abs)).0.err
      ensures r.Ok? ==> var (s', e', rk) := Spec.Exp2RK(old(abs), old(e.abs)); Gives(e, s', e') && r.value == rk
      ensures r.Ok? ==> Links(old(abs), old(code), code, Own(old(e.abs)))
      ensures r.Ok? && old(IsOperand(e.abs)) ==> code == old(code)
      ensures r.Ok? && old(ExpOk(abs, e.abs, base, r0)) ==> r.value < 250 || 256 <= r.value < 512
    {
      hide Represents, Chain, Links, Distinct, CodeOk, PoolOk, FormOk, Spec.Exp2AnyReg, Spec.Exp2Val, Pending,
        Spec.AsConstant, ListOk, Keeps;
      ghost var s, c, e0 := abs, code, e.abs;
      var _ :- Exp2Val(e, base, r0);
      if !IsOperand(e0) { Exp2ValOk(s, e0, base, r0); } else { KeepsSame(s, Own(e0)); }
      ghost var s1, c1, e1 := abs, code, e.abs;
      if IsOperand(e0) { OperandVal(s, e0); }
      var _ :- AsConstant(e);
      if !IsOperand(e0) { AsConstantOk(s1, e1, base, r0); }
      if e.k.VK? && e.k.info <= MAXINDEXRK { return Ok(RkAsK(e.k.info)); }
      ghost var s2, e2 := abs, e.abs;
      r := Exp2AnyReg(e, base, r0);
      if r.Ok? {
        if !IsOperand(e0) { Exp2RKOk(s, e0, base, r0); }
        OwnVal(s, e0);
        LinksSameOwn(s1, s2, c1, code, Own(e2));
        LinksBoth(s, c, s1, c1, code, Own(e0), Own(e2));
      }
    }

    // ----- control flow -----

    /** invertjump. */
    method InvertJump(e: ExpDesc, ghost base: nat)
      requires Valid() && e.Valid(code) && ExpAt(abs, e.abs, base) && e.k.VJmp?
      modifies this`code, this`abs
      ensures Valid() && abs == Spec.InvertJump(old(abs), e.k.info)
      ensures e.Valid(code) && Links(old(abs), old(code), code, [])
    {
      hide Chain, Links, Distinct, CodeOk, PoolOk, FormOk, Pending, ListOk, Keeps, Represents;
      LastCmp(code, abs, e.k.info);
      InvertJumpOk(abs, e.abs, base);
      ghost var s, c := abs, code;
      var i := GetJumpControl(e.k.info);
      code := code[i := code[i].(cond := !code[i].cond)];
      abs := Spec.InvertJump(s, e.k.info);
      InvertedLinks(s, c, code, e.k.info, jpc);
      ListsKept(s, c, code, e.t, e.f, e.abs, base);
      InvertedChain(c, code, e.k.info);
    }

    /** jumponcond. */
    method JumpOnCond(e: ExpDesc, cond: bool, ghost base: nat, ghost r0: nat) returns (r: Result<int>)
      requires Valid() && e.Valid(code) && ExpOk(abs, e.abs, base, r0) && !e.k.VJmp? && !e.k.VLocal?
      modifies this, e
      ensures r.Err? ==> Spec.JumpOnCond(old(abs), old(e.abs), cond).0.err
      ensures r.Ok? ==>
        var (s', e', js) := Spec.JumpOnCond(old(abs), old(e.abs), cond);
        Gives(e, s', e') && Chain(code, r.value, js)
      ensures r.Ok? ==> Links(old(abs), old(code), code, [])
    {
      hide Represents, Chain, Links, Distinct, CodeOk, PoolOk, FormOk, Spec.Discharge2AnyReg, Pending, Patch, PatchAt,
        Spec.CondJump;
      ghost var s, c, e0 := abs, code, e.abs;
      if e.k.VReloc? {
        LastInstr(c, s, e.k.info);
        var ie := code[e.k.info];
        if ie.Not? {
          CutRepresents(c, s, jpc);
          CutNotOk(s, base);
          code := code[..|code| - 1];
          abs := abs.(code := abs.code[..|abs.code| - 1]);
          ghost var s1, c1 := abs, code;
          r := CondJump(Test(ie.b, !cond));
          if r.Ok? {
            LinksBoth(s, c, s1, c1, code, [], []);
            ChainKept(s, c, code, [], e.t, e.abs.t);
            ChainKept(s, c, code, [], e.f, e.abs.f);
          }
          return;
        }
      }
      var _ :- Discharge2AnyReg(e, base, r0);
      Discharge2AnyRegOk(s, e0, base, r0);
      ghost var s1, c1, e1 := abs, code, e.abs;
      FreeExpOk(s1, e1, r0);
      FreeExp(e);
      ghost var s2 := abs;
      r := CondJump(TestSet(NO_REG, e.k.info, cond));
      if r.Ok? {
        LinksSameCode(s1, s2, c1, code);
        LinksBoth(s, c, s1, c1, code, [], []);
        ChainKept(s1, c1, code, [], e.t, e.abs.t);
        ChainKept(s1, c1, code, [], e.f, e.abs.f);
      }
    }

    /** Like Gives, for a descriptor whose comparison may already be on a list. */
    ghost predicate Leaves(e: ExpDesc, s': State, e': Exp)
      reads this, e
    {
      Valid() && abs == s' && e.Lists(code) && e.abs == e'
    }

    /** The end of goiftrue and goiffalse: `pc` joins one list, the other one ends here. */
    method CloseBranch(list: int, pc: int, here: int, ghost xs: seq<nat>, ghost js: seq<nat>, ghost ys: seq<nat>,
        ghost base: nat)
      returns (r: Result<int>)
      requires Valid() && Chain(code, list, xs) && Chain(code, pc, js) && Chain(code, here, ys)
      requires BranchLists(abs, xs, js, ys, base)
      modifies this
      ensures r.Err? ==> Spec.PatchToHere(Link(old(abs), xs, js), ys).err
      ensures r.Ok? ==> Valid() && abs == Spec.PatchToHere(Link(old(abs), xs, js), ys) && Chain(code, r.value, xs + js)
      ensures r.Ok? ==> Links(old(abs), old(code), code, xs + ys)
    {
      hide Represents, Chain, Links, Distinct, CodeOk, PoolOk, FormOk, Pending, ListOk, Keeps, SameOutside,
        BranchLists;
      ghost var s, c := abs, code;
      BranchParts(s, xs, js, ys, base);
      var l :- Concat(list, pc, xs, js);
      ghost var c1 := code;
      BranchJoined(s, c, c1, xs, js, ys, jpc, here, base);
      var _ :- PatchToHere(here, ys);
      ghost var s' := abs;
      BranchClosed(s, c, c1, code, xs, js, ys, l, base);
      return Ok(l);
    }

    /** The switch of luaK_goiftrue. */
    method LeaveIfFalse(e: ExpDesc, ghost base: nat, ghost r0: nat) returns (r: Result<int>)
      requires Valid() && e.Valid(code) && ExpOk(abs, e.abs, base, r0) && !e.k.VLocal?
      modifies this, e
      ensures r.Err? ==> Spec.LeaveIfFalse(old(abs), old(e.abs)).0.err
      ensures r.Ok? ==>
        var (s', e', js) := Spec.LeaveIfFalse(old(abs), old(e.abs));
        Leaves(e, s', e') && Chain(code, r.value, js)
      ensures r.Ok? ==> Links(old(abs), old(code), code, [])
    {
      hide Represents, Chain, Links, Distinct, CodeOk, PoolOk, FormOk, Pending, Spec.JumpOnCond, Spec.InvertJump;
      LinksSame(abs, code);
      EmptyChain(code);
      if e.k.VJmp? {
        InvertJump(e, base);
        return Ok(e.k.info);
      } else if e.k.VK? || e.k.VKNum? || e.k.VTrue? {
        return Ok(NO_JUMP);
      } else {
        r := JumpOnCond(e, false, base, r0);
      }
    }

    /** luaK_goiftrue. */
    method GoIfTrue(e: ExpDesc, ghost base: nat, ghost r0: nat) returns (r: Result<()>)
      requires Valid() && e.Valid(code) && ExpOk(abs, e.abs, base, r0)
      modifies this, e
      ensures r.Err? ==> Spec.GoIfTrue(old(abs), old(e.abs)).0.err
      ensures r.Ok? ==> var (s', e') := Spec.GoIfTrue(old(abs), old(e.abs)); Leaves(e, s', e')
      ensures r.Ok? ==> Links(old(abs), old(code), code, Own(old(e.abs)))
    {
      hide Represents, Chain, Links, Distinct, CodeOk, PoolOk, FormOk, Pending, Spec.LeaveIfFalse, ListOk, Keeps,
        Spec.PatchToHere, Link, BranchLists;
      ghost var s, c, e0 := abs, code, e.abs;
      DischargeVars(e);
      assert ExpOk(abs, e.abs, base, r0);
      ghost var js := Spec.LeaveIfFalse(s, e.abs).2;
      ghost var e1 := e.abs;
      var pc :- LeaveIfFalse(e, base, r0);
      ghost var s1, c1 := abs, code;
      LeaveIfFalseOk(s, e1, base, r0);
      var l :- CloseBranch(e.f, pc, e.t, e.abs.f, js, e.abs.t, base);
      BranchLinks(s, s1, c, c1, code, e0, e0.f, e0.t);
      e.f, e.t := l, NO_JUMP;
      e.abs := e.abs.(f := e.abs.f + js, t := []);
      EmptyChain(code);
      return Ok(());
    }

    /** The switch of luaK_goiffalse. */
    method LeaveIfTrue(e: ExpDesc, ghost base: nat, ghost r0: nat) returns (r: Result<int>)
      requires Valid() && e.Valid(code) && ExpOk(abs, e.abs, base, r0) && !e.k.VLocal?
      modifies this, e
      ensures r.Err? ==> Spec.LeaveIfTrue(old(abs), old(e.abs)).0.err
      ensures r.Ok? ==>
        var (s', e', js) := Spec.LeaveIfTrue(old(abs), old(e.abs));
        Leaves(e, s', e') && Chain(code, r.value, js)
      ensures r.Ok? ==> Links(old(abs), old(code), code, [])
    {
      hide Represents, Chain, Links, Distinct, CodeOk, PoolOk, FormOk, Pending, Spec.JumpOnCond, Spec.InvertJump;
      LinksSame(abs, code);
      EmptyChain(code);
      if e.k.VJmp? {
        return Ok(e.k.info);
      } else if e.k.VNil? || e.k.VFalse? {
        return Ok(NO_JUMP);
      } else {
        r := JumpOnCond(e, true, base, r0);
      }
    }

    /** luaK_goiffalse. */
    method GoIfFalse(e: ExpDesc, ghost base: nat, ghost r0: nat) returns (r: Result<()>)
      requires Valid() && e.Valid(code) && ExpOk(abs, e.abs, base, r0)
      modifies this, e
      ensures r.Err? ==> Spec.GoIfFalse(old(abs), old(e.abs)).0.err
      ensures r.Ok? ==> var (s', e') := Spec.GoIfFalse(old(abs), old(e.abs)); Leaves(e, s', e')
      ensures r.Ok? ==> Links(old(abs), old(code), code, Own(old(e.abs)))
    {
      hide Represents, Chain, Links, Distinct, CodeOk, PoolOk, FormOk, Pending, Spec.LeaveIfTrue, ListOk, Keeps,
        Spec.PatchToHere, Link, BranchLists;
      ghost var s, c, e0 := abs, code, e.abs;
      DischargeVars(e);
      assert ExpOk(abs, e.abs, base, r0);
      ghost var js := Spec.LeaveIfTrue(s, e.abs).2;
      ghost var e1 := e.abs;
      var pc :- LeaveIfTrue(e, base, r0);
      ghost var s1, c1 := abs, code;
      LeaveIfTrueOk(s, e1, base, r0);
      var l :- CloseBranch(e.t, pc, e.f, e.abs.t, js, e.abs.f, base);
      BranchLinks(s, s1, c, c1, code, e0, e0.t, e0.f);
      e.t, e.f := l, NO_JUMP;
      e.abs := e.abs.(t := e.abs.t + js, f := []);
      EmptyChain(code);
      return Ok(());
    }

    /** The loop of removevalues. */
    method RemoveLoop(list: int, ghost nodes: seq<nat>)
      requires Chain(code, list, nodes)
      modifies this`code
      ensures code == Spec.RemoveValues(old(code), nodes)
    {
      hide Spec.RemoveValues, Distinct, Carries, PatchTest, Retested;
      ghost var c := code;
      var l := list;
      ghost var i := 0;
      RemoveNothing(c);
      assert nodes[..0] == [];
      while l != NO_JUMP
        invariant 0 <= i <= |nodes| && l == NodeAt(nodes, i)
        invariant code == Spec.RemoveValues(c, nodes[..i])
        decreases |nodes| - i
      {
        RemoveOneMore(c, nodes, i);
        assert code[l] == c[l];
        var _ := PatchTestReg(l, NO_REG);
        assert code == Spec.RemoveValues(c, nodes[..i + 1]);
        assert code[l] == c[l];
        l := GetJump(code, l);
        i := i + 1;
      }
      assert nodes[..i] == nodes;
    }

    /** removevalues. */
    method RemoveValues(list: int, ghost nodes: seq<nat>)
      requires Valid() && Chain(code, list, nodes) && Pending(abs.code, nodes)
      modifies this`code, this`abs
      ensures Valid() && abs == old(abs).(code := Spec.RemoveValues(old(abs).code, nodes))
      ensures SameJumps(old(code), code)
    {
      hide Spec.RemoveValues, Represents, Chain, Pending, SameJumps;
      RemoveRepresents(code, abs.code, nodes, jpc, abs.jpc);
      RemoveLoop(list, nodes);
      abs := abs.(code := Spec.RemoveValues(abs.code, nodes));
    }

    /** Emits a NOT for a value in a register. */
    method NotInReg(e: ExpDesc, ghost base: nat, ghost r0: nat) returns (r: Result<()>)
      requires Valid() && e.Valid(code) && ExpOk(abs, e.abs, base, r0) && (e.k.VReloc? || e.k.VNonReloc?)
      modifies this, e
      ensures r.Err? ==> Spec.NotInReg(old(abs), old(e.abs)).0.err
      ensures r.Ok? ==> var (s', e') := Spec.NotInReg(old(abs), old(e.abs)); Gives(e, s', e')
      ensures r.Ok? ==> Links(old(abs), old(code), code, [])
    {
      hide Represents, Chain, Links, Distinct, CodeOk, PoolOk, FormOk, Pending, Spec.Discharge2AnyReg, Keeps, ListOk,
        Emit;
      ghost var s, c, e0 := abs, code, e.abs;
      var _ :- Discharge2AnyReg(e, base, r0);
      Discharge2AnyRegOk(s, e0, base, r0);
      ghost var s1, c1, e1 := abs, code, e.abs;
      FreeExpOk(s1, e1, r0);
      FreeExp(e);
      ghost var s2 := abs;
      SameLength(code, abs.code);
      var i :- Code(Not(0, e.k.info));
      LinksSameCode(s1, s2, c1, code);
      ListsKept(s1, c1, code, e.t, e.f, e1, base);
      LinksBoth(s, c, s1, c1, code, [], []);
      e.k := VReloc(i);
      e.abs := e.abs.(k := VReloc(i));
      return Ok(());
    }

    /** The switch of codenot. */
    method NotValue(e: ExpDesc, ghost base: nat, ghost r0: nat) returns (r: Result<()>)
      requires Valid() && e.Valid(code) && ExpOk(abs, e.abs, base, r0)
      modifies this, e
      ensures r.Err? ==> Spec.NotValue(old(abs), old(e.abs)).0.err
      ensures r.Ok? ==> var (s', e') := Spec.NotValue(old(abs), old(e.abs)); Gives(e, s', e')
      ensures r.Ok? ==> Links(old(abs), old(code), code, [])
    {
      hide Represents, Chain, Links, Distinct, CodeOk, PoolOk, FormOk, Pending, Spec.NotInReg, Spec.InvertJump;
      LinksSame(abs, code);
      DischargeVars(e);
      assert ExpOk(abs, e.abs, base, r0);
      if e.k.VNil? || e.k.VFalse? {
        e.k, e.abs := VTrue, e.abs.(k := VTrue);
      } else if e.k.VK? || e.k.VKNum? || e.k.VTrue? {
        e.k, e.abs := VFalse, e.abs.(k := VFalse);
      } else if e.k.VJmp? {
        InvertJump(e, base);
      } else {
        var _ :- NotInReg(e, base, r0);
      }
      return Ok(());
    }

    /** codenot. */
    method CodeNot(e: ExpDesc, ghost base: nat, ghost r0: nat) returns (r: Result<()>)
      requires Valid() && e.Valid(code) && ExpOk(abs, e.abs, base, r0)
      modifies this, e
      ensures r.Err? ==> Spec.CodeNot(old(abs), old(e.abs)).0.err
      ensures r.Ok? ==> var (s', e') := Spec.CodeNot(old(abs), old(e.abs)); Gives(e, s', e')
      ensures r.Ok? ==> Links(old(abs), old(code), code, Own(old(e.abs)))
    {
      hide Represents, Chain, Links, Distinct, CodeOk, PoolOk, FormOk, Spec.NotValue, Keeps, Spec.RemoveValues,
        SameJumps;
      ghost var s, c, e0 := abs, code, e.abs;
      var _ :- NotValue(e, base, r0);
      NotValueOk(s, e0, base, r0);
      ghost var s1, c1, e1 := abs, code, e.abs;
      e.t, e.f, e.abs := e.f, e.t, Exp(e1.k, e1.f, e1.t);
      RemoveValues(e.f, e1.t);
      ghost var c2 := code;
      JumpsKeepLists(c1, c2, e, e1);
      RemovePending(s1.code, e1.t, e1.f);
      RemoveValues(e.t, e1.f);
      JumpsKeepLists(c2, code, e, e1);
      JumpsLinks(s, c, c1, c2, code, Own(e0));
      return Ok(());
    }

    // ----- operators -----

    /** Frees the operands of codearith, the one in the higher register first. */
    method FreeExps(e1: ExpDesc, o1: nat, e2: ExpDesc, o2: nat)
      requires Valid() && e1.Valid(code) && e2.Valid(code)
      requires if o1 > o2 then LastTaken(abs, e1.abs) && LastTaken(Spec.FreeExp(abs, e1.abs), e2.abs)
               else LastTaken(abs, e2.abs) && LastTaken(Spec.FreeExp(abs, e2.abs), e1.abs)
      modifies this`freereg, this`abs
      ensures Valid() && abs == Spec.FreeExps(old(abs), e1.abs, o1, e2.abs, o2)
    {
      if o1 > o2 {
        FreeExp(e1);
        FreeExp(e2);
      } else {
        FreeExp(e2);
        FreeExp(e1);
      }
    }

    /** codearith: both operands become RK operands, the right one first. */
    method ArithOperands(e1: ExpDesc, e2: ExpDesc, ghost base2: nat, ghost r0: nat) returns (r: Result<(nat, nat)>)
      requires Valid() && e1.Valid(code) && e2.Valid(code) && e1 != e2
      requires (IsOperand(e1.abs) || IsNumeral(e1.abs)) && Kept(abs, e1.abs, r0)
      requires ExpOk(abs, e2.abs, base2, RegsAfter(abs, e1.abs.k, r0))
      modifies this, e1, e2
      ensures r.Err? ==> Spec.Exp2RK(Spec.Exp2RK(old(abs), old(e2.abs)).0, old(e1.abs)).0.err
      ensures r.Ok? ==>
        var (s1, e2', o2) := Spec.Exp2RK(old(abs), old(e2.abs));
        var (s2, e1', o1) := Spec.Exp2RK(s1, old(e1.abs));
        Gives(e1, s2, e1') && Gives(e2, s2, e2') && r.value == (o1, o2)
      ensures r.Ok? ==> Links(old(abs), old(code), code, Own(old(e2.abs)))
    {
      hide Represents, Links, Distinct, CodeOk, PoolOk, FormOk, Pending, Spec.Exp2RK, Keeps, ListOk;
      OperandLists(abs, e1.abs, r0);
      NoLists(code, e1);
      ghost var s, c, a1, a2 := abs, code, e1.abs, e2.abs;
      var o2 :- Exp2RK(e2, base2, RegsAfter(abs, e1.abs.k, r0));
      Exp2RKOk(s, a2, base2, RegsAfter(s, a1.k, r0));
      ghost var s1, c1 := abs, code;
      OperandExp(s, a1, s1, base2, r0);
      EmptyChain(code);
      var o1 :- Exp2RK(e1, base2, freereg);
      LinksBoth(s, c, s1, c1, code, Own(a2), Own(a1));
      EmptyChain(code);
      return Ok((o1, o2));
    }

    /** codearith on a binary operator; the result is left in `e1`. */
    method CodeArith(P: Prims, op: ArithOp, e1: ExpDesc, e2: ExpDesc, ghost base2: nat, ghost r0: nat)
      returns (r: Result<()>)
      requires Valid() && e1.Valid(code) && e2.Valid(code) && e1 != e2
      requires (IsOperand(e1.abs) || IsNumeral(e1.abs)) && Kept(abs, e1.abs, r0)
      requires ExpOk(abs, e2.abs, base2, RegsAfter(abs, e1.abs.k, r0))
      modifies this, e1, e2
      ensures r.Err? ==> Spec.CodeArith(P, old(abs), op, old(e1.abs), old(e2.abs)).0.err
      ensures r.Ok? ==> var (s', e') := Spec.CodeArith(P, old(abs), op, old(e1.abs), old(e2.abs)); Gives(e1, s', e')
      ensures r.Ok? ==> Links(old(abs), old(code), code, Own(old(e2.abs)))
    {
      hide Represents, Links, Distinct, CodeOk, PoolOk, FormOk, Pending, Spec.Exp2RK, Keeps, ListOk, Emit,
        Spec.FreeExps, Stacked, Chain;
      LinksSame(abs, code);
      LinksWeaken(abs, code, code, Own(e2.abs));
      OperandLists(abs, e1.abs, r0);
      NoLists(code, e1);
      e2.HasJumpsMeansLists(code);
      ghost var s, c, a1, a2 := abs, code, e1.abs, e2.abs;
      if e1.k.VKNum? && !e1.HasJumps() && e2.k.VKNum? && !e2.HasJumps()
        && !((op.Div? || op.Mod?) && IsZero(e2.k.nval)) {
        e1.k := VKNum(P.fold(op, e1.k.nval, e2.k.nval));
        e1.abs := e1.abs.(k := e1.k);
        return Ok(());
      }
      var o :- ArithOperands(e1, e2, base2, r0);
      ghost var s2, c2 := abs, code;
      OperandsOk(s, a1, a2, base2, r0);
      var _ :- EmitOperator(Arith(op, 0, o.0, o.1), e1, o.0, e2, o.1, r0);
      LinksBoth(s, c, s2, c2, code, Own(a2), []);
      return Ok(());
    }

    /** The end of codearith: the operands are freed and the operator is emitted. */
    method EmitOperator(x: Instr, e1: ExpDesc, o1: nat, e2: ExpDesc, o2: nat, ghost r0: nat) returns (r: Result<()>)
      requires x.Relocatable() && Valid() && e1.Valid(code) && e2.Valid(code) && e1 != e2 && Wf(abs)
      requires abs.nactvar <= r0
      requires IsOperand(e1.abs) && IsOperand(e2.abs) && o1 == OperandOf(e1.abs) && o2 == OperandOf(e2.abs)
      requires Stacked(abs, e1.abs, e2.abs, r0) || Stacked(abs, e2.abs, e1.abs, r0)
      modifies this, e1
      ensures
        var s3 := Spec.FreeExps(old(abs), old(e1.abs), o1, e2.abs, o2);
        var s' := Emit(s3, x);
        && (r.Err? ==> s'.err)
        && (r.Ok? ==> Gives(e1, s', old(e1.abs).(k := VReloc(|s3.code|))))
      ensures r.Ok? ==> Links(old(abs), old(code), code, [])
    {
      hide Represents, Links, Distinct, CodeOk, PoolOk, FormOk, Pending, Emit, Spec.FreeExps, Stacked, Chain;
      ghost var s2, c2 := abs, code;
      NoLists(code, e1);
      FreeExpsOk(s2, e1.abs, e2.abs, r0);
      FreeExps(e1, o1, e2, o2);
      ghost var s3 := abs;
      SameLength(code, abs.code);
      var i :- Code(x);
      e1.k := VReloc(i);
      e1.abs := e1.abs.(k := VReloc(i));
      LinksSameCode(s2, s3, c2, code);
      EmptyChain(code);
      return Ok(());
    }

    /** luaK_prefix on `-` and `#`. */
    method CodeUnary(len: bool, e: ExpDesc, ghost base: nat, ghost r0: nat) returns (r: Result<()>)
      requires Valid() && e.Valid(code) && ExpOk(abs, e.abs, base, r0)
      modifies this, e
      ensures r.Err? ==> Spec.CodeUnary(old(abs), len, old(e.abs)).0.err
      ensures r.Ok? ==> var (s', e') := Spec.CodeUnary(old(abs), len, old(e.abs)); Gives(e, s', e')
      ensures r.Ok? ==> Links(old(abs), old(code), code, Own(old(e.abs)))
    {
      hide Represents, Links, Distinct, CodeOk, PoolOk, FormOk, Pending, Emit, Chain, Spec.Exp2AnyReg, Spec.Exp2RK,
        Keeps, ListOk, IsOperand;
      ghost var s, c, e0 := abs, code, e.abs;
      var _ :- Exp2AnyReg(e, base, r0);
      Exp2AnyRegOk(s, e0, base, r0);
      ghost var s1, c1, e1 := abs, code, e.abs;
      var o1 :- Exp2RK(e, base, r0);
      InRegisterKept(s1, e1);
      ghost var s2, c2 := abs, code;
      FreeExpOk(s2, e.abs, r0);
      FreeExp(e);
      ghost var s3 := abs;
      SameLength(code, abs.code);
      var i :- Code(if len then Len(0, o1) else Unm(0, o1));
      NoLists(c2, e);
      e.k := VReloc(i);
      e.abs := e.abs.(k := VReloc(i));
      EmptyChain(code);
      LinksSameCode(s2, s3, c2, code);
      LinksBoth(s, c, s1, c1, c2, Own(e0), Own(e1));
      LinksBoth(s, c, s1, c2, code, Own(e0), []);
      return Ok(());
    }

    /** codecomp; the result is left in `e1`. */
    method CodeComp(op: CmpOp, cond: bool, e1: ExpDesc, e2: ExpDesc, ghost base2: nat, ghost r0: nat)
      returns (r: Result<()>)
      requires Valid() && e1.Valid(code) && e2.Valid(code) && e1 != e2
      requires IsOperand(e1.abs) && Kept(abs, e1.abs, r0)
      requires ExpOk(abs, e2.abs, base2, RegsAfter(abs, e1.abs.k, r0))
      modifies this, e1, e2
      ensures r.Err? ==> Spec.CodeComp(old(abs), op, cond, old(e1.abs), old(e2.abs)).0.err
      ensures r.Ok? ==> var (s', e') := Spec.CodeComp(old(abs), op, cond, old(e1.abs), old(e2.abs)); Gives(e1, s', e')
      ensures r.Ok? ==> Links(old(abs), old(code), code, Own(old(e2.abs)))
    {
      hide Represents, Links, Distinct, CodeOk, PoolOk, FormOk, Pending, Chain, Spec.Exp2RK, Keeps, ListOk,
        Spec.CondJump, Spec.FreeExp;
      OperandLists(abs, e1.abs, r0);
      ghost var s, c, a1, a2 := abs, code, e1.abs, e2.abs;
      ghost var r1 := RegsAfter(s, a1.k, r0);
      var o1 :- Exp2RK(e1, base2, r0);
      OperandKeeps(s, a1);
      var o2 :- Exp2RK(e2, base2, r1);
      Exp2RKOk(s, a2, base2, r1);
      ghost var s2, c2 := abs, code;
      NoLists(c, e1);
      EmptyChain(code);
      var _ :- EmitComp(op, cond, e1, o1, e2, o2, r0, r1);
      LinksBoth(s, c, s2, c2, code, Own(a2), []);
      return Ok(());
    }

    /** The end of codecomp: the operands are freed, and exchanged for `>` and `>=`. */
    method EmitComp(op: CmpOp, cond: bool, e1: ExpDesc, o1: nat, e2: ExpDesc, o2: nat, ghost r0: nat, ghost r1: nat)
      returns (r: Result<()>)
      requires Valid() && e1.Valid(code) && e2.Valid(code) && e1 != e2 && Wf(abs) && Chain(code, NO_JUMP, [])
      requires Taken(abs, e2.abs.k, r1) && r1 == RegsAfter(abs, e1.abs.k, r0) && abs.nactvar <= r0
      requires IsOperand(e1.abs) && (InTemp(abs, e1.abs.k) ==> e1.abs.k.info == r0)
      modifies this, e1
      ensures
        var s' := Spec.EmitComp(old(abs), op, cond, old(e1.abs), o1, e2.abs, o2);
        && (r.Err? ==> s'.0.err)
        && (r.Ok? ==> Gives(e1, s'.0, s'.1))
      ensures r.Ok? ==> Links(old(abs), old(code), code, [])
    {
      hide Represents, Links, Distinct, CodeOk, PoolOk, FormOk, Pending, Chain, Spec.CondJump, Spec.FreeExp, Taken,
        RegsAfter, InTemp;
      ghost var s2, c2 := abs, code;
      NoLists(code, e1);
      CompOperands(s2, e1.abs, e2.abs, r0, r1);
      FreeExp(e2);
      FreeExp(e1);
      ghost var s4 := abs;
      var op1, op2 := o1, o2;
      var cond1 := cond;
      if !cond && op != Eq {
        op1, op2 := o2, o1;
        cond1 := true;
      }
      ghost var i := Cmp(op, cond1, op1, op2);
      var j :- CondJump(Cmp(op, cond1, op1, op2));
      CompEnd(s2, s4, c2, code, i, j);
      e1.k := VJmp(j);
      e1.abs := e1.abs.(k := VJmp(j));
      EmptyChain(code);
      return Ok(());
    }

    /** luaK_prefix. */
    method Prefix(P: Prims, op: UnOp, e: ExpDesc, ghost base: nat, ghost r0: nat) returns (r: Result<()>)
      requires Valid() && e.Valid(code) && ExpOk(abs, e.abs, base, r0)
      modifies this, e
      ensures r.Err? ==> Spec.Prefix(P, old(abs), op, old(e.abs)).0.err
      ensures r.Ok? ==> var (s', e') := Spec.Prefix(P, old(abs), op, old(e.abs)); Gives(e, s', e')
      ensures r.Ok? ==> Links(old(abs), old(code), code, Own(old(e.abs)))
    {
      hide Represents, Links, Chain, CodeOk, PoolOk, FormOk, Distinct, Spec.CodeUnary, Spec.CodeNot;
      LinksSame(abs, code);
      LinksWeaken(abs, code, code, Own(e.abs));
      e.HasJumpsMeansLists(code);
      match op {
        case OpNeg =>
          if e.k.VKNum? && !e.HasJumps() {
            e.k := VKNum(P.neg(e.k.nval));
            e.abs := e.abs.(k := e.k);
          } else {
            var _ :- CodeUnary(false, e, base, r0);
          }
        case OpNot =>
          var _ :- CodeNot(e, base, r0);
        case OpLen =>
          var _ :- CodeUnary(true, e, base, r0);
      }
      return Ok(());
    }

    /** luaK_infix. */
    method Infix(op: BinOp, e: ExpDesc, ghost base: nat, ghost r0: nat) returns (r: Result<()>)
      requires Valid() && e.Valid(code) && ExpOk(abs, e.abs, base, r0)
      modifies this, e
      ensures r.Err? ==> Spec.Infix(old(abs), op, old(e.abs)).0.err
      ensures r.Ok? ==> var (s', e') := Spec.Infix(old(abs), op, old(e.abs)); Leaves(e, s', e')
      ensures r.Ok? ==> Links(old(abs), old(code), code, Own(old(e.abs)))
    {
      hide Represents, Links, Chain, CodeOk, PoolOk, FormOk, Distinct, Spec.GoIfTrue, Spec.GoIfFalse, Spec.Exp2RK,
        Spec.Exp2NextReg;
      LinksSame(abs, code);
      LinksWeaken(abs, code, code, Own(e.abs));
      e.HasJumpsMeansLists(code);
      match op {
        case OpAnd =>
          var _ :- GoIfTrue(e, base, r0);
        case OpOr =>
          var _ :- GoIfFalse(e, base, r0);
        case OpArith(_) =>
          if !(e.k.VKNum? && !e.HasJumps()) {
            var _ :- Exp2RK(e, base, r0);
          }
        case OpCmp(_, _) =>
          var _ :- Exp2RK(e, base, r0);
        case OpConcat =>
          var _ :- Exp2NextReg(e, base, r0);
      }
      return Ok(());
    }

    /** The case of luaK_posfix for `and`: the left operand's list goes to the right one. */
    method PosfixAnd(e1: ExpDesc, e2: ExpDesc, ghost base: nat, ghost base2: nat, ghost r0: nat) returns (r: Result<()>)
      requires Valid() && e1.Lists(code) && e2.Valid(code) && e1 != e2 && e1.abs.t == []
      requires ExpOk(abs, e2.abs, base2, r0) && ListOk(abs, e1.abs.f, base) && forall j :: j in e1.abs.f ==> j < base2
      modifies this, e1, e2
      ensures r.Err? ==> Spec.Link(old(abs), old(e2.abs).f, old(e1.abs).f).err
      ensures r.Ok? ==>
        var e' := Spec.DischargeVars(old(e2.abs));
        Gives(e1, Spec.Link(old(abs), e'.f, old(e1.abs).f), e'.(f := e'.f + old(e1.abs).f))
      ensures r.Ok? ==> Links(old(abs), old(code), code, Own(old(e2.abs)))
    {
      hide Represents, Links, Chain, Distinct, SameOutside, ListOk, Pending, Wf, Disjoint, ExpAt, Taken, Far, Own;
      ghost var s, c, a2 := abs, code, e2.abs;
      PosfixParts(s, a2, e1.abs.f, base, base2);
      DischargeVars(e2);
      ghost var d2 := e2.abs;
      var l :- Concat(e2.f, e1.f, e2.abs.f, e1.abs.f);
      PosfixJoined(s, c, code, jpc, a2.f, a2, base2);
      PosfixOthers(s, c, code, a2.f, e2.t, a2.t, a2, base2);
      e1.k, e1.t, e1.f := e2.k, e2.t, l;
      e1.abs := d2.(f := d2.f + e1.abs.f);
      return Ok(());
    }

    /** The case of luaK_posfix for `or`. */
    method PosfixOr(e1: ExpDesc, e2: ExpDesc, ghost base: nat, ghost base2: nat, ghost r0: nat) returns (r: Result<()>)
      requires Valid() && e1.Lists(code) && e2.Valid(code) && e1 != e2 && e1.abs.f == []
      requires ExpOk(abs, e2.abs, base2, r0) && ListOk(abs, e1.abs.t, base) && forall j :: j in e1.abs.t ==> j < base2
      modifies this, e1, e2
      ensures r.Err? ==> Spec.Link(old(abs), old(e2.abs).t, old(e1.abs).t).err
      ensures r.Ok? ==>
        var e' := Spec.DischargeVars(old(e2.abs));
        Gives(e1, Spec.Link(old(abs), e'.t, old(e1.abs).t), e'.(t := e'.t + old(e1.abs).t))
      ensures r.Ok? ==> Links(old(abs), old(code), code, Own(old(e2.abs)))
    {
      hide Represents, Links, Chain, Distinct, SameOutside, ListOk, Pending, Wf, Disjoint, ExpAt, Taken, Far, Own;
      ghost var s, c, a2 := abs, code, e2.abs;
      PosfixParts(s, a2, e1.abs.t, base, base2);
      DischargeVars(e2);
      ghost var d2 := e2.abs;
      var l :- Concat(e2.t, e1.t, e2.abs.t, e1.abs.t);
      PosfixJoined(s, c, code, jpc, a2.t, a2, base2);
      PosfixOthers(s, c, code, a2.t, e2.f, a2.f, a2, base2);
      e1.k, e1.t, e1.f := e2.k, l, e2.f;
      e1.abs := d2.(t := d2.t + e1.abs.t);
      return Ok(());
    }

    /** luaK_posfix on `..`: a concatenation that waits for its register takes one more operand. */
    method CodeConcat(e1: ExpDesc, e2: ExpDesc, ghost base2: nat, ghost r0: nat) returns (r: Result<()>)
      requires Valid() && e1.Valid(code) && e2.Valid(code) && e1 != e2
      requires OnTop(abs, e1.abs, r0) && ExpOk(abs, e2.abs, base2, r0 + 1)
      modifies this, e1, e2
      ensures r.Err? ==> Spec.CodeConcat(old(abs), old(e1.abs), old(e2.abs)).0.err
      ensures r.Ok? ==> var (s', e') := Spec.CodeConcat(old(abs), old(e1.abs), old(e2.abs)); Gives(e1, s', e')
      ensures r.Ok? ==> Links(old(abs), old(code), code, Own(old(e2.abs)))
    {
      hide Represents, Links, Distinct, CodeOk, PoolOk, FormOk, Pending, Spec.Exp2Val, Spec.Exp2NextReg, Keeps,
        ListOk, Emit, Spec.FreeExps, Stacked, Chain, Encodable;
      NoLists(code, e1);
      ghost var s, c, a1, a2 := abs, code, e1.abs, e2.abs;
      var _ :- Exp2Val(e2, base2, r0 + 1);
      ghost var s1, c1, a2' := abs, code, e2.abs;
      Exp2ValOk(s, a2, base2, r0 + 1);
      ConcatFollows(s, a2, base2, r0);
      EmptyChain(code);
      if e2.k.VReloc? { LastIs(code, abs.code, e2.k.info); }
      if e2.k.VReloc? && code[e2.k.info].Concat? {
        var i := e2.k.info;
        assert e1.k.info == code[i].b - 1;
        FreeExpOk(abs, e1.abs, r0);
        FreeExp(e1);
        ghost var s2 := abs;
        SetOperator(i, Instr.Concat(code[i].a, e1.k.info, code[i].c));
        e1.k := VReloc(i);
        e1.abs := e1.abs.(k := VReloc(i));
        EmptyChain(code);
        LinksSameCode(s1, s2, c1, code);
        LinksBoth(s, c, s1, c1, code, Own(a2), []);
      } else {
        var _ :- Exp2NextReg(e2, base2, r0 + 1);
        ghost var s2, c2 := abs, code;
        Exp2NextRegOk(s1, a2', base2, r0 + 1);
        OwnVal(s, a2);
        LinksBoth(s, c, s1, c1, c2, Own(a2), Own(a2'));
        KeepsBoth(s, s1, s2, Own(a2), Own(a2'));
        EmptyChain(code);
        ConcatStacked(abs, e1.abs, e2.abs, r0);
        var _ :- EmitOperator(Instr.Concat(0, e1.k.info, e2.k.info), e1, e1.k.info, e2, e2.k.info, r0);
        LinksBoth(s, c, s2, c2, code, Own(a2), []);
      }
      return Ok(());
    }

    /** luaK_posfix; the result is left in `e1`. */
    method Posfix(P: Prims, op: BinOp, e1: ExpDesc, e2: ExpDesc, ghost base: nat, ghost base2: nat, ghost r0: nat)
      returns (r: Result<()>)
      requires Valid() && e1.Lists(code) && e2.Valid(code) && e1 != e2 && OperandKept(op, e1.abs)
      requires RightOk(abs, op, e1.abs, e2.abs, base, base2, r0)
      modifies this, e1, e2
      ensures r.Err? ==> Spec.Posfix(P, old(abs), op, old(e1.abs), old(e2.abs)).0.err
      ensures r.Ok? ==> var (s', e') := Spec.Posfix(P, old(abs), op, old(e1.abs), old(e2.abs)); Gives(e1, s', e')
      ensures r.Ok? ==> Links(old(abs), old(code), code, Own(old(e2.abs)))
    {
      hide Represents, Links, Chain, Distinct, CodeOk, PoolOk, FormOk, Pending, Wf, ListOk, Spec.CodeArith,
        Spec.CodeComp, Spec.CodeConcat, Far, Own;
      match op {
        case OpAnd =>
          var _ :- PosfixAnd(e1, e2, base, base2, r0);
        case OpOr =>
          var _ :- PosfixOr(e1, e2, base, base2, r0);
        case OpArith(a) =>
          var _ :- CodeArith(P, a, e1, e2, base2, r0);
        case OpCmp(c, cond) =>
          var _ :- CodeComp(c, cond, e1, e2, base2, r0);
        case OpConcat =>
          var _ :- CodeConcat(e1, e2, base2, r0);
      }
      return Ok(());
    }

    /** luaK_storevar on a local. */
    method StoreLocal(r: nat, e: ExpDesc, ghost base: nat, ghost r0: nat) returns (res: Result<()>)
      requires Valid() && e.Valid(code) && ExpOk(abs, e.abs, base, r0) && r < nactvar
      modifies this, e
      ensures res.Err? ==> LuaAssignment.StoreLocal(old(abs), r, old(e.abs)).err
      ensures res.Ok? ==> Valid() && abs == LuaAssignment.StoreLocal(old(abs), r, old(e.abs))
      ensures res.Ok? ==> Links(old(abs), old(code), code, Own(old(e.abs)))
    {
      hide Represents, Chain, Links, Distinct, CodeOk, PoolOk, FormOk, Spec.Exp2Reg, Pending;
      ghost var s, c, e0 := abs, code, e.abs;
      FreeExpOk(abs, e.abs, r0);
      FreeExp(e);
      ghost var s1 := abs;
      assert ExpAt(abs, e.abs, base);
      var _ :- Exp2Reg(e, r, base);
      LinksSameOwn(s, s1, c, code, Own(e0));
      return Ok(());
    }
  }

  lemma NoLists(code: seq<Instr>, e: ExpDesc)
    requires e.Valid(code) && e.abs.t == [] && e.abs.f == []
    ensures e.t == NO_JUMP && e.f == NO_JUMP
  {}

  lemma JumpsKeepLists(c: seq<Instr>, c': seq<Instr>, e: ExpDesc, e1: Exp)
    requires SameJumps(c, c') && e.Valid(c)
    ensures e.Valid(c')
  {}
}
