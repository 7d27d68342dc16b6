/** The parser's driver of the code generator, on parsed expressions and statements. */
module LuaParser {
  import opened LuaValues
  import opened LuaOpcodes
  import opened LuaVm
  import opened LuaPatch
  import opened LuaConstants
  import opened LuaCode
  import opened LuaShape
  import opened LuaEncoding
  import opened LuaShapeOps
  import opened LuaCompiler
  import opened LuaRuns
  import opened LuaExprLists
  import opened LuaAssignment
  import opened LuaStatements
  import opened LuaTurns
  import opened LuaStatementEnds
  import opened LuaStatementLimits
  import Spec = LuaCode
  import opened LuaLinks
  import opened LuaFuncState

  /** subexpr, on a parsed expression; the result is left in `v`. */
  method Subexpr(fs: FuncState, P: Prims, ex: Expr, v: ExpDesc) returns (r: Result<()>)
    requires fs.Valid() && Wf(fs.abs) && InScope(ex, fs.nactvar)
    modifies fs, v
    ensures r.Err? ==> Compile(P, old(fs.abs), ex).0.err
    ensures r.Ok? ==> var (s', e') := Compile(P, old(fs.abs), ex); fs.Gives(v, s', e')
    ensures r.Ok? ==> Links(old(fs.abs), old(fs.code), fs.code, [])
    decreases ex, 1
  {
    hide Represents, Links, Chain, Distinct, CodeOk, PoolOk, FormOk, Pending, ListOk, Spec.Prefix, Compiled;
    ghost var s, c := fs.abs, fs.code;
    LinksSame(s, c);
    EmptyChain(c);
    match ex {
      case ENil => v.Init(VNil);
      case ETrue => v.Init(VTrue);
      case EFalse => v.Init(VFalse);
      case ENum(n) => v.Init(VKNum(n));
      case ELocal(l) => v.Init(VLocal(l));
      case EStr(str) =>
        var i :- fs.StringK(str);
        v.Init(VK(i));
      case EUn(op, arg) =>
        var _ :- Subexpr(fs, P, arg, v);
        CompileOk(P, s, arg);
        ghost var s1, c1, e1 := fs.abs, fs.code, v.abs;
        CompiledParts(s, s1, e1);
        var _ :- fs.Prefix(P, op, v, |s.code|, s.freereg);
        LinksBoth(s, c, s1, c1, fs.code, [], Own(e1));
      case EBin(op, left, right) =>
        var _ :- Binary(fs, P, op, left, right, v);
    }
    return Ok(());
  }

  /** The left operand, and luaK_infix. */
  method LeftOperand(fs: FuncState, P: Prims, op: BinOp, left: Expr, v: ExpDesc) returns (r: Result<()>)
    requires fs.Valid() && Wf(fs.abs) && InScope(left, fs.nactvar)
    modifies fs, v
    ensures r.Err? ==> var (s1, e1) := Compile(P, old(fs.abs), left); Spec.Infix(s1, op, e1).0.err
    ensures r.Ok? ==>
      var (s1, e1) := Compile(P, old(fs.abs), left); var (s2, e2) := Spec.Infix(s1, op, e1); fs.Leaves(v, s2, e2)
    ensures r.Ok? ==> Links(old(fs.abs), old(fs.code), fs.code, []) && Keeps(old(fs.abs), fs.abs, []) && Wf(fs.abs)
    ensures r.Ok? ==> LeftOk(fs.abs, op, v.abs, |old(fs.code)|, old(fs.freereg)) && OperandKept(op, v.abs)
    decreases left, 2
  {
    hide Represents, Links, Chain, Distinct, CodeOk, PoolOk, FormOk, Pending, ListOk, Spec.Infix, Compiled, LeftOk,
      OperandKept, Wf, Keeps, ExpOk, Own;
    ghost var s, c := fs.abs, fs.code;
    SameLength(fs.code, fs.abs.code);
    var _ :- Subexpr(fs, P, left, v);
    CompileOk(P, s, left);
    ghost var s1, c1, e1 := fs.abs, fs.code, v.abs;
    CompiledParts(s, s1, e1);
    var _ :- fs.Infix(op, v, |s.code|, s.freereg);
    InfixStepOk(P, s, s1, e1, op);
    LeftParts(fs.abs, op, v.abs, |s.code|, s.freereg);
    LinksBoth(s, c, s1, c1, fs.code, [], Own(e1));
    return Ok(());
  }

  /** The loop of subexpr: left operand, luaK_infix, right operand, luaK_posfix. */
  method Binary(fs: FuncState, P: Prims, op: BinOp, left: Expr, right: Expr, v: ExpDesc) returns (r: Result<()>)
    requires fs.Valid() && Wf(fs.abs) && InScope(left, fs.nactvar) && InScope(right, fs.nactvar)
    modifies fs, v
    ensures r.Err? ==> Compile(P, old(fs.abs), EBin(op, left, right)).0.err
    ensures r.Ok? ==> var (s', e') := Compile(P, old(fs.abs), EBin(op, left, right)); fs.Gives(v, s', e')
    ensures r.Ok? ==> Links(old(fs.abs), old(fs.code), fs.code, [])
    decreases EBin(op, left, right), 0
  {
    hide Represents, Links, Chain, Distinct, CodeOk, PoolOk, FormOk, Pending, ListOk, Spec.Posfix, Spec.Infix,
      Compiled, LeftOk, RightOk, OperandKept, Wf, Keeps, ExpOk, Own, Compile, InScope;
    ghost var s, c := fs.abs, fs.code;
    CompileBinary(P, s, op, left, right);
    SameLength(fs.code, fs.abs.code);
    var _ :- LeftOperand(fs, P, op, left, v);
    ghost var s2, c2, e2 := fs.abs, fs.code, v.abs;
    var v2 := new ExpDesc(VNil);
    var _ :- Subexpr(fs, P, right, v2);
    CompileOk(P, s2, right);
    ghost var s3, c3, e3 := fs.abs, fs.code, v2.abs;
    BinaryRight(s, s2, s3, op, e2, e3, c2, c3, v.t, v.f);
    var _ :- fs.Posfix(P, op, v, v2, |s.code|, |s2.code|, s.freereg);
    BinaryLinks(s, s2, s3, c, c2, c3, fs.code, e3);
    return Ok(());
  }

  /** explist: all expressions but the last go to the next registers, the last one is left in `v`. */
  method ExpList(fs: FuncState, P: Prims, es: seq<Expr>, v: ExpDesc) returns (r: Result<()>)
    requires fs.Valid() && Wf(fs.abs) && es != [] && AllInScope(es, fs.nactvar)
    modifies fs, v
    ensures r.Err? ==> LuaExprLists.ExpList(P, old(fs.abs), es).0.err
    ensures r.Ok? ==> var (s', e') := LuaExprLists.ExpList(P, old(fs.abs), es); fs.Gives(v, s', e')
    ensures r.Ok? ==> Links(old(fs.abs), old(fs.code), fs.code, [])
  {
    hide Represents, Chain, Links, Distinct, CodeOk, PoolOk, FormOk, Spec.Exp2NextReg, Pending, Compile, Wf,
      LuaExprLists.ExpList, NextRegs, Compiled, ListOk, Keeps, Own;
    ghost var s, c := fs.abs, fs.code;
    FirstExpr(P, s, es);
    var _ :- Subexpr(fs, P, es[0], v);
    var i := 1;
    while i < |es|
      invariant 1 <= i <= |es| && fs.nactvar == s.nactvar && !fs.abs.err
      invariant var (s', e') := LuaExprLists.ExpList(P, s, es[..i]); fs.Gives(v, s', e')
      invariant Links(s, c, fs.code, [])
    {
      ghost var s0 := NextRegs(P, s, es[..i - 1]);
      ghost var s1, c1, e1 := fs.abs, fs.code, v.abs;
      NextExpr(P, s, es, i);
      var _ :- fs.Exp2NextReg(v, |s0.code|, s0.freereg);
      ghost var s2, c2 := fs.abs, fs.code;
      NextExprReady(P, s, es, i);
      ListLinks(s, s0, s1, c, c1, c2, e1);
      var _ :- Subexpr(fs, P, es[i], v);
      LinksEvolved(s, c, s2, c2, fs.code);
      i := i + 1;
    }
    assert es[..i] == es;
    return Ok(());
  }

  /** explist with luaK_exp2nextreg on its last expression, as in adjust_assign. */
  method ExpRegs(fs: FuncState, P: Prims, es: seq<Expr>) returns (r: Result<()>)
    requires fs.Valid() && Wf(fs.abs) && AllInScope(es, fs.nactvar)
    modifies fs
    ensures r.Err? ==> NextRegs(P, old(fs.abs), es).err
    ensures r.Ok? ==>
      fs.Valid() && fs.abs == NextRegs(P, old(fs.abs), es) && Links(old(fs.abs), old(fs.code), fs.code, [])
  {
    hide Represents, Chain, Links, Distinct, CodeOk, PoolOk, FormOk, Spec.Exp2NextReg, Pending, Compile, Wf,
      LuaExprLists.ExpList, Compiled, ListOk, Keeps, Own;
    ghost var s, c := fs.abs, fs.code;
    LinksSame(s, c);
    if es != [] {
      var e := new ExpDesc(VNil);
      var _ :- ExpList(fs, P, es, e);
      ghost var s0 := NextRegs(P, s, es[..|es| - 1]);
      ghost var s1, c1, e1 := fs.abs, fs.code, e.abs;
      ExpListOk(P, s, es);
      CompiledParts(s0, s1, e1);
      var _ :- fs.Exp2NextReg(e, |s0.code|, s0.freereg);
      ListLinks(s, s0, s1, c, c1, fs.code, e1);
    }
    return Ok(());
  }

  /** The rest of adjust_assign. */
  method AdjustAssign(fs: FuncState, nvars: nat, nexps: nat) returns (r: Result<()>)
    requires fs.Valid() && Wf(fs.abs)
    modifies fs
    ensures r.Err? ==> LuaExprLists.AdjustAssign(old(fs.abs), nvars, nexps).err
    ensures r.Ok? ==> fs.Valid() && fs.abs == LuaExprLists.AdjustAssign(old(fs.abs), nvars, nexps)
    ensures r.Ok? ==> Links(old(fs.abs), old(fs.code), fs.code, [])
  {
    hide Represents, Chain, Links, CodeOk, PoolOk, FormOk, Pending, Spec.LoadNils;
    ghost var s, c := fs.abs, fs.code;
    LinksSame(s, c);
    if nvars > nexps {
      var reg := fs.freereg;
      var _ :- fs.ReserveRegs(nvars - nexps);
      ghost var s1 := fs.abs;
      ReserveOk(s, nvars - nexps);
      var _ :- fs.LoadNils(reg, nvars - nexps);
      LinksSameCode(s, s1, c, fs.code);
    }
    return Ok(());
  }

  /** The end of the nested calls of assignment: the last local first. */
  method StoreAll(fs: FuncState, rs: seq<nat>) returns (r: Result<()>)
    requires fs.Valid() && Wf(fs.abs) && fs.nactvar + |rs| <= fs.freereg
    requires forall i :: 0 <= i < |rs| ==> rs[i] < fs.nactvar
    modifies fs
    ensures r.Err? ==> LuaAssignment.StoreAll(old(fs.abs), rs).err
    ensures r.Ok? ==> fs.Valid() && fs.abs == LuaAssignment.StoreAll(old(fs.abs), rs)
    ensures r.Ok? ==> Links(old(fs.abs), old(fs.code), fs.code, [])
  {
    hide Represents, Chain, Links, Distinct, CodeOk, PoolOk, FormOk, Pending, Wf, LuaAssignment.StoreLocal, Evolves;
    ghost var s, c := fs.abs, fs.code;
    LinksSame(s, c);
    EvolvesNot(s);
    var k := |rs|;
    assert rs[..k] == rs;
    while k > 0
      invariant 0 <= k <= |rs| && fs.Valid() && Wf(fs.abs) && fs.nactvar + k <= fs.freereg && |s.code| <= |fs.abs.code|
      invariant fs.nactvar == s.nactvar
      invariant LuaAssignment.StoreAll(s, rs) == LuaAssignment.StoreAll(fs.abs, rs[..k])
      invariant Evolves(s, fs.abs, [], |s.code|) && Links(s, c, fs.code, [])
    {
      ghost var s1, c1 := fs.abs, fs.code;
      assert rs[..k][..k - 1] == rs[..k - 1];
      TopOk(s1);
      EmptyChain(c1);
      var e := new ExpDesc(VNonReloc(fs.freereg - 1));
      var _ :- fs.StoreLocal(rs[k - 1], e, |s1.code|, fs.freereg - 1);
      StoreLocalOk(s1, TopValue(s1), rs[k - 1], |s1.code|, s1.freereg - 1);
      LinksEvolved(s, c, s1, c1, fs.code);
      EvolvesTwice(s, s1, fs.abs);
      k := k - 1;
    }
    return Ok(());
  }

  /** leaveblock, as far as registers go, and the end of a statement. */
  method LeaveBlock(fs: FuncState, n: nat)
    requires fs.Valid()
    modifies fs`nactvar, fs`freereg, fs`abs
    ensures fs.Valid() && fs.abs == LuaStatements.LeaveBlock(old(fs.abs), n)
  {
    fs.nactvar, fs.freereg := n, n;
    fs.abs := LuaStatements.LeaveBlock(fs.abs, n);
  }

  /** localstat. */
  method LocalStat(fs: FuncState, P: Prims, n: nat, es: seq<Expr>) returns (r: Result<()>)
    requires fs.Valid() && Between(fs.abs) && AllInScope(es, fs.nactvar)
    modifies fs
    ensures r.Err? ==> CompileStmt(P, old(fs.abs), Local(n, es), []).0.err
    ensures r.Ok? ==> fs.Valid() && fs.abs == CompileStmt(P, old(fs.abs), Local(n, es), []).0
    ensures r.Ok? ==> Links(old(fs.abs), old(fs.code), fs.code, [])
  {
    hide Represents, Chain, Links, CodeOk, PoolOk, FormOk, Pending, Wf, NextRegs, LuaExprLists.AdjustAssign, Evolves;
    ghost var s, c := fs.abs, fs.code;
    if fs.nactvar + n > MAXVARS { return Err(TooMany); }
    var _ :- ExpRegs(fs, P, es);
    ghost var s1, c1 := fs.abs, fs.code;
    NextRegsOk(P, s, es);
    var _ :- AdjustAssign(fs, n, |es|);
    LinksEvolved(s, c, s1, c1, fs.code);
    LeaveBlock(fs, fs.nactvar + n);
    return Ok(());
  }

  /** assignment, when all variables are locals. */
  method AssignStat(fs: FuncState, P: Prims, rs: seq<nat>, es: seq<Expr>) returns (r: Result<()>)
    requires fs.Valid() && Between(fs.abs) && AllInScope(es, fs.nactvar)
    requires forall i :: 0 <= i < |rs| ==> rs[i] < fs.nactvar
    modifies fs
    ensures r.Err? ==> AssignAll(P, old(fs.abs), rs, es).err
    ensures r.Ok? ==>
      fs.Valid() && fs.abs == AssignAll(P, old(fs.abs), rs, es) && Links(old(fs.abs), old(fs.code), fs.code, [])
  {
    hide Represents, Chain, Links, CodeOk, PoolOk, FormOk, Pending, Wf, NextRegs, LuaExprLists.ExpList,
      LuaExprLists.AdjustAssign, DropExtra, LuaAssignment.StoreLocal, LuaAssignment.StoreAll, Evolves,
      Compiled, ExpOk, Own;
    ghost var s, c := fs.abs, fs.code;
    if |es| == |rs| && rs != [] {
      var k := |rs| - 1;
      var e := new ExpDesc(VNil);
      var _ :- ExpList(fs, P, es, e);
      ghost var s0 := NextRegs(P, s, es[..k]);
      ghost var s1, c1, e1 := fs.abs, fs.code, e.abs;
      ExpListOk(P, s, es);
      CompiledParts(s0, s1, e1);
      var _ :- fs.StoreLocal(rs[k], e, |s0.code|, s0.freereg);
      ghost var s3, c3 := fs.abs, fs.code;
      StoreLocalOk(s1, e1, rs[k], |s0.code|, s0.freereg);
      ListLinks(s, s0, s1, c, c1, c3, e1);
      ListEvolves(s, s0, s1, s3, e1);
      var _ :- StoreAll(fs, rs[..k]);
      LinksEvolved(s, c, s3, c3, fs.code);
    } else {
      var _ :- ExpRegs(fs, P, es);
      ghost var s1, c1 := fs.abs, fs.code;
      NextRegsOk(P, s, es);
      var _ :- AdjustAssign(fs, |rs|, |es|);
      LinksEvolved(s, c, s1, c1, fs.code);
      ghost var s2, c2 := fs.abs, fs.code;
      AdjustAssignOk(s1, |rs|, |es|);
      PaddedOk(P, s, |rs|, es);
      DropExtraValues(fs, |rs|, |es|);
      ghost var s3 := fs.abs;
      var _ :- StoreAll(fs, rs);
      LinksEvolved(s, c, s3, c2, fs.code);
    }
    return Ok(());
  }

  method DropExtraValues(fs: FuncState, nvars: nat, nexps: nat)
    requires fs.Valid() && (nexps > nvars ==> nexps - nvars <= fs.freereg)
    modifies fs`freereg, fs`abs
    ensures fs.Valid() && fs.abs == DropExtra(old(fs.abs), nvars, nexps)
  {
    if nexps > nvars { fs.freereg := fs.freereg - (nexps - nvars); }
    fs.abs := fs.abs.(freereg := fs.freereg);
  }

  /** retstat. */
  method ReturnStat(fs: FuncState, P: Prims, es: seq<Expr>) returns (r: Result<()>)
    requires fs.Valid() && Between(fs.abs) && AllInScope(es, fs.nactvar)
    modifies fs
    ensures r.Err? ==> ReturnValues(P, old(fs.abs), es).err
    ensures r.Ok? ==>
      fs.Valid() && fs.abs == ReturnValues(P, old(fs.abs), es) && Links(old(fs.abs), old(fs.code), fs.code, [])
  {
    hide Represents, Chain, Links, CodeOk, PoolOk, FormOk, Pending, Wf, NextRegs, LuaExprLists.ExpList,
      Spec.Exp2AnyReg, Spec.Exp2NextReg, Emit, Evolves, Compiled, ExpOk, Own;
    ghost var s, c := fs.abs, fs.code;
    if es == [] {
      var _ :- fs.Code(Return(0, 1));
      return Ok(());
    }
    var e := new ExpDesc(VNil);
    var _ :- ExpList(fs, P, es, e);
    ghost var s0 := NextRegs(P, s, es[..|es| - 1]);
    ghost var s1, c1, e1 := fs.abs, fs.code, e.abs;
    ExpListOk(P, s, es);
    CompiledParts(s0, s1, e1);
    var first := fs.nactvar;
    if |es| == 1 {
      first :- fs.Exp2AnyReg(e, |s0.code|, s0.freereg);
      Exp2AnyRegOk(s1, e1, |s0.code|, s0.freereg);
    } else {
      var _ :- fs.Exp2NextReg(e, |s0.code|, s0.freereg);
      Exp2NextRegOk(s1, e1, |s0.code|, s0.freereg);
    }
    ghost var s2, c2 := fs.abs, fs.code;
    ListLinks(s, s0, s1, c, c1, c2, e1);
    ListEvolves(s, s0, s1, s2, e1);
    var _ :- fs.Code(Return(first, |es| + 1));
    LinksEvolved(s, c, s2, c2, fs.code);
    return Ok(());
  }

  /** The condition of an arm; the result heads the jumps taken when it is false. */
  method Condition(fs: FuncState, P: Prims, cond: Expr) returns (r: Result<int>)
    requires fs.Valid() && Between(fs.abs) && InScope(cond, fs.nactvar)
    modifies fs
    ensures r.Err? ==> LuaStatements.Condition(P, old(fs.abs), cond).0.err
    ensures r.Ok? ==>
      var (s', jf) := LuaStatements.Condition(P, old(fs.abs), cond);
      fs.Valid() && fs.abs == s' && Chain(fs.code, r.value, jf)
    ensures r.Ok? ==> Links(old(fs.abs), old(fs.code), fs.code, [])
  {
    hide Represents, Chain, Links, Distinct, CodeOk, PoolOk, FormOk, Spec.GoIfTrue, Pending, Compile, Wf;
    ghost var s, c := fs.abs, fs.code;
    var v := new ExpDesc(VNil);
    var _ :- Subexpr(fs, P, cond, v);
    CompileOk(P, s, cond);
    ghost var s1, c1, e1 := fs.abs, fs.code, v.abs;
    CompiledParts(s, s1, e1);
    var _ :- fs.GoIfTrue(v, |s.code|, s.freereg);
    LinksBoth(s, c, s1, c1, fs.code, [], Own(e1));
    return Ok(v.f);
  }

  /** A condition in front of a break; the result heads the jumps taken when it is true. */
  method BreakCondition(fs: FuncState, P: Prims, cond: Expr) returns (r: Result<int>)
    requires fs.Valid() && Between(fs.abs) && InScope(cond, fs.nactvar)
    modifies fs
    ensures r.Err? ==> LuaStatements.BreakCondition(P, old(fs.abs), cond).0.err
    ensures r.Ok? ==>
      var (s', js) := LuaStatements.BreakCondition(P, old(fs.abs), cond);
      fs.Valid() && fs.abs == s' && Chain(fs.code, r.value, js)
    ensures r.Ok? ==> Links(old(fs.abs), old(fs.code), fs.code, [])
  {
    hide Represents, Chain, Links, Distinct, CodeOk, PoolOk, FormOk, Spec.GoIfFalse, Pending, Compile, Wf;
    ghost var s, c := fs.abs, fs.code;
    var v := new ExpDesc(VNil);
    var _ :- Subexpr(fs, P, cond, v);
    CompileOk(P, s, cond);
    ghost var s1, c1, e1 := fs.abs, fs.code, v.abs;
    CompiledParts(s, s1, e1);
    var _ :- fs.GoIfFalse(v, |s.code|, s.freereg);
    LinksBoth(s, c, s1, c1, fs.code, [], Own(e1));
    return Ok(v.t);
  }

  /** cond. */
  method LoopCondition(fs: FuncState, P: Prims, cond: Expr) returns (r: Result<int>)
    requires fs.Valid() && Between(fs.abs) && InScope(cond, fs.nactvar)
    modifies fs
    ensures r.Err? ==> LuaStatements.LoopCondition(P, old(fs.abs), cond).0.err
    ensures r.Ok? ==>
      var (s', jf) := LuaStatements.LoopCondition(P, old(fs.abs), cond);
      fs.Valid() && fs.abs == s' && Chain(fs.code, r.value, jf)
    ensures r.Ok? ==> Links(old(fs.abs), old(fs.code), fs.code, [])
  {
    hide Represents, Chain, Links, Distinct, CodeOk, PoolOk, FormOk, Spec.GoIfTrue, Pending, Compile, Wf;
    ghost var s, c := fs.abs, fs.code;
    var v := new ExpDesc(VNil);
    var _ :- Subexpr(fs, P, cond, v);
    CompileOk(P, s, cond);
    ghost var s1, c1 := fs.abs, fs.code;
    if v.k.VNil? {
      v.k := VFalse;
      v.abs := v.abs.(k := VFalse);
    }
    ghost var e1 := v.abs;
    if Compile(P, s, cond).1.k.VNil? { FalseCompiled(s, s1, Compile(P, s, cond).1); }
    CompiledParts(s, s1, e1);
    var _ :- fs.GoIfTrue(v, |s.code|, s.freereg);
    LinksBoth(s, c, s1, c1, fs.code, [], Own(e1));
    return Ok(v.f);
  }

  lemma FalseCompiled(s: State, s1: State, e: Exp)
    requires Compiled(s, s1, e) && e.k.VNil?
    ensures Compiled(s, s1, e.(k := VFalse))
  {}

  /** The end of test_then_block: the jump over the other arms, if there are any, joins the
      escape list `list`, and the false jumps `jf` go to here. */
  method EndArm(fs: FuncState, jf: int, more: bool, list: int, ghost falses: seq<nat>, ghost esc: seq<nat>)
    returns (r: Result<int>)
    requires fs.Valid() && Between(fs.abs) && Chain(fs.code, jf, falses) && Chain(fs.code, list, esc)
    requires ListOk(fs.abs, falses, 0) && ListOk(fs.abs, esc, 0) && Disjoint(falses, esc)
    modifies fs
    ensures r.Err? ==> LuaStatements.EndArm(old(fs.abs), falses, more, esc).0.err
    ensures r.Ok? ==>
      var (s', esc') := LuaStatements.EndArm(old(fs.abs), falses, more, esc);
      fs.Valid() && fs.abs == s' && Chain(fs.code, r.value, esc')
    ensures r.Ok? ==> Links(old(fs.abs), old(fs.code), fs.code, esc + falses)
  {
    hide Represents, Chain, Links, Distinct, CodeOk, PoolOk, FormOk, Pending, Wf, ListOk, Disjoint, Spec.Jump,
      Spec.PatchToHere, Link, BranchLists;
    ghost var s, c := fs.abs, fs.code;
    if more {
      var j :- fs.Jump();
      ghost var s1, c1, js := fs.abs, fs.code, Spec.Jump(s).1;
      ArmJump(s, c, c1, falses, esc, jf, list);
      var l :- fs.CloseBranch(list, j, jf, esc, js, falses, 0);
      ArmLinks(s, s1, c, c1, fs.code, esc, falses);
      return Ok(l);
    } else {
      var _ :- fs.PatchToHere(jf, falses);
      EscapeKept(s, c, fs.code, falses, esc, list);
      return Ok(list);
    }
  }

  // ----- pending breaks -----

  /** Dyndata: the gotos that wait for their label, here the breaks; each heads a list of jumps. */
  class Dyndata {
    var gt: seq<int>

    constructor ()
      ensures gt == []
    {
      gt := [];
    }
  }

  /** The state and the pending breaks that a part of the parser must leave. */
  ghost predicate Made(fs: FuncState, dyd: Dyndata, s: State, gt: Gotos)
    reads fs, dyd
  {
    fs.Valid() && fs.abs == s && Heads(fs.code, dyd.gt, gt)
  }

  /** gotostat, for a break: newlabelentry has room for a limited number of them. */
  method GotoStat(dyd: Dyndata, pc: int, ghost s: State, ghost gt: Gotos) returns (r: Result<()>)
    requires |dyd.gt| == |gt|
    modifies dyd
    ensures r.Err? ==> NewGoto(s, gt).err
    ensures r.Ok? ==> NewGoto(s, gt) == s && dyd.gt == old(dyd.gt) + [pc]
  {
    if |dyd.gt| >= MAX_GOTOS { return Err(TooMany); }
    dyd.gt := dyd.gt + [pc];
    return Ok(());
  }

  method BreakStat(fs: FuncState, dyd: Dyndata, P: Prims, ghost gt: Gotos) returns (r: Result<()>)
    requires fs.Valid() && Between(fs.abs) && ListOk(fs.abs, Flat(gt), 0) && Heads(fs.code, dyd.gt, gt)
    modifies fs, dyd
    ensures r.Err? ==> CompileStmt(P, old(fs.abs), LuaStatements.Break, gt).0.err
    ensures r.Ok? ==> var (s', gt') := CompileStmt(P, old(fs.abs), LuaStatements.Break, gt); Made(fs, dyd, s', gt')
    ensures r.Ok? ==> Links(old(fs.abs), old(fs.code), fs.code, [])
  {
    hide Represents, Chain, Links, CodeOk, PoolOk, FormOk, Pending, Wf, ListOk, Spec.Jump;
    ghost var s, c := fs.abs, fs.code;
    var pc :- fs.Jump();
    HeadsKept(s, c, fs.code, [], dyd.gt, gt);
    r := GotoStat(dyd, pc, fs.abs, gt);
  }

  /** findgotos at the end of a loop: closegoto takes the first of its breaks off the list until
      there are no more. */
  method FindGotos(fs: FuncState, dyd: Dyndata, first: nat, ghost gt: Gotos, ghost brk: Gotos) returns (r: Result<()>)
    requires fs.Valid() && Wf(fs.abs) && first == |gt| <= |dyd.gt| && Apart(fs.abs, Flat(brk), Flat(gt))
    requires Heads(fs.code, dyd.gt[..first], gt) && Heads(fs.code, dyd.gt[first..], brk)
    modifies fs, dyd
    ensures r.Err? ==> PatchEach(old(fs.abs), brk).err
    ensures r.Ok? ==> Made(fs, dyd, PatchEach(old(fs.abs), brk), gt)
    ensures r.Ok? ==> Links(old(fs.abs), old(fs.code), fs.code, Flat(brk))
  {
    hide Represents, Chain, Links, CodeOk, PoolOk, FormOk, Pending, Wf, ListOk, Disjoint, Spec.PatchToHere, Flat,
      Keeps;
    ghost var s, c := fs.abs, fs.code;
    var here := |fs.code|;
    ghost var k := 0;
    GotosStart(s, c, brk);
    while first < |dyd.gt|
      invariant fs.Valid() && Wf(fs.abs) && k <= |brk| && first <= |dyd.gt| && fs.abs == PatchEach(s, brk[..k])
      invariant |fs.code| == here
      invariant Heads(fs.code, dyd.gt[..first], gt) && Heads(fs.code, dyd.gt[first..], brk[k..])
      invariant Apart(fs.abs, Flat(brk[k..]), Flat(gt)) && Keeps(s, fs.abs, Flat(brk))
      invariant Links(s, c, fs.code, Flat(brk))
      invariant forall j :: j in Flat(brk[k..]) ==> j in Flat(brk)
      decreases |dyd.gt|
    {
      ghost var s1, c1, own := fs.abs, fs.code, brk[k];
      assert brk[k..][0] == own && brk[k..][1..] == brk[k + 1..];
      FirstApart(s1, brk[k..]);
      PatchEachNext(s, brk, k);
      if PatchEach(s, brk[..k + 1]).err { PatchEachErr(s, brk, k + 1); }
      HeadsFirst(c1, dyd.gt, first, brk[k..]);
      SameLength(c1, s1.code);
      var _ :- fs.PatchTo(dyd.gt[first], here, own);
      dyd.gt := dyd.gt[..first] + dyd.gt[first + 1..];
      OneGotoLess(s, c, s1, c1, fs.code, gt, brk, brk[k..], dyd.gt[..first], dyd.gt[first..]);
      SameLength(fs.code, fs.abs.code);
      k := k + 1;
    }
    assert brk[..k] == brk;
    assert dyd.gt[..first] == dyd.gt;
    return Ok(());
  }

  lemma GotosStart(s: State, c: seq<Instr>, brk: Gotos)
    requires Represents(c, s.code)
    ensures PatchEach(s, brk[..0]) == s && brk[0..] == brk && Keeps(s, s, Flat(brk)) && Links(s, c, c, Flat(brk))
  {
    assert brk[..0] == [];
  }

  lemma HeadsFirst(code: seq<Instr>, heads: seq<int>, first: nat, brk: Gotos)
    requires first < |heads| && Heads(code, heads[first..], brk)
    ensures brk != [] && Chain(code, heads[first], brk[0]) && Heads(code, heads[first + 1..], brk[1..])
  {
    hide Chain;
    assert heads[first..][0] == heads[first];
    forall i | 0 <= i < |brk| - 1 ensures Chain(code, heads[first + 1..][i], brk[1..][i]) {
      assert heads[first..][i + 1] == heads[first + 1..][i];
    }
  }

  /** One turn of the loop in findgotos: all other lists are as they were. */
  lemma OneGotoLess(s: State, c: seq<Instr>, s1: State, c1: seq<Instr>, c2: seq<Instr>, gt: Gotos, brk: Gotos,
      rest: Gotos, outer: seq<int>, inner: seq<int>)
    requires Wf(s1) && Apart(s1, Flat(rest), Flat(gt)) && Represents(c1, s1.code) && rest != []
    requires Keeps(s, s1, Flat(brk)) && Links(s, c, c1, Flat(brk)) && Links(s1, c1, c2, rest[0])
    requires !PatchToHere(s1, rest[0]).err && forall j :: j in Flat(rest) ==> j in Flat(brk)
    requires Heads(c1, outer, gt) && Heads(c1, inner, rest[1..])
    ensures
      var s2 := PatchToHere(s1, rest[0]);
      && Wf(s2) && Apart(s2, Flat(rest[1..]), Flat(gt)) && Keeps(s, s2, Flat(brk)) && Links(s, c, c2, Flat(brk))
      && Heads(c2, outer, gt) && Heads(c2, inner, rest[1..]) && s2.code == s1.code
      && forall j :: j in Flat(rest[1..]) ==> j in Flat(brk)
  {
    hide CodeOk, PoolOk, FormOk, Represents, Chain, Flat, Distinct, Links, Heads, Spec.PatchToHere;
    var s2 := Spec.PatchToHere(s1, rest[0]);
    FirstApart(s1, rest);
    PatchToHereOk(s1, rest[0]);
    KeepsList(s1, s2, rest[0], Flat(rest[1..]), 0);
    KeepsList(s1, s2, rest[0], Flat(gt), 0);
    KeepsBoth(s, s1, s2, Flat(brk), rest[0]);
    LinksBoth(s, c, s1, c1, c2, Flat(brk), rest[0]);
    HeadsKept(s1, c1, c2, rest[0], outer, gt);
    HeadsKept(s1, c1, c2, rest[0], inner, rest[1..]);
  }

  // ----- loops -----

  /** luaK_getlabel at the head of a loop. */
  method GetLoopHead(fs: FuncState) returns (pc: nat)
    requires fs.Valid()
    modifies fs`lasttarget, fs`abs
    ensures fs.Valid() && fs.abs == LoopHead(old(fs.abs)) && pc == |fs.code| == |fs.abs.code| && fs.code == old(fs.code)
  {
    hide Chain, Pending;
    pc := |fs.code|;
    ghost var labels := fs.abs.labels + {|fs.abs.code|};
    fs.GetLabel();
    fs.abs := fs.abs.(labels := labels);
  }

  /** The end of a loop: luaK_patchlist back to its head, and breaklabel. */
  method EndLoop(fs: FuncState, dyd: Dyndata, list: int, head: nat, first: nat, ghost js: seq<nat>, ghost gt: Gotos,
      ghost gt': Gotos)
    returns (r: Result<()>)
    requires fs.Valid() && Between(fs.abs) && Chain(fs.code, list, js) && head in fs.abs.labels
    requires gt <= gt' && first == |gt| && Heads(fs.code, dyd.gt, gt')
    requires
      var breaks := Flat(gt'[|gt|..]);
      Apart(fs.abs, js, breaks) && Apart(fs.abs, js, Flat(gt)) && Apart(fs.abs, breaks, Flat(gt))
    modifies fs, dyd
    ensures r.Err? ==> LuaStatements.EndLoop(old(fs.abs), js, head, gt'[|gt|..]).err
    ensures r.Ok? ==> Made(fs, dyd, LuaStatements.EndLoop(old(fs.abs), js, head, gt'[|gt|..]), gt)
    ensures r.Ok? ==> Links(old(fs.abs), old(fs.code), fs.code, js + Flat(gt'[|gt|..]))
  {
    hide Represents, Chain, Links, CodeOk, PoolOk, FormOk, Pending, ListOk, Disjoint, Flat, Keeps, Heads,
      LuaStatements.PatchTo, PatchEach;
    ghost var s, c, brk := fs.abs, fs.code, gt'[|gt|..];
    LabelInCode(s, head);
    SameLength(c, s.code);
    HeadsLength(c, dyd.gt, gt');
    HeadsSplit(c, dyd.gt, gt, gt');
    var _ :- fs.PatchTo(list, head, js);
    LoopPatched(s, c, fs.code, js, head, gt, brk, dyd.gt[..first], dyd.gt[first..]);
    ghost var s1, c1 := fs.abs, fs.code;
    var _ :- FindGotos(fs, dyd, first, gt, brk);
    LoopLinks(s, c, s1, c1, fs.code, js, Flat(brk));
    return Ok(());
  }

  lemma LoopPatched(s: State, c: seq<Instr>, c1: seq<Instr>, js: seq<nat>, head: nat, gt: Gotos, brk: Gotos,
      outer: seq<int>, inner: seq<int>)
    requires Wf(s) && Represents(c, s.code) && Links(s, c, c1, js) && head in s.labels
    requires !LuaStatements.PatchTo(s, js, head).err
    requires Apart(s, js, Flat(brk)) && Apart(s, js, Flat(gt)) && Apart(s, Flat(brk), Flat(gt))
    requires Heads(c, outer, gt) && Heads(c, inner, brk)
    ensures
      var s1 := LuaStatements.PatchTo(s, js, head);
      && Wf(s1) && Keeps(s, s1, js) && Apart(s1, Flat(brk), Flat(gt)) && Heads(c1, outer, gt) && Heads(c1, inner, brk)
  {
    hide CodeOk, PoolOk, FormOk, Represents, Chain, Flat, Distinct, Links, Heads, LuaStatements.PatchTo;
    var s1 := LuaStatements.PatchTo(s, js, head);
    PatchToOk(s, js, head);
    KeepsList(s, s1, js, Flat(brk), 0);
    KeepsList(s, s1, js, Flat(gt), 0);
    HeadsKept(s, c, c1, js, outer, gt);
    HeadsKept(s, c, c1, js, inner, brk);
  }

  lemma LoopLinks(s: State, c: seq<Instr>, s1: State, c1: seq<Instr>, c2: seq<Instr>, xs: seq<nat>, ys: seq<nat>)
    requires Keeps(s, s1, xs) && Links(s, c, c1, xs) && Links(s1, c1, c2, ys)
    ensures Links(s, c, c2, xs + ys)
  {
    forall j: nat | Foreign(s, xs + ys, j) ensures Foreign(s, xs, j) && Foreign(s1, ys, j) {
      assert Foreign(s, xs, j);
    }
  }

  /** What luaK_jumpto and leaveblock need to know after the body of a while loop. */
  lemma WhileJump(s0: State, c0: seq<Instr>, s: State, c: seq<Instr>, c1: seq<Instr>, condexit: int, jf: seq<nat>,
      gt: Gotos, gt': Gotos, heads: seq<int>)
    requires Settles(s0, s) && Represents(c, s.code) && Links(s0, c0, c, []) && Links(s, c, c1, []) && !Jump(s).0.err
    requires Chain(c, condexit, jf) && Heads(c, heads, gt') && gt <= gt'
    requires
      var breaks := Flat(gt'[|gt|..]);
      Apart(s, jf, breaks) && Apart(s, jf, Flat(gt)) && Apart(s, breaks, Flat(gt))
    requires EscapesFrom(s0, [], Flat(gt'[|gt|..]))
    ensures
      var (s1, js) := Jump(s);
      var breaks := Flat(gt'[|gt|..]);
      && Settles(s0, s1) && Links(s0, c0, c1, []) && Chain(c1, condexit, jf) && Heads(c1, heads, gt')
      && Apart(s1, js, breaks) && Apart(s1, js, Flat(gt)) && Apart(s1, breaks, Flat(gt))
      && Apart(s1, js, jf) && Apart(s1, breaks, jf) && Apart(s1, jf, Flat(gt)) && EscapesFrom(s0, [], js + breaks)
  {
    hide Between, Evolves, Represents, Chain, Flat, ListOk, Links, Heads, Spec.Jump, Disjoint;
    var (s1, js) := Jump(s);
    var breaks := Flat(gt'[|gt|..]);
    JumpExtends(s, jf);
    JumpExtends(s, Flat(gt));
    JumpExtends(s, breaks);
    ApartSym(s1, breaks, js);
    ApartSym(s1, Flat(gt), js);
    ApartSym(s1, jf, js);
    StayApart(s, s1, breaks, Flat(gt));
    StayApart(s, s1, jf, breaks);
    StayApart(s, s1, jf, Flat(gt));
    ApartSym(s1, jf, breaks);
    SettlesBoth(s0, s, s1);
    EarlierJumps(s0, s, js);
    BothEscape(s0, js, breaks);
    LinksSettled(s0, c0, s, c, c1);
    NothingDisjoint(jf);
    ChainKept(s, c, c1, [], condexit, jf);
    AllGotos(s, gt, gt');
    NothingDisjoint(Flat(gt'));
    HeadsKept(s, c, c1, [], heads, gt');
  }

  lemma NothingDisjoint(xs: seq<nat>)
    ensures Disjoint(xs, [])
  {}

  lemma AllGotos(s: State, gt: Gotos, gt': Gotos)
    requires gt <= gt' && Apart(s, Flat(gt'[|gt|..]), Flat(gt))
    ensures ListOk(s, Flat(gt'), 0)
  {
    hide Flat, Distinct, Pending;
    FlatSplit(gt, gt');
    ListWhole(s, Flat(gt), Flat(gt'[|gt|..]), 0);
  }

  /** The end of whilestat. */
  method EndWhile(fs: FuncState, dyd: Dyndata, head: nat, condexit: int, first: nat,
      ghost s0: State, ghost c0: seq<Instr>, ghost jf: seq<nat>, ghost gt: Gotos,
          ghost gt': Gotos) returns (r: Result<()>)
    requires fs.Valid() && Settles(s0, fs.abs) && Links(s0, c0, fs.code, []) && head in fs.abs.labels
    requires Chain(fs.code, condexit, jf) && gt <= gt' && first == |gt| && Heads(fs.code, dyd.gt, gt')
    requires
      var breaks := Flat(gt'[|gt|..]);
      && Apart(fs.abs, jf, breaks) && Apart(fs.abs, jf, Flat(gt)) && Apart(fs.abs, breaks, Flat(gt))
      && EscapesFrom(s0, [], jf) && EscapesFrom(s0, [], breaks)
    modifies fs, dyd
    ensures r.Err? ==> LuaStatements.EndWhile(old(fs.abs), head, jf, gt'[|gt|..]).err
    ensures r.Ok? ==> Made(fs, dyd, LuaStatements.EndWhile(old(fs.abs), head, jf, gt'[|gt|..]), gt)
    ensures r.Ok? ==> Links(s0, c0, fs.code, [])
  {
    hide Represents, Chain, Links, Between, Evolves, Pending, ListOk, Disjoint, Flat, Heads, LuaStatements.EndLoop,
      Spec.Jump, Spec.PatchToHere;
    ghost var s, c, breaks := fs.abs, fs.code, Flat(gt'[|gt|..]);
    var j :- fs.Jump();
    ghost var s1, c1, js := fs.abs, fs.code, Spec.Jump(s).1;
    WhileJump(s0, c0, s, c, c1, condexit, jf, gt, gt', dyd.gt);
    var _ :- EndLoop(fs, dyd, j, head, first, js, gt, gt');
    ghost var s2, c2 := fs.abs, fs.code;
    LoopEnded(s0, c0, s1, c1, c2, js, head, gt'[|gt|..], jf, Flat(gt), condexit);
    var _ :- fs.PatchToHere(condexit, jf);
    HeadsKept(s2, c2, fs.code, jf, dyd.gt, gt);
    LinksBoth(s0, c0, s2, c2, fs.code, [], jf);
    return Ok(());
  }

  lemma LoopEnded(s0: State, c0: seq<Instr>, s: State, c: seq<Instr>, c2: seq<Instr>, js: seq<nat>, head: nat,
      brk: Gotos, jf: seq<nat>, xs: seq<nat>, list: int)
    requires Settles(s0, s) && Represents(c, s.code) && Links(s0, c0, c, []) && Links(s, c, c2, js + Flat(brk))
    requires head in s.labels
    requires Apart(s, js, Flat(brk)) && Apart(s, js, jf) && Apart(s, Flat(brk), jf) && Apart(s, jf, xs)
    requires Apart(s, js, xs) && Apart(s, Flat(brk), xs) && Chain(c, list, jf)
    requires EscapesFrom(s0, [], js + Flat(brk)) && EscapesFrom(s0, [], jf)
    requires !LuaStatements.EndLoop(s, js, head, brk).err
    ensures
      var s2 := LuaStatements.EndLoop(s, js, head, brk);
      Settles(s0, s2) && Links(s0, c0, c2, []) && Chain(c2, list, jf) && ListOk(s2, jf, 0) && ListOk(s2, xs, 0)
        && Disjoint(xs, jf)
    ensures Keeps(s0, LuaStatements.EndLoop(s, js, head, brk), [])
    ensures forall j :: j in jf ==> j in s0.jpc || j >= |s0.code|
  {
    hide Between, Represents, Chain, Flat, ListOk, Links, LuaStatements.EndLoop, Keeps;
    EscapeParts(s0, js, Flat(brk));
    EndLoopOk(s0, s, js, head, brk, jf);
    EndLoopOk(s0, s, js, head, brk, xs);
    OwnApart(s, jf, js, Flat(brk));
    ChainKept(s, c, c2, js + Flat(brk), list, jf);
    LinksBoth(s0, c0, s, c, c2, [], js + Flat(brk));
  }

  lemma EscapeParts(s: State, xs: seq<nat>, ys: seq<nat>)
    requires EscapesFrom(s, [], xs + ys)
    ensures EscapesFrom(s, [], xs) && EscapesFrom(s, [], ys)
  {
    assert forall j :: j in xs || j in ys ==> j in xs + ys;
  }

  lemma OwnApart(s: State, zs: seq<nat>, xs: seq<nat>, ys: seq<nat>)
    requires Apart(s, xs, zs) && Apart(s, ys, zs)
    ensures ListOk(s, zs, 0) && Disjoint(zs, xs + ys)
  {}

  /** whilestat. */
  method WhileStat(fs: FuncState, dyd: Dyndata, P: Prims, cond: Expr, b: Block, ghost gt: Gotos) returns (r: Result<()>)
    requires fs.Valid() && Between(fs.abs) && InScope(cond, fs.nactvar) && BlockInScope(b, fs.nactvar)
    requires ListOk(fs.abs, Flat(gt), 0) && Heads(fs.code, dyd.gt, gt)
    modifies fs, dyd
    ensures r.Err? ==> CompileStmt(P, old(fs.abs), While(cond, b), gt).0.err
    ensures r.Ok? ==> Made(fs, dyd, CompileStmt(P, old(fs.abs), While(cond, b), gt).0, gt)
    ensures r.Ok? ==> Links(old(fs.abs), old(fs.code), fs.code, [])
    decreases While(cond, b), 0
  {
    hide Represents, Chain, Links, Between, Evolves, Pending, ListOk, Disjoint, Flat, Heads, LuaStatements.EndWhile,
      LoopHead, LuaStatements.LoopCondition, CompileBlock, CompileStmt, InScope, BlockInScope, EscapesFrom;
    ghost var s, c := fs.abs, fs.code;
    var first := |dyd.gt|;
    HeadsLength(c, dyd.gt, gt);
    WhileIs(P, s, cond, b, gt);
    var whileinit := GetLoopHead(fs);
    ghost var sh := fs.abs;
    LoopHeadOk(s);
    HeadIsLabel(s);
    var condexit :- LoopCondition(fs, P, cond);
    ghost var s1, c1, jf := fs.abs, fs.code, LuaStatements.LoopCondition(P, sh, cond).1;
    WhileHeadOk(P, s, cond, gt);
    AfterHead(s, c, c1, dyd.gt, gt);
    var _ :- Block(fs, dyd, P, b, gt);
    ghost var gt1 := CompileBlock(P, s1, b, gt).1;
    WhileParts(P, s, cond, b, gt);
    AfterBlock(s, c, s1, c1, fs.code, condexit, jf);
    r := EndWhile(fs, dyd, whileinit, condexit, first, s, c, jf, gt, gt1);
  }

  lemma HeadsLength(code: seq<Instr>, heads: seq<int>, gt: Gotos)
    requires Heads(code, heads, gt)
    ensures |heads| == |gt|
  {}

  /** Lists and links after what follows the head of a loop. */
  lemma AfterHead(s: State, c: seq<Instr>, c1: seq<Instr>, heads: seq<int>, gt: Gotos)
    requires Represents(c, s.code) && Links(LoopHead(s), c, c1, []) && ListOk(s, Flat(gt), 0) && Heads(c, heads, gt)
    ensures Links(s, c, c1, []) && Heads(c1, heads, gt)
  {
    hide Represents, Links, Heads, Flat, ListOk;
    LinksSameCode(s, LoopHead(s), c, c1);
    HeadsKept(s, c, c1, [], heads, gt);
  }

  /** ... and after what comes next. */
  lemma AfterBlock(s: State, c: seq<Instr>, s1: State, c1: seq<Instr>, c2: seq<Instr>, list: int, nodes: seq<nat>)
    requires Settles(s, s1) && Represents(c1, s1.code) && Links(s, c, c1, []) && Links(s1, c1, c2, [])
    requires ListOk(s1, nodes, 0) && Chain(c1, list, nodes)
    ensures Links(s, c, c2, []) && Chain(c2, list, nodes)
  {
    hide Represents, Links, Chain, ListOk, Between;
    LinksSettled(s, c, s1, c1, c2);
    ChainKept(s1, c1, c2, [], list, nodes);
  }

  /** repeatstat. */
  method RepeatStat(fs: FuncState, dyd: Dyndata, P: Prims, b: Block, cond: Expr, ghost gt: Gotos)
    returns (r: Result<()>)
    requires fs.Valid() && Between(fs.abs) && BlockInScope(b, fs.nactvar) && InScope(cond, BlockEnd(b, fs.nactvar))
    requires ListOk(fs.abs, Flat(gt), 0) && Heads(fs.code, dyd.gt, gt)
    modifies fs, dyd
    ensures r.Err? ==> CompileStmt(P, old(fs.abs), Repeat(b, cond), gt).0.err
    ensures r.Ok? ==> Made(fs, dyd, CompileStmt(P, old(fs.abs), Repeat(b, cond), gt).0, gt)
    ensures r.Ok? ==> Links(old(fs.abs), old(fs.code), fs.code, [])
    decreases Repeat(b, cond), 0
  {
    hide Represents, Chain, Links, Between, Evolves, Pending, ListOk, Disjoint, Flat, Heads, LuaStatements.EndLoop,
      LoopHead, LuaStatements.LoopCondition, CompileBlock, CompileStmt, InScope, BlockInScope, EscapesFrom;
    ghost var s, c := fs.abs, fs.code;
    var n, first := fs.nactvar, |dyd.gt|;
    HeadsLength(c, dyd.gt, gt);
    RepeatIs(P, s, b, cond, gt);
    var repeatinit := GetLoopHead(fs);
    ghost var sh := fs.abs;
    LoopHeadOk(s);
    HeadIsLabel(s);
    ExtendsSame(s, sh, Flat(gt));
    var _ :- StatList(fs, dyd, P, b, gt);
    ghost var sb, cb, gt1 := fs.abs, fs.code, CompileBlock(P, sh, b, gt).1;
    BlockOk(P, sh, b, gt);
    var condexit :- LoopCondition(fs, P, cond);
    ghost var s1, c1, jf := fs.abs, fs.code, LuaStatements.LoopCondition(P, sb, cond).1;
    RepeatParts(P, s, b, cond, gt);
    BeforeUntil(s, c, sh, sb, cb, c1, dyd.gt, gt1);
    LeaveBlock(fs, n);
    ghost var s3 := fs.abs;
    var _ :- EndLoop(fs, dyd, condexit, repeatinit, first, jf, gt, gt1);
    RepeatLinks(s, c, s3, c1, fs.code, jf, Flat(gt1[|gt|..]));
    return Ok(());
  }

  lemma BeforeUntil(s: State, c: seq<Instr>, sh: State, sb: State, cb: seq<Instr>, c1: seq<Instr>, heads: seq<int>,
      gt: Gotos)
    requires sh == LoopHead(s) && Settles(s, sh) && Settles(sh, sb) && Links(sh, c, cb, []) && Links(sb, cb, c1, [])
    requires Represents(cb, sb.code) && Heads(cb, heads, gt) && ListOk(sb, Flat(gt), 0)
    ensures Links(s, c, c1, []) && Heads(c1, heads, gt)
  {
    hide Represents, Links, Heads, ListOk, Between, Flat;
    LinksSameCode(s, sh, c, cb);
    SettlesBoth(s, sh, sb);
    LinksSettled(s, c, sb, cb, c1);
    HeadsKept(sb, cb, c1, [], heads, gt);
  }

  lemma RepeatLinks(s: State, c: seq<Instr>, s3: State, c1: seq<Instr>, c2: seq<Instr>, xs: seq<nat>, ys: seq<nat>)
    requires Settles(s, s3) && Links(s, c, c1, []) && Links(s3, c1, c2, xs + ys)
    requires EscapesFrom(s, [], xs) && EscapesFrom(s, [], ys)
    ensures Links(s, c, c2, [])
  {
    hide Between, Links;
    BothEscape(s, xs, ys);
    LinksBoth(s, c, s3, c1, c2, [], xs + ys);
  }

  // ----- conditional statements -----

  /** The condition of an arm, and a break in front of its block; the result heads the jumps over
      the block. */
  method OpenArm(fs: FuncState, dyd: Dyndata, P: Prims, br: Branch, ghost gt: Gotos) returns (r: Result<int>)
    requires fs.Valid() && Between(fs.abs) && InScope(br.cond, fs.nactvar) && ListOk(fs.abs, Flat(gt), 0)
    requires Heads(fs.code, dyd.gt, gt)
    modifies fs, dyd
    ensures r.Err? ==> LuaStatements.OpenArm(P, old(fs.abs), br, gt).0.err
    ensures r.Ok? ==>
      var (s', jf, gt') := LuaStatements.OpenArm(P, old(fs.abs), br, gt);
      Made(fs, dyd, s', gt') && Chain(fs.code, r.value, jf)
    ensures r.Ok? ==> Links(old(fs.abs), old(fs.code), fs.code, [])
  {
    hide Represents, Chain, Links, Between, Evolves, Pending, ListOk, Flat, Heads, LuaStatements.Condition,
      LuaStatements.BreakCondition, Spec.Jump, InScope;
    ghost var s, c := fs.abs, fs.code;
    if StartsWithBreak(br.thenb) {
      var t :- BreakCondition(fs, P, br.cond);
      ghost var s1, c1, jt := fs.abs, fs.code, LuaStatements.BreakCondition(P, s, br.cond).1;
      BreakConditionOk(P, s, br.cond);
      HeadsKept(s, c, c1, [], dyd.gt, gt);
      HeadsLength(c1, dyd.gt, gt);
      HeadsMore(c1, dyd.gt, gt, t, jt);
      NewBreak(s, s1, gt, jt);
      var _ :- GotoStat(dyd, t, s1, gt);
      var jf :- fs.Jump();
      HeadsKept(s1, c1, fs.code, [], dyd.gt, gt + [jt]);
      LinksSettled(s, c, s1, c1, fs.code);
      return Ok(jf);
    } else {
      var jf :- Condition(fs, P, br.cond);
      HeadsKept(s, c, fs.code, [], dyd.gt, gt);
      return Ok(jf);
    }
  }

  lemma HeadsMore(code: seq<Instr>, heads: seq<int>, gt: Gotos, list: int, js: seq<nat>)
    requires Heads(code, heads, gt) && Chain(code, list, js)
    ensures Heads(code, heads + [list], gt + [js])
  {
    hide Chain;
  }

  /** An arm that is nothing but a break. */
  method LoneBreakArm(fs: FuncState, dyd: Dyndata, P: Prims, br: Branch, list: int, ghost esc: seq<nat>,
      ghost gt: Gotos) returns (r: Result<()>)
    requires fs.Valid() && Between(fs.abs) && InScope(br.cond, fs.nactvar) && LoneBreak(br.thenb)
    requires Apart(fs.abs, esc, Flat(gt)) && Chain(fs.code, list, esc) && Heads(fs.code, dyd.gt, gt)
    modifies fs, dyd
    ensures r.Err? ==> LuaStatements.TestThenBlock(P, old(fs.abs), br, esc, gt).0.err
    ensures r.Ok? ==>
      var (s', esc', gt') := LuaStatements.TestThenBlock(P, old(fs.abs), br, esc, gt);
      Made(fs, dyd, s', gt') && Chain(fs.code, list, esc')
    ensures r.Ok? ==> Links(old(fs.abs), old(fs.code), fs.code, [])
  {
    hide Represents, Chain, Links, Between, Evolves, Pending, ListOk, Flat, Heads, LuaStatements.BreakCondition,
      InScope;
    ghost var s, c := fs.abs, fs.code;
    var n := fs.nactvar;
    var t :- BreakCondition(fs, P, br.cond);
    ghost var c1, jt := fs.code, LuaStatements.BreakCondition(P, s, br.cond).1;
    HeadsKept(s, c, c1, [], dyd.gt, gt);
    ChainKept(s, c, c1, [], list, esc);
    HeadsLength(c1, dyd.gt, gt);
    HeadsMore(c1, dyd.gt, gt, t, jt);
    var _ :- GotoStat(dyd, t, fs.abs, gt);
    LeaveBlock(fs, n);
    return Ok(());
  }

  /** test_then_block; `list` heads the escape list. */
  method TestThenBlock(fs: FuncState, dyd: Dyndata, P: Prims, br: Branch, list: int, ghost esc: seq<nat>,
      ghost gt: Gotos) returns (r: Result<int>)
    requires fs.Valid() && Between(fs.abs) && BranchInScope(br, fs.nactvar)
    requires Apart(fs.abs, esc, Flat(gt)) && Chain(fs.code, list, esc) && Heads(fs.code, dyd.gt, gt)
    modifies fs, dyd
    ensures r.Err? ==> LuaStatements.TestThenBlock(P, old(fs.abs), br, esc, gt).0.err
    ensures r.Ok? ==>
      var (s', esc', gt') := LuaStatements.TestThenBlock(P, old(fs.abs), br, esc, gt);
      Made(fs, dyd, s', gt') && Chain(fs.code, r.value, esc')
    ensures r.Ok? ==> Links(old(fs.abs), old(fs.code), fs.code, esc)
    decreases br, 0
  {
    hide Represents, Chain, Links, Between, Evolves, Pending, ListOk, Disjoint, Flat, Heads, LuaStatements.OpenArm,
      LuaStatements.EndArm, LuaStatements.BreakCondition, CompileBlock, InScope, BlockInScope, EscapesFrom;
    ghost var s, c := fs.abs, fs.code;
    var n := fs.nactvar;
    if LoneBreak(br.thenb) {
      var _ :- LoneBreakArm(fs, dyd, P, br, list, esc, gt);
      LinksWeaken(s, c, fs.code, esc);
      return Ok(list);
    }
    var jf :- OpenArm(fs, dyd, P, br, gt);
    ghost var (s1, falses, gt1) := LuaStatements.OpenArm(P, s, br, gt);
    ghost var c1 := fs.code;
    OpenArmOk(P, s, br, gt);
    ArmBlockInScope(br.thenb, n);
    var _ :- StatList(fs, dyd, P, ArmBlock(br.thenb), gt1);
    ghost var cb, gt2 := fs.code, CompileBlock(P, s1, ArmBlock(br.thenb), gt1).1;
    ArmParts(P, s, br, esc, gt);
    ArmChains(s, c, s1, c1, cb, falses, esc, jf, list);
    LeaveBlock(fs, n);
    ghost var s3 := fs.abs;
    var l :- EndArm(fs, jf, !br.tail.End?, list, falses, esc);
    ArmOwn(s, c, s3, cb, fs.code, esc, falses);
    OwnApart(s3, Flat(gt2), esc, falses);
    HeadsKept(s3, cb, fs.code, esc + falses, dyd.gt, gt2);
    return Ok(l);
  }

  /** ifstat. */
  method IfStat(fs: FuncState, dyd: Dyndata, P: Prims, br: Branch, ghost gt: Gotos) returns (r: Result<()>)
    requires fs.Valid() && Between(fs.abs) && BranchInScope(br, fs.nactvar) && ListOk(fs.abs, Flat(gt), 0)
    requires Heads(fs.code, dyd.gt, gt)
    modifies fs, dyd
    ensures r.Err? ==> CompileStmt(P, old(fs.abs), If(br), gt).0.err
    ensures r.Ok? ==> var (s', gt') := CompileStmt(P, old(fs.abs), If(br), gt); Made(fs, dyd, s', gt')
    ensures r.Ok? ==> Links(old(fs.abs), old(fs.code), fs.code, [])
    decreases br, 1
  {
    hide Represents, Chain, Links, Between, Evolves, Pending, ListOk, Disjoint, Flat, Heads,
      LuaStatements.TestThenBlock, CompileBlock, Spec.PatchToHere, EscapesFrom, Settles;
    ghost var s, c := fs.abs, fs.code;
    ghost var esc: seq<nat>, gs := [], gt;
    NoEscapes(s, c, gt);
    var escapelist :- TestThenBlock(fs, dyd, P, br, NO_JUMP, [], gt);
    ArmOk(P, s, br, [], gt);
    esc, gs := LuaStatements.TestThenBlock(P, s, br, [], gt).1, LuaStatements.TestThenBlock(P, s, br, [], gt).2;
    var t := br.tail;
    while t.ElseIf?
      invariant Made(fs, dyd, fs.abs, gs) && TailInScope(t, fs.nactvar) && Chain(fs.code, escapelist, esc)
      invariant CompileBranch(P, s, br, [], gt) == CompileTail(P, fs.abs, t, esc, gs)
      invariant ExtendsTwo(s, fs.abs, [], esc, Flat(gt), Flat(gs)) && Links(s, c, fs.code, []) && t < br
      decreases t
    {
      ghost var s1, c1 := fs.abs, fs.code;
      ghost var (_, esc1, gs1) := LuaStatements.TestThenBlock(P, s1, t.branch, esc, gs);
      ApartAgain(s, s1, [], esc, Flat(gt), Flat(gs));
      ExtendsMeans(s, s1, [], esc);
      escapelist :- TestThenBlock(fs, dyd, P, t.branch, escapelist, esc, gs);
      ArmOk(P, s1, t.branch, esc, gs);
      MoreArms(s, c, s1, c1, fs.abs, fs.code, esc, esc1, gt, gs, gs1);
      esc, gs := esc1, gs1;
      t := t.branch.tail;
    }
    if t.Else? {
      ghost var s1, c1, gs1 := fs.abs, fs.code, CompileBlock(P, fs.abs, t.elseb, gs).1;
      ApartAgain(s, s1, [], esc, Flat(gt), Flat(gs));
      ExtendsMeans(s, s1, [], esc);
      ExtendsMeans(s, s1, Flat(gt), Flat(gs));
      var _ :- Block(fs, dyd, P, t.elseb, gs);
      ElseArm(P, s, c, s1, c1, fs.code, t.elseb, esc, escapelist, gt, gs);
      gs := gs1;
    }
    ghost var s2, c2 := fs.abs, fs.code;
    ExtendsMeans(s, s2, [], esc);
    ExtendsMeans(s, s2, Flat(gt), Flat(gs));
    var _ :- fs.PatchToHere(escapelist, esc);
    EscapeLinks(s, c, s2, c2, fs.code, esc);
    EscapeHeads(s, s2, c2, fs.code, esc, dyd.gt, gt, gs);
    return Ok(());
  }

  lemma NoEscapes(s: State, c: seq<Instr>, gt: Gotos)
    requires ListOk(s, Flat(gt), 0)
    ensures Apart(s, [], Flat(gt)) && Chain(c, NO_JUMP, [])
  {}

  lemma ExtendsMeans(s: State, s': State, xs: seq<nat>, xs': seq<nat>)
    requires Extends(s, s', xs, xs')
    ensures Settles(s, s') && Between(s') && ListOk(s', xs', 0) && EscapesFrom(s, xs, xs')
  {}

  /** block. */
  method Block(fs: FuncState, dyd: Dyndata, P: Prims, b: Block, ghost gt: Gotos) returns (r: Result<()>)
    requires fs.Valid() && Between(fs.abs) && BlockInScope(b, fs.nactvar) && ListOk(fs.abs, Flat(gt), 0)
    requires Heads(fs.code, dyd.gt, gt)
    modifies fs, dyd
    ensures r.Err? ==> CompileBlock(P, old(fs.abs), b, gt).0.err
    ensures r.Ok? ==>
      var (s', gt') := CompileBlock(P, old(fs.abs), b, gt);
      Made(fs, dyd, LuaStatements.LeaveBlock(s', old(fs.nactvar)), gt') && !s'.err
    ensures r.Ok? ==> Links(old(fs.abs), old(fs.code), fs.code, [])
    decreases b, 1
  {
    hide Represents, Chain, Links, Between, Pending, CompileBlock, Heads, ListOk, Flat;
    var n := fs.nactvar;
    var _ :- StatList(fs, dyd, P, b, gt);
    LeaveBlock(fs, n);
    return Ok(());
  }

  method Statement(fs: FuncState, dyd: Dyndata, P: Prims, st: Stmt, ghost gt: Gotos) returns (r: Result<()>)
    requires fs.Valid() && Between(fs.abs) && StmtInScope(st, fs.nactvar) && ListOk(fs.abs, Flat(gt), 0)
    requires Heads(fs.code, dyd.gt, gt)
    modifies fs, dyd
    ensures r.Err? ==> CompileStmt(P, old(fs.abs), st, gt).0.err
    ensures r.Ok? ==> var (s', gt') := CompileStmt(P, old(fs.abs), st, gt); Made(fs, dyd, s', gt')
    ensures r.Ok? ==> Links(old(fs.abs), old(fs.code), fs.code, [])
    decreases st
  {
    hide Represents, Chain, Links, CodeOk, PoolOk, FormOk, Pending, CompileBlock, CompileBranch, Compile, Heads,
      ListOk, Flat, AssignAll, Evolves, LuaExprLists.AdjustAssign, NextRegs, LuaStatements.EndWhile,
      LuaStatements.EndLoop;
    ghost var s, c := fs.abs, fs.code;
    match st
    case Local(n, es) =>
      r := LocalStat(fs, P, n, es);
      if r.Ok? { HeadsKept(s, c, fs.code, [], dyd.gt, gt); }
    case Assign(rs, es) =>
      r := AssignStat(fs, P, rs, es);
      if r.Ok? {
        AssignOk(P, s, rs, es);
        HeadsKept(s, c, fs.code, [], dyd.gt, gt);
        LeaveBlock(fs, fs.nactvar);
      }
    case Do(b) => r := Block(fs, dyd, P, b, gt);
    case If(br) => r := IfStat(fs, dyd, P, br, gt);
    case While(cond, b) => r := WhileStat(fs, dyd, P, cond, b, gt);
    case Repeat(b, cond) => r := RepeatStat(fs, dyd, P, b, cond, gt);
    case Break => r := BreakStat(fs, dyd, P, gt);
  }

  /** statlist. */
  method StatList(fs: FuncState, dyd: Dyndata, P: Prims, b: Block, ghost gt: Gotos) returns (r: Result<()>)
    requires fs.Valid() && Between(fs.abs) && BlockInScope(b, fs.nactvar) && ListOk(fs.abs, Flat(gt), 0)
    requires Heads(fs.code, dyd.gt, gt)
    modifies fs, dyd
    ensures r.Err? ==> CompileBlock(P, old(fs.abs), b, gt).0.err
    ensures r.Ok? ==> var (s', gt') := CompileBlock(P, old(fs.abs), b, gt); Made(fs, dyd, s', gt')
    ensures r.Ok? ==> Links(old(fs.abs), old(fs.code), fs.code, [])
    decreases b, 0
  {
    hide Represents, Chain, Links, Between, Pending, CompileStmt, Evolves, Heads, ListOk, Flat, EscapesFrom;
    ghost var s, c := fs.abs, fs.code;
    ghost var gs := gt;
    var rest := b;
    LinksSame(s, c);
    SettlesSame(s);
    ExtendsSame(s, s, Flat(gt));
    while rest.Then?
      invariant Made(fs, dyd, fs.abs, gs) && BlockInScope(rest, fs.nactvar)
      invariant CompileBlock(P, s, b, gt) == CompileBlock(P, fs.abs, rest, gs)
      invariant Extends(s, fs.abs, Flat(gt), Flat(gs)) && Links(s, c, fs.code, []) && (rest == b || rest < b)
      decreases rest
    {
      ghost var s1, c1, gs1 := fs.abs, fs.code, CompileStmt(P, fs.abs, rest.st, gs).1;
      var _ :- Statement(fs, dyd, P, rest.st, gs);
      StmtOk(P, s1, rest.st, gs);
      ExtendsBoth(s, s1, fs.abs, Flat(gt), Flat(gs), Flat(gs1));
      LinksSettled(s, c, s1, c1, fs.code);
      gs := gs1;
      rest := rest.rest;
    }
    if rest.Ret? {
      ghost var s1, c1 := fs.abs, fs.code;
      var n := fs.nactvar;
      var _ :- ReturnStat(fs, P, rest.values);
      HeadsKept(s1, c1, fs.code, [], dyd.gt, gs);
      LinksSettled(s, c, s1, c1, fs.code);
      LeaveBlock(fs, n);
    }
    return Ok(());
  }

  /** The end of parlist: `n` parameters in the first registers. */
  method Parameters(fs: FuncState, n: nat) returns (r: Result<()>)
    requires fs.Valid() && fs.abs == Opened()
    modifies fs
    ensures r.Err? ==> Start(n).err
    ensures r.Ok? ==> fs.Valid() && fs.abs == Start(n) && !Start(n).err
  {
    if n > MAXVARS { return Err(TooMany); }
    fs.nactvar := fs.nactvar + n;
    fs.abs := fs.abs.(nactvar := fs.nactvar);
    r := fs.ReserveRegs(fs.nactvar);
  }

  /** A function body, with its parameters, and the final return of close_func. A break that is
      still pending at its end is outside of any loop. */
  method FunctionBody(fs: FuncState, dyd: Dyndata, P: Prims, n: nat, b: Block) returns (r: Result<()>)
    requires fs.Valid() && fs.abs == Opened() && BlockInScope(b, n) && dyd.gt == []
    modifies fs, dyd
    ensures r.Err? ==> CompileBody(P, Start(n), b).err
    ensures r.Ok? ==> fs.Valid() && fs.abs == CompileBody(P, Start(n), b)
  {
    hide Represents, Chain, Links, CodeOk, PoolOk, FormOk, Pending, Wf, CompileBlock, Emit, Evolves, Flat;
    var _ :- Parameters(fs, n);
    StartOk(n);
    FlatNothing();
    NoList(Start(n));
    var _ :- StatList(fs, dyd, P, b, []);
    HeadsLength(fs.code, dyd.gt, CompileBlock(P, Start(n), b, []).1);
    var _ :- fs.Code(Return(0, 1));
    if dyd.gt != [] { return Err(NoLoop); }
    return Ok(());
  }

  /** Compiles a function with `n` parameters. When no error is raised, the code in the array, run
      on any arguments in any large enough frame, returns exactly what the body returns: it ends
      when the body does, and only then. */
  method CompileFunction(P: Prims, n: nat, b: Block) returns (fs: FuncState, r: Result<()>)
    requires BlockInScope(b, n) && P.FoldsFaithfully()
    ensures fresh(fs)
    ensures r.Err? ==> CompileBody(P, Start(n), b).err
    ensures r.Ok? ==> !CompileBody(P, Start(n), b).err && n <= fs.maxstack < 250
    ensures Moderate(b, n) ==> (r.Ok? <==> Permitted(b, n))
    ensures r.Ok? ==> Permitted(b, n)
    ensures r.Ok? ==> forall K: seq<Value>, rg: Regs, vs :: fs.k <= K && fs.maxstack <= |rg| ==>
      (CodeReturns(Env(P, K), fs.code, rg, vs) <==> BodyReturns(P, b, rg, n, vs))
    ensures r.Ok? ==> |fs.k| <= 67108863 && forall i :: 0 <= i < |fs.code| ==> Encodable(fs.code[i])
  {
    hide Represents, Chain, Pending, CodeOk, PoolOk, FormOk, CompileBlock, BodyReturns, CodeReturns, Emit, Wf;
    fs := new FuncState();
    var dyd := new Dyndata();
    r := FunctionBody(fs, dyd, P, n, b);
    CompileSucceeds(P, n, b);
    if r.Ok? {
      StartOk(n);
      BodyOk(P, Start(n), b);
      BodyFrame(P, n, b);
      FinishedFits(fs.abs, fs.code);
      forall K: seq<Value>, rg: Regs, vs | fs.k <= K && fs.maxstack <= |rg|
        ensures CodeReturns(Env(P, K), fs.code, rg, vs) <==> BodyReturns(P, b, rg, n, vs)
      {
        var c := Ctx(Env(P, K), rg, 0);
        FunctionRun(c, n, b);
        ReturnsRepresents(c, fs.code, n, b, vs);
      }
    }
  }

  /** The links in the code of a function do not matter to what it returns. */
  lemma ReturnsRepresents(c: Ctx, code: seq<Instr>, n: nat, b: Block, vs: seq<Value>)
    requires BlockInScope(b, n) && c.env.P.FoldsFaithfully() && c.start == 0
    requires !CompileBody(c.env.P, Start(n), b).err && Fits(c, CompileBody(c.env.P, Start(n), b))
    requires Represents(code, CompileBody(c.env.P, Start(n), b).code)
    ensures CodeReturns(c.env, code, c.regs, vs) <==>
      CodeReturns(c.env, CompileBody(c.env.P, Start(n), b).code, c.regs, vs)
  {
    hide CompileBody, BlockInScope, Represents, Whole, Fits;
    var a := CompileBody(c.env.P, Start(n), b).code;
    forall turns: nat ensures Whole(c.env, code, 0, c.regs, turns) == Whole(c.env, a, 0, c.regs, turns) {
      CodeEnds(c, n, b, turns);
      WholeRepresents(c.env, code, a, 0, c.regs, turns);
    }
  }

  lemma {:induction false} WholeRepresents(env: Env, c: seq<Instr>, a: seq<Instr>, pc: nat, rg: Regs, turns: nat)
    requires Represents(c, a) && !Whole(env, a, pc, rg, turns).Exit?
    ensures Whole(env, c, pc, rg, turns) == Whole(env, a, pc, rg, turns)
    decreases turns
  {
    hide Exec, Represents;
    ExecRepresents(env, c, a, pc, rg);
    match Exec(env, a, pc, rg)
    case Back(pc', rg') => if turns > 0 { WholeRepresents(env, c, a, pc', rg', turns - 1); }
    case _ =>
  }

  // ----- links while lists are compiled -----

  lemma LinksSettled(s: State, c: seq<Instr>, s1: State, c1: seq<Instr>, c2: seq<Instr>)
    requires Settles(s, s1) && Links(s, c, c1, []) && Links(s1, c1, c2, [])
    ensures Links(s, c, c2, [])
  {
    LinksBoth(s, c, s1, c1, c2, [], []);
  }

  /** Whatever the links, every instruction of the finished code fits its fields. */
  lemma FinishedFits(s: State, code: seq<Instr>)
    requires Wf(s) && Represents(code, s.code)
    ensures |s.pool.k| <= 67108863 && forall i :: 0 <= i < |code| ==> Encodable(code[i])
  {
    assert forall i :: 0 <= i < |code| ==> s.code[i] == Jmp(OPEN) || Encodable(s.code[i]);
  }

  lemma BodyFrame(P: Prims, n: nat, b: Block)
    requires Between(Start(n)) && BlockInScope(b, n) && !CompileBody(P, Start(n), b).err
    ensures n <= CompileBody(P, Start(n), b).maxstack < MAXSTACK
  {
    hide CompileBody;
    BodyOk(P, Start(n), b);
  }

  lemma LinksEvolved(s: State, c: seq<Instr>, s1: State, c1: seq<Instr>, c2: seq<Instr>)
    requires Evolves(s, s1, [], |s.code|) && Links(s, c, c1, []) && Links(s1, c1, c2, [])
    ensures Links(s, c, c2, [])
  {
    LinksBoth(s, c, s1, c1, c2, [], []);
  }

  /** Links after the last expression of a list has been used up. */
  lemma ListLinks(s: State, s0: State, s1: State, c: seq<Instr>, c1: seq<Instr>, c2: seq<Instr>, e1: Exp)
    requires Evolves(s, s0, [], |s.code|) && Compiled(s0, s1, e1) && |s.code| <= |s0.code|
    requires Links(s, c, c1, []) && Links(s1, c1, c2, Own(e1))
    ensures Links(s, c, c2, [])
  {
    CompiledParts(s0, s1, e1);
    KeepsBoth(s, s0, s1, [], []);
    LinksBoth(s, c, s1, c1, c2, [], Own(e1));
  }

  lemma ListEvolves(s: State, s0: State, s1: State, s2: State, e1: Exp)
    requires Evolves(s, s0, [], |s.code|) && Compiled(s0, s1, e1) && Ext(s0, s1) && |s.code| <= |s0.code|
    requires Evolves(s1, s2, Own(e1), |s0.code|)
    ensures Evolves(s, s2, [], |s.code|)
  {
    EvolvesBoth(s0, s1, s2, e1);
    EvolvesTwice(s, s0, s2);
  }

  /** Errors in the front of a list are errors of the list. */
  lemma {:induction false} ListErr(P: Prims, s: State, es: seq<Expr>, i: nat)
    requires 1 <= i <= |es|
    ensures LuaExprLists.ExpList(P, s, es[..i]).0.err ==> LuaExprLists.ExpList(P, s, es).0.err
    ensures i < |es| ==> (NextRegs(P, s, es[..i]).err ==> LuaExprLists.ExpList(P, s, es).0.err)
    decreases |es|
  {
    hide Compile, Exp2NextReg;
    if i < |es| {
      var front := es[..|es| - 1];
      assert front[..i] == es[..i];
      ListErr(P, s, front, i);
    } else { assert es[..i] == es; }
  }

  lemma FirstExpr(P: Prims, s: State, es: seq<Expr>)
    requires es != []
    ensures LuaExprLists.ExpList(P, s, es[..1]) == Compile(P, s, es[0])
    ensures Compile(P, s, es[0]).0.err ==> LuaExprLists.ExpList(P, s, es).0.err
  {
    OneExpr(P, s, es[..1]);
    ListErr(P, s, es, 1);
  }

  /** One turn of the loop in explist: the last expression so far is complete. */
  lemma NextExpr(P: Prims, s: State, es: seq<Expr>, i: nat)
    requires Wf(s) && AllInScope(es, s.nactvar) && 1 <= i < |es| && !LuaExprLists.ExpList(P, s, es[..i]).0.err
    ensures
      var s0 := NextRegs(P, s, es[..i - 1]);
      var (s1, e1) := LuaExprLists.ExpList(P, s, es[..i]);
      && Compiled(s0, s1, e1) && ExpOk(s1, e1, |s0.code|, s0.freereg) && Evolves(s, s0, [], |s.code|)
      && |s.code| <= |s0.code|
      && NextRegs(P, s, es[..i]) == Exp2NextReg(s1, e1).0
    ensures NextRegs(P, s, es[..i]).err ==> LuaExprLists.ExpList(P, s, es).0.err
  {
    hide Compile, Exp2NextReg, Evolves, Compiled;
    assert es[..i][..i - 1] == es[..i - 1];
    ExpListOk(P, s, es[..i]);
    var (s1, e1) := LuaExprLists.ExpList(P, s, es[..i]);
    CompiledParts(NextRegs(P, s, es[..i - 1]), s1, e1);
    UnfoldNextRegs(P, s, es[..i]);
    ListErr(P, s, es, i);
  }

  /** ... and the next one can be read. */
  lemma NextExprReady(P: Prims, s: State, es: seq<Expr>, i: nat)
    requires Wf(s) && AllInScope(es, s.nactvar) && 1 <= i < |es| && !NextRegs(P, s, es[..i]).err
    ensures
      var s2 := NextRegs(P, s, es[..i]);
      && Wf(s2) && s2.nactvar == s.nactvar && Evolves(s, s2, [], |s.code|)
      && LuaExprLists.ExpList(P, s, es[..i + 1]) == Compile(P, s2, es[i])
    ensures LuaExprLists.ExpList(P, s, es[..i + 1]).0.err ==> LuaExprLists.ExpList(P, s, es).0.err
  {
    hide Compile, Exp2NextReg, Evolves, NextRegs, Wf;
    assert es[..i + 1][..i] == es[..i];
    NextRegsOk(P, s, es[..i]);
    ListErr(P, s, es, i + 1);
  }

  /** The jump that ends an arm is on neither list. */
  lemma ArmJump(s: State, c: seq<Instr>, c1: seq<Instr>, fs: seq<nat>, esc: seq<nat>, jf: int, list: int)
    requires Wf(s) && ListOk(s, fs, 0) && ListOk(s, esc, 0) && Disjoint(fs, esc) && !Jump(s).0.err
    requires Represents(c, s.code) && Links(s, c, c1, []) && Chain(c, jf, fs) && Chain(c, list, esc)
    ensures var (s1, js) := Jump(s); BranchLists(s1, esc, js, fs, 0) && Keeps(s, s1, [])
    ensures Chain(c1, jf, fs) && Chain(c1, list, esc)
  {
    hide CodeOk, PoolOk, FormOk, Chain, Represents, Links;
    JumpOk(s);
    var (s1, js) := Jump(s);
    KeepsList(s, s1, [], fs, 0);
    KeepsList(s, s1, [], esc, 0);
    ChainKept(s, c, c1, [], jf, fs);
    ChainKept(s, c, c1, [], list, esc);
    assert forall j :: j in js <==> j == |s.code| || j in s.jpc;
  }

  lemma ArmLinks(s: State, s1: State, c: seq<Instr>, c1: seq<Instr>, c': seq<Instr>, esc: seq<nat>, fs: seq<nat>)
    requires Keeps(s, s1, []) && Links(s, c, c1, []) && Links(s1, c1, c', esc + fs)
    ensures Links(s, c, c', esc + fs)
  {
    forall j: nat | Foreign(s, esc + fs, j) ensures Foreign(s, [], j) && Foreign(s1, esc + fs, j) {
      assert Foreign(s, [], j);
    }
  }

  lemma EscapeKept(s: State, c: seq<Instr>, c': seq<Instr>, fs: seq<nat>, esc: seq<nat>, list: int)
    requires Represents(c, s.code) && Links(s, c, c', fs) && ListOk(s, esc, 0) && Disjoint(fs, esc)
    requires Chain(c, list, esc)
    ensures Chain(c', list, esc) && Links(s, c, c', esc + fs)
  {
    ChainKept(s, c, c', fs, list, esc);
    forall j: nat | Foreign(s, esc + fs, j) ensures Foreign(s, fs, j) {}
  }

  /** The false jumps and the escapes are still threaded after the block of an arm. */
  lemma ArmChains(s: State, c: seq<Instr>, s1: State, c1: seq<Instr>, cb: seq<Instr>, fs: seq<nat>, esc: seq<nat>,
      jf: int, list: int)
    requires Represents(c, s.code) && Represents(c1, s1.code) && Links(s, c, c1, []) && Links(s1, c1, cb, [])
    requires Settles(s, s1) && ListOk(s1, fs, 0) && ListOk(s, esc, 0) && Chain(c1, jf, fs) && Chain(c, list, esc)
    ensures Chain(cb, jf, fs) && Chain(cb, list, esc) && Links(s, c, cb, [])
  {
    hide Between, Chain, Represents, Links, ListOk;
    ExtendsSame(s, s1, esc);
    ChainKept(s, c, c1, [], list, esc);
    ChainKept(s1, c1, cb, [], list, esc);
    ChainKept(s1, c1, cb, [], jf, fs);
    LinksSettled(s, c, s1, c1, cb);
  }

  /** An arm owns nothing but the escapes it was given. */
  lemma ArmOwn(s: State, c: seq<Instr>, s3: State, cb: seq<Instr>, c': seq<Instr>, esc: seq<nat>, fs: seq<nat>)
    requires Settles(s, s3) && EscapesFrom(s, [], fs) && Links(s, c, cb, []) && Links(s3, cb, c', esc + fs)
    ensures Links(s, c, c', esc)
  {
    forall j: nat | Foreign(s, esc, j) ensures Foreign(s, [], j) && Foreign(s3, esc + fs, j) {
      assert Foreign(s, [], j);
    }
  }

  lemma MoreArms(s: State, c: seq<Instr>, s1: State, c1: seq<Instr>, s2: State, c2: seq<Instr>, esc: seq<nat>,
      esc2: seq<nat>, gt: Gotos, gs: Gotos, gs2: Gotos)
    requires ExtendsTwo(s, s1, [], esc, Flat(gt), Flat(gs)) && ExtendsTwo(s1, s2, esc, esc2, Flat(gs), Flat(gs2))
    requires Links(s, c, c1, []) && Links(s1, c1, c2, esc)
    ensures ExtendsTwo(s, s2, [], esc2, Flat(gt), Flat(gs2)) && Links(s, c, c2, [])
  {
    hide Between, ListOk, Links, Flat;
    ExtendsBoth(s, s1, s2, [], esc, esc2);
    ExtendsBoth(s, s1, s2, Flat(gt), Flat(gs), Flat(gs2));
    LinksBoth(s, c, s1, c1, c2, [], esc);
  }

  lemma ElseArm(P: Prims, s: State, c: seq<Instr>, s1: State, c1: seq<Instr>, c2: seq<Instr>, b: Block, esc: seq<nat>,
      list: int, gt: Gotos, gs: Gotos)
    requires ExtendsTwo(s, s1, [], esc, Flat(gt), Flat(gs)) && Links(s, c, c1, []) && Links(s1, c1, c2, [])
    requires BlockInScope(b, s1.nactvar) && !CompileBlock(P, s1, b, gs).0.err && Represents(c1, s1.code)
    requires Chain(c1, list, esc)
    ensures
      var (sb, gs2) := CompileBlock(P, s1, b, gs);
      var s2 := LuaStatements.LeaveBlock(sb, s1.nactvar);
      ExtendsTwo(s, s2, [], esc, Flat(gt), Flat(gs2)) && Links(s, c, c2, []) && Chain(c2, list, esc)
  {
    hide Between, Evolves, Links, CompileBlock, Represents, Chain, ListOk, Flat, Disjoint, EscapesFrom;
    var (sb, gs2) := CompileBlock(P, s1, b, gs);
    var s2 := LuaStatements.LeaveBlock(sb, s1.nactvar);
    BlockOk(P, s1, b, gs);
    ApartAgain(s, s1, [], esc, Flat(gt), Flat(gs));
    ExtendsBeside(s1, sb, esc, Flat(gs), Flat(gs2));
    ExtendsLeft(s1, sb, s1.nactvar, esc, esc);
    ExtendsLeft(s1, sb, s1.nactvar, Flat(gs), Flat(gs2));
    ExtendsBoth(s, s1, s2, [], esc, esc);
    ExtendsBoth(s, s1, s2, Flat(gt), Flat(gs), Flat(gs2));
    LinksSettled(s, c, s1, c1, c2);
    NothingDisjoint(esc);
    ChainKept(s1, c1, c2, [], list, esc);
  }

  lemma EscapeHeads(s: State, s2: State, c2: seq<Instr>, c': seq<Instr>, esc: seq<nat>, heads: seq<int>, gt: Gotos,
      gs: Gotos)
    requires ExtendsTwo(s, s2, [], esc, Flat(gt), Flat(gs)) && Represents(c2, s2.code) && Links(s2, c2, c', esc)
    requires Heads(c2, heads, gs)
    ensures Heads(c', heads, gs)
  {
    hide Between, Represents, Links, Heads, ListOk, Flat;
    HeadsKept(s2, c2, c', esc, heads, gs);
  }

  lemma EscapeLinks(s: State, c: seq<Instr>, s2: State, c2: seq<Instr>, c': seq<Instr>, esc: seq<nat>)
    requires Settles(s, s2) && EscapesFrom(s, [], esc) && Links(s, c, c2, []) && Links(s2, c2, c', esc)
    ensures Links(s, c, c', [])
  {
    LinksBoth(s, c, s2, c2, c', [], esc);
  }

  /** Links on jumps that are never taken do not matter to a run. */
  lemma {:induction false} ExecRepresents(env: Env, c: seq<Instr>, a: seq<Instr>, q: nat, rg: Regs)
    requires Represents(c, a) && !Exec(env, a, q, rg).Exit?
    ensures Exec(env, c, q, rg) == Exec(env, a, q, rg)
    decreases |a| - q
  {
    if q < |a| {
      SameStep(env, c, a, q, rg);
      match StepAt(env, a, q, rg)
      case Next(q', rg') => if q < q' && |rg'| == |rg| { ExecRepresents(env, c, a, q', rg'); }
      case _ =>
    }
  }

  /** The operands of a binary operator when the right one has been compiled. */
  lemma BinaryRight(s: State, s2: State, s3: State, op: BinOp, e2: Exp, e3: Exp, c2: seq<Instr>, c3: seq<Instr>,
      t: int, f: int)
    requires LeftOk(s2, op, e2, |s.code|, s.freereg) && Ext(s2, s3) && Compiled(s2, s3, e3)
    requires Represents(c2, s2.code) && Links(s2, c2, c3, []) && Chain(c2, t, e2.t) && Chain(c2, f, e2.f)
    ensures RightOk(s3, op, e2, e3, |s.code|, |s2.code|, s.freereg)
    ensures Chain(c3, t, e2.t) && Chain(c3, f, e2.f)
  {
    LeftKept(s2, s3, op, e2, |s.code|, s.freereg);
    match op
    case OpAnd => ChainKept(s2, c2, c3, [], f, e2.f);
    case OpOr => ChainKept(s2, c2, c3, [], t, e2.t);
    case _ =>
  }

  lemma BinaryLinks(s: State, s2: State, s3: State, c: seq<Instr>, c2: seq<Instr>, c3: seq<Instr>, c4: seq<Instr>,
      e3: Exp)
    requires Keeps(s, s2, []) && |s.code| <= |s2.code| && Compiled(s2, s3, e3)
    requires Links(s, c, c2, []) && Links(s2, c2, c3, []) && Links(s3, c3, c4, Own(e3))
    ensures Links(s, c, c4, [])
  {
    CompiledParts(s2, s3, e3);
    LinksBoth(s, c, s2, c2, c3, [], []);
    KeepsBoth(s, s2, s3, [], []);
    LinksBoth(s, c, s3, c3, c4, [], Own(e3));
  }

  lemma LeftParts(s2: State, op: BinOp, e2: Exp, base: nat, r0: nat)
    requires LeftOk(s2, op, e2, base, r0)
    ensures Wf(s2) && OperandKept(op, e2)
  {}
}
