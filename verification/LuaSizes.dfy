/** How many instructions and constants expressions and statements add, at most. */
module LuaSizes {
  import opened LuaValues
  import opened LuaOpcodes
  import opened LuaPatch
  import opened LuaConstants
  import opened LuaCode
  import opened LuaShape
  import opened LuaShapeOps
  import opened LuaCompiler
  import opened LuaExprLists
  import opened LuaAssignment
  import opened LuaStatements

  /** From `s` to `s'` at most `m` instructions and `k` constants have been added. */
  predicate Adds(s: State, s': State, m: nat, k: nat) {
    |s'.code| <= |s.code| + m && |s'.pool.k| <= |s.pool.k| + k
  }

  // ----- operations -----

  lemma EmitSize(s: State, i: Instr)
    ensures Adds(s, Emit(s, i), 1, 0)
  {}

  lemma JumpSize(s: State)
    ensures Adds(s, Jump(s).0, 1, 0)
  {}

  lemma PatchToHereSize(s: State, nodes: seq<nat>)
    ensures Adds(s, PatchToHere(s, nodes), 0, 0)
  {}

  lemma CondJumpSize(s: State, i: Instr)
    ensures Adds(s, CondJump(s, i).0, 2, 0)
  {}

  lemma LoadNilsSize(s: State, from: nat, n: nat)
    requires n > 0
    ensures Adds(s, LoadNils(s, from, n), 1, 0)
  {
    hide Emit;
    EmitSize(s, LoadNil(from, n - 1));
  }

  lemma LoadConstSize(s: State, reg: nat, k: nat)
    ensures Adds(s, LoadConst(s, reg, k), if k <= 262143 then 1 else 2, 0)
  {
    hide Emit;
    EmitSize(s, LoadK(reg, k));
    EmitSize(s, LoadKX(reg));
    EmitSize(Emit(s, LoadKX(reg)), ExtraArg(k));
  }

  lemma AddConstSize(s: State, v: Value)
    requires IsConstant(v)
    ensures Adds(s, AddConst(s, v).0, 0, 1)
  {}

  lemma Discharge2RegSize(s: State, e: Exp, reg: nat)
    requires KindOk(s.code, e.k)
    ensures Adds(s, Discharge2Reg(s, e, reg).0, 2, if e.k.VKNum? then 1 else 0)
  {
    hide Discharge, Emit, LoadNils, LoadConst, AddConst;
    match DischargeVars(e).k
    case VNil => LoadNilsSize(s, reg, 1);
    case VFalse => EmitSize(s, LoadBool(reg, false, false));
    case VTrue => EmitSize(s, LoadBool(reg, true, false));
    case VK(i) => LoadConstSize(s, reg, i);
    case VKNum(n) =>
      AddConstSize(s, Num(n));
      LoadConstSize(AddConst(s, Num(n)).0, reg, AddConst(s, Num(n)).1);
    case VNonReloc(i) => EmitSize(s, Move(reg, i));
    case _ =>
  }

  lemma LoadLabelsSize(s: State, isJump: bool, reg: nat)
    ensures Adds(s, LoadLabels(s, isJump, reg).0, 3, 0)
  {
    hide Emit, Jump;
    JumpSize(s);
    var s1 := BeforeLabels(s, isJump);
    EmitSize(GetLabel(s1), LoadBool(reg, false, true));
    EmitSize(GetLabel(CodeLabel(s1, reg, false, true)), LoadBool(reg, true, false));
  }

  lemma CloseListsSize(s: State, e: Exp, isJump: bool, reg: nat)
    ensures Adds(s, CloseLists(s, e, isJump, reg), 3, 0)
  {
    hide LoadLabels;
    LoadLabelsSize(s, isJump, reg);
  }

  lemma Exp2RegSize(s: State, e: Exp, reg: nat)
    requires KindOk(s.code, e.k)
    ensures Adds(s, Exp2Reg(s, e, reg).0, if HasJumps(e) || e.k.VJmp? then 5 else 2, if e.k.VKNum? then 1 else 0)
  {
    hide Discharge2Reg, CloseLists;
    var (s1, e1) := Discharge2Reg(s, e, reg);
    Discharge2RegSize(s, e, reg);
    if e1.k.VJmp? { CloseListsSize(Link(s1, e1.t, [e1.k.info]), e1.(t := e1.t + [e1.k.info]), true, reg); }
    else { CloseListsSize(s1, e1, false, reg); }
  }

  lemma Exp2NextRegSize(s: State, e: Exp)
    requires KindOk(s.code, e.k)
    ensures Adds(s, Exp2NextReg(s, e).0, if HasJumps(e) || e.k.VJmp? then 5 else 2, if e.k.VKNum? then 1 else 0)
  {
    hide Exp2Reg;
    var e1 := DischargeVars(e);
    var s1 := ReserveRegs(FreeExp(s, e1), 1);
    Exp2RegSize(s1, e1, s1.freereg - 1);
  }

  lemma Exp2AnyRegSize(s: State, e: Exp)
    requires KindOk(s.code, e.k)
    ensures Adds(s, Exp2AnyReg(s, e).0, if HasJumps(e) || e.k.VJmp? then 5 else 2, if e.k.VKNum? then 1 else 0)
  {
    hide Exp2Reg, Exp2NextReg;
    var e1 := DischargeVars(e);
    if e1.k.VNonReloc? { Exp2RegSize(s, e1, e1.k.info); }
    Exp2NextRegSize(s, e1);
  }

  lemma ValueRKSize(s: State, e: Exp)
    requires KindOk(s.code, e.k) && !HasJumps(e)
    ensures Adds(s, ValueRK(s, e).0, if e.k.VJmp? then 5 else 2, 1)
    ensures e.k.VNonReloc? ==> ValueRK(s, e).0 == s
  {
    hide Exp2NextReg, AddConst;
    var (s1, e1) := AsConstant(s, e);
    if e1.k != e.k { AddConstSize(s, ConstOf(e.k)); }
    Exp2AnyRegSize(s1, e1);
  }

  lemma Exp2RKSize(s: State, e: Exp)
    requires KindOk(s.code, e.k)
    ensures Adds(s, Exp2RK(s, e).0, if HasJumps(e) || e.k.VJmp? then 5 else 2, 1)
  {
    hide Exp2AnyReg, ValueRK;
    if HasJumps(e) { Exp2AnyRegSize(s, e); }
    ValueRKSize(Exp2Val(s, e).0, Exp2Val(s, e).1);
  }

  lemma Discharge2AnyRegSize(s: State, e: Exp)
    requires KindOk(s.code, e.k)
    ensures Adds(s, Discharge2AnyReg(s, e).0, 2, 1)
  {
    hide Discharge2Reg;
    Discharge2RegSize(ReserveRegs(s, 1), e, s.freereg);
  }

  lemma JumpOnCondSize(s: State, e: Exp, cond: bool)
    requires KindOk(s.code, e.k) && !e.k.VJmp? && !e.k.VLocal?
    ensures Adds(s, JumpOnCond(s, e, cond).0, 4, 1)
  {
    hide Discharge2Reg, CondJump;
    if e.k.VReloc? && s.code[e.k.info].Not? {
      CondJumpSize(s.(code := s.code[..|s.code| - 1]), Test(s.code[e.k.info].b, !cond));
    } else {
      var (s1, e1) := Discharge2AnyReg(s, e);
      Discharge2AnyRegSize(s, e);
      CondJumpSize(FreeExp(s1, e1), TestSet(NO_REG, e1.k.info, cond));
    }
  }

  lemma GoIfTrueSize(s: State, e: Exp)
    requires KindOk(s.code, e.k)
    ensures Adds(s, GoIfTrue(s, e).0, 4, 1)
  {
    hide JumpOnCond;
    var e0 := DischargeVars(e);
    if !e0.k.VJmp? && !AlwaysTrue(e0.k) { JumpOnCondSize(s, e0, false); }
  }

  lemma GoIfFalseSize(s: State, e: Exp)
    requires KindOk(s.code, e.k)
    ensures Adds(s, GoIfFalse(s, e).0, 4, 1)
  {
    hide JumpOnCond;
    var e0 := DischargeVars(e);
    if !e0.k.VJmp? && !AlwaysFalse(e0.k) { JumpOnCondSize(s, e0, true); }
  }

  lemma CodeNotSize(s: State, e: Exp)
    requires KindOk(s.code, e.k)
    ensures Adds(s, CodeNot(s, e).0, 3, 1)
  {
    hide Discharge2Reg, Emit;
    var e0 := DischargeVars(e);
    if e0.k.VReloc? || e0.k.VNonReloc? {
      var (s1, e1) := Discharge2AnyReg(s, e0);
      Discharge2AnyRegSize(s, e0);
      EmitSize(FreeExp(s1, e1), Not(0, e1.k.info));
    }
  }

  // ----- operators -----

  lemma CodeArithSize(P: Prims, s: State, op: ArithOp, e1: Exp, e2: Exp)
    requires KindOk(s.code, e2.k) && (IsOperand(e1) || IsNumeral(e1))
    ensures Adds(s, CodeArith(P, s, op, e1, e2).0, 8, 2)
  {
    hide Exp2RK, Emit;
    if !Folds(op, e1, e2) {
      var (s1, e2', o2) := Exp2RK(s, e2);
      var (s2, e1', o1) := Exp2RK(s1, e1);
      Exp2RKSize(s, e2);
      Exp2RKSize(s1, e1);
      EmitSize(FreeExps(s2, e1', o1, e2', o2), Arith(op, 0, o1, o2));
    }
  }

  lemma CodeUnarySize(s: State, len: bool, e: Exp)
    requires KindOk(s.code, e.k)
    ensures Adds(s, CodeUnary(s, len, e).0, 6, 1)
  {
    hide Exp2AnyReg, Emit;
    var (s1, e1) := Exp2AnyReg(s, e);
    Exp2AnyRegSize(s, e);
    OperandKeeps(s1, e1);
    EmitSize(FreeExp(s1, e1), if len then Len(0, e1.k.info) else Unm(0, e1.k.info));
  }

  lemma CodeCompSize(s: State, op: CmpOp, cond: bool, e1: Exp, e2: Exp)
    requires KindOk(s.code, e2.k) && IsOperand(e1)
    ensures Adds(s, CodeComp(s, op, cond, e1, e2).0, 8, 2)
  {
    hide Exp2RK, CondJump;
    var (s1, e1', o1) := Exp2RK(s, e1);
    OperandKeeps(s, e1);
    var (s2, e2', o2) := Exp2RK(s1, e2);
    Exp2RKSize(s1, e2);
    CondJumpSize(FreeExp(FreeExp(s2, e2'), e1'), CompInstr(op, cond, o1, o2));
  }

  lemma CodeConcatSize(s: State, e1: Exp, e2: Exp)
    requires KindOk(s.code, e2.k) && IsOperand(e1) && e1.k.VNonReloc?
    ensures Adds(s, CodeConcat(s, e1, e2).0, 8, 2)
  {
    hide Exp2AnyReg, Exp2NextReg, Emit;
    var (s1, e2') := Exp2Val(s, e2);
    if HasJumps(e2) { Exp2AnyRegSize(s, e2); }
    if !(e2'.k.VReloc? && s1.code[e2'.k.info].Concat?) {
      var (s2, e3) := Exp2NextReg(s1, e2');
      Exp2NextRegSize(s1, e2');
      EmitSize(FreeExps(s2, e1, e1.k.info, e3, e3.k.info), Concat(0, e1.k.info, e3.k.info));
    }
  }

  lemma PrefixSize(P: Prims, s: State, op: UnOp, e: Exp)
    requires KindOk(s.code, e.k)
    ensures Adds(s, Prefix(P, s, op, e).0, 6, 1)
  {
    hide CodeUnary, CodeNot;
    match op
    case OpNeg => if !IsNumeral(e) { CodeUnarySize(s, false, e); }
    case OpNot => CodeNotSize(s, e);
    case OpLen => CodeUnarySize(s, true, e);
  }

  lemma InfixSize(s: State, op: BinOp, e: Exp)
    requires KindOk(s.code, e.k)
    ensures Adds(s, Infix(s, op, e).0, 5, 1)
  {
    hide GoIfTrue, GoIfFalse, Exp2RK, Exp2NextReg;
    match op
    case OpAnd => GoIfTrueSize(s, e);
    case OpOr => GoIfFalseSize(s, e);
    case OpArith(_) => Exp2RKSize(s, e);
    case OpCmp(_, _) => Exp2RKSize(s, e);
    case OpConcat => Exp2NextRegSize(s, e);
  }

  lemma PosfixSize(P: Prims, s: State, op: BinOp, e1: Exp, e2: Exp)
    requires KindOk(s.code, e2.k) && OperandKept(op, e1)
    ensures Adds(s, Posfix(P, s, op, e1, e2).0, 8, 2)
  {
    hide CodeArith, CodeComp, CodeConcat;
    match op
    case OpArith(a) => CodeArithSize(P, s, a, e1, e2);
    case OpCmp(c, cond) => CodeCompSize(s, c, cond, e1, e2);
    case OpConcat => CodeConcatSize(s, e1, e2);
    case _ =>
  }

  // ----- expressions -----

  /** An expression needs at most this many instructions, not counting those that put its value into
      a register. */
  function CodeSize(ex: Expr): nat {
    match ex
    case EUn(_, arg) => CodeSize(arg) + 6
    case EBin(_, l, r) => CodeSize(l) + CodeSize(r) + 13
    case _ => 0
  }

  function ConstSize(ex: Expr): nat {
    match ex
    case EStr(_) => 1
    case EUn(_, arg) => ConstSize(arg) + 1
    case EBin(_, l, r) => ConstSize(l) + ConstSize(r) + 3
    case _ => 0
  }

  lemma {:induction false} CompileSize(P: Prims, s: State, ex: Expr)
    ensures Adds(s, Compile(P, s, ex).0, CodeSize(ex), ConstSize(ex))
    decreases ex
  {
    hide Infix, Posfix, Prefix, AddConst, OperandKept;
    match ex
    case EStr(str) => AddConstSize(s, Str(str));
    case EUn(op, arg) =>
      CompileSize(P, s, arg);
      PrefixSize(P, Compile(P, s, arg).0, op, Compile(P, s, arg).1);
    case EBin(op, l, r) =>
      var (s1, e1) := Compile(P, s, l);
      var (s2, e2) := Infix(s1, op, e1);
      var (s3, e3) := Compile(P, s2, r);
      CompileSize(P, s, l);
      InfixSize(s1, op, e1);
      CompileSize(P, s2, r);
      PosfixSize(P, s3, op, e2, e3);
    case _ =>
  }

  // ----- instructions saved -----

  /** A LOADNIL is widened instead of emitted exactly if the ranges meet and no jump leads behind it. */
  lemma NilsMerge(s: State, from: nat, n: nat)
    requires n > 0
    ensures |LoadNils(s, from, n).code| == |s.code| <==>
      && s.lasttarget < |s.code| && s.code[|s.code| - 1].LoadNil?
      && var i := s.code[|s.code| - 1]; from <= i.a + i.b + 1 && i.a <= from + n
  {
    hide Emit;
  }

  /** Arithmetic on two numerals is done by the compiler, unless it divides by one of the zeros. */
  lemma FoldsIff(P: Prims, s: State, op: ArithOp, x: Number, y: Number)
    ensures
      var (s', e') := CodeArith(P, s, op, Exp(VKNum(x), [], []), Exp(VKNum(y), [], []));
      if (op.Div? || op.Mod?) && (y == 0 || y == 0x8000_0000_0000_0000) then e'.k.VReloc? && |s'.code| > |s.code|
      else s' == s && e'.k == VKNum(P.fold(op, x, y))
  {
    hide Emit, Exp2RK, FreeExps;
  }

  /** A jump on a value just negated takes the NOT back and tests the value itself. */
  lemma NotTakenBack(s: State, cond: bool)
    requires s.code != [] && s.code[|s.code| - 1].Not? && s.jpc == []
    ensures
      var i := |s.code| - 1;
      var (s', e', js) := JumpOnCond(s, Exp(VReloc(i), [], []), cond);
      s'.code == s.code[..i] + [Test(s.code[i].b, !cond), Jmp(OPEN)] && js == [i + 1]
  {
    var i := |s.code| - 1;
    var s0 := s.(code := s.code[..i]);
    EmitWithoutJumps(s0, Test(s.code[i].b, !cond));
    assert s.code[..i] + [Test(s.code[i].b, !cond)] + [Jmp(OPEN)] ==
      s.code[..i] + [Test(s.code[i].b, !cond), Jmp(OPEN)];
  }

  /** A constant as a condition needs no jump: its outcome is known. */
  lemma KnownCondition(s: State, k: Kind)
    requires KindOk(s.code, k)
    ensures
      var (s', e') := GoIfTrue(s, Exp(k, [], []));
      k.VK? || k.VKNum? || k.VTrue? ==> s'.code == s.code && e'.f == []
    ensures
      var (s', e') := GoIfFalse(s, Exp(k, [], []));
      k.VNil? || k.VFalse? ==> s'.code == s.code && e'.t == []
  {}

  /** The negation of a constant is a constant. */
  lemma NotFolded(s: State, k: Kind)
    requires k.VNil? || k.VFalse? || k.VTrue? || k.VK? || k.VKNum?
    ensures CodeNot(s, Exp(k, [], [])) == (s, Exp(if k.VNil? || k.VFalse? then VTrue else VFalse, [], []))
  {
    assert RemoveValues(s.code, []) == s.code;
  }

  /** A patched TESTSET stores its value unless there is no register to fill, or the value is there. */
  lemma StoresElsewhere(a: nat, b: nat, when: bool, reg: nat)
    ensures PatchTest(TestSet(a, b, when), reg) ==
      if reg == 255 || reg == b then Test(b, when) else TestSet(reg, b, when)
  {}

  /** A value that is where it has to be is not moved, and a local is used where it is. */
  lemma NothingMoved(s: State, r: nat)
    ensures Discharge2Reg(s, Exp(VNonReloc(r), [], []), r).0 == s
    ensures Exp2AnyReg(s, Exp(VLocal(r), [], [])) == (s, Exp(VNonReloc(r), [], []))
  {}

  /** nil and the booleans are constant operands as long as the constant table has at most 255 entries. */
  lemma LiteralOperand(s: State, k: Kind)
    requires k.VNil? || k.VTrue? || k.VFalse?
    ensures
      var (s', e', rk) := ValueRK(s, Exp(k, [], []));
      if |s.pool.k| <= 255 then s'.code == s.code && rk >= 256 else e'.k == VNonReloc(rk) && s'.pool == s.pool
  {}

  /** A concatenation that waits for its register takes the operand in front of it. */
  lemma ConcatMerges(s: State, r: nat, i: nat)
    requires i + 1 == |s.code| && s.code[i].Concat?
    ensures
      var (s', e') := CodeConcat(s, Exp(VNonReloc(r), [], []), Exp(VReloc(i), [], []));
      s'.code == s.code[i := Instr.Concat(s.code[i].a, r, s.code[i].c)] && e' == Exp(VReloc(i), [], [])
  {}

  // ----- lists of expressions -----

  /** Every value of a list is put into a register. */
  function ListSize(es: seq<Expr>): nat {
    if es == [] then 0 else ListSize(es[..|es| - 1]) + CodeSize(es[|es| - 1]) + 5
  }

  function ListConsts(es: seq<Expr>): nat {
    if es == [] then 0 else ListConsts(es[..|es| - 1]) + ConstSize(es[|es| - 1]) + 1
  }

  lemma {:induction false} NextRegsSize(P: Prims, s: State, es: seq<Expr>)
    ensures Adds(s, NextRegs(P, s, es), ListSize(es), ListConsts(es))
    decreases |es|, 1
  {
    hide Compile, Exp2NextReg;
    if es != [] {
      ExpListSize(P, s, es);
      Exp2NextRegSize(ExpList(P, s, es).0, ExpList(P, s, es).1);
    }
  }

  /** The last value is still where its descriptor says. */
  lemma {:induction false} ExpListSize(P: Prims, s: State, es: seq<Expr>)
    requires es != []
    ensures Adds(s, ExpList(P, s, es).0, ListSize(es) - 5, ListConsts(es) - 1)
    decreases |es|, 0
  {
    hide Compile, NextRegs;
    NextRegsSize(P, s, es[..|es| - 1]);
    CompileSize(P, NextRegs(P, s, es[..|es| - 1]), es[|es| - 1]);
  }

  lemma AdjustAssignSize(s: State, nvars: nat, nexps: nat)
    ensures Adds(s, AdjustAssign(s, nvars, nexps), 1, 0)
  {
    hide LoadNils;
    if nvars > nexps { LoadNilsSize(ReserveRegs(s, nvars - nexps), s.freereg, nvars - nexps); }
  }

  lemma ReturnValuesSize(P: Prims, s: State, es: seq<Expr>)
    ensures Adds(s, ReturnValues(P, s, es), ListSize(es) + 1, ListConsts(es))
  {
    hide ExpList, Exp2AnyReg, Exp2NextReg, Emit;
    if es == [] { EmitSize(s, Return(0, 1)); }
    else {
      var (s1, e1) := ExpList(P, s, es);
      ExpListSize(P, s, es);
      Exp2AnyRegSize(s1, e1);
      Exp2NextRegSize(s1, e1);
      EmitSize(Exp2AnyReg(s1, e1).0, Return(Exp2AnyReg(s1, e1).1.k.info, 2));
      var s2 := Exp2NextReg(s1, e1).0;
      EmitSize(s2, Return(s2.nactvar, |es| + 1));
    }
  }

  lemma StoreLocalSize(s: State, r: nat, e: Exp)
    requires KindOk(s.code, e.k)
    ensures Adds(s, StoreLocal(s, r, e), 5, 1)
    ensures e == TopValue(s) ==> Adds(s, StoreLocal(s, r, e), 1, 0)
  {
    hide Exp2Reg;
    Exp2RegSize(FreeExp(s, e), e, r);
    if e == TopValue(s) { MoveSize(FreeExp(s, e), e.k.info, r); }
  }

  lemma MoveSize(s: State, from: nat, reg: nat)
    ensures Adds(s, Exp2Reg(s, Exp(VNonReloc(from), [], []), reg).0, 1, 0)
  {
    hide Emit;
    EmitSize(s, Move(reg, from));
  }

  lemma {:induction false} StoreAllSize(s: State, rs: seq<nat>)
    ensures Adds(s, StoreAll(s, rs), |rs|, 0)
    decreases |rs|
  {
    hide StoreLocal;
    if rs != [] {
      StoreLocalSize(s, rs[|rs| - 1], TopValue(s));
      StoreAllSize(StoreLocal(s, rs[|rs| - 1], TopValue(s)), rs[..|rs| - 1]);
    }
  }

  lemma AssignAllSize(P: Prims, s: State, rs: seq<nat>, es: seq<Expr>)
    ensures Adds(s, AssignAll(P, s, rs, es), ListSize(es) + |rs| + 1, ListConsts(es))
  {
    hide ExpList, NextRegs, AdjustAssign, StoreLocal, StoreAll;
    if |es| == |rs| && rs != [] {
      var (s1, e1) := ExpList(P, s, es);
      ExpListSize(P, s, es);
      StoreLocalSize(s1, rs[|rs| - 1], e1);
      StoreAllSize(StoreLocal(s1, rs[|rs| - 1], e1), rs[..|rs| - 1]);
    } else {
      var s1 := NextRegs(P, s, es);
      NextRegsSize(P, s, es);
      AdjustAssignSize(s1, |rs|, |es|);
      StoreAllSize(DropExtra(AdjustAssign(s1, |rs|, |es|), |rs|, |es|), rs);
    }
  }

  // ----- statements -----

  /** A statement needs at most this many instructions. */
  function StmtSize(st: Stmt): nat {
    match st
    case Local(_, es) => ListSize(es) + 1
    case Assign(rs, es) => ListSize(es) + |rs| + 1
    case Do(b) => BlockSize(b)
    case If(br) => BranchSize(br)
    case While(cond, b) => CodeSize(cond) + BlockSize(b) + 5
    case Repeat(b, cond) => CodeSize(cond) + BlockSize(b) + 4
    case Break => 1
  }

  function BranchSize(br: Branch): nat { CodeSize(br.cond) + BlockSize(br.thenb) + TailSize(br.tail) + 6 }

  function TailSize(t: Tail): nat {
    match t
    case End => 0
    case Else(b) => BlockSize(b)
    case ElseIf(br) => BranchSize(br)
  }

  function BlockSize(b: Block): nat {
    match b
    case Nothing => 0
    case Then(st, rest) => StmtSize(st) + BlockSize(rest)
    case Ret(es) => ListSize(es) + 1
  }

  function StmtConsts(st: Stmt): nat {
    match st
    case Local(_, es) => ListConsts(es)
    case Assign(_, es) => ListConsts(es)
    case Do(b) => BlockConsts(b)
    case If(br) => BranchConsts(br)
    case While(cond, b) => ConstSize(cond) + BlockConsts(b) + 1
    case Repeat(b, cond) => ConstSize(cond) + BlockConsts(b) + 1
    case Break => 0
  }

  function BranchConsts(br: Branch): nat { ConstSize(br.cond) + BlockConsts(br.thenb) + TailConsts(br.tail) + 1 }

  function TailConsts(t: Tail): nat {
    match t
    case End => 0
    case Else(b) => BlockConsts(b)
    case ElseIf(br) => BranchConsts(br)
  }

  function BlockConsts(b: Block): nat {
    match b
    case Nothing => 0
    case Then(st, rest) => StmtConsts(st) + BlockConsts(rest)
    case Ret(es) => ListConsts(es)
  }

  lemma ConditionSize(P: Prims, s: State, cond: Expr)
    ensures Adds(s, Condition(P, s, cond).0, CodeSize(cond) + 4, ConstSize(cond) + 1)
    ensures Adds(s, LoopCondition(P, s, cond).0, CodeSize(cond) + 4, ConstSize(cond) + 1)
    ensures Adds(s, BreakCondition(P, s, cond).0, CodeSize(cond) + 4, ConstSize(cond) + 1)
  {
    hide Compile, GoIfTrue, GoIfFalse;
    var (s1, e1) := Compile(P, s, cond);
    CompileSize(P, s, cond);
    GoIfTrueSize(s1, e1);
    GoIfTrueSize(s1, if e1.k.VNil? then e1.(k := VFalse) else e1);
    GoIfFalseSize(s1, e1);
  }

  lemma {:induction false} PatchEachSize(s: State, gt: Gotos)
    ensures Adds(s, PatchEach(s, gt), 0, 0)
    decreases |gt|
  {
    if gt != [] { PatchEachSize(s, gt[..|gt| - 1]); }
  }

  lemma EndLoopSize(s: State, js: seq<nat>, head: nat, breaks: Gotos)
    ensures Adds(s, EndLoop(s, js, head, breaks), 0, 0)
  {
    hide PatchEach;
    PatchEachSize(PatchTo(s, js, head), breaks);
  }

  lemma EndWhileSize(s: State, head: nat, jf: seq<nat>, breaks: Gotos)
    ensures Adds(s, EndWhile(s, head, jf, breaks), 1, 0)
  {
    hide EndLoop;
    EndLoopSize(Jump(s).0, Jump(s).1, head, breaks);
  }

  lemma {:induction false} StmtAdds(P: Prims, s: State, st: Stmt, gt: Gotos)
    ensures Adds(s, CompileStmt(P, s, st, gt).0, StmtSize(st), StmtConsts(st))
    decreases st
  {
    hide NextRegs, AdjustAssign, AssignAll, LoopCondition, EndWhile, EndLoop, Jump, CompileBlock, CompileBranch,
      PatchToHere, LoopHead, NewGoto, ListSize, ListConsts, CodeSize, ConstSize, BlockSize, BlockConsts, BranchSize,
      BranchConsts;
    match st
    case Local(n, es) =>
      NextRegsSize(P, s, es);
      AdjustAssignSize(NextRegs(P, s, es), n, |es|);
    case Assign(rs, es) => AssignAllSize(P, s, rs, es);
    case Do(b) => BlockAdds(P, s, b, gt);
    case If(br) =>
      BranchAdds(P, s, br, [], gt);
      PatchToHereSize(CompileBranch(P, s, br, [], gt).0, CompileBranch(P, s, br, [], gt).1);
    case While(cond, b) => WhileAdds(P, s, cond, b, gt);
    case Repeat(b, cond) => RepeatAdds(P, s, b, cond, gt);
    case Break => BreakAdds(s, gt);
  }

  lemma BreakAdds(s: State, gt: Gotos)
    ensures Adds(s, NewGoto(Jump(s).0, gt), 1, 0)
  {}

  lemma {:induction false} WhileAdds(P: Prims, s: State, cond: Expr, b: Block, gt: Gotos)
    ensures Adds(s, CompileStmt(P, s, While(cond, b), gt).0, CodeSize(cond) + BlockSize(b) + 5,
      ConstSize(cond) + BlockConsts(b) + 1)
    decreases While(cond, b), 0
  {
    hide CompileStmt, LoopCondition, Condition, BreakCondition, EndWhile, CompileBlock, CodeSize, ConstSize, BlockSize,
      BlockConsts;
    var (s1, jf) := LoopCondition(P, LoopHead(s), cond);
    var (sb, gt1) := CompileBlock(P, s1, b, gt);
    WhileIs(P, s, cond, b, gt);
    ConditionSize(P, LoopHead(s), cond);
    BlockAdds(P, s1, b, gt);
    EndWhileSize(LeaveBlock(sb, s.nactvar), |s.code|, jf, gt1[|gt|..]);
  }

  lemma {:induction false} RepeatAdds(P: Prims, s: State, b: Block, cond: Expr, gt: Gotos)
    ensures Adds(s, CompileStmt(P, s, Repeat(b, cond), gt).0, CodeSize(cond) + BlockSize(b) + 4,
      ConstSize(cond) + BlockConsts(b) + 1)
    decreases Repeat(b, cond), 0
  {
    hide CompileStmt, LoopCondition, Condition, BreakCondition, EndLoop, CompileBlock, CodeSize, ConstSize, BlockSize,
      BlockConsts;
    var (sb, gt1) := CompileBlock(P, LoopHead(s), b, gt);
    var (s1, jf) := LoopCondition(P, sb, cond);
    RepeatIs(P, s, b, cond, gt);
    BlockAdds(P, LoopHead(s), b, gt);
    ConditionSize(P, sb, cond);
    EndLoopSize(LeaveBlock(s1, s.nactvar), jf, |s.code|, gt1[|gt|..]);
  }

  lemma OpenArmIs(P: Prims, s: State, br: Branch, gt: Gotos)
    ensures OpenArm(P, s, br, gt).0 ==
      if StartsWithBreak(br.thenb) then Jump(NewGoto(BreakCondition(P, s, br.cond).0, gt)).0
      else Condition(P, s, br.cond).0
  {}

  lemma OpenArmSize(P: Prims, s: State, br: Branch, gt: Gotos)
    ensures Adds(s, OpenArm(P, s, br, gt).0, CodeSize(br.cond) + 5, ConstSize(br.cond) + 1)
  {
    hide OpenArm, StartsWithBreak, Condition, BreakCondition, LoopCondition, Jump, NewGoto, CodeSize, ConstSize;
    OpenArmIs(P, s, br, gt);
    ConditionSize(P, s, br.cond);
    BreakAdds(BreakCondition(P, s, br.cond).0, gt);
    JumpSame(BreakCondition(P, s, br.cond).0, gt);
  }

  lemma JumpSame(s: State, gt: Gotos)
    ensures Jump(NewGoto(s, gt)).0.code == Jump(s).0.code && Jump(NewGoto(s, gt)).0.pool == s.pool
    ensures NewGoto(Jump(s).0, gt).code == Jump(s).0.code
  {}

  lemma EndArmSize(s: State, jf: seq<nat>, more: bool, esc: seq<nat>)
    ensures Adds(s, EndArm(s, jf, more, esc).0, 1, 0)
  {}

  lemma {:induction false} BranchAdds(P: Prims, s: State, br: Branch, esc: seq<nat>, gt: Gotos)
    ensures Adds(s, CompileBranch(P, s, br, esc, gt).0, BranchSize(br), BranchConsts(br))
    decreases br, 1
  {
    hide TestThenBlock, CompileTail;
    var (s1, esc1, gt1) := TestThenBlock(P, s, br, esc, gt);
    ArmAdds(P, s, br, esc, gt);
    TailAdds(P, s1, br.tail, esc1, gt1);
  }

  lemma {:induction false} ArmAdds(P: Prims, s: State, br: Branch, esc: seq<nat>, gt: Gotos)
    ensures Adds(s, TestThenBlock(P, s, br, esc, gt).0, CodeSize(br.cond) + BlockSize(br.thenb) + 6,
      ConstSize(br.cond) + BlockConsts(br.thenb) + 1)
    decreases br, 0
  {
    hide BreakCondition, Condition, LoopCondition, OpenArm, CompileBlock, EndArm, CodeSize, ConstSize;
    if LoneBreak(br.thenb) { ConditionSize(P, s, br.cond); }
    else {
      var (s1, jf, gt1) := OpenArm(P, s, br, gt);
      var (sb, gt2) := CompileBlock(P, s1, ArmBlock(br.thenb), gt1);
      OpenArmSize(P, s, br, gt);
      BlockAdds(P, s1, ArmBlock(br.thenb), gt1);
      EndArmSize(LeaveBlock(sb, s.nactvar), jf, !br.tail.End?, esc);
    }
  }

  lemma {:induction false} TailAdds(P: Prims, s: State, t: Tail, esc: seq<nat>, gt: Gotos)
    ensures Adds(s, CompileTail(P, s, t, esc, gt).0, TailSize(t), TailConsts(t))
    decreases t
  {
    hide CompileBlock, CompileBranch;
    match t
    case End =>
    case Else(b) => BlockAdds(P, s, b, gt);
    case ElseIf(br) => BranchAdds(P, s, br, esc, gt);
  }

  lemma {:induction false} BlockAdds(P: Prims, s: State, b: Block, gt: Gotos)
    ensures Adds(s, CompileBlock(P, s, b, gt).0, BlockSize(b), BlockConsts(b))
    decreases b
  {
    hide CompileStmt, ReturnValues;
    match b
    case Nothing =>
    case Then(st, rest) =>
      var (s1, gt1) := CompileStmt(P, s, st, gt);
      StmtAdds(P, s, st, gt);
      BlockAdds(P, s1, rest, gt1);
    case Ret(es) => ReturnValuesSize(P, s, es);
  }
}
