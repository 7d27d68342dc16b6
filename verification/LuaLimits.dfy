/** Why compiling an expression fails: the code has grown beyond the reach of a jump, the constant
    table is full, or the frame has no register left. */
module LuaLimits {
  import opened LuaValues
  import opened LuaOpcodes
  import opened LuaPatch
  import opened LuaConstants
  import opened LuaCode
  import opened LuaEncoding
  import opened LuaShape
  import opened LuaShapeOps
  import opened LuaCompiler

  /** More instructions than a jump can reach over, or more constants than an index can tell apart. */
  predicate Long(s: State) { |s.code| > 131071 || |s.pool.k| > 67108863 }

  /** There is no error, unless the limits are exceeded with registers below `top` in use. */
  predicate Blames(s: State, top: nat) { s.err ==> Long(s) || top >= 250 }

  lemma BlamesGrows(s: State, s': State, top: nat, top': nat)
    requires Blames(s, top) && Ext(s, s') && top <= top' && (s'.err ==> s.err)
    ensures Blames(s', top')
  {}

  /** A failure on the way to `s'`. */
  lemma BlamesEarlier(s: State, s': State, top: nat, top': nat)
    requires Blames(s, top) && s.err && Ext(s, s') && top <= top'
    ensures Blames(s', top')
  {}

  // ----- jumps -----

  lemma PatchBlames(s: State, nodes: seq<nat>, vtarget: int, reg: nat, dtarget: int)
    requires !s.err && Pending(s.code, nodes)
    requires forall j :: j in nodes ==> 0 <= (if Carries(s.code, j) then vtarget else dtarget) <= |s.code|
    ensures Blames(PatchList(s, nodes, vtarget, reg, dtarget), 0)
  {}

  lemma LinkBlames(s: State, xs: seq<nat>, ys: seq<nat>)
    requires !s.err && Pending(s.code, xs) && Pending(s.code, ys)
    ensures Blames(Link(s, xs, ys), 0)
  {
    if xs != [] && ys != [] { assert xs[|xs| - 1] in xs && ys[0] in ys; }
  }

  lemma DischargeBlames(s: State)
    requires Wf(s)
    ensures Blames(Discharge(s), 0)
  {
    PatchBlames(s, s.jpc, |s.code|, NO_REG, |s.code|);
  }

  lemma EmitBlames(s: State, i: Instr)
    requires Wf(s)
    ensures Blames(Emit(s, i), 0)
  {
    hide Wf, PatchList;
    DischargeBlames(s);
  }

  lemma JumpBlames(s: State)
    requires Wf(s)
    ensures Blames(Jump(s).0, 0)
  {
    if s.jpc != [] { assert s.jpc[0] in s.jpc; }
  }

  lemma PatchToHereBlames(s: State, nodes: seq<nat>)
    requires Wf(s) && Pending(s.code, nodes)
    ensures Blames(PatchToHere(s, nodes), 0)
  {
    LinkBlames(GetLabel(s), s.jpc, nodes);
  }

  lemma CondJumpBlames(s: State, i: Instr)
    requires Wf(s)
    ensures Blames(CondJump(s, i).0, 0)
  {
    hide Wf, Discharge;
    EmitBlames(s, i);
  }

  // ----- registers and constants -----

  lemma ReserveBlames(s: State, n: nat)
    requires Wf(s)
    ensures ReserveRegs(s, n).err <==> s.freereg + n >= 250
  {}

  lemma AddConstBlames(s: State, v: Value)
    requires !s.err && IsConstant(v)
    ensures Blames(AddConst(s, v).0, 0)
  {
    hide AddK;
  }

  lemma LoadNilsBlames(s: State, from: nat, n: nat)
    requires Wf(s) && n > 0
    ensures Blames(LoadNils(s, from, n), 0)
  {
    hide Emit;
    EmitBlames(s, LoadNil(from, n - 1));
  }

  lemma LoadConstBlames(s: State, reg: nat, k: nat)
    requires Wf(s)
    ensures Blames(LoadConst(s, reg, k), 0)
  {
    hide Wf, Discharge;
    if k <= MAXARG_BX { EmitBlames(s, LoadK(reg, k)); }
    else {
      EmitBlames(s, LoadKX(reg));
      EmitWithoutJumps(Emit(s, LoadKX(reg)), ExtraArg(k));
    }
  }

  lemma Discharge2RegBlames(s: State, e: Exp, reg: nat)
    requires Wf(s) && KindOk(s.code, e.k)
    ensures Blames(Discharge2Reg(s, e, reg).0, 0)
  {
    hide Emit, LoadNils, LoadConst, AddConst, Wf;
    match DischargeVars(e).k
    case VNil => LoadNilsBlames(s, reg, 1);
    case VFalse => EmitBlames(s, LoadBool(reg, false, false));
    case VTrue => EmitBlames(s, LoadBool(reg, true, false));
    case VK(i) => LoadConstBlames(s, reg, i);
    case VKNum(n) =>
      var (s1, i) := AddConst(s, Num(n));
      NoError(s);
      AddConstBlames(s, Num(n));
      if s1.err { BlamesEarlier(s1, LoadConst(s1, reg, i), 0, 0); }
      else {
        AddConstOk(s, Num(n));
        LoadConstBlames(s1, reg, i);
      }
    case VNonReloc(i) =>
      NoError(s);
      EmitBlames(s, Move(reg, i));
    case _ => NoError(s);
  }

  lemma NoError(s: State)
    requires Wf(s)
    ensures !s.err
  {}

  lemma Discharge2AnyRegBlames(s: State, e: Exp)
    requires Wf(s) && KindOk(s.code, e.k)
    ensures Blames(Discharge2AnyReg(s, e).0, s.freereg + 1)
  {
    hide Wf, Discharge2Reg;
    NoError(s);
    if !e.k.VNonReloc? {
      var s1 := ReserveRegs(s, 1);
      ReserveBlames(s, 1);
      if !s1.err {
        ReserveOk(s, 1);
        Discharge2RegBlames(s1, e, s.freereg);
      }
    }
  }

  // ----- whole lists -----

  lemma LoadLabelsBlames(s: State, isJump: bool, reg: nat)
    requires Wf(s) && (isJump ==> s.jpc == [])
    ensures Blames(LoadLabels(s, isJump, reg).0, 0)
  {
    hide Wf, Emit;
    NoError(s);
    JumpBlames(s);
    var s1 := BeforeLabels(s, isJump);
    EmitWithoutJumps(GetLabel(s1), LoadBool(reg, false, true));
    var s2 := CodeLabel(s1, reg, false, true);
    EmitWithoutJumps(GetLabel(s2), LoadBool(reg, true, false));
  }

  lemma CloseListsBlames(s: State, e: Exp, isJump: bool, reg: nat)
    requires Wf(s) && IsReg(reg) && ListsOk(s, e, 0) && (isJump ==> s.jpc == [])
    ensures Blames(CloseLists(s, e, isJump, reg), 0)
  {
    hide Wf, LoadLabels, Keeps, Entry;
    var (s2, p_f, p_t) := Labelled(s, e, isJump, reg);
    LabelledBlames(s, e, isJump, reg);
    if !s2.err {
      LabelledOk(s, e, isJump, reg);
      var s3 := PatchList(s2, e.f, |s2.code|, reg, p_f);
      PatchBlames(s2, e.f, |s2.code|, reg, p_f);
      if !s3.err {
        SecondListOk(s2, e.f, e.t, |s2.code|, reg, p_f, p_t);
        PatchBlames(s3, e.t, |s2.code|, reg, p_t);
      }
    }
  }

  lemma LabelledBlames(s: State, e: Exp, isJump: bool, reg: nat)
    requires Wf(s) && (isJump ==> s.jpc == [])
    ensures Blames(Labelled(s, e, isJump, reg).0, 0)
  {
    hide Wf, LoadLabels;
    NoError(s);
    LoadLabelsBlames(s, isJump, reg);
  }

  lemma Exp2RegBlames(s: State, e: Exp, reg: nat, base: nat)
    requires ExpAt(s, e, base) && IsReg(reg)
    ensures Blames(Exp2Reg(s, e, reg).0, 0)
  {
    hide CodeOk, PoolOk, FormOk, CloseLists, Keeps, Discharge2Reg;
    var (s1, e1) := Discharge2Reg(s, e, reg);
    Discharge2RegBlames(s, e, reg);
    if e.k.VJmp? {
      var j := e.k.info;
      LinkBlames(s, e.t, [j]);
      DistinctConcat(e.t, [j]);
      if !Link(s, e.t, [j]).err {
        assert ListsOk(Link(s, e.t, [j]), e.(t := e.t + [j]), 0);
        CloseListsBlames(Link(s, e.t, [j]), e.(t := e.t + [j]), true, reg);
      }
    } else if HasJumps(e1) && !s1.err {
      Discharge2RegOk(s, e, reg, base);
      KeepsList(s, s1, [], e.t, base);
      KeepsList(s, s1, [], e.f, base);
      EarlierLists(s1, e1, base);
      CloseListsBlames(s1, e1, false, reg);
    }
  }

  lemma Exp2NextRegBlames(s: State, e: Exp, base: nat, r0: nat)
    requires ExpOk(s, e, base, r0)
    ensures Blames(Exp2NextReg(s, e).0, r0 + 1)
  {
    hide CodeOk, PoolOk, FormOk, Exp2Reg;
    var e1 := DischargeVars(e);
    FreeExpOk(s, e1, r0);
    var s1 := FreeExp(s, e1);
    var s2 := ReserveRegs(s1, 1);
    ReserveBlames(s1, 1);
    if !s2.err {
      ReserveOk(s1, 1);
      assert ExpAt(s2, e1, base);
      Exp2RegBlames(s2, e1, r0, base);
    }
  }

  lemma Exp2AnyRegBlames(s: State, e: Exp, base: nat, r0: nat)
    requires ExpOk(s, e, base, r0)
    ensures Blames(Exp2AnyReg(s, e).0, r0 + 1)
  {
    hide CodeOk, PoolOk, FormOk, Exp2NextReg, Exp2Reg;
    var e1 := DischargeVars(e);
    assert ExpOk(s, e1, base, r0);
    if e1.k.VNonReloc? && !HasJumps(e1) {
    } else if e1.k.VNonReloc? && e1.k.info >= s.nactvar {
      Exp2RegBlames(s, e1, e1.k.info, base);
    } else {
      Exp2NextRegBlames(s, e1, base, r0);
    }
  }

  lemma Exp2ValBlames(s: State, e: Exp, base: nat, r0: nat)
    requires ExpOk(s, e, base, r0)
    ensures Blames(Exp2Val(s, e).0, r0 + 1)
  {
    if HasJumps(e) { Exp2AnyRegBlames(s, e, base, r0); }
  }

  lemma ValueRKBlames(s: State, e: Exp, base: nat, r0: nat)
    requires ExpOk(s, e, base, r0) && !HasJumps(e)
    ensures Blames(ValueRK(s, e).0, r0 + 1)
  {
    hide CodeOk, PoolOk, FormOk, AddConst, Exp2AnyReg;
    var (s1, e1) := AsConstant(s, e);
    if e1.k != e.k { AddConstBlames(s, ConstOf(e.k)); }
    if !s1.err {
      AsConstantOk(s, e, base, r0);
      Exp2AnyRegBlames(s1, e1, base, r0);
    }
  }

  lemma Exp2RKBlames(s: State, e: Exp, base: nat, r0: nat)
    requires ExpOk(s, e, base, r0)
    ensures Blames(Exp2RK(s, e).0, r0 + 1)
  {
    hide ExpOk, ValueRK, Exp2Val;
    NotOwn(s, e, base, r0);
    var (s1, e1) := Exp2Val(s, e);
    Exp2ValBlames(s, e, base, r0);
    if !s1.err {
      Exp2ValOk(s, e, base, r0);
      ValueRKBlames(s1, e1, base, r0);
    }
  }

  // ----- control flow -----

  lemma JumpOnCondBlames(s: State, e: Exp, cond: bool, base: nat, r0: nat)
    requires ExpOk(s, e, base, r0) && !e.k.VJmp? && !e.k.VLocal?
    ensures Blames(JumpOnCond(s, e, cond).0, r0 + 1)
  {
    hide CodeOk, PoolOk, FormOk, Discharge2AnyReg, Keeps, ListOk, CondJump;
    if e.k.VReloc? && s.code[e.k.info].Not? {
      CutNotOk(s, base);
      CondJumpBlames(s.(code := s.code[..|s.code| - 1]), Test(s.code[e.k.info].b, !cond));
    } else {
      var (s1, e1) := Discharge2AnyReg(s, e);
      Discharge2AnyRegBlames(s, e);
      ForAnyReg(s, e, r0);
      if !s1.err {
        Discharge2AnyRegOk(s, e, base, r0);
        FreeExpOk(s1, e1, r0);
        CondJumpBlames(FreeExp(s1, e1), TestSet(NO_REG, e1.k.info, cond));
      }
    }
  }

  /** Only a value that is not in a register yet takes one. */
  lemma ForAnyReg(s: State, e: Exp, r0: nat)
    requires KindOk(s.code, e.k) && Taken(s, e.k, r0) && !s.err && Blames(Discharge2AnyReg(s, e).0, s.freereg + 1)
    ensures Blames(Discharge2AnyReg(s, e).0, r0 + 1)
  {}

  lemma GoIfTrueBlames(s: State, e: Exp, base: nat, r0: nat)
    requires ExpOk(s, e, base, r0)
    ensures Blames(GoIfTrue(s, e).0, r0 + 1)
  {
    hide CodeOk, PoolOk, FormOk, JumpOnCond, PatchToHere, Keeps;
    var e0 := DischargeVars(e);
    assert ExpOk(s, e0, base, r0);
    var (s1, e1, js) := LeaveIfFalse(s, e0);
    if !e0.k.VJmp? && !AlwaysTrue(e0.k) { JumpOnCondBlames(s, e0, false, base, r0); }
    if !s1.err {
      LeaveIfFalseOk(s, e0, base, r0);
      LinkBlames(s1, e.f, js);
      if !Link(s1, e.f, js).err { PatchToHereBlames(s1, e.t); }
    }
  }

  lemma GoIfFalseBlames(s: State, e: Exp, base: nat, r0: nat)
    requires ExpOk(s, e, base, r0)
    ensures Blames(GoIfFalse(s, e).0, r0 + 1)
  {
    hide CodeOk, PoolOk, FormOk, JumpOnCond, PatchToHere, Keeps;
    var e0 := DischargeVars(e);
    assert ExpOk(s, e0, base, r0);
    var (s1, e1, js) := LeaveIfTrue(s, e0);
    if !e0.k.VJmp? && !AlwaysFalse(e0.k) { JumpOnCondBlames(s, e0, true, base, r0); }
    if !s1.err {
      LeaveIfTrueOk(s, e0, base, r0);
      LinkBlames(s1, e.t, js);
      if !Link(s1, e.t, js).err { PatchToHereBlames(s1, e.f); }
    }
  }

  lemma NotInRegBlames(s: State, e: Exp, base: nat, r0: nat)
    requires ExpOk(s, e, base, r0) && (e.k.VReloc? || e.k.VNonReloc?)
    ensures Blames(NotInReg(s, e).0, r0 + 1)
  {
    hide CodeOk, PoolOk, FormOk, Discharge2AnyReg, Keeps, ListOk, Emit;
    var (s1, e1) := Discharge2AnyReg(s, e);
    Discharge2AnyRegBlames(s, e);
    ForAnyReg(s, e, r0);
    if !s1.err {
      Discharge2AnyRegOk(s, e, base, r0);
      FreeExpOk(s1, e1, r0);
      EmitBlames(FreeExp(s1, e1), Not(0, e1.k.info));
    }
  }

  lemma CodeNotBlames(s: State, e: Exp, base: nat, r0: nat)
    requires ExpOk(s, e, base, r0)
    ensures Blames(CodeNot(s, e).0, r0 + 1)
  {
    hide CodeOk, PoolOk, FormOk, NotInReg, RemoveValues, Keeps, ListOk;
    var e0 := DischargeVars(e);
    assert ExpOk(s, e0, base, r0);
    if e0.k.VReloc? || e0.k.VNonReloc? { NotInRegBlames(s, e0, base, r0); }
  }

  // ----- operators -----

  /** The registers `op` needs besides those of its right operand. */
  function OperandTop(s: State, e1: Exp, r0: nat): nat {
    if IsNumeral(e1) then r0 + 2 else RegsAfter(s, e1.k, r0) + 1
  }

  lemma OperandsBlames(s: State, e1: Exp, e2: Exp, base2: nat, r0: nat)
    requires (IsOperand(e1) || IsNumeral(e1)) && Kept(s, e1, r0)
    requires ExpOk(s, e2, base2, RegsAfter(s, e1.k, r0))
    ensures var s1 := Exp2RK(s, e2).0; Blames(Exp2RK(s1, e1).0, OperandTop(s, e1, r0))
  {
    hide CodeOk, PoolOk, FormOk, Exp2RK, Keeps;
    var (s1, e2', o2) := Exp2RK(s, e2);
    Exp2RKBlames(s, e2, base2, RegsAfter(s, e1.k, r0));
    if s1.err { BlamesEarlier(s1, Exp2RK(s1, e1).0, RegsAfter(s, e1.k, r0) + 1, OperandTop(s, e1, r0)); }
    else {
      Exp2RKOk(s, e2, base2, RegsAfter(s, e1.k, r0));
      if IsOperand(e1) { OperandKeeps(s1, e1); }
      else {
        assert ExpOk(s1, e1, base2, s1.freereg);
        Exp2RKBlames(s1, e1, base2, s1.freereg);
      }
    }
  }

  lemma CodeArithBlames(P: Prims, s: State, op: ArithOp, e1: Exp, e2: Exp, base2: nat, r0: nat)
    requires (IsOperand(e1) || IsNumeral(e1)) && Kept(s, e1, r0)
    requires ExpOk(s, e2, base2, RegsAfter(s, e1.k, r0))
    ensures Blames(CodeArith(P, s, op, e1, e2).0, OperandTop(s, e1, r0))
  {
    hide CodeOk, PoolOk, FormOk, Exp2RK, Stacked, FreeExps, Emit, Keeps;
    if !Folds(op, e1, e2) {
      var (s1, e2', o2) := Exp2RK(s, e2);
      var (s2, e1', o1) := Exp2RK(s1, e1);
      OperandsBlames(s, e1, e2, base2, r0);
      if !s2.err {
        OperandsOk(s, e1, e2, base2, r0);
        FreeExpsOk(s2, e1', e2', r0);
        EmitBlames(FreeExps(s2, e1', o1, e2', o2), Arith(op, 0, o1, o2));
      }
    }
  }

  lemma CodeUnaryBlames(s: State, len: bool, e: Exp, base: nat, r0: nat)
    requires ExpOk(s, e, base, r0)
    ensures Blames(CodeUnary(s, len, e).0, r0 + 1)
  {
    hide CodeOk, PoolOk, FormOk, Exp2AnyReg, Emit, Keeps;
    var (s1, e1) := Exp2AnyReg(s, e);
    Exp2AnyRegBlames(s, e, base, r0);
    OperandKeeps(s1, e1);
    if !s1.err {
      Exp2AnyRegOk(s, e, base, r0);
      FreeExpOk(s1, e1, r0);
      EmitBlames(FreeExp(s1, e1), if len then Len(0, e1.k.info) else Unm(0, e1.k.info));
    }
  }

  lemma CodeCompBlames(s: State, op: CmpOp, cond: bool, e1: Exp, e2: Exp, base2: nat, r0: nat)
    requires IsOperand(e1) && Kept(s, e1, r0)
    requires ExpOk(s, e2, base2, RegsAfter(s, e1.k, r0))
    ensures Blames(CodeComp(s, op, cond, e1, e2).0, OperandTop(s, e1, r0))
  {
    hide CodeOk, PoolOk, FormOk, Exp2RK, CondJump, Keeps;
    var (s2, e2', o2) := Exp2RK(s, e2);
    OperandKeeps(s, e1);
    Exp2RKBlames(s, e2, base2, RegsAfter(s, e1.k, r0));
    if !s2.err {
      Exp2RKOk(s, e2, base2, RegsAfter(s, e1.k, r0));
      FreeExpOk(s2, e2', RegsAfter(s, e1.k, r0));
      var s3 := FreeExp(s2, e2');
      FreeExpOk(s3, e1, r0);
      CondJumpBlames(FreeExp(s3, e1), CompInstr(op, cond, OperandOf(e1), o2));
    }
  }

  lemma CodeConcatBlames(s: State, e1: Exp, e2: Exp, base2: nat, r0: nat)
    requires OnTop(s, e1, r0) && ExpOk(s, e2, base2, r0 + 1)
    ensures Blames(CodeConcat(s, e1, e2).0, r0 + 2)
  {
    hide CodeOk, PoolOk, FormOk, Exp2Val, Exp2NextReg, ListOk, Keeps, FreeExps, Emit;
    var (s1, e2') := Exp2Val(s, e2);
    Exp2ValBlames(s, e2, base2, r0 + 1);
    if !s1.err {
      Exp2ValOk(s, e2, base2, r0 + 1);
      if !ConcatAt(s1.code, e2'.k) {
        var (s2, e3) := Exp2NextReg(s1, e2');
        Exp2NextRegBlames(s1, e2', base2, r0 + 1);
        if !s2.err {
          Exp2NextRegOk(s1, e2', base2, r0 + 1);
          FreeExpsOk(s2, e1, e3, r0);
          EmitBlames(FreeExps(s2, e1, r0, e3, e3.k.info), Concat(0, r0, e3.k.info));
        }
      }
    }
  }

  lemma PrefixBlames(P: Prims, s: State, op: UnOp, e: Exp, base: nat, r0: nat)
    requires ExpOk(s, e, base, r0)
    ensures Blames(Prefix(P, s, op, e).0, r0 + 1)
  {
    hide CodeOk, PoolOk, FormOk, CodeUnary, CodeNot;
    match op
    case OpNeg => if !IsNumeral(e) { CodeUnaryBlames(s, false, e, base, r0); }
    case OpNot => CodeNotBlames(s, e, base, r0);
    case OpLen => CodeUnaryBlames(s, true, e, base, r0);
  }

  lemma InfixBlames(s: State, op: BinOp, e: Exp, base: nat, r0: nat)
    requires ExpOk(s, e, base, r0)
    ensures Blames(Infix(s, op, e).0, r0 + 1)
  {
    hide CodeOk, PoolOk, FormOk, GoIfTrue, GoIfFalse, Exp2RK, Exp2NextReg, ListOk;
    match op
    case OpAnd => GoIfTrueBlames(s, e, base, r0);
    case OpOr => GoIfFalseBlames(s, e, base, r0);
    case OpArith(_) => if !IsNumeral(e) { Exp2RKBlames(s, e, base, r0); }
    case OpCmp(_, _) => Exp2RKBlames(s, e, base, r0);
    case OpConcat => Exp2NextRegBlames(s, e, base, r0);
  }

  function PosfixTop(s: State, op: BinOp, e1: Exp, r0: nat): nat {
    if op.OpAnd? || op.OpOr? then r0 else if op.OpConcat? then r0 + 2 else OperandTop(s, e1, r0)
  }

  lemma PosfixBlames(P: Prims, s: State, op: BinOp, e1: Exp, e2: Exp, base: nat, base2: nat, r0: nat)
    requires OperandKept(op, e1)
    requires match op
      case OpAnd => ExpOk(s, e2, base2, r0) && ListOk(s, e1.f, base)
      case OpOr => ExpOk(s, e2, base2, r0) && ListOk(s, e1.t, base)
      case OpConcat => ExpOk(s, e2, base2, r0 + 1) && OnTop(s, e1, r0)
      case _ => ExpOk(s, e2, base2, RegsAfter(s, e1.k, r0)) && Kept(s, e1, r0)
    ensures Blames(Posfix(P, s, op, e1, e2).0, PosfixTop(s, op, e1, r0))
  {
    hide CodeOk, PoolOk, FormOk, Keeps, Exp2RK, CodeArith, CodeComp, CodeConcat;
    match op
    case OpAnd => LinkBlames(s, e2.f, e1.f);
    case OpOr => LinkBlames(s, e2.t, e1.t);
    case OpArith(a) => CodeArithBlames(P, s, a, e1, e2, base2, r0);
    case OpCmp(c, cond) => CodeCompBlames(s, c, cond, e1, e2, base2, r0);
    case OpConcat => CodeConcatBlames(s, e1, e2, base2, r0);
  }

  // ----- expressions -----

  function Max(x: nat, y: nat): nat { if x < y then y else x }

  /** The registers the left operand may hold on to while the right one is computed. */
  function Waiting(op: BinOp, l: Expr): nat {
    match op
    case OpAnd => 0
    case OpOr => 0
    case OpConcat => 1
    case _ => if l.ELocal? then 0 else 1
  }

  /** So many registers, from the first free one on, are enough for an expression. */
  function Depth(ex: Expr): (d: nat)
    ensures d >= 1
  {
    match ex
    case EUn(_, arg) => Depth(arg)
    case EBin(op, l, r) => Max(Depth(l), Waiting(op, l) + Depth(r))
    case _ => 1
  }

  /** A local is an operand where it is. */
  lemma LocalStays(s: State, op: BinOp, r: nat)
    requires op.OpArith? || op.OpCmp?
    ensures Infix(s, op, Exp(VLocal(r), [], [])) == (s, Exp(VNonReloc(r), [], []))
  {}

  lemma LocalCode(P: Prims, s: State, r: nat)
    ensures Compile(P, s, ELocal(r)) == (s, Exp(VLocal(r), [], []))
  {}

  /** The right operand, and the operator itself. */
  lemma BinaryBlames(P: Prims, s: State, s1: State, e1: Exp, op: BinOp, l: Expr, r: Expr)
    requires Wf(s) && Ext(s, s1) && Compiled(s, s1, e1) && !Infix(s1, op, e1).0.err && InScope(r, s.nactvar)
    requires (s1, e1) == Compile(P, s, l) && InScope(l, s.nactvar)
    requires
      var (s2, e2) := Infix(s1, op, e1);
      Blames(Compile(P, s2, r).0, s2.freereg + Depth(r))
    ensures
      var (s2, e2) := Infix(s1, op, e1);
      var (s3, e3) := Compile(P, s2, r);
      Blames(Posfix(P, s3, op, e2, e3).0, s.freereg + Waiting(op, l) + Depth(r))
  {
    hide CodeOk, PoolOk, FormOk, Compile, Infix, Posfix, Evolves;
    var (s2, e2) := Infix(s1, op, e1);
    var (s3, e3) := Compile(P, s2, r);
    var r0, top := s.freereg, s.freereg + Waiting(op, l) + Depth(r);
    InfixStepOk(P, s, s1, e1, op);
    LeftTakes(P, s, s1, e1, op, l);
    if s3.err { BlamesEarlier(s3, Posfix(P, s3, op, e2, e3).0, s2.freereg + Depth(r), top); }
    else {
      CompileOk(P, s2, r);
      RightBlames(P, s, s2, e2, s3, e3, op);
    }
  }

  /** What the left operand holds on to. */
  lemma LeftTakes(P: Prims, s: State, s1: State, e1: Exp, op: BinOp, l: Expr)
    requires (s1, e1) == Compile(P, s, l) && InScope(l, s.nactvar) && s.nactvar <= s.freereg
    requires
      var (s2, e2) := Infix(s1, op, e1);
      LeftOk(s2, op, e2, |s.code|, s.freereg)
    ensures
      var (s2, e2) := Infix(s1, op, e1);
      && s2.freereg <= s.freereg + Waiting(op, l)
      && PosfixTop(s2, op, e2, s.freereg) <= s.freereg + Waiting(op, l) + 1
  {
    hide Wf, Infix, Compile, ListOk;
    if l.ELocal? && (op.OpArith? || op.OpCmp?) {
      LocalCode(P, s, l.r);
      LocalStays(s, op, l.r);
    }
  }

  lemma RightBlames(P: Prims, s: State, s2: State, e2: Exp, s3: State, e3: Exp, op: BinOp)
    requires Wf(s) && LeftOk(s2, op, e2, |s.code|, s.freereg) && Ext(s2, s3) && Compiled(s2, s3, e3)
    requires s2.nactvar == s3.nactvar == s.nactvar
    ensures Blames(Posfix(P, s3, op, e2, e3).0, PosfixTop(s2, op, e2, s.freereg))
  {
    hide CodeOk, PoolOk, FormOk, Posfix, Keeps;
    LeftKept(s2, s3, op, e2, |s.code|, s.freereg);
    PosfixBlames(P, s3, op, e2, e3, |s.code|, |s2.code|, s.freereg);
  }

  lemma UnaryBlames(P: Prims, s: State, s1: State, e1: Exp, op: UnOp)
    requires Compiled(s, s1, e1)
    ensures Blames(Prefix(P, s1, op, e1).0, s.freereg + 1)
  {
    hide ExpOk, Prefix, Evolves;
    CompiledExp(s, s1, e1);
    PrefixBlames(P, s1, op, e1, |s.code|, s.freereg);
  }

  /** The left operand of a binary operator. */
  lemma LeftBlames(P: Prims, s: State, s1: State, e1: Exp, op: BinOp)
    requires Wf(s) && Ext(s, s1) && Compiled(s, s1, e1)
    ensures var s2 := Infix(s1, op, e1).0; Blames(s2, s.freereg + 1) && (!s2.err ==> Wf(s2))
  {
    hide ExpOk, Infix, Evolves, Wf, OperandKept;
    CompiledExp(s, s1, e1);
    InfixBlames(s1, op, e1, |s.code|, s.freereg);
    var (s2, e2) := Infix(s1, op, e1);
    if !s2.err {
      InfixStepOk(P, s, s1, e1, op);
      LeftWf(s2, op, e2, |s.code|, s.freereg);
    }
  }

  /** Compiling an expression only fails for want of registers, code or constants. */
  lemma {:induction false} CompileBlames(P: Prims, s: State, ex: Expr)
    requires Wf(s) && InScope(ex, s.nactvar)
    ensures Blames(Compile(P, s, ex).0, s.freereg + Depth(ex))
    decreases ex
  {
    hide Infix, Posfix, Prefix, AddConst, Compiled, Wf, Waiting;
    NoError(s);
    match ex
    case EStr(str) => AddConstBlames(s, Str(str));
    case EUn(op, arg) =>
      var (s1, e1) := Compile(P, s, arg);
      CompileBlames(P, s, arg);
      if !s1.err {
        CompileOk(P, s, arg);
        UnaryBlames(P, s, s1, e1, op);
      }
    case EBin(op, l, r) => OperatorBlames(P, s, op, l, r);
    case _ =>
  }

  lemma {:induction false} OperatorBlames(P: Prims, s: State, op: BinOp, l: Expr, r: Expr)
    requires Wf(s) && InScope(l, s.nactvar) && InScope(r, s.nactvar)
    ensures Blames(Compile(P, s, EBin(op, l, r)).0, s.freereg + Max(Depth(l), Waiting(op, l) + Depth(r)))
    decreases EBin(op, l, r), 0
  {
    hide Infix, Posfix, Compiled, Wf, Compile, Depth, Waiting, InScope, OperandKept;
    var (s1, e1) := Compile(P, s, l);
    var (s2, e2) := Infix(s1, op, e1);
    CompileBlames(P, s, l);
    CompileBinary(P, s, op, l, r);
    if !s1.err {
      CompileOk(P, s, l);
      LeftBlames(P, s, s1, e1, op);
      if !s2.err {
        CompileBlames(P, s2, r);
        BinaryBlames(P, s, s1, e1, op, l, r);
      }
    }
  }

  lemma CompiledExp(s: State, s1: State, e1: Exp)
    requires Compiled(s, s1, e1)
    ensures ExpOk(s1, e1, |s.code|, s.freereg) && KindOk(s1.code, e1.k)
  {}

  lemma LeftWf(s: State, op: BinOp, e: Exp, base: nat, r0: nat)
    requires LeftOk(s, op, e, base, r0)
    ensures Wf(s)
  {}
}
