/** Every operation on expressions keeps the invariants of code generation. */
module LuaShapeOps {
  import opened LuaValues
  import opened LuaOpcodes
  import opened LuaPatch
  import opened LuaConstants
  import opened LuaCode
  import opened LuaShape
  import opened LuaEncoding

  lemma EarlierLists(s: State, e: Exp, base: nat)
    requires ListsOk(s, e, base)
    ensures ListsOk(s, e, 0)
  {}

  lemma KeepsMore(s: State, s': State, own: seq<nat>)
    requires Keeps(s, s', [])
    ensures Keeps(s, s', own)
  {
    assert forall j: nat :: Foreign(s, own, j) ==> Foreign(s, [], j);
  }

  /** A comparison: its jump joins the list of the jumps taken on true, and both are closed. */
  lemma Exp2RegJumpOk(s: State, e: Exp, reg: nat, base: nat)
    requires ExpAt(s, e, base) && IsReg(reg) && e.k.VJmp? && !Exp2Reg(s, e, reg).0.err
    ensures
      var s' := Exp2Reg(s, e, reg).0;
      && Wf(s') && Evolves(s, s', Own(e), base)
      && s'.freereg == s.freereg && s'.maxstack == s.maxstack
  {
    hide CodeOk, PoolOk, FormOk, CloseLists;
    var j := e.k.info;
    var s2, e2 := Link(s, e.t, [j]), e.(t := e.t + [j]);
    DistinctConcat(e.t, [j]);
    assert ListsOk(s2, e2, 0);
    CloseListsOk(s2, e2, true, reg);
    assert forall x :: x in Own(e) <==> x in e2.t + e2.f;
    assert forall i: nat :: Foreign(s, Own(e), i) ==> Foreign(s2, e2.t + e2.f, i);
  }

  lemma Exp2RegOk(s: State, e: Exp, reg: nat, base: nat)
    requires ExpAt(s, e, base) && IsReg(reg) && !Exp2Reg(s, e, reg).0.err
    ensures
      var s' := Exp2Reg(s, e, reg).0;
      && Wf(s') && Evolves(s, s', Own(e), base)
      && s'.freereg == s.freereg && s'.maxstack == s.maxstack
  {
    hide CodeOk, PoolOk, FormOk, CloseLists, Keeps, Discharge2Reg;
    if e.k.VJmp? { Exp2RegJumpOk(s, e, reg, base); }
    else {
      var (s1, e1) := Discharge2Reg(s, e, reg);
      Discharge2RegOk(s, e, reg, base);
      if HasJumps(e1) {
        KeepsList(s, s1, [], e.t, base);
        KeepsList(s, s1, [], e.f, base);
        EarlierLists(s1, e1, base);
        CloseListsOk(s1, e1, false, reg);
        KeepsMore(s, s1, Own(e));
        KeepsBoth(s, s1, CloseLists(s1, e1, false, reg), Own(e), e1.t + e1.f);
      } else { KeepsMore(s, s1, Own(e)); }
    }
  }

  /** The jump at `j`, on the list for `side`, has a destination: the end of the code when its
      test delivers the value to `reg`, and otherwise the LOADBOOL that produces the value. */
  predicate Resolved(code: seq<Instr>, code': seq<Instr>, j: nat, reg: nat, side: bool) {
    && j < |code'| && code'[j].Jmp? && code'[j].sbx >= 0
    && var dest := j + 1 + code'[j].sbx;
       if Carries(code, j) then dest == |code'| && code'[j - 1] == PatchTest(code[j - 1], reg)
       else dest < |code'| && code'[dest] == LoadBool(reg, side, !side)
  }

  lemma PatchedResolves(code: seq<Instr>, xs: seq<nat>, ys: seq<nat>, reg: nat, p: int, dx: int, dy: int, side: bool)
    requires Pending(code, xs) && Pending(code, ys) && Disjoint(xs, ys)
    requires forall j ::
      j in xs && !Carries(code, j) ==> 0 <= dx < |code| && j < dx && code[dx] == LoadBool(reg, side, !side)
    ensures forall j :: j in xs ==>
      Resolved(code, Patch(Patch(code, xs, |code|, reg, dx), ys, |code|, reg, dy), j, reg, side)
    ensures forall j :: j in xs ==>
      Resolved(code, Patch(Patch(code, ys, |code|, reg, dy), xs, |code|, reg, dx), j, reg, side)
  {}

  lemma ResolvedSame(code0: seq<Instr>, code: seq<Instr>, code': seq<Instr>, j: nat, reg: nat, side: bool)
    requires SameControl(code0, code, j) && Resolved(code, code', j, reg, side)
    ensures Resolved(code0, code', j, reg, side)
  {}

  lemma LabelPlaces(s: State, e: Exp, isJump: bool, reg: nat)
    requires Wf(s) && IsReg(reg) && ListsOk(s, e, 0) && (isJump ==> s.jpc == []) && !Labelled(s, e, isJump, reg).0.err
    ensures
      var (s2, p_f, p_t) := Labelled(s, e, isJump, reg);
      NeedValue(s.code, e.t) || NeedValue(s.code, e.f) ==>
        && 0 <= p_f && p_t == p_f + 1 < |s2.code|
        && s2.code[p_f] == LoadBool(reg, false, true) && s2.code[p_t] == LoadBool(reg, true, false)
  {
    hide LoadLabels;
    if NeedValue(s.code, e.t) || NeedValue(s.code, e.f) { LoadLabelsOk(s, isJump, reg); }
  }

  lemma CloseListsResolve(s: State, e: Exp, isJump: bool, reg: nat)
    requires Wf(s) && IsReg(reg) && ListsOk(s, e, 0) && (isJump ==> s.jpc == []) && !CloseLists(s, e, isJump, reg).err
    ensures
      var s' := CloseLists(s, e, isJump, reg);
      && (forall j :: j in e.t ==> Resolved(s.code, s'.code, j, reg, true))
      && (forall j :: j in e.f ==> Resolved(s.code, s'.code, j, reg, false))
  {
    hide CodeOk, PoolOk, FormOk, LoadLabels, Resolved, Patch;
    var (s2, p_f, p_t) := Labelled(s, e, isJump, reg);
    LabelledOk(s, e, isJump, reg);
    LabelPlaces(s, e, isJump, reg);
    assert forall j :: j in e.t || j in e.f ==> j in e.t + e.f;
    PatchedResolves(s2.code, e.f, e.t, reg, p_f, p_f, p_t, false);
    PatchedResolves(s2.code, e.t, e.f, reg, p_f, p_t, p_f, true);
    var s' := CloseLists(s, e, isJump, reg);
    forall j | j in e.t ensures Resolved(s.code, s'.code, j, reg, true) { ResolvedSame(s.code, s2.code, s'.code, j,
        reg, true); }
    forall j | j in e.f ensures Resolved(s.code, s'.code, j, reg, false) { ResolvedSame(s.code, s2.code, s'.code, j,
        reg, false); }
  }

  /** exp2reg resolves every jump the expression still owns. */
  lemma Exp2RegResolves(s: State, e: Exp, reg: nat, base: nat)
    requires ExpAt(s, e, base) && IsReg(reg) && !Exp2Reg(s, e, reg).0.err
    ensures
      var s' := Exp2Reg(s, e, reg).0;
      && (forall j :: j in e.t ==> Resolved(s.code, s'.code, j, reg, true))
      && (forall j :: j in e.f ==> Resolved(s.code, s'.code, j, reg, false))
      && (e.k.VJmp? ==> Resolved(s.code, s'.code, e.k.info, reg, true))
  {
    hide CodeOk, PoolOk, FormOk, Resolved, Patch, CloseLists;
    var (s1, e1) := Discharge2Reg(s, e, reg);
    Discharge2RegOk(s, e, reg, base);
    var s' := Exp2Reg(s, e, reg).0;
    if e.k.VJmp? {
      var j := e.k.info;
      DistinctConcat(e.t, [j]);
      CloseListsResolve(Link(s1, e.t, [j]), e1.(t := e.t + [j]), true, reg);
      assert forall i :: i in e.t || i == j ==> i in e.t + [j];
    } else if HasJumps(e) {
      KeepsList(s, s1, [], e.t, base);
      KeepsList(s, s1, [], e.f, base);
      assert ListsOk(s1, e1, 0);
      CloseListsResolve(s1, e1, false, reg);
      forall j | j in e.t ensures Resolved(s.code, s'.code, j, reg, true) { ResolvedSame(s.code, s1.code, s'.code, j,
          reg, true); }
      forall j | j in e.f ensures Resolved(s.code, s'.code, j, reg, false) { ResolvedSame(s.code, s1.code, s'.code, j,
          reg, false); }
    }
  }

  lemma ReserveOk(s: State, n: nat)
    requires Wf(s) && !ReserveRegs(s, n).err
    ensures var s' := ReserveRegs(s, n); Wf(s') && s' == s.(freereg := s.freereg + n, maxstack := s'.maxstack)
  {}

  /** The assertion of freereg: a register that is released is the last one taken. */
  predicate LastTaken(s: State, e: Exp) {
    InTemp(s, e.k) ==> !IsK(e.k.info) && e.k.info + 1 == s.freereg
  }

  lemma FreeExpOk(s: State, e: Exp, r0: nat)
    requires Wf(s) && Taken(s, e.k, r0)
    ensures Wf(FreeExp(s, e)) && FreeExp(s, e) == s.(freereg := r0)
    ensures LastTaken(s, e)
  {
    assert InTemp(s, e.k) ==> e.k.info < MAXSTACK;
  }

  lemma Exp2NextRegOk(s: State, e: Exp, base: nat, r0: nat)
    requires ExpOk(s, e, base, r0) && !Exp2NextReg(s, e).0.err
    ensures
      var (s', e') := Exp2NextReg(s, e);
      && ExpOk(s', e', base, r0) && Evolves(s, s', Own(e), base)
      && e'.k == VNonReloc(r0) && s'.freereg == r0 + 1
  {
    hide CodeOk, PoolOk, FormOk, Exp2Reg;
    var e1 := DischargeVars(e);
    FreeExpOk(s, e1, r0);
    var s1 := FreeExp(s, e1);
    var s2 := ReserveRegs(s1, 1);
    assert Exp2NextReg(s, e) == Exp2Reg(s2, e1, r0);
    ReserveOk(s1, 1);
    assert ExpAt(s2, e1, base);
    Exp2RegOk(s2, e1, r0, base);
  }

  lemma Exp2AnyRegOk(s: State, e: Exp, base: nat, r0: nat)
    requires ExpOk(s, e, base, r0) && !Exp2AnyReg(s, e).0.err
    ensures
      var (s', e') := Exp2AnyReg(s, e);
      ExpOk(s', e', base, r0) && Evolves(s, s', Own(e), base)
  {
    hide CodeOk, PoolOk, FormOk, Patch, PatchAt, Exp2NextReg, Exp2Reg;
    var e1 := DischargeVars(e);
    assert ExpOk(s, e1, base, r0);
    if e1.k.VNonReloc? && !HasJumps(e1) {
    } else if e1.k.VNonReloc? && e1.k.info >= s.nactvar {
      Exp2RegOk(s, e1, e1.k.info, base);
    } else {
      Exp2NextRegOk(s, e1, base, r0);
    }
  }

  lemma Exp2ValOk(s: State, e: Exp, base: nat, r0: nat)
    requires ExpOk(s, e, base, r0) && !Exp2Val(s, e).0.err
    ensures
      var (s', e') := Exp2Val(s, e);
      ExpOk(s', e', base, r0) && Evolves(s, s', Own(e), base)
  {
    if HasJumps(e) { Exp2AnyRegOk(s, e, base, r0); }
  }

  /** A ready operand is left as it is. */
  lemma OperandKeeps(s: State, e: Exp)
    requires IsOperand(e) && KindOk(s.code, e.k)
    ensures Exp2RK(s, e) == (s, e, OperandOf(e))
  {}

  lemma Exp2RKOk(s: State, e: Exp, base: nat, r0: nat)
    requires ExpOk(s, e, base, r0) && !Exp2RK(s, e).0.err
    ensures
      var (s', e', rk) := Exp2RK(s, e);
      && ExpOk(s', e', base, r0) && Evolves(s, s', Own(e), base)
      && (rk < 250 || (256 <= rk < 512 && e'.k == VK(rk - 256)))
  {
    var (s1, e1) := Exp2Val(s, e);
    Exp2ValOk(s, e, base, r0);
    ValueRKOk(s1, e1, base, r0);
  }

  /** A constant of the table is an operand itself exactly if its index is at most 255; otherwise it
      is loaded into a register. */
  lemma ConstantOperand(s: State, i: nat)
    ensures
      var (s', e', rk) := ValueRK(s, Exp(VK(i), [], []));
      && (i <= 255 ==> s' == s && e'.k == VK(i) && rk == 256 + i)
      && (i > 255 ==> |s'.code| > |s.code| && e'.k == VNonReloc(rk))
  {
    hide Emit, ReserveRegs, FreeReg;
  }

  lemma AsConstantOk(s: State, e: Exp, base: nat, r0: nat)
    requires ExpOk(s, e, base, r0) && !AsConstant(s, e).0.err
    ensures
      var (s', e') := AsConstant(s, e);
      ExpOk(s', e', base, r0) && Evolves(s, s', [], base) && Own(e') == Own(e)
  {
    if AsConstant(s, e).1.k != e.k { AddConstOk(s, ConstOf(e.k)); }
  }

  lemma ValueRKOk(s: State, e: Exp, base: nat, r0: nat)
    requires ExpOk(s, e, base, r0) && !HasJumps(e) && !ValueRK(s, e).0.err
    ensures
      var (s', e', rk) := ValueRK(s, e);
      ExpOk(s', e', base, r0) && Evolves(s, s', Own(e), base)
  {
    hide CodeOk, PoolOk, FormOk, AsConstant, Exp2AnyReg;
    var (s1, e1) := AsConstant(s, e);
    AsConstantOk(s, e, base, r0);
    if !(e1.k.VK? && e1.k.info <= MAXINDEXRK) {
      Exp2AnyRegOk(s1, e1, base, r0);
      KeepsBoth(s, s1, ValueRK(s, e).0, Own(e), Own(e1));
    }
  }

  // ----- control flow -----

  lemma CutNotOk(s: State, base: nat)
    requires Wf(s) && s.code != [] && PlaceAt(s, VReloc(|s.code| - 1), base)
    ensures
      var s0 := s.(code := s.code[..|s.code| - 1]);
      Wf(s0) && Keeps(s, s0, [])
  {
    hide CodeOk, PoolOk, FormOk;
    CutOk(s.code, s.lasttarget, |s.code| - 1);
    FormCut(s.code, s.lasttarget, |s.code| - 1, s.labels);
    KeepsCut(s);
  }

  lemma KeepsCut(s: State)
    requires s.code != [] && !s.code[|s.code| - 1].Jmp?
    ensures Keeps(s, s.(code := s.code[..|s.code| - 1]), [])
  {}

  lemma Discharge2AnyRegOk(s: State, e: Exp, base: nat, r0: nat)
    requires ExpOk(s, e, base, r0) && !e.k.VJmp? && !e.k.VLocal? && !Discharge2AnyReg(s, e).0.err
    ensures
      var (s', e') := Discharge2AnyReg(s, e);
      && ExpOk(s', e', base, r0) && Evolves(s, s', [], base)
      && e'.k.VNonReloc? && s'.lasttarget == s.lasttarget
  {
    if !e.k.VNonReloc? {
      var s1 := ReserveRegs(s, 1);
      ReserveOk(s, 1);
      assert Keeps(s, s1, []);
      Discharge2RegOk(s1, e, s.freereg, base);
      var (s', e') := Discharge2AnyReg(s, e);
      KeepsList(s1, s', [], e.t, base);
      KeepsList(s1, s', [], e.f, base);
    }
  }

  lemma JumpOnCondOk(s: State, e: Exp, cond: bool, base: nat, r0: nat)
    requires ExpOk(s, e, base, r0) && !e.k.VJmp? && !e.k.VLocal? && !JumpOnCond(s, e, cond).0.err
    ensures
      var (s', e', js) := JumpOnCond(s, e, cond);
      && Wf(s') && Evolves(s, s', [], base) && s'.freereg == r0
      && s'.jpc == [] && ListsOk(s', e, base)
      && |js| == 1 && base <= js[0] && js[0] == |s'.code| - 1 && s'.code[js[0]] == Jmp(OPEN)
      && js[0] !in e.t && js[0] !in e.f
  {
    hide CodeOk, PoolOk, FormOk, Patch, PatchAt, Discharge2AnyReg, Keeps, ListOk, Discharge, CondJump;
    var (s', e', js) := JumpOnCond(s, e, cond);
    if e.k.VReloc? && s.code[e.k.info].Not? {
      CutNotOk(s, base);
      LastFits(s);
      var s0 := s.(code := s.code[..|s.code| - 1]);
      CondJumpOk(s0, Test(s.code[e.k.info].b, !cond));
      KeepsBoth(s, s0, s', [], []);
    } else {
      var (s1, e1) := Discharge2AnyReg(s, e);
      Discharge2AnyRegOk(s, e, base, r0);
      FreeExpOk(s1, e1, r0);
      var s2 := FreeExp(s1, e1);
      CondJumpOk(s2, TestSet(NO_REG, e1.k.info, cond));
      KeepsSameCode(s1, s2, s');
      KeepsBoth(s, s1, s', [], []);
    }
    KeepsList(s, s', [], e.t, base);
    KeepsList(s, s', [], e.f, base);
    NotOnLists(s, e, base, js[0]);
  }

  lemma KeepsSameCode(s: State, s1: State, s': State)
    requires s1.code == s.code && s1.jpc == s.jpc && Keeps(s1, s', [])
    ensures Keeps(s, s', [])
  {
    assert forall j: nat :: Foreign(s, [], j) ==> Foreign(s1, [], j);
  }

  lemma NotOnLists(s: State, e: Exp, base: nat, j: nat)
    requires ListsOk(s, e, base) && j >= |s.code|
    ensures j !in e.t && j !in e.f
  {}

  lemma InvertJumpOk(s: State, e: Exp, base: nat)
    requires ExpAt(s, e, base) && e.k.VJmp?
    ensures
      var s' := InvertJump(s, e.k.info);
      ExpAt(s', e, base) && Keeps(s, s', []) && s' == s.(code := s'.code)
  {
    hide PoolOk, FormOk;
    var s' := InvertJump(s, e.k.info);
    InvertForm(s, e.k.info);
    forall k | 0 <= k < |s'.code| ensures InstrOk(s'.code, s'.lasttarget, k) {
      assert InstrOk(s.code, s.lasttarget, k);
    }
    KeepsList(s, s', [], e.t, base);
    KeepsList(s, s', [], e.f, base);
  }

  lemma InvertForm(s: State, j: nat)
    requires KindOk(s.code, VJmp(j)) && FormOk(s.code, s.lasttarget, s.labels)
    ensures FormOk(InvertJump(s, j).code, s.lasttarget, s.labels)
  {}

  /** The three lists of a branch about to be closed: disjoint, and made of emitted jumps. */
  ghost predicate BranchLists(s: State, xs: seq<nat>, js: seq<nat>, ys: seq<nat>, base: nat) {
    && Wf(s) && ListOk(s, xs, base) && ListOk(s, ys, base) && Disjoint(xs, ys)
    && ListOk(s, js, base) && Disjoint(js, xs) && Disjoint(js, ys)
  }

  /** The jump taken on the outcome that ends the operand joins list `xs`; list `ys` ends here. */
  lemma CloseBranchOk(s: State, xs: seq<nat>, js: seq<nat>, ys: seq<nat>, base: nat)
    requires BranchLists(s, xs, js, ys, base) && !PatchToHere(Link(s, xs, js), ys).err
    ensures
      var s' := PatchToHere(Link(s, xs, js), ys);
      && Wf(s') && Evolves(s, s', ys, base) && ListOk(s', xs + js, base)
      && s' == s.(lasttarget := |s.code|, jpc := s.jpc + ys)
  {
    DistinctConcat(xs, js);
    PatchToHereOk(s, ys);
  }

  lemma LeaveIfFalseOk(s: State, e: Exp, base: nat, r0: nat)
    requires ExpOk(s, e, base, r0) && !e.k.VLocal? && !LeaveIfFalse(s, e).0.err
    ensures
      var (s', e', js) := LeaveIfFalse(s, e);
      BranchLists(s', e.f, js, e.t, base) && Evolves(s, s', [], base) && s'.freereg == r0
  {
    hide CodeOk, PoolOk, FormOk, JumpOnCond;
    if e.k.VJmp? { InvertJumpOk(s, e, base); }
    else if !AlwaysTrue(e.k) { JumpOnCondOk(s, e, false, base, r0); }
  }

  lemma LeaveIfTrueOk(s: State, e: Exp, base: nat, r0: nat)
    requires ExpOk(s, e, base, r0) && !e.k.VLocal? && !LeaveIfTrue(s, e).0.err
    ensures
      var (s', e', js) := LeaveIfTrue(s, e);
      BranchLists(s', e.t, js, e.f, base) && Evolves(s, s', [], base) && s'.freereg == r0
  {
    hide CodeOk, PoolOk, FormOk, JumpOnCond;
    if !e.k.VJmp? && !AlwaysFalse(e.k) { JumpOnCondOk(s, e, true, base, r0); }
  }

  lemma GoIfTrueOk(s: State, e: Exp, base: nat, r0: nat)
    requires ExpOk(s, e, base, r0) && !GoIfTrue(s, e).0.err
    ensures
      var (s', e') := GoIfTrue(s, e);
      && Wf(s') && Evolves(s, s', Own(e), base) && s'.freereg == r0 && s'.lasttarget == |s'.code|
      && ListOk(s', e'.f, base) && e'.t == []
  {
    hide CodeOk, PoolOk, FormOk, LeaveIfFalse, PatchToHere;
    var e0 := DischargeVars(e);
    assert ExpOk(s, e0, base, r0);
    var (s1, e1, js) := LeaveIfFalse(s, e0);
    LeaveIfFalseOk(s, e0, base, r0);
    CloseBranchOk(s1, e.f, js, e.t, base);
    KeepsBoth(s, s1, GoIfTrue(s, e).0, Own(e), e.t);
  }

  lemma GoIfFalseOk(s: State, e: Exp, base: nat, r0: nat)
    requires ExpOk(s, e, base, r0) && !GoIfFalse(s, e).0.err
    ensures
      var (s', e') := GoIfFalse(s, e);
      && Wf(s') && Evolves(s, s', Own(e), base) && s'.freereg == r0 && s'.lasttarget == |s'.code|
      && ListOk(s', e'.t, base) && e'.f == []
  {
    hide CodeOk, PoolOk, FormOk, LeaveIfTrue, PatchToHere;
    var e0 := DischargeVars(e);
    assert ExpOk(s, e0, base, r0);
    var (s1, e1, js) := LeaveIfTrue(s, e0);
    LeaveIfTrueOk(s, e0, base, r0);
    CloseBranchOk(s1, e.t, js, e.f, base);
    KeepsBoth(s, s1, GoIfFalse(s, e).0, Own(e), e.f);
  }

  lemma NotInRegOk(s: State, e: Exp, base: nat, r0: nat)
    requires ExpOk(s, e, base, r0) && (e.k.VReloc? || e.k.VNonReloc?) && !NotInReg(s, e).0.err
    ensures
      var (s', e') := NotInReg(s, e);
      ExpOk(s', e', base, r0) && Evolves(s, s', [], base)
  {
    hide PoolOk, FormOk, Patch, PatchAt, Discharge2AnyReg, Distinct;
    var (s1, e1) := Discharge2AnyReg(s, e);
    Discharge2AnyRegOk(s, e, base, r0);
    FreeExpOk(s1, e1, r0);
    var s2 := FreeExp(s1, e1);
    EmitOk(s2, Not(0, e1.k.info));
    var s' := NotInReg(s, e).0;
    KeepsBoth(s, s1, s', [], []);
    KeepsList(s, s', [], e.t, base);
    KeepsList(s, s', [], e.f, base);
  }

  lemma NotValueOk(s: State, e: Exp, base: nat, r0: nat)
    requires ExpOk(s, e, base, r0) && !NotValue(s, e).0.err
    ensures
      var (s', e') := NotValue(s, e);
      ExpOk(s', e', base, r0) && Evolves(s, s', [], base)
  {
    hide CodeOk, PoolOk, FormOk, NotInReg;
    var e0 := DischargeVars(e);
    assert ExpOk(s, e0, base, r0);
    if e0.k.VJmp? { InvertJumpOk(s, e0, base); }
    else if e0.k.VReloc? || e0.k.VNonReloc? { NotInRegOk(s, e0, base, r0); }
  }

  lemma RemoveValuesOk(s: State, nodes: seq<nat>)
    requires Wf(s) && Pending(s.code, nodes) && Disjoint(nodes, s.jpc)
    ensures
      var s' := s.(code := RemoveValues(s.code, nodes));
      Wf(s') && Keeps(s, s', nodes)
  {
    hide CodeOk, PoolOk, FormOk;
    RemoveValuesShape(s.code, nodes, s.lasttarget);
    RemoveValuesForm(s.code, nodes, s.lasttarget, s.labels);
  }

  lemma RemoveValuesForm(code: seq<Instr>, nodes: seq<nat>, target: nat, labels: set<nat>)
    requires FormOk(code, target, labels)
    ensures FormOk(RemoveValues(code, nodes), target, labels)
  {}

  lemma RemoveValuesShape(code: seq<Instr>, nodes: seq<nat>, target: nat)
    requires CodeOk(code, target)
    ensures CodeOk(RemoveValues(code, nodes), target)
  {
    hide RemoveValues;
    var code' := RemoveValues(code, nodes);
    assert forall i :: 0 <= i < |code| ==> code'[i] == code[i] || (code'[i].Test? && code[i].TestSet?);
    forall k | 0 <= k < |code'| ensures InstrOk(code', target, k) {
      assert InstrOk(code, target, k);
    }
  }

  lemma CodeNotOk(s: State, e: Exp, base: nat, r0: nat)
    requires ExpOk(s, e, base, r0) && !CodeNot(s, e).0.err
    ensures
      var (s', e') := CodeNot(s, e);
      ExpOk(s', e', base, r0) && Evolves(s, s', Own(e), base)
  {
    hide ExpOk, Wf, NotValue, RemoveValues, Own, SameControl;
    NotOwn(s, e, base, r0);
    var (s1, e1) := NotValue(s, e);
    NotValueOk(s, e, base, r0);
    StrippedOk(s1, e1, base, r0);
    KeepsBoth(s, s1, CodeNot(s, e).0, Own(e), e1.t + e1.f);
  }

  lemma NotOwn(s: State, e: Exp, base: nat, r0: nat)
    requires ExpOk(s, e, base, r0)
    ensures KindOk(s.code, e.k)
    ensures var e1 := NotValue(s, e).1; e1.t == e.t && e1.f == e.f
    ensures forall j :: j in e.t + e.f ==> j in Own(e)
  {}

  /** An expression whose lists have lost their values, and are exchanged. */
  lemma StrippedOk(s: State, e: Exp, base: nat, r0: nat)
    requires ExpOk(s, e, base, r0)
    ensures
      var s' := s.(code := RemoveValues(RemoveValues(s.code, e.t), e.f));
      ExpOk(s', Exp(e.k, e.f, e.t), base, r0) && Keeps(s, s', e.t + e.f)
  {
    hide CodeOk, PoolOk, FormOk, RemoveValues, Distinct, PatchTest;
    RemoveValuesOk(s, e.t);
    var s2 := s.(code := RemoveValues(s.code, e.t));
    RemoveValuesOk(s2, e.f);
    var s' := s.(code := RemoveValues(s2.code, e.f));
    forall j: nat | Foreign(s, e.t + e.f, j) ensures Foreign(s, e.t, j) && Foreign(s2, e.f, j) {
      assert Foreign(s, e.t, j);
    }
  }

  // ----- operators -----

  /** A left operand waiting for the right one. */
  predicate Kept(s: State, e: Exp, r0: nat) {
    && !HasJumps(e) && s.nactvar <= r0
    && match e.k
       case VK(i) => i < |s.pool.k| && i <= MAXINDEXRK
       case VKNum(_) => true
       case VNonReloc(i) => i < s.nactvar || i == r0
       case _ => false
  }

  /** The first register free for the right operand. */
  function RegsAfter(s: State, k: Kind, r0: nat): nat { if InTemp(s, k) then r0 + 1 else r0 }

  /** The temporaries of two operands, the one of `below` taken first. */
  predicate Stacked(s: State, below: Exp, above: Exp, r0: nat) {
    Taken(s, above.k, RegsAfter(s, below.k, r0)) && (InTemp(s, below.k) ==> below.k.info == r0)
  }

  /** Whatever order the operands were put into registers, they are freed last one first. */
  lemma FreeExpsOk(s: State, e1: Exp, e2: Exp, r0: nat)
    requires Wf(s) && IsOperand(e1) && IsOperand(e2) && s.nactvar <= r0
    requires Stacked(s, e1, e2, r0) || Stacked(s, e2, e1, r0)
    ensures
      var o1, o2 := OperandOf(e1), OperandOf(e2);
      && FreeExps(s, e1, o1, e2, o2) == s.(freereg := r0)
      && (if o1 > o2 then LastTaken(s, e1) && LastTaken(FreeExp(s, e1), e2)
          else LastTaken(s, e2) && LastTaken(FreeExp(s, e2), e1))
  {}

  /** Both operands of an arithmetic operator, the right one put in place first. */
  lemma OperandsOk(s: State, e1: Exp, e2: Exp, base2: nat, r0: nat)
    requires (IsOperand(e1) || IsNumeral(e1)) && Kept(s, e1, r0)
    requires ExpOk(s, e2, base2, RegsAfter(s, e1.k, r0))
    requires var s1 := Exp2RK(s, e2).0; !Exp2RK(s1, e1).0.err
    ensures
      var (s1, e2', o2) := Exp2RK(s, e2);
      var (s2, e1', o1) := Exp2RK(s1, e1);
      && Wf(s2) && Evolves(s, s2, Own(e2), base2) && s2.nactvar <= r0
      && (Stacked(s2, e1', e2', r0) || Stacked(s2, e2', e1', r0))
  {
    hide CodeOk, PoolOk, FormOk, Patch, PatchAt, Exp2RK;
    var (s1, e2', o2) := Exp2RK(s, e2);
    var (s2, e1', o1) := Exp2RK(s1, e1);
    Exp2RKOk(s, e2, base2, RegsAfter(s, e1.k, r0));
    if !IsOperand(e1) {
      assert ExpOk(s1, e1, base2, s1.freereg);
      Exp2RKOk(s1, e1, base2, s1.freereg);
      KeepsBoth(s, s1, s2, Own(e2), Own(e1));
    } else {
      OperandKeeps(s1, e1);
    }
  }

  lemma CodeArithOk(P: Prims, s: State, op: ArithOp, e1: Exp, e2: Exp, base: nat, base2: nat, r0: nat)
    requires (IsOperand(e1) || IsNumeral(e1)) && Kept(s, e1, r0) && base <= base2
    requires ExpOk(s, e2, base2, RegsAfter(s, e1.k, r0)) && !CodeArith(P, s, op, e1, e2).0.err
    ensures
      var (s', e') := CodeArith(P, s, op, e1, e2);
      ExpOk(s', e', base, r0) && Evolves(s, s', Own(e2), base)
  {
    hide CodeOk, PoolOk, FormOk, Patch, Exp2RK, Stacked, FreeExps, Emit, Keeps;
    var (s', e') := CodeArith(P, s, op, e1, e2);
    EmptyLists(s', e', base);
    if !Folds(op, e1, e2) {
      var (s1, e2', o2) := Exp2RK(s, e2);
      var (s2, e1', o1) := Exp2RK(s1, e1);
      var s3 := FreeExps(s2, e1', o1, e2', o2);
      OperandsOk(s, e1, e2, base2, r0);
      FreeExpsOk(s2, e1', e2', r0);
      EmitOk(s3, Arith(op, 0, o1, o2));
      EmitAdds(s3, Arith(op, 0, o1, o2));
      KeepsFreed(s2, s3, s');
      KeepsBoth(s, s2, s', Own(e2), []);
    } else { KeepsSame(s, Own(e2)); }
  }

  lemma CodeUnaryOk(s: State, len: bool, e: Exp, base: nat, r0: nat)
    requires ExpOk(s, e, base, r0) && !CodeUnary(s, len, e).0.err
    ensures
      var (s', e') := CodeUnary(s, len, e);
      ExpOk(s', e', base, r0) && Evolves(s, s', Own(e), base)
  {
    hide CodeOk, PoolOk, FormOk, Patch, PatchAt, Exp2AnyReg;
    var (s1, e1) := Exp2AnyReg(s, e);
    Exp2AnyRegOk(s, e, base, r0);
    OperandKeeps(s1, e1);
    FreeExpOk(s1, e1, r0);
    var s3 := FreeExp(s1, e1);
    EmitOk(s3, if len then Len(0, e1.k.info) else Unm(0, e1.k.info));
    KeepsBoth(s, s1, CodeUnary(s, len, e).0, Own(e), []);
  }

  lemma EmittedCompOk(s: State, i: Instr, base: nat)
    requires Wf(s) && i.Cmp? && Encodable(i) && base <= |s.code| && !CondJump(s, i).0.err
    ensures
      var (s', js) := CondJump(s, i);
      ExpOk(s', Exp(VJmp(js[0]), [], []), base, s.freereg) && Keeps(s, s', []) && Evolves(s, s', [], base)
  {
    hide PoolOk, FormOk, Patch;
    CondJumpOk(s, i);
  }

  /** Both operands of a comparison, put in place and freed again. */
  lemma CompOperandsOk(s: State, e1: Exp, e2: Exp, base2: nat, r0: nat)
    requires IsOperand(e1) && Kept(s, e1, r0)
    requires ExpOk(s, e2, base2, RegsAfter(s, e1.k, r0)) && !Exp2RK(s, e2).0.err
    ensures
      var (s2, e2', o2) := Exp2RK(s, e2);
      var s4 := FreeExp(FreeExp(s2, e2'), e1);
      && Wf(s4) && s4 == s2.(freereg := r0) && Evolves(s, s2, Own(e2), base2)
      && IsRk(OperandOf(e1)) && IsRk(o2)
  {
    hide CodeOk, PoolOk, FormOk, Exp2RK, Keeps, ListOk;
    var (s2, e2', o2) := Exp2RK(s, e2);
    Exp2RKOk(s, e2, base2, RegsAfter(s, e1.k, r0));
    FreeExpOk(s2, e2', RegsAfter(s, e1.k, r0));
    FreeExpOk(FreeExp(s2, e2'), e1, r0);
  }

  lemma CodeCompOk(s: State, op: CmpOp, cond: bool, e1: Exp, e2: Exp, base: nat, base2: nat, r0: nat)
    requires IsOperand(e1) && Kept(s, e1, r0) && base <= base2
    requires ExpOk(s, e2, base2, RegsAfter(s, e1.k, r0)) && !CodeComp(s, op, cond, e1, e2).0.err
    ensures
      var (s', e') := CodeComp(s, op, cond, e1, e2);
      ExpOk(s', e', base, r0) && Evolves(s, s', Own(e2), base)
  {
    hide Wf, ExpOk, Exp2RK, Keeps, CondJump, Kept, FreeExp, Own;
    ExpPlace(s, e2, base2, RegsAfter(s, e1.k, r0));
    var (s2, e2', o2) := Exp2RK(s, e2);
    OperandKeeps(s, e1);
    CompOperandsOk(s, e1, e2, base2, r0);
    var s4 := FreeExp(FreeExp(s2, e2'), e1);
    EmittedCompOk(s4, CompInstr(op, cond, OperandOf(e1), o2), base);
    var s' := CodeComp(s, op, cond, e1, e2).0;
    KeepsFreed(s2, s4, s');
    KeepsBoth(s, s2, s', Own(e2), []);
  }

  /** The assertion in luaK_posfix: the operands of a waiting concatenation start right above the
      left operand. */
  lemma ConcatFollows(s: State, e2: Exp, base2: nat, r0: nat)
    requires ExpOk(s, e2, base2, r0 + 1) && !Exp2Val(s, e2).0.err
    ensures
      var (s1, e2') := Exp2Val(s, e2);
      ConcatAt(s1.code, e2'.k) ==> r0 == s1.code[e2'.k.info].b - 1
  {
    hide CodeOk, PoolOk, FormOk, ListOk;
    Exp2ValOk(s, e2, base2, r0 + 1);
  }

  lemma OwnVal(s: State, e: Exp)
    requires KindOk(s.code, e.k)
    ensures forall j :: j in Own(Exp2Val(s, e).1) ==> j in Own(e)
  {}

  lemma EmptyLists(s: State, e: Exp, base: nat)
    requires !HasJumps(e)
    ensures ListsOk(s, e, base)
  {}

  lemma WidenConcatOk(s: State, i: nat, b: nat, base: nat)
    requires Wf(s) && i + 1 == |s.code| && s.code[i].Concat? && IsReg(b)
    ensures var s' := WidenConcat(s, i, b); Wf(s') && Keeps(s, s', [])
  {
    var s' := WidenConcat(s, i, b);
    forall k | 0 <= k < |s'.code| ensures InstrOk(s'.code, s'.lasttarget, k) {
      assert InstrOk(s.code, s.lasttarget, k);
    }
  }

  lemma CodeConcatOk(s: State, e1: Exp, e2: Exp, base: nat, base2: nat, r0: nat)
    requires OnTop(s, e1, r0) && base <= base2 && ExpOk(s, e2, base2, r0 + 1) && !CodeConcat(s, e1, e2).0.err
    ensures
      var (s', e') := CodeConcat(s, e1, e2);
      ExpOk(s', e', base, r0) && Evolves(s, s', Own(e2), base)
  {
    hide Wf, Exp2Val, Exp2NextReg, ListOk, ExpOk, Keeps, WidenConcat, FreeExps, FreeExp, Emit;
    ExpPlace(s, e2, base2, r0 + 1);
    var (s1, e2') := Exp2Val(s, e2);
    Exp2ValOk(s, e2, base2, r0 + 1);
    var s' := CodeConcat(s, e1, e2).0;
    if ConcatAt(s1.code, e2'.k) {
      ConcatFollows(s, e2, base2, r0);
      MergedConcatOk(s1, e1, e2', base2, r0);
      JoinEvolves(s, s1, s', e2, [], base, base2);
    } else {
      EmittedConcatOk(s1, e1, e2', base2, r0);
      OwnVal(s, e2);
      JoinEvolves(s, s1, s', e2, Own(e2'), base, base2);
    }
    ExpSooner(s', CodeConcat(s, e1, e2).1, base, base2, r0);
  }

  lemma ExpPlace(s: State, e: Exp, base: nat, r0: nat)
    requires ExpOk(s, e, base, r0)
    ensures KindOk(s.code, e.k) && base <= |s.code|
  {}

  lemma ExpSooner(s: State, e: Exp, base: nat, base2: nat, r0: nat)
    requires ExpOk(s, e, base2, r0) && base <= base2
    ensures ExpOk(s, e, base, r0)
  {
    hide CodeOk, PoolOk, FormOk;
  }

  lemma JoinEvolves(s: State, s1: State, s': State, e2: Exp, own: seq<nat>, base: nat, base2: nat)
    requires Evolves(s, s1, Own(e2), base2) && Evolves(s1, s', own, base2) && base <= base2 <= |s.code|
    requires forall j :: j in own ==> j in Own(e2)
    ensures Evolves(s, s', Own(e2), base)
  {
    KeepsBoth(s, s1, s', Own(e2), own);
  }

  lemma MergedConcatOk(s: State, e1: Exp, e2: Exp, base: nat, r0: nat)
    requires OnTop(s, e1, r0) && ExpOk(s, e2, base, r0 + 1) && ConcatAt(s.code, e2.k)
    ensures
      var s' := WidenConcat(FreeExp(s, e1), e2.k.info, r0);
      ExpOk(s', Exp(e2.k, [], []), base, r0) && Evolves(s, s', [], base)
  {
    hide CodeOk, PoolOk, FormOk, ListOk;
    var s1 := FreeExp(s, e1);
    var s' := WidenConcat(s1, e2.k.info, r0);
    FreeExpOk(s, e1, r0);
    WidenConcatOk(s1, e2.k.info, r0, base);
    KeepsFreed(s, s1, s');
    EmptyLists(s', Exp(e2.k, [], []), base);
  }

  lemma EmittedConcatOk(s: State, e1: Exp, e2: Exp, base: nat, r0: nat)
    requires OnTop(s, e1, r0) && ExpOk(s, e2, base, r0 + 1)
    requires
      var (s2, e3) := Exp2NextReg(s, e2);
      !Emit(FreeExps(s2, e1, r0, e3, e3.k.info), Concat(0, r0, e3.k.info)).err
    ensures
      var (s2, e3) := Exp2NextReg(s, e2);
      var s3 := FreeExps(s2, e1, r0, e3, e3.k.info);
      var s' := Emit(s3, Concat(0, r0, e3.k.info));
      && e3.k == VNonReloc(r0 + 1)
      && ExpOk(s', Exp(VReloc(|s3.code|), [], []), base, r0) && Evolves(s, s', Own(e2), base)
  {
    hide CodeOk, PoolOk, FormOk, Patch, PatchAt, Exp2NextReg, ListOk, Emit;
    var (s2, e3) := Exp2NextReg(s, e2);
    Exp2NextRegOk(s, e2, base, r0 + 1);
    FreeExpsOk(s2, e1, e3, r0);
    var s3 := FreeExps(s2, e1, r0, e3, r0 + 1);
    var s' := Emit(s3, Concat(0, r0, r0 + 1));
    EmitOk(s3, Concat(0, r0, r0 + 1));
    EmitAdds(s3, Concat(0, r0, r0 + 1));
    KeepsFreed(s2, s3, s');
    KeepsBoth(s, s2, s', Own(e2), []);
    EmptyLists(s', Exp(VReloc(|s3.code|), [], []), base);
  }

  lemma EmitAdds(s: State, i: Instr)
    ensures var s' := Emit(s, i); s' == s.(code := s'.code, jpc := [], err := s'.err) && s'.code[|s.code|] == i
  {}

  lemma KeepsFreed(s: State, s1: State, s': State)
    requires s1.code == s.code && s1.jpc == s.jpc && Keeps(s1, s', [])
    ensures Keeps(s, s', [])
  {
    assert forall j: nat :: Foreign(s, [], j) ==> Foreign(s1, [], j);
  }

  lemma PrefixOk(P: Prims, s: State, op: UnOp, e: Exp, base: nat, r0: nat)
    requires ExpOk(s, e, base, r0) && !Prefix(P, s, op, e).0.err
    ensures
      var (s', e') := Prefix(P, s, op, e);
      ExpOk(s', e', base, r0) && Evolves(s, s', Own(e), base)
  {
    hide CodeOk, PoolOk, FormOk, Patch, PatchAt;
    match op
    case OpNeg => if !IsNumeral(e) { CodeUnaryOk(s, false, e, base, r0); }
    case OpNot => CodeNotOk(s, e, base, r0);
    case OpLen => CodeUnaryOk(s, true, e, base, r0);
  }

  /** The left operand of a concatenation is in the first temporary. */
  predicate OnTop(s: State, e: Exp, r0: nat) { e == Exp(VNonReloc(r0), [], []) && s.nactvar <= r0 < s.maxstack }

  /** What the left operand of `op` leaves behind for the right one. */
  ghost predicate LeftOk(s: State, op: BinOp, e: Exp, base: nat, r0: nat) {
    && Wf(s) && OperandKept(op, e) && base <= |s.code|
    && match op
       case OpAnd => ListOk(s, e.f, base) && s.freereg == r0
       case OpOr => ListOk(s, e.t, base) && s.freereg == r0
       case OpConcat => OnTop(s, e, r0) && s.freereg == r0 + 1
       case _ => Kept(s, e, r0) && s.freereg == RegsAfter(s, e.k, r0)
  }

  lemma InfixOk(s: State, op: BinOp, e: Exp, base: nat, r0: nat)
    requires ExpOk(s, e, base, r0) && !Infix(s, op, e).0.err
    ensures
      var (s', e') := Infix(s, op, e);
      LeftOk(s', op, e', base, r0) && Evolves(s, s', Own(e), base)
  {
    hide CodeOk, PoolOk, FormOk, GoIfTrue, GoIfFalse, Exp2RK, ListOk;
    match op
    case OpAnd => GoIfTrueOk(s, e, base, r0);
    case OpOr => GoIfFalseOk(s, e, base, r0);
    case OpArith(_) => if !IsNumeral(e) { Exp2RKOk(s, e, base, r0); }
    case OpCmp(_, _) => Exp2RKOk(s, e, base, r0);
    case OpConcat => Exp2NextRegOk(s, e, base, r0);
  }

  /** What compiling the right operand preserves of the left one. */
  lemma LeftKept(s: State, s': State, op: BinOp, e: Exp, base: nat, r0: nat)
    requires LeftOk(s, op, e, base, r0)
    requires Wf(s') && Ext(s, s') && Evolves(s, s', [], |s.code|)
    ensures match op
      case OpAnd => ListOk(s', e.f, base)
      case OpOr => ListOk(s', e.t, base)
      case OpConcat => OnTop(s', e, r0) && s.freereg == r0 + 1
      case _ => Kept(s', e, r0) && s.freereg == RegsAfter(s', e.k, r0)
  {
    match op
    case OpAnd => KeepsList(s, s', [], e.f, base);
    case OpOr => KeepsList(s, s', [], e.t, base);
    case _ =>
  }

  lemma PosfixOk(P: Prims, s: State, op: BinOp, e1: Exp, e2: Exp, base: nat, base2: nat, r0: nat)
    requires OperandKept(op, e1) && base <= base2 && s.nactvar <= r0
    requires match op
      case OpAnd => ExpOk(s, e2, base2, r0) && ListOk(s, e1.f, base) && (forall j :: j in e1.f ==> j < base2)
      case OpOr => ExpOk(s, e2, base2, r0) && ListOk(s, e1.t, base) && (forall j :: j in e1.t ==> j < base2)
      case OpConcat => ExpOk(s, e2, base2, r0 + 1) && OnTop(s, e1, r0)
      case _ => ExpOk(s, e2, base2, RegsAfter(s, e1.k, r0)) && Kept(s, e1, r0)
    requires !Posfix(P, s, op, e1, e2).0.err
    ensures
      var (s', e') := Posfix(P, s, op, e1, e2);
      ExpOk(s', e', base, r0) && Evolves(s, s', Own(e2), base)
  {
    hide CodeOk, PoolOk, FormOk, Patch, PatchAt;
    match op
    case OpAnd => DistinctConcat(e2.f, e1.f);
    case OpOr => DistinctConcat(e2.t, e1.t);
    case OpArith(a) => CodeArithOk(P, s, a, e1, e2, base, base2, r0);
    case OpCmp(c, cond) => CodeCompOk(s, c, cond, e1, e2, base, base2, r0);
    case OpConcat => CodeConcatOk(s, e1, e2, base, base2, r0);
  }
}
