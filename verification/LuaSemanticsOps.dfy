/** The operations on whole expressions keep what the emitted code computes. */
module LuaSemanticsOps {
  import opened Wrappers
  import opened LuaValues
  import opened LuaOpcodes
  import opened LuaVm
  import opened LuaPatch
  import opened LuaConstants
  import opened LuaCode
  import opened LuaShape
  import opened LuaEncoding
  import opened LuaShapeOps
  import opened LuaRuns
  import opened LuaSemantics

  /** From `(s, e)` to `(s', e')` the value computed stays the same, and so does every run that
      leaves through some other expression's list. */
  predicate Tracks(c: Ctx, s: State, e: Exp, s': State, e': Exp, rg1: Regs, v: Value, r0: nat) {
    && (LeavesElsewhere(RunOf(c, s, e.k), e) ==>
          RunOf(c, s', e'.k) == RunOf(c, s, e.k) && LeavesElsewhere(RunOf(c, s, e.k), e'))
    && (Computes(c, s, e, rg1, v, r0) ==> Computes(c, s', e', rg1, v, r0))
  }

  lemma TracksTwice(c: Ctx, s: State, e: Exp, s1: State, e1: Exp, s2: State, e2: Exp, rg1: Regs, v: Value, r0: nat)
    requires Tracks(c, s, e, s1, e1, rg1, v, r0) && Tracks(c, s1, e1, s2, e2, rg1, v, r0)
    ensures Tracks(c, s, e, s2, e2, rg1, v, r0)
  {}

  lemma TracksDischargeVars(c: Ctx, s: State, e: Exp, rg1: Regs, v: Value, r0: nat)
    ensures Tracks(c, s, e, s, DischargeVars(e), rg1, v, r0)
    ensures Own(DischargeVars(e)) == Own(e) && RunOf(c, s, DischargeVars(e).k) == RunOf(c, s, e.k)
  {}

  /** Only the code and the jumps to here matter to a run. */
  lemma TracksSameCode(c: Ctx, s: State, s': State, e: Exp, rg1: Regs, v: Value, r0: nat)
    requires s'.code == s.code && s'.jpc == s.jpc
    ensures Tracks(c, s, e, s', e, rg1, v, r0) && Out(c, s') == Out(c, s)
    ensures RunOf(c, s', e.k) == RunOf(c, s, e.k)
  {}

  /** A delivered value in the first free register, or in its temporary. */
  lemma DeliveredTracks(c: Ctx, s: State, e: Exp, s': State, reg: nat, rg1: Regs, v: Value, r0: nat)
    requires r0 <= reg
    requires LeavesElsewhere(RunOf(c, s, e.k), e) ==> Out(c, s') == RunOf(c, s, e.k)
    requires Computes(c, s, e, rg1, v, r0) ==> Delivers(Out(c, s'), rg1, reg, v, r0)
    ensures Tracks(c, s, e, s', Exp(VNonReloc(reg), [], []), rg1, v, r0)
  {}

  lemma Exp2NextRegRun(c: Ctx, s: State, e: Exp, base: nat, rg1: Regs, v: Value, r0: nat)
    requires Begun(c, s)
    requires ExpOk(s, e, base, r0) && !Exp2NextReg(s, e).0.err
    requires Fits(c, Exp2NextReg(s, e).0) && |rg1| == |c.regs|
    ensures
      var (s', e') := Exp2NextReg(s, e);
      Tracks(c, s, e, s', e', rg1, v, r0)
  {
    hide CodeOk, PoolOk, FormOk, Exp2Reg, Tracks, Computes, Discharge, Run;
    var e1 := DischargeVars(e);
    FreeExpOk(s, e1, r0);
    var s1 := FreeExp(s, e1);
    var s2 := ReserveRegs(s1, 1);
    assert Exp2NextReg(s, e) == Exp2Reg(s2, e1, r0);
    ReserveOk(s1, 1);
    assert ExpAt(s2, e1, base);
    Exp2RegOk(s2, e1, r0, base);
    TracksDischargeVars(c, s, e, rg1, v, r0);
    TracksSameCode(c, s, s2, e1, rg1, v, r0);
    Exp2RegRun(c, s2, e1, r0, base, rg1, v, r0);
    var s' := Exp2Reg(s2, e1, r0).0;
    DeliveredTracks(c, s2, e1, s', r0, rg1, v, r0);
    TracksTwice(c, s, e, s, e1, s2, e1, rg1, v, r0);
    TracksTwice(c, s, e, s2, e1, s', Exp(VNonReloc(r0), [], []), rg1, v, r0);
  }

  lemma Exp2AnyRegRun(c: Ctx, s: State, e: Exp, base: nat, rg1: Regs, v: Value, r0: nat)
    requires Begun(c, s)
    requires ExpOk(s, e, base, r0) && !Exp2AnyReg(s, e).0.err
    requires Fits(c, Exp2AnyReg(s, e).0) && |rg1| == |c.regs|
    ensures
      var (s', e') := Exp2AnyReg(s, e);
      Tracks(c, s, e, s', e', rg1, v, r0)
  {
    hide CodeOk, PoolOk, FormOk, Exp2Reg, Exp2NextReg, Tracks, Computes, Discharge, Run;
    var e1 := DischargeVars(e);
    assert ExpOk(s, e1, base, r0);
    TracksDischargeVars(c, s, e, rg1, v, r0);
    if e1.k.VNonReloc? && !HasJumps(e1) {
    } else if e1.k.VNonReloc? && e1.k.info >= s.nactvar {
      var s' := Exp2Reg(s, e1, r0).0;
      Exp2RegOk(s, e1, r0, base);
      Exp2RegRun(c, s, e1, r0, base, rg1, v, r0);
      DeliveredTracks(c, s, e1, s', r0, rg1, v, r0);
      TracksTwice(c, s, e, s, e1, s', Exp(VNonReloc(r0), [], []), rg1, v, r0);
    } else {
      Exp2NextRegRun(c, s, e1, base, rg1, v, r0);
      var (s', e') := Exp2NextReg(s, e1);
      TracksTwice(c, s, e, s, e1, s', e', rg1, v, r0);
    }
  }

  lemma Exp2ValRun(c: Ctx, s: State, e: Exp, base: nat, rg1: Regs, v: Value, r0: nat)
    requires Begun(c, s)
    requires ExpOk(s, e, base, r0) && !Exp2Val(s, e).0.err
    requires Fits(c, Exp2Val(s, e).0) && |rg1| == |c.regs|
    ensures
      var (s', e') := Exp2Val(s, e);
      Tracks(c, s, e, s', e', rg1, v, r0)
  {
    if HasJumps(e) { Exp2AnyRegRun(c, s, e, base, rg1, v, r0); }
    else { TracksDischargeVars(c, s, e, rg1, v, r0); }
  }

  /** A literal turned into an entry of the constant table. */
  lemma AsConstantRun(c: Ctx, s: State, e: Exp, rg1: Regs, v: Value, r0: nat)
    requires Begun(c, s)
    requires Wf(s) && !AsConstant(s, e).0.err && Fits(c, AsConstant(s, e).0)
    ensures
      var (s', e') := AsConstant(s, e);
      Tracks(c, s, e, s', e', rg1, v, r0)
  {
    if AsConstant(s, e).1.k != e.k { AddConstOk(s, ConstOf(e.k)); }
  }

  lemma ValueRKRun(c: Ctx, s: State, e: Exp, base: nat, rg1: Regs, v: Value, r0: nat)
    requires Begun(c, s)
    requires ExpOk(s, e, base, r0) && !HasJumps(e) && !ValueRK(s, e).0.err
    requires Fits(c, ValueRK(s, e).0) && |rg1| == |c.regs|
    ensures
      var (s', e', rk) := ValueRK(s, e);
      Tracks(c, s, e, s', e', rg1, v, r0)
  {
    hide CodeOk, PoolOk, FormOk, Exp2AnyReg, Tracks, Computes, Discharge, Run, AsConstant;
    var (s', e', rk) := ValueRK(s, e);
    var (s1, e1) := AsConstant(s, e);
    AsConstantOk(s, e, base, r0);
    AsConstantRun(c, s, e, rg1, v, r0);
    if !(e1.k.VK? && e1.k.info <= MAXINDEXRK) {
      Exp2AnyRegRun(c, s1, e1, base, rg1, v, r0);
      TracksTwice(c, s, e, s1, e1, s', e', rg1, v, r0);
    }
  }

  lemma Exp2RKRun(c: Ctx, s: State, e: Exp, base: nat, rg1: Regs, v: Value, r0: nat)
    requires Begun(c, s)
    requires ExpOk(s, e, base, r0) && !Exp2RK(s, e).0.err
    requires Fits(c, Exp2RK(s, e).0) && |rg1| == |c.regs|
    ensures
      var (s', e', rk) := Exp2RK(s, e);
      Tracks(c, s, e, s', e', rg1, v, r0) && IsRk(rk)
  {
    hide CodeOk, PoolOk, FormOk, Exp2Val, ValueRK, Tracks, Computes, Discharge, Run;
    Exp2RKOk(s, e, base, r0);
    var (s1, e1) := Exp2Val(s, e);
    Exp2ValOk(s, e, base, r0);
    Exp2ValRun(c, s, e, base, rg1, v, r0);
    ValueRKRun(c, s1, e1, base, rg1, v, r0);
    var (s', e', rk) := Exp2RK(s, e);
    TracksTwice(c, s, e, s1, e1, s', e', rg1, v, r0);
  }

  // ----- control flow -----

  /** The control-flow contract: the run goes on exactly when the value is `on`; otherwise it
      leaves through a jump of `nodes` that stands for the value. */
  predicate Decides(o: Outcome, code: seq<Instr>, nodes: seq<nat>, rg1: Regs, v: Value, on: bool, r0: nat) {
    match o
    case Fall(rg) => Agree(rg, rg1, r0) && Truthy(v) == on
    case Exit(j, rg) => Agree(rg, rg1, r0) && Truthy(v) != on && j in nodes && ValueAt(code, j, rg, v, !on)
    case _ => false
  }

  /** A constant that decides a condition at compile time is not nil or false. */
  predicate ProperConst(env: Env, k: Kind) {
    k.VK? ==> k.info < |env.K| && Truthy(env.K[k.info])
  }

  /** What jumponcond makes of a value that has been reached. */
  predicate JumpsOn(c: Ctx, o: Outcome, s': State, j: nat, cond: bool, rg: Regs, v: Value, r0: nat) {
    match o
    case Fall(rg') => Truthy(v) != cond && Agree(rg', rg, r0)
    case Exit(j', rg') => Truthy(v) == cond && j' == j && Agree(rg', rg, r0) && ValueAt(s'.code, j, rg', v, cond)
    case _ => false
  }

  /** Testing the operand of a removed OP_NOT the other way round decides on the negation. */
  lemma NotTestDecides(c: Ctx, o: Outcome, s': State, j: nat, b: nat, cond: bool, r0: nat)
    requires !Carries(s'.code, j)
    ensures
      var o' := Branch(c.env, o, Test(b, !cond), j);
      && (Gone(o) ==> o' == o)
      && (o.Fall? ==> match Reg(o.regs, b)
          case Some(x) => JumpsOn(c, o', s', j, cond, o.regs, Bool(!Truthy(x)), r0)
          case None => true)
  {}

  lemma JumpOnNotRun(c: Ctx, s: State, e: Exp, cond: bool, base: nat, r0: nat)
    requires Begun(c, s)
    requires ExpOk(s, e, base, r0) && e.k.VReloc? && s.code[e.k.info].Not?
    requires !JumpOnCond(s, e, cond).0.err
    ensures
      var (s', e', js) := JumpOnCond(s, e, cond);
      var o := RunOf(c, s, e.k);
      && (Gone(o) ==> Out(c, s') == o)
      && (o.Fall? ==> match KindVal(c.env, s.code, e.k, o.regs)
          case Some(v) => JumpsOn(c, Out(c, s'), s', js[0], cond, o.regs, v, r0)
          case None => true)
  {
    hide CodeOk, PoolOk, FormOk, Run, Patch, ListOk, Keeps, JumpsOn, Branch, CondJump, Discharge;
    CutNotOk(s, base);
    var i := e.k.info;
    var s0 := s.(code := s.code[..i]);
    LastFits(s);
    CondJumpOk(s0, Test(s.code[i].b, !cond));
    CondJumpRun(c, s0, Test(s.code[i].b, !cond));
    DischargeOfNoJumps(c, s0);
    NotTestDecides(c, Out(c, s0), JumpOnCond(s, e, cond).0, i + 1, s.code[i].b, cond, r0);
  }

  /** A value moved into some register: its own one, or the first free one. */
  predicate Placed(o: Outcome, o': Outcome, v: Option<Value>, reg: nat, r0: nat) {
    match o
    case Fall(rg) =>
      v.Some? ==> o'.Fall? && Agree(o'.regs, rg, r0) && reg < |o'.regs| && o'.regs[reg] == v.value
    case Stuck => true
    case _ => o' == o
  }

  lemma Discharge2AnyRegRun(c: Ctx, s: State, e: Exp, base: nat, r0: nat)
    requires Begun(c, s)
    requires ExpOk(s, e, base, r0) && !e.k.VJmp? && !e.k.VLocal?
    requires !Discharge2AnyReg(s, e).0.err && Fits(c, Discharge2AnyReg(s, e).0)
    ensures
      var (s', e') := Discharge2AnyReg(s, e);
      var o := RunOf(c, s, e.k);
      e'.k.VNonReloc? && Placed(o, Out(c, s'), KindVal(c.env, s.code, e.k, Fallen(o)), e'.k.info, r0)
  {
    hide CodeOk, PoolOk, FormOk, Discharge, Run, Discharge2Reg, Rhs;
    if !e.k.VNonReloc? {
      var s1 := ReserveRegs(s, 1);
      ReserveOk(s, 1);
      Discharge2RegRun(c, s1, e, s.freereg, base);
      TracksSameCode(c, s, s1, e, c.regs, Nil, r0);
    }
  }

  /** A TESTSET on the register of a value sends it to the jump exactly when its truth is `cond`. */
  lemma TestSetDecides(c: Ctx, o: Outcome, o1: Outcome, s': State, j: nat, r: nat, cond: bool, v: Option<Value>,
      r0: nat)
    requires Placed(o, o1, v, r, r0) && Carries(s'.code, j) && s'.code[j - 1] == TestSet(NO_REG, r, cond)
    ensures
      var o' := Branch(c.env, o1, TestSet(NO_REG, r, cond), j);
      && (Gone(o) ==> o' == o)
      && (o.Fall? && v.Some? ==> JumpsOn(c, o', s', j, cond, o.regs, v.value, r0))
  {}

  lemma JumpOnRegRun(c: Ctx, s: State, e: Exp, cond: bool, base: nat, r0: nat)
    requires Begun(c, s)
    requires ExpOk(s, e, base, r0) && !e.k.VJmp? && !e.k.VLocal? && !(e.k.VReloc? && s.code[e.k.info].Not?)
    requires !JumpOnCond(s, e, cond).0.err && Fits(c, JumpOnCond(s, e, cond).0)
    ensures
      var (s', e', js) := JumpOnCond(s, e, cond);
      var o := RunOf(c, s, e.k);
      && (Gone(o) ==> Out(c, s') == o)
      && (o.Fall? ==> match KindVal(c.env, s.code, e.k, o.regs)
          case Some(v) => JumpsOn(c, Out(c, s'), s', js[0], cond, o.regs, v, r0)
          case None => true)
  {
    hide CodeOk, PoolOk, FormOk, Run, Discharge2AnyReg, Rhs, RunOf, Patch, Discharge, ListOk, Keeps, KindVal, Placed,
      JumpsOn, Branch, Out;
    var (s1, e1) := Discharge2AnyReg(s, e);
    var o := RunOf(c, s, e.k);
    Discharge2AnyRegOk(s, e, base, r0);
    Discharge2AnyRegRun(c, s, e, base, r0);
    FreeExpOk(s1, e1, r0);
    var s2 := FreeExp(s1, e1);
    TracksSameCode(c, s1, s2, e1, c.regs, Nil, r0);
    var i := TestSet(NO_REG, e1.k.info, cond);
    CondJumpOk(s2, i);
    CondJumpRun(c, s2, i);
    var s' := CondJump(s2, i).0;
    assert Carries(s'.code, |s2.code| + 1) && s'.code[|s2.code|] == i;
    var v := KindVal(c.env, s.code, e.k, Fallen(o));
    TestSetDecides(c, o, Out(c, s2), s', |s2.code| + 1, e1.k.info, cond, v, r0);
  }

  lemma JumpOnCondRun(c: Ctx, s: State, e: Exp, cond: bool, base: nat, r0: nat)
    requires Begun(c, s)
    requires ExpOk(s, e, base, r0) && !e.k.VJmp? && !e.k.VLocal?
    requires !JumpOnCond(s, e, cond).0.err && Fits(c, JumpOnCond(s, e, cond).0)
    ensures
      var (s', e', js) := JumpOnCond(s, e, cond);
      var o := RunOf(c, s, e.k);
      && (Gone(o) ==> Out(c, s') == o)
      && (o.Fall? ==> match KindVal(c.env, s.code, e.k, o.regs)
          case Some(v) => JumpsOn(c, Out(c, s'), s', js[0], cond, o.regs, v, r0)
          case None => true)
  {
    if e.k.VReloc? && s.code[e.k.info].Not? { JumpOnNotRun(c, s, e, cond, base, r0); }
    else { JumpOnRegRun(c, s, e, cond, base, r0); }
  }

  /** A decision about to be closed: jumps for the outcome `on` are on `here`, the others on `away`. */
  predicate Deciding(o: Outcome, code: seq<Instr>, away: seq<nat>, here: seq<nat>, rg1: Regs, v: Value, on: bool,
      r0: nat) {
    match o
    case Fall(rg) => Agree(rg, rg1, r0) && Truthy(v) == on
    case Exit(j, rg) =>
      Agree(rg, rg1, r0)
        && (if Truthy(v) == on then j in here else j in away && j !in here && ValueAt(code, j, rg, v, !on))
    case _ => false
  }

  /** The last step of goiftrue and goiffalse: one list ends here, the new jump joins the other. */
  lemma CloseBranchRun(c: Ctx, s: State, xs: seq<nat>, js: seq<nat>, ys: seq<nat>, base: nat, rg1: Regs, v: Value,
      on: bool, r0: nat)
    requires Begun(c, s)
    requires BranchLists(s, xs, js, ys, base) && !PatchToHere(Link(s, xs, js), ys).err
    ensures
      var s' := PatchToHere(Link(s, xs, js), ys);
      && ((Out(c, s).Exit? && Out(c, s).node !in ys) || Out(c, s).Returned? || Out(c, s).Back? ==>
            Out(c, s') == Out(c, s))
      && (Deciding(Out(c, s), s.code, xs + js, ys, rg1, v, on, r0) ==>
            Decides(Out(c, s'), s'.code, xs + js, rg1, v, on, r0))
  {
    hide CodeOk, PoolOk, FormOk, Run, Patch, Discharge;
    CloseBranchOk(s, xs, js, ys, base);
    assert Out(c, Link(s, xs, js)) == Out(c, s);
    PatchToHereRun(c, Link(s, xs, js), ys);
  }

  /** invertjump swaps the two ways out of the comparison, and nothing else. */
  lemma InvertJumpRun(c: Ctx, s: State, e: Exp, base: nat)
    requires Begun(c, s)
    requires ExpAt(s, e, base) && e.k.VJmp?
    ensures Out(c, InvertJump(s, e.k.info)) ==
      match Out(c, s)
      case Fall(rg) => Exit(e.k.info, rg)
      case Exit(j, rg) => if j == e.k.info then Fall(rg) else Exit(j, rg)
      case o => o
  {
    hide CodeOk, PoolOk, FormOk, Patch, PatchAt, Discharge, Run, StepAt, ListOk;
    var j := e.k.info;
    var s' := InvertJump(s, j);
    var m := j - 1;
    var before := s.code[..m];
    Starts(c, s);
    CutOk(s.code, s.lasttarget, m);
    DischargeOfNoJumps(c, s);
    DischargeOfNoJumps(c, s');
    InvertedCode(s, j);
    RunAppend(c, before, [s.code[m], Jmp(OPEN)], s.lasttarget);
    RunAppend(c, before, [s'.code[m], Jmp(OPEN)], s.lasttarget);
    match Run(c, before)
    case Fall(rg) => InvertedTest(c.env, before, s.code[m], s'.code[m], rg);
    case _ =>
  }

  lemma InvertedCode(s: State, j: nat)
    requires KindOk(s.code, VJmp(j)) && s.code[j] == Jmp(OPEN)
    ensures
      var s' := InvertJump(s, j);
      var m := j - 1;
      && s.code == s.code[..m] + [s.code[m], Jmp(OPEN)]
      && s'.code == s.code[..m] + [s'.code[m], Jmp(OPEN)]
      && s'.code[m] == s.code[m].(cond := !s.code[m].cond)
  {}

  lemma InvertedTest(env: Env, before: seq<Instr>, i: Instr, i': Instr, rg: Regs)
    requires i.Cmp? && i' == i.(cond := !i.cond)
    ensures
      var m := |before|;
      Exec(env, before + [i', Jmp(OPEN)], m, rg) ==
        match Exec(env, before + [i, Jmp(OPEN)], m, rg)
        case Fall(rg') => Exit(m + 1, rg')
        case Exit(j, rg') => if j == m + 1 then Fall(rg') else Exit(j, rg')
        case o => o
  {
    hide Exec;
    TestStep(env, before, i, rg);
    TestStep(env, before, i', rg);
  }

  /** The jump of goiftrue divides the runs by the value of the expression. */
  /** A jump on the value, added to the list of jumps that decide on it. */
  lemma JumpDecides(c: Ctx, s: State, e: Exp, s': State, j: nat, on: bool, rg1: Regs, v: Value, r0: nat)
    requires !e.k.VJmp? && Disjoint(e.t, e.f) && j !in e.t && j !in e.f
    requires forall i :: i in e.t || i in e.f ==> SameControl(s.code, s'.code, i)
    requires
      var o := RunOf(c, s, e.k);
      && (Gone(o) ==> Out(c, s') == o)
      && (o.Fall? ==> match KindVal(c.env, s.code, e.k, o.regs)
          case Some(x) => JumpsOn(c, Out(c, s'), s', j, !on, o.regs, x, r0)
          case None => true)
    requires Computes(c, s, e, rg1, v, r0)
    ensures
      var away, here := if on then e.f else e.t, if on then e.t else e.f;
      Deciding(Out(c, s'), s'.code, away + [j], here, rg1, v, on, r0)
  {
    hide Out, RunOf, KindVal;
  }

  lemma LeaveByJumpRun(c: Ctx, s: State, e: Exp, on: bool, base: nat, rg1: Regs, v: Value, r0: nat)
    requires Begun(c, s)
    requires ExpOk(s, e, base, r0) && !e.k.VLocal? && !e.k.VJmp?
    requires !JumpOnCond(s, e, !on).0.err && Fits(c, JumpOnCond(s, e, !on).0)
    ensures
      var (s', e', js) := JumpOnCond(s, e, !on);
      && (LeavesElsewhere(RunOf(c, s, e.k), e) ==> Out(c, s') == RunOf(c, s, e.k))
      && (Computes(c, s, e, rg1, v, r0) ==>
            Deciding(Out(c, s'), s'.code, (if on then e.f else e.t) + js, if on then e.t else e.f, rg1, v, on, r0))
  {
    hide CodeOk, PoolOk, FormOk, Out, RunOf, JumpOnCond, Computes, Deciding, KindVal, JumpsOn;
    var (s', e', js) := JumpOnCond(s, e, !on);
    JumpOnCondOk(s, e, !on, base, r0);
    JumpOnCondRun(c, s, e, !on, base, r0);
    KeepsList(s, s', [], e.t, base);
    KeepsList(s, s', [], e.f, base);
    assert js == [js[0]];
    if Computes(c, s, e, rg1, v, r0) { JumpDecides(c, s, e, s', js[0], on, rg1, v, r0); }
  }

  lemma LeaveIfFalseRun(c: Ctx, s: State, e: Exp, base: nat, rg1: Regs, v: Value, r0: nat)
    requires Begun(c, s)
    requires ExpOk(s, e, base, r0) && !e.k.VLocal? && ProperConst(c.env, e.k)
    requires !LeaveIfFalse(s, e).0.err && Fits(c, LeaveIfFalse(s, e).0)
    ensures
      var (s', e', js) := LeaveIfFalse(s, e);
      && (LeavesElsewhere(RunOf(c, s, e.k), e) ==> Out(c, s') == RunOf(c, s, e.k))
      && (Computes(c, s, e, rg1, v, r0) ==> Deciding(Out(c, s'), s'.code, e.f + js, e.t, rg1, v, true, r0))
  {
    hide CodeOk, PoolOk, FormOk, Run, Patch, Discharge, JumpOnCond;
    if e.k.VJmp? {
      InvertJumpOk(s, e, base);
      InvertJumpRun(c, s, e, base);
      KeepsList(s, InvertJump(s, e.k.info), [], e.f, base);
    } else if !AlwaysTrue(e.k) {
      LeaveByJumpRun(c, s, e, true, base, rg1, v, r0);
    }
  }

  lemma LeaveIfTrueRun(c: Ctx, s: State, e: Exp, base: nat, rg1: Regs, v: Value, r0: nat)
    requires Begun(c, s)
    requires ExpOk(s, e, base, r0) && !e.k.VLocal?
    requires !LeaveIfTrue(s, e).0.err && Fits(c, LeaveIfTrue(s, e).0)
    ensures
      var (s', e', js) := LeaveIfTrue(s, e);
      && (LeavesElsewhere(RunOf(c, s, e.k), e) ==> Out(c, s') == RunOf(c, s, e.k))
      && (Computes(c, s, e, rg1, v, r0) ==> Deciding(Out(c, s'), s'.code, e.t + js, e.f, rg1, v, false, r0))
  {
    hide CodeOk, PoolOk, FormOk, Run, Patch, Discharge, JumpOnCond;
    if !e.k.VJmp? && !AlwaysFalse(e.k) { LeaveByJumpRun(c, s, e, false, base, rg1, v, r0); }
  }

  /** goiftrue: the run falls through exactly when the value is true, and otherwise leaves
      through the `f` list with the value or with false. */
  lemma GoIfTrueRun(c: Ctx, s: State, e: Exp, base: nat, rg1: Regs, v: Value, r0: nat)
    requires Begun(c, s)
    requires ExpOk(s, e, base, r0) && ProperConst(c.env, e.k)
    requires !GoIfTrue(s, e).0.err && Fits(c, GoIfTrue(s, e).0)
    ensures
      var (s', e') := GoIfTrue(s, e);
      && (LeavesElsewhere(RunOf(c, s, e.k), e) ==> Out(c, s') == RunOf(c, s, e.k))
      && (Computes(c, s, e, rg1, v, r0) ==> Decides(Out(c, s'), s'.code, e'.f, rg1, v, true, r0))
  {
    hide CodeOk, PoolOk, FormOk, Run, Discharge, LeaveIfFalse, PatchToHere, Computes, Deciding, Decides, RunOf;
    var e0 := DischargeVars(e);
    TracksDischargeVars(c, s, e, rg1, v, r0);
    assert ExpOk(s, e0, base, r0);
    var (s1, e1, js) := LeaveIfFalse(s, e0);
    LeaveIfFalseOk(s, e0, base, r0);
    LeaveIfFalseRun(c, s, e0, base, rg1, v, r0);
    CloseBranchRun(c, s1, e.f, js, e.t, base, rg1, v, true, r0);
  }

  /** goiffalse: the mirror image, through the `t` list. */
  lemma GoIfFalseRun(c: Ctx, s: State, e: Exp, base: nat, rg1: Regs, v: Value, r0: nat)
    requires Begun(c, s)
    requires ExpOk(s, e, base, r0)
    requires !GoIfFalse(s, e).0.err && Fits(c, GoIfFalse(s, e).0)
    ensures
      var (s', e') := GoIfFalse(s, e);
      && (LeavesElsewhere(RunOf(c, s, e.k), e) ==> Out(c, s') == RunOf(c, s, e.k))
      && (Computes(c, s, e, rg1, v, r0) ==> Decides(Out(c, s'), s'.code, e'.t, rg1, v, false, r0))
  {
    hide CodeOk, PoolOk, FormOk, Run, Discharge, LeaveIfTrue, PatchToHere, Computes, Deciding, Decides, RunOf;
    var e0 := DischargeVars(e);
    TracksDischargeVars(c, s, e, rg1, v, r0);
    assert ExpOk(s, e0, base, r0);
    var (s1, e1, js) := LeaveIfTrue(s, e0);
    LeaveIfTrueOk(s, e0, base, r0);
    LeaveIfTrueRun(c, s, e0, base, rg1, v, r0);
    CloseBranchRun(c, s1, e.t, js, e.f, base, rg1, v, false, r0);
  }

  // ----- not -----

  lemma RemoveValuesStep(env: Env, code: seq<Instr>, nodes: seq<nat>, q: nat, rg: Regs)
    requires Pending(code, nodes) && q < |code|
    ensures StepAt(env, RemoveValues(code, nodes), q, rg) == StepAt(env, code, q, rg)
  {
    hide Rhs, Rk, Scratch;
    var code' := RemoveValues(code, nodes);
    assert q + 1 < |code| ==>
        && code'[q + 1].Jmp? == code[q + 1].Jmp?
        && (code[q + 1].Jmp? || code[q + 1].ExtraArg? ==> code'[q + 1] == code[q + 1]);
    if code[q].IsTest() {
      assert code'[q] == code[q] || (code[q].TestSet? && code'[q] == Test(code[q].b, code[q].when) && q + 1 in nodes);
    } else if code[q].Jmp? {
      JumpStep(env, code, q, rg);
      JumpStep(env, code', q, rg);
    } else {
      SameConstStep(env, code, code', q, rg);
    }
  }

  lemma SameConstStep(env: Env, code: seq<Instr>, code': seq<Instr>, q: nat, rg: Regs)
    requires |code'| == |code| && q < |code| && code'[q] == code[q] && !code[q].IsTest() && !code[q].Jmp?
    requires q + 1 < |code| ==>
      code'[q + 1].ExtraArg? == code[q + 1].ExtraArg? && (code[q + 1].ExtraArg? ==> code'[q + 1] == code[q + 1])
    ensures StepAt(env, code', q, rg) == StepAt(env, code, q, rg)
  {
    hide Rhs, Rk, Scratch;
  }

  /** Turning the TESTSETs of a list into TESTs changes no run: a jump still on a list has
      not stored its value yet. */
  lemma {:induction false} RemoveValuesExec(env: Env, code: seq<Instr>, nodes: seq<nat>, q: nat, rg: Regs)
    requires Pending(code, nodes)
    ensures Exec(env, RemoveValues(code, nodes), q, rg) == Exec(env, code, q, rg)
    decreases |code| - q
  {
    hide StepAt;
    if q < |code| {
      RemoveValuesStep(env, code, nodes, q, rg);
      match StepAt(env, code, q, rg)
      case Next(pc', rg') => if q < pc' { RemoveValuesExec(env, code, nodes, pc', rg'); }
      case _ =>
    }
  }

  lemma RemoveValuesRun(c: Ctx, s: State, k: Kind, nodes: seq<nat>, base: nat)
    requires Begun(c, s)
    requires Wf(s) && ListOk(s, nodes, 0) && PlaceAt(s, k, base)
    ensures
      var s' := s.(code := RemoveValues(s.code, nodes));
      RunOf(c, s', k) == RunOf(c, s, k) && PlaceAt(s', k, base)
      && (k.VReloc? ==> s'.code[k.info] == s.code[k.info])
  {
    hide Exec, Patch, PatchAt, CodeOk, PoolOk, FormOk;
    var s' := s.(code := RemoveValues(s.code, nodes));
    if k.VReloc? {
      var i := k.info;
      assert forall j :: j in nodes ==> j < i;
      assert s'.code[..i] == RemoveValues(s.code[..i], nodes);
      RemoveValuesExec(c.env, s.code[..i], nodes, c.start, c.regs);
    } else {
      PatchKeepsOthers(s.code, s.jpc, |s.code|, NO_REG, |s.code|, nodes);
      RemoveThenPatch(s, nodes);
      RemoveValuesExec(c.env, Discharge(s).code, nodes, c.start, c.regs);
    }
  }

  /** Removing values and sending the jumps to here on do not disturb each other. */
  lemma RemoveThenPatch(s: State, nodes: seq<nat>)
    requires Pending(s.code, s.jpc) && Pending(s.code, nodes) && Disjoint(nodes, s.jpc)
    ensures Discharge(s.(code := RemoveValues(s.code, nodes))).code == RemoveValues(Discharge(s).code, nodes)
  {
    var d, d' := Discharge(s).code, Discharge(s.(code := RemoveValues(s.code, nodes))).code;
    forall i | 0 <= i < |d| ensures d'[i] == RemoveValues(d, nodes)[i] {}
  }

  /** The value part of `e` computes `not v`, while its lists still stand for `v`. */
  predicate ComputesNot(c: Ctx, s: State, e: Exp, rg1: Regs, v: Value, r0: nat) {
    match RunOf(c, s, e.k)
    case Fall(rg) =>
      Agree(rg, rg1, r0) &&
      (if e.k.VJmp? then Truthy(v) else KindVal(c.env, s.code, e.k, rg) == Some(Bool(!Truthy(v))))
    case Exit(j, rg) =>
      Agree(rg, rg1, r0) &&
      (if e.k.VJmp? && j == e.k.info then !Truthy(v) else LeavesBy(s.code, e.t, e.f, j, rg, v))
    case _ => false
  }

  lemma EmitNotRun(c: Ctx, s: State, r: nat)
    requires Begun(c, s)
    requires Wf(s) && !Emit(s, Not(0, r)).err
    ensures
      var s' := Emit(s, Not(0, r));
      && RunOf(c, s', VReloc(|s.code|)) == Out(c, s)
      && s'.code[|s.code|] == Not(0, r)
  {
    EmitRun(c, s, Not(0, r));
    assert Emit(s, Not(0, r)).code[..|s.code|] == Discharge(s).code;
  }

  /** The value is in register `r`, and OP_NOT on it waits for its own register. */
  lemma NotOfPlaced(c: Ctx, s: State, e: Exp, s2: State, s': State, e': Exp, r: nat, rg1: Regs, v: Value, r0: nat)
    requires !e.k.VJmp?
    requires Placed(RunOf(c, s, e.k), Out(c, s2), KindVal(c.env, s.code, e.k, Fallen(RunOf(c, s, e.k))), r, r0)
    requires e' == e.(k := VReloc(|s2.code|)) && |s2.code| < |s'.code| && s'.code[|s2.code|] == Not(0, r)
    requires RunOf(c, s', e'.k) == Out(c, s2)
    requires forall j :: j in e.t || j in e.f ==> SameControl(s.code, s'.code, j)
    requires Computes(c, s, e, rg1, v, r0)
    ensures ComputesNot(c, s', e', rg1, v, r0)
  {
    hide Out, RunOf;
  }

  lemma NotInRegRun(c: Ctx, s: State, e: Exp, base: nat, rg1: Regs, v: Value, r0: nat)
    requires Begun(c, s)
    requires ExpOk(s, e, base, r0) && (e.k.VReloc? || e.k.VNonReloc?)
    requires !NotInReg(s, e).0.err && Fits(c, NotInReg(s, e).0)
    ensures
      var (s', e') := NotInReg(s, e);
      && (Gone(RunOf(c, s, e.k)) ==> RunOf(c, s', e'.k) == RunOf(c, s, e.k))
      && (Computes(c, s, e, rg1, v, r0) ==> ComputesNot(c, s', e', rg1, v, r0))
  {
    hide CodeOk, PoolOk, FormOk, Discharge2AnyReg, Emit, Out, RunOf, ListOk, Computes, ComputesNot, KindVal;
    var (s1, e1) := Discharge2AnyReg(s, e);
    Discharge2AnyRegOk(s, e, base, r0);
    Discharge2AnyRegRun(c, s, e, base, r0);
    FreeExpOk(s1, e1, r0);
    var s2 := FreeExp(s1, e1);
    TracksSameCode(c, s1, s2, e1, rg1, v, r0);
    EmitNotRun(c, s2, e1.k.info);
    EmitOk(s2, Not(0, e1.k.info));
    var (s', e') := NotInReg(s, e);
    KeepsBoth(s, s1, s', [], []);
    KeepsList(s, s', [], e.t, base);
    KeepsList(s, s', [], e.f, base);
    if Computes(c, s, e, rg1, v, r0) { NotOfPlaced(c, s, e, s2, s', e', e1.k.info, rg1, v, r0); }
  }

  lemma NotValueRun(c: Ctx, s: State, e: Exp, base: nat, rg1: Regs, v: Value, r0: nat)
    requires Begun(c, s)
    requires ExpOk(s, e, base, r0) && ProperConst(c.env, e.k)
    requires !NotValue(s, e).0.err && Fits(c, NotValue(s, e).0)
    ensures
      var (s', e') := NotValue(s, e);
      && (LeavesElsewhere(RunOf(c, s, e.k), e) ==> RunOf(c, s', e'.k) == RunOf(c, s, e.k))
      && (Computes(c, s, e, rg1, v, r0) ==> ComputesNot(c, s', e', rg1, v, r0))
  {
    hide PoolOk, FormOk, Run, Patch, PatchAt, Discharge, NotInReg, CodeOk, Rhs, Distinct, Keeps, ListOk, Out;
    var e0 := DischargeVars(e);
    TracksDischargeVars(c, s, e, rg1, v, r0);
    assert ExpOk(s, e0, base, r0);
    if e0.k.VReloc? || e0.k.VNonReloc? {
      NotInRegRun(c, s, e0, base, rg1, v, r0);
    } else if e0.k.VJmp? {
      var s1 := InvertJump(s, e0.k.info);
      InvertJumpOk(s, e0, base);
      InvertJumpRun(c, s, e0, base);
      KeepsList(s, s1, [], e.t, base);
      KeepsList(s, s1, [], e.f, base);
    }
  }

  /** codenot: the descriptor now computes `not v`, and no jump of its lists carries a value. */
  lemma CodeNotRun(c: Ctx, s: State, e: Exp, base: nat, rg1: Regs, v: Value, r0: nat)
    requires Begun(c, s)
    requires ExpOk(s, e, base, r0) && ProperConst(c.env, e.k)
    requires !CodeNot(s, e).0.err && Fits(c, CodeNot(s, e).0)
    ensures
      var (s', e') := CodeNot(s, e);
      && (LeavesElsewhere(RunOf(c, s, e.k), e) ==> RunOf(c, s', e'.k) == RunOf(c, s, e.k))
      && (Computes(c, s, e, rg1, v, r0) ==> Computes(c, s', e', rg1, Bool(!Truthy(v)), r0))
  {
    hide CodeOk, PoolOk, FormOk, Run, NotValue, Discharge, Computes, InstrOk, RunOf;
    var (s1, e1) := NotValue(s, e);
    NotValueOk(s, e, base, r0);
    NotValueRun(c, s, e, base, rg1, v, r0);
    var s2 := s1.(code := RemoveValues(s1.code, e1.t));
    RemoveValuesOk(s1, e1.t);
    RemoveValuesRun(c, s1, e1.k, e1.t, base);
    KeepsList(s1, s2, e1.t, e1.f, base);
    RemoveValuesRun(c, s2, e1.k, e1.f, base);
    var (s', e') := CodeNot(s, e);
    if Computes(c, s, e, rg1, v, r0) { NotComputes(c, s1, e1, s', rg1, v, r0); }
  }

  lemma NotComputes(c: Ctx, s: State, e: Exp, s': State, rg1: Regs, v: Value, r0: nat)
    requires ComputesNot(c, s, e, rg1, v, r0) && RunOf(c, s', e.k) == RunOf(c, s, e.k)
    requires s'.code == RemoveValues(RemoveValues(s.code, e.t), e.f) && KindOk(s.code, e.k)
    requires e.k.VReloc? ==> s'.code[e.k.info] == s.code[e.k.info]
    ensures Computes(c, s', Exp(e.k, e.f, e.t), rg1, Bool(!Truthy(v)), r0)
  {}

  // ----- operators -----

  lemma OperandVal(env: Env, code: seq<Instr>, e: Exp, rg: Regs, v: Value)
    requires IsOperand(e) && KindVal(env, code, e.k, rg) == Some(v)
    requires e.k.VNonReloc? ==> e.k.info < BITRK
    ensures Rk(env, rg, OperandOf(e)) == Some(v)
  {}

  /** Both operands are in place: the run reached the end with their values. */
  predicate BothReady(env: Env, o: Outcome, rg1: Regs, o1: nat, v1: Value, o2: nat, v2: Value, r0: nat) {
    o.Fall? && Agree(o.regs, rg1, r0) && Rk(env, o.regs, o1) == Some(v1) && Rk(env, o.regs, o2) == Some(v2)
  }

  /** A left operand keeps its value while registers above it change. */
  lemma KeptVal(env: Env, code: seq<Instr>, code': seq<Instr>, s: State, e: Exp, rg: Regs, rg': Regs, r0: nat)
    requires Kept(s, e, r0) && Agree(rg', rg, RegsAfter(s, e.k, r0))
    ensures KindVal(env, code, e.k, rg) == KindVal(env, code', e.k, rg')
  {}

  /** The left operand, made an RK operand after the right one: every run goes on as it was,
      and one that fell through still does, with the left operand's value in place. */
  lemma LeftOperandReady(c: Ctx, s1: State, e1: Exp, base2: nat, rg: Regs, v1: Value)
    requires Begun(c, s1)
    requires IsOperand(e1) || (IsNumeral(e1) && ExpOk(s1, e1, base2, s1.freereg))
    requires KindOk(s1.code, e1.k) && !Exp2RK(s1, e1).0.err && Fits(c, Exp2RK(s1, e1).0)
    requires e1.k.VNonReloc? ==> e1.k.info < BITRK
    ensures
      var (s2, e1', o1) := Exp2RK(s1, e1);
      && (Gone(Out(c, s1)) ==> Out(c, s2) == Out(c, s1))
      && (Out(c, s1) == Fall(rg) && KindVal(c.env, s1.code, e1.k, rg) == Some(v1) ==>
            Out(c, s2).Fall? && Agree(Out(c, s2).regs, rg, s1.freereg)
            && Rk(c.env, Out(c, s2).regs, o1) == Some(v1))
  {
    hide CodeOk, PoolOk, FormOk, Exp2RK, Discharge, Rhs, ListOk, Run, Rk;
    if IsOperand(e1) { OperandKeeps(s1, e1); }
    else {
      Exp2RKOk(s1, e1, base2, s1.freereg);
      Exp2RKRun(c, s1, e1, base2, if Out(c, s1).Fall? then Out(c, s1).regs else c.regs, v1, s1.freereg);
    }
    var (s2, e1', o1) := Exp2RK(s1, e1);
    if Out(c, s1) == Fall(rg) && KindVal(c.env, s1.code, e1.k, rg) == Some(v1) {
      OperandVal(c.env, s2.code, e1', Out(c, s2).regs, v1);
    }
  }

  /** Where the operands are when the left one is about to be made an RK operand. */
  lemma OperandPlaces(s: State, e1: Exp, e2: Exp, base2: nat, r0: nat)
    requires (IsOperand(e1) || IsNumeral(e1)) && Kept(s, e1, r0)
    requires ExpOk(s, e2, base2, RegsAfter(s, e1.k, r0)) && !Exp2RK(s, e2).0.err
    ensures
      var (s1, e2', o2) := Exp2RK(s, e2);
      && (IsOperand(e1) || (IsNumeral(e1) && ExpOk(s1, e1, base2, s1.freereg)))
      && (e1.k.VNonReloc? ==> e1.k.info < BITRK) && KindOk(s1.code, e1.k)
      && (e2'.k.VNonReloc? ==> e2'.k.info < s1.freereg) && s1.freereg < BITRK
      && r0 <= RegsAfter(s, e1.k, r0) <= s1.freereg
  {
    hide Exp2RK, CodeOk, PoolOk, FormOk, ListOk;
    Exp2RKOk(s, e2, base2, RegsAfter(s, e1.k, r0));
  }

  lemma OperandsRun(c: Ctx, s: State, e1: Exp, e2: Exp, base2: nat, rg: Regs, v1: Value, v2: Value, r0: nat)
    requires Begun(c, s)
    requires (IsOperand(e1) || IsNumeral(e1)) && Kept(s, e1, r0)
    requires ExpOk(s, e2, base2, RegsAfter(s, e1.k, r0)) && |rg| == |c.regs|
    requires var s1 := Exp2RK(s, e2).0; !Exp2RK(s1, e1).0.err && Fits(c, Exp2RK(s1, e1).0)
    ensures
      var (s1, e2', o2) := Exp2RK(s, e2);
      var (s2, e1', o1) := Exp2RK(s1, e1);
      && (LeavesElsewhere(RunOf(c, s, e2.k), e2) ==> Out(c, s2) == RunOf(c, s, e2.k))
      && (Computes(c, s, e2, rg, v2, RegsAfter(s, e1.k, r0)) && KindVal(c.env, s.code, e1.k, rg) == Some(v1) ==>
            BothReady(c.env, Out(c, s2), rg, o1, v1, o2, v2, r0))
  {
    hide CodeOk, PoolOk, FormOk, Exp2RK, Run, Discharge, Rhs, Rk, Wf, ListsOk, Taken, RegsAfter, Kept, Out, KindVal,
      Computes, Tracks, RunOf, KindOk;
    var r1 := RegsAfter(s, e1.k, r0);
    var (s1, e2', o2) := Exp2RK(s, e2);
    Exp2RKRun(c, s, e2, base2, rg, v2, r1);
    OperandPlaces(s, e1, e2, base2, r0);
    ReadyOperand(c, s, e2, s1, e2', rg, v2, r1);
    var rg1 := if Out(c, s1).Fall? then Out(c, s1).regs else rg;
    LeftOperandReady(c, s1, e1, base2, rg1, v1);
    if Computes(c, s, e2, rg, v2, r1) && KindVal(c.env, s.code, e1.k, rg) == Some(v1) {
      KeptVal(c.env, s.code, s1.code, s, e1, rg, rg1, r0);
      RightOperandStays(c.env, s1, e2', rg1, Out(c, Exp2RK(s1, e1).0).regs);
    }
  }

  /** The right operand, tracked into an RK operand, is where the run has left its value. */
  lemma ReadyOperand(c: Ctx, s: State, e: Exp, s1: State, e1: Exp, rg: Regs, v: Value, r1: nat)
    requires IsOperand(e1) && Tracks(c, s, e, s1, e1, rg, v, r1) && (e1.k.VNonReloc? ==> e1.k.info < BITRK)
    ensures LeavesElsewhere(RunOf(c, s, e.k), e) ==> Out(c, s1) == RunOf(c, s, e.k)
    ensures Computes(c, s, e, rg, v, r1) ==>
      Out(c, s1).Fall? && Agree(Out(c, s1).regs, rg, r1) && Rk(c.env, Out(c, s1).regs, OperandOf(e1)) == Some(v)
  {}

  lemma RightOperandStays(env: Env, s: State, e: Exp, rg: Regs, rg': Regs)
    requires IsOperand(e) && Agree(rg', rg, s.freereg) && (e.k.VNonReloc? ==> e.k.info < s.freereg < BITRK)
    ensures Rk(env, rg', OperandOf(e)) == Rk(env, rg, OperandOf(e))
  {}

  /** An operator emitted after its operands: the descriptor computes what it will store. */
  lemma EmitOperatorRun(c: Ctx, s: State, i: Instr, rg1: Regs, v: Value, r0: nat)
    requires Begun(c, s)
    requires Wf(s) && i.Relocatable() && !Emit(s, i).err
    ensures
      var s' := Emit(s, i);
      var e' := Exp(VReloc(|s.code|), [], []);
      && RunOf(c, s', e'.k) == Out(c, s)
      && (Out(c, s).Fall? && Agree(Out(c, s).regs, rg1, r0) && Rhs(c.env, i, Out(c, s).regs) == Some(v) ==>
            Computes(c, s', e', rg1, v, r0))
  {
    EmitRun(c, s, i);
    assert Emit(s, i).code[..|s.code|] == Discharge(s).code;
  }

  lemma CodeArithRun(c: Ctx, s: State, op: ArithOp, e1: Exp, e2: Exp, base2: nat, rg: Regs, v1: Value, v2: Value,
      r0: nat)
    requires Begun(c, s)
    requires (IsOperand(e1) || IsNumeral(e1)) && Kept(s, e1, r0) && c.env.P.FoldsFaithfully()
    requires ExpOk(s, e2, base2, RegsAfter(s, e1.k, r0)) && |rg| == |c.regs|
    requires !CodeArith(c.env.P, s, op, e1, e2).0.err && Fits(c, CodeArith(c.env.P, s, op, e1, e2).0)
    ensures
      var (s', e') := CodeArith(c.env.P, s, op, e1, e2);
      && (LeavesElsewhere(RunOf(c, s, e2.k), e2) ==> RunOf(c, s', e'.k) == RunOf(c, s, e2.k))
      && (Computes(c, s, e2, rg, v2, RegsAfter(s, e1.k, r0)) && KindVal(c.env, s.code, e1.k, rg) == Some(v1) ==>
            Computes(c, s', e', rg, c.env.P.arith(op, v1, v2), r0))
  {
    hide CodeOk, PoolOk, FormOk, Patch, PatchAt, Exp2RK, Run, Discharge, Computes, KindVal, RunOf, Emit, FreeExps,
      Tracks, Keeps, ListOk, Out, Folds;
    if Folds(op, e1, e2) { FoldRun(c, s, op, e1, e2, rg, v1, v2, RegsAfter(s, e1.k, r0), r0); }
    else {
      var (s1, e2', o2) := Exp2RK(s, e2);
      var (s2, e1', o1) := Exp2RK(s1, e1);
      var s3 := FreeExps(s2, e1', o1, e2', o2);
      OperandsOk(s, e1, e2, base2, r0);
      OperandsRun(c, s, e1, e2, base2, rg, v1, v2, r0);
      FreeExpsOk(s2, e1', e2', r0);
      TracksSameCode(c, s2, s3, e1', rg, v1, r0);
      EmitOperatorRun(c, s3, Arith(op, 0, o1, o2), rg, c.env.P.arith(op, v1, v2), r0);
    }
  }

  /** Numerals folded at compile time. */
  lemma FoldRun(c: Ctx, s: State, op: ArithOp, e1: Exp, e2: Exp, rg: Regs, v1: Value, v2: Value, r1: nat, r0: nat)
    requires Folds(op, e1, e2) && c.env.P.FoldsFaithfully() && r0 <= r1
    ensures
      var e' := e1.(k := VKNum(c.env.P.fold(op, e1.k.nval, e2.k.nval)));
      && RunOf(c, s, e'.k) == RunOf(c, s, e2.k)
      && (Computes(c, s, e2, rg, v2, r1) && KindVal(c.env, s.code, e1.k, rg) == Some(v1) ==>
            Computes(c, s, e', rg, c.env.P.arith(op, v1, v2), r0))
  {}

  /** One more operand in front of a waiting concatenation. */
  lemma WidenConcatRun(c: Ctx, s: State, s': State, i: nat, rg: Regs, v1: Value, v2: Value, r0: nat)
    requires i + 1 == |s.code| && s.code[i].Concat? && s.code[i].b == r0 + 1
    requires s'.code == WidenConcat(s, i, r0).code && Reg(rg, r0) == Some(v1)
    requires Computes(c, s, Exp(VReloc(i), [], []), rg, v2, r0 + 1)
    ensures Computes(c, s', Exp(VReloc(i), [], []), rg, c.env.P.concat(v1, v2), r0)
  {
    hide Run;
    SameBefore(c, s, s', i, r0);
    var rgx := Run(c, s.code[..i]).regs;
    ConcatMore(c.env.P, rgx, r0, s.code[i].c);
  }

  lemma SameBefore(c: Ctx, s: State, s': State, i: nat, b: nat)
    requires i + 1 == |s.code| && s.code[i].Concat? && s'.code == WidenConcat(s, i, b).code
    ensures RunOf(c, s', VReloc(i)) == RunOf(c, s, VReloc(i)) && s'.code[i] == Concat(s.code[i].a, b, s.code[i].c)
  {
    assert s'.code[..i] == s.code[..i];
  }

  lemma ConcatMore(P: Prims, rg: Regs, r: nat, last: nat)
    requires r < last < |rg|
    ensures ConcatVal(P, rg[r..last + 1]) == P.concat(rg[r], ConcatVal(P, rg[r + 1..last + 1]))
  {
    assert rg[r..last + 1][1..] == rg[r + 1..last + 1];
  }

  lemma EmitConcatRun(c: Ctx, s: State, rg: Regs, v1: Value, v2: Value, r0: nat)
    requires Begun(c, s)
    requires Wf(s) && !Emit(s, Concat(0, r0, r0 + 1)).err
    ensures
      var s' := Emit(s, Concat(0, r0, r0 + 1));
      var e' := Exp(VReloc(|s.code|), [], []);
      && RunOf(c, s', e'.k) == Out(c, s)
      && (Computes(c, s, Exp(VNonReloc(r0 + 1), [], []), rg, v2, r0 + 1) && Reg(rg, r0) == Some(v1) ==>
            Computes(c, s', e', rg, c.env.P.concat(v1, v2), r0))
  {
    hide CodeOk, PoolOk, FormOk, Patch, PatchAt, Run, Discharge, Emit;
    EmitOperatorRun(c, s, Concat(0, r0, r0 + 1), rg, c.env.P.concat(v1, v2), r0);
    var o := Out(c, s);
    if o.Fall? && r0 + 1 < |o.regs| {
      ConcatMore(c.env.P, o.regs, r0, r0 + 1);
      assert o.regs[r0 + 1..r0 + 2] == [o.regs[r0 + 1]];
    }
  }

  lemma EmittedConcatRun(c: Ctx, s: State, e1: Exp, e2: Exp, base2: nat, rg: Regs, v1: Value, v2: Value, r0: nat)
    requires Begun(c, s)
    requires OnTop(s, e1, r0) && ExpOk(s, e2, base2, r0 + 1) && |rg| == |c.regs|
    requires
      var (s2, e3) := Exp2NextReg(s, e2);
      var s' := Emit(FreeExps(s2, e1, r0, e3, e3.k.info), Concat(0, r0, e3.k.info));
      !s'.err && Fits(c, s')
    ensures
      var (s2, e3) := Exp2NextReg(s, e2);
      var s3 := FreeExps(s2, e1, r0, e3, e3.k.info);
      var s' := Emit(s3, Concat(0, r0, e3.k.info));
      var e' := Exp(VReloc(|s3.code|), [], []);
      && (LeavesElsewhere(RunOf(c, s, e2.k), e2) ==> RunOf(c, s', e'.k) == RunOf(c, s, e2.k))
      && (Computes(c, s, e2, rg, v2, r0 + 1) && Reg(rg, r0) == Some(v1) ==>
            Computes(c, s', e', rg, c.env.P.concat(v1, v2), r0))
  {
    hide CodeOk, PoolOk, FormOk, Run, Discharge, Exp2NextReg, Emit, Computes, RunOf, ListOk, Keeps, FreeExps;
    var (s2, e3) := Exp2NextReg(s, e2);
    Exp2NextRegOk(s, e2, base2, r0 + 1);
    Exp2NextRegRun(c, s, e2, base2, rg, v2, r0 + 1);
    FreeExpsOk(s2, e1, e3, r0);
    var s3 := FreeExps(s2, e1, r0, e3, r0 + 1);
    TracksSameCode(c, s2, s3, e3, rg, v2, r0 + 1);
    EmitConcatRun(c, s3, rg, v1, v2, r0);
    AtEnd(c, s3, e3.k);
  }

  /** luaK_posfix on `..`, merged or not. */
  lemma CodeConcatRun(c: Ctx, s: State, e1: Exp, e2: Exp, base2: nat, rg: Regs, v1: Value, v2: Value, r0: nat)
    requires Begun(c, s)
    requires OnTop(s, e1, r0) && ExpOk(s, e2, base2, r0 + 1) && |rg| == |c.regs|
    requires !CodeConcat(s, e1, e2).0.err && Fits(c, CodeConcat(s, e1, e2).0)
    ensures
      var (s', e') := CodeConcat(s, e1, e2);
      && (LeavesElsewhere(RunOf(c, s, e2.k), e2) ==> RunOf(c, s', e'.k) == RunOf(c, s, e2.k))
      && (Computes(c, s, e2, rg, v2, r0 + 1) && Reg(rg, r0) == Some(v1) ==>
            Computes(c, s', e', rg, c.env.P.concat(v1, v2), r0))
  {
    hide CodeOk, PoolOk, FormOk, Run, Discharge, Exp2Val, Exp2NextReg, Emit, Computes, RunOf, ListOk, Keeps, FreeExps;
    var (s1, e2') := Exp2Val(s, e2);
    Exp2ValOk(s, e2, base2, r0 + 1);
    Exp2ValRun(c, s, e2, base2, rg, v2, r0 + 1);
    var (s', e') := CodeConcat(s, e1, e2);
    if ConcatAt(s1.code, e2'.k) {
      var i := e2'.k.info;
      SameBefore(c, s1, s', i, r0);
      if Computes(c, s, e2, rg, v2, r0 + 1) && Reg(rg, r0) == Some(v1) { WidenConcatRun(c, s1, s', i, rg, v1, v2, r0); }
    } else {
      EmittedConcatRun(c, s1, e1, e2', base2, rg, v1, v2, r0);
    }
  }

  lemma AtEnd(c: Ctx, s: State, k: Kind)
    requires !k.VReloc?
    ensures RunOf(c, s, k) == Out(c, s)
  {}

  function UnaryVal(P: Prims, len: bool, v: Value): Value { if len then P.len(v) else P.unm(v) }

  lemma CodeUnaryRun(c: Ctx, s: State, len: bool, e: Exp, base: nat, rg1: Regs, v: Value, r0: nat)
    requires Begun(c, s)
    requires ExpOk(s, e, base, r0) && |rg1| == |c.regs|
    requires !CodeUnary(s, len, e).0.err && Fits(c, CodeUnary(s, len, e).0)
    ensures
      var (s', e') := CodeUnary(s, len, e);
      && (LeavesElsewhere(RunOf(c, s, e.k), e) ==> RunOf(c, s', e'.k) == RunOf(c, s, e.k))
      && (Computes(c, s, e, rg1, v, r0) ==> Computes(c, s', e', rg1, UnaryVal(c.env.P, len, v), r0))
  {
    hide CodeOk, PoolOk, FormOk, Patch, PatchAt, Exp2RK, Exp2AnyReg, Run, Discharge, Emit;
    var (s1, e1) := Exp2AnyReg(s, e);
    Exp2AnyRegOk(s, e, base, r0);
    Exp2AnyRegRun(c, s, e, base, rg1, v, r0);
    OperandKeeps(s1, e1);
    FreeExpOk(s1, e1, r0);
    var s3 := FreeExp(s1, e1);
    TracksSameCode(c, s1, s3, e1, rg1, v, r0);
    var i := if len then Len(0, e1.k.info) else Unm(0, e1.k.info);
    EmitOperatorRun(c, s3, i, rg1, UnaryVal(c.env.P, len, v), r0);
  }

  /** What a comparison means (section 3.4.3 of the Lua 5.2 Reference Manual): `a ~= b` is
      `not (a == b)`, `a > b` is `b < a` and `a >= b` is `b <= a`. */
  predicate CompVal(P: Prims, op: CmpOp, cond: bool, v1: Value, v2: Value) {
    if cond then P.Compare(op, v1, v2) else if op == Eq then !P.eq(v1, v2) else P.Compare(op, v2, v1)
  }

  lemma EmitCompRun(c: Ctx, s: State, op: CmpOp, cond: bool, o1: nat, o2: nat, rg1: Regs, v1: Value, v2: Value, r0: nat)
    requires Begun(c, s)
    requires Wf(s) && IsRk(o1) && IsRk(o2) && !CondJump(s, CompInstr(op, cond, o1, o2)).0.err
    ensures
      var s' := CondJump(s, CompInstr(op, cond, o1, o2)).0;
      var e' := Exp(VJmp(|s.code| + 1), [], []);
      && (Gone(Out(c, s)) ==> RunOf(c, s', e'.k) == Out(c, s))
      && (BothReady(c.env, Out(c, s), rg1, o1, v1, o2, v2, r0) ==>
            Computes(c, s', e', rg1, Bool(CompVal(c.env.P, op, cond, v1, v2)), r0))
  {
    hide CodeOk, PoolOk, FormOk, Patch, PatchAt, Run, Discharge, Rk;
    CondJumpRun(c, s, CompInstr(op, cond, o1, o2));
  }

  lemma CodeCompRun(c: Ctx, s: State, op: CmpOp, cond: bool, e1: Exp, e2: Exp, base2: nat, rg: Regs, v1: Value,
      v2: Value, r0: nat)
    requires Begun(c, s)
    requires IsOperand(e1) && Kept(s, e1, r0)
    requires ExpOk(s, e2, base2, RegsAfter(s, e1.k, r0)) && |rg| == |c.regs|
    requires !CodeComp(s, op, cond, e1, e2).0.err && Fits(c, CodeComp(s, op, cond, e1, e2).0)
    ensures
      var (s', e') := CodeComp(s, op, cond, e1, e2);
      && (LeavesElsewhere(RunOf(c, s, e2.k), e2) ==> RunOf(c, s', e'.k) == RunOf(c, s, e2.k))
      && (Computes(c, s, e2, rg, v2, RegsAfter(s, e1.k, r0)) && KindVal(c.env, s.code, e1.k, rg) == Some(v1) ==>
            Computes(c, s', e', rg, Bool(CompVal(c.env.P, op, cond, v1, v2)), r0))
  {
    hide CodeOk, PoolOk, FormOk, Patch, PatchAt, Exp2RK, Run, Discharge, KindVal, Tracks, Computes, RunOf, Rk,
      CondJump, BothReady;
    var r1 := RegsAfter(s, e1.k, r0);
    var (s2, e2', o2) := Exp2RK(s, e2);
    var o1 := OperandOf(e1);
    OperandKeeps(s, e1);
    OperandKeeps(s2, e1);
    OperandsRun(c, s, e1, e2, base2, rg, v1, v2, r0);
    Exp2RKOk(s, e2, base2, r1);
    FreeExpOk(s2, e2', r1);
    var s3 := FreeExp(s2, e2');
    FreeExpOk(s3, e1, r0);
    var s4 := FreeExp(s3, e1);
    TracksSameCode(c, s2, s4, e1, rg, v1, r0);
    EmitCompRun(c, s4, op, cond, o1, o2, rg, v1, v2, r0);
  }
}
