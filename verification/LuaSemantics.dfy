/** The code emitted for an expression computes its value: every operation of the code
    generator keeps the relation between a descriptor and the value it stands for. */
module LuaSemantics {
  import opened Wrappers
  import opened LuaValues
  import opened LuaOpcodes
  import opened LuaVm
  import opened LuaPatch
  import opened LuaConstants
  import opened LuaCode
  import opened LuaShape
  import opened LuaEncoding
  import opened LuaRuns

  /** The value a descriptor denotes once control has reached the end of the code. */
  function KindVal(env: Env, code: seq<Instr>, k: Kind, rg: Regs): Option<Value> {
    match k
    case VNil => Some(Nil)
    case VTrue => Some(Bool(true))
    case VFalse => Some(Bool(false))
    case VK(i) => if i < |env.K| then Some(env.K[i]) else None
    case VKNum(n) => Some(Num(n))
    case VNonReloc(r) => Reg(rg, r)
    case VLocal(r) => Reg(rg, r)
    case VReloc(i) => if i < |code| then Rhs(env, code[i], rg) else None
    case VJmp(_) => None
  }

  /** A run that reaches the value goes on once it has been computed. */
  function Worked(env: Env, code: seq<Instr>, k: Kind, o: Outcome): (o': Outcome)
    ensures o.Fall? <==> o'.Fall?
    ensures !o.Fall? || !ConcatAt(code, k) ==> o' == o
    ensures o.Fall? ==> |o'.regs| == |o.regs|
    ensures o.Fall? && ConcatAt(code, k) ==> forall r :: 0 <= r < code[k.info].b && r < |o.regs| ==>
      o'.regs[r] == o.regs[r]
  {
    if o.Fall? && ConcatAt(code, k) then Fall(Scratch(env.P, code[k.info], o.regs)) else o
  }

  /** Runs up to the point where the value is available: an operator whose target register
      is not chosen yet has not been executed. */
  function RunOf(c: Ctx, s: State, k: Kind): (o: Outcome)
    ensures o.Fall? || o.Exit? || o.Back? ==> |o.regs| == |c.regs|
  {
    if k.VReloc? && k.info < |s.code| then Run(c, s.code[..k.info]) else Out(c, s)
  }

  /** The registers below `r` are the same. */
  predicate Agree(rg: Regs, rg': Regs, r: nat) {
    |rg| == |rg'| && forall i :: 0 <= i < r && i < |rg| ==> rg[i] == rg'[i]
  }

  /** The value a jump stands for: the register its TESTSET would store, or else the boolean
      that its list stands for. */
  predicate ValueAt(code: seq<Instr>, j: nat, rg: Regs, v: Value, side: bool) {
    if Carries(code, j) then code[j - 1].b < |rg| && rg[code[j - 1].b] == v else v == Bool(side)
  }

  /** A run that leaves through the lists of `e` leaves through the list that fits its value. */
  predicate LeavesBy(code: seq<Instr>, t: seq<nat>, f: seq<nat>, j: nat, rg: Regs, v: Value) {
    if Truthy(v) then j in t && ValueAt(code, j, rg, v, true) else j in f && ValueAt(code, j, rg, v, false)
  }

  /** The code for `e` computes `v` in the run `c`, which reached the code with registers `rg1`,
      and leaves the registers below `r0` alone. */
  predicate Computes(c: Ctx, s: State, e: Exp, rg1: Regs, v: Value, r0: nat) {
    match RunOf(c, s, e.k)
    case Fall(rg) =>
      Agree(rg, rg1, r0) && if e.k.VJmp? then v == Bool(false) else KindVal(c.env, s.code, e.k, rg) == Some(v)
    case Exit(j, rg) =>
      Agree(rg, rg1, r0) &&
      if e.k.VJmp? && j == e.k.info then v == Bool(true) else LeavesBy(s.code, e.t, e.f, j, rg, v)
    case _ => false
  }

  /** The run does not reach the end of the code. */
  predicate Gone(o: Outcome) { o.Exit? || o.Back? || o.Returned? }

  /** The run is over, or leaves through a jump that does not belong to `e`. */
  predicate LeavesElsewhere(o: Outcome, e: Exp) {
    o.Returned? || o.Back? || (o.Exit? && o.node !in Own(e))
  }

  // ----- putting values into registers -----

  lemma OneNil(rg: Regs, r: nat)
    requires r < |rg|
    ensures Nils(rg, r, 1) == rg[r := Nil]
  {}

  function Store(o: Outcome, reg: nat, v: Option<Value>): Outcome {
    match (o, v)
    case (Fall(rg), Some(x)) => if reg < |rg| then Fall(rg[reg := x]) else Stuck
    case (Fall(_), None) => Stuck
    case _ => o
  }

  function Fallen(o: Outcome): Regs { if o.Fall? then o.regs else [] }

  lemma LoadConstRun(c: Ctx, s: State, reg: nat, k: nat)
    requires Begun(c, s)
    requires Wf(s) && !LoadConst(s, reg, k).err && k < |c.env.K| && reg < |c.regs|
    ensures Out(c, LoadConst(s, reg, k)) == Store(Out(c, s), reg, Some(c.env.K[k]))
  {
    hide Patch, PatchAt, CodeOk, PoolOk, FormOk, StepAt, Discharge, Run;
    if k <= MAXARG_BX { EmitRun(c, s, LoadK(reg, k)); }
    else {
      var d := Discharge(s).code;
      var s' := LoadConst(s, reg, k);
      LongConstCode(s, reg, k);
      OutWithoutJumps(c, s');
      Starts(c, s);
      DischargeShape(s);
      RunAppend(c, d, [LoadKX(reg), ExtraArg(k)], s.lasttarget);
      match Out(c, s)
      case Fall(rg) => LongConstStep(c.env, d, reg, k, rg);
      case _ =>
    }
  }

  /** LOADKX takes its constant from the instruction after it. */
  lemma LongConstStep(env: Env, code: seq<Instr>, reg: nat, k: nat, rg: Regs)
    requires k < |env.K| && reg < |rg|
    ensures Exec(env, code + [LoadKX(reg), ExtraArg(k)], |code|, rg) == Fall(rg[reg := env.K[k]])
  {
    hide StepAt;
    var code', rg' := code + [LoadKX(reg), ExtraArg(k)], rg[reg := env.K[k]];
    assert code'[|code|] == LoadKX(reg) && code'[|code| + 1] == ExtraArg(k);
    LoadKXStep(env, code', |code|, rg);
    assert |code'| == |code| + 2;
    assert Exec(env, code', |code| + 2, rg') == Fall(rg');
  }

  lemma LoadKXStep(env: Env, code: seq<Instr>, pc: nat, rg: Regs)
    requires pc + 1 < |code| && code[pc].LoadKX? && code[pc + 1].ExtraArg? && code[pc + 1].ax < |env.K|
    requires code[pc].a < |rg|
    ensures StepAt(env, code, pc, rg) == Next(pc + 2, rg[code[pc].a := env.K[code[pc + 1].ax]])
  {
    hide Rhs, Rk, Scratch, Nils, Goto;
  }

  lemma OperatorAfter(env: Env, i: Instr, reg: nat, rg: Regs)
    requires i.Relocatable() && reg < |rg|
    ensures After(env, i.SetA(reg), rg) ==
      match Rhs(env, i, rg)
      case Some(v) => Fall(Scratch(env.P, i, rg)[reg := v])
      case None => Stuck
  {
    hide Rk, ConcatVal;
  }

  lemma RelocRun(c: Ctx, s: State, i: nat, reg: nat)
    requires Begun(c, s)
    requires Wf(s) && i + 1 == |s.code| && s.code[i].Relocatable() && s.jpc == [] && s.lasttarget <= i
    requires reg < |c.regs|
    ensures
      var s' := s.(code := s.code[i := s.code[i].SetA(reg)]);
      var o := Run(c, s.code[..i]);
      Out(c, s') == Store(Worked(c.env, s.code, VReloc(i), o), reg, KindVal(c.env, s.code, VReloc(i), Fallen(o)))
  {
    hide After, Rhs, Scratch, Run, CodeOk, PoolOk, FormOk;
    var s' := s.(code := s.code[i := s.code[i].SetA(reg)]);
    PatchNothing(s'.code, |s'.code|, NO_REG, |s'.code|);
    Starts(c, s);
    CutOk(s.code, s.lasttarget, i);
    assert s'.code == s.code[..i] + [s.code[i].SetA(reg)];
    AppendRun(c, s.code[..i], s.code[i].SetA(reg), s.lasttarget);
    var o := Run(c, s.code[..i]);
    if o.Fall? { OperatorAfter(c.env, s.code[i], reg, o.regs); }
  }

  lemma Discharge2RegRun(c: Ctx, s: State, e: Exp, reg: nat, base: nat)
    requires Begun(c, s)
    requires Wf(s) && PlaceAt(s, e.k, base) && !e.k.VJmp? && reg < |c.regs|
    requires !Discharge2Reg(s, e, reg).0.err && Discharge2Reg(s, e, reg).0.pool.k <= c.env.K
    ensures
      var o := RunOf(c, s, e.k);
      Out(c, Discharge2Reg(s, e, reg).0) ==
        Store(Worked(c.env, s.code, e.k, o), reg, KindVal(c.env, s.code, e.k, Fallen(o)))
  {
    hide CodeOk, PoolOk, FormOk, Patch, PatchAt, Run, Exec;
    match DischargeVars(e).k
    case VNil =>
      LoadNilsRun(c, s, reg, 1);
      if Out(c, s).Fall? { OneNil(Out(c, s).regs, reg); }
    case VFalse => EmitRun(c, s, LoadBool(reg, false, false));
    case VTrue => EmitRun(c, s, LoadBool(reg, true, false));
    case VK(i) => LoadConstRun(c, s, reg, i);
    case VKNum(n) =>
      var (s1, i) := AddConst(s, Num(n));
      AddConstOk(s, Num(n));
      LoadConstRun(c, s1, reg, i);
    case VReloc(i) => RelocRun(c, s, i, reg);
    case VNonReloc(i) =>
      if reg != i { EmitRun(c, s, Move(reg, i)); }
      else if Out(c, s).Fall? { assert Out(c, s).regs[reg := Out(c, s).regs[reg]] == Out(c, s).regs; }
    case VJmp(_) =>
  }

  // ----- closing the lists of an expression -----

  lemma PatchCommutes(code: seq<Instr>, xs: seq<nat>, dest: int, ys: seq<nat>, vtarget: int, reg: nat, dtarget: int)
    requires Pending(code, xs) && Pending(code, ys) && Disjoint(ys, xs)
    ensures Patch(Patch(code, ys, vtarget, reg, dtarget), xs, dest, NO_REG, dest)
         == Patch(Patch(code, xs, dest, NO_REG, dest), ys, vtarget, reg, dtarget)
  {
    var a, b := Patch(code, ys, vtarget, reg, dtarget), Patch(code, xs, dest, NO_REG, dest);
    var l, r := Patch(a, xs, dest, NO_REG, dest), Patch(b, ys, vtarget, reg, dtarget);
    forall i | 0 <= i < |code| ensures l[i] == r[i] {}
  }

  /** Jumps that carry a value never use the default destination. */
  lemma PatchAllCarry(code: seq<Instr>, nodes: seq<nat>, vtarget: int, reg: nat, d1: int, d2: int)
    requires forall j :: j in nodes ==> Carries(code, j)
    ensures Patch(code, nodes, vtarget, reg, d1) == Patch(code, nodes, vtarget, reg, d2)
  {}

  /** Patching one list of an expression whose values go to the end of the code. */
  lemma PatchListRun(c: Ctx, s: State, nodes: seq<nat>, reg: nat, dtarget: int)
    requires Begun(c, s)
    requires Wf(s) && ListOk(s, nodes, 0) && s.lasttarget == |s.code|
    requires TargetsAhead(s.code, nodes, |s.code|, dtarget, |s.code|)
    requires reg < |c.regs| && !PatchList(s, nodes, |s.code|, reg, dtarget).err
    ensures
      var s' := PatchList(s, nodes, |s.code|, reg, dtarget);
      match Out(c, s)
      case Exit(j, rg) =>
        if j !in nodes then Out(c, s') == Exit(j, rg)
        else if Carries(s.code, j) then Out(c, s') == Fall(Delivered(s.code, j, reg, rg))
        else dtarget >= 0 && Out(c, s') == Exec(c.env, Discharge(s').code, dtarget, rg)
      case o => Out(c, s') == o
  {
    var n := |s.code|;
    var d := Discharge(s).code;
    var s' := PatchList(s, nodes, n, reg, dtarget);
    PatchCommutes(s.code, s.jpc, n, nodes, n, reg, dtarget);
    DischargeShape(s);
    PatchKeepsOthers(s.code, s.jpc, n, NO_REG, n, nodes);
    var dt := if dtarget < 0 then n else dtarget;
    EntryAtEnd(d, n);
    assert forall j :: j in nodes ==>
        Carries(d, j) == Carries(s.code, j) && (Carries(d, j) ==> d[j - 1] == s.code[j - 1]);
    if dtarget < 0 { PatchAllCarry(d, nodes, n, reg, dtarget, dt); }
    EntriesKept(s.code, s.jpc, n);
    assert TargetsAhead(d, nodes, n, dt, n);
    ExecPatch(c.env, d, nodes, n, reg, dt, n, c.start, c.regs);
    assert Discharge(s').code == Patch(d, nodes, n, reg, dt);
  }

  lemma EntriesKept(code: seq<Instr>, nodes: seq<nat>, dest: int)
    requires Pending(code, nodes)
    ensures forall q: nat :: Entry(code, q) ==> Entry(Patch(code, nodes, dest, NO_REG, dest), q)
  {}

  /** The LOADBOOL pair: the first one skips the second. */
  lemma LabelsRun(env: Env, code: seq<Instr>, p: nat, reg: nat, rg: Regs)
    requires p + 2 == |code| && reg < |rg|
    requires code[p] == LoadBool(reg, false, true) && code[p + 1] == LoadBool(reg, true, false)
    ensures Exec(env, code, p, rg) == Fall(rg[reg := Bool(false)])
    ensures Exec(env, code, p + 1, rg) == Fall(rg[reg := Bool(true)])
  {
    assert forall rg' :: Exec(env, code, p + 2, rg') == Fall(rg');
  }

  predicate HasLabels(code: seq<Instr>, p: int, reg: nat) {
    0 <= p && p + 2 == |code| && code[p] == LoadBool(reg, false, true) && code[p + 1] == LoadBool(reg, true, false)
  }

  function Falsify(o: Outcome, really: bool, reg: nat): Outcome {
    match o
    case Fall(rg) => Fall(if really then SetReg(rg, reg, Bool(false)) else rg)
    case _ => o
  }

  /** A descriptor that is a comparison falls into the first LOADBOOL; any other value is
      already in its register and jumps over the pair. */
  lemma LoadLabelsRun(c: Ctx, s: State, isJump: bool, reg: nat)
    requires Begun(c, s)
    requires Wf(s) && IsReg(reg) && (isJump ==> s.jpc == []) && reg < |c.regs| && !LoadLabels(s, isJump, reg).0.err
    ensures
      var (s', p_f) := LoadLabels(s, isJump, reg);
      Out(c, s') == Falsify(Out(c, s), isJump, reg) && HasLabels(s'.code, p_f, reg)
  {
    hide LoadLabels, PoolOk, AllFit;
    LoadLabelsOk(s, isJump, reg);
    var (s', p_f) := LoadLabels(s, isJump, reg);
    var s1 := BeforeLabels(s, isJump);
    var labels := [LoadBool(reg, false, true), LoadBool(reg, true, false)];
    RunAppend(c, s1.code, labels, s1.lasttarget);
    if isJump {
      PatchNothing(s.code, |s.code|, NO_REG, |s.code|);
      PatchNothing(s'.code, |s'.code|, NO_REG, |s'.code|);
      match Out(c, s)
      case Fall(rg) => LabelsRun(c.env, s'.code, p_f, reg, rg);
      case _ =>
    } else {
      JumpRun(c, s);
      PatchNothing(s1.code, |s1.code|, NO_REG, |s1.code|);
      PatchEndRun(c, s'.code, s'.jpc, s'.lasttarget);
      PatchEndRun(c, s.code, s.jpc, s.lasttarget);
    }
  }

  lemma LabelledRun(c: Ctx, s: State, e: Exp, isJump: bool, reg: nat)
    requires Begun(c, s)
    requires Wf(s) && IsReg(reg) && ListsOk(s, e, 0) && reg < |c.regs| && !Labelled(s, e, isJump, reg).0.err
    requires isJump ==> s.jpc == [] && NeedValue(s.code, e.t)
    ensures
      var (s2, p_f, p_t) := Labelled(s, e, isJump, reg);
      && Out(c, s2) == Falsify(Out(c, s), isJump, reg)
      && (if NeedValue(s.code, e.t) || NeedValue(s.code, e.f) then HasLabels(s2.code, p_f, reg) && p_t == p_f + 1
          else p_f == p_t == -1)
  {
    if NeedValue(s.code, e.t) || NeedValue(s.code, e.f) { LoadLabelsRun(c, s, isJump, reg); }
  }

  lemma LabelsKept(code: seq<Instr>, p: int, reg: nat, nodes: seq<nat>, vtarget: int, r: nat, dtarget: int)
    requires HasLabels(code, p, reg) && Pending(code, nodes)
    ensures HasLabels(Patch(code, nodes, vtarget, r, dtarget), p, reg)
  {}

  /** One list of an expression closed: what left through it now arrives with its value. */
  lemma CloseOneRun(c: Ctx, s: State, nodes: seq<nat>, reg: nat, p: int, dtarget: int, side: bool)
    requires Begun(c, s)
    requires Wf(s) && ListOk(s, nodes, 0) && s.lasttarget == |s.code|
    requires TargetsAhead(s.code, nodes, |s.code|, dtarget, |s.code|)
    requires reg < |c.regs| && !PatchList(s, nodes, |s.code|, reg, dtarget).err
    requires dtarget >= 0 ==> HasLabels(s.code, p, reg) && dtarget == (if side then p + 1 else p)
    ensures Out(c, PatchList(s, nodes, |s.code|, reg, dtarget)) == Closed(Out(c, s), s.code, nodes, reg, side)
  {
    hide CodeOk, Exec, PoolOk, FormOk;
    PatchListRun(c, s, nodes, reg, dtarget);
    match Out(c, s)
    case Exit(j, rg) =>
      if j in nodes && !Carries(s.code, j) {
        var n := |s.code|;
        var s' := PatchList(s, nodes, n, reg, dtarget);
        LabelsKept(s.code, p, reg, nodes, n, reg, dtarget);
        PatchKeepsOthers(s.code, nodes, n, reg, dtarget, s.jpc);
        LabelsKept(s'.code, p, reg, s.jpc, n, NO_REG, n);
        LabelsRun(c.env, Discharge(s').code, p, reg, rg);
      }
    case _ =>
  }

  /** The outcome `o` once the jumps in `nodes`, which stand for `side`, go to the end. */
  function Closed(o: Outcome, code: seq<Instr>, nodes: seq<nat>, reg: nat, side: bool): Outcome {
    match o
    case Exit(j, rg) =>
      if j !in nodes then o
      else Fall(if Carries(code, j) then Delivered(code, j, reg, rg) else SetReg(rg, reg, Bool(side)))
    case _ => o
  }

  lemma ClosedSame(o: Outcome, code: seq<Instr>, code': seq<Instr>, nodes: seq<nat>, reg: nat, side: bool)
    requires forall j :: j in nodes ==> SameControl(code, code', j)
    ensures Closed(o, code, nodes, reg, side) == Closed(o, code', nodes, reg, side)
  {}

  lemma CloseListsRun(c: Ctx, s: State, e: Exp, isJump: bool, reg: nat)
    requires Begun(c, s)
    requires Wf(s) && IsReg(reg) && ListsOk(s, e, 0) && reg < |c.regs| && !CloseLists(s, e, isJump, reg).err
    requires isJump ==> s.jpc == [] && NeedValue(s.code, e.t)
    ensures Out(c, CloseLists(s, e, isJump, reg)) ==
      Closed(Closed(Falsify(Out(c, s), isJump, reg), s.code, e.f, reg, false), s.code, e.t, reg, true)
  {
    hide CodeOk, Exec, PoolOk, FormOk, Run, Patch, LoadLabels;
    var (s2, p_f, p_t) := Labelled(s, e, isJump, reg);
    var final := |s2.code|;
    var s3 := PatchList(s2, e.f, final, reg, p_f);
    LabelledOk(s, e, isJump, reg);
    LabelledRun(c, s, e, isJump, reg);
    PatchListOk(s2, e.f, final, reg, p_f);
    SecondListOk(s2, e.f, e.t, final, reg, p_f, p_t);
    CloseOneRun(c, s2, e.f, reg, p_f, p_f, false);
    if p_f >= 0 { LabelsKept(s2.code, p_f, reg, e.f, final, reg, p_f); }
    CloseOneRun(c, s3, e.t, reg, p_f, p_t, true);
    assert forall j :: j in e.t ==> j in e.t + e.f;
    assert forall j :: j in e.f ==> j in e.t + e.f;
    ClosedSame(Out(c, s2), s.code, s2.code, e.f, reg, false);
    ClosedSame(Out(c, s3), s.code, s3.code, e.t, reg, true);
  }

  /** The run went on to the end with `v` in register `reg`; below `r0` only `reg` changed. */
  predicate Delivers(o: Outcome, rg1: Regs, reg: nat, v: Value, r0: nat) {
    && o.Fall? && |o.regs| == |rg1|
    && reg < |o.regs| && o.regs[reg] == v
    && (forall i :: 0 <= i < r0 && i < |rg1| && i != reg ==> o.regs[i] == rg1[i])
  }

  lemma JumpNeedsValue(s: State, e: Exp)
    requires e.k.VJmp? && KindOk(s.code, e.k)
    ensures NeedValue(s.code, e.t + [e.k.info])
  {
    assert e.k.info in e.t + [e.k.info] && !Carries(s.code, e.k.info);
  }

  lemma DischargeOfNoJumps(c: Ctx, s: State)
    requires s.jpc == []
    ensures Out(c, s) == Run(c, s.code)
  {
    PatchNothing(s.code, |s.code|, NO_REG, |s.code|);
  }

  /** A value in its register, or on its way there through a list. */
  predicate Arriving(o: Outcome, code: seq<Instr>, t: seq<nat>, f: seq<nat>, rg1: Regs, reg: nat, v: Value, r0: nat) {
    match o
    case Fall(_) => Delivers(o, rg1, reg, v, r0)
    case Exit(j, rg) => Agree(rg, rg1, r0) && LeavesBy(code, t, f, j, rg, v)
    case _ => false
  }

  lemma ArrivingDelivers(o: Outcome, code: seq<Instr>, t: seq<nat>, f: seq<nat>, rg1: Regs, reg: nat, v: Value, r0: nat)
    requires Arriving(o, code, t, f, rg1, reg, v, r0) && Disjoint(t, f)
    requires reg < |rg1| && reg != NO_REG
    ensures Delivers(Closed(Closed(o, code, f, reg, false), code, t, reg, true), rg1, reg, v, r0)
  {
    if o.Exit? && Carries(code, o.node) {
      assert Delivered(code, o.node, reg, o.regs) == SetReg(o.regs, reg, v);
    }
  }

  /** A jump that is on neither list stays. */
  lemma ClosedElsewhere(o: Outcome, code: seq<Instr>, t: seq<nat>, f: seq<nat>, reg: nat)
    requires o.Returned? || o.Back? || (o.Exit? && o.node !in t && o.node !in f)
    ensures Closed(Closed(o, code, f, reg, false), code, t, reg, true) == o
  {}

  lemma Exp2RegJumpRun(c: Ctx, s: State, e: Exp, reg: nat, base: nat, rg1: Regs, v: Value, r0: nat)
    requires Begun(c, s)
    requires ExpAt(s, e, base) && e.k.VJmp? && reg < MAXSTACK && reg < |c.regs|
    requires !Exp2Reg(s, e, reg).0.err
    ensures
      var s' := Exp2Reg(s, e, reg).0;
      && (LeavesElsewhere(Out(c, s), e) ==> Out(c, s') == Out(c, s))
      && (Computes(c, s, e, rg1, v, r0) ==> Delivers(Out(c, s'), rg1, reg, v, r0))
  {
    hide CodeOk, PoolOk, FormOk, Run, Patch, CloseLists, Closed;
    var j := e.k.info;
    var s2, e2 := Link(s, e.t, [j]), e.(t := e.t + [j]);
    DistinctConcat(e.t, [j]);
    assert ListsOk(s2, e2, 0);
    JumpNeedsValue(s, e);
    assert Out(c, s2) == Out(c, s);
    CloseListsRun(c, s2, e2, true, reg);
    var o := Falsify(Out(c, s), true, reg);
    if LeavesElsewhere(Out(c, s), e) { ClosedElsewhere(o, s.code, e2.t, e2.f, reg); }
    if Computes(c, s, e, rg1, v, r0) {
      assert !Carries(s.code, j);
      assert Arriving(o, s.code, e2.t, e2.f, rg1, reg, v, r0);
      ArrivingDelivers(o, s.code, e2.t, e2.f, rg1, reg, v, r0);
    }
  }

  lemma ArrivingSame(o: Outcome, code: seq<Instr>, code': seq<Instr>, t: seq<nat>, f: seq<nat>, rg1: Regs, reg: nat,
      v: Value, r0: nat)
    requires Arriving(o, code, t, f, rg1, reg, v, r0)
    requires forall j :: j in t || j in f ==> SameControl(code, code', j)
    ensures Arriving(o, code', t, f, rg1, reg, v, r0)
  {}

  /** After discharge2reg the value of anything but a comparison is in place or on a list. */
  lemma DischargedArrives(c: Ctx, s: State, e: Exp, reg: nat, base: nat, rg1: Regs, v: Value, r0: nat)
    requires Begun(c, s)
    requires ExpAt(s, e, base) && !e.k.VJmp? && IsReg(reg) && reg < |c.regs|
    requires !Discharge2Reg(s, e, reg).0.err && Discharge2Reg(s, e, reg).0.pool.k <= c.env.K
    requires ConcatAt(s.code, e.k) ==> r0 <= s.code[e.k.info].b
    ensures
      var s1 := Discharge2Reg(s, e, reg).0;
      && Wf(s1) && ListsOk(s1, e, base)
      && (Gone(RunOf(c, s, e.k)) ==> Out(c, s1) == RunOf(c, s, e.k))
      && (Computes(c, s, e, rg1, v, r0) ==> Arriving(Out(c, s1), s1.code, e.t, e.f, rg1, reg, v, r0))
  {
    hide CodeOk, PoolOk, FormOk, Run, Patch, Rhs, Discharge2Reg;
    var s1 := Discharge2Reg(s, e, reg).0;
    Discharge2RegOk(s, e, reg, base);
    Discharge2RegRun(c, s, e, reg, base);
    KeepsList(s, s1, [], e.t, base);
    KeepsList(s, s1, [], e.f, base);
    if Computes(c, s, e, rg1, v, r0) {
      assert Arriving(Out(c, s1), s.code, e.t, e.f, rg1, reg, v, r0);
      ArrivingSame(Out(c, s1), s.code, s1.code, e.t, e.f, rg1, reg, v, r0);
    }
  }

  /** exp2reg puts the value of any expression into the register, whichever way control takes. */
  lemma Exp2RegRun(c: Ctx, s: State, e: Exp, reg: nat, base: nat, rg1: Regs, v: Value, r0: nat)
    requires Begun(c, s)
    requires ExpAt(s, e, base) && reg < MAXSTACK && reg < |c.regs| && |rg1| == |c.regs|
    requires !Exp2Reg(s, e, reg).0.err && Exp2Reg(s, e, reg).0.pool.k <= c.env.K
    requires ConcatAt(s.code, e.k) ==> r0 <= s.code[e.k.info].b
    ensures
      var s' := Exp2Reg(s, e, reg).0;
      && (LeavesElsewhere(RunOf(c, s, e.k), e) ==> Out(c, s') == RunOf(c, s, e.k))
      && (Computes(c, s, e, rg1, v, r0) ==> Delivers(Out(c, s'), rg1, reg, v, r0))
  {
    if e.k.VJmp? { Exp2RegJumpRun(c, s, e, reg, base, rg1, v, r0); }
    else {
      hide CodeOk, PoolOk, FormOk, Run, Patch, CloseLists, Closed, Computes, Discharge, Discharge2Reg;
      var (s1, e1) := Discharge2Reg(s, e, reg);
      DischargedArrives(c, s, e, reg, base, rg1, v, r0);
      if HasJumps(e) {
        assert ListsOk(s1, e1, 0);
        CloseListsRun(c, s1, e1, false, reg);
        var o := Out(c, s1);
        assert Falsify(o, false, reg) == o;
        if LeavesElsewhere(RunOf(c, s, e.k), e) { ClosedElsewhere(o, s1.code, e.t, e.f, reg); }
        if Computes(c, s, e, rg1, v, r0) { ArrivingDelivers(o, s1.code, e.t, e.f, rg1, reg, v, r0); }
      }
    }
  }
}
