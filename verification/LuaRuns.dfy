/** What the elementary operations of the code generator do to the runs of the code. */
module LuaRuns {
  import opened Wrappers
  import opened LuaValues
  import opened LuaOpcodes
  import opened LuaVm
  import opened LuaPatch
  import opened LuaConstants
  import opened LuaCode
  import opened LuaShape
  import opened LuaEncoding

  /** A forward run: the surroundings, the registers it starts with, and where it starts. */
  datatype Ctx = Ctx(env: Env, regs: Regs, start: nat)

  predicate Begun(c: Ctx, s: State) { c.start in s.labels }

  function Run(c: Ctx, code: seq<Instr>): (o: Outcome)
    ensures o.Fall? || o.Exit? || o.Back? ==> |o.regs| == |c.regs|
    ensures o.Exit? ==> o.node < |code| && code[o.node] == Jmp(OPEN)
  {
    Exec(c.env, code, c.start, c.regs)
  }

  /** How runs of the code emitted so far end, jumps to here counting as reaching the end. */
  function Out(c: Ctx, s: State): (o: Outcome)
    ensures o.Fall? || o.Exit? || o.Back? ==> |o.regs| == |c.regs|
  {
    Run(c, Discharge(s).code)
  }

  /** The run has the function's constants and a frame large enough for its registers. */
  predicate Fits(c: Ctx, s: State) {
    s.pool.k <= c.env.K && s.maxstack <= |c.regs|
  }

  /** A run of well-formed code starts where control may arrive. */
  lemma Starts(c: Ctx, s: State)
    requires Wf(s) && Begun(c, s)
    ensures c.start <= s.lasttarget <= |s.code| && Entry(s.code, c.start) && Entry(Discharge(s).code, c.start)
  {}

  lemma RunAppend(c: Ctx, code: seq<Instr>, more: seq<Instr>, target: nat)
    requires CodeOk(code, target) && c.start <= |code|
    ensures Run(c, code + more) ==
      match Run(c, code)
      case Fall(rg) => Exec(c.env, code + more, |code|, rg)
      case o => o
  {
    ExecAppend(c.env, code, more, target, c.start, c.regs);
  }

  /** The effect of one instruction without jumps. */
  function After(env: Env, i: Instr, rg: Regs): (o: Outcome)
    ensures o.Fall? ==> |o.regs| == |rg|
  {
    if i.LoadNil? then (if i.a + i.b < |rg| then Fall(Nils(rg, i.a, i.b + 1)) else Stuck)
    else if (i.Move? || i.LoadK? || i.LoadBool? || i.Relocatable()) && i.a < |rg| then
      (match Rhs(env, i, rg) case Some(v) => Fall(Scratch(env.P, i, rg)[i.a := v]) case None => Stuck)
    else Stuck
  }

  predicate Straight(i: Instr) {
    i.Move? || i.LoadK? || i.LoadNil? || i.Relocatable() || (i.LoadBool? && !i.skip)
  }

  function Then(env: Env, o: Outcome, i: Instr): Outcome {
    match o
    case Fall(rg) => After(env, i, rg)
    case _ => o
  }

  lemma StraightStep(env: Env, code: seq<Instr>, pc: nat, rg: Regs)
    requires pc < |code| && Straight(code[pc])
    ensures StepAt(env, code, pc, rg) ==
      match After(env, code[pc], rg)
      case Fall(rg') => Next(pc + 1, rg')
      case _ => Wrong
  {}

  lemma LastStep(env: Env, code: seq<Instr>, i: Instr, rg: Regs)
    requires Straight(i)
    ensures Exec(env, code + [i], |code|, rg) == After(env, i, rg)
  {
    hide StepAt, After;
    var code' := code + [i];
    assert code'[|code|] == i;
    StraightStep(env, code', |code|, rg);
    AfterKinds(env, i, rg);
    assert forall rg' :: Exec(env, code', |code'|, rg') == Fall(rg');
  }

  lemma AfterKinds(env: Env, i: Instr, rg: Regs)
    ensures After(env, i, rg).Fall? || After(env, i, rg) == Stuck
  {}

  lemma AppendRun(c: Ctx, code: seq<Instr>, i: Instr, target: nat)
    requires CodeOk(code, target) && Straight(i) && c.start <= |code|
    ensures Run(c, code + [i]) == Then(c.env, Run(c, code), i)
  {
    RunAppend(c, code, [i], target);
    match Run(c, code)
    case Fall(rg) => LastStep(c.env, code, i, rg);
    case _ =>
  }

  lemma EmitRun(c: Ctx, s: State, i: Instr)
    requires Begun(c, s)
    requires Wf(s) && Straight(i) && !Emit(s, i).err
    ensures Out(c, Emit(s, i)) == Then(c.env, Out(c, s), i)
    ensures Emit(s, i).code == Discharge(s).code + [i]
  {
    DischargeOk(s);
    var d, s' := Discharge(s), Emit(s, i);
    PatchNothing(s'.code, |s'.code|, NO_REG, |s'.code|);
    AppendRun(c, d.code, i, d.lasttarget);
  }

  /** Whether a test sends control to the jump that follows it. */
  function Passes(env: Env, i: Instr, rg: Regs): Option<bool> {
    match i
    case Cmp(op, cond, b, c) =>
      (match (Rk(env, rg, b), Rk(env, rg, c))
       case (Some(x), Some(y)) => Some(env.P.Compare(op, x, y) == cond)
       case _ => None)
    case Test(a, when) => (match Reg(rg, a) case Some(v) => Some(Truthy(v) == when) case None => None)
    case TestSet(_, b, when) => (match Reg(rg, b) case Some(v) => Some(Truthy(v) == when) case None => None)
    case _ => None
  }

  function Branch(env: Env, o: Outcome, i: Instr, j: nat): Outcome {
    match o
    case Fall(rg) => (match Passes(env, i, rg)
      case Some(taken) => if taken then Exit(j, rg) else Fall(rg)
      case None => Stuck)
    case _ => o
  }

  lemma TestStep(env: Env, code: seq<Instr>, i: Instr, rg: Regs)
    requires i.IsTest()
    ensures Exec(env, code + [i, Jmp(OPEN)], |code|, rg) == Branch(env, Fall(rg), i, |code| + 1)
  {
    var code' := code + [i, Jmp(OPEN)];
    assert code'[|code|] == i && code'[|code| + 1] == Jmp(OPEN);
    assert Exec(env, code', |code| + 2, rg) == Fall(rg);
  }

  lemma CondJumpRun(c: Ctx, s: State, i: Instr)
    requires Begun(c, s)
    requires Wf(s) && i.IsTest() && Encodable(i) && !CondJump(s, i).0.err
    ensures Out(c, CondJump(s, i).0) == Branch(c.env, Out(c, s), i, |s.code| + 1)
  {
    DischargeOk(s);
    CondJumpOk(s, i);
    var d, s' := Discharge(s), CondJump(s, i).0;
    PatchNothing(s'.code, |s'.code|, NO_REG, |s'.code|);
    RunAppend(c, d.code, [i, Jmp(OPEN)], d.lasttarget);
    match Out(c, s)
    case Fall(rg) => TestStep(c.env, d.code, i, rg);
    case _ =>
  }

  /** Patching jumps to here makes exactly the runs that left through them reach the end. */
  lemma PatchEndRun(c: Ctx, code: seq<Instr>, nodes: seq<nat>, target: nat)
    requires CodeOk(code, target) && Pending(code, nodes) && Entry(code, c.start)
    ensures Run(c, Patch(code, nodes, |code|, NO_REG, |code|)) ==
      match Run(c, code)
      case Exit(j, rg) => if j in nodes then Fall(rg) else Exit(j, rg)
      case o => o
  {
    EntryAtEnd(code, target);
    assert CodeOk(code, |code|) by {
      forall k | 0 <= k < |code| ensures InstrOk(code, |code|, k) { assert InstrOk(code, target, k); }
    }
    ExecPatch(c.env, code, nodes, |code|, NO_REG, |code|, |code|, c.start, c.regs);
  }

  lemma PatchToHereRun(c: Ctx, s: State, nodes: seq<nat>)
    requires Begun(c, s)
    requires Wf(s) && ListOk(s, nodes, 0) && !PatchToHere(s, nodes).err
    ensures Out(c, PatchToHere(s, nodes)) ==
      match Out(c, s)
      case Exit(j, rg) => if j in nodes then Fall(rg) else Exit(j, rg)
      case o => o
  {
    PatchToHereOk(s, nodes);
    PatchTwice(s.code, s.jpc, nodes, |s.code|);
    PatchKeepsOthers(s.code, s.jpc, |s.code|, NO_REG, |s.code|, nodes);
    var d := Patch(s.code, s.jpc, |s.code|, NO_REG, |s.code|);
    assert d == Discharge(s).code;
    DischargeShape(s);
    PatchEndRun(c, d, nodes, s.lasttarget);
  }

  lemma DischargeShape(s: State)
    requires Wf(s)
    ensures CodeOk(Discharge(s).code, s.lasttarget)
  {
    if s.jpc == [] { PatchNothing(s.code, |s.code|, NO_REG, |s.code|); }
    else {
      EntryAtEnd(s.code, s.lasttarget);
      PatchKeepsShape(s.code, s.jpc, |s.code|, NO_REG, |s.code|, |s.code|);
    }
  }

  /** Jump threading: what would have reached the new jump is on its list instead, with the
      same registers; every other run is as before. */
  lemma JumpRun(c: Ctx, s: State)
    requires Begun(c, s)
    requires Wf(s) && !Jump(s).0.err
    ensures
      var (s', js) := Jump(s);
      match Out(c, s)
      case Fall(rg) => Out(c, s').Exit? && Out(c, s').node in js && Out(c, s').regs == rg
      case o => Out(c, s') == o
  {
    var s' := Jump(s).0;
    PatchNothing(s'.code, |s'.code|, NO_REG, |s'.code|);
    PatchEndRun(c, s.code, s.jpc, s.lasttarget);
    RunAppend(c, s.code, [Jmp(OPEN)], s.lasttarget);
    match Run(c, s.code)
    case Fall(rg) => assert (s.code + [Jmp(OPEN)])[|s.code|] == Jmp(OPEN);
    case Exit(j, rg) =>
    case _ =>
  }

  // ----- LOADNIL merging -----

  lemma MergedNils(rg: Regs, a: nat, n: nat, b: nat, m: nat)
    requires a + n <= |rg| && b + m <= |rg| && n > 0 && m > 0
    requires (a <= b <= a + n) || (b <= a <= b + m)
    ensures
      var lo := if a < b then a else b;
      var hi := if a + n > b + m then a + n else b + m;
      Nils(Nils(rg, a, n), b, m) == Nils(rg, lo, hi - lo)
  {
    hide Nils;
    var lo := if a < b then a else b;
    var hi := if a + n > b + m then a + n else b + m;
    var once := Nils(rg, a, n);
    NilsAt(rg, a, n);
    NilsAt(once, b, m);
    NilsAt(rg, lo, hi - lo);
    forall i | 0 <= i < |rg| ensures Nils(once, b, m)[i] == Nils(rg, lo, hi - lo)[i] {}
  }

  lemma NilsAt(rg: Regs, a: nat, n: nat)
    requires a + n <= |rg|
    ensures forall i :: 0 <= i < |rg| ==> Nils(rg, a, n)[i] == if a <= i < a + n then Nil else rg[i]
  {}

  lemma MergedAfter(env: Env, rg: Regs, a: nat, pl: nat, from: nat, l: nat)
    requires a <= pl && from <= l < |rg|
    requires (a <= from <= pl + 1) || (from <= a <= l + 1)
    ensures
      var lo := if a < from then a else from;
      var hi := if pl > l then pl else l;
      After(env, LoadNil(lo, hi - lo), rg) ==
        match After(env, LoadNil(a, pl - a), rg)
        case Fall(rg') => Fall(Nils(rg', from, l - from + 1))
        case o => o
  {
    hide Nils, Rhs, Scratch;
    if pl < |rg| { MergedNils(rg, a, pl - a + 1, from, l - from + 1); }
  }

  lemma MergedRun(c: Ctx, before: seq<Instr>, target: nat, a: nat, pl: nat, from: nat, l: nat)
    requires CodeOk(before, target) && a <= pl && from <= l < |c.regs| && c.start <= |before|
    requires (a <= from <= pl + 1) || (from <= a <= l + 1)
    ensures
      var lo := if a < from then a else from;
      var hi := if pl > l then pl else l;
      Run(c, before + [LoadNil(lo, hi - lo)]) ==
        match Run(c, before + [LoadNil(a, pl - a)])
        case Fall(rg) => Fall(Nils(rg, from, l - from + 1))
        case o => o
  {
    hide Run, CodeOk, After;
    var lo := if a < from then a else from;
    var hi := if pl > l then pl else l;
    AppendRun(c, before, LoadNil(a, pl - a), target);
    AppendRun(c, before, LoadNil(lo, hi - lo), target);
    match Run(c, before)
    case Fall(rg) => MergedAfter(c.env, rg, a, pl, from, l);
    case _ =>
  }

  /** luaK_nil sets exactly the registers asked for, whether or not it merges its LOADNIL into
      the previous one: nothing can land between the two. */
  lemma LoadNilsRun(c: Ctx, s: State, from: nat, n: nat)
    requires Begun(c, s)
    requires Wf(s) && n > 0 && from + n <= |c.regs| && !LoadNils(s, from, n).err
    ensures Out(c, LoadNils(s, from, n)) ==
      match Out(c, s)
      case Fall(rg) => Fall(Nils(rg, from, n))
      case o => o
  {
    hide Exec, PoolOk, FormOk, Run, After, Patch, PatchAt, CodeOk, Emit, LoadNils, Then, Discharge, Pending, Distinct,
      Out, Nils;
    LoadNilsShape(s, from, n);
    if LoadNils(s, from, n) == Emit(s, LoadNil(from, n - 1)) {
      EmitRun(c, s, LoadNil(from, n - 1));
      NilsAfter(c.env, Out(c, s), from, n);
    } else {
      var s' := LoadNils(s, from, n);
      var m := |s.code| - 1;
      Starts(c, s);
      CutOk(s.code, s.lasttarget, m);
      OutWithoutJumps(c, s);
      OutWithoutJumps(c, s');
      var a, pl := s.code[m].a, s.code[m].a + s.code[m].b;
      assert s.code == s.code[..m] + [LoadNil(a, pl - a)];
      MergedRun(c, s.code[..m], s.lasttarget, a, pl, from, from + n - 1);
    }
  }

  lemma OutWithoutJumps(c: Ctx, s: State)
    requires s.jpc == []
    ensures Out(c, s) == Run(c, s.code)
  {
    PatchNothing(s.code, |s.code|, NO_REG, |s.code|);
  }

  /** luaK_nil either emits an instruction or widens the last one, which nothing jumps over. */
  lemma LoadNilsShape(s: State, from: nat, n: nat)
    requires Wf(s) && n > 0
    ensures
      var s' := LoadNils(s, from, n);
      || s' == Emit(s, LoadNil(from, n - 1))
      || (|s.code| > s.lasttarget && s.jpc == [] && s.code[|s.code| - 1].LoadNil? &&
          var m := |s.code| - 1;
          var a, pl, l := s.code[m].a, s.code[m].a + s.code[m].b, from + n - 1;
          var lo := if a < from then a else from;
          var hi := if pl > l then pl else l;
          && ((a <= from <= pl + 1) || (from <= a <= l + 1))
          && s' == s.(code := s.code[..m] + [LoadNil(lo, hi - lo)]))
  {
    hide CodeOk, PoolOk, FormOk, Emit;
  }

  lemma NilsAfter(env: Env, o: Outcome, from: nat, n: nat)
    requires n > 0 && (o.Fall? ==> from + n <= |o.regs|)
    ensures Then(env, o, LoadNil(from, n - 1)) == match o case Fall(rg) => Fall(Nils(rg, from, n)) case _ => o
  {}
}
