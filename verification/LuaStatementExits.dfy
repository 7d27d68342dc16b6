/** Conditions, and what statements leave alone: a run that had left before them. */
module LuaStatementExits {
  import opened LuaValues
  import opened LuaVm
  import opened LuaPatch
  import opened LuaConstants
  import opened LuaCode
  import opened LuaShape
  import opened LuaRuns
  import opened LuaSemantics
  import opened LuaSemanticsOps
  import opened LuaCompiler
  import opened LuaExprLists
  import opened LuaAssignment
  import opened LuaStatements
  import opened LuaTurns

  /** The run can be followed from `s` to `s'`. */
  ghost predicate Ready(c: Ctx, s: State, s': State) {
    Between(s) && Begun(c, s) && c.env.P.FoldsFaithfully() && !s'.err && Fits(c, s')
  }

  lemma ReadyAlike(c: Ctx, c': Ctx, s: State, s': State)
    requires Ready(c, s, s') && Alike(c, c') && Begun(c', s)
    ensures Ready(c', s, s')
  {}

  lemma ReadyAfter(c: Ctx, s: State, s1: State, s': State)
    requires Ready(c, s, s') && Settles(s, s1)
    ensures Ready(c, s1, s')
  {}

  // ----- conditions -----

  /** A condition: the run goes on when its truth is `on`, and leaves through `js` otherwise. */
  ghost predicate Branches(o: Outcome, o': Outcome, cond: Regs -> Value, on: bool, js: seq<nat>, n: nat) {
    && (o.Fall? ==>
          && (if Truthy(cond(o.regs)) == on then o'.Fall? else o'.Exit? && o'.node in js)
          && Agree(o'.regs, o.regs, n))
    && (Gone(o) ==> o' == o)
  }

  lemma ConditionRun(c: Ctx, s: State, cond: Expr)
    requires InScope(cond, s.nactvar) && Ready(c, s, Condition(c.env.P, s, cond).0)
    ensures
      var (s', jf) := Condition(c.env.P, s, cond);
      Branches(Out(c, s), Out(c, s'), Meaning(c.env.P, cond), true, jf, s.nactvar)
  {
    hide CodeOk, PoolOk, FormOk, Compile, GoIfTrue, Evolves, Discharge, Run, RunOf, Computes;
    var P := c.env.P;
    var (s1, e1) := Compile(P, s, cond);
    var (s2, e2) := GoIfTrue(s1, e1);
    var o := Out(c, s);
    CompileOk(P, s, cond);
    CompileRun(c, s, cond);
    ProperString(c, s1, s2, e1.k);
    if o.Fall? {
      GoIfTrueRun(c, s1, e1, |s.code|, o.regs, Eval(P, cond, o.regs), s.freereg);
    } else if Gone(o) {
      EarlierExit(c, s, s1, e1);
      GoIfTrueRun(c, s1, e1, |s.code|, c.regs, Nil, s.freereg);
    }
  }

  lemma BreakConditionRun(c: Ctx, s: State, cond: Expr)
    requires InScope(cond, s.nactvar) && Ready(c, s, BreakCondition(c.env.P, s, cond).0)
    ensures
      var (s', jt) := BreakCondition(c.env.P, s, cond);
      Branches(Out(c, s), Out(c, s'), Meaning(c.env.P, cond), false, jt, s.nactvar)
  {
    hide CodeOk, PoolOk, FormOk, Compile, GoIfFalse, Evolves, Discharge, Run, RunOf, Computes;
    var P := c.env.P;
    var (s1, e1) := Compile(P, s, cond);
    var (s2, e2) := GoIfFalse(s1, e1);
    var o := Out(c, s);
    CompileOk(P, s, cond);
    CompileRun(c, s, cond);
    if o.Fall? {
      GoIfFalseRun(c, s1, e1, |s.code|, o.regs, Eval(P, cond, o.regs), s.freereg);
    } else if Gone(o) {
      EarlierExit(c, s, s1, e1);
      GoIfFalseRun(c, s1, e1, |s.code|, c.regs, Nil, s.freereg);
    }
  }

  /** cond turns nil into false: the same truth. */
  function AsFalse(e: Exp): Exp { if e.k.VNil? then e.(k := VFalse) else e }

  lemma NilIsFalse(c: Ctx, s: State, e: Exp, rg: Regs, v: Value, r0: nat) returns (v': Value)
    requires Computes(c, s, e, rg, v, r0)
    ensures Computes(c, s, AsFalse(e), rg, v', r0) && Truthy(v') == Truthy(v)
  {
    hide Out;
    v' := if e.k.VNil? && Out(c, s).Fall? then Bool(false) else v;
  }

  lemma LoopConditionRun(c: Ctx, s: State, cond: Expr)
    requires InScope(cond, s.nactvar) && Ready(c, s, LoopCondition(c.env.P, s, cond).0)
    ensures
      var (s', jf) := LoopCondition(c.env.P, s, cond);
      Branches(Out(c, s), Out(c, s'), Meaning(c.env.P, cond), true, jf, s.nactvar)
  {
    hide CodeOk, PoolOk, FormOk, Compile, GoIfTrue, Evolves, Discharge, Run, RunOf, Computes;
    var P := c.env.P;
    var (s1, e0) := Compile(P, s, cond);
    var e1 := AsFalse(e0);
    var (s2, e2) := GoIfTrue(s1, e1);
    var o := Out(c, s);
    CompileOk(P, s, cond);
    CompileRun(c, s, cond);
    ProperString(c, s1, s2, e1.k);
    if o.Fall? {
      var v := NilIsFalse(c, s1, e0, o.regs, Eval(P, cond, o.regs), s.freereg);
      GoIfTrueRun(c, s1, e1, |s.code|, o.regs, v, s.freereg);
    } else if Gone(o) {
      EarlierExit(c, s, s1, e0);
      SameRun(c, s1, e0);
      GoIfTrueRun(c, s1, e1, |s.code|, c.regs, Nil, s.freereg);
    }
  }

  lemma SameRun(c: Ctx, s: State, e: Exp)
    ensures RunOf(c, s, AsFalse(e).k) == RunOf(c, s, e.k) && Own(AsFalse(e)) == Own(e)
  {}

  // ----- runs that have left -----

  lemma LeftByOther(c: Ctx, s0: State, s: State, s': State, nodes: seq<nat>)
    requires Between(s0) && Begun(c, s0) && Stays(c, s0, s) && EscapesFrom(s0, [], nodes)
    requires !Out(c, s).Fall? ==> Out(c, s') == Landed(Out(c, s), nodes)
    ensures Stays(c, s0, s')
  {
    hide Wf, Out, EscapesFrom;
    if Out(c, s0).Exit? { NotOnList(c, s0, nodes); }
  }

  lemma ConditionStays(c: Ctx, s: State, cond: Expr)
    requires InScope(cond, s.nactvar) && Ready(c, s, LoopCondition(c.env.P, s, cond).0)
    ensures Stays(c, s, LoopCondition(c.env.P, s, cond).0)
  {
    hide Ready, Out, LoopCondition;
    LoopConditionRun(c, s, cond);
  }

  lemma HeadRun(c: Ctx, s: State)
    ensures Out(c, LoopHead(s)) == Out(c, s)
  {
    OnlyCode(c, s, LoopHead(s));
  }

  lemma {:induction false} StmtStays(c: Ctx, s: State, st: Stmt, gt: Gotos)
    requires StmtInScope(st, s.nactvar) && ListOk(s, Flat(gt), 0) && Ready(c, s, CompileStmt(c.env.P, s, st, gt).0)
    ensures Stays(c, s, CompileStmt(c.env.P, s, st, gt).0)
    decreases st
  {
    hide CodeOk, PoolOk, FormOk, Compile, NextRegs, AdjustAssign, NewLocals, Values, Adjusted, PutRegs, StoreRegs,
      AssignAll, PatchToHere, CompileBranch, CompileBlock, ListOk, Out, Agree, Evolves, EscapesFrom, LoopCondition,
      LoopHead, EndLoop, EndWhile;
    var P, n := c.env.P, s.nactvar;
    var s' := CompileStmt(P, s, st, gt).0;
    match st
    case Local(k, es) =>
      LocalsRun(c, s, k, es, c.regs);
      OnlyCode(c, AdjustAssign(NextRegs(P, s, es), k, |es|), s');
    case Assign(rs, es) =>
      AssignRun(c, s, rs, es, c.regs);
      OnlyCode(c, AssignAll(P, s, rs, es), s');
    case Do(b) =>
      BlockStays(c, s, b, gt);
      OnlyCode(c, CompileBlock(P, s, b, gt).0, s');
    case If(br) =>
      var (s1, esc, gt1) := CompileBranch(P, s, br, [], gt);
      NoList(s);
      BranchOk(P, s, br, [], gt);
      BranchStays(c, s, br, [], gt);
      PatchToHereRun(c, s1, esc);
      LeftByOther(c, s, s1, s', esc);
    case While(cond, b) => WhileStays(c, s, cond, b, gt);
    case Repeat(b, cond) => RepeatStays(c, s, b, cond, gt);
    case Break => JumpRun(c, s);
  }

  lemma {:induction false} WhileStays(c: Ctx, s: State, cond: Expr, b: Block, gt: Gotos)
    requires InScope(cond, s.nactvar) && BlockInScope(b, s.nactvar) && ListOk(s, Flat(gt), 0)
    requires Ready(c, s, CompileStmt(c.env.P, s, While(cond, b), gt).0)
    ensures Stays(c, s, CompileStmt(c.env.P, s, While(cond, b), gt).0)
    decreases While(cond, b), 0
  {
    hide Between, Evolves, ListOk, LoopCondition, CompileBlock, EndWhile, LoopHead, EscapesFrom, Disjoint, Out;
    var P := c.env.P;
    var sh := LoopHead(s);
    var (s1, jf) := LoopCondition(P, sh, cond);
    var (sb, gt1) := CompileBlock(P, s1, b, gt);
    var breaks, s3 := gt1[|gt|..], LeaveBlock(sb, s.nactvar);
    var s' := EndWhile(s3, |s.code|, jf, breaks);
    WhileParts(P, s, cond, b, gt);
    HeadRun(c, s);
    ConditionStays(c, sh, cond);
    BlockStays(c, s1, b, gt);
    OnlyCode(c, sb, s3);
    EndWhileRun(c, s3, |s.code|, jf, breaks);
    BothEscape(s, Flat(breaks), jf);
    LeftByOther(c, s, s3, s', Flat(breaks) + jf);
  }

  lemma {:induction false} RepeatStays(c: Ctx, s: State, b: Block, cond: Expr, gt: Gotos)
    requires BlockInScope(b, s.nactvar) && InScope(cond, BlockEnd(b, s.nactvar)) && ListOk(s, Flat(gt), 0)
    requires Ready(c, s, CompileStmt(c.env.P, s, Repeat(b, cond), gt).0)
    ensures Stays(c, s, CompileStmt(c.env.P, s, Repeat(b, cond), gt).0)
    decreases Repeat(b, cond), 0
  {
    hide Between, Evolves, ListOk, LoopCondition, CompileBlock, EndLoop, LoopHead, EscapesFrom, Disjoint, Out;
    var P := c.env.P;
    var sh := LoopHead(s);
    var (sb, gt1) := CompileBlock(P, sh, b, gt);
    var (s1, jf) := LoopCondition(P, sb, cond);
    var breaks, s3 := gt1[|gt|..], LeaveBlock(s1, s.nactvar);
    RepeatParts(P, s, b, cond, gt);
    HeadRun(c, s);
    BlockStays(c, sh, b, gt);
    ConditionStays(c, sb, cond);
    OnlyCode(c, s1, s3);
    EndLoopRun(c, s3, jf, |s.code|, breaks);
    if Out(c, s).Exit? {
      NotOnList(c, s, jf);
      NotOnList(c, s, Flat(breaks));
    }
  }

  lemma {:induction false} BranchStays(c: Ctx, s: State, br: Branch, esc: seq<nat>, gt: Gotos)
    requires BranchInScope(br, s.nactvar) && Apart(s, esc, Flat(gt))
    requires Ready(c, s, CompileBranch(c.env.P, s, br, esc, gt).0)
    ensures Stays(c, s, CompileBranch(c.env.P, s, br, esc, gt).0)
    decreases br, 1
  {
    hide Between, TestThenBlock, CompileTail, Evolves, Apart, Out, EscapesFrom;
    var (s1, esc1, gt1) := TestThenBlock(c.env.P, s, br, esc, gt);
    ArmOk(c.env.P, s, br, esc, gt);
    ArmStays(c, s, br, esc, gt);
    ApartAgain(s, s1, esc, esc1, Flat(gt), Flat(gt1));
    TailStays(c, s1, br.tail, esc1, gt1);
  }

  lemma {:induction false} TailStays(c: Ctx, s: State, t: Tail, esc: seq<nat>, gt: Gotos)
    requires TailInScope(t, s.nactvar) && Apart(s, esc, Flat(gt))
    requires Ready(c, s, CompileTail(c.env.P, s, t, esc, gt).0)
    ensures Stays(c, s, CompileTail(c.env.P, s, t, esc, gt).0)
    decreases t
  {
    hide Wf, CompileBlock, CompileBranch, Evolves, ListOk, Out, Disjoint;
    match t
    case End =>
    case Else(b) =>
      var s1 := CompileBlock(c.env.P, s, b, gt).0;
      BlockStays(c, s, b, gt);
      OnlyCode(c, s1, LeaveBlock(s1, s.nactvar));
    case ElseIf(br) => BranchStays(c, s, br, esc, gt);
  }

  // ----- arms -----

  predicate Skips(o: Outcome, o': Outcome, jf: seq<nat>, more: bool, esc: seq<nat>) {
    match o
    case Fall(rg) => if more then o'.Exit? && o'.node in esc && o'.regs == rg else o' == o
    case _ => o' == Landed(o, jf)
  }

  /** Leaving a finished arm, and arriving at the next one. */
  lemma EndArmRun(c: Ctx, s: State, jf: seq<nat>, more: bool, esc: seq<nat>)
    requires Between(s) && Begun(c, s) && ListOk(s, jf, 0) && ListOk(s, esc, 0) && !EndArm(s, jf, more, esc).0.err
    ensures var (s', esc') := EndArm(s, jf, more, esc); Skips(Out(c, s), Out(c, s'), jf, more, esc')
  {
    hide CodeOk, PoolOk, FormOk, Run, Discharge, Patch;
    if more {
      var (s1, js) := Jump(s);
      JumpOk(s);
      JumpRun(c, s);
      KeepsList(s, s1, [], jf, 0);
      var s2 := Link(s1, esc, js);
      OnlyCode(c, s1, s2);
      PatchToHereRun(c, s2, jf);
      assert forall j :: j in js <==> j == |s.code| || j in s.jpc;
      assert Disjoint(jf, js);
    } else {
      PatchToHereRun(c, s, jf);
    }
  }

  /** An arm is entered: a true condition leads to its block, or out of the loop when the arm
      starts with a break; a false one leads over it. */
  ghost predicate Opens(o: Outcome, o': Outcome, P: Prims, br: Branch, jf: seq<nat>, brk: seq<nat>, n: nat) {
    && (o.Fall? ==>
          && (if !Truthy(Eval(P, br.cond, o.regs)) then o'.Exit? && o'.node in jf
              else if StartsWithBreak(br.thenb) then o'.Exit? && o'.node in brk else o'.Fall?)
          && Agree(o'.regs, o.regs, n))
    && (Gone(o) ==> o' == o)
  }

  lemma OpenArmRun(c: Ctx, s: State, br: Branch, gt: Gotos)
    requires InScope(br.cond, s.nactvar) && Ready(c, s, OpenArm(c.env.P, s, br, gt).0)
    ensures
      var (s1, jf, gt1) := OpenArm(c.env.P, s, br, gt);
      Opens(Out(c, s), Out(c, s1), c.env.P, br, jf, Flat(gt1[|gt|..]), s.nactvar)
  {
    hide Wf, Out, Condition, BreakCondition, Evolves, Eval, Jump;
    if StartsWithBreak(br.thenb) {
      var (s1, jt) := BreakCondition(c.env.P, s, br.cond);
      BreakConditionOk(c.env.P, s, br.cond);
      BreakConditionRun(c, s, br.cond);
      JumpRun(c, s1);
      assert (gt + [jt])[|gt|..] == [] + [jt];
      FlatOne([], jt);
    } else { ConditionRun(c, s, br.cond); }
  }

  lemma {:induction false} ArmStays(c: Ctx, s: State, br: Branch, esc: seq<nat>, gt: Gotos)
    requires BranchInScope(br, s.nactvar) && Apart(s, esc, Flat(gt))
    requires Ready(c, s, TestThenBlock(c.env.P, s, br, esc, gt).0)
    ensures Stays(c, s, TestThenBlock(c.env.P, s, br, esc, gt).0)
    decreases br, 0
  {
    hide Between, Evolves, OpenArm, BreakCondition, CompileBlock, EndArm, ListOk, Disjoint, EscapesFrom, InScope,
      BlockInScope, Out;
    var P, n := c.env.P, s.nactvar;
    if LoneBreak(br.thenb) {
      var s1 := BreakCondition(P, s, br.cond).0;
      BreakConditionRun(c, s, br.cond);
      OnlyCode(c, s1, LeaveBlock(s1, n));
    } else {
      var (s1, jf, gt1) := OpenArm(P, s, br, gt);
      var b := ArmBlock(br.thenb);
      var (sb, gt2) := CompileBlock(P, s1, b, gt1);
      var s3 := LeaveBlock(sb, n);
      ArmParts(P, s, br, esc, gt);
      OpenArmRun(c, s, br, gt);
      BlockStays(c, s1, b, gt1);
      OnlyCode(c, sb, s3);
      EndArmRun(c, s3, jf, !br.tail.End?, esc);
      LeftByOther(c, s, s3, EndArm(s3, jf, !br.tail.End?, esc).0, jf);
    }
  }

  lemma {:induction false} BlockStays(c: Ctx, s: State, b: Block, gt: Gotos)
    requires BlockInScope(b, s.nactvar) && ListOk(s, Flat(gt), 0) && Ready(c, s, CompileBlock(c.env.P, s, b, gt).0)
    ensures Stays(c, s, CompileBlock(c.env.P, s, b, gt).0)
    decreases b
  {
    hide Wf, Compile, ReturnValues, CompileStmt, ListOk, Out, Agree, Evolves, Flat;
    match b
    case Nothing =>
    case Then(st, rest) =>
      var (s1, gt1) := CompileStmt(c.env.P, s, st, gt);
      StmtOk(c.env.P, s, st, gt);
      StmtStays(c, s, st, gt);
      BlockStays(c, s1, rest, gt1);
    case Ret(es) =>
      ReturnValuesRun(c, s, es);
      OnlyCode(c, ReturnValues(c.env.P, s, es), CompileBlock(c.env.P, s, b, gt).0);
  }
}
