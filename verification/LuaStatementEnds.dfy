/** When the code of statements ends, so do the statements: whole functions, run to their end,
    return exactly what they mean. */
module LuaStatementEnds {
  import opened LuaValues
  import opened LuaOpcodes
  import opened LuaVm
  import opened LuaPatch
  import opened LuaConstants
  import opened LuaCode
  import opened LuaShape
  import opened LuaRuns
  import opened LuaSemantics
  import opened LuaCompiler
  import opened LuaExprLists
  import opened LuaAssignment
  import opened LuaStatements
  import opened LuaTurns
  import opened LuaStatementExits
  import opened LuaStatementRuns

  // ----- more fuel changes nothing -----

  function More(fl: Flow, k: nat): Flow { if fl.Timeout? then fl else fl.(left := fl.left + k) }

  lemma {:induction false} StmtFuel(P: Prims, st: Stmt, rg: Regs, n: nat, fuel: nat, k: nat)
    requires !StmtMeaning(P, st, rg, n, fuel).Timeout?
    ensures StmtMeaning(P, st, rg, n, fuel + k) == More(StmtMeaning(P, st, rg, n, fuel), k)
    decreases fuel, st
  {
    hide Eval;
    match st
    case Local(_, _) =>
    case Assign(_, _) =>
    case Do(b) => BlockFuel(P, b, rg, n, fuel, k);
    case If(br) => BranchFuel(P, br, rg, n, fuel, k);
    case While(cond, b) =>
      if Truthy(Eval(P, cond, rg)) {
        BlockFuel(P, b, rg, n, fuel, k);
        var fl := BlockMeaning(P, b, rg, n, fuel);
        if fl.Normal? { StmtFuel(P, st, fl.regs, n, fl.left - 1, k); }
      }
    case Repeat(b, cond) =>
      BlockFuel(P, b, rg, n, fuel, k);
      var fl := BlockMeaning(P, b, rg, n, fuel);
      if fl.Normal? && !Truthy(Eval(P, cond, fl.regs)) { StmtFuel(P, st, fl.regs, n, fl.left - 1, k); }
    case Break =>
  }

  lemma {:induction false} BranchFuel(P: Prims, br: Branch, rg: Regs, n: nat, fuel: nat, k: nat)
    requires !BranchMeaning(P, br, rg, n, fuel).Timeout?
    ensures BranchMeaning(P, br, rg, n, fuel + k) == More(BranchMeaning(P, br, rg, n, fuel), k)
    decreases fuel, br
  {
    hide Eval;
    if Truthy(Eval(P, br.cond, rg)) { BlockFuel(P, br.thenb, rg, n, fuel, k); }
      else { TailFuel(P, br.tail, rg, n, fuel, k); }
  }

  lemma {:induction false} TailFuel(P: Prims, t: Tail, rg: Regs, n: nat, fuel: nat, k: nat)
    requires !TailMeaning(P, t, rg, n, fuel).Timeout?
    ensures TailMeaning(P, t, rg, n, fuel + k) == More(TailMeaning(P, t, rg, n, fuel), k)
    decreases fuel, t
  {
    match t
    case End =>
    case Else(b) => BlockFuel(P, b, rg, n, fuel, k);
    case ElseIf(br) => BranchFuel(P, br, rg, n, fuel, k);
  }

  lemma {:induction false} BlockFuel(P: Prims, b: Block, rg: Regs, n: nat, fuel: nat, k: nat)
    requires !BlockMeaning(P, b, rg, n, fuel).Timeout?
    ensures BlockMeaning(P, b, rg, n, fuel + k) == More(BlockMeaning(P, b, rg, n, fuel), k)
    decreases fuel, b
  {
    match b
    case Nothing =>
    case Then(st, rest) =>
      StmtFuel(P, st, rg, n, fuel, k);
      var fl := StmtMeaning(P, st, rg, n, fuel);
      if fl.Normal? { BlockFuel(P, rest, fl.regs, Locals(st, n), fl.left, k); }
    case Ret(_) =>
  }

  // ----- settled runs -----

  lemma SettledAlike(c: Ctx, c': Ctx, s: State, turns: nat)
    requires Settled(c, s, turns) && Out(c', s) == Out(c, s) && c'.env == c.env
    ensures Settled(c', s, turns)
  {
    hide Out;
  }

  /** A run that starts a loop over has the rest of its turns for it. */
  lemma StartsOverSettled(c: Ctx, s: State, head: nat, rg: Regs, turns: nat) returns (left: nat)
    requires Settled(c, s, turns) && StartsOver(c, s, head, rg)
    ensures Settled(Ctx(c.env, rg, head), s, left) && left <= turns && (left < turns || c.start < head)
  {
    hide Out;
    if Out(c, s) == Back(head, rg) { left := turns - 1; }
    else {
      SettledAlike(c, Ctx(c.env, rg, head), s, turns);
      left := turns;
    }
  }

  lemma BlockTurns(c: Ctx, s: State, b: Block, gt: Gotos)
    requires BlockInScope(b, s.nactvar) && ListOk(s, Flat(gt), 0) && Ready(c, s, CompileBlock(c.env.P, s, b, gt).0)
    ensures KeepsTurns(c, s, CompileBlock(c.env.P, s, b, gt).0)
  {
    hide Out, Ready, ListOk, CompileBlock, BlockInScope;
    BlockStaysAll(c, s, b, gt);
  }

  lemma {:induction false} BlockEnds(c: Ctx, s: State, b: Block, gt: Gotos, rg: Regs, turns: nat) returns (fuel: nat)
    requires BlockInScope(b, s.nactvar) && ListOk(s, Flat(gt), 0) && Ready(c, s, CompileBlock(c.env.P, s, b, gt).0)
    requires Reached(c, s, rg) && Settled(c, CompileBlock(c.env.P, s, b, gt).0, turns)
    ensures !BlockMeaning(c.env.P, b, rg, s.nactvar, fuel).Timeout?
    decreases turns, b, 2
  {
    hide Wf, Compile, ReturnValues, CompileStmt, ListOk, Out, Agree, Evolves, Flat, StmtMeaning, Values, Leads,
      Reaches, Begun, Settled;
    var P, n := c.env.P, s.nactvar;
    var s' := CompileBlock(P, s, b, gt).0;
    fuel := 0;
    if b.Then? {
      var st, rest := b.st, b.rest;
      var (s1, gt1) := CompileStmt(P, s, st, gt);
      StmtOk(P, s, st, gt);
      ReadyAfter(c, s, s1, s');
      BlockTurns(c, s1, rest, gt1);
      SettledBefore(c, s1, s', turns);
      var fuel1 := StmtEnds(c, s, st, gt, rg, turns);
      var fl := StmtMeaning(P, st, rg, n, fuel1);
      fuel := fuel1;
      if fl.Normal? {
        StmtRun(c, s, st, gt, rg, fuel1);
        var m, c1 := Follow(c, s1, fl, Locals(st, n), n, Ways(true, [], Flat(gt1[|gt|..])));
        ReachesMore(c, s1, s', m, c1);
        SettledAfter(c, s', turns, m, c1);
        SettledMore(c1, s', turns - m, turns);
        ReadyAlike(c, c1, s1, s');
        var fuel2 := BlockEnds(c1, s1, rest, gt1, fl.regs, turns);
        StmtFuel(P, st, rg, n, fuel1, fuel2);
        BlockFuel(P, rest, fl.regs, Locals(st, n), fuel2, fl.left);
        fuel := fuel1 + fuel2;
      }
    }
  }

  lemma {:induction false} StmtEnds(c: Ctx, s: State, st: Stmt, gt: Gotos, rg: Regs, turns: nat) returns (fuel: nat)
    requires StmtInScope(st, s.nactvar) && ListOk(s, Flat(gt), 0) && Ready(c, s, CompileStmt(c.env.P, s, st, gt).0)
    requires Reached(c, s, rg) && Settled(c, CompileStmt(c.env.P, s, st, gt).0, turns)
    ensures !StmtMeaning(c.env.P, st, rg, s.nactvar, fuel).Timeout?
    decreases turns, st, 3
  {
    hide CodeOk, PoolOk, FormOk, Compile, NextRegs, AdjustAssign, NewLocals, Values, Adjusted, PutRegs, StoreRegs,
      AssignAll, PatchToHere, CompileBranch, CompileBlock, ListOk, Out, Agree, Evolves, EscapesFrom, LoopHead,
      EndWhile, EndLoop, LoopCondition, Settled, BlockMeaning, BranchMeaning;
    var P, n := c.env.P, s.nactvar;
    var s' := CompileStmt(P, s, st, gt).0;
    match st
    case Local(_, _) => fuel := 0;
    case Assign(_, _) => fuel := 0;
    case Break => fuel := 0;
    case Do(b) =>
      var s1 := CompileBlock(P, s, b, gt).0;
      BlockOk(P, s, b, gt);
      SameTurns(c, s1, s');
      SettledBefore(c, s1, s', turns);
      fuel := BlockEnds(c, s, b, gt, rg, turns);
    case If(br) =>
      var (s1, esc, gt1) := CompileBranch(P, s, br, [], gt);
      NoList(s);
      BranchOk(P, s, br, [], gt);
      PatchTurns(c, s1, esc);
      SettledBefore(c, s1, s', turns);
      fuel := BranchEnds(c, s, br, [], gt, rg, turns);
    case While(cond, b) =>
      HeadRun(c, s);
      LoopHeadOk(s);
      fuel := WhileEnds(c, s, cond, b, gt, rg, turns);
    case Repeat(b, cond) =>
      HeadRun(c, s);
      LoopHeadOk(s);
      fuel := RepeatEnds(c, s, b, cond, gt, rg, turns);
  }

  /** Whether a forward run has the head of a loop still ahead of it. */
  function Before(c: Ctx, head: nat): nat { if c.start < head then 1 else 0 }

  lemma {:induction false} WhileEnds(c: Ctx, s: State, cond: Expr, b: Block, gt: Gotos, rg: Regs, turns: nat)
    returns (fuel: nat)
    requires InScope(cond, s.nactvar) && BlockInScope(b, s.nactvar) && ListOk(s, Flat(gt), 0)
    requires Between(s) && Ready(c, LoopHead(s), CompileStmt(c.env.P, s, While(cond, b), gt).0)
    requires Reached(c, LoopHead(s), rg) && Settled(c, CompileStmt(c.env.P, s, While(cond, b), gt).0, turns)
    ensures !StmtMeaning(c.env.P, While(cond, b), rg, s.nactvar, fuel).Timeout?
    decreases turns, While(cond, b), Before(c, |s.code|)
  {
    hide Between, Evolves, ListOk, LoopCondition, CompileBlock, CompileStmt, EndWhile, LoopHead, EscapesFrom, Disjoint,
      Out, Leads, Reaches, KeepsTurns, Does, BlockMeaning, StartsOver, Agree, Settled;
    var P, n := c.env.P, s.nactvar;
    var sh := LoopHead(s);
    var (s1, jf) := LoopCondition(P, sh, cond);
    var (sb, gt1) := CompileBlock(P, s1, b, gt);
    var breaks, s3 := gt1[|gt|..], LeaveBlock(sb, n);
    var s' := EndWhile(s3, |s.code|, jf, breaks);
    WhileIs(P, s, cond, b, gt);
    WhileParts(P, s, cond, b, gt);
    LoopConditionRun(c, sh, cond);
    EvalAgree(P, cond, Out(c, sh).regs, rg, n);
    SameLocals(Out(c, s1).regs, Out(c, sh).regs, rg, n);
    fuel := 0;
    if Truthy(Eval(P, cond, rg)) {
      var wb := Ways(true, [], Flat(breaks));
      SameTurns(c, sb, s3);
      EndWhileTurns(c, s3, |s.code|, jf, breaks);
      SettledBefore(c, s3, s', turns);
      SettledBefore(c, sb, s3, turns);
      var fuel1 := BlockEnds(c, s1, b, gt, rg, turns);
      var flb := BlockMeaning(P, b, rg, n, fuel1);
      fuel := fuel1;
      if flb.Normal? {
        BlockRun(c, s1, b, gt, rg, fuel1);
        var m, c1 := Follow(c, sb, flb, BlockEnd(b, n), n, wb);
        ReachesMore(c, sb, s3, m, c1);
        ReachesMore(c, s3, s', m, c1);
        SettledAfter(c, s', turns, m, c1);
        OnlyCode(c1, sb, s3);
        EndWhileRun(c1, s3, |s.code|, jf, breaks);
        GoesOn(Out(c1, s3), flb, BlockEnd(b, n), n, wb);
        var rg1 := Out(c1, s3).regs;
        NextIteration(c1, s, sh, s3, rg1, flb, BlockEnd(b, n), n, wb);
        var left := StartsOverSettled(c1, s', |s.code|, rg1, turns - m);
        NoTurnsYet(c, sb, m, c1);
        var fuel2 := WhileEnds(Ctx(c.env, rg1, |s.code|), s, cond, b, gt, flb.regs, left);
        BlockFuel(P, b, rg, n, fuel1, fuel2 + 1);
        StmtFuel(P, While(cond, b), flb.regs, n, fuel2, flb.left);
        fuel := fuel1 + (fuel2 + 1);
      }
    }
  }

  lemma NoTurnsYet(c: Ctx, s: State, turns: nat, c1: Ctx)
    requires Reaches(c, s, turns, c1)
    ensures turns == 0 ==> c1 == c
  {}

  lemma {:induction false} RepeatEnds(c: Ctx, s: State, b: Block, cond: Expr, gt: Gotos, rg: Regs, turns: nat)
    returns (fuel: nat)
    requires BlockInScope(b, s.nactvar) && InScope(cond, BlockEnd(b, s.nactvar)) && ListOk(s, Flat(gt), 0)
    requires Between(s) && Ready(c, LoopHead(s), CompileStmt(c.env.P, s, Repeat(b, cond), gt).0)
    requires Reached(c, LoopHead(s), rg) && Settled(c, CompileStmt(c.env.P, s, Repeat(b, cond), gt).0, turns)
    ensures !StmtMeaning(c.env.P, Repeat(b, cond), rg, s.nactvar, fuel).Timeout?
    decreases turns, Repeat(b, cond), Before(c, |s.code|)
  {
    hide Between, Evolves, ListOk, LoopCondition, CompileBlock, CompileStmt, EndLoop, LoopHead, EscapesFrom, Disjoint,
      Out, Leads, Reaches, KeepsTurns, Does, BlockMeaning, StartsOver, Agree, Settled;
    var P, n := c.env.P, s.nactvar;
    var sh := LoopHead(s);
    var (sb, gt1) := CompileBlock(P, sh, b, gt);
    var (s1, jf) := LoopCondition(P, sb, cond);
    var breaks, s3 := gt1[|gt|..], LeaveBlock(s1, n);
    var s' := EndLoop(s3, jf, |s.code|, breaks);
    var wb := Ways(true, [], Flat(breaks));
    RepeatIs(P, s, b, cond, gt);
    RepeatParts(P, s, b, cond, gt);
    ReadyAfter(c, sh, sb, s');
    ConditionTurns(c, sb, cond);
    SameTurns(c, s1, s3);
    EndLoopTurns(c, s3, jf, |s.code|, breaks);
    SettledBefore(c, s3, s', turns);
    SettledBefore(c, s1, s3, turns);
    SettledBefore(c, sb, s1, turns);
    var fuel1 := BlockEnds(c, sh, b, gt, rg, turns);
    var flb := BlockMeaning(P, b, rg, n, fuel1);
    fuel := fuel1;
    if flb.Normal? && !Truthy(Eval(P, cond, flb.regs)) {
      BlockRun(c, sh, b, gt, rg, fuel1);
      var m, c1 := Follow(c, sb, flb, BlockEnd(b, n), n, wb);
      ReachesMore(c, sb, s1, m, c1);
      ReachesMore(c, s1, s3, m, c1);
      ReachesMore(c, s3, s', m, c1);
      SettledAfter(c, s', turns, m, c1);
      LoopConditionRun(c1, sb, cond);
      OnlyCode(c1, s1, s3);
      EndLoopRun(c1, s3, jf, |s.code|, breaks);
      AfterBody(c1, P, sb, s1, cond, jf, flb, BlockEnd(b, n), n, wb);
      var rg1 := Out(c1, s1).regs;
      Iterates(c1, s, sh, rg1, flb.regs, n);
      var left := StartsOverSettled(c1, s', |s.code|, rg1, turns - m);
      NoTurnsYet(c, sb, m, c1);
      var fuel2 := RepeatEnds(Ctx(c.env, rg1, |s.code|), s, b, cond, gt, flb.regs, left);
      BlockFuel(P, b, rg, n, fuel1, fuel2 + 1);
      StmtFuel(P, Repeat(b, cond), flb.regs, n, fuel2, flb.left);
      fuel := fuel1 + (fuel2 + 1);
    }
  }

  lemma {:induction false} BranchEnds(c: Ctx, s: State, br: Branch, esc: seq<nat>, gt: Gotos, rg: Regs, turns: nat)
    returns (fuel: nat)
    requires BranchInScope(br, s.nactvar) && Apart(s, esc, Flat(gt))
    requires Ready(c, s, CompileBranch(c.env.P, s, br, esc, gt).0) && Reached(c, s, rg)
    requires Settled(c, CompileBranch(c.env.P, s, br, esc, gt).0, turns)
    ensures !BranchMeaning(c.env.P, br, rg, s.nactvar, fuel).Timeout?
    decreases turns, br, 1
  {
    hide Between, TestThenBlock, CompileTail, Evolves, Apart, Out, Agree, BlockMeaning, TailMeaning, EscapesFrom,
      Settled;
    var P := c.env.P;
    var (s1, esc1, gt1) := TestThenBlock(P, s, br, esc, gt);
    var (s', _, _) := CompileTail(P, s1, br.tail, esc1, gt1);
    ArmOk(P, s, br, esc, gt);
    ApartAgain(s, s1, esc, esc1, Flat(gt), Flat(gt1));
    TailTurns(c, s1, br.tail, esc1, gt1);
    SettledBefore(c, s1, s', turns);
    if Truthy(Eval(P, br.cond, rg)) { fuel := ArmEnds(c, s, br, esc, gt, rg, turns); }
    else {
      ArmRun(c, s, br, esc, gt, rg, 0);
      fuel := TailEnds(c, s1, br.tail, esc1, gt1, rg, turns);
    }
  }

  lemma {:induction false} TailEnds(c: Ctx, s: State, t: Tail, esc: seq<nat>, gt: Gotos, rg: Regs, turns: nat)
    returns (fuel: nat)
    requires TailInScope(t, s.nactvar) && Apart(s, esc, Flat(gt))
    requires Ready(c, s, CompileTail(c.env.P, s, t, esc, gt).0) && Reached(c, s, rg)
    requires Settled(c, CompileTail(c.env.P, s, t, esc, gt).0, turns)
    ensures !TailMeaning(c.env.P, t, rg, s.nactvar, fuel).Timeout?
    decreases turns, t, 0
  {
    hide Wf, CompileBlock, CompileBranch, Evolves, ListOk, Out, Agree, BlockMeaning, BranchMeaning, Settled;
    fuel := 0;
    match t
    case End =>
    case Else(b) =>
      var s1 := CompileBlock(c.env.P, s, b, gt).0;
      BlockOk(c.env.P, s, b, gt);
      SameTurns(c, s1, LeaveBlock(s1, s.nactvar));
      SettledBefore(c, s1, LeaveBlock(s1, s.nactvar), turns);
      fuel := BlockEnds(c, s, b, gt, rg, turns);
    case ElseIf(br) => fuel := BranchEnds(c, s, br, esc, gt, rg, turns);
  }

  lemma {:induction false} ArmEnds(c: Ctx, s: State, br: Branch, esc: seq<nat>, gt: Gotos, rg: Regs, turns: nat)
    returns (fuel: nat)
    requires BranchInScope(br, s.nactvar) && Apart(s, esc, Flat(gt)) && Truthy(Eval(c.env.P, br.cond, rg))
    requires Ready(c, s, TestThenBlock(c.env.P, s, br, esc, gt).0) && Reached(c, s, rg)
    requires Settled(c, TestThenBlock(c.env.P, s, br, esc, gt).0, turns)
    ensures !BlockMeaning(c.env.P, br.thenb, rg, s.nactvar, fuel).Timeout?
    decreases turns, br, 0
  {
    hide Between, Evolves, OpenArm, BreakCondition, CompileBlock, EndArm, ListOk, Disjoint, EscapesFrom, InScope,
      BlockInScope, Out, Agree, BlockMeaning, Settled;
    var P, n := c.env.P, s.nactvar;
    fuel := 0;
    if StartsWithBreak(br.thenb) { BreakMeans(P, br.thenb, rg, n, 0); }
    else {
      var (s1, jf, gt1) := OpenArm(P, s, br, gt);
      var sb := CompileBlock(P, s1, br.thenb, gt1).0;
      var s3 := LeaveBlock(sb, n);
      var s' := EndArm(s3, jf, !br.tail.End?, esc).0;
      PlainArm(P, s, br, gt);
      ArmParts(P, s, br, esc, gt);
      EvalAgree(P, br.cond, Out(c, s).regs, rg, n);
      OpenArmRun(c, s, br, gt);
      SameLocals(Out(c, s1).regs, Out(c, s).regs, rg, n);
      EndArmTurns(c, s3, jf, !br.tail.End?, esc);
      SameTurns(c, sb, s3);
      ReadyAfter(c, s, s1, s');
      SettledBefore(c, s3, s', turns);
      SettledBefore(c, sb, s3, turns);
      fuel := BlockEnds(c, s1, br.thenb, gt1, rg, turns);
    }
  }

  // ----- whole functions -----

  /** What a call of the function gives: nothing when control reaches the end of its body. */
  function Results(fl: Flow): seq<Value> { if fl.Returns? then fl.vs else [] }

  /** The body comes to an end, with `vs` as its results. */
  predicate Means(P: Prims, b: Block, rg: Regs, n: nat, fuel: nat, vs: seq<Value>) {
    var fl := BlockMeaning(P, b, rg, n, fuel);
    !fl.Timeout? && Results(fl) == vs
  }

  /** The code of a whole function body returns what the body returns. */
  lemma BodyRun(c: Ctx, s: State, b: Block, rg: Regs, fuel: nat) returns (turns: nat)
    requires BlockInScope(b, s.nactvar) && Ready(c, s, CompileBody(c.env.P, s, b)) && Reached(c, s, rg)
    requires !BlockMeaning(c.env.P, b, rg, s.nactvar, fuel).Timeout?
    ensures Whole(c.env, CompileBody(c.env.P, s, b).code, c.start, c.regs, turns)
         == Returned(Results(BlockMeaning(c.env.P, b, rg, s.nactvar, fuel)))
  {
    hide Wf, CompileBlock, Emit, Evolves, Out, Agree, BlockMeaning, Leads, Reaches;
    var P, n := c.env.P, s.nactvar;
    var (s1, gt) := CompileBlock(P, s, b, []);
    var s' := CompileBody(P, s, b);
    var fl := BlockMeaning(P, b, rg, n, fuel);
    BodyEndTurns(c, s, b);
    BlockRun(c, s, b, [], rg, fuel);
    var m, c1 := Follow(c, s1, fl, BlockEnd(b, n), n, Ways(true, [], Flat(gt[0..])));
    ReachesMore(c, s1, s', m, c1);
    BodyEndRun(c1, s1);
    OnlyCode(c1, Emit(s1, Return(0, 1)), s');
    WholeReaches(c, s', m, c1);
    turns := m;
  }

  lemma BodyEndRun(c: Ctx, s: State)
    requires Between(s) && Begun(c, s) && !Emit(s, Return(0, 1)).err
    ensures Out(c, Emit(s, Return(0, 1))) == AfterReturn(Out(c, s), 0, 1)
  {
    EmitReturnRun(c, s, 0, 1);
  }

  /** The final return comes after everything else. */
  lemma BodyEndTurns(c: Ctx, s: State, b: Block)
    requires BlockInScope(b, s.nactvar) && Ready(c, s, CompileBody(c.env.P, s, b))
    ensures
      var (s1, gt) := CompileBlock(c.env.P, s, b, []);
      var s' := CompileBody(c.env.P, s, b);
      && Settles(s, s1) && gt == [] && !Emit(s1, Return(0, 1)).err && s'.jpc == [] && ListOk(s, Flat([]), 0)
      && KeepsTurns(c, s1, s') && s'.code == Emit(s1, Return(0, 1)).code && Emit(s1, Return(0, 1)).jpc == []
      && Ready(c, s, s1)
  {
    hide Wf, CompileBlock, Evolves, Out, Alike, ListOk, Emit;
    var (s1, gt) := CompileBlock(c.env.P, s, b, []);
    var s' := CompileBody(c.env.P, s, b);
    NoList(s);
    assert Flat([]) == [];
    BlockOk(c.env.P, s, b, []);
    EmittedReturn(s1);
    forall c' | Alike(c, c') && Begun(c', s1) && Out(c', s1).Back? ensures Out(c', s') == Out(c', s1) {
      BodyEndRun(c', s1);
      OnlyCode(c', Emit(s1, Return(0, 1)), s');
    }
  }

  lemma EmittedReturn(s: State)
    requires Between(s) && !Emit(s, Return(0, 1)).err
    ensures Emit(s, Return(0, 1)).jpc == []
  {}

  /** When the code of a whole function body ends, so does the body. */
  lemma BodyEnds(c: Ctx, s: State, b: Block, rg: Regs, turns: nat) returns (fuel: nat)
    requires BlockInScope(b, s.nactvar) && Ready(c, s, CompileBody(c.env.P, s, b)) && Reached(c, s, rg)
    requires !Whole(c.env, CompileBody(c.env.P, s, b).code, c.start, c.regs, turns).Back?
    ensures !BlockMeaning(c.env.P, b, rg, s.nactvar, fuel).Timeout?
    ensures Whole(c.env, CompileBody(c.env.P, s, b).code, c.start, c.regs, turns)
         == Returned(Results(BlockMeaning(c.env.P, b, rg, s.nactvar, fuel)))
  {
    hide Wf, CompileBlock, Emit, Evolves, Out, Agree, BlockMeaning, Exec;
    var s1 := CompileBlock(c.env.P, s, b, []).0;
    var s' := CompileBody(c.env.P, s, b);
    BodyEndTurns(c, s, b);
    WholeSettled(c, s', turns);
    SettledBefore(c, s1, s', turns);
    fuel := BlockEnds(c, s, b, [], rg, turns);
    var m := BodyRun(c, s, b, rg, fuel);
    WholeOnce(c.env, s'.code, c.start, c.regs, turns, m);
  }

  lemma AtTheStart(c: Ctx, n: nat, b: Block)
    requires c.env.P.FoldsFaithfully() && c.start == 0
    requires !CompileBody(c.env.P, Start(n), b).err && Fits(c, CompileBody(c.env.P, Start(n), b))
    ensures Ready(c, Start(n), CompileBody(c.env.P, Start(n), b)) && Reached(c, Start(n), c.regs)
    ensures Start(n).nactvar == n
  {
    StartOk(n);
    assert Discharge(Start(n)).code == [];
  }

  /** Some run of the code from its start comes to an end and returns `vs`. */
  ghost predicate CodeReturns(env: Env, code: seq<Instr>, rg: Regs, vs: seq<Value>) {
    exists turns: nat :: Whole(env, code, 0, rg, turns) == Returned(vs)
  }

  /** The body comes to an end with results `vs`, given enough iterations. */
  ghost predicate BodyReturns(P: Prims, b: Block, rg: Regs, n: nat, vs: seq<Value>) {
    exists fuel: nat :: Means(P, b, rg, n, fuel, vs)
  }

  /** The code of a function ends only by returning what the function means. */
  lemma CodeEnds(c: Ctx, n: nat, b: Block, turns: nat)
    requires BlockInScope(b, n) && c.env.P.FoldsFaithfully() && c.start == 0
    requires !CompileBody(c.env.P, Start(n), b).err && Fits(c, CompileBody(c.env.P, Start(n), b))
    ensures
      var o := Whole(c.env, CompileBody(c.env.P, Start(n), b).code, 0, c.regs, turns);
      o.Back? || (o.Returned? && BodyReturns(c.env.P, b, c.regs, n, o.vs))
  {
    hide CompileBody, Whole, BlockMeaning, Start, Reached, Ready;
    AtTheStart(c, n, b);
    var o := Whole(c.env, CompileBody(c.env.P, Start(n), b).code, 0, c.regs, turns);
    if !o.Back? {
      var fuel := BodyEnds(c, Start(n), b, c.regs, turns);
      assert Means(c.env.P, b, c.regs, n, fuel, o.vs);
    }
  }

  /** From the start of a function, whatever its arguments: its code returns exactly what the
      function means, and it ends exactly when the function does. */
  lemma FunctionRun(c: Ctx, n: nat, b: Block)
    requires BlockInScope(b, n) && c.env.P.FoldsFaithfully() && c.start == 0
    requires !CompileBody(c.env.P, Start(n), b).err && Fits(c, CompileBody(c.env.P, Start(n), b))
    ensures
      var code := CompileBody(c.env.P, Start(n), b).code;
      forall vs :: CodeReturns(c.env, code, c.regs, vs) <==> BodyReturns(c.env.P, b, c.regs, n, vs)
  {
    hide CompileBody, Whole, BlockMeaning, Start, Reached, Ready;
    var code := CompileBody(c.env.P, Start(n), b).code;
    AtTheStart(c, n, b);
    forall vs | CodeReturns(c.env, code, c.regs, vs) ensures BodyReturns(c.env.P, b, c.regs, n, vs) {
      var turns: nat :| Whole(c.env, code, 0, c.regs, turns) == Returned(vs);
      CodeEnds(c, n, b, turns);
    }
    forall vs | BodyReturns(c.env.P, b, c.regs, n, vs) ensures CodeReturns(c.env, code, c.regs, vs) {
      var fuel: nat :| Means(c.env.P, b, c.regs, n, fuel, vs);
      var turns := BodyRun(c, Start(n), b, c.regs, fuel);
    }
  }
}
