/** The code of statements does what the statements mean, loops included. */
module LuaStatementRuns {
  import opened LuaValues
  import opened LuaVm
  import opened LuaPatch
  import opened LuaConstants
  import opened LuaCode
  import opened LuaShape
  import opened LuaRuns
  import opened LuaSemantics
  import opened LuaCompiler
  import opened LuaExprLists
  import opened LuaAssignment
  import opened LuaStatements
  import opened LuaTurns
  import opened LuaStatementExits

  /** The ways out of a statement: whether it may end at the end of the code, the jumps to its
      end, and its breaks. */
  datatype Ways = Ways(here: bool, esc: seq<nat>, brk: seq<nat>)

  predicate Wider(w: Ways, w': Ways) {
    && (w.here ==> w'.here)
    && (forall j :: j in w.esc ==> j in w'.esc)
    && (forall j :: j in w.brk ==> j in w'.brk)
  }

  /** A run ends as `fl` says: the first `m` registers are as they should be when it goes on, and
      the first `n` when it breaks. */
  ghost predicate Does(o: Outcome, fl: Flow, m: nat, n: nat, w: Ways) {
    match fl
    case Normal(rg, _) => ((o.Fall? && w.here) || (o.Exit? && o.node in w.esc)) && Agree(o.regs, rg, m)
    case Broke(rg, _) => o.Exit? && o.node in w.brk && Agree(o.regs, rg, n)
    case Returns(vs, _) => o == Returned(vs)
    case Timeout => true
  }

  /** After some turns the run does what `fl` says. */
  ghost predicate Leads(c: Ctx, s: State, fl: Flow, m: nat, n: nat, w: Ways) {
    fl.Timeout? || exists turns, c2 :: Reaches(c, s, turns, c2) && Does(Out(c2, s), fl, m, n, w)
  }

  /** The run has come to `s` with the locals of `rg`. */
  predicate Reached(c: Ctx, s: State, rg: Regs) {
    Out(c, s).Fall? && Agree(Out(c, s).regs, rg, s.nactvar)
  }

  lemma DoesMore(o: Outcome, fl: Flow, m: nat, n: nat, w: Ways, m': nat, n': nat, w': Ways)
    requires Does(o, fl, m, n, w) && m' <= m && n' <= n && Wider(w, w')
    ensures Does(o, fl, m', n', w')
  {}

  lemma LeadsMore(c: Ctx, s: State, fl: Flow, m: nat, n: nat, w: Ways, m': nat, n': nat, w': Ways)
    requires Leads(c, s, fl, m, n, w) && m' <= m && n' <= n && Wider(w, w')
    ensures Leads(c, s, fl, m', n', w')
  {
    hide Does, Out, Wider;
    if !fl.Timeout? {
      var turns, c2 :| Reaches(c, s, turns, c2) && Does(Out(c2, s), fl, m, n, w);
      DoesMore(Out(c2, s), fl, m, n, w, m', n', w');
    }
  }

  /** The forward run in which it does. */
  lemma Follow(c: Ctx, s: State, fl: Flow, m: nat, n: nat, w: Ways) returns (turns: nat, c2: Ctx)
    requires Between(s) && Begun(c, s) && Leads(c, s, fl, m, n, w) && !fl.Timeout?
    ensures Reaches(c, s, turns, c2) && Begun(c2, s) && Alike(c, c2) && Does(Out(c2, s), fl, m, n, w)
  {
    hide Does, Out, Wf, Begun;
    turns, c2 :| Reaches(c, s, turns, c2) && Does(Out(c2, s), fl, m, n, w);
    ReachesOk(c, s, turns, c2);
  }

  lemma Never(c: Ctx, s: State, fl: Flow, m: nat, n: nat, w: Ways)
    requires fl.Timeout?
    ensures Leads(c, s, fl, m, n, w)
  {}

  lemma AtOnce(c: Ctx, s: State, fl: Flow, m: nat, n: nat, w: Ways)
    requires Does(Out(c, s), fl, m, n, w)
    ensures Leads(c, s, fl, m, n, w)
  {
    hide Does, Out;
    assert Reaches(c, s, 0, c);
  }

  /** What a later forward run leads to, the run leads to. */
  lemma LeadsVia(c: Ctx, s: State, turns: nat, c1: Ctx, fl: Flow, m: nat, n: nat, w: Ways)
    requires Reaches(c, s, turns, c1) && Leads(c1, s, fl, m, n, w)
    ensures Leads(c, s, fl, m, n, w)
  {
    hide Does, Out;
    if !fl.Timeout? {
      var more, c2 :| Reaches(c1, s, more, c2) && Does(Out(c2, s), fl, m, n, w);
      ReachesBoth(c, s, turns, c1, more, c2);
    }
  }

  /** Turns already made stay made when more code is emitted. */
  lemma StillReaches(c: Ctx, s: State, s': State, turns: nat, c2: Ctx)
    requires Between(s) && Begun(c, s) && Reaches(c, s, turns, c2)
    requires forall c' :: Alike(c, c') && Begun(c', s) ==> Stays(c', s, s')
    ensures Reaches(c, s', turns, c2)
  {
    hide Out, Wf;
    ReachesMore(c, s, s', turns, c2);
  }

  /** The breaks of a part are breaks of the whole. */
  lemma MoreBreaks(gt: Gotos, gt1: Gotos, gt2: Gotos)
    requires gt <= gt1 <= gt2
    ensures forall j :: j in Flat(gt1[|gt|..]) ==> j in Flat(gt2[|gt|..])
    ensures forall j :: j in Flat(gt2[|gt1|..]) ==> j in Flat(gt2[|gt|..])
  {
    FlatSplit(gt1[|gt|..], gt2[|gt|..]);
    assert gt2[|gt|..][|gt1[|gt|..]|..] == gt2[|gt1|..];
  }

  // ----- statement lists -----

  lemma BlockStaysAll(c: Ctx, s: State, b: Block, gt: Gotos)
    requires BlockInScope(b, s.nactvar) && ListOk(s, Flat(gt), 0) && Ready(c, s, CompileBlock(c.env.P, s, b, gt).0)
    ensures forall c' :: Alike(c, c') && Begun(c', s) ==> Stays(c', s, CompileBlock(c.env.P, s, b, gt).0)
  {
    hide Stays, Ready, ListOk, CompileBlock, BlockInScope;
    forall c' | Alike(c, c') && Begun(c', s) ensures Stays(c', s, CompileBlock(c.env.P, s, b, gt).0) {
      ReadyAlike(c, c', s, CompileBlock(c.env.P, s, b, gt).0);
      BlockStays(c', s, b, gt);
    }
  }

  lemma {:induction false} BlockRun(c: Ctx, s: State, b: Block, gt: Gotos, rg: Regs, fuel: nat)
    requires BlockInScope(b, s.nactvar) && ListOk(s, Flat(gt), 0) && Ready(c, s, CompileBlock(c.env.P, s, b, gt).0)
    requires Reached(c, s, rg)
    ensures
      var (s', gt') := CompileBlock(c.env.P, s, b, gt);
      Leads(c, s', BlockMeaning(c.env.P, b, rg, s.nactvar, fuel), BlockEnd(b, s.nactvar), s.nactvar, Ways(true, [],
          Flat(gt'[|gt|..])))
    decreases fuel, b, 0
  {
    hide Wf, Compile, ReturnValues, CompileStmt, ListOk, Out, Agree, Evolves, Flat, StmtMeaning, Values, Leads,
      Reaches, Begun;
    var P, n := c.env.P, s.nactvar;
    var (s', gt') := CompileBlock(P, s, b, gt);
    var fl, w := BlockMeaning(P, b, rg, n, fuel), Ways(true, [], Flat(gt'[|gt|..]));
    match b
    case Nothing => AtOnce(c, s, fl, n, n, w);
    case Then(st, rest) =>
      var (s1, gt1) := CompileStmt(P, s, st, gt);
      var fl1, w1 := StmtMeaning(P, st, rg, n, fuel), Ways(true, [], Flat(gt1[|gt|..]));
      StmtOk(P, s, st, gt);
      StmtRun(c, s, st, gt, rg, fuel);
      MoreBreaks(gt, gt1, gt');
      ReadyAfter(c, s, s1, s');
      BlockStaysAll(c, s1, rest, gt1);
      if fl1.Timeout? { Never(c, s', fl, BlockEnd(b, n), n, w); }
      else {
        var turns, c1 := Follow(c, s1, fl1, Locals(st, n), n, w1);
        StillReaches(c, s1, s', turns, c1);
        ReadyAlike(c, c1, s1, s');
        if fl1.Normal? {
          BlockRun(c1, s1, rest, gt1, fl1.regs, fl1.left);
          LeadsMore(c1, s', fl, BlockEnd(b, n), s1.nactvar, Ways(true, [], Flat(gt'[|gt1|..])), BlockEnd(b, n), n, w);
        } else {
          BlockStays(c1, s1, rest, gt1);
          DoesMore(Out(c1, s'), fl, Locals(st, n), n, w1, n, n, w);
          AtOnce(c1, s', fl, BlockEnd(b, n), n, w);
        }
        LeadsVia(c, s', turns, c1, fl, BlockEnd(b, n), n, w);
      }
    case Ret(es) =>
      ReturnValuesRun(c, s, es);
      OnlyCode(c, ReturnValues(P, s, es), s');
      ValuesAgree(P, es, Out(c, s).regs, rg, n);
      AtOnce(c, s', fl, BlockEnd(b, n), n, w);
  }

  // ----- one statement -----

  lemma {:induction false} StmtRun(c: Ctx, s: State, st: Stmt, gt: Gotos, rg: Regs, fuel: nat)
    requires StmtInScope(st, s.nactvar) && ListOk(s, Flat(gt), 0) && Ready(c, s, CompileStmt(c.env.P, s, st, gt).0)
    requires Reached(c, s, rg)
    ensures
      var (s', gt') := CompileStmt(c.env.P, s, st, gt);
      Leads(c, s', StmtMeaning(c.env.P, st, rg, s.nactvar, fuel), Locals(st, s.nactvar), s.nactvar, Ways(true, [],
          Flat(gt'[|gt|..])))
    decreases fuel, st, 1
  {
    hide CodeOk, PoolOk, FormOk, Compile, NextRegs, AdjustAssign, NewLocals, Ext, Grows, Values, Adjusted, PutRegs,
      StoreRegs, AssignAll, PatchToHere, CompileBranch, CompileBlock, ListOk, Out, Agree, Evolves, EscapesFrom, Leads,
      LoopHead, EndWhile, EndLoop, LoopCondition;
    var P, n := c.env.P, s.nactvar;
    var (s', gt') := CompileStmt(P, s, st, gt);
    var fl, w := StmtMeaning(P, st, rg, n, fuel), Ways(true, [], Flat(gt'[|gt|..]));
    match st
    case Local(k, es) =>
      LocalsRun(c, s, k, es, rg);
      OnlyCode(c, AdjustAssign(NextRegs(P, s, es), k, |es|), s');
      AtOnce(c, s', fl, n + k, n, w);
    case Assign(rs, es) =>
      AssignRun(c, s, rs, es, rg);
      OnlyCode(c, AssignAll(P, s, rs, es), s');
      AtOnce(c, s', fl, n, n, w);
    case Do(b) => DoRun(c, s, b, gt, rg, fuel);
    case If(br) => IfRun(c, s, br, gt, rg, fuel);
    case While(cond, b) =>
      HeadRun(c, s);
      LoopHeadOk(s);
      NoneOwn(gt);
      WhileRun(c, s, cond, b, gt, rg, fuel);
    case Repeat(b, cond) =>
      HeadRun(c, s);
      LoopHeadOk(s);
      NoneOwn(gt);
      RepeatRun(c, s, b, cond, gt, rg, fuel);
    case Break =>
      var js := Jump(s).1;
      JumpRun(c, s);
      assert (gt + [js])[|gt|..] == [] + [js];
      FlatOne([], js);
      AtOnce(c, s', fl, n, n, w);
  }

  lemma NoneOwn(gt: Gotos)
    ensures Flat(gt[|gt|..]) == []
  {}

  lemma SameTurns(c: Ctx, s: State, s': State)
    requires s'.code == s.code && s'.jpc == s.jpc
    ensures KeepsTurns(c, s, s')
  {
    hide Out, Alike;
    forall c' | Alike(c, c') && Begun(c', s)
      && Out(c', s).Back? ensures Out(c', s') == Out(c', s) { OnlyCode(c', s, s'); }
  }

  lemma {:induction false} DoRun(c: Ctx, s: State, b: Block, gt: Gotos, rg: Regs, fuel: nat)
    requires BlockInScope(b, s.nactvar) && ListOk(s, Flat(gt), 0) && Ready(c, s, CompileStmt(c.env.P, s, Do(b), gt).0)
    requires Reached(c, s, rg)
    ensures
      var (s', gt') := CompileStmt(c.env.P, s, Do(b), gt);
      Leads(c, s', BlockMeaning(c.env.P, b, rg, s.nactvar, fuel), s.nactvar, s.nactvar, Ways(true, [],
          Flat(gt'[|gt|..])))
    decreases fuel, b, 1
  {
    hide Wf, CompileBlock, ListOk, Out, Agree, Evolves, Leads, Reaches, KeepsTurns, Does;
    var P, n := c.env.P, s.nactvar;
    var (s1, gt1) := CompileBlock(P, s, b, gt);
    var fl, w := BlockMeaning(P, b, rg, n, fuel), Ways(true, [], Flat(gt1[|gt|..]));
    var s' := LeaveBlock(s1, n);
    BlockOk(P, s, b, gt);
    BlockRun(c, s, b, gt, rg, fuel);
    if fl.Timeout? { Never(c, s', fl, n, n, w); }
    else {
      var turns, c1 := Follow(c, s1, fl, BlockEnd(b, n), n, w);
      SameTurns(c, s1, s');
      ReachesMore(c, s1, s', turns, c1);
      OnlyCode(c1, s1, s');
      DoesMore(Out(c1, s'), fl, BlockEnd(b, n), n, w, n, n, w);
      AtOnce(c1, s', fl, n, n, w);
      LeadsVia(c, s', turns, c1, fl, n, n, w);
    }
  }

  // ----- loops -----

  /** A run that starts over does what the forward run from the head of the loop does. */
  lemma StartsOverLeads(c: Ctx, s: State, head: nat, rg: Regs, fl: Flow, m: nat, n: nat, w: Ways)
    requires StartsOver(c, s, head, rg) && Leads(Ctx(c.env, rg, head), s, fl, m, n, w)
    ensures Leads(c, s, fl, m, n, w)
  {
    hide Out, Does;
    var c' := Ctx(c.env, rg, head);
    if !fl.Timeout? {
      var turns: nat, c2 :| Reaches(c', s, turns, c2) && Does(Out(c2, s), fl, m, n, w);
      if Out(c, s) == Back(head, rg) { assert Reaches(c, s, turns + 1, c2); }
      else if turns == 0 { AtOnce(c, s, fl, m, n, w); }
      else { assert Reaches(c, s, turns, c2); }
    }
  }

  /** Patching does not touch jumps back. */
  lemma EndWhileTurns(c: Ctx, s: State, head: nat, jf: seq<nat>, breaks: Gotos)
    requires Between(s) && Apart(s, jf, Flat(breaks)) && head in s.labels && !EndWhile(s, head, jf, breaks).err
    ensures KeepsTurns(c, s, EndWhile(s, head, jf, breaks))
  {
    hide Out, Alike, Between, Apart, EndWhile, Flat;
    forall c' | Alike(c, c') && Begun(c', s) && Out(c', s).Back?
      ensures Out(c', EndWhile(s, head, jf, breaks)) == Out(c', s)
    {
      EndWhileRun(c', s, head, jf, breaks);
    }
  }

  lemma EndLoopTurns(c: Ctx, s: State, js: seq<nat>, head: nat, breaks: Gotos)
    requires Between(s) && Apart(s, js, Flat(breaks)) && head in s.labels && !EndLoop(s, js, head, breaks).err
    ensures KeepsTurns(c, s, EndLoop(s, js, head, breaks))
  {
    hide Out, Alike, Between, Apart, EndLoop, Flat;
    forall c' | Alike(c, c') && Begun(c', s) && Out(c', s).Back?
      ensures Out(c', EndLoop(s, js, head, breaks)) == Out(c', s)
    {
      EndLoopRun(c', s, js, head, breaks);
    }
  }

  lemma {:induction false} WhileRun(c: Ctx, s: State, cond: Expr, b: Block, gt: Gotos, rg: Regs, fuel: nat)
    requires InScope(cond, s.nactvar) && BlockInScope(b, s.nactvar) && ListOk(s, Flat(gt), 0)
    requires Between(s) && Ready(c, LoopHead(s), CompileStmt(c.env.P, s, While(cond, b), gt).0)
    requires Reached(c, LoopHead(s), rg)
    ensures
      var s' := CompileStmt(c.env.P, s, While(cond, b), gt).0;
      Leads(c, s', StmtMeaning(c.env.P, While(cond, b), rg, s.nactvar, fuel), s.nactvar, s.nactvar, Ways(true, [], []))
    decreases fuel, While(cond, b), 0
  {
    hide Between, Evolves, ListOk, LoopCondition, CompileBlock, CompileStmt, EndWhile, LoopHead, EscapesFrom, Disjoint,
      Out, Leads, Reaches, KeepsTurns, Does, BlockMeaning, StartsOver, Agree;
    var P, n := c.env.P, s.nactvar;
    var sh := LoopHead(s);
    var (s1, jf) := LoopCondition(P, sh, cond);
    var (sb, gt1) := CompileBlock(P, s1, b, gt);
    var breaks, s3 := gt1[|gt|..], LeaveBlock(sb, n);
    var s' := EndWhile(s3, |s.code|, jf, breaks);
    var fl, w := StmtMeaning(P, While(cond, b), rg, n, fuel), Ways(true, [], []);
    WhileIs(P, s, cond, b, gt);
    WhileParts(P, s, cond, b, gt);
    LoopConditionRun(c, sh, cond);
    EvalAgree(P, cond, Out(c, sh).regs, rg, n);
    SameLocals(Out(c, s1).regs, Out(c, sh).regs, rg, n);
    if !Truthy(Eval(P, cond, rg)) {
      BlockStays(c, s1, b, gt);
      OnlyCode(c, sb, s3);
      EndWhileRun(c, s3, |s.code|, jf, breaks);
      FallsNormal(c, s', rg, n, fuel, w);
    } else {
      var flb, wb := BlockMeaning(P, b, rg, n, fuel), Ways(true, [], Flat(breaks));
      BlockRun(c, s1, b, gt, rg, fuel);
      if fl.Timeout? { Never(c, s', fl, n, n, w); }
      else {
        var turns, c1 := Follow(c, sb, flb, BlockEnd(b, n), n, wb);
        SameTurns(c, sb, s3);
        ReachesMore(c, sb, s3, turns, c1);
        EndWhileTurns(c, s3, |s.code|, jf, breaks);
        ReachesMore(c, s3, s', turns, c1);
        OnlyCode(c1, sb, s3);
        EndWhileRun(c1, s3, |s.code|, jf, breaks);
        GoesOn(Out(c1, s3), flb, BlockEnd(b, n), n, wb);
        if flb.Normal? {
          var rg1 := Out(c1, s3).regs;
          NextIteration(c1, s, sh, s3, rg1, flb, BlockEnd(b, n), n, wb);
          WhileRun(Ctx(c.env, rg1, |s.code|), s, cond, b, gt, flb.regs, flb.left - 1);
          StartsOverLeads(c1, s', |s.code|, rg1, fl, n, n, w);
        } else { EndsLoop(c1, s3, s', flb, BlockEnd(b, n), n, wb, Flat(breaks) + jf); }
        LeadsVia(c, s', turns, c1, fl, n, n, w);
      }
    }
  }

  lemma GoesOn(o: Outcome, fl: Flow, m: nat, n: nat, w: Ways)
    requires Does(o, fl, m, n, w) && w.esc == [] && !fl.Timeout?
    ensures fl.Normal? <==> o.Fall?
  {}

  lemma FallsNormal(c: Ctx, s: State, rg: Regs, n: nat, left: nat, w: Ways)
    requires Out(c, s).Fall? && Agree(Out(c, s).regs, rg, n) && w.here
    ensures Leads(c, s, Normal(rg, left), n, n, w)
  {
    hide Out, Agree;
    AtOnce(c, s, Normal(rg, left), n, n, w);
  }

  /** A forward run from the head of a loop has reached it. */
  lemma NextIteration(c1: Ctx, s: State, sh: State, s3: State, rg1: Regs, fl: Flow, m: nat, n: nat, w: Ways)
    requires Does(Out(c1, s3), fl, m, n, w) && fl.Normal? && w.esc == [] && n <= m && rg1 == Out(c1, s3).regs
    requires |sh.code| == |s.code| && sh.nactvar == n
    ensures Out(c1, s3) == Fall(rg1) && Reached(Ctx(c1.env, rg1, |s.code|), sh, fl.regs) && |rg1| == |c1.regs|
  {
    AtTheEnd(Ctx(c1.env, rg1, |s.code|), sh);
  }

  /** A break or a return ends the loop. */
  lemma EndsLoop(c: Ctx, s: State, s': State, fl: Flow, m: nat, n: nat, w: Ways, nodes: seq<nat>)
    requires Does(Out(c, s), fl, m, n, w) && (fl.Broke? || fl.Returns?)
    requires Out(c, s') == Landed(Out(c, s), nodes) && forall j :: j in w.brk ==> j in nodes
    ensures Leads(c, s', if fl.Broke? then Normal(fl.regs, fl.left) else fl, n, n, Ways(true, [], []))
  {
    hide Out, Agree;
    AtOnce(c, s', if fl.Broke? then Normal(fl.regs, fl.left) else fl, n, n, Ways(true, [], []));
  }

  lemma {:induction false} RepeatRun(c: Ctx, s: State, b: Block, cond: Expr, gt: Gotos, rg: Regs, fuel: nat)
    requires BlockInScope(b, s.nactvar) && InScope(cond, BlockEnd(b, s.nactvar)) && ListOk(s, Flat(gt), 0)
    requires Between(s) && Ready(c, LoopHead(s), CompileStmt(c.env.P, s, Repeat(b, cond), gt).0)
    requires Reached(c, LoopHead(s), rg)
    ensures
      var s' := CompileStmt(c.env.P, s, Repeat(b, cond), gt).0;
      Leads(c, s', StmtMeaning(c.env.P, Repeat(b, cond), rg, s.nactvar, fuel), s.nactvar, s.nactvar, Ways(true, [], []))
    decreases fuel, Repeat(b, cond), 0
  {
    hide Between, Evolves, ListOk, LoopCondition, CompileBlock, CompileStmt, EndLoop, LoopHead, EscapesFrom, Disjoint,
      Out, Leads, Reaches, KeepsTurns, Does, BlockMeaning, StartsOver, Agree;
    var P, n := c.env.P, s.nactvar;
    var sh := LoopHead(s);
    var (sb, gt1) := CompileBlock(P, sh, b, gt);
    var (s1, jf) := LoopCondition(P, sb, cond);
    var breaks, s3 := gt1[|gt|..], LeaveBlock(s1, n);
    var s' := EndLoop(s3, jf, |s.code|, breaks);
    var fl, w := StmtMeaning(P, Repeat(b, cond), rg, n, fuel), Ways(true, [], []);
    var flb, wb := BlockMeaning(P, b, rg, n, fuel), Ways(true, [], Flat(breaks));
    RepeatIs(P, s, b, cond, gt);
    RepeatParts(P, s, b, cond, gt);
    BlockRun(c, sh, b, gt, rg, fuel);
    if fl.Timeout? { Never(c, s', fl, n, n, w); }
    else {
      var turns, c1 := Follow(c, sb, flb, BlockEnd(b, n), n, wb);
      ConditionTurns(c, sb, cond);
      ReachesMore(c, sb, s1, turns, c1);
      SameTurns(c, s1, s3);
      ReachesMore(c, s1, s3, turns, c1);
      EndLoopTurns(c, s3, jf, |s.code|, breaks);
      ReachesMore(c, s3, s', turns, c1);
      LoopConditionRun(c1, sb, cond);
      OnlyCode(c1, s1, s3);
      EndLoopRun(c1, s3, jf, |s.code|, breaks);
      if flb.Normal? {
        AfterBody(c1, P, sb, s1, cond, jf, flb, BlockEnd(b, n), n, wb);
        var rg1 := Out(c1, s1).regs;
        if Truthy(Eval(P, cond, flb.regs)) { FallsNormal(c1, s', flb.regs, n, flb.left, w); }
        else {
          Iterates(c1, s, sh, rg1, flb.regs, n);
          RepeatRun(Ctx(c.env, rg1, |s.code|), s, b, cond, gt, flb.regs, flb.left - 1);
          StartsOverLeads(c1, s', |s.code|, rg1, fl, n, n, w);
        }
      } else { EndsRepeat(c1, sb, s1, s3, s', jf, flb, BlockEnd(b, n), n, wb, Flat(breaks)); }
      LeadsVia(c, s', turns, c1, fl, n, n, w);
    }
  }

  lemma ConditionTurns(c: Ctx, s: State, cond: Expr)
    requires InScope(cond, s.nactvar) && Ready(c, s, LoopCondition(c.env.P, s, cond).0)
    ensures KeepsTurns(c, s, LoopCondition(c.env.P, s, cond).0)
  {
    hide Out, Between, LoopCondition, Ready, Begun;
    forall c' | Alike(c, c') && Begun(c', s) && Out(c', s).Back?
      ensures Out(c', LoopCondition(c.env.P, s, cond).0) == Out(c', s)
    {
      ReadyAlike(c, c', s, LoopCondition(c.env.P, s, cond).0);
      ConditionStays(c', s, cond);
    }
  }

  /** The condition of a repeat loop after a body that went on. */
  lemma AfterBody(c: Ctx, P: Prims, sb: State, s1: State, cond: Expr, jf: seq<nat>, fl: Flow, m: nat, n: nat, w: Ways)
    requires Does(Out(c, sb), fl, m, n, w) && fl.Normal? && w.esc == [] && n <= m && InScope(cond, m)
    requires Branches(Out(c, sb), Out(c, s1), Meaning(P, cond), true, jf, m)
    ensures Agree(Out(c, s1).regs, fl.regs, n) && |Out(c, s1).regs| == |c.regs|
    ensures if Truthy(Eval(P, cond, fl.regs)) then Out(c, s1).Fall? else Out(c, s1).Exit? && Out(c, s1).node in jf
  {
    hide Out, Eval, InScope;
    EvalAgree(P, cond, Out(c, sb).regs, fl.regs, m);
  }

  lemma Iterates(c1: Ctx, s: State, sh: State, rg1: Regs, rg: Regs, n: nat)
    requires Agree(rg1, rg, n) && |sh.code| == |s.code| && sh.nactvar == n
    ensures Reached(Ctx(c1.env, rg1, |s.code|), sh, rg)
  {
    AtTheEnd(Ctx(c1.env, rg1, |s.code|), sh);
  }

  lemma EndsRepeat(c: Ctx, sb: State, s1: State, s3: State, s': State, jf: seq<nat>, fl: Flow, m: nat, n: nat,
      w: Ways, brk: seq<nat>)
    requires Does(Out(c, sb), fl, m, n, w) && (fl.Broke? || fl.Returns?) && w.brk == brk
    requires Stays(c, sb, s1) && Out(c, s3) == Out(c, s1) && Disjoint(jf, brk)
    requires (Out(c, s3).Exit? && Out(c, s3).node in jf) || Out(c, s') == Landed(Out(c, s3), brk)
    ensures Leads(c, s', if fl.Broke? then Normal(fl.regs, fl.left) else fl, n, n, Ways(true, [], []))
  {
    hide Out, Agree;
    EndsLoop(c, sb, s', fl, m, n, w, brk);
  }

  // ----- conditional statements -----

  lemma {:induction false} IfRun(c: Ctx, s: State, br: Branch, gt: Gotos, rg: Regs, fuel: nat)
    requires BranchInScope(br, s.nactvar) && ListOk(s, Flat(gt), 0)
    requires Ready(c, s, CompileStmt(c.env.P, s, If(br), gt).0) && Reached(c, s, rg)
    ensures
      var (s', gt') := CompileStmt(c.env.P, s, If(br), gt);
      Leads(c, s', BranchMeaning(c.env.P, br, rg, s.nactvar, fuel), s.nactvar, s.nactvar, Ways(true, [],
          Flat(gt'[|gt|..])))
    decreases fuel, If(br), 0
  {
    hide Wf, CompileBranch, ListOk, Out, Agree, Evolves, Leads, Reaches, KeepsTurns, Does, PatchToHere, EscapesFrom;
    var P, n := c.env.P, s.nactvar;
    var (s1, esc, gt1) := CompileBranch(P, s, br, [], gt);
    var fl, brk := BranchMeaning(P, br, rg, n, fuel), Flat(gt1[|gt|..]);
    var s' := PatchToHere(s1, esc);
    NoList(s);
    BranchOk(P, s, br, [], gt);
    BranchRun(c, s, br, [], gt, rg, fuel);
    if fl.Timeout? { Never(c, s', fl, n, n, Ways(true, [], brk)); }
    else {
      var turns, c1 := Follow(c, s1, fl, n, n, Ways(true, esc, brk));
      PatchTurns(c, s1, esc);
      ReachesMore(c, s1, s', turns, c1);
      PatchToHereRun(c1, s1, esc);
      FlatSplit(gt, gt1);
      EndsIf(c1, s1, s', fl, n, esc, brk);
      LeadsVia(c, s', turns, c1, fl, n, n, Ways(true, [], brk));
    }
  }

  lemma PatchTurns(c: Ctx, s: State, nodes: seq<nat>)
    requires Wf(s) && ListOk(s, nodes, 0) && !PatchToHere(s, nodes).err
    ensures KeepsTurns(c, s, PatchToHere(s, nodes))
  {
    hide Out, Alike, Wf, PatchToHere, ListOk;
    forall c' | Alike(c, c') && Begun(c', s) && Out(c', s).Back? ensures Out(c', PatchToHere(s, nodes)) == Out(c', s) {
      PatchToHereRun(c', s, nodes);
    }
  }

  /** Leaving through the escape list becomes reaching the end of the statement. */
  lemma EndsIf(c: Ctx, s: State, s': State, fl: Flow, n: nat, esc: seq<nat>, brk: seq<nat>)
    requires Does(Out(c, s), fl, n, n, Ways(true, esc, brk)) && Out(c, s') == Landed(Out(c, s), esc)
    requires forall j :: j in brk ==> j !in esc
    ensures Leads(c, s', fl, n, n, Ways(true, [], brk))
  {
    hide Out, Agree;
    AtOnce(c, s', fl, n, n, Ways(true, [], brk));
  }

  lemma BranchMeans(P: Prims, br: Branch, rg: Regs, n: nat, fuel: nat)
    ensures BranchMeaning(P, br, rg, n, fuel) ==
      if Truthy(Eval(P, br.cond, rg))
        then BlockMeaning(P, br.thenb, rg, n, fuel) else TailMeaning(P, br.tail, rg, n, fuel)
  {}

  lemma {:induction false} BranchRun(c: Ctx, s: State, br: Branch, esc: seq<nat>, gt: Gotos, rg: Regs, fuel: nat)
    requires BranchInScope(br, s.nactvar) && Apart(s, esc, Flat(gt))
    requires Ready(c, s, CompileBranch(c.env.P, s, br, esc, gt).0) && Reached(c, s, rg)
    ensures
      var (s', esc', gt') := CompileBranch(c.env.P, s, br, esc, gt);
      Leads(c, s', BranchMeaning(c.env.P, br, rg, s.nactvar, fuel), s.nactvar, s.nactvar, Ways(true, esc',
          Flat(gt'[|gt|..])))
    decreases fuel, br, 1
  {
    hide Between, TestThenBlock, CompileTail, Evolves, Apart, Out, Agree, BlockMeaning, TailMeaning, BranchMeaning,
      EscapesFrom, Leads, Reaches, KeepsTurns, Does;
    var P, n := c.env.P, s.nactvar;
    var (s1, esc1, gt1) := TestThenBlock(P, s, br, esc, gt);
    var (s', esc', gt') := CompileTail(P, s1, br.tail, esc1, gt1);
    var fl, w := BranchMeaning(P, br, rg, n, fuel), Ways(true, esc', Flat(gt'[|gt|..]));
    ArmOk(P, s, br, esc, gt);
    ApartAgain(s, s1, esc, esc1, Flat(gt), Flat(gt1));
    MoreBreaks(gt, gt1, gt');
    BranchMeans(P, br, rg, n, fuel);
    ArmRun(c, s, br, esc, gt, rg, fuel);
    if Truthy(Eval(P, br.cond, rg)) {
      var w1 := Ways(br.tail.End?, esc1, Flat(gt1[|gt|..]));
      if fl.Timeout? { Never(c, s', fl, n, n, w); }
      else {
        var turns, c1 := Follow(c, s1, fl, n, n, w1);
        TailTurns(c, s1, br.tail, esc1, gt1);
        ReachesMore(c, s1, s', turns, c1);
        ReadyAfter(c, s, s1, s');
        ReadyAlike(c, c1, s1, s');
        AfterArm(c1, P, s1, br.tail, esc1, gt1, fl, n, w1, w);
        LeadsVia(c, s', turns, c1, fl, n, n, w);
      }
    } else {
      TailRun(c, s1, br.tail, esc1, gt1, rg, fuel);
      LeadsMore(c, s', fl, n, n, Ways(true, esc', Flat(gt'[|gt1|..])), n, n, w);
    }
  }

  lemma TailTurns(c: Ctx, s: State, t: Tail, esc: seq<nat>, gt: Gotos)
    requires TailInScope(t, s.nactvar) && Apart(s, esc, Flat(gt)) && Between(s)
    requires c.env.P.FoldsFaithfully() && !CompileTail(c.env.P, s, t, esc, gt).0.err
    requires Fits(c, CompileTail(c.env.P, s, t, esc, gt).0)
    ensures KeepsTurns(c, s, CompileTail(c.env.P, s, t, esc, gt).0)
  {
    hide Out, Between, CompileTail, TailInScope, Apart, Begun;
    forall c' | Alike(c, c') && Begun(c', s) && Out(c', s).Back?
      ensures Out(c', CompileTail(c.env.P, s, t, esc, gt).0) == Out(c', s)
    {
      TailStays(c', s, t, esc, gt);
    }
  }

  /** A finished arm jumps over what follows it. */
  lemma AfterArm(c: Ctx, P: Prims, s: State, t: Tail, esc: seq<nat>, gt: Gotos, fl: Flow, n: nat, w: Ways, w': Ways)
    requires TailInScope(t, s.nactvar) && Apart(s, esc, Flat(gt)) && P == c.env.P
    requires Ready(c, s, CompileTail(P, s, t, esc, gt).0)
    requires Does(Out(c, s), fl, n, n, w) && w.here == t.End? && Wider(w, w')
    ensures Leads(c, CompileTail(P, s, t, esc, gt).0, fl, n, n, w')
  {
    hide Out, Agree, Ready, Apart;
    var s' := CompileTail(P, s, t, esc, gt).0;
    TailStays(c, s, t, esc, gt);
    if fl.Timeout? { Never(c, s', fl, n, n, w'); }
    else {
      assert Out(c, s') == Out(c, s);
      DoesMore(Out(c, s'), fl, n, n, w, n, n, w');
      AtOnce(c, s', fl, n, n, w');
    }
  }

  lemma {:induction false} TailRun(c: Ctx, s: State, t: Tail, esc: seq<nat>, gt: Gotos, rg: Regs, fuel: nat)
    requires TailInScope(t, s.nactvar) && Apart(s, esc, Flat(gt))
    requires Ready(c, s, CompileTail(c.env.P, s, t, esc, gt).0) && Reached(c, s, rg)
    ensures
      var (s', esc', gt') := CompileTail(c.env.P, s, t, esc, gt);
      Leads(c, s', TailMeaning(c.env.P, t, rg, s.nactvar, fuel), s.nactvar, s.nactvar, Ways(true, esc',
          Flat(gt'[|gt|..])))
    decreases fuel, t, 0
  {
    hide Wf, CompileBlock, CompileBranch, CompileStmt, Evolves, ListOk, Out, Agree, BlockMeaning, BranchMeaning, Leads,
      Does;
    match t
    case End => FallsNormal(c, s, rg, s.nactvar, fuel, Ways(true, esc, Flat(gt[|gt|..])));
    case Else(b) =>
      var (s1, gt1) := CompileBlock(c.env.P, s, b, gt);
      DoIsBlock(c.env.P, s, b, gt);
      DoRun(c, s, b, gt, rg, fuel);
      LeadsMore(c, LeaveBlock(s1, s.nactvar), BlockMeaning(c.env.P, b, rg, s.nactvar, fuel), s.nactvar, s.nactvar,
        Ways(true, [], Flat(gt1[|gt|..])), s.nactvar, s.nactvar, Ways(true, esc, Flat(gt1[|gt|..])));
    case ElseIf(br) => BranchRun(c, s, br, esc, gt, rg, fuel);
  }

  lemma DoIsBlock(P: Prims, s: State, b: Block, gt: Gotos)
    ensures
      var (s1, gt1) := CompileBlock(P, s, b, gt);
      CompileStmt(P, s, Do(b), gt) == (LeaveBlock(s1, s.nactvar), gt1)
  {}

  /** One arm: taken, it does what its block does and then leaves the statement; otherwise
      control arrives at what follows it, with the locals as they were. */
  lemma {:induction false} ArmRun(c: Ctx, s: State, br: Branch, esc: seq<nat>, gt: Gotos, rg: Regs, fuel: nat)
    requires BranchInScope(br, s.nactvar) && Apart(s, esc, Flat(gt))
    requires Ready(c, s, TestThenBlock(c.env.P, s, br, esc, gt).0) && Reached(c, s, rg)
    ensures
      var (s', esc', gt') := TestThenBlock(c.env.P, s, br, esc, gt);
      if Truthy(Eval(c.env.P, br.cond, rg))
      then Leads(c, s', BlockMeaning(c.env.P, br.thenb, rg, s.nactvar, fuel), s.nactvar, s.nactvar, Ways(br.tail.End?,
          esc', Flat(gt'[|gt|..])))
      else Reached(c, s', rg)
    decreases fuel, br, 0
  {
    hide Between, Evolves, OpenArm, BreakCondition, CompileBlock, EndArm, ListOk, Disjoint, EscapesFrom, InScope,
      BlockInScope, Out, Leads, Does, Agree, BlockMeaning;
    var P, n := c.env.P, s.nactvar;
    EvalAgree(P, br.cond, Out(c, s).regs, rg, n);
    BreakMeans(P, br.thenb, rg, n, fuel);
    if LoneBreak(br.thenb) { LoneBreakRun(c, s, br, gt, rg, fuel, esc); }
    else {
      var (s1, jf, gt1) := OpenArm(P, s, br, gt);
      var b := ArmBlock(br.thenb);
      var (sb, gt2) := CompileBlock(P, s1, b, gt1);
      var s3 := LeaveBlock(sb, n);
      var (s', esc') := EndArm(s3, jf, !br.tail.End?, esc);
      ArmParts(P, s, br, esc, gt);
      OpenArmRun(c, s, br, gt);
      SameLocals(Out(c, s1).regs, Out(c, s).regs, rg, n);
      if Out(c, s1).Fall? { PlainArm(P, s, br, gt); TakenArm(c, s, s1, jf, br, esc, gt, rg, fuel); }
      else {
        BlockStays(c, s1, b, gt1);
        OnlyCode(c, sb, s3);
        EndArmRun(c, s3, jf, !br.tail.End?, esc);
        if Truthy(Eval(P, br.cond, rg)) {
          MoreBreaks(gt, gt1, gt2);
          NotOver(s3, jf, gt, gt2);
          BreaksOut(c, s', rg, n, fuel, Ways(br.tail.End?, esc', Flat(gt2[|gt|..])));
        }
      }
    }
  }

  lemma PlainArm(P: Prims, s: State, br: Branch, gt: Gotos)
    requires !StartsWithBreak(br.thenb)
    ensures OpenArm(P, s, br, gt).2 == gt
  {}

  lemma BreakMeans(P: Prims, b: Block, rg: Regs, n: nat, fuel: nat)
    ensures StartsWithBreak(b) ==> BlockMeaning(P, b, rg, n, fuel) == Broke(rg, fuel)
  {}

  lemma SameLocals(rg: Regs, rg1: Regs, rg2: Regs, n: nat)
    requires Agree(rg1, rg2, n)
    ensures Agree(rg, rg1, n) ==> Agree(rg, rg2, n)
  {}

  /** The jumps over the block of an arm are no breaks. */
  lemma NotOver(s: State, jf: seq<nat>, gt: Gotos, gt': Gotos)
    requires Apart(s, jf, Flat(gt')) && gt <= gt'
    ensures forall j :: j in Flat(gt'[|gt|..]) ==> j !in jf
  {
    FlatSplit(gt, gt');
  }

  lemma BreaksOut(c: Ctx, s: State, rg: Regs, n: nat, left: nat, w: Ways)
    requires Out(c, s).Exit? && Out(c, s).node in w.brk && Agree(Out(c, s).regs, rg, n)
    ensures Leads(c, s, Broke(rg, left), n, n, w)
  {
    hide Out, Agree;
    AtOnce(c, s, Broke(rg, left), n, n, w);
  }

  /** An arm that is nothing but a break. */
  lemma LoneBreakRun(c: Ctx, s: State, br: Branch, gt: Gotos, rg: Regs, fuel: nat, esc: seq<nat>)
    requires InScope(br.cond, s.nactvar) && LoneBreak(br.thenb) && Reached(c, s, rg)
    requires Ready(c, s, NewGoto(BreakCondition(c.env.P, s, br.cond).0, gt))
    ensures
      var (s1, jt) := BreakCondition(c.env.P, s, br.cond);
      var s' := LeaveBlock(NewGoto(s1, gt), s.nactvar);
      if Truthy(Eval(c.env.P, br.cond, rg))
      then Leads(c, s', Broke(rg, fuel), s.nactvar, s.nactvar, Ways(br.tail.End?, esc, Flat((gt + [jt])[|gt|..])))
      else Reached(c, s', rg)
  {
    hide Between, BreakCondition, Out, Eval, InScope, Leads, Agree;
    var P, n := c.env.P, s.nactvar;
    var (s1, jt) := BreakCondition(P, s, br.cond);
    EvalAgree(P, br.cond, Out(c, s).regs, rg, n);
    BreakConditionRun(c, s, br.cond);
    OnlyCode(c, s1, LeaveBlock(s1, n));
    SameLocals(Out(c, s1).regs, Out(c, s).regs, rg, n);
    assert (gt + [jt])[|gt|..] == [] + [jt];
    FlatOne([], jt);
    if Truthy(Eval(P, br.cond, rg)) {
      BreaksOut(c, LeaveBlock(s1, n), rg, n, fuel, Ways(br.tail.End?, esc, Flat((gt + [jt])[|gt|..])));
    }
  }

  /** The block of an arm whose condition holds. */
  lemma {:induction false} TakenArm(c: Ctx, s: State, s1: State, jf: seq<nat>, br: Branch, esc: seq<nat>, gt: Gotos,
      rg: Regs, fuel: nat)
    requires BranchInScope(br, s.nactvar) && Apart(s, esc, Flat(gt)) && !StartsWithBreak(br.thenb)
    requires Ready(c, s, TestThenBlock(c.env.P, s, br, esc, gt).0)
    requires OpenArm(c.env.P, s, br, gt) == (s1, jf, gt) && Reached(c, s1, rg)
    ensures
      var (s', esc', gt') := TestThenBlock(c.env.P, s, br, esc, gt);
      Leads(c, s', BlockMeaning(c.env.P, br.thenb, rg, s.nactvar, fuel), s.nactvar, s.nactvar, Ways(br.tail.End?,
          esc', Flat(gt'[|gt|..])))
    decreases fuel, br.thenb, 1
  {
    hide Between, Evolves, OpenArm, CompileBlock, EndArm, ListOk, Disjoint, EscapesFrom, InScope, BlockInScope, Out,
      Leads, Does, Agree, BlockMeaning, Reaches, KeepsTurns;
    var P, n := c.env.P, s.nactvar;
    var (sb, gt2) := CompileBlock(P, s1, br.thenb, gt);
    var s3 := LeaveBlock(sb, n);
    var (s', esc') := EndArm(s3, jf, !br.tail.End?, esc);
    var fl, brk := BlockMeaning(P, br.thenb, rg, n, fuel), Flat(gt2[|gt|..]);
    ArmParts(P, s, br, esc, gt);
    ReadyAfter(c, s, s1, s');
    BlockRun(c, s1, br.thenb, gt, rg, fuel);
    if fl.Timeout? { Never(c, s', fl, n, n, Ways(br.tail.End?, esc', brk)); }
    else {
      var turns, c1 := Follow(c, sb, fl, BlockEnd(br.thenb, n), n, Ways(true, [], brk));
      SameTurns(c, sb, s3);
      ReachesMore(c, sb, s3, turns, c1);
      EndArmTurns(c, s3, jf, !br.tail.End?, esc);
      ReachesMore(c, s3, s', turns, c1);
      OnlyCode(c1, sb, s3);
      EndArmRun(c1, s3, jf, !br.tail.End?, esc);
      NotOver(s3, jf, gt, gt2);
      EndsArm(c1, s3, s', fl, BlockEnd(br.thenb, n), n, jf, br.tail.End?, esc', brk);
      LeadsVia(c, s', turns, c1, fl, n, n, Ways(br.tail.End?, esc', brk));
    }
  }

  lemma EndArmTurns(c: Ctx, s: State, jf: seq<nat>, more: bool, esc: seq<nat>)
    requires Between(s) && ListOk(s, jf, 0) && ListOk(s, esc, 0) && !EndArm(s, jf, more, esc).0.err
    ensures KeepsTurns(c, s, EndArm(s, jf, more, esc).0)
  {
    hide Out, Alike, Between, ListOk, EndArm, Begun;
    forall c' | Alike(c, c') && Begun(c', s)
      && Out(c', s).Back? ensures Out(c', EndArm(s, jf, more, esc).0) == Out(c', s) {
      EndArmRun(c', s, jf, more, esc);
    }
  }

  lemma EndsArm(c: Ctx, s: State, s': State, fl: Flow, m: nat, n: nat, jf: seq<nat>, end: bool, esc: seq<nat>,
      brk: seq<nat>)
    requires Does(Out(c, s), fl, m, n, Ways(true, [], brk)) && Skips(Out(c, s), Out(c, s'), jf, !end, esc) && n <= m
    requires forall j :: j in brk ==> j !in jf
    ensures Leads(c, s', fl, n, n, Ways(end, esc, brk))
  {
    hide Out;
    AtOnce(c, s', fl, n, n, Ways(end, esc, brk));
  }
}
