/** Which functions compile: a function whose registers, code, constants and breaks stay within the
    limits of the instruction format compiles without an error. */
module LuaStatementLimits {
  import opened LuaValues
  import opened LuaOpcodes
  import opened LuaPatch
  import opened LuaConstants
  import opened LuaCode
  import opened LuaShape
  import opened LuaShapeOps
  import opened LuaCompiler
  import opened LuaExprLists
  import opened LuaAssignment
  import opened LuaStatements
  import opened LuaLimits
  import opened LuaSizes

  // ----- what a body needs -----

  /** The first register above those that a list of values needs, the first one going to `r`. */
  function ListTop(es: seq<Expr>, r: nat): (top: nat)
    ensures r + |es| <= top
  {
    if es == [] then r else Max(ListTop(es[..|es| - 1], r), r + |es| - 1 + Depth(es[|es| - 1]))
  }

  /** The first register above those that a statement needs, after `n` locals. */
  function StmtTop(st: Stmt, n: nat): (top: nat)
    ensures n <= top
  {
    match st
    case Local(k, es) => Max(ListTop(es, n), n + k)
    case Assign(rs, es) => Max(ListTop(es, n), n + |rs|)
    case Do(b) => BlockTop(b, n)
    case If(br) => BranchTop(br, n)
    case While(cond, b) => Max(n + Depth(cond), BlockTop(b, n))
    case Repeat(b, cond) => Max(BlockTop(b, n), BlockEnd(b, n) + Depth(cond))
    case Break => n
  }

  function BranchTop(br: Branch, n: nat): (top: nat)
    ensures n <= top
  {
    Max(n + Depth(br.cond), Max(BlockTop(br.thenb, n), TailTop(br.tail, n)))
  }

  function TailTop(t: Tail, n: nat): (top: nat)
    ensures n <= top
  {
    match t
    case End => n
    case Else(b) => BlockTop(b, n)
    case ElseIf(br) => BranchTop(br, n)
  }

  function BlockTop(b: Block, n: nat): (top: nat)
    ensures n <= top
  {
    match b
    case Nothing => n
    case Then(st, rest) => Max(StmtTop(st, n), BlockTop(rest, Locals(st, n)))
    case Ret(es) => ListTop(es, n)
  }

  /** The breaks of a statement that leave a loop around it. */
  function StmtLeaves(st: Stmt): nat {
    match st
    case Do(b) => BlockLeaves(b)
    case If(br) => BranchLeaves(br)
    case Break => 1
    case _ => 0
  }

  function BranchLeaves(br: Branch): nat { BlockLeaves(br.thenb) + TailLeaves(br.tail) }

  function TailLeaves(t: Tail): nat {
    match t
    case End => 0
    case Else(b) => BlockLeaves(b)
    case ElseIf(br) => BranchLeaves(br)
  }

  function BlockLeaves(b: Block): nat {
    if b.Then? then StmtLeaves(b.st) + BlockLeaves(b.rest) else 0
  }

  /** The most breaks that wait at a time for the end of their loop. */
  function StmtWaits(st: Stmt): (w: nat)
    ensures StmtLeaves(st) <= w
  {
    match st
    case Do(b) => BlockWaits(b)
    case If(br) => BranchWaits(br)
    case While(_, b) => BlockWaits(b)
    case Repeat(b, _) => BlockWaits(b)
    case Break => 1
    case _ => 0
  }

  function BranchWaits(br: Branch): (w: nat)
    ensures BranchLeaves(br) <= w
  {
    Max(BlockWaits(br.thenb), BlockLeaves(br.thenb) + TailWaits(br.tail))
  }

  function TailWaits(t: Tail): (w: nat)
    ensures TailLeaves(t) <= w
  {
    match t
    case End => 0
    case Else(b) => BlockWaits(b)
    case ElseIf(br) => BranchWaits(br)
  }

  function BlockWaits(b: Block): (w: nat)
    ensures BlockLeaves(b) <= w
  {
    if b.Then? then Max(StmtWaits(b.st), StmtLeaves(b.st) + BlockWaits(b.rest)) else 0
  }

  /** The most locals in scope at a time, `n` of them around the statement. */
  function StmtVars(st: Stmt, n: nat): (m: nat)
    ensures Locals(st, n) <= m
  {
    match st
    case Local(k, _) => n + k
    case Do(b) => BlockVars(b, n)
    case If(br) => BranchVars(br, n)
    case While(_, b) => BlockVars(b, n)
    case Repeat(b, _) => BlockVars(b, n)
    case _ => n
  }

  function BranchVars(br: Branch, n: nat): (m: nat)
    ensures n <= m
  {
    Max(BlockVars(br.thenb, n), TailVars(br.tail, n))
  }

  function TailVars(t: Tail, n: nat): (m: nat)
    ensures n <= m
  {
    match t
    case End => n
    case Else(b) => BlockVars(b, n)
    case ElseIf(br) => BranchVars(br, n)
  }

  function BlockVars(b: Block, n: nat): (m: nat)
    ensures BlockEnd(b, n) <= m
  {
    if b.Then? then Max(StmtVars(b.st, n), BlockVars(b.rest, Locals(b.st, n))) else n
  }

  // ----- breaks that wait -----

  lemma {:induction false} StmtLeft(P: Prims, s: State, st: Stmt, gt: Gotos)
    ensures |CompileStmt(P, s, st, gt).1| == |gt| + StmtLeaves(st)
    decreases st
  {
    match st
    case Do(b) => BlockLeft(P, s, b, gt);
    case If(br) => BranchLeft(P, s, br, [], gt);
    case _ =>
  }

  lemma {:induction false} BranchLeft(P: Prims, s: State, br: Branch, esc: seq<nat>, gt: Gotos)
    ensures |CompileBranch(P, s, br, esc, gt).2| == |gt| + BranchLeaves(br)
    decreases br, 1
  {
    hide TestThenBlock, CompileTail;
    var (s1, esc1, gt1) := TestThenBlock(P, s, br, esc, gt);
    ArmLeft(P, s, br, esc, gt);
    TailLeft(P, s1, br.tail, esc1, gt1);
  }

  lemma {:induction false} ArmLeft(P: Prims, s: State, br: Branch, esc: seq<nat>, gt: Gotos)
    ensures |TestThenBlock(P, s, br, esc, gt).2| == |gt| + BlockLeaves(br.thenb)
    decreases br, 0
  {
    hide CompileBlock, EndArm;
    if !LoneBreak(br.thenb) {
      var (s1, jf, gt1) := OpenArm(P, s, br, gt);
      BlockLeft(P, s1, ArmBlock(br.thenb), gt1);
    }
  }

  lemma {:induction false} TailLeft(P: Prims, s: State, t: Tail, esc: seq<nat>, gt: Gotos)
    ensures |CompileTail(P, s, t, esc, gt).2| == |gt| + TailLeaves(t)
    decreases t
  {
    match t
    case End =>
    case Else(b) => BlockLeft(P, s, b, gt);
    case ElseIf(br) => BranchLeft(P, s, br, esc, gt);
  }

  lemma {:induction false} BlockLeft(P: Prims, s: State, b: Block, gt: Gotos)
    ensures |CompileBlock(P, s, b, gt).1| == |gt| + BlockLeaves(b)
    decreases b
  {
    hide CompileStmt;
    if b.Then? {
      var (s1, gt1) := CompileStmt(P, s, b.st, gt);
      StmtLeft(P, s, b.st, gt);
      BlockLeft(P, s1, b.rest, gt1);
    }
  }

  // ----- lists of expressions -----

  lemma {:induction false} NextRegsBlames(P: Prims, s: State, es: seq<Expr>)
    requires Wf(s) && AllInScope(es, s.nactvar)
    ensures Blames(NextRegs(P, s, es), ListTop(es, s.freereg))
    decreases |es|, 1
  {
    hide Wf, Compile, Exp2NextReg, Compiled;
    if es == [] { NoError(s); }
    else {
      var s0 := NextRegs(P, s, es[..|es| - 1]);
      var (s1, e1) := ExpList(P, s, es);
      ExpListBlames(P, s, es);
      if !s1.err {
        ExpListOk(P, s, es);
        CompiledExp(s0, s1, e1);
        Exp2NextRegBlames(s1, e1, |s0.code|, s0.freereg);
      }
    }
  }

  lemma {:induction false} ExpListBlames(P: Prims, s: State, es: seq<Expr>)
    requires Wf(s) && AllInScope(es, s.nactvar) && es != []
    ensures Blames(ExpList(P, s, es).0, ListTop(es, s.freereg))
    decreases |es|, 0
  {
    hide Wf, Compile, NextRegs;
    var s0 := NextRegs(P, s, es[..|es| - 1]);
    NextRegsBlames(P, s, es[..|es| - 1]);
    if !s0.err {
      NextRegsOk(P, s, es[..|es| - 1]);
      CompileBlames(P, s0, es[|es| - 1]);
    }
  }

  lemma AdjustAssignBlames(s: State, nvars: nat, nexps: nat)
    requires Wf(s)
    ensures Blames(AdjustAssign(s, nvars, nexps), s.freereg + if nvars > nexps then nvars - nexps else 0)
  {
    hide Wf, LoadNils;
    NoError(s);
    if nvars > nexps {
      var s1 := ReserveRegs(s, nvars - nexps);
      ReserveBlames(s, nvars - nexps);
      if !s1.err {
        ReserveOk(s, nvars - nexps);
        LoadNilsBlames(s1, s.freereg, nvars - nexps);
      }
    }
  }

  lemma ReturnValuesBlames(P: Prims, s: State, es: seq<Expr>)
    requires Wf(s) && AllInScope(es, s.nactvar)
    ensures Blames(ReturnValues(P, s, es), ListTop(es, s.freereg))
  {
    hide Wf, Compile, Exp2AnyReg, Exp2NextReg, Emit, NextRegs, Evolves, ListOk;
    if es == [] { EmitBlames(s, Return(0, 1)); }
    else {
      var s0 := NextRegs(P, s, es[..|es| - 1]);
      var (s1, e1) := ExpList(P, s, es);
      ExpListBlames(P, s, es);
      if !s1.err {
        ExpListOk(P, s, es);
        if |es| == 1 {
          var (s2, e2) := Exp2AnyReg(s1, e1);
          Exp2AnyRegBlames(s1, e1, |s0.code|, s0.freereg);
          if !s2.err {
            Exp2AnyRegOk(s1, e1, |s0.code|, s0.freereg);
            EmitBlames(s2, Return(e2.k.info, 2));
          }
        } else {
          var s2 := Exp2NextReg(s1, e1).0;
          Exp2NextRegBlames(s1, e1, |s0.code|, s0.freereg);
          if !s2.err {
            Exp2NextRegOk(s1, e1, |s0.code|, s0.freereg);
            EmitBlames(s2, Return(s2.nactvar, |es| + 1));
          }
        }
      }
    }
  }

  lemma StoreLocalBlames(s: State, e: Exp, r: nat, base: nat, r0: nat)
    requires ExpOk(s, e, base, r0) && r < s.nactvar
    ensures Blames(StoreLocal(s, r, e), 0)
  {
    hide CodeOk, PoolOk, FormOk, Exp2Reg;
    FreeExpOk(s, e, r0);
    assert ExpAt(FreeExp(s, e), e, base);
    Exp2RegBlames(FreeExp(s, e), e, r, base);
  }

  lemma {:induction false} StoreAllBlames(s: State, rs: seq<nat>)
    requires Wf(s) && s.nactvar + |rs| <= s.freereg && forall i :: 0 <= i < |rs| ==> rs[i] < s.nactvar
    ensures Blames(StoreAll(s, rs), 0)
    decreases |rs|
  {
    hide Wf, StoreLocal, Evolves, ExpOk;
    if rs == [] { NoError(s); }
    else {
      var k := |rs| - 1;
      var s1 := StoreLocal(s, rs[k], TopValue(s));
      TopOk(s);
      StoreLocalBlames(s, TopValue(s), rs[k], |s.code|, s.freereg - 1);
      if !s1.err {
        StoreLocalOk(s, TopValue(s), rs[k], |s.code|, s.freereg - 1);
        StoreAllBlames(s1, rs[..k]);
      }
    }
  }

  lemma AssignAllBlames(P: Prims, s: State, rs: seq<nat>, es: seq<Expr>)
    requires Between(s) && AllInScope(es, s.nactvar) && forall i :: 0 <= i < |rs| ==> rs[i] < s.nactvar
    ensures Blames(AssignAll(P, s, rs, es), Max(ListTop(es, s.nactvar), s.nactvar + |rs|))
  {
    hide Wf, NextRegs, ExpList, AdjustAssign, DropExtra, Evolves, StoreLocal, StoreAll, Compiled;
    if |es| == |rs| && rs != [] {
      var k := |rs| - 1;
      var s1, s2 := NextRegs(P, s, es[..k]), ExpList(P, s, es).0;
      var e2 := ExpList(P, s, es).1;
      ExpListBlames(P, s, es);
      if !s2.err {
        ExpListOk(P, s, es);
        CompiledParts(s1, s2, e2);
        var s3 := StoreLocal(s2, rs[k], e2);
        StoreLocalBlames(s2, e2, rs[k], |s1.code|, s1.freereg);
        if !s3.err {
          StoreLocalOk(s2, e2, rs[k], |s1.code|, s1.freereg);
          StoreAllBlames(s3, rs[..k]);
        }
      }
    } else {
      PaddedBlames(P, s, |rs|, es);
      var s1 := AdjustAssign(NextRegs(P, s, es), |rs|, |es|);
      DropSame(s1, |rs|, |es|);
      if !s1.err {
        PaddedOk(P, s, |rs|, es);
        StoreAllBlames(DropExtra(s1, |rs|, |es|), rs);
      }
    }
  }

  lemma DropSame(s: State, nvars: nat, nexps: nat)
    ensures var s' := DropExtra(s, nvars, nexps); s'.err == s.err && s'.code == s.code && s'.pool == s.pool
  {}

  lemma PaddedBlames(P: Prims, s: State, n: nat, es: seq<Expr>)
    requires Between(s) && AllInScope(es, s.nactvar)
    ensures Blames(AdjustAssign(NextRegs(P, s, es), n, |es|), Max(ListTop(es, s.nactvar), s.nactvar + n))
  {
    hide Wf, NextRegs, AdjustAssign, Evolves;
    var s1 := NextRegs(P, s, es);
    NextRegsBlames(P, s, es);
    if !s1.err {
      NextRegsOk(P, s, es);
      AdjustAssignBlames(s1, n, |es|);
    }
  }

  // ----- conditions and jumps -----

  lemma ConditionBlames(P: Prims, s: State, cond: Expr)
    requires Between(s) && InScope(cond, s.nactvar)
    ensures Blames(Condition(P, s, cond).0, s.nactvar + Depth(cond))
    ensures Blames(LoopCondition(P, s, cond).0, s.nactvar + Depth(cond))
    ensures Blames(BreakCondition(P, s, cond).0, s.nactvar + Depth(cond))
  {
    hide CodeOk, PoolOk, FormOk, Compile, GoIfTrue, GoIfFalse, Evolves, ListOk;
    var (s1, e1) := Compile(P, s, cond);
    CompileBlames(P, s, cond);
    if !s1.err {
      CompileOk(P, s, cond);
      GoIfTrueBlames(s1, e1, |s.code|, s.freereg);
      GoIfTrueBlames(s1, if e1.k.VNil? then e1.(k := VFalse) else e1, |s.code|, s.freereg);
      GoIfFalseBlames(s1, e1, |s.code|, s.freereg);
    }
  }

  lemma PatchToBlames(s: State, nodes: seq<nat>, head: nat)
    requires Wf(s) && ListOk(s, nodes, 0) && head in s.labels
    ensures Blames(PatchTo(s, nodes, head), 0)
  {
    hide CodeOk, PoolOk, FormOk, Distinct;
    LabelInCode(s, head);
    if head == |s.code| { PatchToHereBlames(s, nodes); } else { PatchBlames(s, nodes, head, NO_REG, head); }
  }

  lemma {:induction false} PatchEachBlames(s: State, gt: Gotos)
    requires Wf(s) && ListOk(s, Flat(gt), 0)
    ensures Blames(PatchEach(s, gt), 0)
    decreases |gt|
  {
    hide CodeOk, PoolOk, FormOk, Distinct, PatchToHere;
    if gt != [] {
      var k := |gt| - 1;
      var s1 := PatchEach(s, gt[..k]);
      ListParts(s, Flat(gt[..k]), gt[k], 0);
      PatchEachBlames(s, gt[..k]);
      if !s1.err {
        PatchEachOk(s, gt[..k]);
        KeepsList(s, s1, Flat(gt[..k]), gt[k], 0);
        PatchToHereBlames(s1, gt[k]);
      }
    }
  }

  lemma EndLoopBlames(s0: State, s: State, js: seq<nat>, head: nat, breaks: Gotos)
    requires Settles(s0, s) && Apart(s, js, Flat(breaks)) && EscapesFrom(s0, [], js) && head in s.labels
    ensures Blames(EndLoop(s, js, head, breaks), 0)
  {
    hide Wf, Evolves, ListOk, PatchTo, PatchEach, EscapesFrom, Disjoint;
    PatchToBlames(s, js, head);
    if !PatchTo(s, js, head).err {
      PatchToExtends(s0, s, js, head, Flat(breaks));
      PatchEachBlames(PatchTo(s, js, head), breaks);
    }
  }

  lemma EndWhileBlames(s0: State, s: State, head: nat, jf: seq<nat>, breaks: Gotos)
    requires Settles(s0, s) && Apart(s, jf, Flat(breaks)) && |s0.code| <= |s.code|
    requires EscapesFrom(s0, [], jf) && EscapesFrom(s0, [], Flat(breaks)) && head in s.labels
    ensures Blames(EndWhile(s, head, jf, breaks), 0)
  {
    hide Wf, Evolves, ListOk, Jump, EndLoop, PatchToHere, EscapesFrom, Disjoint;
    var (s1, js) := Jump(s);
    JumpBlames(s);
    if !s1.err {
      JumpExtends(s, jf);
      JumpExtends(s, Flat(breaks));
      ExtendsSame(s, s1, jf);
      ExtendsSame(s, s1, Flat(breaks));
      SettlesBoth(s0, s, s1);
      EarlierJumps(s0, s, js);
      ApartSym(s1, Flat(breaks), js);
      ApartSym(s1, jf, js);
      StayApart(s, s1, jf, Flat(breaks));
      ApartSym(s1, jf, Flat(breaks));
      EndLoopBlames(s0, s1, js, head, breaks);
      var s2 := EndLoop(s1, js, head, breaks);
      if !s2.err {
        EndLoopOk(s0, s1, js, head, breaks, jf);
        OnList(s2, jf);
        PatchToHereBlames(s2, jf);
      }
    }
  }

  lemma OnList(s: State, nodes: seq<nat>)
    requires ListOk(s, nodes, 0)
    ensures Pending(s.code, nodes)
  {}

  lemma EndArmBlames(s0: State, s: State, jf: seq<nat>, more: bool, esc: seq<nat>)
    requires Settles(s0, s) && Apart(s, jf, esc)
    ensures Blames(EndArm(s, jf, more, esc).0, 0)
  {
    hide Wf, Evolves, ListOk, Jump, PatchToHere, EscapesFrom, Disjoint;
    OnList(s, jf);
    if more {
      var (s1, js) := Jump(s);
      JumpBlames(s);
      if !s1.err {
        JumpExtends(s, esc);
        ExtendsSame(s, s1, esc);
        OnList(s1, esc);
        OnList(s1, js);
        LinkBlames(s1, esc, js);
        if !Link(s1, esc, js).err {
          ExtendsSame(s, s1, jf);
          OnList(s1, jf);
          PatchToHereBlames(s1, jf);
        }
      }
    } else { PatchToHereBlames(s, jf); }
  }

  // ----- statements -----

  /** What a piece of code needs: registers below `top`, `waits` breaks that wait, `vars` locals. */
  datatype Needs = Needs(top: nat, waits: nat, vars: nat)

  /** An error means that the limits are exceeded; without one, the limits on breaks and locals are
      kept, `g` of them and `n` of them being there before. */
  predicate Faults(s: State, g: nat, n: nat, nd: Needs) {
    if s.err then Long(s) || nd.top >= 250 || nd.waits > 32767 || nd.vars > 200
    else nd.waits <= Max(g, 32767) && nd.vars <= Max(n, 200)
  }

  predicate AtMost(nd: Needs, nd': Needs) { nd.top <= nd'.top && nd.waits <= nd'.waits && nd.vars <= nd'.vars }

  lemma FaultsEarlier(s: State, s': State, g: nat, n: nat, nd: Needs, nd': Needs)
    requires s.err && Grows(s, s') && AtMost(nd, nd') && Faults(s, g, n, nd)
    ensures Faults(s', g, n, nd')
  {}

  function StmtNeeds(st: Stmt, g: nat, n: nat): Needs { Needs(StmtTop(st, n), g + StmtWaits(st), StmtVars(st, n)) }
  function BlockNeeds(b: Block, g: nat, n: nat): Needs { Needs(BlockTop(b, n), g + BlockWaits(b), BlockVars(b, n)) }
  function TailNeeds(t: Tail, g: nat, n: nat): Needs { Needs(TailTop(t, n), g + TailWaits(t), TailVars(t, n)) }
  function BranchNeeds(br: Branch, g: nat, n: nat): Needs {
    Needs(BranchTop(br, n), g + BranchWaits(br), BranchVars(br, n))
  }

  /** The condition and the block of an arm, or of a loop. */
  function ArmNeeds(cond: Expr, b: Block, g: nat, n: nat): Needs {
    Needs(Max(n + Depth(cond), BlockTop(b, n)), g + BlockWaits(b), BlockVars(b, n))
  }

  lemma NewGotoBlames(s: State, gt: Gotos)
    requires !s.err
    ensures NewGoto(s, gt).err <==> |gt| >= 32767
  {}

  lemma NewLocalsBlames(s: State, n: nat)
    requires !s.err
    ensures NewLocals(s, n).err <==> n > 200
  {}

  /** The condition of an arm that starts with a break. */
  lemma OpenBreakFaults(P: Prims, s: State, cond: Expr, gt: Gotos)
    requires Between(s) && InScope(cond, s.nactvar) && ListOk(s, Flat(gt), 0)
    ensures Faults(Jump(NewGoto(BreakCondition(P, s, cond).0, gt)).0, |gt|, s.nactvar,
      Needs(s.nactvar + Depth(cond), |gt| + 1, s.nactvar))
  {
    hide Between, Settles, ListOk, BreakCondition, Condition, LoopCondition, Jump, NewGoto, Flat, Depth, Compile, Long,
      Faults, Ext;
    var s1 := BreakCondition(P, s, cond).0;
    ConditionBlames(P, s, cond);
    if !s1.err { BreakConditionWf(P, s, cond); }
    JumpAfterGoto(s1, gt, s.nactvar + Depth(cond), s.nactvar);
  }

  lemma BreakConditionWf(P: Prims, s: State, cond: Expr)
    requires Between(s) && InScope(cond, s.nactvar) && !BreakCondition(P, s, cond).0.err
    ensures Wf(BreakCondition(P, s, cond).0)
  {
    hide Wf, BreakCondition, ListOk, Evolves;
    BreakConditionOk(P, s, cond);
  }

  lemma JumpAfterGoto(s: State, gt: Gotos, top: nat, n: nat)
    requires Blames(s, top) && (!s.err ==> Wf(s))
    ensures Faults(Jump(NewGoto(s, gt)).0, |gt|, n, Needs(top, |gt| + 1, n))
  {
    hide Wf, Jump;
    if !s.err {
      NewGotoBlames(s, gt);
      JumpBlames(s);
    }
  }

  lemma OpenArmFaults(P: Prims, s: State, br: Branch, gt: Gotos)
    requires Between(s) && InScope(br.cond, s.nactvar) && ListOk(s, Flat(gt), 0)
    ensures Faults(OpenArm(P, s, br, gt).0, |gt|, s.nactvar,
      Needs(s.nactvar + Depth(br.cond), |gt| + if StartsWithBreak(br.thenb) then 1 else 0, s.nactvar))
  {
    hide Between, ListOk, BreakCondition, Condition, LoopCondition, Jump, NewGoto, Flat, Depth, InScope, OpenArm,
      StartsWithBreak, Faults, Ext, Compile, CompileBlock, Grows;
    OpenArmIs(P, s, br, gt);
    if StartsWithBreak(br.thenb) { OpenBreakFaults(P, s, br.cond, gt); } else { PlainFaults(P, s, br.cond, gt); }
  }

  lemma PlainFaults(P: Prims, s: State, cond: Expr, gt: Gotos)
    requires Between(s) && InScope(cond, s.nactvar)
    ensures Faults(Condition(P, s, cond).0, |gt|, s.nactvar, Needs(s.nactvar + Depth(cond), |gt|, s.nactvar))
  {
    hide Between, Condition, LoopCondition, BreakCondition, Depth, InScope;
    ConditionBlames(P, s, cond);
  }

  /** A break in front of a block is compiled with the condition. */
  lemma ArmBlockNeeds(b: Block, n: nat)
    ensures BlockTop(b, n) == BlockTop(ArmBlock(b), n) && BlockVars(b, n) == BlockVars(ArmBlock(b), n)
    ensures BlockWaits(b) == BlockWaits(ArmBlock(b)) + if StartsWithBreak(b) then 1 else 0
  {}

  lemma {:induction false} StmtFaults(P: Prims, s: State, st: Stmt, gt: Gotos)
    requires Between(s) && StmtInScope(st, s.nactvar) && ListOk(s, Flat(gt), 0)
    ensures Faults(CompileStmt(P, s, st, gt).0, |gt|, s.nactvar, StmtNeeds(st, |gt|, s.nactvar))
    decreases st
  {
    hide Wf, NextRegs, AdjustAssign, AssignAll, PatchToHere, CompileBranch, Jump, CompileBlock, ListOk, Evolves,
      Flat, LoopCondition, EndWhile, EndLoop, LoopHead, NewGoto, NewLocals, ListTop, Depth, BlockEnd, InScope, BlockTop,
      BranchTop, BlockWaits, BranchWaits, BlockVars, BranchVars, BlockInScope, BranchInScope, Long;
    match st
    case Local(n, es) => LocalFaults(P, s, n, es, gt);
    case Assign(rs, es) => AssignFaults(P, s, rs, es, gt);
    case Do(b) =>
      BlockFaults(P, s, b, gt);
      LeaveFaults(CompileBlock(P, s, b, gt).0, s.nactvar, |gt|, BlockNeeds(b, |gt|, s.nactvar));
    case If(br) => IfFaults(P, s, br, gt);
    case While(cond, b) => WhileFaults(P, s, cond, b, gt);
    case Repeat(b, cond) => RepeatFaults(P, s, b, cond, gt);
    case Break => BreakFaults(s, gt);
  }

  lemma LeaveFaults(s: State, n: nat, g: nat, nd: Needs)
    requires Faults(s, g, n, nd)
    ensures Faults(LeaveBlock(s, n), g, n, nd)
  {}

  lemma BreakFaults(s: State, gt: Gotos)
    requires Between(s)
    ensures Faults(NewGoto(Jump(s).0, gt), |gt|, s.nactvar, Needs(s.nactvar, |gt| + 1, s.nactvar))
  {
    hide Wf, Jump;
    JumpBlames(s);
    if !Jump(s).0.err { NewGotoBlames(Jump(s).0, gt); }
  }

  lemma LocalFaults(P: Prims, s: State, n: nat, es: seq<Expr>, gt: Gotos)
    requires Between(s) && AllInScope(es, s.nactvar)
    ensures Faults(CompileStmt(P, s, Local(n, es), gt).0, |gt|, s.nactvar, StmtNeeds(Local(n, es), |gt|, s.nactvar))
  {
    hide Between, NextRegs, AdjustAssign, AllInScope, ListTop;
    var s1 := AdjustAssign(NextRegs(P, s, es), n, |es|);
    PaddedBlames(P, s, n, es);
    if !s1.err { NewLocalsBlames(LeaveBlock(s1, s1.nactvar + n), s.nactvar + n); }
  }

  lemma AssignFaults(P: Prims, s: State, rs: seq<nat>, es: seq<Expr>, gt: Gotos)
    requires Between(s) && AllInScope(es, s.nactvar) && forall i :: 0 <= i < |rs| ==> rs[i] < s.nactvar
    ensures Faults(CompileStmt(P, s, Assign(rs, es), gt).0, |gt|, s.nactvar, StmtNeeds(Assign(rs, es), |gt|, s.nactvar))
  {
    hide Between, AssignAll, AllInScope, ListTop;
    AssignAllBlames(P, s, rs, es);
  }

  lemma {:induction false} IfFaults(P: Prims, s: State, br: Branch, gt: Gotos)
    requires Between(s) && BranchInScope(br, s.nactvar) && ListOk(s, Flat(gt), 0)
    ensures Faults(CompileStmt(P, s, If(br), gt).0, |gt|, s.nactvar, BranchNeeds(br, |gt|, s.nactvar))
    decreases If(br), 0
  {
    hide Wf, PatchToHere, CompileBranch, CompileStmt, ListOk, Evolves, Flat, BranchInScope, BranchNeeds;
    var (s1, esc, gt1) := CompileBranch(P, s, br, [], gt);
    IfIs(P, s, br, gt);
    NoList(s);
    BranchFaults(P, s, br, [], gt);
    if !s1.err {
      BranchOk(P, s, br, [], gt);
      OnList(s1, esc);
      PatchToHereBlames(s1, esc);
    }
  }

  lemma IfIs(P: Prims, s: State, br: Branch, gt: Gotos)
    ensures
      var (s1, esc, gt1) := CompileBranch(P, s, br, [], gt);
      CompileStmt(P, s, If(br), gt) == (PatchToHere(s1, esc), gt1)
  {}

  lemma {:induction false} WhileFaults(P: Prims, s: State, cond: Expr, b: Block, gt: Gotos)
    requires Between(s) && InScope(cond, s.nactvar) && BlockInScope(b, s.nactvar) && ListOk(s, Flat(gt), 0)
    ensures Faults(CompileStmt(P, s, While(cond, b), gt).0, |gt|, s.nactvar, ArmNeeds(cond, b, |gt|, s.nactvar))
    decreases While(cond, b), 0
  {
    hide Between, Evolves, ListOk, LoopCondition, Condition, BreakCondition, CompileBlock, CompileStmt, EndWhile,
      LoopHead, EscapesFrom, Disjoint, Depth, InScope, BlockInScope, BlockTop, BlockWaits, BlockVars, Flat;
    var sh := LoopHead(s);
    var (s1, jf) := LoopCondition(P, sh, cond);
    var (sb, gt1) := CompileBlock(P, s1, b, gt);
    var s3 := LeaveBlock(sb, s.nactvar);
    LoopHeadOk(s);
    ConditionBlames(P, sh, cond);
    WhileIs(P, s, cond, b, gt);
    if !s1.err {
      WhileHeadOk(P, s, cond, gt);
      BlockFaults(P, s1, b, gt);
      if !sb.err {
        WhileParts(P, s, cond, b, gt);
        EndWhileBlames(s, s3, |s.code|, jf, gt1[|gt|..]);
      }
    }
  }

  lemma {:induction false} RepeatFaults(P: Prims, s: State, b: Block, cond: Expr, gt: Gotos)
    requires Between(s) && BlockInScope(b, s.nactvar) && InScope(cond, BlockEnd(b, s.nactvar))
    requires ListOk(s, Flat(gt), 0)
    ensures Faults(CompileStmt(P, s, Repeat(b, cond), gt).0, |gt|, s.nactvar,
      Needs(Max(BlockTop(b, s.nactvar), BlockEnd(b, s.nactvar) + Depth(cond)), |gt| + BlockWaits(b),
        BlockVars(b, s.nactvar)))
    decreases Repeat(b, cond), 0
  {
    hide Between, Evolves, ListOk, LoopCondition, Condition, BreakCondition, CompileBlock, CompileStmt, EndLoop,
      LoopHead, EscapesFrom, Disjoint, Depth, InScope, BlockInScope, BlockTop, BlockWaits, BlockVars, Flat;
    var sh := LoopHead(s);
    var (sb, gt1) := CompileBlock(P, sh, b, gt);
    var (s1, jf) := LoopCondition(P, sb, cond);
    var s3 := LeaveBlock(s1, s.nactvar);
    LoopHeadOk(s);
    RepeatIs(P, s, b, cond, gt);
    ExtendsSame(s, sh, Flat(gt));
    BlockFaults(P, sh, b, gt);
    if !sb.err {
      BlockOk(P, sh, b, gt);
      ConditionBlames(P, sb, cond);
      if !s1.err {
        RepeatParts(P, s, b, cond, gt);
        EndLoopBlames(s, s3, jf, |s.code|, gt1[|gt|..]);
      }
    }
  }

  lemma {:induction false} BranchFaults(P: Prims, s: State, br: Branch, esc: seq<nat>, gt: Gotos)
    requires Between(s) && BranchInScope(br, s.nactvar) && Apart(s, esc, Flat(gt))
    ensures Faults(CompileBranch(P, s, br, esc, gt).0, |gt|, s.nactvar, BranchNeeds(br, |gt|, s.nactvar))
    decreases br, 2
  {
    hide Between, TestThenBlock, CompileTail, Evolves, ListOk, Disjoint, EscapesFrom, Depth, InScope, BlockInScope,
      TailInScope, BlockTop, TailTop, BlockWaits, TailWaits, BlockVars, TailVars, BlockLeaves, Flat, Pending;
    var (s1, esc1, gt1) := TestThenBlock(P, s, br, esc, gt);
    ArmFaults(P, s, br, esc, gt);
    ArmLeft(P, s, br, esc, gt);
    if s1.err {
      FaultsEarlier(s1, CompileBranch(P, s, br, esc, gt).0, |gt|, s.nactvar,
        ArmNeeds(br.cond, br.thenb, |gt|, s.nactvar), BranchNeeds(br, |gt|, s.nactvar));
    } else {
      ArmOk(P, s, br, esc, gt);
      TailFaults(P, s1, br.tail, esc1, gt1);
    }
  }

  lemma {:induction false} ArmFaults(P: Prims, s: State, br: Branch, esc: seq<nat>, gt: Gotos)
    requires Between(s) && BranchInScope(br, s.nactvar) && Apart(s, esc, Flat(gt))
    ensures Faults(TestThenBlock(P, s, br, esc, gt).0, |gt|, s.nactvar, ArmNeeds(br.cond, br.thenb, |gt|, s.nactvar))
    decreases br, 1
  {
    hide Between, BreakCondition, Condition, LoopCondition, OpenArm, CompileBlock, EndArm, ListOk, Disjoint, InScope,
      BlockInScope, Depth, ArmNeeds, ArmBlock;
    if LoneBreak(br.thenb) {
      LoneBreakFaults(P, s, br, gt);
      LeaveFaults(NewGoto(BreakCondition(P, s, br.cond).0, gt), s.nactvar, |gt|,
        ArmNeeds(br.cond, br.thenb, |gt|, s.nactvar));
    } else {
      var (s1, jf, gt1) := OpenArm(P, s, br, gt);
      var sb := CompileBlock(P, s1, ArmBlock(br.thenb), gt1).0;
      ArmBodyFaults(P, s, br, gt);
      if !sb.err {
        ArmParts(P, s, br, esc, gt);
        EndArmBlames(s, LeaveBlock(sb, s.nactvar), jf, !br.tail.End?, esc);
      }
    }
  }

  lemma LoneBreakFaults(P: Prims, s: State, br: Branch, gt: Gotos)
    requires Between(s) && InScope(br.cond, s.nactvar) && LoneBreak(br.thenb)
    ensures Faults(NewGoto(BreakCondition(P, s, br.cond).0, gt), |gt|, s.nactvar,
      ArmNeeds(br.cond, br.thenb, |gt|, s.nactvar))
  {
    hide Between, BreakCondition, Condition, LoopCondition, Depth;
    var s1 := BreakCondition(P, s, br.cond).0;
    assert BlockWaits(br.thenb) == 1 && BlockVars(br.thenb, s.nactvar) == s.nactvar;
    ConditionBlames(P, s, br.cond);
    if !s1.err { NewGotoBlames(s1, gt); }
  }

  /** The condition of an arm and its block. */
  lemma {:induction false} ArmBodyFaults(P: Prims, s: State, br: Branch, gt: Gotos)
    requires Between(s) && BranchInScope(br, s.nactvar) && ListOk(s, Flat(gt), 0)
    ensures
      var (s1, jf, gt1) := OpenArm(P, s, br, gt);
      Faults(CompileBlock(P, s1, ArmBlock(br.thenb), gt1).0, |gt|, s.nactvar,
        ArmNeeds(br.cond, br.thenb, |gt|, s.nactvar))
    decreases br, 0
  {
    hide Between, OpenArm, CompileBlock, ListOk, InScope, BlockInScope, Depth, BlockTop, BlockWaits, BlockVars,
      ArmBlock, TailInScope, StartsWithBreak, EscapesFrom, Disjoint, Flat, Evolves;
    var (s1, jf, gt1) := OpenArm(P, s, br, gt);
    OpenArmFaults(P, s, br, gt);
    ArmBlockNeeds(br.thenb, s.nactvar);
    if !s1.err {
      OpenArmOk(P, s, br, gt);
      ArmBlockInScope(br.thenb, s.nactvar);
      OpenArmLeft(P, s, br, gt);
      BlockFaults(P, s1, ArmBlock(br.thenb), gt1);
    }
  }

  lemma OpenArmLeft(P: Prims, s: State, br: Branch, gt: Gotos)
    ensures |OpenArm(P, s, br, gt).2| == |gt| + if StartsWithBreak(br.thenb) then 1 else 0
  {}

  lemma {:induction false} TailFaults(P: Prims, s: State, t: Tail, esc: seq<nat>, gt: Gotos)
    requires Between(s) && TailInScope(t, s.nactvar) && Apart(s, esc, Flat(gt))
    ensures Faults(CompileTail(P, s, t, esc, gt).0, |gt|, s.nactvar, TailNeeds(t, |gt|, s.nactvar))
    decreases t
  {
    hide Wf, CompileBlock, CompileBranch, Evolves, ListOk, Disjoint, EscapesFrom;
    match t
    case End => NoError(s);
    case Else(b) => BlockFaults(P, s, b, gt);
    case ElseIf(br) => BranchFaults(P, s, br, esc, gt);
  }

  /** Compiling a statement list fails for want of registers, code, constants, breaks or locals, and
      always for want of the last two. */
  lemma {:induction false} BlockFaults(P: Prims, s: State, b: Block, gt: Gotos)
    requires Between(s) && BlockInScope(b, s.nactvar) && ListOk(s, Flat(gt), 0)
    ensures Faults(CompileBlock(P, s, b, gt).0, |gt|, s.nactvar, BlockNeeds(b, |gt|, s.nactvar))
    decreases b
  {
    hide Wf, Compile, ReturnValues, CompileStmt, ListOk, Evolves, Flat, EscapesFrom, StmtTop, StmtWaits, StmtVars;
    match b
    case Nothing => NoError(s);
    case Then(st, rest) =>
      var (s1, gt1) := CompileStmt(P, s, st, gt);
      StmtFaults(P, s, st, gt);
      StmtLeft(P, s, st, gt);
      if !s1.err {
        StmtOk(P, s, st, gt);
        BlockFaults(P, s1, rest, gt1);
      }
    case Ret(es) => ReturnValuesBlames(P, s, es);
  }

  // ----- functions -----

  /** A function may have 200 parameters. */
  lemma StartFails(n: nat)
    ensures Start(n).err <==> n > 200
  {}

  /** Registers, code and constants within the limits of the instruction format. */
  predicate Moderate(b: Block, n: nat) {
    BlockTop(b, n) < 250 && BlockSize(b) + 1 <= 131071 && BlockConsts(b) <= 67108863
  }

  /** What is an error whatever the instructions: too many locals, too many breaks that wait, a break
      outside of any loop. */
  predicate Permitted(b: Block, n: nat) {
    BlockVars(b, n) <= 200 && BlockWaits(b) <= 32767 && BlockLeaves(b) == 0
  }

  /** A function of moderate size compiles exactly if it is permitted. */
  lemma CompileSucceeds(P: Prims, n: nat, b: Block)
    requires BlockInScope(b, n)
    ensures Permitted(b, n) && Moderate(b, n) ==> !CompileBody(P, Start(n), b).err
    ensures !Permitted(b, n) ==> CompileBody(P, Start(n), b).err
  {
    hide CompileBlock, Emit, Wf, Evolves, BlockTop, BlockWaits, BlockVars, BlockEnd, BlockLeaves, BlockSize,
      BlockConsts, BlockInScope;
    var s := Start(n);
    var (s1, gt) := CompileBlock(P, s, b, []);
    StartFails(n);
    BlockLeft(P, s, b, []);
    if !s.err {
      StartOk(n);
      NoList(s);
      BlockFaults(P, s, b, []);
      if !s1.err {
        BlockAdds(P, s, b, []);
        BlockOk(P, s, b, []);
        EmitBlames(s1, Return(0, 1));
        EmitSize(s1, Return(0, 1));
      } else { BlockAdds(P, s, b, []); }
    }
  }
}
