/** Statements: local declarations, assignments to locals, blocks, conditional statements, loops,
    breaks and returns, and the code of a whole function made of them. */
module LuaStatements {
  import opened LuaValues
  import opened LuaOpcodes
  import opened LuaVm
  import opened LuaPatch
  import opened LuaConstants
  import opened LuaCode
  import opened LuaShape
  import opened LuaShapeOps
  import opened LuaCompiler
  import opened LuaExprLists
  import opened LuaAssignment

  datatype Stmt =
    | Local(names: nat, inits: seq<Expr>)
    | Assign(rs: seq<nat>, rhs: seq<Expr>)
    | Do(body: Block)
    | If(branch: Branch)
    | While(cond: Expr, body: Block)
    | Repeat(body: Block, cond: Expr)
    | Break

  /** One arm of a conditional statement, and what follows it. */
  datatype Branch = Branch(cond: Expr, thenb: Block, tail: Tail)
  datatype Tail = End | Else(elseb: Block) | ElseIf(branch: Branch)

  datatype Block = Nothing | Then(st: Stmt, rest: Block) | Ret(values: seq<Expr>)

  // ----- meaning -----

  predicate StmtInScope(st: Stmt, n: nat) {
    match st
    case Local(_, es) => AllInScope(es, n)
    case Assign(rs, es) => (forall i :: 0 <= i < |rs| ==> rs[i] < n) && AllInScope(es, n)
    case Do(b) => BlockInScope(b, n)
    case If(br) => BranchInScope(br, n)
    case While(cond, b) => InScope(cond, n) && BlockInScope(b, n)
    case Repeat(b, cond) => BlockInScope(b, n) && InScope(cond, BlockEnd(b, n))
    case Break => true
  }

  predicate BranchInScope(br: Branch, n: nat) {
    InScope(br.cond, n) && BlockInScope(br.thenb, n) && TailInScope(br.tail, n)
  }

  predicate TailInScope(t: Tail, n: nat) {
    match t
    case End => true
    case Else(b) => BlockInScope(b, n)
    case ElseIf(br) => BranchInScope(br, n)
  }

  function Locals(st: Stmt, n: nat): nat { if st.Local? then n + st.names else n }

  predicate BlockInScope(b: Block, n: nat) {
    match b
    case Nothing => true
    case Then(st, rest) => StmtInScope(st, n) && BlockInScope(rest, Locals(st, n))
    case Ret(es) => AllInScope(es, n)
  }

  /** The number of locals at the end of a block. The condition of a repeat loop sees them. */
  function BlockEnd(b: Block, n: nat): (m: nat)
    ensures n <= m
  {
    if b.Then? then BlockEnd(b.rest, Locals(b.st, n)) else n
  }

  /** Control goes on with new registers, leaves the innermost loop, or returns; or it has not
      got there yet. `left` is what remains of the number of times loops may start again. */
  datatype Flow = Normal(regs: Regs, left: nat) | Broke(regs: Regs, left: nat) | Returns(vs: seq<Value>,
      left: nat) | Timeout

  predicate Within(fl: Flow, fuel: nat) { fl.Timeout? || fl.left <= fuel }

  /** What a statement does; the first `n` registers are the locals. Registers of locals whose
      block has ended are free. */
  function StmtMeaning(P: Prims, st: Stmt, rg: Regs, n: nat, fuel: nat): (fl: Flow)
    ensures Within(fl, fuel)
    decreases fuel, st
  {
    match st
    case Local(k, es) => Normal(PutRegs(rg, n, Adjusted(Values(P, es, rg), k)), fuel)
    case Assign(rs, es) => Normal(StoreRegs(rg, rs, Adjusted(Values(P, es, rg), |rs|)), fuel)
    case Do(b) => BlockMeaning(P, b, rg, n, fuel)
    case If(br) => BranchMeaning(P, br, rg, n, fuel)
    case While(cond, b) =>
      if !Truthy(Eval(P, cond, rg)) then Normal(rg, fuel)
      else
        var fl := BlockMeaning(P, b, rg, n, fuel);
        if fl.Broke? then Normal(fl.regs, fl.left)
        else if !fl.Normal? then fl
        else if fl.left == 0 then Timeout
        else StmtMeaning(P, st, fl.regs, n, fl.left - 1)
    case Repeat(b, cond) =>
      var fl := BlockMeaning(P, b, rg, n, fuel);
      if fl.Broke? then Normal(fl.regs, fl.left)
      else if !fl.Normal? || Truthy(Eval(P, cond, fl.regs)) then fl
      else if fl.left == 0 then Timeout
      else StmtMeaning(P, st, fl.regs, n, fl.left - 1)
    case Break => Broke(rg, fuel)
  }

  function BranchMeaning(P: Prims, br: Branch, rg: Regs, n: nat, fuel: nat): (fl: Flow)
    ensures Within(fl, fuel)
    decreases fuel, br
  {
    if Truthy(Eval(P, br.cond, rg))
      then BlockMeaning(P, br.thenb, rg, n, fuel) else TailMeaning(P, br.tail, rg, n, fuel)
  }

  function TailMeaning(P: Prims, t: Tail, rg: Regs, n: nat, fuel: nat): (fl: Flow)
    ensures Within(fl, fuel)
    decreases fuel, t
  {
    match t
    case End => Normal(rg, fuel)
    case Else(b) => BlockMeaning(P, b, rg, n, fuel)
    case ElseIf(br) => BranchMeaning(P, br, rg, n, fuel)
  }

  function BlockMeaning(P: Prims, b: Block, rg: Regs, n: nat, fuel: nat): (fl: Flow)
    ensures Within(fl, fuel)
    decreases fuel, b
  {
    match b
    case Nothing => Normal(rg, fuel)
    case Then(st, rest) =>
      var fl := StmtMeaning(P, st, rg, n, fuel);
      if fl.Normal? then BlockMeaning(P, rest, fl.regs, Locals(st, n), fl.left) else fl
    case Ret(es) => Returns(Values(P, es, rg), fuel)
  }

  // ----- the calls the parser makes -----

  /** The lists of jumps that break statements have left behind, innermost loop last. */
  type Gotos = seq<seq<nat>>

  const MAX_GOTOS: nat := 32767

  /** newlabelentry: there is a limit to the gotos that wait for their label. */
  function NewGoto(s: State, gt: Gotos): (s': State)
    ensures Ext(s, s') && (!s'.err ==> s' == s)
  {
    s.(err := s.err || |gt| >= MAX_GOTOS)
  }

  const MAXVARS: nat := 200

  /** new_localvar: there is a limit to the locals of a function. */
  function NewLocals(s: State, n: nat): (s': State)
    ensures Ext(s, s') && (!s'.err ==> s' == s)
  {
    s.(err := s.err || n > MAXVARS)
  }

  function Flat(gt: Gotos): seq<nat> {
    if gt == [] then [] else Flat(gt[..|gt| - 1]) + gt[|gt| - 1]
  }

  /** leaveblock, and the end of a statement: only the first `n` registers stay in use. */
  function LeaveBlock(s: State, n: nat): State { s.(nactvar := n, freereg := n) }

  /** luaK_getlabel at the head of a loop. */
  function LoopHead(s: State): (s': State)
    ensures Grows(s, s')
  {
    GetLabel(s).(labels := s.labels + {|s.code|})
  }

  /** luaK_patchlist. */
  function PatchTo(s: State, nodes: seq<nat>, target: nat): (s': State)
    ensures Ext(s, s')
  {
    if target == |s.code| then PatchToHere(s, nodes) else PatchList(s, nodes, target, NO_REG, target)
  }

  /** findgotos at the end of a loop: every break of the loop goes to here. */
  function PatchEach(s: State, gt: Gotos): (s': State)
    ensures Ext(s, s')
    decreases |gt|
  {
    if gt == [] then s else PatchToHere(PatchEach(s, gt[..|gt| - 1]), gt[|gt| - 1])
  }

  /** The state and the jumps taken on a false condition. */
  function Condition(P: Prims, s: State, cond: Expr): (r: (State, seq<nat>))
    ensures Ext(s, r.0)
  {
    var (s1, e1) := Compile(P, s, cond);
    var (s2, e2) := GoIfTrue(s1, e1);
    (s2, e2.f)
  }

  /** cond: the condition of a loop, where nil is turned into false first. */
  function LoopCondition(P: Prims, s: State, cond: Expr): (r: (State, seq<nat>))
    ensures Ext(s, r.0)
  {
    var (s1, e1) := Compile(P, s, cond);
    var (s2, e2) := GoIfTrue(s1, if e1.k.VNil? then e1.(k := VFalse) else e1);
    (s2, e2.f)
  }

  /** A condition in front of a break: the jumps taken when it is true. */
  function BreakCondition(P: Prims, s: State, cond: Expr): (r: (State, seq<nat>))
    ensures Ext(s, r.0)
  {
    var (s1, e1) := Compile(P, s, cond);
    var (s2, e2) := GoIfFalse(s1, e1);
    (s2, e2.t)
  }

  function CompileStmt(P: Prims, s: State, st: Stmt, gt: Gotos): (r: (State, Gotos))
    ensures Grows(s, r.0) && gt <= r.1
    decreases st
  {
    match st
    case Local(n, es) =>
      var s1 := AdjustAssign(NextRegs(P, s, es), n, |es|);
      (NewLocals(LeaveBlock(s1, s1.nactvar + n), s.nactvar + n), gt)
    case Assign(rs, es) =>
      var s1 := AssignAll(P, s, rs, es);
      (LeaveBlock(s1, s1.nactvar), gt)
    case Do(b) =>
      var (s1, gt1) := CompileBlock(P, s, b, gt);
      (LeaveBlock(s1, s.nactvar), gt1)
    case If(br) =>
      var (s1, esc, gt1) := CompileBranch(P, s, br, [], gt);
      (PatchToHere(s1, esc), gt1)
    case While(cond, b) =>
      var (s1, jf) := LoopCondition(P, LoopHead(s), cond);
      var (sb, gt1) := CompileBlock(P, s1, b, gt);
      (EndWhile(LeaveBlock(sb, s.nactvar), |s.code|, jf, gt1[|gt|..]), gt)
    case Repeat(b, cond) =>
      var (sb, gt1) := CompileBlock(P, LoopHead(s), b, gt);
      var (s1, jf) := LoopCondition(P, sb, cond);
      (EndLoop(LeaveBlock(s1, s.nactvar), jf, |s.code|, gt1[|gt|..]), gt)
    case Break =>
      var (s1, js) := Jump(s);
      (NewGoto(s1, gt), gt + [js])
  }

  /** The end of a loop that starts at `head`: the jumps back, and the breaks. */
  function EndLoop(s: State, js: seq<nat>, head: nat, breaks: Gotos): (s': State)
    ensures Ext(s, s')
  {
    PatchEach(PatchTo(s, js, head), breaks)
  }

  /** ... of a while loop, which also ends when its condition is false. */
  function EndWhile(s: State, head: nat, jf: seq<nat>, breaks: Gotos): (s': State)
    ensures Ext(s, s')
  {
    var (s1, js) := Jump(s);
    PatchToHere(EndLoop(s1, js, head, breaks), jf)
  }

  /** The end of an arm: with others after it, it jumps over them; `jf` goes to the next one. */
  function EndArm(s: State, jf: seq<nat>, more: bool, esc: seq<nat>): (r: (State, seq<nat>))
    ensures Ext(s, r.0) && esc <= r.1
  {
    if more then
      var (s1, js) := Jump(s);
      (PatchToHere(Link(s1, esc, js), jf), esc + js)
    else
      (PatchToHere(s, jf), esc)
  }

  predicate StartsWithBreak(b: Block) { b.Then? && b.st.Break? }
  predicate LoneBreak(b: Block) { StartsWithBreak(b) && b.rest.Nothing? }

  /** The part of an arm that is compiled as a block: a break in front of it is not. */
  function ArmBlock(b: Block): (r: Block)
    ensures r == b || (b.Then? && r == b.rest)
  {
    if StartsWithBreak(b) then b.rest else b
  }

  /** The condition of an arm, and the jumps over its block. An arm that starts with a break
      leaves the loop when the condition is true, and jumps over the rest otherwise. */
  function OpenArm(P: Prims, s: State, br: Branch, gt: Gotos): (r: (State, seq<nat>, Gotos))
    ensures Ext(s, r.0) && gt <= r.2
  {
    if StartsWithBreak(br.thenb) then
      var (s1, jt) := BreakCondition(P, s, br.cond);
      var (s2, jf) := Jump(NewGoto(s1, gt));
      (s2, jf, gt + [jt])
    else
      var (s1, jf) := Condition(P, s, br.cond);
      (s1, jf, gt)
  }

  /** test_then_block; `esc` lists the jumps that leave the statement. */
  function TestThenBlock(P: Prims, s: State, br: Branch, esc: seq<nat>, gt: Gotos): (r: (State, seq<nat>, Gotos))
    ensures Grows(s, r.0) && esc <= r.1 && gt <= r.2
    decreases br, 0
  {
    if LoneBreak(br.thenb) then
      var (s1, jt) := BreakCondition(P, s, br.cond);
      (LeaveBlock(NewGoto(s1, gt), s.nactvar), esc, gt + [jt])
    else
      var (s1, jf, gt1) := OpenArm(P, s, br, gt);
      var (sb, gt2) := CompileBlock(P, s1, ArmBlock(br.thenb), gt1);
      var (s2, esc1) := EndArm(LeaveBlock(sb, s.nactvar), jf, !br.tail.End?, esc);
      (s2, esc1, gt2)
  }

  /** What ifstat does after an arm. */
  function CompileTail(P: Prims, s: State, t: Tail, esc: seq<nat>, gt: Gotos): (r: (State, seq<nat>, Gotos))
    ensures Grows(s, r.0) && esc <= r.1 && gt <= r.2
    decreases t
  {
    match t
    case End => (s, esc, gt)
    case Else(b) =>
      var (s1, gt1) := CompileBlock(P, s, b, gt);
      (LeaveBlock(s1, s.nactvar), esc, gt1)
    case ElseIf(br) => CompileBranch(P, s, br, esc, gt)
  }

  /** An arm and everything after it. */
  function CompileBranch(P: Prims, s: State, br: Branch, esc: seq<nat>, gt: Gotos): (r: (State, seq<nat>, Gotos))
    ensures Grows(s, r.0) && esc <= r.1 && gt <= r.2
    decreases br, 1
  {
    var (s1, esc1, gt1) := TestThenBlock(P, s, br, esc, gt);
    CompileTail(P, s1, br.tail, esc1, gt1)
  }

  function CompileBlock(P: Prims, s: State, b: Block, gt: Gotos): (r: (State, Gotos))
    ensures Grows(s, r.0) && gt <= r.1
    decreases b
  {
    match b
    case Nothing => (s, gt)
    case Then(st, rest) =>
      var (s1, gt1) := CompileStmt(P, s, st, gt);
      CompileBlock(P, s1, rest, gt1)
    case Ret(es) => (LeaveBlock(ReturnValues(P, s, es), s.nactvar), gt)
  }

  /** A function body, and the final return close_func adds; a break outside of any loop is an error. */
  function CompileBody(P: Prims, s: State, b: Block): (s': State)
    ensures Grows(s, s')
  {
    var (s1, gt) := CompileBlock(P, s, b, []);
    var s2 := Emit(s1, Return(0, 1));
    s2.(err := s2.err || gt != [])
  }

  /** A function as open_func leaves it. */
  function Opened(): State { State([], 0, [], 0, 0, 2, Pool([], map[]), false, {0}) }

  /** ... with registers reserved for `n` parameters. */
  function Start(n: nat): State { NewLocals(ReserveRegs(Opened().(nactvar := n), n), n) }

  // ----- registers and lists -----

  /** Between statements only the locals are in registers. */
  ghost predicate Between(s: State) { Wf(s) && s.freereg == s.nactvar }

  /** From one place between statements to another: no list has been touched. */
  ghost predicate Settles(s: State, s': State) {
    Between(s') && Evolves(s, s', [], |s.code|) && s.labels <= s'.labels && |s.code| <= |s'.code|
  }

  /** Where the jumps of a list come from. */
  predicate EscapesFrom(s: State, xs: seq<nat>, xs': seq<nat>) {
    forall j :: j in xs' ==> j in xs || j in s.jpc || j >= |s.code|
  }

  lemma StartOk(n: nat)
    requires !Start(n).err
    ensures Between(Start(n)) && Start(n).nactvar == n
  {}

  lemma SettlesBoth(s: State, s1: State, s2: State)
    requires Settles(s, s1) && Settles(s1, s2)
    ensures Settles(s, s2)
  {
    KeepsBoth(s, s1, s2, [], []);
  }

  lemma SettlesSame(s: State)
    requires Between(s)
    ensures Settles(s, s)
  {}

  lemma LeaveOk(s: State, s': State, n: nat)
    requires Settles(s, s') && n <= s'.nactvar
    ensures Settles(s, LeaveBlock(s', n))
  {
    hide CodeOk, PoolOk, FormOk;
    assert forall j: nat :: Foreign(s', [], j) == Foreign(LeaveBlock(s', n), [], j);
  }

  lemma LeaveList(s: State, n: nat, xs: seq<nat>, base: nat)
    requires ListOk(s, xs, base)
    ensures ListOk(LeaveBlock(s, n), xs, base)
  {}

  lemma KeepsLeft(s: State, s': State, n: nat)
    requires Wf(s') && Keeps(s, s', []) && s.lasttarget <= s'.lasttarget && n <= s'.freereg && s.labels <= s'.labels
    requires |s.code| <= |s'.code| && forall j :: j in s'.jpc ==> j in s.jpc || j >= |s.code|
    ensures Settles(s, LeaveBlock(s', n))
  {
    hide CodeOk, PoolOk, FormOk;
  }

  /** A list from before stays a list, apart from all newer ones. */
  lemma FrameList(s: State, s': State, xs: seq<nat>, ys: seq<nat>, ys': seq<nat>, base: nat)
    requires Settles(s, s') && ListOk(s, xs, base) && Disjoint(xs, ys) && EscapesFrom(s, ys, ys')
    ensures ListOk(s', xs, base) && Disjoint(xs, ys')
  {
    hide CodeOk, PoolOk, FormOk, Distinct;
    KeepsList(s, s', [], xs, base);
  }

  lemma MoreEscapes(s0: State, s1: State, s2: State, xs: seq<nat>, xs1: seq<nat>, xs2: seq<nat>)
    requires Settles(s0, s1) && EscapesFrom(s0, xs, xs1) && EscapesFrom(s1, xs1, xs2)
    ensures EscapesFrom(s0, xs, xs2)
  {
    hide CodeOk, PoolOk, FormOk, Distinct;
  }

  lemma TargetInCode(s: State)
    requires Wf(s)
    ensures s.lasttarget <= |s.code|
  {}

  lemma NoList(s: State)
    ensures ListOk(s, [], 0)
  {}

  lemma FromTheStart(s: State, nodes: seq<nat>, base: nat)
    requires ListOk(s, nodes, base)
    ensures ListOk(s, nodes, 0)
  {}

  // ----- pending breaks -----

  lemma {:induction false} FlatSplit(gt: Gotos, gt': Gotos)
    requires gt <= gt'
    ensures Flat(gt') == Flat(gt) + Flat(gt'[|gt|..])
    decreases |gt'|
  {
    if gt == gt' { assert gt'[|gt|..] == []; }
    else {
      var k := |gt'| - 1;
      assert gt <= gt'[..k];
      FlatSplit(gt, gt'[..k]);
      assert gt'[|gt|..][..k - |gt|] == gt'[..k][|gt|..];
    }
  }

  lemma FlatOne(gt: Gotos, js: seq<nat>)
    ensures Flat(gt + [js]) == Flat(gt) + js
  {
    assert (gt + [js])[..|gt|] == gt;
  }

  lemma ListParts(s: State, xs: seq<nat>, ys: seq<nat>, base: nat)
    requires ListOk(s, xs + ys, base)
    ensures ListOk(s, xs, base) && ListOk(s, ys, base) && Disjoint(xs, ys)
  {
    var zs := xs + ys;
    assert forall x :: x in xs || x in ys ==> x in zs;
    forall i, j | 0 <= i < j < |ys| ensures ys[i] != ys[j] { assert zs[|xs| + i] != zs[|xs| + j]; }
    forall i, j | 0 <= i < |xs| && 0 <= j < |ys| ensures xs[i] != ys[j] { assert zs[i] != zs[|xs| + j]; }
    forall i, j | 0 <= i < j < |xs| ensures xs[i] != xs[j] { assert zs[i] != zs[j]; }
  }

  lemma ListWhole(s: State, xs: seq<nat>, ys: seq<nat>, base: nat)
    requires ListOk(s, xs, base) && ListOk(s, ys, base) && Disjoint(xs, ys)
    ensures ListOk(s, xs + ys, base)
  {
    DistinctConcat(xs, ys);
  }

  lemma {:induction false} PatchEachOk(s: State, gt: Gotos)
    requires Wf(s) && ListOk(s, Flat(gt), 0) && !PatchEach(s, gt).err
    ensures
      var s' := PatchEach(s, gt);
      && Wf(s') && Keeps(s, s', Flat(gt)) && s.lasttarget <= s'.lasttarget
      && s' == s.(lasttarget := s'.lasttarget, jpc := s.jpc + Flat(gt))
    decreases |gt|
  {
    hide CodeOk, PoolOk, FormOk;
    if gt == [] { assert s.jpc + [] == s.jpc; KeepsSame(s, []); }
    else {
      var k := |gt| - 1;
      var s1 := PatchEach(s, gt[..k]);
      ListParts(s, Flat(gt[..k]), gt[k], 0);
      PatchEachOk(s, gt[..k]);
      KeepsList(s, s1, Flat(gt[..k]), gt[k], 0);
      PatchToHereOk(s1, gt[k]);
      TargetInCode(s1);
      KeepsSplit(s, s1, PatchEach(s, gt), Flat(gt[..k]), gt[k]);
      assert s.jpc + Flat(gt[..k]) + gt[k] == s.jpc + Flat(gt);
    }
  }

  lemma KeepsSplit(s: State, s1: State, s2: State, xs: seq<nat>, ys: seq<nat>)
    requires Keeps(s, s1, xs) && Keeps(s1, s2, ys)
    ensures Keeps(s, s2, xs + ys)
  {
    forall j: nat | Foreign(s, xs + ys, j) ensures Foreign(s, xs, j) && Foreign(s1, ys, j) {
      assert Foreign(s, xs, j);
    }
  }

  // ----- jumps back -----

  lemma LoopHeadOk(s: State)
    requires Between(s)
    ensures Settles(s, LoopHead(s)) && LoopHead(s).nactvar == s.nactvar
  {
    GetLabelOk(s);
    EntryAtEnd(s.code, s.lasttarget);
    var s' := LoopHead(s);
    assert forall j: nat :: Foreign(s', [], j) == Foreign(s, [], j);
  }

  lemma PatchBackShape(code: seq<Instr>, nodes: seq<nat>, dest: nat, target: nat)
    requires CodeOk(code, target) && Pending(code, nodes) && dest <= target && Entry(code, dest)
    ensures CodeOk(Patch(code, nodes, dest, NO_REG, dest), target)
  {
    var code' := Patch(code, nodes, dest, NO_REG, dest);
    EntriesStay(code, nodes, dest);
    forall k | 0 <= k < |code'| ensures InstrOk(code', target, k) {
      assert InstrOk(code, target, k);
      assert code'[k] == PatchAt(code, nodes, dest, NO_REG, dest, k);
    }
  }

  lemma EntriesStay(code: seq<Instr>, nodes: seq<nat>, dest: int)
    requires Pending(code, nodes)
    ensures forall q: nat :: Entry(code, q) ==> Entry(Patch(code, nodes, dest, NO_REG, dest), q)
  {}

  lemma PatchBackLabels(code: seq<Instr>, nodes: seq<nat>, dest: nat, target: nat, labels: set<nat>)
    requires FormOk(code, target, labels) && Pending(code, nodes) && dest in labels
    requires !FarPatch(code, nodes, dest, dest)
    ensures FormOk(Patch(code, nodes, dest, NO_REG, dest), target, labels)
  {
    EntriesStay(code, nodes, dest);
    PatchFits(code, nodes, dest, NO_REG, dest);
  }

  /** Patching a list to the head of a loop. */
  lemma PatchBackOk(s: State, nodes: seq<nat>, head: nat)
    requires Wf(s) && ListOk(s, nodes, 0) && head in s.labels && !PatchList(s, nodes, head, NO_REG, head).err
    ensures
      var s' := PatchList(s, nodes, head, NO_REG, head);
      Wf(s') && Keeps(s, s', nodes) && s' == s.(code := s'.code)
  {
    hide PoolOk, Patch, PatchAt, FormOk, CodeOk;
    LabelInCode(s, head);
    PatchBackShape(s.code, nodes, head, s.lasttarget);
    PatchBackLabels(s.code, nodes, head, s.lasttarget, s.labels);
    PatchKeepsOthers(s.code, nodes, head, NO_REG, head, s.jpc);
    PatchBackKeeps(s, nodes, head);
  }

  lemma LabelInCode(s: State, q: nat)
    requires Wf(s) && q in s.labels
    ensures q <= s.lasttarget <= |s.code| && Entry(s.code, q)
  {}

  lemma PatchBackKeeps(s: State, nodes: seq<nat>, head: nat)
    requires Pending(s.code, nodes)
    ensures Keeps(s, PatchList(s, nodes, head, NO_REG, head), nodes)
  {}

  lemma PatchToOk(s: State, nodes: seq<nat>, head: nat)
    requires Wf(s) && ListOk(s, nodes, 0) && head in s.labels && !PatchTo(s, nodes, head).err
    ensures
      var s' := PatchTo(s, nodes, head);
      && Wf(s') && Keeps(s, s', nodes) && s.lasttarget <= s'.lasttarget
      && s' == s.(code := s'.code, lasttarget := s'.lasttarget, jpc := s'.jpc)
      && (forall j :: j in s'.jpc ==> j in s.jpc || j in nodes)
  {
    hide CodeOk, PoolOk, FormOk, Distinct;
    TargetInCode(s);
    if head == |s.code| { PatchToHereOk(s, nodes); } else { PatchBackOk(s, nodes, head); }
  }

  // ----- conditions -----

  lemma ConditionOk(P: Prims, s: State, cond: Expr)
    requires Between(s) && InScope(cond, s.nactvar) && !Condition(P, s, cond).0.err
    ensures
      var (s', jf) := Condition(P, s, cond);
      Settles(s, s') && s'.nactvar == s.nactvar && ListOk(s', jf, |s.code|)
  {
    hide CodeOk, PoolOk, FormOk, Compile, GoIfTrue, Evolves, ListOk;
    var (s1, e1) := Compile(P, s, cond);
    CompileOk(P, s, cond);
    GoIfTrueOk(s1, e1, |s.code|, s.freereg);
    EvolvesBoth(s, s1, GoIfTrue(s1, e1).0, e1);
  }

  lemma BreakConditionOk(P: Prims, s: State, cond: Expr)
    requires Between(s) && InScope(cond, s.nactvar) && !BreakCondition(P, s, cond).0.err
    ensures
      var (s', jt) := BreakCondition(P, s, cond);
      Settles(s, s') && s'.nactvar == s.nactvar && ListOk(s', jt, |s.code|)
  {
    hide CodeOk, PoolOk, FormOk, Compile, GoIfFalse, Evolves, ListOk;
    var (s1, e1) := Compile(P, s, cond);
    CompileOk(P, s, cond);
    GoIfFalseOk(s1, e1, |s.code|, s.freereg);
    EvolvesBoth(s, s1, GoIfFalse(s1, e1).0, e1);
  }

  lemma LoopConditionOk(P: Prims, s: State, cond: Expr)
    requires Between(s) && InScope(cond, s.nactvar) && !LoopCondition(P, s, cond).0.err
    ensures
      var (s', jf) := LoopCondition(P, s, cond);
      Settles(s, s') && s'.nactvar == s.nactvar && ListOk(s', jf, |s.code|)
  {
    hide CodeOk, PoolOk, FormOk, Compile, GoIfTrue, Evolves, ListOk;
    var (s1, e1) := Compile(P, s, cond);
    var e2 := if e1.k.VNil? then e1.(k := VFalse) else e1;
    CompileOk(P, s, cond);
    GoIfTrueOk(s1, e2, |s.code|, s.freereg);
    EvolvesBoth(s, s1, GoIfTrue(s1, e2).0, e2);
  }

  // ----- pending jumps of statements -----

  /** Two lists that stay apart. */
  ghost predicate Apart(s: State, xs: seq<nat>, ys: seq<nat>) {
    ListOk(s, xs, 0) && ListOk(s, ys, 0) && Disjoint(xs, ys)
  }

  /** On the way from `s` to `s'` the list `xs` has grown to `xs'`. */
  ghost predicate Extends(s: State, s': State, xs: seq<nat>, xs': seq<nat>) {
    Settles(s, s') && ListOk(s', xs', 0) && EscapesFrom(s, xs, xs')
  }

  /** ... and `ys` to `ys'`, apart from it. */
  ghost predicate ExtendsTwo(s: State, s': State, xs: seq<nat>, xs': seq<nat>, ys: seq<nat>, ys': seq<nat>) {
    Extends(s, s', xs, xs') && Extends(s, s', ys, ys') && Disjoint(xs', ys')
  }

  lemma ExtendsBoth(s0: State, s1: State, s2: State, xs: seq<nat>, xs1: seq<nat>, xs2: seq<nat>)
    requires Extends(s0, s1, xs, xs1) && Extends(s1, s2, xs1, xs2)
    ensures Extends(s0, s2, xs, xs2)
  {
    hide Between, Evolves, Keeps, ListOk;
    SettlesBoth(s0, s1, s2);
    MoreEscapes(s0, s1, s2, xs, xs1, xs2);
  }

  /** A list that nothing is added to. */
  lemma ExtendsSame(s: State, s': State, xs: seq<nat>)
    requires Settles(s, s') && ListOk(s, xs, 0)
    ensures Extends(s, s', xs, xs)
  {
    hide CodeOk, PoolOk, FormOk, Distinct;
    KeepsList(s, s', [], xs, 0);
  }

  /** New jumps are on no earlier list. */
  lemma NewJumps(s: State, s': State, xs: seq<nat>, js: seq<nat>)
    requires Settles(s, s') && ListOk(s, xs, 0) && ListOk(s', js, 0) && EscapesFrom(s, [], js)
    ensures Apart(s', xs, js) && Extends(s, s', xs, xs + js)
  {
    hide CodeOk, PoolOk, FormOk, Distinct;
    ExtendsSame(s, s', xs);
    assert Disjoint(xs, js);
    ListWhole(s', xs, js, 0);
  }

  lemma NewList(s: State, js: seq<nat>)
    requires forall j :: j in js ==> |s.code| <= j
    ensures EscapesFrom(s, [], js)
  {}

  /** A list beside one that grows. */
  lemma ExtendsBeside(s: State, s': State, xs: seq<nat>, ys: seq<nat>, ys': seq<nat>)
    requires Apart(s, xs, ys) && Extends(s, s', ys, ys')
    ensures ExtendsTwo(s, s', xs, xs, ys, ys')
  {
    hide CodeOk, PoolOk, FormOk, Distinct, Evolves;
    ExtendsSame(s, s', xs);
    FrameList(s, s', xs, ys, ys', 0);
  }

  lemma ExtendsLeft(s: State, s': State, n: nat, xs: seq<nat>, xs': seq<nat>)
    requires Extends(s, s', xs, xs') && n <= s'.nactvar
    ensures Extends(s, LeaveBlock(s', n), xs, xs')
  {
    hide Between, Evolves;
    LeaveOk(s, s', n);
    LeaveList(s', n, xs', 0);
  }

  lemma JumpExtends(s: State, xs: seq<nat>)
    requires Between(s) && ListOk(s, xs, 0) && !Jump(s).0.err
    ensures
      var (s', js) := Jump(s);
      && Extends(s, s', xs, xs + js) && Apart(s', xs, js) && EscapesFrom(s, [], js) && s'.nactvar == s.nactvar
  {
    hide CodeOk, PoolOk, FormOk;
    var (s', js) := Jump(s);
    JumpOk(s);
    assert s' == s.(code := s'.code, jpc := []);
    assert forall j :: j in js ==> j == |s.code| || j in s.jpc;
    assert Settles(s, s');
    NewJumps(s, s', xs, js);
  }

  /** Patching a list to the end of the code, beside another one. */
  lemma PatchExtends(s0: State, s: State, nodes: seq<nat>, xs: seq<nat>)
    requires Settles(s0, s) && Apart(s, nodes, xs) && EscapesFrom(s0, [], nodes) && !PatchToHere(s, nodes).err
    ensures var s' := PatchToHere(s, nodes); Settles(s0, s') && ListOk(s', xs, 0) && s'.nactvar == s.nactvar
  {
    hide CodeOk, PoolOk, FormOk, Distinct;
    PatchToHereOk(s, nodes);
    KeepsBoth(s0, s, PatchToHere(s, nodes), [], nodes);
    KeepsList(s, PatchToHere(s, nodes), nodes, xs, 0);
    TargetInCode(s);
  }

  lemma EndArmOk(s0: State, s: State, jf: seq<nat>, more: bool, esc: seq<nat>, xs: seq<nat>)
    requires Settles(s0, s) && Apart(s, jf, esc) && Apart(s, jf, xs) && Apart(s, esc, xs)
    requires EscapesFrom(s0, [], jf) && !EndArm(s, jf, more, esc).0.err
    ensures
      var (s', esc') := EndArm(s, jf, more, esc);
      && Settles(s0, s') && s'.nactvar == s.nactvar && Apart(s', esc', xs)
      && (forall j :: j in esc' ==> j in esc || j in s.jpc || j >= |s.code|)
  {
    hide Between, Evolves, ListOk, Jump, PatchToHere;
    if more {
      var (s1, js) := Jump(s);
      JumpExtends(s, esc);
      ExtendsBeside(s, s1, jf, esc, esc + js);
      ExtendsBeside(s, s1, xs, esc, esc + js);
      assert Link(s1, esc, js) == s1;
      SettlesBoth(s0, s, s1);
      PatchExtends(s0, s1, jf, esc + js);
      ExtendsSame(s, s1, xs);
      PatchExtends(s0, s1, jf, xs);
    } else {
      PatchExtends(s0, s, jf, esc);
      PatchExtends(s0, s, jf, xs);
    }
  }

  lemma PatchToExtends(s0: State, s: State, nodes: seq<nat>, head: nat, xs: seq<nat>)
    requires Settles(s0, s) && Apart(s, nodes, xs) && EscapesFrom(s0, [], nodes) && head in s.labels
    requires !PatchTo(s, nodes, head).err
    ensures var s' := PatchTo(s, nodes, head); Settles(s0, s') && ListOk(s', xs, 0) && s'.nactvar == s.nactvar
  {
    hide CodeOk, PoolOk, FormOk, Distinct;
    PatchToOk(s, nodes, head);
    KeepsBoth(s0, s, PatchTo(s, nodes, head), [], nodes);
    KeepsList(s, PatchTo(s, nodes, head), nodes, xs, 0);
  }

  lemma PatchEachExtends(s0: State, s: State, gt: Gotos, xs: seq<nat>)
    requires Settles(s0, s) && Apart(s, Flat(gt), xs) && EscapesFrom(s0, [], Flat(gt)) && !PatchEach(s, gt).err
    ensures var s' := PatchEach(s, gt); Settles(s0, s') && ListOk(s', xs, 0) && s'.nactvar == s.nactvar
  {
    hide CodeOk, PoolOk, FormOk, Distinct;
    PatchEachOk(s, gt);
    KeepsBoth(s0, s, PatchEach(s, gt), [], Flat(gt));
    KeepsList(s, PatchEach(s, gt), Flat(gt), xs, 0);
  }

  lemma EndLoopOk(s0: State, s: State, js: seq<nat>, head: nat, breaks: Gotos, xs: seq<nat>)
    requires Settles(s0, s) && Apart(s, js, Flat(breaks)) && Apart(s, js, xs) && Apart(s, Flat(breaks), xs)
    requires EscapesFrom(s0, [], js) && EscapesFrom(s0, [], Flat(breaks)) && head in s.labels
    requires !EndLoop(s, js, head, breaks).err
    ensures var s' := EndLoop(s, js, head, breaks); Settles(s0, s') && ListOk(s', xs, 0) && s'.nactvar == s.nactvar
  {
    hide Between, Evolves, ListOk, PatchTo, EscapesFrom;
    PatchToExtends(s0, s, js, head, Flat(breaks));
    PatchToExtends(s0, s, js, head, xs);
    PatchEachExtends(s0, PatchTo(s, js, head), breaks, xs);
  }

  lemma EndWhileOk(s0: State, s: State, head: nat, jf: seq<nat>, breaks: Gotos, xs: seq<nat>)
    requires Settles(s0, s) && Apart(s, jf, Flat(breaks)) && Apart(s, jf, xs) && Apart(s, Flat(breaks), xs)
    requires EscapesFrom(s0, [], jf) && EscapesFrom(s0, [], Flat(breaks)) && head in s.labels
    requires |s0.code| <= |s.code| && !EndWhile(s, head, jf, breaks).err
    ensures var s' := EndWhile(s, head, jf, breaks); Settles(s0, s') && ListOk(s', xs, 0) && s'.nactvar == s.nactvar
  {
    hide Between, Evolves, ListOk, Jump, EndLoop, PatchToHere;
    var (s1, js) := Jump(s);
    JumpExtends(s, jf);
    JumpExtends(s, xs);
    JumpExtends(s, Flat(breaks));
    ExtendsSame(s, s1, jf);
    ExtendsSame(s, s1, xs);
    ExtendsSame(s, s1, Flat(breaks));
    SettlesBoth(s0, s, s1);
    EarlierJumps(s0, s, js);
    EndLoopOk(s0, s1, js, head, breaks, jf);
    EndLoopOk(s0, s1, js, head, breaks, xs);
    PatchExtends(s0, EndLoop(s1, js, head, breaks), jf, xs);
  }

  lemma EarlierJumps(s0: State, s: State, js: seq<nat>)
    requires Settles(s0, s) && EscapesFrom(s, [], js)
    ensures EscapesFrom(s0, [], js)
  {}

  // ----- every statement keeps the invariants -----

  lemma {:induction false} StmtOk(P: Prims, s: State, st: Stmt, gt: Gotos)
    requires Between(s) && StmtInScope(st, s.nactvar) && ListOk(s, Flat(gt), 0) && !CompileStmt(P, s, st, gt).0.err
    ensures
      var (s', gt') := CompileStmt(P, s, st, gt);
      Extends(s, s', Flat(gt), Flat(gt')) && s'.nactvar == Locals(st, s.nactvar)
    decreases st
  {
    hide Between, Compile, NextRegs, AdjustAssign, AssignAll, PatchToHere, CompileBranch, Jump,
      CompileBlock, ListOk, LoopCondition, EndLoop, EndWhile, LoopHead, Extends, Flat;
    match st
    case Local(n, es) =>
      LocalsOk(P, s, n, es);
      ExtendsSame(s, CompileStmt(P, s, st, gt).0, Flat(gt));
    case Assign(rs, es) =>
      AssignOnlyLocals(P, s, rs, es);
      ExtendsSame(s, CompileStmt(P, s, st, gt).0, Flat(gt));
    case Do(b) =>
      BlockOk(P, s, b, gt);
      var (s1, gt1) := CompileBlock(P, s, b, gt);
      ExtendsLeft(s, s1, s.nactvar, Flat(gt), Flat(gt1));
    case If(br) => IfOk(P, s, br, gt);
    case While(cond, b) => WhileOk(P, s, cond, b, gt);
    case Repeat(b, cond) => RepeatOk(P, s, b, cond, gt);
    case Break =>
      FlatOne(gt, Jump(s).1);
      JumpExtends(s, Flat(gt));
  }

  lemma AssignOnlyLocals(P: Prims, s: State, rs: seq<nat>, es: seq<Expr>)
    requires Between(s) && AllInScope(es, s.nactvar) && (forall i :: 0 <= i < |rs| ==> rs[i] < s.nactvar)
    requires !AssignAll(P, s, rs, es).err
    ensures
      var s1 := AssignAll(P, s, rs, es);
      Settles(s, LeaveBlock(s1, s.nactvar)) && s1.nactvar == s.nactvar
  {
    hide CodeOk, PoolOk, FormOk, AssignAll, Keeps;
    AssignOk(P, s, rs, es);
    KeepsLeft(s, AssignAll(P, s, rs, es), s.nactvar);
  }

  lemma {:induction false} IfOk(P: Prims, s: State, br: Branch, gt: Gotos)
    requires Between(s) && BranchInScope(br, s.nactvar) && ListOk(s, Flat(gt), 0)
    requires !CompileStmt(P, s, If(br), gt).0.err
    ensures
      var (s', gt') := CompileStmt(P, s, If(br), gt);
      Extends(s, s', Flat(gt), Flat(gt')) && s'.nactvar == s.nactvar
    decreases If(br), 0
  {
    hide Between, PatchToHere, CompileBranch, ListOk, Flat, Evolves;
    var (s1, esc, gt1) := CompileBranch(P, s, br, [], gt);
    NoList(s);
    BranchOk(P, s, br, [], gt);
    PatchExtends(s, s1, esc, Flat(gt1));
  }

  /** A declaration of `n` names leaves exactly their registers in use. */
  lemma LocalsOk(P: Prims, s: State, n: nat, es: seq<Expr>)
    requires Between(s) && AllInScope(es, s.nactvar) && !AdjustAssign(NextRegs(P, s, es), n, |es|).err
    ensures
      var s2 := AdjustAssign(NextRegs(P, s, es), n, |es|);
      Settles(s, LeaveBlock(s2, s.nactvar + n)) && s2.nactvar == s.nactvar
  {
    hide CodeOk, PoolOk, FormOk, NextRegs, AdjustAssign, Keeps;
    var s1 := NextRegs(P, s, es);
    NextRegsOk(P, s, es);
    AdjustAssignOk(s1, n, |es|);
    EvolvesTwice(s, s1, AdjustAssign(s1, n, |es|));
    KeepsLeft(s, AdjustAssign(s1, n, |es|), s.nactvar + n);
  }

  /** The breaks of a block are new jumps. */
  lemma BreaksOk(s: State, s': State, gt: Gotos, gt': Gotos)
    requires Extends(s, s', Flat(gt), Flat(gt')) && gt <= gt'
    ensures Apart(s', Flat(gt), Flat(gt'[|gt|..])) && EscapesFrom(s, [], Flat(gt'[|gt|..]))
    ensures Flat(gt') == Flat(gt) + Flat(gt'[|gt|..])
  {
    hide Settles, Pending, Distinct;
    FlatSplit(gt, gt');
    ListParts(s', Flat(gt), Flat(gt'[|gt|..]), 0);
  }

  /** A list beside the breaks of a block is beside the outer ones as well. */
  lemma BesideBreaks(s: State, xs: seq<nat>, gt: Gotos, gt': Gotos)
    requires Apart(s, xs, Flat(gt')) && gt <= gt'
    ensures Apart(s, xs, Flat(gt)) && Apart(s, xs, Flat(gt'[|gt|..]))
  {
    hide Pending, Distinct;
    FlatSplit(gt, gt');
    ListParts(s, Flat(gt), Flat(gt'[|gt|..]), 0);
  }

  lemma ApartSym(s: State, xs: seq<nat>, ys: seq<nat>)
    requires Apart(s, xs, ys)
    ensures Apart(s, ys, xs)
  {}

  lemma ApartAgain(s: State, s': State, xs: seq<nat>, xs': seq<nat>, ys: seq<nat>, ys': seq<nat>)
    requires ExtendsTwo(s, s', xs, xs', ys, ys')
    ensures Apart(s', xs', ys')
  {}

  lemma BothEscape(s: State, xs: seq<nat>, ys: seq<nat>)
    requires EscapesFrom(s, [], xs) && EscapesFrom(s, [], ys)
    ensures EscapesFrom(s, [], xs + ys)
  {}

  lemma StayApart(s: State, s': State, xs: seq<nat>, ys: seq<nat>)
    requires Settles(s, s') && Apart(s, xs, ys)
    ensures Apart(s', xs, ys)
  {
    hide Between, ListOk;
    ExtendsSame(s, s', xs);
    ExtendsSame(s, s', ys);
  }

  lemma LeaveApart(s: State, n: nat)
    ensures forall xs, ys :: Apart(s, xs, ys) ==> Apart(LeaveBlock(s, n), xs, ys)
  {}

  /** The jumps of a condition are on no earlier list. */
  lemma ConditionLists(s: State, s': State, js: seq<nat>, xs: seq<nat>)
    requires Settles(s, s') && ListOk(s', js, |s.code|) && ListOk(s, xs, 0)
    ensures Apart(s', js, xs) && EscapesFrom(s, [], js)
  {
    hide Between, Evolves;
    NewList(s, js);
    FromTheStart(s', js, |s.code|);
    NewJumps(s, s', xs, js);
    ApartSym(s', xs, js);
  }

  /** The lists around the body of a while loop. */
  lemma BodyLists(s: State, s1: State, sb: State, jf: seq<nat>, gt: Gotos, gt': Gotos)
    requires Settles(s, s1) && Apart(s1, jf, Flat(gt)) && EscapesFrom(s, [], jf)
    requires Extends(s1, sb, Flat(gt), Flat(gt')) && gt <= gt'
    ensures
      var breaks := Flat(gt'[|gt|..]);
      && Settles(s, sb) && Apart(sb, jf, breaks) && Apart(sb, jf, Flat(gt)) && Apart(sb, breaks, Flat(gt))
      && EscapesFrom(s, [], breaks)
  {
    hide Between, Evolves, ListOk, EscapesFrom;
    SettlesBoth(s, s1, sb);
    ExtendsBeside(s1, sb, jf, Flat(gt), Flat(gt'));
    BesideBreaks(sb, jf, gt, gt');
    BreaksOk(s1, sb, gt, gt');
    ApartSym(sb, Flat(gt), Flat(gt'[|gt|..]));
    EarlierJumps(s, s1, Flat(gt'[|gt|..]));
  }

  lemma HeadIsLabel(s: State)
    ensures |s.code| in LoopHead(s).labels && |LoopHead(s).code| == |s.code|
  {}

  /** The head and the condition of a while loop. */
  lemma WhileHeadOk(P: Prims, s: State, cond: Expr, gt: Gotos)
    requires Between(s) && InScope(cond, s.nactvar) && ListOk(s, Flat(gt), 0)
    requires !LoopCondition(P, LoopHead(s), cond).0.err
    ensures
      var sh := LoopHead(s);
      var (s1, jf) := LoopCondition(P, sh, cond);
      && Settles(s, sh) && Settles(sh, s1) && Settles(s, s1)
      && sh.nactvar == s1.nactvar == s.nactvar && |sh.code| == |s.code| && |s.code| in sh.labels
      && ListOk(s1, Flat(gt), 0) && EscapesFrom(s, [], jf) && Apart(s1, jf, Flat(gt))
  {
    hide Between, Evolves, ListOk, LoopCondition, LoopHead, EscapesFrom, Disjoint;
    var sh := LoopHead(s);
    var (s1, jf) := LoopCondition(P, sh, cond);
    LoopHeadOk(s);
    HeadIsLabel(s);
    ExtendsSame(s, sh, Flat(gt));
    LoopConditionOk(P, sh, cond);
    SettlesBoth(s, sh, s1);
    ConditionLists(s, s1, jf, Flat(gt));
  }

  lemma WhileIs(P: Prims, s: State, cond: Expr, b: Block, gt: Gotos)
    ensures
      var (s1, jf) := LoopCondition(P, LoopHead(s), cond);
      var (sb, gt1) := CompileBlock(P, s1, b, gt);
      CompileStmt(P, s, While(cond, b), gt) == (EndWhile(LeaveBlock(sb, s.nactvar), |s.code|, jf, gt1[|gt|..]), gt)
  {}

  lemma RepeatIs(P: Prims, s: State, b: Block, cond: Expr, gt: Gotos)
    ensures
      var (sb, gt1) := CompileBlock(P, LoopHead(s), b, gt);
      var (s1, jf) := LoopCondition(P, sb, cond);
      CompileStmt(P, s, Repeat(b, cond), gt) == (EndLoop(LeaveBlock(s1, s.nactvar), jf, |s.code|, gt1[|gt|..]), gt)
  {}

  /** A while loop taken apart: its head, its condition and its body. */
  lemma {:induction false} WhileParts(P: Prims, s: State, cond: Expr, b: Block, gt: Gotos)
    requires Between(s) && InScope(cond, s.nactvar) && BlockInScope(b, s.nactvar) && ListOk(s, Flat(gt), 0)
    requires !CompileBlock(P, LoopCondition(P, LoopHead(s), cond).0, b, gt).0.err
    ensures
      var sh := LoopHead(s);
      var (s1, jf) := LoopCondition(P, sh, cond);
      var (sb, gt1) := CompileBlock(P, s1, b, gt);
      var breaks, s3 := gt1[|gt|..], LeaveBlock(sb, s.nactvar);
      && Settles(s, sh) && Settles(sh, s1) && Settles(s1, sb) && Settles(s, s3)
      && sh.nactvar == s1.nactvar == s.nactvar && |sh.code| == |s.code| && |s.code| in sh.labels
      && ListOk(s1, Flat(gt), 0) && EscapesFrom(s, [], jf) && EscapesFrom(s, [], Flat(breaks))
      && Apart(s3, jf, Flat(breaks)) && Apart(s3, jf, Flat(gt)) && Apart(s3, Flat(breaks), Flat(gt))
    decreases While(cond, b), 0
  {
    hide Between, Evolves, ListOk, LoopCondition, CompileBlock, EndWhile, LoopHead, EscapesFrom, Disjoint;
    var (s1, jf) := LoopCondition(P, LoopHead(s), cond);
    var (sb, gt1) := CompileBlock(P, s1, b, gt);
    WhileHeadOk(P, s, cond, gt);
    BlockOk(P, s1, b, gt);
    BodyLists(s, s1, sb, jf, gt, gt1);
    LeaveOk(s, sb, s.nactvar);
    LeaveApart(sb, s.nactvar);
  }

  lemma {:induction false} WhileOk(P: Prims, s: State, cond: Expr, b: Block, gt: Gotos)
    requires Between(s) && InScope(cond, s.nactvar) && BlockInScope(b, s.nactvar)
    requires ListOk(s, Flat(gt), 0) && !CompileStmt(P, s, While(cond, b), gt).0.err
    ensures
      var (s', gt') := CompileStmt(P, s, While(cond, b), gt);
      Extends(s, s', Flat(gt), Flat(gt')) && s'.nactvar == s.nactvar
    decreases While(cond, b), 1
  {
    hide Between, Evolves, ListOk, LoopCondition, CompileBlock, EndWhile, LoopHead, EscapesFrom, Disjoint;
    var (s1, jf) := LoopCondition(P, LoopHead(s), cond);
    var (sb, gt1) := CompileBlock(P, s1, b, gt);
    WhileParts(P, s, cond, b, gt);
    EndWhileOk(s, LeaveBlock(sb, s.nactvar), |s.code|, jf, gt1[|gt|..], Flat(gt));
    NothingNew(s, CompileStmt(P, s, While(cond, b), gt).0, Flat(gt));
  }

  lemma NothingNew(s: State, s': State, xs: seq<nat>)
    requires Settles(s, s') && ListOk(s', xs, 0)
    ensures Extends(s, s', xs, xs)
  {}

  /** The lists at the end of a repeat loop. */
  lemma RepeatLists(s: State, sh: State, sb: State, s1: State, jf: seq<nat>, gt: Gotos, gt': Gotos)
    requires Extends(s, sh, Flat(gt), Flat(gt)) && Extends(sh, sb, Flat(gt), Flat(gt')) && gt <= gt'
    requires Settles(sb, s1) && ListOk(s1, jf, |sb.code|)
    ensures
      var breaks := Flat(gt'[|gt|..]);
      && Settles(s, s1) && Apart(s1, jf, breaks) && Apart(s1, jf, Flat(gt)) && Apart(s1, breaks, Flat(gt))
      && EscapesFrom(sb, [], jf) && EscapesFrom(s, [], jf) && EscapesFrom(s, [], breaks)
  {
    hide Between, Evolves, ListOk, EscapesFrom, Disjoint;
    var breaks := Flat(gt'[|gt|..]);
    ExtendsBoth(s, sh, sb, Flat(gt), Flat(gt), Flat(gt'));
    BreaksOk(s, sb, gt, gt');
    ApartSym(sb, Flat(gt), breaks);
    ConditionLists(sb, s1, jf, Flat(gt));
    ConditionLists(sb, s1, jf, breaks);
    StayApart(sb, s1, breaks, Flat(gt));
    EarlierJumps(s, sb, jf);
    SettlesBoth(s, sb, s1);
  }

  /** A repeat loop taken apart: its head, its body and its condition. */
  lemma {:induction false} RepeatParts(P: Prims, s: State, b: Block, cond: Expr, gt: Gotos)
    requires Between(s) && BlockInScope(b, s.nactvar) && InScope(cond, BlockEnd(b, s.nactvar))
    requires ListOk(s, Flat(gt), 0) && !LoopCondition(P, CompileBlock(P, LoopHead(s), b, gt).0, cond).0.err
    ensures
      var sh := LoopHead(s);
      var (sb, gt1) := CompileBlock(P, sh, b, gt);
      var (s1, jf) := LoopCondition(P, sb, cond);
      var breaks, s3 := gt1[|gt|..], LeaveBlock(s1, s.nactvar);
      && Settles(s, sh) && Settles(sh, sb) && Settles(sb, s1) && Settles(s, s3)
      && sh.nactvar == s.nactvar && |sh.code| == |s.code| && |s.code| in sh.labels
      && sb.nactvar == s1.nactvar == BlockEnd(b, s.nactvar)
      && ListOk(sh, Flat(gt), 0) && EscapesFrom(sb, [], jf) && EscapesFrom(s, [], jf)
      && EscapesFrom(s, [], Flat(breaks))
      && Apart(s3, jf, Flat(breaks)) && Apart(s3, jf, Flat(gt)) && Apart(s3, Flat(breaks), Flat(gt))
    decreases Repeat(b, cond), 0
  {
    hide Between, Evolves, ListOk, LoopCondition, CompileBlock, EndLoop, LoopHead, EscapesFrom, Disjoint;
    var sh := LoopHead(s);
    var (sb, gt1) := CompileBlock(P, sh, b, gt);
    var (s1, jf) := LoopCondition(P, sb, cond);
    LoopHeadOk(s);
    HeadIsLabel(s);
    ExtendsSame(s, sh, Flat(gt));
    BlockOk(P, sh, b, gt);
    LoopConditionOk(P, sb, cond);
    RepeatLists(s, sh, sb, s1, jf, gt, gt1);
    LeaveOk(s, s1, s.nactvar);
    LeaveApart(s1, s.nactvar);
  }

  lemma {:induction false} RepeatOk(P: Prims, s: State, b: Block, cond: Expr, gt: Gotos)
    requires Between(s) && BlockInScope(b, s.nactvar) && InScope(cond, BlockEnd(b, s.nactvar))
    requires ListOk(s, Flat(gt), 0) && !CompileStmt(P, s, Repeat(b, cond), gt).0.err
    ensures
      var (s', gt') := CompileStmt(P, s, Repeat(b, cond), gt);
      Extends(s, s', Flat(gt), Flat(gt')) && s'.nactvar == s.nactvar
    decreases Repeat(b, cond), 1
  {
    hide Between, Evolves, ListOk, LoopCondition, CompileBlock, EndLoop, LoopHead, EscapesFrom, Disjoint;
    var (sb, gt1) := CompileBlock(P, LoopHead(s), b, gt);
    var (s1, jf) := LoopCondition(P, sb, cond);
    RepeatParts(P, s, b, cond, gt);
    EndLoopOk(s, LeaveBlock(s1, s.nactvar), jf, |s.code|, gt1[|gt|..], Flat(gt));
    NothingNew(s, CompileStmt(P, s, Repeat(b, cond), gt).0, Flat(gt));
  }

  /** The jumps over the block of an arm are a list of their own. */
  lemma OpenArmOk(P: Prims, s: State, br: Branch, gt: Gotos)
    requires Between(s) && InScope(br.cond, s.nactvar) && ListOk(s, Flat(gt), 0) && !OpenArm(P, s, br, gt).0.err
    ensures
      var (s1, jf, gt1) := OpenArm(P, s, br, gt);
      && Extends(s, s1, Flat(gt), Flat(gt1)) && Apart(s1, jf, Flat(gt1)) && EscapesFrom(s, [], jf)
      && s1.nactvar == s.nactvar
  {
    hide Between, Evolves, ListOk, BreakCondition, Condition, Jump, EscapesFrom, Disjoint;
    if StartsWithBreak(br.thenb) {
      var (s1, jt) := BreakCondition(P, s, br.cond);
      var (s2, jf) := Jump(s1);
      BreakConditionOk(P, s, br.cond);
      NewBreak(s, s1, gt, jt);
      JumpExtends(s1, Flat(gt + [jt]));
      ApartSym(s2, Flat(gt + [jt]), jf);
      ExtendsSame(s1, s2, Flat(gt + [jt]));
      ExtendsBoth(s, s1, s2, Flat(gt), Flat(gt + [jt]), Flat(gt + [jt]));
      EarlierJumps(s, s1, jf);
    } else {
      var (s1, jf) := Condition(P, s, br.cond);
      ConditionOk(P, s, br.cond);
      ConditionLists(s, s1, jf, Flat(gt));
      ExtendsSame(s, s1, Flat(gt));
    }
  }

  lemma NewBreak(s: State, s1: State, gt: Gotos, jt: seq<nat>)
    requires Settles(s, s1) && ListOk(s1, jt, |s.code|) && ListOk(s, Flat(gt), 0)
    ensures Extends(s, s1, Flat(gt), Flat(gt + [jt]))
  {
    hide Between, Evolves;
    FlatOne(gt, jt);
    NewList(s, jt);
    FromTheStart(s1, jt, |s.code|);
    NewJumps(s, s1, Flat(gt), jt);
  }

  /** The lists at the end of the block of an arm. */
  lemma ArmLists(s: State, s1: State, sb: State, jf: seq<nat>, esc: seq<nat>, xs: seq<nat>, xs1: seq<nat>,
      xs2: seq<nat>)
    requires Apart(s, esc, xs) && Extends(s, s1, xs, xs1) && Apart(s1, jf, xs1) && EscapesFrom(s, [], jf)
    requires Extends(s1, sb, xs1, xs2)
    ensures Extends(s, sb, xs, xs2) && Apart(sb, jf, esc) && Apart(sb, jf, xs2) && Apart(sb, esc, xs2)
  {
    hide Between, Evolves, EscapesFrom, ListOk, Disjoint;
    NewJumps(s, s1, esc, jf);
    ApartSym(s1, esc, jf);
    StayApart(s1, sb, jf, esc);
    ExtendsBoth(s, s1, sb, xs, xs1, xs2);
    ExtendsBeside(s, sb, esc, xs, xs2);
    ExtendsBeside(s1, sb, jf, xs1, xs2);
  }

  /** An arm taken apart: its condition, its block and its end. */
  lemma {:induction false} ArmParts(P: Prims, s: State, br: Branch, esc: seq<nat>, gt: Gotos)
    requires Between(s) && BranchInScope(br, s.nactvar) && Apart(s, esc, Flat(gt))
    requires var (s1, _, gt1) := OpenArm(P, s, br, gt); !CompileBlock(P, s1, ArmBlock(br.thenb), gt1).0.err
    ensures
      var (s1, jf, gt1) := OpenArm(P, s, br, gt);
      var b := ArmBlock(br.thenb);
      var (sb, gt2) := CompileBlock(P, s1, b, gt1);
      var s3 := LeaveBlock(sb, s.nactvar);
      && Settles(s, s1) && s1.nactvar == s.nactvar && ListOk(s1, Flat(gt1), 0) && BlockInScope(b, s.nactvar)
      && EscapesFrom(s, [], jf) && Settles(s1, sb) && Extends(s1, sb, Flat(gt1), Flat(gt2))
      && Extends(s, s3, Flat(gt), Flat(gt2))
      && Apart(s3, jf, esc) && Apart(s3, jf, Flat(gt2)) && Apart(s3, esc, Flat(gt2))
    decreases br, 0
  {
    hide Between, Evolves, OpenArm, CompileBlock, EndArm, ListOk, Disjoint, EscapesFrom, InScope, BlockInScope;
    var (s1, jf, gt1) := OpenArm(P, s, br, gt);
    var b := ArmBlock(br.thenb);
    var (sb, gt2) := CompileBlock(P, s1, b, gt1);
    ArmBlockInScope(br.thenb, s.nactvar);
    OpenArmOk(P, s, br, gt);
    BlockOk(P, s1, b, gt1);
    ArmLists(s, s1, sb, jf, esc, Flat(gt), Flat(gt1), Flat(gt2));
    ExtendsLeft(s, sb, s.nactvar, Flat(gt), Flat(gt2));
    LeaveApart(sb, s.nactvar);
  }

  lemma {:induction false} ArmOk(P: Prims, s: State, br: Branch, esc: seq<nat>, gt: Gotos)
    requires Between(s) && BranchInScope(br, s.nactvar) && Apart(s, esc, Flat(gt))
    requires !TestThenBlock(P, s, br, esc, gt).0.err
    ensures
      var (s', esc', gt') := TestThenBlock(P, s, br, esc, gt);
      ExtendsTwo(s, s', esc, esc', Flat(gt), Flat(gt')) && s'.nactvar == s.nactvar
    decreases br, 1
  {
    hide Between, Evolves, OpenArm, BreakCondition, CompileBlock, EndArm, ListOk, Disjoint, EscapesFrom, InScope,
      BlockInScope;
    var n := s.nactvar;
    if LoneBreak(br.thenb) {
      var (s1, jt) := BreakCondition(P, s, br.cond);
      BreakConditionOk(P, s, br.cond);
      NewBreak(s, s1, gt, jt);
      ExtendsBeside(s, s1, esc, Flat(gt), Flat(gt + [jt]));
      ExtendsLeft(s, s1, n, esc, esc);
      ExtendsLeft(s, s1, n, Flat(gt), Flat(gt + [jt]));
    } else {
      var (s1, jf, gt1) := OpenArm(P, s, br, gt);
      var b := ArmBlock(br.thenb);
      var (sb, gt2) := CompileBlock(P, s1, b, gt1);
      var s3 := LeaveBlock(sb, n);
      ArmParts(P, s, br, esc, gt);
      EndArmOk(s, s3, jf, !br.tail.End?, esc, Flat(gt2));
      var (s', esc') := EndArm(s3, jf, !br.tail.End?, esc);
      ArmExtends(s, s3, s', esc, esc', Flat(gt), Flat(gt2));
    }
  }

  lemma ArmBlockInScope(b: Block, n: nat)
    requires BlockInScope(b, n)
    ensures BlockInScope(ArmBlock(b), n)
  {}

  lemma ArmExtends(s: State, s3: State, s': State, esc: seq<nat>, esc': seq<nat>, xs: seq<nat>, xs': seq<nat>)
    requires Extends(s, s3, xs, xs') && Settles(s, s') && Apart(s', esc', xs')
    requires forall j :: j in esc' ==> j in esc || j in s3.jpc || j >= |s3.code|
    ensures ExtendsTwo(s, s', esc, esc', xs, xs')
  {
    hide Between, ListOk, Keeps;
  }

  lemma {:induction false} TailOk(P: Prims, s: State, t: Tail, esc: seq<nat>, gt: Gotos)
    requires Between(s) && TailInScope(t, s.nactvar) && Apart(s, esc, Flat(gt)) && !CompileTail(P, s, t, esc, gt).0.err
    ensures
      var (s', esc', gt') := CompileTail(P, s, t, esc, gt);
      ExtendsTwo(s, s', esc, esc', Flat(gt), Flat(gt')) && s'.nactvar == s.nactvar
    decreases t
  {
    hide Wf, CompileBlock, CompileBranch, Evolves, ListOk, Disjoint, EscapesFrom;
    match t
    case End =>
      SettlesSame(s);
      ExtendsSame(s, s, esc);
      ExtendsSame(s, s, Flat(gt));
    case Else(b) =>
      var (s1, gt1) := CompileBlock(P, s, b, gt);
      BlockOk(P, s, b, gt);
      ExtendsBeside(s, s1, esc, Flat(gt), Flat(gt1));
      ExtendsLeft(s, s1, s.nactvar, esc, esc);
      ExtendsLeft(s, s1, s.nactvar, Flat(gt), Flat(gt1));
    case ElseIf(br) => BranchOk(P, s, br, esc, gt);
  }

  lemma {:induction false} BranchOk(P: Prims, s: State, br: Branch, esc: seq<nat>, gt: Gotos)
    requires Between(s) && BranchInScope(br, s.nactvar) && Apart(s, esc, Flat(gt))
    requires !CompileBranch(P, s, br, esc, gt).0.err
    ensures
      var (s', esc', gt') := CompileBranch(P, s, br, esc, gt);
      ExtendsTwo(s, s', esc, esc', Flat(gt), Flat(gt')) && s'.nactvar == s.nactvar
    decreases br, 2
  {
    hide Between, TestThenBlock, CompileTail, Evolves, ListOk, Disjoint, EscapesFrom;
    var (s1, esc1, gt1) := TestThenBlock(P, s, br, esc, gt);
    var (s', esc', gt') := CompileTail(P, s1, br.tail, esc1, gt1);
    ArmOk(P, s, br, esc, gt);
    TailOk(P, s1, br.tail, esc1, gt1);
    ExtendsBoth(s, s1, s', esc, esc1, esc');
    ExtendsBoth(s, s1, s', Flat(gt), Flat(gt1), Flat(gt'));
  }

  lemma {:induction false} BlockOk(P: Prims, s: State, b: Block, gt: Gotos)
    requires Between(s) && BlockInScope(b, s.nactvar) && ListOk(s, Flat(gt), 0) && !CompileBlock(P, s, b, gt).0.err
    ensures
      var (s', gt') := CompileBlock(P, s, b, gt);
      Extends(s, s', Flat(gt), Flat(gt')) && s'.nactvar == BlockEnd(b, s.nactvar)
    decreases b
  {
    hide CodeOk, PoolOk, FormOk, Compile, ReturnValues, CompileStmt, ListOk, Keeps, Flat, EscapesFrom;
    match b
    case Nothing =>
      SettlesSame(s);
      ExtendsSame(s, s, Flat(gt));
    case Then(st, rest) =>
      var (s1, gt1) := CompileStmt(P, s, st, gt);
      var (s', gt') := CompileBlock(P, s1, rest, gt1);
      StmtOk(P, s, st, gt);
      BlockOk(P, s1, rest, gt1);
      ExtendsBoth(s, s1, s', Flat(gt), Flat(gt1), Flat(gt'));
    case Ret(es) =>
      ReturnValuesOk(P, s, es);
      KeepsLeft(s, ReturnValues(P, s, es), s.nactvar);
      ExtendsSame(s, CompileBlock(P, s, b, gt).0, Flat(gt));
  }

  /** Compiling a whole function keeps every invariant; its frame is below the limit. */
  lemma BodyOk(P: Prims, s: State, b: Block)
    requires Between(s) && BlockInScope(b, s.nactvar) && !CompileBody(P, s, b).err
    ensures Wf(CompileBody(P, s, b))
  {
    hide CodeOk, PoolOk, FormOk, CompileBlock, Emit, Evolves;
    NoList(s);
    BlockOk(P, s, b, []);
    EmitOk(CompileBlock(P, s, b, []).0, Return(0, 1));
  }
}
