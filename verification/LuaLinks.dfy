/** Jump lists threaded through the jump instructions of the code: what walking, joining and
    patching such a list does to the lists as sequences. */
module LuaLinks {
  import opened LuaOpcodes
  import opened LuaVm
  import opened LuaPatch
  import opened LuaConstants
  import opened LuaCode
  import opened LuaShape
  import opened LuaEncoding
  import opened LuaShapeOps
  import opened LuaStatements
  import Spec = LuaCode

  /** getjump: the jump after `pc` on its list; an offset to itself ends the list. */
  function GetJump(code: seq<Instr>, pc: nat): int
    requires pc < |code| && code[pc].Jmp?
  {
    if code[pc].sbx == NO_JUMP then NO_JUMP else pc + 1 + code[pc].sbx
  }

  /** The `i`-th node of a list, NO_JUMP after its end. */
  function NodeAt(nodes: seq<nat>, i: nat): int { if i < |nodes| then nodes[i] else NO_JUMP }

  /** `list` is the head of a list threaded through exactly `nodes`, in that order. */
  predicate Chain(code: seq<Instr>, list: int, nodes: seq<nat>) {
    && list == NodeAt(nodes, 0) && Distinct(nodes)
    && forall i :: 0 <= i < |nodes| ==>
         nodes[i] < |code| && code[nodes[i]].Jmp? && GetJump(code, nodes[i]) == NodeAt(nodes, i + 1)
  }

  /** A jump whose offset fits its field. */
  predicate NearJump(i: Instr) { i.Jmp? && -131071 <= i.sbx <= 131071 }

  /** `c` is the code `a` with some links in the jumps that are still on lists. */
  predicate Represents(c: seq<Instr>, a: seq<Instr>) {
    && |c| == |a|
    && forall i :: 0 <= i < |a| ==> if a[i] == Jmp(OPEN) then NearJump(c[i]) else c[i] == a[i]
  }

  /** Whatever the links, patching the listed jumps gives the same code. */
  lemma PatchRepresents(c: seq<Instr>, a: seq<Instr>, nodes: seq<nat>, vtarget: int, reg: nat, dtarget: int)
    requires Represents(c, a)
    ensures !FarPatch(a, nodes, vtarget, dtarget) ==>
      Represents(Patch(c, nodes, vtarget, reg, dtarget), Patch(a, nodes, vtarget, reg, dtarget))
    ensures FarPatch(c, nodes, vtarget, dtarget) == FarPatch(a, nodes, vtarget, dtarget)
    ensures forall j ::
      0 <= j < |c| && j !in nodes && a[j] == Jmp(OPEN) ==> Patch(c, nodes, vtarget, reg, dtarget)[j] == c[j]
  {
    var c', a' := Patch(c, nodes, vtarget, reg, dtarget), Patch(a, nodes, vtarget, reg, dtarget);
    assert forall j: nat :: Carries(c, j) == Carries(a, j);
    if !FarPatch(a, nodes, vtarget, dtarget) {
      forall i | 0 <= i < |a| ensures if a'[i] == Jmp(OPEN) then NearJump(c'[i]) else c'[i] == a'[i] {
        if i in nodes { assert !Far(i, if Carries(a, i) then vtarget else dtarget); }
      }
    }
  }

  /** Code with the jump at `j`, and the test that controls it, patched. */
  function PatchedOne(code: seq<Instr>, j: nat, vtarget: int, reg: nat, dtarget: int): seq<Instr>
    requires j < |code|
  {
    Retested(code, j, reg)[j := Jmp((if Carries(code, j) then vtarget else dtarget) - (j + 1))]
  }

  /** Code with the TESTSET that controls the jump at `j`, if there is one, patched. */
  function Retested(code: seq<Instr>, j: nat, reg: nat): (r: seq<Instr>)
    requires j < |code|
    ensures |r| == |code| && r[j] == code[j]
  {
    if Carries(code, j) then code[j - 1 := PatchTest(code[j - 1], reg)] else code
  }

  lemma OneMore(nodes: seq<nat>, i: nat)
    requires i < |nodes| && Distinct(nodes)
    ensures forall x :: x in nodes[..i + 1] <==> x in nodes[..i] || x == nodes[i]
    ensures nodes[i] !in nodes[..i]
  {}

  /** Patching one more node of a list. */
  lemma PatchOneMore(code: seq<Instr>, nodes: seq<nat>, i: nat, vtarget: int, reg: nat, dtarget: int)
    requires i < |nodes| && Distinct(nodes)
    requires forall n :: 0 <= n < |nodes| ==> nodes[n] < |code| && code[nodes[n]].Jmp?
    ensures
      var c := Patch(code, nodes[..i], vtarget, reg, dtarget);
      var j := nodes[i];
      && c[j] == code[j] && Carries(c, j) == Carries(code, j)
      && Patch(code, nodes[..i + 1], vtarget, reg, dtarget) == PatchedOne(c, j, vtarget, reg, dtarget)
  {
    hide Distinct;
    var j := nodes[i];
    OneMore(nodes, i);
    assert forall x :: x in nodes[..i] ==> code[x].Jmp?;
    PatchStep(code, nodes[..i], nodes[..i + 1], j, vtarget, reg, dtarget);
  }

  lemma PatchStep(code: seq<Instr>, xs: seq<nat>, ys: seq<nat>, j: nat, vtarget: int, reg: nat, dtarget: int)
    requires forall x :: x in ys <==> x in xs || x == j
    requires j < |code| && code[j].Jmp? && j !in xs && forall x :: x in xs ==> x < |code| && code[x].Jmp?
    ensures
      var c := Patch(code, xs, vtarget, reg, dtarget);
      && c[j] == code[j] && Carries(c, j) == Carries(code, j)
      && Patch(code, ys, vtarget, reg, dtarget) == PatchedOne(c, j, vtarget, reg, dtarget)
  {
    var c, c' := Patch(code, xs, vtarget, reg, dtarget), Patch(code, ys, vtarget, reg, dtarget);
    var d := PatchedOne(c, j, vtarget, reg, dtarget);
    forall p | 0 <= p < |code| ensures c'[p] == d[p] {}
  }

  lemma FarOneMore(code: seq<Instr>, nodes: seq<nat>, i: nat, vtarget: int, dtarget: int)
    requires i < |nodes| && Distinct(nodes)
    ensures FarPatch(code, nodes[..i + 1], vtarget, dtarget) ==
      (FarPatch(code, nodes[..i], vtarget, dtarget)
        || Far(nodes[i], if Carries(code, nodes[i]) then vtarget else dtarget))
  {
    hide Distinct;
    OneMore(nodes, i);
  }

  lemma FarNothing(code: seq<Instr>, nodes: seq<nat>, vtarget: int, dtarget: int)
    ensures !FarPatch(code, nodes[..0], vtarget, dtarget)
  {}

  lemma FarPrefix(code: seq<Instr>, nodes: seq<nat>, i: nat, vtarget: int, dtarget: int)
    requires i <= |nodes| && FarPatch(code, nodes[..i], vtarget, dtarget)
    ensures FarPatch(code, nodes, vtarget, dtarget)
  {}

  lemma ChainHead(code: seq<Instr>, list: int, nodes: seq<nat>)
    requires Chain(code, list, nodes)
    ensures list == NodeAt(nodes, 0)
  {}

  /** The node patchlistaux has reached, after it has patched the ones before. */
  lemma PatchTurn(code: seq<Instr>, list: int, nodes: seq<nat>, i: nat, vtarget: int, reg: nat, dtarget: int)
    requires Chain(code, list, nodes) && i < |nodes| && (dtarget != NO_JUMP || !NeedValue(code, nodes))
    requires !FarPatch(code, nodes[..i], vtarget, dtarget)
    ensures
      var c, j := Patch(code, nodes[..i], vtarget, reg, dtarget), nodes[i];
      && j < |c| && c[j].Jmp? && GetJump(c, j) == NodeAt(nodes, i + 1) && (dtarget == NO_JUMP ==> Carries(c, j))
      && Patch(code, nodes[..i + 1], vtarget, reg, dtarget) == PatchedOne(c, j, vtarget, reg, dtarget)
      && var far := Far(j, if Carries(c, j) then vtarget else dtarget);
         FarPatch(code, nodes[..i + 1], vtarget, dtarget) == far && (far ==> FarPatch(code, nodes, vtarget, dtarget))
  {
    hide Patch, PatchAt, PatchedOne, Far, FarPatch, Distinct, Carries;
    PatchOneMore(code, nodes, i, vtarget, reg, dtarget);
    FarOneMore(code, nodes, i, vtarget, dtarget);
    if FarPatch(code, nodes[..i + 1], vtarget, dtarget) { FarPrefix(code, nodes, i + 1, vtarget, dtarget); }
    assert nodes[i] in nodes;
  }

  /** The links of every list other than `own` and the jumps to here are untouched. */
  ghost predicate Links(s: State, code: seq<Instr>, code': seq<Instr>, own: seq<nat>) {
    forall j: nat :: Foreign(s, own, j) ==> j < |code| && j < |code'| && code'[j] == code[j]
  }

  lemma ChainKept(s: State, code: seq<Instr>, code': seq<Instr>, own: seq<nat>, list: int, nodes: seq<nat>)
    requires Represents(code, s.code) && Links(s, code, code', own)
    requires ListOk(s, nodes, 0) && Disjoint(nodes, own) && Chain(code, list, nodes)
    ensures Chain(code', list, nodes)
  {
    assert forall i :: 0 <= i < |nodes| ==> nodes[i] in nodes && Foreign(s, own, nodes[i]);
  }

  lemma LinksBoth(s: State, code: seq<Instr>, s1: State, code1: seq<Instr>, code2: seq<Instr>, own: seq<nat>,
      own1: seq<nat>)
    requires Links(s, code, code1, own) && Keeps(s, s1, own) && Links(s1, code1, code2, own1)
    requires forall j :: j in own1 ==> j in own || j in s.jpc || j >= |s.code|
    ensures Links(s, code, code2, own)
  {
    forall j: nat | Foreign(s, own, j) ensures Foreign(s1, own1, j) {}
  }

  lemma SameStep(env: Env, c: seq<Instr>, a: seq<Instr>, q: nat, rg: Regs)
    requires Represents(c, a) && q < |a| && !StepAt(env, a, q, rg).Leave?
    ensures StepAt(env, c, q, rg) == StepAt(env, a, q, rg)
  {
    hide Rhs, Rk, Scratch, Nils;
    if a[q].Jmp? {
      JumpStep(env, a, q, rg);
      JumpStep(env, c, q, rg);
    } else if !a[q].IsTest() && !a[q].LoadKX? { SameStraightStep(env, a, c, q, rg); }
  }

  lemma ConcatStacked(s: State, e1: Exp, e2: Exp, r0: nat)
    requires OnTop(s, e1, r0) && Taken(s, e2.k, r0 + 1)
    ensures Stacked(s, e1, e2, r0)
  {}

  /** What posfix needs to know about its two operands. */
  ghost predicate RightOk(s: State, op: BinOp, e1: Exp, e2: Exp, base: nat, base2: nat, r0: nat) {
    match op
    case OpAnd => ExpOk(s, e2, base2, r0) && ListOk(s, e1.f, base) && (forall j :: j in e1.f ==> j < base2)
    case OpOr => ExpOk(s, e2, base2, r0) && ListOk(s, e1.t, base) && (forall j :: j in e1.t ==> j < base2)
    case OpConcat => ExpOk(s, e2, base2, r0 + 1) && OnTop(s, e1, r0)
    case _ => ExpOk(s, e2, base2, RegsAfter(s, e1.k, r0)) && Kept(s, e1, r0)
  }

  lemma PosfixParts(s: State, e: Exp, ys: seq<nat>, base: nat, base2: nat)
    requires ExpAt(s, e, base2) && ListOk(s, ys, base) && forall j :: j in ys ==> j < base2
    ensures Disjoint(e.t, ys) && Disjoint(e.f, ys)
  {}

  lemma PosfixJoined(s: State, c: seq<Instr>, c': seq<Instr>, jpc: int, xs: seq<nat>, e: Exp, base: nat)
    requires Represents(c, s.code) && SameOutside(c, c', xs) && Chain(c, jpc, s.jpc)
    requires ExpAt(s, e, base) && (xs == e.t || xs == e.f)
    ensures Represents(c', s.code) && Chain(c', jpc, s.jpc) && Links(s, c, c', Own(e))
  {
    assert forall i :: 0 <= i < |s.jpc| ==> s.jpc[i] in s.jpc && s.jpc[i] !in xs;
    assert forall j :: j in xs ==> j in Own(e);
  }

  /** A list apart from the relinked jumps is still threaded. */
  lemma ChainOutside(c: seq<Instr>, c': seq<Instr>, xs: seq<nat>, list: int, ys: seq<nat>)
    requires SameOutside(c, c', xs) && Chain(c, list, ys) && Disjoint(ys, xs)
    ensures Chain(c', list, ys)
  {
    forall i | 0 <= i < |ys|
      ensures ys[i] < |c'| && c'[ys[i]].Jmp? && GetJump(c', ys[i]) == NodeAt(ys, i + 1)
    {
      assert ys[i] in ys;
    }
  }

  lemma PosfixOthers(s: State, c: seq<Instr>, c': seq<Instr>, xs: seq<nat>, list: int, ys: seq<nat>, e: Exp, base: nat)
    requires SameOutside(c, c', xs) && Chain(c, list, ys) && ExpAt(s, e, base)
    requires (xs == e.t && ys == e.f) || (xs == e.f && ys == e.t)
    ensures Chain(c', list, ys)
    ensures e.k.VJmp? && Chain(c, e.k.info, [e.k.info]) ==> Chain(c', e.k.info, [e.k.info])
  {
    hide SameOutside, Chain, Wf, PlaceAt, ListOk;
    ChainOutside(c, c', xs, list, ys);
    if e.k.VJmp? && Chain(c, e.k.info, [e.k.info]) { ChainOutside(c, c', xs, e.k.info, [e.k.info]); }
  }

  /** codecomp frees the right operand first. */
  lemma CompOperands(s: State, e1: Exp, e2: Exp, r0: nat, r1: nat)
    requires Wf(s) && Taken(s, e2.k, r1) && r1 == RegsAfter(s, e1.k, r0) && s.nactvar <= r0
    requires IsOperand(e1) && (InTemp(s, e1.k) ==> e1.k.info == r0)
    ensures LastTaken(s, e2) && LastTaken(FreeExp(s, e2), e1)
    ensures var s1 := FreeExp(FreeExp(s, e2), e1); Wf(s1) && s1 == s.(freereg := r0)
  {
    hide CodeOk, PoolOk, FormOk;
    FreeExpOk(s, e2, r1);
    FreeExpOk(FreeExp(s, e2), e1, r0);
  }

  lemma CompEnd(s2: State, s4: State, c2: seq<Instr>, c': seq<Instr>, i: Instr, j: int)
    requires Links(s4, c2, c', []) && s4.code == s2.code && s4.jpc == s2.jpc
    requires Chain(c', j, CondJump(s4, i).1)
    ensures Links(s2, c2, c', []) && j == CondJump(s4, i).1[0] && Chain(c', j, [j])
  {
    LinksSameCode(s2, s4, c2, c');
  }

  /** An expression whose own register has been given back, and the next one taken for it. */
  lemma NextRegReady(s: State, e: Exp, base: nat, r0: nat)
    requires ExpOk(s, e, base, r0)
    ensures
      var e' := DischargeVars(e);
      var s1 := FreeExp(s, e');
      var s2 := ReserveRegs(s1, 1);
      && KindOk(s.code, e.k) && LastTaken(s, e') && Own(e') == Own(e) && s2.freereg > 0
      && s2.code == s.code && s2.jpc == s.jpc && (!s2.err ==> ExpAt(s2, e', base) && IsReg(s2.freereg - 1))
  {
    hide CodeOk, PoolOk, FormOk, Distinct;
    var e' := DischargeVars(e);
    FreeExpOk(s, e', r0);
    var s1 := FreeExp(s, e');
    if !ReserveRegs(s1, 1).err { ReserveOk(s1, 1); }
  }

  /** A value in a register is an operand as it is. */
  lemma InRegisterKept(s: State, e: Exp)
    requires e.k.VNonReloc? && !HasJumps(e)
    ensures Exp2RK(s, e) == (s, e, e.k.info) && e.t == [] && e.f == [] && Own(e) == []
  {}

  lemma OperandLists(s: State, e: Exp, r0: nat)
    requires Kept(s, e, r0)
    ensures e.t == [] && e.f == [] && !e.k.VJmp? && Own(e) == []
  {}

  /** A kept operand is an expression in the state where the other operand is in place. */
  lemma OperandExp(s: State, e1: Exp, s1: State, base2: nat, r0: nat)
    requires (IsOperand(e1) || IsNumeral(e1)) && Kept(s, e1, r0) && Ext(s, s1) && Wf(s1) && base2 <= |s1.code|
    requires s1.freereg >= RegsAfter(s, e1.k, r0)
    ensures ExpAt(s1, e1, base2)
    ensures !IsOperand(e1) ==> ExpOk(s1, e1, base2, s1.freereg)
  {}

  /** Every jump is as it was. */
  predicate SameJumps(c: seq<Instr>, c': seq<Instr>) {
    |c| == |c'| && forall i :: 0 <= i < |c| && c[i].Jmp? ==> c'[i] == c[i]
  }

  lemma JumpsLinks(s: State, c: seq<Instr>, c1: seq<Instr>, c2: seq<Instr>, c3: seq<Instr>, own: seq<nat>)
    requires Links(s, c, c1, []) && SameJumps(c1, c2) && SameJumps(c2, c3)
    requires Represents(c, s.code)
    ensures Links(s, c, c3, own)
  {
    LinksWeaken(s, c, c1, own);
    forall j: nat | Foreign(s, own, j) ensures j < |c| && j < |c3| && c3[j] == c[j] {
      assert c[j].Jmp?;
    }
  }

  lemma RemovePending(code: seq<Instr>, nodes: seq<nat>, others: seq<nat>)
    requires Pending(code, others)
    ensures Pending(RemoveValues(code, nodes), others)
  {}

  lemma SameLength(c: seq<Instr>, a: seq<Instr>)
    requires Represents(c, a)
    ensures |c| == |a|
  {}

  lemma RemoveNothing(code: seq<Instr>)
    ensures RemoveValues(code, []) == code
  {}

  lemma RemoveOneMore(code: seq<Instr>, nodes: seq<nat>, i: nat)
    requires i < |nodes| && Distinct(nodes)
    requires forall n :: 0 <= n < |nodes| ==> nodes[n] < |code| && code[nodes[n]].Jmp?
    ensures
      var c := RemoveValues(code, nodes[..i]);
      var c' := RemoveValues(code, nodes[..i + 1]);
      var j := nodes[i];
      && c[j] == code[j] && c'[j] == code[j]
      && c' == Retested(c, j, NO_REG)
  {
    var j := nodes[i];
    assert forall x :: x in nodes[..i + 1] <==> x in nodes[..i] || x == j;
    assert forall n :: 0 <= n < i ==> nodes[n] != j;
    var c, c' := RemoveValues(code, nodes[..i]), RemoveValues(code, nodes[..i + 1]);
    var d := Retested(c, j, NO_REG);
    forall p | 0 <= p < |code| ensures c'[p] == d[p] {}
  }

  lemma RemoveRepresents(c: seq<Instr>, a: seq<Instr>, nodes: seq<nat>, list: int, jpc: seq<nat>)
    requires Represents(c, a) && Chain(c, list, jpc) && Pending(a, jpc)
    ensures
      var c', a' := RemoveValues(c, nodes), RemoveValues(a, nodes);
      Represents(c', a') && Chain(c', list, jpc) && Pending(a', jpc) && SameJumps(c, c')
  {}

  lemma BranchParts(s: State, xs: seq<nat>, js: seq<nat>, ys: seq<nat>, base: nat)
    requires BranchLists(s, xs, js, ys, base)
    ensures Pending(s.code, xs) && Disjoint(xs, js) && ListOk(s, ys, 0)
  {}

  lemma BranchJoined(s: State, c: seq<Instr>, c1: seq<Instr>, xs: seq<nat>, js: seq<nat>, ys: seq<nat>, jpc: int,
      here: int, base: nat)
    requires BranchLists(s, xs, js, ys, base) && Represents(c, s.code) && SameOutside(c, c1, xs)
    requires Chain(c, jpc, s.jpc) && Chain(c, here, ys)
    ensures Represents(c1, s.code) && Chain(c1, jpc, s.jpc) && Chain(c1, here, ys) && Links(s, c, c1, xs)
  {
    assert forall i :: 0 <= i < |s.jpc| ==> s.jpc[i] in s.jpc && s.jpc[i] !in xs;
    assert forall i :: 0 <= i < |ys| ==> ys[i] in ys && ys[i] !in xs;
  }

  lemma BranchClosed(s: State, c: seq<Instr>, c1: seq<Instr>, c': seq<Instr>, xs: seq<nat>, js: seq<nat>,
      ys: seq<nat>, l: int, base: nat)
    requires BranchLists(s, xs, js, ys, base) && Represents(c1, s.code)
    requires Links(s, c, c1, xs) && Links(s, c1, c', ys) && Chain(c1, l, xs + js)
    ensures Chain(c', l, xs + js) && Links(s, c, c', xs + ys)
  {
    DistinctConcat(xs, js);
    assert ListOk(s, xs + js, 0);
    ChainKept(s, c1, c', ys, l, xs + js);
    forall j: nat | Foreign(s, xs + ys, j) ensures Foreign(s, xs, j) && Foreign(s, ys, j) {}
  }

  lemma BranchLinks(s: State, s1: State, c: seq<Instr>, c1: seq<Instr>, c': seq<Instr>, e: Exp, xs: seq<nat>,
      ys: seq<nat>)
    requires Keeps(s, s1, []) && Links(s, c, c1, []) && Links(s1, c1, c', xs + ys)
    requires forall j :: j in xs || j in ys ==> j in Own(e)
    ensures Links(s, c, c', Own(e))
  {
    forall j: nat | Foreign(s, Own(e), j) ensures Foreign(s, [], j) && Foreign(s1, xs + ys, j) {
      assert Foreign(s, [], j);
    }
  }

  lemma InvertedLinks(s: State, c: seq<Instr>, c': seq<Instr>, j: nat, jpc: int)
    requires Represents(c, s.code) && KindOk(s.code, VJmp(j)) && |c| == |s.code| && c[j - 1] == s.code[j - 1]
    requires c' == c[j - 1 := c[j - 1].(cond := !c[j - 1].cond)]
    requires Chain(c, jpc, s.jpc) && s.jpc == []
    ensures Links(s, c, c', []) && Represents(c', InvertJump(s, j).code) && Chain(c', jpc, [])
    ensures Pending(InvertJump(s, j).code, [])
  {}

  lemma InvertedChain(c: seq<Instr>, c': seq<Instr>, j: nat)
    requires Chain(c, j, [j]) && 1 <= j && |c'| == |c| && c' == c[j - 1 := c'[j - 1]]
    ensures Chain(c', j, [j])
  {}

  lemma ListsKept(s: State, c: seq<Instr>, c': seq<Instr>, t: int, f: int, e: Exp, base: nat)
    requires Represents(c, s.code) && Links(s, c, c', []) && ListsOk(s, e, base)
    requires Chain(c, t, e.t) && Chain(c, f, e.f)
    ensures Chain(c', t, e.t) && Chain(c', f, e.f)
  {
    ChainKept(s, c, c', [], t, e.t);
    ChainKept(s, c, c', [], f, e.f);
  }

  lemma LastCmp(c: seq<Instr>, s: State, j: nat)
    requires Represents(c, s.code) && KindOk(s.code, VJmp(j))
    ensures |c| == |s.code| && c[j - 1] == s.code[j - 1]
  {}

  lemma LastInstr(c: seq<Instr>, s: State, i: nat)
    requires Represents(c, s.code) && i + 1 == |s.code| && s.code[i].Relocatable()
    ensures |c| == |s.code| && c[i] == s.code[i]
  {}

  /** Taking back the last instruction, which is not a jump. */
  lemma CutRepresents(c: seq<Instr>, s: State, list: int)
    requires Represents(c, s.code) && s.code != [] && !s.code[|s.code| - 1].Jmp? && s.jpc == [] && Chain(c, list, [])
    ensures
      var n := |s.code| - 1;
      && Represents(c[..n], s.code[..n]) && Chain(c[..n], list, [])
      && Links(s, c, c[..n], []) && Pending(s.code[..n], [])
  {}

  lemma OperandVal(s: State, e: Exp)
    requires IsOperand(e)
    ensures Exp2Val(s, e) == (s, e) && AsConstant(s, e) == (s, e) && (e.k.VNonReloc? ==> Exp2AnyReg(s, e) == (s, e))
  {}

  lemma ListsFromStart(s: State, e: Exp, base: nat)
    requires ListsOk(s, e, base)
    ensures ListOk(s, e.t, 0) && ListOk(s, e.f, 0)
  {}

  lemma LinksSameOwn(s: State, s1: State, c: seq<Instr>, c': seq<Instr>, own: seq<nat>)
    requires s1.code == s.code && s1.jpc == s.jpc && Links(s1, c, c', own)
    ensures Links(s, c, c', own)
  {
    forall j: nat | Foreign(s, own, j) ensures j < |c| && j < |c'| && c'[j] == c[j] {
      assert Foreign(s1, own, j);
    }
  }

  /** The jump of a comparison joins the list of jumps taken when the value is true. */
  lemma JumpJoins(s: State, c: seq<Instr>, e: Exp, base: nat)
    requires Represents(c, s.code) && ExpAt(s, e, base) && e.k.VJmp?
    ensures Disjoint(e.t, [e.k.info])
    ensures ListsOk(s, e.(t := e.t + [e.k.info]), 0)
    ensures Pending(s.code, e.t) && s.jpc == []
  {
    DistinctConcat(e.t, [e.k.info]);
  }

  lemma JumpJoined(s: State, c: seq<Instr>, c': seq<Instr>, e: Exp, jpc: int, f: int, base: nat)
    requires Represents(c, s.code) && ExpAt(s, e, base) && e.k.VJmp? && SameOutside(c, c', e.t)
    requires Chain(c, f, e.f) && Chain(c, jpc, s.jpc) && Chain(c, e.k.info, [e.k.info])
    ensures Represents(c', s.code) && Chain(c', e.k.info, [e.k.info]) && Chain(c', f, e.f) && Chain(c', jpc, s.jpc)
    ensures Links(s, c, c', e.t)
  {
    assert forall i :: 0 <= i < |e.f| ==> e.f[i] in e.f;
  }

  lemma DischargedLists(s: State, s1: State, e: Exp, base: nat)
    requires Keeps(s, s1, []) && ListsOk(s, e, base)
    ensures ListsOk(s1, e, 0)
  {
    KeepsList(s, s1, [], e.t, base);
    KeepsList(s, s1, [], e.f, base);
  }

  lemma Exp2RegLinks(s: State, s1: State, c: seq<Instr>, c1: seq<Instr>, c2: seq<Instr>, c': seq<Instr>, e: Exp,
      t: seq<nat>, f: seq<nat>)
    requires Keeps(s, s1, []) && Links(s, c, c1, []) && Links(s1, c1, c2, e.t) && Links(s1, c2, c', t + f)
    requires forall j :: j in t || j in f ==> j in Own(e)
    ensures Links(s, c, c', Own(e))
  {
    assert forall j :: j in e.t ==> j in Own(e);
    forall j: nat | Foreign(s, Own(e), j) ensures Foreign(s, [], j) && Foreign(s1, e.t, j) && Foreign(s1, t + f, j) {
      assert Foreign(s, [], j);
    }
  }

  lemma PatchedLinks(s: State, c: seq<Instr>, list: int, nodes: seq<nat>, vtarget: int, reg: nat, dtarget: int)
    requires Represents(c, s.code) && Chain(c, list, s.jpc) && Pending(s.code, s.jpc) && ListOk(s, nodes, 0)
    ensures
      var c' := Patch(c, nodes, vtarget, reg, dtarget);
      Chain(c', list, s.jpc) && Links(s, c, c', nodes) && Pending(Patch(s.code, nodes, vtarget, reg, dtarget), s.jpc)
  {
    hide PatchAt, Patch, FarPatch, Represents;
    SameLength(c, s.code);
    PatchRepresents(c, s.code, nodes, vtarget, reg, dtarget);
    PatchKeepsOthers(s.code, nodes, vtarget, reg, dtarget, s.jpc);
    assert forall i :: 0 <= i < |s.jpc| ==> s.jpc[i] in s.jpc;
  }

  /** The lists of `e` as they are when both get their destinations. */
  lemma CloseStart(s: State, c: seq<Instr>, c2: seq<Instr>, t: int, f: int, e: Exp, isJump: bool, reg: nat)
    requires Wf(s) && IsReg(reg) && ListsOk(s, e, 0) && (isJump ==> s.jpc == []) && !Labelled(s, e, isJump, reg).0.err
    requires Represents(c, s.code) && Links(s, c, c2, []) && Chain(c, t, e.t) && Chain(c, f, e.f)
    requires Represents(c2, Labelled(s, e, isJump, reg).0.code)
    ensures
      var (s2, p_f, p_t) := Labelled(s, e, isJump, reg);
      && Chain(c2, t, e.t) && Chain(c2, f, e.f) && ListsOk(s2, e, 0) && |c2| == |s2.code|
      && (p_f == NO_JUMP ==> !NeedValue(s2.code, e.f)) && (p_t == NO_JUMP ==> !NeedValue(s2.code, e.t))
  {
    LabelledOk(s, e, isJump, reg);
    ChainKept(s, c, c2, [], t, e.t);
    ChainKept(s, c, c2, [], f, e.f);
    var (s2, p_f, p_t) := Labelled(s, e, isJump, reg);
    assert forall j :: j in e.t ==> j in e.t + e.f;
    assert forall j :: j in e.f ==> j in e.t + e.f;
  }

  lemma CloseMiddle(s: State, s3: State, c2: seq<Instr>, c3: seq<Instr>, t: int, e: Exp, isJump: bool, reg: nat)
    requires Wf(s) && IsReg(reg) && ListsOk(s, e, 0) && (isJump ==> s.jpc == [])
    requires
      var (s2, p_f, p_t) := Labelled(s, e, isJump, reg);
      && !s2.err && s3 == PatchList(s2, e.f, |s2.code|, reg, p_f) && !s3.err
      && Represents(c2, s2.code) && Links(s2, c2, c3, e.f) && Chain(c2, t, e.t)
      && (p_t == NO_JUMP ==> !NeedValue(s2.code, e.t))
    ensures
      var (s2, p_f, p_t) := Labelled(s, e, isJump, reg);
      && Chain(c3, t, e.t) && ListOk(s3, e.t, 0)
      && (p_t == NO_JUMP ==> !NeedValue(s3.code, e.t))
  {
    hide Labelled, Patch, PatchAt, CodeOk;
    LabelledOk(s, e, isJump, reg);
    var (s2, p_f, p_t) := Labelled(s, e, isJump, reg);
    SecondListOk(s2, e.f, e.t, |s2.code|, reg, p_f, p_t);
    ChainKept(s2, c2, c3, e.f, t, e.t);
  }

  lemma CloseEnd(s: State, s3: State, c: seq<Instr>, c2: seq<Instr>, c3: seq<Instr>, c': seq<Instr>, e: Exp,
      isJump: bool, reg: nat)
    requires Wf(s) && IsReg(reg) && ListsOk(s, e, 0) && (isJump ==> s.jpc == [])
    requires
      var (s2, p_f, p_t) := Labelled(s, e, isJump, reg);
      && !s2.err && s3 == PatchList(s2, e.f, |s2.code|, reg, p_f) && !s3.err
      && Links(s, c, c2, []) && Links(s2, c2, c3, e.f) && Links(s3, c3, c', e.t)
    ensures Links(s, c, c', e.t + e.f)
  {
    hide Labelled, Patch, PatchAt, CodeOk;
    LabelledOk(s, e, isJump, reg);
    var (s2, p_f, p_t) := Labelled(s, e, isJump, reg);
    PatchListOk(s2, e.f, |s2.code|, reg, p_f);
    forall j: nat | Foreign(s, e.t + e.f, j) ensures Foreign(s, [], j) && Foreign(s2, e.f, j) && Foreign(s3, e.t, j) {}
  }

  lemma NeedSame(c: seq<Instr>, a: seq<Instr>, nodes: seq<nat>)
    requires Represents(c, a)
    ensures NeedValue(c, nodes) == NeedValue(a, nodes)
  {
    assert forall j: nat :: Carries(c, j) == Carries(a, j);
  }

  lemma JoinJpc(s: State, nodes: seq<nat>)
    requires Pending(s.code, s.jpc) && ListOk(s, nodes, 0)
    ensures Disjoint(s.jpc, nodes) && Pending(s.code, s.jpc + nodes)
  {}

  lemma LinksSameCode(s: State, s1: State, c: seq<Instr>, c': seq<Instr>)
    requires s1.code == s.code && s1.jpc == s.jpc && Links(s1, c, c', [])
    ensures Links(s, c, c', [])
  {
    forall j: nat | Foreign(s, [], j) ensures j < |c| && j < |c'| && c'[j] == c[j] {
      assert Foreign(s1, [], j);
    }
  }

  lemma LinksWeaken(s: State, c: seq<Instr>, c': seq<Instr>, own: seq<nat>)
    requires Links(s, c, c', [])
    ensures Links(s, c, c', own)
  {
    forall j: nat | Foreign(s, own, j) ensures Foreign(s, [], j) {}
  }

  lemma LinksSame(s: State, c: seq<Instr>)
    requires Represents(c, s.code)
    ensures Links(s, c, c, [])
  {}

  lemma LastIs(c: seq<Instr>, a: seq<Instr>, i: nat)
    requires Represents(c, a) && i < |a| && !a[i].Jmp?
    ensures |c| == |a| && c[i] == a[i]
  {}

  lemma RelocRepresents(c: seq<Instr>, a: seq<Instr>, i: nat, x: Instr)
    requires Represents(c, a) && i < |a| && |c| == |a| && x.Relocatable()
    ensures Represents(c[i := x], a[i := x])
  {}

  lemma RelocChain(c: seq<Instr>, s: State, i: nat, x: Instr, list: int)
    requires Represents(c, s.code) && i + 1 == |s.code| && |c| == |s.code| && s.code[i].Relocatable()
    requires s.jpc == [] && Chain(c, list, s.jpc)
    ensures Chain(c[i := x], list, s.jpc)
    ensures Links(s, c, c[i := x], [])
  {}

  /** The jumps held back for the end stay on their list while the pair is emitted. */
  lemma LabelLists(s: State, s1: State, isJump: bool, reg: nat, nodes: seq<nat>, c: seq<Instr>, c1: seq<Instr>,
      c2: seq<Instr>, c3: seq<Instr>, fj: int)
    requires Wf(s) && s1 == (if isJump then s else Jump(s).0) && s1.jpc == [] && !s1.err
    requires nodes == (if isJump then [] else Jump(s).1)
    requires Represents(c1, s1.code) && Chain(c1, fj, nodes)
    requires var s2 := CodeLabel(s1, reg, false, true);
      && Links(s1, c1, c2, []) && Links(s2, c2, c3, [])
    ensures
      var s3 := CodeLabel(CodeLabel(s1, reg, false, true), reg, true, false);
      && Chain(c3, fj, nodes) && ListOk(s3, nodes, 0) && Links(s1, c1, c3, [])
      && s1.code <= s3.code && s3.jpc == [] && |c1| == |s1.code|
  {
    hide Emit, Wf, Represents, Chain, Links, Distinct;
    if !isJump { JumpOk(s); }
    EmitWithoutJumps(GetLabel(s1), LoadBool(reg, false, true));
    var s2 := CodeLabel(s1, reg, false, true);
    EmitWithoutJumps(GetLabel(s2), LoadBool(reg, true, false));
    var s3 := CodeLabel(s2, reg, true, false);
    LongerLinks(s1, s2, c1, c2, c3);
    LongerList(s1, s3, nodes);
    SameLength(c1, s1.code);
    ChainKept(s1, c1, c3, [], fj, nodes);
  }

  lemma LongerLinks(s: State, s': State, c: seq<Instr>, c1: seq<Instr>, c2: seq<Instr>)
    requires s.code <= s'.code && s'.jpc == [] && Links(s, c, c1, []) && Links(s', c1, c2, [])
    ensures Links(s, c, c2, [])
  {
    forall j: nat | Foreign(s, [], j) ensures Foreign(s', [], j) {}
  }

  lemma LongerList(s: State, s': State, nodes: seq<nat>)
    requires Pending(s.code, nodes) && Distinct(nodes) && s.code <= s'.code && s.jpc == s'.jpc == []
    ensures ListOk(s, nodes, 0) && ListOk(s', nodes, 0)
  {}

  lemma LabelLinks(s: State, s1: State, s3: State, isJump: bool, c: seq<Instr>, c1: seq<Instr>, c3: seq<Instr>,
      c': seq<Instr>, nodes: seq<nat>)
    requires Wf(s) && s1 == (if isJump then s else Jump(s).0) && !s1.err && nodes == (if isJump then [] else Jump(s).1)
    requires s1.code <= s3.code && s3.jpc == []
    requires Links(s, c, c1, []) && Links(s1, c1, c3, []) && Links(s3, c3, c', nodes)
    ensures Links(s, c, c', [])
  {
    if !isJump { JumpOk(s); }
    forall j: nat | Foreign(s, [], j) ensures Foreign(s1, [], j) && Foreign(s3, nodes, j) {}
  }

  lemma LinksTwice(s: State, c: seq<Instr>, i: Instr, c1: seq<Instr>, c2: seq<Instr>)
    requires Pending(s.code, s.jpc)
    requires Links(s, c, c1, []) && Links(Emit(s, i), c1, c2, [])
    ensures Links(s, c, c2, [])
  {
    forall j: nat | Foreign(s, [], j) ensures Foreign(Emit(s, i), [], j) {}
  }

  /** Relinking jumps that are on a list changes nothing the code stands for. */
  lemma RelinkRepresents(c: seq<Instr>, c': seq<Instr>, a: seq<Instr>, nodes: seq<nat>)
    requires Represents(c, a) && SameOutside(c, c', nodes) && Pending(a, nodes)
    ensures Represents(c', a)
  {}

  lemma RelinkLinks(s: State, c: seq<Instr>, c': seq<Instr>, nodes: seq<nat>)
    requires Represents(c, s.code) && SameOutside(c, c', s.jpc)
    ensures Links(s, c, c', nodes)
  {}

  lemma JumpLinks(s: State, c: seq<Instr>, c1: seq<Instr>, c': seq<Instr>)
    requires Represents(c, s.code) && c1 == c + [Jmp(NO_JUMP)] && SameOutside(c1, c', [|c|])
    ensures Links(s, c, c', [])
  {}

  lemma GrowLinks(s: State, c: seq<Instr>, c': seq<Instr>, i: Instr)
    requires Links(s, c, c', [])
    ensures Links(s, c, c' + [i], [])
  {}

  lemma EmptyList(c: seq<Instr>, list: int)
    requires Chain(c, list, [])
    ensures list == NO_JUMP
  {}

  lemma NothingPending(code: seq<Instr>)
    ensures Pending(code, [])
  {}

  lemma NewChain(c: seq<Instr>)
    ensures Chain(c + [Jmp(NO_JUMP)], |c|, [|c|])
  {}

  lemma EmptyChain(c: seq<Instr>)
    ensures Chain(c, NO_JUMP, [])
  {}

  /** A new jump ends its own list. */
  lemma GrowJump(c: seq<Instr>, a: seq<Instr>)
    requires Represents(c, a)
    ensures Represents(c + [Jmp(NO_JUMP)], a + [Jmp(OPEN)])
  {}

  lemma GrowRepresents(c: seq<Instr>, a: seq<Instr>, i: Instr)
    requires Represents(c, a) && !i.Jmp?
    ensures Represents(c + [i], a + [i])
  {}

  lemma ChainExtends(code: seq<Instr>, code': seq<Instr>, list: int, nodes: seq<nat>)
    requires Chain(code, list, nodes) && code <= code'
    ensures Chain(code', list, nodes)
  {}

  /** Only links of the jumps in `nodes` differ. */
  predicate SameOutside(code: seq<Instr>, code': seq<Instr>, nodes: seq<nat>) {
    && |code| == |code'|
    && forall p :: 0 <= p < |code| ==>
         if p in nodes then code'[p].Jmp? == code[p].Jmp? && (NearJump(code[p]) ==> NearJump(code'[p]))
         else code'[p] == code[p]
  }

  /** Linking the last node of `xs` to the first of `ys` threads one list through both. */
  lemma JoinedChain(code: seq<Instr>, code': seq<Instr>, xs: seq<nat>, ys: seq<nat>)
    requires xs != [] && ys != [] && Chain(code, xs[0], xs) && Chain(code, ys[0], ys) && Disjoint(xs, ys)
    requires code' == code[xs[|xs| - 1] := Jmp(ys[0] as int - (xs[|xs| - 1] + 1))]
    requires !Far(xs[|xs| - 1], ys[0])
    ensures Chain(code', xs[0], xs + ys) && SameOutside(code, code', xs)
  {
    hide GetJump;
    DistinctConcat(xs, ys);
    forall n | 0 <= n < |xs + ys|
      ensures var j := (xs + ys)[n]; j < |code'| && code'[j].Jmp? && GetJump(code', j) == NodeAt(xs + ys, n + 1)
    {
      JoinedAt(code, code', xs, ys, n);
    }
  }

  lemma LastOnce(xs: seq<nat>, n: nat)
    requires Distinct(xs) && n < |xs| - 1
    ensures xs[n] != xs[|xs| - 1]
  {}

  lemma JoinedAt(code: seq<Instr>, code': seq<Instr>, xs: seq<nat>, ys: seq<nat>, n: nat)
    requires xs != [] && ys != [] && Chain(code, xs[0], xs) && Chain(code, ys[0], ys) && Disjoint(xs, ys)
    requires code' == code[xs[|xs| - 1] := Jmp(ys[0] as int - (xs[|xs| - 1] + 1))] && n < |xs + ys|
    ensures var j := (xs + ys)[n]; j < |code'| && code'[j].Jmp? && GetJump(code', j) == NodeAt(xs + ys, n + 1)
  {
    hide Distinct;
    var last := xs[|xs| - 1];
    assert last in xs && ys[0] in ys;
    if n < |xs| - 1 {
      LastOnce(xs, n);
      assert (xs + ys)[n] == xs[n] && (xs + ys)[n + 1] == xs[n + 1];
    } else if n == |xs| - 1 {
      assert (xs + ys)[n] == last && (xs + ys)[n + 1] == ys[0];
    } else {
      assert ys[n - |xs|] in ys;
      assert (xs + ys)[n] == ys[n - |xs|] && NodeAt(xs + ys, n + 1) == NodeAt(ys, n - |xs| + 1);
    }
  }

  // ----- pending gotos -----

  /** `heads` are the heads of the lists of gotos that wait for their label. */
  predicate Heads(code: seq<Instr>, heads: seq<int>, gt: Gotos) {
    |heads| == |gt| && forall i :: 0 <= i < |gt| ==> Chain(code, heads[i], gt[i])
  }

  /** Each of the lists is a part of all of them. */
  lemma {:induction false} PartOk(s: State, gt: Gotos, i: nat)
    requires ListOk(s, Flat(gt), 0) && i < |gt|
    ensures ListOk(s, gt[i], 0) && forall j :: j in gt[i] ==> j in Flat(gt)
    decreases |gt|
  {
    var k := |gt| - 1;
    ListParts(s, Flat(gt[..k]), gt[k], 0);
    if i < k { PartOk(s, gt[..k], i); }
  }

  lemma HeadsKept(s: State, c: seq<Instr>, c': seq<Instr>, own: seq<nat>, heads: seq<int>, gt: Gotos)
    requires Represents(c, s.code) && Links(s, c, c', own) && Heads(c, heads, gt)
    requires ListOk(s, Flat(gt), 0) && Disjoint(Flat(gt), own)
    ensures Heads(c', heads, gt)
  {
    hide Represents, Links, Chain, ListOk;
    forall i | 0 <= i < |gt| ensures Chain(c', heads[i], gt[i]) {
      PartOk(s, gt, i);
      ChainKept(s, c, c', own, heads[i], gt[i]);
    }
  }

  lemma HeadsSplit(code: seq<Instr>, heads: seq<int>, gt: Gotos, gt': Gotos)
    requires Heads(code, heads, gt') && gt <= gt'
    ensures Heads(code, heads[..|gt|], gt) && Heads(code, heads[|gt|..], gt'[|gt|..])
  {}

  lemma FlatNothing()
    ensures Flat([]) == []
  {}

  /** The first of the lists is apart from the others. */
  lemma FirstApart(s: State, gt: Gotos)
    requires ListOk(s, Flat(gt), 0) && gt != []
    ensures Flat(gt) == gt[0] + Flat(gt[1..])
    ensures ListOk(s, gt[0], 0) && ListOk(s, Flat(gt[1..]), 0) && Disjoint(gt[0], Flat(gt[1..]))
  {
    hide ListOk, Disjoint, Flat;
    FlatSplit(gt[..1], gt);
    assert gt[..1] == [] + [gt[0]];
    FlatOne([], gt[0]);
    FlatNothing();
    assert [] + gt[0] == gt[0];
    assert Flat(gt) == gt[0] + Flat(gt[1..]);
    ListParts(s, gt[0], Flat(gt[1..]), 0);
  }

  lemma {:induction false} PatchEachErr(s: State, gt: Gotos, k: nat)
    requires k <= |gt| && PatchEach(s, gt[..k]).err
    ensures PatchEach(s, gt).err
    decreases |gt|
  {
    hide PatchToHere;
    if k == |gt| { assert gt[..k] == gt; }
    else {
      assert gt[..|gt| - 1][..k] == gt[..k];
      PatchEachErr(s, gt[..|gt| - 1], k);
    }
  }

  lemma PatchEachNext(s: State, gt: Gotos, k: nat)
    requires k < |gt|
    ensures PatchEach(s, gt[..k + 1]) == PatchToHere(PatchEach(s, gt[..k]), gt[k])
  {
    assert gt[..k + 1][..k] == gt[..k];
  }
}
