/** What every operation of the code generator does, with jump lists as plain sequences of
    code positions: the specification of the methods in LuaFuncState. */
module LuaCode {
  import opened LuaValues
  import opened LuaOpcodes
  import opened LuaPatch
  import opened LuaConstants

  /** Code generation state. A jump on any list is `Jmp(OPEN)` in `code`; `jpc` lists the
      jumps to the next instruction. `err` records that the source raises a syntax error
      ("too complex", "too long", "too many constants", "too many opcodes"). `labels` are the places
      where forward runs start: the beginning of the code, and the heads of loops. */
  datatype State = State(
    code: seq<Instr>, lasttarget: nat, jpc: seq<nat>,
    freereg: nat, nactvar: nat, maxstack: nat, pool: Pool, err: bool, labels: set<nat>)

  datatype Kind =
    | VNil | VTrue | VFalse
    | VK(info: nat) | VKNum(nval: Number)
    | VNonReloc(info: nat) | VLocal(info: nat)
    | VJmp(info: nat) | VReloc(info: nat)

  /** An expression descriptor with its `exit when true` and `exit when false` lists. */
  datatype Exp = Exp(k: Kind, t: seq<nat>, f: seq<nat>)

  predicate HasJumps(e: Exp) { e.t != [] || e.f != [] }

  predicate IsNumeral(e: Exp) { e.k.VKNum? && !HasJumps(e) }

  /** An operator or comparison that can still be changed is the last thing emitted. */
  predicate KindOk(code: seq<Instr>, k: Kind) {
    match k
    case VReloc(i) => i + 1 == |code| && code[i].Relocatable()
    case VJmp(i) => 1 <= i && i + 1 == |code| && code[i - 1].Cmp?
    case _ => true
  }

  /** Errors stay, and nothing the state has promised is withdrawn. */
  predicate Ext(s: State, s': State) {
    && (s.err ==> s'.err)
    && s.pool.k <= s'.pool.k
    && s.maxstack <= s'.maxstack
    && s.nactvar == s'.nactvar
    && s.labels == s'.labels
    && |s.code| <= |s'.code|
  }

  // ----- jump lists -----

  predicate Far(node: nat, dest: int) {
    dest - (node + 1) > MAXARG_SBX || (node + 1) - dest > MAXARG_SBX
  }

  /** Some patched jump cannot reach its destination. */
  predicate FarPatch(code: seq<Instr>, nodes: seq<nat>, vtarget: int, dtarget: int) {
    exists j :: j in nodes && Far(j, if Carries(code, j) then vtarget else dtarget)
  }

  function PatchList(s: State, nodes: seq<nat>, vtarget: int, reg: nat, dtarget: int): (s': State)
    ensures Ext(s, s')
  {
    s.(code := Patch(s.code, nodes, vtarget, reg, dtarget),
       err := s.err || FarPatch(s.code, nodes, vtarget, dtarget))
  }

  function Discharge(s: State): (s': State)
    ensures Ext(s, s') && s'.jpc == [] && |s'.code| == |s.code|
  {
    PatchList(s, s.jpc, |s.code|, NO_REG, |s.code|).(jpc := [])
  }

  /** luaK_code. */
  function Emit(s: State, i: Instr): (s': State)
    ensures Ext(s, s') && |s'.code| == |s.code| + 1
  {
    var s1 := Discharge(s);
    s1.(code := s1.code + [i], err := s1.err || |s.code| >= MAX_INT)
  }

  /** Joining list `ys` to the end of `xs` must be within reach of a jump offset. */
  function Link(s: State, xs: seq<nat>, ys: seq<nat>): (s': State)
    ensures Ext(s, s')
  {
    s.(err := s.err || (xs != [] && ys != [] && Far(xs[|xs| - 1], ys[0])))
  }

  /** luaK_jump: the jumps to here stay on hold, on the list of the new jump. */
  function Jump(s: State): (r: (State, seq<nat>))
    ensures Ext(s, r.0)
  {
    var j := |s.code|;
    var s1 := s.(code := s.code + [Jmp(OPEN)], jpc := [], err := s.err || j >= MAX_INT);
    (Link(s1, [j], s.jpc), [j] + s.jpc)
  }

  function GetLabel(s: State): (s': State)
    ensures Ext(s, s')
  {
    s.(lasttarget := |s.code|)
  }

  function PatchToHere(s: State, nodes: seq<nat>): (s': State)
    ensures Ext(s, s')
  {
    var s1 := GetLabel(s);
    Link(s1, s1.jpc, nodes).(jpc := s1.jpc + nodes)
  }

  function CondJump(s: State, i: Instr): (r: (State, seq<nat>))
    ensures Ext(s, r.0) && |r.0.code| == |s.code| + 2
    ensures r.1 == [|s.code| + 1] && r.0.code[|s.code|] == i
  {
    Jump(Emit(s, i))
  }

  predicate NeedValue(code: seq<Instr>, nodes: seq<nat>) {
    exists j :: j in nodes && !Carries(code, j)
  }

  function RemoveValues(code: seq<Instr>, nodes: seq<nat>): (r: seq<Instr>)
    ensures |r| == |code|
    ensures forall i :: 0 <= i < |code| ==>
      r[i] == if i + 1 in nodes && code[i].TestSet? then PatchTest(code[i], NO_REG) else code[i]
  {
    seq(|code|, i requires 0 <= i < |code| =>
      if i + 1 in nodes && code[i].TestSet? then PatchTest(code[i], NO_REG) else code[i])
  }

  // ----- registers and constants -----

  function ReserveRegs(s: State, n: nat): (s': State)
    ensures Ext(s, s') && s'.freereg == s.freereg + n
  {
    var newstack := s.freereg + n;
    if newstack > s.maxstack
    then s.(err := s.err || newstack >= MAXSTACK, maxstack := newstack, freereg := newstack)
    else s.(freereg := newstack)
  }

  function FreeReg(s: State, reg: nat): (s': State)
    ensures Ext(s, s')
  {
    if !IsK(reg) && reg >= s.nactvar && s.freereg > 0 then s.(freereg := s.freereg - 1) else s
  }

  function FreeExp(s: State, e: Exp): (s': State)
    ensures Ext(s, s')
  {
    if e.k.VNonReloc? then FreeReg(s, e.k.info) else s
  }

  function AddConst(s: State, v: Value): (r: (State, nat))
    requires IsConstant(v)
    ensures Ext(s, r.0) && r.0 == s.(pool := r.0.pool, err := r.0.err)
  {
    var (p, i) := AddK(s.pool, v);
    (s.(pool := p, err := s.err || (|p.k| > |s.pool.k| && |s.pool.k| >= MAXARG_AX)), i)
  }

  // ----- putting values into registers -----

  /** luaK_nil. */
  function LoadNils(s: State, from: nat, n: nat): (s': State)
    requires n > 0
    ensures Ext(s, s')
  {
    var l := from + n - 1;
    if |s.code| > s.lasttarget && s.code[|s.code| - 1].LoadNil? then
      var prev := s.code[|s.code| - 1];
      var pl := prev.a + prev.b;
      if (prev.a <= from <= pl + 1) || (from <= prev.a <= l + 1) then
        var lo := if prev.a < from then prev.a else from;
        var hi := if pl > l then pl else l;
        s.(code := s.code[|s.code| - 1 := LoadNil(lo, hi - lo)])
      else Emit(s, LoadNil(from, n - 1))
    else Emit(s, LoadNil(from, n - 1))
  }

  function LoadConst(s: State, reg: nat, k: nat): (s': State)
    ensures Ext(s, s')
  {
    if k <= MAXARG_BX then Emit(s, LoadK(reg, k)) else Emit(Emit(s, LoadKX(reg)), ExtraArg(k))
  }

  function DischargeVars(e: Exp): (e': Exp)
    ensures e'.t == e.t && e'.f == e.f && !e'.k.VLocal?
    ensures !e.k.VLocal? ==> e' == e
  {
    if e.k.VLocal? then e.(k := VNonReloc(e.k.info)) else e
  }

  function Discharge2Reg(s: State, e: Exp, reg: nat): (r: (State, Exp))
    requires KindOk(s.code, e.k)
    ensures Ext(s, r.0) && r.1.t == e.t && r.1.f == e.f
    ensures if e.k.VJmp? then r.0 == s && r.1 == e else r.1.k == VNonReloc(reg)
  {
    var e1 := DischargeVars(e);
    var e' := e1.(k := VNonReloc(reg));
    match e1.k
    case VNil => (LoadNils(s, reg, 1), e')
    case VFalse => (Emit(s, LoadBool(reg, false, false)), e')
    case VTrue => (Emit(s, LoadBool(reg, true, false)), e')
    case VK(i) => (LoadConst(s, reg, i), e')
    case VKNum(n) => var (s1, i) := AddConst(s, Num(n)); (LoadConst(s1, reg, i), e')
    case VReloc(i) => (s.(code := s.code[i := s.code[i].SetA(reg)]), e')
    case VNonReloc(i) => (if reg != i then Emit(s, Move(reg, i)) else s, e')
    case VJmp(_) => (s, e1)
  }

  function Discharge2AnyReg(s: State, e: Exp): (r: (State, Exp))
    requires KindOk(s.code, e.k)
    ensures Ext(s, r.0) && r.1.t == e.t && r.1.f == e.f
  {
    if e.k.VNonReloc? then (s, e)
    else var s1 := ReserveRegs(s, 1); Discharge2Reg(s1, e, s.freereg)
  }

  function CodeLabel(s: State, a: nat, flag: bool, skip: bool): (s': State)
    ensures Ext(s, s')
  {
    Emit(GetLabel(s), LoadBool(a, flag, skip))
  }

  /** The pair of LOADBOOLs that jumps without a value go to. */
  function LoadLabels(s: State, isJump: bool, reg: nat): (r: (State, int))
    ensures Ext(s, r.0)
  {
    var (s1, fj) := if isJump then (s, []) else Jump(s);
    var s2 := CodeLabel(s1, reg, false, true);
    var s3 := CodeLabel(s2, reg, true, false);
    (PatchToHere(s3, fj), |s1.code|)
  }

  /** The rest of exp2reg: both lists get their destinations. */
  function CloseLists(s: State, e: Exp, isJump: bool, reg: nat): (s': State)
    ensures Ext(s, s')
  {
    var need := NeedValue(s.code, e.t) || NeedValue(s.code, e.f);
    var (s1, p_f) := if need then LoadLabels(s, isJump, reg) else (s, -1);
    var p_t := if need then p_f + 1 else -1;
    var s2 := GetLabel(s1);
    PatchList(PatchList(s2, e.f, |s2.code|, reg, p_f), e.t, |s2.code|, reg, p_t)
  }

  function Exp2Reg(s: State, e: Exp, reg: nat): (r: (State, Exp))
    requires KindOk(s.code, e.k)
    ensures Ext(s, r.0) && r.1 == Exp(VNonReloc(reg), [], [])
  {
    var (s1, e1) := Discharge2Reg(s, e, reg);
    var s2 := if e1.k.VJmp? then Link(s1, e1.t, [e1.k.info]) else s1;
    var e2 := if e1.k.VJmp? then e1.(t := e1.t + [e1.k.info]) else e1;
    (if HasJumps(e2) then CloseLists(s2, e2, e1.k.VJmp?, reg) else s2, Exp(VNonReloc(reg), [], []))
  }

  function Exp2NextReg(s: State, e: Exp): (r: (State, Exp))
    requires KindOk(s.code, e.k)
    ensures Ext(s, r.0) && r.1.k.VNonReloc? && !HasJumps(r.1)
  {
    var e1 := DischargeVars(e);
    var s1 := ReserveRegs(FreeExp(s, e1), 1);
    Exp2Reg(s1, e1, s1.freereg - 1)
  }

  function Exp2AnyReg(s: State, e: Exp): (r: (State, Exp))
    requires KindOk(s.code, e.k)
    ensures Ext(s, r.0) && r.1.k.VNonReloc? && !HasJumps(r.1)
  {
    var e1 := DischargeVars(e);
    if e1.k.VNonReloc? && !HasJumps(e1) then (s, e1)
    else if e1.k.VNonReloc? && e1.k.info >= s.nactvar then Exp2Reg(s, e1, e1.k.info)
    else Exp2NextReg(s, e1)
  }

  function Exp2Val(s: State, e: Exp): (r: (State, Exp))
    requires KindOk(s.code, e.k)
    ensures Ext(s, r.0) && !HasJumps(r.1) && KindOk(r.0.code, r.1.k) && !r.1.k.VLocal?
  {
    if HasJumps(e) then Exp2AnyReg(s, e) else (s, DischargeVars(e))
  }

  function ConstOf(k: Kind): (v: Value)
    requires k.VNil? || k.VTrue? || k.VFalse? || k.VKNum?
    ensures IsConstant(v)
  {
    match k
    case VNil => Nil
    case VTrue => Bool(true)
    case VFalse => Bool(false)
    case VKNum(n) => Num(n)
  }

  /** A descriptor that is ready to be an operand: an RK constant or a register. */
  predicate IsOperand(e: Exp) {
    !HasJumps(e) && ((e.k.VK? && e.k.info <= MAXINDEXRK) || e.k.VNonReloc?)
  }

  /** The operand a ready descriptor stands for. */
  function OperandOf(e: Exp): nat
    requires e.k.VK? || e.k.VNonReloc?
  {
    if e.k.VK? then RkAsK(e.k.info) else e.k.info
  }

  /** luaK_exp2RK: the descriptor becomes a constant or a register, and its operand is returned. */
  function Exp2RK(s: State, e: Exp): (r: (State, Exp, nat))
    requires KindOk(s.code, e.k)
    ensures Ext(s, r.0) && IsOperand(r.1) && r.2 == OperandOf(r.1)
  {
    var (s1, e1) := Exp2Val(s, e);
    ValueRK(s1, e1)
  }

  /** A literal or numeral becomes an entry of the constant table, if it may be an operand there. */
  function AsConstant(s: State, e: Exp): (r: (State, Exp))
    ensures Ext(s, r.0) && r.0 == s.(pool := r.0.pool, err := r.0.err)
    ensures r.1.t == e.t && r.1.f == e.f && (r.1.k == e.k || r.1.k.VK?)
    ensures e.k.VK? ==> r == (s, e)
  {
    if e.k.VKNum? || ((e.k.VNil? || e.k.VTrue? || e.k.VFalse?) && |s.pool.k| <= MAXINDEXRK) then
      var (s1, i) := AddConst(s, ConstOf(e.k));
      (s1, e.(k := VK(i)))
    else (s, e)
  }

  /** luaK_exp2RK once pending jumps are out of the way. */
  function ValueRK(s: State, e: Exp): (r: (State, Exp, nat))
    requires KindOk(s.code, e.k) && !HasJumps(e)
    ensures Ext(s, r.0) && IsOperand(r.1) && r.2 == OperandOf(r.1)
  {
    var (s1, e1) := AsConstant(s, e);
    if e1.k.VK? && e1.k.info <= MAXINDEXRK then (s1, e1, RkAsK(e1.k.info)) else InReg(s1, e1)
  }

  function InReg(s: State, e: Exp): (r: (State, Exp, nat))
    requires KindOk(s.code, e.k)
    ensures Ext(s, r.0) && r.1.k.VNonReloc? && !HasJumps(r.1) && r.2 == OperandOf(r.1)
  {
    var (s1, e1) := Exp2AnyReg(s, e);
    (s1, e1, e1.k.info)
  }

  // ----- control flow -----

  function InvertJump(s: State, j: nat): (s': State)
    requires KindOk(s.code, VJmp(j))
    ensures Ext(s, s') && |s'.code| == |s.code|
  {
    s.(code := s.code[j - 1 := s.code[j - 1].(cond := !s.code[j - 1].cond)])
  }

  /** jumponcond: a jump taken when `e` is `cond`; a just emitted NOT is removed again. */
  function JumpOnCond(s: State, e: Exp, cond: bool): (r: (State, Exp, seq<nat>))
    requires KindOk(s.code, e.k) && !e.k.VJmp? && !e.k.VLocal?
    ensures Ext(s, r.0) && r.1.t == e.t && r.1.f == e.f
  {
    if e.k.VReloc? && s.code[e.k.info].Not? then
      var (s1, js) := CondJump(s.(code := s.code[..|s.code| - 1]), Test(s.code[e.k.info].b, !cond));
      (s1, e, js)
    else
      var (s1, e1) := Discharge2AnyReg(s, e);
      var (s2, js) := CondJump(FreeExp(s1, e1), TestSet(NO_REG, e1.k.info, cond));
      (s2, e1, js)
  }

  predicate AlwaysTrue(k: Kind) { k.VK? || k.VKNum? || k.VTrue? }
  predicate AlwaysFalse(k: Kind) { k.VNil? || k.VFalse? }

  /** The jump goiftrue needs: taken when `e` is false; none if `e` is a true constant. */
  function LeaveIfFalse(s: State, e: Exp): (r: (State, Exp, seq<nat>))
    requires KindOk(s.code, e.k) && !e.k.VLocal?
    ensures Ext(s, r.0) && r.1.t == e.t && r.1.f == e.f
  {
    if e.k.VJmp? then (InvertJump(s, e.k.info), e, [e.k.info])
    else if AlwaysTrue(e.k) then (s, e, [])
    else JumpOnCond(s, e, false)
  }

  function GoIfTrue(s: State, e: Exp): (r: (State, Exp))
    requires KindOk(s.code, e.k)
    ensures Ext(s, r.0) && r.1.t == []
  {
    var (s1, e1, js) := LeaveIfFalse(s, DischargeVars(e));
    (PatchToHere(Link(s1, e.f, js), e.t), Exp(e1.k, [], e.f + js))
  }

  /** The jump goiffalse needs. */
  function LeaveIfTrue(s: State, e: Exp): (r: (State, Exp, seq<nat>))
    requires KindOk(s.code, e.k) && !e.k.VLocal?
    ensures Ext(s, r.0) && r.1.t == e.t && r.1.f == e.f
  {
    if e.k.VJmp? then (s, e, [e.k.info])
    else if AlwaysFalse(e.k) then (s, e, [])
    else JumpOnCond(s, e, true)
  }

  function GoIfFalse(s: State, e: Exp): (r: (State, Exp))
    requires KindOk(s.code, e.k)
    ensures Ext(s, r.0) && r.1.f == []
  {
    var (s1, e1, js) := LeaveIfTrue(s, DischargeVars(e));
    (PatchToHere(Link(s1, e.t, js), e.f), Exp(e1.k, e.t + js, []))
  }

  /** The first half of codenot: the value itself. */
  function NotValue(s: State, e: Exp): (r: (State, Exp))
    requires KindOk(s.code, e.k)
    ensures Ext(s, r.0) && KindOk(r.0.code, r.1.k) && r.1.t == e.t && r.1.f == e.f
  {
    var e0 := DischargeVars(e);
    if AlwaysFalse(e0.k) then (s, e0.(k := VTrue))
    else if AlwaysTrue(e0.k) then (s, e0.(k := VFalse))
    else if e0.k.VJmp? then (InvertJump(s, e0.k.info), e0)
    else NotInReg(s, e0)
  }

  function NotInReg(s: State, e: Exp): (r: (State, Exp))
    requires KindOk(s.code, e.k) && (e.k.VReloc? || e.k.VNonReloc?)
    ensures Ext(s, r.0) && KindOk(r.0.code, r.1.k) && r.1.t == e.t && r.1.f == e.f
  {
    var (s1, e1) := Discharge2AnyReg(s, e);
    var s2 := FreeExp(s1, e1);
    (Emit(s2, Not(0, e1.k.info)), e1.(k := VReloc(|s2.code|)))
  }

  function CodeNot(s: State, e: Exp): (r: (State, Exp))
    requires KindOk(s.code, e.k)
    ensures Ext(s, r.0) && KindOk(r.0.code, r.1.k)
  {
    var (s1, e1) := NotValue(s, e);
    (s1.(code := RemoveValues(RemoveValues(s1.code, e1.t), e1.f)), Exp(e1.k, e1.f, e1.t))
  }

  // ----- operators -----

  datatype UnOp = OpNeg | OpNot | OpLen
  datatype BinOp = OpArith(a: ArithOp) | OpCmp(c: CmpOp, cond: bool) | OpConcat | OpAnd | OpOr

  predicate Folds(op: ArithOp, e1: Exp, e2: Exp) {
    IsNumeral(e1) && IsNumeral(e2) && !((op.Div? || op.Mod?) && IsZero(e2.k.nval))
  }

  /** Frees two operands, the one in the higher register first. */
  function FreeExps(s: State, e1: Exp, o1: nat, e2: Exp, o2: nat): (s': State)
    ensures Ext(s, s') && s'.code == s.code
  {
    if o1 > o2 then FreeExp(FreeExp(s, e1), e2) else FreeExp(FreeExp(s, e2), e1)
  }

  function CodeArith(P: Prims, s: State, op: ArithOp, e1: Exp, e2: Exp): (r: (State, Exp))
    requires KindOk(s.code, e2.k) && (IsOperand(e1) || IsNumeral(e1))
    ensures Ext(s, r.0) && KindOk(r.0.code, r.1.k)
  {
    if Folds(op, e1, e2) then (s, e1.(k := VKNum(P.fold(op, e1.k.nval, e2.k.nval))))
    else
      var (s1, e2', o2) := Exp2RK(s, e2);
      var (s2, e1', o1) := Exp2RK(s1, e1);
      var s3 := FreeExps(s2, e1', o1, e2', o2);
      (Emit(s3, Arith(op, 0, o1, o2)), e1'.(k := VReloc(|s3.code|)))
  }

  /** luaK_prefix on the operators `-` and `#`. */
  function CodeUnary(s: State, len: bool, e: Exp): (r: (State, Exp))
    requires KindOk(s.code, e.k)
    ensures Ext(s, r.0) && KindOk(r.0.code, r.1.k)
  {
    var (s1, e1) := Exp2AnyReg(s, e);
    var (s2, e2, o1) := Exp2RK(s1, e1);
    var s3 := FreeExp(s2, e2);
    (Emit(s3, if len then Len(0, o1) else Unm(0, o1)), e2.(k := VReloc(|s3.code|)))
  }

  function CodeComp(s: State, op: CmpOp, cond: bool, e1: Exp, e2: Exp): (r: (State, Exp))
    requires KindOk(s.code, e2.k) && IsOperand(e1)
    ensures Ext(s, r.0) && KindOk(r.0.code, r.1.k)
  {
    var (s1, e1', o1) := Exp2RK(s, e1);
    var (s2, e2', o2) := Exp2RK(s1, e2);
    EmitComp(s2, op, cond, e1', o1, e2', o2)
  }

  /** The operands are freed, and exchanged when the test must accept `>` or `>=`. */
  function EmitComp(s: State, op: CmpOp, cond: bool, e1: Exp, o1: nat, e2: Exp, o2: nat): (r: (State, Exp))
    ensures Ext(s, r.0) && KindOk(r.0.code, r.1.k)
  {
    var s1 := FreeExp(FreeExp(s, e2), e1);
    var (s2, js) := CondJump(s1, CompInstr(op, cond, o1, o2));
    (s2, e1.(k := VJmp(js[0])))
  }

  /** luaK_posfix on `..`: when the right operand is itself a concatenation that is waiting for its
      register, that instruction takes one more operand. */
  function CodeConcat(s: State, e1: Exp, e2: Exp): (r: (State, Exp))
    requires KindOk(s.code, e2.k) && IsOperand(e1) && e1.k.VNonReloc?
    ensures Ext(s, r.0) && KindOk(r.0.code, r.1.k)
  {
    var (s1, e2') := Exp2Val(s, e2);
    if e2'.k.VReloc? && s1.code[e2'.k.info].Concat? then
      (WidenConcat(FreeExp(s1, e1), e2'.k.info, e1.k.info), e1.(k := VReloc(e2'.k.info)))
    else
      var (s2, e3) := Exp2NextReg(s1, e2');
      var s3 := FreeExps(s2, e1, e1.k.info, e3, e3.k.info);
      (Emit(s3, Concat(0, e1.k.info, e3.k.info)), e1.(k := VReloc(|s3.code|)))
  }

  function WidenConcat(s: State, i: nat, b: nat): (s': State)
    requires i < |s.code| && s.code[i].Concat?
    ensures Ext(s, s') && s' == s.(code := s'.code) && |s'.code| == |s.code|
  {
    s.(code := s.code[i := Concat(s.code[i].a, b, s.code[i].c)])
  }

  function CompInstr(op: CmpOp, cond: bool, o1: nat, o2: nat): Instr {
    if !cond && op != Eq then Cmp(op, true, o2, o1) else Cmp(op, cond, o1, o2)
  }

  function Prefix(P: Prims, s: State, op: UnOp, e: Exp): (r: (State, Exp))
    requires KindOk(s.code, e.k)
    ensures Ext(s, r.0) && KindOk(r.0.code, r.1.k)
  {
    match op
    case OpNeg => if IsNumeral(e) then (s, e.(k := VKNum(P.neg(e.k.nval)))) else CodeUnary(s, false, e)
    case OpNot => CodeNot(s, e)
    case OpLen => CodeUnary(s, true, e)
  }

  /** What luaK_infix leaves of the left operand while the right one is compiled. */
  predicate OperandKept(op: BinOp, e: Exp) {
    match op
    case OpAnd => e.t == []
    case OpOr => e.f == []
    case OpArith(_) => IsOperand(e) || IsNumeral(e)
    case OpCmp(_, _) => IsOperand(e)
    case OpConcat => IsOperand(e) && e.k.VNonReloc?
  }

  function Infix(s: State, op: BinOp, e: Exp): (r: (State, Exp))
    requires KindOk(s.code, e.k)
    ensures Ext(s, r.0)
    ensures OperandKept(op, r.1)
  {
    match op
    case OpAnd => GoIfTrue(s, e)
    case OpOr => GoIfFalse(s, e)
    case OpArith(_) => if IsNumeral(e) then (s, e) else var (s1, e1, _) := Exp2RK(s, e); (s1, e1)
    case OpCmp(_, _) => var (s1, e1, _) := Exp2RK(s, e); (s1, e1)
    case OpConcat => Exp2NextReg(s, e)
  }

  function Posfix(P: Prims, s: State, op: BinOp, e1: Exp, e2: Exp): (r: (State, Exp))
    requires KindOk(s.code, e2.k)
    requires OperandKept(op, e1)
    ensures Ext(s, r.0) && KindOk(r.0.code, r.1.k)
  {
    match op
    case OpAnd => var e := DischargeVars(e2); (Link(s, e.f, e1.f), e.(f := e.f + e1.f))
    case OpOr => var e := DischargeVars(e2); (Link(s, e.t, e1.t), e.(t := e.t + e1.t))
    case OpArith(a) => CodeArith(P, s, a, e1, e2)
    case OpCmp(c, cond) => CodeComp(s, c, cond, e1, e2)
    case OpConcat => CodeConcat(s, e1, e2)
  }
}
