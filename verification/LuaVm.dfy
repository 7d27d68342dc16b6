/** Values, instructions and the part of the Lua 5.2 virtual machine that runs code
    emitted for expressions. */
module LuaValues {
  type Byte = x: int | 0 <= x < 0x100

  /** An IEEE-754 double, as its 64-bit pattern. */
  type Number = x: int | 0 <= x < 0x1_0000_0000_0000_0000

  /** `Obj` stands for every value the code generator never creates itself. */
  datatype Value = Nil | Bool(b: bool) | Num(n: Number) | Str(s: seq<Byte>) | Obj(id: nat)

  predicate Truthy(v: Value) { v != Nil && v != Bool(false) }

  datatype ArithOp = Add | Sub | Mul | Div | Mod | Pow
  datatype CmpOp = Eq | Lt | Le

  /** What the model leaves to the runtime: comparison, arithmetic and concatenation of two
      arbitrary values (metamethods included), what concatenation leaves in the registers it
      works on, and the compile-time arithmetic on numerals. */
  datatype Prims = Prims(
    eq: (Value, Value) -> bool, lt: (Value, Value) -> bool, le: (Value, Value) -> bool,
    arith: (ArithOp, Value, Value) -> Value, unm: Value -> Value, len: Value -> Value,
    concat: (Value, Value) -> Value, scratch: seq<Value> -> seq<Value>,
    fold: (ArithOp, Number, Number) -> Number, neg: Number -> Number)
  {
    /** Folding at compile time computes what the virtual machine would compute. */
    ghost predicate FoldsFaithfully() {
      && (forall op, x, y :: arith(op, Num(x), Num(y)) == Num(fold(op, x, y)))
      && (forall x :: unm(Num(x)) == Num(neg(x)))
    }

    predicate Compare(op: CmpOp, x: Value, y: Value) {
      match op
      case Eq => eq(x, y)
      case Lt => lt(x, y)
      case Le => le(x, y)
    }
  }
}

module LuaOpcodes {
  import opened LuaValues

  const NO_JUMP: int := -1
  const NO_REG: nat := 255
  const MAXARG_SBX: nat := 131071
  /** In the code of the model, an offset no instruction can have marks a jump that is still on
      some list. */
  const OPEN: int := -131072
  const MAXARG_BX: nat := 262143
  const MAXARG_AX: nat := 67108863
  const BITRK: nat := 256
  const MAXINDEXRK: nat := 255
  const MAXSTACK: nat := 250
  const MAX_INT: nat := 2147483645

  datatype Instr =
    | Move(a: nat, b: nat)
    | LoadK(a: nat, bx: nat)
    | LoadKX(a: nat)
    | ExtraArg(ax: nat)
    | LoadBool(a: nat, flag: bool, skip: bool)
    | LoadNil(a: nat, b: nat)
    | Not(a: nat, b: nat)
    | Unm(a: nat, b: nat)
    | Len(a: nat, b: nat)
    | Arith(op: ArithOp, a: nat, b: nat, c: nat)
    | Concat(a: nat, b: nat, c: nat)
    | Jmp(sbx: int)
    | Cmp(cop: CmpOp, cond: bool, b: nat, c: nat)
    | Test(a: nat, when: bool)
    | TestSet(a: nat, b: nat, when: bool)
    | Return(a: nat, b: nat)
  {
    /** testTMode: the instruction is a test, so the next one must be its jump. */
    predicate IsTest() { Cmp? || Test? || TestSet? }

    /** The operators whose result register is fixed after they are emitted. */
    predicate Relocatable() { Not? || Unm? || Len? || Arith? || Concat? }

    function SetA(r: nat): Instr
      requires Relocatable()
    {
      match this
      case Not(_, b) => Not(r, b)
      case Unm(_, b) => Unm(r, b)
      case Len(_, b) => Len(r, b)
      case Arith(op, _, b, c) => Arith(op, r, b, c)
      case Concat(_, b, c) => Concat(r, b, c)
    }
  }

  predicate IsK(rk: nat) { rk >= BITRK }
  function RkAsK(k: nat): nat { k + BITRK }
}

module LuaVm {
  import opened Wrappers
  import opened LuaValues
  import opened LuaOpcodes

  type Regs = seq<Value>

  /** The fixed surroundings of a run: runtime primitives and the constant table. */
  datatype Env = Env(P: Prims, K: seq<Value>)

  datatype Step = Next(pc: nat, regs: Regs) | Again(pc: nat, regs: Regs) | Leave(node: nat,
      regs: Regs) | Done(vs: seq<Value>) | Wrong

  /** How a forward run over a piece of code ends: by running off its end, by taking a jump that
      is still waiting for its destination, by jumping back, by returning values, or by a fault (a
      register outside the frame, a missing constant). */
  datatype Outcome = Fall(regs: Regs) | Exit(node: nat, regs: Regs) | Back(pc: nat,
      regs: Regs) | Returned(vs: seq<Value>) | Stuck

  function Reg(rg: Regs, r: nat): Option<Value> {
    if r < |rg| then Some(rg[r]) else None
  }

  function Rk(env: Env, rg: Regs, rk: nat): Option<Value> {
    if IsK(rk) then (if rk - BITRK < |env.K| then Some(env.K[rk - BITRK]) else None) else Reg(rg, rk)
  }

  function SetReg(rg: Regs, r: nat, v: Value): (rg': Regs)
    ensures |rg'| == |rg|
  {
    if r < |rg| then rg[r := v] else rg
  }

  /** Concatenation is right associative. */
  function ConcatVal(P: Prims, vs: seq<Value>): Value
    requires vs != []
  {
    if |vs| == 1 then vs[0] else P.concat(vs[0], ConcatVal(P, vs[1..]))
  }

  /** The registers once an operator has computed its value: OP_CONCAT works in place on the
      registers of its operands. */
  function Scratch(P: Prims, i: Instr, rg: Regs): (rg': Regs)
    ensures |rg'| == |rg|
    ensures !i.Concat? ==> rg' == rg
    ensures i.Concat? ==> forall r :: 0 <= r < i.b && r < |rg| ==> rg'[r] == rg[r]
  {
    if i.Concat? && i.b <= i.c < |rg| && |P.scratch(rg[i.b..i.c + 1])| == i.c + 1 - i.b
    then rg[..i.b] + P.scratch(rg[i.b..i.c + 1]) + rg[i.c + 1..] else rg
  }

  /** The value a register-writing operator computes. */
  function Rhs(env: Env, i: Instr, rg: Regs): Option<Value> {
    match i
    case Move(_, b) => Reg(rg, b)
    case LoadK(_, bx) => if bx < |env.K| then Some(env.K[bx]) else None
    case LoadBool(_, flag, _) => Some(Bool(flag))
    case Not(_, b) => (match Reg(rg, b) case Some(v) => Some(Bool(!Truthy(v))) case None => None)
    case Unm(_, b) => (match Reg(rg, b) case Some(v) => Some(env.P.unm(v)) case None => None)
    case Len(_, b) => (match Reg(rg, b) case Some(v) => Some(env.P.len(v)) case None => None)
    case Arith(op, _, b, c) =>
      (match (Rk(env, rg, b), Rk(env, rg, c))
       case (Some(x), Some(y)) => Some(env.P.arith(op, x, y))
       case _ => None)
    case Concat(_, b, c) => if b <= c < |rg| then Some(ConcatVal(env.P, rg[b..c + 1])) else None
    case _ => None
  }

  /** `rg` with the `n` registers from `a` set to nil. */
  function Nils(rg: Regs, a: nat, n: nat): (rg': Regs)
    requires a + n <= |rg|
    ensures |rg'| == |rg|
  {
    rg[..a] + seq(n, _ => Nil) + rg[a + n..]
  }

  /** The jump at `j`, taken; a jump still on a list leaves the code. */
  function Goto(code: seq<Instr>, j: nat, rg: Regs): Step
    requires j < |code| && code[j].Jmp?
  {
    var s := code[j].sbx;
    if s == OPEN then Leave(j, rg)
    else if s >= 0 then Next(j + 1 + s, rg)
    else if j + 1 + s >= 0 then Again(j + 1 + s, rg) else Wrong
  }

  /** One instruction; a test runs together with the jump that follows it. */
  function StepAt(env: Env, code: seq<Instr>, pc: nat, rg: Regs): Step
    requires pc < |code|
  {
    var hasJump := pc + 1 < |code| && code[pc + 1].Jmp?;
    match code[pc]
    case LoadNil(a, b) => if a + b < |rg| then Next(pc + 1, Nils(rg, a, b + 1)) else Wrong
    case LoadKX(a) =>
      if pc + 1 < |code| && code[pc + 1].ExtraArg? && code[pc + 1].ax < |env.K| && a < |rg|
      then Next(pc + 2, rg[a := env.K[code[pc + 1].ax]]) else Wrong
    case LoadBool(a, flag, skip) =>
      if a < |rg| then Next(if skip then pc + 2 else pc + 1, rg[a := Bool(flag)]) else Wrong
    case Jmp(_) => Goto(code, pc, rg)
    case Cmp(op, cond, b, c) =>
      (match (Rk(env, rg, b), Rk(env, rg, c))
       case (Some(x), Some(y)) =>
         if !hasJump then Wrong
         else if env.P.Compare(op, x, y) == cond then Goto(code, pc + 1, rg)
         else Next(pc + 2, rg)
       case _ => Wrong)
    case Test(a, when) =>
      if !hasJump || a >= |rg| then Wrong
      else if Truthy(rg[a]) == when then Goto(code, pc + 1, rg)
      else Next(pc + 2, rg)
    case TestSet(a, b, when) =>
      if !hasJump || b >= |rg| then Wrong
      else if Truthy(rg[b]) != when then Next(pc + 2, rg)
      else if code[pc + 1].sbx == OPEN then Leave(pc + 1, rg)
      else if a < |rg| then Goto(code, pc + 1, rg[a := rg[b]])
      else Wrong
    case Return(a, b) => if b >= 1 && a + b - 1 <= |rg| then Done(rg[a..a + b - 1]) else Wrong
    case ExtraArg(_) => Wrong
    case _ =>
      (match Rhs(env, code[pc], rg)
       case Some(v) => if code[pc].a < |rg| then Next(pc + 1, Scratch(env.P, code[pc], rg)[code[pc].a := v]) else Wrong
       case None => Wrong)
  }

  /** Runs `code` from `pc`, up to the first jump back, if any. */
  function Exec(env: Env, code: seq<Instr>, pc: nat, rg: Regs): (o: Outcome)
    ensures o.Fall? || o.Exit? || o.Back? ==> |o.regs| == |rg|
    ensures o.Exit? ==> o.node < |code| && code[o.node] == Jmp(OPEN)
    decreases |code| - pc
  {
    if pc > |code| then Stuck
    else if pc == |code| then Fall(rg)
    else match StepAt(env, code, pc, rg)
      case Next(pc', rg') => if pc < pc' && |rg'| == |rg| then Exec(env, code, pc', rg') else Stuck
      case Leave(j, rg') => if |rg'| == |rg| then Exit(j, rg') else Stuck
      case Again(t, rg') => if |rg'| == |rg| then Back(t, rg') else Stuck
      case Done(vs) => Returned(vs)
      case Wrong => Stuck
  }
}
