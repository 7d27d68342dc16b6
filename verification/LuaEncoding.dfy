/** Instructions as 32-bit words: the widths of their fields, and the packing. */
module LuaEncoding {
  import opened Wrappers
  import opened LuaValues
  import opened LuaOpcodes

  /** A register of a frame; a register, or a constant with its index in eight bits. */
  predicate IsReg(r: nat) { r < 250 }
  predicate IsRk(rk: nat) { rk < 250 || 256 <= rk < 512 }

  /** The operands of an instruction are what the source's comments on its opcode say, and they fit
      their fields. */
  predicate Encodable(i: Instr) {
    match i
    case Move(a, b) => IsReg(a) && IsReg(b)
    case LoadK(a, bx) => IsReg(a) && bx < 262144
    case LoadKX(a) => IsReg(a)
    case ExtraArg(ax) => ax < 67108864
    case LoadBool(a, _, _) => IsReg(a)
    case LoadNil(a, b) => IsReg(a + b)
    case Not(a, b) => IsReg(a) && IsReg(b)
    case Unm(a, b) => IsReg(a) && IsReg(b)
    case Len(a, b) => IsReg(a) && IsReg(b)
    case Arith(_, a, b, c) => IsReg(a) && IsRk(b) && IsRk(c)
    case Concat(a, b, c) => IsReg(a) && IsReg(b) && IsReg(c)
    case Jmp(s) => -131071 <= s <= 131071
    case Cmp(_, _, b, c) => IsRk(b) && IsRk(c)
    case Test(a, _) => IsReg(a)
    case TestSet(a, b, _) => (IsReg(a) || a == 255) && IsReg(b)
    case Return(a, b) => b >= 1 && a + b <= 251
  }

  /** Every instruction fits, apart from jumps that are still on some list. */
  predicate AllFit(code: seq<Instr>) {
    forall i :: 0 <= i < |code| ==> code[i] == Jmp(OPEN) || Encodable(code[i])
  }

  // ----- words -----

  function Flag(b: bool): nat { if b then 1 else 0 }

  function ArithCode(op: ArithOp): nat {
    match op
    case Add => 13
    case Sub => 14
    case Mul => 15
    case Div => 16
    case Mod => 17
    case Pow => 18
  }

  function CmpCode(op: CmpOp): nat {
    match op
    case Eq => 24
    case Lt => 25
    case Le => 26
  }

  /** CREATE_ABC, CREATE_ABx and CREATE_Ax: 6 bits of opcode, 8 of A, 9 of C, 9 of B. */
  function WordABC(op: nat, a: nat, b: nat, c: nat): nat { op + 64 * a + 16384 * c + 8388608 * b }
  function WordABx(op: nat, a: nat, bx: nat): nat { op + 64 * a + 16384 * bx }
  function WordAx(op: nat, ax: nat): nat { op + 64 * ax }

  function Pack(i: Instr): nat
    requires Encodable(i)
  {
    match i
    case Move(a, b) => WordABC(0, a, b, 0)
    case LoadK(a, bx) => WordABx(1, a, bx)
    case LoadKX(a) => WordABx(2, a, 0)
    case ExtraArg(ax) => WordAx(39, ax)
    case LoadBool(a, flag, skip) => WordABC(3, a, Flag(flag), Flag(skip))
    case LoadNil(a, b) => WordABC(4, a, b, 0)
    case Not(a, b) => WordABC(20, a, b, 0)
    case Unm(a, b) => WordABC(19, a, b, 0)
    case Len(a, b) => WordABC(21, a, b, 0)
    case Arith(op, a, b, c) => WordABC(ArithCode(op), a, b, c)
    case Concat(a, b, c) => WordABC(22, a, b, c)
    case Jmp(s) => WordABx(23, 0, s + 131071)
    case Cmp(op, cond, b, c) => WordABC(CmpCode(op), Flag(cond), b, c)
    case Test(a, when) => WordABC(27, a, 0, Flag(when))
    case TestSet(a, b, when) => WordABC(28, a, b, Flag(when))
    case Return(a, b) => WordABC(31, a, b, 0)
  }

  function FieldOp(w: nat): nat { w % 64 }
  function FieldA(w: nat): nat { w / 64 % 256 }
  function FieldC(w: nat): nat { w / 16384 % 512 }
  function FieldB(w: nat): nat { w / 8388608 % 512 }
  function FieldBx(w: nat): nat { w / 16384 }
  function FieldAx(w: nat): nat { w / 64 }

  /** The instruction a word stands for, as the virtual machine reads it. */
  function Unpack(w: nat): Option<Instr> {
    var op, a, b, c, bx := FieldOp(w), FieldA(w), FieldB(w), FieldC(w), FieldBx(w);
    if op == 0 then Some(Move(a, b))
    else if op == 1 then Some(LoadK(a, bx))
    else if op == 2 then Some(LoadKX(a))
    else if op == 3 then Some(LoadBool(a, b != 0, c != 0))
    else if op == 4 then Some(LoadNil(a, b))
    else if op == 13 then Some(Arith(Add, a, b, c))
    else if op == 14 then Some(Arith(Sub, a, b, c))
    else if op == 15 then Some(Arith(Mul, a, b, c))
    else if op == 16 then Some(Arith(Div, a, b, c))
    else if op == 17 then Some(Arith(Mod, a, b, c))
    else if op == 18 then Some(Arith(Pow, a, b, c))
    else if op == 19 then Some(Unm(a, b))
    else if op == 20 then Some(Not(a, b))
    else if op == 21 then Some(Len(a, b))
    else if op == 22 then Some(Concat(a, b, c))
    else if op == 23 then Some(Jmp(bx - 131071))
    else if op == 24 then Some(Cmp(Eq, a != 0, b, c))
    else if op == 25 then Some(Cmp(Lt, a != 0, b, c))
    else if op == 26 then Some(Cmp(Le, a != 0, b, c))
    else if op == 27 then Some(Test(a, c != 0))
    else if op == 28 then Some(TestSet(a, b, c != 0))
    else if op == 31 then Some(Return(a, b))
    else if op == 39 then Some(ExtraArg(FieldAx(w)))
    else None
  }

  lemma FieldsABC(op: nat, a: nat, b: nat, c: nat)
    requires op < 64 && a < 256 && b < 512 && c < 512
    ensures
      var w := WordABC(op, a, b, c);
      w < 0x1_0000_0000 && FieldOp(w) == op && FieldA(w) == a && FieldB(w) == b && FieldC(w) == c
  {
    var w := WordABC(op, a, b, c);
    assert w / 64 == a + 256 * c + 131072 * b;
    assert w / 16384 == c + 512 * b;
    assert w / 8388608 == b;
  }

  lemma FieldsABx(op: nat, a: nat, bx: nat)
    requires op < 64 && a < 256 && bx < 262144
    ensures
      var w := WordABx(op, a, bx);
      w < 0x1_0000_0000 && FieldOp(w) == op && FieldA(w) == a && FieldBx(w) == bx
  {
    var w := WordABx(op, a, bx);
    assert w / 64 == a + 256 * bx;
    assert w / 16384 == bx;
  }

  lemma FieldsAx(op: nat, ax: nat)
    requires op < 64 && ax < 67108864
    ensures var w := WordAx(op, ax); w < 0x1_0000_0000 && FieldOp(w) == op && FieldAx(w) == ax
  {}

  lemma PackedArith(op: ArithOp, a: nat, b: nat, c: nat)
    requires Encodable(Arith(op, a, b, c))
    ensures Pack(Arith(op, a, b, c)) < 0x1_0000_0000 && Unpack(Pack(Arith(op, a, b, c))) == Some(Arith(op, a, b, c))
  {
    hide WordABC, FieldOp, FieldA, FieldB, FieldC, FieldBx, FieldAx;
    FieldsABC(ArithCode(op), a, b, c);
  }

  lemma PackedCmp(op: CmpOp, cond: bool, b: nat, c: nat)
    requires Encodable(Cmp(op, cond, b, c))
    ensures Pack(Cmp(op, cond, b, c)) < 0x1_0000_0000 && Unpack(Pack(Cmp(op, cond, b, c))) == Some(Cmp(op, cond, b, c))
  {
    hide WordABC, FieldOp, FieldA, FieldB, FieldC, FieldBx, FieldAx;
    FieldsABC(CmpCode(op), Flag(cond), b, c);
  }

  /** The other instructions with two or three operands. */
  lemma PackedABC(i: Instr)
    requires Encodable(i) && (i.Move? || i.LoadNil? || i.Not? || i.Unm? || i.Len? || i.Concat? || i.Return?)
    ensures Pack(i) < 0x1_0000_0000 && Unpack(Pack(i)) == Some(i)
  {
    hide WordABC, FieldOp, FieldA, FieldB, FieldC, FieldBx, FieldAx;
    match i
    case Move(a, b) => FieldsABC(0, a, b, 0);
    case LoadNil(a, b) => FieldsABC(4, a, b, 0);
    case Not(a, b) => FieldsABC(20, a, b, 0);
    case Unm(a, b) => FieldsABC(19, a, b, 0);
    case Len(a, b) => FieldsABC(21, a, b, 0);
    case Concat(a, b, c) => FieldsABC(22, a, b, c);
    case Return(a, b) => FieldsABC(31, a, b, 0);
    case _ =>
  }

  /** An instruction that fits is one 32-bit word, and the word gives the instruction back. */
  lemma PackedBack(i: Instr)
    requires Encodable(i)
    ensures Pack(i) < 0x1_0000_0000 && Unpack(Pack(i)) == Some(i)
  {
    hide WordABC, WordABx, WordAx, FieldOp, FieldA, FieldB, FieldC, FieldBx, FieldAx;
    match i
    case LoadK(a, bx) => FieldsABx(1, a, bx);
    case LoadKX(a) => FieldsABx(2, a, 0);
    case ExtraArg(ax) => FieldsAx(39, ax);
    case LoadBool(a, flag, skip) => FieldsABC(3, a, Flag(flag), Flag(skip));
    case Jmp(s) => FieldsABx(23, 0, s + 131071);
    case Test(a, when) => FieldsABC(27, a, 0, Flag(when));
    case TestSet(a, b, when) => FieldsABC(28, a, b, Flag(when));
    case Arith(op, a, b, c) => PackedArith(op, a, b, c);
    case Cmp(op, cond, b, c) => PackedCmp(op, cond, b, c);
    case _ => PackedABC(i);
  }
}
