/** Code with jumps still waiting for a destination: what appending instructions and
    patching jump lists does to its runs. */
module LuaPatch {
  import opened LuaOpcodes
  import opened LuaVm

  predicate Distinct(nodes: seq<nat>) {
    forall i, j :: 0 <= i < j < |nodes| ==> nodes[i] != nodes[j]
  }

  predicate Disjoint(xs: seq<nat>, ys: seq<nat>) {
    forall x :: x in xs ==> x !in ys
  }

  /** Every node is an emitted jump whose destination is not known yet. */
  predicate Pending(code: seq<Instr>, nodes: seq<nat>) {
    forall j :: j in nodes ==> j < |code| && code[j] == Jmp(OPEN)
  }

  /** `q` is a place where control may arrive: never between a test and its jump. */
  predicate Entry(code: seq<Instr>, q: nat) {
    q <= |code| && (q > 0 ==> !code[q - 1].IsTest())
  }

  /** No landing place of instruction `i` lies beyond `target`, and a test is followed by its jump. */
  predicate InstrOk(code: seq<Instr>, target: nat, i: nat)
    requires i < |code|
  {
    match code[i]
    case Jmp(s) => s >= 0 ==> i + 1 + s <= target && Entry(code, i + 1 + s)
    case LoadBool(_, _, skip) => skip ==> i + 2 <= target && Entry(code, i + 2)
    case LoadKX(_) => i + 1 < |code| && code[i + 1].ExtraArg?
    case Cmp(_, _, _, _) => i + 1 < |code| && code[i + 1].Jmp?
    case Test(_, _) => i + 1 < |code| && code[i + 1].Jmp?
    case TestSet(_, _, _) => i + 1 < |code| && code[i + 1].Jmp?
    case _ => true
  }

  predicate CodeOk(code: seq<Instr>, target: nat) {
    target <= |code| && forall i :: 0 <= i < |code| ==> InstrOk(code, target, i)
  }

  /** The jump at `j` carries a value: it is controlled by a TESTSET. */
  predicate Carries(code: seq<Instr>, j: nat) {
    1 <= j <= |code| && code[j - 1].TestSet?
  }

  /** A patched TESTSET: it stores into `reg`, or becomes a TEST when there is no register to
      fill or the register already holds the value. */
  function PatchTest(i: Instr, reg: nat): Instr
    requires i.TestSet?
  {
    if reg != NO_REG && reg != i.b then TestSet(reg, i.b, i.when) else Test(i.b, i.when)
  }

  function PatchAt(code: seq<Instr>, nodes: seq<nat>, vtarget: int, reg: nat, dtarget: int, i: nat): Instr
    requires i < |code|
  {
    if i in nodes then Jmp((if Carries(code, i) then vtarget else dtarget) - (i + 1))
    else if i + 1 in nodes && code[i].TestSet? then PatchTest(code[i], reg)
    else code[i]
  }

  /** Sends the jumps in `nodes` that carry a value to `vtarget`, the others to `dtarget`. */
  function Patch(code: seq<Instr>, nodes: seq<nat>, vtarget: int, reg: nat, dtarget: int): (r: seq<Instr>)
    ensures |r| == |code|
    ensures forall i :: 0 <= i < |code| ==> r[i] == PatchAt(code, nodes, vtarget, reg, dtarget, i)
  {
    seq(|code|, i requires 0 <= i < |code| => PatchAt(code, nodes, vtarget, reg, dtarget, i))
  }

  /** Where a patched jump lands. */
  predicate TargetsAhead(code: seq<Instr>, nodes: seq<nat>, vtarget: int, dtarget: int, target: nat) {
    forall j :: j in nodes ==>
      var dest := if Carries(code, j) then vtarget else dtarget;
      j < dest <= target && Entry(code, dest)
  }

  /** A run only ever continues at an entry, further on. */
  lemma StepAdvances(env: Env, code: seq<Instr>, target: nat, q: nat, rg: Regs)
    requires CodeOk(code, target) && q < |code| && Entry(code, q)
    ensures match StepAt(env, code, q, rg)
      case Next(pc', _) => q < pc' && Entry(code, pc')
      case Leave(j, _) => q <= j <= q + 1 && j < |code| && code[j] == Jmp(OPEN) && (Carries(code, j) ==> j == q + 1)
      case _ => true
  {
    hide Rhs, Rk, Scratch, Nils;
    assert InstrOk(code, target, q);
    assert q + 1 < |code| ==> InstrOk(code, target, q + 1);
  }

  lemma PatchNothing(code: seq<Instr>, vtarget: int, reg: nat, dtarget: int)
    ensures Patch(code, [], vtarget, reg, dtarget) == code
  {}

  /** Patching keeps the shape of the code and every jump on another list. */
  lemma PatchKeepsShape(code: seq<Instr>, nodes: seq<nat>, vtarget: int, reg: nat, dtarget: int, target: nat)
    requires CodeOk(code, target) && Pending(code, nodes)
    requires TargetsAhead(code, nodes, vtarget, dtarget, target)
    ensures CodeOk(Patch(code, nodes, vtarget, reg, dtarget), target)
  {
    var r := Patch(code, nodes, vtarget, reg, dtarget);
    forall i | 0 <= i < |r| ensures InstrOk(r, target, i) {
      assert InstrOk(code, target, i);
      assert i + 1 < |code| ==> InstrOk(code, target, i + 1);
    }
  }

  lemma PatchKeepsOthers(code: seq<Instr>, nodes: seq<nat>, vtarget: int, reg: nat, dtarget: int, others: seq<nat>)
    requires Pending(code, nodes) && Pending(code, others) && Disjoint(others, nodes)
    ensures Pending(Patch(code, nodes, vtarget, reg, dtarget), others)
    ensures forall j :: j in others && j > 0 && !Carries(code, j) ==>
              !Carries(Patch(code, nodes, vtarget, reg, dtarget), j)
    ensures forall j :: j in others && Carries(code, j) ==>
              Patch(code, nodes, vtarget, reg, dtarget)[j - 1] == code[j - 1]
  {}

  /** Patching two lists to the same place is patching their concatenation. */
  lemma PatchTwice(code: seq<Instr>, xs: seq<nat>, ys: seq<nat>, dest: int)
    requires Pending(code, xs) && Pending(code, ys) && Disjoint(xs, ys)
    ensures Patch(Patch(code, xs, dest, NO_REG, dest), ys, dest, NO_REG, dest)
         == Patch(code, xs + ys, dest, NO_REG, dest)
  {
    var a := Patch(code, xs, dest, NO_REG, dest);
    var l := Patch(a, ys, dest, NO_REG, dest);
    var r := Patch(code, xs + ys, dest, NO_REG, dest);
    forall i | 0 <= i < |code| ensures l[i] == r[i] {
    }
  }

  /** Instructions that are neither tests nor jumps run the same. */
  lemma SameStraightStep(env: Env, code: seq<Instr>, code': seq<Instr>, q: nat, rg: Regs)
    requires q < |code| && q < |code'| && code'[q] == code[q] && !code[q].IsTest() && !code[q].Jmp?
    requires code[q].LoadKX? ==>
      if q + 1 < |code| then q + 1 < |code'| && code'[q + 1] == code[q + 1] else q + 1 >= |code'|
    ensures StepAt(env, code', q, rg) == StepAt(env, code, q, rg) && !StepAt(env, code, q, rg).Leave?
  {
    hide Rhs, Rk;
  }

  lemma SameTestStep(env: Env, code: seq<Instr>, code': seq<Instr>, q: nat, rg: Regs)
    requires q + 1 < |code| && q + 1 < |code'| && code'[q] == code[q] && code'[q + 1] == code[q + 1]
    requires code[q].IsTest() && code[q + 1].Jmp?
    ensures StepAt(env, code', q, rg) == StepAt(env, code, q, rg)
  {
    hide Rhs, Rk;
  }

  lemma StepWithin(env: Env, code: seq<Instr>, target: nat, q: nat, rg: Regs)
    requires CodeOk(code, target) && q < |code|
    ensures StepAt(env, code, q, rg).Next? ==> StepAt(env, code, q, rg).pc <= |code|
  {
    hide Rhs, Rk, Scratch;
    assert InstrOk(code, target, q);
    assert q + 1 < |code| ==> InstrOk(code, target, q + 1);
  }

  lemma StepAppend(env: Env, code: seq<Instr>, more: seq<Instr>, target: nat, q: nat, rg: Regs)
    requires CodeOk(code, target) && q < |code|
    ensures StepAt(env, code + more, q, rg) == StepAt(env, code, q, rg)
    ensures StepAt(env, code, q, rg).Next? ==> StepAt(env, code, q, rg).pc <= |code|
  {
    hide StepAt, Rhs, Rk;
    assert InstrOk(code, target, q);
    StepWithin(env, code, target, q, rg);
    if code[q].IsTest() { SameTestStep(env, code, code + more, q, rg); }
    else if code[q].Jmp? { JumpStep(env, code, q, rg); JumpStep(env, code + more, q, rg); }
    else { SameStraightStep(env, code, code + more, q, rg); }
  }

  lemma JumpStep(env: Env, code: seq<Instr>, q: nat, rg: Regs)
    requires q < |code| && code[q].Jmp?
    ensures StepAt(env, code, q, rg) == Goto(code, q, rg)
  {}

  /** A run inside `code` does not see what is appended to it. */
  lemma {:induction false} ExecAppend(env: Env, code: seq<Instr>, more: seq<Instr>, target: nat, q: nat, rg: Regs)
    requires CodeOk(code, target) && q <= |code|
    ensures Exec(env, code + more, q, rg) ==
      match Exec(env, code, q, rg)
      case Fall(rg') => Exec(env, code + more, |code|, rg')
      case o => o
    decreases |code| - q
  {
    hide StepAt, CodeOk;
    if q < |code| {
      StepAppend(env, code, more, target, q, rg);
      match StepAt(env, code, q, rg)
      case Next(pc', rg') =>
        if q < pc' && |rg'| == |rg| { ExecAppend(env, code, more, target, pc', rg'); }
      case _ =>
    }
  }

  /** What patching makes of a step: a jump in `nodes` is taken, and stores the value it carries. */
  function Redirect(code: seq<Instr>, nodes: seq<nat>, vtarget: nat, reg: nat, dtarget: nat, s: Step): Step {
    match s
    case Leave(j, rg) =>
      if j !in nodes then s
      else if !Carries(code, j) then Next(dtarget, rg)
      else Next(vtarget, Delivered(code, j, reg, rg))
    case _ => s
  }

  /** The registers after the jump at `j` has stored the value it carries into `reg`. */
  function Delivered(code: seq<Instr>, j: nat, reg: nat, rg: Regs): (rg': Regs)
    requires Carries(code, j)
    ensures |rg'| == |rg|
  {
    var b := code[j - 1].b;
    if reg == NO_REG || b >= |rg| then rg else SetReg(rg, reg, rg[b])
  }

  lemma StepPatchTest(env: Env, code: seq<Instr>, nodes: seq<nat>, vtarget: nat, reg: nat, dtarget: nat, target: nat,
      q: nat, rg: Regs)
    requires CodeOk(code, target) && Pending(code, nodes)
    requires TargetsAhead(code, nodes, vtarget, dtarget, target)
    requires q < |code| && code[q].IsTest() && (reg == NO_REG || reg < |rg|)
    ensures StepAt(env, Patch(code, nodes, vtarget, reg, dtarget), q, rg)
         == Redirect(code, nodes, vtarget, reg, dtarget, StepAt(env, code, q, rg))
  {
    var code' := Patch(code, nodes, vtarget, reg, dtarget);
    assert InstrOk(code, target, q);
    assert code'[q + 1] == PatchAt(code, nodes, vtarget, reg, dtarget, q + 1);
    assert code'[q] == PatchAt(code, nodes, vtarget, reg, dtarget, q);
    assert code'[q + 1].Jmp?;
    if code[q].TestSet? && q + 1 in nodes && code[q].b < |rg| {
      assert rg[code[q].b := rg[code[q].b]] == rg;
    }
  }

  lemma StepPatch(env: Env, code: seq<Instr>, nodes: seq<nat>, vtarget: nat, reg: nat, dtarget: nat, target: nat,
      q: nat, rg: Regs)
    requires CodeOk(code, target) && Pending(code, nodes)
    requires TargetsAhead(code, nodes, vtarget, dtarget, target)
    requires q < |code| && Entry(code, q) && (reg == NO_REG || reg < |rg|)
    ensures StepAt(env, Patch(code, nodes, vtarget, reg, dtarget), q, rg)
         == Redirect(code, nodes, vtarget, reg, dtarget, StepAt(env, code, q, rg))
  {
    var code' := Patch(code, nodes, vtarget, reg, dtarget);
    assert InstrOk(code, target, q);
    assert code'[q] == PatchAt(code, nodes, vtarget, reg, dtarget, q);
    assert q + 1 < |code| ==> code'[q + 1] == PatchAt(code, nodes, vtarget, reg, dtarget, q + 1);
    if code[q].IsTest() {
      StepPatchTest(env, code, nodes, vtarget, reg, dtarget, target, q, rg);
    } else if code[q].Jmp? {
    } else {
      assert code'[q] == code[q];
      SameStraightStep(env, code, code', q, rg);
    }
  }

  /** Patching makes exactly the runs that left through `nodes` go on from their destination. */
  lemma {:induction false} ExecPatch(env: Env, code: seq<Instr>, nodes: seq<nat>, vtarget: nat, reg: nat,
      dtarget: nat, target: nat, q: nat, rg: Regs)
    requires CodeOk(code, target) && Pending(code, nodes)
    requires TargetsAhead(code, nodes, vtarget, dtarget, target)
    requires Entry(code, q) && (reg == NO_REG || reg < |rg|)
    ensures
      var code' := Patch(code, nodes, vtarget, reg, dtarget);
      Exec(env, code', q, rg) ==
        match Exec(env, code, q, rg)
        case Exit(j, rg') =>
          if j !in nodes then Exit(j, rg')
          else if !Carries(code, j) then Exec(env, code', dtarget, rg')
          else Exec(env, code', vtarget, Delivered(code, j, reg, rg'))
        case o => o
    decreases |code| - q
  {
    if q < |code| {
      StepPatch(env, code, nodes, vtarget, reg, dtarget, target, q, rg);
      StepAdvances(env, code, target, q, rg);
      match StepAt(env, code, q, rg)
      case Next(pc', rg') =>
        if |rg'| == |rg| { ExecPatch(env, code, nodes, vtarget, reg, dtarget, target, pc', rg'); }
      case _ =>
    }
  }

  // ----- jumps back -----

  /** What patching jumps to the earlier place `dest` makes of a step. */
  function RedirectBack(nodes: seq<nat>, dest: nat, s: Step): Step {
    match s
    case Leave(j, rg) => if j !in nodes then s else if j < dest then Next(dest, rg) else Again(dest, rg)
    case _ => s
  }

  lemma StepPatchBackTest(env: Env, code: seq<Instr>, nodes: seq<nat>, dest: nat, target: nat, q: nat, rg: Regs)
    requires CodeOk(code, target) && Pending(code, nodes) && q < |code| && code[q].IsTest()
    requires forall j :: j in nodes ==> dest - (j + 1) != OPEN
    ensures StepAt(env, Patch(code, nodes, dest, NO_REG, dest), q, rg)
         == RedirectBack(nodes, dest, StepAt(env, code, q, rg))
  {
    hide Rhs, Rk, Scratch;
    var code' := Patch(code, nodes, dest, NO_REG, dest);
    assert InstrOk(code, target, q);
    assert code'[q + 1] == PatchAt(code, nodes, dest, NO_REG, dest, q + 1);
    assert code'[q] == PatchAt(code, nodes, dest, NO_REG, dest, q);
    assert code'[q + 1].Jmp?;
  }

  lemma StepPatchBack(env: Env, code: seq<Instr>, nodes: seq<nat>, dest: nat, target: nat, q: nat, rg: Regs)
    requires CodeOk(code, target) && Pending(code, nodes) && q < |code| && Entry(code, q)
    requires forall j :: j in nodes ==> dest - (j + 1) != OPEN
    ensures StepAt(env, Patch(code, nodes, dest, NO_REG, dest), q, rg)
         == RedirectBack(nodes, dest, StepAt(env, code, q, rg))
  {
    hide Rhs, Rk, Scratch;
    var code' := Patch(code, nodes, dest, NO_REG, dest);
    assert InstrOk(code, target, q);
    assert code'[q] == PatchAt(code, nodes, dest, NO_REG, dest, q);
    assert q + 1 < |code| ==> code'[q + 1] == PatchAt(code, nodes, dest, NO_REG, dest, q + 1);
    if code[q].IsTest() { StepPatchBackTest(env, code, nodes, dest, target, q, rg); }
    else if code[q].Jmp? {
      JumpStep(env, code, q, rg);
      JumpStep(env, code', q, rg);
    } else { SameStraightStep(env, code, code', q, rg); }
  }

  /** Patching jumps to an earlier place makes exactly the runs that left through them go on from
      there: directly, if the place was still ahead of them. */
  lemma {:induction false} ExecPatchBack(env: Env, code: seq<Instr>, nodes: seq<nat>, dest: nat, target: nat, q: nat,
      rg: Regs)
    requires CodeOk(code, target) && Pending(code, nodes) && Entry(code, q)
    requires forall j :: j in nodes ==> dest - (j + 1) != OPEN
    ensures
      var code' := Patch(code, nodes, dest, NO_REG, dest);
      Exec(env, code', q, rg) ==
        match Exec(env, code, q, rg)
        case Exit(j, rg') =>
          if j !in nodes then Exit(j, rg') else if j < dest then Exec(env, code', dest, rg') else Back(dest, rg')
        case o => o
    decreases |code| - q
  {
    hide StepAt, Patch, CodeOk;
    if q < |code| {
      StepPatchBack(env, code, nodes, dest, target, q, rg);
      StepAdvances(env, code, target, q, rg);
      match StepAt(env, code, q, rg)
      case Next(pc', rg') => if q < pc' && |rg'| == |rg| { ExecPatchBack(env, code, nodes, dest, target, pc', rg'); }
      case _ =>
    }
  }
}
