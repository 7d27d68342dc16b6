/** The invariants of code generation: jump lists stay pairwise disjoint lists of emitted
    jumps, tests keep their jumps, registers are released in the order they were taken. */
module LuaShape {
  import opened LuaValues
  import opened LuaOpcodes
  import opened LuaPatch
  import opened LuaConstants
  import opened LuaCode
  import opened LuaEncoding

  /** Every label is a place where control may arrive, and jumps only go back to labels. */
  ghost predicate LabelsOk(code: seq<Instr>, target: nat, labels: set<nat>) {
    && (forall q :: q in labels ==> q <= target && Entry(code, q))
    && (forall i :: 0 <= i < |code| && code[i].Jmp? && code[i].sbx < 0 && code[i].sbx != OPEN ==>
          i + 1 + code[i].sbx in labels)
  }

  /** ... and all instructions fit their fields. */
  ghost predicate FormOk(code: seq<Instr>, target: nat, labels: set<nat>) {
    LabelsOk(code, target, labels) && AllFit(code)
  }

  ghost predicate Wf(s: State) {
    && !s.err
    && CodeOk(s.code, s.lasttarget)
    && Pending(s.code, s.jpc) && Distinct(s.jpc)
    && (s.jpc != [] ==> s.lasttarget == |s.code|)
    && s.nactvar <= s.freereg <= s.maxstack < MAXSTACK
    && PoolOk(s.pool) && |s.pool.k| <= 67108863
    && FormOk(s.code, s.lasttarget, s.labels)
  }

  /** A jump list of `e`, made of jumps emitted at or after `base`. */
  ghost predicate ListOk(s: State, nodes: seq<nat>, base: nat) {
    && Pending(s.code, nodes) && Distinct(nodes) && Disjoint(nodes, s.jpc)
    && (forall j :: j in nodes ==> base <= j)
  }

  /** Where the value of an expression compiled at or after `base` is. */
  ghost predicate PlaceAt(s: State, k: Kind, base: nat) {
    && KindOk(s.code, k)
    && match k
       case VNonReloc(i) => i < s.maxstack
       case VLocal(i) => i < s.nactvar
       case VK(i) => i < |s.pool.k|
       case VReloc(i) => base <= i && s.lasttarget <= i && s.jpc == []
       case VJmp(i) => base <= i - 1 && s.lasttarget <= i - 1 && s.jpc == [] && s.code[i] == Jmp(OPEN)
       case _ => true
  }

  predicate InTemp(s: State, k: Kind) { k.VNonReloc? && k.info >= s.nactvar }

  predicate ConcatAt(code: seq<Instr>, k: Kind) { k.VReloc? && k.info < |code| && code[k.info].Concat? }

  /** The operands of a concatenation that has no register yet start at `r0`. Registers from `r0`
      are free, except `r0` itself when it holds the value. */
  predicate Taken(s: State, k: Kind, r0: nat) {
    && s.nactvar <= r0
    && s.freereg == (if InTemp(s, k) then r0 + 1 else r0)
    && (InTemp(s, k) ==> k.info == r0)
    && (ConcatAt(s.code, k) ==> s.code[k.info].b == r0)
  }

  ghost predicate ListsOk(s: State, e: Exp, base: nat) {
    ListOk(s, e.t, base) && ListOk(s, e.f, base) && Disjoint(e.t, e.f)
  }

  /** `e` describes an expression compiled at or after `base`. */
  ghost predicate ExpAt(s: State, e: Exp, base: nat) {
    && Wf(s) && base <= |s.code| && PlaceAt(s, e.k, base) && ListsOk(s, e, base)
    && (e.k.VJmp? ==> e.k.info !in e.t && e.k.info !in e.f)
  }

  /** ... with temporaries from register `r0` on. */
  ghost predicate ExpOk(s: State, e: Exp, base: nat, r0: nat) {
    ExpAt(s, e, base) && Taken(s, e.k, r0)
  }

  /** The jumps `e` still owns. */
  function Own(e: Exp): seq<nat> {
    e.t + e.f + if e.k.VJmp? then [e.k.info] else []
  }

  /** A jump of some other list, with the test that controls it. */
  ghost predicate Foreign(s: State, own: seq<nat>, j: nat) {
    j < |s.code| && s.code[j] == Jmp(OPEN) && j !in s.jpc && j !in own
  }

  /** The jump at `j` carries the same value in both pieces of code, if any. */
  ghost predicate SameControl(code: seq<Instr>, code': seq<Instr>, j: nat) {
    && Carries(code, j) == Carries(code', j)
    && (Carries(code, j) ==> code[j - 1] == code'[j - 1])
  }

  /** Jumps on lists other than `own` and `jpc` stay as they are. */
  ghost predicate Keeps(s: State, s': State, own: seq<nat>) {
    forall j: nat :: Foreign(s, own, j) ==>
      && j < |s'.code| && s'.code[j] == Jmp(OPEN) && j !in s'.jpc
      && SameControl(s.code, s'.code, j)
  }

  /** From `s` to `s'`, only lists in `own` and code from `base` on have changed hands. */
  ghost predicate Evolves(s: State, s': State, own: seq<nat>, base: nat) {
    && Keeps(s, s', own)
    && s.lasttarget <= s'.lasttarget
    && (forall j :: j in s'.jpc ==> j in s.jpc || j >= base)
  }

  /** Patching lists whose destinations are within reach leaves instructions that fit. */
  lemma PatchFits(code: seq<Instr>, nodes: seq<nat>, vtarget: int, reg: nat, dtarget: int)
    requires AllFit(code) && (IsReg(reg) || reg == NO_REG) && !FarPatch(code, nodes, vtarget, dtarget)
    ensures AllFit(Patch(code, nodes, vtarget, reg, dtarget))
  {
    var r := Patch(code, nodes, vtarget, reg, dtarget);
    forall i | 0 <= i < |r| ensures r[i] == Jmp(OPEN) || Encodable(r[i]) {
      assert r[i] == PatchAt(code, nodes, vtarget, reg, dtarget, i);
      if i in nodes { assert !Far(i, if Carries(code, i) then vtarget else dtarget); }
    }
  }

  lemma DischargeOk(s: State)
    requires Wf(s) && !Discharge(s).err
    ensures Wf(Discharge(s)) && Keeps(s, Discharge(s), [])
  {
    hide PoolOk, FormOk;
    forall j | j in s.jpc ensures j < |s.code| && Entry(s.code, |s.code|) {
      assert InstrOk(s.code, s.lasttarget, |s.code| - 1);
    }
    DischargeForm(s);
    if s.jpc == [] { PatchNothing(s.code, |s.code|, NO_REG, |s.code|); }
    else { PatchKeepsShape(s.code, s.jpc, |s.code|, NO_REG, |s.code|, |s.code|); }
  }

  lemma DischargeForm(s: State)
    requires Wf(s) && !Discharge(s).err
    ensures FormOk(Discharge(s).code, s.lasttarget, s.labels)
  {
    hide PoolOk, CodeOk;
    PatchFits(s.code, s.jpc, |s.code|, NO_REG, |s.code|);
  }

  lemma DischargeFields(s: State)
    ensures Discharge(s) == s.(code := Discharge(s).code, jpc := [], err := Discharge(s).err)
  {}

  predicate Plain(i: Instr) {
    i.Move? || i.LoadK? || i.LoadNil? || i.Relocatable() || (i.LoadBool? && !i.skip) || i.ExtraArg? || i.Return?
  }

  lemma FormGrows(code: seq<Instr>, more: seq<Instr>, target: nat, target': nat, labels: set<nat>)
    requires FormOk(code, target, labels) && target <= |code| && target <= target'
    requires forall i :: 0 <= i < |more| ==> if more[i].Jmp? then more[i].sbx == OPEN else Encodable(more[i])
    ensures FormOk(code + more, target', labels)
  {}

  lemma FormCut(code: seq<Instr>, target: nat, m: nat, labels: set<nat>)
    requires FormOk(code, target, labels) && target <= m <= |code|
    ensures FormOk(code[..m], target, labels)
  {}

  lemma EmitOk(s: State, i: Instr)
    requires Wf(s) && Plain(i) && Encodable(i) && !Emit(s, i).err
    ensures Wf(Emit(s, i)) && Keeps(s, Emit(s, i), [])
    ensures Emit(s, i).jpc == [] && Emit(s, i).lasttarget == s.lasttarget <= |s.code|
  {
    hide Discharge, PoolOk, FormOk, Patch, PatchAt;
    DischargeOk(s);
    DischargeFields(s);
    var d, s' := Discharge(s), Emit(s, i);
    forall k | 0 <= k < |s'.code| ensures InstrOk(s'.code, s'.lasttarget, k) {
      if k < |d.code| { assert InstrOk(d.code, d.lasttarget, k); }
    }
    FormGrows(d.code, [i], d.lasttarget, d.lasttarget, s.labels);
  }

  lemma CondJumpOk(s: State, i: Instr)
    requires Wf(s) && i.IsTest() && Encodable(i) && !CondJump(s, i).0.err
    ensures
      var (s', js) := CondJump(s, i);
      && Wf(s') && Keeps(s, s', [])
      && s'.code == Discharge(s).code + [i, Jmp(OPEN)] && s'.jpc == []
      && s' == s.(code := s'.code, jpc := [])
      && js == [|s.code| + 1]
  {
    hide Discharge, PoolOk, FormOk, Patch, PatchAt, CodeOk;
    DischargeOk(s);
    DischargeFields(s);
    EmitWithoutPatch(s, i);
    var d, more := Discharge(s), [i, Jmp(OPEN)];
    assert d.code + [i] + [Jmp(OPEN)] == d.code + more;
    TestShape(d.code, i, d.lasttarget);
    FormGrows(d.code, more, d.lasttarget, d.lasttarget, s.labels);
  }

  lemma EmitWithoutPatch(s: State, i: Instr)
    ensures Emit(s, i).code == Discharge(s).code + [i] && Emit(s, i).jpc == []
  {}

  lemma TestShape(code: seq<Instr>, i: Instr, target: nat)
    requires CodeOk(code, target) && i.IsTest()
    ensures CodeOk(code + [i, Jmp(OPEN)], target) && target <= |code|
  {
    var code' := code + [i, Jmp(OPEN)];
    forall k | 0 <= k < |code'| ensures InstrOk(code', target, k) {
      if k < |code| { assert InstrOk(code, target, k); }
    }
  }

  /** Cutting off a last instruction that nothing jumps over leaves well-shaped code. */
  lemma CutOk(code: seq<Instr>, target: nat, m: nat)
    requires CodeOk(code, target) && target <= m < |code|
    requires !code[m].Jmp? && !code[m].ExtraArg?
    ensures CodeOk(code[..m], target) && Entry(code[..m], m)
  {
    assert m > 0 ==> InstrOk(code, target, m - 1);
    forall k | 0 <= k < m ensures InstrOk(code[..m], target, k) {
      assert InstrOk(code, target, k);
    }
  }

  // ----- lists -----

  lemma DistinctConcat(xs: seq<nat>, ys: seq<nat>)
    requires Distinct(xs) && Distinct(ys) && Disjoint(xs, ys)
    ensures Distinct(xs + ys)
  {
    forall i, j | 0 <= i < j < |xs + ys| ensures (xs + ys)[i] != (xs + ys)[j] {
      if i < |xs| <= j { assert xs[i] in xs && ys[j - |xs|] in ys; }
    }
  }

  /** A list that an operation does not own is still a list afterwards. */
  lemma KeepsList(s: State, s': State, own: seq<nat>, nodes: seq<nat>, base: nat)
    requires Keeps(s, s', own) && ListOk(s, nodes, base) && Disjoint(nodes, own)
    ensures ListOk(s', nodes, base)
    ensures forall j :: j in nodes ==> SameControl(s.code, s'.code, j)
  {
    forall j | j in nodes ensures Foreign(s, own, j) {}
  }

  lemma KeepsSame(s: State, own: seq<nat>)
    ensures Keeps(s, s, own)
  {}

  /** Two operations after each other leave alone what both leave alone. */
  lemma KeepsBoth(s: State, s1: State, s2: State, own: seq<nat>, own1: seq<nat>)
    requires Keeps(s, s1, own) && Keeps(s1, s2, own1)
    requires forall j :: j in own1 ==> j in own || j in s.jpc || j >= |s.code|
    ensures Keeps(s, s2, own)
  {
    forall j: nat | Foreign(s, own, j) ensures Foreign(s1, own1, j) {}
  }

  lemma JumpOk(s: State)
    requires Wf(s) && !Jump(s).0.err
    ensures
      var (s', js) := Jump(s);
      && Wf(s') && s'.jpc == [] && Keeps(s, s', []) && s'.lasttarget == s.lasttarget
      && Pending(s'.code, js) && Distinct(js) && js == [|s.code|] + s.jpc
  {
    var s' := Jump(s).0;
    forall k | 0 <= k < |s'.code| ensures InstrOk(s'.code, s'.lasttarget, k) {
      if k < |s.code| { assert InstrOk(s.code, s.lasttarget, k); }
    }
    DistinctConcat([|s.code|], s.jpc);
  }

  lemma PatchToHereOk(s: State, nodes: seq<nat>)
    requires Wf(s) && ListOk(s, nodes, 0) && !PatchToHere(s, nodes).err
    ensures
      var s' := PatchToHere(s, nodes);
      && Wf(s') && Keeps(s, s', nodes) && s'.lasttarget == |s.code|
      && s' == s.(lasttarget := |s.code|, jpc := s.jpc + nodes)
  {
    DistinctConcat(s.jpc, nodes);
    var s' := PatchToHere(s, nodes);
    forall k | 0 <= k < |s'.code| ensures InstrOk(s'.code, s'.lasttarget, k) {
      assert InstrOk(s.code, s.lasttarget, k);
    }
  }

  lemma GetLabelOk(s: State)
    requires Wf(s)
    ensures Wf(GetLabel(s)) && Keeps(s, GetLabel(s), [])
  {
    forall k | 0 <= k < |s.code| ensures InstrOk(s.code, |s.code|, k) {
      assert InstrOk(s.code, s.lasttarget, k);
    }
  }

  // ----- values into registers -----

  lemma LoadNilsOk(s: State, from: nat, n: nat)
    requires Wf(s) && n > 0 && from + n <= 250 && !LoadNils(s, from, n).err
    ensures
      var s' := LoadNils(s, from, n);
      && Wf(s') && Keeps(s, s', []) && s' == s.(code := s'.code, jpc := []) && s'.code != []
  {
    hide Emit, PoolOk, CodeOk, FormOk;
    var s' := LoadNils(s, from, n);
    if s' == Emit(s, LoadNil(from, n - 1)) { EmitOk(s, LoadNil(from, n - 1)); EmitFields(s, LoadNil(from, n - 1)); }
    else {
      LastFits(s);
      WiderOk(s, s'.code[|s.code| - 1].a, s'.code[|s.code| - 1].b);
    }
  }

  lemma LastFits(s: State)
    requires Wf(s) && s.code != []
    ensures var i := s.code[|s.code| - 1]; i == Jmp(OPEN) || Encodable(i)
  {}

  lemma EmitFields(s: State, i: Instr)
    ensures Emit(s, i) == s.(code := Emit(s, i).code, jpc := [], err := Emit(s, i).err)
  {}

  /** A LOADNIL at the end of the code may be widened. */
  lemma WiderOk(s: State, a: nat, b: nat)
    requires Wf(s) && |s.code| > s.lasttarget && s.code[|s.code| - 1].LoadNil? && IsReg(a + b)
    ensures
      var s' := s.(code := s.code[|s.code| - 1 := LoadNil(a, b)]);
      Wf(s') && Keeps(s, s', []) && s.jpc == []
  {
    hide PoolOk;
    var s' := s.(code := s.code[|s.code| - 1 := LoadNil(a, b)]);
    forall k | 0 <= k < |s'.code| ensures InstrOk(s'.code, s'.lasttarget, k) {
      assert InstrOk(s.code, s.lasttarget, k);
    }
  }

  lemma LoadConstOk(s: State, reg: nat, k: nat)
    requires Wf(s) && IsReg(reg) && k < |s.pool.k| && !LoadConst(s, reg, k).err
    ensures
      var s' := LoadConst(s, reg, k);
      && Wf(s') && Keeps(s, s', []) && s' == s.(code := s'.code, jpc := [])
  {
    hide Discharge, PoolOk, CodeOk, FormOk, Patch, PatchAt, Emit, LoadConst;
    if k <= MAXARG_BX {
      ShortConst(s, reg, k);
      EmitOk(s, LoadK(reg, k));
      EmitFields(s, LoadK(reg, k));
    } else {
      var d, s', more := Discharge(s), LoadConst(s, reg, k), [LoadKX(reg), ExtraArg(k)];
      LongConstCode(s, reg, k);
      DischargeOk(s);
      DischargeFields(s);
      LongConstShape(d.code, reg, k, d.lasttarget);
      FormGrows(d.code, more, d.lasttarget, d.lasttarget, s.labels);
    }
  }

  lemma ShortConst(s: State, reg: nat, k: nat)
    requires k <= MAXARG_BX
    ensures LoadConst(s, reg, k) == Emit(s, LoadK(reg, k))
  {}

  lemma LongConstCode(s: State, reg: nat, k: nat)
    requires k > MAXARG_BX
    ensures
      var s' := LoadConst(s, reg, k);
      && s'.code == Discharge(s).code + [LoadKX(reg), ExtraArg(k)]
      && s' == s.(code := s'.code, jpc := [], err := s'.err) && (!s'.err ==> !Discharge(s).err)
  {
    hide Discharge;
    DischargeFields(s);
    EmitWithoutPatch(s, LoadKX(reg));
    EmitWithoutJumps(Emit(s, LoadKX(reg)), ExtraArg(k));
    assert Discharge(s).code + [LoadKX(reg)] + [ExtraArg(k)] == Discharge(s).code + [LoadKX(reg), ExtraArg(k)];
  }

  lemma LongConstShape(code: seq<Instr>, reg: nat, k: nat, target: nat)
    requires CodeOk(code, target)
    ensures CodeOk(code + [LoadKX(reg), ExtraArg(k)], target) && target <= |code|
  {
    var code' := code + [LoadKX(reg), ExtraArg(k)];
    forall i | 0 <= i < |code'| ensures InstrOk(code', target, i) {
      if i < |code| { assert InstrOk(code, target, i); }
    }
  }

  lemma AddConstOk(s: State, v: Value)
    requires Wf(s) && IsConstant(v) && !AddConst(s, v).0.err
    ensures
      var (s', i) := AddConst(s, v);
      && Wf(s') && Keeps(s, s', []) && s' == s.(pool := s'.pool)
      && i < |s'.pool.k| && s'.pool.k[i] == v
  {
    AddKFaithful(s.pool, v);
  }

  lemma Discharge2RegOk(s: State, e: Exp, reg: nat, base: nat)
    requires Wf(s) && PlaceAt(s, e.k, base) && IsReg(reg) && !Discharge2Reg(s, e, reg).0.err
    ensures
      var s' := Discharge2Reg(s, e, reg).0;
      && Wf(s') && Keeps(s, s', []) && s' == s.(code := s'.code, jpc := s'.jpc, pool := s'.pool)
      && (s'.jpc == [] || s'.jpc == s.jpc)
  {
    hide PoolOk, CodeOk, FormOk, Emit, LoadNils, LoadConst, AddConst;
    match DischargeVars(e).k
    case VNil => LoadNilsOk(s, reg, 1);
    case VFalse =>
      EmitOk(s, LoadBool(reg, false, false));
      EmitFields(s, LoadBool(reg, false, false));
    case VTrue =>
      EmitOk(s, LoadBool(reg, true, false));
      EmitFields(s, LoadBool(reg, true, false));
    case VK(i) => LoadConstOk(s, reg, i);
    case VKNum(n) =>
      var (s1, i) := AddConst(s, Num(n));
      AddConstOk(s, Num(n));
      LoadConstOk(s1, reg, i);
      KeepsBoth(s, s1, LoadConst(s1, reg, i), [], []);
    case VReloc(i) => SetAOk(s, i, reg);
    case VNonReloc(i) =>
      if reg != i {
        EmitOk(s, Move(reg, i));
        EmitFields(s, Move(reg, i));
      } else { KeepsSame(s, []); }
    case VJmp(_) => KeepsSame(s, []);
  }

  lemma SetAOk(s: State, i: nat, reg: nat)
    requires Wf(s) && i < |s.code| && s.code[i].Relocatable() && IsReg(reg)
    ensures var s' := s.(code := s.code[i := s.code[i].SetA(reg)]); Wf(s') && Keeps(s, s', [])
  {
    hide PoolOk, Encodable, LabelsOk;
    var s' := s.(code := s.code[i := s.code[i].SetA(reg)]);
    SetAFits(s.code[i], reg);
    SetALabels(s, i, reg);
    forall k | 0 <= k < |s'.code| ensures InstrOk(s'.code, s'.lasttarget, k) {
      assert InstrOk(s.code, s.lasttarget, k);
    }
  }

  lemma SetALabels(s: State, i: nat, reg: nat)
    requires LabelsOk(s.code, s.lasttarget, s.labels) && i < |s.code| && s.code[i].Relocatable()
    ensures LabelsOk(s.code[i := s.code[i].SetA(reg)], s.lasttarget, s.labels)
  {}

  lemma SetAFits(i: Instr, reg: nat)
    requires i.Relocatable() && Encodable(i) && IsReg(reg)
    ensures Encodable(i.SetA(reg))
  {}

  lemma EntryAtEnd(code: seq<Instr>, target: nat)
    requires CodeOk(code, target)
    ensures Entry(code, |code|)
  {
    assert code != [] ==> InstrOk(code, target, |code| - 1);
  }

  /** The state in which LoadLabels emits its two instructions. */
  function BeforeLabels(s: State, isJump: bool): State {
    if isJump then s else Jump(s).0
  }

  lemma EmitWithoutJumps(s: State, i: Instr)
    requires s.jpc == []
    ensures Emit(s, i) == s.(code := s.code + [i], err := s.err || |s.code| >= MAX_INT)
  {
    PatchNothing(s.code, |s.code|, NO_REG, |s.code|);
  }

  lemma LoadLabelsCode(s: State, isJump: bool, reg: nat)
    requires (isJump ==> s.jpc == []) && !LoadLabels(s, isJump, reg).0.err
    ensures
      var (s', p_f) := LoadLabels(s, isJump, reg);
      var s1 := BeforeLabels(s, isJump);
      && !s1.err && p_f == |s1.code|
      && s'.code == s1.code + [LoadBool(reg, false, true), LoadBool(reg, true, false)]
      && s' == s.(code := s'.code, jpc := if isJump then [] else Jump(s).1, lasttarget := |s'.code|)
  {
    var s1 := BeforeLabels(s, isJump);
    EmitWithoutJumps(GetLabel(s1), LoadBool(reg, false, true));
    var s2 := CodeLabel(s1, reg, false, true);
    EmitWithoutJumps(GetLabel(s2), LoadBool(reg, true, false));
    assert s1.code + [LoadBool(reg, false, true)] + [LoadBool(reg, true, false)]
        == s1.code + [LoadBool(reg, false, true), LoadBool(reg, true, false)];
  }

  lemma LoadLabelsOk(s: State, isJump: bool, reg: nat)
    requires Wf(s) && IsReg(reg) && (isJump ==> s.jpc == []) && !LoadLabels(s, isJump, reg).0.err
    ensures
      var (s', p_f) := LoadLabels(s, isJump, reg);
      var s1 := BeforeLabels(s, isJump);
      && Wf(s1) && Wf(s') && Keeps(s, s', [])
      && p_f == |s1.code| && Entry(s'.code, p_f) && Entry(s'.code, p_f + 1) && Entry(s'.code, p_f + 2)
      && s'.code == s1.code + [LoadBool(reg, false, true), LoadBool(reg, true, false)]
      && s' == s.(code := s'.code, jpc := if isJump then [] else Jump(s).1, lasttarget := |s'.code|)
  {
    hide LoadLabels, FormOk, PoolOk;
    LoadLabelsCode(s, isJump, reg);
    var s1 := BeforeLabels(s, isJump);
    if !isJump { JumpOk(s); }
    var s' := LoadLabels(s, isJump, reg).0;
    var labels := [LoadBool(reg, false, true), LoadBool(reg, true, false)];
    LabelsShape(s1.code, s1.lasttarget, labels);
    FormGrows(s1.code, labels, s1.lasttarget, |s'.code|, s.labels);
    assert Keeps(s1, s', s'.jpc);
  }

  lemma LabelsShape(code: seq<Instr>, target: nat, labels: seq<Instr>)
    requires CodeOk(code, target)
    requires |labels| == 2 && labels[0].LoadBool? && labels[1].LoadBool? && !labels[1].skip
    ensures
      var code' := code + labels;
      && CodeOk(code', |code'|)
      && Entry(code', |code|) && Entry(code', |code| + 1) && Entry(code', |code| + 2)
  {
    EntryAtEnd(code, target);
    var code' := code + labels;
    forall i | 0 <= i < |code'| ensures InstrOk(code', |code'|, i) {
      if i < |code| { assert InstrOk(code, target, i); }
    }
  }

  /** Patching both lists of an expression to destinations ahead of them. */
  lemma PatchListOk(s: State, nodes: seq<nat>, vtarget: int, reg: nat, dtarget: int)
    requires Wf(s) && ListOk(s, nodes, 0) && !PatchList(s, nodes, vtarget, reg, dtarget).err
    requires TargetsAhead(s.code, nodes, vtarget, dtarget, s.lasttarget) && (IsReg(reg) || reg == NO_REG)
    ensures
      var s' := PatchList(s, nodes, vtarget, reg, dtarget);
      && Wf(s') && Keeps(s, s', nodes) && s' == s.(code := s'.code)
  {
    PatchFits(s.code, nodes, vtarget, reg, dtarget);
    PatchKeepsShape(s.code, nodes, vtarget, reg, dtarget, s.lasttarget);
    PatchKeepsOthers(s.code, nodes, vtarget, reg, dtarget, s.jpc);
  }

  /** The state after CloseLists has chosen its destinations, and the destinations. */
  function Labelled(s: State, e: Exp, isJump: bool, reg: nat): (State, int, int) {
    var need := NeedValue(s.code, e.t) || NeedValue(s.code, e.f);
    var (s1, p_f) := if need then LoadLabels(s, isJump, reg) else (s, -1);
    (GetLabel(s1), p_f, if need then p_f + 1 else -1)
  }

  lemma LabelledOk(s: State, e: Exp, isJump: bool, reg: nat)
    requires Wf(s) && IsReg(reg) && ListsOk(s, e, 0) && (isJump ==> s.jpc == []) && !Labelled(s, e, isJump, reg).0.err
    ensures
      var (s2, p_f, p_t) := Labelled(s, e, isJump, reg);
      && Wf(s2) && ListsOk(s2, e, 0) && Keeps(s, s2, [])
      && s2.lasttarget == |s2.code| && s2 == s.(code := s2.code, jpc := s2.jpc, lasttarget := |s2.code|)
      && (forall j :: j in e.t + e.f ==> SameControl(s.code, s2.code, j))
      && TargetsAhead(s2.code, e.f, |s2.code|, p_f, |s2.code|)
      && TargetsAhead(s2.code, e.t, |s2.code|, p_t, |s2.code|)
      && (forall j :: j in s2.jpc ==> j in s.jpc || j >= |s.code|)
  {
    hide CodeOk, PoolOk, FormOk, LoadLabels, Entry, TargetsAhead, Distinct, NeedValue;
    var need := NeedValue(s.code, e.t) || NeedValue(s.code, e.f);
    if need { LoadLabelsOk(s, isJump, reg); } else { KeepsSame(s, []); }
    var s1 := if need then LoadLabels(s, isJump, reg).0 else s;
    GetLabelOk(s1);
    var (s2, p_f, p_t) := Labelled(s, e, isJump, reg);
    KeepsBoth(s, s1, s2, [], []);
    KeepsList(s, s2, [], e.t, 0);
    KeepsList(s, s2, [], e.f, 0);
    EntryAtEnd(s2.code, s2.lasttarget);
    LabelsAhead(s, s2, e.f, p_f, need);
    LabelsAhead(s, s2, e.t, p_t, need);
  }

  lemma LabelsAhead(s: State, s2: State, nodes: seq<nat>, p: int, need: bool)
    requires Pending(s.code, nodes) && forall j :: j in nodes ==> SameControl(s.code, s2.code, j)
    requires |s.code| <= |s2.code| && Entry(s2.code, |s2.code|)
    requires if need then |s.code| <= p <= |s2.code| && Entry(s2.code, p) else !NeedValue(s.code, nodes)
    ensures TargetsAhead(s2.code, nodes, |s2.code|, p, |s2.code|)
  {
    hide Entry;
    forall j | j in nodes
      ensures var dest := if Carries(s2.code, j) then |s2.code| else p; j < dest <= |s2.code| && Entry(s2.code, dest)
    {
      assert SameControl(s.code, s2.code, j);
    }
  }

  /** Patching one list leaves the destinations of the other one ahead of it. */
  lemma SecondListOk(s: State, xs: seq<nat>, ys: seq<nat>, vtarget: int, reg: nat, dx: int, dy: int)
    requires Wf(s) && ListOk(s, xs, 0) && ListOk(s, ys, 0) && Disjoint(ys, xs)
    requires TargetsAhead(s.code, xs, vtarget, dx, s.lasttarget)
    requires TargetsAhead(s.code, ys, vtarget, dy, s.lasttarget)
    requires !PatchList(s, xs, vtarget, reg, dx).err && (IsReg(reg) || reg == NO_REG)
    ensures
      var s' := PatchList(s, xs, vtarget, reg, dx);
      && TargetsAhead(s'.code, ys, vtarget, dy, s.lasttarget) && ListOk(s', ys, 0)
      && (forall j :: j in ys ==> SameControl(s.code, s'.code, j))
  {
    hide CodeOk, PoolOk, FormOk;
    var s' := PatchList(s, xs, vtarget, reg, dx);
    PatchListOk(s, xs, vtarget, reg, dx);
    KeepsList(s, s', xs, ys, 0);
    forall j | j in ys
      ensures var d := if Carries(s'.code, j) then vtarget else dy; j < d <= s.lasttarget && Entry(s'.code, d)
    {
      assert Carries(s'.code, j) == Carries(s.code, j);
    }
  }

  lemma CloseListsOk(s: State, e: Exp, isJump: bool, reg: nat)
    requires Wf(s) && IsReg(reg) && ListsOk(s, e, 0) && (isJump ==> s.jpc == []) && !CloseLists(s, e, isJump, reg).err
    ensures
      var s' := CloseLists(s, e, isJump, reg);
      && Wf(s') && Keeps(s, s', e.t + e.f) && s.lasttarget <= s'.lasttarget
      && s' == s.(code := s'.code, jpc := s'.jpc, lasttarget := |s'.code|)
      && (forall j :: j in s'.jpc ==> j in s.jpc || j >= |s.code|)
  {
    var (s2, p_f, p_t) := Labelled(s, e, isJump, reg);
    var final := |s2.code|;
    var s3 := PatchList(s2, e.f, final, reg, p_f);
    LabelledOk(s, e, isJump, reg);
    PatchListOk(s2, e.f, final, reg, p_f);
    SecondListOk(s2, e.f, e.t, final, reg, p_f, p_t);
    PatchListOk(s3, e.t, final, reg, p_t);
    var s' := CloseLists(s, e, isJump, reg);
    forall j: nat | Foreign(s, e.t + e.f, j)
      ensures j < |s'.code| && s'.code[j] == Jmp(OPEN) && j !in s'.jpc && SameControl(s.code, s'.code, j)
    {
      assert Foreign(s, [], j);
      assert Foreign(s2, e.f, j);
      assert Foreign(s3, e.t, j);
    }
  }
}
