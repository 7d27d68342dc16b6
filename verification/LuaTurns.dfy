/** Runs through loops: a jump back ends one forward run and starts the next, which is its turn. */
module LuaTurns {
  import opened LuaOpcodes
  import opened LuaVm
  import opened LuaPatch
  import opened LuaConstants
  import opened LuaCode
  import opened LuaShape
  import opened LuaRuns
  import opened LuaSemantics
  import opened LuaStatements

  /** The forward run that a jump back starts. */
  function Resumed(c: Ctx, o: Outcome): Ctx
    requires o.Back?
  {
    Ctx(c.env, o.regs, o.pc)
  }

  /** After exactly `turns` jumps back the run `c` is at its forward run `c2`. */
  ghost predicate Reaches(c: Ctx, s: State, turns: nat, c2: Ctx)
    decreases turns
  {
    if turns == 0 then c2 == c
    else Out(c, s).Back? && Reaches(Resumed(c, Out(c, s)), s, turns - 1, c2)
  }

  /** The run jumps back at most `turns` times. */
  predicate Settled(c: Ctx, s: State, turns: nat)
    decreases turns
  {
    Out(c, s).Back? ==> turns > 0 && Settled(Resumed(c, Out(c, s)), s, turns - 1)
  }

  /** Forward runs of the same function. */
  ghost predicate Alike(c: Ctx, c': Ctx) { c'.env == c.env && |c'.regs| == |c.regs| }

  /** What had ended or left at `s` is the same at `s'`. */
  predicate Stays(c: Ctx, s: State, s': State) { Gone(Out(c, s)) ==> Out(c, s') == Out(c, s) }

  /** Jumps back stay jumps back. */
  ghost predicate KeepsTurns(c: Ctx, s: State, s': State) {
    forall c' :: Alike(c, c') && Begun(c', s) && Out(c', s).Back? ==> Out(c', s') == Out(c', s)
  }

  // ----- jumps back lead to labels -----

  lemma {:induction false} BackToLabel(env: Env, code: seq<Instr>, target: nat, labels: set<nat>, pc: nat, rg: Regs)
    requires LabelsOk(code, target, labels) && Exec(env, code, pc, rg).Back?
    ensures Exec(env, code, pc, rg).pc in labels
    decreases |code| - pc
  {
    hide Rhs, Rk, Scratch, Nils;
    match StepAt(env, code, pc, rg)
    case Next(pc', rg') => BackToLabel(env, code, target, labels, pc', rg');
    case _ =>
  }

  lemma DischargeLabels(s: State)
    requires Wf(s)
    ensures LabelsOk(Discharge(s).code, s.lasttarget, s.labels)
  {
    hide PoolOk, CodeOk;
    assert forall q: nat :: Entry(s.code, q) ==> Entry(Discharge(s).code, q);
  }

  /** A jump back starts a forward run of the same function at a label. */
  lemma ResumedOk(c: Ctx, s: State)
    requires Wf(s) && Begun(c, s) && Out(c, s).Back?
    ensures Begun(Resumed(c, Out(c, s)), s) && Alike(c, Resumed(c, Out(c, s)))
  {
    DischargeLabels(s);
    BackToLabel(c.env, Discharge(s).code, s.lasttarget, s.labels, c.start, c.regs);
  }

  lemma {:induction false} ReachesOk(c: Ctx, s: State, turns: nat, c2: Ctx)
    requires Wf(s) && Begun(c, s) && Reaches(c, s, turns, c2)
    ensures Begun(c2, s) && Alike(c, c2)
    decreases turns
  {
    hide Wf, Out;
    if turns > 0 {
      ResumedOk(c, s);
      ReachesOk(Resumed(c, Out(c, s)), s, turns - 1, c2);
    }
  }

  lemma {:induction false} ReachesBoth(c: Ctx, s: State, m: nat, c1: Ctx, n: nat, c2: Ctx)
    requires Reaches(c, s, m, c1) && Reaches(c1, s, n, c2)
    ensures Reaches(c, s, m + n, c2)
    decreases m
  {
    hide Out;
    if m > 0 { ReachesBoth(Resumed(c, Out(c, s)), s, m - 1, c1, n, c2); }
  }

  lemma {:induction false} ReachesMore(c: Ctx, s: State, s': State, turns: nat, c2: Ctx)
    requires Between(s) && Begun(c, s) && KeepsTurns(c, s, s') && Reaches(c, s, turns, c2)
    ensures Reaches(c, s', turns, c2)
    decreases turns
  {
    hide Wf, Out;
    if turns > 0 {
      ResumedOk(c, s);
      ReachesMore(Resumed(c, Out(c, s)), s, s', turns - 1, c2);
    }
  }

  lemma {:induction false} SettledBefore(c: Ctx, s: State, s': State, turns: nat)
    requires Between(s) && Begun(c, s) && KeepsTurns(c, s, s') && Settled(c, s', turns)
    ensures Settled(c, s, turns)
    decreases turns
  {
    hide Wf, Out;
    if Out(c, s).Back? {
      ResumedOk(c, s);
      SettledBefore(Resumed(c, Out(c, s)), s, s', turns - 1);
    }
  }

  /** A run that has made some of its turns has the others left. */
  lemma {:induction false} SettledAfter(c: Ctx, s: State, turns: nat, m: nat, c2: Ctx)
    requires Settled(c, s, turns) && Reaches(c, s, m, c2)
    ensures m <= turns && Settled(c2, s, turns - m)
    decreases m
  {
    hide Out;
    if m > 0 { SettledAfter(Resumed(c, Out(c, s)), s, turns - 1, m - 1, c2); }
  }

  lemma {:induction false} SettledMore(c: Ctx, s: State, turns: nat, more: nat)
    requires Settled(c, s, turns) && turns <= more
    ensures Settled(c, s, more)
    decreases turns
  {
    hide Out;
    if Out(c, s).Back? { SettledMore(Resumed(c, Out(c, s)), s, turns - 1, more - 1); }
  }

  // ----- whole runs -----

  /** A whole run: as far as it gets with at most `turns` jumps back. */
  function Whole(env: Env, code: seq<Instr>, pc: nat, rg: Regs, turns: nat): Outcome
    decreases turns
  {
    match Exec(env, code, pc, rg)
    case Back(pc', rg') => if turns == 0 then Back(pc', rg') else Whole(env, code, pc', rg', turns - 1)
    case o => o
  }

  lemma {:induction false} WholeMore(env: Env, code: seq<Instr>, pc: nat, rg: Regs, turns: nat, k: nat)
    requires !Whole(env, code, pc, rg, turns).Back?
    ensures Whole(env, code, pc, rg, turns + k) == Whole(env, code, pc, rg, turns)
    decreases turns
  {
    hide Exec;
    match Exec(env, code, pc, rg)
    case Back(pc', rg') => WholeMore(env, code, pc', rg', turns - 1, k);
    case _ =>
  }

  /** A run that ends has one end. */
  lemma WholeOnce(env: Env, code: seq<Instr>, pc: nat, rg: Regs, m: nat, n: nat)
    requires !Whole(env, code, pc, rg, m).Back? && !Whole(env, code, pc, rg, n).Back?
    ensures Whole(env, code, pc, rg, m) == Whole(env, code, pc, rg, n)
  {
    if m <= n { WholeMore(env, code, pc, rg, m, n - m); } else { WholeMore(env, code, pc, rg, n, m - n); }
  }

  lemma {:induction false} WholeReaches(c: Ctx, s: State, turns: nat, c2: Ctx)
    requires s.jpc == [] && Reaches(c, s, turns, c2) && !Out(c2, s).Back?
    ensures Whole(c.env, s.code, c.start, c.regs, turns) == Out(c2, s)
    decreases turns
  {
    hide Out, Exec;
    OutWithoutJumps(c, s);
    if turns > 0 { WholeReaches(Resumed(c, Out(c, s)), s, turns - 1, c2); }
  }

  lemma {:induction false} WholeSettled(c: Ctx, s: State, turns: nat)
    requires s.jpc == [] && !Whole(c.env, s.code, c.start, c.regs, turns).Back?
    ensures Settled(c, s, turns)
    decreases turns
  {
    hide Out, Exec;
    OutWithoutJumps(c, s);
    if Out(c, s).Back? { WholeSettled(Resumed(c, Out(c, s)), s, turns - 1); }
  }

  // ----- the end of a loop -----

  /** A jump is never left before it is reached. */
  lemma {:induction false} ExitAhead(env: Env, code: seq<Instr>, target: nat, pc: nat, rg: Regs)
    requires CodeOk(code, target) && Entry(code, pc) && Exec(env, code, pc, rg).Exit?
    ensures pc <= Exec(env, code, pc, rg).node
    decreases |code| - pc
  {
    hide StepAt, CodeOk;
    StepAdvances(env, code, target, pc, rg);
    match StepAt(env, code, pc, rg)
    case Next(pc', rg') => ExitAhead(env, code, target, pc', rg');
    case _ =>
  }

  /** Going on from `head` with registers `rg`: in the next forward run or, when `head` is still
      ahead, in this one. */
  predicate StartsOver(c: Ctx, s: State, head: nat, rg: Regs) {
    || Out(c, s) == Back(head, rg)
    || (c.start < head && Out(c, s) == Out(Ctx(c.env, rg, head), s))
  }

  /** What left through `js` goes on from `head`. */
  predicate Redirects(c: Ctx, o: Outcome, s': State, js: seq<nat>, head: nat) {
    if o.Exit? && o.node in js then StartsOver(c, s', head, o.regs) else Out(c, s') == o
  }

  /** What left through `nodes` reaches the end. */
  function Landed(o: Outcome, nodes: seq<nat>): Outcome {
    if o.Exit? && o.node in nodes then Fall(o.regs) else o
  }

  /** Patching jumps to an earlier place: exactly the runs that left through them go on there. */
  lemma PatchBackRun(c: Ctx, s: State, js: seq<nat>, head: nat)
    requires Begun(c, s)
    requires Wf(s) && ListOk(s, js, 0) && head in s.labels && !PatchList(s, js, head, NO_REG, head).err
    ensures Redirects(c, Out(c, s), PatchList(s, js, head, NO_REG, head), js, head)
  {
    hide Patch, PatchAt, CodeOk, PoolOk, FormOk, Exec, Entry;
    var s' := PatchList(s, js, head, NO_REG, head);
    var d, n := Discharge(s).code, |s.code|;
    PatchCommutes(s.code, s.jpc, n, js, head, NO_REG, head);
    DischargeShape(s);
    PatchKeepsOthers(s.code, s.jpc, n, NO_REG, n, js);
    Starts(c, s);
    WithinReach(s, js, head);
    ExecPatchBack(c.env, d, js, head, s.lasttarget, c.start, c.regs);
    if Out(c, s).Exit? { ExitAhead(c.env, d, s.lasttarget, c.start, c.regs); }
  }

  lemma WithinReach(s: State, js: seq<nat>, head: nat)
    requires Pending(s.code, js) && !PatchList(s, js, head, NO_REG, head).err
    ensures forall j :: j in js ==> head - (j + 1) != OPEN
  {
    forall j | j in js ensures !Far(j, head) {}
  }

  /** luaK_patchlist, to an earlier place or to here. */
  lemma PatchToRun(c: Ctx, s: State, js: seq<nat>, head: nat)
    requires Begun(c, s)
    requires Wf(s) && ListOk(s, js, 0) && head in s.labels && !PatchTo(s, js, head).err
    ensures Redirects(c, Out(c, s), PatchTo(s, js, head), js, head)
  {
    hide CodeOk, PoolOk, FormOk, Exec, Patch, Entry;
    if head == |s.code| {
      PatchToHereRun(c, s, js);
      Starts(c, s);
      DischargeShape(s);
      if Out(c, s).Exit? {
        ExitAhead(c.env, Discharge(s).code, s.lasttarget, c.start, c.regs);
        AtTheEnd(Ctx(c.env, Out(c, s).regs, head), PatchTo(s, js, head));
      }
    } else { PatchBackRun(c, s, js, head); }
  }

  lemma AtTheEnd(c: Ctx, s: State)
    requires c.start == |s.code|
    ensures Out(c, s) == Fall(c.regs)
  {}

  lemma {:induction false} PatchEachRun(c: Ctx, s: State, gt: Gotos)
    requires Begun(c, s)
    requires Wf(s) && ListOk(s, Flat(gt), 0) && !PatchEach(s, gt).err
    ensures Out(c, PatchEach(s, gt)) == Landed(Out(c, s), Flat(gt))
    decreases |gt|
  {
    hide CodeOk, PoolOk, FormOk, Out, PatchToHere;
    if gt != [] {
      var k := |gt| - 1;
      var s1 := PatchEach(s, gt[..k]);
      ListParts(s, Flat(gt[..k]), gt[k], 0);
      PatchEachRun(c, s, gt[..k]);
      PatchEachOk(s, gt[..k]);
      KeepsList(s, s1, Flat(gt[..k]), gt[k], 0);
      PatchToHereRun(c, s1, gt[k]);
    }
  }

  lemma StillStartsOver(c: Ctx, s: State, s': State, head: nat, rg: Regs, nodes: seq<nat>)
    requires StartsOver(c, s, head, rg)
    requires Out(c, s') == Landed(Out(c, s), nodes)
    requires c.start < head ==> Out(Ctx(c.env, rg, head), s') == Landed(Out(Ctx(c.env, rg, head), s), nodes)
    ensures StartsOver(c, s', head, rg)
  {
    hide Out;
  }

  /** The end of a loop: its jumps back start it over, its breaks get behind it. */
  lemma EndLoopRun(c: Ctx, s: State, js: seq<nat>, head: nat, breaks: Gotos)
    requires Begun(c, s)
    requires Between(s) && Apart(s, js, Flat(breaks)) && head in s.labels && !EndLoop(s, js, head, breaks).err
    ensures
      var o, s' := Out(c, s), EndLoop(s, js, head, breaks);
      if o.Exit? && o.node in js then StartsOver(c, s', head, o.regs) else Out(c, s') == Landed(o, Flat(breaks))
  {
    hide CodeOk, PoolOk, FormOk, Out, PatchTo, PatchEach, StartsOver;
    var s1 := PatchTo(s, js, head);
    PatchToOk(s, js, head);
    PatchToRun(c, s, js, head);
    KeepsList(s, s1, js, Flat(breaks), 0);
    PatchEachRun(c, s1, breaks);
    if Out(c, s).Exit? && Out(c, s).node in js {
      var rg := Out(c, s).regs;
      PatchEachRun(Ctx(c.env, rg, head), s1, breaks);
      StillStartsOver(c, s1, PatchEach(s1, breaks), head, rg, Flat(breaks));
    }
  }

  /** A run that has left does so through a jump of a list other than `jpc`. */
  lemma NotOnList(c: Ctx, s: State, js: seq<nat>)
    requires Between(s) && Begun(c, s) && EscapesFrom(s, [], js) && Out(c, s).Exit?
    ensures Out(c, s).node !in js
  {}

  /** The end of a while loop: a run that gets there starts the loop over. */
  lemma EndWhileRun(c: Ctx, s: State, head: nat, jf: seq<nat>, breaks: Gotos)
    requires Begun(c, s)
    requires Between(s) && Apart(s, jf, Flat(breaks)) && head in s.labels && !EndWhile(s, head, jf, breaks).err
    ensures
      var o, s' := Out(c, s), EndWhile(s, head, jf, breaks);
      if o.Fall? then StartsOver(c, s', head, o.regs) else Out(c, s') == Landed(o, Flat(breaks) + jf)
  {
    hide Wf, Out, EndLoop, StartsOver, PatchToHere, ListOk, Keeps;
    var o := Out(c, s);
    var (s1, js) := Jump(s);
    var s2 := EndLoop(s1, js, head, breaks);
    NoList(s);
    JumpExtends(s, jf);
    JumpExtends(s, Flat(breaks));
    ApartSym(s1, Flat(breaks), js);
    ApartSym(s1, jf, js);
    StayApart(s, s1, jf, Flat(breaks));
    ApartSym(s1, jf, Flat(breaks));
    JumpRun(c, s);
    EndLoopRun(c, s1, js, head, breaks);
    if o.Exit? { NotOnList(c, s, js); }
    SettlesSame(s1);
    EndLoopKeeps(s1, js, head, breaks, jf);
    PatchToHereRun(c, s2, jf);
    if o.Fall? {
      PatchToHereRun(Ctx(c.env, o.regs, head), s2, jf);
      StillStartsOver(c, s2, PatchToHere(s2, jf), head, o.regs, jf);
    }
  }

  lemma EndLoopKeeps(s: State, js: seq<nat>, head: nat, breaks: Gotos, xs: seq<nat>)
    requires Wf(s) && Apart(s, js, Flat(breaks)) && Apart(s, js, xs) && Apart(s, Flat(breaks), xs)
    requires head in s.labels && !EndLoop(s, js, head, breaks).err
    ensures var s' := EndLoop(s, js, head, breaks); Wf(s') && ListOk(s', xs, 0)
  {
    hide CodeOk, PoolOk, FormOk, PatchTo, PatchEach, Distinct;
    var s1 := PatchTo(s, js, head);
    PatchToOk(s, js, head);
    KeepsList(s, s1, js, Flat(breaks), 0);
    KeepsList(s, s1, js, xs, 0);
    PatchEachOk(s1, breaks);
    KeepsList(s1, PatchEach(s1, breaks), Flat(breaks), xs, 0);
  }
}
