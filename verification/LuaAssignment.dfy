/** Assignment to locals: all values are computed first, then stored from the last one to the first. */
module LuaAssignment {
  import opened LuaValues
  import opened LuaVm
  import opened LuaPatch
  import opened LuaConstants
  import opened LuaCode
  import opened LuaShape
  import opened LuaShapeOps
  import opened LuaRuns
  import opened LuaSemantics
  import opened LuaSemanticsOps
  import opened LuaCompiler
  import opened LuaExprLists

  // ----- meaning -----

  /** `rg` after storing `vs` into the registers `rs`, the last one first. */
  function StoreRegs(rg: Regs, rs: seq<nat>, vs: seq<Value>): (rg': Regs)
    requires |rs| == |vs|
    ensures |rg'| == |rg|
    decreases |rs|
  {
    if rs == [] then rg
    else
      var k := |rs| - 1;
      StoreRegs(SetReg(rg, rs[k], vs[k]), rs[..k], vs[..k])
  }

  /** The first place of `r` in `rs`, or `|rs|`. */
  function FirstOf(rs: seq<nat>, r: nat): (i: nat)
    ensures i <= |rs| && (i < |rs| ==> rs[i] == r) && forall j :: 0 <= j < i ==> rs[j] != r
  {
    if rs == [] || rs[0] == r then 0 else 1 + FirstOf(rs[1..], r)
  }

  lemma FirstOfFront(rs: seq<nat>, r: nat)
    requires rs != []
    ensures
      var front := rs[..|rs| - 1];
      FirstOf(rs, r) ==
        if FirstOf(front, r) < |front| then FirstOf(front, r)
        else if rs[|rs| - 1] == r then |rs| - 1 else |rs|
  {
    var front := rs[..|rs| - 1];
    assert forall j :: 0 <= j < |front| ==> front[j] == rs[j];
  }

  /** A multiple assignment is simultaneous; of several values for one local the first wins. */
  lemma {:induction false} StoresFirst(rg: Regs, rs: seq<nat>, vs: seq<Value>, r: nat)
    requires |rs| == |vs| && r < |rg|
    ensures StoreRegs(rg, rs, vs)[r] == var i := FirstOf(rs, r); if i < |rs| then vs[i] else rg[r]
    decreases |rs|
  {
    if rs != [] {
      var k := |rs| - 1;
      FirstOfFront(rs, r);
      StoresFirst(SetReg(rg, rs[k], vs[k]), rs[..k], vs[..k], r);
    }
  }

  // ----- code -----

  /** luaK_storevar on a local. */
  function StoreLocal(s: State, r: nat, e: Exp): (s': State)
    requires KindOk(s.code, e.k)
    ensures Ext(s, s')
  {
    Exp2Reg(FreeExp(s, e), e, r).0
  }

  /** The value in the last register taken. */
  function TopValue(s: State): Exp {
    Exp(VNonReloc(if s.freereg > 0 then s.freereg - 1 else 0), [], [])
  }

  /** The returns of the nested calls of assignment: one local after the other, the last one first. */
  function StoreAll(s: State, rs: seq<nat>): (s': State)
    ensures Ext(s, s')
    decreases |rs|
  {
    if rs == [] then s else StoreAll(StoreLocal(s, rs[|rs| - 1], TopValue(s)), rs[..|rs| - 1])
  }

  /** ... extra values are removed. */
  function DropExtra(s: State, nvars: nat, nexps: nat): (s': State)
    ensures Ext(s, s')
  {
    if nexps > nvars && s.freereg >= nexps - nvars then s.(freereg := s.freereg - (nexps - nvars)) else s
  }

  /** assignment, when all variables are locals: the last value of a list of the right length
      is stored from where it is, all others from the registers they were put in. */
  function AssignAll(P: Prims, s: State, rs: seq<nat>, es: seq<Expr>): (s': State)
    ensures Grows(s, s')
  {
    if |es| == |rs| && rs != [] then
      var (s1, e1) := ExpList(P, s, es);
      StoreAll(StoreLocal(s1, rs[|rs| - 1], e1), rs[..|rs| - 1])
    else
      StoreAll(DropExtra(AdjustAssign(NextRegs(P, s, es), |rs|, |es|), |rs|, |es|), rs)
  }

  // ----- registers and lists -----

  lemma StoreLocalOk(s: State, e: Exp, r: nat, base: nat, r0: nat)
    requires ExpOk(s, e, base, r0) && r < s.nactvar && !StoreLocal(s, r, e).err
    ensures
      var s' := StoreLocal(s, r, e);
      && Wf(s') && Evolves(s, s', Own(e), base)
      && s'.freereg == r0 && s'.nactvar == s.nactvar && s'.maxstack == s.maxstack
  {
    hide CodeOk, PoolOk, FormOk, Exp2Reg, Evolves;
    FreeExpOk(s, e, r0);
    var s1 := FreeExp(s, e);
    assert ExpAt(s1, e, base);
    Exp2RegOk(s1, e, r, base);
    EvolvesFreed(s, s1, Exp2Reg(s1, e, r).0, Own(e), base);
  }

  lemma EvolvesFreed(s: State, s1: State, s': State, own: seq<nat>, base: nat)
    requires s1.code == s.code && s1.jpc == s.jpc && s1.lasttarget == s.lasttarget && Evolves(s1, s', own, base)
    ensures Evolves(s, s', own, base)
  {
    assert forall j: nat :: Foreign(s, own, j) ==> Foreign(s1, own, j);
  }

  /** The assertion of freereg holds: the last register taken is the one that is freed. */
  lemma TopOk(s: State)
    requires Wf(s) && s.nactvar < s.freereg
    ensures ExpOk(s, TopValue(s), |s.code|, s.freereg - 1) && Own(TopValue(s)) == []
  {
    hide CodeOk, PoolOk, FormOk;
  }

  /** Storing releases one register for each local. */
  lemma {:induction false} StoreAllOk(s: State, rs: seq<nat>)
    requires forall i :: 0 <= i < |rs| ==> rs[i] < s.nactvar
    requires Wf(s) && s.nactvar + |rs| <= s.freereg && !StoreAll(s, rs).err
    ensures
      var s' := StoreAll(s, rs);
      Wf(s') && Evolves(s, s', [], |s.code|) && s'.freereg == s.freereg - |rs| && s'.nactvar == s.nactvar
    decreases |rs|
  {
    hide Wf, StoreLocal, Evolves, ExpOk;
    if rs == [] { EvolvesNot(s); }
    else {
      var k := |rs| - 1;
      var s1 := StoreLocal(s, rs[k], TopValue(s));
      TopOk(s);
      StoreLocalOk(s, TopValue(s), rs[k], |s.code|, s.freereg - 1);
      StoreAllOk(s1, rs[..k]);
      EvolvesTwice(s, s1, StoreAll(s, rs));
    }
  }

  lemma DropExtraOk(s: State, nvars: nat, nexps: nat)
    requires Wf(s) && s.nactvar + nvars + (if nexps > nvars then nexps - nvars else 0) <= s.freereg
    ensures
      var s' := DropExtra(s, nvars, nexps);
      && Wf(s') && s'.freereg == s.freereg - (if nexps > nvars then nexps - nvars else 0) && s'.nactvar == s.nactvar
      && Evolves(s, s', [], |s.code|)
  {
    hide CodeOk, PoolOk, FormOk;
    assert forall j: nat :: Foreign(s, [], j) == Foreign(DropExtra(s, nvars, nexps), [], j);
  }

  /** The values of an assignment of unequal lengths, in as many registers as there are locals. */
  lemma PaddedOk(P: Prims, s: State, n: nat, es: seq<Expr>)
    requires Wf(s) && AllInScope(es, s.nactvar) && !AdjustAssign(NextRegs(P, s, es), n, |es|).err
    ensures
      var s' := DropExtra(AdjustAssign(NextRegs(P, s, es), n, |es|), n, |es|);
      Wf(s') && Evolves(s, s', [], |s.code|) && s'.freereg == s.freereg + n && s'.nactvar == s.nactvar
  {
    hide CodeOk, PoolOk, FormOk, NextRegs, AdjustAssign, DropExtra, Evolves;
    var s1 := NextRegs(P, s, es);
    var s2 := AdjustAssign(s1, n, |es|);
    NextRegsOk(P, s, es);
    AdjustAssignOk(s1, n, |es|);
    DropExtraOk(s2, n, |es|);
    EvolvesTwice(s, s1, s2);
    EvolvesTwice(s, s2, DropExtra(s2, n, |es|));
  }

  /** An assignment keeps the invariants and gives back every register it took. */
  lemma AssignOk(P: Prims, s: State, rs: seq<nat>, es: seq<Expr>)
    requires Wf(s) && AllInScope(es, s.nactvar) && (forall i :: 0 <= i < |rs| ==> rs[i] < s.nactvar)
    requires !AssignAll(P, s, rs, es).err
    ensures
      var s' := AssignAll(P, s, rs, es);
      Wf(s') && Evolves(s, s', [], |s.code|) && s'.freereg == s.freereg && s'.nactvar == s.nactvar
  {
    hide CodeOk, PoolOk, FormOk, NextRegs, ExpList, AdjustAssign, DropExtra, Evolves, StoreLocal, StoreAll, Compiled;
    if |es| == |rs| && rs != [] {
      var k := |rs| - 1;
      var s1, s2 := NextRegs(P, s, es[..k]), ExpList(P, s, es).0;
      var e2 := ExpList(P, s, es).1;
      ExpListOk(P, s, es);
      CompiledParts(s1, s2, e2);
      var s3 := StoreLocal(s2, rs[k], e2);
      StoreLocalOk(s2, e2, rs[k], |s1.code|, s1.freereg);
      EvolvesBoth(s1, s2, s3, e2);
      EvolvesTwice(s, s1, s3);
      StoreAllOk(s3, rs[..k]);
      EvolvesTwice(s, s3, StoreAll(s3, rs[..k]));
    } else {
      var s1 := DropExtra(AdjustAssign(NextRegs(P, s, es), |rs|, |es|), |rs|, |es|);
      PaddedOk(P, s, |rs|, es);
      StoreAllOk(s1, rs);
      EvolvesTwice(s, s1, StoreAll(s1, rs));
    }
  }

  // ----- runs -----

  /** luaK_storevar puts the value of any descriptor into the local and changes no other one. */
  lemma StoreLocalRun(c: Ctx, s: State, e: Exp, r: nat, base: nat, rg: Regs, v: Value, r0: nat)
    requires Begun(c, s)
    requires ExpOk(s, e, base, r0) && r < s.nactvar && |rg| == |c.regs|
    requires !StoreLocal(s, r, e).err && Fits(c, StoreLocal(s, r, e))
    ensures
      var o, o' := RunOf(c, s, e.k), Out(c, StoreLocal(s, r, e));
      && (LeavesElsewhere(o, e) ==> o' == o)
      && (Computes(c, s, e, rg, v, r0) ==> Delivers(o', rg, r, v, r0))
  {
    hide CodeOk, PoolOk, FormOk, Exp2Reg, Evolves, Discharge, Run, RunOf, Computes;
    FreeExpOk(s, e, r0);
    var s1 := FreeExp(s, e);
    assert ExpAt(s1, e, base);
    TracksSameCode(c, s, s1, e, rg, v, r0);
    Exp2RegOk(s1, e, r, base);
    Exp2RegRun(c, s1, e, r, base, rg, v, r0);
  }

  /** The registers from `base` on hold `vs`. */
  predicate HoldsFrom(rg: Regs, base: nat, vs: seq<Value>) {
    base + |vs| <= |rg| && rg[base..base + |vs|] == vs
  }

  /** A run that goes on stores `vs`, which the registers from `base` on hold, into the locals
      `rs`; another one is as it was. */
  predicate StoresAll(o: Outcome, o': Outcome, rs: seq<nat>, vs: seq<Value>, rg: Regs, n: nat, base: nat) {
    && |rs| == |vs|
    && (o.Fall? && Agree(o.regs, rg, n) && HoldsFrom(o.regs, base, vs) ==>
          o'.Fall? && Agree(o'.regs, StoreRegs(rg, rs, vs), n))
    && (Gone(o) ==> o' == o)
  }

  lemma TopRun(c: Ctx, s: State, r: nat)
    requires Begun(c, s)
    requires Wf(s) && r < s.nactvar < s.freereg && !StoreLocal(s, r, TopValue(s)).err
    requires Fits(c, StoreLocal(s, r, TopValue(s)))
    ensures
      var o, o' := Out(c, s), Out(c, StoreLocal(s, r, TopValue(s)));
      && (Gone(o) ==> o' == o)
      && (o.Fall? ==> s.freereg <= |o.regs| && Delivers(o', o.regs, r, o.regs[s.freereg - 1], s.freereg - 1))
  {
    hide CodeOk, PoolOk, FormOk, StoreLocal, Discharge, Run;
    var o := Out(c, s);
    TopOk(s);
    if o.Fall? { StoreLocalRun(c, s, TopValue(s), r, |s.code|, o.regs, o.regs[s.freereg - 1], s.freereg - 1); }
    else if Gone(o) { StoreLocalRun(c, s, TopValue(s), r, |s.code|, c.regs, Nil, s.freereg - 1); }
  }

  lemma StoreOneMore(o: Outcome, o1: Outcome, o': Outcome, rs: seq<nat>, vs: seq<Value>, rg: Regs, n: nat, base: nat)
    requires |rs| == |vs| > 0 && n <= base && rs[|rs| - 1] < n
    requires
      var k := |rs| - 1;
      && (Gone(o) ==> o1 == o)
      && (o.Fall? ==> base + k < |o.regs| && Delivers(o1, o.regs, rs[k], o.regs[base + k], base + k))
      && StoresAll(o1, o', rs[..k], vs[..k], SetReg(rg, rs[k], vs[k]), n, base)
    ensures StoresAll(o, o', rs, vs, rg, n, base)
  {
    hide StoreRegs;
    var k := |rs| - 1;
    if o.Fall? && Agree(o.regs, rg, n) && HoldsFrom(o.regs, base, vs) {
      assert o.regs[base..base + |vs|][k] == vs[k];
      KeptBelow(o.regs, o1.regs, rs[k], base, vs);
      assert StoreRegs(rg, rs, vs) ==
        StoreRegs(SetReg(rg, rs[k], vs[k]), rs[..k], vs[..k]) by { UnfoldStore(rg, rs, vs); }
    }
  }

  lemma UnfoldStore(rg: Regs, rs: seq<nat>, vs: seq<Value>)
    requires |rs| == |vs| > 0
    ensures var k := |rs| - 1; StoreRegs(rg, rs, vs) == StoreRegs(SetReg(rg, rs[k], vs[k]), rs[..k], vs[..k])
  {}

  lemma KeptBelow(rg: Regs, rg1: Regs, r: nat, base: nat, vs: seq<Value>)
    requires |rg1| == |rg| && vs != [] && HoldsFrom(rg, base, vs) && r < base
    requires forall i :: 0 <= i < base + |vs| - 1 && i < |rg| && i != r ==> rg1[i] == rg[i]
    ensures HoldsFrom(rg1, base, vs[..|vs| - 1])
  {
    forall i | 0 <= i < |vs| - 1 ensures rg1[base + i] == vs[i] {
      assert rg[base..base + |vs|][i] == vs[i];
    }
  }

  lemma {:induction false} StoreAllRun(c: Ctx, s: State, rs: seq<nat>, vs: seq<Value>, rg: Regs, base: nat)
    requires Begun(c, s)
    requires Wf(s) && |rs| == |vs| && s.nactvar <= base && s.freereg == base + |rs|
    requires (forall i :: 0 <= i < |rs| ==> rs[i] < s.nactvar)
    requires !StoreAll(s, rs).err && Fits(c, StoreAll(s, rs))
    ensures StoresAll(Out(c, s), Out(c, StoreAll(s, rs)), rs, vs, rg, s.nactvar, base)
    decreases |rs|
  {
    hide Wf, StoreLocal, Evolves, ExpOk, Out, StoresAll, StoreRegs;
    if rs == [] { StoreNothing(Out(c, s), rg, s.nactvar, base); }
    else {
      var k := |rs| - 1;
      var s1 := StoreLocal(s, rs[k], TopValue(s));
      TopOk(s);
      StoreLocalOk(s, TopValue(s), rs[k], |s.code|, s.freereg - 1);
      TopRun(c, s, rs[k]);
      StoreAllRun(c, s1, rs[..k], vs[..k], SetReg(rg, rs[k], vs[k]), base);
      StoreOneMore(Out(c, s), Out(c, s1), Out(c, StoreAll(s, rs)), rs, vs, rg, s.nactvar, base);
    }
  }

  lemma StoreNothing(o: Outcome, rg: Regs, n: nat, base: nat)
    ensures StoresAll(o, o, [], [], rg, n, base)
  {}

  /** What an assignment does to a run: it stores the adjusted values, all of them computed
      from the registers the assignment was reached with. */
  predicate Assigns(o: Outcome, o': Outcome, P: Prims, rs: seq<nat>, es: seq<Expr>, rg: Regs, n: nat) {
    && (o.Fall? && Agree(o.regs, rg, n) ==>
          o'.Fall? && Agree(o'.regs, StoreRegs(rg, rs, Adjusted(Values(P, es, rg), |rs|)), n))
    && (Gone(o) ==> o' == o)
  }

  lemma HeldAbove(rg1: Regs, rg: Regs, n: nat, vs: seq<Value>)
    requires n + |vs| <= |rg| && Agree(rg1, PutRegs(rg, n, vs), n + |vs|)
    ensures Agree(rg1, rg, n) && HoldsFrom(rg1, n, vs)
  {
    var rg2 := PutRegs(rg, n, vs);
    forall i | 0 <= i < |vs| ensures rg1[n + i] == vs[i] { assert rg1[n + i] == rg2[n + i]; }
    forall i | 0 <= i < n ensures rg1[i] == rg[i] { assert rg1[i] == rg2[i]; }
  }

  lemma AssignPadded(c: Ctx, s: State, rs: seq<nat>, es: seq<Expr>, rg: Regs)
    requires Begun(c, s)
    requires Wf(s) && s.freereg == s.nactvar && AllInScope(es, s.nactvar) && c.env.P.FoldsFaithfully()
    requires (|es| != |rs| || rs == []) && forall i :: 0 <= i < |rs| ==> rs[i] < s.nactvar
    requires !AssignAll(c.env.P, s, rs, es).err && Fits(c, AssignAll(c.env.P, s, rs, es))
    ensures Assigns(Out(c, s), Out(c, AssignAll(c.env.P, s, rs, es)), c.env.P, rs, es, rg, s.nactvar)
  {
    hide CodeOk, PoolOk, FormOk, NextRegs, AdjustAssign, Evolves, Out, StoreAll, Agree, Values, Adjusted, StoreRegs;
    var P, n := c.env.P, s.nactvar;
    var s2 := AdjustAssign(NextRegs(P, s, es), |rs|, |es|);
    var s3 := DropExtra(s2, |rs|, |es|);
    PaddedOk(P, s, |rs|, es);
    LocalsRun(c, s, |rs|, es, rg);
    OnlyCode(c, s2, s3);
    var vs := Adjusted(Values(P, es, rg), |rs|);
    StoreAllRun(c, s3, rs, vs, rg, n);
    var o := Out(c, s);
    if o.Fall? && Agree(o.regs, rg, n) {
      SameFrame(Out(c, s3).regs, PutRegs(rg, n, vs), n + |rs|);
      FrameHolds(c, s3);
      HeldAbove(Out(c, s3).regs, rg, n, vs);
    }
  }

  /** The last value of a list of the right length, stored from where it was computed. */
  lemma LastStored(o: Outcome, o1: Outcome, o3: Outcome, P: Prims, rs: seq<nat>, es: seq<Expr>, rg: Regs, n: nat)
    requires |rs| == |es| > 0 && AllInScope(es, n) && rs[|rs| - 1] < n
    requires PutsAll(o, o1, P, es[..|es| - 1], n)
    requires o1.Fall? ==> Delivers(o3, o1.regs, rs[|rs| - 1], Eval(P, es[|es| - 1], o1.regs), n + |es| - 1)
    requires o.Fall? && Agree(o.regs, rg, n)
    ensures
      var k, vs := |rs| - 1, Values(P, es, rg);
      o3.Fall? && Agree(o3.regs, SetReg(rg, rs[k], vs[k]), n) && HoldsFrom(o3.regs, n, vs[..k])
  {
    hide InScope, Eval, PutRegs;
    var k, vs := |rs| - 1, Values(P, es, rg);
    var front := Values(P, es[..k], o.regs);
    SameFrame(o1.regs, PutRegs(o.regs, n, front), n + k);
    HeldAbove(o1.regs, o.regs, n, front);
    ValuesAgree(P, es, o.regs, rg, n);
    EvalAgree(P, es[k], o1.regs, rg, n);
    assert front == vs[..k] by { assert Values(P, es, o.regs)[..k] == front; }
    if k > 0 { KeptFront(o1.regs, o3.regs, rs[k], n, vs[..k]); }
  }

  lemma KeptFront(rg: Regs, rg1: Regs, r: nat, base: nat, vs: seq<Value>)
    requires |rg1| == |rg| && HoldsFrom(rg, base, vs) && r < base
    requires forall i :: 0 <= i < base + |vs| && i < |rg| && i != r ==> rg1[i] == rg[i]
    ensures HoldsFrom(rg1, base, vs)
  {
    assert rg1[base..base + |vs|] == rg[base..base + |vs|];
  }

  lemma AssignEqual(c: Ctx, s: State, rs: seq<nat>, es: seq<Expr>, rg: Regs)
    requires Begun(c, s)
    requires Wf(s) && s.freereg == s.nactvar && AllInScope(es, s.nactvar) && c.env.P.FoldsFaithfully()
    requires |es| == |rs| && rs != [] && forall i :: 0 <= i < |rs| ==> rs[i] < s.nactvar
    requires !AssignAll(c.env.P, s, rs, es).err && Fits(c, AssignAll(c.env.P, s, rs, es))
    ensures Assigns(Out(c, s), Out(c, AssignAll(c.env.P, s, rs, es)), c.env.P, rs, es, rg, s.nactvar)
  {
    hide CodeOk, PoolOk, FormOk, NextRegs, ExpList, Evolves, Out, RunOf, StoreAll, StoreLocal, Agree, Values,
      StoreRegs, PutsAll, HoldsFrom, Eval, Compiled, Computes;
    var P, n, k := c.env.P, s.nactvar, |rs| - 1;
    var s1, s2, e2 := NextRegs(P, s, es[..k]), ExpList(P, s, es).0, ExpList(P, s, es).1;
    var s3 := StoreLocal(s2, rs[k], e2);
    var o, o1, o3 := Out(c, s), Out(c, s1), Out(c, s3);
    ExpListOk(P, s, es);
    CompiledParts(s1, s2, e2);
    ExpListRun(c, s, es);
    StoreLocalOk(s2, e2, rs[k], |s1.code|, s1.freereg);
    if o1.Fall? { StoreLocalRun(c, s2, e2, rs[k], |s1.code|, o1.regs, Eval(P, es[k], o1.regs), s1.freereg); }
    else if Gone(o1) {
      StoreLocalRun(c, s2, e2, rs[k], |s1.code|, c.regs, Nil, s1.freereg);
      EarlierExit(c, s1, s2, e2);
    }
    var vs := Values(P, es, rg);
    StoreAllRun(c, s3, rs[..k], vs[..k], SetReg(rg, rs[k], vs[k]), n);
    assert Adjusted(vs, |rs|) == vs;
    UnfoldStore(rg, rs, vs);
    if o.Fall? && Agree(o.regs, rg, n) { LastStored(o, o1, o3, P, rs, es, rg, n); }
    else if Gone(o) { GonePuts(o, o1, P, es[..k], n); }
  }

  /** All values but the last are in registers, the last one is where its descriptor says. */
  lemma ExpListRun(c: Ctx, s: State, es: seq<Expr>)
    requires Begun(c, s)
    requires Wf(s) && AllInScope(es, s.nactvar) && es != [] && c.env.P.FoldsFaithfully()
    requires !ExpList(c.env.P, s, es).0.err && Fits(c, ExpList(c.env.P, s, es).0)
    ensures
      var s1 := NextRegs(c.env.P, s, es[..|es| - 1]);
      var (s2, e2) := ExpList(c.env.P, s, es);
      && PutsAll(Out(c, s), Out(c, s1), c.env.P, es[..|es| - 1], s.freereg)
      && Evaluates(c, s1, s2, e2, Meaning(c.env.P, es[|es| - 1]))
  {
    hide Wf, Compile, Evolves, NextRegs, Out, PutsAll, Evaluates;
    var front := es[..|es| - 1];
    NextRegsOk(c.env.P, s, front);
    NextRegsRun(c, s, front);
    CompileRun(c, NextRegs(c.env.P, s, front), es[|es| - 1]);
  }

  /** Assignment correctness, for any number of locals and any number of values. */
  lemma AssignRun(c: Ctx, s: State, rs: seq<nat>, es: seq<Expr>, rg: Regs)
    requires Begun(c, s)
    requires Wf(s) && s.freereg == s.nactvar && AllInScope(es, s.nactvar) && c.env.P.FoldsFaithfully()
    requires forall i :: 0 <= i < |rs| ==> rs[i] < s.nactvar
    requires !AssignAll(c.env.P, s, rs, es).err && Fits(c, AssignAll(c.env.P, s, rs, es))
    ensures Assigns(Out(c, s), Out(c, AssignAll(c.env.P, s, rs, es)), c.env.P, rs, es, rg, s.nactvar)
  {
    if |es| == |rs| && rs != [] { AssignEqual(c, s, rs, es, rg); } else { AssignPadded(c, s, rs, es, rg); }
  }
}
