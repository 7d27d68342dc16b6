/** Lists of expressions, as they stand in declarations and returns. */
module LuaExprLists {
  import opened LuaValues
  import opened LuaOpcodes
  import opened LuaVm
  import opened LuaPatch
  import opened LuaConstants
  import opened LuaCode
  import opened LuaShape
  import opened LuaEncoding
  import opened LuaShapeOps
  import opened LuaRuns
  import opened LuaSemantics
  import opened LuaSemanticsOps
  import opened LuaCompiler

  predicate AllInScope(es: seq<Expr>, n: nat) {
    forall i :: 0 <= i < |es| ==> InScope(es[i], n)
  }

  function Values(P: Prims, es: seq<Expr>, rg: Regs): (vs: seq<Value>)
    ensures |vs| == |es|
  {
    seq(|es|, i requires 0 <= i < |es| => Eval(P, es[i], rg))
  }

  /** As many values as there are names: excess values are dropped, missing ones are nil. */
  function Adjusted(vs: seq<Value>, n: nat): (r: seq<Value>)
    ensures |r| == n
  {
    if n <= |vs| then vs[..n] else vs + seq(n - |vs|, _ => Nil)
  }

  /** `rg` with the registers from `base` holding `vs`. */
  function PutRegs(rg: Regs, base: nat, vs: seq<Value>): (rg': Regs)
    ensures |rg'| == |rg|
  {
    if base + |vs| <= |rg| then rg[..base] + vs + rg[base + |vs|..] else rg
  }

  /** Nothing the state has promised is withdrawn. */
  predicate Grows(s: State, s': State) {
    && (s.err ==> s'.err) && s.pool.k <= s'.pool.k && s.maxstack <= s'.maxstack && |s.code| <= |s'.code|
    && s.labels <= s'.labels
  }

  /** All expressions of a list in the next registers. */
  function NextRegs(P: Prims, s: State, es: seq<Expr>): (s': State)
    ensures Grows(s, s')
    decreases |es|, 1
  {
    if es == [] then s
    else
      var (s1, e1) := ExpList(P, s, es);
      Exp2NextReg(s1, e1).0
  }

  /** explist: all but the last expression are in the next registers. */
  function ExpList(P: Prims, s: State, es: seq<Expr>): (r: (State, Exp))
    requires es != []
    ensures Grows(s, r.0) && KindOk(r.0.code, r.1.k)
    decreases |es|, 0
  {
    Compile(P, NextRegs(P, s, es[..|es| - 1]), es[|es| - 1])
  }

  /** adjust_assign, after the last expression: nil for names without a value. */
  function AdjustAssign(s: State, nvars: nat, nexps: nat): (s': State)
    ensures Ext(s, s')
  {
    if nvars > nexps then LoadNils(ReserveRegs(s, nvars - nexps), s.freereg, nvars - nexps) else s
  }

  /** retstat. */
  function ReturnValues(P: Prims, s: State, es: seq<Expr>): (s': State)
    ensures Grows(s, s')
  {
    if es == [] then Emit(s, Return(0, 1))
    else
      var (s1, e1) := ExpList(P, s, es);
      if |es| == 1 then
        var (s2, e2) := Exp2AnyReg(s1, e1);
        Emit(s2, Return(e2.k.info, 2))
      else
        var s2 := Exp2NextReg(s1, e1).0;
        Emit(s2, Return(s2.nactvar, |es| + 1))
  }

  // ----- registers and lists -----

  /** The register discipline: an expression compiled to the next register takes exactly one. */
  lemma NextRegTakesOne(P: Prims, s: State, ex: Expr)
    requires Wf(s) && InScope(ex, s.nactvar)
    requires var (s1, e1) := Compile(P, s, ex); !Exp2NextReg(s1, e1).0.err
    ensures
      var (s1, e1) := Compile(P, s, ex);
      var (s', e') := Exp2NextReg(s1, e1);
      && Wf(s') && s'.freereg == s.freereg + 1 <= s'.maxstack && s'.nactvar == s.nactvar
      && e' == Exp(VNonReloc(s.freereg), [], [])
      && Evolves(s, s', [], |s.code|)
  {
    hide CodeOk, PoolOk, FormOk, Compile, Exp2NextReg, Evolves;
    var (s1, e1) := Compile(P, s, ex);
    CompileOk(P, s, ex);
    Exp2NextRegOk(s1, e1, |s.code|, s.freereg);
    EvolvesBoth(s, s1, Exp2NextReg(s1, e1).0, e1);
  }

  lemma EvolvesBoth(s: State, s1: State, s': State, e1: Exp)
    requires Compiled(s, s1, e1) && Ext(s, s1) && Evolves(s1, s', Own(e1), |s.code|)
    ensures Evolves(s, s', [], |s.code|)
  {
    KeepsBoth(s, s1, s', [], Own(e1));
  }

  lemma EvolvesTwice(s: State, s1: State, s2: State)
    requires Evolves(s, s1, [], |s.code|) && Evolves(s1, s2, [], |s1.code|) && |s.code| <= |s1.code|
    ensures Evolves(s, s2, [], |s.code|)
  {
    KeepsBoth(s, s1, s2, [], []);
  }

  lemma EvolvesNot(s: State)
    ensures Evolves(s, s, [], |s.code|)
  {}

  /** A list of expressions takes exactly one register for each. */
  lemma {:induction false} NextRegsOk(P: Prims, s: State, es: seq<Expr>)
    requires Wf(s) && AllInScope(es, s.nactvar) && !NextRegs(P, s, es).err
    ensures
      var s' := NextRegs(P, s, es);
      Wf(s') && s'.freereg == s.freereg + |es| && s'.nactvar == s.nactvar && Evolves(s, s', [], |s.code|)
    decreases |es|
  {
    hide Wf, Compile, Exp2NextReg, Evolves;
    if es == [] { EvolvesNot(s); }
    else {
      var s1 := NextRegs(P, s, es[..|es| - 1]);
      NextRegsOk(P, s, es[..|es| - 1]);
      NextRegTakesOne(P, s1, es[|es| - 1]);
      EvolvesTwice(s, s1, NextRegs(P, s, es));
    }
  }

  lemma AdjustAssignOk(s: State, nvars: nat, nexps: nat)
    requires Wf(s) && !AdjustAssign(s, nvars, nexps).err
    ensures
      var s' := AdjustAssign(s, nvars, nexps);
      && Wf(s') && s'.nactvar == s.nactvar && Evolves(s, s', [], |s.code|)
      && s'.freereg == s.freereg + if nvars > nexps then nvars - nexps else 0
  {
    hide CodeOk, PoolOk, FormOk, LoadNils;
    if nvars > nexps {
      var s1 := ReserveRegs(s, nvars - nexps);
      ReserveOk(s, nvars - nexps);
      LoadNilsOk(s1, s.freereg, nvars - nexps);
      EvolvesReserved(s, s1, AdjustAssign(s, nvars, nexps));
    }
  }

  lemma EvolvesReserved(s: State, s1: State, s': State)
    requires s1.code == s.code && s1.jpc == s.jpc && s1.lasttarget == s.lasttarget == s'.lasttarget
    requires Keeps(s1, s', []) && s'.jpc == []
    ensures Evolves(s, s', [], |s.code|)
  {
    assert forall j: nat :: Foreign(s, [], j) ==> Foreign(s1, [], j);
  }

  /** The last expression of a list, in front of which all others are in registers. */
  lemma ExpListOk(P: Prims, s: State, es: seq<Expr>)
    requires Wf(s) && AllInScope(es, s.nactvar) && es != [] && !ExpList(P, s, es).0.err
    ensures
      var s1 := NextRegs(P, s, es[..|es| - 1]);
      var (s2, e2) := ExpList(P, s, es);
      && Wf(s1) && Ext(s1, s2) && Compiled(s1, s2, e2) && Evolves(s, s1, [], |s.code|)
      && s1.freereg == s.freereg + |es| - 1 && s1.nactvar == s.nactvar
  {
    hide Wf, Compile, Exp2NextReg, Evolves, Compiled, NextRegs;
    NextRegsOk(P, s, es[..|es| - 1]);
    CompileOk(P, NextRegs(P, s, es[..|es| - 1]), es[|es| - 1]);
  }

  lemma ReturnValuesOk(P: Prims, s: State, es: seq<Expr>)
    requires Wf(s) && AllInScope(es, s.nactvar) && !ReturnValues(P, s, es).err
    ensures
      var s' := ReturnValues(P, s, es);
      Wf(s') && Evolves(s, s', [], |s.code|) && s.nactvar == s'.nactvar
  {
    hide CodeOk, PoolOk, FormOk, Compile, Exp2AnyReg, Exp2NextReg, Emit, Keeps, ListOk, NextRegs;
    if es == [] { EmitOk(s, Return(0, 1)); }
    else {
      var s0 := NextRegs(P, s, es[..|es| - 1]);
      var (s1, e1) := ExpList(P, s, es);
      ExpListOk(P, s, es);
      if |es| == 1 {
        Exp2AnyRegOk(s1, e1, |s0.code|, s0.freereg);
        var (s2, e2) := Exp2AnyReg(s1, e1);
        EvolvesBoth(s0, s1, s2, e1);
        ReturnEvolves(s, s0, s2, Return(e2.k.info, 2));
      } else {
        Exp2NextRegOk(s1, e1, |s0.code|, s0.freereg);
        var s2 := Exp2NextReg(s1, e1).0;
        EvolvesBoth(s0, s1, s2, e1);
        ReturnEvolves(s, s0, s2, Return(s2.nactvar, |es| + 1));
      }
    }
  }

  lemma ReturnEvolves(s: State, s0: State, s2: State, i: Instr)
    requires Evolves(s, s0, [], |s.code|) && Evolves(s0, s2, [], |s0.code|) && |s.code| <= |s0.code| <= |s2.code|
    requires Wf(s2) && i.Return? && Encodable(i) && !Emit(s2, i).err
    ensures Wf(Emit(s2, i)) && Evolves(s, Emit(s2, i), [], |s.code|)
  {
    hide CodeOk, PoolOk, FormOk, Emit;
    EvolvesTwice(s, s0, s2);
    EmitOk(s2, i);
    EvolvesTwice(s, s2, Emit(s2, i));
  }

  lemma CompiledParts(s: State, s1: State, e1: Exp)
    requires Compiled(s, s1, e1)
    ensures ExpOk(s1, e1, |s.code|, s.freereg) && Keeps(s, s1, []) && Wf(s1)
    ensures forall j :: j in Own(e1) ==> j >= |s.code|
  {}

  lemma UnfoldNextRegs(P: Prims, s: State, es: seq<Expr>)
    requires es != []
    ensures NextRegs(P, s, es) == Exp2NextReg(ExpList(P, s, es).0, ExpList(P, s, es).1).0
  {}

  lemma OneExpr(P: Prims, s: State, es: seq<Expr>)
    requires |es| == 1
    ensures ExpList(P, s, es) == Compile(P, s, es[0])
  {
    assert es[..0] == [];
  }

  // ----- runs -----

  lemma OnlyCode(c: Ctx, s: State, s': State)
    requires s'.code == s.code && s'.jpc == s.jpc
    ensures Out(c, s') == Out(c, s)
  {}

  /** A run that goes on puts a value of its registers into `reg`; another one is as it was. */
  ghost predicate Puts(o: Outcome, o': Outcome, reg: nat, v: Regs -> Value, r0: nat) {
    && (o.Fall? ==> Delivers(o', o.regs, reg, v(o.regs), r0))
    && (Gone(o) ==> o' == o)
  }

  /** The code of any expression compiled to the next register: whenever a run reaches it, the
      run goes on to its end with the value of the expression in that register, and with every
      register below it unchanged. */
  lemma NextRegRun(c: Ctx, s: State, ex: Expr)
    requires Begun(c, s)
    requires Wf(s) && InScope(ex, s.nactvar) && c.env.P.FoldsFaithfully()
    requires
      var (s1, e1) := Compile(c.env.P, s, ex);
      var s' := Exp2NextReg(s1, e1).0;
      !s'.err && Fits(c, s')
    ensures
      var (s1, e1) := Compile(c.env.P, s, ex);
      var s' := Exp2NextReg(s1, e1).0;
      Puts(Out(c, s), Out(c, s'), s.freereg, Meaning(c.env.P, ex), s.freereg)
  {
    hide CodeOk, PoolOk, FormOk, Compile, Exp2NextReg, Evolves, Discharge, Run, RunOf;
    var (s1, e1) := Compile(c.env.P, s, ex);
    var (s', e') := Exp2NextReg(s1, e1);
    var o := Out(c, s);
    CompileOk(c.env.P, s, ex);
    CompileRun(c, s, ex);
    Exp2NextRegOk(s1, e1, |s.code|, s.freereg);
    if o.Fall? {
      Exp2NextRegRun(c, s1, e1, |s.code|, o.regs, Eval(c.env.P, ex, o.regs), s.freereg);
      DeliveredIn(c, s', e', o.regs, Eval(c.env.P, ex, o.regs), s.freereg);
    } else if Gone(o) {
      Exp2NextRegRun(c, s1, e1, |s.code|, c.regs, Nil, s.freereg);
      EarlierExit(c, s, s1, e1);
      AtEnd(c, s', e'.k);
    }
  }

  lemma DeliveredIn(c: Ctx, s: State, e: Exp, rg: Regs, v: Value, r0: nat)
    requires Computes(c, s, e, rg, v, r0) && e.k == VNonReloc(r0) && !HasJumps(e)
    ensures Delivers(Out(c, s), rg, r0, v, r0)
  {}

  /** A run that goes on puts the values of `es` into the registers from `r0` on, and changes
      none below; another one is as it was. */
  predicate PutsAll(o: Outcome, o': Outcome, P: Prims, es: seq<Expr>, r0: nat) {
    && (o.Fall? ==>
          && o'.Fall? && r0 + |es| <= |o.regs|
          && Agree(o'.regs, PutRegs(o.regs, r0, Values(P, es, o.regs)), r0 + |es|))
    && (Gone(o) ==> o' == o)
  }

  lemma ValuesAgree(P: Prims, es: seq<Expr>, rg: Regs, rg': Regs, n: nat)
    requires AllInScope(es, n) && Agree(rg, rg', n)
    ensures Values(P, es, rg) == Values(P, es, rg')
  {
    forall i | 0 <= i < |es| ensures Eval(P, es[i], rg) == Eval(P, es[i], rg') { EvalAgree(P, es[i], rg, rg', n); }
  }

  lemma PutOneMore(o: Outcome, o1: Outcome, o': Outcome, P: Prims, es: seq<Expr>, r0: nat, n: nat)
    requires es != [] && AllInScope(es, n) && n <= r0 && PutsAll(o, o1, P, es[..|es| - 1], r0)
    requires Puts(o1, o', r0 + |es| - 1, Meaning(P, es[|es| - 1]), r0 + |es| - 1)
    ensures PutsAll(o, o', P, es, r0)
  {
    hide Eval, InScope;
    if o.Fall? {
      var last := es[|es| - 1];
      EvalAgree(P, last, o1.regs, o.regs, n);
      assert Values(P, es, o.regs) == Values(P, es[..|es| - 1], o.regs) + [Eval(P, last, o.regs)];
    }
  }

  /** Every expression of a list is evaluated on the registers the list was reached with. */
  lemma {:induction false} NextRegsRun(c: Ctx, s: State, es: seq<Expr>)
    requires Begun(c, s)
    requires Wf(s) && AllInScope(es, s.nactvar) && c.env.P.FoldsFaithfully()
    requires !NextRegs(c.env.P, s, es).err && Fits(c, NextRegs(c.env.P, s, es))
    ensures PutsAll(Out(c, s), Out(c, NextRegs(c.env.P, s, es)), c.env.P, es, s.freereg)
    decreases |es|
  {
    hide CodeOk, PoolOk, FormOk, Compile, Exp2NextReg, Evolves, Out, PutsAll, Puts;
    if es == [] {
      if Out(c, s).Fall? { FrameHolds(c, s); }
      PutNothing(Out(c, s), c.env.P, s.freereg);
    }
    else {
      var front := es[..|es| - 1];
      var s1 := NextRegs(c.env.P, s, front);
      NextRegsRun(c, s, front);
      NextRegsOk(c.env.P, s, front);
      NextRegRun(c, s1, es[|es| - 1]);
      PutOneMore(Out(c, s), Out(c, s1), Out(c, NextRegs(c.env.P, s, es)), c.env.P, es, s.freereg, s.nactvar);
    }
  }

  lemma FrameHolds(c: Ctx, s: State)
    requires Begun(c, s)
    requires Wf(s) && Fits(c, s) && Out(c, s).Fall?
    ensures s.freereg <= |Out(c, s).regs|
  {}

  lemma PutNothing(o: Outcome, P: Prims, r0: nat)
    requires o.Fall? ==> r0 <= |o.regs|
    ensures PutsAll(o, o, P, [], r0)
  {}

  predicate FillsNil(o: Outcome, o': Outcome, from: nat, n: int) {
    && (o.Fall? && n > 0 ==> from + n <= |o.regs| && o' == Fall(Nils(o.regs, from, n)))
    && (!o.Fall? || n <= 0 ==> o' == o)
  }

  /** adjust_assign sets the registers of names without a value to nil, and no others. */
  lemma AdjustAssignRun(c: Ctx, s: State, nvars: nat, nexps: nat)
    requires Begun(c, s)
    requires Wf(s) && !AdjustAssign(s, nvars, nexps).err && Fits(c, AdjustAssign(s, nvars, nexps))
    ensures FillsNil(Out(c, s), Out(c, AdjustAssign(s, nvars, nexps)), s.freereg, nvars - nexps)
  {
    hide CodeOk, PoolOk, FormOk, LoadNils, Out, Nils;
    if nvars > nexps {
      var s1 := ReserveRegs(s, nvars - nexps);
      ReserveOk(s, nvars - nexps);
      AdjustAssignOk(s, nvars, nexps);
      OnlyCode(c, s, s1);
      LoadNilsRun(c, s1, s.freereg, nvars - nexps);
    }
  }

  /** A declaration of `n` names: after it the next `n` registers hold the adjusted values. */
  lemma LocalsRun(c: Ctx, s: State, n: nat, es: seq<Expr>, rg: Regs)
    requires Begun(c, s)
    requires Wf(s) && AllInScope(es, s.nactvar) && s.freereg == s.nactvar && c.env.P.FoldsFaithfully()
    requires var s' := AdjustAssign(NextRegs(c.env.P, s, es), n, |es|); !s'.err && Fits(c, s')
    ensures
      var o, o' := Out(c, s), Out(c, AdjustAssign(NextRegs(c.env.P, s, es), n, |es|));
      && (o.Fall? && Agree(o.regs, rg, s.nactvar) ==>
            o'.Fall? && Agree(o'.regs, PutRegs(rg, s.nactvar, Adjusted(Values(c.env.P, es, rg), n)), s.nactvar + n))
      && (Gone(o) ==> o' == o)
  {
    hide Wf, NextRegs, AdjustAssign, Evolves, Out, Values, Adjusted, PutRegs, Agree, PutsAll, FillsNil, AllInScope;
    var P := c.env.P;
    var s1 := NextRegs(P, s, es);
    NextRegsOk(P, s, es);
    NextRegsRun(c, s, es);
    AdjustAssignRun(c, s1, n, |es|);
    LocalsPut(Out(c, s), Out(c, s1), Out(c, AdjustAssign(s1, n, |es|)), P, es, s.nactvar, n, rg);
  }

  lemma LocalsPut(o: Outcome, o1: Outcome, o': Outcome, P: Prims, es: seq<Expr>, r0: nat, n: nat, rg: Regs)
    requires PutsAll(o, o1, P, es, r0) && FillsNil(o1, o', r0 + |es|, n - |es|) && AllInScope(es, r0)
    ensures o.Fall? && Agree(o.regs, rg, r0) ==>
      o'.Fall? && Agree(o'.regs, PutRegs(rg, r0, Adjusted(Values(P, es, rg), n)), r0 + n)
    ensures Gone(o) ==> o' == o
  {
    hide Values, Adjusted, PutRegs, Nils, Agree, AllInScope;
    if o.Fall? && Agree(o.regs, rg, r0) {
      ValuesAgree(P, es, o.regs, rg, r0);
      SameFrame(o1.regs, PutRegs(o.regs, r0, Values(P, es, o.regs)), r0 + |es|);
      AdjustedAgree(o.regs, rg, o1.regs, o'.regs, r0, Values(P, es, rg), n);
    }
  }

  lemma SameFrame(rg: Regs, rg': Regs, n: nat)
    requires Agree(rg, rg', n)
    ensures |rg| == |rg'|
  {}

  lemma AdjustedAgree(rg0: Regs, rg: Regs, rg1: Regs, rg2: Regs, r0: nat, vs: seq<Value>, n: nat)
    requires Agree(rg0, rg, r0) && r0 + |vs| <= |rg0| && Agree(rg1, PutRegs(rg0, r0, vs), r0 + |vs|)
    requires if n > |vs| then r0 + n <= |rg1| && rg2 == Nils(rg1, r0 + |vs|, n - |vs|) else rg2 == rg1
    ensures Agree(rg2, PutRegs(rg, r0, Adjusted(vs, n)), r0 + n)
  {}


  /** What a return does to a run that reaches it. */
  function AfterReturn(o: Outcome, a: nat, b: nat): Outcome {
    if !o.Fall? then o else if b >= 1 && a + b - 1 <= |o.regs| then Returned(o.regs[a..a + b - 1]) else Stuck
  }

  lemma ReturnStep(env: Env, code: seq<Instr>, a: nat, b: nat, rg: Regs)
    ensures Exec(env, code + [Return(a, b)], |code|, rg) == AfterReturn(Fall(rg), a, b)
  {
    assert (code + [Return(a, b)])[|code|] == Return(a, b);
  }

  lemma EmitReturnRun(c: Ctx, s: State, a: nat, b: nat)
    requires Begun(c, s)
    requires Wf(s) && Encodable(Return(a, b)) && !Emit(s, Return(a, b)).err
    ensures Out(c, Emit(s, Return(a, b))) == AfterReturn(Out(c, s), a, b)
  {
    hide CodeOk, PoolOk, FormOk, Patch, PatchAt, Exec, Run;
    DischargeOk(s);
    Starts(c, s);
    var d, s' := Discharge(s), Emit(s, Return(a, b));
    EmitOk(s, Return(a, b));
    OutWithoutJumps(c, s');
    RunAppend(c, d.code, [Return(a, b)], d.lasttarget);
    if Out(c, s).Fall? { ReturnStep(c.env, d.code, a, b, Out(c, s).regs); }
  }

  lemma ValueInReg(c: Ctx, s: State, e: Exp, rg: Regs, v: Value, r0: nat)
    requires Computes(c, s, e, rg, v, r0) && e.k.VNonReloc? && !HasJumps(e)
    ensures Out(c, s).Fall? && AfterReturn(Out(c, s), e.k.info, 2) == Returned([v])
  {}

  lemma ValuesInRegs(o: Outcome, o': Outcome, P: Prims, es: seq<Expr>, r0: nat)
    requires PutsAll(o, o', P, es, r0) && o.Fall?
    ensures AfterReturn(o', r0, |es| + 1) == Returned(Values(P, es, o.regs))
  {
    assert o'.regs[r0..r0 + |es|] == Values(P, es, o.regs);
  }

  /** All values of the list are returned, none if there are none. */
  lemma ReturnValuesRun(c: Ctx, s: State, es: seq<Expr>)
    requires Begun(c, s)
    requires Wf(s) && s.freereg == s.nactvar && AllInScope(es, s.nactvar) && c.env.P.FoldsFaithfully()
    requires !ReturnValues(c.env.P, s, es).err && Fits(c, ReturnValues(c.env.P, s, es))
    ensures
      var o, o' := Out(c, s), Out(c, ReturnValues(c.env.P, s, es));
      && (o.Fall? ==> o' == Returned(Values(c.env.P, es, o.regs)))
      && (Gone(o) ==> o' == o)
  {
    hide CodeOk, PoolOk, FormOk, Compile, Exp2NextReg, Exp2AnyReg, NextRegs, Evolves, Out, Emit, Values, PutsAll,
      Compiled;
    var P := c.env.P;
    if es == [] {
      EmitReturnRun(c, s, 0, 1);
      if Out(c, s).Fall? { assert Values(P, es, Out(c, s).regs) == []; }
    } else if |es| == 1 {
      ReturnOneRun(c, s, es);
    } else {
      var s2 := NextRegs(P, s, es);
      assert s2 == Exp2NextReg(ExpList(P, s, es).0, ExpList(P, s, es).1).0 by { UnfoldNextRegs(P, s, es); }
      NextRegsOk(P, s, es);
      NextRegsRun(c, s, es);
      EmitReturnRun(c, s2, s2.nactvar, |es| + 1);
      if Out(c, s).Fall? { ValuesInRegs(Out(c, s), Out(c, s2), P, es, s.freereg); }
      else if Gone(Out(c, s)) { GonePuts(Out(c, s), Out(c, s2), P, es, s.freereg); }
    }
  }

  lemma GonePuts(o: Outcome, o': Outcome, P: Prims, es: seq<Expr>, r0: nat)
    requires PutsAll(o, o', P, es, r0) && Gone(o)
    ensures o' == o
  {}

  lemma ReturnOneRun(c: Ctx, s: State, es: seq<Expr>)
    requires Begun(c, s)
    requires Wf(s) && AllInScope(es, s.nactvar) && c.env.P.FoldsFaithfully() && |es| == 1
    requires !ReturnValues(c.env.P, s, es).err && Fits(c, ReturnValues(c.env.P, s, es))
    ensures
      var o, o' := Out(c, s), Out(c, ReturnValues(c.env.P, s, es));
      && (o.Fall? ==> o' == Returned(Values(c.env.P, es, o.regs)))
      && (Gone(o) ==> o' == o)
  {
    hide CodeOk, PoolOk, FormOk, Compile, Exp2AnyReg, Evolves, Discharge, Run, RunOf, Emit;
    var P, ex := c.env.P, es[0];
    OneExpr(P, s, es);
    var (s1, e1) := Compile(P, s, ex);
    var (s2, e2) := Exp2AnyReg(s1, e1);
    var o := Out(c, s);
    CompileOk(P, s, ex);
    CompileRun(c, s, ex);
    Exp2AnyRegOk(s1, e1, |s.code|, s.freereg);
    EmitReturnRun(c, s2, e2.k.info, 2);
    if o.Fall? {
      Exp2AnyRegRun(c, s1, e1, |s.code|, o.regs, Eval(P, ex, o.regs), s.freereg);
      ValueInReg(c, s2, e2, o.regs, Eval(P, ex, o.regs), s.freereg);
      assert Values(P, es, o.regs) == [Eval(P, ex, o.regs)];
    } else if Gone(o) {
      Exp2AnyRegRun(c, s1, e1, |s.code|, c.regs, Nil, s.freereg);
      EarlierExit(c, s, s1, e1);
      AtEnd(c, s2, e2.k);
    }
  }
}
