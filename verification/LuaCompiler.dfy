/** Expressions, their meaning, and the correctness of the code compiled for them. */
module LuaCompiler {
  import opened Wrappers
  import opened LuaValues
  import opened LuaVm
  import opened LuaPatch
  import opened LuaConstants
  import opened LuaCode
  import opened LuaShape
  import opened LuaShapeOps
  import opened LuaRuns
  import opened LuaSemantics
  import opened LuaSemanticsOps

  datatype Expr =
    | ENil | ETrue | EFalse | ENum(n: Number) | EStr(str: seq<Byte>) | ELocal(r: nat)
    | EUn(uop: UnOp, arg: Expr)
    | EBin(bop: BinOp, left: Expr, right: Expr)

  predicate InScope(ex: Expr, nactvar: nat) {
    match ex
    case ELocal(r) => r < nactvar
    case EUn(_, arg) => InScope(arg, nactvar)
    case EBin(_, l, r) => InScope(l, nactvar) && InScope(r, nactvar)
    case _ => true
  }

  /** The meaning of an expression, as sections 3.4.1 and 3.4.3 to 3.4.5 of the Lua 5.2
      Reference Manual give it; locals live in the registers. */
  function Eval(P: Prims, ex: Expr, rg: Regs): Value {
    match ex
    case ENil => Nil
    case ETrue => Bool(true)
    case EFalse => Bool(false)
    case ENum(n) => Num(n)
    case EStr(str) => Str(str)
    case ELocal(r) => if r < |rg| then rg[r] else Nil
    case EUn(op, arg) =>
      var v := Eval(P, arg, rg);
      (match op case OpNeg => P.unm(v) case OpLen => P.len(v) case OpNot => Bool(!Truthy(v)))
    case EBin(op, l, r) =>
      var v1, v2 := Eval(P, l, rg), Eval(P, r, rg);
      match op
      case OpAnd => if Truthy(v1) then v2 else v1
      case OpOr => if Truthy(v1) then v1 else v2
      case OpArith(a) => P.arith(a, v1, v2)
      case OpCmp(cop, cond) => Bool(CompVal(P, cop, cond, v1, v2))
      case OpConcat => P.concat(v1, v2)
  }

  /** The calls the parser makes for an expression: operands first, with luaK_prefix,
      luaK_infix and luaK_posfix around them. */
  function Compile(P: Prims, s: State, ex: Expr): (r: (State, Exp))
    ensures Ext(s, r.0) && KindOk(r.0.code, r.1.k)
    decreases ex
  {
    match ex
    case ENil => (s, Exp(VNil, [], []))
    case ETrue => (s, Exp(VTrue, [], []))
    case EFalse => (s, Exp(VFalse, [], []))
    case ENum(n) => (s, Exp(VKNum(n), [], []))
    case EStr(str) => var (s1, i) := AddConst(s, Str(str)); (s1, Exp(VK(i), [], []))
    case ELocal(r) => (s, Exp(VLocal(r), [], []))
    case EUn(op, arg) =>
      var (s1, e1) := Compile(P, s, arg);
      Prefix(P, s1, op, e1)
    case EBin(op, l, r) =>
      var (s1, e1) := Compile(P, s, l);
      var (s2, e2) := Infix(s1, op, e1);
      var (s3, e3) := Compile(P, s2, r);
      Posfix(P, s3, op, e2, e3)
  }

  lemma CompileBinary(P: Prims, s: State, op: BinOp, l: Expr, r: Expr)
    ensures
      var (s1, e1) := Compile(P, s, l);
      var (s2, e2) := Infix(s1, op, e1);
      var (s3, e3) := Compile(P, s2, r);
      Compile(P, s, EBin(op, l, r)) == Posfix(P, s3, op, e2, e3)
  {
    hide Infix, Posfix, Prefix, OperandKept;
  }

  /** An expression that is a constant of the table is a string. */
  predicate StringOnly(s: State, k: Kind) {
    k.VK? ==> k.info < |s.pool.k| && s.pool.k[k.info].Str?
  }

  // ----- structure -----

  /** What compiling an expression from `s` on gives. */
  ghost predicate Compiled(s: State, s': State, e': Exp) {
    ExpOk(s', e', |s.code|, s.freereg) && Evolves(s, s', [], |s.code|) && StringOnly(s', e'.k)
  }

  lemma PrefixStepOk(P: Prims, s: State, s1: State, e1: Exp, op: UnOp)
    requires Wf(s) && Ext(s, s1) && Compiled(s, s1, e1) && !Prefix(P, s1, op, e1).0.err
    ensures var (s', e') := Prefix(P, s1, op, e1); Compiled(s, s', e')
  {
    hide CodeOk, PoolOk, FormOk, Patch, PatchAt, Prefix;
    PrefixOk(P, s1, op, e1, |s.code|, s.freereg);
    PrefixString(P, s1, op, e1);
    KeepsBoth(s, s1, Prefix(P, s1, op, e1).0, [], Own(e1));
  }

  lemma InfixStepOk(P: Prims, s: State, s1: State, e1: Exp, op: BinOp)
    requires Wf(s) && Ext(s, s1) && Compiled(s, s1, e1) && !Infix(s1, op, e1).0.err
    ensures
      var (s2, e2) := Infix(s1, op, e1);
      LeftOk(s2, op, e2, |s.code|, s.freereg) && Evolves(s, s2, [], |s.code|)
  {
    hide CodeOk, PoolOk, FormOk, Patch, PatchAt, Infix, LeftOk;
    InfixOk(s1, op, e1, |s.code|, s.freereg);
    KeepsBoth(s, s1, Infix(s1, op, e1).0, [], Own(e1));
  }

  lemma PosfixStepOk(P: Prims, s: State, s2: State, e2: Exp, s3: State, e3: Exp, op: BinOp)
    requires Wf(s) && Ext(s, s2) && LeftOk(s2, op, e2, |s.code|, s.freereg) && Evolves(s, s2, [], |s.code|)
    requires Ext(s2, s3) && Compiled(s2, s3, e3) && !Posfix(P, s3, op, e2, e3).0.err
    ensures var (s', e') := Posfix(P, s3, op, e2, e3); Compiled(s, s', e')
  {
    hide CodeOk, PoolOk, FormOk, Patch, PatchAt, Posfix;
    LeftKept(s2, s3, op, e2, |s.code|, s.freereg);
    PosfixOk(P, s3, op, e2, e3, |s.code|, |s2.code|, s.freereg);
    PosfixString(P, s3, op, e2, e3);
    KeepsBoth(s, s2, s3, [], []);
    KeepsBoth(s, s3, Posfix(P, s3, op, e2, e3).0, [], Own(e3));
  }

  /** Compiling any expression keeps the invariants: its lists are fresh and disjoint from all
      others, and it takes at most one register, the first free one. */
  lemma {:induction false} CompileOk(P: Prims, s: State, ex: Expr)
    requires Wf(s) && InScope(ex, s.nactvar) && !Compile(P, s, ex).0.err
    ensures var (s', e') := Compile(P, s, ex); Compiled(s, s', e')
    decreases ex
  {
    match ex
    case EStr(str) => AddConstOk(s, Str(str));
    case EUn(op, arg) =>
      hide Compiled, Wf, Prefix;
      var (s1, e1) := Compile(P, s, arg);
      CompileOk(P, s, arg);
      PrefixStepOk(P, s, s1, e1, op);
    case EBin(op, l, r) =>
      hide CodeOk, PoolOk, FormOk, Patch, PatchAt, Posfix, Infix, Compiled;
      var (s1, e1) := Compile(P, s, l);
      CompileOk(P, s, l);
      var (s2, e2) := Infix(s1, op, e1);
      InfixStepOk(P, s, s1, e1, op);
      var (s3, e3) := Compile(P, s2, r);
      CompileOk(P, s2, r);
      PosfixStepOk(P, s, s2, e2, s3, e3, op);
    case _ =>
  }

  lemma PrefixString(P: Prims, s: State, op: UnOp, e: Exp)
    requires KindOk(s.code, e.k)
    ensures !Prefix(P, s, op, e).1.k.VK?
  {}

  lemma PosfixString(P: Prims, s: State, op: BinOp, e1: Exp, e2: Exp)
    requires KindOk(s.code, e2.k) && OperandKept(op, e1) && StringOnly(s, e2.k)
    ensures var (s', e') := Posfix(P, s, op, e1, e2); StringOnly(s', e'.k)
  {}

  // ----- meaning -----

  lemma {:induction false} EvalAgree(P: Prims, ex: Expr, rg: Regs, rg': Regs, n: nat)
    requires InScope(ex, n) && Agree(rg, rg', n)
    ensures Eval(P, ex, rg) == Eval(P, ex, rg')
    decreases ex
  {
    match ex
    case EUn(_, arg) => EvalAgree(P, arg, rg, rg', n);
    case EBin(_, l, r) => EvalAgree(P, l, rg, rg', n); EvalAgree(P, r, rg, rg', n);
    case _ =>
  }

  /** Runs that had reached `s` with some registers compute, at `s'`, the value `v` of those
      registers; runs that had left before are as they were. */
  ghost predicate Evaluates(c: Ctx, s: State, s': State, e': Exp, v: Regs -> Value) {
    match Out(c, s)
    case Fall(rg) => Computes(c, s', e', rg, v(rg), s.freereg)
    case Exit(_, _) => RunOf(c, s', e'.k) == Out(c, s)
    case Returned(_) => RunOf(c, s', e'.k) == Out(c, s)
    case Back(_, _) => RunOf(c, s', e'.k) == Out(c, s)
    case _ => true
  }

  function Meaning(P: Prims, ex: Expr): Regs -> Value { rg => Eval(P, ex, rg) }

  /** An exit from before an expression was compiled is not on its lists. */
  lemma EarlierExit(c: Ctx, s: State, s': State, e': Exp)
    requires Begun(c, s)
    requires Wf(s) && Compiled(s, s', e') && Gone(Out(c, s)) && RunOf(c, s', e'.k) == Out(c, s)
    ensures LeavesElsewhere(RunOf(c, s', e'.k), e')
  {
    if Out(c, s).Exit? { assert Out(c, s).node < |s.code|; }
  }

  lemma ProperString(c: Ctx, s: State, s': State, k: Kind)
    requires StringOnly(s, k) && Ext(s, s') && Fits(c, s')
    ensures ProperConst(c.env, k) && Fits(c, s)
  {
    if k.VK? { assert c.env.K[k.info] == s.pool.k[k.info]; }
  }

  lemma UnaryRun(c: Ctx, s: State, s1: State, e1: Exp, op: UnOp, arg: Expr)
    requires Begun(c, s)
    requires Wf(s) && Ext(s, s1) && Compiled(s, s1, e1) && c.env.P.FoldsFaithfully()
    requires !Prefix(c.env.P, s1, op, e1).0.err && Fits(c, Prefix(c.env.P, s1, op, e1).0)
    requires Evaluates(c, s, s1, e1, Meaning(c.env.P, arg))
    ensures
      var (s', e') := Prefix(c.env.P, s1, op, e1);
      Evaluates(c, s, s', e', Meaning(c.env.P, EUn(op, arg)))
  {
    hide CodeOk, PoolOk, FormOk, Patch, PatchAt, Discharge, Run, CodeUnary, CodeNot, Evolves;
    var o := Out(c, s);
    var base, r0 := |s.code|, s.freereg;
    var rg := Fallen(o);
    var v := Eval(c.env.P, arg, rg);
    if Gone(o) { EarlierExit(c, s, s1, e1); }
    match op
    case OpNot =>
      ProperString(c, s1, Prefix(c.env.P, s1, op, e1).0, e1.k);
      CodeNotRun(c, s1, e1, base, rg, v, r0);
    case OpLen => if o.Fall? || Gone(o) { CodeUnaryRun(c, s1, true, e1, base, if o.Fall? then rg else c.regs, v, r0); }
    case OpNeg =>
      if !IsNumeral(e1) && (o.Fall? || Gone(o)) {
        CodeUnaryRun(c, s1, false, e1, base, if o.Fall? then rg else c.regs, v, r0);
      }
  }

  /** Registers that agree below `r` give the same computation. */
  lemma ComputesAgree(c: Ctx, s: State, e: Exp, rg: Regs, rg': Regs, v: Value, r0: nat, r: nat)
    requires Computes(c, s, e, rg, v, r) && Agree(rg, rg', r0) && r0 <= r
    ensures Computes(c, s, e, rg', v, r0)
  {}

  /** The right operand of a short-circuit operator: `e2` left the jumps that decided on the
      left operand alone on `nodes`. */
  lemma ShortCircuitRun(c: Ctx, s2: State, nodes: seq<nat>, s3: State, e3: Exp, right: Expr, rg: Regs, v1: Value,
      on: bool, r0: nat)
    requires Begun(c, s2)
    requires Wf(s2) && Compiled(s2, s3, e3) && s2.freereg == r0 && s2.nactvar <= r0 && ListOk(s2, nodes, 0)
    requires Decides(Out(c, s2), s2.code, nodes, rg, v1, on, r0) && InScope(right, r0)
    requires Evaluates(c, s2, s3, e3, Meaning(c.env.P, right))
    ensures
      var e' := DischargeVars(e3);
      var v := if Truthy(v1) == on then Eval(c.env.P, right, rg) else v1;
      Computes(c, s3, if on then e'.(f := e'.f + nodes) else e'.(t := e'.t + nodes), rg, v, r0)
  {
    hide CodeOk, PoolOk, FormOk, Patch, PatchAt, Discharge, Run;
    match Out(c, s2)
    case Fall(rg2) =>
      EvalAgree(c.env.P, right, rg2, rg, r0);
    case Exit(j, rg2) =>
      KeepsList(s2, s3, [], nodes, 0);
    case _ =>
  }

  lemma RunOfVars(c: Ctx, s: State, e: Exp)
    ensures RunOf(c, s, DischargeVars(e).k) == RunOf(c, s, e.k)
  {}

  lemma AndRun(c: Ctx, s: State, s1: State, e1: Exp, s2: State, e2: Exp, s3: State, e3: Exp, l: Expr, r: Expr)
    requires Begun(c, s)
    requires Wf(s) && Ext(s, s1) && Compiled(s, s1, e1) && Evaluates(c, s, s1, e1, Meaning(c.env.P, l))
    requires !Infix(s1, OpAnd, e1).0.err && (s2, e2) == Infix(s1, OpAnd, e1)
    requires Ext(s2, s3) && Compiled(s2, s3, e3) && Evaluates(c, s2, s3, e3, Meaning(c.env.P, r))
    requires InScope(r, s.nactvar) && Fits(c, s3)
    ensures
      var (s', e') := Posfix(c.env.P, s3, OpAnd, e2, e3);
      Evaluates(c, s, s', e', Meaning(c.env.P, EBin(OpAnd, l, r)))
  {
    hide CodeOk, PoolOk, FormOk, Patch, PatchAt, Discharge, Run, RunOf, GoIfTrue, Computes, Decides, Keeps, Pending,
      Distinct;
    var base, r0 := |s.code|, s.freereg;
    var o := Out(c, s);
    var e' := DischargeVars(e3);
    var s' := Link(s3, e'.f, e2.f);
    ProperString(c, s1, s3, e1.k);
    GoIfTrueOk(s1, e1, base, r0);
    InScopeMore(r, s.nactvar, r0);
    TracksSameCode(c, s3, s', e', c.regs, Nil, r0);
    if o.Fall? {
      var rg := o.regs;
      var v1 := Eval(c.env.P, l, rg);
      GoIfTrueRun(c, s1, e1, base, rg, v1, r0);
      ShortCircuitRun(c, s2, e2.f, s3, e3, r, rg, v1, true, r0);
      SameComputes(c, s3, s', e'.(f := e'.f + e2.f), rg, Eval(c.env.P, EBin(OpAnd, l, r), rg), r0);
    } else if Gone(o) {
      EarlierExit(c, s, s1, e1);
      GoIfTrueRun(c, s1, e1, base, c.regs, Nil, r0);
      RunOfVars(c, s3, e3);
    }
  }

  lemma OrRun(c: Ctx, s: State, s1: State, e1: Exp, s2: State, e2: Exp, s3: State, e3: Exp, l: Expr, r: Expr)
    requires Begun(c, s)
    requires Wf(s) && Ext(s, s1) && Compiled(s, s1, e1) && Evaluates(c, s, s1, e1, Meaning(c.env.P, l))
    requires !Infix(s1, OpOr, e1).0.err && (s2, e2) == Infix(s1, OpOr, e1)
    requires Ext(s2, s3) && Compiled(s2, s3, e3) && Evaluates(c, s2, s3, e3, Meaning(c.env.P, r))
    requires InScope(r, s.nactvar) && Fits(c, s3)
    ensures
      var (s', e') := Posfix(c.env.P, s3, OpOr, e2, e3);
      Evaluates(c, s, s', e', Meaning(c.env.P, EBin(OpOr, l, r)))
  {
    hide CodeOk, PoolOk, FormOk, Patch, PatchAt, Discharge, Run, RunOf, GoIfFalse, Computes, Decides, Keeps, Pending,
      Distinct;
    var base, r0 := |s.code|, s.freereg;
    var o := Out(c, s);
    var e' := DischargeVars(e3);
    var s' := Link(s3, e'.t, e2.t);
    ProperString(c, s1, s3, e1.k);
    GoIfFalseOk(s1, e1, base, r0);
    InScopeMore(r, s.nactvar, r0);
    TracksSameCode(c, s3, s', e', c.regs, Nil, r0);
    if o.Fall? {
      var rg := o.regs;
      var v1 := Eval(c.env.P, l, rg);
      GoIfFalseRun(c, s1, e1, base, rg, v1, r0);
      ShortCircuitRun(c, s2, e2.t, s3, e3, r, rg, v1, false, r0);
      SameComputes(c, s3, s', e'.(t := e'.t + e2.t), rg, Eval(c.env.P, EBin(OpOr, l, r), rg), r0);
    } else if Gone(o) {
      EarlierExit(c, s, s1, e1);
      GoIfFalseRun(c, s1, e1, base, c.regs, Nil, r0);
      RunOfVars(c, s3, e3);
    }
  }

  lemma SameComputes(c: Ctx, s: State, s': State, e: Exp, rg: Regs, v: Value, r0: nat)
    requires s'.code == s.code && s'.jpc == s.jpc && Computes(c, s, e, rg, v, r0)
    ensures Computes(c, s', e, rg, v, r0)
  {}

  lemma {:induction false} InScopeMore(ex: Expr, n: nat, m: nat)
    requires InScope(ex, n) && n <= m
    ensures InScope(ex, m)
    decreases ex
  {
    match ex
    case EUn(_, arg) => InScopeMore(arg, n, m);
    case EBin(_, l, r) => InScopeMore(l, n, m); InScopeMore(r, n, m);
    case _ =>
  }

  /** Both operands are always evaluated. */
  predicate Strict(op: BinOp) { !op.OpAnd? && !op.OpOr? }

  /** The value a binary operator that is not short-circuit computes. */
  function BinaryVal(P: Prims, op: BinOp, v1: Value, v2: Value): Value
    requires Strict(op)
  {
    match op
    case OpArith(a) => P.arith(a, v1, v2)
    case OpCmp(cop, cond) => Bool(CompVal(P, cop, cond, v1, v2))
    case OpConcat => P.concat(v1, v2)
  }

  /** The left operand, after luaK_infix, is where the run has left its value. */
  lemma LeftOperandRun(c: Ctx, s: State, s1: State, e1: Exp, op: BinOp, l: Expr)
    requires Begun(c, s)
    requires Wf(s) && Ext(s, s1) && Compiled(s, s1, e1) && Evaluates(c, s, s1, e1, Meaning(c.env.P, l))
    requires Strict(op) && !Infix(s1, op, e1).0.err && Fits(c, Infix(s1, op, e1).0)
    ensures
      var (s2, e2) := Infix(s1, op, e1);
      Evaluates(c, s, s2, e2, Meaning(c.env.P, l))
  {
    hide CodeOk, PoolOk, FormOk, Patch, PatchAt, Discharge, Run, Exp2RK, Exp2NextReg, Computes;
    if !(op.OpArith? && IsNumeral(e1)) {
      var o := Out(c, s);
      if o.Fall? || Gone(o) {
        var rg := if o.Fall? then o.regs else c.regs;
        if Gone(o) { EarlierExit(c, s, s1, e1); }
        var v := Eval(c.env.P, l, rg);
        if op.OpConcat? {
          Exp2NextRegRun(c, s1, e1, |s.code|, rg, v, s.freereg);
          AtEnd(c, Infix(s1, op, e1).0, Infix(s1, op, e1).1.k);
        } else {
          Exp2RKRun(c, s1, e1, |s.code|, rg, v, s.freereg);
        }
      }
    }
  }

  lemma RightOperandRun(c: Ctx, s3: State, op: BinOp, e2: Exp, e3: Exp, base2: nat, rg: Regs, v1: Value, v2: Value,
      r0: nat)
    requires Begun(c, s3)
    requires Strict(op) && OperandKept(op, e2) && Kept(s3, e2, r0) && c.env.P.FoldsFaithfully()
    requires ExpOk(s3, e3, base2, RegsAfter(s3, e2.k, r0)) && |rg| == |c.regs| && (op.OpConcat? ==> OnTop(s3, e2, r0))
    requires !Posfix(c.env.P, s3, op, e2, e3).0.err && Fits(c, Posfix(c.env.P, s3, op, e2, e3).0)
    ensures
      var (s', e') := Posfix(c.env.P, s3, op, e2, e3);
      && (LeavesElsewhere(RunOf(c, s3, e3.k), e3) ==> RunOf(c, s', e'.k) == RunOf(c, s3, e3.k))
      && (Computes(c, s3, e3, rg, v2, RegsAfter(s3, e2.k, r0)) && KindVal(c.env, s3.code, e2.k, rg) == Some(v1) ==>
            Computes(c, s', e', rg, BinaryVal(c.env.P, op, v1, v2), r0))
  {
    hide Computes, CodeOk, CodeArith, CodeComp, CodeConcat;
    match op
    case OpArith(a) => CodeArithRun(c, s3, a, e2, e3, base2, rg, v1, v2, r0);
    case OpCmp(cop, cond) => CodeCompRun(c, s3, cop, cond, e2, e3, base2, rg, v1, v2, r0);
    case OpConcat => CodeConcatRun(c, s3, e2, e3, base2, rg, v1, v2, r0);
  }

  lemma BinaryRun(c: Ctx, s: State, s1: State, e1: Exp, s2: State, e2: Exp, s3: State, e3: Exp, op: BinOp, l: Expr,
      r: Expr)
    requires Begun(c, s)
    requires Wf(s) && Ext(s, s1) && Compiled(s, s1, e1) && Evaluates(c, s, s1, e1, Meaning(c.env.P, l))
    requires Strict(op) && !Infix(s1, op, e1).0.err && (s2, e2) == Infix(s1, op, e1)
    requires Ext(s2, s3) && Compiled(s2, s3, e3) && Evaluates(c, s2, s3, e3, Meaning(c.env.P, r))
    requires InScope(r, s.nactvar) && c.env.P.FoldsFaithfully()
    requires OperandKept(op, e2) && !Posfix(c.env.P, s3, op, e2, e3).0.err && Fits(c, Posfix(c.env.P, s3, op, e2, e3).0)
    ensures
      var (s', e') := Posfix(c.env.P, s3, op, e2, e3);
      Evaluates(c, s, s', e', Meaning(c.env.P, EBin(op, l, r)))
  {
    hide CodeOk, PoolOk, FormOk, Patch, PatchAt, Discharge, Run, Posfix, Infix, Computes, KindVal, LeftOk, Compiled,
      Wf, RunOf, OperandKept, Kept, Taken, RegsAfter;
    var base, r0 := |s.code|, s.freereg;
    var o := Out(c, s);
    InfixStepOk(c.env.P, s, s1, e1, op);
    LeftOperandRun(c, s, s1, e1, op, l);
    BinaryParts(s, s2, s3, op, e2, e3);
    match o
    case Fall(rg) =>
      var v1 := Eval(c.env.P, l, rg);
      LeftReady(c, s2, s3, op, e2, rg, v1, r0);
      var rg2 := Out(c, s2).regs;
      var v2 := Eval(c.env.P, r, rg2);
      RightOperandRun(c, s3, op, e2, e3, |s2.code|, rg2, v1, v2, r0);
      EvalAgree(c.env.P, r, rg2, rg, s.nactvar);
      var (s', e') := Posfix(c.env.P, s3, op, e2, e3);
      ComputesAgree(c, s', e', rg2, rg, BinaryVal(c.env.P, op, v1, v2), r0, r0);
    case _ =>
      if Gone(o) {
        OperandExit(c, s2, op, e2);
        EarlierExit(c, s2, s3, e3);
        RightOperandRun(c, s3, op, e2, e3, |s2.code|, c.regs, Nil, Nil, r0);
      }
  }

  lemma BinaryParts(s: State, s2: State, s3: State, op: BinOp, e2: Exp, e3: Exp)
    requires Strict(op) && LeftOk(s2, op, e2, |s.code|, s.freereg) && Compiled(s2, s3, e3)
    requires Ext(s, s2) && Wf(s) && Ext(s2, s3)
    ensures Wf(s2) && ExpOk(s3, e3, |s2.code|, RegsAfter(s3, e2.k, s.freereg)) && s.nactvar <= s.freereg
    ensures s2.freereg == RegsAfter(s3, e2.k, s.freereg) && Kept(s3, e2, s.freereg)
    ensures op.OpConcat? ==> OnTop(s3, e2, s.freereg)
  {
    LeftKept(s2, s3, op, e2, |s.code|, s.freereg);
  }

  lemma OperandExit(c: Ctx, s: State, op: BinOp, e: Exp)
    requires Strict(op) && OperandKept(op, e)
    ensures RunOf(c, s, e.k) == Out(c, s)
  {}

  /** The left operand is where the run left its value. */
  lemma LeftReady(c: Ctx, s2: State, s3: State, op: BinOp, e2: Exp, rg: Regs, v1: Value, r0: nat)
    requires Strict(op) && OperandKept(op, e2) && Computes(c, s2, e2, rg, v1, r0)
    ensures Out(c, s2).Fall? && Agree(Out(c, s2).regs, rg, r0)
    ensures KindVal(c.env, s3.code, e2.k, Out(c, s2).regs) == Some(v1)
  {}

  /** Literals and locals emit nothing: the value is the descriptor. */
  lemma LeafRun(c: Ctx, s: State, ex: Expr)
    requires Begun(c, s)
    requires Wf(s) && InScope(ex, s.nactvar) && !ex.EUn? && !ex.EBin?
    requires !Compile(c.env.P, s, ex).0.err && Fits(c, Compile(c.env.P, s, ex).0)
    ensures
      var (s', e') := Compile(c.env.P, s, ex);
      Evaluates(c, s, s', e', Meaning(c.env.P, ex))
  {
    hide CodeOk, PoolOk, FormOk, Discharge, Run;
    var (s', e') := Compile(c.env.P, s, ex);
    if ex.EStr? { AddConstOk(s, Str(ex.str)); }
    TracksSameCode(c, s, s', e', c.regs, Nil, 0);
  }

  /** Compiler correctness. Whatever run reaches the code of an expression, the code computes
      the expression's value from the registers the run arrived with, without touching those
      below the first free one, and every other run is as before. */
  lemma {:induction false} CompileRun(c: Ctx, s: State, ex: Expr)
    requires Begun(c, s)
    requires Wf(s) && InScope(ex, s.nactvar) && c.env.P.FoldsFaithfully()
    requires !Compile(c.env.P, s, ex).0.err && Fits(c, Compile(c.env.P, s, ex).0)
    ensures
      var (s', e') := Compile(c.env.P, s, ex);
      Evaluates(c, s, s', e', Meaning(c.env.P, ex))
    decreases ex
  {
    hide CodeOk, PoolOk, FormOk, Patch, PatchAt, Infix, Prefix, Posfix, Compiled, Evaluates, Wf;
    var P := c.env.P;
    match ex
    case EUn(op, arg) =>
      var (s1, e1) := Compile(P, s, arg);
      CompileOk(P, s, arg);
      CompileRun(c, s, arg);
      UnaryRun(c, s, s1, e1, op, arg);
    case EBin(op, l, r) =>
      var (s1, e1) := Compile(P, s, l);
      CompileOk(P, s, l);
      CompileRun(c, s, l);
      var (s2, e2) := Infix(s1, op, e1);
      InfixStepOk(P, s, s1, e1, op);
      var (s3, e3) := Compile(P, s2, r);
      CompileOk(P, s2, r);
      CompileRun(c, s2, r);
      if op.OpAnd? { AndRun(c, s, s1, e1, s2, e2, s3, e3, l, r); }
      else if op.OpOr? { OrRun(c, s, s1, e1, s2, e2, s3, e3, l, r); }
      else { BinaryRun(c, s, s1, e1, s2, e2, s3, e3, op, l, r); }
    case _ => LeafRun(c, s, ex);
  }
}
