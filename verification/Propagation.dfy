/** Constant and copy propagation, branch folding and local common subexpression elimination. */
module Propagation {
  import opened Sir
  import opened Ssa

  // ---------------------------------------------------------------------------------------------
  // Finding replacements

  /** The constant or copy an instruction amounts to, if the pass recognises one. */
  function CopyOf(inst: Inst): Option<Value>
    requires ShapeOk(inst)
  {
    if inst.op.Cast? then Some(inst.ops[0])
    else if inst.op.Add? then
      if inst.ops[1] == ConstInt(0) then Some(inst.ops[0])
      else if inst.ops[0] == ConstInt(0) then Some(inst.ops[1])
      else None
    else if inst.op.Sub? && inst.ops[1] == ConstInt(0) then Some(inst.ops[0])
    else if inst.op.Mul? then
      if inst.ops[1] == ConstInt(1) then Some(inst.ops[0])
      else if inst.ops[0] == ConstInt(1) then Some(inst.ops[1])
      else None
    else if inst.op.Div? && inst.ops[1] == ConstInt(1) then Some(inst.ops[0])
    else if inst.op.Select? && inst.ops[0].ConstBool? then Some(if inst.ops[0].b then inst.ops[1] else inst.ops[2])
    else if inst.op.IsArith() && inst.ops[0].ConstInt? && inst.ops[1].ConstInt? then
      match Binary(inst.op, inst.ops[0].i, inst.ops[1].i)
      case None => None
      case Some(v) => Some(ConstInt(v))
    else if inst.op.IsCompare() && inst.ops[0].ConstInt? && inst.ops[1].ConstInt? then
      Some(ConstBool(Binary(inst.op, inst.ops[0].i, inst.ops[1].i) == Some(1)))
    else None
  }

  predicate ValuesEqual(a: Value, b: Value) { a == b && !a.BlockRef? }

  predicate IsCommutative(op: Opcode) {
    op.Add? || op.Mul? || op.And? || op.Or? || op.Xor? || op.IcmpEq? || op.IcmpNe?
  }

  /** `seen` computes what `inst` computes. */
  predicate SameComputation(seen: Inst, inst: Inst) {
    && seen.op == inst.op && |seen.ops| == |inst.ops| && seen.dest.Some?
    && (|| (forall o | 0 <= o < |inst.ops| :: ValuesEqual(seen.ops[o], inst.ops[o]))
        || (|inst.ops| == 2 && IsCommutative(inst.op)
            && ValuesEqual(seen.ops[0], inst.ops[1]) && ValuesEqual(seen.ops[1], inst.ops[0])))
  }

  /** A branch on a constant becomes a jump. */
  function FoldBranch(inst: Inst): Inst
    requires ShapeOk(inst)
  {
    if inst.op.Br? && inst.ops[0].ConstBool? then
      Inst(Jmp, inst.dest, [if inst.ops[0].b then inst.ops[1] else inst.ops[2]])
    else if inst.op.Switch? && inst.ops[0].ConstInt? then
      Inst(Jmp, inst.dest, [FoldSwitch(inst.ops, inst.ops[0].i, 2)])
    else inst
  }

  function FoldSwitch(ops: seq<Value>, c: i64, k: nat): Value
    requires |ops| >= 2
    decreases |ops| - k
  {
    if k + 1 >= |ops| then ops[1]
    else if ops[k] == ConstInt(c) then ops[k + 1]
    else FoldSwitch(ops, c, k + 2)
  }

  // ---------------------------------------------------------------------------------------------
  // The equations of a program in SSA form

  ghost predicate Equation(m: Machine, inst: Inst, regs: Regs, v: nat)
    requires inst.op.IsPureCompute()
  {
    && v in regs
    && EvalAll(m, inst.ops, regs).Some?
    && Compute(inst.op, EvalAll(m, inst.ops, regs).value) == Some(regs[v])
  }

  ghost function Definition(c: Cert, f: Func, v: nat): Inst
    requires SitesOk(c, f) && v in c.site
  {
    f.body[c.site[v].0][c.site[v].1]
  }

  /** The registers are written, and those defined by pure computations satisfy their definitions. */
  ghost predicate Holds(m: Machine, c: Cert, f: Func, regs: Regs, known: set<nat>)
    requires SitesOk(c, f)
  {
    && known <= regs.Keys
    && forall v | v in known && v in c.site && Definition(c, f, v).op.IsPureCompute() ::
      Equation(m, Definition(c, f, v), regs, v)
  }

  /** Wherever `v` is available, `val` is available too and has the same value. */
  ghost predicate Equals(c: Cert, f: Func, v: nat, val: Value)
    requires SitesOk(c, f) && v in c.site
  {
    && (val.VReg? ==> val.r in At(c, f, c.site[v]))
    && forall m: Machine, regs: Regs | Holds(m, c, f, regs, At(c, f, c.site[v]) + {v}) ::
         EvalOperand(m, val, regs) == Some(Int(regs[v]))
  }

  /** `val` ranks below `v`, and if `v` is defined in a live block it equals `v`. */
  ghost predicate Stands(c: Cert, f: Func, v: nat, val: Value)
    requires SitesOk(c, f)
  {
    && v in c.site && !val.BlockRef? && (val.VReg? ==> c.low <= val.r <= c.top && RankOf(c, val.r) < RankOf(c, v))
    && (c.site[v].0 in c.live ==> Equals(c, f, v, val))
  }

  /** Executing an instruction of a strict SSA program keeps the equations. */
  lemma RankGrows(c: Cert, f: Func, u: nat, v: nat)
    requires SitesOk(c, f) && Dominance(c, f) && v in c.site && u in At(c, f, c.site[v])
    ensures u in c.rank && v in c.rank && RankOf(c, u) < RankOf(c, v)
  {
    assert RankOk(c, f, v);
  }

  lemma HoldsStep(m: Machine, params: seq<i64>, c: Cert, f: Func, b: nat, k: nat, regs: Regs, w: World)
    requires StrictSsa(c, f) && b in c.live && b in f.body && k < |f.body[b]|
    requires Holds(m, c, f, regs, At(c, f, (b, k))) && Step(m, params, f.body[b][k], regs, w).Next?
    ensures Holds(m, c, f, Write(regs, f.body[b][k].dest, Step(m, params, f.body[b][k], regs, w).v),
      At(c, f, (b, k + 1)))
  {
    hide StrictSsa, SitesOk, At, Step, Equation, Definition, WellFormed, Dominance, LiveOk, ReadsOk;
    SsaParts(c, f);
    var inst, r := f.body[b][k], Step(m, params, f.body[b][k], regs, w);
    AtStep(c, f, b, k);
    if inst.dest.Some? {
      var regs' := Write(regs, inst.dest, r.v);
      forall u | u in At(c, f, (b, k + 1)) && u in c.site && Definition(c, f, u).op.IsPureCompute()
        ensures Equation(m, Definition(c, f, u), regs', u)
      {
        EquationStep(m, params, c, f, b, k, regs, w, u);
      }
    }
  }

  /** Executing instruction (b, k) keeps the equation of `u`. */
  lemma EquationStep(m: Machine, params: seq<i64>, c: Cert, f: Func, b: nat, k: nat, regs: Regs, w: World, u: nat)
    requires StrictSsa(c, f) && SitesOk(c, f) && b in c.live && b in f.body && k < |f.body[b]|
    requires Holds(m, c, f, regs, At(c, f, (b, k))) && Step(m, params, f.body[b][k], regs, w).Next?
    requires f.body[b][k].dest.Some?
    requires u in At(c, f, (b, k + 1)) && u in c.site && Definition(c, f, u).op.IsPureCompute()
    ensures Equation(m, Definition(c, f, u), Write(regs, f.body[b][k].dest, Step(m, params, f.body[b][k], regs, w).v),
      u)
  {
    hide StrictSsa, Exec, At;
    var inst, def := f.body[b][k], Definition(c, f, u);
    var d, v := inst.dest.value, Step(m, params, inst, regs, w).v;
    assert c.site[d] == (b, k);
    AtStep(c, f, b, k);
    DefinitionAvoids(c, f, b, k, u);
    WriteElsewhere(m, def.ops, regs, d, v);
    hide SitesOk;
    if u == d {
      ComputedValue(m, params, inst, regs, w);
    } else {
      assert Equation(m, def, regs, u);
    }
  }

  lemma ComputedValue(m: Machine, params: seq<i64>, inst: Inst, regs: Regs, w: World)
    requires inst.op.IsPureCompute() && Step(m, params, inst, regs, w).Next?
    ensures EvalAll(m, inst.ops, regs).Some?
    ensures Compute(inst.op, EvalAll(m, inst.ops, regs).value) == Some(Step(m, params, inst, regs, w).v)
  {}

  /** No definition available after instruction (b, k) reads the register that instruction writes. */
  lemma DefinitionAvoids(c: Cert, f: Func, b: nat, k: nat, u: nat)
    requires StrictSsa(c, f) && SitesOk(c, f) && b in c.live && b in f.body && k < |f.body[b]|
    requires f.body[b][k].dest.Some?
    requires u in At(c, f, (b, k + 1)) && u in c.site
    ensures VReg(f.body[b][k].dest.value) !in Definition(c, f, u).ops
  {
    hide StrictSsa, Dominance, At, LiveOk, WellFormed, SitesOk, ReadsOk;
    SsaParts(c, f);
    var d := f.body[b][k].dest.value;
    DefinitionReads(c, f, b, k + 1, u);
    DestSite(c, f, b, k);
    AtStep(c, f, b, k);
    if VReg(d) in Definition(c, f, u).ops {
      RankGrows(c, f, d, u);
      if u != d {
        RankGrows(c, f, u, d);
      }
    }
  }

  /** What the definition of an available register reads is available there. */
  lemma DefinitionReads(c: Cert, f: Func, b: nat, k: nat, u: nat)
    requires StrictSsa(c, f) && SitesOk(c, f) && b in c.live && b in f.body && k <= |f.body[b]| && u in At(c, f, (b, k))
    ensures u in c.site && InFunc(f, c.site[u]) && c.site[u].0 in c.entry
    ensures forall v: nat | VReg(v) in Definition(c, f, u).ops :: v in At(c, f, c.site[u])
  {
    hide StrictSsa, Dominance, At, LiveOk, WellFormed;
    SsaParts(c, f);
    LiveSite(c, f, b, k, u);
    assert ReadsOk(c, f, c.site[u].0, c.site[u].1);
  }

  lemma DestSite(c: Cert, f: Func, b: nat, k: nat)
    requires SitesOk(c, f) && b in f.body && k < |f.body[b]| && f.body[b][k].dest.Some?
    ensures f.body[b][k].dest.value in c.site && c.site[f.body[b][k].dest.value] == (b, k)
  {}

  lemma WriteElsewhere(m: Machine, ops: seq<Value>, regs: Regs, d: nat, v: i64)
    requires VReg(d) !in ops
    ensures EvalAll(m, ops, regs[d := v]) == EvalAll(m, ops, regs)
  {
    forall k | 0 <= k < |ops|
      ensures EvalOperand(m, ops[k], regs[d := v]) == EvalOperand(m, ops[k], regs)
    {
      assert ops[k] in ops;
    }
    EvalAllCongruent(m, ops, regs[d := v], ops, regs);
  }

  // ---------------------------------------------------------------------------------------------
  // A rewritten instruction and a rewritten program

  ghost predicate SameOperands(c: Cert, f: Func, b: nat, k: nat, ops: seq<Value>)
    requires SitesOk(c, f) && b in f.body && k < |f.body[b]|
  {
    forall m: Machine, regs: Regs | Holds(m, c, f, regs, At(c, f, (b, k))) ::
      EvalAll(m, ops, regs) == EvalAll(m, f.body[b][k].ops, regs)
  }

  ghost predicate SameStep(c: Cert, f: Func, b: nat, k: nat, x: Inst)
    requires SitesOk(c, f) && b in f.body && k < |f.body[b]|
  {
    forall m: Machine, params: seq<i64>, regs: Regs, w: World | Holds(m, c, f, regs, At(c, f, (b, k))) ::
      Step(m, params, x, regs, w) == Step(m, params, f.body[b][k], regs, w)
  }

  /** What holds of a rewritten instruction in every block. */
  ghost predicate Reshaped(c: Cert, f: Func, b: nat, k: nat, x: Inst)
    requires SitesOk(c, f) && b in f.body && k < |f.body[b]|
  {
    var inst := f.body[b][k];
    && x.dest == inst.dest && ShapeOk(x) && (x.op.IsTerminator() <==> inst.op.IsTerminator())
    && Targets(x) <= Targets(inst)
    && (forall v: nat | VReg(v) in x.ops :: c.low <= v <= c.top)
    && (x.op.IsPureCompute() ==> x.op == inst.op && ReadsBelow(c, x))
    && Alike(inst, x)
  }

  /** A computation reads what ranks below its result. */
  ghost predicate ReadsBelow(c: Cert, x: Inst) {
    x.dest.Some? ==> forall v: nat | VReg(v) in x.ops :: RankOf(c, v) < RankOf(c, x.dest.value)
  }

  /** What holds of it in live blocks. */
  ghost predicate SameThere(c: Cert, f: Func, b: nat, k: nat, x: Inst)
    requires SitesOk(c, f) && b in f.body && k < |f.body[b]|
  {
    && (forall v: nat | VReg(v) in x.ops :: v in At(c, f, (b, k)))
    && (x.op.IsPureCompute() ==> SameOperands(c, f, b, k, x.ops))
    && SameStep(c, f, b, k, x)
  }

  ghost predicate Rewritten(c: Cert, f: Func, b: nat, k: nat, x: Inst)
    requires SitesOk(c, f) && b in f.body && k < |f.body[b]|
  {
    Reshaped(c, f, b, k, x) && (b in c.live ==> SameThere(c, f, b, k, x))
  }

  ghost predicate RewrittenFunc(c: Cert, f: Func, g: Func)
    requires SitesOk(c, f)
  {
    && g.order == f.order && g.body.Keys == f.body.Keys
    && (forall b | b in f.body :: |g.body[b]| == |f.body[b]|)
    && (forall b, k | b in f.body && 0 <= k < |f.body[b]| :: Rewritten(c, f, b, k, g.body[b][k]))
  }

  lemma SameDests(insts: seq<Inst>, insts': seq<Inst>, k: nat)
    requires |insts| == |insts'| && k <= |insts|
    requires forall i | 0 <= i < |insts| :: insts'[i].dest == insts[i].dest
    ensures Dests(insts'[..k]) == Dests(insts[..k])
    decreases k
  {
    if k > 0 {
      SameDests(insts, insts', k - 1);
      DestsStep(insts, k - 1);
      DestsStep(insts', k - 1);
    }
  }

  lemma AtUnchanged(c: Cert, f: Func, g: Func, p: (nat, nat))
    requires SitesOk(c, f) && RewrittenFunc(c, f, g) && InFunc(f, p)
    ensures InFunc(g, p) && At(c, g, p) == At(c, f, p)
  {
    forall i | 0 <= i < |f.body[p.0]| ensures g.body[p.0][i].dest == f.body[p.0][i].dest {
      assert Rewritten(c, f, p.0, i, g.body[p.0][i]);
    }
    SameDests(f.body[p.0], g.body[p.0], p.1);
  }

  lemma RewrittenBlockOk(c: Cert, f: Func, g: Func, b: nat)
    requires StrictSsa(c, f) && RewrittenFunc(c, f, g) && b in f.body
    ensures BlockOk(g.body[b]) && Successors(g.body[b]) <= Successors(f.body[b])
  {
    hide WellFormed, SitesOk, Dominance, SameThere, At, ReadsOk, LiveOk;
    var insts, insts' := f.body[b], g.body[b];
    forall k | 0 <= k < |insts'|
      ensures ShapeOk(insts'[k]) && (insts'[k].op.IsTerminator() <==> insts[k].op.IsTerminator())
      ensures Targets(insts'[k]) <= Targets(insts[k])
    {
      assert Rewritten(c, f, b, k, insts'[k]);
    }
    assert BlockOk(insts) by { BlocksOk(f, b); }
  }

  lemma BlocksOk(f: Func, b: nat)
    requires WellFormed(f) && b in f.body
    ensures BlockOk(f.body[b]) && Successors(f.body[b]) <= f.body.Keys
  {}

  lemma DominanceKept(c: Cert, f: Func, g: Func)
    requires SitesOk(c, f) && SitesOk(c, g) && Dominance(c, f) && RewrittenFunc(c, f, g)
    ensures Dominance(c, g)
  {
    hide RewrittenFunc, At, RankOk, ClosedAt;
    forall v | v in c.site
      ensures RankOk(c, g, v)
    {
      RankKept(c, f, g, v);
    }
    forall p: (nat, nat) | InFunc(g, p)
      ensures ClosedAt(c, g, p)
    {
      SameExtent(c, f, g, p);
      ClosedKept(c, f, g, p);
    }
  }

  lemma RankKept(c: Cert, f: Func, g: Func, v: nat)
    requires SitesOk(c, f) && SitesOk(c, g) && RewrittenFunc(c, f, g) && v in c.site && RankOk(c, f, v)
    ensures RankOk(c, g, v)
  {
    hide RewrittenFunc, At;
    SiteUnchanged(c, f, g, v);
  }

  lemma ClosedKept(c: Cert, f: Func, g: Func, p: (nat, nat))
    requires SitesOk(c, f) && SitesOk(c, g) && RewrittenFunc(c, f, g) && InFunc(f, p) && InFunc(g, p)
    requires ClosedAt(c, f, p)
    ensures ClosedAt(c, g, p)
  {
    hide RewrittenFunc, At;
    AtUnchanged(c, f, g, p);
    forall v | v in At(c, f, p) && v in c.site
      ensures At(c, g, c.site[v]) <= At(c, g, p)
    {
      SiteUnchanged(c, f, g, v);
    }
  }

  lemma SiteUnchanged(c: Cert, f: Func, g: Func, v: nat)
    requires SitesOk(c, f) && RewrittenFunc(c, f, g) && v in c.site
    ensures InFunc(f, c.site[v]) && InFunc(g, c.site[v]) && At(c, g, c.site[v]) == At(c, f, c.site[v])
  {
    hide RewrittenFunc, At;
    AtUnchanged(c, f, g, c.site[v]);
  }

  lemma SameExtent(c: Cert, f: Func, g: Func, p: (nat, nat))
    requires SitesOk(c, f) && RewrittenFunc(c, f, g)
    ensures InFunc(g, p) <==> InFunc(f, p)
  {}

  lemma UsesKept(c: Cert, f: Func, g: Func, b: nat, k: nat)
    requires SitesOk(c, f) && SitesOk(c, g) && RewrittenFunc(c, f, g) && b in f.body && k < |f.body[b]|
    ensures b in g.body && |g.body[b]| == |f.body[b]| && ReadsOk(c, g, b, k)
  {
    hide At, SameOperands, SameStep;
    AtUnchanged(c, f, g, (b, k));
    assert Rewritten(c, f, b, k, g.body[b][k]);
  }

  lemma LiveKept(c: Cert, f: Func, g: Func, b: nat)
    requires StrictSsa(c, f) && SitesOk(c, f) && SitesOk(c, g) && RewrittenFunc(c, f, g) && b in f.body
    ensures b in g.body && LiveOk(c, g, b)
  {
    hide At, StrictSsa, RewrittenFunc, SitesOk, Dominance, Successors;
    SsaParts(c, f);
    assert LiveOk(c, f, b);
    RewrittenBlockOk(c, f, g, b);
    SameExtent(c, f, g, (b, |f.body[b]|));
    AtUnchanged(c, f, g, (b, |f.body[b]|));
    SameLengths(c, f, g);
  }

  lemma SameLengths(c: Cert, f: Func, g: Func)
    requires SitesOk(c, f) && RewrittenFunc(c, f, g)
    ensures g.order == f.order && g.body.Keys == f.body.Keys && forall b | b in f.body :: |g.body[b]| == |f.body[b]|
  {}

  /** A rewritten program is in strict SSA form, with the same certificate. */
  lemma RewriteKeepsSsa(c: Cert, f: Func, g: Func)
    requires StrictSsa(c, f) && RewrittenFunc(c, f, g)
    ensures StrictSsa(c, g)
  {
    hide StrictSsa, At, Dominance, WellFormed, SitesOk, RewrittenFunc, ReadsOk, LiveOk;
    SsaParts(c, f);
    RewriteKeepsSites(c, f, g);
    DominanceKept(c, f, g);
    RewriteKeepsShape(c, f, g);
    SameLengths(c, f, g);
    forall b, k | b in g.body && 0 <= k < |g.body[b]|
      ensures ReadsOk(c, g, b, k)
    {
      UsesKept(c, f, g, b, k);
    }
    forall b | b in g.body
      ensures LiveOk(c, g, b)
    {
      LiveKept(c, f, g, b);
    }
    SsaWhole(c, g);
  }

  lemma RewriteKeepsShape(c: Cert, f: Func, g: Func)
    requires StrictSsa(c, f) && RewrittenFunc(c, f, g)
    ensures WellFormed(g)
  {
    hide At, Dominance, SitesOk, ReadsOk, LiveOk, Rewritten;
    forall b | b in g.body
      ensures BlockOk(g.body[b]) && Successors(g.body[b]) <= g.body.Keys
    {
      RewrittenBlockOk(c, f, g, b);
    }
  }

  lemma RewriteKeepsSites(c: Cert, f: Func, g: Func)
    requires SitesOk(c, f) && RewrittenFunc(c, f, g)
    ensures SitesOk(c, g)
  {
    forall b, k | b in f.body && 0 <= k < |f.body[b]|
      ensures g.body[b][k].dest == f.body[b][k].dest
    {
      assert Rewritten(c, f, b, k, g.body[b][k]);
    }
  }

  // ---------------------------------------------------------------------------------------------
  // Rewriting preserves runs

  ghost predicate SameBlockResult(m: Machine, c: Cert, f: Func, r: BlockResult, r': BlockResult)
    requires SitesOk(c, f)
  {
    r' == r && (r.Goto? ==> r.id in c.live && r.id in f.body && Holds(m, c, f, r.regs, c.entry[r.id]))
  }

  lemma {:induction false} RewriteBlockRuns(m: Machine, params: seq<i64>, c: Cert, f: Func, g: Func, b: nat, k: nat,
        regs: Regs, w: World)
    requires StrictSsa(c, f) && SitesOk(c, f) && RewrittenFunc(c, f, g) && b in c.live && b in f.body && b in g.body
    requires k <= |f.body[b]| == |g.body[b]|
    requires Holds(m, c, f, regs, At(c, f, (b, k)))
    ensures SameBlockResult(m, c, f, RunBlock(m, params, f.body[b][k..], regs, w),
      RunBlock(m, params, g.body[b][k..], regs, w))
    decreases |f.body[b]| - k
  {
    hide Step, StrictSsa, SitesOk, RewrittenFunc, Holds, At;
    if k < |f.body[b]| {
      var inst, x := f.body[b][k], g.body[b][k];
      assert f.body[b][k..][0] == inst && f.body[b][k..][1..] == f.body[b][k + 1..];
      assert g.body[b][k..][0] == x && g.body[b][k..][1..] == g.body[b][k + 1..];
      SameStepThere(m, params, c, f, g, b, k, regs, w);
      match Step(m, params, inst, regs, w)
      case Finish(_) =>
      case Jump(s) =>
        JumpHolds(m, params, c, f, b, k, regs, w);
      case Next(v, w') =>
        HoldsStep(m, params, c, f, b, k, regs, w);
        RewriteBlockRuns(m, params, c, f, g, b, k + 1, Write(regs, inst.dest, v), w');
    }
  }

  lemma SameStepThere(m: Machine, params: seq<i64>, c: Cert, f: Func, g: Func, b: nat, k: nat, regs: Regs, w: World)
    requires SitesOk(c, f) && RewrittenFunc(c, f, g) && b in c.live && b in f.body && k < |f.body[b]|
    requires Holds(m, c, f, regs, At(c, f, (b, k)))
    ensures Step(m, params, g.body[b][k], regs, w) == Step(m, params, f.body[b][k], regs, w)
    ensures g.body[b][k].dest == f.body[b][k].dest
  {
    hide SitesOk, Holds, Step, At, SameOperands;
    assert Rewritten(c, f, b, k, g.body[b][k]);
  }

  lemma JumpHolds(m: Machine, params: seq<i64>, c: Cert, f: Func, b: nat, k: nat, regs: Regs, w: World)
    requires StrictSsa(c, f) && SitesOk(c, f) && b in c.live && b in f.body && k < |f.body[b]|
    requires Holds(m, c, f, regs, At(c, f, (b, k))) && Step(m, params, f.body[b][k], regs, w).Jump?
    ensures var s := Step(m, params, f.body[b][k], regs, w).id;
      s in c.live && s in f.body && s in c.entry && Holds(m, c, f, regs, c.entry[s])
  {
    hide StrictSsa, At, Step, WellFormed, Dominance, SitesOk, ReadsOk;
    SsaParts(c, f);
    var s := Step(m, params, f.body[b][k], regs, w).id;
    JumpIsTarget(m, params, f.body[b][k], regs, w);
    BlocksOk(f, b);
    JumpIsLast(f.body[b], k);
    AtStep(c, f, b, k);
    assert LiveOk(c, f, b);
    HoldsLess(m, c, f, regs, At(c, f, (b, k)), c.entry[s]);
  }

  lemma JumpIsLast(insts: seq<Inst>, k: nat)
    requires BlockOk(insts) && k < |insts| && insts[k].op.IsTerminator()
    ensures k == |insts| - 1 && Successors(insts) == Targets(insts[k]) && insts[k].dest.None?
  {
    assert ShapeOk(insts[k]);
  }

  lemma {:induction false} RewriteRuns(m: Machine, params: seq<i64>, c: Cert, f: Func, g: Func, b: nat, regs: Regs,
        w: World, fuel: nat)
    requires StrictSsa(c, f) && SitesOk(c, f) && RewrittenFunc(c, f, g) && b in c.live && b in f.body && b in g.body
    requires b in c.entry
    requires Holds(m, c, f, regs, c.entry[b])
    ensures Run(m, g, params, b, regs, w, fuel) == Run(m, f, params, b, regs, w, fuel)
    decreases fuel
  {
    hide RunBlock, StrictSsa, SitesOk, RewrittenFunc, Holds, LiveOk, ReadsOk, WellFormed, Dominance;
    SsaParts(c, f);
    SameLengths(c, f, g);
    if fuel > 0 {
      assert At(c, f, (b, 0)) == c.entry[b];
      assert f.body[b][0..] == f.body[b] && g.body[b][0..] == g.body[b];
      RewriteBlockRuns(m, params, c, f, g, b, 0, regs, w);
      match RunBlock(m, params, f.body[b], regs, w)
      case End(_) =>
      case Goto(b', regs', w') => RewriteRuns(m, params, c, f, g, b', regs', w', fuel - 1);
    }
  }

  lemma RewriteRunsAlike(m: Machine, params: seq<i64>, c: Cert, f: Func, g: Func, w: World, n: nat)
    requires StrictSsa(c, f) && SitesOk(c, f) && RewrittenFunc(c, f, g)
    ensures RunFunc(m, g, params, w, n) == RunFunc(m, f, params, w, n)
  {
    hide StrictSsa, SitesOk, RewrittenFunc, Run;
    SsaParts(c, f);
    SameLengths(c, f, g);
    assert Holds(m, c, f, map[], {});
    RewriteRuns(m, params, c, f, g, f.order[0], map[], w, n);
  }

  lemma RewritingDerives(c: Cert, f: Func, g: Func)
    requires SitesOk(c, f) && RewrittenFunc(c, f, g)
    ensures Derives(f, g)
  {
    hide SitesOk, SameThere, Alike;
    forall b, y | b in g.body && y in g.body[b]
      ensures AlikeOneOf(f, b, y)
    {
      var k :| 0 <= k < |g.body[b]| && g.body[b][k] == y;
      assert Rewritten(c, f, b, k, y) && Alike(f.body[b][k], y);
    }
  }

  /** Every run of a rewritten strict SSA program is, block for block, the run of the original. */
  lemma RewritePreserves(c: Cert, f: Func, g: Func)
    requires StrictSsa(c, f) && RewrittenFunc(c, f, g)
    ensures SameRuns(f, g)
  {
    hide StrictSsa, SitesOk, RewrittenFunc, RunFunc;
    SsaParts(c, f);
    forall m: Machine, params: seq<i64>, w: World, n: nat
      ensures RunFunc(m, g, params, w, n) == RunFunc(m, f, params, w, n)
    {
      RewriteRunsAlike(m, params, c, f, g, w, n);
    }
  }

  // ---------------------------------------------------------------------------------------------
  // Why each rewriting is right

  lemma HoldsLess(m: Machine, c: Cert, f: Func, regs: Regs, known: set<nat>, known': set<nat>)
    requires SitesOk(c, f) && known' <= known && Holds(m, c, f, regs, known)
    ensures Holds(m, c, f, regs, known')
  {}

  lemma AvailableIsClosed(c: Cert, f: Func, p: (nat, nat), v: nat)
    requires SitesOk(c, f) && Dominance(c, f) && InFunc(f, p) && v in At(c, f, p)
    ensures v in c.site && At(c, f, c.site[v]) + {v} <= At(c, f, p)
  {
    AtHasSite(c, f, p, v);
    assert ClosedAt(c, f, p);
  }

  function NewOperand(op: Value, table: map<nat, Value>): Value {
    if op.VReg? && op.r in table then table[op.r] else op
  }

  function NewOperands(ops: seq<Value>, table: map<nat, Value>): seq<Value> {
    seq(|ops|, k requires 0 <= k < |ops| => NewOperand(ops[k], table))
  }

  ghost predicate TableOk(c: Cert, f: Func, table: map<nat, Value>)
    requires SitesOk(c, f)
  {
    forall v | v in table :: Stands(c, f, v, table[v])
  }

  lemma NewOperandOk(c: Cert, f: Func, b: nat, k: nat, table: map<nat, Value>, op: Value)
    requires StrictSsa(c, f) && SitesOk(c, f) && b in c.live && b in f.body && k < |f.body[b]| && TableOk(c, f, table)
    requires op in f.body[b][k].ops
    ensures NewOperand(op, table).VReg? ==> NewOperand(op, table).r in At(c, f, (b, k))
    ensures forall m: Machine, regs: Regs | Holds(m, c, f, regs, At(c, f, (b, k))) ::
      EvalOperand(m, NewOperand(op, table), regs) == EvalOperand(m, op, regs)
  {
    SsaParts(c, f);
    hide StrictSsa, WellFormed, Dominance, At, LiveOk, SitesOk, Holds, EvalOperand;
    assert ReadsOk(c, f, b, k);
    if op.VReg? && op.r in table {
      AvailableIsClosed(c, f, (b, k), op.r);
      LiveSite(c, f, b, k, op.r);
      assert Stands(c, f, op.r, table[op.r]) && Equals(c, f, op.r, table[op.r]);
      forall m: Machine, regs: Regs | Holds(m, c, f, regs, At(c, f, (b, k)))
        ensures EvalOperand(m, table[op.r], regs) == EvalOperand(m, op, regs)
      {
        HoldsLess(m, c, f, regs, At(c, f, (b, k)), At(c, f, c.site[op.r]) + {op.r});
      }
    }
  }

  /** Replacing registers by values that are not blocks keeps an instruction's shape. */
  lemma ReplacedShape(inst: Inst, table: map<nat, Value>)
    requires ShapeOk(inst) && forall v | v in table :: !table[v].BlockRef?
    ensures var x := inst.(ops := NewOperands(inst.ops, table));
      ShapeOk(x) && Targets(x) == Targets(inst) && Alike(inst, x)
  {
    var ops := NewOperands(inst.ops, table);
    assert forall j | 0 <= j < |inst.ops| ::
      (ops[j].BlockRef? <==> inst.ops[j].BlockRef?) && (ops[j] == inst.ops[j] || inst.ops[j].VReg?);
  }

  lemma ReplacedSame(c: Cert, f: Func, b: nat, k: nat, table: map<nat, Value>)
    requires StrictSsa(c, f) && SitesOk(c, f) && b in c.live && b in f.body && b in c.entry && k < |f.body[b]|
    requires TableOk(c, f, table)
    ensures SameOperands(c, f, b, k, NewOperands(f.body[b][k].ops, table))
    ensures forall v: nat | VReg(v) in NewOperands(f.body[b][k].ops, table) :: v in At(c, f, (b, k))
  {
    hide StrictSsa, SitesOk, At, TableOk, Holds;
    var inst := f.body[b][k];
    var ops := NewOperands(inst.ops, table);
    forall v: nat | VReg(v) in ops
      ensures v in At(c, f, (b, k))
    {
      var j :| 0 <= j < |ops| && ops[j] == VReg(v);
      NewOperandOk(c, f, b, k, table, inst.ops[j]);
    }
    forall m: Machine, regs: Regs | Holds(m, c, f, regs, At(c, f, (b, k)))
      ensures EvalAll(m, ops, regs) == EvalAll(m, inst.ops, regs)
    {
      forall j | 0 <= j < |ops|
        ensures EvalOperand(m, ops[j], regs) == EvalOperand(m, inst.ops[j], regs)
      {
        NewOperandOk(c, f, b, k, table, inst.ops[j]);
      }
      EvalAllCongruent(m, ops, regs, inst.ops, regs);
    }
  }

  lemma ReplacedIsRewritten(c: Cert, f: Func, b: nat, k: nat, table: map<nat, Value>)
    requires StrictSsa(c, f) && SitesOk(c, f) && b in f.body && k < |f.body[b]| && TableOk(c, f, table)
    ensures Rewritten(c, f, b, k, f.body[b][k].(ops := NewOperands(f.body[b][k].ops, table)))
  {
    hide StrictSsa, At, TableOk, NewOperands, SitesOk, Reshaped, SameThere;
    ReplacedIsReshaped(c, f, b, k, table);
    if b in c.live { ReplacedIsSame(c, f, b, k, table); }
  }

  lemma ReplacedIsReshaped(c: Cert, f: Func, b: nat, k: nat, table: map<nat, Value>)
    requires StrictSsa(c, f) && SitesOk(c, f) && b in f.body && k < |f.body[b]| && TableOk(c, f, table)
    ensures Reshaped(c, f, b, k, f.body[b][k].(ops := NewOperands(f.body[b][k].ops, table)))
  {
    hide StrictSsa, At, TableOk, NewOperands, SitesOk, Targets, ShapeOk, Alike;
    InstFacts(c, f, b, k, table);
    ReplacedShape(f.body[b][k], table);
    ReplacedRanks(c, f, b, k, table);
  }

  /** Replacements rank lower still. */
  lemma ReplacedRanks(c: Cert, f: Func, b: nat, k: nat, table: map<nat, Value>)
    requires StrictSsa(c, f) && SitesOk(c, f) && b in f.body && k < |f.body[b]| && TableOk(c, f, table)
    ensures var x := f.body[b][k].(ops := NewOperands(f.body[b][k].ops, table));
      (forall v: nat | VReg(v) in x.ops :: c.low <= v <= c.top) && (x.op.IsPureCompute() ==> ReadsBelow(c, x))
  {
    hide StrictSsa, SitesOk, At, WellFormed, Dominance, LiveOk, RankOf, ReadsOk, TableOk, NewOperands;
    SsaParts(c, f);
    assert ReadsOk(c, f, b, k);
    var inst := f.body[b][k];
    forall v: nat | VReg(v) in NewOperands(inst.ops, table)
      ensures c.low <= v <= c.top
      ensures inst.op.IsPureCompute() && inst.dest.Some? ==> RankOf(c, v) < RankOf(c, inst.dest.value)
    {
      ReplacedRank(c, f, b, k, table, v);
    }
  }

  lemma ReplacedRank(c: Cert, f: Func, b: nat, k: nat, table: map<nat, Value>, v: nat)
    requires SitesOk(c, f) && b in f.body && k < |f.body[b]| && TableOk(c, f, table) && ReadsOk(c, f, b, k)
    requires VReg(v) in NewOperands(f.body[b][k].ops, table)
    ensures c.low <= v <= c.top
    ensures f.body[b][k].op.IsPureCompute() && f.body[b][k].dest.Some?
            ==> RankOf(c, v) < RankOf(c, f.body[b][k].dest.value)
  {
    hide SitesOk, At, RankOf, Stands;
    var inst := f.body[b][k];
    var ops := NewOperands(inst.ops, table);
    var j :| 0 <= j < |ops| && ops[j] == VReg(v);
    assert inst.ops[j] in inst.ops;
    if inst.ops[j].VReg? && inst.ops[j].r in table { StandsIsNoBlock(c, f, inst.ops[j].r, table[inst.ops[j].r]); }
  }

  lemma ReplacedIsSame(c: Cert, f: Func, b: nat, k: nat, table: map<nat, Value>)
    requires StrictSsa(c, f) && SitesOk(c, f) && b in f.body && k < |f.body[b]| && TableOk(c, f, table) && b in c.live
    ensures SameThere(c, f, b, k, f.body[b][k].(ops := NewOperands(f.body[b][k].ops, table)))
  {
    hide StrictSsa, At, TableOk, Holds, Exec, NewOperands, SitesOk;
    InstFacts(c, f, b, k, table);
    ReplacedSame(c, f, b, k, table);
  }

  lemma InstFacts(c: Cert, f: Func, b: nat, k: nat, table: map<nat, Value>)
    requires StrictSsa(c, f) && SitesOk(c, f) && b in f.body && k < |f.body[b]| && TableOk(c, f, table)
    ensures ShapeOk(f.body[b][k]) && b in c.entry && forall v | v in table :: !table[v].BlockRef?
  {
    hide At, ShapeOk, StrictSsa;
    SsaParts(c, f);
    BlocksOk(f, b);
  }

  lemma StandsIsNoBlock(c: Cert, f: Func, v: nat, val: Value)
    requires SitesOk(c, f) && Stands(c, f, v, val)
    ensures !val.BlockRef? && v in c.site && (val.VReg? ==> c.low <= val.r <= c.top && RankOf(c, val.r) < RankOf(c, v))
  {}

  lemma {:induction false} FoldSwitchTarget(m: Machine, ops: seq<Value>, regs: Regs, c: i64, k: nat)
    requires |ops| >= 2 && |ops| % 2 == 0 && k % 2 == 0 && k >= 2 && EvalAll(m, ops, regs).Some? && ops[1].BlockRef?
    requires forall j | 2 <= j < |ops| :: if j % 2 == 0 then ops[j].ConstInt? else ops[j].BlockRef?
    ensures FoldSwitch(ops, c, k) == BlockRef(SwitchTarget(c, EvalAll(m, ops, regs).value, k, ops[1].id))
    ensures FoldSwitch(ops, c, k) in ops
    decreases |ops| - k
  {
    if k + 1 < |ops| {
      var args := EvalAll(m, ops, regs).value;
      assert EvalOperand(m, ops[k], regs) == Some(args[k]) && EvalOperand(m, ops[k + 1], regs) == Some(args[k + 1]);
      if ops[k] != ConstInt(c) {
        FoldSwitchTarget(m, ops, regs, c, k + 2);
      }
    }
  }

  lemma FoldBranchSteps(m: Machine, params: seq<i64>, x: Inst, regs: Regs, w: World)
    requires ShapeOk(x) && EvalAll(m, x.ops, regs).Some?
    ensures Step(m, params, FoldBranch(x), regs, w) == Step(m, params, x, regs, w)
  {
    var args := EvalAll(m, x.ops, regs).value;
    if x.op.Br? && x.ops[0].ConstBool? {
      assert EvalOperand(m, x.ops[0], regs) == Some(args[0]);
    } else if x.op.Switch? && x.ops[0].ConstInt? {
      assert EvalOperand(m, x.ops[0], regs) == Some(args[0]) && EvalOperand(m, x.ops[1], regs) == Some(args[1]);
      FoldSwitchTarget(m, x.ops, regs, x.ops[0].i, 2);
      var target := FoldSwitch(x.ops, x.ops[0].i, 2);
      assert EvalAll(m, [target], regs).Some?;
      assert EvalAll(m, [target], regs).value == [Blk(target.id)];
    }
  }

  lemma {:induction false} FoldSwitchListed(ops: seq<Value>, c: i64, k: nat)
    requires |ops| >= 2 && |ops| % 2 == 0 && k % 2 == 0 && k >= 2 && ops[1].BlockRef?
    requires forall j | 2 <= j < |ops| :: if j % 2 == 0 then ops[j].ConstInt? else ops[j].BlockRef?
    ensures FoldSwitch(ops, c, k).BlockRef? && FoldSwitch(ops, c, k) in ops
    decreases |ops| - k
  {
    if k + 1 < |ops| && ops[k] != ConstInt(c) { FoldSwitchListed(ops, c, k + 2); }
  }

  lemma FoldBranchShape(x: Inst)
    requires ShapeOk(x)
    ensures ShapeOk(FoldBranch(x)) && FoldBranch(x).dest == x.dest && Targets(FoldBranch(x)) <= Targets(x)
    ensures FoldBranch(x).op.IsTerminator() <==> x.op.IsTerminator()
    ensures FoldBranch(x) != x ==> FoldBranch(x).op.Jmp? && !x.op.Jmp? && forall v: nat :: VReg(v) !in FoldBranch(x).ops
    ensures FoldBranch(x) != x ==> forall j | 0 <= j < |x.ops| ::
      !x.ops[j].VReg?  || (x.op.Br? && j > 0) || x.op.Switch?
    ensures x.op.IsPureCompute() ==> FoldBranch(x) == x
  {
    if x.op.Switch? && x.ops[0].ConstInt? { FoldSwitchListed(x.ops, x.ops[0].i, 2); }
  }

  /** Folding keeps a rewritten instruction a rewriting. */
  lemma FoldedIsRewritten(c: Cert, f: Func, b: nat, k: nat, x: Inst)
    requires SitesOk(c, f) && b in f.body && k < |f.body[b]| && Rewritten(c, f, b, k, x)
    ensures Rewritten(c, f, b, k, FoldBranch(x))
  {
    hide SitesOk, At, ShapeOk, FoldBranch, SameOperands, SameStep;
    FoldBranchShape(x);
    assert Alike(x, FoldBranch(x));
    AlikeTransitive(f.body[b][k], x, FoldBranch(x));
    if FoldBranch(x) != x && b in c.live { FoldedSame(c, f, b, k, x); }
  }

  lemma FoldedSame(c: Cert, f: Func, b: nat, k: nat, x: Inst)
    requires SitesOk(c, f) && b in f.body && k < |f.body[b]| && SameStep(c, f, b, k, x) && ShapeOk(x)
    requires FoldBranch(x) != x
    ensures SameStep(c, f, b, k, FoldBranch(x))
  {
    assert b in c.entry;
    hide SitesOk, At, ShapeOk, FoldBranch, Step;
    var y := FoldBranch(x);
    forall m: Machine, params: seq<i64>, regs: Regs, w: World | Holds(m, c, f, regs, At(c, f, (b, k)))
      ensures Step(m, params, y, regs, w) == Step(m, params, f.body[b][k], regs, w)
    {
      FoldedConstantsEvaluate(m, x, regs);
      FoldBranchSteps(m, params, x, regs, w);
    }
  }

  lemma FoldedConstantsEvaluate(m: Machine, x: Inst, regs: Regs)
    requires ShapeOk(x) && FoldBranch(x) != x
    ensures EvalAll(m, x.ops, regs).Some?
  {}

  lemma CommutativeBinary(op: Opcode, l: i64, r: i64)
    requires IsCommutative(op)
    ensures Binary(op, l, r) == Binary(op, r, l)
  {
    hide Wrap, BitOp, TruncDiv, Pow2;
    if op.And? || op.Or? || op.Xor? { BitLaws(op, l, r); } else if op.Mul? { assert l * r == r * l; }
  }

  /** The recognised constant or copy is the value of the instruction. */
  lemma CopyIsValue(m: Machine, x: Inst, regs: Regs, v: i64)
    requires ShapeOk(x) && x.op.IsPureCompute() && CopyOf(x).Some?
    requires EvalAll(m, x.ops, regs).Some? && Compute(x.op, EvalAll(m, x.ops, regs).value) == Some(v)
    ensures EvalOperand(m, CopyOf(x).value, regs) == Some(Int(v))
    ensures !CopyOf(x).value.BlockRef? && (CopyOf(x).value.VReg? ==> CopyOf(x).value in x.ops)
  {
    var args := EvalAll(m, x.ops, regs).value;
    assert forall j | 0 <= j < |args| :: EvalOperand(m, x.ops[j], regs) == Some(args[j]);
    if x.op.IsArith() || x.op.IsCompare() { CopyOfBinary(m, x, regs, args, v); }
  }

  lemma CopyOfBinary(m: Machine, x: Inst, regs: Regs, args: seq<Arg>, v: i64)
    requires ShapeOk(x) && (x.op.IsArith() || x.op.IsCompare()) && CopyOf(x).Some? && |args| == |x.ops|
    requires forall j | 0 <= j < |args| :: EvalOperand(m, x.ops[j], regs) == Some(args[j])
    requires |args| == 2 && args[0].Int? && args[1].Int? && Binary(x.op, args[0].v, args[1].v) == Some(v)
    ensures EvalOperand(m, CopyOf(x).value, regs) == Some(Int(v))
  {
    if x.ops[0].ConstInt? && x.ops[1].ConstInt? {
      BothConstant(m, x, regs, v);
    } else {
      Neutral(x.op, args[0].v, args[1].v);
    }
  }

  lemma BothConstant(m: Machine, x: Inst, regs: Regs, v: i64)
    requires ShapeOk(x) && (x.op.IsArith() || x.op.IsCompare()) && CopyOf(x).Some?
    requires |x.ops| == 2 && x.ops[0].ConstInt? && x.ops[1].ConstInt?
    requires Binary(x.op, x.ops[0].i, x.ops[1].i) == Some(v)
    ensures EvalOperand(m, CopyOf(x).value, regs) == Some(Int(v))
  {
    hide Wrap, BitOp, Pow2, TruncDiv;
    Neutral(x.op, x.ops[0].i, x.ops[1].i);
  }

  lemma CopyShape(x: Inst)
    requires ShapeOk(x) && x.op.IsPureCompute() && CopyOf(x).Some?
    ensures !CopyOf(x).value.BlockRef? && (CopyOf(x).value.VReg? ==> CopyOf(x).value in x.ops)
  {}

  lemma CopyStands(c: Cert, f: Func, b: nat, k: nat, x: Inst)
    requires SitesOk(c, f) && b in f.body && k < |f.body[b]| && Rewritten(c, f, b, k, x)
    requires x.op.IsPureCompute() && CopyOf(x).Some?
    ensures x.dest.Some? && Stands(c, f, x.dest.value, CopyOf(x).value)
  {
    CopyShape(x);
    assert x.dest.Some? && c.site[x.dest.value] == (b, k);
    hide SitesOk, At, CopyOf, RankOf, ShapeOk, SameThere;
    if b in c.live { CopyEquals(c, f, b, k, x); }
  }

  lemma CopyEquals(c: Cert, f: Func, b: nat, k: nat, x: Inst)
    requires SitesOk(c, f) && b in f.body && k < |f.body[b]| && Reshaped(c, f, b, k, x) && SameThere(c, f, b, k, x)
    requires x.op.IsPureCompute() && CopyOf(x).Some?
    ensures x.dest.Some? && x.dest.value in c.site && Equals(c, f, x.dest.value, CopyOf(x).value)
  {
    hide At, CopyOf, Compute;
    CopyShape(x);
    assert x.dest.Some? && c.site[x.dest.value] == (b, k);
    var v := x.dest.value;
    forall m: Machine, regs: Regs | Holds(m, c, f, regs, At(c, f, (b, k)) + {v})
      ensures EvalOperand(m, CopyOf(x).value, regs) == Some(Int(regs[v]))
    {
      HoldsLess(m, c, f, regs, At(c, f, (b, k)) + {v}, At(c, f, (b, k)));
      assert Equation(m, Definition(c, f, v), regs, v);
      CopyIsValue(m, x, regs, regs[v]);
    }
  }

  lemma SameComputationSameValue(m: Machine, seen: Inst, inst: Inst, regs: Regs)
    requires SameComputation(seen, inst) && inst.op.IsPureCompute() && ShapeOk(seen) && ShapeOk(inst)
    requires EvalAll(m, seen.ops, regs).Some? && EvalAll(m, inst.ops, regs).Some?
    ensures Compute(seen.op, EvalAll(m, seen.ops, regs).value) == Compute(inst.op, EvalAll(m, inst.ops, regs).value)
  {
    var a, b := EvalAll(m, seen.ops, regs).value, EvalAll(m, inst.ops, regs).value;
    assert forall j | 0 <= j < |a| ::
      EvalOperand(m, seen.ops[j], regs) == Some(a[j]) && EvalOperand(m, inst.ops[j], regs) == Some(b[j]);
    if forall o | 0 <= o < |inst.ops| :: ValuesEqual(seen.ops[o], inst.ops[o]) {
      assert a == b;
    } else {
      assert a[0] == b[1] && a[1] == b[0];
      if a[0].Int? && a[1].Int? { CommutativeBinary(inst.op, a[0].v, a[1].v); }
    }
  }

  /** A repeated computation is a copy of the first one. */
  lemma RepeatStands(c: Cert, f: Func, b: nat, i: nat, y: Inst, k: nat, x: Inst)
    requires SitesOk(c, f) && Dominance(c, f) && b in f.body && i < k < |f.body[b]|
    requires Rewritten(c, f, b, i, y) && Rewritten(c, f, b, k, x)
    requires x.op.IsPureCompute() && SameComputation(y, x)
    ensures x.dest.Some? && y.dest.Some? && Stands(c, f, x.dest.value, VReg(y.dest.value))
  {
    hide Dominance, SameThere, Targets, Reshaped, SitesOk, At, SameComputation;
    RepeatSites(c, f, b, i, y, k, x);
    RankGrows(c, f, y.dest.value, x.dest.value);
    if b in c.live { RepeatEquals(c, f, b, i, y, k, x); }
  }

  /** The first result is available where the second is computed. */
  lemma RepeatSites(c: Cert, f: Func, b: nat, i: nat, y: Inst, k: nat, x: Inst)
    requires SitesOk(c, f) && b in f.body && i < k < |f.body[b]| && Reshaped(c, f, b, i, y) && Reshaped(c, f, b, k, x)
    requires x.op.IsPureCompute() && SameComputation(y, x)
    ensures x.dest.Some? && y.dest.Some? && x.dest.value in c.site && y.dest.value in c.site
    ensures c.low <= y.dest.value <= c.top
    ensures c.site[x.dest.value] == (b, k) && c.site[y.dest.value] == (b, i)
    ensures y.dest.value in At(c, f, (b, k)) && At(c, f, (b, i)) <= At(c, f, (b, k))
  {
    hide Alike, ReadsBelow;
    assert x.dest == f.body[b][k].dest && y.dest == f.body[b][i].dest && ShapeOk(x);
    AtStep(c, f, b, i);
    AtMonotone(c, f, b, i + 1, k);
    AtMonotone(c, f, b, i, k);
  }

  lemma RepeatEquals(c: Cert, f: Func, b: nat, i: nat, y: Inst, k: nat, x: Inst)
    requires SitesOk(c, f) && b in f.body && i < k < |f.body[b]| && b in c.live
    requires Rewritten(c, f, b, i, y) && Rewritten(c, f, b, k, x)
    requires x.op.IsPureCompute() && SameComputation(y, x)
    ensures x.dest.Some? && y.dest.Some? && x.dest.value in c.site && Equals(c, f, x.dest.value, VReg(y.dest.value))
  {
    hide SameOperands, SameStep;
    RepeatSites(c, f, b, i, y, k, x);
    hide At, SitesOk;
    var v, s := x.dest.value, y.dest.value;
    forall m: Machine, regs: Regs | Holds(m, c, f, regs, At(c, f, (b, k)) + {v})
      ensures EvalOperand(m, VReg(s), regs) == Some(Int(regs[v]))
    {
      RepeatValue(m, c, f, b, i, y, k, x, regs);
    }
  }

  lemma RepeatValue(m: Machine, c: Cert, f: Func, b: nat, i: nat, y: Inst, k: nat, x: Inst, regs: Regs)
    requires SitesOk(c, f) && b in f.body && i < k < |f.body[b]| && b in c.live
    requires Rewritten(c, f, b, i, y) && Rewritten(c, f, b, k, x)
    requires x.op.IsPureCompute() && SameComputation(y, x) && x.dest.Some?
    requires Holds(m, c, f, regs, At(c, f, (b, k)) + {x.dest.value})
    ensures y.dest.Some? && EvalOperand(m, VReg(y.dest.value), regs) == Some(Int(regs[x.dest.value]))
  {
    hide SameStep, Compute;
    RepeatSites(c, f, b, i, y, k, x);
    hide At, SameComputation;
    var v, s := x.dest.value, y.dest.value;
    HoldsLess(m, c, f, regs, At(c, f, (b, k)) + {v}, At(c, f, (b, k)));
    HoldsLess(m, c, f, regs, At(c, f, (b, k)) + {v}, At(c, f, (b, i)));
    assert Definition(c, f, v) == f.body[b][k] && Definition(c, f, s) == f.body[b][i];
    hide SitesOk;
    SameOpcode(y, x);
    assert Equation(m, Definition(c, f, v), regs, v) && Equation(m, Definition(c, f, s), regs, s);
    SameComputationSameValue(m, y, x, regs);
  }

  lemma SameOpcode(y: Inst, x: Inst)
    requires SameComputation(y, x)
    ensures y.op == x.op && y.dest.Some?
  {}

  // ---------------------------------------------------------------------------------------------
  // Termination measure

  function ValueWeight(c: Cert, v: Value): nat {
    if v.VReg? then 1 + RankOf(c, v.r) else 0
  }

  function OperandWeight(c: Cert, ops: seq<Value>): nat {
    if ops == [] then 0 else ValueWeight(c, ops[0]) + OperandWeight(c, ops[1..])
  }

  function InstWeight(c: Cert, inst: Inst): nat {
    OperandWeight(c, inst.ops) + if inst.op.Br? || inst.op.Switch? then 1 else 0
  }

  function BlockWeight(c: Cert, insts: seq<Inst>): nat {
    if insts == [] then 0 else BlockWeight(c, insts[..|insts| - 1]) + InstWeight(c, insts[|insts| - 1])
  }

  function Weight(c: Cert, order: seq<nat>, body: map<nat, seq<Inst>>): nat {
    if order == [] then 0
    else Weight(c, order[1..], body) + if order[0] in body then BlockWeight(c, body[order[0]]) else 0
  }

  predicate Replaces(ops: seq<Value>, table: map<nat, Value>) {
    exists k :: 0 <= k < |ops| && ops[k].VReg? && ops[k].r in table
  }

  lemma {:induction false} ReplacementIsLighter(c: Cert, f: Func, table: map<nat, Value>, ops: seq<Value>)
    requires SitesOk(c, f) && TableOk(c, f, table)
    ensures OperandWeight(c, NewOperands(ops, table)) <= OperandWeight(c, ops)
    ensures Replaces(ops, table) ==> OperandWeight(c, NewOperands(ops, table)) < OperandWeight(c, ops)
    ensures !Replaces(ops, table) ==> NewOperands(ops, table) == ops
  {
    hide SitesOk, Equals, RankOf;
    if ops != [] {
      var ops' := NewOperands(ops, table);
      assert ops'[1..] == NewOperands(ops[1..], table);
      ReplacementIsLighter(c, f, table, ops[1..]);
      if ops[0].VReg? && ops[0].r in table {
        var val := table[ops[0].r];
        StandsIsNoBlock(c, f, ops[0].r, val);
        assert ops'[0] == val;
      }
      if Replaces(ops, table) {
        var k :| 0 <= k < |ops| && ops[k].VReg? && ops[k].r in table;
        if k > 0 { assert ops[1..][k - 1] == ops[k]; }
      }
      if Replaces(ops[1..], table) {
        var k :| 0 <= k < |ops[1..]| && ops[1..][k].VReg? && ops[1..][k].r in table;
        assert ops[k + 1] == ops[1..][k];
      }
    }
  }

  lemma FoldIsLighter(c: Cert, x: Inst)
    requires ShapeOk(x)
    ensures InstWeight(c, FoldBranch(x)) <= InstWeight(c, x)
    ensures FoldBranch(x) != x ==> InstWeight(c, FoldBranch(x)) < InstWeight(c, x)
  {
    FoldBranchShape(x);
    if FoldBranch(x) != x {
      var y := FoldBranch(x);
      assert |y.ops| == 1 && !y.ops[0].VReg?;
      assert OperandWeight(c, y.ops) == 0;
    }
  }

  lemma {:induction false} WeightDrops(c: Cert, order: seq<nat>, body: map<nat, seq<Inst>>, body': map<nat, seq<Inst>>,
        b: nat)
    requires body.Keys == body'.Keys
    requires forall x | x in body :: BlockWeight(c, body'[x]) <= BlockWeight(c, body[x])
    ensures Weight(c, order, body') <= Weight(c, order, body)
    ensures b in order && b in body && BlockWeight(c, body'[b]) < BlockWeight(c, body[b]) ==>
      Weight(c, order, body') < Weight(c, order, body)
  {
    if order != [] {
      WeightDrops(c, order[1..], body, body', b);
      assert b in order ==> b == order[0] || b in order[1..];
    }
  }
}
