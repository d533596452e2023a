/** The passes that look at one function at a time, over a whole module. */
module FunctionPasses {
  import opened Sir
  import opened SirFunctions
  import opened SirModules
  import opened ModulePass
  import opened Refinement
  import opened RefinedModules
  import opened Ssa
  import opened Assigned
  import opened Fitness
  import opened PropagationPass
  import opened DeadCode
  import opened Threading
  import opened Settled
  import opened Tidy

  ghost predicate AllWellFormed(mod: Module) { forall j | 0 <= j < |mod| :: WellFormed(mod[j].code) }

  lemma RefinedFunctionsReflexive(mod: Module)
    ensures RefinedFunctions(mod, mod)
  {
    hide Refines, SameEnds;
    forall j | 0 <= j < |mod|
      ensures Refines(mod[j].code, mod[j].code)
    {
      SameEndsReflexive(mod[j].code);
      SameEndsRefines(mod[j].code, mod[j].code);
    }
  }

  lemma ReplacedRefines(mod: Module, mod1: Module, i: nat, f: Func)
    requires RefinedFunctions(mod, mod1) && i < |mod1| && Refines(mod1[i].code, f)
    ensures RefinedFunctions(mod, mod1[i := mod1[i].(code := f)])
  {
    hide Refines;
    var mod' := mod1[i := mod1[i].(code := f)];
    RefinesTransitive(mod[i].code, mod1[i].code, f);
  }

  lemma OldDerives(f: Func, g: Func)
    requires OnlyOld(f, g)
    ensures Derives(f, g)
  {
    hide Alike;
    forall b, y | b in g.body && y in g.body[b] ensures AlikeOneOf(f, b, y) { AlikeItself(f, b, y); }
  }

  lemma SkeletonDerives(f: Func, g: Func)
    requires SameSkeleton(f, g)
    ensures Derives(f, g)
  {
    hide KeepsAssigned, SameRegisters;
    forall b, y | b in g.body && y in g.body[b]
      ensures AlikeOneOf(f, b, y)
    {
      var k :| 0 <= k < |g.body[b]| && g.body[b][k] == y;
      assert f.body[b][k] in f.body[b] && Alike(f.body[b][k], y);
    }
  }

  lemma SkeletonKeepsAssigned(f: Func, g: Func)
    requires SameSkeleton(f, g)
    ensures KeepsAssigned(f, g)
  {
    hide KeepsAssigned, SameRegisters;
  }

  /** Nothing is left to do for any of the passes: from level 2 on no branch decides on a constant and no constant, copy
      or repeated computation is read behind its instruction; at every level each pure instruction is needed and no jump
      leads to an empty jump. */
  ghost predicate TidyFunction(f: Func, level: nat) {
    && (level >= 2 ==> NoConstantBranches(f) && FuncSettled(f)) && NoDeadCode(f) && FullyThreaded(f)
  }

  ghost predicate AllTidy(mod: Module, level: nat, n: nat)
    requires n <= |mod|
  {
    forall j | 0 <= j < n :: TidyFunction(mod[j].code, level)
  }

  lemma StaysTidy(g: Func, h: Func, f: Func, level: nat)
    requires level >= 2 ==> NoConstantBranches(g) && FuncSettled(g)
    requires Thinned(g, h) && OnlyOld(g, h) && NoDeadCode(h) && SameSkeleton(h, f) && FullyThreaded(f) && WellFormed(f)
    ensures TidyFunction(f, level)
  {
    hide NoConstantBranches, FuncSettled, NoDeadCode, FullyThreaded, Thinned, OnlyOld, SameSkeleton, WellFormed;
    ThreadedStaysNeeded(h, f);
    if level >= 2 {
      FewerStayUnbranched(g, h);
      ThinnedStaysSettled(g, h);
      ThreadedStaysUnbranched(h, f);
      ThreadedStaysSettled(h, f);
    }
  }

  /** Propagation from level 2 on, then dead code elimination, then threading. */
  method OptimizeFunction(fn: SirFunction, level: nat, ghost c: Cert)
    requires WellFormed(fn.Snapshot()) && (level >= 2 ==> StrictSsa(c, fn.Snapshot()))
    modifies fn
    ensures WellFormed(fn.Snapshot()) && TidyFunction(fn.Snapshot(), level)
    ensures Refines(old(fn.Snapshot()), fn.Snapshot()) && StaysFit(old(fn.Snapshot()), fn.Snapshot())
  {
    hide WellFormed, Refines, FullyThreaded, NoDeadCode, SameSkeleton, SameEnds, Lockstep, StaysFit, StrictSsa,
      NoConstantBranches, FromLow, Derives, IsAssigned, SameRuns, OnlyOld, FuncSettled, Thinned, TidyFunction;
    ghost var f := fn.Snapshot();
    SameEndsReflexive(f);
    SameEndsRefines(f, f);
    DerivesReflexive(f);
    DerivedStaysFit(f, f);
    if level >= 2 {
      PropagateConstants(fn, c);
      LockstepRefines(f, fn.Snapshot());
      DerivedStaysFit(f, fn.Snapshot());
    }
    ghost var g := fn.Snapshot();
    EliminateDeadCode(fn);
    ghost var h := fn.Snapshot();
    LockstepRefines(g, h);
    OldDerives(g, h);
    DerivedStaysFit(g, h);
    ThreadJumps(fn);
    StaysTidy(g, h, fn.Snapshot(), level);
    SameEndsRefines(h, fn.Snapshot());
    SkeletonDerives(h, fn.Snapshot());
    SkeletonKeepsAssigned(h, fn.Snapshot());
    DerivedStaysFit(h, fn.Snapshot());
    RefinesTransitive(f, g, h);
    RefinesTransitive(f, h, fn.Snapshot());
    StaysFitTransitive(f, g, h);
    StaysFitTransitive(f, h, fn.Snapshot());
  }

  /** Every function comes with a certificate that it is in strict SSA form. */
  ghost predicate Certified(mod: Module, certs: nat -> Cert) {
    forall j: nat | j < |mod| :: StrictSsa(certs(j), mod[j].code)
  }

  /** The passes over single functions, in every function: every call in the module that does not fault ends as it
      did, and none ends otherwise; and the passes have nothing left to do. */
  method OptimizeFunctions(md: SirModule, level: nat, ghost certs: nat -> Cert)
    requires AllWellFormed(md.funcs) && (level >= 2 ==> Certified(md.funcs, certs))
    modifies md
    ensures AllWellFormed(md.funcs) && RefinedCalls(old(md.funcs), md.funcs)
    ensures AllTidy(md.funcs, level, |md.funcs|) && KeepsFit(old(md.funcs), md.funcs)
  {
    hide WellFormed, Refines, TidyFunction, StaysFit, Fit, StrictSsa;
    ghost var mod := md.funcs;
    RefinedFunctionsReflexive(mod);
    for i := 0 to |md.funcs|
      invariant |md.funcs| == |mod| && AllWellFormed(md.funcs) && RefinedFunctions(mod, md.funcs)
      invariant forall j | i <= j < |mod| :: md.funcs[j] == mod[j]
      invariant AllTidy(md.funcs, level, i) && KeepsFit(mod, md.funcs)
    {
      ghost var before := md.funcs;
      var fn := new SirFunction(md.funcs[i].code);
      OptimizeFunction(fn, level, certs(i));
      var code := Func(fn.order, fn.body);
      ReplacedRefines(mod, before, i, code);
      ReplaceKeepsFit(before, i, code);
      md.funcs := md.funcs[i := md.funcs[i].(code := code)];
    }
    RefinedFunctionsRefineCalls(mod, md.funcs);
  }
}
