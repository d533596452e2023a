/** The optimizer over a whole module. */
module Optimizer {
  import opened Sir
  import opened SirModules
  import opened ModuleLift
  import opened ModulePass
  import opened RefinedModules
  import opened Ssa
  import opened Assigned
  import opened VmExecutes
  import opened Fitness
  import opened FunctionPasses
  import opened BaseCasePass
  import opened ConstEvalPass
  import opened GlobalDce

  /** What the type checker and the builder see to: distinct names, calls by name with the arguments their callee
      fetches. */
  ghost predicate Callable(mod: Module) {
    ModuleOk(mod) && forall i: nat | i < |mod| :: CallsMatch(mod, mod[i].code) && CallsDirectly(mod[i].code)
  }

  lemma CertifiedIsFit(mod: Module, certs: nat -> Cert)
    requires Callable(mod) && Certified(mod, certs)
    ensures Fit(mod)
  {
    hide ModuleOk, CallsMatch, CallsDirectly, StrictSsa, IsAssigned;
    forall i: nat | i < |mod| ensures IsAssigned(mod[i].code, VREGS) { SsaIsAssigned(certs(i), mod[i].code, VREGS); }
  }

  /** Calls of the functions that stay are refined, when different symbols have different addresses. */
  ghost predicate KeptCallsRefined(mod: Module, mid: Module, mod': Module) {
    && SameNames(mod, mid)
    && forall m: Machine, i: nat | Linked(m, Symbols(mid)) && i < |mid| && mid[i] in mod' ::
      RefinedCall(m, mod, mod[i], mod', mid[i])
  }

  lemma SameCallsRefined(m: Machine, mod: Module, mod': Module, i: nat)
    requires SameCalls(mod, mod') && Linked(m, Names(mod)) && i < |mod|
    ensures i < |mod'| && RefinedCall(m, mod, mod[i], mod', mod'[i])
  {
    hide Delivers, Linked;
  }

  lemma SameNamesLinked(m: Machine, mod: Module, mod': Module)
    requires SameNames(mod, mod') && Linked(m, Symbols(mod'))
    ensures Linked(m, Names(mod)) && Linked(m, Names(mod'))
  {
    hide Linked;
    forall d | d in mod
      ensures d.name in Names(mod')
    {
      var j :| 0 <= j < |mod| && mod[j] == d;
      assert mod'[j] in mod';
    }
    SmallerLinked(m, Names(mod), Symbols(mod'));
    SmallerLinked(m, Names(mod'), Symbols(mod'));
  }

  lemma SmallerLinked(m: Machine, a: set<string>, b: set<string>)
    requires Linked(m, b) && a <= b
    ensures Linked(m, a)
  {}

  /** Dropping the functions nobody names keeps the calls of the others. */
  lemma KeptIsRefined(m: Machine, mod: Module, i: nat)
    requires Fit(mod) && Linked(m, Symbols(mod)) && i < |mod| && mod[i] in Kept(mod)
    ensures RefinedCall(m, mod, mod[i], Kept(mod), mod[i])
  {
    hide Linked, Invoke, Kept, Symbols, IsAssigned, CallsMatch, CallsDirectly, Named, ModuleOk;
    KeptIsNamed(mod, i);
    forall n: nat, params: seq<i64>, w: World
      ensures Invoke(m, Kept(mod), mod[i], params, w, n) == Invoke(m, mod, mod[i], params, w, n)
    {
      KeptCalls(m, mod, i, params, w, n);
    }
  }

  lemma KeptIsNamed(mod: Module, i: nat)
    requires ModuleOk(mod) && i < |mod| && mod[i] in Kept(mod)
    ensures Named(mod, i)
  {
    hide Named;
    KeptHolds(mod, set x: nat | x < |mod| && Named(mod, x), 0, mod[i]);
  }

  /** The passes after those over single functions, one after the other. */
  lemma ChainRefines(mod: Module, one: Module, two: Module, mid: Module, mod': Module)
    requires RefinedCalls(mod, one) && SameCalls(one, two) && SameCalls(two, mid)
    requires mod' == mid || (Fit(mid) && mod' == Kept(mid))
    ensures KeptCallsRefined(mod, mid, mod')
  {
    hide Linked, RefinedCall, Kept, Fit, Symbols, SameCalls, RefinedCalls;
    SameNamesAll(mod, one, two, mid);
    forall m: Machine, i: nat | Linked(m, Symbols(mid)) && i < |mid| && mid[i] in mod'
      ensures RefinedCall(m, mod, mod[i], mod', mid[i])
    {
      SameNamesLinked(m, one, mid);
      SameNamesLinked(m, two, mid);
      RefinedThere(m, mod, one, i);
      SameCallsRefined(m, one, two, i);
      SameCallsRefined(m, two, mid, i);
      RefinedCallTransitive(m, mod, mod[i], one, one[i], two, two[i]);
      RefinedCallTransitive(m, mod, mod[i], two, two[i], mid, mid[i]);
      if mod' != mid {
        KeptIsRefined(m, mid, i);
        RefinedCallTransitive(m, mod, mod[i], mid, mid[i], mod', mid[i]);
      }
    }
  }

  lemma RefinedThere(m: Machine, mod: Module, one: Module, i: nat)
    requires RefinedCalls(mod, one) && i < |mod| && i < |one|
    ensures RefinedCall(m, mod, mod[i], one, one[i])
  {
    hide RefinedCall;
  }

  lemma SameNamesAll(mod: Module, one: Module, two: Module, mid: Module)
    requires RefinedCalls(mod, one) && SameCalls(one, two) && SameCalls(two, mid)
    ensures SameNames(mod, mid) && SameNames(one, mid) && SameNames(two, mid)
  {
    hide RefinedCall, Delivers;
  }

  /** What the passes of a level have brought about: functions left tidy, then base cases expanded from level 2 on, then
      constant calls evaluated from level 3 on. */
  ghost predicate PassesDone(one: Module, two: Module, mid: Module, level: nat, fuel: nat) {
    && AllTidy(one, level, |one|)
    && (if level >= 2 then AllExpanded(one, two, fuel) else two == one)
    && (if level >= 3 then ConstantsEvaluated(two, mid) else mid == two)
  }

  /** The passes of an optimization level.  `one`, `two` and `mid` are the modules in between, `mid` the one before
      unnamed functions are dropped; the functions that stay answer every call that did not fault as they did before. */
  method OptimizeModule(md: SirModule, level: nat, fuel: nat, ghost certs: nat -> Cert)
    returns (ghost one: Module, ghost two: Module, ghost mid: Module)
    requires AllWellFormed(md.funcs)
    requires level >= 2 ==> Callable(md.funcs) && Certified(md.funcs, certs)
    modifies md
    ensures KeptCallsRefined(old(md.funcs), mid, md.funcs) && PassesDone(one, two, mid, level, fuel)
    ensures md.funcs == if level >= 2 then Kept(mid) else mid
  {
    hide RefinedCalls, SameCalls, AllWellFormed, AllTidy, AllExpanded, ConstantsEvaluated, Fit, Callable, Certified,
      Kept, KeptCallsRefined;
    ghost var mod := md.funcs;
    if level >= 2 { CertifiedIsFit(mod, certs); }
    OptimizeFunctions(md, level, certs);
    one := md.funcs;
    SameCallsReflexive(one);
    if level >= 2 {
      FitParts(one);
      ExpandBaseCases(md, fuel);
    }
    two := md.funcs;
    SameCallsReflexive(two);
    if level >= 3 {
      FitParts(two);
      EvaluateConstants(md);
    }
    mid := md.funcs;
    if level >= 2 {
      FitParts(mid);
      EliminateFunctions(md);
    }
    ChainRefines(mod, one, two, mid, md.funcs);
  }

  /** The program as a whole: a run of an entry point that does not fault ends as it did before. */
  lemma EntryPointsAgree(m: Machine, mod: Module, mid: Module, mod': Module, i: nat, params: seq<i64>, w: World,
        o: Outcome)
    requires KeptCallsRefined(mod, mid, mod') && (mod' == mid || mod' == Kept(mid)) && Linked(m, Symbols(mid))
    requires i < |mod| && (mod[i].name == "princeps" || mod[i].name == "__scorivm_init")
    requires !Delivers(m, mod, mod[i], params, w, Fault)
    ensures i < |mid| && mid[i] in mod'
    ensures Delivers(m, mod, mod[i], params, w, o) <==> Delivers(m, mod', mid[i], params, w, o)
  {
    hide Linked, Delivers, RefinedCall, Symbols, Kept;
    assert mid[i].name == mod[i].name;
    if mod' == Kept(mid) { RootStays(mid, i); }
    SameCallsRefine(m, mod, mod[i], mod', mid[i], params, w, o);
  }

  lemma RootStays(mod: Module, i: nat)
    requires i < |mod| && IsRoot(mod[i])
    ensures mod[i] in Kept(mod)
  {
    hide Named;
    RootIsNamed(mod, i);
    KeptHolds(mod, set x: nat | x < |mod| && Named(mod, x), 0, mod[i]);
  }

  lemma FitParts(mod: Module)
    requires Fit(mod)
    ensures ModuleOk(mod) && VmOk(mod)
  {
    hide ModuleOk, IsAssigned, CallsMatch, CallsDirectly;
  }
}
