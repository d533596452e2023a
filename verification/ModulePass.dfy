/** The mutable module object and what passes over whole modules share. */
module ModulePass {
  import opened Sir
  import opened SirModules
  import opened Interpret
  import opened ModuleLift
  import opened Prune

  class SirModule {
    /** The functions with a body, in order of declaration. */
    var funcs: Module

    constructor (mod: Module)
      ensures funcs == mod
    {
      funcs := mod;
    }
  }

  predicate ModuleOk(mod: Module) { DistinctNames(mod) && forall d | d in mod :: CodeOk(d.code) }

  lemma {:induction false} LookupAt(mod: Module, i: nat)
    requires DistinctNames(mod) && i < |mod|
    ensures Lookup(mod, mod[i].name) == Some(mod[i])
  {
    if i > 0 {
      assert mod[0].name != mod[i].name;
      assert forall j, k | 0 <= j < k < |mod[1..]| ::
        mod[1..][j].name == mod[j + 1].name && mod[1..][k].name == mod[k + 1].name;
      LookupAt(mod[1..], i - 1);
    }
  }

  /** Replacing one function by one that is as well formed. */
  lemma ReplaceKeepsOk(mod: Module, i: nat, f: Func)
    requires ModuleOk(mod) && i < |mod| && CodeOk(f)
    ensures ModuleOk(mod[i := mod[i].(code := f)]) && SameNames(mod, mod[i := mod[i].(code := f)])
  {
    hide CodeOk;
    var mod' := mod[i := mod[i].(code := f)];
    forall d | d in mod'
      ensures CodeOk(d.code)
    {
      var j :| 0 <= j < |mod'| && mod'[j] == d;
      if j != i { assert mod[j] in mod; }
    }
  }

  lemma FunctionOk(mod: Module, i: nat)
    requires ModuleOk(mod) && i < |mod|
    ensures CodeOk(mod[i].code) && Lookup(mod, mod[i].name) == Some(mod[i])
  {
    LookupAt(mod, i);
  }

  lemma SameCallsReflexive(mod: Module)
    ensures SameCalls(mod, mod)
  {
    hide Delivers;
  }

  lemma RestrictKeepsOk(f: Func, keep: set<nat>)
    requires CodeOk(f) && WellFormed(Restrict(f, keep))
    ensures CodeOk(Restrict(f, keep))
  {}

  lemma ReplaceSameCode(mod: Module, i: nat, f: Func)
    requires i < |mod| && SameRuns(mod[i].code, f)
    ensures SameCalls(mod, mod[i := mod[i].(code := f)])
  {
    hide SameCalls;
    SameCodeSameCalls(mod, mod[i := mod[i].(code := f)]);
  }
}
