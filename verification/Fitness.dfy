/** What the passes over whole modules ask of a module, and which changes of a function leave it so. */
module Fitness {
  import opened Sir
  import opened SirModules
  import opened Interpret
  import opened ModuleLift
  import opened ModulePass
  import opened Purity
  import opened Assigned
  import opened VmExecutes

  /** Calls name their callee. */
  predicate CallsDirectly(f: Func) {
    forall b, k | b in f.body && 0 <= k < |f.body[b]| && f.body[b][k].op.Call? ::
      f.body[b][k].ops != [] && f.body[b][k].ops[0].Global?
  }

  ghost predicate FitsIn(mod: Module, f: Func) { IsAssigned(f, VREGS) && CallsMatch(mod, f) && CallsDirectly(f) }

  /** The compile-time machine can run the module, and its calls are by name. */
  ghost predicate Fit(mod: Module) { ModuleOk(mod) && forall i: nat | i < |mod| :: FitsIn(mod, mod[i].code) }

  ghost predicate KeepsFit(mod: Module, mod': Module) { Fit(mod) ==> Fit(mod') }

  /** `g` can take the place of `f` in a module that is fit. */
  ghost predicate StaysFit(f: Func, g: Func) {
    CodeOk(f) && CallsDirectly(f) ==>
      && CodeOk(g) && CallsDirectly(g) && KeepsAssigned(f, g)
      && (forall n: nat | NeedsParams(f, n) :: NeedsParams(g, n))
      && forall mod: Module | CallsMatch(mod, f) :: CallsMatch(mod, g)
  }

  lemma StaysFitTransitive(f: Func, g: Func, h: Func)
    requires StaysFit(f, g) && StaysFit(g, h)
    ensures StaysFit(f, h)
  {
    hide CodeOk, CallsDirectly, IsAssigned, NeedsParams, CallsMatch;
  }

  lemma {:induction false} SameIndex(mod: Module, mod': Module, name: string)
    requires SameNames(mod, mod')
    ensures IndexOf(mod, name) == IndexOf(mod', name)
  {
    if mod != [] {
      assert mod'[0].name == mod[0].name;
      if mod[0].name != name { SameIndex(mod[1..], mod'[1..], name); }
    }
  }

  lemma StillMatches(mod: Module, mod': Module, i: nat, f: Func)
    requires SameNames(mod, mod') && i < |mod| && (forall j | 0 <= j < |mod| && j != i :: mod'[j] == mod[j])
    requires mod'[i].fast == mod[i].fast
    requires forall n: nat :: NeedsParams(mod[i].code, n) ==> NeedsParams(mod'[i].code, n)
    requires CallsMatch(mod, f)
    ensures CallsMatch(mod', f)
  {
    hide NeedsParams;
    forall b, k | b in f.body && 0 <= k < |f.body[b]|
      ensures CallMatches(mod', f.body[b][k])
    {
      var inst := f.body[b][k];
      assert CallMatches(mod, inst);
      if inst.op.Call? && inst.ops != [] && inst.ops[0].Global? { SameIndex(mod, mod', inst.ops[0].name); }
    }
  }

  lemma ReplaceKeepsFit(mod: Module, i: nat, g: Func)
    requires i < |mod| && StaysFit(mod[i].code, g)
    ensures KeepsFit(mod, mod[i := mod[i].(code := g)])
  {
    hide CodeOk, CallsDirectly, IsAssigned, NeedsParams, CallsMatch, ModuleOk;
    if Fit(mod) {
      var mod' := mod[i := mod[i].(code := g)];
      FunctionOk(mod, i);
      ReplaceKeepsOk(mod, i, g);
      forall j: nat | j < |mod'|
        ensures FitsIn(mod', mod'[j].code)
      {
        assert FitsIn(mod, mod[j].code);
        StillMatches(mod, mod', i, mod'[j].code);
      }
    }
  }

  lemma AlikeOperands(mod: Module, x: Inst, y: Inst, n: nat)
    requires Alike(x, y) && OperandsOk(x) && (x.op.Call? ==> x.ops != [] && x.ops[0].Global?)
    ensures OperandsOk(y) && (y.op.Call? ==> y.ops != [] && y.ops[0].Global?)
    ensures ParamBelow(x, n) ==> ParamBelow(y, n)
    ensures CallMatches(mod, x) ==> CallMatches(mod, y)
  {
    hide Accepts;
  }

  /** Every instruction of `g` comes from one of `f`. */
  lemma AlikeThere(mod: Module, f: Func, g: Func, n: nat, b: nat, k: nat)
    requires Derives(f, g) && CodeOk(f) && CallsDirectly(f) && b in g.body && k < |g.body[b]|
    ensures OperandsOk(g.body[b][k])
    ensures g.body[b][k].op.Call? ==> g.body[b][k].ops != [] && g.body[b][k].ops[0].Global?
    ensures NeedsParams(f, n) ==> ParamBelow(g.body[b][k], n)
    ensures CallsMatch(mod, f) ==> CallMatches(mod, g.body[b][k])
  {
    hide Alike, OperandsOk, ParamBelow, CallMatches, WellFormed;
    var y := g.body[b][k];
    assert AlikeOneOf(f, b, y);
    var x :| x in f.body[b] && Alike(x, y);
    var j :| 0 <= j < |f.body[b]| && f.body[b][j] == x;
    AlikeOperands(mod, x, y, n);
  }

  lemma DerivedStaysFit(f: Func, g: Func)
    requires Derives(f, g) && KeepsAssigned(f, g) && WellFormed(g)
    ensures StaysFit(f, g)
  {
    hide Derives, KeepsAssigned, WellFormed, OperandsOk, ParamBelow, CallMatches;
    if CodeOk(f) && CallsDirectly(f) {
      forall b, k | b in g.body && 0 <= k < |g.body[b]|
        ensures OperandsOk(g.body[b][k])
        ensures g.body[b][k].op.Call? ==> g.body[b][k].ops != [] && g.body[b][k].ops[0].Global?
      {
        AlikeThere([], f, g, 0, b, k);
      }
      forall n: nat | NeedsParams(f, n)
        ensures NeedsParams(g, n)
      {
        forall b, k | b in g.body && 0 <= k < |g.body[b]| { AlikeThere([], f, g, n, b, k); }
      }
      forall mod: Module | CallsMatch(mod, f)
        ensures CallsMatch(mod, g)
      {
        forall b, k | b in g.body && 0 <= k < |g.body[b]| { AlikeThere(mod, f, g, 0, b, k); }
      }
    }
  }
}
