/** The base-case expansion pass over a module. */
module BaseCasePass {
  import opened Sir
  import opened SirFunctions
  import opened SirModules
  import opened Evaluate
  import opened Interpret
  import opened TryEvaluate
  import opened Alone
  import opened ModuleLift
  import opened Prune
  import opened BaseCase
  import opened ModulePass
  import opened Assigned
  import opened Ssa
  import opened VmExecutes
  import opened Fitness

  predicate CallsItself(d: Decl) {
    exists b, k | b in d.code.body && 0 <= k < |d.code.body[b]| :: IsSelfCall(d.code.body[b][k], d.name)
  }

  predicate IsSelfCall(inst: Inst, name: string) { inst.op.Call? && inst.ops != [] && inst.ops[0] == Global(name) }

  lemma ExpandedIsOk(f: Func, max: nat, p: nat, c: nat, entry: nat, ret: nat, t: i64, r: i64)
    requires CodeOk(f) && Fresh(f, max, p, c, entry, ret)
    ensures var g := WithBaseCase(f, p, c, entry, ret, t, r); CodeOk(g) && StartsWithParam(g)
  {
    hide BlockOk, Successors, OperandsOk, WithBaseCase;
    var g := WithBaseCase(f, p, c, entry, ret, t, r);
    ExpandedBlocks(f, max, p, c, entry, ret, t, r);
    ExpandedOrder(f, max, p, c, entry, ret, t, r);
  }

  lemma ExpandedOrder(f: Func, max: nat, p: nat, c: nat, entry: nat, ret: nat, t: i64, r: i64)
    requires WellFormed(f) && Fresh(f, max, p, c, entry, ret)
    ensures var g := WithBaseCase(f, p, c, entry, ret, t, r);
      && g.order != [] && (set b | b in g.order) == g.body.Keys
      && (forall i, j | 0 <= i < j < |g.order| :: g.order[i] != g.order[j])
  {
    hide BlockOk, Successors;
    var g := WithBaseCase(f, p, c, entry, ret, t, r);
    forall b ensures b in g.order <==> b in g.body {
      assert b in f.order <==> b in (set x | x in f.order);
      assert b in g.order <==> b == entry || b == ret || b in f.order;
    }
    forall i, j | 0 <= i < j < |g.order|
      ensures g.order[i] != g.order[j]
    {
      assert j >= 2 ==> g.order[j] == f.order[j - 2] && f.order[j - 2] in (set x | x in f.order);
      assert i >= 2 ==> g.order[i] == f.order[i - 2];
    }
  }

  lemma ExpandedBlocks(f: Func, max: nat, p: nat, c: nat, entry: nat, ret: nat, t: i64, r: i64)
    requires CodeOk(f) && Fresh(f, max, p, c, entry, ret)
    ensures var g := WithBaseCase(f, p, c, entry, ret, t, r);
      && StartsWithParam(g)
      && (forall b | b in g.body :: BlockOk(g.body[b]) && Successors(g.body[b]) <= g.body.Keys)
      && (forall b, k | b in g.body && 0 <= k < |g.body[b]| :: OperandsOk(g.body[b][k]))
  {
    var g := WithBaseCase(f, p, c, entry, ret, t, r);
    NewBlocks(p, c, entry, ret, f.order[0], t, r);
    assert f.order[0] in (set b | b in f.order);
    var e, a := EntryBlock(p, c, ret, f.order[0], t), AnswerBlock(r);
    assert e[0].op.GetParam? && e[0].ops == [ConstInt(0)];
    hide BlockOk, Successors, OperandsOk, EntryBlock, AnswerBlock;
    assert g.body[entry] == e && g.body[ret] == a && g.body.Keys == f.body.Keys + {entry, ret};
    forall b | b in g.body
      ensures BlockOk(g.body[b]) && Successors(g.body[b]) <= g.body.Keys
      ensures forall k | 0 <= k < |g.body[b]| :: OperandsOk(g.body[b][k])
    {
      if b != entry && b != ret { assert g.body[b] == f.body[b]; }
    }
  }

  lemma NewBlocks(p: nat, c: nat, entry: nat, ret: nat, old_: nat, t: i64, r: i64)
    ensures var e := EntryBlock(p, c, ret, old_, t);
      e != [] && BlockOk(e) && Successors(e) <= {ret, old_} && forall k | 0 <= k < |e| :: OperandsOk(e[k])
    ensures var a := AnswerBlock(r);
      BlockOk(a) && Successors(a) == {} && forall k | 0 <= k < |a| :: OperandsOk(a[k])
  {
    hide EntryBlock, AnswerBlock, BlockOk, Successors, OperandsOk;
    NewEntryBlock(p, c, ret, old_, t);
    NewAnswerBlock(r);
  }

  lemma NewEntryBlock(p: nat, c: nat, ret: nat, old_: nat, t: i64)
    ensures var e := EntryBlock(p, c, ret, old_, t);
      e != [] && BlockOk(e) && Successors(e) <= {ret, old_} && forall k | 0 <= k < |e| :: OperandsOk(e[k])
  {
    NewEntryShape(p, c, ret, old_, t);
    NewEntryTargets(p, c, ret, old_, t);
  }

  lemma NewEntryShape(p: nat, c: nat, ret: nat, old_: nat, t: i64)
    ensures var e := EntryBlock(p, c, ret, old_, t);
      e != [] && BlockOk(e) && forall k | 0 <= k < |e| :: OperandsOk(e[k])
  {}

  lemma NewEntryTargets(p: nat, c: nat, ret: nat, old_: nat, t: i64)
    ensures Successors(EntryBlock(p, c, ret, old_, t)) <= {ret, old_}
  {}

  lemma NewAnswerBlock(r: i64)
    ensures var a := AnswerBlock(r);
      BlockOk(a) && Successors(a) == {} && forall k | 0 <= k < |a| :: OperandsOk(a[k])
  {}

  /** The new entry writes what it reads; the old one expects nothing. */
  lemma ExpandedAssigns(f: Func, p: nat, c: nat, entry: nat, ret: nat, t: i64, r: i64, n: nat)
    requires WellFormed(f) && entry !in f.body && ret !in f.body && entry != ret && IsAssigned(f, n)
    ensures IsAssigned(WithBaseCase(f, p, c, entry, ret, t, r), n)
  {
    hide BlockOk, Successors, ReadsAssigned, Dests, EntryBlock, AnswerBlock;
    var g := WithBaseCase(f, p, c, entry, ret, t, r);
    var a :| Assigns(a, f, n);
    assert f.order[0] in (set b | b in f.order);
    var a' := Guarantee(a.entry[entry := {}][ret := {}], a.live + {entry, ret});
    NewBlocks(p, c, entry, ret, f.order[0], t, r);
    NewBlocksRead(p, c, ret, f.order[0], t, r, n);
    forall b | b in g.body
      ensures BlockAssigns(a', g, b, n)
    {
      if b != entry && b != ret { assert BlockAssigns(a, f, b, n); }
    }
    assert Assigns(a', g, n);
  }

  lemma NewBlocksRead(p: nat, c: nat, ret: nat, old_: nat, t: i64, r: i64, n: nat)
    ensures ReadsAssigned({}, EntryBlock(p, c, ret, old_, t), n) && ReadsAssigned({}, AnswerBlock(r), n)
  {
    var e := EntryBlock(p, c, ret, old_, t);
    assert e[..1][0].dest == Some(p) && e[..2][1].dest == Some(c);
    assert p in Dests(e[..1]) && c in Dests(e[..2]);
  }

  lemma ExpandedCalls(mod: Module, f: Func, p: nat, c: nat, entry: nat, ret: nat, t: i64, r: i64, n: nat)
    requires StartsWithParam(f)
    ensures var g := WithBaseCase(f, p, c, entry, ret, t, r);
      && (CallsMatch(mod, f) ==> CallsMatch(mod, g)) && (NeedsParams(f, n) ==> NeedsParams(g, n))
      && (CallsDirectly(f) ==> CallsDirectly(g))
  {
    hide CallMatches;
    var g := WithBaseCase(f, p, c, entry, ret, t, r);
    var first := f.body[f.order[0]][0];
    assert NeedsParams(f, n) ==> ParamBelow(first, n);
    assert forall b | b in g.body && b != entry && b != ret :: b in f.body && g.body[b] == f.body[b];
    forall b, k | b in g.body && 0 <= k < |g.body[b]| && (b == entry || b == ret)
      ensures !g.body[b][k].op.Call? && CallMatches(mod, g.body[b][k]) && (n > 0 ==> ParamBelow(g.body[b][k], n))
    {
      NoCalls(mod, p, c, ret, f.order[0], t, r);
    }
  }

  lemma NoCalls(mod: Module, p: nat, c: nat, ret: nat, old_: nat, t: i64, r: i64)
    ensures forall x | x in EntryBlock(p, c, ret, old_, t) + AnswerBlock(r) :: !x.op.Call? && CallMatches(mod, x)
  {}

  lemma ExpandedStaysFit(f: Func, max: nat, p: nat, c: nat, entry: nat, ret: nat, t: i64, r: i64)
    requires f.order != [] && StartsWithParam(f) && Fresh(f, max, p, c, entry, ret)
    ensures StaysFit(f, WithBaseCase(f, p, c, entry, ret, t, r))
  {
    hide CallsDirectly, CallsMatch, NeedsParams, WithBaseCase, IsAssigned, StartsWithParam, OperandsOk, WellFormed;
    var g := WithBaseCase(f, p, c, entry, ret, t, r);
    if CodeOk(f) {
      ExpandedIsOk(f, max, p, c, entry, ret, t, r);
      ExpandedCalls([], f, p, c, entry, ret, t, r, 0);
      forall n: nat | IsAssigned(f, n) ensures IsAssigned(g, n) { ExpandedAssigns(f, p, c, entry, ret, t, r, n); }
      forall n: nat | NeedsParams(f, n) { ExpandedCalls([], f, p, c, entry, ret, t, r, n); }
      forall mod: Module | CallsMatch(mod, f) { ExpandedCalls(mod, f, p, c, entry, ret, t, r, 0); }
    }
  }

  method HasRecursion(d: Decl) returns (r: bool)
    requires CodeOk(d.code)
    ensures r <==> CallsItself(d)
  {
    hide BlockOk;
    for j := 0 to |d.code.order|
      invariant forall i, k | 0 <= i < j && d.code.order[i] in d.code.body && 0 <= k < |d.code.body[d.code.order[i]]| ::
        !IsSelfCall(d.code.body[d.code.order[i]][k], d.name)
    {
      var b := d.code.order[j];
      assert b in (set x | x in d.code.order);
      for k := 0 to |d.code.body[b]|
        invariant forall k' | 0 <= k' < k :: !IsSelfCall(d.code.body[b][k'], d.name)
      {
        var inst := d.code.body[b][k];
        if inst.op.Call? && inst.ops != [] && inst.ops[0] == Global(d.name) {
          assert IsSelfCall(inst, d.name);
          return true;
        }
      }
    }
    forall b, k | b in d.code.body && 0 <= k < |d.code.body[b]|
      ensures !IsSelfCall(d.code.body[b][k], d.name)
    {
      assert b in (set x | x in d.code.order);
      var i :| 0 <= i < |d.code.order| && d.code.order[i] == b;
    }
    return false;
  }

  /** A right answer put in front of a function changes no call. */
  lemma AnswerInFront(mod: Module, i: nat, max: nat, top: nat, t: i64, r: i64, need: nat)
    requires ModuleOk(mod) && i < |mod| && StartsWithParam(mod[i].code) && InRange(mod[i].code, max)
    requires (forall b | b in mod[i].code.body :: b <= top) && AnswersBy(mod, mod[i], [t], r, need)
    ensures mod[i].code.order != []
    ensures var code := WithBaseCase(mod[i].code, max + 1, max + 2, top + 1, top + 2, t, r);
      var mod' := mod[i := mod[i].(code := code)];
      ModuleOk(mod') && StartsWithParam(code) && SameCalls(mod, mod') && KeepsFit(mod, mod')
  {
    hide SameCalls, AnswersBy, StartsWithParam, ModuleOk, WithBaseCase, Fit, StaysFit, InRange;
    FunctionOk(mod, i);
    var f := mod[i].code;
    assert WellFormed(f) && f.order != [];
    var code := WithBaseCase(f, max + 1, max + 2, top + 1, top + 2, t, r);
    var mod' := mod[i := mod[i].(code := code)];
    ExpansionKeepsCalls(mod, i, max, max + 1, max + 2, top + 1, top + 2, t, r, mod', need);
    ExpandedIsOk(f, max, max + 1, max + 2, top + 1, top + 2, t, r);
    ReplaceKeepsOk(mod, i, code);
    ExpandedStaysFit(f, max, max + 1, max + 2, top + 1, top + 2, t, r);
    ReplaceKeepsFit(mod, i, code);
  }

  lemma FrontIsPlain(d: Decl, max: nat, top: nat, t: i64, r: i64)
    requires WellFormed(d.code) && d.code.order != [] && InRange(d.code, max)
    requires forall b | b in d.code.body :: b <= top
    ensures var d' := d.(code := WithBaseCase(d.code, max + 1, max + 2, top + 1, top + 2, t, r));
      InFront(d, d', t, r) && (PlainCode(d) ==> PlainCode(d'))
  {
    hide InRange, WellFormed, Plain;
    var d' := d.(code := WithBaseCase(d.code, max + 1, max + 2, top + 1, top + 2, t, r));
    assert Fresh(d.code, max, max + 1, max + 2, top + 1, top + 2);
    if PlainCode(d) {
      forall b, k | b in d'.code.body && 0 <= k < |d'.code.body[b]|
        ensures Plain(d'.code.body[b][k], d'.name)
      {
        NewBlocksArePlain(d.name, max + 1, max + 2, top + 2, d.code.order[0], t, r);
        if b != top + 1 && b != top + 2 { assert d'.code.body[b] == d.code.body[b]; }
      }
    }
  }

  lemma NewBlocksArePlain(name: string, p: nat, c: nat, ret: nat, old_: nat, t: i64, r: i64)
    ensures forall k | 0 <= k < 3 :: Plain(EntryBlock(p, c, ret, old_, t)[k], name)
    ensures Plain(AnswerBlock(r)[0], name)
  {}

  /** Tries one argument; a known answer is put in front of the function. */
  method ExpandFor(md: SirModule, i: nat, t: i64, fuel: nat) returns (changed: bool)
    requires ModuleOk(md.funcs) && i < |md.funcs| && StartsWithParam(md.funcs[i].code)
    modifies md
    ensures ModuleOk(md.funcs) && |md.funcs| == old(|md.funcs|) && StartsWithParam(md.funcs[i].code)
    ensures SameCalls(old(md.funcs), md.funcs)
    ensures forall j | 0 <= j < |md.funcs| && j != i :: md.funcs[j] == old(md.funcs[j])
    ensures !changed ==> md.funcs == old(md.funcs)
    ensures changed ==> AnswersUpFront(old(md.funcs), i, t, md.funcs[i])
    ensures KeepsFit(old(md.funcs), md.funcs)
    ensures PlainCode(old(md.funcs[i])) ==> PlainCode(md.funcs[i]) && TriedOn(old(md.funcs[i]), md.funcs[i], t, fuel)
  {
    hide SameCalls, AnswersBy, StartsWithParam, ModuleOk, WithBaseCase, Fit, InRange, WellFormed, PlainCode,
      SoloAnswer, InFront;
    ghost var mod := md.funcs;
    var d := md.funcs[i];
    FunctionOk(mod, i);
    SameCallsReflexive(mod);
    var res, need := TryEvaluatePureFunc(md.funcs, d, t, 0, fuel);
    changed := res.Some?;
    if res.Some? {
      OrderInside(d.code);
      var fn := new SirFunction(d.code);
      var max := fn.MaxVreg();
      var top := MaxBlockId(d.code);
      var code := WithBaseCase(d.code, max + 1, max + 2, top + 1, top + 2, t, res.value);
      AnswerInFront(mod, i, max, top, t, res.value, need);
      FrontIsPlain(d, max, top, t, res.value);
      md.funcs := md.funcs[i := d.(code := code)];
    }
  }

  /** `d` is function `i` with its known answer on `t` in front. */
  ghost predicate AnswersUpFront(mod: Module, i: nat, t: i64, d: Decl)
    requires i < |mod| && mod[i].code.order != []
  {
    exists p: nat, c: nat, entry: nat, ret: nat, r: i64 ::
      Answers(mod, mod[i], [t], r) && d == mod[i].(code := WithBaseCase(mod[i].code, p, c, entry, ret, t, r))
  }

  /** What becomes of a function: if it starts by fetching its parameter and calls itself it is tried in turn on 2, 3
      and 4, otherwise nothing. */
  ghost predicate Expanded(d: Decl, d': Decl, fuel: nat) {
    if StartsWithParam(d.code) && CallsItself(d) then PlainCode(d) ==> TriedInTurn(d, d', fuel) else d' == d
  }

  /** A self-recursive function of one parameter is tried on 2, 3 and 4. */
  method ExpandFunction(md: SirModule, i: nat, fuel: nat) returns (changed: bool)
    requires ModuleOk(md.funcs) && i < |md.funcs|
    modifies md
    ensures ModuleOk(md.funcs) && |md.funcs| == old(|md.funcs|)
    ensures SameCalls(old(md.funcs), md.funcs) && KeepsFit(old(md.funcs), md.funcs)
    ensures !changed ==> md.funcs == old(md.funcs)
    ensures forall j | 0 <= j < |md.funcs| && j != i :: md.funcs[j] == old(md.funcs)[j]
    ensures Expanded(old(md.funcs[i]), md.funcs[i], fuel)
  {
    hide SameCalls, CodeOk, StartsWithParam, ModuleOk, CallsItself, Fit, PlainCode, TriedOn;
    ghost var mod := md.funcs;
    SameCallsReflexive(mod);
    FunctionOk(mod, i);
    EntryHasParam(md.funcs[i].code);
    changed := false;
    var entry := md.funcs[i].code.body[md.funcs[i].code.order[0]];
    if entry == [] || !entry[0].op.GetParam? || entry[0].ops[0].i != 0 { return; }
    var recursive := HasRecursion(md.funcs[i]);
    if !recursive { return; }
    ghost var plain, ds := PlainCode(md.funcs[i]), [md.funcs[i]];
    for t := 2 to 5
      invariant |md.funcs| == |mod| && forall j | 0 <= j < |mod| && j != i :: md.funcs[j] == mod[j]
      invariant |ds| == t - 1 && ds[0] == mod[i] && ds[t - 2] == md.funcs[i]
      invariant plain ==> PlainCode(md.funcs[i]) && forall k | 0 <= k < t - 2 :: TriedOn(ds[k], ds[k + 1], k + 2, fuel)
      invariant ModuleOk(md.funcs) && |md.funcs| == |mod| && StartsWithParam(md.funcs[i].code)
      invariant SameCalls(mod, md.funcs) && KeepsFit(mod, md.funcs) && (!changed ==> md.funcs == mod)
    {
      ghost var before := md.funcs;
      var c := ExpandFor(md, i, t, fuel);
      SameCallsTransitive(mod, before, md.funcs);
      changed := changed || c;
      ds := ds + [md.funcs[i]];
    }
    assert plain ==> TriedOn(ds[0], ds[1], 2, fuel) && TriedOn(ds[1], ds[2], 3, fuel) && TriedOn(ds[2], ds[3], 4, fuel);
  }

  lemma EntryHasParam(f: Func)
    requires CodeOk(f)
    ensures f.order != [] && f.order[0] in f.body
    ensures var e := f.body[f.order[0]];
      && (e != [] && e[0].op.GetParam? ==> |e[0].ops| == 1 && e[0].ops[0].ConstInt?)
      && (StartsWithParam(f) <==> e != [] && e[0].op.GetParam? && e[0].ops[0].i == 0)
  {
    assert f.order[0] in (set b | b in f.order);
    var e := f.body[f.order[0]];
    if e != [] && e[0].op.GetParam? {
      assert OperandsOk(e[0]);
      assert e[0].ops == [ConstInt(e[0].ops[0].i)];
    }
  }

  /** The function without its unreachable blocks. */
  ghost function Pruned(d: Decl): Decl { d.(code := Restrict(d.code, Reachable(d.code))) }

  /** Prunes every function. */
  method PruneAll(md: SirModule)
    requires ModuleOk(md.funcs)
    modifies md
    ensures ModuleOk(md.funcs) && SameCalls(old(md.funcs), md.funcs) && KeepsFit(old(md.funcs), md.funcs)
    ensures |md.funcs| == old(|md.funcs|)
    ensures forall j | 0 <= j < |md.funcs| :: md.funcs[j] == Pruned(old(md.funcs)[j])
  {
    hide SameCalls, ModuleOk, Restrict, Reaches, Fit, StaysFit, Derives, KeepsAssigned;
    ghost var mod := md.funcs;
    SameCallsReflexive(mod);
    for i := 0 to |md.funcs|
      invariant ModuleOk(md.funcs) && |md.funcs| == |mod| && SameCalls(mod, md.funcs) && KeepsFit(mod, md.funcs)
      invariant forall j | 0 <= j < i :: md.funcs[j] == Pruned(mod[j])
      invariant forall j | i <= j < |mod| :: md.funcs[j] == mod[j]
    {
      ghost var before := md.funcs;
      FunctionOk(before, i);
      assert WellFormed(md.funcs[i].code);
      var fn := new SirFunction(md.funcs[i].code);
      PruneDeadBlocks(fn);
      var code := Func(fn.order, fn.body);
      RestrictKeepsOk(before[i].code, Reachable(before[i].code));
      ReplaceKeepsOk(before, i, code);
      DerivedStaysFit(before[i].code, code);
      ReplaceKeepsFit(before, i, code);
      md.funcs := md.funcs[i := md.funcs[i].(code := code)];
      ReplaceSameCode(before, i, code);
      SameCallsTransitive(mod, before, md.funcs);
    }
  }

  /** The pass: every function call of the module keeps its outcomes, and every function is expanded; if one has
      changed, all of them are pruned. */
  method ExpandBaseCases(md: SirModule, fuel: nat)
    requires ModuleOk(md.funcs)
    modifies md
    ensures ModuleOk(md.funcs) && SameCalls(old(md.funcs), md.funcs) && KeepsFit(old(md.funcs), md.funcs)
    ensures AllExpanded(old(md.funcs), md.funcs, fuel)
  {
    hide SameCalls, ModuleOk, StartsWithParam, CallsItself, Fit, Expanded, Pruned;
    ghost var mod := md.funcs;
    SameCallsReflexive(mod);
    var anyChanged := false;
    for i := 0 to |md.funcs|
      invariant ModuleOk(md.funcs) && |md.funcs| == |mod| && SameCalls(mod, md.funcs) && KeepsFit(mod, md.funcs)
      invariant forall j | 0 <= j < i :: Expanded(mod[j], md.funcs[j], fuel)
      invariant forall j | i <= j < |mod| :: md.funcs[j] == mod[j]
      invariant !anyChanged ==> md.funcs == mod
    {
      ghost var before := md.funcs;
      var changed := ExpandFunction(md, i, fuel);
      SameCallsTransitive(mod, before, md.funcs);
      anyChanged := anyChanged || changed;
    }
    ghost var all := md.funcs;
    if anyChanged {
      PruneAll(md);
      SameCallsTransitive(mod, all, md.funcs);
    }
    assert Between(mod, all, md.funcs, fuel);
  }

  /** Every function has been expanded; either none has changed, or all have been pruned as well. */
  ghost predicate AllExpanded(mod: Module, mod': Module, fuel: nat) {
    |mod'| == |mod| && exists all: Module :: Between(mod, all, mod', fuel)
  }

  ghost predicate Between(mod: Module, all: Module, mod': Module, fuel: nat)
    requires |mod'| == |mod|
  {
    && |all| == |mod| && (forall j | 0 <= j < |mod| :: Expanded(mod[j], all[j], fuel))
    && (all == mod == mod' || forall j | 0 <= j < |mod| :: mod'[j] == Pruned(all[j]))
  }

  /** The end of the expansion of a plain function: its own answers on 2, 3 and 4, at their turns, it gives within four
      blocks, pruned or not. */
  lemma ExpandedAnswersAtOnce(d: Decl, d': Decl, fuel: nat) returns (d3: Decl, d4: Decl)
    requires StartsWithParam(d.code) && CallsItself(d) && PlainCode(d) && Expanded(d, d', fuel) && WellFormed(d'.code)
    ensures TriedOn(d, d3, 2, fuel) && TriedOn(d3, d4, 3, fuel) && TriedOn(d4, d', 4, fuel)
    ensures forall g: Func | g == d'.code || g == Pruned(d').code ::
      && (SoloAnswer(d, 2, 15, fuel).Some? ==> AtOnce(g, 2, SoloAnswer(d, 2, 15, fuel).value, 4))
      && (SoloAnswer(d3, 3, 15, fuel).Some? ==> AtOnce(g, 3, SoloAnswer(d3, 3, 15, fuel).value, 3))
      && (SoloAnswer(d4, 4, 15, fuel).Some? ==> AtOnce(g, 4, SoloAnswer(d4, 4, 15, fuel).value, 2))
  {
    hide SoloAnswer, RunFunc, InFront, StartsWithParam, CallsItself, PlainCode, WellFormed, TriedOn, Restrict,
      Reachable;
    d3, d4 :| TriedOn(d, d3, 2, fuel) && TriedOn(d3, d4, 3, fuel) && TriedOn(d4, d', 4, fuel);
    TurnsAnswerAtOnce(d, d3, d4, d', fuel);
    PrunedRunsTheSame(d'.code);
  }

  lemma PrunedRunsTheSame(f: Func)
    requires WellFormed(f)
    ensures SameRuns(f, Restrict(f, Reachable(f)))
  {
    hide WellFormed, Restrict, Reaches;
    OrderInside(f);
    ReachableIsClosed(f);
    RestrictPreserves(f, Reachable(f));
  }
}
