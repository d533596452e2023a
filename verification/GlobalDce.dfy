/** Global dead code elimination: functions nobody can name from the entry points are dropped. */
module GlobalDce {
  import opened Sir
  import opened SirModules
  import opened Interpret
  import opened ModulePass
  import opened Fitness
  import opened Liveness

  const ENTRY := "princeps"
  const INIT := "__scorivm_init"

  predicate IsRoot(d: Decl) { d.name == ENTRY || d.name == INIT }

  predicate MentionsName(f: Func, name: string) {
    exists b, k | b in f.body && 0 <= k < |f.body[b]| :: Global(name) in f.body[b][k].ops
  }

  /** A chain of functions, each naming the next, from a root. */
  ghost predicate IsChain(mod: Module, path: seq<nat>) {
    && path != [] && (forall x | 0 <= x < |path| :: path[x] < |mod|) && IsRoot(mod[path[0]])
    && forall x | 0 <= x < |path| - 1 :: MentionsName(mod[path[x]].code, mod[path[x + 1]].name)
  }

  ghost predicate Named(mod: Module, i: nat) { exists path :: IsChain(mod, path) && path[|path| - 1] == i }

  lemma RootIsNamed(mod: Module, i: nat)
    requires i < |mod| && IsRoot(mod[i])
    ensures Named(mod, i)
  {
    assert IsChain(mod, [i]);
  }

  lemma NamedGoesOn(mod: Module, i: nat, j: nat)
    requires i < |mod| && j < |mod| && Named(mod, i) && MentionsName(mod[i].code, mod[j].name)
    ensures Named(mod, j)
  {
    var path :| IsChain(mod, path) && path[|path| - 1] == i;
    var longer := path + [j];
    forall x | 0 <= x < |longer| - 1
      ensures MentionsName(mod[longer[x]].code, mod[longer[x + 1]].name)
    {
      if x < |path| - 1 { assert longer[x + 1] == path[x + 1]; }
    }
    assert IsChain(mod, longer) && longer[|longer| - 1] == j;
  }

  /** The marks hold the roots and everything that marked functions name. */
  ghost predicate ClosedMarks(mod: Module, marked: set<nat>) {
    && (forall i: nat | i < |mod| && IsRoot(mod[i]) :: i in marked)
    && forall i: nat, j: nat | i in marked && i < |mod| && j < |mod| && MentionsName(mod[i].code, mod[j].name) ::
      j in marked
  }

  lemma {:induction false} ChainIsMarked(mod: Module, marked: set<nat>, path: seq<nat>, x: nat)
    requires ClosedMarks(mod, marked) && IsChain(mod, path) && x < |path|
    ensures path[x] in marked
  {
    if x > 0 {
      ChainIsMarked(mod, marked, path, x - 1);
      assert MentionsName(mod[path[x - 1]].code, mod[path[x - 1 + 1]].name);
    }
  }

  /** Marks that are closed and hold named functions only are exact. */
  lemma ClosedMarksAreExact(mod: Module, marked: set<nat>)
    requires ClosedMarks(mod, marked) && forall i | i in marked :: i < |mod| && Named(mod, i)
    ensures forall i: nat :: i in marked <==> Named(mod, i)
  {
    forall i: nat | Named(mod, i)
      ensures i in marked
    {
      var path :| IsChain(mod, path) && path[|path| - 1] == i;
      ChainIsMarked(mod, marked, path, |path| - 1);
    }
  }

  // ---------------------------------------------------------------------------------------------
  // The pass

  ghost function Marked(reachable: array<bool>): set<nat>
    reads reachable
  {
    set i: nat | i < reachable.Length && reachable[i]
  }

  ghost predicate AllNamed(mod: Module, marked: set<nat>) { forall i | i in marked :: i < |mod| && Named(mod, i) }

  /** Marks every function that bears the name. */
  method MarkName(mod: Module, name: string, reachable: array<bool>) returns (changed: bool)
    requires reachable.Length == |mod|
    modifies reachable
    ensures Marked(reachable) == old(Marked(reachable)) + set j: nat | j < |mod| && mod[j].name == name
    ensures changed <==> Marked(reachable) != old(Marked(reachable))
  {
    changed := false;
    for j := 0 to |mod|
      invariant forall x: nat | x < |mod| :: reachable[x] <==> old(reachable[x]) || (x < j && mod[x].name == name)
      invariant changed <==> exists x: nat :: x < j && mod[x].name == name && !old(reachable[x])
    {
      if !reachable[j] && mod[j].name == name {
        reachable[j] := true;
        changed := true;
      }
    }
    if changed {
      ghost var x: nat :| x < |mod| && mod[x].name == name && !old(reachable[x]);
      assert x in Marked(reachable) && x !in old(Marked(reachable));
    }
  }

  /** The marks cover everything these operands name. */
  ghost predicate OpsMarked(mod: Module, ops: seq<Value>, marked: set<nat>) {
    forall o, j: nat | 0 <= o < |ops| && j < |mod| && ops[o] == Global(mod[j].name) :: j in marked
  }

  method MarkOperands(mod: Module, i: nat, ops: seq<Value>, reachable: array<bool>) returns (changed: bool)
    requires reachable.Length == |mod| && i < |mod| && i in Marked(reachable) && AllNamed(mod, Marked(reachable))
    requires forall o | o in ops && o.Global? :: MentionsName(mod[i].code, o.name)
    modifies reachable
    ensures AllNamed(mod, Marked(reachable)) && old(Marked(reachable)) <= Marked(reachable)
    ensures changed <==> Marked(reachable) != old(Marked(reachable))
    ensures OpsMarked(mod, ops, Marked(reachable))
  {
    hide MentionsName, Named;
    changed := false;
    for o := 0 to |ops|
      invariant AllNamed(mod, Marked(reachable)) && old(Marked(reachable)) <= Marked(reachable)
      invariant changed <==> Marked(reachable) != old(Marked(reachable))
      invariant OpsMarked(mod, ops[..o], Marked(reachable))
    {
      if ops[o].Global? {
        assert ops[o] in ops;
        ghost var before := Marked(reachable);
        var c := MarkName(mod, ops[o].name, reachable);
        forall j: nat | j < |mod| && mod[j].name == ops[o].name ensures Named(mod, j) { NamedGoesOn(mod, i, j); }
        changed := changed || c;
      }
    }
    assert ops[..|ops|] == ops;
  }

  ghost predicate FuncMarked(mod: Module, f: Func, marked: set<nat>) {
    forall b, k | b in f.body && 0 <= k < |f.body[b]| :: OpsMarked(mod, f.body[b][k].ops, marked)
  }

  lemma OpsMarkedGrows(mod: Module, ops: seq<Value>, a: set<nat>, b: set<nat>)
    requires OpsMarked(mod, ops, a) && a <= b
    ensures OpsMarked(mod, ops, b)
  {}

  ghost predicate BlockMarked(mod: Module, insts: seq<Inst>, n: nat, marked: set<nat>) {
    forall k | 0 <= k < n && k < |insts| :: OpsMarked(mod, insts[k].ops, marked)
  }

  method MarkBlock(mod: Module, i: nat, b: nat, reachable: array<bool>) returns (changed: bool)
    requires reachable.Length == |mod| && i < |mod| && i in Marked(reachable) && AllNamed(mod, Marked(reachable))
    requires b in mod[i].code.body
    modifies reachable
    ensures AllNamed(mod, Marked(reachable)) && old(Marked(reachable)) <= Marked(reachable)
    ensures changed <==> Marked(reachable) != old(Marked(reachable))
    ensures BlockMarked(mod, mod[i].code.body[b], |mod[i].code.body[b]|, Marked(reachable))
  {
    hide AllNamed, OpsMarked;
    changed := false;
    var insts := mod[i].code.body[b];
    for k := 0 to |insts|
      invariant AllNamed(mod, Marked(reachable)) && old(Marked(reachable)) <= Marked(reachable)
      invariant changed <==> Marked(reachable) != old(Marked(reachable))
      invariant BlockMarked(mod, insts, k, Marked(reachable))
    {
      ghost var before := Marked(reachable);
      var c := MarkOperands(mod, i, insts[k].ops, reachable);
      changed := changed || c;
      forall x | 0 <= x < k ensures OpsMarked(mod, insts[x].ops, Marked(reachable)) {
        OpsMarkedGrows(mod, insts[x].ops, before, Marked(reachable));
      }
    }
  }

  method MarkFunction(mod: Module, i: nat, reachable: array<bool>) returns (changed: bool)
    requires ModuleOk(mod) && reachable.Length == |mod| && i < |mod| && i in Marked(reachable)
    requires AllNamed(mod, Marked(reachable))
    modifies reachable
    ensures AllNamed(mod, Marked(reachable)) && old(Marked(reachable)) <= Marked(reachable)
    ensures changed <==> Marked(reachable) != old(Marked(reachable))
    ensures FuncMarked(mod, mod[i].code, Marked(reachable))
  {
    hide AllNamed, OpsMarked, ModuleOk, WellFormed, FuncMarked, BlockMarked;
    FunctionOk(mod, i);
    changed := false;
    var f := mod[i].code;
    assert ListMarked(mod, f, 0, Marked(reachable));
    for j := 0 to |f.order|
      invariant AllNamed(mod, Marked(reachable)) && old(Marked(reachable)) <= Marked(reachable)
      invariant changed <==> Marked(reachable) != old(Marked(reachable))
      invariant ListMarked(mod, f, j, Marked(reachable))
    {
      ghost var before := Marked(reachable);
      ListedHere(f, j);
      var c := MarkBlock(mod, i, f.order[j], reachable);
      changed := changed || c;
      ListMarkedGrows(mod, f, j, before, Marked(reachable));
    }
    WholeListMarked(mod, f, Marked(reachable));
  }

  /** The first `j` blocks of the list have been scanned. */
  ghost predicate ListMarked(mod: Module, f: Func, j: nat, marked: set<nat>) {
    forall x | 0 <= x < j && x < |f.order| ::
      f.order[x] in f.body && BlockMarked(mod, f.body[f.order[x]], |f.body[f.order[x]]|, marked)
  }

  lemma ListedHere(f: Func, j: nat)
    requires WellFormed(f) && j < |f.order|
    ensures f.order[j] in f.body
  {
    assert f.order[j] in (set x | x in f.order);
  }

  lemma ListMarkedGrows(mod: Module, f: Func, j: nat, a: set<nat>, b: set<nat>)
    requires ListMarked(mod, f, j, a) && a <= b && j < |f.order|
    requires f.order[j] in f.body && BlockMarked(mod, f.body[f.order[j]], |f.body[f.order[j]]|, b)
    ensures ListMarked(mod, f, j + 1, b)
  {
    hide BlockMarked;
    forall x | 0 <= x < j
      ensures BlockMarked(mod, f.body[f.order[x]], |f.body[f.order[x]]|, b)
    {
      BlockMarkedGrows(mod, f.body[f.order[x]], a, b);
    }
  }

  lemma WholeListMarked(mod: Module, f: Func, marked: set<nat>)
    requires WellFormed(f) && ListMarked(mod, f, |f.order|, marked)
    ensures FuncMarked(mod, f, marked)
  {
    hide OpsMarked, BlockOk;
    forall b, k | b in f.body && 0 <= k < |f.body[b]|
      ensures OpsMarked(mod, f.body[b][k].ops, marked)
    {
      assert b in (set x | x in f.order);
      var x :| 0 <= x < |f.order| && f.order[x] == b;
      assert BlockMarked(mod, f.body[b], |f.body[b]|, marked);
    }
  }

  lemma BlockMarkedGrows(mod: Module, insts: seq<Inst>, a: set<nat>, b: set<nat>)
    requires BlockMarked(mod, insts, |insts|, a) && a <= b
    ensures BlockMarked(mod, insts, |insts|, b)
  {
    forall k | 0 <= k < |insts| ensures OpsMarked(mod, insts[k].ops, b) { OpsMarkedGrows(mod, insts[k].ops, a, b); }
  }

  method MarkRoots(mod: Module, reachable: array<bool>)
    requires reachable.Length == |mod| && forall i | 0 <= i < |mod| :: !reachable[i]
    modifies reachable
    ensures forall i | 0 <= i < |mod| :: reachable[i] <==> IsRoot(mod[i])
  {
    for i := 0 to |mod|
      invariant forall x | 0 <= x < |mod| :: reachable[x] <==> x < i && IsRoot(mod[x])
    {
      if mod[i].name == ENTRY || mod[i].name == INIT { reachable[i] := true; }
    }
  }

  /** Marks what is named until nothing changes; the marks end up exact. */
  method MarkAll(mod: Module) returns (reachable: array<bool>)
    requires ModuleOk(mod)
    ensures fresh(reachable) && reachable.Length == |mod|
    ensures forall i: nat :: i in Marked(reachable) <==> Named(mod, i)
  {
    hide ModuleOk, Named, FuncMarked, IsRoot;
    reachable := new bool[|mod|](_ => false);
    MarkRoots(mod, reachable);
    forall i | i in Marked(reachable) ensures Named(mod, i) { RootIsNamed(mod, i); }
    var changed := true;
    while changed
      invariant AllNamed(mod, Marked(reachable))
      invariant forall i: nat | i < |mod| && IsRoot(mod[i]) :: i in Marked(reachable)
      invariant !changed ==> ClosedMarks(mod, Marked(reachable))
      decreases |mod| - |Marked(reachable)|, changed
    {
      ghost var before := Marked(reachable);
      changed := MarkRound(mod, reachable);
      MarksBounded(mod, Marked(reachable));
      if changed { StrictlyMore(before, Marked(reachable)); } else { MarksAreClosed(mod, Marked(reachable)); }
    }
    ClosedMarksAreExact(mod, Marked(reachable));
  }

  lemma MarksBounded(mod: Module, marked: set<nat>)
    requires forall i | i in marked :: i < |mod|
    ensures |marked| <= |mod|
  {
    if mod == [] {
      assert marked == {};
    } else {
      var all := UpTo(|mod| - 1);
      assert marked <= all;
      assert all == marked + (all - marked);
    }
  }

  lemma StrictlyMore(a: set<nat>, b: set<nat>)
    requires a <= b && a != b
    ensures |a| < |b|
  {
    var x :| x in b && x !in a;
    assert x in b - a && b == a + (b - a);
  }

  method MarkRound(mod: Module, reachable: array<bool>) returns (changed: bool)
    requires ModuleOk(mod) && reachable.Length == |mod| && AllNamed(mod, Marked(reachable))
    modifies reachable
    ensures AllNamed(mod, Marked(reachable)) && old(Marked(reachable)) <= Marked(reachable)
    ensures changed <==> Marked(reachable) != old(Marked(reachable))
    ensures !changed ==> forall i: nat | i in Marked(reachable) && i < |mod| ::
      FuncMarked(mod, mod[i].code, Marked(reachable))
  {
    hide ModuleOk, Named, FuncMarked;
    changed := false;
    ghost var start := Marked(reachable);
    for i := 0 to |mod|
      invariant AllNamed(mod, Marked(reachable)) && start <= Marked(reachable)
      invariant changed <==> Marked(reachable) != start
      invariant !changed ==> forall x: nat | x in start && x < i :: FuncMarked(mod, mod[x].code, start)
    {
      if reachable[i] {
        var c := MarkFunction(mod, i, reachable);
        changed := changed || c;
      }
    }
  }

  lemma MarksAreClosed(mod: Module, marked: set<nat>)
    requires forall i: nat | i in marked && i < |mod| :: FuncMarked(mod, mod[i].code, marked)
    requires forall i: nat | i < |mod| && IsRoot(mod[i]) :: i in marked
    ensures ClosedMarks(mod, marked)
  {
    forall i: nat, j: nat | i in marked && i < |mod| && j < |mod| && MentionsName(mod[i].code, mod[j].name)
      ensures j in marked
    {
      var f := mod[i].code;
      var b, k :| b in f.body && 0 <= k < |f.body[b]| && Global(mod[j].name) in f.body[b][k].ops;
      assert OpsMarked(mod, f.body[b][k].ops, marked);
    }
  }

  /** The functions at the positions of `keep`, from position `from` on. */
  ghost function KeptFrom(mod: Module, keep: set<nat>, from: nat): Module
    requires from <= |mod|
    decreases |mod| - from
  {
    if from == |mod| then []
    else (if from in keep then [mod[from]] else []) + KeptFrom(mod, keep, from + 1)
  }

  ghost function Kept(mod: Module): Module { KeptFrom(mod, set i: nat | i < |mod| && Named(mod, i), 0) }

  /** The pass keeps exactly the functions that can be named from the entry points, in order. */
  method EliminateFunctions(md: SirModule)
    requires ModuleOk(md.funcs)
    modifies md
    ensures md.funcs == Kept(old(md.funcs))
  {
    hide ModuleOk, Named;
    var mod := md.funcs;
    var reachable := MarkAll(mod);
    ghost var keep := set i: nat | i < |mod| && Named(mod, i);
    var kept: Module := [];
    for i := 0 to |mod|
      invariant kept + KeptFrom(mod, keep, i) == KeptFrom(mod, keep, 0)
    {
      assert i in keep <==> i in Marked(reachable);
      if reachable[i] { kept := kept + [mod[i]]; }
    }
    md.funcs := kept;
  }

  // ---------------------------------------------------------------------------------------------
  // No run reaches a dropped function

  /** Every symbol a module defines or names. */
  ghost function Symbols(mod: Module): set<string> {
    Names(mod) + set d, b, k, o | d in mod && b in d.code.body && 0 <= k < |d.code.body[b]| &&
      0 <= o < |d.code.body[b][k].ops|
                                  && d.code.body[b][k].ops[o].Global? :: d.code.body[b][k].ops[o].name
  }

  lemma {:induction false} KeptHolds(mod: Module, keep: set<nat>, from: nat, d: Decl)
    requires from <= |mod|
    ensures d in KeptFrom(mod, keep, from) <==> exists i :: from <= i < |mod| && i in keep && mod[i] == d
    decreases |mod| - from
  {
    if from < |mod| {
      KeptHolds(mod, keep, from + 1, d);
      if d in KeptFrom(mod, keep, from + 1) {
        var i :| from + 1 <= i < |mod| && i in keep && mod[i] == d;
      }
    }
  }

  lemma {:induction false} FuncAtLinked(m: Machine, mod: Module, d: Decl)
    requires d in mod && Linked(m, Names(mod)) && forall x | x in mod && x.name == d.name :: x == d
    ensures FuncAt(m, mod, m.addr(d.name)) == Some(d)
  {
    assert d.name in Names(mod);
    var r := FuncAt(m, mod, m.addr(d.name));
    assert r.Some? && r.value.name in Names(mod);
  }

  /** A name used in a kept function means the same in both modules. */
  lemma NameMeansSame(m: Machine, mod: Module, i: nat, b: nat, k: nat)
    requires ModuleOk(mod) && Linked(m, Symbols(mod)) && i < |mod| && Named(mod, i)
    requires b in mod[i].code.body && k < |mod[i].code.body[b]| && mod[i].code.body[b][k].ops != []
    requires mod[i].code.body[b][k].ops[0].Global?
    ensures var v := m.addr(mod[i].code.body[b][k].ops[0].name);
      && FuncAt(m, Kept(mod), v) == FuncAt(m, mod, v)
      && (FuncAt(m, mod, v).Some? ==> exists j: nat :: j < |mod| && Named(mod, j) && FuncAt(m, mod, v) == Some(mod[j]))
  {
    hide OperandsOk, WellFormed, CodeOk, Named;
    var name := mod[i].code.body[b][k].ops[0].name;
    var v, keep := m.addr(name), set x: nat | x < |mod| && Named(mod, x);
    assert name in Symbols(mod) && Names(mod) <= Symbols(mod);
    forall x
      ensures x in Kept(mod) <==> exists j :: 0 <= j < |mod| && j in keep && mod[j] == x
    {
      KeptHolds(mod, keep, 0, x);
    }
    if j :| 0 <= j < |mod| && mod[j].name == name {
      assert Global(mod[j].name) in mod[i].code.body[b][k].ops;
      NamedGoesOn(mod, i, j);
      assert j in keep;
      assert Names(Kept(mod)) <= Names(mod);
      FuncAtLinked(m, mod, mod[j]);
      FuncAtLinked(m, Kept(mod), mod[j]);
    } else {
      assert forall x | x in mod :: x.name in Names(mod) && m.addr(x.name) != v;
    }
  }

  lemma {:induction false} SameBlock(m1: Machine, m2: Machine, params: seq<i64>, insts: seq<Inst>, regs: Regs, w: World)
    requires forall k, regs: Regs, w: World | 0 <= k < |insts| ::
      Step(m1, params, insts[k], regs, w) == Step(m2, params, insts[k], regs, w)
    ensures RunBlock(m1, params, insts, regs, w) == RunBlock(m2, params, insts, regs, w)
  {
    hide Step;
    if insts != [] {
      assert Step(m1, params, insts[0], regs, w) == Step(m2, params, insts[0], regs, w);
      match Step(m1, params, insts[0], regs, w)
      case Next(v, w') =>
        assert forall k | 0 <= k < |insts[1..]| :: insts[1..][k] == insts[k + 1];
        SameBlock(m1, m2, params, insts[1..], Write(regs, insts[0].dest, v), w');
      case _ =>
    }
  }

  lemma {:induction false} SameRun(m1: Machine, m2: Machine, f: Func, params: seq<i64>, x: nat, regs: Regs, w: World,
        n: nat)
    requires forall b, k, regs: Regs, w: World | b in f.body && 0 <= k < |f.body[b]| ::
      Step(m1, params, f.body[b][k], regs, w) == Step(m2, params, f.body[b][k], regs, w)
    ensures Run(m1, f, params, x, regs, w, n) == Run(m2, f, params, x, regs, w, n)
    decreases n
  {
    hide Step, RunBlock;
    if n > 0 && x in f.body {
      SameBlock(m1, m2, params, f.body[x], regs, w);
      match RunBlock(m1, params, f.body[x], regs, w)
      case Goto(b, regs', w') => SameRun(m1, m2, f, params, b, regs', w', n - 1);
      case End(_) =>
    }
  }

  lemma {:induction false} KeptStep(m: Machine, mod: Module, i: nat, b: nat, k: nat, params: seq<i64>, regs: Regs,
        w: World, n: nat)
    requires ModuleOk(mod) && Linked(m, Symbols(mod)) && i < |mod| && Named(mod, i)
    requires forall j | 0 <= j < |mod| && Named(mod, j) :: CallsDirectly(mod[j].code)
    requires b in mod[i].code.body && k < |mod[i].code.body[b]|
    ensures Step(Within(m, Kept(mod), n), params, mod[i].code.body[b][k], regs, w) ==
      Step(Within(m, mod, n), params, mod[i].code.body[b][k], regs, w)
    decreases n, 1
  {
    hide Linked, ModuleOk, Named, Compute, KeptFrom, CallIn, Kept;
    var m1, m2, inst := Within(m, Kept(mod), n), Within(m, mod, n), mod[i].code.body[b][k];
    SameOperands(m1, m2, inst.ops, regs);
    var e := EvalAll(m2, inst.ops, regs);
    if e.Some? {
      WithinEffect(m, mod, n, inst.op, e.value, w);
      WithinEffect(m, Kept(mod), n, inst.op, e.value, w);
      if inst.op.Call? {
        assert CallsDirectly(mod[i].code);
        assert EvalOperand(m2, inst.ops[0], regs) == Some(e.value[0]);
        KeptCall(m, mod, i, b, k, e.value, w, n);
      }
    }
  }

  lemma {:induction false} KeptCall(m: Machine, mod: Module, i: nat, b: nat, k: nat, args: seq<Arg>, w: World, n: nat)
    requires ModuleOk(mod) && Linked(m, Symbols(mod)) && i < |mod| && Named(mod, i)
    requires forall j | 0 <= j < |mod| && Named(mod, j) :: CallsDirectly(mod[j].code)
    requires b in mod[i].code.body && k < |mod[i].code.body[b]| && mod[i].code.body[b][k].ops != []
    requires mod[i].code.body[b][k].ops[0].Global?
    requires args != [] && args[0] == Int(m.addr(mod[i].code.body[b][k].ops[0].name))
    ensures CallIn(m, Kept(mod), n, args, w) == CallIn(m, mod, n, args, w)
    decreases n, 0
  {
    hide Linked, ModuleOk, Named, KeptFrom, CallsDirectly, Kept, FuncAt, Invoke, Symbols;
    NameMeansSame(m, mod, i, b, k);
    if AllInts(args) && FuncAt(m, mod, args[0].v).Some? {
      var j: nat :| j < |mod| && Named(mod, j) && FuncAt(m, mod, args[0].v) == Some(mod[j]);
      CallUnfolds(m, mod, n, args, w, mod[j]);
      CallUnfolds(m, Kept(mod), n, args, w, mod[j]);
      if n > 0 { KeptCalls(m, mod, j, Ints(args[1..]), w, n - 1); }
    }
  }

  /** A function that can be named from the entry points runs exactly as before the others were dropped. */
  lemma {:induction false} KeptCalls(m: Machine, mod: Module, i: nat, params: seq<i64>, w: World, n: nat)
    requires ModuleOk(mod) && Linked(m, Symbols(mod)) && i < |mod| && Named(mod, i)
    requires forall j | 0 <= j < |mod| && Named(mod, j) :: CallsDirectly(mod[j].code)
    ensures mod[i] in Kept(mod)
    ensures Invoke(m, Kept(mod), mod[i], params, w, n) == Invoke(m, mod, mod[i], params, w, n)
    decreases n, 2
  {
    hide Linked, ModuleOk, Named, Step, Run, CallsDirectly, KeptFrom;
    assert mod[i] in Kept(mod) by {
      KeptHolds(mod, set x: nat | x < |mod| && Named(mod, x), 0, mod[i]);
    }
    var f, m1, m2 := mod[i].code, Within(m, Kept(mod), n), Within(m, mod, n);
    forall b, k, regs: Regs, w: World | b in f.body && 0 <= k < |f.body[b]|
      ensures Step(m1, params, f.body[b][k], regs, w) == Step(m2, params, f.body[b][k], regs, w)
    {
      KeptStep(m, mod, i, b, k, params, regs, w, n);
    }
    if f.order != [] { SameRun(m1, m2, f, params, f.order[0], map[], w, n); }
  }
}
