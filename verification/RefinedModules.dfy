/** Functions that refine others can take their places in a module of functions that call each other at any
    depth. */
module RefinedModules {
  import opened Sir
  import opened SirModules
  import opened ModuleLift
  import opened Refinement

  // ---------------------------------------------------------------------------------------------
  // Machines that differ by how some calls stop

  /** The effects agree unless the first machine stops with one of `s1` or the second with one of `s2`. */
  ghost predicate Near(m1: Machine, m2: Machine, s1: set<Outcome>, s2: set<Outcome>) {
    && m1.addr == m2.addr && m1.load == m2.load
    && forall op: Opcode, args: seq<Arg>, w: World ::
      NearEffects(m1.effect(op, args, w), m2.effect(op, args, w), s1, s2)
  }

  predicate NearEffects(e1: Effect, e2: Effect, s1: set<Outcome>, s2: set<Outcome>) {
    e1 == e2 || (e1.Stop? && e1.o in s1) || (e2.Stop? && e2.o in s2)
  }

  predicate NearOutcomes(o1: Outcome, o2: Outcome, s1: set<Outcome>, s2: set<Outcome>) {
    o1 == o2 || o1 in s1 || o2 in s2
  }

  predicate NearSteps(r1: StepResult, r2: StepResult, s1: set<Outcome>, s2: set<Outcome>) {
    r1 == r2 || (r1.Finish? && r1.o in s1) || (r2.Finish? && r2.o in s2)
  }

  predicate NearBlocks(r1: BlockResult, r2: BlockResult, s1: set<Outcome>, s2: set<Outcome>) {
    r1 == r2 || (r1.End? && r1.o in s1) || (r2.End? && r2.o in s2)
  }

  lemma StepNear(m1: Machine, m2: Machine, s1: set<Outcome>, s2: set<Outcome>, params: seq<i64>, inst: Inst,
        regs: Regs, w: World)
    requires Near(m1, m2, s1, s2)
    ensures NearSteps(Step(m1, params, inst, regs, w), Step(m2, params, inst, regs, w), s1, s2)
  {
    hide Compute;
    SameOperands(m1, m2, inst.ops, regs);
    if EvalAll(m1, inst.ops, regs).Some? {
      var args := Tagged(inst, EvalAll(m1, inst.ops, regs).value);
      assert NearEffects(m1.effect(inst.op, args, w), m2.effect(inst.op, args, w), s1, s2);
    }
  }

  lemma {:induction false} BlockNear(m1: Machine, m2: Machine, s1: set<Outcome>, s2: set<Outcome>, params: seq<i64>,
        insts: seq<Inst>, regs: Regs, w: World)
    requires Near(m1, m2, s1, s2)
    ensures NearBlocks(RunBlock(m1, params, insts, regs, w), RunBlock(m2, params, insts, regs, w), s1, s2)
  {
    hide Step, Near;
    if insts != [] {
      StepNear(m1, m2, s1, s2, params, insts[0], regs, w);
      var r := Step(m1, params, insts[0], regs, w);
      if r.Next? && Step(m2, params, insts[0], regs, w) == r {
        BlockNear(m1, m2, s1, s2, params, insts[1..], Write(regs, insts[0].dest, r.v), r.w);
      }
    }
  }

  lemma {:induction false} RunNear(m1: Machine, m2: Machine, s1: set<Outcome>, s2: set<Outcome>, f: Func,
        params: seq<i64>, b: nat, regs: Regs, w: World, n: nat)
    requires Near(m1, m2, s1, s2)
    ensures NearOutcomes(Run(m1, f, params, b, regs, w, n), Run(m2, f, params, b, regs, w, n), s1, s2)
    decreases n
  {
    hide RunBlock, Near;
    if n > 0 && b in f.body {
      BlockNear(m1, m2, s1, s2, params, f.body[b], regs, w);
      var r := RunBlock(m1, params, f.body[b], regs, w);
      if r.Goto? && RunBlock(m2, params, f.body[b], regs, w) == r {
        RunNear(m1, m2, s1, s2, f, params, r.id, r.regs, r.w, n - 1);
      }
    }
  }

  lemma EnterNear(m1: Machine, m2: Machine, s1: set<Outcome>, s2: set<Outcome>, d: Decl, params: seq<i64>, w: World,
        n: nat)
    requires Near(m1, m2, s1, s2)
    ensures NearOutcomes(Enter(m1, d, params, w, n), Enter(m2, d, params, w, n), s1, s2)
  {
    hide Near, Run;
    if d.code.order != [] { RunNear(m1, m2, s1, s2, d.code, params, d.code.order[0], map[], w, n); }
  }

  // ---------------------------------------------------------------------------------------------
  // Whole modules

  /** The same functions, each with code that refines the original's at cost `c`. */
  ghost predicate RefinedCode(mod: Module, mod': Module, c: nat) {
    && SameNames(mod, mod')
    && forall j | 0 <= j < |mod| :: mod'[j].fast == mod[j].fast && Bounded(mod[j].code, mod'[j].code, c)
  }

  /** A call of `d` that does not fault in `mod` ends in the same way as one of `d'` in `mod'`, which ends in no
      other way. */
  ghost predicate RefinedCall(m: Machine, mod: Module, d: Decl, mod': Module, d': Decl) {
    forall params: seq<i64>, w: World, o: Outcome ::
      && (o != Fault && Delivers(m, mod, d, params, w, o) ==> Delivers(m, mod', d', params, w, o))
      && (Delivers(m, mod', d', params, w, o) ==>
        Delivers(m, mod, d, params, w, o) || Delivers(m, mod, d, params, w, Fault))
  }

  /** So do all calls, on every machine. */
  ghost predicate RefinedCalls(mod: Module, mod': Module) {
    SameNames(mod, mod') && forall m: Machine, j: nat | j < |mod| :: RefinedCall(m, mod, mod[j], mod', mod'[j])
  }

  lemma EnterTracks(m: Machine, mod: Module, mod': Module, c: nat, j: nat, params: seq<i64>, w: World, n: nat)
    requires RefinedCode(mod, mod', c) && j < |mod|
    ensures var o := Enter(m, mod[j], params, w, n);
      o == OutOfFuel || o == Fault || Enter(m, mod'[j], params, w, c * n) == o
    ensures var o, o' := Enter(m, mod'[j], params, w, n), Enter(m, mod[j], params, w, c * n);
      o == OutOfFuel || o' == o || o' == Fault
  {
    hide RunFunc;
    assert Bounded(mod[j].code, mod'[j].code, c);
  }

  /** A call at the next level, seen from both modules. */
  lemma OneLevelMore(c: nat, n: nat)
    requires c > 0 && n > 0
    ensures c * n > 0 && c * (n - 1) <= c * n - 1
  {
    assert c * n == c * (n - 1) + c;
    assert c * (n - 1) >= 0;
  }

  lemma {:induction false} WithinTracks(m: Machine, mod: Module, mod': Module, c: nat, n: nat)
    requires RefinedCode(mod, mod', c) && c > 0
    ensures Near(Within(m, mod, n), Within(m, mod', c * n), {OutOfFuel, Fault}, {})
    decreases n
  {
    hide FuncAt, RefinedCode;
    SameNamesOf(mod, mod', c);
    var m1, m2 := Within(m, mod, n), Within(m, mod', c * n);
    forall op: Opcode, args: seq<Arg>, w: World
      ensures NearEffects(m1.effect(op, args, w), m2.effect(op, args, w), {OutOfFuel, Fault}, {})
    {
      WithinEffect(m, mod, n, op, args, w);
      WithinEffect(m, mod', c * n, op, args, w);
      if op.Call? && args != [] && AllInts(args) {
        var j := FuncAtSame(m, mod, mod', args[0].v);
        if n > 0 && FuncAt(m, mod, args[0].v).Some? {
          OneLevelMore(c, n);
          WithinTracks(m, mod, mod', c, n - 1);
          CallUnfolds(m, mod, n, args, w, mod[j]);
          CallUnfolds(m, mod', c * n, args, w, mod'[j]);
          InvokeTracks(m, mod, mod', c, j, Ints(args[1..]), w, n - 1, c * n - 1);
        }
      }
    }
  }

  lemma SameNamesOf(mod: Module, mod': Module, c: nat)
    requires RefinedCode(mod, mod', c)
    ensures SameNames(mod, mod')
  {}

  lemma InvokeTracks(m: Machine, mod: Module, mod': Module, c: nat, j: nat, params: seq<i64>, w: World, n: nat, k: nat)
    requires RefinedCode(mod, mod', c) && j < |mod| && j < |mod'| && c * n <= k
    requires Near(Within(m, mod, n), Within(m, mod', c * n), {OutOfFuel, Fault}, {})
    ensures var o := Invoke(m, mod, mod[j], params, w, n);
      o == OutOfFuel || o == Fault || Invoke(m, mod', mod'[j], params, w, k) == o
  {
    hide Enter, RefinedCode, Near, Within;
    EnterNear(Within(m, mod, n), Within(m, mod', c * n), {OutOfFuel, Fault}, {}, mod[j], params, w, n);
    EnterTracks(Within(m, mod', c * n), mod, mod', c, j, params, w, n);
    InvokeMoreFuel(m, mod', mod'[j], params, w, c * n, k);
  }

  lemma {:induction false} WithinTracksBack(m: Machine, mod: Module, mod': Module, c: nat, n: nat)
    requires RefinedCode(mod, mod', c) && c > 0
    ensures Near(Within(m, mod, c * n), Within(m, mod', n), {Fault}, {OutOfFuel})
    decreases n
  {
    hide FuncAt, RefinedCode;
    SameNamesOf(mod, mod', c);
    var m1, m2 := Within(m, mod, c * n), Within(m, mod', n);
    forall op: Opcode, args: seq<Arg>, w: World
      ensures NearEffects(m1.effect(op, args, w), m2.effect(op, args, w), {Fault}, {OutOfFuel})
    {
      WithinEffect(m, mod, c * n, op, args, w);
      WithinEffect(m, mod', n, op, args, w);
      if op.Call? && args != [] && AllInts(args) {
        var j := FuncAtSame(m, mod, mod', args[0].v);
        if n > 0 && FuncAt(m, mod, args[0].v).Some? {
          OneLevelMore(c, n);
          WithinTracksBack(m, mod, mod', c, n - 1);
          CallUnfolds(m, mod, c * n, args, w, mod[j]);
          CallUnfolds(m, mod', n, args, w, mod'[j]);
          InvokeTracksBack(m, mod, mod', c, j, Ints(args[1..]), w, n - 1, c * n - 1);
        }
      }
    }
  }

  lemma InvokeTracksBack(m: Machine, mod: Module, mod': Module, c: nat, j: nat, params: seq<i64>, w: World, n: nat,
        k: nat)
    requires RefinedCode(mod, mod', c) && j < |mod| && j < |mod'| && c * n <= k
    requires Near(Within(m, mod, c * n), Within(m, mod', n), {Fault}, {OutOfFuel})
    ensures var o, o' := Invoke(m, mod', mod'[j], params, w, n), Invoke(m, mod, mod[j], params, w, k);
      o == OutOfFuel || o' == o || o' == Fault
  {
    hide Enter, RefinedCode, Near, Within;
    EnterTracks(Within(m, mod', n), mod, mod', c, j, params, w, n);
    EnterNear(Within(m, mod, c * n), Within(m, mod', n), {Fault}, {OutOfFuel}, mod[j], params, w, c * n);
    InvokeMoreFuel(m, mod, mod[j], params, w, c * n, k);
  }

  /** Functions can be replaced by refinements in a module of functions that call each other at any depth. */
  lemma RefinedCodeRefinesCalls(mod: Module, mod': Module, c: nat)
    requires RefinedCode(mod, mod', c) && c > 0
    ensures RefinedCalls(mod, mod')
  {
    hide Invoke, RefinedCode, Near, Within;
    SameNamesOf(mod, mod', c);
    forall m: Machine, j: nat | j < |mod|
      ensures RefinedCall(m, mod, mod[j], mod', mod'[j])
    {
      CodeRefinesCall(m, mod, mod', c, j);
    }
  }

  lemma CodeRefinesCall(m: Machine, mod: Module, mod': Module, c: nat, j: nat)
    requires RefinedCode(mod, mod', c) && c > 0 && j < |mod| && j < |mod'|
    ensures RefinedCall(m, mod, mod[j], mod', mod'[j])
  {
    hide Invoke, RefinedCode, Near, Within;
    forall params: seq<i64>, w: World, o: Outcome
      ensures o != Fault && Delivers(m, mod, mod[j], params, w, o) ==> Delivers(m, mod', mod'[j], params, w, o)
      ensures Delivers(m, mod', mod'[j], params, w, o) ==>
        Delivers(m, mod, mod[j], params, w, o) || Delivers(m, mod, mod[j], params, w, Fault)
    {
      if o != Fault && Delivers(m, mod, mod[j], params, w, o) {
        var n: nat :| Invoke(m, mod, mod[j], params, w, n) == o;
        WithinTracks(m, mod, mod', c, n);
        InvokeTracks(m, mod, mod', c, j, params, w, n, c * n);
      }
      if Delivers(m, mod', mod'[j], params, w, o) {
        var n: nat :| Invoke(m, mod', mod'[j], params, w, n) == o;
        WithinTracksBack(m, mod, mod', c, n);
        InvokeTracksBack(m, mod, mod', c, j, params, w, n, c * n);
      }
    }
  }

  /** The same functions, each a refinement of the original's. */
  ghost predicate RefinedFunctions(mod: Module, mod': Module) {
    && SameNames(mod, mod')
    && forall j | 0 <= j < |mod| :: mod'[j].fast == mod[j].fast && Refines(mod[j].code, mod'[j].code)
  }

  ghost predicate BoundedUpTo(mod: Module, mod': Module, c: nat, k: nat)
    requires k <= |mod| == |mod'|
  {
    c > 0 && forall j | 0 <= j < k :: Bounded(mod[j].code, mod'[j].code, c)
  }

  /** Finitely many functions have a common bound. */
  lemma {:induction false} CommonBound(mod: Module, mod': Module, k: nat) returns (c: nat)
    requires RefinedFunctions(mod, mod') && k <= |mod|
    ensures |mod| == |mod'| && BoundedUpTo(mod, mod', c, k)
  {
    hide Bounded;
    if k == 0 {
      c := 1;
    } else {
      var d := CommonBound(mod, mod', k - 1);
      assert Refines(mod[k - 1].code, mod'[k - 1].code);
      var e: nat :| Bounded(mod[k - 1].code, mod'[k - 1].code, e);
      c := d + e;
      forall j | 0 <= j < k
        ensures Bounded(mod[j].code, mod'[j].code, c)
      {
        BoundGrows(mod[j].code, mod'[j].code, if j < k - 1 then d else e, c);
      }
    }
  }

  /** Passes that keep the outcomes of each function keep the outcomes of calls in the whole module, however the
      functions call each other. */
  lemma RefinedFunctionsRefineCalls(mod: Module, mod': Module)
    requires RefinedFunctions(mod, mod')
    ensures RefinedCalls(mod, mod')
  {
    hide Bounded, Refines, RefinedCalls;
    var c := CommonBound(mod, mod', |mod|);
    RefinedCodeRefinesCalls(mod, mod', c);
  }

  lemma RefinedCallTransitive(m: Machine, x: Module, d: Decl, y: Module, e: Decl, z: Module, f: Decl)
    requires RefinedCall(m, x, d, y, e) && RefinedCall(m, y, e, z, f)
    ensures RefinedCall(m, x, d, z, f)
  {
    hide Delivers;
  }

  /** For calls that do not fault the outcomes are the same, both ways. */
  lemma SameCallsRefine(m: Machine, mod: Module, d: Decl, mod': Module, d': Decl, params: seq<i64>, w: World,
        o: Outcome)
    requires RefinedCall(m, mod, d, mod', d') && !Delivers(m, mod, d, params, w, Fault)
    ensures Delivers(m, mod, d, params, w, o) <==> Delivers(m, mod', d', params, w, o)
  {
    hide Delivers;
  }
}
