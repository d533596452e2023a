/** From one function to the whole module: rewriting functions one activation at a time preserves
    every call at every depth. */
module ModuleLift {
  import opened Sir
  import opened SirModules
  import Prune

  ghost predicate SameNames(mod: Module, mod': Module) {
    |mod'| == |mod| && forall j | 0 <= j < |mod| :: mod'[j].name == mod[j].name
  }

  /** Every call of every function has the same outcomes in both modules, faults included. */
  ghost predicate SameCalls(mod: Module, mod': Module) {
    && SameNames(mod, mod')
    && forall m: Machine, j: nat, params: seq<i64>, w: World, o: Outcome | j < |mod| && Linked(m, Names(mod)) ::
      Delivers(m, mod, mod[j], params, w, o) <==> Delivers(m, mod', mod'[j], params, w, o)
  }

  /** If calls inside are carried over with `c` more fuel, so is an activation. */
  ghost predicate Carries(m: Machine, mod: Module, mod': Module, c: nat) {
    forall n: nat, j: nat, params: seq<i64>, w: World | j < |mod| && j < |mod'| &&
      Below(Within(m, mod, n), Within(m, mod', n + c)) ::
      Invoke(m, mod, mod[j], params, w, n) == OutOfFuel ||
        Invoke(m, mod', mod'[j], params, w, n + c) == Invoke(m, mod, mod[j], params, w, n)
  }

  /** Both modules resolve an address to the same position. */
  lemma {:induction false} FuncAtSame(m: Machine, mod: Module, mod': Module, v: i64) returns (j: nat)
    requires SameNames(mod, mod')
    ensures FuncAt(m, mod, v).None? <==> FuncAt(m, mod', v).None?
    ensures FuncAt(m, mod, v).Some? ==>
      j < |mod| && FuncAt(m, mod, v) == Some(mod[j]) && FuncAt(m, mod', v) == Some(mod'[j])
  {
    j := 0;
    if mod != [] {
      assert mod'[0].name == mod[0].name;
      if m.addr(mod[0].name) != v {
        var i := FuncAtSame(m, mod[1..], mod'[1..], v);
        j := i + 1;
      }
    }
  }

  lemma {:induction false} LiftCalls(m: Machine, mod: Module, mod': Module, c: nat, n: nat)
    requires SameNames(mod, mod') && Carries(m, mod, mod', c)
    ensures Below(Within(m, mod, n), Within(m, mod', n + c))
    decreases n
  {
    hide Carries, FuncAt;
    var m1, m2 := Within(m, mod, n), Within(m, mod', n + c);
    forall op: Opcode, args: seq<Arg>, w: World
      ensures m1.effect(op, args, w) == Stop(OutOfFuel) || m2.effect(op, args, w) == m1.effect(op, args, w)
    {
      WithinEffect(m, mod, n, op, args, w);
      WithinEffect(m, mod', n + c, op, args, w);
      if op.Call? && args != [] && AllInts(args) {
        var j := FuncAtSame(m, mod, mod', args[0].v);
        if n > 0 && FuncAt(m, mod, args[0].v).Some? {
          LiftCalls(m, mod, mod', c, n - 1);
          CallUnfolds(m, mod, n, args, w, mod[j]);
          CallUnfolds(m, mod', n + c, args, w, mod'[j]);
          CarriesAt(m, mod, mod', c, n - 1, j, Ints(args[1..]), w);
        }
      }
    }
  }

  lemma CarriesAt(m: Machine, mod: Module, mod': Module, c: nat, n: nat, j: nat, params: seq<i64>, w: World)
    requires Carries(m, mod, mod', c) && j < |mod| && j < |mod'| && Below(Within(m, mod, n), Within(m, mod', n + c))
    ensures Invoke(m, mod, mod[j], params, w, n) == OutOfFuel ||
      Invoke(m, mod', mod'[j], params, w, n + c) == Invoke(m, mod, mod[j], params, w, n)
  {}

  lemma LiftDelivers(m: Machine, mod: Module, mod': Module, c: nat, j: nat, params: seq<i64>, w: World, o: Outcome)
    requires SameNames(mod, mod') && Carries(m, mod, mod', c) && j < |mod|
    requires Delivers(m, mod, mod[j], params, w, o)
    ensures Delivers(m, mod', mod'[j], params, w, o)
  {
    hide Carries, Invoke;
    var n: nat :| Invoke(m, mod, mod[j], params, w, n) == o;
    LiftCalls(m, mod, mod', c, n);
    CarriesAt(m, mod, mod', c, n, j, params, w);
  }

  lemma BothWays(mod: Module, mod': Module, c: nat, c': nat)
    requires SameNames(mod, mod')
    requires forall m: Machine | Linked(m, Names(mod)) :: Carries(m, mod, mod', c) && Carries(m, mod', mod, c')
    ensures SameCalls(mod, mod')
  {
    hide Carries, Delivers;
    forall m: Machine, j: nat, params: seq<i64>, w: World, o: Outcome | j < |mod| && Linked(m, Names(mod))
      ensures Delivers(m, mod, mod[j], params, w, o) <==> Delivers(m, mod', mod'[j], params, w, o)
    {
      if Delivers(m, mod, mod[j], params, w, o) { LiftDelivers(m, mod, mod', c, j, params, w, o); }
      if Delivers(m, mod', mod'[j], params, w, o) { LiftDelivers(m, mod', mod, c', j, params, w, o); }
    }
  }

  lemma SameCallsTransitive(a: Module, b: Module, c: Module)
    requires SameCalls(a, b) && SameCalls(b, c)
    ensures SameCalls(a, c)
  {
    hide Delivers, Linked;
    assert Names(a) == Names(b) by { SameNamesSet(a, b); }
    forall m: Machine, j: nat, params: seq<i64>, w: World, o: Outcome | j < |a| && Linked(m, Names(a))
      ensures Delivers(m, a, a[j], params, w, o) <==> Delivers(m, c, c[j], params, w, o)
    {
      assert Delivers(m, a, a[j], params, w, o) <==> Delivers(m, b, b[j], params, w, o);
    }
  }

  lemma SameNamesSet(a: Module, b: Module)
    requires SameNames(a, b)
    ensures Names(a) == Names(b)
  {
    forall x ensures x in Names(a) <==> x in Names(b) {
      if x in Names(a) {
        var j :| 0 <= j < |a| && a[j].name == x;
        assert b[j] in b;
      }
      if x in Names(b) {
        var j :| 0 <= j < |b| && b[j].name == x;
        assert a[j] in a;
      }
    }
  }

  /** The same functions, each with code that runs the same. */
  ghost predicate SameCode(mod: Module, mod': Module) {
    && SameNames(mod, mod')
    && forall j | 0 <= j < |mod| :: mod'[j].fast == mod[j].fast && SameRuns(mod[j].code, mod'[j].code)
  }

  lemma SameCodeCarries(m: Machine, mod: Module, mod': Module)
    requires SameCode(mod, mod')
    ensures Carries(m, mod, mod', 0) && Carries(m, mod', mod, 0)
  {
    hide Within, Below, RunFunc;
    forall n: nat, j: nat, params: seq<i64>, w: World | j < |mod|
      ensures Below(Within(m, mod, n), Within(m, mod', n)) ==>
        Invoke(m, mod, mod[j], params, w, n) == OutOfFuel ||
          Invoke(m, mod', mod'[j], params, w, n) == Invoke(m, mod, mod[j], params, w, n)
      ensures Below(Within(m, mod', n), Within(m, mod, n)) ==>
        Invoke(m, mod', mod'[j], params, w, n) == OutOfFuel ||
          Invoke(m, mod, mod[j], params, w, n) == Invoke(m, mod', mod'[j], params, w, n)
    {
      var m1, m2 := Within(m, mod, n), Within(m, mod', n);
      assert SameRuns(mod[j].code, mod'[j].code);
      assert Enter(m2, mod'[j], params, w, n) == Enter(m2, mod[j], params, w, n);
      assert Enter(m1, mod'[j], params, w, n) == Enter(m1, mod[j], params, w, n);
      if Below(m1, m2) { EnterBelow(m1, m2, mod[j], params, w, n, n); }
      if Below(m2, m1) { EnterBelow(m2, m1, mod[j], params, w, n, n); }
    }
  }

  lemma SameCodeSameCalls(mod: Module, mod': Module)
    requires SameCode(mod, mod')
    ensures SameCalls(mod, mod')
  {
    hide Carries, SameCalls;
    forall m: Machine
      ensures Carries(m, mod, mod', 0) && Carries(m, mod', mod, 0)
    {
      SameCodeCarries(m, mod, mod');
    }
    BothWays(mod, mod', 0, 0);
  }

  // ---------------------------------------------------------------------------------------------
  // Runs inside a part that two functions share

  /** The register files agree except on `odd`. */
  ghost predicate AgreeExcept(odd: set<nat>, regs: Regs, regs': Regs) {
    forall v: nat | v !in odd :: (v in regs <==> v in regs') && (v in regs ==> regs[v] == regs'[v])
  }

  ghost predicate NeverReads(inst: Inst, odd: set<nat>) { forall v | v in odd :: VReg(v) !in inst.ops }

  /** The blocks of `s` are the same in both functions, lead nowhere else and read no odd register. */
  ghost predicate Shared(f: Func, g: Func, s: set<nat>, odd: set<nat>) {
    forall b | b in s :: b in f.body && b in g.body && f.body[b] == g.body[b] && BlockFits(f.body[b], s, odd)
  }

  ghost predicate BlockFits(insts: seq<Inst>, s: set<nat>, odd: set<nat>) {
    BlockOk(insts) && Successors(insts) <= s && forall k | 0 <= k < |insts| :: NeverReads(insts[k], odd)
  }

  lemma StepShared(m1: Machine, m2: Machine, params: seq<i64>, inst: Inst, odd: set<nat>, regs: Regs, regs': Regs,
        w: World)
    requires Below(m1, m2) && NeverReads(inst, odd) && AgreeExcept(odd, regs, regs')
    ensures Step(m1, params, inst, regs, w) == Finish(OutOfFuel) ||
      Step(m2, params, inst, regs', w) == Step(m1, params, inst, regs, w)
  {
    hide Exec, Below;
    forall k | 0 <= k < |inst.ops|
      ensures EvalOperand(m1, inst.ops[k], regs) == EvalOperand(m1, inst.ops[k], regs')
    {
      if inst.ops[k].VReg? { assert VReg(inst.ops[k].r) in inst.ops; }
    }
    EvalAllCongruent(m1, inst.ops, regs, inst.ops, regs');
    StepBelow(m1, m2, params, inst, regs', w);
  }

  ghost predicate ResultShared(r: BlockResult, r': BlockResult, odd: set<nat>) {
    match r
    case End(o) => o == OutOfFuel || r' == r
    case Goto(b, regs, w) => r'.Goto? && r'.id == b && r'.w == w && AgreeExcept(odd, regs, r'.regs)
  }

  lemma {:induction false} BlockShared(m1: Machine, m2: Machine, params: seq<i64>, insts: seq<Inst>, odd: set<nat>,
        regs: Regs, regs': Regs, w: World)
    requires Below(m1, m2) && AgreeExcept(odd, regs, regs') && forall k | 0 <= k < |insts| :: NeverReads(insts[k], odd)
    ensures ResultShared(RunBlock(m1, params, insts, regs, w), RunBlock(m2, params, insts, regs', w), odd)
  {
    hide Step, Below, NeverReads;
    if insts != [] {
      assert NeverReads(insts[0], odd);
      StepShared(m1, m2, params, insts[0], odd, regs, regs', w);
      match Step(m1, params, insts[0], regs, w)
      case Next(v, w') =>
        assert forall k | 0 <= k < |insts[1..]| :: insts[1..][k] == insts[k + 1];
        BlockShared(m1, m2, params, insts[1..], odd, Write(regs, insts[0].dest, v), Write(regs', insts[0].dest, v), w');
      case _ =>
    }
  }

  lemma {:induction false} RunShared(m1: Machine, m2: Machine, f: Func, g: Func, s: set<nat>, odd: set<nat>,
        params: seq<i64>, b: nat, regs: Regs, regs': Regs, w: World, n: nat, k: nat)
    requires Below(m1, m2) && Shared(f, g, s, odd) && b in s && AgreeExcept(odd, regs, regs') && n <= k
    ensures Run(m1, f, params, b, regs, w, n) == OutOfFuel ||
      Run(m2, g, params, b, regs', w, k) == Run(m1, f, params, b, regs, w, n)
    decreases n
  {
    hide Below, RunBlock, AgreeExcept, NeverReads, Successors, BlockOk;
    if n > 0 {
      assert BlockFits(f.body[b], s, odd);
      BlockShared(m1, m2, params, f.body[b], odd, regs, regs', w);
      var r, r' := RunBlock(m1, params, f.body[b], regs, w), RunBlock(m2, params, g.body[b], regs', w);
      if r.Goto? {
        Prune.GotoIsSuccessor(m1, params, f.body[b], regs, w);
        RunShared(m1, m2, f, g, s, odd, params, r.id, r.regs, r'.regs, r.w, n - 1, k - 1);
      }
    }
  }
}
