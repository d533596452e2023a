/** Where fast-path stripping goes wrong: tests that do not suffice, and slow paths that read the comparison. */
module FastPathLimits {
  import opened Sir
  import opened SirModules
  import opened ModuleLift
  import opened RefinedModules
  import opened FastPaths
  import P = Prune

  // ---------------------------------------------------------------------------------------------
  // A test that does not suffice

  /** The branch's shape with a side that returns the argument and one that returns `other`. */
  function Sample(s: Shape, positive: bool, other: Value): Func {
    var e := s.yes + s.no + 1;
    var back, off := [Inst(Ret, None, [VReg(s.p)])], [Inst(Ret, None, [other])];
    Func([e, s.yes, s.no],
      map[e := EntryOf(s), s.yes := if positive then back else off, s.no := if positive then off else back])
  }

  lemma EntryIsOk(s: Shape)
    requires s.Valid()
    ensures BlockOk(EntryOf(s)) && Successors(EntryOf(s)) <= {s.yes, s.no}
  {}

  lemma ReturnIsOk(v: Value)
    requires !v.BlockRef?
    ensures BlockOk([Inst(Ret, None, [v])]) && Successors([Inst(Ret, None, [v])]) == {}
  {}

  lemma SampleHasFastPath(s: Shape, positive: bool, other: Value)
    requires s.Valid() && s.yes != s.no && !other.BlockRef?
    ensures WellFormed(Sample(s, positive, other)) && HasFastPath(Sample(s, positive, other), s, positive)
  {
    hide BlockOk, Successors, EntryOf;
    SampleIsOk(s, positive, other);
  }

  lemma SampleIsOk(s: Shape, positive: bool, other: Value)
    requires s.Valid() && s.yes != s.no && !other.BlockRef?
    ensures WellFormed(Sample(s, positive, other))
  {
    hide BlockOk, Successors, EntryOf;
    EntryIsOk(s);
    ReturnIsOk(VReg(s.p));
    ReturnIsOk(other);
    var f := Sample(s, positive, other);
    var e := f.order[0];
    assert f.body.Keys == {e, s.yes, s.no} == (set b | b in f.order);
    forall b | b in f.body
      ensures BlockOk(f.body[b]) && Successors(f.body[b]) <= f.body.Keys
    {
      assert b in {e, s.yes, s.no};
    }
  }

  lemma SampleIsDead(s: Shape, positive: bool, other: Value)
    requires s.Valid() && s.yes != s.no && !other.BlockRef? && other != VReg(s.c)
    ensures DeadAfterTest(Sample(s, positive, other), s, positive)
  {
    hide WellFormed, DeadAfterTest, EntryOf;
    SampleHasFastPath(s, positive, other);
    OnlyBranchIsDead(Sample(s, positive, other), s, positive);
  }

  lemma ReturnsValue(m: Machine, v: Value, params: seq<i64>, regs: Regs, w: World)
    ensures RunBlock(m, params, [Inst(Ret, None, [v])], regs, w) == End(
      match EvalOperand(m, v, regs)
      case Some(Int(x)) => Returned(x, w)
      case _ => Fault)
  {
    var ops := [v];
    if EvalOperand(m, v, regs).Some? { assert EvalAll(m, ops, regs).value == [EvalOperand(m, v, regs).value]; }
  }

  /** The sample on an argument, before and after stripping. */
  lemma SampleRuns(m: Machine, s: Shape, positive: bool, k: i64, x: i64, w: World, n: nat)
    requires s.Valid() && s.yes != s.no && n >= 2
    ensures var f := Sample(s, positive, ConstInt(k));
      && RunFunc(m, f, [x], w, n) == Returned(if Compare(s.op, x, s.imm) == positive then x else k, w)
      && RunFunc(m, Stripped(f, s, positive), [x], w, n) == Returned(k, w)
  {
    hide RunBlock, Compare;
    var f := Sample(s, positive, ConstInt(k));
    var slow, v: i64 := SlowOf(s, positive), if Compare(s.op, x, s.imm) then 1 else 0;
    EntryRuns(m, s, [x], map[], w);
    StrippedEntryRuns(m, s.p, slow, [x], map[], w);
    var regs: Regs := map[][s.p := x];
    ReturnsValue(m, ConstInt(k), [x], regs[s.c := v], w);
    ReturnsValue(m, ConstInt(k), [x], regs, w);
    ReturnRuns(m, s.p, [x], regs[s.c := v], w);
    var b := if v == 1 then s.yes else s.no;
    assert RunFunc(m, f, [x], w, n) == Run(m, f, [x], b, regs[s.c := v], w, n - 1);
    var g := Stripped(f, s, positive);
    assert RunFunc(m, g, [x], w, n) == Run(m, g, [x], slow, regs, w, n - 1);
  }

  function Idle(): Machine {
    Machine((name: string) => 0, (args: seq<Arg>, w: World) => None,
      (op: Opcode, args: seq<Arg>, w: World) => Stop(Fault))
  }

  function Blank(): World { World(map[], [], []) }

  /** The module that consists of one function. */
  function Alone(f: Func): Module { [Decl("f", f, None)] }

  function AloneStripped(f: Func, s: Shape, positive: bool): Module
    requires f.order != [] && s.Valid()
  {
    [Decl("f", Stripped(f, s, positive), Some(FastPath(Trunc32(s.imm), JccFor(s.op, positive))))]
  }

  lemma AloneStrips(f: Func, s: Shape, positive: bool)
    requires WellFormed(f) && HasFastPath(f, s, positive)
    ensures Strips(Alone(f), 0, s, positive, AloneStripped(f, s, positive))
  {
    hide WellFormed, HasFastPath;
    assert f.order != [] && s.Valid() by { StripsShape(f, s, positive); }
  }

  lemma StripsShape(f: Func, s: Shape, positive: bool)
    requires HasFastPath(f, s, positive)
    ensures f.order != [] && s.Valid()
  {}

  /** Some argument tells the truncated test from the comparison. */
  lemma TellingArgument(s: Shape, positive: bool) returns (x: i64)
    requires s.Valid() && !Fits32(s.imm)
    ensures !(Taken(JccFor(s.op, positive), x, Trunc32(s.imm)) <==> (Compare(s.op, x, s.imm) == positive))
  {
    hide Taken, Compare, JccFor;
    TestIsExact(s.op, positive, s.imm);
    x :| !(Taken(JccFor(s.op, positive), x, Trunc32(s.imm)) <==> (Compare(s.op, x, s.imm) == positive));
  }

  /** A constant that does not survive the cast changes the calls of some function of every such shape. */
  lemma WideConstantBreaks(s: Shape, positive: bool) returns (mod: Module, mod': Module)
    requires s.Valid() && !TestSuffices(s)
    ensures Strips(mod, 0, s, positive, mod') && DeadAfterTest(mod[0].code, s, positive) && !SameCalls(mod, mod')
  {
    hide Taken, Compare, JccFor, RunFunc, Stripped, WellFormed, HasFastPath, DeadAfterTest;
    var x := TellingArgument(s, positive);
    var k: i64 := if x == 0 then 1 else 0;
    var f, m, w := Sample(s, positive, ConstInt(k)), Idle(), Blank();
    SampleHasFastPath(s, positive, ConstInt(k));
    SampleIsDead(s, positive, ConstInt(k));
    AloneStrips(f, s, positive);
    mod, mod' := Alone(f), AloneStripped(f, s, positive);
    SampleRuns(Within(m, mod, 2), s, positive, k, x, w, 2);
    SampleRuns(Within(m, mod', 2), s, positive, k, x, w, 2);
    var fast := Compare(s.op, x, s.imm) == positive;
    assert Invoke(m, mod, mod[0], [x], w, 2) == Returned(if fast then x else k, w);
    assert Invoke(m, mod', mod'[0], [x], w, 2) == Returned(if fast then k else x, w);
    DifferentAnswers(m, mod, mod', [x], w, 2, Returned(if fast then x else k, w), Returned(if fast then k else x, w));
  }

  /** One call with different outcomes is enough. */
  lemma DifferentAnswers(m: Machine, mod: Module, mod': Module, params: seq<i64>, w: World, n: nat, o: Outcome,
        o': Outcome)
    requires |mod| == |mod'| == 1 && o != o' && o != OutOfFuel && o' != OutOfFuel
    requires Invoke(m, mod, mod[0], params, w, n) == o && Invoke(m, mod', mod'[0], params, w, n) == o'
    ensures !SameCalls(mod, mod')
  {
    hide Invoke;
    assert Delivers(m, mod, mod[0], params, w, o) && Delivers(m, mod', mod'[0], params, w, o');
    if Delivers(m, mod, mod[0], params, w, o') { DeliversOnce(m, mod, mod[0], params, w, o, o'); }
    assert Linked(m, Names(mod));
  }

  /** Stripping is safe for all functions of a shape, given that the comparison is dead behind the branch,
      if and only if the test suffices. */
  lemma StrippingIsSafe(s: Shape, positive: bool)
    requires s.Valid()
    ensures TestSuffices(s) <==>
      forall mod: Module, i: nat, mod': Module | Strips(mod, i, s, positive, mod') &&
        DeadAfterTest(mod[i].code, s, positive) :: SameCalls(mod, mod')
  {
    hide HasFastPath, WellFormed, DeadAfterTest, SameCalls;
    if TestSuffices(s) {
      forall mod: Module, i: nat, mod': Module | Strips(mod, i, s, positive, mod') &&
        DeadAfterTest(mod[i].code, s, positive)
        ensures SameCalls(mod, mod')
      {
        StrippingKeepsCalls(mod, i, s, positive, mod');
      }
    } else {
      var mod, mod' := WideConstantBreaks(s, positive);
    }
  }

  // ---------------------------------------------------------------------------------------------
  // Slow paths that read the comparison

  /** Registers are written once: only the entry writes `c`. */
  ghost predicate OneWriter(f: Func, c: nat)
    requires f.order != []
  {
    forall b | b in f.body && b != f.order[0] :: !L.Writes(f.body[b], c)
  }

  /** The block comes to an instruction that reads `c`. */
  ghost predicate BlockReads(m: Machine, params: seq<i64>, insts: seq<Inst>, c: nat, regs: Regs, w: World) {
    insts != [] &&
    (VReg(c) in insts[0].ops ||
     match Step(m, params, insts[0], regs, w)
     case Next(v, w') => BlockReads(m, params, insts[1..], c, Write(regs, insts[0].dest, v), w')
     case _ => false)
  }

  /** The run comes, within `n` blocks and outside the entry, to an instruction that reads `c`. */
  ghost predicate RunReads(m: Machine, f: Func, c: nat, params: seq<i64>, b: nat, regs: Regs, w: World, n: nat)
    requires f.order != []
    decreases n
  {
    n > 0 && b in f.body &&
    ((b != f.order[0] && BlockReads(m, params, f.body[b], c, regs, w)) ||
     match RunBlock(m, params, f.body[b], regs, w)
     case Goto(b', regs', w') => RunReads(m, f, c, params, b', regs', w', n - 1)
     case End(_) => false)
  }

  /** What `m1` settles, `m2` settles alike, or it faults. */
  ghost predicate Weaker(m1: Machine, m2: Machine) { Near(m1, m2, {OutOfFuel}, {Fault}) }

  /** The second register file lacks the registers of `odd`. */
  ghost predicate Lacks(odd: set<nat>, regs: Regs, regs': Regs) {
    AgreeExcept(odd, regs, regs') && forall v | v in odd :: v !in regs'
  }

  ghost predicate ReadsOdd(inst: Inst, odd: set<nat>) { exists v :: v in odd && VReg(v) in inst.ops }

  lemma OddOperandFaults(m: Machine, params: seq<i64>, inst: Inst, odd: set<nat>, regs: Regs, w: World)
    requires ReadsOdd(inst, odd) && forall v | v in odd :: v !in regs
    ensures Step(m, params, inst, regs, w) == Finish(Fault)
  {
    hide Exec;
    var v :| v in odd && VReg(v) in inst.ops;
    var k :| 0 <= k < |inst.ops| && inst.ops[k] == VReg(v);
    assert EvalOperand(m, inst.ops[k], regs) == None;
  }

  lemma StepWeaker(m1: Machine, m2: Machine, params: seq<i64>, inst: Inst, odd: set<nat>, regs: Regs, regs': Regs,
        w: World)
    requires Weaker(m1, m2) && Lacks(odd, regs, regs')
    ensures var r, r' := Step(m1, params, inst, regs, w), Step(m2, params, inst, regs', w);
      r == Finish(OutOfFuel) || r' == r || r' == Finish(Fault)
  {
    if ReadsOdd(inst, odd) {
      OddOperandFaults(m2, params, inst, odd, regs', w);
    } else {
      forall k | 0 <= k < |inst.ops|
        ensures EvalOperand(m1, inst.ops[k], regs) == EvalOperand(m1, inst.ops[k], regs')
      {
        if inst.ops[k].VReg? && inst.ops[k].r in odd { assert VReg(inst.ops[k].r) in inst.ops; }
      }
      EvalAllCongruent(m1, inst.ops, regs, inst.ops, regs');
      StepNear(m1, m2, {OutOfFuel}, {Fault}, params, inst, regs', w);
      assert Step(m1, params, inst, regs', w) == Step(m1, params, inst, regs, w);
    }
  }

  ghost predicate ResultWeaker(r: BlockResult, r': BlockResult, odd: set<nat>) {
    || r == End(OutOfFuel) || r' == End(Fault) || (r.End? && r' == r)
    || (r.Goto? && r'.Goto? && r'.id == r.id && r'.w == r.w && Lacks(odd, r.regs, r'.regs))
  }

  ghost predicate WritesNone(insts: seq<Inst>, odd: set<nat>) { forall v | v in odd :: !L.Writes(insts, v) }

  lemma WritesNoneTail(insts: seq<Inst>, odd: set<nat>)
    requires insts != [] && WritesNone(insts, odd)
    ensures WritesNone(insts[1..], odd) && (insts[0].dest.Some? ==> insts[0].dest.value !in odd)
  {
    forall v | v in odd
      ensures !L.Writes(insts[1..], v) && insts[0].dest != Some(v)
    {
      ReadsFirstHead(insts, v);
      assert !L.Writes(insts, v);
    }
  }

  lemma {:induction false} BlockWeaker(m1: Machine, m2: Machine, params: seq<i64>, insts: seq<Inst>, odd: set<nat>,
        regs: Regs, regs': Regs, w: World)
    requires Weaker(m1, m2) && Lacks(odd, regs, regs') && WritesNone(insts, odd)
    ensures ResultWeaker(RunBlock(m1, params, insts, regs, w), RunBlock(m2, params, insts, regs', w), odd)
    ensures forall c | c in odd && BlockReads(m1, params, insts, c, regs, w) ::
      RunBlock(m2, params, insts, regs', w) == End(Fault)
  {
    hide Step, Weaker, WritesNone;
    if insts != [] {
      WritesNoneTail(insts, odd);
      StepWeaker(m1, m2, params, insts[0], odd, regs, regs', w);
      if ReadsOdd(insts[0], odd) { OddOperandFaults(m2, params, insts[0], odd, regs', w); }
      match Step(m1, params, insts[0], regs, w)
      case Next(v, w') =>
        BlockWeaker(m1, m2, params, insts[1..], odd, Write(regs, insts[0].dest, v), Write(regs', insts[0].dest, v), w');
      case _ =>
    }
  }

  /** The slow path of the stripped function ends as the original's does, or it faults; and it faults
      if the original reads the comparison. */
  lemma {:induction false} SlowWeaker(m1: Machine, m2: Machine, f: Func, s: Shape, positive: bool, params: seq<i64>,
        b: nat, regs: Regs, regs': Regs, w: World, n: nat)
    requires WellFormed(f) && HasFastPath(f, s, positive) && OneWriter(f, s.c) && Weaker(m1, m2)
    requires params != [] && Compare(s.op, params[0], s.imm) != positive
    requires b in f.body && Lacks({s.c}, regs, regs')
    ensures var o, o' := Run(m1, f, params, b, regs, w, n), Run(m2, Stripped(f, s, positive), params, b, regs', w, n);
      (o == OutOfFuel || o' == o || o' == Fault) && (RunReads(m1, f, s.c, params, b, regs, w, n) ==> o' == Fault)
    decreases n
  {
    hide Weaker, RunBlock, Compare, WellFormed, BlockReads, EntryOf, L.Writes;
    if n > 0 {
      if b == f.order[0] {
        var slow := SlowOf(s, positive);
        EntryRuns(m1, s, params, regs, w);
        StrippedEntryRuns(m2, s.p, slow, params, regs', w);
        SlowWeaker(m1, m2, f, s, positive, params, slow,
          regs[s.p := params[0]][s.c := if positive then 0 else 1], regs'[s.p := params[0]], w, n - 1);
      } else {
        BlockWeaker(m1, m2, params, f.body[b], {s.c}, regs, regs', w);
        GoesInside(m1, params, f, b, regs, w);
        var r, r' := RunBlock(m1, params, f.body[b], regs, w), RunBlock(m2, params, f.body[b], regs', w);
        if r.Goto? && r'.Goto? { SlowWeaker(m1, m2, f, s, positive, params, r.id, r.regs, r'.regs, r.w, n - 1); }
      }
    }
  }

  lemma GoesInside(m: Machine, params: seq<i64>, f: Func, b: nat, regs: Regs, w: World)
    requires WellFormed(f) && b in f.body
    ensures RunBlock(m, params, f.body[b], regs, w).Goto? ==> RunBlock(m, params, f.body[b], regs, w).id in f.body
  {
    hide RunBlock, WellFormed, Successors, BlockOk;
    BlocksInside(f, b);
    if RunBlock(m, params, f.body[b], regs, w).Goto? { P.GotoIsSuccessor(m, params, f.body[b], regs, w); }
  }

  /** A call that takes the slow path and then reads the comparison. */
  ghost predicate SlowRunReads(m: Machine, f: Func, s: Shape, positive: bool, params: seq<i64>, w: World, n: nat)
    requires s.op.IsCompare()
  {
    && params != []
    && Compare(s.op, params[0], s.imm) != positive
    && f.order != []
    && RunReads(m, f, s.c, params, f.order[0], map[], w, n)
  }

  /** An activation in the stripped module ends as in the original one, or it faults. */
  lemma EnterWeaker(m1: Machine, m2: Machine, mod: Module, i: nat, s: Shape, positive: bool, mod': Module, j: nat,
        params: seq<i64>, w: World, n: nat)
    requires Strips(mod, i, s, positive, mod') && Fits32(s.imm) && OneWriter(mod[i].code, s.c) && Weaker(m1, m2)
    requires j < |mod|
    ensures var o, o' := Enter(m1, mod[j], params, w, n), Enter(m2, mod'[j], params, w, n);
      o == OutOfFuel || o' == o || o' == Fault
    ensures j == i && SlowRunReads(m1, mod[i].code, s, positive, params, w, n) ==>
      Enter(m2, mod'[j], params, w, n) == Fault
  {
    hide Near, Run, RunReads, Compare, Taken, OneWriter, Stripped, WellFormed;
    var f := mod[i].code;
    if j != i {
      EnterNear(m1, m2, {OutOfFuel}, {Fault}, mod[j], params, w, n);
    } else if params == [] || Compare(s.op, params[0], s.imm) == positive {
      if params != [] { TestAgrees(s, positive, params[0]); }
      OriginalRun(m1, f, s, positive, params, w, n);
    } else {
      TestAgrees(s, positive, params[0]);
      SlowWeaker(m1, m2, f, s, positive, params, f.order[0], map[], map[], w, n);
      StrippedOrder(f, s, positive);
    }
  }

  lemma StrippedOrder(f: Func, s: Shape, positive: bool)
    requires f.order != []
    ensures Stripped(f, s, positive).order == f.order
  {}

  lemma {:induction false} WithinWeaker(m: Machine, mod: Module, i: nat, s: Shape, positive: bool, mod': Module, n: nat)
    requires Strips(mod, i, s, positive, mod') && Fits32(s.imm) && OneWriter(mod[i].code, s.c)
    ensures Weaker(Within(m, mod, n), Within(m, mod', n))
    decreases n
  {
    hide FuncAt, OneWriter, Enter, HasFastPath, Stripped;
    var m1, m2 := Within(m, mod, n), Within(m, mod', n);
    forall op: Opcode, args: seq<Arg>, w: World
      ensures NearEffects(m1.effect(op, args, w), m2.effect(op, args, w), {OutOfFuel}, {Fault})
    {
      WithinEffect(m, mod, n, op, args, w);
      WithinEffect(m, mod', n, op, args, w);
      if op.Call? && args != [] && AllInts(args) {
        var j := FuncAtSame(m, mod, mod', args[0].v);
        if n > 0 && FuncAt(m, mod, args[0].v).Some? {
          WithinWeaker(m, mod, i, s, positive, mod', n - 1);
          CallUnfolds(m, mod, n, args, w, mod[j]);
          CallUnfolds(m, mod', n, args, w, mod'[j]);
          EnterWeaker(Within(m, mod, n - 1), Within(m, mod', n - 1), mod, i, s, positive, mod', j, Ints(args[1..]), w,
            n - 1);
        }
      }
    }
  }

  /** A slow run that reads the comparison faults once its function has been stripped: if it did not before,
      stripping has changed the outcome of a call. */
  lemma SlowReadBreaks(m: Machine, mod: Module, i: nat, s: Shape, positive: bool, mod': Module, params: seq<i64>,
        w: World, n: nat)
    requires Strips(mod, i, s, positive, mod') && Fits32(s.imm) && OneWriter(mod[i].code, s.c) && Linked(m, Names(mod))
    requires SlowRunReads(Within(m, mod, n), mod[i].code, s, positive, params, w, n)
    ensures Delivers(m, mod', mod'[i], params, w, Fault)
    ensures !Delivers(m, mod, mod[i], params, w, Fault) ==> !SameCalls(mod, mod')
  {
    hide OneWriter, RunReads, Compare, HasFastPath, Stripped, Within, Enter;
    WithinWeaker(m, mod, i, s, positive, mod', n);
    EnterWeaker(Within(m, mod, n), Within(m, mod', n), mod, i, s, positive, mod', i, params, w, n);
    assert Invoke(m, mod', mod'[i], params, w, n) == Fault;
  }

  /** Every shape whose sides differ has such a function: its slow path returns the comparison. */
  lemma SharedComparisonBreaks(s: Shape, positive: bool, x: i64) returns (mod: Module, mod': Module)
    requires s.Valid() && Fits32(s.imm) && s.yes != s.no && Compare(s.op, x, s.imm) != positive
    ensures Strips(mod, 0, s, positive, mod') && !DeadAfterTest(mod[0].code, s, positive) && !SameCalls(mod, mod')
  {
    hide RunBlock, Compare, WellFormed, HasFastPath, DeadAfterTest, Stripped, RunFunc;
    var f, m, w := Sample(s, positive, VReg(s.c)), Idle(), Blank();
    SampleHasFastPath(s, positive, VReg(s.c));
    AloneStrips(f, s, positive);
    mod, mod' := Alone(f), AloneStripped(f, s, positive);
    SharedSampleRuns(Within(m, mod, 2), s, positive, x, w);
    SharedStrippedRuns(Within(m, mod', 2), s, positive, x, w);
    TestAgrees(s, positive, x);
    var v: i64 := if positive then 0 else 1;
    DifferentAnswers(m, mod, mod', [x], w, 2, Returned(v, w), Fault);
    if DeadAfterTest(f, s, positive) { StrippingKeepsCalls(mod, 0, s, positive, mod'); }
  }

  lemma SharedSampleRuns(m: Machine, s: Shape, positive: bool, x: i64, w: World)
    requires s.Valid() && s.yes != s.no && Compare(s.op, x, s.imm) != positive
    ensures RunFunc(m, Sample(s, positive, VReg(s.c)), [x], w, 2) == Returned(if positive then 0 else 1, w)
  {
    hide RunBlock, Compare;
    var f, v: i64 := Sample(s, positive, VReg(s.c)), if positive then 0 else 1;
    EntryRuns(m, s, [x], map[], w);
    var regs: Regs := map[][s.p := x][s.c := v];
    ReturnsValue(m, VReg(s.c), [x], regs, w);
    assert RunFunc(m, f, [x], w, 2) == Run(m, f, [x], SlowOf(s, positive), regs, w, 1);
  }

  lemma SharedStrippedRuns(m: Machine, s: Shape, positive: bool, x: i64, w: World)
    requires s.Valid() && s.yes != s.no
    ensures RunFunc(m, Stripped(Sample(s, positive, VReg(s.c)), s, positive), [x], w, 2) == Fault
  {
    hide RunBlock;
    var slow, g := SlowOf(s, positive), Stripped(Sample(s, positive, VReg(s.c)), s, positive);
    StrippedEntryRuns(m, s.p, slow, [x], map[], w);
    var regs: Regs := map[][s.p := x];
    ReturnsValue(m, VReg(s.c), [x], regs, w);
    assert RunFunc(m, g, [x], w, 2) == Run(m, g, [x], slow, regs, w, 1);
  }
}
