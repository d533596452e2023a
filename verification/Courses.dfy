/** Runs the compile-time machine can afford: within its limits on registers, arguments, depth and steps. */
module Courses {
  import opened Sir
  import opened SirModules
  import opened Evaluate
  import opened Interpret
  import opened Purity
  import opened Nesting

  /** A run to compare with: its machine and world, how deep its calls nest, and the blocks each may enter. */
  datatype Course = Course(m: Machine, w: World, d: nat, f: nat)

  // ---------------------------------------------------------------------------------------------
  // What the machine can hold

  /** Results below register 256, at most 16 arguments, and operands that are numbers. */
  predicate InLimits(inst: Inst) {
    && (inst.dest.Some? ==> inst.dest.value < 256)
    && (inst.op.Call? ==> |inst.ops| - 1 <= 16)
    && forall k | 0 <= k < |inst.ops| :: OperandInLimits(inst, k)
  }

  predicate OperandInLimits(inst: Inst, k: nat)
    requires k < |inst.ops|
  {
    && (inst.ops[k].Global? ==> inst.op.Call? && k == 0)
    && (inst.ops[k].BlockRef? ==> inst.op.Jmp? || inst.op.Br? || inst.op.Switch?)
  }

  predicate CodeInLimits(f: Func) { forall b, k | b in f.body && 0 <= k < |f.body[b]| :: InLimits(f.body[b][k]) }

  /** The flagged functions call only one another, do nothing forbidden, and fit the machine. */
  ghost predicate Enabled(mod: Module, p: set<nat>) {
    ClosedUnderCalls(mod, p) && forall i | i in p && i < |mod| :: CodeInLimits(mod[i].code)
  }

  /** An instruction of such a function. */
  ghost predicate Ready(mod: Module, p: set<nat>, inst: Inst) {
    Enabled(mod, p) && InLimits(inst) && PureInst(mod, p, inst)
  }

  lemma CodeIsReady(mod: Module, p: set<nat>, i: nat, b: nat, k: nat)
    requires Enabled(mod, p) && i in p && i < |mod| && b in mod[i].code.body && k < |mod[i].code.body[b]|
    ensures Ready(mod, p, mod[i].code.body[b][k])
  {
    hide InLimits, PureInst;
    assert CodeInLimits(mod[i].code) && PureCode(mod, p, mod[i].code);
  }

  // ---------------------------------------------------------------------------------------------
  // What it can afford

  /** Calls nested 20000 deep and ten thousand million steps are within reach. */
  predicate InReach(depth: nat, steps: nat) { depth <= 20000 && steps <= 10_000_000_000 }

  /** The call returns, and what it takes is left at this depth and after so many steps. */
  ghost predicate Affordable(mod: Module, c: Course, g: Decl, args: seq<i64>, depth: nat, steps: nat) {
    && Linked(c.m, Names(mod)) && NestedRun(c.m, mod, c.d, c.f, g, args, c.w).Returned?
    && InReach(depth + c.d, steps + Steps(c.m, mod, c.d, c.f, g, args, c.w))
  }

  /** `res` is what the call returns, and `steps'` what it takes. */
  ghost predicate Answered(mod: Module, c: Course, g: Decl, args: seq<i64>, steps: nat, res: Option<i64>, steps': nat) {
    && res.Some? && NestedRun(c.m, mod, c.d, c.f, g, args, c.w) == Returned(res.value, c.w)
    && steps' == steps + Steps(c.m, mod, c.d, c.f, g, args, c.w)
  }

  function On(mod: Module, c: Course): Machine { Nested(c.m, mod, c.d, c.f) }

  /** The same, seen from block `b` with `n` blocks left. */
  ghost predicate OnCourse(mod: Module, c: Course, code: Func, args: seq<i64>, b: nat, regs: Regs, n: nat, depth: nat,
        steps: nat) {
    && Linked(c.m, Names(mod)) && Run(On(mod, c), code, args, b, regs, c.w, n).Returned?
    && InReach(depth + c.d, steps + StepsRun(c.m, mod, c.d, c.f, code, args, b, regs, c.w, n))
  }

  /** The step neither faults nor runs out of anything. */
  predicate Proceeds(r: StepResult) { r.Finish? ==> r.o.Returned? }

  predicate BlockProceeds(r: BlockResult) { r.End? ==> r.o.Returned? }

  ghost predicate StepOnCourse(mod: Module, c: Course, inst: Inst, args: seq<i64>, regs: Regs, depth: nat, steps: nat) {
    && Linked(c.m, Names(mod)) && Proceeds(Step(On(mod, c), args, inst, regs, c.w))
    && InReach(depth + c.d, steps + StepsInst(c.m, mod, c.d, c.f, inst, regs, c.w))
  }

  lemma TakesAStep(m: Machine, mod: Module, d: nat, f: nat, inst: Inst, regs: Regs, w: World)
    ensures StepsInst(m, mod, d, f, inst, regs, w) >= 1
  {}

  /** What the evaluator reports of an instruction is what the run does. */
  ghost predicate Tells(p: Progress, s: Sure, r: StepResult, w: World) {
    match p
    case Fail => false
    case Wrote => s.Gives? && r == Next(s.v, w)
    case Went(b) => r == Jump(b)
    case Finished(x) => r == Finish(Returned(x, w))
  }

  /** The same, and how many steps it took. */
  ghost predicate TellsCounted(mod: Module, c: Course, inst: Inst, args: seq<i64>, regs: Regs, p: Progress, s: Sure,
        steps: nat, steps': nat) {
    && Tells(p, s, Step(On(mod, c), args, inst, regs, c.w), c.w)
    && steps' == steps + StepsInst(c.m, mod, c.d, c.f, inst, regs, c.w)
  }

  // ---------------------------------------------------------------------------------------------
  // Instructions

  /** Instructions that ask nothing of the machine but addresses. */
  lemma SameStepElsewhere(m1: Machine, m2: Machine, args: seq<i64>, inst: Inst, regs: Regs, w: World)
    requires m1.addr == m2.addr && m1.load == m2.load && !inst.op.Call? && !Forbidden(inst.op)
    ensures Step(m1, args, inst, regs, w) == Step(m2, args, inst, regs, w)
  {
    hide Compute;
    SameOperands(m1, m2, inst.ops, regs);
  }

  lemma NestedFields(m: Machine, mod: Module, d: nat, f: nat, n: nat)
    ensures Nested(m, mod, d, f).addr == m.addr == Within(m, mod, n).addr
    ensures Nested(m, mod, d, f).load == m.load == Within(m, mod, n).load
  {}

  lemma FollowedTells(mod: Module, c: Course, args: seq<i64>, inst: Inst, p: Progress, s: Sure, before: Regs,
        after: Regs)
    requires Linked(c.m, Names(mod)) && !inst.op.Call? && !Forbidden(inst.op) && !p.Fail?
    requires Followed(mod, args, inst, p, s, 0, before, after)
    ensures Tells(p, s, Step(On(mod, c), args, inst, before, c.w), c.w)
  {
    hide Linked, Step;
    assert StepSays(mod, args, inst, before, s, 0);
    assert args <= args;
    assert Step(Within(c.m, mod, 0), args, inst, before, c.w) == AsStep(s, c.w);
    NestedFields(c.m, mod, c.d, c.f, 0);
    SameStepElsewhere(On(mod, c), Within(c.m, mod, 0), args, inst, before, c.w);
  }

  /** An instruction that calls nothing and fails only if it is stuck. */
  lemma FollowsUnlessStuck(mod: Module, c: Course, args: seq<i64>, inst: Inst, p: Progress, s: Sure, before: Regs,
        after: Regs, depth: nat, steps: nat)
    requires !inst.op.Call? && !Forbidden(inst.op) && Followed(mod, args, inst, p, s, 0, before, after)
    requires p.Fail? ==> Stuck(args, inst, before)
    requires StepOnCourse(mod, c, inst, args, before, depth, steps)
    ensures TellsCounted(mod, c, inst, args, before, p, s, steps, steps + 1)
  {
    hide Linked, Step, Followed, Stuck;
    if p.Fail? {
      StuckIsOff(mod, c, args, inst, before, depth, steps);
    } else {
      FollowedTells(mod, c, args, inst, p, s, before, after);
    }
  }

  /** A trap is no answer. */
  lemma TrapIsOff(mod: Module, c: Course, args: seq<i64>, inst: Inst, regs: Regs, depth: nat, steps: nat)
    requires inst.op.Trap?
    ensures !StepOnCourse(mod, c, inst, args, regs, depth, steps)
  {
    hide Linked;
  }

  /** An instruction that is stuck does not proceed. */
  lemma StuckIsOff(mod: Module, c: Course, args: seq<i64>, inst: Inst, regs: Regs, depth: nat, steps: nat)
    requires Stuck(args, inst, regs)
    ensures !StepOnCourse(mod, c, inst, args, regs, depth, steps)
  {
    hide Step;
    assert Step(On(mod, c), args, inst, regs, c.w) == Finish(Fault);
  }

  /** Operands in the limits are of the kinds the evaluator admits. */
  lemma LimitsAdmit(inst: Inst)
    requires InLimits(inst) && ShapeOk(inst) && OperandsOk(inst)
    ensures (inst.op.IsArith() || inst.op.IsCompare()) ==>
      Admits(inst.ops[0], true, true) && Admits(inst.ops[1], true, true)
    ensures inst.op.Cast? ==> Admits(inst.ops[0], true, true)
    ensures inst.op.Select? ==> SelectAdmits(inst, true, true)
    ensures inst.op.Jmp? || inst.op.Br? || inst.op.Switch? ==> JumpAdmits(inst, true, true)
    ensures inst.op.Ret? ==> ReturnAdmits(inst, true)
    ensures inst.op.Call? ==> forall k | 1 <= k < |inst.ops| :: Admits(inst.ops[k], true, true)
  {
    if |inst.ops| > 0 { assert OperandInLimits(inst, 0); }
    if |inst.ops| > 1 { assert OperandInLimits(inst, 1); }
    if |inst.ops| > 2 { assert OperandInLimits(inst, 2); }
    forall k | 1 <= k < |inst.ops| && inst.op.Call?
      ensures Admits(inst.ops[k], true, true)
    {
      assert OperandInLimits(inst, k);
    }
  }

  // ---------------------------------------------------------------------------------------------
  // Blocks

  /** The run has done `k` instructions of the block and `taken` steps for them. */
  ghost predicate InCourse(mod: Module, c: Course, args: seq<i64>, insts: seq<Inst>, regs0: Regs, k: nat, regs: Regs,
        taken: nat)
    requires k <= |insts|
  {
    && RunBlock(On(mod, c), args, insts, regs0, c.w) == RunBlock(On(mod, c), args, insts[k..], regs, c.w)
    && StepsBlock(c.m, mod, c.d, c.f, args, insts, regs0, c.w) ==
      taken + StepsBlock(c.m, mod, c.d, c.f, args, insts[k..], regs, c.w)
  }

  lemma CourseStarts(mod: Module, c: Course, args: seq<i64>, insts: seq<Inst>, regs: Regs)
    ensures InCourse(mod, c, args, insts, regs, 0, regs, 0)
  {
    assert insts[0..] == insts;
  }

  lemma CourseNext(mod: Module, c: Course, args: seq<i64>, insts: seq<Inst>, regs0: Regs, k: nat, regs: Regs,
        taken: nat, v: i64)
    requires k < |insts| && InCourse(mod, c, args, insts, regs0, k, regs, taken)
    requires Step(On(mod, c), args, insts[k], regs, c.w) == Next(v, c.w)
    ensures InCourse(mod, c, args, insts, regs0, k + 1, Write(regs, insts[k].dest, v),
      taken + StepsInst(c.m, mod, c.d, c.f, insts[k], regs, c.w))
  {
    hide Step, StepsInst, Write, Nested;
    assert insts[k..][0] == insts[k] && insts[k..][1..] == insts[k + 1..];
  }

  /** The next instruction of a block that goes on is on course. */
  lemma NextOnCourse(mod: Module, c: Course, args: seq<i64>, insts: seq<Inst>, regs0: Regs, k: nat, regs: Regs,
        taken: nat, depth: nat, steps: nat)
    requires k < |insts| && InCourse(mod, c, args, insts, regs0, k, regs, taken) && Linked(c.m, Names(mod))
    requires BlockProceeds(RunBlock(On(mod, c), args, insts, regs0, c.w))
    requires InReach(depth + c.d, steps + StepsBlock(c.m, mod, c.d, c.f, args, insts, regs0, c.w))
    ensures StepOnCourse(mod, c, insts[k], args, regs, depth, steps + taken)
  {
    hide Step, StepsInst, Write, Nested, Linked;
    assert insts[k..][0] == insts[k];
  }

  /** A block that has run out of instructions does not go on. */
  lemma EndIsOff(mod: Module, c: Course, args: seq<i64>, insts: seq<Inst>, regs0: Regs, regs: Regs, taken: nat)
    requires InCourse(mod, c, args, insts, regs0, |insts|, regs, taken)
    ensures !BlockProceeds(RunBlock(On(mod, c), args, insts, regs0, c.w))
  {
    hide Nested;
    assert insts[|insts|..] == [];
  }

  /** How a block ends once its next instruction leaves it. */
  lemma CourseLeaves(mod: Module, c: Course, args: seq<i64>, insts: seq<Inst>, regs0: Regs, k: nat, regs: Regs,
        taken: nat, r: StepResult)
    requires k < |insts| && InCourse(mod, c, args, insts, regs0, k, regs, taken)
    requires Step(On(mod, c), args, insts[k], regs, c.w) == r && !r.Next?
    ensures r.Jump? ==> RunBlock(On(mod, c), args, insts, regs0, c.w) == Goto(r.id, regs, c.w)
    ensures r.Finish? ==> RunBlock(On(mod, c), args, insts, regs0, c.w) == End(r.o)
    ensures StepsBlock(c.m, mod, c.d, c.f, args, insts, regs0, c.w) ==
      taken + StepsInst(c.m, mod, c.d, c.f, insts[k], regs, c.w)
  {
    hide Step, StepsInst, Write, Nested;
    assert insts[k..][0] == insts[k];
  }

  /** A run on course enters its block, which goes on. */
  lemma EntersOnCourse(mod: Module, c: Course, code: Func, args: seq<i64>, b: nat, regs: Regs, n: nat, depth: nat,
        steps: nat)
    requires OnCourse(mod, c, code, args, b, regs, n, depth, steps)
    ensures n > 0 && b in code.body && BlockProceeds(RunBlock(On(mod, c), args, code.body[b], regs, c.w))
    ensures InReach(depth + c.d, steps + StepsBlock(c.m, mod, c.d, c.f, args, code.body[b], regs, c.w))
    ensures Linked(c.m, Names(mod))
  {
    hide Linked, RunBlock, StepsBlock, Nested;
  }

  /** The rest of the run from block `b` is the rest of the run from block `b0`, with the steps in between taken. */
  ghost predicate Ahead(mod: Module, c: Course, code: Func, args: seq<i64>, b0: nat, regs0: Regs, n0: nat, steps0: nat,
        b: nat, regs: Regs, n: nat, steps: nat) {
    && Run(On(mod, c), code, args, b, regs, c.w, n) == Run(On(mod, c), code, args, b0, regs0, c.w, n0)
    && steps + StepsRun(c.m, mod, c.d, c.f, code, args, b, regs, c.w, n) ==
      steps0 + StepsRun(c.m, mod, c.d, c.f, code, args, b0, regs0, c.w, n0)
  }

  /** The run from block `b` returns `r`, and `steps'` are the steps at its end. */
  ghost predicate Ends(mod: Module, c: Course, code: Func, args: seq<i64>, b: nat, regs: Regs, n: nat, steps: nat,
        r: i64, steps': nat) {
    && Run(On(mod, c), code, args, b, regs, c.w, n) == Returned(r, c.w)
    && steps' == steps + StepsRun(c.m, mod, c.d, c.f, code, args, b, regs, c.w, n)
  }

  /** Where a run on course is behind a block, told from what the evaluator reports of it. */
  ghost predicate Behind(mod: Module, c: Course, code: Func, args: seq<i64>, b: nat, regs: Regs, n: nat, depth: nat,
        steps: nat, p: Progress, regs': Regs, steps': nat) {
    match p
    case Went(b') =>
      && n > 0 && OnCourse(mod, c, code, args, b', regs', n - 1, depth, steps')
      && Ahead(mod, c, code, args, b, regs, n, steps, b', regs', n - 1, steps')
    case Finished(r) => Ends(mod, c, code, args, b, regs, n, steps, r, steps')
    case _ => false
  }

  lemma BehindBlock(mod: Module, c: Course, code: Func, args: seq<i64>, b: nat, regs0: Regs, n: nat, depth: nat,
        steps: nat, k: nat, regs: Regs, taken: nat, p: Progress, s: Sure)
    requires OnCourse(mod, c, code, args, b, regs0, n, depth, steps) && b in code.body && k < |code.body[b]|
    requires InCourse(mod, c, args, code.body[b], regs0, k, regs, taken)
    requires Tells(p, s, Step(On(mod, c), args, code.body[b][k], regs, c.w), c.w) && !p.Wrote?
    ensures Behind(mod, c, code, args, b, regs0, n, depth, steps, p, regs,
      steps + taken + StepsInst(c.m, mod, c.d, c.f, code.body[b][k], regs, c.w))
  {
    hide Linked, RunBlock, StepsBlock, StepsInst, Step, Nested, InCourse;
    EntersOnCourse(mod, c, code, args, b, regs0, n, depth, steps);
    CourseLeaves(mod, c, args, code.body[b], regs0, k, regs, taken, Step(On(mod, c), args, code.body[b][k], regs, c.w));
  }

  /** What the next instruction of a run on course may count on. */
  lemma NextIsReady(mod: Module, c: Course, p: set<nat>, i: nat, args: seq<i64>, b: nat, regs0: Regs, n: nat,
        depth: nat, steps: nat, k: nat, regs: Regs, taken: nat)
    requires Enabled(mod, p) && i in p && i < |mod| && b in mod[i].code.body && k < |mod[i].code.body[b]|
    requires OnCourse(mod, c, mod[i].code, args, b, regs0, n, depth, steps)
    requires InCourse(mod, c, args, mod[i].code.body[b], regs0, k, regs, taken)
    ensures Ready(mod, p, mod[i].code.body[b][k]) && InReach(depth, steps + taken + 1)
    ensures StepOnCourse(mod, c, mod[i].code.body[b][k], args, regs, depth, steps + taken)
  {
    hide Linked, Enabled, Ready, OnCourse, InCourse, Step, StepsInst, StepsBlock, RunBlock, Nested;
    CodeIsReady(mod, p, i, b, k);
    EntersOnCourse(mod, c, mod[i].code, args, b, regs0, n, depth, steps);
    NextOnCourse(mod, c, args, mod[i].code.body[b], regs0, k, regs, taken, depth, steps);
    TakesAStep(c.m, mod, c.d, c.f, mod[i].code.body[b][k], regs, c.w);
  }

  /** What a told instruction makes of its block. */
  lemma BlockToldBy(mod: Module, c: Course, code: Func, args: seq<i64>, b: nat, regs0: Regs, n: nat, depth: nat,
        steps: nat, k: nat, regs: Regs, taken: nat, p: Progress, s: Sure, steps': nat)
    requires OnCourse(mod, c, code, args, b, regs0, n, depth, steps) && b in code.body && k < |code.body[b]|
    requires InCourse(mod, c, args, code.body[b], regs0, k, regs, taken)
    requires TellsCounted(mod, c, code.body[b][k], args, regs, p, s, steps + taken, steps')
    ensures !p.Fail? && steps' >= steps
    ensures p.Wrote? ==> s.Gives?
    ensures p.Wrote? ==>
      InCourse(mod, c, args, code.body[b], regs0, k + 1, Write(regs, code.body[b][k].dest, s.v), steps' - steps)
    ensures !p.Wrote? ==> Behind(mod, c, code, args, b, regs0, n, depth, steps, p, regs, steps')
  {
    hide OnCourse, InCourse, Step, StepsInst, Nested, Behind, Write;
    if p.Wrote? {
      CourseNext(mod, c, args, code.body[b], regs0, k, regs, taken, s.v);
    } else {
      BehindBlock(mod, c, code, args, b, regs0, n, depth, steps, k, regs, taken, p, s);
    }
  }

  /** A block without a terminator is never on course. */
  lemma RunsOut(mod: Module, c: Course, code: Func, args: seq<i64>, b: nat, regs0: Regs, n: nat, depth: nat, steps: nat,
        regs: Regs, taken: nat)
    requires b in code.body && InCourse(mod, c, args, code.body[b], regs0, |code.body[b]|, regs, taken)
    ensures !OnCourse(mod, c, code, args, b, regs0, n, depth, steps)
  {
    hide OnCourse, InCourse, RunBlock, StepsBlock, Nested;
    EndIsOff(mod, c, args, code.body[b], regs0, regs, taken);
    if OnCourse(mod, c, code, args, b, regs0, n, depth, steps) {
      EntersOnCourse(mod, c, code, args, b, regs0, n, depth, steps);
    }
  }

  // ---------------------------------------------------------------------------------------------
  // Calls

  /** A run from the start of a function's code. */
  lemma CallOnCourse(mod: Module, c: Course, g: Decl, args: seq<i64>, depth: nat, steps: nat)
    requires Affordable(mod, c, g, args, depth, steps) && g.code.order != []
    requires g.fast.Some? ==> args != [] && !Taken(g.fast.value.jcc, args[0], g.fast.value.imm)
    ensures OnCourse(mod, c, g.code, args, g.code.order[0], map[], c.f, depth, steps)
    ensures NestedRun(c.m, mod, c.d, c.f, g, args, c.w) ==
      Run(On(mod, c), g.code, args, g.code.order[0], map[], c.w, c.f)
    ensures Steps(c.m, mod, c.d, c.f, g, args, c.w) ==
      StepsRun(c.m, mod, c.d, c.f, g.code, args, g.code.order[0], map[], c.w, c.f)
  {
    hide Linked, Nested, Run, StepsRun;
  }

  /** A call on course: its operands are numbers and its callee can afford the rest. */
  lemma {:induction false} CalleeAffords(mod: Module, c: Course, inst: Inst, args: seq<i64>, regs: Regs, g: Decl,
        xs: seq<i64>, depth: nat, steps: nat)
    requires inst.op.Call? && inst.ops != [] && inst.ops[0] == Global(g.name) && Lookup(mod, g.name) == Some(g)
    requires ReadAll(inst.ops[1..], regs, xs) && StepOnCourse(mod, c, inst, args, regs, depth, steps)
    ensures c.d > 0 && Affordable(mod, c.(d := c.d - 1), g, xs, depth + 1, steps + 1)
    ensures StepsInst(c.m, mod, c.d, c.f, inst, regs, c.w) == 1 + Steps(c.m, mod, c.d - 1, c.f, g, xs, c.w)
    ensures var o := NestedRun(c.m, mod, c.d - 1, c.f, g, xs, c.w);
      o.Returned? && Step(On(mod, c), args, inst, regs, c.w) == Next(o.v, o.w)
  {
    hide Linked, Lookup, Enter, Steps;
    var full := [Int(c.m.addr(g.name))] + IntArgs(xs);
    CallArgs(c.m, inst.ops, regs, g.name, xs);
    NestedFields(c.m, mod, c.d, c.f, 0);
    SameOperands(On(mod, c), c.m, inst.ops, regs);
    CallReachesSymbol(c.m, mod, g.name);
    assert AllInts(full) && Ints(full[1..]) == xs;
    NestedEffect(c.m, mod, c.d, c.f, Call, full, c.w);
    NestedUnfolds(c.m, mod, c.d, c.f, full, c.w, g);
  }

  /** One level deeper. */
  function Inner(c: Course): Course { c.(d := if c.d == 0 then 0 else c.d - 1) }

  /** What a call needs to be followed is there. */
  lemma CallIsReady(mod: Module, p: set<nat>, inst: Inst)
    requires inst.op.Call? && OperandsOk(inst) && ShapeOk(inst)
    ensures Ready(mod, p, inst) ==> inst.ops[0].Global?
    ensures Ready(mod, p, inst) ==>
      IndexOf(mod, inst.ops[0].name).Some? && IndexOf(mod, inst.ops[0].name).value in p
    ensures Ready(mod, p, inst) ==> |inst.ops| - 1 <= 16 && (inst.dest.Some? ==> inst.dest.value < 256)
    ensures Ready(mod, p, inst) ==> Enabled(mod, p) && forall k | 1 <= k < |inst.ops| :: Admits(inst.ops[k], true, true)
  {
    hide Enabled, Admits, OperandInLimits;
    if Ready(mod, p, inst) { LimitsAdmit(inst); }
  }

  /** A call on course and what its callee may use. */
  lemma {:induction false} CallGoesDeeper(mod: Module, c: Course, inst: Inst, args: seq<i64>, regs: Regs, j: nat,
        xs: seq<i64>, depth: nat, steps: nat)
    requires inst.op.Call? && inst.ops != [] && inst.ops[0].Global? && IndexOf(mod, inst.ops[0].name) == Some(j)
    requires ReadAll(inst.ops[1..], regs, xs)
    ensures StepOnCourse(mod, c, inst, args, regs, depth, steps) ==>
      Affordable(mod, Inner(c), mod[j], xs, depth + 1, steps + 1)
  {
    hide StepOnCourse, ReadAll, Affordable;
    IndexIsLookup(mod, inst.ops[0].name);
    if StepOnCourse(mod, c, inst, args, regs, depth, steps) {
      CalleeAffords(mod, c, inst, args, regs, mod[j], xs, depth, steps);
    }
  }

  /** The callee's answer tells what the call does. */
  lemma {:induction false} CallTells(mod: Module, c: Course, inst: Inst, args: seq<i64>, regs: Regs, j: nat,
        xs: seq<i64>, r: Option<i64>, depth: nat, steps: nat, steps': nat)
    requires inst.op.Call? && inst.ops != [] && inst.ops[0].Global? && IndexOf(mod, inst.ops[0].name) == Some(j)
    requires ReadAll(inst.ops[1..], regs, xs) && StepOnCourse(mod, c, inst, args, regs, depth, steps)
    requires Answered(mod, Inner(c), mod[j], xs, steps + 1, r, steps')
    ensures r.Some? && TellsCounted(mod, c, inst, args, regs, Wrote, Gives(r.value), steps, steps')
  {
    hide StepOnCourse, ReadAll, Affordable, Step, StepsInst, Steps, NestedRun;
    IndexIsLookup(mod, inst.ops[0].name);
    CalleeAffords(mod, c, inst, args, regs, mod[j], xs, depth, steps);
  }

  /** A call with an operand that has not been written is not on course. */
  lemma UnwrittenArgument(mod: Module, c: Course, inst: Inst, args: seq<i64>, regs: Regs, k: nat, depth: nat,
        steps: nat)
    requires k < |inst.ops| && inst.ops[k].VReg? && inst.ops[k].r !in regs
    ensures !StepOnCourse(mod, c, inst, args, regs, depth, steps)
  {
    hide StepOnCourse;
    UnwrittenIsStuck(args, inst, regs, k);
    StuckIsOff(mod, c, args, inst, regs, depth, steps);
  }
}
