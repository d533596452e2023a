/** The compile-time virtual machine: it runs pure functions on constant arguments, limited by a depth
    and a budget of steps that all nested activations share. */
module VmExecutes {
  import opened Sir
  import opened SirModules
  import opened Evaluate
  import opened Interpret
  import opened ModulePass
  import opened Purity
  import opened Assigned
  import opened Ssa
  import opened Nesting
  import opened Courses
  import T = TryEvaluate

  const MAX_DEPTH := 20000
  const BUDGET := 10_000_000_000
  const VREGS := 256
  const MAX_ARGS := 16

  /** Every parameter the code fetches is among the first `n`. */
  predicate NeedsParams(f: Func, n: nat) {
    forall b, k | b in f.body && 0 <= k < |f.body[b]| :: ParamBelow(f.body[b][k], n)
  }

  predicate ParamBelow(inst: Inst, n: nat) {
    inst.op.GetParam? && inst.ops != [] && inst.ops[0].ConstInt? ==> inst.ops[0].i < n
  }

  predicate Accepts(d: Decl, n: nat) { NeedsParams(d.code, n) && (d.fast.Some? ==> n > 0) }

  /** Calls by name pass as many arguments as the callee fetches; the type checker sees to that. */
  predicate CallMatches(mod: Module, inst: Inst) {
    inst.op.Call? && inst.ops != [] && inst.ops[0].Global? && IndexOf(mod, inst.ops[0].name).Some? ==>
      Accepts(mod[IndexOf(mod, inst.ops[0].name).value], |inst.ops| - 1)
  }

  /** What the machine takes for granted of a module: no function reads a register that the machine does not have
      before writing it, which fails. */
  ghost predicate VmOk(mod: Module) {
    && ModuleOk(mod)
    && forall i: nat | i < |mod| :: IsAssigned(mod[i].code, VREGS) && CallsMatch(mod, mod[i].code)
  }

  ghost predicate CallsMatch(mod: Module, f: Func) {
    forall b, k | b in f.body && 0 <= k < |f.body[b]| :: CallMatches(mod, f.body[b][k])
  }

  function Left(steps: nat): nat { if steps > BUDGET then 0 else BUDGET + 1 - steps }

  /** Runs function `i` on `args`.  It always comes back, and an answer is what every run of the function on
      those arguments returns, with the world unchanged.  When the flagged functions are closed under calls and fit
      the machine, it answers every call whose run `c` it can afford, in exactly the steps of that run. */
  method VmExecute(mod: Module, pure: array<bool>, i: nat, args: seq<i64>, depth: nat, steps: nat, ghost c: Course)
    returns (res: Option<i64>, steps': nat, ghost need: nat)
    requires VmOk(mod) && pure.Length == |mod| && i < |mod| && Accepts(mod[i], |args|)
    ensures steps' >= steps
    ensures res.Some? ==> depth <= 20000 && steps' <= 10_000_000_000 && AnswersBy(mod, mod[i], args, res.value, need)
    ensures Enabled(mod, Flagged(pure)) && pure[i] && Affordable(mod, c, mod[i], args, depth, steps) ==>
      Answered(mod, c, mod[i], args, steps, res, steps')
    decreases Left(steps), 5
  {
    hide AnswersBy, IsAssigned, Assigns, Enabled, Linked, Run, OnCourse, StepsRun;
    res, steps', need := None, steps, 0;
    if depth > MAX_DEPTH || steps > BUDGET { return; }
    var func := mod[i];
    if func.fast.Some? && Taken(func.fast.value.jcc, args[0], func.fast.value.imm) {
      FastAnswer(mod, func, args);
      return Some(args[0]), steps, 0;
    }
    FunctionFits(mod, i);
    var vals := new i64[VREGS](_ => 0);
    var valid := new bool[VREGS](_ => false);
    assert RegsOf(vals, valid) == map[];
    StartAtEntry(mod, func, args);
    ghost var a := GuaranteeOf(func.code);
    ghost var p := Flagged(pure);
    res, steps', need := VmLoop(mod, pure, i, args, depth, steps, vals, valid, a, c);
    assert Flagged(pure) == p;
    if Affordable(mod, c, func, args, depth, steps) { CallOnCourse(mod, c, func, args, depth, steps); }
  }

  lemma GuaranteeOf(f: Func) returns (a: Guarantee)
    requires IsAssigned(f, VREGS)
    ensures Assigns(a, f, VREGS) && f.order != [] && Covered(a, f.order[0], map[])
  {
    hide BlockAssigns;
    a :| Assigns(a, f, VREGS);
  }

  /** What has to be written when block `b` is entered has been. */
  ghost predicate Covered(a: Guarantee, b: nat, regs: Regs) {
    b in a.live && b in a.entry && a.entry[b] <= regs.Keys
  }

  lemma FunctionFits(mod: Module, i: nat)
    requires VmOk(mod) && i < |mod|
    ensures CodeOk(mod[i].code) && IsAssigned(mod[i].code, VREGS) && CallsMatch(mod, mod[i].code)
    ensures mod[i].code.order != [] && mod[i].code.order[0] in mod[i].code.body
  {
    hide IsAssigned, CallsMatch;
    FunctionOk(mod, i);
    T.EntryListed(mod[i].code);
  }

  /** One block after another; every block but an empty one uses up steps. */
  method VmLoop(mod: Module, pure: array<bool>, i: nat, args: seq<i64>, depth: nat, steps: nat, vals: array<i64>,
        valid: array<bool>, ghost a: Guarantee, ghost c: Course)
    returns (res: Option<i64>, steps': nat, ghost need: nat)
    requires VmOk(mod) && pure.Length == |mod| && i < |mod| && Accepts(mod[i], |args|) && pure != valid
    requires vals.Length == valid.Length == VREGS && steps <= BUDGET && mod[i].code.order != []
    requires Assigns(a, mod[i].code, VREGS) && Covered(a, mod[i].code.order[0], RegsOf(vals, valid))
    requires AtBlock(mod, mod[i], args, mod[i].code.order[0], RegsOf(vals, valid), 0, 0)
    modifies vals, valid
    ensures steps' >= steps
    ensures res.Some? ==> steps' <= BUDGET && AnswersBy(mod, mod[i], args, res.value, need)
    ensures var (code, regs) := (mod[i].code, old(RegsOf(vals, valid)));
      && Enabled(mod, Flagged(pure)) && pure[i]
      && OnCourse(mod, c, code, args, code.order[0], regs, c.f, depth, steps) ==>
        res.Some? && Ends(mod, c, code, args, code.order[0], regs, c.f, steps, res.value, steps')
    decreases Left(steps), 4
  {
    hide AtBlock, AnswersBy, VmOk, Accepts, Assigns, Covered, Enabled, OnCourse, Run, StepsRun, RegsOf, Nested;
    FunctionFits(mod, i);
    res, steps', need := None, steps, 0;
    var pc := mod[i].code.order[0];
    ghost var s := 0;
    ghost var n, code, regs := c.f, mod[i].code, RegsOf(vals, valid);
    ghost var good := Enabled(mod, Flagged(pure)) && pure[i] && OnCourse(mod, c, code, args, pc, regs, n, depth, steps);
    while true
      invariant steps <= steps' <= BUDGET && pc in mod[i].code.body
      invariant AtBlock(mod, mod[i], args, pc, RegsOf(vals, valid), s, need) && Covered(a, pc, RegsOf(vals, valid))
      invariant good ==> Enabled(mod, Flagged(pure)) && pure[i]
      invariant good ==> OnCourse(mod, c, code, args, pc, RegsOf(vals, valid), n, depth, steps')
      invariant good ==>
        Ahead(mod, c, code, args, code.order[0], regs, c.f, steps, pc, RegsOf(vals, valid), n, steps')
      decreases BUDGET - steps'
    {
      var p, now, need' := VmBlock(mod, pure, i, args, pc, depth, steps', vals, valid, a, s, need, c, n);
      steps' := now;
      match p {
        case Went(next) =>
          need, s, pc := need', s + 1, next;
          n := if good then n - 1 else n;
        case Finished(r) => return Some(r), steps', need';
        case _ => return None, steps', need';
      }
    }
  }

  /** The instructions of one block. */
  method VmBlock(mod: Module, pure: array<bool>, i: nat, args: seq<i64>, pc: nat, depth: nat, steps: nat,
        vals: array<i64>, valid: array<bool>, ghost a: Guarantee, ghost s: nat, ghost need0: nat, ghost c: Course,
        ghost n: nat)
    returns (p: Progress, steps': nat, ghost need: nat)
    requires VmOk(mod) && pure.Length == |mod| && i < |mod| && Accepts(mod[i], |args|) && pc in mod[i].code.body
    requires vals.Length == valid.Length == VREGS && steps <= BUDGET && pure != valid
    requires AtBlock(mod, mod[i], args, pc, RegsOf(vals, valid), s, need0)
    requires Assigns(a, mod[i].code, VREGS) && Covered(a, pc, RegsOf(vals, valid))
    modifies vals, valid
    ensures steps' >= steps
    ensures p.Went? ==> steps < steps' <= BUDGET && p.b in mod[i].code.body && Covered(a, p.b, RegsOf(vals, valid))
    ensures p.Went? ==> AtBlock(mod, mod[i], args, p.b, RegsOf(vals, valid), s + 1, need)
    ensures p.Finished? ==> steps' <= BUDGET && AnswersBy(mod, mod[i], args, p.r, need)
    ensures var regs0 := old(RegsOf(vals, valid));
      Enabled(mod, Flagged(pure)) && pure[i] && OnCourse(mod, c, mod[i].code, args, pc, regs0, n, depth, steps) ==>
        Behind(mod, c, mod[i].code, args, pc, regs0, n, depth, steps, p, RegsOf(vals, valid), steps')
    decreases Left(steps), 3
  {
    hide AtBlock, AnswersBy, VmOk, Accepts, InBlock, IsAssigned, CallsMatch, Assigns, WrittenFits, Covered, Enabled,
      OnCourse, Behind, InCourse, StepOnCourse, TellsCounted, Ready;
    FunctionFits(mod, i);
    var insts := mod[i].code.body[pc];
    ghost var regs0, need1 := RegsOf(vals, valid), 0;
    T.BlockStarts(mod, mod[i], args, pc, regs0);
    p, steps', need := Fail, steps, 0;
    assert insts[0..] == insts;
    EntersBlock(a, pc, insts, vals, valid);
    ghost var code := mod[i].code;
    ghost var good := Enabled(mod, Flagged(pure)) && pure[i] &&
      OnCourse(mod, c, code, args, pc, regs0, n, depth, steps);
    CourseStarts(mod, c, args, insts, regs0);
    for k := 0 to |insts|
      invariant steps + k <= steps' <= BUDGET
      invariant good ==> Enabled(mod, Flagged(pure)) && pure[i]
      invariant good ==> InCourse(mod, c, args, insts, regs0, k, RegsOf(vals, valid), steps' - steps)
      invariant InBlock(mod, mod[i], args, pc, regs0, insts[k..], RegsOf(vals, valid), need1)
      invariant WrittenFits(a, pc, insts, k, RegsOf(vals, valid))
    {
      ghost var regs, taken := RegsOf(vals, valid), steps' - steps;
      if good { NextIsReady(mod, c, Flagged(pure), i, args, pc, regs0, n, depth, steps, k, regs, taken); }
      steps' := steps' + 1;
      if steps' > BUDGET { return Fail, steps', 0; }
      InstFitsVm(mod, i, |args|, pc, k, a, RegsOf(vals, valid));
      ghost var sure, need2;
      assert insts[k..][0] == insts[k] && insts[k..][1..] == insts[k + 1..];
      p, steps', sure, need2 := VmInst(mod, pure, args, insts[k], depth, steps', vals, valid, c);
      if good { BlockToldBy(mod, c, code, args, pc, regs0, n, depth, steps, k, regs, taken, p, sure, steps'); }
      match p {
        case Wrote =>
          BlockNext(mod, mod[i], args, pc, regs0, insts[k..], regs, need1, sure.v, need2);
          need1 := Max(need1, need2);
          assert forall r | r in RegsOf(vals, valid) :: r < VREGS;
          WrittenToo(a, pc, insts, k, regs, sure.v);
        case Fail => return;
        case Went(b) =>
          LeftCovered(mod[i].code, a, pc, k, b, regs);
          BlockLeaves(mod, mod[i], args, pc, regs0, s, need0, insts[k..], regs, need1, sure, need2);
          need := Max(Max(need0, need1), Max(need2, s + 1));
          T.TargetInside(mod[i].code, pc, k, b);
          return;
        case Finished(r) =>
          BlockLeaves(mod, mod[i], args, pc, regs0, s, need0, insts[k..], regs, need1, sure, need2);
          need := Max(Max(need0, need1), Max(need2, s + 1));
          return;
      }
    }
    p := Fail;
    if good { RunsOut(mod, c, code, args, pc, regs0, n, depth, steps, RegsOf(vals, valid), steps' - steps); }
  }

  /** Everything written so far is in registers of the machine. */
  ghost predicate WrittenFits(a: Guarantee, b: nat, insts: seq<Inst>, k: nat, regs: Regs)
    requires k <= |insts|
  {
    && b in a.live && b in a.entry && a.entry[b] + Dests(insts[..k]) <= regs.Keys && forall r | r in regs :: r < VREGS
  }

  lemma EntersBlock(a: Guarantee, b: nat, insts: seq<Inst>, vals: array<i64>, valid: array<bool>)
    requires vals.Length == valid.Length == VREGS && Covered(a, b, RegsOf(vals, valid))
    ensures WrittenFits(a, b, insts, 0, RegsOf(vals, valid))
  {
    assert Dests(insts[..0]) == {};
  }

  lemma WrittenToo(a: Guarantee, b: nat, insts: seq<Inst>, k: nat, regs: Regs, v: i64)
    requires k < |insts| && WrittenFits(a, b, insts, k, regs)
    requires forall r | r in Write(regs, insts[k].dest, v) :: r < VREGS
    ensures WrittenFits(a, b, insts, k + 1, Write(regs, insts[k].dest, v))
  {
    hide Dests;
    DestsStep(insts, k);
  }

  lemma LeftCovered(f: Func, a: Guarantee, b: nat, k: nat, s: nat, regs: Regs)
    requires CodeOk(f) && Assigns(a, f, VREGS) && b in f.body && k < |f.body[b]| &&
      WrittenFits(a, b, f.body[b], k, regs)
    requires f.body[b][k].op.IsTerminator() && s in Targets(f.body[b][k])
    ensures Covered(a, s, regs)
  {
    hide ReadsAssigned, Targets, Dests, OperandsOk;
    assert BlockOk(f.body[b]) && ShapeOk(f.body[b][k]);
    assert k == |f.body[b]| - 1 && f.body[b][..k + 1] == f.body[b];
    DestsStep(f.body[b], k);
    assert BlockAssigns(a, f, b, VREGS);
  }

  lemma InstFitsVm(mod: Module, i: nat, n: nat, b: nat, k: nat, a: Guarantee, regs: Regs)
    requires VmOk(mod) && i < |mod| && Accepts(mod[i], n) && b in mod[i].code.body && k < |mod[i].code.body[b]|
    requires Assigns(a, mod[i].code, VREGS) && WrittenFits(a, b, mod[i].code.body[b], k, regs)
    ensures var inst := mod[i].code.body[b][k];
      OpsFit(inst, VREGS) && ShapeOk(inst) && OperandsOk(inst) && CallMatches(mod, inst) && ParamBelow(inst, n)
  {
    hide VmOk, CallMatches, ShapeOk, OperandsOk, OpsFit, IsAssigned, Assigns, WrittenFits;
    FunctionFits(mod, i);
    OpsAreWritten(mod[i].code, a, b, k, regs);
  }

  lemma OpsAreWritten(f: Func, a: Guarantee, b: nat, k: nat, regs: Regs)
    requires Assigns(a, f, VREGS) && b in f.body && k < |f.body[b]| && WrittenFits(a, b, f.body[b], k, regs)
    ensures OpsFit(f.body[b][k], VREGS)
  {
    hide Successors, Dests;
    assert BlockAssigns(a, f, b, VREGS);
    forall j | 0 <= j < |f.body[b][k].ops| && f.body[b][k].ops[j].VReg?
      ensures f.body[b][k].ops[j].r < VREGS
    {
      assert VReg(f.body[b][k].ops[j].r) in f.body[b][k].ops;
    }
  }

  /** One instruction. */
  method VmInst(mod: Module, pure: array<bool>, args: seq<i64>, inst: Inst, depth: nat, steps: nat, vals: array<i64>,
        valid: array<bool>, ghost c: Course)
    returns (p: Progress, steps': nat, ghost s: Sure, ghost need: nat)
    requires VmOk(mod) && pure.Length == |mod| && vals.Length == valid.Length == VREGS && 0 < steps <= BUDGET
    requires pure != valid
    requires OpsFit(inst, VREGS) && ShapeOk(inst) && OperandsOk(inst) && CallMatches(mod, inst)
    requires ParamBelow(inst, |args|)
    modifies vals, valid
    ensures steps' >= steps && (!p.Fail? ==> steps' <= BUDGET)
    ensures p.Wrote? && inst.dest.Some? ==> inst.dest.value < 256
    ensures Followed(mod, args, inst, p, s, need, old(RegsOf(vals, valid)), RegsOf(vals, valid))
    ensures var before := old(RegsOf(vals, valid));
      Ready(mod, Flagged(pure), inst) && StepOnCourse(mod, c, inst, args, before, depth, steps - 1) ==>
        TellsCounted(mod, c, inst, args, before, p, s, steps - 1, steps')
    decreases Left(steps), 7
  {
    hide Followed, VmOk, ShapeOk, OpsFit, CallMatches, Enabled, StepOnCourse, TellsCounted, Stuck;
    p, steps', s, need := Fail, steps, Gives(0), 0;
    ghost var regs := RegsOf(vals, valid);
    ghost var good := Ready(mod, Flagged(pure), inst) && StepOnCourse(mod, c, inst, args, regs, depth, steps - 1);
    if good { LimitsAdmit(inst); }
    if inst.op.Call? {
      p, steps', s, need := VmCall(mod, pure, args, inst, depth, steps, vals, valid, c);
    } else if inst.dest.Some? && inst.dest.value >= VREGS {
      T.Failed(mod, args, inst, s, RegsOf(vals, valid));
    } else if inst.op.GetParam? {
      p, s := VmParam(mod, args, inst, vals, valid);
    } else if inst.op.IsArith() || inst.op.IsCompare() {
      p, s := InterpretBinary(mod, args, inst, vals, valid);
    } else if inst.op.Cast? {
      p, s := InterpretCast(mod, args, inst, vals, valid);
    } else if inst.op.Select? {
      p, s := InterpretSelect(mod, args, inst, true, true, vals, valid);
    } else if inst.op.Jmp? || inst.op.Br? || inst.op.Switch? {
      p, s := InterpretJump(mod, args, inst, true, true, vals, valid);
    } else if inst.op.Ret? {
      p, s := InterpretReturn(mod, args, inst, true, vals, valid);
    } else {
      T.Failed(mod, args, inst, s, RegsOf(vals, valid));
      if inst.op.Trap? { TrapIsOff(mod, c, args, inst, regs, depth, steps - 1); }
    }
    if good && !inst.op.Call? {
      FollowsUnlessStuck(mod, c, args, inst, p, s, regs, RegsOf(vals, valid), depth, steps - 1);
    }
  }

  method VmParam(mod: Module, args: seq<i64>, inst: Inst, vals: array<i64>, valid: array<bool>)
    returns (p: Progress, ghost s: Sure)
    requires inst.op.GetParam? && OperandsOk(inst) && ParamBelow(inst, |args|) && vals.Length == valid.Length
    requires RegsFit(inst, vals.Length)
    modifies vals, valid
    ensures Followed(mod, args, inst, p, s, 0, old(RegsOf(vals, valid)), RegsOf(vals, valid))
    ensures p.Wrote? || p.Fail?
    ensures ShapeOk(inst) ==> p.Wrote?
  {
    p, s := Fail, Gives(0);
    if inst.dest.Some? {
      var index := inst.ops[0].i;
      assert inst.ops == [ConstInt(index)];
      ParamDoes(args, inst, RegsOf(vals, valid), index);
      DoesSays(mod, args, inst, RegsOf(vals, valid), Gives(args[index]));
      SetReg(vals, valid, inst.dest.value, args[index]);
      p, s := Wrote, Gives(args[index]);
    }
  }

  /** Runs a pure callee on the values of the arguments. */
  method VmCall(mod: Module, pure: array<bool>, args: seq<i64>, inst: Inst, depth: nat, steps: nat, vals: array<i64>,
        valid: array<bool>, ghost c: Course)
    returns (p: Progress, steps': nat, ghost s: Sure, ghost need: nat)
    requires VmOk(mod) && pure.Length == |mod| && vals.Length == valid.Length == VREGS && 0 < steps <= BUDGET
    requires pure != valid
    requires inst.op.Call? && ShapeOk(inst) && OperandsOk(inst) && OpsFit(inst, VREGS) && CallMatches(mod, inst)
    modifies vals, valid
    ensures steps' >= steps && (p.Wrote? || p.Fail?) && (!p.Fail? ==> steps' <= BUDGET)
    ensures p.Wrote? ==> |inst.ops| <= 17 && (inst.dest.Some? ==> inst.dest.value < 256)
    ensures Followed(mod, args, inst, p, s, need, old(RegsOf(vals, valid)), RegsOf(vals, valid))
    ensures var before := old(RegsOf(vals, valid));
      Ready(mod, Flagged(pure), inst) && StepOnCourse(mod, c, inst, args, before, depth, steps - 1) ==>
        TellsCounted(mod, c, inst, args, before, p, s, steps - 1, steps')
    decreases Left(steps), 6
  {
    hide VmOk, Accepts, AnswersBy, StepSays, Ready, Enabled, StepOnCourse, Affordable, Answered, TellsCounted, ReadAll,
      Inner, ShapeOk, Unread, Admits, Followed, CallMatches, RegsOf;
    p, steps', s, need := Fail, steps, Gives(0), 0;
    ghost var before := RegsOf(vals, valid);
    T.Failed(mod, args, inst, s, before);
    CallIsReady(mod, Flagged(pure), inst);
    if !inst.ops[0].Global? { return; }
    var callee := FindFunction(mod, inst.ops[0].name);
    if callee.None? || !pure[callee.value] || |inst.ops| - 1 > MAX_ARGS { return; }
    var xs := VmArgs(inst, vals, valid);
    if xs.None? {
      UnreadArgument(mod, c, inst, args, before, depth, steps - 1);
      return;
    }
    CalleeTakes(mod, inst, callee.value, before, xs.value);
    CallGoesDeeper(mod, c, inst, args, before, callee.value, xs.value, depth, steps - 1);
    var r, now, need' := VmExecute(mod, pure, callee.value, xs.value, depth + 1, steps, Inner(c));
    steps' := now;
    if Ready(mod, Flagged(pure), inst) && StepOnCourse(mod, c, inst, args, before, depth, steps - 1) {
      CallTells(mod, c, inst, args, before, callee.value, xs.value, r, depth, steps - 1, steps');
    }
    if r.None? || (inst.dest.Some? && inst.dest.value >= VREGS) { return; }
    CallFollowed(mod, inst, args, callee.value, xs.value, r.value, need', before);
    if inst.dest.Some? { SetReg(vals, valid, inst.dest.value, r.value); }
    p, s, need := Wrote, Gives(r.value), need' + 1;
  }

  lemma CalleeTakes(mod: Module, inst: Inst, j: nat, regs: Regs, xs: seq<i64>)
    requires inst.op.Call? && inst.ops != [] && inst.ops[0].Global? && IndexOf(mod, inst.ops[0].name) == Some(j)
    requires CallMatches(mod, inst) && ReadAll(inst.ops[1..], regs, xs)
    ensures Accepts(mod[j], |xs|)
  {
    hide Accepts, IndexOf;
  }

  lemma CallFollowed(mod: Module, inst: Inst, args: seq<i64>, j: nat, xs: seq<i64>, r: i64, need: nat, before: Regs)
    requires inst.op.Call? && inst.ops != [] && inst.ops[0].Global? && IndexOf(mod, inst.ops[0].name) == Some(j)
    requires ReadAll(inst.ops[1..], before, xs) && AnswersBy(mod, mod[j], xs, r, need)
    ensures Followed(mod, args, inst, Wrote, Gives(r), need + 1, before, Write(before, inst.dest, r))
  {
    hide AnswersBy, StepSays, ReadAll;
    IndexIsLookup(mod, inst.ops[0].name);
    CallSays(mod, args, inst, before, mod[j], xs, r, need);
  }

  /** The operand is of another kind or has not been written. */
  predicate Unread(v: Value, regs: Regs) { !Admits(v, true, true) || (v.VReg? && v.r !in regs) }

  lemma UnreadArgument(mod: Module, c: Course, inst: Inst, args: seq<i64>, regs: Regs, depth: nat, steps: nat)
    requires inst.op.Call? && exists k :: 1 <= k < |inst.ops| && Unread(inst.ops[k], regs)
    ensures StepOnCourse(mod, c, inst, args, regs, depth, steps) ==>
      exists k :: 1 <= k < |inst.ops| && !Admits(inst.ops[k], true, true)
  {
    hide StepOnCourse;
    var k :| 1 <= k < |inst.ops| && Unread(inst.ops[k], regs);
    if Admits(inst.ops[k], true, true) { UnwrittenArgument(mod, c, inst, args, regs, k, depth, steps); }
  }

  method VmArgs(inst: Inst, vals: array<i64>, valid: array<bool>) returns (xs: Option<seq<i64>>)
    requires inst.ops != [] && vals.Length == valid.Length && OpsFit(inst, vals.Length)
    ensures match xs
      case Some(v) => ReadAll(inst.ops[1..], RegsOf(vals, valid), v)
      case None => exists k :: 1 <= k < |inst.ops| && Unread(inst.ops[k], RegsOf(vals, valid))
  {
    var got: seq<i64> := [];
    for k := 1 to |inst.ops|
      invariant |got| == k - 1 && forall j | 0 <= j < |got| :: Reads(inst.ops[1..][j], RegsOf(vals, valid), got[j])
    {
      var x := ReadOperand(inst.ops[k], true, true, vals, valid);
      if x.None? { return None; }
      assert inst.ops[1..][k - 1] == inst.ops[k];
      got := got + [x.value];
    }
    return Some(got);
  }
}
