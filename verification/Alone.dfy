/** A function run by itself: it may call itself, and everything else it could ask for stops it. */
module Alone {
  import opened Sir
  import opened SirModules
  import opened Evaluate
  import opened Interpret
  import opened Purity
  import opened Nesting

  /** Only the function itself has an address; there is no memory and nothing outside. */
  function Bare(name: string): Machine {
    Machine(n => if n == name then 1 else 0, (_, _) => None, (_, _, _) => Stop(Fault))
  }

  const EMPTY := World(map[], [], [])

  function Solo(d: Decl, depth: nat, f: nat): Machine { Nested(Bare(d.name), [d], depth, f) }

  /** What the function answers alone, with calls of itself nested at most `depth` deep and at most `f` blocks in
      each. */
  function SoloAnswer(d: Decl, arg: i64, depth: nat, f: nat): Option<i64> {
    AnswerOf(Enter(Solo(d, depth, f), d, [arg], EMPTY, f))
  }

  function AnswerOf(o: Outcome): Option<i64> {
    match o
    case Returned(v, _) => Some(v)
    case _ => None
  }

  /** Larger bounds never lose an answer. */
  lemma SoloAnswerStays(d: Decl, arg: i64, depth: nat, f: nat, depth': nat, f': nat)
    requires depth <= depth' && f <= f' && SoloAnswer(d, arg, depth, f).Some?
    ensures SoloAnswer(d, arg, depth', f') == SoloAnswer(d, arg, depth, f)
  {
    hide Enter, Nested;
    NestedGrows(Bare(d.name), [d], depth, f, depth', f');
    EnterBelow(Solo(d, depth, f), Solo(d, depth', f'), d, [arg], EMPTY, f, f');
  }

  /** Operands of the kinds the evaluator looks at, no address arithmetic, and calls by name, of the function itself
      with one argument. */
  predicate Plain(inst: Inst, name: string) {
    && !inst.op.Gep?
    && (inst.op.IsArith() || inst.op.IsCompare() ==>
      |inst.ops| == 2 && Admits(inst.ops[0], true, true) && Admits(inst.ops[1], true, true))
    && (inst.op.Cast? ==> |inst.ops| == 1 && Admits(inst.ops[0], true, true))
    && (inst.op.Select? ==> SelectAdmits(inst, false, false))
    && JumpAdmits(inst, false, false)
    && (inst.op.Ret? ==> ReturnAdmits(inst, false))
    && (inst.op.Call? ==> inst.ops != [] && inst.ops[0].Global?)
    && (inst.op.Call? && inst.ops[0] == Global(name) ==> |inst.ops| == 2 && Admits(inst.ops[1], true, false))
  }

  predicate PlainCode(d: Decl) {
    forall b, k | b in d.code.body && 0 <= k < |d.code.body[b]| :: Plain(d.code.body[b][k], d.name)
  }

  /** What the evaluator reports of an instruction is what the run does. */
  ghost predicate Mirrors(p: Progress, s: Sure, r: StepResult) {
    match p
    case Fail => r.Finish? && !r.o.Returned?
    case Wrote => s.Gives? && r == Next(s.v, EMPTY)
    case Went(b) => r == Jump(b)
    case Finished(x) => r == Finish(Returned(x, EMPTY))
  }

  ghost predicate BlockMirrors(p: Progress, regs: Regs, r: BlockResult) {
    match p
    case Fail => r.End? && !r.o.Returned?
    case Wrote => false
    case Went(b) => r == Goto(b, regs, EMPTY)
    case Finished(x) => r == End(Returned(x, EMPTY))
  }

  // ---------------------------------------------------------------------------------------------
  // Instructions

  lemma SureMirrors(m: Machine, arg: i64, inst: Inst, regs: Regs, p: Progress, s: Sure)
    requires if p.Fail? then Stuck([arg], inst, regs) else Reports(p, s) && Does([arg], inst, regs, s)
    ensures Mirrors(p, s, Step(m, [arg], inst, regs, EMPTY))
  {
    hide Step;
    assert [arg] <= [arg];
  }

  /** What the evaluator does not know does not go on. */
  lemma OthersStop(d: Decl, depth: nat, f: nat, arg: i64, inst: Inst, regs: Regs)
    requires !inst.op.IsPureCompute() && !inst.op.GetParam? && !inst.op.Jmp? && !inst.op.Br? && !inst.op.Switch?
    requires !inst.op.Ret? && !inst.op.Call?
    ensures var r := Step(Solo(d, depth, f), [arg], inst, regs, EMPTY); r.Finish? && !r.o.Returned?
  {
    var args := EvalAll(Solo(d, depth, f), inst.ops, regs);
    if args.Some? { NestedEffect(Bare(d.name), [d], depth, f, inst.op, Tagged(inst, args.value), EMPTY); }
  }

  /** There is one argument to fetch. */
  lemma SecondParamStops(m: Machine, arg: i64, inst: Inst, regs: Regs)
    requires inst.op.GetParam? && OperandsOk(inst) && inst.ops[0].i != 0
    ensures Step(m, [arg], inst, regs, EMPTY) == Finish(Fault)
  {
    assert EvalOperand(m, inst.ops[0], regs) == Some(Int(inst.ops[0].i));
  }

  predicate Looked(op: Opcode) {
    op.IsArith() || op.IsCompare() || op.Cast? || op.Select? || op.Jmp? || op.Br? || op.Switch? || op.Ret?
  }

  /** An instruction that calls nothing: the evaluator fails on it only where a run does. */
  lemma PlainMirrors(d: Decl, depth: nat, f: nat, arg: i64, inst: Inst, regs: Regs, p: Progress, s: Sure)
    requires !inst.op.Call? && Plain(inst, d.name) && ShapeOk(inst) && OperandsOk(inst)
    requires !p.Fail? ==> Reports(p, s) && Does([arg], inst, regs, s)
    requires p.Fail? && Looked(inst.op) ==> Stuck([arg], inst, regs)
    requires p.Fail? && inst.op.GetParam? ==> inst.dest.None? || inst.ops[0].i != 0
    ensures Mirrors(p, s, Step(Solo(d, depth, f), [arg], inst, regs, EMPTY))
  {
    hide Step, Solo, Does, Stuck, Admits, SelectAdmits, JumpAdmits, ReturnAdmits, Reports;
    if !p.Fail? || Looked(inst.op) {
      SureMirrors(Solo(d, depth, f), arg, inst, regs, p, s);
    } else if inst.op.GetParam? {
      SecondParamStops(Solo(d, depth, f), arg, inst, regs);
    } else {
      OthersStop(d, depth, f, arg, inst, regs);
    }
  }

  lemma OtherCallStops(d: Decl, depth: nat, f: nat, arg: i64, inst: Inst, regs: Regs)
    requires inst.op.Call? && inst.ops != [] && inst.ops[0].Global? && inst.ops[0] != Global(d.name)
    ensures var r := Step(Solo(d, depth, f), [arg], inst, regs, EMPTY); r.Finish? && !r.o.Returned?
  {
    var m := Solo(d, depth, f);
    var args := EvalAll(m, inst.ops, regs);
    if args.Some? {
      assert EvalOperand(m, inst.ops[0], regs) == Some(Int(0));
      assert FuncAt(Bare(d.name), [d], 0).None?;
      NestedEffect(Bare(d.name), [d], depth, f, Call, args.value, EMPTY);
    }
  }

  lemma UnreadOperandStops(m: Machine, arg: i64, inst: Inst, regs: Regs, k: nat)
    requires k < |inst.ops| && inst.ops[k].VReg? && inst.ops[k].r !in regs
    ensures Step(m, [arg], inst, regs, EMPTY) == Finish(Fault)
  {
    hide Step;
    UnwrittenIsStuck([arg], inst, regs, k);
  }

  function CallResult(o: Outcome): StepResult { if o.Returned? then Next(o.v, o.w) else Finish(o) }

  /** A call of itself is the function run one level down. */
  lemma {:induction false} SelfCallGoes(d: Decl, depth: nat, f: nat, arg: i64, inst: Inst, regs: Regs, x: i64)
    requires inst.op.Call? && |inst.ops| == 2 && inst.ops[0] == Global(d.name) && Reads(inst.ops[1], regs, x)
    ensures var r := Step(Solo(d, depth, f), [arg], inst, regs, EMPTY);
      r == if depth == 0 then Finish(OutOfFuel) else CallResult(Enter(Solo(d, depth - 1, f), d, [x], EMPTY, f))
  {
    hide Enter;
    var m := Solo(d, depth, f);
    assert ReadAll(inst.ops[1..], regs, [x]);
    CallArgs(m, inst.ops, regs, d.name, [x]);
    var args := [Int(1)] + IntArgs([x]);
    assert AllInts(args) && Ints(args[1..]) == [x];
    assert FuncAt(Bare(d.name), [d], 1) == Some(d);
    NestedEffect(Bare(d.name), [d], depth, f, Call, args, EMPTY);
    NestedUnfolds(Bare(d.name), [d], depth, f, args, EMPTY, d);
  }

  /** Alone the function leaves the world alone. */
  lemma {:induction false} SoloKeepsWorld(d: Decl, depth: nat, f: nat, params: seq<i64>)
    ensures Harmless(Enter(Solo(d, depth, f), d, params, EMPTY, f), EMPTY)
    decreases depth, 1
  {
    hide Step, Run, Nested;
    forall b, k, regs: Regs | b in d.code.body && 0 <= k < |d.code.body[b]|
      ensures HarmlessStep(Step(Solo(d, depth, f), params, d.code.body[b][k], regs, EMPTY), EMPTY)
    {
      SoloStepKeepsWorld(d, depth, f, params, d.code.body[b][k], regs);
    }
    if d.code.order != [] { PureRun(Solo(d, depth, f), d.code, params, d.code.order[0], map[], EMPTY, f); }
  }

  lemma {:induction false} SoloStepKeepsWorld(d: Decl, depth: nat, f: nat, params: seq<i64>, inst: Inst, regs: Regs)
    ensures HarmlessStep(Step(Solo(d, depth, f), params, inst, regs, EMPTY), EMPTY)
    decreases depth, 0
  {
    hide Compute, Enter, FuncAt;
    var args := EvalAll(Solo(d, depth, f), inst.ops, regs);
    if args.Some? {
      var full := Tagged(inst, args.value);
      NestedEffect(Bare(d.name), [d], depth, f, inst.op, full, EMPTY);
      if inst.op.Call? && full != [] && AllInts(full) && FuncAt(Bare(d.name), [d], full[0].v).Some? {
        NestedUnfolds(Bare(d.name), [d], depth, f, full, EMPTY, FuncAt(Bare(d.name), [d], full[0].v).value);
        if depth > 0 { SoloKeepsWorld(d, depth - 1, f, Ints(full[1..])); }
      }
    }
  }

  lemma {:induction false} AnswerOfCall(d: Decl, depth: nat, f: nat, arg: i64, inst: Inst, regs: Regs, x: i64)
    requires inst.op.Call? && |inst.ops| == 2 && inst.ops[0] == Global(d.name) && Reads(inst.ops[1], regs, x)
    ensures var (r, a) := (Step(Solo(d, depth, f), [arg], inst, regs, EMPTY),
        if depth == 0 then None else SoloAnswer(d, x, depth - 1, f));
      match a case None => r.Finish? && !r.o.Returned? case Some(v) => r == Next(v, EMPTY)
  {
    hide Enter, Step, Solo;
    SelfCallGoes(d, depth, f, arg, inst, regs, x);
    if depth > 0 { SoloKeepsWorld(d, depth - 1, f, [x]); }
  }
}
