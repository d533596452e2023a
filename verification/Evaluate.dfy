/** What a compile-time evaluator establishes: a function's answer on given arguments, whatever the
    machine, the world and the calls in between. */
module Evaluate {
  import opened Sir
  import opened SirModules

  /** Called with arguments that begin with `pre`, `d` returns `r` and leaves the world alone, given
      fuel `need` or more. */
  ghost predicate AnswersBy(mod: Module, d: Decl, pre: seq<i64>, r: i64, need: nat) {
    forall m: Machine, params: seq<i64>, w: World, k: nat | k >= need && Linked(m, Names(mod)) && pre <= params ::
      Invoke(m, mod, d, params, w, k) == Returned(r, w)
  }

  ghost predicate Answers(mod: Module, d: Decl, pre: seq<i64>, r: i64)
  {
    exists need: nat :: AnswersBy(mod, d, pre, r, need)
  }

  /** What an instruction is sure to do. */
  datatype Sure = Gives(v: i64) | Leads(b: nat) | Answer(r: i64)

  function AsStep(s: Sure, w: World): StepResult {
    match s
    case Gives(v) => Next(v, w)
    case Leads(b) => Jump(b)
    case Answer(r) => Finish(Returned(r, w))
  }

  ghost predicate StepSays(mod: Module, pre: seq<i64>, inst: Inst, regs: Regs, s: Sure, need: nat) {
    forall m: Machine, params: seq<i64>, w: World, k: nat | k >= need && Linked(m, Names(mod)) && pre <= params ::
      Step(Within(m, mod, k), params, inst, regs, w) == AsStep(s, w)
  }

  /** The same of an instruction that asks nothing of machine, module and world. */
  ghost predicate Does(pre: seq<i64>, inst: Inst, regs: Regs, s: Sure) {
    forall m: Machine, params: seq<i64>, w: World | pre <= params :: Step(m, params, inst, regs, w) == AsStep(s, w)
  }

  lemma DoesSays(mod: Module, pre: seq<i64>, inst: Inst, regs: Regs, s: Sure)
    requires Does(pre, inst, regs, s)
    ensures StepSays(mod, pre, inst, regs, s, 0)
  {
    hide Step, Within, Linked;
  }

  /** A call has come to block `b` with registers `regs` after `s` blocks. */
  ghost predicate AtBlock(mod: Module, d: Decl, pre: seq<i64>, b: nat, regs: Regs, s: nat, need: nat) {
    && need >= s
    && forall m: Machine, params: seq<i64>, w: World, k: nat | k >= need && Linked(m, Names(mod)) && pre <= params ::
      Invoke(m, mod, d, params, w, k) == Run(Within(m, mod, k), d.code, params, b, regs, w, k - s)
  }

  /** Block `b`, entered with `regs0`, has come to the instructions `insts` with registers `regs`. */
  ghost predicate InBlock(mod: Module, d: Decl, pre: seq<i64>, b: nat, regs0: Regs, insts: seq<Inst>, regs: Regs,
        need: nat) {
    && b in d.code.body
    && forall m: Machine, params: seq<i64>, w: World, k: nat | k >= need && Linked(m, Names(mod)) && pre <= params ::
      RunBlock(Within(m, mod, k), params, d.code.body[b], regs0, w)
        == RunBlock(Within(m, mod, k), params, insts, regs, w)
  }

  function Max(a: nat, b: nat): nat { if a < b then b else a }

  // ---------------------------------------------------------------------------------------------
  // From steps to answers

  lemma FastAnswer(mod: Module, d: Decl, pre: seq<i64>)
    requires pre != [] && d.fast.Some? && Taken(d.fast.value.jcc, pre[0], d.fast.value.imm)
    ensures AnswersBy(mod, d, pre, pre[0], 0)
  {
    hide Within, RunFunc;
  }

  lemma StartAtEntry(mod: Module, d: Decl, pre: seq<i64>)
    requires d.code.order != []
    requires d.fast.Some? ==> pre != [] && !Taken(d.fast.value.jcc, pre[0], d.fast.value.imm)
    ensures AtBlock(mod, d, pre, d.code.order[0], map[], 0, 0)
  {
    hide Within, Run;
  }

  lemma BlockNext(mod: Module, d: Decl, pre: seq<i64>, b: nat, regs0: Regs, insts: seq<Inst>, regs: Regs, need: nat,
        v: i64, need': nat)
    requires InBlock(mod, d, pre, b, regs0, insts, regs, need) && insts != []
    requires StepSays(mod, pre, insts[0], regs, Gives(v), need')
    ensures InBlock(mod, d, pre, b, regs0, insts[1..], Write(regs, insts[0].dest, v), Max(need, need'))
  {
    hide Within, Step, Linked, Write;
    forall m: Machine, params: seq<i64>, w: World, k: nat | k >= Max(need, need') && Linked(m, Names(mod)) &&
      pre <= params
      ensures RunBlock(Within(m, mod, k), params, d.code.body[b], regs0, w) ==
        RunBlock(Within(m, mod, k), params, insts[1..], Write(regs, insts[0].dest, v), w)
    {
      assert Step(Within(m, mod, k), params, insts[0], regs, w) == Next(v, w);
    }
  }

  /** What block `b` does once its next instruction is sure to leave it. */
  lemma BlockLeaves(mod: Module, d: Decl, pre: seq<i64>, b: nat, regs0: Regs, s: nat, need: nat, insts: seq<Inst>,
        regs: Regs, need1: nat, sure: Sure, need2: nat)
    requires AtBlock(mod, d, pre, b, regs0, s, need) && InBlock(mod, d, pre, b, regs0, insts, regs, need1)
    requires insts != []
    requires StepSays(mod, pre, insts[0], regs, sure, need2) && !sure.Gives?
    ensures var n := Max(Max(need, need1), Max(need2, s + 1));
      if sure.Leads? then AtBlock(mod, d, pre, sure.b, regs, s + 1, n) else AnswersBy(mod, d, pre, sure.r, n)
  {
    hide Within, Step, Linked, Invoke;
    var n := Max(Max(need, need1), Max(need2, s + 1));
    forall m: Machine, params: seq<i64>, w: World, k: nat | k >= n && Linked(m, Names(mod)) && pre <= params
      ensures if sure.Leads? then
        Invoke(m, mod, d, params, w, k) == Run(Within(m, mod, k), d.code, params, sure.b, regs, w, k - (s + 1))
              else Invoke(m, mod, d, params, w, k) == Returned(sure.r, w)
    {
      var m' := Within(m, mod, k);
      assert Step(m', params, insts[0], regs, w) == AsStep(sure, w);
      assert RunBlock(m', params, d.code.body[b], regs0, w) == RunBlock(m', params, insts, regs, w);
      assert Invoke(m, mod, d, params, w, k) == Run(m', d.code, params, b, regs0, w, k - s);
    }
  }

  // ---------------------------------------------------------------------------------------------
  // What each kind of instruction is sure to do

  /** Operand `v` is the number `x`. */
  ghost predicate Reads(v: Value, regs: Regs, x: i64) {
    match v
    case VReg(r) => r in regs && regs[r] == x
    case ConstInt(i) => i == x
    case ConstBool(b) => x == if b then 1 else 0
    case _ => false
  }

  function IntArgs(xs: seq<i64>): (args: seq<Arg>)
    ensures |args| == |xs| && forall k | 0 <= k < |xs| :: args[k] == Int(xs[k])
  {
    seq(|xs|, k requires 0 <= k < |xs| => Int(xs[k]))
  }

  ghost predicate ReadAll(ops: seq<Value>, regs: Regs, xs: seq<i64>) {
    |ops| == |xs| && forall k | 0 <= k < |xs| :: Reads(ops[k], regs, xs[k])
  }

  lemma ReadAllEvaluates(m: Machine, ops: seq<Value>, regs: Regs, xs: seq<i64>)
    requires ReadAll(ops, regs, xs)
    ensures EvalAll(m, ops, regs) == Some(IntArgs(xs))
  {
    forall k | 0 <= k < |xs|
      ensures EvalOperand(m, ops[k], regs) == Some(Int(xs[k]))
    {
      assert Reads(ops[k], regs, xs[k]);
    }
    assert EvalAll(m, ops, regs).value == IntArgs(xs);
  }

  lemma ComputeDoes(pre: seq<i64>, inst: Inst, regs: Regs, xs: seq<i64>, v: i64)
    requires inst.op.IsPureCompute() && ReadAll(inst.ops, regs, xs) && Compute(inst.op, IntArgs(xs)) == Some(v)
    ensures Does(pre, inst, regs, Gives(v))
  {
    hide Compute, ReadAll;
    forall m: Machine
      ensures EvalAll(m, inst.ops, regs) == Some(IntArgs(xs))
    {
      ReadAllEvaluates(m, inst.ops, regs, xs);
    }
  }

  lemma ParamDoes(pre: seq<i64>, inst: Inst, regs: Regs, i: i64)
    requires inst.op.GetParam? && 0 <= i < |pre| && inst.ops == [ConstInt(i)]
    ensures Does(pre, inst, regs, Gives(pre[i]))
  {
    hide Compute;
    assert ReadAll(inst.ops, regs, [i]);
    forall m: Machine
      ensures EvalAll(m, inst.ops, regs) == Some(IntArgs([i]))
    {
      ReadAllEvaluates(m, inst.ops, regs, [i]);
    }
  }

  lemma CallSays(mod: Module, pre: seq<i64>, inst: Inst, regs: Regs, d: Decl, xs: seq<i64>, r: i64, need: nat)
    requires inst.op.Call? && inst.ops != [] && inst.ops[0] == Global(d.name) && Lookup(mod, d.name) == Some(d)
    requires ReadAll(inst.ops[1..], regs, xs) && AnswersBy(mod, d, xs, r, need)
    ensures StepSays(mod, pre, inst, regs, Gives(r), need + 1)
  {
    forall m: Machine, params: seq<i64>, w: World, k: nat | k >= need + 1 && Linked(m, Names(mod)) && pre <= params
      ensures Step(Within(m, mod, k), params, inst, regs, w) == Next(r, w)
    {
      CallStep(mod, inst, regs, d, xs, r, need, m, params, w, k);
    }
  }

  lemma CallStep(mod: Module, inst: Inst, regs: Regs, d: Decl, xs: seq<i64>, r: i64, need: nat, m: Machine,
        params: seq<i64>, w: World, k: nat)
    requires inst.op.Call? && inst.ops != [] && inst.ops[0] == Global(d.name) && Lookup(mod, d.name) == Some(d)
    requires ReadAll(inst.ops[1..], regs, xs) && AnswersBy(mod, d, xs, r, need)
    requires k >= need + 1 && Linked(m, Names(mod))
    ensures Step(Within(m, mod, k), params, inst, regs, w) == Next(r, w)
  {
    hide Linked, Lookup, Invoke;
    var m' := Within(m, mod, k);
    CallArgs(m', inst.ops, regs, d.name, xs);
    var args := [Int(m.addr(d.name))] + IntArgs(xs);
    CallReachesSymbol(m, mod, d.name);
    assert AllInts(args);
    assert Ints(args[1..]) == xs;
    CallUnfolds(m, mod, k, args, w, d);
    WithinEffect(m, mod, k, Call, args, w);
    assert Invoke(m, mod, d, xs, w, k - 1) == Returned(r, w);
  }

  lemma CallArgs(m: Machine, ops: seq<Value>, regs: Regs, name: string, xs: seq<i64>)
    requires ops != [] && ops[0] == Global(name) && ReadAll(ops[1..], regs, xs)
    ensures EvalAll(m, ops, regs) == Some([Int(m.addr(name))] + IntArgs(xs))
  {
    var args := [Int(m.addr(name))] + IntArgs(xs);
    forall k | 0 <= k < |ops|
      ensures EvalOperand(m, ops[k], regs) == Some(args[k])
    {
      if k > 0 { assert ops[k] == ops[1..][k - 1]; }
    }
    assert EvalAll(m, ops, regs).value == args;
  }

  lemma JumpDoes(pre: seq<i64>, inst: Inst, regs: Regs, b: nat)
    requires inst.op.Jmp? && inst.ops == [BlockRef(b)]
    ensures Does(pre, inst, regs, Leads(b))
  {
    hide Compute;
    forall m: Machine
      ensures EvalAll(m, inst.ops, regs) == Some([Blk(b)])
    {
      assert EvalOperand(m, inst.ops[0], regs) == Some(Blk(b));
      assert EvalAll(m, inst.ops, regs).value == [Blk(b)];
    }
  }

  lemma BranchDoes(pre: seq<i64>, inst: Inst, regs: Regs, c: i64, t: nat, e: nat)
    requires inst.op.Br? && |inst.ops| == 3 && Reads(inst.ops[0], regs, c) && inst.ops[1] == BlockRef(t)
    requires inst.ops[2] == BlockRef(e)
    ensures Does(pre, inst, regs, Leads(if c != 0 then t else e))
  {
    hide Compute;
    forall m: Machine
      ensures EvalAll(m, inst.ops, regs) == Some([Int(c), Blk(t), Blk(e)])
    {
      assert EvalOperand(m, inst.ops[0], regs) == Some(Int(c));
      assert EvalOperand(m, inst.ops[1], regs) == Some(Blk(t)) && EvalOperand(m, inst.ops[2], regs) == Some(Blk(e));
      assert EvalAll(m, inst.ops, regs).value == [Int(c), Blk(t), Blk(e)];
    }
  }

  /** A switch's operands once its scrutinee is `c`. */
  function SwitchArgs(ops: seq<Value>, c: i64): (args: seq<Arg>)
    requires |ops| >= 2 && forall k | 1 <= k < |ops| :: ops[k].ConstInt? || ops[k].BlockRef?
    ensures |args| == |ops| && args[0] == Int(c)
    ensures forall k | 1 <= k < |ops| :: args[k] == if ops[k].ConstInt? then Int(ops[k].i) else Blk(ops[k].id)
  {
    seq(|ops|, k requires 0 <= k < |ops| => if k == 0 then Int(c) else if ops[k].ConstInt? then Int(ops[k].i)
      else Blk(ops[k].id))
  }

  lemma SwitchDoes(pre: seq<i64>, inst: Inst, regs: Regs, c: i64)
    requires inst.op.Switch? && ShapeOk(inst) && Reads(inst.ops[0], regs, c)
    ensures Does(pre, inst, regs, Leads(SwitchTarget(c, SwitchArgs(inst.ops, c), 2, inst.ops[1].id)))
  {
    hide Compute, SwitchTarget, SwitchArgs;
    var args := SwitchArgs(inst.ops, c);
    var ops := inst.ops;
    forall m: Machine
      ensures EvalAll(m, ops, regs) == Some(args)
    {
      forall k | 0 <= k < |ops|
        ensures EvalOperand(m, ops[k], regs) == Some(args[k])
      {}
      assert EvalAll(m, ops, regs).value == args;
    }
  }

  lemma ReturnDoes(pre: seq<i64>, inst: Inst, regs: Regs, xs: seq<i64>)
    requires inst.op.Ret? && ReadAll(inst.ops, regs, xs)
    ensures Does(pre, inst, regs, Answer(if xs == [] then 0 else xs[0]))
  {
    hide Compute;
    forall m: Machine
      ensures EvalAll(m, inst.ops, regs) == Some(IntArgs(xs))
    {
      ReadAllEvaluates(m, inst.ops, regs, xs);
    }
  }
}
