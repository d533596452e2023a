/** What a replaced call does to the cost of other calls: whatever returned before returns the same, in no more steps
    and no deeper. */
module Swaps {
  import opened Sir
  import opened SirModules
  import opened SirFunctions
  import opened Evaluate
  import opened ModuleLift
  import opened ConstEval
  import opened Nesting
  import opened Courses

  /** In `mod2`, calls that return `r` have been replaced by that constant. */
  datatype Swap = Swap(m: Machine, mod: Module, mod2: Module, call: Inst, r: i64, spare: nat)

  function From(s: Swap, d: nat, f: nat): Machine { Nested(s.m, s.mod, d, f) }

  function To(s: Swap, d: nat, f: nat): Machine { Nested(s.m, s.mod2, d, f) }

  ghost predicate Swapped(s: Swap, x: Inst, y: Inst, odd: set<nat>) {
    (y == x && NeverReads(x, odd)) || (x == s.call && y == Constant(x.dest, s.r, s.spare) && odd == {s.spare})
  }

  ghost predicate BlockSwapped(s: Swap, xs: seq<Inst>, ys: seq<Inst>, odd: set<nat>) {
    |ys| == |xs| && forall k | 0 <= k < |xs| :: Swapped(s, xs[k], ys[k], odd)
  }

  ghost predicate CodeSwapped(s: Swap, f: Func, g: Func, odd: set<nat>) {
    g.order == f.order && g.body.Keys == f.body.Keys && forall b | b in f.body && b in g.body ::
      BlockSwapped(s, f.body[b], g.body[b], odd)
  }

  ghost predicate FunctionSwapped(s: Swap, x: Decl, y: Decl) {
    y.fast == x.fast && exists odd: set<nat> :: CodeSwapped(s, x.code, y.code, odd)
  }

  /** Wherever the call comes back, it has returned `r`. */
  ghost predicate Known(s: Swap) {
    s.call.op.Call? && forall d: nat, f: nat, params: seq<i64>, regs: Regs, w: World ::
      Proceeds(Step(From(s, d, f), params, s.call, regs, w)) ==>
        Step(From(s, d, f), params, s.call, regs, w) == Next(s.r, w)
  }

  ghost predicate Consistent(s: Swap) {
    && Known(s) && SameNames(s.mod, s.mod2)
    && forall j | 0 <= j < |s.mod| :: FunctionSwapped(s, s.mod[j], s.mod2[j])
  }

  /** Blocks that go on go on alike, up to odd registers. */
  ghost predicate AlikeUpTo(r: BlockResult, r': BlockResult, odd: set<nat>) {
    match r
    case End(_) => r' == r
    case Goto(b, regs, w) => r'.Goto? && r'.id == b && r'.w == w && AgreeExcept(odd, regs, r'.regs)
  }

  // ---------------------------------------------------------------------------------------------
  // Instructions

  lemma ConstantCosts(s: Swap, d: nat, f: nat, params: seq<i64>, odd: set<nat>, regs: Regs, regs': Regs, w: World)
    requires Known(s) && odd == {s.spare} && AgreeExcept(odd, regs, regs')
    requires Proceeds(Step(From(s, d, f), params, s.call, regs, w))
    ensures Step(From(s, d, f), params, s.call, regs, w) == Next(s.r, w)
    ensures var y := Constant(s.call.dest, s.r, s.spare);
      && StepsInst(s.m, s.mod2, d, f, y, regs', w) <= StepsInst(s.m, s.mod, d, f, s.call, regs, w)
      && Step(To(s, d, f), params, y, regs', w).Next?
      && Step(To(s, d, f), params, y, regs', w).w == w
      && AgreeExcept(odd, Write(regs, s.call.dest, s.r), Write(regs', y.dest, Step(To(s, d, f), params, y, regs', w).v))
  {
    hide Step, From, To, NestedCall;
    var y := Constant(s.call.dest, s.r, s.spare);
    ConstantStep(To(s, d, f), params, s.call.dest, s.r, s.spare, regs', w);
    AgreeSymmetric(odd, regs, regs');
    WritesAgree(s.call.dest, s.r, s.spare, regs', regs);
    WritesAgree(s.call.dest, s.r, s.spare, regs, regs');
    TakesAStep(s.m, s.mod, d, f, s.call, regs, w);
  }

  /** An instruction that stays: the calls it makes are one level down. */
  lemma {:induction false} SameCosts(s: Swap, d: nat, f: nat, params: seq<i64>, x: Inst, odd: set<nat>, regs: Regs,
        regs': Regs, w: World)
    requires Consistent(s) && NeverReads(x, odd) && AgreeExcept(odd, regs, regs')
    requires Proceeds(Step(From(s, d, f), params, x, regs, w))
    ensures Step(To(s, d, f), params, x, regs', w) == Step(From(s, d, f), params, x, regs, w)
    ensures StepsInst(s.m, s.mod2, d, f, x, regs', w) <= StepsInst(s.m, s.mod, d, f, x, regs, w)
    decreases d, 0, 1
  {
    hide Exec, NeverReads, AgreeExcept, Consistent, Steps, FuncAt, NestedRun;
    OddUnread(s.m, x, odd, regs, regs');
    SameOperands(s.m, From(s, d, f), x.ops, regs);
    SameOperands(s.m, To(s, d, f), x.ops, regs');
    var args := EvalAll(s.m, x.ops, regs);
    if args.Some? {
      EffectCosts(s, d, f, params, x, args.value, w);
    }
  }

  lemma OddUnread(m: Machine, x: Inst, odd: set<nat>, regs: Regs, regs': Regs)
    requires NeverReads(x, odd) && AgreeExcept(odd, regs, regs')
    ensures EvalAll(m, x.ops, regs') == EvalAll(m, x.ops, regs)
  {
    forall k | 0 <= k < |x.ops|
      ensures EvalOperand(m, x.ops[k], regs) == EvalOperand(m, x.ops[k], regs')
    {
      if x.ops[k].VReg? { assert VReg(x.ops[k].r) in x.ops; }
    }
    EvalAllCongruent(m, x.ops, regs, x.ops, regs');
  }

  lemma {:induction false} EffectCosts(s: Swap, d: nat, f: nat, params: seq<i64>, x: Inst, args: seq<Arg>, w: World)
    requires Consistent(s)
    requires Proceeds(Exec(From(s, d, f), params, x.op, Tagged(x, args), w))
    ensures Exec(To(s, d, f), params, x.op, Tagged(x, args), w) ==
      Exec(From(s, d, f), params, x.op, Tagged(x, args), w)
    ensures x.op.Call? && args != [] && AllInts(args) && d > 0 ==>
      && (FuncAt(s.m, s.mod, args[0].v).Some? <==> FuncAt(s.m, s.mod2, args[0].v).Some?)
      && (FuncAt(s.m, s.mod, args[0].v).Some? ==>
        Steps(s.m, s.mod2, d - 1, f, FuncAt(s.m, s.mod2, args[0].v).value, Ints(args[1..]), w) <=
          Steps(s.m, s.mod, d - 1, f, FuncAt(s.m, s.mod, args[0].v).value, Ints(args[1..]), w))
    decreases d, 0, 0
  {
    hide FuncAt, Known, FunctionSwapped, NestedRun, Steps, Compute;
    NestedEffect(s.m, s.mod, d, f, x.op, args, w);
    NestedEffect(s.m, s.mod2, d, f, x.op, args, w);
    if x.op.Call? && args != [] && AllInts(args) {
      var j := FuncAtSame(s.m, s.mod, s.mod2, args[0].v);
      if FuncAt(s.m, s.mod, args[0].v).Some? {
        NestedUnfolds(s.m, s.mod, d, f, args, w, s.mod[j]);
        NestedUnfolds(s.m, s.mod2, d, f, args, w, s.mod2[j]);
        if d > 0 { CallCosts(s, d - 1, f, j, Ints(args[1..]), w); }
      }
    }
  }

  // ---------------------------------------------------------------------------------------------
  // Blocks, runs and calls

  lemma {:induction false} BlockCosts(s: Swap, d: nat, f: nat, params: seq<i64>, xs: seq<Inst>, ys: seq<Inst>,
        odd: set<nat>, regs: Regs, regs': Regs, w: World)
    requires Consistent(s) && BlockSwapped(s, xs, ys, odd) && AgreeExcept(odd, regs, regs')
    requires BlockProceeds(RunBlock(From(s, d, f), params, xs, regs, w))
    ensures AlikeUpTo(RunBlock(From(s, d, f), params, xs, regs, w), RunBlock(To(s, d, f), params, ys, regs', w), odd)
    ensures StepsBlock(s.m, s.mod2, d, f, params, ys, regs', w) <= StepsBlock(s.m, s.mod, d, f, params, xs, regs, w)
    decreases d, 1, |xs|
  {
    hide Step, StepsInst, AgreeExcept, NeverReads, Constant, Write, Nested, Known, SameNames;
    if xs != [] {
      var x, y := xs[0], ys[0];
      assert Swapped(s, x, y, odd);
      assert BlockSwapped(s, xs[1..], ys[1..], odd) by {
        forall k | 0 <= k < |xs[1..]| ensures Swapped(s, xs[1..][k], ys[1..][k], odd) {
          assert Swapped(s, xs[k + 1], ys[k + 1], odd);
        }
      }
      var step := Step(From(s, d, f), params, x, regs, w);
      if y == x && NeverReads(x, odd) {
        SameCosts(s, d, f, params, x, odd, regs, regs', w);
        if step.Next? {
          SameWrite(x.dest, step.v, odd, regs, regs');
          BlockCosts(s, d, f, params, xs[1..], ys[1..], odd, Write(regs, x.dest, step.v), Write(regs', x.dest, step.v),
            step.w);
        }
      } else {
        ConstantCosts(s, d, f, params, odd, regs, regs', w);
        BlockCosts(s, d, f, params, xs[1..], ys[1..], odd, Write(regs, x.dest, s.r),
          Write(regs', y.dest, Step(To(s, d, f), params, y, regs', w).v), w);
      }
    }
  }

  lemma {:induction false} RunCosts(s: Swap, d: nat, f: nat, params: seq<i64>, code: Func, code': Func, odd: set<nat>,
        b: nat, regs: Regs, regs': Regs, w: World, n: nat)
    requires Consistent(s) && CodeSwapped(s, code, code', odd) && AgreeExcept(odd, regs, regs')
    requires Run(From(s, d, f), code, params, b, regs, w, n).Returned?
    ensures Run(To(s, d, f), code', params, b, regs', w, n) == Run(From(s, d, f), code, params, b, regs, w, n)
    ensures StepsRun(s.m, s.mod2, d, f, code', params, b, regs', w, n) <=
      StepsRun(s.m, s.mod, d, f, code, params, b, regs, w, n)
    decreases d, 2, n
  {
    hide RunBlock, StepsBlock, AgreeExcept, Consistent, BlockSwapped, Nested;
    var r := RunBlock(From(s, d, f), params, code.body[b], regs, w);
    assert b in code'.body;
    BlockCosts(s, d, f, params, code.body[b], code'.body[b], odd, regs, regs', w);
    if r.Goto? {
      var r' := RunBlock(To(s, d, f), params, code'.body[b], regs', w);
      RunCosts(s, d, f, params, code, code', odd, r.id, r.regs, r'.regs, r.w, n - 1);
    }
  }

  lemma {:induction false} CallCosts(s: Swap, d: nat, f: nat, j: nat, params: seq<i64>, w: World)
    requires Consistent(s) && j < |s.mod| && |s.mod2| == |s.mod|
    requires NestedRun(s.m, s.mod, d, f, s.mod[j], params, w).Returned?
    ensures NestedRun(s.m, s.mod2, d, f, s.mod2[j], params, w) == NestedRun(s.m, s.mod, d, f, s.mod[j], params, w)
    ensures Steps(s.m, s.mod2, d, f, s.mod2[j], params, w) <= Steps(s.m, s.mod, d, f, s.mod[j], params, w)
    decreases d, 3
  {
    hide Run, StepsRun, Known, Nested;
    var x, y := s.mod[j], s.mod2[j];
    assert FunctionSwapped(s, x, y);
    var odd :| CodeSwapped(s, x.code, y.code, odd);
    if x.code.order != [] && !(x.fast.Some? && Taken(x.fast.value.jcc, params[0], x.fast.value.imm)) {
      RunCosts(s, d, f, params, x.code, y.code, odd, x.code.order[0], map[], map[], w, f);
    }
  }

  // ---------------------------------------------------------------------------------------------
  // The pass's replacement

  lemma ReplacementIsKnown(m: Machine, mod: Module, d: Decl, xs: seq<i64>, call: Inst, r: i64, spare: nat, need: nat,
        mod': Module)
    requires CallsOn(call, d, xs) && Lookup(mod, d.name) == Some(d) && AnswersBy(mod, d, xs, r, need)
    requires Linked(m, Names(mod))
    ensures Known(Swap(m, mod, mod', call, r, spare))
  {
    hide AnswersBy, Linked, Step, CallsOn, Within, Nested;
    var s := Swap(m, mod, mod', call, r, spare);
    assert call.op.Call? by { CallsOnIsCall(call, d, xs); }
    forall n: nat, f: nat, params: seq<i64>, regs: Regs, w: World
      ensures Proceeds(Step(From(s, n, f), params, call, regs, w)) ==>
        Step(From(s, n, f), params, call, regs, w) == Next(r, w)
    {
      NestedBelow(m, mod, n, f);
      StepBelow(Nested(m, mod, n, f), Within(m, mod, n + f), params, call, regs, w);
      CallSettles(m, mod, params, call, regs, w, d, xs, r, need, n + f);
    }
  }

  lemma CallsOnIsCall(call: Inst, d: Decl, xs: seq<i64>)
    requires CallsOn(call, d, xs)
    ensures call.op.Call?
  {}

  lemma ReplacementSwaps(s: Swap, f: Func, b: nat, k: nat)
    requires b in f.body && k < |f.body[b]| && f.body[b][k] == s.call && Unmentioned(f, s.spare)
    ensures CodeSwapped(s, f, WithConstant(f, b, k, s.r, s.spare), {s.spare})
  {
    var g := WithConstant(f, b, k, s.r, s.spare);
    assert g.body.Keys == f.body.Keys;
    forall x, j | x in f.body && 0 <= j < |f.body[x]|
      ensures Swapped(s, f.body[x][j], g.body[x][j], {s.spare})
    {
      assert !MentionsReg(f.body[x][j], s.spare);
    }
  }

  lemma NothingSwaps(s: Swap, f: Func)
    ensures CodeSwapped(s, f, f, {})
  {}

  lemma ReplacementIsConsistent(m: Machine, mod: Module, i: nat, b: nat, k: nat, d: Decl, xs: seq<i64>, r: i64,
        spare: nat, mod': Module, need: nat)
    requires Replaces(mod, i, b, k, d, xs, r, spare, mod') && AnswersBy(mod, d, xs, r, need) && Linked(m, Names(mod))
    ensures Consistent(Swap(m, mod, mod', mod[i].code.body[b][k], r, spare))
  {
    hide AnswersBy, Linked, CallsOn, WithConstant, WellFormed, Unmentioned, CodeSwapped, Known;
    var s := Swap(m, mod, mod', mod[i].code.body[b][k], r, spare);
    ReplacementIsKnown(m, mod, d, xs, s.call, r, spare, need, mod');
    forall j | 0 <= j < |mod|
      ensures FunctionSwapped(s, mod[j], mod'[j])
    {
      if j == i {
        ReplacementSwaps(s, mod[i].code, b, k);
      } else {
        NothingSwaps(s, mod[j].code);
      }
    }
  }

  /** What could be afforded before can be afforded after the replacement. */
  lemma ReplacementStaysAffordable(mod: Module, i: nat, b: nat, k: nat, d: Decl, xs: seq<i64>, r: i64, spare: nat,
        mod': Module, need: nat, c: Course, j: nat, args: seq<i64>, depth: nat, steps: nat)
    requires Replaces(mod, i, b, k, d, xs, r, spare, mod') && AnswersBy(mod, d, xs, r, need)
    requires j < |mod| && Affordable(mod, c, mod[j], args, depth, steps)
    ensures |mod'| == |mod| && Affordable(mod', c, mod'[j], args, depth, steps)
  {
    hide AnswersBy, Linked, NestedRun, Steps, CallsOn, WithConstant, WellFormed, Unmentioned, Consistent;
    ReplacementIsConsistent(c.m, mod, i, b, k, d, xs, r, spare, mod', need);
    CallCosts(Swap(c.m, mod, mod', mod[i].code.body[b][k], r, spare), c.d, c.f, j, args, c.w);
    SameNamesSet(mod, mod');
  }
}
