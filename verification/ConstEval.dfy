/** Constant evaluation: a call of a pure function on constants becomes the constant it returns. */
module ConstEval {
  import opened Sir
  import opened SirFunctions
  import opened SirModules
  import opened Evaluate
  import opened ModuleLift

  /** The value of a literal operand. */
  function Literal(v: Value): Option<i64> {
    match v
    case ConstInt(i) => Some(i)
    case ConstBool(b) => Some(if b then 1 else 0)
    case _ => None
  }

  /** What replaces a call that returns `r`: a constant for its destination or, without one, a value
      nobody reads. */
  function Constant(dest: Option<nat>, r: i64, spare: nat): Inst {
    match dest
    case Some(d) => Inst(Cast, dest, [ConstInt(r)])
    case None => Inst(Add, Some(spare), [ConstInt(0), ConstInt(0)])
  }

  /** `inst` calls function `d` on the literals `xs`. */
  predicate CallsOn(inst: Inst, d: Decl, xs: seq<i64>) {
    && inst.op.Call? && |inst.ops| == |xs| + 1 && inst.ops[0] == Global(d.name)
    && forall k | 0 <= k < |xs| :: Literal(inst.ops[k + 1]) == Some(xs[k])
  }

  /** `mod'` is `mod` with instruction `k` of block `b` of function `i`, a call answering `r`, replaced. */
  ghost predicate Replaces(mod: Module, i: nat, b: nat, k: nat, d: Decl, xs: seq<i64>, r: i64, spare: nat,
        mod': Module) {
    && i < |mod| && WellFormed(mod[i].code) && b in mod[i].code.body && k < |mod[i].code.body[b]|
    && Lookup(mod, d.name) == Some(d) && CallsOn(mod[i].code.body[b][k], d, xs)
    && Unmentioned(mod[i].code, spare)
    && mod' == mod[i := mod[i].(code := WithConstant(mod[i].code, b, k, r, spare))]
  }

  function WithConstant(f: Func, b: nat, k: nat, r: i64, spare: nat): Func
    requires b in f.body && k < |f.body[b]|
  {
    f.(body := f.body[b := f.body[b][k := Constant(f.body[b][k].dest, r, spare)]])
  }

  ghost predicate Unmentioned(f: Func, spare: nat) {
    forall b, k | b in f.body && 0 <= k < |f.body[b]| :: !MentionsReg(f.body[b][k], spare)
  }

  // ---------------------------------------------------------------------------------------------
  // The two instructions agree

  lemma LiteralCallSays(mod: Module, pre: seq<i64>, inst: Inst, regs: Regs, d: Decl, xs: seq<i64>, r: i64, need: nat)
    requires CallsOn(inst, d, xs) && Lookup(mod, d.name) == Some(d) && AnswersBy(mod, d, xs, r, need)
    ensures StepSays(mod, pre, inst, regs, Gives(r), need + 1)
  {
    hide AnswersBy, StepSays;
    forall k | 0 <= k < |xs|
      ensures Reads(inst.ops[1..][k], regs, xs[k])
    {
      assert Literal(inst.ops[k + 1]) == Some(xs[k]);
    }
    CallSays(mod, pre, inst, regs, d, xs, r, need);
  }

  /** A call below its known answer has either not come back or returned it. */
  lemma CallSettles(m: Machine, mod: Module, params: seq<i64>, inst: Inst, regs: Regs, w: World, d: Decl, xs: seq<i64>,
        r: i64, need: nat, n: nat)
    requires CallsOn(inst, d, xs) && Lookup(mod, d.name) == Some(d) && AnswersBy(mod, d, xs, r, need)
    requires Linked(m, Names(mod))
    ensures var s := Step(Within(m, mod, n), params, inst, regs, w); s == Finish(OutOfFuel) || s == Next(r, w)
    ensures n > need ==> Step(Within(m, mod, n), params, inst, regs, w) == Next(r, w)
  {
    hide AnswersBy, Linked, Step, Within;
    LiteralCallSays(mod, [], inst, regs, d, xs, r, need);
    var k := Max(n, need + 1);
    assert [] <= params;
    assert Step(Within(m, mod, k), params, inst, regs, w) == Next(r, w);
    WithinGrows(m, mod, n, k);
    StepBelow(Within(m, mod, n), Within(m, mod, k), params, inst, regs, w);
  }

  lemma ConstantStep(m: Machine, params: seq<i64>, dest: Option<nat>, r: i64, spare: nat, regs: Regs, w: World)
    ensures Step(m, params, Constant(dest, r, spare), regs, w) == Next(if dest.Some? then r else 0, w)
  {
    var inst := Constant(dest, r, spare);
    var xs: seq<i64> := if dest.Some? then [r] else [0, 0];
    assert ReadAll(inst.ops, regs, xs);
    ReadAllEvaluates(m, inst.ops, regs, xs);
  }

  lemma WritesAgree(dest: Option<nat>, r: i64, spare: nat, regs: Regs, regs': Regs)
    requires AgreeExcept({spare}, regs, regs')
    ensures AgreeExcept({spare}, Write(regs, dest, r),
      Write(regs', Constant(dest, r, spare).dest, if dest.Some? then r else 0))
    ensures AgreeExcept({spare}, Write(regs', Constant(dest, r, spare).dest, if dest.Some? then r else 0),
      Write(regs, dest, r))
  {}

  // ---------------------------------------------------------------------------------------------
  // The block with the replaced call

  /** The machine either settles the call as the constant or has not settled it. */
  ghost predicate Settles(m: Machine, params: seq<i64>, inst: Inst, r: i64, always: bool) {
    forall regs: Regs, w: World ::
      Step(m, params, inst, regs, w) == Next(r, w) || (!always && Step(m, params, inst, regs, w) == Finish(OutOfFuel))
  }

  lemma {:induction false} ConstantFollows(m1: Machine, m2: Machine, params: seq<i64>, insts: seq<Inst>, k: nat,
        r: i64, spare: nat, regs: Regs, regs': Regs, w: World)
    requires k < |insts| && Below(m1, m2) && AgreeExcept({spare}, regs, regs')
    requires Settles(m1, params, insts[k], r, false)
    requires forall j | 0 <= j < |insts| && j != k :: NeverReads(insts[j], {spare})
    ensures ResultShared(RunBlock(m1, params, insts, regs, w),
      RunBlock(m2, params, insts[k := Constant(insts[k].dest, r, spare)], regs', w), {spare})
    decreases |insts|
  {
    hide Step, Below, NeverReads, AgreeExcept, Constant;
    var insts' := insts[k := Constant(insts[k].dest, r, spare)];
    var rest := insts[1..];
    assert forall j | 0 <= j < |rest| :: rest[j] == insts[j + 1];
    if k == 0 {
      ConstantStep(m2, params, insts[0].dest, r, spare, regs', w);
      WritesAgree(insts[0].dest, r, spare, regs, regs');
      assert insts'[1..] == rest;
      if Step(m1, params, insts[0], regs, w) == Next(r, w) {
        BlockShared(m1, m2, params, rest, {spare}, Write(regs, insts[0].dest, r),
          Write(regs', insts'[0].dest, if insts[0].dest.Some? then r else 0), w);
      }
    } else {
      assert insts'[1..] == rest[k - 1 := Constant(rest[k - 1].dest, r, spare)];
      StepShared(m1, m2, params, insts[0], {spare}, regs, regs', w);
      match Step(m1, params, insts[0], regs, w)
      case Next(v, w') =>
        SameWrite(insts[0].dest, v, {spare}, regs, regs');
        ConstantFollows(m1, m2, params, rest, k - 1, r, spare, Write(regs, insts[0].dest, v),
          Write(regs', insts[0].dest, v), w');
      case _ =>
    }
  }

  lemma {:induction false} CallFollows(m1: Machine, m2: Machine, params: seq<i64>, insts: seq<Inst>, k: nat, r: i64,
        spare: nat, regs: Regs, regs': Regs, w: World)
    requires k < |insts| && Below(m1, m2) && AgreeExcept({spare}, regs, regs') && Settles(m2, params, insts[k], r, true)
    requires forall j | 0 <= j < |insts| && j != k :: NeverReads(insts[j], {spare})
    ensures ResultShared(RunBlock(m1, params, insts[k := Constant(insts[k].dest, r, spare)], regs, w),
      RunBlock(m2, params, insts, regs', w), {spare})
    decreases |insts|
  {
    hide Step, Below, NeverReads, AgreeExcept, Constant;
    var insts' := insts[k := Constant(insts[k].dest, r, spare)];
    var rest := insts[1..];
    assert forall j | 0 <= j < |rest| :: rest[j] == insts[j + 1];
    if k == 0 {
      ConstantStep(m1, params, insts[0].dest, r, spare, regs, w);
      AgreeSymmetric({spare}, regs, regs');
      WritesAgree(insts[0].dest, r, spare, regs', regs);
      assert insts'[1..] == rest;
      BlockShared(m1, m2, params, rest, {spare}, Write(regs, insts'[0].dest, if insts[0].dest.Some? then r else 0),
        Write(regs', insts[0].dest, r), w);
    } else {
      assert insts'[1..] == rest[k - 1 := Constant(rest[k - 1].dest, r, spare)];
      StepShared(m1, m2, params, insts[0], {spare}, regs, regs', w);
      match Step(m1, params, insts[0], regs, w)
      case Next(v, w') =>
        SameWrite(insts[0].dest, v, {spare}, regs, regs');
        CallFollows(m1, m2, params, rest, k - 1, r, spare, Write(regs, insts[0].dest, v),
          Write(regs', insts[0].dest, v), w');
      case _ =>
    }
  }

  lemma SameWrite(dest: Option<nat>, v: i64, odd: set<nat>, regs: Regs, regs': Regs)
    requires AgreeExcept(odd, regs, regs')
    ensures AgreeExcept(odd, Write(regs, dest, v), Write(regs', dest, v))
  {}

  lemma AgreeSymmetric(odd: set<nat>, regs: Regs, regs': Regs)
    requires AgreeExcept(odd, regs, regs')
    ensures AgreeExcept(odd, regs', regs)
  {}

  // ---------------------------------------------------------------------------------------------
  // Whole runs and the whole module

  /** Every block of `f` on `m1` is followed by the same block of `g` on `m2`. */
  ghost predicate BlocksFollow(m1: Machine, f: Func, m2: Machine, g: Func, params: seq<i64>, odd: set<nat>) {
    && g.body.Keys == f.body.Keys && g.order == f.order
    && forall x: nat, regs: Regs, regs': Regs, w: World | x in f.body && x in g.body && AgreeExcept(odd, regs, regs') ::
      ResultShared(RunBlock(m1, params, f.body[x], regs, w), RunBlock(m2, params, g.body[x], regs', w), odd)
  }

  lemma {:induction false} RunFollows(m1: Machine, f: Func, m2: Machine, g: Func, params: seq<i64>, odd: set<nat>,
        x: nat, regs: Regs, regs': Regs, w: World, n: nat, k: nat)
    requires BlocksFollow(m1, f, m2, g, params, odd) && AgreeExcept(odd, regs, regs') && n <= k
    ensures Run(m1, f, params, x, regs, w, n) == OutOfFuel ||
      Run(m2, g, params, x, regs', w, k) == Run(m1, f, params, x, regs, w, n)
    decreases n
  {
    hide RunBlock, AgreeExcept;
    if n > 0 && x in f.body {
      var r, r' := RunBlock(m1, params, f.body[x], regs, w), RunBlock(m2, params, g.body[x], regs', w);
      assert ResultShared(r, r', odd);
      if r.Goto? { RunFollows(m1, f, m2, g, params, odd, r.id, r.regs, r'.regs, r.w, n - 1, k - 1); }
    }
  }

  lemma BlocksWithConstant(m1: Machine, m2: Machine, f: Func, b: nat, k: nat, r: i64, spare: nat, params: seq<i64>)
    requires b in f.body && k < |f.body[b]| && Below(m1, m2) && Unmentioned(f, spare)
    ensures Settles(m1, params, f.body[b][k], r, false) ==>
      BlocksFollow(m1, f, m2, WithConstant(f, b, k, r, spare), params, {spare})
    ensures Settles(m2, params, f.body[b][k], r, true) ==>
      BlocksFollow(m1, WithConstant(f, b, k, r, spare), m2, f, params, {spare})
  {
    hide RunBlock, AgreeExcept, Below, ResultShared, Settles, Constant;
    var g := WithConstant(f, b, k, r, spare);
    assert g.body.Keys == f.body.Keys;
    forall x, j | x in f.body && 0 <= j < |f.body[x]|
      ensures NeverReads(f.body[x][j], {spare})
    {
      assert !MentionsReg(f.body[x][j], spare);
    }
    forall x: nat, regs: Regs, regs': Regs, w: World | x in f.body && AgreeExcept({spare}, regs, regs')
      ensures Settles(m1, params, f.body[b][k], r, false) ==>
        ResultShared(RunBlock(m1, params, f.body[x], regs, w), RunBlock(m2, params, g.body[x], regs', w), {spare})
      ensures Settles(m2, params, f.body[b][k], r, true) ==>
        ResultShared(RunBlock(m1, params, g.body[x], regs, w), RunBlock(m2, params, f.body[x], regs', w), {spare})
    {
      if x != b {
        assert g.body[x] == f.body[x];
        BlockShared(m1, m2, params, f.body[x], {spare}, regs, regs', w);
      } else {
        if Settles(m1, params, f.body[b][k], r, false) {
          ConstantFollows(m1, m2, params, f.body[b], k, r, spare, regs, regs', w);
        }
        if Settles(m2, params, f.body[b][k], r, true) {
          CallFollows(m1, m2, params, f.body[b], k, r, spare, regs, regs', w);
        }
      }
    }
  }

  lemma EnterFollows(m1: Machine, d1: Decl, m2: Machine, d2: Decl, params: seq<i64>, odd: set<nat>, w: World, n: nat,
        k: nat)
    requires BlocksFollow(m1, d1.code, m2, d2.code, params, odd) && d1.fast == d2.fast && n <= k
    ensures Enter(m1, d1, params, w, n) == OutOfFuel || Enter(m2, d2, params, w, k) == Enter(m1, d1, params, w, n)
  {
    hide Run;
    assert d1.code.order == d2.code.order;
    if d1.code.order != [] {
      RunFollows(m1, d1.code, m2, d2.code, params, odd, d1.code.order[0], map[], map[], w, n, k);
    }
  }

  lemma SettlesWithin(m: Machine, mod: Module, params: seq<i64>, inst: Inst, d: Decl, xs: seq<i64>, r: i64, need: nat,
        n: nat)
    requires CallsOn(inst, d, xs) && Lookup(mod, d.name) == Some(d) && AnswersBy(mod, d, xs, r, need)
    requires Linked(m, Names(mod))
    ensures Settles(Within(m, mod, n), params, inst, r, n > need)
  {
    hide AnswersBy, Linked, Step, Within, CallsOn;
    forall regs: Regs, w: World
      ensures Step(Within(m, mod, n), params, inst, regs, w) == Next(r, w) ||
        (!(n > need) && Step(Within(m, mod, n), params, inst, regs, w) == Finish(OutOfFuel))
    {
      CallSettles(m, mod, params, inst, regs, w, d, xs, r, need, n);
    }
  }

  lemma ReplacedFollows(m: Machine, mod: Module, i: nat, b: nat, k: nat, d: Decl, xs: seq<i64>, r: i64, spare: nat,
        mod': Module, need: nat)
    requires Replaces(mod, i, b, k, d, xs, r, spare, mod') && AnswersBy(mod, d, xs, r, need) && Linked(m, Names(mod))
    ensures Carries(m, mod, mod', 0) && Carries(m, mod', mod, need + 1)
  {
    hide AnswersBy, Linked, Within, Below, Enter, CallsOn, WithConstant, WellFormed, Unmentioned, BlocksFollow;
    forall n: nat, j: nat, params: seq<i64>, w: World | j < |mod| && Below(Within(m, mod, n), Within(m, mod', n))
      ensures Invoke(m, mod, mod[j], params, w, n) == OutOfFuel ||
        Invoke(m, mod', mod'[j], params, w, n) == Invoke(m, mod, mod[j], params, w, n)
    {
      var m1, m2 := Within(m, mod, n), Within(m, mod', n);
      if j == i {
        SettlesWithin(m, mod, params, mod[i].code.body[b][k], d, xs, r, need, n);
        assert Settles(m1, params, mod[i].code.body[b][k], r, false);
        BlocksWithConstant(m1, m2, mod[i].code, b, k, r, spare, params);
        EnterFollows(m1, mod[i], m2, mod'[i], params, {spare}, w, n, n);
      } else {
        EnterBelow(m1, m2, mod[j], params, w, n, n);
      }
    }
    forall n: nat, j: nat, params: seq<i64>, w: World | j < |mod| &&
      Below(Within(m, mod', n), Within(m, mod, n + (need + 1)))
      ensures Invoke(m, mod', mod'[j], params, w, n) == OutOfFuel ||
        Invoke(m, mod, mod[j], params, w, n + (need + 1)) == Invoke(m, mod', mod'[j], params, w, n)
    {
      var m1, m2 := Within(m, mod', n), Within(m, mod, n + (need + 1));
      if j == i {
        SettlesWithin(m, mod, params, mod[i].code.body[b][k], d, xs, r, need, n + (need + 1));
        BlocksWithConstant(m1, m2, mod[i].code, b, k, r, spare, params);
        EnterFollows(m1, mod'[i], m2, mod[i], params, {spare}, w, n, n + (need + 1));
      } else {
        EnterBelow(m1, m2, mod[j], params, w, n, n + (need + 1));
      }
    }
  }

  /** Replacing a call by its known answer keeps every call of every function of the module. */
  lemma ReplacementKeepsCalls(mod: Module, i: nat, b: nat, k: nat, d: Decl, xs: seq<i64>, r: i64, spare: nat,
        mod': Module, need: nat)
    requires Replaces(mod, i, b, k, d, xs, r, spare, mod') && AnswersBy(mod, d, xs, r, need)
    ensures SameCalls(mod, mod')
  {
    hide AnswersBy, Linked, Carries, SameCalls, CallsOn, WithConstant, WellFormed, Unmentioned;
    forall m: Machine | Linked(m, Names(mod))
      ensures Carries(m, mod, mod', 0) && Carries(m, mod', mod, need + 1)
    {
      ReplacedFollows(m, mod, i, b, k, d, xs, r, spare, mod', need);
    }
    BothWays(mod, mod', 0, need + 1);
  }
}
