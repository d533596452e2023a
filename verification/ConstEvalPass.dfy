/** The constant-evaluation pass over a module. */
module ConstEvalPass {
  import opened Sir
  import opened SirFunctions
  import opened SirModules
  import opened Evaluate
  import opened Interpret
  import opened ModuleLift
  import opened ModulePass
  import opened Purity
  import opened VmExecutes
  import opened Courses
  import opened Swaps
  import opened Assigned
  import opened ConstEval
  import opened Fitness

  /** The values of a call's arguments if all of them are literals. */
  method LiteralArgs(inst: Inst) returns (xs: Option<seq<i64>>)
    requires inst.op.Call? && inst.ops != []
    ensures match xs
            case Some(v) => |inst.ops| == |v| + 1 && forall k | 0 <= k < |v| :: Literal(inst.ops[k + 1]) == Some(v[k])
            case None => exists k :: 1 <= k < |inst.ops| && Literal(inst.ops[k]).None?
  {
    var got: seq<i64> := [];
    for k := 1 to |inst.ops|
      invariant |got| == k - 1 && forall j | 0 <= j < |got| :: Literal(inst.ops[j + 1]) == Some(got[j])
    {
      match inst.ops[k]
      case ConstInt(i) => got := got + [i];
      case ConstBool(b) => got := got + [if b then 1 else 0];
      case _ => return None;
    }
    return Some(got);
  }

  // ---------------------------------------------------------------------------------------------
  // The module stays fit for the machine

  lemma ConstantOk(call: Inst, r: i64, spare: nat, mod: Module, n: nat)
    requires call.op.Call?
    ensures var inst := Constant(call.dest, r, spare);
      ShapeOk(inst) && OperandsOk(inst) && CallMatches(mod, inst) && ParamBelow(inst, n)
      && !inst.op.IsTerminator() && !inst.op.Call? && Targets(inst) == {}
  {}

  lemma WithConstantBlock(insts: seq<Inst>, k: nat, r: i64, spare: nat)
    requires BlockOk(insts) && k < |insts| && insts[k].op.Call?
    ensures var insts' := insts[k := Constant(insts[k].dest, r, spare)];
      BlockOk(insts') && Successors(insts') == Successors(insts)
  {
    hide ShapeOk;
    ConstantOk(insts[k], r, spare, [], 0);
  }

  lemma WithConstantOk(f: Func, b: nat, k: nat, r: i64, spare: nat)
    requires CodeOk(f) && b in f.body && k < |f.body[b]| && f.body[b][k].op.Call?
    ensures CodeOk(WithConstant(f, b, k, r, spare))
  {
    hide BlockOk, Successors, OperandsOk, Constant;
    ConstantOk(f.body[b][k], r, spare, [], 0);
    WithConstantBlock(f.body[b], k, r, spare);
    var g := WithConstant(f, b, k, r, spare);
    assert g.body.Keys == f.body.Keys;
    forall x | x in g.body
      ensures BlockOk(g.body[x]) && Successors(g.body[x]) <= g.body.Keys
    {
      if x != b { assert g.body[x] == f.body[x]; }
    }
  }

  lemma WithConstantFits(mod: Module, f: Func, b: nat, k: nat, r: i64, spare: nat, n: nat)
    requires b in f.body && k < |f.body[b]| && f.body[b][k].op.Call?
    ensures var g := WithConstant(f, b, k, r, spare);
      && (CallsMatch(mod, f) ==> CallsMatch(mod, g)) && (NeedsParams(f, n) ==> NeedsParams(g, n))
      && (CallsDirectly(f) ==> CallsDirectly(g))
  {
    hide CallMatches, ParamBelow, Constant;
    ConstantOk(f.body[b][k], r, spare, mod, n);
  }

  lemma WithConstantStaysFit(f: Func, b: nat, k: nat, r: i64, spare: nat)
    requires b in f.body && k < |f.body[b]| && f.body[b][k].op.Call?
    ensures StaysFit(f, WithConstant(f, b, k, r, spare))
  {
    hide CodeOk, CallsMatch, NeedsParams, CallsDirectly, KeepsAssigned, WithConstant;
    if CodeOk(f) {
      WithConstantOk(f, b, k, r, spare);
      WithConstantAssigned(f, b, k, r, spare);
      WithConstantFits([], f, b, k, r, spare, 0);
      forall n: nat | NeedsParams(f, n) { WithConstantFits([], f, b, k, r, spare, n); }
      forall mod: Module | CallsMatch(mod, f) { WithConstantFits(mod, f, b, k, r, spare, 0); }
    }
  }

  lemma WithConstantAssigned(f: Func, b: nat, k: nat, r: i64, spare: nat)
    requires CodeOk(f) && b in f.body && k < |f.body[b]| && f.body[b][k].op.Call?
    ensures KeepsAssigned(f, WithConstant(f, b, k, r, spare))
  {
    hide BlockOk, Successors, OperandsOk, KeepsAssigned, BlockNoWorse;
    var g := WithConstant(f, b, k, r, spare);
    assert f.order[0] in (set x | x in f.order);
    WithConstantBlock(f.body[b], k, r, spare);
    InPlaceIsNoWorse(f.body[b], g.body[b]);
    forall x | x in g.body
      ensures BlockNoWorse(f.body[x], g.body[x])
    {
      if x != b { SameIsNoWorse(f.body[x]); }
    }
    NoWorseKeeps(f, g);
  }

  /** Replacing a call leaves a module the machine can still run. */
  lemma ReplacedIsVmOk(mod: Module, i: nat, b: nat, k: nat, r: i64, spare: nat)
    requires VmOk(mod) && i < |mod| && b in mod[i].code.body && k < |mod[i].code.body[b]|
    requires mod[i].code.body[b][k].op.Call?
    ensures var mod' := mod[i := mod[i].(code := WithConstant(mod[i].code, b, k, r, spare))];
      VmOk(mod') && SameNames(mod, mod')
  {
    hide CodeOk, CallMatches, IsAssigned, WithConstant, NeedsParams, ModuleOk, CallsMatch;
    var mod' := mod[i := mod[i].(code := WithConstant(mod[i].code, b, k, r, spare))];
    FunctionOk(mod, i);
    WithConstantOk(mod[i].code, b, k, r, spare);
    ReplaceKeepsOk(mod, i, WithConstant(mod[i].code, b, k, r, spare));
    forall n: nat
      ensures NeedsParams(mod[i].code, n) ==> NeedsParams(mod'[i].code, n)
    {
      WithConstantFits(mod, mod[i].code, b, k, r, spare, n);
    }
    forall j: nat | j < |mod|
      ensures IsAssigned(mod'[j].code, VREGS) && CallsMatch(mod', mod'[j].code)
    {
      StillMatches(mod, mod', i, mod[j].code);
      if j == i {
        WithConstantFits(mod', mod[i].code, b, k, r, spare, 0);
        WithConstantAssigned(mod[i].code, b, k, r, spare);
      }
    }
  }

  // ---------------------------------------------------------------------------------------------
  // What the pass may not leave in place

  /** Some run of the call returns, nests at most 20000 deep and takes at most ten thousand million steps. */
  ghost predicate Answerable(mod: Module, d: Decl, xs: seq<i64>) {
    exists c: Course :: Affordable(mod, c, d, xs, 0, 0)
  }

  /** A call of a function of `p` on at most 16 literals that is answerable in `mod`. */
  ghost predicate Evaluable(mod: Module, p: set<nat>, inst: Inst) {
    && inst.op.Call? && 0 < |inst.ops| <= 17 && inst.ops[0].Global? && IndexOf(mod, inst.ops[0].name).Some?
    && var j := IndexOf(mod, inst.ops[0].name).value;
    j in p && exists xs: seq<i64> :: CallsOn(inst, mod[j], xs) && Answerable(mod, mod[j], xs)
  }

  /** None of the first `n` instructions is such a call. */
  ghost predicate BlockClear(mod: Module, p: set<nat>, insts: seq<Inst>, n: nat) {
    forall k | 0 <= k < |insts| && k < n :: !Evaluable(mod, p, insts[k])
  }

  ghost predicate CodeClear(mod: Module, p: set<nat>, f: Func) {
    forall b | b in f.body :: BlockClear(mod, p, f.body[b], |f.body[b]|)
  }

  /** What was answerable in `mod` is answerable in `mod'`. */
  ghost predicate StaysAnswerable(mod: Module, mod': Module) {
    && SameNames(mod, mod')
    && forall j: nat, xs: seq<i64> | j < |mod| && Answerable(mod, mod[j], xs) :: Answerable(mod', mod'[j], xs)
  }

  lemma AnswerableBy(mod: Module, d: Decl, xs: seq<i64>) returns (c: Course)
    ensures Answerable(mod, d, xs) ==> Affordable(mod, c, d, xs, 0, 0)
  {
    hide Affordable;
    if Answerable(mod, d, xs) {
      c :| Affordable(mod, c, d, xs, 0, 0);
    } else {
      c := Course(Machine(_ => 0, (_, _) => None, (_, _, _) => Stop(Fault)), World(map[], [], []), 0, 0);
    }
  }

  lemma StaysAnswerableTransitive(a: Module, b: Module, c: Module)
    requires StaysAnswerable(a, b) && StaysAnswerable(b, c)
    ensures StaysAnswerable(a, c)
  {
    hide Answerable;
  }

  lemma ReplacementStaysAnswerable(mod: Module, i: nat, b: nat, k: nat, d: Decl, xs: seq<i64>, r: i64, spare: nat,
        mod': Module, need: nat)
    requires Replaces(mod, i, b, k, d, xs, r, spare, mod') && AnswersBy(mod, d, xs, r, need)
    ensures StaysAnswerable(mod, mod')
  {
    hide AnswersBy, Affordable, CallsOn, WithConstant, WellFormed, Unmentioned, Replaces;
    assert SameNames(mod, mod') by { ReplacementKeepsNames(mod, i, b, k, d, xs, r, spare, mod'); }
    forall j: nat, ys: seq<i64> | j < |mod| && Answerable(mod, mod[j], ys)
      ensures Answerable(mod', mod'[j], ys)
    {
      var c := AnswerableBy(mod, mod[j], ys);
      ReplacementStaysAffordable(mod, i, b, k, d, xs, r, spare, mod', need, c, j, ys, 0, 0);
    }
  }

  lemma ReplacementKeepsNames(mod: Module, i: nat, b: nat, k: nat, d: Decl, xs: seq<i64>, r: i64, spare: nat,
        mod': Module)
    requires Replaces(mod, i, b, k, d, xs, r, spare, mod')
    ensures SameNames(mod, mod')
  {
    hide CallsOn, WithConstant, WellFormed, Unmentioned;
  }

  /** A call that the machine does not answer in `now` was not answerable in `mod`. */
  lemma Unanswered(mod: Module, now: Module, p: set<nat>, inst: Inst, xs: seq<i64>)
    requires StaysAnswerable(mod, now) && inst.op.Call? && inst.ops != [] && inst.ops[0].Global?
    requires IndexOf(now, inst.ops[0].name).Some? && |inst.ops| == |xs| + 1
    requires forall k | 0 <= k < |xs| :: Literal(inst.ops[k + 1]) == Some(xs[k])
    requires !Answerable(now, now[IndexOf(now, inst.ops[0].name).value], xs)
    ensures !Evaluable(mod, p, inst)
  {
    hide Answerable;
    SameIndex(mod, now, inst.ops[0].name);
    var j := IndexOf(mod, inst.ops[0].name).value;
    forall ys: seq<i64> | CallsOn(inst, mod[j], ys)
      ensures ys == xs
    {
      assert forall k | 0 <= k < |xs| :: Some(ys[k]) == Some(xs[k]);
    }
  }

  lemma NotOnLiterals(mod: Module, p: set<nat>, inst: Inst)
    requires exists k :: 1 <= k < |inst.ops| && Literal(inst.ops[k]).None?
    ensures !Evaluable(mod, p, inst)
  {
    hide Answerable;
    var k :| 1 <= k < |inst.ops| && Literal(inst.ops[k]).None?;
    if Evaluable(mod, p, inst) {
      var j := IndexOf(mod, inst.ops[0].name).value;
      var xs: seq<i64> :| CallsOn(inst, mod[j], xs);
      LiteralOperand(inst, mod[j], xs, k);
      assert false;
    }
  }

  lemma LiteralOperand(inst: Inst, d: Decl, xs: seq<i64>, k: nat)
    requires CallsOn(inst, d, xs) && 1 <= k < |inst.ops|
    ensures Literal(inst.ops[k]).Some?
  {
    assert Literal(inst.ops[k - 1 + 1]) == Some(xs[k - 1]);
  }

  // ---------------------------------------------------------------------------------------------
  // The flagged functions stay closed, and fitted the machine before if they do afterwards

  lemma ConstantStaysPure(mod: Module, p: set<nat>, call: Inst, r: i64, spare: nat)
    requires call.op.Call?
    ensures PureInst(mod, p, Constant(call.dest, r, spare))
    ensures InLimits(Constant(call.dest, r, spare)) && call.dest.Some? ==> call.dest.value < 256
  {}

  lemma ReplacedStaysClosed(mod: Module, i: nat, b: nat, k: nat, r: i64, spare: nat, p: set<nat>)
    requires i < |mod| && b in mod[i].code.body && k < |mod[i].code.body[b]| && mod[i].code.body[b][k].op.Call?
    requires ClosedUnderCalls(mod, p)
    ensures ClosedUnderCalls(mod[i := mod[i].(code := WithConstant(mod[i].code, b, k, r, spare))], p)
  {
    hide InLimits, Constant;
    var mod' := mod[i := mod[i].(code := WithConstant(mod[i].code, b, k, r, spare))];
    ConstantStaysPure(mod', p, mod[i].code.body[b][k], r, spare);
    forall j, x, q | j in p && x in mod'[j].code.body && 0 <= q < |mod'[j].code.body[x]|
      ensures PureInst(mod', p, mod'[j].code.body[x][q])
    {
      if j != i || x != b || q != k {
        assert mod'[j].code.body[x][q] == mod[j].code.body[x][q];
        StaysPure(mod, mod', p, mod[j].code.body[x][q]);
      }
    }
  }

  lemma StaysPure(mod: Module, mod': Module, p: set<nat>, inst: Inst)
    requires SameNames(mod, mod') && PureInst(mod, p, inst)
    ensures PureInst(mod', p, inst)
  {
    if inst.op.Call? { SameIndex(mod, mod', inst.ops[0].name); }
  }

  lemma LiteralCallInLimits(inst: Inst, d: Decl, xs: seq<i64>, r: i64, spare: nat)
    requires CallsOn(inst, d, xs) && |xs| <= 16 && InLimits(Constant(inst.dest, r, spare))
    ensures InLimits(inst)
  {
    forall k | 0 <= k < |inst.ops|
      ensures OperandInLimits(inst, k)
    {
      if k > 0 { assert Literal(inst.ops[k - 1 + 1]) == Some(xs[k - 1]); }
    }
  }

  lemma ReplacedWasEnabled(mod: Module, i: nat, b: nat, k: nat, d: Decl, xs: seq<i64>, r: i64, spare: nat, mod': Module,
        p: set<nat>)
    requires Replaces(mod, i, b, k, d, xs, r, spare, mod') && |xs| <= 16 && ClosedUnderCalls(mod, p)
    requires Enabled(mod', p)
    ensures Enabled(mod, p)
  {
    hide InLimits, Constant, CallsOn, PureInst, WellFormed;
    forall j, x, q | j in p && j < |mod| && x in mod[j].code.body && 0 <= q < |mod[j].code.body[x]|
      ensures InLimits(mod[j].code.body[x][q])
    {
      assert CodeInLimits(mod'[j].code);
      assert x in mod'[j].code.body && InLimits(mod'[j].code.body[x][q]);
      if j == i && x == b && q == k { LiteralCallInLimits(mod[j].code.body[x][q], d, xs, r, spare); }
    }
  }

  /** The functions fit the machine, and all their calls have destinations, so that no register is added to them. */
  ghost predicate Roomy(mod: Module, p: set<nat>) {
    Enabled(mod, p) && forall i, b, k | i in p && i < |mod| && b in mod[i].code.body &&
      0 <= k < |mod[i].code.body[b]| ::
      mod[i].code.body[b][k].op.Call? ==> mod[i].code.body[b][k].dest.Some?
  }

  lemma ReplacedStaysRoomy(mod: Module, i: nat, b: nat, k: nat, r: i64, spare: nat, p: set<nat>)
    requires i < |mod| && b in mod[i].code.body && k < |mod[i].code.body[b]| && mod[i].code.body[b][k].op.Call?
    requires Roomy(mod, p)
    ensures Roomy(mod[i := mod[i].(code := WithConstant(mod[i].code, b, k, r, spare))], p)
  {
    hide PureInst, ClosedUnderCalls, OperandInLimits;
    ReplacedStaysClosed(mod, i, b, k, r, spare, p);
    var mod' := mod[i := mod[i].(code := WithConstant(mod[i].code, b, k, r, spare))];
    forall j, x, q | j in p && j < |mod'| && x in mod'[j].code.body && 0 <= q < |mod'[j].code.body[x]|
      ensures InLimits(mod'[j].code.body[x][q])
      ensures mod'[j].code.body[x][q].op.Call? ==> mod'[j].code.body[x][q].dest.Some?
    {
      assert CodeInLimits(mod[j].code) && InLimits(mod[j].code.body[x][q]);
      if j == i && x == b && q == k {
        ConstantInLimits(mod[i].code.body[b][k].dest.value, r, spare);
      } else {
        assert mod'[j].code.body[x][q] == mod[j].code.body[x][q];
      }
    }
  }

  lemma ConstantInLimits(dest: nat, r: i64, spare: nat)
    requires dest < 256
    ensures InLimits(Constant(Some(dest), r, spare))
  {}

  // ---------------------------------------------------------------------------------------------
  // The pass

  /** Function `i` keeps its blocks and their lengths, and its registers stay below `next`. */
  ghost predicate SameLayout(f: Func, g: Func) {
    && g.order == f.order
    && g.body.Keys == f.body.Keys
    && forall b | b in f.body && b in g.body :: |g.body[b]| == |f.body[b]|
  }

  /** Nothing but instruction `k` of block `b` of function `i` has changed. */
  ghost predicate OnlyAt(mod: Module, mod': Module, i: nat, b: nat, k: nat) {
    && |mod'| == |mod| && (forall j | 0 <= j < |mod| && j != i :: mod'[j] == mod[j])
    && i < |mod| && SameLayout(mod[i].code, mod'[i].code)
    && forall x, q | x in mod[i].code.body && x in mod'[i].code.body && 0 <= q < |mod[i].code.body[x]| &&
        q < |mod'[i].code.body[x]| && !(x == b && q == k) ::
      mod'[i].code.body[x][q] == mod[i].code.body[x][q]
  }

  /** What a pass that started from `mod0` keeps: nothing has become unanswerable, functions that fit the machine now
      did so before, and functions whose calls all have destinations still fit. */
  ghost predicate Keeps(mod0: Module, p: set<nat>, mod: Module, mod': Module) {
    && StaysAnswerable(mod0, mod') && ClosedUnderCalls(mod', p) && (Enabled(mod', p) ==> Enabled(mod, p))
    && (Roomy(mod, p) ==> Roomy(mod', p))
  }

  /** One instruction: a call of a pure function on literals is run and, if it returns, replaced. */
  method TryReplace(md: SirModule, pure: array<bool>, i: nat, b: nat, k: nat, next: nat, ghost mod0: Module)
    returns (next': nat)
    requires VmOk(md.funcs) && pure.Length == |md.funcs| && i < |md.funcs|
    requires b in md.funcs[i].code.body && k < |md.funcs[i].code.body[b]| && InRange(md.funcs[i].code, next)
    requires StaysAnswerable(mod0, md.funcs) && ClosedUnderCalls(md.funcs, Flagged(pure))
    modifies md
    ensures VmOk(md.funcs) && |md.funcs| == old(|md.funcs|) && SameCalls(old(md.funcs), md.funcs)
    ensures KeepsFit(old(md.funcs), md.funcs)
    ensures InRange(md.funcs[i].code, next') && OnlyAt(old(md.funcs), md.funcs, i, b, k)
    ensures Keeps(mod0, Flagged(pure), old(md.funcs), md.funcs)
    ensures Enabled(md.funcs, Flagged(pure)) ==> !Evaluable(mod0, Flagged(pure), md.funcs[i].code.body[b][k])
  {
    hide VmOk, SameCalls, InRange, WithConstant, CodeOk, AnswersBy, Accepts, WellFormed, Fit, StaysFit, Enabled,
      Answerable, Affordable, StaysAnswerable, ClosedUnderCalls, Evaluable, Replaces, Literal, KeepsFit;
    ghost var mod, p := md.funcs, Flagged(pure);
    next' := next;
    SameCallsReflexive(mod);
    KeepsFitReflexive(mod);
    FunctionFits(mod, i);
    OkParts(mod[i].code, b, k);
    var inst := md.funcs[i].code.body[b][k];
    NeverEvaluable(mod0, p, inst);
    if !inst.op.Call? || !inst.ops[0].Global? { return; }
    var callee := FindFunction(md.funcs, inst.ops[0].name);
    StaysFound(mod0, mod, inst.ops[0].name);
    if callee.None? || !pure[callee.value] || |inst.ops| - 1 > MAX_ARGS { return; }
    var xs := LiteralArgs(inst);
    if xs.None? {
      NotOnLiterals(mod0, p, inst);
      return;
    }
    CalleeAccepts(mod, i, b, k);
    ghost var c := AnswerableBy(mod, mod[callee.value], xs.value);
    var r, steps, need := VmExecute(md.funcs, pure, callee.value, xs.value, 0, 0, c);
    if r.None? {
      if Enabled(mod, p) { Unanswered(mod0, mod, p, inst, xs.value); }
      return;
    }
    if inst.dest.None? { next' := next + 1; }
    md.funcs := md.funcs[i := md.funcs[i].(code := WithConstant(md.funcs[i].code, b, k, r.value, next + 1))];
    CallReplaced(mod0, mod, i, b, k, callee.value, xs.value, r.value, next, need, p);
  }

  lemma CallReplaced(mod0: Module, mod: Module, i: nat, b: nat, k: nat, j: nat, xs: seq<i64>, r: i64, next: nat,
        need: nat, p: set<nat>)
    requires VmOk(mod) && i < |mod| && b in mod[i].code.body && k < |mod[i].code.body[b]|
    requires var inst := mod[i].code.body[b][k];
      && inst.op.Call? && |inst.ops| == |xs| + 1 && inst.ops[0].Global? && IndexOf(mod, inst.ops[0].name) == Some(j)
      && forall q | 0 <= q < |xs| :: Literal(inst.ops[q + 1]) == Some(xs[q])
    requires AnswersBy(mod, mod[j], xs, r, need) && |xs| <= 16 && InRange(mod[i].code, next)
    requires StaysAnswerable(mod0, mod) && ClosedUnderCalls(mod, p)
    ensures var mod' := mod[i := mod[i].(code := WithConstant(mod[i].code, b, k, r, next + 1))];
      && VmOk(mod') && SameCalls(mod, mod') && KeepsFit(mod, mod') && OnlyAt(mod, mod', i, b, k)
      && InRange(mod'[i].code, if mod[i].code.body[b][k].dest.None? then next + 1 else next)
      && Keeps(mod0, p, mod, mod') && !Evaluable(mod0, p, mod'[i].code.body[b][k])
  {
    hide VmOk, SameCalls, InRange, WithConstant, CodeOk, AnswersBy, WellFormed, Fit, StaysFit, StaysAnswerable,
      ClosedUnderCalls, Evaluable, Replaces, Literal, KeepsFit, Keeps, OnlyAt;
    var mod' := mod[i := mod[i].(code := WithConstant(mod[i].code, b, k, r, next + 1))];
    FunctionFits(mod, i);
    OkParts(mod[i].code, b, k);
    SpareIsFree(mod[i].code, next);
    IsReplacement(mod, i, b, k, j, xs, r, next + 1);
    Replaced(mod0, mod, i, b, k, mod[j], xs, r, next + 1, mod', need, p);
    ReplacementKeepsCalls(mod, i, b, k, mod[j], xs, r, next + 1, mod', need);
    ReplacedIsVmOk(mod, i, b, k, r, next + 1);
    WithConstantStaysFit(mod[i].code, b, k, r, next + 1);
    ReplaceKeepsFit(mod, i, WithConstant(mod[i].code, b, k, r, next + 1));
    LayoutStays(mod[i].code, b, k, r, next);
  }

  lemma KeepsFitReflexive(mod: Module)
    ensures KeepsFit(mod, mod)
  {}

  lemma IsReplacement(mod: Module, i: nat, b: nat, k: nat, j: nat, xs: seq<i64>, r: i64, spare: nat)
    requires i < |mod| && WellFormed(mod[i].code) && b in mod[i].code.body && k < |mod[i].code.body[b]|
    requires Unmentioned(mod[i].code, spare)
    requires var inst := mod[i].code.body[b][k];
      && inst.op.Call? && |inst.ops| == |xs| + 1 && inst.ops[0].Global? && IndexOf(mod, inst.ops[0].name) == Some(j)
      && forall q | 0 <= q < |xs| :: Literal(inst.ops[q + 1]) == Some(xs[q])
    ensures Replaces(mod, i, b, k, mod[j], xs, r, spare,
      mod[i := mod[i].(code := WithConstant(mod[i].code, b, k, r, spare))])
  {
    hide WellFormed, Unmentioned, WithConstant;
    IndexIsLookup(mod, mod[i].code.body[b][k].ops[0].name);
  }

  /** What a replacement keeps, and that no call is in its place. */
  lemma Replaced(mod0: Module, mod: Module, i: nat, b: nat, k: nat, d: Decl, xs: seq<i64>, r: i64, spare: nat,
        mod': Module, need: nat, p: set<nat>)
    requires Replaces(mod, i, b, k, d, xs, r, spare, mod') && AnswersBy(mod, d, xs, r, need) && |xs| <= 16
    requires StaysAnswerable(mod0, mod) && ClosedUnderCalls(mod, p)
    ensures Keeps(mod0, p, mod, mod') && OnlyAt(mod, mod', i, b, k)
    ensures !Evaluable(mod0, p, mod'[i].code.body[b][k])
  {
    hide AnswersBy, WellFormed, StaysAnswerable, Enabled, ClosedUnderCalls, Unmentioned;
    ReplacementStaysAnswerable(mod, i, b, k, d, xs, r, spare, mod', need);
    StaysAnswerableTransitive(mod0, mod, mod');
    ReplacedStaysClosed(mod, i, b, k, r, spare, p);
    if Enabled(mod', p) { ReplacedWasEnabled(mod, i, b, k, d, xs, r, spare, mod', p); }
    if Roomy(mod, p) { ReplacedStaysRoomy(mod, i, b, k, r, spare, p); }
    assert mod'[i].code.body.Keys == mod[i].code.body.Keys;
  }

  lemma NeverEvaluable(mod: Module, p: set<nat>, inst: Inst)
    ensures Evaluable(mod, p, inst) ==> inst.op.Call? && 0 < |inst.ops| <= 17 && inst.ops[0].Global?
    ensures Evaluable(mod, p, inst) ==> IndexOf(mod, inst.ops[0].name).Some?
    ensures Evaluable(mod, p, inst) ==> IndexOf(mod, inst.ops[0].name).value in p
  {
    hide Answerable, CallsOn;
  }

  lemma StaysFound(mod: Module, now: Module, name: string)
    requires StaysAnswerable(mod, now)
    ensures IndexOf(mod, name) == IndexOf(now, name)
  {
    SameIndex(mod, now, name);
  }

  lemma OkParts(f: Func, b: nat, k: nat)
    requires CodeOk(f) && b in f.body && k < |f.body[b]|
    ensures WellFormed(f) && (f.body[b][k].op.Call? ==> f.body[b][k].ops != [])
  {
    hide BlockOk;
    assert OperandsOk(f.body[b][k]);
  }

  lemma CalleeAccepts(mod: Module, i: nat, b: nat, k: nat)
    requires VmOk(mod) && i < |mod| && b in mod[i].code.body && k < |mod[i].code.body[b]|
    ensures CallMatches(mod, mod[i].code.body[b][k])
  {
    hide ModuleOk, CallMatches;
    assert CallsMatch(mod, mod[i].code);
  }

  lemma SpareIsFree(f: Func, max: nat)
    requires InRange(f, max)
    ensures Unmentioned(f, max + 1)
  {
    forall b, k | b in f.body && 0 <= k < |f.body[b]|
      ensures !MentionsReg(f.body[b][k], max + 1)
    {
      assert InstInRange(f.body[b][k], max);
    }
  }

  lemma LayoutStays(f: Func, b: nat, k: nat, r: i64, next: nat)
    requires InRange(f, next) && b in f.body && k < |f.body[b]|
    ensures var g := WithConstant(f, b, k, r, next + 1);
      SameLayout(f, g) && InRange(g, if f.body[b][k].dest.None? then next + 1 else next)
  {
    var g := WithConstant(f, b, k, r, next + 1);
    var max := if f.body[b][k].dest.None? then next + 1 else next;
    assert g.body.Keys == f.body.Keys;
    forall x, j | x in g.body && 0 <= j < |g.body[x]|
      ensures InstInRange(g.body[x][j], max)
    {
      assert InstInRange(f.body[x][j], next);
      if x == b && j == k && f.body[b][k].dest.Some? { assert MentionsReg(f.body[b][k], f.body[b][k].dest.value); }
    }
  }

  /** The first `n` blocks hold no such call. */
  ghost predicate FirstClear(mod: Module, p: set<nat>, f: Func, n: nat) {
    n <= |f.order| && forall q | 0 <= q < n ::
      f.order[q] in f.body && BlockClear(mod, p, f.body[f.order[q]], |f.body[f.order[q]]|)
  }

  /** Nothing but block `b` of function `i` has changed. */
  ghost predicate OnlyBlock(mod: Module, mod': Module, i: nat, b: nat) {
    && |mod'| == |mod| && (forall j | 0 <= j < |mod| && j != i :: mod'[j] == mod[j])
    && i < |mod| && SameLayout(mod[i].code, mod'[i].code)
    && forall x | x in mod[i].code.body && x in mod'[i].code.body && x != b ::
      mod'[i].code.body[x] == mod[i].code.body[x]
  }

  lemma OnlyBlockNext(a: Module, mod: Module, mod': Module, i: nat, b: nat, k: nat)
    requires OnlyBlock(a, mod, i, b) && OnlyAt(mod, mod', i, b, k)
    ensures OnlyBlock(a, mod', i, b)
  {
    forall x | x in a[i].code.body && x != b
      ensures x in mod'[i].code.body && mod'[i].code.body[x] == a[i].code.body[x]
    {
      assert |mod'[i].code.body[x]| == |mod[i].code.body[x]|;
    }
  }

  lemma KeepsTransitive(mod0: Module, p: set<nat>, a: Module, b: Module, c: Module)
    requires Keeps(mod0, p, a, b) && Keeps(mod0, p, b, c)
    ensures Keeps(mod0, p, a, c)
  {
    hide StaysAnswerable, ClosedUnderCalls, Enabled;
  }

  lemma OneMoreClear(mod0: Module, p: set<nat>, mod: Module, mod': Module, i: nat, b: nat, k: nat)
    requires OnlyAt(mod, mod', i, b, k) && b in mod[i].code.body && BlockClear(mod0, p, mod[i].code.body[b], k)
    requires k < |mod[i].code.body[b]| && b in mod'[i].code.body && k < |mod'[i].code.body[b]|
    requires !Evaluable(mod0, p, mod'[i].code.body[b][k])
    ensures BlockClear(mod0, p, mod'[i].code.body[b], k + 1)
  {
    hide Evaluable;
  }

  /** Every instruction of one block. */
  method EvaluateBlock(md: SirModule, pure: array<bool>, i: nat, b: nat, next: nat, ghost mod0: Module)
    returns (next': nat)
    requires VmOk(md.funcs) && pure.Length == |md.funcs| && i < |md.funcs|
    requires b in md.funcs[i].code.body && InRange(md.funcs[i].code, next)
    requires StaysAnswerable(mod0, md.funcs) && ClosedUnderCalls(md.funcs, Flagged(pure))
    modifies md
    ensures VmOk(md.funcs) && SameCalls(old(md.funcs), md.funcs) && KeepsFit(old(md.funcs), md.funcs)
    ensures OnlyBlock(old(md.funcs), md.funcs, i, b) && InRange(md.funcs[i].code, next')
    ensures Keeps(mod0, Flagged(pure), old(md.funcs), md.funcs)
    ensures Enabled(md.funcs, Flagged(pure)) ==>
      BlockClear(mod0, Flagged(pure), md.funcs[i].code.body[b], |md.funcs[i].code.body[b]|)
  {
    hide VmOk, SameCalls, InRange, Fit, Enabled, Roomy, Evaluable, StaysAnswerable, ClosedUnderCalls, KeepsFit,
      BlockClear,
      OnlyAt, OnlyBlock, Keeps, Literal;
    ghost var mod, p := md.funcs, Flagged(pure);
    next' := next;
    BlockStarts(mod0, p, mod, i, b);
    var n := |md.funcs[i].code.body[b]|;
    for k := 0 to n
      invariant VmOk(md.funcs) && SameCalls(mod, md.funcs) && KeepsFit(mod, md.funcs)
      invariant OnlyBlock(mod, md.funcs, i, b) && |md.funcs| == |mod| && InRange(md.funcs[i].code, next')
      invariant b in md.funcs[i].code.body && |md.funcs[i].code.body[b]| == n
      invariant StaysAnswerable(mod0, md.funcs) && ClosedUnderCalls(md.funcs, p) && Keeps(mod0, p, mod, md.funcs)
      invariant Enabled(md.funcs, p) ==> BlockClear(mod0, p, md.funcs[i].code.body[b], k)
    {
      ghost var before := md.funcs;
      next' := TryReplace(md, pure, i, b, k, next', mod0);
      BlockGoesOn(mod0, p, mod, before, md.funcs, i, b, k);
    }
  }

  lemma BlockStarts(mod0: Module, p: set<nat>, mod: Module, i: nat, b: nat)
    requires i < |mod| && b in mod[i].code.body && StaysAnswerable(mod0, mod) && ClosedUnderCalls(mod, p)
    ensures SameCalls(mod, mod) && KeepsFit(mod, mod) && Keeps(mod0, p, mod, mod) && OnlyBlock(mod, mod, i, b)
    ensures BlockClear(mod0, p, mod[i].code.body[b], 0)
  {
    hide SameCalls, StaysAnswerable, ClosedUnderCalls, Enabled, Evaluable, KeepsFit;
    SameCallsReflexive(mod);
    KeepsFitReflexive(mod);
  }

  lemma BlockGoesOn(mod0: Module, p: set<nat>, a: Module, mod: Module, mod': Module, i: nat, b: nat, k: nat)
    requires SameCalls(a, mod) && SameCalls(mod, mod') && KeepsFit(a, mod) && KeepsFit(mod, mod')
    requires OnlyBlock(a, mod, i, b) && OnlyAt(mod, mod', i, b, k) && b in mod[i].code.body
    requires k < |mod[i].code.body[b]| && Keeps(mod0, p, a, mod) && Keeps(mod0, p, mod, mod')
    requires Enabled(mod, p) ==> BlockClear(mod0, p, mod[i].code.body[b], k)
    requires Enabled(mod', p) ==> !Evaluable(mod0, p, mod'[i].code.body[b][k])
    ensures SameCalls(a, mod') && KeepsFit(a, mod') && OnlyBlock(a, mod', i, b) && Keeps(mod0, p, a, mod')
    ensures b in mod'[i].code.body && |mod'[i].code.body[b]| == |mod[i].code.body[b]|
    ensures StaysAnswerable(mod0, mod') && ClosedUnderCalls(mod', p)
    ensures Enabled(mod', p) ==> BlockClear(mod0, p, mod'[i].code.body[b], k + 1)
  {
    hide SameCalls, Enabled, Evaluable, StaysAnswerable, ClosedUnderCalls, BlockClear, OnlyBlock, Fit;
    SameCallsTransitive(a, mod, mod');
    KeepsTransitive(mod0, p, a, mod, mod');
    OnlyBlockNext(a, mod, mod', i, b, k);
    if Enabled(mod', p) { OneMoreClear(mod0, p, mod, mod', i, b, k); }
  }

  /** Every block of one function. */
  method EvaluateFunction(md: SirModule, pure: array<bool>, i: nat, ghost mod0: Module)
    requires VmOk(md.funcs) && pure.Length == |md.funcs| && i < |md.funcs|
    requires StaysAnswerable(mod0, md.funcs) && ClosedUnderCalls(md.funcs, Flagged(pure))
    modifies md
    ensures VmOk(md.funcs) && |md.funcs| == old(|md.funcs|) && SameCalls(old(md.funcs), md.funcs)
    ensures KeepsFit(old(md.funcs), md.funcs) && Keeps(mod0, Flagged(pure), old(md.funcs), md.funcs)
    ensures forall j | 0 <= j < |md.funcs| && j != i :: md.funcs[j] == old(md.funcs)[j]
    ensures Enabled(md.funcs, Flagged(pure)) ==> CodeClear(mod0, Flagged(pure), md.funcs[i].code)
  {
    hide VmOk, SameCalls, WellFormed, InRange, Fit, Enabled, Evaluable, StaysAnswerable, ClosedUnderCalls, KeepsFit,
      BlockClear, FirstClear, CodeClear, OnlyBlock, Keeps;
    ghost var mod, p := md.funcs, Flagged(pure);
    FunctionFits(mod, i);
    assert WellFormed(mod[i].code);
    FunctionStarts(mod0, p, mod, i);
    var fn := new SirFunction(md.funcs[i].code);
    var next := fn.MaxVreg();
    var order := md.funcs[i].code.order;
    for j := 0 to |order|
      invariant VmOk(md.funcs) && |md.funcs| == |mod| && SameCalls(mod, md.funcs) && KeepsFit(mod, md.funcs)
      invariant SameLayout(mod[i].code, md.funcs[i].code) && InRange(md.funcs[i].code, next)
      invariant StaysAnswerable(mod0, md.funcs) && ClosedUnderCalls(md.funcs, p) && Keeps(mod0, p, mod, md.funcs)
      invariant forall h | 0 <= h < |mod| && h != i :: md.funcs[h] == mod[h]
      invariant Enabled(md.funcs, p) ==> FirstClear(mod0, p, md.funcs[i].code, j)
    {
      ListedInside(mod[i].code, j);
      ghost var before := md.funcs;
      next := EvaluateBlock(md, pure, i, order[j], next, mod0);
      FunctionGoesOn(mod0, p, mod, before, md.funcs, i, j);
    }
    if Enabled(md.funcs, p) { AllClear(mod0, p, mod[i].code, md.funcs[i].code); }
  }

  lemma FunctionStarts(mod0: Module, p: set<nat>, mod: Module, i: nat)
    requires i < |mod| && StaysAnswerable(mod0, mod) && ClosedUnderCalls(mod, p)
    ensures SameCalls(mod, mod) && KeepsFit(mod, mod) && Keeps(mod0, p, mod, mod)
    ensures SameLayout(mod[i].code, mod[i].code) && FirstClear(mod0, p, mod[i].code, 0)
  {
    hide SameCalls, StaysAnswerable, ClosedUnderCalls, Enabled, Evaluable, KeepsFit;
    SameCallsReflexive(mod);
    KeepsFitReflexive(mod);
  }

  lemma FunctionGoesOn(mod0: Module, p: set<nat>, a: Module, mod: Module, mod': Module, i: nat, j: nat)
    requires SameCalls(a, mod) && SameCalls(mod, mod') && KeepsFit(a, mod) && KeepsFit(mod, mod')
    requires |a| == |mod| && i < |a| && WellFormed(a[i].code) && SameLayout(a[i].code, mod[i].code)
    requires j < |mod[i].code.order| && mod[i].code.order[j] in mod[i].code.body
    requires OnlyBlock(mod, mod', i, mod[i].code.order[j])
    requires Keeps(mod0, p, a, mod) && Keeps(mod0, p, mod, mod')
    requires forall h | 0 <= h < |mod| && h != i :: mod[h] == a[h]
    requires Enabled(mod, p) ==> FirstClear(mod0, p, mod[i].code, j)
    requires var b := mod[i].code.order[j];
      Enabled(mod', p) ==> BlockClear(mod0, p, mod'[i].code.body[b], |mod'[i].code.body[b]|)
    ensures SameCalls(a, mod') && KeepsFit(a, mod') && Keeps(mod0, p, a, mod')
    ensures |mod'| == |a| && SameLayout(a[i].code, mod'[i].code)
    ensures StaysAnswerable(mod0, mod') && ClosedUnderCalls(mod', p)
    ensures forall h | 0 <= h < |mod| && h != i :: mod'[h] == a[h]
    ensures Enabled(mod', p) ==> FirstClear(mod0, p, mod'[i].code, j + 1)
  {
    hide SameCalls, Enabled, Evaluable, StaysAnswerable, ClosedUnderCalls, BlockClear, Fit, BlockOk, Successors;
    SameCallsTransitive(a, mod, mod');
    KeepsTransitive(mod0, p, a, mod, mod');
  }

  lemma AllClear(mod0: Module, p: set<nat>, f: Func, g: Func)
    requires WellFormed(f) && SameLayout(f, g) && FirstClear(mod0, p, g, |g.order|)
    ensures CodeClear(mod0, p, g)
  {
    hide BlockClear, BlockOk, Successors;
    EveryBlockListed(f);
    forall b | b in g.body
      ensures BlockClear(mod0, p, g.body[b], |g.body[b]|)
    {
      var q :| 0 <= q < |g.order| && g.order[q] == b;
    }
  }

  lemma ListedInside(f: Func, j: nat)
    requires WellFormed(f) && j < |f.order|
    ensures f.order[j] in f.body
  {
    assert f.order[j] in (set b | b in f.order);
  }

  /** No call of a pure function on literals that `mod` could answer is left in `mod'`. */
  ghost predicate ConstantsEvaluated(mod: Module, mod': Module) {
    forall p: set<nat> | IsGreatest(mod, p) && (Enabled(mod', p) || Roomy(mod, p)) ::
      forall i | 0 <= i < |mod'| :: CodeClear(mod, p, mod'[i].code)
  }

  /** The pass: every call of every function keeps its outcomes.  If the pure functions fit the machine, afterwards or
      beforehand with a destination for every call, then no call of one on literals is left that was answerable when the
      pass began. */
  method EvaluateConstants(md: SirModule)
    requires VmOk(md.funcs)
    modifies md
    ensures VmOk(md.funcs) && SameCalls(old(md.funcs), md.funcs) && KeepsFit(old(md.funcs), md.funcs)
    ensures ConstantsEvaluated(old(md.funcs), md.funcs)
  {
    ghost var mod := md.funcs;
    hide VmOk, SameCalls, Fit, Enabled, ClosedUnderCalls, CodeClear, StaysAnswerable, KeepsFit, Keeps, IsGreatest,
      Roomy;
    OkToAnalyse(mod);
    var pure := AnalysePurity(md.funcs);
    ghost var p := Flagged(pure);
    PassStarts(mod, p);
    for i := 0 to |md.funcs|
      invariant VmOk(md.funcs) && |md.funcs| == |mod| && SameCalls(mod, md.funcs) && KeepsFit(mod, md.funcs)
      invariant Flagged(pure) == p && pure.Length == |mod|
      invariant StaysAnswerable(mod, md.funcs) && ClosedUnderCalls(md.funcs, p) && Keeps(mod, p, mod, md.funcs)
      invariant Enabled(md.funcs, p) ==> forall j | 0 <= j < i :: CodeClear(mod, p, md.funcs[j].code)
    {
      ghost var before := md.funcs;
      EvaluateFunction(md, pure, i, mod);
      PassGoesOn(mod, p, before, md.funcs);
    }
    forall q: set<nat> | IsGreatest(mod, q) { OneGreatest(mod, p, q); }
    StillFits(mod, p, md.funcs);
  }

  lemma StillFits(mod: Module, p: set<nat>, mod': Module)
    requires Keeps(mod, p, mod, mod')
    ensures Roomy(mod, p) ==> Enabled(mod', p)
  {
    hide Enabled, StaysAnswerable, ClosedUnderCalls;
  }

  lemma OneGreatest(mod: Module, p: set<nat>, q: set<nat>)
    requires IsGreatest(mod, p) && IsGreatest(mod, q)
    ensures p == q
  {
    hide ClosedUnderCalls;
  }

  lemma OkToAnalyse(mod: Module)
    requires VmOk(mod)
    ensures ModuleOk(mod)
  {}

  lemma PassStarts(mod: Module, p: set<nat>)
    requires IsGreatest(mod, p)
    ensures ClosedUnderCalls(mod, p)
    ensures SameCalls(mod, mod) && KeepsFit(mod, mod) && StaysAnswerable(mod, mod) && Keeps(mod, p, mod, mod)
  {
    hide SameCalls, ClosedUnderCalls, Enabled, KeepsFit, Answerable;
    SameCallsReflexive(mod);
    KeepsFitReflexive(mod);
  }

  lemma PassGoesOn(mod0: Module, p: set<nat>, mod: Module, mod': Module)
    requires SameCalls(mod0, mod) && SameCalls(mod, mod') && KeepsFit(mod0, mod) && KeepsFit(mod, mod')
    requires Keeps(mod0, p, mod0, mod) && Keeps(mod0, p, mod, mod')
    ensures SameCalls(mod0, mod') && KeepsFit(mod0, mod') && Keeps(mod0, p, mod0, mod')
    ensures StaysAnswerable(mod0, mod') && ClosedUnderCalls(mod', p) && (Enabled(mod', p) ==> Enabled(mod, p))
  {
    hide SameCalls, ClosedUnderCalls, Enabled, Fit, StaysAnswerable;
    SameCallsTransitive(mod0, mod, mod');
    KeepsTransitive(mod0, p, mod0, mod, mod');
  }
}
