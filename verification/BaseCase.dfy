/** Base-case expansion: a recursive function answers 2, 3 and 4 at once with the results computed at
    compile time. */
module BaseCase {
  import opened Sir
  import opened SirFunctions
  import opened SirModules
  import opened Evaluate
  import opened ModuleLift
  import opened Alone

  /** The new entry block and the block that returns the known result. */
  function EntryBlock(p: nat, c: nat, ret: nat, old_: nat, t: i64): seq<Inst> {
    [Inst(GetParam, Some(p), [ConstInt(0)]),
     Inst(IcmpEq, Some(c), [VReg(p), ConstInt(t)]),
     Inst(Br, None, [VReg(c), BlockRef(ret), BlockRef(old_)])]
  }

  function AnswerBlock(r: i64): seq<Inst> { [Inst(Ret, None, [ConstInt(r)])] }

  /** `f` behind a test for argument `t`. */
  function WithBaseCase(f: Func, p: nat, c: nat, entry: nat, ret: nat, t: i64, r: i64): Func
    requires f.order != []
  {
    Func([entry, ret] + f.order, f.body[entry := EntryBlock(p, c, ret, f.order[0], t)][ret := AnswerBlock(r)])
  }

  /** The function starts by fetching its first parameter. */
  predicate StartsWithParam(f: Func) {
    && f.order != [] && f.order[0] in f.body && f.body[f.order[0]] != []
    && var i := f.body[f.order[0]][0]; i.op.GetParam? && i.ops == [ConstInt(0)]
  }

  predicate Fresh(f: Func, max: nat, p: nat, c: nat, entry: nat, ret: nat) {
    p > max && c > max && p != c && entry !in f.body && ret !in f.body && entry != ret
  }

  // ---------------------------------------------------------------------------------------------
  // What the new entry does

  lemma ParamStep(m: Machine, p: nat, params: seq<i64>, regs: Regs, w: World)
    ensures Step(m, params, Inst(GetParam, Some(p), [ConstInt(0)]), regs, w) ==
      if params == [] then Finish(Fault) else Next(params[0], w)
  {
    var ops := [ConstInt(0)];
    assert EvalOperand(m, ops[0], regs) == Some(Int(0));
    assert EvalAll(m, ops, regs).value == [Int(0)];
  }

  lemma TestStep(m: Machine, p: nat, c: nat, t: i64, params: seq<i64>, regs: Regs, w: World)
    requires p in regs
    ensures Step(m, params, Inst(IcmpEq, Some(c), [VReg(p), ConstInt(t)]), regs, w) ==
      Next(if regs[p] == t then 1 else 0, w)
  {
    var ops := [VReg(p), ConstInt(t)];
    assert EvalOperand(m, ops[0], regs) == Some(Int(regs[p])) && EvalOperand(m, ops[1], regs) == Some(Int(t));
    assert EvalAll(m, ops, regs).value == [Int(regs[p]), Int(t)];
  }

  lemma BranchStep(m: Machine, c: nat, a: nat, b: nat, params: seq<i64>, regs: Regs, w: World)
    requires c in regs
    ensures Step(m, params, Inst(Br, None, [VReg(c), BlockRef(a), BlockRef(b)]), regs, w) ==
      Jump(if regs[c] != 0 then a else b)
  {
    var ops := [VReg(c), BlockRef(a), BlockRef(b)];
    assert EvalOperand(m, ops[0], regs) == Some(Int(regs[c]));
    assert EvalOperand(m, ops[1], regs) == Some(Blk(a)) && EvalOperand(m, ops[2], regs) == Some(Blk(b));
    assert EvalAll(m, ops, regs).value == [Int(regs[c]), Blk(a), Blk(b)];
  }

  /** On argument `t` the expanded function answers at once; otherwise it goes on to the old entry. */
  lemma EntryRuns(m: Machine, p: nat, c: nat, ret: nat, old_: nat, t: i64, params: seq<i64>, w: World)
    requires p != c
    ensures RunBlock(m, params, EntryBlock(p, c, ret, old_, t), map[], w)
      == if params == [] then End(Fault)
         else if params[0] == t then Goto(ret, map[p := params[0], c := 1], w)
         else Goto(old_, map[p := params[0], c := 0], w)
  {
    hide Step;
    var insts := EntryBlock(p, c, ret, old_, t);
    ParamStep(m, p, params, map[], w);
    if params != [] {
      var v: i64 := if params[0] == t then 1 else 0;
      var regs1: Regs, regs2: Regs := map[p := params[0]], map[p := params[0], c := v];
      TestStep(m, p, c, t, params, regs1, w);
      assert regs1[c := v] == regs2;
      BranchStep(m, c, ret, old_, params, regs2, w);
      assert insts[1..][1..][0] == insts[2];
      assert RunBlock(m, params, insts[1..][1..], regs2, w) == Goto(if v != 0 then ret else old_, regs2, w);
      assert RunBlock(m, params, insts[1..], regs1, w) == RunBlock(m, params, insts[1..][1..], regs2, w);
    }
  }

  lemma AnswerRuns(m: Machine, params: seq<i64>, r: i64, regs: Regs, w: World)
    ensures RunBlock(m, params, AnswerBlock(r), regs, w) == End(Returned(r, w))
  {
    var i := AnswerBlock(r)[0];
    assert EvalOperand(m, i.ops[0], regs) == Some(Int(r));
    assert EvalAll(m, i.ops, regs).value == [Int(r)];
  }

  lemma ParamFaults(m: Machine, f: Func, w: World, n: nat)
    requires StartsWithParam(f)
    ensures RunFunc(m, f, [], w, n) == if n == 0 then OutOfFuel else Fault
  {
    var insts := f.body[f.order[0]];
    assert EvalOperand(m, insts[0].ops[0], map[]) == Some(Int(0));
    assert EvalAll(m, insts[0].ops, map[]).value == [Int(0)];
  }

  /** A whole run of the expanded function. */
  lemma ExpandedRun(m: Machine, f: Func, max: nat, p: nat, c: nat, entry: nat, ret: nat, t: i64, r: i64,
        params: seq<i64>, w: World, n: nat)
    requires f.order != [] && Fresh(f, max, p, c, entry, ret)
    ensures var g := WithBaseCase(f, p, c, entry, ret, t, r);
      RunFunc(m, g, params, w, n) ==
        if n == 0 then OutOfFuel
        else if params == [] then Fault
        else if params[0] == t then (if n == 1 then OutOfFuel else Returned(r, w))
        else Run(m, g, params, f.order[0], map[p := params[0], c := 0], w, n - 1)
  {
    hide RunBlock;
    var g := WithBaseCase(f, p, c, entry, ret, t, r);
    EntryRuns(m, p, c, ret, f.order[0], t, params, w);
    assert g.body[entry] == EntryBlock(p, c, ret, f.order[0], t) && g.body[ret] == AnswerBlock(r);
    if params != [] && params[0] == t && n > 1 {
      AnswerRuns(m, params, r, map[p := params[0], c := 1], w);
      assert RunFunc(m, g, params, w, n) == Run(m, g, params, ret, map[p := params[0], c := 1], w, n - 1);
    }
  }

  lemma OldPartShared(f: Func, max: nat, p: nat, c: nat, entry: nat, ret: nat, t: i64, r: i64)
    requires WellFormed(f) && InRange(f, max) && Fresh(f, max, p, c, entry, ret)
    ensures var g := WithBaseCase(f, p, c, entry, ret, t, r);
      Shared(f, g, f.body.Keys, {p, c}) && Shared(g, f, f.body.Keys, {p, c})
    ensures f.order[0] in f.body
  {
    hide BlockOk, Successors;
    assert f.order[0] in (set b | b in f.order);
    var g := WithBaseCase(f, p, c, entry, ret, t, r);
    forall b | b in f.body.Keys
      ensures g.body[b] == f.body[b] && BlockFits(f.body[b], f.body.Keys, {p, c})
    {
      forall k | 0 <= k < |f.body[b]|
        ensures NeverReads(f.body[b][k], {p, c})
      {
        assert InstInRange(f.body[b][k], max);
        assert !MentionsReg(f.body[b][k], p) && !MentionsReg(f.body[b][k], c);
      }
    }
  }

  // ---------------------------------------------------------------------------------------------
  // Answers in front of a function

  /** On `t` the function returns `r` within so many blocks, whatever the machine: it calls nothing. */
  ghost predicate AtOnce(f: Func, t: i64, r: i64, blocks: nat) {
    forall m: Machine, params: seq<i64>, w: World, n: nat | n >= blocks && params != [] && params[0] == t ::
      RunFunc(m, f, params, w, n) == Returned(r, w)
  }

  /** `d'` is `d` tried on `t`: with the answer in front that `d` gives by itself, 15 calls deep, or as it was. */
  ghost predicate TriedOn(d: Decl, d': Decl, t: i64, fuel: nat) {
    match SoloAnswer(d, t, 15, fuel)
    case None => d' == d
    case Some(r) => InFront(d, d', t, r)
  }

  ghost predicate InFront(d: Decl, d': Decl, t: i64, r: i64) {
    && WellFormed(d.code)
    && exists max: nat, p: nat, c: nat, entry: nat, ret: nat ::
      && InRange(d.code, max) && Fresh(d.code, max, p, c, entry, ret)
      && d' == d.(code := WithBaseCase(d.code, p, c, entry, ret, t, r))
  }

  /** Tried on 2, then on 3, then on 4. */
  ghost predicate TriedInTurn(d: Decl, d': Decl, fuel: nat) {
    exists d3: Decl, d4: Decl :: TriedOn(d, d3, 2, fuel) && TriedOn(d3, d4, 3, fuel) && TriedOn(d4, d', 4, fuel)
  }

  lemma FrontAnswersAtOnce(d: Decl, d': Decl, t: i64, r: i64)
    requires InFront(d, d', t, r)
    ensures AtOnce(d'.code, t, r, 2)
  {
    hide InRange, WellFormed, RunFunc, WithBaseCase;
    HasEntry(d.code);
    var max: nat, p: nat, c: nat, entry: nat, ret: nat :| InRange(d.code, max) && Fresh(d.code, max, p, c, entry, ret)
      && d' == d.(code := WithBaseCase(d.code, p, c, entry, ret, t, r));
    forall m: Machine, params: seq<i64>, w: World, n: nat | n >= 2 && params != [] && params[0] == t
      ensures RunFunc(m, d'.code, params, w, n) == Returned(r, w)
    {
      ExpandedRun(m, d.code, max, p, c, entry, ret, t, r, params, w, n);
    }
  }

  lemma HasEntry(f: Func)
    requires WellFormed(f)
    ensures f.order != []
  {
    hide BlockOk, Successors;
  }

  /** An answer in front of another leaves that in place, one block later. */
  lemma OtherAnswersStay(d: Decl, d': Decl, t: i64, r: i64, t': i64, r': i64, blocks: nat)
    requires InFront(d, d', t, r) && AtOnce(d.code, t', r', blocks) && t != t'
    ensures AtOnce(d'.code, t', r', blocks + 1)
  {
    hide InRange, WellFormed, Run, WithBaseCase, Shared;
    HasEntry(d.code);
    var max: nat, p: nat, c: nat, entry: nat, ret: nat :| InRange(d.code, max) && Fresh(d.code, max, p, c, entry, ret)
      && d' == d.(code := WithBaseCase(d.code, p, c, entry, ret, t, r));
    var f := d.code;
    forall m: Machine, params: seq<i64>, w: World, n: nat | n >= blocks + 1 && params != [] && params[0] == t'
      ensures RunFunc(m, d'.code, params, w, n) == Returned(r', w)
    {
      ExpandedRun(m, f, max, p, c, entry, ret, t, r, params, w, n);
      OldPartShared(f, max, p, c, entry, ret, t, r);
      MachineBelowItself(m);
      assert RunFunc(m, f, params, w, n - 1) == Returned(r', w);
      RunShared(m, m, f, d'.code, f.body.Keys, {p, c}, params, f.order[0], map[], map[p := params[0], c := 0], w, n - 1,
        n - 1);
    }
  }

  lemma MachineBelowItself(m: Machine)
    ensures Below(m, m)
  {}

  lemma TrialKeeps(d: Decl, d': Decl, t: i64, fuel: nat, t': i64, r': i64, blocks: nat)
    requires TriedOn(d, d', t, fuel) && AtOnce(d.code, t', r', blocks) && t != t'
    ensures AtOnce(d'.code, t', r', blocks + 1)
  {
    hide InFront, RunFunc, SoloAnswer;
    match SoloAnswer(d, t, 15, fuel)
    case None =>
    case Some(r) => OtherAnswersStay(d, d', t, r, t', r', blocks);
  }

  /** What a function gives by itself on 2, 3 and 4 when their turn comes it gives at once in the end. */
  lemma TurnsAnswerAtOnce(d2: Decl, d3: Decl, d4: Decl, d5: Decl, fuel: nat)
    requires TriedOn(d2, d3, 2, fuel) && TriedOn(d3, d4, 3, fuel) && TriedOn(d4, d5, 4, fuel)
    ensures SoloAnswer(d2, 2, 15, fuel).Some? ==> AtOnce(d5.code, 2, SoloAnswer(d2, 2, 15, fuel).value, 4)
    ensures SoloAnswer(d3, 3, 15, fuel).Some? ==> AtOnce(d5.code, 3, SoloAnswer(d3, 3, 15, fuel).value, 3)
    ensures SoloAnswer(d4, 4, 15, fuel).Some? ==> AtOnce(d5.code, 4, SoloAnswer(d4, 4, 15, fuel).value, 2)
  {
    hide InFront, AtOnce, SoloAnswer;
    if SoloAnswer(d2, 2, 15, fuel).Some? {
      var r := SoloAnswer(d2, 2, 15, fuel).value;
      FrontAnswersAtOnce(d2, d3, 2, r);
      TrialKeeps(d3, d4, 3, fuel, 2, r, 2);
      TrialKeeps(d4, d5, 4, fuel, 2, r, 3);
    }
    if SoloAnswer(d3, 3, 15, fuel).Some? {
      var r := SoloAnswer(d3, 3, 15, fuel).value;
      FrontAnswersAtOnce(d3, d4, 3, r);
      TrialKeeps(d4, d5, 4, fuel, 3, r, 2);
    }
    if SoloAnswer(d4, 4, 15, fuel).Some? { FrontAnswersAtOnce(d4, d5, 4, SoloAnswer(d4, 4, 15, fuel).value); }
  }

  // ---------------------------------------------------------------------------------------------
  // Expansion keeps every call

  /** `mod'` is `mod` with function `i` expanded for argument `t`. */
  ghost predicate Expands(mod: Module, i: nat, max: nat, p: nat, c: nat, entry: nat, ret: nat, t: i64, r: i64,
        mod': Module) {
    && i < |mod| && WellFormed(mod[i].code) && InRange(mod[i].code, max) && StartsWithParam(mod[i].code)
    && Fresh(mod[i].code, max, p, c, entry, ret)
    && mod' == mod[i := mod[i].(code := WithBaseCase(mod[i].code, p, c, entry, ret, t, r))]
  }

  lemma OriginalAnswers(m: Machine, mod: Module, d: Decl, t: i64, r: i64, need: nat, params: seq<i64>, w: World, n: nat)
    requires AnswersBy(mod, d, [t], r, need) && Linked(m, Names(mod)) && params != [] && params[0] == t
    ensures Invoke(m, mod, d, params, w, n) == OutOfFuel || Invoke(m, mod, d, params, w, n) == Returned(r, w)
    ensures n >= need ==> Invoke(m, mod, d, params, w, n) == Returned(r, w)
  {
    hide Invoke;
    assert [t] <= params;
    InvokeMoreFuel(m, mod, d, params, w, n, Max(n, need));
    assert Invoke(m, mod, d, params, w, Max(n, need)) == Returned(r, w);
  }

  /** Forward: one more unit of fuel lets the expanded module follow. */
  lemma ExpandedFollows(m: Machine, mod: Module, i: nat, max: nat, p: nat, c: nat, entry: nat, ret: nat, t: i64,
        r: i64, mod': Module, need: nat)
    requires Expands(mod, i, max, p, c, entry, ret, t, r, mod') && AnswersBy(mod, mod[i], [t], r, need)
    requires Linked(m, Names(mod))
    ensures Carries(m, mod, mod', 1)
  {
    hide AnswersBy, Linked, WellFormed, InRange, Within, Below, RunFunc, Run, StartsWithParam, WithBaseCase;
    forall n: nat, j: nat, params: seq<i64>, w: World | j < |mod| && Below(Within(m, mod, n), Within(m, mod', n + 1))
      ensures Invoke(m, mod, mod[j], params, w, n) == OutOfFuel ||
        Invoke(m, mod', mod'[j], params, w, n + 1) == Invoke(m, mod, mod[j], params, w, n)
    {
      if j == i {
        ExpandedFollowsAt(m, mod, i, max, p, c, entry, ret, t, r, mod', need, n, params, w);
      } else {
        EnterBelow(Within(m, mod, n), Within(m, mod', n + 1), mod[j], params, w, n, n + 1);
      }
    }
  }

  lemma ExpandedFollowsAt(m: Machine, mod: Module, i: nat, max: nat, p: nat, c: nat, entry: nat, ret: nat, t: i64,
        r: i64, mod': Module, need: nat, n: nat, params: seq<i64>, w: World)
    requires Expands(mod, i, max, p, c, entry, ret, t, r, mod') && AnswersBy(mod, mod[i], [t], r, need)
    requires Linked(m, Names(mod))
    requires Below(Within(m, mod, n), Within(m, mod', n + 1))
    ensures Invoke(m, mod, mod[i], params, w, n) == OutOfFuel ||
      Invoke(m, mod', mod'[i], params, w, n + 1) == Invoke(m, mod, mod[i], params, w, n)
  {
    hide AnswersBy, Linked, WellFormed, InRange, Within, Below, Run, WithBaseCase, Shared;
    var f, m1, m2 := mod[i].code, Within(m, mod, n), Within(m, mod', n + 1);
    ExpandedRun(m2, f, max, p, c, entry, ret, t, r, params, w, n + 1);
    if params == [] {
      ParamFaults(m1, f, w, n);
    } else if params[0] == t {
      OriginalAnswers(m, mod, mod[i], t, r, need, params, w, n);
      EmptyRun(m1, f, params, w, n);
    } else {
      OldPartShared(f, max, p, c, entry, ret, t, r);
      RunShared(m1, m2, f, mod'[i].code, f.body.Keys, {p, c}, params, f.order[0], map[], map[p := params[0], c := 0], w,
        n, n);
    }
  }

  lemma EmptyRun(m: Machine, f: Func, params: seq<i64>, w: World, n: nat)
    requires f.order != []
    ensures n == 0 ==> RunFunc(m, f, params, w, n) == OutOfFuel
  {}

  /** Backward: the original needs at most the fuel of the precomputed call on top. */
  lemma OriginalFollows(m: Machine, mod: Module, i: nat, max: nat, p: nat, c: nat, entry: nat, ret: nat, t: i64,
        r: i64, mod': Module, need: nat)
    requires Expands(mod, i, max, p, c, entry, ret, t, r, mod') && AnswersBy(mod, mod[i], [t], r, need)
    requires Linked(m, Names(mod))
    ensures Carries(m, mod', mod, need)
  {
    hide AnswersBy, Linked, WellFormed, InRange, Within, Below, RunFunc, Run, StartsWithParam, WithBaseCase;
    forall n: nat, j: nat, params: seq<i64>, w: World | j < |mod| && Below(Within(m, mod', n), Within(m, mod, n + need))
      ensures Invoke(m, mod', mod'[j], params, w, n) == OutOfFuel ||
        Invoke(m, mod, mod[j], params, w, n + need) == Invoke(m, mod', mod'[j], params, w, n)
    {
      if j == i {
        OriginalFollowsAt(m, mod, i, max, p, c, entry, ret, t, r, mod', need, n, params, w);
      } else {
        EnterBelow(Within(m, mod', n), Within(m, mod, n + need), mod[j], params, w, n, n + need);
      }
    }
  }

  lemma OriginalFollowsAt(m: Machine, mod: Module, i: nat, max: nat, p: nat, c: nat, entry: nat, ret: nat, t: i64,
        r: i64, mod': Module, need: nat, n: nat, params: seq<i64>, w: World)
    requires Expands(mod, i, max, p, c, entry, ret, t, r, mod') && AnswersBy(mod, mod[i], [t], r, need)
    requires Linked(m, Names(mod))
    requires Below(Within(m, mod', n), Within(m, mod, n + need))
    ensures Invoke(m, mod', mod'[i], params, w, n) == OutOfFuel ||
      Invoke(m, mod, mod[i], params, w, n + need) == Invoke(m, mod', mod'[i], params, w, n)
  {
    hide AnswersBy, Linked, WellFormed, InRange, Within, Below, Run, WithBaseCase, Shared;
    var f, m1, m2 := mod[i].code, Within(m, mod', n), Within(m, mod, n + need);
    ExpandedRun(m1, f, max, p, c, entry, ret, t, r, params, w, n);
    if params == [] {
      ParamFaults(m2, f, w, n + need);
    } else if params[0] == t {
      OriginalAnswers(m, mod, mod[i], t, r, need, params, w, n + need);
    } else if n > 0 {
      OldPartShared(f, max, p, c, entry, ret, t, r);
      RunShared(m1, m2, mod'[i].code, f, f.body.Keys, {p, c}, params, f.order[0], map[p := params[0], c := 0], map[], w,
        n - 1, n + need);
    }
  }

  /** Expanding a function for an argument it is known to answer keeps every call of every function,
      at any depth of recursion. */
  lemma ExpansionKeepsCalls(mod: Module, i: nat, max: nat, p: nat, c: nat, entry: nat, ret: nat, t: i64, r: i64,
        mod': Module, need: nat)
    requires Expands(mod, i, max, p, c, entry, ret, t, r, mod') && AnswersBy(mod, mod[i], [t], r, need)
    ensures SameCalls(mod, mod')
  {
    hide AnswersBy, Linked, Carries, SameCalls, WithBaseCase, WellFormed, StartsWithParam;
    forall m: Machine | Linked(m, Names(mod))
      ensures Carries(m, mod, mod', 1) && Carries(m, mod', mod, need)
    {
      ExpandedFollows(m, mod, i, max, p, c, entry, ret, t, r, mod', need);
      OriginalFollows(m, mod, i, max, p, c, entry, ret, t, r, mod', need);
    }
    BothWays(mod, mod', 1, need);
  }
}
