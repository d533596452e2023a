/** The evaluator behind base-case expansion: it runs a one-argument, self-recursive function at
    compile time. */
module TryEvaluate {
  import opened Sir
  import opened SirFunctions
  import opened SirModules
  import opened Evaluate
  import opened Interpret
  import opened Alone

  const MAX_DEPTH := 15

  /** `func` on argument `arg`.  An answer is what every run of the function on that argument returns.
      The source bounds only the depth; `fuel` bounds the blocks each activation may visit.  Within these bounds a
      function with operands of the kinds looked at is answered exactly when it returns by itself. */
  method TryEvaluatePureFunc(mod: Module, func: Decl, arg: i64, depth: nat, fuel: nat)
    returns (res: Option<i64>, ghost need: nat)
    requires Lookup(mod, func.name) == Some(func) && CodeOk(func.code)
    ensures res.Some? ==> AnswersBy(mod, func, [arg], res.value, need)
    ensures PlainCode(func) ==> res == if depth <= 15 then SoloAnswer(func, arg, 15 - depth, fuel) else None
    decreases if depth > MAX_DEPTH then 0 else MAX_DEPTH + 1 - depth, 4
  {
    hide CodeOk, AnswersBy, AtBlock, Lookup, RegsOf, PlainCode, Run, Solo;
    res, need := None, 0;
    if depth > MAX_DEPTH { return; }
    OkIsWellFormed(func.code);
    if func.fast.Some? && Taken(func.fast.value.jcc, arg, func.fast.value.imm) {
      FastAnswer(mod, func, [arg]);
      return Some(arg), 0;
    }
    var fn := new SirFunction(func.code);
    var max := fn.MaxVreg();
    var valid := new bool[max + 1](_ => false);
    var vals := new i64[max + 1](_ => 0);
    NothingKnown(vals, valid);
    StartAtEntry(mod, func, [arg]);
    res, need := Interpretation(mod, func, arg, depth, fuel, vals, valid);
  }

  /** A function whose entry does nothing but jump to itself. */
  predicate SpinsAtEntry(d: Decl) {
    d.fast.None? && d.code.order != [] && d.code.order[0] in d.code.body
    && d.code.body[d.code.order[0]] == [Inst(Jmp, None, [BlockRef(d.code.order[0])])]
  }

  lemma {:induction false} SpinsOn(m: Machine, d: Decl, params: seq<i64>, w: World, n: nat)
    requires SpinsAtEntry(d)
    ensures Run(m, d.code, params, d.code.order[0], map[], w, n) == OutOfFuel
  {
    if n > 0 {
      var ops := [BlockRef(d.code.order[0])];
      assert EvalOperand(m, ops[0], map[]) == Some(Blk(d.code.order[0]));
      assert EvalAll(m, ops, map[]).value == [Blk(d.code.order[0])];
      SpinsOn(m, d, params, w, n - 1);
    }
  }

  /** There is nothing to answer for it. */
  lemma SpinningHasNoAnswer(m: Machine, mod: Module, d: Decl, arg: i64, r: i64, need: nat)
    requires SpinsAtEntry(d) && Linked(m, Names(mod))
    ensures !AnswersBy(mod, d, [arg], r, need)
  {
    hide Run;
    var w: World :| true;
    SpinsOn(Within(m, mod, need), d, [arg], w, need);
    assert Invoke(m, mod, d, [arg], w, need) == OutOfFuel;
  }

  /** Two answers for the same argument are the same. */
  lemma AnswersAgree(m: Machine, mod: Module, d: Decl, arg: i64, r: i64, need: nat, r': i64, need': nat)
    requires Linked(m, Names(mod)) && AnswersBy(mod, d, [arg], r, need) && AnswersBy(mod, d, [arg], r', need')
    ensures r == r'
  {
    hide Invoke;
    var w: World :| true;
    var k := if need > need' then need else need';
    assert Invoke(m, mod, d, [arg], w, k) == Returned(r, w);
    assert Invoke(m, mod, d, [arg], w, k) == Returned(r', w);
  }

  /** Bounds do not matter for the answer: on a function that spins there is none under any bound, answers under two
      bounds are the same, and the larger bound does not lose one. */
  method EvaluateTwice(mod: Module, func: Decl, arg: i64, fuel: nat, fuel': nat, ghost m: Machine)
    returns (res: Option<i64>, res': Option<i64>)
    requires Lookup(mod, func.name) == Some(func) && CodeOk(func.code) && Linked(m, Names(mod))
    ensures SpinsAtEntry(func) ==> res == res' == None
    ensures res.Some? && res'.Some? ==> res == res'
    ensures PlainCode(func) && fuel <= fuel' && res.Some? ==> res' == res
  {
    hide AnswersBy, CodeOk, Lookup, SpinsAtEntry, PlainCode, SoloAnswer;
    ghost var need, need';
    res, need := TryEvaluatePureFunc(mod, func, arg, 0, fuel);
    res', need' := TryEvaluatePureFunc(mod, func, arg, 0, fuel');
    if PlainCode(func) && fuel <= fuel' && res.Some? { SoloAnswerStays(func, arg, 15, fuel, 15, fuel'); }
    if SpinsAtEntry(func) {
      if res.Some? { SpinningHasNoAnswer(m, mod, func, arg, res.value, need); }
      if res'.Some? { SpinningHasNoAnswer(m, mod, func, arg, res'.value, need'); }
    } else if res.Some? && res'.Some? {
      AnswersAgree(m, mod, func, arg, res.value, need, res'.value, need');
    }
  }

  lemma OkIsWellFormed(f: Func)
    requires CodeOk(f)
    ensures WellFormed(f)
  {}

  lemma NothingKnown(vals: array<i64>, valid: array<bool>)
    requires vals.Length == valid.Length && forall v | 0 <= v < valid.Length :: !valid[v]
    ensures RegsOf(vals, valid) == map[]
  {}

  /** The interpreter loop: one block after another. */
  method Interpretation(mod: Module, func: Decl, arg: i64, depth: nat, fuel: nat, vals: array<i64>, valid: array<bool>)
    returns (res: Option<i64>, ghost need: nat)
    requires Lookup(mod, func.name) == Some(func) && CodeOk(func.code)
    requires depth <= MAX_DEPTH && vals.Length == valid.Length && vals.Length > 0 && InRange(func.code, vals.Length - 1)
    requires AtBlock(mod, func, [arg], func.code.order[0], RegsOf(vals, valid), 0, 0)
    modifies vals, valid
    ensures res.Some? ==> AnswersBy(mod, func, [arg], res.value, need)
    ensures PlainCode(func) ==> res == AnswerOf(
      Run(Solo(func, 15 - depth, fuel), func.code, [arg], func.code.order[0], old(RegsOf(vals, valid)), EMPTY, fuel))
    decreases MAX_DEPTH + 1 - depth, 3
  {
    hide AtBlock, AnswersBy, InBlock, RunBlock, Solo, PlainCode, CodeOk, RegsOf;
    OkIsWellFormed(func.code);
    res, need := None, 0;
    EntryListed(func.code);
    var block := func.code.order[0];
    ghost var s, m, regs := 0, Solo(func, 15 - depth, fuel), RegsOf(vals, valid);
    for n := fuel downto 0
      invariant PlainCode(func) ==>
        Run(m, func.code, [arg], block, RegsOf(vals, valid), EMPTY, n) ==
        Run(m, func.code, [arg], func.code.order[0], regs, EMPTY, fuel)
      invariant block in func.code.body && AtBlock(mod, func, [arg], block, RegsOf(vals, valid), s, need)
    {
      var p, need' := InterpretBlock(mod, func, arg, block, depth, fuel, vals, valid, s, need);
      match p {
        case Went(next) =>
          need, s, block := need', s + 1, next;
        case Finished(r) => return Some(r), need';
        case _ => return None, need';
      }
    }
  }

  lemma EntryListed(f: Func)
    requires WellFormed(f)
    ensures f.order[0] in f.body
  {
    assert f.order[0] in (set b | b in f.order);
  }

  /** The instructions of one block. */
  method InterpretBlock(mod: Module, func: Decl, arg: i64, block: nat, depth: nat, fuel: nat, vals: array<i64>,
        valid: array<bool>, ghost s: nat, ghost need0: nat)
    returns (p: Progress, ghost need: nat)
    requires Lookup(mod, func.name) == Some(func) && CodeOk(func.code) && block in func.code.body
    requires depth <= MAX_DEPTH && vals.Length == valid.Length && vals.Length > 0 && InRange(func.code, vals.Length - 1)
    requires AtBlock(mod, func, [arg], block, RegsOf(vals, valid), s, need0)
    modifies vals, valid
    ensures p.Went? ==> p.b in func.code.body && AtBlock(mod, func, [arg], p.b, RegsOf(vals, valid), s + 1, need)
    ensures p.Finished? ==> AnswersBy(mod, func, [arg], p.r, need)
    ensures PlainCode(func) ==> BlockMirrors(p, RegsOf(vals, valid),
      RunBlock(Solo(func, 15 - depth, fuel), [arg], func.code.body[block], old(RegsOf(vals, valid)), EMPTY))
    decreases MAX_DEPTH + 1 - depth, 2
  {
    hide AtBlock, AnswersBy, WellFormed, InBlock, Step, Solo, Plain, PlainCode, RegsOf, CodeOk;
    var insts := func.code.body[block];
    ghost var regs0, m := RegsOf(vals, valid), Solo(func, 15 - depth, fuel);
    ghost var need1 := 0;
    BlockStarts(mod, func, [arg], block, regs0);
    p, need := Fail, 0;
    assert insts[0..] == insts;
    for i := 0 to |insts|
      invariant InBlock(mod, func, [arg], block, regs0, insts[i..], RegsOf(vals, valid), need1)
      invariant PlainCode(func) ==>
        RunBlock(m, [arg], insts[i..], RegsOf(vals, valid), EMPTY) == RunBlock(m, [arg], insts, regs0, EMPTY)
    {
      if PlainCode(func) { PlainInside(func, block, i); }
      InstFits(func.code, block, i, vals.Length - 1);
      ghost var regs := RegsOf(vals, valid);
      ghost var sure, need2;
      assert insts[i..][0] == insts[i] && insts[i..][1..] == insts[i + 1..];
      p, sure, need2 := InterpretInst(mod, func, arg, insts[i], depth, fuel, vals, valid);
      match p {
        case Wrote =>
          BlockNext(mod, func, [arg], block, regs0, insts[i..], regs, need1, sure.v, need2);
          need1 := Max(need1, need2);
        case Fail => return;
        case Went(b) =>
          BlockLeaves(mod, func, [arg], block, regs0, s, need0, insts[i..], regs, need1, sure, need2);
          need := Max(Max(need0, need1), Max(need2, s + 1));
          TargetInside(func.code, block, i, b);
          return;
        case Finished(r) =>
          BlockLeaves(mod, func, [arg], block, regs0, s, need0, insts[i..], regs, need1, sure, need2);
          need := Max(Max(need0, need1), Max(need2, s + 1));
          return;
      }
    }
    p := Fail;
  }

  lemma PlainInside(d: Decl, b: nat, k: nat)
    requires PlainCode(d) && b in d.code.body && k < |d.code.body[b]|
    ensures Plain(d.code.body[b][k], d.name)
  {
    hide Plain;
  }

  /** One instruction; only calls of the function itself are followed. */
  method InterpretInst(mod: Module, func: Decl, arg: i64, inst: Inst, depth: nat, fuel: nat, vals: array<i64>,
        valid: array<bool>)
    returns (p: Progress, ghost s: Sure, ghost need: nat)
    requires Lookup(mod, func.name) == Some(func) && CodeOk(func.code)
    requires depth <= MAX_DEPTH && vals.Length == valid.Length && RegsFit(inst, vals.Length) && ShapeOk(inst)
    requires OperandsOk(inst)
    modifies vals, valid
    ensures Followed(mod, [arg], inst, p, s, need, old(RegsOf(vals, valid)), RegsOf(vals, valid))
    ensures PlainCode(func) && Plain(inst, func.name) ==>
      Mirrors(p, s, Step(Solo(func, 15 - depth, fuel), [arg], inst, old(RegsOf(vals, valid)), EMPTY))
    decreases MAX_DEPTH + 1 - depth, 1
  {
    hide CodeOk, ShapeOk, RegsFit, StepSays, Does, Stuck, Mirrors, PlainCode, Step, Solo, RegsOf;
    p, s, need := Fail, Gives(0), 0;
    ghost var regs, m := RegsOf(vals, valid), Solo(func, 15 - depth, fuel);
    if inst.op.GetParam? {
      p, s := InterpretParam(mod, [arg], inst, vals, valid);
    } else if inst.op.IsArith() || inst.op.IsCompare() {
      p, s := InterpretBinary(mod, [arg], inst, vals, valid);
    } else if inst.op.Cast? {
      p, s := InterpretCast(mod, [arg], inst, vals, valid);
    } else if inst.op.Select? {
      p, s := InterpretSelect(mod, [arg], inst, false, false, vals, valid);
    } else if inst.op.Call? {
      p, s, need := InterpretSelfCall(mod, func, arg, inst, depth, fuel, vals, valid);
    } else if inst.op.Jmp? || inst.op.Br? || inst.op.Switch? {
      p, s := InterpretJump(mod, [arg], inst, false, false, vals, valid);
    } else if inst.op.Ret? {
      p, s := InterpretReturn(mod, [arg], inst, false, vals, valid);
    } else {
      Failed(mod, [arg], inst, s, RegsOf(vals, valid));
    }
    if PlainCode(func) && Plain(inst, func.name) && !inst.op.Call? {
      PlainMirrors(func, 15 - depth, fuel, arg, inst, regs, p, s);
    }
  }

  method InterpretSelfCall(mod: Module, func: Decl, arg: i64, inst: Inst, depth: nat, fuel: nat, vals: array<i64>,
        valid: array<bool>)
    returns (p: Progress, ghost s: Sure, ghost need: nat)
    requires Lookup(mod, func.name) == Some(func) && CodeOk(func.code)
    requires depth <= MAX_DEPTH && vals.Length == valid.Length && RegsFit(inst, vals.Length) && inst.op.Call?
    requires OperandsOk(inst)
    modifies vals, valid
    ensures Followed(mod, [arg], inst, p, s, need, old(RegsOf(vals, valid)), RegsOf(vals, valid))
    ensures PlainCode(func) && Plain(inst, func.name) ==>
      Mirrors(p, s, Step(Solo(func, 15 - depth, fuel), [arg], inst, old(RegsOf(vals, valid)), EMPTY))
    decreases MAX_DEPTH + 1 - depth, 0
  {
    hide CodeOk, StepSays, AnswersBy, PlainCode, Step, Solo, SoloAnswer, Lookup;
    p, s, need := Fail, Gives(0), 0;
    ghost var regs, m := RegsOf(vals, valid), Solo(func, 15 - depth, fuel);
    if inst.ops[0] != Global(func.name) || |inst.ops| != 2 {
      if inst.ops[0].Global? && inst.ops[0] != Global(func.name) {
        OtherCallStops(func, 15 - depth, fuel, arg, inst, regs);
      }
      return;
    }
    var a := ReadOperand(inst.ops[1], true, false, vals, valid);
    if a.None? {
      if Admits(inst.ops[1], true, false) { UnreadOperandStops(m, arg, inst, regs, 1); }
      return;
    }
    AnswerOfCall(func, 15 - depth, fuel, arg, inst, regs, a.value);
    var r, need' := TryEvaluatePureFunc(mod, func, a.value, depth + 1, fuel);
    if r.None? { return; }
    assert ReadAll(inst.ops[1..], regs, [a.value]);
    CallSays(mod, [arg], inst, regs, func, [a.value], r.value, need');
    if inst.dest.Some? { SetReg(vals, valid, inst.dest.value, r.value); }
    p, s, need := Wrote, Gives(r.value), need' + 1;
  }

  lemma Failed(mod: Module, pre: seq<i64>, inst: Inst, s: Sure, regs: Regs)
    ensures Followed(mod, pre, inst, Fail, s, 0, regs, regs)
  {}

  lemma BlockStarts(mod: Module, d: Decl, pre: seq<i64>, b: nat, regs: Regs)
    requires b in d.code.body
    ensures InBlock(mod, d, pre, b, regs, d.code.body[b], regs, 0)
  {}

  lemma InstFits(f: Func, b: nat, i: nat, max: nat)
    requires CodeOk(f) && InRange(f, max) && b in f.body && i < |f.body[b]|
    ensures RegsFit(f.body[b][i], max + 1) && ShapeOk(f.body[b][i]) && OperandsOk(f.body[b][i])
  {
    var inst := f.body[b][i];
    assert InstInRange(inst, max);
    forall k | 0 <= k < |inst.ops| && inst.ops[k].VReg?
      ensures inst.ops[k].r <= max
    {
      assert MentionsReg(inst, inst.ops[k].r);
    }
    if inst.dest.Some? { assert MentionsReg(inst, inst.dest.value); }
  }

  /** A jump stays inside the function. */
  lemma TargetInside(f: Func, block: nat, i: nat, b: nat)
    requires CodeOk(f) && block in f.body && i < |f.body[block]|
    requires f.body[block][i].op.IsTerminator() && b in Targets(f.body[block][i])
    ensures b in f.body
  {
    assert b in Successors(f.body[block]);
  }
}
