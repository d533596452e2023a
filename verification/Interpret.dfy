/** One instruction at a time: what the compile-time evaluators do with a register file of values and
    validity flags, proved against the reference semantics. */
module Interpret {
  import opened Sir
  import opened SirModules
  import opened Evaluate

  /** What the builder guarantees about the instructions the evaluators look into. */
  predicate CodeOk(f: Func) {
    && WellFormed(f)
    && forall b, k | b in f.body && 0 <= k < |f.body[b]| :: OperandsOk(f.body[b][k])
  }

  predicate OperandsOk(inst: Inst) {
    && (inst.op.GetParam? ==> |inst.ops| == 1 && inst.ops[0].ConstInt? && inst.ops[0].i >= 0)
    && (inst.op.Ret? ==> |inst.ops| <= 1)
    && (inst.op.Call? ==> |inst.ops| >= 1)
  }

  // ---------------------------------------------------------------------------------------------
  // The register file: values and whether they have been written

  ghost function RegsOf(vals: array<i64>, valid: array<bool>): Regs
    reads vals, valid
    requires vals.Length == valid.Length
  {
    map v: nat | v < valid.Length && valid[v] :: vals[v]
  }

  method SetReg(vals: array<i64>, valid: array<bool>, v: nat, x: i64)
    requires vals.Length == valid.Length && v < vals.Length
    modifies vals, valid
    ensures RegsOf(vals, valid) == old(RegsOf(vals, valid))[v := x]
  {
    vals[v] := x;
    valid[v] := true;
  }

  /** The number an operand holds, if it is of an accepted kind and has been written. */
  method ReadOperand(v: Value, ints: bool, bools: bool, vals: array<i64>, valid: array<bool>) returns (r: Option<i64>)
    requires vals.Length == valid.Length && (v.VReg? ==> v.r < vals.Length)
    ensures r.Some? ==> Reads(v, RegsOf(vals, valid), r.value)
    ensures r.Some? <==> (v.VReg? && v.r in RegsOf(vals, valid)) || (v.ConstInt? && ints) || (v.ConstBool? && bools)
  {
    match v
    case ConstInt(i) => r := if ints then Some(i) else None;
    case ConstBool(b) => r := if bools then Some(if b then 1 else 0) else None;
    case VReg(n) => r := if valid[n] then Some(vals[n]) else None;
    case _ => r := None;
  }

  /** What became of one instruction. */
  datatype Progress = Fail | Wrote | Went(b: nat) | Finished(r: i64)

  /** A `Sure` step is what `p` reports. */
  ghost predicate Reports(p: Progress, s: Sure) {
    match p
    case Fail => true
    case Wrote => s.Gives?
    case Went(b) => s == Leads(b)
    case Finished(r) => s == Answer(r)
  }

  /** The step is sure to do `s`, and the register file has followed. */
  ghost predicate Followed(mod: Module, pre: seq<i64>, inst: Inst, p: Progress, s: Sure, need: nat, before: Regs,
        after: Regs) {
    p.Fail? || (Reports(p, s) && (p.Went? ==> inst.op.IsTerminator() && p.b in Targets(inst)) &&
      StepSays(mod, pre, inst, before, s, need) && after == if s.Gives? then Write(before, inst.dest, s.v) else before)
  }

  predicate OpsFit(inst: Inst, n: nat) { forall k | 0 <= k < |inst.ops| && inst.ops[k].VReg? :: inst.ops[k].r < n }

  predicate RegsFit(inst: Inst, n: nat) { (inst.dest.Some? ==> inst.dest.value < n) && OpsFit(inst, n) }

  /** The instruction faults, whatever the machine and the world. */
  ghost predicate Stuck(pre: seq<i64>, inst: Inst, regs: Regs) {
    forall m: Machine, w: World :: Step(m, pre, inst, regs, w) == Finish(Fault)
  }

  /** The kinds of operand a place admits. */
  predicate Admits(v: Value, ints: bool, bools: bool) { v.VReg? || (v.ConstInt? && ints) || (v.ConstBool? && bools) }

  /** An operand that has not been written stops the instruction. */
  lemma UnwrittenIsStuck(pre: seq<i64>, inst: Inst, regs: Regs, k: nat)
    requires k < |inst.ops| && inst.ops[k].VReg? && inst.ops[k].r !in regs
    ensures Stuck(pre, inst, regs)
  {
    hide Exec;
    forall m: Machine, w: World
      ensures Step(m, pre, inst, regs, w) == Finish(Fault)
    {
      assert EvalOperand(m, inst.ops[k], regs).None?;
    }
  }

  /** So does a division without a quotient. */
  lemma NoQuotientIsStuck(pre: seq<i64>, inst: Inst, regs: Regs, l: i64, r: i64)
    requires (inst.op.IsArith() || inst.op.IsCompare()) && ReadAll(inst.ops, regs, [l, r])
    requires Binary(inst.op, l, r).None?
    ensures Stuck(pre, inst, regs)
  {
    hide Binary;
    forall m: Machine, w: World
      ensures Step(m, pre, inst, regs, w) == Finish(Fault)
    {
      ReadAllEvaluates(m, inst.ops, regs, [l, r]);
    }
  }

  // ---------------------------------------------------------------------------------------------
  // Instructions that call nothing

  method InterpretParam(mod: Module, pre: seq<i64>, inst: Inst, vals: array<i64>, valid: array<bool>)
    returns (p: Progress, ghost s: Sure)
    requires inst.op.GetParam? && OperandsOk(inst) && vals.Length == valid.Length && RegsFit(inst, vals.Length)
    requires pre != []
    modifies vals, valid
    ensures Followed(mod, pre, inst, p, s, 0, old(RegsOf(vals, valid)), RegsOf(vals, valid))
    ensures !p.Fail? ==> Does(pre, inst, old(RegsOf(vals, valid)), s)
    ensures inst.ops[0].i == 0 && inst.dest.Some? ==> !p.Fail?
  {
    p, s := Fail, Gives(pre[0]);
    if inst.ops[0].i == 0 && inst.dest.Some? {
      ParamDoes(pre, inst, RegsOf(vals, valid), 0);
      DoesSays(mod, pre, inst, RegsOf(vals, valid), Gives(pre[0]));
      SetReg(vals, valid, inst.dest.value, pre[0]);
      p := Wrote;
    }
  }

  method InterpretBinary(mod: Module, pre: seq<i64>, inst: Inst, vals: array<i64>, valid: array<bool>)
    returns (p: Progress, ghost s: Sure)
    requires (inst.op.IsArith() || inst.op.IsCompare()) && ShapeOk(inst) && vals.Length == valid.Length
    requires RegsFit(inst, vals.Length)
    modifies vals, valid
    ensures Followed(mod, pre, inst, p, s, 0, old(RegsOf(vals, valid)), RegsOf(vals, valid))
    ensures !p.Fail? ==> Does(pre, inst, old(RegsOf(vals, valid)), s)
    ensures p.Fail? && Admits(inst.ops[0], true, true) && Admits(inst.ops[1], true, true) ==>
      Stuck(pre, inst, old(RegsOf(vals, valid)))
  {
    hide Binary, Stuck, Does, StepSays;
    p, s := Fail, Gives(0);
    var l := ReadOperand(inst.ops[0], true, true, vals, valid);
    var r := ReadOperand(inst.ops[1], true, true, vals, valid);
    if l.None? && Admits(inst.ops[0], true, true) { UnwrittenIsStuck(pre, inst, RegsOf(vals, valid), 0); }
    if r.None? && Admits(inst.ops[1], true, true) { UnwrittenIsStuck(pre, inst, RegsOf(vals, valid), 1); }
    if l.Some? && r.Some? {
      var res := Binary(inst.op, l.value, r.value);
      ghost var regs := RegsOf(vals, valid);
      assert ReadAll(inst.ops, regs, [l.value, r.value]);
      if res.None? { NoQuotientIsStuck(pre, inst, regs, l.value, r.value); }
      if res.Some? && inst.dest.Some? {
        ComputeDoes(pre, inst, regs, [l.value, r.value], res.value);
        DoesSays(mod, pre, inst, regs, Gives(res.value));
        SetReg(vals, valid, inst.dest.value, res.value);
        p, s := Wrote, Gives(res.value);
      }
    }
  }

  method InterpretCast(mod: Module, pre: seq<i64>, inst: Inst, vals: array<i64>, valid: array<bool>)
    returns (p: Progress, ghost s: Sure)
    requires inst.op.Cast? && ShapeOk(inst) && vals.Length == valid.Length && RegsFit(inst, vals.Length)
    modifies vals, valid
    ensures Followed(mod, pre, inst, p, s, 0, old(RegsOf(vals, valid)), RegsOf(vals, valid))
    ensures !p.Fail? ==> Does(pre, inst, old(RegsOf(vals, valid)), s)
    ensures p.Fail? && Admits(inst.ops[0], true, true) ==> Stuck(pre, inst, old(RegsOf(vals, valid)))
  {
    hide Stuck, Does, StepSays;
    p, s := Fail, Gives(0);
    var x := ReadOperand(inst.ops[0], true, true, vals, valid);
    if x.None? && Admits(inst.ops[0], true, true) { UnwrittenIsStuck(pre, inst, RegsOf(vals, valid), 0); }
    if x.Some? && inst.dest.Some? {
      ghost var regs := RegsOf(vals, valid);
      assert ReadAll(inst.ops, regs, [x.value]);
      ComputeDoes(pre, inst, regs, [x.value], x.value);
      DoesSays(mod, pre, inst, regs, Gives(x.value));
      SetReg(vals, valid, inst.dest.value, x.value);
      p, s := Wrote, Gives(x.value);
    }
  }

  predicate SelectAdmits(inst: Inst, ints: bool, bools: bool) {
    && |inst.ops| == 3 && Admits(inst.ops[0], ints, true) && Admits(inst.ops[1], true, bools)
    && Admits(inst.ops[2], true, bools)
  }

  predicate JumpAdmits(inst: Inst, ints: bool, bools: bool) {
    && (inst.op.Br? ==> |inst.ops| > 0 && Admits(inst.ops[0], ints, true))
    && (inst.op.Switch? ==> |inst.ops| > 0 && Admits(inst.ops[0], true, bools))
  }

  predicate ReturnAdmits(inst: Inst, bools: bool) { inst.ops != [] ==> Admits(inst.ops[0], true, bools) }

  /** `ints` says whether a literal condition is accepted, `bools` whether literal truth values may be chosen from. */
  method InterpretSelect(mod: Module, pre: seq<i64>, inst: Inst, ints: bool, bools: bool, vals: array<i64>,
        valid: array<bool>)
    returns (p: Progress, ghost s: Sure)
    requires inst.op.Select? && ShapeOk(inst) && vals.Length == valid.Length && RegsFit(inst, vals.Length)
    modifies vals, valid
    ensures Followed(mod, pre, inst, p, s, 0, old(RegsOf(vals, valid)), RegsOf(vals, valid))
    ensures !p.Fail? ==> Does(pre, inst, old(RegsOf(vals, valid)), s)
    ensures p.Fail? && SelectAdmits(inst, ints, bools) ==> Stuck(pre, inst, old(RegsOf(vals, valid)))
  {
    hide Stuck, Does, StepSays;
    p, s := Fail, Gives(0);
    var c := ReadOperand(inst.ops[0], ints, true, vals, valid);
    var t := ReadOperand(inst.ops[1], true, bools, vals, valid);
    var e := ReadOperand(inst.ops[2], true, bools, vals, valid);
    if SelectAdmits(inst, ints, bools) && (c.None? || t.None? || e.None?) {
      UnwrittenIsStuck(pre, inst, RegsOf(vals, valid), if c.None? then 0 else if t.None? then 1 else 2);
    }
    if c.Some? && t.Some? && e.Some? && inst.dest.Some? {
      ghost var regs := RegsOf(vals, valid);
      var res := if c.value != 0 then t.value else e.value;
      assert ReadAll(inst.ops, regs, [c.value, t.value, e.value]);
      ComputeDoes(pre, inst, regs, [c.value, t.value, e.value], res);
      DoesSays(mod, pre, inst, regs, Gives(res));
      SetReg(vals, valid, inst.dest.value, res);
      p, s := Wrote, Gives(res);
    }
  }

  method InterpretJump(mod: Module, pre: seq<i64>, inst: Inst, ints: bool, bools: bool, vals: array<i64>,
        valid: array<bool>)
    returns (p: Progress, ghost s: Sure)
    requires (inst.op.Jmp? || inst.op.Br? || inst.op.Switch?) && ShapeOk(inst) && vals.Length == valid.Length
    requires RegsFit(inst, vals.Length)
    ensures Followed(mod, pre, inst, p, s, 0, RegsOf(vals, valid), RegsOf(vals, valid))
    ensures !p.Fail? ==> Does(pre, inst, RegsOf(vals, valid), s)
    ensures p.Fail? && JumpAdmits(inst, ints, bools) ==> Stuck(pre, inst, RegsOf(vals, valid))
  {
    hide Stuck, Does, StepSays;
    p, s := Fail, Gives(0);
    ghost var regs := RegsOf(vals, valid);
    if inst.op.Jmp? {
      p, s := Went(inst.ops[0].id), Leads(inst.ops[0].id);
      assert inst.ops == [BlockRef(inst.ops[0].id)];
      JumpDoes(pre, inst, regs, inst.ops[0].id);
      DoesSays(mod, pre, inst, regs, Leads(inst.ops[0].id));
    } else if inst.op.Br? {
      var c := ReadOperand(inst.ops[0], ints, true, vals, valid);
      if c.Some? {
        var b := if c.value != 0 then inst.ops[1].id else inst.ops[2].id;
        BranchDoes(pre, inst, regs, c.value, inst.ops[1].id, inst.ops[2].id);
        DoesSays(mod, pre, inst, regs, Leads(b));
        p, s := Went(b), Leads(b);
      } else if JumpAdmits(inst, ints, bools) {
        UnwrittenIsStuck(pre, inst, regs, 0);
      }
    } else {
      var c := ReadOperand(inst.ops[0], true, bools, vals, valid);
      if c.Some? {
        var b := PickCase(inst, c.value);
        SwitchDoes(pre, inst, regs, c.value);
        DoesSays(mod, pre, inst, regs, Leads(b));
        p, s := Went(b), Leads(b);
      } else if JumpAdmits(inst, ints, bools) {
        UnwrittenIsStuck(pre, inst, regs, 0);
      }
    }
  }

  /** Scans the cases of a switch for the first matching label. */
  method PickCase(inst: Inst, c: i64) returns (b: nat)
    requires inst.op.Switch? && ShapeOk(inst)
    ensures b == SwitchTarget(c, SwitchArgs(inst.ops, c), 2, inst.ops[1].id) && b in Targets(inst)
  {
    b := inst.ops[1].id;
    var count := (|inst.ops| - 2) / 2;
    for i := 0 to count
      invariant SwitchTarget(c, SwitchArgs(inst.ops, c), 2, b) == SwitchTarget(c, SwitchArgs(inst.ops, c), 2 + 2 * i, b)
      invariant b == inst.ops[1].id
    {
      if inst.ops[2 + i * 2].i == c {
        b := inst.ops[2 + i * 2 + 1].id;
        return;
      }
    }
  }

  method InterpretReturn(mod: Module, pre: seq<i64>, inst: Inst, bools: bool, vals: array<i64>, valid: array<bool>)
    returns (p: Progress, ghost s: Sure)
    requires inst.op.Ret? && OperandsOk(inst) && vals.Length == valid.Length && RegsFit(inst, vals.Length)
    ensures Followed(mod, pre, inst, p, s, 0, RegsOf(vals, valid), RegsOf(vals, valid))
    ensures !p.Fail? ==> Does(pre, inst, RegsOf(vals, valid), s)
    ensures p.Fail? && ReturnAdmits(inst, bools) ==> Stuck(pre, inst, RegsOf(vals, valid))
  {
    hide Stuck, Does, StepSays;
    p, s := Fail, Gives(0);
    ghost var regs := RegsOf(vals, valid);
    if inst.ops == [] {
      ReturnDoes(pre, inst, regs, []);
      DoesSays(mod, pre, inst, regs, Answer(0));
      p, s := Finished(0), Answer(0);
    } else {
      var x := ReadOperand(inst.ops[0], true, bools, vals, valid);
      if x.Some? {
        ReturnDoes(pre, inst, regs, [x.value]);
        DoesSays(mod, pre, inst, regs, Answer(x.value));
        p, s := Finished(x.value), Answer(x.value);
      } else if ReturnAdmits(inst, bools) {
        UnwrittenIsStuck(pre, inst, regs, 0);
      }
    }
  }
}
