/** What propagation has to find, said without its table: constants, copies and repeated computations, and when no
    later instruction reads one of them any more. */
module Settled {
  import opened Sir
  import opened Propagation
  import opened Prune

  // ---------------------------------------------------------------------------------------------
  // What counts as a constant or a copy

  /** On literals an instruction is its result if and only if it has one and is neither a sum without a 0 nor a product
      without a 1. */
  lemma LiteralsAreFound(x: Inst, l: i64, r: i64)
    requires ShapeOk(x) && (x.op.IsArith() || x.op.IsCompare()) && x.ops == [ConstInt(l), ConstInt(r)]
    ensures CopyOf(x).Some? <==>
      Binary(x.op, l, r).Some? && !(x.op.Add? && l != 0 && r != 0) && !(x.op.Mul? && l != 1 && r != 1)
    ensures CopyOf(x).Some? ==>
      var v := Binary(x.op, l, r).value;
      CopyOf(x).value == if x.op.IsCompare() then ConstBool(v == 1) else ConstInt(v)
  {
    hide Wrap, BitOp, Pow2, TruncDiv;
    assert x.ops[0] == ConstInt(l) && x.ops[1] == ConstInt(r) && |x.ops| == 2;
    Neutral(x.op, l, r);
  }

  ghost predicate NeutralOnRight(op: Opcode, c: i64)
    requires op.IsArith()
  {
    forall y: i64 :: Binary(op, y, c) == Some(y)
  }

  ghost predicate NeutralOnLeft(op: Opcode, c: i64)
    requires op.IsArith()
  {
    forall y: i64 :: Binary(op, c, y) == Some(y)
  }

  /** Adding, subtracting, multiplying or dividing by what never makes a difference is a copy. */
  lemma NeutralIsFound(x: Inst, c: i64)
    requires ShapeOk(x) && (x.op.Add? || x.op.Sub? || x.op.Mul? || x.op.Div?)
    ensures x.ops[1] == ConstInt(c) && NeutralOnRight(x.op, c) ==> CopyOf(x) == Some(x.ops[0])
    ensures x.ops[0] == ConstInt(c) && NeutralOnLeft(x.op, c) ==> CopyOf(x).Some?
  {
    hide Binary, NeutralOnRight, NeutralOnLeft;
    if x.ops[1] == ConstInt(c) && NeutralOnRight(x.op, c) { OnlyNeutral(x.op, c); }
    if x.ops[0] == ConstInt(c) && NeutralOnLeft(x.op, c) { OnlyLeftNeutral(x.op, c); }
  }

  lemma OnlyNeutral(op: Opcode, c: i64)
    requires (op.Add? || op.Sub? || op.Mul? || op.Div?) && NeutralOnRight(op, c)
    ensures c == if op.Add? || op.Sub? then 0 else 1
  {
    if op.Add? || op.Sub? {
      assert Binary(op, 0, c) == Some(0);
    } else {
      assert Binary(op, 1, c) == Some(1);
    }
  }

  lemma OnlyLeftNeutral(op: Opcode, c: i64)
    requires (op.Add? || op.Sub? || op.Mul? || op.Div?) && NeutralOnLeft(op, c)
    ensures (op.Add? && c == 0) || (op.Mul? && c == 1)
  {
    assert Binary(op, c, 0) == Some(0) && Binary(op, c, 1) == Some(1);
  }

  lemma CopiesAreFound(x: Inst)
    requires ShapeOk(x)
    ensures x.op.Cast? ==> CopyOf(x) == Some(x.ops[0])
    ensures x.op.Select? && x.ops[0].ConstBool? ==> CopyOf(x) == Some(if x.ops[0].b then x.ops[1] else x.ops[2])
  {}

  /** The order of operands is looked past for exactly the operations on which it makes no difference. */
  lemma CommutativeExactly(op: Opcode)
    requires op.IsArith() || op.IsCompare()
    ensures IsCommutative(op) <==> forall l: i64, r: i64 :: Binary(op, l, r) == Binary(op, r, l)
  {
    if IsCommutative(op) {
      forall l: i64, r: i64 ensures Binary(op, l, r) == Binary(op, r, l) { CommutativeBinary(op, l, r); }
    } else {
      assert Pow2(0) == 1 && Pow2(1) == 2;
      assert Binary(op, 0, 1) != Binary(op, 1, 0);
    }
  }

  lemma RepeatsAreFound(x: Inst, y: Inst)
    requires ShapeOk(x) && ShapeOk(y) && x.op.IsPureCompute() && y.op == x.op
    requires x.ops == y.ops || (IsCommutative(x.op) && x.ops == [y.ops[1], y.ops[0]])
    ensures SameComputation(x, y)
  {}

  lemma RepeatsChain(x: Inst, y: Inst, z: Inst)
    requires SameComputation(x, y) && SameComputation(y, z)
    ensures SameComputation(x, z)
  {}

  // ---------------------------------------------------------------------------------------------
  // Blocks and functions in which nothing is left to find

  predicate Original(x: Inst) { ShapeOk(x) && x.op.IsPureCompute() && CopyOf(x).None? }

  /** Instruction `k` delivers a value that is known already: a constant, a copy, or a repeat of one before it. */
  predicate Spare(insts: seq<Inst>, k: nat)
    requires k < |insts|
  {
    && ShapeOk(insts[k]) && insts[k].op.IsPureCompute()
    && (CopyOf(insts[k]).Some? || exists i :: 0 <= i < k && Original(insts[i]) && SameComputation(insts[i], insts[k]))
  }

  lemma SpareHasDest(insts: seq<Inst>, k: nat)
    requires k < |insts| && Spare(insts, k)
    ensures insts[k].dest.Some?
  {}

  predicate Reads(insts: seq<Inst>, l: nat, v: nat)
    requires l < |insts|
  {
    VReg(v) in insts[l].ops
  }

  predicate BlockSettled(insts: seq<Inst>) {
    forall k | 0 <= k < |insts| && Spare(insts, k) ::
      insts[k].dest.Some? && forall l | k < l < |insts| :: !Reads(insts, l, insts[k].dest.value)
  }

  predicate Unread(xs: seq<Inst>, ys: seq<Inst>) {
    forall k | 0 <= k < |xs| && Spare(xs, k) ::
      xs[k].dest.Some? && forall l | 0 <= l < |ys| :: !Reads(ys, l, xs[k].dest.value)
  }

  /** No instruction reads what an instruction before it, in the block or in a block earlier in the list, computes in
      vain. */
  predicate FuncSettled(f: Func) {
    && (forall i | 0 <= i < |f.order| :: f.order[i] in f.body && BlockSettled(f.body[f.order[i]]))
    && forall i, j | 0 <= i < j < |f.order| && f.order[i] in f.body && f.order[j] in f.body ::
      Unread(f.body[f.order[i]], f.body[f.order[j]])
  }

  lemma {:induction false} FilterKeepsOrder(order: seq<nat>, keep: set<nat>, i: nat, j: nat) returns (i': nat, j': nat)
    requires i < j < |Filter(order, keep)|
    ensures i' < j' < |order| && order[i'] == Filter(order, keep)[i] && order[j'] == Filter(order, keep)[j]
  {
    if order[0] in keep && i == 0 {
      assert Filter(order, keep)[j] == Filter(order[1..], keep)[j - 1];
      j' := FilterHas(order[1..], keep, j - 1);
      i', j' := 0, j' + 1;
    } else {
      var d := if order[0] in keep then 1 else 0;
      i', j' := FilterKeepsOrder(order[1..], keep, i - d, j - d);
      i', j' := i' + 1, j' + 1;
    }
  }

  lemma {:induction false} FilterHas(order: seq<nat>, keep: set<nat>, j: nat) returns (j': nat)
    requires j < |Filter(order, keep)|
    ensures j' < |order| && order[j'] == Filter(order, keep)[j]
  {
    if order[0] in keep && j == 0 {
      j' := 0;
    } else {
      j' := FilterHas(order[1..], keep, if order[0] in keep then j - 1 else j);
      j' := j' + 1;
    }
  }

  /** Dropping blocks brings nothing back. */
  lemma RestrictStaysSettled(f: Func, keep: set<nat>)
    requires FuncSettled(f)
    ensures FuncSettled(Restrict(f, keep))
  {
    hide BlockSettled, Unread;
    var g := Restrict(f, keep);
    forall i | 0 <= i < |g.order|
      ensures g.order[i] in g.body && BlockSettled(g.body[g.order[i]])
    {
      var i' := FilterHas(f.order, keep, i);
      FilterFacts(f.order, keep);
    }
    forall i, j | 0 <= i < j < |g.order| && g.order[i] in g.body && g.order[j] in g.body
      ensures Unread(g.body[g.order[i]], g.body[g.order[j]])
    {
      var i', j' := FilterKeepsOrder(f.order, keep, i, j);
    }
  }
}
