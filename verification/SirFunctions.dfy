/** The mutable function object the optimizer rewrites in place. */
module SirFunctions {
  import opened Sir

  class SirFunction {
    /** The block list, entry first. */
    var order: seq<nat>
    var body: map<nat, seq<Inst>>

    constructor (f: Func)
      ensures Snapshot() == f
    {
      order, body := f.order, f.body;
    }

    ghost function Snapshot(): Func
      reads this
    {
      Func(order, body)
    }

    /** The largest register number the function mentions. */
    method MaxVreg() returns (max: nat)
      requires WellFormed(Snapshot())
      ensures InRange(Snapshot(), max)
      ensures max > 0 ==> exists b, k :: b in body && 0 <= k < |body[b]| && MentionsReg(body[b][k], max)
    {
      hide MentionsReg, BlockOk, Successors;
      max := 0;
      for j := 0 to |order|
        invariant forall i | 0 <= i < j :: order[i] in body && BlockInRange(body[order[i]], max)
        invariant max > 0 ==> exists b, k :: b in body && 0 <= k < |body[b]| && MentionsReg(body[b][k], max)
      {
        var b := order[j];
        assert b in (set x | x in order);
        var top := LargestInBlock(body[b], max);
        forall i | 0 <= i < j ensures BlockInRange(body[order[i]], top) { StaysInRange(body[order[i]], max, top); }
        max := top;
      }
      forall b, k | b in body && 0 <= k < |body[b]|
        ensures InstInRange(body[b][k], max)
      {
        assert b in (set x | x in order);
        var i :| 0 <= i < |order| && order[i] == b;
      }
    }
  }

  ghost predicate BlockInRange(insts: seq<Inst>, max: nat) { forall k | 0 <= k < |insts| :: InstInRange(insts[k], max) }

  lemma StaysInRange(insts: seq<Inst>, max: nat, max': nat)
    requires BlockInRange(insts, max) && max <= max'
    ensures BlockInRange(insts, max')
  {}

  method LargestInBlock(insts: seq<Inst>, low: nat) returns (max: nat)
    ensures max >= low && BlockInRange(insts, max)
    ensures max > low ==> exists k :: 0 <= k < |insts| && MentionsReg(insts[k], max)
  {
    max := low;
    for k := 0 to |insts|
      invariant max >= low && forall k' | 0 <= k' < k :: InstInRange(insts[k'], max)
      invariant max > low ==> exists k' :: 0 <= k' < k && MentionsReg(insts[k'], max)
    {
      var top := LargestIn(insts[k]);
      if top > max { max := top; }
    }
  }

  predicate MentionsReg(inst: Inst, r: nat) { VReg(r) in inst.ops || inst.dest == Some(r) }

  ghost predicate InstInRange(inst: Inst, max: nat) { forall r: nat :: MentionsReg(inst, r) ==> r <= max }

  ghost predicate InRange(f: Func, max: nat) {
    forall b, k | b in f.body && 0 <= k < |f.body[b]| :: InstInRange(f.body[b][k], max)
  }

  /** No register below `low` is mentioned. */
  ghost predicate FromLow(f: Func, low: nat) { forall b, x | b in f.body && x in f.body[b] :: RegsFrom(x, low) }

  ghost predicate RegsFrom(inst: Inst, low: nat) {
    (forall v: nat | VReg(v) in inst.ops :: low <= v) && (inst.dest.Some? ==> low <= inst.dest.value)
  }

  /** The instructions of `g` are instructions of `f`, in the same blocks. */
  ghost predicate OnlyOld(f: Func, g: Func) {
    forall b, x | b in g.body && x in g.body[b] :: b in f.body && x in f.body[b]
  }

  method LargestIn(inst: Inst) returns (max: nat)
    ensures InstInRange(inst, max)
    ensures max > 0 ==> MentionsReg(inst, max)
  {
    max := if inst.dest.Some? then inst.dest.value else 0;
    for i := 0 to |inst.ops|
      invariant forall r: nat | VReg(r) in inst.ops[..i] || inst.dest == Some(r) :: r <= max
      invariant max > 0 ==> MentionsReg(inst, max)
    {
      assert inst.ops[..i + 1] == inst.ops[..i] + [inst.ops[i]];
      if inst.ops[i].VReg? && inst.ops[i].r > max { max := inst.ops[i].r; }
    }
    assert inst.ops[..|inst.ops|] == inst.ops;
  }

  /** Number of instructions in the listed blocks. */
  ghost function Size(order: seq<nat>, body: map<nat, seq<Inst>>): nat {
    if order == [] then 0
    else Size(order[1..], body) + if order[0] in body then |body[order[0]]| else 0
  }

  lemma {:induction false} SizeDrops(order: seq<nat>, body: map<nat, seq<Inst>>, body': map<nat, seq<Inst>>, b: nat)
    requires body.Keys == body'.Keys
    requires forall x | x in body :: |body'[x]| <= |body[x]|
    ensures Size(order, body') <= Size(order, body)
    ensures b in order && b in body && |body'[b]| < |body[b]| ==> Size(order, body') < Size(order, body)
  {
    if order != [] {
      SizeDrops(order[1..], body, body', b);
      assert b in order ==> b == order[0] || b in order[1..];
    }
  }
}
