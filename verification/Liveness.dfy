/** Backward liveness analysis of the register allocator. */
module Liveness {
  import opened Sir

  // ---------------------------------------------------------------------------------------------
  // What liveness means, in terms of paths through the control-flow graph

  ghost predicate Writes(insts: seq<Inst>, v: nat) {
    exists i :: 0 <= i < |insts| && insts[i].dest == Some(v)
  }

  /** Some instruction of the block reads `v` before the block writes it. */
  ghost predicate ReadsFirst(insts: seq<Inst>, v: nat) {
    exists i :: 0 <= i < |insts| && VReg(v) in insts[i].ops && !Writes(insts[..i], v)
  }

  /** A path of blocks that leads to a read of `v`, no block before the last one writing `v`. */
  ghost predicate IsReadPath(f: Func, path: seq<nat>, v: nat) {
    && path != []
    && (forall i | 0 <= i < |path| :: path[i] in f.body)
    && (forall i | 0 <= i < |path| - 1 :: path[i + 1] in Successors(f.body[path[i]]) && !Writes(f.body[path[i]], v))
    && ReadsFirst(f.body[path[|path| - 1]], v)
  }

  ghost predicate IsLiveIn(f: Func, b: nat, v: nat) {
    exists path :: IsReadPath(f, path, v) && path[0] == b
  }

  ghost predicate IsLiveOut(f: Func, b: nat, v: nat)
    requires b in f.body
  {
    exists s :: s in Successors(f.body[b]) && IsLiveIn(f, s, v)
  }

  // ---------------------------------------------------------------------------------------------
  // Use and def lists of a block

  /** How often a sequence of instructions mentions `v`, as operand or as destination. */
  function Mentions(insts: seq<Inst>, v: nat): nat {
    if insts == [] then 0 else Mentions(insts[..|insts| - 1], v) + MentionsIn(insts[|insts| - 1], v)
  }

  function MentionsIn(inst: Inst, v: nat): nat {
    OperandCount(inst.ops, v) + if inst.dest == Some(v) then 1 else 0
  }

  function OperandCount(ops: seq<Value>, v: nat): (n: nat)
    ensures n > 0 <==> VReg(v) in ops
  {
    if ops == [] then 0
    else
      assert ops == ops[..|ops| - 1] + [ops[|ops| - 1]];
      OperandCount(ops[..|ops| - 1], v) + if ops[|ops| - 1] == VReg(v) then 1 else 0
  }

  predicate Distinct(s: seq<nat>) { forall i, j | 0 <= i < j < |s| :: s[i] != s[j] }

  function UpTo(max: nat): (r: set<nat>)
    ensures forall x: nat :: x in r <==> x <= max
    ensures |r| == max + 1
  {
    if max == 0 then {0} else UpTo(max - 1) + {max}
  }

  function Elements(s: seq<nat>): set<nat> { set x: nat | x in s }

  /** A list without repetitions drawn from 0..max fits a buffer of max + 1 cells. */
  lemma DistinctFits(s: seq<nat>, max: nat)
    requires Distinct(s) && forall x | x in s :: x <= max
    ensures |s| <= max + 1
  {
    DistinctSize(s);
    assert Elements(s) <= UpTo(max);
    assert UpTo(max) == Elements(s) + (UpTo(max) - Elements(s));
  }

  lemma {:induction false} DistinctSize(s: seq<nat>)
    requires Distinct(s)
    ensures |Elements(s)| == |s|
  {
    if s != [] {
      var t, last := s[..|s| - 1], s[|s| - 1];
      DistinctSize(t);
      assert s == t + [last];
      assert Elements(s) == Elements(t) + {last};
    }
  }

  method AddUses(ops: seq<Value>, maxVreg: nat, useCount: array<nat>, uses0: seq<nat>, defs: seq<nat>)
    returns (uses: seq<nat>)
    requires useCount.Length == maxVreg + 1
    requires Distinct(uses0) && forall v | v in uses0 :: v <= maxVreg
    modifies useCount
    ensures Distinct(uses)
    ensures forall v: nat :: v in uses <==> v in uses0 || (v <= maxVreg && VReg(v) in ops && v !in defs)
    ensures forall v | 0 <= v <= maxVreg :: useCount[v] == old(useCount[v]) + OperandCount(ops, v)
  {
    uses := uses0;
    for i := 0 to |ops|
      invariant Distinct(uses)
      invariant forall v: nat :: v in uses <==> v in uses0 || (v <= maxVreg && VReg(v) in ops[..i] && v !in defs)
      invariant forall v | 0 <= v <= maxVreg :: useCount[v] == old(useCount[v]) + OperandCount(ops[..i], v)
    {
      assert ops[..i + 1][..i] == ops[..i];
      if ops[i].VReg? {
        var v := ops[i].r;
        if v <= maxVreg {
          useCount[v] := useCount[v] + 1;
          if v !in defs && v !in uses {
            uses := uses + [v];
          }
        }
      }
    }
    assert ops[..|ops|] == ops;
  }

  lemma ReadsFirstExtend(insts: seq<Inst>, i: nat, v: nat)
    requires i < |insts|
    ensures ReadsFirst(insts[..i + 1], v)
      <==> ReadsFirst(insts[..i], v) || (VReg(v) in insts[i].ops && !Writes(insts[..i], v))
    ensures Writes(insts[..i + 1], v) <==> Writes(insts[..i], v) || insts[i].dest == Some(v)
  {
    WritesExtend(insts, i, v);
    hide Writes;
    var a, b := insts[..i], insts[..i + 1];
    assert b[i] == insts[i] && b[..i] == a;
    if ReadsFirst(a, v) {
      var k :| 0 <= k < |a| && VReg(v) in a[k].ops && !Writes(a[..k], v);
      assert b[..k] == a[..k] && b[k] == a[k];
    }
    if ReadsFirst(b, v) {
      var k :| 0 <= k < |b| && VReg(v) in b[k].ops && !Writes(b[..k], v);
      if k < i {
        assert a[..k] == b[..k] && a[k] == b[k];
      }
    }
  }

  lemma WritesExtend(insts: seq<Inst>, i: nat, v: nat)
    requires i < |insts|
    ensures Writes(insts[..i + 1], v) <==> Writes(insts[..i], v) || insts[i].dest == Some(v)
  {
    var a, b := insts[..i], insts[..i + 1];
    assert b[i] == insts[i];
    if Writes(b, v) {
      var k :| 0 <= k < |b| && b[k].dest == Some(v);
      if k < i { assert a[k] == b[k]; }
    }
    if Writes(a, v) {
      var k :| 0 <= k < |a| && a[k].dest == Some(v);
      assert b[k] == a[k];
    }
  }

  /** Use and def lists of a block; both fit the allocator's buffers of maxVreg + 1 cells. */
  method UseDef(insts: seq<Inst>, maxVreg: nat, useCount: array<nat>) returns (uses: seq<nat>, defs: seq<nat>)
    requires useCount.Length == maxVreg + 1
    modifies useCount
    ensures forall v: nat :: v in uses <==> v <= maxVreg && ReadsFirst(insts, v)
    ensures forall v: nat :: v in defs <==> v <= maxVreg && Writes(insts, v)
    ensures |uses| <= maxVreg + 1 && |defs| <= maxVreg + 1
    ensures forall v | 0 <= v <= maxVreg :: useCount[v] == old(useCount[v]) + Mentions(insts, v)
  {
    uses, defs := [], [];
    for i := 0 to |insts|
      invariant Distinct(uses) && Distinct(defs)
      invariant forall v: nat :: v in uses <==> v <= maxVreg && ReadsFirst(insts[..i], v)
      invariant forall v: nat :: v in defs <==> v <= maxVreg && Writes(insts[..i], v)
      invariant forall v | 0 <= v <= maxVreg :: useCount[v] == old(useCount[v]) + Mentions(insts[..i], v)
    {
      assert insts[..i + 1][..i] == insts[..i];
      uses := AddUses(insts[i].ops, maxVreg, useCount, uses, defs);
      match insts[i].dest {
        case None =>
        case Some(v) =>
          if v <= maxVreg {
            useCount[v] := useCount[v] + 1;
            if v !in defs {
              defs := defs + [v];
            }
          }
      }
      forall v: nat
        ensures v in uses <==> v <= maxVreg && ReadsFirst(insts[..i + 1], v)
        ensures v in defs <==> v <= maxVreg && Writes(insts[..i + 1], v)
      {
        ReadsFirstExtend(insts, i, v);
      }
    }
    assert insts[..|insts|] == insts;
    DistinctFits(uses, maxVreg);
    DistinctFits(defs, maxVreg);
  }

  // ---------------------------------------------------------------------------------------------
  // The dataflow iteration

  /** Successors in the order the allocator visits them. */
  function SuccessorList(insts: seq<Inst>): (r: seq<nat>)
    requires BlockOk(insts)
    ensures forall s :: s in r <==> s in Successors(insts)
  {
    if insts == [] then []
    else
      var last := insts[|insts| - 1];
      assert ShapeOk(last);
      match last.op
      case Jmp => [last.ops[0].id]
      case Br => [last.ops[1].id, last.ops[2].id]
      case Switch => [last.ops[1].id] + CaseTargets(last, 2)
      case _ => []
  }

  function CaseTargets(inst: Inst, k: nat): (r: seq<nat>)
    requires inst.op.Switch? && ShapeOk(inst) && k % 2 == 0 && 2 <= k <= |inst.ops|
    ensures forall s :: s in r <==> exists j :: k <= j < |inst.ops| && inst.ops[j].BlockRef? && inst.ops[j].id == s
    decreases |inst.ops| - k
  {
    if k == |inst.ops| then [] else [inst.ops[k + 1].id] + CaseTargets(inst, k + 2)
  }

  /** The tables the iteration works on, indexed by block id. */
  ghost predicate Tables(f: Func, maxVreg: nat, uses: map<nat, seq<nat>>, defs: map<nat, seq<nat>>,
        liveIn: array2<bool>, liveOut: array2<bool>)
  {
    && WellFormed(f)
    && uses.Keys == f.body.Keys && defs.Keys == f.body.Keys
    && (forall b, v: nat | b in f.body :: v in uses[b] <==> v <= maxVreg && ReadsFirst(f.body[b], v))
    && (forall b, v: nat | b in f.body :: v in defs[b] <==> v <= maxVreg && Writes(f.body[b], v))
    && liveIn != liveOut
    && liveIn.Length1 == maxVreg + 1 && liveOut.Length1 == maxVreg + 1 && liveIn.Length0 == liveOut.Length0
    && (forall b | b in f.body :: b < liveIn.Length0)
  }

  /** The entries of a table that are on, as (block, register) pairs. */
  ghost function On(t: array2<bool>): set<(nat, nat)>
    reads t
  {
    set b: nat, v: nat | b < t.Length0 && v < t.Length1 && t[b, v] :: (b, v)
  }

  lemma BlockIsOk(f: Func, b: nat)
    requires WellFormed(f) && b in f.body
    ensures BlockOk(f.body[b]) && Successors(f.body[b]) <= f.body.Keys
  {}

  method GatherLiveOut(f: Func, maxVreg: nat, b: nat, liveIn: array2<bool>, liveOut: array2<bool>)
    requires WellFormed(f) && b in f.body && liveIn != liveOut
    requires liveIn.Length1 == maxVreg + 1 && liveOut.Length1 == maxVreg + 1 && liveIn.Length0 == liveOut.Length0
    requires forall b | b in f.body :: b < liveIn.Length0
    modifies liveOut
    ensures forall b': nat, v: nat | b' != b :: (b', v) in On(liveOut) <==> (b', v) in old(On(liveOut))
    ensures forall v: nat | 1 <= v <= maxVreg ::
      (b, v) in On(liveOut) <==>
      (b, v) in old(On(liveOut)) || exists s | s in Successors(f.body[b]) :: (s, v) in On(liveIn)
  {
    hide WellFormed, Successors, BlockOk;
    BlockIsOk(f, b);
    var succs := SuccessorList(f.body[b]);
    assert forall k | 0 <= k < |succs| :: succs[k] in f.body;
    for i := 0 to |succs|
      invariant forall b', v | 0 <= b' < liveOut.Length0 && b' != b && 0 <= v <= maxVreg ::
        liveOut[b', v] == old(liveOut[b', v])
      invariant liveOut[b, 0] == old(liveOut[b, 0])
      invariant forall v | 1 <= v <= maxVreg ::
        liveOut[b, v] <==> old(liveOut[b, v]) || exists k | 0 <= k < i :: liveIn[succs[k], v]
    {
      for v := 1 to maxVreg + 1
        invariant forall b', u | 0 <= b' < liveOut.Length0 && b' != b && 0 <= u <= maxVreg ::
          liveOut[b', u] == old(liveOut[b', u])
        invariant liveOut[b, 0] == old(liveOut[b, 0])
        invariant forall u | 1 <= u < v ::
          liveOut[b, u] <==> old(liveOut[b, u]) || exists k | 0 <= k < i + 1 :: liveIn[succs[k], u]
        invariant forall u | v <= u <= maxVreg ::
          liveOut[b, u] <==> old(liveOut[b, u]) || exists k | 0 <= k < i :: liveIn[succs[k], u]
      {
        if liveIn[succs[i], v] {
          liveOut[b, v] := true;
        }
      }
    }
    assert forall k | 0 <= k < |succs| :: succs[k] in Successors(f.body[b]);
    forall s, v: nat | s in Successors(f.body[b]) && 1 <= v <= maxVreg && (s, v) in On(liveIn)
      ensures liveOut[b, v]
    {
      var k :| 0 <= k < |succs| && succs[k] == s;
      assert liveIn[succs[k], v];
    }
  }

  method ComputeLiveIn(maxVreg: nat, b: nat, uses: seq<nat>, defs: seq<nat>, liveIn: array2<bool>,
        liveOut: array2<bool>)
    returns (changed: bool)
    requires liveIn != liveOut && liveIn.Length1 == maxVreg + 1 && liveOut.Length1 == maxVreg + 1
    requires b < liveIn.Length0 && b < liveOut.Length0
    modifies liveIn
    ensures forall b': nat, v: nat | b' != b :: (b', v) in On(liveIn) <==> (b', v) in old(On(liveIn))
    ensures (b, 0) in On(liveIn) <==> (b, 0) in old(On(liveIn))
    ensures forall v: nat | v > maxVreg :: (b, v) !in On(liveIn)
    ensures forall v: nat | 1 <= v <= maxVreg ::
      (b, v) in On(liveIn) <==> v in uses || ((b, v) in On(liveOut) && v !in defs)
    ensures changed <==> On(liveIn) != old(On(liveIn))
  {
    changed := false;
    for v := 1 to maxVreg + 1
      invariant forall b', u | 0 <= b' < liveIn.Length0 && b' != b && 0 <= u <= maxVreg ::
        liveIn[b', u] == old(liveIn[b', u])
      invariant liveIn[b, 0] == old(liveIn[b, 0])
      invariant forall u | 1 <= u < v :: liveIn[b, u] <==> u in uses || (liveOut[b, u] && u !in defs)
      invariant forall u | v <= u <= maxVreg :: liveIn[b, u] == old(liveIn[b, u])
      invariant changed <==> exists u | 1 <= u < v :: liveIn[b, u] != old(liveIn[b, u])
    {
      var newIn := v in uses;
      if !newIn && liveOut[b, v] && v !in defs {
        newIn := true;
      }
      if newIn != liveIn[b, v] {
        liveIn[b, v] := newIn;
        changed := true;
      }
    }
    if changed {
      ghost var v :| 1 <= v <= maxVreg && liveIn[b, v] != old(liveIn[b, v]);
      assert (b, v) in old(On(liveIn)) <==> (b, v) !in On(liveIn);
    } else {
      assert On(liveIn) == old(On(liveIn));
    }
  }

  ghost function Off(t: array2<bool>): set<(nat, nat)>
    reads t
  {
    set b: nat, v: nat | b < t.Length0 && v < t.Length1 && !t[b, v] :: (b, v)
  }

  /** Bits that are on are right, and an in-bit that is on is justified by its block's equation. */
  ghost predicate Sound(f: Func, maxVreg: nat, ins: set<(nat, nat)>, outs: set<(nat, nat)>) {
    forall b, v | b in f.body && 1 <= v <= maxVreg ::
      && ((b, v) in ins ==> IsLiveIn(f, b, v))
      && ((b, v) in outs ==> IsLiveOut(f, b, v))
      && ((b, v) in ins ==> ReadsFirst(f.body[b], v) || ((b, v) in outs && !Writes(f.body[b], v)))
  }

  /** Block `b` satisfies its dataflow equations. */
  ghost predicate Settled(f: Func, maxVreg: nat, b: nat, ins: set<(nat, nat)>, outs: set<(nat, nat)>)
    requires b in f.body
  {
    forall v | 1 <= v <= maxVreg ::
      && (forall s | s in Successors(f.body[b]) :: (s, v) in ins ==> (b, v) in outs)
      && ((b, v) in ins <==> ReadsFirst(f.body[b], v) || ((b, v) in outs && !Writes(f.body[b], v)))
  }

  /** What a visit of block `b` does to the tables. */
  ghost predicate Visited(f: Func, maxVreg: nat, b: nat, ins: set<(nat, nat)>, outs: set<(nat, nat)>, ins': set<(nat,
        nat)>, outs': set<(nat, nat)>)
    requires b in f.body
  {
    && (forall b': nat, v: nat | b' != b :: (b', v) in outs' <==> (b', v) in outs)
    && (forall b': nat, v: nat | b' != b :: (b', v) in ins' <==> (b', v) in ins)
    && (forall v: nat | 1 <= v <= maxVreg ::
      (b, v) in outs' <==> (b, v) in outs || exists s | s in Successors(f.body[b]) :: (s, v) in ins)
    && (forall v: nat | 1 <= v <= maxVreg ::
      (b, v) in ins' <==> ReadsFirst(f.body[b], v) || ((b, v) in outs' && !Writes(f.body[b], v)))
    && ((b, 0) in ins' <==> (b, 0) in ins)
    && forall v: nat | v > maxVreg :: (b, v) !in ins'
  }

  lemma ReadHereIsLiveIn(f: Func, b: nat, v: nat)
    requires b in f.body && ReadsFirst(f.body[b], v)
    ensures IsLiveIn(f, b, v)
  {
    assert IsReadPath(f, [b], v) && [b][0] == b;
  }

  lemma LiveOutIsLiveIn(f: Func, b: nat, v: nat)
    requires b in f.body && IsLiveOut(f, b, v) && !Writes(f.body[b], v)
    ensures IsLiveIn(f, b, v)
  {
    var s :| s in Successors(f.body[b]) && IsLiveIn(f, s, v);
    var path :| IsReadPath(f, path, v) && path[0] == s;
    var longer := [b] + path;
    forall i | 0 <= i < |longer| - 1
      ensures longer[i + 1] in Successors(f.body[longer[i]]) && !Writes(f.body[longer[i]], v)
    {
      if i > 0 { assert longer[i] == path[i - 1] && longer[i + 1] == path[i]; }
    }
    assert longer[|longer| - 1] == path[|path| - 1];
    assert IsReadPath(f, longer, v) && longer[0] == b;
  }

  lemma VisitIsSound(f: Func, maxVreg: nat, b: nat, ins: set<(nat, nat)>, outs: set<(nat, nat)>, ins': set<(nat, nat)>,
        outs': set<(nat, nat)>)
    requires WellFormed(f) && b in f.body && Visited(f, maxVreg, b, ins, outs, ins', outs')
    requires forall v | v > maxVreg :: (b, v) !in ins
    requires Sound(f, maxVreg, ins, outs)
    ensures Sound(f, maxVreg, ins', outs') && ins <= ins'
  {
    forall v | 1 <= v <= maxVreg
      ensures (b, v) in outs' ==> IsLiveOut(f, b, v)
      ensures (b, v) in ins' ==> IsLiveIn(f, b, v)
    {
      if (b, v) in ins' {
        if ReadsFirst(f.body[b], v) { ReadHereIsLiveIn(f, b, v); } else { LiveOutIsLiveIn(f, b, v); }
      }
    }
    forall x | x in ins
      ensures x in ins'
    {
      if x.0 == b && 1 <= x.1 <= maxVreg { assert (b, x.1) in ins; }
    }
  }

  lemma VisitSettles(f: Func, maxVreg: nat, b: nat, ins: set<(nat, nat)>, outs: set<(nat, nat)>, outs': set<(nat,
        nat)>, done: set<nat>)
    requires b in f.body && Visited(f, maxVreg, b, ins, outs, ins, outs') && done <= f.body.Keys
    requires forall b' | b' in done :: Settled(f, maxVreg, b', ins, outs)
    ensures forall b' | b' in done + {b} :: Settled(f, maxVreg, b', ins, outs')
  {
    forall b' | b' in done + {b}
      ensures Settled(f, maxVreg, b', ins, outs')
    {
      if b' != b { assert Settled(f, maxVreg, b', ins, outs); }
    }
  }

  /** One block of a sweep. */
  method Visit(f: Func, maxVreg: nat, b: nat, uses: map<nat, seq<nat>>, defs: map<nat, seq<nat>>, liveIn: array2<bool>,
        liveOut: array2<bool>)
    returns (changed: bool)
    requires Tables(f, maxVreg, uses, defs, liveIn, liveOut) && b in f.body
    modifies liveIn, liveOut
    ensures Visited(f, maxVreg, b, old(On(liveIn)), old(On(liveOut)), On(liveIn), On(liveOut))
    ensures changed <==> On(liveIn) != old(On(liveIn))
  {
    hide WellFormed, Successors, ReadsFirst, Writes, BlockOk;
    BlockIsOk(f, b);
    GatherLiveOut(f, maxVreg, b, liveIn, liveOut);
    changed := ComputeLiveIn(maxVreg, b, uses[b], defs[b], liveIn, liveOut);
  }

  /** One backward pass over the block list. */
  method Sweep(f: Func, maxVreg: nat, uses: map<nat, seq<nat>>, defs: map<nat, seq<nat>>, liveIn: array2<bool>,
        liveOut: array2<bool>)
    returns (changed: bool)
    requires Tables(f, maxVreg, uses, defs, liveIn, liveOut)
    requires Sound(f, maxVreg, On(liveIn), On(liveOut))
    modifies liveIn, liveOut
    ensures Sound(f, maxVreg, On(liveIn), On(liveOut))
    ensures old(On(liveIn)) <= On(liveIn)
    ensures changed ==> On(liveIn) != old(On(liveIn))
    ensures !changed ==> forall b | b in f.body :: Settled(f, maxVreg, b, On(liveIn), On(liveOut))
  {
    hide WellFormed, Successors, Settled, Sound, Visited;
    OrderIsBody(f);
    changed := false;
    ghost var done: set<nat> := {};
    var i := |f.order|;
    while i > 0
      invariant 0 <= i <= |f.order|
      invariant done <= f.body.Keys && forall k | i <= k < |f.order| :: f.order[k] in done
      invariant Sound(f, maxVreg, On(liveIn), On(liveOut))
      invariant !changed ==> forall b | b in done :: Settled(f, maxVreg, b, On(liveIn), On(liveOut))
      invariant old(On(liveIn)) <= On(liveIn)
      invariant changed <==> On(liveIn) != old(On(liveIn))
    {
      i := i - 1;
      var b := f.order[i];
      ghost var ins, outs := On(liveIn), On(liveOut);
      var c := Visit(f, maxVreg, b, uses, defs, liveIn, liveOut);
      VisitIsSound(f, maxVreg, b, ins, outs, On(liveIn), On(liveOut));
      changed := changed || c;
      if !changed {
        VisitSettles(f, maxVreg, b, ins, outs, On(liveOut), done);
      }
      done := done + {b};
    }
    assert done == f.body.Keys;
  }

  lemma OrderIsBody(f: Func)
    requires WellFormed(f)
    ensures forall b :: b in f.order <==> b in f.body
  {
    hide BlockOk, Successors;
    assert forall b :: b in f.order <==> b in (set x | x in f.order);
  }

  /** At a fixpoint a path to a read turns the bit of its first block on. */
  lemma {:induction false} PathIsFound(f: Func, maxVreg: nat, ins: set<(nat, nat)>, outs: set<(nat, nat)>,
        path: seq<nat>, v: nat)
    requires 1 <= v <= maxVreg
    requires forall b | b in f.body :: Settled(f, maxVreg, b, ins, outs)
    requires IsReadPath(f, path, v)
    ensures (path[0], v) in ins
    decreases |path|
  {
    var b := path[0];
    assert Settled(f, maxVreg, b, ins, outs);
    if |path| > 1 {
      var rest := path[1..];
      assert forall i | 0 <= i < |rest| :: rest[i] == path[i + 1];
      PathIsFound(f, maxVreg, ins, outs, rest, v);
      assert path[0 + 1] in Successors(f.body[b]);
    }
  }

  /** A sound solution of the dataflow equations is exact. */
  lemma SettledIsExact(f: Func, maxVreg: nat, ins: set<(nat, nat)>, outs: set<(nat, nat)>, b: nat, v: nat)
    requires WellFormed(f) && 1 <= v <= maxVreg && b in f.body
    requires Sound(f, maxVreg, ins, outs)
    requires forall b | b in f.body :: Settled(f, maxVreg, b, ins, outs)
    ensures (b, v) in ins <==> IsLiveIn(f, b, v)
    ensures (b, v) in outs <==> IsLiveOut(f, b, v)
  {
    forall b' | b' in f.body && IsLiveIn(f, b', v)
      ensures (b', v) in ins
    {
      var path :| IsReadPath(f, path, v) && path[0] == b';
      PathIsFound(f, maxVreg, ins, outs, path, v);
    }
    assert Settled(f, maxVreg, b, ins, outs);
  }

  /** Live-in and live-out are exact: a bit is on if and only if some path from the block reaches a
      read of the register before any write of it. */
  method Solve(f: Func, maxVreg: nat, uses: map<nat, seq<nat>>, defs: map<nat, seq<nat>>, liveIn: array2<bool>,
        liveOut: array2<bool>)
    requires Tables(f, maxVreg, uses, defs, liveIn, liveOut)
    requires forall b, v | 0 <= b < liveIn.Length0 && 0 <= v <= maxVreg :: !liveIn[b, v] && !liveOut[b, v]
    modifies liveIn, liveOut
    ensures forall b, v | b in f.body && 1 <= v <= maxVreg :: liveIn[b, v] <==> IsLiveIn(f, b, v)
    ensures forall b, v | b in f.body && 1 <= v <= maxVreg :: liveOut[b, v] <==> IsLiveOut(f, b, v)
  {
    var changed := true;
    while changed
      invariant Sound(f, maxVreg, On(liveIn), On(liveOut))
      invariant !changed ==> forall b | b in f.body :: Settled(f, maxVreg, b, On(liveIn), On(liveOut))
      decreases Off(liveIn), changed
    {
      ghost var ins, off := On(liveIn), Off(liveIn);
      changed := Sweep(f, maxVreg, uses, defs, liveIn, liveOut);
      assert forall x | x in Off(liveIn) :: x in off by {
        forall x | x in Off(liveIn) ensures x in off { assert x !in On(liveIn) && x !in ins; }
      }
      if changed {
        ghost var x :| x in On(liveIn) && x !in ins;
        assert x in off && x !in Off(liveIn);
      }
    }
    forall b, v | b in f.body && 1 <= v <= maxVreg
      ensures liveIn[b, v] <==> IsLiveIn(f, b, v)
      ensures liveOut[b, v] <==> IsLiveOut(f, b, v)
    {
      SettledIsExact(f, maxVreg, On(liveIn), On(liveOut), b, v);
    }
  }
}
