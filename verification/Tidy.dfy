/** What each pass over a function has brought about, the passes behind it leave in place. */
module Tidy {
  import opened Sir
  import opened SirFunctions
  import opened Propagation
  import opened PropagationPass
  import opened Settled
  import opened DeadCode
  import T = Threading

  // ---------------------------------------------------------------------------------------------
  // Dropping instructions

  /** An instruction that is spare among fewer is spare among all. */
  lemma SpareAmongMore(xs: seq<Inst>, ys: seq<Inst>, e: seq<nat>, k: nat)
    requires Embeds(xs, ys, e) && k < |ys| && Spare(ys, k)
    ensures e[k] < |xs| && Spare(xs, e[k])
  {
    hide CopyOf, SameComputation, ShapeOk, Original;
    if CopyOf(ys[k]).None? {
      var i :| 0 <= i < k && Original(ys[i]) && SameComputation(ys[i], ys[k]);
      assert e[i] < e[k] && Original(xs[e[i]]) && SameComputation(xs[e[i]], xs[e[k]]);
    }
  }

  lemma EmbeddedStaysSettled(xs: seq<Inst>, ys: seq<Inst>, e: seq<nat>)
    requires Embeds(xs, ys, e) && BlockSettled(xs)
    ensures BlockSettled(ys)
  {
    hide Spare;
    forall k | 0 <= k < |ys| && Spare(ys, k)
      ensures ys[k].dest.Some? && forall l | k < l < |ys| :: !Reads(ys, l, ys[k].dest.value)
    {
      SpareAmongMore(xs, ys, e, k);
      forall l | k < l < |ys|
        ensures !Reads(ys, l, ys[k].dest.value)
      {
        assert e[k] < e[l] && !Reads(xs, e[l], xs[e[k]].dest.value);
      }
    }
  }

  lemma EmbeddedStaysUnread(xs: seq<Inst>, ys: seq<Inst>, e: seq<nat>, xs': seq<Inst>, ys': seq<Inst>, e': seq<nat>)
    requires Embeds(xs, ys, e) && Embeds(xs', ys', e') && Unread(xs, xs')
    ensures Unread(ys, ys')
  {
    hide Spare;
    forall k | 0 <= k < |ys| && Spare(ys, k)
      ensures ys[k].dest.Some? && forall l | 0 <= l < |ys'| :: !Reads(ys', l, ys[k].dest.value)
    {
      SpareAmongMore(xs, ys, e, k);
      forall l | 0 <= l < |ys'|
        ensures !Reads(ys', l, ys[k].dest.value)
      {
        assert !Reads(xs', e'[l], xs[e[k]].dest.value);
      }
    }
  }

  lemma ThinnedStaysSettled(f: Func, g: Func)
    requires Thinned(f, g) && FuncSettled(f)
    ensures FuncSettled(g)
  {
    hide BlockSettled, Unread, Embeds;
    forall i | 0 <= i < |g.order|
      ensures g.order[i] in g.body && BlockSettled(g.body[g.order[i]])
    {
      assert ThinnedBlock(f.body[g.order[i]], g.body[g.order[i]]);
      var e :| Embeds(f.body[g.order[i]], g.body[g.order[i]], e);
      EmbeddedStaysSettled(f.body[g.order[i]], g.body[g.order[i]], e);
    }
    forall i, j | 0 <= i < j < |g.order| && g.order[i] in g.body && g.order[j] in g.body
      ensures Unread(g.body[g.order[i]], g.body[g.order[j]])
    {
      assert ThinnedBlock(f.body[g.order[i]], g.body[g.order[i]]);
      assert ThinnedBlock(f.body[g.order[j]], g.body[g.order[j]]);
      var e :| Embeds(f.body[g.order[i]], g.body[g.order[i]], e);
      var e' :| Embeds(f.body[g.order[j]], g.body[g.order[j]], e');
      EmbeddedStaysUnread(f.body[g.order[i]], g.body[g.order[i]], e, f.body[g.order[j]], g.body[g.order[j]], e');
    }
  }

  lemma FewerStayUnbranched(f: Func, g: Func)
    requires OnlyOld(f, g) && NoConstantBranches(f)
    ensures NoConstantBranches(g)
  {
    hide ShapeOk, FoldBranch;
    forall b, k | b in g.body && 0 <= k < |g.body[b]|
      ensures ShapeOk(g.body[b][k]) && FoldBranch(g.body[b][k]) == g.body[b][k]
    {
      assert g.body[b][k] in g.body[b] && b in f.body && NoConstantBranch(f.body[b]);
      var j :| 0 <= j < |f.body[b]| && f.body[b][j] == g.body[b][k];
    }
  }

  // ---------------------------------------------------------------------------------------------
  // Moving jumps

  lemma ThreadedSpare(f: Func, g: Func, b: nat, k: nat)
    requires T.SameSkeleton(f, g) && b in f.body && b in g.body && k < |g.body[b]| && Spare(g.body[b], k)
    ensures k < |f.body[b]| && Spare(f.body[b], k) && f.body[b][k] == g.body[b][k]
  {
    hide CopyOf, SameComputation, ShapeOk, T.SameRegisters, Original;
    assert !g.body[b][k].op.IsTerminator();
    if CopyOf(g.body[b][k]).None? {
      var i :| 0 <= i < k && Original(g.body[b][i]) && SameComputation(g.body[b][i], g.body[b][k]);
      OriginalStays(g.body[b][i]);
      assert g.body[b][i] == f.body[b][i];
    }
  }

  lemma OriginalStays(x: Inst)
    requires Original(x)
    ensures !x.op.IsTerminator()
  {
    hide CopyOf, ShapeOk;
  }

  lemma ThreadedReads(f: Func, g: Func, b: nat, l: nat, v: nat)
    requires T.SameSkeleton(f, g) && b in f.body && b in g.body && l < |g.body[b]|
    ensures l < |f.body[b]| && (Reads(g.body[b], l, v) <==> Reads(f.body[b], l, v))
  {
    hide T.SameRegisters;
    assert T.SameRegisters(f.body[b][l], g.body[b][l]);
    T.SameRegistersRead(f.body[b][l], g.body[b][l]);
  }

  lemma ThreadedStaysUnread(f: Func, g: Func, b: nat, c: nat)
    requires T.SameSkeleton(f, g) && b in f.body && c in f.body && Unread(f.body[b], f.body[c])
    ensures b in g.body && c in g.body && Unread(g.body[b], g.body[c])
  {
    hide Spare, Reads, T.SameSkeleton;
    SameBlocks(f, g);
    forall k | 0 <= k < |g.body[b]| && Spare(g.body[b], k)
      ensures g.body[b][k].dest.Some? && forall l | 0 <= l < |g.body[c]| ::
        !Reads(g.body[c], l, g.body[b][k].dest.value)
    {
      ThreadedSpare(f, g, b, k);
      forall l | 0 <= l < |g.body[c]| ensures !Reads(g.body[c], l, g.body[b][k].dest.value) {
        ThreadedReads(f, g, c, l, g.body[b][k].dest.value);
      }
    }
  }

  lemma ThreadedBlockStays(f: Func, g: Func, b: nat)
    requires T.SameSkeleton(f, g) && b in f.body && BlockSettled(f.body[b])
    ensures b in g.body && BlockSettled(g.body[b])
  {
    hide Spare, Reads, T.SameSkeleton;
    SameBlocks(f, g);
    forall k | 0 <= k < |g.body[b]| && Spare(g.body[b], k)
      ensures g.body[b][k].dest.Some? && forall l | k < l < |g.body[b]| ::
        !Reads(g.body[b], l, g.body[b][k].dest.value)
    {
      ThreadedSpare(f, g, b, k);
      forall l | k < l < |g.body[b]| ensures !Reads(g.body[b], l, g.body[b][k].dest.value) {
        ThreadedReads(f, g, b, l, g.body[b][k].dest.value);
      }
    }
  }

  lemma SameBlocks(f: Func, g: Func)
    requires T.SameSkeleton(f, g)
    ensures g.order == f.order && g.body.Keys == f.body.Keys && forall b | b in f.body :: |g.body[b]| == |f.body[b]|
  {}

  lemma ThreadedStaysSettled(f: Func, g: Func)
    requires T.SameSkeleton(f, g) && FuncSettled(f)
    ensures FuncSettled(g)
  {
    hide BlockSettled, Unread, T.SameSkeleton;
    SameBlocks(f, g);
    forall i | 0 <= i < |g.order| { ThreadedBlockStays(f, g, g.order[i]); }
    forall i, j | 0 <= i < j < |g.order| { ThreadedStaysUnread(f, g, g.order[i], g.order[j]); }
  }

  lemma ThreadedStaysNeeded(f: Func, g: Func)
    requires T.SameSkeleton(f, g) && NoDeadCode(f)
    ensures NoDeadCode(g)
  {
    hide T.SameSkeleton, IsRead;
    forall b, x | b in g.body && x in g.body[b] && x.dest.Some? && x.op.IsSideEffectFree()
      ensures IsRead(g, x.dest.value)
    {
      var k :| 0 <= k < |g.body[b]| && g.body[b][k] == x;
      ThreadedComputes(f, g, b, k);
      ThreadedIsRead(f, g, x.dest.value);
    }
  }

  lemma ThreadedComputes(f: Func, g: Func, b: nat, k: nat)
    requires T.SameSkeleton(f, g) && b in g.body && k < |g.body[b]| && g.body[b][k].op.IsSideEffectFree()
    ensures b in f.body && g.body[b][k] in f.body[b]
  {
    hide T.SameRegisters;
    assert b in f.body && k < |f.body[b]| && !f.body[b][k].op.IsTerminator();
  }

  lemma ThreadedIsRead(f: Func, g: Func, v: nat)
    requires T.SameSkeleton(f, g) && IsRead(f, v)
    ensures IsRead(g, v)
  {
    hide T.SameSkeleton;
    SameBlocks(f, g);
    var b, k :| b in f.body && 0 <= k < |f.body[b]| && VReg(v) in f.body[b][k].ops;
    ThreadedReads(f, g, b, k, v);
  }

  lemma ThreadedStaysUnbranched(f: Func, g: Func)
    requires T.SameSkeleton(f, g) && NoConstantBranches(f) && WellFormed(g)
    ensures NoConstantBranches(g)
  {
    hide FoldBranch, ShapeOk, T.SameRegisters, BlockOk, Successors;
    forall b, k | b in g.body && 0 <= k < |g.body[b]|
      ensures ShapeOk(g.body[b][k]) && FoldBranch(g.body[b][k]) == g.body[b][k]
    {
      assert BlockOk(g.body[b]) && NoConstantBranch(f.body[b]) && T.SameRegisters(f.body[b][k], g.body[b][k]);
      ShapesOf(g.body[b], k);
      UnbranchedAlike(f.body[b][k], g.body[b][k]);
    }
  }

  lemma ShapesOf(insts: seq<Inst>, k: nat)
    requires BlockOk(insts) && k < |insts|
    ensures ShapeOk(insts[k])
  {}

  lemma UnbranchedAlike(x: Inst, y: Inst)
    requires T.SameRegisters(x, y) && y.op == x.op && ShapeOk(x) && ShapeOk(y) && FoldBranch(x) == x
    ensures FoldBranch(y) == y
  {
    if |x.ops| > 0 { assert T.SameOperand(x.ops[0], y.ops[0]); }
  }
}
