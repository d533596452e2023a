/** Removal of unreachable blocks. */
module Prune {
  import opened Sir
  import opened SirFunctions
  import opened Assigned
  import opened Liveness

  ghost predicate IsPath(f: Func, path: seq<nat>) {
    && path != [] && f.order != [] && path[0] == f.order[0]
    && (forall i | 0 <= i < |path| :: path[i] in f.body)
    && (forall i | 0 <= i < |path| - 1 :: path[i + 1] in Successors(f.body[path[i]]))
  }

  /** Some path of jumps leads from the entry to `b`. */
  ghost predicate Reaches(f: Func, b: nat) {
    exists path :: IsPath(f, path) && path[|path| - 1] == b
  }

  lemma EntryReaches(f: Func)
    requires WellFormed(f)
    ensures Reaches(f, f.order[0])
  {
    assert f.order[0] in (set b | b in f.order);
    assert IsPath(f, [f.order[0]]);
  }

  lemma SuccessorReaches(f: Func, b: nat, s: nat)
    requires WellFormed(f) && b in f.body && Reaches(f, b) && s in Successors(f.body[b])
    ensures s in f.body && Reaches(f, s)
  {
    var path :| IsPath(f, path) && path[|path| - 1] == b;
    var longer := path + [s];
    forall i | 0 <= i < |longer| - 1
      ensures longer[i + 1] in Successors(f.body[longer[i]])
    {
      if i < |path| - 1 { assert longer[i + 1] == path[i + 1]; }
    }
    assert IsPath(f, longer) && longer[|longer| - 1] == s;
  }

  /** A set that holds the entry and is closed under jumps holds every reachable block. */
  lemma {:induction false} ClosedHoldsPath(f: Func, keep: set<nat>, path: seq<nat>, i: nat)
    requires IsPath(f, path) && i < |path| && f.order[0] in keep
    requires forall b | b in keep && b in f.body :: Successors(f.body[b]) <= keep
    ensures path[i] in keep
  {
    if i > 0 {
      ClosedHoldsPath(f, keep, path, i - 1);
      assert path[i - 1 + 1] in Successors(f.body[path[i - 1]]);
    }
  }

  function Filter(order: seq<nat>, keep: set<nat>): seq<nat> {
    if order == [] then []
    else if order[0] in keep then [order[0]] + Filter(order[1..], keep)
    else Filter(order[1..], keep)
  }

  lemma {:induction false} FilterFacts(order: seq<nat>, keep: set<nat>)
    ensures forall b :: b in Filter(order, keep) <==> b in order && b in keep
    ensures Distinct(order) ==> Distinct(Filter(order, keep))
    ensures order != [] && order[0] in keep ==> Filter(order, keep) != [] && Filter(order, keep)[0] == order[0]
  {
    if order != [] {
      FilterFacts(order[1..], keep);
      assert order == [order[0]] + order[1..];
      if Distinct(order) {
        assert forall i | 0 <= i < |order[1..]| :: order[1..][i] == order[i + 1] != order[0];
      }
    }
  }

  lemma {:induction false} FilterConcat(a: seq<nat>, b: seq<nat>, keep: set<nat>)
    ensures Filter(a + b, keep) == Filter(a, keep) + Filter(b, keep)
  {
    if a == [] {
      assert a + b == b;
    } else {
      assert (a + b)[1..] == a[1..] + b;
      FilterConcat(a[1..], b, keep);
    }
  }

  /** The function with only the blocks of `keep`. */
  function Restrict(f: Func, keep: set<nat>): Func {
    Func(Filter(f.order, keep), map b | b in f.body && b in keep :: f.body[b])
  }

  lemma {:induction false} RestrictRun(m: Machine, f: Func, keep: set<nat>, params: seq<i64>, b: nat, regs: Regs,
        w: World, fuel: nat)
    requires WellFormed(f) && b in keep && b in f.body
    requires forall x | x in keep && x in f.body :: Successors(f.body[x]) <= keep
    ensures Run(m, Restrict(f, keep), params, b, regs, w, fuel) == Run(m, f, params, b, regs, w, fuel)
    decreases fuel
  {
    hide Step, WellFormed, BlockOk, RunBlock, Successors, Filter;
    if fuel > 0 {
      SuccessorsInside(f, b);
      match RunBlock(m, params, f.body[b], regs, w)
      case End(_) =>
      case Goto(b', regs', w') =>
        GotoIsSuccessor(m, params, f.body[b], regs, w);
        RestrictRun(m, f, keep, params, b', regs', w', fuel - 1);
    }
  }

  /** A block only ever jumps to one of its successors. */
  lemma {:induction false} GotoIsSuccessor(m: Machine, params: seq<i64>, insts: seq<Inst>, regs: Regs, w: World)
    requires BlockOk(insts) && RunBlock(m, params, insts, regs, w).Goto?
    ensures RunBlock(m, params, insts, regs, w).id in Successors(insts)
  {
    hide Step, ShapeOk;
    if insts != [] {
      match Step(m, params, insts[0], regs, w)
      case Finish(_) =>
      case Jump(b) =>
        JumpIsTarget(m, params, insts[0], regs, w);
      case Next(v, w') =>
        var rest := insts[1..];
        if rest != [] {
          assert forall k | 0 <= k < |rest| :: rest[k] == insts[k + 1];
          GotoIsSuccessor(m, params, rest, Write(regs, insts[0].dest, v), w');
        }
    }
  }

  /** Dropping the blocks outside a closed set that holds the entry changes no run. */
  lemma RestrictPreserves(f: Func, keep: set<nat>)
    requires WellFormed(f) && f.order[0] in keep
    requires forall x | x in keep && x in f.body :: Successors(f.body[x]) <= keep
    ensures WellFormed(Restrict(f, keep))
    ensures SameRuns(f, Restrict(f, keep))
  {
    FilterFacts(f.order, keep);
    var g := Restrict(f, keep);
    forall b ensures b in f.order <==> b in f.body { assert b in f.order <==> b in (set x | x in f.order); }
    assert (set b | b in g.order) == g.body.Keys;
    forall m: Machine, params: seq<i64>, w: World, n: nat
      ensures RunFunc(m, g, params, w, n) == RunFunc(m, f, params, w, n)
    {
      RestrictRun(m, f, keep, params, f.order[0], map[], w, n);
    }
  }

  // ---------------------------------------------------------------------------------------------
  // The pass

  /** The blocks marked reachable. */
  ghost function Marked(reachable: array<bool>): set<nat>
    reads reachable
  {
    set b: nat | b < reachable.Length && reachable[b]
  }

  /** Everything marked is reachable, was pushed exactly once, and has its successors marked unless it
      still waits on the stack. */
  ghost predicate Searching(f: Func, marked: set<nat>, waiting: seq<nat>, pushed: seq<nat>, max: nat) {
    && (forall b | b in marked :: b in f.body && b <= max && Reaches(f, b))
    && Distinct(pushed) && (forall b :: b in pushed <==> b in marked)
    && (forall b | b in waiting :: b in marked) && |waiting| <= |pushed|
    && (forall b | b in marked && b !in waiting :: Successors(f.body[b]) <= marked)
  }

  /** Pushes a block that has not been reached before; the stack never outgrows its buffer. */
  method Push(b: nat, reachable: array<bool>, stack: array<nat>, top: nat, ghost pushed: seq<nat>, max: nat)
    returns (top': nat, ghost pushed': seq<nat>)
    requires reachable.Length == max + 1 && stack.Length == max + 1 && top <= |pushed|
    requires b <= max && Distinct(pushed) && (forall x :: x in pushed <==> x in Marked(reachable))
    requires top <= stack.Length
    modifies reachable, stack
    ensures Marked(reachable) == old(Marked(reachable)) + {b}
    ensures top' <= stack.Length && top' <= |pushed'|
    ensures Distinct(pushed') && (forall x :: x in pushed' <==> x in Marked(reachable))
    ensures stack[..top'] == old(stack[..top]) + if b in old(Marked(reachable)) then [] else [b]
    ensures |pushed'| - top' == |pushed| - top
  {
    top', pushed' := top, pushed;
    if !reachable[b] {
      ghost var marked := Marked(reachable);
      assert b !in marked && b !in pushed;
      DistinctFits(pushed + [b], max);
      reachable[b] := true;
      stack[top] := b;
      top', pushed' := top + 1, pushed + [b];
      assert Marked(reachable) == marked + {b};
    } else {
      assert Marked(reachable) == Marked(reachable) + {b};
    }
  }

  /** Marks and pushes the successors of a block taken off the stack. */
  method Expand(f: Func, b: nat, insts: seq<Inst>, reachable: array<bool>, stack: array<nat>, top0: nat,
        ghost pushed0: seq<nat>, max: nat)
    returns (top: nat, ghost pushed: seq<nat>)
    requires WellFormed(f) && b in f.body && f.body[b] == insts && (forall x | x in f.body :: x <= max)
    requires reachable.Length == max + 1 && stack.Length == max + 1 && top0 < stack.Length && top0 < |pushed0|
    requires stack[top0] == b && Searching(f, Marked(reachable), stack[..top0 + 1], pushed0, max)
    modifies reachable, stack
    ensures top <= stack.Length && Searching(f, Marked(reachable), stack[..top], pushed, max)
    ensures old(Marked(reachable)) <= Marked(reachable)
    ensures Marked(reachable) == old(Marked(reachable)) ==> top <= top0
  {
    hide WellFormed, Reaches, Successors, Searching, Expanding, BlockOk;
    SuccessorsInside(f, b);
    TopIsMarked(f, Marked(reachable), stack[..top0], b, pushed0, max) by {
      assert stack[..top0 + 1] == stack[..top0] + [b];
    }
    top, pushed := top0, pushed0;
    var succs := SuccessorList(insts);
    ghost var marked, waiting := Marked(reachable), stack[..top0];
    assert stack[..top0 + 1] == waiting + [b];
    StartExpanding(f, b, marked, waiting, pushed0, max);
    for i := 0 to |succs|
      invariant top <= stack.Length && Expanding(marked, waiting, succs[..i], Marked(reachable), stack[..top], pushed)
      invariant marked <= Marked(reachable) && (Marked(reachable) == marked ==> top == top0)
    {
      assert succs[i] in Successors(insts);
      assert succs[..i + 1] == succs[..i] + [succs[i]];
      top, pushed := Offer(succs[i], reachable, stack, top, max, marked, waiting, succs[..i], pushed);
    }
    assert succs[..|succs|] == succs;
    Expanded(f, b, marked, waiting, pushed0, succs, Marked(reachable), stack[..top], pushed, max);
  }

  lemma TopIsMarked(f: Func, marked: set<nat>, waiting: seq<nat>, b: nat, pushed: seq<nat>, max: nat)
    requires Searching(f, marked, waiting + [b], pushed, max)
    ensures b in marked
  {
    assert (waiting + [b])[|waiting|] == b;
  }

  /** The successors in `done` have been offered to the search. */
  ghost predicate Expanding(marked: set<nat>, waiting: seq<nat>, done: seq<nat>, marked': set<nat>, waiting': seq<nat>,
        pushed': seq<nat>) {
    && (forall x :: x in marked' <==> x in marked || x in done)
    && Distinct(pushed') && (forall x :: x in pushed' <==> x in marked') && |waiting'| < |pushed'|
    && (forall x | x in waiting' :: x in waiting || x in done)
    && (forall x | x in waiting || (x in done && x !in marked) :: x in waiting')
  }

  lemma StartExpanding(f: Func, b: nat, marked: set<nat>, waiting: seq<nat>, pushed: seq<nat>, max: nat)
    requires Searching(f, marked, waiting + [b], pushed, max)
    ensures Expanding(marked, waiting, [], marked, waiting, pushed)
  {}

  lemma ExpandStep(marked: set<nat>, waiting: seq<nat>, done: seq<nat>, marked1: set<nat>, waiting1: seq<nat>,
        pushed1: seq<nat>, s: nat, marked2: set<nat>, waiting2: seq<nat>, pushed2: seq<nat>)
    requires Expanding(marked, waiting, done, marked1, waiting1, pushed1)
    requires marked2 == marked1 + {s} && waiting2 == waiting1 + if s in marked1 then [] else [s]
    requires Distinct(pushed2) && (forall x :: x in pushed2 <==> x in marked2)
    requires |pushed2| - |waiting2| == |pushed1| - |waiting1|
    ensures Expanding(marked, waiting, done + [s], marked2, waiting2, pushed2)
  {}

  method Offer(s: nat, reachable: array<bool>, stack: array<nat>, top: nat, max: nat, ghost marked: set<nat>,
        ghost waiting: seq<nat>, ghost done: seq<nat>, ghost pushed: seq<nat>)
    returns (top': nat, ghost pushed': seq<nat>)
    requires reachable.Length == max + 1 && stack.Length == max + 1 && s <= max && top <= stack.Length
    requires Expanding(marked, waiting, done, Marked(reachable), stack[..top], pushed)
    modifies reachable, stack
    ensures top' <= stack.Length && Expanding(marked, waiting, done + [s], Marked(reachable), stack[..top'], pushed')
    ensures old(Marked(reachable)) <= Marked(reachable)
    ensures Marked(reachable) == old(Marked(reachable)) ==> top' == top
  {
    ghost var marked1, waiting1 := Marked(reachable), stack[..top];
    top', pushed' := Push(s, reachable, stack, top, pushed, max);
    ExpandStep(marked, waiting, done, marked1, waiting1, pushed, s, Marked(reachable), stack[..top'], pushed');
    assert |stack[..top']| == top' && |waiting1| == top;
  }

  lemma SuccessorsInside(f: Func, b: nat)
    requires WellFormed(f) && b in f.body
    ensures BlockOk(f.body[b]) && Successors(f.body[b]) <= f.body.Keys
  {}

  lemma Expanded(f: Func, b: nat, marked: set<nat>, waiting: seq<nat>, pushed: seq<nat>, succs: seq<nat>,
        marked': set<nat>, waiting': seq<nat>, pushed': seq<nat>, max: nat)
    requires WellFormed(f) && b in f.body && b in marked && (forall x | x in f.body :: x <= max)
    requires Searching(f, marked, waiting + [b], pushed, max)
    requires forall x :: x in succs <==> x in Successors(f.body[b])
    requires Expanding(marked, waiting, succs, marked', waiting', pushed')
    ensures Searching(f, marked', waiting', pushed', max)
  {
    hide WellFormed, Reaches, Successors;
    SuccessorsInside(f, b);
    forall x | x in marked'
      ensures x in f.body && x <= max && Reaches(f, x)
    {
      if x in Successors(f.body[b]) { SuccessorReaches(f, b, x); }
    }
    assert forall x | x in waiting :: x in waiting + [b];
  }

  /** Marks exactly the blocks reachable from the entry. */
  method Search(f: Func, max: nat) returns (reachable: array<bool>)
    requires WellFormed(f) && forall b | b in f.body :: b <= max
    ensures fresh(reachable) && reachable.Length == max + 1
    ensures forall b | 0 <= b <= max :: reachable[b] <==> Reaches(f, b)
  {
    hide WellFormed, Reaches, Searching;
    StartSearch(f, max);
    reachable := new bool[max + 1](i => false);
    var stack := new nat[max + 1];
    var entry := f.order[0];
    reachable[entry] := true;
    stack[0] := entry;
    var top: nat := 1;
    ghost var pushed: seq<nat> := [entry];
    assert Marked(reachable) == {entry} && stack[..1] == [entry];
    while top > 0
      invariant top <= stack.Length && entry in Marked(reachable)
      invariant Searching(f, Marked(reachable), stack[..top], pushed, max)
      decreases f.body.Keys - Marked(reachable), top
    {
      top := top - 1;
      var b := stack[top];
      ghost var marked := Marked(reachable);
      InSearch(f, marked, stack[..top], b, pushed, max) by { assert stack[..top + 1] == stack[..top] + [b]; }
      top, pushed := Expand(f, b, f.body[b], reachable, stack, top, pushed, max);
      Progress(f, marked, Marked(reachable), stack[..top], pushed, max);
    }
    SearchDone(f, Marked(reachable), stack[..top], pushed, max);
    assert forall b | 0 <= b <= max :: reachable[b] <==> b in Marked(reachable);
  }

  lemma StartSearch(f: Func, max: nat)
    requires WellFormed(f) && forall b | b in f.body :: b <= max
    ensures f.order != [] && f.order[0] <= max
    ensures Searching(f, {f.order[0]}, [f.order[0]], [f.order[0]], max)
  {
    hide BlockOk, Successors, Reaches;
    EntryReaches(f);
    assert f.order[0] in (set b | b in f.order);
    assert f.order[0] in f.body;
  }

  lemma InSearch(f: Func, marked: set<nat>, waiting: seq<nat>, b: nat, pushed: seq<nat>, max: nat)
    requires Searching(f, marked, waiting + [b], pushed, max)
    ensures b in f.body && |waiting| < |pushed|
  {
    hide Successors, Reaches;
    TopIsMarked(f, marked, waiting, b, pushed, max);
  }

  /** Each round marks a block or takes one off the stack. */
  lemma Progress(f: Func, marked: set<nat>, marked': set<nat>, waiting: seq<nat>, pushed: seq<nat>, max: nat)
    requires Searching(f, marked', waiting, pushed, max) && marked <= marked'
    ensures marked != marked' ==> f.body.Keys - marked' < f.body.Keys - marked
  {
    hide Successors, Reaches;
    if marked != marked' {
      var x :| x in marked' && x !in marked;
      assert x in f.body.Keys - marked;
    }
  }

  lemma SearchDone(f: Func, marked: set<nat>, waiting: seq<nat>, pushed: seq<nat>, max: nat)
    requires WellFormed(f) && Searching(f, marked, waiting, pushed, max) && waiting == [] && f.order[0] in marked
    ensures forall b: nat :: b in marked <==> Reaches(f, b)
  {
    hide WellFormed, Successors;
    forall b: nat | Reaches(f, b)
      ensures b in marked
    {
      var path :| IsPath(f, path) && path[|path| - 1] == b;
      ClosedHoldsPath(f, marked, path, |path| - 1);
    }
  }

  /** The list without the unmarked blocks. */
  method Unlink(order0: seq<nat>, reachable: array<bool>, ghost keep: set<nat>) returns (order: seq<nat>)
    requires forall b | b in order0 :: b < reachable.Length && (reachable[b] <==> b in keep)
    ensures order == Filter(order0, keep)
  {
    order := [];
    for j := 0 to |order0|
      invariant order == Filter(order0[..j], keep)
    {
      assert order0[j] in order0;
      assert order0[..j + 1] == order0[..j] + [order0[j]];
      FilterConcat(order0[..j], [order0[j]], keep);
      if reachable[order0[j]] { order := order + [order0[j]]; }
    }
    assert order0[..|order0|] == order0;
  }

  ghost function Reachable(f: Func): set<nat> { set b | b in f.body && Reaches(f, b) }

  lemma ReachableIsClosed(f: Func)
    requires WellFormed(f)
    ensures f.order[0] in Reachable(f)
    ensures forall x | x in Reachable(f) && x in f.body :: Successors(f.body[x]) <= Reachable(f)
  {
    EntryReaches(f);
    assert f.order[0] in (set x | x in f.order);
    forall x, s | x in Reachable(f) && x in f.body && s in Successors(f.body[x])
      ensures s in Reachable(f)
    {
      SuccessorReaches(f, x, s);
    }
  }

  /** Keeps exactly the reachable blocks, in order; no run changes. */
  method PruneDeadBlocks(fn: SirFunction)
    requires WellFormed(fn.Snapshot())
    modifies fn
    ensures WellFormed(fn.Snapshot()) && SameRuns(old(fn.Snapshot()), fn.Snapshot())
    ensures fn.Snapshot() == Restrict(old(fn.Snapshot()), Reachable(old(fn.Snapshot())))
    ensures Derives(old(fn.Snapshot()), fn.Snapshot()) && KeepsAssigned(old(fn.Snapshot()), fn.Snapshot())
  {
    hide WellFormed, Reaches, SameRuns, Filter, Derives, KeepsAssigned;
    var f := Func(fn.order, fn.body);
    var max := MaxBlockId(f);
    var reachable := Search(f, max);
    OrderInside(f);
    ReachableIsClosed(f);
    RestrictPreserves(f, Reachable(f));
    RestrictedIsPart(f, Reachable(f));
    var order := Unlink(f.order, reachable, Reachable(f));
    var body := map b | b in f.body && b <= max && reachable[b] :: f.body[b];
    assert body == Restrict(f, Reachable(f)).body;
    fn.order, fn.body := order, body;
  }

  /** Dropping blocks changes no instruction that stays. */
  lemma RestrictedIsPart(f: Func, keep: set<nat>)
    requires WellFormed(f) && f.order[0] in keep
    ensures Derives(f, Restrict(f, keep)) && KeepsAssigned(f, Restrict(f, keep))
  {
    hide BlockOk, Successors, BlockNoWorse, KeepsAssigned, Alike, Filter;
    var g := Restrict(f, keep);
    FilterFacts(f.order, keep);
    forall b, y | b in g.body && y in g.body[b] ensures AlikeOneOf(f, b, y) { AlikeItself(f, b, y); }
    forall b | b in g.body ensures BlockNoWorse(f.body[b], g.body[b]) { SameIsNoWorse(f.body[b]); }
    NoWorseKeeps(f, g);
  }

  lemma OrderInside(f: Func)
    requires WellFormed(f)
    ensures f.order != [] && forall b | b in f.order :: b in f.body
  {
    forall b | b in f.order ensures b in f.body { assert b in (set x | x in f.order); }
  }

  method MaxBlockId(f: Func) returns (max: nat)
    requires WellFormed(f)
    ensures forall b | b in f.body :: b <= max
    ensures max > 0 ==> max in f.body
  {
    max := 0;
    for j := 0 to |f.order|
      invariant (forall k | 0 <= k < j :: f.order[k] <= max) && (max > 0 ==> max in f.order)
    {
      if f.order[j] > max { max := f.order[j]; }
    }
    forall b | b in f.body
      ensures b <= max
    {
      assert b in (set x | x in f.order);
    }
  }
}
