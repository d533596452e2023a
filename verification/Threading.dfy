/** Jump threading: a jump to a block that only jumps on goes straight to where that block leads. */
module Threading {
  import opened Sir
  import opened SirFunctions
  import opened Refinement
  import opened Orbits
  import opened Assigned
  import opened Ssa

  // ---------------------------------------------------------------------------------------------
  // Empty jump blocks as a functional graph

  predicate IsHop(insts: seq<Inst>) {
    |insts| == 1 && insts[0].op.Jmp? && |insts[0].ops| == 1 && insts[0].ops[0].BlockRef?
  }

  /** Where block `t` leads if all it does is jump, else `t` itself. */
  function Hop(body: map<nat, seq<Inst>>, t: nat): nat {
    if t in body && IsHop(body[t]) then body[t][0].ops[0].id else t
  }

  ghost function Hops(f: Func): map<nat, nat> { HopMap(f.body) }

  ghost function HopMap(body: map<nat, seq<Inst>>): map<nat, nat> { map t | t in body :: Hop(body, t) }

  lemma HopAt(f: Func)
    ensures Hops(f).Keys == f.body.Keys
    ensures forall t | t in f.body :: Hops(f)[t] == Hop(f.body, t)
  {}

  lemma HopsAfter(f: Func, b: nat, insts: seq<Inst>)
    requires b in f.body
    ensures Hops(f.(body := f.body[b := insts])) == Hops(f)[b := if IsHop(insts) then insts[0].ops[0].id else b]
  {
    var g := f.(body := f.body[b := insts]);
    var h, h' := Hops(f)[b := if IsHop(insts) then insts[0].ops[0].id else b], Hops(g);
    HopAt(f);
    HopAt(g);
    hide HopMap, Hops, IsHop;
    assert h.Keys == h'.Keys;
    assert forall x: nat | x in h :: h[x] == h'[x];
  }

  lemma HopsAreClosed(f: Func)
    requires WellFormed(f)
    ensures Closed(Hops(f)) && Hops(f).Keys == f.body.Keys
  {
    hide BlockOk;
    forall t | t in f.body && IsHop(f.body[t])
      ensures f.body[t][0].ops[0].id in f.body
    {
      assert f.body[t][0].ops[0].id in Successors(f.body[t]);
    }
  }

  /** Operand `j` names a jump target. */
  predicate IsSlot(inst: Inst, j: nat) {
    (inst.op.Jmp? || inst.op.Br? || inst.op.Switch?) && j < |inst.ops| && inst.ops[j].BlockRef?
  }

  function Aim(inst: Inst, j: nat, y: nat): Inst
    requires j < |inst.ops|
  {
    inst.(ops := inst.ops[j := BlockRef(y)])
  }

  /** `g` is `f` with one jump target of block `b` moved one hop on. */
  ghost predicate Threads(f: Func, b: nat, k: nat, j: nat, g: Func) {
    && WellFormed(f) && b in f.body && k < |f.body[b]| && IsSlot(f.body[b][k], j)
    && var t := f.body[b][k].ops[j].id;
       t != b && Hop(f.body, t) != t &&
         g == f.(body := f.body[b := f.body[b][k := Aim(f.body[b][k], j, Hop(f.body, t))]])
  }

  /** Nothing is left to thread at this operand. */
  predicate IsDirect(body: map<nat, seq<Inst>>, b: nat, inst: Inst, j: nat) {
    IsSlot(inst, j) ==> inst.ops[j].id == b || Hop(body, inst.ops[j].id) == inst.ops[j].id
  }

  predicate FullyThreaded(f: Func) {
    forall b, k, j: nat | b in f.body && 0 <= k < |f.body[b]| && j < |f.body[b][k].ops| ::
      IsDirect(f.body, b, f.body[b][k], j)
  }

  /** No jump to another block leads to one that consists of a jump elsewhere. */
  lemma ThreadedMeans(f: Func, b: nat, k: nat, j: nat, y: nat)
    requires FullyThreaded(f) && b in f.body && k < |f.body[b]| && IsSlot(f.body[b][k], j)
    requires f.body[b][k].ops[j].id != b && f.body[b][k].ops[j].id in f.body
    ensures f.body[f.body[b][k].ops[j].id] == [Inst(Jmp, None, [BlockRef(y)])] ==> y == f.body[b][k].ops[j].id
  {
    assert IsDirect(f.body, b, f.body[b][k], j);
  }

  // ---------------------------------------------------------------------------------------------
  // One hop keeps every run

  lemma SlotIsLast(insts: seq<Inst>, k: nat, j: nat)
    requires BlockOk(insts) && k < |insts| && IsSlot(insts[k], j)
    ensures k == |insts| - 1 && insts[k].ops[j].id in Successors(insts)
  {}

  lemma {:induction false} SwitchMoves(c: i64, args: seq<Arg>, k: nat, fallback: nat, j: nat, t: nat, y: nat)
    requires j < |args| && args[j] == Blk(t)
    ensures var s, s' := SwitchTarget(c, args, k, fallback), SwitchTarget(c, args[j := Blk(y)], k, fallback);
            s' == s || (s == t && s' == y)
    decreases |args| - k
  {
    if k + 1 < |args| { SwitchMoves(c, args, k + 2, fallback, j, t, y); }
  }

  lemma {:induction false} SwitchFallback(c: i64, args: seq<Arg>, k: nat, t: nat, y: nat)
    ensures var s, s' := SwitchTarget(c, args, k, t), SwitchTarget(c, args, k, y); s' == s || (s == t && s' == y)
    decreases |args| - k
  {
    if k + 1 < |args| { SwitchFallback(c, args, k + 2, t, y); }
  }

  ghost predicate Moved(r: StepResult, t: nat, y: nat, r': StepResult) { r' == r || (r == Jump(t) && r' == Jump(y)) }

  lemma StepMoves(m: Machine, params: seq<i64>, inst: Inst, j: nat, y: nat, regs: Regs, w: World)
    requires ShapeOk(inst) && IsSlot(inst, j)
    ensures Moved(Step(m, params, inst, regs, w), inst.ops[j].id, y, Step(m, params, Aim(inst, j, y), regs, w))
  {
    hide Compute;
    var t := inst.ops[j].id;
    var e, e' := EvalAll(m, inst.ops, regs), EvalAll(m, Aim(inst, j, y).ops, regs);
    if e.Some? {
      assert EvalOperand(m, inst.ops[j], regs) == Some(e.value[j]);
      assert e'.Some? && e'.value == e.value[j := Blk(y)];
      if inst.op.Switch? && e.value[0].Int? {
        assert EvalOperand(m, inst.ops[1], regs) == Some(e.value[1]);
        var c := e.value[0].v;
        SwitchMoves(c, e.value, 2, e.value[1].id, j, t, y);
        if j == 1 { SwitchFrame(c, e.value, e'.value, 2, e.value[1].id); SwitchFallback(c, e'.value, 2, t, y); }
      }
    } else {
      var i :| 0 <= i < |inst.ops| && EvalOperand(m, inst.ops[i], regs).None?;
      assert Aim(inst, j, y).ops[i] == inst.ops[i];
    }
  }

  /** Only the pairs from `k` on matter. */
  lemma {:induction false} SwitchFrame(c: i64, args: seq<Arg>, args': seq<Arg>, k: nat, fallback: nat)
    requires |args| == |args'| && forall i | k <= i < |args| :: args[i] == args'[i]
    ensures SwitchTarget(c, args, k, fallback) == SwitchTarget(c, args', k, fallback)
    decreases |args| - k
  {
    if k + 1 < |args| { SwitchFrame(c, args, args', k + 2, fallback); }
  }

  lemma {:induction false} BlockMoves(m: Machine, params: seq<i64>, insts: seq<Inst>, j: nat, y: nat, regs: Regs,
        w: World)
    requires BlockOk(insts) && insts != [] && IsSlot(insts[|insts| - 1], j)
    ensures var k, r := |insts| - 1, RunBlock(m, params, insts, regs, w);
            var r' := RunBlock(m, params, insts[k := Aim(insts[k], j, y)], regs, w);
            r' == r || (r.Goto? && r.id == insts[k].ops[j].id && r' == r.(id := y))
  {
    hide Step, ShapeOk;
    var k := |insts| - 1;
    var insts' := insts[k := Aim(insts[k], j, y)];
    if k == 0 {
      StepMoves(m, params, insts[0], j, y, regs, w);
      assert Step(m, params, insts[0], regs, w).Next? ==> insts[1..] == insts'[1..];
    } else {
      assert insts'[0] == insts[0];
      match Step(m, params, insts[0], regs, w)
      case Jump(_) =>
      case Finish(_) =>
      case Next(v, w') =>
        var rest := insts[1..];
        assert forall i | 0 <= i < |rest| :: rest[i] == insts[i + 1];
        assert insts'[1..] == rest[k - 1 := Aim(rest[k - 1], j, y)];
        BlockMoves(m, params, rest, j, y, Write(regs, insts[0].dest, v), w');
    }
  }

  lemma HopRuns(m: Machine, params: seq<i64>, insts: seq<Inst>, regs: Regs, w: World)
    requires IsHop(insts)
    ensures RunBlock(m, params, insts, regs, w) == Goto(insts[0].ops[0].id, regs, w)
  {
    var e := EvalAll(m, insts[0].ops, regs);
    assert EvalOperand(m, insts[0].ops[0], regs) == Some(Blk(insts[0].ops[0].id));
    assert e.Some? && e.value[0] == Blk(insts[0].ops[0].id);
  }

  /** A block of `g` runs as in `f` or ends one hop further on. */
  lemma ThreadedBlock(m: Machine, f: Func, b: nat, k: nat, j: nat, g: Func, params: seq<i64>, x: nat, regs: Regs,
        w: World)
    requires Threads(f, b, k, j, g) && x in f.body
    ensures var t, r, r' := f.body[b][k].ops[j].id, RunBlock(m, params, f.body[x], regs, w),
      RunBlock(m, params, g.body[x], regs, w);
            r' == r || (r.Goto? && r.id == t && t in f.body && r' == r.(id := Hop(f.body, t))
                        && RunBlock(m, params, f.body[t], r.regs, r.w) == r')
  {
    hide RunBlock;
    SlotIsLast(f.body[b], k, j);
    if x == b {
      var t := f.body[b][k].ops[j].id;
      BlockMoves(m, params, f.body[b], j, Hop(f.body, t), regs, w);
      var r := RunBlock(m, params, f.body[b], regs, w);
      if r.Goto? { HopRuns(m, params, f.body[t], r.regs, r.w); }
    }
  }

  lemma ThreadedKeys(f: Func, b: nat, k: nat, j: nat, g: Func)
    requires Threads(f, b, k, j, g)
    ensures g.body.Keys == f.body.Keys
  {}

  lemma {:induction false} ThreadedFollows(m: Machine, f: Func, b: nat, k: nat, j: nat, g: Func, params: seq<i64>,
        x: nat, regs: Regs, w: World, n: nat)
    requires Threads(f, b, k, j, g)
    ensures Run(m, f, params, x, regs, w, n) == OutOfFuel ||
      Run(m, g, params, x, regs, w, n) == Run(m, f, params, x, regs, w, n)
    decreases n
  {
    hide RunBlock, Threads, Hop;
    ThreadedKeys(f, b, k, j, g);
    if n > 0 && x in f.body {
      ThreadedBlock(m, f, b, k, j, g, params, x, regs, w);
      var r, r' := RunBlock(m, params, f.body[x], regs, w), RunBlock(m, params, g.body[x], regs, w);
      if r.Goto? {
        if r' == r {
          ThreadedFollows(m, f, b, k, j, g, params, r.id, r.regs, r.w, n - 1);
        } else if n > 1 {
          ThreadedFollows(m, f, b, k, j, g, params, r'.id, r'.regs, r'.w, n - 2);
          RunMoreFuel(m, g, params, r'.id, r'.regs, r'.w, n - 2, n - 1);
        }
      }
    }
  }

  lemma {:induction false} OriginalFollows(m: Machine, f: Func, b: nat, k: nat, j: nat, g: Func, params: seq<i64>,
        x: nat, regs: Regs, w: World, n: nat)
    requires Threads(f, b, k, j, g)
    ensures Run(m, g, params, x, regs, w, n) == OutOfFuel ||
      Run(m, f, params, x, regs, w, 2 * n) == Run(m, g, params, x, regs, w, n)
    decreases n
  {
    hide RunBlock, Threads, Hop;
    ThreadedKeys(f, b, k, j, g);
    if n > 0 && x in f.body {
      ThreadedBlock(m, f, b, k, j, g, params, x, regs, w);
      var r, r' := RunBlock(m, params, f.body[x], regs, w), RunBlock(m, params, g.body[x], regs, w);
      if r'.Goto? {
        OriginalFollows(m, f, b, k, j, g, params, r'.id, r'.regs, r'.w, n - 1);
        if r' == r {
          RunMoreFuel(m, f, params, r.id, r.regs, r.w, 2 * n - 2, 2 * n - 1);
        } else {
          assert Run(m, f, params, x, regs, w, 2 * n) == Run(m, f, params, r.id, r.regs, r.w, 2 * n - 1);
        }
      }
    }
  }

  /** One hop changes no outcome: the original needs at most twice the fuel. */
  lemma ThreadingKeepsEnds(f: Func, b: nat, k: nat, j: nat, g: Func)
    requires Threads(f, b, k, j, g)
    ensures SameEnds(f, g)
  {
    assert f.order != [] && g.order == f.order;
    hide Threads, Run;
    forall m: Machine, params: seq<i64>, w: World, n: nat
      ensures RunFunc(m, f, params, w, n) == OutOfFuel || RunFunc(m, g, params, w, 2 * n) == RunFunc(m, f, params, w, n)
      ensures RunFunc(m, g, params, w, n) == OutOfFuel || RunFunc(m, f, params, w, 2 * n) == RunFunc(m, g, params, w, n)
    {
      ThreadedFollows(m, f, b, k, j, g, params, f.order[0], map[], w, n);
      RunMoreFuel(m, g, params, f.order[0], map[], w, n, 2 * n);
      OriginalFollows(m, f, b, k, j, g, params, f.order[0], map[], w, n);
    }
    hide RunFunc;
    assert BothFollow(f, g, 2);
  }

  lemma AimKeepsShape(inst: Inst, j: nat, y: nat)
    requires ShapeOk(inst) && IsSlot(inst, j)
    ensures ShapeOk(Aim(inst, j, y)) && Targets(Aim(inst, j, y)) <= Targets(inst) + {y}
  {}

  lemma AimKeepsBlock(insts: seq<Inst>, k: nat, j: nat, y: nat)
    requires BlockOk(insts) && k < |insts| && IsSlot(insts[k], j)
    ensures BlockOk(insts[k := Aim(insts[k], j, y)])
    ensures Successors(insts[k := Aim(insts[k], j, y)]) <= Successors(insts) + {y}
  {
    hide ShapeOk, Targets;
    AimKeepsShape(insts[k], j, y);
  }

  lemma SlotTarget(f: Func, b: nat, k: nat, j: nat)
    requires WellFormed(f) && b in f.body && k < |f.body[b]| && IsSlot(f.body[b][k], j)
    ensures k == |f.body[b]| - 1 && f.body[b][k].ops[j].id in f.body && Hop(f.body, f.body[b][k].ops[j].id) in f.body
  {
    HopsAreClosed(f);
    SlotIsLast(f.body[b], k, j);
    var t := f.body[b][k].ops[j].id;
    hide BlockOk, IsSlot, Hop, Successors;
    assert t in Hops(f);
    assert Hops(f)[t] in Hops(f);
  }

  lemma ListedBlock(f: Func, b: nat)
    requires WellFormed(f) && b in f.body
    ensures b in f.order && BlockOk(f.body[b])
  {
    assert b in (set x | x in f.order);
  }

  ghost predicate SameElsewhere(body: map<nat, seq<Inst>>, b: nat, body': map<nat, seq<Inst>>) {
    body'.Keys == body.Keys && forall x: nat | x in body && x != b :: body'[x] == body[x]
  }

  /** What a redirection touches. */
  lemma ThreadingTouches(f: Func, b: nat, k: nat, j: nat, g: Func)
    requires Threads(f, b, k, j, g)
    ensures b in f.body && k == |f.body[b]| - 1 && |g.body[b]| == |f.body[b]| && g.order == f.order
    ensures g.body.Keys == f.body.Keys
    ensures SameElsewhere(f.body, b, g.body)
    ensures var t := f.body[b][k].ops[j].id;
      && t in f.body && t != b && Hop(f.body, t) in f.body && Hop(f.body, t) != t
      && g.body[b][k] == Aim(f.body[b][k], j, Hop(f.body, t))
  {
    hide WellFormed, Hop;
    SlotTarget(f, b, k, j);
  }

  lemma ThreadingKeepsBlocks(f: Func, b: nat, k: nat, j: nat, g: Func)
    requires Threads(f, b, k, j, g)
    ensures forall x: nat | x in g.body :: BlockOk(g.body[x]) && Successors(g.body[x]) <= g.body.Keys
  {
    SlotTarget(f, b, k, j);
    ListedBlock(f, b);
    AimKeepsBlock(f.body[b], k, j, Hop(f.body, f.body[b][k].ops[j].id));
    hide BlockOk, Successors, Hop, IsSlot;
  }

  lemma ThreadingKeepsShape(f: Func, b: nat, k: nat, j: nat, g: Func)
    requires Threads(f, b, k, j, g)
    ensures WellFormed(g)
  {
    hide BlockOk, Successors, Hop, IsSlot;
    ThreadingKeepsBlocks(f, b, k, j, g);
    ThreadingTouches(f, b, k, j, g);
  }

  lemma ThreadingKeepsSkeleton(f: Func, b: nat, k: nat, j: nat, g: Func)
    requires Threads(f, b, k, j, g)
    ensures SameSkeleton(f, g)
  {
    hide WellFormed, Hop, KeepsAssigned;
    ThreadingKeepsAssigned(f, b, k, j, g);
  }

  /** What is expected where a jump now goes was expected on the way. */
  lemma ThreadingKeepsAssigned(f: Func, b: nat, k: nat, j: nat, g: Func)
    requires Threads(f, b, k, j, g)
    ensures KeepsAssigned(f, g)
  {
    hide WellFormed, Hop, Assigns, BlockAssigns, Successors, BlockOk, Aim, IsSlot, ReadsAssigned, Dests;
    ThreadingTouches(f, b, k, j, g);
    forall n: nat | IsAssigned(f, n)
      ensures IsAssigned(g, n)
    {
      var a :| Assigns(a, f, n);
      ThreadedAssigns(f, b, k, j, g, a, n);
    }
  }

  lemma ThreadedAssigns(f: Func, b: nat, k: nat, j: nat, g: Func, a: Guarantee, n: nat)
    requires Threads(f, b, k, j, g) && Assigns(a, f, n)
    ensures Assigns(a, g, n)
  {
    hide WellFormed, Hop, BlockAssigns, Successors, BlockOk, Aim, IsSlot, Threads;
    ThreadingTouches(f, b, k, j, g);
    forall x | x in g.body
      ensures BlockAssigns(a, g, x, n)
    {
      if x == b { ThreadedBlockAssigns(f, b, k, j, g, a, n); } else { SameBlockAssigns(f, g, x, a, n); }
    }
  }

  lemma SameBlockAssigns(f: Func, g: Func, x: nat, a: Guarantee, n: nat)
    requires x in f.body && x in g.body && g.body[x] == f.body[x] && BlockAssigns(a, f, x, n)
    ensures BlockAssigns(a, g, x, n)
  {
    hide Successors, ReadsAssigned, Dests;
  }

  lemma ThreadedBlockAssigns(f: Func, b: nat, k: nat, j: nat, g: Func, a: Guarantee, n: nat)
    requires Threads(f, b, k, j, g) && Assigns(a, f, n)
    ensures b in g.body && BlockAssigns(a, g, b, n)
  {
    hide WellFormed, BlockAssigns, Successors, Hop, BlockOk, ReadsAssigned, Dests;
    ThreadingTouches(f, b, k, j, g);
    var t := f.body[b][k].ops[j].id;
    var y := Hop(f.body, t);
    AimedBlock(f, b, k, j, y);
    InPlaceReads(f.body[b], g.body[b]);
    assert BlockAssigns(a, f, b, n) && BlockAssigns(a, f, t, n);
    if b in a.live {
      LiveSuccessor(f, b, t, a, n);
      HopAssigns(f, t, a, n);
    }
    Redirected(f, g, b, t, y, a, n);
  }

  lemma LiveSuccessor(f: Func, b: nat, t: nat, a: Guarantee, n: nat)
    requires b in f.body && BlockAssigns(a, f, b, n) && b in a.live && t in Successors(f.body[b])
    ensures t in a.live
  {}

  lemma AimedBlock(f: Func, b: nat, k: nat, j: nat, y: nat)
    requires WellFormed(f) && b in f.body && k < |f.body[b]| && IsSlot(f.body[b][k], j)
    ensures var insts, t := f.body[b][k := Aim(f.body[b][k], j, y)], f.body[b][k].ops[j].id;
      && |insts| == |f.body[b]| && Successors(insts) <= Successors(f.body[b]) + {y} && t in Successors(f.body[b])
      && (forall i | 0 <= i < |insts| :: insts[i].dest == f.body[b][i].dest)
      && (forall i, r: nat | 0 <= i < |insts| && VReg(r) in insts[i].ops :: VReg(r) in f.body[b][i].ops)
  {
    hide Successors, BlockOk;
    ListedBlock(f, b);
    SlotIsLast(f.body[b], k, j);
    AimKeepsBlock(f.body[b], k, j, y);
  }

  /** An empty jump writes nothing. */
  lemma HopAssigns(f: Func, t: nat, a: Guarantee, n: nat)
    requires WellFormed(f) && t in f.body && Hop(f.body, t) != t && BlockAssigns(a, f, t, n) && t in a.live
    ensures var y := Hop(f.body, t); t in a.entry && y in a.live && y in a.entry && a.entry[y] <= a.entry[t]
  {
    hide ReadsAssigned;
    var insts := f.body[t];
    ListedBlock(f, t);
    assert insts[0].dest.None? && Dests(insts) == {};
    assert insts[0].ops[0].id in Successors(insts);
  }

  lemma Redirected(f: Func, g: Func, b: nat, t: nat, y: nat, a: Guarantee, n: nat)
    requires b in f.body && b in g.body && BlockAssigns(a, f, b, n) && t in Successors(f.body[b])
    requires Successors(g.body[b]) <= Successors(f.body[b]) + {y} && Dests(f.body[b]) <= Dests(g.body[b])
    requires ReadsAssigned(if b in a.entry then a.entry[b] else {}, f.body[b], n) ==>
      ReadsAssigned(if b in a.entry then a.entry[b] else {}, g.body[b], n)
    requires b in a.live ==> t in a.entry && y in a.live && y in a.entry && a.entry[y] <= a.entry[t]
    ensures BlockAssigns(a, g, b, n)
  {
    hide Successors, ReadsAssigned, Dests;
  }

  // ---------------------------------------------------------------------------------------------
  // Why the loop ends

  /** Blocks keep their instructions; only jump targets differ. */
  ghost predicate SameSkeleton(f: Func, g: Func) {
    && g.order == f.order && g.body.Keys == f.body.Keys
    && (forall b | b in f.body :: |g.body[b]| == |f.body[b]|)
    && (forall b, k | b in f.body && 0 <= k < |f.body[b]| ::
      g.body[b][k].op == f.body[b][k].op && |g.body[b][k].ops| == |f.body[b][k].ops|)
    && (forall b, k | b in f.body && 0 <= k < |f.body[b]| && !f.body[b][k].op.IsTerminator() ::
      g.body[b][k] == f.body[b][k])
    && KeepsAssigned(f, g)
    && (forall b, k | b in f.body && 0 <= k < |f.body[b]| :: SameRegisters(f.body[b][k], g.body[b][k]))
  }

  /** The same destination and operands but for the blocks named. */
  ghost predicate SameRegisters(x: Inst, y: Inst) {
    y.dest == x.dest && |y.ops| == |x.ops| && forall j | 0 <= j < |x.ops| :: SameOperand(x.ops[j], y.ops[j])
  }

  predicate SameOperand(v: Value, u: Value) { u == v || (v.BlockRef? && u.BlockRef?) }

  lemma SameRegistersRead(x: Inst, y: Inst)
    requires SameRegisters(x, y)
    ensures forall v: nat :: VReg(v) in y.ops <==> VReg(v) in x.ops
  {
    forall v: nat
      ensures VReg(v) in y.ops <==> VReg(v) in x.ops
    {
      if VReg(v) in x.ops {
        var j :| 0 <= j < |x.ops| && x.ops[j] == VReg(v);
        assert SameOperand(x.ops[j], y.ops[j]);
      }
      if VReg(v) in y.ops {
        var j :| 0 <= j < |y.ops| && y.ops[j] == VReg(v);
        assert SameOperand(x.ops[j], y.ops[j]);
      }
    }
  }

  /** Hops left on the jump targets among `ops`. */
  ghost function OpsWeight(h: map<nat, nat>, ops: seq<Value>): nat
    requires Closed(h)
  {
    if ops == [] then 0
    else (if ops[0].BlockRef? && ops[0].id in h then Distance(h, ops[0].id, |h|) else 0) + OpsWeight(h, ops[1..])
  }

  ghost function BlockWeight(h: map<nat, nat>, insts: seq<Inst>): nat
    requires Closed(h)
  {
    if insts == [] then 0 else OpsWeight(h, insts[|insts| - 1].ops)
  }

  ghost function Weight(h: map<nat, nat>, order: seq<nat>, body: map<nat, seq<Inst>>): nat
    requires Closed(h)
  {
    if order == [] then 0
      else (if order[0] in body then BlockWeight(h, body[order[0]]) else 0) + Weight(h, order[1..], body)
  }

  ghost function Total(f: Func): nat {
    if Closed(Hops(f)) then Weight(Hops(f), f.order, f.body) else 0
  }

  /** The blocks on cycles of empty jumps. */
  ghost function Knots(f: Func): set<nat> {
    if Closed(Hops(f)) then Cycles(Hops(f)) else {}
  }

  /** Moving one target a hop on takes one hop off. */
  lemma {:induction false} AimWeighsLess(h: map<nat, nat>, ops: seq<Value>, j: nat)
    requires Closed(h) && Cycles(h) == {} && j < |ops| && ops[j].BlockRef? && ops[j].id in h
    requires h[ops[j].id] != ops[j].id
    ensures OpsWeight(h, ops[j := BlockRef(h[ops[j].id])]) + 1 == OpsWeight(h, ops)
  {
    var ops' := ops[j := BlockRef(h[ops[j].id])];
    if j == 0 {
      AcyclicSettles(h, ops[0].id);
      DistanceOfSuccessor(h, ops[0].id, |h|);
      assert ops'[1..] == ops[1..];
    } else {
      assert ops'[1..] == ops[1..][j - 1 := BlockRef(h[ops[j].id])];
      AimWeighsLess(h, ops[1..], j - 1);
    }
  }

  lemma ShortcutNearer(h: map<nat, nat>, b: nat, h': map<nat, nat>, x: nat)
    requires Shortcut(h, b, h') && Closed(h') && Cycles(h) == {} && x in h
    ensures Distance(h', x, |h'|) <= Distance(h, x, |h|)
  {
    hide Cycles, Distance, Settles;
    AcyclicSettles(h, x);
    ShortcutDistance(h, b, h', x, |h|);
    assert h'.Keys == h.Keys;
    assert |h'| == |h'.Keys| == |h.Keys| == |h|;
  }

  lemma {:induction false} ShortcutWeighsLess(h: map<nat, nat>, b: nat, h': map<nat, nat>, ops: seq<Value>)
    requires Shortcut(h, b, h') && Closed(h') && Cycles(h) == {}
    ensures OpsWeight(h', ops) <= OpsWeight(h, ops)
  {
    if ops != [] {
      ShortcutWeighsLess(h, b, h', ops[1..]);
      if ops[0].BlockRef? && ops[0].id in h { ShortcutNearer(h, b, h', ops[0].id); }
      assert h'.Keys == h.Keys;
      hide Cycles, Shortcut, Closed, Distance;
    }
  }

  lemma {:induction false} WeightDrops(h: map<nat, nat>, h': map<nat, nat>, order: seq<nat>, body: map<nat, seq<Inst>>,
        body': map<nat, seq<Inst>>, b: nat)
    requires Closed(h) && Closed(h') && body.Keys == body'.Keys
    requires forall x: nat | x in body :: BlockWeight(h', body'[x]) <= BlockWeight(h, body[x])
    ensures Weight(h', order, body') <= Weight(h, order, body)
    ensures b in order && b in body && BlockWeight(h', body'[b]) < BlockWeight(h, body[b]) ==>
      Weight(h', order, body') < Weight(h, order, body)
  {
    if order != [] {
      WeightDrops(h, h', order[1..], body, body', b);
      assert b in order ==> b == order[0] || b in order[1..];
    }
  }

  /** Unless the block is itself an empty jump, the graph of hops stays; otherwise it gets a shortcut. */
  ghost predicate HopsMove(h: map<nat, nat>, b: nat, h': map<nat, nat>) {
    Shortcut(h, b, h') || (h' == h && b in h && h[b] == b)
  }

  lemma HopsMoveAt(f: Func, b: nat, insts: seq<Inst>, t: nat)
    requires b in f.body && t in f.body && Closed(Hops(f)) && Hop(f.body, t) != t && IsHop(insts) == IsHop(f.body[b])
    requires IsHop(insts) ==> f.body[b][0].ops[0].id == t != b && insts[0].ops[0].id == Hop(f.body, t)
    ensures HopsMove(Hops(f), b, Hops(f.(body := f.body[b := insts])))
  {
    hide Closed, Hops, IsHop;
    HopAt(f);
    HopsAfter(f, b, insts);
    var h := Hops(f);
    assert h[b] == Hop(f.body, b) && h[t] == Hop(f.body, t);
    assert Hop(f.body, b) == if IsHop(f.body[b]) then t else b;
    assert h[b := h[b]] == h;
  }

  lemma AimKeepsHop(insts: seq<Inst>, k: nat, j: nat, y: nat)
    requires BlockOk(insts) && k < |insts| && IsSlot(insts[k], j)
    ensures var insts' := insts[k := Aim(insts[k], j, y)];
      && IsHop(insts') == IsHop(insts)
      && (IsHop(insts) ==> insts[0].ops[0].id == insts[k].ops[j].id && insts'[0].ops[0].id == y)
  {}

  lemma ThreadedHops(f: Func, b: nat, k: nat, j: nat, g: Func)
    requires Threads(f, b, k, j, g)
    ensures HopsMove(Hops(f), b, Hops(g)) && Closed(Hops(f)) && b in Hops(f)
  {
    hide Hop, Hops, Closed, BlockOk, IsHop, HopsMove, Successors;
    HopsAreClosed(f);
    SlotTarget(f, b, k, j);
    var t := f.body[b][k].ops[j].id;
    AimKeepsHop(f.body[b], k, j, Hop(f.body, t));
    HopsMoveAt(f, b, g.body[b], t);
    assert g == f.(body := f.body[b := g.body[b]]);
  }

  lemma CyclesShrink(h: map<nat, nat>, b: nat, h': map<nat, nat>)
    requires Shortcut(h, b, h')
    ensures Closed(h') && Cycles(h') <= Cycles(h)
    ensures b in Cycles(h) ==> Cycles(h') < Cycles(h)
  {
    ShortcutMakesNoCycle(h, b, h');
    if b in Cycles(h) { ShortcutShrinksCycle(h, b, h'); }
  }

  lemma KnotsShrink(f: Func, b: nat, g: Func)
    requires Closed(Hops(f)) && Closed(Hops(g)) && HopsMove(Hops(f), b, Hops(g))
    ensures Knots(g) <= Knots(f)
    ensures b in Knots(f) ==> Knots(g) < Knots(f)
  {
    hide Hops, Closed, Iter;
    if Shortcut(Hops(f), b, Hops(g)) {
      CyclesShrink(Hops(f), b, Hops(g));
    }
  }

  lemma AimedLighter(h: map<nat, nat>, insts: seq<Inst>, j: nat, t: nat)
    requires Closed(h) && Cycles(h) == {} && insts != [] && j < |insts[|insts| - 1].ops|
    requires insts[|insts| - 1].ops[j] == BlockRef(t) && t in h && h[t] != t
    ensures var k := |insts| - 1; BlockWeight(h, insts[k := Aim(insts[k], j, h[t])]) < BlockWeight(h, insts)
  {
    hide Closed, Cycles;
    AimWeighsLess(h, insts[|insts| - 1].ops, j);
  }

  lemma Measures(f: Func)
    requires WellFormed(f)
    ensures Closed(Hops(f)) && Total(f) == Weight(Hops(f), f.order, f.body) && Knots(f) == Cycles(Hops(f))
  {
    hide WellFormed, Closed, Hops, Cycles, Weight;
    HopsAreClosed(f);
  }

  lemma TotalDrops(f: Func, b: nat, k: nat, j: nat, g: Func)
    requires Threads(f, b, k, j, g) && WellFormed(f) && WellFormed(g) && Knots(f) == {}
    ensures Total(g) < Total(f)
  {
    hide *;
    Measures(f);
    Measures(g);
    BlockLighter(f, b, k, j, g);
    assert b in f.order && b in f.body && g.order == f.order && SameElsewhere(f.body, b, g.body) &&
      f.body.Keys == g.body.Keys by {
      ThreadingTouches(f, b, k, j, g);
      ListedBlock(f, b);
    }
    ThreadedHops(f, b, k, j, g);
    WeightDropsAt(Hops(f), Hops(g), b, f.order, f.body, g.body);
  }

  lemma BlockLighter(f: Func, b: nat, k: nat, j: nat, g: Func)
    requires Threads(f, b, k, j, g) && Closed(Hops(f)) && Cycles(Hops(f)) == {}
    ensures b in g.body && BlockWeight(Hops(f), g.body[b]) < BlockWeight(Hops(f), f.body[b])
  {
    hide Hop, Hops, Closed, BlockOk, IsHop, IsSlot, Successors, Cycles, WellFormed, BlockWeight, HopsMove;
    SlotTarget(f, b, k, j);
    TargetHop(f, b, k, j);
    AimedLighter(Hops(f), f.body[b], j, f.body[b][k].ops[j].id);
  }

  lemma WeightDropsAt(h: map<nat, nat>, h': map<nat, nat>, b: nat, order: seq<nat>, body: map<nat, seq<Inst>>,
        body': map<nat, seq<Inst>>)
    requires Closed(h) && Closed(h') && Cycles(h) == {} && HopsMove(h, b, h') && body.Keys == body'.Keys
    requires b in order && b in body && SameElsewhere(body, b, body')
    requires BlockWeight(h, body'[b]) < BlockWeight(h, body[b])
    ensures Weight(h', order, body') < Weight(h, order, body)
  {
    hide Closed, Cycles, BlockWeight, HopsMove, Weight;
    ThreadedLighter(h, b, h', body, body');
    WeightDrops(h, h', order, body, body', b);
  }

  lemma TargetHop(f: Func, b: nat, k: nat, j: nat)
    requires WellFormed(f) && b in f.body && k < |f.body[b]| && IsSlot(f.body[b][k], j)
    ensures var t := f.body[b][k].ops[j].id; t in Hops(f) && Hops(f)[t] == Hop(f.body, t)
    ensures j < |f.body[b][k].ops| && f.body[b][k].ops[j].BlockRef?
  {
    SlotTarget(f, b, k, j);
    HopAt(f);
    hide *;
  }

  lemma ThreadedLighter(h: map<nat, nat>, b: nat, h': map<nat, nat>, body: map<nat, seq<Inst>>, body': map<nat,
        seq<Inst>>)
    requires Closed(h) && Closed(h') && Cycles(h) == {} && b in body && b in body' && body.Keys == body'.Keys
    requires HopsMove(h, b, h')
    requires SameElsewhere(body, b, body')
    requires BlockWeight(h, body'[b]) < BlockWeight(h, body[b])
    ensures forall x: nat | x in body :: BlockWeight(h', body'[x]) <= BlockWeight(h, body[x])
    ensures BlockWeight(h', body'[b]) < BlockWeight(h, body[b])
  {
    forall x: nat | x in body
      ensures BlockWeight(h', body'[x]) <= BlockWeight(h, body'[x])
    {
      if h' != h && body'[x] != [] { ShortcutWeighsLess(h, b, h', body'[x][|body'[x]| - 1].ops); }
    }
  }

  // ---------------------------------------------------------------------------------------------
  // The pass

  /** `g` comes from `f` by zero or more redirections, at least one if `changed`. */
  ghost predicate Advance(f: Func, g: Func, changed: bool) {
    && WellFormed(f) && WellFormed(g) && SameSkeleton(f, g) && SameEnds(f, g)
    && Knots(g) <= Knots(f)
    && (Knots(f) == {} ==> Total(g) + (if changed then 1 else 0) <= Total(f))
    && (!changed ==> g == f)
  }

  lemma AdvanceByOne(f: Func, b: nat, k: nat, j: nat, g: Func)
    requires Threads(f, b, k, j, g)
    ensures Advance(f, g, true) && (b in Knots(f) ==> Knots(g) < Knots(f))
  {
    hide Aim, Closed, Hop, Hops, HopsMove, IsSlot, Knots, SameEnds, SameSkeleton, Total, WellFormed;
    ThreadingKeepsShape(f, b, k, j, g);
    ThreadingKeepsSkeleton(f, b, k, j, g);
    ThreadingKeepsEnds(f, b, k, j, g);
    assert WellFormed(f);
    HopsAreClosed(f);
    HopsAreClosed(g);
    ThreadedHops(f, b, k, j, g);
    KnotsShrink(f, b, g);
    if Knots(f) == {} { TotalDrops(f, b, k, j, g); }
  }

  lemma AdvanceNone(f: Func)
    requires WellFormed(f)
    ensures Advance(f, f, false)
  {
    hide WellFormed, SameEnds, KeepsAssigned;
    SameEndsReflexive(f);
    KeepsReflexive(f);
  }

  lemma AdvanceTwice(f: Func, g: Func, h: Func, c: bool, d: bool)
    requires Advance(f, g, c) && Advance(g, h, d)
    ensures Advance(f, h, c || d)
  {
    hide WellFormed, Knots, Total, SameEnds, KeepsAssigned;
    SameEndsTransitive(f, g, h);
    KeepsTransitive(f, g, h);
  }

  /** A block that consists of one jump is an empty jump: the builder gives jumps one block operand. */
  lemma HopByShape(f: Func, t: nat)
    requires WellFormed(f) && t in f.body
    ensures |f.body[t]| == 1 && f.body[t][0].op.Jmp? ==> IsHop(f.body[t])
    ensures Hop(f.body, t) == if |f.body[t]| == 1 && f.body[t][0].op.Jmp? then f.body[t][0].ops[0].id else t
  {}

  /** The rewrite of one jump target. */
  method Retarget(fn: SirFunction, b: nat, k: nat, j: nat) returns (changed: bool)
    requires WellFormed(fn.Snapshot()) && b in fn.body && k < |fn.body[b]| && IsSlot(fn.body[b][k], j)
    modifies fn
    ensures Advance(old(fn.Snapshot()), fn.Snapshot(), changed)
    ensures changed ==> old(b in Knots(fn.Snapshot())) ==> Knots(fn.Snapshot()) < old(Knots(fn.Snapshot()))
    ensures !changed ==> IsDirect(fn.body, b, fn.body[b][k], j)
  {
    hide WellFormed, Knots, Advance, Hop;
    changed := false;
    ghost var f := fn.Snapshot();
    SlotTarget(f, b, k, j);
    var target := fn.body[b][k].ops[j].id;
    HopByShape(f, target);
    AdvanceNone(f);
    if target != b && |fn.body[target]| == 1 && fn.body[target][0].op.Jmp? {
      var newTarget := fn.body[target][0].ops[0].id;
      if target != newTarget {
        fn.body := fn.body[b := fn.body[b][k := Aim(fn.body[b][k], j, newTarget)]];
        changed := true;
        AdvanceByOne(f, b, k, j, fn.Snapshot());
      }
    }
  }

  /** Block `b` is left behind: it is on no cycle unless the cycles have shrunk. */
  ghost predicate Passed(f: Func, g: Func, b: nat) { b in Knots(f) ==> Knots(g) < Knots(f) }

  lemma AdvanceKeeps(f: Func, g: Func, c: bool)
    requires Advance(f, g, c)
    ensures WellFormed(g) && SameSkeleton(f, g) && Knots(g) <= Knots(f) && (!c ==> g == f)
  {
    hide WellFormed, SameSkeleton, Knots, Total, SameEnds;
  }

  /** The operand positions that hold jump targets. */
  predicate IsTarget(inst: Inst, j: nat) {
    && j < |inst.ops|
    && ((inst.op.Jmp? && j == 0) || (inst.op.Br? && (j == 1 || j == 2)) || (inst.op.Switch? && j % 2 == 1))
  }

  predicate HasTarget(f: Func, b: nat, k: nat, j: nat) { b in f.body && k < |f.body[b]| && IsTarget(f.body[b][k], j) }

  lemma TargetIsSlot(f: Func, b: nat, k: nat, j: nat)
    requires WellFormed(f) && b in f.body && k < |f.body[b]|
    ensures IsTarget(f.body[b][k], j) <==> IsSlot(f.body[b][k], j)
  {}

  lemma TargetsStay(f: Func, g: Func, b: nat, k: nat, j: nat)
    requires SameSkeleton(f, g) && HasTarget(f, b, k, j)
    ensures HasTarget(g, b, k, j)
  {}

  /** Work on block `b` that began at `f` has come to `g`. */
  ghost predicate Working(f: Func, b: nat, g: Func, changed: bool) {
    Advance(f, g, changed) && (changed ==> Passed(f, g, b))
  }

  lemma WorkOn(f: Func, b: nat, g: Func, c: bool, h: Func, d: bool)
    requires Working(f, b, g, c) && Working(g, b, h, d)
    ensures Working(f, b, h, c || d)
  {
    hide Advance, Knots;
    AdvanceTwice(f, g, h, c, d);
    AdvanceKeeps(f, g, c);
    AdvanceKeeps(g, h, d);
  }

  method RetargetNext(fn: SirFunction, b: nat, k: nat, j: nat, ghost f: Func, changed: bool) returns (changed': bool)
    requires Working(f, b, fn.Snapshot(), changed) && HasTarget(f, b, k, j)
    modifies fn
    ensures Working(f, b, fn.Snapshot(), changed') && (changed ==> changed')
    ensures !changed' ==> IsDirect(f.body, b, f.body[b][k], j)
  {
    hide WellFormed, Knots, Advance, SameSkeleton, IsDirect;
    ghost var g := fn.Snapshot();
    AdvanceKeeps(f, g, changed);
    TargetsStay(f, g, b, k, j);
    TargetIsSlot(g, b, k, j);
    var moved := Retarget(fn, b, k, j);
    WorkOn(f, b, g, changed, fn.Snapshot(), moved);
    changed' := changed || moved;
    AdvanceKeeps(f, fn.Snapshot(), changed');
  }

  /** The targets of a switch: the default, then one for each case. */
  method RetargetSwitch(fn: SirFunction, b: nat, k: nat, ghost f: Func) returns (changed: bool)
    requires WellFormed(f) && f == fn.Snapshot() && b in fn.body && k < |fn.body[b]| && fn.body[b][k].op.Switch?
    requires |fn.body[b][k].ops| >= 2
    requires Working(f, b, f, false)
    modifies fn
    ensures Working(f, b, fn.Snapshot(), changed)
    ensures !changed ==> forall j: nat | j < |f.body[b][k].ops| && j % 2 == 1 :: IsDirect(f.body, b, f.body[b][k], j)
  {
    hide WellFormed, Working, IsDirect;
    var n := |fn.body[b][k].ops|;
    changed := RetargetNext(fn, b, k, 1, f, false);
    for i := 0 to (n - 2) / 2
      invariant Working(f, b, fn.Snapshot(), changed)
      invariant !changed ==> forall j: nat | j < 2 * i + 2 && j % 2 == 1 :: IsDirect(f.body, b, f.body[b][k], j)
    {
      changed := RetargetNext(fn, b, k, 2 + i * 2 + 1, f, changed);
    }
  }

  /** Rewrites the targets of one instruction. */
  method RetargetInst(fn: SirFunction, b: nat, k: nat, ghost f: Func) returns (changed: bool)
    requires WellFormed(f) && f == fn.Snapshot() && b in fn.body && k < |fn.body[b]|
    modifies fn
    ensures Working(f, b, fn.Snapshot(), changed)
    ensures !changed ==> forall j: nat | j < |f.body[b][k].ops| :: IsDirect(f.body, b, f.body[b][k], j)
  {
    hide Advance, Passed;
    AdvanceNone(f);
    changed := false;
    var op, n := fn.body[b][k].op, |fn.body[b][k].ops|;
    ShapeHere(f, b, k);
    if op.Jmp? {
      changed := RetargetNext(fn, b, k, 0, f, changed);
    } else if op.Br? {
      changed := RetargetNext(fn, b, k, 1, f, changed);
      changed := RetargetNext(fn, b, k, 2, f, changed);
    } else if op.Switch? {
      changed := RetargetSwitch(fn, b, k, f);
    }
    forall j: nat | !changed && j < n
      ensures IsDirect(f.body, b, f.body[b][k], j)
    {
      TargetIsSlot(f, b, k, j);
      if !IsTarget(f.body[b][k], j) { }
    }
  }

  lemma ShapeHere(f: Func, b: nat, k: nat)
    requires WellFormed(f) && b in f.body && k < |f.body[b]|
    ensures ShapeOk(f.body[b][k])
  {}

  /** All instructions of a block; only the last can hold targets. */
  method RetargetBlock(fn: SirFunction, b: nat, ghost f: Func) returns (changed: bool)
    requires WellFormed(f) && f == fn.Snapshot() && b in fn.body
    modifies fn
    ensures Advance(f, fn.Snapshot(), changed) && Passed(f, fn.Snapshot(), b)
    ensures !changed ==> BlockDirect(f, b)
  {
    hide WellFormed, Working, IsDirect, Knots;
    AdvanceNone(f);
    StartWorking(f, b);
    changed := false;
    var n := |fn.body[b]|;
    for k := 0 to n
      invariant Working(f, b, fn.Snapshot(), changed) && b in fn.body && |fn.body[b]| == n
      invariant !changed ==> forall k', j: nat | 0 <= k' < k && j < |f.body[b][k'].ops| ::
        IsDirect(f.body, b, f.body[b][k'], j)
    {
      ghost var g := fn.Snapshot();
      WorkingKeeps(f, b, g, changed);
      var moved := RetargetInst(fn, b, k, g);
      WorkOn(f, b, g, changed, fn.Snapshot(), moved);
      changed := changed || moved;
      WorkingKeeps(f, b, fn.Snapshot(), changed);
    }
    WorkingKeeps(f, b, fn.Snapshot(), changed);
    if !changed { DirectIsOffCycle(f, b); }
  }

  ghost predicate BlockDirect(f: Func, b: nat) {
    && b in f.body
    && forall k, j: nat | 0 <= k < |f.body[b]| && j < |f.body[b][k].ops| :: IsDirect(f.body, b, f.body[b][k], j)
  }

  lemma StartWorking(f: Func, b: nat)
    requires WellFormed(f)
    ensures Working(f, b, f, false)
  {
    hide Advance;
    AdvanceNone(f);
  }

  lemma WorkingKeeps(f: Func, b: nat, g: Func, c: bool)
    requires Working(f, b, g, c)
    ensures Advance(f, g, c) && (c ==> Passed(f, g, b)) && WellFormed(g) && (!c ==> g == f)
    ensures b in f.body ==> b in g.body && |g.body[b]| == |f.body[b]|
  {
    hide WellFormed, Knots, Passed, SameEnds, Total;
  }

  /** A block on a cycle of empty jumps always has something to thread. */
  lemma DirectIsOffCycle(f: Func, b: nat)
    requires WellFormed(f) && BlockDirect(f, b)
    ensures b !in Knots(f)
  {
    hide WellFormed, Iter;
    HopsAreClosed(f);
    HopAt(f);
    assert IsHop(f.body[b]) ==> IsDirect(f.body, b, f.body[b][0], 0);
    if b in Knots(f) { SuccessorOnCycle(Hops(f), b); }
  }

  /** The first `i` blocks are behind: either the cycles have shrunk or none of these blocks is on one. */
  ghost predicate Swept(f: Func, g: Func, i: nat)
    requires i <= |f.order|
  {
    Knots(g) < Knots(f) || forall k | 0 <= k < i :: f.order[k] !in Knots(f)
  }

  lemma SweepOn(f: Func, g: Func, c: bool, h: Func, d: bool, i: nat)
    requires i < |f.order| && Advance(f, g, c) && Advance(g, h, d) && Swept(f, g, i) && Passed(g, h, f.order[i])
    ensures Swept(f, h, i + 1) && Advance(f, h, c || d)
  {
    hide Advance, Knots;
    AdvanceTwice(f, g, h, c, d);
    AdvanceKeeps(f, g, c);
    AdvanceKeeps(g, h, d);
  }

  /** Fewer blocks on cycles of empty jumps or, with the same ones, fewer hops left. */
  ghost predicate Shrinks(f: Func, g: Func) {
    Knots(g) < Knots(f) || (Knots(g) == Knots(f) && Total(g) < Total(f))
  }

  /** A whole pass that changed something shrinks the set of cyclic blocks or, if there is none, the
      number of hops left. */
  lemma PassMakesProgress(f: Func, g: Func)
    requires Advance(f, g, true) && Swept(f, g, |f.order|)
    ensures Shrinks(f, g)
  {
    hide WellFormed, SameEnds, SameSkeleton, Total;
    assert WellFormed(f);
    KnotsAreListed(f);
    if !(Knots(g) < Knots(f)) {
      assert Knots(f) == {};
    }
  }

  lemma KnotsAreListed(f: Func)
    requires WellFormed(f)
    ensures forall b | b in Knots(f) :: b in f.order
  {
    hide Iter;
    HopAt(f);
    forall b | b in Knots(f)
      ensures b in f.order
    {
      ListedBlock(f, b);
    }
  }

  method Pass(fn: SirFunction) returns (changed: bool)
    requires WellFormed(fn.Snapshot())
    modifies fn
    ensures WellFormed(fn.Snapshot()) && SameSkeleton(old(fn.Snapshot()), fn.Snapshot())
    ensures SameEnds(old(fn.Snapshot()), fn.Snapshot())
    ensures !changed ==> FullyThreaded(fn.Snapshot())
    ensures changed ==> Shrinks(old(fn.Snapshot()), fn.Snapshot())
  {
    hide WellFormed, SameSkeleton, SameEnds, Knots, Total, Advance, BlockDirect;
    ghost var f := fn.Snapshot();
    AdvanceNone(f);
    changed := false;
    for i := 0 to |fn.order|
      invariant fn.order == f.order && Advance(f, fn.Snapshot(), changed) && Swept(f, fn.Snapshot(), i)
      invariant !changed ==> forall k | 0 <= k < i :: BlockDirect(f, f.order[k])
    {
      ghost var g := fn.Snapshot();
      AdvanceKeeps(f, g, changed);
      ListedInside(f, g, i);
      var moved := RetargetBlock(fn, fn.order[i], g);
      SweepOn(f, g, changed, fn.Snapshot(), moved, i);
      changed := changed || moved;
      AdvanceKeeps(f, fn.Snapshot(), changed);
      ListedInside(f, fn.Snapshot(), i);
    }
    PassDone(f, fn.Snapshot(), changed);
  }

  lemma ListedInside(f: Func, g: Func, i: nat)
    requires WellFormed(g) && SameSkeleton(f, g) && i < |f.order|
    ensures g.order == f.order && f.order[i] in g.body
  {
    assert g.order[i] in (set x | x in g.order);
  }

  lemma PassDone(f: Func, g: Func, changed: bool)
    requires Advance(f, g, changed) && Swept(f, g, |f.order|)
    requires !changed ==> forall k | 0 <= k < |f.order| :: BlockDirect(f, f.order[k])
    ensures WellFormed(g) && SameSkeleton(f, g) && SameEnds(f, g)
    ensures !changed ==> FullyThreaded(g)
    ensures changed ==> Shrinks(f, g)
  {
    hide SameSkeleton, SameEnds, Knots, Total;
    if changed {
      PassMakesProgress(f, g);
    } else {
      forall b: nat | b in f.body
        ensures BlockDirect(f, b)
      {
        ListedBlock(f, b);
      }
    }
  }

  /** Threads jumps until none is left to thread.  The loop ends even when empty jumps form cycles,
      and no run changes its outcome. */
  method ThreadJumps(fn: SirFunction)
    requires WellFormed(fn.Snapshot())
    modifies fn
    ensures WellFormed(fn.Snapshot()) && SameSkeleton(old(fn.Snapshot()), fn.Snapshot())
    ensures SameEnds(old(fn.Snapshot()), fn.Snapshot())
    ensures FullyThreaded(fn.Snapshot())
  {
    hide WellFormed, FullyThreaded, Knots, Total, SameEnds, KeepsAssigned;
    ghost var f := fn.Snapshot();
    SameEndsReflexive(f);
    KeepsReflexive(f);
    var changed := true;
    while changed
      invariant WellFormed(fn.Snapshot()) && SameSkeleton(f, fn.Snapshot())
      invariant SameEnds(f, fn.Snapshot())
      invariant !changed ==> FullyThreaded(fn.Snapshot())
      decreases changed, Knots(fn.Snapshot()), Total(fn.Snapshot())
    {
      ghost var before := fn.Snapshot();
      changed := Pass(fn);
      SameEndsTransitive(f, before, fn.Snapshot());
      KeepsTransitive(f, before, fn.Snapshot());
    }
  }
}
