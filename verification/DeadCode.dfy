/** Dead code elimination. */
module DeadCode {
  import opened Sir
  import opened SirFunctions
  import opened Assigned
  import opened Ssa

  ghost predicate IsRead(f: Func, v: nat) {
    exists b, k :: b in f.body && 0 <= k < |f.body[b]| && VReg(v) in f.body[b][k].ops
  }

  /** Computes a value without side effects into a register outside `used`. */
  predicate IsDead(inst: Inst, used: set<nat>) {
    inst.dest.Some? && inst.op.IsSideEffectFree() && inst.dest.value !in used
  }

  function Strip(insts: seq<Inst>, used: set<nat>): seq<Inst> {
    if insts == [] then []
    else if IsDead(insts[0], used) then Strip(insts[1..], used)
    else [insts[0]] + Strip(insts[1..], used)
  }

  ghost predicate HasDead(insts: seq<Inst>, used: set<nat>) { exists x :: x in insts && IsDead(x, used) }

  lemma {:induction false} StripKeepsTheRest(insts: seq<Inst>, used: set<nat>)
    ensures forall x :: x in Strip(insts, used) <==> x in insts && !IsDead(x, used)
    ensures |Strip(insts, used)| <= |insts|
    ensures if HasDead(insts, used) then |Strip(insts, used)| < |insts| else Strip(insts, used) == insts
  {
    if insts != [] {
      StripKeepsTheRest(insts[1..], used);
      assert insts == [insts[0]] + insts[1..];
    }
  }

  function StripAll(f: Func, used: set<nat>): Func {
    Func(f.order, map b | b in f.body :: Strip(f.body[b], used))
  }

  lemma {:induction false} StripConcat(a: seq<Inst>, b: seq<Inst>, used: set<nat>)
    ensures Strip(a + b, used) == Strip(a, used) + Strip(b, used)
  {
    if a == [] {
      assert a + b == b;
    } else {
      assert (a + b)[1..] == a[1..] + b;
      StripConcat(a[1..], b, used);
    }
  }

  lemma {:induction false} StripKeepsShape(insts: seq<Inst>, used: set<nat>)
    requires BlockOk(insts)
    ensures BlockOk(Strip(insts, used)) && Successors(Strip(insts, used)) <= Successors(insts)
  {
    if insts != [] {
      var init, last := insts[..|insts| - 1], insts[|insts| - 1];
      assert insts == init + [last];
      StripConcat(init, [last], used);
      var r := Strip(init, used);
      StripKeepsTheRest(init, used);
      forall k | 0 <= k < |r|
        ensures !r[k].op.IsTerminator() && ShapeOk(r[k])
      {
        assert r[k] in init;
        var j :| 0 <= j < |init| && init[j] == r[k];
        assert insts[j] == r[k];
      }
      assert Strip([last], used) == if IsDead(last, used) then [] else [last];
    }
  }

  // ---------------------------------------------------------------------------------------------
  // What is left is left in order

  /** `e` gives the places in `xs` of the instructions of `ys`, in order. */
  ghost predicate Embeds(xs: seq<Inst>, ys: seq<Inst>, e: seq<nat>) {
    && |e| == |ys|
    && (forall k | 0 <= k < |e| :: e[k] < |xs| && xs[e[k]] == ys[k])
    && forall k, l | 0 <= k < l < |e| :: e[k] < e[l]
  }

  lemma {:induction false} StripEmbeds(insts: seq<Inst>, used: set<nat>) returns (e: seq<nat>)
    ensures Embeds(insts, Strip(insts, used), e)
  {
    hide Embeds;
    if insts == [] {
      e := [];
      assert Embeds([], [], []) by { NothingEmbeds(); }
    } else {
      var rest := StripEmbeds(insts[1..], used);
      e := if IsDead(insts[0], used) then Shifted(rest) else [0] + Shifted(rest);
      ShiftedEmbeds(insts, Strip(insts[1..], used), rest);
      FirstEmbeds(insts, Strip(insts[1..], used), Shifted(rest));
    }
  }

  lemma NothingEmbeds()
    ensures Embeds([], [], [])
  {}

  function Shifted(e: seq<nat>): (r: seq<nat>)
    ensures |r| == |e| && forall k | 0 <= k < |e| :: r[k] == e[k] + 1
  {
    seq(|e|, k requires 0 <= k < |e| => e[k] + 1)
  }

  lemma ShiftedEmbeds(xs: seq<Inst>, ys: seq<Inst>, e: seq<nat>)
    requires xs != [] && Embeds(xs[1..], ys, e)
    ensures Embeds(xs, ys, Shifted(e)) && forall k | 0 <= k < |e| :: Shifted(e)[k] > 0
  {}

  lemma FirstEmbeds(xs: seq<Inst>, ys: seq<Inst>, e: seq<nat>)
    requires xs != [] && Embeds(xs, ys, e) && forall k | 0 <= k < |e| :: e[k] > 0
    ensures Embeds(xs, [xs[0]] + ys, [0] + e)
  {}

  /** In every block of `g` some instructions of `f` are left, in order. */
  ghost predicate Thinned(f: Func, g: Func) {
    g.order == f.order && g.body.Keys == f.body.Keys && forall b | b in f.body && b in g.body ::
      ThinnedBlock(f.body[b], g.body[b])
  }

  ghost predicate ThinnedBlock(xs: seq<Inst>, ys: seq<Inst>) { exists e: seq<nat> :: Embeds(xs, ys, e) }

  lemma ThinnedReflexive(f: Func)
    ensures Thinned(f, f)
  {
    forall b | b in f.body
      ensures ThinnedBlock(f.body[b], f.body[b])
    {
      assert Embeds(f.body[b], f.body[b], seq(|f.body[b]|, k => k));
    }
  }

  lemma ThinnedTransitive(f: Func, g: Func, h: Func)
    requires Thinned(f, g) && Thinned(g, h)
    ensures Thinned(f, h)
  {
    hide Embeds;
    forall b | b in f.body && b in h.body
      ensures ThinnedBlock(f.body[b], h.body[b])
    {
      assert ThinnedBlock(f.body[b], g.body[b]) && ThinnedBlock(g.body[b], h.body[b]);
      var e :| Embeds(f.body[b], g.body[b], e);
      var d :| Embeds(g.body[b], h.body[b], d);
      var c := EmbedsTransitive(f.body[b], g.body[b], h.body[b], e, d);
    }
  }

  lemma EmbedsTransitive(xs: seq<Inst>, ys: seq<Inst>, zs: seq<Inst>, e: seq<nat>, d: seq<nat>) returns (c: seq<nat>)
    requires Embeds(xs, ys, e) && Embeds(ys, zs, d)
    ensures Embeds(xs, zs, c)
  {
    c := seq(|d|, k requires 0 <= k < |d| => e[d[k]]);
  }

  lemma StripThins(f: Func, used: set<nat>)
    ensures Thinned(f, StripAll(f, used))
  {
    hide Embeds, Strip;
    forall b | b in f.body
      ensures ThinnedBlock(f.body[b], Strip(f.body[b], used))
    {
      var e := StripEmbeds(f.body[b], used);
    }
  }

  // ---------------------------------------------------------------------------------------------
  // Dropping dead instructions preserves runs

  ghost predicate AgreeOn(used: set<nat>, regs: Regs, regs': Regs) {
    forall v | v in used :: (v in regs <==> v in regs') && (v in regs ==> regs[v] == regs'[v])
  }

  lemma OperandsAgree(m: Machine, ops: seq<Value>, used: set<nat>, regs: Regs, regs': Regs)
    requires AgreeOn(used, regs, regs') && forall v: nat | VReg(v) in ops :: v in used
    ensures EvalAll(m, ops, regs) == EvalAll(m, ops, regs')
  {
    forall k | 0 <= k < |ops|
      ensures EvalOperand(m, ops[k], regs) == EvalOperand(m, ops[k], regs')
    {
      if ops[k].VReg? { assert VReg(ops[k].r) in ops; }
    }
    EvalAllCongruent(m, ops, regs, ops, regs');
  }

  lemma StepAgrees(m: Machine, params: seq<i64>, inst: Inst, used: set<nat>, regs: Regs, regs': Regs, w: World)
    requires AgreeOn(used, regs, regs') && forall v: nat | VReg(v) in inst.ops :: v in used
    ensures Step(m, params, inst, regs, w) == Step(m, params, inst, regs', w)
  {
    OperandsAgree(m, inst.ops, used, regs, regs');
  }

  ghost predicate SameResult(used: set<nat>, r: BlockResult, r': BlockResult) {
    match r
    case End(o) => o == Fault || r' == r
    case Goto(b, regs, w) => r'.Goto? && r'.id == b && r'.w == w && AgreeOn(used, regs, r'.regs)
  }

  lemma {:induction false} StripBlock(m: Machine, params: seq<i64>, insts: seq<Inst>, used: set<nat>, regs: Regs,
        regs': Regs, w: World)
    requires AgreeOn(used, regs, regs')
    requires forall x, v: nat | x in insts && VReg(v) in x.ops :: v in used
    ensures SameResult(used, RunBlock(m, params, insts, regs, w), RunBlock(m, params, Strip(insts, used), regs', w))
  {
    hide Step;
    if insts != [] {
      var inst := insts[0];
      assert Step(m, params, inst, regs, w) == Step(m, params, inst, regs', w) by {
        StepAgrees(m, params, inst, used, regs, regs', w);
      }
      assert forall x | x in insts[1..] :: x in insts;
      match Step(m, params, inst, regs, w)
      case Finish(_) =>
        if IsDead(inst, used) { SideEffectFreeStep(m, params, inst, regs, w); }
      case Jump(_) =>
        if IsDead(inst, used) { SideEffectFreeStep(m, params, inst, regs, w); }
      case Next(v, w') =>
        if IsDead(inst, used) {
          SideEffectFreeStep(m, params, inst, regs, w);
          StripBlock(m, params, insts[1..], used, Write(regs, inst.dest, v), regs', w');
        } else {
          StripBlock(m, params, insts[1..], used, Write(regs, inst.dest, v), Write(regs', inst.dest, v), w');
        }
    }
  }

  lemma {:induction false} StripRun(m: Machine, f: Func, used: set<nat>, params: seq<i64>, b: nat, regs: Regs,
        regs': Regs, w: World, fuel: nat)
    requires AgreeOn(used, regs, regs') && forall v: nat | IsRead(f, v) :: v in used
    ensures var o := Run(m, f, params, b, regs, w, fuel);
      o == Fault || Run(m, StripAll(f, used), params, b, regs', w, fuel) == o
    decreases fuel
  {
    hide Step;
    if fuel > 0 && b in f.body {
      forall x, v: nat | x in f.body[b] && VReg(v) in x.ops
        ensures v in used
      {
        assert IsRead(f, v);
      }
      StripBlock(m, params, f.body[b], used, regs, regs', w);
      match RunBlock(m, params, f.body[b], regs, w)
      case End(_) =>
      case Goto(b', regs1, w') =>
        StripRun(m, f, used, params, b', regs1, RunBlock(m, params, Strip(f.body[b], used), regs', w).regs, w',
          fuel - 1);
    }
  }

  lemma StripPreserves(f: Func, used: set<nat>)
    requires forall v: nat | IsRead(f, v) :: v in used
    ensures Lockstep(f, StripAll(f, used))
  {
    forall m: Machine, params: seq<i64>, w: World, n: nat | RunFunc(m, f, params, w, n) != Fault
      ensures RunFunc(m, StripAll(f, used), params, w, n) == RunFunc(m, f, params, w, n)
    {
      StripRun(m, f, used, params, f.order[0], map[], map[], w, n);
    }
  }

  lemma StripIsWellFormed(f: Func, used: set<nat>)
    requires WellFormed(f)
    ensures WellFormed(StripAll(f, used))
  {
    forall b | b in f.body
      ensures BlockOk(Strip(f.body[b], used)) && Successors(Strip(f.body[b], used)) <= f.body.Keys
    {
      StripKeepsShape(f.body[b], used);
    }
  }

  // ---------------------------------------------------------------------------------------------
  // The pass

  method CountOperands(ops: seq<Value>, useCounts: array<nat>)
    requires forall v: nat | VReg(v) in ops :: v < useCounts.Length
    modifies useCounts
    ensures forall v | 0 <= v < useCounts.Length :: useCounts[v] > 0 <==> old(useCounts[v]) > 0 || VReg(v) in ops
  {
    for i := 0 to |ops|
      invariant forall v | 0 <= v < useCounts.Length ::
        useCounts[v] > 0 <==> old(useCounts[v]) > 0 || VReg(v) in ops[..i]
    {
      assert ops[..i + 1] == ops[..i] + [ops[i]];
      if ops[i].VReg? {
        assert VReg(ops[i].r) in ops;
        useCounts[ops[i].r] := useCounts[ops[i].r] + 1;
      }
    }
    assert ops[..|ops|] == ops;
  }

  method CountBlock(insts: seq<Inst>, useCounts: array<nat>)
    requires forall x, v: nat | x in insts && VReg(v) in x.ops :: v < useCounts.Length
    modifies useCounts
    ensures forall v | 0 <= v < useCounts.Length ::
      useCounts[v] > 0 <==> old(useCounts[v]) > 0 || exists x :: x in insts && VReg(v) in x.ops
  {
    for k := 0 to |insts|
      invariant forall v | 0 <= v < useCounts.Length ::
        useCounts[v] > 0 <==> old(useCounts[v]) > 0 || exists x :: x in insts[..k] && VReg(v) in x.ops
    {
      assert insts[..k + 1] == insts[..k] + [insts[k]];
      CountOperands(insts[k].ops, useCounts);
    }
    assert insts[..|insts|] == insts;
  }

  /** Uses of every register in the whole function. */
  method CountUses(fn: SirFunction, max: nat) returns (useCounts: array<nat>)
    requires WellFormed(fn.Snapshot()) && InRange(fn.Snapshot(), max)
    ensures fresh(useCounts) && useCounts.Length == max + 1
    ensures forall v | 0 <= v <= max :: useCounts[v] > 0 <==> IsRead(fn.Snapshot(), v)
  {
    useCounts := new nat[max + 1](i => 0);
    for j := 0 to |fn.order|
      invariant forall v | 0 <= v <= max :: useCounts[v] > 0 <==>
        exists i, x :: 0 <= i < j && fn.order[i] in fn.body && x in fn.body[fn.order[i]] && VReg(v) in x.ops
    {
      var b := fn.order[j];
      assert b in (set x | x in fn.order);
      RegistersInRange(fn.Snapshot(), max, b);
      CountBlock(fn.body[b], useCounts);
    }
    forall v | 0 <= v <= max
      ensures useCounts[v] > 0 <==> IsRead(fn.Snapshot(), v)
    {
      if IsRead(fn.Snapshot(), v) {
        var b, k :| b in fn.body && 0 <= k < |fn.body[b]| && VReg(v) in fn.body[b][k].ops;
        assert b in (set x | x in fn.order);
        var i :| 0 <= i < |fn.order| && fn.order[i] == b;
        assert fn.body[b][k] in fn.body[fn.order[i]];
      }
    }
  }

  /** Unlinks the dead instructions of a block. */
  method StripList(insts: seq<Inst>, useCounts: array<nat>, ghost used: set<nat>) returns (r: seq<Inst>, removed: bool)
    requires forall x | x in insts && x.dest.Some? :: x.dest.value < useCounts.Length
    requires forall v | 0 <= v < useCounts.Length :: useCounts[v] > 0 <==> v in used
    ensures r == Strip(insts, used)
    ensures removed <==> HasDead(insts, used)
  {
    r, removed := [], false;
    for k := 0 to |insts|
      invariant r == Strip(insts[..k], used)
      invariant removed <==> HasDead(insts[..k], used)
    {
      assert insts[..k + 1] == insts[..k] + [insts[k]];
      StripConcat(insts[..k], [insts[k]], used);
      assert insts[k] in insts;
      var inst := insts[k];
      if inst.dest.Some? && inst.op.IsSideEffectFree() && useCounts[inst.dest.value] == 0 {
        removed := true;
      } else {
        r := r + [inst];
      }
    }
    assert insts[..|insts|] == insts;
  }

  /** One round: drop every instruction whose result is read nowhere. */
  method Round(fn: SirFunction, max: nat) returns (changed: bool)
    requires WellFormed(fn.Snapshot()) && InRange(fn.Snapshot(), max)
    modifies fn
    ensures WellFormed(fn.Snapshot()) && InRange(fn.Snapshot(), max) && fn.order == old(fn.order)
    ensures Lockstep(old(fn.Snapshot()), fn.Snapshot())
    ensures OnlyOld(old(fn.Snapshot()), fn.Snapshot()) && KeepsAssigned(old(fn.Snapshot()), fn.Snapshot())
    ensures Thinned(old(fn.Snapshot()), fn.Snapshot())
    ensures !changed ==> fn.Snapshot() == old(fn.Snapshot()) && NoDeadCode(fn.Snapshot())
    ensures changed ==> Size(fn.order, fn.body) < old(Size(fn.order, fn.body))
  {
    hide KeepsAssigned, Thinned;
    var useCounts := CountUses(fn, max);
    ghost var f := fn.Snapshot();
    ghost var used := set v: nat | v <= max && useCounts[v] > 0;
    changed := StripBlocks(fn, max, useCounts, used);
    ReadInRange(f, max);
    RoundDone(f, used, fn.Snapshot(), max, changed);
  }

  method StripBlocks(fn: SirFunction, max: nat, useCounts: array<nat>, ghost used: set<nat>) returns (changed: bool)
    requires WellFormed(fn.Snapshot()) && InRange(fn.Snapshot(), max)
    requires useCounts.Length == max + 1 && forall v | 0 <= v <= max :: useCounts[v] > 0 <==> v in used
    modifies fn
    ensures fn.order == old(fn.order)
    ensures PartlyStripped(old(fn.Snapshot()), used, fn.body, |fn.order|)
    ensures changed <==> DeadAmong(old(fn.Snapshot()), used, |fn.order|)
  {
    hide PartlyStripped, DeadAmong, WellFormed, InRange, HasDead;
    changed := false;
    ghost var f := fn.Snapshot();
    StartStripping(f, used);
    for j := 0 to |fn.order|
      invariant fn.order == f.order && PartlyStripped(f, used, fn.body, j)
      invariant changed <==> DeadAmong(f, used, j)
    {
      var b := fn.order[j];
      NextToStrip(f, used, fn.body, j);
      RegistersInRange(f, max, b);
      var insts, removed := StripList(fn.body[b], useCounts, used);
      StripOne(f, used, fn.body, j);
      fn.body := fn.body[b := insts];
      changed := changed || removed;
    }
  }

  lemma ReadInRange(f: Func, max: nat)
    requires InRange(f, max)
    ensures forall v: nat | IsRead(f, v) :: v <= max
  {
    forall v: nat | IsRead(f, v)
      ensures v <= max
    {
      var b, k :| b in f.body && 0 <= k < |f.body[b]| && VReg(v) in f.body[b][k].ops;
      assert InstInRange(f.body[b][k], max) && MentionsReg(f.body[b][k], v);
    }
  }

  lemma RegistersInRange(f: Func, max: nat, b: nat)
    requires InRange(f, max) && b in f.body
    ensures forall x | x in f.body[b] && x.dest.Some? :: x.dest.value <= max
    ensures forall x, v: nat | x in f.body[b] && VReg(v) in x.ops :: v <= max
  {
    forall x | x in f.body[b]
      ensures InstInRange(x, max)
    {
      var k :| 0 <= k < |f.body[b]| && f.body[b][k] == x;
    }
    assert forall x | x in f.body[b] && x.dest.Some? :: MentionsReg(x, x.dest.value);
    assert forall x, v: nat | x in f.body[b] && VReg(v) in x.ops :: MentionsReg(x, v);
  }

  /** The first `j` blocks of the list have been stripped. */
  ghost predicate PartlyStripped(f: Func, used: set<nat>, body: map<nat, seq<Inst>>, j: nat)
    requires j <= |f.order|
  {
    && body.Keys == f.body.Keys
    && (forall i | 0 <= i < j :: f.order[i] in f.body && body[f.order[i]] == Strip(f.body[f.order[i]], used))
    && (forall i | j <= i < |f.order| :: f.order[i] in f.body && body[f.order[i]] == f.body[f.order[i]])
  }

  ghost predicate DeadAmong(f: Func, used: set<nat>, j: nat)
    requires j <= |f.order|
  {
    exists i :: 0 <= i < j && f.order[i] in f.body && HasDead(f.body[f.order[i]], used)
  }

  lemma StartStripping(f: Func, used: set<nat>)
    requires WellFormed(f)
    ensures PartlyStripped(f, used, f.body, 0) && !DeadAmong(f, used, 0)
  {
    hide BlockOk, Successors;
    forall i | 0 <= i < |f.order| ensures f.order[i] in f.body { assert f.order[i] in (set b | b in f.order); }
  }

  lemma NextToStrip(f: Func, used: set<nat>, body: map<nat, seq<Inst>>, j: nat)
    requires WellFormed(f) && j < |f.order| && PartlyStripped(f, used, body, j)
    ensures f.order[j] in body && f.order[j] in f.body && body[f.order[j]] == f.body[f.order[j]]
    ensures forall i | 0 <= i < |f.order| && i != j :: f.order[i] != f.order[j]
  {
    hide BlockOk, Successors, Strip;
  }

  lemma StripOne(f: Func, used: set<nat>, body: map<nat, seq<Inst>>, j: nat)
    requires j < |f.order| && PartlyStripped(f, used, body, j)
    requires forall i | 0 <= i < |f.order| && i != j :: f.order[i] != f.order[j]
    ensures PartlyStripped(f, used, body[f.order[j] := Strip(f.body[f.order[j]], used)], j + 1)
    ensures DeadAmong(f, used, j + 1) <==> DeadAmong(f, used, j) || HasDead(f.body[f.order[j]], used)
  {
    var body' := body[f.order[j] := Strip(f.body[f.order[j]], used)];
    assert body'.Keys == f.body.Keys;
  }

  lemma RoundDone(f: Func, used: set<nat>, f': Func, max: nat, changed: bool)
    requires WellFormed(f) && InRange(f, max) && f'.order == f.order && f'.body.Keys == f.body.Keys
    requires forall v: nat :: IsRead(f, v) <==> v in used
    requires PartlyStripped(f, used, f'.body, |f.order|) && (changed <==> DeadAmong(f, used, |f.order|))
    ensures WellFormed(f') && InRange(f', max) && Lockstep(f, f') && OnlyOld(f, f') && KeepsAssigned(f, f')
    ensures Thinned(f, f')
    ensures !changed ==> f' == f && NoDeadCode(f')
    ensures changed ==> Size(f'.order, f'.body) < Size(f.order, f.body)
  {
    hide Lockstep, OnlyOld, KeepsAssigned, InRange, NoDeadCode, Thinned;
    StripThins(f, used);
    AllStripped(f, used, f');
    StripIsWellFormed(f, used);
    StripKeepsAssigned(f, used);
    StripPreserves(f, used);
    StripInRange(f, used, max);
    StripOnlyOld(f, used);
    if changed { StripShrinks(f, used); } else { NothingToStrip(f, used); }
  }

  lemma AllStripped(f: Func, used: set<nat>, f': Func)
    requires WellFormed(f) && f'.order == f.order && PartlyStripped(f, used, f'.body, |f.order|)
    ensures f' == StripAll(f, used)
  {
    hide BlockOk, Successors, Strip;
    forall b | b in f.body
      ensures f'.body[b] == Strip(f.body[b], used)
    {
      assert b in (set x | x in f.order);
      var i :| 0 <= i < |f.order| && f.order[i] == b;
    }
    assert f'.body == StripAll(f, used).body;
  }

  /** A register that is read keeps its writes. */
  lemma StripKeepsAssigned(f: Func, used: set<nat>)
    requires WellFormed(f) && forall v: nat :: IsRead(f, v) <==> v in used
    ensures KeepsAssigned(f, StripAll(f, used))
  {
    hide WellFormed, BlockOk, Successors, Strip, BlockAssigns;
    var g := StripAll(f, used);
    forall n: nat | IsAssigned(f, n)
      ensures IsAssigned(g, n)
    {
      var a :| Assigns(a, f, n);
      var a' := Guarantee(map b | b in a.entry :: a.entry[b] * used, a.live);
      forall b | b in g.body
        ensures BlockAssigns(a', g, b, n)
      {
        StrippedAssigns(f, used, b, a, n);
      }
      assert Assigns(a', g, n);
    }
  }

  lemma StrippedAssigns(f: Func, used: set<nat>, b: nat, a: Guarantee, n: nat)
    requires WellFormed(f) && b in f.body && BlockAssigns(a, f, b, n) && forall v: nat :: IsRead(f, v) <==> v in used
    ensures BlockAssigns(Guarantee(map x | x in a.entry :: a.entry[x] * used, a.live), StripAll(f, used), b, n)
  {
    hide WellFormed, BlockOk, Successors, Strip, ReadsAssigned, Dests;
    BlockInside(f, b);
    StripKeepsShape(f.body[b], used);
    StripKeepsDests(f.body[b], used);
    if b in a.live {
      forall k, r: nat | 0 <= k < |f.body[b]| && VReg(r) in f.body[b][k].ops ensures r in used { assert IsRead(f, r); }
      StripReads(f.body[b], used, a.entry[b], a.entry[b] * used, n);
    }
  }

  lemma BlockInside(f: Func, b: nat)
    requires WellFormed(f) && b in f.body
    ensures BlockOk(f.body[b])
  {}

  lemma StripKeepsDests(insts: seq<Inst>, used: set<nat>)
    ensures Dests(insts) * used <= Dests(Strip(insts, used))
  {
    hide Strip;
    StripKeepsTheRest(insts, used);
    forall v | v in Dests(insts) && v in used
      ensures v in Dests(Strip(insts, used))
    {
      var i :| 0 <= i < |insts| && insts[i].dest == Some(v);
      assert insts[i] in Strip(insts, used);
    }
  }

  lemma {:induction false} StripReads(insts: seq<Inst>, used: set<nat>, e: set<nat>, e': set<nat>, n: nat)
    requires ReadsAssigned(e, insts, n) && e * used <= e'
    requires forall k, r: nat | 0 <= k < |insts| && VReg(r) in insts[k].ops :: r in used
    ensures ReadsAssigned(e', Strip(insts, used), n)
  {
    if insts != [] {
      ReadsCons(e, insts, n);
      var rest, d := insts[1..], Dests(insts[..1]);
      FirstDest(insts);
      hide ReadsAssigned, Dests;
      forall k, r: nat | 0 <= k < |rest| && VReg(r) in rest[k].ops ensures r in used { assert rest[k] == insts[k + 1]; }
      if IsDead(insts[0], used) {
        StripReads(rest, used, e + d, e', n);
      } else {
        StripReads(rest, used, e + d, e' + d, n);
        var s := Strip(insts, used);
        assert s[0] == insts[0] && s[1..] == Strip(rest, used) && s[..1] == insts[..1];
        ReadsCons(e', s, n);
      }
    }
  }

  lemma StripInRange(f: Func, used: set<nat>, max: nat)
    requires InRange(f, max)
    ensures InRange(StripAll(f, used), max)
  {
    var f' := StripAll(f, used);
    forall b, k | b in f'.body && 0 <= k < |f'.body[b]|
      ensures InstInRange(f'.body[b][k], max)
    {
      StripKeepsTheRest(f.body[b], used);
      assert f'.body[b][k] in f.body[b];
    }
  }

  lemma StripOnlyOld(f: Func, used: set<nat>)
    ensures OnlyOld(f, StripAll(f, used))
  {
    forall b | b in f.body { StripKeepsTheRest(f.body[b], used); }
  }

  lemma StripShrinks(f: Func, used: set<nat>)
    requires DeadAmong(f, used, |f.order|)
    ensures Size(f.order, StripAll(f, used).body) < Size(f.order, f.body)
  {
    forall b | b in f.body { StripKeepsTheRest(f.body[b], used); }
    var i :| 0 <= i < |f.order| && f.order[i] in f.body && HasDead(f.body[f.order[i]], used);
    SizeDrops(f.order, f.body, StripAll(f, used).body, f.order[i]);
  }

  lemma NothingToStrip(f: Func, used: set<nat>)
    requires WellFormed(f) && !DeadAmong(f, used, |f.order|)
    requires forall v: nat :: IsRead(f, v) <==> v in used
    ensures StripAll(f, used) == f && NoDeadCode(f)
  {
    forall b | b in f.body
      ensures StripAll(f, used).body[b] == f.body[b] && !HasDead(f.body[b], used)
    {
      StripKeepsTheRest(f.body[b], used);
      assert b in (set x | x in f.order);
      var i :| 0 <= i < |f.order| && f.order[i] == b;
    }
    assert StripAll(f, used).body == f.body;
  }

  /** Every side-effect free instruction computes something that is read. */
  ghost predicate NoDeadCode(f: Func) {
    forall b, x | b in f.body && x in f.body[b] && x.dest.Some? && x.op.IsSideEffectFree() :: IsRead(f, x.dest.value)
  }

  /** Removes instructions until every remaining side-effect free one is needed.  The loop ends, and
      every run that does not fault keeps its result, memory and output. */
  method EliminateDeadCode(fn: SirFunction)
    requires WellFormed(fn.Snapshot())
    modifies fn
    ensures WellFormed(fn.Snapshot()) && fn.order == old(fn.order)
    ensures Lockstep(old(fn.Snapshot()), fn.Snapshot()) && OnlyOld(old(fn.Snapshot()), fn.Snapshot())
    ensures KeepsAssigned(old(fn.Snapshot()), fn.Snapshot()) && Thinned(old(fn.Snapshot()), fn.Snapshot())
    ensures NoDeadCode(fn.Snapshot())
  {
    hide NoDeadCode, Lockstep, KeepsAssigned, Thinned;
    ghost var f := fn.Snapshot();
    ThinnedReflexive(f);
    LockstepReflexive(f);
    KeepsReflexive(f);
    var max := fn.MaxVreg();
    var changed := true;
    while changed
      invariant WellFormed(fn.Snapshot()) && InRange(fn.Snapshot(), max) && fn.order == old(fn.order)
      invariant Lockstep(f, fn.Snapshot()) && OnlyOld(f, fn.Snapshot()) && KeepsAssigned(f, fn.Snapshot())
      invariant Thinned(f, fn.Snapshot())
      invariant !changed ==> NoDeadCode(fn.Snapshot())
      decreases Size(fn.order, fn.body), changed
    {
      ghost var before := fn.Snapshot();
      changed := Round(fn, max);
      LockstepTransitive(f, before, fn.Snapshot());
      ThinnedTransitive(f, before, fn.Snapshot());
      KeepsTransitive(f, before, fn.Snapshot());
    }
  }
}
