/** The propagation pass: rewriting a function in place until nothing changes. */
module PropagationPass {
  import opened Sir
  import opened Ssa
  import opened SirFunctions
  import opened Assigned
  import opened Propagation
  import opened Prune
  import opened Settled

  type Table = array<Option<Value>>

  ghost function Entries(table: Table): map<nat, Value>
    reads table
  {
    map v: nat | v < table.Length && table[v].Some? :: table[v].value
  }

  method ReplaceOperands(ops: seq<Value>, table: Table) returns (r: seq<Value>, changed: bool)
    requires forall v: nat | VReg(v) in ops :: v < table.Length
    ensures r == NewOperands(ops, Entries(table))
    ensures changed <==> Replaces(ops, Entries(table))
  {
    r, changed := [], false;
    for i := 0 to |ops|
      invariant |r| == i && forall k | 0 <= k < i :: r[k] == NewOperand(ops[k], Entries(table))
      invariant changed <==> exists k :: 0 <= k < i && ops[k].VReg? && ops[k].r in Entries(table)
    {
      var op := ops[i];
      if op.VReg? {
        assert VReg(op.r) in ops;
        if table[op.r].Some? {
          r := r + [table[op.r].value];
          changed := true;
        } else {
          r := r + [op];
        }
      } else {
        r := r + [op];
      }
    }
  }

  /** The destination of the first earlier instruction that computes the same. */
  method FindSeen(seen: seq<Inst>, inst: Inst) returns (found: Option<nat>)
    ensures found.Some? ==> exists j :: 0 <= j < |seen| && SameComputation(seen[j], inst) && seen[j].dest == found
    ensures found.None? ==> forall j | 0 <= j < |seen| :: !SameComputation(seen[j], inst)
  {
    for s := 0 to |seen|
      invariant forall j | 0 <= j < s :: !SameComputation(seen[j], inst)
    {
      if SameComputation(seen[s], inst) {
        return seen[s].dest;
      }
    }
    return None;
  }

  /** The instructions of the block rewritten so far. */
  ghost predicate Partial(c: Cert, f: Func, b: nat, r: seq<Inst>)
    requires SitesOk(c, f) && b in f.body
  {
    |r| <= |f.body[b]| && forall k | 0 <= k < |r| :: Rewritten(c, f, b, k, r[k])
  }

  ghost predicate SeenOk(seen: seq<Inst>, r: seq<Inst>) {
    forall j | 0 <= j < |seen| :: seen[j].op.IsPureCompute() && seen[j] in r
  }

  /** The pass's preconditions: strict SSA, and a table with an entry for every register. */
  ghost predicate Ready(c: Cert, f: Func, table: Table) {
    StrictSsa(c, f) && SitesOk(c, f) && c.top < table.Length
  }

  lemma OperandsHaveEntries(c: Cert, f: Func, table: Table, b: nat, k: nat)
    requires Ready(c, f, table) && b in f.body && k < |f.body[b]|
    ensures forall v: nat | VReg(v) in f.body[b][k].ops :: v < table.Length
    ensures f.body[b][k].dest.Some? ==> f.body[b][k].dest.value < table.Length
    ensures ShapeOk(f.body[b][k])
  {
    hide StrictSsa, WellFormed, Dominance, LiveOk, ShapeOk, At;
    SsaParts(c, f);
    BlocksOk(f, b);
    assert ReadsOk(c, f, b, k);
  }

  ghost predicate Unreplaced(inst: Inst, keys: set<nat>) { forall v | v in keys :: VReg(v) !in inst.ops }

  lemma NothingReplaced(inst: Inst, table: map<nat, Value>)
    ensures !Replaces(inst.ops, table) ==> Unreplaced(inst, table.Keys)
  {}

  /** Operands replaced and the branch folded; weight drops if anything changed. */
  method RewriteInst(ghost c: Cert, ghost f: Func, ghost b: nat, ghost k: nat, inst: Inst, table: Table)
    returns (x: Inst, changed: bool, cfgChanged: bool)
    requires Ready(c, f, table) && TableOk(c, f, Entries(table)) && b in f.body && k < |f.body[b]|
    requires f.body[b][k] == inst
    ensures Rewritten(c, f, b, k, x)
    ensures if changed then InstWeight(c, x) < InstWeight(c, inst) else x == inst
    ensures !changed ==> ShapeOk(inst) && FoldBranch(inst) == inst
    ensures !changed ==> Unreplaced(inst, Entries(table).Keys)
    ensures cfgChanged ==> changed
    ensures !cfgChanged ==> Targets(x) == Targets(inst)
  {
    hide StrictSsa, SitesOk, Rewritten, ShapeOk, NewOperands, TableOk, Unreplaced;
    OperandsHaveEntries(c, f, table, b, k);
    var ops;
    ops, changed := ReplaceOperands(inst.ops, table);
    var y := inst.(ops := ops);
    InstRewriting(c, f, b, k, Entries(table));
    NothingReplaced(inst, Entries(table));
    x, cfgChanged := y, false;
    if y.op.Br? && y.ops[0].ConstBool? {
      x, changed, cfgChanged := Inst(Jmp, y.dest, [if y.ops[0].b then y.ops[1] else y.ops[2]]), true, true;
    } else if y.op.Switch? && y.ops[0].ConstInt? {
      var target := y.ops[1];
      var i := 2;
      while i + 1 < |y.ops|
        invariant 2 <= i
        invariant FoldSwitch(y.ops, y.ops[0].i, 2) ==
          if i + 1 < |y.ops| then FoldSwitch(y.ops, y.ops[0].i, i) else target
        invariant target == y.ops[1]
      {
        if y.ops[i] == ConstInt(y.ops[0].i) {
          target := y.ops[i + 1];
          break;
        }
        i := i + 2;
      }
      x, changed, cfgChanged := Inst(Jmp, y.dest, [target]), true, true;
    }
    assert x == FoldBranch(y);
  }

  /** What replacing operands and folding do to one instruction. */
  lemma InstRewriting(c: Cert, f: Func, b: nat, k: nat, table: map<nat, Value>)
    requires StrictSsa(c, f) && SitesOk(c, f) && TableOk(c, f, table) && b in f.body && k < |f.body[b]|
    ensures var inst := f.body[b][k]; var y := inst.(ops := NewOperands(inst.ops, table));
      && ShapeOk(y) && Rewritten(c, f, b, k, FoldBranch(y))
      && Targets(y) == Targets(inst)
      && InstWeight(c, FoldBranch(y)) <= InstWeight(c, inst)
      && (Replaces(inst.ops, table) || FoldBranch(y) != y ==> InstWeight(c, FoldBranch(y)) < InstWeight(c, inst))
      && (!Replaces(inst.ops, table) ==> y == inst)
      && (y.op.Br? ==> |y.ops| == 3) && (y.op.Switch? ==> |y.ops| >= 2)
      && (y.op.Br? && y.ops[0].ConstBool? ==> FoldBranch(y) != y)
      && (y.op.Switch? && y.ops[0].ConstInt? ==> FoldBranch(y) != y)
  {
    hide StrictSsa, SitesOk, TableOk, Rewritten, NewOperands, ShapeOk, Targets, FoldBranch, OperandWeight, Replaces;
    InstFacts(c, f, b, k, table);
    ReplacedIsRewritten(c, f, b, k, table);
    ReplacementIsLighter(c, f, table, f.body[b][k].ops);
    var inst := f.body[b][k];
    var y := inst.(ops := NewOperands(inst.ops, table));
    ReplacedShape(inst, table);
    FoldedIsRewritten(c, f, b, k, y);
    FoldIsLighter(c, y);
    BranchShape(y);
  }

  lemma BranchShape(y: Inst)
    requires ShapeOk(y)
    ensures (y.op.Br? ==> |y.ops| == 3) && (y.op.Switch? ==> |y.ops| >= 2)
    ensures y.op.Br? && y.ops[0].ConstBool? ==> FoldBranch(y) != y
    ensures y.op.Switch? && y.ops[0].ConstInt? ==> FoldBranch(y) != y
  {}

  lemma RewrittenFacts(c: Cert, f: Func, b: nat, k: nat, x: Inst)
    requires SitesOk(c, f) && b in f.body && k < |f.body[b]| && Rewritten(c, f, b, k, x)
    ensures ShapeOk(x) && x.dest == f.body[b][k].dest
  {}

  /** What a rewritten pure computation amounts to: a constant or copy, or an earlier computation. */
  method FindReplacement(ghost c: Cert, ghost f: Func, ghost b: nat, ghost k: nat, x: Inst, seen: seq<Inst>,
        ghost r: seq<Inst>)
    returns (rep: Option<Value>)
    requires StrictSsa(c, f) && SitesOk(c, f) && b in f.body && k < |f.body[b]|
    requires Partial(c, f, b, r) && |r| == k && SeenOk(seen, r) && Rewritten(c, f, b, k, x) && x.op.IsPureCompute()
    ensures ShapeOk(x) && (CopyOf(x).Some? ==> rep == CopyOf(x))
    ensures rep.Some? ==> x.dest.Some? && Stands(c, f, x.dest.value, rep.value)
    ensures CopyOf(x).None? ==> (rep.Some? <==> exists j :: 0 <= j < |seen| && SameComputation(seen[j], x))
  {
    hide StrictSsa, SitesOk, Rewritten, ShapeOk, CopyOf, SameComputation, Dominance, Stands;
    RewrittenFacts(c, f, b, k, x);
    SsaParts(c, f);
    rep := CopyOf(x);
    if rep.Some? {
      CopyStands(c, f, b, k, x);
    } else {
      var found := FindSeen(seen, x);
      if found.Some? {
        ghost var j :| 0 <= j < |seen| && SameComputation(seen[j], x) && seen[j].dest == found;
        ghost var i :| 0 <= i < |r| && r[i] == seen[j];
        RepeatStands(c, f, b, i, r[i], k, x);
        rep := Some(VReg(found.value));
      }
    }
  }

  /** A constant, a copy, or a repeat of what has been seen. */
  ghost predicate Known(seen: seq<Inst>, x: Inst) {
    ShapeOk(x) && (CopyOf(x).Some? || exists j :: 0 <= j < |seen| && SameComputation(seen[j], x))
  }

  /** Records what a rewritten instruction amounts to, or adds it to the computations seen. */
  method Record(ghost c: Cert, ghost f: Func, ghost b: nat, ghost k: nat, x: Inst, table: Table, seen: seq<Inst>,
        ghost r: seq<Inst>)
    returns (seen': seq<Inst>)
    requires Ready(c, f, table) && TableOk(c, f, Entries(table)) && b in f.body && k < |f.body[b]|
    requires Partial(c, f, b, r) && |r| == k && SeenOk(seen, r) && Rewritten(c, f, b, k, x)
    requires x.dest.Some? ==> x.dest.value !in Entries(table)
    modifies table
    ensures TableOk(c, f, Entries(table))
    ensures SeenOk(seen', r + [x])
    ensures Entries(table).Keys == old(Entries(table).Keys) +
      if x.op.IsPureCompute() && x.dest.Some? && Known(seen, x) then {x.dest.value} else {}
    ensures seen' == if x.op.IsPureCompute() && x.dest.Some? && !Known(seen, x) then seen + [x] else seen
  {
    hide StrictSsa, SitesOk, Rewritten, ShapeOk, CopyOf, SameComputation, TableOk, Stands, Partial, SeenOk;
    OperandsHaveEntries(c, f, table, b, k);
    RewrittenFacts(c, f, b, k, x);
    SeenGrows(seen, r, x);
    seen' := seen;
    if x.dest.Some? && table[x.dest.value].None? && x.op.IsPureCompute() {
      var rep := FindReplacement(c, f, b, k, x, seen, r);
      if rep.Some? {
        SetEntry(c, f, x.dest.value, rep.value, table);
      } else {
        seen' := seen + [x];
      }
    }
  }

  lemma SeenGrows(seen: seq<Inst>, r: seq<Inst>, x: Inst)
    requires SeenOk(seen, r)
    ensures SeenOk(seen, r + [x]) && (x.op.IsPureCompute() ==> SeenOk(seen + [x], r + [x]))
  {}

  method SetEntry(ghost c: Cert, ghost f: Func, v: nat, val: Value, table: Table)
    requires SitesOk(c, f) && v < table.Length && TableOk(c, f, Entries(table)) && Stands(c, f, v, val)
    modifies table
    ensures TableOk(c, f, Entries(table)) && Entries(table).Keys == old(Entries(table).Keys) + {v}
  {
    hide SitesOk, Stands;
    table[v] := Some(val);
    forall u | u in Entries(table)
      ensures Stands(c, f, u, Entries(table)[u])
    {
      if u != v { assert u in old(Entries(table)) && Entries(table)[u] == old(Entries(table))[u]; }
    }
  }

  /** The first `k` instructions of the block have become `r`. */
  ghost predicate Rewriting(c: Cert, f: Func, b: nat, k: nat, r: seq<Inst>, changed: bool, cfgChanged: bool)
    requires SitesOk(c, f) && b in f.body && k <= |f.body[b]|
  {
    var insts := f.body[b];
    && |r| == k && Partial(c, f, b, r)
    && (if changed then BlockWeight(c, r) < BlockWeight(c, insts[..k]) else r == insts[..k] && NoConstantBranch(r))
    && (cfgChanged ==> changed)
    && (!cfgChanged ==> forall i | 0 <= i < k :: Targets(r[i]) == Targets(insts[i]))
  }

  lemma RewritingStep(c: Cert, f: Func, b: nat, k: nat, r: seq<Inst>, changed: bool, cfgChanged: bool, x: Inst,
        ch: bool, cfg: bool)
    requires SitesOk(c, f) && b in f.body && k < |f.body[b]| && Rewriting(c, f, b, k, r, changed, cfgChanged)
    requires Rewritten(c, f, b, k, x) && (cfg ==> ch) && (!cfg ==> Targets(x) == Targets(f.body[b][k]))
    requires if ch then InstWeight(c, x) < InstWeight(c, f.body[b][k]) else x == f.body[b][k]
    requires !ch ==> ShapeOk(x) && FoldBranch(x) == x
    ensures Rewriting(c, f, b, k + 1, r + [x], changed || ch, cfgChanged || cfg)
  {
    hide SitesOk, Rewritten, Targets, ShapeOk, FoldBranch, BlockWeight, InstWeight;
    var insts := f.body[b];
    assert insts[..k + 1] == insts[..k] + [insts[k]];
    WeightOfOneMore(c, r, x);
    WeightOfOneMore(c, insts[..k], insts[k]);
  }

  lemma WeightOfOneMore(c: Cert, insts: seq<Inst>, x: Inst)
    ensures BlockWeight(c, insts + [x]) == BlockWeight(c, insts) + InstWeight(c, x)
  {
    assert (insts + [x])[..|insts|] == insts;
  }

  lemma RewritingDone(c: Cert, f: Func, b: nat, r: seq<Inst>, changed: bool, cfgChanged: bool)
    requires SitesOk(c, f) && b in f.body && Rewriting(c, f, b, |f.body[b]|, r, changed, cfgChanged)
    ensures |r| == |f.body[b]| && Partial(c, f, b, r)
    ensures if changed then BlockWeight(c, r) < BlockWeight(c, f.body[b]) else r == f.body[b] && NoConstantBranch(r)
    ensures cfgChanged ==> changed
    ensures !cfgChanged ==> Successors(r) == Successors(f.body[b])
  {
    hide SitesOk, Partial, NoConstantBranch, Targets;
    assert f.body[b][..|f.body[b]|] == f.body[b];
  }

  // ---------------------------------------------------------------------------------------------
  // What the table and the computations seen have caught

  /** The registers are defined in the blocks, or among the first `k` instructions of block `b`. */
  ghost predicate Sited(c: Cert, keys: set<nat>, blocks: set<nat>, b: nat, k: nat) {
    forall v | v in keys :: v in c.site && (c.site[v].0 in blocks || (c.site[v].0 == b && c.site[v].1 < k))
  }

  /** Every spare value has an entry. */
  ghost predicate Caught(r: seq<Inst>, keys: set<nat>) {
    forall l | 0 <= l < |r| && Spare(r, l) :: r[l].dest.Some? && r[l].dest.value in keys
  }

  ghost predicate AllSeen(r: seq<Inst>, seen: seq<Inst>) {
    forall l | 0 <= l < |r| && Original(r[l]) :: exists j :: 0 <= j < |seen| && SameComputation(seen[j], r[l])
  }

  ghost predicate AllUnreplaced(r: seq<Inst>, keys: set<nat>) { forall l | 0 <= l < |r| :: Unreplaced(r[l], keys) }

  ghost predicate Finding(c: Cert, keys0: set<nat>, keys: set<nat>, blocks: set<nat>, b: nat, r: seq<Inst>,
        seen: seq<Inst>, changed: bool) {
    && keys0 <= keys && Sited(c, keys, blocks, b, |r|) && Caught(r, keys) && AllSeen(r, seen)
    && (!changed ==> BlockSettled(r) && AllUnreplaced(r, keys0))
  }

  lemma {:induction false} SparePrefix(r: seq<Inst>, x: Inst, l: nat)
    requires l < |r|
    ensures Spare(r + [x], l) <==> Spare(r, l)
  {
    hide CopyOf, SameComputation, ShapeOk;
    assert (r + [x])[l] == r[l];
    assert forall i | 0 <= i < l :: (r + [x])[i] == r[i];
  }

  /** A value that repeats an instruction of the block has been seen. */
  lemma {:induction false} SpareIsKnown(r: seq<Inst>, x: Inst, seen: seq<Inst>)
    requires AllSeen(r, seen) && Spare(r + [x], |r|)
    ensures Known(seen, x)
  {
    hide CopyOf, SameComputation, ShapeOk;
    if CopyOf(x).None? {
      var i :| 0 <= i < |r| && Original((r + [x])[i]) && SameComputation((r + [x])[i], x);
      var j :| 0 <= j < |seen| && SameComputation(seen[j], r[i]);
      RepeatsChain(seen[j], r[i], x);
    }
  }

  lemma SameAsItself(x: Inst)
    requires Original(x)
    ensures SameComputation(x, x) && x.dest.Some?
  {
    RepeatsAreFound(x, x);
  }

  lemma CaughtStep(r: seq<Inst>, x: Inst, seen: seq<Inst>, keys: set<nat>, keys': set<nat>)
    requires Caught(r, keys) && AllSeen(r, seen) && ShapeOk(x)
    requires keys' == keys + if x.op.IsPureCompute() && x.dest.Some? && Known(seen, x) then {x.dest.value} else {}
    ensures Caught(r + [x], keys')
  {
    hide CopyOf, SameComputation, ShapeOk, Spare, Known;
    forall l | 0 <= l < |r + [x]| && Spare(r + [x], l)
      ensures (r + [x])[l].dest.Some? && (r + [x])[l].dest.value in keys'
    {
      SpareHasDest(r + [x], l);
      if l < |r| {
        SparePrefix(r, x, l);
      } else {
        SpareIsKnown(r, x, seen);
        SpareIsPure(r + [x], l);
      }
    }
  }

  lemma SpareIsPure(insts: seq<Inst>, k: nat)
    requires k < |insts| && Spare(insts, k)
    ensures insts[k].op.IsPureCompute()
  {
    hide CopyOf, SameComputation;
  }

  lemma SeenStep(r: seq<Inst>, x: Inst, seen: seq<Inst>)
    requires AllSeen(r, seen)
    ensures AllSeen(r + [x], if x.op.IsPureCompute() && x.dest.Some? && !Known(seen, x) then seen + [x] else seen)
  {
    hide CopyOf, SameComputation, ShapeOk;
    var seen' := if x.op.IsPureCompute() && x.dest.Some? && !Known(seen, x) then seen + [x] else seen;
    forall l | 0 <= l < |r + [x]| && Original((r + [x])[l])
      ensures exists j :: 0 <= j < |seen'| && SameComputation(seen'[j], (r + [x])[l])
    {
      if l < |r| {
        assert Original(r[l]);
        var j :| 0 <= j < |seen| && SameComputation(seen[j], r[l]);
        assert seen'[j] == seen[j];
      } else {
        SameAsItself(x);
        if !Known(seen, x) { assert seen'[|seen|] == x; }
      }
    }
  }

  lemma SettledStep(r: seq<Inst>, x: Inst, keys: set<nat>)
    requires Caught(r, keys) && BlockSettled(r) && Unreplaced(x, keys)
    ensures BlockSettled(r + [x])
  {
    hide CopyOf, SameComputation, ShapeOk, Spare;
    var s := r + [x];
    forall k | 0 <= k < |s| && Spare(s, k)
      ensures s[k].dest.Some? && forall l | k < l < |s| :: !Reads(s, l, s[k].dest.value)
    {
      if k < |r| {
        SparePrefix(r, x, k);
        assert s[k] == r[k] && r[k].dest.value in keys && VReg(r[k].dest.value) !in x.ops;
        forall l | k < l < |s|
          ensures !Reads(s, l, s[k].dest.value)
        {
          if l < |r| { assert s[l] == r[l] && !Reads(r, l, r[k].dest.value); } else { assert s[l] == x; }
        }
      } else {
        SpareHasDest(s, k);
      }
    }
  }

  lemma FindingStep(c: Cert, f: Func, keys0: set<nat>, keys: set<nat>, blocks: set<nat>, b: nat, r: seq<Inst>,
        seen: seq<Inst>, changed: bool, x: Inst, ch: bool, keys': set<nat>, seen': seq<Inst>)
    requires Finding(c, keys0, keys, blocks, b, r, seen, changed) && ShapeOk(x)
    requires keys' == keys + if x.op.IsPureCompute() && x.dest.Some? && Known(seen, x) then {x.dest.value} else {}
    requires seen' == if x.op.IsPureCompute() && x.dest.Some? && !Known(seen, x) then seen + [x] else seen
    requires x.dest.Some? ==> x.dest.value in c.site && c.site[x.dest.value] == (b, |r|)
    requires !ch ==> Unreplaced(x, keys)
    ensures Finding(c, keys0, keys', blocks, b, r + [x], seen', changed || ch)
  {
    hide Caught, AllSeen, BlockSettled, ShapeOk, Known;
    CaughtStep(r, x, seen, keys, keys');
    SeenStep(r, x, seen);
    if !changed && !ch { SettledStep(r, x, keys); }
  }

  lemma StartFinding(c: Cert, keys: set<nat>, blocks: set<nat>, b: nat)
    requires Sited(c, keys, blocks, b, 0)
    ensures Finding(c, keys, keys, blocks, b, [], [], false)
  {}

  /** An instruction about to be looked at has no entry yet. */
  lemma NotYetSited(c: Cert, f: Func, keys: set<nat>, blocks: set<nat>, b: nat, k: nat)
    requires SitesOk(c, f) && b in f.body && k < |f.body[b]| && b !in blocks && Sited(c, keys, blocks, b, k)
    ensures f.body[b][k].dest.Some? ==>
      var v := f.body[b][k].dest.value; v !in keys && v in c.site && c.site[v] == (b, k)
  {
    hide SitesOk;
    if f.body[b][k].dest.Some? {
      DestSite(c, f, b, k);
      assert c.site[f.body[b][k].dest.value].0 == b && c.site[f.body[b][k].dest.value].1 == k;
    }
  }

  method RewriteBlock(ghost c: Cert, ghost f: Func, ghost b: nat, insts: seq<Inst>, table: Table,
        ghost blocks: set<nat>)
    returns (r: seq<Inst>, changed: bool, cfgChanged: bool)
    requires Ready(c, f, table) && TableOk(c, f, Entries(table)) && b in f.body && f.body[b] == insts
    requires b !in blocks && Sited(c, Entries(table).Keys, blocks, b, 0)
    modifies table
    ensures old(Entries(table).Keys) <= Entries(table).Keys && Sited(c, Entries(table).Keys, blocks, b, |insts|)
    ensures Caught(r, Entries(table).Keys)
    ensures !changed ==> BlockSettled(insts) && AllUnreplaced(insts, old(Entries(table).Keys))
    ensures TableOk(c, f, Entries(table))
    ensures |r| == |insts| && Partial(c, f, b, r)
    ensures if changed then BlockWeight(c, r) < BlockWeight(c, insts) else r == insts
    ensures !changed ==> NoConstantBranch(insts)
    ensures cfgChanged ==> changed
    ensures !cfgChanged ==> Successors(r) == Successors(insts)
  {
    hide StrictSsa, SitesOk, TableOk, Rewritten, Rewriting, Partial, SeenOk, Successors, NoConstantBranch, ShapeOk,
      FoldBranch, Targets, BlockWeight, Finding, Sited, Known, Unreplaced, Entries, BlockSettled, Caught, AllUnreplaced;
    r, changed, cfgChanged := [], false, false;
    var seen: seq<Inst> := [];
    ghost var keys0 := Entries(table).Keys;
    StartRewriting(c, f, b);
    StartFinding(c, keys0, blocks, b);
    for k := 0 to |insts|
      invariant Rewriting(c, f, b, k, r, changed, cfgChanged) && SeenOk(seen, r) && TableOk(c, f, Entries(table))
      invariant Finding(c, keys0, Entries(table).Keys, blocks, b, r, seen, changed)
    {
      RewritingPart(c, f, b, k, r, changed, cfgChanged);
      FindingSites(c, keys0, Entries(table).Keys, blocks, b, r, seen, changed);
      NotYetSited(c, f, Entries(table).Keys, blocks, b, k);
      var x, ch, cfg := RewriteInst(c, f, b, k, insts[k], table);
      RewrittenFacts(c, f, b, k, x);
      ghost var keys, seen0 := Entries(table).Keys, seen;
      seen := Record(c, f, b, k, x, table, seen, r);
      FindingStep(c, f, keys0, keys, blocks, b, r, seen0, changed, x, ch, Entries(table).Keys, seen);
      RewritingStep(c, f, b, k, r, changed, cfgChanged, x, ch, cfg);
      r := r + [x];
      changed, cfgChanged := changed || ch, cfgChanged || cfg;
    }
    RewritingDone(c, f, b, r, changed, cfgChanged);
    FindingDone(c, keys0, Entries(table).Keys, blocks, b, r, seen, changed);
  }

  lemma FindingSites(c: Cert, keys0: set<nat>, keys: set<nat>, blocks: set<nat>, b: nat, r: seq<Inst>, seen: seq<Inst>,
        changed: bool)
    requires Finding(c, keys0, keys, blocks, b, r, seen, changed)
    ensures Sited(c, keys, blocks, b, |r|)
  {
    hide Caught, AllSeen, BlockSettled, AllUnreplaced;
  }

  lemma FindingDone(c: Cert, keys0: set<nat>, keys: set<nat>, blocks: set<nat>, b: nat, r: seq<Inst>, seen: seq<Inst>,
        changed: bool)
    requires Finding(c, keys0, keys, blocks, b, r, seen, changed)
    ensures keys0 <= keys && Sited(c, keys, blocks, b, |r|) && Caught(r, keys)
    ensures !changed ==> BlockSettled(r) && AllUnreplaced(r, keys0)
  {
    hide Caught, AllSeen, BlockSettled, AllUnreplaced, Sited;
  }

  lemma StartRewriting(c: Cert, f: Func, b: nat)
    requires SitesOk(c, f) && b in f.body
    ensures Rewriting(c, f, b, 0, [], false, false) && SeenOk([], [])
  {
    hide SitesOk;
  }

  lemma RewritingPart(c: Cert, f: Func, b: nat, k: nat, r: seq<Inst>, changed: bool, cfgChanged: bool)
    requires SitesOk(c, f) && b in f.body && k <= |f.body[b]| && Rewriting(c, f, b, k, r, changed, cfgChanged)
    ensures |r| == k && Partial(c, f, b, r)
  {
    hide SitesOk, Partial;
  }

  /** No branch or switch of the block decides on a constant. */
  predicate NoConstantBranch(insts: seq<Inst>) {
    forall k | 0 <= k < |insts| :: ShapeOk(insts[k]) && FoldBranch(insts[k]) == insts[k]
  }

  /** The blocks of the list before position `j` have been rewritten. */
  ghost predicate PartlyRewritten(c: Cert, f: Func, body: map<nat, seq<Inst>>, j: nat)
    requires SitesOk(c, f) && j <= |f.order|
  {
    && body.Keys == f.body.Keys
    && (forall i | 0 <= i < j ::
      f.order[i] in f.body && |body[f.order[i]]| == |f.body[f.order[i]]| && Partial(c, f, f.order[i], body[f.order[i]]))
    && (forall i | j <= i < |f.order| :: f.order[i] in f.body && body[f.order[i]] == f.body[f.order[i]])
  }

  lemma RewriteOne(c: Cert, f: Func, body: map<nat, seq<Inst>>, j: nat, r: seq<Inst>)
    requires SitesOk(c, f) && j < |f.order| && PartlyRewritten(c, f, body, j)
    requires forall i | 0 <= i < |f.order| && i != j :: f.order[i] != f.order[j]
    requires |r| == |f.body[f.order[j]]| && Partial(c, f, f.order[j], r)
    ensures PartlyRewritten(c, f, body[f.order[j] := r], j + 1)
  {
    hide SitesOk, Partial;
  }

  lemma AllRewritten(c: Cert, f: Func, g: Func)
    requires StrictSsa(c, f) && SitesOk(c, f) && g.order == f.order && PartlyRewritten(c, f, g.body, |f.order|)
    ensures RewrittenFunc(c, f, g)
  {
    hide SitesOk, Dominance, Rewritten;
    forall b | b in f.body
      ensures |g.body[b]| == |f.body[b]| && Partial(c, f, b, g.body[b])
    {
      assert b in (set x | x in f.order);
      var i :| 0 <= i < |f.order| && f.order[i] == b;
    }
  }

  /** The state of a round before block `j` of the list. */
  ghost predicate InRound(c: Cert, f: Func, body: map<nat, seq<Inst>>, j: nat, changed: bool, cfgChanged: bool)
    requires SitesOk(c, f) && j <= |f.order|
  {
    && PartlyRewritten(c, f, body, j)
    && (if changed then Weight(c, f.order, body) < Weight(c, f.order, f.body)
        else body == f.body && forall i | 0 <= i < j :: NoConstantBranch(f.body[f.order[i]]))
    && (cfgChanged ==> changed)
    && (!cfgChanged ==> forall b | b in f.body :: Successors(body[b]) == Successors(f.body[b]))
  }

  lemma InRoundBlock(c: Cert, f: Func, body: map<nat, seq<Inst>>, j: nat, changed: bool, cfgChanged: bool)
    requires SitesOk(c, f) && j < |f.order| && InRound(c, f, body, j, changed, cfgChanged)
    ensures f.order[j] in f.body && f.order[j] in body && body[f.order[j]] == f.body[f.order[j]]
  {
    hide SitesOk, Partial, Weight, Successors, NoConstantBranch;
  }

  lemma RoundDone(c: Cert, f: Func, g: Func, changed: bool, cfgChanged: bool)
    requires StrictSsa(c, f) && SitesOk(c, f) && g.order == f.order
    requires InRound(c, f, g.body, |f.order|, changed, cfgChanged)
    ensures RewrittenFunc(c, f, g) && (cfgChanged ==> changed)
    ensures if changed then Weight(c, g.order, g.body) < Weight(c, f.order, f.body) else g == f && NoConstantBranches(g)
    ensures !cfgChanged ==> forall b | b in g.body :: b in f.body && Successors(g.body[b]) == Successors(f.body[b])
  {
    hide SitesOk, Partial, Weight, Successors, NoConstantBranch, RewrittenFunc, StrictSsa, WellFormed;
    AllRewritten(c, f, g);
    SsaWellFormed(c, f);
    OrderIsDistinct(f);
    if !changed {
      forall b | b in g.body ensures NoConstantBranch(g.body[b]) {
        var i :| 0 <= i < |f.order| && f.order[i] == b;
      }
    }
  }

  lemma SsaWellFormed(c: Cert, f: Func)
    requires StrictSsa(c, f)
    ensures WellFormed(f)
  {}

  lemma RoundStep(c: Cert, f: Func, body: map<nat, seq<Inst>>, j: nat, changed: bool, cfgChanged: bool, r: seq<Inst>,
        ch: bool, cfg: bool)
    requires SitesOk(c, f) && j < |f.order| && InRound(c, f, body, j, changed, cfgChanged)
    requires forall i | 0 <= i < |f.order| && i != j :: f.order[i] != f.order[j]
    requires |r| == |f.body[f.order[j]]| && Partial(c, f, f.order[j], r)
    requires if ch then BlockWeight(c, r) < BlockWeight(c, body[f.order[j]])
      else r == body[f.order[j]] && NoConstantBranch(r)
    requires cfg ==> ch
    requires !cfg ==> Successors(r) == Successors(body[f.order[j]])
    ensures InRound(c, f, body[f.order[j] := r], j + 1, changed || ch, cfgChanged || cfg)
  {
    hide SitesOk, Partial, Successors, BlockWeight, NoConstantBranch;
    var b := f.order[j];
    RewriteOne(c, f, body, j, r);
    if ch {
      WeightAfter(c, f.order, body, b, r);
    } else {
      assert body[b := r] == body;
    }
  }

  /** One round over the function. */
  method Round(fn: SirFunction, ghost c: Cert, max: nat) returns (changed: bool, cfgChanged: bool)
    requires StrictSsa(c, fn.Snapshot()) && SitesOk(c, fn.Snapshot()) && c.top <= max
    modifies fn
    ensures fn.order == old(fn.order) && RewrittenFunc(c, old(fn.Snapshot()), fn.Snapshot())
    ensures if changed then Weight(c, fn.order, fn.body) < old(Weight(c, fn.order, fn.body))
      else fn.Snapshot() == old(fn.Snapshot()) && NoConstantBranches(fn.Snapshot())
    ensures !changed ==> FuncSettled(fn.Snapshot())
    ensures cfgChanged ==> changed
    ensures !cfgChanged ==> forall b | b in fn.body :: Successors(fn.body[b]) == Successors(old(fn.body)[b])
  {
    hide StrictSsa, SitesOk, TableOk, Weight, Successors, NoConstantBranch, InRound, Partial, RewrittenFunc, Sited,
      Clear, BlockSettled, Caught, AllUnreplaced, FuncSettled;
    ghost var f := fn.Snapshot();
    SsaWellFormed(c, f);
    OrderIsDistinct(f);
    changed, cfgChanged := false, false;
    var table := new Option<Value>[max + 1](i => None);
    assert Entries(table) == map[] && Entries(table).Keys == {};
    EmptyTableOk(c, f);
    StartRound(c, f);
    StartClear(c, f);
    for j := 0 to |fn.order|
      invariant fn.order == f.order && InRound(c, f, fn.body, j, changed, cfgChanged)
      invariant TableOk(c, f, Entries(table)) && Sited(c, Entries(table).Keys, Listed(f.order, j), 0, 0)
      invariant !changed ==> Clear(f, j, Entries(table).Keys)
      modifies fn, table
    {
      var b := fn.order[j];
      InRoundBlock(c, f, fn.body, j, changed, cfgChanged);
      ghost var keys := Entries(table).Keys;
      NextBlock(c, f, keys, j);
      var r, ch, cfg := RewriteBlock(c, f, b, fn.body[b], table, Listed(f.order, j));
      BlockListed(c, f, Entries(table).Keys, j);
      if !changed && !ch { ClearStep(f, j, keys, Entries(table).Keys); }
      RoundStep(c, f, fn.body, j, changed, cfgChanged, r, ch, cfg);
      fn.body := fn.body[b := r];
      changed, cfgChanged := changed || ch, cfgChanged || cfg;
    }
    RoundDone(c, f, fn.Snapshot(), changed, cfgChanged);
    if !changed { AllBlocksClear(f, Entries(table).Keys); }
  }

  ghost function Listed(order: seq<nat>, j: nat): set<nat>
    requires j <= |order|
  {
    set i: nat | i < j :: order[i]
  }

  /** The first `j` blocks have nothing left to find, and what is spare in them has an entry. */
  ghost predicate Clear(f: Func, j: nat, keys: set<nat>) {
    && j <= |f.order|
    && (forall i | 0 <= i < j ::
      f.order[i] in f.body && BlockSettled(f.body[f.order[i]]) && Caught(f.body[f.order[i]], keys))
    && forall i, i' | 0 <= i < i' < j && f.order[i] in f.body && f.order[i'] in f.body ::
      Unread(f.body[f.order[i]], f.body[f.order[i']])
  }

  lemma StartClear(c: Cert, f: Func)
    ensures Clear(f, 0, {}) && Sited(c, {}, Listed(f.order, 0), 0, 0)
  {}

  lemma NextBlock(c: Cert, f: Func, keys: set<nat>, j: nat)
    requires j < |f.order| && Sited(c, keys, Listed(f.order, j), 0, 0)
    requires forall i, k | 0 <= i < |f.order| && 0 <= k < |f.order| && i != k :: f.order[i] != f.order[k]
    ensures f.order[j] !in Listed(f.order, j) && Sited(c, keys, Listed(f.order, j), f.order[j], 0)
  {}

  lemma BlockListed(c: Cert, f: Func, keys: set<nat>, j: nat)
    requires j < |f.order| && f.order[j] in f.body
    requires Sited(c, keys, Listed(f.order, j), f.order[j], |f.body[f.order[j]]|)
    ensures Sited(c, keys, Listed(f.order, j + 1), 0, 0)
  {
    assert f.order[j] in Listed(f.order, j + 1);
    assert forall b | b in Listed(f.order, j) :: b in Listed(f.order, j + 1);
  }

  lemma UnreadAfter(xs: seq<Inst>, ys: seq<Inst>, keys: set<nat>)
    requires Caught(xs, keys) && AllUnreplaced(ys, keys)
    ensures Unread(xs, ys)
  {
    hide Spare;
    forall k | 0 <= k < |xs| && Spare(xs, k)
      ensures xs[k].dest.Some? && forall l | 0 <= l < |ys| :: !Reads(ys, l, xs[k].dest.value)
    {
      forall l | 0 <= l < |ys| ensures !Reads(ys, l, xs[k].dest.value) { assert Unreplaced(ys[l], keys); }
    }
  }

  lemma ClearStep(f: Func, j: nat, keys: set<nat>, keys': set<nat>)
    requires j < |f.order| && Clear(f, j, keys) && keys <= keys' && f.order[j] in f.body
    requires BlockSettled(f.body[f.order[j]]) && AllUnreplaced(f.body[f.order[j]], keys)
    requires Caught(f.body[f.order[j]], keys')
    ensures Clear(f, j + 1, keys')
  {
    hide BlockSettled, Unread, AllUnreplaced, Spare;
    forall i | 0 <= i < j
      ensures Unread(f.body[f.order[i]], f.body[f.order[j]])
    {
      UnreadAfter(f.body[f.order[i]], f.body[f.order[j]], keys);
    }
  }

  lemma AllBlocksClear(f: Func, keys: set<nat>)
    requires Clear(f, |f.order|, keys)
    ensures FuncSettled(f)
  {
    hide BlockSettled, Unread, Caught;
  }

  ghost predicate NoConstantBranches(f: Func) { forall b | b in f.body :: NoConstantBranch(f.body[b]) }

  lemma OrderIsDistinct(f: Func)
    requires WellFormed(f)
    ensures forall i, j | 0 <= i < |f.order| && 0 <= j < |f.order| && i != j :: f.order[i] != f.order[j]
    ensures forall b :: b in f.order <==> b in f.body
  {
    assert forall b :: b in f.order <==> b in (set x | x in f.order);
  }

  lemma EmptyTableOk(c: Cert, f: Func)
    requires SitesOk(c, f)
    ensures TableOk(c, f, map[])
  {}

  lemma StartRound(c: Cert, f: Func)
    requires StrictSsa(c, f) && SitesOk(c, f)
    ensures InRound(c, f, f.body, 0, false, false)
  {
    hide SitesOk, Dominance, StrictSsa, Weight, Successors, NoConstantBranch, Partial, BlockOk;
    SsaWellFormed(c, f);
    forall i | 0 <= i < |f.order| ensures f.order[i] in f.body { assert f.order[i] in (set b | b in f.order); }
  }

  lemma WeightAfter(c: Cert, order: seq<nat>, body: map<nat, seq<Inst>>, b: nat, r: seq<Inst>)
    requires b in body && b in order
    ensures BlockWeight(c, r) < BlockWeight(c, body[b]) ==> Weight(c, order, body[b := r]) < Weight(c, order, body)
  {
    if BlockWeight(c, r) < BlockWeight(c, body[b]) {
      WeightDrops(c, order, body, body[b := r], b);
    }
  }

  /** Repeats rounds until nothing changes, then drops the blocks that folding cut off.  The loop ends,
      no branch on a constant remains, and every run, faulting ones included, is block for block the
      run of the original. */
  method PropagateConstants(fn: SirFunction, ghost cert: Cert)
    requires StrictSsa(cert, fn.Snapshot())
    modifies fn
    ensures WellFormed(fn.Snapshot()) && SameRuns(old(fn.Snapshot()), fn.Snapshot())
    ensures Lockstep(old(fn.Snapshot()), fn.Snapshot())
    ensures NoConstantBranches(fn.Snapshot()) && FuncSettled(fn.Snapshot()) && FromLow(fn.Snapshot(), cert.low)
    ensures Derives(old(fn.Snapshot()), fn.Snapshot()) && forall n: nat :: IsAssigned(fn.Snapshot(), n)
  {
    hide StrictSsa, SitesOk, WellFormed, Dominance, RewrittenFunc, Weight, NoConstantBranch, SameRuns, LiveOk, ReadsOk,
      Derives, IsAssigned, FuncSettled;
    ghost var f := fn.Snapshot();
    SsaParts(cert, f);
    var max := fn.MaxVreg();
    ghost var c := cert.(top := max);
    AllMentioned(f, max);
    TopMoves(cert, f, max);
    SameRunsReflexive(f);
    DerivesReflexive(f);
    var changed, cfgChanged := true, false;
    while changed
      invariant StrictSsa(c, fn.Snapshot()) && SameRuns(f, fn.Snapshot()) && Derives(f, fn.Snapshot())
      invariant !changed ==> NoConstantBranches(fn.Snapshot()) && FuncSettled(fn.Snapshot())
      decreases Weight(c, fn.order, fn.body), changed
    {
      ghost var before := fn.Snapshot();
      SsaParts(c, before);
      var cfg;
      changed, cfg := Round(fn, c, max);
      cfgChanged := cfgChanged || cfg;
      RewriteKeepsSsa(c, before, fn.Snapshot());
      RewritePreserves(c, before, fn.Snapshot());
      SameRunsTransitive(f, before, fn.Snapshot());
      RewritingDerives(c, before, fn.Snapshot());
      DerivesTransitive(f, before, fn.Snapshot());
    }
    SsaParts(c, fn.Snapshot());
    SsaFromLow(c, fn.Snapshot());
    forall n: nat ensures IsAssigned(fn.Snapshot(), n) { SsaIsAssigned(c, fn.Snapshot(), n); }
    if cfgChanged {
      ghost var before := fn.Snapshot();
      PruneDeadBlocks(fn);
      RestrictStaysSettled(before, Reachable(before));
      SameRunsTransitive(f, before, fn.Snapshot());
      DerivesTransitive(f, before, fn.Snapshot());
    }
    SameRunsLockstep(f, fn.Snapshot());
  }

  lemma SsaFromLow(c: Cert, f: Func)
    requires StrictSsa(c, f)
    ensures FromLow(f, c.low)
  {
    hide StrictSsa, WellFormed, Dominance, LiveOk, At;
    SsaParts(c, f);
    forall b, x | b in f.body && x in f.body[b]
      ensures RegsFrom(x, c.low)
    {
      var k :| 0 <= k < |f.body[b]| && f.body[b][k] == x;
      assert ReadsOk(c, f, b, k);
    }
  }

  lemma AllMentioned(f: Func, max: nat)
    requires InRange(f, max)
    ensures BoundedBy(f, max)
  {
    hide InRange;
    forall b, k | b in f.body && 0 <= k < |f.body[b]|
      ensures MentionsUpTo(f.body[b][k], max)
    {
      MentionedInRange(f, max, b, k);
    }
  }

  lemma MentionedInRange(f: Func, max: nat, b: nat, k: nat)
    requires InRange(f, max) && b in f.body && k < |f.body[b]|
    ensures forall v: nat | VReg(v) in f.body[b][k].ops :: v <= max
    ensures f.body[b][k].dest.Some? ==> f.body[b][k].dest.value <= max
  {
    var inst := f.body[b][k];
    assert InstInRange(inst, max);
    forall v: nat | VReg(v) in inst.ops ensures v <= max { assert MentionsReg(inst, v); }
    if inst.dest.Some? { assert MentionsReg(inst, inst.dest.value); }
  }
}
