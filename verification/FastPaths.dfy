/** Fast-path stripping: a function that starts by comparing its argument with a constant and returning
    it gets that test in front of its frame, and its entry goes straight to the slow path. */
module FastPaths {
  import opened Sir
  import opened SirFunctions
  import opened SirModules
  import opened Interpret
  import opened ModuleLift
  import opened ModulePass
  import opened Prune
  import L = Liveness

  /** The C cast to `int32_t`. */
  function Trunc32(x: int): (r: i64)
    ensures -0x8000_0000 <= r < 0x8000_0000 && (x - r) % 0x1_0000_0000 == 0
  {
    (x + 0x8000_0000) % 0x1_0000_0000 - 0x8000_0000
  }

  predicate Fits32(x: i64) { -0x8000_0000 <= x < 0x8000_0000 }

  /** The condition code for a comparison, or for its negation. */
  function JccFor(op: Opcode, positive: bool): Jcc
    requires op.IsCompare()
  {
    match op
    case IcmpEq => if positive then Je else Jne
    case IcmpNe => if positive then Jne else Je
    case IcmpLt => if positive then Jl else Jge
    case IcmpLe => if positive then Jle else Jg
    case IcmpGt => if positive then Jg else Jle
    case IcmpGe => if positive then Jge else Jl
  }

  /** The result of the comparison the entry block makes. */
  function Compare(op: Opcode, x: i64, y: i64): bool
    requires op.IsCompare()
  {
    Binary(op, x, y) == Some(1)
  }

  /** The compiled test decides as the comparison does for every argument exactly when the constant
      survives the cast to 32 bits. */
  lemma TestIsExact(op: Opcode, positive: bool, imm: i64)
    requires op.IsCompare()
    ensures (forall x: i64 ::
      Taken(JccFor(op, positive), x, Trunc32(imm)) <==> (Compare(op, x, imm) == positive)) <==> Fits32(imm)
  {
    hide Taken, JccFor, Compare;
    if Fits32(imm) {
      assert Trunc32(imm) == imm;
      forall x: i64 ensures Taken(JccFor(op, positive), x, Trunc32(imm)) <==> (Compare(op, x, imm) == positive) {
        TakenMeans(op, positive, x, imm);
      }
    } else {
      WideIsMisjudged(op, positive, imm, Trunc32(imm));
    }
  }

  /** Two different constants are told apart by some argument. */
  lemma WideIsMisjudged(op: Opcode, positive: bool, imm: i64, t: i64)
    requires op.IsCompare() && t != imm
    ensures exists x: i64 :: Taken(JccFor(op, positive), x, t) != (Compare(op, x, imm) == positive)
  {
    hide Taken, JccFor, Compare;
    var x := ToldApart(op, imm, t);
    TakenMeans(op, positive, x, t);
    assert Taken(JccFor(op, positive), x, t) != (Compare(op, x, imm) == positive);
  }

  lemma ToldApart(op: Opcode, imm: i64, t: i64) returns (x: i64)
    requires op.IsCompare() && t != imm
    ensures Compare(op, x, t) != Compare(op, x, imm)
  {
    hide Compare;
    var least := if t < imm then t else imm;
    x := if op.IcmpEq? || op.IcmpNe? then t else if op.IcmpLt? || op.IcmpGe? then least else least + 1;
    CompareMeans(op, x, t);
    CompareMeans(op, x, imm);
  }

  lemma TakenMeans(op: Opcode, positive: bool, x: i64, t: i64)
    requires op.IsCompare()
    ensures Taken(JccFor(op, positive), x, t) == (Compare(op, x, t) == positive)
  {
    hide Compare;
    CompareMeans(op, x, t);
  }

  lemma CompareMeans(op: Opcode, x: i64, y: i64)
    requires op.IsCompare()
    ensures Compare(op, x, y) ==
      if op.IcmpEq? then x == y else if op.IcmpNe? then x != y
      else if op.IcmpLt? then x < y else if op.IcmpLe? then x <= y
      else if op.IcmpGt? then x > y else x >= y
  {
    hide Wrap, BitOp, Pow2, TruncDiv;
  }

  // ---------------------------------------------------------------------------------------------
  // What the pass looks for

  /** The entry block fetches the argument into `p`, compares it with `imm` into `c`, and branches. */
  datatype Shape = Shape(p: nat, c: nat, op: Opcode, imm: i64, yes: nat, no: nat) {
    predicate Valid() { op.IsCompare() && p != c }
  }

  function EntryOf(s: Shape): seq<Inst> {
    [Inst(GetParam, Some(s.p), [ConstInt(0)]),
     Inst(s.op, Some(s.c), [VReg(s.p), ConstInt(s.imm)]),
     Inst(Br, None, [VReg(s.c), BlockRef(s.yes), BlockRef(s.no)])]
  }

  predicate ReturnsParam(insts: seq<Inst>, p: nat) { insts == [Inst(Ret, None, [VReg(p)])] }

  /** The source finds the shape; `positive` says which side returns the argument. */
  predicate HasFastPath(f: Func, s: Shape, positive: bool) {
    && s.Valid() && f.order != [] && f.order[0] in f.body && f.body[f.order[0]] == EntryOf(s)
    && s.yes in f.body && s.no in f.body
    && ReturnsParam(f.body[if positive then s.yes else s.no], s.p)
  }

  function Stripped(f: Func, s: Shape, positive: bool): Func
    requires f.order != []
  {
    f.(body := f.body[f.order[0] :=
      [Inst(GetParam, Some(s.p), [ConstInt(0)]), Inst(Jmp, None, [BlockRef(if positive then s.no else s.yes)])]])
  }

  /** The side that does not return the argument. */
  function SlowOf(s: Shape, positive: bool): nat { if positive then s.no else s.yes }

  /** No path from the slow side reads the comparison's result before writing it anew. */
  ghost predicate DeadAfterTest(f: Func, s: Shape, positive: bool) { !L.IsLiveIn(f, SlowOf(s, positive), s.c) }

  /** The truncated test decides as the branch does, or the branch makes no difference. */
  predicate TestSuffices(s: Shape) { Fits32(s.imm) || s.yes == s.no }

  /** Nothing but the branch reads the comparison's result. */
  ghost predicate FeedsOnlyBranch(f: Func, c: nat)
    requires f.order != []
  {
    forall b | b in f.body && b != f.order[0] :: forall k | 0 <= k < |f.body[b]| :: VReg(c) !in f.body[b][k].ops
  }

  /** Feeding only the branch is one way of being dead behind it. */
  lemma OnlyBranchIsDead(f: Func, s: Shape, positive: bool)
    requires HasFastPath(f, s, positive) && FeedsOnlyBranch(f, s.c)
    ensures DeadAfterTest(f, s, positive)
  {
    hide L.ReadsFirst, EntryOf;
    forall path: seq<nat>
      ensures !L.IsReadPath(f, path, s.c)
    {
      if path != [] && path[|path| - 1] in f.body {
        if path[|path| - 1] == f.order[0] { EntryWritesFirst(s); } else { NoReads(f, path[|path| - 1], s.c); }
      }
    }
  }

  lemma EntryWritesFirst(s: Shape)
    requires s.Valid()
    ensures !L.ReadsFirst(EntryOf(s), s.c)
  {
    var insts := EntryOf(s);
    assert insts[..2][1].dest == Some(s.c);
  }

  lemma NoReads(f: Func, b: nat, c: nat)
    requires f.order != [] && FeedsOnlyBranch(f, c) && b in f.body && b != f.order[0]
    ensures !L.ReadsFirst(f.body[b], c)
  {}

  // ---------------------------------------------------------------------------------------------
  // How the entry runs

  lemma ParamStep(m: Machine, p: nat, params: seq<i64>, regs: Regs, w: World)
    ensures Step(m, params, Inst(GetParam, Some(p), [ConstInt(0)]), regs, w) ==
      if params == [] then Finish(Fault) else Next(params[0], w)
  {
    var ops := [ConstInt(0)];
    assert EvalOperand(m, ops[0], regs) == Some(Int(0));
    assert EvalAll(m, ops, regs).value == [Int(0)];
  }

  lemma CompareStep(m: Machine, s: Shape, params: seq<i64>, regs: Regs, w: World)
    requires s.Valid() && s.p in regs
    ensures Step(m, params, EntryOf(s)[1], regs, w) == Next(if Compare(s.op, regs[s.p], s.imm) then 1 else 0, w)
  {
    hide Binary;
    CompareIsBinary(s.op, regs[s.p], s.imm);
    var ops := [VReg(s.p), ConstInt(s.imm)];
    assert EvalOperand(m, ops[0], regs) == Some(Int(regs[s.p])) && EvalOperand(m, ops[1], regs) == Some(Int(s.imm));
    assert EvalAll(m, ops, regs).value == [Int(regs[s.p]), Int(s.imm)];
  }

  lemma CompareIsBinary(op: Opcode, x: i64, y: i64)
    requires op.IsCompare()
    ensures Binary(op, x, y) == Some(if Compare(op, x, y) then 1 else 0)
  {
    hide Wrap, BitOp, Pow2, TruncDiv;
  }

  lemma BranchStep(m: Machine, s: Shape, params: seq<i64>, regs: Regs, w: World)
    requires s.c in regs
    ensures Step(m, params, EntryOf(s)[2], regs, w) == Jump(if regs[s.c] != 0 then s.yes else s.no)
  {
    var ops := [VReg(s.c), BlockRef(s.yes), BlockRef(s.no)];
    assert EvalOperand(m, ops[0], regs) == Some(Int(regs[s.c]));
    assert EvalOperand(m, ops[1], regs) == Some(Blk(s.yes)) && EvalOperand(m, ops[2], regs) == Some(Blk(s.no));
    assert EvalAll(m, ops, regs).value == [Int(regs[s.c]), Blk(s.yes), Blk(s.no)];
  }

  lemma JumpStep(m: Machine, b: nat, params: seq<i64>, regs: Regs, w: World)
    ensures Step(m, params, Inst(Jmp, None, [BlockRef(b)]), regs, w) == Jump(b)
  {
    var ops := [BlockRef(b)];
    assert EvalOperand(m, ops[0], regs) == Some(Blk(b));
    assert EvalAll(m, ops, regs).value == [Blk(b)];
  }

  lemma EntryRuns(m: Machine, s: Shape, params: seq<i64>, regs: Regs, w: World)
    requires s.Valid()
    ensures RunBlock(m, params, EntryOf(s), regs, w)
      == if params == [] then End(Fault)
         else var v: i64 := if Compare(s.op, params[0], s.imm) then 1 else 0;
           Goto(if v == 1 then s.yes else s.no, regs[s.p := params[0]][s.c := v], w)
  {
    hide Step, Compare;
    var insts := EntryOf(s);
    ParamStep(m, s.p, params, regs, w);
    if params != [] {
      var v: i64 := if Compare(s.op, params[0], s.imm) then 1 else 0;
      var regs1 := regs[s.p := params[0]];
      var regs2 := regs1[s.c := v];
      CompareStep(m, s, params, regs1, w);
      BranchStep(m, s, params, regs2, w);
      assert insts[1..][1..][0] == insts[2];
      assert RunBlock(m, params, insts[1..][1..], regs2, w) == Goto(if v == 1 then s.yes else s.no, regs2, w);
      assert RunBlock(m, params, insts[1..], regs1, w) == RunBlock(m, params, insts[1..][1..], regs2, w);
    }
  }

  lemma StrippedEntryRuns(m: Machine, p: nat, slow: nat, params: seq<i64>, regs: Regs, w: World)
    ensures RunBlock(m, params, [Inst(GetParam, Some(p), [ConstInt(0)]), Inst(Jmp, None, [BlockRef(slow)])], regs, w)
      == if params == [] then End(Fault) else Goto(slow, regs[p := params[0]], w)
  {
    hide Step;
    var insts := [Inst(GetParam, Some(p), [ConstInt(0)]), Inst(Jmp, None, [BlockRef(slow)])];
    ParamStep(m, p, params, regs, w);
    if params != [] {
      JumpStep(m, slow, params, regs[p := params[0]], w);
      assert insts[1..] == [insts[1]];
    }
  }

  lemma ReturnRuns(m: Machine, p: nat, params: seq<i64>, regs: Regs, w: World)
    requires p in regs
    ensures RunBlock(m, params, [Inst(Ret, None, [VReg(p)])], regs, w) == End(Returned(regs[p], w))
  {
    var ops := [VReg(p)];
    assert EvalOperand(m, ops[0], regs) == Some(Int(regs[p]));
    assert EvalAll(m, ops, regs).value == [Int(regs[p])];
  }

  // ---------------------------------------------------------------------------------------------
  // Runs that take the slow path

  lemma ReadsFirstHead(insts: seq<Inst>, c: nat)
    requires insts != []
    ensures VReg(c) in insts[0].ops ==> L.ReadsFirst(insts, c)
    ensures insts[0].dest != Some(c) ==> (L.Writes(insts, c) <==> L.Writes(insts[1..], c))
    ensures insts[0].dest != Some(c) && L.ReadsFirst(insts[1..], c) ==> L.ReadsFirst(insts, c)
  {
    var t := insts[1..];
    if VReg(c) in insts[0].ops { assert !L.Writes(insts[..0], c); }
    if L.Writes(t, c) {
      var i :| 0 <= i < |t| && t[i].dest == Some(c);
      assert insts[i + 1].dest == Some(c);
    }
    if insts[0].dest != Some(c) && L.ReadsFirst(t, c) {
      var i :| 0 <= i < |t| && VReg(c) in t[i].ops && !L.Writes(t[..i], c);
      assert forall j | 0 <= j < i :: insts[..i + 1][j + 1] == t[..i][j];
      assert insts[i + 1] == t[i] && !L.Writes(insts[..i + 1], c);
    }
  }

  /** A block that does not need `c` runs alike without it, and a write of `c` settles the difference. */
  lemma {:induction false} BlockSettles(m1: Machine, m2: Machine, params: seq<i64>, insts: seq<Inst>, c: nat,
        regs: Regs, regs': Regs, w: World)
    requires Below(m1, m2) && AgreeExcept({c}, regs, regs') && !L.ReadsFirst(insts, c) && BlockOk(insts)
    ensures var r, r' := RunBlock(m1, params, insts, regs, w), RunBlock(m2, params, insts, regs', w);
      ResultShared(r, r', {c}) && (r.Goto? && L.Writes(insts, c) ==> AgreeExcept({}, r.regs, r'.regs))
  {
    hide Step, Below, L.Writes, L.ReadsFirst, BlockOk;
    if insts != [] {
      ReadsFirstHead(insts, c);
      TailOk(insts);
      StepShared(m1, m2, params, insts[0], {c}, regs, regs', w);
      match Step(m1, params, insts[0], regs, w)
      case Next(v, w') =>
        var next, next' := Write(regs, insts[0].dest, v), Write(regs', insts[0].dest, v);
        if insts[0].dest == Some(c) {
          NothingOdd(insts[1..]);
          BlockShared(m1, m2, params, insts[1..], {}, next, next', w');
        } else {
          BlockSettles(m1, m2, params, insts[1..], c, next, next', w');
        }
      case Jump(_) =>
        JumpIsTarget(m1, params, insts[0], regs, w);
        LastWritesNothing(insts, c);
      case Finish(_) =>
    }
  }

  lemma NothingOdd(insts: seq<Inst>)
    ensures forall k | 0 <= k < |insts| :: NeverReads(insts[k], {})
  {}

  lemma TailOk(insts: seq<Inst>)
    requires BlockOk(insts) && insts != []
    ensures BlockOk(insts[1..])
  {}

  lemma LastWritesNothing(insts: seq<Inst>, c: nat)
    requires BlockOk(insts) && insts != [] && insts[0].op.IsTerminator()
    ensures !L.Writes(insts, c)
  {}

  /** Register files of both versions at block `b`: they differ at most in `c`, and only where it is dead. */
  ghost predicate Harmless(f: Func, c: nat, b: nat, regs: Regs, regs': Regs)
    requires f.order != []
  {
    AgreeExcept({c}, regs, regs') && (b == f.order[0] || !L.IsLiveIn(f, b, c) || AgreeExcept({}, regs, regs'))
  }

  /** Where `c` is dead no block reads it first, and it stays dead until it is written. */
  lemma StaysDead(f: Func, c: nat, b: nat)
    requires b in f.body
    ensures L.ReadsFirst(f.body[b], c) ==> L.IsLiveIn(f, b, c)
    ensures forall x | x in Successors(f.body[b]) && !L.Writes(f.body[b], c) && L.IsLiveIn(f, x, c) ::
      L.IsLiveIn(f, b, c)
  {
    hide L.ReadsFirst, L.Writes;
    if L.ReadsFirst(f.body[b], c) { assert L.IsReadPath(f, [b], c); }
    forall x | x in Successors(f.body[b]) && !L.Writes(f.body[b], c) && L.IsLiveIn(f, x, c)
      ensures L.IsLiveIn(f, b, c)
    {
      var path :| L.IsReadPath(f, path, c) && path[0] == x;
      assert L.IsReadPath(f, [b] + path, c);
    }
  }

  /** One block other than the entry, run on both machines. */
  lemma HarmlessBlock(m1: Machine, m2: Machine, f: Func, c: nat, params: seq<i64>, b: nat, regs: Regs, regs': Regs,
        w: World)
    requires WellFormed(f) && f.order != [] && b in f.body && b != f.order[0] && Harmless(f, c, b, regs, regs')
    requires Below(m1, m2)
    ensures var r, r' := RunBlock(m1, params, f.body[b], regs, w), RunBlock(m2, params, f.body[b], regs', w);
      ResultShared(r, r', {c}) && (r.Goto? ==> r.id in f.body && Harmless(f, c, r.id, r.regs, r'.regs))
  {
    hide Below, RunBlock, L.IsLiveIn, L.ReadsFirst, L.Writes, Successors, BlockOk, AgreeExcept;
    var insts := f.body[b];
    BlocksInside(f, b);
    if AgreeExcept({}, regs, regs') {
      NothingOdd(insts);
      BlockShared(m1, m2, params, insts, {}, regs, regs', w);
      NearlyAgree(c);
    } else {
      StaysDead(f, c, b);
      BlockSettles(m1, m2, params, insts, c, regs, regs', w);
    }
    var r := RunBlock(m1, params, insts, regs, w);
    if r.Goto? { GotoIsSuccessor(m1, params, insts, regs, w); }
  }

  lemma NearlyAgree(c: nat)
    ensures forall regs: Regs, regs': Regs | AgreeExcept({}, regs, regs') :: AgreeExcept({c}, regs, regs')
  {}

  lemma BlocksInside(f: Func, b: nat)
    requires WellFormed(f) && b in f.body
    ensures BlockOk(f.body[b]) && Successors(f.body[b]) <= f.body.Keys
  {}

  /** Block by block, the slow path runs alike in both versions, even if it comes back to the entry. */
  lemma {:induction false} SlowRuns(m1: Machine, m2: Machine, f: Func, s: Shape, positive: bool, params: seq<i64>,
        b: nat, regs: Regs, regs': Regs, w: World, n: nat, k: nat)
    requires WellFormed(f) && HasFastPath(f, s, positive) && DeadAfterTest(f, s, positive)
    requires params != [] && Compare(s.op, params[0], s.imm) != positive
    requires Below(m1, m2) && b in f.body && Harmless(f, s.c, b, regs, regs') && n <= k
    ensures Run(m1, f, params, b, regs, w, n) == OutOfFuel
      || Run(m2, Stripped(f, s, positive), params, b, regs', w, k) == Run(m1, f, params, b, regs, w, n)
    decreases n
  {
    hide Below, RunBlock, Compare, WellFormed, L.IsLiveIn;
    if n > 0 {
      if b == f.order[0] {
        var slow := SlowOf(s, positive);
        EntryRuns(m1, s, params, regs, w);
        StrippedEntryRuns(m2, s.p, slow, params, regs', w);
        SlowRuns(m1, m2, f, s, positive, params, slow,
          regs[s.p := params[0]][s.c := if positive then 0 else 1], regs'[s.p := params[0]], w, n - 1, k - 1);
      } else {
        HarmlessBlock(m1, m2, f, s.c, params, b, regs, regs', w);
        var r, r' := RunBlock(m1, params, f.body[b], regs, w), RunBlock(m2, params, f.body[b], regs', w);
        if r.Goto? { SlowRuns(m1, m2, f, s, positive, params, r.id, r.regs, r'.regs, r.w, n - 1, k - 1); }
      }
    }
  }

  /** The same with the stripped version leading. */
  lemma {:induction false} SlowRunsBack(m1: Machine, m2: Machine, f: Func, s: Shape, positive: bool, params: seq<i64>,
        b: nat, regs: Regs, regs': Regs, w: World, n: nat, k: nat)
    requires WellFormed(f) && HasFastPath(f, s, positive) && DeadAfterTest(f, s, positive)
    requires params != [] && Compare(s.op, params[0], s.imm) != positive
    requires Below(m1, m2) && b in f.body && Harmless(f, s.c, b, regs, regs') && n <= k
    ensures Run(m1, Stripped(f, s, positive), params, b, regs, w, n) == OutOfFuel
      || Run(m2, f, params, b, regs', w, k) == Run(m1, Stripped(f, s, positive), params, b, regs, w, n)
    decreases n
  {
    hide Below, RunBlock, Compare, WellFormed, L.IsLiveIn;
    if n > 0 {
      if b == f.order[0] {
        var slow := SlowOf(s, positive);
        EntryRuns(m2, s, params, regs', w);
        StrippedEntryRuns(m1, s.p, slow, params, regs, w);
        SlowRunsBack(m1, m2, f, s, positive, params, slow,
          regs[s.p := params[0]], regs'[s.p := params[0]][s.c := if positive then 0 else 1], w, n - 1, k - 1);
      } else {
        HarmlessBlock(m1, m2, f, s.c, params, b, regs, regs', w);
        var r, r' := RunBlock(m1, params, f.body[b], regs, w), RunBlock(m2, params, f.body[b], regs', w);
        if r.Goto? { SlowRunsBack(m1, m2, f, s, positive, params, r.id, r.regs, r'.regs, r.w, n - 1, k - 1); }
      }
    }
  }

  /** A whole run of the original function. */
  lemma OriginalRun(m: Machine, f: Func, s: Shape, positive: bool, params: seq<i64>, w: World, n: nat)
    requires HasFastPath(f, s, positive)
    requires params == [] || Compare(s.op, params[0], s.imm) == positive || s.yes == s.no
    ensures RunFunc(m, f, params, w, n) ==
      if n == 0 then OutOfFuel else if params == [] then Fault else if n == 1 then OutOfFuel else Returned(params[0], w)
  {
    hide RunBlock, Compare;
    EntryRuns(m, s, params, map[], w);
    if params != [] {
      var v: i64 := if Compare(s.op, params[0], s.imm) then 1 else 0;
      var regs: Regs := map[][s.p := params[0]][s.c := v];
      ReturnRuns(m, s.p, params, regs, w);
      var b := if v == 1 then s.yes else s.no;
      if n > 1 { assert RunFunc(m, f, params, w, n) == Run(m, f, params, b, regs, w, n - 1); }
    }
  }

  /** With both sides the same block the stripped function, too, returns its argument. */
  lemma SameSidesRun(m: Machine, f: Func, s: Shape, positive: bool, params: seq<i64>, w: World, n: nat)
    requires HasFastPath(f, s, positive) && s.yes == s.no
    ensures RunFunc(m, Stripped(f, s, positive), params, w, n) ==
      if n == 0 then OutOfFuel else if params == [] then Fault else if n == 1 then OutOfFuel else Returned(params[0], w)
  {
    hide RunBlock;
    var g := Stripped(f, s, positive);
    StrippedEntryRuns(m, s.p, SlowOf(s, positive), params, map[], w);
    if params != [] {
      var regs: Regs := map[][s.p := params[0]];
      ReturnRuns(m, s.p, params, regs, w);
      NotTheEntry(f, s, positive);
      if n > 1 { assert RunFunc(m, g, params, w, n) == Run(m, g, params, s.yes, regs, w, n - 1); }
    }
  }

  lemma NotTheEntry(f: Func, s: Shape, positive: bool)
    requires HasFastPath(f, s, positive)
    ensures (if positive then s.yes else s.no) != f.order[0]
  {
    assert |EntryOf(s)| == 3;
  }

  /** `mod'` is `mod` with the fast path of function `i` stripped, as the source does it. */
  ghost predicate Strips(mod: Module, i: nat, s: Shape, positive: bool, mod': Module) {
    && i < |mod| && mod[i].fast.None? && WellFormed(mod[i].code) && HasFastPath(mod[i].code, s, positive)
    && mod' == mod[i := Decl(mod[i].name, Stripped(mod[i].code, s, positive),
      Some(FastPath(Trunc32(s.imm), JccFor(s.op, positive))))]
  }

  lemma TestAgrees(s: Shape, positive: bool, x: i64)
    requires s.Valid() && Fits32(s.imm)
    ensures Taken(JccFor(s.op, positive), x, Trunc32(s.imm)) <==> Compare(s.op, x, s.imm) == positive
  {
    TestIsExact(s.op, positive, s.imm);
  }

  lemma StrippedFollows(m: Machine, mod: Module, i: nat, s: Shape, positive: bool, mod': Module)
    requires Strips(mod, i, s, positive, mod') && TestSuffices(s) && DeadAfterTest(mod[i].code, s, positive)
    ensures Carries(m, mod, mod', 0)
  {
    hide WellFormed, Within, Below, RunFunc, Run, Stripped, Compare, DeadAfterTest, Taken;
    forall n: nat, j: nat, params: seq<i64>, w: World | j < |mod| && Below(Within(m, mod, n), Within(m, mod', n))
      ensures Invoke(m, mod, mod[j], params, w, n) == OutOfFuel ||
        Invoke(m, mod', mod'[j], params, w, n) == Invoke(m, mod, mod[j], params, w, n)
    {
      var m1, m2 := Within(m, mod, n), Within(m, mod', n);
      if j != i {
        EnterBelow(m1, m2, mod[j], params, w, n, n);
      } else {
        if params != [] && Fits32(s.imm) { TestAgrees(s, positive, params[0]); }
        if params == [] || Compare(s.op, params[0], s.imm) == positive || s.yes == s.no {
          OriginalRun(m1, mod[i].code, s, positive, params, w, n);
          if s.yes == s.no { SameSidesRun(m2, mod[i].code, s, positive, params, w, n); }
        } else {
          SlowFromEntry(m1, m2, mod[i].code, s, positive, params, w, n, n);
        }
      }
    }
  }

  lemma SlowFromEntry(m1: Machine, m2: Machine, f: Func, s: Shape, positive: bool, params: seq<i64>, w: World, n: nat,
        k: nat)
    requires WellFormed(f) && HasFastPath(f, s, positive) && DeadAfterTest(f, s, positive) && n <= k && Below(m1, m2)
    requires params != [] && Compare(s.op, params[0], s.imm) != positive
    ensures var g := Stripped(f, s, positive);
      && (RunFunc(m1, f, params, w, n) == OutOfFuel || RunFunc(m2, g, params, w, k) == RunFunc(m1, f, params, w, n))
      && (RunFunc(m1, g, params, w, n) == OutOfFuel || RunFunc(m2, f, params, w, k) == RunFunc(m1, g, params, w, n))
  {
    hide Below, Compare, WellFormed, Run;
    SlowRuns(m1, m2, f, s, positive, params, f.order[0], map[], map[], w, n, k);
    SlowRunsBack(m1, m2, f, s, positive, params, f.order[0], map[], map[], w, n, k);
  }

  lemma OriginalFollows(m: Machine, mod: Module, i: nat, s: Shape, positive: bool, mod': Module)
    requires Strips(mod, i, s, positive, mod') && TestSuffices(s) && DeadAfterTest(mod[i].code, s, positive)
    ensures Carries(m, mod', mod, 2)
  {
    hide WellFormed, Within, Below, RunFunc, Run, Stripped, Compare, DeadAfterTest, Taken;
    forall n: nat, j: nat, params: seq<i64>, w: World | j < |mod| && Below(Within(m, mod', n), Within(m, mod, n + 2))
      ensures Invoke(m, mod', mod'[j], params, w, n) == OutOfFuel ||
        Invoke(m, mod, mod[j], params, w, n + 2) == Invoke(m, mod', mod'[j], params, w, n)
    {
      var m1, m2 := Within(m, mod', n), Within(m, mod, n + 2);
      if j != i {
        EnterBelow(m1, m2, mod[j], params, w, n, n + 2);
      } else {
        if params != [] && Fits32(s.imm) { TestAgrees(s, positive, params[0]); }
        if params == [] || Compare(s.op, params[0], s.imm) == positive || s.yes == s.no {
          OriginalRun(m2, mod[i].code, s, positive, params, w, n + 2);
          if s.yes == s.no { SameSidesRun(m1, mod[i].code, s, positive, params, w, n); }
        } else {
          SlowFromEntry(m1, m2, mod[i].code, s, positive, params, w, n, n + 2);
        }
      }
    }
  }

  /** Stripping keeps every call at every depth when the test suffices and the comparison is dead
      behind the branch. */
  lemma StrippingKeepsCalls(mod: Module, i: nat, s: Shape, positive: bool, mod': Module)
    requires Strips(mod, i, s, positive, mod') && TestSuffices(s) && DeadAfterTest(mod[i].code, s, positive)
    ensures SameCalls(mod, mod')
  {
    hide Carries, SameCalls, WellFormed, Stripped, DeadAfterTest, HasFastPath;
    forall m: Machine
      ensures Carries(m, mod, mod', 0) && Carries(m, mod', mod, 2)
    {
      StrippedFollows(m, mod, i, s, positive, mod');
      OriginalFollows(m, mod, i, s, positive, mod');
    }
    BothWays(mod, mod', 0, 2);
  }

  // ---------------------------------------------------------------------------------------------
  // The pass

  /** Registers are created fresh, so the instructions of a block write different ones. */
  predicate DestsDiffer(insts: seq<Inst>) {
    forall i, j | 0 <= i < j < |insts| && insts[i].dest.Some? :: insts[i].dest != insts[j].dest
  }

  /** Reads the shape off the entry block, if it has it. */
  function ShapeOf(entry: seq<Inst>): (r: Option<Shape>)
    requires BlockOk(entry) && DestsDiffer(entry) && forall k | 0 <= k < |entry| :: OperandsOk(entry[k])
    ensures r.Some? ==> r.value.Valid() && entry == EntryOf(r.value)
    ensures forall s: Shape :: s.Valid() && entry == EntryOf(s) ==> r == Some(s)
  {
    if |entry| < 3 then None
    else
      var i1, i2, i3 := entry[0], entry[1], entry[2];
      assert OperandsOk(i1);
      if i1.op.GetParam? && i1.ops[0].i == 0
         && i2.op.IsCompare() && i2.ops[0] == VReg(i1.dest.value) && i2.ops[1].ConstInt?
         && i3.op.Br? && i3.ops[0] == VReg(i2.dest.value) then
        var s := Shape(i1.dest.value, i2.dest.value, i2.op, i2.ops[1].i, i3.ops[1].id, i3.ops[2].id);
        EntryIs(entry, s);
        Some(s)
      else None
  }

  lemma EntryIs(entry: seq<Inst>, s: Shape)
    requires BlockOk(entry) && |entry| >= 3 && OperandsOk(entry[0])
    requires entry[0].op.GetParam? && entry[0].ops[0] == ConstInt(0) && entry[0].dest == Some(s.p)
    requires entry[1].op == s.op && s.op.IsCompare() && entry[1].ops[0] == VReg(s.p)
    requires entry[1].ops[1] == ConstInt(s.imm) && entry[1].dest == Some(s.c)
    requires entry[2].op.Br? && entry[2].ops[0] == VReg(s.c) && entry[2].ops[1] == BlockRef(s.yes)
    requires entry[2].ops[2] == BlockRef(s.no)
    ensures entry == EntryOf(s)
  {
    assert |entry| == 3;
    assert entry[0] == EntryOf(s)[0] by { assert entry[0].ops == [ConstInt(0)]; }
    assert entry[1] == EntryOf(s)[1] by { assert entry[1].ops == [VReg(s.p), ConstInt(s.imm)]; }
    assert entry[2] == EntryOf(s)[2] by { assert entry[2].ops == [VReg(s.c), BlockRef(s.yes), BlockRef(s.no)]; }
  }

  /** `found` and `positive` are what the source decides. */
  ghost predicate Decides(f: Func, r: Option<(Shape, bool)>) {
    match r
    case Some(x) => HasFastPath(f, x.0, x.1) && (!x.1 ==> !HasFastPath(f, x.0, true))
    case None => forall s, positive :: !HasFastPath(f, s, positive)
  }

  method FindFastPath(f: Func) returns (r: Option<(Shape, bool)>)
    requires CodeOk(f) && DestsDiffer(f.body[EntryId(f)])
    ensures Decides(f, r)
  {
    hide OperandsOk, BlockOk, DestsDiffer, Successors, EntryOf;
    EntryInside(f);
    var entry := f.body[f.order[0]];
    var shape := ShapeOf(entry);
    r := None;
    if shape.Some? {
      var s := shape.value;
      TargetsInside(f, s);
      ReturnTest(f, s.yes, s.p);
      ReturnTest(f, s.no, s.p);
      if f.body[s.yes] != [] && |f.body[s.yes]| == 1 && f.body[s.yes][0].op.Ret? &&
        f.body[s.yes][0].ops == [VReg(s.p)] {
        r := Some((s, true));
      } else if f.body[s.no] != [] && |f.body[s.no]| == 1 && f.body[s.no][0].op.Ret? &&
        f.body[s.no][0].ops == [VReg(s.p)] {
        r := Some((s, false));
      }
    }
  }

  function EntryId(f: Func): nat
    requires WellFormed(f)
    ensures EntryId(f) in f.body
  {
    EntryInside(f);
    f.order[0]
  }

  lemma EntryInside(f: Func)
    requires WellFormed(f)
    ensures f.order != [] && f.order[0] in f.body
  {
    assert f.order[0] in (set b | b in f.order);
  }

  lemma TargetsInside(f: Func, s: Shape)
    requires WellFormed(f) && f.order[0] in f.body && f.body[f.order[0]] == EntryOf(s)
    ensures s.yes in f.body && s.no in f.body
  {
    var i := EntryOf(s)[2];
    assert i.ops[1].id in Successors(EntryOf(s)) && i.ops[2].id in Successors(EntryOf(s));
  }

  lemma ReturnTest(f: Func, b: nat, p: nat)
    requires WellFormed(f) && b in f.body
    ensures ReturnsParam(f.body[b], p) <==> |f.body[b]| == 1 && f.body[b][0].op.Ret? && f.body[b][0].ops == [VReg(p)]
  {}

  /** Strips function `i` and drops the blocks that die with it.  Nothing in the source checks the two
      conditions under which every call keeps its outcomes. */
  method StripFastPath(md: SirModule, i: nat) returns (r: Option<(Shape, bool)>)
    requires ModuleOk(md.funcs) && i < |md.funcs| && md.funcs[i].fast.None?
    requires DestsDiffer(md.funcs[i].code.body[EntryId(md.funcs[i].code)])
    modifies md
    ensures ModuleOk(md.funcs) && SameNames(old(md.funcs), md.funcs)
    ensures Decides(old(md.funcs[i].code), r)
    ensures r.None? ==> md.funcs == old(md.funcs)
    ensures r.Some? ==> StrippedAndPruned(old(md.funcs), i, r.value.0, r.value.1, md.funcs)
    ensures r.Some? && TestSuffices(r.value.0) && DeadAfterTest(old(md.funcs[i].code), r.value.0, r.value.1) ==>
      SameCalls(old(md.funcs), md.funcs)
  {
    hide ModuleOk, CodeOk, HasFastPath, Stripped, SameCalls, Restrict, Reaches, DeadAfterTest, WellFormed, EntryId,
      TestSuffices, DestsDiffer;
    ghost var mod := md.funcs;
    FunctionOk(mod, i);
    var d := md.funcs[i];
    HasEntry(d.code);
    r := FindFastPath(d.code);
    if r.Some? {
      var s, positive := r.value.0, r.value.1;
      var code := Stripped(d.code, s, positive);
      StrippedIsOk(d.code, s, positive);
      HasEntry(code);
      FastPathCompares(d.code, s, positive);
      var fn := new SirFunction(code);
      PruneDeadBlocks(fn);
      var pruned := Func(fn.order, fn.body);
      RestrictKeepsOk(code, Reachable(code));
      var d' := Decl(d.name, pruned, Some(FastPath(Trunc32(s.imm), JccFor(s.op, positive))));
      md.funcs := md.funcs[i := d'];
      StripAndPrune(mod, i, s, positive, md.funcs);
    }
  }

  lemma HasEntry(f: Func)
    requires CodeOk(f)
    ensures WellFormed(f) && f.order != [] && EntryId(f) in f.body
  {
    hide BlockOk, OperandsOk, Successors;
    assert f.order[0] in (set b | b in f.order);
  }

  lemma FastPathCompares(f: Func, s: Shape, positive: bool)
    requires HasFastPath(f, s, positive)
    ensures s.op.IsCompare()
  {}

  /** The stripped module with the unreachable blocks of function `i` gone. */
  ghost predicate StrippedAndPruned(mod: Module, i: nat, s: Shape, positive: bool, mod': Module) {
    && i < |mod| && mod[i].code.order != [] && s.op.IsCompare()
    && var g := Stripped(mod[i].code, s, positive);
       mod' == mod[i := Decl(mod[i].name, Restrict(g, Reachable(g)),
         Some(FastPath(Trunc32(s.imm), JccFor(s.op, positive))))]
  }

  lemma StrippedIsOk(f: Func, s: Shape, positive: bool)
    requires CodeOk(f) && HasFastPath(f, s, positive)
    ensures CodeOk(Stripped(f, s, positive))
  {
    hide BlockOk, OperandsOk, Successors;
    var g := Stripped(f, s, positive);
    var slow := if positive then s.no else s.yes;
    NewEntryOk(s.p, slow);
    assert g.body.Keys == f.body.Keys;
    forall b | b in g.body
      ensures BlockOk(g.body[b]) && Successors(g.body[b]) <= g.body.Keys
      ensures forall k | 0 <= k < |g.body[b]| :: OperandsOk(g.body[b][k])
    {
      if b != f.order[0] { assert g.body[b] == f.body[b]; }
    }
  }

  lemma NewEntryOk(p: nat, slow: nat)
    ensures var e := [Inst(GetParam, Some(p), [ConstInt(0)]), Inst(Jmp, None, [BlockRef(slow)])];
      BlockOk(e) && Successors(e) <= {slow} && forall k | 0 <= k < |e| :: OperandsOk(e[k])
  {}

  lemma StripAndPrune(mod: Module, i: nat, s: Shape, positive: bool, mod': Module)
    requires ModuleOk(mod) && i < |mod| && mod[i].fast.None? && HasFastPath(mod[i].code, s, positive)
    requires WellFormed(mod[i].code)
    requires StrippedAndPruned(mod, i, s, positive, mod')
    requires var g := Stripped(mod[i].code, s, positive);
      CodeOk(Restrict(g, Reachable(g))) && SameRuns(g, Restrict(g, Reachable(g)))
    ensures ModuleOk(mod') && SameNames(mod, mod')
    ensures TestSuffices(s) && DeadAfterTest(mod[i].code, s, positive) ==> SameCalls(mod, mod')
  {
    hide CodeOk, HasFastPath, Stripped, SameCalls, Restrict, Reaches, DeadAfterTest, SameRuns, WellFormed, ModuleOk,
      SameNames;
    var g := Stripped(mod[i].code, s, positive);
    var mid := mod[i := Decl(mod[i].name, g, Some(FastPath(Trunc32(s.imm), JccFor(s.op, positive))))];
    assert mod' == mid[i := mid[i].(code := Restrict(g, Reachable(g)))];
    if TestSuffices(s) && DeadAfterTest(mod[i].code, s, positive) {
      ReplaceSameCode(mid, i, Restrict(g, Reachable(g)));
      StrippingKeepsCalls(mod, i, s, positive, mid);
      SameCallsTransitive(mod, mid, mod');
    }
    ReplaceDeclOk(mod, i, mod'[i]);
  }

  lemma ReplaceDeclOk(mod: Module, i: nat, d: Decl)
    requires ModuleOk(mod) && i < |mod| && d.name == mod[i].name && CodeOk(d.code)
    ensures ModuleOk(mod[i := d]) && SameNames(mod, mod[i := d])
  {
    hide CodeOk;
    forall x | x in mod[i := d]
      ensures CodeOk(x.code)
    {
      var j :| 0 <= j < |mod| && mod[i := d][j] == x;
      if j != i { assert mod[j] in mod; }
    }
  }
}
