/** Short-circuit conjunction and disjunction: the result goes through a frame cell of its own. */
module ShortCircuit {
  import opened Sir
  import opened Builder
  import opened Frames
  import opened BuildOps
  import opened Expressions
  import S = Source

  // ---------------------------------------------------------------------------------------------
  // The states on the way

  /** The two new blocks are there. */
  function Opened(s: State): State { NewBlock(NewBlock(s)) }

  /** The left value `v` is in its cell and the block has branched. */
  function Branched(s: State, v: Value, isAnd: bool, rb: nat, mb: nat): State
    requires s.cur in s.body
  {
    var s1 := Emit(EmitValue(s, Alloca, [ConstInt(1)]), StoreInst(v, s.nextVreg));
    Emit(s1, if isAnd then BranchInst(v, rb, mb) else BranchInst(v, mb, rb))
  }

  /** The right value is in the cell and the block has joined. */
  function Joined(s: State, v: Value, p: nat, mb: nat): State
    requires s.cur in s.body
  {
    Emit(Emit(s, StoreInst(v, p)), JumpInst(mb))
  }

  /** The whole construction. */
  ghost predicate LogicBuilt(s: State, isAnd: bool, l: S.Expr, r: S.Expr, s2: State, vl: Value, s7: State, vr: Value,
        s11: State, v: Value) {
    var rb, mb, p := s.nextBlock, s.nextBlock + 1, s2.nextVreg;
    && Ok(s) && Evaluates(Opened(s), l, s2, vl)
    && s2.cur in s2.body && rb in Branched(s2, vl, isAnd, rb, mb).body
    && Evaluates(MoveTo(Branched(s2, vl, isAnd, rb, mb), rb), r, s7, vr)
    && s7.cur in s7.body && mb in Joined(s7, vr, p, mb).body
    && LoadBuilt(MoveTo(Joined(s7, vr, p, mb), mb), p, s11, v)
  }

  // ---------------------------------------------------------------------------------------------
  // Soundness of the states

  lemma NewBlockOk(s: State)
    requires Ok(s)
    ensures Ok(NewBlock(s)) && Grows(s, NewBlock(s)) && NewBlock(s).body[s.nextBlock] == []
    ensures forall b | b in s.body :: b in NewBlock(s).body && NewBlock(s).body[b] == s.body[b]
    ensures s.cur in s.body && s.cur < s.nextBlock
  {
    hide CellsDiffer, BindingBelow;
    var n := NewBlock(s);
    forall b | b in n.body
      ensures b < n.nextBlock && BlockBelow(n.body[b], n.nextVreg)
    {
      if b != s.nextBlock { assert n.body[b] == s.body[b]; }
    }
  }

  lemma MoveOk(s: State, b: nat)
    requires Ok(s) && b in s.body
    ensures Ok(MoveTo(s, b)) && Grows(s, MoveTo(s, b))
  {
    hide CellsDiffer, BindingBelow, BlockBelow;
  }

  /** Blocks other than the current one are as they were. */
  ghost predicate OthersKept(s: State, s': State)
  {
    forall b | b in s.body && b != s.cur :: b in s'.body && s'.body[b] == s.body[b]
  }

  lemma BranchedOk(s: State, v: Value, isAnd: bool, rb: nat, mb: nat)
    requires Ok(s) && ValueBelow(v, s.nextVreg)
    ensures var b := Branched(s, v, isAnd, rb, mb);
      && Ok(b) && Grows(s, b) && OthersKept(s, b) && b.vars == s.vars && b.loopCond == s.loopCond
      && b.loopExit == s.loopExit
      && b.cur == s.cur && b.nextBlock == s.nextBlock && b.nextVreg == s.nextVreg + 1
  {
    hide Ok, Grows, OthersKept;
    BranchedSound(s, v, isAnd, rb, mb);
    BranchedFrame(s, v, isAnd, rb, mb);
    OkHasCurrent(s);
  }

  lemma BranchedFrame(s: State, v: Value, isAnd: bool, rb: nat, mb: nat)
    requires s.cur in s.body
    ensures var b := Branched(s, v, isAnd, rb, mb);
      && OthersKept(s, b) && b.vars == s.vars && b.loopCond == s.loopCond && b.loopExit == s.loopExit
      && b.cur == s.cur && b.nextBlock == s.nextBlock && b.nextVreg == s.nextVreg + 1
  {
    hide Closed;
  }

  lemma BranchedSound(s: State, v: Value, isAnd: bool, rb: nat, mb: nat)
    requires Ok(s) && ValueBelow(v, s.nextVreg)
    ensures s.cur in s.body && Ok(Branched(s, v, isAnd, rb, mb)) && Grows(s, Branched(s, v, isAnd, rb, mb))
  {
    hide CellsDiffer, BindingBelow, BlockBelow, Grows, Valid, Ok, Closed;
    OkHasCurrent(s);
    var s1 := EmitValue(s, Alloca, [ConstInt(1)]);
    EmitValueKeepsOk(s, Alloca, [ConstInt(1)]);
    OkHasCurrent(s1);
    var s2 := Emit(s1, StoreInst(v, s.nextVreg));
    EmitKeepsOk(s1, StoreInst(v, s.nextVreg));
    OkHasCurrent(s2);
    var j := if isAnd then BranchInst(v, rb, mb) else BranchInst(v, mb, rb);
    EmitKeepsOk(s2, j);
    GrowsTransitive(s, s1, s2);
    GrowsTransitive(s, s2, Emit(s2, j));
  }

  lemma OkHasCurrent(s: State)
    requires Ok(s)
    ensures s.cur in s.body
  {}

  lemma JoinedOk(s: State, v: Value, p: nat, mb: nat)
    requires Ok(s) && ValueBelow(v, s.nextVreg) && p < s.nextVreg
    ensures var b := Joined(s, v, p, mb);
      && Ok(b) && Grows(s, b) && OthersKept(s, b) && b.vars == s.vars && b.loopCond == s.loopCond
      && b.loopExit == s.loopExit
      && b.cur == s.cur && b.nextBlock == s.nextBlock && b.nextVreg == s.nextVreg
  {
    hide CellsDiffer, BindingBelow, BlockBelow, Grows;
    var s1 := Emit(s, StoreInst(v, p));
    EmitKeepsOk(s, StoreInst(v, p));
    EmitKeepsOk(s1, JumpInst(mb));
    GrowsTransitive(s, s1, Emit(s1, JumpInst(mb)));
  }

  /** What is known of each state once the construction is complete. */
  ghost predicate Shape(s: State, isAnd: bool, s2: State, vl: Value, s7: State, vr: Value, s11: State) {
    var rb, mb, p := s.nextBlock, s.nextBlock + 1, s2.nextVreg;
    && s.cur in s.body && s2.cur in s2.body && s7.cur in s7.body
    && var s6, s10 := MoveTo(Branched(s2, vl, isAnd, rb, mb), rb), MoveTo(Joined(s7, vr, p, mb), mb);
       && Ok(Opened(s)) && Ok(s2) && Ok(s6) && Ok(s7) && Ok(s10)
       && Grows(s, s2) && Grows(s2, s6) && Grows(s6, s7) && Grows(s7, s10) && Grows(s10, s11)
       && s2.vars == s.vars && s6.vars == s.vars && s7.vars == s.vars && s10.vars == s.vars
       && s.nextVreg <= p < s6.nextVreg <= s7.nextVreg && s7.nextVreg == s10.nextVreg
       && ValueBelow(vl, s2.nextVreg) && ValueBelow(vr, s7.nextVreg)
       && rb in s6.body && s6.body[rb] == [] && mb in s10.body && s10.body[mb] == []
  }

  /** The states up to the start of the right operand's code. */
  ghost predicate LeftPart(s: State, isAnd: bool, s2: State, vl: Value)
    requires s2.cur in s2.body
  {
    var s1, rb, mb := Opened(s), s.nextBlock, s.nextBlock + 1;
    && s.cur in s.body && Ok(s1) && Ok(s2) && Grows(s, s2) && Local(s1, s2)
    && s2.vars == s.vars && s2.loopCond == s.loopCond && s2.loopExit == s.loopExit && s.nextVreg <= s2.nextVreg
    && ValueBelow(vl, s2.nextVreg)
    && var s5 := Branched(s2, vl, isAnd, rb, mb);
       && Ok(s5) && Grows(s2, s5) && OthersKept(s2, s5) && s5.vars == s.vars && s5.nextVreg == s2.nextVreg + 1
       && s5.nextBlock >= mb + 1
       && s5.loopCond == s.loopCond && s5.loopExit == s.loopExit
       && rb in s5.body && s5.body[rb] == [] && mb in s5.body && s5.body[mb] == [] && Ok(MoveTo(s5, rb))
  }

  lemma LeftShape(s: State, isAnd: bool, l: S.Expr, s2: State, vl: Value)
    requires Ok(s) && Evaluates(Opened(s), l, s2, vl)
    ensures s2.cur in s2.body && LeftPart(s, isAnd, s2, vl)
  {
    hide Evaluates, ValueBelow, Branched, OthersKept, Local, Ok, Grows;
    var s1, rb, mb := Opened(s), s.nextBlock, s.nextBlock + 1;
    OpenedOk(s);
    EvaluatesKeeps(s1, l, s2, vl);
    MovedGrows(s1, s2, s2.cur);
    OkHasCurrent(s2);
    BranchedOk(s2, vl, isAnd, rb, mb);
    var s5 := Branched(s2, vl, isAnd, rb, mb);
    assert s1.cur < rb && s1.body[rb] == [] && s1.body[mb] == [];
    EmptyBlockStays(s1, s2, s5, rb);
    EmptyBlockStays(s1, s2, s5, mb);
    MoveOk(s5, rb);
    OpenedOk(s);
    GrowsTransitive(s, s1, s2);
  }

  lemma OpenedOk(s: State)
    requires Ok(s)
    ensures Ok(Opened(s)) && Grows(s, Opened(s)) && s.cur in s.body && s.cur < s.nextBlock
    ensures Opened(s).body[s.nextBlock] == [] && Opened(s).body[s.nextBlock + 1] == []
  {
    hide Ok, Grows;
    NewBlockOk(s);
    NewBlockOk(NewBlock(s));
    GrowsTransitive(s, NewBlock(s), Opened(s));
  }

  lemma EmptyBlockStays(s1: State, s2: State, s5: State, b: nat)
    requires b in s1.body && b != s1.cur && b < s1.nextBlock && Local(s1, s2) && OthersKept(s2, s5)
    ensures b in s5.body && s5.body[b] == s1.body[b] && b != s2.cur
  {}

  /** The states from the right operand's code to the join. */
  lemma RightShape(s6: State, r: S.Expr, s7: State, vr: Value, p: nat, mb: nat)
    requires Ok(s6) && Evaluates(s6, r, s7, vr) && p < s6.nextVreg && mb in s6.body && s6.body[mb] == [] && mb != s6.cur
    requires mb < s6.nextBlock
    ensures Ok(s7) && s7.cur in s7.body && Grows(s6, s7) && Local(s6, s7) && ValueBelow(vr, s7.nextVreg)
    ensures s6.nextVreg <= s7.nextVreg
    ensures s7.vars == s6.vars && s7.loopCond == s6.loopCond && s7.loopExit == s6.loopExit
    ensures var s9 := Joined(s7, vr, p, mb);
      && Ok(s9) && Grows(s7, s9) && OthersKept(s7, s9) && s9.vars == s6.vars && s9.nextVreg == s7.nextVreg
      && s9.nextBlock >= s6.nextBlock
      && s9.loopCond == s6.loopCond && s9.loopExit == s6.loopExit
      && mb in s9.body && s9.body[mb] == [] && Ok(MoveTo(s9, mb)) && Grows(s7, MoveTo(s9, mb))
  {
    hide Evaluates, BlockBelow, ValueBelow, Joined;
    EvaluatesKeeps(s6, r, s7, vr);
    JoinedOk(s7, vr, p, mb);
    var s9 := Joined(s7, vr, p, mb);
    EmptyBlockStays(s6, s7, s9, mb);
    MoveOk(s9, mb);
    GrowsTransitive(s7, s9, MoveTo(s9, mb));
    assert s7.cur in s7.body;
  }

  lemma LogicShape(s: State, isAnd: bool, l: S.Expr, r: S.Expr, s2: State, vl: Value, s7: State, vr: Value, s11: State,
        v: Value)
    requires LogicBuilt(s, isAnd, l, r, s2, vl, s7, vr, s11, v)
    ensures Shape(s, isAnd, s2, vl, s7, vr, s11) && Built(s, s11) && ValueBelow(v, s11.nextVreg)
  {
    hide Evaluates, LoadBuilt, ValueBelow, Branched, Joined, Local, OthersKept, Ok, Grows, Opened;
    var rb, mb, p := s.nextBlock, s.nextBlock + 1, s2.nextVreg;
    LeftShape(s, isAnd, l, s2, vl);
    var s5 := Branched(s2, vl, isAnd, rb, mb);
    var s6 := MoveTo(s5, rb);
    RightShape(s6, r, s7, vr, p, mb);
    var s9 := Joined(s7, vr, p, mb);
    var s10 := MoveTo(s9, mb);
    LoadKeeps(s10, p, s11, v);
    MovedGrows(s2, s5, rb);
    GrowsTransitive(s, s2, s6);
    GrowsTransitive(s, s6, s7);
    GrowsTransitive(s, s7, s10);
    GrowsTransitive(s, s10, s11);
    LogicLocal(s, Opened(s), s2, s5, s6, s7, s9, s10, s11);
  }

  lemma MovedGrows(s: State, s1: State, b: nat)
    requires Grows(s, s1)
    ensures Grows(s, MoveTo(s1, b)) && s.nextBlock <= s1.nextBlock
  {}

  lemma LogicLocal(s: State, s1: State, s2: State, s5: State, s6: State, s7: State, s9: State, s10: State, s11: State)
    requires Ok(s) && s1 == Opened(s) && Local(s1, s2) && OthersKept(s2, s5) && s5.nextBlock >= s.nextBlock
    requires s6 == MoveTo(s5, s.nextBlock)
    requires Local(s6, s7) && OthersKept(s7, s9) && s9.nextBlock >= s.nextBlock && s10 == MoveTo(s9, s.nextBlock + 1)
    requires Local(s10, s11)
    ensures Local(s, s11)
  {
    forall b | b in s.body && b != s.cur
      ensures b in s11.body && s11.body[b] == s.body[b]
    {
      assert b < s.nextBlock;
      assert s1.body[b] == s.body[b];
      assert s2.body[b] == s1.body[b];
      assert s5.body[b] == s2.body[b];
      assert s7.body[b] == s6.body[b];
      assert s9.body[b] == s7.body[b];
    }
  }

  // ---------------------------------------------------------------------------------------------
  // How it runs

  /** The run stands at an open point, mirrors `env`, and slot `p` is ready for the result. */
  ghost predicate Standing(t: Setting, s: State, env: S.Env, regs: Regs, w: World, p: nat) {
    IsOpen(s) && Sim(t, s, env, regs, w) && p < t.size && t.bytes(p) > 0 && Reads(t, VReg(p), regs, t.addr(p))
  }

  lemma HoldsTo(t: Setting, s: State, s': State)
    requires Holds(t.g, s') && Grows(s, s')
    ensures Holds(t.g, s)
  {
    HoldsEarlier(t.g, s, s');
  }

  lemma NotACell(s: State, p: nat)
    requires Ok(s) && p >= s.nextVreg
    ensures !IsCell(s.vars, p)
  {
    hide CellsDiffer, BlockBelow;
    forall x | x in s.vars
      ensures s.vars[x] != Cell(p)
    {
      assert BindingBelow(s.vars[x], s.nextVreg);
    }
  }

  /** Storing a value into the result's cell. */
  lemma StoreResult(t: Setting, s: State, v: Value, p: nat, env: S.Env, regs: Regs, w: World, x: i64)
    requires Ok(s) && ValueBelow(v, s.nextVreg) && p < s.nextVreg && !IsCell(s.vars, p)
    requires FrameOk(t) && s.nextVreg <= t.size && Holds(t.g, Emit(s, StoreInst(v, p)))
    requires Standing(t, s, env, regs, w, p) && Reads(t, v, regs, x) && 0 <= x <= 1
    ensures var s', w' := Emit(s, StoreInst(v, p)), w.(mem := w.mem[t.addr(p) := x]);
      Standing(t, s', env, regs, w', p) && Leads(t, Here(s, regs, w), Here(s', regs, w'), 0) &&
        CellHolds(t, p, w', x) && Mirrors(t, s.vars, env, regs, w')
  {
    hide Ok, Leads, Mirrors, Reads, StoreHolds, IsCell, AllocaOk, StoreOk, LoadOk, SlotsApart, AllReserved;
    assert s.cur in s.body && Emit(s, StoreInst(v, p)).nextVreg == s.nextVreg;
    SpareMirrors(t, s.vars, env, regs, w, p, x);
    StoreReaches(t, s, v, p, env, regs, w, x, env);
  }

  /** From the start of an expression's code to the branch behind its left operand. */
  lemma LeftRun(t: Setting, s2: State, vl: Value, isAnd: bool, rb: nat, mb: nat, env: S.Env, regs: Regs, w: World,
        b: bool)
    returns (regs': Regs, w': World)
    requires Ok(s2) && ValueBelow(vl, s2.nextVreg) && IsOpen(s2) && Sim(t, s2, env, regs, w)
    requires FrameOk(t) && s2.nextVreg < t.size && Holds(t.g, Branched(s2, vl, isAnd, rb, mb)) && rb in t.g.body
    requires mb in t.g.body
    requires Reads(t, vl, regs, if b then 1 else 0)
    ensures var p, to := s2.nextVreg, Point(if b == isAnd then rb else mb, 0, regs', w');
      && Leads(t, Here(s2, regs, w), to, 1) && Mirrors(t, s2.vars, env, regs', w') && KeepRegs(p, regs, regs')
      && w' == w.(mem := w.mem[t.addr(p) := if b then 1 else 0])
      && Reads(t, VReg(p), regs', t.addr(p)) && CellHolds(t, p, w', if b then 1 else 0) && t.bytes(p) > 0
  {
    hide Ok, Leads, Mirrors, Reads, StoreHolds, IsCell, Emit, EmitValue, Built, FrameOk, Grows, BranchInst, Sim, Kept,
      CellHolds;
    var p := s2.nextVreg;
    var s3 := EmitValue(s2, Alloca, [ConstInt(1)]);
    LeftStates(s2, vl, isAnd, rb, mb);
    var s4 := Emit(s3, StoreInst(vl, p));
    var j := if isAnd then BranchInst(vl, rb, mb) else BranchInst(vl, mb, rb);
    HoldsTo(t, s4, Emit(s4, j));
    HoldsTo(t, s3, s4);
    AllocaReaches(t, s2, 1, env, regs, w);
    regs' := regs[p := t.addr(p)];
    ReadsAfter(t, s2, regs, w, s3, env, regs', w, 0, vl, if b then 1 else 0);
    assert Standing(t, s3, env, regs', w, p);
    StoreResult(t, s3, vl, p, env, regs', w, if b then 1 else 0);
    w' := w.(mem := w.mem[t.addr(p) := if b then 1 else 0]);
    var to := if b == isAnd then rb else mb;
    BranchRuns(t, s4, vl, isAnd, rb, mb, regs', w', b);
    LeadsTransitive(t, Here(s2, regs, w), Here(s3, regs', w), Here(s4, regs', w'), 0, 0);
    LeadsTransitive(t, Here(s2, regs, w), Here(s4, regs', w'), Point(to, 0, regs', w'), 0, 1);
  }

  /** The branch to the right operand or to the join. */
  lemma BranchRuns(t: Setting, s: State, v: Value, isAnd: bool, rb: nat, mb: nat, regs: Regs, w: World, b: bool)
    requires IsOpen(s) && Reads(t, v, regs, if b then 1 else 0) && rb in t.g.body && mb in t.g.body
    requires Holds(t.g, Emit(s, if isAnd then BranchInst(v, rb, mb) else BranchInst(v, mb, rb)))
    ensures Leads(t, Here(s, regs, w), Point(if b == isAnd then rb else mb, 0, regs, w), 1)
  {
    hide Reads, Holds, Leads, Emit, BranchInst;
    var j := if isAnd then BranchInst(v, rb, mb) else BranchInst(v, mb, rb);
    if isAnd {
      BranchStep(t, v, rb, mb, regs, w, if b then 1 else 0);
    } else {
      BranchStep(t, v, mb, rb, regs, w, if b then 1 else 0);
    }
    JumpLeads(t, s, j, regs, w, if b == isAnd then rb else mb);
  }

  lemma LeftStates(s2: State, vl: Value, isAnd: bool, rb: nat, mb: nat)
    requires Ok(s2) && ValueBelow(vl, s2.nextVreg)
    ensures var s3 := EmitValue(s2, Alloca, [ConstInt(1)]);
      && s2.cur in s2.body && Ok(s3) && s3.cur in s3.body && s3.nextVreg == s2.nextVreg + 1 && s3.vars == s2.vars
      && !IsCell(s3.vars, s2.nextVreg)
      && var s4 := Emit(s3, StoreInst(vl, s2.nextVreg));
         && Grows(s3, s4) && s4.cur in s4.body && s4.nextVreg == s3.nextVreg && s4.vars == s2.vars
         && var j := if isAnd then BranchInst(vl, rb, mb) else BranchInst(vl, mb, rb);
            Grows(s4, Emit(s4, j)) && Emit(s4, j) == Branched(s2, vl, isAnd, rb, mb)
  {
    hide CellsDiffer, BindingBelow, BlockBelow, Grows, IsCell;
    NotACell(s2, s2.nextVreg);
    var s3 := EmitValue(s2, Alloca, [ConstInt(1)]);
    EmitValueKeepsOk(s2, Alloca, [ConstInt(1)]);
    var s4 := Emit(s3, StoreInst(vl, s2.nextVreg));
    EmitKeepsOk(s3, StoreInst(vl, s2.nextVreg));
    EmitGrows(s4, if isAnd then BranchInst(vl, rb, mb) else BranchInst(vl, mb, rb));
  }

  /** The right operand's value goes into the cell and the run joins the other way. */
  lemma RightRun(t: Setting, s7: State, vr: Value, p: nat, mb: nat, env: S.Env, regs: Regs, w: World, x: i64)
    returns (w': World)
    requires Ok(s7) && ValueBelow(vr, s7.nextVreg) && p < s7.nextVreg && !IsCell(s7.vars, p)
    requires FrameOk(t) && s7.nextVreg <= t.size && Holds(t.g, Joined(s7, vr, p, mb)) && mb in t.g.body
    requires Standing(t, s7, env, regs, w, p) && Reads(t, vr, regs, x) && 0 <= x <= 1
    ensures Leads(t, Here(s7, regs, w), Point(mb, 0, regs, w'), 1) && Mirrors(t, s7.vars, env, regs, w')
    ensures w' == w.(mem := w.mem[t.addr(p) := x]) && CellHolds(t, p, w', x)
  {
    hide Ok, Leads, Mirrors, Reads, StoreHolds, IsCell, Emit, FrameOk, Grows, CellHolds, Sim;
    RightStates(s7, vr, p, mb);
    var s8 := Emit(s7, StoreInst(vr, p));
    HoldsTo(t, s8, Emit(s8, JumpInst(mb)));
    StoreResult(t, s7, vr, p, env, regs, w, x);
    w' := w.(mem := w.mem[t.addr(p) := x]);
    JumpStep(t.m, t.params, mb, regs, w');
    JumpLeads(t, s8, JumpInst(mb), regs, w', mb);
    LeadsTransitive(t, Here(s7, regs, w), Here(s8, regs, w'), Point(mb, 0, regs, w'), 0, 1);
  }

  lemma RightStates(s7: State, vr: Value, p: nat, mb: nat)
    requires Ok(s7)
    ensures s7.cur in s7.body
    ensures var s8 := Emit(s7, StoreInst(vr, p));
      s8.cur in s8.body && Grows(s8, Emit(s8, JumpInst(mb))) && Emit(s8, JumpInst(mb)) == Joined(s7, vr, p, mb)
  {
    hide CellsDiffer, BindingBelow, BlockBelow, Grows;
    EmitGrows(Emit(s7, StoreInst(vr, p)), JumpInst(mb));
  }

  /** A stretch of code that writes new registers and one new cell. */
  lemma SinceCell(t: Setting, s: State, regs: Regs, w: World, x: Point, c: nat, y: Point, d: nat, n: nat, p: nat,
        v: i64)
    requires Since(t, s, regs, w, x, c) && Leads(t, x, y, d) && KeepRegs(n, x.regs, y.regs) && s.nextVreg <= n
    requires y.w == x.w.(mem := x.w.mem[t.addr(p) := v]) && s.nextVreg <= p < t.size && t.bytes(p) > 0
    ensures Since(t, s, regs, w, y, c + d)
  {
    hide KeepRegs, Kept, Leads, IsCell;
    StoreKept(t, s.vars, s.nextVreg, p, x.w, v);
    KeptTransitive(t, s.vars, s.nextVreg, w, x.w, s.vars, s.nextVreg, y.w);
    KeepRegsTransitive(s.nextVreg, regs, x.regs, n, y.regs);
    LeadsTransitive(t, Here(s, regs, w), x, y, c, d);
  }

  lemma OpenedReady(t: Setting, s: State, s2: State, s11: State, env: S.Env, regs: Regs, w: World)
    requires Ready(t, s, s11, env, regs, w) && Ok(s) && Grows(s2, s11)
    ensures Ready(t, Opened(s), s2, env, regs, w) && Here(Opened(s), regs, w) == Here(s, regs, w)
  {
    hide Mirrors, FrameOk, StoreHolds, CellsDiffer, BlockBelow, BindingBelow;
    assert s.cur < s.nextBlock;
    HoldsTo(t, s2, s11);
  }

  lemma OpenedSince(t: Setting, s: State, regs: Regs, w: World, s2: State, env1: S.Env, regs1: Regs, w1: World, c: nat)
    requires Reached(t, Opened(s), regs, w, s2, env1, regs1, w1, c) && IsOpen(s)
    requires Here(Opened(s), regs, w) == Here(s, regs, w)
    ensures Since(t, s, regs, w, Here(s2, regs1, w1), c)
  {
    hide Sim, KeepRegs, Kept, Leads;
  }

  /** The join: the result is loaded from its cell. */
  lemma JoinRun(t: Setting, s: State, regs: Regs, w: World, s10: State, p: nat, s11: State, v: Value, env': S.Env,
        regs2: Regs, w2: World, c: nat, x: i64)
    returns (regs': Regs)
    requires LoadBuilt(s10, p, s11, v) && s10.cur in s10.body && s10.body[s10.cur] == [] && Newer(s, s10)
    requires Holds(t.g, s11) && FrameOk(t) && s11.nextVreg <= t.size
    requires Since(t, s, regs, w, Point(s10.cur, 0, regs2, w2), c) && Mirrors(t, s10.vars, env', regs2, w2)
    requires Reads(t, VReg(p), regs2, t.addr(p)) && CellHolds(t, p, w2, x)
    ensures Reached(t, s, regs, w, s11, env', regs', w2, c + 0) && Reads(t, v, regs', x)
  {
    hide LoadBuilt, FrameOk, Mirrors, Reads, CellHolds, Since, Newer, Holds;
    assert Sim(t, s10, env', regs2, w2);
    assert Ready(t, s10, s11, env', regs2, w2);
    regs' := LoadRun(s10, p, s11, v, t, env', regs2, w2, x);
    assert Here(s10, regs2, w2) == Point(s10.cur, 0, regs2, w2);
    SinceReached(t, s, regs, w, s10, regs2, w2, c, s11, env', regs', w2, 0);
    assert IsOpen(s11) && Sim(t, s11, env', regs', w2);
    SinceIsReached(t, s, regs, w, s11, env', regs', w2, c + 0);
  }

  lemma LogicRun(s: State, isAnd: bool, l: S.Expr, r: S.Expr, s2: State, vl: Value, s7: State, vr: Value, s11: State,
        v: Value, t: Setting, env: S.Env, regs: Regs, w: World, val: S.Val, env': S.Env)
    returns (regs': Regs, w': World, c: nat)
    requires LogicBuilt(s, isAnd, l, r, s2, vl, s7, vr, s11, v)
    requires Ready(t, s, s11, env, regs, w) && S.Value(S.Logic(isAnd, l, r), env) == Some((val, env'))
    ensures Evaluated(t, s, regs, w, s11, env', regs', w', c, v, val)
  {
    hide Ok, Evaluates, LoadBuilt, Branched, Joined, Grows, Local, Ready, Reads, Built, Leads, KeepRegs, Kept,
      Mirrors, Since, FrameOk, Holds, Sim, IsCell, CellHolds, S.Value, ValueBelow, StoreHolds, Newer;
    var rb, mb, p := s.nextBlock, s.nextBlock + 1, s2.nextVreg;
    LogicShape(s, isAnd, l, r, s2, vl, s7, vr, s11, v);
    var s6, s10 := MoveTo(Branched(s2, vl, isAnd, rb, mb), rb), MoveTo(Joined(s7, vr, p, mb), mb);
    var pl: (S.Val, S.Env) := LogicParts(isAnd, l, r, env, val, env');
    LogicHolds(t, s, s2, s6, s7, s10, s11, env, regs, w, rb, mb);
    SharedVars(s, s10);
    OpenedReady(t, s, s2, s11, env, regs, w);
    var regs2, w2, c2 := LogicLeft(t, s, s2, l, vl, isAnd, rb, mb, env, regs, w, pl.0.b, pl.1);
    if pl.0.b != isAnd {
      regs' := JoinRun(t, s, regs, w, s10, p, s11, v, env', regs2, w2, c2, S.Enc(val));
      w', c := w2, c2 + 0;
    } else {
      var regs4, w4, c4 := RightPart(s, s6, r, s7, vr, p, mb, t, regs, w, pl.1, regs2, w2, c2, val, env');
      regs' := JoinRun(t, s, regs, w, s10, p, s11, v, env', regs4, w4, c4, S.Enc(val));
      w', c := w4, c4 + 0;
    }
  }

  /** The left operand and the branch behind it, from the point where the whole expression starts. */
  lemma LogicLeft(t: Setting, s: State, s2: State, l: S.Expr, vl: Value, isAnd: bool, rb: nat, mb: nat, env: S.Env,
        regs: Regs, w: World, b: bool, env1: S.Env)
    returns (regs2: Regs, w2: World, c2: nat)
    requires Evaluates(Opened(s), l, s2, vl) && Ready(t, Opened(s), s2, env, regs, w) && Ok(Opened(s)) && IsOpen(s)
    requires Here(Opened(s), regs, w) == Here(s, regs, w) && S.Value(l, env) == Some((S.B(b), env1))
    requires Ok(s2) && ValueBelow(vl, s2.nextVreg) && s.nextVreg <= s2.nextVreg < t.size && FrameOk(t)
    requires Holds(t.g, Branched(s2, vl, isAnd, rb, mb)) && rb in t.g.body && mb in t.g.body
    ensures Since(t, s, regs, w, Point(if b == isAnd then rb else mb, 0, regs2, w2), c2)
    ensures Mirrors(t, s2.vars, env1, regs2, w2) && Reads(t, VReg(s2.nextVreg), regs2, t.addr(s2.nextVreg))
    ensures CellHolds(t, s2.nextVreg, w2, if b then 1 else 0) && t.bytes(s2.nextVreg) > 0
  {
    hide Ok, Evaluates, Branched, Opened, Ready, Reads, Leads, KeepRegs, Kept, Mirrors, Since, FrameOk, Holds, Sim,
      CellHolds, S.Value, ValueBelow;
    var regs1, w1, c1 := RunOf(Opened(s), l, s2, vl, t, env, regs, w, S.B(b), env1);
    OpenedSince(t, s, regs, w, s2, env1, regs1, w1, c1);
    assert IsOpen(s2) && Sim(t, s2, env1, regs1, w1);
    regs2, w2 := LeftRun(t, s2, vl, isAnd, rb, mb, env1, regs1, w1, b);
    SinceCell(t, s, regs, w, Here(s2, regs1, w1), c1, Point(if b == isAnd then rb else mb, 0, regs2, w2), 1,
      s2.nextVreg, s2.nextVreg, if b then 1 else 0);
    c2 := c1 + 1;
  }

  lemma LogicParts(isAnd: bool, l: S.Expr, r: S.Expr, env: S.Env, val: S.Val, env': S.Env) returns (pl: (S.Val, S.Env))
    requires S.Value(S.Logic(isAnd, l, r), env) == Some((val, env'))
    ensures S.Value(l, env) == Some(pl) && pl.0.B?
    ensures if pl.0.b != isAnd then val == pl.0 && env' == pl.1 else S.Value(r, pl.1) == Some((val, env')) && val.B?
  {
    pl := S.Value(l, env).value;
  }

  lemma LogicHolds(t: Setting, s: State, s2: State, s6: State, s7: State, s10: State, s11: State, env: S.Env,
        regs: Regs, w: World, rb: nat, mb: nat)
    requires Ready(t, s, s11, env, regs, w) && Grows(s2, s6) && Grows(s6, s7) && Grows(s7, s10) && Grows(s10, s11)
    requires rb in s6.body && mb in s10.body
    ensures FrameOk(t) && s11.nextVreg <= t.size && Holds(t.g, s11) && Holds(t.g, s10) && Holds(t.g, s7)
    ensures Holds(t.g, s6) && Grows(s2, s11)
    ensures rb in t.g.body && mb in t.g.body && IsOpen(s)
    ensures s7.nextVreg <= t.size && s6.nextVreg <= t.size && s2.nextVreg <= t.size
    ensures forall b: State | b.body == s6.body || b.body == s10.body :: Holds(t.g, b)
  {
    hide FrameOk, Sim;
    HoldsTo(t, s10, s11);
    HoldsTo(t, s7, s10);
    HoldsTo(t, s6, s7);
    GrowsTransitive(s7, s10, s11);
    GrowsTransitive(s6, s7, s11);
    GrowsTransitive(s2, s6, s11);
  }

  /** From the start of the right operand's code to the join. */
  lemma RightPart(s: State, s6: State, r: S.Expr, s7: State, vr: Value, p: nat, mb: nat, t: Setting, regs: Regs,
        w: World, env1: S.Env, regs2: Regs, w2: World, c: nat, val: S.Val, env': S.Env)
    returns (regs4: Regs, w4: World, c4: nat)
    requires Evaluates(s6, r, s7, vr) && Ok(s6) && Ok(s7) && s6.cur in s6.body && s6.body[s6.cur] == []
    requires s7.vars == s6.vars == s.vars
    requires s.nextVreg <= p < s6.nextVreg <= s7.nextVreg && ValueBelow(vr, s7.nextVreg) && Ok(s)
    requires FrameOk(t) && s7.nextVreg <= t.size && Holds(t.g, s7) && Holds(t.g, Joined(s7, vr, p, mb))
    requires mb in t.g.body
    requires Since(t, s, regs, w, Point(s6.cur, 0, regs2, w2), c) && Mirrors(t, s6.vars, env1, regs2, w2)
    requires Reads(t, VReg(p), regs2, t.addr(p)) && t.bytes(p) > 0
    requires S.Value(r, env1) == Some((val, env')) && val.B?
    ensures Since(t, s, regs, w, Point(mb, 0, regs4, w4), c4) && Mirrors(t, s7.vars, env', regs4, w4)
    ensures Reads(t, VReg(p), regs4, t.addr(p)) && CellHolds(t, p, w4, S.Enc(val))
  {
    hide Ok, Evaluates, Joined, Reads, Leads, Kept, Mirrors, Since, FrameOk, Holds, IsCell, CellHolds, S.Value;
    assert Sim(t, s6, env1, regs2, w2);
    assert Ready(t, s6, s7, env1, regs2, w2);
    assert Here(s6, regs2, w2) == Point(s6.cur, 0, regs2, w2);
    var regs3, w3, c3 := RunOf(s6, r, s7, vr, t, env1, regs2, w2, val, env');
    SharedVars(s, s6);
    SinceReached(t, s, regs, w, s6, regs2, w2, c, s7, env', regs3, w3, c3);
    ReadsAfter(t, s6, regs2, w2, s7, env', regs3, w3, c3, VReg(p), t.addr(p));
    NotACell(s, p);
    assert IsOpen(s7) && Sim(t, s7, env', regs3, w3);
    assert IsCell(s7.vars, p) == IsCell(s.vars, p);
    w4 := RightRun(t, s7, vr, p, mb, env', regs3, w3, S.Enc(val));
    assert KeepRegs(s7.nextVreg, regs3, regs3);
    SinceCell(t, s, regs, w, Here(s7, regs3, w3), c + c3, Point(mb, 0, regs3, w4), 1, s7.nextVreg, p, S.Enc(val));
    regs4, c4 := regs3, c + c3 + 1;
  }

  lemma SharedVars(s: State, s': State)
    requires s'.vars == s.vars && s.nextVreg <= s'.nextVreg
    ensures Newer(s, s')
  {
    hide IsCell;
  }

  lemma LogicEvaluates(s: State, isAnd: bool, l: S.Expr, r: S.Expr, s2: State, vl: Value, s7: State, vr: Value,
        s11: State, v: Value)
    requires LogicBuilt(s, isAnd, l, r, s2, vl, s7, vr, s11, v)
    ensures Evaluates(s, S.Logic(isAnd, l, r), s11, v)
  {
    hide Built, Evaluated, LogicBuilt, Ready, Shape, ValueBelow, S.Value;
    LogicShape(s, isAnd, l, r, s2, vl, s7, vr, s11, v);
    forall t: Setting, env: S.Env, regs: Regs, w: World, val: S.Val, env': S.Env |
      Ready(t, s, s11, env, regs, w) && S.Value(S.Logic(isAnd, l, r), env) == Some((val, env'))
      ensures exists regs', w', c :: Evaluated(t, s, regs, w, s11, env', regs', w', c, v, val)
    {
      var regs', w', c := LogicRun(s, isAnd, l, r, s2, vl, s7, vr, s11, v, t, env, regs, w, val, env');
    }
  }
}
