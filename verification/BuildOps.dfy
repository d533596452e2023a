/** The builder's operations: folding, simplification, load forwarding, select and branch folding. */
module BuildOps {
  import opened Sir
  import opened Builder
  import opened Frames
  import S = Source

  // ---------------------------------------------------------------------------------------------
  // What an operation promises

  /** Both states are sound, only code and counters have grown, and the insertion point stays open. */
  ghost predicate Built(s: State, s': State) {
    && Ok(s') && Grows(s, s') && s'.vars == s.vars && s'.loopCond == s.loopCond && s'.loopExit == s.loopExit
    && (IsOpen(s) ==> IsOpen(s')) && Local(s, s')
  }

  /** Only the current block and new blocks have been written. */
  ghost predicate Local(s: State, s': State) {
    && (forall b | b in s.body && b != s.cur :: b in s'.body && s'.body[b] == s.body[b])
    && (s'.cur == s.cur || s'.cur >= s.nextBlock)
  }

  lemma LocalTransitive(s: State, s1: State, s2: State)
    requires Valid(s) && Local(s, s1) && Local(s1, s2) && Grows(s, s1)
    ensures Local(s, s2)
  {
    forall b | b in s.body && b != s.cur
      ensures b in s2.body && s2.body[b] == s.body[b]
    {
      assert b < s.nextBlock;
    }
  }

  /** A run stands at the insertion point of `s` with variables as in `env`; its code goes on as in `s'`. */
  ghost predicate Ready(t: Setting, s: State, s': State, env: S.Env, regs: Regs, w: World) {
    IsOpen(s) && Holds(t.g, s') && FrameOk(t) && s'.nextVreg <= t.size && Sim(t, s, env, regs, w)
  }

  /** It comes to the insertion point of `s'` with variables as in `env'`, leaving the rest alone. */
  ghost predicate Reached(t: Setting, s: State, regs: Regs, w: World, s': State, env': S.Env, regs': Regs, w': World,
        c: nat) {
    && IsOpen(s) && IsOpen(s') && Sim(t, s', env', regs', w') && KeepRegs(s.nextVreg, regs, regs')
    && Kept(t, s.vars, s.nextVreg, w, w')
    && Leads(t, Here(s, regs, w), Here(s', regs', w'), c)
  }

  ghost predicate Reads(t: Setting, v: Value, regs: Regs, x: i64) { EvalOperand(t.m, v, regs) == Some(Int(x)) }

  lemma ReachedTransitive(t: Setting, s: State, regs: Regs, w: World, s1: State, env1: S.Env, regs1: Regs, w1: World,
        c: nat, s2: State, env2: S.Env, regs2: Regs, w2: World, d: nat)
    requires Reached(t, s, regs, w, s1, env1, regs1, w1, c) && Reached(t, s1, regs1, w1, s2, env2, regs2, w2, d)
    requires s.nextVreg <= s1.nextVreg && forall p: nat | IsCell(s1.vars, p) :: p >= s.nextVreg || IsCell(s.vars, p)
    ensures Reached(t, s, regs, w, s2, env2, regs2, w2, c + d)
  {
    hide Sim, KeepRegs, Kept, Leads, IsCell;
    KeepRegsTransitive(s.nextVreg, regs, regs1, s1.nextVreg, regs2);
    KeptTransitive(t, s.vars, s.nextVreg, w, w1, s1.vars, s1.nextVreg, w2);
    LeadsTransitive(t, Here(s, regs, w), Here(s1, regs1, w1), Here(s2, regs2, w2), c, d);
  }

  lemma ReachedAtOnce(t: Setting, s: State, env: S.Env, regs: Regs, w: World)
    requires IsOpen(s) && Sim(t, s, env, regs, w)
    ensures Reached(t, s, regs, w, s, env, regs, w, 0)
  {
    hide Sim;
  }

  lemma BuiltTransitive(s: State, s1: State, s2: State)
    requires Ok(s) && Built(s, s1) && Built(s1, s2)
    ensures Built(s, s2)
  {
    hide Local, Grows, Valid;
    assert Valid(s);
    LocalTransitive(s, s1, s2);
    GrowsTransitive(s, s1, s2);
  }

  /** What the rest of the code does not change stays readable. */
  lemma StillReads(t: Setting, v: Value, n: nat, regs: Regs, regs': Regs, x: i64)
    requires Reads(t, v, regs, x) && ValueBelow(v, n) && KeepRegs(n, regs, regs')
    ensures Reads(t, v, regs', x)
  {
    OperandKept(t.m, v, n, regs, regs');
  }

  // ---------------------------------------------------------------------------------------------
  // Folding

  /** Constant folding and algebraic simplification; `None` means that an instruction is needed.
      The source compares operands by address: `same` says that both are one object. */
  function Fold(op: Opcode, l: Value, r: Value, same: bool): (v: Option<Value>)
    requires (op.IsArith() || op.IsCompare()) && (same ==> l == r)
  {
    if l.ConstInt? && r.ConstInt? then
      match Binary(op, l.i, r.i)
      case None => None
      case Some(v) => Some(if op.IsCompare() then ConstBool(v == 1) else ConstInt(v))
    else if op.Add? then
      if r == ConstInt(0) then Some(l) else if l == ConstInt(0) then Some(r) else None
    else if op.Sub? then
      if r == ConstInt(0) then Some(l) else if same then Some(ConstInt(0)) else None
    else if op.Mul? then
      if r == ConstInt(1) then Some(l) else if l == ConstInt(1) then Some(r)
      else if r == ConstInt(0) || l == ConstInt(0) then Some(ConstInt(0)) else None
    else if op.Div? then
      if r == ConstInt(1) then Some(l) else if same then Some(ConstInt(1)) else None
    else if op.And? then
      if r == ConstInt(0) || l == ConstInt(0) then Some(ConstInt(0)) else if same then Some(l) else None
    else if op.Or? then
      if r == ConstInt(0) then Some(l) else if l == ConstInt(0) then Some(r) else if same then Some(l)
        else None
    else if op.Xor? then
      if r == ConstInt(0) then Some(l) else if l == ConstInt(0) then Some(r)
        else if same then Some(ConstInt(0)) else None
    else None
  }

  /** A literal operand that never makes a difference is dropped. */
  lemma NeutralFolds(op: Opcode, v: Value, c: i64)
    requires op.Add? || op.Sub? || op.Mul? || op.Div? || op.Or? || op.Xor?
    ensures !v.ConstInt? && (forall y: i64 :: Binary(op, y, c) == Some(y)) ==>
      Fold(op, v, ConstInt(c), false) == Some(v)
    ensures !v.ConstInt? && (forall y: i64 :: Binary(op, c, y) == Some(y)) ==>
      Fold(op, ConstInt(c), v, false) == Some(v)
  {
    hide Wrap, TruncDiv, BitOp;
    if forall y: i64 :: Binary(op, y, c) == Some(y) { OnlyNeutral(op, c); }
    if forall y: i64 :: Binary(op, c, y) == Some(y) { OnlyLeftNeutral(op, c); }
  }

  lemma OnlyNeutral(op: Opcode, c: i64)
    requires op.Add? || op.Sub? || op.Mul? || op.Div? || op.Or? || op.Xor?
    requires forall y: i64 :: Binary(op, y, c) == Some(y)
    ensures c == if op.Mul? || op.Div? then 1 else 0
  {
    if op.Or? || op.Xor? {
      assert Binary(op, 0, c) == Some(0);
      BitLaws(op, c, 0);
      BitwiseIs(op, 0, c);
    } else if op.Add? || op.Sub? {
      assert Binary(op, 0, c) == Some(0);
    } else {
      assert Binary(op, 1, c) == Some(1);
    }
  }

  lemma OnlyLeftNeutral(op: Opcode, c: i64)
    requires op.Add? || op.Sub? || op.Mul? || op.Div? || op.Or? || op.Xor?
    requires forall y: i64 :: Binary(op, c, y) == Some(y)
    ensures ((op.Add? || op.Or? || op.Xor?) && c == 0) || (op.Mul? && c == 1)
  {
    if op.Or? || op.Xor? {
      assert Binary(op, c, 0) == Some(0);
      BitLaws(op, c, 0);
      BitwiseIs(op, c, 0);
    } else {
      assert Binary(op, c, 0) == Some(0) && Binary(op, c, 1) == Some(1);
    }
  }

  /** A literal operand that decides the result alone is the result. */
  lemma AbsorbingFolds(op: Opcode, v: Value, c: i64)
    requires op.Mul? || op.And?
    ensures !v.ConstInt? && (forall y: i64 :: Binary(op, y, c) == Some(c)) ==>
      Fold(op, v, ConstInt(c), false) == Fold(op, ConstInt(c), v, false) == Some(ConstInt(c))
  {
    hide Wrap, BitOp;
    if forall y: i64 :: Binary(op, y, c) == Some(c) {
      assert Binary(op, 0, c) == Some(c);
      BitwiseIs(And, 0, c);
      BitLaws(And, c, 0);
      Neutral(op, 0, c);
    }
  }

  /** A register operated on with itself folds to what that is for every value. */
  lemma SameFolds(op: Opcode, v: Value, y: i64)
    requires (op.Sub? || op.Div? || op.And? || op.Or? || op.Xor?) && v.VReg?
    ensures Fold(op, v, v, true).Some?
    ensures Fold(op, v, v, true) == Some(v) ==> Binary(op, y, y) == Some(y)
    ensures Fold(op, v, v, true) != Some(v) ==> Fold(op, v, v, true).value.ConstInt?
    ensures Fold(op, v, v, true) != Some(v) && Binary(op, y, y).Some? ==>
      Binary(op, y, y) == Some(Fold(op, v, v, true).value.i)
  {
    hide Wrap, BitOp;
    Neutral(op, y, y);
    if op.And? || op.Or? || op.Xor? {
      BitwiseIs(op, y, y);
      BitLaws(op, y, y);
    }
    if op.Div? && Binary(op, y, y).Some? { DivisionLaws(y, Binary(op, y, y).value); }
  }

  lemma DivisionLaws(x: i64, z: i64)
    requires Binary(Div, x, x) == Some(z)
    ensures z == 1
  {
    assert TruncDiv(x, x) == 1;
  }

  lemma ComparesToBit(op: Opcode, x: i64, y: i64)
    requires op.IsCompare()
    ensures Binary(op, x, y) == Some(1) || Binary(op, x, y) == Some(0)
  {
    hide Wrap, BitOp, Pow2, TruncDiv;
  }

  /** A folded operation yields what the instruction would have, whenever that does not fault. */
  lemma FoldIsValue(t: Setting, op: Opcode, l: Value, r: Value, same: bool, regs: Regs, x: i64, y: i64, z: i64)
    requires (op.IsArith() || op.IsCompare()) && (same ==> l == r) && Fold(op, l, r, same).Some?
    requires Reads(t, l, regs, x) && Reads(t, r, regs, y) && Binary(op, x, y) == Some(z)
    ensures Reads(t, Fold(op, l, r, same).value, regs, z)
  {
    hide Binary, BitOp, Wrap;
    Neutral(op, x, y);
    if op.IsCompare() { ComparesToBit(op, x, y); }
    if op.And? || op.Or? || op.Xor? {
      BitwiseIs(op, x, y);
      BitLaws(op, x, y);
      BitLaws(op, y, x);
    }
    if op.Div? && x == y { DivisionLaws(x, z); }
  }

  /** A folded operation mentions no register its operands do not. */
  lemma FoldBelow(op: Opcode, l: Value, r: Value, same: bool, n: nat)
    requires (op.IsArith() || op.IsCompare()) && (same ==> l == r) && Fold(op, l, r, same).Some?
    requires ValueBelow(l, n) && ValueBelow(r, n)
    ensures ValueBelow(Fold(op, l, r, same).value, n)
  {}

  ghost predicate BinaryBuilt(s: State, op: Opcode, l: Value, r: Value, s': State, v: Value) {
    && Built(s, s') && ValueBelow(v, s'.nextVreg)
    && forall t: Setting, env: S.Env, regs: Regs, w: World, x: i64, y: i64, z: i64 |
         (op.IsArith() || op.IsCompare()) && Ready(t, s, s', env, regs, w) && Reads(t, l, regs, x) &&
           Reads(t, r, regs, y) && Binary(op, x, y) == Some(z) ::
         exists regs' :: Reached(t, s, regs, w, s', env, regs', w, 0) && Reads(t, v, regs', z)
  }

  lemma BinaryStep(m: Machine, params: seq<i64>, op: Opcode, d: nat, l: Value, r: Value, regs: Regs, w: World, x: i64,
        y: i64, z: i64)
    requires op.IsArith() || op.IsCompare()
    requires EvalOperand(m, l, regs) == Some(Int(x)) && EvalOperand(m, r, regs) == Some(Int(y))
    requires Binary(op, x, y) == Some(z)
    ensures Step(m, params, Inst(op, Some(d), [l, r]), regs, w) == Next(z, w)
  {
    hide Binary, EvalOperand;
    assert EvalAll(m, [l, r], regs).value == [Int(x), Int(y)];
  }

  lemma EmitBuilt(s: State, op: Opcode, ops: seq<Value>)
    requires Ok(s) && !op.IsTerminator() && forall k | 0 <= k < |ops| :: ValueBelow(ops[k], s.nextVreg)
    ensures Built(s, EmitValue(s, op, ops))
  {
    hide ValueBelow;
    EmitValueKeepsOk(s, op, ops);
    assert Valid(s);
  }

  lemma FoldedBuilt(s: State, op: Opcode, l: Value, r: Value, same: bool)
    requires Ok(s) && ValueBelow(l, s.nextVreg) && ValueBelow(r, s.nextVreg) && (op.IsArith() || op.IsCompare())
    requires (same ==> l == r) && Fold(op, l, r, same).Some?
    ensures BinaryBuilt(s, op, l, r, s, Fold(op, l, r, same).value)
  {
    hide Ok, Fold, Reads, Binary, Ready, Reached, Built, ValueBelow;
    FoldBelow(op, l, r, same, s.nextVreg);
    var v := Fold(op, l, r, same).value;
    SelfBuilt(s);
    forall t: Setting, env: S.Env, regs: Regs, w: World, x: i64, y: i64, z: i64 |
      Ready(t, s, s, env, regs, w) && Reads(t, l, regs, x) && Reads(t, r, regs, y) && Binary(op, x, y) == Some(z)
      ensures exists regs' :: Reached(t, s, regs, w, s, env, regs', w, 0) && Reads(t, v, regs', z)
    {
      FoldedRun(t, s, op, l, r, same, env, regs, w, x, y, z);
    }
  }

  lemma FoldedRun(t: Setting, s: State, op: Opcode, l: Value, r: Value, same: bool, env: S.Env, regs: Regs, w: World,
        x: i64, y: i64, z: i64)
    requires (op.IsArith() || op.IsCompare()) && (same ==> l == r) && Fold(op, l, r, same).Some?
    requires Ready(t, s, s, env, regs, w) && Reads(t, l, regs, x) && Reads(t, r, regs, y) && Binary(op, x, y) == Some(z)
    ensures Reached(t, s, regs, w, s, env, regs, w, 0) && Reads(t, Fold(op, l, r, same).value, regs, z)
  {
    hide Fold, Reads, Binary, Reached, Sim, Holds, FrameOk;
    FoldIsValue(t, op, l, r, same, regs, x, y, z);
    ReachedAtOnce(t, s, env, regs, w);
  }

  lemma SelfBuilt(s: State)
    requires Ok(s)
    ensures Built(s, s)
  {}

  lemma EmittedBuilt(s: State, op: Opcode, l: Value, r: Value)
    requires Ok(s) && ValueBelow(l, s.nextVreg) && ValueBelow(r, s.nextVreg) && (op.IsArith() || op.IsCompare())
    ensures BinaryBuilt(s, op, l, r, EmitValue(s, op, [l, r]), VReg(s.nextVreg))
  {
    hide Ok, Binary, EmitValue, Built, Ready, Reached, Step, Reads, ValueBelow;
    EmitCounts(s, op, [l, r]);
    var s' := EmitValue(s, op, [l, r]);
    OperandsBelow(s, [l, r]);
    EmitBuilt(s, op, [l, r]);
    NewestBelow(s');
    forall t: Setting, env: S.Env, regs: Regs, w: World, x: i64, y: i64, z: i64 |
      Ready(t, s, s', env, regs, w) && Reads(t, l, regs, x) && Reads(t, r, regs, y) && Binary(op, x, y) == Some(z)
      ensures exists regs' :: Reached(t, s, regs, w, s', env, regs', w, 0) && Reads(t, VReg(s.nextVreg), regs', z)
    {
      EmittedBinaryRun(t, s, op, l, r, env, regs, w, x, y, z);
    }
  }

  lemma NewestBelow(s: State)
    requires s.nextVreg > 0
    ensures ValueBelow(VReg(s.nextVreg - 1), s.nextVreg)
  {}

  lemma EmittedBinaryRun(t: Setting, s: State, op: Opcode, l: Value, r: Value, env: S.Env, regs: Regs, w: World,
        x: i64, y: i64, z: i64)
    requires Ok(s) && (op.IsArith() || op.IsCompare()) && s.cur in s.body
    requires Built(s, EmitValue(s, op, [l, r])) && Ready(t, s, EmitValue(s, op, [l, r]), env, regs, w)
    requires Reads(t, l, regs, x) && Reads(t, r, regs, y) && Binary(op, x, y) == Some(z)
    ensures Reached(t, s, regs, w, EmitValue(s, op, [l, r]), env, regs[s.nextVreg := z], w, 0)
    ensures Reads(t, VReg(s.nextVreg), regs[s.nextVreg := z], z)
  {
    hide Ok, Binary, EmitValue, Built, Ready, Reached, Step;
    BinaryStep(t.m, t.params, op, s.nextVreg, l, r, regs, w, x, y, z);
    EmittedRun(t, s, op, [l, r], env, regs, w, z);
  }

  lemma OperandsBelow(s: State, ops: seq<Value>)
    requires |ops| == 2 && ValueBelow(ops[0], s.nextVreg) && ValueBelow(ops[1], s.nextVreg)
    ensures forall k | 0 <= k < |ops| :: ValueBelow(ops[k], s.nextVreg)
  {}

  lemma EmitCounts(s: State, op: Opcode, ops: seq<Value>)
    requires Ok(s)
    ensures s.cur in s.body && EmitValue(s, op, ops).nextVreg == s.nextVreg + 1
  {}

  /** The run over one emitted computation. */
  lemma EmittedRun(t: Setting, s: State, op: Opcode, ops: seq<Value>, env: S.Env, regs: Regs, w: World, x: i64)
    requires Ok(s) && s.cur in s.body && Ready(t, s, EmitValue(s, op, ops), env, regs, w)
    requires Built(s, EmitValue(s, op, ops))
    requires !op.Store? && !op.Call? && !op.Memcpy?
    requires Step(t.m, t.params, Inst(op, Some(s.nextVreg), ops), regs, w) == Next(x, w)
    ensures var regs' := regs[s.nextVreg := x];
      Reached(t, s, regs, w, EmitValue(s, op, ops), env, regs', w, 0) && Reads(t, VReg(s.nextVreg), regs', x)
  {
    hide Ok, Sim, Holds, FrameOk, Leads, KeepRegs, EmitValue, Step, Local, Grows;
    EmitValueSim(t, s, op, ops, env, regs, w, x);
    assert Kept(t, s.vars, s.nextVreg, w, w);
  }

  // ---------------------------------------------------------------------------------------------
  // Loads

  ghost predicate CellHolds(t: Setting, p: nat, w: World, x: i64)
  {
    p < t.size && t.addr(p) in w.mem && w.mem[t.addr(p)] == x && Fits(x, t.bytes(p))
  }

  ghost predicate LoadBuilt(s: State, p: nat, s': State, v: Value) {
    && Built(s, s') && ValueBelow(v, s'.nextVreg)
    && forall t: Setting, env: S.Env, regs: Regs, w: World, x: i64 |
         Ready(t, s, s', env, regs, w) && Reads(t, VReg(p), regs, t.addr(p)) && CellHolds(t, p, w, x) ::
         exists regs' :: Reached(t, s, regs, w, s', env, regs', w, 0) && Reads(t, v, regs', x)
  }

  /** The last store of the block went to the same pointer: its value is the one to load. */
  lemma ForwardedBuilt(s: State, p: nat, v: Value)
    requires Ok(s) && s.cur in s.body && Pending(s.body[s.cur]) == Some((v, VReg(p)))
    ensures LoadBuilt(s, p, s, v)
  {
    hide Holds, FrameOk, Reached, Pending;
    SelfBuilt(s);
    assert BlockBelow(s.body[s.cur], s.nextVreg);
    PendingBelow(s.body[s.cur], s.nextVreg);
    forall t: Setting, env: S.Env, regs: Regs, w: World, x: i64 |
      Ready(t, s, s, env, regs, w) && Reads(t, VReg(p), regs, t.addr(p)) && CellHolds(t, p, w, x)
      ensures exists regs' :: Reached(t, s, regs, w, s, env, regs', w, 0) && Reads(t, v, regs', x)
    {
      assert StoreHolds(t, s.body[s.cur], regs, w);
      ReachedAtOnce(t, s, env, regs, w);
      assert Reads(t, v, regs, x);
    }
  }

  lemma LoadedBuilt(s: State, p: nat)
    requires Ok(s) && p < s.nextVreg
    ensures LoadBuilt(s, p, EmitValue(s, Load, [VReg(p)]), VReg(s.nextVreg))
  {
    hide Sim, Holds, Leads, KeepRegs, SlotsApart, AllReserved, StoreOk, AllocaOk, LoadOk;
    var s' := EmitValue(s, Load, [VReg(p)]);
    EmitBuilt(s, Load, [VReg(p)]);
    assert s'.nextVreg == s.nextVreg + 1 by { assert Valid(s); }
    forall t: Setting, env: S.Env, regs: Regs, w: World, x: i64 |
      Ready(t, s, s', env, regs, w) && Reads(t, VReg(p), regs, t.addr(p)) && CellHolds(t, p, w, x)
      ensures exists regs' :: Reached(t, s, regs, w, s', env, regs', w, 0) && Reads(t, VReg(s.nextVreg), regs', x)
    {
      LoadStep(t, VReg(p), p, x, s.nextVreg, regs, w);
      EmitValueSim(t, s, Load, [VReg(p)], env, regs, w, x);
      var regs' := regs[s.nextVreg := x];
      assert Kept(t, s.vars, s.nextVreg, w, w);
      assert Reached(t, s, regs, w, s', env, regs', w, 0) && Reads(t, VReg(s.nextVreg), regs', x);
    }
  }

  // ---------------------------------------------------------------------------------------------
  // Stores

  function StoreInst(v: Value, p: nat): Inst { Inst(Store, None, [v, VReg(p)]) }

  lemma StoreIsBuilt(s: State, v: Value, p: nat)
    requires Ok(s) && ValueBelow(v, s.nextVreg) && p < s.nextVreg
    ensures Built(s, Emit(s, StoreInst(v, p)))
  {
    hide CellsDiffer, BlockBelow;
    EmitKeepsOk(s, StoreInst(v, p));
  }

  /** A store to slot `p` leads on with the cell changed and every other variable as it was. */
  lemma StoreReaches(t: Setting, s: State, v: Value, p: nat, env: S.Env, regs: Regs, w: World, x: i64, env': S.Env)
    requires Ok(s) && ValueBelow(v, s.nextVreg) && p < s.nextVreg
    requires Ready(t, s, Emit(s, StoreInst(v, p)), env, regs, w) && Reads(t, v, regs, x)
    requires Reads(t, VReg(p), regs, t.addr(p)) && Fits(x, t.bytes(p))
    requires Mirrors(t, s.vars, env', regs, w.(mem := w.mem[t.addr(p) := x]))
    ensures var s', w' := Emit(s, StoreInst(v, p)), w.(mem := w.mem[t.addr(p) := x]);
      && IsOpen(s') && Sim(t, s', env', regs, w') && Leads(t, Here(s, regs, w), Here(s', regs, w'), 0)
  {
    hide Ok, Leads, Mirrors, SlotsApart, AllReserved, AllocaOk, StoreOk, LoadOk;
    var inst, s', w' := StoreInst(v, p), Emit(s, StoreInst(v, p)), w.(mem := w.mem[t.addr(p) := x]);
    StoreStep(t, v, VReg(p), p, x, regs, w);
    EmitLeads(t, s, inst, regs, w, 0, w');
    assert s'.body[s'.cur] == s.body[s.cur] + [inst];
    assert Pending(s.body[s.cur] + [inst]) == Some((v, VReg(p)));
  }

  /** The cell is one of the variables' or was taken after `n`. */
  lemma StoreKept(t: Setting, vars: map<nat, Binding>, n: nat, p: nat, w: World, x: i64)
    requires p < t.size && t.bytes(p) > 0 && (p >= n || IsCell(vars, p))
    ensures Kept(t, vars, n, w, w.(mem := w.mem[t.addr(p) := x]))
  {
    hide IsCell;
    assert MayTouch(t, vars, n, t.addr(p));
  }

  /** Assigning one variable leaves the others' cells alone. */
  lemma AssignMirrors(t: Setting, vars: map<nat, Binding>, env: S.Env, regs: Regs, w: World, y: nat, p: nat, v: S.Val)
    requires SlotsApart(t) && CellsDiffer(vars) && Mirrors(t, vars, env, regs, w)
    requires y in env && vars[y] == Cell(p) && Width(v) <= t.bytes(p)
    ensures Mirrors(t, vars, env[y := v], regs, w.(mem := w.mem[t.addr(p) := S.Enc(v)]))
  {
    hide EvalOperand;
    var w' := w.(mem := w.mem[t.addr(p) := S.Enc(v)]);
    assert Lives(t, vars[y], env[y], regs, w);
    forall x | x in env[y := v]
      ensures x in vars && Lives(t, vars[x], env[y := v][x], regs, w')
    {
      assert Lives(t, vars[x], env[x], regs, w);
      if x != y && vars[x].Cell? { assert t.addr(vars[x].p) != t.addr(p); }
    }
  }

  /** Writing a cell that no variable has changes no variable. */
  lemma SpareMirrors(t: Setting, vars: map<nat, Binding>, env: S.Env, regs: Regs, w: World, p: nat, x: i64)
    requires SlotsApart(t) && p < t.size && t.bytes(p) > 0 && Mirrors(t, vars, env, regs, w) && !IsCell(vars, p)
    ensures Mirrors(t, vars, env, regs, w.(mem := w.mem[t.addr(p) := x]))
  {
    hide EvalOperand;
    var w' := w.(mem := w.mem[t.addr(p) := x]);
    forall y | y in env
      ensures y in vars && Lives(t, vars[y], env[y], regs, w')
    {
      assert Lives(t, vars[y], env[y], regs, w);
      if vars[y].Cell? { assert vars[y] != Cell(p); assert t.addr(vars[y].p) != t.addr(p); }
    }
  }

  // ---------------------------------------------------------------------------------------------
  // Allocation

  /** The slot of an allocation in the code is at least as large. */
  lemma SlotReserved(t: Setting, s: State, size: i64)
    requires IsOpen(s) && Holds(t.g, EmitValue(s, Alloca, [ConstInt(size)])) && AllReserved(t)
    ensures size <= t.bytes(s.nextVreg)
  {
    var s', inst := EmitValue(s, Alloca, [ConstInt(size)]), Inst(Alloca, Some(s.nextVreg), [ConstInt(size)]);
    var k := |s.body[s.cur]|;
    assert s'.body[s.cur] == s.body[s.cur] + [inst] && BlockGrows(s'.body[s.cur], t.g.body[s.cur]);
    assert t.g.body[s.cur][k] == s'.body[s.cur][k] == inst;
    assert Reserves(t, t.g.body[s.cur][k]);
  }

  /** A fresh cell. */
  lemma AllocaReaches(t: Setting, s: State, size: i64, env: S.Env, regs: Regs, w: World)
    requires Ok(s) && Ready(t, s, EmitValue(s, Alloca, [ConstInt(size)]), env, regs, w)
    ensures var s', regs' := EmitValue(s, Alloca, [ConstInt(size)]), regs[s.nextVreg := t.addr(s.nextVreg)];
      Built(s, s') && s'.nextVreg == s.nextVreg + 1 && Reached(t, s, regs, w, s', env, regs', w, 0)
      && Reads(t, VReg(s.nextVreg), regs', t.addr(s.nextVreg)) && size <= t.bytes(s.nextVreg)
  {
    hide Ok, Sim, Holds, Leads, KeepRegs, SlotsApart, AllReserved, StoreOk, AllocaOk, LoadOk;
    SlotReserved(t, s, size);
    var s', regs' := EmitValue(s, Alloca, [ConstInt(size)]), regs[s.nextVreg := t.addr(s.nextVreg)];
    EmitBuilt(s, Alloca, [ConstInt(size)]);
    assert s'.nextVreg == s.nextVreg + 1;
    AllocaStep(t, s.nextVreg, size, regs, w);
    EmitValueSim(t, s, Alloca, [ConstInt(size)], env, regs, w, t.addr(s.nextVreg));
    assert Kept(t, s.vars, s.nextVreg, w, w);
  }

  // ---------------------------------------------------------------------------------------------
  // Jumps

  function JumpInst(b: nat): Inst { Inst(Jmp, None, [BlockRef(b)]) }

  /** Branch folding: a literal condition, or equal targets, make a plain jump. */
  function BranchInst(v: Value, a: nat, b: nat): Inst {
    if v.ConstBool? then JumpInst(if v.b then a else b)
    else if a == b then JumpInst(a)
    else Inst(Br, None, [v, BlockRef(a), BlockRef(b)])
  }

  /** A branch is needed only where it decides something. */
  lemma BranchIfUndecided(v: Value, a: nat, b: nat)
    ensures BranchInst(v, a, b).op.Br? <==> !v.ConstBool? && a != b
    ensures BranchInst(v, a, a) == JumpInst(a)
    ensures BranchInst(ConstBool(true), a, b) == JumpInst(a) && BranchInst(ConstBool(false), a, b) == JumpInst(b)
  {}

  lemma JumpStep(m: Machine, params: seq<i64>, b: nat, regs: Regs, w: World)
    ensures Step(m, params, JumpInst(b), regs, w) == Jump(b)
  {
    hide Compute;
    var ops := [BlockRef(b)];
    assert EvalOperand(m, ops[0], regs) == Some(Blk(b));
    assert EvalAll(m, ops, regs).value == [Blk(b)];
  }

  lemma BranchStep(t: Setting, v: Value, a: nat, b: nat, regs: Regs, w: World, x: i64)
    requires Reads(t, v, regs, x)
    ensures Step(t.m, t.params, BranchInst(v, a, b), regs, w) == Jump(if x != 0 then a else b)
  {
    hide Compute;
    if v.ConstBool? || a == b {
      JumpStep(t.m, t.params, if x != 0 then a else b, regs, w);
    } else {
      var ops := [v, BlockRef(a), BlockRef(b)];
      assert EvalOperand(t.m, ops[0], regs) == Some(Int(x));
      assert EvalOperand(t.m, ops[1], regs) == Some(Blk(a)) && EvalOperand(t.m, ops[2], regs) == Some(Blk(b));
      assert EvalAll(t.m, ops, regs).value == [Int(x), Blk(a), Blk(b)];
    }
  }

  /** The state after leaving the current block. */
  ghost predicate Left(s: State, s': State) {
    && Ok(s') && Grows(s, s') && Local(s, s') && s'.vars == s.vars && s'.loopCond == s.loopCond
    && s'.loopExit == s.loopExit
    && s'.cur == s.cur && s'.nextBlock == s.nextBlock && s'.nextVreg == s.nextVreg
  }

  lemma LeaveBlock(s: State, inst: Inst)
    requires Ok(s) && InstBelow(inst, s.nextVreg)
    ensures Left(s, Emit(s, inst))
  {
    hide InstBelow, CellsDiffer, BindingBelow, BlockBelow;
    EmitKeepsOk(s, inst);
  }

  // ---------------------------------------------------------------------------------------------
  // Composing steps that change the block

  /** From the insertion point of `s` the run has come to `x`, leaving the rest alone. */
  ghost predicate Since(t: Setting, s: State, regs: Regs, w: World, x: Point, c: nat) {
    && IsOpen(s) && KeepRegs(s.nextVreg, regs, x.regs) && Kept(t, s.vars, s.nextVreg, w, x.w)
    && Leads(t, Here(s, regs, w), x, c)
  }

  /** The bindings of `s1` are those of `s` or have been made since. */
  ghost predicate Newer(s: State, s1: State) {
    s.nextVreg <= s1.nextVreg && forall p: nat | IsCell(s1.vars, p) :: p >= s.nextVreg || IsCell(s.vars, p)
  }

  lemma BuiltIsNewer(s: State, s1: State)
    requires Built(s, s1)
    ensures Newer(s, s1)
  {
    hide IsCell;
  }

  lemma SinceReached(t: Setting, s: State, regs: Regs, w: World, s1: State, regs1: Regs, w1: World, c: nat, s2: State,
        env2: S.Env, regs2: Regs, w2: World, d: nat)
    requires IsOpen(s1) && Since(t, s, regs, w, Here(s1, regs1, w1), c)
    requires Reached(t, s1, regs1, w1, s2, env2, regs2, w2, d) && Newer(s, s1)
    ensures Since(t, s, regs, w, Here(s2, regs2, w2), c + d)
  {
    hide Sim, KeepRegs, Kept, Leads, IsCell;
    KeepRegsTransitive(s.nextVreg, regs, regs1, s1.nextVreg, regs2);
    KeptTransitive(t, s.vars, s.nextVreg, w, w1, s1.vars, s1.nextVreg, w2);
    LeadsTransitive(t, Here(s, regs, w), Here(s1, regs1, w1), Here(s2, regs2, w2), c, d);
  }

  /** A store since then, to a cell of a variable or to a cell that is new. */
  lemma SinceStore(t: Setting, s: State, regs: Regs, w: World, x: Point, c: nat, p: nat, v: i64, y: Point)
    requires Since(t, s, regs, w, x, c) && Leads(t, x, y, 0) && y.regs == x.regs
    requires y.w == x.w.(mem := x.w.mem[t.addr(p) := v])
    requires p < t.size && t.bytes(p) > 0 && (p >= s.nextVreg || IsCell(s.vars, p))
    ensures Since(t, s, regs, w, y, c)
  {
    hide KeepRegs, Kept, Leads, IsCell;
    StoreKept(t, s.vars, s.nextVreg, p, x.w, v);
    KeptTransitive(t, s.vars, s.nextVreg, w, x.w, s.vars, s.nextVreg, y.w);
    LeadsTransitive(t, Here(s, regs, w), x, y, c, 0);
  }

  lemma SinceIsReached(t: Setting, s: State, regs: Regs, w: World, s': State, env': S.Env, regs': Regs, w': World,
        c: nat)
    requires IsOpen(s') && Since(t, s, regs, w, Here(s', regs', w'), c) && Sim(t, s', env', regs', w')
    ensures Reached(t, s, regs, w, s', env', regs', w', c)
  {}
}
