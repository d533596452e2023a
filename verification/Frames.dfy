/** How a point of a run of generated code mirrors the variables of the source: registers, frame cells,
    and the last store of the current block. */
module Frames {
  import opened Sir
  import opened Builder
  import S = Source

  // ---------------------------------------------------------------------------------------------
  // Frame memory

  /** `n` bytes hold the number, in two's complement. */
  predicate Fits(v: int, n: nat) {
    if n >= 8 then -TWO_63 <= v < TWO_63
    else if n >= 4 then -0x8000_0000 <= v < 0x8000_0000
    else if n >= 2 then -0x8000 <= v < 0x8000
    else n == 1 && -0x80 <= v < 0x80
  }

  /** No byte belongs to two slots. */
  ghost predicate SlotsApart(t: Setting) {
    forall p: nat, q: nat | p < t.size && q < t.size && p != q ::
      t.addr(p) + t.bytes(p) <= t.addr(q) || t.addr(q) + t.bytes(q) <= t.addr(p)
  }

  predicate Reserves(t: Setting, inst: Inst) {
    inst.op.Alloca? && inst.dest.Some? && |inst.ops| == 1 && inst.ops[0].ConstInt? ==>
      inst.ops[0].i <= t.bytes(inst.dest.value)
  }

  /** A slot has as many bytes as the code asks for, which may be none. */
  ghost predicate AllReserved(t: Setting) {
    forall b, k | b in t.g.body && 0 <= k < |t.g.body[b]| :: Reserves(t, t.g.body[b][k])
  }

  ghost predicate AllocaOk(t: Setting) {
    forall size: i64, p: nat, w: World | p < t.size && size <= t.bytes(p) ::
      t.m.effect(Alloca, [Int(size), Blk(p)], w) == Done(t.addr(p), w)
  }

  /** A slot keeps what fits into its bytes; nothing is said of a store of anything else. */
  ghost predicate StoreOk(t: Setting) {
    forall v: i64, p: nat, w: World | p < t.size && Fits(v, t.bytes(p)) ::
      t.m.effect(Store, [Int(v), Int(t.addr(p))], w) == Done(0, w.(mem := w.mem[t.addr(p) := v]))
  }

  ghost predicate LoadOk(t: Setting) {
    forall p: nat, w: World | p < t.size && t.addr(p) in w.mem && Fits(w.mem[t.addr(p)], t.bytes(p)) ::
      t.m.load([Int(t.addr(p))], w) == Some(w.mem[t.addr(p)])
  }

  /** The frame has the bytes the code asks for, apart from one another, and the machine's allocation, store and load
      work on them. */
  ghost predicate FrameOk(t: Setting) {
    SlotsApart(t) && AllReserved(t) && AllocaOk(t) && StoreOk(t) && LoadOk(t)
  }

  ghost predicate SameAt(a: int, w: World, w': World) {
    (a in w.mem <==> a in w'.mem) && (a in w.mem ==> w'.mem[a] == w.mem[a])
  }

  ghost predicate IsCell(vars: map<nat, Binding>, p: nat) { exists x | x in vars :: vars[x] == Cell(p) }

  /** Code built when `vars` was bound and slots below `n` were taken may write this address. */
  ghost predicate MayTouch(t: Setting, vars: map<nat, Binding>, n: nat, a: int) {
    exists p: nat :: p < t.size && t.bytes(p) > 0 && t.addr(p) == a && (p >= n || IsCell(vars, p))
  }

  /** Nothing outside has changed. */
  ghost predicate Kept(t: Setting, vars: map<nat, Binding>, n: nat, w: World, w': World) {
    w'.output == w.output && w'.input == w.input && forall a: int | !MayTouch(t, vars, n, a) :: SameAt(a, w, w')
  }

  ghost predicate KeepRegs(n: nat, regs: Regs, regs': Regs) {
    forall v: nat | v < n :: (v in regs <==> v in regs') && (v in regs ==> regs'[v] == regs[v])
  }

  lemma KeptTransitive(t: Setting, vars: map<nat, Binding>, n: nat, w: World, w1: World, vars1: map<nat, Binding>,
        n1: nat, w2: World)
    requires Kept(t, vars, n, w, w1) && Kept(t, vars1, n1, w1, w2) && n <= n1
    requires forall p: nat | IsCell(vars1, p) :: p >= n || IsCell(vars, p)
    ensures Kept(t, vars, n, w, w2)
  {
    hide IsCell, MayTouch;
    forall a: int | !MayTouch(t, vars, n, a)
      ensures SameAt(a, w, w2)
    {
      TouchesEarlier(t, vars, n, vars1, n1, a);
      assert SameAt(a, w, w1) && SameAt(a, w1, w2);
    }
  }

  lemma TouchesEarlier(t: Setting, vars: map<nat, Binding>, n: nat, vars1: map<nat, Binding>, n1: nat, a: int)
    requires n <= n1 && forall p: nat | IsCell(vars1, p) :: p >= n || IsCell(vars, p)
    ensures MayTouch(t, vars1, n1, a) ==> MayTouch(t, vars, n, a)
  {
    hide IsCell;
  }

  lemma KeepRegsTransitive(n: nat, regs: Regs, regs1: Regs, n1: nat, regs2: Regs)
    requires KeepRegs(n, regs, regs1) && KeepRegs(n1, regs1, regs2) && n <= n1
    ensures KeepRegs(n, regs, regs2)
  {}

  // ---------------------------------------------------------------------------------------------
  // Variables

  /** An integer takes eight bytes, a truth value one. */
  function Width(v: S.Val): nat { if v.I? then 8 else 1 }

  lemma EncFits(v: S.Val, n: nat)
    requires Width(v) <= n
    ensures Fits(S.Enc(v), n)
  {}

  ghost predicate Lives(t: Setting, b: Binding, v: S.Val, regs: Regs, w: World) {
    match b
    case Direct(op) => EvalOperand(t.m, op, regs) == Some(Int(S.Enc(v)))
    case Cell(p) =>
      && p < t.size && p in regs && regs[p] == t.addr(p) && Width(v) <= t.bytes(p)
      && t.addr(p) in w.mem && w.mem[t.addr(p)] == S.Enc(v)
  }

  ghost predicate Mirrors(t: Setting, vars: map<nat, Binding>, env: S.Env, regs: Regs, w: World) {
    forall x | x in env :: x in vars && Lives(t, vars[x], env[x], regs, w)
  }

  /** Different variables have different cells. */
  predicate CellsDiffer(vars: map<nat, Binding>) {
    forall x, y | x in vars && y in vars && x != y && vars[x].Cell? :: vars[x] != vars[y]
  }

  // ---------------------------------------------------------------------------------------------
  // The last store of a block

  /** The value and the pointer of the last store, unless a call or a copy comes after it. */
  function Pending(insts: seq<Inst>): Option<(Value, Value)> {
    if insts == [] then None
    else
      var last := insts[|insts| - 1];
      if last.op.Store? then (if |last.ops| == 2 then Some((last.ops[0], last.ops[1])) else None)
      else if last.op.Call? || last.op.Memcpy? then None
      else Pending(insts[..|insts| - 1])
  }

  /** A store is pending until another store, a call or a copy. */
  lemma {:induction false} StoreIsPending(insts: seq<Inst>, k: nat)
    requires k < |insts| && insts[k].op.Store? && |insts[k].ops| == 2
    requires forall j | k < j < |insts| :: !insts[j].op.Store? && !insts[j].op.Call? && !insts[j].op.Memcpy?
    ensures Pending(insts) == Some((insts[k].ops[0], insts[k].ops[1]))
    decreases |insts|
  {
    if k < |insts| - 1 {
      assert insts[|insts| - 1] == insts[..|insts|][|insts| - 1];
      StoreIsPending(insts[..|insts| - 1], k);
    }
  }

  /** Memory still holds what the block stored last. */
  ghost predicate StoreHolds(t: Setting, insts: seq<Inst>, regs: Regs, w: World) {
    match Pending(insts)
    case None => true
    case Some(p) =>
      var v, a := EvalOperand(t.m, p.0, regs), EvalOperand(t.m, p.1, regs);
      v.Some? && v.value.Int? && a.Some? && a.value.Int? && a.value.v in w.mem && w.mem[a.value.v] == v.value.v
  }

  ghost predicate Sim(t: Setting, s: State, env: S.Env, regs: Regs, w: World) {
    s.cur in s.body && Mirrors(t, s.vars, env, regs, w) && StoreHolds(t, s.body[s.cur], regs, w)
  }

  ghost predicate Ok(s: State) { Valid(s) && CellsDiffer(s.vars) }

  lemma {:induction false} PendingBelow(insts: seq<Inst>, n: nat)
    requires BlockBelow(insts, n) && Pending(insts).Some?
    ensures ValueBelow(Pending(insts).value.0, n) && ValueBelow(Pending(insts).value.1, n)
  {
    var k := |insts| - 1;
    if insts[k].op.Store? {
      assert InstBelow(insts[k], n);
    } else {
      PendingBelow(insts[..k], n);
    }
  }

  lemma OperandKept(m: Machine, v: Value, n: nat, regs: Regs, regs': Regs)
    requires ValueBelow(v, n) && KeepRegs(n, regs, regs')
    ensures EvalOperand(m, v, regs') == EvalOperand(m, v, regs)
  {}

  /** Writing registers above the counter disturbs no variable and no pending store. */
  lemma MirrorsKept(t: Setting, s: State, env: S.Env, regs: Regs, regs': Regs, w: World)
    requires Ok(s) && Mirrors(t, s.vars, env, regs, w) && KeepRegs(s.nextVreg, regs, regs')
    ensures Mirrors(t, s.vars, env, regs', w)
  {
    hide EvalOperand;
    forall x | x in env
      ensures Lives(t, s.vars[x], env[x], regs', w)
    {
      assert BindingBelow(s.vars[x], s.nextVreg);
      assert Lives(t, s.vars[x], env[x], regs, w);
      if s.vars[x].Direct? { OperandKept(t.m, s.vars[x].v, s.nextVreg, regs, regs'); }
    }
  }

  lemma StoreHoldsKept(t: Setting, insts: seq<Inst>, n: nat, regs: Regs, regs': Regs, w: World)
    requires BlockBelow(insts, n) && StoreHolds(t, insts, regs, w) && KeepRegs(n, regs, regs')
    ensures StoreHolds(t, insts, regs', w)
  {
    hide EvalOperand, BlockBelow, Pending;
    if Pending(insts).Some? {
      PendingBelow(insts, n);
      OperandKept(t.m, Pending(insts).value.0, n, regs, regs');
      OperandKept(t.m, Pending(insts).value.1, n, regs, regs');
    }
  }

  // ---------------------------------------------------------------------------------------------
  // One emitted instruction

  lemma EmitKeepsOk(s: State, inst: Inst)
    requires Ok(s) && InstBelow(inst, s.nextVreg)
    ensures Ok(Emit(s, inst)) && Grows(s, Emit(s, inst))
  {
    hide InstBelow, CellsDiffer, BindingBelow;
    EmitGrows(s, inst);
  }

  lemma EmitValueKeepsOk(s: State, op: Opcode, ops: seq<Value>)
    requires Ok(s) && forall k | 0 <= k < |ops| :: ValueBelow(ops[k], s.nextVreg)
    ensures var e := EmitValue(s, op, ops); Ok(e) && Grows(s, e)
  {
    var s1 := s.(nextVreg := s.nextVreg + 1);
    assert Ok(s1) by {
      forall b | b in s1.body ensures BlockBelow(s1.body[b], s1.nextVreg) {
        forall k | 0 <= k < |s.body[b]| ensures InstBelow(s.body[b][k], s1.nextVreg) {
          assert BlockBelow(s.body[b], s.nextVreg) && InstBelow(s.body[b][k], s.nextVreg);
        }
      }
      forall x | x in s1.vars
        ensures BindingBelow(s1.vars[x], s1.nextVreg)
      {
        assert BindingBelow(s.vars[x], s.nextVreg);
      }
    }
    EmitKeepsOk(s1, Inst(op, Some(s.nextVreg), ops));
  }

  /** An emitted computation leaves its result in a fresh register and disturbs nothing. */
  lemma EmitValueSim(t: Setting, s: State, op: Opcode, ops: seq<Value>, env: S.Env, regs: Regs, w: World, x: i64)
    requires Ok(s) && IsOpen(s) && Sim(t, s, env, regs, w) && Holds(t.g, EmitValue(s, op, ops))
    requires !op.Store? && !op.Call? && !op.Memcpy?
    requires Step(t.m, t.params, Inst(op, Some(s.nextVreg), ops), regs, w) == Next(x, w)
    ensures var e, regs' := EmitValue(s, op, ops), regs[s.nextVreg := x];
      && Leads(t, Here(s, regs, w), Here(e, regs', w), 0) && Sim(t, e, env, regs', w)
      && KeepRegs(s.nextVreg, regs, regs')
  {
    hide Step, Leads, Mirrors, StoreHolds;
    var inst := Inst(op, Some(s.nextVreg), ops);
    var e, regs' := EmitValue(s, op, ops), regs[s.nextVreg := x];
    HoldsSameBody(t.g, e, Emit(s, inst));
    EmitLeads(t, s, inst, regs, w, x, w);
    MirrorsKept(t, s, env, regs, regs', w);
    StoreHoldsKept(t, s.body[s.cur], s.nextVreg, regs, regs', w);
    PendingSkips(t, s.body[s.cur], inst, regs', w);
  }

  lemma HoldsSameBody(g: Func, s: State, s': State)
    requires Holds(g, s) && s'.body == s.body
    ensures Holds(g, s')
  {}

  lemma PendingSkips(t: Setting, insts: seq<Inst>, inst: Inst, regs: Regs, w: World)
    requires !inst.op.Store? && !inst.op.Call? && !inst.op.Memcpy? && StoreHolds(t, insts, regs, w)
    ensures StoreHolds(t, insts + [inst], regs, w)
  {
    hide EvalOperand;
    assert (insts + [inst])[..|insts|] == insts;
  }

  // ---------------------------------------------------------------------------------------------
  // Steps on frame cells

  lemma AllocaStep(t: Setting, p: nat, size: i64, regs: Regs, w: World)
    requires AllocaOk(t) && p < t.size && size <= t.bytes(p)
    ensures Step(t.m, t.params, Inst(Alloca, Some(p), [ConstInt(size)]), regs, w) == Next(t.addr(p), w)
  {
    hide Compute;
    var ops := [ConstInt(size)];
    assert EvalOperand(t.m, ops[0], regs) == Some(Int(size));
    assert EvalAll(t.m, ops, regs).value == [Int(size)];
    assert Tagged(Inst(Alloca, Some(p), ops), [Int(size)]) == [Int(size), Blk(p)];
    assert t.m.effect(Alloca, [Int(size), Blk(p)], w) == Done(t.addr(p), w);
  }

  lemma StoreStep(t: Setting, v: Value, ptr: Value, p: nat, x: i64, regs: Regs, w: World)
    requires StoreOk(t) && p < t.size && Fits(x, t.bytes(p)) && EvalOperand(t.m, v, regs) == Some(Int(x))
    requires EvalOperand(t.m, ptr, regs) == Some(Int(t.addr(p)))
    ensures Step(t.m, t.params, Inst(Store, None, [v, ptr]), regs, w) == Next(0, w.(mem := w.mem[t.addr(p) := x]))
  {
    hide Compute, EvalOperand;
    var ops := [v, ptr];
    assert EvalAll(t.m, ops, regs).value == [Int(x), Int(t.addr(p))];
    assert t.m.effect(Store, [Int(x), Int(t.addr(p))], w) == Done(0, w.(mem := w.mem[t.addr(p) := x]));
  }

  lemma LoadStep(t: Setting, ptr: Value, p: nat, x: i64, d: nat, regs: Regs, w: World)
    requires LoadOk(t) && p < t.size && EvalOperand(t.m, ptr, regs) == Some(Int(t.addr(p)))
    requires t.addr(p) in w.mem && w.mem[t.addr(p)] == x && Fits(x, t.bytes(p))
    ensures Step(t.m, t.params, Inst(Load, Some(d), [ptr]), regs, w) == Next(x, w)
  {
    hide Compute, EvalOperand;
    var ops := [ptr];
    assert EvalAll(t.m, ops, regs).value == [Int(t.addr(p))];
    assert t.m.load([Int(t.addr(p))], w) == Some(w.mem[t.addr(p)]);
  }
}
