/** SIR, the compiler's three-address code in basic blocks, and its reference semantics.

    Every pass is judged against this semantics.  A run has one cell per virtual register; all
    effects (loads, stores, allocation, calls, system calls) are delegated to a `Machine`, and
    theorems about passes hold for every machine. */
module Sir {

  datatype Option<+T> = None | Some(value: T)

  // ---------------------------------------------------------------------------------------------
  // 64-bit values

  const TWO_63: int := 0x8000_0000_0000_0000
  const TWO_64: int := 0x1_0000_0000_0000_0000

  type i64 = x: int | -0x8000_0000_0000_0000 <= x < 0x8000_0000_0000_0000

  /** Two's complement wrap-around. */
  function Wrap(x: int): (r: i64)
    ensures (r - x) % TWO_64 == 0
    ensures -TWO_63 <= x < TWO_63 ==> r == x
  {
    (x + TWO_63) % TWO_64 - TWO_63
  }

  function Unsigned(x: i64): (u: nat)
    ensures u < TWO_64
  {
    if x < 0 then x + TWO_64 else x
  }

  function Signed(u: nat): i64
    requires u < TWO_64
  {
    if u < TWO_63 then u else u - TWO_64
  }

  function Pow2(n: nat): (p: int)
    ensures p > 0
  {
    if n == 0 then 1 else 2 * Pow2(n - 1)
  }

  // ---------------------------------------------------------------------------------------------
  // Syntax

  datatype Opcode =
    | Add | Sub | Mul | Div | Mod | And | Or | Xor | Shl | Shr
    | IcmpEq | IcmpNe | IcmpLt | IcmpLe | IcmpGt | IcmpGe
    | Alloca | Load | Store | Gep | Memcpy
    | Jmp | Br | Switch | Call | Ret | Trap
    | SysAlloc | SysFree | SysWrite | SysRead | SysExit
    | Cast | GetParam | Select
  {
    predicate IsArith() { Add? || Sub? || Mul? || Div? || Mod? || And? || Or? || Xor? || Shl? || Shr? }

    predicate IsCompare() { IcmpEq? || IcmpNe? || IcmpLt? || IcmpLe? || IcmpGt? || IcmpGe? }

    predicate IsTerminator() { Jmp? || Br? || Switch? || Ret? || Trap? }

    /** The opcodes after which the caller-saved registers are lost. */
    predicate IsCallLike() { Call? || SysAlloc? || SysFree? || SysWrite? || SysRead? || SysExit? }

    /** Opcodes whose result depends on the operands alone. */
    predicate IsPureCompute() { IsArith() || IsCompare() || Cast? || Gep? || Select? }

    predicate IsSideEffectFree() { IsPureCompute() || Load? || GetParam? }
  }

  datatype Value = VReg(r: nat) | ConstInt(i: i64) | ConstBool(b: bool) | Global(name: string) | BlockRef(id: nat)

  datatype Inst = Inst(op: Opcode, dest: Option<nat>, ops: seq<Value>)

  /** `order` is the block list; its head is the entry block. */
  datatype Func = Func(order: seq<nat>, body: map<nat, seq<Inst>>)

  // ---------------------------------------------------------------------------------------------
  // Control-flow graph

  /** The blocks a terminator can reach. */
  function Targets(inst: Inst): set<nat> {
    if inst.op.Jmp? || inst.op.Br? || inst.op.Switch? then
      set k | 0 <= k < |inst.ops| && inst.ops[k].BlockRef? :: inst.ops[k].id
    else {}
  }

  function Successors(insts: seq<Inst>): set<nat> {
    if insts == [] then {} else Targets(insts[|insts| - 1])
  }

  /** Operand counts, destinations and the position of jump targets, as the builder creates them. */
  predicate ShapeOk(inst: Inst) {
    && (inst.op.IsTerminator() ==> inst.dest.None?)
    && (inst.op.IsSideEffectFree() ==> inst.dest.Some?)
    && (inst.op.IsArith() || inst.op.IsCompare() ==> |inst.ops| == 2)
    && (inst.op.Cast? ==> |inst.ops| == 1)
    && (inst.op.Select? || inst.op.Gep? ==> |inst.ops| == 3)
    && (inst.op.IsPureCompute() ==> forall k | 0 <= k < |inst.ops| :: !inst.ops[k].BlockRef?)
    && match inst.op
    case Jmp => |inst.ops| == 1 && inst.ops[0].BlockRef?
    case Br => |inst.ops| == 3 && !inst.ops[0].BlockRef? && inst.ops[1].BlockRef? && inst.ops[2].BlockRef?
    case Switch =>
      && |inst.ops| >= 2 && |inst.ops| % 2 == 0
      && !inst.ops[0].BlockRef? && inst.ops[1].BlockRef?
      && forall k | 2 <= k < |inst.ops| :: if k % 2 == 0 then inst.ops[k].ConstInt? else inst.ops[k].BlockRef?
    case _ => true
  }

  /** Parameters, calls, allocations and returns stay, and what the first three name; registers may be replaced. */
  predicate Alike(x: Inst, y: Inst) {
    && (Keeps(y.op) || y.op.Ret? ==> y.op == x.op && |y.ops| == |x.ops|)
    && (Keeps(y.op) ==> y.dest == x.dest && forall k | 0 <= k < |x.ops| && !x.ops[k].VReg? :: y.ops[k] == x.ops[k])
  }

  predicate Keeps(op: Opcode) { op.GetParam? || op.Call? || op.Alloca? }

  ghost predicate AlikeOneOf(f: Func, b: nat, y: Inst) { b in f.body && exists x :: x in f.body[b] && Alike(x, y) }

  /** Every instruction of `g` is like one of the same block of `f`. */
  ghost predicate Derives(f: Func, g: Func) { forall b, y | b in g.body && y in g.body[b] :: AlikeOneOf(f, b, y) }

  lemma AlikeItself(f: Func, b: nat, y: Inst)
    requires b in f.body && y in f.body[b]
    ensures AlikeOneOf(f, b, y)
  {
    assert Alike(y, y);
  }

  lemma DerivesReflexive(f: Func)
    ensures Derives(f, f)
  {
    hide Alike;
    forall b, y | b in f.body && y in f.body[b] ensures AlikeOneOf(f, b, y) { AlikeItself(f, b, y); }
  }

  lemma DerivesTransitive(f: Func, g: Func, h: Func)
    requires Derives(f, g) && Derives(g, h)
    ensures Derives(f, h)
  {
    hide Alike;
    forall b, z | b in h.body && z in h.body[b]
      ensures AlikeOneOf(f, b, z)
    {
      assert AlikeOneOf(g, b, z);
      var y :| y in g.body[b] && Alike(y, z);
      assert AlikeOneOf(f, b, y);
      var x :| x in f.body[b] && Alike(x, y);
      AlikeTransitive(x, y, z);
    }
  }

  lemma AlikeTransitive(x: Inst, y: Inst, z: Inst)
    requires Alike(x, y) && Alike(y, z)
    ensures Alike(x, z)
  {}

  predicate BlockOk(insts: seq<Inst>) {
    && (forall k | 0 <= k < |insts| - 1 :: !insts[k].op.IsTerminator())
    && (forall k | 0 <= k < |insts| :: ShapeOk(insts[k]))
  }

  /** What the builder guarantees: distinct blocks, terminators only at the end of a block, jumps
      inside the function. */
  predicate WellFormed(f: Func) {
    && f.order != []
    && (forall i, j | 0 <= i < j < |f.order| :: f.order[i] != f.order[j])
    && (set b | b in f.order) == f.body.Keys
    && (forall b | b in f.body :: BlockOk(f.body[b]))
    && (forall b | b in f.body :: Successors(f.body[b]) <= f.body.Keys)
  }

  // ---------------------------------------------------------------------------------------------
  // Semantics

  datatype World = World(mem: map<int, int>, output: seq<int>, input: seq<int>)

  datatype Arg = Int(v: i64) | Blk(id: nat)

  /** How a run of a function ends.  `Fault` stands for division traps and for reading a register
      that was never written; preservation is claimed for runs that do not end that way. */
  datatype Outcome =
    | Returned(v: i64, w: World)
    | Exited(w: World)
    | Trapped(w: World)
    | Fault
    | OutOfFuel

  datatype Effect = Done(v: i64, w: World) | Stop(o: Outcome)

  /** Everything outside the function: where symbols live, what loads read, and what stores,
      allocations, copies, calls and system calls do. */
  datatype Machine = Machine(
    addr: string -> i64,
    load: (seq<Arg>, World) -> Option<i64>,
    effect: (Opcode, seq<Arg>, World) -> Effect)

  type Regs = map<nat, i64>

  function EvalOperand(m: Machine, v: Value, regs: Regs): Option<Arg> {
    match v
    case VReg(r) => if r in regs then Some(Int(regs[r])) else None
    case ConstInt(i) => Some(Int(i))
    case ConstBool(b) => Some(Int(if b then 1 else 0))
    case Global(n) => Some(Int(m.addr(n)))
    case BlockRef(b) => Some(Blk(b))
  }

  function EvalAll(m: Machine, ops: seq<Value>, regs: Regs): (r: Option<seq<Arg>>)
    ensures r.Some? ==> |r.value| == |ops|
    ensures r.Some? <==> forall k | 0 <= k < |ops| :: EvalOperand(m, ops[k], regs).Some?
    ensures r.Some? ==> forall k | 0 <= k < |ops| :: EvalOperand(m, ops[k], regs) == Some(r.value[k])
  {
    if forall k | 0 <= k < |ops| :: EvalOperand(m, ops[k], regs).Some? then
      Some(seq(|ops|, k requires 0 <= k < |ops| => EvalOperand(m, ops[k], regs).value))
    else None
  }

  /** Operand lists that agree operand by operand evaluate alike. */
  lemma EvalAllCongruent(m: Machine, ops: seq<Value>, regs: Regs, ops': seq<Value>, regs': Regs)
    requires |ops| == |ops'|
    requires forall k | 0 <= k < |ops| :: EvalOperand(m, ops[k], regs) == EvalOperand(m, ops'[k], regs')
    ensures EvalAll(m, ops, regs) == EvalAll(m, ops', regs')
  {
    if EvalAll(m, ops, regs).Some? {
      assert EvalAll(m, ops, regs).value == EvalAll(m, ops', regs').value;
    }
  }

  /** C truncates division toward zero. */
  function TruncDiv(l: int, r: int): int
    requires r != 0
  {
    if l >= 0 then l / r else -((-l) / r)
  }

  /** Integer arithmetic and comparison on 64-bit values; `None` is the processor's divide error. */
  function Binary(op: Opcode, l: i64, r: i64): Option<i64>
    requires op.IsArith() || op.IsCompare()
  {
    match op
    case Add => Some(Wrap(l + r))
    case Sub => Some(Wrap(l - r))
    case Mul => Some(Wrap(l * r))
    case Div => if r == 0 || (l == -TWO_63 && r == -1) then None else Some(Wrap(TruncDiv(l, r)))
    case Mod => if r == 0 || (l == -TWO_63 && r == -1) then None else Some(Wrap(l - TruncDiv(l, r) * r))
    case And => Some(BitOp(op, l, r))
    case Or => Some(BitOp(op, l, r))
    case Xor => Some(BitOp(op, l, r))
    case Shl => Some(Wrap(l * Pow2(r % 64)))
    case Shr => Some(Wrap(l / Pow2(r % 64)))
    case IcmpEq => Some(if l == r then 1 else 0)
    case IcmpNe => Some(if l != r then 1 else 0)
    case IcmpLt => Some(if l < r then 1 else 0)
    case IcmpLe => Some(if l <= r then 1 else 0)
    case IcmpGt => Some(if l > r then 1 else 0)
    case IcmpGe => Some(if l >= r then 1 else 0)
  }

  lemma {:induction false} Pow2Sum(a: nat, b: nat)
    ensures Pow2(a + b) == Pow2(a) * Pow2(b)
  {
    if a > 0 { Pow2Sum(a - 1, b); }
  }

  lemma Pow2Of64()
    ensures Pow2(64) == TWO_64
  {
    assert Pow2(4) == 16;
    Pow2Sum(4, 4);
    Pow2Sum(8, 8);
    Pow2Sum(16, 16);
    Pow2Sum(32, 32);
  }

  /** Conjunction, disjunction or exclusive or of the lowest `n` bits. */
  function Bitwise(op: Opcode, a: nat, b: nat, n: nat): (r: nat)
    requires op.And? || op.Or? || op.Xor?
    ensures r < Pow2(n)
    decreases n
  {
    if n == 0 then 0
    else
      var x, y := a % 2, b % 2;
      2 * Bitwise(op, a / 2, b / 2, n - 1) + if op.And? then (if x == 1 && y == 1 then 1 else 0)
                                             else if op.Or? then (if x == 1 || y == 1 then 1 else 0)
                                             else if x != y then 1 else 0
  }

  function BitOp(op: Opcode, l: i64, r: i64): i64
    requires op.And? || op.Or? || op.Xor?
  {
    Pow2Of64();
    Signed(Bitwise(op, Unsigned(l), Unsigned(r), 64))
  }

  lemma {:induction false} BitwiseCommutes(op: Opcode, a: nat, b: nat, n: nat)
    requires op.And? || op.Or? || op.Xor?
    ensures Bitwise(op, a, b, n) == Bitwise(op, b, a, n)
  {
    if n > 0 { BitwiseCommutes(op, a / 2, b / 2, n - 1); }
  }

  lemma {:induction false} BitwiseWithZero(op: Opcode, a: nat, n: nat)
    requires (op.And? || op.Or? || op.Xor?) && a < Pow2(n)
    ensures Bitwise(op, a, 0, n) == if op.And? then 0 else a
  {
    if n > 0 { BitwiseWithZero(op, a / 2, n - 1); }
  }

  lemma {:induction false} BitwiseWithSelf(op: Opcode, a: nat, n: nat)
    requires (op.And? || op.Or? || op.Xor?) && a < Pow2(n)
    ensures Bitwise(op, a, a, n) == if op.Xor? then 0 else a
  {
    if n > 0 { BitwiseWithSelf(op, a / 2, n - 1); }
  }

  /** The laws of bitwise operations that the optimizer relies on. */
  lemma BitLaws(op: Opcode, x: i64, y: i64)
    requires op.And? || op.Or? || op.Xor?
    ensures BitOp(op, x, y) == BitOp(op, y, x)
    ensures BitOp(op, x, 0) == if op.And? then 0 else x
    ensures BitOp(op, x, x) == if op.Xor? then 0 else x
  {
    hide Bitwise, Pow2;
    Pow2Of64();
    BitwiseCommutes(op, Unsigned(x), Unsigned(y), 64);
    BitwiseWithZero(op, Unsigned(x), 64);
    BitwiseWithSelf(op, Unsigned(x), 64);
  }

  /** Neutral and absorbing operands. */
  lemma Neutral(op: Opcode, l: i64, r: i64)
    ensures op == Add && r == 0 ==> Binary(op, l, r) == Some(l)
    ensures op == Add && l == 0 ==> Binary(op, l, r) == Some(r)
    ensures op == Sub && r == 0 ==> Binary(op, l, r) == Some(l)
    ensures op == Sub && l == r ==> Binary(op, l, r) == Some(0)
    ensures op == Mul && r == 1 ==> Binary(op, l, r) == Some(l)
    ensures op == Mul && l == 1 ==> Binary(op, l, r) == Some(r)
    ensures op == Mul && (l == 0 || r == 0) ==> Binary(op, l, r) == Some(0)
    ensures op == Div && r == 1 ==> Binary(op, l, r) == Some(l)
  {}

  lemma BitwiseIs(op: Opcode, l: i64, r: i64)
    requires op.And? || op.Or? || op.Xor?
    ensures Binary(op, l, r) == Some(BitOp(op, l, r))
  {
    hide BitOp;
  }

  /** The value a pure computation delivers. */
  function Compute(op: Opcode, args: seq<Arg>): Option<i64>
    requires op.IsPureCompute()
  {
    if op.Cast? then
      if |args| == 1 && args[0].Int? then Some(args[0].v) else None
    else if op.Select? then
      if |args| == 3 && args[0].Int? && args[1].Int? && args[2].Int? then
        Some(if args[0].v != 0 then args[1].v else args[2].v)
      else None
    else if op.Gep? then
      if |args| == 3 && args[0].Int? && args[1].Int? && args[2].Int? then
        Some(Wrap(args[0].v + args[1].v * args[2].v))
      else None
    else
      if |args| == 2 && args[0].Int? && args[1].Int? then Binary(op, args[0].v, args[1].v) else None
  }

  datatype StepResult = Next(v: i64, w: World) | Jump(id: nat) | Finish(o: Outcome)

  /** The first case label that equals the scrutinee, scanning pairs from operand `k`. */
  function SwitchTarget(c: i64, args: seq<Arg>, k: nat, fallback: nat): nat
    decreases |args| - k
  {
    if k + 1 >= |args| then fallback
    else if args[k] == Int(c) && args[k + 1].Blk? then args[k + 1].id
    else SwitchTarget(c, args, k + 2, fallback)
  }

  /** One instruction on evaluated operands. */
  function Exec(m: Machine, params: seq<i64>, op: Opcode, args: seq<Arg>, w: World): StepResult {
    if op.IsPureCompute() then
      match Compute(op, args)
      case None => Finish(Fault)
      case Some(v) => Next(v, w)
    else if op.Load? then
      match m.load(args, w)
      case None => Finish(Fault)
      case Some(v) => Next(v, w)
    else if op.GetParam? then
      if |args| == 1 && args[0].Int? && 0 <= args[0].v < |params| then Next(params[args[0].v], w)
      else Finish(Fault)
    else if op.Jmp? then
      if |args| == 1 && args[0].Blk? then Jump(args[0].id) else Finish(Fault)
    else if op.Br? then
      if |args| == 3 && args[0].Int? && args[1].Blk? && args[2].Blk? then
        Jump(if args[0].v != 0 then args[1].id else args[2].id)
      else Finish(Fault)
    else if op.Switch? then
      if |args| >= 2 && args[0].Int? && args[1].Blk? then Jump(SwitchTarget(args[0].v, args, 2, args[1].id))
      else Finish(Fault)
    else if op.Ret? then
      if args == [] then Finish(Returned(0, w))
      else
        match args[0]
        case Blk(_) => Finish(Fault)
        case Int(v) => Finish(Returned(v, w))
    else if op.Trap? then Finish(Trapped(w))
    else
      match m.effect(op, args, w)
      case Done(v, w') => Next(v, w')
      case Stop(o) => Finish(o)
  }

  lemma {:induction false} SwitchTargetIsListed(c: i64, args: seq<Arg>, k: nat, fallback: nat)
    ensures SwitchTarget(c, args, k, fallback) == fallback || Blk(SwitchTarget(c, args, k, fallback)) in args
    decreases |args| - k
  {
    if k + 1 < |args| && !(args[k] == Int(c) && args[k + 1].Blk?) {
      SwitchTargetIsListed(c, args, k + 2, fallback);
    }
  }

  /** An allocation is told its destination register, which names its slot in the frame. */
  function Tagged(inst: Inst, args: seq<Arg>): seq<Arg> {
    if inst.op.Alloca? && inst.dest.Some? then args + [Blk(inst.dest.value)] else args
  }

  /** One instruction. */
  function Step(m: Machine, params: seq<i64>, inst: Inst, regs: Regs, w: World): StepResult {
    match EvalAll(m, inst.ops, regs)
    case None => Finish(Fault)
    case Some(args) => Exec(m, params, inst.op, Tagged(inst, args), w)
  }

  /** A jump goes to one of the instruction's targets. */
  lemma JumpIsTarget(m: Machine, params: seq<i64>, inst: Inst, regs: Regs, w: World)
    requires Step(m, params, inst, regs, w).Jump?
    ensures inst.op.IsTerminator() && Step(m, params, inst, regs, w).id in Targets(inst)
  {
    var args := EvalAll(m, inst.ops, regs).value;
    var b := Exec(m, params, inst.op, args, w).id;
    if inst.op.Switch? {
      SwitchTargetIsListed(args[0].v, args, 2, args[1].id);
    }
    assert Blk(b) in args;
    var k :| 0 <= k < |args| && args[k] == Blk(b);
    assert EvalOperand(m, inst.ops[k], regs) == Some(Blk(b));
    assert inst.ops[k] == BlockRef(b);
  }

  /** An instruction without side effects delivers a value and leaves the world alone, or faults. */
  lemma SideEffectFreeStep(m: Machine, params: seq<i64>, inst: Inst, regs: Regs, w: World)
    requires inst.op.IsSideEffectFree()
    ensures var r := Step(m, params, inst, regs, w); r == Finish(Fault) || (r.Next? && r.w == w)
  {}

  function Write(regs: Regs, dest: Option<nat>, v: i64): Regs {
    match dest
    case None => regs
    case Some(d) => regs[d := v]
  }

  datatype BlockResult = Goto(id: nat, regs: Regs, w: World) | End(o: Outcome)

  /** Runs the instructions of a block; a block that does not end in a terminator is malformed. */
  function RunBlock(m: Machine, params: seq<i64>, insts: seq<Inst>, regs: Regs, w: World): BlockResult {
    if insts == [] then End(Fault)
    else
      match Step(m, params, insts[0], regs, w)
      case Next(v, w') => RunBlock(m, params, insts[1..], Write(regs, insts[0].dest, v), w')
      case Jump(b) => Goto(b, regs, w)
      case Finish(o) => End(o)
  }

  /** Runs from block `b`; fuel counts blocks. */
  function Run(m: Machine, f: Func, params: seq<i64>, b: nat, regs: Regs, w: World, fuel: nat): Outcome
    decreases fuel
  {
    if fuel == 0 then OutOfFuel
    else if b !in f.body then Fault
    else
      match RunBlock(m, params, f.body[b], regs, w)
      case End(o) => o
      case Goto(b', regs', w') => Run(m, f, params, b', regs', w', fuel - 1)
  }

  function RunFunc(m: Machine, f: Func, params: seq<i64>, w: World, fuel: nat): Outcome {
    if f.order == [] then Fault else Run(m, f, params, f.order[0], map[], w, fuel)
  }

  // ---------------------------------------------------------------------------------------------
  // Preservation

  /** Block for block: with the same fuel, `g` ends as `f` does or is still running as `f` is,
      except where `f` faults. */
  ghost predicate Lockstep(f: Func, g: Func) {
    forall m: Machine, params: seq<i64>, w: World, n: nat ::
      RunFunc(m, f, params, w, n) != Fault ==> RunFunc(m, g, params, w, n) == RunFunc(m, f, params, w, n)
  }

  lemma LockstepReflexive(f: Func)
    ensures Lockstep(f, f)
  {}

  lemma LockstepTransitive(f: Func, g: Func, h: Func)
    requires Lockstep(f, g) && Lockstep(g, h)
    ensures Lockstep(f, h)
  {}

  /** The functions behave alike in every respect, block for block. */
  ghost predicate SameRuns(f: Func, g: Func) {
    forall m: Machine, params: seq<i64>, w: World, n: nat :: RunFunc(m, g, params, w, n) == RunFunc(m, f, params, w, n)
  }

  lemma SameRunsReflexive(f: Func)
    ensures SameRuns(f, f)
  {}

  lemma SameRunsTransitive(f: Func, g: Func, h: Func)
    requires SameRuns(f, g) && SameRuns(g, h)
    ensures SameRuns(f, h)
  {}

  lemma SameRunsLockstep(f: Func, g: Func)
    requires SameRuns(f, g)
    ensures Lockstep(f, g)
  {}

  lemma {:induction false} RunMoreFuel(m: Machine, f: Func, params: seq<i64>, b: nat, regs: Regs, w: World, n: nat,
        k: nat)
    requires n <= k
    ensures Run(m, f, params, b, regs, w, n) == OutOfFuel ||
      Run(m, f, params, b, regs, w, k) == Run(m, f, params, b, regs, w, n)
    decreases n
  {
    if n != 0 && b in f.body {
      match RunBlock(m, params, f.body[b], regs, w)
      case End(_) =>
      case Goto(b', regs', w') => RunMoreFuel(m, f, params, b', regs', w', n - 1, k - 1);
    }
  }
}
