/** Running a function out of machine registers and stack slots. */
module AllocSim {
  import opened Sir
  import opened Liveness
  import opened Interference
  import opened Coloring
  import opened RegAlloc

  datatype Loc = PhysReg(c: int) | StackSlot(v: nat)

  type Store = map<Loc, i64>

  /** Where a virtual register lives: its colour, or a slot of its own. */
  function Home(colors: seq<int>, v: nat): Loc {
    if v < |colors| && colors[v] >= 0 then PhysReg(colors[v]) else StackSlot(v)
  }

  function LEvalOperand(m: Machine, v: Value, colors: seq<int>, store: Store): Option<Arg> {
    match v
    case VReg(r) => if Home(colors, r) in store then Some(Int(store[Home(colors, r)])) else None
    case ConstInt(i) => Some(Int(i))
    case ConstBool(b) => Some(Int(if b then 1 else 0))
    case Global(n) => Some(Int(m.addr(n)))
    case BlockRef(b) => Some(Blk(b))
  }

  function LEvalAll(m: Machine, ops: seq<Value>, colors: seq<int>, store: Store): Option<seq<Arg>> {
    if forall k | 0 <= k < |ops| :: LEvalOperand(m, ops[k], colors, store).Some? then
      Some(seq(|ops|, k requires 0 <= k < |ops| => LEvalOperand(m, ops[k], colors, store).value))
    else None
  }

  /** What a call leaves in caller-saved register `c`. */
  type Junk = (Opcode, seq<Arg>, World, int) -> i64

  function Clobber(store: Store, junk: Junk, op: Opcode, args: seq<Arg>, w: World): Store {
    if op.IsCallLike() then
      store[PhysReg(7) := junk(op, args, w, 7)][PhysReg(8) := junk(op, args, w, 8)]
           [PhysReg(9) := junk(op, args, w, 9)][PhysReg(10) := junk(op, args, w, 10)]
    else store
  }

  /** The machine register of a colour, by its number in instructions. */
  function Hardware(c: nat): nat
    requires c < NUM_PHYS_REGS
  {
    [3, 6, 7, 12, 13, 14, 15, 8, 9, 10, 11][c]
  }

  /** Registers a callee may change under the Microsoft x64 calling convention: RAX, RCX, RDX and R8 to R11. */
  predicate Volatile(r: nat) { r == 0 || r == 1 || r == 2 || 8 <= r <= 11 }

  /** Colours are registers of their own, RAX, RCX, RDX, RSP and RBP not among them, and those a register may not have
      that is needed across a call are the volatile ones. */
  lemma ColorsAreRegisters(c: nat, c': nat)
    requires c < NUM_PHYS_REGS && c' < NUM_PHYS_REGS
    ensures Hardware(c) < 16 && Hardware(c) !in {0, 1, 2, 4, 5} && (c != c' ==> Hardware(c) != Hardware(c'))
    ensures Volatile(Hardware(c)) <==> c >= CALLEE_SAVED
  {}

  /** Operations compiled to a call of another function or of the system. */
  predicate CallsOut(op: Opcode) {
    op in {Call, SysAlloc, SysFree, SysWrite, SysRead, SysExit}
  }

  /** A call leaves the other registers and all slots as they are, and anything in the volatile ones; what is not
      compiled to a call leaves them all. */
  lemma CallsChangeVolatile(store: Store, junk: Junk, op: Opcode, args: seq<Arg>, w: World, home: Loc)
    requires home.PhysReg? ==> 0 <= home.c < NUM_PHYS_REGS
    ensures var after := Clobber(store, junk, op, args, w);
      if CallsOut(op) && home.PhysReg? && Volatile(Hardware(home.c)) then
        home in after && after[home] == junk(op, args, w, home.c)
      else (home in after <==> home in store) && (home in store ==> after[home] == store[home])
  {
    hide Hardware, Volatile;
    if home.PhysReg? { ColorsAreRegisters(home.c, home.c); }
  }

  function LWrite(store: Store, colors: seq<int>, dest: Option<nat>, v: i64): Store {
    match dest
    case None => store
    case Some(d) => store[Home(colors, d) := v]
  }

  datatype LBlockResult = LGoto(id: nat, store: Store, w: World) | LEnd(o: Outcome)

  function LRunBlock(m: Machine, junk: Junk, colors: seq<int>, params: seq<i64>, insts: seq<Inst>, store: Store,
        w: World): LBlockResult {
    if insts == [] then LEnd(Fault)
    else
      match LEvalAll(m, insts[0].ops, colors, store)
      case None => LEnd(Fault)
      case Some(args) =>
        match Exec(m, params, insts[0].op, Tagged(insts[0], args), w)
        case Next(v, w') =>
          LRunBlock(m, junk, colors, params, insts[1..],
                    LWrite(Clobber(store, junk, insts[0].op, args, w), colors, insts[0].dest, v), w')
        case Jump(b) => LGoto(b, store, w)
        case Finish(o) => LEnd(o)
  }

  function LRun(m: Machine, junk: Junk, colors: seq<int>, f: Func, params: seq<i64>, b: nat, store: Store, w: World,
        fuel: nat): Outcome
    decreases fuel
  {
    if fuel == 0 then OutOfFuel
    else if b !in f.body then Fault
    else
      match LRunBlock(m, junk, colors, params, f.body[b], store, w)
      case LEnd(o) => o
      case LGoto(b', store', w') => LRun(m, junk, colors, f, params, b', store', w', fuel - 1)
  }

  /** A run that starts with whatever `store` happens to hold. */
  function LRunFunc(m: Machine, junk: Junk, colors: seq<int>, f: Func, params: seq<i64>, store: Store, w: World,
        fuel: nat): Outcome {
    if f.order == [] then Fault else LRun(m, junk, colors, f, params, f.order[0], store, w, fuel)
  }

  /** More fuel does not change an end that has been reached. */
  lemma {:induction false} LRunMoreFuel(m: Machine, junk: Junk, colors: seq<int>, f: Func, params: seq<i64>, b: nat,
        store: Store, w: World, n: nat, k: nat)
    requires n <= k && LRun(m, junk, colors, f, params, b, store, w, n) != OutOfFuel
    ensures LRun(m, junk, colors, f, params, b, store, w, k) == LRun(m, junk, colors, f, params, b, store, w, n)
    decreases n
  {
    hide LRunBlock;
    if b in f.body {
      match LRunBlock(m, junk, colors, params, f.body[b], store, w)
      case LEnd(_) =>
      case LGoto(b', store', w') => LRunMoreFuel(m, junk, colors, f, params, b', store', w', n - 1, k - 1);
    }
  }

  // ---------------------------------------------------------------------------------------------
  // Simulation

  /** The home of every register that is written and still needed holds its value. */
  ghost predicate Agree(f: Func, maxVreg: nat, colors: seq<int>, b: nat, i: nat, regs: Regs, store: Store)
    requires b in f.body && i <= |f.body[b]|
  {
    forall v: nat | 1 <= v <= maxVreg && v in regs && LiveBefore(f, b, i, v) ::
      Home(colors, v) in store && store[Home(colors, v)] == regs[v]
  }

  lemma {:induction false} LiveBeforeIsLiveIn(f: Func, b: nat, i: nat, v: nat)
    requires b in f.body && i <= |f.body[b]| && LiveBefore(f, b, i, v) && !Writes(f.body[b][..i], v)
    ensures IsLiveIn(f, b, v)
    decreases |f.body[b]| - i
  {
    if i == |f.body[b]| {
      assert f.body[b][..i] == f.body[b];
      LiveOutIsLiveIn(f, b, v);
    } else if VReg(v) in f.body[b][i].ops {
      ReadHereIsLiveIn(f, b, v);
    } else {
      ReadsFirstExtend(f.body[b], i, v);
      LiveBeforeIsLiveIn(f, b, i + 1, v);
    }
  }

  /** Operands read the same values from the registers' homes. */
  lemma OperandsAgree(m: Machine, f: Func, maxVreg: nat, colors: seq<int>, b: nat, i: nat, regs: Regs, store: Store)
    requires Numbered(f, maxVreg) && b in f.body && i < |f.body[b]|
    requires Agree(f, maxVreg, colors, b, i, regs, store)
    requires EvalAll(m, f.body[b][i].ops, regs).Some?
    ensures LEvalAll(m, f.body[b][i].ops, colors, store) == EvalAll(m, f.body[b][i].ops, regs)
  {
    var ops := f.body[b][i].ops;
    forall k | 0 <= k < |ops|
      ensures LEvalOperand(m, ops[k], colors, store) == EvalOperand(m, ops[k], regs)
    {
      if ops[k].VReg? { assert VReg(ops[k].r) in ops; }
    }
    assert LEvalAll(m, ops, colors, store).value == EvalAll(m, ops, regs).value;
  }

  /** Writing one register, and losing the caller-saved ones to a call, keeps the agreement. */
  lemma StepAgrees(f: Func, maxVreg: nat, colors: seq<int>, b: nat, i: nat, regs: Regs, store: Store, junk: Junk,
        args: seq<Arg>, w: World, v: i64)
    requires ValidAllocation(f, maxVreg, colors) && Numbered(f, maxVreg) && b in f.body && i < |f.body[b]|
    requires Agree(f, maxVreg, colors, b, i, regs, store)
    ensures Agree(f, maxVreg, colors, b, i + 1, Write(regs, f.body[b][i].dest, v),
                  LWrite(Clobber(store, junk, f.body[b][i].op, args, w), colors, f.body[b][i].dest, v))
  {
    var inst := f.body[b][i];
    var regs' := Write(regs, inst.dest, v);
    var mid := Clobber(store, junk, inst.op, args, w);
    var store' := LWrite(mid, colors, inst.dest, v);
    forall u: nat | 1 <= u <= maxVreg && u in regs' && LiveBefore(f, b, i + 1, u)
      ensures Home(colors, u) in store' && store'[Home(colors, u)] == regs'[u]
    {
      if inst.dest != Some(u) {
        assert LiveBefore(f, b, i, u);
        if inst.op.IsCallLike() {
          assert SurvivesCallAt(f, b, i, u);
        }
        assert mid[Home(colors, u)] == store[Home(colors, u)];
        if inst.dest.Some? {
          assert Clashes(f, b, i, inst.dest.value, u);
          assert Interferes(f, inst.dest.value, u);
        }
      }
    }
  }

  /** Entering a successor keeps the agreement. */
  lemma JumpAgrees(f: Func, maxVreg: nat, colors: seq<int>, b: nat, i: nat, regs: Regs, store: Store, b': nat)
    requires WellFormed(f) && b in f.body && i == |f.body[b]| - 1 >= 0 && f.body[b][i].op.IsTerminator()
    requires b' in Successors(f.body[b])
    requires Agree(f, maxVreg, colors, b, i, regs, store)
    ensures b' in f.body && Agree(f, maxVreg, colors, b', 0, regs, store)
  {
    assert ShapeOk(f.body[b][i]);
    forall v: nat | 1 <= v <= maxVreg && v in regs && LiveBefore(f, b', 0, v)
      ensures LiveBefore(f, b, i, v)
    {
      LiveBeforeIsLiveIn(f, b', 0, v);
      assert IsLiveOut(f, b, v);
      assert LiveBefore(f, b, i + 1, v);
    }
  }

  ghost predicate Matches(f: Func, maxVreg: nat, colors: seq<int>, r: BlockResult, lr: LBlockResult) {
    match r
    case End(o) => o == Fault || lr == LEnd(o)
    case Goto(b, regs, w) =>
      && b in f.body && lr.LGoto? && lr.id == b && lr.w == w
      && Agree(f, maxVreg, colors, b, 0, regs, lr.store)
  }

  lemma {:induction false} BlockSimulates(m: Machine, junk: Junk, f: Func, maxVreg: nat, colors: seq<int>,
        params: seq<i64>, b: nat, i: nat, regs: Regs, store: Store, w: World)
    requires WellFormed(f) && Numbered(f, maxVreg) && ValidAllocation(f, maxVreg, colors)
    requires b in f.body && i <= |f.body[b]| && Agree(f, maxVreg, colors, b, i, regs, store)
    ensures Matches(f, maxVreg, colors, RunBlock(m, params, f.body[b][i..], regs, w),
                    LRunBlock(m, junk, colors, params, f.body[b][i..], store, w))
    decreases |f.body[b]| - i
  {
    hide Exec, WellFormed, BlockOk, Numbered, ValidAllocation, Agree;
    BlockIsOk(f, b);
    if i < |f.body[b]| && EvalAll(m, f.body[b][i].ops, regs).Some? {
      var inst := f.body[b][i];
      assert f.body[b][i..][0] == inst && f.body[b][i..][1..] == f.body[b][i + 1..];
      OperandsAgree(m, f, maxVreg, colors, b, i, regs, store);
      var args := EvalAll(m, inst.ops, regs).value;
      match Exec(m, params, inst.op, Tagged(inst, args), w)
      case Finish(_) =>
      case Jump(b') =>
        JumpIsTarget(m, params, inst, regs, w);
        JumpAgrees(f, maxVreg, colors, b, i, regs, store, b');
      case Next(v, w') =>
        StepAgrees(f, maxVreg, colors, b, i, regs, store, junk, args, w, v);
        BlockSimulates(m, junk, f, maxVreg, colors, params, b, i + 1, Write(regs, inst.dest, v),
                       LWrite(Clobber(store, junk, inst.op, args, w), colors, inst.dest, v), w');
    }
  }

  lemma {:induction false} RunSimulates(m: Machine, junk: Junk, f: Func, maxVreg: nat, colors: seq<int>,
        params: seq<i64>, b: nat, regs: Regs, store: Store, w: World, fuel: nat)
    requires WellFormed(f) && Numbered(f, maxVreg) && ValidAllocation(f, maxVreg, colors)
    requires b in f.body && Agree(f, maxVreg, colors, b, 0, regs, store)
    ensures var o := Run(m, f, params, b, regs, w, fuel);
      o == Fault || LRun(m, junk, colors, f, params, b, store, w, fuel) == o
    decreases fuel
  {
    hide Exec, WellFormed, Numbered, ValidAllocation, Agree, RunBlock, LRunBlock;
    if fuel > 0 {
      BlockSimulates(m, junk, f, maxVreg, colors, params, b, 0, regs, store, w);
      assert f.body[b][0..] == f.body[b];
      match RunBlock(m, params, f.body[b], regs, w)
      case End(_) =>
      case Goto(b', regs', w') =>
        var store' := LRunBlock(m, junk, colors, params, f.body[b], store, w).store;
        RunSimulates(m, junk, f, maxVreg, colors, params, b', regs', store', w', fuel - 1);
    }
  }

  /** Whatever the machine, the arguments, the initial contents of registers and stack and the values
      calls leave behind: a run from the allocated locations does what the run with one cell per
      virtual register does, block for block, unless the latter faults. */
  lemma AllocationSimulates(m: Machine, junk: Junk, f: Func, maxVreg: nat, colors: seq<int>, params: seq<i64>,
        store: Store, w: World, fuel: nat)
    requires WellFormed(f) && Numbered(f, maxVreg) && ValidAllocation(f, maxVreg, colors)
    ensures RunFunc(m, f, params, w, fuel) != Fault ==>
      LRunFunc(m, junk, colors, f, params, store, w, fuel) == RunFunc(m, f, params, w, fuel)
  {
    assert f.order[0] in f.body by { assert f.order[0] in (set b | b in f.order); }
    RunSimulates(m, junk, f, maxVreg, colors, params, f.order[0], map[], store, w, fuel);
  }
}
