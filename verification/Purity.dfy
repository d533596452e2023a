/** Purity analysis: which functions the compile-time virtual machine may run. */
module Purity {
  import opened Sir
  import opened SirModules
  import opened Interpret
  import opened ModulePass

  /** Memory, system and allocation opcodes. */
  predicate Forbidden(op: Opcode) {
    op.Alloca? || op.Load? || op.Store? || op.Gep? || op.Memcpy?
    || op.SysAlloc? || op.SysFree? || op.SysWrite? || op.SysRead? || op.SysExit?
  }

  /** The position of the first function of that name. */
  function IndexOf(mod: Module, name: string): (r: Option<nat>)
    ensures r.Some? ==> r.value < |mod| && mod[r.value].name == name && forall j | 0 <= j < r.value ::
      mod[j].name != name
    ensures r.None? <==> forall j | 0 <= j < |mod| :: mod[j].name != name
  {
    if mod == [] then None
    else if mod[0].name == name then Some(0)
    else
      match IndexOf(mod[1..], name)
      case None => None
      case Some(j) => Some(j + 1)
  }

  /** Given that the functions of `p` are pure, so is the instruction. */
  predicate PureInst(mod: Module, p: set<nat>, inst: Inst) {
    if inst.op.Call? then
      inst.ops != [] && inst.ops[0].Global? && IndexOf(mod, inst.ops[0].name).Some? &&
        IndexOf(mod, inst.ops[0].name).value in p
    else !Forbidden(inst.op)
  }

  predicate PureCode(mod: Module, p: set<nat>, f: Func) {
    forall b, k | b in f.body && 0 <= k < |f.body[b]| :: PureInst(mod, p, f.body[b][k])
  }

  /** The functions of `p` avoid forbidden instructions and call only one another. */
  predicate ClosedUnderCalls(mod: Module, p: set<nat>) {
    forall i | i in p :: i < |mod| && PureCode(mod, p, mod[i].code)
  }

  ghost predicate IsGreatest(mod: Module, p: set<nat>) {
    ClosedUnderCalls(mod, p) && forall s: set<nat> | ClosedUnderCalls(mod, s) :: s <= p
  }

  // ---------------------------------------------------------------------------------------------
  // What purity means

  /** What a pure call can end in: a value, a trap or a fault, never a change of the world. */
  predicate Harmless(o: Outcome, w: World) {
    match o
    case Returned(_, w') => w' == w
    case Trapped(w') => w' == w
    case Exited(_) => false
    case Fault => true
    case OutOfFuel => true
  }

  predicate HarmlessStep(r: StepResult, w: World) {
    match r
    case Next(_, w') => w' == w
    case Jump(_) => true
    case Finish(o) => Harmless(o, w)
  }

  lemma {:induction false} PureBlock(m: Machine, params: seq<i64>, insts: seq<Inst>, regs: Regs, w: World)
    requires forall k, regs: Regs | 0 <= k < |insts| :: HarmlessStep(Step(m, params, insts[k], regs, w), w)
    ensures match RunBlock(m, params, insts, regs, w)
            case Goto(_, _, w') => w' == w
            case End(o) => Harmless(o, w)
  {
    hide Step;
    if insts != [] {
      match Step(m, params, insts[0], regs, w)
      case Next(v, w') =>
        assert forall k | 0 <= k < |insts[1..]| :: insts[1..][k] == insts[k + 1];
        PureBlock(m, params, insts[1..], Write(regs, insts[0].dest, v), w);
      case _ =>
    }
  }

  lemma {:induction false} PureRun(m: Machine, f: Func, params: seq<i64>, b: nat, regs: Regs, w: World, n: nat)
    requires forall b, k, regs: Regs | b in f.body && 0 <= k < |f.body[b]| ::
      HarmlessStep(Step(m, params, f.body[b][k], regs, w), w)
    ensures Harmless(Run(m, f, params, b, regs, w, n), w)
    decreases n
  {
    hide Step, RunBlock;
    if n > 0 && b in f.body {
      PureBlock(m, params, f.body[b], regs, w);
      match RunBlock(m, params, f.body[b], regs, w)
      case Goto(b', regs', w') => PureRun(m, f, params, b', regs', w, n - 1);
      case End(_) =>
    }
  }

  /** No call of a function from a closed set touches memory, output or input, at any depth. */
  lemma {:induction false} PureCallsKeepTheWorld(m: Machine, mod: Module, p: set<nat>, i: nat, params: seq<i64>,
        w: World, n: nat)
    requires ClosedUnderCalls(mod, p) && i in p && Linked(m, Names(mod))
    ensures Harmless(Invoke(m, mod, mod[i], params, w, n), w)
    decreases n, 2
  {
    hide Step, Linked, RunBlock, Run;
    var f := mod[i].code;
    forall b, k, regs: Regs | b in f.body && 0 <= k < |f.body[b]|
      ensures HarmlessStep(Step(Within(m, mod, n), params, f.body[b][k], regs, w), w)
    {
      assert PureInst(mod, p, f.body[b][k]);
      PureStep(m, mod, p, params, f.body[b][k], regs, w, n);
    }
    if f.order != [] { PureRun(Within(m, mod, n), f, params, f.order[0], map[], w, n); }
  }

  lemma {:induction false} PureStep(m: Machine, mod: Module, p: set<nat>, params: seq<i64>, inst: Inst, regs: Regs,
        w: World, n: nat)
    requires ClosedUnderCalls(mod, p) && PureInst(mod, p, inst) && Linked(m, Names(mod))
    ensures HarmlessStep(Step(Within(m, mod, n), params, inst, regs, w), w)
    decreases n, 1
  {
    hide Linked, ClosedUnderCalls, CallIn, Compute;
    var m' := Within(m, mod, n);
    var e := EvalAll(m', inst.ops, regs);
    if e.Some? && inst.op.Call? {
      assert EvalOperand(m', inst.ops[0], regs) == Some(e.value[0]);
      WithinEffect(m, mod, n, Call, e.value, w);
      PureCall(m, mod, p, inst.ops[0].name, e.value, w, n);
    }
  }

  lemma {:induction false} PureCall(m: Machine, mod: Module, p: set<nat>, name: string, args: seq<Arg>, w: World,
        n: nat)
    requires ClosedUnderCalls(mod, p) && IndexOf(mod, name).Some? && IndexOf(mod, name).value in p
    requires Linked(m, Names(mod))
    requires args != [] && args[0] == Int(m.addr(name))
    ensures match CallIn(m, mod, n, args, w) case Done(_, w') => w' == w case Stop(o) => Harmless(o, w)
    decreases n, 0
  {
    hide Linked, ClosedUnderCalls;
    var j := IndexOf(mod, name).value;
    IndexIsLookup(mod, name);
    CallReachesSymbol(m, mod, name);
    if AllInts(args) {
      CallUnfolds(m, mod, n, args, w, mod[j]);
      if n > 0 { PureCallsKeepTheWorld(m, mod, p, j, Ints(args[1..]), w, n - 1); }
    }
  }

  lemma {:induction false} IndexIsLookup(mod: Module, name: string)
    ensures match IndexOf(mod, name)
      case None => Lookup(mod, name) == None
      case Some(j) => Lookup(mod, name) == Some(mod[j])
  {
    if mod != [] && mod[0].name != name { IndexIsLookup(mod[1..], name); }
  }

  /** Some machine lets the operation change the world and go on. */
  ghost predicate MayChange(op: Opcode) {
    exists m: Machine, args: seq<Arg>, w: World ::
      Exec(m, [], op, args, w).Next? && Exec(m, [], op, args, w).w != w
  }

  /** Calls aside, forbidden are what may change the world, reading memory and address arithmetic, and nothing else. */
  lemma ForbiddenExactly(op: Opcode)
    requires !op.Call?
    ensures Forbidden(op) <==> MayChange(op) || op.Load? || op.Gep?
  {
    hide Exec;
    if Forbidden(op) && !op.Load? && !op.Gep? {
      OutsideChanges(op);
    } else if !Forbidden(op) {
      forall m: Machine, args: seq<Arg>, w: World { AllowedKeeps(m, op, args, w); }
    }
  }

  lemma OutsideChanges(op: Opcode)
    requires !op.IsSideEffectFree() && !op.IsTerminator()
    ensures MayChange(op)
  {
    hide Exec;
    var m := Machine(_ => 0, (_, _) => None, (_, _, w: World) => Done(0, World(w.mem, [0], w.input)));
    var w := World(map[], [], []);
    OutsideActs(m, op, [], w);
    assert Exec(m, [], op, [], w) == Next(0, World(map[], [0], []));
  }

  lemma OutsideActs(m: Machine, op: Opcode, args: seq<Arg>, w: World)
    requires !op.IsSideEffectFree() && !op.IsTerminator() && m.effect(op, args, w).Done?
    ensures Exec(m, [], op, args, w) == Next(m.effect(op, args, w).v, m.effect(op, args, w).w)
  {
    hide Compute, SwitchTarget;
  }

  lemma AllowedKeeps(m: Machine, op: Opcode, args: seq<Arg>, w: World)
    requires !Forbidden(op) && !op.Call?
    ensures Exec(m, [], op, args, w).Next? ==> Exec(m, [], op, args, w).w == w
  {
    hide Compute, SwitchTarget;
  }

  /** What dead code removal may drop is what never changes the world and does not leave the block. */
  lemma RemovableExactly(op: Opcode)
    ensures op.IsSideEffectFree() <==> !op.IsTerminator() && !MayChange(op)
  {
    hide Exec;
    if op.IsSideEffectFree() {
      forall m: Machine, args: seq<Arg>, w: World { RemovableKeeps(m, op, args, w); }
    } else if !op.IsTerminator() {
      OutsideChanges(op);
    }
  }

  lemma RemovableKeeps(m: Machine, op: Opcode, args: seq<Arg>, w: World)
    requires op.IsSideEffectFree()
    ensures Exec(m, [], op, args, w).Next? ==> Exec(m, [], op, args, w).w == w
  {
    hide Compute;
  }

  // ---------------------------------------------------------------------------------------------
  // The analysis

  ghost function Flagged(pure: array<bool>): set<nat>
    reads pure
  {
    set i: nat | i < pure.Length && pure[i]
  }

  /** Scans one function. */
  method IsPureNow(mod: Module, pure: array<bool>, i: nat) returns (r: bool)
    requires ModuleOk(mod) && pure.Length == |mod| && i < |mod|
    ensures r <==> PureCode(mod, Flagged(pure), mod[i].code)
  {
    hide PureInst, WellFormed, ModuleOk, OperandsOk;
    var f := mod[i].code;
    FunctionOk(mod, i);
    EveryBlockListed(f);
    for j := 0 to |f.order|
      invariant forall i | 0 <= i < j :: AllPure(mod, Flagged(pure), f.body[f.order[i]])
    {
      var ok := BlockIsPure(mod, pure, f.body[f.order[j]]);
      if !ok { return false; }
    }
    forall b | b in f.body
      ensures AllPure(mod, Flagged(pure), f.body[b])
    {
      var i :| 0 <= i < |f.order| && f.order[i] == b;
    }
    return true;
  }

  lemma EveryBlockListed(f: Func)
    requires WellFormed(f)
    ensures forall b :: b in f.order <==> b in f.body
  {
    assert forall b :: b in f.order <==> b in (set x | x in f.order);
  }

  ghost predicate AllPure(mod: Module, flags: set<nat>, insts: seq<Inst>) {
    forall k | 0 <= k < |insts| :: PureInst(mod, flags, insts[k])
  }

  method BlockIsPure(mod: Module, pure: array<bool>, insts: seq<Inst>) returns (r: bool)
    requires pure.Length == |mod|
    ensures r <==> AllPure(mod, Flagged(pure), insts)
  {
    hide PureInst;
    for k := 0 to |insts|
      invariant forall k' | 0 <= k' < k :: PureInst(mod, Flagged(pure), insts[k'])
    {
      var ok := InstIsPure(mod, pure, insts[k]);
      if !ok { return false; }
    }
    return true;
  }

  method InstIsPure(mod: Module, pure: array<bool>, inst: Inst) returns (r: bool)
    requires pure.Length == |mod|
    ensures r <==> PureInst(mod, Flagged(pure), inst)
  {
    if inst.op.Call? {
      if inst.ops == [] || !inst.ops[0].Global? { return false; }
      var callee := FindFunction(mod, inst.ops[0].name);
      return callee.Some? && pure[callee.value];
    }
    return !Forbidden(inst.op);
  }

  /** Scans the function list by name. */
  method FindFunction(mod: Module, name: string) returns (r: Option<nat>)
    ensures r == IndexOf(mod, name)
  {
    for j := 0 to |mod|
      invariant forall i | 0 <= i < j :: mod[i].name != name
    {
      if mod[j].name == name { return Some(j); }
    }
    return None;
  }

  /** Flags every function, then drops the impure ones until nothing changes.  What is left is the
      greatest set of functions that is closed under calls and free of forbidden instructions. */
  method AnalysePurity(mod: Module) returns (pure: array<bool>)
    requires ModuleOk(mod)
    ensures fresh(pure) && pure.Length == |mod| && IsGreatest(mod, Flagged(pure))
  {
    hide ModuleOk, PureCode;
    pure := new bool[|mod|](_ => true);
    var changed := true;
    while changed
      invariant forall s: set<nat> | ClosedUnderCalls(mod, s) :: s <= Flagged(pure)
      invariant !changed ==> ClosedUnderCalls(mod, Flagged(pure))
      decreases |Flagged(pure)|, changed
    {
      changed := PurityRound(mod, pure);
    }
  }

  method PurityRound(mod: Module, pure: array<bool>) returns (changed: bool)
    requires ModuleOk(mod) && pure.Length == |mod|
    requires forall s: set<nat> | ClosedUnderCalls(mod, s) :: s <= Flagged(pure)
    modifies pure
    ensures forall s: set<nat> | ClosedUnderCalls(mod, s) :: s <= Flagged(pure)
    ensures if changed then |Flagged(pure)| < |old(Flagged(pure))|
      else Flagged(pure) == old(Flagged(pure)) && ClosedUnderCalls(mod, Flagged(pure))
  {
    hide ModuleOk, PureCode;
    changed := false;
    ghost var p0 := Flagged(pure);
    for i := 0 to |mod|
      invariant forall s: set<nat> | ClosedUnderCalls(mod, s) :: s <= Flagged(pure)
      invariant Flagged(pure) <= p0 && (changed ==> Flagged(pure) < p0) && (!changed ==> Flagged(pure) == p0)
      invariant !changed ==> forall j: nat | j < i && j in p0 :: PureCode(mod, p0, mod[j].code)
    {
      if pure[i] {
        var ok := IsPureNow(mod, pure, i);
        if !ok {
          ghost var p := Flagged(pure);
          DropImpure(mod, p, i);
          pure[i] := false;
          assert Flagged(pure) == p - {i};
          changed := true;
        }
      }
    }
    if changed { SmallerSet(Flagged(pure), p0); }
  }

  lemma SmallerSet(a: set<nat>, b: set<nat>)
    requires a < b
    ensures |a| < |b|
  {
    var x :| x in b && x !in a;
    assert x in b - a && b == a + (b - a);
  }

  /** A function that calls outside the candidates is in no closed set. */
  lemma DropImpure(mod: Module, p: set<nat>, i: nat)
    requires i < |mod| && !PureCode(mod, p, mod[i].code)
    requires forall s: set<nat> | ClosedUnderCalls(mod, s) :: s <= p
    ensures forall s: set<nat> | ClosedUnderCalls(mod, s) :: s <= p - {i}
  {
    forall s: set<nat> | ClosedUnderCalls(mod, s)
      ensures s <= p - {i}
    {
      if i in s {
        PureCodeGrows(mod, s, p, mod[i].code);
        assert false;
      }
    }
  }

  lemma PureCodeGrows(mod: Module, p: set<nat>, q: set<nat>, f: Func)
    requires p <= q && PureCode(mod, p, f)
    ensures PureCode(mod, q, f)
  {
    forall b, k | b in f.body && 0 <= k < |f.body[b]|
      ensures PureInst(mod, q, f.body[b][k])
    {
      assert PureInst(mod, p, f.body[b][k]);
    }
  }
}
