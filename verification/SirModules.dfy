/** A module: functions that call each other by name, at any depth. */
module SirModules {
  import opened Sir

  /** The condition codes the fast path compiles to. */
  datatype Jcc = Je | Jne | Jl | Jle | Jg | Jge

  /** A test run before the function's frame is set up: when it succeeds the argument is the result. */
  datatype FastPath = FastPath(imm: i64, jcc: Jcc)

  predicate Taken(jcc: Jcc, arg: i64, imm: i64) {
    match jcc
    case Je => arg == imm
    case Jne => arg != imm
    case Jl => arg < imm
    case Jle => arg <= imm
    case Jg => arg > imm
    case Jge => arg >= imm
  }

  datatype Decl = Decl(name: string, code: Func, fast: Option<FastPath>)

  type Module = seq<Decl>

  /** One activation of a function on a given machine. */
  function Enter(m: Machine, d: Decl, params: seq<i64>, w: World, fuel: nat): Outcome {
    if d.fast.Some? && params == [] then Fault
    else if d.fast.Some? && Taken(d.fast.value.jcc, params[0], d.fast.value.imm) then Returned(params[0], w)
    else RunFunc(m, d.code, params, w, fuel)
  }

  /** The first function whose symbol has address `v`. */
  function FuncAt(m: Machine, mod: Module, v: i64): (r: Option<Decl>)
    ensures r.Some? ==> r.value in mod && m.addr(r.value.name) == v
    ensures r.None? ==> forall d | d in mod :: m.addr(d.name) != v
  {
    if mod == [] then None
    else if m.addr(mod[0].name) == v then Some(mod[0])
    else FuncAt(m, mod[1..], v)
  }

  /** The first function of that name. */
  function Lookup(mod: Module, name: string): (r: Option<Decl>)
    ensures r.Some? ==> r.value in mod && r.value.name == name
    ensures r.None? <==> forall d | d in mod :: d.name != name
  {
    if mod == [] then None
    else if mod[0].name == name then Some(mod[0])
    else Lookup(mod[1..], name)
  }

  predicate AllInts(args: seq<Arg>) { forall k | 0 <= k < |args| :: args[k].Int? }

  function Ints(args: seq<Arg>): (r: seq<i64>)
    requires AllInts(args)
    ensures |r| == |args|
  {
    seq(|args|, k requires 0 <= k < |args| => args[k].v)
  }

  /** `m` with calls to the module's own functions executed; `n` bounds their depth and length. */
  function Within(m: Machine, mod: Module, n: nat): Machine
    decreases n, 1
  {
    Machine(m.addr, m.load, (op: Opcode, args: seq<Arg>, w: World) => if op.Call? then CallIn(m, mod, n, args, w)
      else m.effect(op, args, w))
  }

  /** A call: the callee's address, then its arguments. */
  function CallIn(m: Machine, mod: Module, n: nat, args: seq<Arg>, w: World): Effect
    decreases n, 0
  {
    if args == [] || !AllInts(args) then Stop(Fault)
    else
      match FuncAt(m, mod, args[0].v)
      case None => m.effect(Call, args, w)
      case Some(d) =>
        if n == 0 then Stop(OutOfFuel)
        else
          Reply(Enter(Within(m, mod, n - 1), d, Ints(args[1..]), w, n - 1))
  }

  /** How a call reports the outcome of the callee. */
  function Reply(o: Outcome): Effect {
    match o
    case Returned(v, w) => Done(v, w)
    case _ => Stop(o)
  }

  /** A call of `d` from outside, with fuel `n` at every level. */
  function Invoke(m: Machine, mod: Module, d: Decl, params: seq<i64>, w: World, n: nat): Outcome {
    Enter(Within(m, mod, n), d, params, w, n)
  }

  ghost predicate Delivers(m: Machine, mod: Module, d: Decl, params: seq<i64>, w: World, o: Outcome) {
    o != OutOfFuel && exists n: nat :: Invoke(m, mod, d, params, w, n) == o
  }

  /** Symbols have addresses of their own. */
  ghost predicate Linked(m: Machine, names: set<string>) {
    forall a, b | a in names && b in names :: m.addr(a) == m.addr(b) ==> a == b
  }

  ghost function Names(mod: Module): set<string> { set d | d in mod :: d.name }

  predicate DistinctNames(mod: Module) { forall i, j | 0 <= i < j < |mod| :: mod[i].name != mod[j].name }

  /** In a linked module a call through a function's symbol reaches that function. */
  lemma {:induction false} CallReachesSymbol(m: Machine, mod: Module, name: string)
    requires Linked(m, Names(mod)) && Lookup(mod, name).Some?
    ensures FuncAt(m, mod, m.addr(name)) == Lookup(mod, name)
  {
    assert Lookup(mod, name).value.name in Names(mod);
    if mod[0].name != name {
      assert mod[0].name in Names(mod);
      assert forall d | d in mod[1..] :: d in mod;
      assert Names(mod[1..]) <= Names(mod);
      CallReachesSymbol(m, mod[1..], name);
    }
  }

  // ---------------------------------------------------------------------------------------------
  // More fuel only helps

  /** Whatever `m1` settles, `m2` settles alike. */
  ghost predicate Below(m1: Machine, m2: Machine) {
    && m1.addr == m2.addr && m1.load == m2.load
    && forall op: Opcode, args: seq<Arg>, w: World ::
      m1.effect(op, args, w) == Stop(OutOfFuel) || m2.effect(op, args, w) == m1.effect(op, args, w)
  }

  lemma StepBelow(m1: Machine, m2: Machine, params: seq<i64>, inst: Inst, regs: Regs, w: World)
    requires Below(m1, m2)
    ensures Step(m1, params, inst, regs, w) == Finish(OutOfFuel) ||
      Step(m2, params, inst, regs, w) == Step(m1, params, inst, regs, w)
  {
    forall k | 0 <= k < |inst.ops|
      ensures EvalOperand(m1, inst.ops[k], regs) == EvalOperand(m2, inst.ops[k], regs)
    {}
    assert EvalAll(m1, inst.ops, regs) == EvalAll(m2, inst.ops, regs) by { SameOperands(m1, m2, inst.ops, regs); }
  }

  lemma SameOperands(m1: Machine, m2: Machine, ops: seq<Value>, regs: Regs)
    requires m1.addr == m2.addr
    ensures EvalAll(m1, ops, regs) == EvalAll(m2, ops, regs)
  {
    forall k | 0 <= k < |ops|
      ensures EvalOperand(m1, ops[k], regs) == EvalOperand(m2, ops[k], regs)
    {}
    if EvalAll(m1, ops, regs).Some? {
      assert EvalAll(m1, ops, regs).value == EvalAll(m2, ops, regs).value;
    }
  }

  lemma {:induction false} BlockBelow(m1: Machine, m2: Machine, params: seq<i64>, insts: seq<Inst>, regs: Regs,
        w: World)
    requires Below(m1, m2)
    ensures RunBlock(m1, params, insts, regs, w) == End(OutOfFuel) ||
      RunBlock(m2, params, insts, regs, w) == RunBlock(m1, params, insts, regs, w)
  {
    hide Step, Below;
    if insts != [] {
      StepBelow(m1, m2, params, insts[0], regs, w);
      match Step(m1, params, insts[0], regs, w)
      case Next(v, w') => BlockBelow(m1, m2, params, insts[1..], Write(regs, insts[0].dest, v), w');
      case _ =>
    }
  }

  lemma {:induction false} RunBelow(m1: Machine, m2: Machine, f: Func, params: seq<i64>, b: nat, regs: Regs, w: World,
        n: nat, k: nat)
    requires Below(m1, m2) && n <= k
    ensures Run(m1, f, params, b, regs, w, n) == OutOfFuel ||
      Run(m2, f, params, b, regs, w, k) == Run(m1, f, params, b, regs, w, n)
    decreases n
  {
    hide Step, Below, RunBlock;
    if n > 0 && b in f.body {
      BlockBelow(m1, m2, params, f.body[b], regs, w);
      match RunBlock(m1, params, f.body[b], regs, w)
      case End(_) =>
      case Goto(b', regs', w') => RunBelow(m1, m2, f, params, b', regs', w', n - 1, k - 1);
    }
  }

  lemma EnterBelow(m1: Machine, m2: Machine, d: Decl, params: seq<i64>, w: World, n: nat, k: nat)
    requires Below(m1, m2) && n <= k
    ensures Enter(m1, d, params, w, n) == OutOfFuel || Enter(m2, d, params, w, k) == Enter(m1, d, params, w, n)
  {
    hide Below;
    if d.code.order != [] { RunBelow(m1, m2, d.code, params, d.code.order[0], map[], w, n, k); }
  }

  lemma WithinEffect(m: Machine, mod: Module, n: nat, op: Opcode, args: seq<Arg>, w: World)
    ensures Within(m, mod, n).effect(op, args, w) ==
      if op.Call? then CallIn(m, mod, n, args, w) else m.effect(op, args, w)
  {}

  lemma CallUnfolds(m: Machine, mod: Module, n: nat, args: seq<Arg>, w: World, d: Decl)
    requires args != [] && AllInts(args) && FuncAt(m, mod, args[0].v) == Some(d)
    ensures CallIn(m, mod, n, args, w) ==
      if n == 0 then Stop(OutOfFuel) else Reply(Invoke(m, mod, d, Ints(args[1..]), w, n - 1))
  {}

  lemma {:induction false} WithinGrows(m: Machine, mod: Module, n: nat, k: nat)
    requires n <= k
    ensures Below(Within(m, mod, n), Within(m, mod, k))
    decreases n
  {
    var m1, m2 := Within(m, mod, n), Within(m, mod, k);
    forall op: Opcode, args: seq<Arg>, w: World
      ensures m1.effect(op, args, w) == Stop(OutOfFuel) || m2.effect(op, args, w) == m1.effect(op, args, w)
    {
      WithinEffect(m, mod, n, op, args, w);
      WithinEffect(m, mod, k, op, args, w);
      if op.Call? && args != [] && AllInts(args) && n > 0 && FuncAt(m, mod, args[0].v).Some? {
        var d := FuncAt(m, mod, args[0].v).value;
        CallUnfolds(m, mod, n, args, w, d);
        CallUnfolds(m, mod, k, args, w, d);
        WithinGrows(m, mod, n - 1, k - 1);
        EnterBelow(Within(m, mod, n - 1), Within(m, mod, k - 1), d, Ints(args[1..]), w, n - 1, k - 1);
      }
    }
  }

  /** A call that has settled keeps its outcome when given more fuel. */
  lemma InvokeMoreFuel(m: Machine, mod: Module, d: Decl, params: seq<i64>, w: World, n: nat, k: nat)
    requires n <= k
    ensures Invoke(m, mod, d, params, w, n) == OutOfFuel ||
      Invoke(m, mod, d, params, w, k) == Invoke(m, mod, d, params, w, n)
  {
    WithinGrows(m, mod, n, k);
    EnterBelow(Within(m, mod, n), Within(m, mod, k), d, params, w, n, k);
  }

  /** A call has at most one outcome. */
  lemma DeliversOnce(m: Machine, mod: Module, d: Decl, params: seq<i64>, w: World, o: Outcome, o': Outcome)
    requires Delivers(m, mod, d, params, w, o) && Delivers(m, mod, d, params, w, o')
    ensures o == o'
  {
    var n: nat :| Invoke(m, mod, d, params, w, n) == o;
    var k: nat :| Invoke(m, mod, d, params, w, k) == o';
    if n <= k { InvokeMoreFuel(m, mod, d, params, w, n, k); } else { InvokeMoreFuel(m, mod, d, params, w, k, n); }
  }
}
