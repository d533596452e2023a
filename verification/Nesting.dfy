/** Calls counted: how deep they nest, how many blocks an activation enters, and how many instructions a call runs
    in all. */
module Nesting {
  import opened Sir
  import opened SirModules

  /** `m` with calls to the module's own functions executed, at most `d` deep, each entering at most `f` blocks. */
  function Nested(m: Machine, mod: Module, d: nat, f: nat): Machine
    decreases d, 1
  {
    Machine(m.addr, m.load, (op: Opcode, args: seq<Arg>, w: World) => if op.Call? then NestedCall(m, mod, d, f, args, w)
      else m.effect(op, args, w))
  }

  function NestedCall(m: Machine, mod: Module, d: nat, f: nat, args: seq<Arg>, w: World): Effect
    decreases d, 0
  {
    if args == [] || !AllInts(args) then Stop(Fault)
    else
      match FuncAt(m, mod, args[0].v)
      case None => m.effect(Call, args, w)
      case Some(g) =>
        if d == 0 then Stop(OutOfFuel) else Reply(Enter(Nested(m, mod, d - 1, f), g, Ints(args[1..]), w, f))
  }

  /** A call of `g` from outside. */
  function NestedRun(m: Machine, mod: Module, d: nat, f: nat, g: Decl, params: seq<i64>, w: World): Outcome {
    Enter(Nested(m, mod, d, f), g, params, w, f)
  }

  lemma NestedEffect(m: Machine, mod: Module, d: nat, f: nat, op: Opcode, args: seq<Arg>, w: World)
    ensures Nested(m, mod, d, f).effect(op, args, w) ==
      if op.Call? then NestedCall(m, mod, d, f, args, w) else m.effect(op, args, w)
  {}

  lemma NestedUnfolds(m: Machine, mod: Module, d: nat, f: nat, args: seq<Arg>, w: World, g: Decl)
    requires args != [] && AllInts(args) && FuncAt(m, mod, args[0].v) == Some(g)
    ensures NestedCall(m, mod, d, f, args, w) ==
      if d == 0 then Stop(OutOfFuel) else Reply(NestedRun(m, mod, d - 1, f, g, Ints(args[1..]), w))
  {}

  // ---------------------------------------------------------------------------------------------
  // These runs and those of the reference semantics

  lemma {:induction false} NestedBelow(m: Machine, mod: Module, d: nat, f: nat)
    ensures Below(Nested(m, mod, d, f), Within(m, mod, d + f))
    decreases d
  {
    hide FuncAt, Enter;
    var m1, m2 := Nested(m, mod, d, f), Within(m, mod, d + f);
    forall op: Opcode, args: seq<Arg>, w: World
      ensures m1.effect(op, args, w) == Stop(OutOfFuel) || m2.effect(op, args, w) == m1.effect(op, args, w)
    {
      NestedEffect(m, mod, d, f, op, args, w);
      WithinEffect(m, mod, d + f, op, args, w);
      if op.Call? && args != [] && AllInts(args) && d > 0 && FuncAt(m, mod, args[0].v).Some? {
        var g := FuncAt(m, mod, args[0].v).value;
        NestedUnfolds(m, mod, d, f, args, w, g);
        CallUnfolds(m, mod, d + f, args, w, g);
        NestedBelow(m, mod, d - 1, f);
        EnterBelow(Nested(m, mod, d - 1, f), Within(m, mod, d - 1 + f), g, Ints(args[1..]), w, f, d - 1 + f);
      }
    }
  }

  lemma {:induction false} WithinBelow(m: Machine, mod: Module, n: nat, f: nat)
    requires n <= f
    ensures Below(Within(m, mod, n), Nested(m, mod, n, f))
    decreases n
  {
    hide FuncAt, Enter;
    var m1, m2 := Within(m, mod, n), Nested(m, mod, n, f);
    forall op: Opcode, args: seq<Arg>, w: World
      ensures m1.effect(op, args, w) == Stop(OutOfFuel) || m2.effect(op, args, w) == m1.effect(op, args, w)
    {
      WithinEffect(m, mod, n, op, args, w);
      NestedEffect(m, mod, n, f, op, args, w);
      if op.Call? && args != [] && AllInts(args) && n > 0 && FuncAt(m, mod, args[0].v).Some? {
        var g := FuncAt(m, mod, args[0].v).value;
        CallUnfolds(m, mod, n, args, w, g);
        NestedUnfolds(m, mod, n, f, args, w, g);
        WithinBelow(m, mod, n - 1, f);
        EnterBelow(Within(m, mod, n - 1), Nested(m, mod, n - 1, f), g, Ints(args[1..]), w, n - 1, f);
      }
    }
  }

  /** Larger bounds only help. */
  lemma {:induction false} NestedGrows(m: Machine, mod: Module, d: nat, f: nat, d': nat, f': nat)
    requires d <= d' && f <= f'
    ensures Below(Nested(m, mod, d, f), Nested(m, mod, d', f'))
    decreases d
  {
    hide FuncAt, Enter;
    var m1, m2 := Nested(m, mod, d, f), Nested(m, mod, d', f');
    forall op: Opcode, args: seq<Arg>, w: World
      ensures m1.effect(op, args, w) == Stop(OutOfFuel) || m2.effect(op, args, w) == m1.effect(op, args, w)
    {
      NestedEffect(m, mod, d, f, op, args, w);
      NestedEffect(m, mod, d', f', op, args, w);
      if op.Call? && args != [] && AllInts(args) && d > 0 && FuncAt(m, mod, args[0].v).Some? {
        var g := FuncAt(m, mod, args[0].v).value;
        NestedUnfolds(m, mod, d, f, args, w, g);
        NestedUnfolds(m, mod, d', f', args, w, g);
        NestedGrows(m, mod, d - 1, f, d' - 1, f');
        EnterBelow(Nested(m, mod, d - 1, f), Nested(m, mod, d' - 1, f'), g, Ints(args[1..]), w, f, f');
      }
    }
  }

  /** What a counted call settles, the call delivers; and every call that ends is settled for some depth and number of
      blocks. */
  lemma NestedDelivers(m: Machine, mod: Module, g: Decl, params: seq<i64>, w: World, o: Outcome)
    ensures Delivers(m, mod, g, params, w, o) <==>
      o != OutOfFuel && exists d: nat, f: nat :: NestedRun(m, mod, d, f, g, params, w) == o
  {
    hide Nested, Within, Enter;
    if Delivers(m, mod, g, params, w, o) {
      var n: nat :| Invoke(m, mod, g, params, w, n) == o;
      WithinBelow(m, mod, n, n);
      EnterBelow(Within(m, mod, n), Nested(m, mod, n, n), g, params, w, n, n);
      assert NestedRun(m, mod, n, n, g, params, w) == o;
    }
    if o != OutOfFuel && exists d: nat, f: nat :: NestedRun(m, mod, d, f, g, params, w) == o {
      var d: nat, f: nat :| NestedRun(m, mod, d, f, g, params, w) == o;
      NestedBelow(m, mod, d, f);
      EnterBelow(Nested(m, mod, d, f), Within(m, mod, d + f), g, params, w, f, d + f);
      assert Invoke(m, mod, g, params, w, d + f) == o;
    }
  }

  // ---------------------------------------------------------------------------------------------
  // Instructions run

  /** The instructions a call of `g` runs, those of the calls inside it included. */
  function Steps(m: Machine, mod: Module, d: nat, f: nat, g: Decl, params: seq<i64>, w: World): nat
    decreases d, 2, 0
  {
    if g.code.order == [] || (g.fast.Some? && (params == [] || Taken(g.fast.value.jcc, params[0], g.fast.value.imm)))
    then 0
    else StepsRun(m, mod, d, f, g.code, params, g.code.order[0], map[], w, f)
  }

  function StepsRun(m: Machine, mod: Module, d: nat, f: nat, code: Func, params: seq<i64>, b: nat, regs: Regs, w: World,
        n: nat): nat
    decreases d, 1, n
  {
    if n == 0 || b !in code.body then 0
    else
      StepsBlock(m, mod, d, f, params, code.body[b], regs, w) +
      match RunBlock(Nested(m, mod, d, f), params, code.body[b], regs, w)
      case End(_) => 0
      case Goto(b', regs', w') => StepsRun(m, mod, d, f, code, params, b', regs', w', n - 1)
  }

  function StepsBlock(m: Machine, mod: Module, d: nat, f: nat, params: seq<i64>, insts: seq<Inst>, regs: Regs,
        w: World): nat
    decreases d, 0, |insts|
  {
    if insts == [] then 0
    else
      StepsInst(m, mod, d, f, insts[0], regs, w) +
      match Step(Nested(m, mod, d, f), params, insts[0], regs, w)
      case Next(v, w') => StepsBlock(m, mod, d, f, params, insts[1..], Write(regs, insts[0].dest, v), w')
      case _ => 0
  }

  function StepsInst(m: Machine, mod: Module, d: nat, f: nat, inst: Inst, regs: Regs, w: World): nat
    decreases d, 0, 0
  {
    var args := EvalAll(m, inst.ops, regs);
    if inst.op.Call? && d > 0 && args.Some? && args.value != [] && AllInts(args.value) &&
      FuncAt(m, mod, args.value[0].v).Some? then
      1 + Steps(m, mod, d - 1, f, FuncAt(m, mod, args.value[0].v).value, Ints(args.value[1..]), w)
    else 1
  }
}
