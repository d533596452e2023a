/** The state of the IR builder while a function is being generated, and runs through code that is
    still growing. */
module Builder {
  import opened Sir

  /** Where a variable lives: in a register or literal, or in a frame cell. */
  datatype Binding = Direct(v: Value) | Cell(p: nat)

  /** The builder's fields: blocks so far, the insertion point, counters, loop targets, bindings. */
  datatype State = State(order: seq<nat>, body: map<nat, seq<Inst>>, cur: nat, nextVreg: nat, nextBlock: nat,
                         loopCond: Option<nat>, loopExit: Option<nat>, vars: map<nat, Binding>)

  predicate Closed(insts: seq<Inst>) { insts != [] && insts[|insts| - 1].op.IsTerminator() }

  predicate IsOpen(s: State) { s.cur in s.body && !Closed(s.body[s.cur]) }

  predicate ValueBelow(v: Value, n: nat) { v.VReg? ==> v.r < n }

  predicate InstBelow(inst: Inst, n: nat) {
    (inst.dest.Some? ==> inst.dest.value < n) && forall k | 0 <= k < |inst.ops| :: ValueBelow(inst.ops[k], n)
  }

  ghost predicate BlockBelow(insts: seq<Inst>, n: nat) { forall k | 0 <= k < |insts| :: InstBelow(insts[k], n) }

  predicate BindingBelow(b: Binding, n: nat) {
    match b
    case Direct(v) => ValueBelow(v, n)
    case Cell(p) => p < n
  }

  /** Everything the builder has handed out lies below its counters; different variables have different cells. */
  ghost predicate Valid(s: State) {
    && s.cur in s.body
    && (forall b | b in s.body :: b < s.nextBlock && BlockBelow(s.body[b], s.nextVreg))
    && (forall x | x in s.vars :: BindingBelow(s.vars[x], s.nextVreg))
  }

  // ---------------------------------------------------------------------------------------------
  // Building steps

  /** Appends an instruction, unless the block has already been left. */
  function Emit(s: State, inst: Inst): State
    requires s.cur in s.body
  {
    if Closed(s.body[s.cur]) then s else s.(body := s.body[s.cur := s.body[s.cur] + [inst]])
  }

  /** Appends an instruction with a fresh destination. */
  function EmitValue(s: State, op: Opcode, ops: seq<Value>): State
    requires s.cur in s.body
  {
    Emit(s, Inst(op, Some(s.nextVreg), ops)).(nextVreg := s.nextVreg + 1)
  }

  function NewBlock(s: State): State {
    s.(order := s.order + [s.nextBlock], body := s.body[s.nextBlock := []], nextBlock := s.nextBlock + 1)
  }

  function MoveTo(s: State, b: nat): State { s.(cur := b) }

  /** `t` continues `s`: open blocks have grown at their end, closed ones are as they were. */
  ghost predicate Grows(s: State, t: State) {
    && s.nextVreg <= t.nextVreg && s.nextBlock <= t.nextBlock && s.order <= t.order
    && forall b | b in s.body :: b in t.body && BlockGrows(s.body[b], t.body[b])
  }

  predicate BlockGrows(a: seq<Inst>, b: seq<Inst>) { a <= b && (Closed(a) ==> b == a) }

  /** The finished function holds the code of `s`. */
  ghost predicate Holds(g: Func, s: State) { forall b | b in s.body :: b in g.body && BlockGrows(s.body[b], g.body[b]) }

  lemma GrowsTransitive(s: State, t: State, u: State)
    requires Grows(s, t) && Grows(t, u)
    ensures Grows(s, u)
  {
    forall b | b in s.body
      ensures b in u.body && BlockGrows(s.body[b], u.body[b])
    {
      BlockGrowsTransitive(s.body[b], t.body[b], u.body[b]);
    }
  }

  lemma BlockGrowsTransitive(a: seq<Inst>, b: seq<Inst>, c: seq<Inst>)
    requires BlockGrows(a, b) && BlockGrows(b, c)
    ensures BlockGrows(a, c)
  {}

  lemma HoldsEarlier(g: Func, s: State, t: State)
    requires Grows(s, t) && Holds(g, t)
    ensures Holds(g, s)
  {
    forall b | b in s.body
      ensures b in g.body && BlockGrows(s.body[b], g.body[b])
    {
      BlockGrowsTransitive(s.body[b], t.body[b], g.body[b]);
    }
  }

  lemma EmitGrows(s: State, inst: Inst)
    requires s.cur in s.body
    ensures Grows(s, Emit(s, inst))
  {}

  // ---------------------------------------------------------------------------------------------
  // Runs through growing code

  /** What a run depends on besides its state.  The frame has a slot for every register below `size`; `addr` is where
      the slot starts and `bytes` how much is reserved for it. */
  datatype Setting = Setting(m: Machine, g: Func, params: seq<i64>, addr: nat -> i64, bytes: nat -> nat, size: nat)

  /** A point of a run: `i` instructions of block `b` are done. */
  datatype Point = Point(b: nat, i: nat, regs: Regs, w: World)

  function Then(t: Setting, r: BlockResult, n: nat): Outcome {
    match r
    case End(o) => o
    case Goto(b, regs, w) => Run(t.m, t.g, t.params, b, regs, w, n)
  }

  /** The rest of a run that may enter `n` more blocks. */
  function From(t: Setting, x: Point, n: nat): Outcome {
    if x.b in t.g.body && x.i <= |t.g.body[x.b]| then
      Then(t, RunBlock(t.m, t.params, t.g.body[x.b][x.i..], x.regs, x.w), n) else Fault
  }

  /** Point `x` leads to point `y` through `c` block entries. */
  ghost predicate Leads(t: Setting, x: Point, y: Point, c: nat) {
    && (forall n: nat :: From(t, x, n + c) == From(t, y, n))
    && (forall n: nat | n < c :: From(t, x, n) == OutOfFuel)
  }

  ghost predicate EndsWith(t: Setting, x: Point, o: Outcome, c: nat) { forall n: nat | n >= c :: From(t, x, n) == o }

  /** The run from `x` enters more than `k` blocks without ending. */
  ghost predicate Survives(t: Setting, x: Point, k: nat) { forall n: nat | n < k :: From(t, x, n) == OutOfFuel }

  lemma LeadsTransitive(t: Setting, x: Point, y: Point, z: Point, c: nat, d: nat)
    requires Leads(t, x, y, c) && Leads(t, y, z, d)
    ensures Leads(t, x, z, c + d)
  {
    forall n: nat
      ensures From(t, x, n + (c + d)) == From(t, z, n)
    {
      assert From(t, x, (n + d) + c) == From(t, y, n + d);
      assert From(t, y, n + d) == From(t, z, n);
    }
    forall n: nat | n < c + d
      ensures From(t, x, n) == OutOfFuel
    {
      if n >= c { assert From(t, x, (n - c) + c) == From(t, y, n - c); }
    }
  }

  lemma LeadsToEnd(t: Setting, x: Point, y: Point, c: nat, o: Outcome, d: nat)
    requires Leads(t, x, y, c) && EndsWith(t, y, o, d)
    ensures EndsWith(t, x, o, c + d)
  {
    forall n: nat | n >= c + d
      ensures From(t, x, n) == o
    {
      assert From(t, x, (n - c) + c) == From(t, y, n - c);
    }
  }

  lemma LeadsSurvives(t: Setting, x: Point, y: Point, c: nat, k: nat)
    requires Leads(t, x, y, c) && Survives(t, y, k)
    ensures Survives(t, x, c + k)
  {
    forall n: nat | n < c + k
      ensures From(t, x, n) == OutOfFuel
    {
      if n >= c { assert From(t, x, (n - c) + c) == From(t, y, n - c); }
    }
  }

  // ---------------------------------------------------------------------------------------------
  // Single steps

  function Here(s: State, regs: Regs, w: World): Point
    requires s.cur in s.body
  {
    Point(s.cur, |s.body[s.cur]|, regs, w)
  }

  /** An emitted instruction that delivers a value moves on to the point behind it. */
  lemma EmitLeads(t: Setting, s: State, inst: Inst, regs: Regs, w: World, v: i64, w': World)
    requires IsOpen(s) && Holds(t.g, Emit(s, inst)) && Step(t.m, t.params, inst, regs, w) == Next(v, w')
    ensures Leads(t, Here(s, regs, w), Here(Emit(s, inst), Write(regs, inst.dest, v), w'), 0)
  {
    hide Step;
    var e := Emit(s, inst);
    var b, i, g := s.cur, |s.body[s.cur]|, t.g.body[s.cur];
    assert BlockGrows(e.body[b], g);
    assert g[i] == e.body[b][i] == inst;
    assert g[i..][0] == inst && g[i..][1..] == g[i + 1..];
  }

  /** An emitted jump leads to the start of its target. */
  lemma JumpLeads(t: Setting, s: State, inst: Inst, regs: Regs, w: World, b: nat)
    requires IsOpen(s) && Holds(t.g, Emit(s, inst)) && Step(t.m, t.params, inst, regs, w) == Jump(b) && b in t.g.body
    ensures Leads(t, Here(s, regs, w), Point(b, 0, regs, w), 1)
  {
    hide Step;
    var e := Emit(s, inst);
    var i, g := |s.body[s.cur]|, t.g.body[s.cur];
    assert BlockGrows(e.body[s.cur], g);
    assert g[i] == e.body[s.cur][i] == inst;
    assert g[i..][0] == inst;
    assert t.g.body[b][0..] == t.g.body[b];
  }

  /** An emitted instruction that ends the run. */
  lemma EmitEnds(t: Setting, s: State, inst: Inst, regs: Regs, w: World, o: Outcome)
    requires IsOpen(s) && Holds(t.g, Emit(s, inst)) && Step(t.m, t.params, inst, regs, w) == Finish(o)
    ensures EndsWith(t, Here(s, regs, w), o, 0)
  {
    hide Step;
    var e := Emit(s, inst);
    var i, g := |s.body[s.cur]|, t.g.body[s.cur];
    assert BlockGrows(e.body[s.cur], g);
    assert g[i] == e.body[s.cur][i] == inst;
    assert g[i..][0] == inst;
  }
}
