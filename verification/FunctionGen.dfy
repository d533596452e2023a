/** The generation of whole functions, and what a generated function does when it is called. */
module FunctionGen {
  import opened Sir
  import opened Builder
  import opened Frames
  import opened BuildOps
  import opened ShortCircuit
  import opened Statements
  import opened SimpleStatements
  import opened Conditionals
  import opened Loops
  import opened IrBuilders
  import opened Lowering
  import opened Ssa
  import opened Certified
  import S = Source

  // ---------------------------------------------------------------------------------------------
  // What a generated function owes its callers

  function Encoded(args: seq<S.Val>): seq<i64> { seq(|args|, i requires 0 <= i < |args| => S.Enc(args[i])) }

  /** The source's answer to a call, computed with fuel `k`, and what runs of the generated function do. */
  ghost predicate Answers(t: Setting, w: World, k: nat, r: S.Res) {
    match r
    case Returns(v) => exists w', c :: EndsAlike(t, w, Returned(S.Answer(v), w'), w', c)
    case Halts => exists w', c :: EndsAlike(t, w, Trapped(w'), w', c)
    case Endless => forall n: nat | n <= k :: RunFunc(t.m, t.g, t.params, w, n) == OutOfFuel
    case Fails => true
    case _ => false
  }

  /** With enough fuel the run ends in `o`; input, output and the memory outside the frame are as before. */
  ghost predicate EndsAlike(t: Setting, w: World, o: Outcome, w': World, c: nat) {
    (forall n: nat | n > c :: RunFunc(t.m, t.g, t.params, w, n) == o) && Kept(t, map[], 0, w, w')
  }

  /** Arguments the type checker lets through: `logica` parameters get truth values. */
  ghost predicate ArgsOf(f: S.Function, args: seq<S.Val>) {
    |args| == |f.params| && forall i | 0 <= i < |args| && f.params[i] in f.logica :: args[i].B?
  }

  /** On every machine with a frame large enough the function answers every call as the source does. */
  ghost predicate Implements(g: Func, size: nat, f: S.Function) {
    forall t: Setting, args: seq<S.Val>, w: World, k: nat |
      t.g == g && t.size >= size && FrameOk(t) && ArgsOf(f, args) && t.params == Encoded(args) ::
      Answers(t, w, k, S.Call(f, args, k))
  }

  // ---------------------------------------------------------------------------------------------
  // Parameters

  /** An empty function with its entry block. */
  function Fresh(): State { State([1], map[1 := []], 1, 1, 2, None, None, map[]) }

  /** The first `n` parameters have been fetched into registers 1 to `n`. */
  function Fetched(n: nat): (s: State)
    requires n < TWO_63
    ensures s.cur == 1 && 1 in s.body && s.nextVreg == n + 1 && s.vars == map[] && s.loopCond == None
    ensures s.loopExit == None && s.order == [1]
    ensures s.body.Keys == {1} && s.nextBlock == 2 && !Closed(s.body[1])
  {
    if n == 0 then Fresh() else EmitValue(Fetched(n - 1), GetParam, [ConstInt(n - 1)])
  }

  function ParamRegs(params: seq<i64>, n: nat): Regs
    requires n <= |params|
  {
    if n == 0 then map[] else ParamRegs(params, n - 1)[n := params[n - 1]]
  }

  lemma {:induction false} ParamRegsAt(params: seq<i64>, n: nat, i: nat)
    requires i < n <= |params|
    ensures i + 1 in ParamRegs(params, n) && ParamRegs(params, n)[i + 1] == params[i]
  {
    if i + 1 < n { ParamRegsAt(params, n - 1, i); }
  }

  lemma NextFetched(j: nat)
    requires j + 1 < TWO_63
    ensures Fetched(j).nextVreg == j + 1 && Fetched(j + 1) == EmitValue(Fetched(j), GetParam, [ConstInt(j)])
  {}

  lemma {:induction false} FetchedOk(n: nat)
    requires n < TWO_63
    ensures Ok(Fetched(n)) && Grows(Fresh(), Fetched(n)) && Pending(Fetched(n).body[1]) == None
  {
    if n == 0 {
      FreshOk();
    } else {
      hide Ok, Grows, Pending, Fetched, EmitValue;
      FetchedOk(n - 1);
      NextFetched(n - 1);
      EmitValueKeepsOk(Fetched(n - 1), GetParam, [ConstInt(n - 1)]);
      GrowsTransitive(Fresh(), Fetched(n - 1), Fetched(n));
      NothingPending(n);
    }
  }

  lemma FreshOk()
    ensures Ok(Fetched(0)) && Grows(Fresh(), Fetched(0)) && Pending(Fetched(0).body[1]) == None
  {}

  lemma NothingPending(n: nat)
    requires 0 < n < TWO_63 && Pending(Fetched(n - 1).body[1]) == None
    ensures Pending(Fetched(n).body[1]) == None
  {
    hide Pending, Fetched, EmitValue;
    NextFetched(n - 1);
    EmittedLast(Fetched(n - 1), GetParam, [ConstInt(n - 1)]);
    PendingStays(Fetched(n - 1).body[1], Inst(GetParam, Some(n), [ConstInt(n - 1)]));
  }

  lemma EmittedLast(s: State, op: Opcode, ops: seq<Value>)
    requires IsOpen(s)
    ensures var e := EmitValue(s, op, ops);
      s.cur in e.body && e.body[s.cur] == s.body[s.cur] + [Inst(op, Some(s.nextVreg), ops)]
  {}

  lemma PendingStays(insts: seq<Inst>, inst: Inst)
    requires Pending(insts) == None && inst.op.GetParam?
    ensures Pending(insts + [inst]) == None
  {
    assert (insts + [inst])[..|insts|] == insts;
  }

  /** The entry point of a call. */
  function Entry(w: World): Point { Point(1, 0, map[], w) }

  lemma GetParamStep(m: Machine, params: seq<i64>, d: nat, i: nat, regs: Regs, w: World)
    requires i < |params| && i < TWO_63
    ensures Step(m, params, Inst(GetParam, Some(d), [ConstInt(i)]), regs, w) == Next(params[i], w)
  {
    var ops := [ConstInt(i)];
    assert EvalOperand(m, ops[0], regs) == Some(Int(i));
    assert EvalAll(m, ops, regs).value == [Int(i)];
  }

  lemma {:induction false} FetchRuns(t: Setting, n: nat, w: World)
    requires n <= |t.params| && n < TWO_63 && Holds(t.g, Fetched(n))
    ensures Leads(t, Entry(w), Here(Fetched(n), ParamRegs(t.params, n), w), 0)
  {
    hide Step, Emit, Holds, Grows, Ok, From, Leads, Fetched, ParamRegs;
    if n == 0 {
      NoneFetched(t, w);
    } else {
      var s, inst, regs := Fetched(n - 1), Inst(GetParam, Some(n), [ConstInt(n - 1)]), ParamRegs(t.params, n - 1);
      FetchedStep(t, n);
      assert Holds(t.g, s) by { EmitGrows(s, inst); HoldsEarlier(t.g, s, Emit(s, inst)); }
      FetchRuns(t, n - 1, w);
      GetParamStep(t.m, t.params, n, n - 1, regs, w);
      EmitLeads(t, s, inst, regs, w, t.params[n - 1], w);
      assert Here(Emit(s, inst), Write(regs, inst.dest, t.params[n - 1]), w)
        == Here(Fetched(n), ParamRegs(t.params, n), w);
      LeadsTransitive(t, Entry(w), Here(s, regs, w), Here(Fetched(n), ParamRegs(t.params, n), w), 0, 0);
    }
  }

  lemma NoneFetched(t: Setting, w: World)
    ensures Leads(t, Entry(w), Here(Fetched(0), ParamRegs(t.params, 0), w), 0)
  {
    hide From;
    assert Here(Fetched(0), ParamRegs(t.params, 0), w) == Entry(w);
  }

  lemma OneMoreFetched(n: nat)
    requires 0 < n < TWO_63
    ensures var s, inst := Fetched(n - 1), Inst(GetParam, Some(n), [ConstInt(n - 1)]);
      IsOpen(s) && Fetched(n).body == Emit(s, inst).body && Fetched(n).cur == Emit(s, inst).cur
  {
    assert Fetched(n - 1).nextVreg == n;
  }

  lemma FetchedStep(t: Setting, n: nat)
    requires 0 < n <= |t.params| && n < TWO_63 && Holds(t.g, Fetched(n))
    ensures var s, inst := Fetched(n - 1), Inst(GetParam, Some(n), [ConstInt(n - 1)]);
      && IsOpen(s) && Holds(t.g, Emit(s, inst)) && Fetched(n).body == Emit(s, inst).body
      && Fetched(n).cur == Emit(s, inst).cur
      && ParamRegs(t.params, n) == Write(ParamRegs(t.params, n - 1), Some(n), t.params[n - 1])
  {
    hide Holds, Fetched;
    OneMoreFetched(n);
    assert ParamRegs(t.params, n) == Write(ParamRegs(t.params, n - 1), Some(n), t.params[n - 1]);
    SameHolds(t, Fetched(n), Emit(Fetched(n - 1), Inst(GetParam, Some(n), [ConstInt(n - 1)])));
  }

  // ---------------------------------------------------------------------------------------------
  // Binding the parameters

  ghost predicate CallOf(t: Setting, s: State, f: S.Function, args: seq<S.Val>) {
    Holds(t.g, s) && FrameOk(t) && s.nextVreg <= t.size && ArgsOf(f, args) && t.params == Encoded(args)
  }

  /** What the slot of parameter `j` has to hold. */
  predicate SlotSuffices(f: S.Function, j: nat, size: i64)
    requires j < |f.params|
  {
    size >= if f.params[j] in f.logica then 1 else 8
  }

  ghost predicate ArgsRead(t: Setting, args: seq<S.Val>, regs: Regs)
  {
    forall i | 0 <= i < |args| :: Reads(t, VReg(i + 1), regs, S.Enc(args[i]))
  }

  /** The run has come to the insertion point of `s` with the first `j` parameters bound. */
  ghost predicate EnteredAt(t: Setting, s: State, f: S.Function, j: nat, args: seq<S.Val>, w: World, regs: Regs,
        w': World)
    requires j <= |f.params| == |args|
  {
    && IsOpen(s)
    && Goes(t, Fresh(), Entry(w), Here(s, regs, w'), 0)
    && Sim(t, s, S.Bind(f.params[..j], args[..j]), regs, w')
    && ArgsRead(t, args, regs)
  }

  function Among(params: seq<nat>): set<nat> { set x | x in params }

  ghost predicate EntryShape(s: State, f: S.Function, j: nat)
    requires j <= |f.params|
  {
    && Ok(s) && IsOpen(s) && Newer(Fresh(), s) && |f.params| < s.nextVreg && s.loopCond == None && s.loopExit == None
    && s.vars.Keys == Among(f.params[..j])
  }

  /** The code of `s` binds the first `j` parameters, whatever the arguments are. */
  ghost predicate Entered(s: State, f: S.Function, j: nat)
    requires j <= |f.params|
  {
    && EntryShape(s, f, j)
    && forall t: Setting, args: seq<S.Val>, w: World | CallOf(t, s, f, args) :: Enters(t, s, f, j, args, w)
  }

  ghost predicate Enters(t: Setting, s: State, f: S.Function, j: nat, args: seq<S.Val>, w: World)
    requires j <= |f.params|
  {
    |args| == |f.params| && exists regs, w' :: EnteredAt(t, s, f, j, args, w, regs, w')
  }

  lemma EntryOf(t: Setting, s: State, f: S.Function, j: nat, args: seq<S.Val>, w: World)
    returns (regs: Regs, w': World)
    requires j <= |f.params| && Entered(s, f, j) && CallOf(t, s, f, args)
    ensures |args| == |f.params| && EnteredAt(t, s, f, j, args, w, regs, w')
  {
    hide EnteredAt, CallOf, EntryShape;
    assert Enters(t, s, f, j, args, w);
    regs, w' :| EnteredAt(t, s, f, j, args, w, regs, w');
  }

  lemma {:induction false} BindKeys(params: seq<nat>, args: seq<S.Val>)
    requires |params| == |args|
    ensures S.Bind(params, args).Keys == Among(params)
  {
    if params != [] {
      BindKeys(params[..|params| - 1], args[..|params| - 1]);
      assert params == params[..|params| - 1] + [params[|params| - 1]];
    }
  }

  lemma BindNext(params: seq<nat>, args: seq<S.Val>, j: nat)
    requires j < |params| == |args|
    ensures S.Bind(params[..j + 1], args[..j + 1]) == S.Bind(params[..j], args[..j])[params[j] := args[j]]
    ensures Among(params[..j + 1]) == Among(params[..j]) + {params[j]}
    ensures S.Bind(params[..j], args[..j]).Keys == Among(params[..j])
  {
    assert params[..j + 1][..j] == params[..j] && args[..j + 1][..j] == args[..j];
    assert params[..j + 1] == params[..j] + [params[j]];
    BindKeys(params[..j], args[..j]);
  }

  lemma FetchedEntered(f: S.Function)
    requires |f.params| < TWO_63
    ensures Entered(Fetched(|f.params|), f, 0)
  {
    hide Fetched, EnteredAt, EntryShape;
    var s := Fetched(|f.params|);
    FetchedShape(f);
    forall t: Setting, args: seq<S.Val>, w: World | CallOf(t, s, f, args)
      ensures Enters(t, s, f, 0, args, w)
    {
      FetchedEnters(t, f, args, w);
      assert EnteredAt(t, s, f, 0, args, w, ParamRegs(t.params, |f.params|), w);
    }
  }

  lemma FetchedShape(f: S.Function)
    requires |f.params| < TWO_63
    ensures EntryShape(Fetched(|f.params|), f, 0)
  {
    hide Ok, Fetched, Grows;
    FetchedOk(|f.params|);
    assert f.params[..0] == [];
  }

  lemma FetchedEnters(t: Setting, f: S.Function, args: seq<S.Val>, w: World)
    requires |f.params| < TWO_63 && |args| == |f.params| && CallOf(t, Fetched(|f.params|), f, args)
    ensures EnteredAt(t, Fetched(|f.params|), f, 0, args, w, ParamRegs(t.params, |f.params|), w)
  {
    hide Ok, Holds, FrameOk, Leads, Reads, ParamRegs, Fetched, ArgsRead;
    assert |t.params| == |f.params|;
    var s, regs := Fetched(|f.params|), ParamRegs(t.params, |f.params|);
    FetchedOk(|f.params|);
    FetchRuns(t, |f.params|, w);
    FetchedArgs(t, args, regs);
    assert KeepRegs(1, map[], regs) by { ParamRegsKeep(t.params, |f.params|); }
    assert Kept(t, map[], 1, w, w);
    assert Goes(t, Fresh(), Entry(w), Here(s, regs, w), 0);
    assert f.params[..0] == [] && args[..0] == [] && S.Bind([], []) == map[];
    assert Sim(t, s, map[], regs, w);
  }

  lemma FetchedArgs(t: Setting, args: seq<S.Val>, regs: Regs)
    requires t.params == Encoded(args) && regs == ParamRegs(t.params, |args|)
    ensures ArgsRead(t, args, regs)
  {
    hide ParamRegs, Reads, Encoded;
    forall i | 0 <= i < |args|
      ensures Reads(t, VReg(i + 1), regs, S.Enc(args[i]))
    {
      FetchedArg(t, args, regs, i);
    }
  }

  lemma FetchedArg(t: Setting, args: seq<S.Val>, regs: Regs, i: nat)
    requires t.params == Encoded(args) && regs == ParamRegs(t.params, |args|) && i < |args|
    ensures Reads(t, VReg(i + 1), regs, S.Enc(args[i]))
  {
    hide ParamRegs;
    assert t.params[i] == S.Enc(args[i]);
    ParamRegsAt(t.params, |args|, i);
  }

  lemma {:induction false} ParamRegsKeep(params: seq<i64>, n: nat)
    requires n <= |params|
    ensures 0 !in ParamRegs(params, n)
  {
    if n > 0 { ParamRegsKeep(params, n - 1); }
  }

  /** A parameter that is assigned nowhere is bound to its register. */
  lemma EnterDirect(s: State, f: S.Function, j: nat)
    requires j < |f.params| && Entered(s, f, j)
    ensures Entered(Bind(s, f.params[j], Direct(VReg(j + 1))), f, j + 1)
  {
    hide Encoded, EnteredAt, EntryShape, FrameOk, Holds;
    var s' := Bind(s, f.params[j], Direct(VReg(j + 1)));
    DirectShape(s, f, j);
    var k := j + 1;
    forall t: Setting, args: seq<S.Val>, w: World | CallOf(t, s', f, args)
      ensures Enters(t, s', f, k, args, w)
    {
      assert s'.body == s.body && s'.nextVreg == s.nextVreg && |args| == |f.params|;
      assert CallOf(t, s, f, args) by { SameHolds(t, s', s); }
      var regs, w' := EntryOf(t, s, f, j, args, w);
      DirectEntered(t, s, f, j, args, w, regs, w');
      assert Enters(t, s', f, k, args, w);
    }
  }

  lemma DirectShape(s: State, f: S.Function, j: nat)
    requires j < |f.params| && Entered(s, f, j)
    ensures EntryShape(Bind(s, f.params[j], Direct(VReg(j + 1))), f, j + 1)
  {
    hide BlockBelow, EnteredAt;
    var s' := Bind(s, f.params[j], Direct(VReg(j + 1)));
    BindNext(f.params, seq(|f.params|, i => S.I(0)), j);
    forall p: nat | IsCell(s'.vars, p)
      ensures IsCell(s.vars, p)
    {
      var y :| y in s'.vars && s'.vars[y] == Cell(p);
      assert s.vars[y] == Cell(p);
    }
  }

  lemma DirectEntered(t: Setting, s: State, f: S.Function, j: nat, args: seq<S.Val>, w: World, regs: Regs, w': World)
    requires j < |f.params| == |args| && EnteredAt(t, s, f, j, args, w, regs, w')
    ensures EnteredAt(t, Bind(s, f.params[j], Direct(VReg(j + 1))), f, j + 1, args, w, regs, w')
  {
    hide Goes, Mirrors, StoreHolds, Reads, S.Bind;
    BindNext(f.params, args, j);
    assert Reads(t, VReg(j + 1), regs, S.Enc(args[j]));
    MirrorsDirect(t, s.vars, S.Bind(f.params[..j], args[..j]), regs, w', f.params[j], VReg(j + 1), args[j]);
  }

  /** Any other one is stored into a cell. */
  lemma EnterCell(s: State, f: S.Function, j: nat, size: i64)
    requires j < |f.params| && Entered(s, f, j) && f.params[j] !in f.params[..j] && SlotSuffices(f, j, size)
    ensures s.cur in s.body && Entered(CellDeclared(s, f.params[j], size, VReg(j + 1)), f, j + 1)
  {
    hide CellDeclared, Encoded, EnteredAt, EntryShape, FrameOk, Grows, Holds;
    CellShape(s, f, j, size);
    var s' := CellDeclared(s, f.params[j], size, VReg(j + 1));
    var k := j + 1;
    forall t: Setting, args: seq<S.Val>, w: World | CallOf(t, s', f, args)
      ensures Enters(t, s', f, k, args, w)
    {
      assert |args| == |f.params|;
      HoldsTo(t, s, s');
      assert CallOf(t, s, f, args);
      var regs, w1 := EntryOf(t, s, f, j, args, w);
      var regs', w' := CellEntered(t, s, f, j, size, args, w, regs, w1);
      assert Enters(t, s', f, k, args, w);
    }
  }

  lemma CellShape(s: State, f: S.Function, j: nat, size: i64)
    requires j < |f.params| && Entered(s, f, j) && f.params[j] !in f.params[..j]
    ensures s.cur in s.body
    ensures var s' := CellDeclared(s, f.params[j], size, VReg(j + 1));
      EntryShape(s', f, j + 1) && Grows(s, s') && s.nextVreg <= s'.nextVreg
  {
    hide Ok, EnteredAt, Grows, Local, IsCell, Grown;
    var x, v, d := f.params[j], VReg(j + 1), s.vars.Keys;
    OkCurrent(s);
    SelfBuilt(s);
    CellDeclGrown(s, d, s, x, size, v);
    CellDeclGrows(s, d, s, x, size, v);
    var s' := CellDeclared(s, x, size, v);
    GrownCounters(s, d, s');
    NewerTransitive(Fresh(), s, s');
    BindNext(f.params, seq(|f.params|, i => S.I(0)), j);
    assert s'.vars == s.vars[x := Cell(s.nextVreg)] && IsOpen(s');
  }

  lemma CellEntered(t: Setting, s: State, f: S.Function, j: nat, size: i64, args: seq<S.Val>, w: World, regs: Regs,
        w1: World)
    returns (regs': Regs, w': World)
    requires j < |f.params| == |args| && EntryShape(s, f, j) && s.cur in s.body && f.params[j] !in f.params[..j]
    requires SlotSuffices(f, j, size)
    requires CallOf(t, CellDeclared(s, f.params[j], size, VReg(j + 1)), f, args)
    requires EnteredAt(t, s, f, j, args, w, regs, w1)
    ensures EnteredAt(t, CellDeclared(s, f.params[j], size, VReg(j + 1)), f, j + 1, args, w, regs', w')
  {
    hide Ok, Goes, Sim, Reads, S.Bind, CellDeclared, Holds, FrameOk, Newer, KeepRegs;
    var s', env := CellDeclared(s, f.params[j], size, VReg(j + 1)), S.Bind(f.params[..j], args[..j]);
    BindNext(f.params, args, j);
    regs', w' := CellBound(t, s, f.params[j], size, VReg(j + 1), env, args[j], regs, w1);
    GoesTransitive(t, Fresh(), Entry(w), Here(s, regs, w1), 0, s, Here(s', regs', w'), 0);
    ArgsKept(t, args, s.nextVreg, regs, regs');
  }

  lemma ArgsKept(t: Setting, args: seq<S.Val>, n: nat, regs: Regs, regs': Regs)
    requires ArgsRead(t, args, regs) && KeepRegs(n, regs, regs') && |args| < n
    ensures ArgsRead(t, args, regs')
  {
    hide Reads, KeepRegs;
    forall i | 0 <= i < |args|
      ensures Reads(t, VReg(i + 1), regs', S.Enc(args[i]))
    {
      StillReads(t, VReg(i + 1), n, regs, regs', S.Enc(args[i]));
    }
  }

  // ---------------------------------------------------------------------------------------------
  // Whole functions

  /** A return of nothing or of zero, unless the block has been left already. */
  predicate Epilogue(sB: State, v: Option<Value>, sE: State)
    requires sB.cur in sB.body
  {
    (v.None? || v == Some(ConstInt(0))) && (sE == Emit(sB, ReturnInst(v)) || (Closed(sB.body[sB.cur]) && sE == sB))
  }

  /** The code of `s` binds the parameters and that between `s` and `sB` executes the body; `sE` has the epilogue. */
  ghost predicate FunctionBuilt(f: S.Function, s: State, sB: State, sE: State) {
    && Entered(s, f, |f.params|) && Executes(s, f.body, s.vars.Keys, sB) && S.FunctionOk(f) && sB.cur in sB.body
    && Grows(sB, sE) && sE.nextVreg == sB.nextVreg
    && sE.order != [] && sE.order[0] == 1 && 1 in sE.body
    && exists v: Option<Value> :: Epilogue(sB, v, sE)
  }

  /** The call's run comes to the start of the body. */
  lemma BodyEntered(f: S.Function, s: State, sB: State, t: Setting, args: seq<S.Val>, w: World)
    returns (regs: Regs, w': World)
    requires Entered(s, f, |f.params|) && Executes(s, f.body, s.vars.Keys, sB) && CallOf(t, sB, f, args)
    ensures |args| == |f.params| && Goes(t, Fresh(), Entry(w), Here(s, regs, w'), 0) && s.cur in s.body
    ensures ReadyFor(t, s, sB, s.vars.Keys, S.Bind(f.params, args), regs, w')
  {
    hide Among, ArgsRead, Closed, Encoded, Enters, Entry, Executes, FrameOk, Fresh, Goes, Grown, Grows, Here, Holds,
      Newer, Ok, SameOn, Sim, S.Bind, S.Declares;
    ExecutesKeeps(s, f.body, s.vars.Keys, sB);
    GrownCounters(s, s.vars.Keys, sB);
    assert Holds(t.g, sB) && FrameOk(t) && sB.nextVreg <= t.size && |args| == |f.params|;
    HoldsTo(t, s, sB);
    assert CallOf(t, s, f, args);
    regs, w' := EntryOf(t, s, f, |f.params|, args, w);
    assert f.params[..|f.params|] == f.params && args[..|f.params|] == args;
    BindKeys(f.params, args);
    assert s.vars.Keys == Among(f.params);
    assert IsOpen(s) && Sim(t, s, S.Bind(f.params, args), regs, w') && Goes(t, Fresh(), Entry(w), Here(s, regs, w'), 0);
    assert s.cur in s.body;
  }

  /** How the body ends, seen from the entry. */
  lemma BodyEnding(f: S.Function, s: State, sB: State, t: Setting, args: seq<S.Val>, w: World, k: nat)
    requires Entered(s, f, |f.params|) && Executes(s, f.body, s.vars.Keys, sB) && CallOf(t, sB, f, args)
    requires |args| == |f.params|
    ensures Ending(t, Fresh(), Entry(w), k, sB, {}, S.Run(f.body, S.Bind(f.params, args), k))
  {
    hide Among, CallOf, Ending, Enters, Entry, Executes, Goes, Here, IsOpen, Newer, Ok, ReadyFor, S.Bind, S.Run;
    var d, env := s.vars.Keys, S.Bind(f.params, args);
    var regs, w' := BodyEntered(f, s, sB, t, args, w);
    EndingOf(s, f.body, d, sB, t, env, regs, w', k);
    assert Newer(Fresh(), s) && s.loopCond == None && s.loopExit == None;
    assert SameOn({}, Fresh().vars, s.vars);
    EndingAfter(t, Fresh(), Entry(w), Here(s, regs, w'), 0, s, k, k, sB, {}, d, S.Run(f.body, env, k));
  }

  lemma RunIsFrom(t: Setting, w: World, n: nat)
    requires t.g.order != [] && t.g.order[0] == 1 && n > 0 && 1 in t.g.body
    ensures RunFunc(t.m, t.g, t.params, w, n) == From(t, Entry(w), n - 1)
  {
    assert t.g.body[1][0..] == t.g.body[1];
  }

  lemma EntryKept(t: Setting, w: World, w': World)
    requires Kept(t, Fresh().vars, Fresh().nextVreg, w, w')
    ensures Kept(t, map[], 0, w, w')
  {
    forall a: int | !MayTouch(t, map[], 0, a)
      ensures SameAt(a, w, w')
    {
      assert !MayTouch(t, map[], 1, a);
    }
  }

  lemma FinishedAlike(t: Setting, w: World, o: Outcome, w': World, c: nat)
    requires Finishes(t, Fresh(), Entry(w), o, w', c) && t.g.order != [] && t.g.order[0] == 1 && 1 in t.g.body
    ensures EndsAlike(t, w, o, w', c)
  {
    hide Kept, RunFunc, From;
    forall n: nat | n > c
      ensures RunFunc(t.m, t.g, t.params, w, n) == o
    {
      RunIsFrom(t, w, n);
      assert From(t, Entry(w), n - 1) == o;
    }
    EntryKept(t, w, w');
  }

  /** A body that falls off its end runs into the epilogue. */
  lemma EpilogueRuns(t: Setting, sB: State, v: Option<Value>, sE: State, env: S.Env, w: World, regs: Regs, w': World,
        c: nat)
    requires Arrives(t, Fresh(), Entry(w), sB, env, regs, w', c) && sB.cur in sB.body && Epilogue(sB, v, sE)
    requires Holds(t.g, sE)
    ensures Finishes(t, Fresh(), Entry(w), Returned(0, w'), w', c)
  {
    hide Sim, KeepRegs, Leads, EndsWith, Emit, Holds, ReturnInst, Newer;
    ReturnStep(t, v, regs, w', 0);
    EmitEnds(t, sB, ReturnInst(v), regs, w', Returned(0, w'));
    assert Kept(t, sB.vars, sB.nextVreg, w', w');
    assert Finishes(t, Fresh(), Here(sB, regs, w'), Returned(0, w'), w', 0);
    NewerSelf(Fresh());
    FinishAfter(t, Fresh(), Entry(w), Here(sB, regs, w'), c, Fresh(), Returned(0, w'), w', 0);
  }

  lemma CallAnswers(f: S.Function, s: State, sB: State, sE: State, t: Setting, args: seq<S.Val>, w: World, k: nat)
    requires FunctionBuilt(f, s, sB, sE) && t.g == Func(sE.order, sE.body) && sE.nextVreg <= t.size
    requires FrameOk(t) && ArgsOf(f, args) && t.params == Encoded(args)
    ensures Answers(t, w, k, S.Call(f, args, k))
  {
    hide Arrives, Encoded, EndsAlike, Entered, Entry, Epilogue, Escapes, Executes, Finishes, FrameOk, Fresh, Grows,
      Holds, RunFunc, Survives, S.Bind, S.Declares, S.Enc, S.KeysOk, S.Run, S.Scoped;
    var env := S.Bind(f.params, args);
    var r := S.Run(f.body, env, k);
    SelfHolds(t, sE);
    HoldsTo(t, sB, sE);
    assert CallOf(t, sB, f, args);
    BodyEnding(f, s, sB, t, args, w, k);
    BindKeys(f.params, args);
    assert S.Scoped(f.body, env.Keys, false);
    S.RunKeepsScope(f.body, env, k, false);
    assert S.Call(f, args, k) == (if r.Normal? then S.Returns(None) else r);
    match r {
      case Normal(e) =>
        var regs, w', c := ArrivalOf(t, Fresh(), Entry(w), k, sB, {}, r);
        var v :| Epilogue(sB, v, sE);
        EpilogueRuns(t, sB, v, sE, e, w, regs, w', c);
        FinishedAlike(t, w, Returned(0, w'), w', c);
        assert S.Answer(None) == 0;
      case Returns(v) =>
        var w', c: nat :| Finishes(t, Fresh(), Entry(w), Returned(S.Answer(v), w'), w', c);
        FinishedAlike(t, w, Returned(S.Answer(v), w'), w', c);
      case Halts =>
        var w', c: nat :| Finishes(t, Fresh(), Entry(w), Trapped(w'), w', c);
        FinishedAlike(t, w, Trapped(w'), w', c);
      case Endless =>
        assert Survives(t, Entry(w), k);
        EndlessRuns(t, w, k);
      case Fails =>
      case _ =>
    }
  }

  lemma EndlessRuns(t: Setting, w: World, k: nat)
    requires Survives(t, Entry(w), k) && t.g.order != [] && t.g.order[0] == 1 && 1 in t.g.body
    ensures forall n: nat | n <= k :: RunFunc(t.m, t.g, t.params, w, n) == OutOfFuel
  {
    hide From;
    forall n: nat | n <= k
      ensures RunFunc(t.m, t.g, t.params, w, n) == OutOfFuel
    {
      if n > 0 { RunIsFrom(t, w, n); assert From(t, Entry(w), n - 1) == OutOfFuel; } else { }
    }
  }

  lemma SelfHolds(t: Setting, sE: State)
    requires t.g == Func(sE.order, sE.body)
    ensures Holds(t.g, sE)
  {}

  lemma BuiltImplements(f: S.Function, s: State, sB: State, sE: State)
    requires FunctionBuilt(f, s, sB, sE)
    ensures Implements(Func(sE.order, sE.body), sE.nextVreg, f)
  {
    hide Answers, Encoded, FrameOk, FunctionBuilt, S.Call;
    var g := Func(sE.order, sE.body);
    forall t: Setting, args: seq<S.Val>, w: World, k: nat |
      t.g == g && t.size >= sE.nextVreg && FrameOk(t) && ArgsOf(f, args) && t.params == Encoded(args)
      ensures Answers(t, w, k, S.Call(f, args, k))
    {
      CallAnswers(f, s, sB, sE, t, args, w, k);
    }
  }

  /** A generated function: parameters, body and epilogue. */
  method GenFunction(f: S.Function) returns (g: Func, size: nat, ghost cert: Cert)
    requires S.FunctionOk(f) && |f.params| < TWO_63
    ensures Implements(g, size, f) && StrictSsa(cert, g) && cert.low == 1
  {
    hide Entered, Epilogue, Executes, Fetched, Fresh, Grown, Grows, Implements, Newer, Ok, ParamsBound, Prepared,
      Promoted, SameOn, S.Declares, S.FunctionOk, Settled, Carried, Went, Sound, Fit, StrictSsa;
    var b := new IrBuilder();
    StartEntry(b);
    var argVals := GetParams(b, |f.params|);
    BindParams(b, f, argVals);
    ghost var s := b.Now();
    b.currentFuncBody := Some(f.body);
    ghost var c := b.cert;
    BodyReady(f, s);
    StartSettled(c, s, f);
    GenStatement(b, f.body, s.vars.Keys, false);
    CarriedWent(c, s, b.cert, b.Now(), s.vars.Keys + S.Declares(f.body));
    WentSound(c, s, b.cert, b.Now());
    b.currentFuncBody := None;
    ghost var sB := b.Now();
    assert Executes(s, f.body, s.vars.Keys, sB);
    ExecutesKeeps(s, f.body, s.vars.Keys, sB);
    GrownCounters(s, s.vars.Keys, sB);
    OkCurrent(sB);
    ghost var v := FinishFunction(b, f.nihil);
    ghost var sE := b.Now();
    EpilogueGrows(s, sB, v, sE);
    assert FunctionBuilt(f, s, sB, sE) by { assert Epilogue(sB, v, sE); }
    BuiltImplements(f, s, sB, sE);
    g, size, cert := Func(b.order, b.body), b.nextVreg, b.cert;
    SoundCode(cert, sE);
  }

  lemma SoundCode(c: Cert, s: State)
    requires Sound(c, s)
    ensures StrictSsa(c, Func(s.order, s.body)) && c.low == 1
  {
    hide StrictSsa, Plain;
  }

  /** At the start of the body the parameters are in scope, and there is no loop. */
  lemma StartSettled(c: Cert, s: State, f: S.Function)
    requires Fit(c, s, s.vars.Keys) && Entered(s, f, |f.params|)
    ensures Settled(c, s, s.vars.Keys)
  {
    hide Fit, Ok, Enters;
  }

  method StartEntry(b: IrBuilder)
    requires b.Now() == State([], map[], 0, 1, 1, None, None, map[])
    modifies b`order, b`body, b`cur, b`nextBlock, b`cert
    ensures b.Now() == Fresh() && Fit(b.cert, b.Now(), {})
  {
    hide Sound;
    var entry := b.CreateBlock();
    b.SetInsertPoint(entry);
    b.cert := StartCert();
    StartSound(b.Now());
  }

  /** Registers 1 to `n` may be used. */
  ghost predicate ArgsKnown(c: Cert, s: State, n: nat) { forall v: nat | 1 <= v <= n :: Known(c, s, VReg(v)) }

  /** All parameters are fetched first, into registers 1, 2 and so on. */
  method GetParams(b: IrBuilder, n: nat) returns (argVals: seq<Value>)
    requires b.Now() == Fresh() && n < TWO_63 && Fit(b.cert, b.Now(), {})
    modifies b`body, b`nextVreg, b`cert
    ensures b.Now() == Fetched(n) && |argVals| == n && forall i | 0 <= i < n :: argVals[i] == VReg(i + 1)
    ensures Fit(b.cert, b.Now(), {}) && ArgsKnown(b.cert, b.Now(), n)
  {
    hide Emit, Fit, Known, Sound, Fetched, EmitValue, WithValue, ArgsKnown;
    argVals := [];
    FirstFetched(b.cert);
    for j := 0 to n
      invariant b.Now() == Fetched(j) && |argVals| == j && forall i | 0 <= i < j :: argVals[i] == VReg(i + 1)
      invariant Fit(b.cert, b.Now(), {}) && ArgsKnown(b.cert, b.Now(), j)
    {
      FetchKnown(b.cert, b.Now(), j);
      NextFetched(j);
      var v := b.CreateValue(GetParam, [ConstInt(j)]);
      argVals := argVals + [v];
    }
  }

  lemma FirstFetched(c: Cert)
    ensures Fetched(0) == Fresh() && ArgsKnown(c, Fresh(), 0)
  {}

  /** The next parameter, and the ones before it. */
  lemma FetchKnown(c: Cert, s: State, j: nat)
    requires j < TWO_63 && Fit(c, s, {}) && s.nextVreg == j + 1 && s.cur in s.body && ArgsKnown(c, s, j)
    ensures var c', s' := WithValue(c, s), EmitValue(s, GetParam, [ConstInt(j)]);
      Fit(c', s', {}) && ArgsKnown(c', s', j + 1)
  {
    hide Known, Sound, Extends, WithValue, EmitValue, MayEmit;
    var c', s' := WithValue(c, s), EmitValue(s, GetParam, [ConstInt(j)]);
    LiteralKnown(c, s, ConstInt(j));
    MayCompute(c, s, GetParam, [ConstInt(j)]);
    ValueSound(c, s, GetParam, [ConstInt(j)]);
    forall v: nat | 1 <= v <= j + 1
      ensures Known(c', s', VReg(v))
    {
      if v <= j { KnownLater(c, s, c', s', VReg(v)); }
    }
  }

  /** The parameters bound so far: a promoted one is assigned nowhere. */
  ghost predicate ParamsBound(s: State, f: S.Function, j: nat)
    requires j <= |f.params|
  {
    Entered(s, f, j) && s.order == [1] && 1 in s.body && Promoted(s.vars, s.vars.Keys, Some(f.body))
  }

  /** Every parameter is bound to its register, or stored into a cell if the body assigns it. */
  method BindParams(b: IrBuilder, f: S.Function, argVals: seq<Value>)
    requires S.FunctionOk(f) && |f.params| < TWO_63 && b.Now() == Fetched(|f.params|)
    requires |argVals| == |f.params| && forall i | 0 <= i < |f.params| :: argVals[i] == VReg(i + 1)
    requires Fit(b.cert, b.Now(), {}) && ArgsKnown(b.cert, b.Now(), |f.params|)
    modifies b`body, b`nextVreg, b`vars, b`cert
    ensures ParamsBound(b.Now(), f, |f.params|) && Fit(b.cert, b.Now(), b.vars.Keys)
  {
    hide Emit, EmitValue, Entered, Fetched, StoreInst, S.Mutates, S.Scoped, Fit, Known, Sound, ParamsBound,
      S.FunctionOk;
    StartBinding(f);
    assert b.vars.Keys == {} by { NothingBound(f); }
    for j := 0 to |f.params|
      invariant ParamsBound(b.Now(), f, j) && Fit(b.cert, b.Now(), b.vars.Keys)
      invariant ArgsKnown(b.cert, b.Now(), |f.params|)
    {
      BindParam(b, f, j, argVals[j]);
    }
  }

  lemma StartBinding(f: S.Function)
    requires |f.params| < TWO_63
    ensures ParamsBound(Fetched(|f.params|), f, 0)
  {
    hide Entered;
    FetchedEntered(f);
  }

  lemma NothingBound(f: S.Function)
    requires |f.params| < TWO_63
    ensures Fetched(|f.params|).vars == map[]
  {}

  method BindParam(b: IrBuilder, f: S.Function, j: nat, arg: Value)
    requires S.FunctionOk(f) && j < |f.params| && ParamsBound(b.Now(), f, j) && arg == VReg(j + 1)
    requires Fit(b.cert, b.Now(), b.vars.Keys) && ArgsKnown(b.cert, b.Now(), |f.params|)
    modifies b`body, b`nextVreg, b`vars, b`cert
    ensures ParamsBound(b.Now(), f, j + 1) && Fit(b.cert, b.Now(), b.vars.Keys)
    ensures ArgsKnown(b.cert, b.Now(), |f.params|)
  {
    hide Emit, EmitValue, Entered, StoreInst, S.Mutates, S.Scoped, Fit, Known, Sound, Carried, Went, Found, Promoted;
    ghost var c, s := b.cert, b.Now();
    assert Entered(s, f, j);
    var x := f.params[j];
    FitSound(c, s, s.vars.Keys);
    if !S.Mutates(f.body, x) {
      EnterDirect(s, f, j);
      BindCarries(c, s, s.vars.Keys, x, Direct(arg));
      b.vars := b.vars[x := Direct(arg)];
      BoundDirect(s, f, j);
    } else {
      assert x !in f.params[..j];
      ghost var size := if x in f.logica then 1 else 8;
      EnterCell(s, f, j, size);
      var p := b.BuildAlloca(if x in f.logica then 1 else 8);
      ghost var c2, s2 := b.cert, b.Now();
      FoundFit(c, s, s.vars.Keys, c2, s2, VReg(p));
      KnownThen(c, s, c2, s2, arg);
      b.vars := b.vars[x := Cell(p)];
      ghost var s3 := b.Now();
      BindCarries(c2, s2, s.vars.Keys, x, Cell(p));
      BoundKnown(c2, s2, x, Cell(p), arg);
      BoundKnown(c2, s2, x, Cell(p), VReg(p));
      CellDeclSteps(s, x, size, VReg(j + 1), s3);
      b.BuildStore(arg, p);
      CarriedOn(c, s, c2, s2, c2, s3, b.cert, b.Now(), s.vars.Keys + {x});
      BoundCell(s, f, j, size);
    }
    BoundFit(c, s, x, b.cert, b.Now(), |f.params|);
  }

  lemma BoundFit(c: Cert, s: State, x: nat, c': Cert, s': State, n: nat)
    requires Carried(c, s, c', s', s.vars.Keys + {x}) && s'.vars.Keys == s.vars.Keys + {x}
    requires ArgsKnown(c, s, n)
    ensures Fit(c', s', s'.vars.Keys) && ArgsKnown(c', s', n)
  {
    hide Known, Sound, Extends, VarsKnown;
    forall v: nat | 1 <= v <= n
      ensures Known(c', s', VReg(v))
    {
      KnownThen(c, s, c', s', VReg(v));
    }
  }

  lemma BoundDirect(s: State, f: S.Function, j: nat)
    requires j < |f.params| && ParamsBound(s, f, j) && !S.Mutates(f.body, f.params[j])
    requires Entered(Bind(s, f.params[j], Direct(VReg(j + 1))), f, j + 1)
    ensures ParamsBound(Bind(s, f.params[j], Direct(VReg(j + 1))), f, j + 1)
  {
    hide Entered, S.Mutates;
  }

  lemma BoundCell(s: State, f: S.Function, j: nat, size: i64)
    requires j < |f.params| && ParamsBound(s, f, j) && s.cur in s.body && S.Mutates(f.body, f.params[j])
    requires Entered(CellDeclared(s, f.params[j], size, VReg(j + 1)), f, j + 1)
    ensures ParamsBound(CellDeclared(s, f.params[j], size, VReg(j + 1)), f, j + 1)
  {
    hide Entered, S.Mutates;
  }

  lemma BodyReady(f: S.Function, s: State)
    requires S.FunctionOk(f) && ParamsBound(s, f, |f.params|)
    ensures Prepared(s, f.body, s.vars.Keys, false, Some(f.body)) && Entered(s, f, |f.params|) && s.order == [1]
    ensures 1 in s.body
  {
    hide Ok, S.Mutates, S.Scoped, Enters;
    assert f.params[..|f.params|] == f.params;
    assert s.vars.Keys == (set x | x in f.params);
  }

  /** A function's last block returns nothing or zero, unless it has returned or stopped already. */
  method FinishFunction(b: IrBuilder, nihil: bool) returns (ghost v: Option<Value>)
    requires b.cur in b.body && Sound(b.cert, b.Now())
    modifies b`body
    ensures old(b.cur in b.body) && Epilogue(old(b.Now()), v, b.Now())
    ensures Sound(b.cert, b.Now())
  {
    hide Sound, Known, Extends;
    var insts := b.body[b.cur];
    v := None;
    LiteralKnown(b.cert, b.Now(), ConstInt(0));
    LeaveWent(b.cert, b.Now(), Ret, []);
    LeaveWent(b.cert, b.Now(), Ret, [ConstInt(0)]);
    if insts == [] || (!insts[|insts| - 1].op.Ret? && !insts[|insts| - 1].op.Trap?) {
      if nihil {
        b.CreateInst(Inst(Ret, None, []));
      } else {
        v := Some(ConstInt(0));
        b.CreateInst(Inst(Ret, None, [ConstInt(0)]));
      }
    }
  }

  lemma EpilogueGrows(s: State, sB: State, v: Option<Value>, sE: State)
    requires sB.cur in sB.body && Epilogue(sB, v, sE) && s.order == [1] && 1 in s.body && Grows(s, sB)
    ensures Grows(sB, sE) && sE.nextVreg == sB.nextVreg && sE.order != [] && sE.order[0] == 1 && 1 in sE.body
  {
    assert 1 in sB.body;
    EmitGrows(sB, ReturnInst(v));
  }

  // ---------------------------------------------------------------------------------------------
  // What an implementation tells about the source

  /** A generated function that returns has computed the source's answer, or the source faults; one
      that never stops belongs to a call that does not end. */
  lemma RunsTellAnswers(g: Func, size: nat, f: S.Function, t: Setting, args: seq<S.Val>, w: World, n: nat)
    requires Implements(g, size, f) && t.g == g && t.size >= size && FrameOk(t) && ArgsOf(f, args)
    requires t.params == Encoded(args)
    requires RunFunc(t.m, g, t.params, w, n) != OutOfFuel
    ensures var r, o := S.Call(f, args, n), RunFunc(t.m, g, t.params, w, n);
      || r.Fails?
      || (r.Returns? && o.Returned? && o.v == S.Answer(r.v) && Kept(t, map[], 0, w, o.w))
      || (r.Halts? && o.Trapped? && Kept(t, map[], 0, w, o.w))
  {
    hide Encoded, EndsAlike, FrameOk, Kept, RunFunc, S.Answer, S.Call;
    assert Answers(t, w, n, S.Call(f, args, n));
    var r := S.Call(f, args, n);
    match r {
      case Returns(v) =>
        var w', c :| EndsAlike(t, w, Returned(S.Answer(v), w'), w', c);
        SameEnd(t, w, Returned(S.Answer(v), w'), w', c, n);
      case Halts =>
        var w', c :| EndsAlike(t, w, Trapped(w'), w', c);
        SameEnd(t, w, Trapped(w'), w', c, n);
      case Endless => assert false;
      case Fails =>
      case _ => assert false;
    }
  }

  /** More fuel does not change an end that has been reached. */
  lemma {:induction false} MoreFuel(m: Machine, g: Func, params: seq<i64>, b: nat, regs: Regs, w: World, n: nat, k: nat)
    requires Run(m, g, params, b, regs, w, n) != OutOfFuel && n <= k
    ensures Run(m, g, params, b, regs, w, k) == Run(m, g, params, b, regs, w, n)
    decreases n
  {
    if b in g.body && RunBlock(m, params, g.body[b], regs, w).Goto? {
      var r := RunBlock(m, params, g.body[b], regs, w);
      MoreFuel(m, g, params, r.id, r.regs, r.w, n - 1, k - 1);
    }
  }

  lemma SameEnd(t: Setting, w: World, o: Outcome, w': World, c: nat, n: nat)
    requires EndsAlike(t, w, o, w', c) && RunFunc(t.m, t.g, t.params, w, n) != OutOfFuel
    ensures RunFunc(t.m, t.g, t.params, w, n) == o && Kept(t, map[], 0, w, w')
  {
    hide Run, Kept;
    var k := if n > c then n else c + 1;
    if t.g.order != [] { MoreFuel(t.m, t.g, t.params, t.g.order[0], map[], w, n, k); }
    assert RunFunc(t.m, t.g, t.params, w, k) == o;
  }
}
