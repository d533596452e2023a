/** Statements without control flow of their own, and jumps. */
module SimpleStatements {
  import opened Sir
  import opened Builder
  import opened Frames
  import opened BuildOps
  import opened Expressions
  import opened ShortCircuit
  import opened Statements
  import S = Source

  lemma EvalExecutes(s: State, e: S.Expr, d: set<nat>, s': State, v: Value)
    requires Evaluates(s, e, s', v) && d <= s.vars.Keys
    ensures Executes(s, S.Eval(e), d, s')
  {
    hide Ok, Grown, Holds, FrameOk, Sim, S.Value, Evaluates, Goes, Reads;
    EvaluatesKeeps(s, e, s', v);
    BuiltGrown(s, d, s');
    forall t: Setting, env: S.Env, regs: Regs, w: World, k: nat | ReadyFor(t, s, s', d, env, regs, w)
      ensures Ending(t, s, Here(s, regs, w), k, s', d, S.Run(S.Eval(e), env, k))
    {
      if S.Value(e, env).Some? {
        var p := S.Value(e, env).value;
        var regs', w', c := RunOf(s, e, s', v, t, env, regs, w, p.0, p.1);
        assert IsOpen(s') && Sim(t, s', p.1, regs', w');
        ReachedGoes(t, s, regs, w, s', p.1, regs', w', c);
        assert Arrives(t, s, Here(s, regs, w), s', p.1, regs', w', c);
      }
    }
  }

  // ---------------------------------------------------------------------------------------------
  // Declarations

  function Bind(s: State, x: nat, b: Binding): State { s.(vars := s.vars[x := b]) }

  /** Without an initializer a variable starts as zero or false. */
  function DefaultExpr(isBool: bool): S.Expr { if isBool then S.BoolLit(false) else S.Lit(0) }

  lemma DefaultRun(x: nat, isBool: bool, env: S.Env, k: nat)
    ensures S.Run(S.Decl(x, isBool, None), env, k) == S.Run(S.Decl(x, isBool, Some(DefaultExpr(isBool))), env, k)
  {}

  lemma DefaultExecutes(s: State, x: nat, isBool: bool, d: set<nat>, s': State)
    requires Executes(s, S.Decl(x, isBool, Some(DefaultExpr(isBool))), d, s')
    ensures Executes(s, S.Decl(x, isBool, None), d, s')
  {
    hide Grown, Ending, S.Run, Holds, FrameOk, Sim;
    forall t: Setting, env: S.Env, regs: Regs, w: World, k: nat | ReadyFor(t, s, s', d, env, regs, w)
      ensures Ending(t, s, Here(s, regs, w), k, s', d, S.Run(S.Decl(x, isBool, None), env, k))
    {
      DefaultRun(x, isBool, env, k);
    }
  }

  lemma BindDirectGrown(s: State, d: set<nat>, s1: State, x: nat, v: Value)
    requires Built(s, s1) && d <= s.vars.Keys && x !in d && ValueBelow(v, s1.nextVreg)
    ensures Grown(s, d, Bind(s1, x, Direct(v)))
  {
    hide BlockBelow;
    var s2 := Bind(s1, x, Direct(v));
    forall p: nat | IsCell(s2.vars, p)
      ensures IsCell(s.vars, p)
    {
      var y :| y in s2.vars && s2.vars[y] == Cell(p);
      assert s.vars[y] == Cell(p);
    }
    assert Grows(s, s2);
    assert Local(s, s2);
  }

  /** A variable that is never assigned is bound to its value. */
  lemma DirectDeclExecutes(s: State, x: nat, isBool: bool, e: S.Expr, d: set<nat>, s1: State, v: Value)
    requires Evaluates(s, e, s1, v) && d <= s.vars.Keys && x !in d
    ensures Executes(s, S.Decl(x, isBool, Some(e)), d, Bind(s1, x, Direct(v)))
  {
    hide Ok, Grown, Holds, FrameOk, S.Value, Evaluates, Goes, Mirrors, StoreHolds, Built;
    var s2 := Bind(s1, x, Direct(v));
    EvaluatesKeeps(s, e, s1, v);
    BindDirectGrown(s, d, s1, x, v);
    forall t: Setting, env: S.Env, regs: Regs, w: World, k: nat | ReadyFor(t, s, s2, d, env, regs, w)
      ensures Ending(t, s, Here(s, regs, w), k, s2, d, S.Run(S.Decl(x, isBool, Some(e)), env, k))
    {
      if S.Value(e, env).Some? {
        var p := S.Value(e, env).value;
        SameHolds(t, s2, s1);
        var regs', w', c := RunOf(s, e, s1, v, t, env, regs, w, p.0, p.1);
        ReachedGoes(t, s, regs, w, s1, p.1, regs', w', c);
        S.ValueKeepsScope(e, env);
        MirrorsDirect(t, s1.vars, p.1, regs', w', x, v, p.0);
        assert Arrives(t, s, Here(s, regs, w), s2, p.1[x := p.0], regs', w', c);
      }
    }
  }

  lemma SameHolds(t: Setting, s: State, s': State)
    requires Holds(t.g, s) && s'.body == s.body
    ensures Holds(t.g, s')
  {}

  lemma MirrorsDirect(t: Setting, vars: map<nat, Binding>, env: S.Env, regs: Regs, w: World, x: nat, v: Value,
        val: S.Val)
    requires Mirrors(t, vars, env, regs, w) && Reads(t, v, regs, S.Enc(val))
    ensures Mirrors(t, vars[x := Direct(v)], env[x := val], regs, w)
  {
    hide EvalOperand;
    var vars', env' := vars[x := Direct(v)], env[x := val];
    forall y | y in env'
      ensures y in vars' && Lives(t, vars'[y], env'[y], regs, w)
    {
      if y != x { assert Lives(t, vars[y], env[y], regs, w); }
    }
  }

  /** The states of a declaration with a frame cell. */
  function CellDeclared(s: State, x: nat, size: i64, v: Value): State
    requires s.cur in s.body
  {
    Emit(Bind(EmitValue(s, Alloca, [ConstInt(size)]), x, Cell(s.nextVreg)), StoreInst(v, s.nextVreg))
  }

  lemma BindCellOk(s: State, x: nat, p: nat)
    requires Ok(s) && p < s.nextVreg && !IsCell(s.vars, p)
    ensures Ok(Bind(s, x, Cell(p)))
  {
    hide BlockBelow;
    var s' := Bind(s, x, Cell(p));
    forall y, z | y in s'.vars && z in s'.vars && y != z && s'.vars[y].Cell?
      ensures s'.vars[y] != s'.vars[z]
    {
      if y == x { assert s.vars[z] != Cell(p); }
      if z == x { assert s.vars[y] != Cell(p); }
    }
  }

  lemma CellDeclGrown(s: State, d: set<nat>, s1: State, x: nat, size: i64, v: Value)
    requires Built(s, s1) && d <= s.vars.Keys && x !in d && ValueBelow(v, s1.nextVreg) && Ok(s)
    ensures Ok(s1) && s1.cur in s1.body
    ensures var s2 := EmitValue(s1, Alloca, [ConstInt(size)]);
      && Ok(s2) && s2.cur in s2.body && s2.vars == s1.vars && s2.nextVreg == s1.nextVreg + 1
      && !IsCell(s2.vars, s1.nextVreg) && Grows(s1, s2)
      && var s3 := Bind(s2, x, Cell(s1.nextVreg));
         Ok(s3) && Grows(s3, CellDeclared(s1, x, size, v)) && Grown(s, d, CellDeclared(s1, x, size, v))
  {
    hide Grows, Local, CellsDiffer, IsCell;
    var p := s1.nextVreg;
    var s2 := EmitValue(s1, Alloca, [ConstInt(size)]);
    EmitBuilt(s1, Alloca, [ConstInt(size)]);
    BuiltTransitive(s, s1, s2);
    NotACell(s1, p);
    var s3 := Bind(s2, x, Cell(p));
    BindCellOk(s2, x, p);
    var s4 := Emit(s3, StoreInst(v, p));
    EmitKeepsOk(s3, StoreInst(v, p));
    assert Valid(s);
    Counters(s, s1);
    CellDeclStays(s, d, s2, x, p, StoreInst(v, p), s4);
  }

  lemma CellDeclStays(s: State, d: set<nat>, s2: State, x: nat, p: nat, inst: Inst, s4: State)
    requires Valid(s) && Built(s, s2) && d <= s.vars.Keys && x !in d && s.nextVreg <= p
    requires var s3 := Bind(s2, x, Cell(p)); s3.cur in s3.body && Ok(s4) && s4 == Emit(s3, inst) && Grows(s3, s4)
    ensures Grown(s, d, s4)
  {
    hide Ok, BlockGrows;
    var s3 := Bind(s2, x, Cell(p));
    assert Grows(s2, s4);
    GrowsTransitive(s, s2, s4);
    forall q: nat | IsCell(s4.vars, q)
      ensures q >= s.nextVreg || IsCell(s.vars, q)
    {
      var y :| y in s4.vars && s4.vars[y] == Cell(q);
      if y != x { assert s.vars[y] == Cell(q); }
    }
    forall b | b in s.body && b != s.cur
      ensures b in s4.body && s4.body[b] == s.body[b]
    {
      assert b in s2.body && s2.body[b] == s.body[b];
      assert b != s2.cur || s2.cur == s.cur;
    }
  }

  /** A variable that is assigned somewhere gets a cell of its own. */
  lemma CellDeclExecutes(s: State, x: nat, isBool: bool, e: S.Expr, d: set<nat>, s1: State, v: Value, size: i64)
    requires Ok(s) && Evaluates(s, e, s1, v) && d <= s.vars.Keys && x !in d && size >= if isBool then 1 else 8
    ensures s1.cur in s1.body && Executes(s, S.Decl(x, isBool, Some(e)), d, CellDeclared(s1, x, size, v))
  {
    hide Built, Closed, EmitValue, Ending, Evaluates, Grown, Grows, Here, IsCell, Newer, Ok, ReadyFor, StoreInst,
      ValueBelow, S.Run;
    EvaluatesKeeps(s, e, s1, v);
    CellDeclGrown(s, d, s1, x, size, v);
    OkCurrent(s);
    var s4 := CellDeclared(s1, x, size, v);
    assert x in s4.vars;
    forall t: Setting, env: S.Env, regs: Regs, w: World, k: nat | ReadyFor(t, s, s4, d, env, regs, w)
      ensures Ending(t, s, Here(s, regs, w), k, s4, d, S.Run(S.Decl(x, isBool, Some(e)), env, k))
    {
      CellDeclRun(s, x, isBool, e, d, s1, v, size, t, env, regs, w, k);
    }
    assert S.Declares(S.Decl(x, isBool, Some(e))) <= s4.vars.Keys;
  }

  lemma OkCurrent(s: State)
    requires Ok(s)
    ensures s.cur in s.body
  {}

  lemma CellDeclRun(s: State, x: nat, isBool: bool, e: S.Expr, d: set<nat>, s1: State, v: Value, size: i64, t: Setting,
        env: S.Env, regs: Regs, w: World, k: nat)
    requires Ok(s) && Evaluates(s, e, s1, v) && d <= s.vars.Keys && x !in d && s1.cur in s1.body && s.cur in s.body
    requires ReadyFor(t, s, CellDeclared(s1, x, size, v), d, env, regs, w) && size >= if isBool then 1 else 8
    ensures Ending(t, s, Here(s, regs, w), k, CellDeclared(s1, x, size, v), d,
      S.Run(S.Decl(x, isBool, Some(e)), env, k))
  {
    if S.Value(e, env).Some? && S.Value(e, env).value.0.B? == isBool {
      CellDeclValueRun(s, x, isBool, e, d, s1, v, size, t, env, regs, w, k);
    }
  }

  /** A value that has been computed goes into a new cell. */
  lemma CellBound(t: Setting, s1: State, x: nat, size: i64, v: Value, env: S.Env, val: S.Val, regs1: Regs, w1: World)
    returns (regs2: Regs, w2: World)
    requires Ok(s1) && IsOpen(s1) && Sim(t, s1, env, regs1, w1) && x !in env && ValueBelow(v, s1.nextVreg)
    requires Reads(t, v, regs1, S.Enc(val)) && Width(val) <= size
    requires FrameOk(t) && Holds(t.g, CellDeclared(s1, x, size, v)) && CellDeclared(s1, x, size, v).nextVreg <= t.size
    ensures var s4 := CellDeclared(s1, x, size, v);
      && IsOpen(s4) && Sim(t, s4, env[x := val], regs2, w2) && Goes(t, s1, Here(s1, regs1, w1), Here(s4, regs2, w2), 0)
      && KeepRegs(s1.nextVreg, regs1, regs2)
  {
    hide Ok, Grown, FrameOk, S.Value, Mirrors, StoreHolds, Built, CellsDiffer, BlockBelow, Grows, IsCell, Emit,
      EmitValue, Reads, Holds;
    SelfBuilt(s1);
    CellDeclGrown(s1, {}, s1, x, size, v);
    var p := s1.nextVreg;
    var s2 := EmitValue(s1, Alloca, [ConstInt(size)]);
    var s3 := Bind(s2, x, Cell(p));
    var s4 := CellDeclared(s1, x, size, v);
    CellDeclSizes(s1, x, size, v);
    HoldsTo(t, s3, s4);
    SameHolds(t, s3, s2);
    assert Ready(t, s1, s2, env, regs1, w1);
    AllocaReaches(t, s1, size, env, regs1, w1);
    regs2 := regs1[p := t.addr(p)];
    ReadsAfter(t, s1, regs1, w1, s2, env, regs2, w1, 0, v, S.Enc(val));
    assert IsOpen(s2) && Sim(t, s2, env, regs2, w1) && KeepRegs(s1.nextVreg, regs1, regs2);
    CellDeclStore(t, s2, x, p, v, env, val, regs2, w1);
    w2 := w1.(mem := w1.mem[t.addr(p) := S.Enc(val)]);
    ReachedGoes(t, s1, regs1, w1, s2, env, regs2, w1, 0);
    assert Goes(t, s2, Here(s2, regs2, w1), Here(s3, regs2, w1), 0);
    GoesStore(t, s1, Here(s1, regs1, w1), Here(s2, regs2, w1), 0, p, S.Enc(val), Here(s4, regs2, w2));
  }

  lemma CellDeclValueRun(s: State, x: nat, isBool: bool, e: S.Expr, d: set<nat>, s1: State, v: Value, size: i64,
        t: Setting, env: S.Env, regs: Regs, w: World, k: nat)
    requires Ok(s) && Evaluates(s, e, s1, v) && d <= s.vars.Keys && x !in d && s1.cur in s1.body && s.cur in s.body
    requires ReadyFor(t, s, CellDeclared(s1, x, size, v), d, env, regs, w) && S.Value(e, env).Some?
    requires S.Value(e, env).value.0.B? == isBool && size >= if isBool then 1 else 8
    ensures Ending(t, s, Here(s, regs, w), k, CellDeclared(s1, x, size, v), d,
      S.Run(S.Decl(x, isBool, Some(e)), env, k))
  {
    hide Ok, Grown, FrameOk, S.Value, Evaluates, Sim, Built, Grows, IsCell, Emit, EmitValue, KeepRegs, Kept, Leads,
      Reads, Holds, Goes, CellDeclared, Newer;
    EvaluatesKeeps(s, e, s1, v);
    CellDeclGrown(s, d, s1, x, size, v);
    var q, s4 := S.Value(e, env).value, CellDeclared(s1, x, size, v);
    CellDeclSizes(s1, x, size, v);
    CellDeclGrows(s, d, s1, x, size, v);
    HoldsTo(t, s1, s4);
    assert Ready(t, s, s1, env, regs, w);
    var regs1, w1, c := RunOf(s, e, s1, v, t, env, regs, w, q.0, q.1);
    assert IsOpen(s1) && Sim(t, s1, q.1, regs1, w1);
    S.ValueKeepsScope(e, env);
    var regs2, w2 := CellBound(t, s1, x, size, v, q.1, q.0, regs1, w1);
    ReachedGoes(t, s, regs, w, s1, q.1, regs1, w1, c);
    GoesTransitive(t, s, Here(s, regs, w), Here(s1, regs1, w1), c, s1, Here(s4, regs2, w2), 0);
    assert Arrives(t, s, Here(s, regs, w), s4, q.1[x := q.0], regs2, w2, c + 0);
  }

  lemma CellDeclGrows(s: State, d: set<nat>, s1: State, x: nat, size: i64, v: Value)
    requires Built(s, s1) && d <= s.vars.Keys && x !in d && ValueBelow(v, s1.nextVreg) && Ok(s)
    ensures s1.cur in s1.body && Grows(s1, CellDeclared(s1, x, size, v))
  {
    hide Ok, Built, Grown, Emit, EmitValue, IsCell;
    CellDeclGrown(s, d, s1, x, size, v);
    var s2 := EmitValue(s1, Alloca, [ConstInt(size)]);
    assert Grows(s2, Bind(s2, x, Cell(s1.nextVreg)));
    GrowsTransitive(s1, s2, Bind(s2, x, Cell(s1.nextVreg)));
    GrowsTransitive(s1, Bind(s2, x, Cell(s1.nextVreg)), CellDeclared(s1, x, size, v));
  }

  lemma CellDeclSizes(s1: State, x: nat, size: i64, v: Value)
    requires s1.cur in s1.body
    ensures CellDeclared(s1, x, size, v).nextVreg == s1.nextVreg + 1
    ensures EmitValue(s1, Alloca, [ConstInt(size)]).nextVreg == s1.nextVreg + 1
  {}

  /** A store since then to a new cell. */
  lemma GoesStore(t: Setting, s: State, x: Point, y: Point, c: nat, p: nat, v: i64, z: Point)
    requires Goes(t, s, x, y, c) && Leads(t, y, z, 0) && z.regs == y.regs && z.w == y.w.(mem := y.w.mem[t.addr(p) := v])
    requires p < t.size && t.bytes(p) > 0 && (p >= s.nextVreg || IsCell(s.vars, p))
    ensures Goes(t, s, x, z, c)
  {
    hide KeepRegs, Kept, Leads, IsCell;
    StoreKept(t, s.vars, s.nextVreg, p, y.w, v);
    KeptTransitive(t, s.vars, s.nextVreg, x.w, y.w, s.vars, s.nextVreg, z.w);
    LeadsTransitive(t, x, y, z, c, 0);
  }

  /** The initial value goes into the new cell. */
  lemma CellDeclStore(t: Setting, s2: State, x: nat, p: nat, v: Value, env: S.Env, val: S.Val, regs: Regs, w: World)
    requires Ok(s2) && p < s2.nextVreg <= t.size && !IsCell(s2.vars, p) && ValueBelow(v, s2.nextVreg) && FrameOk(t)
    requires x !in env && Width(val) <= t.bytes(p)
    requires IsOpen(s2) && Sim(t, s2, env, regs, w) && Reads(t, v, regs, S.Enc(val))
    requires Reads(t, VReg(p), regs, t.addr(p))
    requires Ok(Bind(s2, x, Cell(p))) && Holds(t.g, Emit(Bind(s2, x, Cell(p)), StoreInst(v, p)))
    ensures var s3, w' := Bind(s2, x, Cell(p)), w.(mem := w.mem[t.addr(p) := S.Enc(val)]);
      var s4 := Emit(s3, StoreInst(v, p));
      && IsOpen(s4) && Sim(t, s4, env[x := val], regs, w') && Leads(t, Here(s2, regs, w), Here(s4, regs, w'), 0)
  {
    hide Ok, StoreHolds, IsCell, Leads, AllocaOk, StoreOk, LoadOk, SlotsApart, AllReserved;
    var s3, w' := Bind(s2, x, Cell(p)), w.(mem := w.mem[t.addr(p) := S.Enc(val)]);
    EncFits(val, t.bytes(p));
    SpareMirrors(t, s2.vars, env, regs, w, p, S.Enc(val));
    forall y | y in env
      ensures y in s3.vars && Lives(t, s3.vars[y], env[y], regs, w)
    {
      assert Lives(t, s2.vars[y], env[y], regs, w);
    }
    var env' := env[x := val];
    forall y | y in env'
      ensures y in s3.vars && Lives(t, s3.vars[y], env'[y], regs, w')
    {
      if y != x { assert Lives(t, s2.vars[y], env[y], regs, w'); }
    }
    assert Emit(s3, StoreInst(v, p)).nextVreg == s3.nextVreg;
    StoreReaches(t, s3, v, p, env, regs, w, S.Enc(val), env');
  }

  // ---------------------------------------------------------------------------------------------
  // Leaving the function or the loop

  function ReturnInst(v: Option<Value>): Inst { Inst(Ret, None, if v.Some? then [v.value] else []) }

  lemma ReturnStep(t: Setting, v: Option<Value>, regs: Regs, w: World, x: i64)
    requires v.Some? ==> Reads(t, v.value, regs, x)
    ensures Step(t.m, t.params, ReturnInst(v), regs, w) == Finish(Returned(if v.Some? then x else 0, w))
  {
    hide Compute, EvalOperand;
    if v.Some? {
      var ops := [v.value];
      assert EvalOperand(t.m, ops[0], regs) == Some(Int(x));
      assert EvalAll(t.m, ops, regs).value == [Int(x)];
    }
  }

  lemma LeftGrown(s: State, d: set<nat>, s': State)
    requires Left(s, s') && d <= s.vars.Keys
    ensures Grown(s, d, s')
  {
    hide Ok, Grows, Local, IsCell;
  }

  lemma ReturnExecutes(s: State, e: S.Expr, d: set<nat>, s1: State, v: Value)
    requires Ok(s) && Evaluates(s, e, s1, v) && d <= s.vars.Keys
    ensures s1.cur in s1.body && Executes(s, S.Return(Some(e)), d, Emit(s1, ReturnInst(Some(v))))
  {
    hide Ok, Grown, FrameOk, S.Value, Evaluates, Goes, Mirrors, StoreHolds, Built, Local, Grows, KeepRegs, Leads,
      EndsWith, EvalOperand, Newer, Emit, Holds;
    EvaluatesKeeps(s, e, s1, v);
    Counters(s, s1);
    OkCurrent(s);
    var s2 := Emit(s1, ReturnInst(Some(v)));
    LeaveBlock(s1, ReturnInst(Some(v)));
    BuiltGrown(s, d, s1);
    LeftGrown(s1, d, s2);
    GrownTransitive(s, d, s1, d, s2);
    forall t: Setting, env: S.Env, regs: Regs, w: World, k: nat | ReadyFor(t, s, s2, d, env, regs, w)
      ensures Ending(t, s, Here(s, regs, w), k, s2, d, S.Run(S.Return(Some(e)), env, k))
    {
      if S.Value(e, env).Some? {
        var p := S.Value(e, env).value;
        ReadyForEarlier(t, s, s1, s2, d, env, regs, w);
        var regs1, w1, c := RunOf(s, e, s1, v, t, env, regs, w, p.0, p.1);
        ReturnStep(t, Some(v), regs1, w1, S.Enc(p.0));
        assert IsOpen(s1);
        EmitEnds(t, s1, ReturnInst(Some(v)), regs1, w1, Returned(S.Enc(p.0), w1));
        ReachedGoes(t, s, regs, w, s1, p.1, regs1, w1, c);
        assert Finishes(t, s1, Here(s1, regs1, w1), Returned(S.Enc(p.0), w1), w1, 0);
        BuiltIsNewer(s, s1);
        FinishAfter(t, s, Here(s, regs, w), Here(s1, regs1, w1), c, s1, Returned(S.Enc(p.0), w1), w1, 0);
        assert S.Run(S.Return(Some(e)), env, k) == S.Returns(Some(p.0)) && S.Answer(Some(p.0)) == S.Enc(p.0);
      }
    }
  }

  /** `redde` without a value, and `halt`: the run ends here. */
  lemma StopExecutes(s: State, st: S.Stmt, d: set<nat>)
    requires Ok(s) && d <= s.vars.Keys && (st == S.Return(None) || st == S.Halt)
    ensures s.cur in s.body && Executes(s, st, d, Emit(s, if st.Halt? then Inst(Trap, None, []) else ReturnInst(None)))
  {
    hide Grown, Ready, Ending, Local, Grows, Newer, Emit, S.Run;
    var inst := if st.Halt? then Inst(Trap, None, []) else ReturnInst(None);
    var s2 := Emit(s, inst);
    assert s.cur in s.body;
    LeaveBlock(s, inst);
    LeftGrown(s, d, s2);
    forall t: Setting, env: S.Env, regs: Regs, w: World, k: nat | ReadyFor(t, s, s2, d, env, regs, w)
      ensures Ending(t, s, Here(s, regs, w), k, s2, d, S.Run(st, env, k))
    {
      StopEnds(s, st, inst, d, t, env, regs, w, k);
    }
  }

  lemma StopEnds(s: State, st: S.Stmt, inst: Inst, d: set<nat>, t: Setting, env: S.Env, regs: Regs, w: World, k: nat)
    requires s.cur in s.body && Ready(t, s, Emit(s, inst), env, regs, w) && (st == S.Return(None) || st == S.Halt)
    requires inst == if st.Halt? then Inst(Trap, None, []) else ReturnInst(None)
    ensures Ending(t, s, Here(s, regs, w), k, Emit(s, inst), d, S.Run(st, env, k))
  {
    hide FrameOk, Sim, Emit, Holds, Finishes, S.Run;
    var o := if st.Halt? then Trapped(w) else Returned(0, w);
    StopRun(st, env, k);
    ReturnStep(t, None, regs, w, 0);
    EmitFinishes(t, s, inst, regs, w, o);
    assert Finishes(t, s, Here(s, regs, w), o, w, 0);
  }

  lemma EmitFinishes(t: Setting, s: State, inst: Inst, regs: Regs, w: World, o: Outcome)
    requires IsOpen(s) && Holds(t.g, Emit(s, inst)) && Step(t.m, t.params, inst, regs, w) == Finish(o)
    ensures Finishes(t, s, Here(s, regs, w), o, w, 0)
  {
    hide EndsWith, Emit, Holds, Step;
    EmitEnds(t, s, inst, regs, w, o);
    assert Kept(t, s.vars, s.nextVreg, w, w);
  }

  lemma StopRun(st: S.Stmt, env: S.Env, k: nat)
    requires st == S.Return(None) || st == S.Halt
    ensures S.Run(st, env, k) == (if st.Halt? then S.Halts else S.Returns(None)) && S.Answer(None) == 0
  {}

  lemma JumpOutExecutes(s: State, st: S.Stmt, d: set<nat>, target: nat)
    requires Ok(s) && d <= s.vars.Keys && target in s.body
    requires (st.Break? && s.loopExit == Some(target)) || (st.Continue? && s.loopCond == Some(target))
    ensures s.cur in s.body && Executes(s, st, d, Emit(s, JumpInst(target)))
  {
    hide Grown, FrameOk, StoreHolds, Local, Grows, Leads, Newer, Lives, KeepRegs, Kept;
    var s2 := Emit(s, JumpInst(target));
    assert s.cur in s.body;
    LeaveBlock(s, JumpInst(target));
    LeftGrown(s, d, s2);
    forall t: Setting, env: S.Env, regs: Regs, w: World, k: nat | ReadyFor(t, s, s2, d, env, regs, w)
      ensures Ending(t, s, Here(s, regs, w), k, s2, d, S.Run(st, env, k))
    {
      JumpStep(t.m, t.params, target, regs, w);
      assert target in t.g.body by { assert target in s2.body; }
      JumpLeads(t, s, JumpInst(target), regs, w, target);
      JumpGoes(t, s, Here(s, regs, w), Point(target, 0, regs, w));
      assert S.Within(env, d) == env;
      assert Escapes(t, s, Here(s, regs, w), target, d, env, regs, w, 1);
    }
  }

  /** Outside a loop nothing is generated, and no such jump is in scope. */
  lemma StrayJumpExecutes(s: State, st: S.Stmt, d: set<nat>)
    requires Ok(s) && d <= s.vars.Keys && ((st.Break? && s.loopExit.None?) || (st.Continue? && s.loopCond.None?))
    ensures Executes(s, st, d, s)
  {
    hide Ok, FrameOk, Sim, Holds;
    NewerSelf(s);
  }
}
