/** Loops: the body's code comes before the condition's; every way round takes at least one block. */
module Loops {
  import opened Sir
  import opened Builder
  import opened Frames
  import opened BuildOps
  import opened Expressions
  import opened ShortCircuit
  import opened Statements
  import opened SimpleStatements
  import opened Conditionals
  import S = Source

  // ---------------------------------------------------------------------------------------------
  // The states of a loop

  /** Inside the loop `perge` and `rumpe` have targets. */
  function WithLoops(s: State, cond: Option<nat>, exit: Option<nat>): State { s.(loopCond := cond, loopExit := exit) }

  /** The loop's blocks, numbered in the order of creation. */
  datatype Blocks = Blocks(body: nat, inc: nat, cond: nat, exit: nat)

  function BlocksOf(s0: State, isFor: bool): Blocks {
    var n := s0.nextBlock;
    if isFor then Blocks(n, n + 1, n + 2, n + 3) else Blocks(n, n + 1, n + 1, n + 2)
  }

  function Created(s0: State, isFor: bool): State {
    if isFor then NewBlock(NewBlock(NewBlock(NewBlock(s0)))) else NewBlock(NewBlock(NewBlock(s0)))
  }

  /** The current block has jumped to the condition, and the insertion point is the body. */
  function AtBody(s0: State, isFor: bool): State
    requires s0.cur in s0.body
  {
    JoinedAt(Created(s0, isFor), BlocksOf(s0, isFor).cond, BlocksOf(s0, isFor).body)
  }

  /** `s` as it is inside the loop begun at `s0`, and as it is outside. */
  function Inside(s0: State, isFor: bool, s: State): State {
    WithLoops(s, Some(BlocksOf(s0, isFor).inc), Some(BlocksOf(s0, isFor).exit))
  }

  function Outside(s0: State, s: State): State { WithLoops(s, s0.loopCond, s0.loopExit) }

  /** The insertion point is the condition, after the body and the increment (`sI` is the state behind them). */
  function AtCond(s0: State, isFor: bool, sI: State): State
    requires sI.cur in sI.body
  {
    Inside(s0, isFor, JoinedAt(Outside(s0, sI), BlocksOf(s0, isFor).cond, BlocksOf(s0, isFor).cond))
  }

  /** The insertion point is the increment, after the body. */
  function AtInc(s0: State, sD: State): State
    requires sD.cur in sD.body
  {
    Inside(s0, true, JoinedAt(Outside(s0, sD), BlocksOf(s0, true).inc, BlocksOf(s0, true).inc))
  }

  /** The condition has branched, and the insertion point is behind the loop. */
  function AtExit(s0: State, isFor: bool, sF: State, v: Value): State
    requires sF.cur in sF.body
  {
    MoveTo(Emit(Outside(s0, sF), BranchInst(v, BlocksOf(s0, isFor).body, BlocksOf(s0, isFor).exit)),
      BlocksOf(s0, isFor).exit)
  }

  /** A missing condition is true. */
  function CondExpr(c: Option<S.Expr>): S.Expr { if c.Some? then c.value else S.BoolLit(true) }

  /** The pieces of a generated loop. */
  ghost predicate LoopBuilt(s0: State, isFor: bool, c: Option<S.Expr>, inc: Option<S.Expr>, body: S.Stmt, d: set<nat>,
        sD: State, sI: State, sF: State, v: Value) {
    && Ok(s0) && s0.cur in s0.body && d <= s0.vars.Keys && (isFor || inc.None?)
    && Created(s0, isFor).cur in Created(s0, isFor).body
    && Executes(Inside(s0, isFor, AtBody(s0, isFor)), body, d, sD) && sD.cur in sD.body
    && (if isFor && inc.Some? then exists u ::
      Evaluates(AtInc(s0, sD), inc.value, sI, u) else if isFor then sI == AtInc(s0, sD) else sI == sD)
    && sI.cur in sI.body && Evaluates(AtCond(s0, isFor, sI), CondExpr(c), sF, v) && sF.cur in sF.body
  }

  // ---------------------------------------------------------------------------------------------
  // Soundness of the states

  lemma GrownLoops(s: State, d: set<nat>, s': State, a: Option<nat>, b: Option<nat>)
    requires Grown(s, d, s')
    ensures Grown(WithLoops(s, a, b), d, WithLoops(s', a, b))
  {
    hide BlockBelow, CellsDiffer, BindingBelow, BlockGrows;
  }

  lemma OutsideGrown(s0: State, d: set<nat>, s: State, s': State)
    requires Grown(s, d, s')
    ensures Grown(Outside(s0, s), d, Outside(s0, s'))
  {
    hide Grown;
    GrownLoops(s, d, s', s0.loopCond, s0.loopExit);
  }

  /** All states of a loop, seen from outside, are sound continuations of `s0`. */
  ghost predicate LoopStates(s0: State, isFor: bool, d: set<nat>, sD: State, sI: State, sF: State, v: Value)
    requires s0.cur in s0.body && sD.cur in sD.body && sI.cur in sI.body && sF.cur in sF.body
  {
    var k := BlocksOf(s0, isFor);
    var uB, uE, sH := AtBody(s0, isFor), Outside(s0, AtCond(s0, isFor, sI)), AtExit(s0, isFor, sF, v);
    && Grown(s0, d, uB) && Grown(s0, d, uE) && Grown(s0, d, sH)
    && StartsAt(uB, k.body) && StartsAt(uE, k.cond) && StartsAt(sH, k.exit)
    && Grows(uB, sD) && Grows(sD, uE) && Grows(sI, uE) && Grows(uE, sF) && Grows(sF, sH) && Grows(uB, sH)
    && Grows(sD, sH) && Grows(sI, sH)
    && ValueBelow(v, sF.nextVreg) && sD.nextVreg <= sI.nextVreg <= sF.nextVreg == sH.nextVreg
    && (isFor ==>
      var uI := Outside(s0, AtInc(s0, sD)); Grown(s0, d, uI) && StartsAt(uI, k.inc) && Grows(sD, uI) && Grows(uI, sI))
  }

  lemma AtBodyShape(s0: State, isFor: bool, d: set<nat>)
    requires Ok(s0) && d <= s0.vars.Keys
    ensures s0.cur in s0.body && Created(s0, isFor).cur in Created(s0, isFor).body
    ensures var k, uB := BlocksOf(s0, isFor), AtBody(s0, isFor);
      && Grown(s0, d, uB) && StartsAt(uB, k.body) && Waiting(uB, k.cond) && Waiting(uB, k.exit) && Waiting(uB, k.inc)
      && Grows(s0, uB) && Emit(Created(s0, isFor), JumpInst(k.cond)).body == uB.body
  {
    hide Ok, Grown, Emit, JumpInst, Waiting, Grows;
    var k := BlocksOf(s0, isFor);
    OkCurrent(s0);
    GrownSelf(s0, d);
    var n1, n2, n3 := NewBlock(s0), NewBlock(NewBlock(s0)), NewBlock(NewBlock(NewBlock(s0)));
    GrownNew(s0, d, s0);
    WaitingNew(s0);
    GrownCounters(s0, d, n1);
    GrownNew(s0, d, n1);
    WaitingNew(n1);
    GrownCounters(s0, d, n2);
    GrownNew(s0, d, n2);
    WaitingNew(n2);
    if isFor { GrownCounters(s0, d, n3); GrownNew(s0, d, n3); WaitingNew(n3); }
    var c := Created(s0, isFor);
    GrownCounters(s0, d, c);
    OkCurrent(c);
    GrownSelf(c, d) by { assert c.vars == s0.vars; }
    JoinedShape(s0, d, c, c, k.cond, k.body);
    GrownCounters(s0, d, AtBody(s0, isFor));
    assert Emit(c, JumpInst(k.cond)).body == AtBody(s0, isFor).body;
  }

  lemma GrowsInside(s0: State, isFor: bool, s: State, t: State)
    requires Grows(Outside(s0, s), t) || Grows(s, t)
    ensures Grows(s, t)
  {
    hide BlockGrows;
  }

  /** From the body to the start of the increment or of the condition. */
  lemma BodyShape(s0: State, isFor: bool, body: S.Stmt, d: set<nat>, sD: State, next: nat)
    requires Ok(s0) && s0.cur in s0.body && d <= s0.vars.Keys && Created(s0, isFor).cur in Created(s0, isFor).body
    requires Executes(Inside(s0, isFor, AtBody(s0, isFor)), body, d, sD) && sD.cur in sD.body
    requires next == BlocksOf(s0, isFor).inc
    ensures var k, uB, u := BlocksOf(s0, isFor), AtBody(s0, isFor), JoinedAt(Outside(s0, sD), next, next);
      && Grown(s0, d, uB) && StartsAt(uB, k.body) && Grows(uB, sD) && Grown(s0, d, Outside(s0, sD))
      && Grown(s0, d, u) && StartsAt(u, next) && Grows(sD, u) && Grows(uB, u) && u.nextVreg == sD.nextVreg
      && Waiting(u, k.exit) && (k.cond != next ==> Waiting(u, k.cond))
  {
    hide Ok, Grown, Emit, JumpInst, Waiting, Grows, JoinedAt, Executes, Created, AtBody;
    var k, uB := BlocksOf(s0, isFor), AtBody(s0, isFor);
    AtBodyShape(s0, isFor, d);
    var sC, uD := Inside(s0, isFor, uB), Outside(s0, sD);
    ExecutesKeeps(sC, body, d, sD);
    GrownCounters(s0, d, uB);
    assert Outside(s0, sC) == uB;
    OutsideGrown(s0, d, sC, sD);
    GrownCounters(sC, d, sD);
    GrowsOutside(s0, isFor, uB, sC, sD);
    JoinedShape(s0, d, uB, uD, next, next);
    GrowsInside(s0, isFor, sD, JoinedAt(uD, next, next));
  }

  lemma GrowsOutside(s0: State, isFor: bool, uB: State, sC: State, sD: State)
    requires sC == Inside(s0, isFor, uB) && Grows(sC, sD)
    ensures Grows(uB, sD)
  {
    hide BlockGrows;
  }

  /** From the condition to the exit. */
  lemma CondShape(s0: State, isFor: bool, d: set<nat>, uE: State, e: S.Expr, sF: State, v: Value)
    requires Ok(s0) && d <= s0.vars.Keys && Grown(s0, d, uE) && StartsAt(uE, BlocksOf(s0, isFor).cond)
    requires Waiting(uE, BlocksOf(s0, isFor).exit)
    requires Evaluates(Inside(s0, isFor, uE), e, sF, v)
    ensures sF.cur in sF.body
    ensures var k, sH := BlocksOf(s0, isFor), AtExit(s0, isFor, sF, v);
      && Grown(s0, d, sH) && StartsAt(sH, k.exit) && Grows(uE, sF) && Grows(sF, sH) && ValueBelow(v, sF.nextVreg)
      && uE.nextVreg <= sF.nextVreg == sH.nextVreg
  {
    hide Ok, BranchInst, Evaluates, ValueBelow;
    var k := BlocksOf(s0, isFor);
    var sE, uF := Inside(s0, isFor, uE), Outside(s0, sF);
    GrownCounters(s0, d, uE);
    EvaluatesKeeps(sE, e, sF, v);
    BuiltGrown(sE, d, sF);
    assert Outside(s0, sE) == uE;
    OutsideGrown(s0, d, sE, sF);
    GrownCounters(sE, d, sF);
    GrownCounters(uE, d, uF);
    GrownTransitive(s0, d, uE, d, uF);
    var j := BranchInst(v, k.body, k.exit);
    BranchBelow(v, k.body, k.exit, uF.nextVreg);
    GrownEmit(s0, d, uF, j);
    assert Local(uE, uF);
    WaitingStays(uE, uF, k.exit);
    WaitingEmit(uF, j, k.exit);
    assert k.exit in Emit(uF, j).body && Emit(uF, j).body[k.exit] == [];
    GrownMove(s0, d, Emit(uF, j), k.exit);
    EmitGrows(uF, j);
    GrowsOutside(s0, isFor, uE, sE, sF);
    assert Grows(uF, AtExit(s0, isFor, sF, v));
    GrowsInside(s0, isFor, sF, AtExit(s0, isFor, sF, v));
    assert Emit(uF, j).nextVreg == uF.nextVreg;
  }

  /** From the increment to the start of the condition. */
  lemma IncShape(s0: State, d: set<nat>, inc: Option<S.Expr>, uI: State, sI: State)
    requires Ok(s0) && d <= s0.vars.Keys && Grown(s0, d, uI) && Waiting(uI, BlocksOf(s0, true).cond)
    requires Waiting(uI, BlocksOf(s0, true).exit)
    requires if inc.Some? then exists u ::
      Evaluates(Inside(s0, true, uI), inc.value, sI, u) else sI == Inside(s0, true, uI)
    ensures sI.cur in sI.body && Grows(uI, sI) && uI.nextVreg <= sI.nextVreg && Grown(s0, d, Outside(s0, sI))
    ensures var k, uE := BlocksOf(s0, true),
      JoinedAt(Outside(s0, sI), BlocksOf(s0, true).cond, BlocksOf(s0, true).cond);
      Grown(s0, d, uE) && StartsAt(uE, k.cond) && Grows(sI, uE) && uE.nextVreg == sI.nextVreg && Waiting(uE, k.exit)
  {
    hide Grown, Emit, JumpInst, Waiting, Grows, Evaluates, JoinedAt;
    var k := BlocksOf(s0, true);
    var sJ := Inside(s0, true, uI);
    GrownCounters(s0, d, uI);
    assert Outside(s0, sJ) == uI;
    if inc.Some? {
      var u :| Evaluates(sJ, inc.value, sI, u);
      EvaluatesKeeps(sJ, inc.value, sI, u);
      BuiltGrown(sJ, d, sI);
    } else {
      assert Ok(sJ);
      GrownSelf(sJ, d);
    }
    OutsideGrown(s0, d, sJ, sI);
    GrownCounters(sJ, d, sI);
    GrowsOutside(s0, true, uI, sJ, sI);
    JoinedShape(s0, d, uI, Outside(s0, sI), k.cond, k.cond);
    GrowsInside(s0, true, sI, JoinedAt(Outside(s0, sI), k.cond, k.cond));
  }

  lemma LoopShape(s0: State, isFor: bool, c: Option<S.Expr>, inc: Option<S.Expr>, body: S.Stmt, d: set<nat>, sD: State,
        sI: State, sF: State, v: Value)
    requires LoopBuilt(s0, isFor, c, inc, body, d, sD, sI, sF, v)
    ensures s0.cur in s0.body && sD.cur in sD.body && sI.cur in sI.body && sF.cur in sF.body
    ensures LoopStates(s0, isFor, d, sD, sI, sF, v)
  {
    hide Ok, Grown, Emit, JumpInst, BranchInst, Waiting, Grows, Evaluates, Executes, JoinedAt, AtBody, Created,
      AtExit, ValueBelow;
    var k := BlocksOf(s0, isFor);
    BodyShape(s0, isFor, body, d, sD, k.inc);
    if isFor {
      GrownCounters(s0, d, JoinedAt(Outside(s0, sD), k.inc, k.inc));
      assert Outside(s0, AtInc(s0, sD)) == JoinedAt(Outside(s0, sD), k.inc, k.inc);
      assert Inside(s0, true, Outside(s0, AtInc(s0, sD))) == AtInc(s0, sD);
      IncShape(s0, d, inc, Outside(s0, AtInc(s0, sD)), sI);
    }
    var uE := Outside(s0, AtCond(s0, isFor, sI));
    GrownCounters(s0, d, JoinedAt(Outside(s0, sI), k.cond, k.cond));
    assert uE == JoinedAt(Outside(s0, sI), k.cond, k.cond);
    CondShape(s0, isFor, d, uE, CondExpr(c), sF, v);
    var sH, uB := AtExit(s0, isFor, sF, v), AtBody(s0, isFor);
    LoopGrows(uB, sD, sI, uE, sF, sH, if isFor then Outside(s0, AtInc(s0, sD)) else uE, isFor);
  }

  lemma LoopGrows(uB: State, sD: State, sI: State, uE: State, sF: State, sH: State, uI: State, isFor: bool)
    requires Grows(uB, sD) && Grows(sI, uE) && Grows(uE, sF) && Grows(sF, sH)
    requires if isFor then Grows(sD, uI) && Grows(uI, sI) else sI == sD
    ensures Grows(sD, uE) && Grows(uB, sH) && Grows(sD, sH) && Grows(sI, sH)
  {
    hide Grows;
    if isFor { GrowsTransitive(sD, uI, sI); GrowsTransitive(sD, sI, uE); }
    GrowsTransitive(uE, sF, sH);
    GrowsTransitive(sI, uE, sH);
    GrowsTransitive(sD, uE, sH);
    GrowsTransitive(uB, sD, sH);
  }

  // ---------------------------------------------------------------------------------------------
  // How it runs

  /** The finished function holds the loop's code and has a frame for it. */
  ghost predicate Ground(t: Setting, sH: State) { Holds(t.g, sH) && FrameOk(t) && sH.nextVreg <= t.size }

  /** The run goes from `x` to the start of block `b` with variables as in `env`. */
  ghost predicate Comes(t: Setting, s0: State, x: Point, b: nat, env: S.Env, regs: Regs, w: World, n: nat) {
    Goes(t, s0, x, Point(b, 0, regs, w), n) && Mirrors(t, s0.vars, env, regs, w)
  }

  lemma FrameGoes(t: Setting, s0: State, d: set<nat>, s: State, x: Point, y: Point, n: nat)
    requires Grown(s0, d, s) && Goes(t, s, x, y, n)
    ensures Goes(t, s0, x, y, n)
  {
    hide Goes, Grown;
    GrownCounters(s0, d, s);
    GoesNowhere(t, s0, x);
    GoesTransitive(t, s0, x, x, 0, s, y, n);
  }

  lemma GoesIgnoresLoops(t: Setting, s0: State, isFor: bool, u: State, x: Point, y: Point, n: nat)
    requires Goes(t, Inside(s0, isFor, u), x, y, n)
    ensures Goes(t, u, x, y, n)
  {
    hide KeepRegs, Kept, Leads;
  }

  /** From the start of the condition to the body or the exit. */
  lemma TestRuns(t: Setting, s0: State, isFor: bool, d: set<nat>, uE: State, e: S.Expr, sF: State, v: Value, sH: State,
        env: S.Env, regs: Regs, w: World)
    returns (regs1: Regs, w1: World, n: nat)
    requires Ok(s0) && d <= s0.vars.Keys && Grown(s0, d, uE) && StartsAt(uE, BlocksOf(s0, isFor).cond)
    requires Evaluates(Inside(s0, isFor, uE), e, sF, v)
    requires sF.cur in sF.body && sH == AtExit(s0, isFor, sF, v) && Grows(sF, sH) && Ground(t, sH)
    requires sF.nextVreg == sH.nextVreg
    requires BlocksOf(s0, isFor).body in t.g.body && BlocksOf(s0, isFor).exit in t.g.body
    requires Mirrors(t, s0.vars, env, regs, w) && env.Keys == d && S.Value(e, env).Some? && S.Value(e, env).value.0.B?
    ensures var k, p := BlocksOf(s0, isFor), S.Value(e, env).value;
      Comes(t, s0, Point(k.cond, 0, regs, w), if p.0.b then k.body else k.exit, p.1, regs1, w1, n + 1)
  {
    hide Grown, FrameOk, Holds, S.Value, Evaluates, Goes, Mirrors, Emit, BranchInst, Grows, ValueBelow, SameOn;
    var k, sE, p := BlocksOf(s0, isFor), Inside(s0, isFor, uE), S.Value(e, env).value;
    GrownCounters(s0, d, uE);
    EvaluatesKeeps(sE, e, sF, v);
    KeepsVarsOf(sE, sF);
    S.ValueKeepsScope(e, env);
    HoldsTo(t, sF, sH);
    MirrorsSame(t, d, s0.vars, uE.vars, env, regs, w);
    assert Here(sE, regs, w) == Point(k.cond, 0, regs, w);
    assert Ready(t, sE, sF, env, regs, w);
    SameHolds(t, sH, Emit(Outside(s0, sF), BranchInst(v, k.body, k.exit)));
    assert Ok(sE);
    regs1, w1, n := BranchGoes(t, sE, e, sF, v, Outside(s0, sF), k.body, k.exit, env, regs, w);
    var y := Point(if p.0.b then k.body else k.exit, 0, regs1, w1);
    GoesIgnoresLoops(t, s0, isFor, uE, Point(k.cond, 0, regs, w), y, n + 1);
    FrameGoes(t, s0, d, uE, Point(k.cond, 0, regs, w), y, n + 1);
    MirrorsBack(t, d, s0.vars, uE.vars, p.1, regs1, w1);
  }

  lemma KeepsVarsOf(s: State, s': State)
    requires Built(s, s')
    ensures s'.vars == s.vars
  {}

  /** One run of the body: to the increment, to the exit, or out of the function. */
  ghost predicate BodyEnds(t: Setting, s0: State, isFor: bool, x: Point, k: nat, sH: State, d: set<nat>, r: S.Res) {
    match r
    case Normal(e) => exists regs', w', n :: Comes(t, s0, x, BlocksOf(s0, isFor).inc, e, regs', w', n)
    case Continued(e) => exists regs', w', n :: Comes(t, s0, x, BlocksOf(s0, isFor).inc, e, regs', w', n)
    case Broke(e) => exists regs', w', n :: Comes(t, s0, x, BlocksOf(s0, isFor).exit, e, regs', w', n)
    case _ => Ending(t, s0, x, k, sH, d, r)
  }

  lemma BodyRuns(t: Setting, s0: State, isFor: bool, body: S.Stmt, d: set<nat>, sD: State, sH: State, env: S.Env,
        regs: Regs, w: World, k: nat)
    requires Ok(s0) && s0.cur in s0.body && d <= s0.vars.Keys && Created(s0, isFor).cur in Created(s0, isFor).body
    requires sD.cur in sD.body
    requires Executes(Inside(s0, isFor, AtBody(s0, isFor)), body, d, sD) && Grown(s0, d, AtBody(s0, isFor))
    requires StartsAt(AtBody(s0, isFor), BlocksOf(s0, isFor).body)
    requires FrameOk(t) && sD.nextVreg <= t.size && Holds(t.g, sD)
    requires Holds(t.g, Emit(sD, JumpInst(BlocksOf(s0, isFor).inc))) && BlocksOf(s0, isFor).inc in t.g.body
    requires Mirrors(t, s0.vars, env, regs, w) && env.Keys == d
    ensures BodyEnds(t, s0, isFor, Point(BlocksOf(s0, isFor).body, 0, regs, w), k, sH, d,
      S.Close(S.Run(body, env, k), d))
  {
    hide Ok, Grown, FrameOk, Holds, S.Run, Executes, Goes, Mirrors, Emit, Grows, SameOn, S.Within, Arrives, Finishes,
      Survives, Created, AtBody, Newer;
    var b, uB := BlocksOf(s0, isFor), AtBody(s0, isFor);
    var sC, x := Inside(s0, isFor, AtBody(s0, isFor)), Point(BlocksOf(s0, isFor).body, 0, regs, w);
    GrownCounters(s0, d, uB);
    MirrorsSame(t, d, s0.vars, uB.vars, env, regs, w);
    assert Here(sC, regs, w) == x;
    assert ReadyFor(t, sC, sD, d, env, regs, w);
    ExecutesKeeps(sC, body, d, sD);
    ClosedKeys(S.Run(body, env, k), d);
    EndingOf(sC, body, d, sD, t, env, regs, w, k);
    EndingClosed(t, sC, x, k, sD, d, S.Run(body, env, k));
    var r := S.Close(S.Run(body, env, k), d);
    match r {
      case Normal(e) =>
        var regs', w', n :| Arrives(t, sC, x, sD, e, regs', w', n);
        BodyFallsThrough(t, s0, isFor, d, uB, sD, x, e, regs', w', n);
      case Continued(e) =>
        var regs', w', n :| Escapes(t, sC, x, b.inc, d, e, regs', w', n);
        BodyEscapes(t, s0, isFor, d, uB, x, b.inc, e, regs', w', n);
      case Broke(e) =>
        var regs', w', n :| Escapes(t, sC, x, b.exit, d, e, regs', w', n);
        BodyEscapes(t, s0, isFor, d, uB, x, b.exit, e, regs', w', n);
      case _ =>
        BodyLeaves(t, s0, isFor, d, uB, x, k, sD, sH, r);
    }
  }

  lemma ClosedKeys(r: S.Res, d: set<nat>)
    ensures match S.Close(r, d)
            case Normal(e) => e.Keys <= d
            case Broke(e) => e.Keys <= d
            case Continued(e) => e.Keys <= d
            case _ => true
  {}

  lemma BodyEscapes(t: Setting, s0: State, isFor: bool, d: set<nat>, uB: State, x: Point, b: nat, e: S.Env,
        regs': Regs, w': World, n: nat)
    requires Escapes(t, Inside(s0, isFor, uB), x, b, d, e, regs', w', n) && Grown(s0, d, uB) && e.Keys <= d
    ensures Comes(t, s0, x, b, e, regs', w', n)
  {
    hide Grown, Goes, Mirrors, SameOn;
    GoesIgnoresLoops(t, s0, isFor, uB, x, Point(b, 0, regs', w'), n);
    FrameGoes(t, s0, d, uB, x, Point(b, 0, regs', w'), n);
    assert S.Within(e, d) == e;
    GrownCounters(s0, d, uB);
    MirrorsBack(t, d, s0.vars, uB.vars, e, regs', w');
  }

  lemma BodyFallsThrough(t: Setting, s0: State, isFor: bool, d: set<nat>, uB: State, sD: State, x: Point, e: S.Env,
        regs': Regs, w': World, n: nat)
    requires Arrives(t, Inside(s0, isFor, uB), x, sD, e, regs', w', n) && Grown(s0, d, uB)
    requires Grown(Inside(s0, isFor, uB), d, sD) && e.Keys <= d
    requires Holds(t.g, Emit(sD, JumpInst(BlocksOf(s0, isFor).inc))) && BlocksOf(s0, isFor).inc in t.g.body
    ensures Comes(t, s0, x, BlocksOf(s0, isFor).inc, e, regs', w', n + 1)
  {
    hide Grown, Goes, Mirrors, SameOn, Emit, JumpInst, Holds, StoreHolds;
    var ib := BlocksOf(s0, isFor).inc;
    var sC, y, z := Inside(s0, isFor, uB), Here(sD, regs', w'), Point(ib, 0, regs', w');
    JumpStep(t.m, t.params, ib, regs', w');
    JumpLeads(t, sD, JumpInst(ib), regs', w', ib);
    JumpGoes(t, sC, y, z);
    NewerSelf(sC);
    GoesTransitive(t, sC, x, y, n, sC, z, 1);
    GoesIgnoresLoops(t, s0, isFor, uB, x, z, n + 1);
    FrameGoes(t, s0, d, uB, x, z, n + 1);
    GrownCounters(s0, d, uB);
    GrownCounters(sC, d, sD);
    SameOnChain(d, s0.vars, uB.vars, sD.vars);
    MirrorsBack(t, d, s0.vars, sD.vars, e, regs', w');
  }

  lemma SameOnChain(d: set<nat>, a: map<nat, Binding>, b: map<nat, Binding>, c: map<nat, Binding>)
    requires SameOn(d, a, b) && SameOn(d, b, c)
    ensures SameOn(d, a, c)
  {}

  /** Endings that leave the function, or do not end, do not depend on loop targets. */
  lemma BodyLeaves(t: Setting, s0: State, isFor: bool, d: set<nat>, uB: State, x: Point, k: nat, sD: State, sH: State,
        r: S.Res)
    requires Ending(t, Inside(s0, isFor, uB), x, k, sD, d, r) && Grown(s0, d, uB) && !r.Normal? && !r.Broke?
    requires !r.Continued?
    ensures Ending(t, s0, x, k, sH, d, r)
  {
    hide Grown, Goes, SameOn, EndsWith, Survives, Newer;
    GrownCounters(s0, d, uB);
    assert Ending(t, uB, x, k, sH, d, r) by {
      match r {
        case Returns(v) =>
          var w', n :| Finishes(t, Inside(s0, isFor, uB), x, Returned(S.Answer(v), w'), w', n);
          assert Finishes(t, uB, x, Returned(S.Answer(v), w'), w', n);
        case Halts =>
          var w', n :| Finishes(t, Inside(s0, isFor, uB), x, Trapped(w'), w', n);
          assert Finishes(t, uB, x, Trapped(w'), w', n);
        case _ =>
      }
    }
    GoesNowhere(t, s0, x);
    EndingAfter(t, s0, x, x, 0, uB, k, k, sH, d, d, r);
  }

  /** From the start of the increment to the start of the condition; without an increment block they are one. */
  lemma IncRuns(t: Setting, s0: State, isFor: bool, inc: Option<S.Expr>, d: set<nat>, sD: State, sI: State, env: S.Env,
        regs: Regs, w: World)
    returns (regs1: Regs, w1: World, n: nat)
    requires Ok(s0) && d <= s0.vars.Keys && sD.cur in sD.body && sI.cur in sI.body && (isFor || inc.None?)
    requires isFor ==> Grown(s0, d, Outside(s0, AtInc(s0, sD))) && StartsAt(AtInc(s0, sD), BlocksOf(s0, true).inc)
    requires isFor ==> if inc.Some? then exists u :: Evaluates(AtInc(s0, sD), inc.value, sI, u) else sI == AtInc(s0, sD)
    requires FrameOk(t) && sI.nextVreg <= t.size && Holds(t.g, sI)
    requires Holds(t.g, Emit(sI, JumpInst(BlocksOf(s0, isFor).cond))) && BlocksOf(s0, isFor).cond in t.g.body
    requires Mirrors(t, s0.vars, env, regs, w) && env.Keys == d && S.Advance(inc, env).Some?
    ensures Comes(t, s0, Point(BlocksOf(s0, isFor).inc, 0, regs, w), BlocksOf(s0, isFor).cond,
      S.Advance(inc, env).value, regs1, w1, n)
  {
    hide Ok, Grown, FrameOk, Holds, S.Value, Evaluates, Goes, Mirrors, Emit, Grows, SameOn;
    var k, env1 := BlocksOf(s0, isFor), S.Advance(inc, env).value;
    var x := Point(k.inc, 0, regs, w);
    if !isFor {
      GoesNowhere(t, s0, x);
      regs1, w1, n := regs, w, 0;
    } else if inc.None? {
      var sJ := AtInc(s0, sD);
      assert Here(sJ, regs, w) == x && IsOpen(sJ);
      regs1, w1 := regs, w;
      n := 1;
      JumpStep(t.m, t.params, k.cond, regs, w);
      JumpLeads(t, sI, JumpInst(k.cond), regs, w, k.cond);
      JumpGoes(t, s0, x, Point(k.cond, 0, regs, w));
    } else {
      var sJ, u: Value := AtInc(s0, sD), IncValue(s0, inc.value, sD, sI);
      assert sJ == Inside(s0, true, Outside(s0, sJ));
      regs1, w1, n := IncEvaluates(t, s0, inc.value, d, sJ, sI, u, env, regs, w);
    }
  }

  ghost function IncValue(s0: State, e: S.Expr, sD: State, sI: State): (u: Value)
    requires sD.cur in sD.body && exists u :: Evaluates(AtInc(s0, sD), e, sI, u)
    ensures Evaluates(AtInc(s0, sD), e, sI, u)
  {
    var u :| Evaluates(AtInc(s0, sD), e, sI, u);
    u
  }

  lemma IncEvaluates(t: Setting, s0: State, e: S.Expr, d: set<nat>, sJ: State, sI: State, u: Value, env: S.Env,
        regs: Regs, w: World)
    returns (regs1: Regs, w1: World, n: nat)
    requires Ok(s0) && d <= s0.vars.Keys && sI.cur in sI.body && Grown(s0, d, Outside(s0, sJ))
    requires StartsAt(sJ, BlocksOf(s0, true).inc)
    requires Evaluates(sJ, e, sI, u) && sJ == Inside(s0, true, Outside(s0, sJ))
    requires FrameOk(t) && sI.nextVreg <= t.size && Holds(t.g, sI)
    requires Holds(t.g, Emit(sI, JumpInst(BlocksOf(s0, true).cond))) && BlocksOf(s0, true).cond in t.g.body
    requires Mirrors(t, s0.vars, env, regs, w) && env.Keys == d && S.Value(e, env).Some?
    ensures Comes(t, s0, Point(BlocksOf(s0, true).inc, 0, regs, w), BlocksOf(s0, true).cond, S.Value(e, env).value.1,
      regs1, w1, n)
  {
    hide Ok, Grown, FrameOk, Holds, S.Value, Evaluates, Goes, Mirrors, Emit, JumpInst, Grows, SameOn;
    var k, p, uI := BlocksOf(s0, true), S.Value(e, env).value, Outside(s0, sJ);
    var x := Point(k.inc, 0, regs, w);
    GrownCounters(s0, d, uI);
    EvaluatesKeeps(sJ, e, sI, u);
    KeepsVarsOf(sJ, sI);
    S.ValueKeepsScope(e, env);
    MirrorsSame(t, d, s0.vars, uI.vars, env, regs, w);
    assert Here(sJ, regs, w) == x;
    assert Ready(t, sJ, sI, env, regs, w);
    regs1, w1, n := EvaluatesAndJumps(t, sJ, e, sI, u, k.cond, env, regs, w, p.0, p.1);
    GoesIgnoresLoops(t, s0, true, uI, x, Point(k.cond, 0, regs1, w1), n);
    FrameGoes(t, s0, d, uI, x, Point(k.cond, 0, regs1, w1), n);
    MirrorsBack(t, d, s0.vars, uI.vars, p.1, regs1, w1);
  }

  /** An expression's code and the jump behind it. */
  lemma EvaluatesAndJumps(t: Setting, s: State, e: S.Expr, s1: State, u: Value, target: nat, env: S.Env, regs: Regs,
        w: World, val: S.Val, env1: S.Env)
    returns (regs1: Regs, w1: World, n: nat)
    requires Evaluates(s, e, s1, u) && Ready(t, s, s1, env, regs, w) && S.Value(e, env) == Some((val, env1))
    requires s1.cur in s1.body && Holds(t.g, Emit(s1, JumpInst(target))) && target in t.g.body
    ensures Goes(t, s, Here(s, regs, w), Point(target, 0, regs1, w1), n) && Mirrors(t, s1.vars, env1, regs1, w1)
  {
    hide Ok, FrameOk, Holds, S.Value, Evaluates, Goes, Mirrors, Emit, JumpInst, Ready, Built;
    regs1, w1, n := RunOf(s, e, s1, u, t, env, regs, w, val, env1);
    assert IsOpen(s1) && Sim(t, s1, env1, regs1, w1);
    ReachedGoes(t, s, regs, w, s1, env1, regs1, w1, n);
    JumpStep(t.m, t.params, target, regs1, w1);
    JumpLeads(t, s1, JumpInst(target), regs1, w1, target);
    JumpGoes(t, s, Here(s1, regs1, w1), Point(target, 0, regs1, w1));
    NewerSelf(s);
    GoesTransitive(t, s, Here(s, regs, w), Here(s1, regs1, w1), n, s, Point(target, 0, regs1, w1), 1);
    n := n + 1;
  }

  // ---------------------------------------------------------------------------------------------
  // Round and round

  /** Everything the proof needs to know of the finished loop. */
  ghost predicate LoopGround(t: Setting, s0: State, isFor: bool, sD: State, sI: State, sF: State, v: Value)
    requires s0.cur in s0.body && sD.cur in sD.body && sI.cur in sI.body && sF.cur in sF.body
  {
    var k := BlocksOf(s0, isFor);
    && Ground(t, AtExit(s0, isFor, sF, v)) && sD.nextVreg <= t.size && sI.nextVreg <= t.size
    && Holds(t.g, sD) && Holds(t.g, sI) && Holds(t.g, Emit(sD, JumpInst(k.inc)))
    && Holds(t.g, Emit(sI, JumpInst(k.cond)))
    && k.body in t.g.body && k.inc in t.g.body && k.cond in t.g.body && k.exit in t.g.body
  }

  lemma LoopGrounded(t: Setting, s0: State, isFor: bool, d: set<nat>, sD: State, sI: State, sF: State, v: Value)
    requires s0.cur in s0.body && sD.cur in sD.body && sI.cur in sI.body && sF.cur in sF.body
    requires LoopStates(s0, isFor, d, sD, sI, sF, v)
    requires Ground(t, AtExit(s0, isFor, sF, v)) && (!isFor ==> sI == sD)
    ensures LoopGround(t, s0, isFor, sD, sI, sF, v)
  {
    hide Grown, FrameOk, Holds, Grows, AtBody, AtExit, ValueBelow;
    var k, uB, uE, sH := BlocksOf(s0, isFor), AtBody(s0, isFor), Outside(s0, AtCond(s0, isFor, sI)),
      AtExit(s0, isFor, sF, v);
    HoldsTo(t, sF, sH);
    HoldsTo(t, uE, sF);
    HoldsTo(t, sD, sH);
    HoldsTo(t, sI, sH);
    HoldsTo(t, uB, sH);
    HeldBlock(t, uB, k.body);
    HeldBlock(t, uE, k.cond);
    HeldBlock(t, sH, k.exit);
    SameHolds(t, uE, Emit(sI, JumpInst(k.cond)));
    if isFor {
      var uI := Outside(s0, AtInc(s0, sD));
      HoldsTo(t, uI, sI);
      HeldBlock(t, uI, k.inc);
      SameHolds(t, uI, Emit(sD, JumpInst(k.inc)));
    }
  }

  /** The test of a built loop. */
  lemma LoopTest(t: Setting, s0: State, isFor: bool, c: Option<S.Expr>, inc: Option<S.Expr>, body: S.Stmt, d: set<nat>,
        sD: State, sI: State, sF: State, v: Value, env: S.Env, regs: Regs, w: World)
    returns (regs1: Regs, w1: World, n: nat)
    requires LoopBuilt(s0, isFor, c, inc, body, d, sD, sI, sF, v) && LoopStates(s0, isFor, d, sD, sI, sF, v)
    requires LoopGround(t, s0, isFor, sD, sI, sF, v)
    requires Mirrors(t, s0.vars, env, regs, w) && env.Keys == d && S.Test(c, env).Some? && S.Test(c, env).value.0.B?
    ensures var k, p := BlocksOf(s0, isFor), S.Test(c, env).value;
      Comes(t, s0, Point(k.cond, 0, regs, w), if p.0.b then k.body else k.exit, p.1, regs1, w1, n + 1)
  {
    hide AtBody, AtExit, AtInc, BitOp, BlocksOf, Comes, Created, Emit, Evaluates, Executes, Ground, Grown, Grows,
      Holds, JoinedAt, JumpInst, Mirrors, Ok, StartsAt, ValueBelow, Wrap, S.Operate;
    var uE := Outside(s0, AtCond(s0, isFor, sI));
    assert Inside(s0, isFor, uE) == AtCond(s0, isFor, sI);
    assert S.Value(CondExpr(c), env) == S.Test(c, env);
    regs1, w1, n := TestRuns(t, s0, isFor, d, uE, CondExpr(c), sF, v, AtExit(s0, isFor, sF, v), env, regs, w);
  }

  /** One run of a built loop's body. */
  lemma LoopBody(t: Setting, s0: State, isFor: bool, c: Option<S.Expr>, inc: Option<S.Expr>, body: S.Stmt, d: set<nat>,
        sD: State, sI: State, sF: State, v: Value, env: S.Env, regs: Regs, w: World, k: nat)
    requires LoopBuilt(s0, isFor, c, inc, body, d, sD, sI, sF, v) && LoopStates(s0, isFor, d, sD, sI, sF, v)
    requires LoopGround(t, s0, isFor, sD, sI, sF, v)
    requires Mirrors(t, s0.vars, env, regs, w) && env.Keys == d
    ensures BodyEnds(t, s0, isFor, Point(BlocksOf(s0, isFor).body, 0, regs, w), k, AtExit(s0, isFor, sF, v), d,
      S.Close(S.Run(body, env, k), d))
  {
    hide AtBody, AtCond, AtExit, AtInc, BlocksOf, BodyEnds, CondExpr, Created, Emit, Evaluates, Executes, FrameOk,
      Grown, Grows, Holds, Inside, JumpInst, Mirrors, Ok, Outside, StartsAt, ValueBelow, S.Close, S.Run;
    assert FrameOk(t);
    BodyRuns(t, s0, isFor, body, d, sD, AtExit(s0, isFor, sF, v), env, regs, w, k);
  }

  /** Coming to the exit is arriving behind the loop. */
  lemma LoopExits(t: Setting, s0: State, isFor: bool, d: set<nat>, sD: State, sI: State, sF: State, v: Value, x: Point,
        env: S.Env, regs: Regs, w: World, n: nat)
    requires s0.cur in s0.body && sD.cur in sD.body && sI.cur in sI.body && sF.cur in sF.body
    requires LoopStates(s0, isFor, d, sD, sI, sF, v)
    requires Comes(t, s0, x, BlocksOf(s0, isFor).exit, env, regs, w, n) && env.Keys <= d
    ensures Arrives(t, s0, x, AtExit(s0, isFor, sF, v), env, regs, w, n)
  {
    hide AtBody, AtCond, AtExit, AtInc, BlocksOf, EvalOperand, Goes, Grown, Grows, Mirrors, Newer, Ok, Outside,
      SameOn, ValueBelow;
    var sH := AtExit(s0, isFor, sF, v);
    assert Grown(s0, d, sH) && StartsAt(sH, BlocksOf(s0, isFor).exit);
    GrownCounters(s0, d, sH);
    assert Mirrors(t, s0.vars, env, regs, w);
    MirrorsSame(t, d, s0.vars, sH.vars, env, regs, w);
  }

  /** A run that stands at the condition mirrors the source's loop, for any number of iterations. */
  lemma {:induction false} LoopRuns(t: Setting, s0: State, isFor: bool, c: Option<S.Expr>, inc: Option<S.Expr>,
        body: S.Stmt, d: set<nat>, sD: State, sI: State, sF: State, v: Value, env: S.Env, regs: Regs, w: World, k: nat)
    requires LoopBuilt(s0, isFor, c, inc, body, d, sD, sI, sF, v) && LoopStates(s0, isFor, d, sD, sI, sF, v)
    requires LoopGround(t, s0, isFor, sD, sI, sF, v)
    requires S.Scoped(body, d, true)
    requires Mirrors(t, s0.vars, env, regs, w) && env.Keys == d
    ensures Ending(t, s0, Point(BlocksOf(s0, isFor).cond, 0, regs, w), k, AtExit(s0, isFor, sF, v), d,
      S.RunLoop(c, inc, body, env, k))
    decreases k, 1
  {
    hide Arrives, AtBody, AtCond, AtExit, AtInc, CondExpr, Created, Ending, Evaluates, Executes, Goes, Inside,
      LoopGround, LoopStates, Mirrors, Ok, S.Again, S.Close, S.Run, S.Scoped, S.Test;
    var b, sH := BlocksOf(s0, isFor), AtExit(s0, isFor, sF, v);
    var x := Point(b.cond, 0, regs, w);
    if k == 0 {
      LoopStarved(t, s0, x, sH, d, c, inc, body, env);
    } else if S.Test(c, env).None? || !S.Test(c, env).value.0.B? {
      LoopFails(t, s0, x, sH, d, c, inc, body, env, k);
    } else {
      var p := S.Test(c, env).value;
      var regs1, w1, n := LoopTest(t, s0, isFor, c, inc, body, d, sD, sI, sF, v, env, regs, w);
      TestKeys(c, env);
      assert s0.cur in s0.body && sD.cur in sD.body && sI.cur in sI.body && sF.cur in sF.body && d <= s0.vars.Keys;
      if !p.0.b {
        LoopExits(t, s0, isFor, d, sD, sI, sF, v, x, p.1, regs1, w1, n + 1);
        assert S.RunLoop(c, inc, body, env, k) == S.Normal(p.1);
        ArrivedEnding(t, s0, x, k, sH, d, p.1, regs1, w1, n + 1);
      } else {
        LoopBody(t, s0, isFor, c, inc, body, d, sD, sI, sF, v, p.1, regs1, w1, k);
        var y, r := Point(b.body, 0, regs1, w1), S.Close(S.Run(body, p.1, k), d);
        var again: bool := r.Normal? || r.Continued?;
        assert Goes(t, s0, x, y, n + 1);
        if again {
          var e := r.env;
          BodyKeys(body, p.1, k);
          var regs2, w2, n2 := WentOn(t, s0, isFor, y, k, sH, d, r);
          GoesThrough(t, s0, x, y, n + 1, b.inc, e, regs2, w2, n2);
          AgainRuns(t, s0, isFor, c, inc, body, d, sD, sI, sF, v, e, regs2, w2, k);
          assert Goes(t, s0, x, Point(b.inc, 0, regs2, w2), n + 1 + n2);
          EndingOn(t, s0, x, Point(b.inc, 0, regs2, w2), n + 1 + n2, k, k - 1, sH, d, S.Again(c, inc, body, e, k));
          assert S.RunLoop(c, inc, body, env, k) == S.Again(c, inc, body, e, k);
        } else if r.Broke? {
          var regs2, w2, n2 := BrokeOut(t, s0, isFor, y, k, sH, d, r);
          GoesThrough(t, s0, x, y, n + 1, b.exit, r.env, regs2, w2, n2);
          ClosedKeys(S.Run(body, p.1, k), d);
          LoopExits(t, s0, isFor, d, sD, sI, sF, v, x, r.env, regs2, w2, n + 1 + n2);
          assert S.RunLoop(c, inc, body, env, k) == S.Normal(r.env);
          ArrivedEnding(t, s0, x, k, sH, d, r.env, regs2, w2, n + 1 + n2);
        } else {
          assert Ending(t, s0, y, k, sH, d, r);
          EndingOn(t, s0, x, y, n + 1, k, k, sH, d, r);
          assert S.RunLoop(c, inc, body, env, k) == r;
        }
      }
    }
  }

  /** Through the increment and round again. */
  lemma AgainRuns(t: Setting, s0: State, isFor: bool, c: Option<S.Expr>, inc: Option<S.Expr>, body: S.Stmt,
        d: set<nat>, sD: State, sI: State, sF: State, v: Value, env: S.Env, regs: Regs, w: World, k: nat)
    requires LoopBuilt(s0, isFor, c, inc, body, d, sD, sI, sF, v) && LoopStates(s0, isFor, d, sD, sI, sF, v)
    requires LoopGround(t, s0, isFor, sD, sI, sF, v)
    requires S.Scoped(body, d, true)
    requires Mirrors(t, s0.vars, env, regs, w) && env.Keys == d && k > 0
    ensures Ending(t, s0, Point(BlocksOf(s0, isFor).inc, 0, regs, w), k - 1, AtExit(s0, isFor, sF, v), d,
      S.Again(c, inc, body, env, k))
    decreases k, 0
  {
    hide AtExit, BlocksOf, Comes, Ending, Goes, LoopBuilt, LoopGround, LoopStates, Mirrors, S.Advance, S.Again,
      S.RunLoop, S.Scoped;
    BuiltScope(s0, isFor, c, inc, body, d, sD, sI, sF, v);
    var b, sH := BlocksOf(s0, isFor), AtExit(s0, isFor, sF, v);
    var x := Point(b.inc, 0, regs, w);
    AgainIs(t, s0, x, sH, d, c, inc, body, env, k);
    if S.Advance(inc, env).Some? {
      var e := S.Advance(inc, env).value;
      S.AdvanceKeepsScope(inc, env);
      var regs1, w1, n := LoopInc(t, s0, isFor, c, inc, body, d, sD, sI, sF, v, env, regs, w);
      ComesIs(t, s0, x, b.cond, e, regs1, w1, n);
      LoopRuns(t, s0, isFor, c, inc, body, d, sD, sI, sF, v, e, regs1, w1, k - 1);
      EndingOn(t, s0, x, Point(b.cond, 0, regs1, w1), n, k - 1, k - 1, sH, d, S.RunLoop(c, inc, body, e, k - 1));
    }
  }

  lemma AgainIs(t: Setting, s0: State, x: Point, sH: State, d: set<nat>, c: Option<S.Expr>, inc: Option<S.Expr>,
        body: S.Stmt, env: S.Env, k: nat)
    requires k > 0
    ensures S.Advance(inc, env).None? ==> Ending(t, s0, x, k - 1, sH, d, S.Again(c, inc, body, env, k))
    ensures S.Advance(inc, env).Some? ==>
      S.Again(c, inc, body, env, k) == S.RunLoop(c, inc, body, S.Advance(inc, env).value, k - 1)
  {
    hide S.Advance, S.RunLoop;
  }

  lemma ComesIs(t: Setting, s0: State, x: Point, b: nat, env: S.Env, regs: Regs, w: World, n: nat)
    requires Comes(t, s0, x, b, env, regs, w, n)
    ensures Mirrors(t, s0.vars, env, regs, w) && Goes(t, s0, x, Point(b, 0, regs, w), n)
  {}

  lemma BuiltScope(s0: State, isFor: bool, c: Option<S.Expr>, inc: Option<S.Expr>, body: S.Stmt, d: set<nat>,
        sD: State, sI: State, sF: State, v: Value)
    requires LoopBuilt(s0, isFor, c, inc, body, d, sD, sI, sF, v)
    ensures s0.cur in s0.body && sD.cur in sD.body && sI.cur in sI.body && sF.cur in sF.body && d <= s0.vars.Keys
  {
    hide Executes, Evaluates, Ok;
  }

  lemma LoopInc(t: Setting, s0: State, isFor: bool, c: Option<S.Expr>, inc: Option<S.Expr>, body: S.Stmt, d: set<nat>,
        sD: State, sI: State, sF: State, v: Value, env: S.Env, regs: Regs, w: World)
    returns (regs1: Regs, w1: World, n: nat)
    requires LoopBuilt(s0, isFor, c, inc, body, d, sD, sI, sF, v) && LoopStates(s0, isFor, d, sD, sI, sF, v)
    requires LoopGround(t, s0, isFor, sD, sI, sF, v)
    requires Mirrors(t, s0.vars, env, regs, w) && env.Keys == d && S.Advance(inc, env).Some?
    ensures Comes(t, s0, Point(BlocksOf(s0, isFor).inc, 0, regs, w), BlocksOf(s0, isFor).cond,
      S.Advance(inc, env).value, regs1, w1, n)
  {
    hide AtBody, AtCond, AtExit, AtInc, BlocksOf, Comes, CondExpr, Created, Emit, Evaluates, Executes, FrameOk, Grown,
      Grows, Holds, Inside, JumpInst, Mirrors, Ok, ValueBelow, S.Advance;
    assert FrameOk(t);
    if isFor {
      assert StartsAt(AtInc(s0, sD), BlocksOf(s0, true).inc);
    }
    regs1, w1, n := IncRuns(t, s0, isFor, inc, d, sD, sI, env, regs, w);
  }

  lemma BodyKeys(body: S.Stmt, env: S.Env, k: nat)
    requires S.Scoped(body, env.Keys, true)
    ensures match S.Close(S.Run(body, env, k), env.Keys)
      case Normal(e) => e.Keys == env.Keys
      case Continued(e) => e.Keys == env.Keys
      case _ => true
  {
    hide S.Run;
    S.RunKeepsScope(body, env, k, true);
    S.CloseKeys(S.Run(body, env, k), env.Keys, S.Declares(body));
  }

  lemma LoopStarved(t: Setting, s0: State, x: Point, sH: State, d: set<nat>, c: Option<S.Expr>, inc: Option<S.Expr>,
        body: S.Stmt, env: S.Env)
    ensures Ending(t, s0, x, 0, sH, d, S.RunLoop(c, inc, body, env, 0))
  {}

  lemma LoopFails(t: Setting, s0: State, x: Point, sH: State, d: set<nat>, c: Option<S.Expr>, inc: Option<S.Expr>,
        body: S.Stmt, env: S.Env, k: nat)
    requires k > 0 && (S.Test(c, env).None? || !S.Test(c, env).value.0.B?)
    ensures Ending(t, s0, x, k, sH, d, S.RunLoop(c, inc, body, env, k))
  {
    hide S.Test, S.Run;
  }

  lemma TestKeys(c: Option<S.Expr>, env: S.Env)
    ensures S.Test(c, env).Some? ==> S.Test(c, env).value.1.Keys == env.Keys
  {
    S.TestKeepsScope(c, env);
  }

  lemma ArrivedEnding(t: Setting, s0: State, x: Point, k: nat, sH: State, d: set<nat>, env: S.Env, regs: Regs,
        w: World, n: nat)
    requires Arrives(t, s0, x, sH, env, regs, w, n)
    ensures Ending(t, s0, x, k, sH, d, S.Normal(env))
  {
    hide Arrives;
  }

  lemma EndingOn(t: Setting, s0: State, x: Point, y: Point, n: nat, k: nat, k1: nat, sH: State, d: set<nat>, r: S.Res)
    requires Goes(t, s0, x, y, n) && Ending(t, s0, y, k1, sH, d, r) && k <= n + k1 && d <= s0.vars.Keys
    ensures Ending(t, s0, x, k, sH, d, r)
  {
    hide Goes, Ending, Newer;
    NewerSelf(s0);
    assert SameOn(d, s0.vars, s0.vars);
    EndingAfter(t, s0, x, y, n, s0, k, k1, sH, d, d, r);
  }

  lemma GoesThrough(t: Setting, s0: State, x: Point, y: Point, n: nat, b: nat, e: S.Env, regs: Regs, w: World, n2: nat)
    requires Goes(t, s0, x, y, n) && Comes(t, s0, y, b, e, regs, w, n2)
    ensures Comes(t, s0, x, b, e, regs, w, n + n2)
  {
    hide Goes, Mirrors, Newer;
    NewerSelf(s0);
    GoesTransitive(t, s0, x, y, n, s0, Point(b, 0, regs, w), n2);
  }

  lemma WentOn(t: Setting, s0: State, isFor: bool, y: Point, k: nat, sH: State, d: set<nat>, r: S.Res)
    returns (regs: Regs, w: World, n: nat)
    requires BodyEnds(t, s0, isFor, y, k, sH, d, r) && (r.Normal? || r.Continued?)
    ensures Comes(t, s0, y, BlocksOf(s0, isFor).inc, r.env, regs, w, n)
  {
    hide Comes, Ending;
    regs, w, n :| Comes(t, s0, y, BlocksOf(s0, isFor).inc, r.env, regs, w, n);
  }

  lemma BrokeOut(t: Setting, s0: State, isFor: bool, y: Point, k: nat, sH: State, d: set<nat>, r: S.Res)
    returns (regs: Regs, w: World, n: nat)
    requires BodyEnds(t, s0, isFor, y, k, sH, d, r) && r.Broke?
    ensures Comes(t, s0, y, BlocksOf(s0, isFor).exit, r.env, regs, w, n)
  {
    hide Comes, Ending;
    regs, w, n :| Comes(t, s0, y, BlocksOf(s0, isFor).exit, r.env, regs, w, n);
  }

  // ---------------------------------------------------------------------------------------------
  // Whole loops

  /** From the insertion point before the loop: a jump to the condition, then round and round. */
  lemma LoopEnds(t: Setting, s0: State, isFor: bool, c: Option<S.Expr>, inc: Option<S.Expr>, body: S.Stmt, d: set<nat>,
        sD: State, sI: State, sF: State, v: Value, env: S.Env, regs: Regs, w: World, k: nat)
    requires LoopBuilt(s0, isFor, c, inc, body, d, sD, sI, sF, v) && LoopStates(s0, isFor, d, sD, sI, sF, v)
    requires S.Scoped(body, d, true)
    requires ReadyFor(t, s0, AtExit(s0, isFor, sF, v), d, env, regs, w)
    ensures Ending(t, s0, Here(s0, regs, w), k, AtExit(s0, isFor, sF, v), d, S.RunLoop(c, inc, body, env, k))
  {
    hide AtBody, AtCond, AtExit, AtInc, BlocksOf, CondExpr, Created, Ending, Evaluates, Executes, FrameOk, Goes, Here,
      Holds, Inside, IsOpen, Leads, LoopGround, LoopStates, Mirrors, Ok, StoreHolds, S.RunLoop, S.Scoped;
    var b, sH := BlocksOf(s0, isFor), AtExit(s0, isFor, sF, v);
    assert s0.cur in s0.body && sD.cur in sD.body && sI.cur in sI.body && sF.cur in sF.body && d <= s0.vars.Keys;
    assert Ok(s0) && (!isFor ==> sI == sD);
    assert IsOpen(s0) && Mirrors(t, s0.vars, env, regs, w) && env.Keys == d && Ground(t, sH);
    LoopGrounded(t, s0, isFor, d, sD, sI, sF, v);
    LoopRuns(t, s0, isFor, c, inc, body, d, sD, sI, sF, v, env, regs, w, k);
    var x, y := Here(s0, regs, w), Point(b.cond, 0, regs, w);
    LoopEntered(t, s0, isFor, d, sD, sI, sF, v, regs, w);
    JumpGoes(t, s0, x, y);
    EndingOn(t, s0, x, y, 1, k, k, sH, d, S.RunLoop(c, inc, body, env, k));
  }

  lemma LoopEntered(t: Setting, s0: State, isFor: bool, d: set<nat>, sD: State, sI: State, sF: State, v: Value,
        regs: Regs, w: World)
    requires Ok(s0) && IsOpen(s0) && d <= s0.vars.Keys && sD.cur in sD.body && sI.cur in sI.body && sF.cur in sF.body
    requires LoopStates(s0, isFor, d, sD, sI, sF, v) && LoopGround(t, s0, isFor, sD, sI, sF, v)
    ensures var x, y := Here(s0, regs, w), Point(BlocksOf(s0, isFor).cond, 0, regs, w);
      Leads(t, x, y, 1) && y.regs == x.regs && y.w == x.w
  {
    hide AtBody, AtCond, AtExit, AtInc, BlocksOf, Closed, Created, Emit, FrameOk, Grown, Grows, Holds, JumpInst,
      Leads, Ok, Outside, StartsAt, Step, ValueBelow, Waiting;
    var b, c, uB := BlocksOf(s0, isFor), Created(s0, isFor), AtBody(s0, isFor);
    AtBodyShape(s0, isFor, d);
    assert Holds(t.g, AtExit(s0, isFor, sF, v)) && b.cond in t.g.body;
    assert Grows(uB, AtExit(s0, isFor, sF, v));
    HoldsTo(t, uB, AtExit(s0, isFor, sF, v));
    SameHolds(t, uB, Emit(c, JumpInst(b.cond)));
    CreatedCurrent(s0, isFor);
    assert IsOpen(c);
    JumpStep(t.m, t.params, b.cond, regs, w);
    JumpLeads(t, c, JumpInst(b.cond), regs, w, b.cond);
  }

  lemma CreatedCurrent(s0: State, isFor: bool)
    requires Ok(s0)
    ensures var c := Created(s0, isFor);
      s0.cur in s0.body && c.cur == s0.cur && c.cur in c.body && c.body[c.cur] == s0.body[s0.cur]
  {
    NewBlockOk(s0);
    NewBlockOk(NewBlock(s0));
    NewBlockOk(NewBlock(NewBlock(s0)));
    NewBlockOk(NewBlock(NewBlock(NewBlock(s0))));
  }

  lemma WhileExecutes(s0: State, c: S.Expr, body: S.Stmt, d: set<nat>, sD: State, sF: State, v: Value)
    requires LoopBuilt(s0, false, Some(c), None, body, d, sD, sD, sF, v) && S.Scoped(body, d, true)
    ensures sF.cur in sF.body && Executes(s0, S.While(c, body), d, AtExit(s0, false, sF, v))
  {
    hide AtBody, AtCond, AtExit, AtInc, BlocksOf, Ending, Grown, Grows, Here, LoopBuilt, Outside, ReadyFor, StartsAt,
      ValueBelow, S.Close, S.RunAll, S.RunLoop, S.Scoped, S.Value;
    LoopShape(s0, false, Some(c), None, body, d, sD, sD, sF, v);
    var sH := AtExit(s0, false, sF, v);
    assert Grown(s0, d, sH);
    forall t: Setting, env: S.Env, regs: Regs, w: World, k: nat | ReadyFor(t, s0, sH, d, env, regs, w)
      ensures Ending(t, s0, Here(s0, regs, w), k, sH, d, S.Run(S.While(c, body), env, k))
    {
      LoopEnds(t, s0, false, Some(c), None, body, d, sD, sD, sF, v, env, regs, w, k);
      assert S.Run(S.While(c, body), env, k) == S.RunLoop(Some(c), None, body, env, k);
    }
    assert S.Declares(S.While(c, body)) <= sH.vars.Keys;
  }

  /** `per` without an initializer. */
  lemma BareForExecutes(s0: State, c: Option<S.Expr>, inc: Option<S.Expr>, body: S.Stmt, d: set<nat>, sD: State,
        sI: State, sF: State, v: Value)
    requires LoopBuilt(s0, true, c, inc, body, d, sD, sI, sF, v) && S.Scoped(body, d, true)
    ensures sF.cur in sF.body && Executes(s0, S.For(None, c, inc, body), d, AtExit(s0, true, sF, v))
  {
    hide AtBody, AtCond, AtExit, AtInc, BlocksOf, Ending, Grown, Grows, Here, LoopBuilt, Outside, ReadyFor, StartsAt,
      ValueBelow, S.Close, S.RunAll, S.RunLoop, S.Scoped, S.Value;
    LoopShape(s0, true, c, inc, body, d, sD, sI, sF, v);
    var sH := AtExit(s0, true, sF, v);
    assert Grown(s0, d, sH);
    forall t: Setting, env: S.Env, regs: Regs, w: World, k: nat | ReadyFor(t, s0, sH, d, env, regs, w)
      ensures Ending(t, s0, Here(s0, regs, w), k, sH, d, S.Run(S.For(None, c, inc, body), env, k))
    {
      LoopEnds(t, s0, true, c, inc, body, d, sD, sI, sF, v, env, regs, w, k);
      assert S.Run(S.For(None, c, inc, body), env, k) == S.RunLoop(c, inc, body, env, k);
    }
    assert S.Declares(S.For(None, c, inc, body)) <= sH.vars.Keys;
  }

  /** `per` with an initializer, whose variable is in scope in the loop only. */
  lemma ForExecutes(s: State, first: S.Stmt, c: Option<S.Expr>, inc: Option<S.Expr>, body: S.Stmt, d: set<nat>,
        s0: State, sD: State, sI: State, sF: State, v: Value)
    requires Ok(s) && Executes(s, first, d, s0) && S.Scoped(first, d, false)
    requires LoopBuilt(s0, true, c, inc, body, d + S.Declares(first), sD, sI, sF, v)
    requires S.Scoped(body, d + S.Declares(first), true)
    ensures sF.cur in sF.body && Executes(s, S.For(Some(first), c, inc, body), d, AtExit(s0, true, sF, v))
  {
    hide AtBody, AtCond, AtExit, AtInc, BlocksOf, Ending, Grown, Grows, Here, LoopBuilt, Newer, Ok, Outside, ReadyFor,
      SameOn, StartsAt, ValueBelow, S.Run, S.Scoped;
    var d' := d + S.Declares(first);
    LoopShape(s0, true, c, inc, body, d', sD, sI, sF, v);
    var sH := AtExit(s0, true, sF, v);
    assert Grown(s0, d', sH);
    ExecutesKeeps(s, first, d, s0);
    GrownTransitive(s, d, s0, d', sH);
    GrownCounters(s0, d', sH);
    OkCurrent(s);
    forall t: Setting, env: S.Env, regs: Regs, w: World, k: nat | ReadyFor(t, s, sH, d, env, regs, w)
      ensures Ending(t, s, Here(s, regs, w), k, sH, d, S.Run(S.For(Some(first), c, inc, body), env, k))
    {
      ForRun(s, first, c, inc, body, d, s0, sD, sI, sF, v, t, env, regs, w, k);
    }
    assert S.Declares(S.For(Some(first), c, inc, body)) <= sH.vars.Keys;
  }

  lemma ForRun(s: State, first: S.Stmt, c: Option<S.Expr>, inc: Option<S.Expr>, body: S.Stmt, d: set<nat>, s0: State,
        sD: State, sI: State, sF: State, v: Value, t: Setting, env: S.Env, regs: Regs, w: World, k: nat)
    requires Ok(s) && s.cur in s.body && Executes(s, first, d, s0) && S.Scoped(first, d, false) && sF.cur in sF.body
    requires s0.cur in s0.body
    requires LoopBuilt(s0, true, c, inc, body, d + S.Declares(first), sD, sI, sF, v)
    requires S.Scoped(body, d + S.Declares(first), true)
    requires sD.cur in sD.body && sI.cur in sI.body && LoopStates(s0, true, d + S.Declares(first), sD, sI, sF, v)
    requires ReadyFor(t, s, AtExit(s0, true, sF, v), d, env, regs, w)
    ensures Ending(t, s, Here(s, regs, w), k, AtExit(s0, true, sF, v), d,
      S.Run(S.For(Some(first), c, inc, body), env, k))
  {
    hide AtBody, AtCond, AtExit, AtInc, BlocksOf, Ending, Executes, FrameOk, Goes, Grown, Grows, Here, Holds, IsOpen,
      LoopBuilt, Newer, Ok, Outside, SameOn, Sim, StartsAt, ValueBelow, S.Close, S.Declares, S.RunAll, S.RunLoop,
      S.Run, S.Scoped, S.Value;
    ForRuns(first, c, inc, body, env, k);
    var d', sH, r := d + S.Declares(first), AtExit(s0, true, sF, v), S.Run(first, env, k);
    assert Grown(s0, d', sH);
    GrownCounters(s0, d', sH);
    ExecutesKeeps(s, first, d, s0);
    GrownCounters(s, d, s0);
    ReadyForEarlier(t, s, s0, sH, d, env, regs, w);
    EndingOf(s, first, d, s0, t, env, regs, w, k);
    assert env.Keys == d;
    if r.Normal? {
      S.RunKeepsScope(first, env, k, false);
      assert r.env.Keys == d';
      var regs', w', n := ArrivalOf(t, s, Here(s, regs, w), k, s0, d, r);
      var q := S.RunLoop(c, inc, body, r.env, k);
      assert ReadyFor(t, s0, sH, d', r.env, regs', w');
      LoopEnds(t, s0, true, c, inc, body, d', sD, sI, sF, v, r.env, regs', w', k);
      assert Goes(t, s, Here(s, regs, w), Here(s0, regs', w'), n);
      EndingAfter(t, s, Here(s, regs, w), Here(s0, regs', w'), n, s0, k, k, sH, d, d', q);
      EndingClosed(t, s, Here(s, regs, w), k, sH, d, q);
    } else {
      NonNormalElsewhere(t, s, Here(s, regs, w), k, s0, sH, d, r);
    }
  }

  lemma ForRuns(first: S.Stmt, c: Option<S.Expr>, inc: Option<S.Expr>, body: S.Stmt, env: S.Env, k: nat)
    ensures var r := S.Run(first, env, k);
      S.Run(S.For(Some(first), c, inc, body), env, k)
        == if r.Normal? then S.Close(S.RunLoop(c, inc, body, r.env, k), env.Keys) else r
  {
    hide S.RunLoop, S.Close;
  }

  lemma ArrivalOf(t: Setting, s: State, x: Point, k: nat, s1: State, d: set<nat>, r: S.Res)
    returns (regs: Regs, w: World, n: nat)
    requires Ending(t, s, x, k, s1, d, r) && r.Normal?
    ensures Arrives(t, s, x, s1, r.env, regs, w, n)
  {
    hide Arrives;
    regs, w, n :| Arrives(t, s, x, s1, r.env, regs, w, n);
  }
}
