/** Conditional statements: folded, turned into a select, or branching. */
module Conditionals {
  import opened Sir
  import opened Builder
  import opened Frames
  import opened BuildOps
  import opened Expressions
  import opened ShortCircuit
  import opened Statements
  import opened SimpleStatements
  import S = Source

  // ---------------------------------------------------------------------------------------------
  // Building with several blocks at once

  /** Block `b` exists, is still empty and not yet the current one. */
  ghost predicate Waiting(s: State, b: nat) { b in s.body && s.body[b] == [] && b != s.cur && b < s.nextBlock }

  lemma WaitingStays(s: State, s': State, b: nat)
    requires Waiting(s, b) && Local(s, s') && s.nextBlock <= s'.nextBlock
    ensures Waiting(s', b)
  {}

  lemma WaitingEmit(s: State, inst: Inst, b: nat)
    requires Waiting(s, b) && s.cur in s.body
    ensures Waiting(Emit(s, inst), b)
  {}

  lemma WaitingMove(s: State, b: nat, c: nat)
    requires Waiting(s, b) && b != c
    ensures Waiting(MoveTo(s, c), b)
  {}

  lemma WaitingNew(s: State)
    requires Ok(s)
    ensures Waiting(NewBlock(s), s.nextBlock)
    ensures forall b | Waiting(s, b) :: Waiting(NewBlock(s), b)
  {
    NewBlockOk(s);
  }

  lemma GrownSelf(s: State, d: set<nat>)
    requires Ok(s) && d <= s.vars.Keys
    ensures Grown(s, d, s)
  {
    hide Ok;
    NewerSelf(s);
  }

  lemma GrownNew(s: State, d: set<nat>, s1: State)
    requires Grown(s, d, s1)
    ensures Grown(s, d, NewBlock(s1))
  {
    hide Ok, SameOn, IsCell;
    NewBlockOk(s1);
    GrowsTransitive(s, s1, NewBlock(s1));
  }

  lemma GrownMove(s: State, d: set<nat>, s1: State, b: nat)
    requires Grown(s, d, s1) && b >= s.nextBlock && b in s1.body
    ensures Grown(s, d, MoveTo(s1, b))
  {
    hide Ok, SameOn, IsCell, BlockGrows;
    MoveOk(s1, b);
  }

  lemma GrownEmit(s: State, d: set<nat>, s1: State, inst: Inst)
    requires Ok(s) && Grown(s, d, s1) && InstBelow(inst, s1.nextVreg)
    ensures s1.cur in s1.body && Grown(s, d, Emit(s1, inst))
  {
    hide SameOn, IsCell, InstBelow, Grows, Local, Emit;
    OkCurrent(s1);
    LeaveBlock(s1, inst);
    assert Valid(s);
    GrowsTransitive(s, s1, Emit(s1, inst));
    LocalTransitive(s, s1, Emit(s1, inst));
  }

  lemma GrownCounters(s: State, d: set<nat>, s1: State)
    requires Grown(s, d, s1)
    ensures s.nextVreg <= s1.nextVreg && s.nextBlock <= s1.nextBlock && Ok(s1) && Newer(s, s1) && Grows(s, s1)
    ensures s1.loopCond == s.loopCond && s1.loopExit == s.loopExit && SameOn(d, s.vars, s1.vars) && d <= s1.vars.Keys
  {
    hide Ok, Local, IsCell;
  }

  lemma JumpBelow(b: nat, n: nat)
    ensures InstBelow(JumpInst(b), n)
  {}

  lemma BranchBelow(v: Value, a: nat, b: nat, n: nat)
    requires ValueBelow(v, n)
    ensures InstBelow(BranchInst(v, a, b), n)
  {}

  lemma GoesNowhere(t: Setting, base: State, x: Point)
    ensures Goes(t, base, x, x, 0)
  {}

  // ---------------------------------------------------------------------------------------------
  // One arm of a branch

  lemma MirrorsSame(t: Setting, d: set<nat>, vars: map<nat, Binding>, vars': map<nat, Binding>, env: S.Env, regs: Regs,
        w: World)
    requires Mirrors(t, vars, env, regs, w) && SameOn(d, vars, vars') && env.Keys <= d
    ensures Mirrors(t, vars', env, regs, w)
  {
    hide Lives;
    forall x | x in env
      ensures x in vars' && Lives(t, vars'[x], env[x], regs, w)
    {
      assert x in d;
    }
  }

  lemma SameOnBoth(d: set<nat>, a: map<nat, Binding>, b: map<nat, Binding>, c: map<nat, Binding>)
    requires SameOn(d, a, b) && SameOn(d, a, c)
    ensures SameOn(d, b, c)
  {}

  /** A statement generated into its own block, followed by a jump to `mb`, where the code goes on as in `sf`. */
  lemma ArmRuns(t: Setting, base: State, sa: State, st: S.Stmt, d: set<nat>, sb: State, mb: nat, sf: State, env: S.Env,
        regs: Regs, w: World, k: nat)
    requires Executes(sa, st, d, sb) && sa.cur in sa.body && sa.body[sa.cur] == [] && sb.cur in sb.body
    requires Grown(base, d, sa) && SameOn(d, base.vars, sf.vars) && sf.cur == mb && mb in sf.body && sf.body[mb] == []
    requires FrameOk(t) && sb.nextVreg <= t.size && Holds(t.g, sb) && Holds(t.g, Emit(sb, JumpInst(mb)))
    requires mb in t.g.body
    requires Mirrors(t, base.vars, env, regs, w) && env.Keys == d
    ensures Ending(t, base, Point(sa.cur, 0, regs, w), k, sf, d, S.Close(S.Run(st, env, k), d))
  {
    hide Executes, Ok, FrameOk, Holds, S.Run, Mirrors, SameOn, Leads, KeepRegs, Kept, Emit, Escapes, Finishes,
      Survives, Newer, Grows, Local, Goes;
    var x := Point(sa.cur, 0, regs, w);
    GrownCounters(base, d, sa);
    ExecutesKeeps(sa, st, d, sb);
    GrownCounters(sa, d, sb);
    MirrorsSame(t, d, base.vars, sa.vars, env, regs, w);
    assert Here(sa, regs, w) == x && Sim(t, sa, env, regs, w);
    assert ReadyFor(t, sa, sb, d, env, regs, w);
    EndingOf(sa, st, d, sb, t, env, regs, w, k);
    var r := S.Run(st, env, k);
    EndingClosed(t, sa, x, k, sb, d, r);
    GoesNowhere(t, base, x);
    if r.Normal? {
      var env' := S.Within(r.env, d);
      var regs', w', c :| Arrives(t, sa, x, sb, env', regs', w', c);
      ArmJoins(t, base, x, sa, sb, d, mb, sf, env', regs', w', c);
    } else {
      NonNormalElsewhere(t, sa, x, k, sb, sf, d, S.Close(r, d));
      EndingAfter(t, base, x, x, 0, sa, k, k, sf, d, d, S.Close(r, d));
    }
  }

  lemma ArmJoins(t: Setting, base: State, x: Point, sa: State, sb: State, d: set<nat>, mb: nat, sf: State, env': S.Env,
        regs': Regs, w': World, c: nat)
    requires Arrives(t, sa, x, sb, env', regs', w', c) && Grown(base, d, sa) && Grown(sa, d, sb) && env'.Keys <= d
    requires SameOn(d, base.vars, sf.vars) && sf.cur == mb && mb in sf.body && sf.body[mb] == []
    requires Holds(t.g, Emit(sb, JumpInst(mb))) && mb in t.g.body
    ensures Arrives(t, base, x, sf, env', regs', w', c + 1)
  {
    hide Ok, Holds, Mirrors, Leads, KeepRegs, Kept, Emit, Newer, Grows, Local, Goes;
    var y, z := Here(sb, regs', w'), Point(mb, 0, regs', w');
    GrownCounters(base, d, sa);
    GrownCounters(sa, d, sb);
    JumpStep(t.m, t.params, mb, regs', w');
    JumpLeads(t, sb, JumpInst(mb), regs', w', mb);
    JumpGoes(t, sa, y, z);
    NewerSelf(sa);
    GoesTransitive(t, sa, x, y, c, sa, z, 1);
    GoesNowhere(t, base, x);
    GoesTransitive(t, base, x, x, 0, sa, z, c + 1);
    SameOnBoth(d, base.vars, sa.vars, sf.vars);
    assert SameOn(d, sb.vars, sf.vars);
    MirrorsSame(t, d, sb.vars, sf.vars, env', regs', w');
    assert Here(sf, regs', w') == z;
  }

  // ---------------------------------------------------------------------------------------------
  // A literal condition

  /** Only the chosen arm is generated, in place. */
  lemma LiteralIfExecutes(s: State, c: S.Expr, yes: S.Stmt, no: Option<S.Stmt>, d: set<nat>, s1: State, b: bool,
        s2: State)
    requires Ok(s) && Evaluates(s, c, s1, ConstBool(b)) && d <= s.vars.Keys
    requires if b then Executes(s1, yes, d, s2) else if no.Some? then Executes(s1, no.value, d, s2) else s2 == s1
    ensures Executes(s, S.If(c, yes, no), d, s2)
  {
    hide Built, Ending, Evaluates, Grown, Grows, Here, Newer, Ok, ReadyFor, SameOn, ValueBelow, S.Run;
    EvaluatesKeeps(s, c, s1, ConstBool(b));
    BuiltGrown(s, d, s1);
    GrownCounters(s, d, s1);
    if b {
      ExecutesKeeps(s1, yes, d, s2);
    } else if no.Some? {
      ExecutesKeeps(s1, no.value, d, s2);
    } else {
      GrownSelf(s1, d);
    }
    GrownTransitive(s, d, s1, d, s2);
    OkCurrent(s);
    forall t: Setting, env: S.Env, regs: Regs, w: World, k: nat | ReadyFor(t, s, s2, d, env, regs, w)
      ensures Ending(t, s, Here(s, regs, w), k, s2, d, S.Run(S.If(c, yes, no), env, k))
    {
      LiteralIfRun(s, c, yes, no, d, s1, b, s2, t, env, regs, w, k);
    }
    assert S.Declares(S.If(c, yes, no)) <= s2.vars.Keys;
  }

  lemma IfRuns(c: S.Expr, yes: S.Stmt, no: Option<S.Stmt>, env: S.Env, k: nat)
    ensures S.Run(S.If(c, yes, no), env, k) ==
      if S.Value(c, env).None? || !S.Value(c, env).value.0.B? then S.Fails
      else if S.Value(c, env).value.0.b then
        S.Close(S.Run(yes, S.Value(c, env).value.1, k), S.Value(c, env).value.1.Keys)
      else if no.None? then S.Normal(S.Value(c, env).value.1)
      else S.Close(S.Run(no.value, S.Value(c, env).value.1, k), S.Value(c, env).value.1.Keys)
  {
    hide S.Value, S.Close;
  }

  /** The condition's code has run, and its value is the literal. */
  lemma LiteralReached(t: Setting, s: State, c: S.Expr, s1: State, b: bool, s2: State, d: set<nat>, env: S.Env,
        regs: Regs, w: World, q: bool, env1: S.Env)
    returns (regs1: Regs, w1: World, n: nat)
    requires Evaluates(s, c, s1, ConstBool(b)) && Grows(s1, s2) && ReadyFor(t, s, s2, d, env, regs, w)
    requires S.Value(c, env) == Some((S.B(q), env1)) && env1.Keys == d
    ensures q == b && Goes(t, s, Here(s, regs, w), Here(s1, regs1, w1), n) && Sim(t, s1, env1, regs1, w1)
    ensures ReadyFor(t, s1, s2, d, env1, regs1, w1)
  {
    hide Ok, FrameOk, Holds, S.Value, Evaluates, Goes, Sim, Grows;
    ReadyForEarlier(t, s, s1, s2, d, env, regs, w);
    regs1, w1, n := RunOf(s, c, s1, ConstBool(b), t, env, regs, w, S.B(q), env1);
    assert IsOpen(s1) && Sim(t, s1, env1, regs1, w1);
    ReachedGoes(t, s, regs, w, s1, env1, regs1, w1, n);
  }

  lemma LiteralIfRun(s: State, c: S.Expr, yes: S.Stmt, no: Option<S.Stmt>, d: set<nat>, s1: State, b: bool, s2: State,
        t: Setting, env: S.Env, regs: Regs, w: World, k: nat)
    requires Ok(s) && Evaluates(s, c, s1, ConstBool(b)) && Grown(s, d, s1) && Grown(s1, d, s2) && s.cur in s.body
    requires if b then Executes(s1, yes, d, s2) else if no.Some? then Executes(s1, no.value, d, s2) else s2 == s1
    requires ReadyFor(t, s, s2, d, env, regs, w)
    ensures Ending(t, s, Here(s, regs, w), k, s2, d, S.Run(S.If(c, yes, no), env, k))
  {
    hide Executes, Ok, Grown, FrameOk, Holds, S.Value, Evaluates, Goes, Mirrors, StoreHolds, SameOn, Newer, Escapes,
      Finishes, Survives, Grows, S.Close, S.Run;
    GrownCounters(s, d, s1);
    GrownCounters(s1, d, s2);
    IfRuns(c, yes, no, env, k);
    if S.Value(c, env).Some? && S.Value(c, env).value.0.B? {
      var p := S.Value(c, env).value;
      S.ValueKeepsScope(c, env);
      var regs1, w1, n := LiteralReached(t, s, c, s1, b, s2, d, env, regs, w, p.0.b, p.1);
      if b || no.Some? {
        var arm := if b then yes else no.value;
        EndingOf(s1, arm, d, s2, t, p.1, regs1, w1, k);
        EndingClosed(t, s1, Here(s1, regs1, w1), k, s2, d, S.Run(arm, p.1, k));
        EndingAfter(t, s, Here(s, regs, w), Here(s1, regs1, w1), n, s1, k, k, s2, d, d, S.Close(S.Run(arm, p.1, k), d));
      } else {
        assert Arrives(t, s, Here(s, regs, w), s2, p.1, regs1, w1, n);
      }
    }
  }

  // ---------------------------------------------------------------------------------------------
  // A branch

  function ThenBlock(s1: State): nat { s1.nextBlock }

  function MergeBlock(s1: State, hasElse: bool): nat { if hasElse then s1.nextBlock + 2 else s1.nextBlock + 1 }

  function WithBlocks(s1: State, hasElse: bool): State {
    if hasElse then NewBlock(NewBlock(NewBlock(s1))) else NewBlock(NewBlock(s1))
  }

  /** The blocks are there and the current one has branched. */
  function BranchedTo(s1: State, v: Value, hasElse: bool): State
    requires s1.cur in s1.body
  {
    Emit(WithBlocks(s1, hasElse), BranchInst(v, ThenBlock(s1), s1.nextBlock + 1))
  }

  /** The insertion point is the first arm. */
  function AtThen(s1: State, v: Value, hasElse: bool): State
    requires s1.cur in s1.body
  {
    MoveTo(BranchedTo(s1, v, hasElse), ThenBlock(s1))
  }

  /** An arm has joined and the insertion point is block `b`. */
  function JoinedAt(s5: State, mb: nat, b: nat): State
    requires s5.cur in s5.body
  {
    MoveTo(Emit(s5, JumpInst(mb)), b)
  }

  lemma AtThenShape(s: State, d: set<nat>, s1: State, v: Value, hasElse: bool)
    requires Ok(s) && Grown(s, d, s1) && ValueBelow(v, s1.nextVreg)
    ensures s1.cur in s1.body
    ensures var s4 := AtThen(s1, v, hasElse);
      && Grown(s, d, s4) && s4.cur == ThenBlock(s1) && s4.cur in s4.body && s4.body[s4.cur] == []
      && Waiting(s4, MergeBlock(s1, hasElse)) && (hasElse ==> Waiting(s4, s1.nextBlock + 1))
      && s4.vars == s1.vars && s4.nextVreg == s1.nextVreg
      && BranchedTo(s1, v, hasElse).body == s4.body
  {
    hide Ok, Grown, BranchInst;
    var tb := ThenBlock(s1);
    GrownCounters(s, d, s1);
    OkCurrent(s1);
    GrownNew(s, d, s1);
    GrownNew(s, d, NewBlock(s1));
    WaitingNew(s1);
    GrownCounters(s, d, NewBlock(s1));
    WaitingNew(NewBlock(s1));
    GrownCounters(s, d, NewBlock(NewBlock(s1)));
    if hasElse { GrownNew(s, d, NewBlock(NewBlock(s1))); WaitingNew(NewBlock(NewBlock(s1))); }
    var s2 := WithBlocks(s1, hasElse);
    var j := BranchInst(v, tb, s1.nextBlock + 1);
    BranchBelow(v, tb, s1.nextBlock + 1, s2.nextVreg);
    GrownEmit(s, d, s2, j);
    WaitingEmit(s2, j, tb);
    WaitingEmit(s2, j, MergeBlock(s1, hasElse));
    WaitingMove(Emit(s2, j), MergeBlock(s1, hasElse), tb);
    if hasElse { WaitingEmit(s2, j, tb + 1); WaitingMove(Emit(s2, j), tb + 1, tb); }
    assert tb in Emit(s2, j).body && Emit(s2, j).body[tb] == [];
    GrownMove(s, d, Emit(s2, j), tb);
    assert Emit(s2, j).vars == s1.vars && Emit(s2, j).nextVreg == s1.nextVreg;
  }

  lemma JoinedShape(s: State, d: set<nat>, s4: State, s5: State, mb: nat, b: nat)
    requires Ok(s) && Grown(s, d, s4) && Grown(s4, d, s5) && Waiting(s4, b) && b >= s.nextBlock
    ensures s5.cur in s5.body && Grown(s, d, s5) && Grows(s5, Emit(s5, JumpInst(mb)))
    ensures var s6 := JoinedAt(s5, mb, b);
      && Grown(s, d, s6) && s6.cur == b && b in s6.body && s6.body[b] == [] && Grows(s5, s6) && s6.vars == s5.vars
      && s6.nextVreg == s5.nextVreg
      && Emit(s5, JumpInst(mb)).body == s6.body && Grows(s4, s6)
    ensures forall m | Waiting(s4, m) && m != b :: Waiting(JoinedAt(s5, mb, b), m)
  {
    hide Ok, JumpInst, Newer, SameOn;
    GrownTransitive(s, d, s4, d, s5);
    OkCurrent(s5);
    JumpBelow(mb, s5.nextVreg);
    GrownEmit(s, d, s5, JumpInst(mb));
    WaitingStays(s4, s5, b);
    WaitingEmit(s5, JumpInst(mb), b);
    assert b in Emit(s5, JumpInst(mb)).body && Emit(s5, JumpInst(mb)).body[b] == [];
    GrownMove(s, d, Emit(s5, JumpInst(mb)), b);
    EmitGrows(s5, JumpInst(mb));
    assert Grows(s5, JoinedAt(s5, mb, b));
    GrowsTransitive(s4, s5, JoinedAt(s5, mb, b));
    forall m | Waiting(s4, m) && m != b
      ensures Waiting(JoinedAt(s5, mb, b), m)
    {
      WaitingStays(s4, s5, m);
      WaitingEmit(s5, JumpInst(mb), m);
      WaitingMove(Emit(s5, JumpInst(mb)), m, b);
    }
    assert JoinedAt(s5, mb, b).vars == s5.vars && JoinedAt(s5, mb, b).nextVreg == s5.nextVreg;
  }

  /** How the run gets from the condition to the arm it chooses. */
  lemma BranchGoes(t: Setting, s: State, c: S.Expr, s1: State, v: Value, s2: State, a: nat, b: nat, env: S.Env,
        regs: Regs, w: World)
    returns (regs1: Regs, w1: World, n: nat)
    requires Ok(s) && Evaluates(s, c, s1, v) && Ready(t, s, s1, env, regs, w) && s.cur in s.body
    requires S.Value(c, env).Some? && S.Value(c, env).value.0.B?
    requires s1.cur in s1.body && s2.cur == s1.cur && s2.cur in s2.body && s2.body[s2.cur] == s1.body[s1.cur]
    requires Holds(t.g, Emit(s2, BranchInst(v, a, b)))
    requires a in t.g.body && b in t.g.body
    ensures var p := S.Value(c, env).value;
      && Goes(t, s, Here(s, regs, w), Point(if p.0.b then a else b, 0, regs1, w1), n + 1)
      && Mirrors(t, s1.vars, p.1, regs1, w1)
  {
    hide Ok, FrameOk, Holds, S.Value, Evaluates, Goes, Mirrors, StoreHolds, KeepRegs, Kept, Leads, Emit, BranchInst;
    var p := S.Value(c, env).value;
    regs1, w1, n := RunOf(s, c, s1, v, t, env, regs, w, p.0, p.1);
    assert IsOpen(s1) && Sim(t, s1, p.1, regs1, w1);
    ReachedGoes(t, s, regs, w, s1, p.1, regs1, w1, n);
    BranchStep(t, v, a, b, regs1, w1, S.Enc(p.0));
    var y := Point(if p.0.b then a else b, 0, regs1, w1);
    JumpLeads(t, s2, BranchInst(v, a, b), regs1, w1, y.b);
    assert Here(s2, regs1, w1) == Here(s1, regs1, w1);
    JumpGoes(t, s, Here(s1, regs1, w1), y);
    NewerSelf(s);
    GoesTransitive(t, s, Here(s, regs, w), Here(s1, regs1, w1), n, s, y, 1);
  }

  lemma WithBlocksCurrent(s1: State, hasElse: bool)
    requires Ok(s1)
    ensures var s2 := WithBlocks(s1, hasElse);
      s1.cur in s1.body && s2.cur == s1.cur && s2.cur in s2.body && s2.body[s2.cur] == s1.body[s1.cur]
  {
    NewBlockOk(s1);
    NewBlockOk(NewBlock(s1));
    NewBlockOk(NewBlock(NewBlock(s1)));
  }

  /** Without an else part. */
  lemma IfThenExecutes(s: State, c: S.Expr, yes: S.Stmt, d: set<nat>, s1: State, v: Value, s5: State)
    requires Ok(s) && Evaluates(s, c, s1, v) && d <= s.vars.Keys && s1.cur in s1.body
    requires Executes(AtThen(s1, v, false), yes, d, s5)
    ensures s5.cur in s5.body
    ensures Executes(s, S.If(c, yes, None), d, JoinedAt(s5, MergeBlock(s1, false), MergeBlock(s1, false)))
  {
    hide AtThen, BranchedTo, Built, Emit, Ending, Evaluates, Grown, Grows, Here, JoinedAt, JumpInst, Newer, Ok,
      ReadyFor, SameOn, ThenBlock, ValueBelow, Waiting, S.Run;
    EvaluatesKeeps(s, c, s1, v);
    BuiltGrown(s, d, s1);
    GrownCounters(s, d, s1);
    AtThenShape(s, d, s1, v, false);
    var s4, mb := AtThen(s1, v, false), MergeBlock(s1, false);
    assert mb >= s.nextBlock;
    ExecutesKeeps(s4, yes, d, s5);
    JoinedShape(s, d, s4, s5, mb, mb);
    var sf := JoinedAt(s5, mb, mb);
    OkCurrent(s);
    forall t: Setting, env: S.Env, regs: Regs, w: World, k: nat | ReadyFor(t, s, sf, d, env, regs, w)
      ensures Ending(t, s, Here(s, regs, w), k, sf, d, S.Run(S.If(c, yes, None), env, k))
    {
      IfThenRun(s, c, yes, d, s1, v, s5, t, env, regs, w, k);
    }
    assert S.Declares(S.If(c, yes, None)) <= sf.vars.Keys;
  }

  lemma IfThenRun(s: State, c: S.Expr, yes: S.Stmt, d: set<nat>, s1: State, v: Value, s5: State, t: Setting,
        env: S.Env, regs: Regs, w: World, k: nat)
    requires Ok(s) && Evaluates(s, c, s1, v) && d <= s.vars.Keys && s1.cur in s1.body
    requires Executes(AtThen(s1, v, false), yes, d, s5)
    requires s.cur in s.body && s5.cur in s5.body
    requires ReadyFor(t, s, JoinedAt(s5, MergeBlock(s1, false), MergeBlock(s1, false)), d, env, regs, w)
    ensures Ending(t, s, Here(s, regs, w), k, JoinedAt(s5, MergeBlock(s1, false), MergeBlock(s1, false)), d,
      S.Run(S.If(c, yes, None), env, k))
  {
    hide Executes, Evaluates, Ok, ReadyFor, AtThen, JoinedAt, Arrives, Escapes, Finishes, Survives, S.Close;
    if S.Value(c, env).Some? && S.Value(c, env).value.0.B? {
      IfThenChosen(s, c, yes, d, s1, v, s5, t, env, regs, w, k);
    }
  }

  /** The states of a one-armed conditional fit together and the finished function holds them. */
  lemma IfThenHolds(s: State, c: S.Expr, yes: S.Stmt, d: set<nat>, s1: State, v: Value, s5: State, t: Setting,
        env: S.Env, regs: Regs, w: World)
    requires Ok(s) && Evaluates(s, c, s1, v) && d <= s.vars.Keys && s1.cur in s1.body
    requires Executes(AtThen(s1, v, false), yes, d, s5)
    requires s5.cur in s5.body
    requires ReadyFor(t, s, JoinedAt(s5, MergeBlock(s1, false), MergeBlock(s1, false)), d, env, regs, w)
    ensures var mb := MergeBlock(s1, false);
      && Ready(t, s, s1, env, regs, w) && FrameOk(t) && s5.nextVreg <= t.size
      && Holds(t.g, BranchedTo(s1, v, false)) && Holds(t.g, s5) && Holds(t.g, Emit(s5, JumpInst(mb)))
      && ThenBlock(s1) in t.g.body && mb in t.g.body
      && Grown(s, d, s1) && Grown(s, d, AtThen(s1, v, false)) && Grown(s, d, JoinedAt(s5, mb, mb))
      && StartsAt(AtThen(s1, v, false), ThenBlock(s1)) && StartsAt(JoinedAt(s5, mb, mb), mb)
  {
    hide Executes, Ok, Grown, FrameOk, Holds, Evaluates, Sim, Waiting, Grows, AtThen, JoinedAt, Emit, BranchInst,
      JumpInst, WithBlocks, BranchedTo, ValueBelow;
    EvaluatesKeeps(s, c, s1, v);
    BuiltGrown(s, d, s1);
    GrownCounters(s, d, s1);
    AtThenShape(s, d, s1, v, false);
    AtThenGrows(s, d, s1, v);
    var s4, mb := AtThen(s1, v, false), MergeBlock(s1, false);
    ExecutesKeeps(s4, yes, d, s5);
    JoinedShape(s, d, s4, s5, mb, mb);
    var sf := JoinedAt(s5, mb, mb);
    GrownCounters(s4, d, s5);
    HoldsTo(t, s4, sf);
    HoldsTo(t, s5, sf);
    HoldsTo(t, s1, s4);
    SameHolds(t, s4, BranchedTo(s1, v, false));
    SameHolds(t, sf, Emit(s5, JumpInst(mb)));
    HeldBlock(t, s4, ThenBlock(s1));
    HeldBlock(t, sf, mb);
  }

  lemma IfThenChosen(s: State, c: S.Expr, yes: S.Stmt, d: set<nat>, s1: State, v: Value, s5: State, t: Setting,
        env: S.Env, regs: Regs, w: World, k: nat)
    requires Ok(s) && Evaluates(s, c, s1, v) && d <= s.vars.Keys && s1.cur in s1.body
    requires Executes(AtThen(s1, v, false), yes, d, s5)
    requires s.cur in s.body && s5.cur in s5.body
    requires ReadyFor(t, s, JoinedAt(s5, MergeBlock(s1, false), MergeBlock(s1, false)), d, env, regs, w)
    requires S.Value(c, env).Some? && S.Value(c, env).value.0.B?
    ensures Ending(t, s, Here(s, regs, w), k, JoinedAt(s5, MergeBlock(s1, false), MergeBlock(s1, false)), d,
      S.Run(S.If(c, yes, None), env, k))
  {
    hide AtThen, BranchInst, Emit, Escapes, EvalOperand, Evaluates, Executes, Finishes, FrameOk, Goes, Grown, Grows,
      Holds, JoinedAt, JumpInst, Mirrors, Newer, Ok, Ready, Survives, WithBlocks, S.Answer, S.Close, S.RunAll,
      S.RunLoop, S.Value;
    IfThenHolds(s, c, yes, d, s1, v, s5, t, env, regs, w);
    var s4, tb, mb := AtThen(s1, v, false), ThenBlock(s1), MergeBlock(s1, false);
    var sf := JoinedAt(s5, mb, mb);
    GrownCounters(s, d, s1);
    GrownCounters(s, d, sf);
    WithBlocksCurrent(s1, false);
    var p := S.Value(c, env).value;
    S.ValueKeepsScope(c, env);
    var regs1, w1, n := BranchGoes(t, s, c, s1, v, WithBlocks(s1, false), tb, mb, env, regs, w);
    var y := Point(if p.0.b then tb else mb, 0, regs1, w1);
    NewerSelf(s);
    assert env.Keys == d;
    MirrorsBack(t, d, s.vars, s1.vars, p.1, regs1, w1);
    assert SameOn(d, s.vars, s.vars);
    if p.0.b {
      ArmRuns(t, s, s4, yes, d, s5, mb, sf, p.1, regs1, w1, k);
      EndingAfter(t, s, Here(s, regs, w), y, n + 1, s, k, k, sf, d, d, S.Close(S.Run(yes, p.1, k), d));
      assert S.Run(S.If(c, yes, None), env, k) == S.Close(S.Run(yes, p.1, k), d);
    } else {
      MirrorsSame(t, d, s.vars, sf.vars, p.1, regs1, w1);
      assert Arrives(t, s, Here(s, regs, w), sf, p.1, regs1, w1, n + 1);
      assert S.Run(S.If(c, yes, None), env, k) == S.Normal(p.1);
    }
  }

  lemma MirrorsBack(t: Setting, d: set<nat>, vars: map<nat, Binding>, vars': map<nat, Binding>, env: S.Env, regs: Regs,
        w: World)
    requires Mirrors(t, vars', env, regs, w) && SameOn(d, vars, vars') && env.Keys <= d
    ensures Mirrors(t, vars, env, regs, w)
  {
    hide Lives;
    forall x | x in env
      ensures x in vars && Lives(t, vars[x], env[x], regs, w)
    {
      assert x in d;
    }
  }

  lemma AtThenGrows(s: State, d: set<nat>, s1: State, v: Value)
    requires Ok(s) && Grown(s, d, s1) && ValueBelow(v, s1.nextVreg)
    ensures s1.cur in s1.body && Grows(s1, AtThen(s1, v, false)) && Grows(s1, AtThen(s1, v, true))
  {
    hide Ok, Grown, BranchInst;
    GrownCounters(s, d, s1);
    OkCurrent(s1);
    NewBlockOk(s1);
    NewBlockOk(NewBlock(s1));
    NewBlockOk(NewBlock(NewBlock(s1)));
  }

  /** With an else part. */
  lemma IfElseExecutes(s: State, c: S.Expr, yes: S.Stmt, no: S.Stmt, d: set<nat>, s1: State, v: Value, s5: State,
        s8: State)
    requires Ok(s) && Evaluates(s, c, s1, v) && d <= s.vars.Keys && s1.cur in s1.body
    requires Executes(AtThen(s1, v, true), yes, d, s5) && s5.cur in s5.body
    requires Executes(JoinedAt(s5, MergeBlock(s1, true), s1.nextBlock + 1), no, d, s8)
    ensures s8.cur in s8.body
    ensures Executes(s, S.If(c, yes, Some(no)), d, JoinedAt(s8, MergeBlock(s1, true), MergeBlock(s1, true)))
  {
    hide AtThen, BranchedTo, Emit, Ending, Evaluates, Grown, Grows, Here, JoinedAt, JumpInst, MergeBlock, Ok,
      ReadyFor, StartsAt, ThenBlock, S.Run;
    IfElseShape(s, c, yes, no, d, s1, v, s5, s8);
    var mb := MergeBlock(s1, true);
    var sf := JoinedAt(s8, mb, mb);
    OkCurrent(s);
    assert Grown(s, d, sf);
    forall t: Setting, env: S.Env, regs: Regs, w: World, k: nat | ReadyFor(t, s, sf, d, env, regs, w)
      ensures Ending(t, s, Here(s, regs, w), k, sf, d, S.Run(S.If(c, yes, Some(no)), env, k))
    {
      IfElseRun(s, c, yes, no, d, s1, v, s5, s8, t, env, regs, w, k);
    }
    assert S.Declares(S.If(c, yes, Some(no))) <= sf.vars.Keys;
  }

  /** The insertion point is block `b`, which is still empty. */
  ghost predicate StartsAt(s: State, b: nat) { s.cur == b && b in s.body && s.body[b] == [] }

  /** The states of a two-armed conditional fit together. */
  ghost predicate ElseStates(s: State, d: set<nat>, s1: State, v: Value, s5: State, s8: State)
    requires s1.cur in s1.body && s5.cur in s5.body && s8.cur in s8.body
  {
    var s4, mb, eb := AtThen(s1, v, true), MergeBlock(s1, true), s1.nextBlock + 1;
    var s7, sf := JoinedAt(s5, mb, eb), JoinedAt(s8, mb, mb);
    && Grown(s, d, s1) && Grown(s, d, s4) && Grown(s, d, s7) && Grown(s, d, sf)
    && StartsAt(s4, ThenBlock(s1)) && StartsAt(s7, eb) && StartsAt(sf, mb)
    && BranchedTo(s1, v, true).body == s4.body && Emit(s5, JumpInst(mb)).body == s7.body
    && Emit(s8, JumpInst(mb)).body == sf.body
    && Grows(s1, s4) && Grows(s4, s7) && Grows(s5, s7) && Grows(s7, sf) && Grows(s8, sf)
    && s1.nextVreg <= s5.nextVreg == s7.nextVreg <= s8.nextVreg == sf.nextVreg
  }

  lemma IfElseShape(s: State, c: S.Expr, yes: S.Stmt, no: S.Stmt, d: set<nat>, s1: State, v: Value, s5: State,
        s8: State)
    requires Ok(s) && Evaluates(s, c, s1, v) && d <= s.vars.Keys && s1.cur in s1.body
    requires Executes(AtThen(s1, v, true), yes, d, s5) && s5.cur in s5.body
    requires Executes(JoinedAt(s5, MergeBlock(s1, true), s1.nextBlock + 1), no, d, s8)
    ensures s8.cur in s8.body && ElseStates(s, d, s1, v, s5, s8)
  {
    hide Executes, Ok, Grown, Evaluates, Waiting, Grows, AtThen, JoinedAt, Emit, BranchInst, JumpInst, WithBlocks,
      ValueBelow;
    EvaluatesKeeps(s, c, s1, v);
    BuiltGrown(s, d, s1);
    GrownCounters(s, d, s1);
    AtThenShape(s, d, s1, v, true);
    AtThenGrows(s, d, s1, v);
    var s4, mb, eb := AtThen(s1, v, true), MergeBlock(s1, true), s1.nextBlock + 1;
    ExecutesKeeps(s4, yes, d, s5);
    GrownCounters(s4, d, s5);
    JoinedShape(s, d, s4, s5, mb, eb);
    var s7 := JoinedAt(s5, mb, eb);
    ExecutesKeeps(s7, no, d, s8);
    JoinedShape(s, d, s7, s8, mb, mb);
    GrownCounters(s7, d, s8);
  }

  /** The finished function holds all of them. */
  lemma IfElseHolds(s: State, d: set<nat>, s1: State, v: Value, s5: State, s8: State, t: Setting, env: S.Env,
        regs: Regs, w: World)
    requires s1.cur in s1.body && s5.cur in s5.body && s8.cur in s8.body && ElseStates(s, d, s1, v, s5, s8)
    requires ReadyFor(t, s, JoinedAt(s8, MergeBlock(s1, true), MergeBlock(s1, true)), d, env, regs, w)
    ensures var mb, eb := MergeBlock(s1, true), s1.nextBlock + 1;
      && Ready(t, s, s1, env, regs, w) && FrameOk(t) && s5.nextVreg <= t.size && s8.nextVreg <= t.size
      && Holds(t.g, BranchedTo(s1, v, true)) && Holds(t.g, s5) && Holds(t.g, s8)
      && Holds(t.g, Emit(s5, JumpInst(mb))) && Holds(t.g, Emit(s8, JumpInst(mb)))
      && ThenBlock(s1) in t.g.body && eb in t.g.body && mb in t.g.body
  {
    hide Grown, FrameOk, Sim, Grows, AtThen, JoinedAt, Emit, BranchInst, JumpInst, WithBlocks, BranchedTo, Holds;
    var s4, mb, eb := AtThen(s1, v, true), MergeBlock(s1, true), s1.nextBlock + 1;
    var s7, sf := JoinedAt(s5, mb, eb), JoinedAt(s8, mb, mb);
    HoldsTo(t, s8, sf);
    HoldsTo(t, s7, sf);
    HoldsTo(t, s5, s7);
    HoldsTo(t, s4, s7);
    HoldsTo(t, s1, s4);
    SameHolds(t, s4, BranchedTo(s1, v, true));
    SameHolds(t, s7, Emit(s5, JumpInst(mb)));
    SameHolds(t, sf, Emit(s8, JumpInst(mb)));
    HeldBlock(t, s4, ThenBlock(s1));
    HeldBlock(t, s7, eb);
    HeldBlock(t, sf, mb);
  }

  lemma HeldBlock(t: Setting, s: State, b: nat)
    requires Holds(t.g, s) && b in s.body
    ensures b in t.g.body
  {}

  lemma IfElseRun(s: State, c: S.Expr, yes: S.Stmt, no: S.Stmt, d: set<nat>, s1: State, v: Value, s5: State, s8: State,
        t: Setting, env: S.Env, regs: Regs, w: World, k: nat)
    requires Ok(s) && Evaluates(s, c, s1, v) && d <= s.vars.Keys && s1.cur in s1.body
    requires Executes(AtThen(s1, v, true), yes, d, s5) && s5.cur in s5.body
    requires Executes(JoinedAt(s5, MergeBlock(s1, true), s1.nextBlock + 1), no, d, s8)
    requires s.cur in s.body && s8.cur in s8.body
    requires ReadyFor(t, s, JoinedAt(s8, MergeBlock(s1, true), MergeBlock(s1, true)), d, env, regs, w)
    ensures Ending(t, s, Here(s, regs, w), k, JoinedAt(s8, MergeBlock(s1, true), MergeBlock(s1, true)), d,
      S.Run(S.If(c, yes, Some(no)), env, k))
  {
    hide Executes, Evaluates, Ok, ReadyFor, AtThen, JoinedAt, Arrives, Escapes, Finishes, Survives, S.Close;
    if S.Value(c, env).Some? && S.Value(c, env).value.0.B? {
      IfElseChosen(s, c, yes, no, d, s1, v, s5, s8, t, env, regs, w, k);
    }
  }

  lemma IfElseChosen(s: State, c: S.Expr, yes: S.Stmt, no: S.Stmt, d: set<nat>, s1: State, v: Value, s5: State,
        s8: State, t: Setting, env: S.Env, regs: Regs, w: World, k: nat)
    requires Ok(s) && Evaluates(s, c, s1, v) && d <= s.vars.Keys && s1.cur in s1.body
    requires Executes(AtThen(s1, v, true), yes, d, s5) && s5.cur in s5.body
    requires Executes(JoinedAt(s5, MergeBlock(s1, true), s1.nextBlock + 1), no, d, s8)
    requires s.cur in s.body && s8.cur in s8.body
    requires ReadyFor(t, s, JoinedAt(s8, MergeBlock(s1, true), MergeBlock(s1, true)), d, env, regs, w)
    requires S.Value(c, env).Some? && S.Value(c, env).value.0.B?
    ensures Ending(t, s, Here(s, regs, w), k, JoinedAt(s8, MergeBlock(s1, true), MergeBlock(s1, true)), d,
      S.Run(S.If(c, yes, Some(no)), env, k))
  {
    hide AtThen, BranchInst, Emit, Ending, Evaluates, Executes, FrameOk, Goes, Grown, Grows, Here, Holds, JoinedAt,
      JumpInst, Mirrors, Newer, Ok, Ready, WithBlocks, S.Close, S.RunAll, S.RunLoop, S.Value;
    IfElseShape(s, c, yes, no, d, s1, v, s5, s8);
    IfElseHolds(s, d, s1, v, s5, s8, t, env, regs, w);
    var s4, mb, eb, tb := AtThen(s1, v, true), MergeBlock(s1, true), s1.nextBlock + 1, ThenBlock(s1);
    var s7, sf := JoinedAt(s5, mb, eb), JoinedAt(s8, mb, mb);
    GrownCounters(s, d, s1);
    GrownCounters(s, d, sf);
    WithBlocksCurrent(s1, true);
    var p := S.Value(c, env).value;
    S.ValueKeepsScope(c, env);
    var regs1, w1, n := BranchGoes(t, s, c, s1, v, WithBlocks(s1, true), tb, eb, env, regs, w);
    NewerSelf(s);
    assert env.Keys == d;
    MirrorsBack(t, d, s.vars, s1.vars, p.1, regs1, w1);
    assert SameOn(d, s.vars, s.vars);
    var arm, sa, sb := if p.0.b then yes else no, if p.0.b then s4 else s7, if p.0.b then s5 else s8;
    ArmRuns(t, s, sa, arm, d, sb, mb, sf, p.1, regs1, w1, k);
    EndingAfter(t, s, Here(s, regs, w), Point(sa.cur, 0, regs1, w1), n + 1, s, k, k, sf, d, d,
      S.Close(S.Run(arm, p.1, k), d));
    assert S.Run(S.If(c, yes, Some(no)), env, k) == S.Close(S.Run(arm, p.1, k), d);
  }

  // ---------------------------------------------------------------------------------------------
  // Select

  /** `x = e` for a literal or a variable `e`, alone or alone in a block. */
  function IsSimpleAssign(st: S.Stmt): Option<(nat, S.Expr)> {
    var inner := if st.Block? && st.ss.Cons? && st.ss.tail.Nil? then st.ss.head else st;
    if inner.Eval? && inner.e.Assign? && inner.e.compound.None? &&
      (inner.e.value.Lit? || inner.e.value.BoolLit? || inner.e.value.Var?) then
      Some((inner.e.target, inner.e.value))
    else None
  }

  lemma SimpleAssignIs(st: S.Stmt, x: nat, e: S.Expr)
    ensures IsSimpleAssign(st) == Some((x, e)) <==>
      && (e.Lit? || e.BoolLit? || e.Var?)
      && (st == S.Eval(S.Assign(x, None, e)) || st == S.Block(S.Cons(S.Eval(S.Assign(x, None, e)), S.Nil)))
  {}

  lemma SimpleRuns(st: S.Stmt, env: S.Env, k: nat, x: nat, e: S.Expr, val: S.Val)
    requires IsSimpleAssign(st) == Some((x, e)) && x in env && S.Value(e, env) == Some((val, env))
    ensures S.Close(S.Run(st, env, k), env.Keys) ==
      if S.SameKind(val, env[x]) then S.Normal(env[x := val]) else S.Fails
  {
    var env' := env[x := val];
    assert S.Within(env', env.Keys) == env';
    if st.Block? && st.ss.Cons? && st.ss.tail.Nil? {
      var r := if S.SameKind(val, env[x]) then S.Normal(env') else S.Fails;
      assert S.Run(st.ss.head, env, k) == r;
      assert S.RunAll(st.ss, env, k) == r by { assert S.RunAll(st.ss.tail, env', k) == S.Normal(env'); }
    }
  }

  /** A literal or a variable in scope has a value and no effect. */
  lemma SimpleValue(e: S.Expr, env: S.Env)
    requires (e.Lit? || e.BoolLit? || e.Var?) && S.ScopedE(e, env.Keys)
    ensures S.Value(e, env).Some? && S.Value(e, env).value.1 == env
  {}

  ghost predicate SelectBuilt(s: State, vc: Value, vt: Value, vf: Value, s': State, v: Value) {
    && Built(s, s') && ValueBelow(v, s'.nextVreg)
    && forall t: Setting, env: S.Env, regs: Regs, w: World, b: bool, x: i64, y: i64 |
         Ready(t, s, s', env, regs, w) && Reads(t, vc, regs, S.Enc(S.B(b))) && Reads(t, vt, regs, x) &&
           Reads(t, vf, regs, y) ::
         exists regs' :: Reached(t, s, regs, w, s', env, regs', w, 0) && Reads(t, v, regs', if b then x else y)
  }

  lemma SelectKeeps(s: State, vc: Value, vt: Value, vf: Value, s': State, v: Value)
    requires SelectBuilt(s, vc, vt, vf, s', v)
    ensures Built(s, s') && ValueBelow(v, s'.nextVreg)
  {}

  lemma SelectRun(s: State, vc: Value, vt: Value, vf: Value, s': State, v: Value, t: Setting, env: S.Env, regs: Regs,
        w: World, b: bool, x: i64, y: i64)
    returns (regs': Regs)
    requires SelectBuilt(s, vc, vt, vf, s', v)
    requires Ready(t, s, s', env, regs, w) && Reads(t, vc, regs, S.Enc(S.B(b))) && Reads(t, vt, regs, x)
    requires Reads(t, vf, regs, y)
    ensures Reached(t, s, regs, w, s', env, regs', w, 0) && Reads(t, v, regs', if b then x else y)
  {
    hide Ready, Reads, Reached, Built;
    regs' :| Reached(t, s, regs, w, s', env, regs', w, 0) && Reads(t, v, regs', if b then x else y);
  }

  /** With a literal condition no instruction is needed. */
  lemma SelectFolded(s: State, c: bool, vt: Value, vf: Value)
    requires Ok(s) && ValueBelow(vt, s.nextVreg) && ValueBelow(vf, s.nextVreg)
    ensures SelectBuilt(s, ConstBool(c), vt, vf, s, if c then vt else vf)
  {
    hide Ok, Sim, Holds, FrameOk, Reached;
    SelfBuilt(s);
    forall t: Setting, env: S.Env, regs: Regs, w: World, b: bool, x: i64, y: i64 |
      Ready(t, s, s, env, regs, w) && Reads(t, ConstBool(c), regs, S.Enc(S.B(b))) && Reads(t, vt, regs, x) &&
        Reads(t, vf, regs, y)
      ensures exists regs' ::
        Reached(t, s, regs, w, s, env, regs', w, 0) && Reads(t, if c then vt else vf, regs', if b then x else y)
    {
      ReachedAtOnce(t, s, env, regs, w);
      assert b == c;
    }
  }

  lemma SelectStep(m: Machine, params: seq<i64>, d: nat, vc: Value, vt: Value, vf: Value, regs: Regs, w: World,
        b: bool, x: i64, y: i64)
    requires EvalOperand(m, vc, regs) == Some(Int(if b then 1 else 0)) && EvalOperand(m, vt, regs) == Some(Int(x))
    requires EvalOperand(m, vf, regs) == Some(Int(y))
    ensures Step(m, params, Inst(Select, Some(d), [vc, vt, vf]), regs, w) == Next(if b then x else y, w)
  {
    hide EvalOperand, Binary;
    assert EvalAll(m, [vc, vt, vf], regs).value == [Int(if b then 1 else 0), Int(x), Int(y)];
  }

  lemma SelectEmitted(s: State, vc: Value, vt: Value, vf: Value)
    requires Ok(s) && ValueBelow(vc, s.nextVreg) && ValueBelow(vt, s.nextVreg) && ValueBelow(vf, s.nextVreg)
    ensures s.cur in s.body && SelectBuilt(s, vc, vt, vf, EmitValue(s, Select, [vc, vt, vf]), VReg(s.nextVreg))
  {
    hide Ok, Sim, Holds, FrameOk, Reached, EmitValue, Built, Step, Ready;
    var ops := [vc, vt, vf];
    assert forall k | 0 <= k < |ops| :: ValueBelow(ops[k], s.nextVreg);
    EmitBuilt(s, Select, ops);
    EmitCounts(s, Select, ops);
    var s' := EmitValue(s, Select, ops);
    forall t: Setting, env: S.Env, regs: Regs, w: World, b: bool, x: i64, y: i64 |
      Ready(t, s, s', env, regs, w) && Reads(t, vc, regs, S.Enc(S.B(b))) && Reads(t, vt, regs, x) &&
        Reads(t, vf, regs, y)
      ensures exists regs' ::
        Reached(t, s, regs, w, s', env, regs', w, 0) && Reads(t, VReg(s.nextVreg), regs', if b then x else y)
    {
      SelectStep(t.m, t.params, s.nextVreg, vc, vt, vf, regs, w, b, x, y);
      EmittedRun(t, s, Select, ops, env, regs, w, if b then x else y);
    }
  }

  /** Both arms assign a simple value to the same variable: both values are fetched and one is stored. */
  lemma SelectExecutes(s: State, c: S.Expr, yes: S.Stmt, no: S.Stmt, x: nat, e1: S.Expr, e2: S.Expr, p: nat,
        d: set<nat>, s1: State, vc: Value, s2: State, vt: Value, s3: State, vf: Value, s4: State, v: Value)
    requires Ok(s) && d <= s.vars.Keys && x in d && s.vars[x] == Cell(p) && p < s.nextVreg && S.ScopedE(e1, d)
    requires S.ScopedE(e2, d)
    requires IsSimpleAssign(yes) == Some((x, e1)) && IsSimpleAssign(no) == Some((x, e2))
    requires Evaluates(s, c, s1, vc) && Evaluates(s1, e1, s2, vt) && Evaluates(s2, e2, s3, vf)
    requires SelectBuilt(s3, vc, vt, vf, s4, v)
    ensures s4.cur in s4.body && Executes(s, S.If(c, yes, Some(no)), d, Emit(s4, StoreInst(v, p)))
  {
    hide Built, Emit, Ending, Evaluates, Grown, Here, IsSimpleAssign, Ok, ReadyFor, SelectBuilt, StoreInst,
      ValueBelow, S.Run, S.ScopedE;
    SelectShape(s, c, e1, e2, p, s1, vc, s2, vt, s3, vf, s4, v);
    var sf := Emit(s4, StoreInst(v, p));
    BuiltGrown(s, d, sf);
    OkCurrent(s);
    forall t: Setting, env: S.Env, regs: Regs, w: World, k: nat | ReadyFor(t, s, sf, d, env, regs, w)
      ensures Ending(t, s, Here(s, regs, w), k, sf, d, S.Run(S.If(c, yes, Some(no)), env, k))
    {
      SelectIfRun(s, c, yes, no, x, e1, e2, p, d, s1, vc, s2, vt, s3, vf, s4, v, t, env, regs, w, k);
    }
    assert S.Declares(S.If(c, yes, Some(no))) <= sf.vars.Keys;
  }

  lemma SelectShape(s: State, c: S.Expr, e1: S.Expr, e2: S.Expr, p: nat, s1: State, vc: Value, s2: State, vt: Value,
        s3: State, vf: Value, s4: State, v: Value)
    requires Ok(s) && p < s.nextVreg && Evaluates(s, c, s1, vc) && Evaluates(s1, e1, s2, vt)
    requires Evaluates(s2, e2, s3, vf) && SelectBuilt(s3, vc, vt, vf, s4, v)
    ensures s4.cur in s4.body && Built(s, s1) && Built(s, s2) && Built(s, s3) && Built(s, s4) && Built(s1, s4)
    ensures Built(s2, s4) && Built(s3, s4)
    ensures var sf := Emit(s4, StoreInst(v, p));
      Built(s, sf) && Built(s1, sf) && Built(s2, sf) && Built(s3, sf) && Built(s4, sf) && sf.nextVreg == s4.nextVreg
    ensures ValueBelow(vc, s1.nextVreg) && ValueBelow(vc, s2.nextVreg) && ValueBelow(vt, s2.nextVreg)
    ensures ValueBelow(v, s4.nextVreg) && Ok(s4) && p < s4.nextVreg
  {
    hide Built, Closed, Evaluates, Newer, Ok, SelectBuilt, StoreInst;
    EvaluatesKeeps(s, c, s1, vc);
    EvaluatesKeeps(s1, e1, s2, vt);
    EvaluatesKeeps(s2, e2, s3, vf);
    SelectKeeps(s3, vc, vt, vf, s4, v);
    assert ValueBelow(vc, s2.nextVreg);
    BuiltTransitive(s, s1, s2);
    BuiltTransitive(s, s2, s3);
    BuiltTransitive(s, s3, s4);
    BuiltTransitive(s2, s3, s4);
    BuiltTransitive(s1, s2, s4);
    Counters(s, s4);
    StoreKeeps(s, s4, v, p);
    StoreKeeps(s1, s4, v, p) by { Counters(s, s1); }
    StoreKeeps(s2, s4, v, p) by { Counters(s, s2); }
    StoreKeeps(s3, s4, v, p) by { Counters(s, s3); }
    assert Emit(s4, StoreInst(v, p)).nextVreg == s4.nextVreg;
  }

  lemma SelectIfRun(s: State, c: S.Expr, yes: S.Stmt, no: S.Stmt, x: nat, e1: S.Expr, e2: S.Expr, p: nat, d: set<nat>,
        s1: State, vc: Value, s2: State, vt: Value, s3: State, vf: Value, s4: State, v: Value, t: Setting, env: S.Env,
        regs: Regs, w: World, k: nat)
    requires Ok(s) && s.cur in s.body && d <= s.vars.Keys && x in d && s.vars[x] == Cell(p) && p < s.nextVreg
    requires S.ScopedE(e1, d) && S.ScopedE(e2, d)
    requires IsSimpleAssign(yes) == Some((x, e1)) && IsSimpleAssign(no) == Some((x, e2))
    requires Evaluates(s, c, s1, vc) && Evaluates(s1, e1, s2, vt) && Evaluates(s2, e2, s3, vf)
    requires SelectBuilt(s3, vc, vt, vf, s4, v)
    requires s4.cur in s4.body && ReadyFor(t, s, Emit(s4, StoreInst(v, p)), d, env, regs, w)
    ensures Ending(t, s, Here(s, regs, w), k, Emit(s4, StoreInst(v, p)), d, S.Run(S.If(c, yes, Some(no)), env, k))
  {
    hide Evaluates, Ok, ReadyFor, Arrives, Escapes, Finishes, Survives, S.Close, SelectBuilt, IsSimpleAssign, Emit,
      StoreInst;
    if S.Value(c, env).Some? && S.Value(c, env).value.0.B? {
      SelectChosen(s, c, yes, no, x, e1, e2, p, d, s1, vc, s2, vt, s3, vf, s4, v, t, env, regs, w, k);
    }
  }

  lemma SelectChosen(s: State, c: S.Expr, yes: S.Stmt, no: S.Stmt, x: nat, e1: S.Expr, e2: S.Expr, p: nat, d: set<nat>,
        s1: State, vc: Value, s2: State, vt: Value, s3: State, vf: Value, s4: State, v: Value, t: Setting, env: S.Env,
        regs: Regs, w: World, k: nat)
    requires Ok(s) && s.cur in s.body && d <= s.vars.Keys && x in d && s.vars[x] == Cell(p) && p < s.nextVreg
    requires S.ScopedE(e1, d) && S.ScopedE(e2, d)
    requires IsSimpleAssign(yes) == Some((x, e1)) && IsSimpleAssign(no) == Some((x, e2))
    requires Evaluates(s, c, s1, vc) && Evaluates(s1, e1, s2, vt) && Evaluates(s2, e2, s3, vf)
    requires SelectBuilt(s3, vc, vt, vf, s4, v)
    requires s4.cur in s4.body && ReadyFor(t, s, Emit(s4, StoreInst(v, p)), d, env, regs, w)
    requires S.Value(c, env).Some? && S.Value(c, env).value.0.B?
    ensures Ending(t, s, Here(s, regs, w), k, Emit(s4, StoreInst(v, p)), d, S.Run(S.If(c, yes, Some(no)), env, k))
  {
    hide Built, Emit, Escapes, Evaluates, Finishes, Goes, Here, IsOpen, KeepRegs, Kept, Leads, Ok, Reads, Ready,
      SelectBuilt, Sim, StoreInst, Survives, ValueBelow, S.Answer, S.Close, S.Enc, S.Run, S.RunAll, S.RunLoop,
      S.ScopedE, S.Value;
    IfRuns(c, yes, Some(no), env, k);
    SelectShape(s, c, e1, e2, p, s1, vc, s2, vt, s3, vf, s4, v);
    var sf, q := Emit(s4, StoreInst(v, p)), S.Value(c, env).value;
    assert Ready(t, s, sf, env, regs, w) && env.Keys == d;
    S.ValueKeepsScope(c, env);
    assert (e1.Lit? || e1.BoolLit? || e1.Var?) && (e2.Lit? || e2.BoolLit? || e2.Var?);
    SimpleValue(e1, q.1);
    SimpleValue(e2, q.1);
    var a, b := S.Value(e1, q.1).value.0, S.Value(e2, q.1).value.0;
    var regs4, w4, n := SelectFetch(s, c, e1, e2, s1, vc, s2, vt, s3, vf, s4, v, sf, t, env, regs, w, q.0, q.1, a, b);
    var val := if q.0.b then a else b;
    ReadyLater(t, s, s4, sf, env, regs, w, q.1, regs4, w4, n);
    SimpleRuns(if q.0.b then yes else no, q.1, k, x, if q.0.b then e1 else e2, val);
    if S.SameKind(val, q.1[x]) {
      var w5 := StoreVariable(t, s, regs, w, s4, q.1, regs4, w4, n, v, val, x, p);
      assert S.Run(S.If(c, yes, Some(no)), env, k) == S.Normal(q.1[x := val]);
      ReachedGoes(t, s, regs, w, sf, q.1[x := val], regs4, w5, n);
      assert IsOpen(sf) && Sim(t, sf, q.1[x := val], regs4, w5);
      assert Arrives(t, s, Here(s, regs, w), sf, q.1[x := val], regs4, w5, n);
    }
  }

  /** The condition and both values are computed, then one is selected. */
  lemma SelectFetch(s: State, c: S.Expr, e1: S.Expr, e2: S.Expr, s1: State, vc: Value, s2: State, vt: Value, s3: State,
        vf: Value, s4: State, v: Value, sf: State, t: Setting, env: S.Env, regs: Regs, w: World, cv: S.Val,
        env1: S.Env, a: S.Val, b: S.Val)
    returns (regs4: Regs, w4: World, n: nat)
    requires Built(s, s1) && Built(s, s2) && Built(s, s3) && Built(s1, sf) && Built(s2, sf) && Built(s3, sf)
    requires Built(s4, sf)
    requires ValueBelow(vc, s1.nextVreg) && ValueBelow(vc, s2.nextVreg) && ValueBelow(vt, s2.nextVreg)
    requires Evaluates(s, c, s1, vc) && Evaluates(s1, e1, s2, vt) && Evaluates(s2, e2, s3, vf)
    requires SelectBuilt(s3, vc, vt, vf, s4, v)
    requires Ready(t, s, sf, env, regs, w) && S.Value(c, env) == Some((cv, env1)) && cv.B?
    requires S.Value(e1, env1) == Some((a, env1)) && S.Value(e2, env1) == Some((b, env1))
    ensures Reached(t, s, regs, w, s4, env1, regs4, w4, n) && Reads(t, v, regs4, S.Enc(if cv.b then a else b))
  {
    hide Built, Evaluates, Newer, Reached, Reads, Ready, SelectBuilt, ValueBelow, S.Enc, S.Value;
    ReadyEarlier(t, s, s1, sf, env, regs, w);
    var regs1, w1, n1 := RunOf(s, c, s1, vc, t, env, regs, w, cv, env1);
    ReadyLater(t, s, s1, sf, env, regs, w, env1, regs1, w1, n1);
    ReadyEarlier(t, s1, s2, sf, env1, regs1, w1);
    var regs2, w2, n2 := RunOf(s1, e1, s2, vt, t, env1, regs1, w1, a, env1);
    ReadyLater(t, s1, s2, sf, env1, regs1, w1, env1, regs2, w2, n2);
    ReadyEarlier(t, s2, s3, sf, env1, regs2, w2);
    var regs3, w3, n3 := RunOf(s2, e2, s3, vf, t, env1, regs2, w2, b, env1);
    ReadyLater(t, s2, s3, sf, env1, regs2, w2, env1, regs3, w3, n3);
    ReadyEarlier(t, s3, s4, sf, env1, regs3, w3);
    ReadsAfter(t, s1, regs1, w1, s2, env1, regs2, w2, n2, vc, S.Enc(cv));
    ReadsAfter(t, s2, regs2, w2, s3, env1, regs3, w3, n3, vc, S.Enc(cv));
    ReadsAfter(t, s2, regs2, w2, s3, env1, regs3, w3, n3, vt, S.Enc(a));
    assert cv == S.B(cv.b);
    regs4 := SelectRun(s3, vc, vt, vf, s4, v, t, env1, regs3, w3, cv.b, S.Enc(a), S.Enc(b));
    BuiltIsNewer(s, s1);
    BuiltIsNewer(s, s2);
    BuiltIsNewer(s, s3);
    NewerReached(t, s, regs, w, s1, env1, regs1, w1, n1, s2, env1, regs2, w2, n2);
    NewerReached(t, s, regs, w, s2, env1, regs2, w2, n1 + n2, s3, env1, regs3, w3, n3);
    NewerReached(t, s, regs, w, s3, env1, regs3, w3, n1 + n2 + n3, s4, env1, regs4, w3, 0);
    w4, n := w3, n1 + n2 + n3 + 0;
  }
}
