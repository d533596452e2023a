/** When generated code executes a statement: how its run ends for every ending of the source. */
module Statements {
  import opened Sir
  import opened Builder
  import opened Frames
  import opened BuildOps
  import S = Source

  // ---------------------------------------------------------------------------------------------
  // Going from point to point

  /** The run goes from `x` to `y`; what existed when `base` was current and is no variable stays. */
  ghost predicate Goes(t: Setting, base: State, x: Point, y: Point, c: nat) {
    KeepRegs(base.nextVreg, x.regs, y.regs) && Kept(t, base.vars, base.nextVreg, x.w, y.w) && Leads(t, x, y, c)
  }

  lemma GoesTransitive(t: Setting, base: State, x: Point, y: Point, c: nat, base1: State, z: Point, d: nat)
    requires Goes(t, base, x, y, c) && Goes(t, base1, y, z, d) && Newer(base, base1)
    ensures Goes(t, base, x, z, c + d)
  {
    hide KeepRegs, Kept, Leads, IsCell;
    KeepRegsTransitive(base.nextVreg, x.regs, y.regs, base1.nextVreg, z.regs);
    KeptTransitive(t, base.vars, base.nextVreg, x.w, y.w, base1.vars, base1.nextVreg, z.w);
    LeadsTransitive(t, x, y, z, c, d);
  }

  lemma NewerSelf(s: State)
    ensures Newer(s, s)
  {
    hide IsCell;
  }

  lemma NewerTransitive(s: State, s1: State, s2: State)
    requires Newer(s, s1) && Newer(s1, s2)
    ensures Newer(s, s2)
  {
    hide IsCell;
  }

  lemma ReachedGoes(t: Setting, s: State, regs: Regs, w: World, s': State, env': S.Env, regs': Regs, w': World, c: nat)
    requires Reached(t, s, regs, w, s', env', regs', w', c)
    ensures Goes(t, s, Here(s, regs, w), Here(s', regs', w'), c)
  {
    hide Sim, KeepRegs, Kept, Leads;
  }

  lemma JumpGoes(t: Setting, base: State, x: Point, y: Point)
    requires Leads(t, x, y, 1) && y.regs == x.regs && y.w == x.w
    ensures Goes(t, base, x, y, 1)
  {
    hide Leads;
  }

  // ---------------------------------------------------------------------------------------------
  // How a run ends

  /** The run comes to the insertion point of `s'` with variables as in `env'`. */
  ghost predicate Arrives(t: Setting, base: State, x: Point, s': State, env': S.Env, regs': Regs, w': World, c: nat) {
    IsOpen(s') && Goes(t, base, x, Here(s', regs', w'), c) && Sim(t, s', env', regs', w')
  }

  /** The run comes to the start of a loop's target block with the variables in scope as in `env'`. */
  ghost predicate Escapes(t: Setting, base: State, x: Point, target: nat, d: set<nat>, env': S.Env, regs': Regs,
        w': World, c: nat) {
    Goes(t, base, x, Point(target, 0, regs', w'), c) && Mirrors(t, base.vars, S.Within(env', d), regs', w')
  }

  ghost predicate Finishes(t: Setting, base: State, x: Point, o: Outcome, w': World, c: nat) {
    EndsWith(t, x, o, c) && Kept(t, base.vars, base.nextVreg, x.w, w')
  }

  /** The run from `x` mirrors the source's result `r`, which was computed with fuel `k`. */
  ghost predicate Ending(t: Setting, base: State, x: Point, k: nat, s': State, d: set<nat>, r: S.Res) {
    match r
    case Normal(env') => exists regs', w', c :: Arrives(t, base, x, s', env', regs', w', c)
    case Broke(env') => base.loopExit.Some? ==> exists regs', w', c ::
      Escapes(t, base, x, base.loopExit.value, d, env', regs', w', c)
    case Continued(env') => base.loopCond.Some? ==> exists regs', w', c ::
      Escapes(t, base, x, base.loopCond.value, d, env', regs', w', c)
    case Returns(v) => exists w', c :: Finishes(t, base, x, Returned(S.Answer(v), w'), w', c)
    case Halts => exists w', c :: Finishes(t, base, x, Trapped(w'), w', c)
    case Fails => true
    case Endless => Survives(t, x, k)
  }

  /** What generation of a statement does to the builder. `d` is the scope it stands in. */
  ghost predicate Grown(s: State, d: set<nat>, s': State) {
    && Ok(s') && Grows(s, s') && Local(s, s') && Newer(s, s') && s'.loopCond == s.loopCond && s'.loopExit == s.loopExit
    && SameOn(d, s.vars, s'.vars)
  }

  /** Variables in scope keep their bindings. */
  ghost predicate SameOn(d: set<nat>, vars: map<nat, Binding>, vars': map<nat, Binding>) {
    forall x | x in d :: x in vars && x in vars' && vars'[x] == vars[x]
  }

  ghost predicate ReadyFor(t: Setting, s: State, s': State, d: set<nat>, env: S.Env, regs: Regs, w: World) {
    Ready(t, s, s', env, regs, w) && env.Keys == d
  }

  ghost predicate Executes(s: State, st: S.Stmt, d: set<nat>, s': State) {
    && Grown(s, d, s') && S.Declares(st) <= s'.vars.Keys
    && forall t: Setting, env: S.Env, regs: Regs, w: World, k: nat | ReadyFor(t, s, s', d, env, regs, w) ::
         Ending(t, s, Here(s, regs, w), k, s', d, S.Run(st, env, k))
  }

  ghost predicate ExecutesAll(s: State, ss: S.Stmts, d: set<nat>, s': State) {
    && Grown(s, d, s')
    && forall t: Setting, env: S.Env, regs: Regs, w: World, k: nat | ReadyFor(t, s, s', d, env, regs, w) ::
         Ending(t, s, Here(s, regs, w), k, s', d, S.RunAll(ss, env, k))
  }

  lemma EndingOf(s: State, st: S.Stmt, d: set<nat>, s': State, t: Setting, env: S.Env, regs: Regs, w: World, k: nat)
    requires Executes(s, st, d, s') && ReadyFor(t, s, s', d, env, regs, w)
    ensures Ending(t, s, Here(s, regs, w), k, s', d, S.Run(st, env, k))
  {
    hide Grown, ReadyFor, Ending, S.Run;
  }

  lemma ExecutesKeeps(s: State, st: S.Stmt, d: set<nat>, s': State)
    requires Executes(s, st, d, s')
    ensures Grown(s, d, s') && S.Declares(st) <= s'.vars.Keys
  {
    hide Grown, Ending, S.Run;
  }

  lemma GrownTransitive(s: State, d: set<nat>, s1: State, d1: set<nat>, s2: State)
    requires Ok(s) && Grown(s, d, s1) && Grown(s1, d1, s2) && d <= d1
    ensures Grown(s, d, s2)
  {
    hide Grows, Local, Newer;
    assert Valid(s);
    GrowsTransitive(s, s1, s2);
    LocalTransitive(s, s1, s2);
    NewerTransitive(s, s1, s2);
  }

  /** Code for an expression grows the builder too. */
  lemma BuiltGrown(s: State, d: set<nat>, s': State)
    requires Built(s, s') && d <= s.vars.Keys
    ensures Grown(s, d, s')
  {
    hide Ok, Grows, Local, IsCell;
    BuiltIsNewer(s, s');
  }

  // ---------------------------------------------------------------------------------------------
  // Going on from a point already reached

  lemma SameOnWithin(t: Setting, d: set<nat>, vars: map<nat, Binding>, vars': map<nat, Binding>, env: S.Env,
        d': set<nat>, regs: Regs, w: World)
    requires Mirrors(t, vars', S.Within(env, d'), regs, w) && SameOn(d, vars, vars') && d <= d'
    ensures Mirrors(t, vars, S.Within(env, d), regs, w)
  {
    hide Lives;
    forall x | x in S.Within(env, d)
      ensures x in vars && Lives(t, vars[x], S.Within(env, d)[x], regs, w)
    {
      assert x in S.Within(env, d') && S.Within(env, d')[x] == env[x];
    }
  }

  /** After coming from `x` to `y`, what happens from `y` on is how `x` ends. */
  lemma EndingAfter(t: Setting, base: State, x: Point, y: Point, c: nat, base1: State, k: nat, k1: nat, s': State,
        d: set<nat>, d1: set<nat>, r: S.Res)
    requires Goes(t, base, x, y, c) && Ending(t, base1, y, k1, s', d1, r) && Newer(base, base1) && k <= c + k1
    requires base1.loopCond == base.loopCond && base1.loopExit == base.loopExit && SameOn(d, base.vars, base1.vars)
    requires d <= d1
    ensures Ending(t, base, x, k, s', d, r)
  {
    hide Newer, KeepRegs, Kept, Leads, Mirrors, SameOn, Sim, S.Within, EndsWith;
    match r {
      case Normal(env') =>
        var regs', w', e :| Arrives(t, base1, y, s', env', regs', w', e);
        GoesTransitive(t, base, x, y, c, base1, Here(s', regs', w'), e);
        assert Arrives(t, base, x, s', env', regs', w', c + e);
      case Broke(env') =>
        if base.loopExit.Some? { EscapeAfter(t, base, x, y, c, base1, base.loopExit.value, d, d1, env'); }
      case Continued(env') =>
        if base.loopCond.Some? { EscapeAfter(t, base, x, y, c, base1, base.loopCond.value, d, d1, env'); }
      case Returns(v) =>
        var w', e :| Finishes(t, base1, y, Returned(S.Answer(v), w'), w', e);
        FinishAfter(t, base, x, y, c, base1, Returned(S.Answer(v), w'), w', e);
      case Halts =>
        var w', e :| Finishes(t, base1, y, Trapped(w'), w', e);
        FinishAfter(t, base, x, y, c, base1, Trapped(w'), w', e);
      case Fails =>
      case Endless =>
        assert Leads(t, x, y, c);
        LeadsSurvives(t, x, y, c, k1);
        assert Survives(t, x, k);
    }
  }

  lemma EscapeAfter(t: Setting, base: State, x: Point, y: Point, c: nat, base1: State, target: nat, d: set<nat>,
        d1: set<nat>, env': S.Env)
    requires Goes(t, base, x, y, c) && Newer(base, base1) && SameOn(d, base.vars, base1.vars) && d <= d1
    requires exists regs', w', e :: Escapes(t, base1, y, target, d1, env', regs', w', e)
    ensures exists regs', w', e :: Escapes(t, base, x, target, d, env', regs', w', e)
  {
    hide Newer, Mirrors, SameOn, S.Within, Goes;
    var regs', w', e :| Escapes(t, base1, y, target, d1, env', regs', w', e);
    GoesTransitive(t, base, x, y, c, base1, Point(target, 0, regs', w'), e);
    SameOnWithin(t, d, base.vars, base1.vars, env', d1, regs', w');
    assert Escapes(t, base, x, target, d, env', regs', w', c + e);
  }

  lemma FinishAfter(t: Setting, base: State, x: Point, y: Point, c: nat, base1: State, o: Outcome, w': World, e: nat)
    requires Goes(t, base, x, y, c) && Newer(base, base1) && Finishes(t, base1, y, o, w', e)
    ensures Finishes(t, base, x, o, w', c + e)
  {
    hide KeepRegs, Kept, Leads, EndsWith, IsCell;
    LeadsToEnd(t, x, y, c, o, e);
    KeptTransitive(t, base.vars, base.nextVreg, x.w, y.w, base1.vars, base1.nextVreg, w');
  }

  /** A run from `s` to `s'` is ready for later code at every point on the way. */
  lemma ReadyForEarlier(t: Setting, s: State, s1: State, s2: State, d: set<nat>, env: S.Env, regs: Regs, w: World)
    requires ReadyFor(t, s, s2, d, env, regs, w) && Grows(s1, s2)
    ensures ReadyFor(t, s, s1, d, env, regs, w)
  {
    hide Sim, FrameOk;
    HoldsEarlier(t.g, s1, s2);
  }

  // ---------------------------------------------------------------------------------------------
  // Sequences and blocks

  lemma NilExecutes(s: State, d: set<nat>)
    requires Ok(s) && d <= s.vars.Keys
    ensures ExecutesAll(s, S.Nil, d, s)
  {
    hide Ok, Sim, Holds, FrameOk;
    NewerSelf(s);
    forall t: Setting, env: S.Env, regs: Regs, w: World, k: nat | ReadyFor(t, s, s, d, env, regs, w)
      ensures Ending(t, s, Here(s, regs, w), k, s, d, S.RunAll(S.Nil, env, k))
    {
      assert Arrives(t, s, Here(s, regs, w), s, env, regs, w, 0);
    }
  }

  lemma ConsRun(s: State, st: S.Stmt, rest: S.Stmts, d: set<nat>, inLoop: bool, s1: State, s2: State, t: Setting,
        env: S.Env, regs: Regs, w: World, k: nat)
    requires Executes(s, st, d, s1) && ExecutesAll(s1, rest, d + S.Declares(st), s2) && S.Scoped(st, d, inLoop)
    requires ReadyFor(t, s, s2, d, env, regs, w)
    ensures Ending(t, s, Here(s, regs, w), k, s2, d, S.RunAll(S.Cons(st, rest), env, k))
  {
    hide Executes, Ok, Grows, Local, Newer, Sim, FrameOk, Holds, S.Run, S.Scoped, Mirrors, KeepRegs, Kept, Leads,
      SameOn, Goes, Survives;
    ExecutesKeeps(s, st, d, s1);
    ReadyForEarlier(t, s, s1, s2, d, env, regs, w);
    EndingOf(s, st, d, s1, t, env, regs, w, k);
    var r := S.Run(st, env, k);
    if r.Normal? {
      S.RunKeepsScope(st, env, k, inLoop);
      var regs', w', c :| Arrives(t, s, Here(s, regs, w), s1, r.env, regs', w', c);
      assert ReadyFor(t, s1, s2, d + S.Declares(st), r.env, regs', w');
      EndingAfter(t, s, Here(s, regs, w), Here(s1, regs', w'), c, s1, k, k, s2, d, d + S.Declares(st),
        S.RunAll(rest, r.env, k));
    } else {
      NonNormalElsewhere(t, s, Here(s, regs, w), k, s1, s2, d, r);
    }
  }

  /** Endings other than normal do not depend on where the code goes on. */
  lemma NonNormalElsewhere(t: Setting, base: State, x: Point, k: nat, s1: State, s2: State, d: set<nat>, r: S.Res)
    requires Ending(t, base, x, k, s1, d, r) && !r.Normal?
    ensures Ending(t, base, x, k, s2, d, r)
  {
    hide Arrives, Escapes, Finishes, Survives;
  }

  lemma ConsExecutes(s: State, st: S.Stmt, rest: S.Stmts, d: set<nat>, inLoop: bool, s1: State, s2: State)
    requires Ok(s) && Executes(s, st, d, s1) && ExecutesAll(s1, rest, d + S.Declares(st), s2) && S.Scoped(st, d, inLoop)
    ensures ExecutesAll(s, S.Cons(st, rest), d, s2)
  {
    hide BindingBelow, BlockBelow, CellsDiffer, Ending, Executes, FrameOk, Grown, Here, Holds, IsOpen, Sim,
      S.Declares, S.RunAll, S.Scoped;
    ExecutesKeeps(s, st, d, s1);
    assert Grown(s1, d + S.Declares(st), s2);
    GrownTransitive(s, d, s1, d + S.Declares(st), s2);
    forall t: Setting, env: S.Env, regs: Regs, w: World, k: nat | ReadyFor(t, s, s2, d, env, regs, w)
      ensures Ending(t, s, Here(s, regs, w), k, s2, d, S.RunAll(S.Cons(st, rest), env, k))
    {
      assert IsOpen(s);
      ConsRun(s, st, rest, d, inLoop, s1, s2, t, env, regs, w, k);
    }
    assert s.cur in s.body;
  }

  /** Leaving a scope forgets the variables declared in it. */
  lemma EndingClosed(t: Setting, base: State, x: Point, k: nat, s': State, d: set<nat>, r: S.Res)
    requires Ending(t, base, x, k, s', d, r)
    ensures Ending(t, base, x, k, s', d, S.Close(r, d))
  {
    hide Goes, StoreHolds, Finishes, Survives, Lives;
    match r {
      case Normal(env') =>
        var regs', w', c :| Arrives(t, base, x, s', env', regs', w', c);
        assert Arrives(t, base, x, s', S.Within(env', d), regs', w', c);
      case Broke(env') =>
        assert S.Within(S.Within(env', d), d) == S.Within(env', d);
        if base.loopExit.Some? {
          var regs', w', c :| Escapes(t, base, x, base.loopExit.value, d, env', regs', w', c);
          assert Escapes(t, base, x, base.loopExit.value, d, S.Within(env', d), regs', w', c);
        }
      case Continued(env') =>
        assert S.Within(S.Within(env', d), d) == S.Within(env', d);
        if base.loopCond.Some? {
          var regs', w', c :| Escapes(t, base, x, base.loopCond.value, d, env', regs', w', c);
          assert Escapes(t, base, x, base.loopCond.value, d, S.Within(env', d), regs', w', c);
        }
      case _ =>
    }
  }

  lemma BlockExecutes(s: State, ss: S.Stmts, d: set<nat>, s': State)
    requires ExecutesAll(s, ss, d, s')
    ensures Executes(s, S.Block(ss), d, s')
  {
    hide Grown, Ending, S.RunAll, Holds, FrameOk, Sim, S.Close;
    forall t: Setting, env: S.Env, regs: Regs, w: World, k: nat | ReadyFor(t, s, s', d, env, regs, w)
      ensures Ending(t, s, Here(s, regs, w), k, s', d, S.Run(S.Block(ss), env, k))
    {
      EndingClosed(t, s, Here(s, regs, w), k, s', d, S.RunAll(ss, env, k));
    }
  }
}
