/** The generation of statements and function bodies. */
module Lowering {
  import opened Sir
  import opened Builder
  import opened Frames
  import opened BuildOps
  import opened Expressions
  import opened Statements
  import opened SimpleStatements
  import opened Conditionals
  import opened Loops
  import opened IrBuilders
  import opened Ssa
  import opened Certified
  import S = Source

  // ---------------------------------------------------------------------------------------------
  // What generation may rely on

  /** The targets of jumps out of loops exist. */
  ghost predicate TargetsExist(s: State) {
    (s.loopCond.Some? ==> s.loopCond.value in s.body) && (s.loopExit.Some? ==> s.loopExit.value in s.body)
  }

  /** A variable in scope is bound to a value, and has no cell, exactly if it is assigned nowhere in the function. */
  ghost predicate Promoted(vars: map<nat, Binding>, d: set<nat>, whole: Option<S.Stmt>) {
    forall x | x in d && x in vars :: vars[x].Direct? <==> whole.Some? && !S.Mutates(whole.value, x)
  }

  /** The statement assigns no variable that the whole body does not. */
  ghost predicate PartOf(st: S.Stmt, whole: Option<S.Stmt>)
  {
    whole.Some? ==> forall x | S.Mutates(st, x) :: S.Mutates(whole.value, x)
  }

  ghost predicate PartOfE(e: S.Expr, whole: Option<S.Stmt>)
  {
    whole.Some? ==> forall x | S.MutatesE(e, x) :: S.Mutates(whole.value, x)
  }

  ghost predicate PartOfAll(ss: S.Stmts, whole: Option<S.Stmt>)
  {
    whole.Some? ==> forall x | S.MutatesAll(ss, x) :: S.Mutates(whole.value, x)
  }

  ghost predicate InScope(s: State, d: set<nat>, whole: Option<S.Stmt>) {
    Ok(s) && d <= s.vars.Keys && TargetsExist(s) && Promoted(s.vars, d, whole)
  }

  ghost predicate Prepared(s: State, st: S.Stmt, d: set<nat>, inLoop: bool, whole: Option<S.Stmt>) {
    InScope(s, d, whole) && S.Scoped(st, d, inLoop) && PartOf(st, whole)
  }

  lemma {:induction false} ScopedGrows(e: S.Expr, d: set<nat>, d': set<nat>)
    requires S.ScopedE(e, d) && d <= d'
    ensures S.ScopedE(e, d')
  {
    match e
    case Lit(_) =>
    case BoolLit(_) =>
    case Var(_) =>
    case Assign(_, _, e) => ScopedGrows(e, d, d');
    case Bin(_, l, r) => ScopedGrows(l, d, d'); ScopedGrows(r, d, d');
    case Logic(_, l, r) => ScopedGrows(l, d, d'); ScopedGrows(r, d, d');
    case Not(e) => ScopedGrows(e, d, d');
    case Neg(e) => ScopedGrows(e, d, d');
    case Compl(e) => ScopedGrows(e, d, d');
  }

  lemma {:induction false} MutatedInScope(e: S.Expr, d: set<nat>, x: nat)
    requires S.ScopedE(e, d) && S.MutatesE(e, x)
    ensures x in d
  {
    match e
    case Lit(_) =>
    case BoolLit(_) =>
    case Var(_) =>
    case Assign(y, _, e) => if x != y { MutatedInScope(e, d, x); }
    case Bin(_, l, r) => if S.MutatesE(l, x) { MutatedInScope(l, d, x); } else { MutatedInScope(r, d, x); }
    case Logic(_, l, r) => if S.MutatesE(l, x) { MutatedInScope(l, d, x); } else { MutatedInScope(r, d, x); }
    case Not(e) => MutatedInScope(e, d, x);
    case Neg(e) => MutatedInScope(e, d, x);
    case Compl(e) => MutatedInScope(e, d, x);
  }

  /** Expressions in scope can be generated. */
  lemma ScopedIsUsable(s: State, e: S.Expr, d: set<nat>, whole: Option<S.Stmt>)
    requires InScope(s, d, whole) && S.ScopedE(e, d) && PartOfE(e, whole)
    ensures Usable(e, s.vars) && Ok(s)
  {
    hide Ok, S.ScopedE, S.MutatesE, S.Mutates;
    ScopedGrows(e, d, s.vars.Keys);
    forall x | x in s.vars && s.vars[x].Direct?
      ensures !S.MutatesE(e, x)
    {
      if S.MutatesE(e, x) { MutatedInScope(e, d, x); }
    }
  }

  /** Code for a statement leaves everything in place for the next one. */
  lemma StaysInScope(s: State, d: set<nat>, s': State, whole: Option<S.Stmt>)
    requires InScope(s, d, whole) && Grown(s, d, s')
    ensures InScope(s', d, whole)
  {
    hide Ok, Newer, Local, S.Mutates, BlockGrows;
  }

  lemma StaysAfter(s: State, d: set<nat>, s': State, whole: Option<S.Stmt>)
    requires InScope(s, d, whole) && Built(s, s')
    ensures InScope(s', d, whole)
  {
    hide Ok, Local, S.Mutates, BlockGrows;
  }

  /** The parts of a statement assign no more than the whole. */
  lemma Parts(st: S.Stmt, whole: Option<S.Stmt>)
    requires PartOf(st, whole)
    ensures match st
            case Block(ss) => PartOfAll(ss, whole)
            case Eval(e) => PartOfE(e, whole)
            case Decl(_, _, init) => init.Some? ==> PartOfE(init.value, whole)
            case If(c, yes, no) => PartOfE(c, whole) && PartOf(yes, whole) && (no.Some? ==> PartOf(no.value, whole))
            case While(c, body) => PartOfE(c, whole) && PartOf(body, whole)
            case For(first, c, inc, body) =>
              && (first.Some? ==> PartOf(first.value, whole)) && (c.Some? ==> PartOfE(c.value, whole))
              && (inc.Some? ==> PartOfE(inc.value, whole)) && PartOf(body, whole)
            case Return(e) => e.Some? ==> PartOfE(e.value, whole)
            case _ => true
  {
    if whole.Some? {
      match st
      case Block(ss) => assert forall x | S.MutatesAll(ss, x) :: S.Mutates(st, x);
      case Eval(e) => assert forall x | S.MutatesE(e, x) :: S.Mutates(st, x);
      case Decl(_, _, init) => if init.Some? { assert forall x | S.MutatesE(init.value, x) :: S.Mutates(st, x); }
      case If(c, yes, no) =>
        assert forall x | S.MutatesE(c, x) :: S.Mutates(st, x);
        assert forall x | S.Mutates(yes, x) :: S.Mutates(st, x);
        if no.Some? { assert forall x | S.Mutates(no.value, x) :: S.Mutates(st, x); }
      case While(c, body) =>
        assert forall x | S.MutatesE(c, x) :: S.Mutates(st, x);
        assert forall x | S.Mutates(body, x) :: S.Mutates(st, x);
      case For(first, c, inc, body) => ForParts(first, c, inc, body, whole);
      case Return(e) => if e.Some? { assert forall x | S.MutatesE(e.value, x) :: S.Mutates(st, x); }
      case _ =>
    }
  }

  lemma ForParts(first: Option<S.Stmt>, c: Option<S.Expr>, inc: Option<S.Expr>, body: S.Stmt, whole: Option<S.Stmt>)
    requires PartOf(S.For(first, c, inc, body), whole)
    ensures (first.Some? ==> PartOf(first.value, whole)) && (c.Some? ==> PartOfE(c.value, whole))
    ensures (inc.Some? ==> PartOfE(inc.value, whole)) && PartOf(body, whole)
  {
    var st := S.For(first, c, inc, body);
    if first.Some? { assert forall x | S.Mutates(first.value, x) :: S.Mutates(st, x); }
    if c.Some? { assert forall x | S.MutatesE(c.value, x) :: S.Mutates(st, x); }
    if inc.Some? { assert forall x | S.MutatesE(inc.value, x) :: S.Mutates(st, x); }
    assert forall x | S.Mutates(body, x) :: S.Mutates(st, x);
  }

  lemma PreparedKeeps(s: State, st: S.Stmt, d: set<nat>, inLoop: bool, whole: Option<S.Stmt>)
    requires Prepared(s, st, d, inLoop, whole)
    ensures InScope(s, d, whole) && Ok(s) && s.cur in s.body && d <= s.vars.Keys && TargetsExist(s)
  {
    OkCurrent(s);
  }

  /** After a declaration its variable is in scope too. */
  lemma DeclaredInScope(s: State, st: S.Stmt, d: set<nat>, s': State, whole: Option<S.Stmt>)
    requires InScope(s, d, whole) && Executes(s, st, d, s') && Promoted(s'.vars, d + S.Declares(st), whole)
    ensures InScope(s', d + S.Declares(st), whole)
  {
    hide Ok, Promoted, Executes, Grown, TargetsExist, S.Declares, SameOn;
    ExecutesKeeps(s, st, d, s');
    GrownCounters(s, d, s');
    StaysInScope(s, d, s', whole);
  }

  lemma StillPromoted(s: State, d: set<nat>, s': State, whole: Option<S.Stmt>)
    requires InScope(s, d, whole) && Grown(s, d, s')
    ensures Promoted(s'.vars, d, whole)
  {
    hide Ok, Newer, Local, S.Mutates, BlockGrows;
  }

  // ---------------------------------------------------------------------------------------------
  // Strict SSA form

  /** The variables in scope and the targets of jumps out of the loop may be used. */
  ghost predicate Settled(c: Cert, s: State, d: set<nat>) { Fit(c, s, d) && GoalsOk(c, s) }

  /** Code has been generated that leaves the variables of `d` usable. */
  ghost predicate Carried(c: Cert, s: State, c': Cert, s': State, d: set<nat>) {
    Went(c, s, c', s') && VarsKnown(c', s', d)
  }

  lemma SettledParts(c: Cert, s: State, d: set<nat>)
    requires Settled(c, s, d)
    ensures Fit(c, s, d) && Sound(c, s) && GoalsOk(c, s)
  {
    hide Sound, VarsKnown, GoalsOk;
  }

  lemma FitOn(c: Cert, s: State, d: set<nat>, c': Cert, s': State)
    requires Fit(c, s, d) && Went(c, s, c', s') && SameOn(d, s.vars, s'.vars)
    ensures Fit(c', s', d)
  {
    hide Sound, Extends, BindingKnown;
    VarsLater(c, s, c', s', d);
  }

  lemma SettledOn(c: Cert, s: State, d: set<nat>, c': Cert, s': State)
    requires Settled(c, s, d) && Went(c, s, c', s') && SameOn(d, s.vars, s'.vars) && s'.loopCond == s.loopCond
    requires s'.loopExit == s.loopExit
    ensures Settled(c', s', d)
  {
    hide Sound, Extends, VarsKnown, SameOn, Goal;
    FitOn(c, s, d, c', s');
    GoalsLater(c, s, c', s');
  }

  /** The next statement of a block. */
  lemma SettledNext(c: Cert, s: State, d: set<nat>, st: S.Stmt, c': Cert, s': State)
    requires Settled(c, s, d) && Carried(c, s, c', s', d + S.Declares(st)) && Executes(s, st, d, s')
    ensures Settled(c', s', d + S.Declares(st))
  {
    hide Sound, Extends, VarsKnown, Goal, Executes, Grown, SameOn, S.Declares;
    ExecutesKeeps(s, st, d, s');
    GrownCounters(s, d, s');
    GoalsLater(c, s, c', s');
  }

  /** A statement that declares nothing carries the scope over. */
  lemma CarriedPlain(c: Cert, s: State, d: set<nat>, st: S.Stmt, c': Cert, s': State)
    requires Fit(c, s, d) && Went(c, s, c', s') && Executes(s, st, d, s') && !st.Decl?
    ensures Carried(c, s, c', s', d + S.Declares(st))
  {
    hide Sound, Extends, Executes, Grown, VarsKnown;
    ExecutesKeeps(s, st, d, s');
    GrownCounters(s, d, s');
    FitOn(c, s, d, c', s');
    assert d + S.Declares(st) == d;
  }

  lemma CarriedWent(c: Cert, s: State, c': Cert, s': State, d: set<nat>)
    requires Carried(c, s, c', s', d)
    ensures Went(c, s, c', s') && Fit(c', s', d)
  {
    hide Sound, Extends, VarsKnown;
  }

  /** Binding a variable. */
  lemma BindCarries(c: Cert, s: State, d: set<nat>, x: nat, to: Binding)
    requires Fit(c, s, d) && BindingKnown(c, s, to)
    ensures Carried(c, s, c, Bind(s, x, to), d + {x}) && Sound(c, Bind(s, x, to))
  {
    hide Sound, Extends, HereLive, Avail;
    var s' := Bind(s, x, to);
    SameCodeSound(c, s, s');
    forall y | y in d + {x}
      ensures y in s'.vars && BindingKnown(c, s', s'.vars[y])
    {
      if y != x { assert BindingKnown(c, s, s.vars[y]); }
    }
  }

  // ---------------------------------------------------------------------------------------------
  // Statements

  /** What generating a statement promises: its code executes it, and what it declares is promoted exactly if never
      assigned. */
  ghost predicate Lowered(s: State, st: S.Stmt, d: set<nat>, s': State, whole: Option<S.Stmt>) {
    Executes(s, st, d, s') && Promoted(s'.vars, d + S.Declares(st), whole)
  }

  lemma LoweredPlain(s: State, st: S.Stmt, d: set<nat>, s': State, whole: Option<S.Stmt>)
    requires InScope(s, d, whole) && Executes(s, st, d, s') && !st.Decl?
    ensures Lowered(s, st, d, s', whole)
  {
    hide Executes, InScope, Promoted, Grown;
    ExecutesKeeps(s, st, d, s');
    StillPromoted(s, d, s', whole);
    assert d + S.Declares(st) == d;
  }

  lemma LoweredDecl(s: State, x: nat, isBool: bool, init: Option<S.Expr>, d: set<nat>, s': State, whole: Option<S.Stmt>)
    requires InScope(s, d, whole) && Executes(s, S.Decl(x, isBool, init), d, s')
    requires x in s'.vars && (s'.vars[x].Direct? <==> whole.Some? && !S.Mutates(whole.value, x))
    ensures Lowered(s, S.Decl(x, isBool, init), d, s', whole)
  {
    hide Executes, InScope, Grown, S.Mutates;
    ExecutesKeeps(s, S.Decl(x, isBool, init), d, s');
    StillPromoted(s, d, s', whole);
  }

  /** A declaration: a variable assigned nowhere is bound to its value, any other gets a cell. */
  method GenDecl(b: IrBuilder, x: nat, isBool: bool, init: Option<S.Expr>, ghost d: set<nat>)
    requires Prepared(b.Now(), S.Decl(x, isBool, init), d, false, b.currentFuncBody) && Settled(b.cert, b.Now(), d)
    modifies b`order, b`body, b`cur, b`nextVreg, b`nextBlock, b`vars, b`cert
    ensures Lowered(old(b.Now()), S.Decl(x, isBool, init), d, b.Now(), b.currentFuncBody)
    ensures Carried(old(b.cert), old(b.Now()), b.cert, b.Now(), d + {x})
  {
    hide Built, DefaultExpr, Emit, EmitValue, Evaluates, Executes, InScope, Lowered, Newer, Ok, PartOf, PartOfAll,
      PartOfE, StoreInst, TargetsExist, Usable, ValueBelow, S.Declares, S.Mutates, S.ScopedAll, S.ScopedE, Settled,
      Carried, Fit, Found, Went, Sound, Known;
    ghost var c, s, st, whole := b.cert, b.Now(), S.Decl(x, isBool, init), b.currentFuncBody;
    PreparedKeeps(s, st, d, false, whole);
    SettledParts(c, s, d);
    assert x !in d && (init.Some? ==> S.ScopedE(init.value, d)) && PartOf(st, whole);
    Parts(st, whole);
    ghost var e := if init.Some? then init.value else DefaultExpr(isBool);
    var v := GenInit(b, isBool, init, d);
    ghost var c1, s1 := b.cert, b.Now();
    EvaluatesKeeps(s, e, s1, v);
    OkCurrent(s1);
    FoundFit(c, s, d, c1, s1, v);
    if b.currentFuncBody.Some? && !S.Mutates(b.currentFuncBody.value, x) {
      b.vars := b.vars[x := Direct(v)];
      DirectDeclExecutes(s, x, isBool, e, d, s1, v);
      BindCarries(c1, s1, d, x, Direct(v));
    } else {
      ghost var size := if isBool then 1 else 8;
      var p := b.BuildAlloca(if isBool then 1 else 8);
      ghost var c2, s2 := b.cert, b.Now();
      FoundFit(c1, s1, d, c2, s2, VReg(p));
      KnownThen(c1, s1, c2, s2, v);
      b.vars := b.vars[x := Cell(p)];
      ghost var s3 := b.Now();
      BindCarries(c2, s2, d, x, Cell(p));
      BoundKnown(c2, s2, x, Cell(p), v);
      BoundKnown(c2, s2, x, Cell(p), VReg(p));
      CellDeclSteps(s1, x, size, v, s3);
      b.BuildStore(v, p);
      CellDeclExecutes(s, x, isBool, e, d, s1, v, size);
      CellStays(s1, x, size, v);
      CarriedOn(c1, s1, c2, s2, c2, s3, b.cert, b.Now(), d + {x});
    }
    CarriedAfter(c, s, c1, s1, b.cert, b.Now(), d + {x});
    if init.None? { DefaultExecutes(s, x, isBool, d, b.Now()); }
    LoweredDecl(s, x, isBool, init, d, b.Now(), whole);
  }

  /** The initial value. */
  method GenInit(b: IrBuilder, isBool: bool, init: Option<S.Expr>, ghost d: set<nat>) returns (v: Value)
    requires InScope(b.Now(), d, b.currentFuncBody) && Fit(b.cert, b.Now(), d)
    requires init.Some? ==> S.ScopedE(init.value, d) && PartOfE(init.value, b.currentFuncBody)
    modifies b`order, b`body, b`cur, b`nextVreg, b`nextBlock, b`cert
    ensures Evaluates(old(b.Now()), if init.Some? then init.value else DefaultExpr(isBool), b.Now(), v)
    ensures Found(old(b.cert), old(b.Now()), b.cert, b.Now(), v)
  {
    hide Ok, Evaluates, InScope, PartOfE, S.ScopedE, Fit, Found, Went, Sound, Known, DefaultExpr;
    ghost var c, s := b.cert, b.Now();
    if init.Some? {
      v := GenExprIn(b, init.value, d);
    } else {
      v := ConstInt(0);
      DefaultEvaluates(s, isBool) by { InScopeIs(s, d, b.currentFuncBody); }
      FitSound(c, s, d);
      LiteralKnown(c, s, v);
      FoundAtOnce(c, s, v);
    }
  }

  /** Behind an expression the scope is as before. */
  lemma FoundFit(c: Cert, s: State, d: set<nat>, c': Cert, s': State, v: Value)
    requires Fit(c, s, d) && Found(c, s, c', s', v) && s'.vars == s.vars
    ensures Fit(c', s', d) && Sound(c', s') && Known(c', s', v) && Went(c, s, c', s')
  {
    hide Went, Known, Sound, VarsKnown;
    FoundParts(c, s, c', s', v);
    FitThen(c, s, c', s', d);
  }

  lemma BoundKnown(c: Cert, s: State, x: nat, to: Binding, v: Value)
    requires Known(c, s, v)
    ensures Known(c, Bind(s, x, to), v)
  {}

  lemma CarriedOn(c: Cert, s: State, c2: Cert, s2: State, c3: Cert, s3: State, c4: Cert, s4: State, d: set<nat>)
    requires Went(c, s, c2, s2) && Carried(c2, s2, c3, s3, d) && Went(c3, s3, c4, s4) && s4.vars == s3.vars
    ensures Carried(c, s, c4, s4, d)
  {
    hide Went, VarsKnown, Sound;
    CarriedWent(c2, s2, c3, s3, d);
    FitThen(c3, s3, c4, s4, d);
    WentTransitive(c, s, c2, s2, c3, s3);
    WentTransitive(c, s, c3, s3, c4, s4);
  }

  lemma CarriedAfter(c: Cert, s: State, c1: Cert, s1: State, c2: Cert, s2: State, d: set<nat>)
    requires Went(c, s, c1, s1) && Carried(c1, s1, c2, s2, d)
    ensures Carried(c, s, c2, s2, d)
  {
    hide Went, VarsKnown;
    WentTransitive(c, s, c1, s1, c2, s2);
  }

  lemma DefaultEvaluates(s: State, isBool: bool)
    requires Ok(s)
    ensures Evaluates(s, DefaultExpr(isBool), s, ConstInt(0))
  {
    hide Ok, Evaluates;
    LiteralEvaluates(s, DefaultExpr(isBool), ConstInt(0), if isBool then S.B(false) else S.I(0));
  }

  lemma CellDeclSteps(s1: State, x: nat, size: i64, v: Value, s3: State)
    requires s1.cur in s1.body && s3 == Bind(EmitValue(s1, Alloca, [ConstInt(size)]), x, Cell(s1.nextVreg))
    ensures s3.cur in s3.body
  {}

  lemma CellStays(s1: State, x: nat, size: i64, v: Value)
    requires s1.cur in s1.body
    ensures x in CellDeclared(s1, x, size, v).vars && CellDeclared(s1, x, size, v).vars[x] == Cell(s1.nextVreg)
  {}

  // ---------------------------------------------------------------------------------------------
  // Conditionals

  /** `x = e` for a literal or a variable: both arms of a conditional reduce to one select. */
  lemma SimpleParts(st: S.Stmt, d: set<nat>, inLoop: bool, whole: Option<S.Stmt>)
    requires S.Scoped(st, d, inLoop) && PartOf(st, whole) && IsSimpleAssign(st).Some?
    ensures var p := IsSimpleAssign(st).value;
      p.0 in d && S.ScopedE(p.1, d) && PartOfE(p.1, whole) && (whole.Some? ==> S.Mutates(whole.value, p.0))
  {
    var p := IsSimpleAssign(st).value;
    if st.Block? && st.ss.Cons? && st.ss.tail.Nil? {
      assert S.MutatesAll(st.ss, p.0);
      assert S.Scoped(st.ss.head, d, inLoop);
    }
    assert S.Mutates(st, p.0);
  }

  method GenSelect(b: IrBuilder, c: S.Expr, yes: S.Stmt, no: S.Stmt, x: nat, e1: S.Expr, e2: S.Expr, ghost d: set<nat>,
        ghost inLoop: bool)
    requires Prepared(b.Now(), S.If(c, yes, Some(no)), d, inLoop, b.currentFuncBody) && Fit(b.cert, b.Now(), d)
    requires IsSimpleAssign(yes) == Some((x, e1)) && IsSimpleAssign(no) == Some((x, e2))
    modifies b`order, b`body, b`cur, b`nextVreg, b`nextBlock, b`cert
    ensures Lowered(old(b.Now()), S.If(c, yes, Some(no)), d, b.Now(), b.currentFuncBody)
    ensures Went(old(b.cert), old(b.Now()), b.cert, b.Now())
    ensures Straight(c) ==> b.cur == old(b.cur) && b.nextBlock == old(b.nextBlock)
  {
    hide Built, Emit, Evaluates, Executes, IsSimpleAssign, Lowered, Newer, Ok, PartOf, PartOfAll, PartOfE, Straight,
      Written, SelectBuilt, StoreInst, TargetsExist, ValueBelow, S.Declares, S.Mutates, S.ScopedAll, S.ScopedE,
        S.ScopedO,
      Fit, Found, Went, Sound, Known;
    ghost var c0, s, st, whole := b.cert, b.Now(), S.If(c, yes, Some(no)), b.currentFuncBody;
    PreparedKeeps(s, st, d, inLoop, whole);
    assert S.ScopedE(c, d) && S.Scoped(yes, d, inLoop) && S.Scoped(no, d, inLoop) && PartOf(st, whole);
    Parts(st, whole);
    SimpleParts(yes, d, inLoop, whole);
    SimpleParts(no, d, inLoop, whole);
    assert x in s.vars && s.vars[x].Cell?;
    BoundBelow(s, x);
    VarKnown(c0, s, d, x);
    var p := b.vars[x].p;
    SimpleIsStraight(yes, x, e1);
    SimpleIsStraight(no, x, e2);
    var vc := GenExprIn(b, c, d);
    ghost var c1, s1 := b.cert, b.Now();
    EvaluatesKeeps(s, c, s1, vc);
    KeepsVars(s, s1);
    FoundFit(c0, s, d, c1, s1, vc);
    KnownThen(c0, s, c1, s1, VReg(p));
    var vt := GenExprIn(b, e1, d);
    ghost var c2, s2 := b.cert, b.Now();
    EvaluatesKeeps(s1, e1, s2, vt);
    KeepsVars(s1, s2);
    FoundFit(c1, s1, d, c2, s2, vt);
    KnownThen(c1, s1, c2, s2, vc);
    KnownThen(c1, s1, c2, s2, VReg(p));
    var vf := GenExprIn(b, e2, d);
    ghost var c3, s3 := b.cert, b.Now();
    EvaluatesKeeps(s2, e2, s3, vf);
    KeepsVars(s2, s3);
    FoundFit(c2, s2, d, c3, s3, vf);
    WentTransitive(c0, s, c1, s1, c2, s2);
    WentTransitive(c0, s, c2, s2, c3, s3);
    KnownThen(c2, s2, c3, s3, vc);
    KnownThen(c2, s2, c3, s3, vt);
    KnownThen(c2, s2, c3, s3, VReg(p));
    BelowLater(vc, s1.nextVreg, s3.nextVreg);
    BelowLater(vt, s2.nextVreg, s3.nextVreg);
    SelectAndStore(b, c, yes, no, x, e1, e2, p, d, s, s1, vc, s2, vt, vf, c0);
    LoweredPlain(s, st, d, b.Now(), whole);
  }

  lemma SimpleIsStraight(st: S.Stmt, x: nat, e: S.Expr)
    requires IsSimpleAssign(st) == Some((x, e))
    ensures Straight(e)
  {}

  /** The last two instructions: one value is selected and stored. */
  method SelectAndStore(b: IrBuilder, ghost c: S.Expr, ghost yes: S.Stmt, ghost no: S.Stmt, ghost x: nat,
        ghost e1: S.Expr, ghost e2: S.Expr, p: nat, ghost d: set<nat>, ghost s: State, ghost s1: State, vc: Value,
        ghost s2: State, vt: Value, vf: Value, ghost c0: Cert)
    requires Ok(s) && d <= s.vars.Keys && x in d && s.vars[x] == Cell(p) && p < s.nextVreg && S.ScopedE(e1, d)
    requires S.ScopedE(e2, d)
    requires IsSimpleAssign(yes) == Some((x, e1)) && IsSimpleAssign(no) == Some((x, e2))
    requires Evaluates(s, c, s1, vc) && Evaluates(s1, e1, s2, vt) && Evaluates(s2, e2, b.Now(), vf) && Ok(b.Now())
    requires ValueBelow(vc, b.nextVreg) && ValueBelow(vt, b.nextVreg) && ValueBelow(vf, b.nextVreg)
    requires Went(c0, s, b.cert, b.Now()) && Sound(b.cert, b.Now()) && Known(b.cert, b.Now(), VReg(p))
    requires Known(b.cert, b.Now(), vc) && Known(b.cert, b.Now(), vt) && Known(b.cert, b.Now(), vf)
    modifies b`body, b`nextVreg, b`cert
    ensures Executes(s, S.If(c, yes, Some(no)), d, b.Now()) && Went(c0, s, b.cert, b.Now())
  {
    hide Built, Emit, Evaluates, Executes, IsSimpleAssign, Ok, SelectBuilt, StoreInst, ValueBelow, S.ScopedE, Found,
      Went, Sound, Known;
    ghost var c3, s3 := b.cert, b.Now();
    var v := b.BuildSelect(vc, vt, vf);
    ghost var c4, s4 := b.cert, b.Now();
    FoundParts(c3, s3, c4, s4, v);
    KnownThen(c3, s3, c4, s4, VReg(p));
    SelectExecutes(s, c, yes, no, x, e1, e2, p, d, s1, vc, s2, vt, s3, vf, s4, v);
    b.BuildStore(v, p);
    WentTransitive(c0, s, c3, s3, c4, s4);
    WentTransitive(c0, s, c4, s4, b.cert, b.Now());
  }

  /** Generates an expression that stands in scope `d`. */
  method GenExprIn(b: IrBuilder, e: S.Expr, ghost d: set<nat>) returns (v: Value)
    requires InScope(b.Now(), d, b.currentFuncBody) && S.ScopedE(e, d) && PartOfE(e, b.currentFuncBody)
    requires Fit(b.cert, b.Now(), d)
    modifies b`order, b`body, b`cur, b`nextVreg, b`nextBlock, b`cert
    ensures Evaluates(old(b.Now()), e, b.Now(), v) && InScope(b.Now(), d, b.currentFuncBody)
    ensures Found(old(b.cert), old(b.Now()), b.cert, b.Now(), v)
    ensures Straight(e) ==> b.cur == old(b.cur) && b.nextBlock == old(b.nextBlock)
    ensures Written(e, old(b.Now()), b.Now(), v)
  {
    hide Built, Evaluates, InScope, Newer, Ok, PartOfE, Usable, ValueBelow, S.ScopedE, Fit, Found, Expressed, Straight,
      Written;
    ghost var c, s := b.cert, b.Now();
    ScopedIsUsable(s, e, d, b.currentFuncBody);
    v := GenExpression(b, e, d);
    ExpressedParts(c, s, e, b.cert, b.Now(), v);
    StaysAfter(s, d, b.Now(), b.currentFuncBody);
  }

  /** The insertion point is an arm of a conditional begun in scope. */
  lemma ArmPrepared(s: State, d: set<nat>, u: State, st: S.Stmt, inLoop: bool, whole: Option<S.Stmt>)
    requires InScope(s, d, whole) && Grown(s, d, u) && S.Scoped(st, d, inLoop) && PartOf(st, whole)
    ensures Prepared(u, st, d, inLoop, whole) && u.cur in u.body
  {
    hide InScope, Grown, S.Scoped, PartOf;
    StaysInScope(s, d, u, whole);
    PreparedKeeps(u, st, d, inLoop, whole);
  }

  /** A conditional with a literal condition: only the chosen arm is generated. */
  method GenLiteralIf(b: IrBuilder, cond: bool, c: S.Expr, yes: S.Stmt, no: Option<S.Stmt>, ghost d: set<nat>,
        ghost inLoop: bool, ghost s: State)
    requires Prepared(s, S.If(c, yes, no), d, inLoop, b.currentFuncBody) && Evaluates(s, c, b.Now(), ConstBool(cond))
    requires Settled(b.cert, b.Now(), d)
    modifies b`order, b`body, b`cur, b`nextVreg, b`nextBlock, b`loopCond, b`loopExit, b`vars, b`cert
    ensures Executes(s, S.If(c, yes, no), d, b.Now())
    ensures Went(old(b.cert), old(b.Now()), b.cert, b.Now())
    ensures !cond && no.None? ==> b.Now() == old(b.Now())
    decreases S.If(c, yes, no), 0
  {
    hide Built, Evaluates, Executes, Grown, InScope, Newer, Ok, PartOf, PartOfAll, PartOfE, Promoted, TargetsExist,
      ValueBelow, S.Declares, S.ScopedAll, S.ScopedE, S.ScopedO, Settled, Carried, Went, Sound;
    ghost var c1, s1, st, whole := b.cert, b.Now(), S.If(c, yes, no), b.currentFuncBody;
    SettledParts(c1, s1, d);
    WentSelf(c1, s1);
    PreparedKeeps(s, st, d, inLoop, whole);
    assert S.Scoped(yes, d, inLoop) && (no.Some? ==> S.Scoped(no.value, d, inLoop)) && PartOf(st, whole);
    Parts(st, whole);
    EvaluatesKeeps(s, c, s1, ConstBool(cond));
    BuiltGrown(s, d, s1);
    if cond {
      ArmPrepared(s, d, s1, yes, inLoop, whole);
      GenStatement(b, yes, d, inLoop);
      CarriedWent(c1, s1, b.cert, b.Now(), d + S.Declares(yes));
    } else if no.Some? {
      ArmPrepared(s, d, s1, no.value, inLoop, whole);
      GenStatement(b, no.value, d, inLoop);
      CarriedWent(c1, s1, b.cert, b.Now(), d + S.Declares(no.value));
    }
    LiteralIfExecutes(s, c, yes, no, d, s1, cond, b.Now());
  }

  /** A conditional with one arm. */
  method GenIfThen(b: IrBuilder, cond: Value, c: S.Expr, yes: S.Stmt, ghost d: set<nat>, ghost inLoop: bool,
        ghost s: State)
    requires Prepared(s, S.If(c, yes, None), d, inLoop, b.currentFuncBody) && Evaluates(s, c, b.Now(), cond)
    requires Settled(b.cert, b.Now(), d) && Known(b.cert, b.Now(), cond)
    modifies b`order, b`body, b`cur, b`nextVreg, b`nextBlock, b`loopCond, b`loopExit, b`vars, b`cert
    ensures Executes(s, S.If(c, yes, None), d, b.Now())
    ensures Went(old(b.cert), old(b.Now()), b.cert, b.Now())
    decreases S.If(c, yes, None), 0
  {
    hide BranchInst, Built, Emit, Evaluates, Executes, Grown, InScope, JumpInst, Newer, Ok, PartOf, PartOfAll,
      PartOfE, Promoted, TargetsExist, ValueBelow, Waiting, S.Declares, S.ScopedAll, S.ScopedE, S.ScopedO, Settled,
      Carried, Went, Sound, Known, Laid, Goal, AtThen, SameOn, Grows;
    ghost var c1, s1, st, whole := b.cert, b.Now(), S.If(c, yes, None), b.currentFuncBody;
    PreparedKeeps(s, st, d, inLoop, whole);
    assert S.Scoped(yes, d, inLoop) && PartOf(st, whole);
    Parts(st, whole);
    EvaluatesKeeps(s, c, s1, cond);
    BuiltGrown(s, d, s1);
    WithBlocksCurrent(s1, false);
    AtThenShape(s, d, s1, cond, false);
    var thenBlock, mergeBlock, c2, s2, open := StartIf(b, cond, d);
    ghost var c4, s4 := b.cert, b.Now();
    ArmPrepared(s, d, s4, yes, inLoop, whole);
    GenStatement(b, yes, d, inLoop);
    ghost var c5, s5 := b.cert, b.Now();
    LoweredExecutes(s4, yes, d, s5, whole);
    CarriedWent(c4, s4, c5, s5, d + S.Declares(yes));
    WentTransitive(c2, s2, c4, s4, c5, s5);
    IfThenExecutes(s, c, yes, d, s1, cond, s5);
    OkCurrent(s5) by { ExecutesOk(s4, yes, d, s5); }
    GoTo(b, mergeBlock, c1, s1, c2, s2, open);
  }

  lemma ExecutesOk(s: State, st: S.Stmt, d: set<nat>, s': State)
    requires Executes(s, st, d, s')
    ensures Ok(s') && SameOn(d, s.vars, s'.vars)
  {
    hide Grown, Ok, SameOn;
    ExecutesKeeps(s, st, d, s');
    GrownCounters(s, d, s');
  }

  /** The current block jumps to an open one, where the code goes on. */
  method GoTo(b: IrBuilder, target: nat, ghost c: Cert, ghost s: State, ghost c1: Cert, ghost s1: State,
        ghost open: set<nat>)
    requires b.cur in b.body && Laid(c, s, c1, s1, {}, open) && target in open && Went(c1, s1, b.cert, b.Now())
    modifies b`body, b`cur
    ensures old(b.cur in b.body) && b.Now() == JoinedAt(old(b.Now()), target, target)
    ensures Went(c1, s1, b.cert, b.Now()) && Went(c, s, b.cert, b.Now())
  {
    hide Laid, Went, Sound, Goal, Emit;
    ghost var c2, s2 := b.cert, b.Now();
    LaidGoal(c, s, c1, s1, {}, open, target, c2, s2);
    WentSound(c1, s1, c2, s2);
    b.BuildJmp(target);
    WentTransitive(c1, s1, c2, s2, b.cert, b.Now());
    LaidMove(c, s, c1, s1, {}, open, target, b.cert, b.Now());
    b.SetInsertPoint(target);
  }

  /** The blocks of a conditional with one arm; the current one has branched, and the arm is next. */
  method StartIf(b: IrBuilder, cond: Value, ghost d: set<nat>)
    returns (thenBlock: nat, mergeBlock: nat, ghost c2: Cert, ghost s2: State, ghost open: set<nat>)
    requires Ok(b.Now()) && Settled(b.cert, b.Now(), d) && Known(b.cert, b.Now(), cond)
    modifies b`order, b`body, b`cur, b`nextBlock, b`cert
    ensures old(b.cur in b.body) && b.Now() == AtThen(old(b.Now()), cond, false)
    ensures thenBlock == ThenBlock(old(b.Now())) && mergeBlock == MergeBlock(old(b.Now()), false) && mergeBlock in open
    ensures Laid(old(b.cert), old(b.Now()), c2, s2, {}, open) && Went(c2, s2, b.cert, b.Now())
    ensures Settled(b.cert, b.Now(), d)
  {
    hide Ok, Emit, BranchInst, Laid, Went, Sound, Known, Goal, Settled, SamePoint, Fit;
    ghost var c1, s1 := b.cert, b.Now();
    SettledParts(c1, s1, d);
    WithBlocksCurrent(s1, false);
    LaidNone(c1, s1);
    thenBlock := b.CreateBlock();
    LaidNew(c1, s1, c1, s1, {}, b.cert, b.Now());
    ghost var c3, s3 := b.cert, b.Now();
    mergeBlock := b.CreateBlock();
    LaidNew(c1, s1, c3, s3, {} + {thenBlock}, b.cert, b.Now());
    assert {} + {thenBlock} + {mergeBlock} == {thenBlock, mergeBlock};
    s2, open := b.Now(), {} + {thenBlock} + {mergeBlock};
    c2 := OpenBoth(b, c1, s1, thenBlock, mergeBlock);
    BothGoals(c1, s1, c2, s2, thenBlock, mergeBlock);
    LaidSound(c1, s1, c2, s2, {}, open);
    KnownThen(c1, s1, c2, s2, cond);
    b.BuildBr(cond, thenBlock, mergeBlock);
    LaidMove(c1, s1, c2, s2, {}, open, thenBlock, b.cert, b.Now());
    b.SetInsertPoint(thenBlock);
    SettledSame(c1, s1, d, b.cert, b.Now());
  }

  lemma SettledSame(c: Cert, s: State, d: set<nat>, c': Cert, s': State)
    requires Settled(c, s, d) && Went(c, s, c', s') && s'.vars == s.vars && s'.loopCond == s.loopCond
    requires s'.loopExit == s.loopExit
    ensures Settled(c', s', d)
  {
    hide Went, VarsKnown, GoalsOk;
    FitThen(c, s, c', s', d);
    WentExtends(c, s, c', s');
    GoalsLater(c, s, c', s');
  }

  lemma WentExtends(c: Cert, s: State, c': Cert, s': State)
    requires Went(c, s, c', s')
    ensures Extends(c, s, c', s')
  {}

  /** A conditional with two arms. */
  method GenIfElse(b: IrBuilder, cond: Value, c: S.Expr, yes: S.Stmt, no: S.Stmt, ghost d: set<nat>,
        ghost inLoop: bool, ghost s: State)
    requires Prepared(s, S.If(c, yes, Some(no)), d, inLoop, b.currentFuncBody) && Evaluates(s, c, b.Now(), cond)
    requires Settled(b.cert, b.Now(), d) && Known(b.cert, b.Now(), cond)
    modifies b`order, b`body, b`cur, b`nextVreg, b`nextBlock, b`loopCond, b`loopExit, b`vars, b`cert
    ensures Executes(s, S.If(c, yes, Some(no)), d, b.Now())
    ensures Went(old(b.cert), old(b.Now()), b.cert, b.Now())
    decreases S.If(c, yes, Some(no)), 0
  {
    hide BranchInst, Built, Emit, Evaluates, Executes, Grown, Grows, InScope, JumpInst, Newer, Ok, PartOf, PartOfAll,
      PartOfE, Promoted, SameOn, TargetsExist, ValueBelow, Waiting, S.Declares, S.ScopedAll, S.ScopedE, S.ScopedO,
      AtThen, BranchedTo, WithBlocks, NewBlock, Settled, Carried, Went, Sound, Known, Laid, Goal, JoinedAt;
    ghost var c1, s1, st, whole := b.cert, b.Now(), S.If(c, yes, Some(no)), b.currentFuncBody;
    PreparedKeeps(s, st, d, inLoop, whole);
    assert S.Scoped(yes, d, inLoop) && S.Scoped(no, d, inLoop) && PartOf(st, whole);
    Parts(st, whole);
    EvaluatesKeeps(s, c, s1, cond);
    BuiltGrown(s, d, s1);
    GrownCounters(s, d, s1);
    WithBlocksCurrent(s1, true);
    AtThenShape(s, d, s1, cond, true);
    var thenBlock, elseBlock, mergeBlock, c2, s2, open := StartIfElse(b, cond, d);
    ghost var c4, s4 := b.cert, b.Now();
    ArmPrepared(s, d, s4, yes, inLoop, whole);
    GenStatement(b, yes, d, inLoop);
    ghost var c5, s5 := b.cert, b.Now();
    LoweredExecutes(s4, yes, d, s5, whole);
    ElseStarts(s, d, s4, yes, s5, mergeBlock, elseBlock);
    StartElse(b, mergeBlock, elseBlock, yes, d, c1, s1, c2, s2, open, c4, s4);
    ghost var c7, s7 := b.cert, b.Now();
    ArmPrepared(s, d, s7, no, inLoop, whole);
    GenStatement(b, no, d, inLoop);
    ghost var c8, s8 := b.cert, b.Now();
    LoweredExecutes(s7, no, d, s8, whole);
    IfElseExecutes(s, c, yes, no, d, s1, cond, s5, s8);
    CarriedWent(c7, s7, c8, s8, d + S.Declares(no));
    WentTransitive(c2, s2, c7, s7, c8, s8);
    OkCurrent(s8) by { ExecutesOk(s7, no, d, s8); }
    GoTo(b, mergeBlock, c1, s1, c2, s2, open);
  }

  /** From the end of the first arm to the start of the second. */
  method StartElse(b: IrBuilder, mergeBlock: nat, elseBlock: nat, ghost yes: S.Stmt, ghost d: set<nat>, ghost c1: Cert,
        ghost s1: State, ghost c2: Cert, ghost s2: State, ghost open: set<nat>, ghost c4: Cert, ghost s4: State)
    requires b.cur in b.body && Laid(c1, s1, c2, s2, {}, open) && mergeBlock in open && elseBlock in open
    requires Went(c2, s2, c4, s4) && Settled(c4, s4, d) && Executes(s4, yes, d, b.Now())
    requires Carried(c4, s4, b.cert, b.Now(), d + S.Declares(yes))
    requires Settled(c1, s1, d) && s4.vars == s1.vars && s4.loopCond == s1.loopCond && s4.loopExit == s1.loopExit
    modifies b`body, b`cur
    ensures old(b.cur in b.body) && b.Now() == JoinedAt(old(b.Now()), mergeBlock, elseBlock)
    ensures Went(c2, s2, b.cert, b.Now()) && Settled(b.cert, b.Now(), d)
  {
    hide Laid, Went, Sound, Goal, Emit, Settled, Carried, Executes, Fit, Grown;
    ghost var c5, s5 := b.cert, b.Now();
    CarriedWent(c4, s4, c5, s5, d + S.Declares(yes));
    WentTransitive(c2, s2, c4, s4, c5, s5);
    LaidGoal(c1, s1, c2, s2, {}, open, mergeBlock, c5, s5);
    WentSound(c2, s2, c5, s5);
    ExecutesKeeps(s4, yes, d, s5);
    GrownCounters(s4, d, s5);
    b.BuildJmp(mergeBlock);
    WentTransitive(c2, s2, c5, s5, b.cert, b.Now());
    LaidMove(c1, s1, c2, s2, {}, open, elseBlock, b.cert, b.Now());
    b.SetInsertPoint(elseBlock);
    SettledOn(c1, s1, d, b.cert, b.Now());
  }

  /** The blocks of a conditional with two arms; the current one has branched, and the first arm is next. */
  method StartIfElse(b: IrBuilder, cond: Value, ghost d: set<nat>)
    returns (thenBlock: nat, elseBlock: nat, mergeBlock: nat, ghost c2: Cert, ghost s2: State, ghost open: set<nat>)
    requires Ok(b.Now()) && Settled(b.cert, b.Now(), d) && Known(b.cert, b.Now(), cond)
    modifies b`order, b`body, b`cur, b`nextBlock, b`cert
    ensures old(b.cur in b.body) && b.Now() == AtThen(old(b.Now()), cond, true)
    ensures thenBlock == ThenBlock(old(b.Now())) && elseBlock == old(b.nextBlock) + 1
    ensures mergeBlock == MergeBlock(old(b.Now()), true)
    ensures elseBlock in open && mergeBlock in open
    ensures Laid(old(b.cert), old(b.Now()), c2, s2, {}, open) && Went(c2, s2, b.cert, b.Now())
    ensures Settled(b.cert, b.Now(), d)
    ensures b.vars == old(b.vars) && b.loopCond == old(b.loopCond) && b.loopExit == old(b.loopExit)
  {
    hide Ok, Emit, BranchInst, Laid, Went, Sound, Known, Goal, Settled, SamePoint, Fit;
    ghost var c1, s1 := b.cert, b.Now();
    SettledParts(c1, s1, d);
    WithBlocksCurrent(s1, true);
    thenBlock, elseBlock, mergeBlock := CreateThree(b);
    s2, open := b.Now(), {thenBlock, elseBlock, mergeBlock};
    c2 := OpenThree(b, c1, s1, thenBlock, elseBlock, mergeBlock);
    LaidSound(c1, s1, c2, s2, {}, open);
    WentSelf(c2, s2);
    LaidGoal(c1, s1, c2, s2, {}, open, thenBlock, c2, s2);
    LaidGoal(c1, s1, c2, s2, {}, open, elseBlock, c2, s2);
    KnownThen(c1, s1, c2, s2, cond);
    b.BuildBr(cond, thenBlock, elseBlock);
    LaidMove(c1, s1, c2, s2, {}, open, thenBlock, b.cert, b.Now());
    b.SetInsertPoint(thenBlock);
    SettledSame(c1, s1, d, b.cert, b.Now());
  }

  method CreateThree(b: IrBuilder) returns (x: nat, y: nat, z: nat)
    requires Sound(b.cert, b.Now())
    modifies b`order, b`body, b`nextBlock, b`cert
    ensures b.Now() == NewBlock(NewBlock(NewBlock(old(b.Now())))) && x == old(b.nextBlock) && y == x + 1 && z == x + 2
    ensures Laid(old(b.cert), old(b.Now()), b.cert, b.Now(), {x, y, z}, {})
  {
    hide Sound, Laid;
    ghost var c, s := b.cert, b.Now();
    LaidNone(c, s);
    x := b.CreateBlock();
    LaidNew(c, s, c, s, {}, b.cert, b.Now());
    ghost var c1, s1 := b.cert, b.Now();
    y := b.CreateBlock();
    LaidNew(c, s, c1, s1, {} + {x}, b.cert, b.Now());
    ghost var c2, s2 := b.cert, b.Now();
    z := b.CreateBlock();
    LaidNew(c, s, c2, s2, {} + {x} + {y}, b.cert, b.Now());
    assert {} + {x} + {y} + {z} == {x, y, z};
  }

  /** From here on all three may be jumped to. */
  ghost method OpenThree(b: IrBuilder, c: Cert, s: State, x: nat, y: nat, z: nat) returns (c1: Cert)
    requires Laid(c, s, b.cert, b.Now(), {x, y, z}, {}) && x != y && y != z && x != z
    modifies b`cert
    ensures c1 == b.cert && Laid(c, s, c1, b.Now(), {}, {x, y, z})
  {
    hide Laid, Activated, SamePoint;
    var c0, s0 := b.cert, b.Now();
    var c2 := Activated(c0, s0, x);
    LaidOpen(c, s, c0, s0, {x, y, z}, {}, x, c2);
    assert {x, y, z} - {x} == {y, z} && {y, z} - {y} == {z} && {z} - {z} == {};
    var c3 := Activated(c2, s0, y);
    LaidOpen(c, s, c2, s0, {y, z}, {} + {x}, y, c3);
    c1 := Activated(c3, s0, z);
    LaidOpen(c, s, c3, s0, {z}, {} + {x} + {y}, z, c1);
    assert {} + {x} + {y} + {z} == {x, y, z};
    b.cert := c1;
  }

  lemma ElseStarts(s: State, d: set<nat>, s4: State, yes: S.Stmt, s5: State, mb: nat, eb: nat)
    requires Ok(s) && Grown(s, d, s4) && Executes(s4, yes, d, s5) && Waiting(s4, eb) && eb >= s.nextBlock
    ensures s5.cur in s5.body && Grown(s, d, JoinedAt(s5, mb, eb))
  {
    hide Ok, Grown, Executes, Waiting, JoinedAt;
    ExecutesKeeps(s4, yes, d, s5);
    JoinedShape(s, d, s4, s5, mb, eb);
  }

  /** Two arms that assign a literal or a variable to one variable need no blocks of their own, and a conditional
      without `secus` whose condition is false already needs no code. */
  ghost predicate Reduced(s: State, c: S.Expr, yes: S.Stmt, no: Option<S.Stmt>, s': State) {
    && (no.Some? && SameTarget(yes, no.value) && Straight(c) ==> s'.cur == s.cur && s'.nextBlock == s.nextBlock)
    && (no.None? && IsFalse(c) ==> s' == s)
  }

  ghost predicate SameTarget(yes: S.Stmt, no: S.Stmt) {
    exists x: nat, e1: S.Expr, e2: S.Expr :: IsSimpleAssign(yes) == Some((x, e1)) && IsSimpleAssign(no) == Some((x, e2))
  }

  predicate IsFalse(c: S.Expr) {
    DecidedByLiterals(c) && S.Value(c, map[]).Some? && S.Value(c, map[]).value.0 == S.B(false)
  }

  lemma SelectReduces(s: State, c: S.Expr, yes: S.Stmt, no: Option<S.Stmt>, s': State)
    requires no.Some? && (Straight(c) ==> s'.cur == s.cur && s'.nextBlock == s.nextBlock)
    ensures Reduced(s, c, yes, no, s')
  {}

  /** The other ways of generating a conditional, told from its condition. */
  lemma BranchReduces(s: State, c: S.Expr, yes: S.Stmt, no: Option<S.Stmt>, s1: State, cond: Value)
    requires Written(c, s, s1, cond)
    requires no.Some? ==> !SameTarget(yes, no.value)
    ensures no.None? && IsFalse(c) ==> s1 == s && cond == ConstBool(false)
    ensures forall s': State | no.None? && IsFalse(c) ==> s' == s :: Reduced(s, c, yes, no, s')
  {}

  /** A conditional: a select, a chosen arm, or a branch. */
  method GenIf(b: IrBuilder, c: S.Expr, yes: S.Stmt, no: Option<S.Stmt>, ghost d: set<nat>, ghost inLoop: bool)
    requires Prepared(b.Now(), S.If(c, yes, no), d, inLoop, b.currentFuncBody) && Settled(b.cert, b.Now(), d)
    modifies b`order, b`body, b`cur, b`nextVreg, b`nextBlock, b`loopCond, b`loopExit, b`vars, b`cert
    ensures Lowered(old(b.Now()), S.If(c, yes, no), d, b.Now(), b.currentFuncBody)
    ensures Went(old(b.cert), old(b.Now()), b.cert, b.Now())
    ensures Reduced(old(b.Now()), c, yes, no, b.Now())
    decreases S.If(c, yes, no), 1
  {
    hide Straight, Written, Reduced, Evaluates, Executes, InScope, IsSimpleAssign, Lowered, Ok, PartOf, PartOfAll,
      PartOfE, TargetsExist,
      S.Declares, S.ScopedAll, S.ScopedE, S.ScopedO, Settled, Went, Found, Known, Sound, Fit, Built;
    ghost var c0, s, st, whole := b.cert, b.Now(), S.If(c, yes, no), b.currentFuncBody;
    SettledParts(c0, s, d);
    if no.Some? {
      var t, f := IsSimpleAssign(yes), IsSimpleAssign(no.value);
      if t.Some? && f.Some? && t.value.0 == f.value.0 {
        GenSelect(b, c, yes, no.value, t.value.0, t.value.1, f.value.1, d, inLoop);
        SelectReduces(s, c, yes, no, b.Now());
        return;
      }
    }
    PreparedKeeps(s, st, d, inLoop, whole);
    assert S.ScopedE(c, d) && PartOf(st, whole);
    Parts(st, whole);
    var cond := GenExprIn(b, c, d);
    ghost var c1, s1 := b.cert, b.Now();
    EvaluatesKeeps(s, c, s1, cond);
    KeepsVars(s, s1);
    FoundFit(c0, s, d, c1, s1, cond);
    BuiltLoops(s, s1);
    SettledSame(c0, s, d, c1, s1);
    BranchReduces(s, c, yes, no, s1, cond);
    if cond.ConstBool? {
      GenLiteralIf(b, cond.b, c, yes, no, d, inLoop, s);
    } else if no.None? {
      GenIfThen(b, cond, c, yes, d, inLoop, s);
    } else {
      GenIfElse(b, cond, c, yes, no.value, d, inLoop, s);
    }
    WentTransitive(c0, s, c1, s1, b.cert, b.Now());
    LoweredPlain(s, st, d, b.Now(), whole);
  }

  lemma BuiltLoops(s: State, s': State)
    requires Built(s, s')
    ensures s'.vars == s.vars && s'.loopCond == s.loopCond && s'.loopExit == s.loopExit
  {
    hide Ok, Grows, Local;
  }

  // ---------------------------------------------------------------------------------------------
  // Loops

  lemma InsideInScope(s0: State, isFor: bool, d: set<nat>, u: State, whole: Option<S.Stmt>)
    requires InScope(s0, d, whole) && Grown(s0, d, u) && BlocksOf(s0, isFor).inc in u.body
    requires BlocksOf(s0, isFor).exit in u.body
    ensures InScope(Inside(s0, isFor, u), d, whole) && u.cur in u.body
  {
    hide Grown, S.Mutates, BlockBelow, CellsDiffer, BindingBelow;
    StaysInScope(s0, d, u, whole);
  }

  lemma BodyPrepared(s0: State, isFor: bool, d: set<nat>, body: S.Stmt, whole: Option<S.Stmt>)
    requires InScope(s0, d, whole) && S.Scoped(body, d, true) && PartOf(body, whole)
    ensures s0.cur in s0.body && Created(s0, isFor).cur in Created(s0, isFor).body
    ensures Prepared(Inside(s0, isFor, AtBody(s0, isFor)), body, d, true, whole)
  {
    hide AtBody, BlocksOf, Created, Emit, Grown, Grows, Inside, JumpInst, Ok, PartOf, Promoted, StartsAt,
      TargetsExist, S.Scoped;
    assert Ok(s0) && d <= s0.vars.Keys;
    AtBodyShape(s0, isFor, d);
    var u := AtBody(s0, isFor);
    assert BlocksOf(s0, isFor).inc in u.body && BlocksOf(s0, isFor).exit in u.body;
    InsideInScope(s0, isFor, d, u, whole);
  }

  /** Behind the body: the increment or the condition can be generated. */
  lemma NextInScope(s0: State, isFor: bool, d: set<nat>, body: S.Stmt, sD: State, whole: Option<S.Stmt>)
    requires InScope(s0, d, whole) && s0.cur in s0.body && Created(s0, isFor).cur in Created(s0, isFor).body
    requires Executes(Inside(s0, isFor, AtBody(s0, isFor)), body, d, sD)
    ensures sD.cur in sD.body && sD.loopCond == Some(BlocksOf(s0, isFor).inc)
    ensures sD.loopExit == Some(BlocksOf(s0, isFor).exit)
    ensures var k, u := BlocksOf(s0, isFor),
      JoinedAt(Outside(s0, sD), BlocksOf(s0, isFor).inc, BlocksOf(s0, isFor).inc);
      && Grown(s0, d, u) && InScope(Inside(s0, isFor, u), d, whole) && u.cur in u.body && k.inc in u.body
      && (isFor ==> Waiting(u, k.cond) && Waiting(u, k.exit))
  {
    hide AtBody, Created, Executes, Grown, Grows, JoinedAt, Newer, Ok, Promoted, SameOn, TargetsExist, S.Declares;
    assert Ok(s0) && d <= s0.vars.Keys;
    var k, sC := BlocksOf(s0, isFor), Inside(s0, isFor, AtBody(s0, isFor));
    ExecutesKeeps(sC, body, d, sD);
    GrownCounters(sC, d, sD);
    OkCurrent(sD);
    BodyShape(s0, isFor, body, d, sD, k.inc);
    assert Outside(s0, sD).cur in Outside(s0, sD).body;
    var u := JoinedAt(Outside(s0, sD), k.inc, k.inc);
    assert k.inc in u.body && k.exit in u.body;
    InsideInScope(s0, isFor, d, u, whole);
    assert isFor ==> k.cond != k.inc;
  }

  /** Behind the increment: the condition can be generated. */
  lemma CondInScope(s0: State, d: set<nat>, inc: Option<S.Expr>, uI: State, sI: State, whole: Option<S.Stmt>)
    requires InScope(s0, d, whole) && Grown(s0, d, uI) && Waiting(uI, BlocksOf(s0, true).cond)
    requires Waiting(uI, BlocksOf(s0, true).exit)
    requires if inc.Some? then exists u ::
      Evaluates(Inside(s0, true, uI), inc.value, sI, u) else sI == Inside(s0, true, uI)
    requires BlocksOf(s0, true).inc in uI.body
    ensures sI.cur in sI.body && sI.loopCond == Some(BlocksOf(s0, true).inc)
    ensures sI.loopExit == Some(BlocksOf(s0, true).exit)
    ensures var u := JoinedAt(Outside(s0, sI), BlocksOf(s0, true).cond, BlocksOf(s0, true).cond);
      Grown(s0, d, u) && InScope(Inside(s0, true, u), d, whole) && u.cur in u.body
  {
    hide BlocksOf, Evaluates, Grown, Grows, IsOpen, JoinedAt, Local, Newer, Ok, Promoted, StartsAt, TargetsExist,
      ValueBelow;
    var k, sJ := BlocksOf(s0, true), Inside(s0, true, uI);
    assert Ok(s0) && d <= s0.vars.Keys;
    IncShape(s0, d, inc, uI, sI);
    assert Outside(s0, sI).cur in Outside(s0, sI).body;
    var u := JoinedAt(Outside(s0, sI), k.cond, k.cond);
    assert k.exit in u.body;
    IncStays(s0, uI, sI, u, k.inc);
    InsideInScope(s0, true, d, u, whole);
    if inc.Some? {
      var x :| Evaluates(sJ, inc.value, sI, x);
      EvaluatesKeeps(sJ, inc.value, sI, x);
      assert sI.loopCond == sJ.loopCond && sI.loopExit == sJ.loopExit;
    }
  }

  lemma IncStays(s0: State, uI: State, sI: State, u: State, b: nat)
    requires Grows(uI, sI) && Grows(sI, u) && b in uI.body
    ensures b in u.body
  {
    hide BlockGrows;
  }

  /** The blocks of a loop have been opened at `s1`, and the targets of jumps out of it may be used. */
  ghost predicate LoopOpen(c: Cert, s: State, c1: Cert, s1: State, k: Blocks, c': Cert, s': State, d: set<nat>) {
    && Laid(c, s, c1, s1, {}, {k.body, k.inc, k.cond, k.exit}) && Fit(c1, s1, d) && s1.vars == s.vars
    && Went(c1, s1, c', s')
  }

  lemma LoopGoals(c: Cert, s: State, c1: Cert, s1: State, k: Blocks, c': Cert, s': State, d: set<nat>)
    requires LoopOpen(c, s, c1, s1, k, c', s', d)
    ensures Sound(c', s') && Goal(c', s', k.body) && Goal(c', s', k.inc) && Goal(c', s', k.cond) && Goal(c', s', k.exit)
  {
    hide Laid, Sound, Extends, Goal, Fit;
    var open := {k.body, k.inc, k.cond, k.exit};
    LaidGoal(c, s, c1, s1, {}, open, k.body, c', s');
    LaidGoal(c, s, c1, s1, {}, open, k.inc, c', s');
    LaidGoal(c, s, c1, s1, {}, open, k.cond, c', s');
    LaidGoal(c, s, c1, s1, {}, open, k.exit, c', s');
  }

  /** More code. */
  lemma LoopGoesOn(c: Cert, s: State, c1: Cert, s1: State, k: Blocks, c2: Cert, s2: State, d: set<nat>, c3: Cert,
        s3: State)
    requires LoopOpen(c, s, c1, s1, k, c2, s2, d) && Went(c2, s2, c3, s3)
    ensures LoopOpen(c, s, c1, s1, k, c3, s3, d)
  {
    hide Laid, Went, Fit;
    WentTransitive(c1, s1, c2, s2, c3, s3);
  }

  /** Going on in one of the blocks. */
  lemma LoopMoves(c: Cert, s: State, c1: Cert, s1: State, k: Blocks, c2: Cert, s2: State, d: set<nat>, b: nat)
    requires LoopOpen(c, s, c1, s1, k, c2, s2, d) && b in {k.body, k.inc, k.cond, k.exit}
    ensures LoopOpen(c, s, c1, s1, k, c2, MoveTo(s2, b), d) && Went(c, s, c2, MoveTo(s2, b))
  {
    hide Laid, Went, Fit, Sound;
    LaidMove(c, s, c1, s1, {}, {k.body, k.inc, k.cond, k.exit}, b, c2, s2);
  }

  lemma LoopAlike(c: Cert, s: State, c1: Cert, s1: State, k: Blocks, c2: Cert, s2: State, d: set<nat>, s3: State)
    requires LoopOpen(c, s, c1, s1, k, c2, s2, d) && SameCode(s2, s3)
    ensures LoopOpen(c, s, c1, s1, k, c2, s3, d)
  {
    hide Laid, Fit, Sound, SamePoint, Extends;
    SameCodeSound(c2, s2, s3) by { WentSound(c1, s1, c2, s2); }
    ExtendsTransitive(c1, s1, c2, s2, c2, s3);
  }

  /** Inside the loop everything in scope may be used. */
  lemma LoopSettled(c: Cert, s: State, c1: Cert, s1: State, k: Blocks, c2: Cert, s2: State, d: set<nat>)
    requires LoopOpen(c, s, c1, s1, k, c2, s2, d) && SameOn(d, s.vars, s2.vars) && s2.loopCond == Some(k.inc)
    requires s2.loopExit == Some(k.exit)
    ensures Settled(c2, s2, d)
  {
    hide Laid, Went, Fit, Sound, Goal;
    LoopGoals(c, s, c1, s1, k, c2, s2, d);
    FitOn(c1, s1, d, c2, s2);
  }

  /** The loop's blocks are created, the current block jumps to the condition, and the body is next. */
  method StartWhile(b: IrBuilder, ghost d: set<nat>)
    returns (bodyBlock: nat, condBlock: nat, exitBlock: nat, ghost c1: Cert, ghost s1: State)
    requires Ok(b.Now()) && Fit(b.cert, b.Now(), d)
    modifies b`order, b`body, b`cur, b`nextBlock, b`loopCond, b`loopExit, b`cert
    ensures old(b.cur in b.body) && Created(old(b.Now()), false).cur in Created(old(b.Now()), false).body
    ensures b.Now() == Inside(old(b.Now()), false, AtBody(old(b.Now()), false))
    ensures BlocksOf(old(b.Now()), false) == Blocks(bodyBlock, condBlock, condBlock, exitBlock)
    ensures LoopOpen(old(b.cert), old(b.Now()), c1, s1, BlocksOf(old(b.Now()), false), b.cert, b.Now(), d)
  {
    hide Ok, Emit, Sound, Laid, Went, LoopOpen, Fit;
    ghost var c, s0 := b.cert, b.Now();
    CreatedCurrent(s0, false);
    FitSound(c, s0, d);
    bodyBlock, condBlock, exitBlock := CreateThree(b);
    s1 := b.Now();
    c1 := OpenThree(b, c, s0, bodyBlock, condBlock, exitBlock);
    assert {bodyBlock, condBlock, condBlock, exitBlock} == {bodyBlock, condBlock, exitBlock};
    EnterLoop(b, c, s0, c1, Blocks(bodyBlock, condBlock, condBlock, exitBlock), d);
  }

  /** The current block jumps to the condition, and the body is next. */
  method EnterLoop(b: IrBuilder, ghost c: Cert, ghost s: State, ghost c1: Cert, k: Blocks, ghost d: set<nat>)
    requires b.cur in b.body && c1 == b.cert && Laid(c, s, b.cert, b.Now(), {}, {k.body, k.inc, k.cond, k.exit})
    requires Fit(c, s, d) && b.vars == s.vars
    modifies b`body, b`cur, b`loopCond, b`loopExit
    ensures old(b.cur in b.body)
    ensures b.Now() == WithLoops(JoinedAt(old(b.Now()), k.cond, k.body), Some(k.inc), Some(k.exit))
    ensures LoopOpen(c, s, c1, old(b.Now()), k, b.cert, b.Now(), d)
  {
    hide Emit, Sound, Laid, Went, LoopOpen, Goal, Fit;
    ghost var s1 := b.Now();
    LoopStarts(c, s, c1, s1, k, d);
    LoopGoals(c, s, c1, s1, k, c1, s1, d);
    b.BuildJmp(k.cond);
    ghost var s2 := b.Now();
    LoopGoesOn(c, s, c1, s1, k, c1, s1, d, c1, s2);
    LoopMoves(c, s, c1, s1, k, c1, s2, d, k.body);
    b.loopCond, b.loopExit := Some(k.inc), Some(k.exit);
    b.SetInsertPoint(k.body);
    LoopAlike(c, s, c1, s1, k, c1, MoveTo(s2, k.body), d, b.Now());
  }

  lemma LoopStarts(c: Cert, s: State, c1: Cert, s1: State, k: Blocks, d: set<nat>)
    requires Laid(c, s, c1, s1, {}, {k.body, k.inc, k.cond, k.exit}) && Fit(c, s, d) && s1.vars == s.vars
    ensures LoopOpen(c, s, c1, s1, k, c1, s1, d)
  {
    hide Laid, Went, Fit, Sound;
    LaidSound(c, s, c1, s1, {}, {k.body, k.inc, k.cond, k.exit});
    WentSelf(c1, s1);
    FitThen(c, s, c1, s1, d);
  }

  /** Inside a loop: the current block jumps to `target`, where the code goes on. */
  method GoOn(b: IrBuilder, target: nat, ghost s0: State, ghost isFor: bool, ghost c0: Cert, ghost c1: Cert,
        ghost s1: State, ghost d: set<nat>)
    requires b.cur in b.body && b.loopCond == Some(BlocksOf(s0, isFor).inc)
    requires b.loopExit == Some(BlocksOf(s0, isFor).exit)
    requires LoopOpen(c0, s0, c1, s1, BlocksOf(s0, isFor), b.cert, b.Now(), d)
    requires target == BlocksOf(s0, isFor).inc || target == BlocksOf(s0, isFor).cond
    modifies b`body, b`cur
    ensures old(b.cur in b.body) && b.Now() == Inside(s0, isFor, JoinedAt(Outside(s0, old(b.Now())), target, target))
    ensures LoopOpen(c0, s0, c1, s1, BlocksOf(s0, isFor), b.cert, b.Now(), d)
  {
    hide LoopOpen, Sound, Goal, Went, BlocksOf;
    ghost var k, s := BlocksOf(s0, isFor), b.Now();
    LoopGoals(c0, s0, c1, s1, k, b.cert, s, d);
    b.BuildJmp(target);
    LoopGoesOn(c0, s0, c1, s1, k, b.cert, s, d, b.cert, b.Now());
    LoopMoves(c0, s0, c1, s1, k, b.cert, b.Now(), d, target);
    b.SetInsertPoint(target);
  }

  /** The branch behind a condition, a literally false one only jumping out; then the loop is left. */
  method EndLoop(b: IrBuilder, cond: Value, bodyBlock: nat, exitBlock: nat, prevCond: Option<nat>,
        prevExit: Option<nat>, ghost s0: State, ghost isFor: bool, ghost c0: Cert, ghost c1: Cert, ghost s1: State,
        ghost d: set<nat>)
    requires b.cur in b.body && prevCond == s0.loopCond && prevExit == s0.loopExit
    requires bodyBlock == BlocksOf(s0, isFor).body && exitBlock == BlocksOf(s0, isFor).exit
    requires LoopOpen(c0, s0, c1, s1, BlocksOf(s0, isFor), b.cert, b.Now(), d) && Known(b.cert, b.Now(), cond)
    modifies b`body, b`cur, b`loopCond, b`loopExit
    ensures old(b.cur in b.body) && b.Now() == AtExit(s0, isFor, old(b.Now()), cond)
    ensures Went(c0, s0, b.cert, b.Now())
  {
    hide LoopOpen, Sound, Goal, Went, BlocksOf, Known, Emit;
    ghost var k, s := BlocksOf(s0, isFor), b.Now();
    LoopGoals(c0, s0, c1, s1, k, b.cert, s, d);
    if cond.ConstBool? && !cond.b {
      b.BuildJmp(exitBlock);
    } else {
      b.BuildBr(cond, bodyBlock, exitBlock);
    }
    ghost var s2 := b.Now();
    assert s2 == Emit(s, BranchInst(cond, bodyBlock, exitBlock));
    LoopGoesOn(c0, s0, c1, s1, k, b.cert, s, d, b.cert, s2);
    b.loopCond, b.loopExit := prevCond, prevExit;
    LoopAlike(c0, s0, c1, s1, k, b.cert, s2, d, b.Now());
    LoopMoves(c0, s0, c1, s1, k, b.cert, b.Now(), d, exitBlock);
    b.SetInsertPoint(exitBlock);
    EmitOutside(s0, s, BranchInst(cond, bodyBlock, exitBlock));
  }

  lemma EmitOutside(s0: State, s: State, inst: Inst)
    requires s.cur in s.body
    ensures Outside(s0, Emit(s, inst)) == Emit(Outside(s0, s), inst)
  {}

  /** `dum`: body and condition, with the condition's block as the target of `perge`. */
  method GenWhile(b: IrBuilder, c: S.Expr, body: S.Stmt, ghost d: set<nat>, ghost inLoop: bool)
    requires Prepared(b.Now(), S.While(c, body), d, inLoop, b.currentFuncBody) && Settled(b.cert, b.Now(), d)
    modifies b`order, b`body, b`cur, b`nextVreg, b`nextBlock, b`loopCond, b`loopExit, b`vars, b`cert
    ensures Lowered(old(b.Now()), S.While(c, body), d, b.Now(), b.currentFuncBody)
    ensures Went(old(b.cert), old(b.Now()), b.cert, b.Now())
    decreases S.While(c, body), 0
  {
    hide AtBody, AtExit, AtInc, Created, Evaluates, Executes, Grown, Inside, JoinedAt, Ok, Outside, PartOf, PartOfAll,
      PartOfE, Promoted, TargetsExist, Waiting, S.Declares, S.ScopedAll, S.ScopedE, S.ScopedO, Settled, Carried, Went,
      Sound, LoopOpen, Fit, BlocksOf, LoopBuilt, Lowered, Found, Known, InScope;
    ghost var c0, s0, st, whole := b.cert, b.Now(), S.While(c, body), b.currentFuncBody;
    PreparedKeeps(s0, st, d, inLoop, whole);
    SettledParts(c0, s0, d);
    assert S.ScopedE(c, d) && S.Scoped(body, d, true) && PartOf(st, whole);
    Parts(st, whole);
    BodyPrepared(s0, false, d, body, whole);
    var prevCond, prevExit := b.loopCond, b.loopExit;
    var bodyBlock, condBlock, exitBlock, c1, s1 := StartWhile(b, d);
    ghost var k, cC, sC := BlocksOf(s0, false), b.cert, b.Now();
    BodySettled(c0, s0, false, c1, s1, cC, sC, d);
    GenStatement(b, body, d, true);
    ghost var cD, sD := b.cert, b.Now();
    LoweredExecutes(sC, body, d, sD, whole);
    CarriedWent(cC, sC, cD, sD, d + S.Declares(body));
    LoopGoesOn(c0, s0, c1, s1, k, cC, sC, d, cD, sD);
    NextInScope(s0, false, d, body, sD, whole);
    GoOn(b, condBlock, s0, false, c0, c1, s1, d);
    assert b.Now() == AtCond(s0, false, sD) by { NextIsCond(s0, sD); }
    ghost var sE := b.Now();
    CondFit(c0, s0, false, c1, s1, b.cert, sE, d, whole);
    var cond := GenExprIn(b, c, d);
    ghost var sF := b.Now();
    InScopeIs(sF, d, whole);
    FoundParts(cD, sE, b.cert, sF, cond);
    LoopGoesOn(c0, s0, c1, s1, k, cD, sE, d, b.cert, sF);
    EndLoop(b, cond, bodyBlock, exitBlock, prevCond, prevExit, s0, false, c0, c1, s1, d);
    assert LoopBuilt(s0, false, Some(c), None, body, d, sD, sD, sF, cond) by {
      WhileBuilt(s0, c, body, d, sD, sF, cond);
    }
    WhileExecutes(s0, c, body, d, sD, sF, cond);
    LoweredPlain(s0, st, d, b.Now(), whole);
  }

  lemma NextIsCond(s0: State, sD: State)
    requires sD.cur in sD.body
    ensures Inside(s0, false, JoinedAt(Outside(s0, sD), BlocksOf(s0, false).inc, BlocksOf(s0, false).inc)) ==
      AtCond(s0, false, sD)
  {}

  lemma WhileBuilt(s0: State, c: S.Expr, body: S.Stmt, d: set<nat>, sD: State, sF: State, v: Value)
    requires Ok(s0) && s0.cur in s0.body && d <= s0.vars.Keys && Created(s0, false).cur in Created(s0, false).body
    requires Executes(Inside(s0, false, AtBody(s0, false)), body, d, sD) && sD.cur in sD.body
    requires Evaluates(AtCond(s0, false, sD), c, sF, v) && sF.cur in sF.body
    ensures LoopBuilt(s0, false, Some(c), None, body, d, sD, sD, sF, v)
  {
    hide AtBody, AtCond, AtInc, Created, Evaluates, Executes, Inside, Ok, BlocksOf;
  }

  /** The loop's body may be generated. */
  lemma BodySettled(c0: Cert, s0: State, isFor: bool, c1: Cert, s1: State, c: Cert, s: State, d: set<nat>)
    requires LoopOpen(c0, s0, c1, s1, BlocksOf(s0, isFor), c, s, d) && Ok(s0) && d <= s0.vars.Keys
    requires s0.cur in s0.body && Created(s0, isFor).cur in Created(s0, isFor).body
    requires s == Inside(s0, isFor, AtBody(s0, isFor))
    ensures Settled(c, s, d)
  {
    hide LoopOpen, Settled, Ok, Grown, AtBody, SameOn, BlocksOf;
    AtBodyShape(s0, isFor, d);
    GrownCounters(s0, d, AtBody(s0, isFor));
    LoopSettled(c0, s0, c1, s1, BlocksOf(s0, isFor), c, s, d);
  }

  /** So may the condition and the increment. */
  lemma CondFit(c0: Cert, s0: State, isFor: bool, c1: Cert, s1: State, c: Cert, s: State, d: set<nat>,
        whole: Option<S.Stmt>)
    requires LoopOpen(c0, s0, c1, s1, BlocksOf(s0, isFor), c, s, d)
    requires exists u :: Grown(s0, d, u) && s == Inside(s0, isFor, u)
    ensures Fit(c, s, d)
  {
    hide Laid, Went, Fit, Grown, SameOn, BlocksOf;
    var u :| Grown(s0, d, u) && s == Inside(s0, isFor, u);
    GrownCounters(s0, d, u);
    FitOn(c1, s1, d, c, s);
  }

  /** The blocks of `per`; the increment has one of its own. */
  method StartFor(b: IrBuilder, ghost d: set<nat>)
    returns (bodyBlock: nat, incBlock: nat, condBlock: nat, exitBlock: nat, ghost c1: Cert, ghost s1: State)
    requires Ok(b.Now()) && Fit(b.cert, b.Now(), d)
    modifies b`order, b`body, b`cur, b`nextBlock, b`loopCond, b`loopExit, b`cert
    ensures old(b.cur in b.body) && Created(old(b.Now()), true).cur in Created(old(b.Now()), true).body
    ensures b.Now() == Inside(old(b.Now()), true, AtBody(old(b.Now()), true))
    ensures BlocksOf(old(b.Now()), true) == Blocks(bodyBlock, incBlock, condBlock, exitBlock)
    ensures LoopOpen(old(b.cert), old(b.Now()), c1, s1, BlocksOf(old(b.Now()), true), b.cert, b.Now(), d)
  {
    hide Ok, Emit, NewBlock, Sound, Laid, Went, LoopOpen, Fit;
    ghost var c, s0 := b.cert, b.Now();
    CreatedCurrent(s0, true);
    ForNumbers(s0);
    FitSound(c, s0, d);
    bodyBlock, incBlock, condBlock := CreateThree(b);
    ghost var c2, s2 := b.cert, b.Now();
    exitBlock := b.CreateBlock();
    LaidNew(c, s0, c2, s2, {bodyBlock, incBlock, condBlock}, b.cert, b.Now());
    s1 := b.Now();
    c1 := OpenFour(b, c, s0, bodyBlock, incBlock, condBlock, exitBlock);
    EnterLoop(b, c, s0, c1, Blocks(bodyBlock, incBlock, condBlock, exitBlock), d);
  }

  /** From here on all four may be jumped to. */
  ghost method OpenFour(b: IrBuilder, c: Cert, s: State, x: nat, y: nat, z: nat, w: nat) returns (c1: Cert)
    requires Laid(c, s, b.cert, b.Now(), {x, y, z} + {w}, {}) && x < y < z < w
    modifies b`cert
    ensures c1 == b.cert && Laid(c, s, c1, b.Now(), {}, {x, y, z, w})
  {
    hide Laid, Activated, SamePoint;
    var c0, s0 := b.cert, b.Now();
    var c2 := Activated(c0, s0, w);
    LaidOpen(c, s, c0, s0, {x, y, z} + {w}, {}, w, c2);
    assert {x, y, z} + {w} - {w} == {x, y, z} && {x, y, z} - {x} == {y, z} && {y, z} - {y} == {z} && {z} - {z} == {};
    var c3 := Activated(c2, s0, x);
    LaidOpen(c, s, c2, s0, {x, y, z}, {} + {w}, x, c3);
    var c4 := Activated(c3, s0, y);
    LaidOpen(c, s, c3, s0, {y, z}, {} + {w} + {x}, y, c4);
    c1 := Activated(c4, s0, z);
    LaidOpen(c, s, c4, s0, {z}, {} + {w} + {x} + {y}, z, c1);
    assert {} + {w} + {x} + {y} + {z} == {x, y, z, w};
    b.cert := c1;
  }

  lemma ForNumbers(s0: State)
    ensures NewBlock(s0).nextBlock == s0.nextBlock + 1 && NewBlock(NewBlock(s0)).nextBlock == s0.nextBlock + 2
    ensures NewBlock(NewBlock(NewBlock(s0))).nextBlock == s0.nextBlock + 3
  {}

  /** What the parts of a `per` loop need. */
  ghost predicate LoopParts(c: Option<S.Expr>, inc: Option<S.Expr>, body: S.Stmt, d: set<nat>, whole: Option<S.Stmt>) {
    && (c.Some? ==> S.ScopedE(c.value, d) && PartOfE(c.value, whole))
    && (inc.Some? ==> S.ScopedE(inc.value, d) && PartOfE(inc.value, whole))
    && S.Scoped(body, d, true) && PartOf(body, whole)
  }

  /** Between body and condition of `per`: the increment, in its own block. */
  method GenIncrement(b: IrBuilder, inc: Option<S.Expr>, incBlock: nat, condBlock: nat, ghost body: S.Stmt,
        ghost d: set<nat>, ghost s0: State, ghost whole: Option<S.Stmt>, ghost c0: Cert, ghost c1: Cert,
        ghost s1: State)
    returns (ghost sI: State)
    requires whole == b.currentFuncBody && InScope(s0, d, whole)
    requires inc.Some? ==> S.ScopedE(inc.value, d) && PartOfE(inc.value, whole)
    requires s0.cur in s0.body && Created(s0, true).cur in Created(s0, true).body
    requires Executes(Inside(s0, true, AtBody(s0, true)), body, d, b.Now())
    requires incBlock == BlocksOf(s0, true).inc && condBlock == BlocksOf(s0, true).cond
    requires LoopOpen(c0, s0, c1, s1, BlocksOf(s0, true), b.cert, b.Now(), d)
    modifies b`order, b`body, b`cur, b`nextVreg, b`nextBlock, b`cert
    ensures var sD := old(b.Now());
      && sD.cur in sD.body && sI.cur in sI.body && b.Now() == AtCond(s0, true, sI) && InScope(b.Now(), d, whole)
      && (if inc.Some? then exists u :: Evaluates(AtInc(s0, sD), inc.value, sI, u) else sI == AtInc(s0, sD))
    ensures LoopOpen(c0, s0, c1, s1, BlocksOf(s0, true), b.cert, b.Now(), d) && Fit(b.cert, b.Now(), d)
  {
    hide AtBody, BlocksOf, Created, Evaluates, Executes, Grown, InScope, Inside, JoinedAt, PartOfE, Waiting, S.ScopedE,
      LoopOpen, Fit, Found, Went;
    ghost var sD := b.Now();
    NextInScope(s0, true, d, body, sD, whole);
    GoOn(b, incBlock, s0, true, c0, c1, s1, d);
    assert Outside(s0, sD).cur in Outside(s0, sD).body;
    ghost var uI := JoinedAt(Outside(s0, sD), incBlock, incBlock);
    ghost var cJ, sJ := b.cert, b.Now();
    assert sJ == Inside(s0, true, uI) == AtInc(s0, sD);
    CondFit(c0, s0, true, c1, s1, cJ, sJ, d, whole);
    if inc.Some? {
      var x := GenExprIn(b, inc.value, d);
      FoundWent(cJ, sJ, b.cert, b.Now(), x);
      LoopGoesOn(c0, s0, c1, s1, BlocksOf(s0, true), cJ, sJ, d, b.cert, b.Now());
    }
    sI := b.Now();
    CondInScope(s0, d, inc, uI, sI, whole);
    GoOn(b, condBlock, s0, true, c0, c1, s1, d);
    assert b.Now() == AtCond(s0, true, sI);
    CondFit(c0, s0, true, c1, s1, b.cert, b.Now(), d, whole);
  }

  lemma FoundWent(c: Cert, s: State, c': Cert, s': State, v: Value)
    requires Found(c, s, c', s', v)
    ensures Went(c, s, c', s')
  {}

  /** The loop of `per`, without its initializer. */
  method GenForLoop(b: IrBuilder, c: Option<S.Expr>, inc: Option<S.Expr>, body: S.Stmt, ghost d: set<nat>,
        ghost whole: Option<S.Stmt>)
    returns (ghost sD: State, ghost sI: State, ghost sF: State, ghost v: Value)
    requires whole == b.currentFuncBody && InScope(b.Now(), d, whole) && LoopParts(c, inc, body, d, whole)
    requires Settled(b.cert, b.Now(), d)
    modifies b`order, b`body, b`cur, b`nextVreg, b`nextBlock, b`loopCond, b`loopExit, b`vars, b`cert
    ensures LoopBuilt(old(b.Now()), true, c, inc, body, d, sD, sI, sF, v) && sF.cur in sF.body
    ensures b.Now() == AtExit(old(b.Now()), true, sF, v)
    ensures Went(old(b.cert), old(b.Now()), b.cert, b.Now())
    decreases body, 4
  {
    hide AtBody, AtCond, AtExit, AtInc, BlocksOf, CondExpr, Created, Evaluates, Executes, Inside, Ok, PartOf, PartOfE,
      Prepared, Promoted, TargetsExist, S.Declares, S.Scoped, S.ScopedE, InScope, LoopParts, Lowered, Settled, Carried,
      Went, LoopOpen, Fit, Sound, LoopBuilt;
    ghost var c0, s0 := b.cert, b.Now();
    SettledParts(c0, s0, d);
    InScopeIs(s0, d, whole);
    LoopPartsAre(c, inc, body, d, whole);
    BodyPrepared(s0, true, d, body, whole);
    var prevCond, prevExit := b.loopCond, b.loopExit;
    var bodyBlock, incBlock, condBlock, exitBlock, c1, s1 := StartFor(b, d);
    ghost var cC, sC := b.cert, b.Now();
    BodySettled(c0, s0, true, c1, s1, cC, sC, d);
    GenStatement(b, body, d, true);
    sD := b.Now();
    LoweredExecutes(sC, body, d, sD, whole);
    CarriedWent(cC, sC, b.cert, sD, d + S.Declares(body));
    LoopGoesOn(c0, s0, c1, s1, BlocksOf(s0, true), cC, sC, d, b.cert, sD);
    sI, sF, v := GenForRest(b, c, inc, bodyBlock, incBlock, condBlock, exitBlock, prevCond, prevExit, body, d, s0,
      whole, c0, c1, s1);
  }

  /** The rest of the loop: increment, condition and exit. */
  method GenForRest(b: IrBuilder, c: Option<S.Expr>, inc: Option<S.Expr>, bodyBlock: nat, incBlock: nat,
        condBlock: nat, exitBlock: nat, prevCond: Option<nat>, prevExit: Option<nat>, ghost body: S.Stmt,
        ghost d: set<nat>, ghost s0: State, ghost whole: Option<S.Stmt>, ghost c0: Cert, ghost c1: Cert,
        ghost s1: State)
    returns (ghost sI: State, ghost sF: State, ghost v: Value)
    requires whole == b.currentFuncBody && InScope(s0, d, whole) && LoopParts(c, inc, body, d, whole)
    requires s0.cur in s0.body && Created(s0, true).cur in Created(s0, true).body
    requires Executes(Inside(s0, true, AtBody(s0, true)), body, d, b.Now())
    requires BlocksOf(s0, true) == Blocks(bodyBlock, incBlock, condBlock, exitBlock) && prevCond == s0.loopCond
    requires prevExit == s0.loopExit
    requires LoopOpen(c0, s0, c1, s1, BlocksOf(s0, true), b.cert, b.Now(), d)
    modifies b`order, b`body, b`cur, b`nextVreg, b`nextBlock, b`loopCond, b`loopExit, b`cert
    ensures LoopBuilt(s0, true, c, inc, body, d, old(b.Now()), sI, sF, v) && sF.cur in sF.body
    ensures b.Now() == AtExit(s0, true, sF, v)
    ensures Went(c0, s0, b.cert, b.Now())
  {
    hide AtBody, AtCond, AtExit, AtInc, CondExpr, Created, Evaluates, Executes, Inside, Ok, PartOfE, S.ScopedE, InScope,
      LoopParts, Went, LoopOpen, Fit, Sound, Known, Found;
    ghost var sD := b.Now();
    InScopeIs(s0, d, whole);
    LoopPartsAre(c, inc, body, d, whole);
    sI := GenIncrement(b, inc, incBlock, condBlock, body, d, s0, whole, c0, c1, s1);
    ghost var cE, sE := b.cert, b.Now();
    var cond := GenForCondition(b, c, d, whole);
    sF, v := b.Now(), cond;
    InScopeIs(sF, d, whole);
    FoundParts(cE, sE, b.cert, sF, cond);
    LoopGoesOn(c0, s0, c1, s1, BlocksOf(s0, true), cE, sE, d, b.cert, sF);
    EndLoop(b, cond, bodyBlock, exitBlock, prevCond, prevExit, s0, true, c0, c1, s1, d);
    assert LoopBuilt(s0, true, c, inc, body, d, sD, sI, sF, v);
  }

  lemma InScopeIs(s: State, d: set<nat>, whole: Option<S.Stmt>)
    requires InScope(s, d, whole)
    ensures Ok(s) && d <= s.vars.Keys && s.cur in s.body
  {
    OkCurrent(s);
  }

  lemma LoopPartsAre(c: Option<S.Expr>, inc: Option<S.Expr>, body: S.Stmt, d: set<nat>, whole: Option<S.Stmt>)
    requires LoopParts(c, inc, body, d, whole)
    ensures S.Scoped(body, d, true) && PartOf(body, whole)
    ensures inc.Some? ==> S.ScopedE(inc.value, d) && PartOfE(inc.value, whole)
    ensures c.Some? ==> S.ScopedE(c.value, d) && PartOfE(c.value, whole)
  {}

  lemma LoweredExecutes(s: State, st: S.Stmt, d: set<nat>, s': State, whole: Option<S.Stmt>)
    requires Lowered(s, st, d, s', whole)
    ensures Executes(s, st, d, s')
  {}

  /** A missing condition is true: the branch behind it will be a jump to the body. */
  method GenForCondition(b: IrBuilder, c: Option<S.Expr>, ghost d: set<nat>, ghost whole: Option<S.Stmt>)
    returns (v: Value)
    requires whole == b.currentFuncBody && InScope(b.Now(), d, whole)
    requires c.Some? ==> S.ScopedE(c.value, d) && PartOfE(c.value, whole)
    requires Fit(b.cert, b.Now(), d)
    modifies b`order, b`body, b`cur, b`nextVreg, b`nextBlock, b`cert
    ensures Evaluates(old(b.Now()), CondExpr(c), b.Now(), v) && InScope(b.Now(), d, whole)
    ensures Found(old(b.cert), old(b.Now()), b.cert, b.Now(), v)
  {
    hide Ok, Evaluates, S.ScopedE, PartOfE, Promoted, TargetsExist, Fit, Found, Sound, Known;
    if c.Some? {
      v := GenExprIn(b, c.value, d);
    } else {
      v := ConstBool(true);
      LiteralEvaluates(b.Now(), S.BoolLit(true), v, S.B(true));
      FitSound(b.cert, b.Now(), d);
      LiteralKnown(b.cert, b.Now(), v);
      FoundAtOnce(b.cert, b.Now(), v);
    }
  }

  /** `per`: the initializer, then the loop. */
  method GenFor(b: IrBuilder, first: Option<S.Stmt>, c: Option<S.Expr>, inc: Option<S.Expr>, body: S.Stmt,
        ghost d: set<nat>, ghost inLoop: bool)
    requires Prepared(b.Now(), S.For(first, c, inc, body), d, inLoop, b.currentFuncBody) && Settled(b.cert, b.Now(), d)
    modifies b`order, b`body, b`cur, b`nextVreg, b`nextBlock, b`loopCond, b`loopExit, b`vars, b`cert
    ensures Lowered(old(b.Now()), S.For(first, c, inc, body), d, b.Now(), b.currentFuncBody)
    ensures Went(old(b.cert), old(b.Now()), b.cert, b.Now())
    decreases S.For(first, c, inc, body), 0
  {
    hide AtExit, Executes, InScope, LoopBuilt, Ok, PartOf, PartOfAll, PartOfE, Promoted, TargetsExist, S.Declares,
      S.Scoped, S.ScopedE, Settled, Carried, Went;
    ghost var c0, s, st, whole := b.cert, b.Now(), S.For(first, c, inc, body), b.currentFuncBody;
    PreparedKeeps(s, st, d, inLoop, whole);
    assert PartOf(st, whole);
    Parts(st, whole);
    ForScopes(first, c, inc, body, d, inLoop, whole);
    if first.Some? {
      assert Prepared(s, first.value, d, false, whole);
      GenStatement(b, first.value, d, false);
      ghost var c1, s0, d' := b.cert, b.Now(), d + S.Declares(first.value);
      assert Executes(s, first.value, d, s0) && Promoted(s0.vars, d', whole);
      DeclaredInScope(s, first.value, d, s0, whole);
      CarriedWent(c0, s, c1, s0, d');
      SettledNext(c0, s, d, first.value, c1, s0);
      ghost var sD, sI, sF, v := GenForLoop(b, c, inc, body, d', whole);
      assert S.Scoped(body, d', true);
      ForExecutes(s, first.value, c, inc, body, d, s0, sD, sI, sF, v);
      WentTransitive(c0, s, c1, s0, b.cert, b.Now());
    } else {
      ghost var sD, sI, sF, v := GenForLoop(b, c, inc, body, d, whole);
      assert S.Scoped(body, d, true);
      BareForExecutes(s, c, inc, body, d, sD, sI, sF, v);
    }
    LoweredPlain(s, st, d, b.Now(), whole);
  }

  lemma ForScopes(first: Option<S.Stmt>, c: Option<S.Expr>, inc: Option<S.Expr>, body: S.Stmt, d: set<nat>,
        inLoop: bool, whole: Option<S.Stmt>)
    requires S.Scoped(S.For(first, c, inc, body), d, inLoop) && PartOf(S.For(first, c, inc, body), whole)
    ensures first.Some? ==>
      S.Scoped(first.value, d, false) && LoopParts(c, inc, body, d + S.Declares(first.value), whole)
    ensures first.None? ==> LoopParts(c, inc, body, d, whole)
  {
    hide PartOf, PartOfE;
    Parts(S.For(first, c, inc, body), whole);
    assert d + {} == d;
  }

  // ---------------------------------------------------------------------------------------------
  // Blocks

  /** What is left of a block from `s1` on completes the block begun at `s`. */
  ghost predicate Completes(s: State, ss: S.Stmts, d: set<nat>, s1: State, rest: S.Stmts, d1: set<nat>) {
    forall s2: State :: ExecutesAll(s1, rest, d1, s2) ==> ExecutesAll(s, ss, d, s2)
  }

  lemma CompletesMore(s: State, ss: S.Stmts, d: set<nat>, s1: State, st: S.Stmt, rest: S.Stmts, d1: set<nat>,
        inLoop: bool, s2: State)
    requires Completes(s, ss, d, s1, S.Cons(st, rest), d1) && Ok(s1) && Executes(s1, st, d1, s2)
    requires S.Scoped(st, d1, inLoop)
    ensures Completes(s, ss, d, s2, rest, d1 + S.Declares(st))
  {
    hide Executes, ExecutesAll, Ok, S.Declares, S.Scoped;
    forall s3: State | ExecutesAll(s2, rest, d1 + S.Declares(st), s3)
      ensures ExecutesAll(s, ss, d, s3)
    {
      ConsExecutes(s1, st, rest, d1, inLoop, s2, s3);
    }
  }

  lemma CompletesDone(s: State, ss: S.Stmts, d: set<nat>, s1: State, d1: set<nat>)
    requires Completes(s, ss, d, s1, S.Nil, d1) && Ok(s1) && d1 <= s1.vars.Keys
    ensures Executes(s, S.Block(ss), d, s1)
  {
    hide Executes, ExecutesAll, Ok;
    NilExecutes(s1, d1);
    assert ExecutesAll(s, ss, d, s1);
    BlockExecutes(s, ss, d, s1);
  }

  /** The first statement of the rest of a block. */
  lemma HeadPrepared(s: State, rest: S.Stmts, d: set<nat>, inLoop: bool, whole: Option<S.Stmt>)
    requires InScope(s, d, whole) && rest.Cons? && S.ScopedAll(rest, d, inLoop) && PartOfAll(rest, whole)
    ensures Prepared(s, rest.head, d, inLoop, whole) && S.ScopedAll(rest.tail, d + S.Declares(rest.head), inLoop)
    ensures PartOfAll(rest.tail, whole)
  {
    hide InScope;
    if whole.Some? {
      assert forall x | S.Mutates(rest.head, x) :: S.MutatesAll(rest, x);
      assert forall x | S.MutatesAll(rest.tail, x) :: S.MutatesAll(rest, x);
    }
  }

  /** The statements of a block, one after the other. */
  method GenBlock(b: IrBuilder, ss: S.Stmts, ghost d: set<nat>, ghost inLoop: bool)
    requires Prepared(b.Now(), S.Block(ss), d, inLoop, b.currentFuncBody) && Settled(b.cert, b.Now(), d)
    modifies b`order, b`body, b`cur, b`nextVreg, b`nextBlock, b`loopCond, b`loopExit, b`vars, b`cert
    ensures Lowered(old(b.Now()), S.Block(ss), d, b.Now(), b.currentFuncBody)
    ensures Went(old(b.cert), old(b.Now()), b.cert, b.Now())
    decreases S.Block(ss), 0
  {
    hide Executes, ExecutesAll, Ok, PartOf, PartOfAll, PartOfE, Promoted, TargetsExist, S.Declares, S.ScopedAll,
      S.ScopedE, S.ScopedO, Settled, Carried, Went, Sound, Fit;
    ghost var c, s, whole := b.cert, b.Now(), b.currentFuncBody;
    PreparedKeeps(s, S.Block(ss), d, inLoop, whole);
    SettledParts(c, s, d);
    WentSelf(c, s);
    assert S.ScopedAll(ss, d, inLoop) && PartOf(S.Block(ss), whole);
    Parts(S.Block(ss), whole);
    var rest := ss;
    ghost var d1 := d;
    assert Completes(s, ss, d, s, ss, d);
    while rest.Cons?
      invariant rest == ss || rest < ss
      invariant b.currentFuncBody == whole
      invariant InScope(b.Now(), d1, whole) && S.ScopedAll(rest, d1, inLoop) && PartOfAll(rest, whole)
      invariant Completes(s, ss, d, b.Now(), rest, d1)
      invariant Settled(b.cert, b.Now(), d1) && Went(c, s, b.cert, b.Now())
      decreases rest
    {
      ghost var c1, s1 := b.cert, b.Now();
      HeadPrepared(s1, rest, d1, inLoop, whole);
      PreparedKeeps(s1, rest.head, d1, inLoop, whole);
      assert S.Scoped(rest.head, d1, inLoop);
      GenStatement(b, rest.head, d1, inLoop);
      assert Executes(s1, rest.head, d1, b.Now()) && Promoted(b.Now().vars, d1 + S.Declares(rest.head), whole);
      DeclaredInScope(s1, rest.head, d1, b.Now(), whole);
      CarriedWent(c1, s1, b.cert, b.Now(), d1 + S.Declares(rest.head));
      SettledNext(c1, s1, d1, rest.head, b.cert, b.Now());
      WentTransitive(c, s, c1, s1, b.cert, b.Now());
      CompletesMore(s, ss, d, s1, rest.head, rest.tail, d1, inLoop, b.Now());
      d1 := d1 + S.Declares(rest.head);
      rest := rest.tail;
    }
    assert Ok(b.Now()) && d1 <= b.Now().vars.Keys;
    CompletesDone(s, ss, d, b.Now(), d1);
    LoweredPlain(s, S.Block(ss), d, b.Now(), whole);
  }

  /** Jumps out of a loop; outside a loop nothing is generated. */
  method GenJumpOut(b: IrBuilder, st: S.Stmt, ghost d: set<nat>)
    requires Ok(b.Now()) && TargetsExist(b.Now()) && d <= b.vars.Keys && (st.Break? || st.Continue?)
    requires Settled(b.cert, b.Now(), d)
    modifies b`body
    ensures Executes(old(b.Now()), st, d, b.Now())
    ensures Went(b.cert, old(b.Now()), b.cert, b.Now())
  {
    hide Ok, Executes, Settled, Went, Sound, Goal, Fit;
    ghost var s := b.Now();
    SettledParts(b.cert, s, d);
    WentSelf(b.cert, s);
    var target := if st.Break? then b.loopExit else b.loopCond;
    if target.Some? {
      JumpOutExecutes(s, st, d, target.value);
      b.BuildJmp(target.value);
    } else {
      StrayJumpExecutes(s, st, d);
    }
  }

  /** `redde`. */
  method GenReturn(b: IrBuilder, e: Option<S.Expr>, ghost d: set<nat>)
    requires InScope(b.Now(), d, b.currentFuncBody)
    requires e.Some? ==> S.ScopedE(e.value, d) && PartOfE(e.value, b.currentFuncBody)
    requires Fit(b.cert, b.Now(), d)
    modifies b`order, b`body, b`cur, b`nextVreg, b`nextBlock, b`cert
    ensures Executes(old(b.Now()), S.Return(e), d, b.Now())
    ensures Went(old(b.cert), old(b.Now()), b.cert, b.Now())
  {
    hide Emit, Evaluates, Executes, Ok, PartOfE, Promoted, TargetsExist, S.ScopedE, Fit, Found, Went, Sound, Known;
    ghost var c, s := b.cert, b.Now();
    assert Ok(s) && d <= s.vars.Keys;
    FitSound(c, s, d);
    if e.Some? {
      var v := GenExprIn(b, e.value, d);
      ghost var c1, s1 := b.cert, b.Now();
      FoundParts(c, s, c1, s1, v);
      ReturnExecutes(s, e.value, d, s1, v);
      LeaveWent(c1, s1, Ret, [v]);
      b.CreateInst(Inst(Ret, None, [v]));
      WentTransitive(c, s, c1, s1, b.cert, b.Now());
    } else {
      StopExecutes(s, S.Return(None), d);
      LeaveWent(c, s, Ret, []);
      b.CreateInst(Inst(Ret, None, []));
    }
  }

  lemma LeaveWent(c: Cert, s: State, op: Opcode, ops: seq<Value>)
    requires Sound(c, s) && s.cur in s.body && (op.Ret? || op.Trap?) && forall k | 0 <= k < |ops| :: Known(c, s, ops[k])
    ensures Went(c, s, c, Emit(s, Inst(op, None, ops)))
  {
    hide Sound, Known, Extends, MayEmit;
    MayLeave(c, s, op, ops);
    EmitSound(c, s, Inst(op, None, ops));
  }

  /** Generates the code of a statement at the insertion point. */
  method GenStatement(b: IrBuilder, st: S.Stmt, ghost d: set<nat>, ghost inLoop: bool)
    requires Prepared(b.Now(), st, d, inLoop, b.currentFuncBody) && Settled(b.cert, b.Now(), d)
    modifies b`order, b`body, b`cur, b`nextVreg, b`nextBlock, b`loopCond, b`loopExit, b`vars, b`cert
    ensures Lowered(old(b.Now()), st, d, b.Now(), b.currentFuncBody)
    ensures Carried(old(b.cert), old(b.Now()), b.cert, b.Now(), d + S.Declares(st))
    ensures st.If? ==> Reduced(old(b.Now()), st.c, st.yes, st.no, b.Now())
    decreases st, 3
  {
    hide Reduced, Settled, Carried, Lowered, InScope, PartOf, Executes, S.ScopedAll, S.ScopedE, Went, Fit, Sound;
    ghost var c, s, whole := b.cert, b.Now(), b.currentFuncBody;
    SettledParts(c, s, d);
    if st.Decl? {
      DeclAnywhere(s, st, d, inLoop, whole);
      GenDecl(b, st.x, st.isBool, st.init, d);
    } else {
      GenPlain(b, st, d, inLoop);
      LoweredExecutes(s, st, d, b.Now(), whole);
      CarriedPlain(c, s, d, st, b.cert, b.Now());
    }
  }

  /** A statement that declares nothing. */
  method GenPlain(b: IrBuilder, st: S.Stmt, ghost d: set<nat>, ghost inLoop: bool)
    requires Prepared(b.Now(), st, d, inLoop, b.currentFuncBody) && Settled(b.cert, b.Now(), d) && !st.Decl?
    modifies b`order, b`body, b`cur, b`nextVreg, b`nextBlock, b`loopCond, b`loopExit, b`vars, b`cert
    ensures Lowered(old(b.Now()), st, d, b.Now(), b.currentFuncBody)
    ensures Went(old(b.cert), old(b.Now()), b.cert, b.Now())
    ensures st.If? ==> Reduced(old(b.Now()), st.c, st.yes, st.no, b.Now())
    decreases st, 2
  {
    hide Reduced, Emit, Evaluates, Executes, InScope, Lowered, Ok, PartOf, PartOfAll, PartOfE, ReturnInst, TargetsExist,
      S.Declares, S.ScopedAll, S.ScopedE, Settled, Went, Found, Fit, Sound, Known;
    ghost var c, s, whole := b.cert, b.Now(), b.currentFuncBody;
    PreparedKeeps(s, st, d, inLoop, whole);
    SettledParts(c, s, d);
    assert S.Scoped(st, d, inLoop) && PartOf(st, whole);
    Parts(st, whole);
    match st {
      case Block(ss) => GenBlock(b, ss, d, inLoop);
      case Eval(e) =>
        assert S.ScopedE(e, d);
        var v := GenExprIn(b, e, d);
        FoundWent(c, s, b.cert, b.Now(), v);
        EvalExecutes(s, e, d, b.Now(), v);
        LoweredPlain(s, st, d, b.Now(), whole);
      case If(c, yes, no) => GenIf(b, c, yes, no, d, inLoop);
      case While(c, body) => GenWhile(b, c, body, d, inLoop);
      case For(first, c, inc, body) => GenFor(b, first, c, inc, body, d, inLoop);
      case Break =>
        GenJumpOut(b, st, d);
        LoweredPlain(s, st, d, b.Now(), whole);
      case Continue =>
        GenJumpOut(b, st, d);
        LoweredPlain(s, st, d, b.Now(), whole);
      case Return(e) =>
        assert e.Some? ==> S.ScopedE(e.value, d);
        GenReturn(b, e, d);
        LoweredPlain(s, st, d, b.Now(), whole);
      case Halt =>
        StopExecutes(s, S.Halt, d);
        assert b.cur in b.body;
        LeaveWent(c, s, Trap, []);
        b.CreateInst(Inst(Trap, None, []));
        LoweredPlain(s, st, d, b.Now(), whole);
    }
  }

  lemma DeclAnywhere(s: State, st: S.Stmt, d: set<nat>, inLoop: bool, whole: Option<S.Stmt>)
    requires Prepared(s, st, d, inLoop, whole) && st.Decl?
    ensures Prepared(s, st, d, false, whole)
  {
    hide InScope, PartOf;
  }
}
