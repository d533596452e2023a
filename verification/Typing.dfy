/** The checks on types and names that a program passes before code is generated, and what they are worth. */
module Typing {
  import opened Sir
  import S = Source

  datatype Kind = Integer | Truth

  /** The declared types of the variables in scope. */
  type Kinds = map<nat, Kind>

  // ---------------------------------------------------------------------------------------------
  // The checker

  /** The type of an expression; `None` if it is refused.  Operands of one type are asked for, not which one. */
  function KindOf(e: S.Expr, g: Kinds): Option<Kind> {
    match e
    case Lit(_) => Some(Integer)
    case BoolLit(_) => Some(Truth)
    case Var(x) => if x in g then Some(g[x]) else None
    case Assign(x, op, v) =>
      if x in g && (op.Some? ==> op.value.IsArith()) && KindOf(v, g) == Some(g[x]) then Some(g[x]) else None
    case Bin(op, l, r) =>
      if !(op.IsArith() || op.IsCompare()) || KindOf(l, g).None? || KindOf(r, g) != KindOf(l, g) then None
      else if op.IsCompare() then Some(Truth)
      else KindOf(l, g)
    case Logic(_, l, r) => if KindOf(l, g).Some? && KindOf(r, g) == KindOf(l, g) then Some(Truth) else None
    case Not(v) => if KindOf(v, g) == Some(Truth) then Some(Truth) else None
    case Neg(v) => KindOf(v, g)
    case Compl(v) => KindOf(v, g)
  }

  /** Arithmetic and order are applied to integers, conjunction and disjunction to truth values; nothing is divided. */
  predicate Sane(e: S.Expr, g: Kinds) {
    match e
    case Lit(_) => true
    case BoolLit(_) => true
    case Var(_) => true
    case Assign(x, op, v) =>
      Sane(v, g) && (op.Some? ==> KindOf(v, g) == Some(Integer) && op.value != Div && op.value != Mod)
    case Bin(op, l, r) =>
      && Sane(l, g) && Sane(r, g) && op != Div && op != Mod
      && (op == IcmpEq || op == IcmpNe || KindOf(l, g) == Some(Integer))
    case Logic(_, l, r) => Sane(l, g) && Sane(r, g) && KindOf(l, g) == Some(Truth)
    case Not(v) => Sane(v, g)
    case Neg(v) => Sane(v, g) && KindOf(v, g) == Some(Integer)
    case Compl(v) => Sane(v, g) && KindOf(v, g) == Some(Integer)
  }

  predicate Accepted(e: S.Expr, g: Kinds, k: Kind, sane: bool) { KindOf(e, g) == Some(k) && (sane ==> Sane(e, g)) }

  /** As an expression statement or a returned value, of any type. */
  predicate AcceptedAny(e: S.Expr, g: Kinds, sane: bool) { exists k: Kind :: Accepted(e, g, k, sane) }

  predicate AcceptedO(e: Option<S.Expr>, g: Kinds, k: Kind, sane: bool) { e.Some? ==> Accepted(e.value, g, k, sane) }

  function Declared(isBool: bool): Kind { if isBool then Truth else Integer }

  /** The variables in scope behind a statement. */
  function Behind(s: S.Stmt, g: Kinds): Kinds { if s.Decl? then g[s.x := Declared(s.isBool)] else g }

  /** What the checker accepts; with `sane` it asks that of every expression too. */
  predicate Checks(s: S.Stmt, g: Kinds, inLoop: bool, sane: bool) {
    match s
    case Block(ss) => ChecksAll(ss, g, inLoop, sane)
    case Eval(e) => AcceptedAny(e, g, sane)
    case Decl(x, isBool, init) => x !in g && AcceptedO(init, g, Declared(isBool), sane)
    case If(c, yes, no) =>
      && Accepted(c, g, Truth, sane) && Checks(yes, g, inLoop, sane)
      && (no.Some? ==> Checks(no.value, g, inLoop, sane))
    case While(c, body) => Accepted(c, g, Truth, sane) && Checks(body, g, true, sane)
    case For(first, cond, inc, body) =>
      && (first.Some? ==> (first.value.Decl? || first.value.Eval?) && Checks(first.value, g, false, sane))
      && var g' := if first.Some? then Behind(first.value, g) else g;
         && AcceptedO(cond, g', Truth, sane) && (inc.Some? ==> AcceptedAny(inc.value, g', sane))
         && Checks(body, g', true, sane)
    case Break => inLoop
    case Continue => inLoop
    case Return(e) => e.Some? ==> AcceptedAny(e.value, g, sane)
    case Halt => true
  }

  predicate ChecksAll(ss: S.Stmts, g: Kinds, inLoop: bool, sane: bool) {
    match ss
    case Nil => true
    case Cons(s, rest) => Checks(s, g, inLoop, sane) && ChecksAll(rest, Behind(s, g), inLoop, sane)
  }

  /** The types of the parameters. */
  function ParamKinds(f: S.Function): Kinds { map x | x in f.params :: Declared(x in f.logica) }

  predicate FunctionChecks(f: S.Function, sane: bool) {
    && (forall i, j | 0 <= i < j < |f.params| :: f.params[i] != f.params[j])
    && Checks(f.body, ParamKinds(f), false, sane)
  }

  // ---------------------------------------------------------------------------------------------
  // Accepted programs are well scoped

  lemma {:induction false} KindIsScoped(e: S.Expr, g: Kinds)
    requires KindOf(e, g).Some?
    ensures S.ScopedE(e, g.Keys)
  {
    match e
    case Lit(_) =>
    case BoolLit(_) =>
    case Var(_) =>
    case Assign(_, _, v) => KindIsScoped(v, g);
    case Bin(_, l, r) => KindIsScoped(l, g); KindIsScoped(r, g);
    case Logic(_, l, r) => KindIsScoped(l, g); KindIsScoped(r, g);
    case Not(v) => KindIsScoped(v, g);
    case Neg(v) => KindIsScoped(v, g);
    case Compl(v) => KindIsScoped(v, g);
  }

  lemma {:induction false} CheckedIsScoped(s: S.Stmt, g: Kinds, inLoop: bool, sane: bool)
    requires Checks(s, g, inLoop, sane)
    ensures S.Scoped(s, g.Keys, inLoop) && Behind(s, g).Keys == g.Keys + S.Declares(s)
    decreases s
  {
    hide KindOf, Sane, S.ScopedE;
    match s
    case Block(ss) => AllScoped(ss, g, inLoop, sane);
    case Eval(e) => KindIsScoped(e, g);
    case Decl(_, _, init) => if init.Some? { KindIsScoped(init.value, g); }
    case If(c, yes, no) =>
      KindIsScoped(c, g);
      CheckedIsScoped(yes, g, inLoop, sane);
      if no.Some? { CheckedIsScoped(no.value, g, inLoop, sane); }
    case While(c, body) =>
      KindIsScoped(c, g);
      CheckedIsScoped(body, g, true, sane);
    case For(first, cond, inc, body) =>
      var g' := if first.Some? then Behind(first.value, g) else g;
      if first.Some? { CheckedIsScoped(first.value, g, false, sane); }
      if cond.Some? { KindIsScoped(cond.value, g'); }
      if inc.Some? { KindIsScoped(inc.value, g'); }
      CheckedIsScoped(body, g', true, sane);
      assert g'.Keys == g.Keys + if first.Some? then S.Declares(first.value) else {};
    case Return(e) => if e.Some? { KindIsScoped(e.value, g); }
    case _ =>
  }

  lemma {:induction false} AllScoped(ss: S.Stmts, g: Kinds, inLoop: bool, sane: bool)
    requires ChecksAll(ss, g, inLoop, sane)
    ensures S.ScopedAll(ss, g.Keys, inLoop)
    decreases ss
  {
    match ss
    case Nil =>
    case Cons(s, rest) =>
      CheckedIsScoped(s, g, inLoop, sane);
      AllScoped(rest, Behind(s, g), inLoop, sane);
  }

  // ---------------------------------------------------------------------------------------------
  // Accepted programs do not fail

  predicate OfKind(v: S.Val, k: Kind) { v.B? == k.Truth? }

  /** Every variable in scope has a value of its type. */
  predicate Covers(env: S.Env, g: Kinds) { forall x | x in g :: x in env && OfKind(env[x], g[x]) }

  predicate Fits(env: S.Env, g: Kinds) { env.Keys == g.Keys && Covers(env, g) }

  lemma OperandsOfKind(op: Opcode, l: S.Val, r: S.Val, k: Kind)
    requires (op.IsArith() || op.IsCompare()) && op != Div && op != Mod && OfKind(l, k) && OfKind(r, k)
    requires op == IcmpEq || op == IcmpNe || k == Integer
    ensures S.Operate(op, l, r).Some?
    ensures OfKind(S.Operate(op, l, r).value, if op.IsCompare() then Truth else k)
  {
    hide Wrap, BitOp, TruncDiv;
  }

  lemma AssignFits(env: S.Env, g: Kinds, x: nat, v: S.Val)
    requires Fits(env, g) && x in g && OfKind(v, g[x])
    ensures Fits(env[x := v], g)
  {}

  lemma VariableFits(env: S.Env, g: Kinds, x: nat)
    requires Fits(env, g) && x in g
    ensures x in env && OfKind(env[x], g[x])
  {}

  lemma AssignmentOfKind(x: nat, op: Option<Opcode>, v: S.Expr, env: S.Env, g: Kinds)
    requires Fits(env, g) && x in g && KindOf(S.Assign(x, op, v), g).Some? && Sane(S.Assign(x, op, v), g)
    requires S.Value(v, env).Some? && KindOf(v, g).Some?
    requires OfKind(S.Value(v, env).value.0, KindOf(v, g).value) && Fits(S.Value(v, env).value.1, g)
    ensures S.Value(S.Assign(x, op, v), env).Some?
    ensures OfKind(S.Value(S.Assign(x, op, v), env).value.0, g[x])
    ensures Fits(S.Value(S.Assign(x, op, v), env).value.1, g)
  {
    hide Fits, S.Operate;
    var p := S.Value(v, env).value;
    VariableFits(p.1, g, x);
    if op.Some? {
      OperandsOfKind(op.value, p.1[x], p.0, Integer);
      AssignFits(p.1, g, x, S.Operate(op.value, p.1[x], p.0).value);
    } else {
      AssignFits(p.1, g, x, p.0);
    }
  }

  lemma {:induction false} ValueOfKind(e: S.Expr, env: S.Env, g: Kinds)
    requires Fits(env, g) && KindOf(e, g).Some? && Sane(e, g)
    ensures S.Value(e, env).Some?
    ensures OfKind(S.Value(e, env).value.0, KindOf(e, g).value) && Fits(S.Value(e, env).value.1, g)
  {
    hide Fits, S.Operate, Wrap, BitOp;
    match e
    case Lit(_) =>
    case BoolLit(_) =>
    case Var(x) => VariableFits(env, g, x);
    case Assign(x, op, v) =>
      ValueOfKind(v, env, g);
      AssignmentOfKind(x, op, v, env, g);
    case Bin(op, l, r) =>
      ValueOfKind(l, env, g);
      ValueOfKind(r, S.Value(l, env).value.1, g);
      OperandsOfKind(op, S.Value(l, env).value.0, S.Value(r, S.Value(l, env).value.1).value.0, KindOf(l, g).value);
    case Logic(_, l, r) =>
      ValueOfKind(l, env, g);
      ValueOfKind(r, S.Value(l, env).value.1, g);
    case Not(v) => ValueOfKind(v, env, g);
    case Neg(v) => ValueOfKind(v, env, g);
    case Compl(v) => ValueOfKind(v, env, g);
  }

  /** No failure, and values of the declared types wherever control goes next. */
  predicate Sound(r: S.Res, g: Kinds, g': Kinds) {
    match r
    case Normal(e) => Fits(e, g')
    case Broke(e) => Covers(e, g)
    case Continued(e) => Covers(e, g)
    case Fails => false
    case _ => true
  }

  /** As `Sound` for what runs in a scope of its own. */
  predicate SoundInside(r: S.Res, g: Kinds) {
    match r
    case Normal(e) => Covers(e, g)
    case Broke(e) => Covers(e, g)
    case Continued(e) => Covers(e, g)
    case Fails => false
    case _ => true
  }

  lemma CloseIsSound(r: S.Res, g: Kinds)
    requires SoundInside(r, g)
    ensures Sound(S.Close(r, g.Keys), g, g)
    ensures S.Close(r, g.Keys).Broke? || S.Close(r, g.Keys).Continued? ==> Fits(S.Close(r, g.Keys).env, g)
  {
    if r.Normal? || r.Broke? || r.Continued? { assert S.Within(r.env, g.Keys).Keys == g.Keys; }
  }

  lemma BehindCovers(s: S.Stmt, env: S.Env, g: Kinds)
    requires Covers(env, Behind(s, g)) && (s.Decl? ==> s.x !in g)
    ensures Covers(env, g)
  {
    forall x | x in g
      ensures x in env && OfKind(env[x], g[x])
    {
      assert x in Behind(s, g) && Behind(s, g)[x] == g[x];
    }
  }

  lemma {:induction false} RunIsSound(s: S.Stmt, env: S.Env, g: Kinds, n: nat, inLoop: bool)
    requires Checks(s, g, inLoop, true) && Fits(env, g)
    ensures Sound(S.Run(s, env, n), g, Behind(s, g))
    decreases n, s, 0
  {
    hide Fits, Covers, KindOf, Sane, S.Value, S.Close, S.RunLoop;
    assert env.Keys == g.Keys by { KeysFit(env, g); }
    match s
    case Block(ss) =>
      RunAllIsSound(ss, env, g, n, inLoop);
      CloseIsSound(S.RunAll(ss, env, n), g);
    case Eval(e) => ValueOfKind(e, env, g);
    case Decl(x, isBool, init) => DeclIsSound(s, env, g, n);
    case If(c, yes, no) =>
      ValueOfKind(c, env, g);
      var e := S.Value(c, env).value.1;
      KeysFit(e, g);
      RunIsSound(yes, e, g, n, inLoop);
      BranchIsSound(yes, e, g, n);
      if no.Some? {
        RunIsSound(no.value, e, g, n, inLoop);
        BranchIsSound(no.value, e, g, n);
      }
    case While(c, body) => LoopIsSound(Some(c), None, body, env, g, n);
    case For(first, cond, inc, body) =>
      if first.None? {
        LoopIsSound(cond, inc, body, env, g, n);
      } else {
        RunIsSound(first.value, env, g, n, false);
        FirstEnds(first.value, env, n);
        if S.Run(first.value, env, n).Normal? {
          var e := S.Run(first.value, env, n).env;
          LoopIsSound(cond, inc, body, e, Behind(first.value, g), n);
          LoopInScope(first.value, S.RunLoop(cond, inc, body, e, n), g);
        }
      }
    case Return(e) => if e.Some? { ValueOfKind(e.value, env, g); }
    case _ => FitsCovers(env, g);
  }

  lemma KeysFit(env: S.Env, g: Kinds)
    requires Fits(env, g)
    ensures env.Keys == g.Keys
  {}

  lemma FitsCovers(env: S.Env, g: Kinds)
    requires Fits(env, g)
    ensures Covers(env, g)
  {}

  lemma DeclIsSound(s: S.Stmt, env: S.Env, g: Kinds, n: nat)
    requires s.Decl? && Checks(s, g, false, true) && Fits(env, g)
    ensures Sound(S.Run(s, env, n), g, Behind(s, g))
  {
    hide KindOf, Sane, S.Value;
    if s.init.Some? { ValueOfKind(s.init.value, env, g); }
  }

  lemma BranchIsSound(s: S.Stmt, env: S.Env, g: Kinds, n: nat)
    requires Sound(S.Run(s, env, n), g, Behind(s, g)) && (s.Decl? ==> s.x !in g)
    ensures Sound(S.Close(S.Run(s, env, n), g.Keys), g, g)
    ensures var r := S.Close(S.Run(s, env, n), g.Keys); r.Broke? || r.Continued? ==> Fits(r.env, g)
  {
    hide S.Run, S.Close, Covers;
    var r := S.Run(s, env, n);
    if r.Normal? { BehindCovers(s, r.env, g); }
    CloseIsSound(r, g);
  }

  lemma FirstEnds(s: S.Stmt, env: S.Env, n: nat)
    requires s.Decl? || s.Eval?
    ensures S.Run(s, env, n).Normal? || S.Run(s, env, n).Fails?
  {
    hide S.Value;
  }

  /** The variable of a loop's head goes out of scope behind the loop. */
  lemma LoopInScope(first: S.Stmt, r: S.Res, g: Kinds)
    requires Sound(r, Behind(first, g), Behind(first, g)) && !r.Broke? && !r.Continued?
    requires first.Decl? ==> first.x !in g
    ensures Sound(S.Close(r, g.Keys), g, g)
  {
    hide S.Close, Covers;
    if r.Normal? { BehindCovers(first, r.env, g); }
    CloseIsSound(r, g);
  }

  lemma {:induction false} RunAllIsSound(ss: S.Stmts, env: S.Env, g: Kinds, n: nat, inLoop: bool)
    requires ChecksAll(ss, g, inLoop, true) && Fits(env, g)
    ensures SoundInside(S.RunAll(ss, env, n), g)
    decreases n, ss, 0
  {
    hide Covers, Checks, S.Run;
    match ss
    case Nil =>
    case Cons(s, rest) =>
      RunIsSound(s, env, g, n, inLoop);
      match S.Run(s, env, n)
      case Normal(e) =>
        RunAllIsSound(rest, e, Behind(s, g), n, inLoop);
        InsideBehind(s, S.RunAll(rest, e, n), g, inLoop);
      case _ =>
  }

  lemma InsideBehind(s: S.Stmt, r: S.Res, g: Kinds, inLoop: bool)
    requires Checks(s, g, inLoop, true) && SoundInside(r, Behind(s, g))
    ensures SoundInside(r, g)
  {
    hide Covers, KindOf, Sane, Accepted, AcceptedAny;
    if r.Normal? || r.Broke? || r.Continued? { BehindCovers(s, r.env, g); }
  }

  lemma {:induction false} LoopIsSound(c: Option<S.Expr>, inc: Option<S.Expr>, body: S.Stmt, env: S.Env, g: Kinds,
        n: nat)
    requires AcceptedO(c, g, Truth, true) && (inc.Some? ==> AcceptedAny(inc.value, g, true))
    requires Checks(body, g, true, true) && Fits(env, g)
    ensures Sound(S.RunLoop(c, inc, body, env, n), g, g)
    ensures !S.RunLoop(c, inc, body, env, n).Broke? && !S.RunLoop(c, inc, body, env, n).Continued?
    decreases n, body, 2
  {
    hide S.Run, S.RunLoop, S.Again, S.Test, S.Advance, S.Close, Fits, Covers, KindOf, Sane, Checks, Accepted,
      AcceptedAny;
    S.LoopUnfolds(c, inc, body, env, n);
    TestIsSound(c, env, g);
    if n > 0 && S.Test(c, env).value.0 == S.B(true) {
      var e := S.Test(c, env).value.1;
      KeysFit(e, g);
      RunIsSound(body, e, g, n, true);
      DeclaresNew(body, g, true);
      BranchIsSound(body, e, g, n);
      var r := S.Close(S.Run(body, e, n), g.Keys);
      if r.Normal? || r.Continued? {
        AdvanceIsSound(inc, r.env, g);
        LoopIsSound(c, inc, body, S.Advance(inc, r.env).value, g, n - 1);
      }
    } else if n > 0 {
      LoopStops(c, inc, body, env, n);
      FitsCovers(S.Test(c, env).value.1, g);
    }
  }

  lemma LoopStops(c: Option<S.Expr>, inc: Option<S.Expr>, body: S.Stmt, env: S.Env, n: nat)
    requires n > 0 && S.Test(c, env).Some? && S.Test(c, env).value.0 == S.B(false)
    ensures S.RunLoop(c, inc, body, env, n) == S.Normal(S.Test(c, env).value.1)
  {
    hide S.Test;
  }

  lemma DeclaresNew(s: S.Stmt, g: Kinds, inLoop: bool)
    requires Checks(s, g, inLoop, true)
    ensures s.Decl? ==> s.x !in g
  {
    hide KindOf, Sane, Accepted, AcceptedAny;
  }

  lemma TestIsSound(c: Option<S.Expr>, env: S.Env, g: Kinds)
    requires AcceptedO(c, g, Truth, true) && Fits(env, g)
    ensures S.Test(c, env).Some? && S.Test(c, env).value.0.B? && Fits(S.Test(c, env).value.1, g)
  {
    hide KindOf, Sane, S.Value;
    if c.Some? { ValueOfKind(c.value, env, g); }
  }

  lemma AdvanceIsSound(inc: Option<S.Expr>, env: S.Env, g: Kinds)
    requires (inc.Some? ==> AcceptedAny(inc.value, g, true)) && Fits(env, g)
    ensures S.Advance(inc, env).Some? && Fits(S.Advance(inc, env).value, g)
  {
    hide KindOf, Sane, S.Value;
    if inc.Some? { ValueOfKind(inc.value, env, g); }
  }

  // ---------------------------------------------------------------------------------------------
  // Functions

  /** Arguments of the parameters' types. */
  predicate ArgsMatch(f: S.Function, args: seq<S.Val>) {
    |args| == |f.params| && forall i | 0 <= i < |args| :: OfKind(args[i], Declared(f.params[i] in f.logica))
  }

  lemma {:induction false} BindFits(params: seq<nat>, logica: set<nat>, args: seq<S.Val>)
    requires |args| == |params| && forall i, j | 0 <= i < j < |params| :: params[i] != params[j]
    requires forall i | 0 <= i < |args| :: OfKind(args[i], Declared(params[i] in logica))
    ensures Fits(S.Bind(params, args), map x | x in params :: Declared(x in logica))
    decreases |params|
  {
    if params != [] {
      var n := |params| - 1;
      BindFits(params[..n], logica, args[..n]);
      assert params == params[..n] + [params[n]];
    }
  }

  /** A function the checker accepts is well scoped, and no call of it fails that is given arguments of the parameters'
      types, if it is sane: the source leaves nothing undefined but division. */
  lemma CheckedCallsDoNotFail(f: S.Function, args: seq<S.Val>, n: nat)
    requires FunctionChecks(f, true) && ArgsMatch(f, args)
    ensures !S.Call(f, args, n).Fails?
  {
    hide Checks, S.Run, S.Bind, Fits, Covers;
    BindFits(f.params, f.logica, args);
    RunIsSound(f.body, S.Bind(f.params, args), ParamKinds(f), n, false);
  }

  lemma CheckedFunctionIsOk(f: S.Function, sane: bool)
    requires FunctionChecks(f, sane)
    ensures S.FunctionOk(f)
  {
    hide Checks, S.Scoped;
    CheckedIsScoped(f.body, ParamKinds(f), false, sane);
    assert ParamKinds(f).Keys == set x | x in f.params;
  }
}
