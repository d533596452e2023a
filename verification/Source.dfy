/** Structured function bodies over integer and truth-value variables, and what they mean. */
module Source {
  import opened Sir

  // ---------------------------------------------------------------------------------------------
  // Syntax; variables are resolved symbols

  datatype Expr =
    | Lit(i: i64)
    | BoolLit(b: bool)
    | Var(x: nat)
    | Assign(target: nat, compound: Option<Opcode>, value: Expr)
    | Bin(op: Opcode, l: Expr, r: Expr)
    | Logic(isAnd: bool, l: Expr, r: Expr)
    | Not(e: Expr)
    | Neg(e: Expr)
    | Compl(e: Expr)

  datatype Stmt =
    | Block(ss: Stmts)
    | Eval(e: Expr)
    | Decl(x: nat, isBool: bool, init: Option<Expr>)
    | If(c: Expr, yes: Stmt, no: Option<Stmt>)
    | While(c: Expr, body: Stmt)
    | For(first: Option<Stmt>, cond: Option<Expr>, inc: Option<Expr>, body: Stmt)
    | Break
    | Continue
    | Return(value: Option<Expr>)
    | Halt

  datatype Stmts = Nil | Cons(head: Stmt, tail: Stmts)

  // ---------------------------------------------------------------------------------------------
  // Meaning

  datatype Val = I(i: i64) | B(b: bool)

  type Env = map<nat, Val>

  /** A truth value is stored as 0 or 1. */
  function Enc(v: Val): i64 {
    match v
    case I(i) => i
    case B(b) => if b then 1 else 0
  }

  /** A variable keeps the type of its declaration. */
  predicate SameKind(v: Val, w: Val) { v.B? == w.B? }

  /** Arithmetic needs integers; equality also compares truth values. */
  function Operate(op: Opcode, l: Val, r: Val): Option<Val> {
    if l.I? && r.I? && op.IsArith() then
      match Binary(op, l.i, r.i)
      case None => None
      case Some(v) => Some(I(v))
    else if l.I? && r.I? && op.IsCompare() then Some(B(Binary(op, l.i, r.i) == Some(1)))
    else if l.B? && r.B? && op.IcmpEq? then Some(B(l.b == r.b))
    else if l.B? && r.B? && op.IcmpNe? then Some(B(l.b != r.b))
    else None
  }

  /** Operands are evaluated from left to right; `None` is a fault. */
  function Value(e: Expr, env: Env): Option<(Val, Env)> {
    match e
    case Lit(i) => Some((I(i), env))
    case BoolLit(b) => Some((B(b), env))
    case Var(x) => if x in env then Some((env[x], env)) else None
    case Assign(x, op, e) =>
      (match Value(e, env)
       case None => None
       case Some(p) =>
         if x !in p.1 then None
         else if op.None? then (if SameKind(p.0, p.1[x]) then Some((p.0, p.1[x := p.0])) else None)
         else if !op.value.IsArith() then None
         else
           match Operate(op.value, p.1[x], p.0)
           case None => None
           case Some(v) => Some((v, p.1[x := v])))
    case Bin(op, l, r) =>
      (match Value(l, env)
       case None => None
       case Some(p) =>
         match Value(r, p.1)
         case None => None
         case Some(q) =>
           match Operate(op, p.0, q.0)
           case None => None
           case Some(v) => Some((v, q.1)))
    case Logic(isAnd, l, r) =>
      (match Value(l, env)
       case None => None
       case Some(p) =>
         if !p.0.B? then None
         else if p.0.b != isAnd then Some(p)
         else
           match Value(r, p.1)
           case None => None
           case Some(q) => if q.0.B? then Some(q) else None)
    case Not(e) =>
      (match Value(e, env)
       case None => None
       case Some(p) => if p.0.B? then Some((B(!p.0.b), p.1)) else None)
    case Neg(e) =>
      (match Value(e, env)
       case None => None
       case Some(p) => if p.0.I? then Some((I(Wrap(0 - p.0.i)), p.1)) else None)
    case Compl(e) =>
      (match Value(e, env)
       case None => None
       case Some(p) => if p.0.I? then Some((I(BitOp(Xor, p.0.i, -1)), p.1)) else None)
  }

  /** How a statement ends.  `Endless` means that the fuel for loop iterations ran out. */
  datatype Res =
    Normal(env: Env) | Broke(env: Env) | Continued(env: Env) | Returns(v: Option<Val>) | Halts | Fails | Endless

  /** Variables declared inside go out of scope. */
  function Close(r: Res, keys: set<nat>): Res {
    match r
    case Normal(e) => Normal(Within(e, keys))
    case Broke(e) => Broke(Within(e, keys))
    case Continued(e) => Continued(Within(e, keys))
    case _ => r
  }

  function Within(env: Env, keys: set<nat>): Env { map x | x in env && x in keys :: env[x] }

  function Run(s: Stmt, env: Env, n: nat): Res
    decreases n, s, 0
  {
    match s
    case Block(ss) => Close(RunAll(ss, env, n), env.Keys)
    case Eval(e) =>
      (match Value(e, env)
       case None => Fails
       case Some(p) => Normal(p.1))
    case Decl(x, isBool, init) =>
      if init.None? then Normal(env[x := if isBool then B(false) else I(0)])
      else
        (match Value(init.value, env)
         case None => Fails
         case Some(p) => if p.0.B? == isBool then Normal(p.1[x := p.0]) else Fails)
    case If(c, yes, no) =>
      (match Value(c, env)
       case None => Fails
       case Some(p) =>
         if !p.0.B? then Fails
         else if p.0.b then Close(Run(yes, p.1, n), p.1.Keys)
         else if no.None? then Normal(p.1)
         else Close(Run(no.value, p.1, n), p.1.Keys))
    case While(c, body) => RunLoop(Some(c), None, body, env, n)
    case For(first, cond, inc, body) =>
      if first.None? then RunLoop(cond, inc, body, env, n)
      else
        (match Run(first.value, env, n)
         case Normal(e) => Close(RunLoop(cond, inc, body, e, n), env.Keys)
         case r => r)
    case Break => Broke(env)
    case Continue => Continued(env)
    case Return(e) =>
      if e.None? then Returns(None)
      else
        (match Value(e.value, env)
         case None => Fails
         case Some(p) => Returns(Some(p.0)))
    case Halt => Halts
  }

  function RunAll(ss: Stmts, env: Env, n: nat): Res
    decreases n, ss, 0
  {
    match ss
    case Nil => Normal(env)
    case Cons(s, rest) =>
      match Run(s, env, n)
      case Normal(e) => RunAll(rest, e, n)
      case r => r
  }

  /** The condition of a loop; a missing one is true. */
  function Test(c: Option<Expr>, env: Env): Option<(Val, Env)> {
    if c.None? then Some((B(true), env)) else Value(c.value, env)
  }

  /** What is done between two iterations. */
  function Advance(inc: Option<Expr>, env: Env): Option<Env> {
    if inc.None? then Some(env)
    else
      match Value(inc.value, env)
      case None => None
      case Some(p) => Some(p.1)
  }

  function RunLoop(c: Option<Expr>, inc: Option<Expr>, body: Stmt, env: Env, n: nat): Res
    decreases n, body, 2
  {
    if n == 0 then Endless
    else
      match Test(c, env)
      case None => Fails
      case Some(p) =>
        if !p.0.B? then Fails
        else if !p.0.b then Normal(p.1)
        else
          match Close(Run(body, p.1, n), p.1.Keys)
          case Broke(e) => Normal(e)
          case Normal(e) => Again(c, inc, body, e, n)
          case Continued(e) => Again(c, inc, body, e, n)
          case r => r
  }

  function Again(c: Option<Expr>, inc: Option<Expr>, body: Stmt, env: Env, n: nat): Res
    requires n > 0
    decreases n, body, 1
  {
    match Advance(inc, env)
    case None => Fails
    case Some(e) => RunLoop(c, inc, body, e, n - 1)
  }

  // ---------------------------------------------------------------------------------------------
  // Scoping, as the symbol table enforces it

  predicate ScopedE(e: Expr, d: set<nat>) {
    match e
    case Lit(_) => true
    case BoolLit(_) => true
    case Var(x) => x in d
    case Assign(x, op, e) => x in d && (op.Some? ==> op.value.IsArith()) && ScopedE(e, d)
    case Bin(op, l, r) => (op.IsArith() || op.IsCompare()) && ScopedE(l, d) && ScopedE(r, d)
    case Logic(_, l, r) => ScopedE(l, d) && ScopedE(r, d)
    case Not(e) => ScopedE(e, d)
    case Neg(e) => ScopedE(e, d)
    case Compl(e) => ScopedE(e, d)
  }

  predicate ScopedO(e: Option<Expr>, d: set<nat>) { e.Some? ==> ScopedE(e.value, d) }

  /** The symbol a statement adds to its scope. */
  function Declares(s: Stmt): set<nat> { if s.Decl? then {s.x} else {} }

  /** Variables are declared before use and only once per scope; jumps out of loops stand inside one. */
  predicate Scoped(s: Stmt, d: set<nat>, inLoop: bool) {
    match s
    case Block(ss) => ScopedAll(ss, d, inLoop)
    case Eval(e) => ScopedE(e, d)
    case Decl(x, _, init) => x !in d && ScopedO(init, d)
    case If(c, yes, no) => ScopedE(c, d) && Scoped(yes, d, inLoop) && (no.Some? ==> Scoped(no.value, d, inLoop))
    case While(c, body) => ScopedE(c, d) && Scoped(body, d, true)
    case For(first, cond, inc, body) =>
      && (first.Some? ==> (first.value.Decl? || first.value.Eval?) && Scoped(first.value, d, false))
      && var d' := d + if first.Some? then Declares(first.value) else {};
         ScopedO(cond, d') && ScopedO(inc, d') && Scoped(body, d', true)
    case Break => inLoop
    case Continue => inLoop
    case Return(e) => ScopedO(e, d)
    case Halt => true
  }

  predicate ScopedAll(ss: Stmts, d: set<nat>, inLoop: bool) {
    match ss
    case Nil => true
    case Cons(s, rest) => Scoped(s, d, inLoop) && ScopedAll(rest, d + Declares(s), inLoop)
  }

  /** Expressions keep the scope. */
  lemma {:induction false} ValueKeepsScope(e: Expr, env: Env)
    ensures Value(e, env).Some? ==> Value(e, env).value.1.Keys == env.Keys
  {
    match e
    case Lit(_) =>
    case BoolLit(_) =>
    case Var(_) =>
    case Assign(_, _, e) => ValueKeepsScope(e, env);
    case Bin(_, l, r) =>
      ValueKeepsScope(l, env);
      if Value(l, env).Some? { ValueKeepsScope(r, Value(l, env).value.1); }
    case Logic(_, l, r) =>
      ValueKeepsScope(l, env);
      if Value(l, env).Some? { ValueKeepsScope(r, Value(l, env).value.1); }
    case Not(e) => ValueKeepsScope(e, env);
    case Neg(e) => ValueKeepsScope(e, env);
    case Compl(e) => ValueKeepsScope(e, env);
  }

  /** The scope a result leaves behind. */
  predicate KeysOk(r: Res, d: set<nat>, added: set<nat>) {
    match r
    case Normal(e) => e.Keys == d + added
    case Broke(e) => d <= e.Keys
    case Continued(e) => d <= e.Keys
    case _ => true
  }

  lemma CloseKeys(r: Res, d: set<nat>, added: set<nat>)
    requires KeysOk(r, d, added)
    ensures KeysOk(Close(r, d), d, {})
    ensures match Close(r, d) case Broke(e) => e.Keys == d case Continued(e) => e.Keys == d case _ => true
  {
    match r
    case Normal(e) => assert Within(e, d).Keys == d;
    case Broke(e) => assert Within(e, d).Keys == d;
    case Continued(e) => assert Within(e, d).Keys == d;
    case _ =>
  }

  lemma {:induction false} RunKeepsScope(s: Stmt, env: Env, n: nat, inLoop: bool)
    requires Scoped(s, env.Keys, inLoop)
    ensures KeysOk(Run(s, env, n), env.Keys, Declares(s))
    ensures !inLoop ==> !Run(s, env, n).Broke? && !Run(s, env, n).Continued?
    decreases n, s, 0
  {
    match s
    case Block(ss) =>
      RunAllKeepsScope(ss, env, n, inLoop);
      AllKeys(RunAll(ss, env, n), env.Keys);
    case Eval(e) => ValueKeepsScope(e, env);
    case Decl(x, _, init) => if init.Some? { ValueKeepsScope(init.value, env); }
    case If(c, yes, no) =>
      ValueKeepsScope(c, env);
      if Value(c, env).Some? && Value(c, env).value.0.B? {
        var p := Value(c, env).value;
        if p.0.b {
          RunKeepsScope(yes, p.1, n, inLoop);
          CloseKeys(Run(yes, p.1, n), p.1.Keys, Declares(yes));
        } else if no.Some? {
          RunKeepsScope(no.value, p.1, n, inLoop);
          CloseKeys(Run(no.value, p.1, n), p.1.Keys, Declares(no.value));
        }
      }
    case While(c, body) => LoopKeepsScope(Some(c), None, body, env, n);
    case For(first, cond, inc, body) =>
      if first.None? {
        assert env.Keys == env.Keys + {};
        LoopKeepsScope(cond, inc, body, env, n);
      } else {
        RunKeepsScope(first.value, env, n, false);
        if Run(first.value, env, n).Normal? {
          var e := Run(first.value, env, n).env;
          LoopKeepsScope(cond, inc, body, e, n);
          AllKeys(RunLoop(cond, inc, body, e, n), env.Keys);
        }
      }
    case _ =>
  }

  lemma AllKeys(r: Res, d: set<nat>)
    requires match r
      case Normal(e) => d <= e.Keys
      case Broke(e) => d <= e.Keys
      case Continued(e) => d <= e.Keys
      case _ => true
    ensures KeysOk(Close(r, d), d, {})
  {
    match r
    case Normal(e) => assert Within(e, d).Keys == d;
    case Broke(e) => assert Within(e, d).Keys == d;
    case Continued(e) => assert Within(e, d).Keys == d;
    case _ =>
  }

  lemma {:induction false} RunAllKeepsScope(ss: Stmts, env: Env, n: nat, inLoop: bool)
    requires ScopedAll(ss, env.Keys, inLoop)
    ensures match RunAll(ss, env, n)
      case Normal(e) => env.Keys <= e.Keys
      case Broke(e) => env.Keys <= e.Keys
      case Continued(e) => env.Keys <= e.Keys
      case _ => true
    ensures !inLoop ==> !RunAll(ss, env, n).Broke? && !RunAll(ss, env, n).Continued?
    decreases n, ss, 0
  {
    match ss
    case Nil =>
    case Cons(s, rest) =>
      RunKeepsScope(s, env, n, inLoop);
      match Run(s, env, n)
      case Normal(e) => RunAllKeepsScope(rest, e, n, inLoop);
      case _ =>
  }

  lemma TestKeepsScope(c: Option<Expr>, env: Env)
    ensures Test(c, env).Some? ==> Test(c, env).value.1.Keys == env.Keys
  {
    if c.Some? { ValueKeepsScope(c.value, env); }
  }

  lemma AdvanceKeepsScope(inc: Option<Expr>, env: Env)
    ensures Advance(inc, env).Some? ==> Advance(inc, env).value.Keys == env.Keys
  {
    if inc.Some? { ValueKeepsScope(inc.value, env); }
  }

  /** One round of a loop. */
  lemma LoopUnfolds(c: Option<Expr>, inc: Option<Expr>, body: Stmt, env: Env, n: nat)
    ensures n == 0 ==> RunLoop(c, inc, body, env, n) == Endless
    ensures n > 0 && !(Test(c, env).Some? && Test(c, env).value.0 == B(true)) ==>
              RunLoop(c, inc, body, env, n) == Fails
              || (Test(c, env).Some? && RunLoop(c, inc, body, env, n) == Normal(Test(c, env).value.1))
    ensures n > 0 && Test(c, env).Some? && Test(c, env).value.0 == B(true) ==>
              var r := Close(Run(body, Test(c, env).value.1, n), Test(c, env).value.1.Keys);
              RunLoop(c, inc, body, env, n) ==
                if r.Broke? then Normal(r.env)
                else if r.Normal? || r.Continued? then
                  if Advance(inc, r.env).None? then Fails else RunLoop(c, inc, body, Advance(inc, r.env).value, n - 1)
                else r
  {
    hide Run, Test, Advance, Close;
  }

  lemma {:induction false} LoopKeepsScope(c: Option<Expr>, inc: Option<Expr>, body: Stmt, env: Env, n: nat)
    requires ScopedO(c, env.Keys) && ScopedO(inc, env.Keys) && Scoped(body, env.Keys, true)
    ensures KeysOk(RunLoop(c, inc, body, env, n), env.Keys, {})
    ensures !RunLoop(c, inc, body, env, n).Broke? && !RunLoop(c, inc, body, env, n).Continued?
    decreases n, body, 2
  {
    hide Run, RunLoop, Again, Test, Advance, Scoped, ScopedO, Close;
    LoopUnfolds(c, inc, body, env, n);
    TestKeepsScope(c, env);
    if n > 0 && Test(c, env).Some? && Test(c, env).value.0 == B(true) {
      var e := Test(c, env).value.1;
      RunKeepsScope(body, e, n, true);
      var r := Close(Run(body, e, n), e.Keys);
      CloseKeys(Run(body, e, n), e.Keys, Declares(body));
      if r.Normal? || r.Continued? {
        assert r.env.Keys == env.Keys;
        AdvanceKeepsScope(inc, r.env);
        if Advance(inc, r.env).Some? { LoopKeepsScope(c, inc, body, Advance(inc, r.env).value, n - 1); }
      }
    }
  }

  // ---------------------------------------------------------------------------------------------
  // Which variables a body assigns

  predicate MutatesE(e: Expr, x: nat) {
    match e
    case Lit(_) => false
    case BoolLit(_) => false
    case Var(_) => false
    case Assign(y, _, e) => y == x || MutatesE(e, x)
    case Bin(_, l, r) => MutatesE(l, x) || MutatesE(r, x)
    case Logic(_, l, r) => MutatesE(l, x) || MutatesE(r, x)
    case Not(e) => MutatesE(e, x)
    case Neg(e) => MutatesE(e, x)
    case Compl(e) => MutatesE(e, x)
  }

  predicate MutatesO(e: Option<Expr>, x: nat) { e.Some? && MutatesE(e.value, x) }

  predicate Mutates(s: Stmt, x: nat) {
    match s
    case Block(ss) => MutatesAll(ss, x)
    case Eval(e) => MutatesE(e, x)
    case Decl(_, _, init) => MutatesO(init, x)
    case If(c, yes, no) => MutatesE(c, x) || Mutates(yes, x) || (no.Some? && Mutates(no.value, x))
    case While(c, body) => MutatesE(c, x) || Mutates(body, x)
    case For(first, cond, inc, body) => (first.Some? && Mutates(first.value, x)) || MutatesO(cond, x) ||
      MutatesO(inc, x) || Mutates(body, x)
    case Break => false
    case Continue => false
    case Return(e) => MutatesO(e, x)
    case Halt => false
  }

  predicate MutatesAll(ss: Stmts, x: nat) {
    match ss
    case Nil => false
    case Cons(s, rest) => Mutates(s, x) || MutatesAll(rest, x)
  }

  /** The expression `a` is `e` or stands somewhere in it. */
  predicate Part(a: Expr, e: Expr) {
    a == e
    || match e
      case Assign(_, _, v) => Part(a, v)
      case Bin(_, l, r) => Part(a, l) || Part(a, r)
      case Logic(_, l, r) => Part(a, l) || Part(a, r)
      case Not(v) => Part(a, v)
      case Neg(v) => Part(a, v)
      case Compl(v) => Part(a, v)
      case _ => false
  }

  predicate PartO(a: Expr, e: Option<Expr>) { e.Some? && Part(a, e.value) }

  predicate PartOf(a: Expr, s: Stmt) {
    match s
    case Block(ss) => PartOfAll(a, ss)
    case Eval(e) => Part(a, e)
    case Decl(_, _, init) => PartO(a, init)
    case If(c, yes, no) => Part(a, c) || PartOf(a, yes) || (no.Some? && PartOf(a, no.value))
    case While(c, body) => Part(a, c) || PartOf(a, body)
    case For(first, cond, inc, body) =>
      (first.Some? && PartOf(a, first.value)) || PartO(a, cond) || PartO(a, inc) || PartOf(a, body)
    case Return(e) => PartO(a, e)
    case _ => false
  }

  predicate PartOfAll(a: Expr, ss: Stmts) { ss.Cons? && (PartOf(a, ss.head) || PartOfAll(a, ss.tail)) }

  ghost predicate IsAssignment(a: Expr, x: nat) { exists op: Option<Opcode>, v: Expr :: a == Assign(x, op, v) }

  /** The scan finds a variable exactly if an assignment to it stands somewhere in the body. */
  lemma MutatesExactly(s: Stmt, x: nat)
    ensures Mutates(s, x) <==> exists a: Expr :: IsAssignment(a, x) && PartOf(a, s)
  {
    if Mutates(s, x) { var a := AssignmentIn(s, x); }
    forall a: Expr | IsAssignment(a, x) && PartOf(a, s) ensures Mutates(s, x) { FoundIn(a, s, x); }
  }

  lemma {:induction false} AssignmentInside(e: Expr, x: nat) returns (a: Expr)
    requires MutatesE(e, x)
    ensures IsAssignment(a, x) && Part(a, e)
  {
    match e
    case Assign(y, _, v) =>
      a := e;
      if y != x { a := AssignmentInside(v, x); }
    case Bin(_, l, r) => if MutatesE(l, x) { a := AssignmentInside(l, x); } else { a := AssignmentInside(r, x); }
    case Logic(_, l, r) => if MutatesE(l, x) { a := AssignmentInside(l, x); } else { a := AssignmentInside(r, x); }
    case Not(v) => a := AssignmentInside(v, x);
    case Neg(v) => a := AssignmentInside(v, x);
    case Compl(v) => a := AssignmentInside(v, x);
  }

  lemma {:induction false} AssignmentIn(s: Stmt, x: nat) returns (a: Expr)
    requires Mutates(s, x)
    ensures IsAssignment(a, x) && PartOf(a, s)
    decreases s
  {
    hide IsAssignment, MutatesE, Part;
    match s
    case Block(ss) => a := AssignmentInAll(ss, x);
    case Eval(e) => a := AssignmentInside(e, x);
    case Decl(_, _, init) => a := AssignmentInside(init.value, x);
    case If(c, yes, no) =>
      if MutatesE(c, x) { a := AssignmentInside(c, x); }
      else if Mutates(yes, x) { a := AssignmentIn(yes, x); }
      else { a := AssignmentIn(no.value, x); }
    case While(c, body) => if MutatesE(c, x) { a := AssignmentInside(c, x); } else { a := AssignmentIn(body, x); }
    case For(first, cond, inc, body) =>
      if first.Some? && Mutates(first.value, x) { a := AssignmentIn(first.value, x); }
      else if MutatesO(cond, x) { a := AssignmentInside(cond.value, x); }
      else if MutatesO(inc, x) { a := AssignmentInside(inc.value, x); }
      else { a := AssignmentIn(body, x); }
    case Return(e) => a := AssignmentInside(e.value, x);
  }

  lemma {:induction false} AssignmentInAll(ss: Stmts, x: nat) returns (a: Expr)
    requires MutatesAll(ss, x)
    ensures IsAssignment(a, x) && PartOfAll(a, ss)
    decreases ss
  {
    if Mutates(ss.head, x) { a := AssignmentIn(ss.head, x); } else { a := AssignmentInAll(ss.tail, x); }
  }

  lemma {:induction false} FoundInside(a: Expr, e: Expr, x: nat)
    requires IsAssignment(a, x) && Part(a, e)
    ensures MutatesE(e, x)
  {
    match e
    case Lit(_) =>
    case BoolLit(_) =>
    case Var(_) =>
    case Assign(_, _, v) => if a != e { FoundInside(a, v, x); }
    case Bin(_, l, r) => if Part(a, l) { FoundInside(a, l, x); } else { FoundInside(a, r, x); }
    case Logic(_, l, r) => if Part(a, l) { FoundInside(a, l, x); } else { FoundInside(a, r, x); }
    case Not(v) => FoundInside(a, v, x);
    case Neg(v) => FoundInside(a, v, x);
    case Compl(v) => FoundInside(a, v, x);
  }

  lemma {:induction false} FoundIn(a: Expr, s: Stmt, x: nat)
    requires IsAssignment(a, x) && PartOf(a, s)
    ensures Mutates(s, x)
    decreases s
  {
    hide IsAssignment, MutatesE, Part;
    match s
    case Block(ss) => FoundInAll(a, ss, x);
    case Eval(e) => FoundInside(a, e, x);
    case Decl(_, _, init) => FoundInside(a, init.value, x);
    case If(c, yes, no) =>
      if Part(a, c) { FoundInside(a, c, x); }
      else if PartOf(a, yes) { FoundIn(a, yes, x); }
      else { FoundIn(a, no.value, x); }
    case While(c, body) => if Part(a, c) { FoundInside(a, c, x); } else { FoundIn(a, body, x); }
    case For(first, cond, inc, body) =>
      if first.Some? && PartOf(a, first.value) { FoundIn(a, first.value, x); }
      else if PartO(a, cond) { FoundInside(a, cond.value, x); }
      else if PartO(a, inc) { FoundInside(a, inc.value, x); }
      else { FoundIn(a, body, x); }
    case Return(e) => FoundInside(a, e.value, x);
  }

  lemma {:induction false} FoundInAll(a: Expr, ss: Stmts, x: nat)
    requires IsAssignment(a, x) && PartOfAll(a, ss)
    ensures MutatesAll(ss, x)
    decreases ss
  {
    if PartOf(a, ss.head) { FoundIn(a, ss.head, x); } else { FoundInAll(a, ss.tail, x); }
  }

  // ---------------------------------------------------------------------------------------------
  // Functions

  /** `logica` are the parameters that hold truth values; a `nihil` function returns nothing. */
  datatype Function = Function(params: seq<nat>, logica: set<nat>, nihil: bool, body: Stmt)

  predicate FunctionOk(f: Function) {
    && (forall i, j | 0 <= i < j < |f.params| :: f.params[i] != f.params[j])
    && Scoped(f.body, (set x | x in f.params), false)
  }

  function Bind(params: seq<nat>, args: seq<Val>): Env
    requires |args| == |params|
  {
    if params == [] then map[]
      else Bind(params[..|params| - 1], args[..|params| - 1])[params[|params| - 1] := args[|params| - 1]]
  }

  /** A body that falls off its end returns 0. */
  function Call(f: Function, args: seq<Val>, n: nat): Res
    requires |args| == |f.params|
  {
    match Run(f.body, Bind(f.params, args), n)
    case Normal(_) => Returns(None)
    case r => r
  }

  function Answer(v: Option<Val>): i64 { if v.None? then 0 else Enc(v.value) }
}
