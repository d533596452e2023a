/** When generated code evaluates an expression, construct by construct. */
module Expressions {
  import opened Sir
  import opened Builder
  import opened Frames
  import opened BuildOps
  import S = Source

  /** The code between the insertion points of `s` and `s'` evaluates `e` into `v`, with its side effects. */
  ghost predicate Evaluates(s: State, e: S.Expr, s': State, v: Value) {
    && Built(s, s') && ValueBelow(v, s'.nextVreg)
    && forall t: Setting, env: S.Env, regs: Regs, w: World, val: S.Val, env': S.Env |
         Ready(t, s, s', env, regs, w) && S.Value(e, env) == Some((val, env')) ::
         exists regs', w', c :: Evaluated(t, s, regs, w, s', env', regs', w', c, v, val)
  }

  ghost predicate Evaluated(t: Setting, s: State, regs: Regs, w: World, s': State, env': S.Env, regs': Regs, w': World,
        c: nat, v: Value, val: S.Val) {
    Reached(t, s, regs, w, s', env', regs', w', c) && Reads(t, v, regs', S.Enc(val))
  }

  lemma RunOf(s: State, e: S.Expr, s': State, v: Value, t: Setting, env: S.Env, regs: Regs, w: World, val: S.Val,
        env': S.Env)
    returns (regs': Regs, w': World, c: nat)
    requires Evaluates(s, e, s', v) && Ready(t, s, s', env, regs, w) && S.Value(e, env) == Some((val, env'))
    ensures Evaluated(t, s, regs, w, s', env', regs', w', c, v, val)
  {
    hide Ready, Evaluated, S.Value, Built;
    regs', w', c :| Evaluated(t, s, regs, w, s', env', regs', w', c, v, val);
  }

  lemma EvaluatesKeeps(s: State, e: S.Expr, s': State, v: Value)
    requires Evaluates(s, e, s', v)
    ensures Built(s, s') && ValueBelow(v, s'.nextVreg) && Ok(s') && s.nextVreg <= s'.nextVreg && Newer(s, s')
  {
    hide Ok, IsCell;
  }

  /** Being ready for more code includes being ready for a part of it. */
  lemma ReadyEarlier(t: Setting, s: State, s1: State, s2: State, env: S.Env, regs: Regs, w: World)
    requires Ready(t, s, s2, env, regs, w) && Built(s1, s2)
    ensures Ready(t, s, s1, env, regs, w)
  {
    hide Sim, FrameOk, Ok;
    HoldsEarlier(t.g, s1, s2);
  }

  /** And one is ready to go on from a point reached. */
  lemma ReadyLater(t: Setting, s: State, s1: State, s2: State, env: S.Env, regs: Regs, w: World, env1: S.Env,
        regs1: Regs, w1: World, c: nat)
    requires Ready(t, s, s2, env, regs, w) && Reached(t, s, regs, w, s1, env1, regs1, w1, c)
    ensures Ready(t, s1, s2, env1, regs1, w1)
  {}

  // ---------------------------------------------------------------------------------------------
  // Literals and variables

  lemma LiteralEvaluates(s: State, e: S.Expr, v: Value, val: S.Val)
    requires Ok(s) && (forall env :: S.Value(e, env) == Some((val, env)))
    requires v == ConstInt(S.Enc(val)) || (val.B? && v == ConstBool(val.b))
    ensures Evaluates(s, e, s, v)
  {
    hide Ok, Sim, Holds, FrameOk, Reached;
    SelfBuilt(s);
    forall t: Setting, env: S.Env, regs: Regs, w: World, val': S.Val, env': S.Env |
      Ready(t, s, s, env, regs, w) && S.Value(e, env) == Some((val', env'))
      ensures exists regs', w', c :: Evaluated(t, s, regs, w, s, env', regs', w', c, v, val')
    {
      ReachedAtOnce(t, s, env, regs, w);
      assert Evaluated(t, s, regs, w, s, env', regs, w, 0, v, val');
    }
  }

  lemma DirectEvaluates(s: State, x: nat, v: Value)
    requires Ok(s) && x in s.vars && s.vars[x] == Direct(v)
    ensures Evaluates(s, S.Var(x), s, v)
  {
    hide Holds, FrameOk, Reached, EvalOperand, CellsDiffer, StoreHolds;
    SelfBuilt(s);
    assert BindingBelow(s.vars[x], s.nextVreg);
    forall t: Setting, env: S.Env, regs: Regs, w: World, val: S.Val, env': S.Env |
      Ready(t, s, s, env, regs, w) && S.Value(S.Var(x), env) == Some((val, env'))
      ensures exists regs', w', c :: Evaluated(t, s, regs, w, s, env', regs', w', c, v, val)
    {
      ReachedAtOnce(t, s, env, regs, w);
      assert Lives(t, s.vars[x], env[x], regs, w);
      assert Evaluated(t, s, regs, w, s, env', regs, w, 0, v, val);
    }
  }

  lemma CellEvaluates(s: State, x: nat, p: nat, s': State, v: Value)
    requires Ok(s) && x in s.vars && s.vars[x] == Cell(p) && LoadBuilt(s, p, s', v)
    ensures Evaluates(s, S.Var(x), s', v)
  {
    hide Holds, FrameOk, Reached, CellsDiffer, StoreHolds, Built, Ok;
    forall t: Setting, env: S.Env, regs: Regs, w: World, val: S.Val, env': S.Env |
      Ready(t, s, s', env, regs, w) && S.Value(S.Var(x), env) == Some((val, env'))
      ensures exists regs', w', c :: Evaluated(t, s, regs, w, s', env', regs', w', c, v, val)
    {
      assert Lives(t, s.vars[x], env[x], regs, w);
      assert Reads(t, VReg(p), regs, t.addr(p)) && CellHolds(t, p, w, S.Enc(val));
      var regs' :| Reached(t, s, regs, w, s', env, regs', w, 0) && Reads(t, v, regs', S.Enc(val));
      assert Evaluated(t, s, regs, w, s', env', regs', w, 0, v, val);
    }
  }

  // ---------------------------------------------------------------------------------------------
  // Operators

  lemma OperateIsBinary(op: Opcode, l: S.Val, r: S.Val)
    requires S.Operate(op, l, r).Some?
    ensures (op.IsArith() || op.IsCompare()) && Binary(op, S.Enc(l), S.Enc(r)) == Some(S.Enc(S.Operate(op, l, r).value))
  {
    hide BitOp, TruncDiv, Pow2;
    if op.IsCompare() { ComparesToBit(op, S.Enc(l), S.Enc(r)); }
  }

  /** One more operation on a value just computed, with an operand that is still readable. */
  lemma OperationEvaluates(s: State, e: S.Expr, s1: State, v1: Value, op: Opcode, l: Value, r: Value, s2: State,
        v2: Value, e2: S.Expr)
    requires Evaluates(s, e, s1, v1) && BinaryBuilt(s1, op, l, r, s2, v2) && Ok(s)
    requires forall env, val, env' ::
      S.Value(e2, env) == Some((val, env')) ==> exists val1 :: OneMore(e, env, val1, env', op, v1, l, r, val)
    ensures Evaluates(s, e2, s2, v2)
  {
    hide BinaryBuilt, Built, Evaluated, Newer, Ok, OneMore, Ready, ValueBelow, S.Value;
    EvaluatesKeeps(s, e, s1, v1);
    BinaryKeeps(s1, op, l, r, s2, v2);
    BuiltTransitive(s, s1, s2);
    forall t: Setting, env: S.Env, regs: Regs, w: World, val: S.Val, env': S.Env |
      Ready(t, s, s2, env, regs, w) && S.Value(e2, env) == Some((val, env'))
      ensures exists regs', w', c :: Evaluated(t, s, regs, w, s2, env', regs', w', c, v2, val)
    {
      var val1 :| OneMore(e, env, val1, env', op, v1, l, r, val);
      var regs', w', c := OperationRun(s, e, s1, v1, op, l, r, s2, v2, t, env, regs, w, val1, env', val);
    }
  }

  lemma OperationRun(s: State, e: S.Expr, s1: State, v1: Value, op: Opcode, l: Value, r: Value, s2: State, v2: Value,
        t: Setting, env: S.Env, regs: Regs, w: World, val1: S.Val, env': S.Env, val: S.Val)
    returns (regs': Regs, w': World, c: nat)
    requires Evaluates(s, e, s1, v1) && BinaryBuilt(s1, op, l, r, s2, v2) && Ok(s)
    requires Ready(t, s, s2, env, regs, w) && OneMore(e, env, val1, env', op, v1, l, r, val)
    ensures Evaluated(t, s, regs, w, s2, env', regs', w', c, v2, val)
  {
    hide Binary, BinaryBuilt, Built, Evaluates, LiteralOf, Newer, Ok, Reached, Reads, Ready, ValueBelow, S.Enc, S.Value;
    EvaluatesKeeps(s, e, s1, v1);
    BinaryKeeps(s1, op, l, r, s2, v2);
    assert S.Value(e, env) == Some((val1, env'));
    ReadyEarlier(t, s, s1, s2, env, regs, w);
    var regs1, w1, n := RunOf(s, e, s1, v1, t, env, regs, w, val1, env');
    ReadyLater(t, s, s1, s2, env, regs, w, env', regs1, w1, n);
    OneMoreReads(t, e, env, val1, env', op, v1, l, r, val, regs1);
    var x: i64, y: i64 :| Reads(t, l, regs1, x) && Reads(t, r, regs1, y) && Binary(op, x, y) == Some(S.Enc(val));
    var regs2 := BinaryRun(s1, op, l, r, s2, v2, t, env', regs1, w1, x, y, S.Enc(val));
    NewerReached(t, s, regs, w, s1, env', regs1, w1, n, s2, env', regs2, w1, 0);
    return regs2, w1, n + 0;
  }

  /** `op` on the value of `e` and a literal, in the given order, is the value `val`. */
  ghost predicate OneMore(e: S.Expr, env: S.Env, val1: S.Val, env': S.Env, op: Opcode, v1: Value, l: Value, r: Value,
        val: S.Val) {
    && S.Value(e, env) == Some((val1, env')) && (op.IsArith() || op.IsCompare())
    && ((l == v1 && LiteralOf(r).Some? && Binary(op, S.Enc(val1), LiteralOf(r).value) == Some(S.Enc(val)))
        || (r == v1 && LiteralOf(l).Some? && Binary(op, LiteralOf(l).value, S.Enc(val1)) == Some(S.Enc(val))))
  }

  function LiteralOf(v: Value): Option<i64> {
    match v
    case ConstInt(i) => Some(i)
    case ConstBool(b) => Some(if b then 1 else 0)
    case _ => None
  }

  lemma OneMoreReads(t: Setting, e: S.Expr, env: S.Env, val1: S.Val, env': S.Env, op: Opcode, v1: Value, l: Value,
        r: Value, val: S.Val, regs: Regs)
    requires OneMore(e, env, val1, env', op, v1, l, r, val) && Reads(t, v1, regs, S.Enc(val1))
    ensures op.IsArith() || op.IsCompare()
    ensures exists x: i64, y: i64 ::
      Reads(t, l, regs, x) && Reads(t, r, regs, y) && Binary(op, x, y) == Some(S.Enc(val))
  {
    hide Binary, S.Value;
    if l == v1 && LiteralOf(r).Some? && Binary(op, S.Enc(val1), LiteralOf(r).value) == Some(S.Enc(val)) {
      assert Reads(t, l, regs, S.Enc(val1)) && Reads(t, r, regs, LiteralOf(r).value);
    } else {
      assert Reads(t, l, regs, LiteralOf(l).value) && Reads(t, r, regs, S.Enc(val1));
    }
  }

  lemma NotLaw(b: bool)
    ensures Binary(Xor, S.Enc(S.B(b)), 1) == Some(S.Enc(S.B(!b)))
  {
    hide BitOp;
    BitLaws(Xor, 1, 0);
    BitLaws(Xor, 0, 1);
    BitLaws(Xor, 1, 1);
  }

  lemma NotEvaluates(s: State, e: S.Expr, s1: State, v1: Value, s2: State, v2: Value)
    requires Ok(s) && Evaluates(s, e, s1, v1) && BinaryBuilt(s1, Xor, v1, ConstBool(true), s2, v2)
    ensures Evaluates(s, S.Not(e), s2, v2)
  {
    hide Ok, Evaluates, BinaryBuilt, Binary;
    forall env, val, env' | S.Value(S.Not(e), env) == Some((val, env'))
      ensures exists val1 :: OneMore(e, env, val1, env', Xor, v1, v1, ConstBool(true), val)
    {
      var p := S.Value(e, env).value;
      NotLaw(p.0.b);
      assert OneMore(e, env, p.0, env', Xor, v1, v1, ConstBool(true), val);
    }
    OperationEvaluates(s, e, s1, v1, Xor, v1, ConstBool(true), s2, v2, S.Not(e));
  }

  lemma NegIsOneMore(e: S.Expr, env: S.Env, val: S.Val, env': S.Env, v1: Value)
    requires S.Value(S.Neg(e), env) == Some((val, env'))
    ensures S.Value(e, env).Some? && OneMore(e, env, S.Value(e, env).value.0, env', Sub, v1, ConstInt(0), v1, val)
  {
    hide Binary, Wrap, S.Value;
    var p := NegParts(e, env, val, env');
    SubtractionIs(0, p.i);
  }

  lemma {:induction false} NegParts(e: S.Expr, env: S.Env, val: S.Val, env': S.Env) returns (v: S.Val)
    requires S.Value(S.Neg(e), env) == Some((val, env'))
    ensures S.Value(e, env) == Some((v, env')) && v.I? && val == S.I(Wrap(0 - v.i))
  {
    hide Wrap, Binary, BitOp, S.Operate;
    v := S.Value(e, env).value.0;
  }

  lemma SubtractionIs(x: i64, y: i64)
    ensures Binary(Sub, x, y) == Some(Wrap(x - y))
  {
    hide Wrap;
  }

  lemma NegEvaluates(s: State, e: S.Expr, s1: State, v1: Value, s2: State, v2: Value)
    requires Ok(s) && Evaluates(s, e, s1, v1) && BinaryBuilt(s1, Sub, ConstInt(0), v1, s2, v2)
    ensures Evaluates(s, S.Neg(e), s2, v2)
  {
    hide Ok, Evaluates, BinaryBuilt, OneMore;
    forall env, val, env' | S.Value(S.Neg(e), env) == Some((val, env'))
      ensures exists val1 :: OneMore(e, env, val1, env', Sub, v1, ConstInt(0), v1, val)
    {
      NegIsOneMore(e, env, val, env', v1);
    }
    OperationEvaluates(s, e, s1, v1, Sub, ConstInt(0), v1, s2, v2, S.Neg(e));
  }

  lemma ComplEvaluates(s: State, e: S.Expr, s1: State, v1: Value, s2: State, v2: Value)
    requires Ok(s) && Evaluates(s, e, s1, v1) && BinaryBuilt(s1, Xor, v1, ConstInt(-1), s2, v2)
    ensures Evaluates(s, S.Compl(e), s2, v2)
  {
    hide Ok, Evaluates, BinaryBuilt, BitOp;
    forall env, val, env' | S.Value(S.Compl(e), env) == Some((val, env'))
      ensures exists val1 :: OneMore(e, env, val1, env', Xor, v1, v1, ConstInt(-1), val)
    {
      var p := S.Value(e, env).value;
      assert OneMore(e, env, p.0, env', Xor, v1, v1, ConstInt(-1), val);
    }
    OperationEvaluates(s, e, s1, v1, Xor, v1, ConstInt(-1), s2, v2, S.Compl(e));
  }

  lemma BinEvaluates(s: State, op: Opcode, l: S.Expr, r: S.Expr, s1: State, v1: Value, s2: State, v2: Value, s3: State,
        v3: Value)
    requires Ok(s) && Evaluates(s, l, s1, v1) && Evaluates(s1, r, s2, v2) && BinaryBuilt(s2, op, v1, v2, s3, v3)
    ensures Evaluates(s, S.Bin(op, l, r), s3, v3)
  {
    hide BinaryBuilt, Built, Evaluated, Newer, Ok, Ready, ValueBelow, S.Value;
    EvaluatesKeeps(s, l, s1, v1);
    EvaluatesKeeps(s1, r, s2, v2);
    BinaryKeeps(s2, op, v1, v2, s3, v3);
    BuiltTransitive(s1, s2, s3);
    BuiltTransitive(s, s1, s3);
    forall t: Setting, env: S.Env, regs: Regs, w: World, val: S.Val, env': S.Env |
      Ready(t, s, s3, env, regs, w) && S.Value(S.Bin(op, l, r), env) == Some((val, env'))
      ensures exists regs', w', c :: Evaluated(t, s, regs, w, s3, env', regs', w', c, v3, val)
    {
      var regs', w', c := BinRun(s, op, l, r, s1, v1, s2, v2, s3, v3, t, env, regs, w, val, env');
    }
  }

  lemma BinaryKeeps(s: State, op: Opcode, l: Value, r: Value, s': State, v: Value)
    requires BinaryBuilt(s, op, l, r, s', v)
    ensures Built(s, s') && ValueBelow(v, s'.nextVreg)
  {}

  lemma BinaryRun(s: State, op: Opcode, l: Value, r: Value, s': State, v: Value, t: Setting, env: S.Env, regs: Regs,
        w: World, x: i64, y: i64, z: i64)
    returns (regs': Regs)
    requires (op.IsArith() || op.IsCompare()) && BinaryBuilt(s, op, l, r, s', v)
    requires Ready(t, s, s', env, regs, w) && Reads(t, l, regs, x) && Reads(t, r, regs, y)
    requires Binary(op, x, y) == Some(z)
    ensures Reached(t, s, regs, w, s', env, regs', w, 0) && Reads(t, v, regs', z)
  {
    hide Ready, Reads, Reached, Built, Binary;
    regs' :| Reached(t, s, regs, w, s', env, regs', w, 0) && Reads(t, v, regs', z);
  }

  lemma BinRun(s: State, op: Opcode, l: S.Expr, r: S.Expr, s1: State, v1: Value, s2: State, v2: Value, s3: State,
        v3: Value, t: Setting, env: S.Env, regs: Regs, w: World, val: S.Val, env': S.Env)
    returns (regs': Regs, w': World, c: nat)
    requires Ok(s) && Evaluates(s, l, s1, v1) && Evaluates(s1, r, s2, v2) && BinaryBuilt(s2, op, v1, v2, s3, v3)
    requires Ready(t, s, s3, env, regs, w) && S.Value(S.Bin(op, l, r), env) == Some((val, env'))
    ensures Evaluated(t, s, regs, w, s3, env', regs', w', c, v3, val)
  {
    hide Binary, BinaryBuilt, BitOp, Built, Evaluates, Newer, Ok, Reached, Reads, Ready, ValueBelow, Wrap, S.Enc,
      S.Operate;
    EvaluatesKeeps(s, l, s1, v1);
    EvaluatesKeeps(s1, r, s2, v2);
    BinaryKeeps(s2, op, v1, v2, s3, v3);
    BuiltTransitive(s1, s2, s3);
    BuiltTransitive(s, s1, s2);
    BuiltIsNewer(s, s2);
    var p := S.Value(l, env).value;
    var q := S.Value(r, p.1).value;
    OperateIsBinary(op, p.0, q.0);
    ReadyEarlier(t, s, s1, s3, env, regs, w);
    var regs1, w1, c1 := RunOf(s, l, s1, v1, t, env, regs, w, p.0, p.1);
    ReadyLater(t, s, s1, s3, env, regs, w, p.1, regs1, w1, c1);
    ReadyEarlier(t, s1, s2, s3, p.1, regs1, w1);
    var regs2, w2, c2 := RunOf(s1, r, s2, v2, t, p.1, regs1, w1, q.0, q.1);
    ReadyLater(t, s1, s2, s3, p.1, regs1, w1, q.1, regs2, w2, c2);
    ReadsAfter(t, s1, regs1, w1, s2, q.1, regs2, w2, c2, v1, S.Enc(p.0));
    var regs3 := BinaryRun(s2, op, v1, v2, s3, v3, t, q.1, regs2, w2, S.Enc(p.0), S.Enc(q.0), S.Enc(val));
    NewerReached(t, s, regs, w, s1, p.1, regs1, w1, c1, s2, q.1, regs2, w2, c2);
    NewerReached(t, s, regs, w, s2, q.1, regs2, w2, c1 + c2, s3, q.1, regs3, w2, 0);
    return regs3, w2, c1 + c2 + 0;
  }

  /** A value computed before is still readable after more code has run. */
  lemma ReadsAfter(t: Setting, s: State, regs: Regs, w: World, s': State, env': S.Env, regs': Regs, w': World, c: nat,
        v: Value, x: i64)
    requires Reached(t, s, regs, w, s', env', regs', w', c) && Reads(t, v, regs, x) && ValueBelow(v, s.nextVreg)
    ensures Reads(t, v, regs', x)
  {
    hide Reads, KeepRegs, Kept, Sim, Leads, ValueBelow;
    StillReads(t, v, s.nextVreg, regs, regs', x);
  }

  lemma NewerReached(t: Setting, s: State, regs: Regs, w: World, s1: State, env1: S.Env, regs1: Regs, w1: World,
        c: nat, s2: State, env2: S.Env, regs2: Regs, w2: World, d: nat)
    requires Reached(t, s, regs, w, s1, env1, regs1, w1, c) && Reached(t, s1, regs1, w1, s2, env2, regs2, w2, d)
    requires Newer(s, s1)
    ensures Reached(t, s, regs, w, s2, env2, regs2, w2, c + d)
  {
    hide Reached;
    ReachedTransitive(t, s, regs, w, s1, env1, regs1, w1, c, s2, env2, regs2, w2, d);
  }

  // ---------------------------------------------------------------------------------------------
  // Assignment

  lemma StoreKeeps(s: State, s1: State, v: Value, p: nat)
    requires Ok(s) && Built(s, s1) && ValueBelow(v, s1.nextVreg) && p < s1.nextVreg
    ensures Built(s1, Emit(s1, StoreInst(v, p))) && Built(s, Emit(s1, StoreInst(v, p))) && Ok(s1)
  {
    hide ValueBelow, Emit, Local, Grows, CellsDiffer, BlockBelow, BindingBelow;
    StoreIsBuilt(s1, v, p);
    BuiltTransitive(s, s1, Emit(s1, StoreInst(v, p)));
  }

  /** A variable's cell can be written and read. */
  lemma CellOf(t: Setting, s: State, env: S.Env, regs: Regs, w: World, x: nat, p: nat)
    requires Sim(t, s, env, regs, w) && x in env && x in s.vars && s.vars[x] == Cell(p)
    ensures p < t.size && Reads(t, VReg(p), regs, t.addr(p)) && CellHolds(t, p, w, S.Enc(env[x])) && IsCell(s.vars, p)
    ensures Width(env[x]) <= t.bytes(p)
  {
    hide StoreHolds;
    assert Lives(t, s.vars[x], env[x], regs, w);
    EncFits(env[x], t.bytes(p));
  }

  /** Storing a value to a variable. */
  lemma StoreVariable(t: Setting, s: State, regs: Regs, w: World, s1: State, env1: S.Env, regs1: Regs, w1: World,
        c: nat, v: Value, val: S.Val, x: nat, p: nat)
    returns (w2: World)
    requires Reached(t, s, regs, w, s1, env1, regs1, w1, c) && Built(s, s1) && Ok(s1) && ValueBelow(v, s1.nextVreg)
    requires p < s1.nextVreg
    requires Ready(t, s1, Emit(s1, StoreInst(v, p)), env1, regs1, w1) && Reads(t, v, regs1, S.Enc(val))
    requires x in env1 && x in s.vars && s.vars[x] == Cell(p) && S.SameKind(val, env1[x])
    ensures Reached(t, s, regs, w, Emit(s1, StoreInst(v, p)), env1[x := val], regs1, w2, c)
  {
    hide Reads, Leads, KeepRegs, Kept, Mirrors, StoreHolds, Emit, ValueBelow, IsCell, Local, Grows;
    var s2 := Emit(s1, StoreInst(v, p));
    w2 := w1.(mem := w1.mem[t.addr(p) := S.Enc(val)]);
    CellOf(t, s1, env1, regs1, w1, x, p);
    EncFits(val, t.bytes(p));
    assert CellsDiffer(s1.vars);
    AssignMirrors(t, s1.vars, env1, regs1, w1, x, p, val);
    StoreReaches(t, s1, v, p, env1, regs1, w1, S.Enc(val), env1[x := val]);
    SinceStore(t, s, regs, w, Here(s1, regs1, w1), c, p, S.Enc(val), Here(s2, regs1, w2));
  }

  lemma AssignEvaluates(s: State, x: nat, e: S.Expr, s1: State, v1: Value, p: nat)
    requires Ok(s) && Evaluates(s, e, s1, v1) && x in s.vars && s.vars[x] == Cell(p) && p < s.nextVreg
    ensures Evaluates(s, S.Assign(x, None, e), Emit(s1, StoreInst(v1, p)), v1)
  {
    hide BindingBelow, BitOp, BlockBelow, Built, CellsDiffer, Closed, Newer, Reached, Reads, Ready, StoreInst,
      ValueBelow, Wrap, S.Enc, S.Operate;
    EvaluatesKeeps(s, e, s1, v1);
    StoreKeeps(s, s1, v1, p);
    var s2 := Emit(s1, StoreInst(v1, p));
    assert s2.nextVreg == s1.nextVreg;
    forall t: Setting, env: S.Env, regs: Regs, w: World, val: S.Val, env': S.Env |
      Ready(t, s, s2, env, regs, w) && S.Value(S.Assign(x, None, e), env) == Some((val, env'))
      ensures exists regs', w', c :: Evaluated(t, s, regs, w, s2, env', regs', w', c, v1, val)
    {
      var q := S.Value(e, env).value;
      assert S.Value(e, env).Some? && x in q.1 && val == q.0 && env' == q.1[x := val];
      ReadyEarlier(t, s, s1, s2, env, regs, w);
      var regs1, w1, c := RunOf(s, e, s1, v1, t, env, regs, w, q.0, q.1);
      ReadyLater(t, s, s1, s2, env, regs, w, q.1, regs1, w1, c);
      var w2 := StoreVariable(t, s, regs, w, s1, q.1, regs1, w1, c, v1, val, x, p);
      assert Evaluated(t, s, regs, w, s2, env', regs1, w2, c, v1, val);
    }
  }

  lemma LoadKeeps(s: State, p: nat, s': State, v: Value)
    requires LoadBuilt(s, p, s', v)
    ensures Built(s, s') && ValueBelow(v, s'.nextVreg)
  {}

  lemma LoadRun(s: State, p: nat, s': State, v: Value, t: Setting, env: S.Env, regs: Regs, w: World, x: i64)
    returns (regs': Regs)
    requires LoadBuilt(s, p, s', v) && Ready(t, s, s', env, regs, w) && Reads(t, VReg(p), regs, t.addr(p))
    requires CellHolds(t, p, w, x)
    ensures Reached(t, s, regs, w, s', env, regs', w, 0) && Reads(t, v, regs', x)
  {
    hide Ready, Reads, Reached, Built, CellHolds;
    regs' :| Reached(t, s, regs, w, s', env, regs', w, 0) && Reads(t, v, regs', x);
  }

  /** `x op= e`: the old value is loaded after `e` has been evaluated. */
  lemma CompoundEvaluates(s: State, x: nat, op: Opcode, e: S.Expr, s1: State, v1: Value, p: nat, s2: State, v2: Value,
        s3: State, v3: Value)
    requires Ok(s) && Evaluates(s, e, s1, v1) && x in s.vars && s.vars[x] == Cell(p) && p < s.nextVreg
    requires LoadBuilt(s1, p, s2, v2) && BinaryBuilt(s2, op, v2, v1, s3, v3)
    ensures Evaluates(s, S.Assign(x, Some(op), e), Emit(s3, StoreInst(v3, p)), v3)
  {
    hide BinaryBuilt, BindingBelow, BlockBelow, Built, CellsDiffer, Closed, Evaluated, LoadBuilt, Newer, Ready,
      StoreInst, ValueBelow, S.Value;
    EvaluatesKeeps(s, e, s1, v1);
    LoadKeeps(s1, p, s2, v2);
    BinaryKeeps(s2, op, v2, v1, s3, v3);
    BuiltTransitive(s, s1, s2);
    BuiltTransitive(s1, s2, s3);
    BuiltTransitive(s, s2, s3);
    Counters(s, s1);
    Counters(s1, s3);
    StoreKeeps(s, s3, v3, p);
    var s4 := Emit(s3, StoreInst(v3, p));
    assert s4.nextVreg == s3.nextVreg;
    forall t: Setting, env: S.Env, regs: Regs, w: World, val: S.Val, env': S.Env |
      Ready(t, s, s4, env, regs, w) && S.Value(S.Assign(x, Some(op), e), env) == Some((val, env'))
      ensures exists regs', w', c :: Evaluated(t, s, regs, w, s4, env', regs', w', c, v3, val)
    {
      var regs', w', c := CompoundRun(s, x, op, e, s1, v1, p, s2, v2, s3, v3, t, env, regs, w, val, env');
    }
  }

  lemma Counters(s: State, s': State)
    requires Built(s, s')
    ensures s.nextVreg <= s'.nextVreg && Ok(s') && s'.vars == s.vars && s'.cur in s'.body
  {
    hide Local;
  }

  lemma ArithmeticKeepsKind(op: Opcode, l: S.Val, r: S.Val, v: S.Val)
    requires op.IsArith() && S.Operate(op, l, r) == Some(v)
    ensures S.SameKind(v, l)
  {
    hide Binary;
  }

  lemma CompoundRun(s: State, x: nat, op: Opcode, e: S.Expr, s1: State, v1: Value, p: nat, s2: State, v2: Value,
        s3: State, v3: Value, t: Setting, env: S.Env, regs: Regs, w: World, val: S.Val, env': S.Env)
    returns (regs': Regs, w': World, c: nat)
    requires Ok(s) && Evaluates(s, e, s1, v1) && x in s.vars && s.vars[x] == Cell(p) && p < s.nextVreg
    requires LoadBuilt(s1, p, s2, v2) && BinaryBuilt(s2, op, v2, v1, s3, v3)
    requires Ready(t, s, Emit(s3, StoreInst(v3, p)), env, regs, w)
    requires S.Value(S.Assign(x, Some(op), e), env) == Some((val, env'))
    ensures Evaluated(t, s, regs, w, Emit(s3, StoreInst(v3, p)), env', regs', w', c, v3, val)
  {
    hide Binary, BinaryBuilt, BitOp, Built, CellHolds, Emit, Evaluates, FrameOk, Holds, IsCell, IsOpen, LoadBuilt,
      Newer, Ok, Reached, Reads, Sim, StoreInst, ValueBelow, Wrap, S.Enc, S.Operate;
    EvaluatesKeeps(s, e, s1, v1);
    LoadKeeps(s1, p, s2, v2);
    BinaryKeeps(s2, op, v2, v1, s3, v3);
    BuiltTransitive(s, s1, s2);
    BuiltTransitive(s, s2, s3);
    BuiltTransitive(s1, s2, s3);
    Counters(s, s1);
    Counters(s, s3);
    StoreKeeps(s, s3, v3, p);
    StoreKeeps(s1, s3, v3, p);
    StoreKeeps(s2, s3, v3, p);
    BuiltIsNewer(s, s1);
    var s4 := Emit(s3, StoreInst(v3, p));
    var q := S.Value(e, env).value;
    assert S.Value(e, env) == Some(q) && x in q.1 && S.Operate(op, q.1[x], q.0) == Some(val) && env' == q.1[x := val];
    OperateIsBinary(op, q.1[x], q.0);
    ArithmeticKeepsKind(op, q.1[x], q.0, val);
    ReadyEarlier(t, s, s1, s4, env, regs, w);
    var regs1, w1, c1 := RunOf(s, e, s1, v1, t, env, regs, w, q.0, q.1);
    ReadyLater(t, s, s1, s4, env, regs, w, q.1, regs1, w1, c1);
    var regs3 := CompoundOperation(s1, x, op, v1, p, s2, v2, s3, v3, s4, t, q.1, regs1, w1, S.Enc(q.0), S.Enc(val));
    NewerReached(t, s, regs, w, s1, q.1, regs1, w1, c1, s3, q.1, regs3, w1, 0);
    w' := StoreVariable(t, s, regs, w, s3, q.1, regs3, w1, c1 + 0, v3, val, x, p);
    regs', c := regs3, c1 + 0;
  }

  /** The variable is loaded and combined with the right-hand side's value. */
  lemma CompoundOperation(s1: State, x: nat, op: Opcode, v1: Value, p: nat, s2: State, v2: Value, s3: State, v3: Value,
        s4: State, t: Setting, env: S.Env, regs: Regs, w: World, y: i64, z: i64)
    returns (regs3: Regs)
    requires x in s1.vars && s1.vars[x] == Cell(p) && ValueBelow(v1, s1.nextVreg) && x in env
    requires LoadBuilt(s1, p, s2, v2) && BinaryBuilt(s2, op, v2, v1, s3, v3) && Built(s2, s4) && Built(s3, s4)
    requires Ready(t, s1, s4, env, regs, w) && Reads(t, v1, regs, y)
    requires (op.IsArith() || op.IsCompare()) && Binary(op, S.Enc(env[x]), y) == Some(z)
    ensures Reached(t, s1, regs, w, s3, env, regs3, w, 0) && Reads(t, v3, regs3, z)
    ensures Ready(t, s3, s4, env, regs3, w)
  {
    hide Binary, BinaryBuilt, Built, CellHolds, Emit, FrameOk, Holds, IsCell, IsOpen, LoadBuilt, Newer, Ok, Reached,
      Reads, Sim, ValueBelow, S.Enc;
    LoadKeeps(s1, p, s2, v2);
    BuiltIsNewer(s1, s2);
    ReadyEarlier(t, s1, s2, s4, env, regs, w);
    assert Sim(t, s1, env, regs, w);
    CellOf(t, s1, env, regs, w, x, p);
    var regs2 := LoadRun(s1, p, s2, v2, t, env, regs, w, S.Enc(env[x]));
    ReadyLater(t, s1, s2, s4, env, regs, w, env, regs2, w, 0);
    ReadyEarlier(t, s2, s3, s4, env, regs2, w);
    ReadsAfter(t, s1, regs, w, s2, env, regs2, w, 0, v1, y);
    regs3 := BinaryRun(s2, op, v2, v1, s3, v3, t, env, regs2, w, S.Enc(env[x]), y, z);
    ReadyLater(t, s2, s3, s4, env, regs2, w, env, regs3, w, 0);
    NewerReached(t, s1, regs, w, s2, env, regs2, w, 0, s3, env, regs3, w, 0);
  }
}
