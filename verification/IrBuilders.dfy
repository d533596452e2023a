/** The IR builder object and the generation of expressions. */
module IrBuilders {
  import opened Sir
  import opened Builder
  import opened Frames
  import opened BuildOps
  import opened Expressions
  import opened ShortCircuit
  import opened Conditionals
  import opened Ssa
  import opened Certified
  import S = Source

  class IrBuilder {
    var order: seq<nat>
    var body: map<nat, seq<Inst>>
    var cur: nat
    var nextVreg: nat
    var nextBlock: nat
    var loopCond: Option<nat>
    var loopExit: Option<nat>
    /** What each symbol is bound to. */
    var vars: map<nat, Binding>
    /** The body of the function being generated, where promotion looks for assignments. */
    var currentFuncBody: Option<S.Stmt>
    /** Why the code so far is in strict SSA form. */
    ghost var cert: Cert

    /** A new function: no blocks, no bindings, registers and blocks numbered from 1. */
    constructor ()
      ensures Now() == State([], map[], 0, 1, 1, None, None, map[]) && currentFuncBody == None
    {
      currentFuncBody := None;
      order, body, cur, nextVreg, nextBlock, loopCond, loopExit, vars := [], map[], 0, 1, 1, None, None, map[];
      cert := Cert(map[], map[], map[], {}, 1, 0);
    }

    ghost function Now(): State
      reads this
    {
      State(order, body, cur, nextVreg, nextBlock, loopCond, loopExit, vars)
    }

    /** Appends an instruction; behind a terminator it is dropped. */
    method CreateInst(inst: Inst)
      requires cur in body
      modifies this`body
      ensures Now() == Emit(old(Now()), inst)
    {
      var insts := body[cur];
      if insts != [] && insts[|insts| - 1].op.IsTerminator() { return; }
      body := body[cur := insts + [inst]];
    }

    method CreateVreg() returns (v: Value)
      modifies this`nextVreg
      ensures v == VReg(old(nextVreg)) && nextVreg == old(nextVreg) + 1
    {
      v := VReg(nextVreg);
      nextVreg := nextVreg + 1;
    }

    /** Appends an instruction with a fresh destination. */
    method CreateValue(op: Opcode, ops: seq<Value>) returns (v: Value)
      requires cur in body
      modifies this`body, this`nextVreg, this`cert
      ensures Now() == EmitValue(old(Now()), op, ops) && v == VReg(old(nextVreg))
      ensures cert == WithValue(old(cert), old(Now()))
    {
      cert := WithValue(cert, Now());
      CreateInst(Inst(op, Some(nextVreg), ops));
      v := CreateVreg();
    }

    method CreateBlock() returns (b: nat)
      modifies this`order, this`body, this`nextBlock, this`cert
      ensures Now() == NewBlock(old(Now())) && b == old(nextBlock)
      ensures cert == WithBlock(old(cert), old(Now()))
    {
      cert := WithBlock(cert, Now());
      b := nextBlock;
      order, body, nextBlock := order + [b], body[b := []], nextBlock + 1;
    }

    method SetInsertPoint(b: nat)
      modifies this`cur
      ensures Now() == MoveTo(old(Now()), b)
    {
      cur := b;
    }

    /** Equal registers are one object; whether equal literals are is left open. */
    method BuildBinary(op: Opcode, l: Value, r: Value) returns (v: Value)
      requires Ok(Now()) && (op.IsArith() || op.IsCompare()) && ValueBelow(l, nextVreg) && ValueBelow(r, nextVreg)
      requires Sound(cert, Now()) && Known(cert, Now(), l) && Known(cert, Now(), r)
      modifies this`body, this`nextVreg, this`cert
      ensures BinaryBuilt(old(Now()), op, l, r, Now(), v)
      ensures Found(old(cert), old(Now()), cert, Now(), v)
      ensures Fold(op, l, r, false).Some? ==> v == Fold(op, l, r, false).value && Now() == old(Now())
    {
      hide Fold, BinaryBuilt, Sound, Known, Extends, MayEmit, EmitValue, WithValue;
      var shared: bool := *;
      var same := l == r && (l.VReg? || shared);
      var folded := Fold(op, l, r, same);
      SharingOnlyHelps(op, l, r, same);
      if folded.Some? {
        FoldedBuilt(Now(), op, l, r, same);
        FoldKnown(cert, Now(), op, l, r, same);
        WentSelf(cert, Now());
        return folded.value;
      }
      EmittedBuilt(Now(), op, l, r);
      MayCompute(cert, Now(), op, [l, r]);
      ValueSound(cert, Now(), op, [l, r]);
      v := CreateValue(op, [l, r]);
    }

    /** Scans the current block backwards for the store to forward. */
    method ScanStores() returns (r: Option<(Value, Value)>)
      requires cur in body
      ensures r == Pending(body[cur])
    {
      var insts := body[cur];
      var i := |insts|;
      assert insts[..i] == insts;
      while i > 0
        invariant 0 <= i <= |insts| && Pending(insts[..i]) == Pending(insts)
      {
        var scan := insts[i - 1];
        assert insts[..i][..i - 1] == insts[..i - 1];
        if scan.op.Store? { return if |scan.ops| == 2 then Some((scan.ops[0], scan.ops[1])) else None; }
        if scan.op.Call? || scan.op.Memcpy? { return None; }
        i := i - 1;
      }
      return None;
    }

    method BuildLoad(p: nat) returns (v: Value)
      requires Ok(Now()) && p < nextVreg && Sound(cert, Now()) && Known(cert, Now(), VReg(p))
      modifies this`body, this`nextVreg, this`cert
      ensures LoadBuilt(old(Now()), p, Now(), v)
      ensures Found(old(cert), old(Now()), cert, Now(), v)
      ensures var store := Pending(old(body)[cur]);
        store.Some? && store.value.1 == VReg(p) ==> v == store.value.0 && Now() == old(Now())
    {
      hide LoadBuilt, Pending, Sound, Known, Extends, MayEmit, EmitValue, WithValue;
      var store := ScanStores();
      if store.Some? && store.value.1 == VReg(p) {
        ForwardedBuilt(Now(), p, store.value.0);
        PendingKnown(cert, Now());
        WentSelf(cert, Now());
        return store.value.0;
      }
      LoadedBuilt(Now(), p);
      MayCompute(cert, Now(), Load, [VReg(p)]);
      ValueSound(cert, Now(), Load, [VReg(p)]);
      v := CreateValue(Load, [VReg(p)]);
    }

    /** A literal condition selects at once. */
    method BuildSelect(cond: Value, yes: Value, no: Value) returns (v: Value)
      requires Ok(Now()) && ValueBelow(cond, nextVreg) && ValueBelow(yes, nextVreg) && ValueBelow(no, nextVreg)
      requires Sound(cert, Now()) && Known(cert, Now(), cond) && Known(cert, Now(), yes) && Known(cert, Now(), no)
      modifies this`body, this`nextVreg, this`cert
      ensures SelectBuilt(old(Now()), cond, yes, no, Now(), v)
      ensures Found(old(cert), old(Now()), cert, Now(), v)
      ensures cond.ConstBool? ==> v == (if cond.b then yes else no) && Now() == old(Now())
    {
      hide SelectBuilt, Sound, Known, Extends, MayEmit, EmitValue, WithValue;
      if cond.ConstBool? {
        SelectFolded(Now(), cond.b, yes, no);
        WentSelf(cert, Now());
        return if cond.b then yes else no;
      }
      SelectEmitted(Now(), cond, yes, no);
      MayCompute(cert, Now(), Select, [cond, yes, no]);
      ValueSound(cert, Now(), Select, [cond, yes, no]);
      v := CreateValue(Select, [cond, yes, no]);
    }

    method BuildStore(v: Value, p: nat)
      requires cur in body && Sound(cert, Now()) && Known(cert, Now(), v) && Known(cert, Now(), VReg(p))
      modifies this`body
      ensures Now() == Emit(old(Now()), StoreInst(v, p))
      ensures Went(cert, old(Now()), cert, Now())
    {
      hide Sound, Known, Extends, MayEmit;
      MayStore(cert, Now(), v, p);
      EmitSound(cert, Now(), StoreInst(v, p));
      CreateInst(Inst(Store, None, [v, VReg(p)]));
    }

    method BuildAlloca(size: i64) returns (p: nat)
      requires cur in body && Sound(cert, Now())
      modifies this`body, this`nextVreg, this`cert
      ensures Now() == EmitValue(old(Now()), Alloca, [ConstInt(size)]) && p == old(nextVreg)
      ensures Found(old(cert), old(Now()), cert, Now(), VReg(p))
    {
      hide Sound, Known, Extends, MayEmit, EmitValue, WithValue;
      LiteralKnown(cert, Now(), ConstInt(size));
      MayCompute(cert, Now(), Alloca, [ConstInt(size)]);
      ValueSound(cert, Now(), Alloca, [ConstInt(size)]);
      p := nextVreg;
      var v := CreateValue(Alloca, [ConstInt(size)]);
    }

    method BuildJmp(b: nat)
      requires cur in body && Sound(cert, Now()) && Goal(cert, Now(), b)
      modifies this`body
      ensures Now() == Emit(old(Now()), JumpInst(b))
      ensures Went(cert, old(Now()), cert, Now())
    {
      hide Sound, Goal, Extends, MayEmit;
      MayJump(cert, Now(), b);
      EmitSound(cert, Now(), JumpInst(b));
      CreateInst(Inst(Jmp, None, [BlockRef(b)]));
    }

    /** A branch on a literal or with equal targets is a jump. */
    method BuildBr(cond: Value, a: nat, b: nat)
      requires cur in body && Sound(cert, Now()) && Known(cert, Now(), cond) && Goal(cert, Now(), a)
      requires Goal(cert, Now(), b)
      modifies this`body
      ensures Now() == Emit(old(Now()), BranchInst(cond, a, b))
      ensures Went(cert, old(Now()), cert, Now())
    {
      hide Sound, Known, Goal, Extends, MayEmit;
      MayBranch(cert, Now(), cond, a, b);
      EmitSound(cert, Now(), BranchInst(cond, a, b));
      if cond.ConstBool? {
        BuildJmp(if cond.b then a else b);
      } else if a == b {
        BuildJmp(a);
      } else {
        CreateInst(Inst(Br, None, [cond, BlockRef(a), BlockRef(b)]));
      }
    }
  }

  // ---------------------------------------------------------------------------------------------
  // Expressions of literals

  /** An integer expression without variables. */
  predicate OfLiterals(e: S.Expr) {
    match e
    case Lit(_) => true
    case Bin(op, l, r) => op.IsArith() && OfLiterals(l) && OfLiterals(r)
    case Neg(e1) => OfLiterals(e1)
    case Compl(e1) => OfLiterals(e1)
    case _ => false
  }

  predicate DecidedByLiterals(e: S.Expr) {
    e.BoolLit? || (e.Bin? && e.op.IsCompare() && OfLiterals(e.l) && OfLiterals(e.r))
  }

  /** No operator of the expression opens a block. */
  predicate Straight(e: S.Expr) {
    match e
    case Assign(_, _, value) => Straight(value)
    case Bin(_, l, r) => Straight(l) && Straight(r)
    case Logic(_, _, _) => false
    case Not(e1) => Straight(e1)
    case Neg(e1) => Straight(e1)
    case Compl(e1) => Straight(e1)
    case _ => true
  }

  /** If the value of an expression of literals is known, no code is needed: its value is a literal. */
  ghost predicate Written(e: S.Expr, s: State, s': State, v: Value) {
    var val := S.Value(e, map[]);
    && (OfLiterals(e) && val.Some? ==> s' == s && val.value.0.I? && v == ConstInt(val.value.0.i))
    && (DecidedByLiterals(e) && val.Some? ==> s' == s && val.value.0.B? && v == ConstBool(val.value.0.b))
  }

  lemma {:induction false} LiteralValue(e: S.Expr, env: S.Env)
    requires OfLiterals(e) && S.Value(e, env).Some?
    ensures S.Value(e, env).value.0.I? && S.Value(e, env).value.1 == env
  {
    hide Binary, BitOp, Wrap;
    match e
    case Lit(_) =>
    case Bin(op, l, r) =>
      LiteralValue(l, env);
      LiteralValue(r, env);
    case Neg(e1) => LiteralValue(e1, env);
    case Compl(e1) => LiteralValue(e1, env);
  }

  lemma BinWritten(op: Opcode, l: S.Expr, r: S.Expr, s: State, s1: State, lv: Value, s2: State, rv: Value, s3: State,
        v: Value)
    requires Written(l, s, s1, lv) && Written(r, s1, s2, rv) && (op.IsArith() || op.IsCompare())
    requires Fold(op, lv, rv, false).Some? ==> v == Fold(op, lv, rv, false).value && s3 == s2
    ensures Written(S.Bin(op, l, r), s, s3, v)
  {
    hide Binary;
    var e := S.Bin(op, l, r);
    if (OfLiterals(e) || DecidedByLiterals(e)) && S.Value(e, map[]).Some? {
      LiteralValue(l, map[]);
      LiteralValue(r, map[]);
      LiteralsFold(op, lv.i, rv.i);
    }
  }

  lemma LiteralsFold(op: Opcode, l: i64, r: i64)
    requires op.IsArith() || op.IsCompare()
    ensures match Binary(op, l, r)
            case None => Fold(op, ConstInt(l), ConstInt(r), false).None?
            case Some(z) =>
              Fold(op, ConstInt(l), ConstInt(r), false)
                == Some(if op.IsCompare() then ConstBool(z == 1) else ConstInt(z))
    ensures op.IsCompare() ==> Binary(op, l, r).Some?
  {
    hide Wrap, BitOp, TruncDiv, Pow2;
  }

  lemma NegWritten(e: S.Expr, s: State, s1: State, x: Value, s2: State, v: Value)
    requires Written(e, s, s1, x)
    requires Fold(Sub, ConstInt(0), x, false).Some? ==> v == Fold(Sub, ConstInt(0), x, false).value && s2 == s1
    ensures Written(S.Neg(e), s, s2, v)
  {
    hide Wrap;
    if OfLiterals(e) && S.Value(e, map[]).Some? { LiteralsFold(Sub, 0, x.i); }
  }

  lemma ComplWritten(e: S.Expr, s: State, s1: State, x: Value, s2: State, v: Value)
    requires Written(e, s, s1, x)
    requires Fold(Xor, x, ConstInt(-1), false).Some? ==> v == Fold(Xor, x, ConstInt(-1), false).value && s2 == s1
    ensures Written(S.Compl(e), s, s2, v)
  {
    hide BitOp;
    if OfLiterals(e) && S.Value(e, map[]).Some? {
      LiteralsFold(Xor, x.i, -1);
      BitwiseIs(Xor, x.i, -1);
    }
  }

  lemma NotWritten(e: S.Expr, s: State, s': State, v: Value)
    requires !OfLiterals(e) && !DecidedByLiterals(e)
    ensures Written(e, s, s', v)
  {}

  lemma SharingOnlyHelps(op: Opcode, l: Value, r: Value, same: bool)
    requires (op.IsArith() || op.IsCompare()) && (same ==> l == r)
    ensures Fold(op, l, r, false).Some? ==> Fold(op, l, r, same) == Fold(op, l, r, false)
  {
    hide Binary;
  }

  // ---------------------------------------------------------------------------------------------
  // Expressions

  /** Every variable of the expression is bound, and the assigned ones to cells. */
  predicate Usable(e: S.Expr, vars: map<nat, Binding>) {
    S.ScopedE(e, vars.Keys) && AssignsCells(e, vars)
  }

  predicate AssignsCells(e: S.Expr, vars: map<nat, Binding>)
  {
    forall x | x in vars && vars[x].Direct? :: !S.MutatesE(e, x)
  }

  lemma UsableParts(e: S.Expr, vars: map<nat, Binding>)
    requires Usable(e, vars)
    ensures match e
            case Assign(x, op, e1) => x in vars && vars[x].Cell? && (op.Some? ==> op.value.IsArith()) &&
              Usable(e1, vars)
            case Bin(op, l, r) => (op.IsArith() || op.IsCompare()) && Usable(l, vars) && Usable(r, vars)
            case Logic(_, l, r) => Usable(l, vars) && Usable(r, vars)
            case Not(e1) => Usable(e1, vars)
            case Neg(e1) => Usable(e1, vars)
            case Compl(e1) => Usable(e1, vars)
            case Var(x) => x in vars
            case _ => true
  {}

  lemma BoundBelow(s: State, x: nat)
    requires Ok(s) && x in s.vars
    ensures BindingBelow(s.vars[x], s.nextVreg) && s.cur in s.body
  {}

  /** An expression in scope can be generated here. */
  ghost predicate Expressible(c: Cert, s: State, e: S.Expr, d: set<nat>) {
    Ok(s) && Usable(e, s.vars) && Fit(c, s, d) && S.ScopedE(e, d)
  }

  /** Its code has been generated and its value is `v`. */
  ghost predicate Expressed(c: Cert, s: State, e: S.Expr, c': Cert, s': State, v: Value) {
    Evaluates(s, e, s', v) && Found(c, s, c', s', v)
  }

  lemma ExpressibleParts(c: Cert, s: State, e: S.Expr, d: set<nat>)
    requires Expressible(c, s, e, d)
    ensures Ok(s) && Sound(c, s) && Fit(c, s, d)
    ensures match e
            case Assign(x, op, e1) =>
              && x in d && x in s.vars && s.vars[x].Cell? && Known(c, s, VReg(s.vars[x].p))
              && (op.Some? ==> op.value.IsArith()) && Expressible(c, s, e1, d)
            case Bin(op, l, r) => (op.IsArith() || op.IsCompare()) && Expressible(c, s, l, d) && Expressible(c, s, r, d)
            case Logic(_, l, r) => Expressible(c, s, l, d) && Expressible(c, s, r, d)
            case Not(e1) => Expressible(c, s, e1, d)
            case Neg(e1) => Expressible(c, s, e1, d)
            case Compl(e1) => Expressible(c, s, e1, d)
            case Var(x) => x in d && x in s.vars && BindingKnown(c, s, s.vars[x])
            case _ => true
  {
    hide Ok, Sound, Known, Usable;
    UsableParts(e, s.vars);
  }

  /** After the code of another expression. */
  lemma StillExpressible(c: Cert, s: State, e: S.Expr, d: set<nat>, c': Cert, s': State)
    requires Expressible(c, s, e, d) && Built(s, s') && Went(c, s, c', s')
    ensures Expressible(c', s', e, d)
  {
    hide Fit, Went, Usable, Local, Grows, S.ScopedE;
    FitThen(c, s, c', s', d);
  }

  /** Generates the code of an expression at the insertion point and returns where its value is. */
  method GenExpression(b: IrBuilder, e: S.Expr, ghost d: set<nat>) returns (v: Value)
    requires Expressible(b.cert, b.Now(), e, d)
    modifies b`order, b`body, b`cur, b`nextVreg, b`nextBlock, b`cert
    ensures Expressed(old(b.cert), old(b.Now()), e, b.cert, b.Now(), v)
    ensures Written(e, old(b.Now()), b.Now(), v)
    ensures Straight(e) ==> b.cur == old(b.cur) && b.nextBlock == old(b.nextBlock)
    decreases e, 2
  {
    hide Written, Ok, Evaluates, Expressible, Expressed, LoadBuilt, ValueBelow, Sound, Known, Fit, Found, Went;
    ghost var c, s := b.cert, b.Now();
    ExpressibleParts(c, s, e, d);
    match e {
      case Lit(i) =>
        v := ConstInt(i);
        LiteralExpressed(c, s, e, v, S.I(i));
        LiteralWritten(e, s, v);
      case BoolLit(t) =>
        v := ConstBool(t);
        LiteralExpressed(c, s, e, v, S.B(t));
        LiteralWritten(e, s, v);
      case Var(x) =>
        BoundBelow(s, x);
        match b.vars[x] {
          case Direct(u) =>
            v := u;
            DirectEvaluates(s, x, v);
            WentSelf(c, s);
            assert Found(c, s, c, s, v) by { FoundAtOnce(c, s, v); }
          case Cell(p) =>
            v := b.BuildLoad(p);
            CellEvaluates(s, x, p, b.Now(), v);
        }
        ExpressedIs(c, s, e, b.cert, b.Now(), v);
        NotWritten(e, s, b.Now(), v);
      case Assign(x, op, value) =>
        v := GenAssign(b, x, op, value, d);
        NotWritten(e, s, b.Now(), v);
      case Bin(op, l, r) => v := GenBinary(b, op, l, r, d);
      case Logic(isAnd, l, r) =>
        v := GenLogic(b, isAnd, l, r, d);
        NotWritten(e, s, b.Now(), v);
      case _ => v := GenUnary(b, e, d);
    }
  }

  lemma LiteralWritten(e: S.Expr, s: State, v: Value)
    requires (e.Lit? && v == ConstInt(e.i)) || (e.BoolLit? && v == ConstBool(e.b))
    ensures Written(e, s, s, v)
  {}

  lemma ExpressedIs(c: Cert, s: State, e: S.Expr, c': Cert, s': State, v: Value)
    requires Evaluates(s, e, s', v) && Found(c, s, c', s', v)
    ensures Expressed(c, s, e, c', s', v)
  {}

  lemma ExpressedParts(c: Cert, s: State, e: S.Expr, c': Cert, s': State, v: Value)
    requires Expressed(c, s, e, c', s', v)
    ensures Evaluates(s, e, s', v) && Built(s, s') && ValueBelow(v, s'.nextVreg) && Ok(s') && s'.vars == s.vars
    ensures s.nextVreg <= s'.nextVreg
    ensures Found(c, s, c', s', v) && Went(c, s, c', s') && Known(c', s', v) && Sound(c', s')
  {
    hide Evaluates, Found, Went, Sound, Known, Built, Ok;
    EvaluatesKeeps(s, e, s', v);
    KeepsVars(s, s');
    FoundParts(c, s, c', s', v);
  }

  lemma FoundAtOnce(c: Cert, s: State, v: Value)
    requires Sound(c, s) && Known(c, s, v)
    ensures Found(c, s, c, s, v)
  {
    hide Sound, Known;
    WentSelf(c, s);
  }

  lemma LiteralExpressed(c: Cert, s: State, e: S.Expr, v: Value, val: S.Val)
    requires Ok(s) && Sound(c, s) && forall env :: S.Value(e, env) == Some((val, env))
    requires v == ConstInt(S.Enc(val)) || (val.B? && v == ConstBool(val.b))
    ensures Expressed(c, s, e, c, s, v)
  {
    hide Ok, Sound, Evaluates, Known;
    LiteralKnown(c, s, v);
    FoundAtOnce(c, s, v);
    LiteralEvaluates(s, e, v, val);
  }

  /** Both operands, then the operation. */
  method GenBinary(b: IrBuilder, op: Opcode, l: S.Expr, r: S.Expr, ghost d: set<nat>) returns (v: Value)
    requires Expressible(b.cert, b.Now(), S.Bin(op, l, r), d)
    modifies b`order, b`body, b`cur, b`nextVreg, b`nextBlock, b`cert
    ensures Expressed(old(b.cert), old(b.Now()), S.Bin(op, l, r), b.cert, b.Now(), v)
    ensures Written(S.Bin(op, l, r), old(b.Now()), b.Now(), v)
    ensures Straight(l) && Straight(r) ==> b.cur == old(b.cur) && b.nextBlock == old(b.nextBlock)
    decreases S.Bin(op, l, r), 0
  {
    hide Written, Fold, Ok, Built, Evaluates, Expressible, Expressed, BinaryBuilt, ValueBelow, Sound, Known, Fit, Found,
      Went;
    ghost var c, s := b.cert, b.Now();
    ExpressibleParts(c, s, S.Bin(op, l, r), d);
    var lv := GenExpression(b, l, d);
    ghost var c1, s1 := b.cert, b.Now();
    ExpressedParts(c, s, l, c1, s1, lv);
    StillExpressible(c, s, r, d, c1, s1);
    var rv := GenExpression(b, r, d);
    ghost var c2, s2 := b.cert, b.Now();
    ExpressedParts(c1, s1, r, c2, s2, rv);
    BelowLater(lv, s1.nextVreg, s2.nextVreg);
    KnownThen(c1, s1, c2, s2, lv);
    v := b.BuildBinary(op, lv, rv);
    BinEvaluates(s, op, l, r, s1, lv, s2, rv, b.Now(), v);
    BinWritten(op, l, r, s, s1, lv, s2, rv, b.Now(), v);
    WentTransitive(c, s, c1, s1, c2, s2);
    FoundAfter(c, s, c2, s2, b.cert, b.Now(), v);
    ExpressedIs(c, s, S.Bin(op, l, r), b.cert, b.Now(), v);
  }

  /** The operation and the literal operand of a unary expression. */
  method GenUnary(b: IrBuilder, e: S.Expr, ghost d: set<nat>) returns (v: Value)
    requires Expressible(b.cert, b.Now(), e, d) && (e.Not? || e.Neg? || e.Compl?)
    modifies b`order, b`body, b`cur, b`nextVreg, b`nextBlock, b`cert
    ensures Expressed(old(b.cert), old(b.Now()), e, b.cert, b.Now(), v)
    ensures Written(e, old(b.Now()), b.Now(), v)
    ensures Straight(e.e) ==> b.cur == old(b.cur) && b.nextBlock == old(b.nextBlock)
    decreases e, 0
  {
    hide Written, Fold, Ok, Built, Evaluates, Expressible, Expressed, BinaryBuilt, ValueBelow, Sound, Known, Fit, Found,
      Went;
    ghost var c, s := b.cert, b.Now();
    ExpressibleParts(c, s, e, d);
    var x := GenExpression(b, e.e, d);
    ghost var c1, s1 := b.cert, b.Now();
    ExpressedParts(c, s, e.e, c1, s1, x);
    match e {
      case Not(e1) =>
        LiteralBelow(ConstBool(true), s1.nextVreg);
        LiteralKnown(c1, s1, ConstBool(true));
        v := b.BuildBinary(Xor, x, ConstBool(true));
        NotEvaluates(s, e1, s1, x, b.Now(), v);
        NotWritten(e, s, b.Now(), v);
      case Neg(e1) =>
        LiteralBelow(ConstInt(0), s1.nextVreg);
        LiteralKnown(c1, s1, ConstInt(0));
        v := b.BuildBinary(Sub, ConstInt(0), x);
        NegEvaluates(s, e1, s1, x, b.Now(), v);
        NegWritten(e1, s, s1, x, b.Now(), v);
      case Compl(e1) =>
        LiteralBelow(ConstInt(-1), s1.nextVreg);
        LiteralKnown(c1, s1, ConstInt(-1));
        v := b.BuildBinary(Xor, x, ConstInt(-1));
        ComplEvaluates(s, e1, s1, x, b.Now(), v);
        ComplWritten(e1, s, s1, x, b.Now(), v);
    }
    FoundAfter(c, s, c1, s1, b.cert, b.Now(), v);
    ExpressedIs(c, s, e, b.cert, b.Now(), v);
  }

  lemma LiteralBelow(v: Value, n: nat)
    requires !v.VReg?
    ensures ValueBelow(v, n)
  {}

  lemma BelowLater(v: Value, n: nat, k: nat)
    requires ValueBelow(v, n) && n <= k
    ensures ValueBelow(v, k)
  {}

  lemma KeepsVars(s: State, s': State)
    requires Built(s, s')
    ensures s'.vars == s.vars && s.nextVreg <= s'.nextVreg && Ok(s')
  {
    hide Ok, Local;
  }

  /** An assignment, possibly compound; the target's cell is read after the value has been computed. */
  method GenAssign(b: IrBuilder, x: nat, op: Option<Opcode>, value: S.Expr, ghost d: set<nat>) returns (v: Value)
    requires Expressible(b.cert, b.Now(), S.Assign(x, op, value), d)
    modifies b`order, b`body, b`cur, b`nextVreg, b`nextBlock, b`cert
    ensures Expressed(old(b.cert), old(b.Now()), S.Assign(x, op, value), b.cert, b.Now(), v)
    ensures Straight(value) ==> b.cur == old(b.cur) && b.nextBlock == old(b.nextBlock)
    decreases S.Assign(x, op, value), 0
  {
    hide Ok, Built, Evaluates, Expressible, Expressed, ValueBelow, Sound, Known, Fit, Found, Went, Emit;
    ghost var c, s, e := b.cert, b.Now(), S.Assign(x, op, value);
    ExpressibleParts(c, s, e, d);
    var p := b.vars[x].p;
    BoundBelow(s, x);
    v := GenExpression(b, value, d);
    ghost var c1, s1, v1 := b.cert, b.Now(), v;
    ExpressedParts(c, s, value, c1, s1, v);
    KnownThen(c, s, c1, s1, VReg(p));
    if op.Some? {
      v := GenCompound(b, x, op.value, value, v, p, c, s);
    } else {
      OkCur(s1);
      b.BuildStore(v, p);
      AssignEvaluates(s, x, value, s1, v, p);
      WentTransitive(c, s, c1, s1, b.cert, b.Now());
      FoundThere(c, s, c1, s1, b.cert, b.Now(), v);
      ExpressedIs(c, s, e, b.cert, b.Now(), v);
    }
  }

  lemma FoundThere(c: Cert, s: State, c1: Cert, s1: State, c2: Cert, s2: State, v: Value)
    requires Went(c, s, c1, s1) && Went(c1, s1, c2, s2) && Known(c1, s1, v)
    ensures Found(c, s, c2, s2, v)
  {
    hide Went, Known;
    WentTransitive(c, s, c1, s1, c2, s2);
    KnownThen(c1, s1, c2, s2, v);
  }

  /** The rest of a compound assignment: load, operate, store. */
  method GenCompound(b: IrBuilder, x: nat, op: Opcode, ghost value: S.Expr, v1: Value, p: nat, ghost c: Cert,
        ghost s: State)
    returns (v: Value)
    requires Ok(s) && x in s.vars && s.vars[x] == Cell(p) && p < s.nextVreg && op.IsArith()
    requires Expressed(c, s, value, b.cert, b.Now(), v1) && Known(b.cert, b.Now(), VReg(p))
    modifies b`body, b`nextVreg, b`cert
    ensures Expressed(c, s, S.Assign(x, Some(op), value), b.cert, b.Now(), v)
  {
    hide Ok, Built, Evaluates, Expressed, LoadBuilt, BinaryBuilt, ValueBelow, Sound, Known, Found, Went, Emit,
      Grows, IsOpen;
    ghost var c1, s1 := b.cert, b.Now();
    ExpressedParts(c, s, value, c1, s1, v1);
    var current := b.BuildLoad(p);
    ghost var c2, s2 := b.cert, b.Now();
    CompoundLoaded(c1, s1, c2, s2, v1, p, current);
    v := b.BuildBinary(op, current, v1);
    ghost var c3, s3 := b.cert, b.Now();
    CompoundComputed(c2, s2, c3, s3, op, current, v1, p, v);
    b.BuildStore(v, p);
    CompoundEvaluates(s, x, op, value, s1, v1, p, s2, current, s3, v);
    CompoundFound(c, s, c1, s1, c2, s2, c3, s3, b.cert, b.Now(), v);
    ExpressedIs(c, s, S.Assign(x, Some(op), value), b.cert, b.Now(), v);
  }

  lemma CompoundLoaded(c1: Cert, s1: State, c2: Cert, s2: State, v1: Value, p: nat, v2: Value)
    requires LoadBuilt(s1, p, s2, v2) && Found(c1, s1, c2, s2, v2) && ValueBelow(v1, s1.nextVreg)
    requires Known(c1, s1, v1) && Known(c1, s1, VReg(p))
    ensures Ok(s2) && ValueBelow(v2, s2.nextVreg) && ValueBelow(v1, s2.nextVreg) && s1.nextVreg <= s2.nextVreg
    ensures Went(c1, s1, c2, s2) && Sound(c2, s2) && Known(c2, s2, v2) && Known(c2, s2, v1) && Known(c2, s2, VReg(p))
  {
    hide Ok, Built, LoadBuilt, ValueBelow, Sound, Known, Found, Went;
    LoadKeeps(s1, p, s2, v2);
    KeepsVars(s1, s2);
    FoundParts(c1, s1, c2, s2, v2);
    BelowLater(v1, s1.nextVreg, s2.nextVreg);
    KnownThen(c1, s1, c2, s2, v1);
    KnownThen(c1, s1, c2, s2, VReg(p));
  }

  lemma CompoundComputed(c2: Cert, s2: State, c3: Cert, s3: State, op: Opcode, v2: Value, v1: Value, p: nat, v3: Value)
    requires BinaryBuilt(s2, op, v2, v1, s3, v3) && Found(c2, s2, c3, s3, v3) && Known(c2, s2, VReg(p))
    ensures Went(c2, s2, c3, s3) && Sound(c3, s3) && Known(c3, s3, v3) && Known(c3, s3, VReg(p)) && s3.cur in s3.body
  {
    hide Ok, Built, BinaryBuilt, ValueBelow, Sound, Known, Found, Went;
    BinaryKeeps(s2, op, v2, v1, s3, v3);
    KeepsVars(s2, s3);
    FoundParts(c2, s2, c3, s3, v3);
    KnownThen(c2, s2, c3, s3, VReg(p));
    OkCur(s3);
  }

  lemma CompoundFound(c: Cert, s: State, c1: Cert, s1: State, c2: Cert, s2: State, c3: Cert, s3: State, c4: Cert,
        s4: State, v: Value)
    requires Went(c, s, c1, s1) && Went(c1, s1, c2, s2) && Went(c2, s2, c3, s3) && Went(c3, s3, c4, s4)
    requires Known(c3, s3, v)
    ensures Found(c, s, c4, s4, v)
  {
    hide Went, Known, Found;
    WentTransitive(c, s, c1, s1, c2, s2);
    WentTransitive(c, s, c2, s2, c3, s3);
    FoundThere(c, s, c3, s3, c4, s4, v);
  }

  lemma OkCur(s: State)
    requires Ok(s)
    ensures s.cur in s.body
  {}

  /** Short-circuit evaluation. */
  method GenLogic(b: IrBuilder, isAnd: bool, l: S.Expr, r: S.Expr, ghost d: set<nat>) returns (v: Value)
    requires Expressible(b.cert, b.Now(), S.Logic(isAnd, l, r), d)
    modifies b`order, b`body, b`cur, b`nextVreg, b`nextBlock, b`cert
    ensures Expressed(old(b.cert), old(b.Now()), S.Logic(isAnd, l, r), b.cert, b.Now(), v)
    decreases S.Logic(isAnd, l, r), 1
  {
    hide Ok, Built, Evaluates, Expressible, Expressed, ValueBelow, Grows, Local, OthersKept, Branched, Joined, Sound,
      Known, Fit, Found, Went, Extends, LogicBuilt, WithBlock, LeftPart, Laid, NewBlock;
    ghost var c, s := b.cert, b.Now();
    ExpressibleParts(c, s, S.Logic(isAnd, l, r), d);
    TwoNumbers(s);
    LaidNone(c, s);
    var rightBlock := b.CreateBlock();
    LaidNew(c, s, c, s, {}, b.cert, b.Now());
    ghost var c0, s0 := b.cert, b.Now();
    var mergeBlock := b.CreateBlock();
    ghost var c1, s1, blocks := b.cert, b.Now(), {} + {rightBlock} + {mergeBlock};
    LaidNew(c, s, c0, s0, {} + {rightBlock}, c1, s1);
    LaidSound(c, s, c1, s1, blocks, {});
    MovedExpressible(c, s, l, d, c1, s1);
    var left := GenExpression(b, l, d);
    ghost var c2, s2 := b.cert, b.Now();
    ExpressedParts(c1, s1, l, c2, s2, left);
    BuiltLocal(s1, s2);
    LaidLocal(c, s, c1, s1, blocks, c2, s2);
    LeftShape(s, isAnd, l, s2, left);
    assert blocks == {rightBlock, mergeBlock};
    v := GenRight(b, isAnd, l, r, left, rightBlock, mergeBlock, d, c, s);
  }

  lemma TwoNumbers(s: State)
    requires Ok(s)
    ensures var s1 := NewBlock(s);
      && s1.nextBlock == s.nextBlock + 1 && NewBlock(s1) == Opened(s) && Ok(Opened(s)) && Opened(s).vars == s.vars
      && Opened(s).cur == s.cur
      && s.cur < s.nextBlock
  {
    hide Valid, CellsDiffer;
    NewBlockOk(s);
    NewBlockOk(NewBlock(s));
  }

  lemma MovedExpressible(c: Cert, s: State, e: S.Expr, d: set<nat>, c': Cert, s': State)
    requires Expressible(c, s, e, d) && s'.vars == s.vars && Went(c, s, c', s') && Ok(s')
    ensures Expressible(c', s', e, d)
  {
    hide Ok, Went, Fit, Usable, S.ScopedE;
    FitThen(c, s, c', s', d);
  }

  lemma BuiltLocal(s: State, s': State)
    requires Built(s, s')
    ensures Local(s, s')
  {
    hide Ok, Grows, Local;
  }

  /** From the left operand on: its value goes into a cell, the right operand is evaluated if it decides, and the
      cell is read where both ways meet. */
  method GenRight(b: IrBuilder, isAnd: bool, ghost l: S.Expr, r: S.Expr, left: Value, rightBlock: nat, mergeBlock: nat,
        ghost d: set<nat>, ghost c: Cert, ghost s: State)
    returns (v: Value)
    requires Expressible(c, s, S.Logic(isAnd, l, r), d) && Evaluates(Opened(s), l, b.Now(), left)
    requires Known(b.cert, b.Now(), left)
    requires Laid(c, s, b.cert, b.Now(), {rightBlock, mergeBlock}, {}) && rightBlock == s.nextBlock
    requires mergeBlock == s.nextBlock + 1
    requires b.cur in b.body && LeftPart(s, isAnd, b.Now(), left)
    modifies b`order, b`body, b`cur, b`nextVreg, b`nextBlock, b`cert
    ensures Expressed(c, s, S.Logic(isAnd, l, r), b.cert, b.Now(), v)
    decreases S.Logic(isAnd, l, r), 0
  {
    hide Ok, Built, Evaluates, Expressible, Expressed, LoadBuilt, ValueBelow, Grows, Local, OthersKept, Branched,
      Joined,
      Sound, Known, Fit, Found, Went, Extends, Laid, Goal;
    ghost var s2, e, open := b.Now(), S.Logic(isAnd, l, r), {} + {rightBlock} + {mergeBlock};
    ExpressibleParts(c, s, e, d);
    var resultPtr, c4, s4 := StoreAndBranch(b, left, isAnd, rightBlock, mergeBlock, c, s);
    ghost var c5, s5 := b.cert, b.Now();
    LaidMove(c, s, c4, s4, {}, open, rightBlock, c5, s5);
    b.SetInsertPoint(rightBlock);
    ghost var s6 := b.Now();
    assert Ok(s6) && s6.vars == s.vars;
    MovedExpressible(c, s, r, d, c5, s6);
    KnownThen(c4, s4, c5, s6, VReg(resultPtr));
    var right := GenExpression(b, r, d);
    ghost var c7, s7 := b.cert, b.Now();
    ExpressedParts(c5, s6, r, c7, s7, right);
    RightShape(s6, r, s7, right, resultPtr, mergeBlock);
    KnownThen(c5, s6, c7, s7, VReg(resultPtr));
    WentTransitive(c4, s4, c5, s6, c7, s7);
    LaidGoal(c, s, c4, s4, {}, open, mergeBlock, c7, s7);
    StoreAndJoin(b, right, resultPtr, mergeBlock);
    ghost var c9, s9 := b.cert, b.Now();
    WentTransitive(c4, s4, c7, s7, c9, s9);
    LaidMove(c, s, c4, s4, {}, open, mergeBlock, c9, s9);
    b.SetInsertPoint(mergeBlock);
    ghost var s10 := b.Now();
    KnownThen(c4, s4, c9, s10, VReg(resultPtr));
    v := b.BuildLoad(resultPtr);
    assert LogicBuilt(s, isAnd, l, r, s2, left, s7, right, b.Now(), v);
    LogicEvaluates(s, isAnd, l, r, s2, left, s7, right, b.Now(), v);
    FoundAfter(c, s, c9, s10, b.cert, b.Now(), v);
    ExpressedIs(c, s, e, b.cert, b.Now(), v);
  }

  /** The left value goes into the result's cell, then the block branches; `s1` is the state in between. */
  method StoreAndBranch(b: IrBuilder, left: Value, isAnd: bool, rightBlock: nat, mergeBlock: nat, ghost c: Cert,
        ghost s: State)
    returns (resultPtr: nat, ghost c1: Cert, ghost s1: State)
    requires Ok(b.Now()) && ValueBelow(left, b.nextVreg) && b.cur in b.body && rightBlock != mergeBlock
    requires Laid(c, s, b.cert, b.Now(), {rightBlock, mergeBlock}, {}) && Known(b.cert, b.Now(), left)
    modifies b`order, b`body, b`cur, b`nextVreg, b`nextBlock, b`cert
    ensures b.Now() == Branched(old(b.Now()), left, isAnd, rightBlock, mergeBlock) && resultPtr == old(b.nextVreg)
    ensures Laid(c, s, c1, s1, {}, {} + {rightBlock} + {mergeBlock}) && Went(c1, s1, b.cert, b.Now())
    ensures Known(c1, s1, VReg(resultPtr))
  {
    hide Ok, Grows, Emit, EmitValue, Sound, Known, Found, Went, Goal, Laid, Activated, SamePoint;
    ghost var c0, s0 := b.cert, b.Now();
    LeftStates(s0, left, isAnd, rightBlock, mergeBlock);
    LaidSound(c, s, c0, s0, {rightBlock, mergeBlock}, {});
    resultPtr := b.BuildAlloca(1);
    ghost var c2, s2 := b.cert, b.Now();
    FoundParts(c0, s0, c2, s2, VReg(resultPtr));
    KnownThen(c0, s0, c2, s2, left);
    b.BuildStore(left, resultPtr);
    ghost var c3, s3 := b.cert, b.Now();
    s1 := s3;
    KnownThen(c2, s2, c3, s3, left);
    KnownThen(c2, s2, c3, s3, VReg(resultPtr));
    WentTransitive(c0, s0, c2, s2, c3, s3);
    StoredLocal(s0, left);
    LaidLocal(c, s, c0, s0, {rightBlock, mergeBlock}, c3, s3);
    c1 := OpenBoth(b, c, s, rightBlock, mergeBlock);
    KnownSamePoint(c3, s3, c1, left);
    KnownSamePoint(c3, s3, c1, VReg(resultPtr));
    BothGoals(c, s, c1, s1, rightBlock, mergeBlock);
    if isAnd {
      b.BuildBr(left, rightBlock, mergeBlock);
    } else {
      b.BuildBr(left, mergeBlock, rightBlock);
    }
  }

  lemma StoredLocal(s0: State, left: Value)
    requires s0.cur in s0.body
    ensures var s2 := EmitValue(s0, Alloca, [ConstInt(1)]);
      s2.cur in s2.body && Local(s0, Emit(s2, StoreInst(left, s0.nextVreg)))
  {}

  /** From here on both blocks may be jumped to. */
  ghost method OpenBoth(b: IrBuilder, c: Cert, s: State, x: nat, y: nat) returns (c1: Cert)
    requires Laid(c, s, b.cert, b.Now(), {x, y}, {}) && x != y
    modifies b`cert
    ensures c1 == b.cert && Laid(c, s, c1, b.Now(), {}, {} + {x} + {y}) && SamePoint(old(b.cert), b.Now(), c1, b.Now())
  {
    hide Laid, Activated, HereLive, Avail;
    var c0, s0 := b.cert, b.Now();
    var c2 := Activated(c0, s0, x);
    LaidOpen(c, s, c0, s0, {x, y}, {}, x, c2);
    c1 := Activated(c2, s0, y);
    assert {x, y} - {x} == {y} && {y} - {y} == {};
    LaidOpen(c, s, c2, s0, {y}, {} + {x}, y, c1);
    b.cert := c1;
  }

  lemma BothGoals(c: Cert, s: State, c1: Cert, s1: State, x: nat, y: nat)
    requires Laid(c, s, c1, s1, {}, {} + {x} + {y})
    ensures Goal(c1, s1, x) && Goal(c1, s1, y) && Sound(c1, s1) && Went(c1, s1, c1, s1)
  {
    hide Laid, Sound, Went, Goal;
    LaidSound(c, s, c1, s1, {}, {} + {x} + {y});
    WentSelf(c1, s1);
    LaidGoal(c, s, c1, s1, {}, {} + {x} + {y}, x, c1, s1);
    LaidGoal(c, s, c1, s1, {}, {} + {x} + {y}, y, c1, s1);
  }

  /** The right value goes into the result's cell, then the block joins. */
  method StoreAndJoin(b: IrBuilder, right: Value, resultPtr: nat, mergeBlock: nat)
    requires Ok(b.Now()) && b.cur in b.body && Sound(b.cert, b.Now())
    requires Known(b.cert, b.Now(), right) && Known(b.cert, b.Now(), VReg(resultPtr))
    requires Goal(b.cert, b.Now(), mergeBlock)
    modifies b`body
    ensures b.Now() == Joined(old(b.Now()), right, resultPtr, mergeBlock)
    ensures Went(b.cert, old(b.Now()), b.cert, b.Now())
  {
    hide Ok, Grows, Emit, Sound, Known, Went, Goal, Extends;
    ghost var c, s := b.cert, b.Now();
    RightStates(s, right, resultPtr, mergeBlock);
    b.BuildStore(right, resultPtr);
    ghost var s1 := b.Now();
    WentSound(c, s, c, s1);
    GoalThen(c, s, c, s1, mergeBlock);
    b.BuildJmp(mergeBlock);
    WentTransitive(c, s, c, s1, c, b.Now());
  }
}
