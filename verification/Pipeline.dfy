/** One function from its source to machine registers: generated, optimized and allocated, it answers as the
    source does. */
module Pipeline {
  import opened Sir
  import opened Ssa
  import opened SirFunctions
  import opened Builder
  import opened Frames
  import opened FunctionGen
  import opened Refinement
  import opened Interference
  import opened RegAlloc
  import opened AllocSim
  import S = Source
  import Y = Typing
  import P = PropagationPass
  import D = DeadCode
  import T = Threading
  import L = FunctionPasses
  import Settled

  // ---------------------------------------------------------------------------------------------
  // Answers at a cost

  ghost predicate Settles(run: nat -> Outcome, c: nat, o: Outcome) { forall n: nat | n > c :: run(n) == o }

  /** With enough fuel the runs end in `o`; input, output and the memory outside the frame are as before. */
  ghost predicate EndsIn(run: nat -> Outcome, t: Setting, w: World, o: Outcome, w': World, c: nat) {
    Settles(run, c, o) && Kept(t, map[], 0, w, w')
  }

  /** The source's answer to a call, computed with fuel `k`, and what runs of compiled code do: `run(n)` is one with
      fuel `n`, and compiled code may need up to `e` times less fuel than the source. */
  ghost predicate AnswersBy(run: nat -> Outcome, t: Setting, w: World, k: nat, r: S.Res, e: nat) {
    match r
    case Returns(v) => exists w', c :: EndsIn(run, t, w, Returned(S.Answer(v), w'), w', c)
    case Halts => exists w', c :: EndsIn(run, t, w, Trapped(w'), w', c)
    case Endless => forall n: nat | e * n <= k :: run(n) == OutOfFuel
    case Fails => true
    case _ => false
  }

  function RunsOf(t: Setting, w: World): nat -> Outcome { (n: nat) => RunFunc(t.m, t.g, t.params, w, n) }

  /** A call of `g` in a frame that has what the generated code `g0` asks for. */
  ghost predicate Calls(t: Setting, g: Func, g0: Func, size: nat, f: S.Function, args: seq<S.Val>) {
    t.g == g && t.size >= size && FrameOk(t.(g := g0)) && ArgsOf(f, args) && t.params == Encoded(args)
  }

  /** On every machine with such a frame `g` answers every call as the source does, and `g` asks for no other slots. */
  ghost predicate ImplementsAt(g: Func, g0: Func, size: nat, f: S.Function, e: nat) {
    && e > 0 && Derives(g0, g)
    && forall t: Setting, args: seq<S.Val>, w: World, k: nat | Calls(t, g, g0, size, f, args) ::
      AnswersBy(RunsOf(t, w), t, w, k, S.Call(f, args, k), e)
  }

  // ---------------------------------------------------------------------------------------------
  // Optimized code

  /** What a settled run of `f` becomes in a refinement. */
  lemma SettledRefines(m: Machine, f: Func, g: Func, params: seq<i64>, w: World, o: Outcome, c: nat, e: nat)
    requires Bounded(f, g, e) && o != OutOfFuel && o != Fault
    requires forall n: nat | n > c :: RunFunc(m, f, params, w, n) == o
    ensures forall n: nat | n > e * (c + 1) :: RunFunc(m, g, params, w, n) == o
  {
    hide RunFunc, TracksBack;
    assert RunFunc(m, f, params, w, c + 1) == o;
    forall n: nat | n > e * (c + 1)
      ensures RunFunc(m, g, params, w, n) == o
    {
      FuncMoreFuel(m, g, params, w, e * (c + 1), n);
    }
  }

  lemma RunningRefines(m: Machine, f: Func, g: Func, params: seq<i64>, w: World, k: nat, e: nat)
    requires Bounded(f, g, e) && forall n: nat | n <= k :: RunFunc(m, f, params, w, n) == OutOfFuel
    ensures forall n: nat | e * n <= k :: RunFunc(m, g, params, w, n) == OutOfFuel
  {
    hide RunFunc, Tracks;
    forall n: nat | e * n <= k
      ensures RunFunc(m, g, params, w, n) == OutOfFuel
    {
      assert RunFunc(m, f, params, w, e * n) == OutOfFuel;
    }
  }

  lemma EndRefines(t: Setting, g: Func, t': Setting, w: World, o: Outcome, w': World, c: nat, e: nat)
    requires t' == t.(g := g) && Bounded(t.g, g, e) && o != OutOfFuel && o != Fault && EndsAlike(t, w, o, w', c)
    ensures EndsIn(RunsOf(t', w), t', w, o, w', e * (c + 1))
  {
    hide RunFunc, Bounded;
    SettledRefines(t.m, t.g, g, t.params, w, o, c, e);
    SameKept(t, t', w, w');
  }

  lemma SameKept(t: Setting, t': Setting, w: World, w': World)
    requires t'.addr == t.addr && t'.bytes == t.bytes && t'.size == t.size && Kept(t, map[], 0, w, w')
    ensures Kept(t', map[], 0, w, w')
  {
    forall a: int | !MayTouch(t', map[], 0, a)
      ensures SameAt(a, w, w')
    {
      assert !MayTouch(t, map[], 0, a);
    }
  }

  lemma AnswerRefines(g: Func, g': Func, size: nat, f: S.Function, e: nat, t': Setting, args: seq<S.Val>, w: World,
        k: nat)
    requires Implements(g, size, f) && Bounded(g, g', e) && Calls(t', g', g, size, f, args)
    ensures AnswersBy(RunsOf(t', w), t', w, k, S.Call(f, args, k), e)
  {
    hide Encoded, EndsAlike, EndsIn, FrameOk, RunFunc, S.Answer, S.Call, Bounded;
    var t := t'.(g := g);
    assert Answers(t, w, k, S.Call(f, args, k));
    match S.Call(f, args, k) {
      case Returns(v) =>
        var w', c :| EndsAlike(t, w, Returned(S.Answer(v), w'), w', c);
        EndRefines(t, g', t', w, Returned(S.Answer(v), w'), w', c, e);
      case Halts =>
        var w', c :| EndsAlike(t, w, Trapped(w'), w', c);
        EndRefines(t, g', t', w, Trapped(w'), w', c, e);
      case Endless =>
        RunningRefines(t.m, g, g', t.params, w, k, e);
      case Fails =>
      case _ => assert false;
    }
  }

  /** A refinement of an implementation is one, at the cost of the refinement. */
  lemma RefinementImplements(g: Func, g': Func, size: nat, f: S.Function, e: nat)
    requires Implements(g, size, f) && Bounded(g, g', e) && Derives(g, g')
    ensures ImplementsAt(g', g, size, f, e)
  {
    hide Implements, FrameOk, Encoded, AnswersBy, Tracks, TracksBack, Derives;
    forall t: Setting, args: seq<S.Val>, w: World, k: nat | Calls(t, g', g, size, f, args)
      ensures AnswersBy(RunsOf(t, w), t, w, k, S.Call(f, args, k), e)
    {
      AnswerRefines(g, g', size, f, e, t, args, w, k);
    }
  }

  lemma OldFromLow(f: Func, g: Func, low: nat)
    requires FromLow(f, low) && OnlyOld(f, g)
    ensures FromLow(g, low)
  {
    hide RegsFrom;
  }

  lemma SkeletonFromLow(f: Func, g: Func, low: nat)
    requires FromLow(f, low) && T.SameSkeleton(f, g)
    ensures FromLow(g, low)
  {
    forall b, x | b in g.body && x in g.body[b]
      ensures RegsFrom(x, low)
    {
      var k :| 0 <= k < |g.body[b]| && g.body[b][k] == x;
      assert T.SameRegisters(f.body[b][k], x) && f.body[b][k] in f.body[b];
      assert RegsFrom(f.body[b][k], low);
    }
  }

  lemma PassesRefine(f: Func, g: Func, h: Func, r: Func)
    requires Lockstep(f, g) && Lockstep(g, h) && SameEnds(h, r)
    ensures Refines(f, r)
  {
    hide Lockstep, SameEnds, Refines;
    LockstepRefines(f, g);
    LockstepRefines(g, h);
    SameEndsRefines(h, r);
    RefinesTransitive(f, g, h);
    RefinesTransitive(f, h, r);
  }

  /** Generation, propagation, dead code elimination and jump threading. */
  method CompileFunction(f: S.Function) returns (fn: SirFunction, size: nat, ghost e: nat, ghost g0: Func)
    requires S.FunctionOk(f) && |f.params| < TWO_63
    ensures fresh(fn) && WellFormed(fn.Snapshot()) && FromLow(fn.Snapshot(), 1)
    ensures ImplementsAt(fn.Snapshot(), g0, size, f, e)
    ensures L.TidyFunction(fn.Snapshot(), 2)
  {
    hide WellFormed, StrictSsa, Implements, ImplementsAt, Derives, Lockstep, SameEnds, SameRuns, FromLow, OnlyOld,
      Bounded, T.FullyThreaded, T.SameSkeleton, D.NoDeadCode, D.Thinned, P.NoConstantBranches, S.FunctionOk,
      L.TidyFunction, Settled.FuncSettled;
    var g;
    ghost var cert;
    g, size, cert := GenFunction(f);
    g0 := g;
    fn := new SirFunction(g);
    P.PropagateConstants(fn, cert);
    ghost var g1 := fn.Snapshot();
    CertifiedWellFormed(cert, g);
    D.EliminateDeadCode(fn);
    ghost var g2 := fn.Snapshot();
    OldFromLow(g1, g2, 1);
    T.ThreadJumps(fn);
    SkeletonFromLow(g2, fn.Snapshot(), 1);
    L.StaysTidy(g1, g2, fn.Snapshot(), 2);
    PassesRefine(g, g1, g2, fn.Snapshot());
    L.OldDerives(g1, g2);
    L.SkeletonDerives(g2, fn.Snapshot());
    DerivesTransitive(g, g1, g2);
    DerivesTransitive(g, g2, fn.Snapshot());
    e :| Bounded(g, fn.Snapshot(), e);
    RefinementImplements(g, fn.Snapshot(), size, f, e);
  }

  lemma CertifiedWellFormed(c: Cert, f: Func)
    requires StrictSsa(c, f)
    ensures WellFormed(f)
  {}

  // ---------------------------------------------------------------------------------------------
  // Allocated code

  /** The runs of the allocated code, whatever registers and stack hold at first and calls leave behind. */
  function AllocatedRuns(t: Setting, w: World, colors: seq<int>, junk: Junk, store: Store): nat -> Outcome {
    (n: nat) => LRunFunc(t.m, junk, colors, t.g, t.params, store, w, n)
  }

  /** Code in machine registers and stack slots answers every call as the source does. */
  lemma AllocatedAnswers(g: Func, g0: Func, size: nat, f: S.Function, e: nat, max: nat, colors: seq<int>, junk: Junk,
        store: Store, t: Setting, args: seq<S.Val>, w: World, k: nat)
    requires ImplementsAt(g, g0, size, f, e) && WellFormed(g) && Numbered(g, max) && ValidAllocation(g, max, colors)
    requires Calls(t, g, g0, size, f, args)
    ensures AnswersBy(AllocatedRuns(t, w, colors, junk, store), t, w, k, S.Call(f, args, k), e)
  {
    hide WellFormed, Numbered, ValidAllocation, FrameOk, Encoded, Kept, RunFunc, LRunFunc, S.Call, S.Answer;
    var run := RunsOf(t, w);
    assert AnswersBy(run, t, w, k, S.Call(f, args, k), e);
    forall n: nat
      ensures run(n) != Fault ==> AllocatedRuns(t, w, colors, junk, store)(n) == run(n)
    {
      AllocationSimulates(t.m, junk, g, max, colors, t.params, store, w, n);
    }
    match S.Call(f, args, k) {
      case Returns(v) =>
        var w', c :| EndsIn(run, t, w, Returned(S.Answer(v), w'), w', c);
        assert EndsIn(AllocatedRuns(t, w, colors, junk, store), t, w, Returned(S.Answer(v), w'), w', c);
      case Halts =>
        var w', c :| EndsIn(run, t, w, Trapped(w'), w', c);
        assert EndsIn(AllocatedRuns(t, w, colors, junk, store), t, w, Trapped(w'), w', c);
      case _ =>
    }
  }

  /** Every call in every frame, with every initial content of registers and stack. */
  ghost predicate CodeAnswers(g: Func, g0: Func, size: nat, f: S.Function, e: nat, colors: seq<int>) {
    forall t: Setting, args: seq<S.Val>, w: World, k: nat, junk: Junk, store: Store | Calls(t, g, g0, size, f, args) ::
      AnswersBy(AllocatedRuns(t, w, colors, junk, store), t, w, k, S.Call(f, args, k), e)
  }

  lemma AllCodeAnswers(g: Func, g0: Func, size: nat, f: S.Function, e: nat, max: nat, colors: seq<int>)
    requires ImplementsAt(g, g0, size, f, e) && WellFormed(g) && Numbered(g, max) && ValidAllocation(g, max, colors)
    ensures CodeAnswers(g, g0, size, f, e, colors)
  {
    hide ImplementsAt, WellFormed, Numbered, ValidAllocation, FrameOk, Encoded, AnswersBy, S.Call;
    forall t: Setting, args: seq<S.Val>, w: World, k: nat, junk: Junk, store: Store | Calls(t, g, g0, size, f, args)
      ensures AnswersBy(AllocatedRuns(t, w, colors, junk, store), t, w, k, S.Call(f, args, k), e)
    {
      AllocatedAnswers(g, g0, size, f, e, max, colors, junk, store, t, args, w, k);
    }
  }

  /** A run of compiled code that ends has computed the source's answer, or the source faults. */
  lemma CodeTellsAnswers(g: Func, g0: Func, size: nat, f: S.Function, e: nat, colors: seq<int>, t: Setting,
    args: seq<S.Val>,
        w: World, junk: Junk, store: Store, n: nat)
    requires CodeAnswers(g, g0, size, f, e, colors) && Calls(t, g, g0, size, f, args)
    requires LRunFunc(t.m, junk, colors, g, t.params, store, w, n) != OutOfFuel
    ensures var r, o := S.Call(f, args, e * n), LRunFunc(t.m, junk, colors, g, t.params, store, w, n);
      || r.Fails?
      || (r.Returns? && o.Returned? && o.v == S.Answer(r.v) && Kept(t, map[], 0, w, o.w))
      || (r.Halts? && o.Trapped? && Kept(t, map[], 0, w, o.w))
  {
    hide FrameOk, Encoded, Kept, LRunFunc, S.Call, S.Answer;
    var run, k := AllocatedRuns(t, w, colors, junk, store), e * n;
    assert AnswersBy(run, t, w, k, S.Call(f, args, k), e);
    assert run(n) != OutOfFuel;
    match S.Call(f, args, k) {
      case Returns(v) =>
        var w', c :| EndsIn(run, t, w, Returned(S.Answer(v), w'), w', c);
        SettledAlready(t, w, colors, junk, store, c, Returned(S.Answer(v), w'), n);
      case Halts =>
        var w', c :| EndsIn(run, t, w, Trapped(w'), w', c);
        SettledAlready(t, w, colors, junk, store, c, Trapped(w'), n);
      case Endless => assert e * n <= k;
      case Fails =>
      case _ => assert false;
    }
  }

  /** A program that passes the checks and does not divide leaves no fault to allow for. */
  lemma CheckedCodeAnswers(g: Func, g0: Func, size: nat, f: S.Function, e: nat, colors: seq<int>, t: Setting,
        args: seq<S.Val>, w: World, junk: Junk, store: Store, n: nat)
    requires CodeAnswers(g, g0, size, f, e, colors) && Calls(t, g, g0, size, f, args)
    requires Y.FunctionChecks(f, true) && Y.ArgsMatch(f, args)
    requires LRunFunc(t.m, junk, colors, g, t.params, store, w, n) != OutOfFuel
    ensures var r, o := S.Call(f, args, e * n), LRunFunc(t.m, junk, colors, g, t.params, store, w, n);
      || (r.Returns? && o.Returned? && o.v == S.Answer(r.v) && Kept(t, map[], 0, w, o.w))
      || (r.Halts? && o.Trapped? && Kept(t, map[], 0, w, o.w))
  {
    hide FrameOk, Encoded, Kept, LRunFunc, S.Call, S.Answer, CodeAnswers, Y.FunctionChecks, Y.ArgsMatch;
    CodeTellsAnswers(g, g0, size, f, e, colors, t, args, w, junk, store, n);
    Y.CheckedCallsDoNotFail(f, args, e * n);
  }

  lemma SettledAlready(t: Setting, w: World, colors: seq<int>, junk: Junk, store: Store, c: nat, o: Outcome, n: nat)
    requires Settles(AllocatedRuns(t, w, colors, junk, store), c, o)
    requires LRunFunc(t.m, junk, colors, t.g, t.params, store, w, n) != OutOfFuel
    ensures LRunFunc(t.m, junk, colors, t.g, t.params, store, w, n) == o
  {
    hide LRun;
    var k := if n > c then n else c + 1;
    assert AllocatedRuns(t, w, colors, junk, store)(k) == o;
    if t.g.order != [] { LRunMoreFuel(t.m, junk, colors, t.g, t.params, t.g.order[0], store, w, n, k); }
  }

  lemma MentionedIsNumbered(f: Func, max: nat)
    requires FromLow(f, 1) && InRange(f, max)
    ensures Numbered(f, max)
  {
    forall b, k | b in f.body && 0 <= k < |f.body[b]|
      ensures forall r: nat | VReg(r) in f.body[b][k].ops :: 1 <= r <= max
      ensures f.body[b][k].dest.Some? ==> 1 <= f.body[b][k].dest.value <= max
    {
      var x := f.body[b][k];
      assert x in f.body[b] && RegsFrom(x, 1) && InstInRange(x, max);
      forall r: nat | VReg(r) in x.ops ensures r <= max { assert MentionsReg(x, r); }
      if x.dest.Some? { assert MentionsReg(x, x.dest.value); }
    }
  }

  /** From the source of a function to the homes of its registers: the allocated code answers every call as the
      source does, on every machine whose frame is large enough. */
  method CompileAndAllocate(f: S.Function, optLevel: int)
    returns (fn: SirFunction, ra: RegAllocator, size: nat, ghost e: nat, ghost g0: Func)
    requires S.FunctionOk(f) && |f.params| < TWO_63
    ensures CodeAnswers(fn.Snapshot(), g0, size, f, e, ra.vregColors[..])
  {
    hide WellFormed, ImplementsAt, FromLow, InRange, CodeAnswers, Numbered, ValidAllocation, S.FunctionOk,
      SpillsAreForced, L.TidyFunction;
    fn, size, e, g0 := CompileFunction(f);
    var max := fn.MaxVreg();
    ghost var g := fn.Snapshot();
    MentionedIsNumbered(g, max);
    ra := new RegAllocator(max);
    ghost var elimination := ra.BuildAndColor(Func(fn.order, fn.body), optLevel);
    AllCodeAnswers(g, g0, size, f, e, max, ra.vregColors[..]);
  }
}
