/** The builder's side of strict SSA form: which registers and blocks may be used at the insertion point. */
module Certified {
  import opened Sir
  import opened Ssa
  import opened SsaBuild
  import opened Builder
  import opened Frames
  import opened BuildOps

  function Code(s: State): Func { Func(s.order, s.body) }

  /** Only terminators have block operands. */
  ghost predicate Plain(s: State) {
    forall b, k | b in s.body && 0 <= k < |s.body[b]| && !s.body[b][k].op.IsTerminator() :: NoBlockIn(s.body[b][k])
  }

  predicate NoBlockIn(inst: Inst) { forall k | 0 <= k < |inst.ops| :: !inst.ops[k].BlockRef? }

  /** The code so far is in strict SSA form by certificate `c`; registers and blocks are numbered in order. */
  ghost predicate Sound(c: Cert, s: State) {
    && StrictSsa(c, Code(s)) && Numbered(c) && Plain(s)
    && s.cur in s.body && c.low == 1 && s.nextVreg == c.top + 1 && forall b | b in s.body :: b < s.nextBlock
  }

  /** The insertion point is open and can be reached. */
  predicate HereLive(c: Cert, s: State) { s.cur in c.live && IsOpen(s) }

  /** The registers available there. */
  ghost function Avail(c: Cert, s: State): set<nat> {
    if s.cur in s.body && s.cur in c.entry then At(c, Code(s), (s.cur, |s.body[s.cur]|)) else {}
  }

  /** A value that may be used at the insertion point. */
  ghost predicate Known(c: Cert, s: State, v: Value) {
    !v.BlockRef? && (v.VReg? ==> 1 <= v.r < s.nextVreg && (HereLive(c, s) ==> v.r in Avail(c, s)))
  }

  /** A block that may be jumped to. */
  ghost predicate Goal(c: Cert, s: State, b: nat) {
    b in s.body && b in c.entry && (HereLive(c, s) ==> b in c.live && c.entry[b] <= Avail(c, s))
  }

  /** Blocks keep what is available at their start. */
  ghost predicate Keeps(c: Cert, c': Cert) {
    forall b | b in c.entry :: b in c'.entry && c'.entry[b] == c.entry[b] && (b in c'.live <==> b in c.live)
  }

  /** From `s` to `s'` nothing that was available is lost. */
  ghost predicate Extends(c: Cert, s: State, c': Cert, s': State) {
    && Keeps(c, c') && s.nextVreg <= s'.nextVreg && (forall b | b in s.body :: b in s'.body)
    && (HereLive(c', s') ==> HereLive(c, s) && Avail(c, s) <= Avail(c', s'))
  }

  /** The same registers are available at both points. */
  ghost predicate SamePoint(c: Cert, s: State, c': Cert, s': State) {
    (HereLive(c', s') <==> HereLive(c, s)) && Avail(c', s') == Avail(c, s)
  }

  /** Block `b` was created at the point of `s0`. */
  ghost predicate Opens(c0: Cert, s0: State, c: Cert, s: State, b: nat) {
    && b in s.body
    && b in c.entry
    && (b in c.live <==> HereLive(c0, s0))
    && (b in c.live ==> c.entry[b] == Avail(c0, s0))
  }

  ghost predicate BindingKnown(c: Cert, s: State, b: Binding) {
    match b
    case Direct(v) => Known(c, s, v)
    case Cell(p) => Known(c, s, VReg(p))
  }

  /** The variables of scope `d` may be used. */
  ghost predicate VarsKnown(c: Cert, s: State, d: set<nat>) {
    forall x | x in d :: x in s.vars && BindingKnown(c, s, s.vars[x])
  }

  /** So may the targets of jumps out of a loop. */
  ghost predicate GoalsOk(c: Cert, s: State) {
    (s.loopCond.Some? ==> Goal(c, s, s.loopCond.value)) && (s.loopExit.Some? ==> Goal(c, s, s.loopExit.value))
  }

  /** Generation may start here, with the variables of `d`. */
  ghost predicate Fit(c: Cert, s: State, d: set<nat>) { Sound(c, s) && VarsKnown(c, s, d) }

  /** Generation has come to `s'`. */
  ghost predicate Went(c: Cert, s: State, c': Cert, s': State) { Sound(c', s') && Extends(c, s, c', s') }

  /** It has found the value `v`. */
  ghost predicate Found(c: Cert, s: State, c': Cert, s': State, v: Value) { Went(c, s, c', s') && Known(c', s', v) }

  // ---------------------------------------------------------------------------------------------
  // Going on

  lemma WentSelf(c: Cert, s: State)
    requires Sound(c, s)
    ensures Went(c, s, c, s)
  {
    hide Sound;
    ExtendsSelf(c, s);
  }

  lemma WentTransitive(c: Cert, s: State, c1: Cert, s1: State, c2: Cert, s2: State)
    requires Went(c, s, c1, s1) && Went(c1, s1, c2, s2)
    ensures Went(c, s, c2, s2)
  {
    hide Sound, Extends;
    ExtendsTransitive(c, s, c1, s1, c2, s2);
  }

  lemma FoundAfter(c: Cert, s: State, c1: Cert, s1: State, c2: Cert, s2: State, v: Value)
    requires Went(c, s, c1, s1) && Found(c1, s1, c2, s2, v)
    ensures Found(c, s, c2, s2, v)
  {
    hide Went, Known;
    WentTransitive(c, s, c1, s1, c2, s2);
  }

  lemma KnownThen(c: Cert, s: State, c': Cert, s': State, v: Value)
    requires Known(c, s, v) && Went(c, s, c', s')
    ensures Known(c', s', v)
  {
    hide Known, Sound, Extends;
    KnownLater(c, s, c', s', v);
  }

  lemma GoalThen(c: Cert, s: State, c': Cert, s': State, b: nat)
    requires Goal(c, s, b) && Went(c, s, c', s')
    ensures Goal(c', s', b)
  {
    hide Goal, Sound, Extends;
    GoalLater(c, s, c', s', b);
  }

  lemma VarKnown(c: Cert, s: State, d: set<nat>, x: nat)
    requires Fit(c, s, d) && x in d
    ensures Sound(c, s) && x in s.vars && BindingKnown(c, s, s.vars[x])
  {
    hide Sound, BindingKnown;
  }

  lemma FitSound(c: Cert, s: State, d: set<nat>)
    requires Fit(c, s, d)
    ensures Sound(c, s)
  {}

  lemma WentSound(c: Cert, s: State, c': Cert, s': State)
    requires Went(c, s, c', s')
    ensures Sound(c', s')
  {}

  lemma FoundParts(c: Cert, s: State, c': Cert, s': State, v: Value)
    requires Found(c, s, c', s', v)
    ensures Went(c, s, c', s') && Known(c', s', v) && Sound(c', s')
  {
    hide Sound, Known, Extends;
  }

  /** Code that binds no variable keeps them all. */
  lemma FitThen(c: Cert, s: State, c': Cert, s': State, d: set<nat>)
    requires Fit(c, s, d) && Went(c, s, c', s') && s'.vars == s.vars
    ensures Fit(c', s', d)
  {
    hide Sound, Extends, BindingKnown;
    VarsLater(c, s, c', s', d);
  }

  lemma ExtendsSelf(c: Cert, s: State)
    ensures Extends(c, s, c, s)
  {}

  lemma ExtendsTransitive(c: Cert, s: State, c1: Cert, s1: State, c2: Cert, s2: State)
    requires Extends(c, s, c1, s1) && Extends(c1, s1, c2, s2)
    ensures Extends(c, s, c2, s2)
  {
    hide HereLive, Avail;
  }

  lemma KnownLater(c: Cert, s: State, c': Cert, s': State, v: Value)
    requires Known(c, s, v) && Extends(c, s, c', s')
    ensures Known(c', s', v)
  {
    hide HereLive, Avail, Keeps;
  }

  lemma GoalLater(c: Cert, s: State, c': Cert, s': State, b: nat)
    requires Goal(c, s, b) && Extends(c, s, c', s')
    ensures Goal(c', s', b)
  {
    hide HereLive, Avail;
  }

  lemma GoalsLater(c: Cert, s: State, c': Cert, s': State)
    requires GoalsOk(c, s) && Extends(c, s, c', s') && s'.loopCond == s.loopCond && s'.loopExit == s.loopExit
    ensures GoalsOk(c', s')
  {
    hide Goal, Extends;
    if s.loopCond.Some? { GoalLater(c, s, c', s', s.loopCond.value); }
    if s.loopExit.Some? { GoalLater(c, s, c', s', s.loopExit.value); }
  }

  lemma VarsLater(c: Cert, s: State, c': Cert, s': State, d: set<nat>)
    requires VarsKnown(c, s, d) && Extends(c, s, c', s')
    requires forall x | x in d && x in s.vars :: x in s'.vars && s'.vars[x] == s.vars[x]
    ensures VarsKnown(c', s', d)
  {
    hide Known, Extends;
    forall x | x in d
      ensures x in s'.vars && BindingKnown(c', s', s'.vars[x])
    {
      assert BindingKnown(c, s, s.vars[x]);
      match s.vars[x]
      case Direct(v) => KnownLater(c, s, c', s', v);
      case Cell(p) => KnownLater(c, s, c', s', VReg(p));
    }
  }

  /** Bindings and loop targets do not matter. */
  predicate SameCode(s: State, s': State) {
    && s'.order == s.order
    && s'.body == s.body
    && s'.cur == s.cur
    && s'.nextVreg == s.nextVreg
    && s'.nextBlock == s.nextBlock
  }

  lemma SameCodeSound(c: Cert, s: State, s': State)
    requires Sound(c, s) && SameCode(s, s')
    ensures Sound(c, s') && Extends(c, s, c, s') && SamePoint(c, s, c, s')
  {
    hide StrictSsa, Numbered, At;
    assert Code(s') == Code(s);
  }

  // ---------------------------------------------------------------------------------------------
  // Blocks

  lemma OpensGoal(c0: Cert, s0: State, c: Cert, s: State, b: nat)
    requires Opens(c0, s0, c, s, b) && Extends(c0, s0, c, s)
    ensures Goal(c, s, b)
  {
    hide HereLive, Avail, Keeps;
  }

  lemma OpensLater(c0: Cert, s0: State, c: Cert, s: State, b: nat, c': Cert, s': State)
    requires Opens(c0, s0, c, s, b) && Keeps(c, c') && forall d | d in s.body :: d in s'.body
    ensures Opens(c0, s0, c', s', b)
  {
    hide HereLive, Avail;
  }

  /** Going on in a block that was created at `s0`. */
  lemma MoveSound(c0: Cert, s0: State, c: Cert, s: State, b: nat)
    requires Sound(c, s) && Opens(c0, s0, c, s, b) && Keeps(c0, c) && s0.nextVreg <= s.nextVreg
    requires forall d | d in s0.body :: d in s.body
    ensures Sound(c, MoveTo(s, b)) && Extends(c0, s0, c, MoveTo(s, b))
  {
    hide StrictSsa, Numbered, Keeps;
    assert Code(MoveTo(s, b)) == Code(s);
  }

  /** A new block is dead until something may jump to it. */
  function WithBlock(c: Cert, s: State): Cert { c.(entry := c.entry[s.nextBlock := {}]) }

  /** Block `b` is empty and nothing live jumps to it. */
  ghost predicate Awaits(c: Cert, s: State, b: nat) { b in s.body && s.body[b] == [] && b in c.entry && b !in c.live }

  /** From here on there may be jumps to `b`. */
  ghost function Activated(c: Cert, s: State, b: nat): Cert {
    if HereLive(c, s) then c.(entry := c.entry[b := Avail(c, s)], live := c.live + {b}) else c
  }

  /** What is available at a point is defined, and so is what is available at each definition. */
  lemma AvailClosed(c: Cert, s: State, v: nat)
    requires Sound(c, s) && v in Avail(c, s)
    ensures SitesOk(c, Code(s)) && v in c.site && InFunc(Code(s), c.site[v]) && c.site[v].0 in c.entry
    ensures At(c, Code(s), c.site[v]) <= Avail(c, s) && (s.cur in c.live ==> c.site[v].0 in c.live)
  {
    hide StrictSsa, Numbered, Plain, At, RankOk, WellFormed, ReadsOk;
    var f, p := Code(s), (s.cur, |s.body[s.cur]|);
    SsaParts(c, f);
    AtHasSite(c, f, p, v);
    assert ClosedAt(c, f, p);
    if s.cur in c.live { LiveSite(c, f, s.cur, |s.body[s.cur]|, v); }
  }

  lemma NewBlockAdds(c: Cert, s: State)
    requires Sound(c, s)
    ensures SitesOk(c, Code(s)) && s.nextBlock !in s.body && s.nextBlock !in c.entry && s.nextBlock !in c.live
    ensures AddsBlock(c, Code(s), s.nextBlock, WithBlock(c, s), Code(NewBlock(s)))
  {
    hide Numbered, Plain, WellFormed, Dominance, LiveOk, ReadsOk, SitesOk;
    EntryHere(c, s);
    assert s.nextBlock !in s.body;
  }

  lemma NewBlockSafe(c: Cert, s: State, c': Cert, s': State)
    requires Sound(c, s) && c' == WithBlock(c, s) && s' == NewBlock(s)
    ensures Sound(c', s')
  {
    hide Sound, StrictSsa, At, AddsBlock, SitesOk, Plain, Numbered;
    NewBlockAdds(c, s);
    SoundParts(c, s);
    BlockKeepsSsa(c, Code(s), s.nextBlock, c', Code(s'));
    NewBlockPlain(s);
    SameRanks(c, c');
    SoundIs(c', s');
  }

  lemma SoundIs(c: Cert, s: State)
    requires StrictSsa(c, Code(s)) && Numbered(c) && Plain(s) && s.cur in s.body && c.low == 1
    requires s.nextVreg == c.top + 1
    requires forall b | b in s.body :: b < s.nextBlock
    ensures Sound(c, s)
  {}

  lemma NewBlockStays(c: Cert, s: State, c': Cert, s': State)
    requires Sound(c, s) && c' == WithBlock(c, s) && s' == NewBlock(s)
    ensures OthersStay(c, s.nextBlock, c') && Keeps(c, c') && Awaits(c', s', s.nextBlock) && c'.live == c.live
  {
    hide Sound, StrictSsa, Numbered, Plain;
    EntryHere(c, s);
    SoundParts(c, s);
    assert s.nextBlock !in s.body;
  }

  /** A new block changes nothing at the insertion point. */
  lemma NewBlockSound(c: Cert, s: State, c': Cert, s': State)
    requires Sound(c, s) && c' == WithBlock(c, s) && s' == NewBlock(s)
    ensures Went(c, s, c', s') && SamePoint(c, s, c', s') && Awaits(c', s', s.nextBlock)
  {
    hide Sound, Avail, HereLive, Keeps, WithBlock, Awaits;
    NewBlockStays(c, s, c', s');
    NewBlockSafe(c, s, c', s');
    NewBlockPoint(c, s);
  }

  lemma ActivatedIs(c: Cert, s: State, b: nat)
    requires Sound(c, s) && Awaits(c, s, b) && HereLive(c, s)
    ensures SitesOk(c, Code(s)) && Activates(c, Code(s), b, Avail(c, s), Activated(c, s, b))
  {
    hide StrictSsa, Numbered, Plain, At, Avail, WellFormed, Dominance, LiveOk, ReadsOk, SitesOk;
    SsaParts(c, Code(s));
    forall v | v in Avail(c, s)
      ensures v in c.site && At(c, Code(s), c.site[v]) <= Avail(c, s) && c.site[v].0 in c.live
    {
      AvailClosed(c, s, v);
    }
  }

  lemma ActivateSafe(c: Cert, s: State, b: nat, c': Cert)
    requires Sound(c, s) && Awaits(c, s, b) && c' == Activated(c, s, b)
    ensures Sound(c', s)
  {
    if HereLive(c, s) {
      ActivatedIs(c, s, b);
      SoundParts(c, s);
      hide Sound, StrictSsa, At, Avail, Activates, SitesOk, Plain, Numbered;
      ActivateKeepsSsa(c, Code(s), b, Avail(c, s), c');
      SameRanks(c, c');
      SoundIs(c', s);
    }
  }

  lemma ActivatePoint(c: Cert, s: State, b: nat, c': Cert)
    requires Sound(c, s) && Awaits(c, s, b) && c' == Activated(c, s, b)
    ensures SamePoint(c, s, c', s)
  {
    hide At, WellFormed, Dominance, ReadsOk, LiveOk;
    if HereLive(c, s) {
      assert s.cur != b;
      assert At(c', Code(s), (s.cur, |s.body[s.cur]|)) == At(c, Code(s), (s.cur, |s.body[s.cur]|)) by {
        SameEntry(c, c', s);
      }
    }
  }

  lemma SameEntry(c: Cert, c': Cert, s: State)
    requires s.cur in s.body && s.cur in c.entry && s.cur in c'.entry && c'.entry[s.cur] == c.entry[s.cur]
    ensures At(c', Code(s), (s.cur, |s.body[s.cur]|)) == At(c, Code(s), (s.cur, |s.body[s.cur]|))
  {}

  lemma ActivateOpens(c: Cert, s: State, b: nat, c': Cert)
    requires Awaits(c, s, b) && c' == Activated(c, s, b) && SamePoint(c, s, c', s)
    ensures Opens(c', s, c', s, b)
  {
    hide HereLive, Avail;
  }

  /** Other blocks are as they were. */
  ghost predicate OthersStay(c: Cert, b: nat, c': Cert) {
    && c'.entry.Keys == c.entry.Keys + {b}
    && forall d | d in c.entry && d != b :: c'.entry[d] == c.entry[d] && (d in c'.live <==> d in c.live)
  }

  lemma ActivateStays(c: Cert, s: State, b: nat, c': Cert)
    requires Awaits(c, s, b) && c' == Activated(c, s, b)
    ensures OthersStay(c, b, c')
  {
    hide HereLive, Avail;
  }

  lemma OpensStays(c: Cert, s: State, b: nat, c': Cert, d: nat)
    requires OthersStay(c, b, c') && SamePoint(c, s, c', s) && d != b && Opens(c, s, c, s, d)
    ensures Opens(c', s, c', s, d)
  {
    hide HereLive, Avail;
  }

  lemma AwaitsStays(c: Cert, s: State, b: nat, c': Cert, d: nat)
    requires OthersStay(c, b, c') && d != b && Awaits(c, s, d)
    ensures Awaits(c', s, d)
  {}

  /** An awaiting block is opened at the insertion point. */
  lemma ActivateSound(c: Cert, s: State, b: nat, c': Cert)
    requires Sound(c, s) && Awaits(c, s, b) && c' == Activated(c, s, b)
    ensures Sound(c', s) && SamePoint(c, s, c', s) && Opens(c', s, c', s, b) && OthersStay(c, b, c')
  {
    hide Sound, SamePoint, Opens, Awaits, OthersStay, Activated;
    ActivateSafe(c, s, b, c');
    ActivatePoint(c, s, b, c');
    ActivateOpens(c, s, b, c');
    ActivateStays(c, s, b, c');
  }

  lemma ActivateWent(c0: Cert, s0: State, c: Cert, s: State, b: nat, c': Cert)
    requires Went(c0, s0, c, s) && Awaits(c, s, b) && c' == Activated(c, s, b) && b !in c0.entry
    ensures Went(c0, s0, c', s) && SamePoint(c, s, c', s)
  {
    hide Sound, Avail, HereLive, Awaits, Activated;
    ActivateSound(c, s, b, c');
  }

  lemma AwaitsLater(c: Cert, s: State, b: nat, c': Cert, s': State)
    requires Awaits(c, s, b) && Went(c, s, c', s') && b in s'.body && s'.body[b] == []
    ensures Awaits(c', s', b)
  {
    hide Sound, HereLive, Avail;
  }

  lemma NewBlockPlain(s: State)
    requires Plain(s)
    ensures Plain(NewBlock(s))
  {
    hide NoBlockIn;
    var s' := NewBlock(s);
    forall b, k | b in s'.body && 0 <= k < |s'.body[b]| && !s'.body[b][k].op.IsTerminator()
      ensures NoBlockIn(s'.body[b][k])
    {
      assert b != s.nextBlock;
    }
  }

  lemma NewBlockPoint(c: Cert, s: State)
    requires Sound(c, s)
    ensures SamePoint(c, s, WithBlock(c, s), NewBlock(s))
  {
    hide Sound, StrictSsa, Numbered, Plain, SitesOk, AddsBlock;
    SoundParts(c, s);
    NewBlockAdds(c, s);
    EntryHere(c, s);
    assert s.cur != s.nextBlock;
  }

  lemma EntryHere(c: Cert, s: State)
    requires Sound(c, s)
    ensures s.cur in c.entry && c.entry.Keys == s.body.Keys && c.live <= s.body.Keys
  {
    hide Numbered, Plain, WellFormed, Dominance, LiveOk, ReadsOk;
  }

  // ---------------------------------------------------------------------------------------------
  // The blocks of a construct

  /** Since `s` the blocks of `waiting` have been created, which nothing leads to yet, and those of `open`, which may be
      jumped to from here on. */
  ghost predicate Laid(c: Cert, s: State, c': Cert, s': State, waiting: set<nat>, open: set<nat>) {
    && Went(c, s, c', s')
    && (forall b | b in waiting :: b !in c.entry && b != s'.cur && Awaits(c', s', b))
    && (forall b | b in open :: Opens(c', s', c', s', b))
  }

  lemma LaidNone(c: Cert, s: State)
    requires Sound(c, s)
    ensures Laid(c, s, c, s, {}, {})
  {
    hide Sound, Extends;
    WentSelf(c, s);
  }

  lemma LaidNew(c: Cert, s: State, c1: Cert, s1: State, waiting: set<nat>, c2: Cert, s2: State)
    requires Laid(c, s, c1, s1, waiting, {}) && c2 == WithBlock(c1, s1) && s2 == NewBlock(s1)
    ensures Laid(c, s, c2, s2, waiting + {s1.nextBlock}, {})
  {
    hide Went, SamePoint, Opens, Laid, Awaits, NewBlock, WithBlock;
    LaidFresh(c, s, c1, s1, waiting);
    NewBlockSound(c1, s1, c2, s2);
    forall b | b in waiting
      ensures b in s2.body && s2.body[b] == [] && b != s2.cur
    {
      StillEmpty(s1, b);
    }
    LaidStill(c, s, c1, s1, waiting, c2, s2);
    NewBlockStands(s1);
    OneMoreWaits(c, s, c2, s2, waiting, s1);
  }

  lemma NewBlockStands(s: State)
    ensures NewBlock(s).cur == s.cur
  {}

  lemma StillEmpty(s: State, b: nat)
    requires b in s.body && s.body[b] == [] && b < s.nextBlock
    ensures b in NewBlock(s).body && NewBlock(s).body[b] == [] && NewBlock(s).cur == s.cur
  {}

  lemma OneMoreWaits(c: Cert, s: State, c2: Cert, s2: State, waiting: set<nat>, s1: State)
    requires Laid(c, s, c2, s2, waiting, {}) && Awaits(c2, s2, s1.nextBlock) && s1.nextBlock !in c.entry
    requires s1.nextBlock != s2.cur
    ensures Laid(c, s, c2, s2, waiting + {s1.nextBlock}, {})
  {
    hide Went, Awaits;
  }

  lemma LaidFresh(c: Cert, s: State, c1: Cert, s1: State, waiting: set<nat>)
    requires Laid(c, s, c1, s1, waiting, {})
    ensures Sound(c1, s1) && s1.nextBlock !in s1.body && s1.nextBlock !in c.entry && s1.nextBlock != s1.cur
    ensures forall b | b in waiting :: b in s1.body && s1.body[b] == [] && b < s1.nextBlock && b != s1.cur
  {
    hide StrictSsa, Numbered, Plain, HereLive, Avail;
    EntryHere(c1, s1);
  }

  lemma LaidOpen(c: Cert, s: State, c1: Cert, s1: State, waiting: set<nat>, open: set<nat>, b: nat, c2: Cert)
    requires Laid(c, s, c1, s1, waiting, open) && b in waiting && b !in open && c2 == Activated(c1, s1, b)
    ensures Laid(c, s, c2, s1, waiting - {b}, open + {b}) && SamePoint(c1, s1, c2, s1)
  {
    hide Sound, Extends, Awaits, Opens, OthersStay, Activated, SamePoint;
    ActivateSound(c1, s1, b, c2);
    ActivateWent(c, s, c1, s1, b, c2);
    forall d | d in waiting - {b}
      ensures Awaits(c2, s1, d)
    {
      AwaitsStays(c1, s1, b, c2, d);
    }
    forall d | d in open
      ensures Opens(c2, s1, c2, s1, d)
    {
      OpensStays(c1, s1, b, c2, d);
    }
  }

  /** Waiting blocks wait on while other code is generated. */
  lemma LaidStill(c: Cert, s: State, c1: Cert, s1: State, waiting: set<nat>, c2: Cert, s2: State)
    requires Laid(c, s, c1, s1, waiting, {}) && Went(c1, s1, c2, s2)
    requires forall b | b in waiting :: b in s2.body && s2.body[b] == [] && b != s2.cur
    ensures Laid(c, s, c2, s2, waiting, {})
  {
    hide Went, Opens;
    WentTransitive(c, s, c1, s1, c2, s2);
    forall b | b in waiting
      ensures Awaits(c2, s2, b)
    {
      AwaitsLater(c1, s1, b, c2, s2);
    }
  }

  /** They do while only the current block and new ones are written. */
  lemma LaidLocal(c: Cert, s: State, c1: Cert, s1: State, waiting: set<nat>, c2: Cert, s2: State)
    requires Laid(c, s, c1, s1, waiting, {}) && Went(c1, s1, c2, s2) && Local(s1, s2)
    ensures Laid(c, s, c2, s2, waiting, {})
  {
    hide Went, Opens, Sound;
    LaidFresh(c, s, c1, s1, waiting);
    forall b | b in waiting
      ensures b in s2.body && s2.body[b] == [] && b != s2.cur
    {
      assert Awaits(c1, s1, b);
    }
    LaidStill(c, s, c1, s1, waiting, c2, s2);
  }

  lemma LaidSound(c: Cert, s: State, c1: Cert, s1: State, waiting: set<nat>, open: set<nat>)
    requires Laid(c, s, c1, s1, waiting, open)
    ensures Went(c, s, c1, s1) && Sound(c1, s1)
  {
    hide Sound, Extends, Awaits, Opens;
  }

  lemma LaidGoal(c: Cert, s: State, c1: Cert, s1: State, waiting: set<nat>, open: set<nat>, b: nat, c2: Cert, s2: State)
    requires Laid(c, s, c1, s1, waiting, open) && b in open && Went(c1, s1, c2, s2)
    ensures Goal(c2, s2, b)
  {
    hide Sound, HereLive, Avail, Awaits;
    OpensLater(c1, s1, c1, s1, b, c2, s2);
    OpensGoal(c1, s1, c2, s2, b);
  }

  /** Going on in one of the open blocks. */
  lemma LaidMove(c: Cert, s: State, c1: Cert, s1: State, waiting: set<nat>, open: set<nat>, b: nat, c2: Cert, s2: State)
    requires Laid(c, s, c1, s1, waiting, open) && b in open && Went(c1, s1, c2, s2)
    ensures Went(c1, s1, c2, MoveTo(s2, b)) && Went(c, s, c2, MoveTo(s2, b)) && Sound(c2, MoveTo(s2, b))
  {
    hide Sound, HereLive, Avail, Awaits;
    OpensLater(c1, s1, c1, s1, b, c2, s2);
    MoveSound(c1, s1, c2, s2, b);
    WentTransitive(c, s, c1, s1, c2, MoveTo(s2, b));
  }

  lemma KnownSamePoint(c: Cert, s: State, c': Cert, v: Value)
    requires SamePoint(c, s, c', s) && Known(c, s, v)
    ensures Known(c', s, v)
  {
    hide HereLive, Avail;
  }

  // ---------------------------------------------------------------------------------------------
  // Instructions

  /** The operands may be used here and the targets may be jumped to. */
  ghost predicate MayEmit(c: Cert, s: State, inst: Inst) {
    && ShapeOk(inst) && (!inst.op.IsTerminator() ==> NoBlockIn(inst))
    && (forall v: nat | VReg(v) in inst.ops :: Known(c, s, VReg(v)))
    && (forall t | t in Targets(inst) :: Goal(c, s, t))
  }

  lemma EmitAdds(c: Cert, s: State, inst: Inst)
    requires Sound(c, s) && MayEmit(c, s, inst) && IsOpen(s) && (inst.dest.None? || inst.dest == Some(s.nextVreg))
    ensures Adds(c, Code(s), s.cur, inst, Defines(c, s.cur, |s.body[s.cur]|, inst.dest), Code(Emit(s, inst)))
  {
    hide StrictSsa, Numbered, Plain, ShapeOk, Targets, At;
    EntryHere(c, s);
  }

  lemma EmitPlain(s: State, inst: Inst)
    requires Plain(s) && s.cur in s.body && (!inst.op.IsTerminator() ==> NoBlockIn(inst))
    ensures Plain(Emit(s, inst))
  {
    hide NoBlockIn;
    var s' := Emit(s, inst);
    forall b, k | b in s'.body && 0 <= k < |s'.body[b]| && !s'.body[b][k].op.IsTerminator()
      ensures NoBlockIn(s'.body[b][k])
    {
      if b in s.body && k < |s.body[b]| { assert s'.body[b][k] == s.body[b][k]; }
    }
  }

  /** What an emitted instruction makes available. */
  lemma EmitAvail(c: Cert, s: State, inst: Inst, c': Cert, e: State)
    requires s.cur in s.body && s.cur in c.entry && e.cur == s.cur && Adds(c, Code(s), s.cur, inst, c', Code(e))
    ensures Keeps(c, c') && c'.live == c.live && c'.low == c.low && e.cur in e.body && e.body.Keys == s.body.Keys
    ensures Avail(c', e) == Avail(c, s) + if inst.dest.Some? then {inst.dest.value} else {}
  {
    hide At, Adds;
    AtEnd(c, Code(s), s.cur, inst, c', Code(e));
    AddsKeeps(c, Code(s), s.cur, inst, c', Code(e));
  }

  lemma SoundParts(c: Cert, s: State)
    requires Sound(c, s)
    ensures StrictSsa(c, Code(s)) && Numbered(c) && Plain(s) && s.cur in s.body && s.cur in c.entry && c.low == 1
    ensures s.nextVreg == c.top + 1
    ensures forall b | b in s.body :: b < s.nextBlock
  {
    EntryHere(c, s);
  }

  /** An emitted instruction, seen from outside. */
  ghost predicate Appends(c: Cert, s: State, dest: Option<nat>, c': Cert, e: State) {
    && StrictSsa(c', Code(e)) && Numbered(c') && Plain(e) && Keeps(c, c') && c'.live == c.live && c'.low == c.low
    && e.body.Keys == s.body.Keys && Avail(c', e) == Avail(c, s) + if dest.Some? then {dest.value} else {}
  }

  lemma Emitted(c: Cert, s: State, inst: Inst, c': Cert, e: State)
    requires Sound(c, s) && MayEmit(c, s, inst) && IsOpen(s) && (inst.dest.None? || inst.dest == Some(s.nextVreg))
    requires c' == Defines(c, s.cur, |s.body[s.cur]|, inst.dest) && e == Emit(s, inst)
    ensures Appends(c, s, inst.dest, c', e)
  {
    hide Sound, StrictSsa, Plain, Adds, Avail, Numbered, Keeps, NoBlockIn, Known, Goal, ShapeOk, IsOpen;
    EmitAdds(c, s, inst);
    SoundParts(c, s);
    EmitPlain(s, inst);
    AddsKeepsSsa(c, Code(s), s.cur, inst, c', Code(e));
    EmitAvail(c, s, inst, c', e);
  }

  lemma AppendedSound(c: Cert, s: State, dest: Option<nat>, c': Cert, e: State, s': State)
    requires Sound(c, s) && Appends(c, s, dest, c', e) && s'.body == e.body && s'.order == e.order
    requires s'.cur == s.cur == e.cur
    requires s'.nextVreg == c'.top + 1 && s'.nextBlock == s.nextBlock
    ensures Sound(c', s')
  {
    hide Sound, StrictSsa, Plain, Avail, Numbered, Keeps;
    SoundParts(c, s);
    assert Code(s') == Code(e);
    SamePlain(e, s');
    SoundIs(c', s');
  }

  lemma AppendedExtends(c: Cert, s: State, dest: Option<nat>, c': Cert, e: State, s': State)
    requires IsOpen(s) && Appends(c, s, dest, c', e) && s'.body == e.body && s'.order == e.order
    requires s'.cur == s.cur == e.cur && s.nextVreg <= s'.nextVreg
    ensures Extends(c, s, c', s') && (dest.Some? ==> dest.value in Avail(c', s'))
  {
    hide StrictSsa, Plain, Avail, Numbered, Keeps;
    SameAvail(c', e, s');
  }

  /** An instruction without a result. */
  lemma EmitSound(c: Cert, s: State, inst: Inst)
    requires Sound(c, s) && inst.dest.None? && MayEmit(c, s, inst)
    ensures Sound(c, Emit(s, inst)) && Extends(c, s, c, Emit(s, inst))
  {
    hide Sound, Extends, MayEmit, Appends, StrictSsa, Plain, Numbered;
    SoundParts(c, s);
    if IsOpen(s) {
      var e := Emit(s, inst);
      Emitted(c, s, inst, c, e);
      AppendedSound(c, s, None, c, e, e);
      AppendedExtends(c, s, None, c, e, e);
    } else {
      ExtendsSelf(c, s);
    }
  }

  /** The certificate after an instruction with a result; behind a terminator only the number is used up. */
  function WithValue(c: Cert, s: State): Cert {
    if IsOpen(s) then Defines(c, s.cur, |s.body[s.cur]|, Some(s.nextVreg)) else c.(top := s.nextVreg)
  }

  lemma ValueSound(c: Cert, s: State, op: Opcode, ops: seq<Value>)
    requires Sound(c, s) && MayEmit(c, s, Inst(op, Some(s.nextVreg), ops))
    ensures var c', s' := WithValue(c, s), EmitValue(s, op, ops);
      Sound(c', s') && Extends(c, s, c', s') && Known(c', s', VReg(s.nextVreg))
  {
    hide Sound, MayEmit;
    if IsOpen(s) { OpenValueSound(c, s, op, ops); } else { ClosedValueSound(c, s, op, ops); }
  }

  lemma ClosedValueSound(c: Cert, s: State, op: Opcode, ops: seq<Value>)
    requires Sound(c, s) && !IsOpen(s)
    ensures var c', s' := WithValue(c, s), EmitValue(s, op, ops);
      Sound(c', s') && Extends(c, s, c', s') && Known(c', s', VReg(s.nextVreg))
  {
    hide StrictSsa, Numbered, Plain, Avail;
    var c', s' := WithValue(c, s), EmitValue(s, op, ops);
    TopGrows(c, Code(s), s.nextVreg);
    assert Code(s') == Code(s) && s'.body == s.body;
    SamePlain(s, s');
    assert Numbered(c') by { SameRanks(c, c'); }
  }

  lemma SameRanks(c: Cert, c': Cert)
    requires Numbered(c) && c'.rank == c.rank
    ensures Numbered(c')
  {}

  lemma OpenValueSound(c: Cert, s: State, op: Opcode, ops: seq<Value>)
    requires Sound(c, s) && MayEmit(c, s, Inst(op, Some(s.nextVreg), ops)) && IsOpen(s)
    ensures var c', s' := WithValue(c, s), EmitValue(s, op, ops);
      Sound(c', s') && Extends(c, s, c', s') && Known(c', s', VReg(s.nextVreg))
  {
    var inst := Inst(op, Some(s.nextVreg), ops);
    var c', e, s' := WithValue(c, s), Emit(s, inst), EmitValue(s, op, ops);
    assert s'.body == e.body && s'.order == e.order && s'.cur == s.cur == e.cur;
    assert s'.nextVreg == s.nextVreg + 1 == c'.top + 1 && s'.nextBlock == s.nextBlock;
    hide Sound, Extends, MayEmit, Appends, Avail, Emit;
    Emitted(c, s, inst, c', e);
    AppendedSound(c, s, inst.dest, c', e, s');
    AppendedExtends(c, s, inst.dest, c', e, s');
  }

  lemma SamePlain(s: State, s': State)
    requires Plain(s) && s'.body == s.body
    ensures Plain(s')
  {}

  lemma SameAvail(c: Cert, s: State, s': State)
    requires s'.body == s.body && s'.order == s.order && s'.cur == s.cur
    ensures Avail(c, s') == Avail(c, s)
  {}

  // ---------------------------------------------------------------------------------------------
  // Values the builder finds instead of emitting code

  lemma {:induction false} PendingIsOperand(insts: seq<Inst>) returns (k: nat)
    requires Pending(insts).Some?
    ensures k < |insts| && insts[k].op.Store? && |insts[k].ops| == 2 && insts[k].ops[0] == Pending(insts).value.0
  {
    k := |insts| - 1;
    if !insts[k].op.Store? { k := PendingIsOperand(insts[..k]); }
  }

  /** The value last stored in the block may be used again. */
  lemma PendingKnown(c: Cert, s: State)
    requires Sound(c, s) && Pending(s.body[s.cur]).Some?
    ensures Known(c, s, Pending(s.body[s.cur]).value.0)
  {
    hide Pending, StrictSsa, At;
    var k := PendingIsOperand(s.body[s.cur]);
    var v := Pending(s.body[s.cur]).value.0;
    assert NoBlockIn(s.body[s.cur][k]);
    if v.VReg? {
      SsaParts(c, Code(s));
      EntryHere(c, s);
      hide SitesOk;
      assert VReg(v.r) in s.body[s.cur][k].ops;
      assert ReadsOk(c, Code(s), s.cur, k);
      AtMonotone(c, Code(s), s.cur, k, |s.body[s.cur]|);
    }
  }

  lemma LiteralKnown(c: Cert, s: State, v: Value)
    requires v.ConstInt? || v.ConstBool? || v.Global?
    ensures Known(c, s, v)
  {}

  lemma FoldKnown(c: Cert, s: State, op: Opcode, l: Value, r: Value, same: bool)
    requires (op.IsArith() || op.IsCompare()) && (same ==> l == r) && Fold(op, l, r, same).Some?
    requires Known(c, s, l) && Known(c, s, r)
    ensures Known(c, s, Fold(op, l, r, same).value)
  {
    hide HereLive, Avail, Binary;
  }

  // ---------------------------------------------------------------------------------------------
  // The instructions the builder makes

  lemma KnownOperands(c: Cert, s: State, ops: seq<Value>)
    requires forall k | 0 <= k < |ops| :: Known(c, s, ops[k])
    ensures forall v: nat | VReg(v) in ops :: Known(c, s, VReg(v))
    ensures forall k | 0 <= k < |ops| :: !ops[k].BlockRef?
  {
    hide HereLive, Avail;
  }

  /** A computation, a load, an allocation or a parameter. */
  lemma MayCompute(c: Cert, s: State, op: Opcode, ops: seq<Value>)
    requires forall k | 0 <= k < |ops| :: Known(c, s, ops[k])
    requires ((op.IsArith() || op.IsCompare()) && |ops| == 2) || (op.Select? && |ops| == 3) || op.Load? ||
      op.Alloca? || op.GetParam?
    ensures MayEmit(c, s, Inst(op, Some(s.nextVreg), ops))
  {
    hide Known, Goal, Binary;
    KnownOperands(c, s, ops);
    NoTargets(Inst(op, Some(s.nextVreg), ops));
    ComputesShape(op, s.nextVreg, ops);
  }

  lemma NoTargets(inst: Inst)
    requires forall k | 0 <= k < |inst.ops| :: !inst.ops[k].BlockRef?
    ensures NoBlockIn(inst) && Targets(inst) == {}
  {}

  lemma ComputesShape(op: Opcode, d: nat, ops: seq<Value>)
    requires forall k | 0 <= k < |ops| :: !ops[k].BlockRef?
    requires ((op.IsArith() || op.IsCompare()) && |ops| == 2) || (op.Select? && |ops| == 3) || op.Load? ||
      op.Alloca? || op.GetParam?
    ensures ShapeOk(Inst(op, Some(d), ops))
  {}

  lemma MayStore(c: Cert, s: State, v: Value, p: nat)
    requires Known(c, s, v) && Known(c, s, VReg(p))
    ensures MayEmit(c, s, StoreInst(v, p))
  {
    hide Known, Goal;
    KnownOperands(c, s, [v, VReg(p)]);
  }

  lemma MayJump(c: Cert, s: State, b: nat)
    requires Goal(c, s, b)
    ensures MayEmit(c, s, JumpInst(b))
  {
    hide Known, Goal;
    var inst := JumpInst(b);
    assert inst.ops[0] == BlockRef(b);
    assert Targets(inst) == {b};
  }

  lemma MayBranch(c: Cert, s: State, v: Value, a: nat, b: nat)
    requires Known(c, s, v) && Goal(c, s, a) && Goal(c, s, b)
    ensures MayEmit(c, s, BranchInst(v, a, b))
  {
    assert !v.BlockRef?;
    hide Known, Goal;
    if v.ConstBool? {
      MayJump(c, s, if v.b then a else b);
    } else if a == b {
      MayJump(c, s, a);
    } else {
      var ops := [v, BlockRef(a), BlockRef(b)];
      assert forall t | t in Targets(Inst(Br, None, ops)) :: t == a || t == b;
    }
  }

  lemma MayLeave(c: Cert, s: State, op: Opcode, ops: seq<Value>)
    requires (op.Ret? || op.Trap?) && forall k | 0 <= k < |ops| :: Known(c, s, ops[k])
    ensures MayEmit(c, s, Inst(op, None, ops))
  {
    hide Known, Goal;
    KnownOperands(c, s, ops);
  }

  // ---------------------------------------------------------------------------------------------
  // A new function

  /** The certificate of a function with an empty entry block. */
  function StartCert(): Cert { Cert(map[1 := {}], map[], map[], {1}, 1, 0) }

  lemma StartSound(s: State)
    requires s.order == [1] && s.body == map[1 := []] && s.cur == 1 && s.nextVreg == 1 && s.nextBlock == 2
    requires s.loopCond == None && s.loopExit == None
    ensures Sound(StartCert(), s) && GoalsOk(StartCert(), s) && VarsKnown(StartCert(), s, {})
  {
    var c, f := StartCert(), Code(s);
    EmptyBlockOk();
    assert WellFormed(f) by { assert (set b | b in f.order) == {1}; }
    assert SitesOk(c, f);
    assert Dominance(c, f);
  }
}
