/** Strict SSA form of code that is still growing: what appending an instruction or a block keeps, and what a
    builder must know of the registers and blocks it uses. */
module SsaBuild {
  import opened Sir
  import opened Ssa
  import opened Builder

  // ---------------------------------------------------------------------------------------------
  // Appending an instruction to a block

  function Appended(f: Func, b: nat, inst: Inst): Func
    requires b in f.body
  {
    f.(body := f.body[b := f.body[b] + [inst]])
  }

  /** Registers rank by number. */
  function Defines(c: Cert, b: nat, k: nat, dest: Option<nat>): Cert {
    match dest
    case None => c
    case Some(v) => c.(site := c.site[v := (b, k)], rank := c.rank[v := v], top := v)
  }

  /** `f'` is `f` with `inst` at the end of block `b`, and `c'` is `c` with its result. */
  ghost predicate Adds(c: Cert, f: Func, b: nat, inst: Inst, c': Cert, f': Func) {
    && b in f.body && b in c.entry && Fits(c, f, b, inst)
    && f' == Appended(f, b, inst) && c' == Defines(c, b, |f.body[b]|, inst.dest)
  }

  /** The instruction may follow: its result is new, and if the block is live its operands are available and its
      targets expect no more than there is. */
  ghost predicate Fits(c: Cert, f: Func, b: nat, inst: Inst)
    requires b in f.body && b in c.entry
  {
    var here := At(c, f, (b, |f.body[b]|));
    && !Closed(f.body[b]) && ShapeOk(inst) && Targets(inst) <= f.body.Keys
    && (forall v: nat | VReg(v) in inst.ops :: c.low <= v <= c.top && (b in c.live ==> v in here))
    && (inst.dest.Some? ==> c.top < inst.dest.value && c.low <= inst.dest.value)
    && (b in c.live ==> forall t | t in Targets(inst) :: t in c.live && t in c.entry && c.entry[t] <= here)
  }

  ghost predicate Numbered(c: Cert) { forall v | v in c.rank :: c.rank[v] == v }

  /** What stays. */
  lemma AddsKeeps(c: Cert, f: Func, b: nat, inst: Inst, c': Cert, f': Func)
    requires Adds(c, f, b, inst, c', f')
    ensures b in f.body && b in c.entry && c'.entry == c.entry && c'.live == c.live && c'.low == c.low
    ensures c.top <= c'.top
    ensures f'.order == f.order && f'.body.Keys == f.body.Keys && f'.body[b] == f.body[b] + [inst]
    ensures forall d | d in f.body && d != b :: f'.body[d] == f.body[d]
    ensures forall p: (nat, nat) | InFunc(f, p) :: InFunc(f', p)
    ensures forall p: (nat, nat) | InFunc(f', p) :: InFunc(f, p) || p == (b, |f.body[b]| + 1)
  {
    hide At, ShapeOk, Targets;
  }

  lemma AtOld(c: Cert, f: Func, b: nat, inst: Inst, c': Cert, f': Func, p: (nat, nat))
    requires Adds(c, f, b, inst, c', f') && InFunc(f, p) && p.0 in c.entry
    ensures InFunc(f', p) && p.0 in c'.entry && At(c', f', p) == At(c, f, p)
  {
    hide Fits;
    if p.0 == b { assert (f.body[b] + [inst])[..p.1] == f.body[b][..p.1]; }
  }

  lemma AtEnd(c: Cert, f: Func, b: nat, inst: Inst, c': Cert, f': Func)
    requires Adds(c, f, b, inst, c', f')
    ensures b in f.body && b in c.entry && b in c'.entry && InFunc(f, (b, |f.body[b]|))
    ensures InFunc(f', (b, |f.body[b]| + 1))
    ensures At(c', f', (b, |f.body[b]| + 1)) ==
      At(c, f, (b, |f.body[b]|)) + if inst.dest.Some? then {inst.dest.value} else {}
  {
    hide Fits;
    var insts, n := f.body[b] + [inst], |f.body[b]|;
    AtOld(c, f, b, inst, c', f', (b, n));
    DestsStep(insts, n);
  }

  lemma AddsSites(c: Cert, f: Func, b: nat, inst: Inst, c': Cert, f': Func)
    requires SitesOk(c, f) && Adds(c, f, b, inst, c', f')
    ensures SitesOk(c', f')
  {
    hide At, ShapeOk, Targets, SitesOk;
    AddsKeeps(c, f, b, inst, c', f');
    SitesStay(c, f, b, inst, c', f');
    forall v | v in c'.site
      ensures c'.low <= v <= c'.top && InFunc(f', c'.site[v]) && c'.site[v].1 < |f'.body[c'.site[v].0]|
      ensures f'.body[c'.site[v].0][c'.site[v].1].dest == Some(v)
    {
      SiteAdded(c, f, b, inst, c', f', v);
    }
    forall d, k | d in f'.body && 0 <= k < |f'.body[d]| && f'.body[d][k].dest.Some?
      ensures f'.body[d][k].dest.value in c'.site && c'.site[f'.body[d][k].dest.value] == (d, k)
    {
      PlaceAdded(c, f, b, inst, c', f', d, k);
    }
    RankKeys(c, f, b, inst, c', f');
    SitesAre(c', f');
  }

  lemma SitesAre(c: Cert, f: Func)
    requires c.entry.Keys == f.body.Keys && c.rank.Keys == c.site.Keys
    requires forall v | v in c.site ::
      c.low <= v <= c.top && InFunc(f, c.site[v]) && c.site[v].1 < |f.body[c.site[v].0]| &&
        f.body[c.site[v].0][c.site[v].1].dest == Some(v)
    requires forall b, k | b in f.body && 0 <= k < |f.body[b]| && f.body[b][k].dest.Some? ::
      f.body[b][k].dest.value in c.site && c.site[f.body[b][k].dest.value] == (b, k)
    requires forall b, v | b in c.entry && v in c.entry[b] :: v in c.site
    ensures SitesOk(c, f)
  {}

  lemma RankKeys(c: Cert, f: Func, b: nat, inst: Inst, c': Cert, f': Func)
    requires SitesOk(c, f) && Adds(c, f, b, inst, c', f')
    ensures c'.rank.Keys == c'.site.Keys && c'.entry.Keys == f'.body.Keys
  {
    hide Fits;
  }

  lemma SiteAdded(c: Cert, f: Func, b: nat, inst: Inst, c': Cert, f': Func, v: nat)
    requires SitesOk(c, f) && Adds(c, f, b, inst, c', f') && v in c'.site
    ensures c'.low <= v <= c'.top && InFunc(f', c'.site[v]) && c'.site[v].1 < |f'.body[c'.site[v].0]|
    ensures f'.body[c'.site[v].0][c'.site[v].1].dest == Some(v)
  {
    hide Adds;
    AddsKeeps(c, f, b, inst, c', f');
    SitesStay(c, f, b, inst, c', f');
    if inst.dest != Some(v) { assert f'.body[c.site[v].0][c.site[v].1] == f.body[c.site[v].0][c.site[v].1]; }
  }

  lemma PlaceAdded(c: Cert, f: Func, b: nat, inst: Inst, c': Cert, f': Func, d: nat, k: nat)
    requires SitesOk(c, f) && Adds(c, f, b, inst, c', f') && d in f'.body && k < |f'.body[d]|
    requires f'.body[d][k].dest.Some?
    ensures f'.body[d][k].dest.value in c'.site && c'.site[f'.body[d][k].dest.value] == (d, k)
  {
    AddsKeeps(c, f, b, inst, c', f');
    SitesStay(c, f, b, inst, c', f');
    if d == b && k == |f.body[b]| {
      hide SitesOk, Fits;
    } else {
      hide Adds;
      assert f'.body[d][k] == f.body[d][k];
    }
  }

  /** The places of registers that were there. */
  lemma SitesStay(c: Cert, f: Func, b: nat, inst: Inst, c': Cert, f': Func)
    requires SitesOk(c, f) && Adds(c, f, b, inst, c', f')
    ensures c.entry.Keys == f.body.Keys
    ensures inst.dest.Some? ==>
      c.low <= inst.dest.value && c.top < inst.dest.value == c'.top && c'.site[inst.dest.value] == (b, |f.body[b]|)
    ensures forall v | v in c.site :: c.low <= v <= c.top && v in c'.site && c'.site[v] == c.site[v]
    ensures forall v | v in c.site :: InFunc(f, c.site[v]) && c.site[v].0 in c.entry && InFunc(f', c.site[v])
    ensures forall v | v in c'.site :: v in c.site || inst.dest == Some(v)
    ensures forall d, v | d in c.entry && v in c.entry[d] :: v in c.site
  {
    hide At, ShapeOk, Targets;
  }

  lemma RanksStay(c: Cert, f: Func, b: nat, inst: Inst, c': Cert, f': Func)
    requires SitesOk(c, f) && Adds(c, f, b, inst, c', f') && Numbered(c)
    ensures Numbered(c') && (forall v | v in c.rank :: v in c'.rank) && (inst.dest.Some? ==> inst.dest.value in c'.rank)
    ensures forall v: nat | v <= c.top :: RankOf(c', v) == RankOf(c, v) <= v
    ensures inst.dest.Some? ==> RankOf(c', inst.dest.value) == inst.dest.value
    ensures c.rank.Keys == c.site.Keys
  {
    hide At, ShapeOk, Targets;
  }

  lemma AddsDominance(c: Cert, f: Func, b: nat, inst: Inst, c': Cert, f': Func)
    requires SitesOk(c, f) && SitesOk(c', f') && Dominance(c, f) && Numbered(c) && Adds(c, f, b, inst, c', f')
    ensures Dominance(c', f')
  {
    hide At, SitesOk, Adds, Numbered, RankOk, ClosedAt;
    forall v | v in c'.site
      ensures RankOk(c', f', v)
    {
      AddedRank(c, f, b, inst, c', f', v);
    }
    forall p: (nat, nat) | InFunc(f', p)
      ensures ClosedAt(c', f', p)
    {
      AddedCloses(c, f, b, inst, c', f', p);
    }
  }

  lemma AddedRank(c: Cert, f: Func, b: nat, inst: Inst, c': Cert, f': Func, v: nat)
    requires SitesOk(c, f) && SitesOk(c', f') && Dominance(c, f) && Numbered(c) && Adds(c, f, b, inst, c', f')
    requires v in c'.site
    ensures RankOk(c', f', v)
  {
    hide At, SitesOk, Adds, ClosedAt;
    SitesStay(c, f, b, inst, c', f');
    RanksStay(c, f, b, inst, c', f');
    if inst.dest == Some(v) {
      AtEnd(c, f, b, inst, c', f');
      AtOld(c, f, b, inst, c', f', (b, |f.body[b]|));
      forall u | u in At(c', f', c'.site[v])
        ensures u in c'.rank && c'.rank[u] < c'.rank[v]
      {
        AtHasSite(c, f, (b, |f.body[b]|), u);
      }
    } else {
      assert RankOk(c, f, v);
      AtOld(c, f, b, inst, c', f', c.site[v]);
    }
  }

  lemma AddedCloses(c: Cert, f: Func, b: nat, inst: Inst, c': Cert, f': Func, p: (nat, nat))
    requires SitesOk(c, f) && SitesOk(c', f') && Dominance(c, f) && Adds(c, f, b, inst, c', f') && InFunc(f', p)
    ensures ClosedAt(c', f', p)
  {
    hide At, SitesOk, Adds, RankOk;
    SitesStay(c, f, b, inst, c', f');
    AddsKeeps(c, f, b, inst, c', f');
    AtEnd(c, f, b, inst, c', f');
    var q := if InFunc(f, p) then p else (b, |f.body[b]|);
    AtOld(c, f, b, inst, c', f', q);
    assert ClosedAt(c, f, q);
    forall v | v in At(c', f', p) && v in c'.site
      ensures At(c', f', c'.site[v]) <= At(c', f', p)
    {
      if v in At(c, f, q) {
        AtHasSite(c, f, q, v);
        AtOld(c, f, b, inst, c', f', c.site[v]);
      } else {
        AtOld(c, f, b, inst, c', f', (b, |f.body[b]|));
      }
    }
  }

  lemma AddedReads(c: Cert, f: Func, b: nat, inst: Inst, c': Cert, f': Func)
    requires SitesOk(c, f) && SitesOk(c', f') && Numbered(c) && Adds(c, f, b, inst, c', f')
    ensures b in f'.body && |f.body[b]| < |f'.body[b]| && ReadsOk(c', f', b, |f.body[b]|)
  {
    hide At, SitesOk, ShapeOk, Targets, RankOf, Numbered;
    RanksStay(c, f, b, inst, c', f');
    AddsKeeps(c, f, b, inst, c', f');
    AtEnd(c, f, b, inst, c', f');
    AtOld(c, f, b, inst, c', f', (b, |f.body[b]|));
  }

  lemma OldReads(c: Cert, f: Func, b: nat, inst: Inst, c': Cert, f': Func, d: nat, k: nat)
    requires SitesOk(c, f) && SitesOk(c', f') && Numbered(c) && Adds(c, f, b, inst, c', f')
    requires d in f.body && k < |f.body[d]| && ReadsOk(c, f, d, k)
    ensures d in f'.body && k < |f'.body[d]| && ReadsOk(c', f', d, k)
  {
    hide At, SitesOk, Adds, RankOf, Numbered;
    SitesStay(c, f, b, inst, c', f');
    RanksStay(c, f, b, inst, c', f');
    AddsKeeps(c, f, b, inst, c', f');
    AtOld(c, f, b, inst, c', f', (d, k));
    assert f'.body[d][k] == f.body[d][k];
    DestBelow(c, f, d, k);
  }

  lemma DestBelow(c: Cert, f: Func, d: nat, k: nat)
    requires SitesOk(c, f) && d in f.body && k < |f.body[d]|
    ensures f.body[d][k].dest.Some? ==> f.body[d][k].dest.value <= c.top
  {}

  lemma AddsLive(c: Cert, f: Func, b: nat, inst: Inst, c': Cert, f': Func, d: nat)
    requires SitesOk(c, f) && SitesOk(c', f') && Adds(c, f, b, inst, c', f') && d in f.body && LiveOk(c, f, d)
    ensures d in f'.body && LiveOk(c', f', d)
  {
    hide At, SitesOk, Adds, LiveOk;
    AddsKeeps(c, f, b, inst, c', f');
    if d != b { OtherLive(c, f, b, inst, c', f', d); } else { ThisLive(c, f, b, inst, c', f'); }
  }

  lemma ThisLive(c: Cert, f: Func, b: nat, inst: Inst, c': Cert, f': Func)
    requires SitesOk(c, f) && SitesOk(c', f') && Adds(c, f, b, inst, c', f') && LiveOk(c, f, b)
    ensures b in f'.body && LiveOk(c', f', b)
  {
    hide At, SitesOk, ShapeOk, Targets;
    SitesStay(c, f, b, inst, c', f');
    AtEnd(c, f, b, inst, c', f');
    assert f'.body[b] == f.body[b] + [inst] && Successors(f'.body[b]) == Targets(inst);
  }

  lemma OtherLive(c: Cert, f: Func, b: nat, inst: Inst, c': Cert, f': Func, d: nat)
    requires SitesOk(c, f) && SitesOk(c', f') && Adds(c, f, b, inst, c', f') && d in f.body && d != b && LiveOk(c, f, d)
    ensures d in f'.body && LiveOk(c', f', d)
  {
    hide At, SitesOk, Adds, Successors;
    SitesStay(c, f, b, inst, c', f');
    AddsKeeps(c, f, b, inst, c', f');
    AtOld(c, f, b, inst, c', f', (d, |f.body[d]|));
  }

  lemma AddsWellFormed(c: Cert, f: Func, b: nat, inst: Inst, c': Cert, f': Func)
    requires WellFormed(f) && Adds(c, f, b, inst, c', f')
    ensures WellFormed(f')
  {
    hide At, ShapeOk, Targets;
    forall d | d in f'.body
      ensures BlockOk(f'.body[d]) && Successors(f'.body[d]) <= f'.body.Keys
    {
      assert BlockOk(f.body[d]) && Successors(f.body[d]) <= f.body.Keys;
    }
  }

  /** An instruction that fits keeps strict SSA form. */
  lemma AddsKeepsSsa(c: Cert, f: Func, b: nat, inst: Inst, c': Cert, f': Func)
    requires StrictSsa(c, f) && Numbered(c) && Adds(c, f, b, inst, c', f')
    ensures StrictSsa(c', f') && Numbered(c')
  {
    hide WellFormed, SitesOk, Dominance, ReadsOk, LiveOk, Adds, Numbered;
    SsaParts(c, f);
    AddsSites(c, f, b, inst, c', f');
    AddsDominance(c, f, b, inst, c', f');
    AddsWellFormed(c, f, b, inst, c', f');
    AddsKeeps(c, f, b, inst, c', f');
    RanksStay(c, f, b, inst, c', f');
    forall d, k | d in f'.body && 0 <= k < |f'.body[d]|
      ensures ReadsOk(c', f', d, k)
    {
      if d == b && k == |f.body[b]| {
        AddedReads(c, f, b, inst, c', f');
      } else {
        OldReads(c, f, b, inst, c', f', d, k);
      }
    }
    forall d | d in f'.body
      ensures LiveOk(c', f', d)
    {
      AddsLive(c, f, b, inst, c', f', d);
    }
  }

  // ---------------------------------------------------------------------------------------------
  // Appending a block

  /** `f'` is `f` with the empty block `b`, which nothing leads to yet. */
  ghost predicate AddsBlock(c: Cert, f: Func, b: nat, c': Cert, f': Func)
    requires SitesOk(c, f)
  {
    b !in f.body && b !in c.live && f' == Func(f.order + [b], f.body[b := []]) && c' == c.(entry := c.entry[b := {}])
  }

  lemma BlockKeeps(c: Cert, f: Func, b: nat, c': Cert, f': Func)
    requires SitesOk(c, f) && AddsBlock(c, f, b, c', f')
    ensures c'.site == c.site && c'.rank == c.rank && c'.low == c.low && c'.top == c.top && c'.live == c.live
    ensures b !in c.live
    ensures b !in f.body && b in f'.body && f'.body[b] == [] && b in c'.entry && f'.body.Keys == f.body.Keys + {b}
    ensures c'.entry.Keys == c.entry.Keys + {b}
    ensures forall d | d in f.body :: f'.body[d] == f.body[d] && d in c.entry && c'.entry[d] == c.entry[d]
    ensures forall p: (nat, nat) | InFunc(f', p) :: InFunc(f, p) || p == (b, 0)
    ensures forall p: (nat, nat) | InFunc(f, p) :: InFunc(f', p) && p.0 in c'.entry && At(c', f', p) == At(c, f, p)
    ensures InFunc(f', (b, 0)) && At(c', f', (b, 0)) == {}
    ensures forall v | v in c.site :: InFunc(f, c.site[v])
  {}

  lemma BlockSites(c: Cert, f: Func, b: nat, c': Cert, f': Func)
    requires SitesOk(c, f) && AddsBlock(c, f, b, c', f')
    ensures SitesOk(c', f')
  {
    hide At;
  }

  lemma BlockDominance(c: Cert, f: Func, b: nat, c': Cert, f': Func)
    requires SitesOk(c, f) && SitesOk(c', f') && Dominance(c, f) && AddsBlock(c, f, b, c', f')
    ensures Dominance(c', f')
  {
    hide At, SitesOk, RankOk, ClosedAt, AddsBlock;
    BlockKeeps(c, f, b, c', f');
    forall v | v in c'.site
      ensures RankOk(c', f', v)
    {
      BlockRank(c, f, b, c', f', v);
    }
    forall p: (nat, nat) | InFunc(f', p)
      ensures ClosedAt(c', f', p)
    {
      BlockCloses(c, f, b, c', f', p);
    }
  }

  lemma BlockRank(c: Cert, f: Func, b: nat, c': Cert, f': Func, v: nat)
    requires SitesOk(c, f) && SitesOk(c', f') && AddsBlock(c, f, b, c', f') && v in c.site && RankOk(c, f, v)
    ensures v in c'.site && RankOk(c', f', v)
  {
    hide At, SitesOk, AddsBlock;
    BlockKeeps(c, f, b, c', f');
  }

  lemma BlockCloses(c: Cert, f: Func, b: nat, c': Cert, f': Func, p: (nat, nat))
    requires SitesOk(c, f) && SitesOk(c', f') && Dominance(c, f) && AddsBlock(c, f, b, c', f') && InFunc(f', p)
    ensures ClosedAt(c', f', p)
  {
    hide At, SitesOk, RankOk;
    BlockKeeps(c, f, b, c', f');
    if InFunc(f, p) { assert ClosedAt(c, f, p); }
  }

  lemma BlockReads(c: Cert, f: Func, b: nat, c': Cert, f': Func, d: nat, k: nat)
    requires SitesOk(c, f) && SitesOk(c', f') && AddsBlock(c, f, b, c', f') && d in f.body && k < |f.body[d]|
    requires ReadsOk(c, f, d, k)
    ensures d in f'.body && k < |f'.body[d]| && ReadsOk(c', f', d, k)
  {
    hide At, SitesOk, AddsBlock;
    BlockKeeps(c, f, b, c', f');
    assert InFunc(f, (d, k));
  }

  lemma BlockLive(c: Cert, f: Func, b: nat, c': Cert, f': Func, d: nat)
    requires SitesOk(c, f) && SitesOk(c', f') && AddsBlock(c, f, b, c', f') && d in f'.body
    requires d in f.body ==> LiveOk(c, f, d)
    ensures LiveOk(c', f', d)
  {
    hide At, SitesOk, Successors;
    BlockKeeps(c, f, b, c', f');
    if d in f.body {
      hide AddsBlock;
      assert InFunc(f, (d, |f.body[d]|));
    } else {
      NoSuccessors();
    }
  }

  lemma NoSuccessors()
    ensures Successors([]) == {}
  {}

  lemma BlockWellFormed(c: Cert, f: Func, b: nat, c': Cert, f': Func)
    requires WellFormed(f) && SitesOk(c, f) && AddsBlock(c, f, b, c', f')
    ensures WellFormed(f')
  {
    hide AddsBlock, At, SitesOk, BlockOk, Successors;
    NewBlockLast(c, f, b, c', f');
    assert (set d | d in f'.order) == f'.body.Keys;
    EmptyBlockOk();
    forall d | d in f'.body
      ensures BlockOk(f'.body[d]) && Successors(f'.body[d]) <= f'.body.Keys
    {
      if d != b { assert BlockOk(f.body[d]) && Successors(f.body[d]) <= f.body.Keys; }
    }
  }

  lemma EmptyBlockOk()
    ensures BlockOk([]) && Successors([]) == {}
  {}

  /** A new block keeps strict SSA form. */
  lemma BlockKeepsSsa(c: Cert, f: Func, b: nat, c': Cert, f': Func)
    requires StrictSsa(c, f) && SitesOk(c, f) && AddsBlock(c, f, b, c', f')
    ensures StrictSsa(c', f')
  {
    hide StrictSsa, WellFormed, SitesOk, Dominance, ReadsOk, LiveOk, AddsBlock, At;
    SsaParts(c, f);
    BlockKeeps(c, f, b, c', f');
    BlockSites(c, f, b, c', f');
    BlockDominance(c, f, b, c', f');
    BlockWellFormed(c, f, b, c', f');
    NewBlockLast(c, f, b, c', f');
    forall d, k | d in f'.body && 0 <= k < |f'.body[d]|
      ensures ReadsOk(c', f', d, k)
    {
      BlockReads(c, f, b, c', f', d, k);
    }
    forall d | d in f'.body
      ensures LiveOk(c', f', d)
    {
      BlockLive(c, f, b, c', f', d);
    }
    SsaWhole(c', f');
  }

  lemma NewBlockLast(c: Cert, f: Func, b: nat, c': Cert, f': Func)
    requires WellFormed(f) && SitesOk(c, f) && AddsBlock(c, f, b, c', f')
    ensures f.order != [] && f'.order == f.order + [b] && f'.order[0] == f.order[0] && b !in f.body
    ensures f'.body.Keys == f.body.Keys + {b} && f'.body[b] == []
    ensures forall d | d in f.body :: f'.body[d] == f.body[d]
    ensures forall d :: d in f.order <==> d in f.body
  {
    hide SitesOk, At, BlockOk, Successors;
    assert forall d :: d in f.order <==> d in (set x | x in f.order);
  }

  // ---------------------------------------------------------------------------------------------
  // Making a block live

  /** The empty block `b` becomes live, with the registers of `e` available at its start. */
  ghost predicate Activates(c: Cert, f: Func, b: nat, e: set<nat>, c': Cert)
    requires SitesOk(c, f)
  {
    && b in f.body && f.body[b] == [] && b !in c.live && c' == c.(entry := c.entry[b := e], live := c.live + {b})
    && forall v | v in e :: v in c.site && At(c, f, c.site[v]) <= e && c.site[v].0 in c.live
  }

  lemma ActivatedKeeps(c: Cert, f: Func, b: nat, e: set<nat>, c': Cert)
    requires SitesOk(c, f) && Activates(c, f, b, e, c')
    ensures b in f.body && f.body[b] == [] && b !in c.live && c'.live == c.live + {b} && c'.site == c.site
    ensures c'.rank == c.rank && c'.low == c.low && c'.top == c.top
    ensures c'.entry.Keys == c.entry.Keys && b in c'.entry && c'.entry[b] == e
    ensures forall d | d in c.entry && d != b :: c'.entry[d] == c.entry[d]
    ensures forall p: (nat, nat) | InFunc(f, p) ::
      p.0 in c'.entry && At(c', f, p) == if p.0 == b then e else At(c, f, p)
    ensures forall v | v in c.site :: InFunc(f, c.site[v]) && c.site[v].0 != b
    ensures forall v | v in e :: v in c.site && At(c, f, c.site[v]) <= e && c.site[v].0 in c.live
  {}

  lemma ActivatedSites(c: Cert, f: Func, b: nat, e: set<nat>, c': Cert)
    requires SitesOk(c, f) && Activates(c, f, b, e, c')
    ensures SitesOk(c', f)
  {
    hide At;
  }

  lemma ActivatedDominance(c: Cert, f: Func, b: nat, e: set<nat>, c': Cert)
    requires SitesOk(c, f) && SitesOk(c', f) && Dominance(c, f) && Activates(c, f, b, e, c')
    ensures Dominance(c', f)
  {
    hide At, SitesOk, RankOk, ClosedAt, Activates;
    ActivatedKeeps(c, f, b, e, c');
    forall v | v in c'.site
      ensures RankOk(c', f, v)
    {
      ActivatedRank(c, f, b, e, c', v);
    }
    forall p: (nat, nat) | InFunc(f, p)
      ensures ClosedAt(c', f, p)
    {
      ActivatedCloses(c, f, b, e, c', p);
    }
  }

  lemma ActivatedRank(c: Cert, f: Func, b: nat, e: set<nat>, c': Cert, v: nat)
    requires SitesOk(c, f) && SitesOk(c', f) && Activates(c, f, b, e, c') && v in c.site && RankOk(c, f, v)
    ensures v in c'.site && RankOk(c', f, v)
  {
    hide At, SitesOk, Activates;
    ActivatedKeeps(c, f, b, e, c');
  }

  lemma ActivatedCloses(c: Cert, f: Func, b: nat, e: set<nat>, c': Cert, p: (nat, nat))
    requires SitesOk(c, f) && SitesOk(c', f) && Activates(c, f, b, e, c') && InFunc(f, p) && ClosedAt(c, f, p)
    ensures ClosedAt(c', f, p)
  {
    hide At, SitesOk, Activates;
    ActivatedKeeps(c, f, b, e, c');
  }

  lemma ActivatedReads(c: Cert, f: Func, b: nat, e: set<nat>, c': Cert, d: nat, k: nat)
    requires SitesOk(c, f) && SitesOk(c', f) && Activates(c, f, b, e, c') && d in f.body && k < |f.body[d]|
    requires ReadsOk(c, f, d, k)
    ensures ReadsOk(c', f, d, k)
  {
    hide At, SitesOk, Activates;
    ActivatedKeeps(c, f, b, e, c');
    assert InFunc(f, (d, k));
  }

  lemma ActivatedLive(c: Cert, f: Func, b: nat, e: set<nat>, c': Cert, d: nat)
    requires SitesOk(c, f) && SitesOk(c', f) && Activates(c, f, b, e, c') && d in f.body && LiveOk(c, f, d)
    ensures LiveOk(c', f, d)
  {
    hide At, SitesOk, Activates, Successors;
    ActivatedKeeps(c, f, b, e, c');
    if d == b { NoSuccessors(); } else { assert InFunc(f, (d, |f.body[d]|)); }
  }

  /** Making an empty block live keeps strict SSA form. */
  lemma ActivateKeepsSsa(c: Cert, f: Func, b: nat, e: set<nat>, c': Cert)
    requires StrictSsa(c, f) && SitesOk(c, f) && Activates(c, f, b, e, c')
    ensures StrictSsa(c', f)
  {
    hide WellFormed, SitesOk, Dominance, ReadsOk, LiveOk, Activates, At;
    SsaParts(c, f);
    ActivatedKeeps(c, f, b, e, c');
    ActivatedSites(c, f, b, e, c');
    ActivatedDominance(c, f, b, e, c');
    forall d, k | d in f.body && 0 <= k < |f.body[d]|
      ensures ReadsOk(c', f, d, k)
    {
      ActivatedReads(c, f, b, e, c', d, k);
    }
    forall d | d in f.body
      ensures LiveOk(c', f, d)
    {
      ActivatedLive(c, f, b, e, c', d);
    }
  }
}
