/** Strict static single assignment form. */
module Ssa {
  import opened Sir

  /** Registers written by a sequence of instructions. */
  function Dests(insts: seq<Inst>): set<nat> {
    set i | 0 <= i < |insts| && insts[i].dest.Some? :: insts[i].dest.value
  }

  /** A certificate of strict SSA form: for every block the registers whose definition dominates its
      entry, for every register the place of its only definition, a rank that grows along dominance, a set
      of blocks that control does not leave, and bounds on the registers mentioned. */
  datatype Cert = Cert(entry: map<nat, set<nat>>, site: map<nat, (nat, nat)>, rank: map<nat, nat>, live: set<nat>,
    low: nat, top: nat)

  /** A register that is defined nowhere ranks lowest. */
  function RankOf(c: Cert, v: nat): nat { if v in c.rank then c.rank[v] else 0 }

  ghost predicate InFunc(f: Func, p: (nat, nat)) { p.0 in f.body && p.1 <= |f.body[p.0]| }

  /** The registers whose definition dominates instruction `p.1` of block `p.0`. */
  ghost function At(c: Cert, f: Func, p: (nat, nat)): set<nat>
    requires InFunc(f, p) && p.0 in c.entry
  {
    c.entry[p.0] + Dests(f.body[p.0][..p.1])
  }

  ghost predicate SitesOk(c: Cert, f: Func) {
    && c.entry.Keys == f.body.Keys && c.rank.Keys == c.site.Keys
    && (forall v | v in c.site ::
          c.low <= v <= c.top && InFunc(f, c.site[v]) && c.site[v].1 < |f.body[c.site[v].0]| &&
            f.body[c.site[v].0][c.site[v].1].dest == Some(v))
    && (forall b, k | b in f.body && 0 <= k < |f.body[b]| && f.body[b][k].dest.Some? ::
          f.body[b][k].dest.value in c.site && c.site[f.body[b][k].dest.value] == (b, k))
    && (forall b, v | b in c.entry && v in c.entry[b] :: v in c.site)
  }

  /** What dominates the definition of `v` ranks below it: dominance is acyclic. */
  ghost predicate RankOk(c: Cert, f: Func, v: nat)
    requires SitesOk(c, f) && v in c.site
  {
    v in c.rank && forall u | u in At(c, f, c.site[v]) :: u in c.rank && c.rank[u] < c.rank[v]
  }

  /** What dominates the definition of a register that dominates `p` dominates `p` too. */
  ghost predicate ClosedAt(c: Cert, f: Func, p: (nat, nat))
    requires SitesOk(c, f) && InFunc(f, p)
  {
    forall v | v in At(c, f, p) && v in c.site :: At(c, f, c.site[v]) <= At(c, f, p)
  }

  ghost predicate Dominance(c: Cert, f: Func)
    requires SitesOk(c, f)
  {
    (forall v | v in c.site :: RankOk(c, f, v)) && (forall p: (nat, nat) | InFunc(f, p) :: ClosedAt(c, f, p))
  }

  /** What an instruction of block `b` reads is available if the block is live; a computation reads what ranks lower. */
  ghost predicate ReadsOk(c: Cert, f: Func, b: nat, k: nat)
    requires SitesOk(c, f) && b in f.body && k < |f.body[b]|
  {
    var inst := f.body[b][k];
    && (forall v: nat | VReg(v) in inst.ops :: c.low <= v <= c.top)
    && (inst.op.IsPureCompute() && inst.dest.Some? ==> forall v: nat | VReg(v) in inst.ops ::
      RankOf(c, v) < RankOf(c, inst.dest.value))
    && (b in c.live ==> forall v: nat | VReg(v) in inst.ops :: v in At(c, f, (b, k)))
  }

  /** Live blocks lead to live blocks, with everything at hand that is expected there. */
  ghost predicate LiveOk(c: Cert, f: Func, b: nat)
    requires SitesOk(c, f) && b in f.body
  {
    b in c.live ==>
      && (forall s | s in Successors(f.body[b]) ::
        s in c.live && s in c.entry && c.entry[s] <= At(c, f, (b, |f.body[b]|)))
      && (forall v | v in c.entry[b] :: c.site[v].0 in c.live)
  }

  /** Every operand is defined on every path from the entry to its use. */
  ghost predicate StrictSsa(c: Cert, f: Func) {
    && WellFormed(f) && SitesOk(c, f) && Dominance(c, f)
    && f.order[0] in c.entry && c.entry[f.order[0]] == {} && f.order[0] in c.live && c.live <= f.body.Keys
    && (forall b, k | b in f.body && 0 <= k < |f.body[b]| :: ReadsOk(c, f, b, k))
    && (forall b | b in f.body :: LiveOk(c, f, b))
  }

  lemma DestsStep(insts: seq<Inst>, k: nat)
    requires k < |insts|
    ensures Dests(insts[..k + 1]) == Dests(insts[..k]) + if insts[k].dest.Some? then {insts[k].dest.value} else {}
  {
    assert insts[..k + 1] == insts[..k] + [insts[k]];
    forall v | v in Dests(insts[..k])
      ensures v in Dests(insts[..k + 1])
    {
      var i :| 0 <= i < k && insts[..k][i].dest == Some(v);
      assert insts[..k + 1][i] == insts[i];
    }
    forall v | v in Dests(insts[..k + 1])
      ensures v in Dests(insts[..k]) || insts[k].dest == Some(v)
    {
      var i :| 0 <= i < k + 1 && insts[..k + 1][i].dest == Some(v);
      if i < k { assert insts[..k][i] == insts[i]; }
    }
    if insts[k].dest.Some? { assert insts[..k + 1][k] == insts[k]; }
  }

  lemma AtStep(c: Cert, f: Func, b: nat, k: nat)
    requires SitesOk(c, f) && b in f.body && k < |f.body[b]|
    ensures At(c, f, (b, k + 1)) == At(c, f, (b, k)) + if f.body[b][k].dest.Some? then {f.body[b][k].dest.value} else {}
  {
    DestsStep(f.body[b], k);
  }

  lemma AtMonotone(c: Cert, f: Func, b: nat, i: nat, j: nat)
    requires SitesOk(c, f) && b in f.body && i <= j <= |f.body[b]|
    ensures At(c, f, (b, i)) <= At(c, f, (b, j))
    decreases j - i
  {
    if i < j {
      AtStep(c, f, b, i);
      AtMonotone(c, f, b, i + 1, j);
    }
  }

  lemma AtHasSite(c: Cert, f: Func, p: (nat, nat), v: nat)
    requires SitesOk(c, f) && InFunc(f, p) && v in At(c, f, p)
    ensures v in c.site
  {
    if v !in c.entry[p.0] {
      var i :| 0 <= i < |f.body[p.0][..p.1]| && f.body[p.0][..p.1][i].dest == Some(v);
      assert f.body[p.0][i].dest == Some(v);
    }
  }

  /** What is available in a live block was defined in a live block. */
  lemma LiveSite(c: Cert, f: Func, b: nat, k: nat, v: nat)
    requires SitesOk(c, f) && b in f.body && k <= |f.body[b]| && b in c.live && LiveOk(c, f, b) && v in At(c, f, (b, k))
    ensures v in c.site && c.site[v].0 in c.live && c.site[v].0 in f.body
  {
    AtHasSite(c, f, (b, k), v);
    if v !in c.entry[b] {
      var i :| 0 <= i < |f.body[b][..k]| && f.body[b][..k][i].dest == Some(v);
      assert f.body[b][i].dest == Some(v);
    }
  }

  lemma SsaParts(c: Cert, f: Func)
    requires StrictSsa(c, f)
    ensures SitesOk(c, f) && Dominance(c, f) && WellFormed(f)
    ensures forall b | b in f.body :: LiveOk(c, f, b)
    ensures forall b, k | b in f.body && 0 <= k < |f.body[b]| :: ReadsOk(c, f, b, k)
    ensures f.order[0] in c.live && f.order[0] in c.entry && c.entry[f.order[0]] == {} && c.live <= f.body.Keys
    ensures c.entry.Keys == f.body.Keys
  {}

  lemma SsaWhole(c: Cert, f: Func)
    requires SitesOk(c, f) && Dominance(c, f) && WellFormed(f)
    requires forall b | b in f.body :: LiveOk(c, f, b)
    requires forall b, k | b in f.body && 0 <= k < |f.body[b]| :: ReadsOk(c, f, b, k)
    requires f.order[0] in c.live && f.order[0] in c.entry && c.entry[f.order[0]] == {} && c.live <= f.body.Keys
    ensures StrictSsa(c, f)
  {}

  // ---------------------------------------------------------------------------------------------
  // The bound

  ghost predicate MentionsUpTo(inst: Inst, max: nat) {
    (forall v: nat | VReg(v) in inst.ops :: v <= max) && (inst.dest.Some? ==> inst.dest.value <= max)
  }

  ghost predicate BoundedBy(f: Func, max: nat) {
    forall b, k | b in f.body && 0 <= k < |f.body[b]| :: MentionsUpTo(f.body[b][k], max)
  }

  /** Any bound on the registers mentioned will do. */
  lemma TopMoves(c: Cert, f: Func, max: nat)
    requires StrictSsa(c, f) && BoundedBy(f, max)
    ensures StrictSsa(c.(top := max), f)
  {
    hide WellFormed, SitesOk, BoundedBy, Dominance, ReadsOk, LiveOk;
    SsaParts(c, f);
    SitesMove(c, f, max);
    DominanceMoves(c, f, max);
    forall b, k | b in f.body && 0 <= k < |f.body[b]|
      ensures ReadsOk(c.(top := max), f, b, k)
    {
      ReadsMove(c, f, max, b, k);
    }
    forall b | b in f.body
      ensures LiveOk(c.(top := max), f, b)
    {
      LiveMoves(c, f, max, b);
    }
  }

  lemma AtMoves(c: Cert, f: Func, max: nat, p: (nat, nat))
    requires InFunc(f, p) && p.0 in c.entry
    ensures At(c.(top := max), f, p) == At(c, f, p)
  {}

  lemma DominanceMoves(c: Cert, f: Func, max: nat)
    requires SitesOk(c, f) && SitesOk(c.(top := max), f) && Dominance(c, f)
    ensures Dominance(c.(top := max), f)
  {
    hide RankOk, ClosedAt, At;
    var d := c.(top := max);
    forall v | v in d.site
      ensures RankOk(d, f, v)
    {
      RankMoves(c, f, max, v);
    }
    forall p: (nat, nat) | InFunc(f, p)
      ensures ClosedAt(d, f, p)
    {
      ClosedMoves(c, f, max, p);
    }
  }

  lemma RankMoves(c: Cert, f: Func, max: nat, v: nat)
    requires SitesOk(c, f) && SitesOk(c.(top := max), f) && v in c.site && RankOk(c, f, v)
    ensures RankOk(c.(top := max), f, v)
  {
    hide At;
    AtMoves(c, f, max, c.site[v]);
  }

  lemma ClosedMoves(c: Cert, f: Func, max: nat, p: (nat, nat))
    requires SitesOk(c, f) && SitesOk(c.(top := max), f) && InFunc(f, p) && ClosedAt(c, f, p)
    ensures ClosedAt(c.(top := max), f, p)
  {
    hide At;
    AtMoves(c, f, max, p);
    forall v | v in At(c, f, p) && v in c.site
      ensures At(c.(top := max), f, c.site[v]) <= At(c.(top := max), f, p)
    {
      AtMoves(c, f, max, c.site[v]);
    }
  }

  lemma ReadsMove(c: Cert, f: Func, max: nat, b: nat, k: nat)
    requires SitesOk(c, f) && SitesOk(c.(top := max), f) && b in f.body && k < |f.body[b]| && ReadsOk(c, f, b, k)
    requires BoundedBy(f, max)
    ensures ReadsOk(c.(top := max), f, b, k)
  {
    assert MentionsUpTo(f.body[b][k], max);
    AtMoves(c, f, max, (b, k));
    hide SitesOk, BoundedBy, At;
  }

  lemma LiveMoves(c: Cert, f: Func, max: nat, b: nat)
    requires SitesOk(c, f) && SitesOk(c.(top := max), f) && b in f.body && LiveOk(c, f, b)
    ensures LiveOk(c.(top := max), f, b)
  {
    hide At;
    AtMoves(c, f, max, (b, |f.body[b]|));
  }

  lemma SitesMove(c: Cert, f: Func, max: nat)
    requires SitesOk(c, f) && BoundedBy(f, max)
    ensures SitesOk(c.(top := max), f)
  {
    forall v | v in c.site
      ensures v <= max
    {
      assert MentionsUpTo(f.body[c.site[v].0][c.site[v].1], max);
    }
  }

  lemma TopGrows(c: Cert, f: Func, max: nat)
    requires StrictSsa(c, f) && c.top <= max
    ensures StrictSsa(c.(top := max), f)
  {
    SsaParts(c, f);
    forall b, k | b in f.body && 0 <= k < |f.body[b]|
      ensures MentionsUpTo(f.body[b][k], max)
    {
      assert ReadsOk(c, f, b, k);
    }
    TopMoves(c, f, max);
  }
}
