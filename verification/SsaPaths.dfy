/** Strict SSA form read off the paths of a function. */
module SsaPaths {
  import opened Sir
  import opened Ssa
  import opened Prune

  /** Every register is written by at most one instruction. */
  ghost predicate SingleDefinitions(f: Func) {
    forall b, k, b', k' | b in f.body && b' in f.body && 0 <= k < |f.body[b]| && 0 <= k' < |f.body[b']|
      && f.body[b][k].dest.Some? && f.body[b][k].dest == f.body[b'][k'].dest :: b == b' && k == k'
  }

  /** Some block of the path before its last one writes `v`. */
  ghost predicate DefinedBefore(f: Func, path: seq<nat>, v: nat) {
    exists i :: 0 <= i < |path| - 1 && path[i] in f.body && v in Dests(f.body[path[i]])
  }

  /** If instruction `k` at the end of the path reads `v`, the path has written it before. */
  ghost predicate UseIsDominated(f: Func, path: seq<nat>, k: nat, v: nat) {
    IsPath(f, path) && k < |f.body[path[|path| - 1]]| && VReg(v) in f.body[path[|path| - 1]][k].ops ==>
      v in Dests(f.body[path[|path| - 1]][..k]) || DefinedBefore(f, path, v)
  }

  /** On every path from the entry, a register is written before it is read. */
  ghost predicate DefinitionsDominateUses(f: Func) {
    forall path, k, v :: UseIsDominated(f, path, k, v)
  }

  ghost function Defined(f: Func): set<nat> {
    set b, k | b in f.body && 0 <= k < |f.body[b]| && f.body[b][k].dest.Some? :: f.body[b][k].dest.value
  }

  ghost predicate IsSite(f: Func, v: nat, p: (nat, nat)) {
    p.0 in f.body && p.1 < |f.body[p.0]| && f.body[p.0][p.1].dest == Some(v)
  }

  ghost function SiteOf(f: Func, v: nat): (p: (nat, nat))
    requires v in Defined(f)
    ensures IsSite(f, v, p)
  {
    var b, k :| b in f.body && 0 <= k < |f.body[b]| && f.body[b][k].dest == Some(v);
    assert IsSite(f, v, (b, k));
    var p :| IsSite(f, v, p);
    p
  }

  /** The registers written on every path to `b`; none if there is no path. */
  ghost function Entering(f: Func, b: nat): set<nat> {
    set v | v in Defined(f) && Reaches(f, b) && forall path | IsPath(f, path) && path[|path| - 1] == b ::
      DefinedBefore(f, path, v)
  }

  ghost function Largest(s: set<nat>): (r: nat)
    ensures forall v | v in s :: v <= r
  {
    if s == {} then 0
    else
      var x :| x in s;
      assert s == (s - {x}) + {x};
      var y := Largest(s - {x});
      if x < y then y else x
  }

  /** The registers read. */
  ghost function ReadRegs(f: Func): set<nat> {
    set b, k, j | b in f.body && 0 <= k < |f.body[b]| && 0 <= j < |f.body[b][k].ops| && f.body[b][k].ops[j].VReg? ::
      f.body[b][k].ops[j].r
  }

  ghost function ReachableBlocks(f: Func): set<nat> { set b | b in f.body && Reaches(f, b) }

  ghost function Draft(f: Func): Cert {
    Cert(map b | b in f.body :: Entering(f, b), map v | v in Defined(f) :: SiteOf(f, v), map v | v in Defined(f) :: 0,
      ReachableBlocks(f), 0, Largest(Defined(f) + ReadRegs(f)))
  }

  ghost function Certificate(f: Func, o: map<nat, nat>): Cert {
    Draft(f).(rank := map v | v in Defined(f) :: PathRank(f, o, v))
  }

  /** Code that can be reached ranks by dominance, code that cannot above it, in the order `o`. */
  ghost function PathRank(f: Func, o: map<nat, nat>, v: nat): nat
    requires v in Defined(f)
  {
    if Reaches(f, SiteOf(f, v).0) then AtSize(f, v) else |Defined(f)| + 1 + if v in o then o[v] else 0
  }

  /** An instruction out of reach comes after the ones above it in its block, and a computation after those it reads. */
  ghost predicate Ordered(f: Func, o: map<nat, nat>, b: nat, k: nat)
    requires b in f.body && k < |f.body[b]| && f.body[b][k].dest.Some?
  {
    var inst := f.body[b][k];
    && inst.dest.value in o
    && (forall u | u in Dests(f.body[b][..k]) :: u in o && o[u] < o[inst.dest.value])
    && (inst.op.IsPureCompute() ==> forall u: nat | VReg(u) in inst.ops && u in Defined(f) ::
      DeadBelow(f, o, u, inst.dest.value))
  }

  ghost predicate DeadBelow(f: Func, o: map<nat, nat>, u: nat, d: nat)
    requires u in Defined(f) && d in o
  {
    Reaches(f, SiteOf(f, u).0) || (u in o && o[u] < o[d])
  }

  /** Code that no path leads to computes nothing in circles.  Where every block is reachable this says nothing. */
  ghost predicate DeadOrdered(f: Func, o: map<nat, nat>) {
    forall b, k | b in f.body && !Reaches(f, b) && 0 <= k < |f.body[b]| && f.body[b][k].dest.Some? ::
      Ordered(f, o, b, k)
  }

  ghost function AtSize(f: Func, v: nat): nat
    requires v in Defined(f)
  {
    |At(Draft(f), f, SiteOf(f, v))|
  }

  lemma SiteIsUnique(f: Func, v: nat, b: nat, k: nat)
    requires SingleDefinitions(f) && b in f.body && k < |f.body[b]| && f.body[b][k].dest == Some(v)
    ensures v in Defined(f) && SiteOf(f, v) == (b, k)
  {
    assert v in Defined(f);
    var p := SiteOf(f, v);
    assert IsSite(f, v, p);
  }

  lemma SiteDefines(f: Func, v: nat, p: (nat, nat))
    requires IsSite(f, v, p)
    ensures InFunc(f, p) && p.1 < |f.body[p.0]| && f.body[p.0][p.1].dest == Some(v)
  {}

  lemma EnteringDefined(f: Func)
    ensures forall b, v | b in f.body && v in Entering(f, b) :: v in Defined(f)
  {}

  lemma DraftSites(f: Func)
    requires SingleDefinitions(f)
    ensures SitesOk(Draft(f), f)
  {
    hide SingleDefinitions, IsSite, SiteOf, Entering;
    var c := Draft(f);
    forall v | v in Defined(f)
      ensures v <= c.top && InFunc(f, SiteOf(f, v)) && SiteOf(f, v).1 < |f.body[SiteOf(f, v).0]|
      ensures f.body[SiteOf(f, v).0][SiteOf(f, v).1].dest == Some(v)
    {
      SiteDefines(f, v, SiteOf(f, v));
    }
    EnteringDefined(f);
    forall b, k | b in f.body && 0 <= k < |f.body[b]| && f.body[b][k].dest.Some?
      ensures f.body[b][k].dest.value in c.site && c.site[f.body[b][k].dest.value] == (b, k)
    {
      SiteIsUnique(f, f.body[b][k].dest.value, b, k);
    }
  }

  lemma DestIsDefined(f: Func, b: nat, v: nat) returns (k: nat)
    requires b in f.body && v in Dests(f.body[b])
    ensures v in Defined(f) && k < |f.body[b]| && f.body[b][k].dest == Some(v)
  {
    k :| 0 <= k < |f.body[b]| && f.body[b][k].dest == Some(v);
  }

  /** A block that writes `v` is the block of its definition. */
  lemma WriterIsSite(f: Func, b: nat, v: nat)
    requires SingleDefinitions(f) && b in f.body && v in Dests(f.body[b])
    ensures v in Defined(f) && SiteOf(f, v).0 == b
  {
    var k := DestIsDefined(f, b, v);
    SiteIsUnique(f, v, b, k);
  }

  lemma PrefixIsPath(f: Func, path: seq<nat>, i: nat)
    requires IsPath(f, path) && i < |path|
    ensures IsPath(f, path[..i + 1]) && path[..i + 1][|path[..i + 1]| - 1] == path[i]
  {
    var p := path[..i + 1];
    forall j | 0 <= j < |p| - 1 ensures p[j + 1] in Successors(f.body[p[j]]) {
      assert p[j + 1] == path[j + 1] && p[j] == path[j];
    }
  }

  /** A register that enters its definition's block, or is written before it there, is written before
      any later point. */
  lemma WrittenEarlier(f: Func, path: seq<nat>, v: nat, u: nat)
    requires SingleDefinitions(f) && v in Defined(f) && IsPath(f, path) && DefinedBefore(f, path, v)
    requires u in At(Draft(f), f, SiteOf(f, v))
    ensures DefinedBefore(f, path, u)
  {
    var q := SiteOf(f, v);
    var i :| 0 <= i < |path| - 1 && path[i] in f.body && v in Dests(f.body[path[i]]);
    WriterIsSite(f, path[i], v);
    if u in Dests(f.body[q.0][..q.1]) {
      AtSubset(f.body[q.0], q.1, u);
    } else {
      PrefixIsPath(f, path, i);
      assert DefinedBefore(f, path[..i + 1], u);
      var j :| 0 <= j < |path[..i + 1]| - 1 && path[..i + 1][j] in f.body && u in Dests(f.body[path[..i + 1][j]]);
      assert path[j] == path[..i + 1][j];
    }
  }

  /** What dominates the definition of a register that dominates a point dominates the point. */
  lemma Transitive(f: Func, p: (nat, nat), v: nat, u: nat)
    requires SingleDefinitions(f) && InFunc(f, p) && v in At(Draft(f), f, p) && v in Defined(f)
    requires u in At(Draft(f), f, SiteOf(f, v))
    ensures u in At(Draft(f), f, p)
  {
    hide SitesOk, SingleDefinitions, DefinedBefore, IsSite, Dests;
    DraftSites(f);
    SiteDefines(f, v, SiteOf(f, v));
    AtHasSite(Draft(f), f, SiteOf(f, v), u);
    assert u in Defined(f);
    if v in Dests(f.body[p.0][..p.1]) {
      WrittenHere(f, p, v, u);
    } else {
      hide Defined, SiteOf;
      EntersToo(f, p.0, v, u);
    }
  }

  lemma WrittenHere(f: Func, p: (nat, nat), v: nat, u: nat)
    requires SingleDefinitions(f) && InFunc(f, p) && v in Dests(f.body[p.0][..p.1]) && v in Defined(f)
    requires u in At(Draft(f), f, SiteOf(f, v))
    ensures u in At(Draft(f), f, p)
  {
    hide SitesOk, SingleDefinitions, Entering, Defined, SiteOf;
    DraftSites(f);
    var i :| 0 <= i < p.1 && f.body[p.0][..p.1][i].dest == Some(v);
    SiteIsUnique(f, v, p.0, i);
    AtMonotone(Draft(f), f, p.0, i, p.1);
  }

  lemma EntersToo(f: Func, b: nat, v: nat, u: nat)
    requires SingleDefinitions(f) && v in Entering(f, b) && v in Defined(f) && u in Defined(f)
    requires u in At(Draft(f), f, SiteOf(f, v))
    ensures u in Entering(f, b)
  {
    hide SingleDefinitions, DefinedBefore, At, Draft, SiteOf, Defined, Reaches;
    forall path | IsPath(f, path) && path[|path| - 1] == b
      ensures DefinedBefore(f, path, u)
    {
      assert DefinedBefore(f, path, v);
      WrittenEarlier(f, path, v, u);
    }
  }

  lemma AtSubset(insts: seq<Inst>, k: nat, u: nat)
    requires k <= |insts| && u in Dests(insts[..k])
    ensures u in Dests(insts)
  {
    var i :| 0 <= i < k && insts[..k][i].dest == Some(u);
    assert insts[i].dest == Some(u);
  }

  /** Some path to the block of a definition has no earlier copy of that block. */
  lemma {:induction false} NotBeforeItself(f: Func, path: seq<nat>, v: nat)
    requires SingleDefinitions(f) && v in Defined(f) && IsPath(f, path) && path[|path| - 1] == SiteOf(f, v).0
    ensures exists p :: IsPath(f, p) && p[|p| - 1] == SiteOf(f, v).0 && !DefinedBefore(f, p, v)
    decreases |path|
  {
    if DefinedBefore(f, path, v) {
      var i :| 0 <= i < |path| - 1 && path[i] in f.body && v in Dests(f.body[path[i]]);
      WriterIsSite(f, path[i], v);
      PrefixIsPath(f, path, i);
      NotBeforeItself(f, path[..i + 1], v);
    }
  }

  lemma SiteIsNotEarlier(f: Func, v: nat, i: nat)
    requires SingleDefinitions(f) && v in Defined(f) && i < SiteOf(f, v).1
    ensures f.body[SiteOf(f, v).0][i].dest != Some(v)
  {
    var q := SiteOf(f, v);
    assert IsSite(f, v, q);
  }

  lemma Irreflexive(f: Func, v: nat)
    requires SingleDefinitions(f) && v in Defined(f)
    ensures v !in At(Draft(f), f, SiteOf(f, v))
  {
    var q := SiteOf(f, v);
    forall i | 0 <= i < q.1
      ensures f.body[q.0][..q.1][i].dest != Some(v)
    {
      SiteIsNotEarlier(f, v, i);
    }
    assert v !in Dests(f.body[q.0][..q.1]);
    if Reaches(f, q.0) {
      var path :| IsPath(f, path) && path[|path| - 1] == q.0;
      NotBeforeItself(f, path, v);
    }
  }

  lemma SizeGrows(f: Func, u: nat, v: nat)
    requires SingleDefinitions(f) && v in Defined(f) && u in At(Draft(f), f, SiteOf(f, v))
    ensures u in Defined(f) && AtSize(f, u) < AtSize(f, v)
  {
    DraftSites(f);
    hide SingleDefinitions, At, Entering, SiteOf, SitesOk, Defined, IsSite;
    AtHasSite(Draft(f), f, SiteOf(f, v), u);
    Irreflexive(f, u);
    forall x | x in At(Draft(f), f, SiteOf(f, u)) ensures x in At(Draft(f), f, SiteOf(f, v)) {
      Transitive(f, SiteOf(f, v), u, x);
    }
    ProperSubset(At(Draft(f), f, SiteOf(f, u)), At(Draft(f), f, SiteOf(f, v)), u);
  }

  lemma ProperSubset(a: set<nat>, b: set<nat>, u: nat)
    requires a <= b && u in b && u !in a
    ensures |a| < |b|
  {
    assert b == a + (b - a);
    assert u in b - a;
  }

  lemma EdgeEnters(f: Func, b: nat, s: nat, v: nat)
    requires WellFormed(f) && b in f.body && Reaches(f, b) && s in Successors(f.body[b]) && v in Entering(f, s)
    ensures v in Entering(f, b) || v in Dests(f.body[b])
  {
    if v !in Dests(f.body[b]) {
      hide WellFormed, Defined, Successors, Dests, Reaches;
      forall path | IsPath(f, path) && path[|path| - 1] == b
        ensures DefinedBefore(f, path, v)
      {
        OneBlockOn(f, path, s);
        assert DefinedBefore(f, path + [s], v);
        DefinedOneBlockOn(f, path, s, v);
      }
    }
  }

  lemma OneBlockOn(f: Func, path: seq<nat>, s: nat)
    requires WellFormed(f) && IsPath(f, path) && path[|path| - 1] in f.body && s in Successors(f.body[path[|path| - 1]])
    ensures IsPath(f, path + [s]) && (path + [s])[|path + [s]| - 1] == s
  {
    var longer := path + [s];
    forall i | 0 <= i < |longer| - 1 ensures longer[i + 1] in Successors(f.body[longer[i]]) {
      if i < |path| - 1 { assert longer[i + 1] == path[i + 1]; }
    }
  }

  lemma DefinedOneBlockOn(f: Func, path: seq<nat>, s: nat, v: nat)
    requires path != [] && DefinedBefore(f, path + [s], v) && path[|path| - 1] in f.body
    requires v !in Dests(f.body[path[|path| - 1]])
    ensures DefinedBefore(f, path, v)
  {
    hide Dests;
    var longer := path + [s];
    var i :| 0 <= i < |longer| - 1 && longer[i] in f.body && v in Dests(f.body[longer[i]]);
    assert longer[i] == path[i];
  }

  lemma UseEnters(f: Func, b: nat, k: nat, v: nat)
    requires DefinitionsDominateUses(f) && Reaches(f, b) && b in f.body && k < |f.body[b]|
    requires VReg(v) in f.body[b][k].ops
    ensures v in Entering(f, b) || v in Dests(f.body[b][..k])
  {
    if v !in Dests(f.body[b][..k]) {
      forall path | IsPath(f, path) && path[|path| - 1] == b
        ensures DefinedBefore(f, path, v)
      {
        assert UseIsDominated(f, path, k, v);
      }
      var path :| IsPath(f, path) && path[|path| - 1] == b;
      assert DefinedBefore(f, path, v);
      var i :| 0 <= i < |path| - 1 && path[i] in f.body && v in Dests(f.body[path[i]]);
      var j := DestIsDefined(f, path[i], v);
    }
  }

  /** What enters a block was defined in a block that can be reached. */
  lemma EnteringIsReached(f: Func, b: nat, u: nat)
    requires SingleDefinitions(f) && u in Entering(f, b)
    ensures u in Defined(f) && Reaches(f, SiteOf(f, u).0)
  {
    hide SingleDefinitions, SiteOf, Defined;
    var path :| IsPath(f, path) && path[|path| - 1] == b;
    assert DefinedBefore(f, path, u);
    var i :| 0 <= i < |path| - 1 && path[i] in f.body && u in Dests(f.body[path[i]]);
    WriterIsSite(f, path[i], u);
    PrefixIsPath(f, path, i);
  }

  /** A function is in strict SSA form if every register has a single definition and is written before it is read on
      every path from the entry, and code out of reach, if there is any, computes nothing in circles. */
  lemma PathsGiveSsa(f: Func, o: map<nat, nat>)
    requires WellFormed(f) && SingleDefinitions(f) && DefinitionsDominateUses(f) && DeadOrdered(f, o)
    ensures StrictSsa(Certificate(f, o), f)
  {
    hide SingleDefinitions, DefinitionsDominateUses, DeadOrdered, SitesOk, Dominance, At, Entering, Certificate,
      ReadsOk, LiveOk, WellFormed, Reaches, StrictSsa;
    CertificateDominates(f, o);
    NothingEntersEntry(f, o);
    forall b, k | b in f.body && 0 <= k < |f.body[b]|
      ensures ReadsOk(Certificate(f, o), f, b, k)
    {
      if Reaches(f, b) { LiveReads(f, o, b, k); } else { DeadReads(f, o, b, k); }
    }
    forall b | b in f.body
      ensures LiveOk(Certificate(f, o), f, b)
    {
      CertificateLive(f, o, b);
    }
    CertificateBlocks(f, o);
    SsaWhole(Certificate(f, o), f);
  }

  lemma CertificateBlocks(f: Func, o: map<nat, nat>)
    ensures Certificate(f, o).live == ReachableBlocks(f) <= f.body.Keys && Certificate(f, o).entry.Keys == f.body.Keys
    ensures forall b | b in f.body :: Certificate(f, o).entry[b] == Entering(f, b)
  {
    hide Entering, Defined, PathRank, Reaches;
  }

  lemma NothingEntersEntry(f: Func, o: map<nat, nat>)
    requires WellFormed(f)
    ensures f.order[0] in f.body && Certificate(f, o).entry[f.order[0]] == {} && f.order[0] in Certificate(f, o).live
  {
    hide BlockOk, Successors, Defined, PathRank;
    var path := [f.order[0]];
    assert f.order[0] in (set b | b in f.order);
    EntryReaches(f);
    assert IsPath(f, path);
    assert forall v :: !DefinedBefore(f, path, v);
  }

  lemma CertificateAt(f: Func, o: map<nat, nat>, p: (nat, nat))
    requires InFunc(f, p)
    ensures p.0 in Certificate(f, o).entry && p.0 in Draft(f).entry && At(Certificate(f, o), f, p) == At(Draft(f), f, p)
  {
    hide Entering, Defined, PathRank, Reaches;
  }

  lemma CertificateDominates(f: Func, o: map<nat, nat>)
    requires SingleDefinitions(f) && DeadOrdered(f, o)
    ensures SitesOk(Certificate(f, o), f) && Dominance(Certificate(f, o), f)
  {
    hide SingleDefinitions, DeadOrdered, At, Certificate, SitesOk, RankOk, ClosedAt;
    DraftSites(f);
    SameSites(f, o);
    var c := Certificate(f, o);
    forall v | v in c.site
      ensures RankOk(c, f, v)
    {
      CertificateRank(f, o, v);
    }
    forall p: (nat, nat) | InFunc(f, p)
      ensures ClosedAt(c, f, p)
    {
      CertificateCloses(f, o, p);
    }
  }

  lemma CertificateSites(f: Func, o: map<nat, nat>)
    ensures Certificate(f, o).site.Keys == Defined(f) && Certificate(f, o).rank.Keys == Defined(f)
    ensures forall v | v in Defined(f) ::
      Certificate(f, o).site[v] == SiteOf(f, v) && Certificate(f, o).rank[v] == PathRank(f, o, v)
    ensures forall v | v in Defined(f) :: InFunc(f, SiteOf(f, v))
  {
    hide PathRank;
  }

  lemma CertificateRank(f: Func, o: map<nat, nat>, v: nat)
    requires SingleDefinitions(f) && DeadOrdered(f, o) && SitesOk(Certificate(f, o), f) && v in Certificate(f, o).site
    ensures RankOk(Certificate(f, o), f, v)
  {
    hide SingleDefinitions, DeadOrdered, At, SitesOk, Certificate, Draft, Defined, SiteOf, PathRank;
    CertificateSites(f, o);
    CertificateAt(f, o, SiteOf(f, v));
    forall u | u in At(Certificate(f, o), f, SiteOf(f, v))
      ensures u in Defined(f) && PathRank(f, o, u) < PathRank(f, o, v)
    {
      RankGrows(f, o, u, v);
    }
  }

  lemma RankGrows(f: Func, o: map<nat, nat>, u: nat, v: nat)
    requires SingleDefinitions(f) && DeadOrdered(f, o) && v in Defined(f) && u in At(Draft(f), f, SiteOf(f, v))
    ensures u in Defined(f) && PathRank(f, o, u) < PathRank(f, o, v)
  {
    hide SingleDefinitions, SiteOf, AtSize, Defined;
    var q := SiteOf(f, v);
    SiteDefines(f, v, q);
    SizeGrows(f, u, v);
    if u in Entering(f, q.0) {
      EnteringIsReached(f, q.0, u);
    } else {
      AtSubset(f.body[q.0], q.1, u);
      WriterIsSite(f, q.0, u);
      if !Reaches(f, q.0) { assert Ordered(f, o, q.0, q.1); }
    }
  }

  lemma CertificateCloses(f: Func, o: map<nat, nat>, p: (nat, nat))
    requires SingleDefinitions(f) && SitesOk(Certificate(f, o), f) && InFunc(f, p)
    ensures ClosedAt(Certificate(f, o), f, p)
  {
    hide SingleDefinitions, At, SitesOk, Certificate, Draft, Defined, SiteOf;
    CertificateSites(f, o);
    CertificateBlocks(f, o);
    CertificateAt(f, o, p);
    var c := Certificate(f, o);
    forall v | v in At(c, f, p) && v in c.site
      ensures At(c, f, c.site[v]) <= At(c, f, p)
    {
      CertificateAt(f, o, SiteOf(f, v));
      forall u | u in At(c, f, c.site[v]) ensures u in At(c, f, p) { Transitive(f, p, v, u); }
    }
  }

  lemma SameSites(f: Func, o: map<nat, nat>)
    requires SitesOk(Draft(f), f)
    ensures SitesOk(Certificate(f, o), f)
  {
    hide Entering, Defined, PathRank;
  }

  lemma ReadIsBounded(f: Func, o: map<nat, nat>, b: nat, k: nat, v: nat)
    requires b in f.body && k < |f.body[b]| && VReg(v) in f.body[b][k].ops
    ensures Certificate(f, o).low == 0 && v <= Certificate(f, o).top
  {
    hide Defined, Entering, PathRank, SiteOf, Reaches;
    var ops := f.body[b][k].ops;
    var j :| 0 <= j < |ops| && ops[j] == VReg(v);
    assert f.body[b][k].ops[j].r in ReadRegs(f);
  }

  /** In a block that can be reached a use has its definition at hand. */
  lemma LiveReads(f: Func, o: map<nat, nat>, b: nat, k: nat)
    requires SingleDefinitions(f) && DefinitionsDominateUses(f) && b in f.body && Reaches(f, b) && k < |f.body[b]|
    requires SitesOk(Certificate(f, o), f) && Dominance(Certificate(f, o), f)
    ensures ReadsOk(Certificate(f, o), f, b, k)
  {
    hide SingleDefinitions, DefinitionsDominateUses, Dominance, Entering, Defined, Reaches, Certificate, SitesOk;
    var c, inst := Certificate(f, o), f.body[b][k];
    CertificateBlocks(f, o);
    forall v: nat | VReg(v) in inst.ops
      ensures v in At(c, f, (b, k)) && c.low <= v <= c.top
      ensures inst.dest.Some? ==> RankOf(c, v) < RankOf(c, inst.dest.value)
    {
      ReadIsBounded(f, o, b, k, v);
      UseEnters(f, b, k, v);
      assert v in At(c, f, (b, k));
      if inst.dest.Some? { UseRanksBelow(c, f, b, k, v); }
    }
  }

  /** Elsewhere it ranks higher than what it computes with. */
  lemma DeadReads(f: Func, o: map<nat, nat>, b: nat, k: nat)
    requires SingleDefinitions(f) && DeadOrdered(f, o) && b in f.body && !Reaches(f, b) && k < |f.body[b]|
    requires SitesOk(Certificate(f, o), f)
    ensures ReadsOk(Certificate(f, o), f, b, k)
  {
    hide SingleDefinitions, DeadOrdered, Entering, Defined, Reaches, Certificate, SitesOk, At;
    var c, inst := Certificate(f, o), f.body[b][k];
    CertificateBlocks(f, o);
    forall v: nat | VReg(v) in inst.ops
      ensures c.low <= v <= c.top
      ensures inst.op.IsPureCompute() && inst.dest.Some? ==> RankOf(c, v) < RankOf(c, inst.dest.value)
    {
      ReadIsBounded(f, o, b, k, v);
      if inst.op.IsPureCompute() && inst.dest.Some? { DeadRanksBelow(f, o, b, k, v); }
    }
  }

  lemma DeadRanksBelow(f: Func, o: map<nat, nat>, b: nat, k: nat, v: nat)
    requires SingleDefinitions(f) && DeadOrdered(f, o) && b in f.body && !Reaches(f, b) && k < |f.body[b]|
    requires f.body[b][k].op.IsPureCompute() && f.body[b][k].dest.Some? && VReg(v) in f.body[b][k].ops
    ensures RankOf(Certificate(f, o), v) < RankOf(Certificate(f, o), f.body[b][k].dest.value)
  {
    hide SingleDefinitions, SiteOf, AtSize, Defined, Certificate, Reaches;
    var d := f.body[b][k].dest.value;
    SiteIsUnique(f, d, b, k);
    CertificateSites(f, o);
    assert Ordered(f, o, b, k);
    if v in Defined(f) {
      SizeIsBounded(f, v);
      assert DeadBelow(f, o, v, d);
    }
  }

  lemma SizeIsBounded(f: Func, v: nat)
    requires SingleDefinitions(f) && v in Defined(f)
    ensures AtSize(f, v) <= |Defined(f)|
  {
    hide SingleDefinitions, SiteOf, Defined, SitesOk, At;
    DraftSites(f);
    SiteDefines(f, v, SiteOf(f, v));
    var s := At(Draft(f), f, SiteOf(f, v));
    forall u | u in s ensures u in Defined(f) { AtHasSite(Draft(f), f, SiteOf(f, v), u); }
    SubsetIsSmaller(s, Defined(f));
  }

  lemma SubsetIsSmaller(a: set<nat>, b: set<nat>)
    requires a <= b
    ensures |a| <= |b|
  {
    assert b == a + (b - a);
  }

  lemma UseRanksBelow(c: Cert, f: Func, b: nat, k: nat, v: nat)
    requires SitesOk(c, f) && Dominance(c, f) && b in f.body && k < |f.body[b]| && f.body[b][k].dest.Some?
    requires v in At(c, f, (b, k))
    ensures RankOf(c, v) < RankOf(c, f.body[b][k].dest.value)
  {
    var d := f.body[b][k].dest.value;
    assert c.site[d] == (b, k);
    assert RankOk(c, f, d);
  }

  lemma CertificateLive(f: Func, o: map<nat, nat>, b: nat)
    requires WellFormed(f) && SingleDefinitions(f) && SitesOk(Certificate(f, o), f) && b in f.body
    ensures LiveOk(Certificate(f, o), f, b)
  {
    hide Entering, Defined, WellFormed, Certificate, SitesOk, SingleDefinitions, Reaches, SiteOf;
    var c := Certificate(f, o);
    CertificateBlocks(f, o);
    CertificateSites(f, o);
    assert f.body[b][..|f.body[b]|] == f.body[b];
    if Reaches(f, b) {
      forall s | s in Successors(f.body[b])
        ensures s in c.live && s in c.entry && c.entry[s] <= At(c, f, (b, |f.body[b]|))
      {
        SuccessorReaches(f, b, s);
        forall v | v in c.entry[s] ensures v in At(c, f, (b, |f.body[b]|)) { EdgeEnters(f, b, s, v); }
      }
      forall v | v in c.entry[b]
        ensures v in c.site && c.site[v].0 in c.live
      {
        EnteringIsReached(f, b, v);
        SiteDefines(f, v, SiteOf(f, v));
      }
    }
  }

  // ---------------------------------------------------------------------------------------------
  // The converse

  /** Nothing less will do: a function in strict SSA form has all these properties. */
  lemma SsaGivesPaths(c: Cert, f: Func)
    requires StrictSsa(c, f)
    ensures SingleDefinitions(f) && DefinitionsDominateUses(f) && DeadOrdered(f, c.rank)
  {
    hide StrictSsa, SitesOk, Dominance, WellFormed, ReadsOk, LiveOk, Reaches, UseIsDominated, Ordered;
    SsaParts(c, f);
    SitesAreSingle(c, f);
    forall path, k, v
      ensures UseIsDominated(f, path, k, v)
    {
      UseIsWritten(c, f, path, k, v);
    }
    forall b, k | b in f.body && 0 <= k < |f.body[b]| && f.body[b][k].dest.Some?
      ensures Ordered(f, c.rank, b, k)
    {
      RanksOrder(c, f, b, k);
    }
  }

  lemma SitesAreSingle(c: Cert, f: Func)
    requires SitesOk(c, f)
    ensures SingleDefinitions(f)
  {
    forall b, k, b', k' | b in f.body && b' in f.body && 0 <= k < |f.body[b]| && 0 <= k' < |f.body[b']|
      && f.body[b][k].dest.Some? && f.body[b][k].dest == f.body[b'][k'].dest
      ensures b == b' && k == k'
    {
      assert c.site[f.body[b][k].dest.value] == (b, k);
    }
  }

  /** A path stays in live blocks, and has written what enters its last one. */
  lemma {:induction false} PathIsLive(c: Cert, f: Func, path: seq<nat>)
    requires StrictSsa(c, f) && IsPath(f, path)
    ensures path[|path| - 1] in c.live && path[|path| - 1] in c.entry
    ensures forall v | v in c.entry[path[|path| - 1]] :: DefinedBefore(f, path, v)
    decreases |path|
  {
    hide StrictSsa, SitesOk, Dominance, WellFormed, ReadsOk, LiveOk, DefinedBefore, Successors;
    SsaParts(c, f);
    var n := |path|;
    if n > 1 {
      var b, t := path[n - 2], path[n - 1];
      PrefixIsPath(f, path, n - 2);
      PathIsLive(c, f, path[..n - 1]);
      assert path[n - 2 + 1] in Successors(f.body[path[n - 2]]);
      LiveEdge(c, f, b, t);
      forall v | v in c.entry[t]
        ensures DefinedBefore(f, path, v)
      {
        LongerDefines(f, path, v);
      }
    }
  }

  lemma LiveEdge(c: Cert, f: Func, b: nat, t: nat)
    requires SitesOk(c, f) && b in f.body && LiveOk(c, f, b) && b in c.live && t in Successors(f.body[b])
    ensures t in c.live && t in c.entry && b in c.entry && c.entry[t] <= c.entry[b] + Dests(f.body[b])
  {
    hide Successors, Dests;
    assert f.body[b][..|f.body[b]|] == f.body[b];
  }

  lemma LongerDefines(f: Func, path: seq<nat>, v: nat)
    requires |path| > 1 && path[|path| - 2] in f.body
    ensures v in Dests(f.body[path[|path| - 2]]) || DefinedBefore(f, path[..|path| - 1], v) ==>
      DefinedBefore(f, path, v)
  {
    hide Dests;
    if DefinedBefore(f, path[..|path| - 1], v) {
      var p := path[..|path| - 1];
      var i :| 0 <= i < |p| - 1 && p[i] in f.body && v in Dests(f.body[p[i]]);
      assert path[i] == p[i];
    }
  }

  lemma UseIsWritten(c: Cert, f: Func, path: seq<nat>, k: nat, v: nat)
    requires StrictSsa(c, f)
    ensures UseIsDominated(f, path, k, v)
  {
    hide StrictSsa, SitesOk, Dominance, WellFormed, LiveOk, DefinedBefore, Dests;
    SsaParts(c, f);
    if IsPath(f, path) && k < |f.body[path[|path| - 1]]| && VReg(v) in f.body[path[|path| - 1]][k].ops {
      PathIsLive(c, f, path);
      assert ReadsOk(c, f, path[|path| - 1], k);
    }
  }

  lemma RanksOrder(c: Cert, f: Func, b: nat, k: nat)
    requires SitesOk(c, f) && Dominance(c, f) && b in f.body && k < |f.body[b]| && ReadsOk(c, f, b, k)
    requires f.body[b][k].dest.Some?
    ensures Ordered(f, c.rank, b, k)
  {
    hide SingleDefinitions, Reaches, ClosedAt, SiteOf;
    var d := f.body[b][k].dest.value;
    assert c.site[d] == (b, k) && RankOk(c, f, d);
    forall u: nat | u in Defined(f)
      ensures u in c.rank
    {
      var b', k' :| b' in f.body && 0 <= k' < |f.body[b']| && f.body[b'][k'].dest == Some(u);
      assert c.site[u] == (b', k');
    }
  }
}
