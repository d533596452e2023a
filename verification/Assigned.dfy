/** Code that never reads a register from `n` on before writing it, wherever control goes. */
module Assigned {
  import opened Sir
  import opened Ssa

  /** For the blocks control stays in, the registers that have been written when they are entered. */
  datatype Guarantee = Guarantee(entry: map<nat, set<nat>>, live: set<nat>)

  ghost predicate ReadsAssigned(e: set<nat>, insts: seq<Inst>, n: nat) {
    forall k, r: nat | 0 <= k < |insts| && VReg(r) in insts[k].ops :: r < n || r in e + Dests(insts[..k])
  }

  ghost predicate BlockAssigns(a: Guarantee, f: Func, b: nat, n: nat)
    requires b in f.body
  {
    b in a.live ==>
      && b in a.entry && ReadsAssigned(a.entry[b], f.body[b], n)
      && forall s | s in Successors(f.body[b]) ::
        s in a.live && s in a.entry && a.entry[s] <= a.entry[b] + Dests(f.body[b])
  }

  ghost predicate StartsEmpty(a: Guarantee, f: Func) {
    f.order != [] && f.order[0] in a.live && f.order[0] in a.entry && a.entry[f.order[0]] == {}
  }

  ghost predicate Assigns(a: Guarantee, f: Func, n: nat) {
    StartsEmpty(a, f) && forall b | b in f.body :: BlockAssigns(a, f, b, n)
  }

  ghost predicate IsAssigned(f: Func, n: nat) { exists a :: Assigns(a, f, n) }

  /** What `f` writes before reading it, `g` does. */
  ghost predicate KeepsAssigned(f: Func, g: Func) { forall n: nat | IsAssigned(f, n) :: IsAssigned(g, n) }

  /** Code that reads only registers below `n`. */
  lemma LowIsAssigned(f: Func, n: nat)
    requires f.order != []
    requires forall b, k, r: nat | b in f.body && 0 <= k < |f.body[b]| && VReg(r) in f.body[b][k].ops :: r < n
    ensures IsAssigned(f, n)
  {
    hide Successors;
    var blocks := f.body.Keys + {f.order[0]} + set b, s | b in f.body && s in Successors(f.body[b]) :: s;
    var a := Guarantee(map b | b in blocks :: {}, blocks);
    assert Assigns(a, f, n);
  }

  /** Code in strict SSA form reads nothing before writing it. */
  lemma SsaIsAssigned(c: Cert, f: Func, n: nat)
    requires StrictSsa(c, f)
    ensures IsAssigned(f, n)
  {
    hide StrictSsa, SitesOk, Dominance, WellFormed, BlockAssigns, ReadsOk, LiveOk;
    SsaParts(c, f);
    var a := Guarantee(c.entry, c.live);
    forall b | b in f.body
      ensures BlockAssigns(a, f, b, n)
    {
      SsaBlockAssigns(c, f, b, n);
    }
    assert Assigns(a, f, n);
  }

  lemma SsaBlockAssigns(c: Cert, f: Func, b: nat, n: nat)
    requires SitesOk(c, f) && b in f.body && LiveOk(c, f, b)
    requires forall k | 0 <= k < |f.body[b]| :: ReadsOk(c, f, b, k)
    ensures BlockAssigns(Guarantee(c.entry, c.live), f, b, n)
  {
    hide SitesOk, Successors, Dests;
    EntriesAreBlocks(c, f);
    assert f.body[b][..|f.body[b]|] == f.body[b];
    if b in c.live {
      forall k, r: nat | 0 <= k < |f.body[b]| && VReg(r) in f.body[b][k].ops
        ensures r in c.entry[b] + Dests(f.body[b][..k])
      {
        assert ReadsOk(c, f, b, k);
      }
    }
  }

  lemma EntriesAreBlocks(c: Cert, f: Func)
    requires SitesOk(c, f)
    ensures c.entry.Keys == f.body.Keys
  {}

  /** Reading goes instruction by instruction. */
  lemma ReadsCons(e: set<nat>, insts: seq<Inst>, n: nat)
    requires insts != []
    ensures ReadsAssigned(e, insts, n) <==>
      (forall r: nat | VReg(r) in insts[0].ops :: r < n || r in e) &&
        ReadsAssigned(e + Dests(insts[..1]), insts[1..], n)
  {
    forall k | 0 <= k < |insts[1..]|
      ensures Dests(insts[..k + 1]) == Dests(insts[..1]) + Dests(insts[1..][..k])
    {
      DestsOfBoth(insts[..1], insts[1..][..k]);
      assert insts[..k + 1] == insts[..1] + insts[1..][..k];
    }
    assert Dests(insts[..0]) == {};
    if ReadsAssigned(e, insts, n) {
      forall k, r: nat | 0 <= k < |insts[1..]| && VReg(r) in insts[1..][k].ops
        ensures r < n || r in e + Dests(insts[..1]) + Dests(insts[1..][..k])
      {
        assert VReg(r) in insts[k + 1].ops;
      }
      assert forall r: nat | VReg(r) in insts[0].ops :: r < n || r in e + Dests(insts[..0]);
    }
    if (forall r: nat | VReg(r) in insts[0].ops :: r < n || r in e) &&
      ReadsAssigned(e + Dests(insts[..1]), insts[1..], n) {
      forall k, r: nat | 0 <= k < |insts| && VReg(r) in insts[k].ops
        ensures r < n || r in e + Dests(insts[..k])
      {
        if k > 0 { assert insts[1..][k - 1] == insts[k]; }
      }
    }
  }

  lemma DestsOfBoth(x: seq<Inst>, y: seq<Inst>)
    ensures Dests(x + y) == Dests(x) + Dests(y)
  {
    forall v | v in Dests(x)
      ensures v in Dests(x + y)
    {
      var i :| 0 <= i < |x| && x[i].dest == Some(v);
      assert (x + y)[i] == x[i];
    }
    forall v | v in Dests(y)
      ensures v in Dests(x + y)
    {
      var i :| 0 <= i < |y| && y[i].dest == Some(v);
      assert (x + y)[|x| + i] == y[i];
    }
    forall v | v in Dests(x + y)
      ensures v in Dests(x) + Dests(y)
    {
      var i :| 0 <= i < |x + y| && (x + y)[i].dest == Some(v);
      assert (x + y)[i] == if i < |x| then x[i] else y[i - |x|];
    }
  }

  lemma FirstDest(insts: seq<Inst>)
    requires insts != []
    ensures Dests(insts[..1]) == if insts[0].dest.Some? then {insts[0].dest.value} else {}
  {}

  // ---------------------------------------------------------------------------------------------
  // Transformations

  lemma KeepsReflexive(f: Func)
    ensures KeepsAssigned(f, f)
  {}

  lemma KeepsTransitive(f: Func, g: Func, h: Func)
    requires KeepsAssigned(f, g) && KeepsAssigned(g, h)
    ensures KeepsAssigned(f, h)
  {
    hide IsAssigned;
  }

  /** Block for block, `insts'` writes as much, reads no more and leads nowhere else. */
  ghost predicate BlockNoWorse(insts: seq<Inst>, insts': seq<Inst>) {
    && Successors(insts') <= Successors(insts) && Dests(insts) <= Dests(insts')
    && forall e: set<nat>, n: nat | ReadsAssigned(e, insts, n) :: ReadsAssigned(e, insts', n)
  }

  /** Fewer blocks, none of them worse. */
  lemma NoWorseKeeps(f: Func, g: Func)
    requires g.order != [] && f.order != [] && g.order[0] == f.order[0] && g.body.Keys <= f.body.Keys
    requires forall b | b in g.body :: BlockNoWorse(f.body[b], g.body[b])
    ensures KeepsAssigned(f, g)
  {
    hide BlockNoWorse, Successors, Dests, ReadsAssigned;
    forall n: nat | IsAssigned(f, n)
      ensures IsAssigned(g, n)
    {
      var a :| Assigns(a, f, n);
      forall b | b in g.body
        ensures BlockAssigns(a, g, b, n)
      {
        NoWorseBlock(a, f, g, b, n);
      }
      assert Assigns(a, g, n);
    }
  }

  lemma NoWorseBlock(a: Guarantee, f: Func, g: Func, b: nat, n: nat)
    requires b in f.body && b in g.body && BlockAssigns(a, f, b, n) && BlockNoWorse(f.body[b], g.body[b])
    ensures BlockAssigns(a, g, b, n)
  {
    hide Successors, Dests, ReadsAssigned;
  }

  lemma SameIsNoWorse(insts: seq<Inst>)
    ensures BlockNoWorse(insts, insts)
  {}

  /** Instructions changed in place, with the same results and no more reads. */
  lemma InPlaceIsNoWorse(insts: seq<Inst>, insts': seq<Inst>)
    requires |insts'| == |insts| && Successors(insts') <= Successors(insts)
    requires forall k | 0 <= k < |insts| :: insts[k].dest.Some? ==> insts'[k].dest == insts[k].dest
    requires forall k, r: nat | 0 <= k < |insts| && VReg(r) in insts'[k].ops :: VReg(r) in insts[k].ops
    ensures BlockNoWorse(insts, insts')
  {
    hide Successors, ReadsAssigned;
    InPlaceReads(insts, insts');
  }

  lemma InPlaceReads(insts: seq<Inst>, insts': seq<Inst>)
    requires |insts'| == |insts|
    requires forall k | 0 <= k < |insts| :: insts[k].dest.Some? ==> insts'[k].dest == insts[k].dest
    requires forall k, r: nat | 0 <= k < |insts| && VReg(r) in insts'[k].ops :: VReg(r) in insts[k].ops
    ensures Dests(insts) <= Dests(insts')
    ensures forall e: set<nat>, n: nat | ReadsAssigned(e, insts, n) :: ReadsAssigned(e, insts', n)
  {
    forall k | 0 <= k <= |insts|
      ensures Dests(insts[..k]) <= Dests(insts'[..k])
    {
      MoreDests(insts, insts', k);
    }
    assert insts[..|insts|] == insts && insts'[..|insts|] == insts';
  }

  lemma MoreDests(insts: seq<Inst>, insts': seq<Inst>, k: nat)
    requires |insts'| == |insts| && k <= |insts|
    requires forall i | 0 <= i < |insts| :: insts[i].dest.Some? ==> insts'[i].dest == insts[i].dest
    ensures Dests(insts[..k]) <= Dests(insts'[..k])
  {
    forall v | v in Dests(insts[..k])
      ensures v in Dests(insts'[..k])
    {
      var i :| 0 <= i < k && insts[..k][i].dest == Some(v);
      assert insts'[..k][i].dest == Some(v);
    }
  }
}
