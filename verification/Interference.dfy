/** The interference graph of the register allocator. */
module Interference {
  import opened Sir
  import opened Liveness

  /** `v` holds a value that is still needed just before instruction `i` of block `b`. */
  ghost predicate LiveBefore(f: Func, b: nat, i: nat, v: nat)
    requires b in f.body && i <= |f.body[b]|
    decreases |f.body[b]| - i
  {
    if i == |f.body[b]| then IsLiveOut(f, b, v)
    else
      var inst := f.body[b][i];
      VReg(v) in inst.ops || (inst.dest != Some(v) && LiveBefore(f, b, i + 1, v))
  }

  /** Instruction `k` of block `b` writes `u` while `v` is still needed. */
  ghost predicate Clashes(f: Func, b: nat, k: nat, u: nat, v: nat) {
    && b in f.body && k < |f.body[b]|
    && f.body[b][k].dest == Some(u) && u != v
    && LiveBefore(f, b, k + 1, v)
  }

  ghost predicate Interferes(f: Func, u: nat, v: nat) {
    exists b, k :: Clashes(f, b, k, u, v) || Clashes(f, b, k, v, u)
  }

  /** `v` must survive the call that is instruction `k` of block `b`. */
  ghost predicate SurvivesCallAt(f: Func, b: nat, k: nat, v: nat) {
    && b in f.body && k < |f.body[b]|
    && f.body[b][k].op.IsCallLike() && f.body[b][k].dest != Some(v)
    && LiveBefore(f, b, k + 1, v)
  }

  ghost predicate CrossesCall(f: Func, v: nat) {
    exists b, k :: SurvivesCallAt(f, b, k, v)
  }

  /** Registers are numbered from 1, and `maxVreg` is an upper bound. */
  ghost predicate Numbered(f: Func, maxVreg: nat) {
    forall b, k | b in f.body && 0 <= k < |f.body[b]| ::
      && (forall r: nat | VReg(r) in f.body[b][k].ops :: 1 <= r <= maxVreg)
      && (f.body[b][k].dest.Some? ==> 1 <= f.body[b][k].dest.value <= maxVreg)
  }

  // ---------------------------------------------------------------------------------------------
  // The adjacency matrix as a set of pairs

  ghost predicate Symmetric(edges: set<(nat, nat)>) {
    forall u: nat, v: nat :: (u, v) in edges ==> (v, u) in edges
  }

  /** No edge touches the unused register 0. */
  ghost predicate Inner(edges: set<(nat, nat)>) {
    forall u: nat, v: nat :: (u, v) in edges ==> 1 <= u && 1 <= v
  }

  ghost function Row(edges: set<(nat, nat)>, maxVreg: nat, u: nat): set<nat> {
    set v: nat | v <= maxVreg && (u, v) in edges
  }

  ghost predicate DegreesMatch(edges: set<(nat, nat)>, degree: array<int>, maxVreg: nat)
    requires degree.Length == maxVreg + 1
    reads degree
  {
    forall u | 0 <= u <= maxVreg :: degree[u] == |Row(edges, maxVreg, u)|
  }

  /** Connects `d` to every live register other than itself. */
  method AddEdges(d: nat, maxVreg: nat, live: array<bool>, adj: array2<bool>, degree: array<int>)
    requires 1 <= d <= maxVreg && live.Length == maxVreg + 1 && degree.Length == maxVreg + 1
    requires adj.Length0 == maxVreg + 1 && adj.Length1 == maxVreg + 1
    requires Inner(On(adj)) && Symmetric(On(adj)) && DegreesMatch(On(adj), degree, maxVreg)
    modifies adj, degree
    ensures Inner(On(adj)) && Symmetric(On(adj)) && DegreesMatch(On(adj), degree, maxVreg)
    ensures forall x: nat, y: nat :: (x, y) in On(adj) <==>
      (x, y) in old(On(adj)) || (x == d && 1 <= y <= maxVreg && live[y] && y != d) ||
        (y == d && 1 <= x <= maxVreg && live[x] && x != d)
  {
    hide Inner, DegreesMatch;
    for v := 1 to maxVreg + 1
      invariant Inner(On(adj)) && Symmetric(On(adj)) && DegreesMatch(On(adj), degree, maxVreg)
      invariant forall x: nat, y: nat :: (x, y) in On(adj) <==>
        (x, y) in old(On(adj)) || (x == d && 1 <= y < v && live[y] && y != d) ||
          (y == d && 1 <= x < v && live[x] && x != d)
    {
      if live[v] && v != d && !adj[d, v] {
        Connect(d, v, maxVreg, adj, degree);
      }
    }
  }

  method Connect(d: nat, v: nat, maxVreg: nat, adj: array2<bool>, degree: array<int>)
    requires 1 <= d <= maxVreg && 1 <= v <= maxVreg && d != v && degree.Length == maxVreg + 1
    requires adj.Length0 == maxVreg + 1 && adj.Length1 == maxVreg + 1
    requires Inner(On(adj)) && Symmetric(On(adj)) && DegreesMatch(On(adj), degree, maxVreg)
    requires !adj[d, v]
    modifies adj, degree
    ensures On(adj) == old(On(adj)) + {(d, v), (v, d)}
    ensures Inner(On(adj)) && Symmetric(On(adj)) && DegreesMatch(On(adj), degree, maxVreg)
  {
    hide Row;
    assert (d, v) !in On(adj) && (v, d) !in On(adj);
    RowsAfterEdge(On(adj), maxVreg, d, v);
    adj[d, v] := true;
    adj[v, d] := true;
    degree[d] := degree[d] + 1;
    degree[v] := degree[v] + 1;
    assert On(adj) == old(On(adj)) + {(d, v), (v, d)};
  }

  lemma RowsAfterEdge(edges: set<(nat, nat)>, maxVreg: nat, d: nat, v: nat)
    requires d <= maxVreg && v <= maxVreg && d != v && (d, v) !in edges && (v, d) !in edges
    ensures forall u | 0 <= u <= maxVreg ::
      |Row(edges + {(d, v), (v, d)}, maxVreg, u)| == |Row(edges, maxVreg, u)| + if u == d || u == v then 1 else 0
  {
    var edges' := edges + {(d, v), (v, d)};
    forall u | 0 <= u <= maxVreg
      ensures |Row(edges', maxVreg, u)| == |Row(edges, maxVreg, u)| + if u == d || u == v then 1 else 0
    {
      if u == d {
        assert Row(edges', maxVreg, u) == Row(edges, maxVreg, u) + {v};
      } else if u == v {
        assert Row(edges', maxVreg, u) == Row(edges, maxVreg, u) + {d};
      } else {
        assert Row(edges', maxVreg, u) == Row(edges, maxVreg, u);
      }
    }
  }

  // ---------------------------------------------------------------------------------------------
  // One backward walk over a block

  /** The pair is joined by an instruction of block `b` at or after `i`. */
  ghost predicate ClashesFrom(f: Func, b: nat, i: nat, u: nat, v: nat) {
    exists k :: k >= i && (Clashes(f, b, k, u, v) || Clashes(f, b, k, v, u))
  }

  ghost predicate SurvivesFrom(f: Func, b: nat, i: nat, v: nat) {
    exists k :: k >= i && SurvivesCallAt(f, b, k, v)
  }

  lemma ClashesFromStep(f: Func, b: nat, i: nat, u: nat, v: nat)
    requires b in f.body && i < |f.body[b]|
    ensures ClashesFrom(f, b, i, u, v) <==>
      Clashes(f, b, i, u, v) || Clashes(f, b, i, v, u) || ClashesFrom(f, b, i + 1, u, v)
    ensures SurvivesFrom(f, b, i, v) <==> SurvivesCallAt(f, b, i, v) || SurvivesFrom(f, b, i + 1, v)
  {
    if ClashesFrom(f, b, i, u, v) {
      var k :| k >= i && (Clashes(f, b, k, u, v) || Clashes(f, b, k, v, u));
      if k > i { assert ClashesFrom(f, b, i + 1, u, v); }
    }
    if ClashesFrom(f, b, i + 1, u, v) {
      var k :| k >= i + 1 && (Clashes(f, b, k, u, v) || Clashes(f, b, k, v, u));
    }
    if SurvivesFrom(f, b, i, v) {
      var k :| k >= i && SurvivesCallAt(f, b, k, v);
      if k > i { assert SurvivesFrom(f, b, i + 1, v); }
    }
    if SurvivesFrom(f, b, i + 1, v) {
      var k :| k >= i + 1 && SurvivesCallAt(f, b, k, v);
    }
  }

  method MarkCrossing(maxVreg: nat, live: array<bool>, crosses: array<bool>)
    requires live.Length == maxVreg + 1 && crosses.Length == maxVreg + 1 && live != crosses
    modifies crosses
    ensures forall v | 1 <= v <= maxVreg :: crosses[v] <==> old(crosses[v]) || live[v]
  {
    for v := 1 to maxVreg + 1
      invariant forall u | 1 <= u < v :: crosses[u] <==> old(crosses[u]) || live[u]
      invariant forall u | v <= u <= maxVreg :: crosses[u] == old(crosses[u])
    {
      if live[v] { crosses[v] := true; }
    }
  }

  method MarkUses(ops: seq<Value>, maxVreg: nat, live: array<bool>)
    requires live.Length == maxVreg + 1
    modifies live
    ensures forall v | 0 <= v <= maxVreg :: live[v] <==> old(live[v]) || VReg(v) in ops
  {
    for i := 0 to |ops|
      invariant forall v | 0 <= v <= maxVreg :: live[v] <==> old(live[v]) || VReg(v) in ops[..i]
    {
      assert ops[..i + 1] == ops[..i] + [ops[i]];
      if ops[i].VReg? && ops[i].r <= maxVreg { live[ops[i].r] := true; }
    }
    assert ops[..|ops|] == ops;
  }

  /** One instruction of the backward walk: `live` goes from the registers live after it to those
      live before it. */
  method StepBack(f: Func, b: nat, i: nat, maxVreg: nat, live: array<bool>, adj: array2<bool>, degree: array<int>,
        crosses: array<bool>)
    requires Numbered(f, maxVreg) && b in f.body && i < |f.body[b]|
    requires live.Length == maxVreg + 1 && degree.Length == maxVreg + 1 && crosses.Length == maxVreg + 1
    requires live != crosses
    requires adj.Length0 == maxVreg + 1 && adj.Length1 == maxVreg + 1
    requires Inner(On(adj)) && Symmetric(On(adj)) && DegreesMatch(On(adj), degree, maxVreg)
    requires forall v | 1 <= v <= maxVreg :: live[v] <==> LiveBefore(f, b, i + 1, v)
    modifies live, adj, degree, crosses
    ensures Inner(On(adj)) && Symmetric(On(adj)) && DegreesMatch(On(adj), degree, maxVreg)
    ensures forall v | 1 <= v <= maxVreg :: live[v] <==> LiveBefore(f, b, i, v)
    ensures forall u: nat, v: nat | 1 <= u <= maxVreg && 1 <= v <= maxVreg ::
      (u, v) in On(adj) <==> (u, v) in old(On(adj)) || Clashes(f, b, i, u, v) || Clashes(f, b, i, v, u)
    ensures forall v | 1 <= v <= maxVreg :: crosses[v] <==> old(crosses[v]) || SurvivesCallAt(f, b, i, v)
  {
    var inst := f.body[b][i];
    if inst.dest.Some? {
      var d := inst.dest.value;
      if d <= maxVreg {
        AddEdges(d, maxVreg, live, adj, degree);
        live[d] := false;
      }
    }
    if inst.op.IsCallLike() {
      MarkCrossing(maxVreg, live, crosses);
    }
    MarkUses(inst.ops, maxVreg, live);
  }

  /** Pairs joined by some instruction of the given blocks. */
  ghost predicate JoinedIn(f: Func, blocks: set<nat>, u: nat, v: nat) {
    exists b :: b in blocks && ClashesFrom(f, b, 0, u, v)
  }

  ghost predicate SurvivesIn(f: Func, blocks: set<nat>, v: nat) {
    exists b :: b in blocks && SurvivesFrom(f, b, 0, v)
  }

  method WalkBlock(f: Func, b: nat, maxVreg: nat, liveOut: array2<bool>, adj: array2<bool>, degree: array<int>,
        crosses: array<bool>)
    requires Numbered(f, maxVreg) && b in f.body
    requires degree.Length == maxVreg + 1 && crosses.Length == maxVreg + 1 && adj != liveOut
    requires adj.Length0 == maxVreg + 1 && adj.Length1 == maxVreg + 1
    requires b < liveOut.Length0 && liveOut.Length1 == maxVreg + 1
    requires forall v | 1 <= v <= maxVreg :: liveOut[b, v] <==> IsLiveOut(f, b, v)
    requires Inner(On(adj)) && Symmetric(On(adj)) && DegreesMatch(On(adj), degree, maxVreg)
    modifies adj, degree, crosses
    ensures Inner(On(adj)) && Symmetric(On(adj)) && DegreesMatch(On(adj), degree, maxVreg)
    ensures forall u: nat, v: nat | 1 <= u <= maxVreg && 1 <= v <= maxVreg ::
      (u, v) in On(adj) <==> (u, v) in old(On(adj)) || ClashesFrom(f, b, 0, u, v)
    ensures forall v | 1 <= v <= maxVreg :: crosses[v] <==> old(crosses[v]) || SurvivesFrom(f, b, 0, v)
  {
    var live := new bool[maxVreg + 1];
    for v := 1 to maxVreg + 1
      invariant forall u | 1 <= u < v :: live[u] == liveOut[b, u]
      modifies live
    {
      live[v] := liveOut[b, v];
    }
    var i := |f.body[b]|;
    while i > 0
      invariant 0 <= i <= |f.body[b]|
      invariant Inner(On(adj)) && Symmetric(On(adj)) && DegreesMatch(On(adj), degree, maxVreg)
      invariant forall v | 1 <= v <= maxVreg :: live[v] <==> LiveBefore(f, b, i, v)
      invariant forall u: nat, v: nat | 1 <= u <= maxVreg && 1 <= v <= maxVreg ::
        (u, v) in On(adj) <==> (u, v) in old(On(adj)) || ClashesFrom(f, b, i, u, v)
      invariant forall v | 1 <= v <= maxVreg :: crosses[v] <==> old(crosses[v]) || SurvivesFrom(f, b, i, v)
    {
      i := i - 1;
      StepBack(f, b, i, maxVreg, live, adj, degree, crosses);
      forall u: nat, v: nat { ClashesFromStep(f, b, i, u, v); }
    }
  }

  /** The graph is exact: an edge for every pair one of which is written while the other is still
      needed, and a crossing mark for every register that must survive a call. */
  method Build(f: Func, maxVreg: nat, liveOut: array2<bool>, adj: array2<bool>, degree: array<int>,
        crosses: array<bool>)
    requires WellFormed(f) && Numbered(f, maxVreg)
    requires degree.Length == maxVreg + 1 && crosses.Length == maxVreg + 1 && adj != liveOut
    requires adj.Length0 == maxVreg + 1 && adj.Length1 == maxVreg + 1
    requires liveOut.Length1 == maxVreg + 1 && forall b | b in f.body :: b < liveOut.Length0
    requires forall b, v | b in f.body && 1 <= v <= maxVreg :: liveOut[b, v] <==> IsLiveOut(f, b, v)
    requires On(adj) == {} && (forall v | 0 <= v <= maxVreg :: degree[v] == 0 && !crosses[v])
    modifies adj, degree, crosses
    ensures Inner(On(adj)) && Symmetric(On(adj)) && DegreesMatch(On(adj), degree, maxVreg)
    ensures forall u: nat, v: nat | 1 <= u <= maxVreg && 1 <= v <= maxVreg :: (u, v) in On(adj) <==> Interferes(f, u, v)
    ensures forall v | 1 <= v <= maxVreg :: crosses[v] <==> CrossesCall(f, v)
  {
    ghost var done: set<nat> := {};
    for j := 0 to |f.order|
      invariant done == set k | 0 <= k < j :: f.order[k]
      invariant Inner(On(adj)) && Symmetric(On(adj)) && DegreesMatch(On(adj), degree, maxVreg)
      invariant forall u: nat, v: nat | 1 <= u <= maxVreg && 1 <= v <= maxVreg ::
        (u, v) in On(adj) <==> JoinedIn(f, done, u, v)
      invariant forall v | 1 <= v <= maxVreg :: crosses[v] <==> SurvivesIn(f, done, v)
    {
      var b := f.order[j];
      assert b in f.body;
      WalkBlock(f, b, maxVreg, liveOut, adj, degree, crosses);
      forall u: nat, v: nat
        ensures JoinedIn(f, done + {b}, u, v) <==> JoinedIn(f, done, u, v) || ClashesFrom(f, b, 0, u, v)
        ensures SurvivesIn(f, done + {b}, v) <==> SurvivesIn(f, done, v) || SurvivesFrom(f, b, 0, v)
      {
        JoinedInStep(f, done, b, u, v);
      }
      done := done + {b};
    }
    assert done == f.body.Keys by {
      forall b | b in f.body.Keys ensures b in done { assert b in (set x | x in f.order); }
    }
    forall u: nat, v: nat
      ensures JoinedIn(f, done, u, v) <==> Interferes(f, u, v)
      ensures SurvivesIn(f, done, v) <==> CrossesCall(f, v)
    {
      JoinedInAll(f, u, v);
    }
  }

  lemma JoinedInStep(f: Func, done: set<nat>, b: nat, u: nat, v: nat)
    ensures JoinedIn(f, done + {b}, u, v) <==> JoinedIn(f, done, u, v) || ClashesFrom(f, b, 0, u, v)
    ensures SurvivesIn(f, done + {b}, v) <==> SurvivesIn(f, done, v) || SurvivesFrom(f, b, 0, v)
  {
    assert b in done + {b};
  }

  lemma JoinedInAll(f: Func, u: nat, v: nat)
    ensures JoinedIn(f, f.body.Keys, u, v) <==> Interferes(f, u, v)
    ensures SurvivesIn(f, f.body.Keys, v) <==> CrossesCall(f, v)
  {
    if Interferes(f, u, v) {
      var b, k :| Clashes(f, b, k, u, v) || Clashes(f, b, k, v, u);
      assert ClashesFrom(f, b, 0, u, v);
    }
    if JoinedIn(f, f.body.Keys, u, v) {
      var b :| b in f.body.Keys && ClashesFrom(f, b, 0, u, v);
    }
    if CrossesCall(f, v) {
      var b, k :| SurvivesCallAt(f, b, k, v);
      assert SurvivesFrom(f, b, 0, v);
    }
  }
}
