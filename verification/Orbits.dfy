/** Finite functional graphs: iterating a map on its own keys, cycles, and what a shortcut past one
    node does to them. */
module Orbits {
  import opened Liveness

  ghost predicate Closed(h: map<nat, nat>) { forall x {:trigger h[x]} | x in h :: h[x] in h }

  ghost function Iter(h: map<nat, nat>, k: nat, x: nat): (y: nat)
    requires Closed(h) && x in h
    ensures y in h
    decreases k
  {
    if k == 0 then x else Iter(h, k - 1, h[x])
  }

  lemma {:induction false} IterAdd(h: map<nat, nat>, j: nat, k: nat, x: nat)
    requires Closed(h) && x in h
    ensures Iter(h, j + k, x) == Iter(h, k, Iter(h, j, x))
    decreases j
  {
    if j > 0 { IterAdd(h, j - 1, k, h[x]); }
  }

  lemma {:induction false} IterLast(h: map<nat, nat>, k: nat, x: nat)
    requires Closed(h) && x in h
    ensures Iter(h, k + 1, x) == h[Iter(h, k, x)]
  {
    IterAdd(h, k, 1, x);
    assert Iter(h, 1, Iter(h, k, x)) == Iter(h, 0, h[Iter(h, k, x)]);
  }

  /** Going round a cycle any number of times leads back. */
  lemma {:induction false} RoundAndRound(h: map<nat, nat>, k: nat, n: nat, x: nat)
    requires Closed(h) && x in h && Iter(h, k, x) == x
    ensures Iter(h, n * k, x) == x
  {
    if n > 0 {
      RoundAndRound(h, k, n - 1, x);
      IterAdd(h, k, (n - 1) * k, x);
      assert n * k == k + (n - 1) * k;
    }
  }

  /** On a cycle of at least two nodes. */
  ghost predicate OnCycle(h: map<nat, nat>, x: nat)
    requires Closed(h)
  {
    x in h && h[x] != x && exists k: nat :: k > 0 && Iter(h, k, x) == x
  }

  ghost function Cycles(h: map<nat, nat>): set<nat>
    requires Closed(h)
  {
    set x | x in h && OnCycle(h, x)
  }

  /** A node on a cycle has one predecessor on a cycle. */
  lemma CyclesMergeNowhere(h: map<nat, nat>, x: nat, y: nat)
    requires Closed(h) && OnCycle(h, x) && OnCycle(h, y) && h[x] == h[y]
    ensures x == y
  {
    var j: nat :| j > 0 && Iter(h, j, x) == x;
    var k: nat :| k > 0 && Iter(h, k, y) == y;
    RoundAndRound(h, j, k, x);
    RoundAndRound(h, k, j, y);
    assert k * j == j * k;
    assert k * j > 0 by { assert k >= 1 && j >= 1; assert k * j >= j; }
    assert Iter(h, k * j, x) == Iter(h, k * j - 1, h[x]);
    assert Iter(h, j * k, y) == Iter(h, j * k - 1, h[y]);
  }

  lemma SuccessorOnCycle(h: map<nat, nat>, x: nat)
    requires Closed(h) && OnCycle(h, x)
    ensures OnCycle(h, h[x])
  {
    var k: nat :| k > 0 && Iter(h, k, x) == x;
    assert Iter(h, k, h[x]) == h[x] by {
      assert Iter(h, k + 1, x) == Iter(h, k, h[x]);
      IterLast(h, k, x);
    }
    StaysFixed(h, k - 1, h[x]);
  }

  lemma {:induction false} StaysFixed(h: map<nat, nat>, k: nat, x: nat)
    requires Closed(h) && x in h
    ensures h[x] == x ==> Iter(h, k, x) == x
    decreases k
  {
    if k > 0 { StaysFixed(h, k - 1, h[x]); }
  }

  /** A node's predecessor on its cycle. */
  lemma PredecessorOnCycle(h: map<nat, nat>, x: nat) returns (p: nat)
    requires Closed(h) && OnCycle(h, x)
    ensures OnCycle(h, p) && h[p] == x
  {
    var k: nat :| k > 0 && Iter(h, k, x) == x;
    p := Iter(h, k - 1, x);
    IterLast(h, k - 1, x);
    assert Iter(h, k, p) == p by {
      IterAdd(h, k - 1, k, x);
      IterAdd(h, k, k - 1, x);
    }
  }

  // ---------------------------------------------------------------------------------------------
  // A shortcut: `b` skips its successor

  ghost predicate Shortcut(h: map<nat, nat>, b: nat, h': map<nat, nat>) {
    Closed(h) && b in h && h[b] != b && h[h[b]] != h[b] && h' == h[b := h[h[b]]]
  }

  /** Orbits of the shortened graph are orbits of the original, possibly with gaps. */
  lemma {:induction false} ShortcutOrbit(h: map<nat, nat>, b: nat, h': map<nat, nat>, i: nat, x: nat) returns (j: nat)
    requires Shortcut(h, b, h') && x in h
    ensures Closed(h') && i <= j && Iter(h, j, x) == Iter(h', i, x)
  {
    assert Closed(h');
    if i == 0 {
      j := 0;
    } else {
      var j' := ShortcutOrbit(h, b, h', i - 1, h'[x]);
      if x == b {
        j := j' + 2;
        assert Iter(h, j, x) == Iter(h, j' + 1, h[x]) == Iter(h, j', h[h[x]]);
      } else {
        j := j' + 1;
      }
    }
  }

  lemma ShortcutMakesNoCycle(h: map<nat, nat>, b: nat, h': map<nat, nat>)
    requires Shortcut(h, b, h')
    ensures Closed(h') && Cycles(h') <= Cycles(h)
  {
    assert Closed(h');
    forall x | x in Cycles(h')
      ensures x in Cycles(h)
    {
      var i: nat :| i > 0 && Iter(h', i, x) == x;
      var j := ShortcutOrbit(h, b, h', i, x);
    }
  }

  /** Shortening a cycle takes the skipped node off it. */
  lemma ShortcutShrinksCycle(h: map<nat, nat>, b: nat, h': map<nat, nat>)
    requires Shortcut(h, b, h') && b in Cycles(h)
    ensures Closed(h') && Cycles(h') < Cycles(h)
  {
    ShortcutMakesNoCycle(h, b, h');
    SuccessorOnCycle(h, b);
    var t := h[b];
    if t in Cycles(h') {
      var p := PredecessorOnCycle(h', t);
      assert p in Cycles(h');
      if p != b {
        CyclesMergeNowhere(h, p, b);
      }
      assert false;
    }
  }

  // ---------------------------------------------------------------------------------------------
  // Distance to a fixed point

  ghost predicate Settles(h: map<nat, nat>, x: nat, n: nat)
    requires Closed(h) && x in h
    decreases n
  {
    h[x] == x || (n > 0 && Settles(h, h[x], n - 1))
  }

  /** Steps from `x` to a fixed point, at most `n`. */
  ghost function Distance(h: map<nat, nat>, x: nat, n: nat): nat
    requires Closed(h) && x in h
    decreases n
  {
    if n == 0 || h[x] == x then 0 else 1 + Distance(h, h[x], n - 1)
  }

  ghost function Orbit(h: map<nat, nat>, x: nat, n: nat): (s: seq<nat>)
    requires Closed(h) && x in h
    ensures |s| == n && forall i | 0 <= i < n :: s[i] == Iter(h, i, x)
  {
    seq(n, i requires 0 <= i => Iter(h, i, x))
  }

  lemma {:induction false} UnsettledPrefix(h: map<nat, nat>, x: nat, n: nat, i: nat)
    requires Closed(h) && x in h && !Settles(h, x, n) && i <= n
    ensures h[Iter(h, i, x)] != Iter(h, i, x)
    decreases i
  {
    if i > 0 { UnsettledPrefix(h, h[x], n - 1, i - 1); }
  }

  lemma {:induction false} DistinctInside(s: seq<nat>, keys: set<nat>)
    requires Distinct(s) && forall i | 0 <= i < |s| :: s[i] in keys
    ensures |s| <= |keys|
  {
    if s != [] {
      var n := |s| - 1;
      assert forall i | 0 <= i < n :: s[..n][i] != s[n];
      DistinctInside(s[..n], keys - {s[n]});
    }
  }

  /** Without cycles every orbit settles within as many steps as there are nodes. */
  lemma AcyclicSettles(h: map<nat, nat>, x: nat)
    requires Closed(h) && Cycles(h) == {} && x in h
    ensures Settles(h, x, |h|)
  {
    if !Settles(h, x, |h|) {
      var s := Orbit(h, x, |h| + 1);
      forall i, j | 0 <= i < j < |s|
        ensures s[i] != s[j]
      {
        IterAdd(h, i, j - i, x);
        UnsettledPrefix(h, x, |h|, i);
        assert s[i] !in Cycles(h);
      }
      DistinctInside(s, h.Keys);
      assert false;
    }
  }

  lemma {:induction false} DistanceOfSuccessor(h: map<nat, nat>, x: nat, n: nat)
    requires Closed(h) && x in h && Settles(h, x, n) && h[x] != x
    ensures Distance(h, h[x], n) + 1 == Distance(h, x, n)
  {
    MoreSteps(h, h[x], n - 1);
  }

  lemma {:induction false} MoreSteps(h: map<nat, nat>, x: nat, n: nat)
    requires Closed(h) && x in h && Settles(h, x, n)
    ensures Settles(h, x, n + 1) && Distance(h, x, n + 1) == Distance(h, x, n)
    decreases n
  {
    if h[x] != x { MoreSteps(h, h[x], n - 1); }
  }

  /** A shortcut takes nobody further from its fixed point. */
  lemma {:induction false} ShortcutDistance(h: map<nat, nat>, b: nat, h': map<nat, nat>, x: nat, n: nat)
    requires Shortcut(h, b, h') && x in h && Settles(h, x, n)
    ensures Closed(h') && Settles(h', x, n) && Distance(h', x, n) <= Distance(h, x, n)
    decreases n
  {
    assert Closed(h');
    if h[x] == x {
      assert h'[x] == x;
    } else if x == b {
      assert Settles(h, h[h[x]], n - 2);
      ShortcutDistance(h, b, h', h[h[x]], n - 2);
      MoreSteps(h', h[h[x]], n - 2);
      assert Distance(h, x, n) == 1 + Distance(h, h[x], n - 1) == 2 + Distance(h, h[h[x]], n - 2);
    } else {
      ShortcutDistance(h, b, h', h[x], n - 1);
    }
  }
}
