/** What a pass may do to a function: keep every outcome except faults, at a cost in fuel that does not
    depend on the run. */
module Refinement {
  import opened Sir

  /** With `c` times the fuel `g` ends as `f` does. */
  ghost predicate Follows(f: Func, g: Func, c: nat) {
    forall m: Machine, params: seq<i64>, w: World, n: nat ::
      RunFunc(m, f, params, w, n) == OutOfFuel || RunFunc(m, g, params, w, c * n) == RunFunc(m, f, params, w, n)
  }

  /** With `c` times the fuel `g` ends as `f` does, unless `f` faults. */
  ghost predicate Tracks(f: Func, g: Func, c: nat) {
    forall m: Machine, params: seq<i64>, w: World, n: nat ::
      var o := RunFunc(m, f, params, w, n); o == OutOfFuel || o == Fault || RunFunc(m, g, params, w, c * n) == o
  }

  /** With `c` times the fuel `f` ends as `g` does, or it faults. */
  ghost predicate TracksBack(f: Func, g: Func, c: nat) {
    forall m: Machine, params: seq<i64>, w: World, n: nat ::
      var o, o' := RunFunc(m, g, params, w, n), RunFunc(m, f, params, w, c * n);
      o == OutOfFuel || o' == o || o' == Fault
  }

  ghost predicate Bounded(f: Func, g: Func, c: nat) { c > 0 && Tracks(f, g, c) && TracksBack(f, g, c) }

  /** Wherever `f` does not fault, `g` ends exactly when `f` does and in the same way. */
  ghost predicate Refines(f: Func, g: Func) { exists c: nat :: Bounded(f, g, c) }

  ghost predicate BothFollow(f: Func, g: Func, c: nat) { c > 0 && Follows(f, g, c) && Follows(g, f, c) }

  /** The same outcomes on every input, faults included. */
  ghost predicate SameEnds(f: Func, g: Func) { exists c: nat :: BothFollow(f, g, c) }

  lemma Reassociate(c: nat, d: nat, n: nat)
    ensures d * (c * n) == (c * d) * n
  {}

  lemma FollowsTransitive(f: Func, g: Func, h: Func, c: nat, d: nat)
    requires Follows(f, g, c) && Follows(g, h, d)
    ensures Follows(f, h, c * d)
  {
    hide RunFunc;
    forall m: Machine, params: seq<i64>, w: World, n: nat
      ensures RunFunc(m, f, params, w, n) == OutOfFuel ||
        RunFunc(m, h, params, w, (c * d) * n) == RunFunc(m, f, params, w, n)
    {
      Reassociate(c, d, n);
      assert RunFunc(m, g, params, w, c * n) == OutOfFuel ||
        RunFunc(m, h, params, w, d * (c * n)) == RunFunc(m, g, params, w, c * n);
    }
  }

  lemma SameEndsTransitive(f: Func, g: Func, h: Func)
    requires SameEnds(f, g) && SameEnds(g, h)
    ensures SameEnds(f, h)
  {
    hide Follows;
    var c: nat :| BothFollow(f, g, c);
    var d: nat :| BothFollow(g, h, d);
    FollowsTransitive(f, g, h, c, d);
    FollowsTransitive(h, g, f, d, c);
    assert c * d > 0 && c * d == d * c;
    assert BothFollow(f, h, c * d);
  }

  lemma SameEndsReflexive(f: Func)
    ensures SameEnds(f, f)
  {
    hide RunFunc;
    forall m: Machine, params: seq<i64>, w: World, n: nat
      ensures RunFunc(m, f, params, w, 1 * n) == RunFunc(m, f, params, w, n)
    {
      assert 1 * n == n;
    }
    assert BothFollow(f, f, 1);
  }

  lemma SameEndsRefines(f: Func, g: Func)
    requires SameEnds(f, g)
    ensures Refines(f, g)
  {
    hide RunFunc;
    var c: nat :| BothFollow(f, g, c);
    assert Bounded(f, g, c);
  }

  lemma LockstepRefines(f: Func, g: Func)
    requires Lockstep(f, g)
    ensures Refines(f, g)
  {
    hide RunFunc;
    forall m: Machine, params: seq<i64>, w: World, n: nat
      ensures RunFunc(m, f, params, w, n) == Fault || RunFunc(m, g, params, w, 1 * n) == RunFunc(m, f, params, w, n)
      ensures RunFunc(m, f, params, w, 1 * n) == Fault || RunFunc(m, f, params, w, 1 * n) == RunFunc(m, g, params, w, n)
    {
      assert 1 * n == n;
    }
    assert Bounded(f, g, 1);
  }

  lemma TracksTransitive(f: Func, g: Func, h: Func, c: nat, d: nat)
    requires Tracks(f, g, c) && Tracks(g, h, d)
    ensures Tracks(f, h, c * d)
  {
    hide RunFunc;
    forall m: Machine, params: seq<i64>, w: World, n: nat
      ensures var o := RunFunc(m, f, params, w, n);
        o == OutOfFuel || o == Fault || RunFunc(m, h, params, w, (c * d) * n) == o
    {
      Reassociate(c, d, n);
      var o := RunFunc(m, f, params, w, n);
      assert o == OutOfFuel || o == Fault || RunFunc(m, g, params, w, c * n) == o;
      assert RunFunc(m, h, params, w, d * (c * n)) == RunFunc(m, h, params, w, (c * d) * n);
    }
  }

  lemma TracksBackTransitive(f: Func, g: Func, h: Func, c: nat, d: nat)
    requires TracksBack(f, g, c) && TracksBack(g, h, d)
    ensures TracksBack(f, h, d * c)
  {
    hide RunFunc;
    forall m: Machine, params: seq<i64>, w: World, n: nat
      ensures var o, o' := RunFunc(m, h, params, w, n), RunFunc(m, f, params, w, (d * c) * n);
        o == OutOfFuel || o' == o || o' == Fault
    {
      Reassociate(d, c, n);
      var o, e := RunFunc(m, h, params, w, n), RunFunc(m, g, params, w, d * n);
      assert o == OutOfFuel || e == o || e == Fault;
      var o' := RunFunc(m, f, params, w, c * (d * n));
      assert e == OutOfFuel || o' == e || o' == Fault;
      assert RunFunc(m, f, params, w, (d * c) * n) == o';
    }
  }

  lemma RefinesTransitive(f: Func, g: Func, h: Func)
    requires Refines(f, g) && Refines(g, h)
    ensures Refines(f, h)
  {
    hide Tracks, TracksBack;
    var c: nat :| Bounded(f, g, c);
    var d: nat :| Bounded(g, h, d);
    TracksTransitive(f, g, h, c, d);
    TracksBackTransitive(f, g, h, c, d);
    assert c * d > 0 && c * d == d * c;
    assert Bounded(f, h, c * d);
  }

  lemma BoundGrows(f: Func, g: Func, c: nat, d: nat)
    requires Bounded(f, g, c) && c <= d
    ensures Bounded(f, g, d)
  {
    hide RunFunc;
    forall m: Machine, params: seq<i64>, w: World, n: nat
      ensures var o := RunFunc(m, f, params, w, n); o == OutOfFuel || o == Fault || RunFunc(m, g, params, w, d * n) == o
      ensures var o, o' := RunFunc(m, g, params, w, n), RunFunc(m, f, params, w, d * n);
        o == OutOfFuel || o' == o || o' == Fault
    {
      Scales(c, d, n);
      FuncMoreFuel(m, g, params, w, c * n, d * n);
      FuncMoreFuel(m, f, params, w, c * n, d * n);
    }
  }

  lemma Scales(c: nat, d: nat, n: nat)
    requires c <= d
    ensures c * n <= d * n
  {}

  lemma FuncMoreFuel(m: Machine, f: Func, params: seq<i64>, w: World, n: nat, k: nat)
    requires n <= k
    ensures RunFunc(m, f, params, w, n) == OutOfFuel || RunFunc(m, f, params, w, k) == RunFunc(m, f, params, w, n)
  {
    if f.order != [] { RunMoreFuel(m, f, params, f.order[0], map[], w, n, k); }
  }
}
