/** Simplify and select: graph colouring with 11 physical registers. */
module Coloring {
  import opened Liveness
  import opened Interference

  /** Colours 0-6 are callee-saved, 7-10 caller-saved. */
  const CALLEE_SAVED := 7
  const NUM_PHYS_REGS := 11

  // ---------------------------------------------------------------------------------------------
  // Simplify

  ghost function Kept(removed: array<bool>): set<nat>
    reads removed
  {
    set v: nat | 1 <= v < removed.Length && !removed[v]
  }

  /** Cost of spilling: uses per unit of pressure relieved. */
  function Weight(uses: int, degree: int): real
    requires degree > 0
  {
    uses as real / degree as real
  }

  /** A node with `uses` and `degree` is no better to spill than one with `uses'` and `degree'`: it has more uses per
      neighbour, or as many and no higher a degree. */
  predicate NotBetter(uses: int, degree: int, uses': int, degree': int) {
    uses' * degree < uses * degree' || (uses' * degree == uses * degree' && degree <= degree')
  }

  /** Quotients compare as products do. */
  lemma Weighs(a: int, b: int, c: int, d: int)
    requires b > 0 && d > 0
    ensures Weight(a, b) < Weight(c, d) <==> a * d < c * b
    ensures Weight(a, b) == Weight(c, d) <==> a * d == c * b
  {
    var x, y, p, q := Weight(a, b), Weight(c, d), b as real, d as real;
    assert x * p == a as real && y * q == c as real;
    assert (a * d) as real == x * (p * q) && (c * b) as real == y * (p * q) by {
      assert (a * d) as real == a as real * q && (c * b) as real == c as real * p;
    }
    ScaledCompare(x, y, p * q);
  }

  lemma ScaledCompare(x: real, y: real, z: real)
    requires z > 0.0
    ensures x < y <==> x * z < y * z
    ensures x == y <==> x * z == y * z
  {}

  /** The comparison carries over to a better node. */
  lemma Betters(a: int, b: int, c: int, d: int, e: int, f: int)
    requires b > 0 && d > 0 && f > 0 && NotBetter(a, b, c, d) && NotBetter(c, d, e, f)
    ensures NotBetter(a, b, e, f)
  {
    Weighs(c, d, a, b);
    Weighs(e, f, c, d);
    Weighs(e, f, a, b);
  }

  /** Node `a` is taken out of the graph before node `b`, by their uses and numbers of neighbours left: one that can
      surely be coloured before one that may have to be spilled; of the former one with more neighbours; of the latter
      one that is better to spill; and if none of this decides the one with the lower number. */
  predicate Precedes(a: nat, usesA: int, degreeA: int, b: nat, usesB: int, degreeB: int) {
    if degreeA < 11 then degreeB >= 11 || degreeA > degreeB || (degreeA == degreeB && a < b)
    else
      && degreeB >= 11
      && (!NotBetter(usesA, degreeA, usesB, degreeB) || (NotBetter(usesB, degreeB, usesA, degreeA) && a < b))
  }

  lemma PrecedesTransitive(a: nat, ua: int, da: int, b: nat, ub: int, db: int, c: nat, uc: int, dc: int)
    requires Precedes(a, ua, da, b, ub, db) && Precedes(b, ub, db, c, uc, dc)
    ensures Precedes(a, ua, da, c, uc, dc)
  {
    if da >= 11 {
      NoBetterEitherWay(ua, da, ub, db);
      NoBetterEitherWay(ub, db, uc, dc);
      if NotBetter(ua, da, uc, dc) {
        Betters(ua, da, uc, dc, ub, db);
        Betters(uc, dc, ub, db, ua, da);
      }
    }
  }

  lemma NoBetterEitherWay(a: int, b: int, c: int, d: int)
    ensures NotBetter(a, b, c, d) || NotBetter(c, d, a, b)
  {}

  /** The node the heuristic removes next. */
  method PickNode(maxVreg: nat, useCount: array<nat>, degree: array<int>, removed: array<bool>) returns (best: nat)
    requires useCount.Length == maxVreg + 1 && degree.Length == maxVreg + 1 && removed.Length == maxVreg + 1
    requires Kept(removed) != {}
    ensures best in Kept(removed)
    ensures forall i | i in Kept(removed) && i != best ::
      Precedes(best, useCount[best], degree[best], i, useCount[i], degree[i])
  {
    hide Precedes;
    var found := false;
    best := 0;
    for i := 1 to maxVreg + 1
      invariant !found ==> forall j | 1 <= j < i :: removed[j]
      invariant found ==> 1 <= best < i && !removed[best]
      invariant found ==> forall j | 1 <= j < i && !removed[j] && j != best ::
        Precedes(best, useCount[best], degree[best], j, useCount[j], degree[j])
    {
      if !removed[i] {
        if !found {
          found, best := true, i;
        } else {
          var better := IsBetter(useCount[i], degree[i], useCount[best], degree[best], i, best);
          if better {
            forall j | 1 <= j < i && !removed[j] && j != best
              ensures Precedes(i, useCount[i], degree[i], j, useCount[j], degree[j])
            {
              PrecedesTransitive(i, useCount[i], degree[i], best, useCount[best], degree[best], j, useCount[j],
                degree[j]);
            }
            best := i;
          }
        }
      }
    }
    assert !found ==> Kept(removed) == {};
    assert best in Kept(removed);
  }

  /** The comparison of a later node with the best so far. */
  method IsBetter(uses: nat, degree: int, usesBest: nat, degreeBest: int, ghost i: nat, ghost best: nat)
    returns (better: bool)
    requires best < i
    ensures better ==> Precedes(i, uses, degree, best, usesBest, degreeBest)
    ensures !better ==> Precedes(best, usesBest, degreeBest, i, uses, degree)
  {
    if degree < NUM_PHYS_REGS && degreeBest >= NUM_PHYS_REGS { return true; }
    if degree < NUM_PHYS_REGS && degree > degreeBest { return true; }
    if degree >= NUM_PHYS_REGS && degreeBest >= NUM_PHYS_REGS {
      var weight := Weight(uses, degree);
      var weightBest := Weight(usesBest, degreeBest);
      Weighs(uses, degree, usesBest, degreeBest);
      return weight < weightBest || (weight == weightBest && degree > degreeBest);
    }
    return false;
  }

  /** Neighbours of `u` among `kept`. */
  ghost function Among(edges: set<(nat, nat)>, maxVreg: nat, u: nat, kept: set<nat>): set<nat> {
    set v | v in kept && v <= maxVreg && (u, v) in edges
  }

  /** The nodes not yet on the stack. */
  ghost function Rest(used: set<nat>, stack: seq<nat>): set<nat> { set v | v in used && v !in stack }

  /** The degree of every node still in the graph is the number of its neighbours still in the graph. */
  ghost predicate DegreesTrack(edges: set<(nat, nat)>, maxVreg: nat, degree: array<int>, removed: array<bool>)
    requires degree.Length == maxVreg + 1 && removed.Length == maxVreg + 1
    reads degree, removed
  {
    forall u | u in Kept(removed) :: degree[u] == |Among(edges, maxVreg, u, Kept(removed))|
  }

  /** Neighbours of `u` among the nodes pushed after position `k`. */
  ghost function Later(edges: set<(nat, nat)>, maxVreg: nat, stack: seq<nat>, k: nat): set<nat>
    requires k < |stack|
  {
    set v | v in stack[k + 1..] && v <= maxVreg && (stack[k], v) in edges
  }

  lemma RowAfterRemoval(edges: set<(nat, nat)>, maxVreg: nat, kept: set<nat>, node: nat, u: nat)
    requires Symmetric(edges) && node in kept && node <= maxVreg && u <= maxVreg
    ensures |Among(edges, maxVreg, u, kept - {node})| ==
      |Among(edges, maxVreg, u, kept)| - if (node, u) in edges then 1 else 0
  {
    var before, after := Among(edges, maxVreg, u, kept), Among(edges, maxVreg, u, kept - {node});
    if (node, u) in edges {
      assert before == after + {node};
    } else {
      assert before == after;
    }
  }

  method RemoveNode(maxVreg: nat, node: nat, adj: array2<bool>, degree: array<int>, removed: array<bool>)
    requires degree.Length == maxVreg + 1 && removed.Length == maxVreg + 1
    requires adj.Length0 == maxVreg + 1 && adj.Length1 == maxVreg + 1
    requires Symmetric(On(adj)) && DegreesTrack(On(adj), maxVreg, degree, removed) && node in Kept(removed)
    modifies degree, removed
    ensures Kept(removed) == old(Kept(removed)) - {node} && |Kept(removed)| == |old(Kept(removed))| - 1
    ensures DegreesTrack(On(adj), maxVreg, degree, removed)
  {
    removed[node] := true;
    ghost var kept, edges := old(Kept(removed)), On(adj);
    assert Kept(removed) == kept - {node};
    LowerDegrees(maxVreg, node, adj, degree, removed);
    assert Kept(removed) == kept - {node};
    forall u | u in Kept(removed)
      ensures degree[u] == |Among(edges, maxVreg, u, Kept(removed))|
    {
      assert u in kept && old(degree[u]) == |Among(edges, maxVreg, u, kept)|;
      RowAfterRemoval(edges, maxVreg, kept, node, u);
      assert (node, u) in edges <==> adj[node, u];
      assert !removed[u] && 1 <= u <= maxVreg;
    }
  }

  method LowerDegrees(maxVreg: nat, node: nat, adj: array2<bool>, degree: array<int>, removed: array<bool>)
    requires degree.Length == maxVreg + 1 && removed.Length == maxVreg + 1 && node <= maxVreg
    requires adj.Length0 == maxVreg + 1 && adj.Length1 == maxVreg + 1
    modifies degree
    ensures forall v | 0 <= v <= maxVreg ::
      degree[v] == if 1 <= v && adj[node, v] && !removed[v] then old(degree[v]) - 1 else old(degree[v])
  {
    for j := 1 to maxVreg + 1
      invariant forall v | 0 <= v <= maxVreg ::
        degree[v] == if 1 <= v < j && adj[node, v] && !removed[v] then old(degree[v]) - 1 else old(degree[v])
    {
      if adj[node, j] && !removed[j] {
        degree[j] := degree[j] - 1;
      }
    }
  }

  /** Of the nodes in `rest`, `node` is the one to leave the graph next. */
  ghost predicate LeavesNext(edges: set<(nat, nat)>, maxVreg: nat, uses: seq<nat>, rest: set<nat>, node: nat) {
    && node in rest && (forall i | i in rest :: i < |uses|)
    && forall i | i in rest && i != node :: Precedes(node, uses[node], |Among(edges, maxVreg, node, rest)|,
                                                     i, uses[i], |Among(edges, maxVreg, i, rest)|)
  }

  ghost predicate LeftInTurn(edges: set<(nat, nat)>, maxVreg: nat, uses: seq<nat>, used: set<nat>, nodes: seq<nat>) {
    forall k | 0 <= k < |nodes| :: LeavesNext(edges, maxVreg, uses, Rest(used, nodes[..k]), nodes[k])
  }

  /** Every node is the one to leave next of itself and those behind it. */
  ghost predicate InOrder(edges: set<(nat, nat)>, maxVreg: nat, uses: seq<nat>, order: seq<nat>) {
    forall k | 0 <= k < |order| :: LeavesNext(edges, maxVreg, uses, Elements(order[k..]), order[k])
  }

  lemma OneMoreLeft(edges: set<(nat, nat)>, maxVreg: nat, uses: seq<nat>, used: set<nat>, nodes: seq<nat>, node: nat)
    requires LeftInTurn(edges, maxVreg, uses, used, nodes)
    requires LeavesNext(edges, maxVreg, uses, Rest(used, nodes), node)
    ensures LeftInTurn(edges, maxVreg, uses, used, nodes + [node])
  {
    hide LeavesNext;
    var nodes' := nodes + [node];
    forall k | 0 <= k < |nodes'|
      ensures LeavesNext(edges, maxVreg, uses, Rest(used, nodes'[..k]), nodes'[k])
    {
      assert nodes'[..k] == nodes[..k];
      assert nodes[..|nodes|] == nodes;
    }
  }

  /** The state of the simplify loop: the graph holds the used registers that are not on the stack. */
  ghost predicate Simplifying(edges: set<(nat, nat)>, maxVreg: nat, used: set<nat>, nodes: seq<nat>, uses: seq<nat>,
        degree: array<int>, removed: array<bool>)
    requires degree.Length == maxVreg + 1 && removed.Length == maxVreg + 1
    reads degree, removed
  {
    && Kept(removed) == Rest(used, nodes)
    && (forall v | v in nodes :: v in used)
    && Distinct(nodes)
    && DegreesTrack(edges, maxVreg, degree, removed)
    && LeftInTurn(edges, maxVreg, uses, used, nodes)
  }

  /** One round of simplify. */
  method PushBest(maxVreg: nat, useCount: array<nat>, adj: array2<bool>, degree: array<int>, removed: array<bool>,
        ghost used: set<nat>, ghost nodes: seq<nat>)
    returns (node: nat)
    requires useCount.Length == maxVreg + 1 && degree.Length == maxVreg + 1 && removed.Length == maxVreg + 1
    requires adj.Length0 == maxVreg + 1 && adj.Length1 == maxVreg + 1
    requires Symmetric(On(adj)) && (forall v: nat :: (v, v) !in On(adj))
    requires Simplifying(On(adj), maxVreg, used, nodes, useCount[..], degree, removed) && Kept(removed) != {}
    modifies degree, removed
    ensures Simplifying(On(adj), maxVreg, used, nodes + [node], useCount[..], degree, removed)
    ensures |Kept(removed)| == |old(Kept(removed))| - 1
  {
    hide LeftInTurn, Among, Symmetric, Precedes;
    node := PickNode(maxVreg, useCount, degree, removed);
    assert LeavesNext(On(adj), maxVreg, useCount[..], Rest(used, nodes), node);
    OneMoreLeft(On(adj), maxVreg, useCount[..], used, nodes, node);
    RestStep(used, nodes, node);
    RemoveNode(maxVreg, node, adj, degree, removed);
  }

  lemma StartSimplifying(edges: set<(nat, nat)>, maxVreg: nat, uses: seq<nat>, degree: array<int>,
        removed: array<bool>)
    requires degree.Length == maxVreg + 1 && removed.Length == maxVreg + 1
    requires DegreesMatch(edges, degree, maxVreg)
    requires forall u: nat, v: nat :: (u, v) in edges ==> v in Kept(removed)
    ensures Simplifying(edges, maxVreg, Kept(removed), [], uses, degree, removed)
  {
    forall u | u in Kept(removed)
      ensures degree[u] == |Among(edges, maxVreg, u, Kept(removed))|
    {
      assert Among(edges, maxVreg, u, Kept(removed)) == Row(edges, maxVreg, u);
    }
    assert Kept(removed) == Rest(Kept(removed), []);
  }

  lemma AllPushed(edges: set<(nat, nat)>, maxVreg: nat, uses: seq<nat>, used: set<nat>, nodes: seq<nat>)
    requires Rest(used, nodes) == {} && (forall v | v in nodes :: v in used) && Distinct(nodes)
    requires LeftInTurn(edges, maxVreg, uses, used, nodes)
    ensures forall v :: v in nodes <==> v in used
    ensures InOrder(edges, maxVreg, uses, nodes)
  {
    hide LeavesNext;
    forall v | v in used
      ensures v in nodes
    {
      assert v !in Rest(used, nodes);
    }
    forall k | 0 <= k < |nodes|
      ensures LeavesNext(edges, maxVreg, uses, Elements(nodes[k..]), nodes[k])
    {
      RestIsBehind(used, nodes, k);
    }
  }

  lemma RestIsBehind(used: set<nat>, nodes: seq<nat>, k: nat)
    requires Distinct(nodes) && k <= |nodes| && forall v :: v in nodes <==> v in used
    ensures Rest(used, nodes[..k]) == Elements(nodes[k..])
  {
    assert nodes == nodes[..k] + nodes[k..];
    forall v {:trigger v in nodes[k..]} | v in nodes[k..]
      ensures v !in nodes[..k]
    {
      var i :| 0 <= i < |nodes[k..]| && nodes[k..][i] == v;
      assert nodes[k + i] == v;
    }
  }

  /** Empties the graph.  Every used register is pushed exactly once, and each is, by its uses and the number of its
      neighbours still in the graph, the one that leaves next. */
  method Simplify(maxVreg: nat, useCount: array<nat>, adj: array2<bool>, degree: array<int>)
    returns (stack: array<nat>, top: nat)
    requires useCount.Length == maxVreg + 1 && degree.Length == maxVreg + 1
    requires adj.Length0 == maxVreg + 1 && adj.Length1 == maxVreg + 1
    requires Symmetric(On(adj)) && (forall v: nat :: (v, v) !in On(adj))
    requires DegreesMatch(On(adj), degree, maxVreg)
    requires forall u: nat, v: nat :: (u, v) in On(adj) ==> 1 <= v <= maxVreg && useCount[v] > 0
    modifies degree
    ensures fresh(stack) && top <= stack.Length && Distinct(stack[..top])
    ensures forall v: nat :: v in stack[..top] <==> 1 <= v <= maxVreg && useCount[v] > 0
    ensures InOrder(On(adj), maxVreg, useCount[..], stack[..top])
  {
    var removed := new bool[maxVreg + 1];
    var remaining := PrepareNodes(maxVreg, useCount, removed);
    ghost var used := Kept(removed);
    StartSimplifying(On(adj), maxVreg, useCount[..], degree, removed);
    stack := new nat[maxVreg + 1];
    top := PushAll(maxVreg, useCount, adj, degree, removed, stack, remaining);
    forall v: nat
      ensures v in stack[..top] <==> 1 <= v <= maxVreg && useCount[v] > 0
    {
      assert v in stack[..top] <==> v in used;
    }
  }

  method PushAll(maxVreg: nat, useCount: array<nat>, adj: array2<bool>, degree: array<int>, removed: array<bool>,
        stack: array<nat>, remaining0: nat)
    returns (top: nat)
    requires useCount.Length == maxVreg + 1 && degree.Length == maxVreg + 1 && removed.Length == maxVreg + 1
    requires stack != useCount && stack.Length == maxVreg + 1 && remaining0 == |Kept(removed)| <= maxVreg
    requires adj.Length0 == maxVreg + 1 && adj.Length1 == maxVreg + 1
    requires Symmetric(On(adj)) && (forall v: nat :: (v, v) !in On(adj))
    requires Simplifying(On(adj), maxVreg, Kept(removed), [], useCount[..], degree, removed)
    modifies stack, degree, removed
    ensures top <= stack.Length && Distinct(stack[..top])
    ensures forall v :: v in stack[..top] <==> v in old(Kept(removed))
    ensures InOrder(On(adj), maxVreg, useCount[..], stack[..top])
  {
    ghost var used, nodes: seq<nat> := Kept(removed), [];
    top := 0;
    var remaining := remaining0;
    while remaining > 0
      invariant top <= stack.Length && stack[..top] == nodes
      invariant remaining == |Kept(removed)| && top + remaining == remaining0
      invariant Simplifying(On(adj), maxVreg, used, nodes, useCount[..], degree, removed)
    {
      stack[top] := PushBest(maxVreg, useCount, adj, degree, removed, used, nodes);
      nodes := nodes + [stack[top]];
      top := top + 1;
      remaining := remaining - 1;
    }
    AllPushed(On(adj), maxVreg, useCount[..], used, nodes);
  }

  lemma RestStep(used: set<nat>, nodes: seq<nat>, node: nat)
    requires node in Rest(used, nodes)
    ensures Rest(used, nodes + [node]) == Rest(used, nodes) - {node}
  {}

  /** Takes the registers that never occur out of the graph. */
  method PrepareNodes(maxVreg: nat, useCount: array<nat>, removed: array<bool>) returns (remaining: nat)
    requires useCount.Length == maxVreg + 1 && removed.Length == maxVreg + 1
    modifies removed
    ensures Kept(removed) == set v: nat | 1 <= v <= maxVreg && useCount[v] > 0
    ensures remaining == |Kept(removed)| <= maxVreg
  {
    remaining := 0;
    for i := 1 to maxVreg + 1
      invariant forall v | 1 <= v < i :: removed[v] <==> useCount[v] == 0
      invariant remaining == |UsedBelow(useCount[..], i)| < i
    {
      removed[i] := useCount[i] == 0;
      if useCount[i] != 0 {
        remaining := remaining + 1;
      }
      UsedBelowStep(useCount[..], i);
    }
    assert Kept(removed) == UsedBelow(useCount[..], maxVreg + 1);
  }

  ghost function UsedBelow(useCount: seq<nat>, i: nat): set<nat>
    requires i <= |useCount|
  {
    set v: nat | 1 <= v < i && useCount[v] > 0
  }

  lemma UsedBelowStep(useCount: seq<nat>, i: nat)
    requires 1 <= i < |useCount|
    ensures |UsedBelow(useCount, i + 1)| == |UsedBelow(useCount, i)| + if useCount[i] > 0 then 1 else 0
  {
    assert UsedBelow(useCount, i + 1) == if useCount[i] > 0 then UsedBelow(useCount, i) + {i}
      else UsedBelow(useCount, i);
  }

  // ---------------------------------------------------------------------------------------------
  // Select

  /** The order in which colours are tried: where a call is crossed the callee-saved ones only, and last otherwise. */
  function Preference(crosses: bool): seq<int> {
    if crosses then [0, 1, 2, 3, 4, 5, 6] else [7, 8, 9, 10, 0, 1, 2, 3, 4, 5, 6]
  }

  /** `color` is the first in the order of preference that is not taken; -1 if all are. */
  ghost predicate FirstChoice(taken: set<int>, crosses: bool, color: int) {
    if color == -1 then forall c | c in Preference(crosses) :: c in taken
    else exists i | 0 <= i < |Preference(crosses)| ::
      Preference(crosses)[i] == color && color !in taken && forall j | 0 <= j < i :: Preference(crosses)[j] in taken
  }

  /** The first free colour in the allocator's order of preference, or -1. */
  method PickColor(used: array<bool>, crosses: bool) returns (color: int)
    requires used.Length == NUM_PHYS_REGS
    ensures -1 <= color < NUM_PHYS_REGS
    ensures color != -1 ==> !used[color]
    ensures crosses ==> color < CALLEE_SAVED
    ensures color == -1 ==> forall c | 0 <= c < (if crosses then CALLEE_SAVED else NUM_PHYS_REGS) :: used[c]
    ensures FirstChoice(TakenBy(used[..]), crosses, color)
  {
    color := -1;
    if !crosses {
      color := FirstFree(used, CALLEE_SAVED, NUM_PHYS_REGS);
      if color == -1 {
        color := FirstFree(used, 0, CALLEE_SAVED);
      }
    } else {
      color := FirstFree(used, 0, CALLEE_SAVED);
    }
    FirstIsChosen(used[..], crosses, color);
  }

  ghost function TakenBy(used: seq<bool>): set<int> { set c | 0 <= c < |used| && used[c] }

  lemma FirstIsChosen(used: seq<bool>, crosses: bool, color: int)
    requires |used| == 11 && -1 <= color < if crosses then 7 else 11
    requires color == -1 ==> forall c | 0 <= c < (if crosses then 7 else 11) :: used[c]
    requires color != -1 ==> !used[color] && forall c | (if color < 7 then 0 else 7) <= c < color :: used[c]
    requires !crosses && 0 <= color < 7 ==> forall c | 7 <= c < 11 :: used[c]
    ensures FirstChoice(TakenBy(used), crosses, color)
  {
    var order := Preference(crosses);
    if color != -1 {
      var i := if crosses then color else if color >= 7 then color - 7 else color + 4;
      assert order[i] == color;
      forall j | 0 <= j < i
        ensures order[j] in TakenBy(used)
      {
        assert used[order[j]];
      }
    }
  }

  method FirstFree(used: array<bool>, lo: nat, hi: nat) returns (color: int)
    requires lo <= hi <= used.Length
    ensures color == -1 || (lo <= color < hi && !used[color] && forall c | lo <= c < color :: used[c])
    ensures color == -1 ==> forall c | lo <= c < hi :: used[c]
  {
    for c := lo to hi
      invariant forall c' | lo <= c' < c :: used[c']
    {
      if !used[c] { return c; }
    }
    return -1;
  }

  method UsedColors(maxVreg: nat, node: nat, adj: array2<bool>, colors: array<int>) returns (used: array<bool>)
    requires node <= maxVreg && colors.Length == maxVreg + 1 && adj.Length0 == maxVreg + 1 && adj.Length1 == maxVreg + 1
    requires forall v | 1 <= v <= maxVreg :: -1 <= colors[v] < NUM_PHYS_REGS
    ensures fresh(used) && used.Length == NUM_PHYS_REGS
    ensures forall c | 0 <= c < NUM_PHYS_REGS ::
      used[c] <==> exists j | 1 <= j <= maxVreg :: adj[node, j] && colors[j] == c
  {
    used := new bool[NUM_PHYS_REGS](i => false);
    for j := 1 to maxVreg + 1
      invariant forall c | 0 <= c < NUM_PHYS_REGS ::
        used[c] <==> exists i | 1 <= i < j :: adj[node, i] && colors[i] == c
    {
      if adj[node, j] {
        var c := colors[j];
        if c != -1 { used[c] := true; }
      }
    }
  }

  ghost predicate Covers(nodes: set<nat>, color: map<nat, int>, c: int) {
    exists v :: v in nodes && v in color && color[v] == c
  }

  /** Covering `k` colours takes at least `k` nodes. */
  lemma {:induction false} CoverNeeds(nodes: set<nat>, color: map<nat, int>, k: nat)
    requires forall c | 0 <= c < k :: Covers(nodes, color, c)
    ensures |nodes| >= k
  {
    if k > 0 {
      assert Covers(nodes, color, k - 1);
      var v :| v in nodes && v in color && color[v] == k - 1;
      var rest := nodes - {v};
      forall c | 0 <= c < k - 1
        ensures Covers(rest, color, c)
      {
        assert Covers(nodes, color, c);
        var u :| u in nodes && u in color && color[u] == c;
        assert u in rest;
      }
      CoverNeeds(rest, color, k - 1);
    }
  }

  /** No edge joins two nodes of the same colour, and colours respect calls. */
  ghost predicate Proper(edges: set<(nat, nat)>, maxVreg: nat, crosses: array<bool>, colors: array<int>)
    requires crosses.Length == maxVreg + 1 && colors.Length == maxVreg + 1
    reads crosses, colors
  {
    && (forall v | 1 <= v <= maxVreg :: -1 <= colors[v] < if crosses[v] then CALLEE_SAVED else NUM_PHYS_REGS)
    && (forall u: nat, v: nat | 1 <= u <= maxVreg && 1 <= v <= maxVreg && (u, v) in edges ::
      colors[u] == -1 || colors[u] != colors[v])
  }

  /** How many colours a node can be given. */
  function Palette(crosses: bool): nat { if crosses then CALLEE_SAVED else NUM_PHYS_REGS }

  /** The colours of the neighbours of `stack[k]` that are above it. */
  ghost function ColorsAbove(edges: set<(nat, nat)>, maxVreg: nat, stack: seq<nat>, k: nat, colors: seq<int>): set<int>
    requires k < |stack| && |colors| == maxVreg + 1
  {
    set v | v in Later(edges, maxVreg, stack, k) && colors[v] != -1 :: colors[v]
  }

  /** From the top down to `stack[low]`, every node has the first colour its neighbours above leave. */
  ghost predicate ColoredInTurn(edges: set<(nat, nat)>, maxVreg: nat, stack: seq<nat>, low: nat, crosses: seq<bool>,
        colors: seq<int>)
    requires |crosses| == |colors| == maxVreg + 1
  {
    forall k | low <= k < |stack| :: stack[k] <= maxVreg
      && FirstChoice(ColorsAbove(edges, maxVreg, stack, k, colors), crosses[stack[k]], colors[stack[k]])
  }

  lemma NoneColored(edges: set<(nat, nat)>, maxVreg: nat, stack: seq<nat>, crosses: seq<bool>, colors: seq<int>)
    requires |crosses| == |colors| == maxVreg + 1
    ensures ColoredInTurn(edges, maxVreg, stack, |stack|, crosses, colors)
  {}

  lemma OneMoreColored(edges: set<(nat, nat)>, maxVreg: nat, stack: seq<nat>, k: nat, crosses: seq<bool>,
        before: seq<int>, colors: seq<int>)
    requires |crosses| == |before| == |colors| == maxVreg + 1 && Distinct(stack) && k < |stack| && stack[k] <= maxVreg
    requires ColoredInTurn(edges, maxVreg, stack, k + 1, crosses, before)
    requires forall v | 0 <= v <= maxVreg && v != stack[k] :: colors[v] == before[v]
    requires FirstChoice(ColorsAbove(edges, maxVreg, stack, k, before), crosses[stack[k]], colors[stack[k]])
    ensures ColoredInTurn(edges, maxVreg, stack, k, crosses, colors)
  {
    hide FirstChoice;
    forall j | k <= j < |stack|
      ensures stack[j] <= maxVreg
      ensures FirstChoice(ColorsAbove(edges, maxVreg, stack, j, colors), crosses[stack[j]], colors[stack[j]])
    {
      NotAbove(stack, k, j);
      assert forall v | v in Later(edges, maxVreg, stack, j) :: colors[v] == before[v];
      assert ColorsAbove(edges, maxVreg, stack, j, colors) == ColorsAbove(edges, maxVreg, stack, j, before);
    }
  }

  lemma NotAbove(stack: seq<nat>, k: nat, j: nat)
    requires Distinct(stack) && k <= j < |stack|
    ensures stack[k] !in stack[j + 1..]
  {
    forall i | j < i < |stack| ensures stack[i] != stack[k] {}
  }

  /** Pops and colours.  The colouring is proper, a register that crosses a call never gets a
      caller-saved colour, and a register pushed with fewer neighbours than it has colours to choose
      from is never spilled.  Every register gets the first colour that is left when its turn comes. */
  method Select(maxVreg: nat, stack: array<nat>, top0: nat, adj: array2<bool>, crosses: array<bool>,
        colors: array<int>, usedRegs: array<bool>)
    requires crosses.Length == maxVreg + 1 && colors.Length == maxVreg + 1
    requires adj.Length0 == maxVreg + 1 && adj.Length1 == maxVreg + 1
    requires usedRegs.Length == NUM_PHYS_REGS && usedRegs != crosses
    requires top0 <= stack.Length && Distinct(stack[..top0]) && forall k | 0 <= k < top0 :: 1 <= stack[k] <= maxVreg
    requires Symmetric(On(adj)) && (forall v: nat :: (v, v) !in On(adj))
    requires forall v | 0 <= v <= maxVreg :: colors[v] == -1
    requires forall c | 0 <= c < NUM_PHYS_REGS :: !usedRegs[c]
    modifies colors, usedRegs
    ensures Proper(On(adj), maxVreg, crosses, colors)
    ensures forall k | 0 <= k < top0 ::
      colors[stack[k]] == -1 ==> |Later(On(adj), maxVreg, stack[..top0], k)| >= Palette(crosses[stack[k]])
    ensures forall c | 0 <= c < NUM_PHYS_REGS :: usedRegs[c] <==> exists v | 1 <= v <= maxVreg :: colors[v] == c
    ensures forall v | 0 <= v <= maxVreg && v !in stack[..top0] :: colors[v] == -1
    ensures ColoredInTurn(On(adj), maxVreg, stack[..top0], 0, crosses[..], colors[..])
  {
    hide FirstChoice, ColorsAbove, ColoredInTurn, Later, Symmetric, On;
    var top := top0;
    ghost var nodes := stack[..top0];
    NoneColored(On(adj), maxVreg, nodes, crosses[..], colors[..]);
    while top > 0
      invariant 0 <= top <= top0
      invariant Proper(On(adj), maxVreg, crosses, colors)
      invariant forall v | 0 <= v <= maxVreg && v !in nodes[top..] :: colors[v] == -1
      invariant forall k | top <= k < top0 ::
        colors[nodes[k]] == -1 ==> |Later(On(adj), maxVreg, nodes, k)| >= Palette(crosses[nodes[k]])
      invariant forall c | 0 <= c < NUM_PHYS_REGS :: usedRegs[c] <==> exists v | 1 <= v <= maxVreg :: colors[v] == c
      invariant ColoredInTurn(On(adj), maxVreg, nodes, top, crosses[..], colors[..])
    {
      ghost var before := colors[..];
      top := top - 1;
      assert nodes[top..] == [nodes[top]] + nodes[top + 1..];
      ColorNode(maxVreg, nodes, top, stack[top], adj, crosses, colors, usedRegs);
      OneMoreColored(On(adj), maxVreg, nodes, top, crosses[..], before, colors[..]);
    }
  }

  method ColorNode(maxVreg: nat, ghost stack: seq<nat>, ghost k: nat, node: nat, adj: array2<bool>,
        crosses: array<bool>, colors: array<int>, usedRegs: array<bool>)
    requires crosses.Length == maxVreg + 1 && colors.Length == maxVreg + 1
    requires adj.Length0 == maxVreg + 1 && adj.Length1 == maxVreg + 1
    requires usedRegs.Length == NUM_PHYS_REGS && usedRegs != crosses
    requires k < |stack| && Distinct(stack) && stack[k] == node
    requires forall i | 0 <= i < |stack| :: 1 <= stack[i] <= maxVreg
    requires Symmetric(On(adj)) && (forall v: nat :: (v, v) !in On(adj))
    requires Proper(On(adj), maxVreg, crosses, colors)
    requires forall v | 0 <= v <= maxVreg && v !in stack[k + 1..] :: colors[v] == -1
    requires forall c | 0 <= c < NUM_PHYS_REGS :: usedRegs[c] <==> exists v | 1 <= v <= maxVreg :: colors[v] == c
    modifies colors, usedRegs
    ensures Proper(On(adj), maxVreg, crosses, colors)
    ensures forall v | 0 <= v <= maxVreg && v != node :: colors[v] == old(colors[v])
    ensures colors[node] == -1 ==> |Later(On(adj), maxVreg, stack, k)| >= Palette(crosses[node])
    ensures FirstChoice(ColorsAbove(On(adj), maxVreg, stack, k, old(colors[..])), crosses[node], colors[node])
    ensures forall c | 0 <= c < NUM_PHYS_REGS :: usedRegs[c] <==> exists v | 1 <= v <= maxVreg :: colors[v] == c
  {
    hide FirstChoice, ColorsAbove;
    assert node !in stack[k + 1..] by {
      forall i | k < i < |stack| ensures stack[i] != node {}
    }
    var used := UsedColors(maxVreg, node, adj, colors);
    var color := PickColor(used, crosses[node]);
    TakenAbove(maxVreg, stack, k, adj, colors, used);
    if color == -1 {
      ghost var colorOf := map v: nat | v <= maxVreg :: colors[v];
      forall c | 0 <= c < Palette(crosses[node])
        ensures NeighbourHas(maxVreg, node, On(adj), colorOf, c)
      {
        assert used[c];
        var j :| 1 <= j <= maxVreg && adj[node, j] && colors[j] == c;
        assert (node, j) in On(adj);
      }
      SpillIsForced(maxVreg, stack, k, On(adj), colorOf, Palette(crosses[node]));
    }
    SetColor(maxVreg, node, color, colors, usedRegs);
    forall v: nat | 1 <= v <= maxVreg && (node, v) in On(adj)
      ensures color == -1 || color != colors[v]
    {
      assert adj[node, v];
    }
  }

  /** The colours in use around a node are those of its neighbours above it. */
  lemma TakenAbove(maxVreg: nat, stack: seq<nat>, k: nat, adj: array2<bool>, colors: array<int>, used: array<bool>)
    requires colors.Length == maxVreg + 1 && adj.Length0 == maxVreg + 1 && adj.Length1 == maxVreg + 1
    requires used.Length == NUM_PHYS_REGS && k < |stack| && forall i | 0 <= i < |stack| :: 1 <= stack[i] <= maxVreg
    requires forall v | 1 <= v <= maxVreg :: -1 <= colors[v] < NUM_PHYS_REGS
    requires forall v | 0 <= v <= maxVreg && v !in stack[k + 1..] :: colors[v] == -1
    requires forall c | 0 <= c < NUM_PHYS_REGS ::
      used[c] <==> exists j | 1 <= j <= maxVreg :: adj[stack[k], j] && colors[j] == c
    ensures TakenBy(used[..]) == ColorsAbove(On(adj), maxVreg, stack, k, colors[..])
  {
    var above := ColorsAbove(On(adj), maxVreg, stack, k, colors[..]);
    forall c | c in TakenBy(used[..])
      ensures c in above
    {
      var j :| 1 <= j <= maxVreg && adj[stack[k], j] && colors[j] == c;
      assert (stack[k], j) in On(adj) && j in Later(On(adj), maxVreg, stack, k) && colors[..][j] == c;
    }
    forall c | c in above
      ensures c in TakenBy(used[..])
    {
      var v :| v in Later(On(adj), maxVreg, stack, k) && colors[v] != -1 && colors[v] == c;
      assert (stack[k], v) in On(adj) && v >= 1;
      assert adj[stack[k], v] && used[c];
    }
  }

  method SetColor(maxVreg: nat, node: nat, color: int, colors: array<int>, usedRegs: array<bool>)
    requires colors.Length == maxVreg + 1 && usedRegs.Length == NUM_PHYS_REGS
    requires 1 <= node <= maxVreg && colors[node] == -1 && -1 <= color < NUM_PHYS_REGS
    requires forall c | 0 <= c < NUM_PHYS_REGS :: usedRegs[c] <==> exists v | 1 <= v <= maxVreg :: colors[v] == c
    modifies colors, usedRegs
    ensures colors[node] == color && forall v | 0 <= v <= maxVreg && v != node :: colors[v] == old(colors[v])
    ensures forall c | 0 <= c < NUM_PHYS_REGS :: usedRegs[c] <==> exists v | 1 <= v <= maxVreg :: colors[v] == c
  {
    colors[node] := color;
    if color != -1 {
      usedRegs[color] := true;
    }
    forall c | 0 <= c < NUM_PHYS_REGS
      ensures usedRegs[c] <==> exists v | 1 <= v <= maxVreg :: colors[v] == c
    {
      if old(usedRegs[c]) {
        var v :| 1 <= v <= maxVreg && old(colors[v]) == c;
        assert colors[v] == c;
      }
      if c == color { assert colors[node] == c; }
    }
  }

  ghost predicate NeighbourHas(maxVreg: nat, node: nat, edges: set<(nat, nat)>, color: map<nat, int>, c: int) {
    exists j: nat :: j <= maxVreg && j in color && (node, j) in edges && color[j] == c
  }

  /** If every colour a node may take is used by a coloured neighbour, it was pushed with at least
      that many neighbours. */
  lemma SpillIsForced(maxVreg: nat, stack: seq<nat>, k: nat, edges: set<(nat, nat)>, color: map<nat, int>, palette: nat)
    requires k < |stack|
    requires forall v | v in color && v !in stack[k + 1..] :: color[v] == -1
    requires forall c | 0 <= c < palette :: NeighbourHas(maxVreg, stack[k], edges, color, c)
    ensures |Later(edges, maxVreg, stack, k)| >= palette
  {
    var nodes := Later(edges, maxVreg, stack, k);
    forall c | 0 <= c < palette
      ensures Covers(nodes, color, c)
    {
      assert NeighbourHas(maxVreg, stack[k], edges, color, c);
      var j: nat :| j <= maxVreg && j in color && (stack[k], j) in edges && color[j] == c;
      assert j in nodes;
    }
    CoverNeeds(nodes, color, palette);
  }
}
