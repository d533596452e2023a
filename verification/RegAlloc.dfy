/** The graph-colouring register allocator: liveness, interference, colouring and spill slots. */
module RegAlloc {
  import opened Sir
  import opened Liveness
  import opened Interference
  import opened Coloring
  import Prune

  // ---------------------------------------------------------------------------------------------
  // What an allocation must satisfy

  /** Registers that are needed at the same time have different colours, and a register that must
      survive a call is in a callee-saved register or on the stack (-1). */
  ghost predicate ValidAllocation(f: Func, maxVreg: nat, colors: seq<int>) {
    && |colors| == maxVreg + 1
    && (forall v | 1 <= v <= maxVreg :: -1 <= colors[v] < NUM_PHYS_REGS)
    && (forall u: nat, v: nat | 1 <= u <= maxVreg && 1 <= v <= maxVreg && Interferes(f, u, v) ::
          colors[u] == -1 || colors[u] != colors[v])
    && (forall v | 1 <= v <= maxVreg && CrossesCall(f, v) :: colors[v] < CALLEE_SAVED)
  }

  ghost predicate Mentioned(f: Func, blocks: set<nat>, v: nat) {
    exists b :: b in blocks && b in f.body && Mentions(f.body[b], v) > 0
  }

  /** Registers that interfere with `order[k]` and come after it in `order`. */
  ghost function LaterNeighbours(f: Func, order: seq<nat>, k: nat): set<nat>
    requires k < |order|
  {
    set v | v in order[k + 1..] && Interferes(f, order[k], v)
  }

  /** A register is spilled only if, in the order of elimination, at least as many of its neighbours
      were eliminated after it as there are colours it may take. */
  ghost predicate SpillsAreForced(f: Func, maxVreg: nat, order: seq<nat>, colors: seq<int>) {
    && |colors| == maxVreg + 1
    && Distinct(order) && (forall v: nat :: v in order <==> 1 <= v <= maxVreg && Mentioned(f, f.body.Keys, v))
    && forall k | 0 <= k < |order| ::
         && order[k] <= maxVreg
         && (colors[order[k]] == -1 ==> |LaterNeighbours(f, order, k)| >= Palette(CrossesCall(f, order[k])))
  }

  ghost function EdgesOf(f: Func, maxVreg: nat): set<(nat, nat)> {
    set u: nat, v: nat | 1 <= u <= maxVreg && 1 <= v <= maxVreg && Interferes(f, u, v) :: (u, v)
  }

  /** How often the first `n` blocks mention a register. */
  ghost function MentionsBefore(f: Func, n: nat, v: nat): nat
    requires n <= |f.order|
  {
    if n == 0 then 0
    else MentionsBefore(f, n - 1, v) + if f.order[n - 1] in f.body then Mentions(f.body[f.order[n - 1]], v) else 0
  }

  ghost function UsesOf(f: Func, maxVreg: nat): seq<nat> {
    seq(maxVreg + 1, (v: nat) => MentionsBefore(f, |f.order|, v))
  }

  /** Registers were eliminated in the order the heuristic prescribes, and coloured in reverse, each with the first
      colour that its neighbours coloured before it leave. */
  ghost predicate FollowsHeuristic(f: Func, maxVreg: nat, order: seq<nat>, colors: seq<int>) {
    && |colors| == maxVreg + 1
    && InOrder(EdgesOf(f, maxVreg), maxVreg, UsesOf(f, maxVreg), order)
    && forall k | 0 <= k < |order| ::
         && 1 <= order[k] <= maxVreg
         && FirstChoice(ColorsAbove(EdgesOf(f, maxVreg), maxVreg, order, k, colors), CrossesCall(f, order[k]),
                        colors[order[k]])
  }

  // ---------------------------------------------------------------------------------------------
  // Registers on an edge occur in the function

  lemma {:induction false} MentionsOperand(insts: seq<Inst>, k: nat, v: nat)
    requires k < |insts| && (VReg(v) in insts[k].ops || insts[k].dest == Some(v))
    ensures Mentions(insts, v) > 0
  {
    if k < |insts| - 1 {
      MentionsOperand(insts[..|insts| - 1], k, v);
    }
  }

  lemma LiveInIsMentioned(f: Func, s: nat, v: nat)
    requires IsLiveIn(f, s, v)
    ensures Mentioned(f, f.body.Keys, v)
  {
    var path :| IsReadPath(f, path, v) && path[0] == s;
    ReadIsMentioned(f.body[path[|path| - 1]], v);
  }

  lemma ReadIsMentioned(insts: seq<Inst>, v: nat)
    requires ReadsFirst(insts, v)
    ensures Mentions(insts, v) > 0
  {
    var k :| 0 <= k < |insts| && VReg(v) in insts[k].ops && !Writes(insts[..k], v);
    MentionsOperand(insts, k, v);
  }

  lemma {:induction false} LiveIsMentioned(f: Func, b: nat, i: nat, v: nat)
    requires WellFormed(f) && b in f.body && i <= |f.body[b]| && LiveBefore(f, b, i, v)
    ensures Mentioned(f, f.body.Keys, v)
    decreases |f.body[b]| - i
  {
    if i == |f.body[b]| {
      var s :| s in Successors(f.body[b]) && IsLiveIn(f, s, v);
      LiveInIsMentioned(f, s, v);
    } else if VReg(v) in f.body[b][i].ops {
      MentionsOperand(f.body[b], i, v);
    } else {
      LiveIsMentioned(f, b, i + 1, v);
    }
  }

  lemma EdgeIsMentioned(f: Func, u: nat, v: nat)
    requires WellFormed(f) && Interferes(f, u, v)
    ensures Mentioned(f, f.body.Keys, u) && Mentioned(f, f.body.Keys, v)
  {
    var b: nat, k: nat :| Clashes(f, b, k, u, v) || Clashes(f, b, k, v, u);
    var d, other := if Clashes(f, b, k, u, v) then u else v, if Clashes(f, b, k, u, v) then v else u;
    MentionsOperand(f.body[b], k, d);
    LiveIsMentioned(f, b, k + 1, other);
  }

  // ---------------------------------------------------------------------------------------------
  // The allocator

  /** The matrix and the crossing marks are exact. */
  ghost predicate GraphIsExact(f: Func, maxVreg: nat, edges: set<(nat, nat)>, crosses: array<bool>)
    requires crosses.Length == maxVreg + 1
    reads crosses
  {
    && Inner(edges) && (forall u: nat, v: nat :: (u, v) in edges ==> u <= maxVreg && v <= maxVreg)
    && (forall u: nat, v: nat | 1 <= u <= maxVreg && 1 <= v <= maxVreg :: (u, v) in edges <==> Interferes(f, u, v))
    && (forall v | 1 <= v <= maxVreg :: crosses[v] <==> CrossesCall(f, v))
  }

  lemma EdgesOccur(f: Func, maxVreg: nat, edges: set<(nat, nat)>, useCount: array<nat>)
    requires WellFormed(f) && useCount.Length == maxVreg + 1
    requires Inner(edges) && forall u: nat, v: nat :: (u, v) in edges ==> u <= maxVreg && v <= maxVreg
    requires forall u: nat, v: nat | 1 <= u <= maxVreg && 1 <= v <= maxVreg :: (u, v) in edges ==> Interferes(f, u, v)
    requires forall v | 0 <= v <= maxVreg :: useCount[v] > 0 <==> Mentioned(f, f.body.Keys, v)
    ensures forall u: nat, v: nat :: (u, v) in edges ==> 1 <= v <= maxVreg && useCount[v] > 0
    ensures forall v: nat :: (v, v) !in edges
  {
    forall u: nat, v: nat | (u, v) in edges
      ensures 1 <= v <= maxVreg && useCount[v] > 0 && u != v
    {
      EdgeIsMentioned(f, u, v);
      var b: nat, k: nat :| Clashes(f, b, k, u, v) || Clashes(f, b, k, v, u);
    }
  }

  lemma ProperIsValid(f: Func, maxVreg: nat, edges: set<(nat, nat)>, crosses: array<bool>, colors: array<int>)
    requires crosses.Length == maxVreg + 1 && colors.Length == maxVreg + 1
    requires GraphIsExact(f, maxVreg, edges, crosses) && Proper(edges, maxVreg, crosses, colors)
    ensures ValidAllocation(f, maxVreg, colors[..])
  {}

  lemma HeuristicFollowed(f: Func, maxVreg: nat, edges: set<(nat, nat)>, uses: seq<nat>, order: seq<nat>,
        crosses: array<bool>, colors: array<int>)
    requires crosses.Length == maxVreg + 1 && colors.Length == maxVreg + 1
    requires GraphIsExact(f, maxVreg, edges, crosses) && uses == UsesOf(f, maxVreg)
    requires InOrder(edges, maxVreg, uses, order) && ColoredInTurn(edges, maxVreg, order, 0, crosses[..], colors[..])
    requires forall k | 0 <= k < |order| :: 1 <= order[k] <= maxVreg
    ensures FollowsHeuristic(f, maxVreg, order, colors[..])
  {
    hide InOrder, FirstChoice, ColorsAbove, UsesOf, Interferes, CrossesCall;
    assert edges == EdgesOf(f, maxVreg) by {
      forall x: (nat, nat)
        ensures x in edges <==> x in EdgesOf(f, maxVreg)
      {
        var (u, v) := x;
        assert (u, v) == x;
      }
    }
  }

  lemma ForcedSpills(f: Func, maxVreg: nat, edges: set<(nat, nat)>, order: seq<nat>, crosses: array<bool>,
        colors: array<int>)
    requires crosses.Length == maxVreg + 1 && colors.Length == maxVreg + 1
    requires GraphIsExact(f, maxVreg, edges, crosses) && Distinct(order)
    requires forall v: nat :: v in order <==> 1 <= v <= maxVreg && Mentioned(f, f.body.Keys, v)
    requires forall k | 0 <= k < |order| ::
      1 <= order[k] <= maxVreg &&
        (colors[order[k]] == -1 ==> |Later(edges, maxVreg, order, k)| >= Palette(crosses[order[k]]))
    ensures SpillsAreForced(f, maxVreg, order, colors[..])
  {
    forall k | 0 <= k < |order| && colors[order[k]] == -1
      ensures |LaterNeighbours(f, order, k)| >= Palette(CrossesCall(f, order[k]))
    {
      assert forall v | v in order[k + 1..] :: v in order;
      assert Later(edges, maxVreg, order, k) == LaterNeighbours(f, order, k);
    }
  }

  datatype Slot = Slot(offset: int, size: int)

  predicate Apart(a: Slot, b: Slot) { a.offset + a.size <= b.offset || b.offset + b.size <= a.offset }

  predicate Holds(s: Slot, a: int) { s.offset <= a < s.offset + s.size }

  predicate InSlot(slots: map<nat, Slot>, a: int) { exists v | v in slots :: Holds(slots[v], a) }

  /** Slots lie in the used part of the frame, do not overlap, and fill it. */
  ghost predicate SlotsOk(currentOffset: int, slots: map<nat, Slot>) {
    && currentOffset >= 0
    && (forall v | v in slots :: slots[v].size >= 8 && -currentOffset <= slots[v].offset <= -slots[v].size)
    && (forall u, v | u in slots && v in slots && u != v :: Apart(slots[u], slots[v]))
    && (forall a | -currentOffset <= a < 0 :: InSlot(slots, a))
  }

  lemma ZeroIsFree(currentOffset: int, slots: map<nat, Slot>)
    requires SlotsOk(currentOffset, slots)
    ensures forall v | v in slots :: slots[v].offset < 0
  {}

  lemma SlotFits(currentOffset: int, slots: map<nat, Slot>, v: nat, size: int)
    requires SlotsOk(currentOffset, slots) && v !in slots && size >= 8
    ensures SlotsOk(currentOffset + size, slots[v := Slot(-(currentOffset + size), size)])
  {
    var s := Slot(-(currentOffset + size), size);
    var after := slots[v := s];
    forall a | -(currentOffset + size) <= a < 0
      ensures InSlot(after, a)
    {
      if a < -currentOffset {
        assert Holds(after[v], a);
      } else {
        assert InSlot(slots, a);
        var u :| u in slots && Holds(slots[u], a);
        assert Holds(after[u], a);
      }
    }
  }

  /** Simplify and select on the finished graph. */
  method ColorGraph(f: Func, maxVreg: nat, adj: array2<bool>, degree: array<int>, useCount: array<nat>,
        crosses: array<bool>, colors: array<int>, usedRegs: array<bool>)
    returns (ghost elimination: seq<nat>)
    requires WellFormed(f) && degree.Length == maxVreg + 1 && useCount.Length == maxVreg + 1
    requires crosses.Length == maxVreg + 1
    requires colors.Length == maxVreg + 1 && usedRegs.Length == NUM_PHYS_REGS && usedRegs != crosses && colors != degree
    requires adj.Length0 == maxVreg + 1 && adj.Length1 == maxVreg + 1
    requires Symmetric(On(adj)) && DegreesMatch(On(adj), degree, maxVreg) && GraphIsExact(f, maxVreg, On(adj), crosses)
    requires forall v | 0 <= v <= maxVreg :: useCount[v] > 0 <==> Mentioned(f, f.body.Keys, v)
    requires useCount[..] == UsesOf(f, maxVreg)
    requires (forall v | 0 <= v <= maxVreg :: colors[v] == -1) && forall c | 0 <= c < NUM_PHYS_REGS :: !usedRegs[c]
    modifies degree, colors, usedRegs
    ensures ValidAllocation(f, maxVreg, colors[..]) && SpillsAreForced(f, maxVreg, elimination, colors[..])
    ensures FollowsHeuristic(f, maxVreg, elimination, colors[..])
    ensures forall c | 0 <= c < NUM_PHYS_REGS :: usedRegs[c] <==> exists v | 1 <= v <= maxVreg :: colors[v] == c
  {
    EdgesOccur(f, maxVreg, On(adj), useCount);
    var stack, top := Simplify(maxVreg, useCount, adj, degree);
    elimination := stack[..top];
    assert forall k | 0 <= k < top :: stack[k] in elimination;
    Coloring.Select(maxVreg, stack, top, adj, crosses, colors, usedRegs);
    ProperIsValid(f, maxVreg, On(adj), crosses, colors);
    ForcedSpills(f, maxVreg, On(adj), elimination, crosses, colors);
    HeuristicFollowed(f, maxVreg, On(adj), useCount[..], elimination, crosses, colors);
  }

  class RegAllocator {
    const maxVreg: nat
    var currentOffset: int
    const vregOffsets: array<int>
    const vregColors: array<int>
    const adjMatrix: array2<bool>
    const degree: array<int>
    const useCount: array<nat>
    const crossesCall: array<bool>
    const usedCalleeSaved: array<bool>

    /** The stack slots handed out so far. */
    ghost var slots: map<nat, Slot>

    ghost predicate Valid()
      reads this, vregOffsets
    {
      && vregOffsets.Length == maxVreg + 1 && vregColors.Length == maxVreg + 1
      && adjMatrix.Length0 == maxVreg + 1 && adjMatrix.Length1 == maxVreg + 1
      && degree.Length == maxVreg + 1 && useCount.Length == maxVreg + 1
      && crossesCall.Length == maxVreg + 1 && usedCalleeSaved.Length == NUM_PHYS_REGS && usedCalleeSaved != crossesCall
      && vregOffsets != vregColors && vregOffsets != degree && vregColors != degree
      && currentOffset >= 0
      && SlotsOk(currentOffset, slots)
      && (forall v | v in slots :: v <= maxVreg)
      && (forall v | 0 <= v <= maxVreg :: vregOffsets[v] == if v in slots then slots[v].offset else 0)
    }

    ghost predicate Fresh()
      requires Valid()
      reads this, vregOffsets, vregColors, adjMatrix, degree, useCount, crossesCall, usedCalleeSaved
    {
      && On(adjMatrix) == {}
      && (forall v | 0 <= v <= maxVreg :: vregColors[v] == -1 && degree[v] == 0 && useCount[v] == 0 && !crossesCall[v])
      && (forall c | 0 <= c < NUM_PHYS_REGS :: !usedCalleeSaved[c])
    }

    constructor (maxVreg: nat)
      ensures Valid() && Fresh() && this.maxVreg == maxVreg && slots == map[] && currentOffset == 0
      ensures fresh(vregColors) && fresh(adjMatrix) && fresh(degree) && fresh(useCount) && fresh(crossesCall)
      ensures fresh(usedCalleeSaved)
    {
      this.maxVreg := maxVreg;
      currentOffset := 0;
      slots := map[];
      vregOffsets := new int[maxVreg + 1](i => 0);
      vregColors := new int[maxVreg + 1](i => -1);
      adjMatrix := new bool[maxVreg + 1, maxVreg + 1]((i, j) => false);
      degree := new int[maxVreg + 1](i => 0);
      useCount := new nat[maxVreg + 1](i => 0);
      crossesCall := new bool[maxVreg + 1](i => false);
      usedCalleeSaved := new bool[NUM_PHYS_REGS](i => false);
    }

    /** Liveness of the whole function, with the use counts filled in. */
    method Analyse(f: Func) returns (liveOut: array2<bool>)
      requires Valid() && WellFormed(f)
      requires forall v | 0 <= v <= maxVreg :: useCount[v] == 0
      modifies useCount
      ensures fresh(liveOut) && liveOut.Length1 == maxVreg + 1 && forall b | b in f.body :: b < liveOut.Length0
      ensures forall b, v | b in f.body && 1 <= v <= maxVreg :: liveOut[b, v] <==> IsLiveOut(f, b, v)
      ensures forall v | 0 <= v <= maxVreg :: useCount[v] > 0 <==> Mentioned(f, f.body.Keys, v)
      ensures useCount[..] == UsesOf(f, maxVreg)
    {
      var maxBlockId := Prune.MaxBlockId(f);
      var liveIn := new bool[maxBlockId + 1, maxVreg + 1]((i, j) => false);
      liveOut := new bool[maxBlockId + 1, maxVreg + 1]((i, j) => false);
      var uses, defs := GatherUseDef(f, maxVreg, useCount);
      Solve(f, maxVreg, uses, defs, liveIn, liveOut);
    }

    /** Allocates registers; at optimization level 0 everything stays on the stack. */
    method BuildAndColor(f: Func, optLevel: int) returns (ghost elimination: seq<nat>)
      requires Valid() && Fresh() && WellFormed(f) && Numbered(f, maxVreg)
      modifies vregColors, adjMatrix, degree, useCount, crossesCall, usedCalleeSaved
      ensures Valid()
      ensures ValidAllocation(f, maxVreg, vregColors[..])
      ensures optLevel == 0 ==> forall v | 0 <= v <= maxVreg :: vregColors[v] == -1
      ensures optLevel != 0 ==> SpillsAreForced(f, maxVreg, elimination, vregColors[..])
      ensures optLevel != 0 ==> FollowsHeuristic(f, maxVreg, elimination, vregColors[..])
      ensures forall c | 0 <= c < NUM_PHYS_REGS ::
        usedCalleeSaved[c] <==> exists v | 1 <= v <= maxVreg :: vregColors[v] == c
    {
      if optLevel == 0 { return []; }
      var liveOut := Analyse(f);
      Build(f, maxVreg, liveOut, adjMatrix, degree, crossesCall);
      elimination := ColorGraph(f, maxVreg, adjMatrix, degree, useCount, crossesCall, vregColors, usedCalleeSaved);
    }

    method GetColor(vreg: nat) returns (color: int)
      requires Valid()
      ensures color == if vreg > maxVreg then -1 else vregColors[vreg]
    {
      if vreg > maxVreg { return -1; }
      return vregColors[vreg];
    }

    /** The register's slot below the frame pointer: handed out once, never overlapping another. */
    method GetOffset(vreg: nat, size: int) returns (offset: int)
      requires Valid()
      modifies this`currentOffset, this`slots, vregOffsets
      ensures Valid()
      ensures vreg > maxVreg ==> offset == 0 && slots == old(slots)
      ensures vreg <= maxVreg ==>
        vreg in slots && offset == slots[vreg].offset && slots.Keys == old(slots.Keys) + {vreg}
      ensures vreg <= maxVreg && vreg !in old(slots) ==> slots[vreg].size == if size < 8 then 8 else size
      ensures forall v | v in old(slots) :: v in slots && slots[v] == old(slots[v])
    {
      hide SlotsOk;
      if vreg > maxVreg { return 0; }
      if vregOffsets[vreg] == 0 {
        ZeroIsFree(currentOffset, slots);
        var alignedSize := if size < 8 then 8 else size;
        SlotFits(currentOffset, slots, vreg, alignedSize);
        currentOffset := currentOffset + alignedSize;
        vregOffsets[vreg] := -currentOffset;
        slots := slots[vreg := Slot(-currentOffset, alignedSize)];
      }
      return vregOffsets[vreg];
    }
  }

  /** The use and def lists are right for the blocks listed. */
  ghost predicate ListsOk(f: Func, maxVreg: nat, blocks: set<nat>, uses: map<nat, seq<nat>>, defs: map<nat, seq<nat>>) {
    && uses.Keys == blocks && defs.Keys == blocks && blocks <= f.body.Keys
    && (forall b, v: nat | b in blocks :: v in uses[b] <==> v <= maxVreg && ReadsFirst(f.body[b], v))
    && (forall b, v: nat | b in blocks :: v in defs[b] <==> v <= maxVreg && Writes(f.body[b], v))
  }

  lemma MentionedStep(f: Func, blocks: set<nat>, b: nat, v: nat)
    requires b in f.body
    ensures Mentioned(f, blocks + {b}, v) <==> Mentioned(f, blocks, v) || Mentions(f.body[b], v) > 0
  {
    assert b in blocks + {b};
  }

  lemma ListsStep(f: Func, maxVreg: nat, blocks: set<nat>, uses: map<nat, seq<nat>>, defs: map<nat, seq<nat>>, b: nat,
        u: seq<nat>, d: seq<nat>)
    requires ListsOk(f, maxVreg, blocks, uses, defs) && b in f.body
    requires forall v: nat :: v in u <==> v <= maxVreg && ReadsFirst(f.body[b], v)
    requires forall v: nat :: v in d <==> v <= maxVreg && Writes(f.body[b], v)
    ensures ListsOk(f, maxVreg, blocks + {b}, uses[b := u], defs[b := d])
  {}

  lemma NothingListed(f: Func, maxVreg: nat)
    ensures ListsOk(f, maxVreg, {}, map[], map[]) && forall v :: !Mentioned(f, {}, v)
  {}

  /** Use and def lists of every block. */
  method GatherUseDef(f: Func, maxVreg: nat, useCount: array<nat>)
    returns (uses: map<nat, seq<nat>>, defs: map<nat, seq<nat>>)
    requires WellFormed(f) && useCount.Length == maxVreg + 1
    requires forall v | 0 <= v <= maxVreg :: useCount[v] == 0
    modifies useCount
    ensures ListsOk(f, maxVreg, f.body.Keys, uses, defs)
    ensures forall v | 0 <= v <= maxVreg :: useCount[v] > 0 <==> Mentioned(f, f.body.Keys, v)
    ensures useCount[..] == UsesOf(f, maxVreg)
  {
    hide WellFormed, ListsOk, Mentioned, ReadsFirst, Writes, Mentions;
    OrderIsBody(f);
    uses, defs := map[], map[];
    ghost var done: set<nat> := {};
    NothingListed(f, maxVreg);
    for j := 0 to |f.order|
      invariant done <= f.body.Keys && forall k | 0 <= k < j :: f.order[k] in done
      invariant ListsOk(f, maxVreg, done, uses, defs)
      invariant forall v | 0 <= v <= maxVreg :: useCount[v] > 0 <==> Mentioned(f, done, v)
      invariant forall v | 0 <= v <= maxVreg :: useCount[v] == MentionsBefore(f, j, v)
    {
      var b := f.order[j];
      var u, d := UseDef(f.body[b], maxVreg, useCount);
      ListsStep(f, maxVreg, done, uses, defs, b, u, d);
      uses, defs := uses[b := u], defs[b := d];
      forall v: nat | v <= maxVreg
        ensures useCount[v] > 0 <==> Mentioned(f, done + {b}, v)
      {
        MentionedStep(f, done, b, v);
      }
      done := done + {b};
    }
    assert done == f.body.Keys;
  }
}
