/** The stack frame of a function: where each allocation gets its bytes. */
module FrameLayout {
  import opened Sir
  import opened Alignment
  import opened Builder
  import opened Frames

  /** What has been reserved: its size, and for registers their offset from the frame's top and their bytes. */
  datatype Frame = Frame(size: nat, slots: map<nat, (int, nat)>)

  /** Allocations name their size and their register. */
  predicate AllocaShape(inst: Inst) {
    inst.op.Alloca? ==> inst.dest.Some? && |inst.ops| == 1 && inst.ops[0].ConstInt? && inst.ops[0].i >= 0
  }

  ghost predicate AllocasOk(f: Func) {
    && (forall b | b in f.order :: b in f.body)
    && (forall b, k | b in f.body && 0 <= k < |f.body[b]| :: b in f.order && AllocaShape(f.body[b][k]))
  }

  /** Two allocations never share a register. */
  ghost predicate AllocasApart(f: Func) {
    forall b, k, c, j | b in f.body && c in f.body && 0 <= k < |f.body[b]| && 0 <= j < |f.body[c]| ::
      SameAlloca(f.body[b][k], f.body[c][j]) ==> f.body[b][k] == f.body[c][j]
  }

  predicate SameAlloca(x: Inst, y: Inst) { x.op.Alloca? && y.op.Alloca? && x.dest == y.dest }

  function Reserved(r: Frame, inst: Inst): Frame
    requires AllocaShape(inst)
  {
    if inst.op.Alloca? then
      var size := r.size + AlignUp(inst.ops[0].i, 8);
      Frame(size, r.slots[inst.dest.value := (-(size as int), AlignUp(inst.ops[0].i, 8))])
    else r
  }

  function OverBlock(r: Frame, insts: seq<Inst>, n: nat): Frame
    requires n <= |insts| && forall k | 0 <= k < |insts| :: AllocaShape(insts[k])
  {
    if n == 0 then r else Reserved(OverBlock(r, insts, n - 1), insts[n - 1])
  }

  ghost function OverBlocks(f: Func, n: nat): Frame
    requires AllocasOk(f) && n <= |f.order|
  {
    if n == 0 then Frame(0, map[])
    else
      var insts := f.body[f.order[n - 1]];
      OverBlock(OverBlocks(f, n - 1), insts, |insts|)
  }

  /** Walks the block list once; every allocation is rounded up to eight bytes and put below the ones before it. */
  method LayFrame(f: Func) returns (size: nat, offsets: map<nat, int>)
    requires AllocasOk(f)
    ensures var r := OverBlocks(f, |f.order|);
      size == r.size && offsets.Keys == r.slots.Keys && forall p | p in offsets :: offsets[p] == r.slots[p].0
  {
    hide AlignUp;
    size, offsets := 0, map[];
    for j := 0 to |f.order|
      invariant Agrees(OverBlocks(f, j), size, offsets)
    {
      ghost var r := OverBlocks(f, j);
      var insts := f.body[f.order[j]];
      for k := 0 to |insts|
        invariant Agrees(OverBlock(r, insts, k), size, offsets)
      {
        var inst := insts[k];
        if inst.op.Alloca? {
          size := size + AlignUp(inst.ops[0].i, 8);
          offsets := offsets[inst.dest.value := -(size as int)];
        }
      }
    }
  }

  predicate Agrees(r: Frame, size: nat, offsets: map<nat, int>) {
    size == r.size && offsets.Keys == r.slots.Keys && forall p | p in offsets :: offsets[p] == r.slots[p].0
  }

  // ---------------------------------------------------------------------------------------------
  // Slots lie in the frame and apart

  function End(s: (int, nat)): int { s.0 + s.1 }

  ghost predicate SlotsOk(r: Frame) {
    && (forall p | p in r.slots :: -(r.size as int) <= r.slots[p].0 && End(r.slots[p]) <= 0 && r.slots[p].0 % 8 == 0)
    && r.size % 8 == 0
    && forall p, q | p in r.slots && q in r.slots && p != q ::
      End(r.slots[p]) <= r.slots[q].0 || End(r.slots[q]) <= r.slots[p].0
  }

  lemma ReservedOk(r: Frame, inst: Inst)
    requires SlotsOk(r) && AllocaShape(inst)
    ensures SlotsOk(Reserved(r, inst))
  {
    if inst.op.Alloca? { EightsAdd(r.size, AlignUp(inst.ops[0].i, 8)); }
  }

  lemma EightsAdd(a: nat, b: nat)
    requires a % 8 == 0 && b % 8 == 0
    ensures (a + b) % 8 == 0 && (-(a + b)) % 8 == 0
  {}

  lemma {:induction false} OverBlockOk(r: Frame, insts: seq<Inst>, n: nat)
    requires n <= |insts| && (forall k | 0 <= k < |insts| :: AllocaShape(insts[k])) && SlotsOk(r)
    ensures SlotsOk(OverBlock(r, insts, n))
  {
    hide SlotsOk, Reserved;
    if n > 0 {
      OverBlockOk(r, insts, n - 1);
      ReservedOk(OverBlock(r, insts, n - 1), insts[n - 1]);
    }
  }

  lemma {:induction false} OverBlocksOk(f: Func, n: nat)
    requires AllocasOk(f) && n <= |f.order|
    ensures SlotsOk(OverBlocks(f, n))
  {
    hide AllocaShape;
    if n > 0 {
      OverBlocksOk(f, n - 1);
      var insts := f.body[f.order[n - 1]];
      OverBlockOk(OverBlocks(f, n - 1), insts, |insts|);
    }
  }

  // ---------------------------------------------------------------------------------------------
  // Every allocation gets the bytes it asks for

  /** The slot of an allocation of the block before `n` or of an earlier block is large enough. */
  ghost predicate Served(r: Frame, inst: Inst) {
    AllocaShape(inst) && inst.op.Alloca? ==> inst.dest.value in r.slots && inst.ops[0].i <= r.slots[inst.dest.value].1
  }

  lemma ServedNow(r: Frame, inst: Inst)
    requires AllocaShape(inst)
    ensures Served(Reserved(r, inst), inst)
  {}

  lemma StillServed(r: Frame, x: Inst, inst: Inst)
    requires AllocaShape(x) && AllocaShape(inst) && Served(r, x) && (SameAlloca(x, inst) ==> x == inst)
    ensures Served(Reserved(r, inst), x)
  {}

  lemma {:induction false} BlockServes(r: Frame, f: Func, b: nat, n: nat, x: Inst)
    requires AllocasOk(f) && AllocasApart(f) && b in f.body && n <= |f.body[b]| && AllocaShape(x)
    requires exists c, j :: c in f.body && 0 <= j < |f.body[c]| && f.body[c][j] == x
    requires Served(r, x) || exists k :: 0 <= k < n && f.body[b][k] == x
    ensures Served(OverBlock(r, f.body[b], n), x)
    decreases n
  {
    hide Served, AllocaShape, Reserved, SameAlloca;
    if n > 0 {
      var inst := f.body[b][n - 1];
      var s := OverBlock(r, f.body[b], n - 1);
      if inst == x {
        ServedNow(s, x);
      } else {
        BlockServes(r, f, b, n - 1, x);
        StillServed(s, x, inst);
      }
    }
  }

  lemma {:induction false} BlocksServe(f: Func, n: nat, b: nat, k: nat)
    requires AllocasOk(f) && AllocasApart(f) && n <= |f.order| && b in f.body && k < |f.body[b]|
    requires b in f.order[..n]
    ensures Served(OverBlocks(f, n), f.body[b][k])
    decreases n
  {
    hide Served, AllocaShape, OverBlock, AllocasApart;
    if n > 0 {
      if f.order[n - 1] != b { BlocksServe(f, n - 1, b, k); }
      var c := f.order[n - 1];
      BlockServes(OverBlocks(f, n - 1), f, c, |f.body[c]|, f.body[b][k]);
    }
  }

  // ---------------------------------------------------------------------------------------------
  // Frames as the generator's theorems assume them

  /** A machine with a flat memory and the frame below address 0. */
  function FlatMachine(r: Frame): Machine {
    Machine(
      (name: string) => 0,
      (args: seq<Arg>, w: World) =>
        if |args| == 1 && args[0].Int? && args[0].v in w.mem && -TWO_63 <= w.mem[args[0].v] < TWO_63 then
          Some(w.mem[args[0].v] as i64) else None,
      (op: Opcode, args: seq<Arg>, w: World) =>
        if op.Alloca? && |args| == 2 && args[1].Blk? then Done(Address(r, args[1].id), w)
        else if op.Store? && |args| == 2 && args[0].Int? && args[1].Int? then
          Done(0, w.(mem := w.mem[args[1].v := args[0].v]))
        else Stop(Fault))
  }

  function Address(r: Frame, p: nat): i64 {
    if p in r.slots && -TWO_63 <= r.slots[p].0 < TWO_63 then r.slots[p].0 else 0
  }

  function Room(r: Frame, p: nat): nat { if p in r.slots then r.slots[p].1 else 0 }

  /** The frame as the back end lays it serves the function: such machines exist for every function whose frame can be
      addressed. */
  lemma FramesExist(f: Func, params: seq<i64>, size: nat)
    requires AllocasOk(f) && AllocasApart(f) && OverBlocks(f, |f.order|).size <= TWO_63
    ensures var r := OverBlocks(f, |f.order|);
      FrameOk(Setting(FlatMachine(r), f, params, (p: nat) => Address(r, p), (p: nat) => Room(r, p), size))
  {
    hide OverBlocks, AllocasApart;
    var r := OverBlocks(f, |f.order|);
    var t := Setting(FlatMachine(r), f, params, (p: nat) => Address(r, p), (p: nat) => Room(r, p), size);
    OverBlocksOk(f, |f.order|);
    forall b, k | b in f.body && 0 <= k < |f.body[b]|
      ensures Reserves(t, f.body[b][k])
    {
      assert f.order[..|f.order|] == f.order && AllocaShape(f.body[b][k]);
      BlocksServe(f, |f.order|, b, k);
    }
    FlatFrame(r, t);
  }

  lemma FlatFrame(r: Frame, t: Setting)
    requires SlotsOk(r) && r.size <= TWO_63 && t.m == FlatMachine(r)
    requires t.addr == ((p: nat) => Address(r, p)) && t.bytes == ((p: nat) => Room(r, p))
    ensures SlotsApart(t) && AllocaOk(t) && StoreOk(t) && LoadOk(t)
  {
    FlatSlots(r, t);
    FlatCells(r, t);
  }

  lemma FlatSlots(r: Frame, t: Setting)
    requires SlotsOk(r) && r.size <= TWO_63
    requires t.addr == ((p: nat) => Address(r, p)) && t.bytes == ((p: nat) => Room(r, p))
    ensures SlotsApart(t)
  {}

  lemma FlatCells(r: Frame, t: Setting)
    requires t.m == FlatMachine(r) && t.addr == ((p: nat) => Address(r, p))
    ensures AllocaOk(t) && StoreOk(t) && LoadOk(t)
  {
    hide Address;
  }
}
