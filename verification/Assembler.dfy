/** The two-pass assembler: where functions and blocks are put, and what jumps and calls reach. */
module Assembler {
  import opened Bytes
  import opened Alignment
  import opened Encoding
  import S = Sir

  datatype Block = Block(id: nat, insts: seq<X86>)

  datatype Function = Function(name: string, blocks: seq<Block>)

  // ---------------------------------------------------------------------------------------------
  // A module as one list of items

  datatype Item = Pad | FuncStart(f: nat) | BlockStart(b: nat) | Code(x: X86)

  function Codes(insts: seq<X86>): (s: seq<Item>)
    ensures |s| == |insts| && forall k | 0 <= k < |s| :: s[k] == Code(insts[k])
  {
    seq(|insts|, k requires 0 <= k < |insts| => Code(insts[k]))
  }

  function BlockItems(first: bool, b: Block): seq<Item>
  {
    (if first then [] else [Pad]) + [BlockStart(b.id)] + Codes(b.insts)
  }

  function BlocksItems(bs: seq<Block>, n: nat): seq<Item>
    requires n <= |bs|
  {
    if n == 0 then [] else BlocksItems(bs, n - 1) + BlockItems(n == 1, bs[n - 1])
  }

  function FuncItems(f: Function, i: nat): seq<Item> { [Pad, FuncStart(i)] + BlocksItems(f.blocks, |f.blocks|) }

  function Items(fs: seq<Function>, n: nat): seq<Item>
    requires n <= |fs|
  {
    if n == 0 then [] else Items(fs, n - 1) + FuncItems(fs[n - 1], n - 1)
  }

  lemma {:induction false} ItemsPrefix(fs: seq<Function>, i: nat, n: nat)
    requires i <= n <= |fs|
    ensures Items(fs, i) <= Items(fs, n)
    decreases n
  {
    hide FuncItems;
    if i < n { ItemsPrefix(fs, i, n - 1); }
  }

  lemma {:induction false} BlocksPrefix(bs: seq<Block>, i: nat, n: nat)
    requires i <= n <= |bs|
    ensures BlocksItems(bs, i) <= BlocksItems(bs, n)
    decreases n
  {
    hide BlockItems;
    if i < n { BlocksPrefix(bs, i, n - 1); }
  }

  // ---------------------------------------------------------------------------------------------
  // Positions depend on sizes alone

  function Size(x: X86): nat { |Encode(x, 0)| }

  function Behind(item: Item, p: nat): (q: nat)
    ensures p <= q
  {
    match item
    case Pad => AlignUp(p, 16)
    case Code(x) => p + Size(x)
    case _ => p
  }

  /** The end of the first `k` items. */
  function Pos(items: seq<Item>, k: nat): nat
    requires k <= |items|
  {
    if k == 0 then 0 else Behind(items[k - 1], Pos(items, k - 1))
  }

  lemma {:induction false} PosPrefix(a: seq<Item>, b: seq<Item>, k: nat)
    requires a <= b && k <= |a|
    ensures Pos(a, k) == Pos(b, k)
  {
    hide Behind;
    if k > 0 { PosPrefix(a, b, k - 1); }
  }

  lemma {:induction false} PosGrows(items: seq<Item>, i: nat, k: nat)
    requires i <= k <= |items|
    ensures Pos(items, i) <= Pos(items, k)
    decreases k
  {
    hide Encode, AlignUp;
    if i < k { PosGrows(items, i, k - 1); }
  }

  /** Blocks and functions start where the items before them end. */
  ghost predicate Recorded(items: seq<Item>, blocks: map<nat, nat>, funcs: seq<nat>) {
    forall k | 0 <= k < |items| :: Noted(items, k, blocks, funcs)
  }

  ghost predicate Noted(items: seq<Item>, k: nat, blocks: map<nat, nat>, funcs: seq<nat>)
    requires k < |items|
  {
    match items[k]
    case BlockStart(b) => b in blocks && blocks[b] == Pos(items, k)
    case FuncStart(f) => f < |funcs| && funcs[f] == Pos(items, k)
    case _ => true
  }

  ghost predicate Unique(items: seq<Item>) {
    forall i, j | 0 <= i < j < |items| && (items[i].BlockStart? || items[i].FuncStart?) :: items[i] != items[j]
  }

  // ---------------------------------------------------------------------------------------------
  // The text

  datatype Targets = Targets(blocks: map<nat, nat>, funcs: seq<nat>, names: seq<string>)

  function BlockAt(t: Targets, b: nat): nat { if b in t.blocks then t.blocks[b] else 0 }

  /** The first function with the name. */
  function Lookup(names: seq<string>, name: string): S.Option<nat>
    decreases |names|
  {
    if names == [] then S.None
    else if names[0] == name then S.Some(0)
    else
      match Lookup(names[1..], name)
      case None => S.None
      case Some(i) => S.Some(i + 1)
  }

  function Callee(t: Targets, name: string): S.Option<nat> {
    match Lookup(t.names, name)
    case None => S.None
    case Some(i) => if i < |t.funcs| then S.Some(t.funcs[i]) else S.None
  }

  /** The distance from the end of the instruction at `p` to its target; calls have theirs once they are resolved. */
  function Distance(x: X86, p: nat, t: Targets, resolved: bool): int {
    match x
    case Jmp(b) => BlockAt(t, b) - (p + Size(x))
    case Jcc(_, b) => BlockAt(t, b) - (p + Size(x))
    case CallLabel(name) => if resolved && Callee(t, name).Some? then Callee(t, name).value - (p + Size(x)) else 0
    case _ => 0
  }

  function Nops(n: nat): (s: seq<byte>)
    ensures |s| == n
  {
    seq(n, k => 0x90)
  }

  function ItemBytes(item: Item, p: nat, t: Targets, resolved: bool): (s: seq<byte>)
    ensures p + |s| == Behind(item, p)
  {
    match item
    case Pad => Nops(AlignUp(p, 16) - p)
    case Code(x) => LengthIsFixed(x, Distance(x, p, t, resolved), 0); Encode(x, Distance(x, p, t, resolved))
    case _ => []
  }

  /** The code of items `i` to `k`; calls before item `r` are resolved. */
  function Text(items: seq<Item>, i: nat, k: nat, t: Targets, r: nat): (s: seq<byte>)
    requires i <= k <= |items|
    ensures Pos(items, i) + |s| == Pos(items, k)
  {
    if i == k then [] else Text(items, i, k - 1, t, r) + ItemBytes(items[k - 1], Pos(items, k - 1), t, k - 1 < r)
  }

  lemma {:induction false} TextPrefix(a: seq<Item>, b: seq<Item>, k: nat, t: Targets, r: nat)
    requires a <= b && k <= |a|
    ensures Text(a, 0, k, t, r) == Text(b, 0, k, t, r)
  {
    hide ItemBytes;
    if k > 0 {
      TextPrefix(a, b, k - 1, t, r);
      PosPrefix(a, b, k - 1);
    }
  }

  lemma {:induction false} TextSplit(items: seq<Item>, i: nat, m: nat, k: nat, t: Targets, r: nat)
    requires i <= m <= k <= |items|
    ensures Text(items, i, k, t, r) == Text(items, i, m, t, r) + Text(items, m, k, t, r)
    decreases k
  {
    hide ItemBytes;
    if m < k {
      TextSplit(items, i, m, k - 1, t, r);
    }
  }

  /** Resolving calls at or behind `k` does not change what stands before, nor earlier ones what comes behind. */
  lemma {:induction false} TextSame(items: seq<Item>, i: nat, k: nat, t: Targets, r: nat, r': nat)
    requires i <= k <= |items| && ((k <= r && k <= r') || (r <= i && r' <= i))
    ensures Text(items, i, k, t, r) == Text(items, i, k, t, r')
    decreases k
  {
    hide ItemBytes;
    if i < k { TextSame(items, i, k - 1, t, r, r'); }
  }

  /** An item's code stands at its position. */
  lemma ItemStands(items: seq<Item>, k: nat, t: Targets, r: nat)
    requires k < |items|
    ensures At(Text(items, 0, |items|, t, r), Pos(items, k), ItemBytes(items[k], Pos(items, k), t, k < r))
  {
    hide ItemBytes, Behind, Text, Pos;
    TextSplit(items, 0, k, |items|, t, r);
    TextSplit(items, k, k + 1, |items|, t, r);
    TextOfOne(items, k, t, r);
    InTheMiddle(Text(items, 0, k, t, r), Text(items, k, k + 1, t, r), Text(items, k + 1, |items|, t, r));
  }

  lemma TextOfOne(items: seq<Item>, k: nat, t: Targets, r: nat)
    requires k < |items|
    ensures Text(items, k, k + 1, t, r) == ItemBytes(items[k], Pos(items, k), t, k < r) && Pos(items, 0) == 0
  {
    hide ItemBytes, Behind;
  }

  lemma InTheMiddle(a: seq<byte>, b: seq<byte>, c: seq<byte>)
    ensures At(a + (b + c), |a|, b)
  {
    assert (a + (b + c))[|a|..|a| + |b|] == b;
  }

  // ---------------------------------------------------------------------------------------------
  // Relocations

  /** Four bytes of the text to be set to the distance to `target`. */
  datatype Reloc = Reloc(at: nat, target: nat)

  predicate Resolvable(item: Item, t: Targets) { item.Code? && item.x.CallLabel? && Callee(t, item.x.name).Some? }

  function RelocsOf(item: Item, p: nat, t: Targets): seq<Reloc> {
    if Resolvable(item, t) then [Reloc(p + 1, Callee(t, item.x.name).value)] else []
  }

  function Relocs(items: seq<Item>, k: nat, t: Targets): seq<Reloc>
    requires k <= |items|
  {
    if k == 0 then [] else Relocs(items, k - 1, t) + RelocsOf(items[k - 1], Pos(items, k - 1), t)
  }

  lemma {:induction false} RelocsPrefix(a: seq<Item>, b: seq<Item>, k: nat, t: Targets)
    requires a <= b && k <= |a|
    ensures Relocs(a, k, t) == Relocs(b, k, t)
  {
    hide RelocsOf;
    if k > 0 {
      RelocsPrefix(a, b, k - 1, t);
      PosPrefix(a, b, k - 1);
    }
  }

  // ---------------------------------------------------------------------------------------------
  // One pass

  /** The state after the items of `done`.  In the second pass the offsets of the first are already in place. */
  ghost predicate Laid(bytes: seq<byte>, blocks: map<nat, nat>, funcs: seq<nat>, relocs: seq<Reloc>, done: seq<Item>,
        t: Targets, second: bool) {
    && |bytes| == Pos(done, |done|) && |funcs| == |t.names| && Recorded(done, blocks, funcs)
    && (second ==> blocks == t.blocks && funcs == t.funcs)
    && (second ==> bytes == Text(done, 0, |done|, t, 0) && relocs == Relocs(done, |done|, t))
  }

  /** What one more item does to the offsets. */
  ghost predicate Marks(item: Item, p: nat, blocks: map<nat, nat>, funcs: seq<nat>, blocks': map<nat, nat>,
        funcs': seq<nat>) {
    match item
    case BlockStart(b) => blocks' == blocks[b := p] && funcs' == funcs
    case FuncStart(f) => blocks' == blocks && f < |funcs| && funcs' == funcs[f := p]
    case _ => blocks' == blocks && funcs' == funcs
  }

  lemma LaidNext(bytes: seq<byte>, blocks: map<nat, nat>, funcs: seq<nat>, relocs: seq<Reloc>, done: seq<Item>,
        t: Targets, second: bool, items: seq<Item>, item: Item, bytes': seq<byte>, blocks': map<nat, nat>,
        funcs': seq<nat>, relocs': seq<Reloc>)
    requires Laid(bytes, blocks, funcs, relocs, done, t, second) && done + [item] <= items && Unique(items)
    requires |bytes'| == Behind(item, |bytes|) && Marks(item, |bytes|, blocks, funcs, blocks', funcs')
    requires second ==> Recorded(items, t.blocks, t.funcs) && bytes' == bytes + ItemBytes(item, |bytes|, t, false)
    requires second ==> relocs' == relocs + RelocsOf(item, |bytes|, t)
    ensures Laid(bytes', blocks', funcs', relocs', done + [item], t, second)
  {
    hide ItemBytes, Behind, RelocsOf, Recorded, Noted, Unique, Marks;
    var done', n := done + [item], |done|;
    PosPrefix(done, done', n);
    RecordedNext(done, item, items, blocks, funcs, blocks', funcs');
    if second {
      TextPrefix(done, done', n, t, 0);
      RelocsPrefix(done, done', n, t);
      MarksAgain(done, item, items, blocks, funcs, blocks', funcs');
    }
    assert |funcs'| == |funcs| by { MarksKeep(item, |bytes|, blocks, funcs, blocks', funcs'); }
  }

  lemma MarksKeep(item: Item, p: nat, blocks: map<nat, nat>, funcs: seq<nat>, blocks': map<nat, nat>, funcs': seq<nat>)
    requires Marks(item, p, blocks, funcs, blocks', funcs')
    ensures |funcs'| == |funcs|
  {}

  lemma RecordedNext(done: seq<Item>, item: Item, items: seq<Item>, blocks: map<nat, nat>, funcs: seq<nat>,
        blocks': map<nat, nat>, funcs': seq<nat>)
    requires Recorded(done, blocks, funcs) && done + [item] <= items && Unique(items)
    requires Marks(item, Pos(done, |done|), blocks, funcs, blocks', funcs')
    ensures Recorded(done + [item], blocks', funcs')
  {
    hide Behind;
    var done' := done + [item];
    forall k | 0 <= k < |done'|
      ensures Noted(done', k, blocks', funcs')
    {
      PosPrefix(done, done', if k < |done| then k else |done|);
      if k < |done| {
        assert Noted(done, k, blocks, funcs);
        assert items[k] == done[k] && items[|done|] == item;
      }
    }
  }

  /** In the second pass every offset is found to be what it was in the first. */
  lemma MarksAgain(done: seq<Item>, item: Item, items: seq<Item>, blocks: map<nat, nat>, funcs: seq<nat>,
        blocks': map<nat, nat>, funcs': seq<nat>)
    requires Recorded(items, blocks, funcs) && done + [item] <= items
    requires Marks(item, Pos(done, |done|), blocks, funcs, blocks', funcs')
    ensures blocks' == blocks && funcs' == funcs
  {
    hide Behind;
    PosPrefix(done, items, |done|);
    assert items[|done|] == item && Noted(items, |done|, blocks, funcs);
  }

  // ---------------------------------------------------------------------------------------------
  // Resolving the calls

  lemma {:induction false} NextCall(items: seq<Item>, t: Targets, k: nat) returns (m: nat)
    requires k <= |items| && |Relocs(items, k, t)| < |Relocs(items, |items|, t)|
    ensures k <= m < |items| && Resolvable(items[m], t) && Relocs(items, m, t) == Relocs(items, k, t)
    ensures Text(items, 0, |items|, t, m) == Text(items, 0, |items|, t, k)
    decreases |items| - k
  {
    hide Resolvable, Pos;
    if Resolvable(items[k], t) {
      m := k;
    } else {
      Unresolved(items, t, k);
      m := NextCall(items, t, k + 1);
    }
  }

  lemma Unresolved(items: seq<Item>, t: Targets, k: nat)
    requires k < |items| && !Resolvable(items[k], t)
    ensures Relocs(items, k + 1, t) == Relocs(items, k, t)
    ensures Text(items, 0, |items|, t, k + 1) == Text(items, 0, |items|, t, k)
  {
    TextOneMore(items, t, k);
    SameEitherWay(items[k], Pos(items, k), t);
  }

  lemma SameEitherWay(item: Item, p: nat, t: Targets)
    requires !Resolvable(item, t)
    ensures ItemBytes(item, p, t, true) == ItemBytes(item, p, t, false)
  {
    hide Encode;
  }

  /** The text with one more item resolved. */
  lemma TextOneMore(items: seq<Item>, t: Targets, k: nat)
    requires k < |items|
    ensures var n, a, b := |items|, Text(items, 0, k, t, k), Text(items, k + 1, |items|, t, 0);
      && Text(items, 0, n, t, k) == a + (ItemBytes(items[k], Pos(items, k), t, false) + b)
      && Text(items, 0, n, t, k + 1) == a + (ItemBytes(items[k], Pos(items, k), t, true) + b)
      && |a| == Pos(items, k)
  {
    hide ItemBytes, Pos;
    AroundItem(items, t, k, k);
    AroundItem(items, t, k, k + 1);
    TextSame(items, 0, k, t, k + 1, k);
    TextSame(items, k + 1, |items|, t, k, 0);
    TextSame(items, k + 1, |items|, t, k + 1, 0);
    assert Pos(items, 0) == 0 by { NothingBefore(items); }
  }

  lemma NothingBefore(items: seq<Item>)
    ensures Pos(items, 0) == 0
  {}

  lemma AroundItem(items: seq<Item>, t: Targets, k: nat, r: nat)
    requires k < |items|
    ensures Text(items, 0, |items|, t, r) ==
      Text(items, 0, k, t, r) + (ItemBytes(items[k], Pos(items, k), t, k < r) + Text(items, k + 1, |items|, t, r))
  {
    hide ItemBytes, Behind;
    TextSplit(items, 0, k, |items|, t, r);
    TextSplit(items, k, k + 1, |items|, t, r);
    assert Text(items, k, k + 1, t, r) == [] + ItemBytes(items[k], Pos(items, k), t, k < r);
  }

  /** Overwriting the distance of one call resolves it. */
  lemma CallPatched(items: seq<Item>, t: Targets, k: nat)
    requires k < |items| && Resolvable(items[k], t)
    ensures var p, v := Pos(items, k), Callee(t, items[k].x.name).value;
      var a := Text(items, 0, |items|, t, k);
      && p + 5 <= |a| && RelocsOf(items[k], p, t) == [Reloc(p + 1, v)]
      && Text(items, 0, |items|, t, k + 1) == a[..p + 1] + Word(v - (p + 5)) + a[p + 5..]
  {
    hide ItemBytes, Pos, Text, Word;
    var p, v := Pos(items, k), Callee(t, items[k].x.name).value;
    TextOneMore(items, t, k);
    CallBytes(items[k].x.name, p, t);
    var b, c := Text(items, 0, k, t, k), Text(items, k + 1, |items|, t, 0);
    var a := Text(items, 0, |items|, t, k);
    assert a == b + (([0xE8] + Word(0)) + c);
    assert a[..p + 1] == b + [0xE8] && a[p + 5..] == c;
  }

  lemma CallBytes(name: string, p: nat, t: Targets)
    requires Callee(t, name).Some?
    ensures ItemBytes(Code(CallLabel(name)), p, t, false) == [0xE8] + Word(0)
    ensures ItemBytes(Code(CallLabel(name)), p, t, true) == [0xE8] + Word(Callee(t, name).value - (p + 5))
  {}

  // ---------------------------------------------------------------------------------------------
  // Emitting

  method EmitRex(cb: PeCodeBuffer, w: bool, r: bool, x: bool, b: bool)
    modifies cb
    ensures cb.bytes == old(cb.bytes) + RexIf(w, r, x, b)
  {
    if w || r || x || b { cb.Emit8(Rex(w, r, x, b)); }
  }

  /** Two's complement in four bytes. */
  method EmitWord(cb: PeCodeBuffer, v: int)
    modifies cb
    ensures cb.bytes == old(cb.bytes) + Word(v)
  {
    cb.Emit32(v % 0x1_0000_0000);
  }

  method EmitMemory(cb: PeCodeBuffer, reg: Reg, m: Mem)
    modifies cb
    ensures cb.bytes == old(cb.bytes) + EmitMemOp(reg, m)
  {
    hide Word, ModRM, Byte;
    var b := m.base % 8;
    var mod := if m.disp == 0 && b != 5 then 0 else if -128 <= m.disp <= 127 then 1 else 2;
    if m.BaseDisp? {
      cb.Emit8(ModRM(mod, reg % 8, b));
      if b == 4 { cb.Emit8(ModRM(0, 4, 4)); }
    } else {
      cb.Emit8(ModRM(mod, reg % 8, 4));
      cb.Emit8(ModRM(m.scale, m.index, b));
    }
    if mod == 1 { cb.Emit8(Byte(m.disp)); }
    if mod == 2 { EmitWord(cb, m.disp); }
  }

  method EmitMovRegImm64(cb: PeCodeBuffer, reg: Reg, imm: u64)
    modifies cb
    ensures cb.bytes == old(cb.bytes) + MovRegImm64(reg, imm)
  {
    hide ModRM, LE, RexIf;
    if imm == 0 {
      if reg > 7 { EmitRex(cb, false, true, false, true); }
      cb.Emit8(0x31);
      cb.Emit8(ModRM(3, reg, reg));
      return;
    }
    if imm / 0x1_0000_0000 == 0 {
      if reg > 7 { EmitRex(cb, false, false, false, true); }
      cb.Emit8(0xB8 + reg % 8);
      cb.Emit32(imm);
      return;
    }
    EmitWide(cb, reg, imm);
  }

  lemma WideBytes(reg: Reg, imm: u64)
    requires imm >= 0x1_0000_0000
    ensures var rex, low := RexIf(true, false, false, reg > 7), LE(imm % 0x1_0000_0000, 4);
      MovRegImm64(reg, imm) == if imm >= 0xFFFF_FFFF_8000_0000 then rex + [0xC7] + [ModRM(3, 0, reg)] + low
        else rex + [0xB8 + reg % 8] + low + LE(imm / 0x1_0000_0000, 4)
  {
    hide ModRM, LE, RexIf;
  }

  /** An immediate of more than 32 bits: sign-extended if that gives it, else in full. */
  method EmitWide(cb: PeCodeBuffer, reg: Reg, imm: u64)
    requires imm >= 0x1_0000_0000
    modifies cb
    ensures cb.bytes == old(cb.bytes) + MovRegImm64(reg, imm)
  {
    hide ModRM, LE, RexIf, MovRegImm64;
    WideBytes(reg, imm);
    var simm: int := if imm < 0x8000_0000_0000_0000 then imm else imm - 0x1_0000_0000_0000_0000;
    if -2147483648 <= simm < 0 {
      EmitRex(cb, true, false, false, reg > 7);
      cb.Emit8(0xC7);
      cb.Emit8(ModRM(3, 0, reg));
      cb.Emit32(imm % 0x1_0000_0000);
      return;
    }
    EmitRex(cb, true, false, false, reg > 7);
    cb.Emit8(0xB8 + reg % 8);
    cb.Emit32(imm % 0x1_0000_0000);
    cb.Emit32(imm / 0x1_0000_0000);
  }

  class PeLinker {
    const text: PeCodeBuffer
    /** Where the blocks start, as far as the passes know. */
    var blockOffset: map<nat, nat>
    var funcOffsets: seq<nat>
    var relocs: seq<Reloc>

    constructor (n: nat)
      ensures fresh(text) && text.bytes == [] && blockOffset == map[] && |funcOffsets| == n && relocs == []
    {
      text := new PeCodeBuffer();
      blockOffset, funcOffsets, relocs := map[], seq(n, i => 0), [];
    }

    ghost function Known(names: seq<string>): Targets
      reads this
    {
      Targets(blockOffset, funcOffsets, names)
    }

    /** Appends an instruction; in the second pass calls leave a relocation behind. */
    method EmitX86Inst(x: X86, names: seq<string>, pass: nat)
      modifies text, this`relocs
      ensures text.bytes == old(text.bytes) + ItemBytes(Code(x), |old(text.bytes)|, Known(names), false)
      ensures relocs == old(relocs) + if pass == 1 then RelocsOf(Code(x), |old(text.bytes)|, Known(names)) else []
    {
      hide EmitMemOp, MovRegImm64, RexIf, Distance, Callee, Known;
      ghost var p := |text.bytes|;
      if !HasTarget(x) { PlainBytes(x, p, Known(names)); }
      match x {
        case Jmp(_) => EmitTransfer(x, names, pass);
        case Jcc(_, _) => EmitTransfer(x, names, pass);
        case CallLabel(_) => EmitTransfer(x, names, pass);
        case MovImm(dst, imm) => EmitMovRegImm64(text, dst, imm);
        case Load(dst, m) => EmitMemInst(dst, 0x8B, m);
        case Store(m, src) => EmitMemInst(src, 0x89, m);
        case Lea(dst, m) => EmitMemInst(dst, 0x8D, m);
        case AluImm(op, dst, v) => EmitAluImm(op, dst, v);
        case Raw(bytes) => EmitBytes(bytes);
        case Push(_) => EmitStackInst(x);
        case Pop(_) => EmitStackInst(x);
        case Ret => EmitStackInst(x);
        case _ => EmitRegisterInst(x);
      }
    }

    method EmitBytes(bytes: seq<byte>)
      modifies text
      ensures text.bytes == old(text.bytes) + bytes
    {
      for i := 0 to |bytes|
        invariant text.bytes == old(text.bytes) + bytes[..i]
      {
        text.Emit8(bytes[i]);
        assert bytes[..i + 1] == bytes[..i] + [bytes[i]];
      }
      assert bytes[..|bytes|] == bytes;
    }

    /** Instructions with register operands only. */
    method EmitRegisterInst(x: X86)
      requires x.MovReg? || x.Alu? || x.CallReg?
      modifies text
      ensures text.bytes == old(text.bytes) + Encode(x, 0)
    {
      hide ModRM, RexIf;
      match x {
        case MovReg(dst, src) =>
          if dst != src {
            EmitRex(text, true, src > 7, false, dst > 7);
            text.Emit8(0x89);
            text.Emit8(ModRM(3, src, dst));
          }
        case Alu(op, dst, src) =>
          EmitRex(text, true, src > 7, false, dst > 7);
          text.Emit8(AluByte(op));
          text.Emit8(ModRM(3, src, dst));
        case CallReg(r) =>
          EmitRex(text, true, false, false, r > 7);
          text.Emit8(0xFF);
          text.Emit8(ModRM(3, 2, r));
      }
    }

    method EmitStackInst(x: X86)
      requires x.Push? || x.Pop? || x.Ret?
      modifies text
      ensures text.bytes == old(text.bytes) + Encode(x, 0)
    {
      hide ModRM, RexIf;
      match x {
        case Push(r) =>
          if r > 7 { EmitRex(text, false, false, false, true); }
          text.Emit8(0x50 + r % 8);
        case Pop(r) =>
          if r > 7 { EmitRex(text, false, false, false, true); }
          text.Emit8(0x58 + r % 8);
        case Ret => text.Emit8(0xC3);
      }
    }

    method EmitMemInst(reg: Reg, c: byte, m: Mem)
      modifies text
      ensures text.bytes == old(text.bytes) + (MemRex(reg, m) + [c] + EmitMemOp(reg, m))
    {
      EmitRex(text, true, reg > 7, m.Sib? && m.index > 7, m.base > 7);
      text.Emit8(c);
      EmitMemory(text, reg, m);
    }

    method EmitAluImm(op: AluOp, dst: Reg, v: i32)
      modifies text
      ensures text.bytes == old(text.bytes) + Encode(AluImm(op, dst, v), 0)
    {
      hide Word, ModRM, Byte, RexIf;
      EmitRex(text, true, false, false, dst > 7);
      if op.AluTest? {
        text.Emit8(0xF7);
        text.Emit8(ModRM(3, 0, dst));
        EmitWord(text, v);
      } else if -128 <= v <= 127 {
        text.Emit8(0x83);
        text.Emit8(ModRM(3, AluExt(op), dst));
        text.Emit8(Byte(v));
      } else {
        text.Emit8(0x81);
        text.Emit8(ModRM(3, AluExt(op), dst));
        EmitWord(text, v);
      }
    }

    /** Jumps use the offsets known so far; calls get theirs at the end. */
    method EmitTransfer(x: X86, names: seq<string>, pass: nat)
      requires HasTarget(x)
      modifies text, this`relocs
      ensures text.bytes == old(text.bytes) + ItemBytes(Code(x), |old(text.bytes)|, Known(names), false)
      ensures relocs == old(relocs) + if pass == 1 then RelocsOf(Code(x), |old(text.bytes)|, Known(names)) else []
    {
      hide Word, Lookup;
      match x {
        case Jmp(b) =>
          var target := if b in blockOffset then blockOffset[b] else 0;
          text.Emit8(0xE9);
          EmitWord(text, target - (|text.bytes| + 4));
        case Jcc(c, b) => EmitJcc(c, b, names);
        case CallLabel(name) => EmitCall(name, names, pass);
      }
    }

    method EmitJcc(c: Cond, b: nat, ghost names: seq<string>)
      modifies text
      ensures text.bytes == old(text.bytes) + ItemBytes(Code(Jcc(c, b)), |old(text.bytes)|, Known(names), false)
    {
      hide Word;
      var target := if b in blockOffset then blockOffset[b] else 0;
      text.Emit8(0x0F);
      text.Emit8(CondByte(c));
      EmitWord(text, target - (|text.bytes| + 4));
    }

    method EmitCall(name: string, names: seq<string>, pass: nat)
      modifies text, this`relocs
      ensures text.bytes == old(text.bytes) + ItemBytes(Code(CallLabel(name)), |old(text.bytes)|, Known(names), false)
      ensures relocs == old(relocs)
        + if pass == 1 then RelocsOf(Code(CallLabel(name)), |old(text.bytes)|, Known(names)) else []
    {
      hide Word, Lookup;
      text.Emit8(0xE8);
      if pass == 1 {
        var i := Lookup(names, name);
        if i.Some? && i.value < |funcOffsets| { relocs := relocs + [Reloc(|text.bytes|, funcOffsets[i.value])]; }
      }
      EmitWord(text, 0);
    }

    /** NOPs up to a multiple of 16. */
    method PadText()
      modifies text
      ensures text.bytes == old(text.bytes) + ItemBytes(Pad, |old(text.bytes)|, Known([]), false)
    {
      ghost var n := |text.bytes|;
      ghost var k := 0;
      while |text.bytes| % 16 != 0
        invariant n + k == |text.bytes| <= AlignUp(n, 16) && text.bytes == old(text.bytes) + Nops(k)
        decreases AlignUp(n, 16) - |text.bytes|
      {
        text.Emit8(0x90);
        assert Nops(k + 1) == Nops(k) + [0x90];
        k := k + 1;
      }
      AlignedNow(n, |text.bytes|);
    }

    ghost predicate Done(done: seq<Item>, t: Targets, second: bool)
      reads this, text
    {
      Laid(text.bytes, blockOffset, funcOffsets, relocs, done, t, second)
    }

    /** Lays one block; the first of a function is not padded again. */
    method LayBlock(first: bool, b: Block, names: seq<string>, pass: nat, ghost items: seq<Item>,
          ghost done: seq<Item>, ghost t: Targets)
      requires Done(done, t, pass == 1) && t.names == names && done + BlockItems(first, b) <= items && Unique(items)
      requires pass == 1 ==> Recorded(items, t.blocks, t.funcs)
      modifies this`blockOffset, this`relocs, text
      ensures Done(done + BlockItems(first, b), t, pass == 1)
    {
      hide Laid, ItemBytes, RelocsOf, Unique, Recorded, Codes;
      ghost var second, d := pass == 1, done;
      if !first {
        ghost var bytes := text.bytes;
        PadText();
        PadLaid(bytes, blockOffset, funcOffsets, relocs, d, t, second, items, text.bytes, Known([]));
        d := d + [Pad];
      }
      BlockLaid(text.bytes, blockOffset, funcOffsets, relocs, d, t, second, items, b.id);
      blockOffset := blockOffset[b.id := |text.bytes|];
      d := d + [BlockStart(b.id)];
      CodesEmpty(b.insts);
      assert d + Codes(b.insts[..0]) == d;
      for i := 0 to |b.insts|
        invariant Done(d + Codes(b.insts[..i]), t, second) && d + Codes(b.insts) == done + BlockItems(first, b)
      {
        ghost var e, bytes, rs := d + Codes(b.insts[..i]), text.bytes, relocs;
        CodesNext(b.insts, i);
        EmitX86Inst(b.insts[i], names, pass);
        CodePrefix(d, b.insts, i, items);
        CodeLaid(bytes, blockOffset, funcOffsets, rs, e, t, second, items, b.insts[i], text.bytes, relocs);
        assert e + [Code(b.insts[i])] == d + Codes(b.insts[..i + 1]);
      }
      assert b.insts[..|b.insts|] == b.insts;
    }

    /** Lays one function: padded, then block by block. */
    method LayFunction(f: Function, i: nat, names: seq<string>, pass: nat, ghost items: seq<Item>,
          ghost done: seq<Item>, ghost t: Targets)
      requires Done(done, t, pass == 1) && t.names == names && i < |names| && done + FuncItems(f, i) <= items
      requires Unique(items)
      requires pass == 1 ==> Recorded(items, t.blocks, t.funcs)
      modifies this`blockOffset, this`funcOffsets, this`relocs, text
      ensures Done(done + FuncItems(f, i), t, pass == 1)
    {
      hide ItemBytes, RelocsOf, Unique, Recorded, BlockItems, Text, Relocs, Pos;
      ghost var second, bytes, d := pass == 1, text.bytes, done + [Pad, FuncStart(i)];
      PadText();
      StartsPrefix(done, f, i, items);
      PadLaid(bytes, blockOffset, funcOffsets, relocs, done, t, second, items, text.bytes, Known([]));
      FuncLaid(text.bytes, blockOffset, funcOffsets, relocs, done + [Pad], t, second, items, i);
      assert done + [Pad] + [FuncStart(i)] == d;
      funcOffsets := funcOffsets[i := |text.bytes|];
      assert d + BlocksItems(f.blocks, 0) == d;
      for j := 0 to |f.blocks|
        invariant Done(d + BlocksItems(f.blocks, j), t, second)
      {
        NextBlockPrefix(d, f.blocks, j, items, done + FuncItems(f, i));
        LayBlock(j == 0, f.blocks[j], names, pass, items, d + BlocksItems(f.blocks, j), t);
        assert d + BlocksItems(f.blocks, j) + BlockItems(j == 0, f.blocks[j]) == d + BlocksItems(f.blocks, j + 1);
      }
      assert done + FuncItems(f, i) == d + BlocksItems(f.blocks, |f.blocks|);
    }

    /** One pass over the module. */
    method Pass(fs: seq<Function>, names: seq<string>, pass: nat, ghost t: Targets)
      requires |funcOffsets| == |names| == |fs| == |t.names| && t.names == names && Unique(Items(fs, |fs|))
      requires pass == 1 ==>
        Recorded(Items(fs, |fs|), t.blocks, t.funcs) && blockOffset == t.blocks && funcOffsets == t.funcs
      modifies this`blockOffset, this`funcOffsets, this`relocs, text
      ensures Done(Items(fs, |fs|), t, pass == 1)
    {
      hide Unique, FuncItems;
      ghost var items := Items(fs, |fs|);
      text.bytes := [];
      relocs := [];
      assert Done(Items(fs, 0), t, pass == 1);
      for i := 0 to |fs|
        invariant Done(Items(fs, i), t, pass == 1)
      {
        ItemsPrefix(fs, i + 1, |fs|);
        LayFunction(fs[i], i, names, pass, items, Items(fs, i), t);
      }
    }

    /** Sets the distances of all calls. */
    method PatchCalls(ghost items: seq<Item>, ghost t: Targets)
      requires text.bytes == Text(items, 0, |items|, t, 0) && relocs == Relocs(items, |items|, t)
      modifies text
      ensures text.bytes == Text(items, 0, |items|, t, |items|)
    {
      hide Text, RelocsOf, Resolvable, Pos, Word;
      ghost var k := 0;
      for i := 0 to |relocs|
        invariant k <= |items| && i == |Relocs(items, k, t)| && text.bytes == Text(items, 0, |items|, t, k)
      {
        ghost var m := NextCall(items, t, k);
        CallPatched(items, t, m);
        RelocAt(items, t, m);
        var r := relocs[i];
        var bytes := text.bytes;
        text.bytes := bytes[..r.at] + Word(r.target - (r.at + 4)) + bytes[r.at + 4..];
        k := m + 1;
      }
      NoMoreCalls(items, t, k);
    }

    /** Two passes, then the calls.  The second pass finds every offset the first one found. */
    method GenerateMachineCode(fs: seq<Function>)
      requires |funcOffsets| == |fs| && Unique(Items(fs, |fs|))
      modifies this, text
      ensures Recorded(Items(fs, |fs|), blockOffset, funcOffsets) && |funcOffsets| == |fs|
      ensures var t := Targets(blockOffset, funcOffsets, NamesOf(fs));
        text.bytes == Text(Items(fs, |fs|), 0, |Items(fs, |fs|)|, t, |Items(fs, |fs|)|)
    {
      hide Unique, Items, Recorded, Text, Relocs;
      var names := NamesOf(fs);
      Pass(fs, names, 0, Known(names));
      ghost var t := Known(names);
      Pass(fs, names, 1, t);
      PatchCalls(Items(fs, |fs|), t);
    }
  }

  function NamesOf(fs: seq<Function>): (names: seq<string>)
    ensures |names| == |fs| && forall i | 0 <= i < |fs| :: names[i] == fs[i].name
  {
    seq(|fs|, i requires 0 <= i < |fs| => fs[i].name)
  }

  lemma StartsPrefix(done: seq<Item>, f: Function, i: nat, items: seq<Item>)
    requires done + FuncItems(f, i) <= items
    ensures done + [Pad] <= items && done + [Pad] + [FuncStart(i)] <= items
  {
    hide BlocksItems;
    var all := done + FuncItems(f, i);
    assert all[..|done| + 1] == done + [Pad] && all[..|done| + 2] == done + [Pad] + [FuncStart(i)];
  }

  lemma NextBlockPrefix(d: seq<Item>, bs: seq<Block>, j: nat, items: seq<Item>, all: seq<Item>)
    requires j < |bs| && all == d + BlocksItems(bs, |bs|) && all <= items
    ensures d + BlocksItems(bs, j) + BlockItems(j == 0, bs[j]) <= items
  {
    hide BlockItems, BlocksItems;
    BlocksPrefix(bs, j + 1, |bs|);
    OneMoreBlock(bs, j);
    var a := BlocksItems(bs, j + 1);
    AppendTwice(d, BlocksItems(bs, j), BlockItems(j == 0, bs[j]));
    PrefixWithin(d, a, BlocksItems(bs, |bs|), items);
  }

  lemma OneMoreBlock(bs: seq<Block>, j: nat)
    requires j < |bs|
    ensures BlocksItems(bs, j + 1) == BlocksItems(bs, j) + BlockItems(j == 0, bs[j])
  {
    hide BlockItems;
  }

  lemma AppendTwice(a: seq<Item>, b: seq<Item>, c: seq<Item>)
    ensures a + b + c == a + (b + c)
  {}

  lemma PrefixWithin(d: seq<Item>, a: seq<Item>, b: seq<Item>, items: seq<Item>)
    requires a <= b && d + b <= items
    ensures d + a <= items
  {
    assert (d + b)[..|d + a|] == d + a;
  }

  lemma RelocAt(items: seq<Item>, t: Targets, m: nat)
    requires m < |items|
    ensures Relocs(items, m + 1, t) == Relocs(items, m, t) + RelocsOf(items[m], Pos(items, m), t)
    ensures Relocs(items, m + 1, t) <= Relocs(items, |items|, t)
  {
    RelocsGrow(items, t, m + 1, |items|);
  }

  lemma {:induction false} RelocsGrow(items: seq<Item>, t: Targets, i: nat, k: nat)
    requires i <= k <= |items|
    ensures Relocs(items, i, t) <= Relocs(items, k, t)
    decreases k
  {
    hide RelocsOf;
    if i < k { RelocsGrow(items, t, i, k - 1); }
  }

  lemma {:induction false} NoMoreCalls(items: seq<Item>, t: Targets, k: nat)
    requires k <= |items| && |Relocs(items, k, t)| == |Relocs(items, |items|, t)|
    ensures Text(items, 0, |items|, t, k) == Text(items, 0, |items|, t, |items|)
    decreases |items| - k
  {
    hide Text, Pos;
    if k < |items| {
      RelocAt(items, t, k);
      if !Resolvable(items[k], t) {
        Unresolved(items, t, k);
        NoMoreCalls(items, t, k + 1);
      }
    }
  }

  // ---------------------------------------------------------------------------------------------
  // Every jump and call lands

  /** Decoded where it stands, the instruction continues at `target` when it jumps. */
  ghost predicate Reaches(text: seq<byte>, p: nat, target: nat) {
    p <= |text| &&
    match Decode(text[p..])
    case Some((JumpBy(rel), n)) => p + n + rel == target
    case Some((JumpIf(_, rel), n)) => p + n + rel == target
    case Some((CallBy(rel), n)) => p + n + rel == target
    case _ => false
  }

  lemma {:induction false} LookupFinds(names: seq<string>, i: nat)
    requires i < |names|
    ensures Lookup(names, names[i]).Some? && Lookup(names, names[i]).value <= i
    ensures names[Lookup(names, names[i]).value] == names[i]
    decreases |names|
  {
    if names[0] != names[i] { LookupFinds(names[1..], i - 1); }
  }

  lemma Lands(items: seq<Item>, t: Targets, k: nat, target: nat)
    requires k < |items| && items[k].Code? && HasTarget(items[k].x)
    requires |Text(items, 0, |items|, t, |items|)| < 0x8000_0000 && target < 0x8000_0000
    requires var x, p := items[k].x, Pos(items, k); Distance(x, p, t, true) == target - (p + Size(x))
    ensures Reaches(Text(items, 0, |items|, t, |items|), Pos(items, k), target)
  {
    hide Decode, Encode, Text, Pos, Behind, Distance;
    var x, p, text := items[k].x, Pos(items, k), Text(items, 0, |items|, t, |items|);
    ItemStands(items, k, t, |items|);
    LengthIsFixed(x, Distance(x, p, t, true), 0);
    var code := Encode(x, Distance(x, p, t, true));
    assert At(text, p, code) by { CodeBytesAre(x, p, t); }
    assert text[p..] == code + text[p + |code|..];
    TargetRoundTrip(x, Distance(x, p, t, true), text[p + |code|..]);
  }

  lemma CodeBytesAre(x: X86, p: nat, t: Targets)
    ensures ItemBytes(Code(x), p, t, true) == Encode(x, Distance(x, p, t, true))
  {}

  /** A jump in the finished text continues exactly where its target block was put. */
  lemma JumpsLand(items: seq<Item>, t: Targets, k: nat, m: nat)
    requires Recorded(items, t.blocks, t.funcs) && k < |items| && m < |items|
    requires |Text(items, 0, |items|, t, |items|)| < 0x8000_0000
    requires items[k].Code? && (items[k].x.Jmp? || items[k].x.Jcc?) && items[m] == BlockStart(items[k].x.block)
    ensures Reaches(Text(items, 0, |items|, t, |items|), Pos(items, k), Pos(items, m))
  {
    hide Text, Pos, Encode;
    assert Noted(items, m, t.blocks, t.funcs);
    InText(items, t, m);
    Lands(items, t, k, Pos(items, m));
  }

  lemma InText(items: seq<Item>, t: Targets, m: nat)
    requires m < |items|
    ensures Pos(items, m) <= |Text(items, 0, |items|, t, |items|)|
  {
    hide Text;
    PosGrows(items, m, |items|);
    NothingBefore(items);
  }

  /** A call continues exactly where the first function of that name was put. */
  lemma CallsLand(items: seq<Item>, t: Targets, k: nat, f: nat, m: nat)
    requires Recorded(items, t.blocks, t.funcs) && k < |items| && m < |items|
    requires |Text(items, 0, |items|, t, |items|)| < 0x8000_0000 && |t.names| == |t.funcs|
    requires items[k].Code? && items[k].x.CallLabel? && Lookup(t.names, items[k].x.name) == S.Some(f)
    requires items[m] == FuncStart(f)
    ensures Reaches(Text(items, 0, |items|, t, |items|), Pos(items, k), Pos(items, m))
  {
    hide Text, Pos, Encode;
    assert Noted(items, m, t.blocks, t.funcs);
    InText(items, t, m);
    Lands(items, t, k, Pos(items, m));
  }

  /** Blocks and functions start at multiples of 16. */
  lemma {:induction false} StartsAligned(fs: seq<Function>, n: nat, k: nat)
    requires n <= |fs| && k < |Items(fs, n)| && (Items(fs, n)[k].BlockStart? || Items(fs, n)[k].FuncStart?)
    ensures k > 0
    ensures Items(fs, n)[k - 1] == Pad || (k > 1 && Items(fs, n)[k - 1].FuncStart? && Items(fs, n)[k - 2] == Pad)
    ensures Pos(Items(fs, n), k) % 16 == 0
    decreases n
  {
    var items, before := Items(fs, n), Items(fs, n - 1);
    if k < |before| {
      StartsAligned(fs, n - 1, k);
      PosPrefix(before, items, k);
    } else {
      var own := FuncItems(fs[n - 1], n - 1);
      assert items[k] == own[k - |before|];
      FuncStartsPadded(fs[n - 1], n - 1, k - |before|);
      PaddedIsAligned(items, k);
    }
  }

  lemma PaddedIsAligned(items: seq<Item>, k: nat)
    requires 0 < k <= |items| && (items[k - 1] == Pad || (k > 1 && items[k - 1].FuncStart? && items[k - 2] == Pad))
    ensures Pos(items, k) % 16 == 0
  {}

  lemma FuncStartsPadded(f: Function, i: nat, k: nat)
    requires var own := FuncItems(f, i); k < |own| && (own[k].BlockStart? || own[k].FuncStart?)
    ensures var own := FuncItems(f, i);
      k > 0 && (own[k - 1] == Pad || (k > 1 && own[k - 1].FuncStart? && own[k - 2] == Pad))
  {
    var own := FuncItems(f, i);
    if k > 1 {
      assert own[k] == BlocksItems(f.blocks, |f.blocks|)[k - 2];
      BlockStartsPadded(f.blocks, |f.blocks|, k - 2);
      if k > 2 { assert own[k - 1] == BlocksItems(f.blocks, |f.blocks|)[k - 3]; }
    }
  }

  lemma {:induction false} BlockStartsPadded(bs: seq<Block>, n: nat, k: nat)
    requires n <= |bs| && k < |BlocksItems(bs, n)|
    requires BlocksItems(bs, n)[k].BlockStart? || BlocksItems(bs, n)[k].FuncStart?
    ensures k == 0 || BlocksItems(bs, n)[k - 1] == Pad
    decreases n
  {
    var before := BlocksItems(bs, n - 1);
    if k < |before| {
      BlockStartsPadded(bs, n - 1, k);
    } else {
      var b := bs[n - 1];
      assert BlocksItems(bs, n)[k] == BlockItems(n == 1, b)[k - |before|];
      if n > 1 { assert BlocksItems(bs, n)[|before|] == Pad; }
    }
  }

  // ---------------------------------------------------------------------------------------------
  // Control runs on

  /** Every instruction from `p` up to `q` does nothing. */
  ghost predicate Slides(text: seq<byte>, p: nat, q: nat)
    decreases q - p
  {
    p == q || (p < q <= |text| &&
      match Decode(text[p..])
      case Some((Nothing, n)) => n > 0 && p + n <= q && Slides(text, p + n, q)
      case _ => false)
  }

  lemma {:induction false} NopsSlide(text: seq<byte>, p: nat, q: nat)
    requires p <= q <= |text| && forall k | p <= k < q :: text[k] == 0x90
    ensures Slides(text, p, q)
    decreases q - p
  {
    hide Decode;
    if p < q {
      NopDecodes(text[p..]);
      NopsSlide(text, p + 1, q);
    }
  }

  /** Padding does nothing. */
  lemma PaddingSlides(items: seq<Item>, t: Targets, k: nat)
    requires k < |items| && items[k] == Pad
    ensures Slides(Text(items, 0, |items|, t, |items|), Pos(items, k), Pos(items, k + 1))
  {
    hide Text, Pos, Slides;
    var text, p := Text(items, 0, |items|, t, |items|), Pos(items, k);
    ItemStands(items, k, t, |items|);
    PosStep(items, k);
    var n := AlignUp(p, 16) - p;
    assert At(text, p, Nops(n));
    forall j | p <= j < p + n
      ensures text[j] == 0x90
    {
      assert text[p..p + n][j - p] == Nops(n)[j - p];
    }
    NopsSlide(text, p, p + n);
  }

  lemma PosStep(items: seq<Item>, k: nat)
    requires k < |items|
    ensures Pos(items, k + 1) == Behind(items[k], Pos(items, k))
  {}

  /** An instruction is read back where it stands, and the next item stands behind it. */
  lemma RunsOn(items: seq<Item>, t: Targets, k: nat)
    requires k < |items| && items[k].Code? && Encodable(items[k].x) && !HasTarget(items[k].x)
    ensures var text, p := Text(items, 0, |items|, t, |items|), Pos(items, k);
      p <= |text| && Decode(text[p..]) == S.Some((Does(items[k].x), Pos(items, k + 1) - p))
  {
    hide Decode, Encode, Text, Pos;
    var x, p, text := items[k].x, Pos(items, k), Text(items, 0, |items|, t, |items|);
    ItemStands(items, k, t, |items|);
    PosStep(items, k);
    assert At(text, p, Encode(x, 0));
    assert text[p..] == Encode(x, 0) + text[p + Size(x)..];
    InstRoundTrip(x, 0, text[p + Size(x)..]);
  }

  /** The items of the block before the last padding of the first `j` blocks and one more. */
  lemma BlocksMeet(bs: seq<Block>, j: nat)
    requires j + 1 < |bs|
    ensures var a, n := BlocksItems(bs, j + 1), |bs[j].insts|;
      && |a| > n && a[|a| - n - 1] == BlockStart(bs[j].id) && a[|a| - n..] == Codes(bs[j].insts)
      && BlocksItems(bs, j + 2) == a + ([Pad, BlockStart(bs[j + 1].id)] + Codes(bs[j + 1].insts))
  {
    hide Codes;
    OneMoreBlock(bs, j);
    OneMoreBlock(bs, j + 1);
  }

  /** The first blocks of a function among all items. */
  lemma BlocksStand(fs: seq<Function>, f: nat, j: nat)
    requires f < |fs| && j <= |fs[f].blocks|
    ensures Items(fs, f) + [Pad, FuncStart(f)] + BlocksItems(fs[f].blocks, j) <= Items(fs, |fs|)
  {
    hide Items, BlocksItems;
    var bs, d := fs[f].blocks, Items(fs, f) + [Pad, FuncStart(f)];
    BlocksPrefix(bs, j, |bs|);
    ItemsPrefix(fs, f + 1, |fs|);
    OneMoreFunction(fs, f);
    assert Items(fs, f + 1) == d + BlocksItems(bs, |bs|);
    PrefixWithin(d, BlocksItems(bs, j), BlocksItems(bs, |bs|), Items(fs, |fs|));
  }

  /** Where two blocks of a function meet in the list of items. */
  lemma FunctionsMeet(fs: seq<Function>, f: nat, j: nat) returns (k: nat)
    requires f < |fs| && j + 1 < |fs[f].blocks|
    ensures var items, b := Items(fs, |fs|), fs[f].blocks[j];
      && |b.insts| < k && k + 1 < |items| && items[k] == Pad && items[k + 1] == BlockStart(fs[f].blocks[j + 1].id)
      && items[k - |b.insts| - 1] == BlockStart(b.id) && items[k - |b.insts|..k] == Codes(b.insts)
  {
    hide Items, BlocksItems, Codes;
    var bs, n := fs[f].blocks, |fs[f].blocks[j].insts|;
    var d, a := Items(fs, f) + [Pad, FuncStart(f)], BlocksItems(bs, j + 1);
    BlocksMeet(bs, j);
    BlocksStand(fs, f, j + 2);
    k := |d| + |a|;
    MeetAt(d, a, [Pad, BlockStart(bs[j + 1].id)], Codes(bs[j + 1].insts), Items(fs, |fs|), n);
  }

  lemma MeetAt(d: seq<Item>, a: seq<Item>, m: seq<Item>, c: seq<Item>, items: seq<Item>, n: nat)
    requires d + (a + (m + c)) <= items && n < |a| && |m| == 2
    ensures var k := |d| + |a|;
      && k + 1 < |items| && items[k] == m[0] && items[k + 1] == m[1]
      && items[k - n - 1] == a[|a| - n - 1] && items[k - n..k] == a[|a| - n..]
  {
    var all := d + (a + (m + c));
    assert all == items[..|all|];
    assert all[|d| + |a|] == m[0] && all[|d| + |a| + 1] == m[1] && all[|d| + (|a| - n - 1)] == a[|a| - n - 1];
    assert all[|d| + |a| - n..|d| + |a|] == a[|a| - n..];
  }

  lemma OneMoreFunction(fs: seq<Function>, f: nat)
    requires f < |fs|
    ensures Items(fs, f + 1) == Items(fs, f) + FuncItems(fs[f], f)
  {
    hide FuncItems;
  }

  /** Control that reaches the end of a block without a jump comes to the next block of the function: the last
      instruction ends where the padding starts, and the padding does nothing up to the start of that block. */
  lemma FallsThrough(fs: seq<Function>, t: Targets, f: nat, j: nat) returns (k: nat)
    requires f < |fs| && j + 1 < |fs[f].blocks| && Recorded(Items(fs, |fs|), t.blocks, t.funcs)
    ensures var items, insts := Items(fs, |fs|), fs[f].blocks[j].insts;
      var text := Text(items, 0, |items|, t, |items|);
      && |insts| < k < |items| && items[k - |insts| - 1] == BlockStart(fs[f].blocks[j].id)
      && items[k - |insts|..k] == Codes(insts)
      && fs[f].blocks[j + 1].id in t.blocks && Slides(text, Pos(items, k), t.blocks[fs[f].blocks[j + 1].id])
  {
    hide Items, Text, Pos, Slides, Recorded;
    k := FunctionsMeet(fs, f, j);
    var items := Items(fs, |fs|);
    PaddingSlides(items, t, k);
    assert Noted(items, k + 1, t.blocks, t.funcs) by { NotedThere(items, t, k + 1); }
  }

  lemma NotedThere(items: seq<Item>, t: Targets, k: nat)
    requires Recorded(items, t.blocks, t.funcs) && k < |items|
    ensures Noted(items, k, t.blocks, t.funcs)
  {
    hide Noted;
  }

  lemma PlainBytes(x: X86, p: nat, t: Targets)
    requires !HasTarget(x)
    ensures ItemBytes(Code(x), p, t, false) == Encode(x, 0) && RelocsOf(Code(x), p, t) == []
  {}

  lemma AlignedNow(n: nat, m: nat)
    requires n <= m <= AlignUp(n, 16) && m % 16 == 0
    ensures m == AlignUp(n, 16)
  {}

  lemma CodesEmpty(insts: seq<X86>)
    ensures Codes(insts[..0]) == []
  {}

  lemma CodesNext(insts: seq<X86>, i: nat)
    requires i < |insts|
    ensures Codes(insts[..i + 1]) == Codes(insts[..i]) + [Code(insts[i])] && Codes(insts[..i + 1]) <= Codes(insts)
  {}

  lemma CodePrefix(d: seq<Item>, insts: seq<X86>, i: nat, items: seq<Item>)
    requires i < |insts| && d + Codes(insts) <= items
    ensures d + Codes(insts[..i]) + [Code(insts[i])] <= items
  {
    CodesNext(insts, i);
  }

  lemma PadLaid(bytes: seq<byte>, blocks: map<nat, nat>, funcs: seq<nat>, relocs: seq<Reloc>, done: seq<Item>,
        t: Targets, second: bool, items: seq<Item>, bytes': seq<byte>, known: Targets)
    requires Laid(bytes, blocks, funcs, relocs, done, t, second) && done + [Pad] <= items && Unique(items)
    requires second ==> Recorded(items, t.blocks, t.funcs)
    requires bytes' == bytes + ItemBytes(Pad, |bytes|, known, false)
    ensures Laid(bytes', blocks, funcs, relocs, done + [Pad], t, second)
  {
    LaidNext(bytes, blocks, funcs, relocs, done, t, second, items, Pad, bytes', blocks, funcs, relocs);
  }

  lemma BlockLaid(bytes: seq<byte>, blocks: map<nat, nat>, funcs: seq<nat>, relocs: seq<Reloc>, done: seq<Item>,
        t: Targets, second: bool, items: seq<Item>, b: nat)
    requires Laid(bytes, blocks, funcs, relocs, done, t, second) && done + [BlockStart(b)] <= items && Unique(items)
    requires second ==> Recorded(items, t.blocks, t.funcs)
    ensures Laid(bytes, blocks[b := |bytes|], funcs, relocs, done + [BlockStart(b)], t, second)
  {
    LaidNext(bytes, blocks, funcs, relocs, done, t, second, items, BlockStart(b), bytes, blocks[b := |bytes|], funcs,
      relocs);
  }

  lemma FuncLaid(bytes: seq<byte>, blocks: map<nat, nat>, funcs: seq<nat>, relocs: seq<Reloc>, done: seq<Item>,
        t: Targets, second: bool, items: seq<Item>, f: nat)
    requires Laid(bytes, blocks, funcs, relocs, done, t, second) && done + [FuncStart(f)] <= items && Unique(items)
    requires second ==> Recorded(items, t.blocks, t.funcs)
    requires f < |funcs|
    ensures Laid(bytes, blocks, funcs[f := |bytes|], relocs, done + [FuncStart(f)], t, second)
  {
    LaidNext(bytes, blocks, funcs, relocs, done, t, second, items, FuncStart(f), bytes, blocks, funcs[f := |bytes|],
      relocs);
  }

  lemma CodeLaid(bytes: seq<byte>, blocks: map<nat, nat>, funcs: seq<nat>, relocs: seq<Reloc>, done: seq<Item>,
        t: Targets, second: bool, items: seq<Item>, x: X86, bytes': seq<byte>, relocs': seq<Reloc>)
    requires Laid(bytes, blocks, funcs, relocs, done, t, second) && done + [Code(x)] <= items && Unique(items)
    requires second ==> Recorded(items, t.blocks, t.funcs)
    requires bytes' == bytes + ItemBytes(Code(x), |bytes|, Targets(blocks, funcs, t.names), false)
    requires second ==> relocs' == relocs + RelocsOf(Code(x), |bytes|, Targets(blocks, funcs, t.names))
    ensures Laid(bytes', blocks, funcs, relocs', done + [Code(x)], t, second)
  {
    hide ItemBytes, RelocsOf, Recorded, Unique;
    assert second ==> Targets(blocks, funcs, t.names) == t;
    LaidNext(bytes, blocks, funcs, relocs, done, t, second, items, Code(x), bytes', blocks, funcs, relocs');
  }
}
