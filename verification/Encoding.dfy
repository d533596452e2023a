/** Machine code of the 64-bit instructions, and a decoder that follows the processor's manual. */
module Encoding {
  import opened Bytes
  import opened Sir
  import A = Alignment

  type Reg = x: nat | x < 16

  type i32 = x: int | -0x8000_0000 <= x < 0x8000_0000

  type u64 = x: nat | x < 0x1_0000_0000_0000_0000

  datatype Mem = BaseDisp(base: Reg, disp: i32) | Sib(base: Reg, index: Reg, scale: nat, disp: i32)

  datatype AluOp = AluAdd | AluSub | AluAnd | AluOr | AluXor | AluCmp | AluTest

  datatype Cond = E | NE | L | LE_ | G | GE | B | BE | A | AE

  /** `Raw` stands for every other instruction: its bytes, which name no target in the text. */
  datatype X86 =
    | MovImm(dst: Reg, imm: u64)
    | MovReg(dst: Reg, src: Reg)
    | Load(dst: Reg, mem: Mem)
    | Store(mem: Mem, src: Reg)
    | Lea(dst: Reg, mem: Mem)
    | Alu(op: AluOp, dst: Reg, src: Reg)
    | AluImm(op: AluOp, dst: Reg, value: i32)
    | Push(reg: Reg)
    | Pop(reg: Reg)
    | CallReg(reg: Reg)
    | Ret
    | Jmp(block: nat)
    | Jcc(cond: Cond, block: nat)
    | CallLabel(name: string)
    | Raw(bytes: seq<byte>)

  predicate HasTarget(x: X86) { x.Jmp? || x.Jcc? || x.CallLabel? }

  /** What the instruction selector may ask for: an index is never RSP, scales are 1, 2, 4 and 8.  The bytes of other
      instructions are not read back. */
  predicate Encodable(x: X86) {
    match x
    case Load(_, m) => MemOk(m)
    case Store(m, _) => MemOk(m)
    case Lea(_, m) => MemOk(m)
    case MovReg(d, s) => d != s
    case Raw(_) => false
    case _ => true
  }

  predicate MemOk(m: Mem) { m.Sib? ==> m.index != 4 && m.scale < 4 }

  // ---------------------------------------------------------------------------------------------
  // Encoding

  function Byte(v: int): byte { v % 256 }

  function Rex(w: bool, r: bool, x: bool, b: bool): byte {
    0x40 + (if w then 8 else 0) + (if r then 4 else 0) + (if x then 2 else 0) + if b then 1 else 0
  }

  /** Without any bit set no prefix is needed. */
  function RexIf(w: bool, r: bool, x: bool, b: bool): seq<byte> { if w || r || x || b then [Rex(w, r, x, b)] else [] }

  function ModRM(mod: nat, reg: nat, rm: nat): byte { (mod % 4) * 64 + (reg % 8) * 8 + rm % 8 }

  /** A displacement or immediate of 32 bits, in two's complement. */
  function Word(v: int): (s: seq<byte>)
    ensures |s| == 4
  {
    LE(v % 0x1_0000_0000, 4)
  }

  function EmitMem(reg: Reg, base: Reg, offset: i32): seq<byte> {
    var r, b := reg % 8, base % 8;
    var sib: seq<byte> := if b == 4 then [ModRM(0, 4, 4)] else [];
    if offset == 0 && b != 5 then [ModRM(0, r, b)] + sib
    else if -128 <= offset <= 127 then [ModRM(1, r, b)] + sib + [Byte(offset)]
    else [ModRM(2, r, b)] + sib + Word(offset)
  }

  function EmitMemOp(reg: Reg, m: Mem): seq<byte> {
    match m
    case BaseDisp(base, disp) => EmitMem(reg, base, disp)
    case Sib(base, index, scale, disp) =>
      var b := base % 8;
      if disp == 0 && b != 5 then [ModRM(0, reg % 8, 4), ModRM(scale, index, b)]
      else if -128 <= disp <= 127 then [ModRM(1, reg % 8, 4), ModRM(scale, index, b), Byte(disp)]
      else [ModRM(2, reg % 8, 4), ModRM(scale, index, b)] + Word(disp)
  }

  /** The prefix of an instruction with a register and a memory operand. */
  function MemRex(reg: Reg, m: Mem): seq<byte> { RexIf(true, reg > 7, m.Sib? && m.index > 7, m.base > 7) }

  function MovRegImm64(reg: Reg, imm: u64): seq<byte> {
    if imm == 0 then (if reg > 7 then RexIf(false, true, false, true) else []) + [0x31, ModRM(3, reg, reg)]
    else if imm < 0x1_0000_0000 then
      (if reg > 7 then RexIf(false, false, false, true) else []) + [0xB8 + reg % 8] + LE(imm, 4)
    else if imm >= 0xFFFF_FFFF_8000_0000 then
      RexIf(true, false, false, reg > 7) + [0xC7, ModRM(3, 0, reg)] + LE(imm % 0x1_0000_0000, 4)
    else RexIf(true, false, false, reg > 7) + [0xB8 + reg % 8] + LE(imm % 0x1_0000_0000, 4) + LE(imm / 0x1_0000_0000, 4)
  }

  function AluByte(op: AluOp): byte {
    match op
    case AluAdd => 0x01
    case AluSub => 0x29
    case AluAnd => 0x21
    case AluOr => 0x09
    case AluXor => 0x31
    case AluCmp => 0x39
    case AluTest => 0x85
  }

  function AluExt(op: AluOp): nat {
    match op
    case AluAdd => 0
    case AluSub => 5
    case AluAnd => 4
    case AluOr => 1
    case AluXor => 6
    case AluCmp => 7
    case AluTest => 0
  }

  function CondByte(c: Cond): byte {
    match c
    case E => 0x84
    case NE => 0x85
    case L => 0x8C
    case LE_ => 0x8E
    case G => 0x8F
    case GE => 0x8D
    case B => 0x82
    case BE => 0x86
    case A => 0x87
    case AE => 0x83
  }

  /** The bytes of an instruction; `rel` is the distance from its end to its target. */
  function Encode(x: X86, rel: int): seq<byte> {
    match x
    case MovImm(dst, imm) => MovRegImm64(dst, imm)
    case MovReg(dst, src) => if dst == src then []
      else RexIf(true, src > 7, false, dst > 7) + [0x89, ModRM(3, src, dst)]
    case Load(dst, m) => MemRex(dst, m) + [0x8B] + EmitMemOp(dst, m)
    case Store(m, src) => MemRex(src, m) + [0x89] + EmitMemOp(src, m)
    case Lea(dst, m) => MemRex(dst, m) + [0x8D] + EmitMemOp(dst, m)
    case Alu(op, dst, src) => RexIf(true, src > 7, false, dst > 7) + [AluByte(op), ModRM(3, src, dst)]
    case AluImm(op, dst, v) =>
      if op.AluTest? then RexIf(true, false, false, dst > 7) + [0xF7, ModRM(3, 0, dst)] + Word(v)
      else if -128 <= v <= 127 then RexIf(true, false, false, dst > 7) + [0x83, ModRM(3, AluExt(op), dst), Byte(v)]
      else RexIf(true, false, false, dst > 7) + [0x81, ModRM(3, AluExt(op), dst)] + Word(v)
    case Push(r) => (if r > 7 then RexIf(false, false, false, true) else []) + [0x50 + r % 8]
    case Pop(r) => (if r > 7 then RexIf(false, false, false, true) else []) + [0x58 + r % 8]
    case CallReg(r) => RexIf(true, false, false, r > 7) + [0xFF, ModRM(3, 2, r)]
    case Ret => [0xC3]
    case Jmp(_) => [0xE9] + Word(rel)
    case Jcc(c, _) => [0x0F, CondByte(c)] + Word(rel)
    case CallLabel(_) => [0xE8] + Word(rel)
    case Raw(bytes) => bytes
  }

  /** The length of the code does not depend on where the target is. */
  lemma LengthIsFixed(x: X86, rel: int, rel': int)
    ensures |Encode(x, rel)| == |Encode(x, rel')|
  {}

  // ---------------------------------------------------------------------------------------------
  // Decoding, by sections 2.1.3 and 2.2.1 of volume 2 of the Intel 64 manual

  /** Prefix bits. */
  datatype Bits = Bits(w: bool, r: bool, x: bool, b: bool)

  function BitsOf(v: byte): Bits { Bits(v / 8 % 2 == 1, v / 4 % 2 == 1, v / 2 % 2 == 1, v % 2 == 1) }

  function Extend(n: nat, high: bool): Reg { n % 8 + if high then 8 else 0 }

  function Signed8(v: byte): i32 { if v < 128 then v else (v as int) - 256 }

  function Signed32(s: seq<byte>): i32
    requires |s| == 4
  {
    var v := Number(s) % 0x1_0000_0000;
    if v < 0x8000_0000 then v else v - 0x1_0000_0000
  }

  /** A displacement of 0, 1 or 4 bytes, as the mod field says. */
  function DispOf(mod: nat, s: seq<byte>): Option<(i32, nat)> {
    if mod == 0 then Some((0, 0))
    else if mod == 1 then (if |s| >= 1 then Some((Signed8(s[0]), 1)) else None)
    else if |s| >= 4 then Some((Signed32(s[..4]), 4))
    else None
  }

  /** Register field, memory operand and length of a ModRM byte with what follows; forms without a base register are
      not used. */
  function DecodeMem(k: Bits, s: seq<byte>): Option<(Reg, Mem, nat)> {
    if s == [] then None
    else
      var mod, reg, rm := s[0] / 64, Extend(s[0] / 8, k.r), s[0] % 8;
      if mod == 3 then None
      else if rm == 4 then
        if |s| < 2 then None
        else
          var scale, index, base := s[1] / 64, Extend(s[1] / 8, k.x), s[1] % 8;
          if base == 5 && mod == 0 then None
          else
            match DispOf(mod, s[2..])
            case None => None
            case Some(d) =>
              if index == 4 then Some((reg, BaseDisp(Extend(base, k.b), d.0), 2 + d.1))
              else Some((reg, Mem.Sib(Extend(base, k.b), index, scale, d.0), 2 + d.1))
      else if rm == 5 && mod == 0 then None
      else
        match DispOf(mod, s[1..])
        case None => None
        case Some(d) => Some((reg, BaseDisp(Extend(rm, k.b), d.0), 1 + d.1))
  }

  lemma Fields(mod: nat, reg: nat, rm: nat)
    requires mod < 4
    ensures var v := ModRM(mod, reg, rm); v / 64 == mod && v / 8 % 8 == reg % 8 && v % 8 == rm % 8
  {
    var v, r, m := ModRM(mod, reg, rm), reg % 8, rm % 8;
    A.DivisionIs(v, 64, mod, r * 8 + m);
    A.DivisionIs(v, 8, mod * 8 + r, m);
    A.DivisionIs(mod * 8 + r, 8, mod, r);
  }

  lemma WordRoundTrip(v: i32, s: seq<byte>)
    ensures (Word(v) + s)[..4] == Word(v) && Signed32(Word(v)) == v
  {
    hide LE, Number, Bound;
    BoundOfFour();
    NumberOfLE(v % 0x1_0000_0000, 4);
  }

  lemma BoundOfFour()
    ensures Bound(4) == 0x1_0000_0000
  {
    assert Bound(2) == 65536;
  }

  lemma DispRoundTrip(v: i32, s: seq<byte>)
    ensures DispOf(2, Word(v) + s) == Some((v, 4))
    ensures -128 <= v <= 127 ==> DispOf(1, [Byte(v)] + s) == Some((v, 1))
    ensures v == 0 ==> DispOf(0, s) == Some((v, 0))
  {
    hide Signed32, Word;
    WordRoundTrip(v, s);
  }

  /** The displacement bytes the encoder appends, and the mod field that goes with them. */
  function ModOf(disp: i32, base: Reg): nat
  {
    if disp == 0 && base % 8 != 5 then 0 else if -128 <= disp <= 127 then 1 else 2
  }

  function DispBytes(disp: i32, base: Reg): seq<byte>
  {
    if ModOf(disp, base) == 0 then [] else if ModOf(disp, base) == 1 then [Byte(disp)] else Word(disp)
  }

  lemma MemBytes(reg: Reg, m: Mem)
    requires m.Sib? ==> m.scale < 4
    ensures EmitMemOp(reg, m) ==
      if m.Sib? then [ModRM(ModOf(m.disp, m.base), reg, 4), ModRM(m.scale, m.index, m.base)] + DispBytes(m.disp, m.base)
      else BaseBytes(reg, m.base, m.disp) + DispBytes(m.disp, m.base)
  {
    hide EmitMemOp, BaseBytes, ModRM, DispBytes;
    if m.Sib? { SibMemBytes(reg, m); } else { BaseMemBytes(reg, m); }
  }

  /** The bytes before the displacement of an operand without index. */
  function BaseBytes(reg: Reg, base: Reg, disp: i32): seq<byte> {
    [ModRM(ModOf(disp, base), reg, base)] + if base % 8 == 4 then [ModRM(0, 4, 4)] else []
  }

  lemma SibMemBytes(reg: Reg, m: Mem)
    requires m.Sib? && m.scale < 4
    ensures EmitMemOp(reg, m)
      == [ModRM(ModOf(m.disp, m.base), reg, 4), ModRM(m.scale, m.index, m.base)] + DispBytes(m.disp, m.base)
  {
    hide ModRM, Byte, Word;
    LowThree(ModOf(m.disp, m.base), reg, 4);
    LowThree(m.scale, m.index, m.base);
  }

  lemma BaseMemBytes(reg: Reg, m: Mem)
    requires m.BaseDisp?
    ensures EmitMemOp(reg, m) == BaseBytes(reg, m.base, m.disp) + DispBytes(m.disp, m.base)
  {
    hide ModRM, Byte, Word;
    LowThree(ModOf(m.disp, m.base), reg, m.base);
  }

  /** Only the low three bits of a register go into the byte. */
  lemma LowThree(mod: nat, reg: Reg, rm: Reg)
    ensures ModRM(mod, reg % 8, rm) == ModRM(mod, reg, rm) == ModRM(mod, reg, rm % 8) == ModRM(mod, reg % 8, rm % 8)
  {
    assert reg % 8 % 8 == reg % 8 && rm % 8 % 8 == rm % 8;
  }

  /** Every memory operand is decoded back, whatever its base register, index, scale and displacement. */
  lemma MemRoundTrip(k: Bits, reg: Reg, m: Mem, s: seq<byte>)
    requires MemOk(m) && k.r == (reg > 7) && k.x == (m.Sib? && m.index > 7) && k.b == (m.base > 7)
    ensures DecodeMem(k, EmitMemOp(reg, m) + s) == Some((reg, m, |EmitMemOp(reg, m)|))
  {
    hide DecodeMem, EmitMemOp;
    if m.Sib? || m.base % 8 == 4 { SibRoundTrip(k, reg, m, s); } else { BaseRoundTrip(k, reg, m, s); }
  }

  /** Operands with a SIB byte: those with an index, and those based on RSP or R12. */
  lemma SibRoundTrip(k: Bits, reg: Reg, m: Mem, s: seq<byte>)
    requires MemOk(m) && k.r == (reg > 7) && k.x == (m.Sib? && m.index > 7) && k.b == (m.base > 7)
    requires m.Sib? || m.base % 8 == 4
    ensures DecodeMem(k, EmitMemOp(reg, m) + s) == Some((reg, m, |EmitMemOp(reg, m)|))
  {
    hide DispOf, Word, Byte, Extend, ModRM, EmitMemOp, DispBytes;
    var mod, d := ModOf(m.disp, m.base), DispBytes(m.disp, m.base);
    var index: Reg, scale := if m.Sib? then m.index else 4, if m.Sib? then m.scale else 0;
    DispStands(m.disp, m.base, s);
    var t := EmitMemOp(reg, m) + s;
    SibBytes(reg, m, s);
    Fields(mod, reg, if m.Sib? then 4 else m.base);
    Fields(scale, index, if m.Sib? then m.base else 4);
    ExtendMod(t[0] / 8, reg, k.r);
    ExtendMod(t[1] / 8, index, k.x);
    ExtendMod(t[1] % 8, m.base, k.b);
  }

  lemma SibBytes(reg: Reg, m: Mem, s: seq<byte>)
    requires MemOk(m) && (m.Sib? || m.base % 8 == 4)
    ensures var t, d := EmitMemOp(reg, m) + s, DispBytes(m.disp, m.base);
      && |EmitMemOp(reg, m)| == 2 + |d| && |t| >= 2 && t[2..] == d + s
      && t[0] == ModRM(ModOf(m.disp, m.base), reg, if m.Sib? then 4 else m.base)
      && t[1] == if m.Sib? then ModRM(m.scale, m.index, m.base) else ModRM(0, 4, 4)
  {
    hide ModRM, EmitMemOp, DispBytes;
    MemBytes(reg, m);
  }

  /** Operands without one. */
  lemma BaseRoundTrip(k: Bits, reg: Reg, m: Mem, s: seq<byte>)
    requires m.BaseDisp? && m.base % 8 != 4 && k.r == (reg > 7) && k.b == (m.base > 7)
    ensures DecodeMem(k, EmitMemOp(reg, m) + s) == Some((reg, m, |EmitMemOp(reg, m)|))
  {
    hide DispOf, Word, Byte, Extend, ModRM, EmitMemOp, DispBytes;
    MemBytes(reg, m);
    var mod, d := ModOf(m.disp, m.base), DispBytes(m.disp, m.base);
    DispStands(m.disp, m.base, s);
    var t := EmitMemOp(reg, m) + s;
    Fields(mod, reg, m.base);
    assert t[0] == ModRM(mod, reg, m.base) && t[1..] == d + s;
    ExtendMod(t[0] / 8, reg, k.r);
    ExtendMod(t[0] % 8, m.base, k.b);
  }

  lemma ExtendMod(n: nat, r: Reg, high: bool)
    requires n % 8 == r % 8 && (high <==> r > 7)
    ensures Extend(n, high) == r
  {}

  lemma DispStands(disp: i32, base: Reg, s: seq<byte>)
    ensures DispOf(ModOf(disp, base), DispBytes(disp, base) + s) == Some((disp, |DispBytes(disp, base)|))
  {
    hide Word, Byte, DispOf;
    DispRoundTrip(disp, s);
    assert [] + s == s;
  }

  /** RSP cannot be an index: the operand would be read as one without an index. */
  lemma StackPointerIndexIsLost(reg: Reg, base: Reg, scale: nat, disp: i32, s: seq<byte>)
    requires scale < 4
    ensures var m := Mem.Sib(base, 4, scale, disp);
      DecodeMem(Bits(true, reg > 7, false, base > 7), EmitMemOp(reg, m) + s)
        == Some((reg, BaseDisp(base, disp), |EmitMemOp(reg, m)|))
  {
    hide DispOf, Word, Byte, Extend, ModRM, EmitMemOp;
    var m := Mem.Sib(base, 4, scale, disp);
    var mod, d := ModOf(disp, base), DispBytes(disp, base);
    assert EmitMemOp(reg, m) == [ModRM(mod, reg, 4), ModRM(scale, 4, base)] + d by { MemBytes(reg, m); }
    var t := EmitMemOp(reg, m) + s;
    DispStands(disp, base, s);
    Fields(mod, reg, 4);
    Fields(scale, 4, base);
    assert t[2..] == d + s;
    ExtendMod(t[0] / 8, reg, reg > 7);
    ExtendMod(t[1] / 8, 4, false);
    ExtendMod(t[1] % 8, base, base > 7);
  }

  // ---------------------------------------------------------------------------------------------
  // Whole instructions

  /** What an instruction does; a target is the distance from the instruction's end. */
  datatype Shape = Does(x: X86) | JumpBy(rel: i32) | JumpIf(cond: Cond, rel: i32) | CallBy(rel: i32) | Nothing

  function ShapeOf(x: X86, rel: i32): Shape {
    match x
    case Jmp(_) => JumpBy(rel)
    case Jcc(c, _) => JumpIf(c, rel)
    case CallLabel(_) => CallBy(rel)
    case _ => Does(x)
  }

  function AluOf(c: byte): Option<AluOp> {
    if c == 0x01 then Some(AluAdd) else if c == 0x29 then Some(AluSub) else if c == 0x21 then Some(AluAnd)
      else if c == 0x09 then Some(AluOr)
    else if c == 0x31 then Some(AluXor) else if c == 0x39 then Some(AluCmp) else if c == 0x85 then Some(AluTest)
      else None
  }

  function AluOfExt(n: nat): Option<AluOp> {
    if n == 0 then Some(AluAdd) else if n == 5 then Some(AluSub) else if n == 4 then Some(AluAnd)
      else if n == 1 then Some(AluOr)
    else if n == 6 then Some(AluXor) else if n == 7 then Some(AluCmp) else None
  }

  function CondOf(c: byte): Option<Cond> {
    if c == 0x84 then Some(E) else if c == 0x85 then Some(NE) else if c == 0x8C then Some(L)
      else if c == 0x8E then Some(LE_)
    else if c == 0x8F then Some(G) else if c == 0x8D then Some(GE) else if c == 0x82 then Some(B)
      else if c == 0x86 then Some(BE)
    else if c == 0x87 then Some(A) else if c == 0x83 then Some(AE) else None
  }

  /** The opcodes with a ModRM byte that names two registers. */
  function DecodeRegs(k: Bits, c: byte, t: seq<byte>): Option<(Shape, nat)>
    requires t != [] && t[0] / 64 == 3
  {
    var reg, rm := Extend(t[0] / 8, k.r), Extend(t[0], k.b);
    if c == 0x89 && k.w then Some((Does(MovReg(rm, reg)), 2))
    else if c == 0x31 && !k.w && reg == rm then Some((Does(MovImm(rm, 0)), 2))
    else if AluOf(c).Some? && k.w then Some((Does(Alu(AluOf(c).value, rm, reg)), 2))
    else if c == 0x83 && k.w && AluOfExt(t[0] / 8 % 8).Some? && |t| >= 2 then
      Some((Does(AluImm(AluOfExt(t[0] / 8 % 8).value, rm, Signed8(t[1]))), 3))
    else if c == 0x81 && k.w && AluOfExt(t[0] / 8 % 8).Some? && |t| >= 5 then
      Some((Does(AluImm(AluOfExt(t[0] / 8 % 8).value, rm, Signed32(t[1..5]))), 6))
    else if c == 0xF7 && k.w && t[0] / 8 % 8 == 0 && |t| >= 5 then
      Some((Does(AluImm(AluTest, rm, Signed32(t[1..5]))), 6))
    else if c == 0xC7 && k.w && t[0] / 8 % 8 == 0 && |t| >= 5 then
      Some((Does(MovImm(rm, Signed32(t[1..5]) % 0x1_0000_0000_0000_0000)), 6))
    else if c == 0xFF && t[0] / 8 % 8 == 2 then Some((Does(CallReg(rm)), 2))
    else None
  }

  function DecodeOp(k: Bits, s: seq<byte>): Option<(Shape, nat)> {
    if s == [] then None
    else
      var c, t := s[0], s[1..];
      if c == 0xC3 then Some((Does(X86.Ret), 1))
      else if c == 0x90 && !k.b then Some((Nothing, 1))
      else if 0x50 <= c < 0x58 then Some((Does(Push(Extend(c, k.b))), 1))
      else if 0x58 <= c < 0x60 then Some((Does(Pop(Extend(c, k.b))), 1))
      else if c == 0xE9 then (if |t| >= 4 then Some((JumpBy(Signed32(t[..4])), 5)) else None)
      else if c == 0xE8 then (if |t| >= 4 then Some((CallBy(Signed32(t[..4])), 5)) else None)
      else if c == 0x0F then
        (if |t| >= 5 && CondOf(t[0]).Some? then Some((JumpIf(CondOf(t[0]).value, Signed32(t[1..5])), 6)) else None)
      else if 0xB8 <= c < 0xC0 then
        (if k.w && |t| >= 8 then Some((Does(MovImm(Extend(c, k.b), Number(t[..8]) % 0x1_0000_0000_0000_0000)), 9))
         else if !k.w && |t| >= 4 then Some((Does(MovImm(Extend(c, k.b), Number(t[..4]) % 0x1_0000_0000)), 5))
         else None)
      else if t != [] && t[0] / 64 == 3 then DecodeRegs(k, c, t)
      else if k.w && (c == 0x8B || c == 0x89 || c == 0x8D) then
        match DecodeMem(k, t)
        case None => None
        case Some(m) => Some((Does(if c == 0x8B then X86.Load(m.0, m.1) else if c == 0x89 then X86.Store(m.1, m.0)
          else Lea(m.0, m.1)), 1 + m.2))
      else None
  }

  function Decode(s: seq<byte>): Option<(Shape, nat)> {
    if s != [] && 0x40 <= s[0] < 0x50 then
      match DecodeOp(BitsOf(s[0]), s[1..])
      case None => None
      case Some(d) => Some((d.0, d.1 + 1))
    else DecodeOp(Bits(false, false, false, false), s)
  }

  /** One byte that does nothing. */
  lemma NopDecodes(s: seq<byte>)
    requires s != [] && s[0] == 0x90
    ensures Decode(s) == Some((Nothing, 1))
  {
    hide DecodeRegs, DecodeMem;
  }

  /** Reading the prefix back. */
  lemma PrefixRead(w: bool, r: bool, x: bool, b: bool, t: seq<byte>)
    requires t != [] && !(0x40 <= t[0] < 0x50)
    ensures Decode(RexIf(w, r, x, b) + t) ==
      match DecodeOp(Bits(w, r, x, b), t)
      case None => None
      case Some(d) => Some((d.0, d.1 + |RexIf(w, r, x, b)|))
  {
    hide DecodeOp;
    if w || r || x || b {
      assert (RexIf(w, r, x, b) + t)[1..] == t;
      assert BitsOf(Rex(w, r, x, b)) == Bits(w, r, x, b);
    } else {
      assert RexIf(w, r, x, b) + t == t;
    }
  }

  /** Instructions without operands that need care. */
  lemma RegsRoundTrip(k: Bits, c: byte, reg: Reg, rm: Reg, s: seq<byte>)
    requires k.r == (reg > 7) && k.b == (rm > 7)
    ensures var t := [ModRM(3, reg, rm)] + s;
      t[0] / 64 == 3 && t[0] / 8 % 8 == reg % 8 && Extend(t[0] / 8, k.r) == reg && Extend(t[0], k.b) == rm
  {
    Fields(3, reg, rm);
    var v := ModRM(3, reg, rm);
    ExtendMod(v / 8, reg, k.r);
    ExtendMod(v, rm, k.b);
  }

  lemma MemoryInstRoundTrip(x: X86, rel: i32, s: seq<byte>)
    requires Encodable(x) && (x.Load? || x.Store? || x.Lea?)
    ensures Decode(Encode(x, rel) + s) == Some((Does(x), |Encode(x, rel)|))
  {
    hide DecodeMem, EmitMemOp, Decode, DecodeRegs, RexIf;
    var m, reg, c: byte := x.mem, if x.Store? then x.src else x.dst, if x.Load? then 0x8B else if x.Store? then 0x89
      else 0x8D;
    var t := [c] + EmitMemOp(reg, m) + s;
    MemoryBytes(x, rel, reg, c, s);
    PrefixRead(true, reg > 7, m.Sib? && m.index > 7, m.base > 7, t);
    MemRoundTrip(Bits(true, reg > 7, m.Sib? && m.index > 7, m.base > 7), reg, m, s);
    assert t[1..] == EmitMemOp(reg, m) + s;
    NotRegisters(reg, m, s);
  }

  lemma MemoryBytes(x: X86, rel: i32, reg: Reg, c: byte, s: seq<byte>)
    requires x.Load? || x.Store? || x.Lea?
    requires reg == (if x.Store? then x.src else x.dst)
    requires c == if x.Load? then 0x8B else if x.Store? then 0x89 else 0x8D
    ensures var m := x.mem;
      Encode(x, rel) + s
        == RexIf(true, reg > 7, m.Sib? && m.index > 7, m.base > 7) + ([c] + EmitMemOp(reg, m) + s)
  {
    hide EmitMemOp, RexIf;
  }

  lemma NotRegisters(reg: Reg, m: Mem, s: seq<byte>)
    requires MemOk(m)
    ensures EmitMemOp(reg, m) != [] && (EmitMemOp(reg, m) + s)[0] / 64 != 3
  {
    hide EmitMemOp, DispBytes, ModRM;
    MemBytes(reg, m);
    Fields(ModOf(m.disp, m.base), reg, 4);
    Fields(ModOf(m.disp, m.base), reg, m.base);
  }

  lemma RegisterInstRoundTrip(x: X86, rel: i32, s: seq<byte>)
    requires Encodable(x) && (x.MovReg? || x.Alu? || x.CallReg?)
    ensures Decode(Encode(x, rel) + s) == Some((Does(x), |Encode(x, rel)|))
  {
    hide Decode, DecodeMem, DecodeOp, RexIf, ModRM, Extend;
    var reg: Reg, rm: Reg := if x.CallReg? then 2 else x.src, if x.CallReg? then x.reg else x.dst;
    var c: byte := if x.MovReg? then 0x89 else if x.Alu? then AluByte(x.op) else 0xFF;
    var u := [ModRM(3, reg, rm)] + s;
    RegisterBytes(x, rel, reg, rm, c, s);
    PrefixRead(true, reg > 7, false, rm > 7, [c] + u);
    RegsRoundTrip(Bits(true, reg > 7, false, rm > 7), c, reg, rm, s);
    RegsDecoded(Bits(true, reg > 7, false, rm > 7), c, u);
  }

  lemma RegisterBytes(x: X86, rel: i32, reg: Reg, rm: Reg, c: byte, s: seq<byte>)
    requires Encodable(x) && (x.MovReg? || x.Alu? || x.CallReg?)
    requires reg == (if x.CallReg? then 2 else x.src) && rm == if x.CallReg? then x.reg else x.dst
    requires c == if x.MovReg? then 0x89 else if x.Alu? then AluByte(x.op) else 0xFF
    ensures Encode(x, rel) + s == RexIf(true, reg > 7, false, rm > 7) + ([c] + ([ModRM(3, reg, rm)] + s))
  {
    hide RexIf, ModRM;
  }

  lemma AluImmRoundTrip(x: X86, rel: i32, s: seq<byte>)
    requires Encodable(x) && x.AluImm?
    ensures Decode(Encode(x, rel) + s) == Some((Does(x), |Encode(x, rel)|))
  {
    if -128 <= x.value <= 127 && !x.op.AluTest? { AluShortRoundTrip(x, rel, s); } else { AluLongRoundTrip(x, rel, s); }
  }

  lemma AluShortRoundTrip(x: X86, rel: i32, s: seq<byte>)
    requires Encodable(x) && x.AluImm? && !x.op.AluTest? && -128 <= x.value <= 127
    ensures Decode(Encode(x, rel) + s) == Some((Does(x), |Encode(x, rel)|))
  {
    hide Decode, DecodeMem, DecodeOp, RexIf, ModRM, Extend, Byte, Signed8;
    var ext: Reg, k := AluExt(x.op), Bits(true, false, false, x.dst > 7);
    var u := [ModRM(3, ext, x.dst)] + ([Byte(x.value)] + s);
    assert Encode(x, rel) + s == RexIf(true, false, false, x.dst > 7) + ([0x83] + u);
    PrefixRead(true, false, false, x.dst > 7, [0x83] + u);
    RegsRoundTrip(k, 0x83, ext, x.dst, [Byte(x.value)] + s);
    SignedByte(x.value);
    RegsDecoded(k, 0x83, u);
  }

  lemma AluLongRoundTrip(x: X86, rel: i32, s: seq<byte>)
    requires Encodable(x) && x.AluImm? && (x.op.AluTest? || !(-128 <= x.value <= 127))
    ensures Decode(Encode(x, rel) + s) == Some((Does(x), |Encode(x, rel)|))
  {
    hide Decode, DecodeMem, DecodeOp, RexIf, ModRM, Extend, Word, Signed32;
    var ext: Reg, k := AluExt(x.op), Bits(true, false, false, x.dst > 7);
    var u := [ModRM(3, ext, x.dst)] + (Word(x.value) + s);
    var c: byte := if x.op.AluTest? then 0xF7 else 0x81;
    assert Encode(x, rel) + s == RexIf(true, false, false, x.dst > 7) + ([c] + u);
    PrefixRead(true, false, false, x.dst > 7, [c] + u);
    RegsRoundTrip(k, c, ext, x.dst, Word(x.value) + s);
    WordRoundTrip(x.value, s);
    WordBehind(ModRM(3, ext, x.dst), Word(x.value), s);
    RegsDecoded(k, c, u);
  }

  /** An opcode whose ModRM byte names two registers. */
  lemma RegsDecoded(k: Bits, c: byte, u: seq<byte>)
    requires u != [] && u[0] / 64 == 3
    requires AluOf(c).Some? || c == 0x89 || c == 0x83 || c == 0x81 || c == 0xF7 || c == 0xC7 || c == 0xFF
    ensures DecodeOp(k, [c] + u) == DecodeRegs(k, c, u)
  {
    hide DecodeRegs;
    assert ([c] + u)[1..] == u;
  }

  lemma SignedByte(v: int)
    requires -128 <= v <= 127
    ensures Signed8(Byte(v)) == v
  {}

  /** Loading an immediate: all four encodings load exactly the value. */
  lemma MovImmRoundTrip(reg: Reg, imm: u64, rel: i32, s: seq<byte>)
    ensures var x := MovImm(reg, imm); Decode(Encode(x, rel) + s) == Some((Does(x), |Encode(x, rel)|))
  {
    if imm == 0 { MovZero(reg, rel, s); }
    else if imm < 0x1_0000_0000 { MovShort(reg, imm, rel, s); }
    else if imm >= 0xFFFF_FFFF_8000_0000 { MovNegative(reg, imm, rel, s); }
    else { MovLong(reg, imm, rel, s); }
  }

  lemma MovZero(reg: Reg, rel: i32, s: seq<byte>)
    ensures var x := MovImm(reg, 0); Decode(Encode(x, rel) + s) == Some((Does(x), |Encode(x, rel)|))
  {
    hide Decode, DecodeMem, ModRM, Extend;
    var x, high, t := MovImm(reg, 0), reg > 7, [0x31] + ([ModRM(3, reg, reg)] + s);
    assert Encode(x, rel) + s == RexIf(false, high, false, high) + t;
    PrefixRead(false, high, false, high, t);
    RegsRoundTrip(Bits(false, high, false, high), 0x31, reg, reg, s);
    assert t[1..] == [ModRM(3, reg, reg)] + s;
  }

  lemma MovShort(reg: Reg, imm: u64, rel: i32, s: seq<byte>)
    requires 0 < imm < 0x1_0000_0000
    ensures var x := MovImm(reg, imm); Decode(Encode(x, rel) + s) == Some((Does(x), |Encode(x, rel)|))
  {
    hide Decode, DecodeMem, DecodeRegs, LE, Number;
    var x, high, t := MovImm(reg, imm), reg > 7, [0xB8 + reg % 8] + (LE(imm, 4) + s);
    assert Encode(x, rel) + s == RexIf(false, false, false, high) + t;
    PrefixRead(false, false, false, high, t);
    BoundOfFour();
    NumberOfLE(imm, 4);
    assert t[1..][..4] == LE(imm, 4);
  }

  /** The low half of such an immediate, sign-extended, is the immediate. */
  lemma NegativeImmediate(imm: u64)
    requires imm >= 0xFFFF_FFFF_8000_0000
    ensures Signed32(LE(imm % 0x1_0000_0000, 4)) == imm - 0x1_0000_0000_0000_0000
  {
    hide LE, Number;
    BoundOfFour();
    NumberOfLE(imm % 0x1_0000_0000, 4);
    A.DivisionIs(imm, 0x1_0000_0000, 0xFFFF_FFFF, imm - 0xFFFF_FFFF_0000_0000);
  }

  lemma MovNegative(reg: Reg, imm: u64, rel: i32, s: seq<byte>)
    requires imm >= 0xFFFF_FFFF_8000_0000
    ensures var x := MovImm(reg, imm); Decode(Encode(x, rel) + s) == Some((Does(x), |Encode(x, rel)|))
  {
    hide Decode, DecodeMem, ModRM, Extend, LE, Number, RexIf, Signed32;
    var x, v, high := MovImm(reg, imm), imm % 0x1_0000_0000, reg > 7;
    var t := [0xC7] + ([ModRM(3, 0, reg)] + (LE(v, 4) + s));
    assert Encode(x, rel) + s == RexIf(true, false, false, high) + t;
    PrefixRead(true, false, false, high, t);
    RegsRoundTrip(Bits(true, false, false, high), 0xC7, 0, reg, LE(v, 4) + s);
    NegativeImmediate(imm);
    var u := t[1..];
    assert u == [ModRM(3, 0, reg)] + (LE(v, 4) + s) && u[1..] == LE(v, 4) + s && u[1..5] == LE(v, 4);
  }

  lemma MovLong(reg: Reg, imm: u64, rel: i32, s: seq<byte>)
    requires 0x1_0000_0000 <= imm < 0xFFFF_FFFF_8000_0000
    ensures var x := MovImm(reg, imm); Decode(Encode(x, rel) + s) == Some((Does(x), |Encode(x, rel)|))
  {
    hide Decode, DecodeMem, DecodeRegs, LE, Number, RexIf;
    var x, high := MovImm(reg, imm), reg > 7;
    TwoWords(imm);
    var t := [0xB8 + reg % 8] + (LE(imm, 8) + s);
    assert Encode(x, rel) + s == RexIf(true, false, false, high) + t;
    PrefixRead(true, false, false, high, t);
    BoundOfEight();
    NumberOfLE(imm, 8);
    assert t[1..][..8] == LE(imm, 8);
  }

  lemma BoundOfEight()
    ensures Bound(8) == 0x1_0000_0000_0000_0000
  {
    BoundOfFour();
    assert Bound(6) == 256 * Bound(5) == 65536 * Bound(4);
  }

  lemma TwoWords(v: nat)
    ensures LE(v, 8) == LE(v % 0x1_0000_0000, 4) + LE(v / 0x1_0000_0000, 4)
  {
    hide LE;
    var w := v % 0x1_0000_0000;
    EightBytes(v);
    FourBytes(w);
    LowBytes(v / 0x1_0000_0000, w);
  }

  lemma LowBytes(h: nat, w: nat)
    ensures var v := h * 0x1_0000_0000 + w;
      v % 256 == w % 256 && v / 256 % 256 == w / 256 % 256 && v / 65536 % 256 == w / 65536 % 256 &&
        v / 16777216 % 256 == w / 16777216 % 256
  {
    var v := h * 0x1_0000_0000 + w;
    LowByte(h * 0x100_0000, w);
    A.DivisionIs(v, 0x100, h * 0x100_0000 + w / 0x100, w % 0x100);
    LowByte(h * 0x1_0000, w / 0x100);
    A.DivisionIs(v, 0x1_0000, h * 0x1_0000 + w / 0x1_0000, w % 0x1_0000);
    LowByte(h * 0x100, w / 0x1_0000);
    A.DivisionIs(v, 0x100_0000, h * 0x100 + w / 0x100_0000, w % 0x100_0000);
    LowByte(h, w / 0x100_0000);
  }

  lemma LowByte(a: nat, b: nat)
    ensures (a * 256 + b) % 256 == b % 256
  {
    A.DivisionIs(a * 256 + b, 256, a + b / 256, b % 256);
  }

  /** A word behind one byte. */
  lemma WordBehind(c: byte, w: seq<byte>, s: seq<byte>)
    requires |w| == 4
    ensures var t := [c] + (w + s); t[1..] == w + s && t[1..5] == w && |t| >= 5
    ensures (w + s)[..4] == w
  {}

  lemma EightBytes(v: nat)
    ensures LE(v, 8) ==
      [v % 256] + [v / 256 % 256] + [v / 65536 % 256] + [v / 16777216 % 256] + LE(v / 0x1_0000_0000, 4)
  {
    hide LE;
    Quotients(v);
    FirstByte(v, 8);
    FirstByte(v / 256, 7);
    FirstByte(v / 65536, 6);
    FirstByte(v / 16777216, 5);
  }

  lemma FirstByte(v: nat, n: nat)
    requires n > 0
    ensures LE(v, n) == [v % 256] + LE(v / 256, n - 1)
  {}

  lemma Quotients(v: nat)
    ensures v / 256 / 256 == v / 65536 && v / 65536 / 256 == v / 16777216 && v / 16777216 / 256 == v / 0x1_0000_0000
  {
    var a := v / 256;
    A.DivisionIs(v, 65536, a / 256, a % 256 * 256 + v % 256);
    var b := v / 65536;
    A.DivisionIs(v, 16777216, b / 256, b % 256 * 65536 + v % 65536);
    var c := v / 16777216;
    A.DivisionIs(v, 0x1_0000_0000, c / 256, c % 256 * 16777216 + v % 16777216);
  }

  lemma PlainRoundTrip(x: X86, rel: i32, s: seq<byte>)
    requires x.Push? || x.Pop? || x.Ret?
    ensures Decode(Encode(x, rel) + s) == Some((Does(x), |Encode(x, rel)|))
  {
    hide Decode, DecodeMem, DecodeRegs, Extend;
    var high := !x.Ret? && x.reg > 7;
    var c: byte := if x.Ret? then 0xC3 else (if x.Push? then 0x50 else 0x58) + x.reg % 8;
    assert Encode(x, rel) + s == RexIf(false, false, false, high) + ([c] + s);
    PrefixRead(false, false, false, high, [c] + s);
    if !x.Ret? { ExtendMod(c, x.reg, high); }
  }

  lemma TargetBytes(x: X86, rel: i32, s: seq<byte>)
    requires HasTarget(x)
    ensures var u := if x.Jcc? then [CondByte(x.cond)] + (Word(rel) + s) else Word(rel) + s;
      && Encode(x, rel) + s == RexIf(false, false, false, false) +
        ([if x.Jmp? then 0xE9 else if x.Jcc? then 0x0F else 0xE8] + u)
      && |Encode(x, rel)| == |u| - |s| + 1
  {
    hide Word;
  }

  lemma TargetRoundTrip(x: X86, rel: i32, s: seq<byte>)
    requires HasTarget(x)
    ensures Decode(Encode(x, rel) + s) == Some((ShapeOf(x, rel), |Encode(x, rel)|))
  {
    hide Decode, DecodeMem, DecodeRegs, Word, Signed32, Encode;
    WordRoundTrip(rel, s);
    TargetBytes(x, rel, s);
    var c: byte := if x.Jmp? then 0xE9 else if x.Jcc? then 0x0F else 0xE8;
    var u := if x.Jcc? then [CondByte(x.cond)] + (Word(rel) + s) else Word(rel) + s;
    if x.Jcc? { WordBehind(CondByte(x.cond), Word(rel), s); }
    PrefixRead(false, false, false, false, [c] + u);
    assert ([c] + u)[1..] == u;
  }

  /** Every instruction is read back as what it was meant to be. */
  lemma InstRoundTrip(x: X86, rel: i32, s: seq<byte>)
    requires Encodable(x)
    ensures Decode(Encode(x, rel) + s) == Some((ShapeOf(x, rel), |Encode(x, rel)|))
  {
    hide Decode, Encode;
    match x
    case MovImm(r, i) => MovImmRoundTrip(r, i, rel, s);
    case MovReg(_, _) => RegisterInstRoundTrip(x, rel, s);
    case Load(_, _) => MemoryInstRoundTrip(x, rel, s);
    case Store(_, _) => MemoryInstRoundTrip(x, rel, s);
    case Lea(_, _) => MemoryInstRoundTrip(x, rel, s);
    case Alu(_, _, _) => RegisterInstRoundTrip(x, rel, s);
    case AluImm(_, _, _) => AluImmRoundTrip(x, rel, s);
    case Push(_) => PlainRoundTrip(x, rel, s);
    case Pop(_) => PlainRoundTrip(x, rel, s);
    case CallReg(_) => RegisterInstRoundTrip(x, rel, s);
    case Ret => PlainRoundTrip(x, rel, s);
    case Raw(_) =>
    case _ => TargetRoundTrip(x, rel, s);
  }

  /** Nothing else is read back. */
  lemma EncodableExactly(x: X86, rel: i32, s: seq<byte>)
    ensures Encodable(x) <==> Decode(Encode(x, rel) + s) == Some((ShapeOf(x, rel), |Encode(x, rel)|))
  {
    hide Decode, Encode, Encodable, MemOk;
    if Encodable(x) {
      InstRoundTrip(x, rel, s);
    } else if Decode(Encode(x, rel) + s) == Some((ShapeOf(x, rel), |Encode(x, rel)|)) {
      TargetsAreEncodable(x);
      DecodedIsEncodable(Encode(x, rel) + s, x);
      NothingEncoded(x, rel);
    }
  }

  lemma TargetsAreEncodable(x: X86)
    ensures HasTarget(x) ==> Encodable(x)
  {}

  lemma NothingEncoded(x: X86, rel: i32)
    ensures x.MovReg? && x.dst == x.src ==> Encode(x, rel) == []
  {}

  /** What the decoder reads can be encoded, but for a copy of a register to itself. */
  lemma DecodedIsEncodable(s: seq<byte>, x: X86)
    requires Decode(s).Some? && Decode(s).value.0 == Does(x)
    ensures Decode(s).value.1 > 0 && (Encodable(x) || (x.MovReg? && x.dst == x.src))
  {
    hide DecodeOp, Encodable;
    if s != [] && 0x40 <= s[0] < 0x50 {
      OpIsEncodable(BitsOf(s[0]), s[1..], x);
    } else {
      OpIsEncodable(NO_PREFIX, s, x);
    }
  }

  lemma OpIsEncodable(k: Bits, s: seq<byte>, x: X86)
    requires DecodeOp(k, s).Some? && DecodeOp(k, s).value.0 == Does(x)
    ensures DecodeOp(k, s).value.1 > 0 && (Encodable(x) || (x.MovReg? && x.dst == x.src))
  {
    hide DecodeMem, DecodeRegs, Signed32, Extend, MemOk;
    if x.Load? || x.Store? || x.Lea? {
      MemIsOk(k, s[1..]);
      if |s| > 1 && s[1] / 64 == 3 { RegsAreEncodable(k, s[0], s[1..], x); }
    } else if |s| > 1 && s[1] / 64 == 3 {
      RegsAreEncodable(k, s[0], s[1..], x);
    }
  }

  lemma RegsAreEncodable(k: Bits, c: byte, t: seq<byte>, x: X86)
    requires t != [] && t[0] / 64 == 3
    ensures DecodeRegs(k, c, t).Some? && DecodeRegs(k, c, t).value.0 == Does(x) ==>
              DecodeRegs(k, c, t).value.1 > 0 && (Encodable(x) || (x.MovReg? && x.dst == x.src))
  {
    hide Signed32, Signed8, Extend;
  }

  lemma MemIsOk(k: Bits, s: seq<byte>)
    ensures DecodeMem(k, s).Some? ==> MemOk(DecodeMem(k, s).value.1)
  {
    hide DispOf;
  }

  // ---------------------------------------------------------------------------------------------
  // No code is longer than it has to be

  const NO_PREFIX := Bits(false, false, false, false)

  /** A memory operand takes as few bytes as any bytes that say the same. */
  lemma MemIsShortest(k: Bits, s: seq<byte>, reg: Reg, m: Mem, n: nat)
    requires MemOk(m) && DecodeMem(k, s) == Some((reg, m, n))
    ensures |EmitMemOp(reg, m)| <= n
    ensures reg > 7 || m.base > 7 || (m.Sib? && m.index > 7) ==> k.r || k.b || k.x
  {
    hide EmitMemOp, ModRM, Signed32;
    MemLength(reg, m);
    ExtendBase(s, k);
  }

  lemma MemLength(reg: Reg, m: Mem)
    requires m.Sib? ==> m.scale < 4
    ensures var d := if ModOf(m.disp, m.base) == 0 then 0 else if ModOf(m.disp, m.base) == 1 then 1 else 4;
      |EmitMemOp(reg, m)| == d + if m.Sib? || m.base % 8 == 4 then 2 else 1
  {
    hide EmitMemOp, ModRM, Byte, Word;
    MemBytes(reg, m);
  }

  /** A call through one of the first eight registers carries a prefix it does not need. */
  predicate LongCall(x: X86) { x.CallReg? && x.reg <= 7 }

  lemma LongCallIsLonger(x: X86, rel: i32)
    requires LongCall(x)
    ensures Decode([0xFF, ModRM(3, 2, x.reg)]) == Some((Does(x), 2)) && |Encode(x, rel)| == 3
  {
    Fields(3, 2, x.reg);
  }

  /** Any other instruction takes as few bytes as any bytes that say the same. */
  lemma InstIsShortest(x: X86, rel: i32, s: seq<byte>, n: nat)
    requires Encodable(x) && !LongCall(x) && Decode(s) == Some((ShapeOf(x, rel), n))
    ensures |Encode(x, rel)| <= n
  {
    hide DecodeOp, Encode;
    if s != [] && 0x40 <= s[0] < 0x50 {
      OpIsShortest(BitsOf(s[0]), s[1..], x, rel, n - 1);
    } else {
      OpIsShortest(NO_PREFIX, s, x, rel, n);
    }
  }

  lemma OpIsShortest(k: Bits, s: seq<byte>, x: X86, rel: i32, n: nat)
    requires Encodable(x) && !LongCall(x) && DecodeOp(k, s) == Some((ShapeOf(x, rel), n))
    ensures |Encode(x, rel)| <= if k == NO_PREFIX then n else n + 1
  {
    hide DecodeMem, DecodeRegs, EmitMemOp, Encode, ModRM, Signed32, Signed8, Extend;
    if x.Load? || x.Store? || x.Lea? {
      MemOpIsShortest(k, s, x, rel, n);
    } else if x.MovImm? {
      MovIsShortest(k, s, x, rel, n);
    } else {
      OtherIsShortest(k, s, x, rel, n);
    }
  }

  lemma MemOpIsShortest(k: Bits, s: seq<byte>, x: X86, rel: i32, n: nat)
    requires Encodable(x) && (x.Load? || x.Store? || x.Lea?) && DecodeOp(k, s) == Some((Does(x), n))
    ensures |Encode(x, rel)| <= if k == NO_PREFIX then n else n + 1
  {
    hide DecodeMem, EmitMemOp, ModRM, Signed32, Signed8, Extend;
    MemIsShortest(k, s[1..], if x.Store? then x.src else x.dst, x.mem, n - 1);
  }

  lemma MovIsShortest(k: Bits, s: seq<byte>, x: X86, rel: i32, n: nat)
    requires x.MovImm? && DecodeOp(k, s) == Some((Does(x), n))
    ensures |Encode(x, rel)| <= if k == NO_PREFIX then n else n + 1
  {
    hide DecodeMem, EmitMemOp, ModRM, LE, Number;
  }

  lemma OtherIsShortest(k: Bits, s: seq<byte>, x: X86, rel: i32, n: nat)
    requires Encodable(x) && !LongCall(x) && !x.Load? && !x.Store? && !x.Lea? && !x.MovImm?
    requires DecodeOp(k, s) == Some((ShapeOf(x, rel), n))
    ensures |Encode(x, rel)| <= if k == NO_PREFIX then n else n + 1
  {
    hide DecodeMem, EmitMemOp, ModRM, Signed32;
  }

  /** The low bits of a base are those of the byte it is read from. */
  lemma ExtendBase(s: seq<byte>, k: Bits)
    ensures s != [] ==> Extend(s[0] % 8, k.b) % 8 == s[0] % 8
    ensures |s| > 1 ==> Extend(s[1] % 8, k.b) % 8 == s[1] % 8
  {}
}
