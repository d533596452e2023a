/** Sizes, alignments and field layouts of types. */
module Layout {
  import opened Sir
  import opened Alignment

  datatype Type =
    | Nihil | Unknown | Nullus
    | I8 | I16 | I32 | I64 | P8 | P16 | P32 | P64 | F32 | F64 | Logica | Littera
    | Via | Cohors | Enum | Actio | Namespace
    | Acies(length: nat, inner: Type)
    | Forma(fields: seq<Field>, densa: bool)
    | Unio(fields: seq<Field>, densa: bool)

  /** A field takes all of its type, or `bits` bits if that is positive. */
  datatype Field = Field(name: string, ty: Type, bits: nat)

  predicate IsStruct(t: Type) { t.Forma? || t.Unio? }

  predicate HoldsBits(t: Type) {
    t.I8? || t.I16? || t.I32? || t.I64? || t.P8? || t.P16? || t.P32? || t.P64? || t.Logica?
  }

  /** What the type checker lets through: bit-fields are integers or truth values, and not in a `unio`. */
  predicate Checked(t: Type) {
    match t
    case Acies(_, inner) => Checked(inner)
    case Forma(fields, _) => forall i | 0 <= i < |fields| ::
      Checked(fields[i].ty) && (fields[i].bits > 0 ==> HoldsBits(fields[i].ty) && fields[i].bits <= 64)
    case Unio(fields, _) => forall i | 0 <= i < |fields| :: Checked(fields[i].ty) && fields[i].bits == 0
    case _ => true
  }

  function Arity(t: Type): nat { if IsStruct(t) then |t.fields| else 0 }

  // ---------------------------------------------------------------------------------------------
  // Alignment

  function Max(a: nat, b: nat): nat { if a > b then a else b }

  function Align(t: Type): (a: nat)
    ensures a > 0
    decreases t, Arity(t) + 1
  {
    match t
    case Nihil => 1
    case Unknown => 1
    case I8 => 1
    case P8 => 1
    case Littera => 1
    case Logica => 1
    case I16 => 2
    case P16 => 2
    case I32 => 4
    case P32 => 4
    case F32 => 4
    case Enum => 4
    case Acies(_, inner) => Align(inner)
    case Forma(fields, densa) => if densa then 1 else MaxAlign(t, |fields|)
    case Unio(fields, densa) => if densa then 1 else MaxAlign(t, |fields|)
    case _ => 8
  }

  function MaxAlign(t: Type, n: nat): (a: nat)
    requires IsStruct(t) && n <= |t.fields|
    ensures a > 0
    decreases t, n
  {
    if n == 0 then 1 else Max(Align(t.fields[n - 1].ty), MaxAlign(t, n - 1))
  }

  function FieldAlign(t: Type, i: nat): (a: nat)
    requires IsStruct(t) && i < |t.fields|
    ensures a > 0
  {
    if t.densa then 1 else Align(t.fields[i].ty)
  }

  lemma PowersOfTwo()
    ensures IsPow2(1) && IsPow2(2) && IsPow2(4) && IsPow2(8)
  {
    assert 1 == Pow2(0) && 2 == Pow2(1) && 4 == Pow2(2) && 8 == Pow2(3);
  }

  lemma {:induction false} AlignIsPow2(t: Type)
    ensures IsPow2(Align(t))
    decreases t, Arity(t) + 1
  {
    PowersOfTwo();
    match t
    case Acies(_, inner) => AlignIsPow2(inner);
    case Forma(fields, densa) => if !densa { MaxAlignIsPow2(t, |fields|); }
    case Unio(fields, densa) => if !densa { MaxAlignIsPow2(t, |fields|); }
    case _ =>
  }

  lemma {:induction false} MaxAlignIsPow2(t: Type, n: nat)
    requires IsStruct(t) && n <= |t.fields|
    ensures IsPow2(MaxAlign(t, n))
    decreases t, n
  {
    PowersOfTwo();
    if n > 0 {
      AlignIsPow2(t.fields[n - 1].ty);
      MaxAlignIsPow2(t, n - 1);
    }
  }

  lemma {:induction false} MaxAlignBounds(t: Type, n: nat, i: nat)
    requires IsStruct(t) && i < n <= |t.fields|
    ensures Align(t.fields[i].ty) <= MaxAlign(t, n)
    decreases n
  {
    if i < n - 1 { MaxAlignBounds(t, n - 1, i); }
  }

  /** The alignment of a `forma` or `unio` is a multiple of that of every field it aligns. */
  lemma FieldAlignDivides(t: Type, i: nat)
    requires IsStruct(t) && i < |t.fields|
    ensures Align(t) % FieldAlign(t, i) == 0
  {
    if !t.densa {
      MaxAlignBounds(t, |t.fields|, i);
      AlignIsPow2(t);
      AlignIsPow2(t.fields[i].ty);
      Pow2Divides(Align(t.fields[i].ty), Align(t));
    }
  }

  // ---------------------------------------------------------------------------------------------
  // Sizes, by one walk over the fields

  /** How far the fields so far reach: whole bytes, and bits of an open bit-field unit. */
  datatype Cursor = Cursor(byte: nat, bit: nat)

  function Position(c: Cursor): nat { 8 * c.byte + c.bit }

  function Flushed(c: Cursor): Cursor { Cursor(c.byte + (c.bit + 7) / 8, 0) }

  /** Where a field of the given size, alignment and bit width goes. */
  function Placed(densa: bool, size: nat, align: nat, bits: nat, c: Cursor): Cursor
    requires align > 0 && (bits > 0 ==> size > 0)
  {
    if bits > 0 then
      if densa then c
      else if c.bit > 0 && c.bit % (size * 8) + bits > size * 8 then Cursor(AlignUp(Flushed(c).byte, align), 0)
      else if c.bit == 0 then Cursor(AlignUp(c.byte, align), 0)
      else c
    else if densa then Flushed(c)
    else Cursor(AlignUp(Flushed(c).byte, align), 0)
  }

  function Passed(size: nat, bits: nat, c: Cursor): Cursor {
    if bits > 0 then Cursor(c.byte, c.bit + bits) else Cursor(c.byte + size, c.bit)
  }

  function Size(t: Type): (s: nat)
    requires Checked(t)
    decreases t, 2 * Arity(t) + 2
  {
    match t
    case Nihil => 0
    case Unknown => 0
    case I8 => 1
    case P8 => 1
    case Littera => 1
    case Logica => 1
    case I16 => 2
    case P16 => 2
    case I32 => 4
    case P32 => 4
    case F32 => 4
    case Enum => 4
    case Cohors => 16
    case Acies(length, inner) => length * Size(inner)
    case Forma(fields, densa) =>
      var end := Flushed(After(t, |fields|)).byte;
      if densa then end else AlignUp(end, Align(t))
    case Unio(fields, densa) => if densa then MaxSize(t, |fields|) else AlignUp(MaxSize(t, |fields|), Align(t))
    case _ => 8
  }

  function MaxSize(t: Type, n: nat): nat
    requires Checked(t) && t.Unio? && n <= |t.fields|
    decreases t, 2 * n
  {
    if n == 0 then 0 else Max(Size(t.fields[n - 1].ty), MaxSize(t, n - 1))
  }

  /** The place of field `i` of a `forma`. */
  function Start(t: Type, i: nat): Cursor
    requires Checked(t) && t.Forma? && i < |t.fields|
    decreases t, 2 * i + 1
  {
    var f := t.fields[i];
    var size := Size(f.ty);
    assert f.bits > 0 ==> size > 0;
    Placed(t.densa, size, FieldAlign(t, i), f.bits, After(t, i))
  }

  /** The cursor behind the first `n` fields. */
  function After(t: Type, n: nat): Cursor
    requires Checked(t) && t.Forma? && n <= |t.fields|
    decreases t, 2 * n
  {
    if n == 0 then Cursor(0, 0) else Passed(Size(t.fields[n - 1].ty), t.fields[n - 1].bits, Start(t, n - 1))
  }

  /** Arrays, too, can be laid end to end. */
  lemma {:induction false} SizeIsMultipleOfAlign(t: Type)
    requires Checked(t)
    ensures Size(t) % Align(t) == 0
    decreases t
  {
    hide MaxAlign, MaxSize, After, AlignUp;
    if t.Acies? {
      SizeIsMultipleOfAlign(t.inner);
      LongMultiple(t.length, Size(t.inner), Align(t.inner));
    }
  }

  lemma LongMultiple(n: nat, s: nat, a: nat)
    requires a > 0 && s % a == 0
    ensures (n * s) % a == 0
  {
    assert n * s == (n * (s / a)) * a by { assert s == (s / a) * a; }
    MultipleOf(n * (s / a), a);
  }

  // ---------------------------------------------------------------------------------------------
  // Field layout

  /** Byte offset, bit offset and bit width, as the code generator asks for them. */
  datatype FieldLayout = FieldLayout(byte: nat, bit: nat, bits: nat)

  function LayoutAt(t: Type, i: nat): FieldLayout
    requires Checked(t) && IsStruct(t) && i < |t.fields|
  {
    if t.Unio? then FieldLayout(0, 0, t.fields[i].bits)
    else
      var c := Start(t, i);
      if t.densa then FieldLayout(c.byte + c.bit / 8, c.bit % 8, t.fields[i].bits)
        else FieldLayout(c.byte, c.bit, t.fields[i].bits)
  }

  /** The first bit a field occupies, and the first one behind it. */
  function FirstBit(t: Type, i: nat): nat
    requires Checked(t) && IsStruct(t) && i < |t.fields|
  {
    8 * LayoutAt(t, i).byte + LayoutAt(t, i).bit
  }

  function EndBit(t: Type, i: nat): nat
    requires Checked(t) && IsStruct(t) && i < |t.fields|
  {
    FirstBit(t, i) + if t.fields[i].bits > 0 then t.fields[i].bits else 8 * Size(t.fields[i].ty)
  }

  lemma PlacedMovesOn(densa: bool, size: nat, align: nat, bits: nat, c: Cursor)
    requires align > 0 && (bits > 0 ==> size > 0)
    ensures Position(c) <= Position(Placed(densa, size, align, bits, c))
    ensures bits == 0 ==> Placed(densa, size, align, bits, c).bit == 0
  {}

  lemma FieldSpansCursor(t: Type, i: nat)
    requires Checked(t) && t.Forma? && i < |t.fields|
    ensures Position(After(t, i)) <= FirstBit(t, i) && EndBit(t, i) == Position(After(t, i + 1))
  {
    PlacedMovesOn(t.densa, Size(t.fields[i].ty), FieldAlign(t, i), t.fields[i].bits, After(t, i));
  }

  lemma {:induction false} CursorMovesOn(t: Type, i: nat, j: nat)
    requires Checked(t) && t.Forma? && i <= j <= |t.fields|
    ensures Position(After(t, i)) <= Position(After(t, j))
    decreases j
  {
    hide After, FirstBit;
    if i < j {
      CursorMovesOn(t, i, j - 1);
      FieldSpansCursor(t, j - 1);
    }
  }

  /** No two fields of a `forma` share a bit; they stand in the order of declaration. */
  lemma FieldsDisjoint(t: Type, i: nat, j: nat)
    requires Checked(t) && t.Forma? && i < j < |t.fields|
    ensures EndBit(t, i) <= FirstBit(t, j)
  {
    hide After, FirstBit, EndBit;
    FieldSpansCursor(t, i);
    FieldSpansCursor(t, j);
    CursorMovesOn(t, i + 1, j);
  }

  /** Every field lies inside its `forma` or `unio`. */
  lemma FieldsInside(t: Type, i: nat)
    requires Checked(t) && IsStruct(t) && i < |t.fields|
    ensures EndBit(t, i) <= 8 * Size(t)
  {
    if t.Forma? {
      FieldSpansCursor(t, i);
      CursorMovesOn(t, i + 1, |t.fields|);
    } else {
      MaxSizeBounds(t, |t.fields|, i);
    }
  }

  lemma {:induction false} MaxSizeBounds(t: Type, n: nat, i: nat)
    requires Checked(t) && t.Unio? && i < n <= |t.fields|
    ensures Size(t.fields[i].ty) <= MaxSize(t, n)
    decreases n
  {
    if i < n - 1 { MaxSizeBounds(t, n - 1, i); }
  }

  // ---------------------------------------------------------------------------------------------
  // Exactly where fields stand

  /** The end of what stands before field `i`, and the bits since the last unit was opened. */
  function EndBefore(t: Type, i: nat): nat
    requires Checked(t) && t.Forma? && i < |t.fields|
  {
    if i == 0 then 0 else EndBit(t, i - 1)
  }

  function UnitBits(t: Type, i: nat): nat
    requires Checked(t) && t.Forma? && i < |t.fields|
  {
    if i == 0 || t.fields[i - 1].bits == 0 then 0 else LayoutAt(t, i - 1).bit + t.fields[i - 1].bits
  }

  /** A bit-field joins the unit of the bit-field before it if what is left of a unit of its own type is enough. */
  predicate Joins(t: Type, i: nat)
    requires Checked(t) && t.Forma? && i < |t.fields|
  {
    var f := t.fields[i];
    f.bits > 0 && Size(f.ty) > 0 && UnitBits(t, i) > 0 &&
      UnitBits(t, i) % (8 * Size(f.ty)) + f.bits <= 8 * Size(f.ty)
  }

  /** `bit` is the first bit of the least multiple of `align` that is not below `end`. */
  predicate NextAligned(bit: nat, end: nat, align: nat)
    requires align > 0
  {
    bit % 8 == 0 && bit / 8 % align == 0 && end <= bit < end + 8 * align
  }

  /** `full` bytes are just enough for `end` bits. */
  lemma RoundedBits(full: nat, end: nat, align: nat)
    requires align > 0 && end <= 8 * full <= end + 7
    ensures NextAligned(8 * AlignUp(full, align), end, align)
  {
    DivisionIs(8 * AlignUp(full, align), 8, AlignUp(full, align), 0);
  }

  lemma PlacedStands(size: nat, align: nat, bits: nat, c: Cursor)
    requires align > 0 && (bits > 0 ==> size > 0)
    ensures var p := Placed(false, size, align, bits, c);
      if bits > 0 && c.bit > 0 && c.bit % (8 * size) + bits <= 8 * size then p == c
      else p.bit == 0 && NextAligned(8 * p.byte, Position(c), align)
  {
    hide AlignUp, NextAligned;
    FlushedEnds(c);
    RoundedBits(Flushed(c).byte, Position(c), align);
    assert size * 8 == 8 * size;
  }

  lemma FlushedEnds(c: Cursor)
    ensures Position(c) <= 8 * Flushed(c).byte <= Position(c) + 7
    ensures c.bit == 0 ==> Flushed(c).byte == c.byte
  {}

  lemma DensePlacedStands(size: nat, align: nat, bits: nat, c: Cursor)
    requires align > 0 && (bits > 0 ==> size > 0)
    ensures var p := Placed(true, size, align, bits, c);
      if bits > 0 then p == c else p.bit == 0 && NextAligned(8 * p.byte, Position(c), 1)
  {
    hide AlignUp, NextAligned;
    FlushedEnds(c);
    RoundedBits(Flushed(c).byte, Position(c), 1);
    AlignedToOne(Flushed(c).byte);
  }

  lemma AlignedToOne(n: nat)
    ensures AlignUp(n, 1) == n
  {}

  lemma CursorBefore(t: Type, i: nat)
    requires Checked(t) && t.Forma? && i < |t.fields|
    ensures Position(After(t, i)) == EndBefore(t, i)
    ensures !t.densa ==> After(t, i).bit == UnitBits(t, i)
  {
    hide After, Start, Size, Checked, FirstBit, EndBit, Placed, Position;
    if i == 0 {
      FormaStarts(t);
      assert Position(Cursor(0, 0)) == 0 by { PositionIs(0, 0); }
    } else {
      FieldSpansCursor(t, i - 1);
      WalkStep(t, i - 1);
      FirstBitIs(t, i - 1);
      if t.fields[i - 1].bits == 0 { WholeStart(t, i - 1); }
    }
  }

  lemma PositionIs(byte: nat, bit: nat)
    ensures Position(Cursor(byte, bit)) == 8 * byte + bit
  {}

  lemma WholeStart(t: Type, i: nat)
    requires Checked(t) && t.Forma? && i < |t.fields| && t.fields[i].bits == 0
    ensures Start(t, i).bit == 0
  {
    hide After, Size, AlignUp, Flushed;
    PlacedMovesOn(t.densa, Size(t.fields[i].ty), FieldAlign(t, i), 0, After(t, i));
  }

  /** Where a field starts, told from its cursor. */
  lemma FirstBitIs(t: Type, i: nat)
    requires Checked(t) && t.Forma? && i < |t.fields|
    ensures FirstBit(t, i) == Position(Start(t, i))
    ensures !t.densa ==> LayoutAt(t, i) == FieldLayout(Start(t, i).byte, Start(t, i).bit, t.fields[i].bits)
  {
    hide Start, After, Size;
  }

  /** In a `forma` that is not `densa` a bit-field that joins a unit starts at the first bit behind the field before
      it; any other field starts at the next address that is aligned for it. */
  lemma FieldStands(t: Type, i: nat)
    requires Checked(t) && t.Forma? && !t.densa && i < |t.fields|
    ensures if Joins(t, i) then FirstBit(t, i) == EndBefore(t, i)
      else NextAligned(FirstBit(t, i), EndBefore(t, i), Align(t.fields[i].ty))
  {
    hide After, Start, Align, Size, Checked, FirstBit, EndBefore, UnitBits, Placed, NextAligned;
    CursorBefore(t, i);
    WalkStep(t, i);
    FirstBitIs(t, i);
    PlacedStands(Size(t.fields[i].ty), Align(t.fields[i].ty), t.fields[i].bits, After(t, i));
  }

  /** In a `densa` one a bit-field starts at the next bit and any other field at the next byte. */
  lemma DenseFieldStands(t: Type, i: nat)
    requires Checked(t) && t.Forma? && t.densa && i < |t.fields|
    ensures if t.fields[i].bits > 0 then FirstBit(t, i) == EndBefore(t, i)
      else NextAligned(FirstBit(t, i), EndBefore(t, i), 1)
  {
    hide After, Start, Align, Size, Checked, FirstBit, EndBefore, Placed, NextAligned;
    CursorBefore(t, i);
    WalkStep(t, i);
    FirstBitIs(t, i);
    DensePlacedStands(Size(t.fields[i].ty), 1, t.fields[i].bits, After(t, i));
  }

  /** A `forma` ends at the next multiple of its alignment behind its last field. */
  lemma FormaEnds(t: Type)
    requires Checked(t) && t.Forma?
    ensures NextAligned(8 * Size(t), if t.fields == [] then 0 else EndBit(t, |t.fields| - 1), Align(t))
  {
    hide After, Align, MaxAlign, Size, Checked, EndBit, AlignUp, NextAligned, FirstBit, Flushed, Position;
    FormaStarts(t);
    var c := After(t, |t.fields|);
    if t.fields != [] { FieldSpansCursor(t, |t.fields| - 1); } else { PositionIs(0, 0); }
    FlushedEnds(c);
    RoundedBits(Flushed(c).byte, Position(c), Align(t));
    if t.densa { AlignedToOne(Flushed(c).byte); }
  }

  /** A `unio` is the least multiple of its alignment that holds each of its fields, all of which start it. */
  lemma UnioEnds(t: Type)
    requires Checked(t) && t.Unio?
    ensures forall i | 0 <= i < |t.fields| :: FirstBit(t, i) == 0 && EndBit(t, i) <= 8 * Size(t)
    ensures Size(t) % Align(t) == 0
    ensures Size(t) < Align(t) || exists i :: 0 <= i < |t.fields| && Size(t) < Size(t.fields[i].ty) + Align(t)
  {
    hide Align, Size, MaxSize, EndBit;
    forall i | 0 <= i < |t.fields|
      ensures FirstBit(t, i) == 0 && EndBit(t, i) <= 8 * Size(t)
    {
      FieldsInside(t, i);
    }
    SizeIsMultipleOfAlign(t);
    UnioSizeIs(t);
    MaxSizeReached(t, |t.fields|);
    if MaxSize(t, |t.fields|) != 0 {
      var i :| 0 <= i < |t.fields| && Size(t.fields[i].ty) == MaxSize(t, |t.fields|);
    }
  }

  /** Some field is this large. */
  predicate SizeOfOne(t: Type, s: nat)
    requires Checked(t) && t.Unio?
  {
    exists i :: 0 <= i < |t.fields| && Size(t.fields[i].ty) == s
  }

  lemma {:induction false} MaxSizeReached(t: Type, n: nat)
    requires Checked(t) && t.Unio? && n <= |t.fields|
    ensures MaxSize(t, n) == 0 || SizeOfOne(t, MaxSize(t, n))
    decreases n
  {
    if n > 0 { MaxSizeReached(t, n - 1); }
  }

  lemma UnioSizeIs(t: Type)
    requires Checked(t) && t.Unio?
    ensures MaxSize(t, |t.fields|) <= Size(t) < MaxSize(t, |t.fields|) + Align(t)
  {}

  /** The alignment of a type with fields is the largest of theirs, or 1 if it has none or is `densa`. */
  lemma AlignIsLargest(t: Type)
    requires IsStruct(t)
    ensures t.densa ==> Align(t) == 1
    ensures !t.densa ==> forall i | 0 <= i < |t.fields| :: Align(t.fields[i].ty) <= Align(t)
    ensures Align(t) == 1 || exists i :: 0 <= i < |t.fields| && Align(t) == Align(t.fields[i].ty)
  {
    if !t.densa {
      forall i | 0 <= i < |t.fields| ensures Align(t.fields[i].ty) <= Align(t) { MaxAlignBounds(t, |t.fields|, i); }
      MaxAlignReached(t, |t.fields|);
    }
  }

  lemma {:induction false} MaxAlignReached(t: Type, n: nat)
    requires IsStruct(t) && n <= |t.fields|
    ensures MaxAlign(t, n) == 1 || exists i :: 0 <= i < n && MaxAlign(t, n) == Align(t.fields[i].ty)
    decreases n
  {
    if n > 0 { MaxAlignReached(t, n - 1); }
  }

  predicate OneByte(t: Type) { t.I8? || t.P8? || t.Logica? || t.Littera? }

  predicate TwoBytes(t: Type) { t.I16? || t.P16? }

  predicate FourBytes(t: Type) { t.I32? || t.P32? || t.F32? || t.Enum? }

  predicate EightBytes(t: Type) { t.I64? || t.P64? || t.F64? || t.Via? || t.Actio? || t.Nullus? }

  /** The sizes of types without parts in bytes, and of arrays. */
  lemma BasicSizes(t: Type)
    requires Checked(t)
    ensures OneByte(t) ==> Size(t) == 1
    ensures TwoBytes(t) ==> Size(t) == 2
    ensures FourBytes(t) ==> Size(t) == 4
    ensures EightBytes(t) ==> Size(t) == 8
    ensures (t.Cohors? ==> Size(t) == 16) && (t.Nihil? ==> Size(t) == 0)
    ensures t.Acies? ==> Size(t) == t.length * Size(t.inner)
  {
    hide After, MaxSize, AlignUp, MaxAlign;
  }

  /** They are aligned for their size, `cohors` for its two words, an array for its elements. */
  lemma BasicAligns(t: Type)
    ensures OneByte(t) || t.Nihil? ==> Align(t) == 1
    ensures TwoBytes(t) ==> Align(t) == 2
    ensures FourBytes(t) ==> Align(t) == 4
    ensures EightBytes(t) || t.Cohors? ==> Align(t) == 8
    ensures t.Acies? ==> Align(t) == Align(t.inner)
  {}

  /** The code generator reads a bit-field from the unit of its own type at the field's byte offset.  The field lies
      inside that unit unless it is wider, or joins a unit that has been filled before. */
  lemma BitFieldInUnitIff(t: Type, i: nat)
    requires Checked(t) && t.Forma? && !t.densa && i < |t.fields| && t.fields[i].bits > 0
    ensures var f, unit := t.fields[i], 8 * Size(t.fields[i].ty);
      LayoutAt(t, i).bit + f.bits <= unit <==> f.bits <= unit && (Joins(t, i) ==> UnitBits(t, i) < unit)
  {
    hide After, Start, Align, Size, Checked, FirstBit, UnitBits, Placed, NextAligned, LayoutAt;
    CursorBefore(t, i);
    WalkStep(t, i);
    FirstBitIs(t, i);
    PlacedStands(Size(t.fields[i].ty), Align(t.fields[i].ty), t.fields[i].bits, After(t, i));
    if Joins(t, i) { InUnit(UnitBits(t, i), t.fields[i].bits, 8 * Size(t.fields[i].ty)); }
  }

  lemma InUnit(c: nat, bits: nat, unit: nat)
    requires unit > 0 && c % unit + bits <= unit
    requires bits > 0
    ensures c + bits <= unit <==> bits <= unit && c < unit
  {}

  /** Two full bytes: the second is said to be at bit 8 of the byte at offset 0. */
  lemma FullUnitOverruns(a: string, b: string)
    ensures var t := Forma([Field(a, P8, 8), Field(b, P8, 8)], false);
      Checked(t) && LayoutAt(t, 1) == FieldLayout(0, 8, 8) && Size(t.fields[1].ty) == 1
  {
    hide Placed, After, Start, Size, Align, MaxAlign;
    var t := Forma([Field(a, P8, 8), Field(b, P8, 8)], false);
    BasicSizes(P8);
    BasicAligns(P8);
    FormaStarts(t);
    WalkStep(t, 0);
    WalkStep(t, 1);
    ByteFields(Cursor(0, 0));
    ByteFields(Cursor(0, 8));
    FirstBitIs(t, 1);
  }

  lemma ByteFields(c: Cursor)
    requires c.byte == 0 && (c.bit == 0 || c.bit == 8)
    ensures Placed(false, 1, 1, 8, c) == c
  {
    AlignedToOne(0);
  }

  /** In memory aligned for the type every whole field is aligned for its own type. */
  lemma WholeFieldsAligned(t: Type, i: nat, base: nat)
    requires Checked(t) && IsStruct(t) && i < |t.fields| && !t.densa && t.fields[i].bits == 0
    requires base % Align(t) == 0
    ensures LayoutAt(t, i).bit == 0 && (base + LayoutAt(t, i).byte) % Align(t.fields[i].ty) == 0
  {
    hide Align, Size, After, MaxAlign, MaxSize, LayoutAt;
    var a, off := Align(t.fields[i].ty), LayoutAt(t, i).byte;
    FieldAlignDivides(t, i);
    DividesTransitive(base, Align(t), a);
    WholeFieldStarts(t, i);
    SumDivides(base, off, a);
  }

  lemma WholeFieldStarts(t: Type, i: nat)
    requires Checked(t) && IsStruct(t) && i < |t.fields| && !t.densa && t.fields[i].bits == 0
    ensures LayoutAt(t, i).bit == 0 && LayoutAt(t, i).byte % Align(t.fields[i].ty) == 0
  {
    hide Align, Size, After, AlignUp;
  }

  lemma SumDivides(x: nat, y: nat, a: nat)
    requires a > 0 && x % a == 0 && y % a == 0
    ensures (x + y) % a == 0
  {
    assert x + y == (x / a + y / a) * a;
    MultipleOf(x / a + y / a, a);
  }

  // ---------------------------------------------------------------------------------------------
  // The walks of the source

  /** One field of the walk. */
  lemma WalkStep(t: Type, i: nat)
    requires Checked(t) && t.Forma? && i < |t.fields|
    ensures var f := t.fields[i];
      && Checked(f.ty) && (f.bits > 0 ==> Size(f.ty) > 0)
      && Start(t, i) == Placed(t.densa, Size(f.ty), FieldAlign(t, i), f.bits, After(t, i))
      && After(t, i + 1) == Passed(Size(f.ty), f.bits, Start(t, i))
      && MaxAlign(t, i + 1) == Max(Align(f.ty), MaxAlign(t, i))
  {}

  lemma FormaStarts(t: Type)
    requires Checked(t) && t.Forma?
    ensures After(t, 0) == Cursor(0, 0) && MaxAlign(t, 0) == 1
    ensures Align(t) == if t.densa then 1 else MaxAlign(t, |t.fields|)
    ensures var end := Flushed(After(t, |t.fields|)).byte; Size(t) == if t.densa then end else AlignUp(end, Align(t))
  {}

  method TypeGetAlign(t: Type) returns (a: nat)
    ensures a == Align(t)
    decreases t
  {
    match t {
      case Acies(_, inner) => a := TypeGetAlign(inner);
      case Forma(fields, densa) =>
        if densa { return 1; }
        a := 1;
        for i := 0 to |fields|
          invariant a == MaxAlign(t, i)
        {
          var x := TypeGetAlign(fields[i].ty);
          if x > a { a := x; }
        }
      case Unio(fields, densa) =>
        if densa { return 1; }
        a := 1;
        for i := 0 to |fields|
          invariant a == MaxAlign(t, i)
        {
          var x := TypeGetAlign(fields[i].ty);
          if x > a { a := x; }
        }
      case _ => a := Align(t);
    }
  }

  /** How the size walk passes one field. */
  method SizeStep(densa: bool, fieldSize: nat, fieldAlign: nat, bits: nat, byteOffset: nat, bitOffset: nat)
    returns (byteOffset': nat, bitOffset': nat)
    requires fieldAlign > 0 && (bits > 0 ==> fieldSize > 0)
    ensures Cursor(byteOffset', bitOffset') ==
      Passed(fieldSize, bits, Placed(densa, fieldSize, fieldAlign, bits, Cursor(byteOffset, bitOffset)))
  {
    hide AlignUp;
    byteOffset', bitOffset' := byteOffset, bitOffset;
    if bits > 0 {
      if densa {
        bitOffset' := bitOffset' + bits;
      } else {
        var typeBits := fieldSize * 8;
        if bitOffset' > 0 && bitOffset' % typeBits + bits > typeBits {
          byteOffset' := byteOffset' + (bitOffset' + 7) / 8;
          bitOffset' := 0;
          byteOffset' := AlignUp(byteOffset', fieldAlign);
        } else if bitOffset' == 0 {
          byteOffset' := AlignUp(byteOffset', fieldAlign);
        }
        bitOffset' := bitOffset' + bits;
      }
    } else {
      if bitOffset' > 0 {
        byteOffset' := byteOffset' + (bitOffset' + 7) / 8;
        bitOffset' := 0;
      }
      if !densa { byteOffset' := AlignUp(byteOffset', fieldAlign); }
      byteOffset' := byteOffset' + fieldSize;
    }
  }

  /** How the layout walk comes to one field. */
  method LayoutStep(densa: bool, fieldSize: nat, fieldAlign: nat, bits: nat, byteOffset: nat, bitOffset: nat)
    returns (byteOffset': nat, bitOffset': nat)
    requires fieldAlign > 0 && (bits > 0 ==> fieldSize > 0)
    ensures Cursor(byteOffset', bitOffset') == Placed(densa, fieldSize, fieldAlign, bits, Cursor(byteOffset, bitOffset))
  {
    hide AlignUp;
    byteOffset', bitOffset' := byteOffset, bitOffset;
    if bits > 0 {
      if !densa {
        var typeBits := fieldSize * 8;
        if bitOffset' > 0 && bitOffset' % typeBits + bits > typeBits {
          byteOffset' := byteOffset' + (bitOffset' + 7) / 8;
          bitOffset' := 0;
          byteOffset' := AlignUp(byteOffset', fieldAlign);
        } else if bitOffset' == 0 {
          byteOffset' := AlignUp(byteOffset', fieldAlign);
        }
      }
    } else {
      if bitOffset' > 0 {
        byteOffset' := byteOffset' + (bitOffset' + 7) / 8;
        bitOffset' := 0;
      }
      if !densa { byteOffset' := AlignUp(byteOffset', fieldAlign); }
    }
  }

  method TypeGetSize(t: Type) returns (s: nat)
    requires Checked(t)
    ensures s == Size(t)
    decreases t, 1
  {
    hide After, MaxSize, MaxAlign, Align, AlignUp;
    match t {
      case Acies(length, inner) =>
        var x := TypeGetSize(inner);
        s := length * x;
      case Forma(_, _) => s := FormaSize(t);
      case Unio(_, _) => s := UnioSize(t);
      case _ => s := Size(t);
    }
  }

  method FormaSize(t: Type) returns (s: nat)
    requires Checked(t) && t.Forma?
    ensures s == Size(t)
    decreases t, 0
  {
    hide Align, MaxAlign, Size, After, Start, Checked, AlignUp, Placed, Passed;
    FormaStarts(t);
    var byteOffset: nat, bitOffset: nat, maxAlign: nat := 0, 0, 1;
    for i := 0 to |t.fields|
      invariant Cursor(byteOffset, bitOffset) == After(t, i)
      invariant maxAlign == if t.densa then 1 else MaxAlign(t, i)
    {
      var field := t.fields[i];
      WalkStep(t, i);
      var fieldSize := TypeGetSize(field.ty);
      var fieldAlign := 1;
      if !t.densa { fieldAlign := TypeGetAlign(field.ty); }
      if fieldAlign > maxAlign { maxAlign := fieldAlign; }
      byteOffset, bitOffset := SizeStep(t.densa, fieldSize, fieldAlign, field.bits, byteOffset, bitOffset);
    }
    if bitOffset > 0 { byteOffset := byteOffset + (bitOffset + 7) / 8; }
    s := if t.densa then byteOffset else AlignUp(byteOffset, maxAlign);
  }

  method UnioSize(t: Type) returns (s: nat)
    requires Checked(t) && t.Unio?
    ensures s == Size(t)
    decreases t, 0
  {
    var maxSize, maxAlign := 0, 1;
    for i := 0 to |t.fields|
      invariant maxSize == MaxSize(t, i) && maxAlign == if t.densa then 1 else MaxAlign(t, i)
    {
      var fieldSize := TypeGetSize(t.fields[i].ty);
      var fieldAlign := 1;
      if !t.densa { fieldAlign := TypeGetAlign(t.fields[i].ty); }
      if fieldAlign > maxAlign { maxAlign := fieldAlign; }
      if fieldSize > maxSize { maxSize := fieldSize; }
    }
    s := if t.densa then maxSize else AlignUp(maxSize, maxAlign);
  }

  predicate FirstNamed(t: Type, name: string, i: nat)
    requires IsStruct(t)
  {
    i < |t.fields| && t.fields[i].name == name && forall j | 0 <= j < i :: t.fields[j].name != name
  }

  /** The layout of the first field with the given name; `None` without one. */
  method TypeGetFieldLayout(t: Type, name: string) returns (r: Option<FieldLayout>)
    requires Checked(t)
    ensures r.None? <==> !IsStruct(t) || forall i | 0 <= i < |t.fields| :: t.fields[i].name != name
    ensures r.Some? ==> IsStruct(t) && exists i :: FirstNamed(t, name, i) && r.value == LayoutAt(t, i)
  {
    if !IsStruct(t) { return None; }
    if t.Unio? {
      for i := 0 to |t.fields|
        invariant forall j | 0 <= j < i :: t.fields[j].name != name
      {
        if t.fields[i].name == name {
          assert FirstNamed(t, name, i);
          return Some(FieldLayout(0, 0, t.fields[i].bits));
        }
      }
      return None;
    }
    r := FormaFieldLayout(t, name);
  }

  method FormaFieldLayout(t: Type, name: string) returns (r: Option<FieldLayout>)
    requires Checked(t) && t.Forma?
    ensures r.None? <==> forall i | 0 <= i < |t.fields| :: t.fields[i].name != name
    ensures r.Some? ==> exists i :: FirstNamed(t, name, i) && r.value == LayoutAt(t, i)
  {
    hide Align, MaxAlign, Size, After, Start, Checked, AlignUp, Placed;
    FormaStarts(t);
    var byteOffset: nat, bitOffset: nat := 0, 0;
    for i := 0 to |t.fields|
      invariant Cursor(byteOffset, bitOffset) == After(t, i)
      invariant forall j | 0 <= j < i :: t.fields[j].name != name
    {
      var field := t.fields[i];
      WalkStep(t, i);
      var fieldSize := TypeGetSize(field.ty);
      var fieldAlign := 1;
      if !t.densa { fieldAlign := TypeGetAlign(field.ty); }
      byteOffset, bitOffset := LayoutStep(t.densa, fieldSize, fieldAlign, field.bits, byteOffset, bitOffset);
      assert Cursor(byteOffset, bitOffset) == Start(t, i);
      if field.name == name {
        assert FirstNamed(t, name, i);
        return Some(if t.densa then FieldLayout(byteOffset + bitOffset / 8, bitOffset % 8, field.bits)
          else FieldLayout(byteOffset, bitOffset, field.bits));
      }
      if field.bits > 0 { bitOffset := bitOffset + field.bits; } else { byteOffset := byteOffset + fieldSize; }
    }
    return None;
  }
}
