/** Printing and reading of integers: the loops that the runtime's blocks spell out. */
module Numbers {
  import opened Bytes
  import opened Sir

  type u64 = x: int | 0 <= x < 0x1_0000_0000_0000_0000

  const MINUS: byte := 45
  const PLUS: byte := 43

  predicate IsDigit(c: int) { 48 <= c <= 57 }

  predicate IsSpace(c: int) { c == 32 || c == 10 || c == 13 || c == 9 }

  // ---------------------------------------------------------------------------------------------
  // Printing

  /** The decimal digits of a number, without leading zeros. */
  function Decimal(n: nat): (s: seq<byte>)
    ensures |s| >= 1 && forall k | 0 <= k < |s| :: IsDigit(s[k])
  {
    if n < 10 then [n + 48] else Decimal(n / 10) + [n % 10 + 48]
  }

  function TenTo(k: nat): (p: nat)
    ensures p > 0
  {
    if k == 0 then 1 else 10 * TenTo(k - 1)
  }

  lemma {:induction false} DecimalLength(n: nat, k: nat)
    requires k > 0 && n < TenTo(k)
    ensures |Decimal(n)| <= k
    decreases k
  {
    if n >= 10 { DecimalLength(n / 10, k - 1); }
  }

  /** A 64-bit number has at most 20 digits. */
  lemma LengthFits(n: u64)
    ensures |Decimal(n)| <= 20
  {
    assert TenTo(4) == 10000;
    assert TenTo(8) == 100000000;
    assert TenTo(12) == 1000000000000;
    assert TenTo(16) == 10000000000000000;
    assert TenTo(20) == 100000000000000000000;
    DecimalLength(n, 20);
  }

  /** The digits are written from the back of a 32-byte buffer. */
  method PrintUint(value: u64) returns (text: seq<byte>)
    ensures text == Decimal(value)
  {
    LengthFits(value);
    var buf := new byte[32];
    var pos, val := 32, value;
    var more := true;
    while more
      invariant 12 <= pos <= 32 && buf.Length == 32 && (!more ==> buf[pos..] == Decimal(value))
      invariant more ==> |Decimal(val)| + 32 - pos <= 20 && Decimal(val) + buf[pos..] == Decimal(value)
      decreases more, val
    {
      pos := pos - 1;
      ghost var tail := buf[pos + 1..];
      buf[pos] := val % 10 + 48;
      assert buf[pos..] == [val % 10 + 48] + tail;
      more := val / 10 > 0;
      val := val / 10;
    }
    text := buf[pos..];
  }

  /** The unsigned magnitude of a signed number, as negation and reinterpretation give it. */
  function Magnitude(x: i64): (m: u64)
    ensures m == if x < 0 then 0 - (x as int) else x
  {
    Unsigned(if x < 0 then Wrap(0 - x) else x)
  }

  function Printed(x: i64): seq<byte> { (if x < 0 then [MINUS] else []) + Decimal(Magnitude(x)) }

  method PrintInt(value: i64) returns (text: seq<byte>)
    ensures text == Printed(value)
  {
    text := [];
    var negative := value < 0;
    var negated := value;
    if negative {
      text := [MINUS];
      negated := Wrap(0 - value);
    }
    var digits := PrintUint(Unsigned(if negative then negated else value));
    text := text + digits;
  }

  lemma {:induction false} NoLeadingZero(n: nat)
    requires n > 0
    ensures Decimal(n)[0] != 48
  {
    if n >= 10 { NoLeadingZero(n / 10); }
  }

  /** The text starts with a minus sign for a negative number and with a digit for any other, which is 0 for zero
      only. */
  lemma FirstPrinted(x: i64)
    ensures Printed(x) != [] && (Printed(x)[0] == MINUS <==> x < 0) && (IsDigit(Printed(x)[0]) <==> x >= 0)
    ensures x != 0 ==> var ds := if x < 0 then Printed(x)[1..] else Printed(x); ds != [] && ds[0] != 48
  {
    if x != 0 {
      NoLeadingZero(Magnitude(x));
      assert x < 0 ==> Printed(x)[1..] == Decimal(Magnitude(x));
    }
  }

  // ---------------------------------------------------------------------------------------------
  // Reading

  /** The character read is widened with its sign; the end of the input reads as 0. */
  function CharAt(s: seq<byte>): int { if s == [] then 0 else if s[0] < 128 then s[0] else (s[0] as int) - 256 }

  function Rest(s: seq<byte>): seq<byte> { if s == [] then [] else s[1..] }

  /** The digits at the start of the input, accumulated in 64 bits; the character behind them is consumed. */
  function Accumulate(s: seq<byte>, v: i64): (i64, seq<byte>)
    decreases |s|
  {
    if s == [] || !IsDigit(s[0]) then (v, Rest(s)) else Accumulate(s[1..], Wrap(Wrap(v * 10) + (s[0] - 48)))
  }

  function SkipSpace(s: seq<byte>): seq<byte>
    decreases |s|
  {
    if s != [] && IsSpace(s[0]) then SkipSpace(s[1..]) else s
  }

  /** What is stored for a variable of `size` bytes. */
  function Stored(size: i64, v: i64): i64 {
    if size == 1 then Narrowed(v, 256) else if size == 2 then Narrowed(v, 65536)
      else if size == 4 then Narrowed(v, 4294967296) else v
  }

  /** The low part of a number, with its sign. */
  function Narrowed(v: i64, m: nat): i64
    requires 1 < m <= 4294967296
  {
    var r := v % m;
    if r >= m / 2 then r - m else r
  }

  /** The number at the start of the input and what is left; `None` if there is nothing but space. */
  function Read(s: seq<byte>, size: i64): (Option<i64>, seq<byte>) {
    var t := SkipSpace(s);
    if CharAt(t) == 0 then (None, Rest(t))
    else
      var signed := t[0] == MINUS || t[0] == PLUS;
      var r := Accumulate(if signed then t[1..] else t, 0);
      (Some(Stored(size, if t[0] == MINUS then Wrap(0 - r.0) else r.0)), r.1)
  }

  // ---------------------------------------------------------------------------------------------
  // What a text says

  predicate AllDigits(ds: seq<byte>) { forall k | 0 <= k < |ds| :: IsDigit(ds[k]) }

  /** The number a string of digits stands for, leading zeros and all. */
  function Value(ds: seq<byte>): nat
    requires AllDigits(ds)
  {
    if ds == [] then 0 else Value(ds[..|ds| - 1]) * 10 + (ds[|ds| - 1] - 48)
  }

  /** No digit follows. */
  predicate Stops(s: seq<byte>) { s == [] || !IsDigit(s[0]) }

  /** How many digits the text starts with. */
  function DigitRun(s: seq<byte>): (r: nat)
    ensures r <= |s| && AllDigits(s[..r]) && Stops(s[r..])
  {
    if Stops(s) then 0
    else
      var r := 1 + DigitRun(s[1..]);
      assert s[..r] == [s[0]] + s[1..][..r - 1];
      r
  }

  predicate HasSign(t: seq<byte>) { t != [] && (t[0] == MINUS || t[0] == PLUS) }

  /** The text behind leading space and a sign. */
  function BehindSign(s: seq<byte>): seq<byte> {
    var t := SkipSpace(s);
    if HasSign(t) then t[1..] else t
  }

  /** The number written at the start of a text, however long. */
  function Meaning(s: seq<byte>): int {
    var t, u := SkipSpace(s), BehindSign(s);
    var n := Value(u[..DigitRun(u)]);
    if t != [] && t[0] == MINUS then 0 - n else n
  }

  /** The numbers a variable of `size` bytes holds. */
  predicate InRange(size: i64, x: int) {
    if size == 1 then -0x80 <= x < 0x80
    else if size == 2 then -0x8000 <= x < 0x8000
    else if size == 4 then -0x8000_0000 <= x < 0x8000_0000
    else -TWO_63 <= x < TWO_63
  }

  class Input {
    var rest: seq<byte>

    constructor (s: seq<byte>)
      ensures rest == s
    {
      rest := s;
    }

    method ReadChar() returns (c: int)
      modifies this
      ensures c == CharAt(old(rest)) && rest == Rest(old(rest))
    {
      if rest == [] { return 0; }
      c := if rest[0] < 128 then rest[0] else (rest[0] as int) - 256;
      rest := rest[1..];
    }

    /** Reads a number; the result says whether there was one, and `stored` what goes into the variable. */
    method LegeInt(size: i64) returns (ok: bool, stored: i64)
      modifies this
      ensures ok == Read(old(rest), size).0.Some? && rest == Read(old(rest), size).1
      ensures ok ==> Some(stored) == Read(old(rest), size).0
      ensures ok ==> (stored == Meaning(old(rest)) <==> InRange(size, Meaning(old(rest))))
    {
      hide Meaning, InRange, Wrap, Narrowed;
      stored := 0;
      ghost var s := rest;
      ghost var at := rest;
      var c := ReadChar();
      while c != 0 && (c == 32 || c == 10 || c == 13 || c == 9)
        invariant c == CharAt(at) && rest == Rest(at) && SkipSpace(at) == SkipSpace(s)
        decreases |at|
      {
        at := rest;
        c := ReadChar();
      }
      assert SkipSpace(s) == at;
      if c == 0 { return false, 0; }
      var negative, value: i64 := false, 0;
      if c == 45 || c == 43 {
        negative := c == 45;
        at := rest;
        c := ReadChar();
      }
      ghost var r := Accumulate(at, 0);
      while c != 0 && 48 <= c <= 57
        invariant c == CharAt(at) && rest == Rest(at) && Accumulate(at, value) == r
        decreases |at|
      {
        value := Wrap(Wrap(value * 10) + (c - 48));
        at := rest;
        c := ReadChar();
      }
      if negative { value := Wrap(0 - value); }
      ok := true;
      if size == 1 { stored := Narrowed(value, 256); }
      else if size == 2 { stored := Narrowed(value, 65536); }
      else if size == 4 { stored := Narrowed(value, 4294967296); }
      else { stored := value; }
      ReadIsExactIff(s, size);
    }
  }

  // ---------------------------------------------------------------------------------------------
  // Round trip

  lemma WrapSum(a: int, d: int)
    ensures Wrap(Wrap(a * 10) + d) == Wrap(a * 10 + d)
  {
    WrapAgain(a * 10, d);
  }

  lemma WrapAgain(a: int, d: int)
    ensures Wrap(Wrap(a) + d) == Wrap(a + d)
  {
    var k := (Wrap(a) - a) / TWO_64;
    assert Wrap(a) == a + k * TWO_64;
    WrapShift(a + d, k);
  }

  lemma WrapShift(a: int, k: int)
    ensures Wrap(a + k * TWO_64) == Wrap(a)
  {
    var x, y := Wrap(a + k * TWO_64), Wrap(a);
    var i, j := (x - (a + k * TWO_64)) / TWO_64, (y - a) / TWO_64;
    assert x - y == (i + k - j) * TWO_64;
    assert i + k - j == 0;
  }

  lemma WrapTimesTen(a: int)
    ensures Wrap(Wrap(a) * 10) == Wrap(a * 10)
  {
    var k := (Wrap(a) - a) / TWO_64;
    assert Wrap(a) * 10 == a * 10 + (k * 10) * TWO_64;
    WrapShift(a * 10, k * 10);
  }

  /** Accumulating digits gives their value, wrapped, however many there are. */
  lemma {:induction false} DigitsThen(ds: seq<byte>, s: seq<byte>)
    requires AllDigits(ds)
    ensures Accumulate(ds + s, 0) == Accumulate(s, Wrap(Value(ds)))
    decreases |ds|
  {
    hide Wrap, Accumulate;
    var k := |ds|;
    if k == 0 {
      assert ds + s == s;
      ZeroStays();
    } else {
      var q, d := ds[..k - 1], ds[k - 1] - 48;
      var t: seq<byte> := [d + 48] + s;
      assert ds + s == q + t;
      DigitsThen(q, t);
      OneDigit(d, s, Value(q));
    }
  }

  lemma ZeroStays()
    ensures Wrap(0) == 0
  {}

  lemma OneDigit(d: nat, s: seq<byte>, p: nat)
    requires d < 10
    ensures Accumulate([d + 48] + s, Wrap(p)) == Accumulate(s, Wrap(p * 10 + d))
  {
    var t: seq<byte> := [d + 48] + s;
    assert t[0] == d + 48 && t[1..] == s;
    WrapTimesTen(p);
    WrapSum(p, d);
  }

  lemma NegateWraps(m: int)
    ensures Wrap(0 - Wrap(m)) == Wrap(-m)
  {
    var k := (Wrap(m) - m) / TWO_64;
    assert Wrap(m) == m + k * TWO_64;
    assert 0 - Wrap(m) == -m + (-k) * TWO_64;
    WrapShift(-m, -k);
  }

  /** Every text is read as the number it says, wrapped to 64 bits and cut to the variable; what stopped the digits is
      consumed and nothing behind it. */
  lemma ReadMeans(s: seq<byte>, size: i64)
    requires CharAt(SkipSpace(s)) != 0
    ensures var u := BehindSign(s);
      Read(s, size) == (Some(Stored(size, Wrap(Meaning(s)))), Rest(u[DigitRun(u)..]))
  {
    hide Wrap, Stored, Value, Accumulate, SkipSpace, DigitRun;
    var u := BehindSign(s);
    DigitsAccumulate(u);
    NegateWraps(Value(u[..DigitRun(u)]));
  }

  lemma DigitsAccumulate(u: seq<byte>)
    ensures Accumulate(u, 0) == (Wrap(Value(u[..DigitRun(u)])), Rest(u[DigitRun(u)..]))
  {
    hide Wrap, Value, DigitRun;
    var ds, r := u[..DigitRun(u)], u[DigitRun(u)..];
    assert u == ds + r;
    DigitsThen(ds, r);
  }

  lemma StoredIsExactIff(x: int, size: i64)
    ensures Stored(size, Wrap(x)) == x <==> InRange(size, x)
  {
    hide Wrap, Stored, Narrowed;
    StoredInRange(size, Wrap(x));
    if InRange(size, x) {
      WrapInside(x);
      StoredKeeps(size, x);
    }
  }

  lemma WrapInside(x: int)
    requires -TWO_63 <= x < TWO_63
    ensures Wrap(x) == x
  {}

  lemma StoredInRange(size: i64, v: i64)
    ensures InRange(size, Stored(size, v))
  {}

  lemma StoredKeeps(size: i64, v: i64)
    requires InRange(size, v)
    ensures Stored(size, v) == v
  {}

  /** The variable then holds the number the text says if and only if it fits, for every text with a number. */
  lemma ReadIsExactIff(s: seq<byte>, size: i64)
    requires CharAt(SkipSpace(s)) != 0
    ensures Read(s, size).0.Some?
    ensures Read(s, size).0.value == Meaning(s) <==> InRange(size, Meaning(s))
  {
    hide Wrap, Stored, Read, Meaning;
    ReadMeans(s, size);
    StoredIsExactIff(Meaning(s), size);
  }

  /** Space, a sign or none, digits, and something else: the text says the number of its digits. */
  lemma TextMeans(space: seq<byte>, sign: seq<byte>, ds: seq<byte>, s: seq<byte>)
    requires forall k | 0 <= k < |space| :: IsSpace(space[k])
    requires (sign == [] || sign == [MINUS] || sign == [PLUS]) && AllDigits(ds) && ds != [] && Stops(s)
    ensures CharAt(SkipSpace(space + (sign + (ds + s)))) != 0
    ensures Meaning(space + (sign + (ds + s))) == if sign == [MINUS] then 0 - Value(ds) else Value(ds)
    ensures var u := BehindSign(space + (sign + (ds + s))); u == ds + s && u[DigitRun(u)..] == s
  {
    var t := sign + (ds + s);
    SpaceSkipped(space, t);
    RunEnds(ds, s);
    assert (ds + s)[..|ds|] == ds && (ds + s)[|ds|..] == s;
    if sign == [] {
      assert t == ds + s;
    } else {
      assert t[1..] == ds + s;
    }
  }

  lemma {:induction false} SpaceSkipped(space: seq<byte>, t: seq<byte>)
    requires (forall k | 0 <= k < |space| :: IsSpace(space[k])) && (t == [] || !IsSpace(t[0]))
    ensures SkipSpace(space + t) == t
    decreases |space|
  {
    if space == [] {
      assert space + t == t;
    } else {
      assert (space + t)[1..] == space[1..] + t;
      SpaceSkipped(space[1..], t);
    }
  }

  lemma {:induction false} RunEnds(ds: seq<byte>, s: seq<byte>)
    requires AllDigits(ds) && Stops(s)
    ensures DigitRun(ds + s) == |ds|
    decreases |ds|
  {
    if ds == [] {
      assert ds + s == s;
    } else {
      assert (ds + s)[1..] == ds[1..] + s;
      RunEnds(ds[1..], s);
    }
  }

  lemma {:induction false} DecimalSays(n: nat)
    ensures Value(Decimal(n)) == n
  {
    if n >= 10 {
      assert Decimal(n)[..|Decimal(n)| - 1] == Decimal(n / 10);
      DecimalSays(n / 10);
    }
  }

  /** The text of a natural number says that number. */
  lemma DecimalMeans(n: nat, negative: bool, s: seq<byte>)
    requires Stops(s)
    ensures var t := (if negative then [MINUS] else []) + (Decimal(n) + s);
      && CharAt(SkipSpace(t)) != 0 && Meaning(t) == (if negative then 0 - n else n)
      && BehindSign(t)[DigitRun(BehindSign(t))..] == s
  {
    hide Meaning, Decimal, Value;
    var sign: seq<byte> := if negative then [MINUS] else [];
    DecimalSays(n);
    TextMeans([], sign, Decimal(n), s);
    assert [] + (sign + (Decimal(n) + s)) == sign + (Decimal(n) + s);
  }

  /** Two numbers that do not fit: 2^63 is read into eight bytes as its negative, 2^64 + 1 into one byte as 1. */
  lemma LongNumbersWrap()
    ensures Read(Decimal(0x8000_0000_0000_0000), 8).0 == Some(-0x8000_0000_0000_0000)
    ensures Read(Decimal(0x1_0000_0000_0000_0001), 1).0 == Some(1)
  {
    hide Read, Decimal;
    DecimalRead(0x8000_0000_0000_0000, 8);
    DecimalRead(0x1_0000_0000_0000_0001, 1);
  }

  lemma DecimalRead(n: nat, size: i64)
    ensures Read(Decimal(n), size).0 == Some(Stored(size, Wrap(n)))
  {
    hide Read, Meaning, Decimal, Stored, Wrap;
    DecimalMeans(n, false, []);
    assert [] + (Decimal(n) + []) == Decimal(n);
    ReadMeans(Decimal(n), size);
  }

  /** Reading what was printed gives the number back, whatever stops it, and for every size that can hold it. */
  lemma {:induction false} PrintThenRead(x: i64, s: seq<byte>, size: i64)
    requires Stops(s)
    ensures Read(Printed(x) + s, size) == (Some(Stored(size, x)), Rest(s))
  {
    hide Read, Meaning, Decimal, Stored, Printed, Wrap;
    PrintedMeans(x, s);
    ReadMeans(Printed(x) + s, size);
    WrapsToItself(x);
  }

  lemma WrapsToItself(x: i64)
    ensures Wrap(x) == x
  {}

  lemma {:induction false} PrintedMeans(x: i64, s: seq<byte>)
    requires Stops(s)
    ensures var t := Printed(x) + s;
      CharAt(SkipSpace(t)) != 0 && Meaning(t) == x && BehindSign(t)[DigitRun(BehindSign(t))..] == s
  {
    hide Meaning, Decimal;
    var sign: seq<byte> := if x < 0 then [MINUS] else [];
    DecimalMeans(Magnitude(x), x < 0, s);
    assert Printed(x) + s == sign + (Decimal(Magnitude(x)) + s);
  }
}
