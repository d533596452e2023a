/** The import table, and the loader's way back through it. */
module Imports {
  import opened Bytes
  import opened Alignment
  import opened Sir

  type Name = seq<byte>

  datatype Dll = Dll(name: Name, funcs: seq<Name>)

  ghost predicate NulFree(n: Name) { forall k | 0 <= k < |n| :: n[k] != 0 }

  ghost predicate NamesOk(dlls: seq<Dll>) {
    forall i | 0 <= i < |dlls| :: NulFree(dlls[i].name) && forall j | 0 <= j < |dlls[i].funcs| ::
      NulFree(dlls[i].funcs[j])
  }

  // ---------------------------------------------------------------------------------------------
  // The lists

  function Lower(c: byte): byte { if 65 <= c <= 90 then c + 32 else c }

  /** Library names are compared without regard to case. */
  predicate SameDll(a: Name, b: Name) { |a| == |b| && forall k | 0 <= k < |a| :: Lower(a[k]) == Lower(b[k]) }

  predicate IsDll(dlls: seq<Dll>, name: Name, i: nat) {
    i < |dlls| && SameDll(dlls[i].name, name) && forall k | 0 <= k < i :: !SameDll(dlls[k].name, name)
  }

  predicate NoDll(dlls: seq<Dll>, name: Name) { forall k | 0 <= k < |dlls| :: !SameDll(dlls[k].name, name) }

  /** No library and no function of a library is listed twice. */
  ghost predicate Deduplicated(dlls: seq<Dll>) {
    && (forall i, j | 0 <= i < j < |dlls| :: !SameDll(dlls[i].name, dlls[j].name))
    && (forall i | 0 <= i < |dlls| :: Distinct(dlls[i].funcs) && dlls[i].funcs != [])
  }

  ghost predicate Distinct(fs: seq<Name>) { forall i, j | 0 <= i < j < |fs| :: fs[i] != fs[j] }

  /** Function `func` of library `dll` is in the lists. */
  predicate Imports(dlls: seq<Dll>, dll: Name, func: Name)
  {
    exists i | 0 <= i < |dlls| :: SameDll(dlls[i].name, dll) && func in dlls[i].funcs
  }

  function Extended(d: Dll, func: Name): Dll { if func in d.funcs then d else Dll(d.name, d.funcs + [func]) }

  /** The lists after adding: the first mention of a library or function decides its place. */
  ghost predicate Added(dlls: seq<Dll>, dll: Name, func: Name, dlls': seq<Dll>) {
    if NoDll(dlls, dll) then dlls' == dlls + [Dll(dll, [func])]
    else exists i: nat :: IsDll(dlls, dll, i) && dlls' == dlls[i := Extended(dlls[i], func)]
  }

  /** What was there stays where it was. */
  lemma AddedBehind(dlls: seq<Dll>, dll: Name, func: Name, dlls': seq<Dll>, i: nat)
    requires Added(dlls, dll, func, dlls') && i < |dlls|
    ensures i < |dlls'| && dlls'[i].name == dlls[i].name && dlls[i].funcs <= dlls'[i].funcs
  {}

  /** The characters are the same, or one is the capital of the other. */
  predicate SameLetter(a: byte, b: byte) { a == b || (65 <= a <= 90 && b == a + 32) || (65 <= b <= 90 && a == b + 32) }

  /** Names of one library differ in nothing but the case of letters, and all that do are names of one library. */
  lemma SameUpToCase(a: Name, b: Name)
    ensures SameDll(a, b) <==> |a| == |b| && forall k | 0 <= k < |a| :: SameLetter(a[k], b[k])
  {
    forall x: byte, y: byte
      ensures Lower(x) == Lower(y) <==> SameLetter(x, y)
    {}
  }

  lemma SameDllIsEquivalence(a: Name, b: Name, c: Name)
    ensures SameDll(a, a) && (SameDll(a, b) ==> SameDll(b, a)) && (SameDll(a, b) && SameDll(b, c) ==> SameDll(a, c))
  {}

  /** Adding keeps the lists free of duplicates, adds what was asked for, and nothing else. */
  lemma AddedKeeps(dlls: seq<Dll>, dll: Name, func: Name, dlls': seq<Dll>, dll1: Name, func1: Name)
    requires Deduplicated(dlls) && Added(dlls, dll, func, dlls')
    ensures Deduplicated(dlls')
    ensures Imports(dlls', dll1, func1) <==> Imports(dlls, dll1, func1) || (SameDll(dll, dll1) && func1 == func)
  {
    SameDllIsEquivalence(dll, dll, dll);
    if NoDll(dlls, dll) {
      assert dlls'[|dlls|] == Dll(dll, [func]);
      forall i | 0 <= i < |dlls|
        ensures dlls'[i] == dlls[i] && !SameDll(dlls[i].name, dll)
      {
      }
      NewDllKeeps(dlls, dll, func, dlls', dll1, func1);
    } else {
      var i: nat :| IsDll(dlls, dll, i) && dlls' == dlls[i := Extended(dlls[i], func)];
      OldDllKeeps(dlls, dll, func, dlls', i, dll1, func1);
    }
  }

  lemma NewDllKeeps(dlls: seq<Dll>, dll: Name, func: Name, dlls': seq<Dll>, dll1: Name, func1: Name)
    requires Deduplicated(dlls) && NoDll(dlls, dll) && dlls' == dlls + [Dll(dll, [func])]
    ensures Deduplicated(dlls')
    ensures Imports(dlls', dll1, func1) <==> Imports(dlls, dll1, func1) || (SameDll(dll, dll1) && func1 == func)
  {
    if Imports(dlls, dll1, func1) {
      var i :| 0 <= i < |dlls| && SameDll(dlls[i].name, dll1) && func1 in dlls[i].funcs;
      assert dlls'[i] == dlls[i];
    }
    if SameDll(dll, dll1) && func1 == func { assert dlls'[|dlls|].funcs == [func]; }
  }

  lemma OldDllKeeps(dlls: seq<Dll>, dll: Name, func: Name, dlls': seq<Dll>, i: nat, dll1: Name, func1: Name)
    requires Deduplicated(dlls) && IsDll(dlls, dll, i) && dlls' == dlls[i := Extended(dlls[i], func)]
    ensures Deduplicated(dlls')
    ensures Imports(dlls', dll1, func1) <==> Imports(dlls, dll1, func1) || (SameDll(dll, dll1) && func1 == func)
  {
    hide SameDll;
    SameDllIsEquivalence(dlls[i].name, dll, dll1);
    SameDllIsEquivalence(dll, dlls[i].name, dll1);
    if Imports(dlls, dll1, func1) {
      var k :| 0 <= k < |dlls| && SameDll(dlls[k].name, dll1) && func1 in dlls[k].funcs;
      assert SameDll(dlls'[k].name, dll1) && func1 in dlls'[k].funcs;
    }
    if SameDll(dll, dll1) && func1 == func { assert SameDll(dlls'[i].name, dll1) && func in dlls'[i].funcs; }
    if Imports(dlls', dll1, func1) {
      var k :| 0 <= k < |dlls'| && SameDll(dlls'[k].name, dll1) && func1 in dlls'[k].funcs;
      if func1 in dlls[k].funcs { assert Imports(dlls, dll1, func1); }
    }
    assert Distinct(dlls'[i].funcs);
  }

  // ---------------------------------------------------------------------------------------------
  // The image

  function Somes(fs: seq<Name>): (e: seq<Option<Name>>)
    ensures |e| == |fs| && forall k | 0 <= k < |fs| :: e[k] == Some(fs[k])
  {
    seq(|fs|, k requires 0 <= k < |fs| => Some(fs[k]))
  }

  /** One entry for every function and one behind each library's last. */
  function Flat(dlls: seq<Dll>): seq<Option<Name>> {
    if dlls == [] then [] else Flat(dlls[..|dlls| - 1]) + Somes(dlls[|dlls| - 1].funcs) + [None]
  }

  /** The index of a library's first entry. */
  function First(dlls: seq<Dll>, i: nat): nat
    requires i <= |dlls|
  {
    |Flat(dlls[..i])|
  }

  lemma {:induction false} FlatAt(dlls: seq<Dll>, i: nat)
    requires i < |dlls|
    ensures First(dlls, i + 1) == First(dlls, i) + |dlls[i].funcs| + 1 <= |Flat(dlls)|
    ensures forall j | 0 <= j < |dlls[i].funcs| :: Flat(dlls)[First(dlls, i) + j] == Some(dlls[i].funcs[j])
    ensures Flat(dlls)[First(dlls, i) + |dlls[i].funcs|] == None
    decreases |dlls|
  {
    hide Flat;
    var n := |dlls| - 1;
    var a, b := Flat(dlls[..n]), Somes(dlls[n].funcs);
    FlatLast(dlls);
    Terminated(a, b);
    if i < n {
      FlatAt(dlls[..n], i);
      FirstInPrefix(dlls, n, i);
      FirstInPrefix(dlls, n, i + 1);
      assert Flat(dlls)[..|a|] == a;
    } else {
      assert dlls[..i + 1] == dlls;
    }
  }

  lemma FirstInPrefix(dlls: seq<Dll>, n: nat, i: nat)
    requires i <= n <= |dlls|
    ensures First(dlls[..n], i) == First(dlls, i)
  {
    assert dlls[..n][..i] == dlls[..i];
  }

  lemma FlatLast(dlls: seq<Dll>)
    requires dlls != []
    ensures Flat(dlls) == Flat(dlls[..|dlls| - 1]) + Somes(dlls[|dlls| - 1].funcs) + [None]
  {}

  lemma Terminated(a: seq<Option<Name>>, b: seq<Option<Name>>)
    ensures var s := a + b + [None];
      && |s| == |a| + |b| + 1 && s[|a| + |b|] == None
      && (forall j | 0 <= j < |a| :: s[j] == a[j]) && forall j | 0 <= j < |b| :: s[|a| + j] == b[j]
  {}

  /** A hint of 0, the name, its end, and a byte to make the length even. */
  function HintBytes(name: Name): (s: seq<byte>)
    ensures |s| % 2 == 0
  {
    [0, 0] + name + [0] + if |name| % 2 == 0 then [0] else []
  }

  function Hints(es: seq<Option<Name>>): (s: seq<byte>)
    ensures |s| % 2 == 0
  {
    if es == [] then [] else Hints(es[..|es| - 1]) + if es[|es| - 1].Some? then HintBytes(es[|es| - 1].value) else []
  }

  function NameBytes(dlls: seq<Dll>): seq<byte> {
    if dlls == [] then [] else NameBytes(dlls[..|dlls| - 1]) + dlls[|dlls| - 1].name + [0]
  }

  /** Where the parts of the table begin. */
  datatype Plan = Plan(iat: nat, ints: nat, hints: nat, names: nat, dir: nat, end: nat)

  function PlanOf(used: nat, dlls: seq<Dll>): Plan {
    var n := |Flat(dlls)|;
    var iat := AlignUp(used, 8);
    var names := iat + 16 * n + |Hints(Flat(dlls))|;
    var dir := AlignUp(names + |NameBytes(dlls)|, 8);
    Plan(iat, iat + 8 * n, iat + 16 * n, names, dir, dir + 20 * (|dlls| + 1))
  }

  function HintAt(dlls: seq<Dll>, p: Plan, k: nat): nat
    requires k <= |Flat(dlls)|
  {
    p.hints + |Hints(Flat(dlls)[..k])|
  }

  function NameAt(dlls: seq<Dll>, p: Plan, i: nat): nat
    requires i <= |dlls|
  {
    p.names + |NameBytes(dlls[..i])|
  }

  /** The contents of a slot: where the name is, or the end. */
  function Thunk(dlls: seq<Dll>, p: Plan, rva: nat, k: nat): nat
    requires k < |Flat(dlls)|
  {
    if Flat(dlls)[k].None? then 0 else rva + HintAt(dlls, p, k)
  }

  function Thunks(dlls: seq<Dll>, p: Plan, rva: nat, n: nat): (s: seq<byte>)
    requires n <= |Flat(dlls)|
    ensures |s| == 8 * n
  {
    if n == 0 then [] else Thunks(dlls, p, rva, n - 1) + LE(Thunk(dlls, p, rva, n - 1), 8)
  }

  function DirEntry(dlls: seq<Dll>, p: Plan, rva: nat, i: nat): (s: seq<byte>)
    requires i < |dlls|
    ensures |s| == 20
  {
    LE(rva + p.ints + 8 * First(dlls, i), 4) + LE(0, 4) + LE(0, 4) + LE(rva + NameAt(dlls, p, i),
      4) + LE(rva + p.iat + 8 * First(dlls, i), 4)
  }

  function Directory(dlls: seq<Dll>, p: Plan, rva: nat, n: nat): (s: seq<byte>)
    requires n <= |dlls|
    ensures |s| == 20 * n
  {
    if n == 0 then [] else Directory(dlls, p, rva, n - 1) + DirEntry(dlls, p, rva, n - 1)
  }

  /** What stands behind the slots. */
  function Tail(dlls: seq<Dll>, p: Plan, rva: nat): seq<byte>
    requires p.names + |NameBytes(dlls)| <= p.dir
  {
    Hints(Flat(dlls)) + NameBytes(dlls) + Zeros(p.dir - p.names - |NameBytes(dlls)|) + Directory(dlls, p, rva,
      |dlls|) + Zeros(20)
  }

  /** The finished section, behind what it held before. */
  function Image(used: seq<byte>, dlls: seq<Dll>, rva: nat): seq<byte> {
    var p, n := PlanOf(|used|, dlls), |Flat(dlls)|;
    used + Zeros(p.iat - |used|) + Thunks(dlls, p, rva, n) + Thunks(dlls, p, rva, n) + Tail(dlls, p, rva)
  }

  // ---------------------------------------------------------------------------------------------
  // What stands where

  ghost predicate SlotFact(img: seq<byte>, dlls: seq<Dll>, p: Plan, rva: nat, k: nat)
    requires k < |Flat(dlls)|
  {
    At(img, p.iat + 8 * k, LE(Thunk(dlls, p, rva, k), 8)) && At(img, p.ints + 8 * k, LE(Thunk(dlls, p, rva, k), 8))
  }

  ghost predicate HintFact(img: seq<byte>, dlls: seq<Dll>, p: Plan, k: nat)
    requires k < |Flat(dlls)|
  {
    Flat(dlls)[k].Some? ==> At(img, HintAt(dlls, p, k), HintBytes(Flat(dlls)[k].value))
  }

  ghost predicate NameFact(img: seq<byte>, dlls: seq<Dll>, p: Plan, i: nat)
    requires i < |dlls|
  {
    At(img, NameAt(dlls, p, i), dlls[i].name + [0])
  }

  ghost predicate DirFact(img: seq<byte>, dlls: seq<Dll>, p: Plan, rva: nat, i: nat)
    requires i <= |dlls|
  {
    At(img, p.dir + 20 * i, if i < |dlls| then DirEntry(dlls, p, rva, i) else Zeros(20))
  }

  ghost predicate Facts(img: seq<byte>, dlls: seq<Dll>, p: Plan, rva: nat) {
    && (forall k: nat | k < |Flat(dlls)| :: SlotFact(img, dlls, p, rva, k))
    && (forall k: nat | k < |Flat(dlls)| :: HintFact(img, dlls, p, k))
    && (forall i: nat | i < |dlls| :: NameFact(img, dlls, p, i))
    && (forall i: nat | i <= |dlls| :: DirFact(img, dlls, p, rva, i))
  }

  lemma {:induction false} ThunkAt(dlls: seq<Dll>, p: Plan, rva: nat, n: nat, k: nat)
    requires k < n <= |Flat(dlls)|
    ensures At(Thunks(dlls, p, rva, n), 8 * k, LE(Thunk(dlls, p, rva, k), 8))
    decreases n
  {
    hide Flat, LE, Thunk;
    if k < n - 1 {
      ThunkAt(dlls, p, rva, n - 1, k);
      AtBefore(Thunks(dlls, p, rva, n - 1), LE(Thunk(dlls, p, rva, n - 1), 8), 8 * k, LE(Thunk(dlls, p, rva, k), 8));
    } else {
      AtBehind(Thunks(dlls, p, rva, k), LE(Thunk(dlls, p, rva, k), 8), 0, LE(Thunk(dlls, p, rva, k), 8));
    }
  }

  lemma {:induction false} HintIsAt(es: seq<Option<Name>>, k: nat)
    requires k < |es| && es[k].Some?
    ensures At(Hints(es), |Hints(es[..k])|, HintBytes(es[k].value))
    decreases |es|
  {
    hide HintBytes;
    var n := |es| - 1;
    var last := if es[n].Some? then HintBytes(es[n].value) else [];
    if k < n {
      HintIsAt(es[..n], k);
      assert es[..n][..k] == es[..k];
      AtBefore(Hints(es[..n]), last, |Hints(es[..k])|, HintBytes(es[k].value));
    } else {
      AtBehind(Hints(es[..n]), last, 0, last);
    }
  }

  lemma {:induction false} NameIsAt(dlls: seq<Dll>, i: nat)
    requires i < |dlls|
    ensures At(NameBytes(dlls), |NameBytes(dlls[..i])|, dlls[i].name + [0])
    decreases |dlls|
  {
    var n := |dlls| - 1;
    var last := dlls[n].name + [0];
    assert NameBytes(dlls) == NameBytes(dlls[..n]) + last;
    if i < n {
      NameIsAt(dlls[..n], i);
      assert dlls[..n][..i] == dlls[..i];
      AtBefore(NameBytes(dlls[..n]), last, |NameBytes(dlls[..i])|, dlls[i].name + [0]);
    } else {
      AtBehind(NameBytes(dlls[..n]), last, 0, last);
    }
  }

  lemma {:induction false} EntryIsAt(dlls: seq<Dll>, p: Plan, rva: nat, n: nat, i: nat)
    requires i < n <= |dlls|
    ensures At(Directory(dlls, p, rva, n), 20 * i, DirEntry(dlls, p, rva, i))
    decreases n
  {
    hide DirEntry;
    if i < n - 1 {
      EntryIsAt(dlls, p, rva, n - 1, i);
      AtBefore(Directory(dlls, p, rva, n - 1), DirEntry(dlls, p, rva, n - 1), 20 * i, DirEntry(dlls, p, rva, i));
    } else {
      AtBehind(Directory(dlls, p, rva, i), DirEntry(dlls, p, rva, i), 0, DirEntry(dlls, p, rva, i));
    }
  }

  /** A part of a concatenation of three. */
  lemma AtMiddle(a: seq<byte>, b: seq<byte>, c: seq<byte>, o: nat, s: seq<byte>)
    requires At(b, o, s)
    ensures At(a + b + c, |a| + o, s)
  {
    AtBehind(a, b, o, s);
    AtBefore(a + b, c, |a| + o, s);
  }

  lemma SlotsStand(used: seq<byte>, dlls: seq<Dll>, rva: nat, k: nat)
    requires k < |Flat(dlls)|
    ensures SlotFact(Image(used, dlls, rva), dlls, PlanOf(|used|, dlls), rva, k)
  {
    hide Flat, Thunk, Thunks, Tail, LE, AlignUp;
    var p, n := PlanOf(|used|, dlls), |Flat(dlls)|;
    var head, t, tail := used + Zeros(p.iat - |used|), Thunks(dlls, p, rva, n), Tail(dlls, p, rva);
    ThunkAt(dlls, p, rva, n, k);
    assert Image(used, dlls, rva) == head + t + (t + tail) == (head + t) + t + tail;
    AtMiddle(head, t, t + tail, 8 * k, LE(Thunk(dlls, p, rva, k), 8));
    AtMiddle(head + t, t, tail, 8 * k, LE(Thunk(dlls, p, rva, k), 8));
  }

  lemma TailStands(used: seq<byte>, dlls: seq<Dll>, rva: nat, o: nat, s: seq<byte>)
    requires At(Tail(dlls, PlanOf(|used|, dlls), rva), o, s)
    ensures At(Image(used, dlls, rva), PlanOf(|used|, dlls).hints + o, s)
  {
    hide Flat, Thunk, Thunks, Tail, AlignUp;
    var p, n := PlanOf(|used|, dlls), |Flat(dlls)|;
    var head := used + Zeros(p.iat - |used|) + Thunks(dlls, p, rva, n) + Thunks(dlls, p, rva, n);
    AtBehind(head, Tail(dlls, p, rva), o, s);
  }

  lemma ImageFacts(used: seq<byte>, dlls: seq<Dll>, rva: nat)
    ensures Facts(Image(used, dlls, rva), dlls, PlanOf(|used|, dlls), rva)
  {
    hide Image, SlotFact, HintFact, NameFact, DirFact, Flat, PlanOf;
    var img, p := Image(used, dlls, rva), PlanOf(|used|, dlls);
    forall k: nat | k < |Flat(dlls)|
      ensures SlotFact(img, dlls, p, rva, k) && HintFact(img, dlls, p, k)
    {
      SlotsStand(used, dlls, rva, k);
      HintsStand(used, dlls, rva, k);
    }
    forall i: nat | i < |dlls| ensures NameFact(img, dlls, p, i) { NamesStand(used, dlls, rva, i); }
    forall i: nat | i <= |dlls| ensures DirFact(img, dlls, p, rva, i) { DirectoryStands(used, dlls, rva, i); }
  }

  lemma HintsStand(used: seq<byte>, dlls: seq<Dll>, rva: nat, k: nat)
    requires k < |Flat(dlls)|
    ensures HintFact(Image(used, dlls, rva), dlls, PlanOf(|used|, dlls), k)
  {
    hide Image, Flat, Hints, HintBytes, Directory, NameBytes, AlignUp;
    var p, es := PlanOf(|used|, dlls), Flat(dlls);
    if es[k].Some? {
      HintIsAt(es, k);
      var rest := NameBytes(dlls) + Zeros(p.dir - p.names - |NameBytes(dlls)|) + Directory(dlls, p, rva,
        |dlls|) + Zeros(20);
      assert Tail(dlls, p, rva) == Hints(es) + rest;
      AtBefore(Hints(es), rest, |Hints(es[..k])|, HintBytes(es[k].value));
      TailStands(used, dlls, rva, |Hints(es[..k])|, HintBytes(es[k].value));
    }
  }

  lemma NamesStand(used: seq<byte>, dlls: seq<Dll>, rva: nat, i: nat)
    requires i < |dlls|
    ensures NameFact(Image(used, dlls, rva), dlls, PlanOf(|used|, dlls), i)
  {
    hide Image, Flat, Hints, HintBytes, Directory, NameBytes, AlignUp;
    var p, es := PlanOf(|used|, dlls), Flat(dlls);
    NameIsAt(dlls, i);
    var rest := Zeros(p.dir - p.names - |NameBytes(dlls)|) + Directory(dlls, p, rva, |dlls|) + Zeros(20);
    assert Tail(dlls, p, rva) == Hints(es) + NameBytes(dlls) + rest;
    AtMiddle(Hints(es), NameBytes(dlls), rest, |NameBytes(dlls[..i])|, dlls[i].name + [0]);
    TailStands(used, dlls, rva, |Hints(es)| + |NameBytes(dlls[..i])|, dlls[i].name + [0]);
  }

  lemma DirectoryStands(used: seq<byte>, dlls: seq<Dll>, rva: nat, i: nat)
    requires i <= |dlls|
    ensures DirFact(Image(used, dlls, rva), dlls, PlanOf(|used|, dlls), rva, i)
  {
    hide Image, Flat, Hints, HintBytes, Directory, NameBytes, DirEntry, AlignUp;
    var p, es := PlanOf(|used|, dlls), Flat(dlls);
    var head, d := Hints(es) + NameBytes(dlls) + Zeros(p.dir - p.names - |NameBytes(dlls)|),
      Directory(dlls, p, rva, |dlls|);
    assert Tail(dlls, p, rva) == head + d + Zeros(20);
    var s := if i < |dlls| then DirEntry(dlls, p, rva, i) else Zeros(20);
    if i < |dlls| {
      EntryIsAt(dlls, p, rva, |dlls|, i);
      AtMiddle(head, d, Zeros(20), 20 * i, s);
    } else {
      AtBehind(head + d, Zeros(20), 0, s);
    }
    TailStands(used, dlls, rva, |head| + 20 * i, s);
  }

  // ---------------------------------------------------------------------------------------------
  // The loader

  /** A string that ends with a zero byte. */
  function CString(img: seq<byte>, o: nat): Option<Name>
    decreases |img| - o
  {
    if o >= |img| then None
    else if img[o] == 0 then Some([])
    else
      match CString(img, o + 1)
      case None => None
      case Some(n) => Some([img[o]] + n)
  }

  lemma {:induction false} CStringIs(img: seq<byte>, o: nat, name: Name)
    requires At(img, o, name + [0]) && NulFree(name)
    ensures CString(img, o) == Some(name)
    decreases |name|
  {
    assert img[o] == (name + [0])[0];
    if name != [] {
      assert img[o + 1..o + 1 + |name|] == (name + [0])[1..] == name[1..] + [0];
      CStringIs(img, o + 1, name[1..]);
      assert name == [name[0]] + name[1..];
    }
  }

  const BY_ORDINAL := 0x8000_0000_0000_0000

  /** The names a library's lookup table points at, up to its zero entry. */
  function WalkNames(img: seq<byte>, rva: nat, o: nat): Option<seq<Name>>
    decreases |img| - o
  {
    if o + 8 > |img| then None
    else
      var v := NumberAt(img, o, 8);
      if v == 0 then Some([])
      else if v >= BY_ORDINAL || v < rva then None
      else
        match (CString(img, v - rva + 2), WalkNames(img, rva, o + 8))
        case (Some(name), Some(rest)) => Some([name] + rest)
        case _ => None
  }

  /** What the loader finds for one library; it fills the slots from `iat` on. */
  datatype Found = Found(dll: Name, funcs: seq<Name>, iat: nat)

  /** Section ".idata" of the PE format: directory entries up to one that is all zero. */
  function WalkDirectory(img: seq<byte>, rva: nat, o: nat): Option<seq<Found>>
    decreases |img| - o
  {
    if o + 20 > |img| then None
    else if img[o..o + 20] == Zeros(20) then Some([])
    else
      var lookup, name, first := NumberAt(img, o, 4), NumberAt(img, o + 12, 4), NumberAt(img, o + 16, 4);
      if lookup < rva || name < rva || first < rva then None
      else
        match (CString(img, name - rva), WalkNames(img, rva, lookup - rva), WalkDirectory(img, rva, o + 20))
        case (Some(dll), Some(funcs), Some(rest)) => Some([Found(dll, funcs, first - rva)] + rest)
        case _ => None
  }

  lemma {:induction false} NamesAreWalked(img: seq<byte>, dlls: seq<Dll>, p: Plan, rva: nat, i: nat, j: nat)
    requires Facts(img, dlls, p, rva) && NamesOk(dlls) && i < |dlls| && j <= |dlls[i].funcs|
    requires rva > 0 && rva + |img| < 0x1_0000_0000
    ensures WalkNames(img, rva, p.ints + 8 * (First(dlls, i) + j)) == Some(dlls[i].funcs[j..])
    decreases |dlls[i].funcs| - j
  {
    hide Flat, LE, Hints, CString, HintBytes, First;
    FlatAt(dlls, i);
    var k := First(dlls, i) + j;
    var o := p.ints + 8 * k;
    assert k < |Flat(dlls)| && SlotFact(img, dlls, p, rva, k) && HintFact(img, dlls, p, k);
    if j == |dlls[i].funcs| {
      assert Thunk(dlls, p, rva, k) == 0;
      ReadNumber(img, o, 0, 8);
      assert dlls[i].funcs[j..] == [];
    } else {
      var name := dlls[i].funcs[j];
      HintRead(img, HintAt(dlls, p, k), name);
      ReadNumber(img, o, rva + HintAt(dlls, p, k), 8);
      NamesAreWalked(img, dlls, p, rva, i, j + 1);
      assert dlls[i].funcs[j..] == [name] + dlls[i].funcs[j + 1..];
    }
  }

  lemma ReadNumber(img: seq<byte>, o: nat, v: nat, n: nat)
    requires At(img, o, LE(v, n)) && v < 0x1_0000_0000 && n >= 4
    ensures NumberAt(img, o, n) == v
  {
    BoundIsLarge(n);
    NumberIsAt(img, o, v, n);
  }

  lemma {:induction false} BoundIsLarge(n: nat)
    requires n >= 4
    ensures Bound(n) >= 0x1_0000_0000
  {
    if n > 4 { BoundIsLarge(n - 1); } else { assert Bound(2) == 65536; }
  }

  lemma HintRead(img: seq<byte>, o: nat, name: Name)
    requires At(img, o, HintBytes(name)) && NulFree(name)
    ensures CString(img, o + 2) == Some(name) && o + 2 <= |img|
  {
    hide CString;
    var pad: seq<byte> := if |name| % 2 == 0 then [0] else [];
    assert HintBytes(name) == [0, 0] + ((name + [0]) + pad);
    AtPart(img, o, [0, 0], (name + [0]) + pad);
    AtPart(img, o + 2, name + [0], pad);
    CStringIs(img, o + 2, name);
  }

  /** The loader's findings for the libraries from `i` on. */
  function Findings(dlls: seq<Dll>, p: Plan, i: nat): seq<Found>
    requires i <= |dlls|
    decreases |dlls| - i
  {
    if i == |dlls| then []
      else [Found(dlls[i].name, dlls[i].funcs, p.iat + 8 * First(dlls, i))] + Findings(dlls, p, i + 1)
  }

  lemma EntryRead(img: seq<byte>, dlls: seq<Dll>, p: Plan, rva: nat, i: nat)
    requires i < |dlls| && DirFact(img, dlls, p, rva, i)
    requires rva + p.ints + 8 * First(dlls, i) < 0x1_0000_0000 && rva + NameAt(dlls, p, i) < 0x1_0000_0000
    requires rva + p.iat + 8 * First(dlls, i) < 0x1_0000_0000
    ensures var o := p.dir + 20 * i;
      && o + 20 <= |img| && NumberAt(img, o, 4) == rva + p.ints + 8 * First(dlls, i)
      && NumberAt(img, o + 12, 4) == rva + NameAt(dlls, p, i)
      && NumberAt(img, o + 16, 4) == rva + p.iat + 8 * First(dlls, i)
  {
    hide LE, First, NameAt, NumberAt, At;
    FiveNumbers(img, p.dir + 20 * i, rva + p.ints + 8 * First(dlls, i), rva + NameAt(dlls, p, i),
      rva + p.iat + 8 * First(dlls, i));
  }

  lemma FiveNumbers(img: seq<byte>, o: nat, u: nat, v: nat, w: nat)
    requires At(img, o, LE(u, 4) + LE(0, 4) + LE(0, 4) + LE(v, 4) + LE(w, 4))
    requires u < 0x1_0000_0000 && v < 0x1_0000_0000 && w < 0x1_0000_0000
    ensures o + 20 <= |img| && NumberAt(img, o, 4) == u && NumberAt(img, o + 12, 4) == v
    ensures NumberAt(img, o + 16, 4) == w
  {
    hide LE, NumberAt, At;
    var a, z, n, f := LE(u, 4), LE(0, 4) + LE(0, 4), LE(v, 4), LE(w, 4);
    assert a + LE(0, 4) + LE(0, 4) + n + f == a + (z + (n + f));
    AtPart(img, o, a, z + (n + f));
    AtPart(img, o + 4, z, n + f);
    AtPart(img, o + 12, n, f);
    ReadNumber(img, o, u, 4);
    ReadNumber(img, o + 12, v, 4);
    ReadNumber(img, o + 16, w, 4);
    AtInside(img, o + 16, f);
  }

  lemma AtInside(img: seq<byte>, o: nat, s: seq<byte>)
    requires At(img, o, s)
    ensures o + |s| <= |img|
  {}

  /** The whole directory is walked back to the lists it was built from. */
  lemma {:induction false} DirectoryIsWalked(img: seq<byte>, dlls: seq<Dll>, p: Plan, rva: nat, i: nat)
    requires Facts(img, dlls, p, rva) && NamesOk(dlls) && i <= |dlls| && rva > 0 && rva + |img| < 0x1_0000_0000
    ensures WalkDirectory(img, rva, p.dir + 20 * i) == Some(Findings(dlls, p, i))
    decreases |dlls| - i
  {
    hide WalkNames, CString, NumberAt, NamesOk, First, Flat, LE, NameAt, Thunk, HintAt, DirEntry;
    assert DirFact(img, dlls, p, rva, i);
    if i < |dlls| {
      var o := p.dir + 20 * i;
      SlotsInside(img, dlls, p, rva, i);
      EntryRead(img, dlls, p, rva, i);
      EntryIsNotEmpty(img, dlls, p, rva, i);
      assert NameFact(img, dlls, p, i);
      DllRead(img, dlls, p, i);
      NamesAreWalked(img, dlls, p, rva, i, 0);
      assert dlls[i].funcs[0..] == dlls[i].funcs;
      DirectoryIsWalked(img, dlls, p, rva, i + 1);
    }
  }

  lemma DllRead(img: seq<byte>, dlls: seq<Dll>, p: Plan, i: nat)
    requires i < |dlls| && NameFact(img, dlls, p, i) && NamesOk(dlls)
    ensures CString(img, NameAt(dlls, p, i)) == Some(dlls[i].name)
  {
    hide CString, NameAt;
    CStringIs(img, NameAt(dlls, p, i), dlls[i].name);
  }

  lemma SlotsInside(img: seq<byte>, dlls: seq<Dll>, p: Plan, rva: nat, i: nat)
    requires Facts(img, dlls, p, rva) && i < |dlls|
    ensures p.ints + 8 * First(dlls, i) <= |img| && p.iat + 8 * First(dlls, i) <= |img| && NameAt(dlls, p, i) <= |img|
  {
    hide Flat, LE, Thunk, NameAt;
    FlatAt(dlls, i);
    assert SlotFact(img, dlls, p, rva, First(dlls, i)) && NameFact(img, dlls, p, i);
  }

  lemma EntryIsNotEmpty(img: seq<byte>, dlls: seq<Dll>, p: Plan, rva: nat, i: nat)
    requires i < |dlls| && rva > 0 && p.dir + 20 * i + 20 <= |img|
    requires NumberAt(img, p.dir + 20 * i, 4) == rva + p.ints + 8 * First(dlls, i)
    ensures img[p.dir + 20 * i..p.dir + 20 * i + 20] != Zeros(20)
  {
    hide First;
    var o := p.dir + 20 * i;
    if img[o..o + 20] == Zeros(20) {
      assert img[o..o + 4] == img[o..o + 20][..4] == Zeros(4);
      ZerosAreZero(4);
      NumberOfLE(0, 4);
    }
  }

  // ---------------------------------------------------------------------------------------------
  // Building

  /** The slots of every function, by library. */
  ghost predicate IatsOk(dlls: seq<Dll>, iat: seq<seq<nat>>, p: Plan) {
    && |iat| == |dlls|
    && forall i | 0 <= i < |dlls| :: RowOk(dlls, iat[i], p, i)
  }

  ghost predicate RowOk(dlls: seq<Dll>, row: seq<nat>, p: Plan, i: nat)
    requires i < |dlls|
  {
    |row| == |dlls[i].funcs| && forall j | 0 <= j < |row| :: row[j] == p.iat + 8 * (First(dlls, i) + j)
  }

  ghost predicate HintsRowOk(dlls: seq<Dll>, row: seq<nat>, p: Plan, i: nat)
    requires i < |dlls|
  {
    && |row| == |dlls[i].funcs|
    && forall j | 0 <= j < |row| :: First(dlls, i) + j <= |Flat(dlls)| && row[j] == HintAt(dlls, p, First(dlls, i) + j)
  }

  lemma ZerosMore(n: nat, k: nat)
    ensures Zeros(n) + Zeros(k) == Zeros(n + k)
  {}

  /** Appends zero bytes. */
  method AppendZeros(cb: PeCodeBuffer, count: nat)
    modifies cb
    ensures cb.bytes == old(cb.bytes) + Zeros(count)
  {
    for i := 0 to count
      invariant cb.bytes == old(cb.bytes) + Zeros(i)
    {
      cb.Emit8(0);
      assert Zeros(i + 1) == Zeros(i) + [0];
    }
  }

  /** Appends zero bytes up to a multiple of 8. */
  method AlignBuffer(cb: PeCodeBuffer)
    modifies cb
    ensures cb.bytes == old(cb.bytes) + Zeros(AlignUp(|old(cb.bytes)|, 8) - |old(cb.bytes)|)
  {
    ghost var n := |cb.bytes|;
    ghost var target := AlignUp(n, 8);
    ghost var k := 0;
    while |cb.bytes| % 8 != 0
      invariant n + k == |cb.bytes| <= target && cb.bytes == old(cb.bytes) + Zeros(k)
      decreases target - |cb.bytes|
    {
      cb.Emit8(0);
      assert Zeros(k + 1) == Zeros(k) + [0];
      k := k + 1;
    }
    NextMultiple(n, |cb.bytes|);
  }

  lemma NextMultiple(n: nat, m: nat)
    requires n <= m <= AlignUp(n, 8) && m % 8 == 0
    ensures m == AlignUp(n, 8)
  {}

  /** A name and its end. */
  method EmitName(cb: PeCodeBuffer, name: Name)
    modifies cb
    ensures cb.bytes == old(cb.bytes) + name + [0]
  {
    for k := 0 to |name|
      invariant cb.bytes == old(cb.bytes) + name[..k]
    {
      cb.Emit8(name[k]);
    }
    cb.Emit8(0);
  }

  /** Room for one table of slots. */
  method EmitSlots(dlls: seq<Dll>, cb: PeCodeBuffer) returns (offsets: seq<seq<nat>>)
    modifies cb
    ensures cb.bytes == old(cb.bytes) + Zeros(8 * |Flat(dlls)|)
    ensures |offsets| == |dlls| && forall i | 0 <= i < |dlls| ::
      |offsets[i]| == |dlls[i].funcs| + 1 && forall j | 0 <= j <= |dlls[i].funcs| ::
        offsets[i][j] == |old(cb.bytes)| + 8 * (First(dlls, i) + j)
  {
    hide Flat;
    ghost var start := |cb.bytes|;
    offsets := [];
    NoEntries(dlls);
    for i := 0 to |dlls|
      invariant cb.bytes == old(cb.bytes) + Zeros(8 * First(dlls, i))
      invariant |offsets| == i && forall k | 0 <= k < i ::
        |offsets[k]| == |dlls[k].funcs| + 1 && forall j | 0 <= j <= |dlls[k].funcs| ::
          offsets[k][j] == start + 8 * (First(dlls, k) + j)
    {
      var row := [];
      FlatAt(dlls, i);
      for j := 0 to |dlls[i].funcs| + 1
        invariant cb.bytes == old(cb.bytes) + Zeros(8 * (First(dlls, i) + j))
        invariant |row| == j && forall m | 0 <= m < j :: row[m] == start + 8 * (First(dlls, i) + m)
      {
        row := row + [|cb.bytes|];
        AppendZeros(cb, 8);
        ZerosMore(8 * (First(dlls, i) + j), 8);
      }
      offsets := offsets + [row];
    }
    AllEntries(dlls);
  }

  lemma NoEntries(dlls: seq<Dll>)
    ensures First(dlls, 0) == 0
  {}

  lemma AllEntries(dlls: seq<Dll>)
    ensures First(dlls, |dlls|) == |Flat(dlls)|
  {
    assert dlls[..|dlls|] == dlls;
  }

  lemma HintsNext(es: seq<Option<Name>>, k: nat)
    requires k < |es|
    ensures Hints(es[..k + 1]) == Hints(es[..k]) + if es[k].Some? then HintBytes(es[k].value) else []
  {
    assert es[..k + 1][..k] == es[..k];
  }

  /** The names of the functions, each behind a hint of 0. */
  method EmitHints(dlls: seq<Dll>, cb: PeCodeBuffer, ghost p: Plan) returns (offsets: seq<seq<nat>>)
    requires |cb.bytes| == p.hints && p.hints % 2 == 0
    modifies cb
    ensures cb.bytes == old(cb.bytes) + Hints(Flat(dlls))
    ensures |offsets| == |dlls| && forall i | 0 <= i < |dlls| :: HintsRowOk(dlls, offsets[i], p, i)
  {
    hide Flat, Hints, HintBytes;
    ghost var es := Flat(dlls);
    offsets := [];
    NoEntries(dlls);
    NoHints(es);
    for i := 0 to |dlls|
      invariant First(dlls, i) <= |es| && cb.bytes == old(cb.bytes) + Hints(es[..First(dlls, i)])
      invariant |offsets| == i && forall k | 0 <= k < i :: HintsRowOk(dlls, offsets[k], p, k)
    {
      FlatAt(dlls, i);
      var row := EmitHintRow(dlls, i, cb, p);
      HintsNext(es, First(dlls, i) + |dlls[i].funcs|);
      offsets := offsets + [row];
    }
    AllEntries(dlls);
    assert es[..|es|] == es;
  }

  lemma NoHints(es: seq<Option<Name>>)
    ensures Hints(es[..0]) == []
  {}

  method EmitHintRow(dlls: seq<Dll>, i: nat, cb: PeCodeBuffer, ghost p: Plan) returns (row: seq<nat>)
    requires i < |dlls| && First(dlls, i) <= |Flat(dlls)| && p.hints % 2 == 0
    requires |cb.bytes| == HintAt(dlls, p, First(dlls, i))
    modifies cb
    ensures First(dlls, i) + |dlls[i].funcs| <= |Flat(dlls)| && HintsRowOk(dlls, row, p, i)
    ensures Hints(Flat(dlls)[..First(dlls, i)]) <= Hints(Flat(dlls)[..First(dlls, i) + |dlls[i].funcs|])
    ensures cb.bytes ==
      old(cb.bytes) + Hints(Flat(dlls)[..First(dlls, i) + |dlls[i].funcs|])[|Hints(Flat(dlls)[..First(dlls, i)])|..]
  {
    hide Flat, Hints, HintBytes, First;
    ghost var es, f := Flat(dlls), First(dlls, i);
    FlatAt(dlls, i);
    row := [];
    for j := 0 to |dlls[i].funcs|
      invariant |row| == j && forall m | 0 <= m < j :: row[m] == HintAt(dlls, p, f + m)
      invariant Hints(es[..f]) <= Hints(es[..f + j])
      invariant cb.bytes == old(cb.bytes) + Hints(es[..f + j])[|Hints(es[..f])|..]
    {
      row := row + [|cb.bytes|];
      HintsNext(es, f + j);
      EmitHint(cb, dlls[i].funcs[j]);
      SliceMore(Hints(es[..f + j]), HintBytes(dlls[i].funcs[j]), |Hints(es[..f])|);
    }
  }

  lemma SliceMore(a: seq<byte>, b: seq<byte>, n: nat)
    requires n <= |a|
    ensures (a + b)[n..] == a[n..] + b && a <= a + b
  {}

  method EmitHint(cb: PeCodeBuffer, name: Name)
    requires |cb.bytes| % 2 == 0
    modifies cb
    ensures cb.bytes == old(cb.bytes) + HintBytes(name)
  {
    cb.Emit8(0);
    cb.Emit8(0);
    EmitName(cb, name);
    if |cb.bytes| % 2 != 0 { cb.Emit8(0); }
  }

  /** The libraries' names. */
  method EmitDllNames(dlls: seq<Dll>, cb: PeCodeBuffer, ghost p: Plan) returns (offsets: seq<nat>)
    requires |cb.bytes| == p.names
    modifies cb
    ensures cb.bytes == old(cb.bytes) + NameBytes(dlls)
    ensures |offsets| == |dlls| && forall i | 0 <= i < |dlls| :: offsets[i] == NameAt(dlls, p, i)
  {
    offsets := [];
    for i := 0 to |dlls|
      invariant cb.bytes == old(cb.bytes) + NameBytes(dlls[..i])
      invariant |offsets| == i && forall k | 0 <= k < i :: offsets[k] == NameAt(dlls, p, k)
    {
      offsets := offsets + [|cb.bytes|];
      EmitName(cb, dlls[i].name);
      assert dlls[..i + 1][..i] == dlls[..i];
    }
    assert dlls[..|dlls|] == dlls;
  }

  method EmitDirectory(dlls: seq<Dll>, cb: PeCodeBuffer, ints: seq<seq<nat>>, iat: seq<seq<nat>>, names: seq<nat>,
        rva: nat, ghost p: Plan)
    requires |ints| == |iat| == |names| == |dlls|
    requires forall i | 0 <= i < |dlls| :: |iat[i]| == |ints[i]| == |dlls[i].funcs| + 1
    requires forall i | 0 <= i < |dlls| :: ints[i][0] == p.ints + 8 * First(dlls, i)
    requires forall i | 0 <= i < |dlls| :: iat[i][0] == p.iat + 8 * First(dlls, i) && names[i] == NameAt(dlls, p, i)
    requires forall i | 0 <= i < |dlls| ::
      rva + ints[i][0] < 0x1_0000_0000 && rva + iat[i][0] < 0x1_0000_0000 && rva + names[i] < 0x1_0000_0000
    modifies cb
    ensures cb.bytes == old(cb.bytes) + Directory(dlls, p, rva, |dlls|) + Zeros(20)
  {
    hide First, NameAt, LE;
    for i := 0 to |dlls|
      invariant cb.bytes == old(cb.bytes) + Directory(dlls, p, rva, i)
    {
      ghost var before := cb.bytes;
      cb.Emit32(rva + ints[i][0]);
      cb.Emit32(0);
      cb.Emit32(0);
      cb.Emit32(rva + names[i]);
      cb.Emit32(rva + iat[i][0]);
      assert cb.bytes == before + DirEntry(dlls, p, rva, i);
    }
    ghost var before := cb.bytes;
    for i := 0 to 5
      invariant cb.bytes == before + Zeros(4 * i)
    {
      cb.Emit32(0);
      ZerosAreZero(4);
      ZerosMore(4 * i, 4);
    }
  }

  /** The first `k` slots are filled in, the others still empty. */
  function Partly(dlls: seq<Dll>, p: Plan, rva: nat, k: nat): (s: seq<byte>)
    requires k <= |Flat(dlls)|
    ensures |s| == 8 * |Flat(dlls)|
  {
    Thunks(dlls, p, rva, k) + Zeros(8 * (|Flat(dlls)| - k))
  }

  lemma PartlyNext(dlls: seq<Dll>, p: Plan, rva: nat, k: nat)
    requires k < |Flat(dlls)|
    ensures var a := Partly(dlls, p, rva, k);
      Partly(dlls, p, rva, k + 1) == a[..8 * k] + LE(Thunk(dlls, p, rva, k), 8) + a[8 * k + 8..]
    ensures Flat(dlls)[k].None? ==> Partly(dlls, p, rva, k + 1) == Partly(dlls, p, rva, k)
  {
    hide Flat, LE;
    var n := |Flat(dlls)|;
    ZerosMore(8, 8 * (n - k - 1));
    ZerosAreZero(8);
    var a, t := Partly(dlls, p, rva, k), Thunks(dlls, p, rva, k);
    assert a == t + Zeros(8) + Zeros(8 * (n - k - 1));
    assert a[..8 * k] == t && a[8 * k + 8..] == Zeros(8 * (n - k - 1));
  }

  /** Overwrites the eight bytes at `o`. */
  method Patch(cb: PeCodeBuffer, o: nat, v: nat)
    requires o + 8 <= |cb.bytes|
    modifies cb
    ensures cb.bytes == old(cb.bytes)[..o] + LE(v, 8) + old(cb.bytes)[o + 8..]
  {
    cb.bytes := cb.bytes[..o] + LE(v, 8) + cb.bytes[o + 8..];
  }

  lemma PatchMiddle(a: seq<byte>, b: seq<byte>, c: seq<byte>, o: nat, x: seq<byte>, b': seq<byte>)
    requires o + |x| <= |b| && b' == b[..o] + x + b[o + |x|..]
    ensures (a + b + c)[..|a| + o] + x + (a + b + c)[|a| + o + |x|..] == a + b' + c
  {
    assert (a + b + c)[..|a| + o] == a + b[..o];
    assert (a + b + c)[|a| + o + |x|..] == b[o + |x|..] + c;
  }

  ghost predicate Slots(bytes: seq<byte>, head: seq<byte>, dlls: seq<Dll>, p: Plan, rva: nat, k: nat, tail: seq<byte>) {
    && k <= |Flat(dlls)| && p.iat == |head| && p.ints == |head| + 8 * |Flat(dlls)|
    && bytes == head + Partly(dlls, p, rva, k) + Partly(dlls, p, rva, k) + tail
  }

  /** Fills in one function's slot in both tables. */
  method PatchSlot(cb: PeCodeBuffer, iat: nat, lookup: nat, v: nat, ghost head: seq<byte>, ghost dlls: seq<Dll>,
        ghost p: Plan, ghost rva: nat, ghost k: nat, ghost tail: seq<byte>)
    requires Slots(cb.bytes, head, dlls, p, rva, k, tail) && k < |Flat(dlls)| && v == Thunk(dlls, p, rva, k)
    requires iat == p.iat + 8 * k && lookup == p.ints + 8 * k
    modifies cb
    ensures Slots(cb.bytes, head, dlls, p, rva, k + 1, tail)
  {
    hide Flat, Thunk, LE, Partly;
    ghost var a, b := Partly(dlls, p, rva, k), Partly(dlls, p, rva, k + 1);
    PartlyNext(dlls, p, rva, k);
    assert cb.bytes == head + a + (a + tail);
    PatchMiddle(head, a, a + tail, 8 * k, LE(v, 8), b);
    Patch(cb, iat, v);
    assert cb.bytes == (head + b) + a + tail;
    PatchMiddle(head + b, a, tail, 8 * k, LE(v, 8), b);
    Patch(cb, lookup, v);
  }

  /** Fills in the slots of all functions. */
  method PatchSlots(dlls: seq<Dll>, cb: PeCodeBuffer, iat: seq<seq<nat>>, ints: seq<seq<nat>>, hints: seq<seq<nat>>,
        rva: nat, ghost head: seq<byte>, ghost p: Plan, ghost tail: seq<byte>)
    requires Slots(cb.bytes, head, dlls, p, rva, 0, tail) && |iat| == |ints| == |hints| == |dlls|
    requires forall i | 0 <= i < |dlls| :: HintsRowOk(dlls, hints[i], p, i)
    requires forall i | 0 <= i < |dlls| :: |iat[i]| == |dlls[i].funcs| + 1 && forall j | 0 <= j <= |dlls[i].funcs| ::
      iat[i][j] == p.iat + 8 * (First(dlls, i) + j)
    requires forall i | 0 <= i < |dlls| :: |ints[i]| == |dlls[i].funcs| + 1 && forall j | 0 <= j <= |dlls[i].funcs| ::
      ints[i][j] == p.ints + 8 * (First(dlls, i) + j)
    modifies cb
    ensures Slots(cb.bytes, head, dlls, p, rva, |Flat(dlls)|, tail)
  {
    hide Flat, Partly, First, HintAt;
    NoEntries(dlls);
    for i := 0 to |dlls|
      invariant Slots(cb.bytes, head, dlls, p, rva, First(dlls, i), tail)
    {
      FlatAt(dlls, i);
      assert HintsRowOk(dlls, hints[i], p, i);
      for j := 0 to |dlls[i].funcs|
        invariant Slots(cb.bytes, head, dlls, p, rva, First(dlls, i) + j, tail)
      {
        assert Flat(dlls)[First(dlls, i) + j] == Some(dlls[i].funcs[j]);
        assert hints[i][j] == HintAt(dlls, p, First(dlls, i) + j);
        PatchSlot(cb, iat[i][j], ints[i][0] + j * 8, rva + hints[i][j], head, dlls, p, rva, First(dlls, i) + j, tail);
      }
      PartlyNext(dlls, p, rva, First(dlls, i) + |dlls[i].funcs|);
    }
    AllEntries(dlls);
  }

  lemma ImageIsPatched(used: seq<byte>, dlls: seq<Dll>, rva: nat, bytes: seq<byte>)
    requires var p := PlanOf(|used|, dlls);
      Slots(bytes, used + Zeros(p.iat - |used|), dlls, p, rva, |Flat(dlls)|, Tail(dlls, p, rva))
    ensures bytes == Image(used, dlls, rva)
  {
    hide Flat, Tail, Thunks, AlignUp;
    var p, n := PlanOf(|used|, dlls), |Flat(dlls)|;
    assert Partly(dlls, p, rva, n) == Thunks(dlls, p, rva, n);
  }

  lemma ImageLength(used: seq<byte>, dlls: seq<Dll>, rva: nat)
    ensures |Image(used, dlls, rva)| == PlanOf(|used|, dlls).end
  {
    hide Flat, Hints, NameBytes, Thunks, Directory;
  }

  /** Every offset the table mentions is smaller than its end. */
  lemma OffsetsBelowEnd(used: nat, dlls: seq<Dll>, i: nat)
    requires i < |dlls|
    ensures var p := PlanOf(used, dlls);
      p.ints + 8 * First(dlls, i) < p.end && p.iat + 8 * First(dlls, i) < p.end && NameAt(dlls, p, i) < p.end
  {
    hide Flat, Hints, AlignUp;
    FlatAt(dlls, i);
    NamesShrink(dlls, i);
  }

  lemma {:induction false} NamesShrink(dlls: seq<Dll>, i: nat)
    requires i <= |dlls|
    ensures |NameBytes(dlls[..i])| <= |NameBytes(dlls)|
    decreases |dlls|
  {
    if i < |dlls| {
      NamesShrink(dlls[..|dlls| - 1], i);
      assert dlls[..|dlls| - 1][..i] == dlls[..i];
    } else {
      assert dlls[..i] == dlls;
    }
  }

  lemma PlanShape(used: nat, dlls: seq<Dll>)
    ensures var p := PlanOf(used, dlls);
      && p.iat == AlignUp(used, 8) >= used && p.ints == p.iat + 8 * |Flat(dlls)| && p.hints == p.ints + 8 * |Flat(dlls)|
      && p.hints % 2 == 0
      && p.names == p.hints + |Hints(Flat(dlls))|
      && p.dir == AlignUp(p.names + |NameBytes(dlls)|, 8) >= p.names + |NameBytes(dlls)|
      && p.end == p.dir + 20 * (|dlls| + 1)
  {
    hide Flat, Hints, NameBytes, AlignUp;
    var n, iat := |Flat(dlls)|, AlignUp(used, 8);
    Rounded(used);
    Rounded(iat + 16 * n + |Hints(Flat(dlls))| + |NameBytes(dlls)|);
    EvenSum(iat, n);
  }

  lemma Rounded(n: nat)
    ensures n <= AlignUp(n, 8) && AlignUp(n, 8) % 8 == 0
  {}

  lemma EvenSum(a: nat, n: nat)
    requires a % 8 == 0
    ensures (a + 16 * n) % 2 == 0
  {
    var q := a / 8;
    assert a + 16 * n == 2 * (4 * q + 8 * n);
  }

  lemma ImageSize(used: seq<byte>, dlls: seq<Dll>, rva: nat, bytes: seq<byte>)
    requires var p := PlanOf(|used|, dlls);
      Slots(bytes, used + Zeros(p.iat - |used|), dlls, p, rva, 0, Tail(dlls, p, rva))
    ensures |bytes| == PlanOf(|used|, dlls).end
  {
    hide Flat, Hints, NameBytes, Directory, Partly;
  }

  /** Everything behind the two tables of slots. */
  method EmitRest(dlls: seq<Dll>, cb: PeCodeBuffer, iat: seq<seq<nat>>, ints: seq<seq<nat>>, rva: nat,
        ghost used: seq<byte>)
    returns (hints: seq<seq<nat>>, importDir: nat)
    requires var p, n := PlanOf(|used|, dlls), |Flat(dlls)|;
      cb.bytes == used + Zeros(p.iat - |used|) + Zeros(8 * n) + Zeros(8 * n) && rva + p.end < 0x1_0000_0000
    requires |ints| == |iat| == |dlls| && (forall i | 0 <= i < |dlls| :: |iat[i]| == |ints[i]| == |dlls[i].funcs| + 1)
    requires var p := PlanOf(|used|, dlls);
      forall i | 0 <= i < |dlls| :: ints[i][0] == p.ints + 8 * First(dlls, i) && iat[i][0] == p.iat + 8 * First(dlls, i)
    modifies cb
    ensures var p := PlanOf(|used|, dlls);
      && Slots(cb.bytes, used + Zeros(p.iat - |used|), dlls, p, rva, 0, Tail(dlls, p, rva)) && importDir == p.dir
      && |hints| == |dlls| && forall i | 0 <= i < |dlls| :: HintsRowOk(dlls, hints[i], p, i)
  {
    hide Flat, Hints, NameBytes, Directory, AlignUp, First, HintsRowOk, PlanOf, Tail, Slots, NameAt;
    ghost var p := PlanOf(|used|, dlls);
    PlanShape(|used|, dlls);
    hints := EmitHints(dlls, cb, p);
    var names := EmitDllNames(dlls, cb, p);
    AlignBuffer(cb);
    importDir := |cb.bytes|;
    OffsetsFit(used, dlls, rva);
    EmitDirectory(dlls, cb, ints, iat, names, rva, p);
    BuiltSoFar(used, dlls, rva, cb.bytes);
  }

  class ImportTable {
    var dlls: seq<Dll>
    /** Where the slots of each library's functions are, once the table has been built. */
    var iat: seq<seq<nat>>

    ghost predicate Valid()
      reads this
    {
      Deduplicated(dlls) && NamesOk(dlls)
    }

    constructor ()
      ensures Valid() && dlls == []
    {
      dlls, iat := [], [];
    }

    method AddImport(dll: Name, func: Name)
      requires Valid() && NulFree(dll) && NulFree(func)
      modifies this
      ensures Valid() && Added(old(dlls), dll, func, dlls)
    {
      ghost var before := dlls;
      var i := 0;
      while i < |dlls| && !SameDll(dlls[i].name, dll)
        invariant 0 <= i <= |dlls| && forall k | 0 <= k < i :: !SameDll(dlls[k].name, dll)
      {
        i := i + 1;
      }
      if i == |dlls| {
        dlls := dlls + [Dll(dll, [func])];
      } else {
        assert IsDll(dlls, dll, i);
        if func !in dlls[i].funcs {
          dlls := dlls[i := Dll(dlls[i].name, dlls[i].funcs + [func])];
        }
        assert dlls == before[i := Extended(before[i], func)];
      }
      assert Added(before, dll, func, dlls);
      AddedKeeps(before, dll, func, dlls, dll, func);
    }

    /** Appends the table to the section; afterwards the slots of all functions are known. */
    method Build(rdata: PeCodeBuffer, rva: nat) returns (dirOffset: nat, dirSize: nat, iatRva: nat, iatSize: nat)
      requires Valid() && rva + PlanOf(|rdata.bytes|, dlls).end < 0x1_0000_0000
      modifies this`iat, rdata
      ensures dlls == [] ==> rdata.bytes == old(rdata.bytes) && dirOffset == dirSize == iatRva == iatSize == 0
      ensures dlls != [] ==> var p := PlanOf(|old(rdata.bytes)|, dlls);
        && rdata.bytes == Image(old(rdata.bytes), dlls, rva) && IatsOk(dlls, iat, p)
        && dirOffset == p.dir && dirSize == p.end - p.dir && iatRva == rva + p.iat && iatSize == p.ints - p.iat
    {
      hide Flat, Hints, NameBytes, Directory, Thunks, AlignUp, First, Deduplicated, NamesOk, HintsRowOk, Image,
        PlanOf, Tail, Slots;
      if dlls == [] { return 0, 0, 0, 0; }
      ghost var used, p := rdata.bytes, PlanOf(|rdata.bytes|, dlls);
      PlanShape(|used|, dlls);
      AlignBuffer(rdata);
      var iatStart := |rdata.bytes|;
      var iatRows := EmitSlots(dlls, rdata);
      var iatEnd := |rdata.bytes|;
      var ints := EmitSlots(dlls, rdata);
      var hints, importDir := EmitRest(dlls, rdata, iatRows, ints, rva, used);
      ImageSize(used, dlls, rva, rdata.bytes);
      dirOffset, dirSize := importDir, |rdata.bytes| - importDir;
      PatchSlots(dlls, rdata, iatRows, ints, hints, rva, used + Zeros(p.iat - |used|), p, Tail(dlls, p, rva));
      ImageIsPatched(used, dlls, rva, rdata.bytes);
      var ds := dlls;
      iat := seq(|ds|, i requires 0 <= i < |ds| => iatRows[i][..|ds[i].funcs|]);
      iatRva, iatSize := rva + iatStart, iatEnd - iatStart;
    }

    /** The slot of a function's address; 0 if it is not imported. */
    method GetIatOffset(dll: Name, func: Name) returns (o: nat)
      requires |iat| == |dlls| && forall i | 0 <= i < |dlls| :: |iat[i]| == |dlls[i].funcs|
      ensures if Imports(dlls, dll, func)
              then exists i, j | 0 <= i < |dlls| && 0 <= j < |dlls[i].funcs| ::
                SameDll(dlls[i].name, dll) && dlls[i].funcs[j] == func && o == iat[i][j]
              else o == 0
    {
      for i := 0 to |dlls|
        invariant forall k | 0 <= k < i :: SameDll(dlls[k].name, dll) ==> func !in dlls[k].funcs
      {
        if SameDll(dlls[i].name, dll) {
          for j := 0 to |dlls[i].funcs|
            invariant forall m | 0 <= m < j :: dlls[i].funcs[m] != func
          {
            if dlls[i].funcs[j] == func { return iat[i][j]; }
          }
        }
      }
      o := 0;
    }
  }

  lemma OffsetsFit(used: seq<byte>, dlls: seq<Dll>, rva: nat)
    requires rva + PlanOf(|used|, dlls).end < 0x1_0000_0000
    ensures var p := PlanOf(|used|, dlls); forall i | 0 <= i < |dlls| ::
      rva + p.ints + 8 * First(dlls, i) < 0x1_0000_0000 && rva + p.iat + 8 * First(dlls, i) < 0x1_0000_0000 &&
        rva + NameAt(dlls, p, i) < 0x1_0000_0000
  {
    hide First, NameAt, PlanOf;
    forall i | 0 <= i < |dlls|
      ensures var p := PlanOf(|used|, dlls);
        rva + p.ints + 8 * First(dlls, i) < 0x1_0000_0000 && rva + p.iat + 8 * First(dlls, i) < 0x1_0000_0000 &&
          rva + NameAt(dlls, p, i) < 0x1_0000_0000
    {
      OffsetsBelowEnd(|used|, dlls, i);
    }
  }

  /** Before the slots are filled in. */
  lemma BuiltSoFar(used: seq<byte>, dlls: seq<Dll>, rva: nat, bytes: seq<byte>)
    requires var p, n := PlanOf(|used|, dlls), |Flat(dlls)|;
      bytes == used + Zeros(p.iat - |used|) + Zeros(8 * n) + Zeros(8 * n) + Hints(Flat(dlls)) + NameBytes(dlls)
        + Zeros(p.dir - p.names - |NameBytes(dlls)|) + Directory(dlls, p, rva, |dlls|) + Zeros(20)
    ensures var p := PlanOf(|used|, dlls);
      Slots(bytes, used + Zeros(p.iat - |used|), dlls, p, rva, 0, Tail(dlls, p, rva))
  {
    hide Flat, Hints, NameBytes, Directory, AlignUp;
    var p, n := PlanOf(|used|, dlls), |Flat(dlls)|;
    assert Partly(dlls, p, rva, 0) == Zeros(8 * n);
  }

  // ---------------------------------------------------------------------------------------------
  // Round trip

  /** Walking the built section as the loader does finds the lists the table was built from, and every
      address slot starts out equal to its lookup slot. */
  lemma LoaderRecoversImports(used: seq<byte>, dlls: seq<Dll>, rva: nat)
    requires NamesOk(dlls) && rva > 0 && rva + PlanOf(|used|, dlls).end < 0x1_0000_0000
    ensures var img, p := Image(used, dlls, rva), PlanOf(|used|, dlls);
      && WalkDirectory(img, rva, p.dir) == Some(Findings(dlls, p, 0))
      && forall k: nat | k < |Flat(dlls)| ::
        p.ints + 8 * k + 8 <= |img| && img[p.iat + 8 * k..p.iat + 8 * k + 8] == img[p.ints + 8 * k..p.ints + 8 * k + 8]
  {
    hide Image, PlanOf, Flat, Findings, WalkDirectory, HintFact, NameFact, DirFact, LE, Thunk, NamesOk;
    var img, p := Image(used, dlls, rva), PlanOf(|used|, dlls);
    ImageFacts(used, dlls, rva);
    ImageLength(used, dlls, rva);
    DirectoryIsWalked(img, dlls, p, rva, 0);
    SlotsApart(|used|, dlls);
    forall k: nat | k < |Flat(dlls)|
      ensures p.ints + 8 * k + 8 <= |img|
      ensures img[p.iat + 8 * k..p.iat + 8 * k + 8] == img[p.ints + 8 * k..p.ints + 8 * k + 8]
    {
      assert SlotFact(img, dlls, p, rva, k);
    }
  }

  lemma SlotsApart(used: nat, dlls: seq<Dll>)
    ensures PlanOf(used, dlls).iat <= PlanOf(used, dlls).ints
  {}

  /** The loader's findings, one by one: name and functions as listed, and the slots it fills. */
  lemma {:induction false} FindingsAt(dlls: seq<Dll>, p: Plan, i: nat, k: nat)
    requires i <= k < |dlls|
    ensures |Findings(dlls, p, i)| == |dlls| - i
    ensures Findings(dlls, p, i)[k - i] == Found(dlls[k].name, dlls[k].funcs, p.iat + 8 * First(dlls, k))
    decreases |dlls| - i
  {
    hide First;
    if i < k {
      FindingsAt(dlls, p, i + 1, k);
    } else {
      FindingsLength(dlls, p, i);
    }
  }

  lemma {:induction false} FindingsLength(dlls: seq<Dll>, p: Plan, i: nat)
    requires i <= |dlls|
    ensures |Findings(dlls, p, i)| == |dlls| - i
    decreases |dlls| - i
  {
    if i < |dlls| { FindingsLength(dlls, p, i + 1); }
  }

  /** The loader fills slot `o` with the address of function `j` of library `i`. */
  ghost predicate Fills(img: seq<byte>, rva: nat, dir: nat, i: nat, j: nat, dll: Name, func: Name, o: nat) {
    match WalkDirectory(img, rva, dir)
    case None => false
    case Some(found) =>
      && i < |found| && j < |found[i].funcs| && found[i].dll == dll && found[i].funcs[j] == func
      && o == found[i].iat + 8 * j
  }

  /** The tables of slots and the directory start at multiples of 8, so every slot does, and the name of every function
      stands at an even offset, as the format asks. */
  lemma PartsAligned(used: nat, dlls: seq<Dll>, k: nat)
    requires k <= |Flat(dlls)|
    ensures var p := PlanOf(used, dlls);
      && p.iat % 8 == 0 && p.ints % 8 == 0 && p.dir % 8 == 0 && (p.iat + 8 * k) % 8 == 0
      && HintAt(dlls, p, k) % 2 == 0 && used <= p.iat < used + 8
  {
    hide Flat, Hints, NameBytes;
    var p := PlanOf(used, dlls);
    var n := |Flat(dlls)|;
    assert p.ints == p.iat + 8 * n && p.hints == p.iat + 16 * n;
    Evens(p.iat, n, k, |Hints(Flat(dlls)[..k])|);
  }

  lemma Evens(iat: nat, n: nat, k: nat, h: nat)
    requires iat % 8 == 0 && h % 2 == 0
    ensures (iat + 8 * n) % 8 == 0 && (iat + 8 * k) % 8 == 0 && (iat + 16 * n + h) % 2 == 0
  {
    var q, e := iat / 8, h / 2;
    assert iat == 8 * q && h == 2 * e;
    MultipleIs(8, q + n);
    MultipleIs(8, q + k);
    MultipleIs(2, 4 * q + 8 * n + e);
  }

  lemma MultipleIs(d: nat, q: nat)
    requires d > 0
    ensures (d * q) % d == 0
  {
    DivisionIs(d * q, d, q, 0);
  }

  /** The offset handed out for a function is that of the slot the loader fills for it. */
  lemma SlotIsFilled(used: seq<byte>, dlls: seq<Dll>, iat: seq<seq<nat>>, rva: nat, i: nat, j: nat)
    requires NamesOk(dlls) && rva > 0 && rva + PlanOf(|used|, dlls).end < 0x1_0000_0000
    requires IatsOk(dlls, iat, PlanOf(|used|, dlls)) && i < |dlls| && j < |dlls[i].funcs|
    ensures j < |iat[i]|
    ensures Fills(Image(used, dlls, rva), rva, PlanOf(|used|, dlls).dir, i, j, dlls[i].name, dlls[i].funcs[j],
      iat[i][j])
  {
    hide Image, PlanOf, Findings, WalkDirectory, NamesOk, First, Flat;
    LoaderRecoversImports(used, dlls, rva);
    FindingsAt(dlls, PlanOf(|used|, dlls), 0, i);
    assert RowOk(dlls, iat[i], PlanOf(|used|, dlls), i);
  }
}
