/** The chunked bump allocator. */
module Arenas {
  import opened Alignment
  import opened Bytes
  import opened Sir

  /** The `n` bytes at `p` have been handed out. */
  datatype Block = Block(p: nat, n: nat)

  /** Memory obtained from the system at address `base`, used up to `offset`. */
  datatype Chunk = Chunk(base: nat, size: nat, offset: nat)

  function Room(n: nat): (r: nat)
    ensures n <= r < n + 8 && r % 8 == 0
  {
    AlignUp(n, 8)
  }

  function End(b: Block): nat { b.p + Room(b.n) }

  // ---------------------------------------------------------------------------------------------
  // What holds between calls

  predicate Apart(p: nat, n: nat, q: nat, k: nat) { p + n <= q || q + k <= p }

  predicate ChunkOk(c: Chunk) { c.base % 8 == 0 && c.offset % 8 == 0 && c.offset <= c.size }

  /** A block lies in one chunk, below what the chunk has left; an empty one takes no room. */
  predicate Lies(b: Block, c: Chunk)
  {
    c.base <= b.p && (if b.n == 0 then b.p <= c.base + c.size else End(b) <= c.base + c.offset)
  }

  ghost predicate ChunksOk(chunks: seq<Chunk>) {
    && chunks != [] && (|chunks| > 1 ==> chunks[|chunks| - 1].offset > 0)
    && (forall i | 0 <= i < |chunks| :: ChunkOk(chunks[i]))
    && (forall i, j | 0 <= i < j < |chunks| :: Apart(chunks[i].base, chunks[i].size, chunks[j].base, chunks[j].size))
  }

  ghost predicate InSome(b: Block, chunks: seq<Chunk>) { exists i :: 0 <= i < |chunks| && Lies(b, chunks[i]) }

  ghost predicate Placed(b: Block, chunks: seq<Chunk>) { b.p % 8 == 0 && InSome(b, chunks) }

  /** Blocks are 8-aligned, lie in one chunk each, and share no byte, not even of their padding. */
  ghost predicate Sound(chunks: seq<Chunk>, live: seq<Block>) {
    && ChunksOk(chunks)
    && (forall k | 0 <= k < |live| :: Placed(live[k], chunks))
    && (forall j, k | 0 <= j < k < |live| :: Separate(live[j], live[k]))
  }

  predicate Separate(a: Block, b: Block) { a.n == 0 || b.n == 0 || Apart(a.p, Room(a.n), b.p, Room(b.n)) }

  /** The block's bytes are the same in both memories. */
  ghost predicate Same(b: Block, m: nat -> byte, m': nat -> byte)
  {
    forall a: nat | b.p <= a < b.p + b.n :: m'(a) == m(a)
  }

  ghost predicate Zeroed(p: nat, n: nat, m: nat -> byte) { forall a: nat | p <= a < p + n :: m(a) == 0 }

  // ---------------------------------------------------------------------------------------------
  // Bumping

  /** The chunk in use. */
  function Last(chunks: seq<Chunk>): Chunk
    requires chunks != []
  {
    chunks[|chunks| - 1]
  }

  function Bumped(chunks: seq<Chunk>, offset: nat): seq<Chunk>
    requires chunks != []
  {
    var i := |chunks| - 1;
    chunks[i := chunks[i].(offset := offset)]
  }

  /** A higher offset in the current chunk keeps every block where it is. */
  lemma BumpKeeps(b: Block, chunks: seq<Chunk>, offset: nat)
    requires chunks != [] && Placed(b, chunks) && Last(chunks).offset <= offset
    ensures Placed(b, Bumped(chunks, offset))
  {
    var i :| 0 <= i < |chunks| && Lies(b, chunks[i]);
    assert Lies(b, Bumped(chunks, offset)[i]);
  }

  /** So does a new chunk. */
  lemma ChunkKeeps(b: Block, chunks: seq<Chunk>, c: Chunk)
    requires Placed(b, chunks)
    ensures Placed(b, chunks + [c])
  {
    var i :| 0 <= i < |chunks| && Lies(b, chunks[i]);
    assert (chunks + [c])[i] == chunks[i];
  }

  /** What lies in some chunk is apart from the unused part of the current one. */
  lemma UnusedIsApart(b: Block, chunks: seq<Chunk>, n: nat)
    requires ChunksOk(chunks) && Placed(b, chunks) && b.n > 0
    requires var c := Last(chunks); c.offset + n <= c.size
    ensures var c := Last(chunks); Apart(b.p, Room(b.n), c.base + c.offset, n)
  {
    var i :| 0 <= i < |chunks| && Lies(b, chunks[i]);
    var l := |chunks| - 1;
    assert ChunkOk(chunks[i]) && ChunkOk(chunks[l]);
    if i < l { assert Apart(chunks[i].base, chunks[i].size, chunks[l].base, chunks[l].size); }
  }

  /** The chunks after a block of `n` bytes has been taken, from `c` if the current chunk is too full. */
  function Used(chunks: seq<Chunk>, n: nat, c: Chunk): (r: seq<Chunk>)
    requires chunks != []
    ensures r != []
  {
    var o := Last(chunks).offset + Room(n);
    if o > Last(chunks).size then Bumped(chunks + [c], c.offset + Room(n)) else Bumped(chunks, o)
  }

  /** The block ends where the chunk is used up to, and the chunk has room for its new size. */
  predicate Movable(chunks: seq<Chunk>, p: nat, n: nat, k: nat) {
    && chunks != []
    && p + Room(n) == Last(chunks).base + Last(chunks).offset
    && Last(chunks).offset + Room(k) <= Last(chunks).size + Room(n)
  }

  lemma BumpedOk(chunks: seq<Chunk>, offset: nat)
    requires ChunksOk(chunks) && offset % 8 == 0 && offset <= Last(chunks).size && (|chunks| > 1 ==> offset > 0)
    ensures ChunksOk(Bumped(chunks, offset))
  {
    var b := Bumped(chunks, offset);
    forall i | 0 <= i < |b|
      ensures ChunkOk(b[i])
    {
      assert ChunkOk(chunks[i]);
    }
    forall i, j | 0 <= i < j < |b|
      ensures Apart(b[i].base, b[i].size, b[j].base, b[j].size)
    {
      assert Apart(chunks[i].base, chunks[i].size, chunks[j].base, chunks[j].size);
    }
  }

  /** A block cut from the current chunk. */
  lemma CutIsSound(chunks: seq<Chunk>, live: seq<Block>, n: nat)
    requires Sound(chunks, live)
    requires var c := Last(chunks); c.offset + Room(n) <= c.size
    ensures var c := Last(chunks);
      Sound(Bumped(chunks, c.offset + Room(n)), live + [Block(c.base + c.offset, n)])
  {
    hide ChunksOk, Placed, Room;
    LastOk(chunks);
    var l, c := |chunks| - 1, Last(chunks);
    var chunks', b := Bumped(chunks, c.offset + Room(n)), Block(c.base + c.offset, n);
    var live' := live + [b];
    SumOfEights(c.offset, Room(n));
    BumpedOk(chunks, c.offset + Room(n));
    forall k | 0 <= k < |live'|
      ensures Placed(live'[k], chunks')
    {
      if k < |live| { BumpKeeps(live[k], chunks, c.offset + Room(n)); } else { CutLies(chunks, n); }
    }
    forall j, k | 0 <= j < k < |live'|
      ensures Separate(live'[j], live'[k])
    {
      if k < |live| {
        assert Separate(live[j], live[k]);
      } else if live[j].n > 0 {
        UnusedIsApart(live[j], chunks, Room(n));
      }
    }
  }

  lemma LastOk(chunks: seq<Chunk>)
    requires ChunksOk(chunks)
    ensures chunks != [] && ChunkOk(Last(chunks)) && (|chunks| > 1 ==> Last(chunks).offset > 0)
  {}

  lemma SumOfEights(a: nat, b: nat)
    requires a % 8 == 0 && b % 8 == 0
    ensures (a + b) % 8 == 0
  {}

  lemma CutLies(chunks: seq<Chunk>, n: nat)
    requires ChunksOk(chunks)
    requires var c := Last(chunks); c.offset + Room(n) <= c.size
    ensures var c := Last(chunks); Placed(Block(c.base + c.offset, n), Bumped(chunks, c.offset + Room(n)))
  {
    LastOk(chunks);
    var c := Last(chunks);
    SumOfEights(c.base, c.offset);
    assert Lies(Block(c.base + c.offset, n), Bumped(chunks, c.offset + Room(n))[|chunks| - 1]);
  }

  /** A new chunk from the system. */
  lemma ChunkIsSound(chunks: seq<Chunk>, live: seq<Block>, c: Chunk, n: nat)
    requires Sound(chunks, live) && c.base % 8 == 0 && c.offset == 0 && 0 < n <= c.size
    requires forall i | 0 <= i < |chunks| :: Apart(chunks[i].base, chunks[i].size, c.base, c.size)
    ensures Sound(Bumped(chunks + [c], Room(n)), live + [Block(c.base, n)])
      || Room(n) > c.size
  {
    hide ChunksOk, Placed, Room;
    if Room(n) <= c.size {
      var all, live' := Bumped(chunks + [c], Room(n)), live + [Block(c.base, n)];
      NewChunksOk(chunks, c, Room(n));
      forall k | 0 <= k < |live'|
        ensures Placed(live'[k], all)
      {
        if k < |live| {
          ChunkKeeps(live[k], chunks, c);
          BumpKeeps(live[k], chunks + [c], Room(n));
        } else {
          NewLies(chunks, c, n);
        }
      }
      forall j, k | 0 <= j < k < |live'|
        ensures Separate(live'[j], live'[k])
      {
        if k < |live| {
          assert Separate(live[j], live[k]);
        } else if live[j].n > 0 {
          ChunkIsApart(live[j], chunks, c, Room(n));
        }
      }
    }
  }

  lemma NewChunksOk(chunks: seq<Chunk>, c: Chunk, n: nat)
    requires ChunksOk(chunks) && c.base % 8 == 0 && n % 8 == 0 && 0 < n <= c.size
    requires forall i | 0 <= i < |chunks| :: Apart(chunks[i].base, chunks[i].size, c.base, c.size)
    ensures ChunksOk(Bumped(chunks + [c], n))
  {
    var all := Bumped(chunks + [c], n);
    forall i | 0 <= i < |all|
      ensures ChunkOk(all[i])
    {
      if i < |chunks| { assert ChunkOk(chunks[i]); }
    }
    forall i, j | 0 <= i < j < |all|
      ensures Apart(all[i].base, all[i].size, all[j].base, all[j].size)
    {
      if j < |chunks| {
        assert Apart(chunks[i].base, chunks[i].size, chunks[j].base, chunks[j].size);
      } else {
        assert all[i].base == chunks[i].base;
      }
    }
  }

  lemma NewLies(chunks: seq<Chunk>, c: Chunk, n: nat)
    requires c.base % 8 == 0 && n > 0
    ensures Placed(Block(c.base, n), Bumped(chunks + [c], Room(n)))
  {
    assert Lies(Block(c.base, n), Bumped(chunks + [c], Room(n))[|chunks|]);
  }

  lemma ChunkIsApart(b: Block, chunks: seq<Chunk>, c: Chunk, n: nat)
    requires Placed(b, chunks) && ChunksOk(chunks) && b.n > 0 && n <= c.size
    requires forall i | 0 <= i < |chunks| :: Apart(chunks[i].base, chunks[i].size, c.base, c.size)
    ensures Apart(b.p, Room(b.n), c.base, n)
  {
    var i :| 0 <= i < |chunks| && Lies(b, chunks[i]);
    assert ChunkOk(chunks[i]);
  }

  // ---------------------------------------------------------------------------------------------
  // Resizing the last block

  /** The block that ends where the current chunk is used up to is the last one: it can move its end. */
  lemma ResizeIsSound(chunks: seq<Chunk>, live: seq<Block>, k: nat, n: nat)
    requires Sound(chunks, live) && k < |live| && n > 0
    requires var c := Last(chunks); End(live[k]) == c.base + c.offset
    ensures var c := Last(chunks);
      && Room(live[k].n) <= c.offset
      && (c.offset - Room(live[k].n) + Room(n) <= c.size ==>
            Sound(Bumped(chunks, c.offset - Room(live[k].n) + Room(n)), live[k := Block(live[k].p, n)]))
  {
    hide ChunksOk, Placed, Room;
    LastOk(chunks);
    var c, b, b' := Last(chunks), live[k], Block(live[k].p, n);
    assert Placed(b, chunks);
    LastBlock(b, chunks);
    var o := c.offset - Room(b.n) + Room(n);
    if o <= c.size {
      var chunks', live' := Bumped(chunks, o), live[k := b'];
      RoomIsPositive(n);
      ResizedChunks(chunks, b, n);
      forall j | 0 <= j < |live'|
        ensures Placed(live'[j], chunks') && (j != k ==> Separate(live'[j], b') && Separate(b', live'[j]))
      {
        if j == k {
          ResizedLies(chunks, b, n);
        } else {
          assert Placed(live[j], chunks);
          assert Separate(live[if j < k then j else k], live[if j < k then k else j]);
          OthersStay(live[j], b, chunks, n);
        }
      }
      forall i, j | 0 <= i < j < |live'|
        ensures Separate(live'[i], live'[j])
      {
        if i != k && j != k { assert Separate(live[i], live[j]); }
      }
    }
  }

  lemma RoomIsPositive(n: nat)
    requires n > 0
    ensures Room(n) >= 8
  {}

  /** Its room is part of the current chunk. */
  lemma LastBlock(b: Block, chunks: seq<Chunk>)
    requires ChunksOk(chunks) && Placed(b, chunks)
    requires var c := Last(chunks); End(b) == c.base + c.offset
    ensures var c := Last(chunks); Room(b.n) <= c.offset && c.base <= b.p
  {
    LastOk(chunks);
    var l, c := |chunks| - 1, Last(chunks);
    if b.n > 0 {
      var i :| 0 <= i < |chunks| && Lies(b, chunks[i]);
      assert ChunkOk(chunks[i]);
      RoomIsPositive(b.n);
      if i < l { assert Apart(chunks[i].base, chunks[i].size, c.base, c.size); }
    }
  }

  lemma ResizedChunks(chunks: seq<Chunk>, b: Block, n: nat)
    requires ChunksOk(chunks) && n > 0
    requires var c := Last(chunks); Room(b.n) <= c.offset && c.offset - Room(b.n) + Room(n) <= c.size
    ensures var c := Last(chunks); ChunksOk(Bumped(chunks, c.offset - Room(b.n) + Room(n)))
  {
    hide ChunksOk, Room;
    LastOk(chunks);
    var c := Last(chunks);
    RoomIsPositive(n);
    assert (c.offset - Room(b.n)) % 8 == 0;
    SumOfEights(c.offset - Room(b.n), Room(n));
    BumpedOk(chunks, c.offset - Room(b.n) + Room(n));
  }

  lemma ResizedLies(chunks: seq<Chunk>, b: Block, n: nat)
    requires ChunksOk(chunks) && Placed(b, chunks) && n > 0
    requires var c := Last(chunks); Room(b.n) <= c.offset && c.base <= b.p && End(b) == c.base + c.offset
    ensures var c := Last(chunks); Placed(Block(b.p, n), Bumped(chunks, c.offset - Room(b.n) + Room(n)))
  {
    hide ChunksOk, Room;
    LastOk(chunks);
    var c := Last(chunks);
    assert Lies(Block(b.p, n), Bumped(chunks, c.offset - Room(b.n) + Room(n))[|chunks| - 1]);
  }

  /** No other block reaches beyond the start of the last one. */
  lemma OthersStay(a: Block, b: Block, chunks: seq<Chunk>, n: nat)
    requires ChunksOk(chunks) && Placed(a, chunks) && n > 0 && (Separate(a, b) || Separate(b, a))
    requires var c := Last(chunks);
      Room(b.n) <= c.offset && c.base <= b.p && End(b) == c.base + c.offset && c.offset - Room(b.n) + Room(n) <= c.size
    ensures var c := Last(chunks);
      Placed(a, Bumped(chunks, c.offset - Room(b.n) + Room(n))) && Separate(a, Block(b.p, n)) &&
        Separate(Block(b.p, n), a)
  {
    hide ChunksOk, Room, Lies, Apart;
    LastOk(chunks);
    var l, c := |chunks| - 1, Last(chunks);
    var chunks' := Bumped(chunks, c.offset - Room(b.n) + Room(n));
    var i :| 0 <= i < |chunks| && Lies(a, chunks[i]);
    if i < l {
      assert Lies(a, chunks'[i]);
      OtherChunkApart(a, b, chunks, i, n);
    } else {
      BelowLast(a, b, c, n);
      assert Lies(a, chunks'[l]);
    }
  }

  lemma OtherChunkApart(a: Block, b: Block, chunks: seq<Chunk>, i: nat, n: nat)
    requires ChunksOk(chunks) && i < |chunks| - 1 && Lies(a, chunks[i])
    requires var c := Last(chunks);
      Room(b.n) <= c.offset && c.base <= b.p && End(b) == c.base + c.offset && c.offset - Room(b.n) + Room(n) <= c.size
    ensures Separate(a, Block(b.p, n)) && Separate(Block(b.p, n), a)
  {
    hide Room;
    assert ChunkOk(chunks[i]);
    assert Apart(chunks[i].base, chunks[i].size, chunks[|chunks| - 1].base, chunks[|chunks| - 1].size);
  }

  lemma BelowLast(a: Block, b: Block, c: Chunk, n: nat)
    requires Lies(a, c) && n > 0 && (Separate(a, b) || Separate(b, a))
    requires Room(b.n) <= c.offset <= c.size && c.base <= b.p && End(b) == c.base + c.offset
    requires c.offset - Room(b.n) + Room(n) <= c.size
    ensures Lies(a, c.(offset := c.offset - Room(b.n) + Room(n))) && Separate(a, Block(b.p, n))
    ensures Separate(Block(b.p, n), a)
  {
    hide Room;
    if a.n > 0 {
      RoomIsPositive(a.n);
      if b.n > 0 { RoomIsPositive(b.n); } else { RoomOfNothing(); }
    }
  }

  /** A block may take another's place in the list. */
  lemma ReplaceIsSound(chunks: seq<Chunk>, live: seq<Block>, b: Block, k: nat)
    requires Sound(chunks, live + [b]) && k < |live|
    ensures Sound(chunks, live[k := b])
  {
    hide ChunksOk, Placed, Separate;
    var all, live' := live + [b], live[k := b];
    forall j | 0 <= j < |live'|
      ensures Placed(live'[j], chunks)
    {
      assert Placed(all[if j == k then |live| else j], chunks);
    }
    forall i, j | 0 <= i < j < |live'|
      ensures Separate(live'[i], live'[j])
    {
      if i == k { assert Separate(all[j], all[|live|]); SeparateBoth(live[j], b); }
      else if j == k { assert Separate(all[i], all[|live|]); }
      else { assert Separate(all[i], all[j]); }
    }
  }

  lemma SeparateBoth(a: Block, b: Block)
    requires Separate(a, b)
    ensures Separate(b, a)
  {}

  /** The last of the blocks shares nothing with the others. */
  lemma NewBlockApart(chunks: seq<Chunk>, live: seq<Block>, b: Block)
    requires Sound(chunks, live + [b])
    ensures forall k | 0 <= k < |live| :: Separate(live[k], b)
  {
    forall k | 0 <= k < |live|
      ensures Separate(live[k], b)
    {
      assert Separate((live + [b])[k], (live + [b])[|live|]);
    }
  }

  lemma NewChunkRoom(size: nat, got: nat)
    requires got >= Room(size)
    ensures size > 0 ==> 0 < size <= got
  {}

  // ---------------------------------------------------------------------------------------------
  // Memory after the library's `memset` and `memcpy`

  function Cleared(m: nat -> byte, p: nat, n: nat): nat -> byte { (a: nat) => if p <= a < p + n then 0 else m(a) }

  function Moved(m: nat -> byte, from: nat, to: nat, n: nat): nat -> byte
  {
    (a: nat) => if to <= a < to + n then m(from + (a - to)) else m(a)
  }

  function Least(a: nat, b: nat): nat { if a < b then a else b }

  /** The `n` bytes at `p` have come to `p'`. */
  ghost predicate Kept(m: nat -> byte, p: nat, m': nat -> byte, p': nat, n: nat)
  {
    forall a: nat | p' <= a < p' + n :: m'(a) == m(p + (a - p'))
  }

  /** A block resized where it is: its room stays as it was, and new room is clear. */
  ghost predicate InPlace(m: nat -> byte, m': nat -> byte, p: nat, n: nat, k: nat) {
    Kept(m, p, m', p, Least(Room(n), Room(k))) && (Room(k) > Room(n) ==> Zeroed(p + Room(n), Room(k) - Room(n), m'))
  }

  /** A block resized elsewhere: what fits has been copied, and the rest is clear. */
  ghost predicate Elsewhere(m: nat -> byte, m': nat -> byte, p: nat, p': nat, n: nat, k: nat) {
    Kept(m, p, m', p', Least(n, k)) && Zeroed(p' + Least(n, k), Room(k) - Least(n, k), m')
  }

  /** Either way the first bytes are kept, as many as both sizes have. */
  lemma ResizeKeeps(m: nat -> byte, m': nat -> byte, p: nat, p': nat, n: nat, k: nat)
    requires if p' == p then InPlace(m, m', p, n, k) else Elsewhere(m, m', p, p', n, k)
    ensures Kept(m, p, m', p', Least(n, k))
  {
    hide Room;
  }

  lemma CopiedElsewhere(m: nat -> byte, cleared: nat -> byte, p: nat, p': nat, n: nat, k: nat)
    requires Zeroed(p', Room(k), cleared) && (forall a: nat | !(p' <= a < p' + Room(k)) :: cleared(a) == m(a))
    requires n == 0 || Apart(p, Room(n), p', Room(k))
    ensures var m' := Moved(cleared, p, p', Least(n, k));
      Elsewhere(m, m', p, p', n, k) && (n == 0 ==> InPlace(m, m', p', n, k))
  {
    hide Room;
    RoomOfNothing();
  }

  lemma RoomOfNothing()
    ensures Room(0) == 0
  {}

  lemma ClearedInPlace(m: nat -> byte, p: nat, n: nat, k: nat)
    ensures InPlace(m, if Room(k) > Room(n) then Cleared(m, p + Room(n), Room(k) - Room(n)) else m, p, n, k)
  {
    hide Room;
  }

  /** The bytes a block gains by being resized are zero, but for the old padding: they are all zero exactly if the
      block has moved or its padding was zero. */
  ghost predicate GainsZeros(m: nat -> byte, m': nat -> byte, p: nat, p': nat, n: nat, k: nat) {
    n < k ==> (Zeroed(p' + n, k - n, m') <==> p' != p || Zeroed(p + n, Least(k, Room(n)) - n, m))
  }

  lemma GainedInPlace(m: nat -> byte, m': nat -> byte, p: nat, n: nat, k: nat)
    requires InPlace(m, m', p, n, k)
    ensures GainsZeros(m, m', p, p, n, k)
  {
    hide Room;
    if n < k {
      var e := Least(k, Room(n));
      RoomHolds(k);
      RoomGrows(n, k);
      if Zeroed(p + n, k - n, m') {
        forall a: nat | p + n <= a < p + n + (e - n)
          ensures m(a) == 0
        {
          assert m'(a) == 0;
        }
      }
      if Zeroed(p + n, e - n, m) {
        forall a: nat | p + n <= a < p + n + (k - n)
          ensures m'(a) == 0
        {
          if a < p + e { assert m(a) == 0; }
        }
      }
    }
  }

  lemma RoomGrows(n: nat, k: nat)
    requires n <= k
    ensures n <= Room(n) <= Room(k)
  {
    hide AlignUp;
    RoomSteps(n, k);
  }

  lemma RoomSteps(n: nat, k: nat)
    requires n <= k
    ensures Room(n) <= Room(k)
  {
    assert Room(n) < n + 8 && Room(n) % 8 == 0 && Room(k) >= k && Room(k) % 8 == 0;
  }

  lemma GainedElsewhere(m: nat -> byte, m': nat -> byte, p: nat, p': nat, n: nat, k: nat)
    requires Elsewhere(m, m', p, p', n, k) && p' != p
    ensures GainsZeros(m, m', p, p', n, k)
  {
    hide Room;
    RoomHolds(k);
  }

  // ---------------------------------------------------------------------------------------------
  // The allocator

  class Arena {
    const defaultChunkSize: nat
    var chunks: seq<Chunk>
    var mem: nat -> byte
    ghost var live: seq<Block>

    ghost predicate Valid()
      reads this
    {
      Sound(chunks, live)
    }

    /** What the system promises of memory at `site`: aligned, and apart from every chunk. */
    ghost predicate Grants(site: nat, size: nat)
      reads this
    {
      site % 8 == 0 && forall i | 0 <= i < |chunks| :: Apart(chunks[i].base, chunks[i].size, site, size)
    }

    function ChunkSize(size: nat): nat { if Room(size) > defaultChunkSize then Room(size) else defaultChunkSize }

    constructor (size: nat, base: nat, contents: nat -> byte)
      requires base % 8 == 0
      ensures Valid() && live == [] && mem == contents
    {
      defaultChunkSize := size;
      chunks, mem, live := [Chunk(base, size, 0)], contents, [];
    }

    /** Fresh zeroed memory; `site` is where the system would put a new chunk. */
    method Alloc(size: nat, site: nat) returns (p: nat)
      requires Valid() && Grants(site, ChunkSize(size))
      modifies this
      ensures Valid() && live == old(live) + [Block(p, size)]
      ensures chunks == Used(old(chunks), size, Chunk(site, ChunkSize(size), 0))
      ensures p + Room(size) == Last(chunks).base + Last(chunks).offset && Last(chunks).offset <= Last(chunks).size
      ensures Zeroed(p, Room(size), mem)
      ensures forall a: nat | !(p <= a < p + Room(size)) :: mem(a) == old(mem)(a)
      ensures forall k | 0 <= k < |old(live)| :: Same(old(live)[k], old(mem), mem)
    {
      hide ChunksOk, Placed;
      LastOk(chunks);
      var aligned := Room(size);
      var chunk := chunks[|chunks| - 1];
      if chunk.offset + aligned > chunk.size {
        var newSize := defaultChunkSize;
        if aligned > newSize { newSize := aligned; }
        chunk := Chunk(site, newSize, 0);
        NewChunkRoom(size, newSize);
        ChunkIsSound(chunks, live, chunk, size);
        chunks := chunks + [chunk];
      } else {
        CutIsSound(chunks, live, size);
      }
      p := chunk.base + chunk.offset;
      chunks := Bumped(chunks, chunk.offset + aligned);
      mem := Cleared(mem, p, aligned);
      NewBlockApart(chunks, live, Block(p, size));
      OthersSame(live, Block(p, size), old(mem), mem);
      live := live + [Block(p, size)];
    }

    /** Resizes block `k`, in place if it is the last one and there is room. */
    method Realloc(oldPtr: Option<nat>, oldSize: nat, newSize: nat, site: nat, ghost k: nat) returns (r: Option<nat>)
      requires Valid() && Grants(site, ChunkSize(newSize))
      requires oldPtr.Some? ==> k < |live| && live[k] == Block(oldPtr.value, oldSize)
      modifies this
      ensures Valid() && (r.None? <==> newSize == 0)
      ensures r.None? ==> live == old(live) && mem == old(mem) && chunks == old(chunks)
      ensures r.Some? && oldPtr.None? ==>
        live == old(live) + [Block(r.value, newSize)] && Zeroed(r.value, Room(newSize), mem)
      ensures r.Some? && oldPtr.Some? ==> live == old(live)[k := Block(r.value, newSize)]
      ensures r.Some? && oldPtr.Some? ==>
        if r == oldPtr then InPlace(old(mem), mem, r.value, oldSize, newSize)
          else Elsewhere(old(mem), mem, oldPtr.value, r.value, oldSize, newSize)
      ensures r.Some? && oldPtr.Some? ==> Kept(old(mem), oldPtr.value, mem, r.value, Least(oldSize, newSize))
      ensures r.Some? && oldPtr.Some? ==> GainsZeros(old(mem), mem, oldPtr.value, r.value, oldSize, newSize)
      ensures r.Some? && oldPtr.Some? && Movable(old(chunks), oldPtr.value, oldSize, newSize) ==>
        r == oldPtr && chunks == Bumped(old(chunks), Last(old(chunks)).offset - Room(oldSize) + Room(newSize))
      ensures OthersKept(old(live), if r.Some? && oldPtr.Some? then k else |old(live)|, old(mem), mem)
    {
      hide ChunksOk, Placed, Room, Sound, Separate, InPlace, Elsewhere, Moved, Zeroed, Lies, Apart, GainsZeros, Kept;
      if newSize == 0 { return None; }
      if oldPtr.None? {
        var p := Alloc(newSize, site);
        return Some(p);
      }
      SoundLast(chunks, live);
      var alignedOld, alignedNew := Room(oldSize), Room(newSize);
      var chunk := chunks[|chunks| - 1];
      if oldPtr.value + alignedOld == chunk.base + chunk.offset {
        ResizeIsSound(chunks, live, k, newSize);
        if chunk.offset - alignedOld + alignedNew <= chunk.size {
          ResizedSame(chunks, live, k, newSize, mem);
          ClearedInPlace(mem, oldPtr.value, oldSize, newSize);
          chunks := Bumped(chunks, chunk.offset - alignedOld + alignedNew);
          if alignedNew > alignedOld { mem := Cleared(mem, oldPtr.value + alignedOld, alignedNew - alignedOld); }
          live := live[k := Block(oldPtr.value, newSize)];
          GainedInPlace(old(mem), mem, oldPtr.value, oldSize, newSize);
          ResizeKeeps(old(mem), mem, oldPtr.value, oldPtr.value, oldSize, newSize);
          return oldPtr;
        }
      }
      var p := Alloc(newSize, site);
      ghost var b, cleared := Block(p, newSize), mem;
      ReplaceIsSound(chunks, old(live), b, k);
      mem := Moved(mem, oldPtr.value, p, Least(oldSize, newSize));
      MovedSame(chunks, old(live), k, b, old(mem), cleared);
      live := old(live)[k := b];
      ResizeKeeps(old(mem), mem, oldPtr.value, p, oldSize, newSize);
      if p == oldPtr.value {
        GainedInPlace(old(mem), mem, p, oldSize, newSize);
      } else {
        GainedElsewhere(old(mem), mem, oldPtr.value, p, oldSize, newSize);
      }
      r := Some(p);
    }
  }

  /** Every block but number `k` holds what it held. */
  ghost predicate OthersKept(live: seq<Block>, k: nat, m: nat -> byte, m': nat -> byte)
  {
    forall j | 0 <= j < |live| && j != k :: Same(live[j], m, m')
  }

  lemma SoundLast(chunks: seq<Chunk>, live: seq<Block>)
    requires Sound(chunks, live)
    ensures chunks != []
  {}

  lemma ResizedSame(chunks: seq<Chunk>, live: seq<Block>, k: nat, n: nat, m: nat -> byte)
    requires Sound(chunks, live) && k < |live| && n > 0
    requires var c := Last(chunks);
      End(live[k]) == c.base + c.offset && Room(live[k].n) <= c.offset && c.offset - Room(live[k].n) + Room(n) <= c.size
    ensures var o := Room(live[k].n);
      OthersKept(live, k, m, if Room(n) > o then Cleared(m, live[k].p + o, Room(n) - o) else m)
  {
    hide ChunksOk, Placed, Room;
    ResizedApart(chunks, live, k, n);
    var o := Room(live[k].n);
    var m': nat -> byte := if Room(n) > o then Cleared(m, live[k].p + o, Room(n) - o) else m;
    forall j | 0 <= j < |live| && j != k
      ensures Same(live[j], m, m')
    {
      assert Separate(live[j], Block(live[k].p, n));
      RoomHolds(live[j].n);
    }
  }

  lemma RoomHolds(n: nat)
    ensures n <= Room(n)
  {}

  lemma MovedSame(chunks: seq<Chunk>, live: seq<Block>, k: nat, b: Block, m: nat -> byte, cleared: nat -> byte)
    requires Sound(chunks, live + [b]) && k < |live| && b.n > 0 && Zeroed(b.p, Room(b.n), cleared)
    requires forall a: nat | !(b.p <= a < b.p + Room(b.n)) :: cleared(a) == m(a)
    ensures var m' := Moved(cleared, live[k].p, b.p, Least(live[k].n, b.n));
      && OthersKept(live, k, m, m')
      && (if b.p == live[k].p then InPlace(m, m', b.p, live[k].n, b.n)
        else Elsewhere(m, m', live[k].p, b.p, live[k].n, b.n))
  {
    hide ChunksOk, Placed, Room;
    NewBlockApart(chunks, live, b);
    assert Separate(live[k], b);
    RoomHolds(b.n);
    RoomHolds(live[k].n);
    CopiedElsewhere(m, cleared, live[k].p, b.p, live[k].n, b.n);
    OthersSame(live, b, m, Moved(cleared, live[k].p, b.p, Least(live[k].n, b.n)));
  }

  /** Writing into one block changes no other. */
  lemma OthersSame(live: seq<Block>, b: Block, m: nat -> byte, m': nat -> byte)
    requires forall k | 0 <= k < |live| :: Separate(live[k], b)
    requires forall a: nat | !(b.p <= a < b.p + Room(b.n)) :: m'(a) == m(a)
    ensures forall k | 0 <= k < |live| :: Same(live[k], m, m')
  {
    forall k | 0 <= k < |live|
      ensures Same(live[k], m, m')
    {
      assert Separate(live[k], b);
    }
  }

  /** The bytes a resized block gains belong to no other. */
  lemma ResizedApart(chunks: seq<Chunk>, live: seq<Block>, k: nat, n: nat)
    requires Sound(chunks, live) && k < |live| && n > 0
    requires var c := Last(chunks);
      End(live[k]) == c.base + c.offset && Room(live[k].n) <= c.offset && c.offset - Room(live[k].n) + Room(n) <= c.size
    ensures forall j | 0 <= j < |live| && j != k :: Separate(live[j], Block(live[k].p, n))
  {
    ResizeIsSound(chunks, live, k, n);
    var live' := live[k := Block(live[k].p, n)];
    forall j | 0 <= j < |live| && j != k
      ensures Separate(live[j], Block(live[k].p, n))
    {
      assert Separate(live'[if j < k then j else k], live'[if j < k then k else j]);
    }
  }

  // ---------------------------------------------------------------------------------------------
  // Bytes that come back

  function Written(m: nat -> byte, q: nat, v: byte): nat -> byte { (a: nat) => if a == q then v else m(a) }

  /** A block cut down and grown again inside its room, say from 16 bytes to 9 and back, still shows what its owner
      wrote behind the cut: the memory gained is not zero. */
  method ShrinkAndGrow(a: Arena, k: nat, n: nat, i: nat, v: byte, site: nat, site': nat) returns (p: nat)
    requires a.Valid() && 0 < n <= i < k && Room(n) == Room(k) && v != 0
    requires a.Grants(site, a.ChunkSize(k)) && a.Grants(site', a.ChunkSize(k))
    requires Apart(site, a.ChunkSize(k), site', a.ChunkSize(k))
    modifies a
    ensures a.Valid() && a.live == old(a.live) + [Block(p, k)]
    ensures a.mem(p + i) == v && !Zeroed(p + n, k - n, a.mem)
  {
    p := a.Alloc(k, site);
    a.mem := Written(a.mem, p + i, v);
    var q := a.Realloc(Some(p), k, n, site', |a.live| - 1);
    q := a.Realloc(q, n, k, site', |a.live| - 1);
  }
}
