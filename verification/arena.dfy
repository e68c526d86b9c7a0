/** The bump arena, with runs that grow in place and can be rolled back. */
module Arena {

  type Byte = bv8

  /** An address: the static address handed out for size 0, or a place in a chunk. */
  datatype Address = Nowhere | StaticZero | At(chunk: array<Byte>, offset: nat)

  /** A block in use. */
  datatype Region = Region(chunk: array<Byte>, from: nat, len: nat)

  predicate Inside(r: Region) {
    r.from + r.len <= r.chunk.Length
  }

  function Bytes(r: Region): seq<Byte>
    requires Inside(r)
    reads r.chunk
  {
    r.chunk[r.from..r.from + r.len]
  }

  predicate Apart(r: Region, q: Region) {
    r.chunk != q.chunk || r.from + r.len <= q.from || q.from + q.len <= r.from
  }

  function SumLengths(chunks: seq<array<Byte>>): nat {
    if chunks == [] then 0 else SumLengths(chunks[..|chunks| - 1]) + chunks[|chunks| - 1].Length
  }

  lemma SumOne(chunks: seq<array<Byte>>)
    requires |chunks| > 0
    ensures SumLengths(chunks[..1]) == chunks[0].Length
  {
    assert chunks[..1][..0] == [];
  }

  const TWO64 := 0x1_0000_0000_0000_0000

  function Pow2(k: nat): nat {
    if k == 0 then 1 else 2 * Pow2(k - 1)
  }

  /** The index of the highest bit: 63 minus the number of leading zeros of a 64-bit word. */
  function HighBit(n: nat): (k: nat)
    requires n > 0
    ensures Pow2(k) <= n < 2 * Pow2(k)
  {
    if n == 1 then 0 else HighBit(n / 2) + 1
  }

  /** Where the usable part of a chunk ends: at the bump pointer in the last chunk. */
  function End(chunks: seq<array<Byte>>, availBuf: nat, c: array<Byte>): nat {
    if |chunks| > 0 && c == chunks[|chunks| - 1] then availBuf else c.Length
  }

  predicate InChunk(chunks: seq<array<Byte>>, availBuf: nat, r: Region) {
    r.chunk in chunks && 0 < r.len && r.from + r.len <= End(chunks, availBuf, r.chunk) <= r.chunk.Length
  }

  /** Live blocks lie inside one chunk each, before the bump pointer, and apart from each other. */
  ghost predicate PlacedIn(live: set<Region>, chunks: seq<array<Byte>>, availBuf: nat) {
    && (forall r | r in live :: InChunk(chunks, availBuf, r))
    && (forall r, q | r in live && q in live && r != q :: Apart(r, q))
  }

  ghost predicate Distinct(chunks: seq<array<Byte>>) {
    forall i, j | 0 <= i < j < |chunks| :: chunks[i] != chunks[j]
  }

  /** A block cut at the bump pointer touches no other. */
  lemma CutOk(live: set<Region>, chunks: seq<array<Byte>>, availBuf: nat, n: nat) returns (r: Region)
    requires PlacedIn(live, chunks, availBuf) && |chunks| > 0 && 0 < n && availBuf + n <= chunks[|chunks| - 1].Length
    ensures r == Region(chunks[|chunks| - 1], availBuf, n) && r !in live && PlacedIn(live + {r}, chunks, availBuf + n)
  {
    r := Region(chunks[|chunks| - 1], availBuf, n);
    forall q | q in live ensures Apart(r, q) && Apart(q, r) && InChunk(chunks, availBuf + n, q) && q != r {
      assert InChunk(chunks, availBuf, q);
    }
  }

  /** Blocks stay where they are when a new chunk is started. */
  lemma RetireOk(live: set<Region>, chunks: seq<array<Byte>>, availBuf: nat, c: array<Byte>)
    requires PlacedIn(live, chunks, availBuf) && c !in chunks
    ensures PlacedIn(live, chunks + [c], 0)
  {
    forall r | r in live ensures InChunk(chunks + [c], 0, r) {
      assert InChunk(chunks, availBuf, r);
    }
  }

  /** The new chunk is counted once. */
  lemma ChunkAdded(chunks: seq<array<Byte>>, c: array<Byte>)
    requires Distinct(chunks) && c !in chunks
    ensures Distinct(chunks + [c]) && SumLengths(chunks + [c]) == SumLengths(chunks) + c.Length
  {
    assert (chunks + [c])[..|chunks|] == chunks;
  }

  /** The last block grows at the bump pointer. */
  lemma GrowOk(live: set<Region>, chunks: seq<array<Byte>>, availBuf: nat, r: Region, n: nat)
    requires PlacedIn(live, chunks, availBuf) && |chunks| > 0 && r in live && r.chunk == chunks[|chunks| - 1] &&
      r.from + r.len == availBuf
    requires availBuf + n <= chunks[|chunks| - 1].Length
    ensures PlacedIn(live - {r} + {r.(len := r.len + n)}, chunks, availBuf + n) &&
      (0 < n ==> r.(len := r.len + n) !in live)
  {
    var g := r.(len := r.len + n);
    assert InChunk(chunks, availBuf, r);
    forall q | q in live && q != r ensures Apart(g, q) && Apart(q, g) && InChunk(chunks, availBuf + n, q) {
      assert InChunk(chunks, availBuf, q) && Apart(r, q);
    }
  }

  lemma LessPlaced(live: set<Region>, less: set<Region>, chunks: seq<array<Byte>>, availBuf: nat)
    requires PlacedIn(live, chunks, availBuf) && less <= live
    ensures PlacedIn(less, chunks, availBuf)
  {
  }

  lemma LiveInside(live: set<Region>, chunks: seq<array<Byte>>, availBuf: nat, r: Region)
    requires PlacedIn(live, chunks, availBuf) && r in live
    ensures Inside(r) && r.chunk in chunks && 0 < r.len
  {
    assert InChunk(chunks, availBuf, r);
  }

  lemma NoChunksNoBlocks(live: set<Region>, chunks: seq<array<Byte>>, availBuf: nat)
    requires PlacedIn(live, chunks, availBuf) && chunks == []
    ensures live == {}
  {
    assert forall r | r in live :: InChunk(chunks, availBuf, r) && r.chunk in chunks;
  }

  /** The last block is given back. */
  lemma DropOk(live: set<Region>, chunks: seq<array<Byte>>, availBuf: nat, r: Region)
    requires PlacedIn(live, chunks, availBuf) && |chunks| > 0 && r in live && r.chunk == chunks[|chunks| - 1] &&
      r.from + r.len == availBuf
    ensures PlacedIn(live - {r}, chunks, r.from)
  {
    forall q | q in live && q != r ensures InChunk(chunks, r.from, q) {
      assert InChunk(chunks, availBuf, q) && InChunk(chunks, availBuf, r) && Apart(r, q);
    }
  }

  /** The size of the next chunk fits the request. */
  lemma CeilFits(size: nat, step: nat)
    requires step > 0
    ensures ((size + step - 1) / step) * step >= size
  {
    var q, r := (size + step - 1) / step, (size + step - 1) % step;
    assert q * step + r == size + step - 1;
  }

  method Copy(src: array<Byte>, from: nat, n: nat, dst: array<Byte>)
    requires src != dst && from + n <= src.Length && n <= dst.Length
    modifies dst
    ensures dst[0..n] == src[from..from + n]
  {
    forall i | 0 <= i < n {
      dst[i] := src[from + i];
    }
  }

  class SimpleArenaAllocator {
    const growthFactor: nat
    const linearGrowthThreshold: nat
    var minChunkSize: nat
    var totalBytes: nat
    var usedBytes: nat
    var availBytes: nat
    /** The bump pointer, as an offset into the last chunk. */
    var availBuf: nat
    var continuousUsedMemoryBytes: nat
    var continuousUsed: bool
    var chunks: seq<array<Byte>>

    /** The blocks in use. */
    ghost var live: set<Region>
    /** The last block is a run that may still grow or be rolled back; `usedBefore` is usedBytes before it. */
    ghost var runOpen: bool
    ghost var usedBefore: nat
    /** Space left behind in retired chunks, and whether only plain allocations have happened since the last Reset. */
    ghost var abandoned: nat
    ghost var plain: bool

    constructor (minChunkSize: nat, growthFactor: nat, linearGrowthThreshold: nat)
      requires 0 < linearGrowthThreshold
      ensures Valid() && live == {} && chunks == [] && plain && this.minChunkSize == minChunkSize
    {
      this.minChunkSize, this.growthFactor, this.linearGrowthThreshold :=
        minChunkSize, growthFactor, linearGrowthThreshold;
      totalBytes, usedBytes, availBytes, availBuf, continuousUsedMemoryBytes := 0, 0, 0, 0, 0;
      continuousUsed := false;
      chunks := [];
      live, runOpen, usedBefore, abandoned, plain := {}, false, 0, 0, true;
    }

    ghost function Arrays(): set<array<Byte>>
      reads this`chunks
    {
      set c | c in chunks
    }

    predicate HasChunk()
      reads this`chunks
    {
      |chunks| > 0
    }

    function Last(): array<Byte>
      requires HasChunk()
      reads this`chunks
    {
      chunks[|chunks| - 1]
    }

    /** The block being grown. */
    ghost function RunRegion(): Region
      requires HasChunk() && continuousUsedMemoryBytes <= availBuf
      reads this`chunks, this`availBuf, this`continuousUsedMemoryBytes
    {
      Region(Last(), availBuf - continuousUsedMemoryBytes, continuousUsedMemoryBytes)
    }

    ghost predicate Chunked()
      reads this`chunks, this`totalBytes, this`availBuf, this`availBytes, this`usedBytes
    {
      && Distinct(chunks) && totalBytes == SumLengths(chunks)
      && (if HasChunk() then availBuf + availBytes == Last().Length else availBytes == 0 && usedBytes == 0)
    }

    ghost predicate Placed()
      reads this`live, this`chunks, this`availBuf
    {
      PlacedIn(live, chunks, availBuf)
    }

    /** The byte counts, with `used` bytes in use. */
    ghost predicate Counted(used: nat)
      reads this`totalBytes, this`abandoned, this`availBytes, this`plain, this`runOpen, this`live, this`usedBefore,
        this`chunks, this`availBuf, this`continuousUsedMemoryBytes
    {
      && totalBytes == used + abandoned + availBytes && (plain ==> abandoned <= used)
      && (runOpen ==>
        HasChunk() && 0 < continuousUsedMemoryBytes <= availBuf && RunRegion() in live &&
        used == usedBefore + continuousUsedMemoryBytes)
    }

    ghost predicate Valid()
      reads this
    {
      0 < linearGrowthThreshold && Chunked() && Placed() && Counted(usedBytes)
    }

    method SetMinChunkSize(chunkSize: nat)
      requires Valid() && chunkSize < TWO64
      modifies this`minChunkSize
      ensures Valid() && minChunkSize == if old(minChunkSize) < chunkSize then RoundedUp(chunkSize)
        else old(minChunkSize)
    {
      if chunkSize > minChunkSize {
        var bits := HighBit(chunkSize);
        var lower := Pow2(bits);
        if lower == chunkSize {
          minChunkSize := chunkSize;
        } else {
          minChunkSize := (2 * lower) % TWO64;
        }
      }
    }

    /** Retire the current chunk, whose left-over bytes cannot be used any more, and start a new one. */
    method AllocateChunk(sizeInBytes: nat)
      requires Valid() && 0 < sizeInBytes
      modifies this`chunks, this`availBuf, this`availBytes, this`totalBytes, this`abandoned, this`runOpen
      ensures Chunked() && Placed() && HasChunk() && fresh(Last()) && Last().Length == sizeInBytes &&
        Last() !in old(chunks)
      ensures chunks == old(chunks) + [Last()] && availBuf == 0 && availBytes == sizeInBytes
      ensures totalBytes == usedBytes + abandoned + availBytes && abandoned == old(abandoned) + old(availBytes) &&
        !runOpen
    {
      hide PlacedIn, SumLengths, Distinct;
      var chunk := new Byte[sizeInBytes](i => 0);
      assert chunk !in chunks;
      ChunkAdded(chunks, chunk);
      RetireOk(live, chunks, availBuf, chunk);
      chunks := chunks + [chunk];
      abandoned := abandoned + availBytes;
      runOpen := false;
      availBuf := 0;
      availBytes := sizeInBytes;
      totalBytes := totalBytes + sizeInBytes;
    }

    /** Cut a block at the bump pointer. */
    method Bump(sizeInBytes: nat) returns (ret: Address)
      requires Chunked() && Placed() && HasChunk() && 0 < sizeInBytes <= availBytes
      modifies this`availBuf, this`availBytes, this`live
      ensures Chunked() && Placed() && ret == At(Last(), old(availBuf))
      ensures availBuf == old(availBuf) + sizeInBytes && availBytes == old(availBytes) - sizeInBytes
      ensures live == old(live) + {Region(Last(), old(availBuf), sizeInBytes)} &&
        Region(Last(), old(availBuf), sizeInBytes) !in old(live)
    {
      hide PlacedIn, SumLengths, Distinct;
      ghost var r := CutOk(live, chunks, availBuf, sizeInBytes);
      ret := At(Last(), availBuf);
      availBuf := availBuf + sizeInBytes;
      availBytes := availBytes - sizeInBytes;
      live := live + {r};
    }

    /** A new block in the current chunk, which has room for it. */
    method Place(sizeInBytes: nat) returns (ret: Address)
      requires 0 < linearGrowthThreshold && Chunked() && Placed() && HasChunk() && 0 < sizeInBytes <= availBytes
      requires totalBytes == usedBytes + abandoned + availBytes && (plain ==> abandoned <= usedBytes + sizeInBytes)
      modifies this`availBuf, this`availBytes, this`usedBytes, this`live
      modifies this`continuousUsed, this`continuousUsedMemoryBytes, this`runOpen, this`usedBefore
      ensures Valid() && usedBytes == old(usedBytes) + sizeInBytes
      ensures runOpen && ret == At(RunRegion().chunk, RunRegion().from) && RunRegion().len == sizeInBytes &&
        !continuousUsed
      ensures live == old(live) + {RunRegion()} && RunRegion() !in old(live) && usedBefore == old(usedBytes)
    {
      hide PlacedIn, SumLengths, Distinct, Placed;
      continuousUsedMemoryBytes := sizeInBytes;
      ret := Bump(sizeInBytes);
      usedBefore := usedBytes;
      usedBytes := usedBytes + sizeInBytes;
      continuousUsed := false;
      runOpen := true;
    }

    /** A block of the requested size; a new chunk is started when the current one is too short. */
    method Allocate(sizeInBytes: nat) returns (ret: Address)
      requires Valid()
      modifies this`chunks, this`availBuf, this`availBytes, this`totalBytes, this`abandoned, this`usedBytes, this`live
      modifies this`continuousUsed, this`continuousUsedMemoryBytes, this`runOpen, this`usedBefore
      ensures Valid() && usedBytes == old(usedBytes) + sizeInBytes
      ensures fresh(Arrays() - old(Arrays()))
      ensures sizeInBytes == 0 ==>
        && ret == StaticZero && live == old(live) && continuousUsed == old(continuousUsed) && runOpen == old(runOpen)
        && availBuf == old(availBuf) && chunks == old(chunks) &&
          continuousUsedMemoryBytes == old(continuousUsedMemoryBytes)
      ensures 0 < sizeInBytes ==>
        && runOpen && ret == At(RunRegion().chunk, RunRegion().from) && RunRegion().len == sizeInBytes &&
          !continuousUsed
        && live == old(live) + {RunRegion()} && RunRegion() !in old(live) && usedBefore == old(usedBytes)
    {
      hide PlacedIn, SumLengths, Distinct, GetNextSize, Placed;
      if sizeInBytes == 0 {
        return StaticZero;
      }
      if availBytes < sizeInBytes {
        AllocateChunk(GetNextSize(sizeInBytes));
      }
      ret := Place(sizeInBytes);
    }

    /** The run goes to a new chunk that fits it and the new piece; its bytes are copied. */
    method MoveRun(newSpace: nat)
      requires Valid() && runOpen && continuousUsedMemoryBytes < newSpace
      modifies this`chunks, this`availBuf, this`availBytes, this`totalBytes, this`abandoned, this`live, this`runOpen,
        this`plain
      ensures Valid() && runOpen && HasChunk() && fresh(Last()) && newSpace <= Last().Length &&
        availBuf == continuousUsedMemoryBytes
      ensures live == old(live) - {old(RunRegion())} + {RunRegion()} && RunRegion() !in old(live)
      ensures Bytes(RunRegion()) == old(Bytes(RunRegion()))
      ensures fresh(Arrays() - old(Arrays()))
    {
      hide PlacedIn, SumLengths, Distinct, GetNextSize;
      ghost var old1 := RunRegion();
      var from, src, n := availBuf - continuousUsedMemoryBytes, Last(), continuousUsedMemoryBytes;
      LiveInside(live, chunks, availBuf, old1);
      AllocateChunk(GetNextSize(newSpace));
      var dst := Last();
      Copy(src, from, n, dst);
      LessPlaced(live, live - {old1}, chunks, availBuf);
      live := live - {old1};
      var at := Bump(n);
      abandoned := abandoned + n;
      plain := false;
      runOpen := true;
    }

    method AllocateContinueNotNull(sizeInBytes: nat, start: Address) returns (ret: Address, newStart: Address)
      requires Valid() && runOpen && start == At(RunRegion().chunk, RunRegion().from)
      modifies this`chunks, this`availBuf, this`availBytes, this`totalBytes, this`abandoned, this`live
      modifies this`continuousUsedMemoryBytes, this`runOpen, this`plain
      ensures Chunked() && Placed() && Counted(usedBytes + sizeInBytes) && runOpen
      ensures fresh(Arrays() - old(Arrays()))
      ensures newStart == At(RunRegion().chunk, RunRegion().from)
      ensures RunRegion().len == old(RunRegion().len) + sizeInBytes &&
        live == old(live) - {old(RunRegion())} + {RunRegion()}
      ensures ret == if sizeInBytes == 0 then start else At(RunRegion().chunk, RunRegion().from + old(RunRegion().len))
      ensures Bytes(RunRegion())[..old(RunRegion().len)] == old(Bytes(RunRegion()))
      ensures RunRegion() != old(RunRegion()) ==> RunRegion() !in old(live)
    {
      hide PlacedIn, SumLengths, Distinct, GetNextSize;
      LiveInside(live, chunks, availBuf, RunRegion());
      newStart := start;
      if sizeInBytes == 0 {
        assert live - {RunRegion()} + {RunRegion()} == live;
        return start, start;
      }
      if availBytes < sizeInBytes {
        MoveRun(continuousUsedMemoryBytes + sizeInBytes);
        newStart := At(Last(), availBuf - continuousUsedMemoryBytes);
      }
      ret := GrowRun(sizeInBytes);
    }

    /** The run grows in place. */
    method GrowRun(sizeInBytes: nat) returns (ret: Address)
      requires Valid() && runOpen && 0 < sizeInBytes <= availBytes
      modifies this`availBuf, this`availBytes, this`live, this`continuousUsedMemoryBytes
      ensures Chunked() && Placed() && Counted(usedBytes + sizeInBytes)
      ensures RunRegion() == old(RunRegion()).(len := old(RunRegion().len) + sizeInBytes) && RunRegion() !in old(live)
      ensures live == old(live) - {old(RunRegion())} + {RunRegion()} && ret == At(Last(), old(availBuf))
    {
      hide PlacedIn, SumLengths, Distinct;
      ghost var r := RunRegion();
      GrowOk(live, chunks, availBuf, r, sizeInBytes);
      ret := At(Last(), availBuf);
      availBuf := availBuf + sizeInBytes;
      continuousUsedMemoryBytes := continuousUsedMemoryBytes + sizeInBytes;
      availBytes := availBytes - sizeInBytes;
      live := live - {r} + {RunRegion()};
    }

    /** One more piece of a run, or the first if `start` is null. The run stays one contiguous block; when it has to
        move, its bytes move with it and `start` follows. */
    method AllocateContinue(sizeInBytes: nat, start: Address) returns (ret: Address, newStart: Address)
      requires Valid() && (start == Nowhere ==> 0 < sizeInBytes)
      requires start != Nowhere ==> runOpen && start == At(RunRegion().chunk, RunRegion().from)
      modifies this`chunks, this`availBuf, this`availBytes, this`totalBytes, this`abandoned, this`usedBytes, this`live
      modifies this`continuousUsed, this`continuousUsedMemoryBytes, this`runOpen, this`usedBefore, this`plain
      ensures Valid() && runOpen && usedBytes == old(usedBytes) + sizeInBytes
      ensures fresh(Arrays() - old(Arrays()))
      ensures newStart == At(RunRegion().chunk, RunRegion().from) && continuousUsed == (start != Nowhere)
      ensures start == Nowhere ==>
        && ret == newStart && RunRegion().len == sizeInBytes && live == old(live) + {RunRegion()} &&
          RunRegion() !in old(live)
        && usedBefore == old(usedBytes)
      ensures start != Nowhere ==>
        && RunRegion().len == old(RunRegion().len) + sizeInBytes &&
          live == old(live) - {old(RunRegion())} + {RunRegion()}
        && ret == (if sizeInBytes == 0 then start else At(RunRegion().chunk, RunRegion().from + old(RunRegion().len)))
        && Bytes(RunRegion())[..old(RunRegion().len)] == old(Bytes(RunRegion())) && usedBefore == old(usedBefore)
        && (RunRegion() != old(RunRegion()) ==> RunRegion() !in old(live))
    {
      hide PlacedIn, SumLengths, Distinct, GetNextSize;
      continuousUsed := true;
      if start == Nowhere {
        ret := Allocate(sizeInBytes);
        return ret, ret;
      }
      ret, newStart := AllocateContinueNotNull(sizeInBytes, start);
      usedBytes := usedBytes + sizeInBytes;
    }

    /** Take back the run, if it has more than its first piece: the flag is cleared by the allocation that starts it. */
    method RollBackContinualMem()
      requires Valid() && (continuousUsed ==> runOpen || continuousUsedMemoryBytes == 0)
      modifies this`availBuf, this`availBytes, this`usedBytes, this`live, this`runOpen, this`plain
      ensures Valid() && chunks == old(chunks)
      ensures old(continuousUsed && runOpen) ==>
        usedBytes == old(usedBefore) && live == old(live) - {old(RunRegion())} && !runOpen
      ensures !old(continuousUsed && runOpen) ==>
        usedBytes == old(usedBytes) && live == old(live) && availBuf == old(availBuf) && runOpen == old(runOpen)
    {
      hide PlacedIn, SumLengths, Distinct;
      if continuousUsed {
        if runOpen {
          DropOk(live, chunks, availBuf, RunRegion());
          live := live - {RunRegion()};
          runOpen, plain := false, false;
        }
        availBuf := availBuf - continuousUsedMemoryBytes;
        availBytes := availBytes + continuousUsedMemoryBytes;
        usedBytes := usedBytes - continuousUsedMemoryBytes;
      }
    }

    /** Forget all blocks and keep the first chunk. The continue flag is left as it is. */
    method Reset()
      requires Valid()
      modifies this`chunks, this`availBuf, this`availBytes, this`totalBytes, this`usedBytes,
        this`continuousUsedMemoryBytes
      modifies this`live, this`runOpen, this`abandoned, this`plain
      ensures Valid() && live == {} && !runOpen && plain && usedBytes == 0 && totalBytes == availBytes
      ensures chunks == old(chunks)[..if |old(chunks)| == 0 then 0 else 1]
      ensures |old(chunks)| > 0 ==> continuousUsedMemoryBytes == 0
    {
      if |chunks| == 0 {
        NoChunksNoBlocks(live, chunks, availBuf);
        live, runOpen, abandoned, plain := {}, false, 0, true;
        return;
      }
      SumOne(chunks);
      if |chunks| > 1 {
        chunks := chunks[..1];
      }
      availBuf := 0;
      availBytes, totalBytes := chunks[0].Length, chunks[0].Length;
      continuousUsedMemoryBytes := 0;
      usedBytes := 0;
      live, runOpen, abandoned, plain := {}, false, 0, true;
    }

    function GetNextSize(sizeInBytes: nat): (n: nat)
      requires 0 < linearGrowthThreshold
      reads this
      ensures n >= sizeInBytes
    {
      if |chunks| == 0 then if sizeInBytes < minChunkSize then minChunkSize else sizeInBytes
      else
        var lastChunkSize := chunks[|chunks| - 1].Length;
        if lastChunkSize < linearGrowthThreshold then
          if sizeInBytes < lastChunkSize * growthFactor then lastChunkSize * growthFactor else sizeInBytes
        else
          CeilFits(sizeInBytes, linearGrowthThreshold);
          ((sizeInBytes + linearGrowthThreshold - 1) / linearGrowthThreshold) * linearGrowthThreshold
    }
  }

  /** The next power of two in a 64-bit word. */
  function RoundedUp(n: nat): nat
    requires n > 0
  {
    var lower := Pow2(HighBit(n));
    if lower == n then n else (2 * lower) % TWO64
  }

  /** The rounding is right up to 2^63; beyond, it wraps to zero. */
  lemma RoundedUpIs(n: nat)
    requires 0 < n < TWO64
    ensures n <= TWO64 / 2 ==> n <= RoundedUp(n) < 2 * n && exists k: nat :: RoundedUp(n) == Pow2(k)
    ensures TWO64 / 2 < n <==> RoundedUp(n) == 0
  {
    hide Pow2, HighBit;
    var k := HighBit(n);
    Pow2Bound(k);
    Pow2Next(k);
    if Pow2(k) == n {
      assert RoundedUp(n) == Pow2(k);
    } else if n <= TWO64 / 2 {
      assert RoundedUp(n) == Pow2(k + 1);
    }
  }

  lemma Pow2Next(k: nat)
    ensures 2 * Pow2(k) == Pow2(k + 1)
  {
  }

  lemma Doubled(x: nat, y: nat)
    ensures x * (2 * y) == 2 * (x * y)
  {
  }

  lemma {:induction false} Pow2Add(a: nat, b: nat)
    ensures Pow2(a + b) == Pow2(a) * Pow2(b)
    decreases b
  {
    if b > 0 {
      Pow2Add(a, b - 1);
      assert Pow2(a + b) == 2 * Pow2(a + (b - 1));
      Doubled(Pow2(a), Pow2(b - 1));
    }
  }

  lemma {:induction false} Pow2Monotone(a: nat, b: nat)
    requires a <= b
    ensures Pow2(a) <= Pow2(b)
    decreases b - a
  {
    if a < b {
      Pow2Monotone(a, b - 1);
    }
  }

  /** Below 2 to the 64 only the 63rd power doubles out of the word. */
  lemma Pow2Bound(k: nat)
    ensures Pow2(63) == TWO64 / 2
    ensures Pow2(k) < TWO64 ==> k <= 63 && Pow2(k) <= TWO64 / 2
    ensures Pow2(k) < TWO64 / 2 ==> 2 * Pow2(k) <= TWO64 / 2
  {
    assert Pow2(4) == 0x10;
    Pow2Add(4, 4);
    Pow2Add(8, 8);
    Pow2Add(16, 16);
    Pow2Add(32, 32);
    assert Pow2(64) == 2 * Pow2(63);
    if k <= 62 {
      Pow2Monotone(k, 62);
    } else if k >= 64 {
      Pow2Monotone(64, k);
    }
  }

  // ---------- what clients see ----------

  /** Since a Reset, with plain allocations only, less is wasted than used. */
  lemma PlainSpace(a: SimpleArenaAllocator)
    requires a.Valid() && a.plain
    ensures a.totalBytes == SumLengths(a.chunks) <= 2 * a.usedBytes + a.availBytes
  {
  }

  /** Two blocks in use never share a byte, and each lies in one chunk. */
  lemma LiveBlocksApart(a: SimpleArenaAllocator, r: Region, q: Region)
    requires a.Valid() && r in a.live && q in a.live
    ensures Inside(r) && r.chunk in a.chunks && (r != q ==> Apart(r, q))
  {
    LiveInside(a.live, a.chunks, a.availBuf, r);
  }

  function Concat(pieces: seq<seq<Byte>>): seq<Byte> {
    if pieces == [] then [] else Concat(pieces[..|pieces| - 1]) + pieces[|pieces| - 1]
  }

  /** Bytes written into one block; blocks apart from it keep theirs. */
  method Write(c: array<Byte>, at: nat, bytes: seq<Byte>, ghost keep: set<Region>)
    requires at + |bytes| <= c.Length && forall r | r in keep :: Inside(r) && Apart(r, Region(c, at, |bytes|))
    modifies c
    ensures c[..at] == old(c[..at]) && c[at..at + |bytes|] == bytes
    ensures forall r | r in keep :: Bytes(r) == old(Bytes(r))
  {
    forall i | 0 <= i < |bytes| {
      c[at + i] := bytes[i];
    }
    assert forall k | 0 <= k < c.Length && !(at <= k < at + |bytes|) :: c[k] == old(c[k]);
    forall r | r in keep ensures Bytes(r) == old(Bytes(r)) {
      assert Inside(r) && Apart(r, Region(c, at, |bytes|));
      forall k | r.from <= k < r.from + r.len ensures r.chunk[k] == old(r.chunk[k]) {
        assert r.chunk == c ==> !(at <= k < at + |bytes|);
      }
      assert r.chunk[r.from..r.from + r.len] == old(r.chunk[r.from..r.from + r.len]);
    }
  }

  lemma OthersInside(live: set<Region>, chunks: seq<array<Byte>>, availBuf: nat)
    requires PlacedIn(live, chunks, availBuf)
    ensures forall r | r in live :: Inside(r)
  {
    forall r | r in live ensures Inside(r) {
      LiveInside(live, chunks, availBuf, r);
    }
  }

  lemma GrownRun(live: set<Region>, chunks: seq<array<Byte>>, availBuf: nat, others: set<Region>, g: Region)
    requires PlacedIn(live, chunks, availBuf) && live == others + {g} && g !in others
    ensures Inside(g) && g.chunk in chunks && forall r | r in others :: Inside(r) && Apart(r, g)
  {
    LiveInside(live, chunks, availBuf, g);
    OthersInside(live, chunks, availBuf);
  }

  lemma WriteInside(others: set<Region>, g: Region, at: nat, n: nat)
    requires g.from <= at && at + n <= g.from + g.len && forall r | r in others :: Inside(r) && Apart(r, g)
    ensures forall r | r in others :: Inside(r) && Apart(r, Region(g.chunk, at, n))
  {
  }

  /** One more piece of a run: allocate, then write. */
  method AppendPiece(a: SimpleArenaAllocator, piece: seq<Byte>, start: Address) returns (newStart: Address)
    requires a.Valid() && (start == Nowhere ==> 0 < |piece|) &&
      (start != Nowhere ==> a.runOpen && start == At(a.RunRegion().chunk, a.RunRegion().from))
    modifies a, a.Arrays()
    ensures a.Valid() && a.runOpen && newStart == At(a.RunRegion().chunk, a.RunRegion().from) && Inside(a.RunRegion())
    ensures fresh(a.Arrays() - old(a.Arrays()))
    ensures start == Nowhere ==>
      Bytes(a.RunRegion()) == piece && a.live == old(a.live) + {a.RunRegion()} && a.RunRegion() !in old(a.live) &&
      a.usedBefore == old(a.usedBytes)
    ensures start != Nowhere ==>
      && Inside(old(a.RunRegion())) && Bytes(a.RunRegion()) == old(Bytes(a.RunRegion())) + piece &&
        a.usedBefore == old(a.usedBefore)
      && a.live == old(a.live) - {old(a.RunRegion())} + {a.RunRegion()} &&
        (a.RunRegion() != old(a.RunRegion()) ==> a.RunRegion() !in old(a.live))
    ensures forall r | r in old(a.live) && (start == Nowhere || r != old(a.RunRegion())) ::
      Inside(r) && Bytes(r) == old(Bytes(r))
  {
    hide PlacedIn, Apart, SumLengths, Distinct, Concat;
    ghost var others := if start == Nowhere then a.live else a.live - {a.RunRegion()};
    OthersInside(a.live, a.chunks, a.availBuf);
    var ret;
    ret, newStart := a.AllocateContinue(|piece|, start);
    ghost var g := a.RunRegion();
    GrownRun(a.live, a.chunks, a.availBuf, others, g);
    if |piece| > 0 {
      WriteTail(Region(ret.chunk, newStart.offset, ret.offset + |piece| - newStart.offset), piece, others);
    }
  }

  /** The tail of a block written; its head and all other blocks keep their bytes. */
  method WriteTail(g: Region, piece: seq<Byte>, ghost others: set<Region>)
    requires Inside(g) && |piece| <= g.len && forall r | r in others :: Inside(r) && Apart(r, g)
    modifies g.chunk
    ensures Bytes(g) == old(Bytes(g))[..g.len - |piece|] + piece
    ensures forall r | r in others :: Bytes(r) == old(Bytes(r))
  {
    var at := g.from + g.len - |piece|;
    WriteInside(others, g, at, |piece|);
    Write(g.chunk, at, piece, others);
    assert g.chunk[g.from..at] == g.chunk[..at][g.from..];
    assert old(Bytes(g))[..g.len - |piece|] == old(g.chunk[..at])[g.from..];
    assert Bytes(g) == g.chunk[g.from..at] + g.chunk[at..at + |piece|];
  }

  /** A client that builds one string from pieces: the run holds the pieces in order, wherever it has moved to, and
      every block that was in use before keeps its bytes. */
  method AppendAll(a: SimpleArenaAllocator, pieces: seq<seq<Byte>>) returns (start: Address)
    requires a.Valid() && |pieces| > 0 && |pieces[0]| > 0
    modifies a, a.Arrays()
    ensures a.Valid() && a.runOpen && start == At(a.RunRegion().chunk, a.RunRegion().from) && Inside(a.RunRegion())
    ensures Bytes(a.RunRegion()) == Concat(pieces) && a.usedBefore == old(a.usedBytes)
    ensures a.live == old(a.live) + {a.RunRegion()} && a.RunRegion() !in old(a.live)
    ensures forall r | r in old(a.live) :: Inside(r) && Bytes(r) == old(Bytes(r))
  {
    hide PlacedIn, Apart, SumLengths, Distinct;
    OthersInside(a.live, a.chunks, a.availBuf);
    start := Nowhere;
    for i := 0 to |pieces|
      invariant a.Valid() && fresh(a.Arrays() - old(a.Arrays()))
      invariant i == 0 ==> start == Nowhere && a.live == old(a.live) && a.usedBytes == old(a.usedBytes)
      invariant 0 < i ==> a.runOpen && start == At(a.RunRegion().chunk, a.RunRegion().from) && Inside(a.RunRegion())
      invariant 0 < i ==>
        a.live == old(a.live) + {a.RunRegion()} && a.RunRegion() !in old(a.live) && a.usedBefore == old(a.usedBytes)
      invariant 0 < i ==> Bytes(a.RunRegion()) == Concat(pieces[..i])
      invariant forall r | r in old(a.live) :: Inside(r) && Bytes(r) == old(Bytes(r))
    {
      assert pieces[..i + 1][..i] == pieces[..i];
      start := AppendPiece(a, pieces[i], start);
    }
    assert pieces[..|pieces|] == pieces;
  }
}
