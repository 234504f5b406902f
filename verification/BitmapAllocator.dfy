/** The bitmap memory manager: next-fit over the cell array, freeing by scanning to the group's end. */
module BitmapAllocator {
  import opened Tallies
  import opened HeapLayout
  import opened BitmapCells

  /** The bitmap table occupies the start of the heap; the payload blocks follow it. */
  const TABLE_BLOCKS: nat := (HEAP_SIZE / BLOCK_SIZE * 4 + BLOCK_SIZE - 1) / BLOCK_SIZE
  const PAYLOAD_START: nat := HEAP_START + TABLE_BLOCKS * BLOCK_SIZE
  const BLOCK_QTY: nat := HEAP_SIZE / BLOCK_SIZE - TABLE_BLOCKS

  /** Sizes are truncated to 32 bits. */
  const SIZE_LIMIT: nat := 0x1_0000_0000

  function SizeToBlockQty(size: nat): (k: nat)
    ensures size >= 1 ==> k >= 1
    ensures k * BLOCK_SIZE >= size && (k >= 1 ==> (k - 1) * BLOCK_SIZE < size)
  {
    if size % BLOCK_SIZE != 0 then size / BLOCK_SIZE + 1 else size / BLOCK_SIZE
  }

  /** The blocks a request gets: its size is first truncated. */
  function BlocksFor(size: nat): nat { SizeToBlockQty(size % SIZE_LIMIT) }

  /** The blocks hold the request if and only if its size fits 32 bits. */
  lemma TruncatedRequest(size: nat)
    ensures BlocksFor(size) * BLOCK_SIZE >= size <==> size < SIZE_LIMIT
    ensures size < SIZE_LIMIT ==> BlocksFor(size) == SizeToBlockQty(size)
    ensures BlocksFor(size) == 0 <==> size % SIZE_LIMIT == 0
  {
    var t := size % SIZE_LIMIT;
    assert BlocksFor(size) >= 1 ==> (BlocksFor(size) - 1) * BLOCK_SIZE < t;
  }

  function AddressOf(idx: nat): nat { PAYLOAD_START + idx * BLOCK_SIZE }

  lemma IndexOfAddress(addr: nat)
    requires PAYLOAD_START <= addr < AddressOf(BLOCK_QTY) && addr % BLOCK_SIZE == 0
    ensures var i := (addr - PAYLOAD_START) / BLOCK_SIZE; i < BLOCK_QTY && addr == AddressOf(i)
  {
    WholeBlocks(PAYLOAD_START, addr);
  }

  /** Group addresses are multiples of the block size in the payload area, one per index. */
  lemma StartAddresses(addr: nat)
    ensures addr == 0 || addr % BLOCK_SIZE != 0 || addr < PAYLOAD_START ==> forall i: nat :: addr != AddressOf(i)
    ensures forall i: nat, j: nat :: AddressOf(i) == AddressOf(j) ==> i == j
  {
    forall i: nat ensures AddressOf(i) % BLOCK_SIZE == 0 && AddressOf(i) >= PAYLOAD_START {
      StartAligned(i);
    }
  }

  lemma StartAligned(i: nat)
    ensures AddressOf(i) % BLOCK_SIZE == 0
  {
    assert AddressOf(i) == (TABLE_BLOCKS + HEAP_START / BLOCK_SIZE + i) * BLOCK_SIZE;
  }

  lemma WholeBlocks(base: nat, addr: nat)
    requires base <= addr && base % 64 == 0 && addr % 64 == 0
    ensures addr == base + (addr - base) / 64 * 64
  {
    var a, b := addr / 64, base / 64;
    assert addr - base == (a - b) * 64;
  }

  /** `idx` is where next-fit from `current` puts `k` blocks. */
  ghost predicate NextFit(cells: seq<Cell>, current: nat, k: nat, idx: nat) {
    && FreeRun(cells, idx, k)
    && (forall j :: FreeRun(cells, j, k) && j >= current ==> current <= idx <= j)
    && (idx < current ==> forall j :: FreeRun(cells, j, k) ==> idx <= j)
  }

  /** A run of free cells leaves at least its length unused. */
  lemma {:induction false} FreeRunBound(cells: seq<Cell>, j: nat, k: nat)
    requires FreeRun(cells, j, k)
    ensures Count(cells, NonFree) + k <= |cells|
    decreases k
  {
    if k == 0 {
      CountAll(cells);
    } else {
      CountUpdate(cells, j, USED, NonFree);
      FreeRunBound(cells[j := USED], j + 1, k - 1);
    }
  }

  lemma {:induction false} CountAll(cells: seq<Cell>)
    ensures Count(cells, NonFree) <= |cells|
  {
    if cells != [] { CountAll(cells[1..]); }
  }

  class BitmapManager {
    const bitmap: array<Cell>
    var blocksUsed: nat
    var current: nat
    /** The groups handed out and not yet released. */
    ghost var live: set<Run>

    ghost predicate Valid()
      reads this, bitmap
    {
      && bitmap.Length == BLOCK_QTY
      && Represents(bitmap[..], live)
      && blocksUsed == Count(bitmap[..], NonFree)
      && current <= BLOCK_QTY
    }

    constructor ()
      ensures Valid() && fresh(bitmap) && live == {} && current == 0 && blocksUsed == 0
    {
      bitmap := new Cell[BLOCK_QTY];
      blocksUsed, current := 0, 0;
      live := {};
      new;
      for i := 0 to BLOCK_QTY
        invariant forall j :: 0 <= j < i ==> bitmap[j] == FREE
        modifies bitmap
      {
        bitmap[i] := FREE;
      }
      CountZero(bitmap[..], NonFree);
    }

    /**
     The address of the lowest run of `needed` free cells inside `[start, end)`,
     or 0.  The comparison after the loop succeeds only for zero blocks: then the
     address is one block past the block after the range, whatever is free.
     */
    method FindFreeBlocks(needed: nat, start: nat, end: nat) returns (addr: nat, ghost idx: int)
      requires Valid() && start <= end <= BLOCK_QTY
      ensures needed >= 1 && addr == 0 ==>
                forall j :: start <= j && j + needed <= end ==> !FreeRun(bitmap[..], j, needed)
      ensures needed >= 1 && addr != 0 ==>
                start <= idx && idx + needed <= end && FreeRun(bitmap[..], idx, needed) && addr == AddressOf(idx)
      ensures needed >= 1 && addr != 0 ==> forall j :: start <= j < idx ==> !FreeRun(bitmap[..], j, needed)
      ensures needed == 0 ==> (addr != 0 <==> start == end || bitmap[end - 1] != FREE)
      ensures needed == 0 && addr != 0 ==> addr == AddressOf(end + 1)
    {
      hide Represents, Count;
      ghost var cells := bitmap[..];
      var freeBlocks := 0;
      var i := start;
      while i < end
        invariant start <= i - freeBlocks <= i <= end && (needed >= 1 ==> freeBlocks < needed)
        invariant forall j :: i - freeBlocks <= j < i ==> cells[j] == FREE
        invariant i - freeBlocks > start ==> cells[i - freeBlocks - 1] != FREE
        invariant needed >= 1 ==> forall j :: start <= j && j + needed <= i ==> !FreeRun(cells, j, needed)
      {
        if bitmap[i] == FREE {
          freeBlocks := freeBlocks + 1;
          if freeBlocks == needed {
            assert FreeRun(cells, i - needed + 1, needed);
            return AddressOf(i - needed + 1), i - needed + 1;
          }
        } else {
          freeBlocks := 0;
        }
        NoRunEndsHere(cells, start, i, freeBlocks, needed);
        i := i + 1;
      }
      if freeBlocks == needed {
        return AddressOf(i + 1 - needed), -1;
      }
      return 0, -1;
    }

    /** The two searches of allocMemory. */
    method Search(needed: nat) returns (addr: nat, ghost idx: int)
      requires Valid()
      ensures needed >= 1 ==> (addr == 0 <==> forall j :: !FreeRun(bitmap[..], j, needed))
      ensures needed >= 1 && addr != 0 ==>
                0 <= idx && addr == AddressOf(idx) && NextFit(bitmap[..], current, needed, idx)
      ensures needed == 0 ==> (addr == 0 <==> !ZeroOverruns())
      ensures needed == 0 && addr != 0 ==> addr == AddressOf(BLOCK_QTY + 1)
    {
      hide Represents, Count;
      addr, idx := FindFreeBlocks(needed, current, BLOCK_QTY);
      if addr == 0 {
        addr, idx := FindFreeBlocks(needed, 0, BLOCK_QTY);
      }
    }

    /**
     A request for no blocks is given an address past the payload area, and goes on
     to write outside the bitmap, if and only if the last search ended at the end of
     the bitmap or its last cell is in use; otherwise it is refused.
     */
    predicate ZeroOverruns()
      reads this, bitmap
    {
      bitmap.Length == BLOCK_QTY && (current >= BLOCK_QTY || bitmap[BLOCK_QTY - 1] != FREE)
    }

    /** Writes one free cell and counts it. */
    method Occupy(i: nat, code: Cell)
      requires i < bitmap.Length && bitmap[i] == FREE && code != FREE
      requires blocksUsed == Count(bitmap[..], NonFree)
      modifies bitmap, this`blocksUsed
      ensures bitmap[..] == old(bitmap[..])[i := code] && blocksUsed == Count(bitmap[..], NonFree)
    {
      hide Count;
      CountUpdate(bitmap[..], i, code, NonFree);
      ghost var cells := bitmap[..];
      bitmap[i] := code;
      assert bitmap[..] == cells[i := code];
      blocksUsed := blocksUsed + 1;
    }

    /** Marks `needed >= 2` free cells from `index` on as one group. */
    method MarkGroupAsUsed(needed: nat, index: nat) returns (addr: nat)
      requires needed >= 2 && FreeRun(bitmap[..], index, needed)
      requires blocksUsed == Count(bitmap[..], NonFree)
      modifies bitmap, this`blocksUsed
      ensures bitmap[..] == Marked(old(bitmap[..]), index, needed)
      ensures blocksUsed == Count(bitmap[..], NonFree)
      ensures addr == AddressOf(index)
    {
      hide Count;
      ghost var cells := bitmap[..];
      Occupy(index, START);
      Occupy(index + needed - 1, END);
      for i := 1 to needed - 1
        invariant bitmap[..] == Partial(cells, index, needed, i)
        invariant blocksUsed == Count(bitmap[..], NonFree)
      {
        Occupy(index + i, USED);
      }
      PartialDone(cells, index, needed);
      addr := AddressOf(index);
    }

    /** allocMemory once the number of blocks is known. */
    method AllocBlocks(needed: nat) returns (addr: nat)
      requires Valid() && needed >= 1
      modifies this, bitmap
      ensures Valid()
      // NULL exactly when no run of free cells is long enough
      ensures addr == 0 <==> forall j :: !FreeRun(old(bitmap[..]), j, needed)
      ensures addr == 0 ==> live == old(live) && bitmap[..] == old(bitmap[..]) && current == old(current)
      ensures addr != 0 ==>
                exists idx: nat ::
                  && addr == AddressOf(idx) && NextFit(old(bitmap[..]), old(current), needed, idx)
                  && Run(idx, needed) !in old(live) && live == old(live) + {Run(idx, needed)}
                  && bitmap[..] == Marked(old(bitmap[..]), idx, needed) && current == idx + needed
    {
      hide Count, Represents;
      ghost var cells := bitmap[..];
      if needed > BLOCK_QTY - blocksUsed {
        TooFewFree(needed);
        return 0;
      }
      ghost var idx;
      addr, idx := Search(needed);
      if addr == 0 {
        return 0;
      }
      var blockIndex := (addr - PAYLOAD_START) / BLOCK_SIZE;
      assert blockIndex == idx;
      assert NextFit(cells, current, needed, blockIndex);
      MarkedRepresents(cells, live, blockIndex, needed);
      current := blockIndex + needed;
      live := live + {Run(blockIndex, needed)};
      if needed == 1 {
        Occupy(blockIndex, SINGLE);
        MarkedOne(cells, blockIndex);
      } else {
        addr := MarkGroupAsUsed(needed, blockIndex);
      }
    }

    method AllocMemory(size: nat) returns (addr: nat)
      requires Valid() && (size % SIZE_LIMIT == 0 ==> !ZeroOverruns())
      modifies this, bitmap
      ensures Valid()
      // NULL exactly when no run of free cells is long enough
      ensures BlocksFor(size) >= 1 ==> (addr == 0 <==> forall j :: !FreeRun(old(bitmap[..]), j, BlocksFor(size)))
      ensures BlocksFor(size) == 0 ==> addr == 0
      ensures addr == 0 ==> live == old(live) && bitmap[..] == old(bitmap[..]) && current == old(current)
      ensures addr != 0 ==>
                var k := BlocksFor(size);
                exists idx: nat ::
                  && addr == AddressOf(idx) && NextFit(old(bitmap[..]), old(current), k, idx)
                  && Run(idx, k) !in old(live) && live == old(live) + {Run(idx, k)}
                  && bitmap[..] == Marked(old(bitmap[..]), idx, k) && current == idx + k
    {
      hide Count, Represents, Marked, FreeRun, NextFit, BlocksFor, SizeToBlockQty;
      TruncatedRequest(size);
      var needed := BlocksFor(size);
      if needed == 0 {
        ghost var idx;
        addr, idx := Search(0);
        return;
      }
      addr := AllocBlocks(needed);
    }

    /** Clears cells from a START up to, not including, the first END, and counts them. */
    method ClearToEnd(blockIndex: nat, ghost r: Run) returns (blocksToFree: nat)
      requires r.idx == blockIndex && r.len >= 2 && Coded(bitmap[..], r)
      modifies bitmap
      ensures blocksToFree == r.len - 1
      ensures bitmap[..] == Cleared(old(bitmap[..]), r.idx, r.len - 1)
      ensures Count(bitmap[..], NonFree) == old(Count(bitmap[..], NonFree)) - blocksToFree
    {
      hide Count;
      ghost var cells := bitmap[..];
      assert Cleared(cells, r.idx, 0) == cells;
      blocksToFree := 0;
      while bitmap[blockIndex + blocksToFree] != END
        invariant blocksToFree <= r.len - 1
        invariant bitmap[..] == Cleared(cells, r.idx, blocksToFree)
        invariant Count(bitmap[..], NonFree) == Count(cells, NonFree) - blocksToFree
        decreases r.len - blocksToFree
      {
        assert cells[r.idx + blocksToFree] == Code(blocksToFree, r.len);
        ClearedStep(cells, r.idx, blocksToFree);
        CountUpdate(bitmap[..], blockIndex + blocksToFree, FREE, NonFree);
        ghost var before := bitmap[..];
        bitmap[blockIndex + blocksToFree] := FREE;
        assert bitmap[..] == before[blockIndex + blocksToFree := FREE];
        blocksToFree := blocksToFree + 1;
      }
      assert cells[r.idx + blocksToFree] == Code(blocksToFree, r.len);
    }

    /** The live group that starts at cell `i`, if there is one. */
    ghost predicate StartsAt(r: Run, addr: nat)
      reads this
    {
      r in live && addr == AddressOf(r.idx)
    }

    method FreeSingle(blockIndex: nat)
      requires Valid() && blockIndex < BLOCK_QTY && Run(blockIndex, 1) in live
      modifies this`blocksUsed, this`live, bitmap
      ensures Valid() && live == old(live) - {Run(blockIndex, 1)}
      ensures bitmap[..] == Cleared(old(bitmap[..]), blockIndex, 1)
    {
      hide Count, Represents;
      ghost var r := Run(blockIndex, 1);
      ghost var cells := bitmap[..];
      StartCode(blockIndex);
      ClearedRepresents(cells, live, r);
      CountUpdate(cells, blockIndex, FREE, NonFree);
      bitmap[blockIndex] := FREE;
      assert bitmap[..] == cells[blockIndex := FREE] == Cleared(cells, blockIndex, 1);
      blocksUsed := blocksUsed - 1;
      live := live - {r};
    }

    method FreeGroup(blockIndex: nat, ghost r: Run)
      requires Valid() && r in live && r.idx == blockIndex && r.len >= 2 && Coded(bitmap[..], r)
      modifies this`blocksUsed, this`live, bitmap
      ensures Valid() && live == old(live) - {r}
      ensures bitmap[..] == Cleared(old(bitmap[..]), r.idx, r.len)
    {
      hide Count, Represents;
      ghost var cells := bitmap[..];
      ClearedRepresents(cells, live, r);
      ClearedStep(cells, r.idx, r.len - 1);
      LastIsEnd(cells, r);
      var blocksToFree := ClearToEnd(blockIndex, r);
      CountUpdate(bitmap[..], blockIndex + blocksToFree, FREE, NonFree);
      ghost var before := bitmap[..];
      bitmap[blockIndex + blocksToFree] := FREE;
      assert bitmap[..] == before[blockIndex + blocksToFree := FREE];
      blocksUsed := blocksUsed - (blocksToFree + 1);
      live := live - {r};
    }

    method FreeMemory(addr: nat)
      requires Valid() && addr < AddressOf(BLOCK_QTY)
      modifies this`blocksUsed, this`live, bitmap
      ensures Valid()
      // exactly the group that starts there is released
      ensures forall r :: old(StartsAt(r, addr)) ==>
                live == old(live) - {r} && bitmap[..] == Cleared(old(bitmap[..]), r.idx, r.len)
      // any other address changes nothing
      ensures (forall r :: !old(StartsAt(r, addr))) ==> live == old(live) && bitmap[..] == old(bitmap[..])
    {
      hide Valid, Count, Represents, Coded, Cleared, AddressOf;
      StartAddresses(addr);
      if addr == 0 || addr % BLOCK_SIZE != 0 {
        return;
      }
      if addr < PAYLOAD_START {
        return;
      }
      var blockIndex := (addr - PAYLOAD_START) / BLOCK_SIZE;
      IndexOfAddress(addr);
      StartCode(blockIndex);
      if bitmap[blockIndex] == SINGLE {
        assert old(StartsAt(Run(blockIndex, 1), addr));
        FreeSingle(blockIndex);
        return;
      }
      if bitmap[blockIndex] != START {
        return;
      }
      ghost var r :| r in live && r.idx == blockIndex && r.len >= 2;
      assert old(StartsAt(r, addr));
      FreeGroup(blockIndex, r);
    }

    /** The used bytes are the blocks of the live groups, and used and free bytes add up to the total. */
    method GetMemoryInfo() returns (info: MemInfo)
      requires Valid()
      ensures info.total == BLOCK_QTY * BLOCK_SIZE && info.used + info.free == info.total && info.free >= 0
      ensures Parse(bitmap[..], 0).Some? && info.used == TotalLength(Parse(bitmap[..], 0).value) * BLOCK_SIZE
    {
      hide Count, Parse, TotalLength;
      UsedIsAllocated(bitmap[..], live, 0);
      CountAll(bitmap[..]);
      assert bitmap[..][0..] == bitmap[..];
      var total := BLOCK_QTY * BLOCK_SIZE;
      var used := blocksUsed * BLOCK_SIZE;
      info := MemInfo(total, used, total - used);
    }

    /** The cell at an index says whether a group starts there, and there is at most one. */
    lemma StartCode(i: nat)
      requires Valid() && i < BLOCK_QTY
      ensures bitmap.Length == BLOCK_QTY
      ensures bitmap[i] == SINGLE <==> Run(i, 1) in live
      ensures bitmap[i] == START <==> exists r :: r in live && r.idx == i && r.len >= 2
      ensures forall r :: r in live && r.idx == i ==>
                Coded(bitmap[..], r) && (bitmap[i] == START || bitmap[i] == SINGLE)
      ensures forall r, q :: r in live && q in live && r.idx == i && q.idx == i ==> r == q
    {
      var cells := bitmap[..];
      forall r | r in live && r.idx == i ensures cells[i] == Code(0, r.len) {
        assert Coded(cells, r);
      }
      if cells[i] != FREE {
        assert InSome(live, i);
        var r :| r in live && Covers(r, i);
        assert Coded(cells, r) && cells[i] == Code(i - r.idx, r.len);
      }
      forall r, q | r in live && q in live && r.idx == i && q.idx == i ensures r == q {
        assert Coded(cells, r) && Coded(cells, q);
        RunsDisjoint(cells, r, q, i);
      }
    }

    lemma TooFewFree(k: nat)
      requires Valid() && k > BLOCK_QTY - blocksUsed
      ensures forall j :: !FreeRun(bitmap[..], j, k)
    {
      forall j | FreeRun(bitmap[..], j, k) ensures false {
        FreeRunBound(bitmap[..], j, k);
      }
    }
  }

  /** Freeing what was just allocated restores the bitmap and the set of live groups. */
  method AllocThenFree(m: BitmapManager, size: nat)
    requires m.Valid() && (size % SIZE_LIMIT == 0 ==> !m.ZeroOverruns())
    modifies m, m.bitmap
    ensures m.Valid() && m.live == old(m.live) && m.bitmap[..] == old(m.bitmap[..]) && m.blocksUsed == old(m.blocksUsed)
  {
    hide Count, Represents, SizeToBlockQty, Marked, Cleared;
    ghost var cells, live := m.bitmap[..], m.live;
    var addr := m.AllocMemory(size);
    if addr != 0 {
      ghost var k := BlocksFor(size);
      ghost var idx: nat :| addr == AddressOf(idx) && NextFit(cells, old(m.current), k, idx)
                            && Run(idx, k) !in live && m.live == live + {Run(idx, k)}
                                && m.bitmap[..] == Marked(cells, idx, k);
      MarkThenClear(cells, idx, k);
      assert m.StartsAt(Run(idx, k), addr);
      m.FreeMemory(addr);
      assert m.live == live;
    }
  }

  lemma LastIsEnd(cells: seq<Cell>, r: Run)
    requires Coded(cells, r) && r.len >= 2
    ensures cells[r.idx + r.len - 1] == END && Cleared(cells, r.idx, r.len - 1)[r.idx + r.len - 1] == END
  {
    assert cells[r.idx + r.len - 1] == Code(r.len - 1, r.len);
  }

  lemma ClearedStep(cells: seq<Cell>, idx: nat, n: nat)
    requires idx + n < |cells|
    ensures Cleared(cells, idx, n)[idx + n := FREE] == Cleared(cells, idx, n + 1)
  {
  }

  /** The group half written: both ends and the first `i - 1` inner cells. */
  function Partial(cells: seq<Cell>, index: nat, k: nat, i: nat): (r: seq<Cell>)
    ensures |r| == |cells|
  {
    seq(|cells|, j requires 0 <= j < |cells| =>
      if j == index + k - 1 then END else if j == index then START
      else if index < j < index + i then USED else cells[j])
  }

  lemma PartialDone(cells: seq<Cell>, index: nat, k: nat)
    requires k >= 2
    ensures Partial(cells, index, k, k - 1) == Marked(cells, index, k)
  {
    forall j | 0 <= j < |cells| ensures Partial(cells, index, k, k - 1)[j] == Marked(cells, index, k)[j] {
      assert Marked(cells, index, k)[j] == if index <= j < index + k then Code(j - index, k) else cells[j];
    }
  }

  lemma MarkedOne(cells: seq<Cell>, i: nat)
    requires i < |cells|
    ensures cells[i := SINGLE] == Marked(cells, i, 1)
  {
    forall j | 0 <= j < |cells| ensures cells[i := SINGLE][j] == Marked(cells, i, 1)[j] {
      assert Marked(cells, i, 1)[j] == if i <= j < i + 1 then Code(j - i, 1) else cells[j];
      assert j == i ==> Code(j - i, 1) == SINGLE;
    }
  }

  /** Too few free cells end at `i`, so no run of `needed` does. */
  lemma NoRunEndsHere(cells: seq<Cell>, start: nat, i: nat, freeBlocks: nat, needed: nat)
    requires i < |cells| && start <= i + 1 - freeBlocks
    requires i + 1 - freeBlocks > start ==> cells[i - freeBlocks] != FREE
    ensures freeBlocks < needed && start <= i + 1 - needed ==> !FreeRun(cells, i + 1 - needed, needed)
  {
  }
}
