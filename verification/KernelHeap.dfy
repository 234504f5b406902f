/**
 The one contract both allocators meet.  The kernel picks an allocator when it
 is compiled; here the choice is a `Backend`, and everything above the heap
 relies only on `Heap`'s contract.
 */
module KernelHeap {
  import opened Powers
  import opened HeapLayout
  import opened BuddyBlocks
  import opened BuddyAllocator
  import B = BitmapCells
  import M = BitmapAllocator

  datatype Backend = Buddy(buddy: BuddyManager) | Bitmap(bitmap: M.BitmapManager)

  /** A range of usable bytes handed to a caller. */
  datatype Extent = Extent(addr: nat, len: nat)

  predicate Disjoint(a: Extent, b: Extent) {
    a.addr + a.len <= b.addr || b.addr + b.len <= a.addr
  }

  /** Requests the bitmap allocator can serve in full. */
  predicate Request(n: nat) { 1 <= n < M.SIZE_LIMIT }

  // ---- the abstract contract --------------------------------------------

  /** Allocation adds one new extent, large enough and disjoint from all others, or changes nothing. */
  ghost predicate Allocated(before: set<Extent>, after: set<Extent>, n: nat, addr: nat) {
    if addr == 0 then after == before
    else exists e :: NewExtent(before, after, n, addr, e)
  }

  ghost predicate NewExtent(before: set<Extent>, after: set<Extent>, n: nat, addr: nat, e: Extent) {
    && e.addr == addr && e.len >= n && e !in before && after == before + {e}
    && (forall f :: f in before ==> Disjoint(e, f) && f.addr != addr)
  }

  // ---- the buddy backend ------------------------------------------------

  function BlockExtent(b: Block): Extent {
    Extent(HEAP_START + b.pos + HEADER_SIZE, if Pow2(b.order) >= HEADER_SIZE then Pow2(b.order) - HEADER_SIZE else 0)
  }

  ghost function BlockExtents(live: set<Block>): set<Extent> {
    set b | b in live :: BlockExtent(b)
  }

  lemma BlockSize(b: Block, top: nat)
    requires Proper(b, top)
    ensures Pow2(b.order) >= 64
  {
    Pow2Mono(MIN_ORDER, b.order);
    assert Pow2(6) == 64;
  }

  lemma BlocksApart(a: Block, b: Block, top: nat)
    requires Proper(a, top) && Proper(b, top) && !Overlap(a, b)
    ensures Disjoint(BlockExtent(a), BlockExtent(b)) && BlockExtent(a).addr != BlockExtent(b).addr
  {
    BlockSize(a, top);
    BlockSize(b, top);
  }

  lemma LiveBlocksApart(free: set<Block>, live: set<Block>, top: nat)
    requires Shape(free, live, {}, top)
    ensures forall a, b :: a in live && b in live && a != b ==> BlockExtent(a).addr != BlockExtent(b).addr
  {
    forall a, b | a in live && b in live && a != b ensures BlockExtent(a).addr != BlockExtent(b).addr {
      assert a in free + live + {} && b in free + live + {};
      BlocksApart(a, b, top);
    }
  }

  /** An order that fits the request exists below any order whose blocks are large enough. */
  lemma {:induction false} LeastOrderBelow(n: nat, order: nat) returns (k: nat)
    requires order >= MIN_ORDER && Pow2(order) >= n + HEADER_SIZE
    ensures k <= order && LeastOrder(k, n)
    decreases order
  {
    if order > MIN_ORDER && Pow2(order - 1) >= n + HEADER_SIZE {
      k := LeastOrderBelow(n, order - 1);
    } else {
      k := order;
    }
  }

  /** Room for one block is room for every request that block could hold. */
  lemma BlockServes(live: set<Block>, top: nat, b: Block, n: nat)
    requires Proper(b, top) && Clear(b, live) && n + HEADER_SIZE <= Pow2(b.order)
    ensures Fits(live, top, n)
  {
    var k := LeastOrderBelow(n, b.order);
    var c := Block(b.pos, k);
    var q := AlignedFactor(b.pos, k, b.order);
    Pow2Mono(k, b.order);
    assert Inside(c, b);
    assert Proper(c, top) && Clear(c, live);
  }

  // ---- the bitmap backend -----------------------------------------------

  function RunExtent(r: B.Run): Extent {
    Extent(M.AddressOf(r.idx), r.len * BLOCK_SIZE)
  }

  ghost function RunExtents(live: set<B.Run>): set<Extent> {
    set r | r in live :: RunExtent(r)
  }

  /** Some run of free cells holds `n` bytes. */
  ghost predicate RunFits(cells: seq<B.Cell>, n: nat) {
    exists j :: B.FreeRun(cells, j, M.SizeToBlockQty(n))
  }

  lemma RunsApart(a: B.Run, b: B.Run)
    requires a.len >= 1 && b.len >= 1 && forall i :: !(B.Covers(a, i) && B.Covers(b, i))
    ensures Disjoint(RunExtent(a), RunExtent(b)) && RunExtent(a).addr != RunExtent(b).addr
  {
    assert !(B.Covers(a, a.idx) && B.Covers(b, a.idx));
    assert !(B.Covers(a, b.idx) && B.Covers(b, b.idx));
  }

  lemma LiveRunsApart(cells: seq<B.Cell>, live: set<B.Run>)
    requires B.Represents(cells, live)
    ensures forall a, b :: a in live && b in live && a != b ==> RunExtent(a).addr != RunExtent(b).addr
  {
    forall a, b | a in live && b in live && a != b ensures RunExtent(a).addr != RunExtent(b).addr {
      assert B.Coded(cells, a) && B.Coded(cells, b);
      if a.idx == b.idx { B.RunsDisjoint(cells, a, b, a.idx); }
    }
  }

  lemma RunServes(cells: seq<B.Cell>, r: B.Run, n: nat)
    requires B.FreeRun(cells, r.idx, r.len) && n <= r.len * BLOCK_SIZE
    ensures RunFits(cells, n)
  {
    assert B.FreeRun(cells, r.idx, M.SizeToBlockQty(n));
  }

  // ---- allocation and release, seen through the contract -----------------

  lemma BuddyAllocated(free: set<Block>, live: set<Block>, top: nat, b: Block, n: nat)
    requires Shape(free, live, {}, top)
    requires Proper(b, top) && LeastOrder(b.order, n) && Clear(b, live)
    ensures Allocated(BlockExtents(live), BlockExtents(live + {b}), n, BlockExtent(b).addr)
  {
    hide Tiling, TotalBytes, Pow2, Aligned;
    var e := BlockExtent(b);
    BlockSize(b, top);
    forall f | f in BlockExtents(live) ensures Disjoint(e, f) && f.addr != e.addr {
      var l :| l in live && f == BlockExtent(l);
      LiveProper(free, live, top, l);
      BlocksApart(b, l, top);
    }
    assert BlockExtents(live + {b}) == BlockExtents(live) + {e};
    assert NewExtent(BlockExtents(live), BlockExtents(live + {b}), n, e.addr, e);
  }

  lemma LiveProper(free: set<Block>, live: set<Block>, top: nat, l: Block)
    requires Shape(free, live, {}, top) && l in live
    ensures Proper(l, top)
  {
    assert l in free + live + {};
  }

  lemma BuddyReleased(free: set<Block>, live: set<Block>, top: nat, b: Block)
    requires Shape(free, live, {}, top) && b in live
    ensures BlockExtents(live - {b}) == BlockExtents(live) - {BlockExtent(b)}
  {
    hide Tiling, TotalBytes, Pow2, Aligned;
    LiveBlocksApart(free, live, top);
    forall e | e in BlockExtents(live) && e != BlockExtent(b) ensures e in BlockExtents(live - {b}) {
      var l :| l in live && e == BlockExtent(l);
      assert l in live - {b};
    }
  }

  lemma BitmapAllocated(cells: seq<B.Cell>, live: set<B.Run>, idx: nat, k: nat, n: nat)
    requires B.Represents(cells, live) && k >= 1 && B.FreeRun(cells, idx, k) && k * BLOCK_SIZE >= n
    ensures Allocated(RunExtents(live), RunExtents(live + {B.Run(idx, k)}), n, M.AddressOf(idx))
  {
    var r := B.Run(idx, k);
    var e := RunExtent(r);
    B.MarkedRepresents(cells, live, idx, k);
    forall f | f in RunExtents(live) ensures Disjoint(e, f) && f.addr != e.addr {
      var l :| l in live && f == RunExtent(l);
      assert B.Coded(cells, l);
      forall i ensures !(B.Covers(r, i) && B.Covers(l, i)) {}
      RunsApart(r, l);
    }
    assert RunExtents(live + {r}) == RunExtents(live) + {e};
    assert NewExtent(RunExtents(live), RunExtents(live + {r}), n, e.addr, e);
  }

  lemma BitmapReleased(cells: seq<B.Cell>, live: set<B.Run>, r: B.Run)
    requires B.Represents(cells, live) && r in live
    ensures RunExtents(live - {r}) == RunExtents(live) - {RunExtent(r)}
  {
    LiveRunsApart(cells, live);
    forall e | e in RunExtents(live) && e != RunExtent(r) ensures e in RunExtents(live - {r}) {
      var l :| l in live && e == RunExtent(l);
      assert l in live - {r};
    }
  }

  class Heap {
    const impl: Backend

    ghost function Repr(): set<object> {
      match impl
      case Buddy(b) => {b, b.freeBlocks}
      case Bitmap(m) => {m, m.bitmap}
    }

    ghost predicate Valid()
      reads Repr()
    {
      match impl
      case Buddy(b) => b.Valid()
      case Bitmap(m) => m.Valid()
    }

    /** The extents in callers' hands. */
    ghost function Live(): set<Extent>
      reads Repr()
    {
      match impl
      case Buddy(b) => BlockExtents(b.live)
      case Bitmap(m) => RunExtents(m.live)
    }

    /** A request for `n` bytes would succeed now. */
    ghost predicate Serves(n: nat)
      reads Repr()
    {
      match impl
      case Buddy(b) => 1 <= n <= HEAP_SIZE && Fits(b.live, b.maxOrder, n)
      case Bitmap(m) => RunFits(m.bitmap[..], n)
    }

    constructor WithBuddy()
      ensures Valid() && fresh(Repr()) && Live() == {} && impl.Buddy?
    {
      var b := new BuddyManager(HEAP_SIZE);
      impl := Buddy(b);
    }

    constructor WithBitmap()
      ensures Valid() && fresh(Repr()) && Live() == {} && impl.Bitmap?
    {
      var m := new M.BitmapManager();
      impl := Bitmap(m);
    }

    method AllocMemory(n: nat) returns (addr: nat)
      requires Valid() && (impl.Bitmap? ==> Request(n))
      modifies Repr()
      ensures Valid() && Allocated(old(Live()), Live(), n, addr)
      ensures addr != 0 <==> old(Serves(n))
    {
      match impl
      case Buddy(b) => addr := AllocBuddy(b, n);
      case Bitmap(m) => addr := AllocBitmap(m, n);
    }

    /** The address is NULL or one an earlier allocation returned and nobody freed since. */
    ghost predicate Owned(addr: nat)
      reads Repr()
    {
      addr != 0 ==> exists e :: e in Live() && e.addr == addr
    }

    method FreeMemory(addr: nat)
      requires Valid() && Owned(addr)
      modifies Repr()
      ensures Valid()
      ensures addr == 0 ==> Live() == old(Live())
      // exactly the extent that starts there goes, and any request it could hold now succeeds
      ensures forall e :: addr != 0 && e in old(Live()) && e.addr == addr ==>
                Live() == old(Live()) - {e} && forall n :: 1 <= n <= e.len && n <= HEAP_SIZE ==> Serves(n)
    {
      match impl
      case Buddy(b) => FreeBuddy(b, addr);
      case Bitmap(m) => FreeBitmap(m, addr);
    }
  }

  method AllocBuddy(b: BuddyManager, n: nat) returns (addr: nat)
    requires b.Valid()
    modifies b, b.freeBlocks
    ensures b.Valid() && b.maxOrder == old(b.maxOrder)
    ensures Allocated(BlockExtents(old(b.live)), BlockExtents(b.live), n, addr)
    ensures addr != 0 <==> 1 <= n <= HEAP_SIZE && Fits(old(b.live), b.maxOrder, n)
  {
    hide BuddyManager.Linked, Listed, Tagged, Canonical, Fits, Proper, Clear, LeastOrder, Tiling, TotalBytes, Pow2;
    ghost var free, live, top := b.free, b.live, b.maxOrder;
    assert Shape(free, live, {}, top);
    addr := b.AllocMemory(n);
    if addr != 0 {
      BuddyAllocated(free, live, top, b.BlockAt(addr), n);
    }
  }

  method AllocBitmap(m: M.BitmapManager, n: nat) returns (addr: nat)
    requires m.Valid() && Request(n)
    modifies m, m.bitmap
    ensures m.Valid()
    ensures Allocated(RunExtents(old(m.live)), RunExtents(m.live), n, addr)
    ensures addr != 0 <==> RunFits(old(m.bitmap[..]), n)
  {
    hide B.Represents, B.FreeRun, B.Marked;
    ghost var cells, live, current := m.bitmap[..], m.live, m.current;
    M.TruncatedRequest(n);
    addr := m.AllocMemory(n);
    if addr != 0 {
      ghost var k := M.SizeToBlockQty(n);
      ghost var idx: nat :|
        && addr == M.AddressOf(idx) && M.NextFit(cells, current, k, idx)
        && m.live == live + {B.Run(idx, k)};
      BitmapAllocated(cells, live, idx, k, n);
    }
  }

  method FreeBuddy(b: BuddyManager, addr: nat)
    requires b.Valid() && (addr != 0 ==> exists e :: e in BlockExtents(b.live) && e.addr == addr)
    modifies b, b.freeBlocks
    ensures b.Valid() && b.maxOrder == old(b.maxOrder)
    ensures addr == 0 ==> b.live == old(b.live)
    ensures forall e :: addr != 0 && e in BlockExtents(old(b.live)) && e.addr == addr ==>
              && BlockExtents(b.live) == BlockExtents(old(b.live)) - {e}
              && forall n :: 1 <= n <= e.len && n <= HEAP_SIZE ==> Fits(b.live, b.maxOrder, n)
  {
    hide BuddyManager.Valid, BuddyManager.Freeable, Fits;
    if addr == 0 {
      b.FreeMemory(0) by { NullFreeable(b); }
      return;
    }
    ghost var l := OwnedBlock(b, addr);
    ghost var live, top := b.live, b.maxOrder;
    b.FreeMemory(addr);
    ReleasedServes(b, live, l);
  }

  lemma NullFreeable(b: BuddyManager)
    ensures b.Freeable(0)
  {
  }

  /** The live block behind an owned address. */
  lemma OwnedBlock(b: BuddyManager, addr: nat) returns (l: Block)
    requires b.Valid() && addr != 0 && exists e :: e in BlockExtents(b.live) && e.addr == addr
    ensures l in b.live && BlockExtent(l).addr == addr && b.Freeable(addr) && b.BlockAt(addr) == l
    ensures BlockExtents(b.live - {l}) == BlockExtents(b.live) - {BlockExtent(l)}
    ensures forall e :: e in BlockExtents(b.live) && e.addr == addr ==> e == BlockExtent(l)
    ensures Proper(l, b.maxOrder) && Clear(l, b.live - {l})
  {
    hide BuddyManager.Linked, Listed, Tagged, Canonical, Tiling, TotalBytes, Pow2, Proper, Clear;
    var e :| e in BlockExtents(b.live) && e.addr == addr;
    l :| l in b.live && e == BlockExtent(l);
    b.HeaderOf(l, {});
    BuddyReleased(b.free, b.live, b.maxOrder, l);
    LiveBlocksApart(b.free, b.live, b.maxOrder);
    LiveProper(b.free, b.live, b.maxOrder, l);
    ClearOfOthers(b.free, b.live, b.maxOrder, l);
  }

  lemma ClearOfOthers(free: set<Block>, live: set<Block>, top: nat, l: Block)
    requires Shape(free, live, {}, top) && l in live
    ensures Clear(l, live - {l})
  {
    forall m | m in live - {l} ensures !Overlap(l, m) {
      assert l in free + live + {} && m in free + live + {};
    }
  }

  lemma ReleasedServes(b: BuddyManager, live: set<Block>, l: Block)
    requires b.live == live - {l} && Proper(l, b.maxOrder) && Clear(l, live - {l})
    ensures forall n :: 1 <= n <= BlockExtent(l).len ==> Fits(b.live, b.maxOrder, n)
  {
    BlockSize(l, b.maxOrder);
    forall n | 1 <= n <= BlockExtent(l).len ensures Fits(b.live, b.maxOrder, n) {
      BlockServes(b.live, b.maxOrder, l, n);
    }
  }

  method FreeBitmap(m: M.BitmapManager, addr: nat)
    requires m.Valid() && (addr != 0 ==> exists e :: e in RunExtents(m.live) && e.addr == addr)
    modifies m, m.bitmap
    ensures m.Valid()
    ensures addr == 0 ==> m.live == old(m.live)
    ensures forall e :: addr != 0 && e in RunExtents(old(m.live)) && e.addr == addr ==>
              && RunExtents(m.live) == RunExtents(old(m.live)) - {e}
              && forall n :: 1 <= n <= e.len ==> RunFits(m.bitmap[..], n)
  {
    hide B.Represents, B.FreeRun, B.Cleared, M.SizeToBlockQty;
    if addr == 0 {
      m.FreeMemory(0);
      return;
    }
    ghost var r := OwnedRun(m, addr);
    ghost var cells := m.bitmap[..];
    m.FreeMemory(addr);
    forall n | 1 <= n <= RunExtent(r).len ensures RunFits(m.bitmap[..], n) {
      RunServes(m.bitmap[..], r, n);
    }
  }

  lemma OwnedRun(m: M.BitmapManager, addr: nat) returns (r: B.Run)
    requires m.Valid() && addr != 0 && exists e :: e in RunExtents(m.live) && e.addr == addr
    ensures m.StartsAt(r, addr) && addr < M.AddressOf(M.BLOCK_QTY)
    ensures RunExtents(m.live - {r}) == RunExtents(m.live) - {RunExtent(r)}
    ensures forall e :: e in RunExtents(m.live) && e.addr == addr ==> e == RunExtent(r)
    ensures B.FreeRun(B.Cleared(m.bitmap[..], r.idx, r.len), r.idx, r.len)
  {
    var e :| e in RunExtents(m.live) && e.addr == addr;
    r :| r in m.live && e == RunExtent(r);
    assert B.Coded(m.bitmap[..], r);
    BitmapReleased(m.bitmap[..], m.live, r);
    LiveRunsApart(m.bitmap[..], m.live);
    B.ClearedRepresents(m.bitmap[..], m.live, r);
  }
}
