/**
 Whole histories of the buddy allocator: a client that replays any script of
 requests, freeing only addresses it was given.
 */
module BuddyHistories {
  import opened Powers
  import opened Sequences
  import opened HeapLayout
  import opened BuddyBlocks
  import opened BuddyAllocator

  /** One client request; `Free(slot)` releases the slot-th address still held, if there is one. */
  datatype Request = Alloc(size: nat) | Free(slot: nat)

  function AddressOf(b: Block): nat { HEAP_START + b.pos + HEADER_SIZE }

  /** The client holds exactly the payload addresses of the live blocks, each once. */
  ghost predicate HoldsLive(live: set<Block>, held: seq<nat>) {
    && Distinct(held)
    && (forall b :: b in live ==> AddressOf(b) in held)
    && (forall a :: a in held ==> exists b :: b in live && AddressOf(b) == a)
  }

  lemma HoldsMore(live: set<Block>, held: seq<nat>, b: Block)
    requires HoldsLive(live, held) && AddressOf(b) !in held
    ensures HoldsLive(live + {b}, held + [AddressOf(b)])
  {
    forall a | a in held + [AddressOf(b)] ensures exists c :: c in live + {b} && AddressOf(c) == a {
      if a == AddressOf(b) { assert b in live + {b}; } else {
        var c :| c in live && AddressOf(c) == a;
        assert c in live + {b};
      }
    }
  }

  lemma HoldsFewer(live: set<Block>, held: seq<nat>, b: Block)
    requires HoldsLive(live, held) && b in live
    requires forall c :: c in live && c.pos == b.pos ==> c == b
    ensures HoldsLive(live - {b}, Without(held, AddressOf(b)))
  {
    WithoutMembers(held, AddressOf(b));
    forall a | a in Without(held, AddressOf(b)) ensures exists c :: c in live - {b} && AddressOf(c) == a {
      var c :| c in live && AddressOf(c) == a;
      assert c in live - {b};
    }
  }

  /** Equal live blocks imply equal free blocks, whatever led to the two states. */
  lemma SameLiveSameFree(a: BuddyManager, b: BuddyManager)
    requires a.Valid() && b.Valid()
    requires a.maxOrder == b.maxOrder && a.live == b.live
    ensures a.free == b.free
  {
    assert a.free + a.live + {} == a.free + a.live;
    assert b.free + b.live + {} == b.free + b.live;
    FreeDetermined(a.free, b.free, a.live, a.maxOrder);
  }

  /** When nothing is live the heap is again one free block of the top order. */
  lemma DrainedIsWhole(m: BuddyManager)
    requires m.Valid() && m.live == {}
    ensures m.free == {Block(0, m.maxOrder)}
  {
    assert m.free + m.live + {} == m.free;
    EmptyHeapIsWhole(m.free, m.maxOrder);
  }

  lemma LiveBlockAt(m: BuddyManager, b: Block)
    requires m.Valid() && b in m.live
    ensures b.pos >= 0 && AddressOf(b) != 0 && m.Freeable(AddressOf(b)) && m.BlockAt(AddressOf(b)) == b
  {
    m.HeaderOf(b, {});
  }

  lemma LivePositions(m: BuddyManager, b: Block)
    requires m.Valid() && b in m.live
    ensures forall c :: c in m.live && c.pos == b.pos ==> c == b
  {
    forall c | c in m.live && c.pos == b.pos ensures c == b {
      SamePosition(m.free + m.live + {}, m.maxOrder, c, b);
    }
  }

  /** A block clear of the live ones starts at none of their positions. */
  lemma ClearPosition(live: set<Block>, b: Block, held: seq<nat>)
    requires Clear(b, live) && HoldsLive(live, held)
    ensures AddressOf(b) !in held
  {
    forall c | c in live ensures AddressOf(c) != AddressOf(b) {
      assert !Overlap(b, c);
    }
  }

  method Serve(m: BuddyManager, held: seq<nat>, request: Request) returns (held': seq<nat>)
    requires m.Valid() && HoldsLive(m.live, held)
    modifies m, m.freeBlocks
    ensures m.Valid() && HoldsLive(m.live, held') && m.maxOrder == old(m.maxOrder)
  {
    hide HoldsLive, LeastOrder, Proper, Clear, Fits, BuddyManager.Valid, BuddyManager.Consistent;
    held' := held;
    match request {
      case Alloc(size) =>
        ghost var live := m.live;
        var addr := m.AllocMemory(size);
        if addr != 0 {
          ghost var b := m.BlockAt(addr);
          ClearPosition(live, b, held);
          HoldsMore(live, held, b);
          held' := held + [addr];
        }
      case Free(slot) =>
        if slot < |held| {
          ghost var b := HeldBlock(m, held, slot);
          m.FreeMemory(held[slot]);
          held' := Without(held, held[slot]);
        }
    }
  }

  lemma HeldBlock(m: BuddyManager, held: seq<nat>, slot: nat) returns (b: Block)
    requires m.Valid() && HoldsLive(m.live, held) && slot < |held|
    ensures b in m.live && held[slot] != 0 && m.Freeable(held[slot]) && m.BlockAt(held[slot]) == b
    ensures HoldsLive(m.live - {b}, Without(held, held[slot]))
  {
    hide BuddyManager.Valid, BuddyManager.Consistent, BuddyManager.Freeable, BuddyManager.BlockAt;
    var a := held[slot];
    assert a in held;
    b :| b in m.live && AddressOf(b) == a;
    LiveBlockAt(m, b);
    LivePositions(m, b);
    HoldsFewer(m.live, held, b);
  }

  /** Every history from a fresh heap keeps the invariant; a client that holds nothing left the heap whole. */
  method Replay(size: nat, script: seq<Request>) returns (m: BuddyManager, held: seq<nat>)
    requires 32 < size <= 0x2000_0000
    ensures fresh(m) && fresh(m.freeBlocks) && m.Valid()
    ensures Pow2(m.maxOrder) >= size && Pow2(m.maxOrder - 1) < size
    ensures HoldsLive(m.live, held)
    ensures held == [] ==> m.free == {Block(0, m.maxOrder)} && m.usedMem == 0
  {
    hide BuddyManager.Consistent, BuddyManager.Valid, HoldsLive, Pow2;
    m := new BuddyManager(size);
    held := [];
    NothingHeld(m.live);
    ghost var top := m.maxOrder;
    for i := 0 to |script|
      invariant fresh(m) && fresh(m.freeBlocks) && m.Valid() && m.maxOrder == top
      invariant HoldsLive(m.live, held)
    {
      held := Serve(m, held, script[i]);
    }
    if held == [] {
      NothingHeldInverse(m);
    }
  }

  lemma NothingHeld(live: set<Block>)
    requires live == {}
    ensures HoldsLive(live, [])
  {
  }

  lemma NothingHeldInverse(m: BuddyManager)
    requires m.Valid() && HoldsLive(m.live, [])
    ensures m.live == {} && m.free == {Block(0, m.maxOrder)} && m.usedMem == 0
  {
    assert forall b :: b in m.live ==> AddressOf(b) in [];
    DrainedIsWhole(m);
  }

  /** Any two histories that end with the same live blocks end with the same free blocks. */
  method TwoHistories(size: nat, script1: seq<Request>, script2: seq<Request>)
    returns (a: BuddyManager, b: BuddyManager)
    requires 32 < size <= 0x2000_0000
    ensures a.Valid() && b.Valid() && a.maxOrder == b.maxOrder
    ensures a.live == b.live ==> a.free == b.free && a.usedMem == b.usedMem
  {
    hide BuddyManager.Consistent, HoldsLive, Pow2;
    var held1, held2;
    a, held1 := Replay(size, script1);
    b, held2 := Replay(size, script2);
    SameOrder(a.maxOrder, b.maxOrder, size);
    if a.live == b.live {
      SameLiveSameFree(a, b);
    }
  }

  lemma SameOrder(m: nat, n: nat, size: nat)
    requires size > 32 && Pow2(m) >= size && Pow2(n) >= size
    requires (m > 0 ==> Pow2(m - 1) < size) && (n > 0 ==> Pow2(n - 1) < size)
    ensures m == n
  {
    if m < n { Pow2Mono(m, n - 1); }
    if n < m { Pow2Mono(n, m - 1); }
  }

  /** Freeing what was just allocated restores both the live and the free blocks. */
  method AllocThenFree(m: BuddyManager, size: nat)
    requires m.Valid()
    modifies m, m.freeBlocks
    ensures m.Valid() && m.live == old(m.live) && m.free == old(m.free)
  {
    hide LeastOrder, Proper, Clear, Fits, BuddyManager.Linked, Listed, Tagged, Tiling, Canonical, TotalBytes;
    ghost var free0, live0, top := m.free, m.live, m.maxOrder;
    var addr := m.AllocMemory(size);
    if addr != 0 {
      ghost var b := m.BlockAt(addr);
      LiveBlockAt(m, b);
    }
    m.FreeMemory(addr);
    assert m.live == live0;
    assert m.free + m.live + {} == m.free + m.live && free0 + live0 + {} == free0 + live0;
    FreeDetermined(m.free, free0, live0, top);
  }
}
