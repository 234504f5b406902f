/**
 The buddy memory manager: block headers written in place at computed
 positions, one intrusive free list per order, splitting on allocation and
 merging with the exclusive-or buddy on release.
 */
module BuddyAllocator {
  import opened Powers
  import opened Sequences
  import opened BuddyBlocks
  import opened HeapLayout

  const MAX_ORDER: nat := 30
  /** sizeof(block_t): two bytes of tags padded to eight, and a pointer. */
  const HEADER_SIZE: nat := 16
  const NULL: int := -1

  datatype Status = FREE | OCCUPIED

  datatype Header = Header(order: nat, status: Status, next: int)

  /** Contents of the header positions ever written, stale ones included. */
  type Memory = map<nat, Header>

  // ---- free lists -------------------------------------------------------

  /** Starting from `head`, the `next` fields spell out exactly `s` and then NULL. */
  ghost predicate Chain(h: Memory, head: int, s: seq<nat>, o: nat) {
    && head == Entry(s, 0, NULL)
    && Distinct(s)
    && forall i :: 0 <= i < |s| ==> s[i] in h && h[s[i]] == Header(o, FREE, Entry(s, i + 1, NULL))
  }

  ghost predicate Chains(h: Memory, heads: seq<int>, lists: seq<seq<nat>>) {
    && |heads| == |lists| == MAX_ORDER
    && forall o :: 0 <= o < MAX_ORDER ==> Chain(h, heads[o], lists[o], o)
  }

  lemma ChainFrame(h: Memory, h': Memory, head: int, s: seq<nat>, o: nat)
    requires Chain(h, head, s, o)
    requires forall p :: p in s ==> p in h' && p in h && h'[p] == h[p]
    ensures Chain(h', head, s, o)
  {
    forall i | 0 <= i < |s| ensures s[i] in h' && h'[s[i]] == Header(o, FREE, Entry(s, i + 1, NULL)) {
      assert s[i] in s;
    }
  }

  /** Only list `o` and headers outside the other lists changed. */
  lemma ChainsUpdate(h: Memory, h': Memory, heads: seq<int>, lists: seq<seq<nat>>, o: nat, head: int, s: seq<nat>)
    requires Chains(h, heads, lists) && o < MAX_ORDER
    requires Chain(h', head, s, o)
    requires forall q, p :: 0 <= q < MAX_ORDER && q != o && p in lists[q] ==> p in h' && p in h && h'[p] == h[p]
    ensures Chains(h', heads[o := head], lists[o := s])
  {
    var heads', lists' := heads[o := head], lists[o := s];
    forall q | 0 <= q < MAX_ORDER ensures Chain(h', heads'[q], lists'[q], q) {
      if q != o { ChainFrame(h, h', heads[q], lists[q], q); }
    }
  }

  lemma ChainPush(h: Memory, head: int, s: seq<nat>, o: nat, p: nat)
    requires Chain(h, head, s, o) && p !in s
    ensures Chain(h[p := Header(o, FREE, head)], p, [p] + s, o)
  {
    var h', s' := h[p := Header(o, FREE, head)], [p] + s;
    forall i | 0 <= i < |s'| ensures s'[i] in h' && h'[s'[i]] == Header(o, FREE, Entry(s', i + 1, NULL)) {
      if i > 0 { assert s'[i] == s[i - 1] && s[i - 1] in s; }
    }
  }

  lemma ChainPop(h: Memory, h': Memory, head: int, s: seq<nat>, o: nat)
    requires Chain(h, head, s, o) && s != []
    requires forall p :: p in s[1..] ==> p in h' && p in h && h'[p] == h[p]
    ensures Chain(h', h[s[0]].next, s[1..], o)
  {
    var t := s[1..];
    forall i | 0 <= i < |t| ensures t[i] in h' && h'[t[i]] == Header(o, FREE, Entry(t, i + 1, NULL)) {
      assert t[i] in t && t[i] == s[i + 1];
    }
  }

  /** Unlinking `s[i]` from behind its predecessor. */
  lemma ChainCut(h: Memory, h': Memory, head: int, s: seq<nat>, o: nat, i: nat)
    requires Chain(h, head, s, o) && 0 < i < |s|
    requires s[i - 1] in h' && h'[s[i - 1]] == h[s[i - 1]].(next := h[s[i]].next)
    requires forall p :: p in s && p != s[i - 1] && p != s[i] ==> p in h' && p in h && h'[p] == h[p]
    ensures Chain(h', head, s[..i] + s[i + 1..], o)
  {
    var t := s[..i] + s[i + 1..];
    CutMembers(s, i);
    forall j | 0 <= j < |t| ensures t[j] in h' && h'[t[j]] == Header(o, FREE, Entry(t, j + 1, NULL)) {
      CutEntry(s, i, j, NULL);
      var k := if j < i then j else j + 1;
      assert s[k] in s;
      if k != i - 1 { assert s[k] != s[i - 1] && s[k] != s[i]; }
    }
  }

  // ---- lists against sets of blocks -------------------------------------

  /** List `o` holds exactly the positions of the free blocks of order `o`. */
  ghost predicate Listed(lists: seq<seq<nat>>, free: set<Block>) {
    && |lists| == MAX_ORDER
    && (forall b :: b in free ==> b.order < MAX_ORDER && b.pos in lists[b.order])
    && (forall o, p :: 0 <= o < MAX_ORDER && p in lists[o] ==> Block(p, o) in free)
  }

  lemma ListedPush(lists: seq<seq<nat>>, free: set<Block>, b: Block)
    requires Listed(lists, free) && b.order < MAX_ORDER
    ensures Listed(lists[b.order := [b.pos] + lists[b.order]], free + {b})
  {
  }

  lemma ListedRemove(lists: seq<seq<nat>>, free: set<Block>, b: Block)
    requires Listed(lists, free) && b.order < MAX_ORDER && Distinct(lists[b.order])
    ensures Listed(lists[b.order := Without(lists[b.order], b.pos)], free - {b})
  {
    WithoutMembers(lists[b.order], b.pos);
  }

  /** Every block of the set has a header with its order and the given status. */
  ghost predicate Tagged(h: Memory, bs: set<Block>, st: Status) {
    forall b :: b in bs ==> b.pos in h && h[b.pos].order == b.order && h[b.pos].status == st
  }

  // ---- the geometry of a state ------------------------------------------

  /** Free, live and in-transit blocks are disjoint sets that tile the region. */
  ghost predicate Shape(free: set<Block>, live: set<Block>, moving: set<Block>, top: nat) {
    && MIN_ORDER <= top < MAX_ORDER
    && free !! live && free !! moving && live !! moving
    && Tiling(free + live + moving, top)
    && TotalBytes(free) + TotalBytes(live) + TotalBytes(moving) == Pow2(top)
  }

  /** Two blocks of one tiling that start at the same position are the same block. */
  lemma SamePosition(bs: set<Block>, top: nat, a: Block, b: Block)
    requires Tiling(bs, top) && a in bs && b in bs && a.pos == b.pos
    ensures a == b
  {
    assert Overlap(a, b);
  }

  lemma WholeShape(top: nat)
    requires MIN_ORDER <= top < MAX_ORDER
    ensures Shape({Block(0, top)}, {}, {}, top) && Canonical({Block(0, top)}, top)
  {
    var b := Block(0, top);
    SingleTotal(b);
    forall x: int | 0 <= x < Pow2(top) ensures Covered({b}, x) {
      assert Covers(b, x);
    }
    assert {b} + {} + {} == {b};
  }

  lemma SingleTotal(b: Block)
    ensures TotalBytes({b}) == Bytes(b)
  {
    TotalBytesRemove({b}, b);
    assert {b} - {b} == {};
  }

  lemma PairTotal(a: Block, b: Block)
    requires a != b
    ensures TotalBytes({a, b}) == Bytes(a) + Bytes(b)
  {
    SingleTotal(a);
    TotalBytesAdd({a}, b);
    assert {a} + {b} == {a, b};
  }

  lemma WithdrawShape(free: set<Block>, live: set<Block>, moving: set<Block>, top: nat, b: Block)
    requires Shape(free, live, moving, top) && b in free
    ensures Shape(free - {b}, live, moving + {b}, top)
  {
    TotalBytesRemove(free, b);
    TotalBytesAdd(moving, b);
    assert free - {b} + live + (moving + {b}) == free + live + moving;
  }

  lemma DepositShape(free: set<Block>, live: set<Block>, moving: set<Block>, top: nat, b: Block)
    requires Shape(free, live, moving, top) && b in moving
    ensures Shape(free + {b}, live, moving - {b}, top)
  {
    TotalBytesRemove(moving, b);
    TotalBytesAdd(free, b);
    assert free + {b} + live + (moving - {b}) == free + live + moving;
  }

  lemma HandOutShape(free: set<Block>, live: set<Block>, top: nat, b: Block)
    requires Shape(free, live, {b}, top)
    ensures Shape(free, live + {b}, {}, top)
    ensures TotalBytes(live + {b}) == TotalBytes(live) + Bytes(b)
  {
    SingleTotal(b);
    TotalBytesAdd(live, b);
    assert free + (live + {b}) + {} == free + live + {b};
  }

  lemma ReleaseShape(free: set<Block>, live: set<Block>, top: nat, b: Block)
    requires Shape(free, live, {}, top) && b in live
    ensures Shape(free, live - {b}, {b}, top)
    ensures TotalBytes(live - {b}) == TotalBytes(live) - Bytes(b)
  {
    TotalBytesRemove(live, b);
    SingleTotal(b);
    assert free + (live - {b}) + {b} == free + live + {};
  }

  lemma ReplaceSets<T>(rest: set<T>, a: set<T>, b: set<T>)
    requires rest !! a
    ensures rest + a - a + b == rest + b
  {
  }

  lemma SplitShape(free: set<Block>, live: set<Block>, top: nat, b: Block)
    requires Shape(free, live, {b}, top) && b.order > MIN_ORDER
    ensures Shape(free, live, {LeftHalf(b), RightHalf(b)}, top)
  {
    hide Tiling, Pow2, TotalBytes;
    var l, r := LeftHalf(b), RightHalf(b);
    var rest := free + live;
    HalvesBytes(b);
    SplitTiling(rest + {b}, top, b);
    ReplaceSets(rest, {b}, {l, r});
    SingleTotal(b);
    PairTotal(l, r);
  }

  lemma HalvesBytes(b: Block)
    requires b.order > 0
    ensures LeftHalf(b) != RightHalf(b)
    ensures Pow2(b.order) == 2 * Pow2(b.order - 1)
  {
  }

  lemma ParentBytes(b: Block, bs: set<Block>, top: nat)
    requires Tiling(bs, top) && b in bs && b.order < top
    ensures BuddyOf(b) != b
    ensures Pow2(ParentOf(b).order) == 2 * Pow2(b.order)
  {
    BuddyProper(b, top);
  }

  lemma MergeShape(free: set<Block>, live: set<Block>, top: nat, b: Block)
    requires Shape(free, live, {b, BuddyOf(b)}, top) && b.order < top
    ensures Shape(free, live, {ParentOf(b)}, top)
  {
    hide Tiling, Pow2, TotalBytes, Xor;
    var c, p := BuddyOf(b), ParentOf(b);
    var rest := free + live;
    ParentBytes(b, rest + {b, c}, top);
    MergeTiling(rest + {b, c}, top, b);
    ReplaceSets(rest, {b, c}, {p});
    SingleTotal(p);
    PairTotal(b, c);
  }

  /** Adding a block whose buddy is not free keeps the free set canonical. */
  lemma SettleCanonical(free: set<Block>, top: nat, b: Block)
    requires Canonical(free, top) && Proper(b, top)
    requires forall f :: f in free ==> Proper(f, top)
    requires b.order < top ==> BuddyOf(b) !in free
    ensures Canonical(free + {b}, top)
  {
    forall f | f in free + {b} && f.order < top ensures BuddyOf(f) !in free + {b} {
      BuddyProper(f, top);
    }
  }

  lemma CanonicalSubset(free: set<Block>, top: nat, b: Block)
    requires Canonical(free, top)
    ensures Canonical(free - {b}, top)
  {
  }

  /** Splitting the one block that may break canonicity hands that role to its left half. */
  lemma SplitCanonical(free: set<Block>, live: set<Block>, top: nat, b: Block)
    requires Shape(free, live, {}, top) && b in free && b.order > MIN_ORDER
    requires Canonical(free - {b}, top)
    ensures Canonical(free - {b} + {LeftHalf(b), RightHalf(b)} - {LeftHalf(b)}, top)
  {
    var l, r := LeftHalf(b), RightHalf(b);
    var rest := free - {b};
    HalvesProper(b, top);
    HalvesCover(b, b.pos);
    assert Overlap(l, b) && Overlap(r, b);
    assert l !in free && r !in free;
    SettleCanonical(rest, top, r);
    assert free - {b} + {l, r} - {l} == rest + {r};
  }

  // ---- requests ---------------------------------------------------------

  /** `k` is the smallest order, not below the minimum, whose blocks hold `size` bytes and a header. */
  predicate LeastOrder(k: nat, size: nat) {
    && k >= MIN_ORDER
    && Pow2(k) >= size + HEADER_SIZE
    && (k > MIN_ORDER ==> Pow2(k - 1) < size + HEADER_SIZE)
  }

  lemma LeastOrderUnique(k: nat, j: nat, size: nat)
    requires LeastOrder(k, size) && LeastOrder(j, size)
    ensures k == j
  {
    if k < j { Pow2Mono(k, j - 1); }
    if j < k { Pow2Mono(j, k - 1); }
  }

  lemma LeastOrderBound(k: nat, size: nat)
    requires LeastOrder(k, size) && size <= HEAP_SIZE
    ensures MIN_ORDER <= k < MAX_ORDER
  {
    Pow2Of29();
    if k >= MAX_ORDER { Pow2Mono(29, k - 1); }
  }

  /** Some aligned range of the needed order is clear of live blocks. */
  ghost predicate Fits(live: set<Block>, top: nat, size: nat) {
    exists b :: Proper(b, top) && LeastOrder(b.order, size) && Clear(b, live)
  }

  /** A canonical heap with room for the request has a free block at least that large. */
  lemma FitsHasFree(free: set<Block>, live: set<Block>, top: nat, size: nat, k: nat) returns (f: Block)
    requires Shape(free, live, {}, top) && Canonical(free, top)
    requires LeastOrder(k, size) && Fits(live, top, size)
    ensures f in free && f.order >= k
  {
    var b :| Proper(b, top) && LeastOrder(b.order, size) && Clear(b, live);
    LeastOrderUnique(b.order, k, size);
    assert free + live + {} == free + live;
    f := ClearInsideFree(free, live, top, b);
  }

  lemma FreeIsClear(free: set<Block>, live: set<Block>, top: nat, b: Block)
    requires Shape(free, live, {}, top) && b in free
    ensures Proper(b, top) && Clear(b, live)
  {
    assert forall l :: l in live && Overlap(b, l) ==> b == l;
  }

  /** `f` is a smallest free block of at least this order. */
  ghost predicate BestFit(free: set<Block>, order: nat, f: Block) {
    f in free && f.order >= order && forall g :: g in free && g.order >= order ==> g.order >= f.order
  }

  /** What unlinking `block` does to headers: only its own status and some `next` fields change. */
  ghost predicate Unlinked(h: Memory, h': Memory, block: nat, wasListed: bool) {
    && h'.Keys == h.Keys
    && (forall p :: p in h ==> h'[p].order == h[p].order)
    && (forall p :: p in h && p != block ==> h'[p].status == h[p].status)
    && (block in h && wasListed ==> h'[block].status == OCCUPIED)
    && (!wasListed ==> h' == h)
  }

  /** Taking the head of list `o`. */
  lemma PopChains(h: Memory, heads: seq<int>, lists: seq<seq<nat>>, o: nat)
    requires Chains(h, heads, lists) && o < MAX_ORDER && lists[o] != []
    ensures var s := lists[o];
            var h' := h[s[0] := h[s[0]].(status := OCCUPIED)];
            && Chains(h', heads[o := h[s[0]].next], lists[o := Without(s, s[0])])
            && Unlinked(h, h', s[0], true)
  {
    var s := lists[o];
    assert Chain(h, heads[o], s, o);
    var h' := h[s[0] := h[s[0]].(status := OCCUPIED)];
    assert Without(s, s[0]) == s[1..];
    ChainPop(h, h', heads[o], s, o);
    ChainsUpdate(h, h', heads, lists, o, h[s[0]].next, s[1..]);
  }

  /** The two header writes that unlink `s[i]`, `i > 0`, from list `o`. */
  function CutWrites(h: Memory, prev: nat, block: nat): Memory
    requires prev in h && block in h
  {
    var h1 := h[prev := h[prev].(next := h[block].next)];
    h1[block := h1[block].(status := OCCUPIED)]
  }

  lemma CutChains(h: Memory, heads: seq<int>, lists: seq<seq<nat>>, o: nat, i: nat)
    requires Chains(h, heads, lists) && o < MAX_ORDER && 0 < i < |lists[o]|
    ensures var s := lists[o];
            && s[i - 1] in h && s[i] in h
            && Chains(CutWrites(h, s[i - 1], s[i]), heads, lists[o := Without(s, s[i])])
            && Unlinked(h, CutWrites(h, s[i - 1], s[i]), s[i], true)
  {
    var s := lists[o];
    assert Chain(h, heads[o], s, o);
    var h' := CutWrites(h, s[i - 1], s[i]);
    assert s[i] !in s[..i] && s[i - 1] != s[i];
    WithoutAt(s, i);
    ChainCut(h, h', heads[o], s, o, i);
    CutFrame(h, heads, lists, o, i);
    hide Chain;
    ChainsUpdate(h, h', heads, lists, o, heads[o], s[..i] + s[i + 1..]);
    assert heads[o := heads[o]] == heads;
  }

  /** Headers in the other lists are not the ones written. */
  lemma CutFrame(h: Memory, heads: seq<int>, lists: seq<seq<nat>>, o: nat, i: nat)
    requires Chains(h, heads, lists) && o < MAX_ORDER && 0 < i < |lists[o]|
    requires lists[o][i - 1] in h && lists[o][i] in h
    ensures forall q, p :: 0 <= q < MAX_ORDER && q != o && p in lists[q] ==>
              p in h && p in CutWrites(h, lists[o][i - 1], lists[o][i])
              && CutWrites(h, lists[o][i - 1], lists[o][i])[p] == h[p]
  {
    assert Chain(h, heads[o], lists[o], o);
    forall q, p | 0 <= q < MAX_ORDER && q != o && p in lists[q]
      ensures p in h && p != lists[o][i - 1] && p != lists[o][i]
    {
      assert Chain(h, heads[q], lists[q], q);
    }
  }

  class BuddyManager {
    var maxOrder: nat
    const freeBlocks: array<int>
    var totalMem: nat
    var usedMem: int
    var headers: Memory

    /** The position sequences of the free lists. */
    ghost var lists: seq<seq<nat>>
    /** The free blocks, and the blocks handed out and not yet released. */
    ghost var free: set<Block>
    ghost var live: set<Block>

    ghost predicate Linked()
      reads this, freeBlocks
    {
      freeBlocks.Length == MAX_ORDER && Chains(headers, freeBlocks[..], lists)
    }

    /** The representation invariant while the blocks of `moving` are in transit. */
    ghost predicate Consistent(moving: set<Block>)
      reads this, freeBlocks
    {
      && Linked()
      && Listed(lists, free)
      && Tagged(headers, live, OCCUPIED)
      && Shape(free, live, moving, maxOrder)
    }

    /** What holds between operations. */
    ghost predicate Valid()
      reads this, freeBlocks
    {
      && Consistent({})
      && Canonical(free, maxOrder)
      && usedMem == TotalBytes(live)
      && totalMem == Pow2(maxOrder)
    }

    method CreateBlock(pos: nat, order: nat)
      requires Linked() && order < MAX_ORDER
      requires forall o :: 0 <= o < MAX_ORDER ==> pos !in lists[o]
      modifies this`headers, this`lists, freeBlocks
      ensures Linked()
      ensures lists == old(lists)[order := [pos] + old(lists)[order]]
      ensures headers == old(headers)[pos := Header(order, FREE, old(freeBlocks[order]))]
    {
      ghost var heads := freeBlocks[..];
      ghost var h := headers;
      headers := headers[pos := Header(order, FREE, freeBlocks[order])];
      freeBlocks[order] := pos;
      ChainPush(h, heads[order], lists[order], order, pos);
      ChainsUpdate(h, headers, heads, lists, order, pos, [pos] + lists[order]);
      assert freeBlocks[..] == heads[order := pos];
      lists := lists[order := [pos] + lists[order]];
    }

    /** Unlinks `block` from the list of its order, if it is there, and marks it OCCUPIED. */
    method RemoveBlock(block: nat)
      requires Linked()
      requires block in headers && headers[block].order < MAX_ORDER
      modifies this`headers, this`lists, freeBlocks
      ensures Linked()
      ensures var o := old(headers[block].order);
              && lists == old(lists)[o := Without(old(lists)[o], block)]
              && Unlinked(old(headers), headers, block, block in old(lists)[o])
    {
      var order := headers[block].order;
      var curr := freeBlocks[order];
      ghost var heads, s := freeBlocks[..], lists[order];
      assert Chain(headers, heads[order], s, order);
      if curr == NULL {
        assert lists == lists[order := Without(s, block)];
        return;
      }
      if curr == block {
        PopChains(headers, heads, lists, order);
        headers := headers[curr := headers[curr].(status := OCCUPIED)];
        freeBlocks[order] := headers[curr].next;
        assert freeBlocks[..] == heads[order := headers[curr].next];
        lists := lists[order := Without(s, block)];
        return;
      }
      ghost var i := 0;
      while headers[curr].next != NULL && headers[curr].next != block
        invariant 0 <= i < |s| && curr == s[i] && block !in s[..i + 1]
        decreases |s| - i
      {
        curr := headers[curr].next;
        i := i + 1;
        assert s[..i + 1] == s[..i] + [s[i]];
      }
      if headers[curr].next == NULL {
        assert s[..i + 1] == s;
        WithoutAbsent(s, block);
        assert lists == lists[order := Without(s, block)];
        return;
      }
      CutChains(headers, heads, lists, order, i + 1);
      headers := headers[curr := headers[curr].(next := headers[headers[curr].next].next)];
      headers := headers[block := headers[block].(status := OCCUPIED)];
      lists := lists[order := Without(s, block)];
    }

    /** createMemoryManager: one free block of the least order that holds `size` bytes. */
    constructor (size: nat)
      requires 32 < size <= 0x2000_0000
      ensures Valid() && fresh(freeBlocks)
      ensures Pow2(maxOrder) >= size && Pow2(maxOrder - 1) < size
      ensures live == {} && free == {Block(0, maxOrder)}
    {
      var order, currentSize := 0, 1;
      while currentSize < size
        invariant currentSize == Pow2(order)
        invariant order > 0 ==> Pow2(order - 1) < size
        decreases 2 * size - currentSize
      {
        currentSize := currentSize * 2;
        order := order + 1;
      }
      OrderBounds(order, size);
      WholeShape(order);
      maxOrder, totalMem, usedMem := order, currentSize, 0;
      headers := map[];
      freeBlocks := new int[MAX_ORDER];
      lists := seq(MAX_ORDER, _ => []);
      live, free := {}, {Block(0, order)};
      new;
      for i := 0 to MAX_ORDER
        invariant forall j :: 0 <= j < i ==> freeBlocks[j] == NULL
        modifies freeBlocks
      {
        freeBlocks[i] := NULL;
      }
      CreateBlock(0, order);
    }

    lemma FirstIsFree(order: nat)
      requires Linked() && Listed(lists, free) && order < MAX_ORDER
      ensures freeBlocks.Length == |lists| == MAX_ORDER
      ensures freeBlocks[order] == NULL <==> lists[order] == []
      ensures lists[order] != [] ==> freeBlocks[order] == lists[order][0] && Block(lists[order][0], order) in free
    {
      assert Chain(headers, freeBlocks[..][order], lists[order], order);
    }

    /** remove_block on a listed block: it leaves the free set and is in transit. */
    method Withdraw(block: nat, ghost b: Block, ghost moving: set<Block>)
      requires Consistent(moving) && b in free && block == b.pos
      modifies this`headers, this`lists, this`free, freeBlocks
      ensures Consistent(moving + {b}) && free == old(free) - {b}
      ensures Unlinked(old(headers), headers, block, true)
    {
      assert Chain(headers, freeBlocks[..][b.order], lists[b.order], b.order);
      forall l | l in live ensures l.pos != block {
        if l.pos == block { SamePosition(free + live + moving, maxOrder, l, b); }
      }
      ListedRemove(lists, free, b);
      WithdrawShape(free, live, moving, maxOrder, b);
      RemoveBlock(block);
      free := free - {b};
    }

    /** create_block on a block in transit: it becomes the first free block of its order. */
    method Deposit(block: nat, order: nat, ghost moving: set<Block>)
      requires Consistent(moving) && Block(block, order) in moving
      modifies this`headers, this`lists, this`free, freeBlocks
      ensures Consistent(moving - {Block(block, order)}) && free == old(free) + {Block(block, order)}
      ensures order < |lists| && lists[order] != [] && lists[order][0] == block
      ensures lists[order] != [] && lists[order][0] == block
    {
      ghost var b := Block(block, order);
      forall t | t in free + live ensures t.pos != block {
        if t.pos == block { SamePosition(free + live + moving, maxOrder, t, b); }
      }
      ListedPush(lists, free, b);
      DepositShape(free, live, moving, maxOrder, b);
      CreateBlock(block, order);
      free := free + {b};
    }

    /** Some block of `order` is free, and only the first of them may have a free buddy. */
    ghost predicate Ready(order: nat)
      reads this, freeBlocks
    {
      && Consistent({})
      && MIN_ORDER <= order <= maxOrder && lists[order] != []
      && Canonical(free - {Block(lists[order][0], order)}, maxOrder)
      && usedMem == TotalBytes(live)
      && totalMem == Pow2(maxOrder)
    }

    /** Replaces the first free block of `order` by its two halves, the left one listed first. */
    method SplitBlock(order: nat)
      requires Ready(order) && MIN_ORDER < order
      modifies this`headers, this`lists, this`free, freeBlocks
      ensures Ready(order - 1)
      ensures var b := Block(old(lists)[order][0], order);
              free == old(free) - {b} + {LeftHalf(b), RightHalf(b)}
              && order <= |lists| && lists[order - 1] != [] && lists[order - 1][0] == b.pos
    {
      hide Linked, Listed, Tagged, Tiling, TotalBytes, Canonical;
      FirstIsFree(order);
      var block := freeBlocks[order];
      ghost var b := Block(block, order);
      ghost var l, r := LeftHalf(b), RightHalf(b);
      SplitCanonical(free, live, maxOrder, b);
      Withdraw(block, b, {});
      assert {} + {b} == {b};
      SplitShape(free, live, maxOrder, b);
      var buddyBlock := block + Pow2(order - 1);
      Deposit(buddyBlock, order - 1, {l, r});
      assert {l, r} - {r} == {l};
      Deposit(block, order - 1, {l});
      assert {l} - {l} == {};
      assert free == old(free) - {b} + {l, r};
    }

    /** The order computation of allocMemory. */
    static method NeededOrder(size: nat) returns (order: nat)
      ensures LeastOrder(order, size)
    {
      order := 1;
      var blockSize := 2;
      while blockSize < size + HEADER_SIZE
        invariant order >= 1 && blockSize == Pow2(order)
        invariant order > 1 ==> Pow2(order - 1) < size + HEADER_SIZE
        decreases 2 * (size + HEADER_SIZE) - blockSize
      {
        order := order + 1;
        blockSize := blockSize * 2;
      }
      if MIN_ORDER > order {
        Pow2Mono(order, MIN_ORDER);
        order := MIN_ORDER;
      }
    }

    /** The first order above `order` with a free block, or 0. */
    method NextOrder(order: nat) returns (orderApprox: nat)
      requires Valid() && MIN_ORDER <= order < MAX_ORDER && |lists| == MAX_ORDER && lists[order] == []
      ensures orderApprox == 0 ==> forall f :: f in free ==> f.order < order
      ensures orderApprox != 0 ==> order < orderApprox < MAX_ORDER && lists[orderApprox] != []
      ensures orderApprox != 0 ==> forall o :: order <= o < orderApprox ==> lists[o] == []
    {
      hide Valid, Consistent, Ready;
      TopBound();
      orderApprox := 0;
      var i := order + 1;
      while i <= maxOrder && orderApprox == 0
        invariant order < i
        invariant orderApprox == 0 ==> forall o :: order <= o < i && o <= maxOrder ==> lists[o] == []
        invariant orderApprox != 0 ==> order < orderApprox <= maxOrder && lists[orderApprox] != []
        invariant orderApprox != 0 ==> forall o :: order <= o < orderApprox ==> lists[o] == []
        decreases maxOrder + 1 - i, orderApprox == 0
      {
        FirstIsReady(i);
        if freeBlocks[i] != NULL {
          orderApprox := i;
        }
        i := i + 1;
      }
      if orderApprox == 0 {
        NoneAtLeast(order);
      }
    }

    /** `f` is the first block of the first nonempty list from `order` on. */
    ghost predicate FirstBest(order: nat, f: Block)
      reads this
    {
      && order <= f.order < |lists| && lists[f.order] != [] && f.pos == lists[f.order][0]
      && forall o :: order <= o < f.order ==> lists[o] == []
    }

    /** That block is a smallest one that is large enough. */
    lemma FirstBestFits(order: nat, f: Block)
      requires Valid() && FirstBest(order, f)
      ensures BestFit(free, order, f)
    {
      hide Tiling, Chains, Tagged, Canonical, TotalBytes;
    }

    /**
     Makes the list of `order` nonempty, when any large enough block is free, by
     splitting the best fit `f`: the block offered starts where `f` starts.
     */
    method Provide(order: nat) returns (ok: bool, ghost f: Block)
      requires Valid() && MIN_ORDER <= order < MAX_ORDER
      modifies this`headers, this`lists, this`free, freeBlocks
      ensures ok ==> Ready(order) && old(FirstBest(order, f))
      ensures ok ==> order < |lists| && lists[order] != [] && lists[order][0] == f.pos
      ensures !ok ==> Valid() && free == old(free) && forall f :: f in free ==> f.order < order
    {
      hide Consistent, Valid, Ready;
      FirstIsReady(order);
      f := Block(0, 0);
      if freeBlocks[order] != NULL {
        f := Block(lists[order][0], order);
        return true, f;
      }
      var orderApprox := NextOrder(order);
      if orderApprox == 0 {
        return false, f;
      }
      FirstIsReady(orderApprox);
      f := Block(lists[orderApprox][0], orderApprox);
      while orderApprox > order
        invariant order <= orderApprox && Ready(orderApprox)
        invariant orderApprox < |lists| && lists[orderApprox] != [] && lists[orderApprox][0] == f.pos
      {
        SplitBlock(orderApprox);
        orderApprox := orderApprox - 1;
      }
      ok := true;
    }

    lemma TopBound()
      requires Valid()
      ensures MIN_ORDER <= maxOrder < MAX_ORDER
    {
    }

    lemma FirstIsReady(order: nat)
      requires Valid() && MIN_ORDER <= order < MAX_ORDER
      ensures freeBlocks.Length == |lists| == MAX_ORDER
      ensures freeBlocks[order] == NULL <==> lists[order] == []
      ensures lists[order] != [] ==> Ready(order)
    {
      FirstIsFree(order);
      if lists[order] != [] {
        var b := Block(lists[order][0], order);
        assert b in free + live + {};
        CanonicalSubset(free, maxOrder, b);
      }
    }

    lemma NoneAtLeast(order: nat)
      requires Valid() && order < MAX_ORDER
      requires forall o :: order <= o <= maxOrder && o < |lists| ==> lists[o] == []
      ensures forall f :: f in free ==> f.order < order
    {
      forall f | f in free ensures f.order < order {
        assert f in free + live + {};
        assert f.pos in lists[f.order];
      }
    }

    /** The block whose header precedes the payload at `addr`. */
    ghost function BlockAt(addr: nat): Block
      reads this
    {
      var p := addr - HEAP_START - HEADER_SIZE;
      if p in headers then Block(p, headers[p].order) else Block(0, 0)
    }

    /** Removes the first free block of `order` and hands it out. */
    method TakeFirst(order: nat) returns (block: nat)
      requires Ready(order)
      modifies this`headers, this`lists, this`free, this`live, this`usedMem, freeBlocks
      ensures Valid()
      ensures var b := Block(block, order);
              && live == old(live) + {b} && b !in old(live)
              && Proper(b, maxOrder) && Clear(b, old(live))
      ensures block in headers && headers[block].order == order
      ensures block == old(if order < |lists| && lists[order] != [] then lists[order][0] else 0)
    {
      hide Chains, Listed, Tiling, TotalBytes, Canonical, Pow2;
      FirstIsFree(order);
      block := freeBlocks[order];
      ghost var b := Block(block, order);
      ListedHeader(b);
      FreeIsClear(free, live, maxOrder, b);
      Withdraw(block, b, {});
      assert {} + {b} == {b};
      assert headers[block := headers[block].(status := OCCUPIED)] == headers;
      ghost var heads := freeBlocks[..];
      headers := headers[block := headers[block].(status := OCCUPIED)];
      HandOutShape(free, live, maxOrder, b);
      live := live + {b};
      usedMem := usedMem + Pow2(order);
      assert freeBlocks[..] == heads;
    }

    lemma ListedHeader(b: Block)
      requires Linked() && Listed(lists, free) && b in free
      ensures b.pos in headers && headers[b.pos].order == b.order
    {
      assert Chain(headers, freeBlocks[..][b.order], lists[b.order], b.order);
    }

    method AllocMemory(size: nat) returns (addr: nat)
      requires Valid()
      modifies this`headers, this`lists, this`free, this`live, this`usedMem, freeBlocks
      ensures Valid()
      // NULL exactly when the request is out of range or no clear aligned range exists
      ensures addr != 0 <==> 1 <= size <= HEAP_SIZE && Fits(old(live), maxOrder, size)
      ensures addr == 0 ==> live == old(live) && free == old(free)
      ensures addr != 0 ==>
                var b := BlockAt(addr);
                && addr == HEAP_START + b.pos + HEADER_SIZE
                && Proper(b, maxOrder) && LeastOrder(b.order, size)
                && Clear(b, old(live)) && b !in old(live) && live == old(live) + {b}
      // best fit: the start of the first among the smallest free blocks that are large enough
      ensures addr != 0 ==>
                var b := BlockAt(addr);
                exists f ::
                  old(FirstBest(b.order, f)) && BestFit(old(free), b.order, f) && f.pos == b.pos && Inside(b, f)
    {
      hide Valid, Consistent, Ready, Proper, Clear, LeastOrder, Pow2, FirstBest, BestFit, Inside;
      if size <= 0 || size > HEAP_SIZE {
        return 0;
      }
      var order := NeededOrder(size);
      LeastOrderBound(order, size);
      ghost var f;
      var ok;
      BestFits(order);
      ok, f := Provide(order);
      if !ok {
        NoRoom(order, size);
        return 0;
      }
      var block := TakeFirst(order);
      StartsInside(block, order, f);
      addr := HEAP_START + block + HEADER_SIZE;
      assert BlockAt(addr) == Block(block, order);
    }

    lemma BestFits(order: nat)
      requires Valid()
      ensures forall f :: FirstBest(order, f) ==> BestFit(free, order, f) && f.order >= order
    {
      hide Valid;
      forall f | FirstBest(order, f) ensures BestFit(free, order, f) { FirstBestFits(order, f); }
    }

    lemma NoRoom(order: nat, size: nat)
      requires Valid() && LeastOrder(order, size)
      requires forall f :: f in free ==> f.order < order
      ensures !Fits(live, maxOrder, size)
    {
      hide Linked, Listed, Tagged, Tiling, Canonical;
      if Fits(live, maxOrder, size) {
        var f := FitsHasFree(free, live, maxOrder, size, order);
      }
    }

    /** `b` is the one block in transit, its header says so, and the rest is as between operations. */
    ghost predicate Detached(b: Block)
      reads this, freeBlocks
    {
      && Consistent({b})
      && b.pos in headers && headers[b.pos].order == b.order
      && Canonical(free, maxOrder)
      && usedMem == TotalBytes(live)
      && totalMem == Pow2(maxOrder)
    }

    /** The header of a current block carries its order, and FREE exactly when it is free. */
    lemma HeaderOf(b: Block, moving: set<Block>)
      requires Consistent(moving) && b in free + live
      ensures b.pos in headers && headers[b.pos].order == b.order
      ensures headers[b.pos].status == FREE <==> b in free
    {
      if b in free {
        assert Chain(headers, freeBlocks[..][b.order], lists[b.order], b.order);
      }
    }

    /** The writes of freeMemory before it merges. */
    method Release(block: nat, ghost b: Block)
      requires Valid() && b in live && block == b.pos
      modifies this`headers, this`live, this`usedMem
      ensures Detached(b) && live == old(live) - {b} && free == old(free)
    {
      hide Tiling, TotalBytes, Canonical, Pow2;
      HeaderOf(b, {});
      ReleaseShape(free, live, maxOrder, b);
      ReleaseFrame(b);
      usedMem := usedMem - Pow2(headers[block].order);
      headers := headers[block := headers[block].(status := FREE)];
      live := live - {b};
    }

    /** The header of a live block is in no free list and belongs to no other live block. */
    lemma ReleaseFrame(b: Block)
      requires Consistent({}) && b in live
      ensures b.pos in headers
      ensures Chains(headers[b.pos := headers[b.pos].(status := FREE)], freeBlocks[..], lists)
      ensures Tagged(headers[b.pos := headers[b.pos].(status := FREE)], live - {b}, OCCUPIED)
    {
      var all := free + live + {};
      var h' := headers[b.pos := headers[b.pos].(status := FREE)];
      forall t | t in all && t.pos == b.pos ensures t == b { SamePosition(all, maxOrder, t, b); }
      forall o | 0 <= o < MAX_ORDER ensures Chain(h', freeBlocks[..][o], lists[o], o) {
        ChainFrame(headers, h', freeBlocks[..][o], lists[o], o);
      }
    }

    /** Reads the header at the exclusive-or address: can `b` be merged? */
    method Mergeable(block: nat, buddyPos: nat, ghost b: Block) returns (ok: bool)
      requires Detached(b) && b.order < maxOrder
      requires block == b.pos && buddyPos == BuddyOf(b).pos
      ensures ok <==> BuddyOf(b) in free
      ensures buddyPos in headers
    {
      hide Linked, Listed, Tagged, Tiling, TotalBytes, Canonical, Pow2;
      var t := BuddyIsTile(free + live + {b}, maxOrder, b);
      HeaderOf(t, {b});
      ok := !(headers[buddyPos].status != FREE || headers[buddyPos].order != headers[block].order);
      if BuddyOf(b) in free {
        HeaderOf(BuddyOf(b), {b});
      }
    }

    /** Joins `b` with its free buddy: the header of the left one becomes that of the parent. */
    method Merge(block: nat, buddyPos: nat, ghost b: Block) returns (left: nat)
      requires Detached(b) && b.order < maxOrder && BuddyOf(b) in free
      requires block == b.pos && buddyPos == BuddyOf(b).pos
      modifies this`headers, this`lists, this`free, freeBlocks
      ensures Detached(ParentOf(b)) && left == ParentOf(b).pos
    {
      hide Tiling, TotalBytes, Canonical, Pow2, Chains, Listed, Tagged, Xor;
      left := if block < buddyPos then block else buddyPos;
      ghost var c := BuddyOf(b);
      HeaderOf(c, {b});
      NotListed(b);
      RemoveBlock(block);
      Withdraw(buddyPos, c, {b});
      CanonicalSubset(old(free), maxOrder, c);
      assert {b} + {c} == {b, c};
      MergeFrame(left, headers[left].(order := headers[left].order + 1), {b, c});
      headers := headers[left := headers[left].(order := headers[left].order + 1)];
      MergeShape(free, live, maxOrder, b);
    }

    /** A block in transit is in no free list, so remove_block leaves everything as it is. */
    lemma NotListed(b: Block)
      requires Detached(b) && b.order < maxOrder
      ensures b.order < MAX_ORDER && b.pos !in lists[b.order]
      ensures lists[b.order := Without(lists[b.order], b.pos)] == lists
    {
      WithoutAbsent(lists[b.order], b.pos);
    }

    /** Writing the header of a block in transit disturbs neither lists nor live headers. */
    lemma MergeFrame(p: nat, header: Header, moving: set<Block>)
      requires Consistent(moving) && exists m :: m in moving && m.pos == p
      ensures Chains(headers[p := header], freeBlocks[..], lists)
      ensures Tagged(headers[p := header], live, OCCUPIED)
    {
      var m :| m in moving && m.pos == p;
      var all := free + live + moving;
      forall t | t in all && t.pos == p ensures t == m { SamePosition(all, maxOrder, t, m); }
      forall o | 0 <= o < MAX_ORDER ensures Chain(headers[p := header], freeBlocks[..][o], lists[o], o) {
        ChainFrame(headers, headers[p := header], freeBlocks[..][o], lists[o], o);
      }
    }

    /** `addr` is NULL or the payload address of a current block. */
    ghost predicate Freeable(addr: nat)
      reads this
    {
      addr != 0 ==> addr >= HEAP_START + HEADER_SIZE && BlockAt(addr) in free + live
    }

    lemma DetachedHeader(b: Block)
      requires Detached(b)
      ensures b.pos in headers && headers[b.pos].order == b.order <= maxOrder
    {
      assert b in free + live + {b};
    }

    /** The merge loop of freeMemory. */
    method Coalesce(start: nat, ghost first: Block) returns (block: nat, ghost b: Block)
      requires Detached(first) && start == first.pos
      modifies this`headers, this`lists, this`free, freeBlocks
      ensures Detached(b) && block == b.pos
      ensures b.order < maxOrder ==> BuddyOf(b) !in free
    {
      hide Detached, Xor, Pow2;
      block, b := start, first;
      DetachedHeader(b);
      while headers[block].order < maxOrder
        invariant Detached(b) && block == b.pos
        invariant block in headers && headers[block].order == b.order <= maxOrder
        decreases maxOrder - b.order
      {
        var buddyPos := Xor(block, Pow2(headers[block].order));
        var mergeable := Mergeable(block, buddyPos, b);
        if !mergeable {
          break;
        }
        block := Merge(block, buddyPos, b);
        b := ParentOf(b);
        DetachedHeader(b);
      }
    }

    method Settle(block: nat, ghost b: Block)
      requires Detached(b) && block == b.pos
      requires b.order < maxOrder ==> BuddyOf(b) !in free
      modifies this`headers, this`lists, this`free, freeBlocks
      ensures Valid()
    {
      hide Linked, Listed, Tagged, Canonical, TotalBytes, Pow2, Xor, Proper;
      assert b in free + live + {b};
      SettleCanonical(free, maxOrder, b);
      Deposit(block, headers[block].order, {b});
      assert {b} - {b} == {};
    }

    method FreeMemory(addr: nat)
      requires Valid() && Freeable(addr)
      modifies this`headers, this`lists, this`free, this`live, this`usedMem, freeBlocks
      ensures Valid()
      ensures addr != 0 && old(BlockAt(addr)) in old(live) ==> live == old(live) - {old(BlockAt(addr))}
      ensures addr == 0 || old(BlockAt(addr)) in old(free) ==> live == old(live) && free == old(free)
    {
      hide Shape, Linked, Listed, Tagged, Detached, Canonical;
      if addr == 0 {
        return;
      }
      var block := addr - HEAP_START - HEADER_SIZE;
      ghost var b := BlockAt(addr);
      ghost var c := b;
      CurrentHeader(addr);
      if headers[block].status == FREE {
        return;
      }
      Release(block, b);
      block, c := Coalesce(block, b);
      Settle(block, c);
    }

    lemma CurrentHeader(addr: nat)
      requires Valid() && Freeable(addr) && addr != 0
      ensures var b := BlockAt(addr);
              && b.pos == addr - HEAP_START - HEADER_SIZE && b.pos in headers
              && (headers[b.pos].status == FREE <==> b in free)
              && (b in live <==> b !in free)
    {
      HeaderOf(BlockAt(addr), {});
      assert BlockAt(addr) in free + live + {};
    }

    method GetMemoryInfo() returns (info: MemInfo)
      requires Valid()
      ensures info == MemInfo(Pow2(maxOrder), TotalBytes(live), TotalBytes(free))
    {
      info := MemInfo(totalMem, usedMem, totalMem - usedMem);
      assert TotalBytes({}) == 0;
    }
  }

  /** A block that starts where a larger one does lies inside it. */
  lemma StartsInside(pos: nat, order: nat, f: Block)
    requires pos == f.pos && order <= f.order
    ensures Inside(Block(pos, order), f)
  {
    Pow2Mono(order, f.order);
  }

  lemma OrderBounds(order: nat, size: nat)
    requires 32 < size <= 0x2000_0000
    requires Pow2(order) >= size && (order > 0 ==> Pow2(order - 1) < size)
    ensures MIN_ORDER <= order < MAX_ORDER
  {
    Pow2Of29();
    if order <= 5 { Pow2Mono(order, 5); }
    if order >= 30 { Pow2Mono(29, order - 1); }
  }
}
