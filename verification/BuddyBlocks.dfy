/**
 The block algebra behind the buddy allocator: dyadic blocks, tilings of the
 power-of-two region, and the canonical form that merging maintains.  Nothing
 here mentions headers or free lists; `BuddyAllocator` ties them to this view.
 */
module BuddyBlocks {
  import opened Powers

  /** Smallest order handed out: 2^6 = 64 bytes. */
  const MIN_ORDER: nat := 6

  /** The range of positions `[pos, pos + 2^order)`, relative to the heap start. */
  datatype Block = Block(pos: nat, order: nat)

  function Bytes(b: Block): nat { Pow2(b.order) }

  predicate Overlap(a: Block, b: Block) {
    a.pos < b.pos + Pow2(b.order) && b.pos < a.pos + Pow2(a.order)
  }

  predicate Inside(b: Block, a: Block) {
    a.pos <= b.pos && b.pos + Pow2(b.order) <= a.pos + Pow2(a.order)
  }

  predicate Covers(b: Block, x: int) {
    b.pos <= x < b.pos + Pow2(b.order)
  }

  /** A legal block of a region of 2^top bytes. */
  predicate Proper(b: Block, top: nat) {
    && MIN_ORDER <= b.order <= top
    && Aligned(b.pos, b.order)
    && b.pos + Pow2(b.order) <= Pow2(top)
  }

  /** The blocks partition the region: legal, disjoint, and every byte is in one. */
  ghost predicate Tiling(bs: set<Block>, top: nat) {
    && (forall b :: b in bs ==> Proper(b, top))
    && (forall a, b :: a in bs && b in bs && Overlap(a, b) ==> a == b)
    && (forall x: int :: 0 <= x < Pow2(top) ==> Covered(bs, x))
  }

  ghost predicate Covered(bs: set<Block>, x: int) {
    exists b :: b in bs && Covers(b, x)
  }

  function BuddyOf(b: Block): Block {
    Block(Xor(b.pos, Pow2(b.order)), b.order)
  }

  function ParentOf(b: Block): Block {
    var q := Xor(b.pos, Pow2(b.order));
    Block(if b.pos < q then b.pos else q, b.order + 1)
  }

  function LeftHalf(b: Block): Block
    requires b.order > 0
  {
    Block(b.pos, b.order - 1)
  }

  function RightHalf(b: Block): Block
    requires b.order > 0
  {
    Block(b.pos + Pow2(b.order - 1), b.order - 1)
  }

  /** No two free blocks of one order are buddies. */
  ghost predicate Canonical(free: set<Block>, top: nat) {
    forall b :: b in free && b.order < top ==> BuddyOf(b) !in free
  }

  ghost predicate Clear(b: Block, live: set<Block>) {
    forall l :: l in live ==> !Overlap(b, l)
  }

  // ---- geometry of one block --------------------------------------------

  lemma ProperNested(a: Block, b: Block, top: nat)
    requires Proper(a, top) && Proper(b, top) && Overlap(a, b)
    ensures b.order <= a.order ==> Inside(b, a)
    ensures a.order <= b.order ==> Inside(a, b)
    ensures a.order == b.order ==> a == b
  {
    if b.order <= a.order { Nested(a.pos, a.order, b.pos, b.order); }
    if a.order <= b.order { Nested(b.pos, b.order, a.pos, a.order); }
  }

  lemma HalvesProper(b: Block, top: nat)
    requires Proper(b, top) && b.order > MIN_ORDER
    ensures Proper(LeftHalf(b), top) && Proper(RightHalf(b), top)
    ensures BuddyOf(LeftHalf(b)) == RightHalf(b) && BuddyOf(RightHalf(b)) == LeftHalf(b)
  {
    BuddyOfHalf(b);
    assert Pow2(b.order) == 2 * Pow2(b.order - 1);
  }

  lemma BuddyOfHalf(b: Block)
    requires b.order > 0 && Aligned(b.pos, b.order)
    ensures Aligned(LeftHalf(b).pos, b.order - 1) && Aligned(RightHalf(b).pos, b.order - 1)
    ensures BuddyOf(LeftHalf(b)) == RightHalf(b) && BuddyOf(RightHalf(b)) == LeftHalf(b)
  {
    var k := b.order - 1;
    HalvesAligned(b.pos, k);
    BuddyAddress(b.pos, k);
    var x := Xor(b.pos, Pow2(k));
    if x < b.pos {
      // two multiples of 2^(k+1) cannot be 2^k apart
      Nested(x, k + 1, b.pos, k + 1);
    }
  }

  /** The buddy of a block below the top order is a legal block, and the two are the halves of their parent. */
  lemma BuddyProper(b: Block, top: nat)
    requires Proper(b, top) && b.order < top
    ensures Proper(BuddyOf(b), top) && Proper(ParentOf(b), top)
    ensures BuddyOf(b) != b && BuddyOf(BuddyOf(b)) == b
    ensures ParentOf(BuddyOf(b)) == ParentOf(b)
    ensures (LeftHalf(ParentOf(b)) == b && RightHalf(ParentOf(b)) == BuddyOf(b))
         || (LeftHalf(ParentOf(b)) == BuddyOf(b) && RightHalf(ParentOf(b)) == b)
  {
    BuddyAddress(b.pos, b.order);
    Pow2Mono(b.order, top);
    var p := ParentOf(b);
    assert Aligned(0, top);
    Nested(0, top, p.pos, p.order);
  }

  lemma HalvesCover(b: Block, x: int)
    requires b.order > 0
    ensures Covers(b, x) <==> Covers(LeftHalf(b), x) || Covers(RightHalf(b), x)
    ensures Inside(LeftHalf(b), b) && Inside(RightHalf(b), b) && !Overlap(LeftHalf(b), RightHalf(b))
  {
  }

  // ---- splitting and merging keep a tiling ------------------------------

  lemma SplitTiling(bs: set<Block>, top: nat, b: Block)
    requires Tiling(bs, top) && b in bs && b.order > MIN_ORDER
    ensures LeftHalf(b) !in bs && RightHalf(b) !in bs
    ensures Tiling(bs - {b} + {LeftHalf(b), RightHalf(b)}, top)
  {
    var l, r := LeftHalf(b), RightHalf(b);
    var bs' := bs - {b} + {l, r};
    HalvesProper(b, top);
    HalvesCover(b, b.pos);
    assert Overlap(l, b) && Overlap(r, b);
    forall x: int | 0 <= x < Pow2(top) ensures Covered(bs', x) {
      assert Covered(bs, x);
      var t :| t in bs && Covers(t, x);
      HalvesCover(b, x);
      assert Covers(if t != b then t else if Covers(l, x) then l else r, x);
    }
    forall u, v | u in bs' && v in bs' && Overlap(u, v) ensures u == v {
      SplitDisjoint(bs, b, u, v);
    }
  }

  lemma SplitDisjoint(bs: set<Block>, b: Block, u: Block, v: Block)
    requires b in bs && b.order > 0
    requires forall s, t :: s in bs && t in bs && Overlap(s, t) ==> s == t
    requires u in bs - {b} + {LeftHalf(b), RightHalf(b)} && v in bs - {b} + {LeftHalf(b), RightHalf(b)}
    requires Overlap(u, v)
    ensures u == v
  {
    HalvesCover(b, b.pos);
    if u in bs && u != b {
      if v !in bs || v == b { assert Overlap(u, b); }
    } else if v in bs && v != b {
      assert Overlap(b, v);
    }
  }

  lemma MergeTiling(bs: set<Block>, top: nat, b: Block)
    requires Tiling(bs, top) && b in bs && b.order < top && BuddyOf(b) in bs
    ensures ParentOf(b) !in bs
    ensures Tiling(bs - {b, BuddyOf(b)} + {ParentOf(b)}, top)
  {
    var c, p := BuddyOf(b), ParentOf(b);
    var bs' := bs - {b, c} + {p};
    BuddyProper(b, top);
    HalvesCover(p, p.pos);
    assert Overlap(p, b);
    forall x: int | 0 <= x < Pow2(top) ensures Covered(bs', x) {
      assert Covered(bs, x);
      var t :| t in bs && Covers(t, x);
      HalvesCover(p, x);
      assert Covers(if t == b || t == c then p else t, x);
    }
    forall u, v | u in bs' && v in bs' && Overlap(u, v) ensures u == v {
      if u == p && v != p { MergeDisjoint(bs, p, v); }
      if v == p && u != p { MergeDisjoint(bs, p, u); }
    }
  }

  /** A block that shares a byte with the parent shares one with a half of it. */
  lemma MergeDisjoint(bs: set<Block>, p: Block, v: Block)
    requires p.order > 0
    requires Overlap(p, v)
    ensures Overlap(LeftHalf(p), v) || Overlap(RightHalf(p), v)
  {
    HalvesCover(p, v.pos);
  }

  /**
   The address computed while merging always holds a current header: some block
   of the tiling starts there, and it is no larger than the block being freed.
   */
  lemma BuddyIsTile(bs: set<Block>, top: nat, b: Block) returns (t: Block)
    requires Tiling(bs, top) && b in bs && b.order < top
    ensures t in bs && t != b && t.pos == BuddyOf(b).pos && t.order <= b.order
  {
    BuddyProper(b, top);
    var c := BuddyOf(b);
    assert Covered(bs, c.pos);
    t :| t in bs && Covers(t, c.pos);
    assert Overlap(t, c);
    if t.order > b.order { LargerCoversBoth(t, b, top); }
    ProperNested(c, t, top);
  }

  /** A larger block around the buddy of `b` contains `b` as well. */
  lemma LargerCoversBoth(t: Block, b: Block, top: nat)
    requires Proper(t, top) && Proper(b, top) && b.order < top && t.order > b.order && Covers(t, BuddyOf(b).pos)
    ensures Overlap(t, b)
  {
    BuddyProper(b, top);
    var p := ParentOf(b);
    HalvesCover(p, p.pos);
    assert Overlap(t, p);
    ProperNested(t, p, top);
  }

  // ---- the canonical form -----------------------------------------------

  /**
   The central fact about a canonical tiling: a legal block that no live block
   touches lies inside one free block.
   */
  lemma {:induction false} ClearInsideFree(free: set<Block>, live: set<Block>, top: nat, b: Block) returns (f: Block)
    requires Tiling(free + live, top) && Canonical(free, top)
    requires Proper(b, top) && Clear(b, live)
    ensures f in free && Inside(b, f) && b.order <= f.order
    decreases b.order
  {
    if b.order == MIN_ORDER {
      assert Covered(free + live, b.pos);
      f :| f in free + live && Covers(f, b.pos);
      assert Overlap(b, f);
      ProperNested(f, b, top);
    } else {
      var l, r := LeftHalf(b), RightHalf(b);
      HalvesProper(b, top);
      HalvesCover(b, b.pos);
      assert Clear(l, live) && Clear(r, live);
      f := ClearInsideFree(free, live, top, l);
      var g := ClearInsideFree(free, live, top, r);
      Pow2Mono(MIN_ORDER, b.order - 1);
      assert Overlap(f, b) && Overlap(g, b);
      ProperNested(f, b, top);
      ProperNested(g, b, top);
      assert f.order < b.order ==> f == l;
      assert g.order < b.order ==> g == r;
      if f.order < b.order {
        f := g;
      }
    }
  }

  /** The free blocks are exactly the maximal legal blocks clear of the live ones. */
  ghost predicate MaximalClear(b: Block, live: set<Block>, top: nat) {
    Proper(b, top) && Clear(b, live) && (b.order < top ==> !Clear(ParentOf(b), live))
  }

  lemma FreeIffMaximalClear(free: set<Block>, live: set<Block>, top: nat, b: Block)
    requires Tiling(free + live, top) && free !! live && Canonical(free, top)
    ensures b in free <==> MaximalClear(b, live, top)
  {
    if b in free {
      assert forall l :: l in live && Overlap(b, l) ==> b == l;
      if b.order < top && Clear(ParentOf(b), live) {
        BuddyProper(b, top);
        var f := ClearInsideFree(free, live, top, ParentOf(b));
        HalvesCover(ParentOf(b), b.pos);
        assert Overlap(b, f);
      }
    }
    if MaximalClear(b, live, top) {
      var f := ClearInsideFree(free, live, top, b);
      if f.order > b.order {
        BuddyProper(b, top);
        var p := ParentOf(b);
        HalvesCover(p, b.pos);
        assert Overlap(f, p);
        ProperNested(f, p, top);
        assert forall l :: l in live && Overlap(p, l) ==> Overlap(f, l);
      } else {
        assert Overlap(f, b);
        ProperNested(f, b, top);
      }
    }
  }

  /** The free blocks are a function of the live blocks: histories do not matter. */
  lemma FreeDetermined(free1: set<Block>, free2: set<Block>, live: set<Block>, top: nat)
    requires Tiling(free1 + live, top) && free1 !! live && Canonical(free1, top)
    requires Tiling(free2 + live, top) && free2 !! live && Canonical(free2, top)
    ensures free1 == free2
  {
    forall b ensures b in free1 <==> b in free2 {
      FreeIffMaximalClear(free1, live, top, b);
      FreeIffMaximalClear(free2, live, top, b);
    }
  }

  /** With nothing live, the whole region is one free block. */
  lemma EmptyHeapIsWhole(free: set<Block>, top: nat)
    requires top >= MIN_ORDER && Tiling(free, top) && Canonical(free, top)
    ensures free == {Block(0, top)}
  {
    var whole := Block(0, top);
    assert free + {} == free;
    var f := ClearInsideFree(free, {}, top, whole);
    Pow2Mono(f.order, top);
    assert Overlap(f, whole);
    ProperNested(f, whole, top);
    assert f == whole;
    forall b | b in free ensures b == whole {
      assert Overlap(b, whole);
    }
  }

  // ---- total size -------------------------------------------------------

  ghost function TotalBytes(bs: set<Block>): nat
  {
    if bs == {} then 0 else
      var b :| b in bs;
      Bytes(b) + TotalBytes(bs - {b})
  }

  lemma {:induction false} TotalBytesRemove(bs: set<Block>, b: Block)
    requires b in bs
    ensures TotalBytes(bs) == TotalBytes(bs - {b}) + Bytes(b)
    decreases |bs|
  {
    var c :| c in bs && TotalBytes(bs) == Bytes(c) + TotalBytes(bs - {c});
    if c != b {
      TotalBytesRemove(bs - {c}, b);
      TotalBytesRemove(bs - {b}, c);
      assert bs - {c} - {b} == bs - {b} - {c};
    }
  }

  lemma TotalBytesAdd(bs: set<Block>, b: Block)
    requires b !in bs
    ensures TotalBytes(bs + {b}) == TotalBytes(bs) + Bytes(b)
  {
    TotalBytesRemove(bs + {b}, b);
    assert bs + {b} - {b} == bs;
  }
}
