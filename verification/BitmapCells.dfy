/**
 The cell codes of the bitmap allocator: one cell per 64-byte block, a group of
 blocks marked START USED* END, or SINGLE when it is one block long.
 */
module BitmapCells {
  import opened Options
  import opened Tallies

  datatype Cell = FREE | USED | START | END | SINGLE

  /** A group of `len` consecutive blocks. */
  datatype Run = Run(idx: nat, len: nat)

  function NonFree(c: Cell): nat { if c == FREE then 0 else 1 }

  predicate Covers(r: Run, i: int) { r.idx <= i < r.idx + r.len }

  /** The code of block `j` of a group of `k`. */
  function Code(j: nat, k: nat): Cell {
    if k == 1 then SINGLE else if j == 0 then START else if j == k - 1 then END else USED
  }

  ghost predicate Coded(cells: seq<Cell>, r: Run) {
    && r.len >= 1 && r.idx + r.len <= |cells|
    && forall i :: r.idx <= i < r.idx + r.len ==> cells[i] == Code(i - r.idx, r.len)
  }

  /** The bitmap says exactly: these runs are allocated, everything else is free. */
  ghost predicate Represents(cells: seq<Cell>, live: set<Run>) {
    && (forall r :: r in live ==> Coded(cells, r))
    && (forall i :: 0 <= i < |cells| && cells[i] != FREE ==> InSome(live, i))
  }

  ghost predicate InSome(live: set<Run>, i: int) {
    exists r :: r in live && Covers(r, i)
  }

  ghost predicate FreeRun(cells: seq<Cell>, j: int, k: nat) {
    0 <= j && j + k <= |cells| && forall i :: j <= i < j + k ==> cells[i] == FREE
  }

  // ---- groups do not overlap --------------------------------------------

  /** Two coded groups that share a block are the same group. */
  lemma RunsDisjoint(cells: seq<Cell>, a: Run, b: Run, i: int)
    requires Coded(cells, a) && Coded(cells, b) && Covers(a, i) && Covers(b, i)
    ensures a == b
  {
    // the later of the two starts lies in both groups, and only a start carries START or SINGLE
    if a.idx <= b.idx { SameStart(cells, a, b); } else { SameStart(cells, b, a); }
    if a.len <= b.len { SameLength(cells, a, b); } else { SameLength(cells, b, a); }
  }

  lemma SameStart(cells: seq<Cell>, a: Run, b: Run)
    requires Coded(cells, a) && Coded(cells, b) && a.idx <= b.idx < a.idx + a.len
    ensures a.idx == b.idx
  {
    assert cells[b.idx] == Code(0, b.len);
    assert cells[b.idx] == Code(b.idx - a.idx, a.len);
  }

  lemma SameLength(cells: seq<Cell>, a: Run, b: Run)
    requires Coded(cells, a) && Coded(cells, b) && a.idx == b.idx && a.len <= b.len
    ensures a.len == b.len
  {
    var last := a.idx + a.len - 1;
    assert cells[last] == Code(a.len - 1, a.len);
    assert cells[last] == Code(a.len - 1, b.len);
  }

  // ---- marking and clearing ---------------------------------------------

  function Marked(cells: seq<Cell>, idx: nat, k: nat): (r: seq<Cell>)
    ensures |r| == |cells|
  {
    seq(|cells|, i requires 0 <= i < |cells| => if idx <= i < idx + k then Code(i - idx, k) else cells[i])
  }

  function Cleared(cells: seq<Cell>, idx: nat, k: nat): (r: seq<Cell>)
    ensures |r| == |cells|
  {
    seq(|cells|, i requires 0 <= i < |cells| => if idx <= i < idx + k then FREE else cells[i])
  }

  lemma MarkedRepresents(cells: seq<Cell>, live: set<Run>, idx: nat, k: nat)
    requires Represents(cells, live) && k >= 1 && FreeRun(cells, idx, k)
    ensures Run(idx, k) !in live
    ensures forall r :: r in live ==> !exists i :: Covers(r, i) && Covers(Run(idx, k), i)
    ensures Represents(Marked(cells, idx, k), live + {Run(idx, k)})
  {
    var cells', n := Marked(cells, idx, k), Run(idx, k);
    forall r | r in live ensures Coded(cells', r) && !exists i :: Covers(r, i) && Covers(n, i) {
      assert Coded(cells, r);
      forall i | r.idx <= i < r.idx + r.len
        ensures !Covers(n, i) && cells'[i] == Code(i - r.idx, r.len)
      {
        assert cells[i] == Code(i - r.idx, r.len);
      }
    }
    assert Covers(n, idx);
    forall i | 0 <= i < |cells'| && cells'[i] != FREE ensures InSome(live + {n}, i) {
      if Covers(n, i) {
        assert n in live + {n};
      } else {
        assert InSome(live, i);
        var r :| r in live && Covers(r, i);
        assert r in live + {n};
      }
    }
  }

  lemma ClearedRepresents(cells: seq<Cell>, live: set<Run>, r: Run)
    requires Represents(cells, live) && r in live
    ensures Represents(Cleared(cells, r.idx, r.len), live - {r})
    ensures FreeRun(Cleared(cells, r.idx, r.len), r.idx, r.len)
  {
    var cells' := Cleared(cells, r.idx, r.len);
    assert Coded(cells, r);
    forall q | q in live - {r} ensures Coded(cells', q) {
      assert Coded(cells, q);
      forall i | q.idx <= i < q.idx + q.len ensures cells'[i] == Code(i - q.idx, q.len) {
        if Covers(r, i) { RunsDisjoint(cells, q, r, i); }
      }
    }
    forall i | 0 <= i < |cells'| && cells'[i] != FREE ensures InSome(live - {r}, i) {
      assert InSome(live, i);
      var q :| q in live && Covers(q, i);
      assert q in live - {r};
    }
  }

  /** Allocating and then freeing a group restores the bitmap. */
  lemma MarkThenClear(cells: seq<Cell>, idx: nat, k: nat)
    requires FreeRun(cells, idx, k)
    ensures Cleared(Marked(cells, idx, k), idx, k) == cells
  {
  }

  // ---- the bitmap read left to right ------------------------------------

  /** First position from `j` on whose cell is not USED. */
  function EndOf(cells: seq<Cell>, j: nat): (e: nat)
    requires j <= |cells|
    ensures j <= e <= |cells|
    ensures forall i :: j <= i < e ==> cells[i] == USED
    ensures e < |cells| ==> cells[e] != USED
    decreases |cells| - j
  {
    if j < |cells| && cells[j] == USED then EndOf(cells, j + 1) else j
  }

  /** The groups from position `i` on, if the cells are a concatenation of FREE, SINGLE and START USED* END. */
  function Parse(cells: seq<Cell>, i: nat): Option<seq<Run>>
    requires i <= |cells|
    decreases |cells| - i
  {
    if i == |cells| then Some([])
    else match cells[i]
      case FREE => Parse(cells, i + 1)
      case SINGLE => Prepend(Run(i, 1), Parse(cells, i + 1))
      case START =>
        var e := EndOf(cells, i + 1);
        if e < |cells| && cells[e] == END then Prepend(Run(i, e - i + 1), Parse(cells, e + 1)) else None
      case _ => None
  }

  function Prepend(r: Run, rest: Option<seq<Run>>): Option<seq<Run>> {
    match rest
    case None => None
    case Some(s) => Some([r] + s)
  }

  /** No group straddles position `i`. */
  ghost predicate Boundary(live: set<Run>, i: nat) {
    forall r :: r in live ==> r.idx + r.len <= i || i <= r.idx
  }

  lemma GroupAt(cells: seq<Cell>, live: set<Run>, i: nat) returns (r: Run)
    requires Represents(cells, live) && Boundary(live, i) && i < |cells| && cells[i] != FREE
    ensures r in live && r.idx == i && Boundary(live, i + r.len) && i + r.len <= |cells|
    ensures (cells[i] == SINGLE && r.len == 1)
         || (cells[i] == START && r.len >= 2 && EndOf(cells, i + 1) == i + r.len - 1 && cells[i + r.len - 1] == END)
  {
    assert InSome(live, i);
    r :| r in live && Covers(r, i);
    assert Coded(cells, r);
    assert cells[i] == Code(0, r.len);
    forall q | q in live ensures q.idx + q.len <= i + r.len || i + r.len <= q.idx {
      if q.idx < i + r.len < q.idx + q.len {
        RunsDisjoint(cells, q, r, if q.idx < i then i else q.idx);
      }
    }
    if r.len >= 2 {
      assert cells[i + r.len - 1] == Code(r.len - 1, r.len);
      forall j | i < j < i + r.len - 1 ensures cells[j] == USED {
        assert cells[j] == Code(j - r.idx, r.len);
      }
    }
  }

  lemma FreeBoundary(cells: seq<Cell>, live: set<Run>, i: nat)
    requires Represents(cells, live) && Boundary(live, i) && i < |cells| && cells[i] == FREE
    ensures Boundary(live, i + 1) && forall r :: r in live ==> r.idx != i
  {
    forall r | r in live ensures r.idx != i && (r.idx + r.len <= i + 1 || i + 1 <= r.idx) {
      assert Coded(cells, r);
    }
  }

  lemma NextGroup(cells: seq<Cell>, live: set<Run>, r: Run)
    requires Represents(cells, live) && r in live
    ensures forall q :: q in live && q.idx >= r.idx ==> q == r || q.idx >= r.idx + r.len
    ensures r.len >= 1
  {
    assert Coded(cells, r);
    forall q | q in live && q.idx >= r.idx ensures q == r || q.idx >= r.idx + r.len {
      assert Coded(cells, q);
      if q.idx < r.idx + r.len { RunsDisjoint(cells, q, r, q.idx); }
    }
  }

  lemma NothingAtEnd(cells: seq<Cell>, live: set<Run>)
    requires Represents(cells, live)
    ensures forall r :: r in live ==> r.idx < |cells|
  {
    assert forall r :: r in live ==> Coded(cells, r);
  }

  lemma GroupSolid(cells: seq<Cell>, live: set<Run>, r: Run)
    requires Represents(cells, live) && r in live
    ensures r.idx + r.len <= |cells| && forall j :: r.idx <= j < r.idx + r.len ==> cells[j] != FREE
  {
    assert Coded(cells, r);
    forall j | r.idx <= j < r.idx + r.len ensures cells[j] != FREE { assert cells[j] == Code(j - r.idx, r.len); }
  }

  /** The grammar accepts exactly the live groups, in order of position. */
  lemma {:induction false} ParseFinds(cells: seq<Cell>, live: set<Run>, i: nat)
    requires Represents(cells, live) && i <= |cells| && Boundary(live, i)
    ensures Parse(cells, i).Some?
    ensures forall r :: r in Parse(cells, i).value <==> r in live && r.idx >= i
    decreases |cells| - i
  {
    hide Represents, Boundary, EndOf;
    if i < |cells| {
      if cells[i] == FREE {
        FreeBoundary(cells, live, i);
        ParseFinds(cells, live, i + 1);
      } else {
        var r := GroupAt(cells, live, i);
        ParseFinds(cells, live, i + r.len);
        assert Parse(cells, i) == Prepend(r, Parse(cells, i + r.len));
        NextGroup(cells, live, r);
      }
    } else {
      NothingAtEnd(cells, live);
    }
  }

  /** The bitmap is a concatenation of groups that decodes to exactly the live allocations. */
  lemma DecodesToLive(cells: seq<Cell>, live: set<Run>)
    requires Represents(cells, live)
    ensures Parse(cells, 0).Some?
    ensures forall r :: r in Parse(cells, 0).value <==> r in live
  {
    ParseFinds(cells, live, 0);
  }

  function TotalLength(runs: seq<Run>): nat {
    if runs == [] then 0 else runs[0].len + TotalLength(runs[1..])
  }

  /** `n` cells in use count `n`. */
  lemma {:induction false} CountSolid(cells: seq<Cell>, i: nat, n: nat)
    requires i + n <= |cells| && forall j :: i <= j < i + n ==> cells[j] != FREE
    ensures Count(cells[i..], NonFree) == n + Count(cells[i + n..], NonFree)
    decreases n
  {
    if n > 0 {
      assert cells[i..][1..] == cells[i + 1..];
      CountSolid(cells, i + 1, n - 1);
    }
  }

  /** The non-free cells are exactly the blocks of the groups. */
  lemma {:induction false} UsedIsAllocated(cells: seq<Cell>, live: set<Run>, i: nat)
    requires Represents(cells, live) && i <= |cells| && Boundary(live, i)
    ensures Parse(cells, i).Some? && TotalLength(Parse(cells, i).value) == Count(cells[i..], NonFree)
    decreases |cells| - i
  {
    hide Represents, Boundary, Coded;
    if i == |cells| {
      assert cells[i..] == [];
    } else if cells[i] == FREE {
      FreeBoundary(cells, live, i);
      assert cells[i..][1..] == cells[i + 1..];
      UsedIsAllocated(cells, live, i + 1);
    } else {
      var r := GroupAt(cells, live, i);
      UsedIsAllocated(cells, live, i + r.len);
      assert Parse(cells, i) == Prepend(r, Parse(cells, i + r.len));
      GroupSolid(cells, live, r);
      CountSolid(cells, i, r.len);
    }
  }
}
