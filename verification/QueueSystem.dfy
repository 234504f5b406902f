/**
 Any number of queues over one heap, as the process manager and the semaphores
 have them: every sequence of moves and rotations acts on the sequences the
 queues stand for, in any heap state, and so never loses or copies a process.
 */
module QueueSystem {
  import opened Options
  import opened KernelHeap
  import opened LinkedQueue
  import opened QueueMoves

  /** Different queues share no node. */
  ghost predicate Apart(qs: seq<Queue<nat>>)
    reads qs
  {
    forall i, j :: 0 <= i < |qs| && 0 <= j < |qs| && i != j ==> qs[i] != qs[j] && Separate(qs[i].addrs, qs[j].addrs)
  }

  ghost predicate Together(heap: Heap, qs: seq<Queue<nat>>)
    reads qs, heap.Repr()
  {
    (forall i :: 0 <= i < |qs| ==> qs[i].In(heap)) && Apart(qs)
  }

  /** The queues are well formed, apart, and stand for these sequences. */
  ghost predicate Shows(heap: Heap, qs: seq<Queue<nat>>, c: seq<seq<nat>>)
    reads qs, heap.Repr()
  {
    Together(heap, qs) && |c| == |qs| && forall i :: 0 <= i < |qs| ==> qs[i].Contents() == c[i]
  }

  /** hasPid. */
  function HasPid(pid: nat): nat -> bool { x => x == pid }

  /**
   Take `pid` from queue `from` to the end of queue `to`, bring the front of queue
   `q` to its end, or take `pid` out.
   */
  datatype Op = Move(from: nat, to: nat, pid: nat) | Turn(q: nat) | Drop(q: nat, pid: nat)

  predicate Fits(op: Op, n: nat) {
    match op
    case Move(from, to, _) => from < n && to < n && from != to
    case Turn(q) => q < n
    case Drop(q, _) => q < n
  }

  function Moved(c: seq<seq<nat>>, from: nat, to: nat, pid: nat): seq<seq<nat>>
    requires from < |c| && to < |c|
  {
    var i := FirstMatch(c[from], HasPid(pid));
    if i == |c[from]| then c
    else c[from := c[from][..i] + c[from][i + 1..]][to := c[to] + [c[from][i]]]
  }

  function Dropped(c: seq<seq<nat>>, q: nat, pid: nat): seq<seq<nat>>
    requires q < |c|
  {
    var i := FirstMatch(c[q], HasPid(pid));
    if i == |c[q]| then c else c[q := c[q][..i] + c[q][i + 1..]]
  }

  function Apply(c: seq<seq<nat>>, op: Op): (r: seq<seq<nat>>)
    requires Fits(op, |c|)
    ensures |r| == |c|
  {
    match op
    case Move(from, to, pid) => Moved(c, from, to, pid)
    case Turn(q) => if c[q] == [] then c else c[q := c[q][1..] + [c[q][0]]]
    case Drop(q, pid) => Dropped(c, q, pid)
  }

  function ApplyAll(c: seq<seq<nat>>, ops: seq<Op>): (r: seq<seq<nat>>)
    requires forall i :: 0 <= i < |ops| ==> Fits(ops[i], |c|)
    ensures |r| == |c|
  {
    if ops == [] then c else Apply(ApplyAll(c, ops[..|ops| - 1]), ops[|ops| - 1])
  }

  // ---- nobody is lost ---------------------------------------------------

  /** How many entries `p` has in all queues together. */
  function Entries(c: seq<seq<nat>>, p: nat): nat {
    if c == [] then 0 else multiset(c[0])[p] + Entries(c[1..], p)
  }

  lemma {:induction false} EntriesSet(c: seq<seq<nat>>, i: nat, s: seq<nat>, p: nat)
    requires i < |c|
    ensures Entries(c[i := s], p) + multiset(c[i])[p] == Entries(c, p) + multiset(s)[p]
  {
    if i == 0 {
      assert c[i := s][1..] == c[1..];
    } else {
      assert c[i := s][1..] == c[1..][i - 1 := s];
      EntriesSet(c[1..], i - 1, s, p);
    }
  }

  lemma CutEntries(s: seq<nat>, i: nat, p: nat)
    requires i < |s|
    ensures multiset(s)[p] == multiset(s[..i] + s[i + 1..])[p] + (if s[i] == p then 1 else 0)
  {
    assert s == s[..i] + [s[i]] + s[i + 1..];
  }

  lemma AppendEntries(s: seq<nat>, x: nat, p: nat)
    ensures multiset(s + [x])[p] == multiset(s)[p] + (if x == p then 1 else 0)
  {
  }

  lemma MoveConserves(c: seq<seq<nat>>, from: nat, to: nat, i: nat, p: nat)
    requires from < |c| && to < |c| && from != to && i < |c[from]|
    ensures var cut := c[from][..i] + c[from][i + 1..];
            Entries(c[from := cut][to := c[to] + [c[from][i]]], p) == Entries(c, p)
  {
    hide Entries;
    var cut := c[from][..i] + c[from][i + 1..];
    CutEntries(c[from], i, p);
    EntriesSet(c, from, cut, p);
    EntriesSet(c[from := cut], to, c[to] + [c[from][i]], p);
    AppendEntries(c[to], c[from][i], p);
  }

  lemma TurnConserves(c: seq<seq<nat>>, q: nat, p: nat)
    requires q < |c| && c[q] != []
    ensures Entries(c[q := c[q][1..] + [c[q][0]]], p) == Entries(c, p)
  {
    hide Entries;
    TurnEntries(c[q], p);
    EntriesSet(c, q, c[q][1..] + [c[q][0]], p);
  }

  lemma TurnEntries(s: seq<nat>, p: nat)
    requires s != []
    ensures multiset(s[1..] + [s[0]])[p] == multiset(s)[p]
  {
    assert s == [s[0]] + s[1..];
  }

  /** Is this the removal of `p`? */
  predicate Drops(op: Op, p: nat) { op.Drop? && op.pid == p }

  lemma DropConserves(c: seq<seq<nat>>, q: nat, pid: nat, p: nat)
    requires q < |c| && pid != p
    ensures Entries(Dropped(c, q, pid), p) == Entries(c, p)
  {
    hide Entries;
    var i := FirstMatch(c[q], HasPid(pid));
    if i < |c[q]| {
      CutEntries(c[q], i, p);
      EntriesSet(c, q, c[q][..i] + c[q][i + 1..], p);
    }
  }

  lemma ApplyConserves(c: seq<seq<nat>>, op: Op, p: nat)
    requires Fits(op, |c|) && !Drops(op, p)
    ensures Entries(Apply(c, op), p) == Entries(c, p)
  {
    hide Entries;
    match op
    case Move(from, to, pid) =>
      var i := FirstMatch(c[from], HasPid(pid));
      if i < |c[from]| { MoveConserves(c, from, to, i, p); }
    case Turn(q) =>
      if c[q] != [] { TurnConserves(c, q, p); }
    case Drop(q, pid) => DropConserves(c, q, pid, p);
  }

  /** Whatever the moves, a process that is not taken out keeps exactly its entries. */
  lemma {:induction false} NobodyLost(c: seq<seq<nat>>, ops: seq<Op>, p: nat)
    requires forall i :: 0 <= i < |ops| ==> Fits(ops[i], |c|) && !Drops(ops[i], p)
    ensures Entries(ApplyAll(c, ops), p) == Entries(c, p)
  {
    hide Entries, Apply, Drops;
    if ops != [] {
      NobodyLost(c, ops[..|ops| - 1], p);
      ApplyConserves(ApplyAll(c, ops[..|ops| - 1]), ops[|ops| - 1], p);
    }
  }

  // ---- the queues do what the sequences say -----------------------------

  lemma Symmetric(s: seq<nat>, t: seq<nat>)
    requires Separate(s, t)
    ensures Separate(t, s)
  {
    assert forall a :: a in s ==> a !in t;
  }

  /** Every third queue lies outside the two. */
  lemma ThirdsOutside(heap: Heap, qs: seq<Queue<nat>>, i: nat, j: nat, k: nat)
    requires Together(heap, qs) && i < |qs| && j < |qs| && k < |qs| && k != i && k != j
    ensures Outside(heap.Live(), qs[k].addrs, qs[i].addrs, qs[j].addrs)
    ensures qs[k] != qs[i] && qs[k] != qs[j]
  {
    hide Separate, Stored, Heap.Valid, Heap.Live, Queue.Valid;
  }

  /** The nodes of every queue. */
  ghost function Nodes(qs: seq<Queue<nat>>): (a: seq<seq<nat>>)
    reads qs
    ensures |a| == |qs| && forall i :: 0 <= i < |qs| ==> a[i] == qs[i].addrs
  {
    seq(|qs|, i requires 0 <= i < |qs| reads qs => qs[i].addrs)
  }

  ghost predicate AllSeparate(a: seq<seq<nat>>) {
    forall i, j :: 0 <= i < |a| && 0 <= j < |a| && i != j ==> Separate(a[i], a[j])
  }

  /** Two node sequences changed, the others as they were and outside: all are still apart. */
  lemma StillSeparate(a: seq<seq<nat>>, b: seq<seq<nat>>, i: nat, j: nat)
    requires AllSeparate(a) && i < |a| && j < |a| && |b| == |a| && (i != j ==> Separate(b[i], b[j]))
    requires forall k :: 0 <= k < |a| && k != i && k != j ==>
               b[k] == a[k] && Separate(b[k], b[i]) && Separate(b[k], b[j])
    ensures AllSeparate(b)
  {
    hide Separate;
    forall k, l | 0 <= k < |b| && 0 <= l < |b| && k != l ensures Separate(b[k], b[l]) {
      if (l == i || l == j) && (k == i || k == j) {
        Symmetric(b[i], b[j]);
      } else if k == i || k == j {
        Symmetric(b[l], b[k]);
      }
    }
  }

  /** switchProcessFromQueues between two of the queues. */
  method MoveOne(heap: Heap, qs: seq<Queue<nat>>, ghost c: seq<seq<nat>>, from: nat, to: nat, pid: nat)
    requires Shows(heap, qs, c) && Fits(Move(from, to, pid), |qs|)
    modifies qs, heap.Repr()
    ensures Shows(heap, qs, Apply(c, Move(from, to, pid)))
  {
    hide Apply, Outside, Separate, Stored, Undisturbed, Queue.Valid, Queue.Contents, Heap.Valid, Heap.Live,
         FirstMatch, HasPid;
    ghost var a := Nodes(qs);
    forall k | 0 <= k < |qs| && k != from && k != to
      ensures Outside(heap.Live(), a[k], a[from], a[to]) && qs[k] != qs[from] && qs[k] != qs[to]
    {
      ThirdsOutside(heap, qs, from, to, k);
    }
    MovedParts(c, from, to, pid);
    var r := Switch(heap, qs[from], qs[to], HasPid(pid));
    forall k | 0 <= k < |qs| && k != from && k != to
      ensures Stored(heap.Live(), a[k]) && Separate(a[k], qs[from].addrs) && Separate(a[k], qs[to].addrs)
    {
      OutsideParts(heap.Live(), a[k], qs[from].addrs, qs[to].addrs);
    }
    StillSeparate(a, Nodes(qs), from, to);
  }

  lemma MovedParts(c: seq<seq<nat>>, from: nat, to: nat, pid: nat)
    requires from < |c| && to < |c| && from != to
    ensures var d, i := Apply(c, Move(from, to, pid)), FirstMatch(c[from], HasPid(pid));
            && (forall k :: 0 <= k < |c| && k != from && k != to ==> d[k] == c[k])
            && (if i == |c[from]| then d[from] == c[from] && d[to] == c[to]
                else d[from] == c[from][..i] + c[from][i + 1..] && d[to] == c[to] + [c[from][i]])
  {
    hide FirstMatch, HasPid;
  }

  lemma OutsideParts(live: set<Extent>, s: seq<nat>, t: seq<nat>, u: seq<nat>)
    requires Outside(live, s, t, u)
    ensures Stored(live, s) && Separate(s, t) && Separate(s, u)
  {
  }

  /** The rotation of one of the queues. */
  method TurnOne(heap: Heap, qs: seq<Queue<nat>>, ghost c: seq<seq<nat>>, q: nat)
    requires Shows(heap, qs, c) && q < |qs|
    modifies qs, heap.Repr()
    ensures Shows(heap, qs, Apply(c, Turn(q)))
  {
    hide Outside, Separate, Stored, Undisturbed, Queue.Valid, Queue.Contents, Heap.Valid, Heap.Live;
    ghost var a := Nodes(qs);
    forall k | 0 <= k < |qs| && k != q ensures Outside(heap.Live(), a[k], a[q], []) && qs[k] != qs[q] {
      ThirdsOutside(heap, qs, q, q, k);
      OutsideOne(heap.Live(), a[k], a[q]);
    }
    var r := Rotate(heap, qs[q]);
    forall k | 0 <= k < |qs| && k != q ensures Stored(heap.Live(), a[k]) && Separate(a[k], qs[q].addrs) {
      OutsideParts(heap.Live(), a[k], qs[q].addrs, []);
    }
    StillSeparate(a, Nodes(qs), q, q);
  }

  /** remove on one of the queues. */
  method DropOne(heap: Heap, qs: seq<Queue<nat>>, ghost c: seq<seq<nat>>, q: nat, pid: nat)
    requires Shows(heap, qs, c) && q < |qs|
    modifies qs, heap.Repr()
    ensures Shows(heap, qs, Apply(c, Drop(q, pid)))
  {
    hide Apply, Outside, Separate, Stored, Freed, Queue.Valid, Queue.Contents, Heap.Valid, Heap.Live, Heap.Serves,
         FirstMatch, HasPid;
    ghost var a, live := Nodes(qs), heap.Live();
    forall k | 0 <= k < |qs| && k != q ensures Outside(live, a[k], a[q], a[q]) && qs[k] != qs[q] {
      ThirdsOutside(heap, qs, q, q, k);
    }
    DroppedParts(c, q, pid);
    var r := qs[q].Remove(heap, HasPid(pid));
    AfterDrop(live, heap.Live(), a, q, if r == None then |a[q]| else FirstMatch(c[q], HasPid(pid)), qs[q].addrs);
    StillSeparate(a, Nodes(qs), q, q);
  }

  /** A removal, at `i` if that is an index, leaves the other queues' nodes alone. */
  lemma AfterDrop(before: set<Extent>, after: set<Extent>, a: seq<seq<nat>>, q: nat, i: nat, mine: seq<nat>)
    requires q < |a| && forall k :: 0 <= k < |a| && k != q ==> Outside(before, a[k], a[q], a[q])
    requires if i < |a[q]| then Freed(before, after, a[q][i]) && mine == a[q][..i] + a[q][i + 1..]
             else after == before && mine == a[q]
    ensures forall k :: 0 <= k < |a| && k != q ==> Stored(after, a[k]) && Separate(a[k], mine)
  {
    hide Outside, Separate, Stored, Freed;
    forall k | 0 <= k < |a| && k != q ensures Stored(after, a[k]) && Separate(a[k], mine) {
      if i < |a[q]| { CutOutside(before, after, a[k], a[q], i); } else { OutsideParts(before, a[k], a[q], a[q]); }
    }
  }

  lemma CutOutside(before: set<Extent>, after: set<Extent>, s: seq<nat>, mine: seq<nat>, i: nat)
    requires i < |mine| && Freed(before, after, mine[i]) && Outside(before, s, mine, mine)
    ensures Stored(after, s) && Separate(s, mine[..i] + mine[i + 1..])
  {
    hide Freed, Stored;
    assert mine[i] in mine;
    StoredAfterFree(before, after, mine[i], s);
  }

  lemma DroppedParts(c: seq<seq<nat>>, q: nat, pid: nat)
    requires q < |c|
    ensures var d, i := Apply(c, Drop(q, pid)), FirstMatch(c[q], HasPid(pid));
            && (forall k :: 0 <= k < |c| && k != q ==> d[k] == c[k])
            && d[q] == if i == |c[q]| then c[q] else c[q][..i] + c[q][i + 1..]
  {
    hide FirstMatch, HasPid;
  }

  /** enqueue on one of the queues: the only operation that can fail, and then nothing changes. */
  method PushOne(heap: Heap, qs: seq<Queue<nat>>, ghost c: seq<seq<nat>>, q: nat, pid: nat) returns (ok: bool)
    requires Shows(heap, qs, c) && q < |qs|
    modifies qs, heap.Repr()
    ensures ok == old(heap.Serves(NODE_SIZE))
    ensures |c| == |qs| && Shows(heap, qs, if ok then c[q := c[q] + [pid]] else c)
  {
    hide Outside, Separate, Stored, Allocated, Queue.Valid, Queue.Contents, Heap.Valid, Heap.Live, Heap.Serves;
    ghost var a, live := Nodes(qs), heap.Live();
    forall k | 0 <= k < |qs| && k != q ensures Outside(live, a[k], a[q], a[q]) && qs[k] != qs[q] {
      ThirdsOutside(heap, qs, q, q, k);
    }
    ok := qs[q].Enqueue(heap, pid);
    forall k | 0 <= k < |qs| && k != q ensures Stored(heap.Live(), a[k]) && Separate(a[k], qs[q].addrs) {
      OutsideParts(live, a[k], a[q], a[q]);
      if ok { PushOutside(live, heap.Live(), a[k], a[q], qs[q].addrs); }
    }
    StillSeparate(a, Nodes(qs), q, q);
  }

  lemma PushOutside(before: set<Extent>, after: set<Extent>, s: seq<nat>, mine: seq<nat>, mine': seq<nat>)
    requires exists n :: mine' == mine + [n] && Allocated(before, after, NODE_SIZE, n) && n != NULL
    requires Stored(before, s) && Separate(s, mine)
    ensures Stored(after, s) && Separate(s, mine')
  {
    hide Stored, Allocated, Separate;
    var n :| mine' == mine + [n] && Allocated(before, after, NODE_SIZE, n) && n != NULL;
    SeparateAppend(before, after, NODE_SIZE, n, s, mine);
  }

  lemma OutsideOne(live: set<Extent>, s: seq<nat>, t: seq<nat>)
    ensures Outside(live, s, t, []) <==> Outside(live, s, t, t)
  {
  }

  /**
   Any sequence of moves, rotations and removals among any number of queues, on
   either allocator and from any heap state: each does what it says and none
   fails, so every process that is not taken out keeps exactly its entries.
   */
  method Perform(heap: Heap, qs: seq<Queue<nat>>, ghost c: seq<seq<nat>>, ops: seq<Op>)
    requires Shows(heap, qs, c) && forall i :: 0 <= i < |ops| ==> Fits(ops[i], |qs|)
    modifies qs, heap.Repr()
    ensures |c| == |qs| && Shows(heap, qs, ApplyAll(c, ops))
    ensures forall p :: (forall i :: 0 <= i < |ops| ==> !Drops(ops[i], p)) ==>
              Entries(ApplyAll(c, ops), p) == Entries(c, p)
  {
    hide Together, Queue.Contents, Heap.Valid, Heap.Live, Apply, Entries, Drops;
    for n := 0 to |ops|
      invariant Shows(heap, qs, ApplyAll(c, ops[..n]))
    {
      assert ops[..n + 1][..n] == ops[..n];
      ghost var d := ApplyAll(c, ops[..n]);
      assert ApplyAll(c, ops[..n + 1]) == Apply(d, ops[n]);
      match ops[n]
      case Move(from, to, pid) => MoveOne(heap, qs, d, from, to, pid);
      case Turn(q) => TurnOne(heap, qs, d, q);
      case Drop(q, pid) => DropOne(heap, qs, d, q, pid);
    }
    assert ops[..|ops|] == ops;
    forall p | forall i :: 0 <= i < |ops| ==> !Drops(ops[i], p) ensures Entries(ApplyAll(c, ops), p) == Entries(c, p) {
      NobodyLost(c, ops, p);
    }
  }
}
