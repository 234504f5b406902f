/**
 Moving an element between two queues, and rotating one, on top of either
 allocator: the node given back always suffices for the node taken, so no
 element is ever lost for lack of memory.
 */
module QueueMoves {
  import opened Options
  import opened KernelHeap
  import opened LinkedQueue

  ghost predicate Separate(s: seq<nat>, t: seq<nat>) {
    forall a :: a in s ==> a !in t
  }

  /** Two queues that share a heap and no node. */
  ghost predicate Both<T>(heap: Heap, from: Queue<T>, to: Queue<T>)
    reads from, to, heap.Repr()
  {
    from != to && from.In(heap) && to.In(heap) && Separate(from.addrs, to.addrs)
  }

  /** Nodes that belong to neither of the two queues. */
  ghost predicate Outside(live: set<Extent>, s: seq<nat>, from: seq<nat>, to: seq<nat>) {
    Stored(live, s) && Separate(s, from) && Separate(s, to)
  }

  /** Every extent that is not a node of `mine` is still allocated. */
  ghost predicate Undisturbed(before: set<Extent>, after: set<Extent>, mine: seq<nat>) {
    forall e :: e in before && e.addr !in mine ==> e in after
  }

  /** What a release and an allocation do to everybody else's memory. */
  lemma MoveFrame(before: set<Extent>, between: set<Extent>, after: set<Extent>, from: seq<nat>, i: nat,
      to: seq<nat>, a: nat)
    requires i < |from| && Freed(before, between, from[i]) && Allocated(between, after, NODE_SIZE, a) && a != NULL
    ensures Undisturbed(before, after, from)
    ensures forall s :: Outside(before, s, from, to) ==> Outside(after, s, from[..i] + from[i + 1..], to + [a])
  {
    hide Stored, Allocated;
    assert from[i] in from;
    FreedKeeps(before, between, from, i);
    AllocatedKeeps(between, after, a);
    forall s | Outside(before, s, from, to) ensures Outside(after, s, from[..i] + from[i + 1..], to + [a]) {
      StoredAfterFree(before, between, from[i], s);
      StoredAfterAlloc(between, after, NODE_SIZE, a, s);
    }
  }

  lemma FreedKeeps(before: set<Extent>, between: set<Extent>, from: seq<nat>, i: nat)
    requires i < |from| && Freed(before, between, from[i])
    ensures Undisturbed(before, between, from)
  {
    assert from[i] in from;
  }

  lemma AllocatedKeeps(between: set<Extent>, after: set<Extent>, a: nat)
    requires Allocated(between, after, NODE_SIZE, a)
    ensures between <= after
  {
  }

  lemma SeparateCut(s: seq<nat>, t: seq<nat>, i: nat)
    requires Separate(s, t) && i < |s|
    ensures Separate(s[..i] + s[i + 1..], t) && s[i] !in t
  {
    assert s[i] in s;
  }

  lemma SeparateAppend(before: set<Extent>, after: set<Extent>, n: nat, a: nat, s: seq<nat>, t: seq<nat>)
    requires Allocated(before, after, n, a) && a != 0 && Stored(before, s) && Separate(s, t)
    ensures Separate(s, t + [a]) && Stored(after, s)
  {
    StoredAfterAlloc(before, after, n, a, s);
  }

  /** switchProcessFromQueues: the first match leaves `from` and arrives at the end of `to`, whatever the heap state. */
  method Switch<T>(heap: Heap, from: Queue<T>, to: Queue<T>, matches: T -> bool) returns (r: Option<T>)
    requires Both(heap, from, to)
    modifies from, to, heap.Repr()
    ensures Both(heap, from, to)
    ensures var s, t := old(from.Contents()), old(to.Contents());
            var i := FirstMatch(s, matches);
            if i == |s| then r == None && from.Contents() == s && to.Contents() == t
            else r == Some(s[i]) && from.Contents() == s[..i] + s[i + 1..] && to.Contents() == t + [s[i]]
    // the rest of the heap, other queues' nodes included, stays as it is
    ensures Undisturbed(old(heap.Live()), heap.Live(), old(from.addrs))
    ensures forall s :: Outside(old(heap.Live()), s, old(from.addrs), old(to.addrs)) ==>
                          Outside(heap.Live(), s, from.addrs, to.addrs)
  {
    hide Outside, Undisturbed, Queue.Valid, Queue.Contents, Stored, Freed, FirstMatch, Allocated, Heap.Valid,
         Heap.Live, Heap.Serves, Separate;
    ghost var live, addrs := heap.Live(), from.addrs;
    ghost var i := FirstMatch(from.Contents(), matches);
    r := from.Remove(heap, matches);
    if r == None {
      UndisturbedSame(live, addrs);
      return;
    }
    SeparateCut(addrs, to.addrs, i);
    StoredAfterFree(live, heap.Live(), addrs[i], to.addrs);
    ghost var live1, old1 := heap.Live(), to.addrs;
    var ok := to.Enqueue(heap, r.value);
    ghost var a :| to.addrs == old1 + [a] && Allocated(live1, heap.Live(), NODE_SIZE, a) && a != NULL;
    SeparateAppend(live1, heap.Live(), NODE_SIZE, a, from.addrs, old1);
    MoveFrame(live, live1, heap.Live(), addrs, i, old1, a);
  }

  lemma UndisturbedSame(live: set<Extent>, mine: seq<nat>)
    ensures Undisturbed(live, live, mine)
  {
  }

  /** The rotation of the ready queue: the first element becomes the last, whatever the heap state. */
  method Rotate<T>(heap: Heap, q: Queue<T>) returns (r: Option<T>)
    requires q.In(heap)
    modifies q, heap.Repr()
    ensures q.In(heap)
    ensures old(q.Contents()) == [] ==> r == None && q.Contents() == []
    ensures old(q.Contents()) != [] ==>
              r == Some(old(q.Contents())[0]) && q.Contents() == old(q.Contents())[1..] + [old(q.Contents())[0]]
    ensures Undisturbed(old(heap.Live()), heap.Live(), old(q.addrs))
    ensures forall s :: Outside(old(heap.Live()), s, old(q.addrs), []) ==> Outside(heap.Live(), s, q.addrs, [])
  {
    hide Outside, Undisturbed, Separate, Queue.Valid, Queue.Contents, Stored, Freed, Allocated, Heap.Valid,
         Heap.Live, Heap.Serves;
    ghost var live, addrs := heap.Live(), q.addrs;
    q.EmptyFront();
    r := q.Dequeue(heap);
    if r == None {
      UndisturbedSame(live, addrs);
      return;
    }
    ghost var live1, rest := heap.Live(), q.addrs;
    var ok := q.Enqueue(heap, r.value);
    ghost var a :| q.addrs == rest + [a] && Allocated(live1, heap.Live(), NODE_SIZE, a) && a != NULL;
    RotateFrame(live, live1, heap.Live(), addrs, a);
  }

  lemma RotateFrame(before: set<Extent>, between: set<Extent>, after: set<Extent>, addrs: seq<nat>, a: nat)
    requires addrs != [] && Freed(before, between, addrs[0]) && Allocated(between, after, NODE_SIZE, a) && a != NULL
    ensures Undisturbed(before, after, addrs)
    ensures forall s :: Outside(before, s, addrs, []) ==> Outside(after, s, addrs[1..] + [a], [])
  {
    hide Stored, Freed, Allocated, Undisturbed;
    MoveFrame(before, between, after, addrs, 0, [], a);
    assert addrs[..0] + addrs[0 + 1..] == addrs[1..];
    forall s | Outside(before, s, addrs, []) ensures Outside(after, s, addrs[1..] + [a], []) {
      assert Outside(after, s, addrs[1..], [] + [a]);
      assert a in [] + [a];
    }
  }
}
