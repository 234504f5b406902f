/**
 The kernel's linked queue: nodes taken from the heap and relinked in place.
 A node's memory exists in `nodes` only between its allocation and its release,
 so every dereference is proved to hit a node that is still allocated.
 */
module LinkedQueue {
  import opened Options
  import opened Sequences
  import opened KernelHeap

  /** Two pointers. */
  const NODE_SIZE: nat := 16
  const NULL: nat := 0

  datatype Node<T> = Node(data: T, next: nat)

  // ---- chains of nodes --------------------------------------------------

  function Last(s: seq<nat>): nat {
    if s == [] then NULL else s[|s| - 1]
  }

  /** Following `next` from the front visits exactly `addrs` and ends at NULL. */
  ghost predicate Chain<T>(nodes: map<nat, Node<T>>, addrs: seq<nat>) {
    && Distinct(addrs) && NULL !in addrs
    && (forall i :: 0 <= i < |addrs| ==> addrs[i] in nodes && nodes[addrs[i]].next == Entry(addrs, i + 1, NULL))
    && (forall a :: a in nodes ==> a in addrs)
  }

  ghost function DataOf<T>(nodes: map<nat, Node<T>>, addrs: seq<nat>): (s: seq<T>)
    requires Chain(nodes, addrs)
    ensures |s| == |addrs|
  {
    seq(|addrs|, i requires 0 <= i < |addrs| => nodes[addrs[i]].data)
  }

  /** The nodes after linking a new one behind the rear. */
  function Linked<T>(nodes: map<nat, Node<T>>, rear: nat, a: nat, d: T): map<nat, Node<T>> {
    var n := nodes[a := Node(d, NULL)];
    if rear != NULL && rear in n then n[rear := n[rear].(next := a)] else n
  }

  lemma AppendNode<T>(nodes: map<nat, Node<T>>, addrs: seq<nat>, a: nat, d: T, i: nat)
    requires Chain(nodes, addrs) && a !in addrs && a != NULL && i <= |addrs|
    ensures var n, t := Linked(nodes, Last(addrs), a, d), addrs + [a];
            && t[i] in n && n[t[i]].next == Entry(t, i + 1, NULL)
            && n[t[i]].data == if i < |addrs| then nodes[addrs[i]].data else d
  {
    hide Distinct, Entry;
    AppendEntry(addrs, a, i);
    if i < |addrs| {
      assert addrs[i] in addrs && addrs[i] in nodes && addrs[i] != a;
      if i < |addrs| - 1 { DistinctAt(addrs, i, |addrs| - 1); }
    }
  }

  lemma AppendEntry(addrs: seq<nat>, a: nat, i: nat)
    requires i <= |addrs|
    ensures Entry(addrs + [a], i + 1, NULL) ==
              if i == |addrs| then NULL else if i == |addrs| - 1 then a else Entry(addrs, i + 1, NULL)
  {
  }

  lemma AppendChain<T>(nodes: map<nat, Node<T>>, addrs: seq<nat>, a: nat, d: T)
    requires Chain(nodes, addrs) && a !in addrs && a != NULL
    ensures Chain(Linked(nodes, Last(addrs), a, d), addrs + [a])
  {
    hide Distinct, Entry;
    var nodes', addrs' := Linked(nodes, Last(addrs), a, d), addrs + [a];
    DistinctAppend(addrs, a);
    forall i | 0 <= i < |addrs'| ensures addrs'[i] in nodes' && nodes'[addrs'[i]].next == Entry(addrs', i + 1, NULL) {
      AppendNode(nodes, addrs, a, d, i);
    }
    assert forall p :: p in nodes' ==> p in nodes || p == a;
  }

  lemma AppendData<T>(nodes: map<nat, Node<T>>, addrs: seq<nat>, a: nat, d: T)
    requires Chain(nodes, addrs) && a !in addrs && a != NULL
    ensures Chain(Linked(nodes, Last(addrs), a, d), addrs + [a])
    ensures DataOf(Linked(nodes, Last(addrs), a, d), addrs + [a]) == DataOf(nodes, addrs) + [d]
  {
    hide Chain;
    AppendChain(nodes, addrs, a, d);
    var s' := DataOf(Linked(nodes, Last(addrs), a, d), addrs + [a]);
    forall i | 0 <= i < |s'| ensures s'[i] == (DataOf(nodes, addrs) + [d])[i] {
      AppendNode(nodes, addrs, a, d, i);
    }
  }

  /** The nodes after unlinking `addrs[i]`. */
  ghost function Unlinked<T>(nodes: map<nat, Node<T>>, addrs: seq<nat>, i: nat): map<nat, Node<T>>
    requires Chain(nodes, addrs) && i < |addrs|
  {
    var n := if i == 0 then nodes
             else nodes[addrs[i - 1] := nodes[addrs[i - 1]].(next := nodes[addrs[i]].next)];
    n - {addrs[i]}
  }

  lemma UnlinkChain<T>(nodes: map<nat, Node<T>>, addrs: seq<nat>, i: nat)
    requires Chain(nodes, addrs) && i < |addrs|
    ensures Chain(Unlinked(nodes, addrs, i), addrs[..i] + addrs[i + 1..])
  {
    hide Distinct, Entry;
    var nodes', t := Unlinked(nodes, addrs, i), addrs[..i] + addrs[i + 1..];
    CutMembers(addrs, i);
    forall j | 0 <= j < |t| ensures t[j] in nodes' && nodes'[t[j]].next == Entry(t, j + 1, NULL) {
      CutEntry(addrs, i, j, NULL);
      UnlinkedNode(nodes, addrs, i, if j < i then j else j + 1);
    }
  }

  lemma UnlinkedNode<T>(nodes: map<nat, Node<T>>, addrs: seq<nat>, i: nat, k: nat)
    requires Chain(nodes, addrs) && i < |addrs| && k < |addrs| && k != i
    ensures var n := Unlinked(nodes, addrs, i);
            && addrs[k] in n && n[addrs[k]].data == nodes[addrs[k]].data
            && n[addrs[k]].next == if k + 1 == i then Entry(addrs, i + 1, NULL) else Entry(addrs, k + 1, NULL)
  {
    hide Distinct, Entry;
    DistinctAt(addrs, k, i);
    if i > 0 {
      DistinctAt(addrs, i - 1, i);
      if k + 1 != i { DistinctAt(addrs, k, i - 1); }
    }
  }

  lemma UnlinkData<T>(nodes: map<nat, Node<T>>, addrs: seq<nat>, i: nat)
    requires Chain(nodes, addrs) && i < |addrs|
    ensures Chain(Unlinked(nodes, addrs, i), addrs[..i] + addrs[i + 1..])
    ensures var s := DataOf(nodes, addrs);
            DataOf(Unlinked(nodes, addrs, i), addrs[..i] + addrs[i + 1..]) == s[..i] + s[i + 1..]
  {
    hide Distinct, Entry;
    UnlinkChain(nodes, addrs, i);
    var s, t := DataOf(nodes, addrs), addrs[..i] + addrs[i + 1..];
    forall j | 0 <= j < |t| ensures DataOf(Unlinked(nodes, addrs, i), t)[j] == (s[..i] + s[i + 1..])[j] {
      UnlinkedNode(nodes, addrs, i, if j < i then j else j + 1);
    }
  }

  // ---- the two ends -----------------------------------------------------

  lemma Ends<T>(nodes: map<nat, Node<T>>, addrs: seq<nat>)
    requires Chain(nodes, addrs)
    ensures addrs == [] <==> Entry(addrs, 0, NULL) == NULL
    ensures addrs == [] <==> Last(addrs) == NULL
    ensures addrs != [] ==> Entry(addrs, 0, NULL) == addrs[0] && addrs[0] in nodes && Last(addrs) in nodes
    ensures addrs != [] ==> nodes[addrs[0]].data == DataOf(nodes, addrs)[0]
  {
    if addrs != [] {
      assert addrs[0] in addrs && addrs[|addrs| - 1] in addrs;
    }
  }

  lemma AppendEnds(addrs: seq<nat>, a: nat)
    ensures Entry(addrs + [a], 0, NULL) == if addrs == [] then a else Entry(addrs, 0, NULL)
    ensures Last(addrs + [a]) == a
  {
  }

  lemma CutEnds<T>(nodes: map<nat, Node<T>>, addrs: seq<nat>, i: nat)
    requires Chain(nodes, addrs) && i < |addrs|
    ensures addrs[i] in nodes && addrs[i] != NULL && addrs[i] !in addrs[..i] + addrs[i + 1..]
    ensures nodes[addrs[i]].data == DataOf(nodes, addrs)[i]
    ensures var t := addrs[..i] + addrs[i + 1..];
            && Entry(t, 0, NULL) == (if i == 0 then nodes[addrs[0]].next else Entry(addrs, 0, NULL))
            && (addrs[i] == Last(addrs) <==> i == |addrs| - 1)
            && Last(t) == if i < |addrs| - 1 then Last(addrs) else if i == 0 then NULL else addrs[i - 1]
  {
    hide Distinct, Entry, Last;
    assert addrs[i] in addrs;
    CutMembers(addrs, i);
    CutLast(addrs, i);
    CutFront(addrs, i);
  }

  lemma CutFront(addrs: seq<nat>, i: nat)
    requires i < |addrs|
    ensures Entry(addrs[..i] + addrs[i + 1..], 0, NULL) == if i == 0 then Entry(addrs, 1, NULL)
              else Entry(addrs, 0, NULL)
  {
  }

  lemma CutLast(addrs: seq<nat>, i: nat)
    requires i < |addrs| && Distinct(addrs)
    ensures addrs[i] == Last(addrs) <==> i == |addrs| - 1
    ensures Last(addrs[..i] + addrs[i + 1..]) == if i < |addrs| - 1 then Last(addrs) else if i == 0 then NULL
              else addrs[i - 1]
  {
    hide Distinct;
    if i < |addrs| - 1 { DistinctAt(addrs, i, |addrs| - 1); }
  }

  // ---- what the operations compute --------------------------------------

  /** Index of the first element that matches, or the length. */
  function FirstMatch<T>(s: seq<T>, matches: T -> bool): (i: nat)
    ensures i <= |s|
    ensures i < |s| ==> matches(s[i])
    ensures forall j :: 0 <= j < i ==> !matches(s[j])
  {
    if s == [] then 0
    else if matches(s[0]) then 0
    else
      var k := FirstMatch(s[1..], matches);
      assert forall j :: 0 < j < 1 + k ==> s[j] == s[1..][j - 1];
      1 + k
  }

  lemma FirstMatchUnique<T>(s: seq<T>, matches: T -> bool, i: nat)
    requires i <= |s| && (i < |s| ==> matches(s[i])) && forall j :: 0 <= j < i ==> !matches(s[j])
    ensures FirstMatch(s, matches) == i
  {
  }

  // ---- nodes in the heap ------------------------------------------------

  ghost predicate HasNode(live: set<Extent>, a: nat) {
    exists e :: e in live && e.addr == a && e.len >= NODE_SIZE
  }

  ghost predicate Stored(live: set<Extent>, addrs: seq<nat>) {
    forall a :: a in addrs ==> HasNode(live, a)
  }

  /** The heap lost exactly the extent at `a`. */
  ghost predicate Freed(before: set<Extent>, after: set<Extent>, a: nat) {
    exists e :: e in before && e.addr == a && after == before - {e}
  }

  lemma StoredAfterFree(before: set<Extent>, after: set<Extent>, a: nat, addrs: seq<nat>)
    requires Freed(before, after, a) && Stored(before, addrs) && a !in addrs
    ensures Stored(after, addrs)
  {
    forall b | b in addrs ensures HasNode(after, b) {
      assert HasNode(before, b);
    }
  }

  lemma NothingAllocated(before: set<Extent>, after: set<Extent>, n: nat)
    requires Allocated(before, after, n, NULL)
    ensures after == before
  {
  }

  lemma StoredAfterAlloc(before: set<Extent>, after: set<Extent>, n: nat, addr: nat, addrs: seq<nat>)
    requires Allocated(before, after, n, addr) && Stored(before, addrs)
    ensures Stored(after, addrs) && (addr != 0 ==> addr !in addrs)
    ensures addr != 0 && n >= NODE_SIZE ==> HasNode(after, addr)
  {
    if addr != 0 {
      var e :| NewExtent(before, after, n, addr, e);
      forall b | b in addrs ensures HasNode(after, b) && b != addr {
        assert HasNode(before, b);
      }
      assert e in after;
    }
  }

  lemma StoredAppend(live: set<Extent>, addrs: seq<nat>, a: nat)
    requires Stored(live, addrs) && HasNode(live, a)
    ensures Stored(live, addrs + [a])
  {
  }

  lemma StoredCut(live: set<Extent>, addrs: seq<nat>, i: nat)
    requires Stored(live, addrs) && i < |addrs|
    ensures HasNode(live, addrs[i]) && Stored(live, addrs[..i] + addrs[i + 1..])
  {
    assert addrs[i] in addrs;
  }

  /** Releases the node at `a`; a request for another node then succeeds. */
  method FreeNode(heap: Heap, a: nat)
    requires heap.Valid() && a != NULL && HasNode(heap.Live(), a)
    modifies heap.Repr()
    ensures heap.Valid() && Freed(old(heap.Live()), heap.Live(), a) && heap.Serves(NODE_SIZE)
  {
    ghost var e :| e in heap.Live() && e.addr == a && e.len >= NODE_SIZE;
    heap.FreeMemory(a);
    assert old(e in heap.Live());
  }

  class Queue<T> {
    var front: nat
    var rear: nat
    var size: nat
    /** The memory of the nodes this queue owns. */
    var nodes: map<nat, Node<T>>
    ghost var addrs: seq<nat>

    ghost predicate Valid()
      reads this
    {
      && Chain(nodes, addrs)
      && front == Entry(addrs, 0, NULL) && rear == Last(addrs) && size == |addrs|
    }

    ghost function Contents(): seq<T>
      requires Valid()
      reads this
    {
      DataOf(nodes, addrs)
    }

    /** The queue is well linked and all its nodes are allocated in `heap`. */
    ghost predicate In(heap: Heap)
      reads this, heap.Repr()
    {
      Valid() && heap.Valid() && Stored(heap.Live(), addrs) && this !in heap.Repr()
    }

    constructor ()
      ensures Valid() && Contents() == [] && addrs == []
    {
      front, rear, size, nodes, addrs := NULL, NULL, 0, map[], [];
    }

    /** Links the node `newNode` behind the rear. */
    method LinkLast(newNode: nat, d: T)
      requires Valid() && newNode !in addrs && newNode != NULL
      modifies this
      ensures Valid() && Contents() == old(Contents()) + [d] && addrs == old(addrs) + [newNode]
    {
      hide Chain, DataOf, Entry, Last;
      AppendData(nodes, addrs, newNode, d);
      Ends(nodes, addrs);
      AppendEnds(addrs, newNode);
      nodes := nodes[newNode := Node(d, NULL)];
      if rear == NULL {
        front := newNode;
        rear := newNode;
      } else {
        nodes := nodes[rear := nodes[rear].(next := newNode)];
        rear := newNode;
      }
      size := size + 1;
      addrs := addrs + [newNode];
    }

    method Enqueue(heap: Heap, d: T) returns (ok: bool)
      requires In(heap)
      modifies this, heap.Repr()
      ensures In(heap) && ok == old(heap.Serves(NODE_SIZE))
      ensures ok ==> Contents() == old(Contents()) + [d]
      ensures ok ==>
                exists a ::
                  addrs == old(addrs) + [a] && Allocated(old(heap.Live()), heap.Live(), NODE_SIZE, a) && a != NULL
      ensures !ok ==> Contents() == old(Contents()) && addrs == old(addrs) && heap.Live() == old(heap.Live())
    {
      hide Valid, Contents, Stored, HasNode, Allocated, Heap.Valid, Heap.Live, Heap.Serves;
      ghost var live := heap.Live();
      var newNode := heap.AllocMemory(NODE_SIZE);
      StoredAfterAlloc(live, heap.Live(), NODE_SIZE, newNode, addrs);
      if newNode == NULL {
        NothingAllocated(live, heap.Live(), NODE_SIZE);
        return false;
      }
      StoredAppend(heap.Live(), addrs, newNode);
      LinkLast(newNode, d);
      ok := true;
    }

    /** Unlinks `current`, found at index `i` behind `previous`. */
    method CutOut(current: nat, previous: nat, ghost i: nat) returns (removedData: T)
      requires Valid() && i < |addrs| && current == addrs[i]
      requires if i == 0 then previous == NULL else previous == addrs[i - 1]
      modifies this
      ensures Valid() && current !in addrs && current != NULL
      ensures removedData == old(Contents())[i] && Contents() == old(Contents())[..i] + old(Contents())[i + 1..]
      ensures addrs == old(addrs)[..i] + old(addrs)[i + 1..]
    {
      hide DataOf, Entry, Last, Distinct, Chain;
      UnlinkData(nodes, addrs, i);
      CutEnds(nodes, addrs, i);
      PreviousNode(nodes, addrs, i);
      removedData := nodes[current].data;
      ghost var nodes' := Unlinked(nodes, addrs, i);
      if previous == NULL {
        front := nodes[current].next;
      } else {
        nodes := nodes[previous := nodes[previous].(next := nodes[current].next)];
      }
      if current == rear {
        rear := previous;
      }
      nodes := nodes - {current};
      assert nodes == nodes';
      addrs := addrs[..i] + addrs[i + 1..];
      size := size - 1;
    }

    /** The first node, unlinked. */
    method PopFirst() returns (temp: nat, data: T)
      requires Valid() && addrs != []
      modifies this
      ensures Valid() && temp == old(addrs)[0] && temp !in addrs && temp != NULL
      ensures data == old(Contents())[0] && Contents() == old(Contents())[1..] && addrs == old(addrs)[1..]
    {
      hide Chain, DataOf, Entry, Last;
      Ends(nodes, addrs);
      UnlinkFirst(nodes, addrs);
      temp := front;
      data := nodes[temp].data;
      front := nodes[temp].next;
      if front == NULL {
        rear := NULL;
      }
      nodes := nodes - {temp};
      addrs := addrs[1..];
      size := size - 1;
    }

    method Dequeue(heap: Heap) returns (r: Option<T>)
      requires In(heap)
      modifies this, heap.Repr()
      ensures In(heap)
      ensures old(Contents()) == [] ==>
                r == None && Contents() == [] && heap.Live() == old(heap.Live()) && addrs == old(addrs)
      ensures old(Contents()) != [] ==>
                && r == Some(old(Contents())[0]) && Contents() == old(Contents())[1..]
                && addrs == old(addrs)[1..]
                && Freed(old(heap.Live()), heap.Live(), old(addrs)[0]) && heap.Serves(NODE_SIZE)
    {
      hide Valid, Contents, Stored, HasNode, Freed, Heap.Valid, Heap.Live, Heap.Serves;
      EmptyFront();
      if front == NULL {
        return None;
      }
      ghost var live := heap.Live();
      StoredCut(live, addrs, 0);
      assert addrs[..0] + addrs[0 + 1..] == addrs[1..];
      var temp, data := PopFirst();
      FreeNode(heap, temp);
      StoredAfterFree(live, heap.Live(), temp, addrs);
      r := Some(data);
    }

    lemma EmptyFront()
      requires Valid()
      ensures front == NULL <==> addrs == []
      ensures |Contents()| == |addrs|
    {
      Ends(nodes, addrs);
    }

    /** The walk stands at index `i`. */
    lemma Walk(i: nat)
      requires Valid() && i <= |addrs|
      ensures |Contents()| == |addrs|
      ensures Entry(addrs, i, NULL) == NULL <==> i == |addrs|
      ensures i < |addrs| ==>
                && addrs[i] in nodes && Entry(addrs, i, NULL) == addrs[i]
                && nodes[addrs[i]].next == Entry(addrs, i + 1, NULL)
                && nodes[addrs[i]].data == Contents()[i]
    {
      if i < |addrs| { assert addrs[i] in addrs; }
    }

    /** Removes the first element that matches. */
    method Remove(heap: Heap, matches: T -> bool) returns (r: Option<T>)
      requires In(heap)
      modifies this, heap.Repr()
      ensures In(heap)
      ensures var s, i := old(Contents()), FirstMatch(old(Contents()), matches);
              if i == |s| then r == None && Contents() == s && addrs == old(addrs) && heap.Live() == old(heap.Live())
              else && i < |old(addrs)| && r == Some(s[i]) && Contents() == s[..i] + s[i + 1..]
                   && addrs == old(addrs)[..i] + old(addrs)[i + 1..]
                   && Freed(old(heap.Live()), heap.Live(), old(addrs)[i]) && heap.Serves(NODE_SIZE)
    {
      hide Valid, Contents, Stored, HasNode, Freed, Entry, FirstMatch, Heap.Valid, Heap.Live, Heap.Serves;
      var found, current, previous;
      ghost var i;
      found, current, previous, i := Find(matches);
      if !found {
        return None;
      }
      ghost var live := heap.Live();
      StoredCut(live, addrs, i);
      var removedData := CutOut(current, previous, i);
      FreeNode(heap, current);
      StoredAfterFree(live, heap.Live(), current, addrs);
      r := Some(removedData);
    }

    /** The list walk of remove and containsQueue: the first matching node and the one before it. */
    method Find(matches: T -> bool) returns (found: bool, current: nat, previous: nat, ghost i: nat)
      requires Valid()
      ensures i == FirstMatch(Contents(), matches) && (found <==> i < |Contents()|) && |Contents()| == |addrs|
      ensures found ==> current == addrs[i] && current in nodes && nodes[current].data == Contents()[i]
      ensures found ==> if i == 0 then previous == NULL else previous == addrs[i - 1]
    {
      hide Valid, Contents, Entry;
      current, previous, i := front, NULL, 0;
      ghost var s := Contents();
      FrontEntry();
      Walk(0);
      while current != NULL
        invariant i <= |addrs| && current == Entry(addrs, i, NULL)
        invariant current == NULL <==> i == |addrs|
        invariant if i == 0 then previous == NULL else previous == addrs[i - 1]
        invariant forall j :: 0 <= j < i ==> !matches(s[j])
        decreases |addrs| - i
      {
        Walk(i);
        if matches(nodes[current].data) {
          FirstMatchUnique(s, matches, i);
          found := true;
          return;
        }
        previous := current;
        current := nodes[current].next;
        i := i + 1;
        Walk(i);
      }
      FirstMatchUnique(s, matches, i);
      found := false;
    }

    lemma FrontEntry()
      requires Valid()
      ensures front == Entry(addrs, 0, NULL)
    {
    }

    method Contains(matches: T -> bool) returns (r: Option<T>)
      requires Valid()
      ensures var i := FirstMatch(Contents(), matches);
              r == if i == |Contents()| then None else Some(Contents()[i])
    {
      hide Valid, Contents, FirstMatch;
      var found, current, previous;
      ghost var i;
      found, current, previous, i := Find(matches);
      r := if found then Some(nodes[current].data) else None;
    }
  }

  lemma PreviousNode<T>(nodes: map<nat, Node<T>>, addrs: seq<nat>, i: nat)
    requires Chain(nodes, addrs) && i < |addrs|
    ensures addrs[i] in nodes
    ensures i > 0 ==> addrs[i - 1] in nodes && addrs[i - 1] != NULL && addrs[i - 1] != addrs[i]
  {
    if i > 0 { assert addrs[i - 1] in addrs; }
  }

  lemma UnlinkFirst<T>(nodes: map<nat, Node<T>>, addrs: seq<nat>)
    requires Chain(nodes, addrs) && addrs != []
    ensures Chain(nodes - {addrs[0]}, addrs[1..])
    ensures DataOf(nodes - {addrs[0]}, addrs[1..]) == DataOf(nodes, addrs)[1..]
    ensures addrs[0] in nodes && addrs[0] != NULL && addrs[0] !in addrs[1..]
    ensures addrs[..0] + addrs[0 + 1..] == addrs[1..]
    ensures Entry(addrs[1..], 0, NULL) == nodes[addrs[0]].next
    ensures Last(addrs[1..]) == if nodes[addrs[0]].next == NULL then NULL else Last(addrs)
  {
    hide Distinct, Entry, Last, Chain;
    UnlinkData(nodes, addrs, 0);
    CutEnds(nodes, addrs, 0);
    SecondNode(nodes, addrs);
    assert addrs[..0] + addrs[0 + 1..] == addrs[1..];
    var s := DataOf(nodes, addrs);
    assert s[..0] + s[0 + 1..] == s[1..];
  }

  lemma SecondNode<T>(nodes: map<nat, Node<T>>, addrs: seq<nat>)
    requires Chain(nodes, addrs) && addrs != []
    ensures addrs[0] in nodes && (nodes[addrs[0]].next == NULL <==> |addrs| == 1)
  {
    if |addrs| > 1 { assert addrs[1] in addrs; }
  }
}
