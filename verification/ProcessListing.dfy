/** Which processes getProcessInfo finds, and how many there are. */
module ProcessListing {
  import opened Sequences
  import opened Processes
  import opened ProcessSafety

  /** One copied PCB. */
  datatype Row = Row(pid: nat, pcb: Pcb)

  function ProcessCount(k: Kernel): nat {
    |k.ready| + |k.blocked| + |k.bySem| + |k.zombie| + 1
  }

  function Members(s: seq<nat>): set<nat> { set p | p in s }

  /** Idle and the queued processes. */
  function Everyone(k: Kernel): set<nat> {
    {IDLE} + Members(k.ready) + Members(k.blocked) + Members(k.bySem)
  }

  function EveryoneBelow(k: Kernel, i: nat): set<nat> {
    set p | p in Everyone(k) && p < i
  }

  lemma {:induction false} MembersCount(s: seq<nat>)
    requires Distinct(s)
    ensures |Members(s)| == |s|
  {
    if s != [] {
      var t := s[1..];
      MembersCount(t);
      assert s[0] !in t;
      assert Members(s) == Members(t) + {s[0]};
    }
  }

  lemma DisjointCount(a: set<nat>, b: set<nat>)
    requires a !! b
    ensures |a + b| == |a| + |b|
  {
  }

  /** processCount counts exactly the processes getProcess can find, each of them once. */
  lemma CountIsExact(k: Kernel)
    requires KInv(k)
    ensures |Everyone(k)| == ProcessCount(k)
  {
    hide Allocated, StatusAgrees, ForegroundOk, Bounded, WaitersOk, ChildrenOk, Distinct;
    assert IDLE !in k.ready && IDLE !in k.blocked && IDLE !in k.bySem by { IdleInNoQueue(k); }
    MembersCount(k.ready);
    MembersCount(k.blocked);
    MembersCount(k.bySem);
    DisjointCount({IDLE}, Members(k.ready));
    DisjointCount({IDLE} + Members(k.ready), Members(k.blocked));
    DisjointCount({IDLE} + Members(k.ready) + Members(k.blocked), Members(k.bySem));
  }

  lemma IdleInNoQueue(k: Kernel)
    requires KInv(k)
    ensures IDLE !in k.ready && IDLE !in k.blocked && IDLE !in k.bySem
  {
  }

  /** getProcess finds exactly these, and their pids are below nextPid. */
  lemma FoundIffListed(k: Kernel, p: nat)
    requires KInv(k)
    ensures Found(k, p) <==> p in Everyone(k)
    ensures Found(k, p) ==> p in k.pcbs && p < k.nextPid
  {
    hide StatusAgrees, ForegroundOk, Bounded, WaitersOk, ChildrenOk, Distinct;
  }

  /** A scan that has not found everyone yet has not reached nextPid. */
  lemma ScanGoesOn(k: Kernel, i: nat)
    requires KInv(k) && |EveryoneBelow(k, i)| < ProcessCount(k)
    ensures i < k.nextPid
  {
    hide KInv;
    CountIsExact(k);
    forall p | p in Everyone(k) ensures p < k.nextPid { FoundIffListed(k, p); }
    assert i >= k.nextPid ==> EveryoneBelow(k, i) == Everyone(k);
  }

  lemma NextBelow(k: Kernel, i: nat)
    ensures EveryoneBelow(k, i + 1) == if i in Everyone(k) then EveryoneBelow(k, i) + {i} else EveryoneBelow(k, i)
    ensures |EveryoneBelow(k, i + 1)| == if i in Everyone(k) then |EveryoneBelow(k, i)| + 1 else |EveryoneBelow(k, i)|
  {
    assert EveryoneBelow(k, i + 1) == if i in Everyone(k) then EveryoneBelow(k, i) + {i} else EveryoneBelow(k, i);
  }

  lemma SubsetOfSameSize(a: set<nat>, b: set<nat>)
    requires a <= b && |a| == |b|
    ensures a == b
  {
    assert b == a + (b - a);
    assert |b| == |a| + |b - a|;
  }

  /** A scan that has counted everyone has found everyone, wherever it stopped. */
  lemma ScanIsDone(k: Kernel, i: nat)
    requires KInv(k) && |EveryoneBelow(k, i)| == ProcessCount(k)
    ensures EveryoneBelow(k, i) == Everyone(k)
  {
    hide KInv;
    CountIsExact(k);
    SubsetOfSameSize(EveryoneBelow(k, i), Everyone(k));
  }

  ghost predicate HasRow(rows: seq<Row>, p: nat) {
    exists a :: 0 <= a < |rows| && rows[a].pid == p
  }

  /** The rows list the processes below `i` in increasing order, with their PCBs. */
  ghost predicate ListsBelow(rows: seq<Row>, k: Kernel, i: nat) {
    && (forall a, b :: 0 <= a < b < |rows| ==> rows[a].pid < rows[b].pid)
    && (forall a :: 0 <= a < |rows| ==> rows[a].pid in EveryoneBelow(k, i))
    && (forall a :: 0 <= a < |rows| ==> rows[a].pid in k.pcbs && rows[a].pcb == k.pcbs[rows[a].pid])
    && |rows| == |EveryoneBelow(k, i)|
    && (forall p :: p in EveryoneBelow(k, i) ==> HasRow(rows, p))
  }

  lemma ListsNext(rows: seq<Row>, k: Kernel, i: nat)
    requires ListsBelow(rows, k, i)
    ensures i !in Everyone(k) ==> ListsBelow(rows, k, i + 1)
    ensures i in Everyone(k) && i in k.pcbs ==> ListsBelow(rows + [Row(i, k.pcbs[i])], k, i + 1)
  {
    NextBelow(k, i);
    if i in Everyone(k) && i in k.pcbs {
      var r := rows + [Row(i, k.pcbs[i])];
      forall p | p in EveryoneBelow(k, i + 1) ensures HasRow(r, p) {
        if p == i { assert r[|rows|].pid == p; }
        else {
          assert HasRow(rows, p);
          var a :| 0 <= a < |rows| && rows[a].pid == p;
          assert r[a].pid == p;
        }
      }
    }
  }

  lemma ListsNone(k: Kernel)
    ensures ListsBelow([], k, 0)
  {
    assert EveryoneBelow(k, 0) == {};
  }

  lemma RowsSoFar(rows: seq<Row>, k: Kernel, i: nat)
    requires KInv(k) && ListsBelow(rows, k, i)
    ensures |rows| == |EveryoneBelow(k, i)| && |rows| <= ProcessCount(k)
  {
    hide KInv, Everyone;
    CountIsExact(k);
    var rest := Everyone(k) - EveryoneBelow(k, i);
    assert Everyone(k) == EveryoneBelow(k, i) + rest;
    DisjointCount(EveryoneBelow(k, i), rest);
  }

  /** A scan that has copied processCount rows has copied idle and every queued process. */
  lemma ListsEveryone(rows: seq<Row>, k: Kernel, i: nat)
    requires KInv(k) && ListsBelow(rows, k, i) && |rows| == ProcessCount(k)
    ensures forall a, b :: 0 <= a < b < |rows| ==> rows[a].pid < rows[b].pid
    ensures forall p: nat :: HasRow(rows, p) <==> p == IDLE || Queued(k, p)
    ensures forall a :: 0 <= a < |rows| ==> rows[a].pid in k.pcbs && rows[a].pcb == k.pcbs[rows[a].pid]
  {
    hide KInv;
    ScanIsDone(k, i);
    forall p: nat ensures HasRow(rows, p) <==> p in Everyone(k) {
      assert p in Everyone(k) ==> p in EveryoneBelow(k, i);
    }
  }
}
