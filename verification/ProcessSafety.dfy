/** What every kernel operation keeps, and what follows for every run. */
module ProcessSafety {
  import opened Sequences
  import opened Semaphores
  import opened Processes

  // ---- the invariant ----------------------------------------------------

  /** Each queue lists a process at most once and no process is in two queues; nobody stays a zombie. */
  ghost predicate OneQueue(k: Kernel) {
    && Distinct(k.ready) && Distinct(k.blocked) && Distinct(k.bySem) && k.zombie == []
    && (forall p :: p in k.ready ==> p !in k.blocked && p !in k.bySem)
    && (forall p :: p in k.blocked ==> p !in k.bySem)
  }

  /** Queued processes are allocated, idle exists and is in no queue, stacks come with PCBs, pids are below nextPid. */
  ghost predicate Allocated(k: Kernel) {
    && IDLE in k.pcbs && !Queued(k, IDLE)
    && (forall p: nat :: Queued(k, p) ==> p in k.pcbs)
    && (forall p :: p in k.pcbs ==> p < k.nextPid)
    && k.stacks == k.pcbs.Keys
  }

  /** The status a process has, given where it is. */
  predicate StatusFits(k: Kernel, p: nat, st: Status) {
    && (p in k.ready || p == IDLE ==> st == READY || st == RUNNING)
    && (p in k.blocked || p in k.bySem ==> st == BLOCKED)
    && st != ZOMBIE && (st == RUNNING ==> p == k.current)
  }

  /** The status of every process agrees with its queue; only the current process runs. */
  ghost predicate StatusAgrees(k: Kernel) {
    forall p :: p in k.pcbs ==> StatusFits(k, p, k.pcbs[p].status)
  }

  ghost predicate ForegroundOk(k: Kernel) {
    k.foreground == -1 || Queued(k, k.foreground)
  }

  ghost predicate Bounded(k: Kernel) {
    && (forall p :: p in k.pcbs ==> 0 <= k.pcbs[p].priority <= IDLE_PRIORITY)
    && k.quantum <= 18
  }

  /** A process suspended in waitpid is blocked, and its target is a live child of it. */
  predicate Suspended(k: Kernel, p: nat, c: nat) {
    && p in k.blocked && p in k.pcbs && k.pcbs[p].waitingFor == c
    && Queued(k, c) && c in k.pcbs && k.pcbs[c].parent == p
  }

  ghost predicate WaitersOk(k: Kernel) {
    forall p :: p in k.waiting ==> Suspended(k, p, k.waiting[p])
  }

  /**
   Parents are older than children; whoever a PCB records as waited for is, if
   still there, a child of that process.
   */
  ghost predicate ChildrenOk(k: Kernel) {
    && (forall p :: p in k.pcbs ==> k.pcbs[p].parent < p)
    && (forall p :: p in k.pcbs ==> k.pcbs[p].waitingFor < k.nextPid)
    && (forall p, c :: p in k.pcbs && c in k.pcbs && k.pcbs[p].waitingFor == c ==> k.pcbs[c].parent == p)
  }

  /** The invariant except for the current-process pointer. */
  ghost predicate Core(k: Kernel) {
    && OneQueue(k) && Allocated(k) && StatusAgrees(k) && ForegroundOk(k)
    && Bounded(k) && WaitersOk(k) && ChildrenOk(k)
  }

  ghost predicate KInv(k: Kernel) {
    Core(k) && (k.current == IDLE || k.current in k.ready)
  }

  lemma BootInv()
    ensures KInv(Boot())
  {
  }

  // ---- moving one process -----------------------------------------------

  /** Only `p` may have changed queue, and it is still queued. */
  ghost predicate Relocates(k: Kernel, k': Kernel, p: nat) {
    && (forall q :: q != p ==> (q in k'.ready <==> q in k.ready))
    && (forall q :: q != p ==> (q in k'.blocked <==> q in k.blocked))
    && (forall q :: q != p ==> (q in k'.bySem <==> q in k.bySem))
    && Queued(k, p) && Queued(k', p)
  }

  /** Everything but queues, the status of `p` and the record of suspended callers is as before. */
  ghost predicate SameRest(k: Kernel, k': Kernel, p: nat) {
    && p in k.pcbs && p in k'.pcbs && k'.pcbs == k.pcbs[p := k.pcbs[p].(status := k'.pcbs[p].status)]
    && k'.stacks == k.stacks && k'.nextPid == k.nextPid && k'.foreground == k.foreground && k'.quantum == k.quantum
    && k'.current == k.current
  }

  lemma RelocateAllocated(k: Kernel, k': Kernel, p: nat)
    requires Allocated(k) && Relocates(k, k', p) && SameRest(k, k', p)
    ensures Allocated(k') && (ForegroundOk(k) ==> ForegroundOk(k')) && (Bounded(k) ==> Bounded(k'))
    ensures ChildrenOk(k) ==> ChildrenOk(k')
  {
  }

  lemma RelocateStatus(k: Kernel, k': Kernel, p: nat)
    requires StatusAgrees(k) && Relocates(k, k', p) && SameRest(k, k', p)
    requires StatusFits(k', p, k'.pcbs[p].status)
    ensures StatusAgrees(k')
  {
    forall q | q in k'.pcbs ensures StatusFits(k', q, k'.pcbs[q].status) {
      if q != p { assert StatusFits(k, q, k.pcbs[q].status); }
    }
  }

  lemma RelocateWaiters(k: Kernel, k': Kernel, p: nat)
    requires WaitersOk(k) && Relocates(k, k', p) && SameRest(k, k', p)
    requires forall q :: q in k'.waiting ==> q in k.waiting && k'.waiting[q] == k.waiting[q]
    requires p in k'.waiting ==> p in k'.blocked
    ensures WaitersOk(k')
  {
    forall q | q in k'.waiting ensures Suspended(k', q, k'.waiting[q]) {
      assert Suspended(k, q, k.waiting[q]);
    }
  }

  /** Moving one process between queues, with the status of its new queue, keeps the core invariant. */
  lemma RelocateKeeps(k: Kernel, k': Kernel, p: nat)
    requires Core(k) && OneQueue(k') && Relocates(k, k', p) && SameRest(k, k', p)
    requires StatusFits(k', p, k'.pcbs[p].status)
    requires forall q :: q in k'.waiting ==> q in k.waiting && k'.waiting[q] == k.waiting[q]
    requires p in k'.waiting ==> p in k'.blocked
    ensures Core(k')
  {
    hide OneQueue, Allocated, StatusAgrees, ForegroundOk, Bounded, WaitersOk, ChildrenOk, Relocates, SameRest;
    RelocateAllocated(k, k', p);
    RelocateStatus(k, k', p);
    RelocateWaiters(k, k', p);
  }

  /** Taking `p` out of one list and appending it to another. */
  lemma TransferMembers(from: seq<nat>, to: seq<nat>, p: nat)
    requires Distinct(from) && Distinct(to) && p in from && p !in to
    ensures Distinct(Without(from, p)) && Distinct(to + [p])
    ensures p !in Without(from, p) && p in to + [p]
    ensures forall q :: q != p ==> (q in Without(from, p) <==> q in from)
    ensures forall q :: q != p ==> (q in to + [p] <==> q in to)
  {
    WithoutMembers(from, p);
    DistinctAppend(to, p);
  }

  function ToBlocked(k: Kernel, p: nat): Kernel {
    SetStatus(k.(ready := Without(k.ready, p), blocked := k.blocked + [p]), p, BLOCKED)
  }

  lemma ToBlockedKeeps(k: Kernel, p: nat)
    requires Core(k) && p in k.ready
    ensures Core(ToBlocked(k, p))
  {
    hide WaitersOk, ChildrenOk, StatusAgrees, Bounded, ForegroundOk, Distinct;
    var k' := ToBlocked(k, p);
    TransferMembers(k.ready, k.blocked, p);
    assert Queued(k, p);
    NotWaiting(k, p);
    RelocateKeeps(k, k', p);
  }

  lemma NotWaiting(k: Kernel, p: nat)
    requires OneQueue(k) && WaitersOk(k) && p in k.ready
    ensures p !in k.waiting
  {
    assert p in k.waiting ==> Suspended(k, p, k.waiting[p]);
  }

  lemma UnblockKeeps(k: Kernel, pid: int)
    requires Core(k)
    ensures Core(Unblock(k, pid))
  {
    hide WaitersOk, ChildrenOk, StatusAgrees, Bounded, ForegroundOk, Distinct;
    if pid in k.blocked {
      var p: nat := pid;
      TransferMembers(k.blocked, k.ready, p);
      assert Queued(k, p);
      RelocateKeeps(k, Unblock(k, pid), p);
    }
  }

  function ToBySem(k: Kernel, p: nat): Kernel {
    SetStatus(k.(ready := Without(k.ready, p), bySem := k.bySem + [p]), p, BLOCKED)
  }

  lemma ToBySemKeeps(k: Kernel, p: nat)
    requires Core(k) && p in k.ready
    ensures Core(ToBySem(k, p))
  {
    hide WaitersOk, ChildrenOk, StatusAgrees, Bounded, ForegroundOk, Distinct;
    TransferMembers(k.ready, k.bySem, p);
    assert Queued(k, p);
    NotWaiting(k, p);
    RelocateKeeps(k, ToBySem(k, p), p);
  }

  function FromBySem(k: Kernel, p: nat): Kernel {
    SetStatus(k.(bySem := Without(k.bySem, p), ready := k.ready + [p]), p, READY)
  }

  lemma FromBySemKeeps(k: Kernel, p: nat)
    requires Core(k) && p in k.bySem
    ensures Core(FromBySem(k, p))
  {
    hide WaitersOk, ChildrenOk, StatusAgrees, Bounded, ForegroundOk, Distinct;
    TransferMembers(k.bySem, k.ready, p);
    assert Queued(k, p);
    NotWaitingBySem(k, p);
    RelocateKeeps(k, FromBySem(k, p), p);
  }

  lemma NotWaitingBySem(k: Kernel, p: nat)
    requires OneQueue(k) && WaitersOk(k) && p in k.bySem
    ensures p !in k.waiting
  {
    assert p in k.waiting ==> Suspended(k, p, k.waiting[p]);
  }

  // ---- context switches -------------------------------------------------

  /** Every quantum is between 3 and 18 ticks. */
  lemma QuantumBound(p: int)
    requires 0 <= p <= IDLE_PRIORITY
    ensures QUANTUM <= CalculateQuantum(p) <= 18
  {
  }

  lemma RotatedMembers(s: seq<nat>)
    ensures forall p :: p in Rotated(s) <==> p in s
    ensures Distinct(s) ==> Distinct(Rotated(s))
    ensures |Rotated(s)| == |s|
  {
    if s != [] {
      assert s == [s[0]] + s[1..];
    }
  }

  /** The queues hold the same processes and the PCBs differ at most in status. */
  ghost predicate SameButStatus(k: Kernel, k': Kernel) {
    && (forall q :: q in k'.ready <==> q in k.ready) && (Distinct(k.ready) ==> Distinct(k'.ready))
    && k'.blocked == k.blocked && k'.bySem == k.bySem && k'.zombie == k.zombie
    && k'.pcbs.Keys == k.pcbs.Keys
    && (forall q :: q in k.pcbs ==> k'.pcbs[q] == k.pcbs[q].(status := k'.pcbs[q].status))
    && k'.stacks == k.stacks && k'.nextPid == k.nextPid && k'.waiting == k.waiting
  }

  lemma DispatchSame(k: Kernel)
    requires Allocated(k)
    ensures SameButStatus(k, Dispatch(k))
    ensures Dispatch(k).current == NextProcess(k) == Dispatch(k).currentPid && NextProcess(k) in k.pcbs
  {
    hide Distinct, Rotated, SameButStatus;
    assert k.ready != [] ==> Queued(k, k.ready[0]);
    DemoteSame(k);
    PromoteSame(Demote(k));
    SameTransitive(k, Demote(k), Dispatch(k));
  }

  lemma DemoteSame(k: Kernel)
    ensures SameButStatus(k, Demote(k))
  {
  }

  lemma PromoteSame(k: Kernel)
    ensures SameButStatus(k, Promote(k))
  {
    hide Distinct, Rotated;
    RotatedMembers(k.ready);
  }

  lemma SameTransitive(a: Kernel, b: Kernel, c: Kernel)
    requires SameButStatus(a, b) && SameButStatus(b, c)
    ensures SameButStatus(a, c)
  {
    hide Distinct;
  }

  /** Neither the other queues nor the semaphores nor the suspended callers changed. */
  predicate Frame(k: Kernel, k': Kernel) {
    && k'.bySem == k.bySem && k'.blocked == k.blocked && k'.zombie == k.zombie
    && k'.sems == k.sems && k'.logs == k.logs && k'.waiting == k.waiting
  }

  lemma DemoteFrame(k: Kernel)
    ensures Frame(k, Demote(k))
  {
  }

  lemma PromoteFrame(k: Kernel)
    ensures Frame(k, Promote(k))
  {
    hide Rotated, CalculateQuantum;
  }

  lemma YieldFrame(k: Kernel)
    ensures Frame(k, Yield(k)) && Frame(k, Tick(k))
  {
    hide Demote, Promote;
    DemoteFrame(k);
    PromoteFrame(Demote(k));
    DemoteFrame(k.(quantum := 0));
    PromoteFrame(Demote(k.(quantum := 0)));
  }

  lemma SameCore(k: Kernel, k': Kernel)
    requires SameButStatus(k, k')
    ensures OneQueue(k) ==> OneQueue(k')
    ensures Allocated(k) ==> Allocated(k')
    ensures WaitersOk(k) ==> WaitersOk(k')
    ensures ChildrenOk(k) ==> ChildrenOk(k')
  {
    assert WaitersOk(k) ==> forall p :: p in k'.waiting ==> Suspended(k, p, k.waiting[p]);
  }

  /** After the demotion nobody runs. */
  lemma DemoteStatus(k: Kernel)
    requires StatusAgrees(k)
    ensures StatusAgrees(Demote(k)) && forall p :: p in Demote(k).pcbs ==> Demote(k).pcbs[p].status != RUNNING
  {
    var k' := Demote(k);
    forall p | p in k'.pcbs ensures StatusFits(k', p, k'.pcbs[p].status) && k'.pcbs[p].status != RUNNING {
      assert StatusFits(k, p, k.pcbs[p].status);
    }
  }

  lemma PromoteStatus(k: Kernel)
    requires StatusAgrees(k) && (forall p :: p in k.pcbs ==> k.pcbs[p].status != RUNNING)
    requires OneQueue(k) && !Queued(k, IDLE)
    ensures StatusAgrees(Promote(k))
  {
    hide Distinct, Rotated;
    RotatedMembers(k.ready);
    var k' := Promote(k);
    forall p | p in k'.pcbs ensures StatusFits(k', p, k'.pcbs[p].status) {
      assert StatusFits(k, p, k.pcbs[p].status);
      assert p == NextProcess(k) && p != IDLE ==> p in k.ready;
    }
  }

  lemma DispatchStatus(k: Kernel)
    requires OneQueue(k) && Allocated(k) && StatusAgrees(k)
    ensures StatusAgrees(Dispatch(k))
  {
    hide Distinct, StatusAgrees, Promote;
    DemoteStatus(k);
    PromoteStatus(Demote(k));
  }

  lemma DispatchBounded(k: Kernel)
    requires Allocated(k) && Bounded(k) && ForegroundOk(k)
    ensures Bounded(Dispatch(k)) && ForegroundOk(Dispatch(k))
  {
    hide Distinct;
    DispatchSame(k);
    var p := k.pcbs[NextProcess(k)].priority;
    QuantumBound(p);
  }

  /** A context switch re-establishes the whole invariant, whatever happened to the previous process. */
  lemma DispatchKeeps(k: Kernel)
    requires Core(k)
    ensures KInv(Dispatch(k))
  {
    hide Dispatch, OneQueue, Allocated, StatusAgrees, ForegroundOk, Bounded, WaitersOk, ChildrenOk, Distinct;
    DispatchSame(k);
    SameCore(k, Dispatch(k));
    DispatchStatus(k);
    DispatchBounded(k);
  }

  lemma YieldKeeps(k: Kernel)
    requires Core(k)
    ensures KInv(Yield(k))
  {
    hide Dispatch, OneQueue, Allocated, StatusAgrees, ForegroundOk, WaitersOk, ChildrenOk;
    QuantumOnly(k, 0);
    DispatchKeeps(k.(quantum := 0));
  }

  /** Spending quantum touches nothing else. */
  lemma QuantumOnly(k: Kernel, q: nat)
    requires Core(k) && q <= 18
    ensures Core(k.(quantum := q))
  {
    var k' := k.(quantum := q);
    assert SameButStatus(k, k');
    SameCore(k, k');
  }

  lemma TickKeeps(k: Kernel)
    requires KInv(k)
    ensures KInv(Tick(k))
  {
    hide Dispatch, OneQueue, Allocated, StatusAgrees, ForegroundOk, WaitersOk, ChildrenOk;
    DispatchKeeps(k);
    if k.quantum > 0 { QuantumOnly(k, k.quantum - 1); }
  }

  lemma BlockKeeps(k: Kernel, pid: int)
    requires KInv(k)
    ensures KInv(Block(k, pid))
  {
    hide Core, Yield;
    if pid in k.ready && pid !in k.bySem {
      var p: nat := pid;
      ToBlockedKeeps(k, p);
      if p == k.current { YieldKeeps(ToBlocked(k, p)); } else { StillReady(k, p, k.current); }
    }
  }

  lemma StillReady(k: Kernel, p: nat, q: nat)
    requires Core(k) && q != p && (q == IDLE || q in k.ready)
    ensures q == IDLE || q in Without(k.ready, p)
  {
    WithoutMembers(k.ready, p);
  }

  // ---- kill -------------------------------------------------------------

  /** Nobody is suspended on `pid`. */
  ghost predicate Unawaited(k: Kernel, pid: nat) {
    forall q :: q in k.waiting ==> k.waiting[q] != pid
  }

  lemma EraseMembers(k: Kernel, pid: nat)
    requires OneQueue(k)
    ensures OneQueue(Erase(k, pid))
    ensures forall q :: q in Erase(k, pid).ready <==> q in k.ready && q != pid
    ensures forall q :: q in Erase(k, pid).blocked <==> q in k.blocked && q != pid
    ensures forall q :: q in Erase(k, pid).bySem <==> q in k.bySem && q != pid
  {
    WithoutMembers(k.ready, pid);
    WithoutMembers(k.blocked, pid);
    WithoutMembers(k.bySem, pid);
  }

  lemma EraseKeeps(k: Kernel, pid: nat)
    requires Core(k) && pid != IDLE && Unawaited(k, pid)
    ensures Core(Erase(k, pid))
  {
    hide Distinct, Without;
    EraseMembers(k, pid);
    EraseStatus(k, pid);
    EraseWaiters(k, pid);
  }

  lemma EraseStatus(k: Kernel, pid: nat)
    requires OneQueue(k) && StatusAgrees(k)
    ensures StatusAgrees(Erase(k, pid))
  {
    hide Distinct, Without;
    EraseMembers(k, pid);
    var k' := Erase(k, pid);
    forall p | p in k'.pcbs ensures StatusFits(k', p, k'.pcbs[p].status) {
      assert StatusFits(k, p, k.pcbs[p].status);
    }
  }

  lemma EraseWaiters(k: Kernel, pid: nat)
    requires OneQueue(k) && WaitersOk(k) && Unawaited(k, pid)
    ensures WaitersOk(Erase(k, pid))
  {
    hide Distinct, Without;
    EraseMembers(k, pid);
    var k' := Erase(k, pid);
    forall p | p in k'.waiting ensures Suspended(k', p, k'.waiting[p]) {
      assert Suspended(k, p, k.waiting[p]);
    }
  }

  /** Waking the parent first and erasing then gives the same state. */
  lemma EraseUnblockCommute(k: Kernel, pid: nat, parent: nat)
    requires OneQueue(k) && Allocated(k) && pid != parent && parent in k.blocked
    ensures parent in Erase(k, pid).blocked
    ensures Unblock(Erase(k, pid), parent) == Erase(Unblock(k, parent), pid)
  {
    hide Distinct, Without;
    EraseMembers(k, pid);
    assert Queued(k, parent);
    WithoutAppend(k.ready, parent, pid);
    WithoutTwice(k.blocked, pid, parent);
    var a, b := Unblock(Erase(k, pid), parent), Erase(Unblock(k, parent), pid);
    assert a.pcbs == b.pcbs;
    assert a.waiting == b.waiting;
  }

  /** Only the parent can be suspended on a process, and then kill finds it. */
  lemma OnlyParentWaits(k: Kernel, pid: nat, q: nat)
    requires WaitersOk(k) && q in k.waiting && k.waiting[q] == pid
    ensures pid in k.pcbs && k.pcbs[pid].parent == q && q in k.blocked && q in k.pcbs && k.pcbs[q].waitingFor == pid
  {
    assert Suspended(k, q, k.waiting[q]);
  }

  /** The state kill reaches before it may switch. */
  function Killed(k: Kernel, pid: nat): Kernel
    requires pid in k.pcbs
  {
    var parent := k.pcbs[pid].parent;
    var k1 := Erase(k, pid);
    if WaitsFor(k1, parent, pid) then Unblock(k1, parent) else k1
  }

  lemma KilledKeeps(k: Kernel, pid: nat)
    requires Core(k) && pid in k.pcbs && pid != IDLE
    ensures Core(Killed(k, pid))
  {
    hide Distinct, Without, Allocated, StatusAgrees, Bounded, ChildrenOk, ForegroundOk, WaitersOk;
    var parent := k.pcbs[pid].parent;
    EraseMembers(k, pid);
    if WaitsFor(Erase(k, pid), parent, pid) {
      EraseUnblockCommute(k, pid, parent);
      UnblockKeeps(k, parent);
      forall q | q in Unblock(k, parent).waiting ensures Unblock(k, parent).waiting[q] != pid {
        if k.waiting[q] == pid { OnlyParentWaits(k, pid, q); }
      }
      EraseKeeps(Unblock(k, parent), pid);
    } else {
      forall q | q in k.waiting ensures k.waiting[q] != pid {
        if k.waiting[q] == pid { OnlyParentWaits(k, pid, q); NoSelfWait(k, q); }
      }
      EraseKeeps(k, pid);
    }
  }

  lemma NoSelfWait(k: Kernel, q: nat)
    requires WaitersOk(k) && ChildrenOk(k) && q in k.waiting
    ensures k.waiting[q] != q
  {
    assert Suspended(k, q, k.waiting[q]);
  }

  lemma KillKeeps(k: Kernel, pid: int)
    requires KInv(k)
    ensures KInv(Kill(k, pid))
  {
    hide Core, Yield, Queued, Without;
    if !(pid <= 1 || !Queued(k, pid) || pid !in k.pcbs) {
      var p: nat := pid;
      KilledKeeps(k, p);
      if pid == k.currentPid { YieldKeeps(Killed(k, p)); } else { KilledCurrent(k, p); }
    }
  }

  lemma KilledCurrent(k: Kernel, pid: nat)
    requires KInv(k) && pid in k.pcbs
    ensures Killed(k, pid).current == IDLE || Killed(k, pid).current in Killed(k, pid).ready
  {
    hide Distinct, Without;
    EraseMembers(k, pid);
  }

  // ---- waitpid ----------------------------------------------------------

  /** A process accepted by waitpid is a child of the caller, and not idle. */
  lemma MayWaitChild(k: Kernel, pid: nat)
    requires KInv(k) && MayWait(k, pid)
    ensures k.pcbs[pid].parent == k.current && pid != k.current && k.pcbs[pid].status != ZOMBIE
    ensures k.current in k.ready ==> Queued(k, pid)
  {
    assert StatusFits(k, pid, k.pcbs[pid].status);
  }

  /** One PCB rewritten, with a status that fits its place. */
  lemma RewriteBasics(k: Kernel, k': Kernel, p: nat)
    requires p in k.pcbs && p in k'.pcbs && k'.pcbs == k.pcbs[p := k'.pcbs[p]]
              && k' == k.(pcbs := k'.pcbs, waiting := k'.waiting)
    requires StatusFits(k, p, k'.pcbs[p].status) && 0 <= k'.pcbs[p].priority <= IDLE_PRIORITY
    ensures OneQueue(k) ==> OneQueue(k')
    ensures Allocated(k) ==> Allocated(k')
    ensures ForegroundOk(k) ==> ForegroundOk(k')
    ensures Bounded(k) ==> Bounded(k')
  {
    hide Distinct;
    assert k'.pcbs.Keys == k.pcbs.Keys;
  }

  lemma RewriteStatus(k: Kernel, k': Kernel, p: nat)
    requires p in k.pcbs && p in k'.pcbs && k'.pcbs == k.pcbs[p := k'.pcbs[p]]
              && k' == k.(pcbs := k'.pcbs, waiting := k'.waiting)
    requires StatusFits(k, p, k'.pcbs[p].status) && StatusAgrees(k)
    ensures StatusAgrees(k')
  {
    forall q | q in k'.pcbs ensures StatusFits(k', q, k'.pcbs[q].status) {
      assert q != p ==> StatusFits(k, q, k.pcbs[q].status);
    }
  }

  lemma AwaitKeeps(k: Kernel, p: nat, c: nat)
    requires Core(k) && p in k.blocked && p in k.pcbs && c in k.pcbs && Queued(k, c) && k.pcbs[c].parent == p
    ensures Core(SetWaitingFor(k, p, c, BLOCKED).(waiting := k.waiting[p := c]))
  {
    hide Distinct, OneQueue, Allocated, StatusAgrees, ForegroundOk, Bounded, WaitersOk, ChildrenOk, StatusFits;
    var k' := SetWaitingFor(k, p, c, BLOCKED).(waiting := k.waiting[p := c]);
    FitOf(k, p);
    RewriteBasics(k, k', p);
    RewriteStatus(k, k', p);
    AwaitWaiters(k, p, c);
    AwaitChildren(k, p, c);
  }

  lemma FitOf(k: Kernel, p: nat)
    requires Core(k) && p in k.pcbs
    ensures StatusFits(k, p, k.pcbs[p].status) && 0 <= k.pcbs[p].priority <= IDLE_PRIORITY
    ensures p in k.blocked ==> StatusFits(k, p, BLOCKED)
    ensures p == IDLE ==> StatusFits(k, p, READY)
  {
  }

  lemma AwaitChildren(k: Kernel, p: nat, c: nat)
    requires Allocated(k) && ChildrenOk(k) && p in k.pcbs && c in k.pcbs && k.pcbs[c].parent == p
    ensures ChildrenOk(SetWaitingFor(k, p, c, BLOCKED).(waiting := k.waiting[p := c]))
  {
    hide Queued;
    var k' := SetWaitingFor(k, p, c, BLOCKED).(waiting := k.waiting[p := c]);
    forall q, d | q in k'.pcbs && d in k'.pcbs && k'.pcbs[q].waitingFor == d ensures k'.pcbs[d].parent == q {
      assert k'.pcbs[d].parent == k.pcbs[d].parent;
    }
  }

  lemma AwaitWaiters(k: Kernel, p: nat, c: nat)
    requires WaitersOk(k) && p in k.blocked && p in k.pcbs && c in k.pcbs && Queued(k, c) && k.pcbs[c].parent == p
    ensures WaitersOk(SetWaitingFor(k, p, c, BLOCKED).(waiting := k.waiting[p := c]))
  {
    var k' := SetWaitingFor(k, p, c, BLOCKED).(waiting := k.waiting[p := c]);
    forall q | q in k'.waiting ensures Suspended(k', q, k'.waiting[q]) {
      if q != p { assert Suspended(k, q, k.waiting[q]); }
    }
  }

  /** The caller could not be blocked: only the two fields it had just set are put back. */
  lemma WaitFailsKeeps(k: Kernel)
    requires KInv(k) && k.current !in k.ready
    ensures KInv(SetWaitingFor(k, k.current, -1, READY))
  {
    hide Distinct, OneQueue, Allocated, StatusAgrees, ForegroundOk, Bounded, WaitersOk, ChildrenOk, StatusFits, Queued;
    IdleNeverWaits(k);
    FitOf(k, IDLE);
    var k' := SetWaitingFor(k, k.current, -1, READY);
    RewriteBasics(k, k', IDLE);
    RewriteStatus(k, k', IDLE);
    IdleResetWaiters(k);
    IdleResetChildren(k);
  }

  lemma IdleResetWaiters(k: Kernel)
    requires WaitersOk(k) && IDLE in k.pcbs && IDLE !in k.waiting
    ensures WaitersOk(SetWaitingFor(k, IDLE, -1, READY))
  {
    var k' := SetWaitingFor(k, IDLE, -1, READY);
    forall q | q in k'.waiting ensures Suspended(k', q, k'.waiting[q]) { assert Suspended(k, q, k.waiting[q]); }
  }

  lemma IdleResetChildren(k: Kernel)
    requires ChildrenOk(k) && IDLE in k.pcbs
    ensures ChildrenOk(SetWaitingFor(k, IDLE, -1, READY))
  {
    var k' := SetWaitingFor(k, IDLE, -1, READY);
    forall q, c | q in k'.pcbs && c in k'.pcbs && k'.pcbs[q].waitingFor == c ensures k'.pcbs[c].parent == q {
      assert k.pcbs[q].waitingFor == c && k'.pcbs[c].parent == k.pcbs[c].parent;
    }
  }

  lemma IdleNeverWaits(k: Kernel)
    requires Allocated(k) && WaitersOk(k)
    ensures IDLE !in k.waiting && IDLE in k.pcbs
  {
    assert IDLE in k.waiting ==> Suspended(k, IDLE, k.waiting[IDLE]);
  }

  lemma WaitpidKeeps(k: Kernel, pid: int)
    requires KInv(k)
    ensures KInv(Waitpid(k, pid))
  {
    hide Core, Yield, Distinct, Without;
    if MayWait(k, pid) {
      var c: nat := pid;
      MayWaitChild(k, c);
      if k.current in k.bySem || k.current !in k.ready {
        WaitFailsKeeps(k) by { CurrentPlace(k); }
      } else {
        var p := k.current;
        SuspendCommutes(k, c);
        ToBlockedKeeps(k, p);
        BlockedStill(k, p, c);
        AwaitKeeps(ToBlocked(k, p), p, c);
        YieldKeeps(SetWaitingFor(ToBlocked(k, p), p, c, BLOCKED).(waiting := k.waiting[p := c]));
      }
    }
  }

  lemma CurrentPlace(k: Kernel)
    requires KInv(k) && (k.current in k.bySem || k.current !in k.ready)
    ensures k.current !in k.ready
  {
  }

  lemma BlockedStill(k: Kernel, p: nat, c: nat)
    requires Core(k) && p in k.ready && Queued(k, c)
    ensures p in ToBlocked(k, p).blocked && Queued(ToBlocked(k, p), c)
    ensures p in ToBlocked(k, p).pcbs && ToBlocked(k, p).waiting == k.waiting
    ensures c in k.pcbs && c in ToBlocked(k, p).pcbs && ToBlocked(k, p).pcbs[c].parent == k.pcbs[c].parent
  {
    assert Queued(k, p);
    TransferMembers(k.ready, k.blocked, p);
  }

  /** Recording the target and then blocking is blocking and then recording. */
  lemma SuspendCommutes(k: Kernel, c: nat)
    requires KInv(k) && MayWait(k, c) && k.pcbs[c].status != ZOMBIE && k.current in k.ready && k.current !in k.bySem
    ensures Waitpid(k, c) == Yield(SetWaitingFor(ToBlocked(k, k.current), k.current, c,
              BLOCKED).(waiting := k.waiting[k.current := c]))
  {
    hide Distinct, Without, Core, Tick;
    var p := k.current;
    var a := SetWaitingFor(k, p, c, BLOCKED).(waiting := k.waiting[p := c]);
    var b := SetWaitingFor(ToBlocked(k, p), p, c, BLOCKED).(waiting := k.waiting[p := c]);
    assert ToBlocked(a, p).pcbs == b.pcbs;
    assert ToBlocked(a, p) == b;
  }

  // ---- creation ---------------------------------------------------------

  /** A fresh process `n` appears, queued at most at the end of one queue. */
  ghost predicate Adds(k: Kernel, k': Kernel, n: nat) {
    && n == k.nextPid && k'.nextPid == n + 1
    && n in k'.pcbs && k'.pcbs == k.pcbs[n := k'.pcbs[n]] && k'.stacks == k.stacks + {n}
    && ((k'.ready == k.ready + [n] && k'.blocked == k.blocked)
        || (k'.ready == k.ready && k'.blocked == k.blocked + [n])
        || (k'.ready == k.ready && k'.blocked == k.blocked))
    && k'.bySem == k.bySem && k'.zombie == k.zombie && k'.foreground == k.foreground
    && k'.quantum == k.quantum && k'.waiting == k.waiting
    && k'.pcbs[n].waitingFor == -1 && k'.pcbs[n].parent < n && 0 <= k'.pcbs[n].priority <= IDLE_PRIORITY
  }

  lemma FreshPid(k: Kernel)
    requires Allocated(k)
    ensures k.nextPid !in k.pcbs && !Queued(k, k.nextPid)
  {
  }

  lemma AddQueues(k: Kernel, k': Kernel, n: nat)
    requires OneQueue(k) && Allocated(k) && Adds(k, k', n)
    ensures OneQueue(k') && Allocated(k')
    ensures ForegroundOk(k) ==> ForegroundOk(k')
  {
    hide Distinct;
    FreshPid(k);
    DistinctAppend(k.ready, n);
    DistinctAppend(k.blocked, n);
  }

  lemma AddStatus(k: Kernel, k': Kernel, n: nat)
    requires Allocated(k) && StatusAgrees(k) && Adds(k, k', n) && StatusFits(k', n, k'.pcbs[n].status)
    requires k'.current == k.current || (k.current == IDLE && k.pcbs[IDLE].status != RUNNING)
    ensures StatusAgrees(k')
  {
    FreshPid(k);
    forall q | q in k'.pcbs ensures StatusFits(k', q, k'.pcbs[q].status) {
      assert q != n ==> StatusFits(k, q, k.pcbs[q].status);
    }
  }

  lemma AddWaiters(k: Kernel, k': Kernel, n: nat)
    requires Allocated(k) && WaitersOk(k) && Adds(k, k', n)
    ensures WaitersOk(k')
  {
    FreshPid(k);
    forall q | q in k'.waiting ensures Suspended(k', q, k'.waiting[q]) { assert Suspended(k, q, k.waiting[q]); }
  }

  lemma AddChildren(k: Kernel, k': Kernel, n: nat)
    requires Allocated(k) && ChildrenOk(k) && Bounded(k) && Adds(k, k', n)
    ensures ChildrenOk(k') && Bounded(k')
  {
    FreshPid(k);
  }

  lemma AddKeeps(k: Kernel, k': Kernel, n: nat)
    requires Core(k) && Adds(k, k', n) && StatusFits(k', n, k'.pcbs[n].status)
    requires k'.current == k.current || (k.current == IDLE && IDLE in k.pcbs && k.pcbs[IDLE].status != RUNNING)
    ensures Core(k')
  {
    hide OneQueue, Allocated, StatusAgrees, ForegroundOk, Bounded, WaitersOk, ChildrenOk, Adds, StatusFits;
    AddQueues(k, k', n);
    AddStatus(k, k', n);
    AddWaiters(k, k', n);
    AddChildren(k, k', n);
  }

  /** nextPid moves on when the PCB was allocated, even if the process is then given up. */
  lemma SkipPidKeeps(k: Kernel)
    requires Core(k)
    ensures Core(k.(nextPid := k.nextPid + 1))
  {
    var k' := k.(nextPid := k.nextPid + 1);
    hide Distinct;
    forall q | q in k'.pcbs ensures StatusFits(k', q, k'.pcbs[q].status) { assert StatusFits(k, q, k.pcbs[q].status); }
    forall q | q in k'.waiting ensures Suspended(k', q, k'.waiting[q]) { assert Suspended(k, q, k.waiting[q]); }
  }

  /** The cases of createProcess in which a process comes into being. */
  lemma CreateAdds(k: Kernel, priority: nat, foreground: bool, tty: bool, luck: Luck)
    requires Core(k) && k.current in k.pcbs && luck.pcb && luck.stack && (k.nextPid == 1 ==> luck.pipe)
    requires luck.node || k.current != IDLE
    ensures var k' := Create(k, priority, foreground, tty, luck);
            && Adds(k, k', k.nextPid) && StatusFits(k', k.nextPid, k'.pcbs[k.nextPid].status)
            && (k'.current == k.current || (k.current == IDLE && k'.current == k.nextPid && k.nextPid in k'.ready))
  {
    hide WaitersOk, ChildrenOk, StatusAgrees, Bounded, ForegroundOk, OneQueue;
    FreshPid(k);
  }

  lemma CreateKeeps(k: Kernel, a: Action)
    requires KInv(k) && a.DoCreate? && Allowed(k, a)
    ensures KInv(Step(k, a))
  {
    hide OneQueue, Allocated, StatusAgrees, ForegroundOk, Bounded, WaitersOk, ChildrenOk, Adds, StatusFits;
    if a.luck.pcb {
      if !a.luck.stack || (k.nextPid == 1 && !a.luck.pipe) {
        SkipPidKeeps(k);
      } else {
        CurrentAllocated(k);
        CreateAdds(k, a.priority, a.foreground, a.tty, a.luck);
        AddKeeps(k, Step(k, a), k.nextPid);
        ReadyGrows(k, Step(k, a), k.nextPid);
      }
    }
  }

  lemma CurrentAllocated(k: Kernel)
    requires KInv(k)
    ensures k.current in k.pcbs && IDLE in k.pcbs
  {
    assert k.current in k.ready ==> Queued(k, k.current);
  }

  lemma ReadyGrows(k: Kernel, k': Kernel, n: nat)
    requires Adds(k, k', n)
    ensures forall q :: q in k.ready ==> q in k'.ready
  {
  }

  // ---- the remaining operations -----------------------------------------

  lemma ChangePrioKeeps(k: Kernel, pid: int, newPrio: int)
    requires KInv(k)
    ensures KInv(ChangePrio(k, pid, newPrio))
  {
    hide Distinct, OneQueue, Allocated, StatusAgrees, ForegroundOk, Bounded, WaitersOk, ChildrenOk, StatusFits, Queued;
    var k' := ChangePrio(k, pid, newPrio);
    if k' != k {
      FitOf(k, pid);
      RewriteBasics(k, k', pid);
      RewriteStatus(k, k', pid);
      PrioWaiters(k, k', pid);
    }
  }

  lemma PrioWaiters(k: Kernel, k': Kernel, p: nat)
    requires p in k.pcbs && p in k'.pcbs && k' == k.(pcbs := k.pcbs[p := k.pcbs[p].(priority := k'.pcbs[p].priority)])
    ensures WaitersOk(k) ==> WaitersOk(k')
    ensures ChildrenOk(k) ==> ChildrenOk(k')
  {
    assert WaitersOk(k) ==> forall q :: q in k'.waiting ==> Suspended(k, q, k.waiting[q]);
  }

  lemma SemTableParts(k: Kernel, k': Kernel)
    requires k' == k.(sems := k'.sems, logs := k'.logs, unused := k'.unused)
    ensures forall p, st :: StatusFits(k', p, st) <==> StatusFits(k, p, st)
    ensures forall p, c :: Suspended(k', p, c) <==> Suspended(k, p, c)
    ensures forall p :: Queued(k', p) <==> Queued(k, p)
  {
  }

  /** The semaphore table is no part of the process invariant. */
  lemma SemTableKeeps(k: Kernel, k': Kernel)
    requires k' == k.(sems := k'.sems, logs := k'.logs, unused := k'.unused)
    ensures Core(k) ==> Core(k')
    ensures KInv(k) ==> KInv(k')
  {
    hide Distinct, StatusFits, Queued, Suspended;
    SemTableParts(k, k');
  }

  lemma SemWaitKeeps(k: Kernel, id: nat, luck: WaitLuck)
    requires KInv(k)
    ensures KInv(SemWait(k, id, luck))
  {
    hide KInv, Core, Yield, Without, Wait;
    SemTableKeeps(k, Enlisted(k, id));
    SemTableKeeps(k, Taken(k, id));
    if id < NUM_SEMS && Units(k, id) == 0 && luck.pid && k.current in k.ready {
      var k1 := if luck.node then Enlisted(k, id) else k;
      CoreOf(k1);
      ToBySemKeeps(k1, k.current);
      YieldKeeps(ToBySem(k1, k.current));
    }
  }

  lemma CoreOf(k: Kernel)
    requires KInv(k)
    ensures Core(k)
  {
  }

  lemma SemPostKeeps(k: Kernel, id: nat)
    requires KInv(k)
    ensures KInv(SemPost(k, id))
  {
    hide Core, Without, Post;
    var k' := SemPost(k, id);
    var k2 := k.(sems := k'.sems, logs := k'.logs, unused := k'.unused);
    SemTableKeeps(k, k2);
    if id < NUM_SEMS && Open(k, id) && k.sems[id].waiters != [] && k.sems[id].waiters[0] in k.bySem {
      FromBySemKeeps(k2, k.sems[id].waiters[0]);
      assert k' == FromBySem(k2, k.sems[id].waiters[0]);
    }
  }

  // ---- every step, every run --------------------------------------------

  lemma StepKeeps(k: Kernel, a: Action)
    requires KInv(k) && Allowed(k, a)
    ensures KInv(Step(k, a))
  {
    hide Core, Tick, Yield, Block, Unblock, Kill, Waitpid, Create, ChangePrio, SemWait, SemPost, Allowed;
    match a
    case DoTick => TickKeeps(k);
    case DoYield => YieldKeeps(k);
    case DoBlock(pid) => BlockKeeps(k, pid);
    case DoUnblock(pid) => UnblockKeeps(k, pid); UnblockCurrent(k, pid);
    case DoKill(pid) => KillKeeps(k, pid);
    case DoWaitpid(pid) => WaitpidKeeps(k, pid);
    case DoCreate(_, _, _, _) => CreateKeeps(k, a);
    case DoChangePrio(pid, newPrio) => ChangePrioKeeps(k, pid, newPrio);
    case DoSemInit(id, value) => SemTableKeeps(k, SemInit(k, id, value));
    case DoSemClose(id) => SemTableKeeps(k, SemClose(k, id));
    case DoSemWait(id, wait) => SemWaitKeeps(k, id, wait);
    case DoSemPost(id) => SemPostKeeps(k, id);
  }

  lemma UnblockCurrent(k: Kernel, pid: int)
    requires KInv(k)
    ensures Unblock(k, pid).current == IDLE || Unblock(k, pid).current in Unblock(k, pid).ready
  {
  }

  lemma {:induction false} RunKeeps(k: Kernel, actions: seq<Action>)
    requires KInv(k) && AllowedRun(k, actions)
    ensures KInv(Run(k, actions))
    decreases |actions|
  {
    hide KInv, Step, Allowed;
    if actions != [] {
      StepKeeps(k, actions[0]);
      RunKeeps(Step(k, actions[0]), actions[1..]);
    }
  }
}
