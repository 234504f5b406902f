/**
 Consequences for every run of the kernel: waitpid never misses its wake-up and
 a killed process is gone completely.
 */
module ProcessLaws {
  import opened Sequences
  import opened Processes
  import opened ProcessSafety

  lemma Reachable(actions: seq<Action>)
    requires AllowedRun(Boot(), actions)
    ensures KInv(Run(Boot(), actions))
  {
    hide KInv, Run, AllowedRun, Boot;
    BootInv();
    RunKeeps(Boot(), actions);
  }

  /**
   The invariant spelled out: a queued process is in exactly one queue, with the
   status of that queue; idle is in none and nobody is a zombie; the current and
   the foreground process are allocated, and stacks go with PCBs.
   */
  lemma EverybodyPlaced(actions: seq<Action>, p: nat)
    requires AllowedRun(Boot(), actions)
    ensures var k := Run(Boot(), actions);
            && k.zombie == [] && !Queued(k, IDLE) && k.stacks == k.pcbs.Keys
            && k.current in k.pcbs && (k.foreground != -1 ==> k.foreground in k.pcbs)
            && (Queued(k, p) ==> p in k.pcbs)
            && (p in k.ready ==> p !in k.blocked && p !in k.bySem && k.pcbs[p].status in {READY, RUNNING})
            && (p in k.blocked ==> p !in k.ready && p !in k.bySem && k.pcbs[p].status == BLOCKED)
            && (p in k.bySem ==> p !in k.ready && p !in k.blocked && k.pcbs[p].status == BLOCKED)
            && Distinct(k.ready) && Distinct(k.blocked) && Distinct(k.bySem)
            && (p in k.pcbs && k.pcbs[p].status == RUNNING ==> p == k.current)
  {
    hide AllowedRun, Boot, Run, Distinct;
    Reachable(actions);
    var k := Run(Boot(), actions);
    CurrentAllocated(k);
    assert p in k.pcbs ==> StatusFits(k, p, k.pcbs[p].status);
  }

  // ---- waitpid ----------------------------------------------------------

  /** A suspended caller is its target's parent, sits in the blocked queue, and the target is alive. */
  lemma SuspendedOnLiveChild(actions: seq<Action>, p: nat)
    requires AllowedRun(Boot(), actions) && p in Run(Boot(), actions).waiting
    ensures var k := Run(Boot(), actions);
            var c := k.waiting[p];
            p in k.blocked && Queued(k, c) && c in k.pcbs && k.pcbs[c].parent == p && c > 1
  {
    hide AllowedRun, Boot, Run;
    Reachable(actions);
    var k := Run(Boot(), actions);
    assert Suspended(k, p, k.waiting[p]);
    IdleNeverWaits(k);
  }

  /** No lost wake-up: killing the target makes the suspended parent ready. */
  lemma KillWakesParent(actions: seq<Action>, p: nat)
    requires AllowedRun(Boot(), actions) && p in Run(Boot(), actions).waiting
    ensures var k := Run(Boot(), actions);
            var k' := Kill(k, k.waiting[p]);
            p in k'.ready && p !in k'.blocked && p !in k'.waiting && k.waiting[p] !in k'.pcbs
  {
    hide AllowedRun, Boot, Run;
    Reachable(actions);
    SuspendedOnLiveChild(actions, p);
    KillWakes(Run(Boot(), actions), p);
  }

  lemma KillWakes(k: Kernel, p: nat)
    requires KInv(k) && p in k.waiting && k.waiting[p] > 1
    ensures var k' := Kill(k, k.waiting[p]);
            p in k'.ready && p !in k'.blocked && p !in k'.waiting && k.waiting[p] !in k'.pcbs
  {
    hide Core, Yield, Without, Queued;
    var c := k.waiting[p];
    WaiterKilled(k, p);
    KilledKeeps(k, c);
    YieldSame(Killed(k, c));
  }

  lemma WaiterKilled(k: Kernel, p: nat)
    requires Core(k) && p in k.waiting
    ensures Queued(k, k.waiting[p]) && k.waiting[p] in k.pcbs && k.waiting[p] != IDLE
    ensures var k' := Killed(k, k.waiting[p]);
            p in k'.ready && p !in k'.blocked && p !in k'.waiting && k.waiting[p] !in k'.pcbs
  {
    hide Distinct, Without, StatusAgrees, Bounded, ForegroundOk;
    var c := k.waiting[p];
    assert Suspended(k, p, c);
    EraseMembers(k, c);
    NoSelfWait(k, p);
    assert WaitsFor(Erase(k, c), p, c);
    WithoutMembers(Erase(k, c).blocked, p);
  }

  /**
   Which blocked processes a kill makes ready: exactly those whose last waitpid
   named the victim.  The record outlives the call, so a process that was
   unblocked by hand and blocked again is woken as well.
   */
  lemma KillWakesExactly(k: Kernel, pid: nat, q: nat)
    requires KInv(k) && pid > 1 && Queued(k, pid) && q in k.blocked && q != pid
    ensures q in k.pcbs && (q in Kill(k, pid).ready <==> k.pcbs[q].waitingFor == pid)
  {
    hide Core, Yield, Without, Queued;
    BlockedKilled(k, pid, q);
    KilledKeeps(k, pid);
    YieldSame(Killed(k, pid));
  }

  lemma BlockedKilled(k: Kernel, pid: nat, q: nat)
    requires Core(k) && pid != IDLE && Queued(k, pid) && q in k.blocked && q != pid
    ensures q in k.pcbs && pid in k.pcbs && (q in Killed(k, pid).ready <==> k.pcbs[q].waitingFor == pid)
  {
    hide Distinct, Without, StatusAgrees, Bounded, ForegroundOk, WaitersOk;
    assert Queued(k, q);
    EraseMembers(k, pid);
  }

  /** Yielding keeps everybody's queue and PCB. */
  lemma YieldSame(k: Kernel)
    requires Core(k)
    ensures SameButStatus(k, Yield(k))
  {
    hide OneQueue, StatusAgrees, Bounded, ForegroundOk, WaitersOk, ChildrenOk, Dispatch, Distinct;
    var k0 := k.(quantum := 0);
    QuantumOnly(k, 0);
    DispatchSame(k0);
  }

  /**
   The intended result of waitpid, the pid of the child, never comes: kill
   reaps its victim at once, so neither the call nor the resumed caller ever
   finds a zombie and both return -1.
   */
  lemma WaitpidReturnsMinusOne(actions: seq<Action>, pid: int)
    requires AllowedRun(Boot(), actions)
    ensures WaitpidResult(Run(Boot(), actions), pid) == -1
  {
    hide AllowedRun, Boot, Run;
    Reachable(actions);
    var k := Run(Boot(), actions);
    assert pid in k.pcbs ==> StatusFits(k, pid, k.pcbs[pid].status);
  }

  // ---- kill -------------------------------------------------------------

  /** Kill removes its victim, its PCB and its stack, and nobody else's. */
  lemma KilledIsGone(k: Kernel, pid: int)
    requires KInv(k) && pid > 1 && Queued(k, pid)
    ensures var k' := Kill(k, pid);
            && k'.pcbs.Keys == k.pcbs.Keys - {pid} && k'.stacks == k.stacks - {pid}
            && !Found(k', pid) && k'.foreground != pid
            && (forall q :: q != pid ==> (Queued(k', q) <==> Queued(k, q)))
  {
    hide Distinct, Without, Dispatch, StatusAgrees, Bounded, WaitersOk, ChildrenOk;
    var p: nat := pid;
    EraseMembers(k, p);
    KilledKeeps(k, p);
    YieldSame(Killed(k, p));
    KilledQueued(k, p);
    KillKeeps(k, pid);
    assert KInv(Kill(k, pid)) && !Queued(Kill(k, pid), pid);
  }

  lemma KilledQueued(k: Kernel, pid: nat)
    requires OneQueue(k) && pid in k.pcbs
    ensures var k' := Killed(k, pid);
            && k'.pcbs.Keys == k.pcbs.Keys - {pid} && k'.stacks == k.stacks - {pid}
            && (forall q :: Queued(k', q) <==> Queued(k, q) && q != pid)
  {
    hide Distinct, Without;
    EraseMembers(k, pid);
    var k1, parent := Erase(k, pid), k.pcbs[pid].parent;
    if WaitsFor(k1, parent, pid) {
      var q: nat := parent;
      WithoutMembers(k1.blocked, q);
    }
  }

  // ---- what waitpid and changePrio do -----------------------------------

  /**
   A ready caller of waitpid is suspended if and only if it names a process that is
   queued and is its child, whatever that child is doing; otherwise nothing changes.
   */
  lemma WaitpidSuspendsIff(k: Kernel, c: int)
    requires KInv(k) && k.current in k.ready
    ensures var k', suspends := Waitpid(k, c), Queued(k, c) && c in k.pcbs && k.pcbs[c].parent == k.current;
            && (k.current in k'.blocked <==> suspends)
            && (suspends ==> k.current !in k'.ready && k.current in k'.waiting && k'.waiting[k.current] == c
                             && k.current in k'.pcbs && k'.pcbs[k.current].waitingFor == c
                             && k'.pcbs[k.current].status == BLOCKED)
            && (!suspends ==> k' == k)
  {
    hide Core, Yield, Waitpid, Queued;
    ReadyCaller(k, c);
    if MayWait(k, c) {
      MayWaitChild(k, c);
      SuspendedState(k, c);
    } else {
      Refused(k, c);
    }
  }

  /**
   A caller that is not ready, idle, is never suspended: naming a child of its own
   only clears its record and its status, and anything else changes nothing.
   */
  lemma WaitpidOfIdle(k: Kernel, c: int)
    requires KInv(k) && k.current !in k.ready
    ensures k.current == IDLE && IDLE in k.pcbs
    ensures Waitpid(k, c) ==
              if Found(k, c) && c in k.pcbs && k.pcbs[c].parent == IDLE
              then k.(pcbs := k.pcbs[IDLE := k.pcbs[IDLE].(waitingFor := -1, status := READY)])
              else k
  {
    hide Core, Found, Block;
    CurrentAllocated(k);
    if MayWait(k, c) { MayWaitChild(k, c); }
  }

  /**
   The foreground process after a context switch is the one that got the processor,
   if that is a foreground process, and otherwise stays what it was.
   */
  lemma SwitchForeground(k: Kernel)
    requires KInv(k)
    ensures var d := Dispatch(k);
            && d.current in d.pcbs && d.pcbs[d.current].foreground == k.pcbs[d.current].foreground
            && d.foreground == if d.current != IDLE && k.pcbs[d.current].foreground then d.current else k.foreground
  {
    hide StatusAgrees, Bounded, ForegroundOk, WaitersOk, ChildrenOk, Distinct, Rotated, CalculateQuantum;
    assert k.ready != [] ==> Queued(k, k.ready[0]);
  }

  lemma ReadyCaller(k: Kernel, c: int)
    requires KInv(k) && k.current in k.ready
    ensures k.current !in k.bySem && k.current !in k.blocked && k.current in k.pcbs
    ensures Queued(k, c) && c in k.pcbs && k.pcbs[c].parent == k.current ==> MayWait(k, c)
  {
    assert Queued(k, k.current);
  }

  lemma Refused(k: Kernel, c: int)
    requires !MayWait(k, c)
    ensures Waitpid(k, c) == k
  {
  }

  lemma SuspendedState(k: Kernel, c: nat)
    requires KInv(k) && MayWait(k, c) && k.current in k.ready && k.current !in k.bySem && k.pcbs[c].status != ZOMBIE
    requires Queued(k, c) && k.pcbs[c].parent == k.current
    ensures var k' := Waitpid(k, c);
            && k.current in k'.blocked && k.current !in k'.ready
            && k.current in k'.waiting && k'.waiting[k.current] == c
            && k.current in k'.pcbs && k'.pcbs[k.current].waitingFor == c && k'.pcbs[k.current].status == BLOCKED
  {
    hide Core, Yield, Without, Distinct, Queued, ToBlocked;
    var p := k.current;
    var b := ToBlocked(k, p);
    var w := SetWaitingFor(b, p, c, BLOCKED).(waiting := k.waiting[p := c]);
    SuspendCommutes(k, c);
    ToBlockedKeeps(k, p);
    BlockedStill(k, p, c);
    AwaitKeeps(b, p, c);
    YieldSame(w);
    YieldFrame(w);
    YieldKeeps(w);
    BlockedFits(Yield(w), p);
  }

  lemma BlockedFits(k: Kernel, p: nat)
    requires Core(k) && p in k.blocked
    ensures p in k.pcbs && k.pcbs[p].status == BLOCKED && p !in k.ready
  {
    assert Queued(k, p);
    assert StatusFits(k, p, k.pcbs[p].status);
  }

  /**
   changePrio on a process above pid 1 that getProcess finds writes the priority
   asked for, or the end of 0 to 5 it lies beyond, and nothing else.
   */
  lemma PriorityWritten(k: Kernel, pid: int, newPrio: int)
    requires KInv(k)
    ensures var k' := ChangePrio(k, pid, newPrio);
            if pid > 1 && Queued(k, pid) then
              && pid in k.pcbs && k' == k.(pcbs := k'.pcbs) && k'.pcbs.Keys == k.pcbs.Keys
              && (forall q :: q in k.pcbs && q != pid ==> k'.pcbs[q] == k.pcbs[q])
              && k'.pcbs[pid] == k.pcbs[pid].(priority := k'.pcbs[pid].priority)
              && (0 <= newPrio <= 5 ==> k'.pcbs[pid].priority == newPrio)
              && (newPrio < 0 ==> k'.pcbs[pid].priority == 0)
              && (newPrio > 5 ==> k'.pcbs[pid].priority == 5)
            else k' == k
  {
    hide StatusAgrees, Bounded, ForegroundOk, WaitersOk, ChildrenOk, Distinct;
    assert Found(k, pid) && pid > 1 ==> Queued(k, pid);
  }
}
