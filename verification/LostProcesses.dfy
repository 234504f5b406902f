/**
 Processes the kernel loses track of: a pid that createProcess returns need not be
 in any queue.  This module says exactly when, and that it is for good.
 */
module LostProcesses {
  import opened Sequences
  import opened Semaphores
  import opened Processes
  import opened ProcessSafety
  import opened ProcessLaws

  // ---- created, but in no queue -----------------------------------------

  /** createProcess returns a pid. */
  predicate Created(k: Kernel, luck: Luck) {
    luck.pcb && luck.stack && (k.nextPid != 1 || luck.pipe)
  }

  /**
   A created process is queued if and only if its node was allocated and it is a
   background process, which starts blocked, or not of idle's priority.
   */
  lemma CreatedIsQueued(k: Kernel, priority: nat, foreground: bool, tty: bool, luck: Luck)
    requires KInv(k) && Created(k, luck)
    ensures var k', pid := Create(k, priority, foreground, tty, luck), k.nextPid;
            && pid in k'.pcbs && pid in k'.stacks
            && (Queued(k', pid) <==>
                  luck.node && ((pid > 1 && !foreground && tty) || priority != IDLE_PRIORITY))
            && (pid in k'.blocked <==> luck.node && pid > 1 && !foreground && tty)
  {
    hide OneQueue, StatusAgrees, Bounded, ForegroundOk, WaitersOk, ChildrenOk;
    FreshPid(k);
  }

  /**
   The PCB of a created process: the priority asked for, the largest one if that is
   out of range, a child of the caller that waits for nobody.  All other PCBs stay.
   */
  lemma CreatedPcb(k: Kernel, priority: nat, foreground: bool, tty: bool, luck: Luck)
    requires KInv(k)
    ensures var k', pid := Create(k, priority, foreground, tty, luck), k.nextPid;
            && (Created(k, luck) <==> pid in k'.pcbs)
            && k'.nextPid == (if luck.pcb then pid + 1 else pid)
            && (forall q :: q != pid ==> (q in k'.pcbs <==> q in k.pcbs) && (q in k.pcbs ==> k'.pcbs[q] == k.pcbs[q]))
            && (Created(k, luck) ==>
                  var pcb := k'.pcbs[pid];
                  && (priority <= 6 ==> pcb.priority == priority) && (priority > 6 ==> pcb.priority == 5)
                  && pcb.parent == k.current && pcb.waitingFor == -1 && pcb.foreground == foreground
                  && pcb.status == if pid > 1 && !foreground && tty then BLOCKED else READY)
  {
    hide OneQueue, StatusAgrees, Bounded, ForegroundOk, WaitersOk, ChildrenOk;
    FreshPid(k);
  }

  /**
   A creation by idle makes the new process current at once; it is then ready, as
   the current process has to be, if and only if its queue node was allocated.
   */
  lemma CurrentIsReadyIff(k: Kernel, priority: nat, foreground: bool, tty: bool, luck: Luck)
    requires KInv(k) && Created(k, luck) && k.current == IDLE
    requires !(k.nextPid > 1 && !foreground && tty) && priority != IDLE_PRIORITY
    ensures var k' := Create(k, priority, foreground, tty, luck);
            k'.current == k.nextPid && (k'.current in k'.ready <==> luck.node)
  {
    hide OneQueue, StatusAgrees, Bounded, ForegroundOk, WaitersOk, ChildrenOk;
    FreshPid(k);
  }

  /** Allocated, not idle, and in no queue. */
  predicate Orphan(k: Kernel, p: nat) {
    p in k.pcbs && p != IDLE && !Queued(k, p)
  }

  /** Nobody new in the queues, no new PCB, no change of parent, and the PCBs of unqueued processes stay. */
  ghost predicate Confined(k: Kernel, k': Kernel) {
    && (forall p: nat :: Queued(k', p) ==> Queued(k, p))
    && (forall p: nat :: p in k.pcbs && !Queued(k, p) ==> p in k'.pcbs)
    && SameParents(k, k') && k'.nextPid == k.nextPid
  }

  ghost predicate SameParents(k: Kernel, k': Kernel) {
    forall p :: p in k'.pcbs ==> p in k.pcbs && k'.pcbs[p].parent == k.pcbs[p].parent
  }

  lemma {:induction false} WithoutFewer(s: seq<nat>, q: nat)
    ensures forall x :: x in Without(s, q) ==> x in s
  {
    if s != [] && s[0] != q { WithoutFewer(s[1..], q); }
  }

  lemma SameConfined(k: Kernel, k': Kernel)
    requires SameButStatus(k, k')
    ensures Confined(k, k')
  {
  }

  lemma ConfinedTwice(a: Kernel, b: Kernel, c: Kernel)
    requires Confined(a, b) && Confined(b, c)
    ensures Confined(a, c)
  {
    hide Queued;
  }

  lemma TickConfined(k: Kernel)
    requires KInv(k)
    ensures Confined(k, Tick(k))
  {
    hide OneQueue, StatusAgrees, Bounded, ForegroundOk, WaitersOk, ChildrenOk, Dispatch, Distinct;
    DispatchSame(k);
    SameConfined(k, Dispatch(k));
  }

  lemma YieldConfined(k: Kernel)
    requires Core(k)
    ensures Confined(k, Yield(k))
  {
    hide Core, Yield, SameButStatus;
    YieldSame(k);
    SameConfined(k, Yield(k));
  }

  lemma BlockConfined(k: Kernel, pid: int)
    requires KInv(k)
    ensures Confined(k, Block(k, pid))
  {
    hide Core, Yield, Without, Confined;
    if pid !in k.bySem && pid in k.ready {
      var k1 := ToBlocked(k, pid);
      ToBlockedKeeps(k, pid);
      ToBlockedConfined(k, pid);
      YieldConfined(k1);
      ConfinedTwice(k, k1, Yield(k1));
    } else {
      ConfinedSelf(k);
    }
  }

  lemma ConfinedSelf(k: Kernel)
    ensures Confined(k, k)
  {
  }

  lemma ToBlockedConfined(k: Kernel, p: nat)
    requires p in k.ready
    ensures Confined(k, ToBlocked(k, p))
  {
    hide Without;
    WithoutFewer(k.ready, p);
  }

  lemma UnblockConfined(k: Kernel, pid: int)
    ensures Confined(k, Unblock(k, pid))
  {
    hide Without;
    if pid in k.blocked { WithoutFewer(k.blocked, pid); }
  }

  lemma EraseConfined(k: Kernel, pid: nat)
    requires Queued(k, pid)
    ensures Confined(k, Erase(k, pid))
  {
    hide Without;
    WithoutFewer(k.ready, pid);
    WithoutFewer(k.blocked, pid);
    WithoutFewer(k.bySem, pid);
  }

  lemma KillConfined(k: Kernel, pid: int)
    requires KInv(k)
    ensures Confined(k, Kill(k, pid))
  {
    hide Core, Yield, Without, Confined, Erase, WaitsFor, Unblock, Queued;
    if !(pid <= 1 || !Queued(k, pid) || pid !in k.pcbs) {
      var p: nat := pid;
      var k1, k2 := Erase(k, p), Killed(k, p);
      EraseConfined(k, p);
      UnblockConfined(k1, k.pcbs[p].parent);
      ConfinedSelf(k1);
      ConfinedTwice(k, k1, k2);
      KilledKeeps(k, p);
      YieldConfined(k2);
      ConfinedTwice(k, k2, Yield(k2));
    } else {
      ConfinedSelf(k);
    }
  }

  /** The state in which a caller of waitpid gives up the processor. */
  lemma WaitpidConfined(k: Kernel, pid: int)
    requires KInv(k)
    ensures Confined(k, Waitpid(k, pid))
  {
    hide Core, Yield, Without, Confined, Block, Found;
    ConfinedSelf(k);
    if MayWait(k, pid) {
      var c: nat := pid;
      MayWaitChild(k, c);
      if k.current in k.ready && k.current !in k.bySem {
        var p := k.current;
        SuspendCommutes(k, c);
        ToBlockedKeeps(k, p);
        BlockedStill(k, p, c);
        var b := ToBlocked(k, p);
        var w := SetWaitingFor(b, p, c, BLOCKED).(waiting := k.waiting[p := c]);
        AwaitKeeps(b, p, c);
        ToBlockedConfined(k, p);
        RecordConfined(b, w);
        ConfinedTwice(k, b, w);
        YieldConfined(w);
        ConfinedTwice(k, w, Yield(w));
      } else {
        RecordConfined(k, SetWaitingFor(k, k.current, -1, READY));
      }
    }
  }

  lemma RecordConfined(k: Kernel, k': Kernel)
    requires k'.ready == k.ready && k'.blocked == k.blocked && k'.bySem == k.bySem
    requires k'.pcbs.Keys == k.pcbs.Keys && SameParents(k, k') && k'.nextPid == k.nextPid
    ensures Confined(k, k')
  {
  }

  lemma SemWaitConfined(k: Kernel, id: nat, luck: WaitLuck)
    requires KInv(k)
    ensures Confined(k, SemWait(k, id, luck))
  {
    hide Core, Yield, Without, Wait, Confined;
    ConfinedSelf(k);
    RecordConfined(k, Enlisted(k, id));
    RecordConfined(k, Taken(k, id));
    if id < NUM_SEMS && Units(k, id) == 0 && luck.pid && k.current in k.ready {
      var k1 := if luck.node then Enlisted(k, id) else k;
      SemTableKeeps(k, k1);
      CoreOf(k1);
      ToBySemKeeps(k1, k.current);
      ToBySemConfined(k1, k.current);
      var b := ToBySem(k1, k.current);
      ConfinedTwice(k, k1, b);
      YieldConfined(b);
      ConfinedTwice(k, b, Yield(b));
    }
  }

  lemma ToBySemConfined(k: Kernel, p: nat)
    requires p in k.ready
    ensures Confined(k, ToBySem(k, p))
  {
    hide Without;
    WithoutFewer(k.ready, p);
  }

  lemma SemPostConfined(k: Kernel, id: nat)
    ensures Confined(k, SemPost(k, id))
  {
    hide Without, Post;
    if Open(k, id) && k.sems[id].waiters != [] {
      WithoutFewer(k.bySem, k.sems[id].waiters[0]);
    }
  }

  /** Every operation but creation queues only processes that were queued. */
  lemma StepConfined(k: Kernel, a: Action)
    requires KInv(k) && !a.DoCreate?
    ensures Confined(k, Step(k, a))
  {
    hide Core, Tick, Yield, Block, Unblock, Kill, Waitpid, SemWait, SemPost, Confined;
    match a
    case DoTick => TickConfined(k);
    case DoYield => YieldConfined(k) by { CoreOf(k); }
    case DoBlock(pid) => BlockConfined(k, pid);
    case DoUnblock(pid) => UnblockConfined(k, pid);
    case DoKill(pid) => KillConfined(k, pid);
    case DoWaitpid(pid) => WaitpidConfined(k, pid);
    case DoChangePrio(pid, newPrio) => RecordConfined(k, ChangePrio(k, pid, newPrio));
    case DoSemInit(id, value) => RecordConfined(k, SemInit(k, id, value));
    case DoSemClose(id) => RecordConfined(k, SemClose(k, id));
    case DoSemWait(id, wait) => SemWaitConfined(k, id, wait);
    case DoSemPost(id) => SemPostConfined(k, id);
  }

  lemma CreateOrphan(k: Kernel, a: Action, p: nat)
    requires KInv(k) && a.DoCreate? && Orphan(k, p)
    ensures Orphan(Step(k, a), p)
  {
    hide OneQueue, StatusAgrees, Bounded, ForegroundOk, WaitersOk, ChildrenOk, StatusFits;
    FreshPid(k);
  }

  /** No operation finds an unqueued process again. */
  lemma OrphanStays(k: Kernel, a: Action, p: nat)
    requires KInv(k) && Orphan(k, p)
    ensures Orphan(Step(k, a), p)
  {
    hide KInv, Step;
    if a.DoCreate? { CreateOrphan(k, a, p); } else { StepConfined(k, a); }
  }

  /** What being an orphan means: not current, not found, not listed, and out of reach of kill and changePrio. */
  lemma OrphanIsLost(k: Kernel, p: nat)
    requires KInv(k) && Orphan(k, p)
    ensures k.current != p && !Found(k, p) && k.pcbs[p].status != RUNNING
    ensures Kill(k, p) == k && (forall prio :: ChangePrio(k, p, prio) == k)
    ensures p in k.stacks
  {
    assert StatusFits(k, p, k.pcbs[p].status);
  }

  /**
   For good: whatever happens later, the process is never queued, never runs, is
   never listed, and kill cannot free its PCB and its stack.
   */
  lemma {:induction false} OrphanForever(k: Kernel, actions: seq<Action>, p: nat)
    requires KInv(k) && AllowedRun(k, actions) && Orphan(k, p)
    ensures var k' := Run(k, actions);
            && Orphan(k', p) && k'.current != p && !Found(k', p)
            && p in k'.stacks && Kill(k', p) == k'
    decreases |actions|
  {
    hide KInv, Step, Orphan, Allowed, Kill, Found;
    if actions == [] {
      OrphanIsLost(k, p);
    } else {
      StepKeeps(k, actions[0]);
      OrphanStays(k, actions[0], p);
      OrphanForever(Step(k, actions[0]), actions[1..], p);
    }
  }

  /**
   The two ways to create one: idle's priority, with every allocation
   succeeding, or no memory for the queue node.
   */
  lemma CreatedAndLost(k: Kernel, actions: seq<Action>, a: Action)
    requires KInv(k) && a.DoCreate? && AllowedRun(k, [a] + actions) && Created(k, a.luck)
    requires (!a.luck.node) || (a.priority == 6 && !(k.nextPid > 1 && !a.foreground && a.tty))
    ensures Orphan(Run(k, [a] + actions), k.nextPid)
  {
    hide KInv, Create, Allowed, Orphan;
    assert ([a] + actions)[1..] == actions;
    StepKeeps(k, a);
    CreatedIsQueued(k, a.priority, a.foreground, a.tty, a.luck);
    assert Orphan(Step(k, a), k.nextPid) by { NewOrphan(k, Step(k, a)); }
    OrphanForever(Step(k, a), actions, k.nextPid);
  }

  lemma NewOrphan(k: Kernel, k': Kernel)
    requires KInv(k) && k.nextPid in k'.pcbs && !Queued(k', k.nextPid)
    ensures Orphan(k', k.nextPid)
  {
    hide OneQueue, StatusAgrees, Bounded, ForegroundOk, WaitersOk, ChildrenOk;
  }

  // ---- children of idle -------------------------------------------------

  /** A process kill accepts and whose parent is idle. */
  predicate IdleChild(k: Kernel, p: nat) {
    p > 1 && p in k.pcbs && k.pcbs[p].parent == IDLE
  }

  /** The idle process creates a process other than the first. */
  predicate IdleCreates(k: Kernel, a: Action) {
    a.DoCreate? && Created(k, a.luck) && k.current == IDLE && k.nextPid > 1
  }

  /** An operation adds a killable child of idle if and only if idle creates one, and then it is the new process. */
  lemma StepIdleChild(k: Kernel, a: Action, p: nat)
    requires KInv(k) && !IdleChild(k, p)
    ensures IdleChild(Step(k, a), p) <==> IdleCreates(k, a) && p == k.nextPid
  {
    hide KInv, Step;
    if a.DoCreate? { CreateIdleChild(k, a, p); } else { StepConfined(k, a); }
  }

  lemma CreateIdleChild(k: Kernel, a: Action, p: nat)
    requires KInv(k) && a.DoCreate? && !IdleChild(k, p)
    ensures IdleChild(Step(k, a), p) <==> IdleCreates(k, a) && p == k.nextPid
  {
    hide OneQueue, StatusAgrees, Bounded, ForegroundOk, WaitersOk, ChildrenOk, Queued;
  }

  predicate NeverIdleCreates(k: Kernel, actions: seq<Action>)
    decreases |actions|
  {
    actions == [] || (!IdleCreates(k, actions[0]) && NeverIdleCreates(Step(k, actions[0]), actions[1..]))
  }

  /**
   When idle creates only the first process, as main does with the shell, nobody
   that can be killed is a child of idle.
   */
  lemma {:induction false} NoIdleChildren(k: Kernel, actions: seq<Action>, p: nat)
    requires KInv(k) && AllowedRun(k, actions) && NeverIdleCreates(k, actions) && !IdleChild(k, p)
    ensures !IdleChild(Run(k, actions), p)
    decreases |actions|
  {
    hide KInv, Step, IdleChild, IdleCreates, Allowed;
    if actions != [] {
      StepKeeps(k, actions[0]);
      StepIdleChild(k, actions[0], p);
      NoIdleChildren(Step(k, actions[0]), actions[1..], p);
    }
  }
}
