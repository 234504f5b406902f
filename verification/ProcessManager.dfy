/**
 The process manager and scheduler as the kernel has them: queues, PCBs and
 static variables updated in place.  Every method is proved to compute the
 corresponding step of `Processes`.
 */
module ProcessManager {
  import opened Sequences
  import opened Semaphores
  import opened Processes
  import opened ProcessSafety
  import opened ProcessLaws
  import opened SemaphoreLaws
  import opened ProcessListing
  import opened LostProcesses
  import opened Options

  class Scheduler {
    var ready: seq<nat>
    var blocked: seq<nat>
    var bySem: seq<nat>
    var zombie: seq<nat>
    var pcbs: map<nat, Pcb>
    var stacks: set<nat>
    var current: nat
    var foreground: int
    var currentPid: int
    var nextPid: nat
    var quantum: nat
    var sems: map<nat, Sem>
    ghost var logs: map<nat, SemLog>
    ghost var waiting: map<nat, nat>
    ghost var switches: nat
    var values: map<nat, nat>
    ghost var closed: set<nat>

    ghost function View(): Kernel
      reads this
    {
      Kernel(ready, blocked, bySem, zombie, pcbs, stacks, current, foreground, currentPid, nextPid, quantum,
             sems, logs, waiting, switches, Unused(values, closed))
    }

    /** startScheduler. */
    constructor ()
      ensures View() == Boot() && KInv(View())
    {
      ready, blocked, bySem, zombie := [], [], [], [];
      pcbs, stacks := map[IDLE := Pcb(-1, -1, IDLE_PRIORITY, READY, false, 0)], {IDLE};
      current, foreground, currentPid, nextPid, quantum := IDLE, -1, -1, 1, 0;
      sems, logs, waiting, switches, values, closed := map[], map[], map[], 0, map[], {};
      BootInv();
    }

    // ---- scheduling -----------------------------------------------------

    /** Rotates the ready queue; idle when it is empty. */
    method GetNextProcess() returns (next: nat)
      requires Allocated(View())
      modifies this`ready, this`current, this`foreground
      ensures next == old(NextProcess(View())) && next in pcbs && current == next
      ensures ready == old(Rotated(ready))
      ensures foreground == if old(ready) != [] && pcbs[next].foreground then next else old(foreground)
    {
      if ready == [] {
        current := IDLE;
        return IDLE;
      }
      next := ready[0];
      assert Queued(View(), next);
      ready := ready[1..] + [next];
      current := next;
      if pcbs[next].foreground {
        foreground := next;
      }
    }

    /** The second half of schedule: the next process runs with a fresh quantum. */
    method RunNext()
      requires Allocated(View()) && Bounded(View())
      modifies this`ready, this`current, this`foreground, this`pcbs, this`currentPid, this`quantum, this`switches
      ensures View() == old(Promote(View()))
    {
      hide Rotated, Queued, Allocated;
      var next := GetNextProcess();
      StartQuantum(next);
    }

    method StartQuantum(next: nat)
      requires next in pcbs && 0 <= pcbs[next].priority <= IDLE_PRIORITY
      modifies this`pcbs, this`currentPid, this`quantum, this`switches
      ensures pcbs == old(pcbs)[next := old(pcbs)[next].(status := RUNNING)]
      ensures currentPid == next && quantum == CalculateQuantum(old(pcbs)[next].priority)
                && switches == old(switches) + 1
    {
      QuantumBound(pcbs[next].priority);
      quantum := CalculateQuantum(pcbs[next].priority);
      pcbs := pcbs[next := pcbs[next].(status := RUNNING)];
      currentPid := next;
      switches := switches + 1;
    }

    method Schedule()
      requires Core(View()) && current in pcbs
      modifies this`ready, this`current, this`foreground, this`pcbs, this`currentPid, this`quantum, this`switches
      ensures View() == old(Tick(View()))
    {
      hide Core, Promote;
      if quantum > 0 && pcbs[current].status == RUNNING {
        quantum := quantum - 1;
        return;
      }
      ghost var k := View();
      DemotedAllocated(k);
      if pcbs[current].status == RUNNING {
        pcbs := pcbs[current := pcbs[current].(status := READY)];
      }
      assert View() == Demote(k);
      RunNext();
    }

    lemma DemotedAllocated(k: Kernel)
      requires Core(k)
      ensures Allocated(Demote(k)) && Bounded(Demote(k))
    {
      DemoteSame(k);
      SameCore(k, Demote(k));
    }

    method YieldProcessor()
      requires Core(View()) && current in pcbs
      modifies this`ready, this`current, this`foreground, this`pcbs, this`currentPid, this`quantum, this`switches
      ensures View() == old(Yield(View()))
    {
      hide OneQueue, Allocated, StatusAgrees, ForegroundOk, Bounded, WaitersOk, ChildrenOk, Tick;
      QuantumOnly(View(), 0);
      quantum := 0;
      Schedule();
    }

    // ---- blocking -------------------------------------------------------

    method BlockProcessQueue(pid: int) returns (r: int)
      requires forall p :: p in ready ==> p in pcbs
      modifies this`ready, this`blocked, this`pcbs
      ensures r == if old(pid !in bySem && pid in ready) then 0 else -1
      ensures r == 0 ==> pid >= 0 && View() == ToBlocked(old(View()), pid)
      ensures r != 0 ==> View() == old(View())
    {
      hide Without;
      if pid in bySem {
        return -1;
      }
      if pid !in ready {
        return -1;
      }
      var p: nat := pid;
      ready := Without(ready, p);
      blocked := blocked + [p];
      if pcbs[p].status != BLOCKED {
        pcbs := pcbs[p := pcbs[p].(status := BLOCKED)];
      }
      assert pcbs == old(pcbs)[p := old(pcbs)[p].(status := BLOCKED)];
      return 0;
    }

    /** Blocks, and gives up the processor if that was the running process. */
    method BlockAndYield(pid: int) returns (r: int)
      requires forall p :: p in ready ==> p in pcbs
      requires pid in ready && pid !in bySem ==> Core(ToBlocked(View(), pid)) && current in pcbs
      modifies this
      ensures View() == Block(old(View()), pid)
      ensures r == if old(pid !in bySem && pid in ready) then 0 else -1
    {
      hide Core, Yield;
      r := BlockProcessQueue(pid);
      if r == 0 && pid == current {
        YieldProcessor();
      }
    }

    method BlockProcess(pid: int) returns (r: int)
      requires KInv(View())
      modifies this
      ensures View() == Block(old(View()), pid) && KInv(View())
      ensures r == if old(pid !in bySem && pid in ready) then 0 else -1
    {
      hide Core, Block, ToBlocked;
      BlockKeeps(View(), pid);
      AllReadyAllocated(View());
      CurrentAllocated(View());
      if pid in ready && pid !in bySem {
        BlockedView(View(), pid);
      }
      r := BlockAndYield(pid);
    }

    method UnblockProcess(pid: int) returns (r: int)
      requires forall p :: p in blocked ==> p in pcbs
      modifies this`ready, this`blocked, this`pcbs, this`waiting
      ensures View() == Unblock(old(View()), pid)
      ensures r == if old(pid in blocked) then 0 else -1
    {
      hide Without;
      if pid !in blocked {
        return -1;
      }
      var p: nat := pid;
      blocked := Without(blocked, p);
      ready := ready + [p];
      if pcbs[p].status != READY {
        pcbs := pcbs[p := pcbs[p].(status := READY)];
      }
      assert pcbs == old(pcbs)[p := old(pcbs)[p].(status := READY)];
      waiting := waiting - {p};
      return 0;
    }

    // ---- kill -----------------------------------------------------------

    /** switchProcessFromQueues to the zombie queue, tried from the ready, the blocked and the semaphore queue. */
    method MoveToZombie(pid: nat) returns (found: bool)
      requires KInv(View())
      modifies this`ready, this`blocked, this`bySem, this`zombie
      ensures found == old(Queued(View(), pid))
      ensures found ==> zombie == old(zombie) + [pid] && ready == Without(old(ready), pid)
                        && blocked == Without(old(blocked), pid) && bySem == Without(old(bySem), pid)
      ensures !found ==> View() == old(View())
    {
      hide KInv, Without, Queued;
      WithoutOthers(View(), pid);
      if pid in ready {
        ready := Without(ready, pid);
      } else if pid in blocked {
        blocked := Without(blocked, pid);
      } else if pid in bySem {
        bySem := Without(bySem, pid);
      } else {
        return false;
      }
      zombie := zombie + [pid];
      found := true;
    }

    /** The pointers let go of the victim; its PCB records the end. */
    method MarkKilled(pid: nat, ret: int)
      requires pid in pcbs
      modifies this`current, this`foreground, this`pcbs, this`waiting
      ensures current == (if old(current) == pid then IDLE else old(current))
      ensures foreground == (if old(foreground) == pid then -1 else old(foreground))
      ensures pcbs == old(pcbs)[pid := old(pcbs)[pid].(ret := ret, status := ZOMBIE)]
      ensures waiting == old(waiting) - {pid}
    {
      if current == pid {
        current := IDLE;
      }
      if foreground == pid {
        foreground := -1;
      }
      pcbs := pcbs[pid := pcbs[pid].(ret := ret, status := ZOMBIE)];
      waiting := waiting - {pid};
    }

    /** The source redirects `current` before it looks for the victim; a process that is not queued is not current. */
    method KillProcess(pid: nat, ret: int) returns (found: bool)
      requires KInv(View()) && pid != IDLE
      modifies this`ready, this`blocked, this`bySem, this`zombie, this`current, this`foreground, this`pcbs, this`waiting
      ensures found == old(Queued(View(), pid))
      ensures found ==> View() == Zombified(old(View()), pid, ret)
      ensures !found ==> View() == old(View())
    {
      hide KInv, Without, Queued;
      NotQueuedNotCurrent(View(), pid);
      found := MoveToZombie(pid);
      if found {
        MarkKilled(pid, ret);
      }
    }

    /** Takes the zombie off its queue and frees its PCB, which must still be allocated. */
    method ReapChild(pid: nat) returns (r: int)
      requires pid in zombie && pid in pcbs
      modifies this`zombie, this`pcbs
      ensures View() == Reaped(old(View()), pid) && r == pid
    {
      zombie := Without(zombie, pid);
      pcbs := pcbs - {pid};
      r := pid;
    }

    /** Frees the stack, which must still be allocated. */
    method FreeStack(pid: nat)
      requires pid in stacks
      modifies this`stacks
      ensures stacks == old(stacks) - {pid}
    {
      stacks := stacks - {pid};
    }

    /** getProcess: the four queues, then the current process, then idle. */
    method GetProcess(pid: int) returns (r: Option<Pcb>)
      requires Found(View(), pid) ==> pid in pcbs
      ensures r == if Found(View(), pid) then Some(pcbs[pid]) else None
    {
      if pid in ready || pid in blocked || pid in bySem || pid in zombie || pid == current || pid == IDLE {
        return Some(pcbs[pid]);
      }
      return None;
    }

    method WakeUpWaitingParent(parent: int, child: nat)
      requires child in zombie && child in pcbs && IDLE in pcbs && IDLE != child
      requires forall p :: p in blocked ==> p in pcbs && p != child
      requires Found(View(), parent) ==> parent in pcbs && parent != child
      modifies this`ready, this`blocked, this`pcbs, this`waiting, this`zombie
      ensures View() == old(Woken(View(), parent, child))
    {
      hide Without, Unblock;
      if parent == -1 {
        return;
      }
      if parent == IDLE {
        var _ := ReapChild(child);
      }
      var found := GetProcess(parent);
      if found.Some? && found.value.status == BLOCKED && found.value.waitingFor == child {
        var _ := UnblockProcess(parent);
      }
    }

    /**
     `dangling` tells that the second read of the victim's parent, after the
     parent was woken, finds the PCB already freed.  Nothing is allocated in
     between, so the stale field still says idle and there is no second free.
     */
    method Kill(pid: int, ret: int) returns (r: int, dangling: bool)
      requires KInv(View())
      modifies this
      ensures View() == Processes.Kill(old(View()), pid) && KInv(View())
      ensures r == if pid > 1 && old(Queued(View(), pid)) then 0 else -1
      ensures dangling <==> r == 0 && pid in old(pcbs) && old(pcbs)[pid].parent == IDLE
    {
      hide KInv, Queued, Woken, Zombified, Reaped, Killed, Yield;
      ghost var k := View();
      KillKeeps(k, pid);
      if pid <= 1 {
        return -1, false;
      }
      var p: nat := pid;
      var found := KillProcess(p, ret);
      if !found {
        return -1, false;
      }
      ZombieFacts(k, p, ret);
      FreeStack(p);
      WakeUpWaitingParent(pcbs[p].parent, p);
      WokenFacts(k, p, ret);
      dangling := p !in pcbs;
      if p in pcbs && pcbs[p].parent != IDLE {
        var _ := ReapChild(p);
      }
      if pid == currentPid {
        YieldProcessor();
      }
      r := 0;
    }

    // ---- waitpid --------------------------------------------------------

    /** The caller's fields before it is blocked. */
    method RecordTarget(pid: nat)
      requires current in pcbs
      modifies this`pcbs, this`waiting
      ensures View() == Awaiting(old(View()), pid)
    {
      pcbs := pcbs[current := pcbs[current].(waitingFor := pid, status := BLOCKED)];
      if current in ready {
        waiting := waiting[current := pid];
      }
    }

    /** The part of waitpid after its checks: the caller is blocked, or its two fields are put back. */
    method Suspend(pid: nat) returns (suspended: bool)
      requires KInv(View()) && MayWait(View(), pid)
      modifies this
      ensures View() == Processes.Waitpid(old(View()), pid)
      ensures suspended == old(current in ready)
    {
      hide KInv, Core, Block, Found, ToBlocked, MayWait;
      ghost var k := View();
      WaitpidFacts(k, pid);
      WaitpidDone(k, pid);
      var caller := current;
      RecordTarget(pid);
      var b := BlockAndYield(caller);
      if b != 0 {
        BlockFails(Awaiting(k, pid), caller);
        pcbs := pcbs[caller := pcbs[caller].(waitingFor := -1, status := READY)];
        assert pcbs == k.pcbs[caller := k.pcbs[caller].(waitingFor := -1, status := READY)];
      }
      suspended := b == 0;
    }

    /**
     Up to the point where the caller is suspended, or returns.  The target is
     never a zombie here, so the branch that reaps at once is never taken.
     */
    method Waitpid(pid: int) returns (suspended: bool, r: int)
      requires KInv(View())
      modifies this
      ensures View() == Processes.Waitpid(old(View()), pid) && KInv(View())
      ensures suspended <==>
                old(current in ready && Queued(View(), pid) && pid in pcbs && pcbs[pid].parent == current)
      ensures suspended ==> old(current) in blocked && old(current) in waiting && waiting[old(current)] == pid
      ensures r == -1
    {
      hide KInv, Found, Queued, Processes.Waitpid;
      ghost var k := View();
      WaitpidKeeps(k, pid);
      WaitpidFacts(k, pid);
      SuspendedFacts(k, pid);
      var target := GetProcess(pid);
      if target.None? || (target.value.parent != current && pcbs[current].waitingFor != pid) {
        return false, -1;
      }
      assert target.value.status != ZOMBIE;
      suspended := Suspend(pid);
      r := -1;
    }

    // ---- creation and priorities ----------------------------------------

    /** Puts the new process in its queue, if a queue node can be allocated. */
    method Place(pid: nat, background: bool, prio: int, node: bool)
      modifies this`current, this`ready, this`blocked
      ensures View() == Placed(old(View()), pid, background, prio, node)
    {
      if background {
        if node {
          blocked := blocked + [pid];
        }
        return;
      }
      if prio != IDLE_PRIORITY {
        if current == IDLE {
          current := pid;
        }
        if node {
          ready := ready + [pid];
        }
      }
    }

    /** The PCB and the stack of the new process, and its queue. */
    method Admit(pid: nat, prio: int, background: bool, fg: bool, node: bool)
      modifies this`pcbs, this`stacks, this`current, this`ready, this`blocked
      ensures View() == Admitted(old(View()), pid, prio, background, fg, node)
    {
      pcbs := pcbs[pid := Pcb(current, -1, prio, if background then BLOCKED else READY, fg, 0)];
      stacks := stacks + {pid};
      Place(pid, background, prio, node);
    }

    /** createProcess with valid arguments; `luck` says how the calls it makes turn out. */
    method CreateProcess(priority: nat, fg: bool, tty: bool, luck: Luck) returns (r: int)
      requires KInv(View()) && Allowed(View(), DoCreate(priority, fg, tty, luck))
      modifies this
      ensures View() == Create(old(View()), priority, fg, tty, luck) && KInv(View())
      ensures r == -1 || (r == old(nextPid) && r !in old(pcbs) && r in pcbs && pcbs[r].parent == old(current))
      ensures r == -1 ==> pcbs == old(pcbs) && stacks == old(stacks)
      ensures r != -1 <==> luck.pcb && luck.stack && (old(nextPid) != 1 || luck.pipe)
      ensures nextPid == if luck.pcb then old(nextPid) + 1 else old(nextPid)
      ensures r != -1 ==>
                (Queued(View(), r) <==> luck.node && ((r > 1 && !fg && tty) || priority != IDLE_PRIORITY))
      ensures r != -1 ==>
                && (priority <= 6 ==> pcbs[r].priority == priority) && (priority > 6 ==> pcbs[r].priority == 5)
                && pcbs[r].foreground == fg && pcbs[r].waitingFor == -1
                && forall q :: q in old(pcbs) ==> q in pcbs && pcbs[q] == old(pcbs)[q]
    {
      hide KInv, Allowed, Create, Admitted, Queued;
      ghost var k := View();
      CreateInv(k, priority, fg, tty, luck);
      CreatedView(k, priority, fg, tty, luck);
      if !luck.pcb {
        return -1;
      }
      var pid := nextPid;
      nextPid := nextPid + 1;
      if !luck.stack || (pid == 1 && !luck.pipe) {
        return -1;
      }
      CreatedIsQueued(k, priority, fg, tty, luck);
      CreatedPcb(k, priority, fg, tty, luck);
      Admit(pid, ClampCreate(priority), pid > 1 && !fg && tty, fg, luck.node);
      return pid;
    }

    method ChangePriority(pid: int, newPrio: int) returns (r: int)
      requires KInv(View())
      modifies this`pcbs
      ensures View() == ChangePrio(old(View()), pid, newPrio) && KInv(View())
      ensures r == -1 <==> pid <= 1 || !old(Found(View(), pid))
      ensures r == -1 ==> pcbs == old(pcbs)
      ensures r != -1 ==> pid in old(pcbs) && pcbs == old(pcbs)[pid := old(pcbs)[pid].(priority := r)]
      ensures r != -1 && 0 <= newPrio <= 5 ==> r == newPrio
      ensures r != -1 && newPrio < 0 ==> r == 0
      ensures r != -1 && newPrio > 5 ==> r == 5
    {
      hide KInv, Found;
      ChangePrioKeeps(View(), pid, newPrio);
      WaitpidFacts(View(), pid);
      var process := GetProcess(pid);
      if pid <= 1 {
        return -1;
      }
      if process.None? {
        return -1;
      }
      r := if newPrio < MIN_PRIORITY then MIN_PRIORITY else if newPrio > MAX_PRIORITY then MAX_PRIORITY else newPrio;
      pcbs := pcbs[pid := process.value.(priority := r)];
    }

    // ---- semaphores -----------------------------------------------------

    /** Every slot in use has its log. */
    ghost predicate Logged()
      reads this
    {
      sems.Keys == logs.Keys
    }

    /** semInit; the wait queue can be allocated. */
    method InitSemaphore(id: int, value: nat) returns (r: int)
      requires KInv(View()) && value < WORD && Logged()
      modifies this`sems, this`logs, this`values, this`closed
      ensures r == if 0 <= id < NUM_SEMS && id !in old(sems) then 0 else -1
      ensures r == 0 ==> View() == SemInit(old(View()), id, value)
      ensures r != 0 ==> View() == old(View())
      ensures KInv(View()) && Logged()
    {
      hide KInv;
      if id < 0 || id >= NUM_SEMS {
        return -1;
      }
      SemTableKeeps(View(), SemInit(View(), id, value));
      if id in sems {
        return -1;
      }
      sems := sems[id := Sem(value, [])];
      logs := logs[id := SemLog(value, 0, 0, 0, [], [])];
      values, closed := values - {id}, closed - {id};
      return 0;
    }

    method CloseSemaphore(id: int) returns (r: int)
      requires KInv(View()) && Logged()
      modifies this`sems, this`logs, this`values, this`closed
      ensures r == if 0 <= id < NUM_SEMS && id in old(sems) then 0 else -1
      ensures r == 0 ==> View() == SemClose(old(View()), id)
      ensures r != 0 ==> View() == old(View())
      ensures KInv(View()) && Logged()
    {
      hide KInv;
      if id < 0 || id >= NUM_SEMS {
        return -1;
      }
      SemTableKeeps(View(), SemClose(View(), id));
      if id !in sems {
        return -1;
      }
      sems := sems - {id};
      logs := logs - {id};
      values, closed := values - {id}, closed + {id};
      return 0;
    }

    /** blockProcessQueueBySem. */
    method BlockBySem(pid: nat)
      requires pid in ready && pid in pcbs
      modifies this`ready, this`bySem, this`pcbs
      ensures View() == ToBySem(old(View()), pid)
    {
      hide Without;
      ready := Without(ready, pid);
      bySem := bySem + [pid];
      if pcbs[pid].status != BLOCKED {
        pcbs := pcbs[pid := pcbs[pid].(status := BLOCKED)];
      }
      assert pcbs == old(pcbs)[pid := old(pcbs)[pid].(status := BLOCKED)];
    }

    /** unblockProcessQueueBySem: does nothing for a process that is not in that queue. */
    method UnblockBySem(pid: nat)
      requires pid in bySem ==> pid in pcbs
      modifies this`ready, this`bySem, this`pcbs
      ensures View() == if pid in old(bySem) then FromBySem(old(View()), pid) else old(View())
    {
      hide Without;
      if pid !in bySem {
        return;
      }
      bySem := Without(bySem, pid);
      ready := ready + [pid];
      if pcbs[pid].status != READY {
        pcbs := pcbs[pid := pcbs[pid].(status := READY)];
      }
      assert pcbs == old(pcbs)[pid := old(pcbs)[pid].(status := READY)];
    }

    /** The value of a slot, in use or not. */
    method Value(id: nat) returns (v: nat)
      requires Logged()
      ensures v == Units(View(), id)
    {
      if id in sems {
        return sems[id].value;
      }
      v := if id in values then values[id] else 0;
    }

    method TakeUnit(id: nat)
      requires Logged() && Units(View(), id) > 0
      modifies this`sems, this`logs, this`values
      ensures View() == Taken(old(View()), id) && Logged()
    {
      if id in sems {
        sems := sems[id := sems[id].(value := sems[id].value - 1)];
        logs := logs[id := logs[id].(grants := logs[id].grants + 1)];
        return;
      }
      values := values[id := values[id] - 1];
    }

    /** enqueue of the current process, if the slot has a queue and a node can be allocated. */
    method Enlist(id: nat, node: bool)
      requires Logged() && Units(View(), id) == 0
      modifies this`sems, this`logs
      ensures View() == (if node then Enlisted(old(View()), id) else old(View())) && Logged()
    {
      if id in sems && node {
        sems := sems[id := sems[id].(waiters := sems[id].waiters + [current])];
        logs := logs[id := logs[id].(arrivals := logs[id].arrivals + [current])];
      }
    }

    /** wait by the current process; `luck` says how its two allocations turn out. */
    method WaitSemaphore(id: int, luck: WaitLuck) returns (r: int)
      requires KInv(View()) && Logged()
      modifies this
      ensures id >= 0 ==> View() == SemWait(old(View()), id, luck)
      ensures id < 0 ==> View() == old(View())
      ensures KInv(View()) && Logged()
      ensures r == if 0 <= id < NUM_SEMS && (old(Units(View(), id)) > 0 || luck.pid) then 0 else -1
    {
      hide KInv, Core, Yield, ToBySem, Enlisted, Taken, Units, SemWait;
      if id < 0 || id >= NUM_SEMS {
        if id >= 0 { SemWaitFacts(View(), id, luck); }
        return -1;
      }
      ghost var k := View();
      SemWaitKeeps(k, id, luck);
      SemWaitFacts(k, id, luck);
      var value := Value(id);
      if value > 0 {
        TakeUnit(id);
        return 0;
      }
      if !luck.pid {
        return -1;
      }
      var pid := current;
      Enlist(id, luck.node);
      if pid in ready {
        BlockBySem(pid);
        YieldProcessor();
      }
      WaitKeysSame(k, id, luck);
      return 0;
    }

    /** dequeue of the first waiter and its release. */
    method HandOver(id: nat)
      requires Logged() && id in sems && id < NUM_SEMS && sems[id].waiters != []
      requires forall p :: p in bySem ==> p in pcbs
      modifies this`sems, this`logs, this`ready, this`bySem, this`pcbs
      ensures View() == SemPost(old(View()), id) && Logged()
    {
      hide FromBySem;
      SemPostFacts(View(), id);
      var pid := sems[id].waiters[0];
      sems := sems[id := sems[id].(waiters := sems[id].waiters[1..])];
      logs := logs[id := Handed(logs[id], pid)];
      UnblockBySem(pid);
    }

    method PostSemaphore(id: int) returns (r: int)
      requires KInv(View()) && Logged()
      modifies this`sems, this`logs, this`values, this`ready, this`bySem, this`pcbs
      ensures id >= 0 ==> View() == SemPost(old(View()), id)
      ensures id < 0 ==> View() == old(View())
      ensures KInv(View()) && Logged()
      ensures r == if 0 <= id < NUM_SEMS then 0 else -1
    {
      hide KInv, Without;
      if id < 0 || id >= NUM_SEMS {
        return -1;
      }
      ghost var k := View();
      SemPostKeeps(k, id);
      BlockedHavePcbs(k);
      if id !in sems {
        values := values[id := ((if id in values then values[id] else 0) + 1) % WORD];
      } else if sems[id].waiters != [] {
        HandOver(id);
      } else {
        var v := sems[id].value;
        sems := sems[id := sems[id].(value := (v + 1) % WORD)];
        logs := logs[id := logs[id].(posts := logs[id].posts + 1, wraps := logs[id].wraps + (v + 1) / WORD)];
      }
      return 0;
    }

    // ---- listing --------------------------------------------------------

    /**
     getProcessInfo: scans the pids from 0 until it has copied processCount PCBs.
     The scan ends below nextPid, no row falls outside the array, and idle and
     every queued process appear exactly once, in increasing order of pid.
     */
    method GetProcessInfo(arrayAllocated: bool) returns (info: Option<seq<Row>>)
      requires KInv(View())
      ensures info.Some? <==> arrayAllocated
      ensures info.Some? ==> |info.value| == ProcessCount(View())
      ensures info.Some? ==> forall a, b :: 0 <= a < b < |info.value| ==> info.value[a].pid < info.value[b].pid
      ensures info.Some? ==> forall p: nat :: HasRow(info.value, p) <==> p == IDLE || Queued(View(), p)
      ensures info.Some? ==> forall a :: 0 <= a < |info.value| ==>
                               info.value[a].pid in pcbs && info.value[a].pcb == pcbs[info.value[a].pid]
    {
      hide KInv, Found, ListsBelow;
      if !arrayAllocated {
        return None;
      }
      ghost var k := View();
      var count := |ready| + |blocked| + |bySem| + |zombie| + 1;
      var rows: seq<Row> := [];
      var i: nat := 0;
      ListsNone(k);
      while |rows| < count
        invariant ListsBelow(rows, k, i) && |rows| <= count
        decreases k.nextPid - i
      {
        RowsSoFar(rows, k, i);
        ScanGoesOn(k, i);
        FoundIffListed(k, i);
        ListsNext(rows, k, i);
        var process := GetProcess(i);
        if process.Some? {
          rows := rows + [Row(i, process.value)];
        }
        i := i + 1;
      }
      ListsEveryone(rows, k, i);
      return Some(rows);
    }
  }

  /** The state in which waitpid calls blockProcess. */
  function Awaiting(k: Kernel, pid: nat): Kernel {
    var a := SetWaitingFor(k, k.current, pid, BLOCKED);
    if k.current in k.ready then a.(waiting := k.waiting[k.current := pid]) else a
  }

  /**
   The lookups of waitpid are safe, its target is no zombie, and its caller can be
   blocked exactly when it is ready.
   */
  lemma WaitpidFacts(k: Kernel, pid: int)
    requires KInv(k)
    ensures k.current in k.pcbs && (Found(k, pid) ==> pid in k.pcbs)
    ensures k.current in k.ready ==> k.current !in k.bySem
    ensures forall p :: p in k.ready ==> p in k.pcbs
    ensures MayWait(k, pid) ==> k.pcbs[pid].status != ZOMBIE
    ensures MayWait(k, pid) && k.current in k.ready ==> Core(ToBlocked(Awaiting(k, pid), k.current))
  {
    hide OneQueue, Allocated, StatusAgrees, ForegroundOk, Bounded, WaitersOk, ChildrenOk, Awaiting, ToBlocked;
    CurrentAllocated(k);
    AllReadyAllocated(k);
    if k.current in k.ready { ReadyOnly(k, k.current); }
    if Found(k, pid) { FoundIffListed(k, pid); }
    if MayWait(k, pid) {
      MayWaitChild(k, pid);
      if k.current in k.ready { AwaitingBlocks(k, pid); }
    }
  }

  /** Accepted callers end up blocked through blockProcess, or get their two fields back. */
  lemma WaitpidDone(k: Kernel, pid: nat)
    requires KInv(k) && MayWait(k, pid)
    ensures Processes.Waitpid(k, pid) ==
              if k.current in k.ready then Block(Awaiting(k, pid), k.current)
              else SetWaitingFor(k, k.current, -1, READY)
  {
    hide Core, Block, Found, Distinct;
    MayWaitChild(k, pid);
    if k.current in k.ready { ReadyOnly(k, k.current) by { CoreOf(k); } }
  }

  /** Who is suspended, and that it then waits for its target. */
  lemma SuspendedFacts(k: Kernel, pid: int)
    requires KInv(k)
    ensures MayWait(k, pid) && k.current in k.ready <==>
              k.current in k.ready && Queued(k, pid) && pid in k.pcbs && k.pcbs[pid].parent == k.current
    ensures MayWait(k, pid) && k.current in k.ready ==>
              var k' := Processes.Waitpid(k, pid);
              k.current in k'.blocked && k.current in k'.waiting && k'.waiting[k.current] == pid
    ensures !MayWait(k, pid) ==> Processes.Waitpid(k, pid) == k
  {
    hide Core, Processes.Waitpid, Queued;
    if k.current in k.ready {
      WaitpidSuspendsIff(k, pid);
      ReadyCaller(k, pid);
      if MayWait(k, pid) { MayWaitChild(k, pid); }
    }
    if !MayWait(k, pid) { Refused(k, pid); }
  }

  lemma AwaitingBlocks(k: Kernel, pid: nat)
    requires KInv(k) && MayWait(k, pid) && k.current in k.ready
    requires k.pcbs[pid].parent == k.current && Queued(k, pid)
    ensures Core(ToBlocked(Awaiting(k, pid), k.current)) && k.current !in k.bySem
  {
    hide Core, Without;
    var p := k.current;
    assert p !in k.bySem && Core(k) by { ReadyOnly(k, p); }
    var b := SetWaitingFor(ToBlocked(k, p), p, pid, BLOCKED).(waiting := k.waiting[p := pid]);
    ToBlockedKeeps(k, p);
    BlockedStill(k, p, pid);
    AwaitKeeps(ToBlocked(k, p), p, pid);
    assert ToBlocked(Awaiting(k, pid), p).pcbs == b.pcbs;
    assert ToBlocked(Awaiting(k, pid), p) == b;
  }

  lemma ReadyOnly(k: Kernel, p: nat)
    requires Core(k) && p in k.ready
    ensures p !in k.bySem && p !in k.blocked && p in k.pcbs
  {
    assert Queued(k, p);
  }

  lemma AllReadyAllocated(k: Kernel)
    requires Core(k)
    ensures forall p :: p in k.ready ==> p in k.pcbs
  {
    forall p | p in k.ready ensures p in k.pcbs { assert Queued(k, p); }
  }

  lemma BlockFails(k: Kernel, pid: int)
    ensures pid in k.bySem || pid !in k.ready ==> Block(k, pid) == k
  {
  }

  /** The queue a new process goes to: blocked in the background, ready otherwise, none with idle's priority. */
  function Placed(k: Kernel, pid: nat, background: bool, prio: int, node: bool): Kernel {
    if background then (if node then k.(blocked := k.blocked + [pid]) else k)
    else if prio == IDLE_PRIORITY then k
    else
      var k1 := if k.current == IDLE then k.(current := pid) else k;
      if node then k1.(ready := k.ready + [pid]) else k1
  }

  function Admitted(k: Kernel, pid: nat, prio: int, background: bool, fg: bool, node: bool): Kernel {
    var pcb := Pcb(k.current, -1, prio, if background then BLOCKED else READY, fg, 0);
    Placed(k.(pcbs := k.pcbs[pid := pcb], stacks := k.stacks + {pid}), pid, background, prio, node)
  }

  lemma CreateInv(k: Kernel, priority: nat, fg: bool, tty: bool, luck: Luck)
    requires KInv(k) && Allowed(k, DoCreate(priority, fg, tty, luck))
    ensures KInv(Create(k, priority, fg, tty, luck)) && k.nextPid !in k.pcbs
  {
    hide Core, Create;
    CreateKeeps(k, DoCreate(priority, fg, tty, luck));
    FreshPid(k) by { CoreOf(k); }
  }

  lemma CreatedView(k: Kernel, priority: nat, fg: bool, tty: bool, luck: Luck)
    ensures !luck.pcb ==> Create(k, priority, fg, tty, luck) == k
    ensures luck.pcb && (!luck.stack || (k.nextPid == 1 && !luck.pipe)) ==>
              Create(k, priority, fg, tty, luck) == k.(nextPid := k.nextPid + 1)
    ensures luck.pcb && luck.stack && (k.nextPid != 1 || luck.pipe) ==>
              var pid, background := k.nextPid, k.nextPid > 1 && !fg && tty;
              && Create(k, priority, fg, tty, luck) ==
                 Admitted(k.(nextPid := pid + 1), pid, ClampCreate(priority), background, fg, luck.node)
              && pid in Create(k, priority, fg, tty, luck).pcbs
              && Create(k, priority, fg, tty, luck).pcbs[pid].parent == k.current
  {
  }

  lemma SemWaitFacts(k: Kernel, id: nat, luck: WaitLuck)
    requires KInv(k)
    ensures k.current in k.pcbs
    ensures id >= NUM_SEMS ==> SemWait(k, id, luck) == k
    ensures id < NUM_SEMS && Units(k, id) > 0 ==> SemWait(k, id, luck) == Taken(k, id)
    ensures Units(k, id) == 0 && !luck.pid ==> SemWait(k, id, luck) == k
    ensures var k1 := if luck.node then Enlisted(k, id) else k;
            && k1.pcbs == k.pcbs && k1.ready == k.ready && k1.current == k.current
            && (k.current in k.ready ==>
                  && Core(ToBySem(k1, k.current)) && ToBySem(k1, k.current).current in ToBySem(k1, k.current).pcbs)
            && (id < NUM_SEMS && Units(k, id) == 0 && luck.pid ==>
                  SemWait(k, id, luck) == if k.current in k.ready then Yield(ToBySem(k1, k.current)) else k1)
  {
    hide Core, Yield, Without, Units;
    var k1 := if luck.node then Enlisted(k, id) else k;
    CurrentAllocated(k);
    SemTableKeeps(k, k1);
    CoreOf(k1);
    if k.current in k.ready { ToBySemKeeps(k1, k.current); }
  }

  /** wait opens and closes nothing. */
  lemma WaitKeysSame(k: Kernel, id: nat, luck: WaitLuck)
    ensures SemWait(k, id, luck).sems.Keys == k.sems.Keys && SemWait(k, id, luck).logs.Keys == k.logs.Keys
  {
    hide SemWait, Wait;
    WaitOutcome(k, id, luck);
  }

  lemma BlockedHavePcbs(k: Kernel)
    requires KInv(k)
    ensures forall p :: p in k.bySem ==> p in k.pcbs
  {
    forall p | p in k.bySem ensures p in k.pcbs { assert Queued(k, p); }
  }

  function Handed(g: SemLog, pid: nat): SemLog {
    g.(posts := g.posts + 1, grants := g.grants + 1, handed := g.handed + [pid])
  }

  lemma SemPostFacts(k: Kernel, id: nat)
    requires id < NUM_SEMS && Open(k, id) && k.sems[id].waiters != []
    ensures var s := k.sems[id];
            var k2 := k.(sems := k.sems[id := s.(waiters := s.waiters[1..])],
                         logs := k.logs[id := Handed(k.logs[id], s.waiters[0])]);
            SemPost(k, id) == if s.waiters[0] in k.bySem then FromBySem(k2, s.waiters[0]) else k2
  {
    hide Without;
  }

  /** The state after killProcess: out of its queue, in the zombie queue. */
  function Zombified(k: Kernel, pid: nat, ret: int): Kernel {
    if pid !in k.pcbs then k else
    k.(ready := Without(k.ready, pid), blocked := Without(k.blocked, pid), bySem := Without(k.bySem, pid),
       zombie := k.zombie + [pid], waiting := k.waiting - {pid},
       pcbs := k.pcbs[pid := k.pcbs[pid].(ret := ret, status := ZOMBIE)],
       current := if k.current == pid then IDLE else k.current,
       foreground := if k.foreground == pid then -1 else k.foreground)
  }

  function Reaped(k: Kernel, pid: nat): Kernel {
    k.(zombie := Without(k.zombie, pid), pcbs := k.pcbs - {pid})
  }

  /** wakeUpWaitingParent, including the reaping it does for children of idle. */
  function Woken(k: Kernel, parent: int, child: nat): Kernel {
    if parent == -1 then k else
    var k1 := if parent == IDLE then Reaped(k, child) else k;
    if Found(k1, parent) && parent in k1.pcbs && k1.pcbs[parent].status == BLOCKED
        && k1.pcbs[parent].waitingFor == child
    then Unblock(k1, parent) else k1
  }

  lemma NotQueuedNotCurrent(k: Kernel, pid: nat)
    requires KInv(k) && pid != IDLE
    ensures !Queued(k, pid) ==> pid != k.current
    ensures Queued(k, pid) ==> pid in k.pcbs
    ensures k.zombie == []
  {
  }

  /** A process is in one queue, so removing it from the others changes nothing. */
  lemma WithoutOthers(k: Kernel, pid: nat)
    requires KInv(k)
    ensures pid in k.ready ==> Without(k.blocked, pid) == k.blocked && Without(k.bySem, pid) == k.bySem
    ensures pid in k.blocked ==> Without(k.ready, pid) == k.ready && Without(k.bySem, pid) == k.bySem
    ensures pid in k.bySem ==> Without(k.ready, pid) == k.ready && Without(k.blocked, pid) == k.blocked
    ensures Queued(k, pid) <==> pid in k.ready || pid in k.blocked || pid in k.bySem
  {
    hide Without;
    if pid !in k.ready { WithoutAbsent(k.ready, pid); }
    if pid !in k.blocked { WithoutAbsent(k.blocked, pid); }
    if pid !in k.bySem { WithoutAbsent(k.bySem, pid); }
  }

  /**
   What wakeUpWaitingParent may rely on: the stack is there to be freed, the PCB is
   the victim's, the parent is someone else.
   */
  lemma ZombieFacts(k: Kernel, pid: nat, ret: int)
    requires KInv(k) && pid > 1 && Queued(k, pid)
    ensures pid in k.pcbs && pid in k.stacks
    ensures var z, parent := Zombified(k, pid, ret), k.pcbs[pid].parent;
            && z.stacks == k.stacks && z.zombie == [pid] && pid in z.pcbs && IDLE in z.pcbs
                && z.pcbs[pid].parent == parent
            && z.currentPid == k.currentPid
            && (forall p :: p in z.blocked ==> p in z.pcbs && p != pid)
            && (Found(z, parent) ==> parent in z.pcbs && parent != pid)
            && (forall ss :: Found(z.(stacks := ss), parent) ==> Found(z, parent))
  {
    hide Without, Distinct, StatusAgrees, ForegroundOk, WaitersOk, Bounded;
    EraseMembers(k, pid);
    CurrentAllocated(k);
  }

  /**
   Through the zombie queue or directly: kill's detour reaches the state with the
   victim erased and the parent woken.
   */
  lemma WokenFacts(k: Kernel, pid: nat, ret: int)
    requires KInv(k) && pid > 1 && Queued(k, pid) && pid in k.pcbs
    ensures var z, parent := Zombified(k, pid, ret).(stacks := k.stacks - {pid}), k.pcbs[pid].parent;
            var w := Woken(z, parent, pid);
            && (parent == IDLE ==> w == Killed(k, pid) && pid !in w.pcbs)
            && (parent != IDLE ==> pid in w.zombie && pid in w.pcbs && w.pcbs[pid].parent == parent
                                   && Reaped(w, pid) == Killed(k, pid))
            && w.currentPid == k.currentPid
    ensures Core(Killed(k, pid)) && Killed(k, pid).current in Killed(k, pid).pcbs
    ensures Killed(k, pid).currentPid == k.currentPid
    ensures Processes.Kill(k, pid) == if pid == k.currentPid then Yield(Killed(k, pid)) else Killed(k, pid)
  {
    hide Without, Distinct, StatusAgrees, ForegroundOk, WaitersOk, Bounded, Yield;
    KilledKeeps(k, pid);
    KilledCurrent(k, pid);
    KilledCurrentAllocated(k, pid);
    if k.pcbs[pid].parent == IDLE { WokenIdle(k, pid, ret); } else { WokenOther(k, pid, ret); }
  }

  /**
   What waking the parent does to everybody: a blocked process becomes ready if
   and only if its last waitpid named the victim, and the victim's PCB is already
   gone if and only if its parent is idle.
   */
  lemma WakesExactly(k: Kernel, pid: nat, ret: int, q: nat)
    requires KInv(k) && pid > 1 && Queued(k, pid) && pid in k.pcbs && q in k.blocked && q != pid
    ensures q in k.pcbs
    ensures var w := Woken(Zombified(k, pid, ret).(stacks := k.stacks - {pid}), k.pcbs[pid].parent, pid);
            && (q in w.ready <==> k.pcbs[q].waitingFor == pid)
            && (pid !in w.pcbs <==> k.pcbs[pid].parent == IDLE)
  {
    hide Core, Woken, Zombified, Killed, Queued;
    WokenFacts(k, pid, ret);
    BlockedKilled(k, pid, q) by { CoreOf(k); }
  }

  lemma KilledCurrentAllocated(k: Kernel, pid: nat)
    requires KInv(k) && pid in k.pcbs && pid != IDLE
    ensures Killed(k, pid).current in Killed(k, pid).pcbs
  {
    hide Without, Distinct;
    KilledKeeps(k, pid);
    KilledCurrent(k, pid);
    assert Killed(k, pid).current in Killed(k, pid).ready ==> Queued(Killed(k, pid), Killed(k, pid).current);
  }

  /** A process that went through the zombie queue is gone like an erased one. */
  lemma ReapedZombie(k: Kernel, pid: nat, ret: int)
    requires k.zombie == [] && pid in k.pcbs
    ensures Reaped(Zombified(k, pid, ret).(stacks := k.stacks - {pid}), pid) == Erase(k, pid)
  {
    var z := Zombified(k, pid, ret).(stacks := k.stacks - {pid});
    assert Without([pid], pid) == [];
    assert [] + [pid] == [pid];
    hide Without;
    assert Reaped(z, pid).pcbs == Erase(k, pid).pcbs;
  }

  lemma WokenIdle(k: Kernel, pid: nat, ret: int)
    requires KInv(k) && pid > 1 && Queued(k, pid) && pid in k.pcbs && k.pcbs[pid].parent == IDLE
    ensures Woken(Zombified(k, pid, ret).(stacks := k.stacks - {pid}), IDLE, pid) == Killed(k, pid)
  {
    hide Distinct, Without, Zombified, Reaped, Unblock, OneQueue, StatusAgrees, WaitersOk, ChildrenOk, Bounded,
         ForegroundOk;
    ReapedZombie(k, pid, ret) by { NotQueuedNotCurrent(k, pid); }
    IdleNotBlocked(k, pid);
  }

  lemma IdleNotBlocked(k: Kernel, pid: nat)
    requires KInv(k) && pid != IDLE
    ensures IDLE !in Erase(k, pid).blocked
    ensures IDLE in Erase(k, pid).pcbs && Erase(k, pid).pcbs[IDLE].status != BLOCKED
  {
    hide Without, Distinct;
    EraseMembers(k, pid);
    assert StatusFits(k, IDLE, k.pcbs[IDLE].status);
  }

  /** Freeing the child's PCB and moving the parent are independent. */
  lemma ReapUnblockCommute(z: Kernel, pid: nat, q: nat)
    requires pid != q
    ensures Reaped(Unblock(z, q), pid) == Unblock(Reaped(z, pid), q)
  {
    hide Without;
    if q in z.pcbs { RemoveOther(z.pcbs, q, z.pcbs[q].(status := READY), pid); }
  }

  lemma RemoveOther(m: map<nat, Pcb>, q: nat, v: Pcb, pid: nat)
    requires q != pid
    ensures m[q := v] - {pid} == (m - {pid})[q := v]
  {
  }

  /**
   The parent found blocked and waiting is one that `WaitsFor` finds, unless it is
   not in the blocked queue at all.
   */
  lemma WakeDecision(k: Kernel, pid: nat, ret: int)
    requires KInv(k) && pid > 1 && pid in k.pcbs
    ensures var z, parent := Zombified(k, pid, ret).(stacks := k.stacks - {pid}), k.pcbs[pid].parent;
            && z.blocked == Erase(k, pid).blocked && parent != pid
            && (parent in z.blocked ==>
                  ((Found(z, parent) && parent in z.pcbs && z.pcbs[parent].status == BLOCKED
                      && z.pcbs[parent].waitingFor == pid)
                   <==> WaitsFor(Erase(k, pid), parent, pid)))
  {
    hide Without, Distinct, ForegroundOk, WaitersOk, Bounded;
    EraseMembers(k, pid);
    var parent := k.pcbs[pid].parent;
    if parent in k.blocked {
      QueuedAllocated(k, parent);
      assert StatusFits(k, parent, k.pcbs[parent].status);
    }
  }

  lemma UnblockFrame(k: Kernel, pid: int)
    ensures Unblock(k, pid).zombie == k.zombie && Unblock(k, pid).currentPid == k.currentPid
    ensures Unblock(k, pid).pcbs.Keys == k.pcbs.Keys
    ensures forall q :: q in k.pcbs ==> Unblock(k, pid).pcbs[q].parent == k.pcbs[q].parent
    ensures pid !in k.blocked ==> Unblock(k, pid) == k
  {
    hide Without;
  }

  lemma WokenOther(k: Kernel, pid: nat, ret: int)
    requires KInv(k) && pid > 1 && Queued(k, pid) && pid in k.pcbs && k.pcbs[pid].parent != IDLE
    ensures var z, parent := Zombified(k, pid, ret).(stacks := k.stacks - {pid}), k.pcbs[pid].parent;
            var w := Woken(z, parent, pid);
            && w.zombie == [pid] && pid in w.pcbs && w.pcbs[pid].parent == parent
            && Reaped(w, pid) == Killed(k, pid) && w.currentPid == k.currentPid
  {
    hide Core, Reaped, Unblock, Without, Queued, Found;
    var z, parent := Zombified(k, pid, ret).(stacks := k.stacks - {pid}), k.pcbs[pid].parent;
    ZombieFacts(k, pid, ret);
    ReapedZombie(k, pid, ret) by { NotQueuedNotCurrent(k, pid); }
    WakeDecision(k, pid, ret);
    UnblockFrame(z, parent);
    UnblockFrame(Erase(k, pid), parent);
    if parent in z.blocked { ReapUnblockCommute(z, pid, parent); }
  }

  lemma QueuedAllocated(k: Kernel, p: nat)
    requires Core(k) && (p in k.ready || p in k.blocked || p in k.bySem)
    ensures p in k.pcbs
  {
    assert Queued(k, p);
  }

  lemma BlockedView(k: Kernel, p: nat)
    requires KInv(k) && p in k.ready && p !in k.bySem
    ensures Core(ToBlocked(k, p)) && ToBlocked(k, p).current in ToBlocked(k, p).pcbs
    ensures Block(k, p) == if p == k.current then Yield(ToBlocked(k, p)) else ToBlocked(k, p)
  {
    hide Core, Yield, Without;
    ToBlockedKeeps(k, p);
    CurrentAllocated(k);
  }
}
