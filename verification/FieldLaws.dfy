/** What an operation may change: field by field for PCBs, and the two process pointers. */
module FieldLaws {
  import opened Sequences
  import opened Semaphores
  import opened Processes
  import opened ProcessSafety
  import opened ProcessLaws
  import opened FairScheduling

  /** No new PCB, and of the others only the status changed. */
  ghost predicate StatusOnly(k: Kernel, k': Kernel) {
    forall q :: q in k'.pcbs ==> q in k.pcbs && k'.pcbs[q] == k.pcbs[q].(status := k'.pcbs[q].status)
  }

  /**
   The two pointers, given what they would be without a switch: the foreground
   process is then the one that got the processor, if it is a foreground process.
   */
  predicate Pointers(k: Kernel, k': Kernel, f: int, c: nat) {
    && (k'.switches == k.switches ==> k'.current == c)
    && k'.foreground ==
      if k'.switches > k.switches && k'.current != IDLE && k'.current in k'.pcbs && k'.pcbs[k'.current].foreground
      then k'.current else f
  }

  lemma StatusTwice(a: Kernel, b: Kernel, c: Kernel)
    requires StatusOnly(a, b) && StatusOnly(b, c)
    ensures StatusOnly(a, c)
  {
    forall q | q in c.pcbs ensures q in a.pcbs && c.pcbs[q] == a.pcbs[q].(status := c.pcbs[q].status) {
      assert q in b.pcbs && b.pcbs[q] == a.pcbs[q].(status := b.pcbs[q].status);
    }
  }

  lemma DispatchFields(k: Kernel)
    requires Core(k)
    ensures StatusOnly(k, Dispatch(k)) && Pointers(k, Dispatch(k), k.foreground, k.current)
    ensures Dispatch(k).switches == k.switches + 1
  {
    hide OneQueue, StatusAgrees, Bounded, ForegroundOk, WaitersOk, ChildrenOk, Distinct, Rotated, CalculateQuantum;
    DispatchSame(k);
    DispatchReady(k);
    assert k.ready != [] ==> Queued(k, k.ready[0]);
  }

  lemma YieldFields(k: Kernel)
    requires Core(k)
    ensures StatusOnly(k, Yield(k)) && Pointers(k, Yield(k), k.foreground, k.current)
    ensures Yield(k).switches == k.switches + 1
  {
    hide Core, Dispatch;
    QuantumOnly(k, 0);
    DispatchFields(k.(quantum := 0));
  }

  /** One process moved with its new status, and a possible switch after it. */
  lemma MovedFields(k: Kernel, k1: Kernel, b: bool)
    requires StatusOnly(k, k1) && k1.switches == k.switches && (b ==> Core(k1))
    ensures var k' := if b then Yield(k1) else k1; StatusOnly(k, k') && Pointers(k, k', k1.foreground, k1.current)
  {
    hide Core, Yield, StatusOnly;
    if b {
      YieldFields(k1);
      StatusTwice(k, k1, Yield(k1));
    }
  }

  lemma BlockFields(k: Kernel, pid: int)
    requires KInv(k)
    ensures StatusOnly(k, Block(k, pid)) && Pointers(k, Block(k, pid), k.foreground, k.current)
  {
    hide Core, Yield, Without;
    if pid !in k.bySem && pid in k.ready {
      ToBlockedKeeps(k, pid);
      MovedFields(k, ToBlocked(k, pid), pid == k.current);
    }
  }

  /** The foreground process after the victim is gone. */
  function WithoutVictim(k: Kernel, pid: int): int {
    if pid > 1 && k.foreground == pid then -1 else k.foreground
  }

  /** The current process after the victim is gone. */
  function CurrentWithout(k: Kernel, pid: int): nat {
    if pid > 1 && k.current == pid then IDLE else k.current
  }

  lemma KillFields(k: Kernel, pid: int)
    requires KInv(k)
    ensures StatusOnly(k, Kill(k, pid)) && Pointers(k, Kill(k, pid), WithoutVictim(k, pid), CurrentWithout(k, pid))
  {
    hide Yield, Without, Distinct, OneQueue, StatusAgrees, Bounded, WaitersOk, ChildrenOk;
    if !(pid <= 1 || !Queued(k, pid) || pid !in k.pcbs) {
      var p: nat := pid;
      KilledKeeps(k, p);
      MovedFields(k, Killed(k, p), pid == k.currentPid);
    }
  }

  lemma SemWaitFields(k: Kernel, id: nat, luck: WaitLuck)
    requires KInv(k)
    ensures StatusOnly(k, SemWait(k, id, luck)) && Pointers(k, SemWait(k, id, luck), k.foreground, k.current)
  {
    hide Core, Yield, Without, Wait, Units;
    if id < NUM_SEMS && Units(k, id) == 0 && luck.pid {
      var k1 := if luck.node then Enlisted(k, id) else k;
      SemTableKeeps(k, k1);
      if k.current in k.ready {
        ToBySemKeeps(k1, k.current);
        MovedFields(k, ToBySem(k1, k.current), true);
      }
    }
  }

  /** Every field of every PCB but the caller's record and the status. */
  ghost predicate RecordOnly(k: Kernel, k': Kernel, p: nat) {
    forall q :: q in k'.pcbs ==>
      && q in k.pcbs
      && k'.pcbs[q] == k.pcbs[q].(status := k'.pcbs[q].status,
                                  waitingFor := if q == p then k'.pcbs[q].waitingFor else k.pcbs[q].waitingFor)
  }

  lemma WaitpidFields(k: Kernel, pid: int)
    requires KInv(k)
    ensures RecordOnly(k, Waitpid(k, pid), k.current) && Pointers(k, Waitpid(k, pid), k.foreground, k.current)
  {
    hide Core, Yield, Without, Distinct, Block, Found;
    if MayWait(k, pid) {
      MayWaitChild(k, pid);
      if k.current in k.ready && k.current !in k.bySem {
        var p := k.current;
        var b := ToBlocked(k, p);
        var w := SetWaitingFor(b, p, pid, BLOCKED).(waiting := k.waiting[p := pid]);
        SuspendCommutes(k, pid);
        ToBlockedKeeps(k, p);
        BlockedStill(k, p, pid);
        AwaitKeeps(b, p, pid);
        YieldFields(w);
      }
    }
  }

  lemma SemPostFields(k: Kernel, id: nat)
    ensures StatusOnly(k, SemPost(k, id)) && SemPost(k, id).switches == k.switches
    ensures SemPost(k, id).foreground == k.foreground && SemPost(k, id).current == k.current
  {
    hide Without, Post, Units;
  }

  /**
   Every operation: of the PCBs that stay, parent, foreground flag and return value
   never change, the record of whom it waits for only by the process's own waitpid,
   the priority only by changePrio on it.  The foreground process changes only by a
   switch to a foreground process or by the kill of the one it was, the current one
   only by a switch, by its own kill, or by a creation while idle is current.
   */
  lemma StepFields(k: Kernel, a: Action, q: nat)
    requires KInv(k) && q in k.pcbs
    ensures var k' := Step(k, a);
            q in k'.pcbs ==>
              var before, after := k.pcbs[q], k'.pcbs[q];
              && after == before.(status := after.status, waitingFor := after.waitingFor, priority := after.priority)
              && (after.waitingFor != before.waitingFor ==> a.DoWaitpid? && q == k.current)
              && (after.priority != before.priority ==> a.DoChangePrio? && a.pid == q)
    ensures Pointers(k, Step(k, a), if a.DoKill? then WithoutVictim(k, a.pid) else k.foreground,
                     if a.DoKill? then CurrentWithout(k, a.pid)
                     else if a.DoCreate? && k.current == IDLE then Step(k, a).current else k.current)
  {
    hide Core, Tick, Yield, Block, Kill, Waitpid, SemWait, SemPost, Create, Without;
    match a
    case DoTick => TickFields(k);
    case DoYield => YieldFields(k);
    case DoBlock(pid) => BlockFields(k, pid);
    case DoKill(pid) => KillFields(k, pid);
    case DoWaitpid(pid) => WaitpidFields(k, pid);
    case DoSemWait(id, wait) => SemWaitFields(k, id, wait);
    case DoSemPost(id) => SemPostFields(k, id);
    case DoCreate(priority, foreground, tty, luck) => CreateFields(k, a);
    case _ =>
  }

  lemma TickFields(k: Kernel)
    requires KInv(k)
    ensures StatusOnly(k, Tick(k)) && Pointers(k, Tick(k), k.foreground, k.current)
  {
    hide Core, Dispatch;
    DispatchFields(k);
  }

  lemma CreateFields(k: Kernel, a: Action)
    requires KInv(k) && a.DoCreate?
    ensures forall q :: q in k.pcbs ==> q in Step(k, a).pcbs && Step(k, a).pcbs[q] == k.pcbs[q]
    ensures Step(k, a).foreground == k.foreground && Step(k, a).switches == k.switches
    ensures k.current != IDLE ==> Step(k, a).current == k.current
  {
    hide OneQueue, StatusAgrees, Bounded, ForegroundOk, WaitersOk, ChildrenOk;
    FreshPid(k);
  }
}
