/** Time slices: what spends a quantum, and how long a process keeps the processor. */
module TimeSlices {
  import opened Sequences
  import opened Semaphores
  import opened Processes
  import opened ProcessSafety
  import opened FairScheduling

  // ---- what spends a quantum ---------------------------------------------

  /** Either a switch happened, or exactly `n` units of the quantum are spent. */
  predicate Spent(k: Kernel, k': Kernel, n: nat) {
    k'.switches > k.switches || (k'.switches == k.switches && k'.quantum + n == k.quantum)
  }

  lemma YieldCounts(k: Kernel)
    requires Core(k)
    ensures Yield(k).switches == k.switches + 1
  {
    hide Core, Dispatch;
    QuantumOnly(k, 0);
    DispatchReady(k.(quantum := 0)) by { CoreAllocated(k.(quantum := 0)); }
  }

  lemma TickSpent(k: Kernel)
    requires KInv(k)
    ensures Spent(k, Tick(k), 1)
  {
    hide Core, Dispatch;
    DispatchReady(k) by { CoreAllocated(k); }
  }

  lemma BlockSpent(k: Kernel, pid: int)
    requires KInv(k)
    ensures Spent(k, Block(k, pid), 0)
  {
    hide Core, Yield, Without;
    if pid !in k.bySem && pid in k.ready {
      ToBlockedKeeps(k, pid);
      YieldCounts(ToBlocked(k, pid));
    }
  }

  lemma KillSpent(k: Kernel, pid: int)
    requires KInv(k)
    ensures Spent(k, Kill(k, pid), 0)
  {
    hide Core, Yield, Without, Queued;
    if !(pid <= 1 || !Queued(k, pid) || pid !in k.pcbs) {
      var p: nat := pid;
      KilledKeeps(k, p);
      YieldCounts(Killed(k, p));
    }
  }

  lemma WaitpidSpent(k: Kernel, pid: int)
    requires KInv(k)
    ensures Spent(k, Waitpid(k, pid), 0)
  {
    hide Core, Yield, Without, Found, Block;
    if MayWait(k, pid) {
      var c: nat := pid;
      MayWaitChild(k, c);
      if k.current in k.ready && k.current !in k.bySem {
        var p := k.current;
        SuspendCommutes(k, c);
        ToBlockedKeeps(k, p);
        BlockedStill(k, p, c);
        AwaitKeeps(ToBlocked(k, p), p, c);
        YieldCounts(SetWaitingFor(ToBlocked(k, p), p, c, BLOCKED).(waiting := k.waiting[p := c]));
      }
    }
  }

  lemma SemWaitSpent(k: Kernel, id: nat, luck: WaitLuck)
    requires KInv(k)
    ensures Spent(k, SemWait(k, id, luck), 0)
  {
    hide Core, Yield, Without;
    if id < NUM_SEMS && Units(k, id) == 0 && luck.pid && k.current in k.ready {
      var k1 := if luck.node then Enlisted(k, id) else k;
      SemTableKeeps(k, k1);
      ToBySemKeeps(k1, k.current);
      YieldCounts(ToBySem(k1, k.current));
    }
  }

  /** A tick spends one unit or switches; no other operation touches the quantum without switching. */
  lemma StepSpent(k: Kernel, a: Action)
    requires KInv(k)
    ensures Spent(k, Step(k, a), if a.DoTick? then 1 else 0)
  {
    hide Core, Tick, Yield, Block, Kill, Waitpid, SemWait, Without;
    match a
    case DoTick => TickSpent(k);
    case DoYield => YieldCounts(k);
    case DoBlock(pid) => BlockSpent(k, pid);
    case DoKill(pid) => KillSpent(k, pid);
    case DoWaitpid(pid) => WaitpidSpent(k, pid);
    case DoSemWait(id, wait) => SemWaitSpent(k, id, wait);
    case _ =>
  }

  /**
   Whatever processes do, a run without a context switch has spent exactly its
   ticks of the quantum, so a run with more ticks than that has switched.
   */
  lemma {:induction false} QuantumIsTicks(k: Kernel, actions: seq<Action>)
    requires KInv(k) && AllowedRun(k, actions)
    ensures Spent(k, Run(k, actions), Ticks(actions))
    ensures Ticks(actions) > k.quantum ==> Run(k, actions).switches > k.switches
    decreases |actions|
  {
    hide KInv, Step, Allowed;
    if actions != [] {
      StepKeeps(k, actions[0]);
      StepSpent(k, actions[0]);
      QuantumIsTicks(Step(k, actions[0]), actions[1..]);
    }
  }

  // ---- slices ------------------------------------------------------------

  function TickTimes(n: nat): (ts: seq<Action>)
    ensures |ts| == n
  {
    if n == 0 then [] else [DoTick] + TickTimes(n - 1)
  }

  /** Timer ticks within the quantum change nothing else. */
  lemma {:induction false} WithinQuantum(k: Kernel, n: nat)
    requires k.current in k.pcbs && k.pcbs[k.current].status == RUNNING && n <= k.quantum
    ensures Run(k, TickTimes(n)) == k.(quantum := k.quantum - n)
    decreases n
  {
    hide Dispatch;
    if n > 0 {
      assert TickTimes(n)[1..] == TickTimes(n - 1);
      WithinQuantum(Tick(k), n - 1);
    }
  }

  lemma {:induction false} RunAppend(k: Kernel, actions: seq<Action>, a: Action)
    ensures Run(k, actions + [a]) == Step(Run(k, actions), a)
    decreases |actions|
  {
    hide Step;
    if actions == [] {
      assert Run(k, [a]) == Run(Step(k, a), []);
    } else {
      assert (actions + [a])[1..] == actions[1..] + [a];
      RunAppend(Step(k, actions[0]), actions[1..], a);
    }
  }

  /**
   A time slice, whatever happens in it: the quantum after a context switch is
   what the priority gives, only ticks spend it, and there is no run with more
   ticks than that and no further switch.
   */
  lemma SliceIsQuantum(k: Kernel, actions: seq<Action>)
    requires KInv(k) && AllowedRun(Dispatch(k), actions)
    ensures var d := Dispatch(k);
            && d.current in d.pcbs && d.quantum == CalculateQuantum(d.pcbs[d.current].priority)
            && Spent(d, Run(d, actions), Ticks(actions))
            && (Ticks(actions) > d.quantum ==> Run(d, actions).switches > d.switches)
  {
    hide Core, Run, Dispatch, AllowedRun, Spent;
    Promoted(k);
    CoreOf(k);
    DispatchKeeps(k);
    QuantumIsTicks(Dispatch(k), actions);
  }

  /** The slices in ticks: 18, 15, 12, 9, 6 and 3 for priorities 0 to 5, and 3 for idle. */
  lemma SliceTable(k: Kernel)
    requires KInv(k)
    ensures var d := Dispatch(k);
            && d.current in d.pcbs && 0 <= d.pcbs[d.current].priority <= 6
            && d.quantum == if d.pcbs[d.current].priority == 6 then 3 else 18 - 3 * d.pcbs[d.current].priority
  {
    hide Core, Dispatch;
    Promoted(k);
    CoreOf(k);
    DispatchKeeps(k);
    PriorityRange(Dispatch(k), Dispatch(k).current);
  }

  lemma PriorityRange(k: Kernel, p: nat)
    requires KInv(k) && p in k.pcbs
    ensures 0 <= k.pcbs[p].priority <= IDLE_PRIORITY
  {
  }

  /** The slice is not cut short by ticks: they leave everything else alone, and the one after the last switches. */
  lemma SliceOfTicks(k: Kernel, n: nat)
    requires KInv(k)
    ensures var d := Dispatch(k);
            && d.current in d.pcbs && d.quantum == CalculateQuantum(d.pcbs[d.current].priority)
            && (n <= d.quantum ==> Run(d, TickTimes(n)) == d.(quantum := d.quantum - n))
            && Run(d, TickTimes(d.quantum) + [DoTick]).switches == d.switches + 1
  {
    hide Core, Run, Dispatch;
    Promoted(k);
    var d := Dispatch(k);
    if n <= d.quantum { WithinQuantum(d, n); }
    WithinQuantum(d, d.quantum);
    RunAppend(d, TickTimes(d.quantum), DoTick);
    var e := d.(quantum := 0);
    CoreOf(k);
    DispatchKeeps(k);
    QuantumOnly(d, 0);
    DispatchReady(e) by { CoreAllocated(e); }
  }

  /** From priority 0 to 5 the slices get shorter: the larger number gets less time, and idle no more than anybody. */
  lemma LargerNumberLessTime(k1: Kernel, k2: Kernel)
    requires KInv(k1) && KInv(k2)
    ensures var d1, d2 := Dispatch(k1), Dispatch(k2);
            && d1.current in d1.pcbs && d2.current in d2.pcbs
            && (d1.pcbs[d1.current].priority < d2.pcbs[d2.current].priority <= MAX_PRIORITY ==>
                d2.quantum + QUANTUM <= d1.quantum)
            && (d2.pcbs[d2.current].priority == IDLE_PRIORITY ==> d2.quantum <= d1.quantum)
  {
    hide Core, Dispatch;
    Promoted(k1);
    Promoted(k2);
  }

  lemma CoreAllocated(k: Kernel)
    requires Core(k)
    ensures Allocated(k)
  {
  }

  lemma Promoted(k: Kernel)
    requires KInv(k)
    ensures var d := Dispatch(k);
            && d.current in d.pcbs && d.pcbs[d.current].status == RUNNING
            && d.quantum == CalculateQuantum(d.pcbs[d.current].priority)
  {
    hide OneQueue, StatusAgrees, ForegroundOk, WaitersOk, ChildrenOk, Rotated;
    DemoteSame(k);
    var k1 := Demote(k);
    assert NextProcess(k1) == IDLE || Queued(k, NextProcess(k1));
    QuantumBound(k1.pcbs[NextProcess(k1)].priority);
  }
}
