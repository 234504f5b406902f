/** Concrete runs from boot that reach the states in which the kernel misbehaves. */
module KernelRuns {
  import opened Sequences
  import opened Semaphores
  import opened Processes
  import opened ProcessSafety
  import opened SemaphoreLaws
  import opened LostProcesses
  import opened Stranding

  /** Every call inside createProcess succeeds. */
  const LUCKY: Luck := Luck(true, true, true, true)

  /** A foreground process of the given priority. */
  function Spawn(priority: nat): Action { DoCreate(priority, true, false, LUCKY) }

  lemma RunOne(k: Kernel, a: Action, rest: seq<Action>)
    ensures Run(k, [a] + rest) == Run(Step(k, a), rest)
    ensures AllowedRun(k, [a] + rest) <==> Allowed(k, a) && AllowedRun(Step(k, a), rest)
  {
    hide Step, Allowed;
    assert ([a] + rest)[1..] == rest;
  }

  function Proc(parent: int, waitingFor: int, status: Status): Pcb { Pcb(parent, waitingFor, 0, status, true, 0) }

  const IDLE_PCB: Pcb := Pcb(-1, -1, IDLE_PRIORITY, READY, false, 0)

  /** The shell has been created and dispatched, and has created process 2. */
  function TwoProcesses(): Kernel {
    Kernel([1, 2], [], [], [], map[0 := IDLE_PCB, 1 := Proc(0, -1, RUNNING), 2 := Proc(1, -1, READY)], {0, 1, 2},
           1, 1, 1, 3, 18, map[], map[], map[], 1, Unused(map[], {}))
  }

  function StartUp(): seq<Action> { [Spawn(0), DoTick, Spawn(0)] }

  lemma Rotations()
    ensures forall p: nat :: Rotated([p]) == [p]
    ensures forall p: nat, q: nat :: Rotated([p, q]) == [q, p]
    ensures forall p: nat :: Without([p], p) == []
    ensures forall p: nat, q: nat :: p != q ==> Without([p, q], p) == [q] && Without([p, q], q) == [p]
  {
    forall p: nat, q: nat | p != q ensures Without([p, q], q) == [p] {
      assert [p, q][1..] == [q];
    }
  }

  /** The shell created, not yet dispatched. */
  function ShellCreated(): Kernel {
    Kernel([1], [], [], [], map[0 := IDLE_PCB, 1 := Proc(0, -1, READY)], {0, 1},
           1, -1, -1, 2, 0, map[], map[], map[], 0, Unused(map[], {}))
  }

  function ShellRuns(): Kernel {
    Kernel([1], [], [], [], map[0 := IDLE_PCB, 1 := Proc(0, -1, RUNNING)], {0, 1},
           1, 1, 1, 2, 18, map[], map[], map[], 1, Unused(map[], {}))
  }

  lemma StartUpSteps()
    ensures Step(Boot(), Spawn(0)) == ShellCreated()
    ensures Step(ShellCreated(), DoTick) == ShellRuns()
    ensures Step(ShellRuns(), Spawn(0)) == TwoProcesses()
  {
    FirstTick();
  }

  lemma FirstTick()
    ensures Step(ShellCreated(), DoTick) == ShellRuns()
  {
    hide Rotated;
    Rotations();
    assert Dispatch(ShellCreated()).pcbs == ShellRuns().pcbs;
  }

  lemma StartUpRun(rest: seq<Action>)
    ensures Run(Boot(), StartUp() + rest) == Run(TwoProcesses(), rest)
    ensures AllowedRun(Boot(), StartUp() + rest) <==> AllowedRun(TwoProcesses(), rest)
  {
    hide Run, AllowedRun, Step;
    StartUpSteps();
    assert StartUp() + rest == [Spawn(0)] + ([DoTick] + ([Spawn(0)] + rest));
    RunOne(Boot(), Spawn(0), [DoTick] + ([Spawn(0)] + rest));
    RunOne(ShellCreated(), DoTick, [Spawn(0)] + rest);
    RunOne(ShellRuns(), Spawn(0), rest);
  }

  // ---- woken by a kill without waiting for it ---------------------------

  /** Process 1 waits for 2, is unblocked by hand, and is blocked by hand. */
  function StaleRecord(): Kernel {
    TwoProcesses().(ready := [2], blocked := [1], current := 2, foreground := 2, currentPid := 2, switches := 2,
                    pcbs := map[0 := IDLE_PCB, 1 := Proc(0, 2, BLOCKED), 2 := Proc(1, -1, RUNNING)])
  }

  function StaleScript(): seq<Action> { StartUp() + [DoWaitpid(2), DoUnblock(1), DoBlock(1)] }

  lemma WaitpidStep()
    ensures Step(TwoProcesses(), DoWaitpid(2)) == StaleRecord().(waiting := map[1 := 2])
  {
    hide Rotated, Without;
    Rotations();
    var k := TwoProcesses();
    var w := SetWaitingFor(k, 1, 2, BLOCKED).(waiting := map[1 := 2]);
    assert k.waiting[1 := 2] == map[1 := 2];
    assert MayWait(k, 2);
    var b := w.(ready := [2], blocked := [1]);
    assert Block(w, 1) == Yield(b);
    assert Yield(b).pcbs == StaleRecord().pcbs;
  }

  /** Process 1 is ready again, its record of process 2 unchanged. */
  function Unblocked(): Kernel {
    StaleRecord().(ready := [2, 1], blocked := [],
                   pcbs := map[0 := IDLE_PCB, 1 := Proc(0, 2, READY), 2 := Proc(1, -1, RUNNING)])
  }

  lemma UnblockStep()
    ensures Step(StaleRecord().(waiting := map[1 := 2]), DoUnblock(1)) == Unblocked()
  {
    hide Without;
    Rotations();
  }

  lemma BlockStep()
    ensures Step(Unblocked(), DoBlock(1)) == StaleRecord()
  {
    hide Without, Yield;
    assert Without<nat>([2, 1], 1) == [2] by { Rotations(); }
    var none: seq<nat> := [];
    assert none + [1] == [1];
    assert Step(Unblocked(), DoBlock(1)).pcbs == StaleRecord().pcbs;
  }

  /** After this run process 1 is suspended in no waitpid, and the kill of process 2 wakes it all the same. */
  lemma StaleWakeUp()
    ensures AllowedRun(Boot(), StaleScript())
    ensures var k := Run(Boot(), StaleScript());
            && 1 in k.blocked && 1 !in k.waiting && Queued(k, 2) && 1 in Kill(k, 2).ready
  {
    hide Run, AllowedRun, Step, Kill;
    WaitpidStep();
    UnblockStep();
    BlockStep();
    var rest := [DoWaitpid(2), DoUnblock(1), DoBlock(1)];
    StartUpRun(rest);
    assert rest == [DoWaitpid(2)] + ([DoUnblock(1)] + ([DoBlock(1)] + []));
    RunOne(TwoProcesses(), DoWaitpid(2), [DoUnblock(1)] + ([DoBlock(1)] + []));
    var k1 := Step(TwoProcesses(), DoWaitpid(2));
    RunOne(k1, DoUnblock(1), [DoBlock(1)] + []);
    RunOne(Step(k1, DoUnblock(1)), DoBlock(1), []);
    RunNothing(StaleRecord());
    StaleKill();
  }

  lemma RunNothing(k: Kernel)
    ensures Run(k, []) == k && AllowedRun(k, [])
  {
  }

  lemma StaleKill()
    ensures 1 in Kill(StaleRecord(), 2).ready
  {
    hide Rotated, Without;
    Rotations();
    var k := StaleRecord();
    var e := Erase(k, 2);
    assert e.ready == [] && e.blocked == [1] by { NotThere(); }
    assert WaitsFor(e, 1, 2);
    var u := Unblock(e, 1);
    assert u.ready == [1];
    assert Kill(k, 2) == Yield(u);
  }

  lemma NotThere()
    ensures Without<nat>([1], 2) == [1] && Without<nat>([], 2) == []
  {
    assert [1][1..] == [];
  }

  // ---- a post that nobody gets ------------------------------------------

  /** Process 2 has the processor. */
  function SecondRuns(): Kernel {
    TwoProcesses().(current := 2, foreground := 2, currentPid := 2, switches := 3,
                    pcbs := map[0 := IDLE_PCB, 1 := Proc(0, -1, READY), 2 := Proc(1, -1, RUNNING)])
  }

  lemma YieldSteps()
    ensures Step(Step(TwoProcesses(), DoYield), DoYield) == SecondRuns()
  {
    hide Rotated;
    Rotations();
    var k := TwoProcesses();
    var k1 := k.(ready := [2, 1], switches := 2);
    assert Yield(k).pcbs == k1.pcbs;
    assert Step(k, DoYield) == k1;
    assert Yield(k1).pcbs == SecondRuns().pcbs;
  }

  /** Process 2 is queued on semaphore 0. */
  function SecondWaits(): Kernel {
    TwoProcesses().(ready := [1], bySem := [2], switches := 4,
                    pcbs := map[0 := IDLE_PCB, 1 := Proc(0, -1, RUNNING), 2 := Proc(1, -1, BLOCKED)],
                    sems := map[0 := Sem(0, [2])], logs := map[0 := SemLog(0, 0, 0, 0, [2], [])])
  }

  const ENOUGH: WaitLuck := WaitLuck(true, true)

  /** Semaphore 0 is open with no units. */
  function SemOpen(): Kernel {
    SecondRuns().(sems := map[0 := Sem(0, [])], logs := map[0 := SemLog(0, 0, 0, 0, [], [])])
  }

  lemma OpenStep()
    ensures Step(SecondRuns(), DoSemInit(0, 0)) == SemOpen()
  {
  }

  lemma EnlistStep()
    ensures Enlisted(SemOpen(), 0) == SemOpen().(sems := SecondWaits().sems, logs := SecondWaits().logs)
  {
    var none: seq<nat> := [];
    assert none + [2] == [2];
  }

  lemma SuspendStep()
    ensures var w := SemOpen().(sems := SecondWaits().sems, logs := SecondWaits().logs);
            Yield(SetStatus(w.(ready := [1], bySem := [2]), 2, BLOCKED)) == SecondWaits()
  {
    hide Rotated;
    Rotations();
    var w := SemOpen().(sems := SecondWaits().sems, logs := SecondWaits().logs);
    var b := SetStatus(w.(ready := [1], bySem := [2]), 2, BLOCKED);
    assert Yield(b).pcbs == SecondWaits().pcbs;
  }

  lemma WaitSteps()
    ensures Step(Step(SecondRuns(), DoSemInit(0, 0)), DoSemWait(0, ENOUGH)) == SecondWaits()
  {
    hide Rotated, Without, Yield, Enlisted, SetStatus;
    Rotations();
    OpenStep();
    EnlistStep();
    SuspendStep();
    var none: seq<nat> := [];
    assert none + [2] == [2];
  }

  function LostPostScript(): seq<Action> {
    StartUp() + [DoYield, DoYield, DoSemInit(0, 0), DoSemWait(0, ENOUGH)]
  }

  /** In this run the first waiter is killed and the post that follows wakes nobody and is not kept. */
  lemma LostPost()
    ensures AllowedRun(Boot(), LostPostScript())
    ensures var k1 := Kill(Run(Boot(), LostPostScript()), 2);
            var k2 := SemPost(k1, 0);
            0 in k2.sems && k1.sems[0] == Sem(0, [2]) && k2.sems[0] == Sem(0, []) && k2.ready == k1.ready
  {
    hide Run, AllowedRun, Step, Kill, SemPost;
    YieldSteps();
    WaitSteps();
    var rest := [DoYield, DoYield, DoSemInit(0, 0), DoSemWait(0, ENOUGH)];
    StartUpRun(rest);
    var k0 := TwoProcesses();
    assert rest == [DoYield] + ([DoYield] + ([DoSemInit(0, 0)] + ([DoSemWait(0, ENOUGH)] + [])));
    RunOne(k0, DoYield, [DoYield] + ([DoSemInit(0, 0)] + ([DoSemWait(0, ENOUGH)] + [])));
    RunOne(Step(k0, DoYield), DoYield, [DoSemInit(0, 0)] + ([DoSemWait(0, ENOUGH)] + []));
    RunOne(SecondRuns(), DoSemInit(0, 0), [DoSemWait(0, ENOUGH)] + []);
    RunOne(Step(SecondRuns(), DoSemInit(0, 0)), DoSemWait(0, ENOUGH), []);
    RunNothing(SecondWaits());
    KillAndPost();
  }

  lemma KillAndPost()
    ensures var k1 := Kill(SecondWaits(), 2);
            var k2 := SemPost(k1, 0);
            0 in k2.sems && 0 in k1.sems && k1.sems[0] == Sem(0, [2]) && k2.sems[0] == Sem(0, [])
                && k2.ready == k1.ready
  {
    hide Without;
    Rotations();
    NotThere();
    var k := SecondWaits();
    assert Queued(k, 2);
    assert !WaitsFor(Erase(k, 2), 1, 2);
    assert Kill(k, 2) == Erase(k, 2);
  }

  // ---- a process stranded in wait ---------------------------------------

  function StrandedScript(): seq<Action> {
    StartUp() + [DoSemInit(0, 0), DoSemWait(0, WaitLuck(true, false))]
  }

  /** No memory for the queue node: process 1 is blocked and no semaphore knows it. */
  lemma StrandedRun()
    ensures AllowedRun(Boot(), StrandedScript())
    ensures Stranded(Run(Boot(), StrandedScript()), 1)
  {
    hide Run, AllowedRun, Step, Stranded;
    var rest := [DoSemInit(0, 0), DoSemWait(0, WaitLuck(true, false))];
    StartUpRun(rest);
    var k0 := TwoProcesses();
    assert rest == [DoSemInit(0, 0)] + ([DoSemWait(0, WaitLuck(true, false))] + []);
    RunOne(k0, DoSemInit(0, 0), [DoSemWait(0, WaitLuck(true, false))] + []);
    var k1 := Step(k0, DoSemInit(0, 0));
    RunOne(k1, DoSemWait(0, WaitLuck(true, false)), []);
    RunNothing(Step(k1, DoSemWait(0, WaitLuck(true, false))));
    StrandedStep();
  }

  lemma StrandedStep()
    ensures Stranded(Step(Step(TwoProcesses(), DoSemInit(0, 0)), DoSemWait(0, WaitLuck(true, false))), 1)
  {
    hide Rotated, Without, Yield;
    Rotations();
    var k := Step(TwoProcesses(), DoSemInit(0, 0));
    YieldFrame(SetStatus(k.(ready := Without(k.ready, 1), bySem := k.bySem + [1]), 1, BLOCKED));
  }

  // ---- the shell stranded on a slot that was never opened ---------------

  function NeverOpenedScript(): seq<Action> { [Spawn(0), DoTick, DoSemWait(7, ENOUGH)] }

  /** Every allocation succeeds, and from then on nothing whatever releases the shell. */
  lemma ShellStranded(later: seq<Action>)
    ensures AllowedRun(Boot(), NeverOpenedScript())
    ensures var k := Run(Boot(), NeverOpenedScript());
            Stranded(k, 1) && (AllowedRun(k, later) ==> Stranded(Run(k, later), 1))
  {
    hide Run, AllowedRun, Step, Stranded;
    StartUpSteps();
    var wait := DoSemWait(7, ENOUGH);
    assert NeverOpenedScript() == [Spawn(0)] + ([DoTick] + ([wait] + []));
    RunOne(Boot(), Spawn(0), [DoTick] + ([wait] + []));
    RunOne(ShellCreated(), DoTick, [wait] + []);
    RunOne(ShellRuns(), wait, []);
    RunNothing(Step(ShellRuns(), wait));
    NeverOpenedStep();
    var k := Run(Boot(), NeverOpenedScript());
    if AllowedRun(k, later) {
      BootInv();
      RunKeeps(Boot(), NeverOpenedScript());
      StrandedForever(k, later, 1);
    }
  }

  lemma NeverOpenedStep()
    ensures Stranded(Step(ShellRuns(), DoSemWait(7, ENOUGH)), 1)
  {
    hide SemWait;
    WaitOutcome(ShellRuns(), 7, ENOUGH);
  }

  // ---- created with idle's priority -------------------------------------

  /** All allocations succeed, createProcess returns pid 3, and the process is in no queue. */
  lemma PrioritySixIsLost()
    ensures AllowedRun(Boot(), StartUp() + [Spawn(6)])
    ensures Created(TwoProcesses(), LUCKY) && Run(Boot(), StartUp()) == TwoProcesses()
    ensures Orphan(Run(Boot(), StartUp() + [Spawn(6)]), 3)
  {
    hide Run, AllowedRun, Step;
    StartUpRun([Spawn(6)]);
    StartUpRun([]);
    assert StartUp() + [] == StartUp();
    RunNothing(TwoProcesses());
    RunOne(TwoProcesses(), Spawn(6), []);
    assert [Spawn(6)] + [] == [Spawn(6)];
    RunNothing(Step(TwoProcesses(), Spawn(6)));
    SixStep();
  }

  lemma SixStep()
    ensures Orphan(Step(TwoProcesses(), Spawn(6)), 3)
  {
  }

  // ---- a killable child of idle -----------------------------------------

  /** The creation of the shell fails for lack of a stack, and a second attempt succeeds. */
  function RetryScript(): seq<Action> { [DoCreate(0, true, false, Luck(true, false, true, true)), Spawn(0)] }

  lemma IdleChildExists()
    ensures AllowedRun(Boot(), RetryScript())
    ensures var k := Run(Boot(), RetryScript()); IdleChild(k, 2) && Queued(k, 2)
  {
    hide Run, AllowedRun, Step;
    var failed := DoCreate(0, true, false, Luck(true, false, true, true));
    var k1 := Boot().(nextPid := 2);
    RetrySteps();
    assert RetryScript() == [failed] + ([Spawn(0)] + []);
    RunOne(Boot(), failed, [Spawn(0)] + []);
    RunOne(k1, Spawn(0), []);
    RunNothing(Step(k1, Spawn(0)));
  }

  lemma RetrySteps()
    ensures Step(Boot(), DoCreate(0, true, false, Luck(true, false, true, true))) == Boot().(nextPid := 2)
    ensures var k := Step(Boot().(nextPid := 2), Spawn(0)); IdleChild(k, 2) && Queued(k, 2)
  {
  }
}
