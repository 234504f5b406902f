/**
 Processes, scheduler and semaphores as one state machine.  A system call runs
 with interrupts off, so each operation up to the point where it yields is one
 step; `schedule` is a step of its own when the timer ticks.
 */
module Processes {
  import opened Sequences
  import opened Semaphores

  const IDLE: nat := 0
  const QUANTUM: nat := 3
  const MAX_PRIORITY: int := 5
  const MIN_PRIORITY: int := 0
  const IDLE_PRIORITY: int := 6

  datatype Status = READY | RUNNING | BLOCKED | ZOMBIE

  /** The fields of a PCB the kernel core uses; -1 stands for "no process". */
  datatype Pcb = Pcb(parent: int, waitingFor: int, priority: int, status: Status, foreground: bool, ret: int)

  /** What happened on one semaphore so far. */
  datatype SemLog = SemLog(init: nat, posts: nat, grants: nat, wraps: nat, arrivals: seq<nat>, handed: seq<nat>)

  /** The slots not in use: values other than 0, and those that were in use once and keep a pointer to a freed queue. */
  datatype Unused = Unused(values: map<nat, nat>, closed: set<nat>)

  /**
   The kernel state.  `pcbs` and `stacks` are the process control blocks and
   stacks currently allocated; `current` and `foreground` are the processes the
   two pointers refer to.  `sems` are the semaphore slots in use.  `logs`, `waiting` (who is suspended inside waitpid,
   and on whom) and `switches` (context switches so far) record history.
   */
  datatype Kernel = Kernel(
    ready: seq<nat>, blocked: seq<nat>, bySem: seq<nat>, zombie: seq<nat>,
    pcbs: map<nat, Pcb>, stacks: set<nat>,
    current: nat, foreground: int,
    currentPid: int, nextPid: nat, quantum: nat,
    sems: map<nat, Sem>, logs: map<nat, SemLog>,
    waiting: map<nat, nat>, switches: nat,
    unused: Unused)

  /** After startScheduler: the idle process exists and is current, nothing is queued. */
  function Boot(): Kernel {
    Kernel([], [], [], [], map[IDLE := Pcb(-1, -1, IDLE_PRIORITY, READY, false, 0)], {IDLE},
           IDLE, -1, -1, 1, 0, map[], map[], map[], 0, Unused(map[], {}))
  }

  function CalculateQuantum(priority: int): int {
    if priority == IDLE_PRIORITY then QUANTUM else QUANTUM * (MAX_PRIORITY - priority + 1)
  }

  predicate Queued(k: Kernel, pid: int) {
    pid in k.ready || pid in k.blocked || pid in k.bySem
  }

  /** getProcess finds a PCB. */
  predicate Found(k: Kernel, pid: int) {
    Queued(k, pid) || pid in k.zombie || pid == k.current || pid == IDLE
  }

  function SetStatus(k: Kernel, pid: nat, st: Status): Kernel {
    if pid in k.pcbs then k.(pcbs := k.pcbs[pid := k.pcbs[pid].(status := st)]) else k
  }

  // ---- schedule ---------------------------------------------------------

  /** The process the ready queue offers next; idle when it is empty. */
  function NextProcess(k: Kernel): nat {
    if k.ready == [] then IDLE else k.ready[0]
  }

  function Rotated(s: seq<nat>): seq<nat> {
    if s == [] then [] else s[1..] + [s[0]]
  }

  /** The previous process, if it was still running, goes back to READY. */
  function Demote(k: Kernel): Kernel {
    if k.current in k.pcbs && k.pcbs[k.current].status == RUNNING then SetStatus(k, k.current, READY) else k
  }

  /** getNextProcess rotates the ready queue and its front process, or idle, runs with a fresh quantum. */
  function Promote(k: Kernel): Kernel {
    var next := NextProcess(k);
    if next !in k.pcbs then k else
    var pcb := k.pcbs[next];
    var q := CalculateQuantum(pcb.priority);
    k.(ready := Rotated(k.ready), current := next,
       foreground := if k.ready != [] && pcb.foreground then next else k.foreground,
       pcbs := k.pcbs[next := pcb.(status := RUNNING)],
       currentPid := next, switches := k.switches + 1, quantum := if q >= 0 then q else 0)
  }

  /** A context switch. */
  function Dispatch(k: Kernel): Kernel { Promote(Demote(k)) }

  /** schedule, as the timer interrupt calls it. */
  function Tick(k: Kernel): Kernel {
    if k.quantum > 0 && k.current in k.pcbs && k.pcbs[k.current].status == RUNNING
    then k.(quantum := k.quantum - 1)
    else Dispatch(k)
  }

  function Yield(k: Kernel): Kernel { Tick(k.(quantum := 0)) }

  // ---- blocking ---------------------------------------------------------

  function Block(k: Kernel, pid: int): Kernel {
    if pid in k.bySem || pid !in k.ready then k
    else
      var p: nat := pid;
      var k1 := SetStatus(k.(ready := Without(k.ready, p), blocked := k.blocked + [p]), p, BLOCKED);
      if p == k.current then Yield(k1) else k1
  }

  function Unblock(k: Kernel, pid: int): Kernel {
    if pid !in k.blocked then k
    else
      var p: nat := pid;
      SetStatus(k.(blocked := Without(k.blocked, p), ready := k.ready + [p], waiting := k.waiting - {p}), p, READY)
  }

  // ---- kill and waitpid -------------------------------------------------

  /** The process disappears: from its queue, from `pcbs` and `stacks`, and from both pointers. */
  function Erase(k: Kernel, pid: nat): Kernel {
    k.(ready := Without(k.ready, pid), blocked := Without(k.blocked, pid), bySem := Without(k.bySem, pid),
       pcbs := k.pcbs - {pid}, stacks := k.stacks - {pid}, waiting := k.waiting - {pid},
       current := if k.current == pid then IDLE else k.current,
       foreground := if k.foreground == pid then -1 else k.foreground)
  }

  /** The parent is blocked outside any semaphore and its last waitpid names the child. */
  predicate WaitsFor(k: Kernel, parent: int, pid: int) {
    parent in k.blocked && parent in k.pcbs && k.pcbs[parent].waitingFor == pid
  }

  /** kill: erase, wake the waiting parent, switch if the running process killed itself. */
  function Kill(k: Kernel, pid: int): Kernel {
    if pid <= 1 || !Queued(k, pid) || pid !in k.pcbs then k
    else
      var parent := k.pcbs[pid].parent;
      var k1 := Erase(k, pid);
      var k2 := if WaitsFor(k1, parent, pid) then Unblock(k1, parent) else k1;
      if pid == k.currentPid then Yield(k2) else k2
  }

  /** waitpid accepts the target: it exists and is, or was once accepted as, a child of the caller. */
  predicate MayWait(k: Kernel, pid: int) {
    && Found(k, pid) && pid in k.pcbs && k.current in k.pcbs
    && (k.pcbs[pid].parent == k.current || k.pcbs[k.current].waitingFor == pid)
  }

  function SetWaitingFor(k: Kernel, pid: nat, target: int, st: Status): Kernel {
    if pid in k.pcbs then k.(pcbs := k.pcbs[pid := k.pcbs[pid].(waitingFor := target, status := st)]) else k
  }

  /** waitpid by the current process, up to the point where it is suspended or returns. */
  function Waitpid(k: Kernel, pid: int): Kernel {
    if !MayWait(k, pid) then k
    else if k.pcbs[pid].status == ZOMBIE then
      // reaped at once
      var k1 := k.(pcbs := k.pcbs[k.current := k.pcbs[k.current].(waitingFor := -1)]);
      var p: nat := pid;
      k1.(zombie := Without(k.zombie, p), pcbs := k1.pcbs - {p})
    else if k.current in k.bySem || k.current !in k.ready then
      // blockProcess fails: the caller is put back to READY
      SetWaitingFor(k, k.current, -1, READY)
    else
      var p: nat := pid;
      Block(SetWaitingFor(k, k.current, p, BLOCKED).(waiting := k.waiting[k.current := p]), k.current)
  }

  /** What waitpid returns when it is called, or for a suspended caller when it is resumed in state `k`. */
  function WaitpidResult(k: Kernel, pid: int): int {
    if Found(k, pid) && pid in k.pcbs && k.pcbs[pid].status == ZOMBIE then pid else -1
  }

  // ---- creation, priorities ---------------------------------------------

  /**
   How the calls inside createProcess turn out: allocation of the PCB, the stack
   and the queue node, and the shell's pipe.
   */
  datatype Luck = Luck(pcb: bool, stack: bool, node: bool, pipe: bool)

  function ClampCreate(priority: int): int {
    if priority > IDLE_PRIORITY then MAX_PRIORITY else priority
  }

  /** createProcess with valid arguments; `tty` says that stdin is the terminal. */
  function Create(k: Kernel, priority: nat, foreground: bool, tty: bool, luck: Luck): Kernel {
    if !luck.pcb then k
    else
      var pid := k.nextPid;
      var k1 := k.(nextPid := k.nextPid + 1);
      if !luck.stack || (pid == 1 && !luck.pipe) then k1
      else
        var prio := ClampCreate(priority);
        var background := pid > 1 && !foreground && tty;
        var pcb := Pcb(k.current, -1, prio, if background then BLOCKED else READY, foreground, 0);
        var k2 := k1.(pcbs := k.pcbs[pid := pcb], stacks := k.stacks + {pid});
        if background then (if luck.node then k2.(blocked := k.blocked + [pid]) else k2)
        else if prio == IDLE_PRIORITY then k2
        else
          var k3 := if k.current == IDLE then k2.(current := pid) else k2;
          if luck.node then k3.(ready := k.ready + [pid]) else k3
  }

  function ChangePrio(k: Kernel, pid: int, newPrio: int): Kernel {
    if pid <= 1 || !Found(k, pid) || pid !in k.pcbs then k
    else
      var p := if newPrio < MIN_PRIORITY then MIN_PRIORITY else if newPrio > MAX_PRIORITY then MAX_PRIORITY
          else newPrio;
      k.(pcbs := k.pcbs[pid := k.pcbs[pid].(priority := p)])
  }

  // ---- semaphores -------------------------------------------------------

  /** The slot is in use and has its wait queue. */
  predicate Open(k: Kernel, id: nat) {
    id in k.sems && id in k.logs
  }

  /** The value of a slot, in use or not. */
  function Units(k: Kernel, id: nat): nat {
    if Open(k, id) then k.sems[id].value else if id in k.unused.values then k.unused.values[id] else 0
  }

  function SemInit(k: Kernel, id: nat, value: nat): Kernel {
    if id >= NUM_SEMS || id in k.sems then k
    else
      k.(sems := k.sems[id := Sem(value % WORD, [])], logs := k.logs[id := SemLog(value % WORD, 0, 0, 0, [], [])],
         unused := Unused(k.unused.values - {id}, k.unused.closed - {id}))
  }

  /** The value goes to 0 and the queue is freed, but the slot keeps the pointer to it. */
  function SemClose(k: Kernel, id: nat): Kernel {
    if id !in k.sems then k
    else
      k.(sems := k.sems - {id}, logs := k.logs - {id},
         unused := Unused(k.unused.values - {id}, k.unused.closed + {id}))
  }

  /** How the two allocations inside wait turn out: the copy of the pid and the queue node. */
  datatype WaitLuck = WaitLuck(pid: bool, node: bool)

  function SetUnused(k: Kernel, id: nat, value: nat): Kernel {
    k.(unused := k.unused.(values := k.unused.values[id := value]))
  }

  /** The current process takes a unit. */
  function Taken(k: Kernel, id: nat): Kernel {
    if Open(k, id) then
      k.(sems := k.sems[id := Wait(k.sems[id], k.current)],
         logs := k.logs[id := k.logs[id].(grants := k.logs[id].grants + 1)])
    else if Units(k, id) > 0 then SetUnused(k, id, Units(k, id) - 1)
    else k
  }

  /** The current process queues on a semaphore; a slot that is not open has no queue. */
  function Enlisted(k: Kernel, id: nat): Kernel {
    if !Open(k, id) then k
    else
      var g := k.logs[id];
      k.(sems := k.sems[id := Wait(k.sems[id], k.current)],
         logs := k.logs[id := g.(arrivals := g.arrivals + [k.current])])
  }

  /**
   wait by the current process: take a unit, or queue and yield.  The result of
   queueing is ignored, so on a slot without a queue the caller is blocked all the
   same; a caller that is not ready, idle, is not blocked.
   */
  function SemWait(k: Kernel, id: nat, luck: WaitLuck): Kernel {
    if id >= NUM_SEMS then k
    else if Units(k, id) > 0 then Taken(k, id)
    else if !luck.pid then k
    else
      var k1, cur := if luck.node then Enlisted(k, id) else k, k.current;
      if cur in k.ready
      then Yield(SetStatus(k1.(ready := Without(k.ready, cur), bySem := k.bySem + [cur]), cur, BLOCKED))
      else k1
  }

  /** post: hand the unit to the first waiter, or raise the value; a slot without a queue has no waiters. */
  function SemPost(k: Kernel, id: nat): Kernel {
    if id >= NUM_SEMS then k
    else if !Open(k, id) then SetUnused(k, id, (Units(k, id) + 1) % WORD)
    else
      var s, g := k.sems[id], k.logs[id].(posts := k.logs[id].posts + 1);
      var k1 := k.(sems := k.sems[id := Post(s)]);
      if s.waiters != [] then
        var pid := s.waiters[0];
        var k2 := k1.(logs := k.logs[id := g.(grants := g.grants + 1, handed := g.handed + [pid])]);
        if pid in k.bySem
        then SetStatus(k2.(bySem := Without(k.bySem, pid), ready := k.ready + [pid]), pid, READY)
        else k2
      else k1.(logs := k.logs[id := g.(wraps := g.wraps + (s.value + 1) / WORD)])
  }

  // ---- runs -------------------------------------------------------------

  datatype Action =
    | DoTick
    | DoYield
    | DoBlock(pid: int)
    | DoUnblock(pid: int)
    | DoKill(pid: int)
    | DoWaitpid(pid: int)
    | DoCreate(priority: nat, foreground: bool, tty: bool, luck: Luck)
    | DoChangePrio(pid: int, newPrio: int)
    | DoSemInit(id: nat, value: nat)
    | DoSemClose(id: nat)
    | DoSemWait(id: nat, wait: WaitLuck)
    | DoSemPost(id: nat)

  function Step(k: Kernel, a: Action): Kernel {
    match a
    case DoTick => Tick(k)
    case DoYield => Yield(k)
    case DoBlock(pid) => Block(k, pid)
    case DoUnblock(pid) => Unblock(k, pid)
    case DoKill(pid) => Kill(k, pid)
    case DoWaitpid(pid) => Waitpid(k, pid)
    case DoCreate(priority, foreground, tty, luck) => Create(k, priority, foreground, tty, luck)
    case DoChangePrio(pid, newPrio) => ChangePrio(k, pid, newPrio)
    case DoSemInit(id, value) => SemInit(k, id, value)
    case DoSemClose(id) => SemClose(k, id)
    case DoSemWait(id, wait) => SemWait(k, id, wait)
    case DoSemPost(id) => SemPost(k, id)
  }

  /**
   Processes created while idle is current are created by main before the
   scheduler ever ran, and on a fresh heap their queue nodes are available.
   */
  predicate Allowed(k: Kernel, a: Action) {
    a.DoCreate? && k.current == IDLE ==> a.luck.node && IDLE in k.pcbs && k.pcbs[IDLE].status == READY
  }

  function Run(k: Kernel, actions: seq<Action>): Kernel
    decreases |actions|
  {
    if actions == [] then k else Run(Step(k, actions[0]), actions[1..])
  }

  /** Every action of the run is allowed where it happens. */
  predicate AllowedRun(k: Kernel, actions: seq<Action>)
    decreases |actions|
  {
    actions == [] || (Allowed(k, actions[0]) && AllowedRun(Step(k, actions[0]), actions[1..]))
  }
}
