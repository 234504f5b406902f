/**
 A pipe on the kernel: its three semaphores are kernel semaphores, its processes
 kernel processes, and a process takes a step of its pipe operation only while it
 has the processor.  The pipe protocol and the process state machine then run in
 step, and whoever is queued inside a pipe operation is blocked in the kernel.
 */
module PipeOnKernel {
  import opened Sequences
  import opened Semaphores
  import opened RingBuffer
  import K = Processes
  import KS = ProcessSafety
  import KL = SemaphoreLaws
  import opened PipeProtocol
  import PS = PipeSafety

  /** The ids of the pipe's semaphores. */
  datatype Ids = Ids(readers: nat, writers: nat, mutex: nat)

  predicate Proper(ids: Ids) {
    && ids.readers < NUM_SEMS && ids.writers < NUM_SEMS && ids.mutex < NUM_SEMS
    && ids.readers != ids.writers && ids.readers != ids.mutex && ids.writers != ids.mutex
  }

  predicate OwnId(ids: Ids, id: nat) { id == ids.readers || id == ids.writers || id == ids.mutex }

  /** The kernel's semaphores are the pipe's; process `p` of the pipe is the process with pid `p`. */
  predicate Linked(k: K.Kernel, s: Pipe, ids: Ids) {
    && K.Open(k, ids.readers) && K.Open(k, ids.writers) && K.Open(k, ids.mutex)
    && k.sems[ids.readers] == s.readers && k.sems[ids.writers] == s.writers && k.sems[ids.mutex] == s.mutex
  }

  const ENOUGH: K.WaitLuck := K.WaitLuck(true, true)

  /** The system call behind a step of a pipe operation; the critical section makes none. */
  datatype Call = Call(action: K.Action) | Section

  function CallOf(s: Pipe, p: nat, ids: Ids): Call
    requires p < |s.tasks| && CanStep(s.tasks[p])
  {
    var t := s.tasks[p];
    match t.phase
    case Token => Call(K.DoSemWait(if t.op.Read? then ids.readers else ids.writers, ENOUGH))
    case Lock => Call(K.DoSemWait(ids.mutex, ENOUGH))
    case Body => Section
    case Unlock => Call(K.DoSemPost(ids.mutex))
    case Signal => Call(K.DoSemPost(if t.op.Read? then ids.writers else ids.readers))
  }

  function KernelStep(k: K.Kernel, c: Call): K.Kernel {
    if c.Section? then k else K.Step(k, c.action)
  }

  /** What kernel wait and post do to one open semaphore. */
  lemma WaitOn(k: K.Kernel, id: nat)
    requires id < NUM_SEMS && K.Open(k, id)
    ensures K.SemWait(k, id, ENOUGH).sems == k.sems[id := Wait(k.sems[id], k.current)]
    ensures K.SemWait(k, id, ENOUGH).logs.Keys == k.logs.Keys
  {
    hide K.SemWait, Wait;
    KL.WaitOutcome(k, id, ENOUGH);
  }

  lemma PostOn(k: K.Kernel, id: nat)
    requires id < NUM_SEMS && K.Open(k, id)
    ensures K.SemPost(k, id).sems == k.sems[id := Post(k.sems[id])]
    ensures K.SemPost(k, id).logs.Keys == k.logs.Keys
  {
    hide Without, Post;
  }

  /** A step of a pipe operation by the running process, and its system call, keep pipe and kernel together. */
  lemma PipeStepLinked(k: K.Kernel, s: Pipe, ids: Ids, p: nat)
    requires Proper(ids) && Linked(k, s, ids) && p == k.current && p < |s.tasks| && CanStep(s.tasks[p])
    ensures Linked(KernelStep(k, CallOf(s, p, ids)), StepOf(s, p), ids)
  {
    hide K.SemWait, K.SemPost, Wait, Post, Wake, RunBody;
    var t := s.tasks[p];
    match t.phase
    case Token => WaitOn(k, if t.op.Read? then ids.readers else ids.writers);
    case Lock => WaitOn(k, ids.mutex);
    case Body => BodyKeepsSems(s, p);
    case Unlock => PostOn(k, ids.mutex);
    case Signal => PostOn(k, if t.op.Read? then ids.writers else ids.readers);
  }

  lemma BodyKeepsSems(s: Pipe, p: nat)
    requires p < |s.tasks| && s.tasks[p].Busy?
    ensures var s' := RunBody(s, p); s'.readers == s.readers && s'.writers == s.writers && s'.mutex == s.mutex
  {
    hide Store, Consume, Reset;
  }

  // ---- joint runs -------------------------------------------------------

  /** One move of the whole system: a call begins, a pipe operation goes on, or the kernel does something else. */
  datatype Move = Enter(p: nat, op: Op) | GoOn | Other(action: K.Action)

  datatype System = System(kernel: K.Kernel, pipe: Pipe)

  /** Calls on the pipe's semaphores are made by the pipe's operations only. */
  predicate LeavesPipe(a: K.Action, ids: Ids) {
    a.DoSemInit? || a.DoSemClose? || a.DoSemWait? || a.DoSemPost? ==> !OwnId(ids, a.id)
  }

  /** The running process, if it is one of the pipe's, is inside an operation and can go on. */
  predicate Running(y: System) {
    y.kernel.current < |y.pipe.tasks| && CanStep(y.pipe.tasks[y.kernel.current]) && y.kernel.current in y.kernel.ready
  }

  predicate Possible(y: System, m: Move, ids: Ids) {
    match m
    case Enter(p, op) => true
    case GoOn => Running(y)
    case Other(a) => LeavesPipe(a, ids) && K.Allowed(y.kernel, a) && KL.SemSafe(y.kernel, a)
  }

  function Next(y: System, m: Move, ids: Ids): System {
    match m
    case Enter(p, op) => y.(pipe := Step(y.pipe, Start(p, op)))
    case GoOn =>
      if !Running(y) then y
      else System(KernelStep(y.kernel, CallOf(y.pipe, y.kernel.current, ids)), StepOf(y.pipe, y.kernel.current))
    case Other(a) => y.(kernel := K.Step(y.kernel, a))
  }

  function Together(y: System, moves: seq<Move>, ids: Ids): System
    decreases |moves|
  {
    if moves == [] then y else Together(Next(y, moves[0], ids), moves[1..], ids)
  }

  predicate PossibleRun(y: System, moves: seq<Move>, ids: Ids)
    decreases |moves|
  {
    moves == [] || (Possible(y, moves[0], ids) && PossibleRun(Next(y, moves[0], ids), moves[1..], ids))
  }

  ghost predicate SystemInv(y: System, ids: Ids) {
    KS.KInv(y.kernel) && KL.SemInv(y.kernel) && PS.PipeInv(y.pipe) && Linked(y.kernel, y.pipe, ids)
  }

  lemma EnterKeeps(y: System, p: nat, op: Op, ids: Ids)
    requires SystemInv(y, ids)
    ensures SystemInv(Next(y, Enter(p, op), ids), ids)
  {
    hide KS.KInv, KL.SemInv, PS.PipeInv;
    PS.StepKeeps(y.pipe, Start(p, op));
  }

  lemma GoOnKeeps(y: System, ids: Ids)
    requires SystemInv(y, ids) && Proper(ids) && Running(y)
    ensures SystemInv(Next(y, GoOn, ids), ids)
  {
    hide KS.KInv, KL.SemInv, PS.PipeInv, Linked, StepOf, K.Step;
    var p := y.kernel.current;
    var c := CallOf(y.pipe, p, ids);
    PS.StepKeeps(y.pipe, Advance(p));
    PipeStepLinked(y.kernel, y.pipe, ids, p);
    if c.Call? {
      OwnCallOrderly(y, ids);
      KS.StepKeeps(y.kernel, c.action);
      KL.StepBooks(y.kernel, c.action);
    }
  }

  lemma OwnCallOrderly(y: System, ids: Ids)
    requires Linked(y.kernel, y.pipe, ids) && Running(y)
    ensures var c := CallOf(y.pipe, y.kernel.current, ids);
            c.Call? ==> KL.Orderly(y.kernel, c.action) && K.Allowed(y.kernel, c.action)
  {
  }

  lemma OtherKeeps(y: System, a: K.Action, ids: Ids)
    requires SystemInv(y, ids) && LeavesPipe(a, ids) && K.Allowed(y.kernel, a) && KL.Orderly(y.kernel, a)
    ensures SystemInv(Next(y, Other(a), ids), ids)
  {
    hide KS.KInv, KL.SemInv, PS.PipeInv, K.Step, KL.Orderly, K.Allowed;
    KS.StepKeeps(y.kernel, a);
    KL.StepBooks(y.kernel, a);
    OtherSems(y.kernel, a, ids);
  }

  /** What is not done to the pipe's semaphores leaves them as they are. */
  lemma OtherSems(k: K.Kernel, a: K.Action, ids: Ids)
    requires LeavesPipe(a, ids)
    ensures forall id :: OwnId(ids, id) && K.Open(k, id) ==>
              K.Open(K.Step(k, a), id) && K.Step(k, a).sems[id] == k.sems[id]
  {
    hide K.SemWait, K.SemPost, K.Tick, K.Yield, K.Block, K.Unblock, K.Kill, K.Waitpid, K.Create, K.ChangePrio, Wait;
    match a
    case DoSemInit(_, _) =>
    case DoSemClose(_) =>
    case DoSemWait(id, wait) => KL.WaitOutcome(k, id, wait);
    case DoSemPost(id) => PostElsewhere(k, id);
    case _ => KL.SemsUntouched(k, a);
  }

  lemma PostElsewhere(k: K.Kernel, id: nat)
    ensures forall i :: i != id && K.Open(k, i) ==> K.Open(K.SemPost(k, id), i) && K.SemPost(k, id).sems[i] == k.sems[i]
  {
    hide Without, Post;
  }

  /** Pipe and kernel stay together in every run of the whole system. */
  lemma {:induction false} TogetherKeeps(y: System, moves: seq<Move>, ids: Ids)
    requires SystemInv(y, ids) && Proper(ids) && PossibleRun(y, moves, ids)
    ensures SystemInv(Together(y, moves, ids), ids)
    decreases |moves|
  {
    hide SystemInv, Next, Running;
    if moves != [] {
      match moves[0] {
        case Enter(p, op) => EnterKeeps(y, p, op, ids);
        case GoOn => GoOnKeeps(y, ids);
        case Other(a) => OtherKeeps(y, a, ids);
      }
      TogetherKeeps(Next(y, moves[0], ids), moves[1..], ids);
    }
  }

  /**
   In every run of the whole system, a process queued inside a pipe operation, for
   data, for room or for the mutex, is in the kernel's blocked-by-semaphore queue
   with status BLOCKED and does not have the processor; and the processor's owner,
   if it is inside an operation, can go on.
   */
  lemma QueuedIsBlocked(y: System, moves: seq<Move>, ids: Ids, p: nat)
    requires SystemInv(y, ids) && Proper(ids) && PossibleRun(y, moves, ids)
    ensures var z := Together(y, moves, ids);
            p < |z.pipe.tasks| && z.pipe.tasks[p].Busy? && !CanStep(z.pipe.tasks[p]) ==>
              && p in z.kernel.bySem && p != z.kernel.current
              && p in z.kernel.pcbs && z.kernel.pcbs[p].status == K.BLOCKED
  {
    hide SystemInv, Together, PossibleRun;
    TogetherKeeps(y, moves, ids);
    var z := Together(y, moves, ids);
    if p < |z.pipe.tasks| && z.pipe.tasks[p].Busy? && !CanStep(z.pipe.tasks[p]) {
      WaitsInKernel(z, ids, p);
      BlockedInKernel(z.kernel, p) by { KernelOk(z, ids); }
    }
  }

  lemma KernelOk(z: System, ids: Ids)
    requires SystemInv(z, ids)
    ensures KS.KInv(z.kernel)
  {
  }

  lemma WaitsInKernel(z: System, ids: Ids, p: nat)
    requires SystemInv(z, ids) && p < |z.pipe.tasks| && z.pipe.tasks[p].Busy? && !CanStep(z.pipe.tasks[p])
    ensures p in z.kernel.bySem
  {
    hide KS.KInv, PS.Balanced, PS.InOrder, KL.Books;
    var s, t := z.pipe, z.pipe.tasks[p];
    assert PS.TaskOk(t, s.cleared);
    assert PS.OnReaders(t) || PS.OnWriters(t) || PS.OnMutex(t);
    assert PS.OnReaders(t) ==> p in s.readers.waiters;
    assert PS.OnWriters(t) ==> p in s.writers.waiters;
    assert PS.OnMutex(t) ==> p in s.mutex.waiters;
  }

  lemma BlockedInKernel(k: K.Kernel, p: nat)
    requires KS.KInv(k) && p in k.bySem
    ensures p in k.pcbs && k.pcbs[p].status == K.BLOCKED && p != k.current
  {
    assert K.Queued(k, p);
    assert KS.StatusFits(k, p, k.pcbs[p].status);
  }

  // ---- opening ----------------------------------------------------------

  /** createPipe's three semInit calls on slots not in use. */
  function Opened(k: K.Kernel, ids: Ids): K.Kernel {
    K.SemInit(K.SemInit(K.SemInit(k, ids.readers, 0), ids.writers, PIPE_BUFFER_SIZE), ids.mutex, 1)
  }

  lemma InitSlot(k: K.Kernel, id: nat, value: nat)
    requires KS.KInv(k) && KL.SemInv(k) && id < NUM_SEMS && id !in k.sems && value < WORD
    ensures var k' := K.SemInit(k, id, value);
            && KS.KInv(k') && KL.SemInv(k') && K.Open(k', id) && k'.sems[id] == Sem(value, [])
            && (forall i :: i != id ==> (i in k'.sems <==> i in k.sems) && (K.Open(k', i) <==> K.Open(k, i)))
            && (forall i :: i != id && i in k.sems ==> k'.sems[i] == k.sems[i])
  {
    hide KS.KInv, KL.SemInv;
    KS.SemTableKeeps(k, K.SemInit(k, id, value));
    KL.SemInitBooks(k, id, value);
  }

  lemma OpenHas(k: K.Kernel)
    ensures forall i :: K.Open(k, i) ==> i in k.sems
  {
  }

  /** A pipe opened on unused slots of any kernel state starts such a system. */
  lemma OpenedPipe(k: K.Kernel, ids: Ids, n: nat)
    requires KS.KInv(k) && KL.SemInv(k) && Proper(ids)
    requires ids.readers !in k.sems && ids.writers !in k.sems && ids.mutex !in k.sems
    ensures SystemInv(System(Opened(k, ids), Fresh(n)), ids)
  {
    hide KS.KInv, KL.SemInv, PS.PipeInv, K.SemInit, K.Open;
    PS.FreshInv(n);
    InitSlot(k, ids.readers, 0);
    var k1 := K.SemInit(k, ids.readers, 0);
    InitSlot(k1, ids.writers, PIPE_BUFFER_SIZE);
    var k2 := K.SemInit(k1, ids.writers, PIPE_BUFFER_SIZE);
    InitSlot(k2, ids.mutex, 1);
    OpenHas(k1);
    OpenHas(k2);
    OpenHas(Opened(k, ids));
  }
}
