/**
 What every step of the pipe protocol keeps, for any number of processes and
 any interleaving, and what follows for whole runs.
 */
module PipeSafety {
  import opened Options
  import opened Sequences
  import opened Tallies
  import opened Semaphores
  import opened RingBuffer
  import opened PipeProtocol

  // ---- what a task contributes ------------------------------------------

  /** Holds a unit taken from one of the two counting semaphores and not yet given to the other. */
  function InFlight(t: Task): nat {
    if t.Busy? && !t.op.Clear? && t.phase != Token && t.phase != AwaitToken then 1 else 0
  }

  /** Accounts for one stored byte: a reader yet to take it, or a writer yet to announce it. */
  function ByteOwed(t: Task): nat {
    if t.Busy? && t.op.Read? && (t.phase == Lock || t.phase == AwaitLock || t.phase == Body) then 1
    else if t.Busy? && t.op.Write? && (t.phase == Unlock || t.phase == Signal) then 1
    else 0
  }

  function HoldsMutex(t: Task): nat {
    if t.Busy? && (t.phase == Body || t.phase == Unlock) then 1 else 0
  }

  predicate OnReaders(t: Task) { t.Busy? && t.op.Read? && t.phase == AwaitToken }
  predicate OnWriters(t: Task) { t.Busy? && t.op.Write? && t.phase == AwaitToken }
  predicate OnMutex(t: Task) { t.Busy? && t.phase == AwaitLock }

  function Transferred(ph: Phase): nat {
    if ph == Unlock || ph == Signal then 1 else 0
  }

  /** The local variables of one call, and the value of a finished one. */
  predicate TaskOk(t: Task, cleared: bool) {
    match t
    case Busy(op, phase, round, moved, cells) =>
      && round < Rounds(op)
      && (op.Clear? ==> phase != Token && phase != AwaitToken && phase != Signal)
      && (op.Write? ==> moved == round + Transferred(phase))
      && (op.Read? ==> moved == |Delivered(cells)| && |cells| == round + Transferred(phase))
      && (op.Read? && !cleared ==> moved == round + Transferred(phase))
    case Idle(NoCall) => true
    case Idle(Returned(op, result, cells)) =>
      if Rounds(op) <= 0 then result == -1
      else match op
        case Write(data) => result == |data|
        case Read(size) => result == |Delivered(cells)| && |cells| == size && (!cleared ==> result == size)
        case Clear => result == 0
  }

  // ---- the invariant ----------------------------------------------------

  /** A semaphore's queue lists exactly those that wait on it. */
  ghost predicate Queued(s: Sem, tasks: seq<Task>, waits: Task -> bool) {
    && Sound(s)
    && (forall p :: p in s.waiters ==> p < |tasks| && waits(tasks[p]))
    && (forall p :: 0 <= p < |tasks| && waits(tasks[p]) ==> p in s.waiters)
  }

  ghost predicate Queues(s: Pipe) {
    && Queued(s.readers, s.tasks, OnReaders)
    && Queued(s.writers, s.tasks, OnWriters)
    && Queued(s.mutex, s.tasks, OnMutex)
  }

  ghost predicate Balanced(s: Pipe) {
    // units are only moved between the two semaphores and the processes in flight
    && s.readers.value + s.writers.value + Count(s.tasks, InFlight) == PIPE_BUFFER_SIZE
    // every stored byte is announced or owed
    && s.ring.count <= s.readers.value + Count(s.tasks, ByteOwed)
    && (!s.cleared ==> s.ring.count == s.readers.value + Count(s.tasks, ByteOwed))
    // the mutex admits one process
    && s.mutex.value + Count(s.tasks, HoldsMutex) == 1
  }

  ghost predicate TasksOk(s: Pipe) {
    forall p :: 0 <= p < |s.tasks| ==> TaskOk(s.tasks[p], s.cleared)
  }

  ghost predicate InOrder(s: Pipe) {
    !s.cleared ==> s.produced == s.consumed + Contents(s.ring)
  }

  ghost predicate PipeInv(s: Pipe) {
    Queues(s) && Balanced(s) && TasksOk(s) && InOrder(s)
  }

  // ---- queues -----------------------------------------------------------

  lemma QueueKeep(s: Sem, tasks: seq<Task>, p: nat, t: Task, waits: Task -> bool)
    requires Queued(s, tasks, waits) && p < |tasks| && waits(t) == waits(tasks[p])
    ensures Queued(s, tasks[p := t], waits)
  {
  }

  lemma QueueWait(s: Sem, tasks: seq<Task>, p: nat, t: Task, waits: Task -> bool)
    requires Queued(s, tasks, waits) && p < |tasks| && !waits(tasks[p])
    requires waits(t) <==> s.value == 0
    ensures Queued(Wait(s, p), tasks[p := t], waits)
  {
    if s.value == 0 {
      DistinctAppend(s.waiters, p);
    }
  }

  lemma QueuePost(s: Sem, tasks: seq<Task>, ph: Phase, waits: Task -> bool)
    requires Queued(s, tasks, waits)
    requires forall t: Task :: waits(t) ==> t.Busy?
    requires forall t: Task :: t.Busy? ==> !waits(SetPhase(t, ph))
    ensures Queued(Post(s), Wake(tasks, s.waiters, ph), waits)
    ensures s.waiters != [] ==>
              && s.waiters[0] < |tasks| && waits(tasks[s.waiters[0]]) && tasks[s.waiters[0]].Busy?
              && Wake(tasks, s.waiters, ph) == tasks[s.waiters[0] := SetPhase(tasks[s.waiters[0]], ph)]
  {
    if s.waiters != [] {
      var q := s.waiters[0];
      assert q in s.waiters;
      var tasks' := Wake(tasks, s.waiters, ph);
      assert !waits(tasks'[q]);
      forall p | 0 <= p < |tasks'| && waits(tasks'[p]) ensures p in s.waiters[1..] {
        assert p in s.waiters;
      }
    }
  }

  // ---- counts -----------------------------------------------------------

  /** The three counts after one task changes. */
  lemma CountsSet(tasks: seq<Task>, p: nat, t: Task)
    requires p < |tasks|
    ensures Count(tasks[p := t], InFlight) == Count(tasks, InFlight) - InFlight(tasks[p]) + InFlight(t)
    ensures Count(tasks[p := t], ByteOwed) == Count(tasks, ByteOwed) - ByteOwed(tasks[p]) + ByteOwed(t)
    ensures Count(tasks[p := t], HoldsMutex) == Count(tasks, HoldsMutex) - HoldsMutex(tasks[p]) + HoldsMutex(t)
  {
    CountUpdate(tasks, p, t, InFlight);
    CountUpdate(tasks, p, t, ByteOwed);
    CountUpdate(tasks, p, t, HoldsMutex);
  }

  /** A task that may write finds room: the full-buffer guard cannot fail. */
  lemma RoomToWrite(s: Pipe, p: nat)
    requires Balanced(s) && p < |s.tasks|
    requires s.tasks[p].Busy? && s.tasks[p].op.Write? && s.tasks[p].phase == Body
    ensures s.ring.count < PIPE_BUFFER_SIZE
  {
    CountDominated(s.tasks, ByteOwed, InFlight, p);
  }

  /** Unless the pipe was cleared, a task that may read finds a byte. */
  lemma ByteToRead(s: Pipe, p: nat)
    requires Balanced(s) && p < |s.tasks| && !s.cleared
    requires s.tasks[p].Busy? && s.tasks[p].op.Read? && s.tasks[p].phase == Body
    ensures s.ring.count > 0
  {
    CountAtLeast(s.tasks, p, ByteOwed);
  }

  // ---- the steps --------------------------------------------------------

  ghost predicate At(s: Pipe, p: nat, ph: Phase) {
    p < |s.tasks| && s.tasks[p].Busy? && s.tasks[p].phase == ph
  }

  lemma TakeTokenKeeps(s: Pipe, p: nat)
    requires Queues(s) && Balanced(s) && At(s, p, Token) && !s.tasks[p].op.Clear?
    ensures Queues(TakeToken(s, p)) && Balanced(TakeToken(s, p))
  {
    hide Queued, Count;
    var t := TakeToken(s, p).tasks[p];
    CountsSet(s.tasks, p, t);
    if t.op.Read? {
      QueueWait(s.readers, s.tasks, p, t, OnReaders);
      QueueKeep(s.writers, s.tasks, p, t, OnWriters);
    } else {
      QueueKeep(s.readers, s.tasks, p, t, OnReaders);
      QueueWait(s.writers, s.tasks, p, t, OnWriters);
    }
    QueueKeep(s.mutex, s.tasks, p, t, OnMutex);
  }

  lemma TakeLockKeeps(s: Pipe, p: nat)
    requires Queues(s) && Balanced(s) && At(s, p, Lock)
    ensures Queues(TakeLock(s, p)) && Balanced(TakeLock(s, p))
  {
    hide Queued, Count;
    var t := TakeLock(s, p).tasks[p];
    CountsSet(s.tasks, p, t);
    QueueKeep(s.readers, s.tasks, p, t, OnReaders);
    QueueKeep(s.writers, s.tasks, p, t, OnWriters);
    QueueWait(s.mutex, s.tasks, p, t, OnMutex);
  }

  lemma KeepQueues(s: Pipe, p: nat, t: Task)
    requires Queues(s) && p < |s.tasks|
    requires OnReaders(t) == OnReaders(s.tasks[p]) && OnWriters(t) == OnWriters(s.tasks[p])
              && OnMutex(t) == OnMutex(s.tasks[p])
    ensures Queues(s.(tasks := s.tasks[p := t]))
  {
    hide Queued;
    QueueKeep(s.readers, s.tasks, p, t, OnReaders);
    QueueKeep(s.writers, s.tasks, p, t, OnWriters);
    QueueKeep(s.mutex, s.tasks, p, t, OnMutex);
  }

  lemma RunBodyKeeps(s: Pipe, p: nat)
    requires Queues(s) && Balanced(s) && At(s, p, Body)
    ensures Queues(RunBody(s, p)) && Balanced(RunBody(s, p))
  {
    hide Queued, Count;
    var s' := RunBody(s, p);
    var t := s'.tasks[p];
    KeepQueues(s, p, t);
    CountsSet(s.tasks, p, t);
    if t.op.Write? { RoomToWrite(s, p); }
    if t.op.Read? && !s.cleared { ByteToRead(s, p); }
  }

  lemma RunBodyInOrder(s: Pipe, p: nat)
    requires InOrder(s) && At(s, p, Body)
    ensures InOrder(RunBody(s, p))
  {
    var op := s.tasks[p].op;
    if op.Read? && s.ring.count > 0 {
      ConsumeTakesFirst(s.ring);
      assert s.consumed + ([First(s.ring)] + Contents(Consume(s.ring))) == s.consumed + [First(s.ring)]
             + Contents(Consume(s.ring));
    } else if op.Write? && s.ring.count < PIPE_BUFFER_SIZE {
      var c := ByteAt(op.data, s.tasks[p].round);
      StoreAppends(s.ring, c);
      assert s.consumed + (Contents(s.ring) + [c]) == s.consumed + Contents(s.ring) + [c];
    }
  }

  lemma DropLockKeeps(s: Pipe, p: nat)
    requires Queues(s) && Balanced(s) && At(s, p, Unlock)
    ensures Queues(DropLock(s, p)) && Balanced(DropLock(s, p))
  {
    hide Queued, Count;
    var m := s.mutex;
    QueuePost(m, s.tasks, Body, OnMutex);
    var s1 := s.(mutex := Post(m), tasks := Wake(s.tasks, m.waiters, Body));
    if m.waiters != [] {
      var q := m.waiters[0];
      KeepOthers(s, q, SetPhase(s.tasks[q], Body));
      CountsSet(s.tasks, q, SetPhase(s.tasks[q], Body));
    }
    var t := DropLock(s, p).tasks[p];
    MutexSingle(s, p);
    KeepQueues(s1, p, t);
    CountsSet(s1.tasks, p, t);
  }

  /** The two counting queues do not notice a task that was waiting on the mutex. */
  lemma KeepOthers(s: Pipe, q: nat, t: Task)
    requires Queues(s) && q < |s.tasks|
    requires OnReaders(t) == OnReaders(s.tasks[q]) && OnWriters(t) == OnWriters(s.tasks[q])
    ensures Queued(s.readers, s.tasks[q := t], OnReaders) && Queued(s.writers, s.tasks[q := t], OnWriters)
  {
    hide Queued;
    QueueKeep(s.readers, s.tasks, q, t, OnReaders);
    QueueKeep(s.writers, s.tasks, q, t, OnWriters);
  }

  lemma MutexSingle(s: Pipe, p: nat)
    requires Queues(s) && Balanced(s) && At(s, p, Unlock)
    ensures s.mutex.value == 0
  {
    CountAtLeast(s.tasks, p, HoldsMutex);
  }

  lemma GiveTokenKeeps(s: Pipe, p: nat)
    requires Queues(s) && Balanced(s) && At(s, p, Signal) && !s.tasks[p].op.Clear?
    ensures Queues(GiveToken(s, p)) && Balanced(GiveToken(s, p))
  {
    if s.tasks[p].op.Read? { GiveWriterKeeps(s, p); } else { GiveReaderKeeps(s, p); }
  }

  lemma GiveWriterKeeps(s: Pipe, p: nat)
    requires Queues(s) && Balanced(s) && At(s, p, Signal) && s.tasks[p].op.Read?
    ensures Queues(GiveToken(s, p)) && Balanced(GiveToken(s, p))
  {
    hide Queued, Count;
    var w := s.writers;
    QueuePost(w, s.tasks, Lock, OnWriters);
    var s1 := s.(writers := Post(w), tasks := Wake(s.tasks, w.waiters, Lock));
    if w.waiters != [] {
      var q := w.waiters[0];
      var u := SetPhase(s.tasks[q], Lock);
      QueueKeep(s.readers, s.tasks, q, u, OnReaders);
      QueueKeep(s.mutex, s.tasks, q, u, OnMutex);
      CountsSet(s.tasks, q, u);
    }
    var t := NextRound(s.tasks[p]);
    KeepQueues(s1, p, t);
    CountsSet(s1.tasks, p, t);
  }

  lemma GiveReaderKeeps(s: Pipe, p: nat)
    requires Queues(s) && Balanced(s) && At(s, p, Signal) && s.tasks[p].op.Write?
    ensures Queues(GiveToken(s, p)) && Balanced(GiveToken(s, p))
  {
    hide Queued, Count;
    var r := s.readers;
    QueuePost(r, s.tasks, Lock, OnReaders);
    var s1 := s.(readers := Post(r), tasks := Wake(s.tasks, r.waiters, Lock));
    if r.waiters != [] {
      var q := r.waiters[0];
      var u := SetPhase(s.tasks[q], Lock);
      QueueKeep(s.writers, s.tasks, q, u, OnWriters);
      QueueKeep(s.mutex, s.tasks, q, u, OnMutex);
      CountsSet(s.tasks, q, u);
    }
    var t := NextRound(s.tasks[p]);
    KeepQueues(s1, p, t);
    CountsSet(s1.tasks, p, t);
  }

  // ---- local variables --------------------------------------------------

  lemma SetTaskOk(s: Pipe, s': Pipe, p: nat, t: Task)
    requires TasksOk(s) && p < |s.tasks| && s'.tasks == s.tasks[p := t]
    requires s.cleared ==> s'.cleared
    requires TaskOk(t, s'.cleared)
    ensures TasksOk(s')
  {
    forall q | 0 <= q < |s'.tasks| ensures TaskOk(s'.tasks[q], s'.cleared) {
      assert TaskOk(s.tasks[q], s.cleared);
    }
  }

  predicate Waiting(t: Task) {
    t.Busy? && (t.phase == AwaitToken || t.phase == AwaitLock)
  }

  lemma WakeTasksOk(s: Pipe, waiters: seq<nat>, ph: Phase)
    requires TasksOk(s)
    requires ph == Lock || ph == Body
    requires waiters != [] ==> waiters[0] < |s.tasks| && Waiting(s.tasks[waiters[0]])
    ensures TasksOk(s.(tasks := Wake(s.tasks, waiters, ph)))
  {
    if waiters != [] {
      var q := waiters[0];
      assert TaskOk(s.tasks[q], s.cleared);
      SetTaskOk(s, s.(tasks := Wake(s.tasks, waiters, ph)), q, SetPhase(s.tasks[q], ph));
    }
  }

  lemma StepTasksOk(s: Pipe, p: nat)
    requires Queues(s) && Balanced(s) && TasksOk(s) && p < |s.tasks| && CanStep(s.tasks[p])
    ensures TasksOk(StepOf(s, p))
  {
    hide Queues, Balanced, TaskOk;
    match s.tasks[p].phase {
      case Token => TakeTasksOk(s, p);
      case Lock => TakeTasksOk(s, p);
      case Body => BodyTaskOk(s, p); SetTaskOk(s, StepOf(s, p), p, StepOf(s, p).tasks[p]);
      case Unlock => DropTasksOk(s, p);
      case Signal => GiveTasksOk(s, p);
    }
  }

  lemma TakeTasksOk(s: Pipe, p: nat)
    requires TasksOk(s) && (At(s, p, Token) || At(s, p, Lock))
    ensures TasksOk(StepOf(s, p))
  {
    assert TaskOk(s.tasks[p], s.cleared);
    SetTaskOk(s, StepOf(s, p), p, StepOf(s, p).tasks[p]);
  }

  lemma DropTasksOk(s: Pipe, p: nat)
    requires Queues(s) && TasksOk(s) && At(s, p, Unlock)
    ensures TasksOk(DropLock(s, p))
  {
    hide Queues;
    assert TaskOk(s.tasks[p], s.cleared);
    PostTasksOk(s, DropLock(s, p), p, s.mutex.waiters, Body);
  }

  lemma GiveTasksOk(s: Pipe, p: nat)
    requires Queues(s) && TasksOk(s) && At(s, p, Signal)
    ensures TasksOk(GiveToken(s, p))
  {
    hide Queues;
    assert TaskOk(s.tasks[p], s.cleared);
    PostTasksOk(s, GiveToken(s, p), p, if s.tasks[p].op.Read? then s.writers.waiters else s.readers.waiters, Lock);
  }

  lemma BodyTaskOk(s: Pipe, p: nat)
    requires Balanced(s) && At(s, p, Body) && TaskOk(s.tasks[p], s.cleared)
    ensures TaskOk(RunBody(s, p).tasks[p], RunBody(s, p).cleared)
  {
    hide Balanced, Delivered;
    var t := s.tasks[p];
    if t.op.Write? { RoomToWrite(s, p); }
    if t.op.Read? {
      DeliveredAppend(t.cells, None);
      DeliveredAppend(t.cells, Some(First(s.ring)));
      if !s.cleared { ByteToRead(s, p); }
    }
  }

  lemma PostTasksOk(s: Pipe, s': Pipe, p: nat, waiters: seq<nat>, ph: Phase)
    requires Queues(s) && TasksOk(s) && p < |s.tasks| && (ph == Lock || ph == Body)
    requires waiters == s.mutex.waiters || waiters == s.writers.waiters || waiters == s.readers.waiters
    requires s'.cleared == s.cleared && |s'.tasks| == |s.tasks|
    requires s'.tasks == Wake(s.tasks, waiters, ph)[p := s'.tasks[p]] && TaskOk(s'.tasks[p], s.cleared)
    ensures TasksOk(s')
  {
    if waiters != [] { assert waiters[0] in waiters; }
    WakeTasksOk(s, waiters, ph);
    SetTaskOk(s.(tasks := Wake(s.tasks, waiters, ph)), s', p, s'.tasks[p]);
  }

  // ---- every step, every run --------------------------------------------

  /** A call that begins neither waits nor holds anything yet. */
  lemma BeginTask(s: Pipe, p: nat, op: Op)
    requires p < |s.tasks| && s.tasks[p].Idle?
    ensures var t := Begin(s, p, op).tasks[p];
            && Begin(s, p, op) == s.(tasks := s.tasks[p := t])
            && !OnReaders(t) && !OnWriters(t) && !OnMutex(t)
            && InFlight(t) == 0 && ByteOwed(t) == 0 && HoldsMutex(t) == 0
            && TaskOk(t, s.cleared)
  {
  }

  lemma BeginKeeps(s: Pipe, p: nat, op: Op)
    requires PipeInv(s) && p < |s.tasks| && s.tasks[p].Idle?
    ensures PipeInv(Begin(s, p, op))
  {
    hide Queues, Count, TasksOk, Contents, TaskOk;
    var s' := Begin(s, p, op);
    BeginTask(s, p, op);
    KeepQueues(s, p, s'.tasks[p]);
    CountsSet(s.tasks, p, s'.tasks[p]);
    SetTaskOk(s, s', p, s'.tasks[p]);
  }

  lemma StepOfKeeps(s: Pipe, p: nat)
    requires PipeInv(s) && p < |s.tasks| && CanStep(s.tasks[p])
    ensures PipeInv(StepOf(s, p))
  {
    hide Queues, Balanced, Count, Contents;
    StepTasksOk(s, p);
    assert TaskOk(s.tasks[p], s.cleared);
    match s.tasks[p].phase {
      case Token => TakeTokenKeeps(s, p);
      case Lock => TakeLockKeeps(s, p);
      case Body => RunBodyKeeps(s, p); RunBodyInOrder(s, p);
      case Unlock => DropLockKeeps(s, p);
      case Signal => GiveTokenKeeps(s, p);
    }
  }

  /** Every step of every process keeps the invariant. */
  lemma StepKeeps(s: Pipe, a: Action)
    requires PipeInv(s)
    ensures PipeInv(Step(s, a))
  {
    hide PipeInv, StepOf, Begin;
    if a.p < |s.tasks| {
      match a
      case Start(p, op) => if s.tasks[p].Idle? { BeginKeeps(s, p, op); }
      case Advance(p) => if CanStep(s.tasks[p]) { StepOfKeeps(s, p); }
    }
  }

  lemma FreshQueues(n: nat)
    ensures Queues(Fresh(n))
  {
  }

  lemma FreshInv(n: nat)
    ensures PipeInv(Fresh(n))
  {
    hide Queues, Count;
    var s := Fresh(n);
    assert forall p :: 0 <= p < n ==> s.tasks[p] == Idle(NoCall);
    CountZero(s.tasks, InFlight);
    CountZero(s.tasks, ByteOwed);
    CountZero(s.tasks, HoldsMutex);
    FreshQueues(n);
    assert Contents(s.ring) == [];
  }

  lemma {:induction false} RunKeeps(s: Pipe, actions: seq<Action>)
    requires PipeInv(s)
    ensures PipeInv(Run(s, actions)) && |Run(s, actions).tasks| == |s.tasks|
    decreases |actions|
  {
    hide PipeInv, Step;
    if actions != [] {
      StepKeeps(s, actions[0]);
      StepSize(s, actions[0]);
      RunKeeps(Step(s, actions[0]), actions[1..]);
    }
  }

  lemma StepSize(s: Pipe, a: Action)
    ensures |Step(s, a).tasks| == |s.tasks|
  {
  }

  // ---- theorems about whole runs ----------------------------------------

  /**
   Any interleaving of reads, writes and clears by any number of processes:
   units are conserved, the buffer never holds more than what is announced or
   owed, one process at a time is in the critical section.
   */
  lemma Conservation(n: nat, actions: seq<Action>)
    ensures var s := Run(Fresh(n), actions);
            && s.readers.value + s.writers.value + Count(s.tasks, InFlight) == PIPE_BUFFER_SIZE
            && s.ring.count <= s.readers.value + Count(s.tasks, ByteOwed) <= PIPE_BUFFER_SIZE
            && s.mutex.value + Count(s.tasks, HoldsMutex) == 1
            && (s.readers.value > 0 ==> s.readers.waiters == [])
            && (s.writers.value > 0 ==> s.writers.waiters == [])
  {
    hide TasksOk, InOrder, Run, Count, Distinct;
    FreshInv(n);
    RunKeeps(Fresh(n), actions);
    var s := Run(Fresh(n), actions);
    CountDominated(s.tasks, ByteOwed, InFlight, |s.tasks|);
  }

  /** Every pipeWrite that returns has stored all its bytes, clears or not. */
  lemma WritesComplete(n: nat, actions: seq<Action>, p: nat)
    requires p < n
    ensures |Run(Fresh(n), actions).tasks| == n
    ensures match Run(Fresh(n), actions).tasks[p]
            case Idle(Returned(Write(data), result, _)) => result == if |data| > 0 then |data| else -1
            case _ => true
  {
    hide Queues, Balanced, InOrder;
    FreshInv(n);
    RunKeeps(Fresh(n), actions);
    assert TaskOk(Run(Fresh(n), actions).tasks[p], Run(Fresh(n), actions).cleared);
  }

  predicate NoClears(actions: seq<Action>) {
    forall i :: 0 <= i < |actions| ==> !(actions[i].Start? && actions[i].op.Clear?)
  }

  ghost predicate Unclearing(s: Pipe) {
    !s.cleared && forall p :: 0 <= p < |s.tasks| && s.tasks[p].Busy? ==> !s.tasks[p].op.Clear?
  }

  lemma StepUnclearing(s: Pipe, a: Action)
    requires Unclearing(s) && !(a.Start? && a.op.Clear?)
    ensures Unclearing(Step(s, a))
  {
  }

  lemma {:induction false} RunUnclearing(s: Pipe, actions: seq<Action>)
    requires Unclearing(s) && NoClears(actions)
    ensures Unclearing(Run(s, actions))
    decreases |actions|
  {
    hide Unclearing, Step;
    if actions != [] {
      assert !(actions[0].Start? && actions[0].op.Clear?);
      StepUnclearing(s, actions[0]);
      forall i | 0 <= i < |actions[1..]| ensures !(actions[1..][i].Start? && actions[1..][i].op.Clear?) {
        assert actions[1..][i] == actions[i + 1];
      }
      RunUnclearing(Step(s, actions[0]), actions[1..]);
    }
  }

  /**
   Without clears the pipe is a FIFO: what all readers consumed, in order, is a
   prefix of what all writers produced, in order, and the buffer is the rest.
   */
  lemma FirstInFirstOut(n: nat, actions: seq<Action>)
    requires NoClears(actions)
    ensures var s := Run(Fresh(n), actions);
            s.consumed <= s.produced && s.produced == s.consumed + Contents(s.ring)
  {
    hide Queues, Balanced, TasksOk;
    FreshInv(n);
    RunKeeps(Fresh(n), actions);
    RunUnclearing(Fresh(n), actions);
  }

  /** Without clears every pipeRead that returns has delivered the full size it asked for. */
  lemma ReadsComplete(n: nat, actions: seq<Action>, p: nat)
    requires p < n && NoClears(actions)
    ensures |Run(Fresh(n), actions).tasks| == n
    ensures match Run(Fresh(n), actions).tasks[p]
            case Idle(Returned(Read(size), result, cells)) =>
              if size > 0 then result == |Delivered(cells)| == |cells| == size else result == -1
            case _ => true
  {
    hide Queues, Balanced, InOrder;
    FreshInv(n);
    RunKeeps(Fresh(n), actions);
    RunUnclearing(Fresh(n), actions);
    assert TaskOk(Run(Fresh(n), actions).tasks[p], Run(Fresh(n), actions).cleared);
  }

  // ---- progress ---------------------------------------------------------

  /** Whoever waits on the mutex waits for a holder that can take a step. */
  lemma HolderCanStep(s: Pipe) returns (h: nat)
    requires Queues(s) && Balanced(s) && s.mutex.waiters != []
    ensures h < |s.tasks| && HoldsMutex(s.tasks[h]) == 1 && CanStep(s.tasks[h])
  {
    h := CountWitness(s.tasks, HoldsMutex);
  }

  /** Nobody can step: then nobody is in flight. */
  lemma QuietNobodyInFlight(s: Pipe)
    requires PipeInv(s) && forall p :: 0 <= p < |s.tasks| ==> !CanStep(s.tasks[p])
    ensures s.mutex == Sem(1, []) && Count(s.tasks, InFlight) == 0 && Count(s.tasks, ByteOwed) == 0
  {
    if s.mutex.waiters != [] {
      var h := HolderCanStep(s);
    }
    forall p | 0 <= p < |s.tasks|
      ensures InFlight(s.tasks[p]) == 0 && ByteOwed(s.tasks[p]) == 0 && HoldsMutex(s.tasks[p]) == 0
    {
      assert OnMutex(s.tasks[p]) ==> p in s.mutex.waiters;
    }
    CountZero(s.tasks, InFlight);
    CountZero(s.tasks, ByteOwed);
    CountZero(s.tasks, HoldsMutex);
  }

  /**
   The only states in which no process inside a call can step are an empty pipe
   with readers waiting and a full pipe with writers waiting, never both.
   */
  lemma StuckOnlyOnEmptyOrFull(s: Pipe)
    requires PipeInv(s) && forall p :: 0 <= p < |s.tasks| ==> !CanStep(s.tasks[p])
    ensures s.readers.waiters == [] || s.writers.waiters == []
    ensures s.readers.waiters != [] ==> s.ring.count == 0
    ensures s.writers.waiters != [] && !s.cleared ==> s.ring.count == PIPE_BUFFER_SIZE
    ensures forall p :: 0 <= p < |s.tasks| && s.tasks[p].Busy? ==>
              (OnReaders(s.tasks[p]) && p in s.readers.waiters) || (OnWriters(s.tasks[p]) && p in s.writers.waiters)
  {
    QuietNobodyInFlight(s);
    forall p | 0 <= p < |s.tasks| && s.tasks[p].Busy?
      ensures (OnReaders(s.tasks[p]) && p in s.readers.waiters) || (OnWriters(s.tasks[p]) && p in s.writers.waiters)
    {
      assert TaskOk(s.tasks[p], s.cleared);
      assert OnMutex(s.tasks[p]) ==> p in s.mutex.waiters;
    }
  }

  /** A reader and a writer are never both left waiting with nobody able to move. */
  lemma SomeoneMoves(s: Pipe) returns (p: nat)
    requires PipeInv(s) && s.readers.waiters != [] && s.writers.waiters != []
    ensures p < |s.tasks| && CanStep(s.tasks[p])
  {
    if forall q :: 0 <= q < |s.tasks| ==> !CanStep(s.tasks[q]) {
      StuckOnlyOnEmptyOrFull(s);
    }
    p :| 0 <= p < |s.tasks| && CanStep(s.tasks[p]);
  }
}
