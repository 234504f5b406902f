/**
 A pipe shared by any number of readers, writers and clearers, as interleaved
 small steps: every semaphore operation and every critical section is one step,
 and any process may take the next one.
 */
module PipeProtocol {
  import opened Options
  import opened Semaphores
  import opened RingBuffer

  /** What a process asked for. */
  datatype Op = Read(size: int) | Write(data: seq<char>) | Clear

  /**
   Where a process stands in one round of its loop: before the wait on
   semReaders/semWriters, queued there, before the wait on the mutex, queued
   there, inside the critical section, before the post on the mutex, and before
   the post on the other side's semaphore.
   */
  datatype Phase = Token | AwaitToken | Lock | AwaitLock | Body | Unlock | Signal

  /**
   `moved` bytes have been transferred in `round` completed or current rounds.
   `cells` is the part of the reader's buffer the rounds went over: the cell of a
   round that found no byte is never written.
   */
  datatype Task =
    | Idle(last: Outcome)
    | Busy(op: Op, phase: Phase, round: nat, moved: nat, cells: seq<Option<char>>)

  /** The last completed call and the value it returned. */
  datatype Outcome = NoCall | Returned(op: Op, result: int, cells: seq<Option<char>>)

  /** `produced`, `consumed` and `cleared` record history; the rest is the pipe and its users. */
  datatype Pipe = Pipe(
    ring: Ring,
    readers: Sem, writers: Sem, mutex: Sem,
    tasks: seq<Task>,
    produced: seq<char>, consumed: seq<char>, cleared: bool)

  datatype Action = Start(p: nat, op: Op) | Advance(p: nat)

  /** The bytes in the written cells, in order. */
  function Delivered(cells: seq<Option<char>>): (r: seq<char>)
    ensures |r| <= |cells|
  {
    if cells == [] then []
    else
      var n := |cells| - 1;
      Delivered(cells[..n]) + (if cells[n].Some? then [cells[n].value] else [])
  }

  lemma DeliveredAppend(cells: seq<Option<char>>, x: Option<char>)
    ensures Delivered(cells + [x]) == if x.Some? then Delivered(cells) + [x.value] else Delivered(cells)
  {
    assert (cells + [x])[..|cells|] == cells;
  }

  /** An open, empty pipe with `n` processes around it. */
  function Fresh(n: nat): Pipe {
    Pipe(EmptyRing(), Sem(0, []), Sem(PIPE_BUFFER_SIZE, []), Sem(1, []),
         seq(n, _ => Idle(NoCall)), [], [], false)
  }

  function Rounds(op: Op): int {
    match op
    case Read(size) => size
    case Write(data) => |data|
    case Clear => 1
  }

  function SetPhase(t: Task, ph: Phase): Task
    requires t.Busy?
  {
    t.(phase := ph)
  }

  /** Entering pipeRead, pipeWrite or pipeClear; a call for no bytes returns -1 at once. */
  function Begin(s: Pipe, p: nat, op: Op): Pipe
    requires p < |s.tasks| && s.tasks[p].Idle?
  {
    if Rounds(op) <= 0 then s.(tasks := s.tasks[p := Idle(Returned(op, -1, []))])
    else s.(tasks := s.tasks[p := Busy(op, if op.Clear? then Lock else Token, 0, 0, [])])
  }

  /** The first waiter of a semaphore with waiters, moved to the phase it was queued for. */
  function Wake(tasks: seq<Task>, waiters: seq<nat>, ph: Phase): seq<Task> {
    if waiters != [] && waiters[0] < |tasks| && tasks[waiters[0]].Busy?
    then tasks[waiters[0] := SetPhase(tasks[waiters[0]], ph)]
    else tasks
  }

  /** semWait on the semaphore that counts what `op` needs. */
  function TakeToken(s: Pipe, p: nat): Pipe
    requires p < |s.tasks| && s.tasks[p].Busy?
  {
    var t := s.tasks[p];
    if t.op.Read? then
      s.(readers := Wait(s.readers, p),
         tasks := s.tasks[p := SetPhase(t, if s.readers.value > 0 then Lock else AwaitToken)])
    else
      s.(writers := Wait(s.writers, p),
         tasks := s.tasks[p := SetPhase(t, if s.writers.value > 0 then Lock else AwaitToken)])
  }

  function TakeLock(s: Pipe, p: nat): Pipe
    requires p < |s.tasks| && s.tasks[p].Busy?
  {
    s.(mutex := Wait(s.mutex, p),
       tasks := s.tasks[p := SetPhase(s.tasks[p], if s.mutex.value > 0 then Body else AwaitLock)])
  }

  /** The critical section: both transfers keep the guard the code has. */
  function RunBody(s: Pipe, p: nat): Pipe
    requires p < |s.tasks| && s.tasks[p].Busy?
  {
    var t := s.tasks[p].(phase := Unlock);
    match t.op
    case Read(_) =>
      if s.ring.count > 0 then
        var c := First(s.ring);
        s.(ring := Consume(s.ring), consumed := s.consumed + [c],
           tasks := s.tasks[p := t.(moved := t.moved + 1, cells := t.cells + [Some(c)])])
      else s.(tasks := s.tasks[p := t.(cells := t.cells + [None])])
    case Write(data) =>
      if s.ring.count < PIPE_BUFFER_SIZE then
        var c := ByteAt(data, t.round);
        s.(ring := Store(s.ring, c), produced := s.produced + [c],
           tasks := s.tasks[p := t.(moved := t.moved + 1)])
      else s.(tasks := s.tasks[p := t])
    case Clear =>
      s.(ring := Reset(s.ring), cleared := true, tasks := s.tasks[p := t])
  }

  function ByteAt(data: seq<char>, i: nat): char {
    if i < |data| then data[i] else '\0'
  }

  /** semPost on the mutex; pipeClear returns after it. */
  function DropLock(s: Pipe, p: nat): Pipe
    requires p < |s.tasks| && s.tasks[p].Busy?
  {
    var woken := Wake(s.tasks, s.mutex.waiters, Body);
    var t := s.tasks[p];
    s.(mutex := Post(s.mutex),
       tasks := woken[p := if t.op.Clear? then Idle(Returned(Clear, 0, [])) else SetPhase(t, Signal)])
  }

  /** A process after its last post of a round: the next round, or the return. */
  function NextRound(t: Task): Task
    requires t.Busy?
  {
    if t.round + 1 < Rounds(t.op) then t.(phase := Token, round := t.round + 1)
    else Idle(Returned(t.op, t.moved, t.cells))
  }

  /** semPost on the other side's semaphore. */
  function GiveToken(s: Pipe, p: nat): Pipe
    requires p < |s.tasks| && s.tasks[p].Busy?
  {
    var t := s.tasks[p];
    if t.op.Read? then
      s.(writers := Post(s.writers), tasks := Wake(s.tasks, s.writers.waiters, Lock)[p := NextRound(t)])
    else
      s.(readers := Post(s.readers), tasks := Wake(s.tasks, s.readers.waiters, Lock)[p := NextRound(t)])
  }

  /** A process that is inside a call and not queued on a semaphore can take a step. */
  predicate CanStep(t: Task) {
    t.Busy? && t.phase != AwaitToken && t.phase != AwaitLock
  }

  function StepOf(s: Pipe, p: nat): Pipe
    requires p < |s.tasks| && CanStep(s.tasks[p])
  {
    match s.tasks[p].phase
    case Token => TakeToken(s, p)
    case Lock => TakeLock(s, p)
    case Body => RunBody(s, p)
    case Unlock => DropLock(s, p)
    case Signal => GiveToken(s, p)
  }

  /** One interleaving step; an action that is not possible changes nothing. */
  function Step(s: Pipe, a: Action): Pipe {
    if a.p >= |s.tasks| then s
    else match a
      case Start(p, op) => if s.tasks[p].Idle? then Begin(s, p, op) else s
      case Advance(p) => if CanStep(s.tasks[p]) then StepOf(s, p) else s
  }

  function Run(s: Pipe, actions: seq<Action>): Pipe
    decreases |actions|
  {
    if actions == [] then s else Run(Step(s, actions[0]), actions[1..])
  }
}
