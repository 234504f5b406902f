/**
 What the pipe results need: wait fails when it has to block and cannot allocate
 the copy of its caller's pid, and the pipe operations ignore that.  The process
 then goes on without the token, or without the mutex.
 */
module PipeFailures {
  import opened Tallies
  import opened Semaphores
  import opened RingBuffer
  import opened PipeProtocol
  import opened PipeSafety
  import opened PipeBuffers

  /** The counting semaphore the next round of a read or write waits on. */
  function TokenOf(s: Pipe, op: Op): Sem {
    if op.Read? then s.readers else s.writers
  }

  /** A wait that would block fails, and its caller proceeds as if it had succeeded. */
  predicate Slips(s: Pipe, p: nat) {
    && p < |s.tasks| && s.tasks[p].Busy?
    && if s.tasks[p].phase == Token then !s.tasks[p].op.Clear? && TokenOf(s, s.tasks[p].op).value == 0
       else s.tasks[p].phase == Lock && s.mutex.value == 0
  }

  function Slip(s: Pipe, p: nat): Pipe
    requires Slips(s, p)
  {
    s.(tasks := s.tasks[p := SetPhase(s.tasks[p], if s.tasks[p].phase == Token then Lock else Body)])
  }

  /** Every failed wait breaks the account: a unit too many in flight, or two processes in the critical section. */
  lemma SlipBreaks(s: Pipe, p: nat)
    requires PipeInv(s) && Slips(s, p)
    ensures var s' := Slip(s, p);
            if s.tasks[p].phase == Token
            then s'.readers.value + s'.writers.value + Count(s'.tasks, InFlight) == PIPE_BUFFER_SIZE + 1
            else s'.mutex.value + Count(s'.tasks, HoldsMutex) == 2
    ensures !Balanced(Slip(s, p))
  {
    hide Queues, TasksOk, InOrder, Count;
    CountsSet(s.tasks, p, Slip(s, p).tasks[p]);
  }

  /** On a full pipe whose mutex is free, a write that goes on without its token loses its byte: pipeWrite returns 0. */
  lemma SlippedWriteIsLost(s: Pipe, p: nat, c: char)
    requires p < |s.tasks| && s.tasks[p] == Busy(Write([c]), Token, 0, 0, []) && s.mutex == Sem(1, [])
    requires s.writers.value == 0 && s.ring.count == PIPE_BUFFER_SIZE
    ensures var s' := Run(Slip(s, p), Steps(p, 4));
            && |s'.tasks| == |s.tasks| && s'.tasks[p] == Idle(Returned(Write([c]), 0, [])) && s'.produced == s.produced
  {
    hide Run, Steps;
    RestOfRound(Slip(s, p), p);
  }
}
