/** The converse: on a quiet pipe with a stale token, a read can miss its byte though nothing is cleared any more. */
module StaleReads {
  import opened Tallies
  import opened Semaphores
  import opened RingBuffer
  import opened PipeProtocol
  import opened PipeSafety
  import opened PipeBuffers
  import opened PipeStaleness

  /** Nobody is inside a call. */
  ghost predicate Quiet(s: Pipe) {
    forall q :: 0 <= q < |s.tasks| ==> s.tasks[q].Idle?
  }

  /** Only `p` is inside a call, about to take the token of a round that is not its last. */
  ghost predicate Alone(s: Pipe, p: nat) {
    && p < |s.tasks| && (forall q :: 0 <= q < |s.tasks| && q != p ==> s.tasks[q].Idle?)
    && s.mutex == Sem(1, []) && s.readers.waiters == [] && s.writers.waiters == []
    && s.readers.value + s.writers.value == PIPE_BUFFER_SIZE
    && s.tasks[p].Busy? && s.tasks[p].op.Read? && s.tasks[p].phase == Token
  }

  /** The state after an undisturbed round. */
  lemma LoneRound(s: Pipe, p: nat)
    requires Alone(s, p) && s.readers.value > 0 && s.tasks[p].round + 1 < s.tasks[p].op.size
    ensures var s', t := Run(s, Steps(p, 5)), s.tasks[p];
            && |s'.tasks| == |s.tasks| && (forall q :: 0 <= q < |s.tasks| && q != p ==> s'.tasks[q] == s.tasks[q])
            && s'.mutex == Sem(1, []) && s'.readers == Sem(s.readers.value - 1, [])
            && s'.writers == Sem((s.writers.value + 1) % WORD, [])
            && s'.ring.count == (if s.ring.count > 0 then s.ring.count - 1 else 0)
            && s'.tasks[p].Busy? && s'.tasks[p].op == t.op
            && s'.tasks[p].phase == Token && s'.tasks[p].round == t.round + 1
  {
    hide Run, Steps, RunBody, GiveToken, Consume;
    var s1 := TakeToken(s, p);
    assert Step(s, Advance(p)) == s1;
    RunNext(s, p, 5);
    RestOfRound(s1, p);
    LoneRest(s1, p);
  }

  lemma LoneRest(s: Pipe, p: nat)
    requires p < |s.tasks| && s.tasks[p].Busy? && s.tasks[p].op.Read? && s.tasks[p].phase == Lock
    requires s.writers.waiters == [] && s.tasks[p].round + 1 < s.tasks[p].op.size
    ensures |RunBody(s, p).tasks| == |s.tasks| && RunBody(s, p).tasks[p].Busy?
    ensures var b, t := RunBody(s, p), s.tasks[p];
            var s' := GiveToken(b.(tasks := b.tasks[p := SetPhase(b.tasks[p], Signal)]), p);
            && |s'.tasks| == |s.tasks| && (forall q :: 0 <= q < |s.tasks| && q != p ==> s'.tasks[q] == s.tasks[q])
            && s'.mutex == s.mutex && s'.readers == s.readers
            && s'.writers == Sem((s.writers.value + 1) % WORD, [])
            && s'.ring.count == (if s.ring.count > 0 then s.ring.count - 1 else 0)
            && s'.tasks[p].Busy? && s'.tasks[p].op == t.op
            && s'.tasks[p].phase == Token && s'.tasks[p].round == t.round + 1
  {
  }

  /** `k` undisturbed rounds take `k` tokens and as many bytes as there are. */
  lemma {:induction false} Drain(s: Pipe, p: nat, k: nat)
    requires Alone(s, p) && s.readers.value >= k && s.tasks[p].round + k < s.tasks[p].op.size
    ensures var s' := Run(s, Steps(p, 5 * k));
            && |s'.tasks| == |s.tasks| && Alone(s', p) && s'.readers.value == s.readers.value - k
            && s'.ring.count == if s.ring.count > k then s.ring.count - k else 0
    decreases k
  {
    hide Run, Steps;
    if k == 0 {
      RunNone(s, p);
    } else {
      LoneRound(s, p);
      var s1 := Run(s, Steps(p, 5));
      Drain(s1, p, k - 1);
      StepsConcat(p, 5, 5 * (k - 1));
      RunConcat(s, Steps(p, 5), Steps(p, 5 * (k - 1)));
    }
  }

  /** The steps of a read discard nothing. */
  lemma {:induction false} ReadsDiscardNothing(s: Pipe, p: nat, k: nat)
    requires p < |s.tasks| && (s.tasks[p].Busy? ==> s.tasks[p].op.Read?)
    ensures AllDiscarded(s, Steps(p, k)) == 0
    decreases k
  {
    hide Step;
    if k > 0 {
      assert Steps(p, k)[1..] == Steps(p, k - 1);
      StillReading(s, p);
      ReadsDiscardNothing(Step(s, Advance(p)), p, k - 1);
    }
  }

  lemma StillReading(s: Pipe, p: nat)
    requires p < |s.tasks| && (s.tasks[p].Busy? ==> s.tasks[p].op.Read?)
    ensures var s' := Step(s, Advance(p)); p < |s'.tasks| && (s'.tasks[p].Busy? ==> s'.tasks[p].op.Read?)
  {
    hide Consume, First, Wait, Post;
  }

  /** A quiet pipe: the mutex is free, nobody waits and nobody owes. */
  lemma QuietPipe(s: Pipe)
    requires PipeInv(s) && Quiet(s)
    ensures s.mutex == Sem(1, []) && s.readers.waiters == [] && s.writers.waiters == []
    ensures s.readers.value + s.writers.value == PIPE_BUFFER_SIZE && Stale(s) == s.readers.value - s.ring.count
  {
    hide InOrder, TasksOk;
    QuietNobodyInFlight(s);
    HeadIsMember(s.readers.waiters);
    HeadIsMember(s.writers.waiters);
  }

  lemma HeadIsMember(s: seq<nat>)
    ensures s == [] || s[0] in s
  {
  }

  /** A read long enough to outlast the bytes, and its rounds up to the first miss. */
  function MissingScript(s: Pipe, p: nat): seq<Action> {
    Calls(p, Read(s.ring.count + 2), 5 * (s.ring.count + 1))
  }

  /** One process reading on takes the bytes, then meets a stale token. */
  lemma StaleMisses(s: Pipe, p: nat)
    requires PipeInv(s) && Quiet(s) && p < |s.tasks| && Stale(s) > 0
    ensures AllDiscarded(s, MissingScript(s, p)) == 0 && AllMissed(s, MissingScript(s, p)) == 1
  {
    hide PipeInv, Run, Steps, AllDiscarded, AllMissed, Step;
    var k, op := s.ring.count + 1, Read(s.ring.count + 2);
    var s1 := Begin(s, p, op);
    QuietPipe(s);
    BeginsAlone(s, p, op);
    RunCall(s, p, op, 5 * k);
    RunOne(s, Start(p, op), Steps(p, 5 * k));
    Drain(s1, p, k);
    ReadsDiscardNothing(s1, p, 5 * k);
    RunStale(s, MissingScript(s, p));
    var s' := Run(s, MissingScript(s, p));
    AloneOwesNothing(s', p);
  }

  lemma BeginsAlone(s: Pipe, p: nat, op: Op)
    requires Quiet(s) && p < |s.tasks| && op.Read? && op.size > 0
    requires s.mutex == Sem(1, []) && s.readers.waiters == [] && s.writers.waiters == []
    requires s.readers.value + s.writers.value == PIPE_BUFFER_SIZE
    ensures Alone(Begin(s, p, op), p) && Step(s, Start(p, op)) == Begin(s, p, op)
    ensures Begin(s, p, op).tasks[p] == Busy(op, Token, 0, 0, []) && Discarded(s, Start(p, op)) == 0
    ensures Begin(s, p, op).readers == s.readers && Begin(s, p, op).ring == s.ring
  {
  }

  lemma AloneOwesNothing(s: Pipe, p: nat)
    requires Alone(s, p)
    ensures Stale(s) == s.readers.value - s.ring.count
  {
    CountZero(s.tasks, ByteOwed);
  }

  /**
   The exact condition on a quiet pipe: no token is stale if and only if no read
   can miss its byte as long as no clear discards any.
   */
  lemma QuietExactly(s: Pipe, p: nat)
    requires PipeInv(s) && Quiet(s) && p < |s.tasks|
    ensures Stale(s) == 0 <==> forall actions :: AllDiscarded(s, actions) == 0 ==> AllMissed(s, actions) == 0
  {
    hide PipeInv, AllDiscarded, AllMissed, Stale;
    NeverNegative(s);
    if Stale(s) == 0 {
      forall actions | AllDiscarded(s, actions) == 0 ensures AllMissed(s, actions) == 0 {
        RunStale(s, actions);
        NeverNegative(Run(s, actions));
      }
    } else {
      StaleMisses(s, p);
    }
  }
}
