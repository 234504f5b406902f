/**
 Whose bytes they are.  A run of the pipe protocol is observed with a record of
 which process stored and which process took each byte: a finished write has
 contributed exactly its own data, in order, and a finished read returns exactly
 the bytes its process took, in order.
 */
module PipeTransfers {
  import opened Options
  import opened RingBuffer
  import opened PipeProtocol
  import opened PipeSafety

  /** A pipe with the author of every byte produced and the taker of every byte consumed. */
  datatype Observed = Observed(pipe: Pipe, authors: seq<nat>, takers: seq<nat>)

  function Unobserved(n: nat): Observed { Observed(Fresh(n), [], []) }

  function Observe(o: Observed, a: Action): Observed {
    var s' := Step(o.pipe, a);
    Observed(s',
             if |s'.produced| > |o.pipe.produced| then o.authors + [a.p] else o.authors,
             if |s'.consumed| > |o.pipe.consumed| then o.takers + [a.p] else o.takers)
  }

  function ObserveRun(o: Observed, actions: seq<Action>): Observed
    decreases |actions|
  {
    if actions == [] then o else ObserveRun(Observe(o, actions[0]), actions[1..])
  }

  /** The bytes of `bytes` that belong to `p`. */
  function By(bytes: seq<char>, who: seq<nat>, p: nat): seq<char>
    decreases |bytes|
  {
    if bytes == [] || |who| != |bytes| then []
    else
      var n := |bytes| - 1;
      By(bytes[..n], who[..n], p) + (if who[n] == p then [bytes[n]] else [])
  }

  predicate EndsWith(s: seq<char>, t: seq<char>) {
    |t| <= |s| && s[|s| - |t|..] == t
  }

  /** What a task has transferred in its current or last call are the latest bytes its process stored or took. */
  predicate Account(t: Task, stored: seq<char>, taken: seq<char>) {
    match t
    case Busy(Write(data), _, _, moved, _) => moved <= |data| && EndsWith(stored, data[..moved])
    case Busy(Read(_), _, _, _, cells) => EndsWith(taken, Delivered(cells))
    case Idle(Returned(Write(data), _, _)) => EndsWith(stored, data)
    case Idle(Returned(Read(_), _, cells)) => EndsWith(taken, Delivered(cells))
    case _ => true
  }

  ghost predicate Sized(o: Observed) {
    |o.authors| == |o.pipe.produced| && |o.takers| == |o.pipe.consumed|
  }

  function StoredBy(o: Observed, p: nat): seq<char> { By(o.pipe.produced, o.authors, p) }

  function TakenBy(o: Observed, p: nat): seq<char> { By(o.pipe.consumed, o.takers, p) }

  ghost predicate Accounts(o: Observed) {
    && Sized(o)
    && forall p :: 0 <= p < |o.pipe.tasks| ==> Account(o.pipe.tasks[p], StoredBy(o, p), TakenBy(o, p))
  }

  lemma ByAppend(bytes: seq<char>, who: seq<nat>, c: char, q: nat, p: nat)
    requires |bytes| == |who|
    ensures By(bytes + [c], who + [q], p) == By(bytes, who, p) + (if q == p then [c] else [])
  {
    assert (bytes + [c])[..|bytes|] == bytes && (who + [q])[..|who|] == who;
  }

  lemma EndsWithAppend(s: seq<char>, t: seq<char>, c: char)
    requires EndsWith(s, t)
    ensures EndsWith(s + [c], t + [c])
  {
  }

  // ---- steps that transfer nothing --------------------------------------

  /** The accounts see neither the phase nor the round. */
  predicate SameAccount(t: Task, t': Task) {
    match t
    case Idle(_) => t' == t
    case Busy(op, _, _, moved, cells) => t'.Busy? && t'.op == op && t'.moved == moved && t'.cells == cells
  }

  /** Nothing transferred, and everybody but `p` has the same account. */
  ghost predicate Still(s: Pipe, s': Pipe, p: nat) {
    && s'.produced == s.produced && s'.consumed == s.consumed && |s'.tasks| == |s.tasks|
    && forall q :: 0 <= q < |s.tasks| && q != p ==> SameAccount(s.tasks[q], s'.tasks[q])
  }

  lemma WakeStill(tasks: seq<Task>, waiters: seq<nat>, ph: Phase)
    ensures |Wake(tasks, waiters, ph)| == |tasks|
    ensures forall q :: 0 <= q < |tasks| ==> SameAccount(tasks[q], Wake(tasks, waiters, ph)[q])
  {
  }

  lemma StepStill(s: Pipe, p: nat)
    requires p < |s.tasks| && CanStep(s.tasks[p]) && s.tasks[p].phase != Body
    ensures Still(s, StepOf(s, p), p)
    ensures var t, t' := s.tasks[p], StepOf(s, p).tasks[p];
            || SameAccount(t, t')
            || t' == Idle(Returned(Clear, 0, []))
            || (t.phase == Signal && t' == NextRound(t))
  {
    hide Wake;
    WakeStill(s.tasks, s.mutex.waiters, Body);
    WakeStill(s.tasks, s.writers.waiters, Lock);
    WakeStill(s.tasks, s.readers.waiters, Lock);
  }

  /** A call that returns has transferred everything it accounts for. */
  lemma NextRoundAccount(t: Task, cleared: bool, stored: seq<char>, taken: seq<char>)
    requires t.Busy? && t.phase == Signal && TaskOk(t, cleared) && Account(t, stored, taken)
    ensures Account(NextRound(t), stored, taken)
  {
    if t.op.Write? && t.round + 1 == |t.op.data| {
      assert t.op.data[..t.moved] == t.op.data;
    }
  }

  lemma StillAccounts(o: Observed, p: nat)
    requires Accounts(o) && p < |o.pipe.tasks| && CanStep(o.pipe.tasks[p]) && o.pipe.tasks[p].phase != Body
    requires TaskOk(o.pipe.tasks[p], o.pipe.cleared)
    ensures Accounts(Observe(o, Advance(p)))
  {
    hide StepOf, By, EndsWith;
    var s, o' := o.pipe, Observe(o, Advance(p));
    StepStill(s, p);
    forall q | 0 <= q < |o'.pipe.tasks| ensures Account(o'.pipe.tasks[q], StoredBy(o', q), TakenBy(o', q)) {
      assert Account(s.tasks[q], StoredBy(o, q), TakenBy(o, q));
      if q == p && s.tasks[p].phase == Signal {
        NextRoundAccount(s.tasks[p], s.cleared, StoredBy(o, p), TakenBy(o, p));
      }
    }
  }

  // ---- the critical section ---------------------------------------------

  lemma BodyAccounts(o: Observed, p: nat)
    requires Accounts(o) && p < |o.pipe.tasks| && o.pipe.tasks[p].Busy? && o.pipe.tasks[p].phase == Body
    requires TaskOk(o.pipe.tasks[p], o.pipe.cleared)
    ensures Accounts(Observe(o, Advance(p)))
  {
    hide By, EndsWith, Contents, Store, Consume, Reset, Delivered;
    var s, t := o.pipe, o.pipe.tasks[p];
    var o' := Observe(o, Advance(p));
    assert o'.pipe == RunBody(s, p);
    forall q | 0 <= q < |s.tasks| ensures Account(o'.pipe.tasks[q], StoredBy(o', q), TakenBy(o', q)) {
      assert Account(s.tasks[q], StoredBy(o, q), TakenBy(o, q));
      if t.op.Write? && s.ring.count < PIPE_BUFFER_SIZE {
        var c := t.op.data[t.round];
        ByAppend(s.produced, o.authors, c, p, q);
        if q == p {
          EndsWithAppend(StoredBy(o, p), t.op.data[..t.moved], c);
          assert t.op.data[..t.moved] + [c] == t.op.data[..t.moved + 1];
        }
        assert q != p ==> StoredBy(o', q) == StoredBy(o, q);
      } else if t.op.Read? && s.ring.count > 0 {
        ByAppend(s.consumed, o.takers, First(s.ring), p, q);
        DeliveredAppend(t.cells, Some(First(s.ring)));
        if q == p { EndsWithAppend(TakenBy(o, p), Delivered(t.cells), First(s.ring)); }
        assert q != p ==> TakenBy(o', q) == TakenBy(o, q);
      } else {
        DeliveredAppend(t.cells, None);
      }
    }
  }

  lemma BeginAccounts(o: Observed, p: nat, op: Op)
    requires Accounts(o) && p < |o.pipe.tasks| && o.pipe.tasks[p].Idle?
    ensures Accounts(Observe(o, Start(p, op)))
  {
    hide By;
    var o' := Observe(o, Start(p, op));
    assert o'.pipe == Begin(o.pipe, p, op);
    forall q | 0 <= q < |o'.pipe.tasks| ensures Account(o'.pipe.tasks[q], StoredBy(o', q), TakenBy(o', q)) {
      assert Account(o.pipe.tasks[q], StoredBy(o, q), TakenBy(o, q));
    }
  }

  lemma ObserveAccounts(o: Observed, a: Action)
    requires Accounts(o) && PipeInv(o.pipe)
    ensures Accounts(Observe(o, a))
  {
    hide Accounts, Account, Queues, Balanced, InOrder, StepOf, Begin;
    if a.p < |o.pipe.tasks| {
      var t := o.pipe.tasks[a.p];
      assert TaskOk(t, o.pipe.cleared);
      if a.Start? && t.Idle? {
        BeginAccounts(o, a.p, a.op);
      } else if a.Advance? && CanStep(t) {
        if t.phase == Body { BodyAccounts(o, a.p); } else { StillAccounts(o, a.p); }
      }
    }
    assert Step(o.pipe, a) == o.pipe ==> Observe(o, a) == o;
  }

  // ---- whole runs -------------------------------------------------------

  lemma {:induction false} ObserveRunAccounts(o: Observed, actions: seq<Action>)
    requires Accounts(o) && PipeInv(o.pipe)
    ensures Accounts(ObserveRun(o, actions)) && ObserveRun(o, actions).pipe == Run(o.pipe, actions)
    decreases |actions|
  {
    hide Accounts, PipeInv, Step;
    if actions != [] {
      ObserveAccounts(o, actions[0]);
      StepKeeps(o.pipe, actions[0]);
      ObserveRunAccounts(Observe(o, actions[0]), actions[1..]);
    }
  }

  /**
   Observing changes nothing, and in every run: the last bytes a returned
   pipeWrite's process put into the pipe are exactly the data of that call, and
   the last bytes a returned pipeRead's process took are exactly those it got.
   */
  lemma TransfersExact(n: nat, actions: seq<Action>, p: nat)
    requires p < n
    ensures var o := ObserveRun(Unobserved(n), actions);
            && o.pipe == Run(Fresh(n), actions) && |o.pipe.tasks| == n
            && |o.authors| == |o.pipe.produced| && |o.takers| == |o.pipe.consumed|
            && match o.pipe.tasks[p]
               case Idle(Returned(Write(data), _, _)) => EndsWith(StoredBy(o, p), data)
               case Idle(Returned(Read(_), _, cells)) => EndsWith(TakenBy(o, p), Delivered(cells))
               case _ => true
  {
    hide PipeInv, Run, ObserveRun, EndsWith, By;
    FreshInv(n);
    ObserveRunAccounts(Unobserved(n), actions);
    RunKeeps(Fresh(n), actions);
    var o := ObserveRun(Unobserved(n), actions);
    assert Account(o.pipe.tasks[p], StoredBy(o, p), TakenBy(o, p));
  }
}
