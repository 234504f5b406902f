/**
 When a read misses a byte.  A clear discards bytes but leaves their tokens with
 the readers; those stale tokens, and nothing else, let a read section find the
 pipe empty.  The number of stale tokens is an exact account over every run.
 */
module PipeStaleness {
  import opened Options
  import opened Tallies
  import opened Semaphores
  import opened RingBuffer
  import opened PipeProtocol
  import opened PipeSafety

  /** Tokens announced or owed to readers, less the bytes that are there. */
  function Stale(s: Pipe): int {
    s.readers.value + Count(s.tasks, ByteOwed) - s.ring.count
  }

  /** The action is the critical section of `p`. */
  predicate Enters(s: Pipe, a: Action) {
    a.Advance? && a.p < |s.tasks| && s.tasks[a.p].Busy? && s.tasks[a.p].phase == Body
  }

  /** The bytes a step discards: all that are stored, if it is the section of a clear. */
  function Discarded(s: Pipe, a: Action): nat {
    if Enters(s, a) && s.tasks[a.p].op.Clear? then s.ring.count else 0
  }

  /** Is the step a read section that finds the pipe empty? */
  function Missed(s: Pipe, a: Action): nat {
    if Enters(s, a) && s.tasks[a.p].op.Read? && s.ring.count == 0 then 1 else 0
  }

  // ---- one step ---------------------------------------------------------

  lemma BodyStale(s: Pipe, p: nat)
    requires PipeInv(s) && At(s, p, Body)
    ensures Stale(RunBody(s, p)) == Stale(s) + Discarded(s, Advance(p)) - Missed(s, Advance(p))
  {
    hide Queues, TasksOk, InOrder, Count;
    CountsSet(s.tasks, p, RunBody(s, p).tasks[p]);
    if s.tasks[p].op.Write? { RoomToWrite(s, p); }
  }

  lemma TokenStale(s: Pipe, p: nat)
    requires At(s, p, Token) && !s.tasks[p].op.Clear?
    ensures Stale(TakeToken(s, p)) == Stale(s)
  {
    hide Count;
    CountsSet(s.tasks, p, TakeToken(s, p).tasks[p]);
  }

  lemma LockStale(s: Pipe, p: nat)
    requires At(s, p, Lock)
    ensures Stale(TakeLock(s, p)) == Stale(s)
  {
    hide Count;
    CountsSet(s.tasks, p, TakeLock(s, p).tasks[p]);
  }

  lemma UnlockStale(s: Pipe, p: nat)
    requires PipeInv(s) && At(s, p, Unlock)
    ensures Stale(DropLock(s, p)) == Stale(s)
  {
    hide Queued, Count, TasksOk, InOrder, Balanced;
    var m := s.mutex;
    QueuePost(m, s.tasks, Body, OnMutex);
    if m.waiters != [] { CountsSet(s.tasks, m.waiters[0], SetPhase(s.tasks[m.waiters[0]], Body)); }
    CountsSet(Wake(s.tasks, m.waiters, Body), p, DropLock(s, p).tasks[p]);
  }

  lemma SignalStale(s: Pipe, p: nat)
    requires PipeInv(s) && At(s, p, Signal) && !s.tasks[p].op.Clear?
    ensures Stale(GiveToken(s, p)) == Stale(s)
  {
    hide PipeInv, Stale, GiveToken;
    if s.tasks[p].op.Read? { SignalWriterStale(s, p); } else { SignalReaderStale(s, p); }
  }

  lemma SignalWriterStale(s: Pipe, p: nat)
    requires PipeInv(s) && At(s, p, Signal) && s.tasks[p].op.Read?
    ensures Stale(GiveToken(s, p)) == Stale(s)
  {
    hide Queued, Count, TasksOk, InOrder, Balanced;
    var w := s.writers;
    QueuePost(w, s.tasks, Lock, OnWriters);
    if w.waiters != [] { CountsSet(s.tasks, w.waiters[0], SetPhase(s.tasks[w.waiters[0]], Lock)); }
    CountsSet(Wake(s.tasks, w.waiters, Lock), p, NextRound(s.tasks[p]));
  }

  lemma SignalReaderStale(s: Pipe, p: nat)
    requires PipeInv(s) && At(s, p, Signal) && s.tasks[p].op.Write?
    ensures Stale(GiveToken(s, p)) == Stale(s)
  {
    hide Queued, Count, TasksOk, InOrder;
    var r := s.readers;
    QueuePost(r, s.tasks, Lock, OnReaders);
    if r.waiters != [] { CountsSet(s.tasks, r.waiters[0], SetPhase(s.tasks[r.waiters[0]], Lock)); }
    CountsSet(Wake(s.tasks, r.waiters, Lock), p, NextRound(s.tasks[p]));
  }

  lemma BeginStale(s: Pipe, p: nat, op: Op)
    requires p < |s.tasks| && s.tasks[p].Idle?
    ensures Stale(Begin(s, p, op)) == Stale(s)
  {
    hide Count;
    BeginTask(s, p, op);
    CountsSet(s.tasks, p, Begin(s, p, op).tasks[p]);
  }

  /**
   A clear adds the bytes it discards, a missed round uses up one, and no other
   step changes the number of stale tokens.
   */
  lemma StepStale(s: Pipe, a: Action)
    requires PipeInv(s)
    ensures Stale(Step(s, a)) == Stale(s) + Discarded(s, a) - Missed(s, a)
  {
    hide Queues, Balanced, InOrder, Stale, Begin, StepOf;
    if a.p < |s.tasks| {
      var t := s.tasks[a.p];
      assert TaskOk(t, s.cleared);
      if a.Start? {
        if t.Idle? { BeginStale(s, a.p, a.op); }
      } else if CanStep(t) {
        AdvanceStale(s, a.p);
      }
    }
  }

  lemma AdvanceStale(s: Pipe, p: nat)
    requires PipeInv(s) && p < |s.tasks| && CanStep(s.tasks[p])
    ensures Stale(StepOf(s, p)) == Stale(s) + Discarded(s, Advance(p)) - Missed(s, Advance(p))
  {
    hide Queues, Balanced, InOrder, Stale;
    assert TaskOk(s.tasks[p], s.cleared);
    match s.tasks[p].phase {
      case Token => TokenStale(s, p);
      case Lock => LockStale(s, p);
      case Body => BodyStale(s, p);
      case Unlock => UnlockStale(s, p);
      case Signal => SignalStale(s, p);
    }
  }

  /** With no stale token, a read section finds a byte. */
  lemma FreshFindsByte(s: Pipe, p: nat)
    requires PipeInv(s) && Stale(s) == 0 && At(s, p, Body) && s.tasks[p].op.Read?
    ensures s.ring.count > 0
  {
    hide Queues, TasksOk, InOrder;
    CountAtLeast(s.tasks, p, ByteOwed);
  }

  lemma NeverNegative(s: Pipe)
    requires PipeInv(s)
    ensures Stale(s) >= 0
  {
    hide Queues, TasksOk, InOrder;
  }

  // ---- whole runs -------------------------------------------------------

  function AllDiscarded(s: Pipe, actions: seq<Action>): nat
    decreases |actions|
  {
    if actions == [] then 0 else Discarded(s, actions[0]) + AllDiscarded(Step(s, actions[0]), actions[1..])
  }

  function AllMissed(s: Pipe, actions: seq<Action>): nat
    decreases |actions|
  {
    if actions == [] then 0 else Missed(s, actions[0]) + AllMissed(Step(s, actions[0]), actions[1..])
  }

  lemma {:induction false} RunStale(s: Pipe, actions: seq<Action>)
    requires PipeInv(s)
    ensures Stale(Run(s, actions)) == Stale(s) + AllDiscarded(s, actions) - AllMissed(s, actions)
    ensures PipeInv(Run(s, actions))
    decreases |actions|
  {
    hide PipeInv, Step, Stale, Discarded, Missed;
    if actions != [] {
      StepStale(s, actions[0]);
      StepKeeps(s, actions[0]);
      RunStale(Step(s, actions[0]), actions[1..]);
    }
  }

  /**
   Every run from an open, empty pipe: the bytes discarded by clears are the rounds
   that missed their byte plus the stale tokens left.  So some round misses if and
   only if clears discarded more bytes than there are stale tokens.
   */
  lemma DiscardedIsMissed(n: nat, actions: seq<Action>)
    ensures var s := Run(Fresh(n), actions);
            && AllDiscarded(Fresh(n), actions) == AllMissed(Fresh(n), actions) + Stale(s) && Stale(s) >= 0
            && (AllMissed(Fresh(n), actions) > 0 <==> AllDiscarded(Fresh(n), actions) > Stale(s))
  {
    hide PipeInv, Run, AllDiscarded, AllMissed, Stale;
    FreshInv(n);
    FreshStale(n);
    RunStale(Fresh(n), actions);
    NeverNegative(Run(Fresh(n), actions));
  }

  lemma FreshStale(n: nat)
    ensures Stale(Fresh(n)) == 0
  {
    CountZero(Fresh(n).tasks, ByteOwed);
  }

  // ---- reads in a fresh stretch -----------------------------------------

  /** Every round of the call so far, or of the call that returned, got its byte. */
  predicate AllWritten(t: Task) {
    match t
    case Busy(Read(_), _, _, _, cells) => forall i :: 0 <= i < |cells| ==> cells[i].Some?
    case Idle(Returned(Read(_), _, cells)) => forall i :: 0 <= i < |cells| ==> cells[i].Some?
    case _ => true
  }

  lemma StepWritten(s: Pipe, a: Action, p: nat)
    requires PipeInv(s) && Stale(s) == 0 && p < |s.tasks| && AllWritten(s.tasks[p])
    ensures |Step(s, a).tasks| == |s.tasks| && AllWritten(Step(s, a).tasks[p])
  {
    hide Queues, Balanced, InOrder, Stale, StepOf, Begin, AllWritten;
    if a.p < |s.tasks| {
      var t := s.tasks[a.p];
      if a.Start? && t.Idle? {
        BeginWritten(s, a.p, a.op, p);
      } else if a.Advance? && CanStep(t) {
        if t.phase == Body {
          if t.op.Read? { FreshFindsByte(s, a.p); }
          BodyWritten(s, a.p, p);
        } else {
          OtherWritten(s, a.p, p);
        }
      }
    }
  }

  lemma BeginWritten(s: Pipe, q: nat, op: Op, p: nat)
    requires q < |s.tasks| && p < |s.tasks| && s.tasks[q].Idle? && AllWritten(s.tasks[p])
    ensures |Begin(s, q, op).tasks| == |s.tasks| && AllWritten(Begin(s, q, op).tasks[p])
  {
  }

  lemma BodyWritten(s: Pipe, q: nat, p: nat)
    requires q < |s.tasks| && p < |s.tasks| && s.tasks[q].Busy? && s.tasks[q].phase == Body && AllWritten(s.tasks[p])
    requires s.tasks[q].op.Read? ==> s.ring.count > 0
    ensures |StepOf(s, q).tasks| == |s.tasks| && AllWritten(StepOf(s, q).tasks[p])
  {
    hide Store, Consume, Reset, First;
  }

  lemma OtherWritten(s: Pipe, q: nat, p: nat)
    requires q < |s.tasks| && p < |s.tasks| && CanStep(s.tasks[q]) && s.tasks[q].phase != Body && AllWritten(s.tasks[p])
    ensures |StepOf(s, q).tasks| == |s.tasks| && AllWritten(StepOf(s, q).tasks[p])
  {
    hide Wait, Post;
  }

  lemma {:induction false} StretchWritten(s: Pipe, actions: seq<Action>, p: nat)
    requires PipeInv(s) && Stale(s) == 0 && AllDiscarded(s, actions) == 0 && p < |s.tasks| && AllWritten(s.tasks[p])
    ensures |Run(s, actions).tasks| == |s.tasks| && AllWritten(Run(s, actions).tasks[p])
    ensures PipeInv(Run(s, actions)) && AllMissed(s, actions) == 0 && Stale(Run(s, actions)) == 0
    decreases |actions|
  {
    hide PipeInv, Step, Stale, Discarded, Missed, AllWritten;
    if actions != [] {
      StepStale(s, actions[0]);
      StepKeeps(s, actions[0]);
      NeverNegative(Step(s, actions[0]));
      StepWritten(s, actions[0], p);
      StretchWritten(Step(s, actions[0]), actions[1..], p);
    }
  }

  /**
   The condition a reader can rely on: a read that starts when no token is stale,
   in a stretch in which no clear discards a byte, writes every cell and returns
   the full size.  It need not be the first call on the pipe, and clears of an
   empty pipe do no harm.
   */
  lemma FreshReadComplete(s: Pipe, p: nat, size: nat, rest: seq<Action>)
    requires PipeInv(s) && Stale(s) == 0 && p < |s.tasks| && s.tasks[p].Idle? && size > 0
    requires AllDiscarded(s, [Start(p, Read(size))] + rest) == 0
    ensures var s' := Run(s, [Start(p, Read(size))] + rest);
            && |s'.tasks| == |s.tasks|
            && match s'.tasks[p]
               case Idle(Returned(Read(n), result, cells)) =>
                 n > 0 ==> result == |cells| == n && forall i :: 0 <= i < n ==> cells[i].Some?
               case Busy(Read(_), _, _, _, cells) => forall i :: 0 <= i < |cells| ==> cells[i].Some?
               case _ => true
  {
    hide PipeInv, Run, Stale, Delivered;
    var a := Start(p, Read(size));
    assert ([a] + rest)[1..] == rest;
    var s1 := Step(s, a);
    RunOne(s, a, rest);
    StepStale(s, a);
    StepKeeps(s, a);
    StretchWritten(s1, rest, p);
    ReadCounts(Run(s1, rest), p);
  }

  lemma RunOne(s: Pipe, a: Action, rest: seq<Action>)
    ensures Run(s, [a] + rest) == Run(Step(s, a), rest)
    ensures AllDiscarded(s, [a] + rest) == Discarded(s, a) + AllDiscarded(Step(s, a), rest)
  {
    hide Step, Discarded;
    assert ([a] + rest)[1..] == rest;
  }

  /** A returned read whose cells are all written got as many bytes as it asked for. */
  lemma ReadCounts(s: Pipe, p: nat)
    requires PipeInv(s) && p < |s.tasks| && AllWritten(s.tasks[p])
    ensures match s.tasks[p]
            case Idle(Returned(Read(n), result, cells)) => n > 0 ==> result == |cells| == n
            case _ => true
  {
    hide Queues, Balanced, InOrder, Delivered;
    assert TaskOk(s.tasks[p], s.cleared);
    match s.tasks[p]
    case Idle(Returned(Read(_), _, cells)) => AllSomeDelivered(cells);
    case _ =>
  }

  lemma {:induction false} AllSomeDelivered(cells: seq<Option<char>>)
    requires forall i :: 0 <= i < |cells| ==> cells[i].Some?
    ensures |Delivered(cells)| == |cells|
  {
    if cells != [] { AllSomeDelivered(cells[..|cells| - 1]); }
  }
}
