/**
 Where the bytes of a read end up.  pipeRead stores the byte of round i in cell i
 of the caller's buffer and returns how many bytes it got; a round that meets an
 emptied pipe stores nothing, so the bytes need not be the first cells.
 */
module PipeBuffers {
  import opened Options
  import opened Semaphores
  import opened RingBuffer
  import opened PipeProtocol
  import opened PipeSafety
  import opened PipeTransfers

  /** The first cells of the buffer hold `bytes`, as a caller who is told their number expects. */
  ghost predicate HoldsPrefix(cells: seq<Option<char>>, bytes: seq<char>) {
    |bytes| <= |cells| && forall i :: 0 <= i < |bytes| ==> cells[i] == Some(bytes[i])
  }

  /** No round that missed its byte comes before one that got it. */
  ghost predicate NoHoles(cells: seq<Option<char>>) {
    forall i, j :: 0 <= i < j < |cells| && cells[j].Some? ==> cells[i].Some?
  }

  /** Written cells deliver one byte each. */
  lemma {:induction false} PrefixCount(cells: seq<Option<char>>, m: nat)
    requires m <= |cells| && forall i :: 0 <= i < m ==> cells[i].Some?
    ensures |Delivered(cells)| >= m
    ensures m == |cells| ==> |Delivered(cells)| == m
  {
    if cells != [] {
      var n := |cells| - 1;
      PrefixCount(cells[..n], if m <= n then m else n);
    }
  }

  /** All delivered means all written. */
  lemma {:induction false} FullIsWritten(cells: seq<Option<char>>)
    requires |Delivered(cells)| == |cells|
    ensures forall i :: 0 <= i < |cells| ==> cells[i].Some?
  {
    if cells != [] { FullIsWritten(cells[..|cells| - 1]); }
  }

  /** The bytes delivered are the first cells if and only if no missed round precedes a successful one. */
  lemma {:induction false} PrefixIffNoHoles(cells: seq<Option<char>>)
    ensures HoldsPrefix(cells, Delivered(cells)) <==> NoHoles(cells)
  {
    if cells != [] {
      var n := |cells| - 1;
      var front, d := cells[..n], Delivered(cells[..n]);
      PrefixIffNoHoles(front);
      if cells[n].None? {
        SameWithoutLast(cells, d);
      } else {
        LastWritten(cells, d);
      }
    }
  }

  lemma SameWithoutLast(cells: seq<Option<char>>, d: seq<char>)
    requires |cells| > 0 && cells[|cells| - 1].None? && |d| < |cells|
    ensures HoldsPrefix(cells, d) <==> HoldsPrefix(cells[..|cells| - 1], d)
    ensures NoHoles(cells) <==> NoHoles(cells[..|cells| - 1])
  {
    var front := cells[..|cells| - 1];
    if NoHoles(cells) {
      forall i, j | 0 <= i < j < |front| && front[j].Some? ensures front[i].Some? { assert cells[j].Some?; }
    }
    if NoHoles(front) {
      forall i, j | 0 <= i < j < |cells| && cells[j].Some? ensures cells[i].Some? { assert front[j].Some?; }
    }
  }

  lemma LastWritten(cells: seq<Option<char>>, d: seq<char>)
    requires |cells| > 0 && cells[|cells| - 1].Some? && d == Delivered(cells[..|cells| - 1])
    requires HoldsPrefix(cells[..|cells| - 1], d) <==> NoHoles(cells[..|cells| - 1])
    ensures HoldsPrefix(cells, d + [cells[|cells| - 1].value]) <==> NoHoles(cells)
  {
    hide Delivered;
    var n := |cells| - 1;
    var front, bytes := cells[..n], d + [cells[n].value];
    if NoHoles(cells) {
      forall i | 0 <= i < n ensures front[i].Some? { assert cells[i].Some?; }
      PrefixCount(front, n);
      assert NoHoles(front);
    }
    if HoldsPrefix(cells, bytes) {
      forall i | 0 <= i < |bytes| ensures cells[i].Some? { assert cells[i] == Some(bytes[i]); }
      if |d| < n { PrefixCount(front, |d| + 1); }
    }
  }

  /** The last `k` bytes. */
  function Latest(s: seq<char>, k: int): seq<char> {
    if 0 <= k <= |s| then s[|s| - k..] else s
  }

  /**
   Every run: a returned pipeRead went over all the cells asked for, and its
   first `result` cells hold the bytes its process took, in order, if and only if
   no missed round precedes a successful one.  Without clears no round misses.
   */
  lemma BufferExact(n: nat, actions: seq<Action>, p: nat)
    requires p < n
    ensures var o := ObserveRun(Unobserved(n), actions);
            && o.pipe == Run(Fresh(n), actions) && |o.pipe.tasks| == n
            && match o.pipe.tasks[p]
               case Idle(Returned(Read(size), result, cells)) =>
                 size > 0 ==>
                   && |cells| == size && 0 <= result <= |TakenBy(o, p)|
                   && (HoldsPrefix(cells, Latest(TakenBy(o, p), result)) <==> NoHoles(cells))
                   && (NoClears(actions) ==> result == size && forall i :: 0 <= i < size ==> cells[i].Some?)
               case _ => true
  {
    hide PipeInv, Run, ObserveRun, By, Delivered, NoClears, HoldsPrefix, NoHoles;
    TransfersExact(n, actions, p);
    ReturnedRead(n, actions, p);
    var o := ObserveRun(Unobserved(n), actions);
    match o.pipe.tasks[p]
    case Idle(Returned(Read(size), result, cells)) =>
      if size > 0 {
        assert Latest(TakenBy(o, p), result) == Delivered(cells);
        PrefixIffNoHoles(cells);
        if NoClears(actions) { FullIsWritten(cells); }
      }
    case _ =>
  }

  lemma ReturnedRead(n: nat, actions: seq<Action>, p: nat)
    requires p < n
    ensures |Run(Fresh(n), actions).tasks| == n
    ensures match Run(Fresh(n), actions).tasks[p]
            case Idle(Returned(Read(size), result, cells)) =>
              size > 0 ==> result == |Delivered(cells)| && |cells| == size && (NoClears(actions) ==> result == size)
            case _ => true
  {
    hide Queues, Balanced, InOrder, Run, Delivered, NoClears;
    FreshInv(n);
    RunKeeps(Fresh(n), actions);
    if NoClears(actions) { RunUnclearing(Fresh(n), actions); }
    assert TaskOk(Run(Fresh(n), actions).tasks[p], Run(Fresh(n), actions).cleared);
  }

  // ---- a read that meets a clear ----------------------------------------

  function Steps(p: nat, k: nat): seq<Action> {
    if k == 0 then [] else [Advance(p)] + Steps(p, k - 1)
  }

  /** Process `p` issues a call and takes `k` steps of it. */
  function Calls(p: nat, op: Op, k: nat): seq<Action> { [Start(p, op)] + Steps(p, k) }

  lemma {:induction false} RunConcat(s: Pipe, a: seq<Action>, b: seq<Action>)
    ensures Run(s, a + b) == Run(Run(s, a), b)
    decreases |a|
  {
    hide Step;
    if a == [] {
      assert a + b == b;
    } else {
      assert (a + b)[1..] == a[1..] + b;
      RunConcat(Step(s, a[0]), a[1..], b);
    }
  }

  lemma RunNext(s: Pipe, p: nat, k: nat)
    requires k > 0
    ensures Run(s, Steps(p, k)) == Run(Step(s, Advance(p)), Steps(p, k - 1))
  {
    hide Step;
    assert Steps(p, k)[1..] == Steps(p, k - 1);
  }

  lemma RunCall(s: Pipe, p: nat, op: Op, k: nat)
    ensures Run(s, Calls(p, op, k)) == Run(Step(s, Start(p, op)), Steps(p, k))
  {
    hide Step;
    assert Calls(p, op, k)[1..] == Steps(p, k);
  }

  lemma RunNone(s: Pipe, p: nat)
    ensures Run(s, Steps(p, 0)) == s
  {
  }

  /** A process after the mutex is given back. */
  function AfterUnlock(t: Task): Task
    requires t.Busy?
  {
    if t.op.Clear? then Idle(Returned(Clear, 0, [])) else SetPhase(t, Signal)
  }

  /** Nobody in the way: taking the mutex, the critical section and giving the mutex back. */
  lemma CriticalSection(s: Pipe, p: nat)
    requires p < |s.tasks| && s.tasks[p].Busy? && s.tasks[p].phase == Lock && s.mutex == Sem(1, [])
    ensures var b := RunBody(s, p);
            && |b.tasks| == |s.tasks| && b.tasks[p].Busy?
            && Run(s, Steps(p, 3)) == b.(tasks := b.tasks[p := AfterUnlock(b.tasks[p])])
  {
    hide Run, Steps;
    var s1 := TakeLock(s, p);
    LockedBody(s, p);
    var s2 := RunBody(s1, p);
    assert Step(s, Advance(p)) == s1;
    RunNext(s, p, 3);
    assert Step(s1, Advance(p)) == s2;
    RunNext(s1, p, 2);
    assert Step(s2, Advance(p)) == DropLock(s2, p);
    RunNext(s2, p, 1);
    RunNone(DropLock(s2, p), p);
  }

  /** The section itself does not look at the mutex. */
  lemma LockedBody(s: Pipe, p: nat)
    requires p < |s.tasks| && s.tasks[p].Busy? && s.tasks[p].phase == Lock && s.mutex == Sem(1, [])
    ensures var s1, b := TakeLock(s, p), RunBody(s, p);
            && |s1.tasks| == |b.tasks| == |s.tasks| && s1.tasks[p].Busy? && s1.tasks[p].phase == Body
            && RunBody(s1, p) == b.(mutex := Sem(0, []))
            && b.tasks[p].Busy? && b.tasks[p].phase == Unlock && b.mutex == Sem(1, [])
            && DropLock(RunBody(s1, p), p) == b.(tasks := b.tasks[p := AfterUnlock(b.tasks[p])])
  {
  }

  lemma {:induction false} StepsConcat(p: nat, j: nat, k: nat)
    ensures Steps(p, j + k) == Steps(p, j) + Steps(p, k)
  {
    if j > 0 { StepsConcat(p, j - 1, k); }
  }

  /** The rest of a round after its token: the critical section and the post for the other side. */
  lemma RestOfRound(s: Pipe, p: nat)
    requires p < |s.tasks| && s.tasks[p].Busy? && !s.tasks[p].op.Clear? && s.tasks[p].phase == Lock
              && s.mutex == Sem(1, [])
    ensures var b := RunBody(s, p);
            && |b.tasks| == |s.tasks| && b.tasks[p].Busy?
            && Run(s, Steps(p, 4)) == GiveToken(b.(tasks := b.tasks[p := SetPhase(b.tasks[p], Signal)]), p)
  {
    hide Run, Steps, RunBody, GiveToken;
    CriticalSection(s, p);
    LockedBody(s, p);
    BodySameCall(s, p);
    StepsConcat(p, 3, 1);
    RunConcat(s, Steps(p, 3), Steps(p, 1));
    var s3 := Run(s, Steps(p, 3));
    RunNext(s3, p, 1);
    RunNone(GiveToken(s3, p), p);
  }

  lemma BodySameCall(s: Pipe, p: nat)
    requires p < |s.tasks| && s.tasks[p].Busy?
    ensures |RunBody(s, p).tasks| == |s.tasks| && RunBody(s, p).tasks[p].Busy?
              && RunBody(s, p).tasks[p].op == s.tasks[p].op
  {
    hide Store, Consume, Reset;
  }

  /** Entering a call and taking its first token. */
  lemma FirstSteps(s: Pipe, p: nat, op: Op)
    requires p < |s.tasks| && s.tasks[p].Idle? && !op.Clear? && Rounds(op) > 0
    ensures Step(s, Start(p, op)) == Begin(s, p, op)
    ensures var s0 := Begin(s, p, op);
            && |s0.tasks| == |s.tasks| && s0.tasks[p] == Busy(op, Token, 0, 0, []) && s0.mutex == s.mutex
            && Step(s0, Advance(p)) == TakeToken(s0, p)
            && |TakeToken(s0, p).tasks| == |s.tasks| && TakeToken(s0, p).mutex == s.mutex
            && ((if op.Read? then s.readers.value else s.writers.value) > 0 ==>
                  TakeToken(s0, p).tasks[p] == Busy(op, Lock, 0, 0, []))
  {
  }

  /** An unhindered write of one byte; the first reader waiting for data gets its token. */
  lemma WriteByte(s: Pipe, p: nat, c: char)
    requires p < |s.tasks| && s.tasks[p].Idle? && s.mutex == Sem(1, [])
    requires s.writers.value > 0 && s.writers.waiters == [] && s.ring.count < PIPE_BUFFER_SIZE
    requires s.readers.waiters != [] ==> s.readers.waiters[0] != p
    ensures Run(s, Calls(p, Write([c]), 5)) ==
            s.(ring := Store(s.ring, c), writers := Sem(s.writers.value - 1, []), readers := Post(s.readers),
               produced := s.produced + [c],
               tasks := Wake(s.tasks, s.readers.waiters, Lock)[p := Idle(Returned(Write([c]), 1, []))])
  {
    hide Run, Steps, Calls, RunBody, GiveToken, Wake, Store, Post, TakeToken, Begin, Step;
    RunCall(s, p, Write([c]), 5);
    FirstSteps(s, p, Write([c]));
    RunNext(Begin(s, p, Write([c])), p, 5);
    RestOfRound(TakeToken(Begin(s, p, Write([c])), p), p);
    WriteRound(s, p, c);
  }

  /** The state after that write. */
  lemma WriteRound(s: Pipe, p: nat, c: char)
    requires p < |s.tasks| && s.tasks[p].Idle? && s.mutex == Sem(1, [])
    requires s.writers.value > 0 && s.writers.waiters == [] && s.ring.count < PIPE_BUFFER_SIZE
    requires s.readers.waiters != [] ==> s.readers.waiters[0] != p
    ensures var b := RunBody(TakeToken(Begin(s, p, Write([c])), p), p);
            && |b.tasks| == |s.tasks| && b.tasks[p].Busy?
            && GiveToken(b.(tasks := b.tasks[p := SetPhase(b.tasks[p], Signal)]), p) ==
               s.(ring := Store(s.ring, c), writers := Sem(s.writers.value - 1, []), readers := Post(s.readers),
                  produced := s.produced + [c],
                  tasks := Wake(s.tasks, s.readers.waiters, Lock)[p := Idle(Returned(Write([c]), 1, []))])
  {
    hide Store, Post;
    var b := RunBody(TakeToken(Begin(s, p, Write([c])), p), p);
    assert b.tasks == s.tasks[p := Busy(Write([c]), Unlock, 0, 1, [])];
    var g := b.tasks[p := SetPhase(b.tasks[p], Signal)];
    assert g == s.tasks[p := Busy(Write([c]), Signal, 0, 1, [])];
  }

  /** An unhindered clear. */
  lemma ClearAll(s: Pipe, p: nat)
    requires p < |s.tasks| && s.tasks[p].Idle? && s.mutex == Sem(1, [])
    ensures Run(s, Calls(p, Clear, 3)) ==
            s.(ring := Reset(s.ring), cleared := true, tasks := s.tasks[p := Idle(Returned(Clear, 0, []))])
  {
    hide Run, Steps, Calls, Reset;
    var s0 := Begin(s, p, Clear);
    assert Step(s, Start(p, Clear)) == s0;
    RunCall(s, p, Clear, 3);
    CriticalSection(s0, p);
    assert RunBody(s0, p).tasks == s.tasks[p := Busy(Clear, Unlock, 0, 0, [])];
  }

  /** A read of two bytes whose first round finds a token and no byte, and whose second round has to wait. */
  lemma MissedRound(s: Pipe, p: nat)
    requires p < |s.tasks| && s.tasks[p].Idle? && s.mutex == Sem(1, [])
    requires s.readers == Sem(1, []) && s.writers.waiters == [] && s.writers.value < 100 && s.ring.count == 0
    ensures Run(s, Calls(p, Read(2), 6)) ==
            s.(readers := Sem(0, [p]), writers := Sem(s.writers.value + 1, []),
               tasks := s.tasks[p := Busy(Read(2), AwaitToken, 1, 0, [None])])
  {
    hide Run, Steps, Calls, RunBody, GiveToken, Wake, Post, TakeToken, Begin, Step;
    FirstSteps(s, p, Read(2));
    var s1 := TakeToken(Begin(s, p, Read(2)), p);
    RunCall(s, p, Read(2), 6);
    RunNext(Begin(s, p, Read(2)), p, 6);
    StepsConcat(p, 4, 1);
    RunConcat(s1, Steps(p, 4), Steps(p, 1));
    RestOfRound(s1, p);
    EmptyRound(s, p);
    var s5 := Run(s1, Steps(p, 4));
    RunNext(s5, p, 1);
    RunNone(Step(s5, Advance(p)), p);
  }

  lemma EmptyRound(s: Pipe, p: nat)
    requires p < |s.tasks| && s.tasks[p].Idle? && s.mutex == Sem(1, [])
    requires s.readers == Sem(1, []) && s.writers.waiters == [] && s.writers.value < 100 && s.ring.count == 0
    ensures var b := RunBody(TakeToken(Begin(s, p, Read(2)), p), p);
            && |b.tasks| == |s.tasks| && b.tasks[p].Busy?
            && var s5 := GiveToken(b.(tasks := b.tasks[p := SetPhase(b.tasks[p], Signal)]), p);
               && s5 == s.(readers := Sem(0, []), writers := Sem(s.writers.value + 1, []),
                           tasks := s.tasks[p := Busy(Read(2), Token, 1, 0, [None])])
               && Step(s5, Advance(p)) == s.(readers := Sem(0, [p]), writers := Sem(s.writers.value + 1, []),
                                             tasks := s.tasks[p := Busy(Read(2), AwaitToken, 1, 0, [None])])
  {
    var none: seq<Option<char>> := [];
    assert none + [None] == [None];
    var b := RunBody(TakeToken(Begin(s, p, Read(2)), p), p);
    assert b.tasks == s.tasks[p := Busy(Read(2), Unlock, 0, 0, [None])];
    var g := b.tasks[p := SetPhase(b.tasks[p], Signal)];
    assert g == s.tasks[p := Busy(Read(2), Signal, 0, 0, [None])];
  }

  /** The second round of that read, once it has been given a token. */
  lemma SecondRound(s: Pipe, p: nat)
    requires p < |s.tasks| && s.tasks[p] == Busy(Read(2), Lock, 1, 0, [None]) && s.mutex == Sem(1, [])
    requires s.ring.count > 0
    ensures |Run(s, Steps(p, 4)).tasks| == |s.tasks|
    ensures Run(s, Steps(p, 4)).tasks[p] == Idle(Returned(Read(2), 1, [None, Some(First(s.ring))]))
  {
    hide Run, Steps, Consume, First;
    RestOfRound(s, p);
    var b := RunBody(s, p);
    assert [None] + [Some(First(s.ring))] == [None, Some(First(s.ring))];
    assert b.tasks[p] == Busy(Read(2), Unlock, 1, 1, [None, Some(First(s.ring))]);
  }

  /** Write a byte, clear, start reading two bytes, write another byte, and let the read finish. */
  function HoleScript(): seq<Action> {
    Calls(0, Write("a"), 5) + Calls(0, Clear, 3) + Calls(1, Read(2), 6) + Calls(0, Write("b"), 5) + Steps(1, 4)
  }

  /** The read of that run returns 1 with its byte in the second cell; the first was never written. */
  lemma HoleInBuffer()
    ensures var s := Run(Fresh(2), HoleScript());
            && |s.tasks| == 2 && s.tasks[1] == Idle(Returned(Read(2), 1, [None, Some('b')]))
            && !HoldsPrefix([None, Some('b')], Delivered([None, Some('b')]))
  {
    hide Run, Steps, Calls, Store, Contents, Reset, First, HoldsPrefix, NoHoles, Delivered;
    var s0 := Fresh(2);
    assert "a" == ['a'] && "b" == ['b'];
    RunConcat(s0, Calls(0, Write("a"), 5) + Calls(0, Clear, 3) + Calls(1, Read(2), 6) + Calls(0, Write("b"), 5),
        Steps(1, 4));
    RunConcat(s0, Calls(0, Write("a"), 5) + Calls(0, Clear, 3) + Calls(1, Read(2), 6), Calls(0, Write("b"), 5));
    RunConcat(s0, Calls(0, Write("a"), 5) + Calls(0, Clear, 3), Calls(1, Read(2), 6));
    RunConcat(s0, Calls(0, Write("a"), 5), Calls(0, Clear, 3));
    WriteByte(s0, 0, 'a');
    var s1 := Run(s0, Calls(0, Write("a"), 5));
    ClearAll(s1, 0);
    var s2 := Run(s1, Calls(0, Clear, 3));
    ClearedRing(s1.ring);
    MissedRound(s2, 1);
    var s3 := Run(s2, Calls(1, Read(2), 6));
    WriteByte(s3, 0, 'b');
    var s4 := Run(s3, Calls(0, Write("b"), 5));
    SecondRound(s4, 1);
    assert [None, Some('b')][1].Some?;
    PrefixIffNoHoles([None, Some('b')]);
    NotFirst('b');
  }

  lemma ClearedRing(r: Ring)
    ensures Reset(r).count == 0 && Store(Reset(r), 'b').count == 1 && First(Store(Reset(r), 'b')) == 'b'
  {
  }

  lemma NotFirst(c: char)
    ensures !NoHoles([None, Some(c)])
  {
    assert [None, Some(c)][1].Some? && [None, Some(c)][0].None?;
  }
}
