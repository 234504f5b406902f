/**
 The process manager's four queues and the wait queues of all semaphore slots as
 linked queues over the kernel heap: every kernel operation changes them by moves,
 rotations and removals that `QueueSystem` proves never to fail, so the state
 machine's sequences are what the linked queues hold.  Only the enqueue of a new
 process or of a new waiter can run out of memory.
 */
module QueueRefinement {
  import opened Sequences
  import opened Semaphores
  import opened Processes
  import opened ProcessSafety
  import opened KernelHeap
  import opened LinkedQueue
  import opened QueueSystem
  import opened SemaphoreLaws
  import opened Stranding
  import F = FairScheduling

  /** Indices of the ready, blocked, blocked-by-semaphore and zombie queues. */
  const R: nat := 0
  const B: nat := 1
  const S: nat := 2
  const Z: nat := 3

  function FourQueues(k: Kernel): (c: seq<seq<nat>>)
    ensures |c| == 4
  {
    [k.ready, k.blocked, k.bySem, k.zombie]
  }

  /** The queue a process is in. */
  function WhereIs(k: Kernel, pid: nat): (q: nat)
    ensures q < Z
  {
    if pid in k.ready then R else if pid in k.blocked then B else S
  }

  /** A context switch turns the ready queue. */
  function SwitchIf(b: bool): seq<Op> { if b then [Turn(R)] else [] }

  /** What an operation does to the four queues. */
  function QueueOps(k: Kernel, a: Action): seq<Op> {
    match a
    case DoTick => SwitchIf(!(k.quantum > 0 && k.current in k.pcbs && k.pcbs[k.current].status == RUNNING))
    case DoYield => [Turn(R)]
    case DoBlock(pid) =>
      if pid in k.bySem || pid !in k.ready then [] else [Move(R, B, pid)] + SwitchIf(pid == k.current)
    case DoUnblock(pid) => if pid !in k.blocked then [] else [Move(B, R, pid)]
    case DoKill(pid) =>
      if pid <= 1 || !Queued(k, pid) || pid !in k.pcbs then []
      else
        var parent := k.pcbs[pid].parent;
        [Move(WhereIs(k, pid), Z, pid), Drop(Z, pid)]
        + (if parent >= 0 && WaitsFor(Erase(k, pid), parent, pid) then [Move(B, R, parent)] else [])
        + SwitchIf(pid == k.currentPid)
    case DoWaitpid(pid) =>
      if MayWait(k, pid) && k.current in k.ready && k.current !in k.bySem then [Move(R, B, k.current), Turn(R)] else []
    case DoSemWait(id, wait) =>
      if id < NUM_SEMS && Units(k, id) == 0 && wait.pid && k.current in k.ready
      then [Move(R, S, k.current), Turn(R)] else []
    case DoSemPost(id) =>
      if id < NUM_SEMS && Open(k, id) && k.sems[id].waiters != [] && k.sems[id].waiters[0] in k.bySem
      then [Move(S, R, k.sems[id].waiters[0])] else []
    case _ => []
  }

  ghost predicate AllFit(ops: seq<Op>) {
    forall i :: 0 <= i < |ops| ==> Fits(ops[i], 4)
  }

  // ---- the operations on sequences --------------------------------------

  /** The first match cut out is what `Without` leaves. */
  lemma CutIsWithout(s: seq<nat>, pid: nat)
    ensures var i := FirstMatch(s, HasPid(pid));
            && (i == |s| <==> pid !in s)
            && (i < |s| ==> s[i] == pid && s[..i] + s[i + 1..] == Without(s, pid))
  {
    var i := FirstMatch(s, HasPid(pid));
    assert forall j :: 0 <= j < i ==> s[j] != pid;
    if i < |s| { WithoutAt(s, i); }
  }

  lemma MoveIs(c: seq<seq<nat>>, from: nat, to: nat, pid: nat)
    requires |c| == 4 && from < 4 && to < 4 && from != to && pid in c[from]
    ensures Apply(c, Move(from, to, pid)) == c[from := Without(c[from], pid)][to := c[to] + [pid]]
  {
    hide FirstMatch, HasPid, Without;
    CutIsWithout(c[from], pid);
  }

  lemma DropIs(c: seq<seq<nat>>, q: nat, pid: nat)
    requires |c| == 4 && q < 4 && pid in c[q]
    ensures Apply(c, Drop(q, pid)) == c[q := Without(c[q], pid)]
  {
    hide FirstMatch, HasPid, Without;
    CutIsWithout(c[q], pid);
  }

  lemma ApplyTwo(c: seq<seq<nat>>, a: Op, b: Op)
    requires |c| == 4 && Fits(a, 4) && Fits(b, 4)
    ensures ApplyAll(c, [a]) == Apply(c, a) && ApplyAll(c, [a, b]) == Apply(Apply(c, a), b)
    ensures ApplyAll(c, []) == c
  {
    hide Apply;
    assert [a][..0] == [] && [a, b][..1] == [a];
  }

  /** A yield turns the ready queue and leaves the others. */
  lemma YieldTurns(k: Kernel)
    requires Core(k)
    ensures FourQueues(Yield(k)) == Apply(FourQueues(k), Turn(R))
  {
    hide Core, Yield;
    YieldFrame(k);
    YieldRotates(k);
    assert FourQueues(Yield(k)) == FourQueues(k)[R := Rotated(k.ready)];
  }

  lemma YieldRotates(k: Kernel)
    requires Core(k)
    ensures Yield(k).ready == Rotated(k.ready)
  {
    hide OneQueue, StatusAgrees, ForegroundOk, WaitersOk, ChildrenOk, Bounded, Dispatch, Rotated;
    F.DispatchReady(k.(quantum := 0));
  }

  lemma {:induction false} ApplyConcat(c: seq<seq<nat>>, xs: seq<Op>, ys: seq<Op>)
    requires |c| == 4 && AllFit(xs) && AllFit(ys)
    ensures AllFit(xs + ys) && ApplyAll(c, xs + ys) == ApplyAll(ApplyAll(c, xs), ys)
  {
    hide Apply;
    if ys == [] {
      assert xs + ys == xs;
    } else {
      var n := |ys| - 1;
      ApplyConcat(c, xs, ys[..n]);
      assert (xs + ys)[..|xs + ys| - 1] == xs + ys[..n];
    }
  }

  /** A possible switch at the end of an operation. */
  lemma SwitchIfTurns(k: Kernel, b: bool)
    requires b ==> Core(k)
    ensures AllFit(SwitchIf(b))
    ensures ApplyAll(FourQueues(k), SwitchIf(b)) == FourQueues(if b then Yield(k) else k)
  {
    hide Core, Yield, Apply, FourQueues;
    ApplyTwo(FourQueues(k), Turn(R), Turn(R));
    if b { YieldTurns(k); }
  }

  // ---- the kernel's operations ------------------------------------------

  lemma TickIsMoves(k: Kernel)
    requires KInv(k)
    ensures AllFit(QueueOps(k, DoTick)) && ApplyAll(FourQueues(k), QueueOps(k, DoTick)) == FourQueues(Tick(k))
  {
    hide Core, Apply, Dispatch, Rotated;
    ApplyTwo(FourQueues(k), Turn(R), Turn(R));
    if !(k.quantum > 0 && k.current in k.pcbs && k.pcbs[k.current].status == RUNNING) {
      YieldFrame(k);
      F.DispatchReady(k) by { CoreAllocated(k); }
      TurnIs(k, Dispatch(k));
    }
  }

  lemma CoreAllocated(k: Kernel)
    requires Core(k)
    ensures ProcessSafety.Allocated(k)
  {
  }

  lemma TurnIs(k: Kernel, k': Kernel)
    requires k'.ready == Rotated(k.ready) && k'.blocked == k.blocked && k'.bySem == k.bySem && k'.zombie == k.zombie
    ensures FourQueues(k') == Apply(FourQueues(k), Turn(R))
  {
    assert FourQueues(k') == FourQueues(k)[R := Rotated(k.ready)];
  }

  lemma BlockIsMoves(k: Kernel, pid: int)
    requires KInv(k)
    ensures AllFit(QueueOps(k, DoBlock(pid)))
    ensures ApplyAll(FourQueues(k), QueueOps(k, DoBlock(pid))) == FourQueues(Block(k, pid))
  {
    hide Core, Yield, Apply, Without;
    if pid !in k.bySem && pid in k.ready {
      var p: nat := pid;
      ToBlockedKeeps(k, p);
      MoveThenSwitch(k, ToBlocked(k, p), R, B, p, p == k.current);
    }
  }

  /** One move and a possible switch. */
  lemma MoveThenSwitch(k: Kernel, k1: Kernel, from: nat, to: nat, p: nat, b: bool)
    requires from < 4 && to < 4 && from != to && p in FourQueues(k)[from] && (b ==> Core(k1))
    requires FourQueues(k1) == FourQueues(k)[from := Without(FourQueues(k)[from], p)][to := FourQueues(k)[to] + [p]]
    ensures AllFit([Move(from, to, p)] + SwitchIf(b))
    ensures ApplyAll(FourQueues(k), [Move(from, to, p)] + SwitchIf(b)) == FourQueues(if b then Yield(k1) else k1)
  {
    hide Core, Yield, Apply, Without, FourQueues;
    MoveIs(FourQueues(k), from, to, p);
    ApplyTwo(FourQueues(k), Move(from, to, p), Turn(R));
    SwitchIfTurns(k1, b);
    ApplyConcat(FourQueues(k), [Move(from, to, p)], SwitchIf(b));
  }

  lemma UnblockIsMoves(k: Kernel, pid: int)
    ensures AllFit(QueueOps(k, DoUnblock(pid)))
    ensures ApplyAll(FourQueues(k), QueueOps(k, DoUnblock(pid))) == FourQueues(Unblock(k, pid))
  {
    hide Apply, Without;
    if pid in k.blocked {
      MoveThenSwitch(k, Unblock(k, pid), B, R, pid, false);
      assert [Move(B, R, pid)] + SwitchIf(false) == [Move(B, R, pid)];
    }
  }

  /** Through the zombie queue and out. */
  lemma EraseIsMoves(k: Kernel, pid: nat)
    requires KInv(k) && Queued(k, pid)
    ensures ApplyAll(FourQueues(k), [Move(WhereIs(k, pid), Z, pid), Drop(Z, pid)]) == FourQueues(Erase(k, pid))
  {
    hide Apply, Without, Distinct, ProcessSafety.Allocated, StatusAgrees, ForegroundOk, Bounded, WaitersOk, ChildrenOk;
    var c, w := FourQueues(k), WhereIs(k, pid);
    ApplyTwo(c, Move(w, Z, pid), Drop(Z, pid));
    MoveIs(c, w, Z, pid);
    var none: seq<nat> := [];
    assert none + [pid] == [pid];
    assert Without([pid], pid) == none by { OnlyOne(pid); }
    var c1 := c[w := Without(c[w], pid)][Z := [pid]];
    DropIs(c1, Z, pid);
    if pid !in k.ready { WithoutAbsent(k.ready, pid); }
    if pid !in k.blocked { WithoutAbsent(k.blocked, pid); }
    if pid !in k.bySem { WithoutAbsent(k.bySem, pid); }
  }

  lemma OnlyOne(pid: nat)
    ensures Without([pid], pid) == []
  {
  }

  lemma KillIsMoves(k: Kernel, pid: int)
    requires KInv(k)
    ensures AllFit(QueueOps(k, DoKill(pid)))
    ensures ApplyAll(FourQueues(k), QueueOps(k, DoKill(pid))) == FourQueues(Kill(k, pid))
  {
    hide Core, Yield, Apply, Without, Erase, Unblock, FourQueues, Queued, WaitsFor;
    if !(pid <= 1 || !Queued(k, pid) || pid !in k.pcbs) {
      var p: nat := pid;
      var parent, e, w := k.pcbs[p].parent, Erase(k, p), WhereIs(k, p);
      var wake := if parent >= 0 && WaitsFor(e, parent, p) then [Move(B, R, parent)] else [];
      EraseIsMoves(k, p);
      WakeIsMoves(e, parent, p);
      KilledKeeps(k, p);
      SwitchIfTurns(Killed(k, p), pid == k.currentPid);
      ApplyConcat(FourQueues(k), [Move(w, Z, p), Drop(Z, p)], wake);
      ApplyConcat(FourQueues(k), [Move(w, Z, p), Drop(Z, p)] + wake, SwitchIf(pid == k.currentPid));
    } else {
      ApplyTwo(FourQueues(k), Turn(R), Turn(R));
    }
  }

  lemma WakeIsMoves(e: Kernel, parent: int, p: nat)
    ensures var wake := if parent >= 0 && WaitsFor(e, parent, p) then [Move(B, R, parent)] else [];
            && AllFit(wake)
            && ApplyAll(FourQueues(e), wake) == FourQueues(if WaitsFor(e, parent, p) then Unblock(e, parent) else e)
  {
    hide Apply, Without, Unblock, FourQueues;
    ApplyTwo(FourQueues(e), Turn(R), Turn(R));
    UnblockIsMoves(e, parent);
    assert WaitsFor(e, parent, p) ==> parent in e.blocked && parent >= 0;
  }

  lemma WaitpidIsMoves(k: Kernel, pid: int)
    requires KInv(k)
    ensures AllFit(QueueOps(k, DoWaitpid(pid)))
    ensures ApplyAll(FourQueues(k), QueueOps(k, DoWaitpid(pid))) == FourQueues(Waitpid(k, pid))
  {
    hide Core, Yield, Apply, Without, Block, Found;
    ApplyTwo(FourQueues(k), Turn(R), Turn(R));
    if MayWait(k, pid) {
      var c: nat := pid;
      MayWaitChild(k, c);
      if k.current in k.ready && k.current !in k.bySem {
        var p := k.current;
        SuspendCommutes(k, c);
        ToBlockedKeeps(k, p);
        BlockedStill(k, p, c);
        AwaitKeeps(ToBlocked(k, p), p, c);
        MoveThenSwitch(k, SetWaitingFor(ToBlocked(k, p), p, c, BLOCKED).(waiting := k.waiting[p := c]), R, B, p, true);
        assert [Move(R, B, p)] + SwitchIf(true) == [Move(R, B, p), Turn(R)];
      }
    }
  }

  lemma SemWaitIsMoves(k: Kernel, id: nat, luck: WaitLuck)
    requires KInv(k)
    ensures AllFit(QueueOps(k, DoSemWait(id, luck)))
    ensures ApplyAll(FourQueues(k), QueueOps(k, DoSemWait(id, luck))) == FourQueues(SemWait(k, id, luck))
  {
    hide Core, Yield, Apply, Without;
    ApplyTwo(FourQueues(k), Turn(R), Turn(R));
    if id < NUM_SEMS && Units(k, id) == 0 && luck.pid && k.current in k.ready {
      var k1, p := if luck.node then Enlisted(k, id) else k, k.current;
      SemTableKeeps(k, k1);
      ToBySemKeeps(k1, p);
      MoveThenSwitch(k, ToBySem(k1, p), R, S, p, true);
      assert [Move(R, S, p)] + SwitchIf(true) == [Move(R, S, p), Turn(R)];
    }
  }

  lemma SemPostIsMoves(k: Kernel, id: nat)
    ensures AllFit(QueueOps(k, DoSemPost(id)))
    ensures ApplyAll(FourQueues(k), QueueOps(k, DoSemPost(id))) == FourQueues(SemPost(k, id))
  {
    hide Apply, Without, Post;
    ApplyTwo(FourQueues(k), Turn(R), Turn(R));
    if id < NUM_SEMS && Open(k, id) && k.sems[id].waiters != [] && k.sems[id].waiters[0] in k.bySem {
      var p := k.sems[id].waiters[0];
      MoveThenSwitch(k, SemPost(k, id), S, R, p, false);
      assert [Move(S, R, p)] + SwitchIf(false) == [Move(S, R, p)];
    }
  }

  /** Every operation except creation changes the four queues by exactly these moves. */
  lemma StepIsMoves(k: Kernel, a: Action)
    requires KInv(k) && !a.DoCreate?
    ensures AllFit(QueueOps(k, a)) && ApplyAll(FourQueues(k), QueueOps(k, a)) == FourQueues(Step(k, a))
  {
    hide Core, Tick, Yield, Block, Unblock, Kill, Waitpid, SemWait, SemPost, Apply;
    ApplyTwo(FourQueues(k), Turn(R), Turn(R));
    match a
    case DoTick => TickIsMoves(k);
    case DoYield => YieldTurns(k);
    case DoBlock(pid) => BlockIsMoves(k, pid);
    case DoUnblock(pid) => UnblockIsMoves(k, pid);
    case DoKill(pid) => KillIsMoves(k, pid);
    case DoWaitpid(pid) => WaitpidIsMoves(k, pid);
    case DoSemWait(id, wait) => SemWaitIsMoves(k, id, wait);
    case DoSemPost(id) => SemPostIsMoves(k, id);
    case _ =>
  }

  // ---- the wait queues --------------------------------------------------

  function WaitersOf(k: Kernel, id: nat): seq<nat> {
    if id in k.sems then k.sems[id].waiters else []
  }

  /** The wait queues of all slots. */
  function WaitQueues(k: Kernel): (w: seq<seq<nat>>)
    ensures |w| == NUM_SEMS
  {
    seq(NUM_SEMS, i requires 0 <= i < NUM_SEMS => WaitersOf(k, i))
  }

  function AllQueues(k: Kernel): (c: seq<seq<nat>>)
    ensures |c| == 4 + NUM_SEMS
  {
    FourQueues(k) + WaitQueues(k)
  }

  function DropEach(q: nat, pids: seq<nat>): (ops: seq<Op>)
    ensures |ops| == |pids| && forall i :: 0 <= i < |ops| ==> ops[i] == Drop(q, pids[i])
  {
    seq(|pids|, i requires 0 <= i < |pids| => Drop(q, pids[i]))
  }

  /** What an operation takes out of the wait queues: post the first waiter, close all of them. */
  function WaitOps(k: Kernel, a: Action): seq<Op> {
    match a
    case DoSemPost(id) =>
      if id < NUM_SEMS && Open(k, id) && k.sems[id].waiters != [] then [Drop(4 + id, k.sems[id].waiters[0])] else []
    case DoSemClose(id) =>
      if id < NUM_SEMS && id in k.sems then DropEach(4 + id, k.sems[id].waiters) else []
    case _ => []
  }

  ghost predicate FitAll(ops: seq<Op>, n: nat) {
    forall i :: 0 <= i < |ops| ==> Fits(ops[i], n)
  }

  /** Operations on the four process queues leave the wait queues alone. */
  lemma ApplyFront(c: seq<seq<nat>>, d: seq<seq<nat>>, op: Op)
    requires |c| == 4 && Fits(op, 4)
    ensures Fits(op, |c + d|) && Apply(c + d, op) == Apply(c, op) + d
  {
    hide FirstMatch, HasPid;
  }

  lemma {:induction false} ApplyAllFront(c: seq<seq<nat>>, d: seq<seq<nat>>, ops: seq<Op>)
    requires |c| == 4 && AllFit(ops)
    ensures FitAll(ops, 4 + |d|) && ApplyAll(c + d, ops) == ApplyAll(c, ops) + d
  {
    hide Apply;
    if ops != [] {
      var n := |ops| - 1;
      ApplyAllFront(c, d, ops[..n]);
      ApplyFront(ApplyAll(c, ops[..n]), d, ops[n]);
    }
  }

  /** Taking out the head. */
  lemma DropHead(c: seq<seq<nat>>, q: nat)
    requires q < |c| && c[q] != []
    ensures Apply(c, Drop(q, c[q][0])) == c[q := c[q][1..]]
  {
    var i := FirstMatch(c[q], HasPid(c[q][0]));
    assert i == 0;
    assert c[q][..0] + c[q][0 + 1..] == c[q][1..];
  }

  /** Taking out everybody, first come first. */
  lemma {:induction false} DropAllOf(c: seq<seq<nat>>, q: nat, k: nat)
    requires q < |c| && k <= |c[q]|
    ensures FitAll(DropEach(q, c[q][..k]), |c|)
    ensures ApplyAll(c, DropEach(q, c[q][..k])) == c[q := c[q][k..]]
    decreases k
  {
    hide Apply;
    var ops := DropEach(q, c[q][..k]);
    if k == 0 {
      assert c[q := c[q][0..]] == c;
    } else {
      DropAllOf(c, q, k - 1);
      var d := c[q := c[q][k - 1..]];
      assert ops[..k - 1] == DropEach(q, c[q][..k - 1]);
      assert d[q][0] == c[q][k - 1] && d[q][1..] == c[q][k..];
      DropHead(d, q);
      assert d[q := d[q][1..]] == c[q := c[q][k..]];
    }
  }

  /** The wait queues after one slot changed. */
  lemma OneSlot(k: Kernel, w: seq<seq<nat>>, id: nat, s: seq<nat>)
    requires id < NUM_SEMS && |w| == NUM_SEMS && w[id] == s
    requires forall i :: 0 <= i < NUM_SEMS && i != id ==> w[i] == WaitersOf(k, i)
    ensures FourQueues(k) + w == AllQueues(k)[4 + id := s]
  {
  }

  /** The operations of post and close on the wait queues. */
  lemma WaitOpsApply(k: Kernel, a: Action)
    requires KInv(k) && (a.DoSemPost? || a.DoSemClose?)
    ensures FitAll(WaitOps(k, a), 4 + NUM_SEMS)
    ensures ApplyAll(AllQueues(k), WaitOps(k, a)) == FourQueues(k) + WaitQueues(Step(k, a))
  {
    hide Apply, FourQueues, KInv, SemPost;
    var c, w := AllQueues(k), WaitQueues(Step(k, a));
    assert ApplyAll(c, []) == c;
    if a.DoSemPost? {
      PostOutcome(k, a.id);
      if a.id < NUM_SEMS && Open(k, a.id) && k.sems[a.id].waiters != [] {
        var q := 4 + a.id;
        DropHead(c, q);
        assert [Drop(q, c[q][0])][..0] == [];
        OneSlot(k, w, a.id, k.sems[a.id].waiters[1..]);
      } else {
        SameSlots(k, Step(k, a));
      }
    } else if a.id < NUM_SEMS && a.id in k.sems {
      var q := 4 + a.id;
      DropAllOf(c, q, |c[q]|);
      assert c[q][..|c[q]|] == k.sems[a.id].waiters && c[q][|c[q]|..] == [];
      OneSlot(k, w, a.id, []);
    } else {
      SameSlots(k, Step(k, a));
    }
  }

  lemma SameSlots(k: Kernel, k': Kernel)
    requires forall i :: 0 <= i < NUM_SEMS ==> WaitersOf(k', i) == WaitersOf(k, i)
    ensures WaitQueues(k') == WaitQueues(k)
  {
  }

  /** A wait queue gets a new entry only from a wait that has to block on an open semaphore. */
  predicate Enlists(k: Kernel, a: Action) {
    HasToWait(k, a) && Open(k, a.id)
  }

  lemma OthersKeepWaiters(k: Kernel, a: Action)
    requires !a.DoSemPost? && !a.DoSemClose? && !(Enlists(k, a) && a.wait.node)
    ensures WaitQueues(Step(k, a)) == WaitQueues(k)
  {
    hide SemWait, Tick, Yield, Block, Unblock, Kill, Waitpid, Create, ChangePrio, WaitQueues;
    match a {
      case DoSemInit(_, _) =>
      case DoSemWait(id, wait) => WaitOutcome(k, id, wait); TakenSame(k, id);
      case _ => SemsUntouched(k, a);
    }
    SameSlots(k, Step(k, a));
  }

  lemma TakenSame(k: Kernel, id: nat)
    ensures Units(k, id) > 0 ==> forall i :: WaitersOf(Taken(k, id), i) == WaitersOf(k, i)
    ensures !Open(k, id) ==> Enlisted(k, id) == k
  {
  }

  lemma EnlistedWaiters(k: Kernel, a: Action)
    requires Enlists(k, a) && a.wait.node
    ensures FourQueues(k) + WaitQueues(Step(k, a)) == AllQueues(k)[4 + a.id := WaitersOf(k, a.id) + [k.current]]
  {
    hide SemWait, FourQueues;
    WaitOutcome(k, a.id, a.wait);
    OneSlot(k, WaitQueues(Step(k, a)), a.id, WaitersOf(k, a.id) + [k.current]);
  }

  // ---- on the linked queues ---------------------------------------------

  /** The linked queues, four and one for each slot, hold what the kernel state says. */
  ghost predicate Holds(heap: Heap, qs: seq<Queue<nat>>, k: Kernel)
    reads qs, heap.Repr()
  {
    Shows(heap, qs, AllQueues(k))
  }

  lemma ShowsAll(heap: Heap, qs: seq<Queue<nat>>, c: seq<seq<nat>>)
    requires Shows(heap, qs, c)
    ensures |qs| == |c|
  {
  }

  /** An operation's work on the process queues, when the wait queues already are as they will be. */
  method RealiseMoves(heap: Heap, qs: seq<Queue<nat>>, k: Kernel, a: Action)
    requires KInv(k) && !a.DoCreate? && Shows(heap, qs, FourQueues(k) + WaitQueues(Step(k, a)))
    modifies qs, heap.Repr()
    ensures Holds(heap, qs, Step(k, a))
  {
    hide KInv, Step, QueueOps, FourQueues, WaitQueues, Shows, ApplyAll;
    ghost var c, w := FourQueues(k), WaitQueues(Step(k, a));
    ShowsAll(heap, qs, c + w);
    StepIsMoves(k, a);
    ApplyAllFront(c, w, QueueOps(k, a));
    Perform(heap, qs, c + w, QueueOps(k, a));
  }

  /** An operation that queues nobody new: whatever the heap, the queues then hold the next kernel state. */
  method Realise(heap: Heap, qs: seq<Queue<nat>>, k: Kernel, a: Action)
    requires KInv(k) && !a.DoCreate? && !Enlists(k, a) && Holds(heap, qs, k)
    modifies qs, heap.Repr()
    ensures Holds(heap, qs, Step(k, a))
  {
    hide KInv, Step, FourQueues, WaitQueues, Shows, ApplyAll;
    ShowsAll(heap, qs, AllQueues(k));
    if a.DoSemPost? || a.DoSemClose? {
      WaitOpsApply(k, a);
      Perform(heap, qs, AllQueues(k), WaitOps(k, a));
    } else {
      OthersKeepWaiters(k, a);
    }
    RealiseMoves(heap, qs, k, a);
  }

  function WithWaitNode(a: Action, ok: bool): Action
    requires a.DoSemWait?
  {
    a.(wait := a.wait.(node := ok))
  }

  /** A wait that has to block on an open semaphore; `ok` is the heap's answer to the request for a node. */
  method RealiseWait(heap: Heap, qs: seq<Queue<nat>>, k: Kernel, a: Action) returns (ok: bool)
    requires KInv(k) && Enlists(k, a) && Holds(heap, qs, k)
    modifies qs, heap.Repr()
    ensures Holds(heap, qs, Step(k, WithWaitNode(a, ok)))
    ensures ok == old(heap.Serves(NODE_SIZE))
  {
    hide KInv, Step, FourQueues, WaitQueues, Shows, Heap.Serves;
    ShowsAll(heap, qs, AllQueues(k));
    SlotQueue(k, a.id);
    ok := PushOne(heap, qs, AllQueues(k), 4 + a.id, k.current);
    if ok { EnlistedWaiters(k, WithWaitNode(a, true)); } else { OthersKeepWaiters(k, WithWaitNode(a, false)); }
    RealiseMoves(heap, qs, k, WithWaitNode(a, ok));
  }

  lemma SlotQueue(k: Kernel, id: nat)
    requires id < NUM_SEMS
    ensures AllQueues(k)[4 + id] == WaitersOf(k, id)
  {
  }

  /** The queue a creation puts its process in, if it gets that far. */
  function Target(k: Kernel, a: Action): (q: nat)
    requires a.DoCreate?
    ensures q <= 4
  {
    if !a.luck.pcb || !a.luck.stack || (k.nextPid == 1 && !a.luck.pipe) then 4
    else if k.nextPid > 1 && !a.foreground && a.tty then B
    else if a.priority == IDLE_PRIORITY then 4
    else R
  }

  function WithNode(a: Action, ok: bool): Action
    requires a.DoCreate?
  {
    a.(luck := a.luck.(node := ok))
  }

  lemma CreateQueues(k: Kernel, a: Action, ok: bool)
    requires a.DoCreate?
    ensures var q := Target(k, a);
            FourQueues(Step(k, WithNode(a, ok))) ==
              if q < 4 && ok then FourQueues(k)[q := FourQueues(k)[q] + [k.nextPid]] else FourQueues(k)
  {
  }

  lemma CreateAllQueues(k: Kernel, a: Action, ok: bool)
    requires a.DoCreate?
    ensures var q := Target(k, a);
            AllQueues(Step(k, WithNode(a, ok))) ==
              if q < 4 && ok then AllQueues(k)[q := AllQueues(k)[q] + [k.nextPid]] else AllQueues(k)
  {
    hide Step, FourQueues, WaitQueues;
    CreateQueues(k, a, ok);
    OthersKeepWaiters(k, WithNode(a, ok));
  }

  /** Creation on the linked queues; `ok` is the heap's answer to the request for a node. */
  method RealiseCreate(heap: Heap, qs: seq<Queue<nat>>, k: Kernel, a: Action) returns (ok: bool)
    requires a.DoCreate? && Holds(heap, qs, k)
    modifies qs, heap.Repr()
    ensures Holds(heap, qs, Step(k, WithNode(a, ok)))
    ensures !ok ==> Holds(heap, qs, k)
    ensures ok || !old(heap.Serves(NODE_SIZE))
  {
    hide Step, AllQueues, Shows, Heap.Serves;
    ShowsAll(heap, qs, AllQueues(k));
    var q := Target(k, a);
    ok := true;
    if q < 4 {
      ok := PushOne(heap, qs, AllQueues(k), q, k.nextPid);
    }
    CreateAllQueues(k, a, ok);
  }

  /** The same action, except that a creation or a wait may have got another answer to its request for a node. */
  predicate SameWish(a: Action, w: Action) {
    || a == w
    || (a.DoCreate? && w.DoCreate? && a == WithNode(w, a.luck.node))
    || (a.DoSemWait? && w.DoSemWait? && a == WithWaitNode(w, a.wait.node))
  }

  /** One action on the linked queues, if it is allowed with the heap's answer. */
  method RealiseOne(heap: Heap, qs: seq<Queue<nat>>, k: Kernel, w: Action) returns (allowed: bool, a: Action)
    requires KInv(k) && Holds(heap, qs, k)
    modifies qs, heap.Repr()
    ensures SameWish(a, w)
    ensures allowed ==> Allowed(k, a) && Holds(heap, qs, Step(k, a))
    ensures !allowed ==> Holds(heap, qs, k) && w.DoCreate? && k.current == IDLE
  {
    hide KInv, Step, Holds, Enlists;
    a := w;
    if !w.DoCreate? {
      var enlists := w.DoSemWait? && Enlists(k, w);
      if enlists {
        var ok := RealiseWait(heap, qs, k, w) by { EnlistsIsWait(k, w); }
        a := WithWaitNode(w, ok);
      } else {
        OnlyWaitsEnlist(k, w);
        Realise(heap, qs, k, w);
      }
      return true, a;
    }
    if k.current == IDLE && !(IDLE in k.pcbs && k.pcbs[IDLE].status == READY) {
      return false, a;
    }
    var ok := RealiseCreate(heap, qs, k, w);
    a := WithNode(w, ok);
    allowed := k.current == IDLE ==> ok;
  }

  lemma EnlistsIsWait(k: Kernel, a: Action)
    requires Enlists(k, a)
    ensures a.DoSemWait?
  {
  }

  lemma OnlyWaitsEnlist(k: Kernel, a: Action)
    ensures !a.DoSemWait? ==> !Enlists(k, a)
  {
  }

  /**
   Whole runs on the linked queues, process queues and wait queues over one heap, on
   either allocator and from any heap state: creations and waits get the heap's own
   answers, and the queues hold the state machine's sequences at the end.  A run ends
   early only at a creation by idle.
   */
  method RealiseRun(heap: Heap, qs: seq<Queue<nat>>, k: Kernel, wishes: seq<Action>) returns (done: seq<Action>)
    requires KInv(k) && Holds(heap, qs, k)
    modifies qs, heap.Repr()
    ensures AllowedRun(k, done) && Holds(heap, qs, Run(k, done)) && KInv(Run(k, done))
    ensures |done| <= |wishes| && forall i :: 0 <= i < |done| ==> SameWish(done[i], wishes[i])
    ensures |done| < |wishes| ==> wishes[|done|].DoCreate? && Run(k, done).current == IDLE
    decreases |wishes|
  {
    hide KInv, Step, Holds, Allowed, SameWish;
    if wishes == [] {
      return [];
    }
    var allowed, a := RealiseOne(heap, qs, k, wishes[0]);
    if !allowed {
      return [];
    }
    StepKeeps(k, a);
    var rest := RealiseRun(heap, qs, Step(k, a), wishes[1..]);
    done := [a] + rest;
    assert done[1..] == rest;
  }
}
