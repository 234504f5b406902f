/**
 Bounded waiting: a process that stays in the ready queue is dispatched after a
 number of context switches bounded by its position, and so after a bounded
 number of timer ticks, whatever all other processes do.
 */
module FairScheduling {
  import opened Sequences
  import opened Semaphores
  import opened Processes
  import opened ProcessSafety

  /** Position of `p`, or the length when it is absent. */
  function IndexOf(s: seq<nat>, p: nat): (i: nat)
    ensures i <= |s| && (i < |s| <==> p in s)
  {
    if s == [] then 0 else if s[0] == p then 0 else 1 + IndexOf(s[1..], p)
  }

  lemma {:induction false} IndexWithout(s: seq<nat>, q: nat, p: nat)
    requires q != p && p in s
    ensures p in Without(s, q) && IndexOf(Without(s, q), p) <= IndexOf(s, p)
  {
    if s[0] != p && s[0] != q {
      IndexWithout(s[1..], q, p);
      assert ([s[0]] + Without(s[1..], q))[1..] == Without(s[1..], q);
    }
  }

  lemma {:induction false} IndexAppend(s: seq<nat>, q: nat, p: nat)
    requires p in s
    ensures p in s + [q] && IndexOf(s + [q], p) == IndexOf(s, p)
  {
    if s[0] != p {
      assert (s + [q])[1..] == s[1..] + [q];
      IndexAppend(s[1..], q, p);
    }
  }

  lemma IndexRotate(s: seq<nat>, p: nat)
    requires p in s && s[0] != p
    ensures p in Rotated(s) && IndexOf(Rotated(s), p) == IndexOf(s, p) - 1
  {
    assert p in s[1..];
    IndexAppend(s[1..], s[0], p);
  }

  // ---- one step ---------------------------------------------------------

  /** The step performed a context switch, and it went to `p`. */
  predicate WentTo(k: Kernel, k': Kernel, p: nat) {
    k'.switches > k.switches && k'.current == p
  }

  /**
   Unless `p` was dispatched, it moved forward by at least the number of switches;
   a switch starts a quantum of at most 18.
   */
  ghost predicate Advances(k: Kernel, k': Kernel, p: nat) {
    && k.switches <= k'.switches <= k.switches + 1
    && (p in k'.ready && !WentTo(k, k', p) ==>
          && IndexOf(k'.ready, p) + (k'.switches - k.switches) <= IndexOf(k.ready, p)
          && (k'.switches == k.switches ==> k'.quantum <= k.quantum)
          && (k'.switches > k.switches ==> k'.quantum <= 18))
  }

  lemma DispatchAdvances(k: Kernel, p: nat)
    requires Core(k) && p in k.ready
    ensures Advances(k, Dispatch(k), p) && Dispatch(k).switches == k.switches + 1
  {
    hide OneQueue, StatusAgrees, ForegroundOk, WaitersOk, ChildrenOk, IndexOf, Rotated;
    DispatchSame(k);
    DispatchBounded(k);
    DispatchReady(k);
    if k.ready[0] != p { IndexRotate(k.ready, p); }
  }

  lemma DispatchReady(k: Kernel)
    requires Allocated(k)
    ensures Dispatch(k).ready == Rotated(k.ready) && Dispatch(k).switches == k.switches + 1
  {
    hide Rotated, CalculateQuantum;
    DispatchSame(k);
  }

  lemma YieldAdvances(k: Kernel, p: nat)
    requires Core(k) && p in k.ready
    ensures Advances(k, Yield(k), p) && Yield(k).switches == k.switches + 1
  {
    hide Core, Dispatch, IndexOf;
    QuantumOnly(k, 0);
    DispatchAdvances(k.(quantum := 0), p);
  }

  lemma BlockAdvances(k: Kernel, pid: int, p: nat)
    requires KInv(k) && p in k.ready && p in Block(k, pid).ready
    ensures Advances(k, Block(k, pid), p)
  {
    hide Core, Yield, IndexOf, Without;
    if pid in k.ready && pid !in k.bySem {
      var q: nat := pid;
      var k1 := ToBlocked(k, q);
      ToBlockedKeeps(k, q);
      LeavesReady(k, q, p);
      if q == k.current { YieldAdvances(k1, p); }
    }
  }

  /** If `p` is still ready after `q` left, and perhaps a switch, then `p` is not `q` and did not fall back. */
  lemma LeavesReady(k: Kernel, q: nat, p: nat)
    requires KInv(k) && q in k.ready && p in k.ready && q !in k.bySem && p in Block(k, q).ready
    ensures p != q && p in Without(k.ready, q) && IndexOf(Without(k.ready, q), p) <= IndexOf(k.ready, p)
  {
    hide Yield, StatusAgrees, ForegroundOk, WaitersOk, ChildrenOk, Bounded, IndexOf, Without;
    WithoutMembers(k.ready, q);
    ToBlockedKeeps(k, q);
    if q == k.current { YieldReadySame(ToBlocked(k, q)); }
    IndexWithout(k.ready, q, p);
  }

  lemma YieldReadySame(k: Kernel)
    requires Core(k)
    ensures forall q :: q in Yield(k).ready <==> q in k.ready
  {
    hide OneQueue, StatusAgrees, Bounded, ForegroundOk, WaitersOk, ChildrenOk, Dispatch, Distinct;
    QuantumOnly(k, 0);
    DispatchSame(k.(quantum := 0));
  }

  lemma UnblockAdvances(k: Kernel, pid: int, p: nat)
    requires p in k.ready
    ensures Advances(k, Unblock(k, pid), p) && Unblock(k, pid).switches == k.switches && p in Unblock(k, pid).ready
  {
    hide IndexOf, Without;
    if pid in k.blocked { IndexAppend(k.ready, pid, p); }
  }

  lemma KillAdvances(k: Kernel, pid: int, p: nat)
    requires KInv(k) && p in k.ready && p in Kill(k, pid).ready
    ensures Advances(k, Kill(k, pid), p)
  {
    hide Core, Yield, IndexOf, Without, Queued;
    if !(pid <= 1 || !Queued(k, pid) || pid !in k.pcbs) {
      var q: nat := pid;
      var k2 := Killed(k, q);
      KilledKeeps(k, q);
      KilledReady(k, q, p);
      if pid == k.currentPid { YieldReadySame(k2); YieldAdvances(k2, p) by { KilledStill(k, q, p); } }
      KilledStill(k, q, p);
    }
  }

  lemma KilledReady(k: Kernel, q: nat, p: nat)
    requires Core(k) && q in k.pcbs && p in k.ready
    ensures p in Killed(k, q).ready ==> p != q
    ensures Killed(k, q).switches == k.switches && Killed(k, q).quantum == k.quantum
  {
    hide IndexOf, Without, Distinct;
    EraseMembers(k, q);
  }

  lemma KilledStill(k: Kernel, q: nat, p: nat)
    requires Core(k) && q in k.pcbs && p in k.ready && p in Killed(k, q).ready
    ensures IndexOf(Killed(k, q).ready, p) <= IndexOf(k.ready, p)
  {
    hide IndexOf, Without;
    KilledReady(k, q, p);
    IndexWithout(k.ready, q, p);
    var k1 := Erase(k, q);
    UnblockAdvances(k1, k.pcbs[q].parent, p);
  }

  /** `cur` leaves the ready queue for good and a switch follows. */
  lemma LeaveAndYield(k: Kernel, k1: Kernel, cur: nat, p: nat)
    requires Core(k) && Core(k1) && cur in k.ready && p in k.ready && p in Yield(k1).ready
    requires k1.ready == Without(k.ready, cur) && k1.switches == k.switches
    ensures Advances(k, Yield(k1), p)
  {
    hide Yield, StatusAgrees, ForegroundOk, WaitersOk, ChildrenOk, Allocated, IndexOf, Without;
    YieldReadySame(k1);
    WithoutMembers(k.ready, cur);
    IndexWithout(k.ready, cur, p);
    YieldAdvances(k1, p);
  }

  lemma WaitpidAdvances(k: Kernel, pid: int, p: nat)
    requires KInv(k) && p in k.ready && p in Waitpid(k, pid).ready
    ensures Advances(k, Waitpid(k, pid), p)
  {
    hide Core, Yield, Block, IndexOf, Without;
    if MayWait(k, pid) {
      var c: nat := pid;
      MayWaitChild(k, c);
      if k.current in k.ready && k.current !in k.bySem {
        var cur := k.current;
        SuspendCommutes(k, c);
        ToBlockedKeeps(k, cur);
        BlockedStill(k, cur, c);
        AwaitKeeps(ToBlocked(k, cur), cur, c);
        LeaveAndYield(k, SetWaitingFor(ToBlocked(k, cur), cur, c, BLOCKED).(waiting := k.waiting[cur := c]), cur, p);
      }
    }
  }

  lemma SemWaitAdvances(k: Kernel, id: nat, luck: WaitLuck, p: nat)
    requires KInv(k) && p in k.ready && p in SemWait(k, id, luck).ready
    ensures Advances(k, SemWait(k, id, luck), p)
  {
    hide Core, Yield, IndexOf, Without;
    if id < NUM_SEMS && Units(k, id) == 0 && luck.pid && k.current in k.ready {
      var cur, k1 := k.current, if luck.node then Enlisted(k, id) else k;
      SemTableKeeps(k, k1);
      ToBySemKeeps(k1, cur);
      LeaveAndYield(k, ToBySem(k1, cur), cur, p);
    }
  }

  lemma SemPostAdvances(k: Kernel, id: nat, p: nat)
    requires p in k.ready
    ensures Advances(k, SemPost(k, id), p)
  {
    hide IndexOf, Without;
    if id in k.sems && k.sems[id].waiters != [] { IndexAppend(k.ready, k.sems[id].waiters[0], p); }
  }

  lemma CreateAdvances(k: Kernel, priority: nat, foreground: bool, tty: bool, luck: Luck, p: nat)
    requires p in k.ready
    ensures Advances(k, Create(k, priority, foreground, tty, luck), p)
  {
    hide IndexOf, ClampCreate;
    IndexAppend(k.ready, k.nextPid, p);
  }

  lemma TickAdvances(k: Kernel, p: nat)
    requires KInv(k) && p in k.ready
    ensures Advances(k, Tick(k), p)
    ensures Tick(k).switches == k.switches ==> Tick(k).quantum == k.quantum - 1
  {
    hide Core, Dispatch, IndexOf;
    DispatchAdvances(k, p);
  }

  lemma StepAdvances(k: Kernel, a: Action, p: nat)
    requires KInv(k) && p in k.ready && p in Step(k, a).ready
    ensures Advances(k, Step(k, a), p)
  {
    hide Core, IndexOf, Advances, Tick, Yield, Block, Unblock, Kill, Waitpid, Create, SemWait, SemPost;
    match a
    case DoTick => TickAdvances(k, p);
    case DoYield => YieldAdvances(k, p);
    case DoBlock(pid) => BlockAdvances(k, pid, p);
    case DoUnblock(pid) => UnblockAdvances(k, pid, p);
    case DoKill(pid) => KillAdvances(k, pid, p);
    case DoWaitpid(pid) => WaitpidAdvances(k, pid, p);
    case DoCreate(priority, foreground, tty, luck) => CreateAdvances(k, priority, foreground, tty, luck, p);
    case DoChangePrio(pid, newPrio) => UnchangedAdvances(k, ChangePrio(k, pid, newPrio), p);
    case DoSemInit(id, value) => UnchangedAdvances(k, SemInit(k, id, value), p);
    case DoSemClose(id) => UnchangedAdvances(k, SemClose(k, id), p);
    case DoSemWait(id, wait) => SemWaitAdvances(k, id, wait, p);
    case DoSemPost(id) => SemPostAdvances(k, id, p);
  }

  lemma UnchangedAdvances(k: Kernel, k': Kernel, p: nat)
    requires k'.ready == k.ready && k'.switches == k.switches && k'.quantum == k.quantum
    ensures Advances(k, k', p)
  {
  }

  // ---- runs -------------------------------------------------------------

  /** `p` is in the ready queue from start to end: it is neither blocked nor killed. */
  predicate StaysReady(k: Kernel, actions: seq<Action>, p: nat)
    decreases |actions|
  {
    p in k.ready && (actions == [] || StaysReady(Step(k, actions[0]), actions[1..], p))
  }

  /** Some switch of the run goes to `p`. */
  predicate Dispatched(k: Kernel, actions: seq<Action>, p: nat)
    decreases |actions|
  {
    actions != [] && (WentTo(k, Step(k, actions[0]), p) || Dispatched(Step(k, actions[0]), actions[1..], p))
  }

  function Ticks(actions: seq<Action>): nat {
    if actions == [] then 0 else (if actions[0].DoTick? then 1 else 0) + Ticks(actions[1..])
  }

  /** While `p` is passed over, switches are paid by its position and ticks by 19 times that plus the quantum. */
  lemma {:induction false} WaitingCosts(k: Kernel, actions: seq<Action>, p: nat)
    requires KInv(k) && AllowedRun(k, actions) && StaysReady(k, actions, p) && !Dispatched(k, actions, p)
    ensures Run(k, actions).switches <= k.switches + IndexOf(k.ready, p)
    ensures Ticks(actions) <= 19 * IndexOf(k.ready, p) + k.quantum
    decreases |actions|
  {
    hide KInv, Step, Allowed, IndexOf;
    if actions != [] {
      var a, k' := actions[0], Step(k, actions[0]);
      StepKeeps(k, a);
      StepAdvances(k, a, p);
      if a.DoTick? { TickSpends(k, p); }
      WaitingCosts(k', actions[1..], p);
    }
  }

  lemma TickSpends(k: Kernel, p: nat)
    requires KInv(k) && p in k.ready
    ensures Step(k, DoTick).switches == k.switches ==> Step(k, DoTick).quantum == k.quantum - 1
  {
    hide Core, Tick, IndexOf, Advances;
    TickAdvances(k, p);
  }

  /**
   A process at index i of the ready queue that stays ready is dispatched by the
   (i+1)-th context switch, and within 19 * (i + 1) timer ticks.
   */
  lemma BoundedWaiting(k: Kernel, actions: seq<Action>, p: nat)
    requires KInv(k) && AllowedRun(k, actions) && StaysReady(k, actions, p)
    requires Run(k, actions).switches - k.switches >= IndexOf(k.ready, p) + 1
          || Ticks(actions) >= 19 * (IndexOf(k.ready, p) + 1)
    ensures Dispatched(k, actions, p)
  {
    hide StaysReady, AllowedRun, Run, IndexOf, Ticks, Dispatched, OneQueue, Allocated, StatusAgrees, ForegroundOk,
         WaitersOk, ChildrenOk;
    if !Dispatched(k, actions, p) {
      WaitingCosts(k, actions, p);
    }
  }
}
