/**
 Processes stranded in wait: blocked by semaphore while no semaphore knows about
 them.  wait ignores the result of queueing its caller, a slot that was never
 opened has no queue at all, and closing a semaphore drops its queue.  This module
 says exactly which operations strand a process, and that it is for good.
 */
module Stranding {
  import opened Sequences
  import opened Semaphores
  import opened Processes
  import opened ProcessSafety
  import opened ProcessLaws
  import opened SemaphoreLaws
  import opened LostProcesses

  ghost predicate Stranded(k: Kernel, p: nat) {
    p in k.bySem && !WaitsSomewhere(k.sems, p)
  }

  // ---- who is in the wait queues, in every run --------------------------

  /** Blocked by semaphore, or idle, or killed since. */
  predicate Known(k: Kernel, p: nat) {
    p in k.bySem || p == IDLE || (p !in k.pcbs && p < k.nextPid)
  }

  ghost predicate Explained(k: Kernel) {
    forall id, p :: id in k.sems && p in k.sems[id].waiters ==> Known(k, p)
  }

  /** Nobody who is blocked by semaphore is queued twice. */
  ghost predicate NoDoubles(sems: map<nat, Sem>, bySem: seq<nat>) {
    && (forall i, j, p :: i in sems && j in sems && i != j && p in sems[i].waiters && p in sems[j].waiters ==>
          p !in bySem)
    && (forall i :: i in sems ==> NoRepeats(sems[i].waiters, bySem))
  }

  ghost predicate NoRepeats(s: seq<nat>, bySem: seq<nat>) {
    forall a, b :: 0 <= a < b < |s| && s[a] == s[b] ==> s[a] !in bySem
  }

  ghost predicate WaitQueuesOk(k: Kernel) {
    Explained(k) && NoDoubles(k.sems, k.bySem)
  }

  /** A ready process is in no wait queue. */
  lemma ReadyNowhere(k: Kernel, p: nat)
    requires KInv(k) && Explained(k) && p in k.ready
    ensures !WaitsSomewhere(k.sems, p)
  {
    hide StatusAgrees, Bounded, ForegroundOk, WaitersOk, ChildrenOk, Distinct;
    assert Queued(k, p) && !Known(k, p);
  }

  /** Fewer blocked processes and the same pcbs, or fewer with the pids still below nextPid. */
  lemma FewerDoubles(sems: map<nat, Sem>, bySem: seq<nat>, bySem': seq<nat>)
    requires NoDoubles(sems, bySem) && forall p :: p in bySem' ==> p in bySem
    ensures NoDoubles(sems, bySem')
  {
    forall i | i in sems ensures NoRepeats(sems[i].waiters, bySem') { assert NoRepeats(sems[i].waiters, bySem); }
  }

  lemma KillWaitQueues(k: Kernel, pid: int)
    requires KInv(k) && WaitQueuesOk(k)
    ensures WaitQueuesOk(Kill(k, pid))
  {
    hide Core, Kill, Queued, Distinct;
    var k' := Kill(k, pid);
    KillUntouched(k, pid);
    KillConfined(k, pid);
    forall p | Known(k, p) ensures Known(k', p) {
      if p in k.bySem && p != pid { KillReleases(k, pid, p); }
      if p in k.bySem && p == pid { KilledKnown(k, p); }
    }
    KillFewer(k, pid);
    FewerDoubles(k.sems, k.bySem, k'.bySem);
  }

  lemma KilledKnown(k: Kernel, p: nat)
    requires KInv(k) && p in k.bySem
    ensures Known(Kill(k, p), p)
  {
    hide StatusAgrees, Bounded, ForegroundOk, WaitersOk, ChildrenOk, Distinct, Kill;
    assert Queued(k, p);
    KillConfined(k, p);
    if p > 1 { KilledIsGone(k, p); } else { KillRefused(k, p); }
  }

  lemma KillRefused(k: Kernel, pid: int)
    requires pid <= 1
    ensures Kill(k, pid) == k
  {
  }

  lemma KillFewer(k: Kernel, pid: int)
    ensures forall p :: p in Kill(k, pid).bySem ==> p in k.bySem
  {
    hide Yield, Without;
    if !(pid <= 1 || !Queued(k, pid) || pid !in k.pcbs) {
      WithoutFewer(k.bySem, pid);
      YieldFrame(Killed(k, pid));
    }
  }

  lemma CreateWaitQueues(k: Kernel, a: Action)
    requires KInv(k) && WaitQueuesOk(k) && a.DoCreate?
    ensures WaitQueuesOk(Step(k, a))
  {
    hide KInv, Create, NoDoubles;
    var k' := Step(k, a);
    CreateUntouched(k, a.priority, a.foreground, a.tty, a.luck);
    NewPids(k, a.priority, a.foreground, a.tty, a.luck);
    forall p | Known(k, p) ensures Known(k', p) {}
  }

  lemma NewPids(k: Kernel, priority: nat, foreground: bool, tty: bool, luck: Luck)
    ensures var k' := Create(k, priority, foreground, tty, luck);
            k'.nextPid >= k.nextPid && forall p :: p in k'.pcbs ==> p in k.pcbs || p == k.nextPid
  {
  }

  /** Operations that touch neither the semaphores nor the processes blocked by them. */
  lemma OtherWaitQueues(k: Kernel, a: Action)
    requires KInv(k) && WaitQueuesOk(k) && !OnSemaphore(a) && !a.DoKill? && !a.DoCreate?
    ensures WaitQueuesOk(Step(k, a))
  {
    hide KInv, Step, NoDoubles;
    var k' := Step(k, a);
    SemsUntouched(k, a);
    StepConfined(k, a);
    forall p | Known(k, p) ensures Known(k', p) {}
  }

  lemma TableWaitQueues(k: Kernel, id: nat, value: nat)
    requires WaitQueuesOk(k)
    ensures WaitQueuesOk(SemInit(k, id, value)) && WaitQueuesOk(SemClose(k, id))
  {
    hide NoRepeats;
    assert NoRepeats([], k.bySem) by { EmptyNoRepeats(k.bySem); }
    forall p | Known(k, p) ensures Known(SemInit(k, id, value), p) && Known(SemClose(k, id), p) {}
  }

  lemma EmptyNoRepeats(bySem: seq<nat>)
    ensures NoRepeats([], bySem)
  {
  }

  lemma PostWaitQueues(k: Kernel, id: nat)
    requires KInv(k) && WaitQueuesOk(k)
    ensures WaitQueuesOk(SemPost(k, id))
  {
    hide Core, SemPost, NoDoubles, Distinct;
    var k' := SemPost(k, id);
    SemPostConfined(k, id);
    PostOutcome(k, id);
    if id < NUM_SEMS && Open(k, id) && k.sems[id].waiters != [] {
      var w := k.sems[id].waiters;
      TailDoubles(k.sems, k.bySem, id);
      FewerDoubles(k'.sems, k.bySem, k'.bySem);
      forall i, p | i in k'.sems && p in k'.sems[i].waiters ensures Known(k', p) {
        assert i in k.sems && p in k.sems[i].waiters;
        assert Known(k, p);
        if p == w[0] { QueuedTwice(k, id, i); }
      }
    } else {
      ValueDoubles(k.sems, k'.sems, k.bySem);
      forall i, p | i in k'.sems && p in k'.sems[i].waiters ensures Known(k', p) {
        assert i in k.sems && p in k.sems[i].waiters && Known(k, p);
      }
    }
  }

  /** What post does to the wait queues and to the processes blocked by semaphore. */
  lemma PostOutcome(k: Kernel, id: nat)
    requires KInv(k)
    ensures var k' := SemPost(k, id);
            if id < NUM_SEMS && Open(k, id) && k.sems[id].waiters != [] then
              && k'.sems == k.sems[id := k.sems[id].(waiters := k.sems[id].waiters[1..])]
              && (forall p :: p in k'.bySem <==> p in k.bySem && p != k.sems[id].waiters[0])
            else
              && k'.bySem == k.bySem && k'.sems.Keys == k.sems.Keys
              && forall i :: i in k.sems ==> k'.sems[i].waiters == k.sems[i].waiters
  {
    hide Without, StatusAgrees, Bounded, ForegroundOk, WaitersOk, ChildrenOk, Distinct;
    if id < NUM_SEMS && Open(k, id) && k.sems[id].waiters != [] { WithoutMembers(k.bySem, k.sems[id].waiters[0]); }
  }

  lemma TailDoubles(sems: map<nat, Sem>, bySem: seq<nat>, id: nat)
    requires NoDoubles(sems, bySem) && id in sems && sems[id].waiters != []
    ensures NoDoubles(sems[id := sems[id].(waiters := sems[id].waiters[1..])], bySem)
  {
    var w := sems[id].waiters;
    assert NoRepeats(w, bySem);
    assert forall p :: p in w[1..] ==> p in w;
  }

  lemma ValueDoubles(sems: map<nat, Sem>, sems': map<nat, Sem>, bySem: seq<nat>)
    requires NoDoubles(sems, bySem) && sems.Keys == sems'.Keys
    requires forall i :: i in sems ==> sems'[i].waiters == sems[i].waiters
    ensures NoDoubles(sems', bySem)
  {
    hide NoRepeats;
    forall i | i in sems' ensures NoRepeats(sems'[i].waiters, bySem) { assert NoRepeats(sems[i].waiters, bySem); }
  }

  /** The head of a wait queue that is queued once more is not blocked by semaphore. */
  lemma QueuedTwice(k: Kernel, id: nat, i: nat)
    requires NoDoubles(k.sems, k.bySem) && id in k.sems && k.sems[id].waiters != [] && i in k.sems
    requires var head := k.sems[id].waiters[0];
             if i == id then head in k.sems[id].waiters[1..] else head in k.sems[i].waiters
    ensures k.sems[id].waiters[0] !in k.bySem
  {
    var w := k.sems[id].waiters;
    assert NoRepeats(w, k.bySem);
    assert w[0] in w;
    if i == id {
      var b :| 0 <= b < |w[1..]| && w[1..][b] == w[0];
      assert w[b + 1] == w[0];
    }
  }

  lemma WaitWaitQueues(k: Kernel, id: nat, luck: WaitLuck)
    requires KInv(k) && WaitQueuesOk(k)
    ensures WaitQueuesOk(SemWait(k, id, luck))
  {
    hide Core, SemWait, NoDoubles, Enlisted, Taken;
    var k', cur := SemWait(k, id, luck), k.current;
    WaitOutcome(k, id, luck);
    SemWaitConfined(k, id, luck);
    WaitersAfter(k, id);
    forall p | Known(k, p) ensures Known(k', p) {}
    if HasToWait(k, DoSemWait(id, luck)) {
      var k1 := if luck.node then Enlisted(k, id) else k;
      if cur in k.ready {
        ReadyNowhere(k, cur);
        JoinDoubles(k.sems, k1.sems, k.bySem, id, cur);
      } else {
        IdleNotBlocked(k);
        IdleDoubles(k.sems, k1.sems, k.bySem, id, cur);
      }
    } else if id < NUM_SEMS && Units(k, id) > 0 {
      ValueDoubles(k.sems, Taken(k, id).sems, k.bySem);
    }
    forall i, p | i in k'.sems && p in k'.sems[i].waiters ensures Known(k', p) {
      assert i in k.sems && (p in k.sems[i].waiters || p == cur);
      assert p in k.sems[i].waiters ==> Known(k, p);
    }
  }

  lemma WaitersAfter(k: Kernel, id: nat)
    ensures Taken(k, id).sems.Keys == k.sems.Keys == Enlisted(k, id).sems.Keys
    ensures Units(k, id) > 0 ==> forall i :: i in k.sems ==> Taken(k, id).sems[i].waiters == k.sems[i].waiters
    ensures Units(k, id) == 0 ==>
              forall i :: i in k.sems ==>
                Enlisted(k, id).sems[i].waiters ==
                  if i == id && Open(k, id) then k.sems[i].waiters + [k.current] else k.sems[i].waiters
  {
  }

  /** The wait queues after `p` may have been appended to the one of `id`. */
  ghost predicate Appended(sems: map<nat, Sem>, sems': map<nat, Sem>, id: nat, p: nat) {
    && sems'.Keys == sems.Keys
    && forall i :: i in sems ==>
         sems'[i].waiters == sems[i].waiters || (i == id && sems'[i].waiters == sems[i].waiters + [p])
  }

  lemma JoinDoubles(sems: map<nat, Sem>, sems': map<nat, Sem>, bySem: seq<nat>, id: nat, p: nat)
    requires NoDoubles(sems, bySem) && Appended(sems, sems', id, p) && !WaitsSomewhere(sems, p)
    ensures NoDoubles(sems', bySem + [p])
  {
    forall i | i in sems' ensures NoRepeats(sems'[i].waiters, bySem + [p]) {
      assert NoRepeats(sems[i].waiters, bySem);
      assert p !in sems[i].waiters;
    }
    forall i, j, q | i in sems' && j in sems' && i != j && q in sems'[i].waiters && q in sems'[j].waiters
      ensures q !in bySem + [p]
    {
      assert p !in sems[i].waiters && p !in sems[j].waiters;
      assert q in sems[i].waiters && q in sems[j].waiters;
    }
  }

  lemma IdleDoubles(sems: map<nat, Sem>, sems': map<nat, Sem>, bySem: seq<nat>, id: nat, p: nat)
    requires NoDoubles(sems, bySem) && Appended(sems, sems', id, p) && p !in bySem
    ensures NoDoubles(sems', bySem)
  {
    forall i | i in sems' ensures NoRepeats(sems'[i].waiters, bySem) { assert NoRepeats(sems[i].waiters, bySem); }
  }

  lemma IdleNotBlocked(k: Kernel)
    requires KInv(k) && k.current !in k.ready
    ensures k.current == IDLE && k.current !in k.bySem
  {
  }

  lemma StepWaitQueues(k: Kernel, a: Action)
    requires KInv(k) && WaitQueuesOk(k)
    ensures WaitQueuesOk(Step(k, a))
  {
    hide KInv, WaitQueuesOk, SemWait, SemPost, SemInit, SemClose, Kill, Create, Tick, Yield, Block, Unblock, Waitpid;
    match a
    case DoKill(pid) => KillWaitQueues(k, pid);
    case DoCreate(_, _, _, _) => CreateWaitQueues(k, a);
    case DoSemInit(id, value) => TableWaitQueues(k, id, value);
    case DoSemClose(id) => TableWaitQueues(k, id, 0);
    case DoSemWait(id, wait) => WaitWaitQueues(k, id, wait);
    case DoSemPost(id) => PostWaitQueues(k, id);
    case _ => OtherWaitQueues(k, a);
  }

  /** In every run the pids in wait queues are explained, and nobody blocked by semaphore is queued twice. */
  lemma {:induction false} RunWaitQueues(k: Kernel, actions: seq<Action>)
    requires KInv(k) && WaitQueuesOk(k) && AllowedRun(k, actions)
    ensures WaitQueuesOk(Run(k, actions)) && KInv(Run(k, actions))
    decreases |actions|
  {
    hide KInv, WaitQueuesOk, Step, Allowed;
    if actions != [] {
      StepKeeps(k, actions[0]);
      StepWaitQueues(k, actions[0]);
      RunWaitQueues(Step(k, actions[0]), actions[1..]);
    }
  }

  lemma BootWaitQueues()
    ensures KInv(Boot()) && WaitQueuesOk(Boot())
  {
    BootInv();
  }

  // ---- what strands a process -------------------------------------------

  /**
   A wait that has to block leaves its caller in the wait queue if and only if the
   slot has one and its node was allocated.
   */
  lemma WaitQueuesIff(k: Kernel, id: nat, luck: WaitLuck)
    requires KInv(k) && WaitQueuesOk(k) && HasToWait(k, DoSemWait(id, luck)) && k.current in k.ready
    ensures var k' := SemWait(k, id, luck);
            && k.current in k'.bySem && (WaitsSomewhere(k'.sems, k.current) <==> Open(k, id) && luck.node)
  {
    hide Core, SemWait, NoDoubles, Enlisted;
    var cur, k' := k.current, SemWait(k, id, luck);
    ReadyNowhere(k, cur);
    WaitOutcome(k, id, luck);
    WaitersAfter(k, id);
    if Open(k, id) && luck.node { assert id in k'.sems && cur in k'.sems[id].waiters; }
  }

  /** The action strands `p`: it waits without being queued, or the semaphore it waits on is closed. */
  predicate Strands(k: Kernel, a: Action, p: nat) {
    || (HasToWait(k, a) && p == k.current && p in k.ready && !(Open(k, a.id) && a.wait.node))
    || (a.DoSemClose? && p in k.bySem && a.id in k.sems && p in k.sems[a.id].waiters)
  }

  /**
   An operation newly strands a process if and only if the process waits without
   being queued or its semaphore is closed.
   */
  lemma StepStrands(k: Kernel, a: Action, p: nat)
    requires KInv(k) && WaitQueuesOk(k) && !Stranded(k, p)
    ensures Stranded(Step(k, a), p) <==> Strands(k, a, p)
  {
    hide KInv, WaitQueuesOk, SemWait, SemPost, SemInit, SemClose, Kill, Create, Tick, Yield, Block, Unblock, Waitpid;
    match a
    case DoSemInit(id, value) => InitStrands(k, id, value, p);
    case DoSemClose(id) => CloseStrands(k, id, p);
    case DoSemWait(id, wait) => WaitStrands(k, id, wait, p);
    case DoSemPost(id) => PostStrands(k, id, p);
    case DoKill(pid) => KillUntouched(k, pid); KillFewer(k, pid);
    case _ => SemsUntouched(k, a);
  }

  lemma InitStrands(k: Kernel, id: nat, value: nat, p: nat)
    requires !Stranded(k, p)
    ensures !Stranded(SemInit(k, id, value), p)
  {
    var k' := SemInit(k, id, value);
    if p in k.bySem {
      var i :| i in k.sems && p in k.sems[i].waiters;
      assert i in k'.sems && p in k'.sems[i].waiters;
    }
  }

  lemma CloseStrands(k: Kernel, id: nat, p: nat)
    requires WaitQueuesOk(k) && !Stranded(k, p)
    ensures Stranded(SemClose(k, id), p) <==> Strands(k, DoSemClose(id), p)
  {
    hide NoRepeats;
    var k' := SemClose(k, id);
    if p in k.bySem {
      var i :| i in k.sems && p in k.sems[i].waiters;
      assert i != id ==> i in k'.sems && p in k'.sems[i].waiters;
    }
  }

  lemma PostStrands(k: Kernel, id: nat, p: nat)
    requires KInv(k) && !Stranded(k, p)
    ensures !Stranded(SemPost(k, id), p)
  {
    hide KInv, SemPost;
    var k' := SemPost(k, id);
    PostOutcome(k, id);
    if p in k'.bySem {
      var i :| i in k.sems && p in k.sems[i].waiters;
      assert k.sems[i].waiters != [] ==> k.sems[i].waiters == [k.sems[i].waiters[0]] + k.sems[i].waiters[1..];
      assert i in k'.sems && p in k'.sems[i].waiters;
    }
  }

  lemma WaitStrands(k: Kernel, id: nat, luck: WaitLuck, p: nat)
    requires KInv(k) && WaitQueuesOk(k) && !Stranded(k, p)
    ensures Stranded(SemWait(k, id, luck), p) <==> Strands(k, DoSemWait(id, luck), p)
  {
    hide KInv, SemWait, WaitQueuesOk, Enlisted, Taken;
    var k' := SemWait(k, id, luck);
    WaitOutcome(k, id, luck);
    WaitersAfter(k, id);
    if p in k.bySem {
      var i :| i in k.sems && p in k.sems[i].waiters;
      assert i in k'.sems && p in k'.sems[i].waiters;
      BlockedNotReady(k, p);
    } else if HasToWait(k, DoSemWait(id, luck)) && k.current in k.ready && p == k.current {
      WaitQueuesIff(k, id, luck);
    }
  }

  lemma BlockedNotReady(k: Kernel, p: nat)
    requires KInv(k) && p in k.bySem
    ensures p !in k.ready
  {
  }

  // ---- and for how long --------------------------------------------------

  /** Nothing but its own kill, which is refused for the shell, moves a stranded process. */
  lemma StrandedStays(k: Kernel, a: Action, p: nat)
    requires KInv(k) && Stranded(k, p) && (p > 1 ==> a != DoKill(p))
    ensures Stranded(Step(k, a), p)
  {
    hide KInv, SemWait, SemPost, SemInit, SemClose, Kill, Create, Tick, Yield, Block, Unblock, Waitpid;
    match a
    case DoSemInit(id, value) => StrandedTables(k, id, value, p);
    case DoSemClose(id) => StrandedTables(k, id, 0, p);
    case DoSemWait(id, wait) => StrandedWait(k, id, wait, p);
    case DoSemPost(id) => StrandedPost(k, id, p);
    case DoKill(pid) =>
      KillUntouched(k, pid);
      if pid != p { KillReleases(k, pid, p); } else { KillRefused(k, pid); }
    case _ => SemsUntouched(k, a);
  }

  lemma StrandedTables(k: Kernel, id: nat, value: nat, p: nat)
    requires Stranded(k, p)
    ensures Stranded(SemInit(k, id, value), p) && Stranded(SemClose(k, id), p)
  {
    forall i | i in SemInit(k, id, value).sems ensures p !in SemInit(k, id, value).sems[i].waiters {
      assert i in k.sems ==> p !in k.sems[i].waiters;
    }
    forall i | i in SemClose(k, id).sems ensures p !in SemClose(k, id).sems[i].waiters {
      assert i in k.sems && p !in k.sems[i].waiters;
    }
  }

  lemma StrandedWait(k: Kernel, id: nat, luck: WaitLuck, p: nat)
    requires KInv(k) && Stranded(k, p)
    ensures Stranded(SemWait(k, id, luck), p)
  {
    hide KInv, SemWait, Enlisted, Taken;
    var k' := SemWait(k, id, luck);
    WaitOutcome(k, id, luck);
    WaitersAfter(k, id);
    BlockedNotReady(k, p);
    BlockedNotCurrent(k, p);
    forall i | i in k'.sems ensures p !in k'.sems[i].waiters { assert i in k.sems && p !in k.sems[i].waiters; }
  }

  lemma BlockedNotCurrent(k: Kernel, p: nat)
    requires KInv(k) && p in k.bySem
    ensures p != k.current
  {
    assert Queued(k, p);
  }

  lemma StrandedPost(k: Kernel, id: nat, p: nat)
    requires KInv(k) && Stranded(k, p)
    ensures Stranded(SemPost(k, id), p)
  {
    hide KInv, SemPost;
    var k' := SemPost(k, id);
    PostOutcome(k, id);
    forall i | i in k'.sems ensures p !in k'.sems[i].waiters {
      assert i in k.sems && p !in k.sems[i].waiters;
      assert forall q :: q in k.sems[i].waiters[..] ==> q in k.sems[i].waiters;
    }
    if id in k.sems && k.sems[id].waiters != [] { assert k.sems[id].waiters[0] in k.sems[id].waiters; }
  }

  /**
   For good: a stranded process stays blocked whatever is posted, until it is
   killed; the shell cannot even be killed.
   */
  lemma {:induction false} StrandedForever(k: Kernel, actions: seq<Action>, p: nat)
    requires KInv(k) && AllowedRun(k, actions) && Stranded(k, p) && (p > 1 ==> DoKill(p) !in actions)
    ensures Stranded(Run(k, actions), p)
    decreases |actions|
  {
    hide KInv, Step, Stranded, Allowed;
    if actions != [] {
      StepKeeps(k, actions[0]);
      StrandedStays(k, actions[0], p);
      StrandedForever(Step(k, actions[0]), actions[1..], p);
    }
  }
}
