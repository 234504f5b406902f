/**
 The books of every semaphore over whole runs: units are conserved, waiters are
 served first come first served, and the processes queued on semaphores are
 exactly those in the blocked-by-semaphore queue.
 */
module SemaphoreLaws {
  import opened Sequences
  import opened Semaphores
  import opened Processes
  import opened ProcessSafety

  /** A wait that takes no unit and does not fail: its caller goes on to be queued and blocked. */
  predicate HasToWait(k: Kernel, a: Action) {
    a.DoSemWait? && a.id < NUM_SEMS && Units(k, a.id) == 0 && a.wait.pid
  }

  /**
   No semaphore waiter is killed, no semaphore with waiters is closed, and whoever
   has to wait is ready, waits on an open semaphore and finds memory for its queue
   node.
   */
  predicate Orderly(k: Kernel, a: Action) {
    && (a.DoKill? ==> a.pid !in k.bySem)
    && (a.DoSemClose? && a.id in k.sems ==> k.sems[a.id].waiters == [])
    && (HasToWait(k, a) ==> Open(k, a.id) && a.wait.node && k.current in k.ready)
  }

  /** Orderly, and no slot is used once closed: its queue pointer dangles. */
  predicate SemSafe(k: Kernel, a: Action) {
    Orderly(k, a) && (a.DoSemWait? || a.DoSemPost? ==> a.id !in k.unused.closed)
  }

  predicate SemSafeRun(k: Kernel, actions: seq<Action>)
    decreases |actions|
  {
    actions == [] || (SemSafe(k, actions[0]) && SemSafeRun(Step(k, actions[0]), actions[1..]))
  }

  /**
   Units: initial value and posts against value and grants.  Order: the arrivals
   are those served, then those waiting.
   */
  predicate Ledger(s: Sem, g: SemLog) {
    && s.value < WORD && (s.value > 0 ==> s.waiters == [])
    && g.init + g.posts == s.value + g.grants + WORD * g.wraps
    && g.arrivals == g.handed + s.waiters
  }

  ghost predicate Ledgers(sems: map<nat, Sem>, logs: map<nat, SemLog>) {
    sems.Keys == logs.Keys && forall id :: id in sems ==> Ledger(sems[id], logs[id])
  }

  /** The ledger, and nobody queued twice. */
  ghost predicate LogOk(s: Sem, g: SemLog) {
    Ledger(s, g) && Distinct(s.waiters)
  }

  ghost predicate Books(sems: map<nat, Sem>, logs: map<nat, SemLog>) {
    sems.Keys == logs.Keys && forall id :: id in sems ==> LogOk(sems[id], logs[id])
  }

  ghost predicate WaitsSomewhere(sems: map<nat, Sem>, p: nat) {
    exists id :: id in sems && p in sems[id].waiters
  }

  /** Pids queued on semaphores and processes blocked by semaphore match one to one. */
  ghost predicate Matched(sems: map<nat, Sem>, bySem: seq<nat>) {
    && (forall id, p :: id in sems && p in sems[id].waiters ==> p in bySem)
    && (forall p :: p in bySem ==> WaitsSomewhere(sems, p))
    && (forall i, j, p :: i in sems && j in sems && p in sems[i].waiters && p in sems[j].waiters ==> i == j)
  }

  ghost predicate SemInv(k: Kernel) {
    Books(k.sems, k.logs) && Matched(k.sems, k.bySem)
  }

  // ---- one semaphore ----------------------------------------------------

  lemma WaitLedger(s: Sem, g: SemLog, p: nat)
    requires Ledger(s, g)
    ensures s.value > 0 ==> Ledger(Wait(s, p), g.(grants := g.grants + 1))
    ensures s.value == 0 ==> Ledger(Wait(s, p), g.(arrivals := g.arrivals + [p]))
  {
    assert g.handed + s.waiters + [p] == g.handed + (s.waiters + [p]);
  }

  lemma PostLedger(s: Sem, g: SemLog)
    requires Ledger(s, g)
    ensures var g1 := g.(posts := g.posts + 1);
            && (s.waiters != [] ==> Ledger(Post(s), g1.(grants := g.grants + 1, handed := g.handed + [s.waiters[0]])))
            && (s.waiters == [] ==> Ledger(Post(s), g1.(wraps := g.wraps + (s.value + 1) / WORD)))
  {
    if s.waiters != [] {
      assert s.waiters == [s.waiters[0]] + s.waiters[1..];
      assert g.handed + s.waiters == (g.handed + [s.waiters[0]]) + s.waiters[1..];
    } else if s.value + 1 < WORD {
      assert (s.value + 1) / WORD == 0;
    } else {
      assert s.value + 1 == WORD;
    }
  }

  lemma WaitBooks(s: Sem, g: SemLog, p: nat)
    requires LogOk(s, g) && (s.value == 0 ==> p !in s.waiters)
    ensures s.value > 0 ==> LogOk(Wait(s, p), g.(grants := g.grants + 1))
    ensures s.value == 0 ==> LogOk(Wait(s, p), g.(arrivals := g.arrivals + [p]))
  {
    hide Ledger, Distinct;
    WaitLedger(s, g, p);
    if s.value == 0 { DistinctAppend(s.waiters, p); }
  }

  lemma PostBooks(s: Sem, g: SemLog)
    requires LogOk(s, g)
    ensures var g1 := g.(posts := g.posts + 1);
            && (s.waiters != [] ==> LogOk(Post(s), g1.(grants := g.grants + 1, handed := g.handed + [s.waiters[0]])))
            && (s.waiters == [] ==> LogOk(Post(s), g1.(wraps := g.wraps + (s.value + 1) / WORD)))
  {
    hide Ledger;
    PostLedger(s, g);
  }

  // ---- the matching -----------------------------------------------------

  lemma MatchJoin(sems: map<nat, Sem>, bySem: seq<nat>, id: nat, p: nat)
    requires Matched(sems, bySem) && id in sems && p !in bySem && sems[id].value == 0
    ensures Matched(sems[id := Wait(sems[id], p)], bySem + [p])
  {
    var sems' := sems[id := Wait(sems[id], p)];
    forall q | q in bySem + [p] ensures WaitsSomewhere(sems', q) {
      if q in bySem {
        assert WaitsSomewhere(sems, q);
        var i :| i in sems && q in sems[i].waiters;
        assert i in sems' && q in sems'[i].waiters;
      } else {
        assert id in sems' && p in sems'[id].waiters;
      }
    }
  }

  lemma MatchLeave(sems: map<nat, Sem>, bySem: seq<nat>, id: nat)
    requires Matched(sems, bySem) && Distinct(bySem) && id in sems && Sound(sems[id]) && sems[id].waiters != []
    ensures sems[id].waiters[0] in bySem
    ensures Matched(sems[id := Post(sems[id])], Without(bySem, sems[id].waiters[0]))
  {
    hide Distinct;
    var s := sems[id];
    var p := s.waiters[0];
    var sems' := sems[id := Post(s)];
    HeadOnce(s);
    WithoutMembers(bySem, p);
    forall q | q in Without(bySem, p) ensures WaitsSomewhere(sems', q) {
      assert WaitsSomewhere(sems, q);
      var i :| i in sems && q in sems[i].waiters;
      assert i in sems' && q in sems'[i].waiters;
    }
  }

  lemma HeadOnce(s: Sem)
    requires Sound(s) && s.waiters != []
    ensures s.waiters[0] in s.waiters && s.waiters[0] !in s.waiters[1..]
    ensures forall q :: q in s.waiters && q != s.waiters[0] ==> q in s.waiters[1..]
    ensures forall q :: q in s.waiters[1..] ==> q in s.waiters
  {
    assert s.waiters == [s.waiters[0]] + s.waiters[1..];
  }

  /** A change of value alone does not affect the matching. */
  lemma MatchSame(sems: map<nat, Sem>, sems': map<nat, Sem>, bySem: seq<nat>)
    requires Matched(sems, bySem) && sems.Keys == sems'.Keys
    requires forall i :: i in sems ==> sems'[i].waiters == sems[i].waiters
    ensures Matched(sems', bySem)
  {
    forall p | p in bySem ensures WaitsSomewhere(sems', p) {
      assert WaitsSomewhere(sems, p);
      var i :| i in sems && p in sems[i].waiters;
      assert i in sems' && p in sems'[i].waiters;
    }
  }

  // ---- the steps --------------------------------------------------------

  lemma SemWaitBooks(k: Kernel, id: nat, luck: WaitLuck)
    requires KInv(k) && SemInv(k) && Orderly(k, DoSemWait(id, luck))
    ensures SemInv(SemWait(k, id, luck))
  {
    hide Core, SemWait, Without, Matched, Wait, LogOk;
    var cur := k.current;
    WaitOutcome(k, id, luck);
    if id < NUM_SEMS && Units(k, id) > 0 {
      if Open(k, id) {
        WaitBooks(k.sems[id], k.logs[id], cur);
        MatchSame(k.sems, Taken(k, id).sems, k.bySem) by { WaitSameWaiters(k.sems[id], cur); }
      }
    } else if id < NUM_SEMS && luck.pid {
      ReadyNotQueued(k, id, cur);
      WaitBooks(k.sems[id], k.logs[id], cur);
      MatchJoin(k.sems, k.bySem, id, cur);
    }
  }

  /** What wait does to the semaphore table and to the processes blocked by semaphore. */
  lemma WaitOutcome(k: Kernel, id: nat, luck: WaitLuck)
    ensures var k', waits := SemWait(k, id, luck), HasToWait(k, DoSemWait(id, luck));
            && (!waits && id < NUM_SEMS && Units(k, id) > 0 ==> k' == Taken(k, id))
            && (!waits && !(id < NUM_SEMS && Units(k, id) > 0) ==> k' == k)
            && (waits ==> var k1 := if luck.node then Enlisted(k, id) else k;
                          && k'.sems == k1.sems && k'.logs == k1.logs
                          && k'.bySem == if k.current in k.ready then k.bySem + [k.current] else k.bySem)
            && (!waits ==> k'.bySem == k.bySem)
  {
    hide Yield, Without, Units, Enlisted, Taken;
    var k1 := if luck.node then Enlisted(k, id) else k;
    TablesOnly(k, id);
    YieldFrame(ToBySem(k1, k.current));
  }

  /** Queueing and taking a unit touch nothing but the semaphore table. */
  lemma TablesOnly(k: Kernel, id: nat)
    ensures var e := Enlisted(k, id); e == k.(sems := e.sems, logs := e.logs)
    ensures Taken(k, id).bySem == k.bySem
  {
    hide Wait;
  }

  lemma WaitSameWaiters(s: Sem, p: nat)
    requires s.value > 0
    ensures Wait(s, p).waiters == s.waiters
  {
  }

  lemma ReadyNotQueued(k: Kernel, id: nat, p: nat)
    requires KInv(k) && Matched(k.sems, k.bySem) && id in k.sems && p in k.ready
    ensures p !in k.bySem && p !in k.sems[id].waiters
  {
  }

  lemma SemPostBooks(k: Kernel, id: nat)
    requires KInv(k) && SemInv(k)
    ensures SemInv(SemPost(k, id))
  {
    hide Core, Without, Matched, Post, LogOk;
    if id < NUM_SEMS && Open(k, id) {
      PostBooks(k.sems[id], k.logs[id]);
      SoundOf(k.sems[id], k.logs[id]);
      if k.sems[id].waiters != [] {
        BySemDistinct(k);
        MatchLeave(k.sems, k.bySem, id);
      } else {
        MatchSame(k.sems, SemPost(k, id).sems, k.bySem) by { PostSameWaiters(k.sems[id]); }
      }
    }
  }

  lemma SoundOf(s: Sem, g: SemLog)
    requires LogOk(s, g)
    ensures Sound(s)
  {
  }

  lemma BySemDistinct(k: Kernel)
    requires KInv(k)
    ensures Distinct(k.bySem)
  {
  }

  lemma PostSameWaiters(s: Sem)
    requires s.waiters == []
    ensures Post(s).waiters == s.waiters
  {
  }

  lemma SemInitBooks(k: Kernel, id: nat, value: nat)
    requires SemInv(k)
    ensures SemInv(SemInit(k, id, value))
  {
    hide LogOk, Matched;
    FreshLogOk(value % WORD);
    SemInitMatched(k, id, value);
  }

  lemma FreshLogOk(value: nat)
    requires value < WORD
    ensures LogOk(Sem(value, []), SemLog(value, 0, 0, 0, [], []))
  {
  }

  lemma SemInitMatched(k: Kernel, id: nat, value: nat)
    requires Matched(k.sems, k.bySem)
    ensures Matched(SemInit(k, id, value).sems, k.bySem)
  {
    var k' := SemInit(k, id, value);
    forall p | p in k'.bySem ensures WaitsSomewhere(k'.sems, p) {
      assert WaitsSomewhere(k.sems, p);
      var i :| i in k.sems && p in k.sems[i].waiters;
      assert i in k'.sems && p in k'.sems[i].waiters;
    }
  }

  lemma SemCloseBooks(k: Kernel, id: nat)
    requires SemInv(k) && (id in k.sems ==> k.sems[id].waiters == [])
    ensures SemInv(SemClose(k, id))
  {
    var k' := SemClose(k, id);
    forall p | p in k'.bySem ensures WaitsSomewhere(k'.sems, p) {
      assert WaitsSomewhere(k.sems, p);
      var i :| i in k.sems && p in k.sems[i].waiters;
      assert i in k'.sems && p in k'.sems[i].waiters;
    }
  }

  /** The semaphore calls. */
  predicate OnSemaphore(a: Action) { a.DoSemInit? || a.DoSemClose? || a.DoSemWait? || a.DoSemPost? }

  /** Operations other than the semaphore calls leave semaphores and, kills apart, their waiters alone. */
  lemma SemsUntouched(k: Kernel, a: Action)
    requires !OnSemaphore(a)
    ensures Step(k, a).sems == k.sems && Step(k, a).logs == k.logs
    ensures (a.DoKill? ==> a.pid !in k.bySem) ==> Step(k, a).bySem == k.bySem
  {
    hide Yield, Tick, Block, Kill, Waitpid, Create, Unblock, ChangePrio;
    match a
    case DoTick => YieldFrame(k);
    case DoYield => YieldFrame(k);
    case DoBlock(pid) => BlockUntouched(k, pid);
    case DoKill(pid) => KillUntouched(k, pid);
    case DoWaitpid(pid) => WaitpidUntouched(k, pid);
    case DoUnblock(pid) => UnblockUntouched(k, pid);
    case DoCreate(priority, foreground, tty, luck) => CreateUntouched(k, priority, foreground, tty, luck);
    case DoChangePrio(pid, newPrio) => ChangePrioUntouched(k, pid, newPrio);
  }

  lemma UnblockUntouched(k: Kernel, pid: int)
    ensures Unblock(k, pid).sems == k.sems && Unblock(k, pid).logs == k.logs && Unblock(k, pid).bySem == k.bySem
  {
    hide Without;
  }

  lemma ChangePrioUntouched(k: Kernel, pid: int, newPrio: int)
    ensures var k' := ChangePrio(k, pid, newPrio); k'.sems == k.sems && k'.logs == k.logs && k'.bySem == k.bySem
  {
    hide Found;
  }

  lemma CreateUntouched(k: Kernel, priority: nat, foreground: bool, tty: bool, luck: Luck)
    ensures var k' := Create(k, priority, foreground, tty, luck);
            k'.sems == k.sems && k'.logs == k.logs && k'.bySem == k.bySem
  {
  }

  lemma BlockUntouched(k: Kernel, pid: int)
    ensures Block(k, pid).sems == k.sems && Block(k, pid).logs == k.logs && Block(k, pid).bySem == k.bySem
  {
    hide Yield, Without;
    if pid in k.ready { YieldFrame(ToBlocked(k, pid)); }
  }

  lemma WaitpidUntouched(k: Kernel, pid: int)
    ensures Waitpid(k, pid).sems == k.sems && Waitpid(k, pid).logs == k.logs && Waitpid(k, pid).bySem == k.bySem
  {
    hide Block, Without;
    if MayWait(k, pid) {
      var p: nat := pid;
      BlockUntouched(SetWaitingFor(k, k.current, p, BLOCKED).(waiting := k.waiting[k.current := p]), k.current);
    }
  }

  lemma KillUntouched(k: Kernel, pid: int)
    ensures Kill(k, pid).sems == k.sems && Kill(k, pid).logs == k.logs
    ensures pid !in k.bySem ==> Kill(k, pid).bySem == k.bySem
  {
    hide Yield, Without;
    if !(pid <= 1 || !Queued(k, pid) || pid !in k.pcbs) {
      var p: nat := pid;
      if pid !in k.bySem { WithoutAbsent(k.bySem, p); }
      YieldFrame(Killed(k, p));
    }
  }

  lemma StepBooks(k: Kernel, a: Action)
    requires KInv(k) && SemInv(k) && Orderly(k, a)
    ensures SemInv(Step(k, a))
  {
    hide KInv, SemWait, SemPost, SemInit, SemClose, Tick, Yield, Block, Unblock, Kill, Waitpid, Create, ChangePrio,
         Books, Matched;
    match a
    case DoSemInit(id, value) => SemInitBooks(k, id, value);
    case DoSemClose(id) => SemCloseBooks(k, id);
    case DoSemWait(id, wait) => SemWaitBooks(k, id, wait);
    case DoSemPost(id) => SemPostBooks(k, id);
    case _ => SemsUntouched(k, a);
  }

  lemma {:induction false} RunBooks(k: Kernel, actions: seq<Action>)
    requires KInv(k) && SemInv(k) && AllowedRun(k, actions) && SemSafeRun(k, actions)
    ensures SemInv(Run(k, actions)) && KInv(Run(k, actions))
    decreases |actions|
  {
    hide KInv, SemInv, Step, Allowed, Orderly;
    if actions != [] {
      StepKeeps(k, actions[0]);
      StepBooks(k, actions[0]);
      RunBooks(Step(k, actions[0]), actions[1..]);
    }
  }

  // ---- whole runs -------------------------------------------------------

  lemma StepLedgers(k: Kernel, a: Action)
    requires Ledgers(k.sems, k.logs)
    ensures Ledgers(Step(k, a).sems, Step(k, a).logs)
  {
    hide Ledgers, SemWait, SemPost, SemInit, SemClose, Tick, Yield, Block, Unblock, Kill, Waitpid, Create, ChangePrio;
    match a
    case DoSemInit(id, value) => TableLedgers(k, id, value);
    case DoSemClose(id) => TableLedgers(k, id, 0);
    case DoSemWait(id, wait) => WaitLedgers(k, id, wait);
    case DoSemPost(id) => PostLedgers(k, id);
    case _ => SemsUntouched(k, a);
  }

  lemma TableLedgers(k: Kernel, id: nat, value: nat)
    requires Ledgers(k.sems, k.logs)
    ensures Ledgers(SemInit(k, id, value).sems, SemInit(k, id, value).logs)
    ensures Ledgers(SemClose(k, id).sems, SemClose(k, id).logs)
  {
    hide Ledger;
    FreshLedger(value);
  }

  lemma WaitLedgers(k: Kernel, id: nat, luck: WaitLuck)
    requires Ledgers(k.sems, k.logs)
    ensures Ledgers(SemWait(k, id, luck).sems, SemWait(k, id, luck).logs)
  {
    hide Ledger, Wait, SemWait;
    WaitOutcome(k, id, luck);
    if Open(k, id) { WaitLedger(k.sems[id], k.logs[id], k.current); }
  }

  lemma PostLedgers(k: Kernel, id: nat)
    requires Ledgers(k.sems, k.logs)
    ensures Ledgers(SemPost(k, id).sems, SemPost(k, id).logs)
  {
    hide Ledger, Post, Without;
    if Open(k, id) { PostLedger(k.sems[id], k.logs[id]); }
  }

  lemma FreshLedger(value: nat)
    ensures Ledger(Sem(value % WORD, []), SemLog(value % WORD, 0, 0, 0, [], []))
  {
  }

  lemma {:induction false} RunLedgers(k: Kernel, actions: seq<Action>)
    requires Ledgers(k.sems, k.logs)
    ensures Ledgers(Run(k, actions).sems, Run(k, actions).logs)
    decreases |actions|
  {
    hide Ledgers, Step;
    if actions != [] {
      StepLedgers(k, actions[0]);
      RunLedgers(Step(k, actions[0]), actions[1..]);
    }
  }

  /**
   In every run whatsoever: a positive value means nobody waits; the pids served
   are a prefix of those that arrived, in order, and the rest is the queue; and
   initial value + posts = value + grants, up to multiples of 2^32 lost when the
   value wraps, so exactly while there are fewer than 2^32.
   */
  lemma LedgerTheorem(actions: seq<Action>, id: nat)
    ensures var k := Run(Boot(), actions);
            id in k.sems ==>
              && id in k.logs
              && (k.sems[id].value > 0 ==> k.sems[id].waiters == [])
              && k.logs[id].handed <= k.logs[id].arrivals
              && k.logs[id].arrivals[|k.logs[id].handed|..] == k.sems[id].waiters
              && k.logs[id].init + k.logs[id].posts == k.sems[id].value + k.logs[id].grants + WORD * k.logs[id].wraps
              && (k.logs[id].init + k.logs[id].posts < WORD ==>
                    k.logs[id].init + k.logs[id].posts == k.sems[id].value + k.logs[id].grants)
  {
    hide Run;
    RunLedgers(Boot(), actions);
    var k := Run(Boot(), actions);
    assert id in k.sems ==> Ledger(k.sems[id], k.logs[id]);
  }

  /** In every safe run the pids queued on semaphores are those blocked by semaphore, one to one. */
  lemma SemaphoreTheorem(actions: seq<Action>, id: nat)
    requires AllowedRun(Boot(), actions) && SemSafeRun(Boot(), actions)
    ensures var k := Run(Boot(), actions);
            && Matched(k.sems, k.bySem) && Distinct(k.bySem)
            && (id in k.sems ==> Distinct(k.sems[id].waiters))
  {
    hide KInv, Run, AllowedRun, SemSafeRun, Matched, Distinct;
    BootInv();
    BootBooks();
    RunBooks(Boot(), actions);
    var k := Run(Boot(), actions);
    BySemDistinct(k);
    assert id in k.sems ==> LogOk(k.sems[id], k.logs[id]);
  }

  lemma BootBooks()
    ensures SemInv(Boot())
  {
  }

  // ---- units, slot by slot ----------------------------------------------

  /** A wait that finds a unit takes exactly that one and blocks nobody. */
  lemma WaitTakesOne(k: Kernel, id: nat, luck: WaitLuck, i: nat)
    requires id < NUM_SEMS && Units(k, id) > 0
    ensures var k' := SemWait(k, id, luck);
            && Units(k', i) == (if i == id then Units(k, i) - 1 else Units(k, i))
            && k' == k.(sems := k'.sems, logs := k'.logs, unused := k'.unused)
            && (Open(k', i) <==> Open(k, i))
  {
  }

  /** A post adds exactly one unit, in 32 bits, unless it has a waiter to hand it to. */
  lemma PostAddsOne(k: Kernel, id: nat, i: nat)
    requires id < NUM_SEMS
    ensures var k', handed := SemPost(k, id), Open(k, id) && k.sems[id].waiters != [];
            && Units(k', i) == (if i == id && !handed then (Units(k, i) + 1) % WORD else Units(k, i))
            && (Open(k', i) <==> Open(k, i))
  {
    hide Without;
  }

  /** Opening a slot not in use sets its value, whatever was posted there before; a slot in use is left alone. */
  lemma InitSetsUnits(k: Kernel, id: nat, value: nat, i: nat)
    requires id < NUM_SEMS && value < WORD && k.sems.Keys == k.logs.Keys
    ensures var k' := SemInit(k, id, value);
            && (id in k.sems ==> k' == k)
            && (id !in k.sems ==> Open(k', id) && k'.sems[id] == Sem(value, []))
            && (i != id ==> Units(k', i) == Units(k, i) && (Open(k', i) <==> Open(k, i)))
  {
  }

  /** Closing leaves a slot that is not open and has no units. */
  lemma CloseClears(k: Kernel, id: nat, i: nat)
    requires k.sems.Keys == k.logs.Keys
    ensures var k' := SemClose(k, id);
            && (id in k.sems ==> !Open(k', id) && Units(k', id) == 0 && id in k'.unused.closed)
            && (id !in k.sems ==> k' == k)
            && (i != id ==> Units(k', i) == Units(k, i) && (Open(k', i) <==> Open(k, i)))
  {
  }

  // ---- who releases a waiter --------------------------------------------

  lemma KillReleases(k: Kernel, pid: int, p: nat)
    requires KInv(k) && p in k.bySem && pid != p
    ensures p in Kill(k, pid).bySem
  {
    hide Yield, Without, StatusAgrees, Bounded, ForegroundOk, WaitersOk, ChildrenOk;
    if !(pid <= 1 || !Queued(k, pid) || pid !in k.pcbs) {
      var q: nat := pid;
      WithoutMembers(k.bySem, q);
      YieldFrame(Killed(k, q));
    }
  }

  lemma PostReleases(k: Kernel, id: nat, p: nat)
    requires KInv(k) && p in k.bySem && p !in SemPost(k, id).bySem
    ensures id < NUM_SEMS && id in k.sems && k.sems[id].waiters != [] && k.sems[id].waiters[0] == p
  {
    hide Without, StatusAgrees, Bounded, ForegroundOk, WaitersOk, ChildrenOk;
    if id < NUM_SEMS && Open(k, id) && k.sems[id].waiters != [] { WithoutMembers(k.bySem, k.sems[id].waiters[0]); }
  }

  /**
   A process blocked by semaphore is released by a post that finds it first in
   line, or by its own kill, and by nothing else: neither manual block and unblock
   nor any wake-up of a parent touches it.
   */
  lemma OnlyPostReleases(k: Kernel, a: Action, p: nat)
    requires KInv(k) && p in k.bySem && p !in Step(k, a).bySem
    ensures || a == DoKill(p)
            || (a.DoSemPost? && a.id in k.sems && k.sems[a.id].waiters != [] && k.sems[a.id].waiters[0] == p)
  {
    hide Core, Tick, Yield, Block, Unblock, Kill, Waitpid, SemWait, SemPost, Create;
    match a
    case DoKill(pid) => if pid != p { KillReleases(k, pid, p); }
    case DoSemPost(id) => PostReleases(k, id, p);
    case DoSemWait(id, wait) => WaitOutcome(k, id, wait);
    case DoSemInit(_, _) =>
    case DoSemClose(_) =>
    case _ => SemsUntouched(k, a);
  }

  // ---- killed waiters ---------------------------------------------------

  /**
   A post with a waiter at the head of the queue moves that process if and only if
   it is still blocked by semaphore.
   */
  lemma PostReaches(k: Kernel, id: nat)
    requires id < NUM_SEMS && Open(k, id) && k.sems[id].waiters != []
    ensures var head, k' := k.sems[id].waiters[0], SemPost(k, id);
            && k'.sems == k.sems[id := k.sems[id].(waiters := k.sems[id].waiters[1..])]
            && (k'.ready == k.ready + [head] <==> head in k.bySem)
            && (head !in k.bySem ==> k' == k.(sems := k'.sems, logs := k'.logs))
  {
    hide Without;
  }

  /**
   Killing the first waiter leaves its pid queued: the next post is handed to
   nobody, though others may be waiting.
   */
  lemma KilledWaiterAbsorbsPost(k: Kernel, id: nat)
    requires KInv(k) && id < NUM_SEMS && Open(k, id) && k.sems[id].waiters != []
    requires k.sems[id].waiters[0] in k.bySem && k.sems[id].waiters[0] > 1
    ensures var k1 := Kill(k, k.sems[id].waiters[0]);
            var k2 := SemPost(k1, id);
            && k1.sems == k.sems && k2.sems == k.sems[id := k.sems[id].(waiters := k.sems[id].waiters[1..])]
            && k2.ready == k1.ready && k2.blocked == k1.blocked && k2.bySem == k1.bySem && k2.pcbs == k1.pcbs
  {
    hide Core, Erase, Yield, WaitsFor, Unblock, SemPost, Queued;
    var head := k.sems[id].waiters[0];
    BlockedAllocated(k, head);
    KilledWaiter(k, head);
    PostReaches(Kill(k, head), id);
  }

  lemma BlockedAllocated(k: Kernel, p: nat)
    requires KInv(k) && p in k.bySem
    ensures p in k.pcbs && Queued(k, p)
  {
    assert Queued(k, p);
  }

  lemma KilledWaiter(k: Kernel, p: nat)
    requires KInv(k) && p in k.bySem && p in k.pcbs && p > 1
    ensures Kill(k, p).sems == k.sems && Kill(k, p).logs == k.logs && p !in Kill(k, p).bySem
  {
    hide Without, Yield, StatusAgrees, Bounded, ForegroundOk, WaitersOk, ChildrenOk;
    WithoutMembers(k.bySem, p);
    YieldFrame(Killed(k, p));
  }
}
