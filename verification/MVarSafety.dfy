/** The MVar invariant is kept by every step; what follows for every run. */
module MVarSafety {
  import opened Tallies
  import opened RingBuffer
  import opened PipeProtocol
  import opened PipeSafety
  import opened MVar

  // ---- the effect of one pipe step, seen from outside -------------------

  /** Same call, same bytes: only the position inside the round may differ. */
  predicate Similar(t: Task, t': Task) {
    t == t' || (t.Busy? && t'.Busy? && t' == t.(phase := t'.phase))
  }

  lemma OthersSimilar(s: Pipe, p: nat, q: nat)
    requires p < |s.tasks| && q < |s.tasks| && q != p
    ensures |Progress(s, p).tasks| == |s.tasks|
    ensures Similar(s.tasks[q], Progress(s, p).tasks[q])
  {
  }

  lemma SimilarViews(a: Agent, t: Task, t': Task, d: Task, d': Task)
    requires Similar(t, t') && Similar(d, d')
    ensures var x, y := View(a, t, d), View(a, t', d');
            Fit(x) == Fit(y) && Holds(x) == Holds(y) && Unprinted(x) == Unprinted(y) && ValueOf(x) == ValueOf(y)
  {
  }

  /** The first byte a read has delivered. */
  function FirstGot(t: Task): char {
    if t.Busy? then CellOf(t.cells) else FirstByte(t)
  }

  /** What a step of a one-byte call of process `p` does to the pipe. */
  ghost predicate OwnEffect(s: Pipe, s': Pipe, p: nat)
    requires p < |s.tasks| == |s'.tasks| && s.tasks[p].Busy?
  {
    var t, t' := s.tasks[p], s'.tasks[p];
    && InCall(t', t.op)
    && Moved(t) <= Moved(t') <= 1
    && (t.op.Write? ==> s'.ring.count == s.ring.count + (Moved(t') - Moved(t)) && s'.consumed == s.consumed)
    && (t.op.Read? ==> s'.ring.count == s.ring.count - (Moved(t') - Moved(t)))
    && (t.op.Read? && Moved(t) == Moved(t') ==>
          s'.consumed == s.consumed && (Moved(t) == 1 ==> FirstGot(t') == FirstGot(t)))
    && (t.op.Read? && Moved(t) != Moved(t') ==> s'.consumed == s.consumed + [FirstGot(t')])
  }

  predicate OneByte(op: Op) {
    !op.Clear? && Rounds(op) == 1
  }

  lemma BodyEffect(s: Pipe, p: nat)
    requires PipeInv(s) && !s.cleared && At(s, p, Body) && OneByte(s.tasks[p].op)
    ensures OwnEffect(s, RunBody(s, p), p)
  {
    hide Queues, Balanced, InOrder;
    assert TaskOk(s.tasks[p], s.cleared);
    if s.tasks[p].op.Read? { ByteToRead(s, p); } else { RoomToWrite(s, p); }
  }

  lemma StepEffect(s: Pipe, p: nat)
    requires PipeInv(s) && Unclearing(s) && p < |s.tasks| && s.tasks[p].Busy? && OneByte(s.tasks[p].op)
    ensures |Progress(s, p).tasks| == |s.tasks| && OwnEffect(s, Progress(s, p), p)
  {
    hide Queues, Balanced, InOrder;
    assert TaskOk(s.tasks[p], s.cleared);
    if CanStep(s.tasks[p]) && s.tasks[p].phase == Body { BodyEffect(s, p); }
  }

  lemma ProgressKeeps(s: Pipe, i: nat)
    requires PipeInv(s) && Unclearing(s)
    ensures PipeInv(Progress(s, i)) && Unclearing(Progress(s, i))
  {
    hide PipeInv, Unclearing, StepOf;
    if i < |s.tasks| && CanStep(s.tasks[i]) {
      StepKeeps(s, Advance(i));
      StepUnclearing(s, Advance(i));
    }
  }

  lemma CallKeeps(s: Pipe, i: nat, op: Op)
    requires PipeInv(s) && Unclearing(s) && !op.Clear?
    ensures PipeInv(Call(s, i, op)) && Unclearing(Call(s, i, op))
    ensures |Call(s, i, op).tasks| == |s.tasks|
  {
    hide PipeInv, Unclearing;
    if i < |s.tasks| && s.tasks[i].Idle? {
      StepKeeps(s, Start(i, op));
      StepUnclearing(s, Start(i, op));
    }
  }

  // ---- counting over agents ---------------------------------------------

  /** The two states agree, as far as holdings and values go, on every agent but `i`. */
  ghost predicate SameBut(m: State, m': State, i: nat)
    requires Sized(m) && Sized(m')
  {
    && |m'.agents| == |m.agents| && i < |m.agents|
    && forall j :: 0 <= j < |m.agents| && j != i ==>
         var x, y := Views(m)[j], Views(m')[j];
         && Fit(x) == Fit(y) && Holds(x) == Holds(y)
         && Unprinted(x) == Unprinted(y) && ValueOf(x) == ValueOf(y)
  }

  lemma HoldsAfter(m: State, m': State, i: nat)
    requires Sized(m) && Sized(m') && SameBut(m, m', i)
    ensures Count(Views(m'), Holds) + Holds(Views(m)[i]) == Count(Views(m), Holds) + Holds(Views(m')[i])
    ensures Count(Views(m'), Unprinted) + Unprinted(Views(m)[i]) == Count(Views(m), Unprinted) + Unprinted(Views(m')[i])
  {
    CountDiffer(Views(m), Views(m'), i, Holds);
    CountDiffer(Views(m), Views(m'), i, Unprinted);
  }

  lemma FitAfter(m: State, m': State, i: nat)
    requires Sized(m) && Sized(m') && SameBut(m, m', i)
    requires AllFit(m) && Fit(Views(m')[i])
    ensures AllFit(m')
  {
    forall j | 0 <= j < |m'.agents| ensures Fit(View(m'.agents[j], m'.token.tasks[j], m'.data.tasks[j])) {
      assert Fit(View(m.agents[j], m.token.tasks[j], m.data.tasks[j]));
      assert Views(m')[j] == View(m'.agents[j], m'.token.tasks[j], m'.data.tasks[j]);
    }
  }

  /** Agent `i` neither gained nor lost an unprinted value. */
  lemma PrintedAfter(m: State, m': State, i: nat)
    requires Sized(m) && Sized(m') && SameBut(m, m', i) && PrintedInOrder(m)
    requires m'.printed == m.printed && m'.data.consumed == m.data.consumed
    requires Unprinted(Views(m')[i]) == Unprinted(Views(m)[i])
    requires Unprinted(Views(m)[i]) > 0 ==> ValueOf(Views(m')[i]) == ValueOf(Views(m)[i])
    ensures PrintedInOrder(m')
  {
    hide Unprinted, ValueOf, Holds, Fit, Views;
    HoldsAfter(m, m', i);
  }

  /** While a value is in the data pipe nobody holds one. */
  lemma NobodyHolds(m: State)
    requires Sized(m) && OneToken(m) && m.data.ring.count > 0
    ensures Count(Views(m), Holds) == 0 && Count(Views(m), Unprinted) == 0 && m.token.ring.count == 0
  {
    CountDominated(Views(m), Unprinted, Holds, |m.agents|);
  }

  /** At most one agent holds anything. */
  lemma OneHolder(m: State, i: nat, j: nat)
    requires Sized(m) && OneToken(m) && i < |m.agents| && j < |m.agents| && i != j
    ensures Holds(Views(m)[i]) + Holds(Views(m)[j]) <= 1
  {
    CountTwo(Views(m), i, j, Holds);
  }

  // ---- steps inside a pipe call -----------------------------------------

  lemma TokenStepSame(m: State, i: nat)
    requires Sized(m) && i < |m.agents|
    ensures Sized(m.(token := Progress(m.token, i))) && SameBut(m, m.(token := Progress(m.token, i)), i)
  {
    hide Fit, Holds, Unprinted, ValueOf, Progress;
    var m' := m.(token := Progress(m.token, i));
    ProgressSize(m.token, i);
    forall j | 0 <= j < |m.agents| && j != i ensures Similar(m.token.tasks[j], m'.token.tasks[j]) {
      OthersSimilar(m.token, i, j);
    }
    forall j | 0 <= j < |m.agents| && j != i
      ensures var x, y := Views(m)[j], Views(m')[j];
              Fit(x) == Fit(y) && Holds(x) == Holds(y) && Unprinted(x) == Unprinted(y) && ValueOf(x) == ValueOf(y)
    {
      SimilarViews(m.agents[j], m.token.tasks[j], m'.token.tasks[j], m.data.tasks[j], m.data.tasks[j]);
    }
  }

  lemma DataStepSame(m: State, i: nat)
    requires Sized(m) && i < |m.agents|
    ensures Sized(m.(data := Progress(m.data, i))) && SameBut(m, m.(data := Progress(m.data, i)), i)
  {
    hide Fit, Holds, Unprinted, ValueOf, Progress;
    var m' := m.(data := Progress(m.data, i));
    ProgressSize(m.data, i);
    forall j | 0 <= j < |m.agents| && j != i ensures Similar(m.data.tasks[j], m'.data.tasks[j]) {
      OthersSimilar(m.data, i, j);
    }
    forall j | 0 <= j < |m.agents| && j != i
      ensures var x, y := Views(m)[j], Views(m')[j];
              Fit(x) == Fit(y) && Holds(x) == Holds(y) && Unprinted(x) == Unprinted(y) && ValueOf(x) == ValueOf(y)
    {
      SimilarViews(m.agents[j], m.token.tasks[j], m.token.tasks[j], m.data.tasks[j], m'.data.tasks[j]);
    }
  }

  lemma ProgressSize(s: Pipe, i: nat)
    ensures |Progress(s, i).tasks| == |s.tasks|
  {
  }

  lemma TokenStepKeeps(m: State, i: nat)
    requires MVarInv(m) && i < |m.agents| && InTokenCall(m.agents[i]) && m.token.tasks[i].Busy?
    ensures MVarInv(m.(token := Progress(m.token, i)))
  {
    hide PipeInv, Unclearing, Progress, Count, Unprinted, ValueOf, PrintedInOrder, SameBut, AllFit;
    var m' := m.(token := Progress(m.token, i));
    FitOf(m, i);
    ProgressKeeps(m.token, i);
    StepEffect(m.token, i);
    TokenStepSame(m, i);
    HoldsAfter(m, m', i);
    FitAfter(m, m', i);
    TokenPrinted(m, m', i);
  }

  lemma FitOf(m: State, i: nat)
    requires Sized(m) && AllFit(m) && i < |m.agents|
    ensures Fit(View(m.agents[i], m.token.tasks[i], m.data.tasks[i]))
  {
  }

  lemma TokenPrinted(m: State, m': State, i: nat)
    requires Sized(m) && Sized(m') && SameBut(m, m', i) && PrintedInOrder(m)
    requires m' == m.(token := m'.token) && i < |m.agents|
    ensures PrintedInOrder(m')
  {
    hide Count, SameBut, PrintedInOrder;
    assert Views(m)[i].data == Views(m')[i].data && Views(m)[i].agent == Views(m')[i].agent;
    PrintedAfter(m, m', i);
  }

  lemma DataStepKeeps(m: State, i: nat)
    requires MVarInv(m) && i < |m.agents| && InDataCall(m.agents[i]) && m.data.tasks[i].Busy?
    ensures MVarInv(m.(data := Progress(m.data, i)))
  {
    hide PipeInv, Unclearing, Progress, Count, Unprinted, ValueOf, PrintedInOrder, SameBut, AllFit;
    var m' := m.(data := Progress(m.data, i));
    FitOf(m, i);
    ProgressKeeps(m.data, i);
    StepEffect(m.data, i);
    DataStepSame(m, i);
    HoldsAfter(m, m', i);
    FitAfter(m, m', i);
    DataPrinted(m, m', i);
  }

  lemma DataPrinted(m: State, m': State, i: nat)
    requires Sized(m) && Sized(m') && SameBut(m, m', i) && PrintedInOrder(m) && OneToken(m)
    requires m' == m.(data := m'.data)
    requires i < |m.agents| && InDataCall(m.agents[i]) && m.data.tasks[i].Busy?
              && Fit(View(m.agents[i], m.token.tasks[i], m.data.tasks[i]))
    requires OwnEffect(m.data, m'.data, i)
    ensures PrintedInOrder(m')
  {
    hide Count, SameBut, PrintedInOrder, OneToken;
    var t, t' := m.data.tasks[i], m'.data.tasks[i];
    if m.agents[i].TakingValue? && Moved(t) != Moved(t') {
      NewlyConsumed(m, m', i);
    } else {
      PrintedAfter(m, m', i);
    }
  }

  /** A reader takes the one value out of the data pipe: everything before it had been printed. */
  lemma NewlyConsumed(m: State, m': State, i: nat)
    requires Sized(m) && Sized(m') && SameBut(m, m', i) && PrintedInOrder(m) && OneToken(m)
    requires m' == m.(data := m'.data)
    requires m.agents[i].TakingValue? && m.data.ring.count > 0
    requires Moved(m.data.tasks[i]) == 0 && Moved(m'.data.tasks[i]) == 1
    requires m'.data.consumed == m.data.consumed + [FirstGot(m'.data.tasks[i])]
    ensures PrintedInOrder(m')
  {
    hide Count, OneToken;
    NobodyHolds(m);
    CountNone(Views(m), Unprinted);
    HoldsAfter(m, m', i);
    assert forall j :: 0 <= j < |m'.agents| && j != i ==> Unprinted(Views(m')[j]) == Unprinted(Views(m)[j]) == 0;
  }

  // ---- steps outside the pipe calls -------------------------------------

  predicate AtLocal(m: State, i: nat)
    requires Sized(m)
  {
    && i < |m.agents|
    && !(InTokenCall(m.agents[i]) && m.token.tasks[i].Busy?)
    && !(InDataCall(m.agents[i]) && m.data.tasks[i].Busy?)
  }

  lemma LocalPipes(m: State, i: nat)
    requires PipesOk(m) && AtLocal(m, i)
    ensures PipesOk(Local(m, i)) && |Local(m, i).agents| == |m.agents|
    ensures Local(m, i).token.ring == m.token.ring && Local(m, i).data.ring == m.data.ring
    ensures Local(m, i).data.consumed == m.data.consumed
  {
    hide PipeInv, Unclearing;
    match m.agents[i]
    case WantToken(_) => CallKeeps(m.token, i, Read(1));
    case HasToken(c) => CallKeeps(m.data, i, Write([c]));
    case Putting(_) => CallKeeps(m.token, i, Write([ONE]));
    case WantValue => CallKeeps(m.data, i, Read(1));
    case Printed => CallKeeps(m.token, i, Write([ONE]));
    case Setup => CallKeeps(m.token, i, Write([ONE]));
    case _ =>
  }

  /** A local step touches only the agent's own view. */
  lemma LocalOthers(m: State, i: nat, j: nat)
    requires PipesOk(m) && AtLocal(m, i) && j < |m.agents| && j != i
    ensures PipesOk(Local(m, i)) && |Local(m, i).agents| == |m.agents|
    ensures Views(Local(m, i))[j] == Views(m)[j]
  {
    hide PipeInv, Unclearing;
    LocalPipes(m, i);
  }

  lemma ReturnedFull(s: Pipe, i: nat)
    requires PipeInv(s) && Unclearing(s) && i < |s.tasks| && s.tasks[i].Idle?
    requires s.tasks[i].last.Returned? && OneByte(s.tasks[i].last.op)
    ensures Result(s.tasks[i]) == 1
  {
    assert TaskOk(s.tasks[i], s.cleared);
  }

  lemma LocalView(m: State, i: nat)
    requires PipesOk(m) && AllFit(m) && AtLocal(m, i)
    ensures PipesOk(Local(m, i)) && |Local(m, i).agents| == |m.agents|
    ensures var x, y := Views(m)[i], Views(Local(m, i))[i];
            && Fit(y) && Holds(y) == Holds(x)
            && (!m.agents[i].HasValue? ==>
                  Unprinted(y) == Unprinted(x) && (Unprinted(x) > 0 ==> ValueOf(y) == ValueOf(x)))
            && (m.agents[i].HasValue? ==> Unprinted(x) == 1 && Unprinted(y) == 0 && ValueOf(x) == m.agents[i].v)
  {
    hide PipeInv, Unclearing;
    LocalPipes(m, i);
    FitOf(m, i);
    match m.agents[i]
    case TakingToken(_) => ReturnedFull(m.token, i);
    case Putting(_) => ReturnedFull(m.data, i);
    case TakingValue => ReturnedFull(m.data, i);
    case _ =>
  }

  lemma LocalKeeps(m: State, i: nat)
    requires MVarInv(m) && AtLocal(m, i)
    ensures MVarInv(Local(m, i))
  {
    hide PipeInv, Unclearing, Fit, Holds, Unprinted, ValueOf, AllFit, PrintedInOrder, Views, Local, Count;
    LocalSized(m, i);
    var m' := Local(m, i);
    LocalPipes(m, i);
    LocalView(m, i);
    forall j | 0 <= j < |m.agents| && j != i ensures Views(m')[j] == Views(m)[j] { LocalOthers(m, i, j); }
    HoldsAfter(m, m', i);
    FitAfter(m, m', i);
    if m.agents[i].HasValue? { JustPrinted(m, i); } else { LocalPrintedSame(m, i); PrintedAfter(m, m', i); }
  }

  lemma LocalSized(m: State, i: nat)
    requires PipesOk(m)
    ensures Sized(m)
  {
  }

  lemma LocalPrintedSame(m: State, i: nat)
    requires Sized(m) && i < |m.agents| && !m.agents[i].HasValue?
    ensures Local(m, i).printed == m.printed
  {
  }

  /** The value printed is the next one consumed. */
  lemma JustPrinted(m: State, i: nat)
    requires MVarInv(m) && i < |m.agents| && m.agents[i].HasValue?
    ensures Sized(Local(m, i)) && PrintedInOrder(Local(m, i))
  {
    hide PipeInv, Unclearing, Count;
    var m' := Local(m, i);
    assert Views(m)[i].agent == m.agents[i];
    CountAtLeast(Views(m), i, Holds);
    assert SameBut(m, m', i);
    HoldsAfter(m, m', i);
    forall j | 0 <= j < |m'.agents| ensures Unprinted(Views(m')[j]) == 0 {
      if j != i { OneHolder(m, i, j); }
    }
    CountZero(Views(m'), Unprinted);
  }

  // ---- every step, every run --------------------------------------------

  lemma ActKeeps(m: State, i: nat)
    requires MVarInv(m)
    ensures MVarInv(Act(m, i))
  {
    hide PipesOk, AllFit, OneToken, PrintedInOrder, Local, Progress;
    LocalSized(m, i);
    if i < |m.agents| {
      if InTokenCall(m.agents[i]) && m.token.tasks[i].Busy? {
        TokenStepKeeps(m, i);
      } else if InDataCall(m.agents[i]) && m.data.tasks[i].Busy? {
        DataStepKeeps(m, i);
      } else {
        LocalKeeps(m, i);
      }
    }
  }

  lemma {:induction false} PlayKeeps(m: State, schedule: seq<nat>)
    requires Sized(m) && MVarInv(m)
    ensures MVarInv(Play(m, schedule))
    decreases |schedule|
  {
    hide MVarInv, Act;
    if schedule != [] {
      ActKeeps(m, schedule[0]);
      PlayKeeps(Act(m, schedule[0]), schedule[1..]);
    }
  }

  lemma {:induction false} SetupCount(agents: seq<Agent>, views: seq<View>)
    requires |views| == |agents|
    requires forall i :: 0 <= i < |agents| ==> agents[i].WantToken? || agents[i].WantValue? || agents[i].Setup?
    requires forall i :: 0 <= i < |agents| ==> views[i].agent == agents[i]
    ensures Count(views, Holds) == Count(agents, IsSetup) && Count(views, Unprinted) == 0
  {
    if agents != [] {
      forall i | 0 <= i < |agents| - 1 ensures views[1..][i].agent == agents[1..][i] {
        assert views[1..][i] == views[i + 1];
      }
      assert views[0].agent == agents[0];
      SetupCount(agents[1..], views[1..]);
    }
  }

  lemma InitialInv(agents: seq<Agent>)
    requires Starting(agents)
    ensures MVarInv(Initial(agents))
  {
    hide PipeInv, Count;
    var m := Initial(agents);
    FreshInv(|agents|);
    SetupCount(agents, Views(m));
    forall i | 0 <= i < |agents| ensures Fit(View(m.agents[i], m.token.tasks[i], m.data.tasks[i]))
        && Unprinted(Views(m)[i]) == 0 {
      assert Views(m)[i].agent == agents[i];
    }
  }

  lemma Reachable(agents: seq<Agent>, schedule: seq<nat>)
    requires Starting(agents)
    ensures MVarInv(Play(Initial(agents), schedule))
  {
    hide MVarInv, Initial, Starting;
    InitialInv(agents);
    InitialSized(agents);
    PlayKeeps(Initial(agents), schedule);
  }

  lemma InitialSized(agents: seq<Agent>)
    ensures Sized(Initial(agents))
  {
  }

  // ---- theorems about whole runs ----------------------------------------

  /** There is always exactly one token, so at most one value is stored and at most one agent holds anything. */
  lemma AlwaysOneToken(agents: seq<Agent>, schedule: seq<nat>)
    requires Starting(agents)
    ensures var m := Play(Initial(agents), schedule);
            && m.token.ring.count + m.data.ring.count + Count(Views(m), Holds) == 1
            && forall i, j :: 0 <= i < j < |m.agents| ==> Holds(Views(m)[i]) + Holds(Views(m)[j]) <= 1
  {
    hide PipesOk, AllFit, PrintedInOrder, Holds, Initial, Views;
    Reachable(agents, schedule);
    InitialSized(agents);
    var m := Play(Initial(agents), schedule);
    forall i, j | 0 <= i < j < |m.agents| ensures Holds(Views(m)[i]) + Holds(Views(m)[j]) <= 1 {
      OneHolder(m, i, j);
    }
  }

  /** The values printed are the values written, in order, each once, with at most one still on its way. */
  lemma PrintedIsWritten(agents: seq<Agent>, schedule: seq<nat>)
    requires Starting(agents)
    ensures var m := Play(Initial(agents), schedule);
            && m.printed <= m.data.produced
            && |m.data.produced| <= |m.printed| + 1
  {
    hide PipeInv, AllFit, Initial, Count, Holds, Unprinted, ValueOf, Play;
    Reachable(agents, schedule);
    InitialSized(agents);
    var m := Play(Initial(agents), schedule);
    CountDominated(Views(m), Unprinted, Holds, |m.agents|) by { UnprintedIsHeld(m); }
    FifoOf(m.data);
  }

  lemma UnprintedIsHeld(m: State)
    requires Sized(m)
    ensures forall j :: 0 <= j < |Views(m)| ==> Unprinted(Views(m)[j]) <= Holds(Views(m)[j])
  {
  }

  lemma FifoOf(s: Pipe)
    requires PipeInv(s) && Unclearing(s)
    ensures s.produced == s.consumed + Contents(s.ring)
  {
  }

  // ---- deadlock freedom -------------------------------------------------

  ghost predicate Stuck(m: State)
    requires Sized(m)
  {
    forall i :: 0 <= i < |m.agents| ==> !CanMove(m, i)
  }

  /** When no agent can move, no task of either pipe can step. */
  lemma StuckTasks(m: State)
    requires Sized(m) && AllFit(m) && Stuck(m)
    ensures forall i :: 0 <= i < |m.agents| ==> !CanStep(m.token.tasks[i]) && !CanStep(m.data.tasks[i])
  {
    forall i | 0 <= i < |m.agents| ensures !CanStep(m.token.tasks[i]) && !CanStep(m.data.tasks[i]) {
      assert !CanMove(m, i);
      FitOf(m, i);
    }
  }

  /** A pipe that holds at most one byte leaves no writer waiting. */
  lemma NoWriterWaits(s: Pipe)
    requires PipeInv(s) && Unclearing(s) && s.ring.count <= 1
    requires forall i :: 0 <= i < |s.tasks| ==> !CanStep(s.tasks[i])
    ensures forall i :: 0 <= i < |s.tasks| && s.tasks[i].Busy? ==>
              OnReaders(s.tasks[i]) && s.tasks[i].moved < Rounds(s.tasks[i].op) && s.ring.count == 0
  {
    hide Queues, Balanced, InOrder;
    StuckOnlyOnEmptyOrFull(s);
    forall i | 0 <= i < |s.tasks| && s.tasks[i].Busy? ensures OnReaders(s.tasks[i])
        && s.tasks[i].moved < Rounds(s.tasks[i].op) && s.ring.count == 0 {
      assert TaskOk(s.tasks[i], s.cleared);
    }
  }

  /** When no agent can move, each is a writer or reader queued empty-handed, or finished. */
  lemma StuckAgent(m: State, i: nat)
    requires MVarInv(m) && Stuck(m) && i < |m.agents|
    ensures m.agents[i].Finished?
         || (m.agents[i].TakingToken? && m.token.ring.count == 0)
         || (m.agents[i].TakingValue? && m.data.ring.count == 0)
    ensures Holds(View(m.agents[i], m.token.tasks[i], m.data.tasks[i])) == 0
  {
    hide PipeInv, Unclearing, Stuck, Count, PrintedInOrder, AllFit;
    StuckTasks(m);
    FitOf(m, i);
    StuckMove(m, i);
    NoWriterWaits(m.token);
    NoWriterWaits(m.data);
  }

  lemma StuckMove(m: State, i: nat)
    requires Sized(m) && Stuck(m) && i < |m.agents|
    ensures !CanMove(m, i)
  {
  }

  /** With a writer and a reader around, some agent can always take a step. */
  lemma NeverStuck(m: State, w: nat, r: nat)
    requires MVarInv(m) && w < |m.agents| && r < |m.agents|
    requires IsWriter(m.agents[w]) && IsReader(m.agents[r])
    ensures !Stuck(m)
  {
    hide PipeInv, Unclearing, PrintedInOrder, AllFit, Stuck, Holds;
    if Stuck(m) {
      StuckAgent(m, w);
      StuckAgent(m, r);
      forall i | 0 <= i < |m.agents| ensures Holds(Views(m)[i]) == 0 {
        StuckAgent(m, i);
      }
      CountZero(Views(m), Holds);
    }
  }

  lemma ActKind(m: State, i: nat, j: nat)
    requires Sized(m) && j < |m.agents|
    ensures IsWriter(Act(m, i).agents[j]) == IsWriter(m.agents[j])
    ensures IsReader(Act(m, i).agents[j]) == IsReader(m.agents[j])
  {
  }

  lemma {:induction false} PlayKind(m: State, schedule: seq<nat>, j: nat)
    requires Sized(m) && j < |m.agents|
    ensures IsWriter(Play(m, schedule).agents[j]) == IsWriter(m.agents[j])
    ensures IsReader(Play(m, schedule).agents[j]) == IsReader(m.agents[j])
    decreases |schedule|
  {
    hide Act;
    if schedule != [] {
      ActKind(m, schedule[0], j);
      PlayKind(Act(m, schedule[0]), schedule[1..], j);
    }
  }

  /** No schedule of at least one writer and one reader ever reaches a deadlock. */
  lemma DeadlockFree(agents: seq<Agent>, schedule: seq<nat>, w: nat, r: nat)
    requires Starting(agents) && w < |agents| && r < |agents| && agents[w].WantToken? && agents[r].WantValue?
    ensures exists i :: 0 <= i < |agents| && CanMove(Play(Initial(agents), schedule), i)
  {
    hide MVarInv, Starting, Play, CanMove;
    Reachable(agents, schedule);
    InitialSized(agents);
    PlayKind(Initial(agents), schedule, w);
    PlayKind(Initial(agents), schedule, r);
    NeverStuck(Play(Initial(agents), schedule), w, r);
  }
}
