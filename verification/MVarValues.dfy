/** Where the printed values come from: each is the letter of one of the writers. */
module MVarValues {
  import opened Semaphores
  import opened RingBuffer
  import opened PipeProtocol
  import opened PipeSafety
  import opened MVar
  import opened MVarSafety

  predicate WriterOf(agents: seq<Agent>, i: nat, c: char) {
    i < |agents| && IsWriter(agents[i]) && agents[i].val == c
  }

  ghost predicate HasWriter(agents: seq<Agent>, c: char) {
    exists i :: WriterOf(agents, i, c)
  }

  /** The writers of the run are those of `start`, with the same letters. */
  ghost predicate SameWriters(agents: seq<Agent>, start: seq<Agent>) {
    |agents| == |start| && forall i, c :: WriterOf(agents, i, c) <==> WriterOf(start, i, c)
  }

  /** Everything written to the data pipe is the letter of some writer of `start`. */
  ghost predicate Authored(m: State, start: seq<Agent>) {
    && SameWriters(m.agents, start)
    && forall b :: 0 <= b < |m.data.produced| ==> HasWriter(start, m.data.produced[b])
  }

  /** A step on a pipe stores nothing, or the next byte of the caller's own write. */
  lemma StepProduces(s: Pipe, p: nat)
    requires p < |s.tasks| && CanStep(s.tasks[p]) && TaskOk(s.tasks[p], s.cleared)
    ensures || StepOf(s, p).produced == s.produced
            || (s.tasks[p].op.Write? && s.tasks[p].round < |s.tasks[p].op.data|
                && StepOf(s, p).produced == s.produced + [s.tasks[p].op.data[s.tasks[p].round]])
  {
    hide Store, Consume, Reset, Wake, Wait, Post;
  }

  /** Writers keep their letter. */
  lemma ActKeepsWriters(m: State, i: nat, start: seq<Agent>)
    requires Sized(m) && SameWriters(m.agents, start)
    ensures SameWriters(Act(m, i).agents, start)
  {
    hide Call, Progress, Result, FirstByte;
    var m' := Act(m, i);
    forall j, c ensures WriterOf(m'.agents, j, c) <==> WriterOf(start, j, c) {
      assert WriterOf(m'.agents, j, c) <==> WriterOf(m.agents, j, c);
    }
  }

  lemma ActProduces(m: State, i: nat)
    requires MVarInv(m) && i < |m.agents|
    ensures var m' := Act(m, i);
            || m'.data.produced == m.data.produced
            || (m.agents[i].Putting? && m'.data.produced == m.data.produced + [m.agents[i].val])
  {
    hide OneToken, PrintedInOrder, Queues, Balanced, InOrder, Unclearing, StepOf, Begin;
    assert TaskOk(m.data.tasks[i], m.data.cleared);
    assert Fit(View(m.agents[i], m.token.tasks[i], m.data.tasks[i]));
    if InDataCall(m.agents[i]) && m.data.tasks[i].Busy? {
      if CanStep(m.data.tasks[i]) { StepProduces(m.data, i); }
    } else {
      BeginProduces(m.data, i);
    }
  }

  lemma BeginProduces(s: Pipe, i: nat)
    ensures forall op :: Call(s, i, op).produced == s.produced
  {
  }

  lemma ActAuthored(m: State, i: nat, start: seq<Agent>)
    requires Sized(m) && MVarInv(m) && Authored(m, start)
    ensures Authored(Act(m, i), start)
  {
    hide MVarInv, Act, SameWriters, HasWriter;
    ActKeepsWriters(m, i, start);
    if i < |m.agents| {
      ActProduces(m, i);
      if m.agents[i].Putting? { PuttingWrites(m.agents, i, start); }
    } else {
      PastTheEnd(m, i);
    }
  }

  lemma PastTheEnd(m: State, i: nat)
    requires Sized(m) && i >= |m.agents|
    ensures Act(m, i) == m
  {
  }

  lemma PuttingWrites(agents: seq<Agent>, i: nat, start: seq<Agent>)
    requires SameWriters(agents, start) && i < |agents| && agents[i].Putting?
    ensures HasWriter(start, agents[i].val)
  {
    assert WriterOf(agents, i, agents[i].val);
  }

  lemma {:induction false} PlayAuthored(m: State, schedule: seq<nat>, start: seq<Agent>)
    requires Sized(m) && MVarInv(m) && Authored(m, start)
    ensures Authored(Play(m, schedule), start)
    decreases |schedule|
  {
    hide MVarInv, Act, Authored;
    if schedule != [] {
      ActKeeps(m, schedule[0]);
      ActAuthored(m, schedule[0], start);
      PlayAuthored(Act(m, schedule[0]), schedule[1..], start);
    }
  }

  /** In every run, every value printed is the letter of one of the writers. */
  lemma PrintedByWriters(agents: seq<Agent>, schedule: seq<nat>, b: nat)
    requires Starting(agents)
    ensures var m := Play(Initial(agents), schedule);
            b < |m.printed| ==> HasWriter(agents, m.printed[b])
  {
    hide MVarInv, Starting, Play, HasWriter;
    InitialInv(agents);
    InitialSized(agents);
    PlayAuthored(Initial(agents), schedule, agents);
    PrintedIsWritten(agents, schedule);
  }
}
