/**
 The MVar simulation: a data pipe carrying values and a token pipe carrying one
 token, used by any number of writers and readers.  Every step of every call on
 the two pipes is interleaved freely.
 */
module MVar {
  import opened Tallies
  import opened Options
  import opened PipeProtocol
  import opened PipeSafety

  /** The byte used as the token. */
  const ONE: char := '\U{0001}'

  /**
   Program points.  Writers: about to read the token pipe, in that call, holding
   the token, in the write of the value, in the write that gives the token back
   after a failed write.  Readers: about to read the data pipe, in that call,
   holding a value, value printed, in the write that returns the token.
   Set-up: about to write the initial token, in that call, done.
   */
  datatype Agent =
    | WantToken(val: char) | TakingToken(val: char) | HasToken(val: char) | Putting(val: char) | Releasing(val: char)
    | WantValue | TakingValue | HasValue(v: char) | Printed | Returning
    | Setup | SettingUp | Finished

  /** `printed` records the values in the order the readers print them. */
  datatype State = State(token: Pipe, data: Pipe, agents: seq<Agent>, printed: seq<char>)

  predicate InTokenCall(a: Agent) { a.TakingToken? || a.Releasing? || a.Returning? || a.SettingUp? }
  predicate InDataCall(a: Agent) { a.Putting? || a.TakingValue? }

  /** The value a finished call returned. */
  function Result(t: Task): int {
    if t.Idle? && t.last.Returned? then t.last.result else -1
  }

  /** The one cell of a one-byte buffer, which holds 0 until it is written. */
  function CellOf(cells: seq<Option<char>>): char {
    if |cells| > 0 && cells[0].Some? then cells[0].value else '\0'
  }

  function FirstByte(t: Task): char {
    if t.Idle? && t.last.Returned? then CellOf(t.last.cells) else '\0'
  }

  function Call(s: Pipe, i: nat, op: Op): Pipe {
    if i < |s.tasks| && s.tasks[i].Idle? then Begin(s, i, op) else s
  }

  function Progress(s: Pipe, i: nat): Pipe {
    if i < |s.tasks| && CanStep(s.tasks[i]) then StepOf(s, i) else s
  }

  /** A step of agent `i` outside the pipe calls: issuing a call, acting on its result, printing. */
  function Local(m: State, i: nat): State
    requires i < |m.agents| == |m.token.tasks| == |m.data.tasks|
  {
    match m.agents[i]
    case WantToken(c) =>
      m.(token := Call(m.token, i, Read(1)), agents := m.agents[i := TakingToken(c)])
    case TakingToken(c) =>
      m.(agents := m.agents[i := if Result(m.token.tasks[i]) <= 0 then WantToken(c) else HasToken(c)])
    case HasToken(c) =>
      m.(data := Call(m.data, i, Write([c])), agents := m.agents[i := Putting(c)])
    case Putting(c) =>
      if Result(m.data.tasks[i]) <= 0
      then m.(token := Call(m.token, i, Write([ONE])), agents := m.agents[i := Releasing(c)])
      else m.(agents := m.agents[i := WantToken(c)])
    case Releasing(c) =>
      m.(agents := m.agents[i := WantToken(c)])
    case WantValue =>
      m.(data := Call(m.data, i, Read(1)), agents := m.agents[i := TakingValue])
    case TakingValue =>
      m.(agents := m.agents[i := if Result(m.data.tasks[i]) <= 0 then WantValue
          else HasValue(FirstByte(m.data.tasks[i]))])
    case HasValue(c) =>
      m.(printed := m.printed + [c], agents := m.agents[i := Printed])
    case Printed =>
      m.(token := Call(m.token, i, Write([ONE])), agents := m.agents[i := Returning])
    case Returning =>
      m.(agents := m.agents[i := WantValue])
    case Setup =>
      m.(token := Call(m.token, i, Write([ONE])), agents := m.agents[i := SettingUp])
    case SettingUp =>
      m.(agents := m.agents[i := Finished])
    case Finished => m
  }

  predicate Sized(m: State) { |m.agents| == |m.token.tasks| == |m.data.tasks| }

  /** Agent `i` takes its next step, if it is not queued on a semaphore. */
  function Act(m: State, i: nat): (m': State)
    requires Sized(m)
    ensures Sized(m') && |m'.agents| == |m.agents|
  {
    if i >= |m.agents| then m
    else if InTokenCall(m.agents[i]) && m.token.tasks[i].Busy? then m.(token := Progress(m.token, i))
    else if InDataCall(m.agents[i]) && m.data.tasks[i].Busy? then m.(data := Progress(m.data, i))
    else Local(m, i)
  }

  /** Any schedule: the sequence of agents that take a step. */
  function Play(m: State, schedule: seq<nat>): (m': State)
    requires Sized(m)
    ensures Sized(m') && |m'.agents| == |m.agents|
    decreases |schedule|
  {
    if schedule == [] then m else Play(Act(m, schedule[0]), schedule[1..])
  }

  predicate CanMove(m: State, i: nat)
    requires Sized(m) && i < |m.agents|
  {
    if InTokenCall(m.agents[i]) && m.token.tasks[i].Busy? then CanStep(m.token.tasks[i])
    else if InDataCall(m.agents[i]) && m.data.tasks[i].Busy? then CanStep(m.data.tasks[i])
    else !m.agents[i].Finished?
  }

  predicate IsWriter(a: Agent) {
    a.WantToken? || a.TakingToken? || a.HasToken? || a.Putting? || a.Releasing?
  }

  predicate IsReader(a: Agent) {
    a.WantValue? || a.TakingValue? || a.HasValue? || a.Printed? || a.Returning?
  }

  function IsSetup(a: Agent): nat { if a.Setup? then 1 else 0 }

  /** Any number of writers and readers about to start, and the one process that puts the token in. */
  ghost predicate Starting(agents: seq<Agent>) {
    && (forall i :: 0 <= i < |agents| ==> agents[i].WantToken? || agents[i].WantValue? || agents[i].Setup?)
    && Count(agents, IsSetup) == 1
  }

  function Initial(agents: seq<Agent>): State {
    State(Fresh(|agents|), Fresh(|agents|), agents, [])
  }

  // ---- what an agent holds ----------------------------------------------

  datatype View = View(agent: Agent, token: Task, data: Task)

  function Views(m: State): (r: seq<View>)
    requires Sized(m)
    ensures |r| == |m.agents|
  {
    seq(|m.agents|, i requires 0 <= i < |m.agents| => View(m.agents[i], m.token.tasks[i], m.data.tasks[i]))
  }

  /** Bytes a call has moved; a finished one-byte call moved its byte. */
  function Moved(t: Task): nat {
    if t.Busy? then t.moved else 1
  }

  function Minus(a: nat, b: nat): nat { if a >= b then a - b else 0 }

  /** The token, or the value standing for it, is in this agent's hands. */
  function Holds(x: View): nat {
    match x.agent
    case WantToken(_) => 0
    case TakingToken(_) => Moved(x.token)
    case HasToken(_) => 1
    case Putting(_) => Minus(1, Moved(x.data))
    case Releasing(_) => Minus(1, Moved(x.token))
    case WantValue => 0
    case TakingValue => Moved(x.data)
    case HasValue(_) => 1
    case Printed => 1
    case Returning => Minus(1, Moved(x.token))
    case Setup => 1
    case SettingUp => Minus(1, Moved(x.token))
    case Finished => 0
  }

  /** A value taken out of the data pipe and not yet printed. */
  function Unprinted(x: View): nat {
    match x.agent
    case TakingValue => Moved(x.data)
    case HasValue(_) => 1
    case _ => 0
  }

  function ValueOf(x: View): char {
    match x.agent
    case TakingValue =>
      if x.data.Busy? then CellOf(x.data.cells) else FirstByte(x.data)
    case HasValue(c) => c
    case _ => '\0'
  }

  /** The process is in, or has just returned from, this call. */
  predicate InCall(t: Task, op: Op) {
    if t.Busy? then t.op == op else t.last.Returned? && t.last.op == op
  }

  /** The agent's program point agrees with its two tasks; a failed write never happens. */
  predicate Fit(x: View) {
    match x.agent
    case TakingToken(_) => InCall(x.token, Read(1)) && x.data.Idle?
    case Putting(c) => InCall(x.data, Write([c])) && x.token.Idle?
    case Releasing(_) => false
    case TakingValue => InCall(x.data, Read(1)) && x.token.Idle?
    case Returning => InCall(x.token, Write([ONE])) && x.data.Idle?
    case SettingUp => InCall(x.token, Write([ONE])) && x.data.Idle?
    case _ => x.token.Idle? && x.data.Idle?
  }

  // ---- the invariant ----------------------------------------------------

  ghost predicate PipesOk(m: State) {
    Sized(m) && PipeInv(m.token) && PipeInv(m.data) && Unclearing(m.token) && Unclearing(m.data)
  }

  ghost predicate AllFit(m: State)
    requires Sized(m)
  {
    forall i :: 0 <= i < |m.agents| ==> Fit(View(m.agents[i], m.token.tasks[i], m.data.tasks[i]))
  }

  /** Exactly one token: in the token pipe, in someone's hands, or as a value in the data pipe. */
  ghost predicate OneToken(m: State)
    requires Sized(m)
  {
    m.token.ring.count + m.data.ring.count + Count(Views(m), Holds) == 1
  }

  /** The values consumed are those printed, and at most the one now in a reader's hands. */
  ghost predicate PrintedInOrder(m: State)
    requires Sized(m)
  {
    && m.printed <= m.data.consumed
    && |m.data.consumed| == |m.printed| + Count(Views(m), Unprinted)
    && (forall i :: 0 <= i < |m.agents| && Unprinted(Views(m)[i]) > 0 ==>
          |m.data.consumed| > |m.printed| && ValueOf(Views(m)[i]) == m.data.consumed[|m.printed|])
  }

  ghost predicate MVarInv(m: State) {
    PipesOk(m) && AllFit(m) && OneToken(m) && PrintedInOrder(m)
  }
}
