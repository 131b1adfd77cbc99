/** The shutdown handshake of one control connection (ftp/conn.go), as a
  * transition system over its two atomic flags, the lock mudt and the slot c.dt.
  *
  * The serve loop sets `executing` and then reads `shuttingDown`; `shutdown`
  * sets `shuttingDown` and then, under mudt, reads the slot and `executing`.
  * Each read or write of a flag is one step; a run is any interleaving of the
  * serve loop with any number of concurrent calls.
  *
  * The loop is modelled as written, with the branch for a line that does not
  * parse. ParseCommand never reports an error today, so the statements about
  * what the server does now are about runs in which every line parses.
  */
module GracefulShutdown {
  import opened Wrappers

  /** Where the serve loop is; each name says what comes next. */
  datatype Serve =
    | Testing // the loop condition reads shuttingDown
    | Scanning
    | Marking // executing.setTrue
    | Rechecking // reads shuttingDown again
    | Refusing // writes the 421 reply
    | Parsing
    | Executing // inside execCommand
    | Unmarking // executing.setFalse
    | Ended

  datatype Kind =
    | Shutdown // ServerConn.shutdown
    | Install // setDataTransfer of an active or passive transfer
    | Finish // closeDataTransfer
    | CloseAll // ServerConn.close

  /** Where a call is; shared by the four kinds. */
  datatype Point =
    | Entering
    | Locking
    | InLock
    | TestingExecuting
    | ClosingInLock
    | Unlocking
    | TestingFlag
    | ClosingAfter
    | ClosingLast
    | Returned

  datatype Agent = Agent(kind: Kind, point: Point)

  datatype State = State(
    serve: Serve,
    executing: bool,
    shuttingDown: bool,
    slotEmpty: bool, // c.dt is emptyDataTransfer
    lock: Option<nat>, // the call that holds mudt
    closed: bool, // rwc.Close has been called
    lastLineRejected: bool, // the latest line read did not parse
    agents: map<nat, Agent>)

  datatype Action =
    | ServeStep(ok: bool) // `ok` resolves Scan and ParseCommand
    | CommandQuits // QUIT, a rejected protocol or the sixth bad password
    | Start(id: nat, kind: Kind)
    | Advance(id: nat)

  // ------------------------------------------------------------ the steps

  function ServeNext(s: State, ok: bool): State {
    match s.serve
    case Testing => s.(serve := if s.shuttingDown then Ended else Scanning)
    case Scanning => s.(serve := if ok then Marking else Ended)
    case Marking => s.(serve := Rechecking, executing := true)
    case Rechecking => s.(serve := if s.shuttingDown then Refusing else Parsing)
    case Refusing => s.(serve := Ended)
    case Parsing => if ok then s.(serve := Executing) else s.(serve := Testing, lastLineRejected := true) // `continue`
    case Executing => s.(serve := Unmarking)
    case Unmarking => s.(serve := Testing, executing := false, lastLineRejected := false)
    case Ended => s
  }

  predicate AgentEnabled(s: State, id: nat) {
    id in s.agents && !s.agents[id].point.Returned? && (s.agents[id].point.Locking? ==> s.lock.None?)
  }

  function NextPoint(s: State, a: Agent): Point {
    match a.point
    case Entering => Locking
    case Locking => InLock
    case InLock => if a.kind.Shutdown? && s.slotEmpty then TestingExecuting else Unlocking
    case TestingExecuting => if s.executing then Unlocking else ClosingInLock
    case ClosingInLock => Unlocking
    case Unlocking => if a.kind.Finish? || a.kind.CloseAll? then TestingFlag else Returned
    case TestingFlag => if s.shuttingDown then ClosingAfter else if a.kind.CloseAll? then ClosingLast else Returned
    case ClosingAfter => if a.kind.CloseAll? then ClosingLast else Returned
    case ClosingLast => Returned
    case Returned => Returned
  }

  function AgentNext(s: State, id: nat): State
    requires AgentEnabled(s, id)
  {
    var a := s.agents[id];
    s.(agents := s.agents[id := Agent(a.kind, NextPoint(s, a))],
       shuttingDown := s.shuttingDown || (a.point.Entering? && (a.kind.Shutdown? || a.kind.CloseAll?)),
       lock := if a.point.Locking? then Some(id) else if a.point.Unlocking? then None else s.lock,
       slotEmpty := if !a.point.InLock? || a.kind.Shutdown? then s.slotEmpty else !a.kind.Install?,
       closed := s.closed || a.point.ClosingInLock? || a.point.ClosingAfter? || a.point.ClosingLast?)
  }

  predicate Enabled(s: State, act: Action) {
    match act
    case ServeStep(_) => !s.serve.Ended?
    case CommandQuits => s.serve.Executing?
    case Start(id, _) => id !in s.agents
    case Advance(id) => AgentEnabled(s, id)
  }

  function Step(s: State, act: Action): State
    requires Enabled(s, act)
  {
    match act
    case ServeStep(ok) => ServeNext(s, ok)
    case CommandQuits => s.(shuttingDown := true)
    case Start(id, kind) => s.(agents := s.agents[id := Agent(kind, Entering)])
    case Advance(id) => AgentNext(s, id)
  }

  const INITIAL := State(Testing, false, false, true, None, false, false, map[])

  ghost predicate IsRun(s: State, acts: seq<Action>)
    decreases |acts|
  {
    acts == [] || (Enabled(s, acts[0]) && IsRun(Step(s, acts[0]), acts[1..]))
  }

  ghost function After(s: State, acts: seq<Action>): State
    requires IsRun(s, acts)
    decreases |acts|
  {
    if acts == [] then s else After(Step(s, acts[0]), acts[1..])
  }

  ghost predicate Reachable(s: State) {
    exists acts :: IsRun(INITIAL, acts) && After(INITIAL, acts) == s
  }

  // -------------------------------------------------------- the invariant

  predicate HoldsLock(p: Point) {
    p.InLock? || p.TestingExecuting? || p.ClosingInLock? || p.Unlocking?
  }

  ghost predicate AgentOk(s: State, id: nat, a: Agent) {
    && (HoldsLock(a.point) <==> s.lock == Some(id))
    && ((a.kind.Shutdown? || a.kind.CloseAll?) && !a.point.Entering? ==> s.shuttingDown)
    && (a.point.ClosingLast? ==> a.kind.CloseAll?)
    && (a.point.TestingExecuting? || a.point.ClosingInLock? ==> a.kind.Shutdown? && s.slotEmpty)
    && (a.point.ClosingInLock? ==> !s.serve.Parsing? && !s.serve.Executing? && !s.serve.Unmarking?)
    && (a.point.TestingFlag? || a.point.ClosingAfter? ==> a.kind.Finish? || a.kind.CloseAll?)
    && (a.point.ClosingAfter? ==> s.shuttingDown)
  }

  ghost predicate ServeOk(s: State) {
    match s.serve
    case Testing => s.executing == s.lastLineRejected
    case Scanning => s.executing == s.lastLineRejected
    case Marking => s.executing == s.lastLineRejected
    case Ended => true
    case _ => s.executing
  }

  ghost predicate Inv(s: State) {
    && ServeOk(s)
    && (s.lock.Some? ==> s.lock.value in s.agents)
    && (forall id :: id in s.agents ==> AgentOk(s, id, s.agents[id]))
  }

  lemma StepKeepsInv(s: State, act: Action)
    requires Inv(s) && Enabled(s, act)
    ensures Inv(Step(s, act))
  {
    match act
    case ServeStep(ok) => ServeStepKeepsAgents(s, ok);
    case CommandQuits =>
      forall id | id in s.agents ensures AgentOk(s.(shuttingDown := true), id, s.agents[id]) {
        assert AgentOk(s, id, s.agents[id]);
      }
    case Start(id, kind) =>
    case Advance(id) => AgentStepKeepsAgents(s, id);
  }

  lemma ServeStepKeepsAgent(s: State, ok: bool, id: nat, a: Agent)
    requires AgentOk(s, id, a)
    ensures AgentOk(ServeNext(s, ok), id, a)
  {
  }

  lemma ServeStepKeepsAgents(s: State, ok: bool)
    requires Inv(s)
    ensures Inv(ServeNext(s, ok))
  {
    forall id | id in s.agents ensures AgentOk(ServeNext(s, ok), id, s.agents[id]) {
      ServeStepKeepsAgent(s, ok, id, s.agents[id]);
    }
  }

  lemma AgentStepKeepsAgents(s: State, id: nat)
    requires Inv(s) && AgentEnabled(s, id)
    ensures Inv(AgentNext(s, id))
  {
    var s' := AgentNext(s, id);
    assert AgentOk(s, id, s.agents[id]);
    forall j | j in s'.agents ensures AgentOk(s', j, s'.agents[j]) {
      assert AgentOk(s, j, s.agents[j]);
    }
  }

  lemma {:induction false} RunKeepsInv(s: State, acts: seq<Action>)
    requires Inv(s) && IsRun(s, acts)
    ensures Inv(After(s, acts))
    decreases |acts|
  {
    if acts != [] {
      StepKeepsInv(s, acts[0]);
      RunKeepsInv(Step(s, acts[0]), acts[1..]);
    }
  }

  lemma ReachableIsInv(s: State)
    requires Reachable(s)
    ensures Inv(s)
  {
    var acts :| IsRun(INITIAL, acts) && After(INITIAL, acts) == s;
    RunKeepsInv(INITIAL, acts);
  }

  // -------------------------------------------------- the main statements

  /** The handshake: whenever `shutdown` is about to close the control
    * connection, no command is executing or has just been read past the second
    * test, and no transfer is installed. */
  lemma ShutdownNeverCutsACommand(s: State, id: nat)
    requires Reachable(s)
    requires id in s.agents && s.agents[id] == Agent(Shutdown, ClosingInLock)
    ensures !s.serve.Executing? && !s.serve.Parsing? && !s.serve.Unmarking?
    ensures s.slotEmpty && s.lock == Some(id) // SlotFollowsSwaps says when the slot is empty
    ensures s.shuttingDown
  {
    ReachableIsInv(s);
    assert AgentOk(s, id, s.agents[id]);
  }

  function CommandsStarted(s: State, acts: seq<Action>): nat
    requires IsRun(s, acts)
    decreases |acts|
  {
    if acts == [] then 0
    else
      (if s.serve.Parsing? && acts[0] == ServeStep(true) then 1 else 0)
      + CommandsStarted(Step(s, acts[0]), acts[1..])
  }

  /** Once the flag is set the serve loop starts no command, except the one line
    * that had already passed the second test. */
  lemma {:induction false} NoCommandStartsAfterTheFlag(s: State, acts: seq<Action>)
    requires s.shuttingDown && IsRun(s, acts)
    ensures CommandsStarted(s, acts) <= if s.serve.Parsing? then 1 else 0
    ensures After(s, acts).shuttingDown
    ensures !s.serve.Parsing? && !s.serve.Executing? ==> !After(s, acts).serve.Executing?
    decreases |acts|
  {
    if acts != [] {
      NoCommandStartsAfterTheFlag(Step(s, acts[0]), acts[1..]);
    }
  }

  /** Hence nothing executes after `shutdown` has closed the connection. */
  lemma NothingExecutesAfterTheClose(s: State, id: nat, acts: seq<Action>)
    requires Reachable(s) && IsRun(s, acts)
    requires id in s.agents && s.agents[id] == Agent(Shutdown, ClosingInLock)
    ensures CommandsStarted(s, acts) == 0 && !After(s, acts).serve.Executing?
  {
    ShutdownNeverCutsACommand(s, id);
    NoCommandStartsAfterTheFlag(s, acts);
  }

  /** The step that call `id` takes next closes the control connection. */
  predicate AtClose(s: State, id: nat) {
    && id in s.agents
    && (s.agents[id].point.ClosingInLock? || s.agents[id].point.ClosingAfter? || s.agents[id].point.ClosingLast?)
  }

  /** How often call `id` closes the control connection in a run. */
  ghost function Closes(s: State, acts: seq<Action>, id: nat): nat
    requires IsRun(s, acts)
    decreases |acts|
  {
    if acts == [] then 0
    else (if acts[0] == Advance(id) && AtClose(s, id) then 1 else 0) + Closes(Step(s, acts[0]), acts[1..], id)
  }

  /** A call that has made up its mind whether to close. */
  predicate Decided(a: Agent) {
    match a.kind
    case Shutdown => a.point.ClosingInLock? || a.point.Unlocking? || a.point.Returned?
    case Finish => a.point.ClosingAfter? || a.point.Returned?
    case _ => false
  }

  /** It closes once or not at all, whatever the others do meanwhile. */
  lemma {:induction false} DecidedCallsDoWhatTheyDecided(s: State, acts: seq<Action>, id: nat)
    requires IsRun(s, acts) && id in s.agents && Decided(s.agents[id])
    ensures id in After(s, acts).agents
    ensures Closes(s, acts, id) <= if AtClose(s, id) then 1 else 0
    ensures After(s, acts).agents[id].point.Returned? ==> Closes(s, acts, id) == if AtClose(s, id) then 1 else 0
    decreases |acts|
  {
    if acts != [] {
      DecidedStays(s, acts[0], id);
      DecidedCallsDoWhatTheyDecided(Step(s, acts[0]), acts[1..], id);
    }
  }

  lemma OtherStepsLeaveCall(s: State, act: Action, id: nat)
    requires Enabled(s, act) && id in s.agents && act != Advance(id)
    ensures id in Step(s, act).agents && Step(s, act).agents[id] == s.agents[id]
  {
  }

  lemma OwnStepDecided(s: State, id: nat)
    requires AgentEnabled(s, id) && Decided(s.agents[id])
    ensures var s' := AgentNext(s, id); id in s'.agents && Decided(s'.agents[id]) && !AtClose(s', id)
  {
  }

  lemma DecidedStays(s: State, act: Action, id: nat)
    requires Enabled(s, act) && id in s.agents && Decided(s.agents[id])
    ensures id in Step(s, act).agents && Decided(Step(s, act).agents[id])
    ensures AtClose(Step(s, act), id) <==> AtClose(s, id) && act != Advance(id)
  {
    if act == Advance(id) { OwnStepDecided(s, id); } else { OtherStepsLeaveCall(s, act, id); }
  }

  // --------------------------------------- the flags, the loop and the calls

  /** The action is the write of the flag: by a command that ends the session, or
    * as the first step of shutdown and of ServerConn.close. */
  predicate SetsFlag(s: State, act: Action)
    requires Enabled(s, act)
  {
    || act.CommandQuits?
    || (act.Advance? && s.agents[act.id].point.Entering?
        && (s.agents[act.id].kind.Shutdown? || s.agents[act.id].kind.CloseAll?))
  }

  /** The loop's last step: it reads the flag as set, its input ends, or it has
    * refused a line. */
  predicate EndsLoop(s: State, act: Action)
    requires Enabled(s, act)
  {
    && act.ServeStep?
    && ((s.serve.Testing? && s.shuttingDown) || (s.serve.Scanning? && !act.ok) || s.serve.Refusing?)
  }

  /** The values that the loop writes to `executing`, in order: true for a line that
    * was read, false for a command that has returned. */
  ghost function Marks(s: State, acts: seq<Action>): seq<bool>
    requires IsRun(s, acts)
    decreases |acts|
  {
    if acts == [] then []
    else
      (if acts[0].ServeStep? && s.serve.Marking? then [true]
       else if acts[0].ServeStep? && s.serve.Unmarking? then [false] else [])
      + Marks(Step(s, acts[0]), acts[1..])
  }

  ghost predicate SomeSetsFlag(s: State, acts: seq<Action>)
    requires IsRun(s, acts)
    decreases |acts|
  {
    acts != [] && (SetsFlag(s, acts[0]) || SomeSetsFlag(Step(s, acts[0]), acts[1..]))
  }

  ghost predicate SomeEndsLoop(s: State, acts: seq<Action>)
    requires IsRun(s, acts)
    decreases |acts|
  {
    acts != [] && (EndsLoop(s, acts[0]) || SomeEndsLoop(Step(s, acts[0]), acts[1..]))
  }

  /** In every run the two flags and the end of the loop are what the actions say:
    * nothing else sets the flag, clears `executing` or leaves the loop. */
  lemma {:induction false} FlagsFollowActions(s: State, acts: seq<Action>)
    requires IsRun(s, acts)
    ensures After(s, acts).shuttingDown <==> s.shuttingDown || SomeSetsFlag(s, acts)
    ensures After(s, acts).serve.Ended? <==> s.serve.Ended? || SomeEndsLoop(s, acts)
    ensures var marks := Marks(s, acts);
            After(s, acts).executing == if marks == [] then s.executing else marks[|marks| - 1]
    decreases |acts|
  {
    if acts != [] {
      FlagsFollowActions(Step(s, acts[0]), acts[1..]);
      StepFlags(s, acts[0]);
    }
  }

  lemma StepFlags(s: State, act: Action)
    requires Enabled(s, act)
    ensures Step(s, act).shuttingDown <==> s.shuttingDown || SetsFlag(s, act)
    ensures Step(s, act).serve.Ended? <==> s.serve.Ended? || EndsLoop(s, act)
    ensures Step(s, act).executing ==
            if act.ServeStep? && s.serve.Marking? then true
            else if act.ServeStep? && s.serve.Unmarking? then false else s.executing
  {
    match act
    case ServeStep(ok) =>
      ServeStepMarks(s, ok);
      ServeStepEnds(s, ok);
    case Advance(id) => AgentStepFlags(s, id);
    case _ =>
  }

  lemma ServeStepMarks(s: State, ok: bool)
    ensures ServeNext(s, ok).shuttingDown == s.shuttingDown
    ensures ServeNext(s, ok).executing ==
            if s.serve.Marking? then true else if s.serve.Unmarking? then false else s.executing
  {
  }

  lemma ServeStepEnds(s: State, ok: bool)
    requires !s.serve.Ended?
    ensures ServeNext(s, ok).serve.Ended? <==>
            (s.serve.Testing? && s.shuttingDown) || (s.serve.Scanning? && !ok) || s.serve.Refusing?
  {
  }

  lemma AgentStepFlags(s: State, id: nat)
    requires AgentEnabled(s, id)
    ensures var s', a := AgentNext(s, id), s.agents[id];
            && s'.serve == s.serve && s'.executing == s.executing
            && (s'.shuttingDown <==> s.shuttingDown || (a.point.Entering? && (a.kind.Shutdown? || a.kind.CloseAll?)))
  {
  }

  /** How often a call of ServerConn.close still closes the control connection: once
    * through its closeDataTransfer, for which it has set the flag, and once itself. */
  function ClosesToCome(p: Point): nat {
    match p
    case Returned => 0
    case ClosingLast => 1
    case _ => 2
  }

  lemma {:induction false} CloseCallClosesTwice(s: State, acts: seq<Action>, id: nat)
    requires Inv(s) && IsRun(s, acts) && id in s.agents && s.agents[id].kind.CloseAll?
    requires !s.agents[id].point.TestingExecuting? && !s.agents[id].point.ClosingInLock?
    ensures id in After(s, acts).agents && After(s, acts).agents[id].kind.CloseAll?
    ensures Closes(s, acts, id) + ClosesToCome(After(s, acts).agents[id].point) == ClosesToCome(s.agents[id].point)
    decreases |acts|
  {
    if acts != [] {
      StepKeepsInv(s, acts[0]);
      CloseCallStep(s, acts[0], id);
      CloseCallClosesTwice(Step(s, acts[0]), acts[1..], id);
    }
  }

  lemma CloseCallStep(s: State, act: Action, id: nat)
    requires Inv(s) && Enabled(s, act) && id in s.agents && s.agents[id].kind.CloseAll?
    requires !s.agents[id].point.TestingExecuting? && !s.agents[id].point.ClosingInLock?
    ensures id in Step(s, act).agents && Step(s, act).agents[id].kind.CloseAll?
    ensures var p, p' := s.agents[id].point, Step(s, act).agents[id].point;
            && !p'.TestingExecuting? && !p'.ClosingInLock?
            && ClosesToCome(p) == ClosesToCome(p') + if act == Advance(id) && AtClose(s, id) then 1 else 0
  {
    assert AgentOk(s, id, s.agents[id]);
    if act != Advance(id) { OtherStepsLeaveCall(s, act, id); }
  }

  // --------------------------------------------------- the slot and the close

  /** The kinds of the calls that swapped the slot, in order, read off the actions:
    * a call swaps when it moves on from InLock, unless it is a shutdown. */
  ghost function Swaps(s: State, acts: seq<Action>): seq<Kind>
    requires IsRun(s, acts)
    decreases |acts|
  {
    if acts == [] then []
    else
      (if acts[0].Advance? && s.agents[acts[0].id].point.InLock? && !s.agents[acts[0].id].kind.Shutdown?
       then [s.agents[acts[0].id].kind] else [])
      + Swaps(Step(s, acts[0]), acts[1..])
  }

  /** In every run the slot is empty if and only if the last swap was not an
    * install. */
  lemma {:induction false} SlotFollowsSwaps(s: State, acts: seq<Action>)
    requires IsRun(s, acts)
    ensures var swaps := Swaps(s, acts);
            After(s, acts).slotEmpty <==> if swaps == [] then s.slotEmpty else swaps[|swaps| - 1] != Install
    decreases |acts|
  {
    if acts != [] {
      SlotFollowsSwaps(Step(s, acts[0]), acts[1..]);
      StepSwaps(s, acts[0]);
    }
  }

  lemma StepSwaps(s: State, act: Action)
    requires Enabled(s, act)
    ensures Step(s, act).slotEmpty <==>
            if act.Advance? && s.agents[act.id].point.InLock? && !s.agents[act.id].kind.Shutdown?
            then s.agents[act.id].kind != Install else s.slotEmpty
  {
  }

  /** A `shutdown` that finds an installed transfer, the last swap before it being
    * an install, closes nothing, in every interleaving; and one that finds none
    * goes on to read `executing`. */
  lemma ShutdownSparesATransfer(before: seq<Action>, acts: seq<Action>, id: nat)
    requires IsRun(INITIAL, before)
    requires var s := After(INITIAL, before);
             && id in s.agents && s.agents[id] == Agent(Shutdown, InLock)
             && IsRun(s, acts) && acts != [] && acts[0] == Advance(id)
    ensures var s, swaps := After(INITIAL, before), Swaps(INITIAL, before);
            if swaps != [] && swaps[|swaps| - 1] == Install then Closes(s, acts, id) == 0
            else id in Step(s, acts[0]).agents && Step(s, acts[0]).agents[id].point == TestingExecuting
  {
    var s := After(INITIAL, before);
    SlotFollowsSwaps(INITIAL, before);
    if !s.slotEmpty { DecidedCallsDoWhatTheyDecided(Step(s, acts[0]), acts[1..], id); }
  }

  /** And when a `shutdown` is about to close, the last swap was not an install. */
  lemma NoTransferIsInstalledAtTheClose(acts: seq<Action>, id: nat)
    requires IsRun(INITIAL, acts)
    requires id in After(INITIAL, acts).agents && After(INITIAL, acts).agents[id] == Agent(Shutdown, ClosingInLock)
    ensures var swaps := Swaps(INITIAL, acts); swaps == [] || swaps[|swaps| - 1] != Install
  {
    ShutdownNeverCutsACommand(After(INITIAL, acts), id);
    SlotFollowsSwaps(INITIAL, acts);
  }

  /** The closes of all calls in a run. */
  ghost function AllCloses(s: State, acts: seq<Action>): nat
    requires IsRun(s, acts)
    decreases |acts|
  {
    if acts == [] then 0
    else (if acts[0].Advance? && AtClose(s, acts[0].id) then 1 else 0) + AllCloses(Step(s, acts[0]), acts[1..])
  }

  /** The connection is closed if and only if some call has closed it. */
  lemma {:induction false} ClosedExactly(s: State, acts: seq<Action>)
    requires IsRun(s, acts)
    ensures After(s, acts).closed <==> s.closed || AllCloses(s, acts) > 0
    decreases |acts|
  {
    if acts != [] {
      ClosedExactly(Step(s, acts[0]), acts[1..]);
      StepCloses(s, acts[0]);
    }
  }

  lemma StepCloses(s: State, act: Action)
    requires Enabled(s, act)
    ensures Step(s, act).closed <==> s.closed || (act.Advance? && AtClose(s, act.id))
  {
  }

  /** An idle connection (the loop tests the flag or waits for a line, no transfer
    * is installed): a `shutdown` that reads `executing` then closes it, in every
    * interleaving, if and only if the latest line parsed; the branch for a line
    * that does not parse continues the loop without clearing `executing`. */
  lemma IdleConnectionClosesExactly(s: State, acts: seq<Action>, id: nat)
    requires Reachable(s) && (s.serve.Testing? || s.serve.Scanning?)
    requires id in s.agents && s.agents[id] == Agent(Shutdown, TestingExecuting)
    requires IsRun(s, acts) && acts != [] && acts[0] == Advance(id)
    requires id in After(s, acts).agents && After(s, acts).agents[id].point.Returned?
    ensures Closes(s, acts, id) == if s.lastLineRejected then 0 else 1
  {
    ReachableIsInv(s);
    DecidedCallsDoWhatTheyDecided(Step(s, acts[0]), acts[1..], id);
  }

  /** ParseCommand as it is: it accepts every line. */
  ghost predicate EveryLineParses(s: State, acts: seq<Action>)
    requires IsRun(s, acts)
    decreases |acts|
  {
    acts == [] || (!(s.serve.Parsing? && acts[0] == ServeStep(false)) && EveryLineParses(Step(s, acts[0]), acts[1..]))
  }

  lemma {:induction false} NoLineIsRejected(s: State, acts: seq<Action>)
    requires IsRun(s, acts) && EveryLineParses(s, acts) && !s.lastLineRejected
    ensures !After(s, acts).lastLineRejected
    decreases |acts|
  {
    if acts != [] {
      NoLineIsRejected(Step(s, acts[0]), acts[1..]);
    }
  }

  /** Hence, with the parser as it is, every such `shutdown` closes it. */
  lemma IdleConnectionCloses(before: seq<Action>, acts: seq<Action>, id: nat)
    requires IsRun(INITIAL, before) && EveryLineParses(INITIAL, before)
    requires var s := After(INITIAL, before);
             && (s.serve.Testing? || s.serve.Scanning?)
             && id in s.agents && s.agents[id] == Agent(Shutdown, TestingExecuting)
             && IsRun(s, acts) && acts != [] && acts[0] == Advance(id)
             && id in After(s, acts).agents && After(s, acts).agents[id].point.Returned?
    ensures Closes(After(INITIAL, before), acts, id) == 1
  {
    NoLineIsRejected(INITIAL, before);
    IdleConnectionClosesExactly(After(INITIAL, before), acts, id);
  }

  lemma {:induction false} RunThen(s: State, acts: seq<Action>, a: Action)
    requires IsRun(s, acts) && Enabled(After(s, acts), a)
    ensures IsRun(s, acts + [a]) && After(s, acts + [a]) == Step(After(s, acts), a)
    decreases |acts|
  {
    if acts == [] {
      assert acts + [a] == [a];
      assert IsRun(Step(s, a), []);
      assert [a][1..] == [];
    } else {
      assert (acts + [a])[1..] == acts[1..] + [a];
      RunThen(Step(s, acts[0]), acts[1..], a);
    }
  }

  lemma ReachableStep(s: State, a: Action)
    requires Reachable(s) && Enabled(s, a)
    ensures Reachable(Step(s, a))
  {
    var acts :| IsRun(INITIAL, acts) && After(INITIAL, acts) == s;
    RunThen(INITIAL, acts, a);
  }

  lemma InitialIsReachable()
    ensures Reachable(INITIAL)
  {
    assert IsRun(INITIAL, []) && After(INITIAL, []) == INITIAL;
  }

  /** The branch matters as soon as the parser rejects a line: a whole call of
    * `shutdown` then leaves an idle connection open. */
  lemma RejectedLineKeepsConnectionOpen() returns (s: State)
    ensures Reachable(s) && s.serve.Scanning? && s.slotEmpty && s.lock.None? && !s.closed
    ensures s.agents == map[0 := Agent(Shutdown, Returned)] && s.lastLineRejected
  {
    s := ALineIsRejected();
    ReachableStep(s, Start(0, Shutdown)); s := Step(s, Start(0, Shutdown));
    ReachableStep(s, Advance(0)); s := Step(s, Advance(0)); // Entering
    ReachableStep(s, Advance(0)); s := Step(s, Advance(0)); // Locking
    ReachableStep(s, Advance(0)); s := Step(s, Advance(0)); // InLock
    ReachableStep(s, Advance(0)); s := Step(s, Advance(0)); // TestingExecuting
    ReachableStep(s, Advance(0)); s := Step(s, Advance(0)); // Unlocking
  }

  lemma ALineIsRejected() returns (s: State)
    ensures Reachable(s) && s == INITIAL.(serve := Scanning, executing := true, lastLineRejected := true)
  {
    InitialIsReachable();
    s := INITIAL;
    ReachableStep(s, ServeStep(true)); s := Step(s, ServeStep(true)); // Testing
    ReachableStep(s, ServeStep(true)); s := Step(s, ServeStep(true)); // Scanning
    ReachableStep(s, ServeStep(true)); s := Step(s, ServeStep(true)); // Marking
    ReachableStep(s, ServeStep(true)); s := Step(s, ServeStep(true)); // Rechecking
    ReachableStep(s, ServeStep(false)); s := Step(s, ServeStep(false)); // Parsing
    ReachableStep(s, ServeStep(true)); s := Step(s, ServeStep(true)); // Testing
  }

  /** A `shutdown` of a connection that waits for its first line closes it. */
  lemma ShutdownClosesIdleConnection() returns (s: State)
    ensures Reachable(s) && s.serve.Scanning? && s.closed && s.agents == map[0 := Agent(Shutdown, Returned)]
  {
    InitialIsReachable();
    s := INITIAL;
    ReachableStep(s, ServeStep(true)); s := Step(s, ServeStep(true)); // Testing
    ReachableStep(s, Start(0, Shutdown)); s := Step(s, Start(0, Shutdown));
    ReachableStep(s, Advance(0)); s := Step(s, Advance(0)); // Entering
    ReachableStep(s, Advance(0)); s := Step(s, Advance(0)); // Locking
    ReachableStep(s, Advance(0)); s := Step(s, Advance(0)); // InLock
    ReachableStep(s, Advance(0)); s := Step(s, Advance(0)); // TestingExecuting
    ReachableStep(s, Advance(0)); s := Step(s, Advance(0)); // ClosingInLock
    ReachableStep(s, Advance(0)); s := Step(s, Advance(0)); // Unlocking
  }

  lemma ACommandExecutes() returns (s: State)
    ensures Reachable(s) && s == INITIAL.(serve := Executing, executing := true)
  {
    InitialIsReachable();
    s := INITIAL;
    ReachableStep(s, ServeStep(true)); s := Step(s, ServeStep(true)); // Testing
    ReachableStep(s, ServeStep(true)); s := Step(s, ServeStep(true)); // Scanning
    ReachableStep(s, ServeStep(true)); s := Step(s, ServeStep(true)); // Marking
    ReachableStep(s, ServeStep(true)); s := Step(s, ServeStep(true)); // Rechecking
    ReachableStep(s, ServeStep(true)); s := Step(s, ServeStep(true)); // Parsing
  }

  /** The close in closeDataTransfer has no such guard. In every interleaving a
    * call of it closes the connection if and only if the flag was set when it
    * read the flag, whatever the serve loop is doing. */
  lemma FinishClosesExactly(s: State, acts: seq<Action>, id: nat)
    requires id in s.agents && s.agents[id] == Agent(Finish, TestingFlag)
    requires IsRun(s, acts) && acts != [] && acts[0] == Advance(id)
    requires id in After(s, acts).agents && After(s, acts).agents[id].point.Returned?
    ensures Closes(s, acts, id) == if s.shuttingDown then 1 else 0
  {
    DecidedCallsDoWhatTheyDecided(Step(s, acts[0]), acts[1..], id);
  }

  /** In some continuation call `id` reads the flag now and closes the connection
    * at a moment when a command is executing. */
  ghost predicate CanCut(s: State, id: nat) {
    exists acts :: CutsIn(s, acts, id)
  }

  ghost predicate CutsIn(s: State, acts: seq<Action>, id: nat) {
    && |acts| >= 2 && acts[0] == Advance(id) && acts[|acts| - 1] == Advance(id)
    && IsRun(s, acts) && Closes(s, acts, id) > 0 && After(s, acts).serve.Executing?
  }

  /** So it can cut a command that is executing exactly when the flag is set. */
  lemma FinishCutsExactly(s: State, id: nat)
    requires s.serve.Executing? && id in s.agents && s.agents[id] == Agent(Finish, TestingFlag)
    ensures CanCut(s, id) <==> s.shuttingDown
  {
    if s.shuttingDown {
      var acts := [Advance(id), Advance(id)];
      var s1 := Step(s, acts[0]);
      var s2 := Step(s1, Advance(id));
      assert acts[1..] == [Advance(id)] && [Advance(id)][1..] == [];
      assert IsRun(s2, []) && Closes(s2, [], id) == 0;
      assert IsRun(s1, acts[1..]) && After(s1, acts[1..]) == s2 && Closes(s1, acts[1..], id) == 1;
      assert CutsIn(s, acts, id);
    } else if acts :| CutsIn(s, acts, id) {
      DecidedCallsDoWhatTheyDecided(Step(s, acts[0]), acts[1..], id);
    }
  }

  /** Both at once are reachable: the call has closed the connection, no other call
    * has, and the command is still executing. */
  lemma FinishedTransferMayCutACommand() returns (s: State)
    ensures Reachable(s) && s.serve.Executing? && s.closed
    ensures s.agents == map[0 := Agent(Finish, Returned), 1 := Agent(Shutdown, Locking)]
  {
    s := ACommandExecutes();
    ReachableStep(s, Start(1, Shutdown)); s := Step(s, Start(1, Shutdown));
    ReachableStep(s, Advance(1)); s := Step(s, Advance(1)); // sets the flag
    ReachableStep(s, Start(0, Finish)); s := Step(s, Start(0, Finish));
    s := FinishRuns(s);
  }

  /** A call of closeDataTransfer that nothing interrupts, with the flag set. */
  lemma FinishRuns(s: State) returns (t: State)
    requires Reachable(s) && s.lock.None? && s.shuttingDown
    requires 0 in s.agents && s.agents[0] == Agent(Finish, Entering)
    ensures Reachable(t) && t.closed && t.serve == s.serve && t.agents == s.agents[0 := Agent(Finish, Returned)]
  {
    t := FinishSwaps(s);
    ReachableStep(t, Advance(0)); t := Step(t, Advance(0)); // Unlocking
    ReachableStep(t, Advance(0)); t := Step(t, Advance(0)); // TestingFlag
    ReachableStep(t, Advance(0)); t := Step(t, Advance(0)); // ClosingAfter
  }

  lemma FinishSwaps(s: State) returns (t: State)
    requires Reachable(s) && s.lock.None?
    requires 0 in s.agents && s.agents[0] == Agent(Finish, Entering)
    ensures Reachable(t) && t.agents == s.agents[0 := Agent(Finish, Unlocking)]
    ensures t == s.(lock := Some(0), slotEmpty := true, agents := t.agents)
  {
    t := s;
    ReachableStep(t, Advance(0)); t := Step(t, Advance(0)); // Entering
    ReachableStep(t, Advance(0)); t := Step(t, Advance(0)); // Locking
    ReachableStep(t, Advance(0)); t := Step(t, Advance(0)); // InLock
  }

  /** No call closes the control connection before the flag is set: not shutdown,
    * not closeDataTransfer, and neither close of ServerConn.close. */
  lemma EveryCloseNeedsTheFlag(s: State, id: nat)
    requires Reachable(s) && AtClose(s, id)
    ensures s.shuttingDown && !s.agents[id].kind.Install?
  {
    ReachableIsInv(s);
    assert AgentOk(s, id, s.agents[id]);
  }

  // ------------------------------------------------------- the loop's end

  /** How many more steps the serve loop takes once the flag is set. */
  function LoopRank(p: Serve): nat {
    match p
    case Scanning => 4
    case Marking => 3
    case Rechecking => 2
    case Refusing => 1
    case Parsing => 4
    case Executing => 3
    case Unmarking => 2
    case Testing => 1
    case Ended => 0
  }

  function ServeSteps(acts: seq<Action>): nat {
    if acts == [] then 0 else (if acts[0].ServeStep? then 1 else 0) + ServeSteps(acts[1..])
  }

  lemma FlaggedStep(s: State, act: Action)
    requires s.shuttingDown && Enabled(s, act)
    ensures Step(s, act).shuttingDown
    ensures LoopRank(Step(s, act).serve) + (if act.ServeStep? then 1 else 0) <= LoopRank(s.serve)
  {
    if act.ServeStep? { OwnStepAfterTheFlag(s, act.ok); } else { OtherStepsLeaveLoop(s, act); }
  }

  lemma OwnStepAfterTheFlag(s: State, ok: bool)
    requires s.shuttingDown && !s.serve.Ended?
    ensures ServeNext(s, ok).shuttingDown && LoopRank(ServeNext(s, ok).serve) < LoopRank(s.serve)
  {
  }

  lemma OtherStepsLeaveLoop(s: State, act: Action)
    requires Enabled(s, act) && !act.ServeStep?
    ensures Step(s, act).serve == s.serve && (s.shuttingDown ==> Step(s, act).shuttingDown)
  {
  }

  /** Once the flag is set the serve loop takes at most four further steps of its
    * own, in any interleaving, and has ended when it has taken them; until then it
    * can always take the next one. */
  lemma {:induction false} LoopEndsAfterTheFlag(s: State, acts: seq<Action>)
    requires s.shuttingDown && IsRun(s, acts)
    ensures LoopRank(After(s, acts).serve) + ServeSteps(acts) <= LoopRank(s.serve) <= 4
    ensures ServeSteps(acts) == LoopRank(s.serve) ==> After(s, acts).serve.Ended?
    ensures !After(s, acts).serve.Ended? ==> Enabled(After(s, acts), ServeStep(true))
    decreases |acts|
  {
    if acts != [] {
      FlaggedStep(s, acts[0]);
      LoopEndsAfterTheFlag(Step(s, acts[0]), acts[1..]);
    }
  }
}
