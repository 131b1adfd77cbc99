/** Who replaces the data transfer of a control connection, and which passive ports
  * are lost (ftp/conn.go, ftp/command.go, ftp/transfer.go).
  *
  * PassiveTransfers lets anybody lock the slot of a control connection at any
  * time. Here each step is given to the one who takes it in the code: the serve
  * loop while it executes a command, the one-time close of the connection, or a
  * goroutine that got a data connection and closes it when it is done. A step is
  * a step of PassiveTransfers, or one that only these three notice, so every run
  * here is a run there, and all that holds of those runs holds here.
  */
module PassiveSessions {
  import opened Wrappers
  import opened PortPool
  import opened PassiveTransfers

  // ------------------------------------------------------------ the state

  datatype Command =
    | Passive // PASV and EPSV
    | Active // PORT and EPRT
    | Abort // ABOR
    | Transferring // RETR, STOR, LIST and the like

  datatype Loop =
    | Idle // tests the flag or waits for a line
    | Executing(cmd: Command) // past the second test, the command not yet at work
    | OpeningFor(t: nat) // in newPassiveDataTransfer or newActiveDataTransfer
    | Aborting // in the closeDataTransfer of ABOR
    | Ended

  /** The function that closeOnce runs, ServerConn.close. */
  datatype Once =
    | Fresh
    | Flagged // has set shuttingDown, has not yet got mudt
    | Emptying // holds mudt
    | Emptied // the slot was emptied; it never runs again

  datatype Locker = ByLoop | ByClose | ByWorker(k: nat)

  /** One control connection; `locker` holds mudt while that is locked. */
  datatype Session = Session(loop: Loop, flag: bool, once: Once, locker: Locker)

  /** A goroutine of a transfer command. */
  datatype Stage =
    | Preparing // has not yet read c.dt
    | InConn // in Conn of a passive transfer
    | Holding // has a data connection; its deferred closeDataTransfer is to come
    | Spent // has got no connection, or has locked the slot to close it

  datatype Worker = Worker(control: nat, stage: Stage)

  datatype State = State(w: World, sessions: map<nat, Session>, workers: map<nat, Worker>)

  datatype Move =
    | Arrive(c: nat, ip: Option<nat>)
    | Start(c: nat, cmd: Command) // the second test of the flag, not set
    | Leave(c: nat) // the command returns
    | EndLoop(c: nat)
    | SetFlag(c: nat) // a shutdown, or a command that ends the session
    | BeginClose(c: nat) // anybody calls ServerConn.Close for the first time
    | Spawn(c: nat, k: nat)
    | Fetch(k: nat) // the goroutine reads c.dt and calls Conn on it
    | LockSlotBy(c: nat, next: Option<nat>, who: Locker)
    | Do(a: Action)

  // ------------------------------------------------------------ the steps

  /** newPassiveDataTransfer or newActiveDataTransfer has returned. */
  predicate Settled(x: Transfer) { x.opening.Abandoned? || x.opening.Current? || x.opening.Replaced? }

  predicate MayLeave(s: State, c: nat)
    requires c in s.sessions
  {
    match s.sessions[c].loop
    case Executing(_) => true
    case OpeningFor(t) => t in s.w.transfers && Settled(s.w.transfers[t])
    case Aborting => c in s.w.controls && !(s.w.controls[c].lock.Locked? && s.sessions[c].locker.ByLoop?)
    case _ => false
  }

  predicate MayLock(s: State, c: nat, next: Option<nat>, who: Locker)
    requires c in s.sessions
  {
    match who
    case ByLoop => s.sessions[c].loop == if next.Some? then OpeningFor(next.value) else Executing(Abort)
    case ByClose => next.None? && s.sessions[c].once.Flagged?
    case ByWorker(k) => next.None? && k in s.workers && s.workers[k] == Worker(c, Holding)
  }

  /** The slot of `c` as a goroutine finds it. */
  predicate MayFetch(s: State, k: nat) {
    && k in s.workers && s.workers[k].stage.Preparing? && k !in s.w.callers
    && s.workers[k].control in s.w.controls
    && var slot := s.w.controls[s.workers[k].control].slot;
    slot.Some? ==> slot.value in s.w.transfers &&
                   (s.w.transfers[slot.value].passive ==> Enabled(s.w, Conn(k, Call(slot.value))))
  }

  predicate MayDo(s: State, a: Action) {
    match a
    case Connect(_, _) => false
    case Opener(_, o) =>
      match o {
        case Begin(c) => c in s.sessions && s.sessions[c].loop == Executing(Passive)
        case Dial(c) => c in s.sessions && s.sessions[c].loop == Executing(Active)
        case _ => true
      }
    case Slot(c, step) => step.Replace? && c in s.sessions
    case Listener(_, l) => l.Deliver? ==> l.k in s.workers
    case Conn(k, m) => !m.Call? && k in s.workers
  }

  predicate Allowed(s: State, m: Move) {
    match m
    case Arrive(c, ip) => Enabled(s.w, Connect(c, ip))
    case Start(c, _) => c in s.sessions && s.sessions[c].loop.Idle? && !s.sessions[c].flag
    case Leave(c) => c in s.sessions && MayLeave(s, c)
    case EndLoop(c) => c in s.sessions && s.sessions[c].loop.Idle?
    case SetFlag(c) => c in s.sessions
    case BeginClose(c) => c in s.sessions && s.sessions[c].once.Fresh?
    case Spawn(c, k) => c in s.sessions && s.sessions[c].loop == Executing(Transferring) && k !in s.workers
    case Fetch(k) => MayFetch(s, k)
    case LockSlotBy(c, next, who) =>
      c in s.sessions && Enabled(s.w, Slot(c, LockSlot(next))) && MayLock(s, c, next, who)
    case Do(a) => Enabled(s.w, a) && MayDo(s, a)
  }

  /** The step of PassiveTransfers that a move takes, if any. */
  function StepOf(s: State, m: Move): Option<Action>
    requires Allowed(s, m)
  {
    match m
    case Arrive(c, ip) => Some(Connect(c, ip))
    case Fetch(k) =>
      var slot := s.w.controls[s.workers[k].control].slot;
      if slot.Some? && s.w.transfers[slot.value].passive then Some(Conn(k, Call(slot.value))) else None
    case LockSlotBy(c, next, _) => Some(Slot(c, LockSlot(next)))
    case Do(a) => Some(a)
    case _ => None
  }

  function LockedBy(x: Session, next: Option<nat>, who: Locker): Session {
    match who
    case ByLoop => x.(locker := who, loop := if next.None? then Aborting else x.loop)
    case ByClose => x.(locker := who, once := Emptying)
    case ByWorker(_) => x.(locker := who)
  }

  /** What a move does to session `c`. */
  function SessionAfter(s: State, m: Move, c: nat): Session
    requires Allowed(s, m) && c in s.sessions
  {
    var x := s.sessions[c];
    match m
    case Start(d, cmd) => if d == c then x.(loop := Executing(cmd)) else x
    case Leave(d) => if d == c then x.(loop := Idle) else x
    case EndLoop(d) => if d == c then x.(loop := Ended) else x
    case SetFlag(d) => if d == c then x.(flag := true) else x
    case BeginClose(d) => if d == c then x.(flag := true, once := Flagged) else x
    case Spawn(d, _) => if d == c then x.(loop := Idle) else x // the command may return before its goroutine
    case LockSlotBy(d, next, who) => if d == c then LockedBy(x, next, who) else x
    case Do(a) =>
      if a.Opener? && (a.open == Begin(c) || a.open == Dial(c)) then x.(loop := OpeningFor(a.t))
      else if a == Slot(c, Replace) && s.w.controls[c].lock.stage.Swap? && x.locker.ByClose? then x.(once := Emptied)
      else x
    case _ => x
  }

  const NEW := Session(Idle, false, Fresh, ByLoop)

  function SessionsAfter(s: State, m: Move): map<nat, Session>
    requires Allowed(s, m)
  {
    var all := if m.Arrive? then s.sessions.Keys + {m.c} else s.sessions.Keys;
    map c | c in all :: if c in s.sessions then SessionAfter(s, m, c) else NEW
  }

  function StageAfterFetch(s: State, k: nat): Stage
    requires MayFetch(s, k)
  {
    var slot := s.w.controls[s.workers[k].control].slot;
    if slot.None? then Spent else if s.w.transfers[slot.value].passive then InConn else Holding
  }

  function WithStage(workers: map<nat, Worker>, k: nat, stage: Stage): map<nat, Worker>
    requires k in workers
  {
    workers[k := workers[k].(stage := stage)]
  }

  function WorkersAfter(s: State, m: Move): map<nat, Worker>
    requires Allowed(s, m)
  {
    match m
    case Spawn(c, k) => s.workers[k := Worker(c, Preparing)]
    case Fetch(k) => WithStage(s.workers, k, StageAfterFetch(s, k))
    case LockSlotBy(_, _, who) => if who.ByWorker? then WithStage(s.workers, who.k, Spent) else s.workers
    case Do(a) =>
      if a.Conn? then WithStage(s.workers, a.k, if a.conn.Keep? then Holding else Spent)
      else if a.Listener? && a.listen.Deliver? && s.w.transfers[a.t].listening == Offering(None) then
        WithStage(s.workers, a.listen.k, Spent)
      else s.workers
    case _ => s.workers
  }

  function Moved(s: State, m: Move): State
    requires Allowed(s, m)
  {
    var a := StepOf(s, m);
    State(if a.Some? then Step(s.w, a.value) else s.w, SessionsAfter(s, m), WorkersAfter(s, m))
  }

  function StartState(cfg: Config, addressCheck: bool): State {
    State(Initial(cfg, addressCheck), map[], map[])
  }

  ghost predicate IsPath(s: State, moves: seq<Move>)
    decreases |moves|
  {
    moves == [] || (Allowed(s, moves[0]) && IsPath(Moved(s, moves[0]), moves[1..]))
  }

  ghost function AtEnd(s: State, moves: seq<Move>): State
    requires IsPath(s, moves)
    decreases |moves|
  {
    if moves == [] then s else AtEnd(Moved(s, moves[0]), moves[1..])
  }

  // -------------------------------------------------------- the invariant

  ghost predicate SessionOk(x: Session, ctl: Control) {
    && (!x.once.Fresh? ==> x.flag)
    && (x.once.Emptying? <==> ctl.lock.Locked? && x.locker.ByClose?)
    && (ctl.lock.Locked? && ctl.lock.next.Some? ==> x.locker.ByLoop? && x.loop == OpeningFor(ctl.lock.next.value))
    && (x.once.Emptied? && ctl.slot.Some? ==>
          x.loop.Idle? || x.loop.Ended? || x.loop == OpeningFor(ctl.slot.value))
  }

  /** While a transfer is being opened the serve loop is busy with it. */
  ghost predicate OpenerOk(sessions: map<nat, Session>, t: nat, x: Transfer) {
    x.control in sessions && (!Settled(x) ==> sessions[x.control].loop == OpeningFor(t))
  }

  predicate Installed(x: Transfer) { x.opening.Current? || x.opening.Replaced? }

  ghost predicate WorkerOk(w: World, k: nat, g: Worker) {
    && g.control in w.controls
    && (g.stage.Preparing? ==> k !in w.callers)
    && (g.stage.InConn? ==> k in w.callers)
    && (k in w.callers ==>
          && OpenedOn(w.transfers, w.callers[k].transfer, g.control)
          && Installed(w.transfers[w.callers[k].transfer])
          && (g.stage.InConn? <==> !w.callers[k].Answered?))
  }

  ghost predicate SessionsOk(s: State) {
    && s.sessions.Keys == s.w.controls.Keys
    && (forall c :: c in s.sessions ==> SessionOk(s.sessions[c], s.w.controls[c]))
  }

  ghost predicate OpenersOk(s: State) {
    forall t :: t in s.w.transfers ==> OpenerOk(s.sessions, t, s.w.transfers[t])
  }

  ghost predicate WorkersOk(s: State) {
    && s.w.callers.Keys <= s.workers.Keys
    && (forall k :: k in s.workers ==> WorkerOk(s.w, k, s.workers[k]))
  }

  ghost predicate StateInv(s: State) {
    Inv(s.w) && SessionsOk(s) && OpenersOk(s) && WorkersOk(s)
  }

  // ------------------------------------------------ what one move keeps

  /** Listener goroutines and calls of Conn leave the sessions alone. */
  lemma QuietSession(s: State, a: Action, c: nat)
    requires Allowed(s, Do(a)) && (a.Listener? || a.Conn?) && c in s.sessions
    ensures c in Moved(s, Do(a)).sessions && Moved(s, Do(a)).sessions[c] == s.sessions[c]
  {
  }

  /** Only the opener of a transfer and the slot of its control change `opening`. */
  lemma OpeningStays(w: World, a: Action, t: nat)
    requires Inv(w) && Enabled(w, a) && t in w.transfers
    ensures t in Step(w, a).transfers && Step(w, a).transfers[t].control == w.transfers[t].control
    ensures !(a.Opener? && a.t == t) && !(a.Slot? && a.c == w.transfers[t].control) ==>
              Step(w, a).transfers[t].opening == w.transfers[t].opening
  {
    match a
    case Connect(_, _) =>
    case Opener(_, _) =>
    case Slot(c, s) => SlotNextAt(w, c, s, t);
    case Listener(u, l) => ListenerKeepsOpening(w, u, l, t);
    case Conn(k, m) => CallerLeaves(w, k, m, t);
  }

  lemma ListenerKeepsOpening(w: World, u: nat, l: ListenerStep, t: nat)
    requires ListenerEnabled(w, u, l) && t in w.transfers
    ensures t in ListenerNext(w, u, l).transfers
    ensures var x, x' := w.transfers[t], ListenerNext(w, u, l).transfers[t];
            x'.opening == x.opening && x'.control == x.control && x'.port == x.port && x'.signals == x.signals
  {
  }

  // sessions

  lemma OtherControlsStayPut(w: World, a: Action, c: nat)
    requires Enabled(w, a) && c in w.controls && !(a.Slot? && a.c == c)
    ensures c in Step(w, a).controls && Step(w, a).controls[c] == w.controls[c]
  {
  }

  lemma MoveKeepsSession(s: State, m: Move, c: nat)
    requires StateInv(s) && Allowed(s, m) && c in s.sessions
    ensures c in Moved(s, m).w.controls && SessionOk(SessionAfter(s, m, c), Moved(s, m).w.controls[c])
  {
    assert SessionOk(s.sessions[c], s.w.controls[c]);
    if StepOf(s, m).Some? && !(m.LockSlotBy? && m.c == c) && m != Do(Slot(c, Replace)) {
      OtherControlsStayPut(s.w, StepOf(s, m).value, c);
    }
  }

  lemma MoveKeepsSessions(s: State, m: Move)
    requires StateInv(s) && Allowed(s, m)
    ensures SessionsOk(Moved(s, m))
  {
    var s' := Moved(s, m);
    ControlKeys(s, m);
    forall c | c in s'.sessions ensures SessionOk(s'.sessions[c], s'.w.controls[c]) {
      if c in s.sessions {
        MoveKeepsSession(s, m, c);
      }
    }
  }

  lemma ControlKeys(s: State, m: Move)
    requires s.sessions.Keys == s.w.controls.Keys && Allowed(s, m)
    ensures Moved(s, m).sessions.Keys == Moved(s, m).w.controls.Keys
    ensures m.Arrive? ==>
              Moved(s, m).w.controls[m.c] == Control(m.ip, None, Unlocked) && Moved(s, m).sessions[m.c] == NEW
  {
  }

  // openers

  lemma LoopStays(s: State, m: Move, c: nat, t: nat)
    requires Allowed(s, m) && c in s.sessions && s.sessions[c].loop == OpeningFor(t)
    requires m == Leave(c) ==> t in s.w.transfers && !Settled(s.w.transfers[t])
    ensures SessionAfter(s, m, c).loop == OpeningFor(t)
  {
  }

  lemma MoveKeepsOpener(s: State, m: Move, t: nat)
    requires StateInv(s) && Allowed(s, m) && t in s.w.transfers
    ensures t in Moved(s, m).w.transfers && OpenerOk(Moved(s, m).sessions, t, Moved(s, m).w.transfers[t])
  {
    var x := s.w.transfers[t];
    assert OpenerOk(s.sessions, t, x);
    if StepOf(s, m).Some? {
      OpeningStays(s.w, StepOf(s, m).value, t);
      if !Settled(Moved(s, m).w.transfers[t]) { UnsettledBefore(s.w, StepOf(s, m).value, t); }
    }
    if !Settled(x) { LoopStays(s, m, x.control, t); }
  }

  lemma UnsettledBefore(w: World, a: Action, t: nat)
    requires Inv(w) && Enabled(w, a) && t in w.transfers
    requires t in Step(w, a).transfers && !Settled(Step(w, a).transfers[t])
    ensures !Settled(w.transfers[t])
  {
    OpeningStays(w, a, t);
    if a.Slot? { SlotNextAt(w, a.c, a.slot, t); }
  }

  lemma NewTransfersAreOpened(s: State, m: Move, t: nat)
    requires StateInv(s) && Allowed(s, m) && t !in s.w.transfers && t in Moved(s, m).w.transfers
    ensures OpenerOk(Moved(s, m).sessions, t, Moved(s, m).w.transfers[t])
  {
    TransfersBegin(s.w, StepOf(s, m).value, t);
  }

  lemma TransfersBegin(w: World, a: Action, t: nat)
    requires Enabled(w, a) && t !in w.transfers && t in Step(w, a).transfers
    ensures a.Opener? && a.t == t && (a.open.Begin? || a.open.Dial?) && Step(w, a).transfers[t].control == a.open.c
  {
  }

  lemma MoveKeepsOpeners(s: State, m: Move)
    requires StateInv(s) && Allowed(s, m)
    ensures OpenersOk(Moved(s, m))
  {
    forall t | t in Moved(s, m).w.transfers ensures OpenerOk(Moved(s, m).sessions, t, Moved(s, m).w.transfers[t]) {
      if t in s.w.transfers { MoveKeepsOpener(s, m, t); } else { NewTransfersAreOpened(s, m, t); }
    }
  }

  // workers

  lemma CallerStays(w: World, a: Action, k: nat)
    requires Enabled(w, a) && k in w.callers && !(a.Conn? && a.k == k)
    requires a != Listener(w.callers[k].transfer, Deliver(k))
    ensures k in Step(w, a).callers && Step(w, a).callers[k] == w.callers[k]
  {
  }

  lemma InstalledStays(w: World, a: Action, t: nat)
    requires Inv(w) && Enabled(w, a) && t in w.transfers
    requires Installed(w.transfers[t])
    ensures t in Step(w, a).transfers && Step(w, a).transfers[t].control == w.transfers[t].control
    ensures Installed(Step(w, a).transfers[t])
  {
    OpeningStays(w, a, t);
    if a.Slot? { SlotNextAt(w, a.c, a.slot, t); }
  }

  /** A goroutine that a step of the world is not about. */
  lemma StepLeavesWorker(w: World, a: Action, k: nat, g: Worker)
    requires Inv(w) && Enabled(w, a) && WorkerOk(w, k, g)
    requires !(a.Conn? && a.k == k) && !(a.Listener? && a.listen == Deliver(k))
    ensures WorkerOk(Step(w, a), k, g)
  {
    if k in w.callers {
      CallerStays(w, a, k);
      InstalledStays(w, a, w.callers[k].transfer);
    }
  }

  lemma DeliverKeepsWorker(s: State, t: nat, k: nat)
    requires StateInv(s) && Allowed(s, Do(Listener(t, Deliver(k))))
    ensures var s' := Moved(s, Do(Listener(t, Deliver(k)))); k in s'.workers && WorkerOk(s'.w, k, s'.workers[k])
  {
    assert WorkerOk(s.w, k, s.workers[k]);
    InstalledStays(s.w, Listener(t, Deliver(k)), t);
  }

  lemma ConnKeepsWorker(s: State, k: nat, m: CallerStep)
    requires StateInv(s) && Allowed(s, Do(Conn(k, m)))
    ensures var s' := Moved(s, Do(Conn(k, m))); k in s'.workers && WorkerOk(s'.w, k, s'.workers[k])
  {
    assert WorkerOk(s.w, k, s.workers[k]);
    InstalledStays(s.w, Conn(k, m), s.w.callers[k].transfer);
  }

  /** Move `m` goes on with the call of goroutine `k`. */
  predicate About(m: Move, k: nat) {
    || m == Fetch(k)
    || (m.Do? && m.a.Conn? && m.a.k == k)
    || (m.Do? && m.a.Listener? && m.a.listen == Deliver(k))
  }

  lemma OtherMovesKeepWorker(s: State, m: Move, k: nat)
    requires StateInv(s) && Allowed(s, m) && k in s.workers
    requires !About(m, k)
    ensures k in Moved(s, m).workers && WorkerOk(Moved(s, m).w, k, Moved(s, m).workers[k])
  {
    var g := s.workers[k];
    assert WorkerOk(s.w, k, g);
    if StepOf(s, m).Some? { StepLeavesWorker(s.w, StepOf(s, m).value, k, g); }
    OtherMovesLeaveStage(s, m, k);
  }

  lemma OtherMovesLeaveStage(s: State, m: Move, k: nat)
    requires Allowed(s, m) && k in s.workers
    requires !About(m, k)
    ensures k in WorkersAfter(s, m)
    ensures var g, g' := s.workers[k], WorkersAfter(s, m)[k];
            g' == g || (g.stage.Holding? && g' == g.(stage := Spent))
  {
  }

  lemma WorkerKeys(s: State, m: Move)
    requires WorkersOk(s) && Allowed(s, m)
    ensures Moved(s, m).w.callers.Keys <= Moved(s, m).workers.Keys
    ensures forall k :: k in Moved(s, m).workers && k !in s.workers ==> m.Spawn? && m.k == k
  {
    forall k | k in Moved(s, m).w.callers ensures k in Moved(s, m).workers {
    }
  }

  lemma MoveKeepsWorkers(s: State, m: Move)
    requires StateInv(s) && Allowed(s, m)
    ensures WorkersOk(Moved(s, m))
  {
    WorkerKeys(s, m);
    forall k | k in Moved(s, m).workers ensures WorkerOk(Moved(s, m).w, k, Moved(s, m).workers[k]) {
      if k !in s.workers {
        assert WorkersAfter(s, m)[k] == Worker(m.c, Preparing);
      } else if !About(m, k) {
        OtherMovesKeepWorker(s, m, k);
      } else if m.Do? && m.a.Conn? {
        ConnKeepsWorker(s, k, m.a.conn);
      } else if m.Do? {
        DeliverKeepsWorker(s, m.a.t, k);
      }
    }
  }

  /** Every move keeps the invariant. */
  lemma MoveKeepsInv(s: State, m: Move)
    requires StateInv(s) && Allowed(s, m)
    ensures StateInv(Moved(s, m))
  {
    if StepOf(s, m).Some? { StepKeepsInv(s.w, StepOf(s, m).value); }
    MoveKeepsSessions(s, m);
    MoveKeepsOpeners(s, m);
    MoveKeepsWorkers(s, m);
  }

  lemma {:induction false} PathKeepsInv(s: State, moves: seq<Move>)
    requires StateInv(s) && IsPath(s, moves)
    ensures StateInv(AtEnd(s, moves))
    decreases |moves|
  {
    if moves != [] {
      MoveKeepsInv(s, moves[0]);
      PathKeepsInv(Moved(s, moves[0]), moves[1..]);
    }
  }

  // ------------------------------------- what flags and goroutines add up to

  /** In every path the flag is what the moves say: set by a shutdown, a command that
    * ends the session or the one-time close of this connection, and by nothing else. */
  lemma {:induction false} FlagFollowsMoves(s: State, moves: seq<Move>, c: nat)
    requires IsPath(s, moves) && c in s.sessions
    ensures c in AtEnd(s, moves).sessions
    ensures AtEnd(s, moves).sessions[c].flag <==> s.sessions[c].flag || SetFlag(c) in moves || BeginClose(c) in moves
    decreases |moves|
  {
    if moves != [] {
      FlagStep(s, moves[0], c);
      FlagFollowsMoves(Moved(s, moves[0]), moves[1..], c);
      assert moves == [moves[0]] + moves[1..];
    }
  }

  lemma FlagStep(s: State, m: Move, c: nat)
    requires Allowed(s, m) && c in s.sessions
    ensures c in Moved(s, m).sessions
    ensures Moved(s, m).sessions[c].flag <==> s.sessions[c].flag || m == SetFlag(c) || m == BeginClose(c)
  {
    assert Moved(s, m).sessions[c] == SessionAfter(s, m, c);
  }

  predicate IsHolding(s: State, k: nat) { k in s.workers && s.workers[k].stage.Holding? }

  /** Goroutine `k` gets its data connection: an active transfer was in the slot when
    * it read it, or its Conn returns one. */
  predicate Gets(s: State, m: Move, k: nat)
    requires Allowed(s, m)
  {
    || (m == Fetch(k)
        && var slot := s.w.controls[s.workers[k].control].slot;
        slot.Some? && !s.w.transfers[slot.value].passive)
    || m == Do(Conn(k, Keep))
  }

  /** It locks the slot to close what is there. */
  predicate LocksToClose(m: Move, k: nat) { m.LockSlotBy? && m.who == ByWorker(k) }

  ghost function TimesGot(s: State, moves: seq<Move>, k: nat): nat
    requires IsPath(s, moves)
    decreases |moves|
  {
    if moves == [] then 0 else (if Gets(s, moves[0], k) then 1 else 0) + TimesGot(Moved(s, moves[0]), moves[1..], k)
  }

  function TimesLocked(moves: seq<Move>, k: nat): nat {
    if moves == [] then 0 else (if LocksToClose(moves[0], k) then 1 else 0) + TimesLocked(moves[1..], k)
  }

  /** In every path a goroutine locks the slot once for each connection that it got,
    * or holds the connection and can still do so. */
  lemma {:induction false} EveryConnectionIsClosedOnce(s: State, moves: seq<Move>, k: nat)
    requires StateInv(s) && IsPath(s, moves)
    ensures TimesGot(s, moves, k) + (if IsHolding(s, k) then 1 else 0) ==
            TimesLocked(moves, k) + if IsHolding(AtEnd(s, moves), k) then 1 else 0
    decreases |moves|
  {
    if moves != [] {
      MoveKeepsInv(s, moves[0]);
      HoldingStep(s, moves[0], k);
      EveryConnectionIsClosedOnce(Moved(s, moves[0]), moves[1..], k);
    }
  }

  lemma HoldingStep(s: State, m: Move, k: nat)
    requires StateInv(s) && Allowed(s, m)
    ensures IsHolding(Moved(s, m), k) <==> Gets(s, m, k) || (IsHolding(s, k) && !LocksToClose(m, k))
    ensures Gets(s, m, k) ==> !IsHolding(s, k)
    ensures LocksToClose(m, k) ==> IsHolding(s, k)
  {
    if k in s.workers { assert WorkerOk(s.w, k, s.workers[k]); }
    HoldingAfter(s, m, k);
  }

  lemma HoldingAfter(s: State, m: Move, k: nat)
    requires Allowed(s, m)
    requires k in s.workers ==> WorkerOk(s.w, k, s.workers[k])
    ensures var after := WorkersAfter(s, m);
            k in after && after[k].stage.Holding? <==> Gets(s, m, k) || (IsHolding(s, k) && !LocksToClose(m, k))
  {
  }

  // ------------------------------------------- how far a holder is from its end

  function LockDistance(lock: Lock): nat {
    match lock
    case Unlocked => 0
    case Locked(_, stage) =>
      match stage
      case CloseData => 4
      case CloseSignal => 3
      case CloseListener => 2
      case Swap => 1
  }

  /** How far a transfer is from being installed and closed again. */
  function SlotDistance(ctl: Control, x: Transfer): nat {
    match x.opening
    case Binding(_) => 60
    case Ready => 40 + LockDistance(ctl.lock)
    case Installing => 30 + LockDistance(ctl.lock)
    case Current => if ctl.lock.Unlocked? then 10 else LockDistance(ctl.lock)
    case _ => 0
  }

  /** How far the holder of a port is from giving it back. */
  function Distance(w: World, t: nat): nat
    requires t in w.transfers && w.transfers[t].control in w.controls
  {
    SlotDistance(w.controls[w.transfers[t].control], w.transfers[t]) + Rank(w.transfers[t])
  }

  /** Step `a` brings the holder `t` closer and keeps it a holder. */
  ghost predicate Closer(w: World, t: nat, a: Action)
    requires Enabled(w, a) && t in w.transfers && w.transfers[t].control in w.controls
  {
    var w' := Step(w, a);
    && t in w'.transfers && w'.transfers[t].control in w'.controls
    && Distance(w', t) < Distance(w, t)
    && HoldsPort(w'.transfers[t]) && w'.transfers[t].port == w.transfers[t].port
  }

  lemma BindIsCloser(w: World, t: nat)
    requires t in w.transfers && w.transfers[t].control in w.controls
    requires w.transfers[t].opening.Binding? && w.transfers[t].port != 0
    ensures Enabled(w, Opener(t, Bind(true))) && Closer(w, t, Opener(t, Bind(true)))
  {
  }

  /** Close has run on the transfer. */
  predicate IsClosed(x: Transfer) { x.signals > 0 && !x.listenerOpen }

  /** The next step of a listener goroutine that goes towards its end. */
  function TowardsEnd(x: Transfer): ListenerStep
    requires Unfinished(x)
  {
    match x.listening
    case Accepting => Accept(Permanent)
    case Offering(_) => Cancel
    case ClosingChannel => CloseChannel
    case ClosingListener => CloseOwnListener
    case Releasing => ReleasePort
  }

  predicate WaitsForClose(x: Transfer) {
    (x.listening.Accepting? || x.listening.Offering?) && !IsClosed(x)
  }

  lemma ListenerIsCloser(w: World, t: nat)
    requires t in w.transfers && w.transfers[t].control in w.controls && Shaped(w.cfg, w.pool)
    requires HoldsPort(w.transfers[t]) && !w.transfers[t].opening.Binding? && !WaitsForClose(w.transfers[t])
    ensures ListenerEnabled(w, t, TowardsEnd(w.transfers[t]))
    ensures !w.transfers[t].listening.Releasing? ==> Closer(w, t, Listener(t, TowardsEnd(w.transfers[t])))
  {
  }

  /** The next step on the slot that goes towards installing and closing `t`. */
  function TowardsClose(ctl: Control, t: nat, x: Transfer): SlotStep {
    if ctl.lock.Locked? then Replace else LockSlot(if x.opening.Ready? then Some(t) else None)
  }

  lemma SlotMoves(w: World, t: nat)
    requires MachinesOk(w) && SlotsOk(w) && t in w.transfers
    requires WaitsForClose(w.transfers[t]) && !w.transfers[t].opening.Binding?
    ensures var x := w.transfers[t];
            && x.control in w.controls && SlotEnabled(w, x.control, TowardsClose(w.controls[x.control], t, x))
            && (x.opening.Ready? || x.opening.Installing? || x.opening.Current?)
  {
    var x := w.transfers[t];
    assert MachineOk(w.addressCheck, w.controls[x.control].ip, x) && SlotOk(w.controls[x.control], t, x);
    assert ControlOk(w.transfers, x.control, w.controls[x.control]);
  }

  lemma TowardsCloseMovesLock(w: World, t: nat, c: nat)
    requires t in w.transfers && c in w.controls && SlotEnabled(w, c, TowardsClose(w.controls[c], t, w.transfers[t]))
    ensures var ctl := w.controls[c];
            var w' := SlotNext(w, c, TowardsClose(ctl, t, w.transfers[t]));
            && c in w'.controls
            && if ctl.lock.Unlocked? then w'.controls[c].lock.Locked? && LockDistance(w'.controls[c].lock) == 4
               else
                 && LockDistance(w'.controls[c].lock) < LockDistance(ctl.lock)
                 && (w'.controls[c].lock.Unlocked? <==> ctl.lock.stage.Swap?)
  {
  }

  lemma SlotIsCloser(w: World, t: nat)
    requires MachinesOk(w) && SlotsOk(w) && t in w.transfers
    requires WaitsForClose(w.transfers[t]) && !w.transfers[t].opening.Binding? && w.transfers[t].port != 0
    ensures var x := w.transfers[t];
            && x.control in w.controls && SlotEnabled(w, x.control, TowardsClose(w.controls[x.control], t, x))
            && Closer(w, t, Slot(x.control, TowardsClose(w.controls[x.control], t, x)))
  {
    var x := w.transfers[t];
    var c, ctl := x.control, w.controls[x.control];
    var s := TowardsClose(ctl, t, x);
    SlotMoves(w, t);
    SlotNextAt(w, c, s, t);
    SlotLeavesPort(w, c, s, t);
    assert SlotOk(ctl, t, x);
    TowardsCloseMovesLock(w, t, c);
    var w' := SlotNext(w, c, s);
    var x' := w'.transfers[t];
    assert x'.control == c;
    assert SlotDistance(w'.controls[c], x') < SlotDistance(ctl, x);
  }

  // ------------------------------------------------------ which ports are lost

  /** The listener goroutine accepts, or offers what it has accepted. */
  predicate Waiting(x: Transfer) { x.listening.Accepting? || x.listening.Offering? }

  /** Neither the serve loop nor the one-time close will close transfer `t`: the
    * close has emptied the slot, or has the lock to empty it, and `t` is installed
    * after that. */
  predicate HopelessAlone(s: State, t: nat)
    requires t in s.w.transfers && s.w.transfers[t].control in s.w.controls && s.w.transfers[t].control in s.sessions
  {
    var x := s.w.transfers[t];
    var once, ctl := s.sessions[x.control].once, s.w.controls[x.control];
    match x.opening
    case Binding(_) => once.Emptying? || once.Emptied?
    case Ready => Waiting(x) && (once.Emptying? || once.Emptied?)
    case Installing => Waiting(x) && once.Emptied?
    case Current => Waiting(x) && once.Emptied? && ctl.lock.Unlocked?
    case _ => false
  }

  /** Transfer `u` can still hand out a connection. */
  predicate CouldConnect(w: World, u: nat) {
    && u in w.transfers && w.transfers[u].control in w.controls
    && var x := w.transfers[u];
    || (x.listening.Offering? && x.listening.peer.Some?)
    || (x.listening.Accepting? && x.listenerOpen && (!w.addressCheck || w.controls[x.control].ip.Some?))
  }

  /** Goroutine `k` can bring transfer `t` to its end: by getting the connection of
    * `t`, or by closing the slot after getting another one. */
  predicate CanHelp(s: State, t: nat, k: nat)
    requires t in s.w.transfers
  {
    && k in s.workers && s.workers[k].control == s.w.transfers[t].control
    && match s.workers[k].stage
       case Preparing => true
       case Holding => true
       case InConn =>
         && k in s.w.callers
         && (|| s.w.callers[k].Received?
             || (s.w.callers[k].Receiving? &&
                 (s.w.callers[k].transfer == t || CouldConnect(s.w, s.w.callers[k].transfer))))
       case Spent => false
  }

  ghost predicate Doomed(s: State, t: nat) {
    && t in s.w.transfers && s.w.transfers[t].control in s.w.controls && s.w.transfers[t].control in s.sessions
    && HopelessAlone(s, t)
    && forall k :: k in s.workers ==> !CanHelp(s, t, k)
  }

  ghost predicate DoomedHolder(s: State, t: nat, port: int) {
    Holder(s.w, t, port) && Doomed(s, t)
  }

  /** A listen on the port has failed, or its transfer comes after the one-time
    * close of its connection and no goroutine is left to end it. */
  ghost predicate Lost(s: State, port: int) {
    port in s.w.retired || exists t :: DoomedHolder(s, t, port)
  }

  ghost predicate FreedAlong(s: State, moves: seq<Move>, port: int) {
    && IsPath(s, moves)
    && var w := AtEnd(s, moves).w; Shaped(w.cfg, w.pool) && port in Free(w.cfg, w.pool)
  }

  ghost predicate CanBeFreed(s: State, port: int) {
    exists moves :: FreedAlong(s, moves, port)
  }

  // ---------------------------------------------- what is not lost can be freed

  function OnceLeft(once: Once): nat { if once.Fresh? then 2 else if once.Flagged? then 1 else 0 }

  function Measure(s: State, t: nat): nat
    requires t in s.w.transfers && s.w.transfers[t].control in s.w.controls && s.w.transfers[t].control in s.sessions
  {
    Distance(s.w, t) + OnceLeft(s.sessions[s.w.transfers[t].control].once)
  }

  /** `t` exists, has a session, and holds a pool port. */
  predicate Holds(s: State, t: nat) {
    && t in s.w.transfers && s.w.transfers[t].control in s.w.controls && s.w.transfers[t].control in s.sessions
    && HoldsPort(s.w.transfers[t])
  }

  ghost predicate Progress(s: State, t: nat, m: Move)
    requires Holds(s, t)
  {
    && Allowed(s, m)
    && var s' := Moved(s, m);
    && Holds(s', t) && s'.w.transfers[t].port == s.w.transfers[t].port
    && !HopelessAlone(s', t) && Measure(s', t) < Measure(s, t)
  }

  lemma Facts(s: State, t: nat)
    requires StateInv(s) && t in s.w.transfers
    ensures var x := s.w.transfers[t];
            && x.control in s.w.controls && x.control in s.sessions
            && SessionOk(s.sessions[x.control], s.w.controls[x.control])
            && SlotOk(s.w.controls[x.control], t, x)
            && MachineOk(s.w.addressCheck, s.w.controls[x.control].ip, x)
            && ControlOk(s.w.transfers, x.control, s.w.controls[x.control])
            && (!Settled(x) ==> s.sessions[x.control].loop == OpeningFor(t))
  {
    assert OpenerOk(s.sessions, t, s.w.transfers[t]);
  }

  lemma BindProgress(s: State, t: nat)
    requires StateInv(s) && Holds(s, t) && s.w.transfers[t].opening.Binding?
    ensures Allowed(s, Do(Opener(t, Bind(true))))
    ensures var s' := Moved(s, Do(Opener(t, Bind(true))));
            && Holds(s', t) && s'.w.transfers[t].port == s.w.transfers[t].port
            && Measure(s', t) < Measure(s, t) && s'.workers == s.workers
            && (!HopelessAlone(s, t) ==> !HopelessAlone(s', t))
  {
    var m := Do(Opener(t, Bind(true)));
    BindIsCloser(s.w, t);
    assert SessionAfter(s, m, s.w.transfers[t].control) == s.sessions[s.w.transfers[t].control];
  }

  /** The moves on the slot of a transfer that waits to be installed or closed. */
  lemma SlotProgress(s: State, t: nat, m: Move)
    requires StateInv(s) && Holds(s, t) && WaitsForClose(s.w.transfers[t]) && !s.w.transfers[t].opening.Binding?
    requires Allowed(s, m)
    requires var c := s.w.transfers[t].control;
             StepOf(s, m) == Some(Slot(c, TowardsClose(s.w.controls[c], t, s.w.transfers[t])))
    ensures var s' := Moved(s, m);
            && Holds(s', t) && s'.w.transfers[t].port == s.w.transfers[t].port && Measure(s', t) < Measure(s, t)
  {
    var c := s.w.transfers[t].control;
    SlotIsCloser(s.w, t);
    OpeningStays(s.w, StepOf(s, m).value, t);
  }

  /** What the slot of `t` becomes, and the one-time close, when the lock moves on. */
  lemma ReplaceMovesOn(s: State, t: nat)
    requires Inv(s.w) && t in s.w.transfers && Allowed(s, Do(Slot(s.w.transfers[t].control, Replace)))
    ensures var x := s.w.transfers[t];
            var c, ctl, s' := x.control, s.w.controls[x.control], Moved(s, Do(Slot(x.control, Replace)));
            && t in s'.w.transfers && c in s'.sessions && c in s'.w.controls
            && s'.w.transfers[t].control == c && s'.w.transfers[t].listening == x.listening
            && s'.workers == s.workers
            && (s'.w.controls[c].lock.Unlocked? <==> ctl.lock.stage.Swap?)
            && s'.sessions[c].once ==
                 (if ctl.lock.stage.Swap? && s.sessions[c].locker.ByClose? then Emptied else s.sessions[c].once)
            && s'.w.transfers[t].opening ==
                 (if !ctl.lock.stage.Swap? then x.opening
                  else if ctl.lock.next == Some(t) then Current
                  else if ctl.slot == Some(t) then Replaced else x.opening)
  {
    var c := s.w.transfers[t].control;
    SlotNextAt(s.w, c, Replace, t);
    SlotLeavesPort(s.w, c, Replace, t);
    ReplaceMovesSession(s, c);
  }

  lemma ReplaceMovesSession(s: State, c: nat)
    requires Allowed(s, Do(Slot(c, Replace)))
    ensures var s' := Moved(s, Do(Slot(c, Replace)));
            && c in s'.sessions && s'.workers == s.workers
            && s'.sessions[c].once ==
                 if s.w.controls[c].lock.stage.Swap? && s.sessions[c].locker.ByClose? then Emptied
                 else s.sessions[c].once
  {
  }

  lemma ReplaceProgress(s: State, t: nat)
    requires StateInv(s) && Holds(s, t) && WaitsForClose(s.w.transfers[t]) && !s.w.transfers[t].opening.Binding?
    requires s.w.controls[s.w.transfers[t].control].lock.Locked? && !HopelessAlone(s, t)
    ensures Progress(s, t, Do(Slot(s.w.transfers[t].control, Replace)))
  {
    var c := s.w.transfers[t].control;
    Facts(s, t);
    SlotMoves(s.w, t);
    SlotProgress(s, t, Do(Slot(c, Replace)));
    ReplaceMovesOn(s, t);
  }

  lemma InstallMoves(s: State, t: nat)
    requires StateInv(s) && Holds(s, t) && WaitsForClose(s.w.transfers[t]) && s.w.transfers[t].opening.Ready?
    requires s.w.controls[s.w.transfers[t].control].lock.Unlocked?
    ensures var c := s.w.transfers[t].control;
            var m := LockSlotBy(c, Some(t), ByLoop);
            && Allowed(s, m)
            && var s' := Moved(s, m);
            && Holds(s', t) && s'.w.transfers[t].port == s.w.transfers[t].port && Measure(s', t) < Measure(s, t)
            && s'.w.transfers[t].opening.Installing? && s'.workers == s.workers
            && s'.sessions[c].once == s.sessions[c].once && s'.w.transfers[t].control == c
  {
    var c := s.w.transfers[t].control;
    var m := LockSlotBy(c, Some(t), ByLoop);
    Facts(s, t);
    SlotMoves(s.w, t);
    SlotProgress(s, t, m);
    SlotNextAt(s.w, c, LockSlot(Some(t)), t);
  }

  lemma InstallProgress(s: State, t: nat)
    requires StateInv(s) && Holds(s, t) && WaitsForClose(s.w.transfers[t]) && s.w.transfers[t].opening.Ready?
    requires s.w.controls[s.w.transfers[t].control].lock.Unlocked? && !HopelessAlone(s, t)
    ensures Progress(s, t, LockSlotBy(s.w.transfers[t].control, Some(t), ByLoop))
  {
    InstallMoves(s, t);
  }

  lemma BeginCloseProgress(s: State, t: nat)
    requires StateInv(s) && Holds(s, t) && s.w.transfers[t].opening.Current?
    requires s.sessions[s.w.transfers[t].control].once.Fresh?
    ensures Progress(s, t, BeginClose(s.w.transfers[t].control))
  {
  }

  lemma ListenerProgress(s: State, t: nat)
    requires StateInv(s) && Holds(s, t) && !WaitsForClose(s.w.transfers[t]) && !s.w.transfers[t].opening.Binding?
    requires !HopelessAlone(s, t)
    ensures var l := TowardsEnd(s.w.transfers[t]);
            Allowed(s, Do(Listener(t, l))) && (l.ReleasePort? || Progress(s, t, Do(Listener(t, l))))
  {
    var l := TowardsEnd(s.w.transfers[t]);
    ListenerIsCloser(s.w, t);
    if !l.ReleasePort? { ListenerStaysHopeful(s, t, l); }
  }

  lemma ListenerStaysHopeful(s: State, t: nat, l: ListenerStep)
    requires Holds(s, t) && !HopelessAlone(s, t) && Allowed(s, Do(Listener(t, l)))
    requires !s.w.transfers[t].opening.Binding? && l == TowardsEnd(s.w.transfers[t])
    requires !WaitsForClose(s.w.transfers[t])
    requires Closer(s.w, t, Listener(t, l))
    ensures Progress(s, t, Do(Listener(t, l)))
  {
    ListenerKeepsOpening(s.w, t, l, t);
    QuietSession(s, Listener(t, l), s.w.transfers[t].control);
  }

  /** Without help: the next move towards freeing the port. */
  lemma HopefulHasMove(s: State, t: nat) returns (m: Move)
    requires StateInv(s) && Holds(s, t) && !HopelessAlone(s, t)
    ensures Allowed(s, m) && (m == Do(Listener(t, ReleasePort)) || Progress(s, t, m))
  {
    var x := s.w.transfers[t];
    var c := x.control;
    Facts(s, t);
    if x.opening.Binding? {
      m := Do(Opener(t, Bind(true)));
      BindProgress(s, t);
    } else if !WaitsForClose(x) {
      m := Do(Listener(t, TowardsEnd(x)));
      ListenerProgress(s, t);
    } else {
      SlotMoves(s.w, t);
      if s.w.controls[c].lock.Locked? {
        m := Do(Slot(c, Replace));
        ReplaceProgress(s, t);
      } else if x.opening.Ready? {
        m := LockSlotBy(c, Some(t), ByLoop);
        InstallProgress(s, t);
      } else if s.sessions[c].once.Fresh? {
        m := BeginClose(c);
        BeginCloseProgress(s, t);
      } else {
        m := LockSlotBy(c, None, ByClose);
      }
    }
  }

  lemma PathFrom(s: State, m: Move, rest: seq<Move>, port: int)
    requires Allowed(s, m) && FreedAlong(Moved(s, m), rest, port)
    ensures FreedAlong(s, [m] + rest, port)
  {
    assert ([m] + rest)[1..] == rest;
  }

  lemma {:induction false} HopefulCanRelease(s: State, t: nat) returns (moves: seq<Move>)
    requires StateInv(s) && Holds(s, t) && !HopelessAlone(s, t)
    ensures FreedAlong(s, moves, s.w.transfers[t].port)
    decreases Measure(s, t)
  {
    var m := HopefulHasMove(s, t);
    MoveKeepsInv(s, m);
    var rest: seq<Move> := [];
    if m == Do(Listener(t, ReleasePort)) {
      ReleaseFrees(s.w, t);
      assert FreedAlong(Moved(s, m), rest, s.w.transfers[t].port);
    } else {
      rest := HopefulCanRelease(Moved(s, m), t);
    }
    PathFrom(s, m, rest, s.w.transfers[t].port);
    moves := [m] + rest;
  }

  /** How far goroutine `k` is from being able to end transfer `t`. */
  function HelperLeft(s: State, t: nat, k: nat): nat
    requires CanHelpAt(s, t, k)
  {
    match s.workers[k].stage
    case Preparing => 1
    case InConn =>
      if s.w.callers[k].Received? then 2
      else if s.w.callers[k].transfer == t then 0
      else if s.w.transfers[s.w.callers[k].transfer].listening.Accepting? then 4 else 3
    case _ => 0
  }

  predicate CanHelpAt(s: State, t: nat, k: nat) { t in s.w.transfers && CanHelp(s, t, k) }

  /** Move `m` brings `k` closer to ending `t`, or makes its help unnecessary. */
  ghost predicate HelpProgress(s: State, t: nat, k: nat, m: Move)
    requires Holds(s, t) && CanHelpAt(s, t, k)
  {
    && Allowed(s, m)
    && var s' := Moved(s, m);
    && Holds(s', t) && s'.w.transfers[t].port == s.w.transfers[t].port
    && (HopelessAlone(s', t) ==>
          CanHelpAt(s', t, k) && Measure(s', t) + HelperLeft(s', t, k) < Measure(s, t) + HelperLeft(s, t, k))
  }

  /** A step of the world that leaves the transfer and its session alone. */
  lemma OutsideMove(s: State, a: Action, t: nat)
    requires Holds(s, t) && Allowed(s, Do(a))
    requires a.Conn? || (a.Listener? && a.t != t)
    ensures var s' := Moved(s, Do(a));
            && Holds(s', t) && s'.w.transfers[t] == s.w.transfers[t].(kept := s'.w.transfers[t].kept)
            && s'.w.controls == s.w.controls && Measure(s', t) == Measure(s, t)
  {
    QuietSession(s, a, s.w.transfers[t].control);
  }

  /** Goroutine `k` waits for another transfer `u`, which accepts a connection. */
  lemma AcceptHelps(s: State, t: nat, k: nat)
    requires Holds(s, t) && CanHelpAt(s, t, k)
    requires s.workers[k].stage.InConn? && s.w.callers[k].Receiving? && s.w.callers[k].transfer != t
    requires s.w.transfers[s.w.callers[k].transfer].listening.Accepting?
    ensures var u := s.w.callers[k].transfer;
            var peer := Peer(0, s.w.controls[s.w.transfers[u].control].ip);
            HelpProgress(s, t, k, Do(Listener(u, Accept(Connection(peer)))))
  {
    var u := s.w.callers[k].transfer;
    OutsideMove(s, Listener(u, Accept(Connection(Peer(0, s.w.controls[s.w.transfers[u].control].ip)))), t);
  }

  lemma DeliverHelps(s: State, t: nat, k: nat)
    requires Holds(s, t) && CanHelpAt(s, t, k)
    requires s.workers[k].stage.InConn? && s.w.callers[k].Receiving? && s.w.callers[k].transfer != t
    requires s.w.transfers[s.w.callers[k].transfer].listening.Offering?
    ensures HelpProgress(s, t, k, Do(Listener(s.w.callers[k].transfer, Deliver(k))))
  {
    OutsideMove(s, Listener(s.w.callers[k].transfer, Deliver(k)), t);
  }

  lemma KeepHelps(s: State, t: nat, k: nat)
    requires StateInv(s) && Holds(s, t) && CanHelpAt(s, t, k)
    requires s.workers[k].stage.InConn? && s.w.callers[k].Received?
    ensures HelpProgress(s, t, k, Do(Conn(k, Keep)))
  {
    assert WorkerOk(s.w, k, s.workers[k]);
    OutsideMove(s, Conn(k, Keep), t);
  }

  lemma OwnAcceptHelps(s: State, t: nat, k: nat)
    requires Holds(s, t) && CanHelpAt(s, t, k) && s.w.transfers[t].listening.Accepting?
    requires s.workers[k].stage.InConn? && s.w.callers[k] == Receiving(t) && !s.w.transfers[t].opening.Binding?
    ensures HelpProgress(s, t, k, Do(Listener(t, Accept(Permanent))))
  {
    var a := Listener(t, Accept(Permanent));
    QuietSession(s, a, s.w.transfers[t].control);
  }

  lemma OwnDeliverHelps(s: State, t: nat, k: nat)
    requires Holds(s, t) && CanHelpAt(s, t, k) && s.w.transfers[t].listening.Offering?
    requires s.workers[k].stage.InConn? && s.w.callers[k] == Receiving(t) && s.w.transfers[t].opening.Current?
    ensures HelpProgress(s, t, k, Do(Listener(t, Deliver(k))))
  {
    var a := Listener(t, Deliver(k));
    QuietSession(s, a, s.w.transfers[t].control);
  }

  /** Goroutine `k` waits for `t` itself. */
  lemma OwnConnectionHelps(s: State, t: nat, k: nat) returns (m: Move)
    requires StateInv(s) && Holds(s, t) && CanHelpAt(s, t, k) && HopelessAlone(s, t)
    requires s.workers[k].stage.InConn? && s.w.callers[k].Receiving? && s.w.callers[k].transfer == t
    ensures HelpProgress(s, t, k, m)
  {
    assert WorkerOk(s.w, k, s.workers[k]);
    if s.w.transfers[t].listening.Accepting? {
      m := Do(Listener(t, Accept(Permanent)));
      OwnAcceptHelps(s, t, k);
    } else {
      m := Do(Listener(t, Deliver(k)));
      OwnDeliverHelps(s, t, k);
    }
  }

  /** With a goroutine that can help later, the transfer is installed first. */
  lemma InstallHelps(s: State, t: nat, k: nat) returns (m: Move)
    requires StateInv(s) && Holds(s, t) && CanHelpAt(s, t, k) && HopelessAlone(s, t)
    requires s.workers[k].stage.Preparing? || s.workers[k].stage.Holding?
    requires !s.w.transfers[t].opening.Current?
    ensures HelpProgress(s, t, k, m)
  {
    if s.w.transfers[t].opening.Binding? {
      m := Do(Opener(t, Bind(true)));
      BindProgress(s, t);
    } else {
      m := TowardsInstall(s, t);
    }
  }

  lemma TowardsInstall(s: State, t: nat) returns (m: Move)
    requires StateInv(s) && Holds(s, t) && Waiting(s.w.transfers[t])
    requires s.w.transfers[t].opening.Ready? || s.w.transfers[t].opening.Installing?
    ensures Allowed(s, m) && Moved(s, m).workers == s.workers && Holds(Moved(s, m), t)
    ensures Moved(s, m).w.transfers[t].control == s.w.transfers[t].control
    ensures Moved(s, m).w.transfers[t].port == s.w.transfers[t].port && Measure(Moved(s, m), t) < Measure(s, t)
  {
    var c := s.w.transfers[t].control;
    Facts(s, t);
    if s.w.controls[c].lock.Locked? {
      m := Do(Slot(c, Replace));
      SlotMoves(s.w, t);
      SlotProgress(s, t, m);
      ReplaceMovesOn(s, t);
    } else {
      m := LockSlotBy(c, Some(t), ByLoop);
      InstallMoves(s, t);
    }
  }

  lemma HelperHasMove(s: State, t: nat, k: nat) returns (m: Move)
    requires StateInv(s) && Holds(s, t) && CanHelpAt(s, t, k) && HopelessAlone(s, t)
    ensures HelpProgress(s, t, k, m)
  {
    Facts(s, t);
    if s.workers[k].stage.InConn? {
      if s.w.callers[k].Received? {
        m := Do(Conn(k, Keep));
        KeepHelps(s, t, k);
      } else if s.w.callers[k].transfer == t {
        m := OwnConnectionHelps(s, t, k);
      } else {
        var u := s.w.callers[k].transfer;
        if s.w.transfers[u].listening.Accepting? {
          m := Do(Listener(u, Accept(Connection(Peer(0, s.w.controls[s.w.transfers[u].control].ip)))));
          AcceptHelps(s, t, k);
        } else {
          m := Do(Listener(u, Deliver(k)));
          DeliverHelps(s, t, k);
        }
      }
    } else if !s.w.transfers[t].opening.Current? {
      m := InstallHelps(s, t, k);
    } else if s.workers[k].stage.Preparing? {
      m := Fetch(k);
    } else {
      m := LockSlotBy(s.w.transfers[t].control, None, ByWorker(k));
    }
  }

  lemma {:induction false} HelperCanRelease(s: State, t: nat, k: nat) returns (moves: seq<Move>)
    requires StateInv(s) && Holds(s, t) && CanHelpAt(s, t, k)
    ensures FreedAlong(s, moves, s.w.transfers[t].port)
    decreases Measure(s, t) + HelperLeft(s, t, k)
  {
    if !HopelessAlone(s, t) {
      moves := HopefulCanRelease(s, t);
    } else {
      var m := HelperHasMove(s, t, k);
      MoveKeepsInv(s, m);
      var rest;
      if HopelessAlone(Moved(s, m), t) {
        rest := HelperCanRelease(Moved(s, m), t, k);
      } else {
        rest := HopefulCanRelease(Moved(s, m), t);
      }
      PathFrom(s, m, rest, s.w.transfers[t].port);
      moves := [m] + rest;
    }
  }

  // ------------------------------------------------- what is lost stays lost

  lemma LoopOfDoomed(s: State, t: nat)
    requires StateInv(s) && Doomed(s, t)
    ensures QuietLoop(s, t)
  {
    Facts(s, t);
  }

  /** The serve loop of a doomed transfer is busy opening it, or has no command. */
  predicate QuietLoop(s: State, t: nat) {
    && t in s.w.transfers && s.w.transfers[t].control in s.sessions
    && var x, ses := s.w.transfers[t], s.sessions[s.w.transfers[t].control];
    && ses.flag && !ses.once.Fresh? && !ses.once.Flagged?
    && (ses.loop.Idle? || ses.loop.Ended? || ses.loop == OpeningFor(t))
    && (x.signals == 0 || x.opening.Binding?)
  }

  lemma SlotMovesDoNotHelp(s: State, m: Move, t: nat)
    requires StateInv(s) && Doomed(s, t) && Allowed(s, m)
    requires m.LockSlotBy? && m.c == s.w.transfers[t].control
    ensures s.w.transfers[t].opening.Ready? && m.next == Some(t) && m.who.ByLoop?
    ensures s.sessions[m.c].once.Emptied?
  {
    Facts(s, t);
    LoopOfDoomed(s, t);
    if m.who.ByWorker? { assert CanHelp(s, t, m.who.k); }
  }

  lemma ReplaceKeepsHopeless(s: State, t: nat)
    requires StateInv(s) && Doomed(s, t) && Allowed(s, Do(Slot(s.w.transfers[t].control, Replace)))
    ensures var s', c := Moved(s, Do(Slot(s.w.transfers[t].control, Replace))), s.w.transfers[t].control;
            && t in s'.w.transfers && s'.w.transfers[t].control == c
            && c in s'.w.controls && c in s'.sessions && HopelessAlone(s', t)
  {
    Facts(s, t);
    ReplaceMovesOn(s, t);
  }

  /** Moves that leave the record of `t`, its slot and its one-time close alone. */
  lemma FarMoveKeepsHopeless(s: State, m: Move, t: nat)
    requires Inv(s.w) && Holds(s, t) && HopelessAlone(s, t) && QuietLoop(s, t) && Allowed(s, m)
    requires m.LockSlotBy? ==> m.c != s.w.transfers[t].control
    requires m.Do? && m.a.Slot? ==> m.a.c != s.w.transfers[t].control
    requires m.Do? && m.a.Opener? ==> m.a.t != t
    requires m.Do? && m.a.Listener? ==> m.a.t != t
    ensures StillHopeless(s, Moved(s, m), t)
  {
    FarMoveLeavesOnce(s, m, s.w.transfers[t].control);
    if StepOf(s, m).Some? { FarStep(s.w, StepOf(s, m).value, t); }
  }

  lemma FarMoveLeavesOnce(s: State, m: Move, c: nat)
    requires Allowed(s, m) && c in s.sessions && !s.sessions[c].once.Fresh?
    requires m.LockSlotBy? ==> m.c != c
    requires m.Do? && m.a.Slot? ==> m.a.c != c
    ensures SessionAfter(s, m, c).once == s.sessions[c].once
  {
  }

  lemma FarStep(w: World, a: Action, t: nat)
    requires Inv(w) && Enabled(w, a) && t in w.transfers
    requires a.Slot? ==> a.c != w.transfers[t].control
    requires a.Opener? ==> a.t != t
    requires a.Listener? ==> a.t != t
    ensures t in Step(w, a).transfers && w.transfers[t].control in Step(w, a).controls
    ensures Step(w, a).transfers[t] == w.transfers[t].(kept := Step(w, a).transfers[t].kept)
    ensures Step(w, a).controls[w.transfers[t].control] == w.controls[w.transfers[t].control]
  {
    OtherControlsStayPut(w, a, w.transfers[t].control);
    match a
    case Connect(_, _) =>
    case Opener(u, o) =>
    case Slot(c, s) => SlotNextAt(w, c, s, t);
    case Listener(u, l) => ListenerLeaves(w, u, l, t);
    case Conn(k, m) => CallerLeaves(w, k, m, t);
  }

  /** The opener of a doomed transfer can only bind. */
  lemma OpenerOfDoomed(s: State, t: nat, o: OpenerStep)
    requires StateInv(s) && Doomed(s, t) && Allowed(s, Do(Opener(t, o)))
    ensures o.Bind? && s.w.transfers[t].opening.Binding?
    ensures var s', c := Moved(s, Do(Opener(t, o))), s.w.transfers[t].control;
            && t in s'.w.transfers && s'.w.transfers[t].control == c
            && c in s'.w.controls && c in s'.sessions
            && (o.ok ==> HopelessAlone(s', t))
            && (!o.ok && s.w.transfers[t].port != 0 ==> s.w.transfers[t].port in s'.w.retired)
  {
  }

  lemma CouldConnectBefore(w: World, a: Action, u: nat)
    requires Inv(w) && Enabled(w, a) && u in w.transfers
    requires Installed(w.transfers[u])
    requires CouldConnect(Step(w, a), u)
    ensures CouldConnect(w, u)
  {
    match a
    case Connect(_, _) =>
    case Opener(v, o) => OpenerLeaves(w, v, o, u);
    case Slot(c, s) =>
      SlotNextAt(w, c, s, u);
      SlotLeavesPort(w, c, s, u);
    case Listener(v, l) =>
      ListenerLeaves(w, v, l, u);
      if v == u { ListenerCouldConnect(w, u, l); }
    case Conn(k, m) => CallerLeaves(w, k, m, u);
  }

  lemma ListenerCouldConnect(w: World, u: nat, l: ListenerStep)
    requires Inv(w) && ListenerEnabled(w, u, l) && CouldConnect(ListenerNext(w, u, l), u)
    ensures CouldConnect(w, u)
  {
  }

  lemma InConnHelpsAfter(s: State, m: Move, t: nat, k: nat)
    requires Inv(s.w) && t in s.w.transfers && Allowed(s, m) && k in s.workers && s.workers[k].stage.InConn?
    requires WorkerOk(s.w, k, s.workers[k]) && !CanHelp(s, t, k) && !About(m, k)
    requires t in Moved(s, m).w.transfers && Moved(s, m).w.transfers[t].control == s.w.transfers[t].control
    ensures !CanHelp(Moved(s, m), t, k)
  {
    OtherMovesLeaveStage(s, m, k);
    if StepOf(s, m).Some? { WaitingCannotHelp(s, Moved(s, m), StepOf(s, m).value, t, k); }
  }

  lemma WaitingCannotHelp(s: State, s': State, a: Action, t: nat, k: nat)
    requires Inv(s.w) && t in s.w.transfers && Enabled(s.w, a) && k in s.workers && s.workers[k].stage.InConn?
    requires WorkerOk(s.w, k, s.workers[k]) && !CanHelp(s, t, k)
    requires !(a.Conn? && a.k == k) && !(a.Listener? && a.listen == Deliver(k))
    requires s'.w == Step(s.w, a) && k in s'.workers && s'.workers[k] == s.workers[k]
    requires t in s'.w.transfers && s'.w.transfers[t].control == s.w.transfers[t].control
    ensures !CanHelp(s', t, k)
  {
    CallerStays(s.w, a, k);
    if CouldConnect(s'.w, s.w.callers[k].transfer) { CouldConnectBefore(s.w, a, s.w.callers[k].transfer); }
  }

  lemma CallerCannotHelp(s: State, m: CallerStep, t: nat, k: nat)
    requires Allowed(s, Do(Conn(k, m))) && t in s.w.transfers && !CanHelp(s, t, k)
    requires WorkerOk(s.w, k, s.workers[k])
    requires t in Moved(s, Do(Conn(k, m))).w.transfers
    requires Moved(s, Do(Conn(k, m))).w.transfers[t].control == s.w.transfers[t].control
    ensures !CanHelp(Moved(s, Do(Conn(k, m))), t, k)
  {
  }

  lemma DeliveredCannotHelp(s: State, u: nat, k: nat, t: nat)
    requires Allowed(s, Do(Listener(u, Deliver(k)))) && t in s.w.transfers && !CanHelp(s, t, k)
    requires WorkerOk(s.w, k, s.workers[k]) && s.w.transfers[u].control in s.w.controls
    requires t in Moved(s, Do(Listener(u, Deliver(k)))).w.transfers
    requires Moved(s, Do(Listener(u, Deliver(k)))).w.transfers[t].control == s.w.transfers[t].control
    ensures !CanHelp(Moved(s, Do(Listener(u, Deliver(k)))), t, k)
  {
  }

  /** A goroutine in no call of Conn, which the move is not about. */
  lemma QuietWorkerCannotHelp(s: State, m: Move, t: nat, k: nat)
    requires Allowed(s, m) && t in s.w.transfers && k in s.workers && !CanHelp(s, t, k) && !s.workers[k].stage.InConn?
    requires !About(m, k)
    requires t in Moved(s, m).w.transfers && Moved(s, m).w.transfers[t].control == s.w.transfers[t].control
    ensures !CanHelp(Moved(s, m), t, k)
  {
    OtherMovesLeaveStage(s, m, k);
  }

  lemma WorkerCannotHelp(s: State, m: Move, t: nat, k: nat)
    requires Inv(s.w) && Allowed(s, m) && k in s.workers && t in s.w.transfers
    requires !CanHelp(s, t, k) && WorkerOk(s.w, k, s.workers[k])
    requires t in Moved(s, m).w.transfers && Moved(s, m).w.transfers[t].control == s.w.transfers[t].control
    ensures !CanHelp(Moved(s, m), t, k)
  {
    if About(m, k) {
      if m.Do? && m.a.Conn? { CallerCannotHelp(s, m.a.conn, t, k); }
      if m.Do? && m.a.Listener? { DeliveredCannotHelp(s, m.a.t, k, t); }
    } else if s.workers[k].stage.InConn? {
      InConnHelpsAfter(s, m, t, k);
    } else {
      QuietWorkerCannotHelp(s, m, t, k);
    }
  }

  /** No goroutine becomes able to help. */
  lemma NoHelpComes(s: State, m: Move, t: nat, k: nat)
    requires StateInv(s) && Doomed(s, t) && Allowed(s, m) && k in Moved(s, m).workers
    requires t in Moved(s, m).w.transfers && Moved(s, m).w.transfers[t].control == s.w.transfers[t].control
    ensures !CanHelp(Moved(s, m), t, k)
  {
    if k in s.workers {
      assert !CanHelp(s, t, k) && WorkerOk(s.w, k, s.workers[k]);
      WorkerCannotHelp(s, m, t, k);
    } else {
      WorkerKeys(s, m);
      LoopOfDoomed(s, t);
    }
  }

  /** The transfer is hopeless after the move and still holds its port. */
  predicate StillHopeless(s: State, s': State, t: nat) {
    && t in s.w.transfers && Holds(s', t) && HopelessAlone(s', t)
    && s'.w.transfers[t].control == s.w.transfers[t].control && s'.w.transfers[t].port == s.w.transfers[t].port
  }

  lemma SlotKeepsHopeless(s: State, m: Move, t: nat)
    requires StateInv(s) && Doomed(s, t) && Holds(s, t) && Allowed(s, m)
    requires (m.LockSlotBy? && m.c == s.w.transfers[t].control) || m == Do(Slot(s.w.transfers[t].control, Replace))
    ensures StillHopeless(s, Moved(s, m), t)
  {
    if m.LockSlotBy? {
      SlotLeavesPort(s.w, m.c, LockSlot(m.next), t);
    } else {
      ReplaceKeepsHopeless(s, t);
      SlotLeavesPort(s.w, s.w.transfers[t].control, Replace, t);
    }
  }

  lemma OwnListenerStaysHopeless(s: State, t: nat, l: ListenerStep)
    requires StateInv(s) && Doomed(s, t) && Holds(s, t) && Allowed(s, Do(Listener(t, l)))
    ensures StillHopeless(s, Moved(s, Do(Listener(t, l))), t)
  {
    ListenerKeepsOpening(s.w, t, l, t);
  }

  lemma OwnOpenerStaysHopeless(s: State, t: nat, o: OpenerStep)
    requires StateInv(s) && Doomed(s, t) && Holds(s, t) && Allowed(s, Do(Opener(t, o)))
    ensures var s' := Moved(s, Do(Opener(t, o)));
            s.w.transfers[t].port in s'.w.retired || StillHopeless(s, s', t)
  {
    OpenerOfDoomed(s, t, o);
    if o.ok { BindIsCloser(s.w, t); }
  }

  lemma StepKeepsHopeless(s: State, a: Action, t: nat)
    requires StateInv(s) && Doomed(s, t) && Holds(s, t) && Allowed(s, Do(a))
    ensures s.w.transfers[t].port in Moved(s, Do(a)).w.retired || StillHopeless(s, Moved(s, Do(a)), t)
  {
    if a == Slot(s.w.transfers[t].control, Replace) {
      SlotKeepsHopeless(s, Do(a), t);
    } else if a.Listener? && a.t == t {
      OwnListenerStaysHopeless(s, t, a.listen);
    } else if a.Opener? && a.t == t {
      OwnOpenerStaysHopeless(s, t, a.open);
    } else {
      LoopOfDoomed(s, t);
      FarMoveKeepsHopeless(s, Do(a), t);
    }
  }

  lemma HopelessGoesOn(s: State, m: Move, t: nat)
    requires StateInv(s) && Doomed(s, t) && Holds(s, t) && Allowed(s, m)
    ensures s.w.transfers[t].port in Moved(s, m).w.retired || StillHopeless(s, Moved(s, m), t)
  {
    if m.Do? {
      StepKeepsHopeless(s, m.a, t);
    } else if m.LockSlotBy? && m.c == s.w.transfers[t].control {
      SlotKeepsHopeless(s, m, t);
    } else {
      LoopOfDoomed(s, t);
      FarMoveKeepsHopeless(s, m, t);
    }
  }

  lemma DoomedStays(s: State, m: Move, t: nat)
    requires StateInv(s) && Doomed(s, t) && Holds(s, t) && Allowed(s, m)
    ensures s.w.transfers[t].port in Moved(s, m).w.retired || DoomedHolder(Moved(s, m), t, s.w.transfers[t].port)
  {
    HopelessGoesOn(s, m, t);
    if s.w.transfers[t].port !in Moved(s, m).w.retired {
      forall k | k in Moved(s, m).workers ensures !CanHelp(Moved(s, m), t, k) {
        NoHelpComes(s, m, t, k);
      }
    }
  }

  lemma LostStays(s: State, m: Move, port: int)
    requires StateInv(s) && Allowed(s, m) && Lost(s, port)
    ensures Lost(Moved(s, m), port)
  {
    if port in s.w.retired {
      if StepOf(s, m).Some? { StepKeepsRetired(s.w, StepOf(s, m).value); }
    } else {
      var t :| DoomedHolder(s, t, port);
      DoomedStays(s, m, t);
    }
  }

  lemma {:induction false} LostPortNeverReturns(s: State, moves: seq<Move>, port: int)
    requires StateInv(s) && Lost(s, port) && IsPath(s, moves)
    ensures !FreedAlong(s, moves, port)
    decreases |moves|
  {
    if moves != [] {
      MoveKeepsInv(s, moves[0]);
      LostStays(s, moves[0], port);
      LostPortNeverReturns(Moved(s, moves[0]), moves[1..], port);
    } else {
      PortsAreConserved(s.w.cfg, s.w.pool);
      if port !in s.w.retired {
        var t :| DoomedHolder(s, t, port);
        assert Holder(s.w, t, port);
      }
    }
  }

  // -------------------------------------------------- the main statements

  ghost predicate ReachableState(s: State) {
    && (s.w.cfg.min >= 1 || s.w.cfg.max <= 0)
    && exists moves :: ArrivedBy(s, moves)
  }

  ghost predicate ArrivedBy(s: State, moves: seq<Move>) {
    && IsPath(StartState(s.w.cfg, s.w.addressCheck), moves)
    && AtEnd(StartState(s.w.cfg, s.w.addressCheck), moves) == s
  }

  lemma ReachableStateInv(s: State)
    requires ReachableState(s)
    ensures StateInv(s)
  {
    var moves :| ArrivedBy(s, moves);
    PathKeepsInv(StartState(s.w.cfg, s.w.addressCheck), moves);
  }

  /** A held port is lost exactly when a listen on it has failed, or when its
    * transfer comes after the one-time close of its connection and no goroutine is
    * left that could end it; every other held port has a continuation in which it
    * is free. */
  lemma LostExactly(s: State, port: int)
    requires ReachableState(s) && Shaped(s.w.cfg, s.w.pool) && port in Held(s.w.cfg, s.w.pool)
    ensures Lost(s, port) <==> !CanBeFreed(s, port)
  {
    ReachableStateInv(s);
    if Lost(s, port) {
      forall moves | IsPath(s, moves) ensures !FreedAlong(s, moves, port) {
        LostPortNeverReturns(s, moves, port);
      }
    } else {
      var t :| Holder(s.w, t, port);
      Facts(s, t);
      assert !DoomedHolder(s, t, port);
      if !HopelessAlone(s, t) {
        var moves := HopefulCanRelease(s, t);
      } else {
        var k :| k in s.workers && CanHelp(s, t, k);
        var moves := HelperCanRelease(s, t, k);
      }
    }
  }

  /** Every run here is a run of PassiveTransfers, so what holds of those holds of
    * it. */
  lemma PathsAreRuns(s: State)
    requires ReachableState(s)
    ensures Reachable(s.w)
  {
    var moves :| ArrivedBy(s, moves);
    var actions := RunOfPath(StartState(s.w.cfg, s.w.addressCheck), moves);
    assert ReachedBy(s.w, actions);
  }

  lemma {:induction false} RunOfPath(s: State, moves: seq<Move>) returns (actions: seq<Action>)
    requires IsPath(s, moves)
    ensures IsRun(s.w, actions) && After(s.w, actions) == AtEnd(s, moves).w
    decreases |moves|
  {
    if moves == [] {
      actions := [];
    } else {
      var a := StepOf(s, moves[0]);
      actions := RunOfPath(Moved(s, moves[0]), moves[1..]);
      if a.Some? {
        assert ([a.value] + actions)[1..] == actions;
        actions := [a.value] + actions;
      }
    }
  }

  // ------------------------------------------ runs that lose only failed ports

  /** A one-time close does not begin while its connection opens a transfer: it is
    * enough that nobody but the ended serve loop calls Close. */
  predicate Orderly(s: State, m: Move)
    requires Allowed(s, m)
  {
    m.BeginClose? ==>
      var loop := s.sessions[m.c].loop;
      !loop.OpeningFor? && loop != Executing(Passive) && loop != Executing(Active)
  }

  ghost predicate OrderlyPath(s: State, moves: seq<Move>)
    requires IsPath(s, moves)
    decreases |moves|
  {
    moves == [] || (Orderly(s, moves[0]) && OrderlyPath(Moved(s, moves[0]), moves[1..]))
  }

  /** Once its close has begun the connection opens no transfer, and once the close
    * has emptied the slot it stays empty. */
  ghost predicate OrderOk(x: Session, ctl: Control) {
    && (!x.once.Fresh? ==> !x.loop.OpeningFor? && x.loop != Executing(Passive) && x.loop != Executing(Active))
    && (x.once.Emptied? ==> ctl.slot.None?)
  }

  ghost predicate AllInOrder(s: State) {
    forall c :: c in s.sessions && c in s.w.controls ==> OrderOk(s.sessions[c], s.w.controls[c])
  }

  lemma OrderOfSlot(s: State, c: nat, step: SlotStep, m: Move)
    requires Allowed(s, m) && StepOf(s, m) == Some(Slot(c, step)) && c in s.sessions && c in s.w.controls
    requires SessionOk(s.sessions[c], s.w.controls[c]) && OrderOk(s.sessions[c], s.w.controls[c])
    ensures c in Moved(s, m).w.controls && c in Moved(s, m).sessions
    ensures OrderOk(Moved(s, m).sessions[c], Moved(s, m).w.controls[c])
  {
  }

  lemma OrderStays(s: State, m: Move)
    requires StateInv(s) && AllInOrder(s) && Allowed(s, m) && Orderly(s, m)
    ensures AllInOrder(Moved(s, m))
  {
    var s' := Moved(s, m);
    ControlKeys(s, m);
    forall c | c in s'.sessions && c in s'.w.controls ensures OrderOk(s'.sessions[c], s'.w.controls[c]) {
      if c in s.sessions {
        assert SessionOk(s.sessions[c], s.w.controls[c]) && OrderOk(s.sessions[c], s.w.controls[c]);
        if StepOf(s, m).Some? && StepOf(s, m).value.Slot? && StepOf(s, m).value.c == c {
          OrderOfSlot(s, c, StepOf(s, m).value.slot, m);
        } else {
          if StepOf(s, m).Some? { OtherControlsStayPut(s.w, StepOf(s, m).value, c); }
        }
      }
    }
  }

  lemma {:induction false} OrderlyPathsStayInOrder(s: State, moves: seq<Move>)
    requires StateInv(s) && AllInOrder(s) && IsPath(s, moves) && OrderlyPath(s, moves)
    ensures AllInOrder(AtEnd(s, moves))
    decreases |moves|
  {
    if moves != [] {
      MoveKeepsInv(s, moves[0]);
      OrderStays(s, moves[0]);
      OrderlyPathsStayInOrder(Moved(s, moves[0]), moves[1..]);
    }
  }

  lemma OrderlyEnd(s: State, moves: seq<Move>)
    requires s.w.cfg.min >= 1 || s.w.cfg.max <= 0
    requires ArrivedBy(s, moves) && OrderlyPath(StartState(s.w.cfg, s.w.addressCheck), moves)
    ensures ReachableState(s) && AllInOrder(s)
  {
    OrderlyPathsStayInOrder(StartState(s.w.cfg, s.w.addressCheck), moves);
  }

  /** In such runs exactly the ports whose listen failed are lost. */
  lemma OrderlyRunsLoseOnlyFailedPorts(s: State, moves: seq<Move>, port: int)
    requires s.w.cfg.min >= 1 || s.w.cfg.max <= 0
    requires ArrivedBy(s, moves) && OrderlyPath(StartState(s.w.cfg, s.w.addressCheck), moves)
    requires Shaped(s.w.cfg, s.w.pool) && port in Held(s.w.cfg, s.w.pool)
    ensures CanBeFreed(s, port) <==> port !in s.w.retired
  {
    OrderlyEnd(s, moves);
    LostExactly(s, port);
    ReachableStateInv(s);
    forall t ensures !DoomedHolder(s, t, port) {
    }
  }

  // ------------------------------------------------------- and one that does

  lemma ReachableMove(s: State, m: Move)
    requires ReachableState(s) && Allowed(s, m)
    ensures ReachableState(Moved(s, m))
  {
    var moves :| ArrivedBy(s, moves);
    if StepOf(s, m).Some? { StepKeepsConfig(s.w, StepOf(s, m).value); }
    PathThen(StartState(s.w.cfg, s.w.addressCheck), moves, m);
    assert ArrivedBy(Moved(s, m), moves + [m]);
  }

  lemma {:induction false} PathThen(s: State, moves: seq<Move>, m: Move)
    requires IsPath(s, moves) && Allowed(AtEnd(s, moves), m)
    ensures IsPath(s, moves + [m]) && AtEnd(s, moves + [m]) == Moved(AtEnd(s, moves), m)
    decreases |moves|
  {
    if moves == [] {
      assert moves + [m] == [m];
      assert IsPath(Moved(s, m), []);
      assert [m][1..] == [];
    } else {
      assert (moves + [m])[1..] == moves[1..] + [m];
      PathThen(Moved(s, moves[0]), moves[1..], m);
    }
  }

  /** The moves of a state with the one session 0. */
  lemma OneSession(s: State, m: Move)
    requires Allowed(s, m) && s.sessions.Keys == {0} && !m.Arrive?
    ensures Moved(s, m).sessions == map[0 := SessionAfter(s, m, 0)]
  {
  }

  lemma FirstArrival(cfg: Config, check: bool) returns (s: State)
    ensures s == State(Initial(cfg, check).(controls := map[0 := Control(None, None, Unlocked)]), map[0 := NEW], map[])
    ensures cfg.min >= 1 ==> ReachableState(s)
  {
    var s0 := StartState(cfg, check);
    s := Moved(s0, Arrive(0, None));
    if cfg.min >= 1 {
      assert ArrivedBy(s0, []);
      ReachableMove(s0, Arrive(0, None));
    }
  }

  lemma PassiveCommand(cfg: Config, check: bool) returns (s: State)
    requires 1 <= cfg.min <= cfg.max && cfg.min <= 65535
    ensures ReachableState(s) && s.w.cfg == cfg && s.w.pool == Unmade && s.w.retired == {}
    ensures s.w.transfers == map[0 := NewTransfer(0, true, Choosing(0))]
    ensures s.w.controls == map[0 := Control(None, None, Unlocked)]
    ensures s.sessions == map[0 := NEW.(loop := OpeningFor(0))] && s.workers == map[]
  {
    s := FirstArrival(cfg, check);
    ReachableMove(s, Start(0, Passive));
    OneSession(s, Start(0, Passive));
    s := Moved(s, Start(0, Passive));
    s := BeginRuns(s);
  }

  lemma BeginRuns(s: State) returns (s': State)
    requires ReachableState(s) && s.w.transfers == map[] && s.w.controls.Keys == {0}
    requires s.sessions == map[0 := NEW.(loop := Executing(Passive))]
    ensures ReachableState(s') && s'.workers == s.workers && s'.sessions == map[0 := NEW.(loop := OpeningFor(0))]
    ensures s'.w == s.w.(transfers := map[0 := NewTransfer(0, true, Choosing(0))])
  {
    var m := Do(Opener(0, Begin(0)));
    ReachableMove(s, m);
    OneSession(s, m);
    s' := Moved(s, m);
  }

  lemma BoundTransfer(cfg: Config, check: bool) returns (s: State)
    requires 1 <= cfg.min <= cfg.max && cfg.min <= 65535
    ensures ReachableState(s) && s.w.cfg == cfg && s.w.retired == {}
    ensures 0 in s.w.transfers && s.w.transfers[0].port != 0
    ensures s.w.transfers[0] ==
            NewTransfer(0, true, Ready).(port := s.w.transfers[0].port, listening := Accepting, listenerOpen := true)
    ensures s.w.controls == map[0 := Control(None, None, Unlocked)]
    ensures s.sessions == map[0 := NEW.(loop := OpeningFor(0))] && s.workers == map[]
  {
    s := PassiveCommand(cfg, check);
    ChooseLaw(cfg, s.w.pool, 0);
    assert cfg.min in cfg.Range() && Free(cfg, s.w.pool) == cfg.Range();
    var choose, bind := Do(Opener(0, ChoosePort(0))), Do(Opener(0, Bind(true)));
    ReachableMove(s, choose);
    SameSessions(s, choose);
    s := Moved(s, choose);
    ReachableMove(s, bind);
    SameSessions(s, bind);
    s := Moved(s, bind);
  }

  lemma SameSessions(s: State, m: Move)
    requires Allowed(s, m) && m.Do? && m.a.Opener? && (m.a.open.ChoosePort? || m.a.open.Bind?)
    ensures Moved(s, m).sessions == s.sessions && Moved(s, m).workers == s.workers
  {
  }

  /** The one-time close of connection 0, from its beginning to its end. */
  lemma CloseRuns(s: State) returns (s': State)
    requires ReachableState(s) && s.w.controls == map[0 := Control(None, None, Unlocked)]
    requires s.sessions.Keys == {0} && s.sessions[0].once.Fresh?
    ensures ReachableState(s') && s'.w == s.w && s'.workers == s.workers
    ensures s'.sessions == map[0 := Session(s.sessions[0].loop, true, Emptied, ByClose)]
  {
    s' := CloseBegins(s);
    s' := CloseLocks(s');
    s' := SwapRuns(s');
    assert s'.w.controls == s.w.controls;
    assert s'.w == s.w;
  }

  lemma CloseBegins(s: State) returns (s': State)
    requires ReachableState(s) && s.sessions.Keys == {0} && s.sessions[0].once.Fresh?
    ensures ReachableState(s') && s'.w == s.w && s'.workers == s.workers
    ensures s'.sessions == map[0 := s.sessions[0].(flag := true, once := Flagged)]
  {
    ReachableMove(s, BeginClose(0));
    OneSession(s, BeginClose(0));
    s' := Moved(s, BeginClose(0));
  }

  lemma CloseLocks(s: State) returns (s': State)
    requires ReachableState(s) && s.w.controls == map[0 := Control(None, None, Unlocked)]
    requires s.sessions.Keys == {0} && s.sessions[0].once.Flagged?
    ensures ReachableState(s') && s'.workers == s.workers
    ensures s'.sessions == map[0 := s.sessions[0].(locker := ByClose, once := Emptying)]
    ensures s'.w == s.w.(controls := map[0 := Control(None, None, Locked(None, CloseData))])
  {
    var lock := LockSlotBy(0, None, ByClose);
    ReachableMove(s, lock);
    OneSession(s, lock);
    s' := Moved(s, lock);
  }

  /** The lock on an empty slot, from CloseData to the swap. */
  lemma SwapRuns(s: State) returns (s': State)
    requires ReachableState(s) && s.sessions.Keys == {0} && s.w.controls.Keys == {0}
    requires s.w.controls[0].slot.None? && s.w.controls[0].lock.Locked? && s.w.controls[0].lock.stage.CloseData?
    requires var next := s.w.controls[0].lock.next; next.Some? ==> next.value in s.w.transfers
    ensures var next := s.w.controls[0].lock.next;
            && ReachableState(s') && s'.workers == s.workers
            && s'.w == s.w.(controls := map[0 := Control(s.w.controls[0].ip, next, Unlocked)],
                            transfers := WithOpening(s.w.transfers, next, Current))
    ensures s'.sessions ==
            map[0 := if s.sessions[0].locker.ByClose? then s.sessions[0].(once := Emptied) else s.sessions[0]]
  {
    s' := NothingToClose(s);
    s' := EmptySlotSwaps(s');
  }

  lemma NothingToClose(s: State) returns (s': State)
    requires ReachableState(s) && s.sessions.Keys == {0} && s.w.controls.Keys == {0}
    requires s.w.controls[0].slot.None? && s.w.controls[0].lock.Locked? && s.w.controls[0].lock.stage.CloseData?
    requires var next := s.w.controls[0].lock.next; next.Some? ==> next.value in s.w.transfers
    ensures ReachableState(s') && s'.workers == s.workers && s'.sessions == s.sessions
    ensures s'.w ==
            s.w.(controls := map[0 := s.w.controls[0].(lock := s.w.controls[0].lock.(stage := Swap))])
  {
    var m := Do(Slot(0, Replace));
    ReachableMove(s, m);
    OneSession(s, m);
    s' := Moved(s, m);
    assert s'.sessions == s.sessions;
  }

  lemma EmptySlotSwaps(s: State) returns (s': State)
    requires ReachableState(s) && s.sessions.Keys == {0} && s.w.controls.Keys == {0}
    requires s.w.controls[0].slot.None? && s.w.controls[0].lock.Locked? && s.w.controls[0].lock.stage.Swap?
    requires var next := s.w.controls[0].lock.next; next.Some? ==> next.value in s.w.transfers
    ensures var next := s.w.controls[0].lock.next;
            && ReachableState(s') && s'.workers == s.workers
            && s'.w == s.w.(controls := map[0 := Control(s.w.controls[0].ip, next, Unlocked)],
                            transfers := WithOpening(s.w.transfers, next, Current))
    ensures s'.sessions ==
            map[0 := if s.sessions[0].locker.ByClose? then s.sessions[0].(once := Emptied) else s.sessions[0]]
  {
    var m := Do(Slot(0, Replace));
    ReachableMove(s, m);
    OneSession(s, m);
    s' := Moved(s, m);
  }

  lemma InstallRuns(s: State) returns (s': State)
    requires ReachableState(s) && s.w.controls == map[0 := Control(None, None, Unlocked)]
    requires s.sessions.Keys == {0} && s.sessions[0].loop == OpeningFor(0) && s.sessions[0].once.Emptied?
    requires 0 in s.w.transfers && s.w.transfers[0].opening.Ready? && s.w.transfers[0].control == 0
    ensures ReachableState(s') && s'.workers == s.workers && s'.w.retired == s.w.retired && s'.w.cfg == s.w.cfg
    ensures s'.w.controls == map[0 := Control(None, Some(0), Unlocked)]
    ensures 0 in s'.sessions && s'.sessions[0].once.Emptied?
    ensures 0 in s'.w.transfers && s'.w.transfers[0] == s.w.transfers[0].(opening := Current)
  {
    var lock := LockSlotBy(0, Some(0), ByLoop);
    ReachableMove(s, lock);
    OneSession(s, lock);
    s' := SwapRuns(Moved(s, lock));
  }

  /** Somebody calls Close while PASV is opening its transfer: the close empties the
    * slot, the transfer is installed after it, and its port is lost although no
    * listen failed. */
  lemma CloseDuringPasvLosesAPort(cfg: Config, check: bool) returns (s: State, port: int)
    requires 1 <= cfg.min <= cfg.max && cfg.min <= 65535
    ensures ReachableState(s) && s.w.cfg == cfg && s.w.retired == {}
    ensures Shaped(cfg, s.w.pool) && port in Held(cfg, s.w.pool) && Lost(s, port) && !CanBeFreed(s, port)
  {
    s := BoundTransfer(cfg, check);
    port := s.w.transfers[0].port;
    s := CloseRuns(s);
    s := InstallRuns(s);
    assert DoomedHolder(s, 0, port);
    ReachableStateInv(s);
    assert Holder(s.w, 0, port);
    LostExactly(s, port);
  }
}
