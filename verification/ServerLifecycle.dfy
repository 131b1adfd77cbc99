/** Serving, Close and Shutdown of a whole server (ftp/server.go), as a
  * transition system.
  *
  * Any number of serve loops accept connections, one goroutine serves each
  * connection, and any number of Close and Shutdown calls run at any time. The
  * tracked sets and the done channel are guarded by the lock `mu`. A short
  * critical section (tracking, reading the done channel, one poll) is one step;
  * the long ones of Close and Shutdown are several steps during which `mu` is
  * held, so that accept failures fall between them.
  */
module ServerLifecycle {
  import opened Wrappers

  datatype Outcome = ServerClosed | AcceptError

  /** Where a call of serve is. */
  datatype LoopPoint =
    | Registering // trackListener(&l, true)
    | Accepting
    | Failed(temporary: bool) // about to read the done channel
    | Tracking(c: nat) // trackConn(c, true)
    | Rejecting(c: nat) // c.Close on a connection that was not tracked
    | Unregistering(result: Outcome) // the deferred trackListener(&l, false)
    | ClosingListener(result: Outcome) // the deferred l.Close
    | Returned(result: Outcome)

  /** A call of serve, with its listener. */
  datatype Loop = Loop(point: LoopPoint, open: bool)

  datatype ConnPoint =
    | New
    | Starting // tracked, its goroutine not yet running
    | Serving
    | Closing // the deferred c.Close
    | Untracking // the deferred trackConn(c, false)
    | Gone
    | Rejected

  /** `loop` is the serve call that accepted it. The last two are history: the
    * connection has been in s.conns; closeConnsLocked has taken it out. */
  datatype Conn = Conn(loop: nat, point: ConnPoint, closed: bool, tracked: bool, evicted: bool)

  datatype Kind = Close | Shutdown

  datatype CallPoint =
    | Flagging // shuttingDown.setTrue
    | Locking
    | TestingDone // the select in closeDoneChanLocked
    | SealingDone // close(ch)
    | ClosingListeners
    | ClosingConns // closeConnsLocked or shutdownConnsLocked
    | Unlocking
    | Polling // one round of Shutdown's loop
    | Waiting
    | Finished(ok: bool) // nil, or the context's error

  datatype Call = Call(kind: Kind, point: CallPoint)

  datatype State = State(
    shuttingDown: bool,
    mu: Option<nat>, // the Close or Shutdown call that holds it
    doneClosed: bool,
    doneCloses: nat,
    listeners: set<nat>, // s.listeners, by the serve call they belong to
    conns: set<nat>, // s.conns
    loops: map<nat, Loop>,
    peers: map<nat, Conn>,
    calls: map<nat, Call>,
    closeUsed: bool) // history: Close has been called

  datatype Accepted = Connection(c: nat) | Error(temporary: bool)

  datatype Action =
    | Serve(l: nat)
    | LoopStep(l: nat, got: Accepted)
    | PeerStep(c: nat)
    | Begin(k: nat, kind: Kind)
    | CallStep(k: nat)
    | CloseOneListener(k: nat, l: nat)
    | CloseOneConn(k: nat, c: nat)
    | Cancel(k: nat) // the context of a Shutdown call expires

  // ------------------------------------------------------------ serve loops

  predicate LoopEnabled(s: State, l: nat, got: Accepted) {
    && l in s.loops
    && match s.loops[l].point
       case Registering => s.mu.None?
       case Accepting => if got.Connection? then s.loops[l].open && got.c !in s.peers else true
       case Failed(_) => s.mu.None?
       case Tracking(c) => s.mu.None? && c in s.peers
       case Rejecting(c) => c in s.peers
       case Unregistering(_) => s.mu.None?
       case ClosingListener(_) => true
       case Returned(_) => false
  }

  function LoopAfter(x: Loop, got: Accepted, shuttingDown: bool, doneClosed: bool): Loop {
    match x.point
    case Registering => x.(point := if shuttingDown then ClosingListener(ServerClosed) else Accepting)
    case Accepting =>
      if got.Connection? then x.(point := Tracking(got.c)) else x.(point := Failed(got.temporary))
    case Failed(temporary) =>
      x.(point := if doneClosed then Unregistering(ServerClosed)
                  else if temporary then Accepting
                  else Unregistering(AcceptError))
    case Tracking(c) => x.(point := if shuttingDown then Rejecting(c) else Accepting)
    case Rejecting(_) => x.(point := Unregistering(ServerClosed))
    case Unregistering(r) => x.(point := ClosingListener(r))
    case ClosingListener(r) => x.(point := Returned(r), open := false)
    case Returned(_) => x
  }

  /** What the same step does to the connection it is about. */
  function PeersAfterLoop(peers: map<nat, Conn>, l: nat, x: Loop, got: Accepted, shuttingDown: bool): map<nat, Conn>
    requires x.point.Tracking? || x.point.Rejecting? ==> x.point.c in peers
  {
    if x.point.Accepting? && got.Connection? then peers[got.c := Conn(l, New, false, false, false)]
    else if x.point.Tracking? && !shuttingDown then
      peers[x.point.c := peers[x.point.c].(point := Starting, tracked := true)]
    else if x.point.Rejecting? then peers[x.point.c := peers[x.point.c].(point := Rejected, closed := true)]
    else peers
  }

  function LoopNext(s: State, l: nat, got: Accepted): State
    requires LoopEnabled(s, l, got)
  {
    var x := s.loops[l];
    s.(loops := s.loops[l := LoopAfter(x, got, s.shuttingDown, s.doneClosed)],
       peers := PeersAfterLoop(s.peers, l, x, got, s.shuttingDown),
       conns := if x.point.Tracking? && !s.shuttingDown then s.conns + {x.point.c} else s.conns,
       listeners := if x.point.Registering? && !s.shuttingDown then s.listeners + {l}
                    else if x.point.Unregistering? then s.listeners - {l}
                    else s.listeners)
  }

  // ------------------------------------------------- connection goroutines

  predicate PeerEnabled(s: State, c: nat) {
    && c in s.peers
    && !s.peers[c].point.New? && !s.peers[c].point.Gone? && !s.peers[c].point.Rejected?
    && (s.peers[c].point.Untracking? ==> s.mu.None?)
  }

  function PeerAfter(x: Conn): Conn {
    match x.point
    case Starting => x.(point := Serving)
    case Serving => x.(point := Closing)
    case Closing => x.(point := Untracking, closed := true)
    case Untracking => x.(point := Gone)
    case _ => x
  }

  function PeerNext(s: State, c: nat): State
    requires PeerEnabled(s, c)
  {
    s.(peers := s.peers[c := PeerAfter(s.peers[c])],
       conns := if s.peers[c].point.Untracking? then s.conns - {c} else s.conns)
  }

  // -------------------------------------------------- Close and Shutdown

  predicate CallEnabled(s: State, k: nat) {
    && k in s.calls
    && match s.calls[k].point
       case Locking => s.mu.None?
       case Polling => s.mu.None?
       case ClosingListeners => s.listeners == {}
       case ClosingConns => s.calls[k].kind.Close? ==> s.conns == {}
       case Finished(_) => false
       case _ => true
  }

  function CallNext(s: State, k: nat): State
    requires CallEnabled(s, k)
  {
    var x := s.calls[k];
    match x.point
    case Flagging => s.(shuttingDown := true, calls := s.calls[k := x.(point := Locking)])
    case Locking => s.(mu := Some(k), calls := s.calls[k := x.(point := TestingDone)])
    case TestingDone => s.(calls := s.calls[k := x.(point := if s.doneClosed then ClosingListeners else SealingDone)])
    case SealingDone =>
      s.(doneClosed := true, doneCloses := s.doneCloses + 1, calls := s.calls[k := x.(point := ClosingListeners)])
    case ClosingListeners => s.(calls := s.calls[k := x.(point := ClosingConns)])
    case ClosingConns => s.(calls := s.calls[k := x.(point := Unlocking)])
    case Unlocking =>
      s.(mu := None, calls := s.calls[k := x.(point := if x.kind.Close? then Finished(true) else Polling)])
    case Polling => s.(calls := s.calls[k := x.(point := if s.conns == {} then Finished(true) else Waiting)])
    case Waiting => s.(calls := s.calls[k := x.(point := Polling)])
    case Finished(_) => s
  }

  predicate Enabled(s: State, a: Action) {
    match a
    case Serve(l) => l !in s.loops
    case LoopStep(l, got) => LoopEnabled(s, l, got)
    case PeerStep(c) => PeerEnabled(s, c)
    case Begin(k, _) => k !in s.calls
    case CallStep(k) => CallEnabled(s, k)
    case CloseOneListener(k, l) =>
      k in s.calls && s.calls[k].point.ClosingListeners? && l in s.listeners && l in s.loops
    case CloseOneConn(k, c) => k in s.calls && s.calls[k] == Call(Close, ClosingConns) && c in s.conns && c in s.peers
    case Cancel(k) => k in s.calls && s.calls[k].point.Waiting?
  }

  function Step(s: State, a: Action): State
    requires Enabled(s, a)
  {
    match a
    case Serve(l) => s.(loops := s.loops[l := Loop(Registering, true)])
    case LoopStep(l, got) => LoopNext(s, l, got)
    case PeerStep(c) => PeerNext(s, c)
    case Begin(k, kind) => s.(calls := s.calls[k := Call(kind, Flagging)], closeUsed := s.closeUsed || kind.Close?)
    case CallStep(k) => CallNext(s, k)
    case CloseOneListener(k, l) => s.(listeners := s.listeners - {l}, loops := s.loops[l := s.loops[l].(open := false)])
    case CloseOneConn(k, c) =>
      s.(conns := s.conns - {c}, peers := s.peers[c := s.peers[c].(closed := true, evicted := true)])
    case Cancel(k) => s.(calls := s.calls[k := s.calls[k].(point := Finished(false))])
  }

  const INITIAL := State(false, None, false, 0, {}, {}, map[], map[], map[], false)

  ghost predicate IsRun(s: State, acts: seq<Action>)
    decreases |acts|
  {
    acts == [] || (Enabled(s, acts[0]) && IsRun(Step(s, acts[0]), acts[1..]))
  }

  ghost function After(s: State, acts: seq<Action>): State
    requires IsRun(s, acts)
    decreases |acts|
  {
    if acts == [] then s else After(Step(s, acts[0]), acts[1..])
  }

  ghost predicate Reachable(s: State) {
    exists acts :: IsRun(INITIAL, acts) && After(INITIAL, acts) == s
  }

  // -------------------------------------------------------- the invariant

  predicate InCriticalSection(p: CallPoint) {
    p.TestingDone? || p.SealingDone? || p.ClosingListeners? || p.ClosingConns? || p.Unlocking?
  }

  /** The call has left its first critical section. */
  predicate FirstSectionDone(p: CallPoint) {
    p.Polling? || p.Waiting? || p.Finished?
  }

  /** The call has closed the tracked listeners. */
  predicate ListenersDone(p: CallPoint) {
    p.ClosingConns? || p.Unlocking? || FirstSectionDone(p)
  }

  predicate InLoop(p: LoopPoint) {
    p.Accepting? || p.Failed? || p.Tracking? || p.Rejecting?
  }

  predicate GoroutineAlive(p: ConnPoint) {
    p.Starting? || p.Serving? || p.Closing? || p.Untracking?
  }

  predicate Leaving(p: LoopPoint) {
    p.Unregistering? || p.ClosingListener? || p.Returned?
  }

  ghost predicate LoopOk(l: nat, x: Loop, listed: bool, doneClosed: bool, peers: map<nat, Conn>) {
    && (InLoop(x.point) && !x.open ==> doneClosed)
    && (x.point.Registering? ==> x.open)
    && (x.point.Tracking? ==> Awaits(peers, x.point.c, l))
    && (x.point.Rejecting? ==> Awaits(peers, x.point.c, l))
    && (listed ==> InLoop(x.point) || x.point.Unregistering?)
  }

  /** Connection `c` was accepted by serve call `l` and is not yet tracked. */
  predicate Awaits(peers: map<nat, Conn>, c: nat, l: nat) {
    c in peers && peers[c].loop == l && peers[c].point.New?
  }

  ghost predicate PeerOk(x: Conn, listed: bool, closeUsed: bool) {
    && (x.point.New? || x.point.Rejected? ==> !x.tracked && !listed)
    && (x.point.Rejected? ==> x.closed)
    && (x.tracked && !listed ==> x.closed)
    && (x.tracked <==> GoroutineAlive(x.point) || x.point.Gone?)
    && (x.point.Untracking? || x.point.Gone? ==> x.closed)
    && (GoroutineAlive(x.point) && !x.evicted ==> listed)
    && (x.evicted ==> closeUsed)
    && (x.point.Gone? ==> !listed)
    && ((x.point.Starting? || x.point.Serving? || x.point.Closing?) && x.closed ==> x.evicted)
    && (x.point.New? ==> !x.closed)
  }

  ghost predicate CallOk(k: nat, x: Call, s: State) {
    && (InCriticalSection(x.point) <==> s.mu == Some(k))
    && (!x.point.Flagging? ==> s.shuttingDown)
    && (x.kind.Close? ==> s.closeUsed && !x.point.Polling? && !x.point.Waiting?)
    && (x.point.SealingDone? ==> !s.doneClosed)
    && (x.point.ClosingListeners? || ListenersDone(x.point) ==> s.doneClosed)
    && (ListenersDone(x.point) ==> s.listeners == {})
    && (x == Call(Shutdown, Finished(true)) ==> s.conns == {})
  }

  ghost predicate LoopsOk(s: State) {
    && (forall l :: l in s.loops ==> LoopOk(l, s.loops[l], l in s.listeners, s.doneClosed, s.peers))
    && s.listeners <= s.loops.Keys
  }

  ghost predicate PeersOk(s: State) {
    && (forall c :: c in s.peers ==> PeerOk(s.peers[c], c in s.conns, s.closeUsed))
    && s.conns <= s.peers.Keys
  }

  ghost predicate CallsOk(s: State) {
    && (forall k :: k in s.calls ==> CallOk(k, s.calls[k], s))
    && (s.mu.Some? ==> s.mu.value in s.calls)
    && s.doneCloses == (if s.doneClosed then 1 else 0)
    && (s.doneClosed ==> s.shuttingDown)
  }

  ghost predicate Inv(s: State) {
    LoopsOk(s) && PeersOk(s) && CallsOk(s)
  }

  lemma OtherLoopsStillAwait(s: State, l: nat, got: Accepted, m: nat, c: nat)
    requires LoopsOk(s) && LoopEnabled(s, l, got) && m != l && Awaits(s.peers, c, m)
    ensures Awaits(LoopNext(s, l, got).peers, c, m)
  {
    assert LoopOk(l, s.loops[l], l in s.listeners, s.doneClosed, s.peers);
  }

  lemma LoopStepKeepsItself(s: State, l: nat, got: Accepted)
    requires LoopsOk(s) && LoopEnabled(s, l, got)
    ensures var s' := LoopNext(s, l, got);
            l in s'.loops && LoopOk(l, s'.loops[l], l in s'.listeners, s'.doneClosed, s'.peers)
  {
    assert LoopOk(l, s.loops[l], l in s.listeners, s.doneClosed, s.peers);
  }

  lemma LoopStepFrame(s: State, l: nat, got: Accepted, m: nat)
    requires LoopEnabled(s, l, got) && m != l
    ensures var s' := LoopNext(s, l, got);
            && s'.loops.Keys == s.loops.Keys && s'.doneClosed == s.doneClosed
            && (m in s.loops ==> s'.loops[m] == s.loops[m])
            && (m in s'.listeners <==> m in s.listeners)
  {
  }

  lemma LoopStepKeepsLoops(s: State, l: nat, got: Accepted)
    requires LoopsOk(s) && LoopEnabled(s, l, got)
    ensures LoopsOk(LoopNext(s, l, got))
  {
    var s' := LoopNext(s, l, got);
    LoopStepKeepsItself(s, l, got);
    forall m | m in s'.loops && m != l ensures LoopOk(m, s'.loops[m], m in s'.listeners, s'.doneClosed, s'.peers) {
      LoopStepFrame(s, l, got, m);
      assert LoopOk(m, s.loops[m], m in s.listeners, s.doneClosed, s.peers);
      var p := s.loops[m].point;
      if p.Tracking? || p.Rejecting? { OtherLoopsStillAwait(s, l, got, m, p.c); }
    }
  }

  lemma LoopStepKeepsPeers(s: State, l: nat, got: Accepted)
    requires LoopsOk(s) && PeersOk(s) && LoopEnabled(s, l, got)
    ensures PeersOk(LoopNext(s, l, got))
  {
    assert LoopOk(l, s.loops[l], l in s.listeners, s.doneClosed, s.peers);
  }

  lemma LoopStepKeepsCalls(s: State, l: nat, got: Accepted)
    requires CallsOk(s) && LoopEnabled(s, l, got)
    ensures CallsOk(LoopNext(s, l, got))
  {
    var s' := LoopNext(s, l, got);
    forall k | k in s'.calls ensures CallOk(k, s'.calls[k], s') {
      assert CallOk(k, s.calls[k], s);
    }
  }

  lemma PeerStepKeepsLoops(s: State, c: nat)
    requires LoopsOk(s) && PeerEnabled(s, c)
    ensures LoopsOk(PeerNext(s, c))
  {
    var s' := PeerNext(s, c);
    forall d, m | Awaits(s.peers, d, m) ensures Awaits(s'.peers, d, m) {}
    forall m | m in s'.loops ensures LoopOk(m, s'.loops[m], m in s'.listeners, s'.doneClosed, s'.peers) {
      assert LoopOk(m, s.loops[m], m in s.listeners, s.doneClosed, s.peers);
    }
  }

  lemma PeerStepKeepsPeers(s: State, c: nat)
    requires PeersOk(s) && PeerEnabled(s, c)
    ensures PeersOk(PeerNext(s, c))
  {
    assert PeerOk(s.peers[c], c in s.conns, s.closeUsed);
  }

  lemma PeerStepKeepsCalls(s: State, c: nat)
    requires CallsOk(s) && PeerEnabled(s, c)
    ensures CallsOk(PeerNext(s, c))
  {
    var s' := PeerNext(s, c);
    forall k | k in s'.calls ensures CallOk(k, s'.calls[k], s') {
      assert CallOk(k, s.calls[k], s);
    }
  }

  lemma CallStepKeepsItself(s: State, k: nat)
    requires CallsOk(s) && CallEnabled(s, k)
    ensures CallOk(k, CallNext(s, k).calls[k], CallNext(s, k))
  {
    assert CallOk(k, s.calls[k], s);
  }

  lemma CallStepKeepsOther(s: State, k: nat, j: nat)
    requires CallsOk(s) && CallEnabled(s, k) && j in s.calls && j != k
    ensures j in CallNext(s, k).calls && CallOk(j, CallNext(s, k).calls[j], CallNext(s, k))
  {
    assert CallOk(k, s.calls[k], s) && CallOk(j, s.calls[j], s);
  }

  lemma CallStepKeepsCalls(s: State, k: nat)
    requires CallsOk(s) && CallEnabled(s, k)
    ensures CallsOk(CallNext(s, k))
  {
    var s' := CallNext(s, k);
    assert s'.calls.Keys == s.calls.Keys;
    assert CallOk(k, s.calls[k], s);
    forall j | j in s'.calls ensures CallOk(j, s'.calls[j], s') {
      if j == k { CallStepKeepsItself(s, k); } else { CallStepKeepsOther(s, k, j); }
    }
  }

  lemma CallStepKeepsInv(s: State, k: nat)
    requires Inv(s) && CallEnabled(s, k)
    ensures Inv(CallNext(s, k))
  {
    CallStepKeepsCalls(s, k);
  }

  lemma CloseOneListenerKeepsInv(s: State, k: nat, l: nat)
    requires Inv(s) && Enabled(s, CloseOneListener(k, l))
    ensures Inv(Step(s, CloseOneListener(k, l)))
  {
    var s' := Step(s, CloseOneListener(k, l));
    assert CallOk(k, s.calls[k], s);
    forall m | m in s'.loops ensures LoopOk(m, s'.loops[m], m in s'.listeners, s'.doneClosed, s'.peers) {
      assert LoopOk(m, s.loops[m], m in s.listeners, s.doneClosed, s.peers);
    }
    forall j | j in s'.calls ensures CallOk(j, s'.calls[j], s') {
      assert CallOk(j, s.calls[j], s);
    }
  }

  lemma CloseOneConnKeepsInv(s: State, k: nat, c: nat)
    requires Inv(s) && Enabled(s, CloseOneConn(k, c))
    ensures Inv(Step(s, CloseOneConn(k, c)))
  {
    var s' := Step(s, CloseOneConn(k, c));
    assert CallOk(k, s.calls[k], s);
    forall m | m in s'.loops ensures LoopOk(m, s'.loops[m], m in s'.listeners, s'.doneClosed, s'.peers) {
      assert LoopOk(m, s.loops[m], m in s.listeners, s.doneClosed, s.peers);
    }
    forall j | j in s'.calls ensures CallOk(j, s'.calls[j], s') {
      assert CallOk(j, s.calls[j], s);
    }
  }

  lemma BeginKeepsInv(s: State, k: nat, kind: Kind)
    requires Inv(s) && k !in s.calls
    ensures Inv(Step(s, Begin(k, kind)))
  {
  }

  lemma StepKeepsInv(s: State, a: Action)
    requires Inv(s) && Enabled(s, a)
    ensures Inv(Step(s, a))
  {
    match a
    case Serve(l) =>
    case LoopStep(l, got) =>
      LoopStepKeepsLoops(s, l, got);
      LoopStepKeepsPeers(s, l, got);
      LoopStepKeepsCalls(s, l, got);
    case PeerStep(c) =>
      PeerStepKeepsLoops(s, c);
      PeerStepKeepsPeers(s, c);
      PeerStepKeepsCalls(s, c);
    case Begin(k, kind) => BeginKeepsInv(s, k, kind);
    case CallStep(k) => CallStepKeepsInv(s, k);
    case CloseOneListener(k, l) => CloseOneListenerKeepsInv(s, k, l);
    case CloseOneConn(k, c) => CloseOneConnKeepsInv(s, k, c);
    case Cancel(k) =>
  }

  lemma {:induction false} RunKeepsInv(s: State, acts: seq<Action>)
    requires Inv(s) && IsRun(s, acts)
    ensures Inv(After(s, acts))
    decreases |acts|
  {
    if acts != [] {
      StepKeepsInv(s, acts[0]);
      RunKeepsInv(Step(s, acts[0]), acts[1..]);
    }
  }

  lemma ReachableIsInv(s: State)
    requires Reachable(s)
    ensures Inv(s)
  {
    var acts :| IsRun(INITIAL, acts) && After(INITIAL, acts) == s;
    RunKeepsInv(INITIAL, acts);
  }

  // -------------------------------------------------- the main statements

  /** However many Close and Shutdown calls run at once, the done channel is
    * closed at most once, and never while it is closed. */
  lemma DoneIsClosedOnce(s: State, k: nat)
    requires Reachable(s)
    ensures s.doneCloses <= 1
    ensures k in s.calls && s.calls[k].point.SealingDone? ==> s.doneCloses == 0 && s.mu == Some(k)
  {
    ReachableIsInv(s);
    if k in s.calls {
      assert CallOk(k, s.calls[k], s);
    }
  }

  /** With the done channel closed a running serve call ends with ErrServerClosed. */
  predicate EndsByDone(s: State, l: nat) {
    && s.doneClosed && s.shuttingDown && l in s.loops
    && var p := s.loops[l].point;
    p.Registering? || InLoop(p) || EndsWithServerClosed(p)
  }

  predicate EndsWithServerClosed(p: LoopPoint) {
    p.Rejecting? || (Leaving(p) && p.result == ServerClosed)
  }

  lemma EndsByDoneStays(s: State, a: Action, l: nat)
    requires Enabled(s, a) && EndsByDone(s, l)
    ensures EndsByDone(Step(s, a), l)
  {
    match a
    case CallStep(k) => CallStepKeepsDone(s, k);
    case _ =>
  }

  lemma CallStepKeepsDone(s: State, k: nat)
    requires CallEnabled(s, k)
    ensures var s' := CallNext(s, k);
            s'.loops == s.loops && (s.doneClosed ==> s'.doneClosed) && (s.shuttingDown ==> s'.shuttingDown)
  {
  }

  lemma {:induction false} DoneEndsServe(s: State, acts: seq<Action>, l: nat)
    requires IsRun(s, acts) && EndsByDone(s, l)
    ensures EndsByDone(After(s, acts), l)
    decreases |acts|
  {
    if acts != [] {
      EndsByDoneStays(s, acts[0], l);
      DoneEndsServe(Step(s, acts[0]), acts[1..], l);
    }
  }

  /** If the listener of a running serve call is closed, which only Close and Shutdown
    * do, the call can only return ErrServerClosed, whichever way the steps interleave:
    * the done channel is closed by then, and it decides. */
  lemma ClosedListenerMeansServerClosed(s: State, acts: seq<Action>, l: nat)
    requires Reachable(s) && l in s.loops && InLoop(s.loops[l].point) && !s.loops[l].open && IsRun(s, acts)
    ensures s.doneClosed && s.shuttingDown && l in After(s, acts).loops
    ensures var p := After(s, acts).loops[l].point; Leaving(p) ==> p.result == ServerClosed
  {
    ListenerClosesAfterDone(s, l);
    DoneEndsServe(s, acts, l);
  }

  /** What one failed accept leads to: the done channel decides first; with it open
    * a temporary error is retried, and a permanent one ends the loop with it. */
  lemma AcceptFailureExactly(s: State, l: nat, got: Accepted)
    requires LoopEnabled(s, l, got) && s.loops[l].point.Failed?
    ensures LoopNext(s, l, got).loops[l].point ==
            if s.doneClosed then Unregistering(ServerClosed)
            else if s.loops[l].point.temporary then Accepting
            else Unregistering(AcceptError)
  {
  }

  /** ErrServerClosed is only ever the result of a server that shuts down, and a
    * registered listener that is still open is tracked. */
  ghost predicate ResultsOk(s: State) {
    && (s.doneClosed ==> s.shuttingDown)
    && (forall l :: l in s.loops ==> ResultOk(s.loops[l], l in s.listeners, s.shuttingDown))
  }

  ghost predicate ResultOk(x: Loop, listed: bool, shuttingDown: bool) {
    && (Leaving(x.point) && x.point.result == ServerClosed ==> shuttingDown)
    && (x.point.Rejecting? ==> shuttingDown)
    && (InLoop(x.point) && x.open ==> listed)
    && (x.point.Returned? ==> !x.open)
  }

  lemma LoopStepKeepsResults(s: State, l: nat, got: Accepted)
    requires ResultsOk(s) && LoopEnabled(s, l, got)
    ensures ResultsOk(LoopNext(s, l, got))
  {
    var s' := LoopNext(s, l, got);
    forall m | m in s'.loops ensures ResultOk(s'.loops[m], m in s'.listeners, s'.shuttingDown) {
      assert ResultOk(s.loops[m], m in s.listeners, s.shuttingDown);
    }
  }

  lemma CallStepKeepsResults(s: State, k: nat)
    requires ResultsOk(s) && CallEnabled(s, k) && (s.calls[k].point.SealingDone? ==> s.shuttingDown)
    ensures ResultsOk(CallNext(s, k))
  {
  }

  lemma StepKeepsResults(s: State, a: Action)
    requires Inv(s) && ResultsOk(s) && Enabled(s, a)
    ensures ResultsOk(Step(s, a))
  {
    match a
    case LoopStep(l, got) => LoopStepKeepsResults(s, l, got);
    case CallStep(k) =>
      assert CallOk(k, s.calls[k], s);
      CallStepKeepsResults(s, k);
    case _ =>
  }

  lemma {:induction false} RunKeepsResults(s: State, acts: seq<Action>)
    requires Inv(s) && ResultsOk(s) && IsRun(s, acts)
    ensures ResultsOk(After(s, acts))
    decreases |acts|
  {
    if acts != [] {
      StepKeepsInv(s, acts[0]);
      StepKeepsResults(s, acts[0]);
      RunKeepsResults(Step(s, acts[0]), acts[1..]);
    }
  }

  lemma ReachableResults(s: State)
    requires Reachable(s)
    ensures ResultsOk(s)
  {
    var acts :| IsRun(INITIAL, acts) && After(INITIAL, acts) == s;
    RunKeepsResults(INITIAL, acts);
  }

  /** serve returns ErrServerClosed only after the shutdown flag was set. */
  lemma ServerClosedMeansShuttingDown(s: State, l: nat)
    requires Reachable(s) && l in s.loops && s.loops[l].point == Returned(ServerClosed)
    ensures s.shuttingDown
  {
    ReachableResults(s);
    assert ResultOk(s.loops[l], l in s.listeners, s.shuttingDown);
  }

  /** Every serve call that has returned has closed its listener, and one that could
    * not track a connection returns ErrServerClosed, in every continuation. */
  lemma EndedServeClosedItsListener(s: State, l: nat)
    requires Reachable(s) && l in s.loops && s.loops[l].point.Returned?
    ensures !s.loops[l].open
  {
    ReachableResults(s);
    assert ResultOk(s.loops[l], l in s.listeners, s.shuttingDown);
  }

  lemma {:induction false} RejectionEndsServe(s: State, acts: seq<Action>, l: nat)
    requires IsRun(s, acts) && l in s.loops && EndsWithServerClosed(s.loops[l].point)
    ensures l in After(s, acts).loops && EndsWithServerClosed(After(s, acts).loops[l].point)
    decreases |acts|
  {
    if acts != [] {
      RejectionStays(s, acts[0], l);
      RejectionEndsServe(Step(s, acts[0]), acts[1..], l);
    }
  }

  lemma RejectionStays(s: State, a: Action, l: nat)
    requires Enabled(s, a) && l in s.loops && EndsWithServerClosed(s.loops[l].point)
    ensures l in Step(s, a).loops && EndsWithServerClosed(Step(s, a).loops[l].point)
  {
  }

  /** Call `k` has set the flag, and the done channel if `done`. */
  predicate HasBegun(s: State, k: nat, done: bool) {
    && k in s.calls && !s.calls[k].point.Flagging?
    && (done ==> s.calls[k].point.ClosingListeners? || ListenersDone(s.calls[k].point))
  }

  lemma BegunStays(s: State, a: Action, k: nat, done: bool)
    requires Enabled(s, a) && HasBegun(s, k, done)
    ensures HasBegun(Step(s, a), k, done)
  {
    match a
    case CallStep(j) => CallStepKeepsBegun(s, j, k, done);
    case _ =>
  }

  lemma CallStepKeepsBegun(s: State, j: nat, k: nat, done: bool)
    requires CallEnabled(s, j) && HasBegun(s, k, done)
    ensures HasBegun(CallNext(s, j), k, done)
  {
  }

  lemma StepBegins(s: State, a: Action)
    requires Enabled(s, a)
    ensures !s.shuttingDown && Step(s, a).shuttingDown ==> a.CallStep? && HasBegun(Step(s, a), a.k, false)
    ensures !s.doneClosed && Step(s, a).doneClosed ==> a.CallStep? && HasBegun(Step(s, a), a.k, true)
  {
  }

  /** The flag is set, and the done channel closed, only by a Close or Shutdown call
    * that has come so far. */
  lemma {:induction false} OnlyCallsShutDown(s: State, acts: seq<Action>)
    requires IsRun(s, acts)
    requires s.shuttingDown ==> exists k :: HasBegun(s, k, false)
    requires s.doneClosed ==> exists k :: HasBegun(s, k, true)
    ensures After(s, acts).shuttingDown ==> exists k :: HasBegun(After(s, acts), k, false)
    ensures After(s, acts).doneClosed ==> exists k :: HasBegun(After(s, acts), k, true)
    decreases |acts|
  {
    if acts != [] {
      StepBegins(s, acts[0]);
      if k :| HasBegun(s, k, false) { BegunStays(s, acts[0], k, false); }
      if k :| HasBegun(s, k, true) { BegunStays(s, acts[0], k, true); }
      OnlyCallsShutDown(Step(s, acts[0]), acts[1..]);
    }
  }

  /** While a connection is being served nothing but a Close of the server calls its
    * Close: a Shutdown of the server only asks it to shut down (GracefulShutdown). */
  lemma OnlyCloseClosesServing(s: State, c: nat)
    requires Reachable(s) && c in s.peers && (s.peers[c].point.Starting? || s.peers[c].point.Serving?)
    ensures s.peers[c].closed ==> s.peers[c].evicted && s.closeUsed
  {
    ReachableIsInv(s);
    assert PeerOk(s.peers[c], c in s.conns, s.closeUsed);
  }

  /** And while a serve loop runs its listener is closed only after the done
    * channel is, so a failure seen before that is a real accept failure. */
  lemma ListenerClosesAfterDone(s: State, l: nat)
    requires Reachable(s) && l in s.loops && InLoop(s.loops[l].point) && !s.loops[l].open
    ensures s.doneClosed && s.shuttingDown
  {
    ReachableIsInv(s);
    assert LoopOk(l, s.loops[l], l in s.listeners, s.doneClosed, s.peers);
  }

  /** What holds once a Close or Shutdown call has left its first critical
    * section. */
  predicate Quiesced(s: State) {
    s.shuttingDown && s.listeners == {}
  }

  lemma FirstSectionQuiesces(s: State, k: nat)
    requires Reachable(s) && k in s.calls && FirstSectionDone(s.calls[k].point)
    ensures Quiesced(s)
    ensures forall l :: l in s.loops && InLoop(s.loops[l].point) ==> !s.loops[l].open
  {
    ReachableResults(s);
    ReachableIsInv(s);
    assert CallOk(k, s.calls[k], s);
  }

  /** From then on no listener and no connection is ever tracked again. */
  lemma {:induction false} NothingIsTrackedAgain(s: State, acts: seq<Action>)
    requires Quiesced(s) && IsRun(s, acts)
    ensures Quiesced(After(s, acts))
    ensures After(s, acts).conns <= s.conns
    decreases |acts|
  {
    if acts != [] {
      NothingIsTracked(s, acts[0]);
      NothingIsTrackedAgain(Step(s, acts[0]), acts[1..]);
    }
  }

  lemma NothingIsTracked(s: State, a: Action)
    requires Quiesced(s) && Enabled(s, a)
    ensures Quiesced(Step(s, a)) && Step(s, a).conns <= s.conns
  {
  }

  lemma {:induction false} AcceptsNothing(s: State, acts: seq<Action>)
    requires Inv(s) && ResultsOk(s) && Quiesced(s) && IsRun(s, acts)
    ensures After(s, acts).peers.Keys == s.peers.Keys
    decreases |acts|
  {
    if acts != [] {
      StepKeepsInv(s, acts[0]);
      StepKeepsResults(s, acts[0]);
      NothingIsTracked(s, acts[0]);
      NothingIsAccepted(s, acts[0]);
      AcceptsNothing(Step(s, acts[0]), acts[1..]);
    }
  }

  lemma NothingIsAccepted(s: State, a: Action)
    requires ResultsOk(s) && Quiesced(s) && Enabled(s, a)
    ensures Step(s, a).peers.Keys == s.peers.Keys
  {
    if a.LoopStep? { assert ResultOk(s.loops[a.l], a.l in s.listeners, s.shuttingDown); }
  }

  /** And no connection is accepted any more. */
  lemma NothingIsAcceptedAgain(s: State, k: nat, acts: seq<Action>)
    requires Reachable(s) && k in s.calls && FirstSectionDone(s.calls[k].point) && IsRun(s, acts)
    ensures After(s, acts).peers.Keys == s.peers.Keys
  {
    FirstSectionQuiesces(s, k);
    ReachableIsInv(s);
    ReachableResults(s);
    AcceptsNothing(s, acts);
  }

  /** A call of Close is in the run, and one of them takes connection `c` out. */
  ghost predicate CallsClose(acts: seq<Action>) {
    exists k :: Begin(k, Close) in acts
  }

  ghost predicate TakesOut(acts: seq<Action>, c: nat) {
    exists k :: CloseOneConn(k, c) in acts
  }

  predicate IsEvicted(s: State, c: nat) { c in s.peers && s.peers[c].evicted }

  /** The two notes that the state keeps of the past say what happened. */
  lemma {:induction false} NotesAreTrue(s: State, acts: seq<Action>, c: nat)
    requires IsRun(s, acts)
    ensures After(s, acts).closeUsed <==> s.closeUsed || CallsClose(acts)
    ensures IsEvicted(After(s, acts), c) <==> IsEvicted(s, c) || TakesOut(acts, c)
    decreases |acts|
  {
    if acts != [] {
      NotesAreTrue(Step(s, acts[0]), acts[1..], c);
      StepNotes(s, acts[0], c);
      assert forall a :: a in acts <==> a == acts[0] || a in acts[1..];
    }
  }

  lemma StepNotes(s: State, a: Action, c: nat)
    requires Enabled(s, a)
    ensures Step(s, a).closeUsed <==> s.closeUsed || (a.Begin? && a.kind.Close?)
    ensures IsEvicted(Step(s, a), c) <==> IsEvicted(s, c) || (a.CloseOneConn? && a.c == c)
  {
    match a
    case LoopStep(l, got) => LoopStepNotes(s, l, got, c);
    case CallStep(k) => CallStepNotes(s, k, c);
    case _ =>
  }

  lemma LoopStepNotes(s: State, l: nat, got: Accepted, c: nat)
    requires LoopEnabled(s, l, got)
    ensures LoopNext(s, l, got).closeUsed == s.closeUsed
    ensures IsEvicted(LoopNext(s, l, got), c) <==> IsEvicted(s, c)
  {
  }

  lemma CallStepNotes(s: State, k: nat, c: nat)
    requires CallEnabled(s, k)
    ensures CallNext(s, k).closeUsed == s.closeUsed
    ensures IsEvicted(CallNext(s, k), c) <==> IsEvicted(s, c)
  {
  }

  /** A connection that was tracked and no longer is has been closed, and so has one
    * that was rejected because the server shuts down. */
  lemma UntrackedMeansClosed(s: State, c: nat)
    requires Reachable(s) && c in s.peers
    ensures s.peers[c].tracked && c !in s.conns ==> s.peers[c].closed
    ensures s.peers[c].point.Rejected? ==> s.peers[c].closed
  {
    ReachableIsInv(s);
    assert PeerOk(s.peers[c], c in s.conns, s.closeUsed);
  }

  /** In every run a nil result of Shutdown means that every connection that was
    * ever tracked is closed, and that its goroutine has ended unless Close took it
    * out of the tracked set; in runs that use only Shutdown all have ended. */
  lemma NilShutdownMeansAllEnded(s: State, k: nat, c: nat)
    requires Reachable(s)
    requires k in s.calls && s.calls[k] == Call(Shutdown, Finished(true))
    requires c in s.peers && s.peers[c].tracked
    ensures s.peers[c].closed && (s.peers[c].point.Gone? || s.peers[c].evicted)
    ensures !s.closeUsed ==> s.peers[c].point.Gone?
  {
    ReachableIsInv(s);
    assert CallOk(k, s.calls[k], s);
    assert PeerOk(s.peers[c], c in s.conns, s.closeUsed);
  }

  lemma {:induction false} RunThen(s: State, acts: seq<Action>, a: Action)
    requires IsRun(s, acts) && Enabled(After(s, acts), a)
    ensures IsRun(s, acts + [a]) && After(s, acts + [a]) == Step(After(s, acts), a)
    decreases |acts|
  {
    if acts == [] {
      assert acts + [a] == [a];
      assert IsRun(Step(s, a), []);
      assert [a][1..] == [];
    } else {
      assert (acts + [a])[1..] == acts[1..] + [a];
      RunThen(Step(s, acts[0]), acts[1..], a);
    }
  }

  lemma ReachableStep(s: State, a: Action)
    requires Reachable(s) && Enabled(s, a)
    ensures Reachable(Step(s, a))
  {
    var acts :| IsRun(INITIAL, acts) && After(INITIAL, acts) == s;
    RunThen(INITIAL, acts, a);
  }

  lemma AcceptOne(s: State) returns (t: State)
    requires Reachable(s) && s == INITIAL
    ensures Reachable(t) && t.conns == {0} && t.peers == map[0 := Conn(0, Serving, false, true, false)]
    ensures t.listeners == {0} && t.loops == map[0 := Loop(Accepting, true)]
    ensures t.calls == map[] && t.mu.None? && !t.doneClosed && !t.shuttingDown
  {
    t := ListenOne(s);
    ReachableStep(t, LoopStep(0, Connection(0))); t := Step(t, LoopStep(0, Connection(0)));
    ReachableStep(t, LoopStep(0, Error(true))); t := Step(t, LoopStep(0, Error(true))); // Tracking
    ReachableStep(t, PeerStep(0)); t := Step(t, PeerStep(0));
  }

  lemma ListenOne(s: State) returns (t: State)
    requires Reachable(s) && s == INITIAL
    ensures Reachable(t) && t == s.(listeners := {0}, loops := map[0 := Loop(Accepting, true)])
  {
    t := s;
    ReachableStep(t, Serve(0)); t := Step(t, Serve(0));
    ReachableStep(t, LoopStep(0, Error(true))); t := Step(t, LoopStep(0, Error(true))); // Registering
  }

  lemma CloseWhileServing() returns (s: State)
    ensures Reachable(s) && s.mu.None? && s.doneClosed && s.listeners == {} && s.conns == {} && s.calls.Keys == {0}
    ensures 0 in s.peers && s.peers[0].tracked && s.peers[0].point.Serving?
  {
    assert IsRun(INITIAL, []) && After(INITIAL, []) == INITIAL;
    s := AcceptOne(INITIAL);
    s := CloseUpToListeners(s);
    s := CloseFromListeners(s);
  }

  lemma CloseUpToListeners(s: State) returns (t: State)
    requires Reachable(s) && s.calls == map[] && s.mu.None? && !s.doneClosed
    ensures Reachable(t) && t.calls == map[0 := Call(Close, ClosingListeners)] && t.mu == Some(0) && t.doneClosed
    ensures t.conns == s.conns && t.peers == s.peers && t.listeners == s.listeners && t.loops == s.loops
  {
    t := s;
    ReachableStep(t, Begin(0, Close)); t := Step(t, Begin(0, Close));
    ReachableStep(t, CallStep(0)); t := Step(t, CallStep(0)); // Flagging
    ReachableStep(t, CallStep(0)); t := Step(t, CallStep(0)); // Locking
    ReachableStep(t, CallStep(0)); t := Step(t, CallStep(0)); // TestingDone
    ReachableStep(t, CallStep(0)); t := Step(t, CallStep(0)); // SealingDone
  }

  lemma CloseFromListeners(s: State) returns (t: State)
    requires Reachable(s) && s.calls == map[0 := Call(Close, ClosingListeners)] && s.doneClosed
    requires s.listeners == {0} && 0 in s.loops && s.conns == {0} && 0 in s.peers
    ensures Reachable(t) && t.mu.None? && t.doneClosed && t.listeners == {} && t.conns == {} && t.calls.Keys == {0}
    ensures 0 in t.peers && t.peers[0].tracked == s.peers[0].tracked && t.peers[0].point == s.peers[0].point
  {
    t := s;
    ReachableStep(t, CloseOneListener(0, 0)); t := Step(t, CloseOneListener(0, 0));
    ReachableStep(t, CallStep(0)); t := Step(t, CallStep(0)); // ClosingListeners
    ReachableStep(t, CloseOneConn(0, 0)); t := Step(t, CloseOneConn(0, 0));
    ReachableStep(t, CallStep(0)); t := Step(t, CallStep(0)); // ClosingConns
    ReachableStep(t, CallStep(0)); t := Step(t, CallStep(0)); // Unlocking
  }

  /** With Close in the run this fails: Close empties the tracked set while the
    * goroutine still serves, so a later Shutdown returns nil too early. */
  lemma NilShutdownAfterCloseProvesNothing() returns (s: State)
    ensures Reachable(s)
    ensures 1 in s.calls && s.calls[1] == Call(Shutdown, Finished(true))
    ensures 0 in s.peers && s.peers[0].tracked && s.peers[0].point.Serving?
  {
    s := CloseWhileServing();
    s := ShutdownToNil(s);
  }

  /** A nil result tells that all goroutines have ended, in all runs in which Close
    * is called only if `closeAllowed`. */
  ghost predicate NilIsReliable(closeAllowed: bool) {
    forall s, k, c ::
      && Reachable(s) && (s.closeUsed ==> closeAllowed)
      && k in s.calls && s.calls[k] == Call(Shutdown, Finished(true))
      && c in s.peers && s.peers[c].tracked
      ==> s.peers[c].point.Gone?
  }

  /** The exact condition: a nil result can be relied on if and only if Close is
    * not used. */
  lemma NilIsReliableExactly(closeAllowed: bool)
    ensures NilIsReliable(closeAllowed) <==> !closeAllowed
  {
    if closeAllowed {
      var s := NilShutdownAfterCloseProvesNothing();
      assert s.calls[1] == Call(Shutdown, Finished(true)) && s.peers[0].tracked;
    } else {
      forall s, k, c |
        && Reachable(s) && !s.closeUsed
        && k in s.calls && s.calls[k] == Call(Shutdown, Finished(true))
        && c in s.peers && s.peers[c].tracked
        ensures s.peers[c].point.Gone?
      {
        NilShutdownMeansAllEnded(s, k, c);
      }
    }
  }

  lemma ShutdownToNil(s: State) returns (t: State)
    requires Reachable(s) && 1 !in s.calls && s.mu.None? && s.doneClosed && s.listeners == {} && s.conns == {}
    ensures Reachable(t) && t.peers == s.peers
    ensures 1 in t.calls && t.calls[1] == Call(Shutdown, Finished(true))
  {
    t := s;
    ReachableStep(t, Begin(1, Shutdown)); t := Step(t, Begin(1, Shutdown));
    ReachableStep(t, CallStep(1)); t := Step(t, CallStep(1)); // Flagging
    ReachableStep(t, CallStep(1)); t := Step(t, CallStep(1)); // Locking
    ReachableStep(t, CallStep(1)); t := Step(t, CallStep(1)); // TestingDone
    ReachableStep(t, CallStep(1)); t := Step(t, CallStep(1)); // ClosingListeners
    ReachableStep(t, CallStep(1)); t := Step(t, CallStep(1)); // ClosingConns
    ReachableStep(t, CallStep(1)); t := Step(t, CallStep(1)); // Unlocking
    ReachableStep(t, CallStep(1)); t := Step(t, CallStep(1)); // Polling
  }
}
