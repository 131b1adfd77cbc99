/** Any number of control connections opening, using and closing passive data
  * transfers over one port pool (ftp/transfer.go, with the pool of
  * ftp/server.go), as a transition system.
  *
  * One step is one action on shared state: a pool operation under the server's
  * lock, a bind, an accept, a channel rendezvous, a close. A run is any
  * interleaving of steps. Three machines run per transfer: the opener
  * (newPassiveDataTransfer), the listener goroutine (listen) and the calls of
  * Conn; the slot `c.dt` of each control connection is replaced under its lock
  * in four steps (setDataTransfer calling Close).
  */
module PassiveTransfers {
  import opened Wrappers
  import opened PortPool

  // ------------------------------------------------------------ the state

  /** An accepted data connection; `ip` is None when its peer has no TCP address. */
  datatype Peer = Peer(id: nat, ip: Option<nat>)

  datatype Opening =
    | Choosing(attempt: nat) // about to call choosePassivePort
    | Binding(attempt: nat) // holds a port, about to call net.Listen
    | Abandoned // newPassiveDataTransfer has returned an error
    | Ready // about to lock the slot in setDataTransfer
    | Installing // holds the slot's lock
    | Current // is c.dt
    | Replaced // has been closed and is no longer c.dt

  datatype Listening =
    | NotStarted
    | Accepting
    | Offering(peer: Option<Peer>) // in the select; None offers the accept error
    | ClosingChannel // the deferred calls, in the order in which they run
    | ClosingListener
    | Releasing
    | Finished

  datatype Transfer = Transfer(
    control: nat, // the control connection that opened it
    passive: bool, // false for an activeDataTransfer
    opening: Opening,
    port: int,
    listening: Listening,
    listenerOpen: bool,
    signals: nat, // how often Close has closed t.closed (or the active connection)
    channelCloses: nat, // how often close(ch) has run
    handed: seq<Peer>, // the connections received by Conn
    kept: Option<Peer>) // t.conn

  datatype Stage = CloseData | CloseSignal | CloseListener | Swap

  datatype Lock = Unlocked | Locked(next: Option<nat>, stage: Stage)

  /** A control connection: its peer address, its slot c.dt (None is
    * emptyDataTransfer) and the lock mudt. */
  datatype Control = Control(ip: Option<nat>, slot: Option<nat>, lock: Lock)

  datatype Caller =
    | Receiving(transfer: nat)
    | Received(transfer: nat, peer: Peer)
    | Answered(transfer: nat, result: Option<Peer>)

  datatype World = World(
    cfg: Config,
    addressCheck: bool,
    pool: Pool,
    controls: map<nat, Control>,
    transfers: map<nat, Transfer>,
    callers: map<nat, Caller>,
    retired: set<int>) // ports whose listen failed; nothing gives them back

  datatype Accepted = Temporary | Permanent | Connection(peer: Peer)

  datatype OpenerStep =
    | Begin(c: nat) // PASV or EPSV on control connection c
    | Dial(c: nat) // PORT or EPRT, already dialled
    | ChoosePort(random: nat)
    | Bind(ok: bool)

  datatype SlotStep = LockSlot(next: Option<nat>) | Replace

  datatype ListenerStep =
    | Accept(got: Accepted)
    | Deliver(k: nat)
    | Cancel
    | CloseChannel
    | CloseOwnListener
    | ReleasePort

  datatype CallerStep = Call(t: nat) | SeeClosed | Expire | Keep

  datatype Action =
    | Connect(c: nat, ip: Option<nat>)
    | Opener(t: nat, open: OpenerStep)
    | Slot(c: nat, slot: SlotStep)
    | Listener(t: nat, listen: ListenerStep)
    | Conn(k: nat, conn: CallerStep)

  // ------------------------------------------------------------ the steps

  /** validRemote */
  predicate ValidRemote(addressCheck: bool, ip: Option<nat>, peer: Peer) {
    !addressCheck || (ip.Some? && peer.ip == ip)
  }

  // newPassiveDataTransfer and newActiveDataTransfer

  predicate OpenerEnabled(w: World, t: nat, o: OpenerStep) {
    match o
    case Begin(c) => t !in w.transfers && c in w.controls
    case Dial(c) => t !in w.transfers && c in w.controls
    case ChoosePort(_) => t in w.transfers && w.transfers[t].opening.Choosing? && Shaped(w.cfg, w.pool)
    case Bind(_) => t in w.transfers && w.transfers[t].opening.Binding?
  }

  function Chosen(x: Transfer, r: Outcome<int>): Transfer
    requires x.opening.Choosing?
  {
    if r.Returned? then x.(opening := Binding(x.opening.attempt), port := r.value) else x.(opening := Abandoned)
  }

  /** After six failed binds the opener gives up. */
  function Bound(x: Transfer, ok: bool): Transfer
    requires x.opening.Binding?
  {
    if ok then x.(opening := Ready, listening := Accepting, listenerOpen := true)
    else x.(opening := if x.opening.attempt >= 5 then Abandoned else Choosing(x.opening.attempt + 1))
  }

  function OpenerNext(w: World, t: nat, o: OpenerStep): World
    requires OpenerEnabled(w, t, o)
  {
    match o
    case Begin(c) => w.(transfers := w.transfers[t := NewTransfer(c, true, Choosing(0))])
    case Dial(c) => w.(transfers := w.transfers[t := NewTransfer(c, false, Ready)])
    case ChoosePort(random) =>
      var (pool, r) := Choose(w.cfg, w.pool, random);
      w.(pool := pool, transfers := w.transfers[t := Chosen(w.transfers[t], r)])
    case Bind(ok) =>
      var x := w.transfers[t];
      w.(transfers := w.transfers[t := Bound(x, ok)],
         retired := if ok || x.port == 0 then w.retired else w.retired + {x.port})
  }

  function NewTransfer(c: nat, passive: bool, opening: Opening): Transfer {
    Transfer(c, passive, opening, 0, NotStarted, false, 0, 0, [], None)
  }

  // setDataTransfer and Close, under the slot's lock

  predicate SlotEnabled(w: World, c: nat, s: SlotStep) {
    && c in w.controls
    && var ctl := w.controls[c];
    match s
    case LockSlot(next) =>
      && ctl.lock.Unlocked?
      && (next.Some? ==> OpenedOn(w.transfers, next.value, c) && w.transfers[next.value].opening.Ready?)
    case Replace =>
      && ctl.lock.Locked?
      && (ctl.slot.Some? ==> ctl.slot.value in w.transfers)
      && (ctl.lock.next.Some? ==> ctl.lock.next.value in w.transfers)
      && (ctl.lock.stage.CloseSignal? || ctl.lock.stage.CloseListener? ==> ctl.slot.Some?)
  }

  function StageAfter(transfers: map<nat, Transfer>, ctl: Control): Stage
    requires ctl.lock.Locked? && !ctl.lock.stage.Swap? && (ctl.slot.Some? ==> ctl.slot.value in transfers)
  {
    match ctl.lock.stage
    case CloseData => if ctl.slot.Some? && transfers[ctl.slot.value].passive then CloseSignal else Swap
    case CloseSignal => CloseListener
    case _ => Swap
  }

  /** What one part of Close does to the transfer in the slot. */
  function ClosePart(x: Transfer, stage: Stage): Transfer {
    match stage
    case CloseData => if x.passive then x else x.(signals := x.signals + 1)
    case CloseSignal => x.(signals := x.signals + 1)
    case CloseListener => x.(listenerOpen := false)
    case Swap => x.(opening := Replaced)
  }

  /** The transfers after the previous one has gone through `stage`. */
  function Closed(transfers: map<nat, Transfer>, slot: Option<nat>, stage: Stage): map<nat, Transfer>
    requires slot.Some? ==> slot.value in transfers
  {
    if slot.None? then transfers else transfers[slot.value := ClosePart(transfers[slot.value], stage)]
  }

  function WithOpening(transfers: map<nat, Transfer>, t: Option<nat>, opening: Opening): map<nat, Transfer>
    requires t.Some? ==> t.value in transfers
  {
    if t.None? then transfers else transfers[t.value := transfers[t.value].(opening := opening)]
  }

  function SlotNext(w: World, c: nat, s: SlotStep): World
    requires SlotEnabled(w, c, s)
  {
    var ctl := w.controls[c];
    match s
    case LockSlot(next) =>
      w.(controls := w.controls[c := ctl.(lock := Locked(next, CloseData))],
         transfers := WithOpening(w.transfers, next, Installing))
    case Replace =>
      var closed := Closed(w.transfers, ctl.slot, ctl.lock.stage);
      if ctl.lock.stage.Swap? then
        w.(controls := w.controls[c := ctl.(slot := ctl.lock.next, lock := Unlocked)],
           transfers := WithOpening(closed, ctl.lock.next, Current))
      else
        w.(controls := w.controls[c := ctl.(lock := ctl.lock.(stage := StageAfter(w.transfers, ctl)))],
           transfers := closed)
  }

  // listen

  predicate ListenerEnabled(w: World, t: nat, l: ListenerStep) {
    && t in w.transfers
    && var x := w.transfers[t];
    match l
    case Accept(got) =>
      // a closed listener fails, and not temporarily
      x.listening.Accepting? && x.control in w.controls && (!x.listenerOpen ==> got.Permanent?)
    case Deliver(k) => x.listening.Offering? && k in w.callers && w.callers[k] == Receiving(t)
    case Cancel => x.listening.Offering? && x.signals > 0
    case CloseChannel => x.listening.ClosingChannel?
    case CloseOwnListener => x.listening.ClosingListener?
    case ReleasePort => x.listening.Releasing? && Shaped(w.cfg, w.pool)
  }

  function Heard(addressCheck: bool, ip: Option<nat>, x: Transfer, got: Accepted): Transfer {
    match got
    case Temporary => x
    case Permanent => x.(listening := Offering(None))
    case Connection(peer) => if ValidRemote(addressCheck, ip, peer) then x.(listening := Offering(Some(peer))) else x
  }

  function Sent(x: Transfer): Transfer
    requires x.listening.Offering?
  {
    x.(listening := ClosingChannel,
       handed := if x.listening.peer.None? then x.handed else x.handed + [x.listening.peer.value])
  }

  function ListenerNext(w: World, t: nat, l: ListenerStep): World
    requires ListenerEnabled(w, t, l)
  {
    var x := w.transfers[t];
    match l
    case Accept(got) => w.(transfers := w.transfers[t := Heard(w.addressCheck, w.controls[x.control].ip, x, got)])
    case Deliver(k) =>
      var caller := if x.listening.peer.None? then Answered(t, None) else Received(t, x.listening.peer.value);
      w.(transfers := w.transfers[t := Sent(x)], callers := w.callers[k := caller])
    case Cancel => w.(transfers := w.transfers[t := x.(listening := ClosingChannel)])
    case CloseChannel =>
      w.(transfers := w.transfers[t := x.(listening := ClosingListener, channelCloses := x.channelCloses + 1)])
    case CloseOwnListener => w.(transfers := w.transfers[t := x.(listening := Releasing, listenerOpen := false)])
    case ReleasePort =>
      w.(pool := Release(w.cfg, w.pool, x.port).0, transfers := w.transfers[t := x.(listening := Finished)])
  }

  // Conn

  predicate CallerEnabled(w: World, k: nat, m: CallerStep) {
    match m
    case Call(t) => // commands call Conn on the transfer that they find in the slot
      && k !in w.callers && t in w.transfers && !w.transfers[t].listening.NotStarted?
      && (w.transfers[t].opening.Current? || w.transfers[t].opening.Replaced?)
    case SeeClosed =>
      && k in w.callers && w.callers[k].Receiving?
      && w.callers[k].transfer in w.transfers && w.transfers[w.callers[k].transfer].channelCloses > 0
    case Expire => k in w.callers && w.callers[k].Receiving?
    case Keep => k in w.callers && w.callers[k].Received? && w.callers[k].transfer in w.transfers
  }

  function CallerNext(w: World, k: nat, m: CallerStep): World
    requires CallerEnabled(w, k, m)
  {
    match m
    case Call(t) => w.(callers := w.callers[k := Receiving(t)])
    case SeeClosed => w.(callers := w.callers[k := Answered(w.callers[k].transfer, None)])
    case Expire => w.(callers := w.callers[k := Answered(w.callers[k].transfer, None)])
    case Keep =>
      var t, peer := w.callers[k].transfer, w.callers[k].peer;
      w.(callers := w.callers[k := Answered(t, Some(peer))],
         transfers := w.transfers[t := w.transfers[t].(kept := Some(peer))])
  }

  predicate Enabled(w: World, a: Action) {
    match a
    case Connect(c, _) => c !in w.controls
    case Opener(t, o) => OpenerEnabled(w, t, o)
    case Slot(c, s) => SlotEnabled(w, c, s)
    case Listener(t, l) => ListenerEnabled(w, t, l)
    case Conn(k, m) => CallerEnabled(w, k, m)
  }

  function Step(w: World, a: Action): World
    requires Enabled(w, a)
  {
    match a
    case Connect(c, ip) => w.(controls := w.controls[c := Control(ip, None, Unlocked)])
    case Opener(t, o) => OpenerNext(w, t, o)
    case Slot(c, s) => SlotNext(w, c, s)
    case Listener(t, l) => ListenerNext(w, t, l)
    case Conn(k, m) => CallerNext(w, k, m)
  }

  function Initial(cfg: Config, addressCheck: bool): World {
    World(cfg, addressCheck, Unmade, map[], map[], map[], {})
  }

  ghost predicate IsRun(w: World, actions: seq<Action>)
    decreases |actions|
  {
    actions == [] || (Enabled(w, actions[0]) && IsRun(Step(w, actions[0]), actions[1..]))
  }

  ghost function After(w: World, actions: seq<Action>): World
    requires IsRun(w, actions)
    decreases |actions|
  {
    if actions == [] then w else After(Step(w, actions[0]), actions[1..])
  }

  // -------------------------------------------------------- the invariant

  /** The listener goroutine exists and has not yet given its port back. */
  predicate Unfinished(x: Transfer) {
    !x.listening.NotStarted? && !x.listening.Finished?
  }

  predicate HoldsPort(x: Transfer) {
    x.port != 0 && (x.opening.Binding? || Unfinished(x))
  }

  /** Transfer `t` is the one that holds pool port `port`. */
  predicate Holder(w: World, t: nat, port: int) {
    t in w.transfers && HoldsPort(w.transfers[t]) && w.transfers[t].port == port
  }

  /** Close has sent its signal: the slot was replaced, or the replacement has
    * got past that point. */
  predicate Signalled(ctl: Control, x: Transfer) {
    || x.opening.Replaced?
    || (x.opening.Current? && ctl.lock.Locked? && ctl.lock.stage in {CloseListener, Swap})
  }

  /** What the machines of one transfer keep; `ip` is the address of the peer of
    * its control connection. */
  ghost predicate MachineOk(addressCheck: bool, ip: Option<nat>, x: Transfer) {
    && (x.opening.Choosing? || x.opening.Binding? || x.opening.Abandoned? || !x.passive <==> x.listening.NotStarted?)
    && (!x.passive ==> !x.opening.Choosing? && !x.opening.Binding? && !x.opening.Abandoned?)
    && (x.listenerOpen ==>
          || x.listening.Accepting? || x.listening.Offering?
          || x.listening.ClosingChannel? || x.listening.ClosingListener?)
    && x.channelCloses ==
         (if x.listening.ClosingListener? || x.listening.Releasing? || x.listening.Finished? then 1 else 0)
    && |x.handed| <= (if x.listening.NotStarted? || x.listening.Accepting? || x.listening.Offering? then 0 else 1)
    && (forall peer :: peer in x.handed ==> ValidRemote(addressCheck, ip, peer))
    && (x.listening.Offering? && x.listening.peer.Some? ==> ValidRemote(addressCheck, ip, x.listening.peer.value))
  }

  /** What ties transfer `t` to the slot of its control connection. */
  ghost predicate SlotOk(ctl: Control, t: nat, x: Transfer) {
    && (x.opening.Current? <==> ctl.slot == Some(t))
    && (x.opening.Installing? <==> ctl.lock.Locked? && ctl.lock.next == Some(t))
    && x.signals == (if Signalled(ctl, x) then 1 else 0)
    && (x.opening.Replaced? ==> !x.listenerOpen)
    && (x.opening.Current? && ctl.lock.Locked? && ctl.lock.stage.Swap? ==> !x.listenerOpen)
  }

  /** Transfer `t` exists and was opened on control connection `c`. */
  predicate OpenedOn(transfers: map<nat, Transfer>, t: nat, c: nat) {
    t in transfers && transfers[t].control == c
  }

  ghost predicate ControlOk(transfers: map<nat, Transfer>, c: nat, ctl: Control) {
    && (ctl.slot.Some? ==> OpenedOn(transfers, ctl.slot.value, c))
    && (ctl.lock.Locked? && ctl.lock.next.Some? ==> OpenedOn(transfers, ctl.lock.next.value, c))
    && (ctl.lock.Locked? && ctl.lock.stage in {CloseSignal, CloseListener} ==>
          ctl.slot.Some? && OpenedOn(transfers, ctl.slot.value, c) && transfers[ctl.slot.value].passive)
  }

  ghost predicate MachinesOk(w: World) {
    forall t :: t in w.transfers ==>
      var x := w.transfers[t];
      x.control in w.controls && MachineOk(w.addressCheck, w.controls[x.control].ip, x)
  }

  ghost predicate SlotsOk(w: World) {
    && (forall t :: t in w.transfers ==>
          var x := w.transfers[t]; x.control in w.controls && SlotOk(w.controls[x.control], t, x))
    && (forall c :: c in w.controls ==> ControlOk(w.transfers, c, w.controls[c]))
  }

  /** A caller of Conn that has got a connection got one that was handed out. */
  ghost predicate CallerOk(transfers: map<nat, Transfer>, caller: Caller) {
    && caller.transfer in transfers
    && (caller.Received? ==> caller.peer in transfers[caller.transfer].handed)
    && (caller.Answered? && caller.result.Some? ==> caller.result.value in transfers[caller.transfer].handed)
  }

  predicate HasConnection(caller: Caller) {
    caller.Received? || (caller.Answered? && caller.result.Some?)
  }

  /** Callers `j` and `k` both have a connection from the same transfer. */
  predicate HasConnectionOn(w: World, j: nat, k: nat) {
    && j in w.callers && k in w.callers
    && HasConnection(w.callers[j]) && HasConnection(w.callers[k])
    && w.callers[j].transfer == w.callers[k].transfer
  }

  ghost predicate CallersOk(w: World) {
    && (forall k :: k in w.callers ==> CallerOk(w.transfers, w.callers[k]))
    && (forall j, k :: HasConnectionOn(w, j, k) ==> j == k)
  }

  /** No port is held twice, and the pool's held ports are exactly those being
    * tried, those owned by a listener and those retired. */
  ghost predicate PortsOk(w: World) {
    && Valid(w.cfg, w.pool)
    && (forall t, u, p :: Holder(w, t, p) && Holder(w, u, p) ==> t == u)
    && (forall t, p :: Holder(w, t, p) ==> p in Held(w.cfg, w.pool) && p !in w.retired)
    && w.retired <= Held(w.cfg, w.pool)
    && (forall p :: p in Held(w.cfg, w.pool) ==> p in w.retired || exists t :: Holder(w, t, p))
  }

  ghost predicate Inv(w: World) {
    && (w.cfg.min >= 1 || w.cfg.max <= 0)
    && MachinesOk(w) && SlotsOk(w) && CallersOk(w) && PortsOk(w)
  }

  // ------------------------------------------- what one step of each keeps

  /** A step that rewrites one transfer keeps the machines and the slots as soon
    * as the new record is in order. */
  lemma UpdateKeeps(w: World, w': World, t: nat, x: Transfer)
    requires MachinesOk(w) && SlotsOk(w)
    requires w'.addressCheck == w.addressCheck && w'.controls == w.controls && w'.transfers == w.transfers[t := x]
    requires x.control in w.controls && MachineOk(w.addressCheck, w.controls[x.control].ip, x)
    requires SlotOk(w.controls[x.control], t, x)
    requires t in w.transfers ==> x.control == w.transfers[t].control && x.passive == w.transfers[t].passive
    ensures MachinesOk(w') && SlotsOk(w')
  {
  }

  lemma OpenerKeeps(w: World, t: nat, o: OpenerStep)
    requires MachinesOk(w) && SlotsOk(w) && OpenerEnabled(w, t, o)
    ensures MachinesOk(OpenerNext(w, t, o)) && SlotsOk(OpenerNext(w, t, o))
  {
    var w' := OpenerNext(w, t, o);
    UpdateKeeps(w, w', t, w'.transfers[t]);
  }

  lemma ListenerKeeps(w: World, t: nat, l: ListenerStep)
    requires MachinesOk(w) && SlotsOk(w) && ListenerEnabled(w, t, l)
    ensures MachinesOk(ListenerNext(w, t, l)) && SlotsOk(ListenerNext(w, t, l))
  {
    var w' := ListenerNext(w, t, l);
    UpdateKeeps(w, w', t, w'.transfers[t]);
  }

  lemma CallerKeeps(w: World, k: nat, m: CallerStep)
    requires MachinesOk(w) && SlotsOk(w) && CallerEnabled(w, k, m)
    ensures MachinesOk(CallerNext(w, k, m)) && SlotsOk(CallerNext(w, k, m))
  {
    if m.Keep? {
      var w' := CallerNext(w, k, m);
      UpdateKeeps(w, w', w.callers[k].transfer, w'.transfers[w.callers[k].transfer]);
    }
  }

  // The slot steps, first on the records they touch.

  lemma SwapKeeps(ip: Option<nat>, check: bool, ctl: Control, t: nat, x: Transfer)
    requires ctl.lock.Locked? && ctl.lock.stage.Swap?
    requires MachineOk(check, ip, x) && SlotOk(ctl, t, x)
    ensures var x' := if ctl.lock.next == Some(t) then x.(opening := Current)
                      else if ctl.slot == Some(t) then x.(opening := Replaced)
                      else x;
            MachineOk(check, ip, x') && SlotOk(ctl.(slot := ctl.lock.next, lock := Unlocked), t, x')
  {
  }

  lemma SlotNextAt(w: World, c: nat, s: SlotStep, t: nat)
    requires MachinesOk(w) && SlotsOk(w) && SlotEnabled(w, c, s) && t in w.transfers
    ensures var w', ctl, x := SlotNext(w, c, s), w.controls[c], w.transfers[t];
            && t in w'.transfers && w'.controls.Keys == w.controls.Keys
            && (x.control != c ==> w'.transfers[t] == x)
            && (s.LockSlot? && x.control == c ==>
                  w'.transfers[t] == if s.next == Some(t) then x.(opening := Installing) else x)
            && (s.Replace? && x.control == c && !ctl.lock.stage.Swap? ==>
                  w'.transfers[t] == if ctl.slot == Some(t) then ClosePart(x, ctl.lock.stage) else x)
            && (s.Replace? && x.control == c && ctl.lock.stage.Swap? ==>
                  w'.transfers[t] == if ctl.lock.next == Some(t) then x.(opening := Current)
                                     else if ctl.slot == Some(t) then x.(opening := Replaced) else x)
  {
    assert ControlOk(w.transfers, c, w.controls[c]);
    assert SlotOk(w.controls[w.transfers[t].control], t, w.transfers[t]);
  }

  lemma SlotKeepsTransfer(w: World, c: nat, s: SlotStep, t: nat)
    requires MachinesOk(w) && SlotsOk(w) && SlotEnabled(w, c, s) && t in w.transfers
    ensures var w' := SlotNext(w, c, s);
            && t in w'.transfers
            && var x := w'.transfers[t];
            && x.control in w'.controls
            && MachineOk(w'.addressCheck, w'.controls[x.control].ip, x)
            && SlotOk(w'.controls[x.control], t, x)
  {
    SlotNextAt(w, c, s, t);
    var ctl, x := w.controls[c], w.transfers[t];
    assert ControlOk(w.transfers, c, ctl);
    if x.control == c && s.Replace? && ctl.lock.stage.Swap? { SwapKeeps(ctl.ip, w.addressCheck, ctl, t, x); }
  }

  lemma ControlFrame(transfers: map<nat, Transfer>, transfers': map<nat, Transfer>, d: nat, ctl: Control)
    requires ControlOk(transfers, d, ctl)
    requires forall t, b :: OpenedOn(transfers, t, b) ==> OpenedOn(transfers', t, b)
    requires forall t :: t in transfers && transfers[t].passive ==> t in transfers' && transfers'[t].passive
    ensures ControlOk(transfers', d, ctl)
  {
  }

  /** The slot step on the control's own record, the transfers being as before. */
  lemma OwnControlKeeps(w: World, c: nat, s: SlotStep)
    requires SlotEnabled(w, c, s) && ControlOk(w.transfers, c, w.controls[c])
    ensures c in SlotNext(w, c, s).controls && ControlOk(w.transfers, c, SlotNext(w, c, s).controls[c])
  {
  }

  lemma OtherControlsStay(w: World, c: nat, s: SlotStep, d: nat)
    requires SlotEnabled(w, c, s) && d in w.controls && d != c
    ensures d in SlotNext(w, c, s).controls && SlotNext(w, c, s).controls[d] == w.controls[d]
  {
  }

  lemma SlotKeepsControl(w: World, c: nat, s: SlotStep, d: nat)
    requires SlotsOk(w) && SlotEnabled(w, c, s) && d in w.controls
    ensures d in SlotNext(w, c, s).controls
    ensures ControlOk(SlotNext(w, c, s).transfers, d, SlotNext(w, c, s).controls[d])
  {
    if d == c { OwnControlKeeps(w, c, s); } else { OtherControlsStay(w, c, s, d); }
    SlotKeepsOpeners(w, c, s);
    ControlFrame(w.transfers, SlotNext(w, c, s).transfers, d, SlotNext(w, c, s).controls[d]);
  }

  lemma SlotKeepsOpeners(w: World, c: nat, s: SlotStep)
    requires SlotEnabled(w, c, s)
    ensures forall t, b :: OpenedOn(w.transfers, t, b) ==> OpenedOn(SlotNext(w, c, s).transfers, t, b)
    ensures forall t :: t in w.transfers && w.transfers[t].passive ==>
              t in SlotNext(w, c, s).transfers && SlotNext(w, c, s).transfers[t].passive
    ensures SlotNext(w, c, s).transfers.Keys == w.transfers.Keys
    ensures SlotNext(w, c, s).controls.Keys == w.controls.Keys
  {
  }

  lemma SlotKeeps(w: World, c: nat, s: SlotStep)
    requires MachinesOk(w) && SlotsOk(w) && SlotEnabled(w, c, s)
    ensures MachinesOk(SlotNext(w, c, s)) && SlotsOk(SlotNext(w, c, s))
  {
    SlotKeepsOpeners(w, c, s);
    forall t | t in w.transfers { SlotKeepsTransfer(w, c, s, t); }
    forall d | d in w.controls { SlotKeepsControl(w, c, s, d); }
  }

  // What the steps of each machine leave of a transfer.

  lemma OpenerLeaves(w: World, u: nat, o: OpenerStep, t: nat)
    requires OpenerEnabled(w, u, o) && t in w.transfers
    ensures t in OpenerNext(w, u, o).transfers
    ensures var x' := OpenerNext(w, u, o).transfers[t];
            && x'.handed == w.transfers[t].handed
            && (x' == w.transfers[t] || w.transfers[t].opening.Choosing? || w.transfers[t].opening.Binding?)
  {
  }

  lemma ListenerLeaves(w: World, u: nat, l: ListenerStep, t: nat)
    requires ListenerEnabled(w, u, l) && t in w.transfers
    ensures t in ListenerNext(w, u, l).transfers
    ensures var x' := ListenerNext(w, u, l).transfers[t];
            w.transfers[t].handed <= x'.handed && (t != u ==> x' == w.transfers[t])
  {
  }

  lemma CallerLeaves(w: World, k: nat, m: CallerStep, t: nat)
    requires CallerEnabled(w, k, m) && t in w.transfers
    ensures t in CallerNext(w, k, m).transfers
    ensures CallerNext(w, k, m).transfers[t] == w.transfers[t].(kept := CallerNext(w, k, m).transfers[t].kept)
  {
  }

  lemma SlotLeaves(w: World, c: nat, s: SlotStep, t: nat)
    requires SlotEnabled(w, c, s) && t in w.transfers
    ensures t in SlotNext(w, c, s).transfers
    ensures var x' := SlotNext(w, c, s).transfers[t];
            x'.handed == w.transfers[t].handed && x'.listening == w.transfers[t].listening
  {
  }

  lemma HandedGrows(w: World, a: Action, t: nat)
    requires Enabled(w, a) && t in w.transfers
    ensures t in Step(w, a).transfers && w.transfers[t].handed <= Step(w, a).transfers[t].handed
  {
    match a
    case Connect(_, _) =>
    case Opener(u, o) => OpenerLeaves(w, u, o, t);
    case Slot(c, s) => SlotLeaves(w, c, s, t);
    case Listener(u, l) => ListenerLeaves(w, u, l, t);
    case Conn(k, m) => CallerLeaves(w, k, m, t);
  }

  lemma CallersFrame(w: World, w': World)
    requires CallersOk(w) && w'.callers == w.callers
    requires forall t :: t in w.transfers ==> t in w'.transfers && w.transfers[t].handed <= w'.transfers[t].handed
    ensures CallersOk(w')
  {
    forall k | k in w'.callers ensures CallerOk(w'.transfers, w'.callers[k]) {
      assert CallerOk(w.transfers, w.callers[k]);
    }
    forall j, k | HasConnectionOn(w', j, k) ensures j == k {
      assert HasConnectionOn(w, j, k);
    }
  }

  /** The same when one caller's record changes. */
  lemma CallerUpdate(w: World, w': World, k: nat, caller: Caller)
    requires CallersOk(w) && w'.callers == w.callers[k := caller] && CallerOk(w'.transfers, caller)
    requires forall t :: t in w.transfers ==> t in w'.transfers && w.transfers[t].handed <= w'.transfers[t].handed
    requires HasConnection(caller) ==>
               caller.transfer in w.transfers && k in w.callers && w.callers[k].transfer == caller.transfer
    requires HasConnection(caller) ==> HasConnection(w.callers[k]) || w.transfers[caller.transfer].handed == []
    ensures CallersOk(w')
  {
    forall j | j in w'.callers ensures CallerOk(w'.transfers, w'.callers[j]) {
      if j != k { assert CallerOk(w.transfers, w.callers[j]); }
    }
    forall i, j | HasConnectionOn(w', i, j) ensures i == j {
      if i != k && j != k {
        assert HasConnectionOn(w, i, j);
      } else if i != j {
        var other := if i == k then j else i;
        assert CallerOk(w.transfers, w.callers[other]);
        assert HasConnectionOn(w, other, k);
      }
    }
  }

  lemma DeliverKeepsCallers(w: World, t: nat, k: nat)
    requires MachinesOk(w) && CallersOk(w) && ListenerEnabled(w, t, Deliver(k))
    ensures CallersOk(ListenerNext(w, t, Deliver(k)))
  {
    var w' := ListenerNext(w, t, Deliver(k));
    assert w.transfers[t].handed == [];
    assert w'.transfers[t].listening.ClosingChannel?;
    CallerUpdate(w, w', k, w'.callers[k]);
  }

  lemma CallerKeepsCallers(w: World, k: nat, m: CallerStep)
    requires CallersOk(w) && CallerEnabled(w, k, m)
    ensures CallersOk(CallerNext(w, k, m))
  {
    var w' := CallerNext(w, k, m);
    if k in w.callers { assert CallerOk(w.transfers, w.callers[k]); }
    CallerUpdate(w, w', k, w'.callers[k]);
  }

  lemma OtherStepsLeaveCallers(w: World, a: Action)
    requires Enabled(w, a) && !a.Conn? && !(a.Listener? && a.listen.Deliver?)
    ensures Step(w, a).callers == w.callers
  {
  }

  lemma StepKeepsCallers(w: World, a: Action)
    requires MachinesOk(w) && CallersOk(w) && Enabled(w, a)
    ensures CallersOk(Step(w, a))
  {
    if a.Listener? && a.listen.Deliver? {
      DeliverKeepsCallers(w, a.t, a.listen.k);
    } else if a.Conn? {
      CallerKeepsCallers(w, a.k, a.conn);
    } else {
      OtherStepsLeaveCallers(w, a);
      forall t | t in w.transfers { HandedGrows(w, a, t); }
      CallersFrame(w, Step(w, a));
    }
  }

  // ------------------------------------------------ what happens to ports

  lemma SameHoldersKeepPorts(w: World, w': World)
    requires PortsOk(w)
    requires w'.cfg == w.cfg && w'.pool == w.pool && w'.retired == w.retired
    requires forall t, p :: Holder(w', t, p) <==> Holder(w, t, p)
    ensures PortsOk(w')
  {
  }

  /** The slot steps leave alone what makes a transfer hold its port. */
  lemma SlotLeavesPort(w: World, c: nat, s: SlotStep, t: nat)
    requires MachinesOk(w) && SlotsOk(w) && SlotEnabled(w, c, s) && t in w.transfers
    ensures t in SlotNext(w, c, s).transfers
    ensures var x, x' := w.transfers[t], SlotNext(w, c, s).transfers[t];
            x'.port == x.port && x'.listening == x.listening && (x'.opening.Binding? <==> x.opening.Binding?)
  {
    SlotNextAt(w, c, s, t);
    assert SlotOk(w.controls[w.transfers[t].control], t, w.transfers[t]);
  }

  lemma SlotKeepsPorts(w: World, c: nat, s: SlotStep)
    requires MachinesOk(w) && SlotsOk(w) && PortsOk(w) && SlotEnabled(w, c, s)
    ensures PortsOk(SlotNext(w, c, s))
  {
    var w' := SlotNext(w, c, s);
    SlotKeepsOpeners(w, c, s);
    forall t, p ensures Holder(w', t, p) <==> Holder(w, t, p) {
      if t in w.transfers { SlotLeavesPort(w, c, s, t); }
    }
    SameHoldersKeepPorts(w, w');
  }

  lemma ChooseKeepsPorts(w: World, t: nat, random: nat)
    requires w.cfg.min >= 1 || w.cfg.max <= 0
    requires MachinesOk(w) && PortsOk(w) && OpenerEnabled(w, t, ChoosePort(random))
    ensures PortsOk(OpenerNext(w, t, ChoosePort(random)))
  {
    var w' := OpenerNext(w, t, ChoosePort(random));
    var (pool, r) := Choose(w.cfg, w.pool, random);
    ChooseLaw(w.cfg, w.pool, random);
    forall u, p | u != t ensures Holder(w', u, p) <==> Holder(w, u, p) {}
    forall p ensures !Holder(w, t, p) {}
    forall p ensures Holder(w', t, p) <==> r == Returned(p) && p != 0 {}
    forall p | p in Held(w'.cfg, w'.pool) ensures p in w'.retired || exists u :: Holder(w', u, p) {
      if p in Held(w.cfg, w.pool) {
        if p !in w.retired {
          var u :| Holder(w, u, p);
          assert Holder(w', u, p);
        }
      } else {
        assert Holder(w', t, p);
      }
    }
  }

  lemma BindKeepsPorts(w: World, t: nat, ok: bool)
    requires MachinesOk(w) && PortsOk(w) && OpenerEnabled(w, t, Bind(ok))
    ensures PortsOk(OpenerNext(w, t, Bind(ok)))
  {
    var w' := OpenerNext(w, t, Bind(ok));
    forall u, p | u != t ensures Holder(w', u, p) <==> Holder(w, u, p) {}
    if ok {
      SameHoldersKeepPorts(w, w');
    } else {
      var port := w.transfers[t].port;
      forall p ensures !Holder(w', t, p) {}
      forall p ensures Holder(w, t, p) <==> p == port && p != 0 {}
      if port != 0 { assert Holder(w, t, port); }
      forall p | p in Held(w'.cfg, w'.pool) && p !in w'.retired ensures exists u :: Holder(w', u, p) {
        var u :| Holder(w, u, p);
        assert Holder(w', u, p);
      }
    }
  }

  /** The deferred release never panics: its port is held by the pool, and by
    * nobody else. */
  lemma ReleaseIsSafe(w: World, t: nat)
    requires Inv(w) && ListenerEnabled(w, t, ReleasePort)
    ensures Release(w.cfg, w.pool, w.transfers[t].port).1
    ensures w.transfers[t].port != 0 ==> w.transfers[t].port in Held(w.cfg, w.pool)
    ensures PortsOk(ListenerNext(w, t, ReleasePort))
  {
    var w' := ListenerNext(w, t, ReleasePort);
    var port := w.transfers[t].port;
    forall u, p | u != t ensures Holder(w', u, p) <==> Holder(w, u, p) {}
    forall p ensures !Holder(w', t, p) {}
    forall p ensures Holder(w, t, p) <==> p == port && p != 0 {}
    if port != 0 {
      assert Holder(w, t, port);
      ReleaseLaw(w.cfg, w.pool, port);
    }
    forall p | p in Held(w'.cfg, w'.pool) && p !in w'.retired ensures exists u :: Holder(w', u, p) {
      var u :| Holder(w, u, p);
      assert Holder(w', u, p);
    }
  }

  lemma BeginKeepsPorts(w: World, t: nat, o: OpenerStep)
    requires PortsOk(w) && OpenerEnabled(w, t, o) && (o.Begin? || o.Dial?)
    ensures PortsOk(OpenerNext(w, t, o))
  {
    forall u, p ensures Holder(OpenerNext(w, t, o), u, p) <==> Holder(w, u, p) {}
    SameHoldersKeepPorts(w, OpenerNext(w, t, o));
  }

  lemma ListenerKeepsPorts(w: World, t: nat, l: ListenerStep)
    requires PortsOk(w) && ListenerEnabled(w, t, l) && !l.ReleasePort?
    ensures PortsOk(ListenerNext(w, t, l))
  {
    forall u, p ensures Holder(ListenerNext(w, t, l), u, p) <==> Holder(w, u, p) {}
    SameHoldersKeepPorts(w, ListenerNext(w, t, l));
  }

  lemma CallerKeepsPorts(w: World, k: nat, m: CallerStep)
    requires PortsOk(w) && CallerEnabled(w, k, m)
    ensures PortsOk(CallerNext(w, k, m))
  {
    forall u, p ensures Holder(CallerNext(w, k, m), u, p) <==> Holder(w, u, p) {}
    SameHoldersKeepPorts(w, CallerNext(w, k, m));
  }

  lemma StepKeepsPorts(w: World, a: Action)
    requires Inv(w) && Enabled(w, a)
    ensures PortsOk(Step(w, a))
  {
    match a
    case Connect(c, ip) => SameHoldersKeepPorts(w, Step(w, a));
    case Opener(t, o) =>
      if o.ChoosePort? {
        ChooseKeepsPorts(w, t, o.random);
      } else if o.Bind? {
        BindKeepsPorts(w, t, o.ok);
      } else {
        BeginKeepsPorts(w, t, o);
      }
    case Slot(c, s) => SlotKeepsPorts(w, c, s);
    case Listener(t, l) =>
      if l.ReleasePort? {
        ReleaseIsSafe(w, t);
      } else {
        ListenerKeepsPorts(w, t, l);
      }
    case Conn(k, m) => CallerKeepsPorts(w, k, m);
  }

  /** Every step of every machine keeps the invariant. */
  lemma StepKeepsInv(w: World, a: Action)
    requires Inv(w) && Enabled(w, a)
    ensures Inv(Step(w, a))
  {
    StepKeepsPorts(w, a);
    StepKeepsCallers(w, a);
    match a
    case Connect(c, ip) =>
    case Opener(t, o) => OpenerKeeps(w, t, o);
    case Slot(c, s) => SlotKeeps(w, c, s);
    case Listener(t, l) => ListenerKeeps(w, t, l);
    case Conn(k, m) => CallerKeeps(w, k, m);
  }

  lemma {:induction false} RunKeepsInv(w: World, actions: seq<Action>)
    requires Inv(w) && IsRun(w, actions)
    ensures Inv(After(w, actions))
    decreases |actions|
  {
    if actions != [] {
      StepKeepsInv(w, actions[0]);
      RunKeepsInv(Step(w, actions[0]), actions[1..]);
    }
  }

  // -------------------------------------------------- the main statements

  /** The states that some interleaving reaches from a server without
    * connections. The configurations are those for which ports come back
    * (PortPool.PortsComeBackExactly). */
  ghost predicate Reachable(w: World) {
    && (w.cfg.min >= 1 || w.cfg.max <= 0)
    && exists actions :: ReachedBy(w, actions)
  }

  ghost predicate ReachedBy(w: World, actions: seq<Action>) {
    IsRun(Initial(w.cfg, w.addressCheck), actions) && After(Initial(w.cfg, w.addressCheck), actions) == w
  }

  lemma ReachableIsInv(w: World)
    requires Reachable(w)
    ensures Inv(w)
  {
    var actions :| ReachedBy(w, actions);
    RunKeepsInv(Initial(w.cfg, w.addressCheck), actions);
  }

  /** The pool ports held by openers that are about to listen on them. */
  function Tried(w: World): set<int> {
    set t | t in w.transfers && HoldsPort(w.transfers[t]) && w.transfers[t].opening.Binding? :: w.transfers[t].port
  }

  /** The transfers whose listener goroutine is unfinished and holds a pool port. */
  function Listeners(w: World): set<nat> {
    set t | t in w.transfers && HoldsPort(w.transfers[t]) && !w.transfers[t].opening.Binding?
  }

  function PortsOf(w: World, ts: set<nat>): set<int>
    requires ts <= w.transfers.Keys
  {
    set t | t in ts :: w.transfers[t].port
  }

  function Owned(w: World): set<int> {
    PortsOf(w, Listeners(w))
  }

  lemma TriedAndOwnedAreHolders(w: World, p: int)
    ensures p in Tried(w) + Owned(w) <==> exists t :: Holder(w, t, p)
  {
    if t :| Holder(w, t, p) {
      assert w.transfers[t].opening.Binding? || t in Listeners(w);
    }
    if p in Tried(w) {
      var t :| t in w.transfers && HoldsPort(w.transfers[t]) && w.transfers[t].opening.Binding?
               && w.transfers[t].port == p;
      assert Holder(w, t, p);
    }
    if p in Owned(w) {
      var t :| t in Listeners(w) && w.transfers[t].port == p;
      assert Holder(w, t, p);
    }
  }

  lemma TriedIsNotOwned(w: World)
    requires PortsOk(w)
    ensures Tried(w) !! Owned(w)
  {
    forall p | p in Tried(w) ensures p !in Owned(w) {
      var t :| t in w.transfers && HoldsPort(w.transfers[t]) && w.transfers[t].opening.Binding?
               && w.transfers[t].port == p;
      assert Holder(w, t, p);
      if p in Owned(w) {
        var u :| u in Listeners(w) && w.transfers[u].port == p;
        assert Holder(w, u, p);
      }
    }
  }

  /** In every interleaving each pool port is exactly one of: free, being tried
    * by an opener, owned by a listener goroutine, retired. */
  lemma EveryPortHasOneState(w: World)
    requires Reachable(w)
    ensures Shaped(w.cfg, w.pool)
    ensures Free(w.cfg, w.pool) + Tried(w) + Owned(w) + w.retired == w.cfg.Range()
    ensures Free(w.cfg, w.pool) !! Tried(w) !! Owned(w) !! w.retired
  {
    ReachableIsInv(w);
    HeldPortsAreAccountedFor(w);
    PortsAreConserved(w.cfg, w.pool);
    TriedIsNotOwned(w);
    FourParts(w.cfg.Range(), Free(w.cfg, w.pool), Held(w.cfg, w.pool), Tried(w), Owned(w), w.retired);
  }

  lemma FourParts<T>(all: set<T>, free: set<T>, held: set<T>, tried: set<T>, owned: set<T>, retired: set<T>)
    requires free !! held && free + held == all
    requires tried + owned == held - retired && retired <= held && tried !! owned
    ensures free + tried + owned + retired == all
    ensures free !! tried !! owned !! retired
  {
    assert forall p :: p in tried || p in owned ==> p in tried + owned;
  }

  lemma HeldPortsAreAccountedFor(w: World)
    requires PortsOk(w)
    ensures Tried(w) + Owned(w) == Held(w.cfg, w.pool) - w.retired
    ensures w.retired <= Held(w.cfg, w.pool)
  {
    forall p ensures p in Tried(w) + Owned(w) <==> p in Held(w.cfg, w.pool) - w.retired {
      TriedAndOwnedAreHolders(w, p);
    }
  }

  lemma {:induction false} InjectiveImageSize(w: World, ts: set<nat>)
    requires ts <= w.transfers.Keys
    requires forall t, u :: t in ts && u in ts && w.transfers[t].port == w.transfers[u].port ==> t == u
    ensures |PortsOf(w, ts)| == |ts|
    decreases |ts|
  {
    if ts != {} {
      var t :| t in ts;
      InjectiveImageSize(w, ts - {t});
      assert PortsOf(w, ts) == PortsOf(w, ts - {t}) + {w.transfers[t].port};
    } else {
      assert PortsOf(w, ts) == {};
    }
  }

  /** Hence the counts are conserved, and the owned ports are as many as the
    * unfinished listener goroutines. */
  lemma PortCountsAreConserved(w: World)
    requires Reachable(w)
    ensures Shaped(w.cfg, w.pool)
    ensures |Free(w.cfg, w.pool)| + |Tried(w)| + |Listeners(w)| + |w.retired| == |w.cfg.Range()|
  {
    EveryPortHasOneState(w);
    ReachableIsInv(w);
    forall t, u | t in Listeners(w) && u in Listeners(w) && w.transfers[t].port == w.transfers[u].port ensures t == u {
      assert Holder(w, t, w.transfers[t].port) && Holder(w, u, w.transfers[t].port);
    }
    InjectiveImageSize(w, Listeners(w));
    var three := Free(w.cfg, w.pool) + Tried(w) + Owned(w);
    assert |three + w.retired| == |three| + |w.retired|;
    assert three == Free(w.cfg, w.pool) + Tried(w) + Owned(w);
  }

  /** When a listener goroutine gives its port back the pool holds the port, for
    * nobody else, and the release frees exactly that port. */
  lemma ReleaseFreesItsPort(w: World, t: nat)
    requires Reachable(w) && ListenerEnabled(w, t, ReleasePort) && w.transfers[t].port != 0
    ensures var port, w' := w.transfers[t].port, ListenerNext(w, t, ReleasePort);
            && port in Held(w.cfg, w.pool)
            && Release(w.cfg, w.pool, port).1
            && Shaped(w.cfg, w'.pool)
            && Free(w.cfg, w'.pool) == Free(w.cfg, w.pool) + {port}
    ensures forall u :: Holder(w, u, w.transfers[t].port) ==> u == t
  {
    ReachableIsInv(w);
    ReleaseFrees(w, t);
    assert Holder(w, t, w.transfers[t].port);
  }

  lemma ReleaseFrees(w: World, t: nat)
    requires Inv(w) && ListenerEnabled(w, t, ReleasePort) && w.transfers[t].port != 0
    ensures var port, w' := w.transfers[t].port, ListenerNext(w, t, ReleasePort);
            && port in Held(w.cfg, w.pool)
            && Release(w.cfg, w.pool, port).1
            && Shaped(w.cfg, w'.pool)
            && Free(w.cfg, w'.pool) == Free(w.cfg, w.pool) + {port}
  {
    assert Holder(w, t, w.transfers[t].port);
    ReleaseLaw(w.cfg, w.pool, w.transfers[t].port);
  }

  lemma FinishedStays(w: World, a: Action, t: nat)
    requires Inv(w) && Enabled(w, a) && t in w.transfers && w.transfers[t].listening.Finished?
    ensures t in Step(w, a).transfers && Step(w, a).transfers[t].listening.Finished?
    ensures a != Listener(t, ReleasePort)
  {
    assert MachineOk(w.addressCheck, w.controls[w.transfers[t].control].ip, w.transfers[t]);
    match a
    case Connect(_, _) =>
    case Opener(u, o) => OpenerLeaves(w, u, o, t);
    case Slot(c, s) => SlotLeaves(w, c, s, t);
    case Listener(u, l) => ListenerLeaves(w, u, l, t);
    case Conn(k, m) => CallerLeaves(w, k, m, t);
  }

  function Releases(actions: seq<Action>, t: nat): nat {
    if actions == [] then 0
    else (if actions[0] == Listener(t, ReleasePort) then 1 else 0) + Releases(actions[1..], t)
  }

  /** In any run a transfer releases its port at most once. */
  lemma {:induction false} OneReleasePerTransfer(w: World, actions: seq<Action>, t: nat)
    requires Inv(w) && IsRun(w, actions)
    ensures Releases(actions, t) <= if t in w.transfers && w.transfers[t].listening.Finished? then 0 else 1
    decreases |actions|
  {
    if actions != [] {
      StepKeepsInv(w, actions[0]);
      OneReleasePerTransfer(Step(w, actions[0]), actions[1..], t);
      if t in w.transfers && w.transfers[t].listening.Finished? {
        FinishedStays(w, actions[0], t);
      }
    }
  }

  /** No two listeners are open on one pool port: the listener is closed before
    * its port is given back. */
  lemma OpenListenersHaveTheirOwnPorts(w: World, t: nat, u: nat)
    requires Reachable(w)
    requires t in w.transfers && u in w.transfers && t != u
    requires w.transfers[t].listenerOpen && w.transfers[u].listenerOpen
    ensures w.transfers[t].port == w.transfers[u].port ==> w.transfers[t].port == 0
    ensures w.transfers[t].port != 0 ==> Shaped(w.cfg, w.pool) && w.transfers[t].port !in Free(w.cfg, w.pool)
  {
    ReachableIsInv(w);
    if w.transfers[t].port != 0 {
      assert Holder(w, t, w.transfers[t].port);
    }
    if w.transfers[u].port != 0 {
      assert Holder(w, u, w.transfers[u].port);
    }
  }

  /** The slot of a control connection holds the only installed transfer that
    * has not been closed yet. */
  lemma SlotHoldsTheUnclosedTransfer(w: World, t: nat)
    requires Reachable(w) && t in w.transfers
    requires w.transfers[t].opening.Current? || w.transfers[t].opening.Replaced?
    ensures w.transfers[t].signals <= 1
    ensures w.transfers[t].signals == 0 ==>
              w.transfers[t].control in w.controls && w.controls[w.transfers[t].control].slot == Some(t)
  {
    ReachableIsInv(w);
    assert SlotOk(w.controls[w.transfers[t].control], t, w.transfers[t]);
  }

  /** Close closes the channel `closed` when it has never been closed before:
    * the close in `Close` cannot panic. */
  lemma CloseNeverPanics(w: World, c: nat)
    requires Reachable(w) && SlotEnabled(w, c, Replace) && w.controls[c].slot.Some?
    requires
      || w.controls[c].lock.stage.CloseSignal?
      || (w.controls[c].lock.stage.CloseData? && !w.transfers[w.controls[c].slot.value].passive)
    ensures w.transfers[w.controls[c].slot.value].signals == 0
    ensures SlotNext(w, c, Replace).transfers[w.controls[c].slot.value].signals == 1
  {
    ReachableIsInv(w);
    var t := w.controls[c].slot.value;
    assert ControlOk(w.transfers, c, w.controls[c]);
    assert SlotOk(w.controls[c], t, w.transfers[t]);
  }

  /** The listener goroutine closes its channel once, and never sends on it
    * afterwards; at most one connection is handed out, and its peer passed the
    * address check. */
  lemma OneCheckedConnection(w: World, t: nat)
    requires Reachable(w) && t in w.transfers
    ensures w.transfers[t].channelCloses <= 1
    ensures w.transfers[t].channelCloses > 0 ==> forall k :: !ListenerEnabled(w, t, Deliver(k))
    ensures w.transfers[t].channelCloses > 0 ==> !ListenerEnabled(w, t, CloseChannel)
    ensures |w.transfers[t].handed| <= 1
    ensures w.transfers[t].control in w.controls
    ensures w.addressCheck ==> forall peer :: peer in w.transfers[t].handed ==>
              peer.ip.Some? && peer.ip == w.controls[w.transfers[t].control].ip
  {
    ReachableIsInv(w);
    assert MachineOk(w.addressCheck, w.controls[w.transfers[t].control].ip, w.transfers[t]);
  }

  /** The address that the check compares with is the one with which the control
    * connection was made. */
  lemma {:induction false} AddressIsThePeers(w: World, actions: seq<Action>, c: nat)
    requires IsRun(w, actions) && c in After(w, actions).controls
    ensures var ip := After(w, actions).controls[c].ip;
            Connect(c, ip) in actions || (c in w.controls && w.controls[c].ip == ip)
    ensures After(w, actions).addressCheck == w.addressCheck
    decreases |actions|
  {
    if actions != [] {
      AddressIsThePeers(Step(w, actions[0]), actions[1..], c);
      assert actions == [actions[0]] + actions[1..];
      StepKeepsAddress(w, actions[0], c);
    }
  }

  lemma StepKeepsAddress(w: World, a: Action, c: nat)
    requires Enabled(w, a)
    ensures Step(w, a).addressCheck == w.addressCheck
    ensures c in Step(w, a).controls ==>
              || a == Connect(c, Step(w, a).controls[c].ip)
              || (c in w.controls && w.controls[c].ip == Step(w, a).controls[c].ip)
  {
  }

  /** What comes of one accept: a temporary error is retried, a permanent one is
    * offered as an error, and a connection is offered if the check is off or its
    * peer has the address of the control connection's peer; other connections are
    * skipped. */
  lemma AcceptExactly(w: World, t: nat, got: Accepted)
    requires ListenerEnabled(w, t, Accept(got))
    ensures var ip := w.controls[w.transfers[t].control].ip;
            var after := ListenerNext(w, t, Accept(got)).transfers[t].listening;
            match got
            case Temporary => after == Accepting
            case Permanent => after == Offering(None)
            case Connection(peer) =>
              after == if !w.addressCheck || (peer.ip.Some? && peer.ip == ip) then Offering(Some(peer)) else Accepting
    ensures ListenerNext(w, t, Accept(got)).transfers[t].handed == w.transfers[t].handed
  {
  }

  // ------------------------------------------- an offer is not given up early

  /** The listener goroutine of `t` is past its offer. */
  predicate IsPast(w: World, t: nat) {
    && t in w.transfers
    && var l := w.transfers[t].listening;
    l.ClosingChannel? || l.ClosingListener? || l.Releasing? || l.Finished?
  }

  /** Close has closed the channel `closed` of `t`. */
  predicate IsSignalled(w: World, t: nat) { t in w.transfers && w.transfers[t].signals > 0 }

  predicate IsDelivery(a: Action, t: nat) { a.Listener? && a.t == t && a.listen.Deliver? }

  function Deliveries(actions: seq<Action>, t: nat): nat {
    if actions == [] then 0 else (if IsDelivery(actions[0], t) then 1 else 0) + Deliveries(actions[1..], t)
  }

  /** In every run a goroutine delivers at most once, a connection or an error, and
    * it gets past its offer without a delivery only if Close has signalled it. */
  lemma {:induction false} OfferIsDelivered(w: World, actions: seq<Action>, t: nat)
    requires Inv(w) && IsRun(w, actions)
    ensures Deliveries(actions, t) <= if IsPast(w, t) then 0 else 1
    ensures IsPast(After(w, actions), t) && !IsSignalled(After(w, actions), t) ==>
              Deliveries(actions, t) == if IsPast(w, t) then 0 else 1
    decreases |actions|
  {
    if actions != [] {
      StepKeepsInv(w, actions[0]);
      OfferStep(w, actions[0], t);
      OfferIsDelivered(Step(w, actions[0]), actions[1..], t);
      if IsSignalled(Step(w, actions[0]), t) { SignalStays(Step(w, actions[0]), actions[1..], t); }
    }
  }

  lemma {:induction false} SignalStays(w: World, actions: seq<Action>, t: nat)
    requires IsRun(w, actions) && IsSignalled(w, t) && Inv(w)
    ensures IsSignalled(After(w, actions), t)
    decreases |actions|
  {
    if actions != [] {
      StepKeepsInv(w, actions[0]);
      OfferStep(w, actions[0], t);
      SignalStays(Step(w, actions[0]), actions[1..], t);
    }
  }

  lemma OfferStep(w: World, a: Action, t: nat)
    requires Inv(w) && Enabled(w, a)
    ensures IsPast(Step(w, a), t) <==> IsPast(w, t) || IsDelivery(a, t) || a == Listener(t, Cancel)
    ensures IsDelivery(a, t) ==> !IsPast(w, t)
    ensures a == Listener(t, Cancel) ==> IsSignalled(w, t)
    ensures IsSignalled(w, t) ==> IsSignalled(Step(w, a), t)
  {
    match a
    case Connect(_, _) =>
    case Opener(u, o) => OpenerKeepsOffer(w, u, o, t);
    case Slot(c, s) => SlotKeepsOffer(w, c, s, t);
    case Listener(u, l) => ListenerMovesOffer(w, u, l, t);
    case Conn(k, m) => if t in w.transfers { CallerLeaves(w, k, m, t); }
  }

  lemma OpenerKeepsOffer(w: World, u: nat, o: OpenerStep, t: nat)
    requires MachinesOk(w) && OpenerEnabled(w, u, o)
    ensures IsPast(OpenerNext(w, u, o), t) <==> IsPast(w, t)
    ensures IsSignalled(OpenerNext(w, u, o), t) <==> IsSignalled(w, t)
  {
    if u in w.transfers { assert MachineOk(w.addressCheck, w.controls[w.transfers[u].control].ip, w.transfers[u]); }
  }

  lemma SlotKeepsOffer(w: World, c: nat, s: SlotStep, t: nat)
    requires SlotEnabled(w, c, s)
    ensures IsPast(SlotNext(w, c, s), t) <==> IsPast(w, t)
    ensures IsSignalled(w, t) ==> IsSignalled(SlotNext(w, c, s), t)
  {
  }

  lemma ListenerMovesOffer(w: World, u: nat, l: ListenerStep, t: nat)
    requires ListenerEnabled(w, u, l)
    ensures var w' := ListenerNext(w, u, l);
            && (IsPast(w', t) <==> IsPast(w, t) || (u == t && (l.Deliver? || l.Cancel?)))
            && (IsSignalled(w', t) <==> IsSignalled(w, t))
            && (u == t && l.Deliver? ==> !IsPast(w, t))
            && (u == t && l.Cancel? ==> IsSignalled(w, t))
  {
  }

  /** At most one call of Conn on a transfer gets a connection, and it is one
    * that passed the address check. */
  lemma OneCallerGetsTheConnection(w: World, j: nat, k: nat)
    requires Reachable(w) && j in w.callers && k in w.callers && w.callers[j].transfer == w.callers[k].transfer
    requires HasConnection(w.callers[j]) && HasConnection(w.callers[k])
    ensures j == k
    ensures w.callers[k].transfer in w.transfers && w.transfers[w.callers[k].transfer].control in w.controls
    ensures w.callers[k].Answered? ==>
              var x := w.transfers[w.callers[k].transfer];
              && x.handed == [w.callers[k].result.value]
              && (w.addressCheck ==> w.callers[k].result.value.ip.Some? &&
                                     w.callers[k].result.value.ip == w.controls[x.control].ip)
  {
    ReachableIsInv(w);
    assert CallerOk(w.transfers, w.callers[k]);
    assert HasConnectionOn(w, j, k);
    assert |w.transfers[w.callers[k].transfer].handed| <= 1;
    OneCheckedConnection(w, w.callers[k].transfer);
  }

  // ------------------------------------------- no connection gets lost in Conn

  /** Caller `k` has the connection `peer` of transfer `t`, which t.conn holds as
    * soon as the call has answered. */
  predicate HasIt(w: World, t: nat, k: nat, peer: Peer) {
    && t in w.transfers && k in w.callers && w.callers[k].transfer == t
    && match w.callers[k]
       case Receiving(_) => false
       case Received(_, p) => p == peer
       case Answered(_, r) => r == Some(peer) && w.transfers[t].kept == Some(peer)
  }

  ghost predicate NothingLost(w: World) {
    && (forall t, peer :: WasHanded(w, t, peer) ==> exists k :: HasIt(w, t, k, peer))
    && (forall k :: k in w.callers && HasConnection(w.callers[k]) ==>
          exists peer :: HasIt(w, w.callers[k].transfer, k, peer))
  }

  predicate WasHanded(w: World, t: nat, peer: Peer) { t in w.transfers && peer in w.transfers[t].handed }

  lemma StillHasIt(w: World, a: Action, t: nat, k: nat, peer: Peer)
    requires Inv(w) && Enabled(w, a) && HasIt(w, t, k, peer)
    ensures HasIt(Step(w, a), t, k, peer)
  {
    match a
    case Connect(_, _) =>
    case Opener(u, o) => OpenerKeepsKept(w, u, o, t);
    case Slot(c, s) => SlotKeepsKept(w, c, s, t);
    case Listener(u, l) => ListenerKeepsKept(w, u, l, t);
    case Conn(j, m) => CallerKeepsIt(w, j, m, t, k, peer);
  }

  lemma CallerKeepsIt(w: World, j: nat, m: CallerStep, t: nat, k: nat, peer: Peer)
    requires CallersOk(w) && CallerEnabled(w, j, m) && HasIt(w, t, k, peer)
    ensures HasIt(CallerNext(w, j, m), t, k, peer)
  {
    if j != k && m.Keep? && w.callers[j].transfer == t { assert HasConnectionOn(w, j, k); }
  }

  lemma OpenerKeepsKept(w: World, u: nat, o: OpenerStep, t: nat)
    requires OpenerEnabled(w, u, o) && t in w.transfers
    ensures t in OpenerNext(w, u, o).transfers && OpenerNext(w, u, o).transfers[t].kept == w.transfers[t].kept
    ensures OpenerNext(w, u, o).callers == w.callers
  {
  }

  lemma SlotKeepsKept(w: World, c: nat, s: SlotStep, t: nat)
    requires SlotEnabled(w, c, s) && t in w.transfers
    ensures t in SlotNext(w, c, s).transfers && SlotNext(w, c, s).transfers[t].kept == w.transfers[t].kept
    ensures SlotNext(w, c, s).callers == w.callers
  {
  }

  lemma ListenerKeepsKept(w: World, u: nat, l: ListenerStep, t: nat)
    requires ListenerEnabled(w, u, l) && t in w.transfers
    ensures t in ListenerNext(w, u, l).transfers && ListenerNext(w, u, l).transfers[t].kept == w.transfers[t].kept
    ensures forall k :: k in w.callers && !w.callers[k].Receiving? ==>
              k in ListenerNext(w, u, l).callers && ListenerNext(w, u, l).callers[k] == w.callers[k]
  {
  }

  /** A connection handed out by a step has its receiver, and a caller that gets
    * one has it. */
  lemma NewHandIsHeld(w: World, a: Action, t: nat)
    requires Inv(w) && Enabled(w, a) && t in Step(w, a).transfers
    requires t !in w.transfers || Step(w, a).transfers[t].handed != w.transfers[t].handed
    ensures Step(w, a).transfers[t].handed != [] ==>
              && a.Listener? && a.t == t && a.listen.Deliver?
              && t in w.transfers && w.transfers[t].handed == []
              && exists peer :: Step(w, a).transfers[t].handed == [peer] && HasIt(Step(w, a), t, a.listen.k, peer)
  {
    match a
    case Connect(_, _) =>
    case Opener(u, o) => if t in w.transfers { OpenerLeaves(w, u, o, t); } else { OpenerHandsNothing(w, u, o, t); }
    case Slot(c, s) =>
      SlotKeepsOpeners(w, c, s);
      SlotLeaves(w, c, s, t);
    case Listener(u, l) =>
      assert MachineOk(w.addressCheck, w.controls[w.transfers[t].control].ip, w.transfers[t]);
      ListenerHands(w, u, l, t);
    case Conn(k, m) => CallerLeaves(w, k, m, t);
  }

  lemma ListenerHands(w: World, u: nat, l: ListenerStep, t: nat)
    requires ListenerEnabled(w, u, l) && t in w.transfers
    requires w.transfers[t].listening.Offering? ==> w.transfers[t].handed == []
    ensures var w' := ListenerNext(w, u, l);
            && t in w'.transfers
            && (w'.transfers[t].handed != w.transfers[t].handed ==>
                  && u == t && l.Deliver? && w.transfers[t].handed == []
                  && exists peer :: w'.transfers[t].handed == [peer] && HasIt(w', t, l.k, peer))
  {
    if u == t && l.Deliver? && w.transfers[t].listening.peer.Some? {
      var peer := w.transfers[t].listening.peer.value;
      assert HasIt(ListenerNext(w, u, l), t, l.k, peer) && [] + [peer] == [peer];
    }
  }

  lemma OpenerHandsNothing(w: World, u: nat, o: OpenerStep, t: nat)
    requires OpenerEnabled(w, u, o) && t !in w.transfers && t in OpenerNext(w, u, o).transfers
    ensures OpenerNext(w, u, o).transfers[t].handed == []
  {
  }

  lemma NewConnectionIsHeld(w: World, a: Action, k: nat)
    requires Inv(w) && Enabled(w, a) && k in Step(w, a).callers && HasConnection(Step(w, a).callers[k])
    requires !(k in w.callers && HasConnection(w.callers[k]))
    ensures exists peer :: HasIt(Step(w, a), Step(w, a).callers[k].transfer, k, peer)
  {
    if a.Listener? && a.listen == Deliver(k) {
      assert HasIt(Step(w, a), a.t, k, w.transfers[a.t].listening.peer.value);
    } else if !a.Conn? && !(a.Listener? && a.listen.Deliver?) {
      OtherStepsLeaveCallers(w, a);
    }
  }

  lemma HandedIsHeld(w: World, a: Action, t: nat, peer: Peer)
    requires Inv(w) && Enabled(w, a) && WasHanded(Step(w, a), t, peer)
    requires WasHanded(w, t, peer) ==> exists k :: HasIt(w, t, k, peer)
    ensures exists k :: HasIt(Step(w, a), t, k, peer)
  {
    if WasHanded(w, t, peer) {
      var k :| HasIt(w, t, k, peer);
      StillHasIt(w, a, t, k, peer);
    } else {
      NewHandIsHeld(w, a, t);
      var p :| Step(w, a).transfers[t].handed == [p] && HasIt(Step(w, a), t, a.listen.k, p);
    }
  }

  lemma StepLosesNothing(w: World, a: Action)
    requires Inv(w) && NothingLost(w) && Enabled(w, a)
    ensures NothingLost(Step(w, a))
  {
    var w' := Step(w, a);
    forall t, peer | WasHanded(w', t, peer) ensures exists k :: HasIt(w', t, k, peer) {
      HandedIsHeld(w, a, t, peer);
    }
    forall k | k in w'.callers && HasConnection(w'.callers[k])
      ensures exists peer :: HasIt(w', w'.callers[k].transfer, k, peer)
    {
      if k in w.callers && HasConnection(w.callers[k]) {
        var peer :| HasIt(w, w.callers[k].transfer, k, peer);
        StillHasIt(w, a, w.callers[k].transfer, k, peer);
      } else {
        NewConnectionIsHeld(w, a, k);
      }
    }
  }

  lemma {:induction false} RunLosesNothing(w: World, actions: seq<Action>)
    requires Inv(w) && NothingLost(w) && IsRun(w, actions)
    ensures NothingLost(After(w, actions))
    decreases |actions|
  {
    if actions != [] {
      StepKeepsInv(w, actions[0]);
      StepLosesNothing(w, actions[0]);
      RunLosesNothing(Step(w, actions[0]), actions[1..]);
    }
  }

  /** In every run a connection that was handed out is with exactly one caller of
    * Conn, and a call that has returned a connection has left it in t.conn. */
  lemma HandedConnectionIsHeldOnce(w: World, t: nat)
    requires Reachable(w) && t in w.transfers && w.transfers[t].handed != []
    ensures exists k :: HasIt(w, t, k, w.transfers[t].handed[0]) &&
              forall j :: j in w.callers && HasConnection(w.callers[j]) && w.callers[j].transfer == t ==> j == k
  {
    ReachableIsInv(w);
    var actions :| ReachedBy(w, actions);
    RunLosesNothing(Initial(w.cfg, w.addressCheck), actions);
    assert WasHanded(w, t, w.transfers[t].handed[0]);
    var k :| HasIt(w, t, k, w.transfers[t].handed[0]);
    forall j | j in w.callers && HasConnection(w.callers[j]) && w.callers[j].transfer == t ensures j == k {
      assert HasConnectionOn(w, j, k);
    }
  }

  // ------------------------------------------------ how often a listen is tried

  /** The failed listens of transfer `t`. */
  function FailedBinds(actions: seq<Action>, t: nat): nat {
    if actions == [] then 0
    else (if actions[0] == Opener(t, Bind(false)) then 1 else 0) + FailedBinds(actions[1..], t)
  }

  /** An opener goes on trying until its sixth listen has failed, and gives up then,
    * or when no port can be chosen. */
  lemma FailedBindExactly(w: World, t: nat)
    requires OpenerEnabled(w, t, Bind(false))
    ensures var n, after := w.transfers[t].opening.attempt, OpenerNext(w, t, Bind(false)).transfers[t].opening;
            after == if n < 5 then Choosing(n + 1) else Abandoned
    ensures OpenerNext(w, t, Bind(true)).transfers[t].opening == Ready
  {
  }

  /** What the opening of `t` says of the failed listens that were counted. */
  predicate CountedBinds(w: World, t: nat, failed: nat) {
    t in w.transfers ==>
      match w.transfers[t].opening
      case Choosing(n) => n == failed && n <= 5
      case Binding(n) => n == failed && n <= 5
      case _ => failed <= 6
  }

  predicate StillOpening(x: Transfer) { x.opening.Choosing? || x.opening.Binding? }

  lemma OtherStepsLeaveOpening(w: World, a: Action, t: nat)
    requires MachinesOk(w) && SlotsOk(w) && Enabled(w, a) && t in w.transfers && !(a.Opener? && a.t == t)
    ensures t in Step(w, a).transfers
    ensures var x, x' := w.transfers[t], Step(w, a).transfers[t];
            x'.opening == x.opening || (!StillOpening(x) && !StillOpening(x'))
  {
    match a
    case Connect(_, _) =>
    case Opener(u, o) => OtherOpenerLeavesOpening(w, u, o, t);
    case Slot(c, s) =>
      SlotNextAt(w, c, s, t);
      assert SlotOk(w.controls[w.transfers[t].control], t, w.transfers[t]);
    case Listener(u, l) => ListenerLeavesOpening(w, u, l, t);
    case Conn(k, m) => CallerLeaves(w, k, m, t);
  }

  lemma OtherOpenerLeavesOpening(w: World, u: nat, o: OpenerStep, t: nat)
    requires OpenerEnabled(w, u, o) && t in w.transfers && u != t
    ensures t in OpenerNext(w, u, o).transfers && OpenerNext(w, u, o).transfers[t].opening == w.transfers[t].opening
  {
  }

  lemma ListenerLeavesOpening(w: World, u: nat, l: ListenerStep, t: nat)
    requires ListenerEnabled(w, u, l) && t in w.transfers
    ensures t in ListenerNext(w, u, l).transfers && ListenerNext(w, u, l).transfers[t].opening == w.transfers[t].opening
  {
  }

  lemma OwnOpenerCounts(w: World, t: nat, o: OpenerStep, failed: nat)
    requires OpenerEnabled(w, t, o) && CountedBinds(w, t, failed) && (t !in w.transfers ==> failed == 0)
    ensures CountedBinds(OpenerNext(w, t, o), t, if o == Bind(false) then failed + 1 else failed)
  {
  }

  lemma NobodyElseBegins(w: World, a: Action, t: nat)
    requires Enabled(w, a) && t !in w.transfers && !(a.Opener? && a.t == t)
    ensures t !in Step(w, a).transfers
  {
    if a.Slot? { SlotKeepsOpeners(w, a.c, a.slot); }
  }

  lemma StepCountsBinds(w: World, a: Action, t: nat, failed: nat)
    requires MachinesOk(w) && SlotsOk(w) && Enabled(w, a)
    requires CountedBinds(w, t, failed) && (t !in w.transfers ==> failed == 0)
    ensures var after := if a == Opener(t, Bind(false)) then failed + 1 else failed;
            CountedBinds(Step(w, a), t, after) && (t !in Step(w, a).transfers ==> after == 0)
  {
    if a.Opener? && a.t == t {
      OwnOpenerCounts(w, t, a.open, failed);
    } else if t in w.transfers {
      OtherStepsLeaveOpening(w, a, t);
    } else {
      NobodyElseBegins(w, a, t);
    }
  }

  lemma {:induction false} RunCountsBinds(w: World, actions: seq<Action>, t: nat, failed: nat)
    requires Inv(w) && IsRun(w, actions) && CountedBinds(w, t, failed) && (t !in w.transfers ==> failed == 0)
    ensures CountedBinds(After(w, actions), t, failed + FailedBinds(actions, t))
    decreases |actions|
  {
    if actions != [] {
      var after := if actions[0] == Opener(t, Bind(false)) then failed + 1 else failed;
      StepKeepsInv(w, actions[0]);
      StepCountsBinds(w, actions[0], t, failed);
      RunCountsBinds(Step(w, actions[0]), actions[1..], t, after);
    }
  }

  /** So in every run an opener tries at most six ports. */
  lemma AtMostSixListensFail(cfg: Config, check: bool, actions: seq<Action>, t: nat)
    requires (cfg.min >= 1 || cfg.max <= 0) && IsRun(Initial(cfg, check), actions)
    ensures t in After(Initial(cfg, check), actions).transfers ==> FailedBinds(actions, t) <= 6
  {
    RunCountsBinds(Initial(cfg, check), actions, t, 0);
  }

  lemma StepKeepsRetired(w: World, a: Action)
    requires Enabled(w, a)
    ensures w.retired <= Step(w, a).retired && Step(w, a).cfg == w.cfg
  {
  }

  /** The ports that step `a` takes out of the pool for good. */
  function RetiredBy(w: World, a: Action): set<int>
    requires Enabled(w, a)
  {
    if a.Opener? && a.open == Bind(false) && w.transfers[a.t].port != 0 then {w.transfers[a.t].port} else {}
  }

  /** A failed listen retires the pool port that was tried, and nothing else
    * retires a port. */
  lemma FailedListenRetires(w: World, a: Action)
    requires Reachable(w) && Enabled(w, a)
    ensures Step(w, a).retired == w.retired + RetiredBy(w, a)
    ensures RetiredBy(w, a) <= Tried(w) && RetiredBy(w, a) !! w.retired
  {
    RetiredChanges(w, a);
    ReachableIsInv(w);
    if RetiredBy(w, a) != {} { BindingHolds(w, a.t); }
  }

  lemma RetiredChanges(w: World, a: Action)
    requires Enabled(w, a)
    ensures Step(w, a).retired == w.retired + RetiredBy(w, a)
  {
  }

  lemma BindingHolds(w: World, t: nat)
    requires PortsOk(w) && t in w.transfers && w.transfers[t].opening.Binding? && w.transfers[t].port != 0
    ensures w.transfers[t].port in Tried(w) && w.transfers[t].port !in w.retired
  {
    assert Holder(w, t, w.transfers[t].port);
  }

  /** It happens: with any configuration that has a port, one failed listen is
    * enough. */
  lemma OneFailedListen(cfg: Config, check: bool) returns (w: World, port: int)
    requires 1 <= cfg.min <= cfg.max && cfg.min <= 65535
    ensures Reachable(w) && w.cfg == cfg && w.retired == {port}
  {
    w := OneOpener(cfg, check);
    ChooseLaw(cfg, w.pool, 0);
    assert cfg.min in cfg.Range() && Free(cfg, w.pool) == cfg.Range();
    port := Choose(cfg, w.pool, 0).1.value;
    ReachableStep(w, Opener(0, ChoosePort(0))); w := Step(w, Opener(0, ChoosePort(0)));
    ReachableStep(w, Opener(0, Bind(false))); w := Step(w, Opener(0, Bind(false)));
  }

  lemma OneOpener(cfg: Config, check: bool) returns (w: World)
    requires 1 <= cfg.min <= cfg.max && cfg.min <= 65535
    ensures Reachable(w) && w.cfg == cfg && w.pool == Unmade && w.retired == {}
    ensures w.transfers == map[0 := NewTransfer(0, true, Choosing(0))]
  {
    w := Initial(cfg, check);
    assert ReachedBy(w, []);
    ReachableStep(w, Connect(0, None)); w := Step(w, Connect(0, None));
    ReachableStep(w, Opener(0, Begin(0))); w := Step(w, Opener(0, Begin(0)));
  }

  lemma ReachableStep(w: World, a: Action)
    requires Reachable(w) && Enabled(w, a)
    ensures Reachable(Step(w, a))
  {
    var actions :| ReachedBy(w, actions);
    StepKeepsConfig(w, a);
    RunThen(Initial(w.cfg, w.addressCheck), actions, a);
    assert ReachedBy(Step(w, a), actions + [a]);
  }

  lemma StepKeepsConfig(w: World, a: Action)
    requires Enabled(w, a)
    ensures Step(w, a).cfg == w.cfg && Step(w, a).addressCheck == w.addressCheck
  {
  }

  lemma {:induction false} RunThen(w: World, actions: seq<Action>, a: Action)
    requires IsRun(w, actions) && Enabled(After(w, actions), a)
    ensures IsRun(w, actions + [a]) && After(w, actions + [a]) == Step(After(w, actions), a)
    decreases |actions|
  {
    if actions == [] {
      assert actions + [a] == [a];
      assert IsRun(Step(w, a), []);
      assert [a][1..] == [];
    } else {
      assert (actions + [a])[1..] == actions[1..] + [a];
      RunThen(Step(w, actions[0]), actions[1..], a);
    }
  }

  /** A port whose listen failed is lost: in no later state is it free, so no
    * later choose returns it. */
  lemma {:induction false} RetiredPortNeverReturns(w: World, actions: seq<Action>, port: int)
    requires Inv(w) && port in w.retired && IsRun(w, actions)
    ensures var w' := After(w, actions);
            port in w'.retired && Shaped(w'.cfg, w'.pool) && port !in Free(w'.cfg, w'.pool)
    decreases |actions|
  {
    if actions != [] {
      StepKeepsInv(w, actions[0]);
      StepKeepsRetired(w, actions[0]);
      RetiredPortNeverReturns(Step(w, actions[0]), actions[1..], port);
    } else {
      PortsAreConserved(w.cfg, w.pool);
    }
  }

  // ---------------------------------------------------------- termination

  /** Close has run on transfer `t`: its signal is sent and its listener closed. */
  predicate Stopped(w: World, t: nat) {
    && t in w.transfers && w.transfers[t].signals > 0
    && !w.transfers[t].listenerOpen && !w.transfers[t].listening.NotStarted?
  }

  function Rank(x: Transfer): nat {
    match x.listening
    case NotStarted => 0
    case Accepting => 5
    case Offering(_) => 4
    case ClosingChannel => 3
    case ClosingListener => 2
    case Releasing => 1
    case Finished => 0
  }

  /** A listener goroutine whose transfer was closed can always move. */
  lemma StoppedListenerCanMove(w: World, t: nat) returns (l: ListenerStep)
    requires Reachable(w) && Stopped(w, t) && !w.transfers[t].listening.Finished?
    ensures ListenerEnabled(w, t, l)
  {
    ReachableIsInv(w);
    match w.transfers[t].listening
    case Accepting => l := Accept(Permanent);
    case Offering(_) => l := Cancel;
    case ClosingChannel => l := CloseChannel;
    case ClosingListener => l := CloseOwnListener;
    case Releasing => l := ReleasePort;
  }

  lemma OwnStepLowersRank(w: World, t: nat, l: ListenerStep)
    requires ListenerEnabled(w, t, l) && Stopped(w, t)
    ensures Stopped(ListenerNext(w, t, l), t)
    ensures Rank(ListenerNext(w, t, l).transfers[t]) < Rank(w.transfers[t])
  {
  }

  lemma OtherStepKeepsRank(w: World, a: Action, t: nat)
    requires Inv(w) && Enabled(w, a) && Stopped(w, t) && !(a.Listener? && a.t == t) && !a.Slot?
    ensures Stopped(Step(w, a), t)
    ensures Rank(Step(w, a).transfers[t]) == Rank(w.transfers[t])
  {
    assert MachineOk(w.addressCheck, w.controls[w.transfers[t].control].ip, w.transfers[t]);
    match a
    case Connect(_, _) =>
    case Opener(u, o) => OpenerLeaves(w, u, o, t);
    case Listener(u, l) => ListenerLeaves(w, u, l, t);
    case Conn(k, m) => CallerLeaves(w, k, m, t);
    case Slot(_, _) =>
  }

  /** Each of its steps brings it closer to its end, and no other step takes it
    * back or wakes it up. */
  lemma StoppedListenerGetsOn(w: World, a: Action, t: nat)
    requires Inv(w) && Enabled(w, a) && Stopped(w, t)
    ensures Stopped(Step(w, a), t)
    ensures a.Listener? && a.t == t ==> Rank(Step(w, a).transfers[t]) < Rank(w.transfers[t])
    ensures !(a.Listener? && a.t == t) ==> Rank(Step(w, a).transfers[t]) == Rank(w.transfers[t])
  {
    if a.Slot? {
      SlotNextAt(w, a.c, a.slot, t);
    } else if a.Listener? && a.t == t {
      OwnStepLowersRank(w, t, a.listen);
    } else {
      OtherStepKeepsRank(w, a, t);
    }
  }

  function OwnSteps(actions: seq<Action>, t: nat): nat {
    if actions == [] then 0
    else (if actions[0].Listener? && actions[0].t == t then 1 else 0) + OwnSteps(actions[1..], t)
  }

  /** So in any interleaving the goroutine takes at most as many further steps as
    * its rank says, and it has finished when it has taken them all. */
  lemma {:induction false} StoppedListenerFinishes(w: World, actions: seq<Action>, t: nat)
    requires Inv(w) && IsRun(w, actions) && Stopped(w, t)
    ensures Stopped(After(w, actions), t)
    ensures Rank(After(w, actions).transfers[t]) + OwnSteps(actions, t) <= Rank(w.transfers[t])
    ensures OwnSteps(actions, t) == Rank(w.transfers[t]) ==> After(w, actions).transfers[t].listening.Finished?
    decreases |actions|
  {
    if actions != [] {
      StepKeepsInv(w, actions[0]);
      StoppedListenerGetsOn(w, actions[0], t);
      StoppedListenerFinishes(Step(w, actions[0]), actions[1..], t);
    }
  }
}
