/** The session of one control connection (ftp/conn.go, ftp/command.go): logging
  * in, the working directory and the pending rename.
  *
  * The serve loop, the goroutines that RNTO starts and the callers that set the
  * shutdown flag are the steps of a transition system, in which the two reads of
  * the flag and the command are separate steps. The connection itself is class
  * ServerConn; its serve method is one run of that system.
  * The file system, the authorizer and the context answer as they please.
  */
module Session {
  import opened Wrappers
  import opened Paths

  // ------------------------------------------------- what a command meets

  datatype Verb =
    | User
    | Pass
    | Cwd
    | Cdup
    | Rnfr
    | Rnto
    | Quit
    | Reject // the HTTP methods
    | Other(requireParam: bool, requireAuth: bool) // touches no field of Fields
    | Unknown // no such command, or a nil entry of the table

  datatype Command = Command(verb: Verb, arg: string)

  /** A granted login; `fileSystem` is None when the server's own is to be used. */
  datatype Authorization = Authorization(id: nat, fileSystem: Option<nat>)

  datatype Authorizing = Granted(auth: Option<Authorization>) | Failed(authorizeFailed: bool)

  datatype Statting = NoEntry | NotDirectory | IsDirectory

  datatype Opening = Opened | NotExist | OtherError

  /** What the surroundings answer while one command executes; `expired` means
    * that the context ended the sleep of PASS, and `reader` is the reader that
    * Open returns when it returns one. */
  datatype Answers = Answers(authorizing: Authorizing, expired: bool, statting: Statting, opening: Opening, reader: nat)

  /** The fields of a connection that the modelled commands read or update. */
  datatype Fields = Fields(
    user: string,
    auth: Option<Authorization>,
    failCnt: nat,
    pwd: string,
    shuttingDown: bool,
    rmfr: string,
    rmfrReader: Option<nat>)

  /** One PASS: whether it was granted, the seconds slept, a cancelled sleep. */
  datatype Attempt = Attempt(user: string, grant: Option<Option<Authorization>>, slept: nat, cancelled: bool)

  /** What an RNTO goroutine does, on the file system of `login`. */
  datatype Rename = Rename(from: string, to: string, login: Authorization)

  datatype Effect =
    | Silent
    | Tried(attempt: Attempt)
    | Entered(dir: string)
    | Opens(path: string, login: Authorization)
    | Spawns(reader: nat, rename: Rename)

  datatype Done = Done(next: Fields, reply: Option<nat>, effect: Effect)

  function RequireParam(v: Verb): bool {
    match v
    case User => true
    case Pass => true
    case Cwd => true
    case Rnfr => true
    case Rnto => true
    case Other(requireParam, _) => requireParam
    case _ => false
  }

  function RequireAuth(v: Verb): bool {
    match v
    case Cwd => true
    case Cdup => true
    case Rnfr => true
    case Rnto => true
    case Other(_, requireAuth) => requireAuth
    case _ => false
  }

  predicate IsAnonymous(user: string) { user == "anonymous" || user == "ftp" }

  // ------------------------------------------- the commands on the fields

  function Answer(f: Fields, code: nat): Done { Done(f, Some(code), Silent) }

  function PassDone(f: Fields, a: Answers): Done {
    match a.authorizing
    case Granted(auth) =>
      Done(f.(failCnt := 0, auth := auth, pwd := "/"), Some(230), Tried(Attempt(f.user, Some(auth), 0, false)))
    case Failed(authorizeFailed) =>
      var sleeps := f.failCnt > 0 || !IsAnonymous(f.user);
      if sleeps && a.expired then
        Done(f.(failCnt := f.failCnt + 1, shuttingDown := true), None, Tried(Attempt(f.user, None, 0, true)))
      else
        Done(f.(failCnt := f.failCnt + 1, shuttingDown := f.shuttingDown || f.failCnt + 1 > 5),
             Some(if authorizeFailed then 530 else 500),
             Tried(Attempt(f.user, None, if sleeps then 5 else 0, false)))
  }

  function CwdDone(f: Fields, arg: string, a: Answers): Done {
    match a.statting
    case NoEntry => Answer(f, 431)
    case NotDirectory => Answer(f, 451)
    case IsDirectory =>
      var path := BuildPath(f.pwd, arg);
      Done(f.(pwd := path), Some(200), Entered(path))
  }

  function CdupDone(f: Fields): Done {
    if f.pwd == "" || f.pwd == "/" then Answer(f, 431) else Answer(f.(pwd := Dir(f.pwd)), 200)
  }

  function RnfrDone(f: Fields, arg: string, a: Answers): Done
    requires f.auth.Some?
  {
    if f.rmfr != "" || f.rmfrReader.Some? then Answer(f, 503)
    else match a.opening
      case NotExist => Answer(f, 431)
      case OtherError => Answer(f, 500)
      case Opened =>
        var path := BuildPath(f.pwd, arg);
        Done(f.(rmfr := path, rmfrReader := Some(a.reader)), Some(350), Opens(path, f.auth.value))
  }

  function RntoDone(f: Fields, arg: string): Done
    requires f.auth.Some?
  {
    if f.rmfr == "" || f.rmfrReader.None? then Answer(f, 503)
    else Done(f.(rmfr := "", rmfrReader := None), None,
              Spawns(f.rmfrReader.value, Rename(f.rmfr, BuildPath(f.pwd, arg), f.auth.value)))
  }

  /** execCommand; the reply of a command outside the model is left open (None). */
  function ExecDone(f: Fields, cmd: Command, a: Answers): Done {
    if cmd.verb.Unknown? then Answer(f, 500)
    else if RequireParam(cmd.verb) && cmd.arg == "" then Answer(f, 501)
    else if RequireAuth(cmd.verb) && f.auth.None? then Answer(f, 530)
    else match cmd.verb
      case User => Answer(f.(user := cmd.arg), 331)
      case Pass => PassDone(f, a)
      case Cwd => CwdDone(f, cmd.arg, a)
      case Cdup => CdupDone(f)
      case Rnfr => RnfrDone(f, cmd.arg, a)
      case Rnto => RntoDone(f, cmd.arg)
      case Quit => Answer(f.(shuttingDown := true), 221)
      case Reject => Done(f.(shuttingDown := true), None, Silent)
      case _ => Done(f, None, Silent)
  }

  const INITIAL := Fields("", None, 0, "", false, "", None)

  /** What each command asks for and which fields it may touch: a missing argument
    * or login refuses it without effect, USER stores its argument, QUIT and the HTTP
    * methods set the flag, and only PASS changes the login. */
  lemma CommandLaws(f: Fields, cmd: Command, a: Answers)
    ensures var d, v := ExecDone(f, cmd, a), cmd.verb;
            && (v.Unknown? ==> d == Done(f, Some(500), Silent))
            && (cmd.arg == "" && (v.User? || v.Pass? || v.Cwd? || v.Rnfr? || v.Rnto?) ==>
                  d == Done(f, Some(501), Silent))
            && (f.auth.None? && (v.Cdup? || (cmd.arg != "" && (v.Cwd? || v.Rnfr? || v.Rnto?))) ==>
                  d == Done(f, Some(530), Silent))
            && (v.Other? ==>
                  d == Done(f, if v.requireParam && cmd.arg == "" then Some(501)
                               else if v.requireAuth && f.auth.None? then Some(530) else None, Silent))
    ensures var d, v := ExecDone(f, cmd, a), cmd.verb;
            && d.next.user == (if v.User? && cmd.arg != "" then cmd.arg else f.user)
            && (v.Quit? || v.Reject? ==> d.next == f.(shuttingDown := true))
            && (!v.Pass? ==> d.next.auth == f.auth && d.next.failCnt == f.failCnt && !d.effect.Tried?)
            && (!v.Cwd? && !v.Cdup? && !v.Pass? ==> d.next.pwd == f.pwd)
            && (!v.Quit? && !v.Reject? && !v.Pass? ==> d.next.shuttingDown == f.shuttingDown)
  {
  }

  /** PASS on the authorizer's answer. */
  lemma PassLaws(f: Fields, cmd: Command, a: Answers)
    requires cmd.verb.Pass? && cmd.arg != ""
    ensures var d := ExecDone(f, cmd, a);
            && d.effect.Tried? && d.effect.attempt.user == f.user && d.next.user == f.user
            && d.effect.attempt.grant == (if a.authorizing.Granted? then Some(a.authorizing.auth) else None)
            && d.next.auth == (if a.authorizing.Granted? then a.authorizing.auth else f.auth)
            && d.next.pwd == (if a.authorizing.Granted? then "/" else f.pwd)
  {
  }

  // ---------------------------------------------------- a session's steps

  /** Where the serve loop is; each name says what comes next. */
  datatype Point =
    | Testing // the loop condition reads shuttingDown
    | Scanning
    | Rechecking(cmd: Command) // reads shuttingDown again
    | Executing(cmd: Command) // inside execCommand
    | Ended

  /** A file opened by RNFR, with the login of that moment; `at` is the number of
    * PASS commands before it. */
  datatype Reader = Reader(path: string, login: Authorization, at: nat)

  /** A goroutine of RNTO; `at` as above. */
  datatype Worker = Worker(rename: Rename, at: nat)

  datatype World = World(
    fields: Fields,
    point: Point,
    executed: nat, // the commands that execCommand has finished
    attempts: seq<Attempt>,
    seen: set<string>, // the directories entered by CWD
    readers: seq<Reader>,
    workers: map<nat, Worker>, // by the reader they hold
    closed: seq<nat>) // the readers closed, in order

  datatype Action =
    | Test
    | Scan(line: Option<Command>)
    | Recheck
    | Execute(answers: Answers)
    | SetFlag // Shutdown or Close of the connection
    | CreateReturns(reader: nat) // the file system's Create in an RNTO goroutine

  function ReaderList(r: Option<nat>): seq<nat> { if r.Some? then [r.value] else [] }

  /** The loop is left: the deferred function closes a pending reader. */
  function Leave(w: World): World {
    w.(point := Ended, closed := w.closed + ReaderList(w.fields.rmfrReader))
  }

  /** An RNTO goroutine ends: it closes its reader. */
  function Return(w: World, reader: nat): World {
    w.(workers := w.workers - {reader}, closed := w.closed + [reader])
  }

  function AttemptsAfter(attempts: seq<Attempt>, e: Effect): seq<Attempt> {
    if e.Tried? then attempts + [e.attempt] else attempts
  }

  function SeenAfter(seen: set<string>, e: Effect): set<string> {
    if e.Entered? then seen + {e.dir} else seen
  }

  function ReadersAfter(readers: seq<Reader>, e: Effect, at: nat): seq<Reader> {
    if e.Opens? then readers + [Reader(e.path, e.login, at)] else readers
  }

  function WorkersAfter(workers: map<nat, Worker>, e: Effect, at: nat): map<nat, Worker> {
    if e.Spawns? then workers[e.reader := Worker(e.rename, at)] else workers
  }

  function Executed(w: World, done: Done): World {
    World(done.next, Testing, w.executed + 1,
          AttemptsAfter(w.attempts, done.effect), SeenAfter(w.seen, done.effect),
          ReadersAfter(w.readers, done.effect, |w.attempts|), WorkersAfter(w.workers, done.effect, |w.attempts|),
          w.closed)
  }

  predicate Enabled(w: World, a: Action) {
    match a
    case Test => w.point.Testing?
    case Scan(_) => w.point.Scanning?
    case Recheck => w.point.Rechecking?
    case Execute(answers) => w.point.Executing? && answers.reader == |w.readers|
    case SetFlag => true
    case CreateReturns(reader) => reader in w.workers
  }

  function Step(w: World, a: Action): World
    requires Enabled(w, a)
  {
    match a
    case Test => if w.fields.shuttingDown then Leave(w) else w.(point := Scanning)
    case Scan(line) => if line.None? then Leave(w) else w.(point := Rechecking(line.value))
    case Recheck => if w.fields.shuttingDown then Leave(w) else w.(point := Executing(w.point.cmd))
    case Execute(answers) => Executed(w, ExecDone(w.fields, w.point.cmd, answers))
    case SetFlag => w.(fields := w.fields.(shuttingDown := true))
    case CreateReturns(reader) => Return(w, reader)
  }

  const START := World(INITIAL, Testing, 0, [], {}, [], map[], [])

  ghost predicate IsRun(w: World, actions: seq<Action>)
    decreases |actions|
  {
    actions == [] || (Enabled(w, actions[0]) && IsRun(Step(w, actions[0]), actions[1..]))
  }

  ghost function After(w: World, actions: seq<Action>): World
    requires IsRun(w, actions)
    decreases |actions|
  {
    if actions == [] then w else After(Step(w, actions[0]), actions[1..])
  }

  ghost predicate Reachable(w: World) {
    exists actions :: IsRun(START, actions) && After(START, actions) == w
  }

  // --------------------------------------------- what the attempts add up

  /** The failures since the last success. */
  function Streak(log: seq<Attempt>): nat {
    if log == [] || log[|log| - 1].grant.Some? then 0 else Streak(log[..|log| - 1]) + 1
  }

  /** The seconds slept in that streak. */
  function SleptInStreak(log: seq<Attempt>): nat {
    if log == [] || log[|log| - 1].grant.Some? then 0
    else SleptInStreak(log[..|log| - 1]) + log[|log| - 1].slept
  }

  function LastGrant(log: seq<Attempt>): Option<Authorization> {
    if log == [] then None
    else if log[|log| - 1].grant.Some? then log[|log| - 1].grant.value else LastGrant(log[..|log| - 1])
  }

  /** How one attempt must follow the earlier ones: fewer than six failures, none
    * of them cut short, and five seconds unless it is an anonymous first one. */
  predicate Follows(front: seq<Attempt>, last: Attempt) {
    && Streak(front) < 6
    && (front != [] ==> !front[|front| - 1].cancelled)
    && (last.grant.None? && !last.cancelled ==>
          last.slept == if Streak(front) == 0 && IsAnonymous(last.user) then 0 else 5)
  }

  predicate Throttled(log: seq<Attempt>) {
    log == [] || (Throttled(log[..|log| - 1]) && Follows(log[..|log| - 1], log[|log| - 1]))
  }

  // -------------------------------------------------------- the invariant

  /** The streak has reached six, or the context has cancelled a sleep. */
  predicate Spent(log: seq<Attempt>) {
    Streak(log) >= 6 || (log != [] && log[|log| - 1].cancelled)
  }

  ghost predicate LoginOk(f: Fields, attempts: seq<Attempt>, executing: bool) {
    && f.failCnt == Streak(attempts)
    && f.auth == LastGrant(attempts)
    && Throttled(attempts)
    && (Spent(attempts) ==> f.shuttingDown && !executing)
  }

  /** The working directory is the root or an ancestor of a directory entered. */
  ghost predicate Known(pwd: string, seen: set<string>) {
    pwd == "/" || exists dir :: dir in seen && NamesOf(pwd) <= NamesOf(dir)
  }

  ghost predicate PwdOk(f: Fields, seen: set<string>) {
    && (f.auth.Some? ==> f.pwd != "")
    && (f.pwd != "" ==> Canonical(f.pwd) && Known(f.pwd, seen))
  }

  ghost predicate RenameOk(f: Fields, readers: seq<Reader>) {
    && (f.rmfr != "" <==> f.rmfrReader.Some?)
    && (f.rmfrReader.Some? ==> f.rmfrReader.value < |readers| && readers[f.rmfrReader.value].path == f.rmfr)
    && (forall r :: 0 <= r < |readers| ==> Canonical(readers[r].path))
  }

  ghost predicate WorkersOk(workers: map<nat, Worker>, readers: seq<Reader>) {
    forall r :: r in workers ==>
      r < |readers| && workers[r].rename.from == readers[r].path && Canonical(workers[r].rename.to)
  }

  /** `login` was the latest login granted by the first `at` attempts. */
  predicate LoginAt(attempts: seq<Attempt>, at: nat, login: Authorization) {
    at <= |attempts| && LastGrant(attempts[..at]) == Some(login)
  }

  /** Each file was opened, and each rename started, with the login of its time. */
  ghost predicate LoginsOk(readers: seq<Reader>, workers: map<nat, Worker>, attempts: seq<Attempt>) {
    && (forall r :: 0 <= r < |readers| ==> LoginAt(attempts, readers[r].at, readers[r].login))
    && (forall r :: r in workers ==>
          r < |readers| && readers[r].at <= workers[r].at && LoginAt(attempts, workers[r].at, workers[r].rename.login))
  }

  /** The reader that the session itself still has to close. */
  function Pending(w: World): Option<nat> { if w.point.Ended? then None else w.fields.rmfrReader }

  /** How many hold or have closed reader r. */
  function Owners(pending: Option<nat>, workers: map<nat, Worker>, closed: seq<nat>, r: nat): nat {
    multiset(closed)[r] + (if r in workers then 1 else 0) + (if pending == Some(r) then 1 else 0)
  }

  ghost predicate LedgerOk(count: nat, pending: Option<nat>, workers: map<nat, Worker>, closed: seq<nat>) {
    && count == |closed| + |workers| + |ReaderList(pending)|
    && (forall r: nat :: Owners(pending, workers, closed, r) == if r < count then 1 else 0)
  }

  ghost predicate Inv(w: World) {
    && LoginOk(w.fields, w.attempts, w.point.Executing?)
    && PwdOk(w.fields, w.seen)
    && RenameOk(w.fields, w.readers)
    && WorkersOk(w.workers, w.readers)
    && LoginsOk(w.readers, w.workers, w.attempts)
    && LedgerOk(|w.readers|, Pending(w), w.workers, w.closed)
  }

  // ------------------------------------------------ each part of it kept

  lemma PassKeepsLogin(f: Fields, attempts: seq<Attempt>, a: Answers)
    requires LoginOk(f, attempts, true)
    ensures LoginOk(PassDone(f, a).next, attempts + [PassDone(f, a).effect.attempt], false)
  {
    var log := attempts + [PassDone(f, a).effect.attempt];
    assert log[..|log| - 1] == attempts;
  }

  lemma OthersLeaveLogin(f: Fields, cmd: Command, a: Answers)
    requires !cmd.verb.Pass?
    ensures var d := ExecDone(f, cmd, a);
            && d.next.failCnt == f.failCnt && d.next.auth == f.auth && !d.effect.Tried?
            && (f.shuttingDown ==> d.next.shuttingDown)
  {
  }

  lemma ExecKeepsLogin(f: Fields, attempts: seq<Attempt>, cmd: Command, a: Answers)
    requires LoginOk(f, attempts, true)
    ensures var d := ExecDone(f, cmd, a); LoginOk(d.next, AttemptsAfter(attempts, d.effect), false)
  {
    if cmd.verb.Pass? { PassKeepsLogin(f, attempts, a); } else { OthersLeaveLogin(f, cmd, a); }
  }

  lemma CdupKeepsPwd(f: Fields, seen: set<string>)
    requires PwdOk(f, seen)
    ensures PwdOk(CdupDone(f).next, seen)
  {
    if f.pwd != "" && f.pwd != "/" {
      CdupLosesOneName(f.pwd);
      var dir :| dir in seen && NamesOf(f.pwd) <= NamesOf(dir);
      assert NamesOf(Dir(f.pwd)) <= NamesOf(dir);
    }
  }

  /** CDUP takes away the last name, if there is one. */
  lemma CdupLosesOneName(pwd: string)
    requires Canonical(pwd)
    ensures pwd != ""
    ensures NamesOf(pwd) == [] <==> pwd == "/"
    ensures pwd != "/" ==> Canonical(Dir(pwd)) && NamesOf(Dir(pwd)) == NamesOf(pwd)[..|NamesOf(pwd)| - 1]
  {
    CanonicalExactly(pwd);
    var names := NamesOf(pwd);
    AbsPathNames([]);
    assert AbsPath([]) == "/";
    if pwd != "/" {
      DirDropsLast(names);
      assert Names(names[..|names| - 1]);
      AbsPathNames(names[..|names| - 1]);
    }
  }

  lemma CwdKeepsPwd(f: Fields, arg: string, a: Answers, seen: set<string>)
    requires PwdOk(f, seen) && f.auth.Some?
    ensures var d := CwdDone(f, arg, a); PwdOk(d.next, if d.effect.Entered? then seen + {d.effect.dir} else seen)
  {
    if a.statting.IsDirectory? {
      BuiltPathIsCanonical(f.pwd, arg);
      var path := BuildPath(f.pwd, arg);
      assert path in seen + {path};
    }
  }

  lemma LoginKeepsPwd(f: Fields, a: Answers, seen: set<string>)
    requires PwdOk(f, seen)
    ensures PwdOk(PassDone(f, a).next, seen)
  {
    if a.authorizing.Granted? {
      AbsPathNames([]);
      assert AbsPath([]) == "/";
    }
  }

  lemma OthersLeavePwd(f: Fields, cmd: Command, a: Answers)
    requires !cmd.verb.Pass? && !cmd.verb.Cdup? && !cmd.verb.Cwd?
    ensures var d := ExecDone(f, cmd, a); d.next.pwd == f.pwd && d.next.auth == f.auth && !d.effect.Entered?
  {
  }

  lemma ExecKeepsPwd(f: Fields, seen: set<string>, cmd: Command, a: Answers)
    requires PwdOk(f, seen)
    ensures var d := ExecDone(f, cmd, a); PwdOk(d.next, SeenAfter(seen, d.effect))
  {
    match cmd.verb
    case Pass => LoginKeepsPwd(f, a, seen);
    case Cdup => CdupKeepsPwd(f, seen);
    case Cwd => if f.auth.Some? { CwdKeepsPwd(f, cmd.arg, a, seen); }
    case _ => OthersLeavePwd(f, cmd, a);
  }

  /** A path built while logged in is canonical, so never empty. */
  lemma BuiltWhileLoggedIn(f: Fields, seen: set<string>, arg: string)
    requires PwdOk(f, seen) && f.auth.Some?
    ensures Canonical(BuildPath(f.pwd, arg)) && BuildPath(f.pwd, arg) != ""
  {
    BuiltPathIsCanonical(f.pwd, arg);
  }

  lemma RnfrKeepsRename(f: Fields, arg: string, a: Answers, readers: seq<Reader>, at: nat)
    requires RenameOk(f, readers) && f.auth.Some?
    requires Canonical(BuildPath(f.pwd, arg)) && a.reader == |readers|
    ensures var d := RnfrDone(f, arg, a); RenameOk(d.next, ReadersAfter(readers, d.effect, at))
  {
  }

  lemma OthersLeaveRename(f: Fields, cmd: Command, a: Answers)
    requires !cmd.verb.Rnfr? && !cmd.verb.Rnto?
    ensures var d := ExecDone(f, cmd, a);
            d.next.rmfr == f.rmfr && d.next.rmfrReader == f.rmfrReader && !d.effect.Opens? && !d.effect.Spawns?
  {
  }

  lemma ExecKeepsRename(f: Fields, seen: set<string>, readers: seq<Reader>, at: nat, cmd: Command, a: Answers)
    requires PwdOk(f, seen) && RenameOk(f, readers) && a.reader == |readers|
    ensures var d := ExecDone(f, cmd, a); RenameOk(d.next, ReadersAfter(readers, d.effect, at))
  {
    match cmd.verb
    case Rnfr =>
      if f.auth.Some? {
        BuiltWhileLoggedIn(f, seen, cmd.arg);
        RnfrKeepsRename(f, cmd.arg, a, readers, at);
      }
    case Rnto =>
    case _ => OthersLeaveRename(f, cmd, a);
  }

  lemma RntoKeepsWorkers(f: Fields, arg: string, readers: seq<Reader>, workers: map<nat, Worker>, at: nat)
    requires RenameOk(f, readers) && f.auth.Some?
    requires WorkersOk(workers, readers) && Canonical(BuildPath(f.pwd, arg))
    ensures WorkersOk(WorkersAfter(workers, RntoDone(f, arg).effect, at), readers)
  {
  }

  lemma ExecKeepsWorkers(
    f: Fields, seen: set<string>, readers: seq<Reader>, workers: map<nat, Worker>, at: nat, cmd: Command, a: Answers)
    requires PwdOk(f, seen) && RenameOk(f, readers) && WorkersOk(workers, readers)
    ensures var d := ExecDone(f, cmd, a);
            WorkersOk(WorkersAfter(workers, d.effect, at), ReadersAfter(readers, d.effect, at))
  {
    if cmd.verb.Rnto? && f.auth.Some? {
      BuiltWhileLoggedIn(f, seen, cmd.arg);
      RntoKeepsWorkers(f, cmd.arg, readers, workers, at);
    }
  }

  /** The login recorded with an effect is the current one. */
  lemma EffectsCarryTheLogin(f: Fields, cmd: Command, a: Answers)
    ensures var e := ExecDone(f, cmd, a).effect;
            && (e.Opens? ==> f.auth == Some(e.login))
            && (e.Spawns? ==> f.auth == Some(e.rename.login) && f.rmfrReader == Some(e.reader))
  {
  }

  lemma LoginNow(attempts: seq<Attempt>, login: Authorization)
    requires LastGrant(attempts) == Some(login)
    ensures LoginAt(attempts, |attempts|, login)
  {
    assert attempts[..|attempts|] == attempts;
  }

  lemma MoreReadersKeepLogins(readers: seq<Reader>, workers: map<nat, Worker>, attempts: seq<Attempt>, x: Reader)
    requires LoginsOk(readers, workers, attempts) && LoginAt(attempts, x.at, x.login)
    ensures LoginsOk(readers + [x], workers, attempts)
  {
  }

  lemma MoreWorkersKeepLogins(
    readers: seq<Reader>, workers: map<nat, Worker>, attempts: seq<Attempt>, r: nat, x: Worker)
    requires LoginsOk(readers, workers, attempts) && r < |readers|
    requires x.at == |attempts| && LoginAt(attempts, x.at, x.rename.login)
    ensures LoginsOk(readers, workers[r := x], attempts)
  {
    assert LoginAt(attempts, readers[r].at, readers[r].login);
  }

  /** Later attempts do not change what the earlier ones granted. */
  lemma MoreAttemptsKeepLogins(
    readers: seq<Reader>, workers: map<nat, Worker>, attempts: seq<Attempt>, more: seq<Attempt>)
    requires LoginsOk(readers, workers, attempts)
    ensures LoginsOk(readers, workers, attempts + more)
  {
    forall at: nat, login | LoginAt(attempts, at, login) ensures LoginAt(attempts + more, at, login) {
      assert (attempts + more)[..at] == attempts[..at];
    }
  }

  lemma ExecKeepsLogins(w: World, cmd: Command, a: Answers)
    requires LoginsOk(w.readers, w.workers, w.attempts) && RenameOk(w.fields, w.readers)
    requires w.fields.auth == LastGrant(w.attempts)
    ensures var after := Executed(w, ExecDone(w.fields, cmd, a));
            LoginsOk(after.readers, after.workers, after.attempts)
  {
    EffectsCarryTheLogin(w.fields, cmd, a);
    var at := |w.attempts|;
    match ExecDone(w.fields, cmd, a).effect
    case Opens(path, login) =>
      LoginNow(w.attempts, login);
      MoreReadersKeepLogins(w.readers, w.workers, w.attempts, Reader(path, login, at));
    case Spawns(reader, rename) =>
      LoginNow(w.attempts, rename.login);
      MoreWorkersKeepLogins(w.readers, w.workers, w.attempts, reader, Worker(rename, at));
    case Tried(attempt) => MoreAttemptsKeepLogins(w.readers, w.workers, w.attempts, [attempt]);
    case _ =>
  }

  lemma OpenKeepsLedger(count: nat, workers: map<nat, Worker>, closed: seq<nat>)
    requires LedgerOk(count, None, workers, closed)
    ensures LedgerOk(count + 1, Some(count), workers, closed)
  {
    forall r: nat ensures Owners(Some(count), workers, closed, r) == if r < count + 1 then 1 else 0 {
      assert Owners(None, workers, closed, r) == if r < count then 1 else 0;
    }
  }

  lemma SpawnKeepsLedger(count: nat, reader: nat, worker: Worker, workers: map<nat, Worker>, closed: seq<nat>)
    requires LedgerOk(count, Some(reader), workers, closed)
    ensures LedgerOk(count, None, workers[reader := worker], closed)
  {
    assert Owners(Some(reader), workers, closed, reader) <= 1;
    var after := workers[reader := worker];
    forall r: nat ensures Owners(None, after, closed, r) == if r < count then 1 else 0 {
      assert Owners(Some(reader), workers, closed, r) == if r < count then 1 else 0;
    }
  }

  lemma ReturnKeepsLedger(count: nat, pending: Option<nat>, workers: map<nat, Worker>, closed: seq<nat>, reader: nat)
    requires LedgerOk(count, pending, workers, closed) && reader in workers
    ensures LedgerOk(count, pending, workers - {reader}, closed + [reader])
  {
    assert |workers - {reader}| == |workers| - 1;
    forall r: nat ensures Owners(pending, workers - {reader}, closed + [reader], r) == if r < count then 1 else 0 {
      assert Owners(pending, workers, closed, r) == if r < count then 1 else 0;
    }
  }

  lemma LeaveKeepsLedger(count: nat, pending: Option<nat>, workers: map<nat, Worker>, closed: seq<nat>)
    requires LedgerOk(count, pending, workers, closed)
    ensures LedgerOk(count, None, workers, closed + ReaderList(pending))
  {
    forall r: nat ensures Owners(None, workers, closed + ReaderList(pending), r) == if r < count then 1 else 0 {
      assert Owners(pending, workers, closed, r) == if r < count then 1 else 0;
    }
  }

  lemma ExecKeepsLedger(
    f: Fields, count: nat, workers: map<nat, Worker>, closed: seq<nat>, cmd: Command, a: Answers, at: nat)
    requires LedgerOk(count, f.rmfrReader, workers, closed)
    requires a.reader == count
    ensures var d := ExecDone(f, cmd, a);
            LedgerOk(if d.effect.Opens? then count + 1 else count,
                     d.next.rmfrReader, WorkersAfter(workers, d.effect, at), closed)
  {
    match ExecDone(f, cmd, a).effect
    case Opens(_, _) => OpenKeepsLedger(count, workers, closed);
    case Spawns(reader, rename) => SpawnKeepsLedger(count, reader, Worker(rename, at), workers, closed);
    case _ =>
  }

  lemma ExecuteKeepsInv(w: World, cmd: Command, a: Answers)
    requires Inv(w) && w.point.Executing? && a.reader == |w.readers|
    ensures Inv(Executed(w, ExecDone(w.fields, cmd, a)))
  {
    var f, at := w.fields, |w.attempts|;
    ExecKeepsLogin(f, w.attempts, cmd, a);
    ExecKeepsPwd(f, w.seen, cmd, a);
    ExecKeepsRename(f, w.seen, w.readers, at, cmd, a);
    ExecKeepsWorkers(f, w.seen, w.readers, w.workers, at, cmd, a);
    ExecKeepsLogins(w, cmd, a);
    ExecKeepsLedger(f, |w.readers|, w.workers, w.closed, cmd, a, at);
    PartsMakeInv(w, ExecDone(f, cmd, a));
  }

  lemma PartsMakeInv(w: World, d: Done)
    requires var after := Executed(w, d);
             && LoginOk(d.next, after.attempts, false) && PwdOk(d.next, after.seen)
             && RenameOk(d.next, after.readers) && WorkersOk(after.workers, after.readers)
             && LoginsOk(after.readers, after.workers, after.attempts)
             && LedgerOk(if d.effect.Opens? then |w.readers| + 1 else |w.readers|,
                         d.next.rmfrReader, after.workers, w.closed)
    ensures Inv(Executed(w, d))
  {
  }

  lemma LeaveKeepsInv(w: World)
    requires Inv(w) && !w.point.Ended?
    ensures Inv(Leave(w))
  {
    LeaveKeepsLedger(|w.readers|, Pending(w), w.workers, w.closed);
  }

  lemma ReturnKeepsWorkers(workers: map<nat, Worker>, readers: seq<Reader>, attempts: seq<Attempt>, reader: nat)
    requires WorkersOk(workers, readers) && LoginsOk(readers, workers, attempts)
    ensures WorkersOk(workers - {reader}, readers) && LoginsOk(readers, workers - {reader}, attempts)
  {
  }

  lemma FlagKeepsInv(w: World)
    requires Inv(w)
    ensures Inv(Step(w, SetFlag))
  {
  }

  lemma RecheckKeepsInv(w: World)
    requires Inv(w) && w.point.Rechecking?
    ensures Inv(Step(w, Recheck))
  {
    if w.fields.shuttingDown { LeaveKeepsInv(w); }
  }

  lemma StepKeepsInv(w: World, a: Action)
    requires Inv(w) && Enabled(w, a)
    ensures Inv(Step(w, a))
  {
    match a
    case Test => if w.fields.shuttingDown { LeaveKeepsInv(w); }
    case Scan(line) => if line.None? { LeaveKeepsInv(w); }
    case Recheck => RecheckKeepsInv(w);
    case Execute(answers) => ExecuteKeepsInv(w, w.point.cmd, answers);
    case SetFlag => FlagKeepsInv(w);
    case CreateReturns(reader) =>
      ReturnKeepsWorkers(w.workers, w.readers, w.attempts, reader);
      ReturnKeepsLedger(|w.readers|, Pending(w), w.workers, w.closed, reader);
  }

  lemma {:induction false} RunKeepsInv(w: World, actions: seq<Action>)
    requires Inv(w) && IsRun(w, actions)
    ensures Inv(After(w, actions))
    decreases |actions|
  {
    if actions != [] {
      StepKeepsInv(w, actions[0]);
      RunKeepsInv(Step(w, actions[0]), actions[1..]);
    }
  }

  lemma ReachableIsInv(w: World)
    requires Reachable(w)
    ensures Inv(w)
  {
    var actions :| IsRun(START, actions) && After(START, actions) == w;
    RunKeepsInv(START, actions);
  }

  // -------------------------------------------------- the main statements

  /** In every run, once a login has been granted the working directory is a
    * canonical absolute path, and it is the root or lies above a directory that
    * CWD entered. */
  lemma WorkingDirectoryIsCanonical(w: World)
    requires Reachable(w)
    ensures w.fields.auth == LastGrant(w.attempts)
    ensures w.fields.auth.Some? ==> Canonical(w.fields.pwd)
    ensures w.fields.pwd == "" || Known(w.fields.pwd, w.seen)
  {
    ReachableIsInv(w);
  }

  predicate EverGranted(log: seq<Attempt>) {
    exists i :: 0 <= i < |log| && log[i].grant.Some? && log[i].grant.value.Some?
  }

  /** The session has touched nothing. */
  predicate Untouched(f: Fields, seen: set<string>, readers: seq<Reader>, workers: map<nat, Worker>) {
    f.auth.None? && f.pwd in {"", "/"} && f.rmfr == "" && seen == {} && readers == [] && workers == map[]
  }

  ghost predicate LoginFirst(w: World) {
    EverGranted(w.attempts) || Untouched(w.fields, w.seen, w.readers, w.workers)
  }

  lemma ExecWithoutLogin(f: Fields, cmd: Command, a: Answers)
    requires f.auth.None? && f.rmfr == "" && f.pwd in {"", "/"}
    ensures var d := ExecDone(f, cmd, a);
            && d.next.rmfr == "" && d.next.pwd in {"", "/"}
            && (d.effect.Silent? || d.effect.Tried?)
            && (d.next.auth.Some? ==> d.effect.Tried? && d.effect.attempt.grant == Some(d.next.auth))
  {
  }

  lemma StepKeepsLoginFirst(w: World, a: Action)
    requires LoginFirst(w) && Enabled(w, a)
    ensures LoginFirst(Step(w, a))
  {
    if a.Execute? {
      var d := ExecDone(w.fields, w.point.cmd, a.answers);
      var log := AttemptsAfter(w.attempts, d.effect);
      assert forall i :: 0 <= i < |w.attempts| ==> log[i] == w.attempts[i];
      if !EverGranted(w.attempts) {
        ExecWithoutLogin(w.fields, w.point.cmd, a.answers);
        if d.next.auth.Some? { assert log[|log| - 1].grant == Some(d.next.auth); }
      }
    }
  }

  lemma {:induction false} RunKeepsLoginFirst(w: World, actions: seq<Action>)
    requires LoginFirst(w) && IsRun(w, actions)
    ensures LoginFirst(After(w, actions))
    decreases |actions|
  {
    if actions != [] {
      StepKeepsLoginFirst(w, actions[0]);
      RunKeepsLoginFirst(Step(w, actions[0]), actions[1..]);
    }
  }

  /** In every run, unless some PASS was granted an authorization, no directory
    * was entered, no file opened, no rename started and nothing is pending. */
  lemma NothingHappensBeforeLogin(w: World)
    requires Reachable(w) && !EverGranted(w.attempts)
    ensures Untouched(w.fields, w.seen, w.readers, w.workers)
  {
    var actions :| IsRun(START, actions) && After(START, actions) == w;
    RunKeepsLoginFirst(START, actions);
  }

  // ----------------------------------------- the logins, read off the actions

  /** A PASS that was executed: the user of the latest USER, and what the authorizer
    * answered. */
  datatype Try = Try(user: string, answer: Authorizing)

  /** The command that action `a` executes, if any. */
  function Ran(w: World, a: Action): Option<Command> {
    if a.Execute? && w.point.Executing? && w.point.cmd.arg != "" then Some(w.point.cmd) else None
  }

  function UserAfter(w: World, a: Action, user: string): string {
    if Ran(w, a).Some? && Ran(w, a).value.verb.User? then Ran(w, a).value.arg else user
  }

  /** The executed PASS commands of a run that begins with `user`. */
  ghost function Tries(w: World, actions: seq<Action>, user: string): seq<Try>
    requires IsRun(w, actions)
    decreases |actions|
  {
    if actions == [] then []
    else
      (if Ran(w, actions[0]).Some? && Ran(w, actions[0]).value.verb.Pass?
       then [Try(user, actions[0].answers.authorizing)] else [])
      + Tries(Step(w, actions[0]), actions[1..], UserAfter(w, actions[0], user))
  }

  predicate Matches(x: Attempt, y: Try) {
    x.user == y.user && x.grant == if y.answer.Granted? then Some(y.answer.auth) else None
  }

  predicate AllMatch(xs: seq<Attempt>, ys: seq<Try>) {
    |xs| == |ys| && forall i :: 0 <= i < |xs| ==> Matches(xs[i], ys[i])
  }

  /** The latest login that the authorizer granted. */
  function LatestGranted(tries: seq<Try>): Option<Authorization> {
    if tries == [] then None
    else if tries[|tries| - 1].answer.Granted? then tries[|tries| - 1].answer.auth
    else LatestGranted(tries[..|tries| - 1])
  }

  /** The refusals since then. */
  function RefusedInARow(tries: seq<Try>): nat {
    if tries == [] || tries[|tries| - 1].answer.Granted? then 0 else RefusedInARow(tries[..|tries| - 1]) + 1
  }

  lemma StepTries(w: World, a: Action)
    requires Enabled(w, a)
    ensures Step(w, a).fields.user == UserAfter(w, a, w.fields.user)
    ensures if Ran(w, a).Some? && Ran(w, a).value.verb.Pass?
            then |Step(w, a).attempts| == |w.attempts| + 1 && Step(w, a).attempts[..|w.attempts|] == w.attempts
                 && Matches(Step(w, a).attempts[|w.attempts|], Try(w.fields.user, a.answers.authorizing))
            else Step(w, a).attempts == w.attempts
  {
    if a.Execute? {
      CommandLaws(w.fields, w.point.cmd, a.answers);
      if w.point.cmd.verb.Pass? && w.point.cmd.arg != "" { PassLaws(w.fields, w.point.cmd, a.answers); }
    }
  }

  lemma {:induction false} AttemptsAreTries(w: World, actions: seq<Action>, before: seq<Try>)
    requires IsRun(w, actions) && AllMatch(w.attempts, before)
    ensures AllMatch(After(w, actions).attempts, before + Tries(w, actions, w.fields.user))
    decreases |actions|
  {
    if actions == [] {
      assert before + [] == before;
    } else {
      StepTries(w, actions[0]);
      var one := if Ran(w, actions[0]).Some? && Ran(w, actions[0]).value.verb.Pass?
                 then [Try(w.fields.user, actions[0].answers.authorizing)] else [];
      TriesGrow(w.attempts, before, Step(w, actions[0]).attempts, one);
      AttemptsAreTries(Step(w, actions[0]), actions[1..], before + one);
      var rest := Tries(Step(w, actions[0]), actions[1..], UserAfter(w, actions[0], w.fields.user));
      assert before + one + rest == before + (one + rest);
    }
  }

  lemma TriesGrow(xs: seq<Attempt>, ys: seq<Try>, xs': seq<Attempt>, one: seq<Try>)
    requires AllMatch(xs, ys) && |one| <= 1 && |xs'| == |xs| + |one| && xs'[..|xs|] == xs
    requires |one| == 1 ==> Matches(xs'[|xs|], one[0])
    ensures AllMatch(xs', ys + one)
  {
    forall i | 0 <= i < |xs'| ensures Matches(xs'[i], (ys + one)[i]) {
      if i < |xs| { assert xs'[i] == xs'[..|xs|][i]; }
    }
  }

  lemma {:induction false} MatchingHistories(xs: seq<Attempt>, ys: seq<Try>)
    requires AllMatch(xs, ys)
    ensures LastGrant(xs) == LatestGranted(ys) && Streak(xs) == RefusedInARow(ys)
    ensures EverGranted(xs) <==> exists i :: 0 <= i < |ys| && ys[i].answer.Granted? && ys[i].answer.auth.Some?
  {
    if xs != [] {
      var n := |xs| - 1;
      assert Matches(xs[n], ys[n]);
      forall i | 0 <= i < n ensures Matches(xs[..n][i], ys[..n][i]) { assert Matches(xs[i], ys[i]); }
      MatchingHistories(xs[..n], ys[..n]);
    }
    if i :| 0 <= i < |xs| && xs[i].grant.Some? && xs[i].grant.value.Some? { assert Matches(xs[i], ys[i]); }
    if i :| 0 <= i < |ys| && ys[i].answer.Granted? && ys[i].answer.auth.Some? { assert Matches(xs[i], ys[i]); }
  }

  /** In every run the login is the latest one that the authorizer granted to an
    * executed PASS, and the failure counter counts its refusals since; until it has
    * granted one the session has touched nothing. */
  lemma LoginComesFromTheAuthorizer(actions: seq<Action>)
    requires IsRun(START, actions)
    ensures var w, tries := After(START, actions), Tries(START, actions, "");
            && w.fields.auth == LatestGranted(tries) && w.fields.failCnt == RefusedInARow(tries)
            && AllMatch(w.attempts, tries)
            && ((forall i :: 0 <= i < |tries| ==> !(tries[i].answer.Granted? && tries[i].answer.auth.Some?)) ==>
                  Untouched(w.fields, w.seen, w.readers, w.workers))
  {
    var w, tries := After(START, actions), Tries(START, actions, "");
    assert Reachable(w);
    ReachableIsInv(w);
    AttemptsAreTries(START, actions, []);
    assert [] + tries == tries;
    MatchingHistories(w.attempts, tries);
    if !EverGranted(w.attempts) { NothingHappensBeforeLogin(w); }
  }

  /** CDUP from a directory other than the root does to the session what CWD ".."
    * does when the parent is there. */
  lemma CdupActsAsCwdDotDot(w: World, a: Answers)
    requires Reachable(w) && w.fields.auth.Some? && w.fields.pwd != "/"
    requires a.statting.IsDirectory?
    ensures ExecDone(w.fields, Command(Cdup, ""), a).next == ExecDone(w.fields, Command(Cwd, ".."), a).next
    ensures |NamesOf(ExecDone(w.fields, Command(Cdup, ""), a).next.pwd)| + 1 == |NamesOf(w.fields.pwd)|
  {
    ReachableIsInv(w);
    CdupIsCwdDotDot(w.fields.pwd);
    CdupLosesOneName(w.fields.pwd);
    ExecIsCdupOrCwd(w.fields, "..", a);
  }

  lemma ExecIsCdupOrCwd(f: Fields, arg: string, a: Answers)
    requires f.auth.Some? && arg != ""
    ensures ExecDone(f, Command(Cdup, ""), a) == CdupDone(f)
    ensures ExecDone(f, Command(Cwd, arg), a) == CwdDone(f, arg, a)
  {
  }

  /** Composed with the key function of a bucket: whatever a client in any run
    * names, the key of the path built for it stays under the prefix. */
  lemma EverySessionStaysUnderPrefix(w: World, prefix: string, ps: seq<string>, arg: string)
    requires Reachable(w) && w.fields.auth.Some?
    requires CanonicalPrefix(prefix, ps) && ps != []
    ensures var key := FileKey(prefix, BuildPath(w.fields.pwd, arg)); key == Join(ps) || Join(ps) + "/" < key
  {
    ReachableIsInv(w);
    SessionStaysUnderPrefix(prefix, ps, w.fields.pwd, arg);
  }

  lemma {:induction false} ThrottledPrefix(log: seq<Attempt>, i: nat)
    requires Throttled(log) && i <= |log|
    ensures Throttled(log[..i])
  {
    if i < |log| {
      ThrottledPrefix(log[..|log| - 1], i);
      assert log[..|log| - 1][..i] == log[..i];
    } else {
      assert log[..i] == log;
    }
  }

  lemma {:induction false} StreakSleeps(log: seq<Attempt>)
    requires Throttled(log)
    ensures Streak(log) <= 6
    ensures log == [] || !log[|log| - 1].cancelled ==> SleptInStreak(log) >= 5 * (Streak(log) - 1)
  {
    if log != [] { StreakSleeps(log[..|log| - 1]); }
  }

  /** In every run and after every attempt i of it, the streak of failures is at
    * most six, and has slept five seconds for each failure but the first, unless
    * its last sleep was cancelled. */
  lemma FailuresAreThrottled(w: World, i: nat)
    requires Reachable(w) && i <= |w.attempts|
    ensures Streak(w.attempts[..i]) <= 6
    ensures i == 0 || !w.attempts[i - 1].cancelled ==>
              SleptInStreak(w.attempts[..i]) >= 5 * (Streak(w.attempts[..i]) - 1)
    ensures i < |w.attempts| ==> Follows(w.attempts[..i], w.attempts[i])
  {
    ReachableIsInv(w);
    ThrottledPrefix(w.attempts, i);
    StreakSleeps(w.attempts[..i]);
    if i < |w.attempts| {
      ThrottledPrefix(w.attempts, i + 1);
      assert w.attempts[..i + 1][..i] == w.attempts[..i];
    }
  }

  /** Once the flag is set only the command already past the second test still
    * executes, and when there is none nothing of the session changes any more. */
  lemma {:induction false} NoCommandStartsAfterTheFlag(w: World, actions: seq<Action>)
    requires w.fields.shuttingDown && IsRun(w, actions)
    ensures After(w, actions).fields.shuttingDown
    ensures After(w, actions).executed <= w.executed + if w.point.Executing? then 1 else 0
    ensures !w.point.Executing? ==>
              After(w, actions).fields == w.fields && After(w, actions).attempts == w.attempts
    decreases |actions|
  {
    if actions != [] {
      FlagStays(w, actions[0]);
      NoCommandStartsAfterTheFlag(Step(w, actions[0]), actions[1..]);
    }
  }

  lemma FlagStays(w: World, a: Action)
    requires w.fields.shuttingDown && Enabled(w, a)
    ensures var w' := Step(w, a);
            && w'.fields.shuttingDown
            && (w'.point.Executing? ==> w.point.Executing? && w'.executed == w.executed)
            && w'.executed <= w.executed + (if w.point.Executing? then 1 else 0)
            && (!w.point.Executing? ==> w'.fields == w.fields && w'.attempts == w.attempts)
  {
  }

  /** After the sixth failure in a row, or a cancelled sleep, no further command
    * executes: PASS sets the flag before the loop can read another line. */
  lemma SixthFailureIsTheLast(w: World, actions: seq<Action>)
    requires Reachable(w) && IsRun(w, actions)
    requires Spent(w.attempts)
    ensures After(w, actions).executed == w.executed && After(w, actions).fields == w.fields
    ensures After(w, actions).attempts == w.attempts
  {
    ReachableIsInv(w);
    ExecutedOnlyGrows(w, actions);
    NoCommandStartsAfterTheFlag(w, actions);
  }

  lemma {:induction false} ExecutedOnlyGrows(w: World, actions: seq<Action>)
    requires IsRun(w, actions)
    ensures After(w, actions).executed >= w.executed
    decreases |actions|
  {
    if actions != [] {
      ExecutedOnlyGrows(Step(w, actions[0]), actions[1..]);
    }
  }

  /** A path is pending exactly when a reader is, and it is the reader's path. */
  lemma PendingPathHasItsReader(w: World)
    requires Reachable(w)
    ensures w.fields.rmfr != "" <==> w.fields.rmfrReader.Some?
    ensures w.fields.rmfrReader.Some? ==>
              w.fields.rmfrReader.value < |w.readers| && w.readers[w.fields.rmfrReader.value].path == w.fields.rmfr
  {
    ReachableIsInv(w);
  }

  /** Every rename removes the path that its reader was opened for. */
  lemma RenameRemovesWhatItCopies(w: World, r: nat)
    requires Reachable(w) && r in w.workers
    ensures r < |w.readers| && w.workers[r].rename.from == w.readers[r].path
    ensures Canonical(w.workers[r].rename.from) && Canonical(w.workers[r].rename.to)
  {
    ReachableIsInv(w);
  }

  /** fileSystem: the login's, or else the server's; None is vfs.Null. */
  function FileSystemOf(server: Option<nat>, login: Authorization): Option<nat> {
    if login.fileSystem.Some? then login.fileSystem else server
  }

  lemma {:induction false} FailuresGrantNothing(log: seq<Attempt>, i: nat, j: nat)
    requires i <= j <= |log| && forall k :: i <= k < j ==> log[k].grant.None?
    ensures LastGrant(log[..j]) == LastGrant(log[..i])
    decreases j
  {
    if i < j {
      FailuresGrantNothing(log, i, j - 1);
      assert log[..j][..j - 1] == log[..j - 1];
    }
  }

  /** RNTO takes the file system when it runs. So a rename removes its file in the
    * file system that it was copied from if and only if the latest login granted
    * before RNTO and the one granted before RNFR have the same file system; it
    * does when no PASS was granted in between. */
  lemma RenameStaysInOneFileSystemExactly(w: World, server: Option<nat>, r: nat)
    requires Reachable(w) && r in w.workers
    ensures r < |w.readers| && w.readers[r].at <= w.workers[r].at <= |w.attempts|
    ensures var atRnfr, atRnto := LastGrant(w.attempts[..w.readers[r].at]), LastGrant(w.attempts[..w.workers[r].at]);
            && atRnfr.Some? && atRnto.Some?
            && (FileSystemOf(server, w.workers[r].rename.login) == FileSystemOf(server, w.readers[r].login) <==>
                FileSystemOf(server, atRnto.value) == FileSystemOf(server, atRnfr.value))
    ensures (forall i :: w.readers[r].at <= i < w.workers[r].at ==> w.attempts[i].grant.None?) ==>
              w.workers[r].rename.login == w.readers[r].login
  {
    ReachableIsInv(w);
    var i, j := w.readers[r].at, w.workers[r].at;
    assert LoginAt(w.attempts, i, w.readers[r].login) && LoginAt(w.attempts, j, w.workers[r].rename.login);
    if forall k :: i <= k < j ==> w.attempts[k].grant.None? { FailuresGrantNothing(w.attempts, i, j); }
  }

  /** One line of the session, read and executed without interruption. */
  lemma OneCommand(w: World, cmd: Command, a: Answers)
    requires Reachable(w) && w.point.Testing? && !w.fields.shuttingDown && a.reader == |w.readers|
    ensures Reachable(Executed(w, ExecDone(w.fields, cmd, a)))
  {
    ReachableStep(w, Test);
    var w1 := Step(w, Test);
    ReachableStep(w1, Scan(Some(cmd)));
    var w2 := Step(w1, Scan(Some(cmd)));
    ReachableStep(w2, Recheck);
    var w3 := Step(w2, Recheck);
    ReachableStep(w3, Execute(a));
    assert Step(w3, Execute(a)) == Executed(w, ExecDone(w.fields, cmd, a));
  }

  lemma ReachableStep(w: World, a: Action)
    requires Reachable(w) && Enabled(w, a)
    ensures Reachable(Step(w, a))
  {
    var actions :| IsRun(START, actions) && After(START, actions) == w;
    RunThen(START, actions, a);
  }

  lemma {:induction false} RunThen(w: World, actions: seq<Action>, a: Action)
    requires IsRun(w, actions) && Enabled(After(w, actions), a)
    ensures IsRun(w, actions + [a]) && After(w, actions + [a]) == Step(After(w, actions), a)
    decreases |actions|
  {
    if actions == [] {
      assert actions + [a] == [a];
      assert IsRun(Step(w, a), []);
      assert [a][1..] == [];
    } else {
      assert (actions + [a])[1..] == actions[1..] + [a];
      RunThen(Step(w, actions[0]), actions[1..], a);
    }
  }

  lemma StartIsReachable()
    ensures Reachable(START)
  {
    assert IsRun(START, []) && After(START, []) == START;
  }

  /** A login between RNFR and RNTO is enough to remove a file from a file system
    * that it was not copied from. */
  lemma LoginBetweenMovesTheRename() returns (w: World)
    ensures Reachable(w) && 0 in w.workers && |w.readers| == 1
    ensures forall server :: FileSystemOf(server, w.workers[0].rename.login) != FileSystemOf(server, w.readers[0].login)
  {
    var one, two := Authorization(1, Some(1)), Authorization(2, Some(2));
    StartIsReachable();
    w := START;
    var login := Answers(Granted(Some(one)), false, IsDirectory, Opened, 0);
    OneCommand(w, Command(Pass, "a"), login);
    w := Executed(w, ExecDone(w.fields, Command(Pass, "a"), login));
    w := OpenForRename(w, login);
    var again := Answers(Granted(Some(two)), false, IsDirectory, Opened, 1);
    OneCommand(w, Command(Pass, "b"), again);
    w := Executed(w, ExecDone(w.fields, Command(Pass, "b"), again));
    OneCommand(w, Command(Rnto, "/g"), again);
    w := Executed(w, ExecDone(w.fields, Command(Rnto, "/g"), again));
  }

  lemma OpenForRename(w: World, a: Answers) returns (w': World)
    requires Reachable(w) && w.point.Testing? && !w.fields.shuttingDown
    requires w.fields.auth.Some? && w.fields.rmfr == "" && w.fields.rmfrReader.None?
    requires w.readers == [] && a.opening.Opened? && a.reader == 0
    ensures Reachable(w') && w'.point.Testing? && !w'.fields.shuttingDown && |w'.readers| == 1
    ensures w'.fields.rmfr != "" && w'.fields.rmfrReader == Some(0) && w'.readers[0].login == w.fields.auth.value
    ensures w'.workers == w.workers
  {
    OneCommand(w, Command(Rnfr, "/f"), a);
    w' := Executed(w, ExecDone(w.fields, Command(Rnfr, "/f"), a));
    PendingPathHasItsReader(w');
  }

  /** The readers opened are the readers closed, those of the RNTO goroutines and
    * at most one pending; none is closed twice, or closed while still held. */
  lemma ReadersAreConserved(w: World, r: nat)
    requires Reachable(w)
    ensures |w.readers| == |w.closed| + |w.workers| + if Pending(w).Some? then 1 else 0
    ensures multiset(w.closed)[r] <= 1
    ensures r in w.closed ==> r < |w.readers| && r !in w.workers && Pending(w) != Some(r)
    ensures r < |w.readers| ==> r in w.closed || r in w.workers || Pending(w) == Some(r)
  {
    ReachableIsInv(w);
    assert Owners(Pending(w), w.workers, w.closed, r) == if r < |w.readers| then 1 else 0;
  }

  /** Once the session has ended and every Create has returned, each reader has
    * been closed exactly once. */
  lemma EveryReaderIsClosedOnce(w: World, r: nat)
    requires Reachable(w) && w.point.Ended? && w.workers == map[]
    ensures multiset(w.closed)[r] == if r < |w.readers| then 1 else 0
  {
    ReachableIsInv(w);
    assert Owners(Pending(w), w.workers, w.closed, r) == if r < |w.readers| then 1 else 0;
  }

  // ------------------------------------------------------- the connection

  class ServerConn {
    var user: string
    var auth: Option<Authorization>
    var failCnt: nat
    var pwd: string
    var shuttingDown: bool
    var rmfr: string
    var rmfrReader: Option<nat>

    ghost function State(): Fields
      reads this
    {
      Fields(user, auth, failCnt, pwd, shuttingDown, rmfr, rmfrReader)
    }

    /** What the commands keep: a canonical directory once logged in, a path
      * pending with its reader, and the flag once there are six failures. */
    ghost predicate Valid()
      reads this
    {
      && (auth.Some? ==> pwd != "")
      && (pwd != "" ==> Canonical(pwd))
      && (rmfr != "" <==> rmfrReader.Some?)
      && (failCnt > 5 ==> shuttingDown)
    }

    constructor ()
      ensures Valid() && State() == INITIAL
    {
      user, auth, failCnt, pwd, shuttingDown, rmfr, rmfrReader := "", None, 0, "", false, "", None;
    }

    method ExecutePass(a: Answers) returns (reply: Option<nat>, effect: Effect)
      requires Valid()
      modifies this
      ensures Valid() && Done(State(), reply, effect) == PassDone(old(State()), a)
      ensures effect.Tried? && (effect.attempt.grant.None? ==> failCnt == old(failCnt) + 1)
      ensures effect.attempt.grant.Some? ==> failCnt == 0 && NamesOf(pwd) == []
      ensures user == old(user) && effect.attempt.user == user
      ensures match a.authorizing
              case Granted(granted) =>
                effect.attempt.grant == Some(granted) && auth == granted && reply == Some(230)
              case Failed(authorizeFailed) =>
                && effect.attempt.grant == None && auth == old(auth) && pwd == old(pwd)
                && reply == if effect.attempt.cancelled then None else Some(if authorizeFailed then 530 else 500)
      ensures var sleeps := a.authorizing.Failed? && !(failCnt == 1 && (user == "anonymous" || user == "ftp"));
              && (effect.attempt.cancelled <==> sleeps && a.expired)
              && effect.attempt.slept == if sleeps && !a.expired then 5 else 0
      ensures effect.attempt.cancelled || failCnt > 5 ==> shuttingDown
      ensures a.authorizing.Granted? ==> shuttingDown == old(shuttingDown)
    {
      match a.authorizing
      case Granted(granted) =>
        failCnt := 0;
        auth := granted;
        pwd := "/";
        AbsPathNames([]);
        assert AbsPath([]) == "/";
        reply, effect := Some(230), Tried(Attempt(user, Some(granted), 0, false));
      case Failed(authorizeFailed) =>
        failCnt := failCnt + 1;
        var slept := 0;
        if failCnt > 1 || !IsAnonymous(user) {
          if a.expired {
            shuttingDown := true;
            return None, Tried(Attempt(user, None, 0, true));
          }
          slept := 5;
        }
        reply, effect := Some(if authorizeFailed then 530 else 500), Tried(Attempt(user, None, slept, false));
        if failCnt > 5 {
          shuttingDown := true;
        }
    }

    method ExecuteCwd(arg: string, a: Answers) returns (reply: Option<nat>, effect: Effect)
      requires Valid() && auth.Some?
      modifies this
      ensures Valid() && Done(State(), reply, effect) == CwdDone(old(State()), arg, a)
      ensures if a.statting.IsDirectory?
              then NamesOf(pwd) == CleanElems(true, if IsAbs(arg) then [] else NamesOf(old(pwd)), Split(arg))
              else pwd == old(pwd)
    {
      var path := BuildPath(pwd, arg);
      BuiltPathIsCanonical(pwd, arg);
      match a.statting
      case NoEntry => reply, effect := Some(431), Silent;
      case NotDirectory => reply, effect := Some(451), Silent;
      case IsDirectory =>
        pwd := path;
        reply, effect := Some(200), Entered(path);
    }

    method ExecuteCdup() returns (reply: Option<nat>, effect: Effect)
      requires Valid() && auth.Some?
      modifies this
      ensures Valid() && Done(State(), reply, effect) == CdupDone(old(State()))
      ensures var names := NamesOf(old(pwd));
              if names == [] then reply == Some(431) && pwd == old(pwd)
              else reply == Some(200) && NamesOf(pwd) == names[..|names| - 1]
    {
      CdupLosesOneName(pwd);
      if pwd == "" || pwd == "/" {
        return Some(431), Silent;
      }
      pwd := Dir(pwd);
      return Some(200), Silent;
    }

    method ExecuteRnfr(arg: string, a: Answers) returns (reply: Option<nat>, effect: Effect)
      requires Valid() && auth.Some?
      modifies this
      ensures Valid() && Done(State(), reply, effect) == RnfrDone(old(State()), arg, a)
      ensures old(rmfrReader).Some? ==> reply == Some(503) && State() == old(State())
      ensures old(rmfrReader).None? ==> (rmfrReader.Some? <==> a.opening.Opened?)
      ensures effect.Opens? ==>
                && effect.path == rmfr && effect.login == auth.value && rmfrReader == Some(a.reader)
                && NamesOf(rmfr) == CleanElems(true, if IsAbs(arg) then [] else NamesOf(pwd), Split(arg))
      ensures pwd == old(pwd) && auth == old(auth)
      ensures effect.Opens? <==> rmfrReader != old(rmfrReader)
    {
      if rmfr != "" || rmfrReader.Some? {
        return Some(503), Silent;
      }
      var path := BuildPath(pwd, arg);
      BuiltPathIsCanonical(pwd, arg);
      match a.opening
      case NotExist => reply, effect := Some(431), Silent;
      case OtherError => reply, effect := Some(500), Silent;
      case Opened =>
        rmfr := path;
        rmfrReader := Some(a.reader);
        reply, effect := Some(350), Opens(path, auth.value);
    }

    method ExecuteRnto(arg: string) returns (reply: Option<nat>, effect: Effect)
      requires Valid() && auth.Some?
      modifies this
      ensures Valid() && Done(State(), reply, effect) == RntoDone(old(State()), arg)
      ensures rmfrReader.None? && (effect.Spawns? <==> old(rmfrReader).Some?)
      ensures effect.Spawns? ==>
                && effect.rename.from == old(rmfr) && old(rmfrReader) == Some(effect.reader)
                && Canonical(effect.rename.to) && effect.rename.login == auth.value
                && NamesOf(effect.rename.to) == CleanElems(true, if IsAbs(arg) then [] else NamesOf(pwd), Split(arg))
      ensures pwd == old(pwd) && auth == old(auth)
    {
      if rmfr == "" || rmfrReader.None? {
        return Some(503), Silent;
      }
      BuiltPathIsCanonical(pwd, arg);
      var rename, reader := Rename(rmfr, BuildPath(pwd, arg), auth.value), rmfrReader.value;
      rmfr := "";
      rmfrReader := None;
      return None, Spawns(reader, rename);
    }

    method ExecCommand(cmd: Command, a: Answers) returns (reply: Option<nat>, effect: Effect)
      requires Valid()
      modifies this
      ensures Valid() && Done(State(), reply, effect) == ExecDone(old(State()), cmd, a)
      ensures old(shuttingDown) ==> shuttingDown
      ensures old(auth).None? && effect != Silent ==> effect.Tried?
    {
      reply, effect := None, Silent;
      if cmd.verb.Unknown? {
        reply := Some(500);
      } else if RequireParam(cmd.verb) && cmd.arg == "" {
        reply := Some(501);
      } else if RequireAuth(cmd.verb) && auth.None? {
        reply := Some(530);
      } else {
        match cmd.verb
        case User =>
          user := cmd.arg;
          reply := Some(331);
        case Pass => reply, effect := ExecutePass(a);
        case Cwd => reply, effect := ExecuteCwd(cmd.arg, a);
        case Cdup => reply, effect := ExecuteCdup();
        case Rnfr => reply, effect := ExecuteRnfr(cmd.arg, a);
        case Rnto => reply, effect := ExecuteRnto(cmd.arg);
        case Quit =>
          shuttingDown := true;
          reply := Some(221);
        case Reject => shuttingDown := true;
        case _ =>
      }
    }

    /** The serve loop on a connection that nobody else touches, up to the end of
      * its input, with the deferred close: one of the runs above, so that all
      * that holds of them holds of it. */
    method Serve(lines: seq<(Command, Answers)>) returns (executed: nat, closed: Option<nat>, ghost w: World)
      requires State() == INITIAL
      modifies this
      ensures Valid()
      ensures Reachable(w) && w.point.Ended? && w.fields == State() && w.executed == executed
      ensures executed <= |lines| && (executed < |lines| ==> shuttingDown)
      ensures closed == rmfrReader && w.closed == ReaderList(closed)
    {
      StartIsReachable();
      w := START;
      var fetched := 0;
      executed := 0;
      while executed < |lines| && !shuttingDown
        invariant Valid() && executed <= |lines|
        invariant Reachable(w) && w.point.Testing? && w.fields == State() && w.executed == executed
        invariant |w.readers| == fetched && w.closed == []
      {
        var cmd, a := lines[executed].0, lines[executed].1.(reader := fetched);
        OneCommand(w, cmd, a);
        ghost var before := w;
        var reply, effect := ExecCommand(cmd, a);
        w := Executed(before, ExecDone(before.fields, cmd, a));
        if effect.Opens? { fetched := fetched + 1; }
        executed := executed + 1;
      }
      LeaveIsReachable(w);
      w := Leave(w);
      closed := rmfrReader;
    }
  }

  lemma LeaveIsReachable(w: World)
    requires Reachable(w) && w.point.Testing?
    ensures Reachable(Leave(w))
  {
    ReachableStep(w, Test);
    if !w.fields.shuttingDown {
      ReachableStep(Step(w, Test), Scan(None));
      assert Step(Step(w, Test), Scan(None)) == Leave(w);
    }
  }
}
