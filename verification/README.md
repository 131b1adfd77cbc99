# The FTP gateway, modelled and proved

This project models the behaviour of an FTP server over a virtual file system
and proves what its protocols and data structures promise. `dafny verify
dfyconfig.toml` checks all of it.

## What is modelled

| part | files | form |
|---|---|---|
| passive port pool | `PortPool.dfy` | a class over the two arrays, proved against functions on a pool value; laws for every sequence of calls |
| passive data transfers | `PassiveTransfers.dfy` | a transition system: any number of control connections, openers, listener goroutines, callers of `Conn` and closes, over the pool and the one-slot `c.dt` |
| who replaces a data transfer | `PassiveSessions.dfy` | the same system with each step on the slot given to the serve loop, the one-time close or a transfer goroutine, and which ports are lost |
| graceful shutdown of a connection | `GracefulShutdown.dfy` | a transition system over the two atomic flags, `mudt` and the slot |
| server lifecycle | `ServerLifecycle.dfy` | a transition system over `mu`, the done channel, the tracked maps, serve loops and `Close`/`Shutdown` calls |
| control channel | `Telnet.dfy`, `Reply.dfy` | a class for the buffered decoder and the escaping encoder, proved against pure functions on token streams; replies on top of it, with concurrent writers |
| paths | `Paths.dfy` | Go's lexical path functions, `buildPath` and `filekey` |
| in-memory file system | `MapFs.dfy`, `MapFsTree.dfy` | a class over the flat map, and what it means as a tree |
| S3 listings | `S3Listing.dfy` | the page merge |
| session | `Session.dfy` | a transition system for the serve loop and the goroutines of RNTO, and a class for the connection whose serve method is proved to be one of its runs |

`Wrappers.dfy`, `Sequences.dfy` and `Lexical.dfy` hold what the parts share.

Concurrency is interleaving: one action of a transition system is one access to
shared state (an atomic flag read or written, a lock taken, a channel
rendezvous, a critical section that contains nothing else of interest), a run is
any sequence of enabled actions, and every main statement is about all runs.
Answers from outside (random numbers, the network, the file system, the
authorizer, contexts) are parameters of the actions and of the methods.

## What the proofs say about the code

These are statements a maintainer may not expect; each is a lemma below.

* With passive mode on `choosePassivePort` panics exactly when its slices are not
  made yet and `MinPassivePort` is above 65536 or `MaxPassivePort` below -1: they
  would get a negative length (`PortPool.ChooseErrors`).
* A pool port that is chosen can be given back exactly when `MinPassivePort >= 1`
  or `MaxPassivePort <= 0`: release ignores port 0, so a range that contains it
  loses it (`PortPool.PortsComeBackExactly`).
* Two kinds of ports are lost, and no others (`PassiveSessions.LostExactly`).
  A port whose `net.Listen` fails is never given back: `newPassiveDataTransfer`
  chooses the next one without a release. And when the one-time close of a
  connection (`Server.Close`, `ServerConn.Close`) comes while a PASV is opening its
  transfer, the transfer is installed after it, nobody closes it any more, and its
  listener goroutine keeps the port unless a goroutine of an earlier transfer
  command can still end it (`PassiveSessions.CloseDuringPasvLosesAPort`). If no
  close begins while its connection opens a transfer, in particular if only the
  ended serve loop calls it, exactly the ports whose listen failed are lost
  (`PassiveSessions.OrderlyRunsLoseOnlyFailedPorts`).
* The close inside `shutdown` never cuts a command, but the close inside
  `closeDataTransfer` can, exactly when it reads the shutdown flag as set
  (`GracefulShutdown.FinishClosesExactly`, `GracefulShutdown.FinishCutsExactly`).
  The documentation of `Shutdown` says that active transfers are not
  interrupted; the code is followed.
* The serve loop continues after a line that does not parse without clearing
  `executing`, which would keep `shutdown` from closing an idle connection
  (`GracefulShutdown.IdleConnectionClosesExactly`). `ParseCommand` accepts every
  line, so this cannot happen today (`GracefulShutdown.IdleConnectionCloses`).
* A nil result of `Server.Shutdown` means that all serve loops have ended if and
  only if `Server.Close` is not used (`ServerLifecycle.NilIsReliableExactly`); in
  every run it means so for the connections that `Close` did not take out of the
  tracked set (`ServerLifecycle.NilShutdownMeansAllEnded`).
* RNTO takes the file system of the login at its own time, so a PASS granted
  between RNFR and RNTO can make it remove a file from a file system that it was
  not copied from (`Session.RenameStaysInOneFileSystemExactly`,
  `Session.LoginBetweenMovesTheRename`).
* A directory marker of `mapfs` is listed inside its own directory, as a file with
  the directory's name, so a directory that Mkdir has just made is not listed
  rightly; the maps that list rightly are determined exactly
  (`MapFsTree.ListingsAreRightExactly`, `MapFsTree.MkdirBreaksListings`).
* When the stream ends right after a byte 255, or its reader fails between two
  commands, `Read` reports none of the bytes that it has already put into the buffer
  (`Telnet.EndOfStream`).
* `Write` doubles only the first byte 255 of its argument, so a payload survives
  exactly when it holds at most one (`Telnet.WriteSurvivesExactly`).
* `writeReply` does not look for line ends, so a reply survives exactly when no
  message contains CRLF (`Reply.ReplySurvivesExactly`).
* `mapfs` checks for an existing directory under the name as given but writes
  under the cleaned name, so the check works exactly for names that are already
  clean and relative (`MapFsTree.CreateHonoursDirectoriesExactly`).

## Model

| member | source | states |
|---|---|---|
| PortPool.FreshIsValid | ftp/server.go:448-456 | The pool made on first use has `idxPorts` inverse to `ports` and every port of the clamped range free. |
| PortPool.FreeEntries | ftp/server.go:446-467 | In a valid pool the first `numEmptyPorts` entries of `ports` are exactly the free ports. |
| PortPool.HeldEntries | ftp/server.go:446-467 | In a valid pool the entries of `ports` after the first `numEmptyPorts` are exactly the held ports. |
| PortPool.ListedOnce | ftp/server.go:446-486 | `ports` is a permutation of the configured range: each port is listed exactly once. |
| PortPool.PortsAreConserved | ftp/server.go:446-486 | Every configured port is free or held and never both. |
| PortPool.EmptyCountsFreePorts | ftp/server.go:446-467 | `numEmptyPorts` is the number of free ports. |
| PortPool.ChooseLaw | ftp/server.go:431-467 | For any random draw choose keeps the pool valid and moves exactly the port it returns from free to held; with passive mode on it succeeds exactly when some port is free, and a failure changes nothing; each error, the port 0 of an unset maximum and the panic come exactly under their conditions. |
| PortPool.ChooseErrors | ftp/server.go:431-456 | Passive mode is disabled exactly when the minimum exceeds the maximum; a maximum of 0 answers port 0 and leaves the pool; making the slices panics exactly when they are not made yet and the minimum is above 65536 or the maximum below -1. |
| PortPool.RangeIsClamped | ftp/server.go:439-456 | The pool is made of exactly the configured ports between 0 and 65535. |
| PortPool.ReleaseOutside | ftp/server.go:469-478 | Releasing port 0 does nothing, and releasing any other port outside the range panics. |
| PortPool.FreePortIsChoosable | ftp/server.go:457-466 | For every free port some random draw makes choose return it; in particular a released port can be chosen again. |
| PortPool.ReleaseLaw | ftp/server.go:469-486 | Releasing a held port does not panic, keeps the pool valid and makes exactly that port free. |
| PortPool.PortsComeBackExactly | ftp/server.go:431-486 | A chosen port that is released is free again, for every pool and draw, if and only if the minimum is at least 1 or the maximum at most 0. |
| PortPool.EverySequenceStaysBalanced | ftp/server.go:431-486 | Through every sequence of chooses and releases of held ports the pool's held set is exactly the set of ports its callers hold. |
| PortPool.CallKeepsBalance | ftp/server.go:431-486 | One choose or release keeps the held set equal to what the callers hold, and a release of a held port does not panic. |
| PortPool.PassivePorts.MakePool | ftp/server.go:448-456 | The two arrays are filled to be the fresh pool. |
| PortPool.PassivePorts.TakePort | ftp/server.go:461-466 | The in-place swap of both arrays is the pool function Take. |
| PortPool.PassivePorts.ChoosePassivePort | ftp/server.go:431-467 | On the arrays, choose does what the pool function Choose says, including the two errors and the panic of a negative length. |
| PortPool.PassivePorts.ReleasePassivePort | ftp/server.go:469-486 | On the arrays, release does what the pool function Release says, including the ignored port 0 and the panics. |
| PassiveTransfers.StepKeepsInv | ftp/transfer.go:107-264 | Every step of any machine keeps the whole invariant of pool, slots, transfers and callers. |
| PassiveTransfers.RunKeepsInv | ftp/transfer.go:107-264 | Every run, of any number of connections and transfers, keeps the invariant of pool, slots, transfers and callers. |
| PassiveTransfers.EveryPortHasOneState | ftp/transfer.go:107-186 | In every interleaving each pool port is exactly one of: free, being tried by an opener, owned by an unfinished listener goroutine, retired after a failed listen. |
| PassiveTransfers.PortCountsAreConserved | ftp/transfer.go:107-186 | The numbers of free, tried and retired ports and of listener goroutines that own one add up to the size of the range. |
| PassiveTransfers.ReleaseIsSafe | ftp/transfer.go:145-147 | The release at the end of a listener goroutine never panics, and keeps the pool in step with the holders of its ports. |
| PassiveTransfers.ReleaseFreesItsPort | ftp/transfer.go:145-147 | In every interleaving the port given back is held, by this transfer alone, and the release frees exactly that port. |
| PassiveTransfers.OneReleasePerTransfer | ftp/transfer.go:145-147 | In any run a transfer calls release at most once. |
| PassiveTransfers.OpenListenersHaveTheirOwnPorts | ftp/transfer.go:147-148 | Two open listeners never share a pool port, and the port of an open listener is not free. |
| PassiveTransfers.FailedListenRetires | ftp/transfer.go:110-124 | A failed listen on a pool port puts exactly the port that was tried among the retired ones, and no other step retires a port. |
| PassiveTransfers.FailedBindExactly | ftp/transfer.go:110-124 | A successful listen starts the listener goroutine; after a failed one the opener tries again, and gives up exactly on the sixth. |
| PassiveTransfers.AtMostSixListensFail | ftp/transfer.go:110-124 | In every run at most six listens of one transfer fail. |
| PassiveTransfers.OneFailedListen | ftp/transfer.go:117-123 | With any configuration that has a port a run reaches a state with a retired port. |
| PassiveTransfers.RetiredPortNeverReturns | ftp/transfer.go:110-124 | A retired port stays retired and is not free in any later state of any run. |
| PassiveTransfers.SlotHoldsTheUnclosedTransfer | ftp/transfer.go:221-264 | An installed transfer is closed at most once, and one not yet closed is the one in the slot of its connection. |
| PassiveTransfers.CloseNeverPanics | ftp/transfer.go:221-233 | Whenever Close reaches the close of its `closed` channel (or active connection) it is the first to do so. |
| PassiveTransfers.OneCheckedConnection | ftp/transfer.go:145-201 | At most one connection is handed out per transfer; with the address check on, its peer has an address, and the address of the control connection's peer; the channel is closed once with no send or close enabled afterwards. |
| PassiveTransfers.AcceptExactly | ftp/transfer.go:149-201 | A temporary error is retried, a permanent one is offered; a connection is offered if the check is off or its peer has the address of the control connection's peer, and skipped otherwise. |
| PassiveTransfers.AddressIsThePeers | ftp/transfer.go:192-200 | In every run the address that the check compares with is the one that the control connection was made with, and the check is on or off throughout. |
| PassiveTransfers.OfferIsDelivered | ftp/transfer.go:164-185 | In every run a listener goroutine delivers at most once, a connection or an error, and gives up its offer without a delivery only after Close. |
| PassiveTransfers.OneCallerGetsTheConnection | ftp/transfer.go:203-219 | Of any number of `Conn` callers at most one gets a connection; it is the one handed out, and with the address check on its peer has the address of the control connection's peer. |
| PassiveTransfers.HandedConnectionIsHeldOnce | ftp/transfer.go:203-219 | In every run a connection that was handed out is held by exactly one caller of `Conn`, and is in `t.conn` once that call has returned. |
| PassiveTransfers.StoppedListenerCanMove | ftp/transfer.go:145-186 | Once Close has run on a transfer its unfinished listener goroutine always has an enabled step. |
| PassiveTransfers.StoppedListenerGetsOn | ftp/transfer.go:145-186 | Once Close has run, each step of the listener goroutine lowers its rank, and no step of anyone else changes the rank or undoes the close. |
| PassiveTransfers.StoppedListenerFinishes | ftp/transfer.go:145-186 | In any run after Close the listener goroutine takes at most as many further steps as its rank, and has finished when it has taken them. |
| PassiveSessions.MoveKeepsInv | ftp/conn.go:232-246 | Every move of serve loops, one-time closes and transfer goroutines keeps the invariant: who holds the slot's lock, that an unsettled transfer has the loop busy with it, and that nothing opens once a close has begun and the command is over. |
| PassiveSessions.PathsAreRuns | ftp/transfer.go:250-264 | Every run with these owners of the slot is a run of PassiveTransfers, so all statements there hold of it. |
| PassiveSessions.FlagFollowsMoves | ftp/conn.go:238-239 | In every path the shutdown flag of a connection is set exactly when a shutdown, a command that ends the session or its one-time close has set it. |
| PassiveSessions.EveryConnectionIsClosedOnce | ftp/command.go:675-710 | In every path a transfer goroutine locks the slot to close it once for each data connection that it got, or still holds the connection. |
| PassiveSessions.HopefulCanRelease | ftp/transfer.go:107-264 | A port whose transfer the serve loop or the one-time close will still close has a continuation in which it is free. |
| PassiveSessions.HelperCanRelease | ftp/command.go:675-710 | So has a port whose transfer comes after the one-time close, as long as a goroutine of a transfer command can get its connection, or can close the slot with the deferred closeDataTransfer. |
| PassiveSessions.LostPortNeverReturns | ftp/conn.go:232-246 | A port whose listen failed, or whose transfer comes after the one-time close with no such goroutine left, is not free in any later state of any run. |
| PassiveSessions.LostExactly | ftp/transfer.go:107-143 | A held port of a reachable state can never become free again if and only if it is one of these two kinds. |
| PassiveSessions.OrderlyRunsLoseOnlyFailedPorts | ftp/server.go:196-205 | In runs in which no one-time close begins while its connection opens a transfer, exactly the ports whose listen failed are lost. |
| PassiveSessions.CloseDuringPasvLosesAPort | ftp/transfer.go:107-143 | With any configuration that has a port, a run with a close during PASV in which no listen failed and a port is lost. |
| GracefulShutdown.StepKeepsInv | ftp/conn.go:89-119 | Every step of the serve loop and of any shutdown, install, finish or close call keeps the handshake's invariant. |
| GracefulShutdown.RunKeepsInv | ftp/conn.go:89-119 | Every run of the serve loop with any number of calls keeps the handshake's invariant. |
| GracefulShutdown.FlagsFollowActions | ftp/conn.go:100-114 | In every run the shutdown flag is set exactly when a command that ends the session, a `shutdown` or a ServerConn.close has set it; `executing` is what the loop wrote last; and the loop has ended exactly when it read the flag as set, its input ended, or it refused a line. |
| GracefulShutdown.SlotFollowsSwaps | ftp/transfer.go:250-256 | In every run the slot holds the empty transfer exactly when the last call that swapped it did not install a transfer. |
| GracefulShutdown.ShutdownNeverCutsACommand | ftp/conn.go:267-275 | Whenever `shutdown` is about to close the control connection no command is executing or past the second test of the flag, and the slot holds the empty transfer; SlotFollowsSwaps says when it does. |
| GracefulShutdown.ShutdownSparesATransfer | ftp/conn.go:267-275 | A `shutdown` that reads the slot after an install, with no other swap between, closes nothing in any interleaving; otherwise it goes on to read `executing`. |
| GracefulShutdown.NoTransferIsInstalledAtTheClose | ftp/conn.go:267-275 | Whenever `shutdown` is about to close the control connection, the last swap of the slot was no install. |
| GracefulShutdown.NoCommandStartsAfterTheFlag | ftp/conn.go:100-114 | In every continuation after the flag is set at most the one line already past the second test starts to execute. |
| GracefulShutdown.NothingExecutesAfterTheClose | ftp/conn.go:267-275 | In every continuation of a state in which `shutdown` closes the connection no command starts or executes. |
| GracefulShutdown.IdleConnectionClosesExactly | ftp/conn.go:100-114 | In every interleaving a `shutdown` that reads `executing` while the loop tests the flag or waits for a line closes the connection once if the latest line parsed, and not at all otherwise. |
| GracefulShutdown.IdleConnectionCloses | ftp/command.go:33-44 | In every run in which every line parses, as ParseCommand makes sure, a `shutdown` that reads `executing` while the loop tests the flag or waits for a line closes the connection, in every interleaving. |
| GracefulShutdown.RejectedLineKeepsConnectionOpen | ftp/conn.go:107-111 | A run with one line that does not parse in which a whole `shutdown` call returns and leaves an idle connection open. |
| GracefulShutdown.DecidedCallsDoWhatTheyDecided | ftp/conn.go:267-275 | A `shutdown` or closeDataTransfer call that has made its test closes the connection once or not at all as the test said, in every interleaving. |
| GracefulShutdown.ClosedExactly | ftp/conn.go:238-275 | In every run the control connection is closed exactly when some call has taken a closing step. |
| GracefulShutdown.CloseCallClosesTwice | ftp/conn.go:238-246 | A call of ServerConn.close closes the control connection twice in every interleaving, once in its closeDataTransfer, for which it has set the flag, and once itself. |
| GracefulShutdown.ShutdownClosesIdleConnection | ftp/conn.go:267-275 | A run in which a whole `shutdown` call closes a connection that waits for its first line. |
| GracefulShutdown.FinishClosesExactly | ftp/transfer.go:258-264 | In every interleaving a closeDataTransfer call closes the control connection if and only if the flag was set when it read it. |
| GracefulShutdown.FinishCutsExactly | ftp/transfer.go:258-264 | A closeDataTransfer call at its test, while a command executes, can close the connection during a command if and only if the flag is set. |
| GracefulShutdown.FinishedTransferMayCutACommand | ftp/transfer.go:258-264 | A run in which closeDataTransfer, and no other call, has closed the control connection while a command is executing. |
| GracefulShutdown.EveryCloseNeedsTheFlag | ftp/conn.go:238-275 | No call, of shutdown, closeDataTransfer or ServerConn.close, is about to close the control connection before the flag is set. |
| GracefulShutdown.LoopEndsAfterTheFlag | ftp/conn.go:100-114 | Once the flag is set the serve loop takes at most four further steps in any interleaving, has ended when it has taken them, and can always take the next. |
| ServerLifecycle.StepKeepsInv | ftp/server.go:162-412 | Every step of serve loops, connection goroutines and Close/Shutdown calls keeps the invariant. |
| ServerLifecycle.RunKeepsInv | ftp/server.go:162-412 | Every run of serve loops, connection goroutines and Close/Shutdown calls keeps the invariant. |
| ServerLifecycle.DoneIsClosedOnce | ftp/server.go:100-110 | Under any number of concurrent Close and Shutdown calls the done channel is closed at most once, by the holder of `mu`, and never while closed. |
| ServerLifecycle.ClosedListenerMeansServerClosed | ftp/server.go:172-206 | If the listener of a running serve loop is closed, in every continuation the loop can only end with ErrServerClosed; the done channel is closed by then. |
| ServerLifecycle.AcceptFailureExactly | ftp/server.go:174-192 | With the done channel open a temporary error is retried and a permanent one ends the loop with it; with the channel closed either ends it with ErrServerClosed. |
| ServerLifecycle.ServerClosedMeansShuttingDown | ftp/server.go:166-199 | In every run ErrServerClosed is returned only after the flag was set. |
| ServerLifecycle.EndedServeClosedItsListener | ftp/server.go:163-164 | In every run a serve call that has returned has closed its listener. |
| ServerLifecycle.RejectionEndsServe | ftp/server.go:197-200 | A serve loop that could not track a connection goes on to return ErrServerClosed, in every continuation. |
| ServerLifecycle.OnlyCallsShutDown | ftp/server.go:366-394 | The flag is set, and the done channel closed, only by a Close or Shutdown call that has come so far. |
| ServerLifecycle.ListenerClosesAfterDone | ftp/server.go:367-394 | While a serve loop runs, a closed listener means that the done channel is closed and the flag set. |
| ServerLifecycle.FirstSectionQuiesces | ftp/server.go:367-394 | A call that has left its first critical section has set the flag, emptied the tracked listeners and closed the listener of every running serve loop. |
| ServerLifecycle.NothingIsTrackedAgain | ftp/server.go:299-343 | Once a Close or Shutdown call has left its first critical section, no listener and no connection is tracked again in any run. |
| ServerLifecycle.NothingIsAcceptedAgain | ftp/server.go:172-206 | Once a Close or Shutdown call has left its first critical section, no connection is accepted in any continuation. |
| ServerLifecycle.UntrackedMeansClosed | ftp/server.go:196-205 | A connection that was tracked and no longer is has been closed, and so has one that was refused because of the flag. |
| ServerLifecycle.OnlyCloseClosesServing | ftp/server.go:345-354 | In every run, while a connection is being served its Close is called only by a Close of the server, which takes it out of the tracked set. |
| ServerLifecycle.NotesAreTrue | ftp/server.go:345-375 | What the state notes of the past is so: Close was used, or took a connection out, exactly when the run says so. |
| ServerLifecycle.NilShutdownMeansAllEnded | ftp/server.go:388-412 | In every run a nil result of Shutdown means that every tracked connection is closed and its goroutine gone unless Close took it out of the tracked set; without Close all are gone. |
| ServerLifecycle.NilShutdownAfterCloseProvesNothing | ftp/server.go:345-354 | A run with Close in which Shutdown returns nil while a connection is still being served. |
| ServerLifecycle.NilIsReliableExactly | ftp/server.go:367-412 | A nil result tells in all runs that every tracked goroutine has ended if and only if Close is not allowed in them. |
| Telnet.TokenRoundTrip | ftp/telnet.go:43-147 | Scanning the wire form of any token gives the token back, whatever follows, including subnegotiations with doubled bytes. |
| Telnet.ScannedTokenIsWire | ftp/telnet.go:43-147 | Whatever scans as a token is the wire form of that token. |
| Telnet.ParseInvertsWire | ftp/telnet.go:43-121 | A written token stream parses to the same tokens. |
| Telnet.WireInvertsParse | ftp/telnet.go:43-121 | A stream that parses is the wire form of its tokens, so complete streams are exactly those that parse. |
| Telnet.WireIsLiteral | ftp/telnet.go:10-18 | The wire form of every token and its data, in the byte values of RFC 854. |
| Telnet.ChunkTakesWholeTokens | ftp/telnet.go:43-97 | One Read of a complete stream takes whole tokens from its front, delivers exactly their data, queues exactly their WILL and DO options, and reports the end only at the end. |
| Telnet.EveryChunkStops | ftp/telnet.go:45-60 | A chunk never exceeds the buffer, and without an error it is full or ends in a newline. |
| Telnet.NewlineOnlyAtTheEnd | ftp/telnet.go:53-60 | On any input a newline is only ever the last byte of a chunk. |
| Telnet.EndIsReportedAsItIs | ftp/telnet.go:48-54 | On any input EOF is reported only at the end of the stream, and an error only when the reader failed. |
| Telnet.EndOfStream | ftp/telnet.go:46-94 | Read on tokens and an unfinished one, with room to spare and no newline: at EOF all the data is reported, except that none is when the stream ends right after 255; when the reader fails the error is reported with no byte, unless it fails further inside a command. |
| Telnet.EveryStreamIsTokens | ftp/telnet.go:63-147 | Every stream is complete tokens and an unfinished one, so the ends above are all there are. |
| Telnet.SizesDoNotMatter | ftp/telnet.go:43-97 | Reads with any sequence of sizes deliver the data and options of a prefix of the tokens, in order, leaving the wire form of the rest. |
| Telnet.EndIsReached | ftp/telnet.go:43-97 | With positive sizes, one more read than there are data bytes reaches the end of the stream. |
| Telnet.ReadIsTheDecoder | ftp/telnet.go:43-147 | Reading a complete stream with any positive sizes, one more than there are data bytes, gives exactly the bytes and option queues of the pure token decoder. |
| Telnet.WriteSurvivesExactly | ftp/telnet.go:149-176 | A written payload decodes to itself if and only if it holds at most one byte 255. |
| Telnet.UnescapedSurvivesExactly | ftp/telnet.go:164-165 | A payload written without the escape decodes to itself exactly when it holds no byte 255. |
| Telnet.EscapeAt | ftp/telnet.go:157-170 | The written form of a payload: the bytes up to and including the first 255, that byte again, and the rest as it is. |
| Telnet.RefusalsAreLiteral | ftp/telnet.go:178-199 | The answers on the wire are 255 252 and the option for each WILL, then 255 254 and the option for each DO. |
| Telnet.WritesAreLiteral | ftp/telnet.go:149-206 | Each write and each flush puts on the wire the answers still owed and then the escaped payload, and owes nothing afterwards. |
| Telnet.OptionIsRefused | ftp/telnet.go:123-199 | The bytes 255 251 and an option, when read, are answered 255 252 and that option; 255 253 is answered 255 254. |
| Telnet.EventKeepsAccounts | ftp/telnet.go:149-206 | Each write, flush or received option keeps the accounts of payload sent and options answered. |
| Telnet.LifeRoundTrip | ftp/telnet.go:149-206 | After any sequence of writes, flushes and received options the wire is a token stream with exactly the payloads, and each option received is answered once, in order, or still queued: WONT for WILL, DONT for DO. |
| Telnet.WritesReadBack | ftp/telnet.go:43-206 | Reading what any sequence of writes with at most one byte 255 each put on the wire, with any positive buffer sizes, returns exactly the concatenated payloads. |
| Telnet.WritesReadBackExactly | ftp/telnet.go:43-206 | Without received options, what any sequence of writes and flushes put on the wire reads back as the payloads, with any positive buffer sizes, if and only if every write holds at most one byte 255. |
| Telnet.TelnetConn.IgnoreSubnegotiation | ftp/telnet.go:99-121 | The loop with its flag consumes exactly one subnegotiation body, or everything when there is no end. |
| Telnet.TelnetConn.ReadWillOption | ftp/telnet.go:123-134 | Queues the option byte of a WILL, or nothing at the end of the stream. |
| Telnet.TelnetConn.ReadDoOption | ftp/telnet.go:136-147 | Queues the option byte of a DO, or nothing at the end of the stream. |
| Telnet.TelnetConn.ReadCommand | ftp/telnet.go:63-94 | The switch after IAC consumes exactly the token that the scanner finds there. |
| Telnet.TelnetConn.ReadToken | ftp/telnet.go:46-94 | One turn of the loop consumes exactly one token. |
| Telnet.TelnetConn.FillOne | ftp/telnet.go:45-95 | One turn of the loop consumes exactly one token, and changes the buffer, its fill and the results as that token says. |
| Telnet.TelnetConn.Read | ftp/telnet.go:43-97 | The buffer loop refines the pure one-chunk decoder on every input, truncated or failing ones included: bytes, count, status, queues and unread rest. |
| Telnet.TelnetConn.WriteOption | ftp/telnet.go:178-199 | Writes a WONT for every queued WILL, then a DONT for every queued DO, in order, and empties both queues. |
| Telnet.TelnetConn.Write | ftp/telnet.go:149-176 | Reports the payload's length, and answers the options before the escaped payload. |
| Telnet.TelnetConn.Flush | ftp/telnet.go:201-206 | Answers pending options, then everything written is flushed. |
| Reply.ReplyRoundTrip | ftp/conn.go:161-202 | A reply of none, one or many messages parses back whole, with its code and messages, whatever bytes follow. |
| Reply.LinesAreLiteral | ftp/conn.go:161-202 | Each line of a reply is the three digits of the code, 45 or, in the last line, 32, the message, and 13 10. |
| Reply.ReplySurvivesExactly | ftp/conn.go:161-202 | A reply parses back to itself if and only if no message contains CRLF. |
| Reply.RepliesRoundTrip | ftp/conn.go:161-202 | A sequence of replies parses back to the same sequence. |
| Reply.WriteReply | ftp/conn.go:161-202 | Writes the lines of the reply one by one through the Telnet layer, flushes, and returns the number of bytes. |
| Reply.StepKeepsInv | ftp/conn.go:148-159 | Every step of concurrent repliers and of the option reader keeps the wire equal to whole replies plus the lock holder's part. |
| Reply.RunKeepsInv | ftp/conn.go:148-159 | Every run of concurrent repliers keeps the wire equal to whole replies plus the lock holder's part. |
| Reply.EveryReplyReadsBack | ftp/conn.go:148-202 | Whenever no goroutine holds the lock everything written is flushed, and read through Telnet with any positive buffer sizes and parsed it is exactly the messages with which WriteReply was called, uninterleaved, in the order in which the calls took the lock, and no call that has gone on is missing. |
| Paths.CanonicalExactly | ftp/conn.go:301-306 | The absolute paths that Clean leaves alone are exactly those written from names. |
| Paths.CleanIsCanonical | ftp/conn.go:301-306 | Cleaning any absolute path gives a canonical path. |
| Paths.DirDropsLast | ftp/command.go:282 | Dir of a canonical path drops its last name. |
| Paths.DirShortens | vfs/mapfs/mapfs.go:132-138 | The parent of an absolute path other than the root is absolute and shorter, so climbing ends. |
| Paths.BuiltPathIsCanonical | ftp/conn.go:301-306 | From a canonical working directory every built path is canonical: the argument's elements applied below it and never above the root. |
| Paths.CleanKeepsMeaning | ftp/conn.go:301-306 | Cleaning a relative path keeps where it leads from every canonical directory, and leaves steps up followed by names, or a single dot. |
| Paths.CdupIsCwdDotDot | ftp/command.go:277-284 | CDUP from a canonical directory other than the root goes exactly where CWD `..` goes. |
| Paths.FileKeyNames | vfs/s3fs/s3vfs.go:45-48 | The key of a path is the names of the prefix followed by the path's names. |
| Paths.KeyStaysUnderPrefix | vfs/s3fs/s3vfs.go:45-48 | Every key is the prefix, exactly for the root, or lies strictly under it. |
| Paths.KeysAgreeExactly | vfs/s3fs/s3vfs.go:45-48 | Two paths share a key if and only if their canonical forms agree. |
| Paths.SessionStaysUnderPrefix | vfs/s3fs/s3vfs.go:45-57 | The key of any path that a session builds is the prefix or lies under it. |
| MapFs.MapFS.Stat | vfs/mapfs/mapfs.go:54-92 | The lookups and the prefix loop succeed exactly when the path is a key or lies above one; the result is a directory exactly when the path is no key, its size is that of the contents or 0, and its name the last one. |
| MapFs.LookupExactly | vfs/mapfs/mapfs.go:63-87 | A path is a file with its contents exactly when it is a key, and a directory exactly when it is no key and lies above one. |
| MapFs.MapFS.Open | vfs/mapfs/mapfs.go:39-52 | Opens exactly the files, with their contents. |
| MapFsTree.LstatExactly | vfs/mapfs/mapfs.go:54-87 | The information on an absolute path below the root, read off the keys: existence, last name, kind and size. |
| MapFs.MapFS.CreateFile | vfs/mapfs/mapfs.go:169-201 | The map becomes what Create says, or stays as it is with the error. |
| MapFs.MapFS.MakeDir | vfs/mapfs/mapfs.go:205-235 | The map becomes what Mkdir says, or stays as it is with the error. |
| MapFs.MapFS.RemovePath | vfs/mapfs/mapfs.go:238-277 | The map becomes what Remove says, or stays as it is with the error. |
| MapFsTree.CreateSucceedsExactly | vfs/mapfs/mapfs.go:169-201 | Create with a clean relative name succeeds exactly when no key lies below it, so never on a directory. |
| MapFsTree.MkdirSucceedsExactly | vfs/mapfs/mapfs.go:205-235 | Mkdir succeeds exactly where nothing is. |
| MapFsTree.RemoveSucceedsExactly | vfs/mapfs/mapfs.go:238-277 | Remove succeeds exactly on files and on directories below which no path exists; a directory with something below is not empty, and what is not there does not exist. |
| MapFs.MapFS.ReadEntries | vfs/mapfs/mapfs.go:107-142 | For any iteration order the result has an entry for every name some key contributes, each entry is one a key contributes, and no name repeats. |
| MapFs.MapFS.ClimbFrom | vfs/mapfs/mapfs.go:112-139 | The parent-climbing loop ends and keeps everything its key contributes. |
| MapFs.MapFS.ReadDir | vfs/mapfs/mapfs.go:145-166 | The result is the entries that the keys contribute, with their names ascending, or not-exist when there are none, for the iteration order that happened. |
| MapFsTree.RemoveKeepsOthers | vfs/mapfs/mapfs.go:238-277 | A successful Remove leaves kind and contents of every other non-root path unchanged. |
| MapFsTree.RemovedIsGone | vfs/mapfs/mapfs.go:238-277 | A removed directory no longer exists, and a removed file only stays visible as a directory if keys lay below it. |
| MapFsTree.MkdirChangesExactly | vfs/mapfs/mapfs.go:205-235 | Mkdir turns the path and its missing ancestors into directories and changes nothing else. |
| MapFsTree.CreateChangesExactly | vfs/mapfs/mapfs.go:169-201 | Create makes the cleaned path a file with the contents and its missing ancestors directories, and changes nothing else; a clean relative name was no directory before. |
| MapFsTree.CreateHonoursDirectoriesExactly | vfs/mapfs/mapfs.go:179-199 | The directory check of Create works in every tree if and only if the name is its own cleaned form. |
| MapFsTree.ClimbMeetsOnce | vfs/mapfs/mapfs.go:112-139 | The climb from a key meets a directory once, if the directory lies above the key, and never otherwise. |
| MapFsTree.ContributesChild | vfs/mapfs/mapfs.go:112-139 | A key contributes a name to a listing, as itself, exactly when it is the child's file or the directory's own marker, and as a directory exactly when it lies under the child. |
| MapFsTree.ListingIsChildren | vfs/mapfs/mapfs.go:107-142 | On a map of clean keys, no file above another key and every marker with a file of its directory's name and its own size, a listing has exactly the immediate children, each under its name, as a directory exactly when the child is no key, and with the size of its contents or 0; maps with file keys only are the case without markers. |
| MapFsTree.ReadDirLists | vfs/mapfs/mapfs.go:145-166 | On such a map any result of ReadDir is the strictly ascending list of exactly the immediate children, each as Lstat describes it and as the keys say (kind, size, name), and not-exist exactly when there is no child. |
| MapFsTree.ListingIsUnique | vfs/mapfs/mapfs.go:107-166 | On maps as in ReadDirLists two results of ReadDir for one directory are equal, however the map was iterated. |
| MapFsTree.ListingsAreRightExactly | vfs/mapfs/mapfs.go:107-166 | Among the maps of clean keys, every result that the specification of ReadDir admits is right, for every directory, if and only if no file key lies above another key and every marker has a file of its directory's name and its own size in the directory. |
| MapFsTree.ListsExactly | vfs/mapfs/mapfs.go:107-142 | The results that the specification of readDir admits are exactly those of the first-entry-wins loop over the keys in some order. |
| MapFsTree.ExplainedIsListed | vfs/mapfs/mapfs.go:111-131 | Whatever entry a key contributes is in some result that the specification of ReadDir admits, hence (ListsExactly) in that of some iteration order. |
| MapFsTree.MkdirBreaksListings | vfs/mapfs/mapfs.go:205-235 | After a successful Mkdir some listing is wrong: the new directory shows its own marker as a file. |
| S3Listing.MergeAscends | vfs/s3fs/s3vfs.go:257-273 | The merge of two ascending lists without a common key is strictly ascending. |
| S3Listing.ListingKeepsEntries | vfs/s3fs/s3vfs.go:250-274 | The listing is a permutation of all entries of all pages, whatever their order. |
| S3Listing.ListingAscends | vfs/s3fs/s3vfs.go:250-274 | From pages ordered as S3 delivers them it is strictly ascending. |
| S3Listing.PagingDoesNotMatter | vfs/s3fs/s3vfs.go:250-274 | The same entries cut into pages in two ways give the same listing. |
| S3Listing.AppendPage | vfs/s3fs/s3vfs.go:257-273 | The loops that consume both slices append exactly the merge of one page. |
| S3Listing.EveryPageIsFetched | vfs/s3fs/s3vfs.go:251-273 | Without an error every page is fetched, in order. |
| S3Listing.ReadDir | vfs/s3fs/s3vfs.go:242-300 | An error of any page is the result; otherwise each entry is in the listing as often as it is on all answered pages together, and the listing ascends when the pages are ordered. |
| Session.ServerConn.ExecutePass | ftp/command.go:519-547 | The outcome follows the authorizer's answer: a grant logs in with exactly what was granted, resets the counter, goes to the root and replies 230; a failure leaves login and directory, counts one more, sleeps five seconds unless it is the first one of `anonymous` or `ftp`, and replies 530 or 500; after a cancelled sleep or with more than five failures the flag is set. |
| Session.ServerConn.ExecuteCwd | ftp/command.go:292-305 | The names of the directory become those of the argument applied below it when Stat says it is a directory, and stay as they are otherwise. |
| Session.ServerConn.ExecuteCdup | ftp/command.go:277-284 | The names of the directory lose exactly the last one; at the root the command is refused and nothing changes. |
| Session.ServerConn.ExecuteRnfr | ftp/command.go:752-772 | Refused without effect while a rename is pending; otherwise a rename is pending afterwards exactly when the file was opened, its reader kept and its names those of the argument applied below the working directory. |
| Session.ServerConn.ExecuteRnto | ftp/command.go:784-809 | Afterwards nothing is pending; a goroutine starts exactly when a rename was pending, with its path and reader, and a target whose names are those of the argument applied below the working directory. |
| Session.ServerConn.ExecCommand | ftp/conn.go:121-145 | Every command keeps the connection valid and never clears the flag; without a login none but PASS has an effect outside the connection. |
| Session.ServerConn.Serve | ftp/conn.go:89-119 | The serve loop on the object, with the deferred close, is a run of the transition system: it ends in a reachable state with the object's fields, and stops before its input does only with the flag set. |
| Session.CommandLaws | ftp/conn.go:121-145 | What each command asks for and may touch: an unknown one, a missing argument and a missing login are refused with 500, 501 and 530 and without effect, USER stores its argument, QUIT and the HTTP methods set the flag, only PASS changes the login and counts failures, and only CWD, CDUP and PASS change the directory. |
| Session.PassLaws | ftp/command.go:519-547 | An attempt records the user and exactly what the authorizer granted; the login becomes that, and stays otherwise. |
| Session.StepKeepsInv | ftp/conn.go:89-119 | Every step of the serve loop, with the two reads of the flag and the command as separate steps, of RNTO goroutines and of callers setting the flag keeps the session's invariant. |
| Session.RunKeepsInv | ftp/conn.go:89-119 | Every run of a session keeps the invariant of login, directory, rename and readers. |
| Session.WorkingDirectoryIsCanonical | ftp/command.go:277-305 | In every run the login is the latest one granted; once logged in the working directory is a canonical absolute path, and it is the root or lies above a directory that CWD entered. |
| Session.NothingHappensBeforeLogin | ftp/conn.go:140-143 | In every run in which no attempt was granted an authorization, no directory was entered, no file opened and no rename started; LoginComesFromTheAuthorizer ties the attempts to the authorizer's answers. |
| Session.AttemptsAreTries | ftp/command.go:519-547 | In every run the recorded attempts are exactly the executed PASS commands with the user of that moment and the authorizer's answer, read off the actions. |
| Session.LoginComesFromTheAuthorizer | ftp/command.go:519-547 | In every run the login is the latest one that the authorizer granted to an executed PASS, the failure counter counts its refusals since, and before the first grant nothing was touched; all read off the actions. |
| Session.CdupActsAsCwdDotDot | ftp/command.go:277-284 | In every reachable session not at the root, CDUP has the effect of CWD `..` and takes away exactly one name. |
| Session.EverySessionStaysUnderPrefix | ftp/conn.go:301-306 | In every run the bucket key of any path built while logged in is the prefix or lies under it. |
| Session.FailuresAreThrottled | ftp/command.go:519-542 | In every run and after every attempt, the failures in a row are at most six, five seconds were slept for each but the first unless a sleep was cancelled, and each attempt slept exactly as the rule for anonymous users says. |
| Session.NoCommandStartsAfterTheFlag | ftp/conn.go:100-114 | Once the flag is set, in every continuation only the command already past the second test still executes, and when there is none no field changes. |
| Session.SixthFailureIsTheLast | ftp/command.go:531-541 | After six failures in a row, or a cancelled sleep, no command executes and no field changes, in every continuation. |
| Session.PendingPathHasItsReader | ftp/command.go:752-794 | In every run a rename path is pending exactly when a reader is, and the reader was opened for that path. |
| Session.RenameRemovesWhatItCopies | ftp/command.go:784-808 | The path that an RNTO goroutine removes is the one its reader was opened for, and both its paths are canonical. |
| Session.RenameStaysInOneFileSystemExactly | ftp/command.go:784-808 | An RNTO goroutine removes in the file system that it copies from if and only if the logins granted last before RNFR and before RNTO have the same file system; with no grant in between they are the same login. |
| Session.LoginBetweenMovesTheRename | ftp/command.go:784-808 | A run with a login between RNFR and RNTO in which the file is removed from another file system than it was copied from. |
| Session.ReadersAreConserved | ftp/command.go:752-809 | In every run the readers opened are those closed, those of RNTO goroutines and at most one pending; none is closed twice or while still held. |
| Session.EveryReaderIsClosedOnce | ftp/conn.go:92-96 | When the session has ended and every Create has returned, each reader was closed exactly once. |

## Left out

- Sockets, TLS, S3 calls, bcrypt, YAML, signals, logging, clocks, public address guessing: abstracted to parameters and nondeterministic answers.
- Status constants, listing text and dates, the null and read-only file systems, commands that only reply, active-mode dialling: they would add only easy members.
- Replacing the Telnet layer when TLS is switched on (ftp/conn.go:204-218), and errors of the underlying writer and of its buffer.
- The commands LIST, NLST, STOR, STOU and MLSD call Conn on the serve loop; in PassiveSessions every transfer command does it in a goroutine, as RETR and APPE do, and its loop may go on before: that only adds runs of the kind RETR has when its context ends.
- Whole-session graceful transfers: when the loop ends, the deferred close also closes the current transfer, so they are not promised by the code.
- Closing of every accepted data connection: peers that fail the address check are skipped without a close (ftp/transfer.go:174-176), and Close can run between the receive and the assignment in Conn (ftp/transfer.go:205-214).
- The goroutines of ftp/transfer.go, the serve loops and the shutdown calls are steps on values rather than methods on objects, because they interleave; updates of shared fields are updates of the state.
- Short critical sections that touch one lock and no other shared state are one step of a transition system; reads and writes of the atomic flags are separate steps and sequentially consistent, except that in `Session` a command and its own write of the flag are one step, and in `PassiveSessions` a close and its write of the flag.
- Strings are sequences of characters, where Go's are bytes; `sort.Strings` is an insertion sort on distinct strings.
- The lines of the control channel are commands already parsed; trimming and upper-casing in ParseCommand (ftp/command.go:34-44) are not modelled.
- Lookups of the root in `mapfs`, and directory lookup and removal in `s3fs`, which depend on one-key listings and do not implement the simple tree meaning.
- RETR and STOR pass their raw argument to the file system and do not build a path (ftp/command.go:678, ftp/command.go:850), so the path properties do not speak of them.
- PassiveTransfers.StepKeepsInv: lets anybody lock the slot of a connection at any time, more than the code does; PassiveSessions gives each such step to its owner.
- PassiveTransfers.StoppedListenerCanMove: assumes that Accept on a closed listener fails, and not as a temporary error.
- PassiveTransfers.RunKeepsInv: is about configurations whose ports come back, which is what PortPool.PortsComeBackExactly shows to be needed.
- Telnet.ReadIsTheDecoder: is about streams of complete tokens, because an end of stream right after IAC makes Read return 0 and drop bytes already read; Telnet.TelnetConn.Read covers those inputs too.
- Telnet.LifeRoundTrip: is about writes with at most one byte 255, the exact condition of Telnet.WriteSurvivesExactly; the refusals pair WONT with WILL and DONT with DO as the code does, not as RFC 854 does.
- Reply.EveryReplyReadsBack: is about codes below 1000 and messages that both layers can carry, at most one byte 255 and no CRLF each.
- MapFsTree.ListingsAreRightExactly: is about maps whose keys are clean file paths or markers of clean paths, which are all that the operations with clean names write.
- Paths.KeyStaysUnderPrefix: is about canonical prefixes, with or without a leading slash.
- Session.FailuresAreThrottled: counts the seconds for which the code asks its timer, not the time that passed.
