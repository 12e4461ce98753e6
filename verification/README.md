# Verification of mapplauncherd

mapplauncherd launches applications out of pre-forked *boosters*.  An *invoker* sends a launch
request to a booster over a Unix socket; the booster tells its parent, the launcher *daemon*, and
becomes the application; the daemon forks the next booster, waits for its children, and reports how
an application ended to the invoker that asked for it.  This project models the four parts that
carry state across processes and proves what holds of them in every run.

* **The daemon as a supervisor.**  `Supervisor.dfy` is the state machine (vector of children, two
  maps keyed by booster pid, current booster, mode) together with the part of the kernel it can see.
  Children die and send at any time, also between `select` and the use of its result and between
  two calls of `waitpid`; `fork` may return any pid that is not in use, one just reaped included;
  `recvmsg` may return any descriptor that is not open.  `Daemon.dfy` is the class with the source's
  fields and loops, each method proved against a function of `Supervisor.dfy`.  The theorems are in
  `SupervisorSafety.dfy`, `SupervisorHistory.dfy`, `SupervisorReap.dfy`, `SupervisorAttribution.dfy`,
  `SupervisorSteps.dfy` and `SupervisorLife.dfy`.  They speak of the history of effects (forks, registrations, calls of waitpid,
  reaps, writes, closes, signals), which is kept outside of the daemon.
* **The re-exec state file**, character by character: `StateFile.dfy`, `StateFileTheorems.dfy`.
* **The launch protocol.**  `Protocol.dfy` has words, strings and the byte stream;
  `Requests.dfy` the encoder with the invoker's senders; `Connection.dfy` the decoder as functions
  and `BoosterConnection.dfy` as the class that consumes a stream; `AnyStream.dfy` what the decoder
  makes of any stream, `WireTheorems.dfy` of any request, `Environments.dfy` of the environment, and
  `ArgumentVector.dfy` when it leaves arguments.
* **The sessions.**  `BoosterLoop.dfy` and `BoosterTheorems.dfy` (the request loop of a booster),
  `ArgvArea.dfy` (the process is renamed in place), `InvokerSession.dfy` (options and answers),
  `Session.dfy` (invoker, booster and daemon on one connection), `Forwarding.dfy` (signals),
  `SocketPath.dfy` (both sides build the same path).

What the environment is taken to do: a read returns what was asked for or what is left; writes,
closes and `kill` succeed; a booster sends at most one message, and attaches the connection whenever
it names an invoker; a booster's pid is not 0; the parts of one `sigs_set` are atomic.  A failing
`fork` or `recvmsg` ends the daemon, as in the source.

Where the code does not do what one might expect, the model follows the code:

* An exception thrown as a string literal in `restoreState` is not caught by its handler for
  `char *`, so a stale or malformed first record aborts the process instead of being logged
  (`src/launcherlib/daemon.cpp:845-853`, `src/launcherlib/daemon.cpp:960-964`).
* The main loop handles the socket and the signal pipe of one `select` result one after the other,
  so a booster may be replaced while its own message is unread.  The message is then booked on its
  successor; `SupervisorAttribution.MisattributedRun` is such a run.
* `receiveMagic` looks at the version only if the upper half of the word is the magic, and the
  results of the receivers in the action loop are ignored.
* A request with too many environment strings is acknowledged if the size of the first one reads as
  the END word, which takes a string of 3.7 GB (`WireTheorems.HugeVariableAccepted`).
* The results of the receivers being ignored, a stream with an incomplete ARGS record is acknowledged as
  well, and leaves a null pointer among the arguments (`ArgumentVector.NullArgument`).
* A mode switch after a message that `select` did not see sends its SIGTERM to the application that the
  booster has become (`SupervisorAttribution.LaunchedTermedRun`).
* A signal taken by the forwarder is lost if another signal, which terminates the invoker, interrupts
  its handler before it has called `kill` (`Forwarding.LosingRun`).
* The option `-w` does nothing: it does not undo an earlier `-n`.
* Without `XDG_RUNTIME_DIR` the two sides write the socket path differently (a doubled slash).  With
  a directory of 92 bytes or more the invoker refuses every type but the empty one, and for the empty
  type the two paths agree beyond 92 bytes only by chance (`SocketPath.EmptyType`).  Without the
  variable, a type of 88 bytes is bound without its last byte (`SocketPath.DefaultDirectory`).

## Model

| member | source | states |
|---|---|---|
| SupervisorSafety.SupervisorInvariant | src/launcherlib/daemon.cpp:158-507 | In every run, whatever the children, the signals and the system calls do: the children are duplicate-free and are exactly the kernel's table of forked, unreaped children; the current booster is one of them and has no mapping, and if it has sent its message, the message is still queued; the two maps have the same keys, all of them children; the invoker descriptors are open and pairwise distinct; and the history is accepted by a monitor that knows nothing of the daemon's fields, lets it send no signal but the owed ones and SIGTERM to the booster forked last, and lets no forked child keep the descriptor of a launch |
| SupervisorSafety.StepKeeps | src/launcherlib/daemon.cpp:209-267 | One event, a move of a child or one pass of the main loop with its single select result, keeps this invariant |
| SupervisorSafety.ReapKeeps | src/launcherlib/daemon.cpp:436-507 | So does the reaping loop from any position, across erasures, settled launches and nested forks |
| SupervisorSafety.RegisterKeeps | src/launcherlib/daemon.cpp:294-307 | Booking the message that was received, with its descriptor, keeps the bookkeeping and never overwrites: a new booster has no leftover mapping even if its pid was used before |
| SupervisorSafety.WaitPidFindsChild | src/launcherlib/daemon.cpp:440-448 | waitpid never returns -1 for an element of the vector, so the branch that would take -1 for an exited child is not reached |
| SupervisorHistory.OneOutcome | src/launcherlib/daemon.cpp:450-494 | Every launch ever registered is either untouched and still mapped, or was settled exactly once: nothing happened to it or its descriptor until its application was reaped, and then without a gap came EXIT, the code and the close, or the close and the same signal to that invoker |
| SupervisorHistory.NoStrayEffect | src/launcherlib/daemon.cpp:450-494 | Conversely, every write, every close and every signal belongs to the outcome of a registered launch, but for a SIGTERM to the booster forked last |
| SupervisorHistory.SignalsAreOwed | src/launcherlib/daemon.cpp:472-490 | So a process other than the booster forked last gets a signal only because an application that it had invoked was killed by that signal: a normal exit kills nobody |
| SupervisorHistory.DescriptorsConserved | src/launcherlib/daemon.cpp:294-307 | The descriptors registered and not closed since are exactly the values of the descriptor map, after every run |
| SupervisorHistory.ChildInheritsNone | src/launcherlib/daemon.cpp:388-397 | At every fork of every run the child closes each invoker descriptor that is registered and not closed at that moment, that of the launch registered just before the fork included |
| SupervisorHistory.ChildKeepsRest | src/launcherlib/daemon.cpp:388-397 | It closes no other descriptor: what a child forked next would leave open is what is open and no descriptor of a launch |
| SupervisorHistory.WaitNeverFails | src/launcherlib/daemon.cpp:444-448 | No waitpid fails in any run |
| SupervisorReap.ReapZombiesRefines | src/launcherlib/daemon.cpp:436-507 | The loop that erases from and appends to the vector it walks refines a plain specification: every child at entry, living or dead, is waited for exactly once, in order, and then the replacement; survivors keep their order, one replacement follows if and only if the current booster was dead, and the effects are those of the dead children in the order of the vector |
| SupervisorReap.EachPolledOnce | src/launcherlib/daemon.cpp:436-507 | Also while children go on dying between the calls: as long as fork succeeds, every child at entry and every child forked on the way is waited for exactly once, in order |
| SupervisorSteps.EveryMessageBooked | src/launcherlib/daemon.cpp:269-321 | In every run, with the booster socket readable: the daemon exits if recvmsg fails; otherwise the message at the head of the queue is booked on the current booster, with its invoker, the descriptor and its sender, if and only if it names an invoker, and the next booster is forked, with the delay of the message in normal mode and none in boot mode, or the daemon goes down if fork fails; with the socket not readable nothing of this happens |
| SupervisorSteps.EverySignalObeyed | src/launcherlib/daemon.cpp:222-264 | In every run, by the signal found: SIGTERM ends the daemon; SIGUSR1 and SIGUSR2 set their mode, with one SIGTERM to the booster if the mode changes and nothing done otherwise; SIGCHLD has every child waited for once, in order, and each replacement, which is forked in the current mode with a delay of two seconds or none; SIGHUP has the booster sent SIGTERM first; SIGPIPE and any other signal do nothing |
| SupervisorSteps.TermEnds | src/launcherlib/daemon.cpp:234-237 | A SIGTERM anywhere among the events ends every run |
| SupervisorSteps.FirstBooster | src/launcherlib/daemon.cpp:180-183 | A daemon starts with one booster, forked in its mode without delay, or not at all |
| SupervisorAttribution.Attribution | src/launcherlib/daemon.cpp:209-231 | In a run in which no current booster was reaped while its own message was unread: at most one booster is waiting, at most one message is queued, and every registration is booked on the booster that sent it |
| SupervisorAttribution.AttributionExactly | src/launcherlib/daemon.cpp:209-231 | Exactly when it holds: after every step that leaves the daemon up at most one booster waits and the queue is its own, if and only if no such step has reaped a current booster whose message was unread |
| SupervisorAttribution.PairedUntilOrphan | src/launcherlib/daemon.cpp:209-231 | In any run, also one in which messages are orphaned later: every registration made in a step at whose beginning no message had been orphaned is booked on the booster that sent it |
| SupervisorAttribution.TermHits | src/launcherlib/daemon.cpp:638-679 | The booster that the main loop can send SIGTERM to has been launched, in any run, only if its message is still queued, and, if no message was orphaned, exactly if a message is queued |
| SupervisorAttribution.LaunchedTermedRun | src/launcherlib/daemon.cpp:209-267 | Such a run: the booster sends its message between select and the handling of SIGUSR2, and the application it has become gets the SIGTERM |
| SupervisorAttribution.RegistrationWasSent | src/launcherlib/daemon.cpp:290-307 | Every registration repeats a message that its sender did send in the course of the run |
| SupervisorAttribution.MisattributedRun | src/launcherlib/daemon.cpp:209-321 | A run in which that condition fails and a message is booked on another booster than its sender |
| SupervisorLife.ChildrenAreForkedUnreaped | src/launcherlib/daemon.cpp:428 | The vector of children holds exactly the pids whose last fork in the history has not been followed by a reap |
| SupervisorLife.ModeConsistency | src/launcherlib/daemon.cpp:638-679 | The current booster was forked in the current mode, or has been sent SIGTERM since it was forked |
| DaemonProcess.Daemon.ForkBooster | src/launcherlib/daemon.cpp:357-434 | The new pid, unused before, is appended and becomes the current booster; without one the daemon goes down and the vector stays |
| DaemonProcess.Daemon.CloseInherited | src/launcherlib/daemon.cpp:376-397 | The loop of a forked child closes every value of the descriptor map that is not -1 and nothing else, which is what the fork records, and before it the daemon's own ends |
| DaemonProcess.Daemon.ReadFromBoosterSocket | src/launcherlib/daemon.cpp:269-321 | The message is booked under the current booster if it names an invoker, in either mode, and the next booster is forked with its delay; a failing recvmsg takes the daemon down |
| DaemonProcess.Daemon.SettleLaunch | src/launcherlib/daemon.cpp:450-494 | What is written, closed and killed for a reaped child, as specified by the state machine |
| DaemonProcess.Daemon.ReapZombies | src/launcherlib/daemon.cpp:436-507 | The loop terminates and computes the reaping function, of which the theorems above speak |
| DaemonProcess.Daemon.EnterNormalMode | src/launcherlib/daemon.cpp:638-653 | Normal mode holds afterwards; one SIGTERM is sent, to the current booster, if boot mode held before, and nothing is done otherwise |
| DaemonProcess.Daemon.EnterBootMode | src/launcherlib/daemon.cpp:655-670 | Boot mode holds afterwards; one SIGTERM is sent, to the current booster, if normal mode held before, and nothing is done otherwise |
| DaemonProcess.Daemon.SaveState | src/launcherlib/daemon.cpp:750-797 | The text printed is a saved file of the whole state, in some order of the maps |
| DaemonProcess.Daemon.RestoreState | src/launcherlib/daemon.cpp:828-975 | The parsing loop terminates on every text, and returns, exits or aborts with the state the parser function gives |
| DaemonProcess.Daemon.HandOver | src/launcherlib/daemon.cpp:750-826 | Across exec only the text survives, and yet every field does, if and only if all socket ids are non-empty and free of white space; the booster has been sent SIGTERM |
| DaemonProcess.Daemon.ReExec | src/launcherlib/daemon.cpp:722-826 | For such ids re-exec is: kill the booster, then reap; nothing else of the state changes |
| DaemonProcess.Daemon.Iteration | src/launcherlib/daemon.cpp:209-266 | One pass of the main loop is one step of the state machine, of which the theorems above speak; it takes the daemon down if the signal is SIGTERM |
| DaemonProcess.Daemon.RunDaemon | src/launcherlib/daemon.cpp:158-267 | A daemon run from its start through any events is a run of the state machine, and its fields satisfy the invariant, unless there is a re-exec with other ids |
| StateFileTheorems.RoundTrip | src/launcherlib/daemon.cpp:750-952 | For every state: restoring what was saved by the same pid rebuilds children in order, both maps, booster, both descriptor pairs, both flags and the socket map, if and only if all socket ids are non-empty and free of white space |
| StateFileTheorems.TruncationSafety | src/launcherlib/daemon.cpp:828-975 | Of a saved file cut after any number of characters and read by any process: if nothing is missing but what follows the final word and the reader is the process that saved it, the whole state is restored; otherwise restoreState does not return |
| StateFileTheorems.StaleFileNeverRestores | src/launcherlib/daemon.cpp:840-855 | A file saved by another pid, complete or cut short and with any socket ids, is never restored; with a complete head it aborts the process |
| StateFileTheorems.RecordsRebuild | src/launcherlib/daemon.cpp:861-952 | Storing the saved records one by one, in any order of the maps, gives back the state |
| StateFileTheorems.ExtractIntOf | src/launcherlib/daemon.cpp:882 | A printed int, minimum and sign included, is extracted with nothing else consumed |
| StateFileTheorems.ExtractIntForm | src/launcherlib/daemon.cpp:882 | In a file of any origin: a sign and leading zeros are allowed, a number is read to its last digit, and one that does not fit an int is a failure |
| StateFileTheorems.FlagIsBit | src/launcherlib/daemon.cpp:936-951 | A flag of another value than 0 and 1 is a failure |
| StateFileTheorems.ForeignFileAborts | src/launcherlib/daemon.cpp:843-846 | A file that begins with another word than my-pid, whatever else is in it, aborts the process |
| StateFileTheorems.HeadlessFileExits | src/launcherlib/daemon.cpp:841-852 | A file without a word, or without a number after my-pid, makes the process exit |
| StateFileTheorems.UnknownWordSkipped | src/launcherlib/daemon.cpp:861-952 | A word that is no keyword is passed over by itself |
| Requests.Sender.Invoke | src/invoker/invoker.c:536-558 | The senders put exactly the encoded request on the stream, in their order |
| Requests.Sender.SendEnv | src/invoker/invoker.c:322-338 | The environment is counted, then sent with its count |
| BoosterConnection.Connection.RecvMsg | src/launcherlib/connection.cpp:121-146 | A word that was sent is received and consumed; on a short read zero is delivered and the rest is consumed |
| BoosterConnection.Connection.RecvStr | src/launcherlib/connection.cpp:148-188 | A string is received if and only if its size is 1 to 4096 and that many bytes follow; it ends before their first NUL; after a bad size nothing more is consumed, and after a short read nothing is left |
| BoosterConnection.Connection.ReceiveMagic | src/launcherlib/connection.cpp:206-224 | It fails if and only if the upper half of the word is the magic and the version is not 3, and otherwise gives the low byte as options, whose lowest bit says whether the invoker waits |
| BoosterConnection.Connection.ReceiveArgs | src/launcherlib/connection.cpp:280-313 | The loop fills the vector with the strings of the stream, with a null at the first that cannot be received |
| BoosterConnection.Connection.ReceiveEnv | src/launcherlib/connection.cpp:327-374 | The loop puts the received strings with '=' into the environment, in order |
| BoosterConnection.Connection.ReceiveActions | src/launcherlib/connection.cpp:426-490 | On every stream the action loop terminates, each turn consuming a word or returning, and computes the decoding function |
| BoosterConnection.Connection.ReceiveApplicationData | src/launcherlib/connection.cpp:492-528 | The launch data are filled in only if the actions were accepted |
| Connections.ReceiveShrinks | src/launcherlib/connection.cpp:426-490 | No receiver gives anything back to the stream |
| AnyStream.StreamDecoded | src/launcherlib/connection.cpp:206-528 | On every stream, well-formed or not: it is accepted if and only if the version is not a wrong one, the second word is NAME, a non-empty name follows, and the records after it end with END; then options, waiting and name are those of the head, and file name, priority, delay, ids, descriptors and environment are what the last record of their kind says; otherwise all data but options and name are left as they were |
| WireTheorems.AnswerOnAnyStream | src/launcherlib/connection.cpp:477-528 | On every stream, well-formed or not, ACK is sent exactly once if the request is accepted, followed by PID and the pid if and only if the invoker waits, and nothing is sent otherwise |
| WireTheorems.AcceptIff | src/launcherlib/connection.cpp:148-490 | For every request the invoker can encode, with strings of any size that fits 32 bits: it is acknowledged if and only if its name is not empty, every string has at most 4095 bytes, and there are fewer than 1024 arguments and variables, or, all else being so, there are 1024 variables or more and the size of the first is the END word; the arguments of an acknowledged request arrive |
| WireTheorems.WireRoundTrip | src/invoker/invoker.c:268-384 | A request within these limits is consumed to the last byte and arrives field by field: options, name, file, arguments, signed priority and delay, ids, descriptors; the environment is the left fold of putenv over the strings with '=' |
| Environments.EnvironmentArrives | src/launcherlib/connection.cpp:335-365 | An environment of distinct NAME=value strings arrives unchanged and in order |
| Environments.LastOfEachName | src/launcherlib/connection.cpp:315-365 | Whatever strings are received: the environment has one string for each name that occurs with an equals sign, the last such string, and nothing else |
| Environments.NameIs | src/launcherlib/connection.cpp:315-318 | The name of a string goes up to its first equals sign |
| WireTheorems.HugeVariableAccepted | src/invoker/invokelib.c:61-76 | Such a request: an encoded request with 1024 variables that is acknowledged, with an empty environment |
| WireTheorems.ActionHasZeroByte | src/common/protocol.h:40-53 | Four non-zero bytes are never an action word |
| WireTheorems.JamRejects | src/launcherlib/connection.cpp:426-490 | A stream that lost step inside a long string is rejected |
| WireTheorems.SizeWordRejects | src/launcherlib/connection.cpp:426-490 | So is one that lost step before a list of strings that was skipped, whatever the size of the first string, the END word excepted |
| WireTheorems.ReadStrsLong | src/launcherlib/connection.cpp:292-305 | Reading a list stops at its first long string, out of step |
| ArgumentVector.UsableIff | src/launcherlib/connection.cpp:280-313 | Of all accepted streams, exactly those with an ARGS record of which the last is complete leave a vector of as many strings as its count says, and at least one, and then it is the strings of that record; any other leaves a null, an unassigned element or a wrong count |
| ArgumentVector.RequestsUsable | src/invoker/invoker.c:287-298 | Every accepted request of an invoker leaves such a vector |
| ArgumentVector.NullArgument | src/launcherlib/booster.cpp:302-308 | A stream of another sender that is accepted with a null pointer as its only argument, which renaming the process would dereference |
| BoosterLoop.Booster.ReceiveDataFromInvoker | src/launcherlib/booster.cpp:233-264 | A new connection replaces the old one and stays open only for a waiting invoker |
| BoosterLoop.Booster.SendDataToParent | src/launcherlib/booster.cpp:173-231 | Exactly one message, carrying the invoker's pid and the connection if and only if it waits, and the delay |
| BoosterLoop.Booster.Initialize | src/launcherlib/booster.cpp:105-166 | The request loop computes the serving function for any sequence of calls, of which the theorems below and the sessions speak |
| BoosterTheorems.RequestLoop | src/launcherlib/booster.cpp:105-166 | For any calls: requests are refused up to the first that is not to be refused; each refused waiting invoker gets ACK, PID, the pid and exactly one EXIT, 0 if and only if activation succeeded, before its connection closes; the parent gets exactly one message if there is a launch and none otherwise; the connection is closed in the end, without an answer if the request was rejected; and the launched data, with the environment if there is an environment record, are what the last stream decodes to alone |
| BoosterTheorems.ReceptionAlone | src/launcherlib/connection.cpp:492-528 | What is received does not depend on what was received before |
| BoosterTheorems.RequestAlone | src/launcherlib/booster.cpp:233-264 | For a stream sent by an invoker these are the invoker's own data and environment |
| BoosterTheorems.LaunchOf | src/launcherlib/booster.cpp:151-162 | A launch goes back to one call, of which its answer and its one message speak |
| ArgvArea.Process.RenameProcess | src/launcherlib/booster.cpp:288-325 | The area, measured once, shows the new arguments, up to the size that is left by the cast to int; no byte outside of it is written |
| ArgvArea.ShownInFull | src/launcherlib/booster.cpp:310-324 | Below 2^31 bytes it shows all of them and zeros, or as much of them as fits and a NUL |
| ArgvArea.ShownWrapped | src/launcherlib/booster.cpp:310-324 | Beyond it shows what the 32-bit size of the arguments leaves of them, and nothing if that is negative |
| ArgvArea.LastRenameShows | src/launcherlib/booster.cpp:100-157 | After any number of renamings only the last one shows |
| ArgvArea.ShownReadsBack | src/launcherlib/booster.cpp:300-324 | The area always ends with a NUL, and splitting it at NULs gives back arguments that fit |
| ArgvArea.Process.Measure | src/launcherlib/booster.cpp:293-297 | The space is the length of the original arguments with their NULs |
| ArgvArea.DecodedFits | src/launcherlib/booster.cpp:310-311 | Fewer than 1024 arguments of less than 4096 bytes, the limits of the decoder, join to less than 2^31 bytes |
| InvokerSession.ParseOptions | src/invoker/invoker.c:681-739 | For every option sequence: usage is printed for the first option that calls for it, and otherwise the WAIT bit is set if and only if the invoker waits, options word, waiting and mode depend only on which letters occur, the delays are the last numbers given for them, and the type is that of the last -t |
| InvokerSession.WaitBitAgrees | src/invoker/invoker.c:647-705 | The WAIT bit is set if and only if the invoker waits, the bits of -G, -D, -s and -o if and only if these are given, and the options fit their byte |
| InvokerSession.Invoker.Converse | src/invoker/invoker.c:166-265 | Dies if and only if the first word is not ACK or, when it waits, PID and a non-zero pid do not follow; otherwise it returns 0 without waiting, or the code after EXIT, or has lost its connection |
| Session.DaemonReplies | src/launcherlib/daemon.cpp:459-471 | In every run, what the daemon puts on the connection of a launch is nothing until its application is reaped, and after that EXIT and the code, once, if it exited, and nothing if not |
| Session.WaitingSession | src/invoker/invoker.c:444-533 | For every option sequence without -n, every request within the limits, every history of a booster that ends in its launch and every run of the daemon: the launch is booked for that invoker; the words on its connection are ACK, PID and the pid, and nothing more until the process on which it is booked is reaped; then, once, EXIT and the code of that process, which the invoker returns, or nothing if it was killed by a signal, which is sent to this invoker; and if no message had been orphaned when the step began that booked it, that process is the very one whose pid the invoker was told |
| Session.WaitedLaunch | src/invoker/invoker.c:444-533 | Such a session does take place: a request, a booster and a run of the daemon that meet all of these conditions |
| Session.NoWaitSession | src/invoker/invoker.c:444-533 | With -n the invoker reads ACK alone and returns 0; its connection is not passed on and no invoker is named |
| Session.OptionsArrive | src/launcherlib/appdata.cpp:48-66 | Each option of the invoker has its own bit in what the booster receives: single instance is asked for if and only if -s was given, and likewise for the others |
| Session.SingleInstanceSession | src/launcherlib/booster.cpp:113-151 | A booster refuses the request of an invoker if and only if -s was given, the plugin is loaded and the lock fails; otherwise it launches and tells its parent once |
| Session.DelayArrives | src/launcherlib/booster.cpp:191-194 | The respawn delay the invoker sends is the one that the parent is told |
| Session.RejectedSession | src/invoker/invoker.c:166-178 | For every request that is rejected: the booster gives up without telling its parent anything, nothing is sent, and the invoker dies whether it waits or not |
| Session.RefusedSession | src/launcherlib/booster.cpp:119-131 | A refused invoker never dies on a wrong word; if it waits it returns whether the running instance was activated |
| Forwarding.Forwards | src/invoker/invoker.c:74-108 | In every interleaving of signals, handlers and the wait loop, and with signals that have no handler: when the loop is about to block the forwarder is installed or a byte is in the pipe; reading the pipe never blocks; every signal taken was sent to the application exactly as often, but for one whose handler has not reached kill; and a re-raised signal never enters the forwarder |
| Forwarding.LostExactly | src/invoker/invoker.c:74-108 | A signal that was taken will never be sent if and only if its handler has not reached kill when the invoker is dead, or when it was interrupted by the handler of a signal that terminates the invoker |
| Forwarding.LosingRun | src/invoker/invoker.c:142-151 | Such a run: SIGINT interrupts the handler of SIGTERM, which is never sent |
| Forwarding.NextKeeps | src/invoker/invoker.c:456-526 | Each single step, of the loop, of a handler or of the kernel, keeps what this rests on |
| Forwarding.SignalFate | src/invoker/invoker.c:111-151 | An unblocked signal is taken if the forwarder is installed and sigs_set names it; otherwise it ends the invoker unless its default is to be ignored or to stop |
| Forwarding.ForwardedOnce | src/invoker/invoker.c:74-108 | A signal that does not end the invoker is sent to the application once, after which forwarder, pipe and loop are as before |
| Forwarding.ForwardedLast | src/invoker/invoker.c:74-108 | Any other signal with a handler is sent once and ends the invoker |
| Forwarding.AnswerEndsLoop | src/invoker/invoker.c:456-526 | Once the answer is there, the loop ends with the default handlers |
| SocketPath.InvokerInit | src/invoker/invoker.c:193-212 | The path is put together in the buffer without leaving it, or the type is refused |
| SocketPath.PathsAgree | src/invoker/invoker.c:193-212 | For every runtime directory and every type, none of them empty: the invoker accepts the type if and only if it has no slash and the whole path fits in 107 bytes and a NUL, and then its path, with nothing cut off, is the one the socket manager binds |
| SocketPath.EmptyType | src/launcherlib/socketmanager.cpp:85-90 | The empty type is accepted with any directory, never beyond the buffer; the paths agree if and only if the directory has at most 92 bytes or happens to go on from its 93rd byte like the rest of the path |
| SocketPath.DefaultDirectory | src/launcherlib/socketmanager.cpp:36-38 | Without a directory, or with an empty one, the invoker accepts a type if and only if it has no slash and at most 88 bytes; the bound path has one slash more and is the same otherwise if and only if the type has less than 88 bytes; a type of 88 bytes is accepted by the invoker and loses its last byte when it is bound |
| SocketPath.SocketManager.InitSocket | src/launcherlib/socketmanager.cpp:53-119 | A socket is set up at most once per id, at the address of that id |
| SocketPath.InvokerReachesBooster | src/launcherlib/socketmanager.cpp:85-94 | The address bound for a type is the one its invoker connects to |

## Left out

- The program search of the invoker (`src/invoker/search.c`) and the directory loop of the single-instance helper (`src/single-instance/main.cpp`): single loops that would only add easy members; the lock and the activation enter the booster loop as answers.
- Foreign calls without logic of their own: dlopen and launchProcess, D-Bus, sd_notify, oom_adj, priorities, ids, prctl, and setting `_` in the environment of a renamed process.
- Logging, usage text, getopt and strtoul (an option comes with its letter and its number), daemonize, the stat and mkdir checks before a state file is written, the removal of the file.
- Real time: sleeps and respawn delays are carried as values only; the fallback to execve and the ten seconds after which an invoker kills an application that lost its daemon.
- Signals that arrive before handlers and pipes are set up, or in a child before its handlers are restored; short reads on a live stream; a state file that cannot be opened or written.
- Iteration order of the maps: loops over them may take any order, and the theorems hold for all.
- A booster that cannot learn its invoker's pid names pid 0 and still attaches the connection; the daemon then receives a descriptor that it never registers nor closes. The model has this descriptor, and no property about it.
- Descriptors received by a booster for a request it then refuses are closed with the connection object; the model does not count them.
- Forwarding.Forwards: the handler and the loop are steps of one machine on values, not methods, because a handler interrupts the loop, and another handler, at any statement.
- ArgvArea.Process.Measure: the arguments a process is started with have less than 2^31 bytes in all; the overflow of the sum beyond that is not modelled.
- BoosterLoop.Booster.Initialize: does not rename the process; renaming is a model of its own.
- SocketPath.SocketManager.InitSocket: does not model the removal of a stale socket file, nor permissions; closing and looking up sockets are left out.
