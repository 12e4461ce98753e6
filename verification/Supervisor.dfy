/** The launcher daemon as a state machine.

    A state holds the daemon's own fields and the part of the kernel that the daemon can observe:
    its children, its open descriptors, the queue of booster datagrams, the answers the
    environment has decided to give to the coming system calls, and the history of every effect
    the daemon has had.  The functions below are the specification that the methods of class
    `Daemon` are proved against. */
module Supervisor {
  import opened Basics
  import Protocol

  const BOOSTER_SLEEP_TIME: int := 2

  datatype Status = Exited(code: byte) | Signaled(sig: int)

  /** A child process of the daemon, from fork until it is waited for. */
  datatype Child = Child(
    bootMode: bool,        // the mode it was forked under
    hasSent: bool,         // it has sent its one datagram
    termed: bool,          // it has been sent SIGTERM
    fate: Option<Status>)  // set once it is dead

  /** What a booster tells the daemon; `sender` is known to the kernel but not to the daemon. */
  datatype Datagram = Datagram(sender: int32, invokerPid: int32, delay: int32, withFd: bool)

  datatype Effect =
    | Forked(pid: int32, bootMode: bool, sleep: int, kept: set<int32>)
    | Registered(pid: int32, invokerPid: int32, fd: int32, sender: int32)
    | Waited(pid: int32)                      // waitpid was called
    | Reaped(pid: int32, status: Status)      // ... and the child was gone
    | WaitFailed(pid: int32)                  // ... and there was no such child
    | Wrote(fd: int32, value: word)
    | Closed(fd: int32)
    | Killed(pid: int32, sig: int)

  /** Something a child process does on its own. */
  datatype Move =
    | Die(pid: int32, status: Status)
    | Send(pid: int32, invokerPid: int32, delay: int32, withFd: bool)

  datatype Kernel = Kernel(
    procs: map<int32, Child>,
    open: set<int32>,
    queue: seq<Datagram>,
    // answers still to come: moves made before each waitpid, results of fork and of recvmsg
    turns: seq<seq<Move>>,
    forks: seq<int32>,
    fds: seq<int32>,
    // history
    orphaned: bool,        // a current booster was reaped while its own datagram was unread
    log: seq<Effect>)

  /** The fields of the daemon that its main loop changes; `up` is false once it has exited. */
  datatype Fields = Fields(
    up: bool,
    children: seq<int32>,
    toPid: map<int32, int32>,
    toFd: map<int32, int32>,
    boosterPid: int32,
    bootMode: bool)

  datatype State = State(d: Fields, k: Kernel)

  // ---------------------------------------------------------------- the environment

  /** A move of a child; one that its life cycle does not allow has no effect.  A booster sends
      one datagram, and attaches a descriptor whenever it names an invoker. */
  function Moved(k: Kernel, m: Move): Kernel {
    if m.pid !in k.procs || k.procs[m.pid].fate.Some? then k else
    match m
    case Die(p, st) =>
      k.(procs := k.procs[p := k.procs[p].(fate := Some(st))])
    case Send(p, inv, delay, withFd) =>
      if k.procs[p].hasSent || inv < 0 || (inv > 0 && !withFd) then k else
      k.(procs := k.procs[p := k.procs[p].(hasSent := true)],
         queue := k.queue + [Datagram(p, inv, delay, withFd)])
  }

  function Moves(k: Kernel, ms: seq<Move>): Kernel
    decreases |ms|
  {
    if ms == [] then k else Moves(Moved(k, ms[0]), ms[1..])
  }

  // ---------------------------------------------------------------- system calls

  datatype Wait = StillRunning | Gone(status: Status) | NoChild

  function TakeTurn(k: Kernel): Kernel {
    if k.turns == [] then k else Moves(k.(turns := k.turns[1..]), k.turns[0])
  }

  function Polled(k: Kernel, pid: int32): Kernel { k.(log := k.log + [Waited(pid)]) }

  /** waitpid(pid, &status, WNOHANG), after the environment has had a turn. */
  function WaitPid(k0: Kernel, pid: int32): (Kernel, Wait) {
    var k := Polled(TakeTurn(k0), pid);
    if pid !in k.procs then (k.(log := k.log + [WaitFailed(pid)]), NoChild)
    else match k.procs[pid].fate
      case None => (k, StillRunning)
      case Some(st) => (k.(procs := k.procs - {pid}, log := k.log + [Reaped(pid, st)]), Gone(st))
  }

  function Kill(k: Kernel, pid: int32, sig: int): Kernel {
    if pid <= 0 then k else
    k.(log := k.log + [Killed(pid, sig)],
       procs := if pid in k.procs && sig == SIGTERM
                then k.procs[pid := k.procs[pid].(termed := true)] else k.procs)
  }

  function Close(k: Kernel, fd: int32): Kernel {
    k.(open := k.open - {fd}, log := k.log + [Closed(fd)])
  }

  function Write(k: Kernel, fd: int32, value: word): Kernel {
    k.(log := k.log + [Wrote(fd, value)])
  }

  /** fork: any answer that is not an unused positive pid counts as -1.  The child leaves the
      descriptors `kept` open. */
  function Fork(k0: Kernel, bootMode: bool, sleepTime: int, kept: set<int32>): (Kernel, Option<int32>) {
    var k := k0.(forks := if k0.forks == [] then [] else k0.forks[1..]);
    if k0.forks == [] || k0.forks[0] <= 0 || k0.forks[0] in k.procs then (k, None)
    else
      var p := k0.forks[0];
      (k.(procs := k.procs[p := Child(bootMode, false, false, None)],
          log := k.log + [Forked(p, bootMode, if bootMode then 0 else sleepTime, kept)]),
       Some(p))
  }

  datatype Received = Received(datagram: Datagram, fd: Option<int32>) | ReceiveFailed

  /** recvmsg on a non-empty queue: it fails when no unused descriptor is there to be installed. */
  function RecvMsg(k: Kernel): (Kernel, Received)
    requires k.queue != []
  {
    var d := k.queue[0];
    var k1 := k.(queue := k.queue[1..]);
    if !d.withFd then (k1, Received(d, None))
    else if k.fds == [] || k.fds[0] < 0 || k.fds[0] in k.open then (k, ReceiveFailed)
    else (k1.(fds := k.fds[1..], open := k.open + {k.fds[0]}), Received(d, Some(k.fds[0])))
  }

  // ---------------------------------------------------------------- the daemon

  /** What a forked child leaves open of the descriptors it inherits: it closes every value of the
      descriptor map that is not -1. */
  function LeftOpen(open: set<int32>, toFd: map<int32, int32>): set<int32> {
    open - (set p | p in toFd && toFd[p] != -1 :: toFd[p])
  }

  /** The daemon throws when fork fails. */
  function ForkBooster(s: State, sleepTime: int): State {
    var (k, p) := Fork(s.k, s.d.bootMode, sleepTime, LeftOpen(s.k.open, s.d.toFd));
    match p
    case None => State(s.d.(boosterPid := 0, up := false), k)
    case Some(p) => State(s.d.(children := s.d.children + [p], boosterPid := p), k)
  }

  /** Store the booster's invoker under the pid of the current booster. */
  function Register(s: State, d: Datagram, fd: int32): State {
    State(s.d.(toPid := s.d.toPid[s.d.boosterPid := d.invokerPid],
               toFd := s.d.toFd[s.d.boosterPid := fd]),
          s.k.(log := s.k.log + [Registered(s.d.boosterPid, d.invokerPid, fd, d.sender)]))
  }

  function ReadFromBoosterSocket(s: State): State
    requires s.k.queue != []
  {
    var (k, r) := RecvMsg(s.k);
    match r
    case ReceiveFailed => State(s.d.(up := false), k)
    case Received(d, fd) =>
      var t := State(s.d, k);
      ForkBooster(if d.invokerPid != 0 && s.d.boosterPid != 0 && fd.Some? then Register(t, d, fd.value) else t,
                  d.delay)
  }

  /** Report a normal exit on the invoker's connection, and give the connection up either way. */
  function CloseInvoker(s: State, pid: int32, st: Status): State {
    if pid !in s.d.toFd then s else
    var fd := s.d.toFd[pid];
    var k := if st.Exited? then Write(Write(s.k, fd, Protocol.MSG_EXIT), fd, st.code) else s.k;
    State(s.d.(toFd := s.d.toFd - {pid}), Close(k, fd))
  }

  /** What the daemon does about the invoker of a reaped child. */
  function SettleLaunch(s: State, pid: int32, st: Status): State {
    if pid !in s.d.toPid then s else
    var t := CloseInvoker(s, pid, st);
    State(t.d.(toPid := s.d.toPid - {pid}),
          if st.Signaled? then Kill(t.k, s.d.toPid[pid], st.sig) else t.k)
  }

  /** A datagram of this sender is still queued. */
  predicate Unread(queue: seq<Datagram>, pid: int32) {
    exists i :: 0 <= i < |queue| && queue[i].sender == pid
  }

  /** Replace the current booster if it is the child just reaped. */
  function Respawn(s: State, pid: int32): State {
    if pid != s.d.boosterPid then s else
    ForkBooster(s.(k := s.k.(orphaned := s.k.orphaned || Unread(s.k.queue, pid))), BOOSTER_SLEEP_TIME)
  }

  /** One iteration of the loop over `m_children`; also says where the iterator stands next. */
  function ReapStep(s: State, i: nat): (State, nat)
    requires i < |s.d.children|
  {
    var pid := s.d.children[i];
    var (k, w) := WaitPid(s.k, pid);
    match w
    case StillRunning => (State(s.d, k), i + 1)
    case NoChild => (State(s.d.(children := Erase(s.d.children, i)), k), i)
    case Gone(st) =>
      (Respawn(SettleLaunch(State(s.d.(children := Erase(s.d.children, i)), k), pid, st), pid), i)
  }

  /** Environment moves touch only the child table and, at its end, the datagram queue. */
  lemma {:induction false} MovesFrame(k: Kernel, ms: seq<Move>)
    ensures Moves(k, ms) == k.(procs := Moves(k, ms).procs, queue := Moves(k, ms).queue)
    ensures k.queue <= Moves(k, ms).queue
    decreases |ms|
  {
    if ms != [] { MovesFrame(Moved(k, ms[0]), ms[1..]); }
  }

  lemma WaitPidFrame(k: Kernel, pid: int32)
    ensures var t := WaitPid(k, pid).0;
            t == k.(turns := t.turns, procs := t.procs, queue := t.queue, log := t.log)
  {
    if k.turns != [] { MovesFrame(k.(turns := k.turns[1..]), k.turns[0]); }
  }

  lemma SettleLaunchFrame(s: State, pid: int32, st: Status)
    ensures var t := SettleLaunch(s, pid, st);
            t.d.children == s.d.children && t.d.up == s.d.up && t.k.forks == s.k.forks
  {
  }

  lemma RespawnFrame(s: State, pid: int32)
    ensures var t := Respawn(s, pid);
            || (t.d.children == s.d.children && t.k.forks == s.k.forks)
            || !t.d.up
            || (|t.k.forks| < |s.k.forks| && |t.d.children| > |s.d.children|)
  {
  }

  lemma ReapStepProgress(s: State, i: nat)
    requires i < |s.d.children|
    ensures var (t, j) := ReapStep(s, i);
            t.d.up ==> j <= |t.d.children| &&
                       (|t.k.forks| < |s.k.forks| ||
                        (|t.k.forks| == |s.k.forks| && |t.d.children| - j < |s.d.children| - i))
  {
    var pid := s.d.children[i];
    WaitPidFrame(s.k, pid);
    var (k, w) := WaitPid(s.k, pid);
    if w.Gone? {
      var s1 := State(s.d.(children := Erase(s.d.children, i)), k);
      SettleLaunchFrame(s1, pid, w.status);
      RespawnFrame(SettleLaunch(s1, pid, w.status), pid);
    }
  }

  /** The whole loop.  Every fork uses up an answer of the environment, and an iteration
      without one leaves fewer positions to visit. */
  function ReapFrom(s: State, i: nat): State
    decreases |s.k.forks|, if i < |s.d.children| then |s.d.children| - i else 0
  {
    if !s.d.up || i >= |s.d.children| then s
    else
      ReapStepProgress(s, i);
      var (t, j) := ReapStep(s, i);
      if !t.d.up then t else ReapFrom(t, j)
  }

  function ReapZombies(s: State): State { ReapFrom(s, 0) }

  function KillBoosters(s: State): State {
    if s.d.boosterPid != 0 then s.(k := Kill(s.k, s.d.boosterPid, SIGTERM)) else s
  }

  function EnterNormalMode(s: State): State {
    if s.d.bootMode then KillBoosters(s.(d := s.d.(bootMode := false))) else s
  }

  function EnterBootMode(s: State): State {
    if !s.d.bootMode then KillBoosters(s.(d := s.d.(bootMode := true))) else s
  }

  /** A re-exec that restores what it saved: the booster is killed, and the new image starts by
      reaping.  That the saved text does restore the fields is proved in `StateFile`. */
  function ReExec(s: State): State { ReapZombies(KillBoosters(s)) }

  // ---------------------------------------------------------------- the main loop

  datatype Signal = Chld | Term | Usr1 | Usr2 | Pipe | Hup | Other

  function HandleSignal(s: State, sig: Signal): State {
    match sig
    case Chld => ReapZombies(s)
    case Term => s.(d := s.d.(up := false))
    case Usr1 => EnterNormalMode(s)
    case Usr2 => EnterBootMode(s)
    case Hup => ReExec(s)
    case Pipe => s
    case Other => s
  }

  /** Either a child moves while the daemon sleeps in select, or select returns.  In the second
      case the children may still move between the snapshot and its use; `turns`, `forks` and
      `fds` are the answers the environment gives during this iteration. */
  datatype Event =
    | Env(move: Move)
    | Iterate(between: seq<Move>, sig: Option<Signal>,
              turns: seq<seq<Move>>, forks: seq<int32>, fds: seq<int32>)

  /** The kernel as the iteration finds it once the snapshot has been taken. */
  function AfterSelect(k: Kernel, e: Event): (r: Kernel)
    requires e.Iterate?
    ensures k.queue <= r.queue
  {
    MovesFrame(k.(turns := e.turns, forks := e.forks, fds := e.fds), e.between);
    Moves(k.(turns := e.turns, forks := e.forks, fds := e.fds), e.between)
  }

  /** The first half of an iteration: the socket is read if it was readable in the snapshot. */
  function AfterRead(s: State, e: Event): State
    requires e.Iterate?
  {
    var s1 := s.(k := AfterSelect(s.k, e));
    if s.k.queue != [] then ReadFromBoosterSocket(s1) else s1
  }

  function Step(s: State, e: Event): State {
    if !s.d.up then s else
    match e
    case Env(m) => s.(k := Moved(s.k, m))
    case Iterate(_, sig, _, _, _) =>
      var t := AfterRead(s, e);
      if sig.None? || !t.d.up then t else HandleSignal(t, sig.value)
  }

  function Run(s: State, es: seq<Event>): State
    decreases |es|
  {
    if es == [] then s else Run(Step(s, es[0]), es[1..])
  }

  /** A fresh daemon, which forks its first booster before it enters the loop. */
  function Start(bootMode: bool, open: set<int32>, forks: seq<int32>): State {
    ForkBooster(State(Fields(true, [], map[], map[], 0, bootMode),
                      Kernel(map[], open, [], [], forks, [], false, [])), 0)
  }
}
