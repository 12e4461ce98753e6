/** What one step of the daemon does, told by what it found: message by message and signal by signal. */
module SupervisorSteps {
  import opened Basics
  import opened Supervisor
  import opened SupervisorSafety
  import opened SupervisorReap

  // ---------------------------------------------------------------- the message

  /** recvmsg has a descriptor to install, if the message carries one. */
  predicate CanReceive(m: Datagram, fds: seq<int32>, open: set<int32>) {
    m.withFd ==> fds != [] && fds[0] >= 0 && fds[0] !in open
  }

  predicate CanFork(forks: seq<int32>, procs: map<int32, Child>) {
    forks != [] && forks[0] > 0 && forks[0] !in procs
  }

  /** What is booked of a message that was received with the first of these descriptors. */
  function Booked(m: Datagram, booster: int32, fds: seq<int32>): seq<Effect>
    requires m.invokerPid != 0 ==> fds != []
  {
    if m.invokerPid == 0 then [] else [Registered(booster, m.invokerPid, fds[0], m.sender)]
  }

  function With(toWhat: map<int32, int32>, m: Datagram, booster: int32, value: int32): map<int32, int32> {
    if m.invokerPid == 0 then toWhat else toWhat[booster := value]
  }

  /** The message `m` was received and booked, and the next booster was forked, if it could be. */
  ghost predicate Handled(s: State, m: Datagram, fds: seq<int32>, forks: seq<int32>, u: State)
    requires m.invokerPid != 0 ==> fds != []
  {
    var (p, b) := (if CanFork(forks, s.k.procs) then [forks[0]] else [], s.d.boosterPid);
    && u.k.log == s.k.log + Booked(m, b, fds)
                  + (if p == [] then []
                     else [Forked(p[0], s.d.bootMode, if s.d.bootMode then 0 else m.delay,
                                  LeftOpen(u.k.open, u.d.toFd))])
    && u.d == Fields(p != [], s.d.children + p, With(s.d.toPid, m, b, m.invokerPid),
                     With(s.d.toFd, m, b, if fds == [] then 0 else fds[0]),
                     if p == [] then 0 else p[0], s.d.bootMode)
  }

  /** What an iteration has done by the time it looks at the signals. */
  ghost predicate ReadsOne(s: State, e: Event, u: State)
    requires e.Iterate?
  {
    if s.k.queue == [] then u.d == s.d && u.k.log == s.k.log
    else
      var m := s.k.queue[0];
      if !CanReceive(m, e.fds, s.k.open) then !u.d.up && u.k.log == s.k.log
      else (m.invokerPid != 0 ==> e.fds != []) && Handled(s, m, e.fds, e.forks, u) && s.k.queue[1..] <= u.k.queue
  }

  /** `t` is `s` with `m` received and booked. */
  ghost predicate Books(s: State, m: Datagram, fds: seq<int32>, t: State)
    requires m.invokerPid != 0 ==> fds != []
  {
    && t.d == s.d.(toPid := With(s.d.toPid, m, s.d.boosterPid, m.invokerPid),
                   toFd := With(s.d.toFd, m, s.d.boosterPid, if fds == [] then 0 else fds[0]))
    && t.k.log == s.k.log + Booked(m, s.d.boosterPid, fds)
    && t.k.procs == s.k.procs && t.k.forks == s.k.forks
  }

  lemma ReceivesAndBooks(s: State) returns (t: State)
    requires Inv(s) && s.k.queue != []
    ensures var (m, u) := (s.k.queue[0], ReadFromBoosterSocket(s));
            if !CanReceive(m, s.k.fds, s.k.open) then !u.d.up && u.k.log == s.k.log
            else (m.invokerPid != 0 ==> s.k.fds != []) && Books(s, m, s.k.fds, t) && t.k.queue == s.k.queue[1..] &&
                 u == ForkBooster(t, m.delay)
  {
    assert s.k.queue[0] in s.k.queue;
    var (k, r) := RecvMsg(s.k);
    t := State(s.d, k);
    if r.Received? && r.datagram.invokerPid != 0 { t := Register(t, r.datagram, r.fd.value); }
  }

  lemma ForkHandles(s: State, m: Datagram, fds: seq<int32>, t: State)
    requires s.d.up && (m.invokerPid != 0 ==> fds != []) && Books(s, m, fds, t)
    ensures Handled(s, m, fds, s.k.forks, ForkBooster(t, m.delay)) && ForkBooster(t, m.delay).k.queue == t.k.queue
  {
    hide Booked, With;
    assert s.d.children + [] == s.d.children;
  }

  lemma ReadDoes(s: State)
    requires Inv(s) && s.d.up && s.k.queue != []
    ensures var (m, u) := (s.k.queue[0], ReadFromBoosterSocket(s));
            if !CanReceive(m, s.k.fds, s.k.open) then !u.d.up && u.k.log == s.k.log
            else (m.invokerPid != 0 ==> s.k.fds != []) && Handled(s, m, s.k.fds, s.k.forks, u) &&
                 u.k.queue == s.k.queue[1..]
  {
    hide ReadFromBoosterSocket, ForkBooster, Handled, Books;
    var t := ReceivesAndBooks(s);
    if CanReceive(s.k.queue[0], s.k.fds, s.k.open) { ForkHandles(s, s.k.queue[0], s.k.fds, t); }
  }

  lemma SelectFrame(s: State, e: Event)
    requires Inv(s) && e.Iterate?
    ensures var k := AfterSelect(s.k, e);
            && Inv(s.(k := k)) && k.log == s.k.log && k.open == s.k.open && k.procs.Keys == s.k.procs.Keys
            && k.forks == e.forks && k.fds == e.fds && s.k.queue <= k.queue
  {
    AfterSelectKeeps(s, e);
    MovesKeep(s.k.(turns := e.turns, forks := e.forks, fds := e.fds), e.between);
  }

  lemma HandledSame(s: State, s1: State, m: Datagram, fds: seq<int32>, forks: seq<int32>, u: State)
    requires m.invokerPid != 0 ==> fds != []
    requires s1.d == s.d && s1.k.log == s.k.log && s1.k.procs.Keys == s.k.procs.Keys
    requires Handled(s1, m, fds, forks, u)
    ensures Handled(s, m, fds, forks, u)
  {
  }

  lemma AfterReadDoes(s: State, e: Event)
    requires Inv(s) && s.d.up && e.Iterate?
    ensures ReadsOne(s, e, AfterRead(s, e))
  {
    hide AfterSelect, ReadFromBoosterSocket, Handled;
    SelectFrame(s, e);
    if s.k.queue != [] {
      var s1 := s.(k := AfterSelect(s.k, e));
      ReadDoes(s1);
      if CanReceive(s.k.queue[0], e.fds, s.k.open) {
        HandledSame(s, s1, s.k.queue[0], e.fds, e.forks, AfterRead(s, e));
      }
    }
  }

  /** In every run: if the booster socket was readable, the daemon exits when recvmsg fails, and
      otherwise books the message if and only if it names an invoker, and forks the next booster with
      the delay of the message in normal mode and with none in boot mode; if the socket was not
      readable, nothing of this happens, whatever arrives meanwhile. */
  lemma EveryMessageBooked(bootMode: bool, open: set<int32>, forks: seq<int32>, es: seq<Event>, e: Event)
    requires Run(Start(bootMode, open, forks), es).d.up && e.Iterate?
    ensures var s := Run(Start(bootMode, open, forks), es); ReadsOne(s, e, AfterRead(s, e))
  {
    SupervisorInvariant(bootMode, open, forks, es);
    AfterReadDoes(Run(Start(bootMode, open, forks), es), e);
  }

  // ---------------------------------------------------------------- the signal

  /** Every booster forked since is a replacement: in the current mode, after two seconds or none. */
  ghost predicate Replaces(s: State, t: State) {
    && t.d.bootMode == s.d.bootMode && s.k.log <= t.k.log
    && forall x :: |s.k.log| <= x < |t.k.log| && t.k.log[x].Forked? ==>
         t.k.log[x].bootMode == s.d.bootMode && t.k.log[x].sleep == if s.d.bootMode then 0 else 2
  }

  lemma ReplacesMore(s: State, t: State, u: State)
    requires Replaces(s, t) && Replaces(t, u)
    ensures Replaces(s, u)
  {
  }

  lemma WaitReplaces(s: State, pid: int32, d: Fields)
    requires d.bootMode == s.d.bootMode
    ensures Replaces(s, State(d, WaitPid(s.k, pid).0))
  {
    WaitPidFrame(s.k, pid);
    if s.k.turns != [] { MovesFrame(s.k.(turns := s.k.turns[1..]), s.k.turns[0]); }
  }

  lemma SettleReplaces(s: State, pid: int32, st: Status)
    ensures Replaces(s, SettleLaunch(s, pid, st))
  {
    if pid in s.d.toPid { assert Replaces(s, CloseInvoker(s, pid, st)); }
  }

  lemma RespawnReplaces(s: State, pid: int32)
    ensures Replaces(s, Respawn(s, pid))
  {
  }

  lemma ReapStepReplaces(s: State, i: nat)
    requires i < |s.d.children|
    ensures Replaces(s, ReapStep(s, i).0)
  {
    hide Replaces, WaitPid;
    var pid := s.d.children[i];
    var (k, w) := WaitPid(s.k, pid);
    var without := s.d.(children := Erase(s.d.children, i));
    WaitReplaces(s, pid, s.d);
    WaitReplaces(s, pid, without);
    if w.Gone? {
      var s1 := State(without, k);
      SettleReplaces(s1, pid, w.status);
      RespawnReplaces(SettleLaunch(s1, pid, w.status), pid);
      ReplacesMore(s, s1, SettleLaunch(s1, pid, w.status));
      ReplacesMore(s, SettleLaunch(s1, pid, w.status), Respawn(SettleLaunch(s1, pid, w.status), pid));
    }
  }

  lemma {:induction false} ReapReplaces(s: State, i: nat)
    ensures Replaces(s, ReapFrom(s, i))
    decreases |s.k.forks|, if i < |s.d.children| then |s.d.children| - i else 0
  {
    if s.d.up && i < |s.d.children| {
      ReapStepReplaces(s, i);
      ReapStepProgress(s, i);
      var (t, j) := ReapStep(s, i);
      if t.d.up {
        ReapReplaces(t, j);
        ReplacesMore(s, t, ReapFrom(t, j));
      }
    }
  }

  /** From `s` on, `u` has waited for every child once, in order, and for every replacement. */
  ghost predicate Reaps(s: State, u: State) {
    && Replaces(s, u)
    && (u.d.up ==> var es := u.k.log[|s.k.log|..]; Polls(es) == s.d.children + Forks(es))
  }

  lemma ReapZombiesReaps(s: State)
    requires s.d.up && Inv(s)
    ensures Reaps(s, ReapZombies(s))
  {
    hide Replaces, Polls, Forks;
    ReapReplaces(s, 0);
    var es := EachPolledOnce(s, 0);
    assert s.d.children[0..] == s.d.children;
    assert ReapZombies(s).k.log[|s.k.log|..] == es;
  }

  /** `u` is `t` after one SIGTERM to the current booster. */
  ghost predicate Terms(t: State, u: State) {
    u.d == t.d && u.k.log == t.k.log + [Killed(t.d.boosterPid, 15)]
  }

  /** What the daemon does about a signal; `t` is what the read has left. */
  ghost predicate Obeys(t: State, sig: Signal, u: State) {
    match sig
    case Term => u == t.(d := t.d.(up := false))
    case Usr1 => if t.d.bootMode then Terms(t.(d := t.d.(bootMode := false)), u) else u == t
    case Usr2 => if t.d.bootMode then u == t else Terms(t.(d := t.d.(bootMode := true)), u)
    case Chld => Reaps(t, u)
    case Hup => exists v: State :: Terms(t, v) && Reaps(v, u)
    case Pipe => u == t
    case Other => u == t
  }

  lemma KillTerms(t: State)
    requires t.d.boosterPid > 0
    ensures Terms(t, KillBoosters(t))
  {
  }

  lemma ReExecDoes(t: State)
    requires Inv(t) && t.d.up
    ensures Terms(t, KillBoosters(t)) && Reaps(KillBoosters(t), ReExec(t))
  {
    hide Reaps, ReapZombies;
    KillTerms(t);
    KillBoostersKeeps(t);
    ReapZombiesReaps(KillBoosters(t));
  }

  lemma SignalDoes(t: State, sig: Signal)
    requires Inv(t) && t.d.up
    ensures Obeys(t, sig, HandleSignal(t, sig))
  {
    hide Terms, Reaps, ReapZombies, KillBoosters;
    KillTerms(t);
    KillTerms(t.(d := t.d.(bootMode := false)));
    KillTerms(t.(d := t.d.(bootMode := true)));
    match sig
    case Chld => ReapZombiesReaps(t);
    case Hup => ReExecDoes(t);
    case _ =>
  }

  /** In every run, what the daemon does about the signal it finds: SIGTERM ends it; SIGUSR1 and SIGUSR2
      leave the other mode, with one SIGTERM to the booster if the mode changes; SIGCHLD has every child
      waited for; SIGHUP has the booster sent SIGTERM and then every child waited for; anything else
      does nothing, and a daemon that has exited does nothing any more. */
  lemma EverySignalObeyed(bootMode: bool, open: set<int32>, forks: seq<int32>, es: seq<Event>, e: Event)
    ensures var s := Run(Start(bootMode, open, forks), es);
            var u := Step(s, e);
            if !s.d.up then u == s
            else if e.Env? then u.d == s.d && u.k.log == s.k.log
            else if e.sig.None? || !AfterRead(s, e).d.up then u == AfterRead(s, e)
            else Obeys(AfterRead(s, e), e.sig.value, u)
  {
    SupervisorInvariant(bootMode, open, forks, es);
    var s := Run(Start(bootMode, open, forks), es);
    if s.d.up && e.Iterate? {
      AfterReadKeeps(s, e);
      if AfterRead(s, e).d.up && e.sig.Some? { SignalDoes(AfterRead(s, e), e.sig.value); }
    }
  }

  lemma {:induction false} DownStays(s: State, es: seq<Event>)
    requires !s.d.up
    ensures Run(s, es) == s
    decreases |es|
  {
    if es != [] { DownStays(s, es[1..]); }
  }

  /** A SIGTERM anywhere in the events ends every run, whatever it finds and whatever follows. */
  lemma {:induction false} TermEnds(s: State, es: seq<Event>, i: nat)
    requires i < |es| && es[i].Iterate? && es[i].sig == Some(Term)
    ensures !Run(s, es).d.up
    decreases i
  {
    if i > 0 {
      TermEnds(Step(s, es[0]), es[1..], i - 1);
    } else {
      DownStays(Step(s, es[0]), es[1..]);
    }
  }

  /** The daemon starts with one booster, forked at once in its mode, or it does not start. */
  lemma FirstBooster(bootMode: bool, open: set<int32>, forks: seq<int32>)
    ensures var s := Start(bootMode, open, forks);
            if forks != [] && forks[0] > 0
            then s.d == Fields(true, [forks[0]], map[], map[], forks[0], bootMode) &&
                 s.k.log == [Forked(forks[0], bootMode, 0, open)]
            else !s.d.up && s.k.log == []
  {
    assert LeftOpen(open, map[]) == open;
  }
}
