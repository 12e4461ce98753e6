/** The children of the daemon and the mode of its booster, read off the history alone. */
module SupervisorLife {
  import opened Basics
  import opened Supervisor
  import Protocol
  import opened SupervisorSafety

  /** A pid that has been forked and not reaped since: the mode it was forked under, and whether
      it has been sent SIGTERM. */
  datatype Life = Absent | Present(bootMode: bool, termed: bool)

  ghost function LifeStep(l: Life, e: Effect, pid: int32): Life {
    match e
    case Forked(p, mode, _, _) => if p == pid then Present(mode, false) else l
    case Reaped(p, _) => if p == pid then Absent else l
    case Killed(p, sig) => if p == pid && sig == SIGTERM && l.Present? then l.(termed := true) else l
    case _ => l
  }

  ghost function LifeOf(log: seq<Effect>, pid: int32): Life
    decreases |log|
  {
    if log == [] then Absent else LifeStep(LifeOf(log[..|log| - 1], pid), log[|log| - 1], pid)
  }

  lemma LifeOne(log: seq<Effect>, e: Effect)
    ensures forall p :: LifeOf(log + [e], p) == LifeStep(LifeOf(log, p), e, p)
  {
    assert (log + [e])[..|log|] == log;
  }

  ghost function LifeInTable(k: Kernel, p: int32): Life {
    if p in k.procs then Present(k.procs[p].bootMode, k.procs[p].termed) else Absent
  }

  /** The process table says of every pid what the history says. */
  ghost predicate Tracks(k: Kernel) {
    forall p :: LifeOf(k.log, p) == LifeInTable(k, p)
  }

  // ---------------------------------------------------------------- the system calls

  lemma SameTableTracks(k: Kernel, t: Kernel)
    requires Tracks(k) && t.procs == k.procs && t.log == k.log
    ensures Tracks(t)
  {
    forall p ensures LifeOf(t.log, p) == LifeInTable(t, p) { assert LifeOf(k.log, p) == LifeInTable(k, p); }
  }

  lemma ProgressTracks(k: Kernel, t: Kernel)
    requires Tracks(k) && SameButProgress(k, t)
    ensures Tracks(t)
  {
    forall p ensures LifeOf(t.log, p) == LifeInTable(t, p) { assert LifeOf(k.log, p) == LifeInTable(k, p); }
  }

  /** An effect that concerns no process. */
  lemma NeutralTracks(k: Kernel, t: Kernel, e: Effect)
    requires Tracks(k) && t.procs == k.procs && t.log == k.log + [e]
    requires e.Wrote? || e.Closed? || e.Registered? || e.Waited?
    ensures Tracks(t)
  {
    LifeOne(k.log, e);
    forall p ensures LifeOf(t.log, p) == LifeInTable(t, p) { assert LifeOf(k.log, p) == LifeInTable(k, p); }
  }

  lemma WaitPidTracks(k: Kernel, pid: int32)
    requires Tracks(k)
    ensures Tracks(WaitPid(k, pid).0)
  {
    TakeTurnKeeps(k);
    ProgressTracks(k, TakeTurn(k));
    var k1 := Polled(TakeTurn(k), pid);
    NeutralTracks(TakeTurn(k), k1, Waited(pid));
    if pid !in k1.procs {
      LifeOne(k1.log, WaitFailed(pid));
    } else if k1.procs[pid].fate.Some? {
      LifeOne(k1.log, Reaped(pid, k1.procs[pid].fate.value));
    }
  }

  lemma KillTracks(k: Kernel, pid: int32, sig: int)
    requires Tracks(k)
    ensures Tracks(Kill(k, pid, sig))
  {
    LifeOne(k.log, Killed(pid, sig));
  }

  // ---------------------------------------------------------------- the daemon

  lemma ForkTracks(s: State, sleepTime: int)
    requires Tracks(s.k)
    ensures Tracks(ForkBooster(s, sleepTime).k)
  {
    var kept := LeftOpen(s.k.open, s.d.toFd);
    var (k, p) := Fork(s.k, s.d.bootMode, sleepTime, kept);
    if p.Some? {
      LifeOne(s.k.log, Forked(p.value, s.d.bootMode, if s.d.bootMode then 0 else sleepTime, kept));
    }
  }

  lemma ReadTracks(s: State)
    requires Tracks(s.k) && s.k.queue != []
    ensures Tracks(ReadFromBoosterSocket(s).k)
  {
    var (k, r) := RecvMsg(s.k);
    if r.Received? {
      var t := State(s.d, k);
      if r.fd.Some? {
        var u := Register(t, r.datagram, r.fd.value);
        NeutralTracks(k, u.k, Registered(s.d.boosterPid, r.datagram.invokerPid, r.fd.value, r.datagram.sender));
        ForkTracks(Register(t, r.datagram, r.fd.value), r.datagram.delay);
      }
      ForkTracks(t, r.datagram.delay);
    }
  }

  lemma SettleTracks(s: State, pid: int32, st: Status)
    requires Tracks(s.k)
    ensures Tracks(SettleLaunch(s, pid, st).k)
  {
    if pid in s.d.toPid {
      if pid in s.d.toFd {
        var fd := s.d.toFd[pid];
        var k := s.k;
        if st.Exited? {
          k := Write(Write(s.k, fd, Protocol.MSG_EXIT), fd, st.code);
          NeutralTracks(s.k, Write(s.k, fd, Protocol.MSG_EXIT), Wrote(fd, Protocol.MSG_EXIT));
          NeutralTracks(Write(s.k, fd, Protocol.MSG_EXIT), k, Wrote(fd, st.code));
        }
        NeutralTracks(k, Close(k, fd), Closed(fd));
      }
      if st.Signaled? { KillTracks(CloseInvoker(s, pid, st).k, s.d.toPid[pid], st.sig); }
    }
  }

  lemma RespawnTracks(s: State, pid: int32)
    requires Tracks(s.k)
    ensures Tracks(Respawn(s, pid).k)
  {
    ForkTracks(s.(k := s.k.(orphaned := s.k.orphaned || Unread(s.k.queue, pid))), BOOSTER_SLEEP_TIME);
  }

  lemma ReapStepTracks(s: State, i: nat)
    requires Tracks(s.k) && i < |s.d.children|
    ensures Tracks(ReapStep(s, i).0.k)
  {
    var pid := s.d.children[i];
    WaitPidTracks(s.k, pid);
    var (k, w) := WaitPid(s.k, pid);
    if w.Gone? {
      var s1 := State(s.d.(children := Erase(s.d.children, i)), k);
      SettleTracks(s1, pid, w.status);
      RespawnTracks(SettleLaunch(s1, pid, w.status), pid);
    }
  }

  lemma {:induction false} ReapTracks(s: State, i: nat)
    requires Tracks(s.k)
    ensures Tracks(ReapFrom(s, i).k)
    decreases |s.k.forks|, if i < |s.d.children| then |s.d.children| - i else 0
  {
    if s.d.up && i < |s.d.children| {
      ReapStepTracks(s, i);
      ReapStepProgress(s, i);
      var (t, j) := ReapStep(s, i);
      if t.d.up { ReapTracks(t, j); }
    }
  }

  lemma HandleSignalTracks(s: State, sig: Signal)
    requires Tracks(s.k)
    ensures Tracks(HandleSignal(s, sig).k)
  {
    KillTracks(s.k, s.d.boosterPid, SIGTERM);
    match sig
    case Chld => ReapTracks(s, 0);
    case Hup => ReapTracks(KillBoosters(s), 0);
    case _ =>
  }

  lemma StepTracks(s: State, e: Event)
    requires Tracks(s.k)
    ensures Tracks(Step(s, e).k)
  {
    if s.d.up {
      match e
      case Env(m) =>
        assert Moved(s.k, m) == Moves(s.k, [m]);
        MovesKeep(s.k, [m]);
        ProgressTracks(s.k, Moved(s.k, m));
      case Iterate(between, sig, turns, forks, fds) =>
        var k := s.k.(turns := turns, forks := forks, fds := fds);
        SameTableTracks(s.k, k);
        MovesKeep(k, between);
        ProgressTracks(k, AfterSelect(s.k, e));
        if s.k.queue != [] { ReadTracks(s.(k := AfterSelect(s.k, e))); }
        if AfterRead(s, e).d.up && sig.Some? { HandleSignalTracks(AfterRead(s, e), sig.value); }
    }
  }

  lemma {:induction false} RunTracks(s: State, es: seq<Event>)
    requires Tracks(s.k)
    ensures Tracks(Run(s, es).k)
    decreases |es|
  {
    if es != [] {
      StepTracks(s, es[0]);
      RunTracks(Step(s, es[0]), es[1..]);
    }
  }

  lemma EveryRunTracks(bootMode: bool, open: set<int32>, forks: seq<int32>, es: seq<Event>)
    ensures Tracks(Run(Start(bootMode, open, forks), es).k)
  {
    ForkTracks(State(Fields(true, [], map[], map[], 0, bootMode),
                     Kernel(map[], open, [], [], forks, [], false, [])), 0);
    RunTracks(Start(bootMode, open, forks), es);
  }

  // ---------------------------------------------------------------- the theorems

  /** `m_children` is duplicate-free and holds exactly the pids that have been forked and not yet
      reaped; the current booster is one of them and has no mapping; the two maps have the same
      keys, all children, and the registered descriptors are open and pairwise different. */
  lemma ChildrenAreForkedUnreaped(bootMode: bool, open: set<int32>, forks: seq<int32>, es: seq<Event>)
    requires Run(Start(bootMode, open, forks), es).d.up
    ensures var s := Run(Start(bootMode, open, forks), es);
            && NoDup(s.d.children)
            && (forall p :: p in s.d.children <==> LifeOf(s.k.log, p).Present?)
            && s.d.boosterPid in s.d.children && s.d.boosterPid !in s.d.toPid
            && s.d.toPid.Keys == s.d.toFd.Keys
            && (forall p :: p in s.d.toPid ==> p in s.d.children)
            && (forall p :: p in s.d.toFd ==> s.d.toFd[p] in s.k.open)
            && (forall p, q :: p in s.d.toFd && q in s.d.toFd && p != q ==> s.d.toFd[p] != s.d.toFd[q])
  {
    SupervisorInvariant(bootMode, open, forks, es);
    EveryRunTracks(bootMode, open, forks, es);
    var s := Run(Start(bootMode, open, forks), es);
    forall p
      ensures p in s.d.children <==> LifeOf(s.k.log, p).Present?
    {
      assert LifeOf(s.k.log, p) == LifeInTable(s.k, p);
    }
  }

  /** The current booster was forked under the current mode, or has been sent SIGTERM since. */
  lemma ModeConsistency(bootMode: bool, open: set<int32>, forks: seq<int32>, es: seq<Event>)
    requires Run(Start(bootMode, open, forks), es).d.up
    ensures var s := Run(Start(bootMode, open, forks), es);
            var l := LifeOf(s.k.log, s.d.boosterPid);
            l.Present? && (l.bootMode == s.d.bootMode || l.termed)
  {
    SupervisorInvariant(bootMode, open, forks, es);
    EveryRunTracks(bootMode, open, forks, es);
    var s := Run(Start(bootMode, open, forks), es);
    assert LifeOf(s.k.log, s.d.boosterPid) == LifeInTable(s.k, s.d.boosterPid);
  }
}
