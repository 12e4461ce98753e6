/** What every run of the supervisor keeps. */
module SupervisorSafety {
  import opened Basics
  import opened Supervisor
  import Protocol

  // ---------------------------------------------------------------- a monitor for the history

  datatype Launch = Launch(invokerPid: int32, fd: int32)

  /** The effects owed to an invoker once its application has ended. */
  function Outcome(l: Launch, st: Status): seq<Effect> {
    match st
    case Exited(c) => [Wrote(l.fd, Protocol.MSG_EXIT), Wrote(l.fd, c), Closed(l.fd)]
    case Signaled(sig) => [Closed(l.fd), Killed(l.invokerPid, sig)]
  }

  /** `pending`: launches registered and not yet settled; `owed`: effects that must come next;
      `booster`: the pid forked last. */
  datatype Monitor = Watching(pending: map<int32, Launch>, owed: seq<Effect>, booster: int32) | Violated

  ghost predicate FdPending(pending: map<int32, Launch>, fd: int32) {
    exists p :: p in pending && pending[p].fd == fd
  }

  ghost predicate SomePending(pending: map<int32, Launch>, fds: set<int32>) {
    exists p :: p in pending && pending[p].fd in fds
  }

  /** The monitor is independent of the daemon: a launch is registered on a descriptor that no other
      pending launch uses and no child forked later keeps open, and it is settled at once, in full,
      when its application is reaped; the daemon writes and closes nothing else, sends no other signal
      than SIGTERM to the pid it forked last, and never waits in vain. */
  ghost function Watch(m: Monitor, e: Effect): Monitor {
    if m.Violated? then Violated
    else if m.owed != [] then (if e == m.owed[0] then m.(owed := m.owed[1..]) else Violated)
    else match e
      case Forked(p, _, _, kept) =>
        if p in m.pending || SomePending(m.pending, kept) then Violated else m.(booster := p)
      case Registered(p, inv, fd, _) =>
        if p in m.pending || FdPending(m.pending, fd) || inv <= 0 then Violated
        else m.(pending := m.pending[p := Launch(inv, fd)])
      case Waited(_) => m
      case Reaped(p, st) =>
        if p in m.pending then Watching(m.pending - {p}, Outcome(m.pending[p], st), m.booster) else m
      case WaitFailed(_) => Violated
      case Wrote(_, _) => Violated
      case Closed(_) => Violated
      case Killed(p, sig) => if 0 < p == m.booster && sig == SIGTERM then m else Violated
  }

  ghost function WatchAll(m: Monitor, es: seq<Effect>): Monitor
    decreases |es|
  {
    if es == [] then m else Watch(WatchAll(m, es[..|es| - 1]), es[|es| - 1])
  }

  ghost function Verdict(log: seq<Effect>): Monitor { WatchAll(Watching(map[], [], 0), log) }

  lemma WatchOne(log: seq<Effect>, e: Effect)
    ensures Verdict(log + [e]) == Watch(Verdict(log), e)
  {
    assert (log + [e])[..|log|] == log;
  }

  // ---------------------------------------------------------------- the invariant

  ghost predicate ChildrenOk(s: State) {
    && NoDup(s.d.children)
    && (forall p :: p in s.d.children <==> p in s.k.procs)
    && (forall p :: p in s.k.procs ==> p > 0)
  }

  ghost predicate MapsOk(s: State) {
    && s.d.toPid.Keys == s.d.toFd.Keys
    && (forall p :: p in s.d.toPid ==> p in s.k.procs && s.d.toPid[p] > 0)
  }

  ghost predicate FdsOk(s: State) {
    && (forall p :: p in s.d.toFd ==> s.d.toFd[p] >= 0 && s.d.toFd[p] in s.k.open)
    && (forall p, q :: p in s.d.toFd && q in s.d.toFd && p != q ==> s.d.toFd[p] != s.d.toFd[q])
  }

  ghost predicate QueueOk(queue: seq<Datagram>) {
    forall d :: d in queue ==> d.invokerPid >= 0 && (d.invokerPid > 0 ==> d.withFd)
  }

  /** The current booster runs in the current mode, or has been told to terminate. */
  ghost predicate ModeOk(booster: Child, bootMode: bool) {
    booster.bootMode == bootMode || booster.termed
  }

  /** The message of a child that has sent one is still queued. */
  ghost predicate Unheard(k: Kernel, p: int32) {
    p in k.procs && k.procs[p].hasSent ==> Unread(k.queue, p)
  }

  ghost function Pending(d: Fields): map<int32, Launch>
    requires d.toPid.Keys == d.toFd.Keys
  {
    map p | p in d.toPid :: Launch(d.toPid[p], d.toFd[p])
  }

  /** What holds even while the current booster is being replaced. */
  ghost predicate Kept(s: State) {
    ChildrenOk(s) && MapsOk(s) && FdsOk(s) && QueueOk(s.k.queue) &&
    Verdict(s.k.log) == Watching(Pending(s.d), [], s.d.boosterPid)
  }

  ghost predicate BoosterOk(s: State) {
    s.d.boosterPid in s.k.procs && s.d.boosterPid !in s.d.toPid &&
    ModeOk(s.k.procs[s.d.boosterPid], s.d.bootMode) && Unheard(s.k, s.d.boosterPid)
  }

  ghost predicate Inv(s: State) { Kept(s) && BoosterOk(s) }

  /** What holds even after the daemon has exited. */
  ghost predicate Sound(s: State) {
    && s.d.toPid.Keys == s.d.toFd.Keys && Verdict(s.k.log).Watching?
    && Verdict(s.k.log).pending == Pending(s.d) && Verdict(s.k.log).owed == []
  }

  ghost predicate Good(s: State) { Sound(s) && (s.d.up ==> Inv(s)) }

  // ---------------------------------------------------------------- every operation keeps it

  /** Moves of the children leave everything but their own progress in place. */
  ghost predicate SameButProgress(k: Kernel, t: Kernel) {
    && t.procs.Keys == k.procs.Keys
    && (forall p :: p in k.procs ==>
          t.procs[p].bootMode == k.procs[p].bootMode && t.procs[p].termed == k.procs[p].termed)
    && t == k.(procs := t.procs, queue := t.queue, turns := t.turns)
    && (QueueOk(k.queue) ==> QueueOk(t.queue))
    && (forall p :: Unheard(k, p) ==> Unheard(t, p))
  }

  lemma MovedUnheard(k: Kernel, m: Move, p: int32)
    requires Unheard(k, p)
    ensures Unheard(Moved(k, m), p)
  {
    var t := Moved(k, m);
    if i :| 0 <= i < |k.queue| && k.queue[i].sender == p { assert t.queue[i] == k.queue[i]; }
    if t.queue != k.queue { assert t.queue[|k.queue|].sender == m.pid; }
  }

  lemma {:induction false} MovesKeep(k: Kernel, ms: seq<Move>)
    ensures SameButProgress(k, Moves(k, ms))
    decreases |ms|
  {
    if ms != [] {
      forall p | Unheard(k, p) ensures Unheard(Moved(k, ms[0]), p) { MovedUnheard(k, ms[0], p); }
      assert SameButProgress(k, Moved(k, ms[0]));
      MovesKeep(Moved(k, ms[0]), ms[1..]);
    }
  }

  lemma ProgressKeeps(s: State, t: Kernel)
    requires Inv(s) && SameButProgress(s.k, t)
    ensures Inv(State(s.d, t))
  {
  }

  lemma TakeTurnKeeps(k: Kernel)
    ensures SameButProgress(k, TakeTurn(k))
  {
    if k.turns != [] { MovesKeep(k.(turns := k.turns[1..]), k.turns[0]); }
  }

  lemma ForkBoosterKeeps(s: State, sleepTime: int)
    requires Kept(s)
    ensures Good(ForkBooster(s, sleepTime))
  {
    var kept := LeftOpen(s.k.open, s.d.toFd);
    var (k, p) := Fork(s.k, s.d.bootMode, sleepTime, kept);
    if p.Some? {
      var t := ForkBooster(s, sleepTime);
      WatchOne(s.k.log, Forked(p.value, s.d.bootMode, if s.d.bootMode then 0 else sleepTime, kept));
      assert !SomePending(Pending(s.d), kept);
      assert t.d.children == s.d.children + [p.value];
      assert Pending(t.d) == Pending(s.d);
    }
  }

  lemma RegisterVerdict(s: State, d: Datagram, fd: int32)
    requires Kept(s) && s.d.boosterPid in s.k.procs && s.d.boosterPid !in s.d.toPid
    requires d.invokerPid > 0 && fd !in s.d.toFd.Values
    ensures var t := Register(s, d, fd);
            t.d.toPid.Keys == t.d.toFd.Keys && Verdict(t.k.log) == Watching(Pending(t.d), [], t.d.boosterPid)
  {
    var t := Register(s, d, fd);
    WatchOne(s.k.log, Registered(s.d.boosterPid, d.invokerPid, fd, d.sender));
    assert !FdPending(Pending(s.d), fd) by {
      forall p | p in Pending(s.d) ensures Pending(s.d)[p].fd != fd { assert s.d.toFd[p] in s.d.toFd.Values; }
    }
    assert Pending(t.d) == Pending(s.d)[s.d.boosterPid := Launch(d.invokerPid, fd)];
  }

  lemma ReceivedKeeps(s: State, k: Kernel, r: Received)
    requires Inv(s) && s.k.queue != [] && RecvMsg(s.k) == (k, r) && r.Received?
    ensures Kept(State(s.d, k)) && k.procs == s.k.procs
    ensures r.datagram.invokerPid >= 0 && (r.datagram.invokerPid > 0 ==> r.fd.Some?)
    ensures r.fd.Some? ==> 0 <= r.fd.value && r.fd.value in k.open && r.fd.value !in s.d.toFd.Values
  {
    assert r.datagram in s.k.queue && forall e :: e in k.queue ==> e in s.k.queue;
  }

  lemma StoredKeeps(s: State, d: Datagram, fd: int32)
    requires Kept(s) && s.d.boosterPid in s.k.procs && s.d.boosterPid !in s.d.toPid
    requires d.invokerPid > 0 && 0 <= fd && fd in s.k.open && fd !in s.d.toFd.Values
    ensures Kept(Register(s, d, fd))
  {
    RegisterVerdict(s, d, fd);
    var t := Register(s, d, fd);
    assert FdsOk(t) by {
      forall p | p in s.d.toFd ensures s.d.toFd[p] != fd { assert s.d.toFd[p] in s.d.toFd.Values; }
    }
  }

  /** Booking the message that was received, with its descriptor, overwrites nothing: the current
      booster has no mapping yet. */
  lemma RegisterKeeps(s: State, k: Kernel, d: Datagram, fd: int32)
    requires Inv(s) && s.k.queue != [] && RecvMsg(s.k) == (k, Received(d, Some(fd))) && d.invokerPid != 0
    ensures Kept(Register(State(s.d, k), d, fd))
    ensures s.d.boosterPid !in s.d.toPid && s.d.boosterPid !in s.d.toFd
  {
    hide RecvMsg, Register, Verdict, Pending;
    ReceivedKeeps(s, k, Received(d, Some(fd)));
    StoredKeeps(State(s.d, k), d, fd);
  }

  lemma ReadKeeps(s: State)
    requires Inv(s) && s.k.queue != []
    ensures Good(ReadFromBoosterSocket(s))
  {
    var (k, r) := RecvMsg(s.k);
    if r.Received? {
      var (t, d) := (State(s.d, k), r.datagram);
      ReceivedKeeps(s, k, r);
      if d.invokerPid != 0 {
        RegisterKeeps(s, k, d, r.fd.value);
        ForkBoosterKeeps(Register(t, d, r.fd.value), d.delay);
      } else {
        ForkBoosterKeeps(t, d.delay);
      }
    }
  }

  lemma KillKeeps(s: State)
    requires Kept(s)
    ensures Kept(s.(k := Kill(s.k, s.d.boosterPid, SIGTERM)))
    ensures BoosterOk(s) ==> BoosterOk(s.(k := Kill(s.k, s.d.boosterPid, SIGTERM)))
  {
    WatchOne(s.k.log, Killed(s.d.boosterPid, SIGTERM));
  }

  lemma KillBoostersKeeps(s: State)
    requires Kept(s) && s.d.boosterPid in s.k.procs && s.d.boosterPid !in s.d.toPid && Unheard(s.k, s.d.boosterPid)
    ensures Inv(KillBoosters(s))
  {
    KillKeeps(s);
  }

  lemma ModeKeeps(s: State, bootMode: bool)
    requires Kept(s)
    ensures Kept(s.(d := s.d.(bootMode := bootMode)))
  {
    assert Pending(s.d.(bootMode := bootMode)) == Pending(s.d);
  }

  lemma NormalModeKeeps(s: State)
    requires Inv(s)
    ensures Inv(EnterNormalMode(s))
  {
    ModeKeeps(s, false);
    KillBoostersKeeps(s.(d := s.d.(bootMode := false)));
  }

  lemma BootModeKeeps(s: State)
    requires Inv(s)
    ensures Inv(EnterBootMode(s))
  {
    ModeKeeps(s, true);
    KillBoostersKeeps(s.(d := s.d.(bootMode := true)));
  }

  /** The verdict after an outcome: nothing is owed any more. */
  lemma OutcomePaid(log: seq<Effect>, pending: map<int32, Launch>, b: int32, l: Launch, st: Status)
    requires Verdict(log) == Watching(pending, Outcome(l, st), b)
    ensures Verdict(log + Outcome(l, st)) == Watching(pending, [], b)
  {
    var es := Outcome(l, st);
    WatchOne(log, es[0]);
    WatchOne(log + [es[0]], es[1]);
    assert log + [es[0]] + [es[1]] == log + [es[0], es[1]];
    if st.Exited? {
      WatchOne(log + [es[0], es[1]], es[2]);
      assert log + [es[0], es[1]] + [es[2]] == log + es;
    }
  }

  /** The child at the iterator exists, so waitpid never takes its error path. */
  lemma WaitPidFindsChild(s: State, i: nat)
    requires Inv(s) && i < |s.d.children|
    ensures !WaitPid(s.k, s.d.children[i]).1.NoChild?
  {
    TakeTurnKeeps(s.k);
    assert s.d.children[i] in s.d.children;
  }

  /** `t` is `s` with the launch of `pid`, if there was one, settled. */
  ghost predicate Settled(s: State, pid: int32, st: Status, t: State)
    requires s.d.toPid.Keys == s.d.toFd.Keys
  {
    && t.k.log == s.k.log + (if pid in s.d.toPid then Outcome(Pending(s.d)[pid], st) else [])
    && t.d == s.d.(toPid := s.d.toPid - {pid}, toFd := s.d.toFd - {pid})
    && t.k == s.k.(open := if pid in s.d.toFd then s.k.open - {s.d.toFd[pid]} else s.k.open,
                   procs := t.k.procs, log := t.k.log)
    && t.k.procs.Keys == s.k.procs.Keys
    && (forall p :: p in s.k.procs ==>
          t.k.procs[p] == s.k.procs[p] || t.k.procs[p] == s.k.procs[p].(termed := true))
  }

  lemma SettleLaunchSettles(s: State, pid: int32, st: Status)
    requires s.d.toPid.Keys == s.d.toFd.Keys && (forall p :: p in s.d.toPid ==> s.d.toPid[p] > 0)
    ensures Settled(s, pid, st, SettleLaunch(s, pid, st))
  {
    if pid !in s.d.toPid {
      assert s.d.toPid - {pid} == s.d.toPid && s.d.toFd - {pid} == s.d.toFd;
    }
  }

  /** `s1` is `s` with its `i`th child reaped and erased, before its launch is settled. */
  ghost predicate JustReaped(s: State, i: nat, st: Status, s1: State)
    requires i < |s.d.children|
  {
    var pid := s.d.children[i];
    && s1.d == s.d.(children := Erase(s.d.children, i))
    && s1.k == s.k.(procs := s.k.procs - {pid}, log := s.k.log + [Reaped(pid, st)])
  }

  lemma PendingWithout(d: Fields, d1: Fields, t: Fields, pid: int32)
    requires d.toPid.Keys == d.toFd.Keys && d1.toPid == d.toPid && d1.toFd == d.toFd
    requires t.toPid == d.toPid - {pid} && t.toFd == d.toFd - {pid}
    ensures Pending(d1) == Pending(d) && t.toPid.Keys == t.toFd.Keys && Pending(t) == Pending(d) - {pid}
  {
  }

  lemma ReapedVerdict(log: seq<Effect>, pending: map<int32, Launch>, b: int32, pid: int32, st: Status)
    requires Verdict(log) == Watching(pending, [], b)
    ensures Verdict(log + [Reaped(pid, st)])
         == Watching(pending - {pid}, if pid in pending then Outcome(pending[pid], st) else [], b)
  {
    WatchOne(log, Reaped(pid, st));
    if pid !in pending { assert pending - {pid} == pending; }
  }

  lemma LaunchPaid(log: seq<Effect>, pending: map<int32, Launch>, b: int32, pid: int32, st: Status)
    requires Verdict(log) == Watching(pending, [], b)
    ensures Verdict(log + [Reaped(pid, st)] + (if pid in pending then Outcome(pending[pid], st) else []))
         == Watching(pending - {pid}, [], b)
  {
    ReapedVerdict(log, pending, b, pid, st);
    var log1 := log + [Reaped(pid, st)];
    if pid in pending {
      OutcomePaid(log1, pending - {pid}, b, pending[pid], st);
    } else {
      assert log1 + [] == log1;
    }
  }

  lemma SettledPays(s: State, i: nat, st: Status, s1: State, t: State)
    requires Kept(s) && i < |s.d.children| && JustReaped(s, i, st, s1) && Settled(s1, s.d.children[i], st, t)
    ensures Verdict(t.k.log) == Watching(Pending(t.d), [], t.d.boosterPid)
  {
    var pid := s.d.children[i];
    PendingWithout(s.d, s1.d, t.d, pid);
    LaunchPaid(s.k.log, Pending(s.d), s.d.boosterPid, pid, st);
  }

  lemma SettledFds(s: State, i: nat, st: Status, s1: State, t: State)
    requires Kept(s) && i < |s.d.children| && JustReaped(s, i, st, s1) && Settled(s1, s.d.children[i], st, t)
    ensures FdsOk(t) && MapsOk(t)
  {
    var pid := s.d.children[i];
    forall p | p in t.d.toFd
      ensures t.d.toFd[p] in t.k.open
    {
      assert p in s.d.toFd && p != pid;
    }
  }

  /** Reaping one child, up to the point where it is replaced. */
  lemma SettledKeeps(s: State, i: nat, st: Status, s1: State, t: State)
    requires Kept(s) && i < |s.d.children| && JustReaped(s, i, st, s1) && Settled(s1, s.d.children[i], st, t)
    ensures Kept(t)
    ensures BoosterOk(s) && s.d.boosterPid != s.d.children[i] ==> BoosterOk(t)
  {
    EraseKeeps(s.d.children, i);
    SettledPays(s, i, st, s1, t);
    SettledFds(s, i, st, s1, t);
    assert ChildrenOk(t);
  }

  lemma RespawnKeeps(s: State, pid: int32)
    requires Kept(s) && (pid != s.d.boosterPid ==> BoosterOk(s))
    ensures Good(Respawn(s, pid))
  {
    if pid == s.d.boosterPid {
      ForkBoosterKeeps(s.(k := s.k.(orphaned := s.k.orphaned || Unread(s.k.queue, pid))), BOOSTER_SLEEP_TIME);
    }
  }

  lemma PollKeeps(s: State, pid: int32)
    requires Inv(s)
    ensures Inv(State(s.d, Polled(s.k, pid)))
  {
    WatchOne(s.k.log, Waited(pid));
  }

  /** The state after waitpid has been called for the child at `i`. */
  function AfterPoll(s: State, i: nat): State
    requires i < |s.d.children|
  {
    State(s.d, Polled(TakeTurn(s.k), s.d.children[i]))
  }

  /** ... and after that child has been found dead, reaped and erased. */
  function AfterReap(u: State, i: nat, st: Status): State
    requires i < |u.d.children|
  {
    var pid := u.d.children[i];
    State(u.d.(children := Erase(u.d.children, i)),
          u.k.(procs := u.k.procs - {pid}, log := u.k.log + [Reaped(pid, st)]))
  }

  /** ... and after its launch has been settled. */
  function AfterSettle(u: State, i: nat, st: Status): State
    requires i < |u.d.children|
  {
    SettleLaunch(AfterReap(u, i, st), u.d.children[i], st)
  }

  lemma PolledInv(s: State, i: nat)
    requires Inv(s) && i < |s.d.children|
    ensures Inv(AfterPoll(s, i)) && s.d.children[i] in AfterPoll(s, i).k.procs
  {
    TakeTurnKeeps(s.k);
    ProgressKeeps(s, TakeTurn(s.k));
    PollKeeps(State(s.d, TakeTurn(s.k)), s.d.children[i]);
    assert s.d.children[i] in s.d.children;
  }

  /** An iteration of the reap loop, by what waitpid finds. */
  lemma StepCases(s: State, i: nat)
    requires Inv(s) && i < |s.d.children|
    ensures Inv(AfterPoll(s, i)) && s.d.children[i] in AfterPoll(s, i).k.procs
    ensures var (u, pid) := (AfterPoll(s, i), s.d.children[i]);
            ReapStep(s, i) == match u.k.procs[pid].fate
                              case None => (u, i + 1)
                              case Some(st) => (Respawn(AfterSettle(u, i, st), pid), i)
  {
    PolledInv(s, i);
  }

  lemma SettledCases(u: State, i: nat, st: Status)
    requires Inv(u) && i < |u.d.children|
    ensures JustReaped(u, i, st, AfterReap(u, i, st))
    ensures Settled(AfterReap(u, i, st), u.d.children[i], st, AfterSettle(u, i, st))
  {
    SettleLaunchSettles(AfterReap(u, i, st), u.d.children[i], st);
  }

  lemma ReapGoneKeeps(u: State, i: nat, st: Status)
    requires Inv(u) && i < |u.d.children|
    ensures Good(Respawn(AfterSettle(u, i, st), u.d.children[i]))
  {
    SettledCases(u, i, st);
    SettledKeeps(u, i, st, AfterReap(u, i, st), AfterSettle(u, i, st));
    RespawnKeeps(AfterSettle(u, i, st), u.d.children[i]);
  }

  lemma ReapStepKeeps(s: State, i: nat)
    requires Inv(s) && i < |s.d.children|
    ensures Good(ReapStep(s, i).0)
  {
    StepCases(s, i);
    var (u, pid) := (AfterPoll(s, i), s.d.children[i]);
    if u.k.procs[pid].fate.Some? { ReapGoneKeeps(u, i, u.k.procs[pid].fate.value); }
  }

  lemma {:induction false} ReapKeeps(s: State, i: nat)
    requires Inv(s)
    ensures Good(ReapFrom(s, i))
    decreases |s.k.forks|, if i < |s.d.children| then |s.d.children| - i else 0
  {
    if s.d.up && i < |s.d.children| {
      ReapStepKeeps(s, i);
      ReapStepProgress(s, i);
      var (t, j) := ReapStep(s, i);
      if t.d.up { ReapKeeps(t, j); }
    }
  }

  lemma HandleSignalKeeps(s: State, sig: Signal)
    requires Inv(s)
    ensures Good(HandleSignal(s, sig))
  {
    match sig
    case Chld => ReapKeeps(s, 0);
    case Usr1 => NormalModeKeeps(s);
    case Usr2 => BootModeKeeps(s);
    case Hup =>
      KillBoostersKeeps(s);
      ReapKeeps(KillBoosters(s), 0);
    case _ =>
  }

  lemma AfterSelectKeeps(s: State, e: Event)
    requires Inv(s) && e.Iterate?
    ensures Inv(s.(k := AfterSelect(s.k, e)))
  {
    var k := s.k.(turns := e.turns, forks := e.forks, fds := e.fds);
    assert Inv(s.(k := k));
    MovesKeep(k, e.between);
    ProgressKeeps(s.(k := k), AfterSelect(s.k, e));
  }

  lemma AfterReadKeeps(s: State, e: Event)
    requires Inv(s) && e.Iterate?
    ensures Good(AfterRead(s, e))
  {
    AfterSelectKeeps(s, e);
    if s.k.queue != [] { ReadKeeps(s.(k := AfterSelect(s.k, e))); }
  }

  lemma MovedKeeps(s: State, m: Move)
    requires Inv(s)
    ensures Inv(s.(k := Moved(s.k, m)))
  {
    assert Moved(s.k, m) == Moves(s.k, [m]);
    MovesKeep(s.k, [m]);
    ProgressKeeps(s, Moved(s.k, m));
  }

  lemma StepKeeps(s: State, e: Event)
    requires Inv(s)
    ensures Good(Step(s, e))
  {
    match e
    case Env(m) => MovedKeeps(s, m);
    case Iterate(_, sig, _, _, _) =>
      AfterReadKeeps(s, e);
      if AfterRead(s, e).d.up && sig.Some? { HandleSignalKeeps(AfterRead(s, e), sig.value); }
  }

  lemma {:induction false} RunKeeps(s: State, es: seq<Event>)
    requires Good(s)
    ensures Good(Run(s, es))
    decreases |es|
  {
    if es != [] {
      if s.d.up { StepKeeps(s, es[0]); }
      RunKeeps(Step(s, es[0]), es[1..]);
    }
  }

  /** The supervisor invariant, after every step of every run; its history part also once the
      daemon has exited. */
  lemma SupervisorInvariant(bootMode: bool, open: set<int32>, forks: seq<int32>, es: seq<Event>)
    ensures Good(Run(Start(bootMode, open, forks), es))
  {
    var s := State(Fields(true, [], map[], map[], 0, bootMode),
                   Kernel(map[], open, [], [], forks, [], false, []));
    assert Pending(s.d) == map[];
    assert Kept(s);
    ForkBoosterKeeps(s, 0);
    RunKeeps(Start(bootMode, open, forks), es);
  }
}
