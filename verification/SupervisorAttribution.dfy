/** Who sent the datagram that the daemon credits to its current booster. */
module SupervisorAttribution {
  import opened Basics
  import opened Supervisor
  import opened SupervisorSafety

  /** At most one booster waits, at most one datagram is queued, and it is the booster's own. */
  ghost predicate OneWaiting(s: State) {
    && (forall p :: p in s.k.procs && p != s.d.boosterPid ==> s.k.procs[p].hasSent || s.k.procs[p].fate.Some?)
    && (s.k.queue == [] || (|s.k.queue| == 1 && s.k.queue[0].sender == s.d.boosterPid))
    && (s.d.boosterPid in s.k.procs ==> (s.k.procs[s.d.boosterPid].hasSent <==> s.k.queue != []))
  }

  /** Every launch registered so far was registered for the booster that asked for it. */
  ghost predicate Paired(log: seq<Effect>) {
    forall x :: 0 <= x < |log| && log[x].Registered? ==> log[x].sender == log[x].pid
  }

  ghost predicate Attributed(s: State) {
    !s.k.orphaned ==> Paired(s.k.log) && (s.d.up ==> OneWaiting(s))
  }

  ghost predicate Both(s: State) { Good(s) && Attributed(s) }

  lemma {:induction false} MovesAttribute(s: State, ms: seq<Move>)
    requires Attributed(s)
    ensures Attributed(s.(k := Moves(s.k, ms)))
    decreases |ms|
  {
    if ms != [] {
      assert Attributed(s.(k := Moved(s.k, ms[0])));
      MovesAttribute(s.(k := Moved(s.k, ms[0])), ms[1..]);
    }
  }

  /** Nobody but children that have sent or died, and an empty queue: the next booster may start. */
  ghost predicate Vacant(s: State) {
    Paired(s.k.log) && s.k.queue == [] &&
    forall p :: p in s.k.procs ==> s.k.procs[p].hasSent || s.k.procs[p].fate.Some?
  }

  lemma ForkAttributes(s: State, sleepTime: int)
    requires !s.k.orphaned ==> Vacant(s)
    ensures Attributed(ForkBooster(s, sleepTime))
  {
  }

  lemma ReadAttributes(s: State)
    requires Attributed(s) && Inv(s) && s.d.up && s.k.queue != []
    ensures Attributed(ReadFromBoosterSocket(s))
  {
    var (k, r) := RecvMsg(s.k);
    if r.Received? {
      var t := State(s.d, k);
      var u := if r.datagram.invokerPid != 0 && s.d.boosterPid != 0 && r.fd.Some?
               then Register(t, r.datagram, r.fd.value) else t;
      assert !s.k.orphaned ==> Vacant(u);
      ForkAttributes(u, r.datagram.delay);
    }
  }

  lemma KillAttributes(s: State)
    requires Attributed(s)
    ensures Attributed(KillBoosters(s))
  {
  }

  /** Settling a launch registers nothing and changes no child's progress. */
  lemma SettledAttributes(s: State, pid: int32, st: Status, t: State)
    requires s.d.toPid.Keys == s.d.toFd.Keys && Settled(s, pid, st, t)
    ensures Paired(s.k.log) ==> Paired(t.k.log)
    ensures Vacant(s) ==> Vacant(t)
    ensures OneWaiting(s) ==> OneWaiting(t)
  {
  }

  lemma UnreadHead(queue: seq<Datagram>, pid: int32)
    ensures queue != [] && queue[0].sender == pid ==> Unread(queue, pid)
  {
  }

  lemma ReapGoneAttributes(s: State, i: nat, st: Status, s1: State, t: State)
    requires Attributed(s) && Inv(s) && s.d.up && i < |s.d.children|
    requires JustReaped(s, i, st, s1) && Settled(s1, s.d.children[i], st, t)
    ensures Attributed(Respawn(t, s.d.children[i]))
  {
    var pid := s.d.children[i];
    SettledAttributes(s1, pid, st, t);
    assert Paired(s.k.log) ==> Paired(s1.k.log);
    if pid == s.d.boosterPid {
      if !s.k.orphaned && !Unread(s.k.queue, pid) {
        UnreadHead(s.k.queue, pid);
        assert Vacant(s1);
      }
      ForkAttributes(t.(k := t.k.(orphaned := t.k.orphaned || Unread(t.k.queue, pid))), BOOSTER_SLEEP_TIME);
    } else if !s.k.orphaned {
      assert OneWaiting(s1);
    }
  }

  lemma PollAttributes(s: State, i: nat)
    requires Attributed(s) && i < |s.d.children|
    ensures Attributed(AfterPoll(s, i))
  {
    if s.k.turns != [] {
      MovesAttribute(s.(k := s.k.(turns := s.k.turns[1..])), s.k.turns[0]);
    }
    assert Attributed(State(s.d, TakeTurn(s.k)));
  }

  lemma ReapStepAttributes(s: State, i: nat)
    requires Attributed(s) && Inv(s) && s.d.up && i < |s.d.children|
    ensures Attributed(ReapStep(s, i).0)
  {
    StepCases(s, i);
    PollAttributes(s, i);
    var (u, pid) := (AfterPoll(s, i), s.d.children[i]);
    if u.k.procs[pid].fate.Some? {
      var st := u.k.procs[pid].fate.value;
      SettledCases(u, i, st);
      ReapGoneAttributes(u, i, st, AfterReap(u, i, st), AfterSettle(u, i, st));
    }
  }

  lemma {:induction false} ReapAttributes(s: State, i: nat)
    requires Attributed(s) && Inv(s)
    ensures Attributed(ReapFrom(s, i))
    decreases |s.k.forks|, if i < |s.d.children| then |s.d.children| - i else 0
  {
    if s.d.up && i < |s.d.children| {
      ReapStepAttributes(s, i);
      ReapStepKeeps(s, i);
      ReapStepProgress(s, i);
      var (t, j) := ReapStep(s, i);
      if t.d.up { ReapAttributes(t, j); }
    }
  }

  lemma HandleSignalAttributes(s: State, sig: Signal)
    requires Attributed(s) && Inv(s) && s.d.up
    ensures Attributed(HandleSignal(s, sig))
  {
    match sig
    case Chld => ReapAttributes(s, 0);
    case Usr1 => KillAttributes(s.(d := s.d.(bootMode := false)));
    case Usr2 => KillAttributes(s.(d := s.d.(bootMode := true)));
    case Hup =>
      KillAttributes(s);
      KillBoostersKeeps(s);
      ReapAttributes(KillBoosters(s), 0);
    case _ =>
  }

  lemma AfterReadAttributes(s: State, e: Event)
    requires Attributed(s) && Inv(s) && s.d.up && e.Iterate?
    ensures Attributed(AfterRead(s, e))
  {
    MovesAttribute(s.(k := s.k.(turns := e.turns, forks := e.forks, fds := e.fds)), e.between);
    AfterSelectKeeps(s, e);
    if s.k.queue != [] { ReadAttributes(s.(k := AfterSelect(s.k, e))); }
  }

  lemma StepAttributes(s: State, e: Event)
    requires Both(s)
    ensures Both(Step(s, e))
  {
    if s.d.up {
      StepKeeps(s, e);
      match e
      case Env(m) =>
        assert Moved(s.k, m) == Moves(s.k, [m]);
        MovesAttribute(s, [m]);
      case Iterate(_, sig, _, _, _) =>
        AfterReadKeeps(s, e);
        AfterReadAttributes(s, e);
        if AfterRead(s, e).d.up && sig.Some? { HandleSignalAttributes(AfterRead(s, e), sig.value); }
    }
  }

  lemma {:induction false} RunAttributes(s: State, es: seq<Event>)
    requires Both(s)
    ensures Both(Run(s, es))
    decreases |es|
  {
    if es != [] {
      StepAttributes(s, es[0]);
      RunAttributes(Step(s, es[0]), es[1..]);
    }
  }

  /** In every run in which no current booster was reaped with its datagram still unread, each
      launch is registered for the booster that received it; while the daemon is up, at most one
      booster waits, and a queued datagram is that of the current booster. */
  lemma Attribution(bootMode: bool, open: set<int32>, forks: seq<int32>, es: seq<Event>)
    requires !Run(Start(bootMode, open, forks), es).k.orphaned
    ensures var s := Run(Start(bootMode, open, forks), es);
            Paired(s.k.log) && (s.d.up ==> OneWaiting(s))
  {
    SupervisorInvariant(bootMode, open, forks, []);
    RunAttributes(Start(bootMode, open, forks), es);
  }

  // ---------------------------------------------------------------- the exact condition

  /** The current booster is not the one that the queue belongs to. */
  ghost predicate Confused(s: State) {
    && s.d.boosterPid in s.k.procs && s.k.queue != []
    && (s.k.procs[s.d.boosterPid].hasSent ==> |s.k.queue| >= 2)
  }

  lemma ConfusedIsNotOneWaiting(s: State)
    requires Confused(s)
    ensures !OneWaiting(s)
  {
  }

  /** Once a message has been orphaned, the reap loop cannot set things right. */
  ghost predicate OrphanConfuses(s: State) { s.k.orphaned && s.d.up ==> Confused(s) }

  lemma {:induction false} MovesConfuse(s: State, ms: seq<Move>)
    requires OrphanConfuses(s)
    ensures OrphanConfuses(s.(k := Moves(s.k, ms)))
    decreases |ms|
  {
    if ms != [] {
      assert OrphanConfuses(s.(k := Moved(s.k, ms[0])));
      MovesConfuse(s.(k := Moved(s.k, ms[0])), ms[1..]);
    }
  }

  lemma PollConfuses(s: State, i: nat)
    requires OrphanConfuses(s) && i < |s.d.children|
    ensures OrphanConfuses(AfterPoll(s, i))
  {
    if s.k.turns != [] { MovesConfuse(s.(k := s.k.(turns := s.k.turns[1..])), s.k.turns[0]); }
    assert OrphanConfuses(State(s.d, TakeTurn(s.k)));
  }

  lemma ForkConfuses(t: State, sleepTime: int)
    requires t.k.orphaned ==> t.k.queue != []
    ensures OrphanConfuses(ForkBooster(t, sleepTime))
  {
  }

  lemma OtherSettledConfuses(u: State, i: nat, st: Status, s1: State, t: State)
    requires OrphanConfuses(u) && Inv(u) && u.d.up && i < |u.d.children| && u.d.children[i] != u.d.boosterPid
    requires JustReaped(u, i, st, s1) && Settled(s1, u.d.children[i], st, t)
    ensures OrphanConfuses(t)
  {
  }

  lemma RespawnConfuses(u: State, i: nat, st: Status, s1: State, t: State)
    requires OrphanConfuses(u) && Inv(u) && u.d.up && i < |u.d.children|
    requires JustReaped(u, i, st, s1) && Settled(s1, u.d.children[i], st, t)
    ensures OrphanConfuses(Respawn(t, u.d.children[i]))
  {
    var pid := u.d.children[i];
    if pid != u.d.boosterPid {
      OtherSettledConfuses(u, i, st, s1, t);
    } else {
      ForkConfuses(t.(k := t.k.(orphaned := t.k.orphaned || Unread(t.k.queue, pid))), BOOSTER_SLEEP_TIME);
    }
  }

  lemma ReapStepConfuses(s: State, i: nat)
    requires OrphanConfuses(s) && Inv(s) && s.d.up && i < |s.d.children|
    ensures OrphanConfuses(ReapStep(s, i).0)
  {
    StepCases(s, i);
    PollConfuses(s, i);
    var (u, pid) := (AfterPoll(s, i), s.d.children[i]);
    if u.k.procs[pid].fate.Some? {
      var st := u.k.procs[pid].fate.value;
      SettledCases(u, i, st);
      RespawnConfuses(u, i, st, AfterReap(u, i, st), AfterSettle(u, i, st));
    }
  }

  lemma {:induction false} ReapConfuses(s: State, i: nat)
    requires OrphanConfuses(s) && Inv(s)
    ensures OrphanConfuses(ReapFrom(s, i))
    decreases |s.k.forks|, if i < |s.d.children| then |s.d.children| - i else 0
  {
    if s.d.up && i < |s.d.children| {
      ReapStepConfuses(s, i);
      ReapStepKeeps(s, i);
      ReapStepProgress(s, i);
      var (t, j) := ReapStep(s, i);
      if t.d.up { ReapConfuses(t, j); }
    }
  }

  lemma HandleSignalConfuses(s: State, sig: Signal)
    requires !s.k.orphaned && Inv(s)
    ensures OrphanConfuses(HandleSignal(s, sig))
  {
    match sig
    case Chld => ReapConfuses(s, 0);
    case Hup =>
      KillBoostersKeeps(s);
      ReapConfuses(KillBoosters(s), 0);
    case _ =>
  }

  lemma AfterReadNotOrphaned(s: State, e: Event)
    requires !s.k.orphaned && e.Iterate?
    ensures !AfterRead(s, e).k.orphaned
  {
    MovesFrame(s.k.(turns := e.turns, forks := e.forks, fds := e.fds), e.between);
  }

  /** The step that orphans a message leaves the daemon confused, if it leaves it up. */
  lemma StepConfuses(s: State, e: Event)
    requires Inv(s) && !s.k.orphaned
    ensures OrphanConfuses(Step(s, e))
  {
    if s.d.up && e.Iterate? {
      AfterReadKeeps(s, e);
      AfterReadNotOrphaned(s, e);
      if AfterRead(s, e).d.up && e.sig.Some? { HandleSignalConfuses(AfterRead(s, e), e.sig.value); }
    }
  }

  /** The state after the first `n` events. */
  function After(s: State, es: seq<Event>, n: nat): State
    requires n <= |es|
  {
    Run(s, es[..n])
  }

  lemma {:induction false} RunOneMore(s: State, es: seq<Event>, e: Event)
    ensures Run(s, es + [e]) == Step(Run(s, es), e)
    decreases |es|
  {
    if es == [] {
      assert [] + [e] == [e] && [e][1..] == [];
    } else {
      assert (es + [e])[1..] == es[1..] + [e];
      RunOneMore(Step(s, es[0]), es[1..], e);
    }
  }

  lemma AfterNext(s: State, es: seq<Event>, n: nat)
    requires n < |es|
    ensures After(s, es, n + 1) == Step(After(s, es, n), es[n])
  {
    TakeNext(es, n);
    RunOneMore(s, es[..n], es[n]);
  }

  /** Of the steps after which the daemon is up, the first that has orphaned a message. */
  lemma FirstOrphan(s: State, es: seq<Event>, n: nat) returns (m: nat)
    requires n <= |es| && !s.k.orphaned && After(s, es, n).d.up && After(s, es, n).k.orphaned
    ensures m < |es| && After(s, es, m).d.up && !After(s, es, m).k.orphaned
    ensures After(s, es, m + 1).d.up && After(s, es, m + 1).k.orphaned
  {
    m := n;
    while m > 0 && After(s, es, m - 1).k.orphaned
      invariant m <= n && After(s, es, m).d.up && After(s, es, m).k.orphaned
    {
      AfterNext(s, es, m - 1);
      m := m - 1;
    }
    assert es[..0] == [];
    AfterNext(s, es, m - 1);
    m := m - 1;
  }

  /** Exactly when attribution holds: after every step of a run that leaves the daemon up, at most
      one booster waits and the queue is its own, if and only if no such step has reaped a current
      booster whose datagram was unread. */
  lemma AttributionExactly(bootMode: bool, open: set<int32>, forks: seq<int32>, es: seq<Event>)
    ensures var s0 := Start(bootMode, open, forks);
            (forall n: nat :: n <= |es| && After(s0, es, n).d.up ==> OneWaiting(After(s0, es, n)))
            <==> (forall n: nat :: n <= |es| && After(s0, es, n).d.up ==> !After(s0, es, n).k.orphaned)
  {
    var s0 := Start(bootMode, open, forks);
    forall n: nat | n <= |es| && After(s0, es, n).d.up && !After(s0, es, n).k.orphaned
      ensures OneWaiting(After(s0, es, n))
    {
      Attribution(bootMode, open, forks, es[..n]);
    }
    if n: nat :| n <= |es| && After(s0, es, n).d.up && After(s0, es, n).k.orphaned {
      var m := FirstOrphan(s0, es, n);
      SupervisorInvariant(bootMode, open, forks, es[..m]);
      AfterNext(s0, es, m);
      StepConfuses(After(s0, es, m), es[m]);
      ConfusedIsNotOneWaiting(After(s0, es, m + 1));
    }
  }

  // ---------------------------------------------------------------- nothing is made up

  ghost function MovesOf(turns: seq<seq<Move>>): set<Move> {
    if turns == [] then {} else (set m | m in turns[0]) + MovesOf(turns[1..])
  }

  ghost function MovesIn(e: Event): set<Move> {
    if e.Env? then {e.move} else (set m | m in e.between) + MovesOf(e.turns)
  }

  /** Everything the children do in a run. */
  ghost function AllMoves(es: seq<Event>): set<Move> {
    if es == [] then {} else MovesIn(es[0]) + AllMoves(es[1..])
  }

  /** A registration repeats a message that was sent. */
  ghost predicate Backed(e: Effect, moves: set<Move>) {
    e.Registered? ==> exists delay, withFd :: Send(e.sender, e.invokerPid, delay, withFd) in moves
  }

  /** Every queued datagram and every registration goes back to one of these moves. */
  ghost predicate Genuine(k: Kernel, moves: set<Move>) {
    && (forall d :: d in k.queue ==> Send(d.sender, d.invokerPid, d.delay, d.withFd) in moves)
    && (forall x :: 0 <= x < |k.log| ==> Backed(k.log[x], moves))
    && MovesOf(k.turns) <= moves
  }

  /** The history `later` goes on from `log` without a registration. */
  ghost predicate RegistersNothing(log: seq<Effect>, later: seq<Effect>) {
    log <= later && forall x :: |log| <= x < |later| ==> !later[x].Registered?
  }

  ghost predicate NothingRegistered(k: Kernel, t: Kernel) {
    t.queue == k.queue && t.turns == k.turns && RegistersNothing(k.log, t.log)
  }

  lemma StillGenuine(k: Kernel, t: Kernel, moves: set<Move>)
    requires Genuine(k, moves) && NothingRegistered(k, t)
    ensures Genuine(t, moves)
  {
    forall x | 0 <= x < |t.log|
      ensures Backed(t.log[x], moves)
    {
      if x < |k.log| { assert t.log[x] == k.log[x]; }
    }
  }

  lemma RegisteredGenuine(s: State, d: Datagram, fd: int32, moves: set<Move>)
    requires Genuine(s.k, moves) && Send(d.sender, d.invokerPid, d.delay, d.withFd) in moves
    ensures Genuine(Register(s, d, fd).k, moves)
  {
    var t := Register(s, d, fd).k;
    assert Backed(t.log[|s.k.log|], moves);
    forall x | 0 <= x < |t.log|
      ensures Backed(t.log[x], moves)
    {
      if x < |s.k.log| { assert t.log[x] == s.k.log[x]; }
    }
  }

  lemma {:induction false} MovesGenuine(k: Kernel, ms: seq<Move>, moves: set<Move>)
    requires Genuine(k, moves) && forall m :: m in ms ==> m in moves
    ensures Genuine(Moves(k, ms), moves)
    decreases |ms|
  {
    if ms != [] {
      assert ms[0] in ms;
      assert Genuine(Moved(k, ms[0]), moves);
      MovesGenuine(Moved(k, ms[0]), ms[1..], moves);
    }
  }

  lemma StillMine(k: Kernel, moves: set<Move>)
    requires Genuine(k, moves) && k.turns != []
    ensures Genuine(k.(turns := k.turns[1..]), moves)
  {
  }

  lemma WaitGenuine(k: Kernel, pid: int32, moves: set<Move>)
    requires Genuine(k, moves)
    ensures Genuine(WaitPid(k, pid).0, moves)
  {
    if k.turns != [] {
      assert forall m :: m in k.turns[0] ==> m in MovesOf(k.turns);
      StillMine(k, moves);
      MovesGenuine(k.(turns := k.turns[1..]), k.turns[0], moves);
    }
    StillGenuine(TakeTurn(k), WaitPid(k, pid).0, moves);
  }

  lemma BookedGenuine(s: State, d: Datagram, fd: Option<int32>, moves: set<Move>) returns (t: State)
    requires Genuine(s.k, moves) && Send(d.sender, d.invokerPid, d.delay, d.withFd) in moves
    ensures Genuine(t.k, moves)
    ensures t == if d.invokerPid != 0 && s.d.boosterPid != 0 && fd.Some? then Register(s, d, fd.value) else s
  {
    t := s;
    if d.invokerPid != 0 && s.d.boosterPid != 0 && fd.Some? {
      RegisteredGenuine(s, d, fd.value, moves);
      t := Register(s, d, fd.value);
    }
  }

  lemma ReadGenuine(s: State, moves: set<Move>)
    requires Genuine(s.k, moves) && s.k.queue != []
    ensures Genuine(ReadFromBoosterSocket(s).k, moves)
  {
    var (k, r) := RecvMsg(s.k);
    assert Genuine(k, moves);
    if r.Received? {
      assert r.datagram in s.k.queue;
      var t := BookedGenuine(State(s.d, k), r.datagram, r.fd, moves);
      StillGenuine(t.k, ForkBooster(t, r.datagram.delay).k, moves);
    }
  }

  lemma SettleRegistersNothing(s: State, pid: int32, st: Status)
    ensures NothingRegistered(s.k, SettleLaunch(s, pid, st).k)
  {
    var t := CloseInvoker(s, pid, st);
    assert NothingRegistered(s.k, t.k);
  }

  lemma GoneGenuine(s1: State, pid: int32, st: Status, moves: set<Move>)
    requires Genuine(s1.k, moves)
    ensures Genuine(Respawn(SettleLaunch(s1, pid, st), pid).k, moves)
  {
    var s2 := SettleLaunch(s1, pid, st);
    SettleRegistersNothing(s1, pid, st);
    StillGenuine(s1.k, s2.k, moves);
    StillGenuine(s2.k, Respawn(s2, pid).k, moves);
  }

  lemma ReapStepGenuine(s: State, i: nat, moves: set<Move>)
    requires Genuine(s.k, moves) && i < |s.d.children|
    ensures Genuine(ReapStep(s, i).0.k, moves)
  {
    var pid := s.d.children[i];
    WaitGenuine(s.k, pid, moves);
    var (k, w) := WaitPid(s.k, pid);
    if w.Gone? { GoneGenuine(State(s.d.(children := Erase(s.d.children, i)), k), pid, w.status, moves); }
  }

  lemma {:induction false} ReapGenuine(s: State, i: nat, moves: set<Move>)
    requires Genuine(s.k, moves)
    ensures Genuine(ReapFrom(s, i).k, moves)
    decreases |s.k.forks|, if i < |s.d.children| then |s.d.children| - i else 0
  {
    if s.d.up && i < |s.d.children| {
      ReapStepGenuine(s, i, moves);
      ReapStepProgress(s, i);
      var (t, j) := ReapStep(s, i);
      if t.d.up { ReapGenuine(t, j, moves); }
    }
  }

  lemma HandleSignalGenuine(s: State, sig: Signal, moves: set<Move>)
    requires Genuine(s.k, moves)
    ensures Genuine(HandleSignal(s, sig).k, moves)
  {
    StillGenuine(s.k, KillBoosters(s).k, moves);
    match sig
    case Chld => ReapGenuine(s, 0, moves);
    case Hup => ReapGenuine(KillBoosters(s), 0, moves);
    case _ =>
  }

  lemma StepGenuine(s: State, e: Event, moves: set<Move>)
    requires Genuine(s.k, moves) && MovesIn(e) <= moves
    ensures Genuine(Step(s, e).k, moves)
  {
    match e
    case Env(m) =>
      assert Moved(s.k, m) == Moves(s.k, [m]);
      MovesGenuine(s.k, [m], moves);
    case Iterate(between, sig, turns, forks, fds) =>
      var k := s.k.(turns := turns, forks := forks, fds := fds);
      assert forall m :: m in between ==> m in MovesIn(e);
      MovesGenuine(k, between, moves);
      if s.k.queue != [] { ReadGenuine(s.(k := AfterSelect(s.k, e)), moves); }
      if sig.Some? { HandleSignalGenuine(AfterRead(s, e), sig.value, moves); }
  }

  lemma {:induction false} RunGenuine(s: State, es: seq<Event>, moves: set<Move>)
    requires Genuine(s.k, moves) && AllMoves(es) <= moves
    ensures Genuine(Run(s, es).k, moves)
    decreases |es|
  {
    if es != [] {
      StepGenuine(s, es[0], moves);
      RunGenuine(Step(s, es[0]), es[1..], moves);
    }
  }

  /** Every registration repeats a message that its sender sent in the course of the run. */
  lemma RegistrationWasSent(bootMode: bool, open: set<int32>, forks: seq<int32>, es: seq<Event>, x: nat)
    requires x < |Run(Start(bootMode, open, forks), es).k.log|
    requires Run(Start(bootMode, open, forks), es).k.log[x].Registered?
    ensures var e := Run(Start(bootMode, open, forks), es).k.log[x];
            exists delay, withFd :: Send(e.sender, e.invokerPid, delay, withFd) in AllMoves(es)
  {
    RunGenuine(Start(bootMode, open, forks), es, AllMoves(es));
  }

  // ---------------------------------------------------------------- up to the first orphan

  lemma WaitRegistersNothing(k: Kernel, pid: int32)
    ensures RegistersNothing(k.log, WaitPid(k, pid).0.log)
  {
    if k.turns != [] { MovesFrame(k.(turns := k.turns[1..]), k.turns[0]); }
  }

  lemma RespawnRegistersNothing(s: State, pid: int32)
    ensures RegistersNothing(s.k.log, Respawn(s, pid).k.log)
  {
  }

  lemma ReapStepRegistersNothing(s: State, i: nat)
    requires i < |s.d.children|
    ensures RegistersNothing(s.k.log, ReapStep(s, i).0.k.log)
  {
    var pid := s.d.children[i];
    WaitRegistersNothing(s.k, pid);
    var (k, w) := WaitPid(s.k, pid);
    if w.Gone? {
      var s1 := State(s.d.(children := Erase(s.d.children, i)), k);
      SettleRegistersNothing(s1, pid, w.status);
      RespawnRegistersNothing(SettleLaunch(s1, pid, w.status), pid);
    }
  }

  lemma {:induction false} ReapRegistersNothing(s: State, i: nat)
    ensures RegistersNothing(s.k.log, ReapFrom(s, i).k.log)
    decreases |s.k.forks|, if i < |s.d.children| then |s.d.children| - i else 0
  {
    if s.d.up && i < |s.d.children| {
      ReapStepRegistersNothing(s, i);
      ReapStepProgress(s, i);
      var (t, j) := ReapStep(s, i);
      if t.d.up { ReapRegistersNothing(t, j); }
    }
  }

  lemma HandleSignalRegistersNothing(s: State, sig: Signal)
    ensures RegistersNothing(s.k.log, HandleSignal(s, sig).k.log)
  {
    match sig
    case Chld => ReapRegistersNothing(s, 0);
    case Hup => ReapRegistersNothing(KillBoosters(s), 0);
    case _ =>
  }

  lemma ForkExtends(s: State, sleepTime: int)
    ensures s.k.log <= ForkBooster(s, sleepTime).k.log
  {
  }

  lemma ReadExtends(s: State)
    requires s.k.queue != []
    ensures s.k.log <= ReadFromBoosterSocket(s).k.log
  {
    hide ForkBooster;
    var (k, r) := RecvMsg(s.k);
    if r.Received? {
      ForkExtends(State(s.d, k), r.datagram.delay);
      if r.fd.Some? { ForkExtends(Register(State(s.d, k), r.datagram, r.fd.value), r.datagram.delay); }
    }
  }

  lemma AfterReadExtends(s: State, e: Event)
    requires e.Iterate?
    ensures s.k.log <= AfterRead(s, e).k.log
  {
    hide ReadFromBoosterSocket;
    MovesFrame(s.k.(turns := e.turns, forks := e.forks, fds := e.fds), e.between);
    if s.k.queue != [] { ReadExtends(s.(k := AfterSelect(s.k, e))); }
  }

  /** Within a step a registration comes before everything else that follows the read. */
  lemma StepExtends(s: State, e: Event)
    ensures s.k.log <= Step(s, e).k.log
    ensures s.d.up && e.Iterate? ==> RegistersNothing(AfterRead(s, e).k.log, Step(s, e).k.log)
  {
    if s.d.up && e.Iterate? {
      AfterReadExtends(s, e);
      if e.sig.Some? { HandleSignalRegistersNothing(AfterRead(s, e), e.sig.value); }
    }
  }

  lemma {:induction false} RunExtends(s: State, es: seq<Event>)
    ensures s.k.log <= Run(s, es).k.log
    decreases |es|
  {
    if es != [] {
      StepExtends(s, es[0]);
      RunExtends(Step(s, es[0]), es[1..]);
    }
  }

  lemma {:induction false} AfterExtended(s: State, es: seq<Event>, n: nat)
    requires n <= |es|
    ensures After(s, es, n).k.log <= Run(s, es).k.log
    decreases n
  {
    if n == 0 {
      RunExtends(s, es);
    } else {
      AfterExtended(Step(s, es[0]), es[1..], n - 1);
      assert es[..n][1..] == es[1..][..n - 1];
    }
  }

  /** What a step books is paired if nothing was orphaned before it, whatever it orphans itself. */
  lemma StepPairs(s: State, e: Event)
    requires Both(s) && !s.k.orphaned
    ensures Paired(Step(s, e).k.log)
  {
    if s.d.up && e.Iterate? {
      AfterReadAttributes(s, e);
      AfterReadNotOrphaned(s, e);
      StepExtends(s, e);
      var (log, later) := (AfterRead(s, e).k.log, Step(s, e).k.log);
      assert forall x :: 0 <= x < |log| ==> later[x] == log[x];
    }
  }

  /** When the step began that brought the effect at `x`, no message had been orphaned. */
  ghost predicate InTime(s: State, es: seq<Event>, x: nat) {
    exists m: nat :: m < |es| && !After(s, es, m).k.orphaned && x < |After(s, es, m + 1).k.log|
  }

  ghost predicate PairedAt(log: seq<Effect>, x: nat) {
    x < |log| && (log[x].Registered? ==> log[x].sender == log[x].pid)
  }

  lemma PairedLater(log: seq<Effect>, later: seq<Effect>, x: nat)
    requires Paired(log) && log <= later && x < |log|
    ensures PairedAt(later, x)
  {
  }

  lemma InTimePaired(s: State, es: seq<Event>, m: nat, x: nat)
    requires Both(s) && m < |es| && !After(s, es, m).k.orphaned && x < |After(s, es, m + 1).k.log|
    ensures PairedAt(Run(s, es).k.log, x)
  {
    hide Both, Run, Step, Paired, PairedAt;
    RunAttributes(s, es[..m]);
    AfterNext(s, es, m);
    StepPairs(After(s, es, m), es[m]);
    AfterExtended(s, es, m + 1);
    PairedLater(After(s, es, m + 1).k.log, Run(s, es).k.log, x);
  }

  /** In any run, every launch registered up to the first orphaned message is registered for the
      booster that asked for it, whatever happens afterwards. */
  lemma PairedUntilOrphan(bootMode: bool, open: set<int32>, forks: seq<int32>, es: seq<Event>, x: nat)
    requires InTime(Start(bootMode, open, forks), es, x)
    ensures PairedAt(Run(Start(bootMode, open, forks), es).k.log, x)
  {
    hide After, PairedAt;
    var s0 := Start(bootMode, open, forks);
    SupervisorInvariant(bootMode, open, forks, []);
    var m: nat :| m < |es| && !After(s0, es, m).k.orphaned && x < |After(s0, es, m + 1).k.log|;
    InTimePaired(s0, es, m, x);
  }

  // ---------------------------------------------------------------- whom a SIGTERM can hit

  /** Between the read of the socket and a SIGTERM to the booster, it may have become an application:
      in every run only while its message is still queued, and if no message was orphaned exactly
      while there is a message queued. */
  lemma TermHits(bootMode: bool, open: set<int32>, forks: seq<int32>, es: seq<Event>, e: Event)
    requires var s := Run(Start(bootMode, open, forks), es); s.d.up && e.Iterate? && AfterRead(s, e).d.up
    ensures var t := AfterRead(Run(Start(bootMode, open, forks), es), e);
            var b := t.d.boosterPid;
            && KillBoosters(t).k.log == t.k.log + [Killed(b, SIGTERM)] && b in t.k.procs
            && (t.k.procs[b].hasSent ==> Unread(t.k.queue, b))
            && (!t.k.orphaned ==> (t.k.procs[b].hasSent <==> t.k.queue != []))
  {
    var s := Run(Start(bootMode, open, forks), es);
    SupervisorInvariant(bootMode, open, forks, []);
    RunAttributes(Start(bootMode, open, forks), es);
    AfterReadKeeps(s, e);
    AfterReadAttributes(s, e);
  }

  const E0 := Iterate([Send(10, 100, 3, true)], Some(Usr2), [], [], [])

  /** Such a run: booster 10 sends its message after select has returned for SIGUSR2 alone; the
      SIGTERM that follows ends an application that has been launched. */
  lemma LaunchedTermedRun()
    ensures var s := Run(Start(false, {}, [10]), [E0]);
            && s.d.up && !s.k.orphaned && s.k.log == [Forked(10, false, 0, {}), Killed(10, SIGTERM)]
            && 10 in s.k.procs && s.k.procs[10].hasSent
  {
    var s0 := Start(false, {}, [10]);
    assert LeftOpen({}, map[]) == {};
    assert s0.k.log == [Forked(10, false, 0, {})] && s0.k.queue == [];
    var k := s0.k.(turns := [], forks := [], fds := []);
    assert AfterSelect(s0.k, E0) == Moved(k, Send(10, 100, 3, true));
    assert [E0][1..] == [];
    assert Run(s0, [E0]) == Step(s0, E0);
  }

  // ---------------------------------------------------------------- the assumption is needed

  const E1 := Iterate([Send(10, 100, 3, true), Die(10, Exited(0))], Some(Chld), [], [11], [])
  const E2 := Iterate([], None, [], [12], [7])

  lemma FirstIteration() returns (s2: State)
    ensures s2 == Step(Start(false, {}, [10]), E1)
    ensures s2.d == Fields(true, [11], map[], map[], 11, false) && s2.k.orphaned
    ensures s2.k.queue == [Datagram(10, 100, 3, true)] && s2.k.open == {}
    ensures s2.k.procs == map[11 := Child(false, false, false, None)]
  {
    var s0 := Start(false, {}, [10]);
    var k0 := s0.k.(turns := [], forks := [11], fds := []);
    var k1 := Moved(k0, Send(10, 100, 3, true));
    var k2 := Moved(k1, Die(10, Exited(0)));
    assert Moves(k1, [Die(10, Exited(0))]) == k2;
    assert AfterSelect(s0.k, E1) == k2;
    assert s0.d.children == [10] && Erase([10], 0) == [];
    UnreadHead(k2.queue, 10);
    s2 := ReapStep(s0.(k := k2), 0).0;
    assert s2.d.children == [11];
    var s3 := s2.(k := Polled(s2.k, 11));
    assert ReapStep(s2, 0) == (s3, 1);
    assert ReapFrom(s3, 1) == ReapFrom(s2, 0) == s3;
    s2 := s3;
  }

  lemma SecondIteration(s2: State) returns (s3: State)
    requires s2.d == Fields(true, [11], map[], map[], 11, false) && s2.k.orphaned
    requires s2.k.queue == [Datagram(10, 100, 3, true)] && s2.k.open == {}
    requires s2.k.procs == map[11 := Child(false, false, false, None)]
    ensures s3 == Step(s2, E2) && s3.d.up && s3.k.orphaned
    ensures Registered(11, 100, 7, 10) in s3.k.log && s3.d.toPid == map[11 := 100]
  {
    assert AfterSelect(s2.k, E2) == s2.k.(turns := [], forks := [12], fds := [7]);
    s3 := Step(s2, E2);
  }

  /** After select has returned for a signal alone, booster 10 sends its datagram and ends; it is
      reaped and replaced by 11, and the next iteration registers the invoker of 10 for 11. */
  lemma MisattributedRun()
    ensures var s := Run(Start(false, {}, [10]), [E1, E2]);
            s.d.up && s.k.orphaned && Registered(11, 100, 7, 10) in s.k.log && s.d.toPid == map[11 := 100]
  {
    var s0 := Start(false, {}, [10]);
    var s2 := FirstIteration();
    var s3 := SecondIteration(s2);
    assert [E1, E2][1..] == [E2] && [E2][1..] == [];
    assert Run(s0, [E1, E2]) == Run(s2, [E2]) == Run(s3, []) == s3;
  }
}
