/** Exactly one outcome per registered launch, read off the history of a whole run. */
module SupervisorHistory {
  import opened Basics
  import opened Supervisor
  import opened SupervisorSafety

  /** The effect writes to the descriptor, closes it or registers it. */
  predicate Touches(e: Effect, fd: int32) {
    match e
    case Wrote(f, _) => f == fd
    case Closed(f) => f == fd
    case Registered(_, _, f, _) => f == fd
    case _ => false
  }

  predicate IsReap(e: Effect, pid: int32) { e.Reaped? && e.pid == pid }

  /** Between positions `a` and `b` nothing happens to the launch registered at `k`. */
  ghost predicate Undisturbed(log: seq<Effect>, k: nat, a: nat, b: nat)
    requires k < |log| && log[k].Registered? && b <= |log|
  {
    forall x :: a <= x < b ==>
      !Touches(log[x], log[k].fd) && !IsReap(log[x], log[k].pid) &&
      !(log[x].Registered? && log[x].pid == log[k].pid)
  }

  function LaunchAt(log: seq<Effect>, k: nat): Launch
    requires k < |log| && log[k].Registered?
  {
    Launch(log[k].invokerPid, log[k].fd)
  }

  /** Within the first `n` effects, the launch registered at `k` is first disturbed at `j`, where
      its application is reaped; from there on its outcome follows without a gap. */
  ghost predicate SettledAt(log: seq<Effect>, n: nat, k: nat, j: nat) {
    k < j < n <= |log| && log[k].Registered? && IsReap(log[j], log[k].pid) &&
    Undisturbed(log, k, k + 1, j) &&
    var o := Outcome(LaunchAt(log, k), log[j].status);
    forall x :: j < x < n && x <= j + |o| ==> log[x] == o[x - j - 1]
  }

  /** The outcome of `SettledAt` is complete after `n` effects. */
  ghost predicate OutcomeComplete(log: seq<Effect>, n: nat, k: nat, j: nat)
    requires SettledAt(log, n, k, j)
  {
    j + |Outcome(LaunchAt(log, k), log[j].status)| < n
  }

  /** What the monitor still owes after `n` effects is the rest of the outcome. */
  ghost predicate Owing(log: seq<Effect>, n: nat, k: nat, j: nat)
    requires SettledAt(log, n, k, j)
  {
    var o := Outcome(LaunchAt(log, k), log[j].status);
    n <= j + |o| && Verdict(log[..n]).Watching? && Verdict(log[..n]).owed == o[n - j - 1..]
  }

  ghost predicate StillPending(log: seq<Effect>, n: nat, k: nat) {
    k < n <= |log| && log[k].Registered? && Undisturbed(log, k, k + 1, n) &&
    var m := Verdict(log[..n]);
    m.Watching? && log[k].pid in m.pending && m.pending[log[k].pid] == LaunchAt(log, k)
  }

  // ---------------------------------------------------------------- the monitor's own invariant

  ghost predicate MonitorOk(m: Monitor) {
    m.Watching? ==>
      && (forall p, q :: p in m.pending && q in m.pending && p != q ==> m.pending[p].fd != m.pending[q].fd)
      && (forall i :: 0 <= i < |m.owed| ==> m.owed[i].Wrote? || m.owed[i].Closed? || m.owed[i].Killed?)
      && (forall i, p :: 0 <= i < |m.owed| && p in m.pending ==> !Touches(m.owed[i], m.pending[p].fd))
  }

  lemma PrefixVerdict(log: seq<Effect>, n: nat)
    requires n < |log|
    ensures Verdict(log[..n + 1]) == Watch(Verdict(log[..n]), log[n])
  {
    assert log[..n + 1] == log[..n] + [log[n]];
    WatchOne(log[..n], log[n]);
  }

  lemma WatchKeepsOk(m: Monitor, e: Effect)
    requires MonitorOk(m)
    ensures MonitorOk(Watch(m, e))
  {
    if m.Watching? && m.owed != [] {
      assert forall i :: 0 <= i < |m.owed[1..]| ==> m.owed[1..][i] == m.owed[i + 1];
    }
  }

  lemma {:induction false} VerdictOk(log: seq<Effect>, n: nat)
    requires n <= |log|
    ensures MonitorOk(Verdict(log[..n]))
  {
    if n > 0 {
      VerdictOk(log, n - 1);
      PrefixVerdict(log, n - 1);
      WatchKeepsOk(Verdict(log[..n - 1]), log[n - 1]);
    }
  }

  // ---------------------------------------------------------------- forwards from a registration

  lemma PendingStep(log: seq<Effect>, n: nat, k: nat)
    requires n < |log| && StillPending(log, n, k) && Verdict(log[..n + 1]).Watching?
    ensures StillPending(log, n + 1, k) ||
            (SettledAt(log, n + 1, k, n) && Owing(log, n + 1, k, n))
  {
    PrefixVerdict(log, n);
    VerdictOk(log, n);
    if IsReap(log[n], log[k].pid) {
      assert SettledAt(log, n + 1, k, n);
    }
  }

  lemma SettledStep(log: seq<Effect>, n: nat, k: nat, j: nat)
    requires n < |log| && SettledAt(log, n, k, j) && Verdict(log[..n + 1]).Watching?
    requires OutcomeComplete(log, n, k, j) || Owing(log, n, k, j)
    ensures SettledAt(log, n + 1, k, j) && (OutcomeComplete(log, n + 1, k, j) || Owing(log, n + 1, k, j))
  {
    PrefixVerdict(log, n);
  }

  lemma JustRegistered(log: seq<Effect>, k: nat)
    requires k < |log| && log[k].Registered? && Verdict(log[..k + 1]).Watching?
    ensures StillPending(log, k + 1, k)
  {
    PrefixVerdict(log, k);
    VerdictOk(log, k);
  }

  lemma {:induction false} RegisteredHistory(log: seq<Effect>, n: nat, k: nat)
    requires k < n <= |log| && log[k].Registered? && Verdict(log[..n]).Watching?
    ensures StillPending(log, n, k) ||
            exists j: nat :: SettledAt(log, n, k, j) && (OutcomeComplete(log, n, k, j) || Owing(log, n, k, j))
    decreases n
  {
    PrefixVerdict(log, n - 1);
    if n - 1 == k {
      JustRegistered(log, k);
    } else {
      RegisteredHistory(log, n - 1, k);
      if StillPending(log, n - 1, k) {
        PendingStep(log, n - 1, k);
      } else {
        var j: nat :| SettledAt(log, n - 1, k, j) && (OutcomeComplete(log, n - 1, k, j) || Owing(log, n - 1, k, j));
        SettledStep(log, n - 1, k, j);
      }
    }
  }

  // ---------------------------------------------------------------- backwards to a registration

  lemma {:induction false} PendingHasLaunch(log: seq<Effect>, n: nat, p: int32)
    requires n <= |log| && Verdict(log[..n]).Watching? && p in Verdict(log[..n]).pending
    ensures exists k: nat :: StillPending(log, n, k) && log[k].pid == p
    decreases n
  {
    if n > 0 {
      PrefixVerdict(log, n - 1);
      VerdictOk(log, n - 1);
      if log[n - 1].Registered? && log[n - 1].pid == p {
        assert StillPending(log, n, n - 1);
      } else {
        PendingHasLaunch(log, n - 1, p);
        var k: nat :| StillPending(log, n - 1, k) && log[k].pid == p;
        PendingStep(log, n - 1, k);
      }
    }
  }

  /** Something begins to be owed only by reaping the application of a pending launch. */
  lemma OwedBegins(log: seq<Effect>, n: nat) returns (k: nat)
    requires n < |log| && Verdict(log[..n]).Watching? && Verdict(log[..n]).owed == []
    requires Verdict(log[..n + 1]).Watching? && Verdict(log[..n + 1]).owed != []
    ensures SettledAt(log, n + 1, k, n) && Owing(log, n + 1, k, n)
  {
    PrefixVerdict(log, n);
    PendingHasLaunch(log, n, log[n].pid);
    k :| StillPending(log, n, k) && log[k].pid == log[n].pid;
    PendingStep(log, n, k);
  }

  lemma WatchingBefore(log: seq<Effect>, n: nat)
    requires n < |log| && Verdict(log[..n + 1]).Watching?
    ensures Verdict(log[..n]).Watching?
  {
    PrefixVerdict(log, n);
  }

  /** While something is owed, an effect keeps it settled, and pays it unless it ends it. */
  lemma OwedGoesOn(log: seq<Effect>, n: nat, k: nat, j: nat)
    requires n < |log| && SettledAt(log, n, k, j) && Owing(log, n, k, j)
    requires Verdict(log[..n + 1]).Watching? && Verdict(log[..n + 1]).owed != []
    ensures SettledAt(log, n + 1, k, j) && Owing(log, n + 1, k, j)
  {
    SettledStep(log, n, k, j);
    PrefixVerdict(log, n);
  }

  lemma {:induction false} OwedHasLaunch(log: seq<Effect>, n: nat) returns (k: nat, j: nat)
    requires n <= |log| && Verdict(log[..n]).Watching? && Verdict(log[..n]).owed != []
    ensures SettledAt(log, n, k, j) && Owing(log, n, k, j)
    decreases n
  {
    hide SettledAt, Owing, Watch;
    WatchingBefore(log, n - 1);
    if Verdict(log[..n - 1]).owed == [] {
      j := n - 1;
      k := OwedBegins(log, j);
    } else {
      k, j := OwedHasLaunch(log, n - 1);
      OwedGoesOn(log, n - 1, k, j);
    }
  }

  lemma {:induction false} WatchingThroughout(log: seq<Effect>, n: nat)
    requires n <= |log| && Verdict(log).Watching?
    ensures Verdict(log[..n]).Watching?
    decreases |log| - n
  {
    if n < |log| {
      WatchingThroughout(log, n + 1);
      PrefixVerdict(log, n);
    } else {
      assert log[..n] == log;
    }
  }

  lemma {:induction false} SettledToEnd(log: seq<Effect>, n: nat, k: nat, j: nat)
    requires Verdict(log).Watching? && SettledAt(log, n, k, j)
    requires OutcomeComplete(log, n, k, j) || Owing(log, n, k, j)
    ensures SettledAt(log, |log|, k, j)
    decreases |log| - n
  {
    if n < |log| {
      WatchingThroughout(log, n + 1);
      SettledStep(log, n, k, j);
      SettledToEnd(log, n + 1, k, j);
    }
  }

  // ---------------------------------------------------------------- the theorems

  /** Every launch ever registered is either untouched and still mapped, or has been settled
      exactly once: nothing happened to it or its descriptor until its application was reaped,
      and right after that came its whole outcome. */
  lemma OneOutcome(bootMode: bool, open: set<int32>, forks: seq<int32>, es: seq<Event>, k: nat)
    requires var log := Run(Start(bootMode, open, forks), es).k.log; k < |log| && log[k].Registered?
    ensures var s := Run(Start(bootMode, open, forks), es);
            var log, p := s.k.log, s.k.log[k].pid;
            || (Undisturbed(log, k, k + 1, |log|) && p in s.d.toPid && p in s.d.toFd &&
                s.d.toPid[p] == log[k].invokerPid && s.d.toFd[p] == log[k].fd)
            || exists j: nat :: SettledAt(log, |log|, k, j) && OutcomeComplete(log, |log|, k, j)
  {
    SupervisorInvariant(bootMode, open, forks, es);
    var s := Run(Start(bootMode, open, forks), es);
    var log := s.k.log;
    assert log[..|log|] == log;
    RegisteredHistory(log, |log|, k);
  }

  predicate ReachesOut(e: Effect) { e.Wrote? || e.Closed? || e.Killed? }

  /** Of the first `n` effects, the last fork is that of `pid`. */
  ghost predicate ForkedLast(log: seq<Effect>, n: nat, pid: int32) {
    n <= |log| && exists f: nat :: f < n && log[f].Forked? && log[f].pid == pid &&
                                   forall y :: f < y < n ==> !log[y].Forked?
  }

  /** Only a fork changes whom the monitor takes for the booster. */
  lemma BoosterStep(log: seq<Effect>, n: nat)
    requires n < |log| && Verdict(log[..n + 1]).Watching?
    ensures Verdict(log[..n]).Watching?
    ensures Verdict(log[..n + 1]).booster == if log[n].Forked? then log[n].pid else Verdict(log[..n]).booster
  {
    PrefixVerdict(log, n);
    VerdictOk(log, n);
  }

  lemma ForkedLastKeeps(log: seq<Effect>, n: nat, pid: int32)
    requires n < |log| && !log[n].Forked? && ForkedLast(log, n, pid)
    ensures ForkedLast(log, n + 1, pid)
  {
    var f: nat :| f < n && log[f].Forked? && log[f].pid == pid && forall y :: f < y < n ==> !log[y].Forked?;
    assert forall y :: f < y < n + 1 ==> !log[y].Forked?;
  }

  lemma {:induction false} BoosterForkedLast(log: seq<Effect>, n: nat)
    requires n <= |log| && Verdict(log[..n]).Watching?
    ensures Verdict(log[..n]).booster > 0 ==> ForkedLast(log, n, Verdict(log[..n]).booster)
    decreases n
  {
    if n > 0 {
      BoosterStep(log, n - 1);
      BoosterForkedLast(log, n - 1);
      if log[n - 1].Forked? {
        assert ForkedLast(log, n, log[n - 1].pid);
      } else if Verdict(log[..n]).booster > 0 {
        ForkedLastKeeps(log, n - 1, Verdict(log[..n]).booster);
      }
    }
  }

  /** The effect at `x` belongs to the outcome of a registered launch. */
  ghost predicate InOutcome(log: seq<Effect>, x: nat) {
    exists k: nat, j: nat ::
      SettledAt(log, |log|, k, j) && j < x <= j + |Outcome(LaunchAt(log, k), log[j].status)|
  }

  /** Conversely, every write, every close and every signal is a part of the outcome of a registered
      launch, but for a SIGTERM to the booster forked last; `SupervisorAttribution.TermHits` says when
      that one has become an application already. */
  lemma NoStrayEffect(bootMode: bool, open: set<int32>, forks: seq<int32>, es: seq<Event>, x: nat)
    requires x < |Run(Start(bootMode, open, forks), es).k.log|
    requires ReachesOut(Run(Start(bootMode, open, forks), es).k.log[x])
    ensures var log := Run(Start(bootMode, open, forks), es).k.log;
            InOutcome(log, x) ||
            (log[x].Killed? && log[x].sig == SIGTERM && ForkedLast(log, x, log[x].pid))
  {
    SupervisorInvariant(bootMode, open, forks, es);
    var log := Run(Start(bootMode, open, forks), es).k.log;
    WatchingThroughout(log, x);
    WatchingThroughout(log, x + 1);
    PrefixVerdict(log, x);
    if Verdict(log[..x]).owed == [] {
      BoosterForkedLast(log, x);
    } else {
      var k, j := OwedHasLaunch(log, x);
      SettledToEnd(log, x, k, j);
    }
  }

  lemma OutcomeSignal(log: seq<Effect>, k: nat, j: nat, x: nat)
    requires SettledAt(log, |log|, k, j) && j < x < |log| && log[x].Killed?
    requires x <= j + |Outcome(LaunchAt(log, k), log[j].status)|
    ensures log[k].invokerPid == log[x].pid && log[j].status == Signaled(log[x].sig) && x == j + 2
  {
    var o := Outcome(LaunchAt(log, k), log[j].status);
    assert log[x] == o[x - j - 1];
  }

  /** So a process that is not the booster forked last gets a signal only because an application that
      it had invoked was killed by that signal: a normal exit kills nobody. */
  lemma SignalsAreOwed(bootMode: bool, open: set<int32>, forks: seq<int32>, es: seq<Event>, x: nat)
    requires x < |Run(Start(bootMode, open, forks), es).k.log|
    requires Run(Start(bootMode, open, forks), es).k.log[x].Killed?
    ensures var log := Run(Start(bootMode, open, forks), es).k.log;
            var (p, sig) := (log[x].pid, log[x].sig);
            || (sig == SIGTERM && ForkedLast(log, x, p))
            || exists k: nat, j: nat ::
                 SettledAt(log, |log|, k, j) && log[k].invokerPid == p && log[j].status == Signaled(sig) && x == j + 2
  {
    NoStrayEffect(bootMode, open, forks, es, x);
    var log := Run(Start(bootMode, open, forks), es).k.log;
    if InOutcome(log, x) {
      var k: nat, j: nat :|
        SettledAt(log, |log|, k, j) && j < x <= j + |Outcome(LaunchAt(log, k), log[j].status)|;
      OutcomeSignal(log, k, j, x);
    }
  }

  /** The launch at `k` was registered on this descriptor, which was never closed since. */
  ghost predicate HeldSince(log: seq<Effect>, k: nat, fd: int32) {
    k < |log| && log[k].Registered? && log[k].fd == fd && forall x :: k < x < |log| ==> log[x] != Closed(fd)
  }

  lemma SettledCloses(log: seq<Effect>, k: nat, j: nat)
    requires SettledAt(log, |log|, k, j) && OutcomeComplete(log, |log|, k, j)
    ensures !HeldSince(log, k, log[k].fd)
  {
    var o := Outcome(LaunchAt(log, k), log[j].status);
    var c := if log[j].status.Exited? then 2 else 0;
    assert o[c] == Closed(log[k].fd);
    assert log[j + 1 + c] == o[c];
  }

  lemma HeldIsPending(log: seq<Effect>, k: nat, fd: int32)
    requires Verdict(log).Watching? && Verdict(log).owed == [] && HeldSince(log, k, fd)
    ensures log[k].pid in Verdict(log).pending && Verdict(log).pending[log[k].pid].fd == fd
  {
    assert log[..|log|] == log;
    RegisteredHistory(log, |log|, k);
    if !StillPending(log, |log|, k) {
      var j: nat :| SettledAt(log, |log|, k, j) && (OutcomeComplete(log, |log|, k, j) || Owing(log, |log|, k, j));
      SettledCloses(log, k, j);
    }
  }

  /** The invoker descriptors that were registered and not closed since are exactly the values of
      the descriptor map. */
  lemma DescriptorsConserved(bootMode: bool, open: set<int32>, forks: seq<int32>, es: seq<Event>, fd: int32)
    ensures var s := Run(Start(bootMode, open, forks), es);
            (exists k: nat :: HeldSince(s.k.log, k, fd)) <==> (exists p :: p in s.d.toFd && s.d.toFd[p] == fd)
  {
    SupervisorInvariant(bootMode, open, forks, es);
    var s := Run(Start(bootMode, open, forks), es);
    var log := s.k.log;
    if k: nat :| HeldSince(log, k, fd) {
      HeldIsPending(log, k, fd);
      assert s.d.toFd[log[k].pid] == fd;
    }
    if p :| p in s.d.toFd && s.d.toFd[p] == fd {
      assert log[..|log|] == log;
      PendingHasLaunch(log, |log|, p);
      var k: nat :| StillPending(log, |log|, k) && log[k].pid == p;
      assert HeldSince(log, k, fd);
    }
  }

  /** A child forked at `x` closes every invoker descriptor that is held then, that of a launch
      registered just before the fork included. */
  lemma ChildInheritsNone(bootMode: bool, open: set<int32>, forks: seq<int32>, es: seq<Event>,
                          x: nat, k: nat, fd: int32)
    requires x < |Run(Start(bootMode, open, forks), es).k.log|
    requires Run(Start(bootMode, open, forks), es).k.log[x].Forked?
    requires HeldSince(Run(Start(bootMode, open, forks), es).k.log[..x], k, fd)
    ensures fd !in Run(Start(bootMode, open, forks), es).k.log[x].kept
  {
    SupervisorInvariant(bootMode, open, forks, es);
    var log := Run(Start(bootMode, open, forks), es).k.log;
    WatchingThroughout(log, x);
    WatchingThroughout(log, x + 1);
    PrefixVerdict(log, x);
    VerdictOk(log, x);
    HeldIsPending(log[..x], k, fd);
  }

  /** And it closes nothing else: in every run, what a child forked next would leave open is what is
      open and not such a descriptor. */
  lemma ChildKeepsRest(bootMode: bool, open: set<int32>, forks: seq<int32>, es: seq<Event>, fd: int32)
    requires Run(Start(bootMode, open, forks), es).d.up
    ensures var s := Run(Start(bootMode, open, forks), es);
            fd in LeftOpen(s.k.open, s.d.toFd) <==> fd in s.k.open && !(exists k: nat :: HeldSince(s.k.log, k, fd))
  {
    hide HeldSince;
    SupervisorInvariant(bootMode, open, forks, es);
    DescriptorsConserved(bootMode, open, forks, es, fd);
    var s := Run(Start(bootMode, open, forks), es);
    assert fd in LeftOpen(s.k.open, s.d.toFd) <==> fd in s.k.open && !(exists p :: p in s.d.toFd && s.d.toFd[p] == fd);
  }

  /** waitpid never fails, in any run. */
  lemma WaitNeverFails(bootMode: bool, open: set<int32>, forks: seq<int32>, es: seq<Event>)
    ensures var log := Run(Start(bootMode, open, forks), es).k.log;
            forall x :: 0 <= x < |log| ==> !log[x].WaitFailed?
  {
    SupervisorInvariant(bootMode, open, forks, es);
    var log := Run(Start(bootMode, open, forks), es).k.log;
    forall x | 0 <= x < |log|
      ensures !log[x].WaitFailed?
    {
      WatchingThroughout(log, x);
      WatchingThroughout(log, x + 1);
      PrefixVerdict(log, x);
      VerdictOk(log, x);
    }
  }
}
