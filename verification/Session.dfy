/** A whole session: invoker, booster and daemon on one connection. */
module Session {
  import opened Basics
  import opened Protocol
  import opened Requests
  import opened Connections
  import opened BoosterLoop
  import opened WireTheorems
  import opened BoosterTheorems
  import opened InvokerSession
  import Supervisor
  import SupervisorSafety
  import SupervisorAttribution
  import opened SupervisorHistory

  type Effect = Supervisor.Effect

  // ---------------------------------------------------------------- what the daemon writes

  /** The words written to a descriptor until it is closed. */
  function Written(es: seq<Effect>, fd: int32): seq<word> {
    if es == [] || es[0] == Supervisor.Closed(fd) then []
    else (if es[0].Wrote? && es[0].fd == fd then [es[0].value] else []) + Written(es[1..], fd)
  }

  lemma {:induction false} NothingWritten(es: seq<Effect>, n: nat, fd: int32)
    requires n <= |es| && forall x :: 0 <= x < n ==> !Touches(es[x], fd)
    ensures Written(es, fd) == Written(es[n..], fd)
    decreases n
  {
    if n > 0 {
      NothingWritten(es[1..], n - 1, fd);
      assert es[1..][n - 1..] == es[n..];
    } else {
      assert es[0..] == es;
    }
  }

  /** The words an outcome puts on the connection. */
  function Reply(st: Supervisor.Status): seq<word> {
    if st.Exited? then [MSG_EXIT, st.code] else []
  }

  lemma OutcomeWritten(es: seq<Effect>, l: SupervisorSafety.Launch, st: Supervisor.Status)
    requires SupervisorSafety.Outcome(l, st) <= es
    ensures Written(es, l.fd) == Reply(st)
  {
    var o := SupervisorSafety.Outcome(l, st);
    assert forall x :: 0 <= x < |o| ==> es[x] == o[x];
    if st.Exited? {
      assert es[1..][1..] == es[2..];
      assert Written(es[2..], l.fd) == [];
      assert Written(es[1..], l.fd) == [st.code as int];
    }
  }

  /** The history of a daemon after any run. */
  function LogOf(bootMode: bool, open: set<int32>, forks: seq<int32>, es: seq<Supervisor.Event>): seq<Effect> {
    Supervisor.Run(Supervisor.Start(bootMode, open, forks), es).k.log
  }

  /** Nothing is on the connection of a launch as long as its application runs, and afterwards the
      exit message, if it exited, and nothing otherwise. */
  ghost predicate RepliesOnce(log: seq<Effect>, k: nat)
    requires k < |log| && log[k].Registered?
  {
    var ws := Written(log[k + 1..], log[k].fd);
    || (Undisturbed(log, k, k + 1, |log|) && ws == [])
    || exists j: nat ::
         && SettledAt(log, |log|, k, j) && OutcomeComplete(log, |log|, k, j)
         && ws == Reply(log[j].status)
  }

  lemma SettledReply(log: seq<Effect>, k: nat, j: nat)
    requires SettledAt(log, |log|, k, j) && OutcomeComplete(log, |log|, k, j)
    ensures Written(log[k + 1..], log[k].fd) == Reply(log[j].status)
  {
    hide Written, Reply;
    var fd := log[k].fd;
    var es := log[k + 1..];
    var n := j - k - 1;
    assert forall x :: 0 <= x < n ==> es[x] == log[k + 1 + x];
    NothingWritten(es, n, fd);
    assert es[n..] == log[j..];
    NothingWritten(log[j..], 1, fd);
    assert log[j..][1..] == log[j + 1..];
    var l := LaunchAt(log, k);
    var o := SupervisorSafety.Outcome(l, log[j].status);
    assert forall x :: 0 <= x < |o| ==> log[j + 1..][x] == log[j + 1 + x] == o[x];
    OutcomeWritten(log[j + 1..], l, log[j].status);
  }

  lemma DaemonReplies(bootMode: bool, open: set<int32>, forks: seq<int32>, es: seq<Supervisor.Event>, k: nat)
    requires k < |LogOf(bootMode, open, forks, es)| && LogOf(bootMode, open, forks, es)[k].Registered?
    ensures RepliesOnce(LogOf(bootMode, open, forks, es), k)
  {
    var log := LogOf(bootMode, open, forks, es);
    OneOutcome(bootMode, open, forks, es, k);
    if Undisturbed(log, k, k + 1, |log|) {
      var rest := log[k + 1..];
      assert forall x :: 0 <= x < |rest| ==> rest[x] == log[k + 1 + x];
      NothingWritten(rest, |rest|, log[k].fd);
      assert rest[|rest|..] == [];
    } else {
      var j: nat :| SettledAt(log, |log|, k, j) &&
                    OutcomeComplete(log, |log|, k, j);
      SettledReply(log, k, j);
    }
  }

  // ---------------------------------------------------------------- agreement

  /** The request of an invoker with these options. */
  ghost predicate Invokes(r: Request, opts: seq<Opt>) { Encodable(r) && r.options == Magic(opts) }

  lemma BoosterAnswer(r: Request, opts: seq<Opt>, pid: word)
    requires Invokes(r, opts) && Acceptable(r)
    ensures var x, wait := Alone(Encode(r), pid), !Has(opts, 'n');
            && x.ok && x.conn.sendPid == wait && x.app.delay == r.delay
            && x.conn.sent == if wait then [MSG_ACK, MSG_PID, pid] else [MSG_ACK]
  {
    RequestAlone(r, pid);
    AnswerOnAnyStream(Encode(r), [], BLANK, pid);
    WaitBitAgrees(opts);
  }

  /** Every option of the invoker has its own bit in what the booster has received. */
  lemma OptionsArrive(r: Request, opts: seq<Opt>, pid: word)
    requires Invokes(r, opts) && Acceptable(r)
    ensures var a := Alone(Encode(r), pid).app;
            && a.options < 0x40 && (SingleInstance(a) <==> Has(opts, 's'))
            && (a.options % 2 == 1 <==> !Has(opts, 'n')) && (a.options / 2 % 2 == 1 <==> Has(opts, 'G'))
            && (a.options / 4 % 2 == 1 <==> Has(opts, 'D')) && (a.options / 0x20 % 2 == 1 <==> Has(opts, 'o'))
  {
    RequestAlone(r, pid);
    WaitBitAgrees(opts);
  }

  lemma RefusedExactly(r: Request, opts: seq<Opt>, call: Incoming, x: Reception, plugin: bool, pid: word)
    requires Invokes(r, opts) && Acceptable(r) && call.stream == Encode(r) && IsAlone(call, x, pid)
    ensures IsRefused(call, x, plugin) <==> call.accepted && Has(opts, 's') && plugin && !call.locked
    ensures IsLaunched(call, x, plugin) <==> call.accepted && !(Has(opts, 's') && plugin && !call.locked)
  {
    hide Alone, Acceptable;
    OptionsArrive(r, opts, pid);
    BoosterAnswer(r, opts, pid);
  }

  /** Exactly when a booster refuses a request: -s was given, the plugin is loaded and its lock fails.
      Otherwise it launches the application, and tells its parent once. */
  lemma SingleInstanceSession(r: Request, opts: seq<Opt>, call: Incoming, plugin: bool, pid: word, p: Progress)
    requires Invokes(r, opts) && Acceptable(r) && call.accepted && call.stream == Encode(r) && p.end.Waiting?
    ensures var q := ServeOne(call, plugin, pid, p);
            if Has(opts, 's') && plugin && !call.locked
            then q.end.Waiting? && |q.served| == |p.served| + 1 && q.toParent == p.toParent
            else q.end.Launched? && q.served == p.served && |q.toParent| == |p.toParent| + 1
  {
    hide Alone, Acceptable, ServeOne;
    var x := Alone(call.stream, pid);
    RefusedExactly(r, opts, call, x, plugin, pid);
    if IsRefused(call, x, plugin) {
      var _ := RefusedTurn(call, x, plugin, pid, p);
    } else {
      var _ := LastTurn(call, x, plugin, pid, p);
    }
  }

  /** A request that exceeds the limits ends the booster; the invoker reads nothing at all, and dies
      whether it waits or not. */
  lemma RejectedSession(r: Request, call: Incoming, plugin: bool, pid: word, p: Progress, wait: bool)
    requires Encodable(r) && !Acceptable(r) && !Overlooked(r)
    requires call.accepted && call.stream == Encode(r) && p.end.Waiting?
    ensures var q := ServeOne(call, plugin, pid, p);
            && q.end.Threw? && q.toParent == p.toParent && q.served == p.served
            && q.conn.Some? && !q.conn.value.open && q.conn.value.sent == []
            && Understood(q.conn.value.sent, wait) == Died
  {
    hide ReceiveApplicationData, Encode;
    AcceptIff(r, p.env, p.app, pid);
    AnswerOnAnyStream(Encode(r), p.env, p.app, pid);
  }

  /** An invoker whose request is refused as a second instance never sees a wrong word; if it
      waits it returns whether the running instance was activated. */
  lemma RefusedSession(r: Request, opts: seq<Opt>, pid: word, call: Incoming, x: Reception, c: Conn)
    requires Invokes(r, opts) && Acceptable(r) && pid != 0
    requires call.stream == Encode(r) && IsAlone(call, x, pid) && Answered(c, call, x, pid)
    ensures Understood(c.sent, !Has(opts, 'n'))
         == Returned(if Has(opts, 'n') || call.activated then EXIT_SUCCESS else EXIT_FAILURE)
  {
    hide Alone, Acceptable;
    BoosterAnswer(r, opts, pid);
  }

  /** A run of the daemon. */
  datatype DaemonRun = DaemonRun(bootMode: bool, open: set<int32>, forks: seq<int32>, es: seq<Supervisor.Event>)

  function StateOf(d: DaemonRun): Supervisor.State {
    Supervisor.Run(Supervisor.Start(d.bootMode, d.open, d.forks), d.es)
  }

  /** What a booster has been through, from its start. */
  datatype BoosterRun = BoosterRun(calls: seq<Incoming>, plugin: bool, env: seq<Text>, app: AppData)

  function ProgressOf(b: BoosterRun, pid: word): Progress {
    Serve(b.calls, b.plugin, pid, Fresh(b.env, b.app))
  }

  /** The booster launched this request, the last one it received. */
  ghost predicate LaunchedFor(b: BoosterRun, pid: word, r: Request)
    requires Encodable(r)
  {
    var q := ProgressOf(b, pid);
    q.end.Launched? && |q.served| < |b.calls| && b.calls[|q.served|].stream == Encode(r)
  }

  /** The daemon booked the one message of this booster at position `k` of its history. */
  ghost predicate Books(d: DaemonRun, k: nat, b: BoosterRun, pid: int32)
    requires pid > 0
  {
    var (log, q) := (StateOf(d).k.log, ProgressOf(b, pid));
    && k < |log| && log[k].Registered? && log[k].sender == pid
    && |q.toParent| == 1 && log[k].invokerPid == q.toParent[0].invokerPid
  }

  lemma LaunchAnswer(r: Request, opts: seq<Opt>, b: BoosterRun, pid: word) returns (x: Reception)
    requires Invokes(r, opts) && Acceptable(r) && LaunchedFor(b, pid, r)
    ensures var (q, wait) := (ProgressOf(b, pid), !Has(opts, 'n'));
            var call := b.calls[|q.served|];
            && q.conn.Some? && q.conn.value.sent == (if wait then [MSG_ACK, MSG_PID, pid] else [MSG_ACK])
            && |q.toParent| == 1 && q.toParent[0].withFd == wait && q.toParent[0].delay == r.delay
            && q.toParent[0].invokerPid == if wait then call.peer else 0
  {
    x := LaunchOf(b.calls, b.plugin, pid, b.env, b.app);
    BoosterAnswer(r, opts, pid);
  }

  /** The respawn delay that the invoker asks for is the one that the daemon is told. */
  lemma DelayArrives(r: Request, opts: seq<Opt>, b: BoosterRun, pid: word)
    requires Invokes(r, opts) && Acceptable(r) && LaunchedFor(b, pid, r)
    ensures var q := ProgressOf(b, pid); |q.toParent| == 1 && q.toParent[0].delay == r.delay
  {
    var _ := LaunchAnswer(r, opts, b, pid);
  }

  /** An invoker that does not wait reads the acknowledgement alone and returns 0; its connection is
      not passed on, and no invoker is named. */
  lemma NoWaitSession(r: Request, opts: seq<Opt>, b: BoosterRun, pid: word)
    requires Invokes(r, opts) && Acceptable(r) && LaunchedFor(b, pid, r) && Has(opts, 'n')
    ensures var q := ProgressOf(b, pid);
            && q.conn.Some? && q.conn.value.sent == [MSG_ACK] && Understood(q.conn.value.sent, false) == Returned(0)
            && |q.toParent| == 1 && q.toParent[0].invokerPid == 0 && !q.toParent[0].withFd
  {
    var _ := LaunchAnswer(r, opts, b, pid);
  }

  /** The application of the launch booked at `k` ended with `st`: it was reaped at `j`, and a signal
      that killed it was passed on to `invoker`. */
  ghost predicate ReapedFor(log: seq<Effect>, k: nat, j: nat, invoker: int32, st: Supervisor.Status)
    requires k < |log| && log[k].Registered?
  {
    && SettledAt(log, |log|, k, j) && log[j] == Supervisor.Reaped(log[k].pid, st)
    && (st.Signaled? ==> j + 2 < |log| && log[j + 2] == Supervisor.Killed(invoker, st.sig))
  }

  /** What an invoker that waits reads on its connection, and what it makes of it: the pid it is told
      and nothing more as long as the process on which its launch is booked has not been reaped, and
      then the exit message of that process, if it exited. */
  ghost predicate Concluded(words: seq<word>, log: seq<Effect>, k: nat, pid: word, invoker: int32)
    requires k < |log| && log[k].Registered?
  {
    var end := Understood(words, true);
    || (Undisturbed(log, k, k + 1, |log|) && words == [MSG_ACK, MSG_PID, pid] && end == Lost)
    || exists j: nat, st ::
         && ReapedFor(log, k, j, invoker, st) && words == [MSG_ACK, MSG_PID, pid] + Reply(st)
         && end == if st.Exited? then Returned(st.code) else Lost
  }

  lemma SettledReaps(log: seq<Effect>, k: nat, j: nat)
    requires SettledAt(log, |log|, k, j) && OutcomeComplete(log, |log|, k, j)
    ensures ReapedFor(log, k, j, log[k].invokerPid, log[j].status)
  {
    var o := SupervisorSafety.Outcome(LaunchAt(log, k), log[j].status);
    if log[j].status.Signaled? { assert log[j + 2] == o[1]; }
  }

  lemma AnswerUnderstood(sent: seq<word>, log: seq<Effect>, k: nat, pid: word)
    requires k < |log| && log[k].Registered? && RepliesOnce(log, k) && pid > 0
    requires sent == [MSG_ACK, MSG_PID, pid]
    ensures Concluded(sent + Written(log[k + 1..], log[k].fd), log, k, pid, log[k].invokerPid)
  {
    var ws := Written(log[k + 1..], log[k].fd);
    if !(Undisturbed(log, k, k + 1, |log|) && ws == []) {
      var j: nat :| SettledAt(log, |log|, k, j) &&
                    OutcomeComplete(log, |log|, k, j) && ws == Reply(log[j].status);
      SettledReaps(log, k, j);
      assert ReapedFor(log, k, j, log[k].invokerPid, log[j].status);
    }
  }

  /** No message had been orphaned when the step began that brought the effect at `k`. */
  ghost predicate InTime(d: DaemonRun, k: nat) {
    SupervisorAttribution.InTime(Supervisor.Start(d.bootMode, d.open, d.forks), d.es, k)
  }

  /** The whole way of a launch that is waited for, in every run of the daemon: the daemon books it for
      this invoker; until the process on which it is booked is reaped nothing follows the pid on the
      connection; then the invoker reads the exit message of that process and returns its code, or the
      process was killed by a signal, which is passed on to this invoker.  It never reads a wrong word.
      If no message had been orphaned when the launch was booked, whatever happens later, that process
      is the very one whose pid the invoker was told. */
  lemma WaitingSession(r: Request, opts: seq<Opt>, b: BoosterRun, pid: int32, d: DaemonRun, k: nat)
    requires Invokes(r, opts) && Acceptable(r) && !Has(opts, 'n') && pid > 0
    requires LaunchedFor(b, pid, r) && Books(d, k, b, pid)
    ensures var (log, q) := (StateOf(d).k.log, ProgressOf(b, pid));
            var invoker := b.calls[|q.served|].peer;
            && log[k].invokerPid == invoker && q.conn.Some?
            && Concluded(q.conn.value.sent + Written(log[k + 1..], log[k].fd), log, k, pid, invoker)
    ensures InTime(d, k) ==> StateOf(d).k.log[k].pid == pid
  {
    hide Serve, SupervisorAttribution.InTime;
    var _ := LaunchAnswer(r, opts, b, pid);
    DaemonReplies(d.bootMode, d.open, d.forks, d.es, k);
    var (log, q) := (StateOf(d).k.log, ProgressOf(b, pid));
    AnswerUnderstood(q.conn.value.sent, log, k, pid);
    if InTime(d, k) { SupervisorAttribution.PairedUntilOrphan(d.bootMode, d.open, d.forks, d.es, k); }
  }

  // ---------------------------------------------------------------- such a session does take place

  const SENT: Supervisor.Event := Supervisor.Env(Supervisor.Send(10, 100, 3, true))
  const READ: Supervisor.Event := Supervisor.Iterate([], None, [], [11], [7])

  lemma TwoSteps(s0: Supervisor.State, e1: Supervisor.Event, e2: Supervisor.Event)
    ensures var s1 := Supervisor.Step(s0, e1);
            && Supervisor.Run(s0, [e1, e2]) == Supervisor.Step(s1, e2)
            && SupervisorAttribution.After(s0, [e1, e2], 1) == s1
            && SupervisorAttribution.After(s0, [e1, e2], 2) == Supervisor.Step(s1, e2)
  {
    hide Supervisor.Step;
    assert [e1][1..] == [] && [e1, e2] == [e1] + [e2];
    SupervisorAttribution.RunOneMore(s0, [e1], e2);
    assert [e1, e2][..1] == [e1] && [e1, e2][..2] == [e1, e2];
    assert Supervisor.Run(s0, [e1]) == Supervisor.Run(Supervisor.Step(s0, e1), []);
  }

  lemma BookingSteps()
    ensures var s1 := Supervisor.Step(Supervisor.Start(false, {}, [10]), SENT);
            var s2 := Supervisor.Step(s1, READ);
            !s1.k.orphaned && |s2.k.log| == 3 && s2.k.log[1] == Supervisor.Registered(10, 100, 7, 10)
  {
    var s0 := Supervisor.Start(false, {}, [10]);
    var s1 := Supervisor.Step(s0, SENT);
    assert s1.k.queue == [Supervisor.Datagram(10, 100, 3, true)] && s1.k.open == {};
    assert |s1.k.log| == 1 && s1.d.boosterPid == 10;
    assert Supervisor.AfterSelect(s1.k, READ) == s1.k.(turns := [], forks := [11], fds := [7]);
    assert Supervisor.Step(s1, READ).k.log[1] == Supervisor.Registered(10, 100, 7, 10);
  }

  /** Booster 10 sends its message and the daemon books it. */
  lemma BookingRun()
    ensures var s := Supervisor.Run(Supervisor.Start(false, {}, [10]), [SENT, READ]);
            |s.k.log| == 3 && s.k.log[1] == Supervisor.Registered(10, 100, 7, 10)
    ensures SupervisorAttribution.InTime(Supervisor.Start(false, {}, [10]), [SENT, READ], 1)
  {
    hide Supervisor.Step, Supervisor.Start;
    BookingSteps();
    TwoSteps(Supervisor.Start(false, {}, [10]), SENT, READ);
  }

  /** A booster that launches the first request it gets. */
  function FirstCall(stream: seq<Item>, peer: int32): BoosterRun {
    BoosterRun([Incoming(true, stream, peer, true, false)], false, [], BLANK)
  }

  lemma FirstLaunch(stream: seq<Item>, x: Reception, pid: word, peer: int32)
    requires x == Alone(stream, pid) && x.ok && x.conn.sendPid
    ensures var q := ProgressOf(FirstCall(stream, peer), pid);
            q.end.Launched? && q.served == [] && |q.toParent| == 1 && q.toParent[0].invokerPid == peer
  {
    hide Alone, Serve;
    OneLaunch(FirstCall(stream, peer).calls[0], x, pid);
  }

  lemma FirstRequestLaunched(r: Request, pid: word, peer: int32)
    requires Encodable(r) && Acceptable(r) && r.options == OPTION_WAIT
    ensures LaunchedFor(FirstCall(Encode(r), peer), pid, r)
    ensures var q := ProgressOf(FirstCall(Encode(r), peer), pid); |q.toParent| == 1 && q.toParent[0].invokerPid == peer
  {
    hide Alone, Serve, Acceptable, LaunchData, HasEnvRecord, PutVariables, Encode, AllCStrings;
    RequestAlone(r, pid);
    FirstLaunch(Encode(r), Alone(Encode(r), pid), pid, peer);
  }

  lemma SmallRequest() returns (r: Request)
    ensures Invokes(r, []) && Acceptable(r) && r.options == OPTION_WAIT
  {
    r := Request(OPTION_WAIT, [[97]], [], 0, 3, 0, 0, 0, [0, 1, 2], []);
  }

  /** What `WaitingSession` asks for can be met. */
  lemma WaitedLaunch() returns (r: Request, b: BoosterRun, d: DaemonRun, k: nat)
    ensures Invokes(r, []) && Acceptable(r) && !Has([], 'n')
    ensures LaunchedFor(b, 10, r) && Books(d, k, b, 10) && InTime(d, k)
  {
    hide Serve, Acceptable, Supervisor.Run, Supervisor.Start, SupervisorAttribution.InTime;
    r := SmallRequest();
    d, k := DaemonRun(false, {}, [10], [SENT, READ]), 1;
    b := FirstCall(Encode(r), 100);
    FirstRequestLaunched(r, 10, 100);
    BookingRun();
  }
}
