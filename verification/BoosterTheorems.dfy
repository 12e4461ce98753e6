/** What the invokers, the parent and the launched application get out of the request loop. */
module BoosterTheorems {
  import opened Basics
  import opened Protocol
  import opened Requests
  import opened Connections
  import opened BoosterLoop
  import opened WireTheorems

  const BLANK: AppData := AppData(0, [], [], 0, [], 0, 0, [], 0, 0)

  /** A stream decoded on its own, as the first request of a booster with an empty environment. */
  function Alone(stream: seq<Item>, pid: word): Reception {
    ReceiveApplicationData(Accepted(stream, []), BLANK, pid)
  }

  // ---------------------------------------------------------------- one reception

  /** The action loop reaches an environment record. */
  ghost predicate SetsEnv(c: Conn)
    decreases |c.rest|
  {
    var (action, rest) := ReadWord(c.rest);
    var c1 := c.(rest := rest);
    action == MSG_ENV ||
    (action != MSG_END && Receive(c1, action).Some? &&
     (ReceiveShrinks(c1, action); SetsEnv(Receive(c1, action).value)))
  }

  lemma RecordIgnoresEnv(c: Conn, e: seq<Text>, action: word)
    ensures action == MSG_ENV ==> Receive(c.(env := e), action) == Receive(c, action)
    ensures action != MSG_ENV ==>
              Receive(c.(env := e), action)
              == match Receive(c, action) case None => None case Some(d) => Some(d.(env := e))
  {
  }

  lemma {:induction false} ActionsIgnoreEnv(c: Conn, e: seq<Text>, pid: word)
    ensures var (x, okX) := ReceiveActions(c, pid);
            var (y, okY) := ReceiveActions(c.(env := e), pid);
            okX == okY && y == x.(env := y.env) && (SetsEnv(c) ==> y.env == x.env)
    decreases |c.rest|
  {
    var (action, rest) := ReadWord(c.rest);
    var c1 := c.(rest := rest);
    RecordIgnoresEnv(c1, e, action);
    assert c1.(env := e) == c.(env := e).(rest := rest);
    if action != MSG_END && action != MSG_ENV && Receive(c1, action).Some? {
      ReceiveShrinks(c1, action);
      ActionsIgnoreEnv(Receive(c1, action).value, e, pid);
    }
  }

  /** The stream has an environment record among its actions. */
  ghost predicate HasEnvRecord(stream: seq<Item>) {
    SetsEnv(ReceiveAppName(ReceiveMagic(Accepted(stream, [])).0).0)
  }

  lemma HeadIgnoresEnv(stream: seq<Item>, env: seq<Text>)
    ensures var (c, options) := ReceiveMagic(Accepted(stream, []));
            var (d, name) := ReceiveAppName(c);
            ReceiveMagic(Accepted(stream, env)) == (c.(env := env), options) &&
            ReceiveAppName(c.(env := env)) == (d.(env := env), name)
  {
  }

  lemma FilledAnew(c: Conn, e: seq<Text>, a: AppData, b: AppData)
    requires a.options == b.options && a.appName == b.appName
    ensures Filled(a, c.(env := e)) == Filled(b, c)
  {
  }

  lemma ReceivedAlone(y: (Conn, bool), x: (Conn, bool), a: AppData, b: AppData)
    requires a.options == b.options && a.appName == b.appName
    requires x.1 == y.1 && x.0 == y.0.(env := x.0.env)
    ensures var (p, q) := (Connections.Received(x, a), Connections.Received(y, b));
            p.ok == q.ok && p.conn == x.0 && q.conn == y.0 && (p.ok ==> p.app == q.app)
  {
    FilledAnew(y.0, x.0.env, a, b);
  }

  /** What is received does not depend on what was received before, apart from the environment,
      and with an environment record not even that. */
  lemma ReceptionAlone(stream: seq<Item>, env: seq<Text>, a: AppData, pid: word)
    ensures var x, y := ReceiveApplicationData(Accepted(stream, env), a, pid), Alone(stream, pid);
            && x.ok == y.ok && x.conn == y.conn.(env := x.conn.env)
            && (x.ok ==> x.app == y.app)
            && (x.ok && HasEnvRecord(stream) ==> x.conn.env == y.conn.env)
  {
    var (c, options) := ReceiveMagic(Accepted(stream, []));
    var (d, name) := ReceiveAppName(c);
    HeadIgnoresEnv(stream, env);
    ActionsIgnoreEnv(d, env, pid);
    ReceivedAlone(ReceiveActions(d, pid), ReceiveActions(d.(env := env), pid),
                  a.(options := options, appName := name), BLANK.(options := options, appName := name));
  }

  // ---------------------------------------------------------------- one turn

  // In what follows `x` is what the stream of a call decodes to on its own.

  ghost predicate IsAlone(call: Incoming, x: Reception, pid: word) { x == Alone(call.stream, pid) }

  /** The invoker asked for a single instance, one is running, and the plugin can tell. */
  predicate IsRefused(call: Incoming, x: Reception, plugin: bool) {
    call.accepted && x.ok && SingleInstance(x.app) && plugin && !call.locked
  }

  predicate IsLaunched(call: Incoming, x: Reception, plugin: bool) {
    call.accepted && x.ok && !IsRefused(call, x, plugin)
  }

  /** Everything a refused invoker reads before its connection is closed: if it waits, the pid and
      exactly one exit value, zero if and only if the running instance was activated. */
  predicate Answered(c: Conn, call: Incoming, x: Reception, pid: word) {
    !c.open &&
    c.sent == if x.conn.sendPid then [MSG_ACK, MSG_PID, pid, MSG_EXIT, if call.activated then 0 else 1] else [MSG_ACK]
  }

  /** The answer of the booster to a request that it accepts. */
  function Answer(x: Reception, pid: word): seq<word> {
    if x.conn.sendPid then [MSG_ACK, MSG_PID, pid] else [MSG_ACK]
  }

  /** What the parent is told about a launch. */
  function Told(call: Incoming, x: Reception): Message {
    Message(if x.conn.sendPid then call.peer else 0, x.app.delay, x.conn.sendPid)
  }

  /** The connection, the environment and the data after a reception that succeeded. */
  ghost predicate HasReceived(q: Progress, stream: seq<Item>, x: Reception, pid: word) {
    && q.app == x.app && q.conn.Some?
    && q.conn.value.sendPid == q.conn.value.open == x.conn.sendPid
    && q.conn.value.sent == Answer(x, pid)
    && (HasEnvRecord(stream) ==> q.env == x.conn.env)
  }

  /** The connection was closed without an answer. */
  ghost predicate GivenUp(q: Progress) { q.conn.Some? && !q.conn.value.open && q.conn.value.sent == [] }

  lemma Received(call: Incoming, x: Reception, pid: word, p: Progress)
    requires call.accepted && IsAlone(call, x, pid)
    ensures var (q, ok) := ReceiveFrom(call, pid, p);
            && ok == x.ok && q == p.(conn := q.conn, env := q.env, app := q.app)
            && (ok ==> HasReceived(q, call.stream, x, pid))
            && (!ok ==> GivenUp(q))
  {
    ReceptionAlone(call.stream, p.env, p.app, pid);
    AnswerOnAnyStream(call.stream, p.env, p.app, pid);
  }

  /** `q` is `p` after refusing one more call. */
  ghost predicate OneMore(q: Progress, p: Progress, call: Incoming, x: Reception, pid: word) {
    && q.end.Waiting? && q.toParent == p.toParent && |q.served| == |p.served| + 1
    && q.served[..|p.served|] == p.served && Answered(q.served[|p.served|], call, x, pid)
  }

  lemma RefusedTurn(call: Incoming, x: Reception, plugin: bool, pid: word, p: Progress) returns (q: Progress)
    requires IsAlone(call, x, pid) && IsRefused(call, x, plugin) && p.end.Waiting?
    ensures q == ServeOne(call, plugin, pid, p) && OneMore(q, p, call, x, pid)
  {
    Received(call, x, pid, p);
    q := Decide(call, plugin, ReceiveFrom(call, pid, p).0);
  }

  ghost predicate IsLaunch(q: Progress, p: Progress, call: Incoming, x: Reception, pid: word) {
    && q.conn.Some? && !q.conn.value.open && q.conn.value.sent == Answer(x, pid)
    && q.end.Launched? && q.served == p.served && q.toParent == p.toParent + [Told(call, x)]
    && q.app == x.app && (HasEnvRecord(call.stream) ==> q.env == x.conn.env)
  }

  lemma LastTurn(call: Incoming, x: Reception, plugin: bool, pid: word, p: Progress) returns (q: Progress)
    requires IsAlone(call, x, pid) && !IsRefused(call, x, plugin) && p.end.Waiting?
    ensures q == ServeOne(call, plugin, pid, p)
    ensures if IsLaunched(call, x, plugin) then IsLaunch(q, p, call, x, pid)
            else q.end.Threw? && q.served == p.served && q.toParent == p.toParent && (call.accepted ==> GivenUp(q))
  {
    if call.accepted { Received(call, x, pid, p); }
    var (r, ok) := ReceiveFrom(call, pid, p);
    q := if ok then Decide(call, plugin, r) else r.(end := Threw);
  }

  // ---------------------------------------------------------------- the whole loop

  ghost predicate AllAlone(calls: seq<Incoming>, xs: seq<Reception>, pid: word) {
    |xs| == |calls| &&
    forall i {:trigger IsAlone(calls[i], xs[i], pid)} :: 0 <= i < |calls| ==> IsAlone(calls[i], xs[i], pid)
  }

  lemma ServeNext(calls: seq<Incoming>, i: nat, plugin: bool, pid: word, p: Progress)
    requires i < |calls| && p.end.Waiting?
    ensures Serve(calls[i..], plugin, pid, p) == Serve(calls[i + 1..], plugin, pid, ServeOne(calls[i], plugin, pid, p))
  {
    assert calls[i..][1..] == calls[i + 1..];
  }

  ghost predicate AllAnswered(served: seq<Conn>, calls: seq<Incoming>, xs: seq<Reception>, pid: word) {
    |served| <= |calls| == |xs| && forall i :: 0 <= i < |served| ==> Answered(served[i], calls[i], xs[i], pid)
  }

  lemma OneMoreAnswered(q: Progress, p: Progress, calls: seq<Incoming>, xs: seq<Reception>, pid: word)
    requires |p.served| < |calls| && AllAnswered(p.served, calls, xs, pid)
    requires OneMore(q, p, calls[|p.served|], xs[|p.served|], pid)
    ensures AllAnswered(q.served, calls, xs, pid)
  {
    forall i | 0 <= i < |q.served|
      ensures Answered(q.served[i], calls[i], xs[i], pid)
    {
      if i < |p.served| { assert q.served[i] == q.served[..|p.served|][i]; }
    }
  }

  /** The calls up to the `n`-th are refused one by one. */
  lemma {:induction false} RefuseUpTo(calls: seq<Incoming>, xs: seq<Reception>, n: nat, plugin: bool, pid: word,
                                      p: Progress)
    returns (q: Progress)
    requires AllAlone(calls, xs, pid) && |p.served| <= n <= |calls| && p.end.Waiting? && p.toParent == []
    requires AllAnswered(p.served, calls, xs, pid)
    requires forall i :: |p.served| <= i < n ==> IsRefused(calls[i], xs[i], plugin)
    ensures Serve(calls[|p.served|..], plugin, pid, p) == Serve(calls[n..], plugin, pid, q)
    ensures q.end.Waiting? && q.toParent == [] && |q.served| == n && AllAnswered(q.served, calls, xs, pid)
    decreases n - |p.served|
  {
    var k := |p.served|;
    if k == n {
      q := p;
    } else {
      ServeNext(calls, k, plugin, pid, p);
      var p1 := RefusedTurn(calls[k], xs[k], plugin, pid, p);
      OneMoreAnswered(p1, p, calls, xs, pid);
      q := RefuseUpTo(calls, xs, n, plugin, pid, p1);
    }
  }

  function Fresh(env: seq<Text>, a: AppData): Progress { Progress(Waiting, [], None, env, a, []) }

  ghost predicate EndsWith(q: Progress, call: Incoming, x: Reception, plugin: bool, pid: word) {
    if IsLaunched(call, x, plugin)
    then q.end.Launched? && q.toParent == [Told(call, x)] && q.app == x.app &&
         q.conn.Some? && !q.conn.value.open && q.conn.value.sent == Answer(x, pid) &&
         (HasEnvRecord(call.stream) ==> q.env == x.conn.env)
    else q.end.Threw? && q.toParent == [] && (call.accepted ==> GivenUp(q))
  }

  lemma ServeDone(calls: seq<Incoming>, plugin: bool, pid: word, p: Progress)
    requires calls == [] || !p.end.Waiting?
    ensures Serve(calls, plugin, pid, p) == p
  {
  }

  /** The index of the first call that is not refused. */
  lemma {:induction false} FirstOther(calls: seq<Incoming>, xs: seq<Reception>, plugin: bool) returns (n: nat)
    requires |calls| == |xs|
    ensures n <= |calls| && forall i :: 0 <= i < n ==> IsRefused(calls[i], xs[i], plugin)
    ensures n < |calls| ==> !IsRefused(calls[n], xs[n], plugin)
  {
    n := 0;
    while n < |calls| && IsRefused(calls[n], xs[n], plugin)
      invariant n <= |calls| && forall i :: 0 <= i < n ==> IsRefused(calls[i], xs[i], plugin)
    {
      n := n + 1;
    }
  }

  /** Whatever arrives, the booster refuses requests up to the first that is not to be refused,
      answering each; that one is launched, or it ends the booster.  The parent gets exactly one
      message if there is a launch and none otherwise, and what is launched is what the last request
      alone decodes to, with its environment when it has an environment record. */
  lemma RequestLoop(calls: seq<Incoming>, xs: seq<Reception>, plugin: bool, pid: word, env: seq<Text>, a: AppData)
    requires AllAlone(calls, xs, pid)
    ensures var q := Serve(calls, plugin, pid, Fresh(env, a));
            var n := |q.served|;
            && n <= |calls| && (forall i :: 0 <= i < n ==> IsRefused(calls[i], xs[i], plugin))
            && AllAnswered(q.served, calls, xs, pid)
            && (n == |calls| ==> q.end.Waiting? && q.toParent == [])
            && (n < |calls| ==> !IsRefused(calls[n], xs[n], plugin) && EndsWith(q, calls[n], xs[n], plugin, pid))
  {
    hide ServeOne, IsAlone;
    var n := FirstOther(calls, xs, plugin);
    assert calls[0..] == calls;
    var q := RefuseUpTo(calls, xs, n, plugin, pid, Fresh(env, a));
    if n < |calls| {
      ServeNext(calls, n, plugin, pid, q);
      var z := LastTurn(calls[n], xs[n], plugin, pid, q);
      ServeDone(calls[n + 1..], plugin, pid, z);
    } else {
      ServeDone(calls[n..], plugin, pid, q);
    }
  }

  /** A single call that is not refused is launched. */
  lemma OneLaunch(call: Incoming, x: Reception, pid: word)
    requires call.accepted && IsAlone(call, x, pid) && x.ok
    ensures var q := Serve([call], false, pid, Fresh([], BLANK));
            q.end.Launched? && q.served == [] && q.toParent == [Told(call, x)]
  {
    hide Alone, Serve;
    RequestLoop([call], [x], false, pid, [], BLANK);
    assert !IsRefused([call][0], [x][0], false);
  }

  /** The reception that a launch goes back to. */
  lemma LaunchOf(calls: seq<Incoming>, plugin: bool, pid: word, env: seq<Text>, a: AppData) returns (x: Reception)
    requires Serve(calls, plugin, pid, Fresh(env, a)).end.Launched?
    ensures var q := Serve(calls, plugin, pid, Fresh(env, a));
            var n := |q.served|;
            && n < |calls| && IsAlone(calls[n], x, pid) && q.toParent == [Told(calls[n], x)]
            && q.conn.Some? && q.conn.value.sent == Answer(x, pid)
  {
    var xs := seq(|calls|, i requires 0 <= i < |calls| => Alone(calls[i].stream, pid));
    RequestLoop(calls, xs, plugin, pid, env, a);
    x := xs[|Serve(calls, plugin, pid, Fresh(env, a)).served|];
  }

  // ---------------------------------------------------------------- a launch that an invoker asked for

  lemma TurnSets(c: Conn, action: word, d: Conn)
    requires Turn(c, action, d) && SetsEnv(d)
    ensures SetsEnv(c)
  {
  }

  lemma {:induction false} TurnsSet(cs: seq<Conn>, actions: seq<word>)
    requires Turns(cs, actions) && SetsEnv(cs[|actions|])
    ensures SetsEnv(cs[0])
    decreases |actions|
  {
    if actions != [] {
      TurnsSet(cs[1..], actions[1..]);
      TurnSets(cs[0], actions[0], cs[1]);
    }
  }

  lemma EnvRecordReached(c: Conn, r: Request)
    requires Encodable(r) && c.rest == FromPriority(r)
    ensures SetsEnv(c)
  {
    var cs, actions := NumbersPass(c, r);
    ReadWordOf(MSG_ENV, EncodeWord(Count(|r.env|)) + (EncodeStrs(r.env) + EncodeWord(MSG_END)));
    TurnsSet(cs, actions);
  }

  lemma ActionsSetEnv(c: Conn, r: Request)
    requires Encodable(r) && c.rest == FromExec(r) && Short(r.file) && ArgsOk(r)
    ensures SetsEnv(c)
  {
    EnvRecordReached(AfterArgs(c, r), r);
    CountExact(|r.argv|);
    ArgsTurn(AfterExec(c, r), r.argv, FromPriority(r));
    TurnSets(AfterExec(c, r), MSG_ARGS, AfterArgs(c, r));
    ExecTurn(c, r.file, FromArgs(r));
    TurnSets(c, MSG_EXEC, AfterExec(c, r));
  }

  lemma RequestHead(c: Conn, options: word, name: Text, t: seq<Item>)
    requires HasHead(c, options, name, t) && Short(name)
    ensures ReceiveAppName(ReceiveMagic(c).0).0 == c.(rest := t, sendPid := options % 2 == 1)
  {
    var u := EncodeWord(MSG_NAME) + (EncodeStr(name) + t);
    MagicStage(c, options, u);
    NameReceived(c.(rest := u, sendPid := options % 2 == 1), name, t);
  }

  /** A request that the invoker sends has an environment record, and its launch data are the ones
      the invoker gave: so a booster that launches it, after any requests it refused, launches it
      with exactly these data and this environment. */
  lemma RequestAlone(r: Request, pid: word)
    requires Encodable(r) && Acceptable(r)
    ensures var x := Alone(Encode(r), pid);
            && x.ok && x.app == LaunchData(BLANK, r) && x.conn.env == PutVariables([], r.env)
            && x.conn.sendPid == (r.options % 2 == 1) && HasEnvRecord(Encode(r))
  {
    RequestAccepted(r, [], BLANK, pid);
    EncodedHead(r, []);
    RequestHead(Accepted(Encode(r), []), r.options, r.argv[0], FromExec(r));
    ActionsSetEnv(AtActions(r, []), r);
  }
}
