/** Which requests the decoder acknowledges, and what it makes of them. */
module WireTheorems {
  import opened Basics
  import opened Protocol
  import opened Requests
  import opened Connections

  // ---------------------------------------------------------------- any stream at all

  /** On every stream, one ACK is sent when the actions are accepted, followed by the pid if the
      invoker waits, and nothing at all is sent when they are not. */
  lemma {:induction false} ActionsAnswer(c: Conn, pid: word)
    requires c.open
    ensures var (d, ok) := ReceiveActions(c, pid);
            d.open && d.sendPid == c.sendPid &&
            d.sent == c.sent + (if !ok then [] else if c.sendPid then [MSG_ACK, MSG_PID, pid] else [MSG_ACK])
    decreases |c.rest|
  {
    var (action, rest) := ReadWord(c.rest);
    var c1 := c.(rest := rest);
    if action != MSG_END && Receive(c1, action).Some? {
      ReceiveShrinks(c1, action);
      ActionsAnswer(Receive(c1, action).value, pid);
    }
  }

  /** The same for a whole reception: acknowledged exactly once if accepted, never otherwise. */
  lemma AnswerOnAnyStream(stream: seq<Item>, env: seq<Text>, a: AppData, pid: word)
    ensures var r := ReceiveApplicationData(Accepted(stream, env), a, pid);
            r.conn.open &&
            r.conn.sent == (if !r.ok then [] else if r.conn.sendPid then [MSG_ACK, MSG_PID, pid] else [MSG_ACK])
  {
    var (c1, options) := ReceiveMagic(Accepted(stream, env));
    if options != 0xffff_ffff {
      ActionsAnswer(ReceiveAppName(c1).0, pid);
    }
  }

  // ---------------------------------------------------------------- strings

  predicate Short(s: Text) { |s| < 4096 }

  /** The stream has lost step: it goes on with four bytes none of which is zero. */
  ghost predicate Jammed(s: seq<Item>) {
    |s| >= 4 && forall i :: 0 <= i < 4 ==> s[i].b != 0
  }

  lemma EncodeStrIs(s: Text)
    requires CStringOk(s)
    ensures EncodeStr(s) == EncodeWord(|s| + 1) + Plain(s + [0])
  {
    hide EncodeWord, Plain;
    assert (s + [0])[..|s| + 1] == s + [0];
  }

  lemma SizeThenBody(s: Text, rest: seq<Item>)
    requires CStringOk(s)
    ensures EncodeStr(s) + rest == EncodeWord(|s| + 1) + (Plain(s + [0]) + rest)
  {
    hide EncodeStr, EncodeWord, Plain;
    EncodeStrIs(s);
    Regroup(EncodeWord(|s| + 1), Plain(s + [0]), rest);
  }

  lemma BodyThenRest(s: Text, rest: seq<Item>)
    ensures var t := Plain(s + [0]) + rest; |t| == |s| + 1 + |rest| && Bytes(t[..|s|]) == s && t[|s| + 1..] == rest
  {
  }

  lemma ReadStrShort(s: Text, rest: seq<Item>)
    requires CStringOk(s) && Short(s)
    ensures ReadStr(EncodeStr(s) + rest) == (Some(s), rest)
  {
    hide EncodeStr, EncodeWord, Plain, Bytes;
    SizeThenBody(s, rest);
    ReadWordOf(|s| + 1, Plain(s + [0]) + rest);
    BodyThenRest(s, rest);
  }

  lemma ReadStrLong(s: Text, rest: seq<Item>)
    requires CStringOk(s) && !Short(s)
    ensures ReadStr(EncodeStr(s) + rest).0 == None && Jammed(ReadStr(EncodeStr(s) + rest).1)
  {
    SizeThenBody(s, rest);
    var t := Plain(s + [0]) + rest;
    ReadWordOf(|s| + 1, t);
    assert forall i :: 0 <= i < 4 ==> t[i].b == s[i];
  }

  lemma ReadStrsCons(x: Text, more: seq<Item>, n: nat)
    requires CStringOk(x) && Short(x)
    ensures ReadStrs(EncodeStr(x) + more, n + 1) == var r := ReadStrs(more, n); r.(got := [x] + r.got)
  {
    ReadStrShort(x, more);
  }

  lemma EncodeStrsCons(ss: seq<Text>, rest: seq<Item>)
    requires ss != []
    ensures EncodeStrs(ss) + rest == EncodeStr(ss[0]) + (EncodeStrs(ss[1..]) + rest)
  {
  }

  lemma {:induction false} ReadStrsShort(ss: seq<Text>, rest: seq<Item>)
    requires forall i :: 0 <= i < |ss| ==> CStringOk(ss[i]) && Short(ss[i])
    ensures ReadStrs(EncodeStrs(ss) + rest, |ss|) == Strings(ss, true, rest)
    decreases |ss|
  {
    hide ReadStr;
    if ss == [] {
      assert EncodeStrs(ss) + rest == rest;
    } else {
      var x, xs := ss[0], ss[1..];
      ReadStrsShort(xs, rest);
      EncodeStrsCons(ss, rest);
      ReadStrsCons(x, EncodeStrs(xs) + rest, |xs|);
      assert [x] + xs == ss;
    }
  }

  ghost predicate StopsJammed(r: Strings) { !r.ok && Jammed(r.rest) }

  lemma JamStep(x: Text, more: seq<Item>, n: nat)
    requires CStringOk(x) && (Short(x) ==> StopsJammed(ReadStrs(more, n)))
    ensures StopsJammed(ReadStrs(EncodeStr(x) + more, n + 1))
  {
    if Short(x) { ReadStrsCons(x, more, n); } else { ReadStrLong(x, more); }
  }

  ghost predicate AllCStrings(ss: seq<Text>) { forall i :: 0 <= i < |ss| ==> CStringOk(ss[i]) }

  /** The strings before the first long one are read, and the rest of the stream has lost step. */
  lemma {:induction false} ReadStrsLong(ss: seq<Text>, k: nat, rest: seq<Item>)
    requires AllCStrings(ss) && k < |ss| && !Short(ss[k])
    ensures StopsJammed(ReadStrs(EncodeStrs(ss) + rest, |ss|))
    decreases k
  {
    hide ReadStr;
    var xs := ss[1..];
    if Short(ss[0]) {
      assert xs[k - 1] == ss[k];
      ReadStrsLong(xs, k - 1, rest);
    }
    JamStep(ss[0], EncodeStrs(xs) + rest, |xs|);
    EncodeStrsCons(ss, rest);
  }

  // ---------------------------------------------------------------- out of step

  predicate IsAction(w: word) {
    w in {MSG_EXEC, MSG_ARGS, MSG_ENV, MSG_PRIO, MSG_DELAY, MSG_IO, MSG_IDS, MSG_END}
  }

  /** Every action word contains a zero byte. */
  lemma ActionHasZeroByte(b0: byte, b1: byte, b2: byte, b3: byte)
    requires b0 != 0 && b1 != 0 && b2 != 0 && b3 != 0
    ensures !IsAction(WordOf(b0, b1, b2, b3))
  {
    var w := WordOf(b0, b1, b2, b3);
    assert w % 0x1_0000 == b0 + 0x100 * b1;
  }

  lemma NoActionRejects(c: Conn, pid: word)
    requires !IsAction(ReadWord(c.rest).0)
    ensures !ReceiveActions(c, pid).1
  {
  }

  lemma JamRejects(c: Conn, pid: word)
    requires Jammed(c.rest)
    ensures !ReceiveActions(c, pid).1
  {
    ActionHasZeroByte(c.rest[0].b, c.rest[1].b, c.rest[2].b, c.rest[3].b);
    NoActionRejects(c, pid);
  }

  // ---------------------------------------------------------------- record by record

  /** One turn of the action loop takes `c` to `d`. */
  ghost predicate Turn(c: Conn, action: word, d: Conn) {
    action != MSG_END && ReadWord(c.rest).0 == action &&
    Receive(c.(rest := ReadWord(c.rest).1), action) == Some(d)
  }

  lemma TurnRuns(c: Conn, action: word, d: Conn, pid: word)
    requires Turn(c, action, d)
    ensures ReceiveActions(c, pid) == ReceiveActions(d, pid)
  {
  }

  /** The stream goes on with the bytes of a string, which are not zero and carry no descriptors. */
  ghost predicate InString(s: seq<Item>) {
    |s| >= 12 && forall i :: 0 <= i < 12 ==> s[i].b != 0 && s[i].fds == []
  }

  /** Whatever record is read in the middle of a string, the stream has lost step after it. */
  lemma RecordInString(c: Conn, action: word)
    requires InString(c.rest) && IsAction(action) && action != MSG_END
    ensures Receive(c, action).Some? && Jammed(Receive(c, action).value.rest)
  {
    var (w, t) := ReadWord(c.rest);
    assert w >= 0x0101_0101;
    assert t == c.rest[4..];
    if action == MSG_IDS { assert ReadWord(t).1 == t[4..] == c.rest[8..]; }
  }

  /** A record body that was skipped: the stream goes on with the size of its first string.  A size
      that is the word of some other record leads into the string itself; only a size that is the END
      word does not give the request away. */
  lemma SizeWordRejects(c: Conn, s: Text, rest: seq<Item>, pid: word)
    requires c.rest == EncodeStr(s) + rest && CStringOk(s) && |s| + 1 != MSG_END
    ensures !ReceiveActions(c, pid).1
  {
    SizeThenBody(s, rest);
    var t := Plain(s + [0]) + rest;
    ReadWordOf(|s| + 1, t);
    if IsAction(|s| + 1) {
      assert forall i :: 0 <= i < 12 ==> t[i] == Item(s[i], []);
      RecordInString(c.(rest := t), |s| + 1);
      var d := Receive(c.(rest := t), |s| + 1).value;
      TurnRuns(c, |s| + 1, d, pid);
      JamRejects(d, pid);
    } else {
      NoActionRejects(c, pid);
    }
  }

  ghost predicate Turns(cs: seq<Conn>, actions: seq<word>) {
    |cs| == |actions| + 1 && forall i :: 0 <= i < |actions| ==> Turn(cs[i], actions[i], cs[i + 1])
  }

  lemma {:induction false} TurnsRun(cs: seq<Conn>, actions: seq<word>, pid: word)
    requires Turns(cs, actions)
    ensures ReceiveActions(cs[0], pid) == ReceiveActions(cs[|actions|], pid)
    decreases |actions|
  {
    if actions != [] {
      TurnRuns(cs[0], actions[0], cs[1], pid);
      TurnsRun(cs[1..], actions[1..], pid);
    }
  }

  ghost predicate EnvOk(r: Request) { |r.env| < MAX_VARS && forall i :: 0 <= i < |r.env| ==> Short(r.env[i]) }

  /** There are too many variables, and the size of the first reads like the END of the request. */
  predicate EnvSwallowed(r: Request) { |r.env| >= 1024 && |r.env[0]| + 1 == 0xdead_0000 }

  ghost predicate ArgsOk(r: Request) { |r.argv| < ARG_MAX && forall i :: 0 <= i < |r.argv| ==> Short(r.argv[i]) }

  // Each lemma below speaks of one record followed by any stream `t`.

  lemma ExecTurn(c: Conn, file: Text, t: seq<Item>)
    requires CStringOk(file) && Short(file) && c.rest == EncodeWord(MSG_EXEC) + (EncodeStr(file) + t)
    ensures Turn(c, MSG_EXEC, c.(rest := t, fileName := file))
  {
    ReadWordOf(MSG_EXEC, EncodeStr(file) + t);
    ReadStrShort(file, t);
  }

  lemma ExecJams(c: Conn, file: Text, t: seq<Item>) returns (d: Conn)
    requires CStringOk(file) && !Short(file) && c.rest == EncodeWord(MSG_EXEC) + (EncodeStr(file) + t)
    ensures Turn(c, MSG_EXEC, d) && Jammed(d.rest)
  {
    ReadWordOf(MSG_EXEC, EncodeStr(file) + t);
    ReadStrLong(file, t);
    d := ReceiveExec(c.(rest := EncodeStr(file) + t));
  }

  lemma TwoWords(a: word, n: word, body: seq<Item>)
    ensures ReadWord(EncodeWord(a) + (EncodeWord(n) + body)) == (a, EncodeWord(n) + body)
    ensures ReadWord(EncodeWord(n) + body) == (n, body)
  {
    ReadWordOf(a, EncodeWord(n) + body);
    ReadWordOf(n, body);
  }

  lemma CountExact(n: nat)
    requires n < 0x1_0000_0000
    ensures Count(n) == n
  {
  }

  function ArgsOf(argv: seq<Text>): seq<Slot> { seq(|argv|, i requires 0 <= i < |argv| => Arg(argv[i])) }

  lemma SlotsOf(argv: seq<Text>, rest: seq<Item>)
    ensures ArgSlots(Strings(argv, true, rest), |argv|) == ArgsOf(argv)
  {
  }

  ghost predicate AllShort(ss: seq<Text>) { forall i :: 0 <= i < |ss| ==> CStringOk(ss[i]) && Short(ss[i]) }

  lemma ArgsReceived(c: Conn, argv: seq<Text>, body: seq<Item>, t: seq<Item>)
    requires 0 < |argv| < ARG_MAX && ReadStrs(body, |argv|) == Strings(argv, true, t)
    requires ReadWord(c.rest) == (|argv|, body)
    ensures ReceiveArgs(c) == c.(rest := t, argc := |argv|, argv := ArgsOf(argv))
  {
    SlotsOf(argv, t);
  }

  lemma ArgsTurn(c: Conn, argv: seq<Text>, t: seq<Item>)
    requires 0 < |argv| < ARG_MAX && AllShort(argv)
    requires c.rest == EncodeWord(MSG_ARGS) + (EncodeWord(|argv|) + (EncodeStrs(argv) + t))
    ensures Turn(c, MSG_ARGS, c.(rest := t, argc := |argv|, argv := ArgsOf(argv)))
  {
    TwoWords(MSG_ARGS, |argv|, EncodeStrs(argv) + t);
    ReadStrsShort(argv, t);
    ArgsReceived(c.(rest := EncodeWord(|argv|) + (EncodeStrs(argv) + t)), argv, EncodeStrs(argv) + t, t);
  }

  lemma ArgsTooMany(c: Conn, n: word, body: seq<Item>) returns (d: Conn)
    requires n >= ARG_MAX && c.rest == EncodeWord(MSG_ARGS) + (EncodeWord(n) + body)
    ensures Turn(c, MSG_ARGS, d) && d.rest == body
  {
    TwoWords(MSG_ARGS, n, body);
    d := ReceiveArgs(c.(rest := EncodeWord(n) + body));
  }

  lemma ArgsTooLong(c: Conn, argv: seq<Text>, k: nat, t: seq<Item>) returns (d: Conn)
    requires k < |argv| < ARG_MAX && !Short(argv[k]) && AllCStrings(argv)
    requires c.rest == EncodeWord(MSG_ARGS) + (EncodeWord(|argv|) + (EncodeStrs(argv) + t))
    ensures Turn(c, MSG_ARGS, d) && Jammed(d.rest)
  {
    TwoWords(MSG_ARGS, |argv|, EncodeStrs(argv) + t);
    ReadStrsLong(argv, k, t);
    d := ReceiveArgs(c.(rest := EncodeWord(|argv|) + (EncodeStrs(argv) + t)));
  }

  lemma PriorityTurn(c: Conn, w: word, t: seq<Item>)
    requires c.rest == EncodeWord(MSG_PRIO) + (EncodeWord(w) + t)
    ensures Turn(c, MSG_PRIO, c.(rest := t, priority := w))
  {
    TwoWords(MSG_PRIO, w, t);
  }

  lemma DelayTurn(c: Conn, w: word, t: seq<Item>)
    requires c.rest == EncodeWord(MSG_DELAY) + (EncodeWord(w) + t)
    ensures Turn(c, MSG_DELAY, c.(rest := t, delay := w))
  {
    TwoWords(MSG_DELAY, w, t);
  }

  lemma IdsTurn(c: Conn, u: word, g: word, t: seq<Item>)
    requires c.rest == EncodeWord(MSG_IDS) + (EncodeWord(u) + (EncodeWord(g) + t))
    ensures Turn(c, MSG_IDS, c.(rest := t, uid := u, gid := g))
  {
    TwoWords(MSG_IDS, u, EncodeWord(g) + t);
    ReadWordOf(g, t);
  }

  lemma HeadTail<T>(x: T, t: seq<T>)
    ensures ([x] + t)[0] == x && ([x] + t)[1..] == t
  {
  }

  lemma IoTurn(c: Conn, filler: byte, io: seq<int32>, t: seq<Item>)
    requires |io| == 3 && c.rest == EncodeWord(MSG_IO) + ([Item(filler, io)] + t)
    ensures Turn(c, MSG_IO, c.(rest := t, io := io))
  {
    ReadWordOf(MSG_IO, [Item(filler, io)] + t);
    HeadTail(Item(filler, io), t);
  }

  lemma EnvRecord(c: Conn, rest: seq<Item>)
    requires ReadWord(c.rest) == (MSG_ENV, rest)
    ensures Turn(c, MSG_ENV, ReceiveEnv(c.(rest := rest, env := [])))
  {
  }

  lemma EnvReceived(c: Conn, env: seq<Text>, body: seq<Item>, t: seq<Item>)
    requires |env| < MAX_VARS && ReadStrs(body, |env|) == Strings(env, true, t)
    requires ReadWord(c.rest) == (|env|, body)
    ensures ReceiveEnv(c.(env := [])) == c.(rest := t, env := PutVariables([], env))
  {
  }

  lemma EnvTurn(c: Conn, env: seq<Text>, t: seq<Item>)
    requires |env| < MAX_VARS && AllShort(env)
    requires c.rest == EncodeWord(MSG_ENV) + (EncodeWord(|env|) + (EncodeStrs(env) + t))
    ensures Turn(c, MSG_ENV, c.(rest := t, env := PutVariables([], env)))
  {
    hide Receive, ReadStrs;
    var body := EncodeStrs(env) + t;
    TwoWords(MSG_ENV, |env|, body);
    ReadStrsShort(env, t);
    EnvReceived(c.(rest := EncodeWord(|env|) + body), env, body, t);
    EnvRecord(c, EncodeWord(|env|) + body);
  }

  lemma EnvTooMany(c: Conn, n: word, body: seq<Item>) returns (d: Conn)
    requires n >= MAX_VARS && c.rest == EncodeWord(MSG_ENV) + (EncodeWord(n) + body)
    ensures Turn(c, MSG_ENV, d) && d.rest == body
  {
    TwoWords(MSG_ENV, n, body);
    d := ReceiveEnv(c.(rest := EncodeWord(n) + body, env := []));
  }

  lemma EnvTooLong(c: Conn, env: seq<Text>, k: nat, t: seq<Item>) returns (d: Conn)
    requires k < |env| < MAX_VARS && !Short(env[k]) && AllCStrings(env)
    requires c.rest == EncodeWord(MSG_ENV) + (EncodeWord(|env|) + (EncodeStrs(env) + t))
    ensures Turn(c, MSG_ENV, d) && Jammed(d.rest)
  {
    TwoWords(MSG_ENV, |env|, EncodeStrs(env) + t);
    ReadStrsLong(env, k, t);
    d := ReceiveEnv(c.(rest := EncodeWord(|env|) + (EncodeStrs(env) + t), env := []));
  }

  lemma EndTurn(c: Conn, pid: word)
    requires c.rest == EncodeWord(MSG_END)
    ensures ReceiveActions(c, pid) == (Acknowledge(c.(rest := []), pid), true)
  {
    assert EncodeWord(MSG_END) + [] == EncodeWord(MSG_END);
    ReadWordOf(MSG_END, []);
  }

  // ---------------------------------------------------------------- all the actions of a request

  /** The connection after each record up to the descriptors. */
  function AfterExec(c: Conn, r: Request): Conn { c.(rest := FromArgs(r), fileName := r.file) }

  function AfterArgs(c: Conn, r: Request): Conn {
    AfterExec(c, r).(rest := FromPriority(r), argc := Count(|r.argv|), argv := ArgsOf(r.argv))
  }

  function AfterDelay(c: Conn, r: Request): Conn {
    AfterArgs(c, r).(rest := FromIds(r), priority := ToWord(r.priority), delay := ToWord(r.delay))
  }

  function AfterIo(c: Conn, r: Request): Conn {
    AfterDelay(c, r).(rest := FromEnv(r), uid := r.uid, gid := r.gid, io := r.io)
  }

  /** The connection after an acceptable request, apart from the answer. */
  function Decoded(c: Conn, r: Request): Conn {
    AfterIo(c, r).(rest := [], env := PutVariables([], r.env))
  }

  lemma NumbersTurn(c: Conn, r: Request)
    requires c.rest == FromPriority(r)
    ensures var c1 := c.(rest := FromDelay(r), priority := ToWord(r.priority));
            Turn(c, MSG_PRIO, c1) && Turn(c1, MSG_DELAY, c1.(rest := FromIds(r), delay := ToWord(r.delay)))
  {
    PriorityTurn(c, ToWord(r.priority), FromDelay(r));
    DelayTurn(c.(rest := FromDelay(r), priority := ToWord(r.priority)), ToWord(r.delay), FromIds(r));
  }

  lemma IdsAndIoTurn(c: Conn, r: Request)
    requires |r.io| == 3 && c.rest == FromIds(r)
    ensures var c1 := c.(rest := FromIo(r), uid := r.uid, gid := r.gid);
            Turn(c, MSG_IDS, c1) && Turn(c1, MSG_IO, c1.(rest := FromEnv(r), io := r.io))
  {
    IdsTurn(c, r.uid, r.gid, FromIo(r));
    IoTurn(c.(rest := FromIo(r), uid := r.uid, gid := r.gid), r.filler, r.io, FromEnv(r));
  }

  /** The records that carry no string list always pass. */
  lemma NumbersPass(c: Conn, r: Request) returns (cs: seq<Conn>, actions: seq<word>)
    requires |r.io| == 3 && c.rest == FromPriority(r)
    ensures Turns(cs, actions) && |actions| == 4 && cs[0] == c
    ensures cs[4] == c.(rest := FromEnv(r), priority := ToWord(r.priority), delay := ToWord(r.delay),
                        uid := r.uid, gid := r.gid, io := r.io)
  {
    hide Turn;
    var c1 := c.(rest := FromDelay(r), priority := ToWord(r.priority));
    var c2 := c1.(rest := FromIds(r), delay := ToWord(r.delay));
    var c3 := c2.(rest := FromIo(r), uid := r.uid, gid := r.gid);
    var c4 := c3.(rest := FromEnv(r), io := r.io);
    NumbersTurn(c, r);
    IdsAndIoTurn(c2, r);
    cs, actions := [c, c1, c2, c3, c4], [MSG_PRIO, MSG_DELAY, MSG_IDS, MSG_IO];
  }

  lemma LongFileRejects(c: Conn, file: Text, t: seq<Item>, pid: word)
    requires CStringOk(file) && !Short(file) && c.rest == EncodeWord(MSG_EXEC) + (EncodeStr(file) + t)
    ensures !ReceiveActions(c, pid).1
  {
    var d := ExecJams(c, file, t);
    TurnRuns(c, MSG_EXEC, d, pid);
    JamRejects(d, pid);
  }

  lemma FirstSizeRejects(c: Conn, ss: seq<Text>, t: seq<Item>, pid: word)
    requires ss != [] && c.rest == EncodeStrs(ss) + t && CStringOk(ss[0]) && |ss[0]| + 1 != MSG_END
    ensures !ReceiveActions(c, pid).1
  {
    EncodeStrsCons(ss, t);
    SizeWordRejects(c, ss[0], EncodeStrs(ss[1..]) + t, pid);
  }

  lemma ArgsReject(c: Conn, argv: seq<Text>, t: seq<Item>, pid: word)
    requires 1 <= |argv| < 0x8000_0000 && AllCStrings(argv) && Short(argv[0])
    requires |argv| >= ARG_MAX || exists k :: 0 <= k < |argv| && !Short(argv[k])
    requires c.rest == EncodeWord(MSG_ARGS) + (EncodeWord(|argv|) + (EncodeStrs(argv) + t))
    ensures !ReceiveActions(c, pid).1
  {
    if |argv| >= ARG_MAX {
      var d := ArgsTooMany(c, |argv|, EncodeStrs(argv) + t);
      TurnRuns(c, MSG_ARGS, d, pid);
      FirstSizeRejects(d, argv, t, pid);
    } else {
      var k :| 0 <= k < |argv| && !Short(argv[k]);
      var d := ArgsTooLong(c, argv, k, t);
      TurnRuns(c, MSG_ARGS, d, pid);
      JamRejects(d, pid);
    }
  }

  lemma EnvRejects(c: Conn, env: seq<Text>, t: seq<Item>, pid: word)
    requires |env| < 0x8000_0000 && AllCStrings(env) && (|env| >= MAX_VARS ==> |env[0]| + 1 != MSG_END)
    requires |env| >= MAX_VARS || exists k :: 0 <= k < |env| && !Short(env[k])
    requires c.rest == EncodeWord(MSG_ENV) + (EncodeWord(|env|) + (EncodeStrs(env) + t))
    ensures !ReceiveActions(c, pid).1
  {
    if |env| >= MAX_VARS {
      var d := EnvTooMany(c, |env|, EncodeStrs(env) + t);
      TurnRuns(c, MSG_ENV, d, pid);
      FirstSizeRejects(d, env, t, pid);
    } else {
      var k :| 0 <= k < |env| && !Short(env[k]);
      var d := EnvTooLong(c, env, k, t);
      TurnRuns(c, MSG_ENV, d, pid);
      JamRejects(d, pid);
    }
  }

  lemma EnvAccepts(c: Conn, env: seq<Text>, pid: word)
    requires |env| < MAX_VARS && AllShort(env)
    requires c.rest == EncodeWord(MSG_ENV) + (EncodeWord(|env|) + (EncodeStrs(env) + EncodeWord(MSG_END)))
    ensures ReceiveActions(c, pid) == (Acknowledge(c.(rest := [], env := PutVariables([], env)), pid), true)
  {
    EnvTurn(c, env, EncodeWord(MSG_END));
    var d := c.(rest := EncodeWord(MSG_END), env := PutVariables([], env));
    TurnRuns(c, MSG_ENV, d, pid);
    EndTurn(d, pid);
  }

  lemma ReachArgs(c: Conn, r: Request, pid: word)
    requires Encodable(r) && c.rest == FromExec(r) && Short(r.file)
    ensures ReceiveActions(c, pid) == ReceiveActions(AfterExec(c, r), pid)
  {
    ExecTurn(c, r.file, FromArgs(r));
    TurnRuns(c, MSG_EXEC, AfterExec(c, r), pid);
  }

  lemma PassArgs(c: Conn, argv: seq<Text>, t: seq<Item>, pid: word)
    requires 0 < |argv| < ARG_MAX && AllShort(argv)
    requires c.rest == EncodeWord(MSG_ARGS) + (EncodeWord(|argv|) + (EncodeStrs(argv) + t))
    ensures ReceiveActions(c, pid) == ReceiveActions(c.(rest := t, argc := |argv|, argv := ArgsOf(argv)), pid)
  {
    ArgsTurn(c, argv, t);
    TurnRuns(c, MSG_ARGS, c.(rest := t, argc := |argv|, argv := ArgsOf(argv)), pid);
  }

  /** Up to the environment record nothing can go wrong once the arguments have passed. */
  lemma ReachEnv(c: Conn, r: Request, pid: word)
    requires Encodable(r) && c.rest == FromExec(r) && Short(r.file) && ArgsOk(r)
    ensures ReceiveActions(c, pid) == ReceiveActions(AfterIo(c, r), pid)
  {
    ReachArgs(c, r, pid);
    CountExact(|r.argv|);
    PassArgs(AfterExec(c, r), r.argv, FromPriority(r), pid);
    var cs, actions := NumbersPass(AfterArgs(c, r), r);
    TurnsRun(cs, actions, pid);
  }

  lemma ActionsReject(c: Conn, r: Request, pid: word)
    requires Encodable(r) && c.rest == FromExec(r) && Short(r.argv[0])
    requires !(Short(r.file) && ArgsOk(r) && (EnvOk(r) || EnvSwallowed(r)))
    ensures !ReceiveActions(c, pid).1
  {
    CountExact(|r.argv|);
    CountExact(|r.env|);
    if !Short(r.file) {
      LongFileRejects(c, r.file, FromArgs(r), pid);
    } else if !ArgsOk(r) {
      ReachArgs(c, r, pid);
      ArgsReject(AfterExec(c, r), r.argv, FromPriority(r), pid);
    } else {
      ReachEnv(c, r, pid);
      EnvRejects(AfterIo(c, r), r.env, EncodeWord(MSG_END), pid);
    }
  }

  lemma EnvRecordAccepts(e: Conn, r: Request, pid: word)
    requires Encodable(r) && EnvOk(r) && e.rest == FromEnv(r)
    ensures ReceiveActions(e, pid) == (Acknowledge(e.(rest := [], env := PutVariables([], r.env)), pid), true)
  {
    CountExact(|r.env|);
    EnvAccepts(e, r.env, pid);
  }

  lemma ActionsAccept(c: Conn, r: Request, pid: word)
    requires Encodable(r) && c.rest == FromExec(r) && Short(r.file) && ArgsOk(r) && EnvOk(r)
    ensures ReceiveActions(c, pid) == (Acknowledge(Decoded(c, r), pid), true)
  {
    ReachEnv(c, r, pid);
    EnvRecordAccepts(AfterIo(c, r), r, pid);
  }

  // ---------------------------------------------------------------- the head of a request

  lemma MagicChecked(c: Conn, options: word)
    requires options < 0x100
    ensures CheckMagic(c, MSG_MAGIC + MSG_MAGIC_VERSION + options) == (c.(sendPid := options % 2 == 1), options)
  {
  }

  lemma MagicStage(c: Conn, options: word, t: seq<Item>)
    requires options < 0x100 && c.rest == EncodeWord(MSG_MAGIC + MSG_MAGIC_VERSION + options) + t
    ensures ReceiveMagic(c) == (c.(rest := t, sendPid := options % 2 == 1), options)
  {
    ReadWordOf(MSG_MAGIC + MSG_MAGIC_VERSION + options, t);
    MagicChecked(c.(rest := t), options);
  }

  lemma NameReceived(c: Conn, name: Text, t: seq<Item>)
    requires CStringOk(name) && Short(name) && c.rest == EncodeWord(MSG_NAME) + (EncodeStr(name) + t)
    ensures ReceiveAppName(c) == (c.(rest := t), name)
  {
    ReadWordOf(MSG_NAME, EncodeStr(name) + t);
    ReadStrShort(name, t);
  }

  lemma NameRejected(c: Conn, name: Text, t: seq<Item>)
    requires CStringOk(name) && !Short(name) && c.rest == EncodeWord(MSG_NAME) + (EncodeStr(name) + t)
    ensures ReceiveAppName(c).1 == []
  {
    ReadWordOf(MSG_NAME, EncodeStr(name) + t);
    ReadStrLong(name, t);
  }

  /** The decoder once magic and name are known. */
  lemma HeadDecides(c: Conn, a: AppData, pid: word, c1: Conn, options: word, c2: Conn, name: Text)
    requires ReceiveMagic(c) == (c1, options) && options < 0x100 && ReceiveAppName(c1) == (c2, name)
    ensures ReceiveApplicationData(c, a, pid)
         == if name == [] then Reception(c2, a.(options := options, appName := name), false)
            else Received(ReceiveActions(c2, pid), a.(options := options, appName := name))
  {
  }

  // ---------------------------------------------------------------- the theorems

  function AtActions(r: Request, env: seq<Text>): Conn {
    Accepted(FromExec(r), env).(sendPid := r.options % 2 == 1)
  }

  /** What the limits of the decoder allow. */
  ghost predicate Acceptable(r: Request) {
    && r.argv != [] && r.argv[0] != []
    && |r.argv| < 1024 && |r.env| < 1024
    && Short(r.file)
    && (forall i :: 0 <= i < |r.argv| ==> Short(r.argv[i]))
    && (forall i :: 0 <= i < |r.env| ==> Short(r.env[i]))
  }

  function LaunchData(a: AppData, r: Request): AppData
    requires r.argv != [] && |r.argv| < ARG_MAX
  {
    a.(options := r.options, appName := r.argv[0], fileName := r.file, argc := |r.argv|, argv := ArgsOf(r.argv),
       priority := r.priority, delay := r.delay, io := r.io, uid := r.uid, gid := r.gid)
  }

  /** A stream that begins with magic and name, the rest being `t`. */
  ghost predicate HasHead(c: Conn, options: word, name: Text, t: seq<Item>) {
    options < 0x100 && CStringOk(name) &&
    c.rest == EncodeWord(MSG_MAGIC + MSG_MAGIC_VERSION + options) + (EncodeWord(MSG_NAME) + (EncodeStr(name) + t))
  }

  lemma HeadReceived(c: Conn, options: word, name: Text, t: seq<Item>, a: AppData, pid: word)
    requires HasHead(c, options, name, t) && Short(name) && name != []
    ensures ReceiveApplicationData(c, a, pid)
         == Received(ReceiveActions(c.(rest := t, sendPid := options % 2 == 1), pid),
                     a.(options := options, appName := name))
  {
    var u := EncodeWord(MSG_NAME) + (EncodeStr(name) + t);
    var c1 := c.(rest := u, sendPid := options % 2 == 1);
    MagicStage(c, options, u);
    NameReceived(c1, name, t);
    HeadDecides(c, a, pid, c1, options, c1.(rest := t), name);
  }

  lemma HeadRejected(c: Conn, options: word, name: Text, t: seq<Item>, a: AppData, pid: word)
    requires HasHead(c, options, name, t) && !(Short(name) && name != [])
    ensures !ReceiveApplicationData(c, a, pid).ok
  {
    var u := EncodeWord(MSG_NAME) + (EncodeStr(name) + t);
    var c1 := c.(rest := u, sendPid := options % 2 == 1);
    MagicStage(c, options, u);
    if Short(name) { NameReceived(c1, name, t); } else { NameRejected(c1, name, t); }
    HeadDecides(c, a, pid, c1, options, ReceiveAppName(c1).0, []);
  }

  lemma SignedBack(i: int32)
    ensures ToInt32(ToWord(i)) == i
  {
  }

  lemma FilledIs(r: Request, env: seq<Text>, a: AppData, pid: word)
    requires Encodable(r) && |r.argv| < ARG_MAX
    ensures Filled(a.(options := r.options, appName := r.argv[0]), Acknowledge(Decoded(AtActions(r, env), r), pid))
         == LaunchData(a, r)
  {
    SignedBack(r.priority);
    SignedBack(r.delay);
    CountExact(|r.argv|);
  }

  lemma EncodedParts(r: Request, name: Text, t: seq<Item>)
    requires r.argv != [] && r.options < 0x100 && name == r.argv[0] && t == FromExec(r)
    ensures Encode(r) == EncodeWord(MSG_MAGIC + MSG_MAGIC_VERSION + r.options)
                         + (EncodeWord(MSG_NAME) + (EncodeStr(name) + t))
  {
    assert FromName(r) == EncodeWord(MSG_NAME) + (EncodeStr(name) + t);
  }

  lemma Begins(stream: seq<Item>, env: seq<Text>, options: word, name: Text, t: seq<Item>)
    requires options < 0x100 && CStringOk(name)
    requires stream == EncodeWord(MSG_MAGIC + MSG_MAGIC_VERSION + options)
                       + (EncodeWord(MSG_NAME) + (EncodeStr(name) + t))
    ensures HasHead(Accepted(stream, env), options, name, t)
  {
  }

  lemma EncodedHead(r: Request, env: seq<Text>)
    requires Encodable(r)
    ensures HasHead(Accepted(Encode(r), env), r.options, r.argv[0], FromExec(r))
  {
    EncodedParts(r, r.argv[0], FromExec(r));
    Begins(Encode(r), env, r.options, r.argv[0], FromExec(r));
  }

  lemma NameAccepted(r: Request, env: seq<Text>, a: AppData, pid: word)
    requires Encodable(r) && Short(r.argv[0]) && r.argv[0] != []
    ensures ReceiveApplicationData(Accepted(Encode(r), env), a, pid)
         == Received(ReceiveActions(AtActions(r, env), pid), a.(options := r.options, appName := r.argv[0]))
  {
    EncodedHead(r, env);
    HeadReceived(Accepted(Encode(r), env), r.options, r.argv[0], FromExec(r), a, pid);
  }

  lemma RequestAccepted(r: Request, env: seq<Text>, a: AppData, pid: word)
    requires Encodable(r) && Acceptable(r)
    ensures ReceiveApplicationData(Accepted(Encode(r), env), a, pid)
         == Reception(Acknowledge(Decoded(AtActions(r, env), r), pid), LaunchData(a, r), true)
  {
    NameAccepted(r, env, a, pid);
    ActionsAccept(AtActions(r, env), r, pid);
    FilledIs(r, env, a, pid);
  }

  lemma EnvSkipped(c: Conn, n: word, body: seq<Item>)
    requires n >= MAX_VARS && c.rest == EncodeWord(MSG_ENV) + (EncodeWord(n) + body)
    ensures Turn(c, MSG_ENV, c.(rest := body, env := []))
  {
    TwoWords(MSG_ENV, n, body);
  }

  lemma EnvRecordSwallowed(c: Conn, r: Request, pid: word)
    requires Encodable(r) && EnvSwallowed(r) && c.rest == FromEnv(r)
    ensures var (d, ok) := ReceiveActions(c, pid); ok && d.env == [] && d.argc == c.argc && d.argv == c.argv
  {
    CountExact(|r.env|);
    EncodeStrsCons(r.env, EncodeWord(MSG_END));
    var body := Plain(r.env[0] + [0]) + (EncodeStrs(r.env[1..]) + EncodeWord(MSG_END));
    SizeThenBody(r.env[0], EncodeStrs(r.env[1..]) + EncodeWord(MSG_END));
    EnvSkipped(c, |r.env|, EncodeWord(MSG_END) + body);
    var d := c.(rest := EncodeWord(MSG_END) + body, env := []);
    TurnRuns(c, MSG_ENV, d, pid);
    ReadWordOf(MSG_END, body);
  }

  lemma ActionsSwallow(c: Conn, r: Request, pid: word)
    requires Encodable(r) && c.rest == FromExec(r) && Short(r.file) && ArgsOk(r) && EnvSwallowed(r)
    ensures var (d, ok) := ReceiveActions(c, pid); ok && d.env == [] && d.argc == |r.argv| && d.argv == ArgsOf(r.argv)
  {
    CountExact(|r.argv|);
    ReachEnv(c, r, pid);
    EnvRecordSwallowed(AfterIo(c, r), r, pid);
  }

  /** Too many variables that go unnoticed. */
  ghost predicate Overlooked(r: Request) {
    && r.argv != [] && r.argv[0] != [] && Short(r.file) && ArgsOk(r) && EnvSwallowed(r)
  }

  lemma RequestOverlooked(r: Request, env: seq<Text>, a: AppData, pid: word)
    requires Encodable(r) && Overlooked(r)
    ensures var x := ReceiveApplicationData(Accepted(Encode(r), env), a, pid);
            x.ok && x.conn.env == [] && x.app.argc == |r.argv| && x.app.argv == ArgsOf(r.argv)
  {
    NameAccepted(r, env, a, pid);
    ActionsSwallow(AtActions(r, env), r, pid);
  }

  lemma BadNameRejected(r: Request, env: seq<Text>, a: AppData, pid: word)
    requires Encodable(r) && !(Short(r.argv[0]) && r.argv[0] != [])
    ensures !ReceiveApplicationData(Accepted(Encode(r), env), a, pid).ok
  {
    EncodedHead(r, env);
    HeadRejected(Accepted(Encode(r), env), r.options, r.argv[0], FromExec(r), a, pid);
  }

  lemma RequestRejected(r: Request, env: seq<Text>, a: AppData, pid: word)
    requires Encodable(r) && !Acceptable(r) && !Overlooked(r)
    ensures !ReceiveApplicationData(Accepted(Encode(r), env), a, pid).ok
  {
    hide ReceiveApplicationData;
    if Short(r.argv[0]) && r.argv[0] != [] {
      NameAccepted(r, env, a, pid);
      ActionsReject(AtActions(r, env), r, pid);
    } else {
      BadNameRejected(r, env, a, pid);
    }
  }

  /** Which requests of the invoker are acknowledged, exactly: those whose name is not empty, whose
      strings all have at most 4095 bytes, and that have fewer than 1024 arguments and variables; and
      those with 1024 variables or more, of which the first has a size that reads as the END word. */
  lemma AcceptIff(r: Request, env: seq<Text>, a: AppData, pid: word)
    requires Encodable(r)
    ensures var x := ReceiveApplicationData(Accepted(Encode(r), env), a, pid);
            && (x.ok <==> Acceptable(r) || Overlooked(r))
            && (MSG_ACK in x.conn.sent <==> x.ok)
            && !(Acceptable(r) && Overlooked(r))
            && (x.ok ==> x.app.argc == |r.argv| && x.app.argv == ArgsOf(r.argv))
  {
    hide ReceiveApplicationData, Encode;
    if Acceptable(r) {
      RequestAccepted(r, env, a, pid);
    } else if Overlooked(r) {
      RequestOverlooked(r, env, a, pid);
    } else {
      RequestRejected(r, env, a, pid);
    }
    AnswerOnAnyStream(Encode(r), env, a, pid);
  }

  /** For an acceptable request the whole stream is consumed, and every field arrives as it was sent;
      the environment of the booster is replaced by the variables of the invoker. */
  lemma WireRoundTrip(r: Request, env: seq<Text>, a: AppData, pid: word)
    requires Encodable(r) && Acceptable(r)
    ensures var x := ReceiveApplicationData(Accepted(Encode(r), env), a, pid);
            && x.ok && x.conn.rest == []
            && x.app.options == r.options && x.app.appName == r.argv[0] && x.app.fileName == r.file
            && x.app.argc == |r.argv| && x.app.argv == ArgsOf(r.argv)
            && x.app.priority == r.priority && x.app.delay == r.delay
            && x.app.uid == r.uid && x.app.gid == r.gid && x.app.io == r.io
            && x.conn.env == PutVariables([], r.env)
            && x.conn.sendPid == (r.options % 2 == 1)
  {
    RequestAccepted(r, env, a, pid);
  }

  /** A text of any size without a zero byte. */
  function Letters(n: nat): (r: Text)
    ensures |r| == n && NulFree(r)
  {
    seq(n, _ => 97)
  }

  /** The limit of 1024 variables can be overrun: this request is not acceptable, and yet it is
      acknowledged, with an empty environment. */
  lemma HugeVariableAccepted(env: seq<Text>, a: AppData, pid: word) returns (r: Request)
    ensures Encodable(r) && !Acceptable(r) && |r.env| == MAX_VARS
    ensures var x := ReceiveApplicationData(Accepted(Encode(r), env), a, pid);
            x.ok && MSG_ACK in x.conn.sent && x.conn.env == []
  {
    var huge := Letters(MSG_END - 1);
    r := Request(0, [Letters(1)], [], 0, 0, 0, 0, 0, [0, 1, 2], seq(MAX_VARS, _ => huge));
    assert Overlooked(r);
    RequestOverlooked(r, env, a, pid);
    AcceptIff(r, env, a, pid);
  }
}
