/** The connection object of the booster: its methods consume the stream and fill in its fields. */
module BoosterConnection {
  import opened Basics
  import opened Protocol
  import opened Connections
  import opened AnyStream

  /** The environment is global to the process: it outlives every connection. */
  class Environment {
    var vars: seq<Text>

    constructor (vs: seq<Text>)
      ensures vars == vs
    {
      vars := vs;
    }

    method PutEnv(v: Text)
      modifies this
      ensures vars == Connections.PutEnv(old(vars), v)
    {
      vars := Connections.PutEnv(vars, v);
    }

    /** A string without '=' is dropped. */
    method PutReceived(v: Text)
      modifies this
      ensures vars == PutVariable(old(vars), v)
    {
      if EQUALS in v { PutEnv(v); }
    }

    method Clear()
      modifies this
      ensures vars == []
    {
      vars := [];
    }
  }

  // ---------------------------------------------------------------- the two loops over strings

  /** What remains of the loop over the arguments, from the `i`-th on. */
  ghost function ArgvLoop(slots: seq<Slot>, i: nat, s: seq<Item>): (seq<Slot>, seq<Item>, bool)
    requires i <= |slots|
    decreases |slots| - i
  {
    if i == |slots| then (slots, s, true)
    else match ReadStr(s)
      case (None, t) => (slots[i := Null], t, false)
      case (Some(x), t) => ArgvLoop(slots[i := Arg(x)], i + 1, t)
  }

  /** The first `got` of the slots are filled in already. */
  ghost predicate FilledUpTo(slots: seq<Slot>, got: seq<Text>) {
    |got| <= |slots| &&
    forall i :: 0 <= i < |slots| ==> slots[i] == if i < |got| then Arg(got[i]) else Unset
  }

  lemma FilledNext(slots: seq<Slot>, got: seq<Text>, x: Text)
    requires FilledUpTo(slots, got) && |got| < |slots|
    ensures FilledUpTo(slots[|got| := Arg(x)], got + [x])
  {
  }

  lemma ArgvLoopStep(slots: seq<Slot>, got: seq<Text>, s: seq<Item>, x: Text, t: seq<Item>,
                     end: (seq<Slot>, seq<Item>, bool))
    requires |got| < |slots| && ReadStr(s) == (Some(x), t)
    requires ArgvLoop(slots[|got| := Arg(x)], |got| + 1, t) == end
    ensures ArgvLoop(slots, |got|, s) == end
  {
  }

  /** How the loop ends when it reads `r` after `got`. */
  ghost function LoopEnd(got: seq<Text>, r: Strings, n: nat): (seq<Slot>, seq<Item>, bool)
    requires if r.ok then |got| + |r.got| == n else |got| + |r.got| < n
  {
    (ArgSlots(Strings(got + r.got, r.ok, r.rest), n), r.rest, r.ok)
  }

  lemma LoopEndNext(got: seq<Text>, x: Text, r: Strings, n: nat)
    requires if r.ok then |got| + 1 + |r.got| == n else |got| + 1 + |r.got| < n
    ensures LoopEnd(got, Strings([x] + r.got, r.ok, r.rest), n) == LoopEnd(got + [x], r, n)
  {
    assert got + [x] + r.got == got + ([x] + r.got);
  }

  lemma {:induction false} ArgvLoopIs(slots: seq<Slot>, got: seq<Text>, s: seq<Item>)
    requires FilledUpTo(slots, got)
    ensures ArgvLoop(slots, |got|, s) == LoopEnd(got, ReadStrs(s, |slots| - |got|), |slots|)
    decreases |slots| - |got|
  {
    hide ReadStr;
    if |got| == |slots| {
      assert slots == ArgSlots(Strings(got + [], true, s), |slots|);
    } else {
      var (x, t) := ReadStr(s);
      if x.None? {
        assert slots[|got| := Null] == ArgSlots(Strings(got + [], false, t), |slots|);
      } else {
        var r := ReadStrs(t, |slots| - |got| - 1);
        FilledNext(slots, got, x.value);
        ArgvLoopIs(slots[|got| := Arg(x.value)], got + [x.value], t);
        ArgvLoopStep(slots, got, s, x.value, t, LoopEnd(got + [x.value], r, |slots|));
        LoopEndNext(got, x.value, r, |slots|);
      }
    }
  }

  lemma LoopEndStart(r: Strings, n: nat)
    requires if r.ok then |r.got| == n else |r.got| < n
    ensures LoopEnd([], r, n) == (ArgSlots(r, n), r.rest, r.ok)
  {
    assert [] + r.got == r.got;
  }

  lemma ArgvLoopFromStart(slots: seq<Slot>, s: seq<Item>, r: Strings)
    requires FilledUpTo(slots, []) && r == ReadStrs(s, |slots|)
    ensures ArgvLoop(slots, 0, s) == (ArgSlots(r, |slots|), r.rest, r.ok)
  {
    hide ReadStr;
    ArgvLoopIs(slots, [], s);
    LoopEndStart(r, |slots|);
  }

  /** What remains of the loop over `n` variables. */
  ghost function EnvLoop(env: seq<Text>, n: nat, s: seq<Item>): (seq<Text>, seq<Item>, bool)
    decreases n
  {
    if n == 0 then (env, s, true)
    else match ReadStr(s)
      case (None, t) => (env, t, false)
      case (Some(v), t) => EnvLoop(PutVariable(env, v), n - 1, t)
  }

  lemma PutFirst(env: seq<Text>, v: Text, vs: seq<Text>)
    ensures PutVariables(env, [v] + vs) == PutVariables(PutVariable(env, v), vs)
  {
    assert ([v] + vs)[1..] == vs;
  }

  /** The loop over `n` variables ends as reading `r` says. */
  ghost predicate EnvLoopEnds(env: seq<Text>, n: nat, s: seq<Item>, r: Strings) {
    EnvLoop(env, n, s) == (PutVariables(env, r.got), r.rest, r.ok)
  }

  /** The loop over `n` variables ends as reading `n` strings does. */
  ghost predicate EnvLoopReads(env: seq<Text>, n: nat, s: seq<Item>) { EnvLoopEnds(env, n, s, ReadStrs(s, n)) }

  lemma EnvLoopStep(env: seq<Text>, n: nat, s: seq<Item>, v: Text, t: seq<Item>, r: Strings)
    requires ReadStr(s) == (Some(v), t) && EnvLoopEnds(PutVariable(env, v), n, t, r)
    ensures EnvLoopEnds(env, n + 1, s, r.(got := [v] + r.got))
  {
    hide ReadStr;
    PutFirst(env, v, r.got);
  }

  lemma EnvLoopStops(env: seq<Text>, s: seq<Item>)
    ensures EnvLoopReads(env, 0, s)
  {
  }

  lemma EnvLoopFails(env: seq<Text>, n: nat, s: seq<Item>, t: seq<Item>)
    requires ReadStr(s) == (None, t)
    ensures EnvLoopEnds(env, n + 1, s, Strings([], false, t))
  {
  }

  lemma ReadStrsStep(n: nat, s: seq<Item>, x: Option<Text>, t: seq<Item>)
    requires ReadStr(s) == (x, t)
    ensures ReadStrs(s, n + 1)
         == if x.None? then Strings([], false, t) else var r := ReadStrs(t, n); r.(got := [x.value] + r.got)
  {
  }

  lemma EnvLoopGoesOn(env: seq<Text>, n: nat, s: seq<Item>, v: Text, t: seq<Item>)
    requires n > 0 && ReadStr(s) == (Some(v), t) && EnvLoopReads(PutVariable(env, v), n - 1, t)
    ensures EnvLoopReads(env, n, s)
  {
    hide ReadStr;
    ReadStrsStep(n - 1, s, Some(v), t);
    EnvLoopStep(env, n - 1, s, v, t, ReadStrs(t, n - 1));
  }

  lemma EnvLoopGivesUp(env: seq<Text>, n: nat, s: seq<Item>, t: seq<Item>)
    requires n > 0 && ReadStr(s) == (None, t)
    ensures EnvLoopReads(env, n, s)
  {
    ReadStrsStep(n - 1, s, None, t);
    EnvLoopFails(env, n - 1, s, t);
  }

  lemma {:induction false} EnvLoopIs(env: seq<Text>, n: nat, s: seq<Item>)
    ensures EnvLoopReads(env, n, s)
    decreases n
  {
    hide ReadStr;
    if n == 0 {
      EnvLoopStops(env, s);
    } else if ReadStr(s).0.None? {
      EnvLoopGivesUp(env, n, s, ReadStr(s).1);
    } else {
      var v, t := ReadStr(s).0.value, ReadStr(s).1;
      EnvLoopIs(PutVariable(env, v), n - 1, t);
      EnvLoopGoesOn(env, n, s, v, t);
    }
  }

  // ---------------------------------------------------------------- the connection

  class Connection {
    var fd: bool               // whether the descriptor is open
    var stream: seq<Item>
    var fileName: Text
    var argc: word
    var argv: seq<Slot>
    var io: seq<int32>
    var priority: word
    var delay: word
    var sendPid: bool
    var uid: word
    var gid: word
    var sent: seq<word>
    const environ: Environment

    constructor (s: seq<Item>, e: Environment)
      ensures fresh(this) && environ == e && C() == Accepted(s, e.vars)
    {
      fd, stream, fileName, argc, argv := true, s, [], 0, [];
      io, priority, delay, sendPid, uid, gid, sent := [-1, -1, -1], 0, 0, false, 0, 0, [];
      environ := e;
    }

    ghost function C(): Conn
      reads this, environ
    {
      Conn(fd, stream, fileName, argc, argv, io, priority, delay, sendPid, uid, gid, sent, environ.vars)
    }

    method Close()
      modifies this
      ensures C() == old(C()).(open := false)
    {
      fd := false;
    }

    method SendMsg(w: word)
      modifies this
      ensures C() == Connections.SendMsg(old(C()), w)
    {
      if fd { sent := sent + [w]; }
    }

    method SendPid(pid: word)
      modifies this
      ensures C() == Connections.SendMsg(Connections.SendMsg(old(C()), MSG_PID), pid)
    {
      SendMsg(MSG_PID);
      SendMsg(pid);
    }

    method SendExitValue(value: int32)
      modifies this
      ensures C() == Connections.SendMsg(Connections.SendMsg(old(C()), MSG_EXIT), ToWord(value))
    {
      SendMsg(MSG_EXIT);
      SendMsg(ToWord(value));
    }

    method RecvMsg() returns (w: word)
      modifies this`stream
      ensures (w, stream) == ReadWord(old(stream))
      // a word that was sent is received, and a short read takes what is left
      ensures forall v: word, t :: old(stream) == EncodeWord(v) + t ==> w == v && stream == t
      ensures |old(stream)| < 4 ==> w == 0 && stream == []
    {
      forall v: word, t | stream == EncodeWord(v) + t ensures ReadWord(stream) == (v, t) { ReadWordOf(v, t); }
      if |stream| < 4 {
        w, stream := 0, [];
      } else {
        w, stream := WordOf(stream[0].b, stream[1].b, stream[2].b, stream[3].b), stream[4..];
      }
    }

    method RecvStr() returns (s: Option<Text>)
      modifies this`stream
      ensures (s, stream) == ReadStr(old(stream))
      // a size from 1 to 4096 is needed, and as many bytes; the string ends before the first NUL
      ensures var (w, t) := ReadWord(old(stream));
              && (s.Some? <==> 1 <= w <= 4096 && w <= |t|)
              && (s.Some? ==> stream == t[w..] && NulFree(s.value) && s.value <= Bytes(t[..w - 1]) &&
                              (|s.value| < w - 1 ==> t[|s.value|].b == 0))
              && (s.None? ==> stream == if 1 <= w <= 4096 then [] else t)
    {
      var size := RecvMsg();
      if size == 0 || size > STR_LEN_MAX { return None; }
      if |stream| < size {
        stream := [];
        return None;
      }
      s := Some(CString(Bytes(stream[..size - 1])));
      CStringIs(Bytes(stream[..size - 1]));
      stream := stream[size..];
    }

    method ReceiveMagic() returns (options: word)
      modifies this
      ensures (C(), options) == Connections.ReceiveMagic(old(C()))
      ensures var w := FirstWord(old(stream));
              if w / 0x1_0000 == 0xb007 && w / 0x100 % 0x100 != 3
              then options == 0xffff_ffff && sendPid == old(sendPid)
              else options == w % 0x100 && (sendPid <==> w % 2 == 1)
    {
      hide ReadWord;
      var magic := RecvMsg();
      MagicChecks(C(), magic);
      if magic - magic % 0x1_0000 == MSG_MAGIC {
        if magic % 0x1_0000 - magic % 0x100 != MSG_MAGIC_VERSION { return 0xffff_ffff; }
      }
      sendPid := magic % 2 == OPTION_WAIT;
      options := magic % 0x100;
    }

    method ReceiveAppName() returns (name: Text)
      modifies this
      ensures (C(), name) == Connections.ReceiveAppName(old(C()))
    {
      var msg := RecvMsg();
      if msg != MSG_NAME { return []; }
      var s := RecvStr();
      name := match s case None => [] case Some(n) => n;
    }

    method ReceiveExec() returns (ok: bool)
      modifies this
      ensures C() == Connections.ReceiveExec(old(C()))
    {
      var s := RecvStr();
      ok := s.Some?;
      if ok { fileName := s.value; }
    }

    method ReceivePriority()
      modifies this
      ensures C() == Connections.ReceivePriority(old(C()))
    {
      priority := RecvMsg();
    }

    method ReceiveDelay()
      modifies this
      ensures C() == Connections.ReceiveDelay(old(C()))
    {
      delay := RecvMsg();
    }

    method ReceiveIDs()
      modifies this
      ensures C() == Connections.ReceiveIDs(old(C()))
    {
      uid := RecvMsg();
      gid := RecvMsg();
    }

    method ReceiveIO() returns (ok: bool)
      modifies this
      ensures C() == Connections.ReceiveIO(old(C()))
    {
      if stream == [] { return false; }
      var fds := stream[0].fds;
      stream := stream[1..];
      if |fds| != 3 { return false; }
      io := fds;
      ok := true;
    }

    /** The loop that reads the arguments. */
    method FillArgv() returns (ok: bool)
      modifies this`argv, this`stream
      ensures (argv, stream, ok) == ArgvLoop(old(argv), 0, old(stream))
    {
      ghost var end := ArgvLoop(argv, 0, stream);
      ghost var n := |argv|;
      for i := 0 to |argv|
        invariant |argv| == n && ArgvLoop(argv, i, stream) == end
      {
        var s := RecvStr();
        if s.None? {
          argv := argv[i := Null];
          return false;
        }
        argv := argv[i := Arg(s.value)];
      }
      ok := true;
    }

    method ReadArgv() returns (ok: bool)
      modifies this`argv, this`stream
      ensures var r := ReadStrs(old(stream), argc);
              argv == ArgSlots(r, argc) && stream == r.rest && ok == r.ok
    {
      argv := seq(argc, _ => Unset);
      ArgvLoopFromStart(argv, stream, ReadStrs(stream, argc));
      ok := FillArgv();
    }

    method ReceiveArgs() returns (ok: bool)
      modifies this
      ensures C() == Connections.ReceiveArgs(old(C()))
    {
      argc := RecvMsg();
      if !(0 < argc < ARG_MAX) { return false; }
      ok := ReadArgv();
    }

    /** One turn of the loop over the variables, of which `n` are left after it. */
    method NextVariable(ghost n: nat, ghost end: (seq<Text>, seq<Item>, bool)) returns (ok: bool)
      requires EnvLoop(environ.vars, n + 1, stream) == end
      modifies this`stream, environ
      ensures if ok then EnvLoop(environ.vars, n, stream) == end else (environ.vars, stream, false) == end
    {
      var v := RecvStr();
      ok := v.Some?;
      if ok { environ.PutReceived(v.value); }
    }

    /** The loop that reads the variables. */
    method PutReceived(count: nat) returns (ok: bool)
      modifies this`stream, environ
      ensures (environ.vars, stream, ok) == EnvLoop(old(environ.vars), count, old(stream))
    {
      ghost var end := EnvLoop(environ.vars, count, stream);
      ghost var left := count;
      for i := 0 to count
        invariant left == count - i && EnvLoop(environ.vars, left, stream) == end
      {
        left := left - 1;
        ok := NextVariable(left, end);
        if !ok { return false; }
      }
      ok := true;
    }

    method ReceiveEnv() returns (ok: bool)
      modifies this, environ
      ensures C() == Connections.ReceiveEnv(old(C()))
    {
      var count := RecvMsg();
      if !(0 < count < MAX_VARS) { return false; }
      EnvLoopIs(environ.vars, count, stream);
      ok := PutReceived(count);
    }

    /** The switch of the action loop; the verdicts of the receivers are ignored. */
    method ReceiveRecord(action: word) returns (known: bool)
      requires action != MSG_END
      modifies this, environ
      ensures Receive(old(C()), action) == if known then Some(C()) else None
      ensures !known ==> C() == old(C())
    {
      known := true;
      if action == MSG_EXEC {
        var _ := ReceiveExec();
      } else if action == MSG_ARGS {
        var _ := ReceiveArgs();
      } else if action == MSG_ENV {
        environ.Clear();
        var _ := ReceiveEnv();
      } else if action == MSG_PRIO {
        ReceivePriority();
      } else if action == MSG_DELAY {
        ReceiveDelay();
      } else if action == MSG_IO {
        var _ := ReceiveIO();
      } else if action == MSG_IDS {
        ReceiveIDs();
      } else {
        known := false;
      }
    }

    /** Every turn consumes a whole word or returns. */
    method ReceiveActions(pid: word) returns (ok: bool)
      modifies this, environ
      ensures (C(), ok) == Connections.ReceiveActions(old(C()), pid)
    {
      while true
        invariant Connections.ReceiveActions(C(), pid) == Connections.ReceiveActions(old(C()), pid)
        decreases |stream|
      {
        ghost var before := C();
        var action := RecvMsg();
        ReceiveShrinks(C(), action);
        if action == MSG_END {
          SendMsg(MSG_ACK);
          if sendPid { SendPid(pid); }
          return true;
        }
        var known := ReceiveRecord(action);
        if !known { return false; }
      }
    }

    method ReceiveApplicationData(a: AppData, pid: word) returns (app: AppData, ok: bool)
      modifies this, environ
      ensures Reception(C(), app, ok) == Connections.ReceiveApplicationData(old(C()), a, pid)
    {
      app := a;
      var options := ReceiveMagic();
      app := app.(options := options);
      if options == 0xffff_ffff { return app, false; }
      var name := ReceiveAppName();
      app := app.(appName := name);
      if name == [] { return app, false; }
      ok := ReceiveActions(pid);
      if ok {
        app := app.(fileName := fileName, priority := ToInt32(priority), delay := ToInt32(delay),
                    argc := ToInt32(argc), argv := argv, io := io, uid := uid, gid := gid);
      }
    }
  }
}
