/** Which accepted streams leave an argument vector that a process can be renamed after. */
module ArgumentVector {
  import opened Basics
  import opened Protocol
  import opened Requests
  import opened Connections
  import opened AnyStream
  import opened WireTheorems

  /** There are as many elements as the count says, at least one, and none is null or unassigned. */
  predicate Usable(argc: int, argv: seq<Slot>) {
    0 < argc == |argv| && forall i :: 0 <= i < |argv| ==> argv[i].Arg?
  }

  /** The count is within the limits and every string can be received. */
  predicate Complete(body: seq<Item>) {
    var (n, t) := ReadWord(body);
    0 < n < 1024 && ReadStrs(t, n).ok
  }

  function ArgStrings(body: seq<Item>): seq<Text> {
    var (n, t) := ReadWord(body);
    ReadStrs(t, n).got
  }

  lemma ArgsDecide(c: Conn)
    requires |c.argv| < ARG_MAX
    ensures var d := ReceiveArgs(c);
            && |d.argv| < ARG_MAX && d.argc == FirstWord(c.rest) && (Usable(d.argc, d.argv) <==> Complete(c.rest))
            && (Complete(c.rest) ==> d.argv == ArgsOf(ArgStrings(c.rest)))
  {
    hide ReadStrs;
    var (n, t) := ReadWord(c.rest);
    if 0 < n < ARG_MAX {
      var r := ReadStrs(t, n);
      if !r.ok { assert ArgSlots(r, n)[|r.got|] == Null; }
    }
  }

  /** The vector that `d` has, when `c` had one before these records. */
  ghost predicate VectorFrom(c: Conn, rs: seq<Record>, d: Conn) {
    var last := Last(rs, MSG_ARGS);
    && |d.argv| < ARG_MAX
    && (Usable(d.argc, d.argv) <==> if last.None? then Usable(c.argc, c.argv) else Complete(last.value))
    && (last.Some? ==> d.argc == FirstWord(last.value))
    && (last.Some? && Complete(last.value) ==> d.argv == ArgsOf(ArgStrings(last.value)))
    && (last.None? ==> d.argc == c.argc && d.argv == c.argv)
  }

  lemma VectorMore(c: Conn, r: Record, d: Conn, rs: seq<Record>, f: Conn)
    requires VectorFrom(c, [r], d) && VectorFrom(d, rs, f)
    ensures VectorFrom(c, [r] + rs, f)
  {
    hide Last, Complete, Usable, FirstWord, ArgStrings;
    LastMore(r, rs, MSG_ARGS);
  }

  lemma OneRecord(c: Conn, action: word, body: seq<Item>, d: Conn)
    requires |c.argv| < ARG_MAX && Receive(c.(rest := body), action) == Some(d)
    ensures VectorFrom(c, [Record(action, body)], d)
  {
    hide ReadStrs, ReadStr, Last, Complete, Usable, ArgStrings;
    LastOne(Record(action, body), MSG_ARGS);
    if action == MSG_ARGS { ArgsDecide(c.(rest := body)); }
  }

  lemma NoVector(c: Conn, body: seq<Item>, pid: word)
    requires |c.argv| < ARG_MAX
    ensures VectorFrom(c, [], c.(rest := body)) && VectorFrom(c, [], Acknowledge(c.(rest := body), pid))
  {
  }

  lemma VectorShort(c: Conn, rs: seq<Record>, d: Conn)
    requires VectorFrom(c, rs, d)
    ensures |d.argv| < ARG_MAX
  {
  }

  /** The last ARGS record decides. */
  lemma {:induction false} LastArgsDecide(c: Conn, pid: word)
    requires |c.argv| < ARG_MAX
    ensures VectorFrom(c, Records(c.rest).0, ReceiveActions(c, pid).0)
    decreases |c.rest|
  {
    hide Usable, Complete, Receive, Skip, VectorFrom, ReadWord;
    var (action, body) := ReadWord(c.rest);
    var c1 := c.(rest := body);
    ReceiveSkips(c1, action);
    NoVector(c, body, pid);
    if action != MSG_END && Receive(c1, action).Some? {
      var d := Receive(c1, action).value;
      WordShrinks(c.rest);
      ZeroIsNoAction(c1);
      ReceiveShrinks(c1, action);
      OneRecord(c, action, body, d);
      VectorShort(c, [Record(action, body)], d);
      LastArgsDecide(d, pid);
      VectorMore(c, Record(action, body), d, Records(d.rest).0, ReceiveActions(d, pid).0);
    }
  }

  /** Exactly which accepted streams leave a vector to be renamed after: those with an ARGS record of
      which the last is complete, and then it is the strings of that record.  In any other, renaming
      would be skipped or meet an element that is null, unassigned or beyond the end. */
  lemma UsableIff(stream: seq<Item>, env: seq<Text>, a: AppData, pid: word)
    ensures var x := ReceiveApplicationData(Accepted(stream, env), a, pid);
            var last := Last(Records(ActionPart(stream)).0, MSG_ARGS);
            && (x.ok ==> (Usable(x.app.argc, x.app.argv) <==> last.Some? && Complete(last.value)))
            && (x.ok && last.Some? && Complete(last.value) ==> x.app.argv == ArgsOf(ArgStrings(last.value)))
  {
    hide ReceiveActions, Records, Complete, Last, ReadStr, ReadWord, ArgStrings;
    HeadReads(stream, env);
    LastArgsDecide(Accepted(ActionPart(stream), env).(sendPid := FirstWord(stream) % 2 == 1), pid);
  }

  /** What an invoker sends, if it is accepted, always leaves such a vector. */
  lemma RequestsUsable(r: Request, env: seq<Text>, a: AppData, pid: word)
    requires Encodable(r)
    ensures var x := ReceiveApplicationData(Accepted(Encode(r), env), a, pid);
            x.ok ==> Usable(x.app.argc, x.app.argv)
  {
    hide ReceiveApplicationData, Encode;
    AcceptIff(r, env, a, pid);
  }

  /** One argument, whose size is 0. */
  lemma EmptySize(c: Conn, pid: word)
    requires c.rest == EncodeWord(MSG_ARGS) + (EncodeWord(1) + (EncodeWord(0) + EncodeWord(MSG_END)))
    ensures ReceiveActions(c, pid)
         == (Acknowledge(c.(rest := [], argc := 1, argv := [Null]), pid), true)
  {
    hide EncodeWord;
    TwoWords(MSG_ARGS, 1, EncodeWord(0) + EncodeWord(MSG_END));
    ReadWordOf(0, EncodeWord(MSG_END));
    var c1 := c.(rest := EncodeWord(1) + (EncodeWord(0) + EncodeWord(MSG_END)));
    var d := c.(rest := EncodeWord(MSG_END), argc := 1, argv := [Null]);
    assert ReceiveArgs(c1) == d;
    TurnRuns(c, MSG_ARGS, d, pid);
    EndTurn(d, pid);
  }

  /** A stream that is accepted although its only argument cannot be received: the vector is one null
      pointer. */
  lemma NullArgument(env: seq<Text>, a: AppData, pid: word) returns (stream: seq<Item>)
    ensures var x := ReceiveApplicationData(Accepted(stream, env), a, pid);
            x.ok && x.app.argc == 1 && x.app.argv == [Null] && MSG_ACK in x.conn.sent
  {
    var t := EncodeWord(MSG_ARGS) + (EncodeWord(1) + (EncodeWord(0) + EncodeWord(MSG_END)));
    var name: Text := [97];
    stream := EncodeWord(MSG_MAGIC + MSG_MAGIC_VERSION + 0) + (EncodeWord(MSG_NAME) + (EncodeStr(name) + t));
    Begins(stream, env, 0, name, t);
    HeadReceived(Accepted(stream, env), 0, name, t, a, pid);
    EmptySize(Accepted(stream, env).(rest := t, sendPid := false), pid);
  }
}
