/** What the decoder makes of any stream at all, told from the records that the stream consists of. */
module AnyStream {
  import opened Basics
  import opened Protocol
  import opened Connections

  /** An action word with the stream that follows it. */
  datatype Record = Record(action: word, body: seq<Item>)

  /** Where the next action word is: every record is as long as what it counts and carries. */
  function Skip(action: word, body: seq<Item>): (r: Option<seq<Item>>)
    ensures r.Some? ==> |r.value| <= |body|
  {
    var (n, t) := ReadWord(body);
    if action == MSG_EXEC then Some(ReadStr(body).1)
    else if action == MSG_ARGS || action == MSG_ENV then Some(if 0 < n < 1024 then ReadStrs(t, n).rest else t)
    else if action == MSG_PRIO || action == MSG_DELAY then Some(t)
    else if action == MSG_IDS then Some(ReadWord(t).1)
    else if action == MSG_IO then Some(if body == [] then [] else body[1..])
    else None
  }

  /** The records of a stream, and whether they end with END. */
  function Records(s: seq<Item>): (seq<Record>, bool)
    decreases |s|
  {
    var (action, body) := ReadWord(s);
    if action == MSG_END then ([], true)
    else match Skip(action, body)
      case None => ([], false)
      case Some(t) => var (rs, ok) := Records(t); ([Record(action, body)] + rs, ok)
  }

  /** A file name that cannot be received and an io record without three descriptors set nothing. */
  predicate Sets(r: Record) {
    && (r.action == MSG_EXEC ==> ReadStr(r.body).0.Some?)
    && (r.action == MSG_IO ==> r.body != [] && |r.body[0].fds| == 3)
  }

  /** The body of the last record of this kind that sets something. */
  function Last(rs: seq<Record>, action: word): (b: Option<seq<Item>>)
    ensures b.Some? ==> Sets(Record(action, b.value))
  {
    if rs == [] then None
    else
      var later := Last(rs[1..], action);
      if later.Some? then later else if rs[0].action == action && Sets(rs[0]) then Some(rs[0].body) else None
  }

  function FirstWord(s: seq<Item>): word { ReadWord(s).0 }

  function SecondWord(s: seq<Item>): word { ReadWord(ReadWord(s).1).0 }

  /** The environment that an ENV record leaves: it is emptied first. */
  function EnvOf(body: seq<Item>): seq<Text> {
    var (n, t) := ReadWord(body);
    if 0 < n < 1024 then PutVariables([], ReadStrs(t, n).got) else []
  }

  // The fields of `d`, in terms of those of `c` and the records in between.

  ghost predicate NumbersFrom(c: Conn, rs: seq<Record>, d: Conn) {
    var (p, w, i) := (Last(rs, MSG_PRIO), Last(rs, MSG_DELAY), Last(rs, MSG_IDS));
    && d.priority == (if p.Some? then FirstWord(p.value) else c.priority)
    && d.delay == (if w.Some? then FirstWord(w.value) else c.delay)
    && d.uid == (if i.Some? then FirstWord(i.value) else c.uid)
    && d.gid == (if i.Some? then SecondWord(i.value) else c.gid)
  }

  ghost predicate OthersFrom(c: Conn, rs: seq<Record>, d: Conn) {
    var (x, o, v) := (Last(rs, MSG_EXEC), Last(rs, MSG_IO), Last(rs, MSG_ENV));
    && d.fileName == (if x.Some? then ReadStr(x.value).0.value else c.fileName)
    && d.io == (if o.Some? then o.value[0].fds else c.io)
    && d.env == (if v.Some? then EnvOf(v.value) else c.env)
    && d.sendPid == c.sendPid
  }

  lemma ReceiveSkips(c: Conn, action: word)
    ensures Receive(c, action).Some? <==> Skip(action, c.rest).Some?
    ensures Receive(c, action).Some? ==> Receive(c, action).value.rest == Skip(action, c.rest).value
  {
  }

  lemma LastOne(r: Record, action: word)
    ensures Last([r], action) == if r.action == action && Sets(r) then Some(r.body) else None
  {
    assert [r][1..] == [];
  }

  lemma LastMore(r: Record, rs: seq<Record>, action: word)
    ensures Last([r] + rs, action) == if Last(rs, action).Some? then Last(rs, action) else Last([r], action)
  {
    assert ([r] + rs)[1..] == rs && [r][1..] == [];
  }

  lemma ReceiveSets(c: Conn, action: word, body: seq<Item>, d: Conn)
    requires Receive(c.(rest := body), action) == Some(d)
    ensures NumbersFrom(c, [Record(action, body)], d) && OthersFrom(c, [Record(action, body)], d)
  {
    hide ReadStr, ReadStrs, ReadWord, PutVariables, Last;
    forall a: word { LastOne(Record(action, body), a); }
  }

  lemma NothingSets(c: Conn, body: seq<Item>, pid: word)
    ensures var c1 := c.(rest := body);
            && NumbersFrom(c, [], c1) && OthersFrom(c, [], c1)
            && NumbersFrom(c, [], Acknowledge(c1, pid)) && OthersFrom(c, [], Acknowledge(c1, pid))
  {
  }

  lemma ZeroIsNoAction(c: Conn)
    ensures Receive(c, 0).None?
  {
  }

  lemma WordShrinks(s: seq<Item>)
    ensures |ReadWord(s).1| <= |s| && (ReadWord(s).0 != 0 ==> |ReadWord(s).1| < |s|)
  {
  }

  lemma NumbersMore(c: Conn, r: Record, d: Conn, rs: seq<Record>, f: Conn)
    requires NumbersFrom(c, [r], d) && NumbersFrom(d, rs, f)
    ensures NumbersFrom(c, [r] + rs, f)
  {
    hide Last, ReadWord;
    LastMore(r, rs, MSG_PRIO);
    LastMore(r, rs, MSG_DELAY);
    LastMore(r, rs, MSG_IDS);
  }

  lemma OthersMore(c: Conn, r: Record, d: Conn, rs: seq<Record>, f: Conn)
    requires OthersFrom(c, [r], d) && OthersFrom(d, rs, f)
    ensures OthersFrom(c, [r] + rs, f)
  {
    hide Last, ReadStr, EnvOf;
    LastMore(r, rs, MSG_EXEC);
    LastMore(r, rs, MSG_IO);
    LastMore(r, rs, MSG_ENV);
  }

  /** The action loop accepts a stream if and only if its records end with END, and leaves in every
      field what the last record of that kind says. */
  lemma {:induction false} ActionsDecode(c: Conn, pid: word)
    ensures var (rs, ends) := Records(c.rest);
            var (d, ok) := ReceiveActions(c, pid);
            ok == ends && NumbersFrom(c, rs, d) && OthersFrom(c, rs, d)
    decreases |c.rest|
  {
    hide Receive, Skip, NumbersFrom, OthersFrom, ReadWord, Acknowledge;
    var (action, body) := ReadWord(c.rest);
    var c1 := c.(rest := body);
    ReceiveSkips(c1, action);
    NothingSets(c, body, pid);
    if action != MSG_END && Receive(c1, action).Some? {
      var d := Receive(c1, action).value;
      WordShrinks(c.rest);
      ZeroIsNoAction(c1);
      ReceiveShrinks(c1, action);
      ReceiveSets(c, action, body, d);
      ActionsDecode(d, pid);
      var (rs, f) := (Records(d.rest).0, ReceiveActions(d, pid).0);
      NumbersMore(c, Record(action, body), d, rs, f);
      OthersMore(c, Record(action, body), d, rs, f);
    }
  }

  // ---------------------------------------------------------------- the whole reception

  /** The upper half is the magic, and the version is another one than 3. */
  predicate BadVersion(w: word) { w / 0x1_0000 == 0xb007 && w / 0x100 % 0x100 != 3 }

  /** What follows the first two words. */
  function NamePart(s: seq<Item>): seq<Item> { ReadWord(ReadWord(s).1).1 }

  predicate HeadOk(s: seq<Item>) {
    && !BadVersion(FirstWord(s)) && SecondWord(s) == 0x5a5e_0000
    && ReadStr(NamePart(s)).0.Some? && ReadStr(NamePart(s)).0.value != []
  }

  function ActionPart(s: seq<Item>): seq<Item> { ReadStr(NamePart(s)).1 }

  lemma VersionIs(w: word)
    ensures w - w % 0x1_0000 == MSG_MAGIC <==> w / 0x1_0000 == 0xb007
    ensures w % 0x1_0000 - w % 0x100 == MSG_MAGIC_VERSION <==> w / 0x100 % 0x100 == 3
  {
    var (high, low) := (w / 0x1_0000, w % 0x1_0000);
    assert w == 0x1_0000 * high + low;
    assert low == 0x100 * (low / 0x100) + low % 0x100;
    assert w % 0x100 == low % 0x100 && w / 0x100 % 0x100 == low / 0x100;
  }

  lemma MagicChecks(c: Conn, w: word)
    ensures CheckMagic(c, w) == if BadVersion(w) then (c, 0xffff_ffff) else (c.(sendPid := w % 2 == 1), w % 0x100)
  {
    VersionIs(w);
  }

  lemma HeadReads(stream: seq<Item>, env: seq<Text>)
    ensures var (c, options) := ReceiveMagic(Accepted(stream, env));
            options == (if BadVersion(FirstWord(stream)) then 0xffff_ffff else FirstWord(stream) % 0x100)
    ensures !BadVersion(FirstWord(stream)) ==>
              var (d, name) := ReceiveAppName(ReceiveMagic(Accepted(stream, env)).0);
              && (name != [] <==> HeadOk(stream))
              && (name != [] ==> Some(name) == ReadStr(NamePart(stream)).0 &&
                                 d == Accepted(ActionPart(stream), env).(sendPid := FirstWord(stream) % 2 == 1))
  {
    hide ReadWord, ReadStr;
    MagicChecks(Accepted(stream, env).(rest := ReadWord(stream).1), FirstWord(stream));
  }

  /** The data that are filled in after the action loop. */
  ghost predicate FilledFrom(a: AppData, c: Conn) {
    && a.fileName == c.fileName && a.io == c.io && a.uid == c.uid && a.gid == c.gid
    && a.priority == ToInt32(c.priority) && a.delay == ToInt32(c.delay)
    && a.argc == ToInt32(c.argc) && a.argv == c.argv
  }

  /** On every stream, well-formed or not.  It is accepted if and only if the version is not a wrong one,
      the second word is NAME, a non-empty name follows, and the records after it end with END.  Then
      the options are the low byte of the first word, the invoker waits if and only if its lowest bit is
      set, and every field is what the last record of its kind says.  A rejected stream leaves all data
      but options and name as they were. */
  lemma StreamDecoded(stream: seq<Item>, env: seq<Text>, a: AppData, pid: word)
    ensures var x := ReceiveApplicationData(Accepted(stream, env), a, pid);
            var (rs, ends) := Records(ActionPart(stream));
            var w := FirstWord(stream);
            && (x.ok <==> HeadOk(stream) && ends)
            && x.app.options == (if BadVersion(w) then 0xffff_ffff else w % 0x100)
            && (x.ok ==>
                  && x.conn.sendPid == (w % 2 == 1) && Some(x.app.appName) == ReadStr(NamePart(stream)).0
                  && NumbersFrom(Accepted(stream, env), rs, x.conn)
                  && OthersFrom(Accepted(stream, env).(sendPid := x.conn.sendPid), rs, x.conn)
                  && FilledFrom(x.app, x.conn))
            && (!x.ok ==> x.app == a.(options := x.app.options, appName := x.app.appName))
  {
    hide ReceiveMagic, ReceiveAppName, ReceiveActions, Records, ReadStr, ReadWord, Last;
    HeadReads(stream, env);
    ActionsDecode(Accepted(ActionPart(stream), env).(sendPid := FirstWord(stream) % 2 == 1), pid);
  }
}
