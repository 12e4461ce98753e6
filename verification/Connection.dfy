/** The booster's side of a connection: decoding a launch request and answering it. */
module Connections {
  import opened Basics
  import opened Protocol

  /** An element of the argument vector: not assigned yet, a null pointer, or a string. */
  datatype Slot = Unset | Null | Arg(text: Text)

  /** Everything a connection and the process environment hold; `rest` is the unread stream and
      `sent` the words written back. */
  datatype Conn = Conn(
    open: bool,
    rest: seq<Item>,
    fileName: Text,
    argc: word,
    argv: seq<Slot>,
    io: seq<int32>,
    priority: word,
    delay: word,
    sendPid: bool,
    uid: word,
    gid: word,
    sent: seq<word>,
    env: seq<Text>)

  datatype AppData = AppData(
    options: word,
    appName: Text,
    fileName: Text,
    argc: int32,
    argv: seq<Slot>,
    priority: int32,
    delay: int32,
    io: seq<int32>,
    uid: word,
    gid: word)

  // ---------------------------------------------------------------- the environment

  const EQUALS: byte := 61

  /** The name part of an environment string, up to the first '='. */
  function NameOf(v: Text): Text {
    if v == [] || v[0] == EQUALS then [] else [v[0]] + NameOf(v[1..])
  }

  /** putenv: replaces the first entry of the same name, or appends. */
  function PutEnv(env: seq<Text>, v: Text): (r: seq<Text>)
    ensures |env| <= |r| <= |env| + 1
  {
    if env == [] then [v]
    else if NameOf(env[0]) == NameOf(v) then [v] + env[1..]
    else [env[0]] + PutEnv(env[1..], v)
  }

  /** One received variable: strings without '=' are dropped. */
  function PutVariable(env: seq<Text>, v: Text): seq<Text> {
    if EQUALS in v then PutEnv(env, v) else env
  }

  function PutVariables(env: seq<Text>, vs: seq<Text>): seq<Text>
    decreases |vs|
  {
    if vs == [] then env else PutVariables(PutVariable(env, vs[0]), vs[1..])
  }

  // ---------------------------------------------------------------- receiving

  function SendMsg(c: Conn, w: word): Conn {
    if c.open then c.(sent := c.sent + [w]) else c
  }

  /** The version is looked at only if the upper half of the word is the magic. */
  function CheckMagic(c: Conn, magic: word): (Conn, word) {
    if magic - magic % 0x1_0000 == MSG_MAGIC && magic % 0x1_0000 - magic % 0x100 != MSG_MAGIC_VERSION
    then (c, 0xffff_ffff)
    else (c.(sendPid := magic % 2 == OPTION_WAIT), magic % 0x100)
  }

  function ReceiveMagic(c: Conn): (Conn, word) {
    var (magic, rest) := ReadWord(c.rest);
    CheckMagic(c.(rest := rest), magic)
  }

  function ReceiveAppName(c: Conn): (Conn, Text) {
    var (msg, rest) := ReadWord(c.rest);
    if msg != MSG_NAME then (c.(rest := rest), [])
    else match ReadStr(rest)
      case (None, t) => (c.(rest := t), [])
      case (Some(name), t) => (c.(rest := t), name)
  }

  function ReceiveExec(c: Conn): Conn {
    match ReadStr(c.rest)
    case (None, t) => c.(rest := t)
    case (Some(f), t) => c.(rest := t, fileName := f)
  }

  const ARG_MAX: word := 1024
  const MAX_VARS: word := 1024

  /** The vector after reading: the strings, and after a failure a null and unassigned elements. */
  function ArgSlots(r: Strings, argc: nat): (a: seq<Slot>)
    requires if r.ok then |r.got| == argc else |r.got| < argc
    ensures |a| == argc
  {
    seq(argc, i requires 0 <= i < argc => if i < |r.got| then Arg(r.got[i]) else if i == |r.got| then Null else Unset)
  }

  function ReceiveArgs(c: Conn): Conn {
    var (argc, rest) := ReadWord(c.rest);
    if 0 < argc < ARG_MAX then
      var r := ReadStrs(rest, argc);
      c.(argc := argc, argv := ArgSlots(r, argc), rest := r.rest)
    else c.(argc := argc, rest := rest)
  }

  function ReceiveEnv(c: Conn): Conn {
    var (n, rest) := ReadWord(c.rest);
    if 0 < n < MAX_VARS then
      var r := ReadStrs(rest, n);
      c.(env := PutVariables(c.env, r.got), rest := r.rest)
    else c.(rest := rest)
  }

  function ReceivePriority(c: Conn): Conn {
    var (w, rest) := ReadWord(c.rest);
    c.(priority := w, rest := rest)
  }

  function ReceiveDelay(c: Conn): Conn {
    var (w, rest) := ReadWord(c.rest);
    c.(delay := w, rest := rest)
  }

  function ReceiveIDs(c: Conn): Conn {
    var (u, t) := ReadWord(c.rest);
    var (g, rest) := ReadWord(t);
    c.(uid := u, gid := g, rest := rest)
  }

  /** recvmsg of one byte; the descriptors are taken only if there are exactly three. */
  function ReceiveIO(c: Conn): Conn {
    if c.rest == [] then c
    else if |c.rest[0].fds| != 3 then c.(rest := c.rest[1..])
    else c.(rest := c.rest[1..], io := c.rest[0].fds)
  }

  /** The result of the receiver for one action word, whose own verdict is ignored. */
  function Receive(c: Conn, action: word): Option<Conn> {
    if action == MSG_EXEC then Some(ReceiveExec(c))
    else if action == MSG_ARGS then Some(ReceiveArgs(c))
    else if action == MSG_ENV then Some(ReceiveEnv(c.(env := [])))
    else if action == MSG_PRIO then Some(ReceivePriority(c))
    else if action == MSG_DELAY then Some(ReceiveDelay(c))
    else if action == MSG_IO then Some(ReceiveIO(c))
    else if action == MSG_IDS then Some(ReceiveIDs(c))
    else None
  }

  function Acknowledge(c: Conn, pid: word): Conn {
    var c1 := SendMsg(c, MSG_ACK);
    if c.sendPid then SendMsg(SendMsg(c1, MSG_PID), pid) else c1
  }

  lemma ReceiveShrinks(c: Conn, action: word)
    ensures Receive(c, action).Some? ==> |Receive(c, action).value.rest| <= |c.rest|
  {
  }

  /** The action loop: it ends at END, and at any word that is not an action. */
  function ReceiveActions(c: Conn, pid: word): (Conn, bool)
    decreases |c.rest|
  {
    var (action, rest) := ReadWord(c.rest);
    var c1 := c.(rest := rest);
    if action == MSG_END then (Acknowledge(c1, pid), true)
    else match Receive(c1, action)
      case None => (c1, false)
      case Some(c2) => ReceiveShrinks(c1, action); ReceiveActions(c2, pid)
  }

  datatype Reception = Reception(conn: Conn, app: AppData, ok: bool)

  function Filled(a: AppData, c: Conn): AppData {
    a.(fileName := c.fileName, priority := ToInt32(c.priority), delay := ToInt32(c.delay),
       argc := ToInt32(c.argc), argv := c.argv, io := c.io, uid := c.uid, gid := c.gid)
  }

  /** The launch data are filled in only when the actions were accepted. */
  function Received(x: (Conn, bool), a: AppData): Reception {
    Reception(x.0, if x.1 then Filled(a, x.0) else a, x.1)
  }

  function ReceiveApplicationData(c: Conn, a: AppData, pid: word): Reception {
    var (c1, options) := ReceiveMagic(c);
    var a1 := a.(options := options);
    if options == 0xffff_ffff then Reception(c1, a1, false)
    else
      var (c2, name) := ReceiveAppName(c1);
      var a2 := a1.(appName := name);
      if name == [] then Reception(c2, a2, false)
      else
        Received(ReceiveActions(c2, pid), a2)
  }

  /** A connection as accepted: nothing received yet, no descriptors. */
  function Accepted(stream: seq<Item>, env: seq<Text>): Conn {
    Conn(true, stream, [], 0, [], [-1, -1, -1], 0, 0, false, 0, 0, [], env)
  }
}
