/** The hand-over file of a re-exec: what is printed, and how it is read back, character by
    character as the C++ streams do it. */
module StateFile {
  import opened Basics

  datatype Snapshot = Snapshot(
    debugMode: bool,
    children: seq<int32>,
    toPid: map<int32, int32>,
    toFd: map<int32, int32>,
    boosterPid: int32,
    launcherSocket: (int32, int32),
    sigPipe: (int32, int32),
    bootMode: bool,
    sockets: map<string, int32>)

  // ---------------------------------------------------------------- numbers

  const MAX_INT32: int := 0x7fff_ffff

  function Digit(d: int): char
    requires 0 <= d < 10
  {
    (d + '0' as int) as char
  }

  predicate IsDigit(c: char) { '0' <= c <= '9' }

  function ShowNat(n: nat): string {
    if n < 10 then [Digit(n)] else ShowNat(n / 10) + [Digit(n % 10)]
  }

  function ShowInt(n: int): string {
    if n < 0 then "-" + ShowNat(-n) else ShowNat(n)
  }

  function ShowBool(b: bool): string { if b then "1" else "0" }

  function ValueOf(digits: string): nat
    requires forall c :: c in digits ==> IsDigit(c)
  {
    if digits == "" then 0
    else
      assert IsDigit(digits[|digits| - 1]);
      10 * ValueOf(digits[..|digits| - 1]) + (digits[|digits| - 1] as int - '0' as int)
  }

  // ---------------------------------------------------------------- extraction from a stream

  /** isspace in the "C" locale. */
  predicate IsSpace(c: char) {
    c == ' ' || c == '\t' || c == '\n' || c == '\U{0B}' || c == '\U{0C}' || c == '\r'
  }

  function SkipSpace(s: string): (r: string)
    ensures |r| <= |s|
  {
    if s != "" && IsSpace(s[0]) then SkipSpace(s[1..]) else s
  }

  /** The length of the longest prefix without white space. */
  function WordLength(s: string): (n: nat)
    ensures n <= |s|
  {
    if s == "" || IsSpace(s[0]) then 0 else 1 + WordLength(s[1..])
  }

  function DigitLength(s: string): (n: nat)
    ensures n <= |s| && forall i :: 0 <= i < n ==> IsDigit(s[i])
  {
    if s == "" || !IsDigit(s[0]) then 0 else 1 + DigitLength(s[1..])
  }

  datatype Extracted<T> = Fail | Got(value: T, rest: string)

  /** `stream >> string`: fails when nothing but white space is left. */
  function ExtractWord(s: string): (r: Extracted<string>)
    ensures r.Got? ==> |r.rest| < |s|
  {
    var t := SkipSpace(s);
    var n := WordLength(t);
    if n == 0 then Fail else Got(t[..n], t[n..])
  }

  /** Digits at the front of `u`, read with the given sign. */
  function ExtractDigits(u: string, negative: bool): (r: Extracted<int32>)
    ensures r.Got? ==> |r.rest| < |u|
  {
    var n := DigitLength(u);
    if n == 0 then Fail
    else
      var v: int := ValueOf(u[..n]);
      var w := if negative then -v else v;
      if -MAX_INT32 - 1 <= w <= MAX_INT32 then Got(w, u[n..]) else Fail
  }

  function ExtractSigned(t: string): (r: Extracted<int32>)
    ensures r.Got? ==> |r.rest| < |t|
  {
    if t != "" && t[0] == '-' then ExtractDigits(t[1..], true)
    else if t != "" && t[0] == '+' then ExtractDigits(t[1..], false)
    else ExtractDigits(t, false)
  }

  /** `stream >> int`: an optional sign and digits; fails without a digit and out of range. */
  function ExtractInt(s: string): (r: Extracted<int32>)
    ensures r.Got? ==> |r.rest| < |s|
  {
    ExtractSigned(SkipSpace(s))
  }

  /** `stream >> bool` without boolalpha: an integer that must be 0 or 1. */
  function ExtractBool(s: string): (r: Extracted<bool>)
    ensures r.Got? ==> |r.rest| < |s|
  {
    match ExtractInt(s)
    case Fail => Fail
    case Got(v, rest) => if v == 0 || v == 1 then Got(v == 1, rest) else Fail
  }

  // ---------------------------------------------------------------- records

  /** One line of the file. */
  datatype Record =
    | Debug(on: bool)
    | ChildPid(pid: int32)
    | InvokerPid(booster: int32, value: int32)
    | InvokerFd(booster: int32, value: int32)
    | BoosterPid(pid: int32)
    | Launcher(fd0: int32, fd1: int32)
    | SigPipe(fd0: int32, fd1: int32)
    | Boot(on: bool)
    | Socket(id: string, fd: int32)

  datatype Kind = DebugKind | ChildKind | InvokerPidKind | InvokerFdKind | BoosterPidKind
                | LauncherKind | SigPipeKind | BootKind | SocketKind

  function KindOf(r: Record): Kind {
    match r
    case Debug(_) => DebugKind
    case ChildPid(_) => ChildKind
    case InvokerPid(_, _) => InvokerPidKind
    case InvokerFd(_, _) => InvokerFdKind
    case BoosterPid(_) => BoosterPidKind
    case Launcher(_, _) => LauncherKind
    case SigPipe(_, _) => SigPipeKind
    case Boot(_) => BootKind
    case Socket(_, _) => SocketKind
  }

  function Keyword(k: Kind): string {
    match k
    case DebugKind => "debug-mode"
    case ChildKind => "child"
    case InvokerPidKind => "booster-invoker-pid"
    case InvokerFdKind => "booster-invoker-fd"
    case BoosterPidKind => "booster-pid"
    case LauncherKind => "launcher-socket"
    case SigPipeKind => "sigpipe-fd"
    case BootKind => "boot-mode"
    case SocketKind => "socket-hash"
  }

  /** The arguments of a record, each preceded by a blank. */
  function ShowArgs(r: Record): string {
    match r
    case Debug(on) => " " + ShowBool(on)
    case ChildPid(p) => " " + ShowInt(p)
    case InvokerPid(b, v) => " " + ShowInt(b) + (" " + ShowInt(v))
    case InvokerFd(b, v) => " " + ShowInt(b) + (" " + ShowInt(v))
    case BoosterPid(p) => " " + ShowInt(p)
    case Launcher(a, b) => " " + ShowInt(a) + (" " + ShowInt(b))
    case SigPipe(a, b) => " " + ShowInt(a) + (" " + ShowInt(b))
    case Boot(on) => " " + ShowBool(on)
    case Socket(id, fd) => " " + id + (" " + ShowInt(fd))
  }

  function ShowRecord(r: Record): string { Keyword(KindOf(r)) + ShowArgs(r) + "\n" }

  function ShowRecords(rs: seq<Record>): string {
    if rs == [] then "" else ShowRecord(rs[0]) + ShowRecords(rs[1..])
  }

  /** What reading a record changes. */
  function Apply(s: Snapshot, r: Record): Snapshot {
    match r
    case Debug(on) => s.(debugMode := on)
    case ChildPid(p) => s.(children := s.children + [p])
    case InvokerPid(b, v) => s.(toPid := s.toPid[b := v])
    case InvokerFd(b, v) => s.(toFd := s.toFd[b := v])
    case BoosterPid(p) => s.(boosterPid := p)
    case Launcher(a, b) => s.(launcherSocket := (a, b))
    case SigPipe(a, b) => s.(sigPipe := (a, b))
    case Boot(on) => s.(bootMode := on)
    case Socket(id, fd) => s.(sockets := s.sockets[id := fd])
  }

  function ApplyAll(s: Snapshot, rs: seq<Record>): Snapshot
    decreases |rs|
  {
    if rs == [] then s else ApplyAll(Apply(s, rs[0]), rs[1..])
  }

  /** The comparisons of the reader, in its order. */
  function Recognize(w: string): Option<Kind> {
    if w == "child" then Some(ChildKind)
    else if w == "booster-invoker-pid" then Some(InvokerPidKind)
    else if w == "booster-invoker-fd" then Some(InvokerFdKind)
    else if w == "booster-pid" then Some(BoosterPidKind)
    else if w == "launcher-socket" then Some(LauncherKind)
    else if w == "sigpipe-fd" then Some(SigPipeKind)
    else if w == "socket-hash" then Some(SocketKind)
    else if w == "debug-mode" then Some(DebugKind)
    else if w == "boot-mode" then Some(BootKind)
    else None
  }

  function ExtractTwo(s: string): (r: Extracted<(int32, int32)>)
    ensures r.Got? ==> |r.rest| < |s|
  {
    match ExtractInt(s)
    case Fail => Fail
    case Got(a, t) =>
      match ExtractInt(t)
      case Fail => Fail
      case Got(b, u) => Got((a, b), u)
  }

  function IntRecord(k: Kind, v: int32): Record {
    if k.ChildKind? then ChildPid(v) else BoosterPid(v)
  }

  function BoolRecord(k: Kind, on: bool): Record {
    if k.DebugKind? then Debug(on) else Boot(on)
  }

  function PairRecord(k: Kind, a: int32, b: int32): Record {
    match k
    case InvokerPidKind => InvokerPid(a, b)
    case InvokerFdKind => InvokerFd(a, b)
    case LauncherKind => Launcher(a, b)
    case _ => SigPipe(a, b)
  }

  function ExtractSocket(s: string): (r: Extracted<Record>)
    ensures r.Got? ==> |r.rest| < |s|
  {
    match ExtractWord(s)
    case Fail => Fail
    case Got(id, t) =>
      match ExtractInt(t)
      case Fail => Fail
      case Got(fd, u) => Got(Socket(id, fd), u)
  }

  /** The arguments that the reader expects after a keyword. */
  function ExtractArgs(k: Kind, s: string): (r: Extracted<Record>)
    ensures r.Got? ==> |r.rest| < |s|
  {
    if k.ChildKind? || k.BoosterPidKind? then
      match ExtractInt(s)
      case Fail => Fail
      case Got(v, t) => Got(IntRecord(k, v), t)
    else if k.DebugKind? || k.BootKind? then
      match ExtractBool(s)
      case Fail => Fail
      case Got(on, t) => Got(BoolRecord(k, on), t)
    else if k.SocketKind? then ExtractSocket(s)
    else
      match ExtractTwo(s)
      case Fail => Fail
      case Got(x, t) => Got(PairRecord(k, x.0, x.1), t)
  }

  // ---------------------------------------------------------------- the reader

  /** How restoring ends.  A stream failure is caught and the process exits; the two checks on the
      head of the file throw a string literal, which the `char *` handler does not catch. */
  datatype Restoring = Restored(state: Snapshot) | ExitFailure | Terminated

  /** The loop over the records.  A word that is no keyword is passed over. */
  function ReadRecords(s: string, st: Snapshot): Restoring
    decreases |s|
  {
    match ExtractWord(s)
    case Fail => ExitFailure
    case Got(w, t) =>
      if w == "end" then Restored(st)
      else match Recognize(w)
        case None => ReadRecords(t, st)
        case Some(k) =>
          match ExtractArgs(k, t)
          case Fail => ExitFailure
          case Got(r, u) => ReadRecords(u, Apply(st, r))
  }

  function Restore(s: string, myPid: int32, st: Snapshot): Restoring {
    match ExtractWord(s)
    case Fail => ExitFailure
    case Got(w, t) =>
      if w != "my-pid" then Terminated
      else match ExtractInt(t)
        case Fail => ExitFailure
        case Got(pid, u) => if pid != myPid then Terminated else ReadRecords(u, st)
  }

  // ---------------------------------------------------------------- the writer

  /** The entries of a map in some order of iteration, each key once. */
  ghost predicate Enumerates<K>(es: seq<(K, int32)>, m: map<K, int32>) {
    && (forall i, j :: 0 <= i < j < |es| ==> es[i].0 != es[j].0)
    && (forall i :: 0 <= i < |es| ==> es[i].0 in m && m[es[i].0] == es[i].1)
    && (forall k :: k in m ==> exists i :: 0 <= i < |es| && es[i].0 == k)
  }

  function ChildRecords(ps: seq<int32>): (r: seq<Record>) { seq(|ps|, i requires 0 <= i < |ps| => ChildPid(ps[i])) }

  function PidRecords(es: seq<(int32, int32)>): seq<Record> {
    seq(|es|, i requires 0 <= i < |es| => InvokerPid(es[i].0, es[i].1))
  }

  function FdRecords(es: seq<(int32, int32)>): seq<Record> {
    seq(|es|, i requires 0 <= i < |es| => InvokerFd(es[i].0, es[i].1))
  }

  function SocketRecords(es: seq<(string, int32)>): seq<Record> {
    seq(|es|, i requires 0 <= i < |es| => Socket(es[i].0, es[i].1))
  }

  function ScalarRecords(st: Snapshot): seq<Record> {
    [BoosterPid(st.boosterPid), Launcher(st.launcherSocket.0, st.launcherSocket.1),
     SigPipe(st.sigPipe.0, st.sigPipe.1), Boot(st.bootMode)]
  }

  /** The records in the order in which they are written, for given orders of iteration. */
  type Pairs = seq<(int32, int32)>

  type NamedFds = seq<(string, int32)>

  function RecordsOf(st: Snapshot, pids: Pairs, fds: Pairs, socks: NamedFds): seq<Record> {
    [Debug(st.debugMode)] + ChildRecords(st.children) + PidRecords(pids) + FdRecords(fds)
    + ScalarRecords(st) + SocketRecords(socks)
  }

  function FileText(pid: int32, rs: seq<Record>): string {
    "my-pid " + ShowInt(pid) + "\n" + ShowRecords(rs) + "end\n"
  }

  /** `text` is what a daemon with this pid and these fields may write. */
  ghost predicate Saved(text: string, pid: int32, st: Snapshot) {
    exists pids, fds, socks ::
      Enumerates(pids, st.toPid) && Enumerates(fds, st.toFd) && Enumerates(socks, st.sockets) &&
      text == FileText(pid, RecordsOf(st, pids, fds, socks))
  }
}
