/** The state file restores exactly what was saved, and a file cut short restores nothing. */
module StateFileTheorems {
  import opened Basics
  import opened StateFile

  // ---------------------------------------------------------------- extraction undoes printing

  /** A blank, or one of tab, line feed, vertical tab, form feed and carriage return. */
  predicate WhiteSpace(c: char) { c == ' ' || 9 <= c as int <= 13 }

  predicate Word(w: string) {
    w != "" && forall i :: 0 <= i < |w| ==> !WhiteSpace(w[i])
  }

  /** What follows a printed item: nothing, or white space. */
  predicate Ends(rest: string) { rest == "" || IsSpace(rest[0]) }

  predicate Digits(s: string) { forall i :: 0 <= i < |s| ==> IsDigit(s[i]) }

  lemma {:induction false} ShowNatDigits(n: nat)
    ensures ShowNat(n) != "" && Digits(ShowNat(n)) && ValueOf(ShowNat(n)) == n
  {
    if n < 10 {
      assert ShowNat(n)[..0] == "" && ValueOf("") == 0;
    } else {
      ShowNatDigits(n / 10);
      var s := ShowNat(n);
      assert s[..|s| - 1] == ShowNat(n / 10);
    }
  }

  lemma {:induction false} DigitLengthOf(d: string, rest: string)
    requires Digits(d) && (rest == "" || !IsDigit(rest[0]))
    ensures DigitLength(d + rest) == |d|
  {
    if d == "" {
      assert d + rest == rest;
    } else {
      assert (d + rest)[1..] == d[1..] + rest;
      DigitLengthOf(d[1..], rest);
    }
  }

  lemma {:induction false} WordLengthOf(w: string, rest: string)
    requires (forall i :: 0 <= i < |w| ==> !IsSpace(w[i])) && Ends(rest)
    ensures WordLength(w + rest) == |w|
  {
    if w == "" {
      assert w + rest == rest;
    } else {
      assert (w + rest)[1..] == w[1..] + rest;
      WordLengthOf(w[1..], rest);
    }
  }

  lemma SkipOne(c: char, s: string)
    requires IsSpace(c)
    ensures SkipSpace([c] + s) == SkipSpace(s)
  {
    assert ([c] + s)[1..] == s;
  }

  lemma ExtractWordOf(w: string, rest: string)
    requires Word(w) && Ends(rest)
    ensures ExtractWord(w + rest) == Got(w, rest) == ExtractWord(" " + w + rest)
  {
    WordLengthOf(w, rest);
    assert (w + rest)[0] == w[0] && SkipSpace(w + rest) == w + rest;
    SkipOne(' ', w + rest);
    assert " " + w + rest == [' '] + (w + rest);
    assert (w + rest)[..|w|] == w && (w + rest)[|w|..] == rest;
  }

  lemma ExtractDigitsOf(n: nat, negative: bool, v: int, rest: string)
    requires Ends(rest) && v == (if negative then -(n as int) else n) && -MAX_INT32 - 1 <= v <= MAX_INT32
    ensures ExtractDigits(ShowNat(n) + rest, negative) == Got(v, rest)
  {
    var d := ShowNat(n);
    ShowNatDigits(n);
    DigitLengthOf(d, rest);
    assert (d + rest)[..|d|] == d && (d + rest)[|d|..] == rest;
  }

  lemma ExtractNegative(m: nat, v: int32, rest: string)
    requires Ends(rest) && v == -(m as int)
    ensures ExtractSigned("-" + ShowNat(m) + rest) == Got(v, rest)
  {
    var t := "-" + ShowNat(m) + rest;
    assert t[0] == '-';
    assert t[1..] == ShowNat(m) + rest;
    ExtractDigitsOf(m, true, v, rest);
  }

  lemma ExtractNonNegative(m: nat, v: int32, rest: string)
    requires Ends(rest) && v == m
    ensures ExtractSigned(ShowNat(m) + rest) == Got(v, rest) && !IsSpace((ShowNat(m) + rest)[0])
  {
    ShowNatDigits(m);
    var t := ShowNat(m) + rest;
    assert t[0] == ShowNat(m)[0] && IsDigit(ShowNat(m)[0]);
    ExtractDigitsOf(m, false, v, rest);
  }

  lemma ExtractSignedOf(n: int32, rest: string)
    requires Ends(rest)
    ensures ExtractSigned(ShowInt(n) + rest) == Got(n, rest) && !IsSpace((ShowInt(n) + rest)[0])
  {
    if n < 0 { ExtractNegative(-(n as int), n, rest); } else { ExtractNonNegative(n, n, rest); }
  }

  lemma ExtractIntOf(n: int32, rest: string)
    requires Ends(rest)
    ensures ExtractInt(" " + ShowInt(n) + rest) == Got(n, rest)
  {
    ExtractSignedOf(n, rest);
    SkipOne(' ', ShowInt(n) + rest);
    assert " " + ShowInt(n) + rest == [' '] + (ShowInt(n) + rest);
  }

  lemma ExtractBoolOf(b: bool, rest: string)
    requires Ends(rest)
    ensures ExtractBool(" " + ShowBool(b) + rest) == Got(b, rest)
  {
    ExtractIntOf(if b then 1 else 0, rest);
  }

  // ---------------------------------------------------------------- records

  predicate RecordOk(r: Record) { r.Socket? ==> Word(r.id) }

  lemma ExtractTwoOf(a: int32, b: int32, rest: string)
    requires Ends(rest)
    ensures ExtractTwo(" " + ShowInt(a) + (" " + ShowInt(b)) + rest) == Got((a, b), rest)
  {
    var s2 := " " + ShowInt(b) + rest;
    Regroup(" " + ShowInt(a), " " + ShowInt(b), rest);
    ExtractIntOf(a, s2);
    ExtractIntOf(b, rest);
  }

  lemma OneArg(r: Record, rest: string)
    requires (r.Debug? || r.Boot? || r.ChildPid? || r.BoosterPid?) && Ends(rest)
    ensures ExtractArgs(KindOf(r), ShowArgs(r) + rest) == Got(r, rest)
  {
    if r.Debug? || r.Boot? { ExtractBoolOf(r.on, rest); } else { ExtractIntOf(r.pid, rest); }
  }

  predicate IsPair(k: Kind) { k.InvokerPidKind? || k.InvokerFdKind? || k.LauncherKind? || k.SigPipeKind? }

  lemma PairShown(r: Record, a: int32, b: int32)
    requires r == InvokerPid(a, b) || r == InvokerFd(a, b) || r == Launcher(a, b) || r == SigPipe(a, b)
    ensures ShowArgs(r) == " " + ShowInt(a) + (" " + ShowInt(b)) && PairRecord(KindOf(r), a, b) == r
    ensures IsPair(KindOf(r))
  {
  }

  lemma ExtractPair(k: Kind, s: string, a: int32, b: int32, t: string)
    requires IsPair(k) && ExtractTwo(s) == Got((a, b), t)
    ensures ExtractArgs(k, s) == Got(PairRecord(k, a, b), t)
  {
  }

  lemma PairArgs(r: Record, a: int32, b: int32, rest: string)
    requires r == InvokerPid(a, b) || r == InvokerFd(a, b) || r == Launcher(a, b) || r == SigPipe(a, b)
    requires Ends(rest)
    ensures ExtractArgs(KindOf(r), ShowArgs(r) + rest) == Got(r, rest)
  {
    ExtractTwoOf(a, b, rest);
    PairShown(r, a, b);
    ExtractPair(KindOf(r), " " + ShowInt(a) + (" " + ShowInt(b)) + rest, a, b, rest);
  }

  lemma ExtractSocketOf(id: string, fd: int32, rest: string)
    requires Word(id) && Ends(rest)
    ensures ExtractSocket(" " + id + (" " + ShowInt(fd)) + rest) == Got(Socket(id, fd), rest)
  {
    Regroup(" " + id, " " + ShowInt(fd), rest);
    ExtractWordOf(id, " " + ShowInt(fd) + rest);
    ExtractIntOf(fd, rest);
  }

  lemma ExtractArgsOf(r: Record, rest: string)
    requires RecordOk(r) && Ends(rest)
    ensures ExtractArgs(KindOf(r), ShowArgs(r) + rest) == Got(r, rest)
  {
    match r
    case Debug(on) => OneArg(r, rest);
    case Boot(on) => OneArg(r, rest);
    case ChildPid(p) => OneArg(r, rest);
    case BoosterPid(p) => OneArg(r, rest);
    case InvokerPid(a, b) => PairArgs(r, a, b, rest);
    case InvokerFd(a, b) => PairArgs(r, a, b, rest);
    case Launcher(a, b) => PairArgs(r, a, b, rest);
    case SigPipe(a, b) => PairArgs(r, a, b, rest);
    case Socket(id, fd) => ExtractSocketOf(id, fd, rest);
  }

  lemma KeywordRecognized(k: Kind)
    ensures Recognize(Keyword(k)) == Some(k) && |Keyword(k)| > 4
  {
    // the keywords differ in their length or in one of these places
    var w := Keyword(k);
    assert |w| > 4;
    match k
    case LauncherKind => assert w[0] == 'l';
    case BoosterPidKind => assert w[8] == 'p';
    case _ =>
  }

  lemma NoSpace(w: string)
    requires w in {"booster-invoker-pid", "booster-invoker-fd", "launcher-socket"}
    ensures forall i :: 0 <= i < |w| ==> !IsSpace(w[i])
  {
  }

  lemma KeywordHasNoSpace(k: Kind)
    ensures Keyword(k) != "" && forall i :: 0 <= i < |Keyword(k)| ==> !IsSpace(Keyword(k)[i])
  {
    match k
    case InvokerPidKind => NoSpace("booster-invoker-pid");
    case InvokerFdKind => NoSpace("booster-invoker-fd");
    case LauncherKind => NoSpace("launcher-socket");
    case _ =>
  }

  lemma NoSpaceWord(w: string)
    requires w != "" && forall i :: 0 <= i < |w| ==> !IsSpace(w[i])
    ensures Word(w)
  {
  }

  lemma KeywordIsWord(k: Kind)
    ensures Word(Keyword(k)) && Recognize(Keyword(k)) == Some(k) && Keyword(k) != "end"
  {
    hide Keyword, Recognize, IsSpace, Word;
    KeywordRecognized(k);
    KeywordHasNoSpace(k);
    NoSpaceWord(Keyword(k));
  }

  /** A line break in front makes no difference. */
  lemma LineBreak(s: string, st: Snapshot)
    ensures ReadRecords("\n" + s, st) == ReadRecords(s, st)
  {
    SkipOne('\n', s);
    assert "\n" + s == ['\n'] + s;
  }

  lemma ArgsBlank(r: Record, s: string)
    ensures (ShowArgs(r) + s)[0] == ' '
  {
  }

  lemma ReadOne(r: Record, s: string, st: Snapshot)
    requires RecordOk(r)
    ensures ReadRecords(ShowRecord(r) + s, st) == ReadRecords(s, Apply(st, r))
  {
    var w := Keyword(KindOf(r));
    KeywordIsWord(KindOf(r));
    var args := ShowArgs(r) + ("\n" + s);
    assert ShowRecord(r) + s == w + args;
    ArgsBlank(r, "\n" + s);
    ExtractWordOf(w, args);
    ExtractArgsOf(r, "\n" + s);
    LineBreak(s, Apply(st, r));
  }

  lemma {:induction false} ReadAll(rs: seq<Record>, s: string, st: Snapshot)
    requires forall r :: r in rs ==> RecordOk(r)
    ensures ReadRecords(ShowRecords(rs) + s, st) == ReadRecords(s, ApplyAll(st, rs))
    decreases |rs|
  {
    if rs == [] {
      assert ShowRecords(rs) + s == s;
    } else {
      Regroup(ShowRecord(rs[0]), ShowRecords(rs[1..]), s);
      ReadOne(rs[0], ShowRecords(rs[1..]) + s, st);
      ReadAll(rs[1..], s, Apply(st, rs[0]));
    }
  }

  // ---------------------------------------------------------------- the records rebuild the state

  lemma {:induction false} ApplyAppend(s: Snapshot, a: seq<Record>, b: seq<Record>)
    ensures ApplyAll(s, a + b) == ApplyAll(ApplyAll(s, a), b)
    decreases |a|
  {
    if a == [] {
      assert a + b == b;
    } else {
      assert (a + b)[1..] == a[1..] + b && (a + b)[0] == a[0];
      ApplyAppend(Apply(s, a[0]), a[1..], b);
    }
  }

  lemma {:induction false} ApplyChildren(s: Snapshot, ps: seq<int32>)
    ensures ApplyAll(s, ChildRecords(ps)) == s.(children := s.children + ps)
    decreases |ps|
  {
    if ps == [] {
      assert s.children + ps == s.children;
    } else {
      assert ChildRecords(ps)[1..] == ChildRecords(ps[1..]);
      ApplyChildren(Apply(s, ChildPid(ps[0])), ps[1..]);
      assert s.children + [ps[0]] + ps[1..] == s.children + ps;
    }
  }

  ghost function Inserted<K>(m: map<K, int32>, es: seq<(K, int32)>): map<K, int32>
    decreases |es|
  {
    if es == [] then m else Inserted(m[es[0].0 := es[0].1], es[1..])
  }

  lemma {:induction false} InsertedOther<K>(m: map<K, int32>, es: seq<(K, int32)>, k: K)
    requires forall i :: 0 <= i < |es| ==> es[i].0 != k
    ensures var t := Inserted(m, es); (k in t <==> k in m) && (k in m ==> t[k] == m[k])
    decreases |es|
  {
    if es != [] { InsertedOther(m[es[0].0 := es[0].1], es[1..], k); }
  }

  lemma {:induction false} InsertedAt<K>(m: map<K, int32>, es: seq<(K, int32)>, i: nat)
    requires i < |es| && forall x, y :: 0 <= x < y < |es| ==> es[x].0 != es[y].0
    ensures es[i].0 in Inserted(m, es) && Inserted(m, es)[es[i].0] == es[i].1
    decreases |es|
  {
    var m1 := m[es[0].0 := es[0].1];
    if i == 0 {
      InsertedOther(m1, es[1..], es[0].0);
    } else {
      InsertedAt(m1, es[1..], i - 1);
    }
  }

  lemma EnumerationInserts<K>(es: seq<(K, int32)>, m: map<K, int32>)
    requires Enumerates(es, m)
    ensures Inserted(map[], es) == m
  {
    var t := Inserted(map[], es);
    forall k | k in m
      ensures k in t && t[k] == m[k]
    {
      var i :| 0 <= i < |es| && es[i].0 == k;
      InsertedAt(map[], es, i);
    }
    forall k | k in t
      ensures k in m
    {
      if k !in m { InsertedOther(map[], es, k); }
    }
  }

  lemma {:induction false} ApplyPids(s: Snapshot, es: seq<(int32, int32)>)
    ensures ApplyAll(s, PidRecords(es)) == s.(toPid := Inserted(s.toPid, es))
    decreases |es|
  {
    if es != [] {
      assert PidRecords(es)[1..] == PidRecords(es[1..]);
      ApplyPids(Apply(s, PidRecords(es)[0]), es[1..]);
    }
  }

  lemma {:induction false} ApplyFds(s: Snapshot, es: seq<(int32, int32)>)
    ensures ApplyAll(s, FdRecords(es)) == s.(toFd := Inserted(s.toFd, es))
    decreases |es|
  {
    if es != [] {
      assert FdRecords(es)[1..] == FdRecords(es[1..]);
      ApplyFds(Apply(s, FdRecords(es)[0]), es[1..]);
    }
  }

  lemma {:induction false} ApplySockets(s: Snapshot, es: seq<(string, int32)>)
    ensures ApplyAll(s, SocketRecords(es)) == s.(sockets := Inserted(s.sockets, es))
    decreases |es|
  {
    if es != [] {
      assert SocketRecords(es)[1..] == SocketRecords(es[1..]);
      ApplySockets(Apply(s, SocketRecords(es)[0]), es[1..]);
    }
  }

  /** A state in which nothing that accumulates has been filled in yet. */
  predicate Fresh(s: Snapshot) {
    s.children == [] && s.toPid == map[] && s.toFd == map[] && s.sockets == map[]
  }

  lemma ApplyScalars(s: Snapshot, st: Snapshot)
    ensures ApplyAll(s, ScalarRecords(st))
         == s.(boosterPid := st.boosterPid, launcherSocket := st.launcherSocket,
               sigPipe := st.sigPipe, bootMode := st.bootMode)
  {
    var rs := ScalarRecords(st);
    assert rs[1..][1..] == rs[2..] && rs[2..][1..] == rs[3..] && rs[3..][1..] == [];
    var s1 := Apply(s, rs[0]);
    var s2 := Apply(s1, rs[1]);
    var s3 := Apply(s2, rs[2]);
    var s4 := Apply(s3, rs[3]);
    assert ApplyAll(s, rs) == ApplyAll(s1, rs[1..]) == ApplyAll(s2, rs[2..]) == ApplyAll(s3, rs[3..]) == s4;
  }

  lemma RecordsRebuild(s: Snapshot, st: Snapshot, pids: Pairs, fds: Pairs, socks: NamedFds)
    requires Fresh(s)
    requires Enumerates(pids, st.toPid) && Enumerates(fds, st.toFd) && Enumerates(socks, st.sockets)
    ensures ApplyAll(s, RecordsOf(st, pids, fds, socks)) == st
  {
    var r1, r2, r3, r4 := [Debug(st.debugMode)], ChildRecords(st.children), PidRecords(pids), FdRecords(fds);
    ApplyAppend(s, r1 + r2 + r3 + r4 + ScalarRecords(st), SocketRecords(socks));
    ApplyAppend(s, r1 + r2 + r3 + r4, ScalarRecords(st));
    ApplyAppend(s, r1 + r2 + r3, r4);
    ApplyAppend(s, r1 + r2, r3);
    ApplyAppend(s, r1, r2);
    var s1 := s.(debugMode := st.debugMode);
    assert ApplyAll(s, r1) == s1 by { assert r1[1..] == []; }
    ApplyChildren(s1, st.children);
    var s2 := s1.(children := st.children);
    assert s1.children + st.children == st.children;
    ApplyPids(s2, pids);
    EnumerationInserts(pids, st.toPid);
    var s3 := s2.(toPid := st.toPid);
    ApplyFds(s3, fds);
    EnumerationInserts(fds, st.toFd);
    var s4 := s3.(toFd := st.toFd);
    ApplyScalars(s4, st);
    var s5 := s4.(boosterPid := st.boosterPid, launcherSocket := st.launcherSocket,
                  sigPipe := st.sigPipe, bootMode := st.bootMode);
    ApplySockets(s5, socks);
    EnumerationInserts(socks, st.sockets);
  }

  // ---------------------------------------------------------------- a file cut short

  predicate FailsOrExhausts<T>(x: Extracted<T>) { x.Fail? || x.rest == "" }

  lemma NothingLeft()
    ensures ExtractWord("").Fail? && ExtractInt("").Fail? && forall st :: ReadRecords("", st) == ExitFailure
  {
  }

  lemma DigitsExhaust(u: string, negative: bool)
    requires Digits(u)
    ensures FailsOrExhausts(ExtractDigits(u, negative))
  {
    DigitLengthOf(u, "");
    assert u + "" == u;
  }

  /** A piece of a printed number, sign included. */
  lemma PartialSigned(t: string, n: int32)
    requires t != "" && t <= ShowInt(n)
    ensures FailsOrExhausts(ExtractSigned(t)) && !IsSpace(t[0])
  {
    assert t[0] == ShowInt(n)[0];
    if n < 0 {
      var d := ShowNat(-(n as int));
      ShowNatDigits(-(n as int));
      assert t[0] == '-';
      assert t[1..] <= d;
      DigitsExhaust(t[1..], true);
    } else {
      ShowNatDigits(n);
      assert IsDigit(t[0]);
      DigitsExhaust(t, false);
    }
  }

  /** Extracting from a blank followed by a piece of a number leaves nothing behind. */
  lemma PartialInt(q: string, n: int32)
    requires q <= " " + ShowInt(n)
    ensures FailsOrExhausts(ExtractInt(q))
  {
    if q == "" {
      NothingLeft();
    } else {
      var t := q[1..];
      assert q == [' '] + t;
      SkipOne(' ', t);
      if t == "" { NothingLeft(); } else { PartialSigned(t, n); }
    }
  }

  lemma PartialBool(q: string, on: bool)
    requires q <= " " + ShowBool(on)
    ensures FailsOrExhausts(ExtractBool(q))
  {
    PartialInt(q, if on then 1 else 0);
  }

  /** A proper piece of `first + second` is a piece of `first`, or `first` and a piece of `second`. */
  lemma PieceOf(q: string, first: string, second: string) returns (q2: string)
    requires q <= first + second
    ensures q <= first || (q == first + q2 && q2 != "" && q2 <= second)
  {
    q2 := "";
    if |q| > |first| {
      q2 := q[|first|..];
      assert q[..|first|] == first;
    }
  }

  lemma PartialTwo(q: string, a: int32, b: int32)
    requires q <= " " + ShowInt(a) + (" " + ShowInt(b))
    ensures FailsOrExhausts(ExtractTwo(q))
  {
    NothingLeft();
    var q2 := PieceOf(q, " " + ShowInt(a), " " + ShowInt(b));
    if q <= " " + ShowInt(a) {
      PartialInt(q, a);
    } else {
      assert q2[0] == ' ';
      ExtractIntOf(a, q2);
      PartialInt(q2, b);
    }
  }

  lemma PartialWord(q: string, w: string)
    requires Word(w) && q <= " " + w
    ensures FailsOrExhausts(ExtractWord(q))
  {
    if |q| <= 1 {
      NothingLeft();
      if q != "" { SkipOne(' ', ""); assert q == [' '] + ""; }
    } else {
      var t := q[1..];
      ExtractWordOf(t, "");
      assert q == " " + t + "";
    }
  }

  lemma PartialSocket(q: string, id: string, fd: int32)
    requires Word(id) && q <= " " + id + (" " + ShowInt(fd))
    ensures FailsOrExhausts(ExtractSocket(q))
  {
    NothingLeft();
    var q2 := PieceOf(q, " " + id, " " + ShowInt(fd));
    if q <= " " + id {
      PartialWord(q, id);
    } else {
      assert q2[0] == ' ';
      ExtractWordOf(id, q2);
      PartialInt(q2, fd);
    }
  }

  lemma PartialArgs(r: Record, q: string)
    requires RecordOk(r) && q <= ShowArgs(r)
    ensures FailsOrExhausts(ExtractArgs(KindOf(r), q))
  {
    match r
    case Debug(on) => PartialBool(q, on);
    case Boot(on) => PartialBool(q, on);
    case ChildPid(p) => PartialInt(q, p);
    case BoosterPid(p) => PartialInt(q, p);
    case InvokerPid(a, b) => PartialTwo(q, a, b);
    case InvokerFd(a, b) => PartialTwo(q, a, b);
    case Launcher(a, b) => PartialTwo(q, a, b);
    case SigPipe(a, b) => PartialTwo(q, a, b);
    case Socket(id, fd) => PartialSocket(q, id, fd);
  }

  lemma ArgsOfNothing(k: Kind)
    ensures ExtractArgs(k, "").Fail?
  {
    NothingLeft();
  }

  /** A word with nothing behind it restores nothing, unless it is the final one. */
  lemma LoneWord(w: string, st: Snapshot)
    requires Word(w) && w != "end"
    ensures ReadRecords(w, st) == ExitFailure
  {
    ExtractWordOf(w, "");
    assert w + "" == w;
    NothingLeft();
    if Recognize(w).Some? { ArgsOfNothing(Recognize(w).value); }
  }

  lemma NoKeywordBeginsEnd(k: Kind)
    ensures Keyword(k)[0] != 'e'
  {
  }

  lemma PartialRecord(r: Record, p: string, st: Snapshot)
    requires RecordOk(r) && p <= ShowRecord(r) && |p| < |ShowRecord(r)|
    ensures ReadRecords(p, st) == ExitFailure
  {
    var w := Keyword(KindOf(r));
    KeywordIsWord(KindOf(r));
    NothingLeft();
    assert ShowRecord(r) == w + (ShowArgs(r) + "\n");
    var q := PieceOf(p, w, ShowArgs(r) + "\n");
    if p <= w {
      if p != "" {
        NoKeywordBeginsEnd(KindOf(r));
        assert p[0] == w[0];
        LoneWord(p, st);
      }
    } else {
      ArgsBlank(r, "\n");
      assert q[0] == ' ';
      assert q <= ShowArgs(r) by { assert |q| <= |ShowArgs(r)|; }
      ExtractWordOf(w, q);
      PartialArgs(r, q);
    }
  }

  lemma {:induction false} PartialRecords(rs: seq<Record>, p: string, st: Snapshot)
    requires forall r :: r in rs ==> RecordOk(r)
    requires p <= ShowRecords(rs) + "end" && |p| < |ShowRecords(rs)| + 3
    ensures ReadRecords(p, st) == ExitFailure
    decreases |rs|
  {
    if rs == [] {
      NothingLeft();
      if p != "" {
        assert p[0] == 'e';
        LoneWord(p, st);
      }
    } else {
      var first, rest := ShowRecord(rs[0]), ShowRecords(rs[1..]) + "end";
      Regroup(first, ShowRecords(rs[1..]), "end");
      if |p| < |first| {
        assert p <= first;
        PartialRecord(rs[0], p, st);
      } else {
        var p2 := p[|first|..];
        assert p == first + p2 && p2 <= rest;
        ReadOne(rs[0], p2, st);
        PartialRecords(rs[1..], p2, Apply(st, rs[0]));
      }
    }
  }

  // ---------------------------------------------------------------- the head of the file

  function Head(pid: int32): string { "my-pid" + (" " + ShowInt(pid)) + "\n" }

  lemma FileTextSplit(pid: int32, rs: seq<Record>)
    ensures FileText(pid, rs) == Head(pid) + (ShowRecords(rs) + "end\n")
  {
    assert "my-pid " == "my-pid" + " ";
  }

  lemma ReadHead(pid: int32, myPid: int32, s: string, st: Snapshot)
    ensures Restore(Head(pid) + s, myPid, st) == if pid == myPid then ReadRecords(s, st) else Terminated
  {
    var t := " " + ShowInt(pid) + ("\n" + s);
    assert Head(pid) + s == "my-pid" + t;
    assert t[0] == ' ';
    ExtractWordOf("my-pid", t);
    ExtractIntOf(pid, "\n" + s);
    LineBreak(s, st);
  }

  lemma PartialHead(pid: int32, myPid: int32, p: string, st: Snapshot)
    requires p <= Head(pid) && |p| < |Head(pid)|
    ensures !Restore(p, myPid, st).Restored?
  {
    NothingLeft();
    Regroup("my-pid", " " + ShowInt(pid), "\n");
    var q := PieceOf(p, "my-pid", " " + ShowInt(pid) + "\n");
    if p <= "my-pid" {
      if p != "" {
        ExtractWordOf(p, "");
        assert p + "" == p;
      }
    } else {
      assert q[0] == ' ';
      assert q <= " " + ShowInt(pid) by { assert |q| <= |" " + ShowInt(pid)|; }
      ExtractWordOf("my-pid", q);
      PartialInt(q, pid);
    }
  }

  // ---------------------------------------------------------------- the theorems

  ghost predicate IdsOk(st: Snapshot) { forall id :: id in st.sockets ==> Word(id) }

  lemma RecordsAreOk(st: Snapshot, pids: seq<(int32, int32)>, fds: seq<(int32, int32)>, socks: seq<(string, int32)>)
    requires IdsOk(st) && Enumerates(socks, st.sockets)
    ensures forall r :: r in RecordsOf(st, pids, fds, socks) ==> RecordOk(r)
  {
  }

  /** Reading the end of the records. */
  lemma ReadEnd(st: Snapshot)
    ensures ReadRecords("end\n", st) == ReadRecords("end", st) == Restored(st)
  {
    ExtractWordOf("end", "\n");
    assert "end" + "\n" == "end\n";
    ExtractWordOf("end", "");
    assert "end" + "" == "end";
  }

  /** A piece of the body of the file. */
  lemma BodyCut(rs: seq<Record>, q: string, init: Snapshot)
    requires forall r :: r in rs ==> RecordOk(r)
    requires q <= ShowRecords(rs) + "end\n"
    ensures if |q| >= |ShowRecords(rs)| + 3 then ReadRecords(q, init) == Restored(ApplyAll(init, rs))
            else ReadRecords(q, init) == ExitFailure
  {
    var whole := ShowRecords(rs) + "end";
    assert ShowRecords(rs) + "end\n" == whole + "\n";
    ReadEnd(ApplyAll(init, rs));
    if |q| < |whole| {
      assert q <= whole;
      PartialRecords(rs, q, init);
    } else if |q| == |whole| {
      assert q == whole;
      ReadAll(rs, "end", init);
    } else {
      assert q == ShowRecords(rs) + "end\n";
      ReadAll(rs, "end\n", init);
    }
  }

  /** A file that is cut inside of its head is not restored by anybody; the rest of a longer piece is
      read only by the process that saved it. */
  lemma HeadCut(pid: int32, myPid: int32, rs: seq<Record>, init: Snapshot, k: nat)
    requires k <= |FileText(pid, rs)|
    ensures var p := FileText(pid, rs)[..k];
            if k < |Head(pid)| then !Restore(p, myPid, init).Restored?
            else p[|Head(pid)|..] <= ShowRecords(rs) + "end\n" &&
                 Restore(p, myPid, init) == if pid == myPid then ReadRecords(p[|Head(pid)|..], init) else Terminated
  {
    FileTextSplit(pid, rs);
    var p := FileText(pid, rs)[..k];
    if k < |Head(pid)| {
      assert p <= Head(pid);
      PartialHead(pid, myPid, p, init);
    } else {
      var q := p[|Head(pid)|..];
      assert p == Head(pid) + q && q <= ShowRecords(rs) + "end\n";
      ReadHead(pid, myPid, q, init);
    }
  }

  lemma FileCut(pid: int32, myPid: int32, rs: seq<Record>, init: Snapshot, k: nat)
    requires (forall r :: r in rs ==> RecordOk(r)) && k <= |FileText(pid, rs)|
    ensures var r := Restore(FileText(pid, rs)[..k], myPid, init);
            if pid == myPid && k >= |FileText(pid, rs)| - 1 then r == Restored(ApplyAll(init, rs)) else !r.Restored?
  {
    FileTextSplit(pid, rs);
    HeadCut(pid, myPid, rs, init, k);
    if k >= |Head(pid)| && pid == myPid { BodyCut(rs, FileText(pid, rs)[..k][|Head(pid)|..], init); }
  }

  /** Truncation safety: a piece of a saved file restores the full state when the final word is there
      and it is read by the process that saved it, and otherwise restoring never returns. */
  lemma TruncationSafety(text: string, pid: int32, myPid: int32, st: Snapshot, init: Snapshot, k: nat)
    requires Saved(text, pid, st) && IdsOk(st) && Fresh(init) && k <= |text|
    ensures var r := Restore(text[..k], myPid, init);
            if pid == myPid && k >= |text| - 1 then r == Restored(st) else !r.Restored?
  {
    var pids, fds, socks :| Enumerates(pids, st.toPid) && Enumerates(fds, st.toFd) && Enumerates(socks, st.sockets) &&
                            text == FileText(pid, RecordsOf(st, pids, fds, socks));
    RecordsAreOk(st, pids, fds, socks);
    RecordsRebuild(init, st, pids, fds, socks);
    FileCut(pid, myPid, RecordsOf(st, pids, fds, socks), init, k);
  }

  /** A file left by another process never restores, be it complete or cut short, and whatever its
      socket ids are; if its head is complete it aborts. */
  lemma StaleFileNeverRestores(text: string, pid: int32, myPid: int32, st: Snapshot, init: Snapshot, k: nat)
    requires Saved(text, pid, st) && pid != myPid && k <= |text|
    ensures var r := Restore(text[..k], myPid, init);
            !r.Restored? && (k >= |Head(pid)| ==> r == Terminated)
  {
    var pids, fds, socks :| Enumerates(pids, st.toPid) && Enumerates(fds, st.toFd) && Enumerates(socks, st.sockets) &&
                            text == FileText(pid, RecordsOf(st, pids, fds, socks));
    HeadCut(pid, myPid, RecordsOf(st, pids, fds, socks), init, k);
  }

  lemma {:induction false} WordLengthSound(s: string)
    ensures forall i :: 0 <= i < WordLength(s) ==> !IsSpace(s[i])
  {
    if s != "" && !IsSpace(s[0]) {
      WordLengthSound(s[1..]);
      assert forall i :: 0 < i < |s| ==> s[i] == s[1..][i - 1];
    }
  }

  lemma ExtractedIsWord(s: string)
    ensures ExtractWord(s).Got? ==> Word(ExtractWord(s).value)
  {
    WordLengthSound(SkipSpace(s));
  }

  lemma ExtractedRecordOk(k: Kind, s: string)
    ensures ExtractArgs(k, s).Got? ==> RecordOk(ExtractArgs(k, s).value)
  {
    ExtractedIsWord(s);
  }

  lemma ApplyKeepsIds(st: Snapshot, r: Record)
    requires IdsOk(st) && RecordOk(r)
    ensures IdsOk(Apply(st, r))
  {
  }

  /** Whatever is restored, its socket ids are words. */
  lemma {:induction false} RestoredIdsAreWords(s: string, st: Snapshot)
    requires IdsOk(st) && ReadRecords(s, st).Restored?
    ensures IdsOk(ReadRecords(s, st).state)
    decreases |s|
  {
    var x := ExtractWord(s);
    if x.value != "end" {
      var k := Recognize(x.value);
      if k.None? {
        RestoredIdsAreWords(x.rest, st);
      } else {
        var y := ExtractArgs(k.value, x.rest);
        ExtractedRecordOk(k.value, x.rest);
        ApplyKeepsIds(st, y.value);
        RestoredIdsAreWords(y.rest, Apply(st, y.value));
      }
    }
  }

  /** The round trip, and exactly when it holds: the new image rebuilds what the same process
      saved if and only if every socket id is non-empty and free of white space. */
  lemma RoundTrip(text: string, pid: int32, st: Snapshot, init: Snapshot)
    requires Saved(text, pid, st) && Fresh(init)
    ensures Restore(text, pid, init) == Restored(st) <==> IdsOk(st)
  {
    if IdsOk(st) {
      TruncationSafety(text, pid, pid, st, init, |text|);
      assert text[..|text|] == text;
    } else if Restore(text, pid, init) == Restored(st) {
      RestoredIdsAreWords(ExtractInt(ExtractWord(text).rest).rest, init);
    }
  }

  // ---------------------------------------------------------------- files that no daemon has written

  /** A file that does not begin with my-pid, whatever else is in it, aborts the process. */
  lemma ForeignFileAborts(w: string, rest: string, myPid: int32, init: Snapshot)
    requires Word(w) && w != "my-pid" && Ends(rest)
    ensures Restore(w + rest, myPid, init) == Terminated
  {
    ExtractWordOf(w, rest);
  }

  function Signed(negative: bool, digits: string): int
    requires Digits(digits)
  {
    var v: int := ValueOf(digits);
    if negative then -v else v
  }

  lemma DigitsForm(negative: bool, d: string, rest: string)
    requires d != "" && Digits(d) && (rest == "" || !IsDigit(rest[0]))
    ensures var v := Signed(negative, d);
            ExtractDigits(d + rest, negative) == if -0x8000_0000 <= v < 0x8000_0000 then Got(v, rest) else Fail
  {
    DigitLengthOf(d, rest);
    assert (d + rest)[..|d|] == d && (d + rest)[|d|..] == rest;
  }

  lemma SignRead(c: char, t: string)
    requires c == '+' || c == '-'
    ensures ExtractInt([c] + t) == ExtractDigits(t, c == '-')
  {
    assert ([c] + t)[1..] == t;
  }

  lemma NoSignRead(t: string)
    requires t != "" && IsDigit(t[0])
    ensures ExtractInt(t) == ExtractDigits(t, false)
  {
  }

  /** A number may have a sign and leading zeros; it is read to its last digit, and must fit an int. */
  lemma ExtractIntForm(sign: string, d: string, rest: string)
    requires sign in {"", "+", "-"} && d != "" && Digits(d) && (rest == "" || !IsDigit(rest[0]))
    ensures var v := Signed(sign == "-", d);
            ExtractInt(sign + (d + rest)) == if -0x8000_0000 <= v < 0x8000_0000 then Got(v, rest) else Fail
  {
    hide ExtractInt, ExtractDigits, Signed;
    DigitsForm(sign == "-", d, rest);
    if sign == "" {
      assert sign + (d + rest) == d + rest && (d + rest)[0] == d[0];
      NoSignRead(d + rest);
    } else {
      assert sign == [sign[0]];
      SignRead(sign[0], d + rest);
    }
  }

  /** What begins with neither a digit nor a sign is no number. */
  lemma NoNumber(s: string)
    requires s == "" || (!IsSpace(s[0]) && !IsDigit(s[0]) && s[0] != '+' && s[0] != '-')
    ensures ExtractInt(s) == Fail
  {
  }

  lemma {:induction false} BlankSkipped(blank: string, s: string)
    requires forall i :: 0 <= i < |blank| ==> IsSpace(blank[i])
    ensures SkipSpace(blank + s) == SkipSpace(s)
    decreases |blank|
  {
    if blank == "" {
      assert blank + s == s;
    } else {
      assert blank + s == [blank[0]] + (blank[1..] + s);
      SkipOne(blank[0], blank[1..] + s);
      BlankSkipped(blank[1..], s);
    }
  }

  /** A file without a word, or with no number after my-pid, makes the process exit. */
  lemma HeadlessFileExits(blank: string, s: string, myPid: int32, init: Snapshot)
    requires (forall i :: 0 <= i < |blank| ==> IsSpace(blank[i])) && Ends(s)
    requires ExtractInt(s) == Fail
    ensures Restore(blank, myPid, init) == ExitFailure
    ensures Restore(blank + ("my-pid" + s), myPid, init) == ExitFailure
  {
    assert blank + "" == blank;
    BlankSkipped(blank, "");
    BlankSkipped(blank, "my-pid" + s);
    ExtractWordOf("my-pid", s);
  }

  /** A flag is 0 or 1. */
  lemma FlagIsBit(n: int32, rest: string)
    requires Ends(rest)
    ensures ExtractBool(" " + ShowInt(n) + rest) == if n == 0 then Got(false, rest)
                                                   else if n == 1 then Got(true, rest) else Fail
  {
    ExtractIntOf(n, rest);
  }

  /** A word that is no keyword is passed over, by itself. */
  lemma UnknownWordSkipped(w: string, rest: string, st: Snapshot)
    requires Word(w) && Ends(rest)
    requires w !in {"end", "child", "booster-invoker-pid", "booster-invoker-fd", "booster-pid", "launcher-socket",
                    "sigpipe-fd", "socket-hash", "debug-mode", "boot-mode"}
    ensures ReadRecords(w + rest, st) == ReadRecords(rest, st)
  {
    ExtractWordOf(w, rest);
  }
}
