/** The daemon itself: the methods that change its fields, each proved against the specification
    functions of `Supervisor` and `StateFile`. */
module DaemonProcess {
  import opened Basics
  import Protocol
  import opened Supervisor
  import opened SupervisorSafety
  import opened SupervisorSteps
  import opened StateFile
  import StateFileTheorems

  /** No SIGHUP among the events. */
  predicate NoReExec(es: seq<Event>) {
    forall i :: 0 <= i < |es| && es[i].Iterate? ==> es[i].sig != Some(Hup)
  }

  /** How `RestoreState` ends: it returns, or the process exits, or an exception escapes. */
  datatype Ending = Returns | Exits | Aborts

  function EndingOf(r: Restoring): Ending {
    match r
    case Restored(_) => Returns
    case ExitFailure => Exits
    case Terminated => Aborts
  }

  lemma ShowOne(r: Record)
    ensures ShowRecords([r]) == ShowRecord(r)
  {
    assert [r][1..] == [];
  }

  lemma {:induction false} ShowAppend(a: seq<Record>, b: seq<Record>)
    ensures ShowRecords(a + b) == ShowRecords(a) + ShowRecords(b)
    decreases |a|
  {
    if a == [] {
      assert a + b == b;
    } else {
      assert (a + b)[1..] == a[1..] + b && (a + b)[0] == a[0];
      ShowAppend(a[1..], b);
      Regroup(ShowRecord(a[0]), ShowRecords(a[1..]), ShowRecords(b));
    }
  }

  lemma ShowMore(rs: seq<Record>, r: Record)
    ensures ShowRecords(rs + [r]) == ShowRecords(rs) + ShowRecord(r)
  {
    ShowAppend(rs, [r]);
    ShowOne(r);
  }

  lemma ChildrenMore(ps: seq<int32>, i: nat)
    requires i < |ps|
    ensures ShowRecords(ChildRecords(ps[..i + 1])) == ShowRecords(ChildRecords(ps[..i])) + ShowRecord(ChildPid(ps[i]))
  {
    assert ChildRecords(ps[..i + 1]) == ChildRecords(ps[..i]) + [ChildPid(ps[i])];
    ShowMore(ChildRecords(ps[..i]), ChildPid(ps[i]));
  }

  lemma PidsMore(es: seq<(int32, int32)>, p: int32, v: int32)
    ensures ShowRecords(PidRecords(es + [(p, v)])) == ShowRecords(PidRecords(es)) + ShowRecord(InvokerPid(p, v))
  {
    assert PidRecords(es + [(p, v)]) == PidRecords(es) + [InvokerPid(p, v)];
    ShowMore(PidRecords(es), InvokerPid(p, v));
  }

  lemma FdsMore(es: seq<(int32, int32)>, p: int32, v: int32)
    ensures ShowRecords(FdRecords(es + [(p, v)])) == ShowRecords(FdRecords(es)) + ShowRecord(InvokerFd(p, v))
  {
    assert FdRecords(es + [(p, v)]) == FdRecords(es) + [InvokerFd(p, v)];
    ShowMore(FdRecords(es), InvokerFd(p, v));
  }

  lemma SocketsMore(es: seq<(string, int32)>, id: string, v: int32)
    ensures ShowRecords(SocketRecords(es + [(id, v)])) == ShowRecords(SocketRecords(es)) + ShowRecord(Socket(id, v))
  {
    assert SocketRecords(es + [(id, v)]) == SocketRecords(es) + [Socket(id, v)];
    ShowMore(SocketRecords(es), Socket(id, v));
  }

  lemma ShowScalars(st: Snapshot)
    ensures ShowRecords(ScalarRecords(st))
         == ShowRecord(BoosterPid(st.boosterPid)) + ShowRecord(Launcher(st.launcherSocket.0, st.launcherSocket.1))
            + ShowRecord(SigPipe(st.sigPipe.0, st.sigPipe.1)) + ShowRecord(Boot(st.bootMode))
  {
    var rs := ScalarRecords(st);
    assert rs == [rs[0]] + [rs[1]] + [rs[2]] + [rs[3]];
    ShowMore([rs[0]] + [rs[1]] + [rs[2]], rs[3]);
    ShowMore([rs[0]] + [rs[1]], rs[2]);
    ShowMore([rs[0]], rs[1]);
    ShowOne(rs[0]);
  }

  lemma ShowParts(st: Snapshot, pids: seq<(int32, int32)>, fds: seq<(int32, int32)>, socks: seq<(string, int32)>)
    ensures ShowRecords(RecordsOf(st, pids, fds, socks))
         == ShowRecord(Debug(st.debugMode)) + ShowRecords(ChildRecords(st.children)) + ShowRecords(PidRecords(pids))
            + ShowRecords(FdRecords(fds)) + ShowRecords(ScalarRecords(st)) + ShowRecords(SocketRecords(socks))
  {
    var r1, r2, r3, r4 := [Debug(st.debugMode)], ChildRecords(st.children), PidRecords(pids), FdRecords(fds);
    ShowAppend(r1 + r2 + r3 + r4 + ScalarRecords(st), SocketRecords(socks));
    ShowAppend(r1 + r2 + r3 + r4, ScalarRecords(st));
    ShowAppend(r1 + r2 + r3, r4);
    ShowAppend(r1 + r2, r3);
    ShowAppend(r1, r2);
    ShowOne(r1[0]);
  }

  lemma EnumerateMore<K>(es: seq<(K, int32)>, m: map<K, int32>, todo: set<K>, k: K)
    requires k in todo && todo <= m.Keys && Enumerates(es, m - todo)
    ensures Enumerates(es + [(k, m[k])], m - (todo - {k}))
  {
    var es' := es + [(k, m[k])];
    forall x | x in m - (todo - {k})
      ensures exists i :: 0 <= i < |es'| && es'[i].0 == x
    {
      if x == k {
        assert es'[|es|].0 == k;
      } else {
        assert x in m - todo;
        var i :| 0 <= i < |es| && es[i].0 == x;
        assert es'[i].0 == x;
      }
    }
  }

  /** The kernel, seen through the system calls of the daemon. */
  class Os {
    var k: Kernel

    constructor (k: Kernel)
      ensures this.k == k
    {
      this.k := k;
    }

    method Fork(bootMode: bool, sleepTime: int, kept: set<int32>) returns (p: Option<int32>)
      modifies this
      ensures (k, p) == Supervisor.Fork(old(k), bootMode, sleepTime, kept)
    {
      var t := Supervisor.Fork(k, bootMode, sleepTime, kept);
      k, p := t.0, t.1;
    }

    method WaitPid(pid: int32) returns (w: Wait)
      modifies this
      ensures (k, w) == Supervisor.WaitPid(old(k), pid)
    {
      var t := Supervisor.WaitPid(k, pid);
      k, w := t.0, t.1;
    }

    method RecvMsg() returns (r: Received)
      requires k.queue != []
      modifies this
      ensures (k, r) == Supervisor.RecvMsg(old(k))
    {
      var t := Supervisor.RecvMsg(k);
      k, r := t.0, t.1;
    }

    method Write(fd: int32, value: word)
      modifies this
      ensures k == Supervisor.Write(old(k), fd, value)
    {
      k := Supervisor.Write(k, fd, value);
    }

    method Close(fd: int32)
      modifies this
      ensures k == Supervisor.Close(old(k), fd)
    {
      k := Supervisor.Close(k, fd);
    }

    method Kill(pid: int32, sig: int)
      modifies this
      ensures k == Supervisor.Kill(old(k), pid, sig)
    {
      k := Supervisor.Kill(k, pid, sig);
    }
  }

  class Daemon {
    const os: Os
    var up: bool
    var children: seq<int32>
    var boosterPidToInvokerPid: map<int32, int32>
    var boosterPidToInvokerFd: map<int32, int32>
    var boosterPid: int32
    var bootMode: bool
    var debugMode: bool
    var launcherSocket: (int32, int32)
    var sigPipe: (int32, int32)
    var sockets: map<string, int32>

    function D(): Fields
      reads this
    {
      Fields(up, children, boosterPidToInvokerPid, boosterPidToInvokerFd, boosterPid, bootMode)
    }

    function S(): State
      reads this, os
    {
      State(D(), os.k)
    }

    /** Everything the state file has to carry over. */
    function Snap(): Snapshot
      reads this
    {
      Snapshot(debugMode, children, boosterPidToInvokerPid, boosterPidToInvokerFd, boosterPid,
               launcherSocket, sigPipe, bootMode, sockets)
    }

    /** Every socket id is a word of the state file. */
    ghost predicate IdsSurvive()
      reads this
    {
      StateFileTheorems.IdsOk(Snap())
    }

    constructor (os: Os, bootMode: bool, launcherSocket: (int32, int32), sigPipe: (int32, int32),
                 sockets: map<string, int32>)
      ensures this.os == os && this.sockets == sockets
      ensures D() == Fields(true, [], map[], map[], 0, bootMode)
    {
      this.os := os;
      up, children, boosterPid, debugMode := true, [], 0, false;
      boosterPidToInvokerPid, boosterPidToInvokerFd := map[], map[];
      this.bootMode, this.launcherSocket, this.sigPipe, this.sockets := bootMode, launcherSocket, sigPipe, sockets;
    }

    method ForkBooster(sleepTime: int)
      modifies this`up, this`children, this`boosterPid, os
      ensures S() == Supervisor.ForkBooster(old(S()), sleepTime)
      ensures up && old(up) ==> children == old(children) + [boosterPid] && boosterPid > 0 &&
                                boosterPid in os.k.procs && boosterPid !in old(os.k.procs)
      ensures old(up) && !up ==> children == old(children)
    {
      boosterPid := 0;
      var newPid := os.Fork(bootMode, sleepTime, LeftOpen(os.k.open, boosterPidToInvokerFd));
      if newPid.None? {
        up := false;
      } else {
        children := children + [newPid.value];
        boosterPid := newPid.value;
      }
    }

    method ReadFromBoosterSocket()
      requires os.k.queue != []
      modifies this`up, this`children, this`boosterPid, this`boosterPidToInvokerPid, this`boosterPidToInvokerFd, os
      ensures S() == Supervisor.ReadFromBoosterSocket(old(S()))
      ensures old(up && Inv(S())) ==>
                var (m, fds, forks) := (old(os.k.queue)[0], old(os.k.fds), old(os.k.forks));
                if !CanReceive(m, fds, old(os.k.open)) then !up && os.k.log == old(os.k.log)
                else (m.invokerPid != 0 ==> fds != []) && Handled(old(S()), m, fds, forks, S())
    {
      hide Handled, CanReceive, Inv;
      if up && Inv(S()) { ReadDoes(S()); }
      var r := os.RecvMsg();
      if r.ReceiveFailed? {
        up := false;
        return;
      }
      var d := r.datagram;
      if d.invokerPid != 0 && boosterPid != 0 && r.fd.Some? {
        boosterPidToInvokerPid := boosterPidToInvokerPid[boosterPid := d.invokerPid];
        boosterPidToInvokerFd := boosterPidToInvokerFd[boosterPid := r.fd.value];
        os.k := os.k.(log := os.k.log + [Registered(boosterPid, d.invokerPid, r.fd.value, d.sender)]);
      }
      ForkBooster(d.delay);
    }

    /** What a child does with its copy of the descriptor map and of the open descriptors. */
    method CloseInherited() returns (copy: map<int32, int32>, open: set<int32>)
      ensures copy.Keys == boosterPidToInvokerFd.Keys && forall p :: p in copy ==> copy[p] == -1
      ensures open == LeftOpen(os.k.open, boosterPidToInvokerFd) - {launcherSocket.0, sigPipe.0, sigPipe.1}
    {
      copy, open := boosterPidToInvokerFd, os.k.open - {launcherSocket.0, sigPipe.0, sigPipe.1};
      var todo := copy.Keys;
      ghost var m, start := boosterPidToInvokerFd, open;
      while todo != {}
        invariant todo <= m.Keys && copy.Keys == m.Keys
        invariant forall p :: p in todo ==> copy[p] == m[p]
        invariant forall p :: p in m && p !in todo ==> copy[p] == -1
        invariant open == start - (set p | p in m && p !in todo && m[p] != -1 :: m[p])
      {
        var p :| p in todo;
        if copy[p] != -1 {
          open := open - {copy[p]};
          copy := copy[p := -1];
        }
        todo := todo - {p};
      }
    }

    method KillProcess(pid: int32, sig: int)
      modifies os
      ensures os.k == Supervisor.Kill(old(os.k), pid, sig)
    {
      if pid > 0 {
        os.Kill(pid, sig);
      }
    }

    method SettleLaunch(pid: int32, st: Status)
      modifies this`boosterPidToInvokerPid, this`boosterPidToInvokerFd, os
      ensures S() == Supervisor.SettleLaunch(old(S()), pid, st)
    {
      if pid in boosterPidToInvokerPid {
        match st {
          case Exited(code) =>
            if pid in boosterPidToInvokerFd {
              os.Write(boosterPidToInvokerFd[pid], Protocol.MSG_EXIT);
              os.Write(boosterPidToInvokerFd[pid], code);
              os.Close(boosterPidToInvokerFd[pid]);
              boosterPidToInvokerFd := boosterPidToInvokerFd - {pid};
            }
          case Signaled(sig) =>
            var invokerPid := boosterPidToInvokerPid[pid];
            if pid in boosterPidToInvokerFd {
              os.Close(boosterPidToInvokerFd[pid]);
              boosterPidToInvokerFd := boosterPidToInvokerFd - {pid};
            }
            KillProcess(invokerPid, sig);
        }
        boosterPidToInvokerPid := boosterPidToInvokerPid - {pid};
      }
    }

    method Respawn(pid: int32)
      modifies this`up, this`children, this`boosterPid, os
      ensures S() == Supervisor.Respawn(old(S()), pid)
    {
      if pid == boosterPid {
        os.k := os.k.(orphaned := os.k.orphaned || Unread(os.k.queue, pid));
        ForkBooster(BOOSTER_SLEEP_TIME);
      }
    }

    /** The loop erases from the vector it iterates over, and may append to it. */
    method ReapZombies()
      modifies this`up, this`children, this`boosterPid, this`boosterPidToInvokerPid, this`boosterPidToInvokerFd, os
      ensures old(up) ==> S() == Supervisor.ReapZombies(old(S()))
      ensures !old(up) ==> S() == old(S())
    {
      if !up { return; }
      var i := 0;
      while i < |children|
        invariant up
        invariant Supervisor.ReapFrom(S(), i) == Supervisor.ReapZombies(old(S()))
        decreases |os.k.forks|, |children| - i
      {
        ghost var s, at := S(), i;
        ReapStepProgress(s, at);
        var pid := children[i];
        var w := os.WaitPid(pid);
        match w {
          case StillRunning =>
            i := i + 1;
          case NoChild =>
            children := Erase(children, i);
          case Gone(st) =>
            children := Erase(children, i);
            SettleLaunch(pid, st);
            Respawn(pid);
        }
        assert (S(), i) == ReapStep(s, at);
        if !up { return; }
      }
    }

    method KillBoosters()
      modifies os
      ensures S() == Supervisor.KillBoosters(old(S()))
    {
      if boosterPid != 0 {
        KillProcess(boosterPid, SIGTERM);
      }
    }

    method EnterNormalMode()
      modifies this`bootMode, os
      ensures S() == Supervisor.EnterNormalMode(old(S()))
      ensures !bootMode && boosterPid == old(boosterPid)
      ensures os.k.log == old(os.k.log) +
                          if old(bootMode) && boosterPid > 0 then [Killed(boosterPid, SIGTERM)] else []
    {
      if bootMode {
        bootMode := false;
        KillBoosters();
      }
    }

    method EnterBootMode()
      modifies this`bootMode, os
      ensures S() == Supervisor.EnterBootMode(old(S()))
      ensures bootMode && boosterPid == old(boosterPid)
      ensures os.k.log == old(os.k.log) +
                          if !old(bootMode) && boosterPid > 0 then [Killed(boosterPid, SIGTERM)] else []
    {
      if !bootMode {
        bootMode := true;
        KillBoosters();
      }
    }

    // -------------------------------------------------------------- re-exec

    method SaveChildren() returns (text: string)
      ensures text == ShowRecords(ChildRecords(children))
    {
      text := "";
      for i := 0 to |children|
        invariant text == ShowRecords(ChildRecords(children[..i]))
      {
        text := text + ShowRecord(ChildPid(children[i]));
        ChildrenMore(children, i);
      }
      assert children[..|children|] == children;
    }

    method SavePids() returns (text: string, ghost es: seq<(int32, int32)>)
      ensures Enumerates(es, boosterPidToInvokerPid) && text == ShowRecords(PidRecords(es))
    {
      text, es := "", [];
      var todo := boosterPidToInvokerPid.Keys;
      while todo != {}
        invariant todo <= boosterPidToInvokerPid.Keys
        invariant Enumerates(es, boosterPidToInvokerPid - todo)
        invariant text == ShowRecords(PidRecords(es))
      {
        var p :| p in todo;
        text := text + ShowRecord(InvokerPid(p, boosterPidToInvokerPid[p]));
        PidsMore(es, p, boosterPidToInvokerPid[p]);
        EnumerateMore(es, boosterPidToInvokerPid, todo, p);
        es := es + [(p, boosterPidToInvokerPid[p])];
        todo := todo - {p};
      }
      assert boosterPidToInvokerPid - {} == boosterPidToInvokerPid;
    }

    method SaveFds() returns (text: string, ghost es: seq<(int32, int32)>)
      ensures Enumerates(es, boosterPidToInvokerFd) && text == ShowRecords(FdRecords(es))
    {
      text, es := "", [];
      var todo := boosterPidToInvokerFd.Keys;
      while todo != {}
        invariant todo <= boosterPidToInvokerFd.Keys
        invariant Enumerates(es, boosterPidToInvokerFd - todo)
        invariant text == ShowRecords(FdRecords(es))
      {
        var p :| p in todo;
        text := text + ShowRecord(InvokerFd(p, boosterPidToInvokerFd[p]));
        FdsMore(es, p, boosterPidToInvokerFd[p]);
        EnumerateMore(es, boosterPidToInvokerFd, todo, p);
        es := es + [(p, boosterPidToInvokerFd[p])];
        todo := todo - {p};
      }
      assert boosterPidToInvokerFd - {} == boosterPidToInvokerFd;
    }

    method SaveSockets() returns (text: string, ghost es: seq<(string, int32)>)
      ensures Enumerates(es, sockets) && text == ShowRecords(SocketRecords(es))
    {
      text, es := "", [];
      var todo := sockets.Keys;
      while todo != {}
        invariant todo <= sockets.Keys
        invariant Enumerates(es, sockets - todo)
        invariant text == ShowRecords(SocketRecords(es))
      {
        var id :| id in todo;
        text := text + ShowRecord(Socket(id, sockets[id]));
        SocketsMore(es, id, sockets[id]);
        EnumerateMore(es, sockets, todo, id);
        es := es + [(id, sockets[id])];
        todo := todo - {id};
      }
      assert sockets - {} == sockets;
    }

    /** Print the state, one record a line; the maps are walked in some order. */
    method SaveState(myPid: int32) returns (text: string)
      ensures Saved(text, myPid, Snap())
    {
      var kids := SaveChildren();
      var ps, pids := SavePids();
      var fs, fds := SaveFds();
      var scalars := ShowRecord(BoosterPid(boosterPid))
                     + ShowRecord(Launcher(launcherSocket.0, launcherSocket.1))
                     + ShowRecord(SigPipe(sigPipe.0, sigPipe.1))
                     + ShowRecord(Boot(bootMode));
      var ss, socks := SaveSockets();
      text := "my-pid " + ShowInt(myPid) + "\n"
              + (ShowRecord(Debug(debugMode)) + kids + ps + fs + scalars + ss)
              + "end\n";
      ShowScalars(Snap());
      ShowParts(Snap(), pids, fds, socks);
    }

    /** Store the arguments of one record. */
    method Assign(r: Record)
      modifies this`children, this`boosterPidToInvokerPid, this`boosterPidToInvokerFd, this`boosterPid,
               this`launcherSocket, this`sigPipe, this`sockets, this`debugMode, this`bootMode
      ensures Snap() == Apply(old(Snap()), r)
    {
      match r {
        case ChildPid(pid) => children := children + [pid];
        case InvokerPid(p, v) => boosterPidToInvokerPid := boosterPidToInvokerPid[p := v];
        case InvokerFd(p, v) => boosterPidToInvokerFd := boosterPidToInvokerFd[p := v];
        case BoosterPid(pid) => boosterPid := pid;
        case Launcher(fd0, fd1) => launcherSocket := (fd0, fd1);
        case SigPipe(fd0, fd1) => sigPipe := (fd0, fd1);
        case Socket(id, fd) => sockets := sockets[id := fd];
        case Debug(on) => debugMode := on;
        case Boot(on) => bootMode := on;
      }
    }

    /** Read a saved state into the fields, one record an iteration, until the final word. */
    method RestoreState(text: string, myPid: int32) returns (r: Ending)
      modifies this`children, this`boosterPidToInvokerPid, this`boosterPidToInvokerFd, this`boosterPid,
               this`launcherSocket, this`sigPipe, this`sockets, this`debugMode, this`bootMode
      ensures r == EndingOf(Restore(text, myPid, old(Snap())))
      ensures Restore(text, myPid, old(Snap())).Restored? ==> Snap() == Restore(text, myPid, old(Snap())).state
    {
      var head := ExtractWord(text);
      if head.Fail? { return Exits; }
      if head.value != "my-pid" { return Aborts; }
      var pid := ExtractInt(head.rest);
      if pid.Fail? { return Exits; }
      if pid.value != myPid { return Aborts; }
      var rest := pid.rest;
      while true
        invariant ReadRecords(rest, Snap()) == Restore(text, myPid, old(Snap()))
        decreases |rest|
      {
        var token := ExtractWord(rest);
        if token.Fail? { return Exits; }
        if token.value == "end" { return Returns; }
        var kind := Recognize(token.value);
        if kind.None? {
          rest := token.rest;
        } else {
          var args := ExtractArgs(kind.value, token.rest);
          if args.Fail? { return Exits; }
          rest := args.rest;
          Assign(args.value);
        }
      }
    }

    /** The fields of the new process image before it reads the state file. */
    method Reincarnate()
      modifies this`children, this`boosterPidToInvokerPid, this`boosterPidToInvokerFd, this`boosterPid,
               this`sockets, this`debugMode, this`bootMode
      ensures StateFileTheorems.Fresh(Snap())
    {
      children, boosterPid, debugMode, bootMode := [], 0, false, false;
      boosterPidToInvokerPid, boosterPidToInvokerFd, sockets := map[], map[], map[];
    }

    /** A new process image with the old pid reads what the old one has saved. */
    method Reborn(text: string, myPid: int32, ghost saved: Snapshot) returns (r: Ending)
      requires Saved(text, myPid, saved)
      modifies this
      ensures up == old(up)
      ensures r == Returns && Snap() == saved <==> StateFileTheorems.IdsOk(saved)
    {
      Reincarnate();
      StateFileTheorems.RoundTrip(text, myPid, saved, Snap());
      r := RestoreState(text, myPid);
    }

    /** Save, kill the booster, exec and restore: across the process boundary only the text
        survives, and yet every field does. */
    method HandOver(myPid: int32)
      requires up
      modifies this, os
      ensures old(IdsSurvive()) ==>
                up && Snap() == old(Snap()) && S() == Supervisor.KillBoosters(old(S()))
      ensures up && Snap() == old(Snap()) ==> old(IdsSurvive())
    {
      var text := SaveState(myPid);
      KillBoosters();
      var r := Reborn(text, myPid, Snap());
      up := r == Returns;
    }

    /** The new image starts by reaping. */
    method ReExec(myPid: int32)
      requires up
      modifies this, os
      ensures old(IdsSurvive()) ==>
                S() == Supervisor.ReExec(old(S())) && sockets == old(sockets) &&
                launcherSocket == old(launcherSocket) && sigPipe == old(sigPipe) && debugMode == old(debugMode)
    {
      HandOver(myPid);
      ReapZombies();
    }

    // -------------------------------------------------------------- the main loop

    method HandleSignal(sig: Signal, myPid: int32)
      requires up
      modifies this, os
      ensures sig.Term? ==> !up
      ensures old(IdsSurvive()) || !sig.Hup? ==>
                S() == Supervisor.HandleSignal(old(S()), sig) && sockets == old(sockets)
      ensures old(Inv(S())) && (old(IdsSurvive()) || !sig.Hup?) ==> Obeys(old(S()), sig, S())
    {
      if Inv(S()) { SignalDoes(S(), sig); }
      match sig {
        case Chld => ReapZombies();
        case Term => up := false;
        case Usr1 => EnterNormalMode();
        case Usr2 => EnterBootMode();
        case Hup => ReExec(myPid);
        case Pipe =>
        case Other =>
      }
    }

    /** One event: a child moves, or one pass of the main loop with its one select snapshot. */
    method Iteration(e: Event, myPid: int32)
      modifies this, os
      ensures old(IdsSurvive()) || NoReExec([e]) ==>
                S() == Step(old(S()), e) && sockets == old(sockets)
      ensures e.Iterate? && e.sig == Some(Term) ==> !up
    {
      assert [e][0] == e;
      if !up { return; }
      match e {
        case Env(m) => os.k := Moved(os.k, m);
        case Iterate(_, sig, _, _, _) =>
          var readable := os.k.queue != [];
          os.k := AfterSelect(os.k, e);
          if readable { ReadFromBoosterSocket(); }
          if sig.Some? && up { HandleSignal(sig.value, myPid); }
      }
    }

    /** The whole life of a daemon, for any events: its fields always satisfy the invariant.  Socket
        ids that do not survive the state file are the one thing that can end this, at a re-exec. */
    method RunDaemon(es: seq<Event>, myPid: int32)
      requires D() == Fields(true, [], map[], map[], 0, bootMode)
      requires os.k == Kernel(map[], os.k.open, [], [], os.k.forks, [], false, [])
      modifies this, os
      ensures old(IdsSurvive()) || NoReExec(es) ==>
                S() == Run(Start(old(bootMode), old(os.k.open), old(os.k.forks)), es) && Good(S())
    {
      ghost var open, forks := os.k.open, os.k.forks;
      SupervisorInvariant(bootMode, open, forks, es);
      ForkBooster(0);
      ghost var s0 := S();
      for i := 0 to |es|
        invariant old(IdsSurvive()) || NoReExec(es) ==>
                    sockets == old(sockets) && Run(S(), es[i..]) == Run(s0, es)
      {
        assert es[i..][1..] == es[i + 1..];
        Iteration(es[i], myPid);
      }
    }
  }
}
