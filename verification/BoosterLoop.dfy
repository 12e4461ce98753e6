/** The request loop of a booster: any number of refused single-instance requests, then one launch. */
module BoosterLoop {
  import opened Basics
  import opened Protocol
  import opened Connections
  import opened BoosterConnection

  const EXIT_SUCCESS: int32 := 0
  const EXIT_FAILURE: int32 := 1

  /** One incoming invocation, with what the rest of the system answers about it: whether accept
      succeeds, the credentials of the peer, and the verdicts of the single-instance plugin. */
  datatype Incoming = Incoming(accepted: bool, stream: seq<Item>, peer: int32, locked: bool, activated: bool)

  /** What the parent is told; `withFd` says that the connection is attached. */
  datatype Message = Message(invokerPid: int32, delay: int32, withFd: bool)

  datatype End = Waiting | Threw | Launched

  /** How far a booster got: the connections it refused, the one it is on, the process environment,
      the launch data, and what it told its parent. */
  datatype Progress = Progress(end: End, served: seq<Conn>, conn: Option<Conn>, env: seq<Text>, app: AppData,
                               toParent: seq<Message>)

  predicate SingleInstance(a: AppData) { a.options / 8 % 2 == 1 }

  function Closed(c: Conn): Conn { c.(open := false) }

  /** A request on an accepted connection, which stays open only for a waiting invoker. */
  function ReceiveData(stream: seq<Item>, env: seq<Text>, a: AppData, pid: word): Reception {
    var r := ReceiveApplicationData(Accepted(stream, env), a, pid);
    if r.ok && r.conn.sendPid then r else r.(conn := Closed(r.conn))
  }

  function SendExitValue(c: Conn, value: int32): Conn { SendMsg(SendMsg(c, MSG_EXIT), ToWord(value)) }

  function Refused(c: Conn, activated: bool): Conn {
    Closed(SendExitValue(c, if activated then EXIT_SUCCESS else EXIT_FAILURE))
  }

  /** sendDataToParent; sendmsg fails when it is given a descriptor that is closed. */
  function Messages(c: Conn, a: AppData, peer: int32): seq<Message> {
    if c.sendPid && !c.open then [] else [Message(if c.sendPid then peer else 0, a.delay, c.sendPid)]
  }

  /** A request that has been received is refused or launched. */
  function Decide(call: Incoming, plugin: bool, p: Progress): Progress
    requires p.conn.Some?
  {
    if SingleInstance(p.app) && plugin && !call.locked then
      var c := Refused(p.conn.value, call.activated);
      p.(conn := Some(c), served := p.served + [c])
    else
      p.(end := Launched, toParent := p.toParent + Messages(p.conn.value, p.app, call.peer),
         conn := Some(Closed(p.conn.value)))
  }

  /** receiveDataFromInvoker: nothing changes when accept fails. */
  function ReceiveFrom(call: Incoming, pid: word, p: Progress): (r: (Progress, bool))
    ensures r.1 ==> r.0.conn.Some?
  {
    if !call.accepted then (p, false)
    else
      var x := ReceiveData(call.stream, p.env, p.app, pid);
      (p.(conn := Some(x.conn), env := x.conn.env, app := x.app), x.ok)
  }

  /** One turn of the loop; `plugin` says whether the single-instance plugin is loaded. */
  function ServeOne(call: Incoming, plugin: bool, pid: word, p: Progress): Progress {
    var (q, ok) := ReceiveFrom(call, pid, p);
    if ok then Decide(call, plugin, q) else q.(end := Threw)
  }

  /** The loop goes on while it ends up waiting. */
  function Serve(calls: seq<Incoming>, plugin: bool, pid: word, p: Progress): Progress
    decreases |calls|
  {
    if calls == [] || !p.end.Waiting? then p else Serve(calls[1..], plugin, pid, ServeOne(calls[0], plugin, pid, p))
  }

  // ---------------------------------------------------------------- the booster object

  class Booster {
    var app: AppData
    var connection: Connection?
    ghost var served: seq<Conn>    // the connections refused so far
    var toParent: seq<Message>
    const environ: Environment

    constructor (a: AppData, e: Environment)
      ensures environ == e && Valid() && P(Waiting) == Progress(Waiting, [], None, e.vars, a, [])
    {
      app, connection, served, toParent, environ := a, null, [], [], e;
    }

    ghost predicate Valid()
      reads this, connection
    {
      connection != null ==> connection.environ == environ
    }

    ghost function P(end: End): Progress
      reads this, connection, environ
      requires Valid()
    {
      Progress(end, served, if connection == null then None else Some(connection.C()), environ.vars, app, toParent)
    }

    /** Deletes the previous connection, accepts a new one and receives a request on it. */
    method ReceiveDataFromInvoker(call: Incoming, pid: word) returns (ok: bool)
      requires Valid()
      modifies this`connection, this`app, environ
      ensures Valid() && (connection == old(connection) || fresh(connection))
      ensures ok ==> connection != null && fresh(connection)
      ensures (P(Waiting), ok) == ReceiveFrom(call, pid, old(P(Waiting)))
    {
      if !call.accepted { return false; }
      connection := new Connection(call.stream, environ);
      app, ok := connection.ReceiveApplicationData(app, pid);
      if !ok {
        connection.Close();
        return false;
      }
      if !connection.sendPid { connection.Close(); }
    }

    method SendDataToParent(peer: int32)
      requires Valid() && connection != null
      modifies this`toParent
      ensures toParent == old(toParent) + Messages(connection.C(), app, peer)
      ensures connection.fd || !connection.sendPid ==>
                |toParent| == |old(toParent)| + 1 &&
                var m := toParent[|old(toParent)|];
                m.withFd == connection.sendPid && m.invokerPid == if m.withFd then peer else 0
    {
      var invoker: int32 := if connection.sendPid then peer else 0;
      if connection.sendPid && !connection.fd { return; }
      toParent := toParent + [Message(invoker, app.delay, connection.sendPid)];
    }

    /** The end of a request for an application that is running already. */
    method Refuse(activated: bool)
      requires Valid() && connection != null
      modifies this`served, connection
      ensures connection.C() == Refused(old(connection.C()), activated)
      ensures served == old(served) + [connection.C()]
    {
      if activated {
        connection.SendExitValue(EXIT_SUCCESS);
      } else {
        connection.SendExitValue(EXIT_FAILURE);
      }
      connection.Close();
      served := served + [connection.C()];
    }

    method RefuseOrLaunch(call: Incoming, plugin: bool) returns (end: End)
      requires Valid() && connection != null
      modifies this`served, this`toParent, connection
      ensures Valid() && P(end) == Decide(call, plugin, old(P(Waiting)))
    {
      if SingleInstance(app) && plugin && !call.locked {
        Refuse(call.activated);
        return Waiting;
      }
      SendDataToParent(call.peer);
      connection.Close();
      end := Launched;
    }

    method HandleNext(call: Incoming, plugin: bool, pid: word) returns (end: End)
      requires Valid()
      modifies this, environ
      ensures Valid() && (connection == old(connection) || fresh(connection))
      ensures P(end) == ServeOne(call, plugin, pid, old(P(Waiting)))
    {
      var ok := ReceiveDataFromInvoker(call, pid);
      if ok {
        end := RefuseOrLaunch(call, plugin);
      } else {
        end := Threw;
      }
    }

    method Initialize(calls: seq<Incoming>, plugin: bool, pid: word) returns (end: End)
      requires Valid()
      modifies this, environ
      ensures Valid() && P(end) == Serve(calls, plugin, pid, old(P(Waiting)))
    {
      var i := 0;
      end := Waiting;
      while i < |calls| && end.Waiting?
        invariant i <= |calls| && Valid() && (connection == old(connection) || fresh(connection))
        invariant Serve(calls[i..], plugin, pid, P(end)) == Serve(calls, plugin, pid, old(P(Waiting)))
      {
        assert calls[i..][0] == calls[i] && calls[i..][1..] == calls[i + 1..];
        end := HandleNext(calls[i], plugin, pid);
        i := i + 1;
      }
    }
  }
}
