/** The invoker's side: a launch request and the stream it is sent as. */
module Requests {
  import opened Basics
  import opened Protocol

  datatype Request = Request(
    options: word,
    argv: seq<Text>,
    file: Text,
    priority: int32,
    delay: int32,
    uid: word,
    gid: word,
    filler: byte,          // the byte that carries the descriptors is not initialized
    io: seq<int32>,
    env: seq<Text>)

  predicate CStringOk(s: Text) { NulFree(s) && |s| + 1 < 0x1_0000_0000 }

  /** What the invoker can be asked to send.  Strings are C strings whose size fits 32 bits, and
      counts are C ints. */
  ghost predicate Encodable(r: Request) {
    && r.options < 0x100 && |r.io| == 3
    && 1 <= |r.argv| < 0x8000_0000 && |r.env| < 0x8000_0000
    && CStringOk(r.file)
    && (forall i :: 0 <= i < |r.argv| ==> CStringOk(r.argv[i]))
    && (forall i :: 0 <= i < |r.env| ==> CStringOk(r.env[i]))
  }

  function EncodeStrs(ss: seq<Text>): seq<Item> {
    if ss == [] then [] else EncodeStr(ss[0]) + EncodeStrs(ss[1..])
  }

  lemma EncodeFirst(ss: seq<Text>, i: nat)
    requires i < |ss|
    ensures EncodeStrs(ss[i..]) == EncodeStr(ss[i]) + EncodeStrs(ss[i + 1..])
  {
    assert ss[i..][1..] == ss[i + 1..];
  }

  /** A count or a size as it is passed to invoke_send_msg. */
  function Count(n: nat): word { n % 0x1_0000_0000 }

  // Each function is what is sent from one record up to the end of the request.

  function FromEnv(r: Request): seq<Item> {
    EncodeWord(MSG_ENV) + (EncodeWord(Count(|r.env|)) + (EncodeStrs(r.env) + EncodeWord(MSG_END)))
  }

  function FromIo(r: Request): seq<Item> {
    EncodeWord(MSG_IO) + ([Item(r.filler, r.io)] + FromEnv(r))
  }

  function FromIds(r: Request): seq<Item> {
    EncodeWord(MSG_IDS) + (EncodeWord(r.uid) + (EncodeWord(r.gid) + FromIo(r)))
  }

  function FromDelay(r: Request): seq<Item> {
    EncodeWord(MSG_DELAY) + (EncodeWord(ToWord(r.delay)) + FromIds(r))
  }

  function FromPriority(r: Request): seq<Item> {
    EncodeWord(MSG_PRIO) + (EncodeWord(ToWord(r.priority)) + FromDelay(r))
  }

  function FromArgs(r: Request): seq<Item> {
    EncodeWord(MSG_ARGS) + (EncodeWord(Count(|r.argv|)) + (EncodeStrs(r.argv) + FromPriority(r)))
  }

  function FromExec(r: Request): seq<Item> {
    EncodeWord(MSG_EXEC) + (EncodeStr(r.file) + FromArgs(r))
  }

  function FromName(r: Request): seq<Item>
    requires r.argv != []
  {
    EncodeWord(MSG_NAME) + (EncodeStr(r.argv[0]) + FromExec(r))
  }

  /** The magic word with the option bits: the options occupy the low byte, which is clear. */
  function Encode(r: Request): seq<Item>
    requires r.argv != [] && r.options < 0x100
  {
    EncodeWord(MSG_MAGIC + MSG_MAGIC_VERSION + r.options) + FromName(r)
  }

  // ---------------------------------------------------------------- the senders

  lemma ThreeParts<T>(s: seq<T>, a: seq<T>, b: seq<T>, c: seq<T>, t: seq<T>)
    ensures (((s + a) + b) + c) + t == s + (a + (b + (c + t)))
  {
  }

  lemma TwoParts<T>(s: seq<T>, a: seq<T>, b: seq<T>, t: seq<T>)
    ensures ((s + a) + b) + t == s + (a + (b + t))
  {
  }

  /** The invoker's end of the socket. */
  class Sender {
    var out: seq<Item>

    constructor ()
      ensures out == []
    {
      out := [];
    }

    method SendMsg(w: word)
      modifies this
      ensures out == old(out) + EncodeWord(w)
    {
      out := out + EncodeWord(w);
    }

    method SendStr(s: Text)
      modifies this
      ensures out == old(out) + EncodeStr(s)
    {
      var size: word := (|s| + 1) % 0x1_0000_0000;
      SendMsg(size);
      var written := (s + [0])[..if size <= |s| + 1 then size else |s| + 1];
      out := out + Plain(written);
    }

    method SendStrs(ss: seq<Text>)
      modifies this
      ensures out == old(out) + EncodeStrs(ss)
    {
      ghost var start := out;
      for i := 0 to |ss|
        invariant out + EncodeStrs(ss[i..]) == start + EncodeStrs(ss)
      {
        EncodeFirst(ss, i);
        Regroup(out, EncodeStr(ss[i]), EncodeStrs(ss[i + 1..]));
        SendStr(ss[i]);
      }
    }

    // Each method sends one record; what is out, followed by what remains, does not change.

    method SendMagic(r: Request)
      requires r.argv != [] && r.options < 0x100
      modifies this
      ensures out + FromName(r) == old(out) + Encode(r)
    {
      SendMsg(MSG_MAGIC + MSG_MAGIC_VERSION + r.options);
      Regroup(old(out), EncodeWord(MSG_MAGIC + MSG_MAGIC_VERSION + r.options), FromName(r));
    }

    method SendArgs(r: Request)
      modifies this
      ensures out + FromPriority(r) == old(out) + FromArgs(r)
    {
      SendMsg(MSG_ARGS);
      SendMsg(Count(|r.argv|));
      SendStrs(r.argv);
      ThreeParts(old(out), EncodeWord(MSG_ARGS), EncodeWord(Count(|r.argv|)), EncodeStrs(r.argv), FromPriority(r));
    }

    /** The variables are counted first, in a loop of their own. */
    method SendEnv(r: Request)
      modifies this
      ensures out + EncodeWord(MSG_END) == old(out) + FromEnv(r)
    {
      var n := 0;
      while n < |r.env|
        invariant n <= |r.env|
      {
        n := n + 1;
      }
      SendMsg(MSG_ENV);
      SendMsg(Count(n));
      SendStrs(r.env);
      ThreeParts(old(out), EncodeWord(MSG_ENV), EncodeWord(Count(|r.env|)), EncodeStrs(r.env), EncodeWord(MSG_END));
    }

    method SendIo(r: Request)
      modifies this
      ensures out + FromEnv(r) == old(out) + FromIo(r)
    {
      SendMsg(MSG_IO);
      out := out + [Item(r.filler, r.io)];
      TwoParts(old(out), EncodeWord(MSG_IO), [Item(r.filler, r.io)], FromEnv(r));
    }

    method SendName(r: Request)
      requires r.argv != []
      modifies this
      ensures out + FromExec(r) == old(out) + FromName(r)
    {
      SendMsg(MSG_NAME);
      SendStr(r.argv[0]);
      TwoParts(old(out), EncodeWord(MSG_NAME), EncodeStr(r.argv[0]), FromExec(r));
    }

    method SendExec(r: Request)
      modifies this
      ensures out + FromArgs(r) == old(out) + FromExec(r)
    {
      SendMsg(MSG_EXEC);
      SendStr(r.file);
      TwoParts(old(out), EncodeWord(MSG_EXEC), EncodeStr(r.file), FromArgs(r));
    }

    method SendPriority(r: Request)
      modifies this
      ensures out + FromDelay(r) == old(out) + FromPriority(r)
    {
      SendMsg(MSG_PRIO);
      SendMsg(ToWord(r.priority));
      TwoParts(old(out), EncodeWord(MSG_PRIO), EncodeWord(ToWord(r.priority)), FromDelay(r));
    }

    method SendDelay(r: Request)
      modifies this
      ensures out + FromIds(r) == old(out) + FromDelay(r)
    {
      SendMsg(MSG_DELAY);
      SendMsg(ToWord(r.delay));
      TwoParts(old(out), EncodeWord(MSG_DELAY), EncodeWord(ToWord(r.delay)), FromIds(r));
    }

    method SendIds(r: Request)
      modifies this
      ensures out + FromIo(r) == old(out) + FromIds(r)
    {
      SendMsg(MSG_IDS);
      SendMsg(r.uid);
      SendMsg(r.gid);
      ThreeParts(old(out), EncodeWord(MSG_IDS), EncodeWord(r.uid), EncodeWord(r.gid), FromIo(r));
    }

    /** The request, as invoke_remote sends it up to the END word. */
    method Invoke(r: Request)
      requires r.argv != [] && r.options < 0x100
      modifies this
      ensures out == old(out) + Encode(r)
    {
      SendMagic(r);
      SendName(r);
      SendExec(r);
      SendArgs(r);
      SendPriority(r);
      SendDelay(r);
      SendIds(r);
      SendIo(r);
      SendEnv(r);
      SendMsg(MSG_END);
    }
  }
}
