/** The launch protocol: message words, and the byte stream they travel on. */
module Protocol {
  import opened Basics

  const MSG_MAGIC: word := 0xb007_0000
  const MSG_MAGIC_VERSION: word := 0x0000_0300
  const OPTION_WAIT: word := 0x01
  const OPTION_DLOPEN_GLOBAL: word := 0x02
  const OPTION_DLOPEN_DEEP: word := 0x04
  const OPTION_SINGLE_INSTANCE: word := 0x08
  const OPTION_OOM_ADJ_DISABLE: word := 0x20

  const MSG_NAME: word := 0x5a5e_0000
  const MSG_EXEC: word := 0xe8ec_0000
  const MSG_ARGS: word := 0xa465_0000
  const MSG_ENV: word := 0xe571_0000
  const MSG_PRIO: word := 0xa1ce_0000
  const MSG_DELAY: word := 0xb2de_0012
  const MSG_IDS: word := 0xb2df_4000
  const MSG_IO: word := 0x10fd_0000
  const MSG_END: word := 0xdead_0000
  const MSG_PID: word := 0x1d1d_0000
  const MSG_EXIT: word := 0xe417_0000
  const MSG_ACK: word := 0x600d_0000

  type Text = seq<byte>

  /** A byte on the stream, with the descriptors attached to it. */
  datatype Item = Item(b: byte, fds: seq<int32>)

  function Plain(s: Text): (r: seq<Item>)
    ensures |r| == |s|
  {
    seq(|s|, i requires 0 <= i < |s| => Item(s[i], []))
  }

  function Bytes(s: seq<Item>): (r: Text)
    ensures |r| == |s|
  {
    seq(|s|, i requires 0 <= i < |s| => s[i].b)
  }

  // ---------------------------------------------------------------- words

  function WordBytes(w: word): Text {
    [w % 0x100, w / 0x100 % 0x100, w / 0x100 / 0x100 % 0x100, w / 0x100 / 0x100 / 0x100]
  }

  function WordOf(b0: byte, b1: byte, b2: byte, b3: byte): word {
    b0 + 0x100 * (b1 + 0x100 * (b2 + 0x100 * b3))
  }

  function EncodeWord(w: word): seq<Item> { Plain(WordBytes(w)) }

  /** Reading a word; a short read takes what is left and yields 0. */
  function ReadWord(s: seq<Item>): (word, seq<Item>) {
    if |s| < 4 then (0, []) else (WordOf(s[0].b, s[1].b, s[2].b, s[3].b), s[4..])
  }

  lemma WordBytesBack(w: word)
    ensures var b := WordBytes(w); WordOf(b[0], b[1], b[2], b[3]) == w
  {
    var q1 := w / 0x100;
    var q2 := q1 / 0x100;
    var q3 := q2 / 0x100;
    assert w == w % 0x100 + 0x100 * q1;
    assert q1 == q1 % 0x100 + 0x100 * q2;
    assert q2 == q2 % 0x100 + 0x100 * q3;
  }

  lemma ReadWordOf(w: word, rest: seq<Item>)
    ensures ReadWord(EncodeWord(w) + rest) == (w, rest)
  {
    WordBytesBack(w);
    var s := EncodeWord(w) + rest;
    assert |EncodeWord(w)| == 4;
    assert s[4..] == rest;
    assert forall i :: 0 <= i < 4 ==> s[i] == Item(WordBytes(w)[i], []);
  }

  /** The conversions between `int` and `uint32_t`. */
  function ToWord(i: int32): word { if i < 0 then i + 0x1_0000_0000 else i }

  function ToInt32(w: word): int32 { if w < 0x8000_0000 then w else w - 0x1_0000_0000 }

  // ---------------------------------------------------------------- strings

  predicate NulFree(s: Text) { forall i :: 0 <= i < |s| ==> s[i] != 0 }

  /** The C string at the start of a buffer. */
  function CString(s: Text): (r: Text)
    ensures NulFree(r) && |r| <= |s| && (NulFree(s) ==> r == s)
  {
    if s == [] || s[0] == 0 then [] else [s[0]] + CString(s[1..])
  }

  /** It goes up to the first NUL. */
  lemma {:induction false} CStringIs(s: Text)
    ensures var r := CString(s); r <= s && (|r| < |s| ==> s[|r|] == 0)
  {
    if s != [] && s[0] != 0 { CStringIs(s[1..]); }
  }

  /** invoke_send_str: the length is computed in 32 bits, and that many bytes are written. */
  function EncodeStr(s: Text): seq<Item> {
    var size: word := (|s| + 1) % 0x1_0000_0000;
    EncodeWord(size) + Plain((s + [0])[..if size <= |s| + 1 then size else |s| + 1])
  }

  const STR_LEN_MAX: word := 4096

  /** recvStr: nothing more is read when the length is bad; a short read takes what is left. */
  function ReadStr(s: seq<Item>): (r: (Option<Text>, seq<Item>))
    ensures |r.1| <= |s|
  {
    var (size, t) := ReadWord(s);
    if size == 0 || size > STR_LEN_MAX then (None, t)
    else if |t| < size then (None, [])
    else (Some(CString(Bytes(t[..size - 1]))), t[size..])
  }

  datatype Strings = Strings(got: seq<Text>, ok: bool, rest: seq<Item>)

  /** `n` strings in a row, up to the first that cannot be received. */
  function ReadStrs(s: seq<Item>, n: nat): (r: Strings)
    ensures r.ok ==> |r.got| == n
    ensures !r.ok ==> |r.got| < n
    ensures |r.rest| <= |s|
    decreases n
  {
    if n == 0 then Strings([], true, s)
    else match ReadStr(s)
      case (None, t) => Strings([], false, t)
      case (Some(x), t) => var r := ReadStrs(t, n - 1); r.(got := [x] + r.got)
  }
}
