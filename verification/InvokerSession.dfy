/** The invoker's side of a session: its options, and what it makes of the answers. */
module InvokerSession {
  import opened Basics
  import opened Protocol

  // ---------------------------------------------------------------- options

  const EXIT_DELAY: word := 0
  const MIN_EXIT_DELAY: word := 1
  const MAX_EXIT_DELAY: word := 86400
  const RESPAWN_DELAY: word := 3
  const MIN_RESPAWN_DELAY: word := 0
  const MAX_RESPAWN_DELAY: word := 10

  /** An option as getopt_long reports it: its letter ('?' if unknown), its argument, and what
      strtoul makes of the argument as an `unsigned int`. */
  datatype Opt = Opt(letter: char, arg: Text, number: word)

  datatype Settings = Settings(
    magic: word,
    waitTerm: bool,
    appType: Option<Text>,
    delay: word,
    respawn: word,
    testMode: bool)

  datatype Parsed = Usage(status: int32) | Parsed(settings: Settings)

  predicate Has(opts: seq<Opt>, letter: char) { exists i :: 0 <= i < |opts| && opts[i].letter == letter }

  predicate InRange(o: Opt, min: word, max: word) { min <= o.number <= max }

  /** The options that make the invoker print its usage and exit. */
  predicate Exits(o: Opt) {
    || o.letter == 'h' || o.letter == '?'
    || (o.letter == 'd' && !(1 <= o.number <= 86400))
    || (o.letter == 'r' && !(0 <= o.number <= 10))
  }

  /** The first option that makes it exit is the one at `i`. */
  predicate FirstExit(opts: seq<Opt>, i: int) {
    0 <= i < |opts| && Exits(opts[i]) && forall j :: 0 <= j < i ==> !Exits(opts[j])
  }

  function Bit(on: bool, bit: word): word { if on then bit else 0 }

  function Bits(wait: bool, global: bool, deep: bool, single: bool, oom: bool): (w: word)
    ensures w < 0x100
  {
    Bit(wait, OPTION_WAIT) + Bit(global, OPTION_DLOPEN_GLOBAL) + Bit(deep, OPTION_DLOPEN_DEEP)
    + Bit(single, OPTION_SINGLE_INSTANCE) + Bit(oom, OPTION_OOM_ADJ_DISABLE)
  }

  /** The options word: which letters occur decides it, not their order or their number. */
  function Magic(opts: seq<Opt>): word {
    Bits(!Has(opts, 'n'), Has(opts, 'G'), Has(opts, 'D'), Has(opts, 's'), Has(opts, 'o'))
  }

  /** `w | bit`, for a single bit. */
  function OrBit(w: word, bit: word): word
    requires bit in {1, 2, 4, 8, 0x10, 0x20}
  {
    if w / bit % 2 == 1 then w else (w + bit) % 0x1_0000_0000
  }

  /** The argument of the last option of this letter. */
  function LastNumber(opts: seq<Opt>, letter: char, default: word): word
    decreases |opts|
  {
    if opts == [] then default
    else if opts[|opts| - 1].letter == letter then opts[|opts| - 1].number
    else LastNumber(opts[..|opts| - 1], letter, default)
  }

  /** The argument of the last -t. */
  function LastType(opts: seq<Opt>): Option<Text>
    decreases |opts|
  {
    if opts == [] then None
    else if opts[|opts| - 1].letter == 't' then Some(opts[|opts| - 1].arg)
    else LastType(opts[..|opts| - 1])
  }

  lemma HasMore(opts: seq<Opt>, o: Opt, letter: char)
    ensures Has(opts + [o], letter) <==> Has(opts, letter) || o.letter == letter
  {
    if Has(opts, letter) {
      var i :| 0 <= i < |opts| && opts[i].letter == letter;
      assert (opts + [o])[i].letter == letter;
    }
    if o.letter == letter { assert (opts + [o])[|opts|].letter == letter; }
  }

  lemma LastMore(opts: seq<Opt>, o: Opt, letter: char, default: word)
    ensures LastNumber(opts + [o], letter, default)
         == if o.letter == letter then o.number else LastNumber(opts, letter, default)
  {
    assert (opts + [o])[..|opts|] == opts;
  }

  lemma TypeMore(opts: seq<Opt>, o: Opt)
    ensures LastType(opts + [o]) == if o.letter == 't' then Some(o.arg) else LastType(opts)
  {
    assert (opts + [o])[..|opts|] == opts;
  }

  lemma OrGlobal(wait: bool, global: bool, deep: bool, single: bool, oom: bool)
    ensures OrBit(Bits(wait, global, deep, single, oom), OPTION_DLOPEN_GLOBAL) == Bits(wait, true, deep, single, oom)
  {
  }

  lemma OrDeep(wait: bool, global: bool, deep: bool, single: bool, oom: bool)
    ensures OrBit(Bits(wait, global, deep, single, oom), OPTION_DLOPEN_DEEP) == Bits(wait, global, true, single, oom)
  {
  }

  lemma OrSingle(wait: bool, global: bool, deep: bool, single: bool, oom: bool)
    ensures OrBit(Bits(wait, global, deep, single, oom), OPTION_SINGLE_INSTANCE) == Bits(wait, global, deep, true, oom)
  {
  }

  lemma OrOom(wait: bool, global: bool, deep: bool, single: bool, oom: bool)
    ensures OrBit(Bits(wait, global, deep, single, oom), OPTION_OOM_ADJ_DISABLE)
         == Bits(wait, global, deep, single, true)
  {
  }

  /** `w & ~1`. */
  function ClearWait(w: word): word { w - w % 2 }

  lemma NoWait(wait: bool, global: bool, deep: bool, single: bool, oom: bool)
    ensures ClearWait(Bits(wait, global, deep, single, oom)) == Bits(false, global, deep, single, oom)
  {
  }

  /** What one more option does to the options word. */
  function NextMagic(w: word, o: Opt): word {
    if o.letter == 'n' then ClearWait(w)
    else if o.letter == 'G' then OrBit(w, OPTION_DLOPEN_GLOBAL)
    else if o.letter == 'D' then OrBit(w, OPTION_DLOPEN_DEEP)
    else if o.letter == 's' then OrBit(w, OPTION_SINGLE_INSTANCE)
    else if o.letter == 'o' then OrBit(w, OPTION_OOM_ADJ_DISABLE)
    else w
  }

  lemma MagicMore(opts: seq<Opt>, o: Opt)
    ensures Magic(opts + [o]) == NextMagic(Magic(opts), o)
  {
    var (n, g, d, s, m) := (Has(opts, 'n'), Has(opts, 'G'), Has(opts, 'D'), Has(opts, 's'), Has(opts, 'o'));
    HasMore(opts, o, 'n');
    HasMore(opts, o, 'G');
    HasMore(opts, o, 'D');
    HasMore(opts, o, 's');
    HasMore(opts, o, 'o');
    match o.letter
    case 'n' => NoWait(!n, g, d, s, m);
    case 'G' => OrGlobal(!n, g, d, s, m);
    case 'D' => OrDeep(!n, g, d, s, m);
    case 's' => OrSingle(!n, g, d, s, m);
    case 'o' => OrOom(!n, g, d, s, m);
    case _ =>
  }

  /** The WAIT bit of the options agrees with the waiting of the invoker, the other bits with the
      options they stand for, and all of them fit the byte of the magic word that is theirs. */
  lemma WaitBitAgrees(opts: seq<Opt>)
    ensures Magic(opts) < 0x40 && (Magic(opts) % 2 == 1 <==> !Has(opts, 'n'))
    ensures Magic(opts) / 2 % 2 == 1 <==> Has(opts, 'G')
    ensures Magic(opts) / 4 % 2 == 1 <==> Has(opts, 'D')
    ensures Magic(opts) / 8 % 2 == 1 <==> Has(opts, 's')
    ensures Magic(opts) / 0x20 % 2 == 1 <==> Has(opts, 'o')
    ensures Magic(opts) / 0x10 % 2 == 0
  {
  }

  /** What the options seen so far have set. */
  ghost predicate Reflects(s: Settings, seen: seq<Opt>) {
    && s.magic == Magic(seen) && s.waitTerm == !Has(seen, 'n') && s.testMode == Has(seen, 'T')
    && s.delay == LastNumber(seen, 'd', 0) <= 86400
    && s.respawn == LastNumber(seen, 'r', 3) <= 10
    && s.appType == LastType(seen)
  }

  /** What one more option does to the settings. */
  function NextSettings(s: Settings, o: Opt): Settings {
    s.(magic := NextMagic(s.magic, o),
       waitTerm := s.waitTerm && o.letter != 'n',
       appType := if o.letter == 't' then Some(o.arg) else s.appType,
       delay := if o.letter == 'd' then o.number else s.delay,
       respawn := if o.letter == 'r' then o.number else s.respawn,
       testMode := s.testMode || o.letter == 'T')
  }

  lemma OneOption(s: Settings, seen: seq<Opt>, o: Opt)
    requires Reflects(s, seen) && !Exits(o)
    ensures Reflects(NextSettings(s, o), seen + [o])
  {
    MagicMore(seen, o);
    HasMore(seen, o, 'n');
    HasMore(seen, o, 'T');
    TypeMore(seen, o);
    LastMore(seen, o, 'd', 0);
    LastMore(seen, o, 'r', 3);
  }

  /** The switch of the option loop. */
  method ParseOption(s: Settings, o: Opt) returns (r: Parsed)
    ensures r == if Exits(o) then Usage(if o.letter == 'h' then 0 else 1) else Parsed(NextSettings(s, o))
  {
    var t := s;
    match o.letter {
      case 'h' => return Usage(0);
      case 'o' => t := s.(magic := OrBit(s.magic, OPTION_OOM_ADJ_DISABLE));
      case 'n' => t := s.(waitTerm := false, magic := ClearWait(s.magic));
      case 'G' => t := s.(magic := OrBit(s.magic, OPTION_DLOPEN_GLOBAL));
      case 'D' => t := s.(magic := OrBit(s.magic, OPTION_DLOPEN_DEEP));
      case 'T' => t := s.(testMode := true);
      case 't' => t := s.(appType := Some(o.arg));
      case 'd' =>
        if !InRange(o, MIN_EXIT_DELAY, MAX_EXIT_DELAY) { return Usage(1); }
        t := s.(delay := o.number);
      case 'r' =>
        if !InRange(o, MIN_RESPAWN_DELAY, MAX_RESPAWN_DELAY) { return Usage(1); }
        t := s.(respawn := o.number);
      case 's' => t := s.(magic := OrBit(s.magic, OPTION_SINGLE_INSTANCE));
      case '?' => return Usage(1);
      case _ =>
    }
    r := Parsed(t);
  }

  /** The option loop of main. */
  method ParseOptions(opts: seq<Opt>) returns (r: Parsed)
    ensures r.Usage? <==> exists i :: FirstExit(opts, i)
    ensures r.Usage? ==> exists i :: FirstExit(opts, i) && r.status == if opts[i].letter == 'h' then 0 else 1
    ensures r.Parsed? ==> Reflects(r.settings, opts)
    ensures r.Parsed? ==> (r.settings.magic % 2 == 1 <==> r.settings.waitTerm) && r.settings.magic < 0x100
  {
    var s := Settings(OPTION_WAIT, true, None, EXIT_DELAY, RESPAWN_DELAY, false);
    ghost var seen: seq<Opt> := [];
    for i := 0 to |opts|
      invariant seen == opts[..i] && Reflects(s, seen)
      invariant forall j :: 0 <= j < i ==> !Exits(opts[j])
    {
      var x := ParseOption(s, opts[i]);
      if x.Usage? {
        assert FirstExit(opts, i);
        return x;
      }
      OneOption(s, seen, opts[i]);
      TakeNext(opts, i);
      s, seen := x.settings, seen + [opts[i]];
    }
    assert opts[..|opts|] == opts;
    WaitBitAgrees(opts);
    r := Parsed(s);
  }

  // ---------------------------------------------------------------- the answers

  /** How an invocation ends: a wrong word kills the invoker, and `Lost` is an end of the
      connection without a complete exit message. */
  datatype End = Died | Lost | Returned(status: int32)

  /** What the invoker makes of the words it receives until the connection ends. */
  function Understood(words: seq<word>, wait: bool): End {
    if words == [] || words[0] != MSG_ACK then Died
    else if !wait then Returned(0)
    else if |words| < 3 || words[1] != MSG_PID || words[2] == 0 then Died
    else if |words| < 5 || words[3] != MSG_EXIT then Lost
    else Returned(ToInt32(words[4]))
  }

  class Invoker {
    var incoming: seq<word>

    constructor (words: seq<word>)
      ensures incoming == words
    {
      incoming := words;
    }

    /** Zero and false at the end of the connection. */
    method RecvMsg() returns (w: word, ok: bool)
      modifies this
      ensures if old(incoming) == [] then w == 0 && !ok && incoming == []
              else w == old(incoming)[0] && ok && incoming == old(incoming)[1..]
    {
      if incoming == [] { return 0, false; }
      w, ok, incoming := incoming[0], true, incoming[1..];
    }

    /** None stands for die. */
    method RecvPid() returns (pid: Option<word>)
      modifies this
      ensures var ws := old(incoming);
              if |ws| < 2 || ws[0] != MSG_PID || ws[1] == 0 then pid == None
              else pid == Some(ws[1]) && incoming == ws[2..]
    {
      var action, _ := RecvMsg();
      if action != MSG_PID { return None; }
      var p, _ := RecvMsg();
      if p == 0 { return None; }
      pid := Some(p);
    }

    method RecvExit() returns (status: int32, ok: bool)
      modifies this
      ensures var ws := old(incoming);
              ok == (|ws| >= 2 && ws[0] == MSG_EXIT) && (ok ==> status == ToInt32(ws[1]))
    {
      status := 0;
      var action, res := RecvMsg();
      if !res || action != MSG_EXIT { return 0, false; }
      var w, res2 := RecvMsg();
      status, ok := ToInt32(w), res2;
    }

    /** From the acknowledgement on; the signals that arrive meanwhile are treated in `Forwarding`. */
    method Converse(wait: bool) returns (end: End)
      modifies this
      ensures end == Understood(old(incoming), wait)
      // it dies on the first word that is not the one expected, and only then
      ensures var ws := old(incoming);
              && (end == Died <==> !(|ws| >= 1 && ws[0] == 0x600d_0000 &&
                                     (wait ==> |ws| >= 3 && ws[1] == 0x1d1d_0000 && ws[2] != 0)))
              && (end != Died && !wait ==> end == Returned(0))
              && (end != Died && wait ==>
                    end == if |ws| >= 5 && ws[3] == 0xe417_0000 then Returned(ToInt32(ws[4])) else Lost)
    {
      var ack, _ := RecvMsg();
      if ack != MSG_ACK { return Died; }
      if !wait { return Returned(0); }
      var pid := RecvPid();
      if pid.None? { return Died; }
      var status, ok := RecvExit();
      end := if ok then Returned(status) else Lost;
    }
  }
}
