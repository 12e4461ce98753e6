/** Renaming a process: its argument area is measured once and then rewritten in place. */
module ArgvArea {
  import opened Basics
  import opened Protocol
  import Connections

  /** The arguments the way Linux keeps them: one after the other, each ended by a NUL. */
  function Join(args: seq<Text>): Text {
    if args == [] then [] else args[0] + [0] + Join(args[1..])
  }

  function Zeros(n: nat): (r: Text)
    ensures |r| == n
  {
    seq(n, _ => 0)
  }

  /** The C string at an address. */
  function StringAt(mem: Text, p: nat): Text
    requires p <= |mem|
  {
    CString(mem[p..])
  }

  /** How many bytes are copied: the size of the block is cast to an int. */
  function Needed(size: nat, space: nat): (n: int)
    ensures n <= size && n <= space
  {
    var cast := ToInt32(size % 0x1_0000_0000);
    if space < cast then space else cast
  }

  /** What the area shows for `args`: what is copied, ended by a NUL, and zeros. */
  function Shown(args: seq<Text>, space: nat): (r: Text)
    ensures |r| == space
  {
    var n := Needed(|Join(args)|, space);
    if n <= 0 then Zeros(space) else Join(args)[..n - 1] + [0] + Zeros(space - n)
  }

  /** The pointers in `argv` point to `args`, which lie at the start of `mem`. */
  ghost predicate LaidOut(mem: Text, argv: seq<nat>, args: seq<Text>) {
    && |argv| == |args| && |Join(args)| <= |mem| && mem[..|Join(args)|] == Join(args)
    && forall i :: 0 <= i < |argv| ==> argv[i] == |Join(args[..i])|
  }

  ghost predicate AllNulFree(args: seq<Text>) { forall i :: 0 <= i < |args| ==> NulFree(args[i]) }

  lemma {:induction false} JoinAppend(a: seq<Text>, b: seq<Text>)
    ensures Join(a + b) == Join(a) + Join(b)
    decreases |a|
  {
    if a == [] {
      assert a + b == b;
    } else {
      assert (a + b)[1..] == a[1..] + b;
      JoinAppend(a[1..], b);
    }
  }

  lemma JoinOneMore(args: seq<Text>, x: Text)
    ensures Join(args + [x]) == Join(args) + x + [0]
  {
    JoinAppend(args, [x]);
    assert Join([x]) == x + [0] + Join([]) == x + [0];
    assert Join(args) + (x + [0]) == Join(args) + x + [0];
  }

  lemma JoinUpTo(args: seq<Text>, i: nat)
    requires i < |args|
    ensures Join(args[..i + 1]) == Join(args[..i]) + args[i] + [0]
    ensures Join(args) == Join(args[..i + 1]) + Join(args[i + 1..])
  {
    TakeNext(args, i);
    JoinOneMore(args[..i], args[i]);
    JoinAppend(args[..i + 1], args[i + 1..]);
  }

  lemma JoinEnds(args: seq<Text>)
    requires args != []
    ensures |Join(args)| > 0 && Join(args)[|Join(args)| - 1] == 0
  {
    var n := |args| - 1;
    JoinOneMore(args[..n], args[n]);
    assert args == args[..n] + [args[n]];
  }

  lemma EndWithNul(s: Text, t: Text)
    requires s != []
    ensures (s + t)[|s| - 1 := 0] == s[..|s| - 1] + [0] + t
  {
  }

  lemma CutAndEnd(j: Text, n: nat, space: nat, tail: Text)
    requires 0 < n <= space && n <= |j|
    ensures (j[..n] + (Zeros(space) + tail)[n..])[n - 1 := 0] == j[..n - 1] + [0] + Zeros(space - n) + tail
  {
    var z := Zeros(space - n);
    assert (Zeros(space) + tail)[n..] == z + tail;
    EndWithNul(j[..n], z + tail);
    assert j[..n][..n - 1] == j[..n - 1];
    assert j[..n - 1] + [0] + (z + tail) == j[..n - 1] + [0] + z + tail;
  }

  /** Copying over zeros and ending with a NUL is what the area shall show. */
  lemma Rewritten(args: seq<Text>, space: nat, tail: Text)
    ensures var (j, n) := (Join(args), Needed(|Join(args)|, space));
            if n > 0 then (j[..n] + (Zeros(space) + tail)[n..])[n - 1 := 0] == Shown(args, space) + tail
            else Zeros(space) + tail == Shown(args, space) + tail
  {
    var n := Needed(|Join(args)|, space);
    if n > 0 { CutAndEnd(Join(args), n, space, tail); }
  }

  lemma {:induction false} CStringEnds(s: Text, t: Text)
    requires NulFree(s)
    ensures CString(s + [0] + t) == s
    decreases |s|
  {
    if s != [] {
      assert (s + [0] + t)[1..] == s[1..] + [0] + t;
      CStringEnds(s[1..], t);
    }
  }

  /** The pointer of an argument leads to the argument. */
  lemma ArgumentAt(mem: Text, argv: seq<nat>, args: seq<Text>, i: nat)
    requires LaidOut(mem, argv, args) && AllNulFree(args) && i < |args|
    ensures argv[i] <= |mem| && StringAt(mem, argv[i]) == args[i]
  {
    JoinUpTo(args, i);
    var j, p := Join(args), argv[i];
    var t := Join(args[i + 1..]) + mem[|j|..];
    assert mem == j + mem[|j|..];
    assert mem[p..] == args[i] + [0] + t;
    CStringEnds(args[i], t);
  }

  class Process {
    const memory: array<byte>
    const argv: seq<nat>             // the pointers of the original argument vector
    var space: int32                 // zero until it is measured
    ghost const original: seq<Text>

    /** A process as it was started: nothing has been written to its arguments yet. */
    constructor (mem: array<byte>, pointers: seq<nat>, ghost args: seq<Text>)
      requires LaidOut(mem[..], pointers, args) && AllNulFree(args) && |Join(args)| < 0x8000_0000
      ensures Valid() && space == 0 && memory == mem && argv == pointers && original == args
    {
      memory, argv, space, original := mem, pointers, 0, args;
    }

    ghost predicate Valid()
      reads this, memory
    {
      && |argv| == |original| && |Join(original)| < 0x8000_0000 && |Join(original)| <= memory.Length
      && AllNulFree(original)
      && ((space == 0 && LaidOut(memory[..], argv, original)) || space == |Join(original)|)
    }

    method Measure()
      requires Valid() && space == 0
      modifies this`space
      ensures space == |Join(original)|
    {
      for i := 0 to |argv|
        invariant space == |Join(original[..i])| <= |Join(original)|
      {
        ArgumentAt(memory[..], argv, original, i);
        JoinUpTo(original, i);
        space := space + |StringAt(memory[..], argv[i])| + 1;
      }
      assert original[..|argv|] == original;
    }

    method MemSet(n: nat)
      requires n <= memory.Length
      modifies memory
      ensures memory[..] == Zeros(n) + old(memory[n..])
    {
      for i := 0 to n
        invariant memory[..i] == Zeros(i) && memory[i..] == old(memory[i..])
      {
        assert old(memory[i..])[1..] == old(memory[i + 1..]);
        memory[i] := 0;
        assert memory[..i + 1] == memory[..i] + [0];
        assert Zeros(i + 1) == Zeros(i) + [0];
      }
      assert memory[..] == memory[..n] + memory[n..];
    }

    method MemCpy(source: Text, n: nat)
      requires n <= |source| && n <= memory.Length
      modifies memory
      ensures memory[..] == source[..n] + old(memory[n..])
    {
      for i := 0 to n
        invariant memory[..i] == source[..i] && memory[i..] == old(memory[i..])
      {
        assert old(memory[i..])[1..] == old(memory[i + 1..]);
        memory[i] := source[i];
        assert memory[..i + 1] == memory[..i] + [source[i]];
        assert source[..i + 1] == source[..i] + [source[i]];
      }
      assert memory[..] == memory[..n] + memory[n..];
    }

    /** The block that is copied to the area. */
    method Joined(source: seq<Text>) returns (block: Text)
      ensures block == Join(source)
    {
      block := [];
      for i := 0 to |source|
        invariant block == Join(source[..i])
      {
        JoinUpTo(source, i);
        block := block + source[i] + [0];
      }
      assert source[..|source|] == source;
    }

    /** Afterwards the area shows the new arguments; nothing outside of it is written. */
    method RenameProcess(source: seq<Text>)
      requires Valid()
      modifies this`space, memory
      ensures Valid()
      ensures source == [] || argv == [] ==> space == old(space) && memory[..] == old(memory[..])
      ensures source != [] && argv != [] ==>
                space == |Join(original)| > 0 && memory[..] == Shown(source, space) + old(memory[..])[space..]
    {
      if source == [] || argv == [] { return; }
      JoinEnds(original);
      if space == 0 { Measure(); }
      var newArgv := Joined(source);
      var cast := ToInt32(|newArgv| % 0x1_0000_0000);
      var needed := if space < cast then space else cast;
      ghost var tail := memory[space..];
      MemSet(space);
      Rewritten(source, space, tail);
      if needed > 0 {
        MemCpy(newArgv, needed);
        memory[needed - 1] := 0;
      }
    }
  }

  // ---------------------------------------------------------------- what the area shows

  /** The strings in a block, each ended by a NUL. */
  function SplitAtNuls(block: Text): seq<Text>
    decreases |block|
  {
    if block == [] then []
    else
      var s := CString(block);
      [s] + SplitAtNuls(if |s| < |block| then block[|s| + 1..] else [])
  }

  lemma SplitFirst(x: Text, more: Text)
    requires NulFree(x)
    ensures SplitAtNuls(x + [0] + more) == [x] + SplitAtNuls(more)
  {
    CStringEnds(x, more);
    assert (x + [0] + more)[|x| + 1..] == more;
  }

  lemma {:induction false} SplitJoined(args: seq<Text>, tail: Text)
    requires AllNulFree(args)
    ensures SplitAtNuls(Join(args) + tail) == args + SplitAtNuls(tail)
    decreases |args|
  {
    if args == [] {
      assert Join(args) + tail == tail;
    } else {
      var x, xs := args[0], args[1..];
      SplitJoined(xs, tail);
      SplitFirst(x, Join(xs) + tail);
      assert Join(args) + tail == x + [0] + (Join(xs) + tail);
      HeadThenTail(args, SplitAtNuls(tail));
    }
  }

  lemma {:induction false} JoinBound(args: seq<Text>, most: nat)
    requires forall i :: 0 <= i < |args| ==> |args[i]| < most
    ensures |Join(args)| <= |args| * most
  {
    if args != [] { JoinBound(args[1..], most); }
  }

  /** The cast does no harm to arguments within the limits of the decoder. */
  lemma DecodedFits(args: seq<Text>)
    requires |args| < Connections.ARG_MAX && forall i :: 0 <= i < |args| ==> |args[i]| < STR_LEN_MAX
    ensures |Join(args)| < 0x8000_0000
  {
    JoinBound(args, STR_LEN_MAX);
  }

  lemma NeededInFull(size: nat, space: nat)
    requires size < 0x8000_0000
    ensures Needed(size, space) == if size <= space then size else space
  {
  }

  lemma WholeBlock(j: Text)
    requires j != [] && j[|j| - 1] == 0
    ensures j[..|j| - 1] + [0] == j
  {
  }

  lemma NoZeros(s: Text)
    ensures s + Zeros(0) == s
  {
  }

  /** Below 2^31 bytes: all of the arguments and zeros, or as much of them as fits and a NUL. */
  lemma ShownInFull(args: seq<Text>, space: nat)
    requires args != [] && space > 0 && |Join(args)| < 0x8000_0000
    ensures |Join(args)| <= space ==> Shown(args, space) == Join(args) + Zeros(space - |Join(args)|)
    ensures |Join(args)| > space ==> Shown(args, space) == Join(args)[..space - 1] + [0]
  {
    JoinEnds(args);
    NeededInFull(|Join(args)|, space);
    if |Join(args)| <= space { WholeBlock(Join(args)); } else { NoZeros(Join(args)[..space - 1] + [0]); }
  }

  /** Beyond that the size of the arguments wraps around: if what is left of it is negative or zero as
      an int, the area shows nothing, and otherwise only so much of the arguments, and a NUL. */
  lemma ShownWrapped(args: seq<Text>, space: nat)
    requires space < 0x8000_0000
    ensures var left := |Join(args)| % 0x1_0000_0000;
            && (left == 0 || left >= 0x8000_0000 ==> Shown(args, space) == Zeros(space))
            && (0 < left < 0x8000_0000 && 0 < space ==>
                  var n := if space < left then space else left;
                  n <= |Join(args)| && Shown(args, space) == Join(args)[..n - 1] + [0] + Zeros(space - n))
  {
  }

  /** The area ends with a NUL, and arguments that fit can be read back from it. */
  lemma ShownReadsBack(args: seq<Text>, space: nat)
    requires args != [] && space > 0
    ensures Shown(args, space)[space - 1] == 0
    ensures |Join(args)| <= space && |Join(args)| < 0x8000_0000 && AllNulFree(args) ==>
              args <= SplitAtNuls(Shown(args, space))
  {
    if |Join(args)| <= space && |Join(args)| < 0x8000_0000 && AllNulFree(args) {
      ShownInFull(args, space);
      SplitJoined(args, Zeros(space - |Join(args)|));
    }
  }

  /** The memory after renaming the process once. */
  function Renamed(mem: Text, space: nat, source: seq<Text>): (r: Text)
    requires 0 < space <= |mem|
    ensures |r| == |mem|
  {
    if source == [] then mem else Shown(source, space) + mem[space..]
  }

  function RenamedAll(mem: Text, space: nat, sources: seq<seq<Text>>): Text
    requires 0 < space <= |mem|
    decreases |sources|
  {
    if sources == [] then mem else RenamedAll(Renamed(mem, space, sources[0]), space, sources[1..])
  }

  /** After any number of renamings only the last one shows, and nothing outside the area that was
      measured first has changed. */
  lemma {:induction false} LastRenameShows(mem: Text, space: nat, sources: seq<seq<Text>>, last: seq<Text>)
    requires 0 < space <= |mem| && last != []
    ensures RenamedAll(mem, space, sources + [last]) == Shown(last, space) + mem[space..]
    decreases |sources|
  {
    if sources == [] {
      assert [] + [last] == [last] && [last][1..] == [];
    } else {
      var next := Renamed(mem, space, sources[0]);
      assert next[space..] == mem[space..];
      assert (sources + [last])[1..] == sources[1..] + [last];
      LastRenameShows(next, space, sources[1..], last);
    }
  }
}
