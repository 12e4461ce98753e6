/** The reap loop, which erases from the vector it walks over and may append to it, refines a
    plain specification: wait once for each child, in order, settle the dead and keep the others. */
module SupervisorReap {
  import opened Basics
  import opened Supervisor
  import opened SupervisorSafety

  predicate Dead(procs: map<int32, Child>, pid: int32) {
    pid in procs && procs[pid].fate.Some?
  }

  function OneSurvivor(c: int32, procs: map<int32, Child>): seq<int32> { if Dead(procs, c) then [] else [c] }

  /** The living children, in their original order. */
  function Survivors(cs: seq<int32>, procs: map<int32, Child>): seq<int32> {
    if cs == [] then [] else OneSurvivor(cs[0], procs) + Survivors(cs[1..], procs)
  }

  ghost function DeadSet(procs: map<int32, Child>): set<int32> {
    set p | p in procs && procs[p].fate.Some?
  }

  /** The effects of reaping and settling the dead child `c`. */
  ghost function SettleEffects(c: int32, s: State): seq<Effect>
    requires s.d.toPid.Keys == s.d.toFd.Keys && Dead(s.k.procs, c)
  {
    var st := s.k.procs[c].fate.value;
    [Reaped(c, st)] + (if c in s.d.toPid then Outcome(Pending(s.d)[c], st) else [])
  }

  function ForkEffect(s: State, p: int32): Effect {
    Forked(p, s.d.bootMode, if s.d.bootMode then 0 else BOOSTER_SLEEP_TIME, LeftOpen(s.k.open, s.d.toFd))
  }

  /** The effects of coming to child `c`: it is waited for; if it is dead it is settled, and the
      booster's replacement follows its outcome. */
  ghost function ReapEffects(c: int32, s: State, replacement: int32): seq<Effect>
    requires s.d.toPid.Keys == s.d.toFd.Keys
  {
    [Waited(c)] +
    if !Dead(s.k.procs, c) then []
    else SettleEffects(c, s) + (if c == s.d.boosterPid then [ForkEffect(s, replacement)] else [])
  }

  ghost function ReapLog(cs: seq<int32>, s: State, replacement: int32): seq<Effect>
    requires s.d.toPid.Keys == s.d.toFd.Keys
  {
    if cs == [] then [] else ReapEffects(cs[0], s, replacement) + ReapLog(cs[1..], s, replacement)
  }

  /** From position `i` on, fork will succeed once the booster is reaped: its answer is a pid that
      is unused, or that of a dead child reaped no later than the booster itself. */
  ghost predicate ForkReady(s: State, i: nat) {
    Dead(s.k.procs, s.d.boosterPid) ==>
      && s.k.forks != [] && s.k.forks[0] > 0
      && (s.k.forks[0] in s.k.procs ==>
            Dead(s.k.procs, s.k.forks[0]) &&
            exists j :: i <= j < |s.d.children| && s.d.children[j] == s.k.forks[0] &&
                        (forall x :: i <= x < j ==> s.d.children[x] != s.d.boosterPid))
  }

  ghost function Replacement(s: State): seq<int32>
    requires Dead(s.k.procs, s.d.boosterPid) ==> s.k.forks != []
  {
    if Dead(s.k.procs, s.d.boosterPid) then [s.k.forks[0]] else []
  }

  /** The replacement stands at the end of the vector, so it is waited for as well. */
  ghost function ReplacementPoll(s: State): seq<Effect>
    requires Dead(s.k.procs, s.d.boosterPid) ==> s.k.forks != []
  {
    if Dead(s.k.procs, s.d.boosterPid) then [Waited(s.k.forks[0])] else []
  }

  ghost function ReplacementPid(s: State): int32 {
    if Dead(s.k.procs, s.d.boosterPid) && s.k.forks != [] then s.k.forks[0] else s.d.boosterPid
  }

  /** What the loop does from position `i` on: `t` in terms of `s`. */
  ghost predicate ReapSpec(s: State, i: nat, t: State)
    requires i <= |s.d.children| && s.d.toPid.Keys == s.d.toFd.Keys
    requires Dead(s.k.procs, s.d.boosterPid) ==> s.k.forks != []
  {
    && t.d.up && t.d.bootMode == s.d.bootMode
    && t.d.children == s.d.children[..i] + Survivors(s.d.children[i..], s.k.procs) + Replacement(s)
    && t.d.boosterPid == ReplacementPid(s)
    && t.d.toPid == s.d.toPid - DeadSet(s.k.procs)
    && t.d.toFd == s.d.toFd - DeadSet(s.k.procs)
    && t.k.log == s.k.log + ReapLog(s.d.children[i..], s, ReplacementPid(s)) + ReplacementPoll(s)
  }

  /** What the bookkeeping below needs of a state. */
  ghost predicate Shape(s: State) {
    && NoDup(s.d.children) && (forall p :: p in s.d.children <==> p in s.k.procs)
    && s.d.toPid.Keys == s.d.toFd.Keys
    && (Dead(s.k.procs, s.d.boosterPid) ==> s.k.forks != [])
  }

  ghost predicate LoopAt(s: State, i: nat) {
    && s.d.up && Inv(s) && s.k.turns == [] && i <= |s.d.children| && ForkReady(s, i)
    && (forall x :: 0 <= x < i ==> !Dead(s.k.procs, s.d.children[x]))
  }

  // ---------------------------------------------------------------- lists and lookups

  lemma SurvivorsFirst(cs: seq<int32>, i: nat, procs: map<int32, Child>)
    requires i < |cs|
    ensures Survivors(cs[i..], procs) == OneSurvivor(cs[i], procs) + Survivors(cs[i + 1..], procs)
  {
    assert cs[i..][1..] == cs[i + 1..];
  }

  lemma {:induction false} SurvivorsAppend(a: seq<int32>, b: seq<int32>, procs: map<int32, Child>)
    ensures Survivors(a + b, procs) == Survivors(a, procs) + Survivors(b, procs)
    decreases |a|
  {
    if a == [] {
      assert a + b == b;
    } else {
      SurvivorsAppend(a[1..], b, procs);
      assert (a + b)[1..] == a[1..] + b;
      Regroup(OneSurvivor(a[0], procs), Survivors(a[1..], procs), Survivors(b, procs));
    }
  }

  lemma ReapLogFirst(cs: seq<int32>, i: nat, s: State, p: int32)
    requires i < |cs| && s.d.toPid.Keys == s.d.toFd.Keys
    ensures ReapLog(cs[i..], s, p) == ReapEffects(cs[i], s, p) + ReapLog(cs[i + 1..], s, p)
  {
    assert cs[i..][1..] == cs[i + 1..];
  }

  lemma {:induction false} SurvivorsSame(cs: seq<int32>, procs: map<int32, Child>, procs': map<int32, Child>)
    requires forall c :: c in cs ==> (Dead(procs, c) <==> Dead(procs', c))
    ensures Survivors(cs, procs) == Survivors(cs, procs')
    decreases |cs|
  {
    if cs != [] { SurvivorsSame(cs[1..], procs, procs'); }
  }

  /** The two states agree on everything that reaping `c` looks at. */
  ghost predicate SameFor(s: State, s': State, c: int32)
    requires s.d.toPid.Keys == s.d.toFd.Keys && s'.d.toPid.Keys == s'.d.toFd.Keys
  {
    && (Dead(s.k.procs, c) <==> Dead(s'.k.procs, c))
    && (Dead(s.k.procs, c) ==> s.k.procs[c].fate == s'.k.procs[c].fate)
    && (c in s.d.toPid <==> c in s'.d.toPid)
    && (c in s.d.toPid ==> Pending(s.d)[c] == Pending(s'.d)[c])
    && (Dead(s.k.procs, c) ==> (c == s.d.boosterPid <==> c == s'.d.boosterPid))
    && s.d.bootMode == s'.d.bootMode && LeftOpen(s.k.open, s.d.toFd) == LeftOpen(s'.k.open, s'.d.toFd)
  }

  lemma {:induction false} ReapLogSame(cs: seq<int32>, s: State, s': State, p: int32, p': int32)
    requires s.d.toPid.Keys == s.d.toFd.Keys && s'.d.toPid.Keys == s'.d.toFd.Keys
    requires forall c :: c in cs ==> SameFor(s, s', c)
    requires p == p' || s.d.boosterPid !in cs || !Dead(s.k.procs, s.d.boosterPid)
    ensures ReapLog(cs, s, p) == ReapLog(cs, s', p')
    decreases |cs|
  {
    if cs != [] {
      assert SameFor(s, s', cs[0]);
      ReapLogSame(cs[1..], s, s', p, p');
    }
  }

  lemma {:induction false} ReapLogAppend(a: seq<int32>, b: seq<int32>, s: State, p: int32)
    requires s.d.toPid.Keys == s.d.toFd.Keys
    ensures ReapLog(a + b, s, p) == ReapLog(a, s, p) + ReapLog(b, s, p)
    decreases |a|
  {
    if a == [] {
      assert a + b == b;
    } else {
      ReapLogAppend(a[1..], b, s, p);
      assert (a + b)[1..] == a[1..] + b;
      Regroup(ReapEffects(a[0], s, p), ReapLog(a[1..], s, p), ReapLog(b, s, p));
    }
  }

  // ---------------------------------------------------------------- one iteration

  /** `u` is `s` after its living child at `i` has been waited for. */
  ghost predicate PassedAt(s: State, i: nat, u: State)
    requires i < |s.d.children|
  {
    u == s.(k := Polled(s.k, s.d.children[i]))
  }

  lemma PassOverSurvivors(s: State, i: nat)
    requires i < |s.d.children| && !Dead(s.k.procs, s.d.children[i])
    ensures s.d.children[..i + 1] + Survivors(s.d.children[i + 1..], s.k.procs)
         == s.d.children[..i] + Survivors(s.d.children[i..], s.k.procs)
  {
    SurvivorsFirst(s.d.children, i, s.k.procs);
    TakeNext(s.d.children, i);
  }

  lemma PassOverLog(s: State, i: nat, u: State, p: int32)
    requires Shape(s) && i < |s.d.children| && !Dead(s.k.procs, s.d.children[i]) && PassedAt(s, i, u)
    ensures u.k.log + ReapLog(s.d.children[i + 1..], u, p) == s.k.log + ReapLog(s.d.children[i..], s, p)
  {
    var c, cs := s.d.children[i], s.d.children[i + 1..];
    assert Pending(u.d) == Pending(s.d);
    ReapLogSame(cs, s, u, p, p);
    ReapLogFirst(s.d.children, i, s, p);
    assert ReapEffects(c, s, p) == [Waited(c)];
    Regroup(s.k.log, [Waited(c)], ReapLog(cs, s, p));
  }

  /** A living child is passed over. */
  lemma PassOver(s: State, i: nat, u: State, t: State)
    requires Shape(s) && i < |s.d.children| && !Dead(s.k.procs, s.d.children[i]) && PassedAt(s, i, u)
    requires ReapSpec(u, i + 1, t)
    ensures ReapSpec(s, i, t)
  {
    PassOverSurvivors(s, i);
    PassOverLog(s, i, u, ReplacementPid(s));
  }

  /** `s1` is `s` after its dead child at `i` has been erased and settled. */
  ghost predicate ReapedAt(s: State, i: nat, s1: State)
    requires i < |s.d.children| && Dead(s.k.procs, s.d.children[i]) && s.d.toPid.Keys == s.d.toFd.Keys
  {
    var pid := s.d.children[i];
    && s1.d == s.d.(children := Erase(s.d.children, i), toPid := s.d.toPid - {pid}, toFd := s.d.toFd - {pid})
    && s1.k.log == s.k.log + [Waited(pid)] + SettleEffects(pid, s)
    && s1.k.procs.Keys == s.k.procs.Keys - {pid}
    && (forall p :: p in s1.k.procs ==> s1.k.procs[p].fate == s.k.procs[p].fate)
    && s1.k.forks == s.k.forks && s1.k.turns == s.k.turns && s1.k.queue == s.k.queue
    && LeftOpen(s1.k.open, s1.d.toFd) == LeftOpen(s.k.open, s.d.toFd)
  }

  /** Closing a registered descriptor takes away nothing that a child would have kept. */
  lemma SettledKeepsOpen(open: set<int32>, toFd: map<int32, int32>, pid: int32)
    requires forall p :: p in toFd ==> toFd[p] >= 0
    requires forall p, q :: p in toFd && q in toFd && p != q ==> toFd[p] != toFd[q]
    ensures LeftOpen(if pid in toFd then open - {toFd[pid]} else open, toFd - {pid}) == LeftOpen(open, toFd)
  {
    var open' := if pid in toFd then open - {toFd[pid]} else open;
    forall fd
      ensures fd in LeftOpen(open', toFd - {pid}) <==> fd in LeftOpen(open, toFd)
    {
      if fd !in LeftOpen(open, toFd) && fd in open {
        var p :| p in toFd && toFd[p] == fd;
        assert p == pid || p in toFd - {pid};
      }
    }
  }

  lemma SettledIsReaped(s: State, i: nat, st: Status, s0: State, s1: State)
    requires MapsOk(s) && FdsOk(s) && i < |s.d.children| && Dead(s.k.procs, s.d.children[i])
    requires st == s.k.procs[s.d.children[i]].fate.value
    requires JustReaped(State(s.d, Polled(s.k, s.d.children[i])), i, st, s0) && Settled(s0, s.d.children[i], st, s1)
    ensures ReapedAt(s, i, s1)
  {
    assert Pending(s0.d) == Pending(s.d);
    SettledKeepsOpen(s.k.open, s.d.toFd, s.d.children[i]);
  }

  lemma StepReaps(s: State, i: nat) returns (s1: State)
    requires LoopAt(s, i) && i < |s.d.children| && Dead(s.k.procs, s.d.children[i])
    ensures ReapedAt(s, i, s1)
    ensures ReapStep(s, i) == (Respawn(s1, s.d.children[i]), i)
  {
    var st := s.k.procs[s.d.children[i]].fate.value;
    var u := AfterPoll(s, i);
    StepCases(s, i);
    SettledCases(u, i, st);
    s1 := AfterSettle(u, i, st);
    SettledIsReaped(s, i, st, AfterReap(u, i, st), s1);
  }

  lemma RestrictTwice<V>(m: map<int32, V>, pid: int32, dead: set<int32>, rest: set<int32>)
    requires dead == rest + {pid}
    ensures (m - {pid}) - rest == m - dead
  {
  }

  /** The children still to visit look the same after the one at `i` has been settled. */
  lemma RestUnaffected(s: State, i: nat, s1: State)
    requires Shape(s) && i < |s.d.children| && Dead(s.k.procs, s.d.children[i]) && ReapedAt(s, i, s1)
    ensures s.d.children[i] !in s.d.children[i + 1..]
    ensures forall c :: c in s.d.children[i + 1..] ==> SameFor(s, s1, c)
    ensures DeadSet(s.k.procs) == DeadSet(s1.k.procs) + {s.d.children[i]}
    ensures s1.d.toPid - DeadSet(s1.k.procs) == s.d.toPid - DeadSet(s.k.procs)
    ensures s1.d.toFd - DeadSet(s1.k.procs) == s.d.toFd - DeadSet(s.k.procs)
  {
    forall c | c in s.d.children[i + 1..]
      ensures SameFor(s, s1, c)
    {
      assert c in s.d.children;
    }
    RestrictTwice(s.d.toPid, s.d.children[i], DeadSet(s.k.procs), DeadSet(s1.k.procs));
    RestrictTwice(s.d.toFd, s.d.children[i], DeadSet(s.k.procs), DeadSet(s1.k.procs));
  }

  lemma RegroupFive<T>(a: seq<T>, w: seq<T>, b: seq<T>, c: seq<T>, d: seq<T>)
    ensures a + ((w + (b + c)) + d) == (((a + w) + b) + c) + d
  {
  }

  /** The part of the effects that concerns the child at `i`. */
  lemma ReapLogHead(s: State, i: nat, s1: State, p: int32)
    requires Shape(s) && i < |s.d.children| && Dead(s.k.procs, s.d.children[i]) && ReapedAt(s, i, s1)
    ensures var pid := s.d.children[i];
            s.k.log + ReapLog(s.d.children[i..], s, p)
            == s1.k.log + (if pid == s.d.boosterPid then [ForkEffect(s, p)] else [])
               + ReapLog(s.d.children[i + 1..], s, p)
  {
    var pid, rest := s.d.children[i], ReapLog(s.d.children[i + 1..], s, p);
    ReapLogFirst(s.d.children, i, s, p);
    var fork := if pid == s.d.boosterPid then [ForkEffect(s, p)] else [];
    RegroupFive(s.k.log, [Waited(pid)], SettleEffects(pid, s), fork, rest);
  }

  lemma SurvivorsSkip(s: State, i: nat)
    requires i < |s.d.children| && Dead(s.k.procs, s.d.children[i])
    ensures Survivors(s.d.children[i..], s.k.procs) == Survivors(s.d.children[i + 1..], s.k.procs)
  {
    SurvivorsFirst(s.d.children, i, s.k.procs);
  }

  lemma OtherLog(s: State, i: nat, s1: State, p: int32)
    requires Shape(s) && i < |s.d.children| && Dead(s.k.procs, s.d.children[i])
    requires s.d.children[i] != s.d.boosterPid && ReapedAt(s, i, s1)
    ensures s1.k.log + ReapLog(s.d.children[i + 1..], s1, p) == s.k.log + ReapLog(s.d.children[i..], s, p)
  {
    RestUnaffected(s, i, s1);
    ReapLogHead(s, i, s1, p);
    ReapLogSame(s.d.children[i + 1..], s, s1, p, p);
    assert s1.k.log + [] == s1.k.log;
  }

  lemma RestSurvivors(s: State, i: nat, procs: map<int32, Child>)
    requires Shape(s) && i < |s.d.children| && Dead(s.k.procs, s.d.children[i])
    requires forall c :: c in s.d.children[i + 1..] ==> (Dead(s.k.procs, c) <==> Dead(procs, c))
    ensures Survivors(s.d.children[i + 1..], procs) == Survivors(s.d.children[i..], s.k.procs)
  {
    SurvivorsSkip(s, i);
    SurvivorsSame(s.d.children[i + 1..], s.k.procs, procs);
  }

  /** A dead child that is not the current booster. */
  lemma ReapOther(s: State, i: nat, s1: State, t: State)
    requires Shape(s) && i < |s.d.children| && Dead(s.k.procs, s.d.children[i])
    requires s.d.children[i] != s.d.boosterPid && ReapedAt(s, i, s1)
    requires Shape(s1) && i <= |s1.d.children| && ReapSpec(s1, i, t)
    ensures ReapSpec(s, i, t)
  {
    assert s1.d.children[i..] == s.d.children[i + 1..] && s1.d.children[..i] == s.d.children[..i];
    RestUnaffected(s, i, s1);
    assert Dead(s1.k.procs, s.d.boosterPid) <==> Dead(s.k.procs, s.d.boosterPid);
    RestSurvivors(s, i, s1.k.procs);
    OtherLog(s, i, s1, ReplacementPid(s));
  }

  /** `s2` is `s1` with a new booster `p` forked in place of the dead one. */
  ghost predicate RespawnedAs(s1: State, p: int32, s2: State) {
    && s2.d == s1.d.(children := s1.d.children + [p], boosterPid := p)
    && s2.k.log == s1.k.log + [ForkEffect(s1, p)]
    && s2.k.procs == s1.k.procs[p := Child(s1.d.bootMode, false, false, None)]
    && s2.k.open == s1.k.open && p !in s1.k.procs
  }

  lemma BoosterRest(s: State, i: nat, s1: State, p: int32, s2: State)
    requires Shape(s) && i < |s.d.children| && Dead(s.k.procs, s.d.children[i])
    requires s.d.children[i] == s.d.boosterPid && ReapedAt(s, i, s1) && RespawnedAs(s1, p, s2)
    ensures s2.d.children[i..] == s.d.children[i + 1..] + [p] && s2.d.children[..i] == s.d.children[..i]
    ensures forall c :: c in s.d.children[i + 1..] ==> SameFor(s, s2, c) && c != p
    ensures DeadSet(s2.k.procs) == DeadSet(s1.k.procs)
  {
    RestUnaffected(s, i, s1);
    forall c | c in s.d.children[i + 1..]
      ensures SameFor(s, s2, c) && c != p
    {
      assert SameFor(s, s1, c) && c in s.d.children && c != s.d.children[i];
    }
  }

  lemma ReapLogOne(c: int32, s: State, p: int32)
    requires s.d.toPid.Keys == s.d.toFd.Keys && !Dead(s.k.procs, c)
    ensures ReapLog([c], s, p) == [Waited(c)]
  {
    assert [c][1..] == [];
    assert ReapEffects(c, s, p) == [Waited(c)];
    assert [Waited(c)] + [] == [Waited(c)];
  }

  lemma BoosterLog(s: State, i: nat, s1: State, p: int32, s2: State)
    requires Shape(s) && i < |s.d.children| && Dead(s.k.procs, s.d.children[i])
    requires s.d.children[i] == s.d.boosterPid && ReapedAt(s, i, s1) && RespawnedAs(s1, p, s2)
    ensures s2.k.log + ReapLog(s2.d.children[i..], s2, p)
         == s.k.log + ReapLog(s.d.children[i..], s, p) + [Waited(p)]
  {
    var tail := s.d.children[i + 1..];
    BoosterRest(s, i, s1, p, s2);
    ReapLogAppend(tail, [p], s2, p);
    ReapLogOne(p, s2, p);
    ReapLogSame(tail, s, s2, p, p);
    ReapLogHead(s, i, s1, p);
    Regroup(s2.k.log, ReapLog(tail, s, p), [Waited(p)]);
  }

  lemma BoosterSurvivors(s: State, i: nat, s1: State, p: int32, s2: State)
    requires Shape(s) && i < |s.d.children| && Dead(s.k.procs, s.d.children[i])
    requires s.d.children[i] == s.d.boosterPid && ReapedAt(s, i, s1) && RespawnedAs(s1, p, s2)
    ensures Survivors(s2.d.children[i..], s2.k.procs) == Survivors(s.d.children[i..], s.k.procs) + [p]
  {
    BoosterRest(s, i, s1, p, s2);
    SurvivorsAppend(s.d.children[i + 1..], [p], s2.k.procs);
    RestSurvivors(s, i, s2.k.procs);
    assert Survivors([p], s2.k.procs) == [p];
  }

  /** The current booster: it is settled, and its replacement goes to the end of the vector. */
  lemma ReapBooster(s: State, i: nat, s1: State, p: int32, s2: State, t: State)
    requires Shape(s) && i < |s.d.children| && Dead(s.k.procs, s.d.children[i])
    requires s.d.children[i] == s.d.boosterPid && ReapedAt(s, i, s1) && RespawnedAs(s1, p, s2)
    requires p == s.k.forks[0]
    requires i <= |s2.d.children| && ReapSpec(s2, i, t)
    ensures ReapSpec(s, i, t)
  {
    BoosterRest(s, i, s1, p, s2);
    BoosterSurvivors(s, i, s1, p, s2);
    BoosterLog(s, i, s1, p, s2);
    RestUnaffected(s, i, s1);
    assert !Dead(s2.k.procs, p) && Replacement(s2) == [] && ReplacementPoll(s2) == [];
  }

  // ---------------------------------------------------------------- the loop

  lemma ReapSpecAtEnd(s: State)
    requires LoopAt(s, |s.d.children|)
    ensures ReapSpec(s, |s.d.children|, s)
  {
    assert s.d.children[|s.d.children|..] == [] && DeadSet(s.k.procs) == {};
    assert s.d.toPid - {} == s.d.toPid && s.d.toFd - {} == s.d.toFd;
    assert s.d.boosterPid in s.d.children;
  }

  lemma StepPasses(s: State, i: nat) returns (u: State)
    requires LoopAt(s, i) && i < |s.d.children| && !Dead(s.k.procs, s.d.children[i])
    ensures PassedAt(s, i, u) && ReapStep(s, i) == (u, i + 1) && LoopAt(u, i + 1)
  {
    assert s.d.children[i] in s.d.children;
    u := s.(k := Polled(s.k, s.d.children[i]));
    PollKeeps(s, s.d.children[i]);
    if Dead(s.k.procs, s.d.boosterPid) && s.k.forks[0] in s.k.procs {
      var j :| i <= j < |s.d.children| && s.d.children[j] == s.k.forks[0] &&
               (forall x :: i <= x < j ==> s.d.children[x] != s.d.boosterPid);
      assert j != i;
    }
  }

  lemma StillReady(s: State, i: nat, s1: State)
    requires Shape(s) && ForkReady(s, i) && i < |s.d.children| && Dead(s.k.procs, s.d.children[i])
    requires s.d.children[i] != s.d.boosterPid && ReapedAt(s, i, s1)
    ensures ForkReady(s1, i)
  {
    if Dead(s1.k.procs, s1.d.boosterPid) && s.k.forks[0] in s1.k.procs {
      var j :| i <= j < |s.d.children| && s.d.children[j] == s.k.forks[0] &&
               (forall x :: i <= x < j ==> s.d.children[x] != s.d.boosterPid);
      assert s1.d.children[j - 1] == s.d.children[j];
      assert forall x :: i <= x < j - 1 ==> s1.d.children[x] == s.d.children[x + 1];
    }
  }

  lemma ReadyAfterOther(s: State, i: nat, s1: State)
    requires LoopAt(s, i) && i < |s.d.children| && Dead(s.k.procs, s.d.children[i])
    requires s.d.children[i] != s.d.boosterPid && ReapedAt(s, i, s1)
    requires Inv(s1)
    ensures LoopAt(s1, i)
  {
    StillReady(s, i, s1);
  }

  lemma ForkSucceeds(s: State, i: nat, s1: State)
    requires LoopAt(s, i) && i < |s.d.children| && Dead(s.k.procs, s.d.children[i])
    requires s.d.children[i] == s.d.boosterPid && ReapedAt(s, i, s1)
    ensures s.k.forks[0] > 0 && s.k.forks[0] !in s1.k.procs
    ensures RespawnedAs(s1, s.k.forks[0], Respawn(s1, s.d.boosterPid))
  {
  }

  lemma ReadyAtBooster(s: State, i: nat, s1: State)
    requires LoopAt(s, i) && i < |s.d.children| && Dead(s.k.procs, s.d.children[i])
    requires s.d.children[i] == s.d.boosterPid && ReapedAt(s, i, s1)
    requires Good(Respawn(s1, s.d.boosterPid))
    ensures RespawnedAs(s1, s.k.forks[0], Respawn(s1, s.d.boosterPid)) && LoopAt(Respawn(s1, s.d.boosterPid), i)
  {
    ForkSucceeds(s, i, s1);
    var s2 := Respawn(s1, s.d.boosterPid);
    assert s2.d.children[..i] == s.d.children[..i];
    forall x | 0 <= x < i
      ensures !Dead(s2.k.procs, s2.d.children[x])
    {
      assert s2.d.children[x] == s.d.children[x];
    }
  }

  lemma LoopShape(s: State, i: nat)
    requires LoopAt(s, i)
    ensures Shape(s)
  {
  }

  // One turn of the loop, by what it finds.

  lemma TurnPasses(s: State, i: nat) returns (u: State)
    requires LoopAt(s, i) && i < |s.d.children| && !Dead(s.k.procs, s.d.children[i])
    ensures PassedAt(s, i, u) && LoopAt(u, i + 1) && ReapFrom(s, i) == ReapFrom(u, i + 1)
  {
    u := StepPasses(s, i);
  }

  lemma TurnReapsOther(s: State, i: nat) returns (s1: State)
    requires LoopAt(s, i) && i < |s.d.children| && Dead(s.k.procs, s.d.children[i])
    requires s.d.children[i] != s.d.boosterPid
    ensures ReapedAt(s, i, s1) && LoopAt(s1, i) && ReapFrom(s, i) == ReapFrom(s1, i)
  {
    s1 := StepReaps(s, i);
    ReapStepKeeps(s, i);
    ReadyAfterOther(s, i, s1);
  }

  lemma TurnReapsBooster(s: State, i: nat) returns (s1: State, s2: State)
    requires LoopAt(s, i) && i < |s.d.children| && Dead(s.k.procs, s.d.children[i])
    requires s.d.children[i] == s.d.boosterPid && s.k.forks != []
    ensures ReapedAt(s, i, s1) && RespawnedAs(s1, s.k.forks[0], s2) && LoopAt(s2, i)
    ensures |s2.k.forks| < |s.k.forks| && ReapFrom(s, i) == ReapFrom(s2, i)
  {
    s1 := StepReaps(s, i);
    ReapStepKeeps(s, i);
    ReadyAtBooster(s, i, s1);
    s2 := Respawn(s1, s.d.boosterPid);
  }

  lemma {:induction false} ReapFromRefines(s: State, i: nat)
    requires LoopAt(s, i)
    ensures Shape(s) && ReapSpec(s, i, ReapFrom(s, i))
    decreases |s.k.forks|, |s.d.children| - i
  {
    LoopShape(s, i);
    if i == |s.d.children| {
      ReapSpecAtEnd(s);
    } else if !Dead(s.k.procs, s.d.children[i]) {
      var u := TurnPasses(s, i);
      ReapFromRefines(u, i + 1);
      PassOver(s, i, u, ReapFrom(u, i + 1));
    } else if s.d.children[i] != s.d.boosterPid {
      var s1 := TurnReapsOther(s, i);
      ReapFromRefines(s1, i);
      ReapOther(s, i, s1, ReapFrom(s1, i));
    } else {
      var s1, s2 := TurnReapsBooster(s, i);
      ReapFromRefines(s2, i);
      ReapBooster(s, i, s1, s.k.forks[0], s2, ReapFrom(s2, i));
    }
  }

  ghost function PollOf(e: Effect): seq<int32> { if e.Waited? then [e.pid] else [] }

  /** The children waited for, in order. */
  ghost function Polls(es: seq<Effect>): seq<int32> {
    if es == [] then [] else PollOf(es[0]) + Polls(es[1..])
  }

  lemma {:induction false} PollsAppend(a: seq<Effect>, b: seq<Effect>)
    ensures Polls(a + b) == Polls(a) + Polls(b)
    decreases |a|
  {
    if a == [] {
      assert a + b == b;
    } else {
      PollsAppend(a[1..], b);
      assert (a + b)[1..] == a[1..] + b;
      Regroup(PollOf(a[0]), Polls(a[1..]), Polls(b));
    }
  }

  lemma {:induction false} NoPolls(es: seq<Effect>)
    requires forall x :: 0 <= x < |es| ==> !es[x].Waited?
    ensures Polls(es) == []
    decreases |es|
  {
    if es != [] { NoPolls(es[1..]); }
  }

  lemma OnePoll(c: int32, s: State, p: int32)
    requires s.d.toPid.Keys == s.d.toFd.Keys
    ensures Polls(ReapEffects(c, s, p)) == [c]
  {
    var rest := ReapEffects(c, s, p)[1..];
    assert ReapEffects(c, s, p) == [Waited(c)] + rest;
    NoPolls(rest);
  }

  lemma {:induction false} ReapLogPolls(cs: seq<int32>, s: State, p: int32)
    requires s.d.toPid.Keys == s.d.toFd.Keys
    ensures Polls(ReapLog(cs, s, p)) == cs
    decreases |cs|
  {
    if cs != [] {
      PollsAppend(ReapEffects(cs[0], s, p), ReapLog(cs[1..], s, p));
      OnePoll(cs[0], s, p);
      ReapLogPolls(cs[1..], s, p);
    }
  }

  lemma NewPolls(s: State, t: State, p: int32)
    requires s.d.toPid.Keys == s.d.toFd.Keys && (Dead(s.k.procs, s.d.boosterPid) ==> s.k.forks != [])
    requires t.k.log == s.k.log + ReapLog(s.d.children, s, p) + ReplacementPoll(s)
    ensures Polls(t.k.log[|s.k.log|..]) == s.d.children + Replacement(s)
  {
    assert t.k.log[|s.k.log|..] == ReapLog(s.d.children, s, p) + ReplacementPoll(s);
    PollsAppend(ReapLog(s.d.children, s, p), ReplacementPoll(s));
    ReapLogPolls(s.d.children, s, p);
    if Dead(s.k.procs, s.d.boosterPid) { assert [Waited(s.k.forks[0])][1..] == []; }
  }

  lemma FromStart(s: State, t: State)
    requires Shape(s) && ReapSpec(s, 0, t)
    ensures t.d.children == Survivors(s.d.children, s.k.procs) + Replacement(s)
    ensures t.k.log == s.k.log + ReapLog(s.d.children, s, ReplacementPid(s)) + ReplacementPoll(s)
  {
    assert s.d.children[0..] == s.d.children && s.d.children[..0] == [];
    assert [] + Survivors(s.d.children, s.k.procs) == Survivors(s.d.children, s.k.procs);
  }

  /** The theorem: with the children that are dead at entry and no further deaths, the loop waits
      for every child once, in order, and then for the replacement; it keeps the survivors in order,
      appends one replacement exactly when the current booster was dead, drops exactly the dead from
      both maps, and its effects are those of settling each dead child once, in order. */
  lemma ReapZombiesRefines(s: State)
    requires s.d.up && Inv(s) && s.k.turns == [] && ForkReady(s, 0)
    ensures var t := ReapZombies(s);
            var dead := Dead(s.k.procs, s.d.boosterPid);
            && t.d.up && t.d.bootMode == s.d.bootMode
            && t.d.children == Survivors(s.d.children, s.k.procs) + (if dead then [s.k.forks[0]] else [])
            && t.d.boosterPid == (if dead then s.k.forks[0] else s.d.boosterPid)
            && t.d.toPid == s.d.toPid - DeadSet(s.k.procs) && t.d.toFd == s.d.toFd - DeadSet(s.k.procs)
            && t.k.log == s.k.log + ReapLog(s.d.children, s, t.d.boosterPid) + ReplacementPoll(s)
            && Polls(t.k.log[|s.k.log|..]) == s.d.children + (if dead then [s.k.forks[0]] else [])
  {
    ReapFromRefines(s, 0);
    FromStart(s, ReapZombies(s));
    NewPolls(s, ReapZombies(s), ReplacementPid(s));
  }

  // ---------------------------------------------------------------- while children go on dying

  ghost function ForkOf(e: Effect): seq<int32> { if e.Forked? then [e.pid] else [] }

  /** The children forked, in order. */
  ghost function Forks(es: seq<Effect>): seq<int32> {
    if es == [] then [] else ForkOf(es[0]) + Forks(es[1..])
  }

  lemma {:induction false} ForksAppend(a: seq<Effect>, b: seq<Effect>)
    ensures Forks(a + b) == Forks(a) + Forks(b)
    decreases |a|
  {
    if a == [] {
      assert a + b == b;
    } else {
      ForksAppend(a[1..], b);
      assert (a + b)[1..] == a[1..] + b;
      Regroup(ForkOf(a[0]), Forks(a[1..]), Forks(b));
    }
  }

  lemma {:induction false} NoForks(es: seq<Effect>)
    requires forall x :: 0 <= x < |es| ==> !es[x].Forked?
    ensures Forks(es) == []
    decreases |es|
  {
    if es != [] { NoForks(es[1..]); }
  }

  /** What one waitpid adds to the history. */
  lemma WaitEffects(k: Kernel, pid: int32) returns (es: seq<Effect>)
    ensures WaitPid(k, pid).0.log == k.log + es && Polls(es) == [pid] && Forks(es) == []
  {
    TakeTurnKeeps(k);
    var t := TakeTurn(k);
    es := [Waited(pid)] + if pid !in t.procs then [WaitFailed(pid)]
                          else if t.procs[pid].fate.Some? then [Reaped(pid, t.procs[pid].fate.value)] else [];
    Regroup(k.log, [Waited(pid)], es[1..]);
    NoPolls(es[1..]);
    NoForks(es);
  }

  lemma SettleEffectsOnly(s: State, pid: int32, st: Status) returns (es: seq<Effect>)
    requires s.d.toPid.Keys == s.d.toFd.Keys && (forall p :: p in s.d.toPid ==> s.d.toPid[p] > 0)
    ensures SettleLaunch(s, pid, st).k.log == s.k.log + es && Polls(es) == [] && Forks(es) == []
  {
    SettleLaunchSettles(s, pid, st);
    es := if pid in s.d.toPid then Outcome(Pending(s.d)[pid], st) else [];
    NoPolls(es);
    NoForks(es);
  }

  lemma RespawnEffects(s: State, pid: int32) returns (es: seq<Effect>)
    ensures var t := Respawn(s, pid);
            t.k.log == s.k.log + es && Polls(es) == [] && (t.d.up ==> t.d.children == s.d.children + Forks(es))
  {
    es := Respawn(s, pid).k.log[|s.k.log|..];
    NoPolls(es);
    if es != [] { assert es[1..] == []; }
  }

  /** `t` has `es` more in its history, and from `j` on its vector holds `cs` and what was forked. */
  ghost predicate Adds(log: seq<Effect>, es: seq<Effect>, cs: seq<int32>, t: State, j: nat) {
    t.k.log == log + es && (t.d.up ==> j <= |t.d.children| && t.d.children[j..] == cs + Forks(es))
  }

  lemma TailGrows(cs: seq<int32>, i: nat, more: seq<int32>)
    requires i <= |cs|
    ensures (cs + more)[i..] == cs[i..] + more
  {
  }

  lemma ErasedTail(cs: seq<int32>, i: nat)
    requires i < |cs|
    ensures |Erase(cs, i)| == |cs| - 1 && Erase(cs, i)[i..] == cs[i + 1..]
  {
  }

  lemma TwoEffects(a: seq<Effect>, b: seq<Effect>)
    ensures Polls(a + b) == Polls(a) + Polls(b) && Forks(a + b) == Forks(a) + Forks(b)
  {
    PollsAppend(a, b);
    ForksAppend(a, b);
  }

  lemma AddsMore(log: seq<Effect>, first: seq<Effect>, more: seq<Effect>, cs: seq<int32>, t: State, i: nat)
    requires Adds(log + first, more, cs, t, i) && Forks(first) == [] && Polls(more) == []
    ensures Adds(log, first + more, cs, t, i) && Polls(first + more) == Polls(first)
  {
    Regroup(log, first, more);
    TwoEffects(first, more);
    assert Polls(first) + [] == Polls(first);
    assert [] + Forks(more) == Forks(more);
  }

  /** Settling and replacing a child that was reaped and erased at `i`. */
  lemma GoneEffects(s1: State, pid: int32, st: Status, i: nat) returns (es: seq<Effect>)
    requires s1.d.toPid.Keys == s1.d.toFd.Keys && (forall p :: p in s1.d.toPid ==> s1.d.toPid[p] > 0)
    requires i <= |s1.d.children|
    ensures Adds(s1.k.log, es, s1.d.children[i..], Respawn(SettleLaunch(s1, pid, st), pid), i) && Polls(es) == []
  {
    SettleLaunchFrame(s1, pid, st);
    var s2 := SettleLaunch(s1, pid, st);
    var a := SettleEffectsOnly(s1, pid, st);
    var b := RespawnEffects(s2, pid);
    TailGrows(s1.d.children, i, Forks(b));
    AddsMore(s1.k.log, a, b, s1.d.children[i..], Respawn(s2, pid), i);
    es := a + b;
  }

  lemma StepGone(s: State, i: nat, k: Kernel, st: Status)
    requires i < |s.d.children| && WaitPid(s.k, s.d.children[i]) == (k, Gone(st))
    ensures var pid := s.d.children[i];
            var s1 := State(s.d.(children := Erase(s.d.children, i)), k);
            ReapStep(s, i) == (Respawn(SettleLaunch(s1, pid, st), pid), i)
  {
  }

  lemma ReapedEffects(s: State, i: nat, k: Kernel, st: Status, first: seq<Effect>) returns (es: seq<Effect>)
    requires i < |s.d.children| && MapsOk(s) && k.log == s.k.log + first
    requires Polls(first) == [s.d.children[i]] && Forks(first) == []
    ensures var pid := s.d.children[i];
            var s1 := State(s.d.(children := Erase(s.d.children, i)), k);
            Adds(s.k.log, es, s.d.children[i + 1..], Respawn(SettleLaunch(s1, pid, st), pid), i) && Polls(es) == [pid]
  {
    var s1 := State(s.d.(children := Erase(s.d.children, i)), k);
    ErasedTail(s.d.children, i);
    var more := GoneEffects(s1, s.d.children[i], st, i);
    var t := Respawn(SettleLaunch(s1, s.d.children[i], st), s.d.children[i]);
    AddsMore(s.k.log, first, more, s.d.children[i + 1..], t, i);
    es := first + more;
  }

  lemma StepEffects(s: State, i: nat) returns (es: seq<Effect>)
    requires s.d.up && i < |s.d.children| && Inv(s)
    ensures var (t, j) := ReapStep(s, i);
            Adds(s.k.log, es, s.d.children[i + 1..], t, j) && Polls(es) == [s.d.children[i]]
  {
    var pid := s.d.children[i];
    var first := WaitEffects(s.k, pid);
    WaitPidFindsChild(s, i);
    WaitPidFrame(s.k, pid);
    var (k, w) := WaitPid(s.k, pid);
    if w.Gone? {
      StepGone(s, i, k, w.status);
      es := ReapedEffects(s, i, k, w.status, first);
    } else {
      es := first;
      assert s.d.children[i + 1..] + [] == s.d.children[i + 1..];
    }
  }

  lemma PollsLine(cs: seq<int32>, i: nat, forked: seq<int32>, later: seq<int32>)
    requires i < |cs|
    ensures [cs[i]] + ((cs[i + 1..] + forked) + later) == cs[i..] + (forked + later)
  {
  }

  /** Whatever dies in the meantime: as long as fork succeeds, every child from position `i` on is
      waited for exactly once, in order, and then every child forked on the way. */
  lemma {:induction false} EachPolledOnce(s: State, i: nat) returns (es: seq<Effect>)
    requires s.d.up && Inv(s) && i <= |s.d.children|
    ensures var t := ReapFrom(s, i);
            t.k.log == s.k.log + es && (t.d.up ==> Polls(es) == s.d.children[i..] + Forks(es))
    decreases |s.k.forks|, |s.d.children| - i
  {
    if i == |s.d.children| {
      es := [];
      assert s.k.log + [] == s.k.log;
    } else {
      ReapStepProgress(s, i);
      ReapStepKeeps(s, i);
      var (t, j) := ReapStep(s, i);
      var first := StepEffects(s, i);
      if t.d.up {
        var more := EachPolledOnce(t, j);
        Regroup(s.k.log, first, more);
        TwoEffects(first, more);
        PollsLine(s.d.children, i, Forks(first), Forks(more));
        es := first + more;
      } else {
        es := first;
      }
    }
  }
}
