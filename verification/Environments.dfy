/** What becomes of the environment strings that a booster receives. */
module Environments {
  import opened Basics
  import opened Protocol
  import opened Connections

  lemma {:induction false} PutAppends(env: seq<Text>, v: Text)
    requires forall i :: 0 <= i < |env| ==> NameOf(env[i]) != NameOf(v)
    ensures PutEnv(env, v) == env + [v]
  {
    if env != [] {
      PutAppends(env[1..], v);
      assert [env[0]] + (env[1..] + [v]) == env + [v];
    }
  }

  lemma {:induction false} PutDistinct(env: seq<Text>, vs: seq<Text>)
    requires forall i, j :: 0 <= i < j < |env + vs| ==> NameOf((env + vs)[i]) != NameOf((env + vs)[j])
    requires forall v :: v in vs ==> EQUALS in v
    ensures PutVariables(env, vs) == env + vs
    decreases |vs|
  {
    if vs == [] {
      assert env + vs == env;
    } else {
      assert (env + vs)[|env|] == vs[0];
      assert forall i :: 0 <= i < |env| ==> (env + vs)[i] == env[i];
      PutAppends(env, vs[0]);
      assert env + [vs[0]] + vs[1..] == env + vs;
      PutDistinct(env + [vs[0]], vs[1..]);
    }
  }

  /** An environment proper, each variable of the form NAME=value with its own name, arrives
      unchanged and in order. */
  lemma EnvironmentArrives(vs: seq<Text>)
    requires forall i, j :: 0 <= i < j < |vs| ==> NameOf(vs[i]) != NameOf(vs[j])
    requires forall v :: v in vs ==> EQUALS in v
    ensures PutVariables([], vs) == vs
  {
    assert [] + vs == vs;
    PutDistinct([], vs);
  }

  /** The name goes up to the first '='. */
  lemma {:induction false} NameIs(v: Text)
    ensures var r := NameOf(v); r <= v && 61 !in r && (|r| < |v| ==> v[|r|] == 61)
  {
    if v != [] && v[0] != EQUALS { NameIs(v[1..]); }
  }

  /** No string in `env` has this name. */
  ghost predicate Absent(env: seq<Text>, name: Text) { forall x :: x in env ==> NameOf(x) != name }

  ghost predicate DistinctNames(env: seq<Text>) {
    env == [] || (Absent(env[1..], NameOf(env[0])) && DistinctNames(env[1..]))
  }

  /** `r` is `env` with `v` in the place of every string of its name. */
  ghost predicate Replaced(env: seq<Text>, v: Text, r: seq<Text>) {
    forall x :: x in r <==> x == v || (x in env && NameOf(x) != NameOf(v))
  }

  lemma InFirst(env: seq<Text>)
    requires env != []
    ensures forall x :: x in env <==> x == env[0] || x in env[1..]
  {
    assert env == [env[0]] + env[1..];
  }

  /** After putenv the string is there, and no other of its name; nothing else has changed. */
  lemma {:induction false} PutReplaces(env: seq<Text>, v: Text)
    requires DistinctNames(env)
    ensures DistinctNames(PutEnv(env, v)) && Replaced(env, v, PutEnv(env, v))
  {
    hide NameOf;
    var r := PutEnv(env, v);
    InFirst(r);
    if env != [] {
      InFirst(env);
      if NameOf(env[0]) == NameOf(v) {
        assert r[1..] == env[1..];
      } else {
        PutReplaces(env[1..], v);
        assert r[1..] == PutEnv(env[1..], v);
      }
    }
  }

  lemma {:induction false} PutLast(env: seq<Text>, vs: seq<Text>, v: Text)
    ensures PutVariables(env, vs + [v]) == PutVariable(PutVariables(env, vs), v)
    decreases |vs|
  {
    if vs == [] {
      assert [] + [v] == [v] && [v][1..] == [];
    } else {
      assert (vs + [v])[1..] == vs[1..] + [v];
      PutLast(PutVariable(env, vs[0]), vs[1..], v);
    }
  }

  /** The string at `i` is the last one of the form NAME=value with its name. */
  ghost predicate LastOfName(vs: seq<Text>, i: int) {
    0 <= i < |vs| && 61 in vs[i] && forall j :: i < j < |vs| && 61 in vs[j] ==> NameOf(vs[j]) != NameOf(vs[i])
  }

  ghost predicate IsLast(vs: seq<Text>, x: Text) { exists i :: LastOfName(vs, i) && vs[i] == x }

  lemma LastBefore(vs: seq<Text>, v: Text, i: nat)
    requires i < |vs|
    ensures LastOfName(vs + [v], i) <==> LastOfName(vs, i) && (61 in v ==> NameOf(vs[i]) != NameOf(v))
  {
    hide NameOf;
    var ws := vs + [v];
    assert ws[|vs|] == v && forall j :: 0 <= j < |vs| ==> ws[j] == vs[j];
  }

  lemma LastMore(vs: seq<Text>, v: Text, x: Text)
    ensures IsLast(vs + [v], x) <==> (61 in v && x == v) || (IsLast(vs, x) && (61 in v ==> NameOf(x) != NameOf(v)))
  {
    hide NameOf;
    var ws := vs + [v];
    if i: nat :| LastOfName(ws, i) && ws[i] == x {
      if i < |vs| { LastBefore(vs, v, i); }
    }
    if 61 in v && x == v { assert LastOfName(ws, |vs|); }
    if i: nat :| LastOfName(vs, i) && vs[i] == x && (61 in v ==> NameOf(x) != NameOf(v)) { LastBefore(vs, v, i); }
  }

  /** Whatever strings are received: the environment has, for each name that occurs in a string of the
      form NAME=value, the last such string and no other; strings without '=' are dropped. */
  lemma {:induction false} LastOfEachName(vs: seq<Text>)
    ensures DistinctNames(PutVariables([], vs))
    ensures forall x :: x in PutVariables([], vs) <==> IsLast(vs, x)
    decreases |vs|
  {
    if vs != [] {
      var n := |vs| - 1;
      assert vs[..n] + [vs[n]] == vs;
      LastOfEachName(vs[..n]);
      PutLast([], vs[..n], vs[n]);
      PutReplaces(PutVariables([], vs[..n]), vs[n]);
      forall x { LastMore(vs[..n], vs[n], x); }
    }
  }
}
