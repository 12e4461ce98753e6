/** The socket of a booster type: the path the invoker connects to and the path that is bound. */
module SocketPath {
  import opened Basics

  const SUN_PATH: nat := 108
  const SLASH: char := '/'
  const NAME: string := "mapplauncherd"
  const SUBPATH: string := [SLASH] + NAME + [SLASH]
  const TMP: string := "/tmp"

  /** How much of the runtime directory the invoker has room for. */
  const ROOM: nat := SUN_PATH - 1 - |SUBPATH|

  predicate NulFree(s: string) { forall i :: 0 <= i < |s| ==> s[i] != '\0' }

  /** XDG_RUNTIME_DIR, if it is set and not empty. */
  predicate IsSet(dir: Option<string>) { dir.Some? && dir.value != [] }

  function Shortest(n: nat, m: nat): nat { if n < m then n else m }

  function Start(s: string, n: nat): (r: string)
    ensures |r| <= n && |r| <= |s| && (|s| <= n ==> r == s)
  {
    s[..Shortest(|s|, n)]
  }

  /** The path the invoker connects to; None if it dies because of the type. */
  function InvokerPath(dir: Option<string>, appType: string): Option<string> {
    var prefix := Start(if IsSet(dir) then dir.value else TMP, ROOM) + SUBPATH;
    if SUN_PATH - 1 - |prefix| < |appType| || SLASH in appType then None else Some(prefix + appType)
  }

  function RootPath(dir: Option<string>): string {
    (if IsSet(dir) then dir.value else TMP + [SLASH]) + [SLASH] + NAME + [SLASH]
  }

  /** The path the socket manager binds for a type. */
  function BoundPath(dir: Option<string>, socketId: string): string { Start(RootPath(dir) + socketId, SUN_PATH - 1) }

  // ---------------------------------------------------------------- agreement and bound

  lemma RootOf(dir: string)
    ensures dir + [SLASH] + NAME + [SLASH] == dir + SUBPATH
  {
  }

  /** A type is accepted exactly if the whole path leaves room for the NUL; then neither side cuts
      anything off, and the path the invoker connects to is the path that is bound. */
  lemma PathsAgree(dir: string, appType: string)
    requires dir != [] && appType != []
    ensures var p := InvokerPath(Some(dir), appType);
            && (p.Some? <==> SLASH !in appType && |dir + SUBPATH + appType| < SUN_PATH)
            && (p.Some? ==> p.value == BoundPath(Some(dir), appType) == dir + SUBPATH + appType)
  {
    RootOf(dir);
  }

  /** The empty type is accepted with any directory, and its path leaves room for the NUL.  The invoker
      cuts a directory of more than 92 bytes before the name of the launcher and the socket manager
      after it, so the paths agree only if the directory happens to go on like the rest of the path. */
  lemma EmptyType(dir: string)
    requires dir != []
    ensures var p := InvokerPath(Some(dir), []);
            && p.Some? && |p.value| < SUN_PATH
            && (p.value == BoundPath(Some(dir), []) <==> |dir| <= ROOM || SUBPATH <= (dir + SUBPATH)[ROOM..])
  {
    RootOf(dir);
    var whole := dir + SUBPATH;
    assert whole + [] == whole;
    if |dir| > ROOM {
      var bound := BoundPath(Some(dir), []);
      assert bound == whole[..ROOM] + whole[ROOM..SUN_PATH - 1];
      assert InvokerPath(Some(dir), []).value == whole[..ROOM] + SUBPATH;
      assert bound[ROOM..] == whole[ROOM..SUN_PATH - 1] == whole[ROOM..][..|SUBPATH|];
      assert InvokerPath(Some(dir), []).value[ROOM..] == SUBPATH;
    }
  }

  /** Without a runtime directory, or with an empty one, the bound path has one slash more than the path
      of the invoker, and is the same otherwise, if and only if the type has less than 88 bytes.  The one
      longer type that is accepted loses its last byte on the side of the socket manager. */
  lemma DefaultDirectory(dir: Option<string>, appType: string)
    requires dir.None? || dir.value == []
    ensures InvokerPath(dir, appType).Some? <==> SLASH !in appType && |appType| <= 88
    ensures InvokerPath(dir, appType).Some? ==>
              var p := InvokerPath(dir, appType).value;
              var slashed := TMP + [SLASH] + p[|TMP|..];
              && p == "/tmp" + (SUBPATH + appType) && |p| < SUN_PATH && BoundPath(dir, appType) != p
              && (BoundPath(dir, appType) == slashed <==> |appType| < 88)
              && (|appType| == 88 ==> BoundPath(dir, appType) == slashed[..|slashed| - 1])
  {
    if InvokerPath(dir, appType).Some? {
      var p := InvokerPath(dir, appType).value;
      assert p == TMP + (SUBPATH + appType);
      assert RootPath(dir) + appType == TMP + [SLASH] + (SUBPATH + appType);
      assert BoundPath(dir, appType)[5] == SLASH && p[5] == 'm';
    }
  }

  // ---------------------------------------------------------------- the invoker's buffer

  /** A buffer that holds a C string. */
  ghost predicate Holds(mem: string, s: string) { NulFree(s) && |s| < |mem| && mem[..|s|] == s && mem[|s|] == '\0' }

  method StrLen(buf: array<char>, ghost s: string) returns (n: nat)
    requires Holds(buf[..], s)
    ensures n == |s|
  {
    n := 0;
    while buf[n] != '\0'
      invariant n <= |s|
      decreases |s| - n
    {
      assert buf[n] == buf[..][n];
      if n < |s| { assert s[n] == buf[..][..|s|][n]; }
      n := n + 1;
    }
  }

  /** strncpy: at most `n` bytes, filled up with NULs. */
  method StrNCpy(buf: array<char>, s: string, n: nat)
    requires NulFree(s) && n <= buf.Length
    modifies buf
    ensures forall i :: 0 <= i < n ==> buf[i] == if i < |s| then s[i] else '\0'
    ensures forall i :: n <= i < buf.Length ==> buf[i] == old(buf[i])
  {
    for i := 0 to n
      invariant forall j :: 0 <= j < i ==> buf[j] == if j < |s| then s[j] else '\0'
      invariant forall j :: i <= j < buf.Length ==> buf[j] == old(buf[j])
    {
      buf[i] := if i < |s| then s[i] else '\0';
    }
  }

  method StrCat(buf: array<char>, t: string, ghost s: string)
    requires Holds(buf[..], s) && NulFree(t) && |s| + |t| < buf.Length
    modifies buf
    ensures Holds(buf[..], s + t)
  {
    var n := StrLen(buf, s);
    for i := 0 to |t|
      invariant buf[..n] == s && buf[n..n + i] == t[..i]
    {
      buf[n + i] := t[i];
      assert t[..i + 1] == t[..i] + [t[i]];
      assert buf[n..n + i + 1] == buf[n..n + i] + [buf[n + i]];
    }
    buf[n + |t|] := '\0';
    assert buf[..n + |t|] == buf[..n] + buf[n..n + |t|];
    assert buf[..][..|s + t|] == buf[..n + |t|];
  }

  /** invoker_init up to connect: the path is put together in place, and never leaves the buffer. */
  method InvokerInit(dir: Option<string>, appType: string) returns (sunPath: array<char>, ok: bool)
    requires NulFree(appType) && (dir.Some? ==> NulFree(dir.value))
    ensures sunPath.Length == SUN_PATH && ok == InvokerPath(dir, appType).Some?
    ensures ok ==> Holds(sunPath[..], InvokerPath(dir, appType).value)
  {
    sunPath := new char[SUN_PATH];
    var maxSize := sunPath.Length - 1;
    var base := if IsSet(dir) then dir.value else TMP;
    StrNCpy(sunPath, base, maxSize - |SUBPATH|);
    sunPath[maxSize - |SUBPATH|] := '\0';
    ghost var start := Start(base, ROOM);
    assert sunPath[..][..|start|] == start;
    StrCat(sunPath, SUBPATH, start);
    var len := StrLen(sunPath, start + SUBPATH);
    maxSize := maxSize - len;
    if maxSize < |appType| || SLASH in appType { return sunPath, false; }
    StrCat(sunPath, appType, start + SUBPATH);
    ok := true;
  }

  // ---------------------------------------------------------------- the socket manager

  /** What the system answers while a socket is set up. */
  datatype Answers = Answers(fd: int32, binds: bool, listens: bool)

  class SocketManager {
    const runtimeDir: Option<string>
    const socketRootPath: string
    var socketHash: map<string, int32>
    ghost var addresses: map<string, string>    // where the sockets set up here are bound

    constructor (dir: Option<string>)
      requires dir.Some? ==> NulFree(dir.value)
      ensures Valid() && runtimeDir == dir && socketHash == map[] && addresses == map[]
    {
      runtimeDir := dir;
      var root := if IsSet(dir) then dir.value else TMP + [SLASH];
      socketRootPath := root + [SLASH] + NAME + [SLASH];
      socketHash, addresses := map[], map[];
    }

    ghost predicate Valid()
      reads this
    {
      && socketRootPath == RootPath(runtimeDir) && (runtimeDir.Some? ==> NulFree(runtimeDir.value))
      && addresses.Keys <= socketHash.Keys
      && forall id :: id in addresses ==> addresses[id] == BoundPath(runtimeDir, id)
    }

    /** A socket that exists already is kept; it throws when the system refuses. */
    method InitSocket(socketId: string, a: Answers) returns (ok: bool)
      requires Valid() && NulFree(socketId)
      modifies this
      ensures Valid()
      ensures ok == (socketId in old(socketHash) || (a.fd >= 0 && a.binds && a.listens))
      ensures if ok && socketId !in old(socketHash)
              then socketHash == old(socketHash)[socketId := a.fd] && socketId in addresses
              else socketHash == old(socketHash) && addresses == old(addresses)
    {
      var socketPath := socketRootPath + socketId;
      if socketId in socketHash { return true; }
      if a.fd < 0 { return false; }
      var sun := new char[SUN_PATH];
      var maxLen := sun.Length - 1;
      StrNCpy(sun, socketPath, maxLen);
      sun[maxLen] := '\0';
      ghost var address := Start(socketPath, maxLen);
      assert sun[..][..|address|] == address;
      assert Holds(sun[..], BoundPath(runtimeDir, socketId));
      if !a.binds || !a.listens { return false; }
      socketHash := socketHash[socketId := a.fd];
      addresses := addresses[socketId := address];
      ok := true;
    }
  }

  /** An invoker that is not refused for its type reaches the very address that is bound for it. */
  lemma InvokerReachesBooster(m: SocketManager, appType: string)
    requires m.Valid() && IsSet(m.runtimeDir) && appType != [] && appType in m.addresses
    requires InvokerPath(m.runtimeDir, appType).Some?
    ensures m.addresses[appType] == InvokerPath(m.runtimeDir, appType).value
  {
    PathsAgree(m.runtimeDir.value, appType);
  }
}
