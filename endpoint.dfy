/**
 * Endpoint discovery as both clients write it: a platform prefix and the
 * ten candidates `{prefix}discord-ipc-{i}`, scanned in ascending order.
 */
module Endpoint {
  import opened JsValues

  /** The process environment the clients consult (Deno.build.os, Deno.env, Deno.pid). */
  datatype Env = Env(isWindows: bool, xdgRuntimeDir: Option<string>, home: Option<string>, pid: int)

  /** The named-pipe namespace, the TypeScript literal "\\\\?\\pipe\\". */
  const PIPE_PREFIX: string := "\\\\?\\pipe\\"

  const CANDIDATE_COUNT: nat := 10

  /** How a template or `+` writes a value that may be `undefined`. */
  function Interpolate(v: Option<string>): string
  {
    match v
    case None => "undefined"
    case Some(s) => s
  }

  /** The JavaScript expression `a || b` on two strings: the empty string is falsy. */
  function Or(a: string, b: string): string
  {
    if a != "" then a else b
  }

  /**
   * `Deno.env.get("XDG_RUNTIME_DIR") + "/" || `${HOME}/.config/discord` + "/"`.
   * The left operand is never empty, so the home-directory fallback is
   * never taken, and an unset variable gives "undefined/".
   */
  function RuntimeDir(env: Env): (r: string)
    ensures env.xdgRuntimeDir.Some? ==> r == env.xdgRuntimeDir.value + "/"
    ensures env.xdgRuntimeDir.None? ==> r == "undefined/"
  {
    Or(Interpolate(env.xdgRuntimeDir) + "/", Interpolate(env.home) + "/.config/discord" + "/")
  }

  /** The candidate prefix: the pipe namespace on Windows, the runtime directory elsewhere. */
  function Prefix(env: Env): (r: string)
    ensures env.isWindows ==> r == PIPE_PREFIX
    ensures !env.isWindows ==> r == Interpolate(env.xdgRuntimeDir) + "/"
  {
    if env.isWindows then PIPE_PREFIX else RuntimeDir(env)
  }

  /** `prefix + `discord-ipc-${i}`` for a one-digit index. */
  function Candidate(prefix: string, i: nat): string
    requires i < CANDIDATE_COUNT
  {
    prefix + "discord-ipc-" + [('0' as int + i) as char]
  }

  /** The ten candidates in the order the scan tries them. */
  function Candidates(prefix: string): (r: seq<string>)
    ensures |r| == CANDIDATE_COUNT
    ensures forall i :: 0 <= i < CANDIDATE_COUNT ==> r[i] == Candidate(prefix, i)
  {
    seq(CANDIDATE_COUNT, i requires 0 <= i < CANDIDATE_COUNT => Candidate(prefix, i))
  }

  /** Different indices name different endpoints. */
  lemma {:induction false} CandidateInjective(prefix: string, i: nat, j: nat)
    requires i < CANDIDATE_COUNT && j < CANDIDATE_COUNT
    requires Candidate(prefix, i) == Candidate(prefix, j)
    ensures i == j
  {
    var c := Candidate(prefix, i);
    assert c[|c| - 1] == ('0' as int + i) as char;
    assert Candidate(prefix, j)[|c| - 1] == ('0' as int + j) as char;
  }

  /**
   * The connection the scan loop holds after trying the first `n`
   * candidates, starting from `start`: every candidate that accepts
   * replaces the one held before.
   */
  function ScanFrom(prefix: string, listening: set<string>, n: nat, start: Option<string>): Option<string>
    requires n <= CANDIDATE_COUNT
  {
    if n == 0 then start
    else if Candidate(prefix, n - 1) in listening then Some(Candidate(prefix, n - 1))
    else ScanFrom(prefix, listening, n - 1, start)
  }

  /**
   * The scan ends holding the highest-index candidate that accepted, and
   * holds what it started from only when none of the tried ones accepted.
   */
  lemma {:induction false} ScanKeepsLast(prefix: string, listening: set<string>, n: nat, start: Option<string>)
    requires n <= CANDIDATE_COUNT
    ensures (forall j :: 0 <= j < n ==> Candidate(prefix, j) !in listening) ==>
              ScanFrom(prefix, listening, n, start) == start
    ensures forall k :: 0 <= k < n && Candidate(prefix, k) in listening &&
                        (forall j :: k < j < n ==> Candidate(prefix, j) !in listening) ==>
              ScanFrom(prefix, listening, n, start) == Some(Candidate(prefix, k))
  {
    if n > 0 {
      ScanKeepsLast(prefix, listening, n - 1, start);
    }
  }

  /** From no connection, the scan connects exactly when some candidate accepts. */
  lemma {:induction false} ScanConnects(prefix: string, listening: set<string>, n: nat)
    requires n <= CANDIDATE_COUNT
    ensures ScanFrom(prefix, listening, n, None).Some? <==>
              exists j :: 0 <= j < n && Candidate(prefix, j) in listening
    ensures ScanFrom(prefix, listening, n, None).Some? ==>
              ScanFrom(prefix, listening, n, None).value in listening
  {
    if n > 0 {
      ScanConnects(prefix, listening, n - 1);
      if exists j :: 0 <= j < n - 1 && Candidate(prefix, j) in listening {
        var j :| 0 <= j < n - 1 && Candidate(prefix, j) in listening;
        assert 0 <= j < n;
      }
    }
  }

  /**
   * With `XDG_RUNTIME_DIR=/run/user/1000` and applications listening at
   * indices 3 and 5, the scan ends connected to index 5, not 3.
   */
  lemma ScanEndsOnHighest()
    ensures var prefix := "/run/user/1000/";
            ScanFrom(prefix, {Candidate(prefix, 3), Candidate(prefix, 5)}, CANDIDATE_COUNT, None)
              == Some(prefix + "discord-ipc-5")
  {
    var prefix := "/run/user/1000/";
    var listening := {Candidate(prefix, 3), Candidate(prefix, 5)};
    forall j | 5 < j < CANDIDATE_COUNT
      ensures Candidate(prefix, j) !in listening
    {
      if Candidate(prefix, j) == Candidate(prefix, 3) { CandidateInjective(prefix, j, 3); }
      if Candidate(prefix, j) == Candidate(prefix, 5) { CandidateInjective(prefix, j, 5); }
    }
    ScanKeepsLast(prefix, listening, CANDIDATE_COUNT, None);
    assert ScanFrom(prefix, listening, CANDIDATE_COUNT, None) == Some(Candidate(prefix, 5));
    assert Candidate(prefix, 5) == prefix + "discord-ipc-" + "5";
    assert "discord-ipc-" + "5" == "discord-ipc-5";
    assert prefix + "discord-ipc-" + "5" == prefix + ("discord-ipc-" + "5");
  }
}
