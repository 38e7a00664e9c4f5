/** Shared vocabulary: options, results, the orchestrator's error variants, time and text. */
module Base {

  datatype Option<+T> = None | Some(value: T)

  /** The first option if it holds a value, the second otherwise. */
  function Either<T>(first: Option<T>, second: Option<T>): Option<T>
  {
    if first.Some? then first else second
  }

  /** The error variants of the orchestrator; payloads that never influence routing are dropped. */
  datatype Error =
    | TransportResetFailed
    | Io
    | Json
    | Yaml
    | CommandFailed
    | SessionBindFailed
    | SessionLocked
    | InvalidInput
    | DirtyWorktree
    | ArtifactContract(reason: string)
    | RequestChangedAbortRetry

  datatype Result<+T> = Ok(value: T) | Err(error: Error)

  /** What a call into git, the file system, a provider CLI or its logs may fail with. */
  predicate IsFault(e: Error)
  {
    e.Io? || e.Json? || e.CommandFailed? || e.InvalidInput? || e.SessionBindFailed?
  }

  type Fault = e: Error | IsFault(e) witness Io

  // Instants and durations are integer nanoseconds.
  const NANOS: int := 1_000_000_000

  function Seconds(n: int): int
  {
    n * NANOS
  }

  /** Whole seconds of a duration, negative durations counted as zero. */
  function WholeSeconds(d: int): (r: nat)
    ensures forall n: nat :: 0 < n ==> (r >= n <==> d >= Seconds(n))
  {
    if d < 0 then 0 else d / NANOS
  }

  /** SHA-256 up to collisions: two digests are equal exactly when the inputs are. */
  datatype Digest = Digest(of: string)

  function Sha256Hex(s: string): Digest
  {
    Digest(s)
  }

  // White space as Unicode defines the White_Space property.
  predicate IsSpace(c: char)
  {
    var n := c as int;
    || 0x9 <= n <= 0xD || n == 0x20 || n == 0x85 || n == 0xA0 || n == 0x1680
    || 0x2000 <= n <= 0x200A || n == 0x2028 || n == 0x2029 || n == 0x202F
    || n == 0x205F || n == 0x3000
  }

  function TrimStart(s: string): (r: string)
    ensures |r| <= |s|
  {
    if s != "" && IsSpace(s[0]) then TrimStart(s[1..]) else s
  }

  function TrimEnd(s: string): (r: string)
    ensures |r| <= |s|
  {
    if s != "" && IsSpace(s[|s| - 1]) then TrimEnd(s[..|s| - 1]) else s
  }

  function Trim(s: string): string
  {
    TrimEnd(TrimStart(s))
  }

  predicate IsBlank(s: string)
  {
    Trim(s) == ""
  }

  // ---- what trimming does ----

  lemma {:induction false} TrimStartIs(s: string, i: nat)
    requires i <= |s| && (forall k :: 0 <= k < i ==> IsSpace(s[k])) && (i == |s| || !IsSpace(s[i]))
    ensures TrimStart(s) == s[i..]
  {
    if i == 0 {
    } else {
      TrimStartIs(s[1..], i - 1);
      assert s[1..][i - 1..] == s[i..];
    }
  }

  lemma {:induction false} TrimEndIs(s: string, j: nat)
    requires j <= |s| && (forall k :: j <= k < |s| ==> IsSpace(s[k])) && (j == 0 || !IsSpace(s[j - 1]))
    ensures TrimEnd(s) == s[..j]
    decreases |s|
  {
    if j == |s| {
    } else {
      TrimEndIs(s[..|s| - 1], j);
      assert s[..|s| - 1][..j] == s[..j];
    }
  }

  /** Trimming removes exactly the white space at both ends. */
  lemma TrimIs(s: string, i: nat, j: nat)
    requires i < j <= |s| && !IsSpace(s[i]) && !IsSpace(s[j - 1])
    requires forall k :: 0 <= k < i || j <= k < |s| ==> IsSpace(s[k])
    ensures Trim(s) == s[i..j]
  {
    TrimStartIs(s, i);
    TrimEndIs(s[i..], j - i);
    assert s[i..][..j - i] == s[i..j];
  }

  /** Some character is not white space. */
  predicate Inked(s: string)
  {
    exists k :: 0 <= k < |s| && !IsSpace(s[k])
  }

  lemma FirstInk(s: string) returns (i: nat, j: nat)
    requires Inked(s)
    ensures i < j <= |s| && !IsSpace(s[i]) && !IsSpace(s[j - 1])
    ensures forall k :: 0 <= k < i || j <= k < |s| ==> IsSpace(s[k])
  {
    i, j := 0, |s|;
    while IsSpace(s[i])
      invariant i < |s| && forall k :: 0 <= k < i ==> IsSpace(s[k])
      decreases |s| - i
    {
      i := i + 1;
    }
    while IsSpace(s[j - 1])
      invariant i < j <= |s| && forall k :: j <= k < |s| ==> IsSpace(s[k])
      invariant !IsSpace(s[i])
      decreases j
    {
      j := j - 1;
    }
  }

  /** Blank means nothing but white space. */
  lemma BlankIs(s: string)
    ensures IsBlank(s) <==> !Inked(s)
  {
    if Inked(s) {
      var i, j := FirstInk(s);
      TrimIs(s, i, j);
    } else {
      TrimStartIs(s, |s|);
    }
  }
}
