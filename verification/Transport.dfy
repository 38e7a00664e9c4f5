/** The two transport files of a workspace and the request fingerprint. */
module Transport {
  import opened Base
  import opened State

  datatype Path = Inbox | Outbox

  datatype Files = Files(inbox: Option<File>, outbox: Option<File>)
  {
    function Put(path: Path, f: File): Files
    {
      match path
      case Inbox => this.(inbox := Some(f))
      case Outbox => this.(outbox := Some(f))
    }
  }

  // A truncation that fails: the index of the path, and whether the file merely stayed non-empty.
  datatype ResetFault = ResetFault(index: nat, sticky: bool)

  datatype ResetOutcome = ResetOutcome(files: Files, error: Option<Error>)

  function ResetPaths(role: Role): seq<Path>
  {
    match role
    case Executor => [Inbox, Outbox]
    case Reviewer => [Inbox]
  }

  const EMPTY: Body := Text("")

  /** Truncate paths k, k + 1, ... at the given time, up to the first failure. */
  function TruncateFrom(fs: Files, paths: seq<Path>, k: nat, at: int, fault: Option<ResetFault>): ResetOutcome
    requires k <= |paths|
    decreases |paths| - k
  {
    if k == |paths| then ResetOutcome(fs, None)
    else if fault.Some? && fault.value.index == k then
      ResetOutcome(fs, Some(if fault.value.sticky then TransportResetFailed else Io))
    else
      TruncateFrom(fs.Put(paths[k], File(EMPTY, at)), paths, k + 1, at, fault)
  }

  function ResetTransport(fs: Files, role: Role, at: int, fault: Option<ResetFault>): ResetOutcome
  {
    TruncateFrom(fs, ResetPaths(role), 0, at, fault)
  }

  /**
   * A successful reset empties the inbox; the outbox is emptied for the executor and kept for the
   * reviewer. A failing one leaves exactly the files before the failing one truncated.
   */
  lemma ResetExact(fs: Files, role: Role, at: int, fault: Option<ResetFault>)
    ensures var r := ResetTransport(fs, role, at, fault);
            && (r.error.None? <==> fault.None? || fault.value.index >= (if role == Executor then 2 else 1))
            && (r.error.None? ==> r.files.inbox == Some(File(EMPTY, at)))
            && (r.error.None? && role == Executor ==> r.files.outbox == Some(File(EMPTY, at)))
            && (role == Reviewer ==> r.files.outbox == fs.outbox)
            && (r.error.Some? ==>
                  && r.error.value == (if fault.value.sticky then TransportResetFailed else Io)
                  && r.files == if fault.value.index == 0 then fs else fs.Put(Inbox, File(EMPTY, at)))
  {
    var paths := ResetPaths(role);
    var first := fs.Put(Inbox, File(EMPTY, at));
    assert paths[0] == Inbox;
    if !(fault.Some? && fault.value.index == 0) {
      assert ResetTransport(fs, role, at, fault) == TruncateFrom(first, paths, 1, at, fault);
      if role == Executor && !(fault.Some? && fault.value.index == 1) {
        assert TruncateFrom(first, paths, 1, at, fault) ==
               TruncateFrom(first.Put(Outbox, File(EMPTY, at)), paths, 2, at, fault);
      }
    }
  }

  /** The hash of a transport body; the digest of text and of other bytes never coincide. */
  function BodyDigest(b: Body): Option<Digest>
  {
    if b.Text? then Some(Sha256Hex(b.text)) else None
  }

  function WriteRequest(fs: Files, content: string, at: int): Files
  {
    fs.Put(Inbox, File(Text(content), at))
  }

  function VerifyRequestFingerprint(fs: Files, original: Digest): Option<Error>
  {
    if fs.inbox.None? then Some(Io)
    else if BodyDigest(fs.inbox.value.body) != Some(original) then Some(RequestChangedAbortRetry)
    else None
  }

  /** Verification passes exactly on the request that was written; any other content aborts. */
  lemma FingerprintRoundTrip(fs: Files, content: string, at: int, later: Files)
    ensures VerifyRequestFingerprint(WriteRequest(fs, content, at), Sha256Hex(content)) == None
    ensures VerifyRequestFingerprint(later, Sha256Hex(content)) == None <==>
              later.inbox.Some? && later.inbox.value.body == Text(content)
    ensures WriteRequest(fs, content, at).outbox == fs.outbox
  {
  }

  class TransportDir {
    var inbox: Option<File>
    var outbox: Option<File>

    function Contents(): Files
      reads this
    {
      Files(inbox, outbox)
    }

    constructor (fs: Files)
      ensures Contents() == fs
    {
      inbox, outbox := fs.inbox, fs.outbox;
    }

    /** Agents and outsiders change the files between two steps. */
    method Absorb(fs: Files)
      modifies this
      ensures Contents() == fs
    {
      inbox, outbox := fs.inbox, fs.outbox;
    }

    method Reset(role: Role, at: int, fault: Option<ResetFault>) returns (error: Option<Error>)
      modifies this
      ensures ResetOutcome(Contents(), error) == ResetTransport(old(Contents()), role, at, fault)
    {
      var paths := ResetPaths(role);
      var k := 0;
      while k < |paths|
        invariant 0 <= k <= |paths|
        invariant TruncateFrom(Contents(), paths, k, at, fault) == ResetTransport(old(Contents()), role, at, fault)
      {
        if fault.Some? && fault.value.index == k {
          return Some(if fault.value.sticky then TransportResetFailed else Io);
        }
        match paths[k] {
          case Inbox => inbox := Some(File(EMPTY, at));
          case Outbox => outbox := Some(File(EMPTY, at));
        }
        k := k + 1;
      }
      return None;
    }

    method Write(content: string, at: int) returns (fingerprint: Digest)
      modifies this
      ensures Contents() == WriteRequest(old(Contents()), content, at)
      ensures VerifyRequestFingerprint(Contents(), fingerprint) == None
      ensures fingerprint == Sha256Hex(content)
    {
      inbox := Some(File(Text(content), at));
      fingerprint := Sha256Hex(content);
    }

    method Verify(original: Digest) returns (error: Option<Error>)
      ensures error == VerifyRequestFingerprint(Contents(), original)
    {
      if inbox.None? {
        return Some(Io);
      }
      if BodyDigest(inbox.value.body) != Some(original) {
        return Some(RequestChangedAbortRetry);
      }
      return None;
    }
  }
}
