/** Roles, states and per-attempt data of the orchestrator. */
module State {
  import opened Base

  // Timing and policy constants.
  const HANG_CONFIRM_SEC: nat := 420
  const HANG_MAX_WITH_WORK_SIGNALS_SEC: nat := 2400
  const COMMIT_GRACE_SEC: nat := 180
  const OUTBOX_GRACE_SEC: nat := 180
  const OUTBOX_FINALIZING_KILL_SEC: nat := 60
  const PROBE_INTERVAL_SEC: nat := 1
  const CONSECUTIVE_FAILURE_LIMIT: nat := 5
  const MIN_ACCEPT_SCORE: real := 8.0
  const OUTBOX_REL: string := ".agent-io/outbox.txt"

  datatype Role = Executor | Reviewer

  datatype Provider = Claude | Opencode | Codex

  datatype WorkflowType = Plan | Investigate | Implement

  datatype NotionPolicy = Required | Optional

  datatype ErrorClass = ServiceCap | Permission | Auth | Transport

  datatype TemplateId =
    | ExecutorInitial
    | ReviewerReview
    | ReviewerRepairYaml
    | ReviewerRepairWorkspace
    | ExecutorFeedback

  datatype AttemptState =
    | Dispatching
    | Running
    | WaitingOutput
    | Success
    | SoftSuccess
    | FailedSilent
    | FailedServiceCap
    | FailedProviderAccess
    | FailedTransport
    | FailedProtocol
    | HangConfirmed
    | Finalizing
    | TerminatingStale
    | RetryPending
    | RetryExhausted
    | Cancelled
    | Unknown

  datatype RunState =
    | RunInit
    | ContextPrep
    | SessionBind
    | ExecutorDispatch
    | ExecutorMonitor
    | RoundRetryDecide
    | ExecutorOutputCollect
    | OrchVerify
    | ReviewerDispatch
    | ReviewerMonitor
    | ReviewerOutputCollect
    | QualityGate
    | RoundFeedbackPrep
    | RunDone
    | RunAborted
    | RunFailedInvalidInput
    | RunFailedDirtyWorktree
    | RunFailedSessionBind
    | RunFailedServiceCap
    | RunFailedProviderAccess
    | RunFailedConsecutiveFailureLimit
    | RunFailedExternalBlocker
    | RunFailedIrreconcilableDisagreement
    | RunFailedPoisonedSession
    | RunFailedProtocol
    | RunFailedSessionLocked
    | RunFailedInternal
  {
    predicate IsTerminal()
    {
      || RunDone? || RunAborted? || RunFailedInvalidInput? || RunFailedDirtyWorktree?
      || RunFailedSessionBind? || RunFailedServiceCap? || RunFailedProviderAccess?
      || RunFailedConsecutiveFailureLimit? || RunFailedExternalBlocker?
      || RunFailedIrreconcilableDisagreement? || RunFailedPoisonedSession?
      || RunFailedProtocol? || RunFailedSessionLocked? || RunFailedInternal?
    }

    predicate IsMonitor()
    {
      ExecutorMonitor? || ReviewerMonitor?
    }
  }

  // The content of a transport file: decodable text, or bytes that are not UTF-8.
  // Sizes are counted in characters; only emptiness and equality of sizes matter.
  datatype Body = Text(text: string) | Binary(size: nat)
  {
    function Size(): nat
    {
      if Text? then |text| else size
    }
  }

  datatype File = File(body: Body, mtime: int)

  datatype FileMeta = FileMeta(size: nat, mtime: int)

  function Meta(f: Option<File>): Option<FileMeta>
  {
    if f.Some? then Some(FileMeta(f.value.body.Size(), f.value.mtime)) else None
  }

  function Mtime(f: Option<File>): Option<int>
  {
    if f.Some? then Some(f.value.mtime) else None
  }

  predicate NonEmpty(m: Option<FileMeta>)
  {
    m.Some? && m.value.size > 0
  }

  /** In-memory record of one dispatched provider process. */
  datatype Attempt = Attempt(
    state: AttemptState,
    role: Role,
    dispatchTs: int,
    pid: Option<nat>,
    requestFingerprint: Digest,
    lastWorkSignalTs: Option<int>,
    graceUntilCommit: Option<int>,
    graceUntilOutbox: Option<int>,
    preReviewerOutboxMtime: Option<int>,
    nextProbeAt: int,
    dispatchGitStatusHash: Digest,
    prevProbeGitStatusHash: Digest,
    dispatchGitHead: string,
    prevProbeGitHead: string,
    prevProbeOutboxMeta: Option<FileMeta>,
    prevProbeLogMtime: Option<int>,
    providerLogEverSeen: bool)
  {
    predicate Exited()
    {
      pid.None?
    }

    function GraceDeadline(): Option<int>
    {
      Either(graceUntilOutbox, graceUntilCommit)
    }
  }

  /** The classifier's input: everything one probe cycle knows. */
  datatype ProbeSnapshot = ProbeSnapshot(
    cancelled: bool,
    processExited: bool,
    processAlive: bool,
    outboxPresent: bool,
    providerError: Option<ErrorClass>,
    successContract: bool,
    softSuccessContract: bool,
    protocolInvalid: bool,
    providerActivityAfterExitIsFresh: bool,
    workSignalsChanged: bool,
    lastWorkSignalTs: Option<int>,
    providerStale: bool,
    graceDeadline: Option<int>,
    hangMaxWithWorkSignalsExceeded: bool)
  {
    predicate HangIsConfirmed(now: int)
    {
      && processAlive
      && lastWorkSignalTs.Some?
      && WholeSeconds(now - lastWorkSignalTs.value) >= HANG_CONFIRM_SEC
      && providerStale
    }

    predicate FinalResultBoundaryReached(now: int)
    {
      if graceDeadline.Some? && now < graceDeadline.value then
        false
      else
        (processExited && !providerActivityAfterExitIsFresh) || graceDeadline.Some?
    }
  }
}
