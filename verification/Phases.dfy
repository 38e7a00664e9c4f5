/** The run-level state machine: context, inputs, and each phase as a function. */
module Phases {
  import opened Base
  import opened State
  import opened YamlCheck
  import opened Transport
  import opened Locks
  import opened Probing
  import Workflow

  datatype Args = Args(
    workflow: WorkflowType,
    notionPolicy: NotionPolicy,
    executorProvider: Provider,
    reviewerProvider: Provider,
    parse: Parser)

  // A provider child as the orchestrator knows it: not yet known dead, and whether it was force-stopped.
  datatype Process = Process(alive: bool, stopped: bool)

  /** The runtime context threaded through the run. */
  datatype Ctx = Ctx(
    args: Args,
    runState: RunState,
    consecutiveFailureCount: nat,
    currentRole: Option<Role>,
    preReviewerGitStatus: Option<seq<string>>,
    executorSessionId: Option<string>,
    reviewerSessionId: Option<string>,
    executorLock: bool,
    reviewerLock: bool,
    attempt: Option<Attempt>,
    activeProcess: Option<Process>,
    artifactMap: map<string, bool>,
    outboxPresent: bool,
    reviewResult: Option<ReviewerYaml>,
    reviewResultYamlRaw: Option<string>,
    reviewerYamlRejection: Option<Error>,
    reviewerWorkspaceRejection: Option<seq<string>>,
    executorOutboxSnapshot: Option<File>,
    reviewerOutboxSnapshot: Option<File>)
  {
    function SessionId(role: Role): Option<string>
    {
      if role == Executor then executorSessionId else reviewerSessionId
    }

    function ProviderOf(role: Role): Provider
    {
      if role == Executor then args.executorProvider else args.reviewerProvider
    }

    function Key(role: Role): LockKey
      requires SessionId(role).Some?
    {
      LockKey(ProviderOf(role), SessionId(role).value)
    }

    predicate Holds(role: Role)
    {
      if role == Executor then executorLock else reviewerLock
    }

    function SetLock(role: Role, held: bool): Ctx
    {
      if role == Executor then this.(executorLock := held) else this.(reviewerLock := held)
    }

    function SettingOf(role: Role): Setting
    {
      Setting(args.workflow, ProviderOf(role), role, args.parse)
    }
  }

  function InitialCtx(args: Args): Ctx
  {
    Ctx(args, ContextPrep, 0, None, None, None, None, false, false, None, None, map[], false,
        None, None, None, None, None, None)
  }

  /** The part of the machine a run shares with agents and with other runs. */
  datatype World = World(files: Files, locks: Table)

  // ---- inputs ----

  type PrepError = e: Error | IsFault(e) || e.DirtyWorktree? witness Io

  datatype BindResult = Found(session: string) | BindFailed(error: Fault)

  // Where in a dispatch a call into the environment fails.
  datatype Stage = Locking | Verifying | Baseline | ReviewerBaseline | Rendering | Spawning

  datatype StageFault = StageFault(stage: Stage, error: Fault)

  datatype DispatchInput = DispatchInput(
    resetAt: int,
    writtenAt: int,
    now: int,
    gitStatus: string,
    gitHead: string,
    gitStatusAll: seq<string>,
    render: TemplateId -> string,
    pid: nat,
    fault: Option<StageFault>,
    resetFault: Option<ResetFault>)
  {
    function FailsAt(stage: Stage): Option<Fault>
    {
      if fault.Some? && fault.value.stage == stage then Some(fault.value.error) else None
    }
  }

  datatype ExecutorCollectInput = ExecutorCollectInput(
    snapshotFault: Option<Fault>,
    artifactFault: Option<Fault>,
    artifactPresent: bool,
    gitFault: Option<Fault>)

  datatype ReviewerCollectInput = ReviewerCollectInput(
    mtimeFault: Option<Fault>,
    snapshotFault: Option<Fault>,
    statusFault: Option<Fault>,
    gitStatusAll: seq<string>)

  /** Everything one iteration of the run loop may observe; each phase reads its own part. */
  datatype Input = Input(
    cancelled: bool,
    world: World,
    prep: Option<PrepError>,
    bindExecutor: BindResult,
    bindReviewer: BindResult,
    dispatch: DispatchInput,
    probes: seq<Probe>,
    executorCollect: ExecutorCollectInput,
    reviewerCollect: ReviewerCollectInput)

  datatype Outcome = Outcome(ctx: Ctx, world: World, error: Option<Error>)

  // ---- CONTEXT_PREP and SESSION_BIND ----

  function DoContextPrep(c: Ctx, w: World, prep: Option<PrepError>): Outcome
  {
    if prep.Some? then Outcome(c, w, Some(prep.value))
    else Outcome(c.(runState := SessionBind), w, None)
  }

  function DoSessionBind(c: Ctx, w: World, executor: BindResult, reviewer: BindResult): Outcome
  {
    if executor.BindFailed? then Outcome(c, w, Some(executor.error))
    else if reviewer.BindFailed? then Outcome(c, w, Some(reviewer.error))
    else if c.args.executorProvider == c.args.reviewerProvider && executor.session == reviewer.session then
      Outcome(c, w, Some(SessionBindFailed))
    else
      Outcome(c.(executorSessionId := Some(executor.session),
                 reviewerSessionId := Some(reviewer.session),
                 runState := ExecutorDispatch), w, None)
  }

  // ---- dispatch ----

  function TemplateFor(c: Ctx, role: Role): TemplateId
  {
    if role == Executor then
      if c.reviewResult.Some? then ExecutorFeedback else ExecutorInitial
    else if c.reviewerWorkspaceRejection.Some? then ReviewerRepairWorkspace
    else if c.reviewerYamlRejection.Some? then ReviewerRepairYaml
    else ReviewerReview
  }

  function NewAttempt(role: Role, d: DispatchInput, content: string, preMtime: Option<int>): Attempt
  {
    Attempt(Dispatching, role, d.now, Some(d.pid), Sha256Hex(content), Some(d.now), None, None, preMtime, d.now,
            Sha256Hex(d.gitStatus), Sha256Hex(d.gitStatus), d.gitHead, d.gitHead, None, None, false)
  }

  /** Dispatch up to and including the transport reset, with the lock taken. */
  function PrepareDispatch(me: nat, c: Ctx, w: World, role: Role, d: DispatchInput): Outcome
  {
    if c.SessionId(role).None? then Outcome(c, w, Some(InvalidInput))
    else
      var l := Acquire(w.locks, me, c.Key(role), d.FailsAt(Locking));
      if l.error.Some? then Outcome(c, w, l.error)
      else
        var c1, w1 := c.SetLock(role, true), w.(locks := l.table);
        var stale := if c.attempt.Some? then
                       Either(d.FailsAt(Verifying),
                              VerifyRequestFingerprint(w.files, c.attempt.value.requestFingerprint))
                     else None;
        if stale.Some? then Outcome(c1, w1, stale)
        else if d.FailsAt(Baseline).Some? then Outcome(c1, w1, Some(d.FailsAt(Baseline).value))
        else
          var r := ResetTransport(w.files, role, d.resetAt, d.resetFault);
          Outcome(c1, w1.(files := r.files), r.error)
  }

  /** The reviewer's baselines: its outbox mtime, and the git status unless a cleanup is pending. */
  function CaptureBaseline(c: Ctx, role: Role, d: DispatchInput): Ctx
  {
    if role == Reviewer && c.reviewerWorkspaceRejection.None? then
      c.(preReviewerGitStatus := Some(d.gitStatusAll))
    else c
  }

  /** Write the request and spawn the child. */
  function Launch(c: Ctx, w: World, role: Role, d: DispatchInput): Outcome
  {
    if role == Reviewer && d.FailsAt(ReviewerBaseline).Some? then
      Outcome(c, w, Some(d.FailsAt(ReviewerBaseline).value))
    else
      var preMtime := if role == Reviewer then Mtime(w.files.outbox) else None;
      var c1 := CaptureBaseline(c, role, d);
      if d.FailsAt(Rendering).Some? then Outcome(c1, w, Some(d.FailsAt(Rendering).value))
      else
        var content := d.render(TemplateFor(c1, role));
        var w1 := w.(files := WriteRequest(w.files, content, d.writtenAt));
        if d.FailsAt(Spawning).Some? then Outcome(c1, w1, Some(d.FailsAt(Spawning).value))
        else
          Outcome(c1.(attempt := Some(NewAttempt(role, d, content, preMtime)),
                      activeProcess := Some(Process(true, false)),
                      currentRole := Some(role)), w1, None)
  }

  function DispatchRole(me: nat, c: Ctx, w: World, role: Role, d: DispatchInput): Outcome
  {
    var o := PrepareDispatch(me, c, w, role, d);
    if o.error.Some? then o else Launch(o.ctx, o.world, role, d)
  }

  function MonitorOf(role: Role): RunState
  {
    if role == Executor then ExecutorMonitor else ReviewerMonitor
  }

  function DoDispatch(me: nat, c: Ctx, w: World, role: Role, d: DispatchInput): Outcome
  {
    var o := DispatchRole(me, c, w, role, d);
    if o.error.Some? then o else o.(ctx := o.ctx.(runState := MonitorOf(role)))
  }

  // ---- monitor ----

  datatype Status = Looping | Returned | Failed(error: Fault)

  datatype MonitorStep = MonitorStep(ctx: Ctx, status: Status)

  function TerminateActiveChild(c: Ctx): Ctx
  {
    if c.activeProcess.Some? && c.activeProcess.value.alive then
      c.(activeProcess := Some(Process(false, true)))
    else c
  }

  function NoteChild(c: Ctx, p: Probe): Ctx
  {
    if p.childExited && c.activeProcess.Some? then
      c.(activeProcess := Some(c.activeProcess.value.(alive := false)))
    else c
  }

  function CountFailure(c: Ctx): Ctx
  {
    c.(consecutiveFailureCount := c.consecutiveFailureCount + 1, runState := RoundRetryDecide)
  }

  function CollectOf(role: Role): RunState
  {
    if role == Executor then ExecutorOutputCollect else ReviewerOutputCollect
  }

  /** Route a classified probe; c already carries the classified attempt. */
  function RouteProbe(c: Ctx, role: Role, p: Probe, s: AttemptState): (m: MonitorStep)
    requires c.attempt.Some?
    ensures m.ctx.attempt.Some?
  {
    match s
    case Success =>
      MonitorStep(c.SetLock(role, false).(outboxPresent := OutboxFilled(p), runState := CollectOf(role)), Returned)
    case SoftSuccess =>
      var c1 := c.(outboxPresent := OutboxFilled(p));
      if Workflow.SoftSuccessAllowed(c.args.workflow, c.artifactMap) then
        MonitorStep(c1.SetLock(role, false).(runState := CollectOf(role)), Returned)
      else
        MonitorStep(c1.(runState := RunFailedProtocol), Returned)
    case FailedServiceCap =>
      MonitorStep(c.SetLock(role, false).(runState := RunFailedServiceCap), Returned)
    case FailedProviderAccess =>
      MonitorStep(c.SetLock(role, false).(runState := RunFailedProviderAccess), Returned)
    case FailedTransport => MonitorStep(CountFailure(c.SetLock(role, false)), Returned)
    case FailedSilent => MonitorStep(CountFailure(c.SetLock(role, false)), Returned)
    case FailedProtocol => MonitorStep(CountFailure(c.SetLock(role, false)), Returned)
    case HangConfirmed =>
      var c1 := c.(attempt := Some(c.attempt.value.(state := TerminatingStale)));
      MonitorStep(CountFailure(TerminateActiveChild(c1).SetLock(role, false)), Returned)
    case Finalizing =>
      if FinalizeExpired(c.attempt.value, p) then
        MonitorStep(TerminateActiveChild(c).(attempt := Some(c.attempt.value.(pid := None))), Looping)
      else
        MonitorStep(c, Looping)
    case Cancelled =>
      MonitorStep(TerminateActiveChild(c).SetLock(role, false).(runState := RunAborted), Returned)
    case _ => MonitorStep(c, Looping)
  }

  /** One iteration of the monitor loop. */
  function MonitorProbe(c: Ctx, role: Role, p: Probe): (m: MonitorStep)
    requires c.attempt.Some?
    ensures m.ctx.attempt.Some?
  {
    if p.cancel == AtLoopHead then
      MonitorStep(TerminateActiveChild(c).(runState := RunAborted), Returned)
    else
      var c1 := NoteChild(c, p).(attempt := Some(NoteExit(c.attempt.value, p)));
      if c.SessionId(role).None? then MonitorStep(c1, Failed(InvalidInput))
      else if p.fault.Some? then MonitorStep(c1, Failed(p.fault.value))
      else
        var st := c.SettingOf(role);
        var c2 := c1.(attempt := Some(Classified(st, c.attempt.value, p)), artifactMap := p.artifacts);
        RouteProbe(c2, role, p, ProbeClass(st, c.attempt.value, p))
  }

  /** The monitor call after its first n probes; it stops at the first one that does not loop. */
  function MonitorRun(c: Ctx, role: Role, ps: seq<Probe>, n: nat): (m: MonitorStep)
    requires c.attempt.Some? && n <= |ps|
    ensures m.ctx.attempt.Some?
  {
    if n == 0 then MonitorStep(c, Looping)
    else
      var m := MonitorRun(c, role, ps, n - 1);
      if m.status.Looping? then MonitorProbe(m.ctx, role, ps[n - 1]) else m
  }

  /** The lock table after a monitor call that took the context from c to c'. */
  function LocksAfter(c: Ctx, c': Ctx, role: Role, table: Table): Table
  {
    if c.Holds(role) && !c'.Holds(role) && c.SessionId(role).Some? then Release(table, c.Key(role)) else table
  }

  function DoMonitor(c: Ctx, w: World, role: Role, ps: seq<Probe>): Outcome
    requires c.attempt.Some?
  {
    var m := MonitorRun(c, role, ps, |ps|);
    Outcome(m.ctx, w.(locks := LocksAfter(c, m.ctx, role, w.locks)),
            if m.status.Failed? then Some(m.status.error) else None)
  }

  // ---- ROUND_RETRY_DECIDE ----

  function SetAttemptState(c: Ctx, s: AttemptState): Ctx
  {
    if c.attempt.Some? then c.(attempt := Some(c.attempt.value.(state := s))) else c
  }

  function DoRoundRetryDecide(c: Ctx): Ctx
  {
    if c.consecutiveFailureCount >= CONSECUTIVE_FAILURE_LIMIT then
      SetAttemptState(c, RetryExhausted).(runState := RunFailedConsecutiveFailureLimit)
    else
      SetAttemptState(c, RetryPending).(
        runState := if c.currentRole == Some(Reviewer) then ReviewerDispatch else ExecutorDispatch)
  }

  // ---- EXECUTOR_OUTPUT_COLLECT and ORCH_VERIFY ----

  /** The artifact map with the workflow's artifact looked up once more. */
  function NoteArtifact(c: Ctx, present: bool): map<string, bool>
  {
    var artifact := Workflow.Artifact(c.args.workflow);
    if artifact.Some? then c.artifactMap[artifact.value := present] else c.artifactMap
  }

  function DoExecutorOutputCollect(c: Ctx, w: World, x: ExecutorCollectInput): Outcome
  {
    if x.snapshotFault.Some? then Outcome(c, w, Some(x.snapshotFault.value))
    else
      var c1 := c.(executorOutboxSnapshot := w.files.outbox);
      var artifact := Workflow.Artifact(c.args.workflow);
      if artifact.Some? && x.artifactFault.Some? then Outcome(c1, w, Some(x.artifactFault.value))
      else
        var c2 := c1.(artifactMap := NoteArtifact(c, x.artifactPresent));
        if x.gitFault.Some? then Outcome(c2, w, Some(x.gitFault.value))
        else Outcome(c2.(runState := OrchVerify), w, None)
  }

  function DoOrchVerify(c: Ctx): Ctx
  {
    c.(reviewResult := None, reviewResultYamlRaw := None, reviewerYamlRejection := None,
       reviewerWorkspaceRejection := None, runState := ReviewerDispatch)
  }

  // ---- REVIEWER_OUTPUT_COLLECT ----

  /** The path column of a short status line: what follows the two status characters and a space. */
  function PathPart(line: string): string
  {
    if |line| > 3 then Trim(line[3..]) else Trim(line)
  }

  /** Status lines that were not there before the reviewer, other than the outbox itself. */
  function DirtyLines(initial: seq<string>, current: seq<string>): (r: seq<string>)
    ensures forall l :: l in r <==> l in current && l !in initial && PathPart(l) != OUTBOX_REL
  {
    if current == [] then []
    else
      var rest := DirtyLines(initial, current[1..]);
      if current[0] !in initial && PathPart(current[0]) != OUTBOX_REL then [current[0]] + rest else rest
  }

  function DirtyReason(c: Ctx, current: seq<string>): Option<seq<string>>
  {
    var initial := if c.preReviewerGitStatus.Some? then c.preReviewerGitStatus.value else [];
    var lines := DirtyLines(initial, current);
    if lines == [] then None else Some(lines)
  }

  /** The outbox was not rewritten between reviewer dispatch and now. */
  predicate OutboxUntouched(c: Ctx, outbox: Option<File>)
  {
    c.attempt.Some? && c.attempt.value.preReviewerOutboxMtime.Some?
    && c.attempt.value.preReviewerOutboxMtime == Mtime(outbox)
  }

  /** Parse and store the verdict, or count a failure with the rejection recorded. */
  function TakeVerdict(c: Ctx, raw: string): Ctx
  {
    match ParseReviewerYaml(c.args.parse, raw)
    case Err(e) => CountFailure(c.(reviewerYamlRejection := Some(e)))
    case Ok(y) =>
      match EnforceReviewerNotionPolicy(c.args.notionPolicy, y)
      case Err(e) => CountFailure(c.(reviewerYamlRejection := Some(e)))
      case Ok(_) =>
        c.(reviewerYamlRejection := None, reviewResultYamlRaw := Some(raw), reviewResult := Some(y))
  }

  /** The workspace check that ends a collection with a stored verdict. */
  function CheckWorkspace(c: Ctx, w: World, x: ReviewerCollectInput): Outcome
  {
    if x.statusFault.Some? then Outcome(c, w, Some(x.statusFault.value))
    else
      var reason := DirtyReason(c, x.gitStatusAll);
      if reason.Some? then Outcome(CountFailure(c.(reviewerWorkspaceRejection := reason)), w, None)
      else Outcome(c.(reviewerWorkspaceRejection := None, runState := QualityGate), w, None)
  }

  function DoReviewerOutputCollect(c: Ctx, w: World, x: ReviewerCollectInput): Outcome
  {
    var outbox := w.files.outbox;
    if x.mtimeFault.Some? then Outcome(c, w, Some(x.mtimeFault.value))
    else if OutboxUntouched(c, outbox) then Outcome(CountFailure(c), w, None)
    else if c.reviewResult.None? && (outbox.None? || outbox.value.body.Binary?) then Outcome(CountFailure(c), w, None)
    else if x.snapshotFault.Some? then Outcome(c, w, Some(x.snapshotFault.value))
    else
      var c1 := c.(reviewerOutboxSnapshot := outbox);
      var c2 := if c.reviewResult.None? then TakeVerdict(c1, outbox.value.body.text) else c1;
      if c2.reviewResult.None? then Outcome(c2, w, None) else CheckWorkspace(c2, w, x)
  }

  // ---- QUALITY_GATE and ROUND_FEEDBACK_PREP ----

  function DoQualityGate(c: Ctx): Ctx
  {
    if c.reviewResult.None? then c.(runState := RunFailedProtocol)
    else
      c.(consecutiveFailureCount := 0,
         runState := match c.reviewResult.value.decision
                     case Accept => RunDone
                     case Revise => RoundFeedbackPrep
                     case Blocked => RunFailedExternalBlocker
                     case IrreconcilableDisagreement => RunFailedIrreconcilableDisagreement
                     case PoisonedSession => RunFailedPoisonedSession)
  }

  function DoRoundFeedbackPrep(c: Ctx): Ctx
  {
    c.(runState := ExecutorDispatch)
  }

  // ---- the run loop ----

  function ErrorToRunState(e: Error): RunState
  {
    match e
    case InvalidInput => RunFailedInvalidInput
    case DirtyWorktree => RunFailedDirtyWorktree
    case SessionBindFailed => RunFailedSessionBind
    case SessionLocked => RunFailedSessionLocked
    case ArtifactContract(_) => RunFailedProtocol
    case _ => RunFailedInternal
  }

  /** A monitor state has an attempt to monitor. */
  predicate Wf(c: Ctx)
  {
    c.runState.IsMonitor() ==> c.attempt.Some?
  }

  function Step(me: nat, c: Ctx, i: Input): Outcome
    requires Wf(c)
  {
    match c.runState
    case ContextPrep => DoContextPrep(c, i.world, i.prep)
    case SessionBind => DoSessionBind(c, i.world, i.bindExecutor, i.bindReviewer)
    case ExecutorDispatch => DoDispatch(me, c, i.world, Executor, i.dispatch)
    case ExecutorMonitor => DoMonitor(c, i.world, Executor, i.probes)
    case RoundRetryDecide => Outcome(DoRoundRetryDecide(c), i.world, None)
    case ExecutorOutputCollect => DoExecutorOutputCollect(c, i.world, i.executorCollect)
    case OrchVerify => Outcome(DoOrchVerify(c), i.world, None)
    case ReviewerDispatch => DoDispatch(me, c, i.world, Reviewer, i.dispatch)
    case ReviewerMonitor => DoMonitor(c, i.world, Reviewer, i.probes)
    case ReviewerOutputCollect => DoReviewerOutputCollect(c, i.world, i.reviewerCollect)
    case QualityGate => Outcome(DoQualityGate(c), i.world, None)
    case RoundFeedbackPrep => Outcome(DoRoundFeedbackPrep(c), i.world, None)
    case _ => Outcome(c, i.world, None)
  }

  /** Convert a phase error into its terminal state. */
  function Settle(o: Outcome): Ctx
  {
    if o.error.Some? && !o.ctx.runState.IsTerminal() then
      o.ctx.(runState := ErrorToRunState(o.error.value))
    else o.ctx
  }

  datatype Sys = Sys(ctx: Ctx, world: World)

  /** One iteration of the run loop. */
  function Next(me: nat, c: Ctx, i: Input): Sys
    requires Wf(c)
  {
    if c.runState.IsTerminal() then Sys(c, i.world)
    else if i.cancelled then Sys(c.(runState := RunAborted), i.world)
    else
      var o := Step(me, c, i);
      Sys(Settle(o), o.world)
  }
}
