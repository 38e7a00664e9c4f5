/** What every reachable context satisfies, and why each phase keeps it. */
module Invariants {
  import opened Base
  import opened State
  import opened YamlCheck
  import opened Transport
  import opened Probing
  import opened Phases
  import Workflow

  // ---- phases of a round ----

  /** States of the executor's half of a round. */
  predicate ExecutorHalf(c: Ctx)
  {
    || c.runState.ContextPrep? || c.runState.SessionBind? || c.runState.ExecutorDispatch?
    || c.runState.ExecutorMonitor? || c.runState.ExecutorOutputCollect? || c.runState.OrchVerify?
    || c.runState.RoundFeedbackPrep?
    || (c.runState.RoundRetryDecide? && c.currentRole == Some(Executor))
  }

  /** States of the reviewer's half of a round, up to the quality gate. */
  predicate ReviewerHalf(c: Ctx)
  {
    || c.runState.ReviewerDispatch? || c.runState.ReviewerMonitor? || c.runState.ReviewerOutputCollect?
    || (c.runState.RoundRetryDecide? && c.currentRole == Some(Reviewer))
  }

  predicate HasVerdict(c: Ctx)
  {
    && c.reviewResult.Some? && c.reviewResultYamlRaw.Some?
    && IsVerdict(c.args.parse, c.args.notionPolicy, c.reviewResultYamlRaw.value, c.reviewResult.value)
  }

  predicate NoRejection(c: Ctx)
  {
    c.reviewerYamlRejection.None? && c.reviewerWorkspaceRejection.None?
  }

  // ---- the invariant, clause by clause ----

  predicate SessionsInv(c: Ctx)
  {
    && (c.executorSessionId.Some? <==> c.reviewerSessionId.Some?)
    && (c.executorSessionId.Some? ==> c.Key(Executor) != c.Key(Reviewer))
    && (c.executorSessionId.Some? || c.runState.ContextPrep? || c.runState.SessionBind? || c.runState.IsTerminal())
  }

  /** In a monitor state exactly the active role's lock is held; elsewhere in a live run, none. */
  predicate LocksInv(c: Ctx)
  {
    && (c.runState.IsTerminal() || (c.executorLock <==> c.runState.ExecutorMonitor?))
    && (c.runState.IsTerminal() || (c.reviewerLock <==> c.runState.ReviewerMonitor?))
    && (c.executorLock || c.reviewerLock ==> c.executorSessionId.Some?)
  }

  predicate MonitoredAs(c: Ctx, role: Role)
  {
    && c.attempt.Some? && c.activeProcess.Some?
    && c.attempt.value.role == role && c.currentRole == Some(role)
    && (c.attempt.value.pid.Some? <==> c.activeProcess.value.alive)
  }

  /** A child that may be alive exists only while it is monitored. */
  predicate ChildInv(c: Ctx)
  {
    && (c.runState.ExecutorMonitor? ==> MonitoredAs(c, Executor))
    && (c.runState.ReviewerMonitor? ==> MonitoredAs(c, Reviewer))
    && (c.activeProcess.Some? && c.activeProcess.value.alive ==> c.runState.IsMonitor() || c.runState.IsTerminal())
    && (c.runState.RoundRetryDecide? ==> c.currentRole.Some?)
    && (c.runState.ReviewerOutputCollect? ==>
          c.currentRole == Some(Reviewer) && c.attempt.Some? && c.attempt.value.role == Reviewer)
  }

  predicate FailuresInv(c: Ctx)
  {
    && c.consecutiveFailureCount <= 5
    && (c.runState.RoundRetryDecide? ==> c.consecutiveFailureCount >= 1)
    && (c.consecutiveFailureCount <= 4 || c.runState.RoundRetryDecide? || c.runState.IsTerminal())
  }

  /**
   * Verdict, raw text and cleanup reason are stored together. In the executor's half a stored verdict
   * is the revise verdict of the last gate; in the reviewer's half it waits for a cleanup.
   */
  predicate VerdictInv(c: Ctx)
  {
    && (c.reviewResult.Some? <==> c.reviewResultYamlRaw.Some?)
    && (c.reviewResult.Some? ==> HasVerdict(c))
    && (ExecutorHalf(c) ==> NoRejection(c) && (c.reviewResult.Some? ==> c.reviewResult.value.decision == Revise))
    && (ReviewerHalf(c) ==>
          && (c.reviewResult.Some? <==> c.reviewerWorkspaceRejection.Some?)
          && (c.reviewResult.Some? ==> c.reviewerYamlRejection.None? && c.preReviewerGitStatus.Some?))
    && (c.runState.ReviewerMonitor? || c.runState.ReviewerOutputCollect? ==> c.preReviewerGitStatus.Some?)
    && (c.runState.QualityGate? ==> c.reviewResult.Some? && NoRejection(c))
    && (c.runState.RoundFeedbackPrep? ==> c.reviewResult.Some?)
    && (c.runState.RunDone? ==> c.reviewResult.Some? && c.reviewResult.value.decision == Accept)
  }

  predicate ReachableState(s: RunState)
  {
    !s.RunInit? && !s.RunFailedProtocol? && !s.RunFailedProviderAccess?
  }

  predicate Inv(c: Ctx)
  {
    && ReachableState(c.runState)
    && SessionsInv(c) && LocksInv(c) && ChildInv(c) && FailuresInv(c) && VerdictInv(c)
  }

  // ---- the monitor ----

  /** The fields no monitor call touches. */
  ghost predicate SameReview(c: Ctx, d: Ctx)
  {
    && d.args == c.args && d.currentRole == c.currentRole
    && d.executorSessionId == c.executorSessionId && d.reviewerSessionId == c.reviewerSessionId
    && d.preReviewerGitStatus == c.preReviewerGitStatus
    && d.reviewResult == c.reviewResult && d.reviewResultYamlRaw == c.reviewResultYamlRaw
    && d.reviewerYamlRejection == c.reviewerYamlRejection
    && d.reviewerWorkspaceRejection == c.reviewerWorkspaceRejection
    && d.executorOutboxSnapshot == c.executorOutboxSnapshot
    && d.reviewerOutboxSnapshot == c.reviewerOutboxSnapshot
  }

  /** The dispatch facts an attempt carries unchanged to its collection. */
  predicate SameDispatch(c: Ctx, d: Ctx)
    requires c.attempt.Some? && d.attempt.Some?
  {
    && d.attempt.value.role == c.attempt.value.role
    && d.attempt.value.dispatchTs == c.attempt.value.dispatchTs
    && d.attempt.value.requestFingerprint == c.attempt.value.requestFingerprint
    && d.attempt.value.preReviewerOutboxMtime == c.attempt.value.preReviewerOutboxMtime
  }

  /** A context in the monitor of the given role, as dispatch and earlier probes leave it. */
  predicate Monitoring(c: Ctx, role: Role)
  {
    Inv(c) && c.runState == MonitorOf(role)
  }

  /** No lock is taken. */
  predicate OnlyDrops(c: Ctx, d: Ctx)
  {
    (d.executorLock ==> c.executorLock) && (d.reviewerLock ==> c.reviewerLock)
  }

  /** How a monitor call can end, and that it ends with the lock released or the run over. */
  ghost predicate MonitorResult(c: Ctx, role: Role, m: MonitorStep)
    requires c.attempt.Some? && m.ctx.attempt.Some?
  {
    && SameReview(c, m.ctx) && SameDispatch(c, m.ctx)
    && (m.ctx.outboxPresent == c.outboxPresent || m.ctx.runState == CollectOf(role))
    && m.ctx.activeProcess.Some? && OnlyDrops(c, m.ctx)
    && Inv(if m.status.Failed? then m.ctx.(runState := ErrorToRunState(m.status.error)) else m.ctx)
    && (m.status.Looping? ==>
          m.ctx.runState == c.runState && m.ctx.consecutiveFailureCount == c.consecutiveFailureCount)
    && (m.status.Failed? ==> m.ctx.runState == c.runState && m.ctx.consecutiveFailureCount == c.consecutiveFailureCount)
    && (m.status.Returned? ==>
          || (m.ctx.runState == CollectOf(role) && m.ctx.consecutiveFailureCount == c.consecutiveFailureCount)
          || (m.ctx.runState == RoundRetryDecide && m.ctx.consecutiveFailureCount == c.consecutiveFailureCount + 1)
          || (m.ctx.runState == RunFailedServiceCap && m.ctx.consecutiveFailureCount == c.consecutiveFailureCount)
          || (m.ctx.runState == RunAborted && m.ctx.consecutiveFailureCount == c.consecutiveFailureCount))
  }

  /** The shape of a context that leaves its monitor: nothing reviewed changed, no lock, no live child. */
  ghost predicate LeftMonitor(c: Ctx, role: Role, d: Ctx)
  {
    && SameReview(c, d)
    && (d.outboxPresent == c.outboxPresent || d.runState == CollectOf(role))
    && !d.executorLock && !d.reviewerLock
    && d.attempt.Some? && d.attempt.value.role == role
    && d.activeProcess.Some?
    && (d.runState.IsTerminal() || !d.activeProcess.value.alive)
    && (|| (d.consecutiveFailureCount == c.consecutiveFailureCount
            && (d.runState == CollectOf(role) || d.runState.RunFailedServiceCap? || d.runState.RunAborted?))
        || (d.consecutiveFailureCount == c.consecutiveFailureCount + 1 && d.runState.RoundRetryDecide?))
  }

  lemma LeftMonitorKeeps(c: Ctx, role: Role, d: Ctx)
    requires Monitoring(c, role) && LeftMonitor(c, role, d)
    ensures Inv(d)
  {
    hide IsVerdict;
  }

  lemma RouteKills(c: Ctx, role: Role, p: Probe, s: AttemptState)
    requires Monitoring(c, role) && (s.HangConfirmed? || s.Cancelled?)
    ensures var m := RouteProbe(c, role, p, s);
            m.status.Returned? && LeftMonitor(c, role, m.ctx) && SameDispatch(c, m.ctx)
  {
    hide OutboxFilled, FinalizeExpired, VerdictInv, FailuresInv, SessionsInv, Workflow.SoftSuccessAllowed;
  }

  lemma RouteLeaves(c: Ctx, role: Role, p: Probe, s: AttemptState)
    requires Monitoring(c, role) && Leaves(s)
    requires s != FailedProviderAccess && s != FailedTransport
    requires s == Success || s == SoftSuccess || s == FailedSilent || s == FailedProtocol ==>
               c.attempt.value.pid.None?
    requires s == SoftSuccess ==> Workflow.SoftSuccessAllowed(c.args.workflow, c.artifactMap)
    ensures var m := RouteProbe(c, role, p, s);
            m.status.Returned? && LeftMonitor(c, role, m.ctx) && SameDispatch(c, m.ctx)
  {
    hide OutboxFilled, FinalizeExpired, VerdictInv, FailuresInv, SessionsInv, Workflow.SoftSuccessAllowed;
    hide TerminateActiveChild;
    if s.HangConfirmed? || s.Cancelled? {
      RouteKills(c, role, p, s);
    }
  }

  lemma RouteLoops(c: Ctx, role: Role, p: Probe, s: AttemptState)
    requires Monitoring(c, role) && !Leaves(s)
    ensures MonitorResult(c, role, RouteProbe(c, role, p, s))
    ensures RouteProbe(c, role, p, s).status.Looping?
  {
    hide OutboxFilled, FinalizeExpired, IsVerdict;
  }

  lemma RouteKeeps(c: Ctx, role: Role, p: Probe, s: AttemptState)
    requires Monitoring(c, role)
    requires s != FailedProviderAccess && s != FailedTransport
    requires s == Success || s == SoftSuccess || s == FailedSilent || s == FailedProtocol ==>
               c.attempt.value.pid.None?
    requires s == SoftSuccess ==> Workflow.SoftSuccessAllowed(c.args.workflow, c.artifactMap)
    ensures MonitorResult(c, role, RouteProbe(c, role, p, s))
  {
    hide RouteProbe, LocksInv, SessionsInv, VerdictInv, FailuresInv;
    if Leaves(s) {
      RouteLeaves(c, role, p, s);
      LeftMonitorKeeps(c, role, RouteProbe(c, role, p, s).ctx);
    } else {
      RouteLoops(c, role, p, s);
    }
  }

  /** The context of a probe that reaches the classifier, as routing sees it. */
  function ClassifiedCtx(c: Ctx, role: Role, p: Probe): (d: Ctx)
    requires c.attempt.Some?
    ensures d.attempt.Some?
  {
    NoteChild(c, p).(
      attempt := Some(Classified(c.SettingOf(role), c.attempt.value, p)),
      artifactMap := p.artifacts)
  }

  lemma ClassifiedKeeps(c: Ctx, role: Role, p: Probe)
    requires Monitoring(c, role)
    ensures var d := ClassifiedCtx(c, role, p);
            Monitoring(d, role) && SameReview(c, d) && SameDispatch(c, d)
            && d.consecutiveFailureCount == c.consecutiveFailureCount
  {
    hide ProbeClass, Classified, IsVerdict;
    ClassifiedFacts(c.SettingOf(role), c.attempt.value, p);
  }

  /** What the class says, on the context that routing sees. */
  lemma ClassifiedPid(c: Ctx, role: Role, p: Probe)
    requires c.attempt.Some?
    ensures var d, s := ClassifiedCtx(c, role, p), ProbeClass(c.SettingOf(role), c.attempt.value, p);
            && s != FailedProviderAccess && s != FailedTransport
            && (s == Success || s == SoftSuccess || s == FailedSilent || s == FailedProtocol ==>
                  d.attempt.value.pid.None?)
            && (s == SoftSuccess ==> Workflow.SoftSuccessAllowed(d.args.workflow, d.artifactMap))
  {
    hide ProbeClass, Classified, Workflow.SoftSuccessAllowed;
    ClassFacts(c.SettingOf(role), c.attempt.value, p);
    ClassifiedFacts(c.SettingOf(role), c.attempt.value, p);
  }

  lemma ProbeCancelledKeeps(c: Ctx, role: Role, p: Probe)
    requires Monitoring(c, role) && p.cancel == AtLoopHead
    ensures MonitorResult(c, role, MonitorProbe(c, role, p))
  {
    hide ProbeClass, Classified, RouteProbe, IsVerdict;
  }

  lemma ProbeFailsKeeps(c: Ctx, role: Role, p: Probe)
    requires Monitoring(c, role) && p.cancel != AtLoopHead && p.fault.Some?
    ensures MonitorResult(c, role, MonitorProbe(c, role, p))
  {
    hide ProbeClass, Classified, RouteProbe, IsVerdict;
  }

  lemma ProbeIsRouted(c: Ctx, role: Role, p: Probe)
    requires c.attempt.Some? && c.SessionId(role).Some?
    requires p.cancel != AtLoopHead && p.fault.None?
    ensures MonitorProbe(c, role, p) ==
            RouteProbe(ClassifiedCtx(c, role, p), role, p, ProbeClass(c.SettingOf(role), c.attempt.value, p))
  {
    hide ProbeClass, Classified, RouteProbe;
  }

  lemma MonitoringHas(c: Ctx, role: Role)
    requires Monitoring(c, role)
    ensures c.attempt.Some? && c.SessionId(role).Some?
  {
  }

  lemma ProbeRoutedKeeps(c: Ctx, role: Role, p: Probe)
    requires Monitoring(c, role) && p.cancel != AtLoopHead && p.fault.None?
    ensures MonitorResult(c, role, MonitorProbe(c, role, p))
  {
    hide MonitorProbe, ProbeClass, Classified, RouteProbe, Monitoring, Workflow.SoftSuccessAllowed;
    MonitoringHas(c, role);
    ProbeIsRouted(c, role, p);
    ClassifiedKeeps(c, role, p);
    ClassifiedPid(c, role, p);
    RouteKeeps(ClassifiedCtx(c, role, p), role, p, ProbeClass(c.SettingOf(role), c.attempt.value, p));
  }

  lemma MonitorProbeKeeps(c: Ctx, role: Role, p: Probe)
    requires Monitoring(c, role)
    ensures MonitorResult(c, role, MonitorProbe(c, role, p))
  {
    hide MonitorProbe;
    if p.cancel == AtLoopHead {
      ProbeCancelledKeeps(c, role, p);
    } else if p.fault.Some? {
      ProbeFailsKeeps(c, role, p);
    } else {
      ProbeRoutedKeeps(c, role, p);
    }
  }

  lemma {:induction false} MonitorRunKeeps(c: Ctx, role: Role, ps: seq<Probe>, n: nat)
    requires Monitoring(c, role) && n <= |ps|
    ensures MonitorResult(c, role, MonitorRun(c, role, ps, n))
  {
    hide MonitorProbe, IsVerdict;
    if n == 0 {
    } else {
      MonitorRunKeeps(c, role, ps, n - 1);
      var m := MonitorRun(c, role, ps, n - 1);
      if m.status.Looping? {
        MonitorProbeKeeps(m.ctx, role, ps[n - 1]);
      }
    }
  }

  // ---- the other phases ----

  lemma BindKeeps(c: Ctx, w: World, executor: BindResult, reviewer: BindResult)
    requires Inv(c) && c.runState.SessionBind?
    ensures Inv(Settle(DoSessionBind(c, w, executor, reviewer)))
  {
    hide IsVerdict;
  }

  function DispatchOf(role: Role): RunState
  {
    if role == Executor then ExecutorDispatch else ReviewerDispatch
  }

  /** How far a failing dispatch got with the transport files: not at all, into the reset, or past the request. */
  ghost predicate FilesGot(c: Ctx, before: Files, role: Role, d: DispatchInput, after: Files)
  {
    var reset := ResetTransport(before, role, d.resetAt, d.resetFault).files;
    || after == before
    || (after == reset && (d.fault.Some? || d.resetFault.Some?))
    || (after == WriteRequest(reset, d.render(TemplateFor(c, role)), d.writtenAt) && d.FailsAt(Spawning).Some?)
  }

  /** The lock is taken, and for the reviewer perhaps the new baseline; nothing else of the context changed. */
  ghost predicate OnlyLocked(c: Ctx, role: Role, d: DispatchInput, e: Ctx)
  {
    || e == c.SetLock(role, true)
    || (role == Reviewer && c.reviewerWorkspaceRejection.None?
        && e == c.SetLock(role, true).(preReviewerGitStatus := Some(d.gitStatusAll)))
  }

  /** A dispatch that fails leaves the run with the context as it was, but for the lock and the baseline. */
  ghost predicate DispatchFailed(me: nat, c: Ctx, w: World, role: Role, d: DispatchInput, o: Outcome)
  {
    && o.error.Some? && !o.error.value.ArtifactContract?
    && (|| (o.ctx == c && o.world == w)
        || (&& c.SessionId(role).Some? && c.Key(role) !in w.locks
            && o.world.locks == w.locks[c.Key(role) := me]
            && OnlyLocked(c, role, d, o.ctx)
            && FilesGot(c, w.files, role, d, o.world.files)))
  }

  /** What a successful dispatch establishes. */
  ghost predicate Dispatched(me: nat, c: Ctx, w: World, role: Role, d: DispatchInput, o: Outcome)
  {
    && o.error.None?
    && c.SessionId(role).Some? && c.Key(role) !in w.locks
    && o.ctx.attempt.Some? && Fresh(o.ctx.attempt.value) && o.ctx.attempt.value.role == role
    && o.ctx.attempt.value.requestFingerprint == Sha256Hex(d.render(TemplateFor(c, role)))
    && o.ctx.attempt.value.dispatchTs == d.now
    && o.ctx.attempt.value.state == Dispatching && o.ctx.attempt.value.pid == Some(d.pid)
    && o.ctx.attempt.value.dispatchGitStatusHash == Sha256Hex(d.gitStatus)
    && o.ctx.attempt.value.dispatchGitHead == d.gitHead
    && o.ctx.attempt.value.preReviewerOutboxMtime == (if role == Reviewer then Mtime(w.files.outbox) else None)
    && o.ctx.activeProcess == Some(Process(true, false))
    && o.ctx == c.SetLock(role, true).(
                  runState := MonitorOf(role), attempt := o.ctx.attempt, activeProcess := o.ctx.activeProcess,
                  currentRole := Some(role),
                  preReviewerGitStatus :=
                    if role == Reviewer && c.reviewerWorkspaceRejection.None? then Some(d.gitStatusAll)
                    else c.preReviewerGitStatus)
    && o.world.locks == w.locks[c.Key(role) := me]
    && o.world.files.inbox == Some(File(Text(d.render(TemplateFor(c, role))), d.writtenAt))
    && (role == Reviewer ==> o.world.files.outbox == w.files.outbox)
    && (role == Executor ==> o.world.files.outbox == Some(File(EMPTY, d.resetAt)))
    && (c.attempt.Some? ==> VerifyRequestFingerprint(w.files, c.attempt.value.requestFingerprint) == None)
  }

  /** The first half of a dispatch: either it failed with at most the lock taken, or transport is reset. */
  lemma PrepareExact(me: nat, c: Ctx, w: World, role: Role, d: DispatchInput)
    ensures var o := PrepareDispatch(me, c, w, role, d);
            && (o.error.Some? ==> DispatchFailed(me, c, w, role, d, o))
            && (o.error.None? ==>
                  && c.SessionId(role).Some? && c.Key(role) !in w.locks
                  && o.ctx == c.SetLock(role, true)
                  && o.world.locks == w.locks[c.Key(role) := me]
                  && o.world.files == ResetTransport(w.files, role, d.resetAt, d.resetFault).files
                  && (role == Reviewer ==> o.world.files.outbox == w.files.outbox)
                  && (role == Executor ==> o.world.files.outbox == Some(File(EMPTY, d.resetAt)))
                  && (c.attempt.Some? ==>
                        VerifyRequestFingerprint(w.files, c.attempt.value.requestFingerprint) == None))
  {
    hide ResetTransport, VerifyRequestFingerprint;
    ResetExact(w.files, role, d.resetAt, d.resetFault);
    ResetErrors(w.files, role, d.resetAt, d.resetFault);
    if c.attempt.Some? {
      VerifyErrors(c, w);
    }
  }

  /** The second half: either it failed with at most the baseline captured, or the child runs. */
  lemma LaunchExact(c: Ctx, w: World, role: Role, d: DispatchInput)
    ensures var o := Launch(c, w, role, d);
            && (o.error.Some? ==>
                  && !o.error.value.ArtifactContract?
                  && o.world.locks == w.locks && d.fault.Some?
                  && (o.ctx == c || o.ctx == CaptureBaseline(c, role, d))
                  && (|| o.world.files == w.files
                      || (d.FailsAt(Spawning).Some?
                          && o.world.files == WriteRequest(w.files, d.render(TemplateFor(c, role)), d.writtenAt))))
            && (o.error.None? ==>
                  && o.ctx.attempt ==
                       Some(NewAttempt(role, d, d.render(TemplateFor(c, role)),
                                       if role == Reviewer then Mtime(w.files.outbox) else None))
                  && o.ctx == c.(attempt := o.ctx.attempt, activeProcess := Some(Process(true, false)),
                                 currentRole := Some(role),
                                 preReviewerGitStatus :=
                                   if role == Reviewer && c.reviewerWorkspaceRejection.None? then Some(d.gitStatusAll)
                                   else c.preReviewerGitStatus)
                  && o.world == w.(files := WriteRequest(w.files, d.render(TemplateFor(c, role)), d.writtenAt)))
  {
    assert TemplateFor(CaptureBaseline(c, role, d), role) == TemplateFor(c, role);
    hide TemplateFor, NewAttempt;
  }

  lemma DispatchExact(me: nat, c: Ctx, w: World, role: Role, d: DispatchInput)
    ensures var o := DoDispatch(me, c, w, role, d);
            DispatchFailed(me, c, w, role, d, o) || Dispatched(me, c, w, role, d, o)
  {
    var prep := PrepareDispatch(me, c, w, role, d);
    PrepareExact(me, c, w, role, d);
    if prep.error.None? {
      LaunchExact(prep.ctx, prep.world, role, d);
      assert TemplateFor(c.SetLock(role, true), role) == TemplateFor(c, role);
    }
    hide PrepareDispatch, Launch, TemplateFor, VerifyRequestFingerprint;
  }

  /** Launching never fails for the reasons that end a dispatch earlier. */
  lemma LaunchErrors(o: Outcome, role: Role, d: DispatchInput)
    ensures Launch(o.ctx, o.world, role, d).error != Some(SessionLocked)
    ensures Launch(o.ctx, o.world, role, d).error != Some(RequestChangedAbortRetry)
  {
    hide TemplateFor;
  }

  lemma ResetErrors(fs: Files, role: Role, at: int, fault: Option<ResetFault>)
    ensures var e := ResetTransport(fs, role, at, fault).error;
            e.None? || e == Some(TransportResetFailed) || e == Some(Io)
  {
    TruncateErrors(fs, ResetPaths(role), 0, at, fault);
  }

  lemma TruncateErrors(fs: Files, paths: seq<Path>, k: nat, at: int, fault: Option<ResetFault>)
    requires k <= |paths|
    ensures var e := TruncateFrom(fs, paths, k, at, fault).error;
            e.None? || e == Some(TransportResetFailed) || e == Some(Io)
    decreases |paths| - k
  {
  }

  lemma VerifyErrors(c: Ctx, w: World)
    requires c.attempt.Some?
    ensures var e := VerifyRequestFingerprint(w.files, c.attempt.value.requestFingerprint);
            e.None? || e == Some(RequestChangedAbortRetry) || e == Some(Io)
  {
  }

  lemma DispatchedKeeps(me: nat, c: Ctx, w: World, role: Role, d: DispatchInput, o: Outcome)
    requires Inv(c) && c.runState == DispatchOf(role) && Dispatched(me, c, w, role, d, o)
    ensures Inv(o.ctx)
  {
    hide IsVerdict, TemplateFor, VerifyRequestFingerprint;
  }

  lemma DispatchFailedKeeps(me: nat, c: Ctx, w: World, role: Role, d: DispatchInput, o: Outcome)
    requires Inv(c) && c.runState == DispatchOf(role) && DispatchFailed(me, c, w, role, d, o)
    ensures Inv(Settle(o))
  {
    hide IsVerdict;
  }

  lemma DispatchKeeps(me: nat, c: Ctx, w: World, role: Role, d: DispatchInput)
    requires Inv(c) && c.runState == DispatchOf(role)
    ensures Inv(Settle(DoDispatch(me, c, w, role, d)))
  {
    hide DoDispatch, Inv, Dispatched, DispatchFailed;
    DispatchExact(me, c, w, role, d);
    var o := DoDispatch(me, c, w, role, d);
    if Dispatched(me, c, w, role, d, o) {
      DispatchedKeeps(me, c, w, role, d, o);
      DispatchedIsOk(me, c, w, role, d, o);
    } else {
      DispatchFailedKeeps(me, c, w, role, d, o);
    }
  }

  lemma DispatchedIsOk(me: nat, c: Ctx, w: World, role: Role, d: DispatchInput, o: Outcome)
    requires Dispatched(me, c, w, role, d, o)
    ensures Settle(o) == o.ctx
  {
  }

  /** Reading a fresh outbox either stores a verdict that passed every rule or records a rejection. */
  lemma TakeVerdictExact(c: Ctx, raw: string)
    requires Inv(c) && c.runState.ReviewerOutputCollect? && c.reviewResult.None?
    ensures var d := TakeVerdict(c, raw);
            if d.reviewResult.None? then
              Inv(d) && d == CountFailure(c.(reviewerYamlRejection := d.reviewerYamlRejection))
              && d.reviewerYamlRejection.Some?
            else
              && d == c.(reviewerYamlRejection := None, reviewResultYamlRaw := Some(raw),
                         reviewResult := d.reviewResult)
              && HasVerdict(d)
  {
    hide ParseReviewerYaml, EnforceReviewerNotionPolicy;
    match ParseReviewerYaml(c.args.parse, raw)
    case Err(_) =>
    case Ok(y) =>
      var accepted := EnforceReviewerNotionPolicy(c.args.notionPolicy, y).Ok?;
      assert accepted <==> TakeVerdict(c, raw).reviewResult.Some?;
  }

  /** The collection of a context that holds a verdict: the workspace alone decides. */
  lemma CheckWorkspaceKeeps(c: Ctx, d: Ctx, w: World, x: ReviewerCollectInput)
    requires Inv(c) && c.runState.ReviewerOutputCollect?
    requires HasVerdict(d)
    requires d == c.(reviewerYamlRejection := None, reviewResultYamlRaw := d.reviewResultYamlRaw,
                     reviewResult := d.reviewResult, reviewerOutboxSnapshot := d.reviewerOutboxSnapshot)
    ensures Inv(Settle(CheckWorkspace(d, w, x)))
  {
    hide IsVerdict, DirtyReason;
  }

  lemma CollectFailureKeeps(c: Ctx)
    requires Inv(c) && c.runState.ReviewerOutputCollect?
    ensures Inv(CountFailure(c))
    ensures forall f: Option<File> :: Inv(c.(reviewerOutboxSnapshot := f))
  {
    hide IsVerdict;
  }

  lemma CollectFaultKeeps(c: Ctx, w: World, e: Fault)
    requires Inv(c) && c.runState.ReviewerOutputCollect?
    ensures Inv(Settle(Outcome(c, w, Some(e))))
  {
    hide IsVerdict;
  }

  lemma CollectKeeps(c: Ctx, w: World, x: ReviewerCollectInput)
    requires Inv(c) && c.runState.ReviewerOutputCollect?
    ensures Inv(Settle(DoReviewerOutputCollect(c, w, x)))
  {
    hide TakeVerdict, CheckWorkspace, Inv, OutboxUntouched, HasVerdict;
    var outbox := w.files.outbox;
    var c1 := c.(reviewerOutboxSnapshot := outbox);
    CollectFailureKeeps(c);
    if x.mtimeFault.Some? {
      CollectFaultKeeps(c, w, x.mtimeFault.value);
    } else if x.snapshotFault.Some? {
      CollectFaultKeeps(c, w, x.snapshotFault.value);
    } else if c.reviewResult.Some? {
      StoredVerdict(c);
      CheckWorkspaceKeeps(c, c1, w, x);
    } else if outbox.Some? && outbox.value.body.Text? {
      var raw := outbox.value.body.text;
      TakeVerdictExact(c1, raw);
      if TakeVerdict(c1, raw).reviewResult.Some? {
        CheckWorkspaceKeeps(c, TakeVerdict(c1, raw), w, x);
      }
    }
  }

  lemma StoredVerdict(c: Ctx)
    requires Inv(c) && c.runState.ReviewerOutputCollect? && c.reviewResult.Some?
    ensures c.reviewerYamlRejection.None? && HasVerdict(c)
    ensures forall f: Option<File> :: HasVerdict(c.(reviewerOutboxSnapshot := f))
  {
    hide IsVerdict;
  }

  lemma GateKeeps(c: Ctx)
    requires Inv(c) && c.runState.QualityGate?
    ensures Inv(DoQualityGate(c))
  {
    hide IsVerdict;
  }

  lemma RetryShape(c: Ctx)
    requires ChildInv(c) && c.runState.RoundRetryDecide?
    ensures var d := DoRoundRetryDecide(c);
            && d == c.(attempt := d.attempt, runState := d.runState)
            && d.runState ==
                 (if c.consecutiveFailureCount >= 5 then RunFailedConsecutiveFailureLimit
                  else DispatchOf(c.currentRole.value))
  {
    var role := c.currentRole.value;
    assert role == Executor || role == Reviewer;
  }

  lemma RetryKeeps(c: Ctx)
    requires Inv(c) && c.runState.RoundRetryDecide?
    ensures Inv(DoRoundRetryDecide(c))
  {
    hide IsVerdict, DoRoundRetryDecide;
    RetryShape(c);
    var role := c.currentRole.value;
    assert role == Executor || role == Reviewer;
  }

  lemma VerifyKeeps(c: Ctx)
    requires Inv(c) && c.runState.OrchVerify?
    ensures Inv(DoOrchVerify(c))
  {
  }

  lemma MonitorKeeps(c: Ctx, w: World, role: Role, ps: seq<Probe>)
    requires Monitoring(c, role)
    ensures Inv(Settle(DoMonitor(c, w, role, ps)))
  {
    hide MonitorRun, LocksInv, ChildInv, VerdictInv, FailuresInv, SessionsInv;
    MonitorRunKeeps(c, role, ps, |ps|);
  }

  lemma StepKeeps(me: nat, c: Ctx, i: Input)
    requires Inv(c) && !c.runState.IsTerminal()
    ensures Inv(Settle(Step(me, c, i)))
  {
    hide DoSessionBind, DoDispatch, DoMonitor, DoReviewerOutputCollect, DoQualityGate, DoRoundRetryDecide;
    hide DoOrchVerify, DoContextPrep, DoExecutorOutputCollect, DoRoundFeedbackPrep, Settle;
    hide LocksInv, ChildInv, VerdictInv, FailuresInv, SessionsInv;
    match c.runState
    case SessionBind => BindKeeps(c, i.world, i.bindExecutor, i.bindReviewer);
    case ExecutorDispatch => DispatchKeeps(me, c, i.world, Executor, i.dispatch);
    case ReviewerDispatch => DispatchKeeps(me, c, i.world, Reviewer, i.dispatch);
    case ExecutorMonitor => MonitorKeeps(c, i.world, Executor, i.probes);
    case ReviewerMonitor => MonitorKeeps(c, i.world, Reviewer, i.probes);
    case RoundRetryDecide => SettleOk(DoRoundRetryDecide(c), i.world); RetryKeeps(c);
    case OrchVerify => SettleOk(DoOrchVerify(c), i.world); VerifyKeeps(c);
    case ReviewerOutputCollect => CollectKeeps(c, i.world, i.reviewerCollect);
    case QualityGate => SettleOk(DoQualityGate(c), i.world); GateKeeps(c);
    case ContextPrep => PrepKeeps(c, i);
    case ExecutorOutputCollect => ExecutorCollectKeeps(c, i);
    case RoundFeedbackPrep => SettleOk(DoRoundFeedbackPrep(c), i.world); FeedbackKeeps(c);
  }

  lemma SettleOk(c: Ctx, w: World)
    ensures Settle(Outcome(c, w, None)) == c
  {
  }

  lemma PrepKeeps(c: Ctx, i: Input)
    requires Inv(c) && c.runState.ContextPrep?
    ensures Inv(Settle(DoContextPrep(c, i.world, i.prep)))
  {
    hide IsVerdict;
  }

  lemma ExecutorCollectKeeps(c: Ctx, i: Input)
    requires Inv(c) && c.runState.ExecutorOutputCollect?
    ensures Inv(Settle(DoExecutorOutputCollect(c, i.world, i.executorCollect)))
  {
    hide IsVerdict;
  }

  lemma FeedbackKeeps(c: Ctx)
    requires Inv(c) && c.runState.RoundFeedbackPrep?
    ensures Inv(DoRoundFeedbackPrep(c))
  {
    hide IsVerdict;
  }

  lemma InvIsWf(c: Ctx)
    requires Inv(c)
    ensures Wf(c)
  {
  }

  /** The invariant holds at the start and is kept by every iteration of the run loop. */
  lemma InitialInv(args: Args)
    ensures Inv(InitialCtx(args))
  {
  }

  lemma NextKeeps(me: nat, c: Ctx, i: Input)
    requires Inv(c)
    ensures Inv(Next(me, c, i).ctx)
  {
    hide Step, Settle, IsVerdict;
    if !c.runState.IsTerminal() && !i.cancelled {
      StepKeeps(me, c, i);
    }
  }
}
