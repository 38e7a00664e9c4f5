/** The orchestrator as the object it is: mutable fields, one method per phase, and the run loop. */
module Orchestration {
  import opened Base
  import opened State
  import opened YamlCheck
  import opened Transport
  import opened Locks
  import opened Probing
  import opened Phases
  import Workflow
  import Fsm
  import Invariants
  import Runs

  class Orchestrator {
    const me: nat
    const args: Args
    const transport: TransportDir
    const lockTable: LockTable

    var runState: RunState
    var consecutiveFailureCount: nat
    var currentRole: Option<Role>
    var preReviewerGitStatus: Option<seq<string>>
    var executorSessionId: Option<string>
    var reviewerSessionId: Option<string>
    var executorLock: bool
    var reviewerLock: bool
    var attempt: Option<Attempt>
    var activeProcess: Option<Process>
    var artifactMap: map<string, bool>
    var outboxPresent: bool
    var reviewResult: Option<ReviewerYaml>
    var reviewResultYamlRaw: Option<string>
    var reviewerYamlRejection: Option<Error>
    var reviewerWorkspaceRejection: Option<seq<string>>
    var executorOutboxSnapshot: Option<File>
    var reviewerOutboxSnapshot: Option<File>

    constructor (me: nat, args: Args, transport: TransportDir, lockTable: LockTable)
      ensures this.me == me && this.args == args && this.transport == transport && this.lockTable == lockTable
      ensures View() == InitialCtx(args)
    {
      this.me, this.args, this.transport, this.lockTable := me, args, transport, lockTable;
      runState, consecutiveFailureCount, currentRole, preReviewerGitStatus := ContextPrep, 0, None, None;
      executorSessionId, reviewerSessionId, executorLock, reviewerLock := None, None, false, false;
      attempt, activeProcess, artifactMap, outboxPresent := None, None, map[], false;
      reviewResult, reviewResultYamlRaw, reviewerYamlRejection, reviewerWorkspaceRejection := None, None, None, None;
      executorOutboxSnapshot, reviewerOutboxSnapshot := None, None;
    }

    /** The fields as one context value. */
    function View(): Ctx
      reads this
    {
      Ctx(args, runState, consecutiveFailureCount, currentRole, preReviewerGitStatus, executorSessionId,
          reviewerSessionId, executorLock, reviewerLock, attempt, activeProcess, artifactMap, outboxPresent,
          reviewResult, reviewResultYamlRaw, reviewerYamlRejection, reviewerWorkspaceRejection,
          executorOutboxSnapshot, reviewerOutboxSnapshot)
    }

    /** The shared objects as one world value. */
    ghost function Around(): World
      reads transport, lockTable
    {
      World(transport.Contents(), lockTable.held)
    }

    method SetLock(role: Role, held: bool)
      modifies this`executorLock, this`reviewerLock
      ensures View() == old(View()).SetLock(role, held)
    {
      if role == Executor {
        executorLock := held;
      } else {
        reviewerLock := held;
      }
    }

    method CountOneFailure()
      modifies this`consecutiveFailureCount, this`runState
      ensures View() == CountFailure(old(View()))
    {
      consecutiveFailureCount := consecutiveFailureCount + 1;
      runState := RoundRetryDecide;
    }

    // ---- CONTEXT_PREP and SESSION_BIND ----

    method PrepareContext(prep: Option<PrepError>) returns (error: Option<Error>)
      modifies this
      ensures Outcome(View(), Around(), error) == DoContextPrep(old(View()), old(Around()), prep)
    {
      if prep.Some? {
        return Some(prep.value);
      }
      runState := SessionBind;
      return None;
    }

    method BindSessions(executor: BindResult, reviewer: BindResult) returns (error: Option<Error>)
      modifies this
      ensures Outcome(View(), Around(), error) == DoSessionBind(old(View()), old(Around()), executor, reviewer)
      ensures error.Some? ==> View() == old(View())
      ensures error.None? <==>
                && executor.Found? && reviewer.Found?
                && !(args.executorProvider == args.reviewerProvider && executor.session == reviewer.session)
      ensures error.None? ==>
                && executor == Found(executor.session) && executorSessionId == Some(executor.session)
                && reviewer == Found(reviewer.session) && reviewerSessionId == Some(reviewer.session)
                && View().Key(Executor) != View().Key(Reviewer)
    {
      if executor.BindFailed? {
        return Some(executor.error);
      }
      if reviewer.BindFailed? {
        return Some(reviewer.error);
      }
      if args.executorProvider == args.reviewerProvider && executor.session == reviewer.session {
        return Some(SessionBindFailed);
      }
      executorSessionId := Some(executor.session);
      reviewerSessionId := Some(reviewer.session);
      runState := ExecutorDispatch;
      return None;
    }

    // ---- dispatch ----

    method PrepareFor(role: Role, d: DispatchInput) returns (error: Option<Error>)
      modifies this, transport, lockTable
      ensures Outcome(View(), Around(), error) == PrepareDispatch(me, old(View()), old(Around()), role, d)
    {
      if View().SessionId(role).None? {
        return Some(InvalidInput);
      }
      error := lockTable.TryAcquire(me, View().Key(role), d.FailsAt(Locking));
      if error.Some? {
        return;
      }
      SetLock(role, true);
      if attempt.Some? {
        if d.FailsAt(Verifying).Some? {
          return Some(d.FailsAt(Verifying).value);
        }
        error := transport.Verify(attempt.value.requestFingerprint);
        if error.Some? {
          return;
        }
      }
      if d.FailsAt(Baseline).Some? {
        return Some(d.FailsAt(Baseline).value);
      }
      error := transport.Reset(role, d.resetAt, d.resetFault);
    }

    method LaunchChild(role: Role, d: DispatchInput) returns (error: Option<Error>)
      modifies this, transport
      ensures Outcome(View(), Around(), error) == Launch(old(View()), old(Around()), role, d)
    {
      var preMtime := None;
      if role == Reviewer {
        if d.FailsAt(ReviewerBaseline).Some? {
          return Some(d.FailsAt(ReviewerBaseline).value);
        }
        preMtime := Mtime(transport.outbox);
        if reviewerWorkspaceRejection.None? {
          preReviewerGitStatus := Some(d.gitStatusAll);
        }
      }
      var template := ReviewerReview;
      if role == Executor {
        template := if reviewResult.Some? then ExecutorFeedback else ExecutorInitial;
      } else if reviewerWorkspaceRejection.Some? {
        template := ReviewerRepairWorkspace;
      } else if reviewerYamlRejection.Some? {
        template := ReviewerRepairYaml;
      }
      if d.FailsAt(Rendering).Some? {
        return Some(d.FailsAt(Rendering).value);
      }
      var content := d.render(template);
      var fingerprint := transport.Write(content, d.writtenAt);
      if d.FailsAt(Spawning).Some? {
        return Some(d.FailsAt(Spawning).value);
      }
      attempt := Some(NewAttempt(role, d, content, preMtime));
      activeProcess := Some(Process(true, false));
      currentRole := Some(role);
      return None;
    }

    method Dispatch(role: Role, d: DispatchInput) returns (error: Option<Error>)
      modifies this, transport, lockTable
      ensures Outcome(View(), Around(), error) == DoDispatch(me, old(View()), old(Around()), role, d)
    {
      hide PrepareDispatch, Launch;
      error := PrepareFor(role, d);
      if error.Some? {
        return;
      }
      error := LaunchChild(role, d);
      if error.Some? {
        return;
      }
      runState := MonitorOf(role);
    }

    // ---- monitor ----

    method StopChild()
      modifies this`activeProcess
      ensures View() == TerminateActiveChild(old(View()))
    {
      if activeProcess.Some? && activeProcess.value.alive {
        activeProcess := Some(Process(false, true));
      }
    }

    method ReleaseLock(role: Role)
      modifies this`executorLock, this`reviewerLock, lockTable
      ensures View() == old(View()).SetLock(role, false)
      ensures lockTable.held == LocksAfter(old(View()), View(), role, old(lockTable.held))
    {
      var held := if role == Executor then executorLock else reviewerLock;
      if held && View().SessionId(role).Some? {
        lockTable.Drop(View().Key(role));
      }
      SetLock(role, false);
    }

    /** The child was reaped: forget its pid. */
    method ReapChild(p: Probe)
      requires attempt.Some?
      modifies this
      ensures attempt.Some?
      ensures View() == NoteChild(old(View()), p).(attempt := Some(NoteExit(old(attempt).value, p)))
    {
      if p.childExited {
        if activeProcess.Some? {
          activeProcess := Some(activeProcess.value.(alive := false));
        }
        attempt := Some(attempt.value.(pid := None));
      }
    }

    /** Compare the probe with the recorded baselines, then record it as the new baseline. */
    method RecordSignals(p: Probe) returns (workSignalsChanged: bool)
      requires attempt.Some?
      modifies this`attempt
      ensures workSignalsChanged == WorkSignalsChanged(old(attempt).value, p)
      ensures attempt == Some(RecordBaselines(old(attempt).value, p))
    {
      var a := attempt.value;
      var gitChanged := Sha256Hex(p.gitStatus) != a.prevProbeGitStatusHash;
      var gitCommitted := p.gitHead != a.prevProbeGitHead;
      var outboxChanged := Meta(p.outbox) != a.prevProbeOutboxMeta;
      var logChanged := match (p.logMtime, a.prevProbeLogMtime)
                        case (Some(now), Some(before)) => now != before
                        case (Some(_), None) => true
                        case _ => false;
      workSignalsChanged := gitChanged || gitCommitted || outboxChanged || logChanged || (a.pid.Some? && p.children);
      a := a.(prevProbeGitStatusHash := Sha256Hex(p.gitStatus), prevProbeGitHead := p.gitHead);
      a := a.(prevProbeOutboxMeta := Meta(p.outbox), prevProbeLogMtime := p.logMtime);
      if p.logMtime.Some? {
        a := a.(providerLogEverSeen := true);
      }
      attempt := Some(a);
    }

    method UpdateGrace(p: Probe)
      requires attempt.Some?
      modifies this`attempt
      ensures attempt == Some(UpdateGracePeriods(old(attempt).value, p))
    {
      var a := attempt.value;
      var dirty, committed := GitDirty(a, p), GitCommitted(a, p);
      var commit, outbox := a.graceUntilCommit, a.graceUntilOutbox;
      if OutboxFilled(p) {
        commit, outbox := None, None;
      } else if committed {
        if outbox.None? {
          outbox := Some(p.now + Seconds(OUTBOX_GRACE_SEC));
        }
        commit := None;
      } else if dirty && commit.None? && outbox.None? {
        commit := Some(p.now + Seconds(COMMIT_GRACE_SEC));
      }
      attempt := Some(a.(graceUntilCommit := commit, graceUntilOutbox := outbox));
    }

    /** One probe up to its classification. */
    method ClassifyProbe(role: Role, p: Probe) returns (s: AttemptState)
      requires attempt.Some? && attempt == Some(NoteExit(attempt.value, p))
      modifies this
      ensures attempt.Some?
      ensures s == ProbeClass(old(View()).SettingOf(role), old(attempt).value, p)
      ensures View() == old(View()).(attempt := Some(Classified(old(View()).SettingOf(role), old(attempt).value, p)),
                                     artifactMap := p.artifacts)
    {
      ghost var st, a0 := View().SettingOf(role), attempt.value;
      assert NoteExit(a0, p) == a0;
      artifactMap := p.artifacts;
      var workSignalsChanged := RecordSignals(p);
      if role == Executor {
        UpdateGrace(p);
      }
      var a := attempt.value;
      var setting := View().SettingOf(role);
      assert a == Refresh(st, a0, p);
      var stale := ProviderStale(a, p);
      var snapshot := ProbeSnapshot(
        p.cancel == AtSnapshot, a.Exited(), ProcessAlive(a, p), OutboxFresh(a, p), DetectProviderError(setting, p),
        CheckSuccessContract(a, p), CheckSoftSuccessContract(setting, a, p), CheckProtocolInvalid(setting, a, p),
        !stale, workSignalsChanged, a.lastWorkSignalTs, stale, a.GraceDeadline(),
        WholeSeconds(p.now - a.dispatchTs) >= HANG_MAX_WITH_WORK_SIGNALS_SEC);
      assert snapshot == TakeSnapshot(st, a0, p);
      s := Fsm.Classify(snapshot, p.now);
      a := a.(state := s, nextProbeAt := p.now + Seconds(PROBE_INTERVAL_SEC));
      if workSignalsChanged {
        a := a.(lastWorkSignalTs := Some(p.now));
      }
      attempt := Some(a);
    }

    method LeaveFor(role: Role, next: RunState)
      modifies this`executorLock, this`reviewerLock, this`runState, lockTable
      ensures View() == old(View()).SetLock(role, false).(runState := next)
      ensures lockTable.held == LocksAfter(old(View()), View(), role, old(lockTable.held))
    {
      ReleaseLock(role);
      runState := next;
    }

    method LeaveForRetry(role: Role)
      modifies this`executorLock, this`reviewerLock, this`consecutiveFailureCount, this`runState, lockTable
      ensures View() == CountFailure(old(View()).SetLock(role, false))
      ensures lockTable.held == LocksAfter(old(View()), View(), role, old(lockTable.held))
    {
      ReleaseLock(role);
      CountOneFailure();
    }

    /** The attempt delivered: hand its output on. */
    method RouteDelivered(role: Role, p: Probe, s: AttemptState)
      requires attempt.Some? && (s.Success? || s.SoftSuccess?)
      modifies this, lockTable
      ensures attempt.Some?
      ensures MonitorStep(View(), Returned) == RouteProbe(old(View()), role, p, s)
      ensures lockTable.held == LocksAfter(old(View()), View(), role, old(lockTable.held))
    {
      hide OutboxFilled, FinalizeExpired, Workflow.SoftSuccessAllowed;
      outboxPresent := OutboxFilled(p);
      if s.Success? || Workflow.SoftSuccessAllowed(args.workflow, artifactMap) {
        LeaveFor(role, CollectOf(role));
      } else {
        runState := RunFailedProtocol;
      }
    }

    /** The attempt must be killed: it hangs, or the operator cancelled. */
    method RouteKilled(role: Role, p: Probe, s: AttemptState)
      requires attempt.Some? && (s.HangConfirmed? || s.Cancelled?)
      modifies this, lockTable
      ensures attempt.Some?
      ensures MonitorStep(View(), Returned) == RouteProbe(old(View()), role, p, s)
      ensures lockTable.held == LocksAfter(old(View()), View(), role, old(lockTable.held))
    {
      hide OutboxFilled, FinalizeExpired, Workflow.SoftSuccessAllowed;
      if s.HangConfirmed? {
        attempt := Some(attempt.value.(state := TerminatingStale));
        StopChild();
        LeaveForRetry(role);
      } else {
        StopChild();
        LeaveFor(role, RunAborted);
      }
    }

    /** Act on the class of a probe. */
    method Route(role: Role, p: Probe, s: AttemptState) returns (status: Status)
      requires attempt.Some?
      modifies this, lockTable
      ensures attempt.Some?
      ensures MonitorStep(View(), status) == RouteProbe(old(View()), role, p, s)
      ensures lockTable.held == LocksAfter(old(View()), View(), role, old(lockTable.held))
    {
      hide OutboxFilled, FinalizeExpired, Workflow.SoftSuccessAllowed;
      if s.Success? || s.SoftSuccess? {
        RouteDelivered(role, p, s);
        return Returned;
      }
      if s.HangConfirmed? || s.Cancelled? {
        RouteKilled(role, p, s);
        return Returned;
      }
      match s
      case FailedServiceCap =>
        LeaveFor(role, RunFailedServiceCap);
        return Returned;
      case FailedProviderAccess =>
        LeaveFor(role, RunFailedProviderAccess);
        return Returned;
      case FailedTransport | FailedSilent | FailedProtocol =>
        LeaveForRetry(role);
        return Returned;
      case Finalizing =>
        if FinalizeExpired(attempt.value, p) {
          StopChild();
          attempt := Some(attempt.value.(pid := None));
        }
        return Looping;
      case _ =>
        return Looping;
    }

    /** A probe whose signals could be collected, for a context c whose child has been reaped. */
    method ExamineProbe(ghost c: Ctx, role: Role, p: Probe) returns (status: Status)
      requires c.attempt.Some? && View() == NoteChild(c, p).(attempt := Some(NoteExit(c.attempt.value, p)))
      modifies this, lockTable
      ensures attempt.Some?
      ensures MonitorStep(View(), status) ==
              RouteProbe(Invariants.ClassifiedCtx(c, role, p), role, p,
                         ProbeClass(c.SettingOf(role), c.attempt.value, p))
      ensures lockTable.held == LocksAfter(c, View(), role, old(lockTable.held))
    {
      hide ProbeClass, Classified, RouteProbe, LocksAfter;
      ghost var table := lockTable.held;
      ReapedSame(c.SettingOf(role), c.attempt.value, p);
      var s := ClassifyProbe(role, p);
      ghost var d := View();
      assert d == Invariants.ClassifiedCtx(c, role, p);
      status := Route(role, p, s);
      SameKeySameLocks(c, d, View(), role, table);
    }

    /** One iteration of the monitor loop. */
    method ProbeOnce(role: Role, p: Probe) returns (status: Status)
      requires attempt.Some?
      modifies this, lockTable
      ensures attempt.Some?
      ensures MonitorStep(View(), status) == MonitorProbe(old(View()), role, p)
      ensures lockTable.held == LocksAfter(old(View()), View(), role, old(lockTable.held))
    {
      hide ProbeClass, Classified, RouteProbe, Invariants.ClassifiedCtx;
      ghost var c := View();
      if p.cancel == AtLoopHead {
        runState := RunAborted;
        StopChild();
        return Returned;
      }
      ReapChild(p);
      if View().SessionId(role).None? {
        return Failed(InvalidInput);
      }
      if p.fault.Some? {
        return Failed(p.fault.value);
      }
      Invariants.ProbeIsRouted(c, role, p);
      status := ExamineProbe(c, role, p);
    }

    /** Probe the active attempt until a probe ends the call. */
    method Monitor(role: Role, ps: seq<Probe>) returns (error: Option<Error>)
      requires attempt.Some?
      modifies this, lockTable
      ensures Outcome(View(), Around(), error) == DoMonitor(old(View()), old(Around()), role, ps)
    {
      hide MonitorProbe, LocksAfter;
      ghost var c, table := View(), lockTable.held;
      var k, status := 0, Looping;
      LocksStart(c, role, table);
      while k < |ps| && status.Looping?
        invariant k <= |ps| && attempt.Some?
        invariant MonitorStep(View(), status) == MonitorRun(c, role, ps, k)
        invariant KeepsSession(c, View(), role)
        invariant lockTable.held == LocksAfter(c, View(), role, table)
      {
        ghost var d := View();
        ProbeSession(d, role, ps[k]);
        status := ProbeOnce(role, ps[k]);
        LocksChain(c, d, View(), role, table);
        k := k + 1;
      }
      MonitorStops(c, role, ps, k, |ps|);
      error := if status.Failed? then Some(status.error) else None;
    }

    // ---- ROUND_RETRY_DECIDE ----

    method DecideRetry()
      modifies this`attempt, this`runState
      ensures View() == DoRoundRetryDecide(old(View()))
      ensures runState == RunFailedConsecutiveFailureLimit <==> consecutiveFailureCount >= 5
      ensures consecutiveFailureCount < 5 && currentRole.Some? ==> runState == Invariants.DispatchOf(currentRole.value)
    {
      if consecutiveFailureCount >= CONSECUTIVE_FAILURE_LIMIT {
        if attempt.Some? {
          attempt := Some(attempt.value.(state := RetryExhausted));
        }
        runState := RunFailedConsecutiveFailureLimit;
        return;
      }
      if attempt.Some? {
        attempt := Some(attempt.value.(state := RetryPending));
      }
      var role := if currentRole.Some? then currentRole.value else Executor;
      runState := if role == Executor then ExecutorDispatch else ReviewerDispatch;
    }

    // ---- EXECUTOR_OUTPUT_COLLECT and ORCH_VERIFY ----

    method CollectExecutorOutput(x: ExecutorCollectInput) returns (error: Option<Error>)
      modifies this`executorOutboxSnapshot, this`artifactMap, this`runState
      ensures Outcome(View(), Around(), error) == DoExecutorOutputCollect(old(View()), old(Around()), x)
    {
      if x.snapshotFault.Some? {
        return Some(x.snapshotFault.value);
      }
      executorOutboxSnapshot := transport.outbox;
      var artifact := Workflow.Artifact(args.workflow);
      if artifact.Some? {
        if x.artifactFault.Some? {
          return Some(x.artifactFault.value);
        }
        artifactMap := artifactMap[artifact.value := x.artifactPresent];
      }
      if x.gitFault.Some? {
        return Some(x.gitFault.value);
      }
      runState := OrchVerify;
      return None;
    }

    method VerifyRound()
      modifies this
      ensures View() == DoOrchVerify(old(View()))
    {
      reviewResult, reviewResultYamlRaw := None, None;
      reviewerYamlRejection, reviewerWorkspaceRejection := None, None;
      runState := ReviewerDispatch;
    }

    // ---- REVIEWER_OUTPUT_COLLECT ----

    /** Parse a report and store its verdict, or record why it was rejected. */
    method ReadVerdict(raw: string)
      modifies this
      ensures View() == TakeVerdict(old(View()), raw)
    {
      hide ParseReviewerYaml, EnforceReviewerNotionPolicy;
      var parsed := ParseReviewerYaml(args.parse, raw);
      if parsed.Err? {
        reviewerYamlRejection := Some(parsed.error);
        CountOneFailure();
        return;
      }
      var policy := EnforceReviewerNotionPolicy(args.notionPolicy, parsed.value);
      if policy.Err? {
        reviewerYamlRejection := Some(policy.error);
        CountOneFailure();
        return;
      }
      reviewerYamlRejection := None;
      reviewResultYamlRaw := Some(raw);
      reviewResult := Some(parsed.value);
    }

    /** Compare the workspace with the baseline: clean goes to the gate, dirty asks for a cleanup. */
    method CheckForLeftovers(x: ReviewerCollectInput) returns (error: Option<Error>)
      modifies this
      ensures Outcome(View(), Around(), error) == CheckWorkspace(old(View()), old(Around()), x)
    {
      hide DirtyLines;
      if x.statusFault.Some? {
        return Some(x.statusFault.value);
      }
      var initial := if preReviewerGitStatus.Some? then preReviewerGitStatus.value else [];
      var lines := DirtyLines(initial, x.gitStatusAll);
      if lines != [] {
        reviewerWorkspaceRejection := Some(lines);
        CountOneFailure();
        return None;
      }
      reviewerWorkspaceRejection := None;
      runState := QualityGate;
      return None;
    }

    method CollectReviewerOutput(x: ReviewerCollectInput) returns (error: Option<Error>)
      modifies this
      ensures Outcome(View(), Around(), error) == DoReviewerOutputCollect(old(View()), old(Around()), x)
    {
      hide TakeVerdict, CheckWorkspace;
      if x.mtimeFault.Some? {
        return Some(x.mtimeFault.value);
      }
      var outbox := transport.outbox;
      var before := if attempt.Some? then attempt.value.preReviewerOutboxMtime else None;
      if before == Mtime(outbox) && before.Some? {
        CountOneFailure();
        return None;
      }
      if reviewResult.None? && (outbox.None? || outbox.value.body.Binary?) {
        CountOneFailure();
        return None;
      }
      if x.snapshotFault.Some? {
        return Some(x.snapshotFault.value);
      }
      reviewerOutboxSnapshot := outbox;
      if reviewResult.None? {
        ReadVerdict(outbox.value.body.text);
        if reviewResult.None? {
          return None;
        }
      }
      error := CheckForLeftovers(x);
    }

    // ---- QUALITY_GATE ----

    method PassGate()
      modifies this`consecutiveFailureCount, this`runState
      ensures View() == DoQualityGate(old(View()))
      ensures runState == RunDone <==> reviewResult.Some? && reviewResult.value.decision == Accept
      ensures !runState.IsTerminal() <==> reviewResult.Some? && reviewResult.value.decision == Revise
      ensures reviewResult.Some? ==> consecutiveFailureCount == 0
    {
      if reviewResult.None? {
        runState := RunFailedProtocol;
        return;
      }
      consecutiveFailureCount := 0;
      match reviewResult.value.decision
      case Accept => runState := RunDone;
      case Revise => runState := RoundFeedbackPrep;
      case Blocked => runState := RunFailedExternalBlocker;
      case IrreconcilableDisagreement => runState := RunFailedIrreconcilableDisagreement;
      case PoisonedSession => runState := RunFailedPoisonedSession;
    }

    // ---- the run loop ----

    /** The phase of the current run state. */
    method DoStep(i: Input) returns (error: Option<Error>)
      requires Wf(View()) && Around() == i.world
      modifies this, transport, lockTable
      ensures Outcome(View(), Around(), error) == Step(me, old(View()), i)
    {
      hide DoContextPrep, DoSessionBind, DoDispatch, DoMonitor, DoRoundRetryDecide, DoExecutorOutputCollect;
      hide DoOrchVerify, DoReviewerOutputCollect, DoQualityGate;
      error := None;
      match runState
      case ContextPrep => error := PrepareContext(i.prep);
      case SessionBind => error := BindSessions(i.bindExecutor, i.bindReviewer);
      case ExecutorDispatch => error := Dispatch(Executor, i.dispatch);
      case ExecutorMonitor => error := Monitor(Executor, i.probes);
      case RoundRetryDecide => DecideRetry();
      case ExecutorOutputCollect => error := CollectExecutorOutput(i.executorCollect);
      case OrchVerify => VerifyRound();
      case ReviewerDispatch => error := Dispatch(Reviewer, i.dispatch);
      case ReviewerMonitor => error := Monitor(Reviewer, i.probes);
      case ReviewerOutputCollect => error := CollectReviewerOutput(i.reviewerCollect);
      case QualityGate => PassGate();
      case RoundFeedbackPrep => runState := ExecutorDispatch;
      case _ =>
    }

    /** One iteration of the run loop, in the world the input shows. */
    method Iterate(i: Input)
      requires Wf(View())
      modifies this, transport, lockTable
      ensures Sys(View(), Around()) == Next(me, old(View()), i)
    {
      hide Step;
      transport.Absorb(i.world.files);
      lockTable.Absorb(i.world.locks);
      if i.cancelled && !runState.IsTerminal() {
        runState := RunAborted;
      }
      if runState.IsTerminal() {
        return;
      }
      var error := DoStep(i);
      if error.Some? && !runState.IsTerminal() {
        runState := ErrorToRunState(error.value);
      }
    }

    /**
     * Iterate over the inputs until a terminal state. What the object goes through is a run in the
     * sense of Runs, so every theorem about runs is a theorem about this loop.
     */
    method Run(inputs: seq<Input>) returns (used: nat, ghost t: Runs.Trace)
      requires View() == InitialCtx(args)
      modifies this, transport, lockTable
      ensures used <= |inputs| && t.inputs == inputs[..used] && Runs.IsRun(me, args, t)
      ensures View() == Runs.CtxAt(t, used)
      ensures used < |inputs| ==> runState.IsTerminal()
      ensures forall n :: 0 <= n < used ==> !Runs.StateAt(t, n).IsTerminal()
      ensures runState == RunDone ==> reviewResult.Some? && Acceptable(args.notionPolicy, reviewResult.value)
      ensures runState != RunFailedProtocol && runState != RunFailedProviderAccess
    {
      hide Next, Acceptable, Invariants.Inv;
      used, t := 0, Runs.Trace([Sys(View(), Around())], []);
      while used < |inputs| && !runState.IsTerminal()
        invariant used <= |inputs| && t.inputs == inputs[..used] && Runs.IsRun(me, args, t)
        invariant View() == Runs.CtxAt(t, used)
        invariant forall n :: 0 <= n < used ==> !Runs.StateAt(t, n).IsTerminal()
      {
        Runs.RunInv(me, args, t, used);
        Invariants.InvIsWf(View());
        ghost var u := t;
        assert !Runs.StateAt(u, used).IsTerminal();
        Iterate(inputs[used]);
        t := Runs.Trace(u.states + [Sys(View(), Around())], inputs[..used + 1]);
        assert Runs.Iterates(me, t, used);
        assert forall n :: 0 <= n < used ==> Runs.Iterates(me, u, n) ==> Runs.Iterates(me, t, n);
        assert forall n :: 0 <= n <= used ==> Runs.StateAt(t, n) == Runs.StateAt(u, n);
        used := used + 1;
      }
      Runs.UnreachableTerminals(me, args, t, used);
      if runState == RunDone {
        ghost var k, j := Runs.AcceptSoundness(me, args, t, used);
      }
    }
  }

  /** The same session, and its lock at most dropped. */
  ghost predicate KeepsSession(c: Ctx, d: Ctx, role: Role)
  {
    && d.args == c.args && d.executorSessionId == c.executorSessionId && d.reviewerSessionId == c.reviewerSessionId
    && (d.Holds(role) ==> c.Holds(role))
  }

  lemma RouteSession(c: Ctx, role: Role, p: Probe, s: AttemptState)
    requires c.attempt.Some?
    ensures KeepsSession(c, RouteProbe(c, role, p, s).ctx, role)
  {
    hide OutboxFilled, FinalizeExpired, Workflow.SoftSuccessAllowed;
  }

  lemma ProbeSession(c: Ctx, role: Role, p: Probe)
    requires c.attempt.Some?
    ensures KeepsSession(c, MonitorProbe(c, role, p).ctx, role)
  {
    hide ProbeClass, Classified, RouteProbe;
    if p.cancel != AtLoopHead && c.SessionId(role).Some? && p.fault.None? {
      Invariants.ProbeIsRouted(c, role, p);
      RouteSession(Invariants.ClassifiedCtx(c, role, p), role, p, ProbeClass(c.SettingOf(role), c.attempt.value, p));
    }
  }

  /** Reaping the child first changes nothing for the classification of the same probe. */
  lemma ReapedSame(st: Setting, a: Attempt, p: Probe)
    ensures NoteExit(NoteExit(a, p), p) == NoteExit(a, p)
    ensures ProbeClass(st, NoteExit(a, p), p) == ProbeClass(st, a, p)
    ensures Classified(st, NoteExit(a, p), p) == Classified(st, a, p)
  {
    hide Fsm.Classify, CheckProtocolInvalid, CheckSoftSuccessContract, UpdateGracePeriods, ProviderStale;
    hide WorkSignalsChanged;
  }

  lemma LocksStart(c: Ctx, role: Role, table: Table)
    ensures LocksAfter(c, c, role, table) == table
  {
  }

  lemma LocksChain(c: Ctx, d: Ctx, e: Ctx, role: Role, table: Table)
    requires KeepsSession(c, d, role) && KeepsSession(d, e, role)
    ensures KeepsSession(c, e, role)
    ensures LocksAfter(d, e, role, LocksAfter(c, d, role, table)) == LocksAfter(c, e, role, table)
  {
  }

  lemma SameKeySameLocks(c: Ctx, d: Ctx, e: Ctx, role: Role, table: Table)
    requires KeepsSession(c, d, role) && d.Holds(role) == c.Holds(role)
    ensures LocksAfter(c, e, role, table) == LocksAfter(d, e, role, table)
  {
  }

  /** A monitor call that has stopped stays stopped. */
  lemma {:induction false} MonitorStops(c: Ctx, role: Role, ps: seq<Probe>, k: nat, n: nat)
    requires c.attempt.Some? && k <= n <= |ps|
    requires MonitorRun(c, role, ps, k).status.Looping? ==> k == n
    ensures MonitorRun(c, role, ps, n) == MonitorRun(c, role, ps, k)
  {
    if k == n {
    } else {
      MonitorStops(c, role, ps, k, n - 1);
    }
  }
}
