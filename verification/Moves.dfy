/** The transition relation of the run loop: every way one iteration can change the context. */
module Moves {
  import opened Base
  import opened State
  import opened YamlCheck
  import opened Transport
  import opened Phases
  import opened Invariants

  /** A monitor call that did not end the run. */
  ghost predicate MonitorMove(c: Ctx, role: Role, d: Ctx)
  {
    && c.attempt.Some? && d.attempt.Some?
    && SameReview(c, d) && SameDispatch(c, d) && OnlyDrops(c, d)
    && (d.runState != c.runState ==> !d.executorLock && !d.reviewerLock)
    && d.activeProcess.Some? && (d.runState != c.runState ==> !d.activeProcess.value.alive)
    && (d.outboxPresent == c.outboxPresent || d.runState == CollectOf(role))
    && (|| (d.runState == c.runState && d.consecutiveFailureCount == c.consecutiveFailureCount)
        || (d.runState == CollectOf(role) && d.consecutiveFailureCount == c.consecutiveFailureCount)
        || (d.runState == RoundRetryDecide && d.consecutiveFailureCount == c.consecutiveFailureCount + 1))
  }

  /** A dispatch that started a child. */
  ghost predicate DispatchMove(me: nat, c: Ctx, role: Role, i: Input, d: Ctx)
  {
    var o := DoDispatch(me, c, i.world, role, i.dispatch);
    Dispatched(me, c, i.world, role, i.dispatch, o) && d == o.ctx
  }

  /** The outbox of a collection that may be read: written since the reviewer was dispatched. */
  predicate ReadableReport(c: Ctx, outbox: Option<File>)
  {
    outbox.Some? && outbox.value.body.Text? && !OutboxUntouched(c, outbox)
  }

  /**
   * A reviewer collection that did not end the run. Without a stored verdict a readable report is
   * parsed; with one, only the outbox time and the workspace matter.
   */
  ghost predicate CollectMove(c: Ctx, i: Input, d: Ctx)
  {
    var outbox := i.world.files.outbox;
    var reason := DirtyReason(c, i.reviewerCollect.gitStatusAll);
    && d.args == c.args && d.currentRole == c.currentRole && d.attempt == c.attempt
    && d.executorSessionId == c.executorSessionId && d.reviewerSessionId == c.reviewerSessionId
    && d.preReviewerGitStatus == c.preReviewerGitStatus
    && d.activeProcess == c.activeProcess
    && d.executorLock == c.executorLock && d.reviewerLock == c.reviewerLock
    && d.outboxPresent == c.outboxPresent && d.artifactMap == c.artifactMap
    && (d.runState.QualityGate? || d.runState.RoundRetryDecide?)
    && d.consecutiveFailureCount == c.consecutiveFailureCount + (if d.runState.QualityGate? then 0 else 1)
    && (|| (&& (OutboxUntouched(c, outbox) || (c.reviewResult.None? && !ReadableReport(c, outbox)))
            && d.runState.RoundRetryDecide?
            && d == CountFailure(c))
        || (&& c.reviewResult.None? && ReadableReport(c, outbox)
            && d.runState.RoundRetryDecide?
            && d.reviewResult.None? && d.reviewResultYamlRaw.None? && d.reviewerYamlRejection.Some?
            && d.reviewerWorkspaceRejection.None?
            && !(exists y :: IsVerdict(c.args.parse, c.args.notionPolicy, outbox.value.body.text, y)))
        || (&& !OutboxUntouched(c, outbox)
            && HasVerdict(d) && d.reviewerYamlRejection.None?
            && (c.reviewResult.Some? ==>
                  d.reviewResult == c.reviewResult && d.reviewResultYamlRaw == c.reviewResultYamlRaw)
            && (c.reviewResult.None? ==>
                  ReadableReport(c, outbox) && d.reviewResultYamlRaw == Some(outbox.value.body.text))
            && d.reviewerWorkspaceRejection == reason
            && (d.runState.QualityGate? <==> reason.None?)))
  }

  /** The artifact map with the presence of the workflow's artifact. */
  function Noted(c: Ctx, present: bool): map<string, bool>
  {
    match c.args.workflow
    case Plan => c.artifactMap["PLAN.md" := present]
    case Investigate => c.artifactMap["INVESTIGATION.md" := present]
    case Implement => c.artifactMap
  }

  /** One iteration from c to d that neither ends the run nor starts from a finished one. */
  ghost predicate LiveMove(me: nat, c: Ctx, i: Input, d: Ctx)
  {
    match c.runState
    case ContextPrep => d == c.(runState := SessionBind)
    case SessionBind =>
      && i.bindExecutor.Found? && i.bindReviewer.Found?
      && d == c.(runState := ExecutorDispatch, executorSessionId := Some(i.bindExecutor.session),
                 reviewerSessionId := Some(i.bindReviewer.session))
    case ExecutorDispatch => DispatchMove(me, c, Executor, i, d)
    case ReviewerDispatch => DispatchMove(me, c, Reviewer, i, d)
    case ExecutorMonitor => MonitorMove(c, Executor, d)
    case ReviewerMonitor => MonitorMove(c, Reviewer, d)
    case RoundRetryDecide =>
      && c.consecutiveFailureCount < 5 && c.currentRole.Some?
      && d == c.(attempt := d.attempt, runState := DispatchOf(c.currentRole.value))
      && (c.attempt.Some? <==> d.attempt.Some?)
      && (c.attempt.Some? ==> d.attempt.value == c.attempt.value.(state := RetryPending))
    case ExecutorOutputCollect =>
      d == c.(runState := OrchVerify, executorOutboxSnapshot := i.world.files.outbox,
              artifactMap := Noted(c, i.executorCollect.artifactPresent))
    case OrchVerify =>
      d == c.(runState := ReviewerDispatch, reviewResult := None, reviewResultYamlRaw := None,
              reviewerYamlRejection := None, reviewerWorkspaceRejection := None)
    case ReviewerOutputCollect => CollectMove(c, i, d)
    case QualityGate =>
      && c.reviewResult.Some? && c.reviewResult.value.decision == Revise
      && d == c.(runState := RoundFeedbackPrep, consecutiveFailureCount := 0)
    case RoundFeedbackPrep => d == c.(runState := ExecutorDispatch)
    case _ => false
  }

  /** Where the gate sends a run with this decision. */
  function EndOf(d: Decision): RunState
  {
    match d
    case Accept => RunDone
    case Revise => RoundFeedbackPrep
    case Blocked => RunFailedExternalBlocker
    case IrreconcilableDisagreement => RunFailedIrreconcilableDisagreement
    case PoisonedSession => RunFailedPoisonedSession
  }

  /** The terminal states that carry a decision of the reviewer. */
  predicate Judged(s: RunState)
  {
    || s.RunDone? || s.RunFailedExternalBlocker? || s.RunFailedIrreconcilableDisagreement?
    || s.RunFailedPoisonedSession?
  }

  /** The current attempt, if any, is still the one that was dispatched. */
  predicate SameRequest(c: Ctx, d: Ctx)
  {
    && (c.attempt.Some? <==> d.attempt.Some?)
    && (c.attempt.Some? ==> SameDispatch(c, d))
  }

  /** One iteration from c to d that ends the run. */
  ghost predicate LastMove(c: Ctx, d: Ctx)
  {
    && d.runState.IsTerminal() && ReachableState(d.runState)
    && d.args == c.args && d.currentRole == c.currentRole
    && d.executorSessionId == c.executorSessionId && d.reviewerSessionId == c.reviewerSessionId
    && (d.executorLock ==> c.executorLock || c.runState.ExecutorDispatch?)
    && (d.reviewerLock ==> c.reviewerLock || c.runState.ReviewerDispatch?)
    && SameRequest(c, d)
    && (!c.runState.IsMonitor() ==> d.activeProcess == c.activeProcess && d.outboxPresent == c.outboxPresent)
    && (!c.runState.ReviewerDispatch? ==> d.preReviewerGitStatus == c.preReviewerGitStatus)
    && (!c.runState.ReviewerOutputCollect? ==>
          && d.reviewResult == c.reviewResult && d.reviewResultYamlRaw == c.reviewResultYamlRaw
          && d.reviewerYamlRejection == c.reviewerYamlRejection
          && d.reviewerWorkspaceRejection == c.reviewerWorkspaceRejection)
    && (d.runState.RunDone? ==>
          c.runState.QualityGate? && c.reviewResult.Some? && c.reviewResult.value.decision == Accept)
    && (c.runState.QualityGate? && !d.runState.RunAborted? ==>
          c.reviewResult.Some? && c.reviewResult.value.decision != Revise
          && d.runState == EndOf(c.reviewResult.value.decision))
    && (Judged(d.runState) ==> c.runState.QualityGate?)
    && (d.runState.RunFailedConsecutiveFailureLimit? <==>
          c.runState.RoundRetryDecide? && c.consecutiveFailureCount >= 5 && !d.runState.RunAborted?)
    && d.consecutiveFailureCount <= 5
  }

  /** Everything one iteration of the run loop can do. */
  ghost predicate Move(me: nat, c: Ctx, i: Input, d: Ctx)
  {
    if c.runState.IsTerminal() then d == c
    else if d.runState.IsTerminal() then LastMove(c, d)
    else LiveMove(me, c, i, d)
  }

  lemma DispatchMoves(me: nat, c: Ctx, role: Role, i: Input)
    requires Inv(c) && c.runState == DispatchOf(role)
    ensures var o := DoDispatch(me, c, i.world, role, i.dispatch);
            if o.error.Some? then LastMove(c, Settle(o)) else DispatchMove(me, c, role, i, o.ctx)
  {
    hide DoDispatch, VerdictInv, SessionsInv, ChildInv, FilesGot, TemplateFor, VerifyRequestFingerprint;
    DispatchExact(me, c, i.world, role, i.dispatch);
  }

  lemma MonitorMoves(c: Ctx, role: Role, i: Input)
    requires Monitoring(c, role)
    ensures var d := Settle(DoMonitor(c, i.world, role, i.probes));
            if d.runState.IsTerminal() then LastMove(c, d) else MonitorMove(c, role, d)
  {
    hide MonitorRun, VerdictInv, SessionsInv, IsVerdict;
    MonitorRunKeeps(c, role, i.probes, |i.probes|);
  }

  lemma RejectedVerdict(parse: Parser, policy: NotionPolicy, raw: string)
    ensures (exists y :: IsVerdict(parse, policy, raw, y)) <==>
              ParseReviewerYaml(parse, raw).Ok?
              && EnforceReviewerNotionPolicy(policy, ParseReviewerYaml(parse, raw).value).Ok?
  {
    hide ParseReviewerYaml, EnforceReviewerNotionPolicy;
    if ParseReviewerYaml(parse, raw).Ok?
       && EnforceReviewerNotionPolicy(policy, ParseReviewerYaml(parse, raw).value).Ok? {
      assert IsVerdict(parse, policy, raw, ParseReviewerYaml(parse, raw).value);
    }
  }

  /** A readable report either passes every rule and is stored, or is rejected and counted. */
  lemma VerdictMoves(c: Ctx, raw: string)
    requires Inv(c) && c.runState.ReviewerOutputCollect? && c.reviewResult.None?
    ensures var d := TakeVerdict(c, raw);
            if d.reviewResult.None? then
              d == CountFailure(c.(reviewerYamlRejection := d.reviewerYamlRejection))
              && d.reviewerYamlRejection.Some?
              && !(exists y :: IsVerdict(c.args.parse, c.args.notionPolicy, raw, y))
            else
              && d == c.(reviewerYamlRejection := None, reviewResultYamlRaw := Some(raw),
                         reviewResult := d.reviewResult)
              && HasVerdict(d)
  {
    hide ParseReviewerYaml, EnforceReviewerNotionPolicy, IsVerdict;
    RejectedVerdict(c.args.parse, c.args.notionPolicy, raw);
    TakeVerdictExact(c, raw);
  }

  lemma WorkspaceMoves(c: Ctx, d: Ctx, i: Input)
    requires Inv(c) && c.runState.ReviewerOutputCollect? && HasVerdict(d)
    requires !OutboxUntouched(c, i.world.files.outbox)
    requires c.reviewResult.None? ==>
               ReadableReport(c, i.world.files.outbox)
               && d.reviewResultYamlRaw == Some(i.world.files.outbox.value.body.text)
    requires c.reviewResult.Some? ==>
               d.reviewResult == c.reviewResult && d.reviewResultYamlRaw == c.reviewResultYamlRaw
    requires d == c.(reviewerYamlRejection := None, reviewResultYamlRaw := d.reviewResultYamlRaw,
                     reviewResult := d.reviewResult, reviewerOutboxSnapshot := d.reviewerOutboxSnapshot)
    ensures var e := Settle(CheckWorkspace(d, i.world, i.reviewerCollect));
            if e.runState.IsTerminal() then LastMove(c, e) else CollectMove(c, i, e)
  {
    hide IsVerdict, DirtyReason, OutboxUntouched;
    assert DirtyReason(d, i.reviewerCollect.gitStatusAll) == DirtyReason(c, i.reviewerCollect.gitStatusAll) by {
      DirtyReasonReads(c, d, i.reviewerCollect.gitStatusAll);
    }
  }

  lemma DirtyReasonReads(c: Ctx, d: Ctx, current: seq<string>)
    requires c.preReviewerGitStatus == d.preReviewerGitStatus
    ensures DirtyReason(c, current) == DirtyReason(d, current)
  {
  }

  /** A collection that fails or stops before it looks at a verdict. */
  lemma EarlyMoves(c: Ctx, i: Input)
    requires Inv(c) && c.runState.ReviewerOutputCollect?
    ensures forall e: Fault :: LastMove(c, Settle(Outcome(c, i.world, Some(e))))
    ensures var outbox := i.world.files.outbox;
            OutboxUntouched(c, outbox) || (c.reviewResult.None? && !ReadableReport(c, outbox)) ==>
              CollectMove(c, i, CountFailure(c))
  {
    hide LocksInv, SessionsInv, ChildInv, VerdictInv, OutboxUntouched, DirtyReason, HasVerdict;
  }

  /** A collection that read a report and rejected it. */
  lemma RejectingMoves(c: Ctx, i: Input, e: Option<Error>)
    requires Inv(c) && c.runState.ReviewerOutputCollect? && c.reviewResult.None? && e.Some?
    requires ReadableReport(c, i.world.files.outbox)
    requires !(exists y :: IsVerdict(c.args.parse, c.args.notionPolicy, i.world.files.outbox.value.body.text, y))
    ensures var c1 := c.(reviewerOutboxSnapshot := i.world.files.outbox);
            CollectMove(c, i, CountFailure(c1.(reviewerYamlRejection := e)))
  {
    hide IsVerdict, DirtyReason, ReadableReport, OutboxUntouched, LocksInv, SessionsInv, FailuresInv;
  }

  lemma StoppedOutcome(c: Ctx, w: World, x: ReviewerCollectInput)
    requires || x.mtimeFault.Some? || x.snapshotFault.Some? || OutboxUntouched(c, w.files.outbox)
             || (c.reviewResult.None? && !ReadableReport(c, w.files.outbox))
    ensures DoReviewerOutputCollect(c, w, x) ==
            (if x.mtimeFault.Some? then Outcome(c, w, Some(x.mtimeFault.value))
             else if OutboxUntouched(c, w.files.outbox)
                     || (c.reviewResult.None? && !ReadableReport(c, w.files.outbox)) then
               Outcome(CountFailure(c), w, None)
             else Outcome(c, w, Some(x.snapshotFault.value)))
  {
    hide TakeVerdict, CheckWorkspace, OutboxUntouched, CountFailure;
  }

  lemma StoppedCollectMoves(c: Ctx, i: Input)
    requires Inv(c) && c.runState.ReviewerOutputCollect?
    requires var x, outbox := i.reviewerCollect, i.world.files.outbox;
             || x.mtimeFault.Some? || x.snapshotFault.Some? || OutboxUntouched(c, outbox)
             || (c.reviewResult.None? && !ReadableReport(c, outbox))
    ensures var d := Settle(DoReviewerOutputCollect(c, i.world, i.reviewerCollect));
            if d.runState.IsTerminal() then LastMove(c, d) else CollectMove(c, i, d)
  {
    EarlyMoves(c, i);
    StoppedOutcome(c, i.world, i.reviewerCollect);
    SettleOk(CountFailure(c), i.world);
    hide DoReviewerOutputCollect, Inv, OutboxUntouched, ReadableReport, LastMove, CollectMove, Settle, CountFailure;
    FailureIsLive(c);
  }

  lemma FailureIsLive(c: Ctx)
    ensures !CountFailure(c).runState.IsTerminal()
  {
  }

  lemma CollectMoves(c: Ctx, i: Input)
    requires Inv(c) && c.runState.ReviewerOutputCollect?
    ensures var d := Settle(DoReviewerOutputCollect(c, i.world, i.reviewerCollect));
            if d.runState.IsTerminal() then LastMove(c, d) else CollectMove(c, i, d)
  {
    hide TakeVerdict, CheckWorkspace, Inv, OutboxUntouched, HasVerdict, LastMove, CollectMove, Settle;
    var x, outbox := i.reviewerCollect, i.world.files.outbox;
    var c1 := c.(reviewerOutboxSnapshot := outbox);
    CollectFailureKeeps(c);
    if || x.mtimeFault.Some? || x.snapshotFault.Some? || OutboxUntouched(c, outbox)
       || (c.reviewResult.None? && !ReadableReport(c, outbox)) {
      StoppedCollectMoves(c, i);
    } else if c.reviewResult.Some? {
      StoredIfAny(c);
      WorkspaceMoves(c, c1, i);
    } else {
      ReadingMoves(c, i);
    }
  }

  /** A collection that reads a report. */
  lemma ReadingMoves(c: Ctx, i: Input)
    requires Inv(c) && c.runState.ReviewerOutputCollect? && c.reviewResult.None?
    requires ReadableReport(c, i.world.files.outbox)
    requires i.reviewerCollect.mtimeFault.None? && i.reviewerCollect.snapshotFault.None?
    ensures var d := Settle(DoReviewerOutputCollect(c, i.world, i.reviewerCollect));
            if d.runState.IsTerminal() then LastMove(c, d) else CollectMove(c, i, d)
  {
    CollectFailureKeeps(c);
    hide TakeVerdict, CheckWorkspace, Inv, OutboxUntouched, HasVerdict, LastMove, CollectMove, Settle;
    var raw := i.world.files.outbox.value.body.text;
    var c1 := c.(reviewerOutboxSnapshot := i.world.files.outbox);
    VerdictMoves(c1, raw);
    var d := TakeVerdict(c1, raw);
    if d.reviewResult.Some? {
      WorkspaceMoves(c, d, i);
    } else {
      RejectingMoves(c, i, d.reviewerYamlRejection);
      SettleOk(d, i.world);
    }
  }

  lemma StoredIfAny(c: Ctx)
    requires Inv(c) && c.runState.ReviewerOutputCollect?
    ensures c.reviewResult.Some? ==> c.reviewerYamlRejection.None?
    ensures c.reviewResult.Some? ==> forall f: Option<File> :: HasVerdict(c.(reviewerOutboxSnapshot := f))
  {
    if c.reviewResult.Some? {
      StoredVerdict(c);
    }
  }

  lemma PrepMoves(me: nat, c: Ctx, i: Input)
    requires Inv(c) && c.runState.ContextPrep?
    ensures var d := Settle(Step(me, c, i));
            if d.runState.IsTerminal() then LastMove(c, d) else LiveMove(me, c, i, d)
  {
    hide VerdictInv, ChildInv, LocksInv, SessionsInv;
  }

  lemma BindMoves(me: nat, c: Ctx, i: Input)
    requires Inv(c) && c.runState.SessionBind?
    ensures var d := Settle(Step(me, c, i));
            if d.runState.IsTerminal() then LastMove(c, d) else LiveMove(me, c, i, d)
  {
    hide VerdictInv, ChildInv, LocksInv, SessionsInv;
  }

  lemma ExecutorCollectEnds(c: Ctx, snapshot: Option<File>, artifacts: map<string, bool>, e: Fault)
    requires Inv(c) && c.runState.ExecutorOutputCollect?
    ensures LastMove(c, c.(executorOutboxSnapshot := snapshot, artifactMap := artifacts,
                           runState := ErrorToRunState(e)))
  {
    hide VerdictInv, ChildInv, LocksInv, SessionsInv;
  }

  lemma ArtifactIs(c: Ctx, present: bool)
    ensures NoteArtifact(c, present) == Noted(c, present)
  {
  }

  lemma ExecutorCollectGoes(me: nat, c: Ctx, i: Input)
    requires c.runState.ExecutorOutputCollect?
    ensures LiveMove(me, c, i, c.(runState := OrchVerify, executorOutboxSnapshot := i.world.files.outbox,
                                  artifactMap := Noted(c, i.executorCollect.artifactPresent)))
  {
    hide Noted;
  }

  lemma ExecutorCollectMoves(me: nat, c: Ctx, i: Input)
    requires Inv(c) && c.runState.ExecutorOutputCollect?
    ensures var d := Settle(Step(me, c, i));
            if d.runState.IsTerminal() then LastMove(c, d) else LiveMove(me, c, i, d)
  {
    hide Inv, LastMove, LiveMove, NoteArtifact, Noted;
    ArtifactIs(c, i.executorCollect.artifactPresent);
    ExecutorCollectGoes(me, c, i);
    var outbox, x := i.world.files.outbox, i.executorCollect;
    if x.snapshotFault.Some? {
      ExecutorCollectEnds(c, c.executorOutboxSnapshot, c.artifactMap, x.snapshotFault.value);
    } else if x.artifactFault.Some? {
      ExecutorCollectEnds(c, outbox, c.artifactMap, x.artifactFault.value);
    }
    if x.gitFault.Some? {
      ExecutorCollectEnds(c, outbox, Noted(c, x.artifactPresent), x.gitFault.value);
    }
  }

  lemma RetryEnds(c: Ctx)
    requires Inv(c) && c.runState.RoundRetryDecide? && c.consecutiveFailureCount >= 5
    ensures LastMove(c, DoRoundRetryDecide(c))
  {
    hide VerdictInv, LocksInv, SessionsInv;
  }

  lemma RetryGoes(me: nat, c: Ctx, i: Input)
    requires Inv(c) && c.runState.RoundRetryDecide? && c.consecutiveFailureCount < 5
    ensures LiveMove(me, c, i, DoRoundRetryDecide(c)) && !DoRoundRetryDecide(c).runState.IsTerminal()
  {
    hide VerdictInv, LocksInv, SessionsInv, FailuresInv;
    var role := c.currentRole.value;
    assert role == Executor || role == Reviewer;
  }

  lemma RetryMoves(me: nat, c: Ctx, i: Input)
    requires Inv(c) && c.runState.RoundRetryDecide?
    ensures var d := Settle(Step(me, c, i));
            if d.runState.IsTerminal() then LastMove(c, d) else LiveMove(me, c, i, d)
  {
    hide Inv, Settle, LastMove, LiveMove, SetAttemptState;
    SettleOk(DoRoundRetryDecide(c), i.world);
    if c.consecutiveFailureCount >= 5 {
      RetryEnds(c);
    } else {
      RetryGoes(me, c, i);
    }
  }

  lemma ShortMoves(me: nat, c: Ctx, i: Input)
    requires Inv(c)
    requires c.runState.OrchVerify? || c.runState.QualityGate? || c.runState.RoundFeedbackPrep?
    ensures var d := Settle(Step(me, c, i));
            if d.runState.IsTerminal() then LastMove(c, d) else LiveMove(me, c, i, d)
  {
    hide ChildInv, LocksInv, SessionsInv, IsVerdict;
  }

  lemma StepMoves(me: nat, c: Ctx, i: Input)
    requires Inv(c) && !c.runState.IsTerminal()
    ensures var d := Settle(Step(me, c, i));
            if d.runState.IsTerminal() then LastMove(c, d) else LiveMove(me, c, i, d)
  {
    hide DoDispatch, DoMonitor, DoReviewerOutputCollect, Settle;
    hide LastMove, CollectMove, MonitorMove, Dispatched;
    hide LocksInv, VerdictInv, SessionsInv, ChildInv, FailuresInv;
    match c.runState
    case ExecutorDispatch => DispatchMoves(me, c, Executor, i); DispatchSettles(me, c, Executor, i);
    case ReviewerDispatch => DispatchMoves(me, c, Reviewer, i); DispatchSettles(me, c, Reviewer, i);
    case ExecutorMonitor => MonitorMoves(c, Executor, i);
    case ReviewerMonitor => MonitorMoves(c, Reviewer, i);
    case ReviewerOutputCollect => CollectMoves(c, i);
    case ContextPrep => PrepMoves(me, c, i);
    case SessionBind => BindMoves(me, c, i);
    case ExecutorOutputCollect => ExecutorCollectMoves(me, c, i);
    case RoundRetryDecide => RetryMoves(me, c, i);
    case _ => ShortMoves(me, c, i);
  }

  /** A dispatch error always ends the run, and a started child never does. */
  lemma DispatchSettles(me: nat, c: Ctx, role: Role, i: Input)
    requires c.runState == DispatchOf(role)
    ensures var o := DoDispatch(me, c, i.world, role, i.dispatch);
            && (o.error.Some? <==> Settle(o).runState.IsTerminal())
            && (o.error.None? ==> Settle(o) == o.ctx)
  {
    hide DoDispatch, TemplateFor, VerifyRequestFingerprint;
    DispatchExact(me, c, i.world, role, i.dispatch);
  }

  lemma AbortMoves(c: Ctx)
    requires Inv(c) && !c.runState.IsTerminal()
    ensures LastMove(c, c.(runState := RunAborted))
  {
    hide IsVerdict;
  }

  /** Every iteration of the run loop is one of the listed moves. */
  lemma NextMoves(me: nat, c: Ctx, i: Input)
    requires Inv(c)
    ensures Move(me, c, i, Next(me, c, i).ctx)
  {
    hide Step, Settle, LastMove, LiveMove, LocksInv, VerdictInv, SessionsInv, ChildInv, FailuresInv;
    if !c.runState.IsTerminal() {
      AbortMoves(c);
      if !i.cancelled {
        StepMoves(me, c, i);
      }
    }
  }
}
