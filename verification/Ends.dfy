/** When a run ends, exactly: the reasons phase by phase, and the state each of them ends it with. */
module Ends {
  import opened Base
  import opened State
  import opened YamlCheck
  import opened Transport
  import opened Probing
  import opened Phases
  import opened Invariants
  import opened Moves
  import opened Runs
  import opened Outcomes

  // ---- when a run ends ----

  /** The terminal state of each error. */
  predicate EndsIn(e: Error, s: RunState)
  {
    || (e == InvalidInput && s == RunFailedInvalidInput)
    || (e == DirtyWorktree && s == RunFailedDirtyWorktree)
    || (e == SessionBindFailed && s == RunFailedSessionBind)
    || (e == SessionLocked && s == RunFailedSessionLocked)
    || (e.ArtifactContract? && s == RunFailedProtocol)
    || (e in {TransportResetFailed, Io, Json, Yaml, CommandFailed, RequestChangedAbortRetry} && s == RunFailedInternal)
  }

  /** Every error has exactly one terminal state, and it is the one the run ends in. */
  lemma ErrorOutcome(e: Error, s: RunState)
    ensures EndsIn(e, s) <==> s == ErrorToRunState(e)
  {
  }

  /** Two discovered sessions are one and the same. */
  predicate OneSession(c: Ctx, i: Input)
  {
    && i.bindExecutor.Found? && i.bindReviewer.Found?
    && c.args.executorProvider == c.args.reviewerProvider && i.bindExecutor.session == i.bindReviewer.session
  }

  /** What ends a run in this iteration, phase by phase. */
  ghost predicate Reason(c: Ctx, i: Input)
  {
    match c.runState
    case ContextPrep => i.prep.Some?
    case SessionBind => i.bindExecutor.BindFailed? || i.bindReviewer.BindFailed? || OneSession(c, i)
    case ExecutorDispatch => !Clear(c, i.world, Executor, i.dispatch)
    case ReviewerDispatch => !Clear(c, i.world, Reviewer, i.dispatch)
    case ExecutorMonitor => exists k :: 0 <= k < |i.probes| && EndsAt(c, Executor, i.probes, k)
    case ReviewerMonitor => exists k :: 0 <= k < |i.probes| && EndsAt(c, Reviewer, i.probes, k)
    case RoundRetryDecide => c.consecutiveFailureCount >= 5
    case ExecutorOutputCollect =>
      || i.executorCollect.snapshotFault.Some? || i.executorCollect.gitFault.Some?
      || (i.executorCollect.artifactFault.Some? && c.args.workflow != Implement)
    case ReviewerOutputCollect => CollectFails(c, i.world.files.outbox, i.reviewerCollect)
    case QualityGate => c.reviewResult.Some? ==> c.reviewResult.value.decision != Revise
    case _ => false
  }

  lemma MonitorReason(me: nat, c: Ctx, i: Input, role: Role)
    requires Monitoring(c, role) && !i.cancelled
    ensures Wf(c) && c.attempt.Some?
    ensures Next(me, c, i).ctx.runState.IsTerminal() <==>
              exists k :: 0 <= k < |i.probes| && EndsAt(c, role, i.probes, k)
    ensures Next(me, c, i).ctx.runState == RunAborted <==>
              exists k :: 0 <= k < |i.probes| && CancelledAt(c, role, i.probes, k)
  {
    hide MonitorRun, EndsAt, CancelledAt, LocksInv, VerdictInv, FailuresInv, SessionsInv, SameReview, SameDispatch;
    assert role == Executor || role == Reviewer;
    CallEnds(c, role, i.probes, |i.probes|);
    MonitorRunKeeps(c, role, i.probes, |i.probes|);
  }

  lemma DispatchReason(me: nat, c: Ctx, i: Input, role: Role)
    requires c.runState == DispatchOf(role) && !i.cancelled
    ensures Wf(c)
    ensures Next(me, c, i).ctx.runState.IsTerminal() <==> !Clear(c, i.world, role, i.dispatch)
    ensures Next(me, c, i).ctx.runState != RunAborted
  {
    hide DoDispatch, Clear, TemplateFor, VerifyRequestFingerprint, FilesGot, Fresh;
    assert role == Executor || role == Reviewer;
    DispatchSettles(me, c, role, i);
    DispatchExact(me, c, i.world, role, i.dispatch);
    DispatchOutcome(me, c, i.world, role, i.dispatch);
  }

  lemma CollectReason(me: nat, c: Ctx, i: Input)
    requires c.runState.ReviewerOutputCollect? && !i.cancelled
    ensures Wf(c)
    ensures Next(me, c, i).ctx.runState.IsTerminal() <==> CollectFails(c, i.world.files.outbox, i.reviewerCollect)
    ensures Next(me, c, i).ctx.runState != RunAborted
  {
    hide DoReviewerOutputCollect, CollectFails, Moved, Reads, Clean;
    CollectErrors(c, i.world, i.reviewerCollect);
    CollectKeepsState(c, i.world, i.reviewerCollect);
  }

  lemma CollectKeepsState(c: Ctx, w: World, x: ReviewerCollectInput)
    requires c.runState.ReviewerOutputCollect?
    ensures var o := DoReviewerOutputCollect(c, w, x);
            o.error.Some? ==> o.ctx.runState.ReviewerOutputCollect? && !o.error.value.ArtifactContract?
  {
    hide ParseReviewerYaml, EnforceReviewerNotionPolicy, DirtyReason, OutboxUntouched;
  }

  lemma PrepReason(me: nat, c: Ctx, i: Input)
    requires c.runState.ContextPrep? && !i.cancelled
    ensures Wf(c)
    ensures Next(me, c, i).ctx.runState.IsTerminal() <==> Reason(c, i)
    ensures Next(me, c, i).ctx.runState != RunAborted
  {
    hide Clear, CollectFails, EndsAt;
  }

  lemma BindReason(me: nat, c: Ctx, i: Input)
    requires c.runState.SessionBind? && !i.cancelled
    ensures Wf(c)
    ensures Next(me, c, i).ctx.runState.IsTerminal() <==> Reason(c, i)
    ensures Next(me, c, i).ctx.runState != RunAborted
  {
    hide Clear, CollectFails, EndsAt;
  }

  lemma ExecutorCollectReason(me: nat, c: Ctx, i: Input)
    requires c.runState.ExecutorOutputCollect? && !i.cancelled
    ensures Wf(c)
    ensures Next(me, c, i).ctx.runState.IsTerminal() <==> Reason(c, i)
    ensures Next(me, c, i).ctx.runState != RunAborted
  {
    hide NoteArtifact, Clear, CollectFails, EndsAt;
  }

  lemma RetryReason(me: nat, c: Ctx, i: Input)
    requires c.runState.RoundRetryDecide? && !i.cancelled
    ensures Wf(c)
    ensures Next(me, c, i).ctx.runState.IsTerminal() <==> Reason(c, i)
    ensures Next(me, c, i).ctx.runState != RunAborted
  {
    hide SetAttemptState, Clear, CollectFails, EndsAt, Settle;
    SettleOk(DoRoundRetryDecide(c), i.world);
  }

  lemma GateReason(me: nat, c: Ctx, i: Input)
    requires c.runState.QualityGate? && !i.cancelled
    ensures Wf(c)
    ensures Next(me, c, i).ctx.runState.IsTerminal() <==> Reason(c, i)
    ensures Next(me, c, i).ctx.runState != RunAborted
  {
    hide Clear, CollectFails, EndsAt, Settle;
    SettleOk(DoQualityGate(c), i.world);
  }

  lemma PassingReason(me: nat, c: Ctx, i: Input)
    requires (c.runState.OrchVerify? || c.runState.RoundFeedbackPrep?) && !i.cancelled
    ensures Wf(c)
    ensures Next(me, c, i).ctx.runState.IsTerminal() <==> Reason(c, i)
    ensures Next(me, c, i).ctx.runState != RunAborted
  {
    hide Clear, CollectFails, EndsAt;
  }

  /**
   * A live, uncancelled run ends in an iteration exactly for the listed reason of its phase; nothing else
   * ever ends it. It is aborted exactly by a cancelled probe that its monitor reaches.
   */
  lemma EndOutcome(me: nat, c: Ctx, i: Input)
    requires Inv(c) && !c.runState.IsTerminal() && !i.cancelled
    ensures Wf(c)
    ensures Next(me, c, i).ctx.runState.IsTerminal() <==> Reason(c, i)
    ensures Next(me, c, i).ctx.runState == RunAborted <==> MonitorCancelled(c, i)
  {
    hide Next, Inv, EndsAt, CancelledAt, Clear, CollectFails, OneSession;
    LiveState(c);
    match c.runState
    case ExecutorMonitor => MonitorReason(me, c, i, Executor);
    case ReviewerMonitor => MonitorReason(me, c, i, Reviewer);
    case ExecutorDispatch => DispatchReason(me, c, i, Executor);
    case ReviewerDispatch => DispatchReason(me, c, i, Reviewer);
    case ReviewerOutputCollect => CollectReason(me, c, i);
    case ContextPrep => PrepReason(me, c, i);
    case SessionBind => BindReason(me, c, i);
    case ExecutorOutputCollect => ExecutorCollectReason(me, c, i);
    case RoundRetryDecide => RetryReason(me, c, i);
    case QualityGate => GateReason(me, c, i);
    case _ => PassingReason(me, c, i);
  }

  lemma LiveState(c: Ctx)
    requires Inv(c)
    ensures !c.runState.RunInit?
  {
  }

  /** The monitor of this iteration reaches a cancelled probe. */
  ghost predicate MonitorCancelled(c: Ctx, i: Input)
  {
    || (c.runState.ExecutorMonitor? && exists k :: 0 <= k < |i.probes| && CancelledAt(c, Executor, i.probes, k))
    || (c.runState.ReviewerMonitor? && exists k :: 0 <= k < |i.probes| && CancelledAt(c, Reviewer, i.probes, k))
  }

  /** Over runs: a live run is aborted exactly when the operator cancelled that iteration or a probe it reached. */
  lemma AbortOutcome(me: nat, args: Args, t: Trace, n: nat)
    requires IsRun(me, args, t) && n < |t.inputs| && !StateAt(t, n).IsTerminal()
    ensures StateAt(t, n + 1) == RunAborted <==> t.inputs[n].cancelled || MonitorCancelled(CtxAt(t, n), t.inputs[n])
    ensures !t.inputs[n].cancelled ==> (StateAt(t, n + 1).IsTerminal() <==> Reason(CtxAt(t, n), t.inputs[n]))
  {
    hide Next, Inv, MonitorCancelled, Reason;
    RunInv(me, args, t, n);
    assert Iterates(me, t, n);
    if t.inputs[n].cancelled {
      CancelOutcome(me, CtxAt(t, n), t.inputs[n]);
    } else {
      EndOutcome(me, CtxAt(t, n), t.inputs[n]);
    }
  }

  // ---- with which state it ends ----

  /** Some obstacle of this dispatch carries this error. */
  predicate Obstructs(c: Ctx, w: World, role: Role, d: DispatchInput, e: Error)
  {
    || (Meets(c, role, d) && e == d.fault.value.error)
    || (e == SessionLocked && c.SessionId(role).Some? && c.Key(role) in w.locks)
    || (!RequestIntact(c, w) && e == (if w.files.inbox.Some? then RequestChangedAbortRetry else Io))
    || (&& d.resetFault.Some? && d.resetFault.value.index < (if role == Executor then 2 else 1)
        && e == (if d.resetFault.value.sticky then TransportResetFailed else Io))
  }

  lemma PrepareObstacle(me: nat, c: Ctx, w: World, role: Role, d: DispatchInput)
    requires c.SessionId(role).Some?
    ensures var o := PrepareDispatch(me, c, w, role, d);
            && (o.error.Some? ==> Obstructs(c, w, role, d, o.error.value))
            && o.ctx.runState == c.runState
  {
    hide ResetTransport;
    ResetExact(w.files, role, d.resetAt, d.resetFault);
  }

  lemma LaunchObstacle(c: Ctx, w: World, role: Role, d: DispatchInput)
    ensures var o := Launch(c, w, role, d);
            && (o.error.Some? ==> Meets(c, role, d) && o.error == Some(d.fault.value.error))
            && o.ctx.runState == c.runState
  {
    hide TemplateFor, NewAttempt;
  }

  lemma SameObstacle(c: Ctx, e: Ctx, role: Role, d: DispatchInput)
    requires e == c.SetLock(role, true)
    ensures Meets(e, role, d) <==> Meets(c, role, d)
  {
  }

  /** A dispatch that ends the run ends it with the state of one of the obstacles in its way. */
  lemma DispatchEnd(me: nat, c: Ctx, i: Input, role: Role)
    requires c.runState == DispatchOf(role) && c.SessionId(role).Some? && !i.cancelled
    ensures Wf(c)
    ensures var s := Next(me, c, i).ctx.runState;
            s.IsTerminal() ==> exists e :: Obstructs(c, i.world, role, i.dispatch, e) && EndsIn(e, s)
  {
    hide PrepareDispatch, Launch, Obstructs, Meets, EndsIn, ErrorToRunState;
    assert role == Executor || role == Reviewer;
    var d := i.dispatch;
    var o := PrepareDispatch(me, c, i.world, role, d);
    PrepareObstacle(me, c, i.world, role, d);
    PrepareExact(me, c, i.world, role, d);
    var l := Launch(o.ctx, o.world, role, d);
    LaunchObstacle(o.ctx, o.world, role, d);
    if o.error.Some? {
      ErrorOutcome(o.error.value, ErrorToRunState(o.error.value));
    } else if l.error.Some? {
      SameObstacle(c, o.ctx, role, d);
      MeetsObstructs(c, i.world, role, d);
      ErrorOutcome(l.error.value, ErrorToRunState(l.error.value));
    }
  }

  lemma MeetsObstructs(c: Ctx, w: World, role: Role, d: DispatchInput)
    ensures Meets(c, role, d) ==> Obstructs(c, w, role, d, d.fault.value.error)
  {
  }

  /** The state with which a monitor ends the run at probe k. */
  ghost predicate ProbeEndsIn(c: Ctx, role: Role, ps: seq<Probe>, k: nat, s: RunState)
  {
    && EndsAt(c, role, ps, k)
    && if Cancels(ps[k]) then s == RunAborted
       else if ps[k].fault.Some? then EndsIn(ps[k].fault.value, s)
       else s == RunFailedServiceCap
  }

  lemma MonitorEnd(me: nat, c: Ctx, i: Input, role: Role)
    requires Monitoring(c, role) && !i.cancelled
    ensures Wf(c) && c.attempt.Some?
    ensures var s := Next(me, c, i).ctx.runState;
            s.IsTerminal() ==> exists k :: 0 <= k < |i.probes| && ProbeEndsIn(c, role, i.probes, k, s)
  {
    hide MonitorRun, EndsAt, LocksInv, VerdictInv, FailuresInv, SessionsInv, SameReview, SameDispatch, Cancels;
    hide ErrorToRunState, EndsIn;
    assert role == Executor || role == Reviewer;
    CallEnds(c, role, i.probes, |i.probes|);
    MonitorRunKeeps(c, role, i.probes, |i.probes|);
    var m := MonitorRun(c, role, i.probes, |i.probes|);
    if m.status.Failed? {
      ErrorOutcome(m.status.error, ErrorToRunState(m.status.error));
    }
    if Over(m) {
      var k :| 0 <= k < |i.probes| && EndsAt(c, role, i.probes, k) && EndedBy(m, i.probes[k]);
      assert ProbeEndsIn(c, role, i.probes, k, Next(me, c, i).ctx.runState);
    }
  }

  /** The state in which a reason of one of the other phases ends the run. */
  ghost predicate PhaseEndsIn(c: Ctx, i: Input, s: RunState)
  {
    match c.runState
    case ContextPrep => i.prep.Some? && EndsIn(i.prep.value, s)
    case SessionBind =>
      if i.bindExecutor.BindFailed? then EndsIn(i.bindExecutor.error, s)
      else if i.bindReviewer.BindFailed? then EndsIn(i.bindReviewer.error, s)
      else s == RunFailedSessionBind
    case RoundRetryDecide => s == RunFailedConsecutiveFailureLimit
    case ExecutorOutputCollect =>
      if i.executorCollect.snapshotFault.Some? then EndsIn(i.executorCollect.snapshotFault.value, s)
      else if i.executorCollect.artifactFault.Some? && c.args.workflow != Implement then
        EndsIn(i.executorCollect.artifactFault.value, s)
      else i.executorCollect.gitFault.Some? && EndsIn(i.executorCollect.gitFault.value, s)
    case ReviewerOutputCollect =>
      if i.reviewerCollect.mtimeFault.Some? then EndsIn(i.reviewerCollect.mtimeFault.value, s)
      else if i.reviewerCollect.snapshotFault.Some? then EndsIn(i.reviewerCollect.snapshotFault.value, s)
      else i.reviewerCollect.statusFault.Some? && EndsIn(i.reviewerCollect.statusFault.value, s)
    case QualityGate => c.reviewResult.Some? && s == EndOf(c.reviewResult.value.decision)
    case _ => false
  }

  lemma PrepEnd(me: nat, c: Ctx, i: Input)
    requires c.runState.ContextPrep? && !i.cancelled && i.prep.Some?
    ensures Wf(c) && EndsIn(i.prep.value, Next(me, c, i).ctx.runState)
  {
    hide EndsIn, ErrorToRunState;
    ErrorOutcome(i.prep.value, ErrorToRunState(i.prep.value));
  }

  lemma BindEnd(me: nat, c: Ctx, i: Input)
    requires c.runState.SessionBind? && !i.cancelled
    requires i.bindExecutor.BindFailed? || i.bindReviewer.BindFailed? || OneSession(c, i)
    ensures Wf(c) && PhaseEndsIn(c, i, Next(me, c, i).ctx.runState)
  {
    hide EndsIn, ErrorToRunState;
    forall e: Error ensures EndsIn(e, ErrorToRunState(e)) {
      ErrorOutcome(e, ErrorToRunState(e));
    }
    ErrorOutcome(SessionBindFailed, RunFailedSessionBind);
    assert ErrorToRunState(SessionBindFailed) == RunFailedSessionBind by {
      BindState();
    }
  }

  lemma BindState()
    ensures ErrorToRunState(SessionBindFailed) == RunFailedSessionBind
  {
  }

  lemma ExecutorCollectEnd(me: nat, c: Ctx, i: Input)
    requires c.runState.ExecutorOutputCollect? && !i.cancelled && Reason(c, i)
    ensures Wf(c) && PhaseEndsIn(c, i, Next(me, c, i).ctx.runState)
  {
    hide EndsIn, ErrorToRunState, NoteArtifact;
    forall e: Error ensures EndsIn(e, ErrorToRunState(e)) {
      ErrorOutcome(e, ErrorToRunState(e));
    }
  }

  lemma CollectEnd(me: nat, c: Ctx, i: Input)
    requires c.runState.ReviewerOutputCollect? && !i.cancelled
    requires DoReviewerOutputCollect(c, i.world, i.reviewerCollect).error.Some?
    ensures Wf(c) && PhaseEndsIn(c, i, Next(me, c, i).ctx.runState)
  {
    hide EndsIn, ErrorToRunState, DoReviewerOutputCollect;
    CollectKeepsState(c, i.world, i.reviewerCollect);
    CollectError(c, i.world, i.reviewerCollect);
    var e := DoReviewerOutputCollect(c, i.world, i.reviewerCollect).error.value;
    ErrorOutcome(e, ErrorToRunState(e));
  }

  lemma CollectError(c: Ctx, w: World, x: ReviewerCollectInput)
    ensures var o := DoReviewerOutputCollect(c, w, x);
            o.error.Some? ==>
              && (x.mtimeFault.Some? || x.snapshotFault.Some? || x.statusFault.Some?)
              && o.error.value == (if x.mtimeFault.Some? then x.mtimeFault.value
                                   else if x.snapshotFault.Some? then x.snapshotFault.value
                                   else x.statusFault.value)
  {
    hide TakeVerdict, DirtyReason, OutboxUntouched;
  }

  /** At the limit the attempt is marked exhausted and the run ends; below it, it is retried as its role. */
  lemma RetryEnd(me: nat, c: Ctx, i: Input)
    requires c.runState.RoundRetryDecide? && !i.cancelled
    ensures Wf(c)
    ensures var d := Next(me, c, i).ctx;
            && d == c.(runState := d.runState, attempt := d.attempt)
            && d.runState == (if c.consecutiveFailureCount >= 5 then RunFailedConsecutiveFailureLimit
                              else if c.currentRole == Some(Reviewer) then ReviewerDispatch else ExecutorDispatch)
            && (c.attempt.None? ==> d.attempt.None?)
            && (c.attempt.Some? ==>
                  d.attempt == Some(c.attempt.value.(state := if c.consecutiveFailureCount >= 5 then RetryExhausted
                                                             else RetryPending)))
  {
    hide Settle;
    SettleOk(DoRoundRetryDecide(c), i.world);
  }

  /** The gate clears the counter and goes where the decision says, whatever it is, and changes nothing else. */
  lemma GateEnd(me: nat, c: Ctx, i: Input)
    requires c.runState.QualityGate? && !i.cancelled && c.reviewResult.Some?
    ensures Wf(c)
    ensures Next(me, c, i) ==
            Sys(c.(consecutiveFailureCount := 0, runState := EndOf(c.reviewResult.value.decision)), i.world)
  {
    hide Settle;
    SettleOk(DoQualityGate(c), i.world);
  }

  /** The state in which this iteration's reason ends the run. */
  ghost predicate ReasonEndsIn(c: Ctx, i: Input, s: RunState)
  {
    match c.runState
    case ExecutorDispatch => exists e :: Obstructs(c, i.world, Executor, i.dispatch, e) && EndsIn(e, s)
    case ReviewerDispatch => exists e :: Obstructs(c, i.world, Reviewer, i.dispatch, e) && EndsIn(e, s)
    case ExecutorMonitor => exists k :: 0 <= k < |i.probes| && ProbeEndsIn(c, Executor, i.probes, k, s)
    case ReviewerMonitor => exists k :: 0 <= k < |i.probes| && ProbeEndsIn(c, Reviewer, i.probes, k, s)
    case _ => PhaseEndsIn(c, i, s)
  }

  /** A live, uncancelled run that ends does so in the state of the reason it ended for. */
  lemma EndStateOutcome(me: nat, c: Ctx, i: Input)
    requires Inv(c) && !c.runState.IsTerminal() && !i.cancelled
    ensures Wf(c)
    ensures Next(me, c, i).ctx.runState.IsTerminal() ==> ReasonEndsIn(c, i, Next(me, c, i).ctx.runState)
  {
    hide Next, Inv, EndsAt, Clear, Obstructs, EndsIn, ProbeEndsIn, PhaseEndsIn, CollectFails, OneSession;
    EndOutcome(me, c, i);
    LiveState(c);
    if Reason(c, i) {
      match c.runState
      case ExecutorMonitor => MonitorEnd(me, c, i, Executor);
      case ReviewerMonitor => MonitorEnd(me, c, i, Reviewer);
      case ExecutorDispatch => DispatchReady(c, Executor); DispatchEnd(me, c, i, Executor);
      case ReviewerDispatch => DispatchReady(c, Reviewer); DispatchEnd(me, c, i, Reviewer);
      case _ => PhaseEnd(me, c, i);
    }
  }

  lemma DispatchReady(c: Ctx, role: Role)
    requires Inv(c) && c.runState == DispatchOf(role)
    ensures c.SessionId(role).Some?
  {
  }

  lemma PhaseEnd(me: nat, c: Ctx, i: Input)
    requires Inv(c) && !c.runState.IsTerminal() && !i.cancelled && Reason(c, i) && !c.runState.IsMonitor()
    requires !c.runState.ExecutorDispatch? && !c.runState.ReviewerDispatch?
    ensures Wf(c) && PhaseEndsIn(c, i, Next(me, c, i).ctx.runState)
  {
    hide Next, EndsIn, CollectFails, EndsAt, LocksInv, SessionsInv, ChildInv, FailuresInv, IsVerdict;
    match c.runState
    case ContextPrep => PrepEnd(me, c, i);
    case SessionBind => BindEnd(me, c, i);
    case ExecutorOutputCollect => ExecutorCollectEnd(me, c, i);
    case ReviewerOutputCollect => CollectErrors(c, i.world, i.reviewerCollect); CollectEnd(me, c, i);
    case RoundRetryDecide => RetryEnd(me, c, i);
    case QualityGate => GateEnd(me, c, i);
    case _ =>
  }
}
