/** The executor's report never influences the run: noninterference over whole runs. */
module Opacity {
  import opened Base
  import opened State
  import opened YamlCheck
  import opened Transport
  import opened Probing
  import opened Phases
  import opened Invariants
  import opened Moves
  import opened Runs
  import Fsm
  import Workflow

  /** Two files that nothing but their content tells apart. */
  predicate SameShape(f: Option<File>, g: Option<File>)
  {
    Meta(f) == Meta(g)
  }

  // ---- the monitor never looks inside the outbox ----

  ghost predicate SameProbe(p: Probe, q: Probe)
  {
    q == p.(outbox := q.outbox) && SameShape(p.outbox, q.outbox)
  }

  lemma SameRefresh(st: Setting, a: Attempt, p: Probe, q: Probe)
    requires SameProbe(p, q)
    ensures Refresh(st, a, p) == Refresh(st, a, q)
    ensures WorkSignalsChanged(NoteExit(a, p), p) == WorkSignalsChanged(NoteExit(a, q), q)
    ensures OutboxFilled(p) == OutboxFilled(q)
  {
    hide ApplyGraceTransitions;
  }

  /** Two snapshots that agree on everything but the document check. */
  ghost predicate SameButProtocol(s: ProbeSnapshot, r: ProbeSnapshot)
  {
    r == s.(protocolInvalid := r.protocolInvalid)
  }

  lemma SameSnapshot(st: Setting, a: Attempt, p: Probe, q: Probe)
    requires SameProbe(p, q)
    ensures SameButProtocol(TakeSnapshot(st, a, p), TakeSnapshot(st, a, q))
  {
    hide Refresh, WorkSignalsChanged, OutboxFilled, CheckProtocolInvalid;
    SameRefresh(st, a, p, q);
  }

  /** The document check can only differ where the classifier has already decided for success. */
  lemma ProtocolMasked(st: Setting, a: Attempt, p: Probe, q: Probe)
    requires SameProbe(p, q)
    ensures CheckProtocolInvalid(st, Refresh(st, a, p), p) == CheckProtocolInvalid(st, Refresh(st, a, q), q)
            || CheckSuccessContract(Refresh(st, a, p), p)
  {
    hide Refresh, ParseReviewerYaml;
    SameRefresh(st, a, p, q);
  }

  lemma ClassifyIgnoresProtocol(s: ProbeSnapshot, r: ProbeSnapshot, now: int)
    requires SameButProtocol(s, r)
    requires s.protocolInvalid == r.protocolInvalid || s.successContract
    ensures Fsm.Classify(s, now) == Fsm.Classify(r, now)
  {
  }

  /** One probe of either role is classified without regard to the content of the outbox. */
  lemma ClassIsOpaque(st: Setting, a: Attempt, p: Probe, q: Probe)
    requires SameProbe(p, q)
    ensures ProbeClass(st, a, p) == ProbeClass(st, a, q)
    ensures Classified(st, a, p) == Classified(st, a, q)
  {
    hide Refresh, WorkSignalsChanged, OutboxFilled, CheckProtocolInvalid, ProviderStale, Fsm.Classify;
    hide CheckSuccessContract;
    SameRefresh(st, a, p, q);
    SameSnapshot(st, a, p, q);
    ProtocolMasked(st, a, p, q);
    ClassifyIgnoresProtocol(TakeSnapshot(st, a, p), TakeSnapshot(st, a, q), p.now);
  }

  // ---- contexts that differ only in the report copies kept for the final report ----

  ghost predicate SameButCopies(c: Ctx, d: Ctx)
  {
    d == c.(executorOutboxSnapshot := d.executorOutboxSnapshot, reviewerOutboxSnapshot := d.reviewerOutboxSnapshot)
  }

  lemma SameFinalize(a: Attempt, p: Probe, q: Probe)
    requires SameProbe(p, q)
    ensures FinalizeExpired(a, p) == FinalizeExpired(a, q) && OutboxFilled(p) == OutboxFilled(q)
  {
  }

  lemma RouteSameProbe(c: Ctx, role: Role, p: Probe, q: Probe, s: AttemptState)
    requires c.attempt.Some? && SameProbe(p, q)
    ensures RouteProbe(c, role, p, s) == RouteProbe(c, role, q, s)
  {
    SameFinalize(c.attempt.value, p, q);
    hide OutboxFilled, FinalizeExpired, SameProbe, Workflow.SoftSuccessAllowed;
  }

  lemma HandedOnSameCtx(c: Ctx, d: Ctx, role: Role, filled: bool)
    requires SameButCopies(c, d)
    ensures SameButCopies(c.SetLock(role, false).(outboxPresent := filled, runState := CollectOf(role)),
                          d.SetLock(role, false).(outboxPresent := filled, runState := CollectOf(role)))
    ensures SameButCopies(c.(outboxPresent := filled, runState := RunFailedProtocol),
                          d.(outboxPresent := filled, runState := RunFailedProtocol))
  {
  }

  lemma CollectingSameCtx(c: Ctx, d: Ctx, role: Role, p: Probe, s: AttemptState)
    requires c.attempt.Some? && SameButCopies(c, d) && (s.Success? || s.SoftSuccess?)
    ensures var m, n := RouteProbe(c, role, p, s), RouteProbe(d, role, p, s);
            m.status == n.status && SameButCopies(m.ctx, n.ctx)
  {
    hide OutboxFilled, FinalizeExpired, Workflow.SoftSuccessAllowed;
    HandedOnSameCtx(c, d, role, OutboxFilled(p));
  }

  lemma TerminateSameCtx(c: Ctx, d: Ctx)
    requires SameButCopies(c, d)
    ensures SameButCopies(TerminateActiveChild(c), TerminateActiveChild(d))
  {
  }

  lemma KillingSameCtx(c: Ctx, d: Ctx, role: Role, p: Probe, s: AttemptState)
    requires c.attempt.Some? && SameButCopies(c, d) && (s.HangConfirmed? || s.Cancelled?)
    ensures var m, n := RouteProbe(c, role, p, s), RouteProbe(d, role, p, s);
            m.status == n.status && SameButCopies(m.ctx, n.ctx)
  {
    hide TerminateActiveChild;
    if s.Cancelled? {
      TerminateSameCtx(c, d);
    } else {
      var a := Some(c.attempt.value.(state := TerminatingStale));
      TerminateSameCtx(c.(attempt := a), d.(attempt := a));
    }
  }

  lemma FailingSameCtx(c: Ctx, d: Ctx, role: Role, p: Probe, s: AttemptState)
    requires c.attempt.Some? && SameButCopies(c, d) && Leaves(s)
    requires !s.Success? && !s.SoftSuccess? && !s.HangConfirmed? && !s.Cancelled?
    ensures var m, n := RouteProbe(c, role, p, s), RouteProbe(d, role, p, s);
            m.status == n.status && SameButCopies(m.ctx, n.ctx)
  {
    hide OutboxFilled, FinalizeExpired, Workflow.SoftSuccessAllowed;
  }

  lemma LeavingSameCtx(c: Ctx, d: Ctx, role: Role, p: Probe, s: AttemptState)
    requires c.attempt.Some? && SameButCopies(c, d) && Leaves(s)
    ensures var m, n := RouteProbe(c, role, p, s), RouteProbe(d, role, p, s);
            m.status == n.status && SameButCopies(m.ctx, n.ctx)
  {
    hide RouteProbe;
    if s.Success? || s.SoftSuccess? {
      CollectingSameCtx(c, d, role, p, s);
    } else if s.HangConfirmed? || s.Cancelled? {
      KillingSameCtx(c, d, role, p, s);
    } else {
      FailingSameCtx(c, d, role, p, s);
    }
  }

  lemma LoopingSameCtx(c: Ctx, d: Ctx, role: Role, p: Probe, s: AttemptState)
    requires c.attempt.Some? && SameButCopies(c, d) && !Leaves(s)
    ensures var m, n := RouteProbe(c, role, p, s), RouteProbe(d, role, p, s);
            m.status == n.status && SameButCopies(m.ctx, n.ctx)
  {
    hide OutboxFilled, FinalizeExpired, Workflow.SoftSuccessAllowed;
  }

  lemma RouteIsOpaque(c: Ctx, d: Ctx, role: Role, p: Probe, q: Probe, s: AttemptState)
    requires c.attempt.Some? && SameButCopies(c, d) && SameProbe(p, q)
    ensures var m, n := RouteProbe(c, role, p, s), RouteProbe(d, role, q, s);
            m.status == n.status && SameButCopies(m.ctx, n.ctx)
  {
    hide RouteProbe;
    if Leaves(s) {
      LeavingSameCtx(c, d, role, p, s);
    } else {
      LoopingSameCtx(c, d, role, p, s);
    }
    RouteSameProbe(d, role, p, q, s);
  }

  lemma CancelledIsOpaque(c: Ctx, d: Ctx, role: Role, p: Probe, q: Probe)
    requires c.attempt.Some? && SameButCopies(c, d) && SameProbe(p, q) && p.cancel == AtLoopHead
    ensures var m, n := MonitorProbe(c, role, p), MonitorProbe(d, role, q);
            m.status == n.status && SameButCopies(m.ctx, n.ctx)
  {
    hide Classified, ProbeClass, RouteProbe;
  }

  lemma FaultIsOpaque(c: Ctx, d: Ctx, role: Role, p: Probe, q: Probe)
    requires c.attempt.Some? && SameButCopies(c, d) && SameProbe(p, q) && p.cancel != AtLoopHead
    requires p.fault.Some? || c.SessionId(role).None?
    ensures var m, n := MonitorProbe(c, role, p), MonitorProbe(d, role, q);
            m.status == n.status && SameButCopies(m.ctx, n.ctx)
  {
    hide Classified, ProbeClass, RouteProbe;
  }

  lemma ProbeIsOpaque(c: Ctx, d: Ctx, role: Role, p: Probe, q: Probe)
    requires c.attempt.Some? && SameButCopies(c, d) && SameProbe(p, q)
    ensures var m, n := MonitorProbe(c, role, p), MonitorProbe(d, role, q);
            m.status == n.status && SameButCopies(m.ctx, n.ctx)
  {
    hide MonitorProbe, Classified, ProbeClass, RouteProbe, ClassifiedCtx;
    if p.cancel == AtLoopHead {
      CancelledIsOpaque(c, d, role, p, q);
    } else if p.fault.Some? || c.SessionId(role).None? {
      FaultIsOpaque(c, d, role, p, q);
    } else {
      var st, a := c.SettingOf(role), c.attempt.value;
      ClassIsOpaque(st, a, p, q);
      ProbeIsRouted(c, role, p);
      ProbeIsRouted(d, role, q);
      SameClassified(c, d, role, p, q);
      RouteIsOpaque(ClassifiedCtx(c, role, p), ClassifiedCtx(d, role, q), role, p, q, ProbeClass(st, a, p));
    }
  }

  lemma SameClassified(c: Ctx, d: Ctx, role: Role, p: Probe, q: Probe)
    requires c.attempt.Some? && SameButCopies(c, d) && SameProbe(p, q)
    requires Classified(c.SettingOf(role), c.attempt.value, p) == Classified(c.SettingOf(role), c.attempt.value, q)
    ensures SameButCopies(ClassifiedCtx(c, role, p), ClassifiedCtx(d, role, q))
  {
    hide Classified;
  }

  ghost predicate SameProbes(ps: seq<Probe>, qs: seq<Probe>)
  {
    |ps| == |qs| && forall k :: 0 <= k < |ps| ==> SameProbe(ps[k], qs[k])
  }

  lemma {:induction false} RunIsOpaque(c: Ctx, d: Ctx, role: Role, ps: seq<Probe>, qs: seq<Probe>, n: nat)
    requires c.attempt.Some? && SameButCopies(c, d) && SameProbes(ps, qs) && n <= |ps|
    ensures var m, r := MonitorRun(c, role, ps, n), MonitorRun(d, role, qs, n);
            m.status == r.status && SameButCopies(m.ctx, r.ctx)
  {
    hide MonitorProbe;
    if n == 0 {
    } else {
      RunIsOpaque(c, d, role, ps, qs, n - 1);
      var m, r := MonitorRun(c, role, ps, n - 1), MonitorRun(d, role, qs, n - 1);
      if m.status.Looping? {
        assert SameProbe(ps[n - 1], qs[n - 1]);
        ProbeIsOpaque(m.ctx, r.ctx, role, ps[n - 1], qs[n - 1]);
      }
    }
  }

  // ---- one iteration ----

  ghost predicate SameWorld(v: World, w: World)
  {
    && w == v.(files := v.files.(outbox := w.files.outbox))
    && SameShape(v.files.outbox, w.files.outbox)
  }

  /** The one place where the content of the outbox may matter: a report written since the reviewer's dispatch. */
  predicate ReadsReport(c: Ctx, outbox: Option<File>)
  {
    c.runState.ReviewerOutputCollect? && c.reviewResult.None? && !OutboxUntouched(c, outbox)
  }

  /**
   * Two inputs that differ only in the bytes of the outbox, with equal sizes and times, and not even in
   * those where a reviewer's own report is read.
   */
  ghost predicate SameInput(c: Ctx, i: Input, j: Input)
  {
    && j == i.(world := j.world, probes := j.probes)
    && SameWorld(i.world, j.world) && SameProbes(i.probes, j.probes)
    && (ReadsReport(c, i.world.files.outbox) ==> j.world.files.outbox == i.world.files.outbox)
  }

  ghost predicate SameOutcome(o: Outcome, p: Outcome)
  {
    o.error == p.error && SameButCopies(o.ctx, p.ctx) && o.world.locks == p.world.locks
  }

  lemma PrepareIsOpaque(me: nat, c: Ctx, d: Ctx, v: World, w: World, role: Role, x: DispatchInput)
    requires SameButCopies(c, d) && SameWorld(v, w)
    ensures var o, p := PrepareDispatch(me, c, v, role, x), PrepareDispatch(me, d, w, role, x);
            SameOutcome(o, p) && (o.error.None? ==> Mtime(o.world.files.outbox) == Mtime(p.world.files.outbox))
  {
    hide ResetTransport, VerifyRequestFingerprint;
    ResetExact(v.files, role, x.resetAt, x.resetFault);
    ResetExact(w.files, role, x.resetAt, x.resetFault);
    ResetSame(v.files, w.files, role, x.resetAt, x.resetFault);
    if c.attempt.Some? {
      VerifySame(v.files, w.files, c.attempt.value.requestFingerprint);
    }
  }

  lemma ResetSame(f: Files, g: Files, role: Role, at: int, fault: Option<ResetFault>)
    ensures ResetTransport(f, role, at, fault).error == ResetTransport(g, role, at, fault).error
  {
    TruncateSame(f, g, ResetPaths(role), 0, at, fault);
  }

  lemma TruncateSame(f: Files, g: Files, paths: seq<Path>, k: nat, at: int, fault: Option<ResetFault>)
    requires k <= |paths|
    ensures TruncateFrom(f, paths, k, at, fault).error == TruncateFrom(g, paths, k, at, fault).error
    decreases |paths| - k
  {
  }

  lemma VerifySame(f: Files, g: Files, original: Digest)
    requires f.inbox == g.inbox
    ensures VerifyRequestFingerprint(f, original) == VerifyRequestFingerprint(g, original)
  {
  }

  lemma BaselineIsOpaque(c: Ctx, d: Ctx, role: Role, x: DispatchInput)
    requires SameButCopies(c, d)
    ensures SameButCopies(CaptureBaseline(c, role, x), CaptureBaseline(d, role, x))
    ensures TemplateFor(CaptureBaseline(c, role, x), role) == TemplateFor(CaptureBaseline(d, role, x), role)
  {
  }

  lemma LaunchIsOpaque(c: Ctx, d: Ctx, v: World, w: World, role: Role, x: DispatchInput)
    requires SameButCopies(c, d) && v.locks == w.locks && Mtime(v.files.outbox) == Mtime(w.files.outbox)
    ensures SameOutcome(Launch(c, v, role, x), Launch(d, w, role, x))
  {
    BaselineIsOpaque(c, d, role, x);
    hide TemplateFor, NewAttempt, CaptureBaseline;
  }

  lemma DispatchIsOpaque(me: nat, c: Ctx, d: Ctx, v: World, w: World, role: Role, x: DispatchInput)
    requires SameButCopies(c, d) && SameWorld(v, w)
    ensures SameOutcome(DoDispatch(me, c, v, role, x), DoDispatch(me, d, w, role, x))
  {
    hide PrepareDispatch, Launch;
    PrepareIsOpaque(me, c, d, v, w, role, x);
    var o, p := PrepareDispatch(me, c, v, role, x), PrepareDispatch(me, d, w, role, x);
    if o.error.None? {
      LaunchIsOpaque(o.ctx, p.ctx, o.world, p.world, role, x);
    }
  }

  lemma MonitorIsOpaque(c: Ctx, d: Ctx, v: World, w: World, role: Role, ps: seq<Probe>, qs: seq<Probe>)
    requires c.attempt.Some? && SameButCopies(c, d) && SameWorld(v, w) && SameProbes(ps, qs)
    ensures SameOutcome(DoMonitor(c, v, role, ps), DoMonitor(d, w, role, qs))
  {
    hide MonitorRun;
    RunIsOpaque(c, d, role, ps, qs, |ps|);
  }

  lemma FailureIsOpaque(c: Ctx, d: Ctx)
    requires SameButCopies(c, d)
    ensures SameButCopies(CountFailure(c), CountFailure(d))
  {
  }

  lemma VerdictIsOpaque(c: Ctx, d: Ctx, raw: string)
    requires SameButCopies(c, d)
    ensures SameButCopies(TakeVerdict(c, raw), TakeVerdict(d, raw))
  {
    hide ParseReviewerYaml, EnforceReviewerNotionPolicy, CountFailure;
    forall e: Option<Error> ensures SameButCopies(CountFailure(c.(reviewerYamlRejection := e)),
                                                  CountFailure(d.(reviewerYamlRejection := e))) {
      FailureIsOpaque(c.(reviewerYamlRejection := e), d.(reviewerYamlRejection := e));
    }
  }

  lemma WorkspaceIsOpaque(c: Ctx, d: Ctx, v: World, w: World, x: ReviewerCollectInput)
    requires SameButCopies(c, d) && SameWorld(v, w)
    ensures SameOutcome(CheckWorkspace(c, v, x), CheckWorkspace(d, w, x))
  {
    hide DirtyReason;
    DirtyReasonReads(c, d, x.gitStatusAll);
  }

  lemma CollectIsOpaque(c: Ctx, d: Ctx, i: Input, j: Input)
    requires SameButCopies(c, d) && c.runState.ReviewerOutputCollect? && SameInput(c, i, j)
    ensures SameOutcome(DoReviewerOutputCollect(c, i.world, i.reviewerCollect),
                        DoReviewerOutputCollect(d, j.world, j.reviewerCollect))
  {
    hide TakeVerdict, CheckWorkspace;
    var f, g := i.world.files.outbox, j.world.files.outbox;
    assert Mtime(f) == Mtime(g);
    var c1, d1 := c.(reviewerOutboxSnapshot := f), d.(reviewerOutboxSnapshot := g);
    if c.reviewResult.Some? {
      WorkspaceIsOpaque(c1, d1, i.world, j.world, i.reviewerCollect);
    } else if ReadableReport(c, f) {
      VerdictIsOpaque(c1, d1, f.value.body.text);
      WorkspaceIsOpaque(TakeVerdict(c1, f.value.body.text), TakeVerdict(d1, f.value.body.text),
                        i.world, j.world, i.reviewerCollect);
    }
  }

  lemma PrepIsOpaque(c: Ctx, d: Ctx, i: Input, j: Input)
    requires SameButCopies(c, d) && SameInput(c, i, j)
    ensures SameOutcome(DoContextPrep(c, i.world, i.prep), DoContextPrep(d, j.world, j.prep))
    ensures SameOutcome(DoSessionBind(c, i.world, i.bindExecutor, i.bindReviewer),
                        DoSessionBind(d, j.world, j.bindExecutor, j.bindReviewer))
  {
    hide OutboxUntouched, SameProbes;
  }

  lemma VerifyIsOpaque(c: Ctx, d: Ctx)
    requires SameButCopies(c, d)
    ensures SameButCopies(DoOrchVerify(c), DoOrchVerify(d))
  {
  }

  lemma AttemptStateIsOpaque(c: Ctx, d: Ctx, s: AttemptState, next: RunState)
    requires SameButCopies(c, d)
    ensures SameButCopies(SetAttemptState(c, s).(runState := next), SetAttemptState(d, s).(runState := next))
  {
  }

  lemma RetryIsOpaque(c: Ctx, d: Ctx)
    requires SameButCopies(c, d)
    ensures SameButCopies(DoRoundRetryDecide(c), DoRoundRetryDecide(d))
  {
    hide SetAttemptState;
    AttemptStateIsOpaque(c, d, RetryExhausted, RunFailedConsecutiveFailureLimit);
    var next := if c.currentRole == Some(Reviewer) then ReviewerDispatch else ExecutorDispatch;
    AttemptStateIsOpaque(c, d, RetryPending, next);
  }

  lemma GateIsOpaque(c: Ctx, d: Ctx)
    requires SameButCopies(c, d)
    ensures SameButCopies(DoQualityGate(c), DoQualityGate(d))
  {
  }

  lemma FeedbackIsOpaque(c: Ctx, d: Ctx)
    requires SameButCopies(c, d)
    ensures SameButCopies(DoRoundFeedbackPrep(c), DoRoundFeedbackPrep(d))
  {
  }

  lemma ExecutorCollectIsOpaque(c: Ctx, d: Ctx, i: Input, j: Input)
    requires SameButCopies(c, d) && SameInput(c, i, j)
    ensures SameOutcome(DoExecutorOutputCollect(c, i.world, i.executorCollect),
                        DoExecutorOutputCollect(d, j.world, j.executorCollect))
  {
    hide OutboxUntouched, SameProbes;
  }

  lemma OtherIsOpaque(me: nat, c: Ctx, d: Ctx, i: Input, j: Input)
    requires SameButCopies(c, d) && SameInput(c, i, j) && Wf(c) && Wf(d)
    requires !c.runState.IsMonitor() && !c.runState.ExecutorDispatch? && !c.runState.ReviewerDispatch?
    requires !c.runState.ReviewerOutputCollect?
    ensures SameOutcome(Step(me, c, i), Step(me, d, j))
  {
    hide DoContextPrep, DoSessionBind, DoOrchVerify, DoRoundRetryDecide, DoQualityGate, DoRoundFeedbackPrep;
    hide DoExecutorOutputCollect, OutboxUntouched, SameProbes;
    PrepIsOpaque(c, d, i, j);
    VerifyIsOpaque(c, d);
    RetryIsOpaque(c, d);
    GateIsOpaque(c, d);
    FeedbackIsOpaque(c, d);
    ExecutorCollectIsOpaque(c, d, i, j);
  }

  /** One iteration: contexts that agree but for the copies still do afterwards. */
  lemma NextIsOpaque(me: nat, c: Ctx, d: Ctx, i: Input, j: Input)
    requires SameButCopies(c, d) && SameInput(c, i, j) && Wf(c) && Wf(d)
    ensures SameButCopies(Next(me, c, i).ctx, Next(me, d, j).ctx)
  {
    hide DoDispatch, DoMonitor, DoReviewerOutputCollect;
    match c.runState
    case ExecutorDispatch => DispatchIsOpaque(me, c, d, i.world, j.world, Executor, i.dispatch);
    case ReviewerDispatch => DispatchIsOpaque(me, c, d, i.world, j.world, Reviewer, i.dispatch);
    case ExecutorMonitor => MonitorIsOpaque(c, d, i.world, j.world, Executor, i.probes, j.probes);
    case ReviewerMonitor => MonitorIsOpaque(c, d, i.world, j.world, Reviewer, i.probes, j.probes);
    case ReviewerOutputCollect => CollectIsOpaque(c, d, i, j);
    case _ => OtherIsOpaque(me, c, d, i, j);
  }

  // ---- whole runs ----

  ghost predicate SameInputs(t: Trace, u: Trace)
    requires Sized(t)
  {
    |t.inputs| == |u.inputs| && forall n :: 0 <= n < |t.inputs| ==> SameInputAt(t, u, n)
  }

  ghost predicate SameInputAt(t: Trace, u: Trace, n: nat)
    requires Sized(t) && n < |t.inputs| && n < |u.inputs|
  {
    SameInput(CtxAt(t, n), t.inputs[n], u.inputs[n])
  }

  /**
   * Noninterference. Two runs of the same arguments whose inputs differ only in the bytes of outbox
   * bodies, outside the reviewer's own fresh reports, go through the same run states, counters,
   * verdicts and attempts; they differ at most in the raw copies kept for the final report.
   */
  lemma {:induction false} ReportOpacity(me: nat, args: Args, t: Trace, u: Trace, n: nat)
    requires IsRun(me, args, t) && IsRun(me, args, u) && SameInputs(t, u) && n <= |t.inputs|
    ensures SameButCopies(CtxAt(t, n), CtxAt(u, n))
    ensures StateAt(t, n) == StateAt(u, n)
  {
    hide Next, SameInput;
    if n == 0 {
    } else {
      ReportOpacity(me, args, t, u, n - 1);
      assert Iterates(me, t, n - 1) && Iterates(me, u, n - 1);
      assert SameInputAt(t, u, n - 1);
      NextIsOpaque(me, CtxAt(t, n - 1), CtxAt(u, n - 1), t.inputs[n - 1], u.inputs[n - 1]);
    }
  }
}
