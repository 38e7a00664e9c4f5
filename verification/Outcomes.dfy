/** What each iteration does, exactly: where it leads, when it ends the run, and with which state. */
module Outcomes {
  import opened Base
  import opened State
  import opened YamlCheck
  import opened Transport
  import opened Probing
  import opened Phases
  import opened Invariants
  import opened Moves
  import MonitorSafety
  import Workflow

  // ---- one probe ----

  /** The role's lock is given back, the other is as it was, and the failures grow by this many. */
  ghost predicate Goes(c: Ctx, d: Ctx, role: Role, next: RunState, failures: nat)
  {
    && d.runState == next && d.consecutiveFailureCount == c.consecutiveFailureCount + failures
    && d.executorLock == (role == Reviewer && c.executorLock)
    && d.reviewerLock == (role == Executor && c.reviewerLock)
  }

  ghost predicate Remains(c: Ctx, d: Ctx)
  {
    && d.runState == c.runState && d.consecutiveFailureCount == c.consecutiveFailureCount
    && d.executorLock == c.executorLock && d.reviewerLock == c.reviewerLock
  }

  /** Where a class leads. */
  ghost predicate Leads(c: Ctx, m: MonitorStep, role: Role, s: AttemptState)
  {
    && m.ctx.attempt.Some? && m.ctx.attempt.value.state == (if s == HangConfirmed then TerminatingStale else s)
    && (m.status.Looping? <==> s in {Finalizing, Running, WaitingOutput, Unknown})
    && !m.status.Failed?
    && match s
       case Success =>
         Goes(c, m.ctx, role, if role == Executor then ExecutorOutputCollect else ReviewerOutputCollect, 0)
       case SoftSuccess =>
         Goes(c, m.ctx, role, if role == Executor then ExecutorOutputCollect else ReviewerOutputCollect, 0)
       case FailedSilent => Goes(c, m.ctx, role, RoundRetryDecide, 1)
       case FailedProtocol => Goes(c, m.ctx, role, RoundRetryDecide, 1)
       case HangConfirmed => Goes(c, m.ctx, role, RoundRetryDecide, 1)
       case FailedServiceCap => Goes(c, m.ctx, role, RunFailedServiceCap, 0)
       case Cancelled => Goes(c, m.ctx, role, RunAborted, 0)
       case Finalizing => Remains(c, m.ctx)
       case Running => Remains(c, m.ctx)
       case WaitingOutput => Remains(c, m.ctx)
       case Unknown => Remains(c, m.ctx)
       case _ => false
  }

  lemma DeliveredLeads(c: Ctx, role: Role, p: Probe, s: AttemptState)
    requires c.attempt.Some? && c.attempt.value.state == s && (s.Success? || s.SoftSuccess?)
    requires s.SoftSuccess? ==> Workflow.SoftSuccessAllowed(c.args.workflow, c.artifactMap)
    ensures Leads(c, RouteProbe(c, role, p, s), role, s)
  {
    hide OutboxFilled, FinalizeExpired, Workflow.SoftSuccessAllowed;
    assert role == Executor || role == Reviewer;
  }

  lemma StoppedLeads(c: Ctx, role: Role, p: Probe, s: AttemptState)
    requires c.attempt.Some? && c.attempt.value.state == s
    requires s.HangConfirmed? || s.Cancelled? || s.Finalizing?
    ensures Leads(c, RouteProbe(c, role, p, s), role, s)
  {
    hide OutboxFilled, FinalizeExpired, Workflow.SoftSuccessAllowed;
    assert role == Executor || role == Reviewer;
  }

  lemma OtherLeads(c: Ctx, role: Role, p: Probe, s: AttemptState)
    requires c.attempt.Some? && c.attempt.value.state == s
    requires s.FailedSilent? || s.FailedProtocol? || s.FailedServiceCap? || s.Running? || s.WaitingOutput? || s.Unknown?
    ensures Leads(c, RouteProbe(c, role, p, s), role, s)
  {
    hide OutboxFilled, FinalizeExpired, Workflow.SoftSuccessAllowed;
    assert role == Executor || role == Reviewer;
  }

  lemma LeadsFrom(c: Ctx, d: Ctx, m: MonitorStep, role: Role, s: AttemptState)
    requires Leads(d, m, role, s)
    requires d.runState == c.runState && d.consecutiveFailureCount == c.consecutiveFailureCount
    requires d.executorLock == c.executorLock && d.reviewerLock == c.reviewerLock
    ensures Leads(c, m, role, s)
  {
  }

  lemma ClassifiedSame(c: Ctx, role: Role, p: Probe)
    requires c.attempt.Some?
    ensures var d := ClassifiedCtx(c, role, p);
            && d.runState == c.runState && d.consecutiveFailureCount == c.consecutiveFailureCount
            && d.executorLock == c.executorLock && d.reviewerLock == c.reviewerLock
            && d.attempt.value.state == ProbeClass(c.SettingOf(role), c.attempt.value, p)
  {
    hide Classified, ProbeClass;
    ClassifiedFacts(c.SettingOf(role), c.attempt.value, p);
  }

  /**
   * A probe that is neither cancelled at the loop head nor faulty leads where its class says: to the
   * collection with the count unchanged, to a counted retry, to the end, or on with the loop.
   */
  lemma ProbeOutcome(c: Ctx, role: Role, p: Probe)
    requires Monitoring(c, role) && p.cancel != AtLoopHead && p.fault.None?
    ensures c.attempt.Some?
    ensures Leads(c, MonitorProbe(c, role, p), role, ProbeClass(c.SettingOf(role), c.attempt.value, p))
  {
    hide MonitorProbe, ProbeClass, Classified, RouteProbe, ClassifiedCtx, Leads, Monitoring;
    hide Workflow.SoftSuccessAllowed;
    MonitoringHas(c, role);
    var st, a := c.SettingOf(role), c.attempt.value;
    var d, s := ClassifiedCtx(c, role, p), ProbeClass(st, a, p);
    ProbeIsRouted(c, role, p);
    ClassifiedPid(c, role, p);
    ClassFacts(st, a, p);
    ClassifiedSame(c, role, p);
    if s.Success? || s.SoftSuccess? {
      DeliveredLeads(d, role, p, s);
    } else if s.HangConfirmed? || s.Cancelled? || s.Finalizing? {
      StoppedLeads(d, role, p, s);
    } else {
      OtherLeads(d, role, p, s);
    }
    LeadsFrom(c, d, MonitorProbe(c, role, p), role, s);
  }

  /** The other two ways a probe can end the call, with the lock kept. */
  lemma TroubledProbe(c: Ctx, role: Role, p: Probe)
    requires Monitoring(c, role) && c.attempt.Some? && (p.cancel == AtLoopHead || p.fault.Some?)
    ensures var m := MonitorProbe(c, role, p);
            && m.ctx.consecutiveFailureCount == c.consecutiveFailureCount
            && m.ctx.executorLock == c.executorLock && m.ctx.reviewerLock == c.reviewerLock
            && (p.cancel == AtLoopHead ==> m.status.Returned? && m.ctx.runState == RunAborted)
            && (p.cancel != AtLoopHead ==> m.status == Failed(p.fault.value) && m.ctx.runState == c.runState)
  {
    hide ProbeClass, Classified, RouteProbe, LocksInv, VerdictInv, FailuresInv;
  }

  // ---- one monitor call ----

  /** The operator's cancel reaches this probe. */
  predicate Cancels(p: Probe)
  {
    p.cancel == AtLoopHead || (p.cancel == AtSnapshot && p.fault.None?)
  }

  /** The probe ends the run: cancelled, a failing call, or a service cap. */
  predicate EndsRun(provider: Provider, p: Probe)
  {
    || p.cancel != NotCancelled || p.fault.Some?
    || ServiceCap in p.matched || (p.matched == {} && provider == Claude && p.claudeCap)
  }

  function ProviderOfRole(args: Args, role: Role): Provider
  {
    match role
    case Executor => args.executorProvider
    case Reviewer => args.reviewerProvider
  }

  predicate Over(m: MonitorStep)
  {
    m.status.Failed? || m.ctx.runState.IsTerminal()
  }

  /** How a probe that ends the run ends it. */
  predicate EndedBy(m: MonitorStep, p: Probe)
  {
    if Cancels(p) then m.status.Returned? && m.ctx.runState == RunAborted
    else if p.fault.Some? then m.status == Failed(p.fault.value)
    else m.status.Returned? && m.ctx.runState == RunFailedServiceCap
  }

  lemma ProbeEnds(c: Ctx, role: Role, p: Probe)
    requires Monitoring(c, role)
    ensures c.attempt.Some?
    ensures var m := MonitorProbe(c, role, p);
            && (Over(m) <==> EndsRun(ProviderOfRole(c.args, role), p))
            && (Over(m) ==> EndedBy(m, p))
            && (m.ctx.runState == RunAborted <==> Cancels(p))
  {
    hide MonitorProbe, ProbeClass, LocksInv, VerdictInv, FailuresInv, SessionsInv, DetectProviderError;
    assert role == Executor || role == Reviewer;
    if p.cancel == AtLoopHead || p.fault.Some? {
      TroubledProbe(c, role, p);
    } else {
      ProbeOutcome(c, role, p);
      ClassOfPreempted(c.SettingOf(role), c.attempt.value, p);
      OnlyServiceCapSurvives(c.SettingOf(role), p);
    }
  }

  /** The call gets to show probe k. */
  ghost predicate Reached(c: Ctx, role: Role, ps: seq<Probe>, k: nat)
  {
    c.attempt.Some? && k < |ps| && MonitorRun(c, role, ps, k).status.Looping?
  }

  ghost predicate EndsAt(c: Ctx, role: Role, ps: seq<Probe>, k: nat)
  {
    Reached(c, role, ps, k) && EndsRun(ProviderOfRole(c.args, role), ps[k])
  }

  ghost predicate CancelledAt(c: Ctx, role: Role, ps: seq<Probe>, k: nat)
  {
    Reached(c, role, ps, k) && Cancels(ps[k])
  }

  /** Probe l of a call that gets that far. */
  lemma NextEnds(c: Ctx, role: Role, ps: seq<Probe>, l: nat)
    requires Monitoring(c, role) && l < |ps| && Reached(c, role, ps, l)
    ensures var m := MonitorRun(c, role, ps, l + 1);
            && (Over(m) <==> EndsAt(c, role, ps, l))
            && (Over(m) ==> EndedBy(m, ps[l]))
            && (m.ctx.runState == RunAborted <==> CancelledAt(c, role, ps, l))
    ensures var m := MonitorRun(c, role, ps, l); !Over(m) && m.ctx.runState != RunAborted
  {
    hide MonitorProbe, EndsRun, Cancels, Inv, SameDispatch, EndedBy;
    MonitorRunKeeps(c, role, ps, l);
    var m := MonitorRun(c, role, ps, l);
    ProbeEnds(m.ctx, role, ps[l]);
    MonitoringLive(m.ctx, role);
    MonitorSafety.SettingKept(c, m.ctx, role);
  }

  /** A monitor call ends the run exactly when it reaches a probe that does, and aborts it on a cancelled one. */
  lemma {:induction false} CallEnds(c: Ctx, role: Role, ps: seq<Probe>, n: nat)
    requires Monitoring(c, role) && n <= |ps|
    ensures c.attempt.Some?
    ensures var m := MonitorRun(c, role, ps, n);
            && (Over(m) <==> exists k :: 0 <= k < n && EndsAt(c, role, ps, k))
            && (Over(m) ==> exists k :: 0 <= k < n && EndsAt(c, role, ps, k) && EndedBy(m, ps[k]))
            && (m.ctx.runState == RunAborted <==> exists k :: 0 <= k < n && CancelledAt(c, role, ps, k))
  {
    hide MonitorProbe, EndsRun, Cancels, Monitoring, Over, EndedBy;
    MonitoringHas(c, role);
    if n == 0 {
      MonitoringLive(c, role);
      NotOver(c, role, ps);
    } else {
      var l := n - 1;
      CallEnds(c, role, ps, l);
      if Reached(c, role, ps, l) {
        NextEnds(c, role, ps, l);
      }
    }
  }

  lemma NotOver(c: Ctx, role: Role, ps: seq<Probe>)
    requires Monitoring(c, role) && c.attempt.Some?
    ensures !Over(MonitorRun(c, role, ps, 0)) && c.runState != RunAborted
  {
    assert role == Executor || role == Reviewer;
  }

  /** Probe k stopped the call, and where it led, from the context c the call started with. */
  ghost predicate LedBy(c: Ctx, role: Role, ps: seq<Probe>, k: nat, m: MonitorStep)
  {
    && Reached(c, role, ps, k)
    && (ps[k].cancel != AtLoopHead && ps[k].fault.None? ==>
          Leads(c, m, role, ProbeClass(c.SettingOf(role), MonitorRun(c, role, ps, k).ctx.attempt.value, ps[k])))
  }

  lemma NextLeads(c: Ctx, role: Role, ps: seq<Probe>, l: nat)
    requires Monitoring(c, role) && l < |ps| && Reached(c, role, ps, l)
    ensures LedBy(c, role, ps, l, MonitorRun(c, role, ps, l + 1))
    ensures MonitorRun(c, role, ps, l).ctx.runState == c.runState
  {
    hide MonitorProbe, Leads, Inv, SameDispatch, ProbeClass;
    MonitorRunKeeps(c, role, ps, l);
    var m := MonitorRun(c, role, ps, l);
    MonitorSafety.SettingKept(c, m.ctx, role);
    if ps[l].cancel != AtLoopHead && ps[l].fault.None? {
      ProbeOutcome(m.ctx, role, ps[l]);
      SameHeld(c, m.ctx, role);
      LeadsFrom(c, m.ctx, MonitorProbe(m.ctx, role, ps[l]), role,
                ProbeClass(c.SettingOf(role), m.ctx.attempt.value, ps[l]));
    }
  }

  lemma SameHeld(c: Ctx, d: Ctx, role: Role)
    requires Monitoring(c, role) && Monitoring(d, role)
    ensures d.executorLock == c.executorLock && d.reviewerLock == c.reviewerLock
  {
    assert role == Executor || role == Reviewer;
  }

  /**
   * A monitor call that has stopped was stopped by one probe, which led where its class says; one that has
   * not is where it was, with its locks and counter.
   */
  lemma {:induction false} CallOutcome(c: Ctx, role: Role, ps: seq<Probe>, n: nat)
    requires Monitoring(c, role) && n <= |ps|
    ensures c.attempt.Some?
    ensures var m := MonitorRun(c, role, ps, n);
            if m.status.Looping? then Remains(c, m.ctx) else exists k :: 0 <= k < n && LedBy(c, role, ps, k, m)
  {
    hide MonitorProbe, Monitoring, LedBy, SameReview, SameDispatch, Inv;
    MonitoringHas(c, role);
    if n == 0 {
    } else {
      var l := n - 1;
      CallOutcome(c, role, ps, l);
      if Reached(c, role, ps, l) {
        NextLeads(c, role, ps, l);
        LoopRemains(c, role, ps, n);
      }
    }
  }

  lemma LoopRemains(c: Ctx, role: Role, ps: seq<Probe>, n: nat)
    requires Monitoring(c, role) && n <= |ps| && c.attempt.Some?
    ensures MonitorRun(c, role, ps, n).status.Looping? ==> Remains(c, MonitorRun(c, role, ps, n).ctx)
  {
    hide MonitorRun, SameReview, SameDispatch, VerdictInv, FailuresInv, SessionsInv;
    MonitorRunKeeps(c, role, ps, n);
    assert role == Executor || role == Reviewer;
  }

  lemma MonitoringLive(c: Ctx, role: Role)
    requires Monitoring(c, role)
    ensures !c.runState.IsTerminal()
  {
    assert role == Executor || role == Reviewer;
  }

  // ---- one dispatch ----

  /** The fault of this dispatch, if any, lies on its way: a step it does not take cannot fail. */
  predicate Meets(c: Ctx, role: Role, d: DispatchInput)
  {
    && d.fault.Some?
    && (d.fault.value.stage == Verifying ==> c.attempt.Some?)
    && (d.fault.value.stage == ReviewerBaseline ==> role == Reviewer)
  }

  /** The inbox still holds the request of the current attempt, if there is one. */
  predicate RequestIntact(c: Ctx, w: World)
  {
    c.attempt.Some? ==>
      w.files.inbox.Some? && w.files.inbox.value.body == Text(c.attempt.value.requestFingerprint.of)
  }

  /** Nothing stands in the way of a dispatch. */
  predicate Clear(c: Ctx, w: World, role: Role, d: DispatchInput)
  {
    && c.SessionId(role).Some? && c.Key(role) !in w.locks && RequestIntact(c, w) && !Meets(c, role, d)
    && (d.resetFault.Some? ==> d.resetFault.value.index >= (if role == Executor then 2 else 1))
  }

  lemma PrepareClear(me: nat, c: Ctx, w: World, role: Role, d: DispatchInput)
    requires !Meets(c, role, d) || d.fault.value.stage in {ReviewerBaseline, Rendering, Spawning}
    ensures PrepareDispatch(me, c, w, role, d).error.None? <==>
              && c.SessionId(role).Some? && c.Key(role) !in w.locks && RequestIntact(c, w)
              && (d.resetFault.Some? ==> d.resetFault.value.index >= (if role == Executor then 2 else 1))
  {
    hide ResetTransport;
    ResetExact(w.files, role, d.resetAt, d.resetFault);
  }

  lemma PrepareMeets(me: nat, c: Ctx, w: World, role: Role, d: DispatchInput)
    requires Meets(c, role, d) && d.fault.value.stage in {Locking, Verifying, Baseline}
    ensures PrepareDispatch(me, c, w, role, d).error.Some?
  {
    hide ResetTransport, VerifyRequestFingerprint;
  }

  lemma LaunchClear(c: Ctx, w: World, role: Role, d: DispatchInput)
    ensures Launch(c, w, role, d).error.None? <==>
              d.FailsAt(Rendering).None? && d.FailsAt(Spawning).None?
              && (role == Reviewer ==> d.FailsAt(ReviewerBaseline).None?)
  {
    hide TemplateFor, NewAttempt;
  }

  /** A dispatch starts a child exactly when nothing stands in its way. */
  lemma DispatchOutcome(me: nat, c: Ctx, w: World, role: Role, d: DispatchInput)
    ensures DoDispatch(me, c, w, role, d).error.None? <==> Clear(c, w, role, d)
  {
    hide PrepareDispatch, Launch, RequestIntact;
    var o := PrepareDispatch(me, c, w, role, d);
    LaunchClear(o.ctx, o.world, role, d);
    if Meets(c, role, d) && d.fault.value.stage in {Locking, Verifying, Baseline} {
      PrepareMeets(me, c, w, role, d);
    } else {
      PrepareClear(me, c, w, role, d);
    }
  }

  /** A dispatch is refused for its lock exactly when the lock is held, and for its request when that changed. */
  lemma RefusalOutcome(me: nat, c: Ctx, w: World, role: Role, d: DispatchInput)
    requires c.SessionId(role).Some?
    ensures DoDispatch(me, c, w, role, d).error == Some(SessionLocked) <==>
              d.FailsAt(Locking).None? && c.Key(role) in w.locks
    ensures DoDispatch(me, c, w, role, d).error == Some(RequestChangedAbortRetry) <==>
              && d.FailsAt(Locking).None? && c.Key(role) !in w.locks
              && d.FailsAt(Verifying).None? && w.files.inbox.Some? && !RequestIntact(c, w)
  {
    hide ResetTransport, Launch;
    ResetErrors(w.files, role, d.resetAt, d.resetFault);
    LaunchErrors(PrepareDispatch(me, c, w, role, d), role, d);
  }

  // ---- one reviewer collection ----

  /** The outbox is not as the dispatch of this attempt found it: absent then, or of another time now. */
  predicate Moved(c: Ctx, outbox: Option<File>)
  {
    c.attempt.Some? && c.attempt.value.preReviewerOutboxMtime.Some? ==>
      outbox.None? || outbox.value.mtime != c.attempt.value.preReviewerOutboxMtime.value
  }

  /** The text of the outbox, if it is text. */
  function TextOf(outbox: Option<File>): Option<string>
  {
    if outbox.Some? && outbox.value.body.Text? then Some(outbox.value.body.text) else None
  }

  /** Some document that passes every rule can be read from this text. */
  ghost predicate Reads(c: Ctx, text: Option<string>)
  {
    text.Some? && exists y :: c.args.parse(text.value) == Some(y) && Passes(c.args.notionPolicy, y)
  }

  /** No status line is new since the baseline, but for the outbox. */
  predicate Clean(c: Ctx, current: seq<string>)
  {
    var before := if c.preReviewerGitStatus.Some? then c.preReviewerGitStatus.value else [];
    forall l :: l in current ==> l in before || PathPart(l) == ".agent-io/outbox.txt"
  }

  predicate Untroubled(x: ReviewerCollectInput)
  {
    x.mtimeFault.None? && x.snapshotFault.None? && x.statusFault.None?
  }

  lemma MovedIs(c: Ctx, outbox: Option<File>)
    ensures Moved(c, outbox) <==> !OutboxUntouched(c, outbox)
  {
  }

  lemma CleanIs(c: Ctx, current: seq<string>)
    ensures Clean(c, current) <==> DirtyReason(c, current).None?
  {
    hide PathPart;
    var before := if c.preReviewerGitStatus.Some? then c.preReviewerGitStatus.value else [];
    var lines := DirtyLines(before, current);
    if lines != [] {
      assert lines[0] in lines;
    }
  }

  lemma ReadsIs(c: Ctx, text: string)
    ensures Reads(c, Some(text)) <==>
              ParseReviewerYaml(c.args.parse, text).Ok?
              && EnforceReviewerNotionPolicy(c.args.notionPolicy, ParseReviewerYaml(c.args.parse, text).value).Ok?
  {
    hide Passes, ParseReviewerYaml, EnforceReviewerNotionPolicy, IsVerdict;
    RejectedVerdict(c.args.parse, c.args.notionPolicy, text);
    forall y ensures IsVerdict(c.args.parse, c.args.notionPolicy, text, y) <==>
                       c.args.parse(text) == Some(y) && Passes(c.args.notionPolicy, y) {
      VerdictExact(c.args.parse, c.args.notionPolicy, text, y);
    }
  }

  lemma TakeReads(c: Ctx, text: string)
    requires c.reviewResult.None?
    ensures var d := TakeVerdict(c, text);
            && (d.reviewResult.Some? <==> Reads(c, Some(text)))
            && (d.reviewResult.None? ==>
                  d.reviewerYamlRejection.Some?
                  && d == CountFailure(c.(reviewerYamlRejection := d.reviewerYamlRejection)))
            && (d.reviewResult.Some? ==>
                  && c.args.parse(text) == d.reviewResult && Passes(c.args.notionPolicy, d.reviewResult.value)
                  && d == c.(reviewerYamlRejection := None, reviewResultYamlRaw := Some(text),
                             reviewResult := d.reviewResult))
  {
    hide ParseReviewerYaml, EnforceReviewerNotionPolicy, Reads, Passes;
    ReadsIs(c, text);
    var parsed := ParseReviewerYaml(c.args.parse, text);
    if parsed.Ok? {
      VerdictExact(c.args.parse, c.args.notionPolicy, text, parsed.value);
    }
  }

  /** A verdict is there after this collection's reading: stored before, or just read. */
  ghost predicate HasJudged(c: Ctx, outbox: Option<File>)
  {
    c.reviewResult.Some? || Reads(c, TextOf(outbox))
  }

  lemma WorkspaceOutcome(c: Ctx, w: World, x: ReviewerCollectInput)
    requires c.runState.ReviewerOutputCollect?
    ensures var o := CheckWorkspace(c, w, x);
            && (o.error.Some? <==> x.statusFault.Some?)
            && (o.error.Some? ==> o.error == Some(x.statusFault.value) && o.ctx == c)
            && (o.error.None? && Clean(c, x.gitStatusAll) ==>
                  o.ctx == c.(reviewerWorkspaceRejection := None, runState := QualityGate))
            && (o.error.None? && !Clean(c, x.gitStatusAll) ==>
                  o.ctx.reviewerWorkspaceRejection.Some?
                  && o.ctx == CountFailure(c.(reviewerWorkspaceRejection := o.ctx.reviewerWorkspaceRejection)))
  {
    hide DirtyReason, Clean;
    CleanIs(c, x.gitStatusAll);
  }

  /** Where an untroubled collection leads. */
  ghost predicate Collected(c: Ctx, outbox: Option<File>, current: seq<string>, d: Ctx)
  {
    var passes := Moved(c, outbox) && HasJudged(c, outbox) && Clean(c, current);
    && d.runState == (if passes then QualityGate else RoundRetryDecide)
    && d.consecutiveFailureCount == c.consecutiveFailureCount + (if passes then 0 else 1)
    && (d.reviewResult.Some? <==> c.reviewResult.Some? || (Moved(c, outbox) && Reads(c, TextOf(outbox))))
    && (c.reviewResult.Some? ==> d.reviewResult == c.reviewResult)
    && (c.reviewResult.None? && d.reviewResult.Some? ==>
          c.args.parse(TextOf(outbox).value) == d.reviewResult && d.reviewResultYamlRaw == TextOf(outbox))
    && (Moved(c, outbox) && TextOf(outbox).Some? && !HasJudged(c, outbox) ==> d.reviewerYamlRejection.Some?)
    && (Moved(c, outbox) && HasJudged(c, outbox) ==>
          && (d.reviewerWorkspaceRejection.Some? <==> !Clean(c, current))
          && d.reviewerOutboxSnapshot == outbox)
  }

  lemma StoredOutcome(c: Ctx, w: World, x: ReviewerCollectInput)
    requires c.runState.ReviewerOutputCollect? && c.reviewResult.Some? && Moved(c, w.files.outbox)
    ensures var o := DoReviewerOutputCollect(c, w, x);
            && (o.error.Some? <==> !Untroubled(x))
            && (o.error.None? ==> Collected(c, w.files.outbox, x.gitStatusAll, o.ctx))
  {
    hide CheckWorkspace, Reads, OutboxUntouched;
    MovedIs(c, w.files.outbox);
    hide Moved;
    WorkspaceOutcome(c.(reviewerOutboxSnapshot := w.files.outbox), w, x);
  }

  lemma ReadOutcome(c: Ctx, w: World, x: ReviewerCollectInput)
    requires c.runState.ReviewerOutputCollect? && c.reviewResult.None? && Moved(c, w.files.outbox)
    requires TextOf(w.files.outbox).Some?
    ensures var o := DoReviewerOutputCollect(c, w, x);
            && (o.error.Some? <==>
                  || x.mtimeFault.Some? || x.snapshotFault.Some?
                  || (Reads(c, TextOf(w.files.outbox)) && x.statusFault.Some?))
            && (o.error.None? ==> Collected(c, w.files.outbox, x.gitStatusAll, o.ctx))
  {
    hide CheckWorkspace, TakeVerdict, OutboxUntouched;
    MovedIs(c, w.files.outbox);
    hide Moved, Clean;
    var c1 := c.(reviewerOutboxSnapshot := w.files.outbox);
    var text := w.files.outbox.value.body.text;
    TakeReads(c1, text);
    assert Reads(c1, Some(text)) <==> Reads(c, Some(text));
    hide Reads, Passes;
    var d := TakeVerdict(c1, text);
    if d.reviewResult.Some? {
      WorkspaceOutcome(d, w, x);
      assert Clean(d, x.gitStatusAll) <==> Clean(c, x.gitStatusAll) by {
        CleanReads(c, d, x.gitStatusAll);
      }
    }
  }

  lemma CleanReads(c: Ctx, d: Ctx, current: seq<string>)
    requires d.preReviewerGitStatus == c.preReviewerGitStatus
    ensures Clean(d, current) <==> Clean(c, current)
  {
  }

  lemma UnreadOutcome(c: Ctx, w: World, x: ReviewerCollectInput)
    requires c.runState.ReviewerOutputCollect?
    requires !Moved(c, w.files.outbox) || (c.reviewResult.None? && TextOf(w.files.outbox).None?)
    ensures var o := DoReviewerOutputCollect(c, w, x);
            && (o.error.Some? <==> x.mtimeFault.Some?)
            && (o.error.None? ==> o.ctx == CountFailure(c) && Collected(c, w.files.outbox, x.gitStatusAll, o.ctx))
  {
    hide CheckWorkspace, TakeVerdict, OutboxUntouched, Clean;
    MovedIs(c, w.files.outbox);
    hide Moved;
  }

  /** When a collection fails: only on a failing call, and only on one that it makes. */
  ghost predicate CollectFails(c: Ctx, outbox: Option<File>, x: ReviewerCollectInput)
  {
    || x.mtimeFault.Some?
    || (&& Moved(c, outbox) && (c.reviewResult.Some? || TextOf(outbox).Some?)
        && (x.snapshotFault.Some? || (HasJudged(c, outbox) && x.statusFault.Some?)))
  }

  lemma CollectErrors(c: Ctx, w: World, x: ReviewerCollectInput)
    requires c.runState.ReviewerOutputCollect?
    ensures var o := DoReviewerOutputCollect(c, w, x);
            && (o.error.Some? <==> CollectFails(c, w.files.outbox, x))
            && (o.error.None? ==> Collected(c, w.files.outbox, x.gitStatusAll, o.ctx))
  {
    hide Moved, Reads, Clean, Collected, DoReviewerOutputCollect;
    if !Moved(c, w.files.outbox) || (c.reviewResult.None? && TextOf(w.files.outbox).None?) {
      UnreadOutcome(c, w, x);
    } else if c.reviewResult.Some? {
      StoredOutcome(c, w, x);
    } else {
      ReadOutcome(c, w, x);
    }
  }

  /**
   * An untroubled collection never ends the run. It goes to the gate exactly when the outbox moved, a
   * verdict is stored or some valid one can be read, and the workspace is clean; otherwise, so also when a
   * report is rejected, it counts a failure and asks for a retry.
   */
  lemma CollectOutcome(me: nat, c: Ctx, i: Input)
    requires c.runState.ReviewerOutputCollect? && !i.cancelled && Untroubled(i.reviewerCollect)
    ensures Wf(c)
    ensures Collected(c, i.world.files.outbox, i.reviewerCollect.gitStatusAll, Next(me, c, i).ctx)
  {
    hide DoReviewerOutputCollect, Collected, Moved, Reads;
    CollectErrors(c, i.world, i.reviewerCollect);
  }

  // ---- cancellation ----

  /** A cancel seen between two iterations aborts the run at once, in every live state. */
  lemma CancelOutcome(me: nat, c: Ctx, i: Input)
    requires Wf(c) && i.cancelled
    ensures Next(me, c, i) ==
            Sys(if c.runState.IsTerminal() then c else c.(runState := RunAborted), i.world)
  {
  }

  // ---- status lines ----

  /** The path of a status line is what follows its first three characters, without white space around. */
  lemma PathOutcome(line: string, i: nat, j: nat)
    requires 3 <= i < j <= |line| && !IsSpace(line[i]) && !IsSpace(line[j - 1])
    requires forall k :: 3 <= k < i || j <= k < |line| ==> IsSpace(line[k])
    ensures PathPart(line) == line[i..j]
  {
    TrimIs(line[3..], i - 3, j - 3);
    assert line[3..][i - 3..j - 3] == line[i..j];
  }

  /** A line of three characters or fewer is taken as a whole. */
  lemma ShortPathOutcome(line: string, i: nat, j: nat)
    requires i < j <= |line| <= 3 && !IsSpace(line[i]) && !IsSpace(line[j - 1])
    requires forall k :: 0 <= k < i || j <= k < |line| ==> IsSpace(line[k])
    ensures PathPart(line) == line[i..j]
  {
    TrimIs(line, i, j);
  }
}
