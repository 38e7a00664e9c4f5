/** One probe cycle of the monitor, as a function of the attempt and of what the probe saw. */
module Probing {
  import opened Base
  import opened State
  import opened YamlCheck
  import Fsm
  import Workflow

  // Where, within one loop iteration, the operator's cancel flag is first seen.
  datatype Cancel = NotCancelled | AtLoopHead | AtSnapshot

  /** Everything the environment shows to one probe. */
  datatype Probe = Probe(
    now: int,
    cancel: Cancel,
    childExited: bool,
    fault: Option<Fault>,
    alive: bool,
    children: bool,
    gitStatus: string,
    gitHead: string,
    outbox: Option<File>,
    logMtime: Option<int>,
    artifacts: map<string, bool>,
    matched: set<ErrorClass>,
    claudeCap: bool)

  /** The fixed facts of one monitor call. */
  datatype Setting = Setting(workflow: WorkflowType, provider: Provider, role: Role, parse: Parser)

  // ---- provider errors ----

  /** The class order of the text classifier, given which catalogs match the diagnostics. */
  function ClassifyProviderError(matched: set<ErrorClass>): Option<ErrorClass>
  {
    if ServiceCap in matched then Some(ServiceCap)
    else if Permission in matched then Some(Permission)
    else if Auth in matched then Some(Auth)
    else if Transport in matched then Some(Transport)
    else None
  }

  function DetectProviderError(st: Setting, p: Probe): Option<ErrorClass>
  {
    match ClassifyProviderError(p.matched)
    case Some(ServiceCap) => Some(ServiceCap)
    case Some(_) => None
    case None => if st.provider == Claude && p.claudeCap then Some(ServiceCap) else None
  }

  /** Only a service cap survives, and a matched non-fatal class masks the session-log fallback. */
  lemma OnlyServiceCapSurvives(st: Setting, p: Probe)
    ensures DetectProviderError(st, p) == None || DetectProviderError(st, p) == Some(ServiceCap)
    ensures DetectProviderError(st, p).Some? <==>
              ServiceCap in p.matched || (p.matched == {} && st.provider == Claude && p.claudeCap)
  {
    if ClassifyProviderError(p.matched).None? {
      forall e ensures e !in p.matched {
        match e case ServiceCap => case Permission => case Auth => case Transport =>
      }
    }
  }

  // ---- signals and baselines ----

  function NoteExit(a: Attempt, p: Probe): Attempt
  {
    if p.childExited then a.(pid := None) else a
  }

  predicate ProcessAlive(a: Attempt, p: Probe)
  {
    a.pid.Some? && p.alive
  }

  predicate LogChanged(a: Attempt, p: Probe)
  {
    p.logMtime.Some? && (a.prevProbeLogMtime.Some? ==> p.logMtime.value != a.prevProbeLogMtime.value)
  }

  predicate WorkSignalsChanged(a: Attempt, p: Probe)
  {
    || Sha256Hex(p.gitStatus) != a.prevProbeGitStatusHash
    || p.gitHead != a.prevProbeGitHead
    || Meta(p.outbox) != a.prevProbeOutboxMeta
    || LogChanged(a, p)
    || (a.pid.Some? && p.children)
  }

  function RecordBaselines(a: Attempt, p: Probe): Attempt
  {
    a.(prevProbeGitStatusHash := Sha256Hex(p.gitStatus),
       prevProbeGitHead := p.gitHead,
       prevProbeOutboxMeta := Meta(p.outbox),
       prevProbeLogMtime := p.logMtime,
       providerLogEverSeen := a.providerLogEverSeen || p.logMtime.Some?)
  }

  /** The log age test: an mtime in the future has no age. */
  predicate LogAged(p: Probe)
  {
    && p.logMtime.Some?
    && p.logMtime.value <= p.now
    && WholeSeconds(p.now - p.logMtime.value) >= HANG_CONFIRM_SEC
  }

  predicate ProviderStale(a: Attempt, p: Probe)
  {
    || (a.providerLogEverSeen && p.logMtime.None?)
    || (a.Exited() && !a.providerLogEverSeen)
    || LogAged(p)
  }

  // ---- grace periods ----

  predicate GitDirty(a: Attempt, p: Probe)
  {
    Sha256Hex(p.gitStatus) != a.dispatchGitStatusHash
  }

  predicate GitCommitted(a: Attempt, p: Probe)
  {
    p.gitHead != a.dispatchGitHead
  }

  predicate OutboxFilled(p: Probe)
  {
    NonEmpty(Meta(p.outbox))
  }

  function ApplyGraceTransitions(dirty: bool, committed: bool, outboxPresent: bool,
                                 commit: Option<int>, outbox: Option<int>, now: int)
    : (Option<int>, Option<int>)
  {
    if outboxPresent then (None, None)
    else if committed then
      (None, if outbox.None? then Some(now + Seconds(OUTBOX_GRACE_SEC)) else outbox)
    else if dirty && commit.None? && outbox.None? then
      (Some(now + Seconds(COMMIT_GRACE_SEC)), outbox)
    else (commit, outbox)
  }

  function UpdateGracePeriods(a: Attempt, p: Probe): Attempt
  {
    var (commit, outbox) := ApplyGraceTransitions(
      GitDirty(a, p), GitCommitted(a, p), OutboxFilled(p), a.graceUntilCommit, a.graceUntilOutbox, p.now);
    a.(graceUntilCommit := commit, graceUntilOutbox := outbox)
  }

  // ---- contracts ----

  predicate CheckSuccessContract(a: Attempt, p: Probe)
  {
    a.Exited() && OutboxFilled(p)
  }

  predicate CheckSoftSuccessContract(st: Setting, a: Attempt, p: Probe)
  {
    && st.role == Executor
    && a.Exited()
    && a.GraceDeadline().Some? && p.now >= a.GraceDeadline().value
    && !OutboxFilled(p)
    && match st.workflow
       case Plan => Workflow.Present(p.artifacts, "PLAN.md")
       case Investigate => Workflow.Present(p.artifacts, "INVESTIGATION.md")
       case Implement => true
  }

  predicate CheckProtocolInvalid(st: Setting, a: Attempt, p: Probe)
  {
    if st.role == Executor || !a.Exited() then false
    else if p.outbox.Some? && p.outbox.value.body.Text? && !IsBlank(p.outbox.value.body.text) then
      ParseReviewerYaml(st.parse, p.outbox.value.body.text).Err?
    else true
  }

  /** A non-empty outbox written at or after this dispatch. */
  predicate OutboxFresh(a: Attempt, p: Probe)
  {
    OutboxFilled(p) && p.outbox.value.mtime >= a.dispatchTs
  }

  // ---- one probe ----

  /** Baselines and, for the executor, grace periods after this probe's signals. */
  function Refresh(st: Setting, a: Attempt, p: Probe): Attempt
  {
    var b := RecordBaselines(NoteExit(a, p), p);
    if st.role == Executor then UpdateGracePeriods(b, p) else b
  }

  function TakeSnapshot(st: Setting, a: Attempt, p: Probe): ProbeSnapshot
  {
    var before := NoteExit(a, p);
    var b := Refresh(st, a, p);
    ProbeSnapshot(
      p.cancel == AtSnapshot,
      b.Exited(),
      ProcessAlive(b, p),
      OutboxFresh(b, p),
      DetectProviderError(st, p),
      CheckSuccessContract(b, p),
      CheckSoftSuccessContract(st, b, p),
      CheckProtocolInvalid(st, b, p),
      !ProviderStale(b, p),
      WorkSignalsChanged(before, p),
      b.lastWorkSignalTs,
      ProviderStale(b, p),
      b.GraceDeadline(),
      WholeSeconds(p.now - b.dispatchTs) >= HANG_MAX_WITH_WORK_SIGNALS_SEC)
  }

  function ProbeClass(st: Setting, a: Attempt, p: Probe): AttemptState
  {
    Fsm.Classify(TakeSnapshot(st, a, p), p.now)
  }

  /** The attempt after the probe is classified and before it is routed. */
  function Classified(st: Setting, a: Attempt, p: Probe): Attempt
  {
    Refresh(st, a, p).(
      state := ProbeClass(st, a, p),
      lastWorkSignalTs := if WorkSignalsChanged(NoteExit(a, p), p) then Some(p.now) else a.lastWorkSignalTs,
      nextProbeAt := p.now + Seconds(PROBE_INTERVAL_SEC))
  }

  /** The finalizing child outlived its report by the kill window. */
  predicate FinalizeExpired(a: Attempt, p: Probe)
  {
    && p.outbox.Some?
    && p.outbox.value.mtime >= a.dispatchTs
    && p.now >= p.outbox.value.mtime + Seconds(OUTBOX_FINALIZING_KILL_SEC)
  }

  predicate KillsFinalizing(st: Setting, a: Attempt, p: Probe)
  {
    ProbeClass(st, a, p) == Finalizing && FinalizeExpired(a, p)
  }

  /** The attempt the next probe starts from. */
  function ProbeAttempt(st: Setting, a: Attempt, p: Probe): Attempt
  {
    var b := Classified(st, a, p);
    if KillsFinalizing(st, a, p) then b.(pid := None) else b
  }

  /** The classes that end the monitor call. */
  predicate Leaves(s: AttemptState)
  {
    || s.Success? || s.SoftSuccess? || s.FailedServiceCap? || s.FailedProviderAccess?
    || s.FailedTransport? || s.FailedSilent? || s.FailedProtocol? || s.HangConfirmed? || s.Cancelled?
  }

  // ---- probe sequences ----

  // One attempt under observation: probe k starts from attempts[k].
  datatype Watch = Watch(attempts: seq<Attempt>, probes: seq<Probe>)

  predicate WellSized(t: Watch)
  {
    |t.attempts| == |t.probes| + 1
  }

  predicate Stepped(st: Setting, t: Watch, k: nat)
    requires WellSized(t) && k < |t.probes|
  {
    t.attempts[k + 1] == ProbeAttempt(st, t.attempts[k], t.probes[k])
  }

  /** The attempts are those the probes produce, one after the other. */
  predicate IsWatch(st: Setting, t: Watch)
  {
    WellSized(t) && forall k :: 0 <= k < |t.probes| ==> Stepped(st, t, k)
  }

  /** Every probe sequence can be watched from every attempt. */
  function WatchOf(st: Setting, a: Attempt, ps: seq<Probe>): (t: Watch)
    ensures IsWatch(st, t) && t.probes == ps && t.attempts[0] == a
  {
    if ps == [] then Watch([a], [])
    else
      var last := |ps| - 1;
      var t := WatchOf(st, a, ps[..last]);
      var r := Watch(t.attempts + [ProbeAttempt(st, t.attempts[last], ps[last])], ps);
      assert forall k :: 0 <= k < last ==> Stepped(st, t, k) ==> Stepped(st, r, k);
      assert Stepped(st, r, last);
      r
  }

  function ClassAt(st: Setting, t: Watch, n: nat): AttemptState
    requires WellSized(t) && n < |t.probes|
  {
    ProbeClass(st, t.attempts[n], t.probes[n])
  }

  /** Probe n found a work signal. */
  predicate SignalAt(t: Watch, n: nat)
    requires WellSized(t) && n < |t.probes|
  {
    WorkSignalsChanged(NoteExit(t.attempts[n], t.probes[n]), t.probes[n])
  }

  /** What the classifier sees of the attempt at probe n. */
  function RefreshedAt(st: Setting, t: Watch, n: nat): Attempt
    requires WellSized(t) && n < |t.probes|
  {
    Refresh(st, t.attempts[n], t.probes[n])
  }

  /** An attempt exactly as dispatch leaves it. */
  predicate Fresh(a: Attempt)
  {
    && a.lastWorkSignalTs == Some(a.dispatchTs)
    && a.graceUntilCommit == None && a.graceUntilOutbox == None
    && !a.providerLogEverSeen && a.prevProbeLogMtime == None && a.prevProbeOutboxMeta == None
    && a.prevProbeGitStatusHash == a.dispatchGitStatusHash
    && a.prevProbeGitHead == a.dispatchGitHead
    && a.pid.Some?
  }

  /** The clock never runs backwards from dispatch on. */
  predicate Monotone(t: Watch)
    requires WellSized(t)
  {
    && (forall i :: 0 <= i < |t.probes| ==> t.attempts[0].dispatchTs <= t.probes[i].now)
    && (forall i, j :: 0 <= i <= j < |t.probes| ==> t.probes[i].now <= t.probes[j].now)
  }

  /** A watch that starts at dispatch, on a clock that never runs backwards. */
  predicate FromDispatch(st: Setting, t: Watch)
  {
    IsWatch(st, t) && Fresh(t.attempts[0]) && Monotone(t)
  }

  /** What one probe does to the attempt, field by field. */
  lemma StepFacts(st: Setting, a: Attempt, p: Probe)
    ensures var b := ProbeAttempt(st, a, p);
            && b.role == a.role && b.dispatchTs == a.dispatchTs
            && b.requestFingerprint == a.requestFingerprint
            && b.preReviewerOutboxMtime == a.preReviewerOutboxMtime
            && b.dispatchGitStatusHash == a.dispatchGitStatusHash
            && b.dispatchGitHead == a.dispatchGitHead
            && b.prevProbeGitStatusHash == Sha256Hex(p.gitStatus)
            && b.prevProbeGitHead == p.gitHead
            && b.prevProbeOutboxMeta == Meta(p.outbox)
            && b.prevProbeLogMtime == p.logMtime
            && b.providerLogEverSeen == (a.providerLogEverSeen || p.logMtime.Some?)
            && b.lastWorkSignalTs ==
                 (if WorkSignalsChanged(NoteExit(a, p), p) then Some(p.now) else a.lastWorkSignalTs)
            && b.pid == (if p.childExited || KillsFinalizing(st, a, p) then None else a.pid)
            && (b.graceUntilCommit, b.graceUntilOutbox) ==
                 (if st.role == Reviewer then (a.graceUntilCommit, a.graceUntilOutbox)
                  else ApplyGraceTransitions(GitDirty(a, p), GitCommitted(a, p), OutboxFilled(p),
                                             a.graceUntilCommit, a.graceUntilOutbox, p.now))
  {
    hide ProbeClass, WorkSignalsChanged, OutboxFilled, ApplyGraceTransitions, FinalizeExpired;
  }

  /** The refreshed attempt that the classifier sees, field by field. */
  lemma RefreshFacts(st: Setting, a: Attempt, p: Probe)
    ensures var b, c := Refresh(st, a, p), ProbeAttempt(st, a, p);
            && b.dispatchTs == a.dispatchTs
            && b.lastWorkSignalTs == a.lastWorkSignalTs
            && b.providerLogEverSeen == (a.providerLogEverSeen || p.logMtime.Some?)
            && b.pid == (if p.childExited then None else a.pid)
            && b.graceUntilCommit == c.graceUntilCommit && b.graceUntilOutbox == c.graceUntilOutbox
  {
    hide ProbeClass, WorkSignalsChanged, OutboxFilled, ApplyGraceTransitions, FinalizeExpired;
  }

  /** The grace window of the refreshed attempt b is still open at this probe. */
  predicate WindowOpen(b: Attempt, p: Probe)
  {
    b.GraceDeadline().Some? && p.now < b.GraceDeadline().value
  }

  /** The classifier's verdict on a live child, from the refreshed attempt. */
  lemma ClassOfLive(st: Setting, a: Attempt, p: Probe)
    requires p.cancel != AtSnapshot && DetectProviderError(st, p).None? && !Refresh(st, a, p).Exited()
    ensures var b := Refresh(st, a, p);
            && (ProbeClass(st, a, p) == HangConfirmed <==>
                  && !WindowOpen(b, p) && ProviderStale(b, p)
                  && (|| WholeSeconds(p.now - b.dispatchTs) >= HANG_MAX_WITH_WORK_SIGNALS_SEC
                      || (p.alive && b.lastWorkSignalTs.Some?
                          && WholeSeconds(p.now - b.lastWorkSignalTs.value) >= HANG_CONFIRM_SEC)))
            && (ProbeClass(st, a, p) == Finalizing <==>
                  ProbeClass(st, a, p) != HangConfirmed && !WindowOpen(b, p) && p.alive && OutboxFresh(b, p))
            && (ProbeClass(st, a, p) == Running <==>
                  ProbeClass(st, a, p) != HangConfirmed && ProbeClass(st, a, p) != Finalizing
                  && !WindowOpen(b, p) && WorkSignalsChanged(NoteExit(a, p), p))
            && (ProbeClass(st, a, p) == WaitingOutput <==>
                  WindowOpen(b, p)
                  || (p.alive && ProbeClass(st, a, p) != HangConfirmed && ProbeClass(st, a, p) != Finalizing
                      && ProbeClass(st, a, p) != Running))
            && (Leaves(ProbeClass(st, a, p)) <==> ProbeClass(st, a, p) == HangConfirmed)
  {
    hide Refresh, ProviderStale, OutboxFilled, WorkSignalsChanged, WholeSeconds;
    hide DetectProviderError;
  }

  /** The classifier's verdict on an exited child, from the refreshed attempt. */
  lemma ClassOfExited(st: Setting, a: Attempt, p: Probe)
    requires p.cancel != AtSnapshot && DetectProviderError(st, p).None? && Refresh(st, a, p).Exited()
    ensures var b := Refresh(st, a, p);
            && (ProbeClass(st, a, p) == Success <==> OutboxFilled(p))
            && (ProbeClass(st, a, p) == SoftSuccess <==> CheckSoftSuccessContract(st, b, p))
            && (ProbeClass(st, a, p) == FailedProtocol <==>
                  st.role == Reviewer && !OutboxFilled(p) && !WindowOpen(b, p)
                  && (ProviderStale(b, p) || b.GraceDeadline().Some?))
            && (ProbeClass(st, a, p) == FailedSilent <==>
                  st.role == Executor && !OutboxFilled(p) && !CheckSoftSuccessContract(st, b, p)
                  && !WindowOpen(b, p) && ProviderStale(b, p))
            && ProbeClass(st, a, p) != HangConfirmed && ProbeClass(st, a, p) != Finalizing
            && (ProbeClass(st, a, p) == WaitingOutput <==> !Leaves(ProbeClass(st, a, p)))
  {
    hide Refresh, ProviderStale, WorkSignalsChanged, WholeSeconds, DetectProviderError, CheckProtocolInvalid;
    hide Workflow.Present, OutboxFilled;
    EmptyIsInvalid(st, Refresh(st, a, p), p);
  }

  /** An exited reviewer without a report always fails the document check. */
  lemma EmptyIsInvalid(st: Setting, a: Attempt, p: Probe)
    ensures CheckProtocolInvalid(st, a, p) ==> st.role == Reviewer
    ensures st.role == Reviewer && a.Exited() && !OutboxFilled(p) ==> CheckProtocolInvalid(st, a, p)
  {
    hide ParseReviewerYaml;
  }

  /** A cancel seen at the snapshot, or else a service cap, settles the class at once. */
  lemma ClassOfPreempted(st: Setting, a: Attempt, p: Probe)
    ensures ProbeClass(st, a, p) == Cancelled <==> p.cancel == AtSnapshot
    ensures ProbeClass(st, a, p) == FailedServiceCap <==>
              p.cancel != AtSnapshot && DetectProviderError(st, p).Some?
    ensures ProbeClass(st, a, p) != FailedProviderAccess && ProbeClass(st, a, p) != FailedTransport
  {
    OnlyServiceCapSurvives(st, p);
    hide Refresh, ProviderStale, OutboxFilled, WorkSignalsChanged, WholeSeconds, DetectProviderError;
  }

  lemma SoftIsAllowed(st: Setting, a: Attempt, p: Probe)
    requires CheckSoftSuccessContract(st, a, p)
    ensures Workflow.SoftSuccessAllowed(st.workflow, p.artifacts) && st.role == Executor
  {
    hide OutboxFilled;
  }

  /** What each class says about the child and, for soft success, about the artifact. */
  lemma ClassFacts(st: Setting, a: Attempt, p: Probe)
    ensures var s, exited := ProbeClass(st, a, p), p.childExited || a.Exited();
            && s != FailedProviderAccess && s != FailedTransport
            && (s == Success || s == SoftSuccess || s == FailedSilent || s == FailedProtocol ==> exited)
            && (s == Finalizing || s == HangConfirmed ==> !exited)
            && (s == Success ==> OutboxFilled(p))
            && (s == SoftSuccess ==> Workflow.SoftSuccessAllowed(st.workflow, p.artifacts) && st.role == Executor)
            && (s == Finalizing ==> OutboxFresh(a, p) && a.pid.Some? && p.alive)
            && s != TerminatingStale && s != RetryPending && s != RetryExhausted && s != Dispatching
  {
    hide Refresh, ProbeClass, ProviderStale, OutboxFilled, WorkSignalsChanged, WholeSeconds, DetectProviderError;
    hide CheckSoftSuccessContract, Workflow.SoftSuccessAllowed, WindowOpen, Leaves;
    RefreshFacts(st, a, p);
    ClassOfPreempted(st, a, p);
    if p.cancel != AtSnapshot && DetectProviderError(st, p).None? {
      if Refresh(st, a, p).Exited() {
        ClassOfExited(st, a, p);
        if CheckSoftSuccessContract(st, Refresh(st, a, p), p) {
          SoftIsAllowed(st, Refresh(st, a, p), p);
        }
      } else {
        ClassOfLive(st, a, p);
      }
    }
    ClassRange(st, a, p);
  }

  lemma ClassRange(st: Setting, a: Attempt, p: Probe)
    ensures var s := ProbeClass(st, a, p);
            && s != TerminatingStale && s != RetryPending && s != RetryExhausted && s != Dispatching
            && (s == FailedSilent || s == FailedProtocol || s == SoftSuccess || s == Success ==>
                  s == FailedProtocol || Refresh(st, a, p).Exited())
            && (s == FailedProtocol ==> CheckProtocolInvalid(st, Refresh(st, a, p), p))
  {
    hide Refresh, ProviderStale, OutboxFilled, WorkSignalsChanged, WholeSeconds, DetectProviderError;
    hide CheckProtocolInvalid, Workflow.Present;
  }

  /** The classified attempt, field by field. */
  lemma ClassifiedFacts(st: Setting, a: Attempt, p: Probe)
    ensures var b := Classified(st, a, p);
            && b.role == a.role && b.dispatchTs == a.dispatchTs
            && b.requestFingerprint == a.requestFingerprint
            && b.preReviewerOutboxMtime == a.preReviewerOutboxMtime
            && b.pid == (if p.childExited then None else a.pid)
            && b.state == ProbeClass(st, a, p)
            && b.nextProbeAt == p.now + Seconds(1)
            && ProbeAttempt(st, a, p) ==
                 (if b.state == Finalizing && FinalizeExpired(b, p) then b.(pid := None) else b)
  {
    hide ProbeClass, WorkSignalsChanged, OutboxFilled, ApplyGraceTransitions;
  }

  /** What no probe ever changes. */
  lemma {:induction false} Frozen(st: Setting, t: Watch, n: nat)
    requires IsWatch(st, t) && n <= |t.probes|
    ensures var a, b := t.attempts[0], t.attempts[n];
            && b.dispatchTs == a.dispatchTs && b.role == a.role
            && b.requestFingerprint == a.requestFingerprint
            && b.preReviewerOutboxMtime == a.preReviewerOutboxMtime
            && b.dispatchGitStatusHash == a.dispatchGitStatusHash
            && b.dispatchGitHead == a.dispatchGitHead
            && (st.role == Reviewer ==>
                  b.graceUntilCommit == a.graceUntilCommit && b.graceUntilOutbox == a.graceUntilOutbox)
  {
    hide ProbeAttempt;
    if n == 0 {
    } else {
      Frozen(st, t, n - 1);
      assert Stepped(st, t, n - 1);
      StepFacts(st, t.attempts[n - 1], t.probes[n - 1]);
    }
  }
}
