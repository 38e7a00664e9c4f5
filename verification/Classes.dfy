/** The class of every probe, over the history of its attempt and in terms of what the probes saw. */
module Classes {
  import opened Base
  import opened State
  import opened Probing
  import opened Grace
  import opened Response
  import Workflow

  /** The probe sees a non-empty report. */
  predicate Report(p: Probe)
  {
    p.outbox.Some? && p.outbox.value.body != Text("") && p.outbox.value.body != Binary(0)
  }

  lemma ReportIs(p: Probe)
    ensures Report(p) <==> OutboxFilled(p)
  {
  }

  /** Neither the operator nor a service cap decides this probe. */
  predicate Undecided(st: Setting, p: Probe)
  {
    && p.cancel != AtSnapshot
    && !(ServiceCap in p.matched || (p.matched == {} && st.provider == Claude && p.claudeCap))
  }

  lemma UndecidedIs(st: Setting, p: Probe)
    ensures Undecided(st, p) <==> p.cancel != AtSnapshot && DetectProviderError(st, p).None?
  {
    hide DetectProviderError;
    OnlyServiceCapSurvives(st, p);
  }

  /** No log, or one that is at least 420 s old: for an exited child there is nothing to wait for. */
  predicate LogQuiet(p: Probe)
  {
    p.logMtime.Some? ==> p.now - p.logMtime.value >= Seconds(420)
  }

  /** The window that counts at probe n. */
  function Deadline(t: Watch, n: nat): Option<int>
    requires WellSized(t) && n < |t.probes|
  {
    var a := t.attempts[n + 1];
    if a.graceUntilOutbox.Some? then a.graceUntilOutbox else a.graceUntilCommit
  }

  predicate Open(t: Watch, n: nat)
    requires WellSized(t) && n < |t.probes|
  {
    Deadline(t, n).Some? && t.probes[n].now < Deadline(t, n).value
  }

  predicate Passed(t: Watch, n: nat)
    requires WellSized(t) && n < |t.probes|
  {
    Deadline(t, n).Some? && t.probes[n].now >= Deadline(t, n).value
  }

  /** The artifact that excuses a missing report in this workflow is there. */
  predicate ArtifactThere(wf: WorkflowType, artifacts: map<string, bool>)
  {
    match wf
    case Plan => "PLAN.md" in artifacts && artifacts["PLAN.md"]
    case Investigate => "INVESTIGATION.md" in artifacts && artifacts["INVESTIGATION.md"]
    case Implement => true
  }

  lemma DeadlineIs(st: Setting, t: Watch, n: nat)
    requires IsWatch(st, t) && n < |t.probes|
    ensures Deadline(t, n) == RefreshedAt(st, t, n).GraceDeadline()
    ensures Open(t, n) <==> WindowOpen(RefreshedAt(st, t, n), t.probes[n])
  {
    hide ProbeAttempt, Refresh;
    assert Stepped(st, t, n);
    RefreshFacts(st, t.attempts[n], t.probes[n]);
  }

  lemma QuietIs(st: Setting, t: Watch, n: nat)
    requires IsWatch(st, t) && n < |t.probes| && RefreshedAt(st, t, n).Exited()
    ensures ProviderStale(RefreshedAt(st, t, n), t.probes[n]) <==> LogQuiet(t.probes[n])
  {
    hide ProbeAttempt, Refresh;
    RefreshFacts(st, t.attempts[n], t.probes[n]);
  }

  lemma SoftIs(st: Setting, t: Watch, n: nat)
    requires IsWatch(st, t) && n < |t.probes| && RefreshedAt(st, t, n).Exited()
    ensures CheckSoftSuccessContract(st, RefreshedAt(st, t, n), t.probes[n]) <==>
              st.role == Executor && !Report(t.probes[n]) && Passed(t, n)
              && ArtifactThere(st.workflow, t.probes[n].artifacts)
  {
    hide ProbeAttempt, Refresh, OutboxFilled, Report;
    DeadlineIs(st, t, n);
    ReportIs(t.probes[n]);
  }

  /**
   * The class of an exited child. A report is success. Without one: an executor whose window has passed
   * and whose artifact is there succeeds softly; otherwise, while a window is open or the log is fresh it
   * is waited for, and after that it has failed, silently for an executor, against the protocol for a
   * reviewer.
   */
  lemma ExitedExact(st: Setting, t: Watch, n: nat)
    requires StartsClosed(st, t) && n < |t.probes|
    requires RefreshedAt(st, t, n).Exited() && Undecided(st, t.probes[n])
    ensures var s, p := ClassAt(st, t, n), t.probes[n];
            var soft := st.role == Executor && Passed(t, n) && ArtifactThere(st.workflow, p.artifacts);
            s == (if Report(p) then Success
                  else if soft then SoftSuccess
                  else if Open(t, n) || !LogQuiet(p) then WaitingOutput
                  else if st.role == Executor then FailedSilent
                  else FailedProtocol)
  {
    hide ProbeClass, Refresh, ProbeAttempt, ProviderStale, CheckSoftSuccessContract, OutboxFilled, Report;
    hide WindowOpen, LogQuiet, ArtifactThere, DetectProviderError;
    var a, p := t.attempts[n], t.probes[n];
    UndecidedIs(st, p);
    ClassOfExited(st, a, p);
    ClassOfPreempted(st, a, p);
    ClassRange(st, a, p);
    DeadlineIs(st, t, n);
    QuietIs(st, t, n);
    SoftIs(st, t, n);
    ReportIs(p);
    AtMostOneWindow(st, t, n + 1);
  }

  /** The class of a running child that does not hang. */
  lemma RunningExact(st: Setting, t: Watch, n: nat)
    requires FromDispatch(st, t) && n < |t.probes|
    requires !RefreshedAt(st, t, n).Exited() && Undecided(st, t.probes[n]) && ClassAt(st, t, n) != HangConfirmed
    ensures ClassAt(st, t, n) ==
            (if Open(t, n) then WaitingOutput
             else if t.probes[n].alive && ReportAt(t, n) then Finalizing
             else if SignalAt(t, n) then Running
             else if t.probes[n].alive then WaitingOutput
             else Unknown)
  {
    hide ProbeClass, Refresh, ProbeAttempt, ProviderStale, WindowOpen, DetectProviderError, WorkSignalsChanged;
    var a, p := t.attempts[n], t.probes[n];
    UndecidedIs(st, p);
    ClassOfLive(st, a, p);
    ClassOfPreempted(st, a, p);
    ClassRange(st, a, p);
    DeadlineIs(st, t, n);
    Frozen(st, t, n);
    RefreshFacts(st, a, p);
  }

  /** The child is stopped while finalizing exactly when its report, written since dispatch, is 60 s old. */
  lemma KillExact(st: Setting, t: Watch, n: nat)
    requires FromDispatch(st, t) && n < |t.probes|
    ensures KillsFinalizing(st, t.attempts[n], t.probes[n]) <==>
              && Undecided(st, t.probes[n]) && !RefreshedAt(st, t, n).Exited()
              && ClassAt(st, t, n) != HangConfirmed && t.probes[n].alive && OldReportAt(t, n)
  {
    hide ProbeClass, Refresh, ProbeAttempt, ProviderStale, DetectProviderError, Undecided;
    var a, p := t.attempts[n], t.probes[n];
    UndecidedIs(st, p);
    ClassOfPreempted(st, a, p);
    ClassFacts(st, a, p);
    RefreshFacts(st, a, p);
    Frozen(st, t, n);
    if Undecided(st, p) && !RefreshedAt(st, t, n).Exited() {
      ClassOfLive(st, a, p);
      DeadlineIs(st, t, n);
      AtMostOneWindow(st, t, n + 1);
    }
  }

  /** A child counts as exited exactly when a probe found it dead or an earlier probe stopped it. */
  lemma {:induction false} ExitedIff(st: Setting, t: Watch, n: nat)
    requires IsWatch(st, t) && t.attempts[0].pid.Some? && n < |t.probes|
    ensures RefreshedAt(st, t, n).Exited() <==>
              || (exists k :: 0 <= k <= n && t.probes[k].childExited)
              || (exists k :: 0 <= k < n && KillsFinalizing(st, t.attempts[k], t.probes[k]))
  {
    hide ProbeAttempt, Refresh, KillsFinalizing;
    RefreshFacts(st, t.attempts[n], t.probes[n]);
    if n == 0 {
    } else {
      var m := n - 1;
      ExitedIff(st, t, m);
      assert Stepped(st, t, m);
      StepFacts(st, t.attempts[m], t.probes[m]);
      RefreshFacts(st, t.attempts[m], t.probes[m]);
    }
  }
}
