/** How soon a monitor call answers once the world has gone quiet, and when it never does. */
module Response {
  import opened Base
  import opened State
  import opened Probing
  import opened HangSafety
  import Grace

  /** From probe m to probe n git, outbox and log stand still, and no file time lies in the future. */
  predicate Quiet(t: Watch, m: nat, n: nat)
    requires m <= n < |t.probes|
  {
    && (forall k :: m <= k <= n ==>
          && t.probes[k].gitStatus == t.probes[m].gitStatus && t.probes[k].gitHead == t.probes[m].gitHead
          && t.probes[k].outbox == t.probes[m].outbox && t.probes[k].logMtime == t.probes[m].logMtime)
    && (t.probes[m].logMtime.Some? ==> t.probes[m].logMtime.value <= t.probes[m].now)
    && (t.probes[m].outbox.Some? ==> t.probes[m].outbox.value.mtime <= t.probes[m].now)
  }

  /** The answer is due at probe n: 420 s of quiet and 2400 s since dispatch. */
  predicate Due(t: Watch, m: nat, n: nat)
    requires WellSized(t) && m <= n < |t.probes|
  {
    t.probes[n].now - t.probes[m].now >= Seconds(420) && Age(t, n) >= Seconds(2400)
  }

  predicate LogSeenBy(t: Watch, n: nat)
    requires n < |t.probes|
  {
    exists k :: 0 <= k <= n && t.probes[k].logMtime.Some?
  }

  /** A non-empty outbox at probe n, written since dispatch. */
  predicate ReportAt(t: Watch, n: nat)
    requires WellSized(t) && n < |t.probes|
  {
    var f := t.probes[n].outbox;
    f.Some? && f.value.body.Size() > 0 && f.value.mtime >= t.attempts[0].dispatchTs
  }

  /** In quiet the windows settle at the first quiet probe. */
  lemma {:induction false} WindowsSettle(st: Setting, t: Watch, m: nat, n: nat)
    requires IsWatch(st, t) && m <= n < |t.probes| && Quiet(t, m, n)
    ensures t.attempts[m + 1].graceUntilCommit == t.attempts[n + 1].graceUntilCommit
    ensures t.attempts[m + 1].graceUntilOutbox == t.attempts[n + 1].graceUntilOutbox
    decreases n
  {
    hide ProbeAttempt;
    assert Stepped(st, t, n);
    StepFacts(st, t.attempts[n], t.probes[n]);
    if m == n {
    } else {
      assert Stepped(st, t, n - 1);
      StepFacts(st, t.attempts[n - 1], t.probes[n - 1]);
      WindowsSettle(st, t, m, n - 1);
      Frozen(st, t, n - 1);
      Frozen(st, t, n);
    }
  }

  /** No window is still open when the answer is due. */
  lemma NoWindowWhenDue(st: Setting, t: Watch, m: nat, n: nat)
    requires FromDispatch(st, t) && m <= n < |t.probes| && Quiet(t, m, n) && Due(t, m, n)
    ensures !WindowOpen(RefreshedAt(st, t, n), t.probes[n])
  {
    hide ProbeAttempt, Refresh;
    WindowsSettle(st, t, m, n);
    assert Stepped(st, t, n);
    RefreshFacts(st, t.attempts[n], t.probes[n]);
    if t.attempts[m + 1].GraceDeadline().Some? {
      var k := Grace.WindowOrigin(st, t, m + 1);
      assert t.probes[k].now <= t.probes[m].now;
    }
  }

  lemma LogStaleWhenDue(t: Watch, m: nat, n: nat)
    requires WellSized(t) && m <= n < |t.probes| && Quiet(t, m, n) && Due(t, m, n) && LogSeenBy(t, n)
    ensures LogStale(t, n)
  {
    if t.probes[n].logMtime.None? {
      var k :| 0 <= k <= n && t.probes[k].logMtime.Some?;
    }
  }

  /**
   * Bounded response. The first probe at which the answer is due ends the monitor call if the child
   * has exited or its log was ever seen.
   */
  lemma BoundedResponse(st: Setting, t: Watch, m: nat, n: nat)
    requires FromDispatch(st, t) && m <= n < |t.probes| && Quiet(t, m, n) && Due(t, m, n)
    requires RefreshedAt(st, t, n).Exited() || LogSeenBy(t, n)
    ensures Leaves(ClassAt(st, t, n))
  {
    hide ProbeClass, Refresh, ProbeAttempt;
    NoWindowWhenDue(st, t, m, n);
    var a, p := t.attempts[n], t.probes[n];
    RefreshFacts(st, a, p);
    LogSeenExact(st, t, n);
    ClassOfPreempted(st, a, p);
    if LogSeenBy(t, n) {
      LogStaleWhenDue(t, m, n);
    }
    if p.cancel != AtSnapshot && DetectProviderError(st, p).None? {
      if Refresh(st, a, p).Exited() {
        ClassOfExited(st, a, p);
        assert ProviderStale(Refresh(st, a, p), p);
      } else {
        HangExact(st, t, n);
      }
    }
  }

  /** Probe k shows a running child and no trouble. */
  predicate Undisturbed(st: Setting, t: Watch, k: nat)
    requires k < |t.probes|
  {
    && t.probes[k].cancel == NotCancelled
    && DetectProviderError(st, t.probes[k]).None?
    && !t.probes[k].childExited && t.probes[k].alive
  }

  /** At probe k the report written since dispatch has been there for the finalization window. */
  predicate OldReportAt(t: Watch, k: nat)
    requires WellSized(t) && k < |t.probes|
  {
    ReportAt(t, k) && t.probes[k].now - t.probes[k].outbox.value.mtime >= Seconds(60)
  }

  /** Some probe before n saw such a report. */
  predicate OldReportBefore(t: Watch, n: nat)
    requires WellSized(t) && n <= |t.probes|
  {
    exists k :: 0 <= k < n && OldReportAt(t, k)
  }

  /**
   * The hypotheses of the response bound are needed: a live child whose log was never seen and which let
   * no report since dispatch grow 60 s old is monitored for as long as that lasts, quiet or not.
   */
  lemma {:induction false} NeverSeenLogWaitsForever(st: Setting, t: Watch, n: nat)
    requires FromDispatch(st, t) && n < |t.probes|
    requires forall k :: 0 <= k <= n ==> Undisturbed(st, t, k)
    requires !OldReportBefore(t, n) && !LogSeenBy(t, n)
    ensures !Leaves(ClassAt(st, t, n)) && !RefreshedAt(st, t, n).Exited()
    ensures !ReportAt(t, n) ==> ClassAt(st, t, n) != Finalizing
  {
    hide ProbeClass, Refresh, ProbeAttempt;
    Frozen(st, t, n);
    if n == 0 {
    } else {
      assert !OldReportAt(t, n - 1);
      NeverSeenLogWaitsForever(st, t, n - 1);
      Frozen(st, t, n - 1);
      assert Stepped(st, t, n - 1);
      StepFacts(st, t.attempts[n - 1], t.probes[n - 1]);
      RefreshFacts(st, t.attempts[n - 1], t.probes[n - 1]);
      if KillsFinalizing(st, t.attempts[n - 1], t.probes[n - 1]) {
        FinalizingKill(st, t.attempts[n - 1], t.probes[n - 1], t.probes[n - 1]);
      }
    }
    assert Undisturbed(st, t, n);
    assert !LogStale(t, n);
    RefreshFacts(st, t.attempts[n], t.probes[n]);
    ClassOfLive(st, t.attempts[n], t.probes[n]);
    HangExact(st, t, n);
  }

  /** A second of a child that lives on without a trace: nothing written, nothing logged, nobody cancels. */
  function IdleProbe(a: Attempt, k: nat): Probe
  {
    Probe(a.dispatchTs + Seconds(k), NotCancelled, false, None, true, false, a.dispatchGitStatusHash.of,
          a.dispatchGitHead, None, None, map[], {}, false)
  }

  /**
   * Such waits exist, for every setting, from every dispatched attempt and of every length: the world
   * is quiet from the first probe on, from the 2401st probe on the answer is due, and it never comes.
   */
  lemma IdleWatch(st: Setting, a: Attempt, count: nat) returns (t: Watch)
    requires Fresh(a)
    ensures FromDispatch(st, t) && t.attempts[0] == a && |t.probes| == count
    ensures forall n :: 0 <= n < count ==> Quiet(t, 0, n) && (n >= 2400 ==> Due(t, 0, n))
    ensures forall n :: 0 <= n < count ==> !Leaves(ClassAt(st, t, n)) && !RefreshedAt(st, t, n).Exited()
  {
    hide ProbeClass, Refresh, ProbeAttempt;
    t := WatchOf(st, a, seq(count, k requires 0 <= k < count => IdleProbe(a, k)));
    forall n | 0 <= n < count
      ensures !Leaves(ClassAt(st, t, n)) && !RefreshedAt(st, t, n).Exited()
    {
      forall k | 0 <= k <= n ensures Undisturbed(st, t, k) && !ReportAt(t, k) {
        OnlyServiceCapSurvives(st, t.probes[k]);
      }
      NeverSeenLogWaitsForever(st, t, n);
    }
  }

  /** A report written since dispatch by a child that stays alive: killed at one due probe, success at the next. */
  lemma FreshReportIsCollected(st: Setting, t: Watch, m: nat, n: nat)
    requires FromDispatch(st, t) && m < n < |t.probes| && Quiet(t, m, n) && Due(t, m, n - 1)
    requires Undisturbed(st, t, n - 1) && Undisturbed(st, t, n) && ReportAt(t, n)
    ensures Leaves(ClassAt(st, t, n - 1)) || Leaves(ClassAt(st, t, n))
  {
    hide ProbeClass, Refresh, ProbeAttempt;
    var a, b, p := t.attempts[n - 1], t.attempts[n], t.probes[n - 1];
    Frozen(st, t, n - 1);
    assert Quiet(t, m, n - 1);
    if RefreshedAt(st, t, n - 1).Exited() || LogSeenBy(t, n - 1) {
      BoundedResponse(st, t, m, n - 1);
    } else if !Leaves(ClassAt(st, t, n - 1)) {
      NoWindowWhenDue(st, t, m, n - 1);
      RefreshFacts(st, a, p);
      assert Stepped(st, t, n - 1);
      StepFacts(st, a, p);
      ClassOfLive(st, a, p);
      assert KillsFinalizing(st, a, p);
      RefreshFacts(st, b, t.probes[n]);
      ClassOfExited(st, b, t.probes[n]);
      assert Leaves(Success);
    }
  }

  /** A child that was reaped or killed stays so. */
  lemma {:induction false} ExitedStays(st: Setting, t: Watch, k: nat, n: nat)
    requires IsWatch(st, t) && k <= n < |t.probes| && t.attempts[k].pid.None?
    ensures RefreshedAt(st, t, n).Exited() && t.attempts[n].pid.None?
    decreases n
  {
    hide ProbeClass, Refresh, ProbeAttempt;
    RefreshFacts(st, t.attempts[n], t.probes[n]);
    if k == n {
    } else {
      ExitedStays(st, t, k, n - 1);
      assert Stepped(st, t, n - 1);
      StepFacts(st, t.attempts[n - 1], t.probes[n - 1]);
    }
  }

  /** A report that grew 60 s old ends its child: the probe that sees it leaves, or the child is gone at the next. */
  lemma OldReportKills(st: Setting, t: Watch, k: nat)
    requires FromDispatch(st, t) && k < |t.probes| && Undisturbed(st, t, k) && OldReportAt(t, k)
    ensures Leaves(ClassAt(st, t, k)) || t.attempts[k + 1].pid.None?
  {
    hide ProbeClass, Refresh, ProbeAttempt;
    var a, p := t.attempts[k], t.probes[k];
    Frozen(st, t, k);
    assert Stepped(st, t, k);
    StepFacts(st, a, p);
    RefreshFacts(st, a, p);
    if !RefreshedAt(st, t, k).Exited() && !Leaves(ClassAt(st, t, k)) {
      Grace.AtMostOneWindow(st, t, k + 1);
      ClassOfLive(st, a, p);
      assert KillsFinalizing(st, a, p);
    }
  }

  /**
   * The exact condition. In quiet, with a child that nothing else ends, the monitor has answered by a due
   * probe if and only if the log was ever seen or an earlier probe saw a report, written since dispatch,
   * that was at least 60 s old.
   */
  lemma ResponseExact(st: Setting, t: Watch, m: nat, n: nat)
    requires FromDispatch(st, t) && m <= n < |t.probes| && Quiet(t, m, n) && Due(t, m, n)
    requires forall k :: 0 <= k <= n ==> Undisturbed(st, t, k)
    ensures (exists k :: 0 <= k <= n && Leaves(ClassAt(st, t, k))) <==> LogSeenBy(t, n) || OldReportBefore(t, n)
  {
    if LogSeenBy(t, n) {
      BoundedResponse(st, t, m, n);
    } else if OldReportBefore(t, n) {
      var k :| 0 <= k < n && OldReportAt(t, k);
      OldReportKills(st, t, k);
      if !Leaves(ClassAt(st, t, k)) {
        ExitedStays(st, t, k + 1, n);
        BoundedResponse(st, t, m, n);
      }
    } else {
      forall k | 0 <= k <= n ensures !Leaves(ClassAt(st, t, k)) {
        assert !LogSeenBy(t, k) && !OldReportBefore(t, k);
        NeverSeenLogWaitsForever(st, t, k);
      }
    }
  }

  /**
   * The kill window: a child force-stopped while finalizing had written a non-empty report since
   * dispatch at least 60 s before; if the report is still there at the next probe, that probe is
   * Success unless cancelled or capped.
   */
  lemma FinalizingKill(st: Setting, a: Attempt, p: Probe, q: Probe)
    requires KillsFinalizing(st, a, p)
    ensures OutboxFresh(a, p) && p.now - p.outbox.value.mtime >= Seconds(60)
    ensures ProcessAlive(NoteExit(a, p), p)
    ensures q.outbox == p.outbox && q.cancel != AtSnapshot && DetectProviderError(st, q).None? ==>
              ProbeClass(st, ProbeAttempt(st, a, p), q) == Success
  {
    hide Refresh, ProbeAttempt, ProbeClass;
    var c := ProbeAttempt(st, a, p);
    StepFacts(st, a, p);
    RefreshFacts(st, a, p);
    RefreshFacts(st, c, q);
    ClassFacts(st, a, p);
    if q.outbox == p.outbox && q.cancel != AtSnapshot && DetectProviderError(st, q).None? {
      ClassOfExited(st, c, q);
    }
  }
}
