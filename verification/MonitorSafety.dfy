/** The per-attempt results, carried to monitor calls on the run's context. */
module MonitorSafety {
  import opened Base
  import opened State
  import opened Probing
  import opened Phases
  import opened Invariants
  import opened HangSafety
  import Workflow
  import Response

  /** The watch of a monitor call: the attempt it starts with and the probes it is shown. */
  ghost predicate Watches(c: Ctx, role: Role, ps: seq<Probe>, t: Watch)
  {
    && Monitoring(c, role)
    && IsWatch(c.SettingOf(role), t)
    && t.probes == ps && t.attempts[0] == c.attempt.value
  }

  /** A probe that loops leaves the attempt the watch says, and its class does not leave. */
  lemma LoopingProbe(c: Ctx, role: Role, p: Probe)
    requires Monitoring(c, role)
    ensures var m, st := MonitorProbe(c, role, p), c.SettingOf(role);
            m.status.Looping? <==>
              && p.cancel != AtLoopHead && p.fault.None?
              && !Leaves(ProbeClass(st, c.attempt.value, p))
    ensures var m, st := MonitorProbe(c, role, p), c.SettingOf(role);
            m.status.Looping? ==> m.ctx.attempt == Some(ProbeAttempt(st, c.attempt.value, p))
  {
    hide MonitorProbe, ProbeClass, Classified, ProbeAttempt, RouteProbe;
    if p.cancel == AtLoopHead {
      CancelledProbe(c, role, p);
    } else if p.fault.Some? {
      FaultyProbe(c, role, p);
    } else {
      ProbeIsRouted(c, role, p);
      ClassifiedFacts(c.SettingOf(role), c.attempt.value, p);
      RoutedProbe(ClassifiedCtx(c, role, p), role, p, ProbeClass(c.SettingOf(role), c.attempt.value, p));
    }
  }

  lemma CancelledProbe(c: Ctx, role: Role, p: Probe)
    requires c.attempt.Some? && p.cancel == AtLoopHead
    ensures MonitorProbe(c, role, p) == MonitorStep(TerminateActiveChild(c).(runState := RunAborted), Returned)
  {
    hide ProbeClass, Classified, RouteProbe;
  }

  lemma FaultyProbe(c: Ctx, role: Role, p: Probe)
    requires c.attempt.Some? && p.cancel != AtLoopHead && p.fault.Some?
    ensures var m := MonitorProbe(c, role, p);
            m.status.Failed? && m.ctx == NoteChild(c, p).(attempt := Some(NoteExit(c.attempt.value, p)))
  {
    hide ProbeClass, Classified, RouteProbe;
  }

  lemma RoutedProbe(c: Ctx, role: Role, p: Probe, s: AttemptState)
    requires c.attempt.Some?
    ensures var m := RouteProbe(c, role, p, s);
            && (m.status.Looping? <==> !Leaves(s))
            && (m.status.Looping? ==>
                  m.ctx.attempt == Some(if s == Finalizing && FinalizeExpired(c.attempt.value, p)
                                        then c.attempt.value.(pid := None) else c.attempt.value))
  {
    hide OutboxFilled, FinalizeExpired;
  }

  /** While a monitor call loops, its attempt is the watched one. */
  lemma {:induction false} RunIsWatched(c: Ctx, role: Role, t: Watch, n: nat)
    requires Watches(c, role, t.probes, t) && n <= |t.probes|
    ensures var m := MonitorRun(c, role, t.probes, n);
            m.status.Looping? ==>
              && m.ctx.attempt == Some(t.attempts[n])
              && forall k :: 0 <= k < n ==> !Leaves(ClassAt(c.SettingOf(role), t, k))
  {
    hide MonitorProbe, ProbeAttempt, ProbeClass, LocksInv, VerdictInv, FailuresInv, Leaves;
    if n == 0 {
    } else {
      RunIsWatched(c, role, t, n - 1);
      MonitorRunKeeps(c, role, t.probes, n - 1);
      var m := MonitorRun(c, role, t.probes, n - 1);
      if m.status.Looping? {
        LoopingProbe(m.ctx, role, t.probes[n - 1]);
        assert Stepped(c.SettingOf(role), t, n - 1);
      }
    }
  }

  /**
   * Bounded response of a monitor call: in quiet, once 420 s passed since it set in and 2400 s since
   * dispatch, the call is over, provided the child has exited or its log was ever seen.
   */
  lemma MonitorAnswers(c: Ctx, role: Role, t: Watch, m: nat, n: nat)
    requires Watches(c, role, t.probes, t)
    requires FromDispatch(c.SettingOf(role), t)
    requires m <= n < |t.probes| && Response.Quiet(t, m, n) && Response.Due(t, m, n)
    requires RefreshedAt(c.SettingOf(role), t, n).Exited() || Response.LogSeenBy(t, n)
    ensures !MonitorRun(c, role, t.probes, n + 1).status.Looping?
  {
    hide MonitorProbe, ProbeAttempt, ProbeClass, Refresh, LocksInv, ChildInv, VerdictInv, FailuresInv, Leaves;
    Response.BoundedResponse(c.SettingOf(role), t, m, n);
    RunIsWatched(c, role, t, n + 1);
  }

  /** The force-stop triggers, in terms of what one probe saw. */
  predicate StopTrigger(st: Setting, a: Attempt, p: Probe)
  {
    || p.cancel == AtLoopHead
    || (p.fault.None? && !p.childExited
        && (ProbeClass(st, a, p) == Cancelled || ProbeClass(st, a, p) == HangConfirmed || KillsFinalizing(st, a, p)))
  }

  lemma RoutedStop(c: Ctx, role: Role, p: Probe, s: AttemptState)
    requires c.attempt.Some? && c.activeProcess.Some?
    ensures RouteProbe(c, role, p, s).ctx.activeProcess ==
            (if c.activeProcess.value.alive
                && (s == Cancelled || s == HangConfirmed
                    || (s == Finalizing && FinalizeExpired(c.attempt.value, p)))
             then Some(Process(false, true)) else c.activeProcess)
  {
    hide OutboxFilled, FinalizeExpired;
  }

  /**
   * A living child is force-stopped by a probe exactly on cancel, on a confirmed hang, or when its
   * finalization window has run out; in every other case it only dies by itself.
   */
  lemma ForceStopExact(c: Ctx, role: Role, p: Probe)
    requires Monitoring(c, role) && c.activeProcess.value.alive && !c.activeProcess.value.stopped
    ensures var q := MonitorProbe(c, role, p).ctx.activeProcess;
            && q.Some?
            && (q.value.stopped <==> StopTrigger(c.SettingOf(role), c.attempt.value, p))
            && (q.value.alive <==> !q.value.stopped && (p.cancel == AtLoopHead || !p.childExited))
  {
    hide MonitorProbe, ProbeClass, Classified, ProbeAttempt, RouteProbe, VerdictInv, FailuresInv;
    var st, a := c.SettingOf(role), c.attempt.value;
    if p.cancel == AtLoopHead {
      CancelledProbe(c, role, p);
    } else if p.fault.Some? {
      FaultyProbe(c, role, p);
    } else {
      ProbeIsRouted(c, role, p);
      ClassFacts(st, a, p);
      ClassifiedFacts(st, a, p);
      var d := ClassifiedCtx(c, role, p);
      RoutedStop(d, role, p, ProbeClass(st, a, p));
    }
  }

  /** What justifies force-stopping the child at probe n of an attempt's history. */
  predicate StopJustified(t: Watch, n: nat)
    requires WellSized(t) && n < |t.probes|
  {
    || t.probes[n].cancel != NotCancelled
    || (Age(t, n) >= Seconds(420) && LogStale(t, n) && (Age(t, n) >= Seconds(2400) || SilentBefore(t, n)))
    || (Response.ReportAt(t, n) && t.probes[n].now - t.probes[n].outbox.value.mtime >= Seconds(60))
  }

  /** Every stop trigger is justified by the history since dispatch. */
  lemma TriggerJustified(st: Setting, t: Watch, n: nat)
    requires FromDispatch(st, t) && n < |t.probes| && StopTrigger(st, t.attempts[n], t.probes[n])
    ensures StopJustified(t, n)
  {
    hide ProbeAttempt, ProbeClass, Refresh;
    Frozen(st, t, n);
    ClassOfPreempted(st, t.attempts[n], t.probes[n]);
    if ClassAt(st, t, n) == HangConfirmed {
      HangKillSafety(st, t, n);
    } else if KillsFinalizing(st, t.attempts[n], t.probes[n]) {
      Response.FinalizingKill(st, t.attempts[n], t.probes[n], t.probes[n]);
    }
  }

  /** The child has been force-stopped. */
  predicate Stopped(c: Ctx)
  {
    c.activeProcess.Some? && c.activeProcess.value.stopped
  }

  predicate ChildAlive(c: Ctx)
  {
    c.activeProcess.Some? && c.activeProcess.value.alive
  }

  lemma StopNeedsAlive(c: Ctx, role: Role, p: Probe)
    requires Monitoring(c, role) && !Stopped(c) && Stopped(MonitorProbe(c, role, p).ctx)
    ensures ChildAlive(c)
  {
    hide MonitorProbe, ProbeClass, Classified, RouteProbe, LocksInv, VerdictInv, FailuresInv;
    if p.cancel == AtLoopHead {
      CancelledProbe(c, role, p);
    } else if p.fault.Some? {
      FaultyProbe(c, role, p);
    } else {
      ProbeIsRouted(c, role, p);
      RoutedStop(ClassifiedCtx(c, role, p), role, p, ProbeClass(c.SettingOf(role), c.attempt.value, p));
    }
  }

  /**
   * Kill safety of monitor calls: if the child is not stopped after n probes of a call that started at
   * dispatch, and stopped after one more, then it was alive, and the operator cancelled, or the hang rule
   * holds over the whole history, or the child sat for 60 s on a non-empty report written since dispatch.
   */
  lemma MonitorKillSafety(c: Ctx, role: Role, t: Watch, n: nat)
    requires Watches(c, role, t.probes, t) && FromDispatch(c.SettingOf(role), t) && n < |t.probes|
    requires !Stopped(MonitorRun(c, role, t.probes, n).ctx) && Stopped(MonitorRun(c, role, t.probes, n + 1).ctx)
    ensures ChildAlive(MonitorRun(c, role, t.probes, n).ctx) && StopJustified(t, n)
  {
    hide MonitorProbe, Inv, StopTrigger, StopJustified, SameReview, SameDispatch;
    MonitoringHas(c, role);
    RunIsWatched(c, role, t, n);
    MonitorRunKeeps(c, role, t.probes, n);
    var m := MonitorRun(c, role, t.probes, n);
    assert m.status.Looping?;
    StopNeedsAlive(m.ctx, role, t.probes[n]);
    ForceStopExact(m.ctx, role, t.probes[n]);
    SettingKept(c, m.ctx, role);
    TriggerJustified(c.SettingOf(role), t, n);
  }

  lemma SettingKept(c: Ctx, d: Ctx, role: Role)
    requires SameReview(c, d)
    ensures d.SettingOf(role) == c.SettingOf(role)
  {
  }

  lemma RoutedFlag(c: Ctx, role: Role, p: Probe, s: AttemptState)
    requires c.attempt.Some? && !c.runState.ExecutorOutputCollect? && !c.runState.ReviewerOutputCollect?
    ensures var d := RouteProbe(c, role, p, s).ctx;
            d.runState == CollectOf(role) ==>
              (s == Success || s == SoftSuccess) && (d.outboxPresent <==> OutboxFilled(p))
  {
    hide OutboxFilled, FinalizeExpired, Workflow.SoftSuccessAllowed;
    assert role == Executor || role == Reviewer;
  }

  /**
   * The report flag handed on to the prompts tells the two kinds of success apart: an attempt is
   * collected with a non-empty report exactly when it was a full success.
   */
  lemma CollectedFlag(c: Ctx, role: Role, p: Probe)
    requires Monitoring(c, role) && MonitorProbe(c, role, p).ctx.runState == CollectOf(role)
    ensures var s := ProbeClass(c.SettingOf(role), c.attempt.value, p);
            && (s == Success || s == SoftSuccess)
            && (MonitorProbe(c, role, p).ctx.outboxPresent <==> NonEmpty(Meta(p.outbox)))
            && (MonitorProbe(c, role, p).ctx.outboxPresent <==> s == Success)
            && (s == SoftSuccess ==> role == Executor)
  {
    hide MonitorProbe, ProbeClass, Classified, RouteProbe, LocksInv, VerdictInv, FailuresInv, Refresh;
    var st, a := c.SettingOf(role), c.attempt.value;
    if p.cancel == AtLoopHead {
      CancelledProbe(c, role, p);
    } else if p.fault.Some? {
      FaultyProbe(c, role, p);
    } else {
      ProbeIsRouted(c, role, p);
      ClassFacts(st, a, p);
      ClassOfPreempted(st, a, p);
      RefreshFacts(st, a, p);
      RoutedFlag(ClassifiedCtx(c, role, p), role, p, ProbeClass(st, a, p));
      if Refresh(st, a, p).Exited() && p.cancel != AtSnapshot && DetectProviderError(st, p).None? {
        ClassOfExited(st, a, p);
      }
    }
  }
}
