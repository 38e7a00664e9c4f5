/** The monitor results, carried to whole runs, whose monitor phases may span many iterations. */
module MonitorRuns {
  import opened State
  import opened Transport
  import opened Probing
  import opened Phases
  import opened Invariants
  import opened Moves
  import opened Runs
  import opened MonitorSafety
  import Response

  // ---- one monitor phase is one monitor call ----

  lemma {:induction false} RunOfPrefix(c: Ctx, role: Role, ps: seq<Probe>, qs: seq<Probe>, n: nat)
    requires c.attempt.Some? && n <= |ps|
    ensures MonitorRun(c, role, ps + qs, n) == MonitorRun(c, role, ps, n)
  {
    hide MonitorProbe;
    if n == 0 {
    } else {
      RunOfPrefix(c, role, ps, qs, n - 1);
    }
  }

  /** Monitoring two probe sequences in a row is monitoring their concatenation. */
  lemma {:induction false} RunOfConcat(c: Ctx, role: Role, ps: seq<Probe>, qs: seq<Probe>, n: nat)
    requires c.attempt.Some? && n <= |qs| && MonitorRun(c, role, ps, |ps|).status.Looping?
    ensures MonitorRun(c, role, ps + qs, |ps| + n) == MonitorRun(MonitorRun(c, role, ps, |ps|).ctx, role, qs, n)
  {
    hide MonitorProbe;
    if n == 0 {
      RunOfPrefix(c, role, ps, qs, |ps|);
    } else {
      RunOfConcat(c, role, ps, qs, n - 1);
      assert (ps + qs)[|ps| + n - 1] == qs[n - 1];
    }
  }

  /** The probes of iterations k up to n. */
  function ProbesOf(t: Trace, k: nat, n: nat): seq<Probe>
    requires k <= n <= |t.inputs|
  {
    if n == k then [] else ProbesOf(t, k, n - 1) + t.inputs[n - 1].probes
  }

  /** From state k to state n the run monitors this role. */
  predicate Monitored(t: Trace, k: nat, n: nat, role: Role)
    requires Sized(t) && k <= n <= |t.inputs|
  {
    forall i :: k <= i <= n ==> StateAt(t, i) == MonitorOf(role)
  }

  /** The monitor call behind one iteration in a monitor state. */
  lemma IterationIsCall(me: nat, args: Args, t: Trace, n: nat, role: Role)
    requires IsRun(me, args, t) && n < |t.inputs| && StateAt(t, n) == MonitorOf(role)
    ensures Monitoring(CtxAt(t, n), role) && CtxAt(t, n).attempt.Some?
    ensures var m := MonitorRun(CtxAt(t, n), role, t.inputs[n].probes, |t.inputs[n].probes|);
            && (StateAt(t, n + 1) == MonitorOf(role) ==> m.status.Looping? && CtxAt(t, n + 1) == m.ctx)
            && (!t.inputs[n].cancelled ==> CtxAt(t, n + 1).activeProcess == m.ctx.activeProcess)
            && (t.inputs[n].cancelled ==> CtxAt(t, n + 1).activeProcess == CtxAt(t, n).activeProcess)
  {
    hide MonitorRun, LocksInv, VerdictInv, FailuresInv, SessionsInv, SameReview, SameDispatch;
    RunInv(me, args, t, n);
    assert Iterates(me, t, n);
    assert role == Executor || role == Reviewer;
    MonitorRunKeeps(CtxAt(t, n), role, t.inputs[n].probes, |t.inputs[n].probes|);
  }

  lemma {:induction false} PhaseIsCall(me: nat, args: Args, t: Trace, k: nat, n: nat, role: Role)
    requires IsRun(me, args, t) && k <= n <= |t.inputs| && Monitored(t, k, n, role)
    ensures Monitoring(CtxAt(t, k), role) && CtxAt(t, k).attempt.Some?
    ensures var m := MonitorRun(CtxAt(t, k), role, ProbesOf(t, k, n), |ProbesOf(t, k, n)|);
            m.status.Looping? && m.ctx == CtxAt(t, n)
  {
    hide MonitorRun, Inv, Iterates;
    if n == k {
      InMonitor(me, args, t, k, role);
    } else {
      PhaseIsCall(me, args, t, k, n - 1, role);
      IterationIsCall(me, args, t, n - 1, role);
      var qs := t.inputs[n - 1].probes;
      RunOfConcat(CtxAt(t, k), role, ProbesOf(t, k, n - 1), qs, |qs|);
    }
  }

  lemma InMonitor(me: nat, args: Args, t: Trace, n: nat, role: Role)
    requires IsRun(me, args, t) && n <= |t.inputs| && StateAt(t, n) == MonitorOf(role)
    ensures Monitoring(CtxAt(t, n), role) && CtxAt(t, n).attempt.Some?
    ensures MonitorRun(CtxAt(t, n), role, [], 0) == MonitorStep(CtxAt(t, n), Looping)
  {
    hide Iterates, LocksInv, VerdictInv, FailuresInv, SessionsInv;
    RunInv(me, args, t, n);
  }

  // ---- where a monitor phase starts ----

  lemma BeforeMonitor(me: nat, c: Ctx, i: Input, d: Ctx, role: Role)
    requires Inv(d) && Move(me, c, i, d) && d.runState == MonitorOf(role)
    ensures c.runState == MonitorOf(role) || c.runState == DispatchOf(role)
    ensures c.runState == DispatchOf(role) ==>
              d.attempt.Some? && Fresh(d.attempt.value) && d.attempt.value.dispatchTs == i.dispatch.now
  {
    hide VerdictInv, SessionsInv, FailuresInv, LocksInv, LastMove, VerifyRequestFingerprint, TemplateFor, Fresh;
    hide SameReview, SameDispatch, ReadableReport, DirtyReason;
    assert role == Executor || role == Reviewer;
  }

  /** Iteration k dispatched the attempt that state n monitors. */
  ghost predicate PhaseFrom(t: Trace, k: nat, n: nat, role: Role)
    requires Sized(t) && k < n <= |t.inputs|
  {
    && StateAt(t, k) == DispatchOf(role) && Monitored(t, k + 1, n, role)
    && CtxAt(t, k + 1).attempt.Some? && Fresh(CtxAt(t, k + 1).attempt.value)
    && CtxAt(t, k + 1).attempt.value.dispatchTs == t.inputs[k].dispatch.now
  }

  lemma {:induction false} PhaseOrigin(me: nat, args: Args, t: Trace, n: nat, role: Role) returns (k: nat)
    requires IsRun(me, args, t) && n <= |t.inputs| && StateAt(t, n) == MonitorOf(role)
    ensures k < n && PhaseFrom(t, k, n, role)
  {
    hide Inv, Move, Iterates, Fresh;
    assert role == Executor || role == Reviewer;
    RunInv(me, args, t, 0);
    RunMoves(me, args, t, n - 1);
    BeforeMonitor(me, CtxAt(t, n - 1), t.inputs[n - 1], CtxAt(t, n), role);
    if StateAt(t, n - 1) == DispatchOf(role) {
      k := n - 1;
    } else {
      k := PhaseOrigin(me, args, t, n - 1, role);
    }
  }

  // ---- the history of an attempt ----

  /** Probe times in order, between two times. */
  predicate Ordered(ps: seq<Probe>, lo: int, hi: int)
  {
    && lo <= hi
    && (forall i :: 0 <= i < |ps| ==> lo <= ps[i].now <= hi)
    && (forall i, j :: 0 <= i <= j < |ps| ==> ps[i].now <= ps[j].now)
  }

  lemma OrderedConcat(ps: seq<Probe>, qs: seq<Probe>, lo: int, mid: int, hi: int)
    requires Ordered(ps, lo, mid) && Ordered(qs, mid, hi)
    ensures Ordered(ps + qs, lo, hi)
  {
    var rs := ps + qs;
    forall i | 0 <= i < |rs| ensures lo <= rs[i].now <= hi {
      assert rs[i] == if i < |ps| then ps[i] else qs[i - |ps|];
    }
    forall i, j | 0 <= i <= j < |rs| ensures rs[i].now <= rs[j].now {
      assert rs[i] == if i < |ps| then ps[i] else qs[i - |ps|];
      assert rs[j] == if j < |ps| then ps[j] else qs[j - |ps|];
    }
  }

  /** On a forward clock the probes of successive iterations are in order. */
  lemma {:induction false} ProbesForward(t: Trace, clock: seq<int>, k: nat, n: nat)
    requires RunsForward(t, clock) && k <= n <= |t.inputs|
    ensures Ordered(ProbesOf(t, k, n), clock[k], clock[n])
  {
    if k == n {
    } else {
      ProbesForward(t, clock, k, n - 1);
      assert TimesAt(t, clock, n - 1);
      OrderedConcat(ProbesOf(t, k, n - 1), t.inputs[n - 1].probes, clock[k], clock[n - 1], clock[n]);
    }
  }

  /** w is the history, from its dispatch at k on and up to iteration n, of the attempt that the run monitors. */
  ghost predicate History(t: Trace, k: nat, n: nat, role: Role, w: Watch)
    requires Sized(t) && k < n <= |t.inputs|
  {
    && StateAt(t, k) == DispatchOf(role) && w.probes == ProbesOf(t, k + 1, n)
    && CtxAt(t, k + 1).attempt.Some? && WellSized(w) && w.attempts[0] == CtxAt(t, k + 1).attempt.value
    && FromDispatch(CtxAt(t, k + 1).SettingOf(role), w)
    && Watches(CtxAt(t, k + 1), role, w.probes, w)
  }

  lemma HistoryOf(me: nat, args: Args, t: Trace, clock: seq<int>, k: nat, m: nat, n: nat, role: Role)
    returns (w: Watch)
    requires IsRun(me, args, t) && RunsForward(t, clock)
    requires k < m <= n <= |t.inputs| && PhaseFrom(t, k, m, role)
    ensures History(t, k, n, role, w)
  {
    hide Inv, Iterates, Stepped, ProbeAttempt;
    var c := CtxAt(t, k + 1);
    InMonitor(me, args, t, k + 1, role);
    w := WatchOf(c.SettingOf(role), c.attempt.value, ProbesOf(t, k + 1, n));
    ProbesForward(t, clock, k + 1, n);
    assert TimesAt(t, clock, k);
    assert w.attempts[0].dispatchTs <= clock[k + 1];
  }

  // ---- the two results over runs ----

  /** The answer was due at probe j of the history, after quiet from probe i on. */
  ghost predicate AnswerDue(st: Setting, w: Watch, i: nat, j: nat)
    requires WellSized(w) && i <= j < |w.probes|
  {
    && Response.Quiet(w, i, j) && Response.Due(w, i, j)
    && (RefreshedAt(st, w, j).Exited() || Response.LogSeenBy(w, j))
  }

  /** At no probe of the history was the answer due. */
  ghost predicate NeverDue(st: Setting, w: Watch)
    requires WellSized(w)
  {
    forall i, j :: 0 <= i <= j < |w.probes| ==> !AnswerDue(st, w, i, j)
  }

  /**
   * Bounded response over runs, on a forward clock: a run that is still monitoring an attempt has not yet
   * shown it a probe at which the answer was due.
   */
  lemma RunAnswers(me: nat, args: Args, t: Trace, clock: seq<int>, n: nat, role: Role) returns (k: nat, w: Watch)
    requires IsRun(me, args, t) && RunsForward(t, clock)
    requires n <= |t.inputs| && StateAt(t, n) == MonitorOf(role)
    ensures k < n && History(t, k, n, role, w)
    ensures NeverDue(CtxAt(t, k + 1).SettingOf(role), w)
  {
    hide Inv, Iterates, MonitorRun, Leaves;
    k := PhaseOrigin(me, args, t, n, role);
    w := HistoryOf(me, args, t, clock, k, n, n, role);
    PhaseIsCall(me, args, t, k + 1, n, role);
    var c := CtxAt(t, k + 1);
    RunIsWatched(c, role, w, |w.probes|);
    forall i, j | 0 <= i <= j < |w.probes| ensures !AnswerDue(c.SettingOf(role), w, i, j) {
      if AnswerDue(c.SettingOf(role), w, i, j) {
        Response.BoundedResponse(c.SettingOf(role), w, i, j);
        assert false;
      }
    }
  }

  /** Between a call that has not stopped the child and one that has lies the probe that did. */
  lemma {:induction false} FirstStop(c: Ctx, role: Role, ps: seq<Probe>, lo: nat, hi: nat) returns (j: nat)
    requires c.attempt.Some? && lo <= hi <= |ps|
    requires !Stopped(MonitorRun(c, role, ps, lo).ctx) && Stopped(MonitorRun(c, role, ps, hi).ctx)
    ensures lo <= j < hi && !Stopped(MonitorRun(c, role, ps, j).ctx) && Stopped(MonitorRun(c, role, ps, j + 1).ctx)
    decreases hi
  {
    hide MonitorRun, Stopped;
    if Stopped(MonitorRun(c, role, ps, hi - 1).ctx) {
      j := FirstStop(c, role, ps, lo, hi - 1);
    } else {
      j := hi - 1;
    }
  }

  /**
   * Kill safety over runs, on a forward clock: an iteration that leaves the child force-stopped did so at
   * one of its own probes, and what that probe and the whole history since dispatch show justifies it.
   */
  lemma RunKillSafety(me: nat, args: Args, t: Trace, clock: seq<int>, n: nat, role: Role)
    returns (k: nat, w: Watch, j: nat)
    requires IsRun(me, args, t) && RunsForward(t, clock)
    requires n < |t.inputs| && StateAt(t, n) == MonitorOf(role)
    requires !Stopped(CtxAt(t, n)) && Stopped(CtxAt(t, n + 1))
    ensures k < n && History(t, k, n + 1, role, w)
    ensures |ProbesOf(t, k + 1, n)| <= j < |w.probes| && StopJustified(w, j)
  {
    hide Inv, Iterates, MonitorRun, StopJustified, FromDispatch;
    k := PhaseOrigin(me, args, t, n, role);
    w := HistoryOf(me, args, t, clock, k, n, n + 1, role);
    PhaseIsCall(me, args, t, k + 1, n, role);
    IterationIsCall(me, args, t, n, role);
    var c, ps, qs := CtxAt(t, k + 1), ProbesOf(t, k + 1, n), t.inputs[n].probes;
    RunOfPrefix(c, role, ps, qs, |ps|);
    RunOfConcat(c, role, ps, qs, |qs|);
    j := FirstStop(c, role, w.probes, |ps|, |w.probes|);
    MonitorKillSafety(c, role, w, j);
  }
}
