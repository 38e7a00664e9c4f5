/** The failure budget, the dispatch count and the termination of runs. */
module Budget {
  import opened Base
  import opened State
  import opened Transport
  import opened Probing
  import opened Phases
  import opened Invariants
  import opened Moves
  import opened Runs

  /** The role whose attempt the current state belongs to, where there is one. */
  predicate OfRole(c: Ctx, role: Role)
  {
    if role == Executor then
      c.runState.ExecutorMonitor? || (c.runState.RoundRetryDecide? && c.currentRole == Some(Executor))
    else
      c.runState.ReviewerMonitor? || c.runState.ReviewerOutputCollect?
      || (c.runState.RoundRetryDecide? && c.currentRole == Some(Reviewer))
  }

  /** The control-flow graph of a live run, with what each edge does to the failure counter. */
  predicate Edge(c: Ctx, d: Ctx)
  {
    var same := d.consecutiveFailureCount == c.consecutiveFailureCount;
    match c.runState
    case ContextPrep => d.runState.SessionBind? && same
    case SessionBind => d.runState.ExecutorDispatch? && same
    case ExecutorDispatch => d.runState.ExecutorMonitor? && same
    case ExecutorMonitor =>
      || ((d.runState.ExecutorMonitor? || d.runState.ExecutorOutputCollect?) && same)
      || FailureEdge(c, d, Executor)
    case RoundRetryDecide =>
      same && c.consecutiveFailureCount < 5
      && (if OfRole(c, Executor) then d.runState.ExecutorDispatch? else d.runState.ReviewerDispatch?)
    case ExecutorOutputCollect => d.runState.OrchVerify? && same
    case OrchVerify => d.runState.ReviewerDispatch? && same
    case ReviewerDispatch => d.runState.ReviewerMonitor? && same
    case ReviewerMonitor =>
      || ((d.runState.ReviewerMonitor? || d.runState.ReviewerOutputCollect?) && same)
      || FailureEdge(c, d, Reviewer)
    case ReviewerOutputCollect => (d.runState.QualityGate? && same) || FailureEdge(c, d, Reviewer)
    case QualityGate => d.runState.RoundFeedbackPrep? && d.consecutiveFailureCount == 0
    case RoundFeedbackPrep => d.runState.ExecutorDispatch? && same
    case _ => false
  }

  predicate FailureEdge(c: Ctx, d: Ctx, role: Role)
  {
    && d.runState.RoundRetryDecide? && d.currentRole == Some(role)
    && d.consecutiveFailureCount == c.consecutiveFailureCount + 1
  }

  lemma AttemptEdges(me: nat, c: Ctx, i: Input, d: Ctx)
    requires c.runState.IsMonitor() || c.runState.ExecutorDispatch? || c.runState.ReviewerDispatch?
    requires Inv(c) && Inv(d) && Move(me, c, i, d) && !d.runState.IsTerminal()
    ensures Edge(c, d)
  {
    hide VerifyRequestFingerprint, TemplateFor, Fresh, VerdictInv, SessionsInv, LocksInv, FailuresInv;
  }

  lemma CollectEdges(me: nat, c: Ctx, i: Input, d: Ctx)
    requires c.runState.ReviewerOutputCollect? && ChildInv(c) && Move(me, c, i, d) && !d.runState.IsTerminal()
    ensures Edge(c, d)
  {
    hide DispatchMove, MonitorMove, HasVerdict, DirtyReason, OutboxUntouched, ReadableReport;
  }

  lemma RetryEdges(me: nat, c: Ctx, i: Input, d: Ctx)
    requires c.runState.RoundRetryDecide? && Move(me, c, i, d) && !d.runState.IsTerminal()
    ensures Edge(c, d)
  {
    hide DispatchMove, MonitorMove, CollectMove, LastMove;
    var role := c.currentRole.value;
    assert role == Executor || role == Reviewer;
  }

  lemma OtherEdges(me: nat, c: Ctx, i: Input, d: Ctx)
    requires !c.runState.IsMonitor() && !c.runState.ExecutorDispatch? && !c.runState.ReviewerDispatch?
    requires !c.runState.ReviewerOutputCollect? && !c.runState.RoundRetryDecide?
    requires Move(me, c, i, d) && !d.runState.IsTerminal()
    ensures Edge(c, d)
  {
    hide DispatchMove, MonitorMove, CollectMove, LastMove, SetAttemptState, FailureEdge;
  }

  /** Every live iteration of a run follows the graph. */
  lemma RunEdges(me: nat, args: Args, t: Trace, n: nat)
    requires IsRun(me, args, t) && n < |t.inputs| && !StateAt(t, n + 1).IsTerminal()
    ensures Edge(CtxAt(t, n), CtxAt(t, n + 1))
    ensures FailuresInv(CtxAt(t, n)) && FailuresInv(CtxAt(t, n + 1))
    ensures !StateAt(t, n).IsTerminal()
  {
    hide Edge, Move, VerdictInv, SessionsInv, LocksInv;
    RunMoves(me, args, t, n);
    var c, d := CtxAt(t, n), CtxAt(t, n + 1);
    if c.runState.IsMonitor() || c.runState.ExecutorDispatch? || c.runState.ReviewerDispatch? {
      AttemptEdges(me, c, t.inputs[n], d);
    } else if c.runState.ReviewerOutputCollect? {
      CollectEdges(me, c, t.inputs[n], d);
    } else if c.runState.RoundRetryDecide? {
      RetryEdges(me, c, t.inputs[n], d);
    } else {
      OtherEdges(me, c, t.inputs[n], d);
    }
    TerminalStays(me, c, t.inputs[n], d);
  }

  lemma TerminalStays(me: nat, c: Ctx, i: Input, d: Ctx)
    requires Move(me, c, i, d)
    ensures c.runState.IsTerminal() ==> d == c
  {
    hide LastMove, LiveMove;
  }

  // ---- counting along a run ----

  /** Failed attempts since the last visit of the quality gate, counted from the run itself. */
  function FailuresSinceGate(t: Trace, n: nat): nat
    requires n < |t.states|
  {
    if n == 0 || StateAt(t, n - 1) == QualityGate then 0
    else FailuresSinceGate(t, n - 1) + (if StateAt(t, n) == RoundRetryDecide then 1 else 0)
  }

  /** Children started since the last visit of the quality gate. */
  function DispatchesSinceGate(t: Trace, n: nat): nat
    requires n < |t.states|
  {
    if n == 0 || StateAt(t, n - 1) == QualityGate then 0
    else
      DispatchesSinceGate(t, n - 1)
      + (if StateAt(t, n).IsMonitor() && !StateAt(t, n - 1).IsMonitor() then 1 else 0)
  }

  /** Dispatches of this round that have not failed. */
  function GoodDispatches(c: Ctx): nat
  {
    if c.runState.ReviewerMonitor? || c.runState.ReviewerOutputCollect? || c.runState.QualityGate? then 2
    else if c.runState.ExecutorMonitor? || c.runState.ExecutorOutputCollect? || c.runState.OrchVerify?
            || c.runState.ReviewerDispatch? || (c.runState.RoundRetryDecide? && !OfRole(c, Executor)) then 1
    else 0
  }

  /**
   * The failure budget. In a live run the counter is the number of failed attempts since the last gate
   * visit; it is at most 4, or 5 while the retry is being decided; and the dispatches of a round are
   * its failures plus the one or two attempts that have not failed, so never more than 6.
   */
  lemma {:induction false} FailureBudget(me: nat, args: Args, t: Trace, n: nat)
    requires IsRun(me, args, t) && n <= |t.inputs| && !StateAt(t, n).IsTerminal()
    ensures CtxAt(t, n).consecutiveFailureCount == FailuresSinceGate(t, n)
    ensures DispatchesSinceGate(t, n) == FailuresSinceGate(t, n) + GoodDispatches(CtxAt(t, n))
    ensures FailuresSinceGate(t, n) <= (if StateAt(t, n) == RoundRetryDecide then 5 else 4)
    ensures DispatchesSinceGate(t, n) <= 6
  {
    hide Iterates;
    if n == 0 {
    } else {
      RunEdges(me, args, t, n - 1);
      FailureBudget(me, args, t, n - 1);
    }
  }

  /** A failing role is retried as itself, never as the other one. */
  lemma RetriesSameRole(me: nat, args: Args, t: Trace, n: nat, role: Role)
    requires IsRun(me, args, t) && 0 < n < |t.inputs|
    requires StateAt(t, n) == RoundRetryDecide && !StateAt(t, n + 1).IsTerminal()
    ensures OfRole(CtxAt(t, n - 1), role) ==> StateAt(t, n + 1) == DispatchOf(role)
    ensures OfRole(CtxAt(t, n - 1), Executor) || OfRole(CtxAt(t, n - 1), Reviewer)
  {
    hide Iterates;
    RunEdges(me, args, t, n - 1);
    RunEdges(me, args, t, n);
  }

  /** The failure limit ends a run exactly when the fifth failure in a row is decided on. */
  lemma LimitExact(me: nat, args: Args, t: Trace, n: nat)
    requires IsRun(me, args, t) && n < |t.inputs| && StateAt(t, n) == RoundRetryDecide
    requires !t.inputs[n].cancelled
    ensures StateAt(t, n + 1) == RunFailedConsecutiveFailureLimit <==> FailuresSinceGate(t, n) == 5
    ensures StateAt(t, n + 1).IsTerminal() <==> FailuresSinceGate(t, n) == 5
  {
    FailureBudget(me, args, t, n);
    RunInv(me, args, t, n);
    assert Iterates(me, t, n);
    DecidesRetry(me, CtxAt(t, n), t.inputs[n]);
  }

  lemma DecidesRetry(me: nat, c: Ctx, i: Input)
    requires c.runState.RoundRetryDecide? && !i.cancelled
    ensures Next(me, c, i).ctx.runState ==
            (if c.consecutiveFailureCount >= 5 then RunFailedConsecutiveFailureLimit
             else if c.currentRole == Some(Reviewer) then ReviewerDispatch else ExecutorDispatch)
  {
  }

  // ---- termination ----

  /** Distance of a phase to the gate, along the graph without failures. */
  function PhaseRank(s: RunState): nat
  {
    match s
    case ContextPrep => 14
    case SessionBind => 13
    case RoundRetryDecide => 14
    case RoundFeedbackPrep => 13
    case ExecutorDispatch => 12
    case ExecutorMonitor => 11
    case ExecutorOutputCollect => 10
    case OrchVerify => 9
    case ReviewerDispatch => 8
    case ReviewerMonitor => 7
    case ReviewerOutputCollect => 6
    case QualityGate => 5
    case _ => 0
  }

  /** Revise decisions taken by the gate in the first n iterations. */
  function Revises(t: Trace, n: nat): nat
    requires n < |t.states|
  {
    if n == 0 then 0
    else Revises(t, n - 1) + (if StateAt(t, n) == RoundFeedbackPrep then 1 else 0)
  }

  lemma {:induction false} RevisesGrow(t: Trace, m: nat, n: nat)
    requires m <= n < |t.states|
    ensures Revises(t, m) <= Revises(t, n)
    decreases n
  {
    if m == n {
    } else {
      RevisesGrow(t, m, n - 1);
    }
  }

  /** The lexicographic measure (revises left, retries left, phase rank), folded into one number. */
  function Measure(revisesLeft: nat, c: Ctx): int
  {
    128 * revisesLeft + 16 * (5 - c.consecutiveFailureCount) + PhaseRank(c.runState)
  }

  /** Iteration n of a monitor state leaves the monitor. */
  predicate MonitorReturns(t: Trace, n: nat)
    requires Sized(t) && n < |t.inputs|
  {
    StateAt(t, n).IsMonitor() ==> StateAt(t, n + 1) != StateAt(t, n)
  }

  /** Iteration n only probes: it starts and ends in the same monitor state. */
  predicate Stays(t: Trace, n: nat)
    requires Sized(t) && n < |t.inputs|
  {
    StateAt(t, n).IsMonitor() && StateAt(t, n + 1) == StateAt(t, n)
  }

  /** How many of the first n iterations do more than probe. */
  function Moving(t: Trace, n: nat): (r: nat)
    requires Sized(t) && n <= |t.inputs|
    ensures r <= n
  {
    if n == 0 then 0 else Moving(t, n - 1) + (if Stays(t, n - 1) then 0 else 1)
  }

  /** Where every monitor call returns, every iteration moves. */
  lemma {:induction false} AllMove(t: Trace, m: nat, n: nat)
    requires Sized(t) && m <= n <= |t.inputs| && forall k :: m <= k < |t.inputs| ==> MonitorReturns(t, k)
    ensures Moving(t, n) == Moving(t, m) + n - m
  {
    if m == n {
    } else {
      AllMove(t, m, n - 1);
      assert MonitorReturns(t, n - 1);
    }
  }

  lemma EdgeDecreases(c: Ctx, d: Ctx, left: nat)
    requires Edge(c, d) && FailuresInv(c) && FailuresInv(d)
    requires c.runState.IsMonitor() ==> d.runState != c.runState
    requires d.runState.RoundFeedbackPrep? ==> left > 0
    ensures Measure(if d.runState.RoundFeedbackPrep? then left - 1 else left, d) < Measure(left, c)
  {
  }

  lemma StayKeepsMeasure(c: Ctx, d: Ctx, left: nat)
    requires Edge(c, d) && c.runState.IsMonitor() && d.runState == c.runState
    ensures Measure(left, d) == Measure(left, c)
  {
  }

  /**
   * While a run is live, the iterations that do more than probe, and the measure of what is left, stay
   * together below a bound linear in the number of revises, however its monitor phases are spread.
   */
  lemma {:induction false} MeasureBoundsRun(me: nat, args: Args, t: Trace, revises: nat, n: nat)
    requires IsRun(me, args, t) && n <= |t.inputs| && !StateAt(t, n).IsTerminal()
    requires Revises(t, |t.inputs|) <= revises
    ensures Revises(t, n) <= revises
    ensures Moving(t, n) + Measure(revises - Revises(t, n), CtxAt(t, n)) <= 128 * revises + 94
  {
    hide Iterates, Edge;
    RevisesGrow(t, n, |t.inputs|);
    if n == 0 {
    } else {
      RunEdges(me, args, t, n - 1);
      MeasureBoundsRun(me, args, t, revises, n - 1);
      var c, d, left := CtxAt(t, n - 1), CtxAt(t, n), revises - Revises(t, n - 1);
      if Stays(t, n - 1) {
        StayKeepsMeasure(c, d, left);
      } else {
        EdgeDecreases(c, d, left);
      }
    }
  }

  /**
   * Termination. A run in which the reviewer asks for at most the given number of revisions has reached a
   * terminal state once 128 * revises + 95 of its iterations did more than probe.
   */
  lemma RunEnds(me: nat, args: Args, t: Trace, revises: nat)
    requires IsRun(me, args, t)
    requires Revises(t, |t.inputs|) <= revises
    requires Moving(t, |t.inputs|) >= 128 * revises + 95
    ensures StateAt(t, |t.inputs|).IsTerminal()
  {
    if !StateAt(t, |t.inputs|).IsTerminal() {
      MeasureBoundsRun(me, args, t, revises, |t.inputs|);
      RunInv(me, args, t, |t.inputs|);
    }
  }

  /** In particular within that many iterations if every monitor call returns. */
  lemma RunTerminates(me: nat, args: Args, t: Trace, revises: nat)
    requires IsRun(me, args, t)
    requires forall k :: 0 <= k < |t.inputs| ==> MonitorReturns(t, k)
    requires Revises(t, |t.inputs|) <= revises
    requires |t.inputs| >= 128 * revises + 95
    ensures StateAt(t, |t.inputs|).IsTerminal()
  {
    hide Iterates;
    AllMove(t, 0, |t.inputs|);
    RunEnds(me, args, t, revises);
  }
}
