/** The workspace cleanup retry: what the documentation intends and what the code does. */
module Cleanup {
  import opened Base
  import opened State
  import opened YamlCheck
  import opened Transport
  import opened Probing
  import opened Phases
  import opened Invariants
  import opened Moves
  import opened Runs
  import opened Terminals
  import Budget

  /** No environment call fails during this collection and the operator does not cancel. */
  predicate Untroubled(i: Input)
  {
    !i.cancelled && i.reviewerCollect.mtimeFault.None? && i.reviewerCollect.snapshotFault.None?
    && i.reviewerCollect.statusFault.None?
  }

  /** The workspace shows nothing beyond the baseline of the review, except the outbox. */
  predicate CleanWorkspace(c: Ctx, current: seq<string>)
    requires c.preReviewerGitStatus.Some?
  {
    forall l :: l in current ==> l in c.preReviewerGitStatus.value || PathPart(l) == OUTBOX_REL
  }

  lemma DirtyReasonExact(c: Ctx, current: seq<string>)
    requires c.preReviewerGitStatus.Some?
    ensures DirtyReason(c, current).None? <==> CleanWorkspace(c, current)
  {
    hide PathPart;
    var lines := DirtyLines(c.preReviewerGitStatus.value, current);
    if lines != [] {
      assert lines[0] in lines;
    }
  }

  /**
   * The exact outcome of collecting a cleanup retry. The stored verdict reaches the gate, unparsed and
   * unchanged, if and only if the workspace is clean and the outbox is not at the time it had at
   * dispatch (an outbox that was absent then always passes); with the outbox untouched the retry counts
   * as a failure however clean the workspace is.
   */
  lemma CleanupOutcomeExact(me: nat, c: Ctx, i: Input)
    requires Inv(c) && c.runState.ReviewerOutputCollect? && c.reviewResult.Some? && Untroubled(i)
    ensures var d := Next(me, c, i).ctx;
            && (d.runState.QualityGate? <==>
                  !OutboxUntouched(c, i.world.files.outbox)
                  && CleanWorkspace(c, i.reviewerCollect.gitStatusAll))
            && (d.runState.QualityGate? || d.runState.RoundRetryDecide?)
            && SameVerdict(c, d)
            && (OutboxUntouched(c, i.world.files.outbox) ==> d == CountFailure(c))
  {
    hide IsVerdict, DirtyReason, LocksInv, SessionsInv, FailuresInv, OutboxUntouched, CleanWorkspace, TakeVerdict;
    DirtyReasonExact(c, i.reviewerCollect.gitStatusAll);
    DirtyReasonReads(c, c.(reviewerOutboxSnapshot := i.world.files.outbox), i.reviewerCollect.gitStatusAll);
  }

  // ---- the intended property is false ----

  const LEFTOVER: seq<string> := ["?? leftover"]

  /** A collection that finds the reviewer's verdict but also a file the reviewer left behind. */
  lemma LeavesFile(me: nat, args: Args, m: Moment, raw: string, d: Decision) returns (r: Moment)
    requires Reaches(me, args, m) && Delivered(m, raw) && m.lines == LEFTOVER && Delivers(args, raw, d)
    ensures Reaches(me, args, r) && r.world == m.world
    ensures r.sys.ctx.runState == RoundRetryDecide && Released(r, Reviewer, 1)
    ensures r.sys.ctx.reviewResult.Some? && r.sys.ctx.reviewerWorkspaceRejection.Some?
    ensures r.sys.ctx.reviewResultYamlRaw == Some(raw) && r.sys.ctx.preReviewerGitStatus == Some([])
  {
    hide Reaches, Inv, Fits, ParseReviewerYaml, EnforceReviewerNotionPolicy, DirtyReason;
    NewFileIsDirty();
    SceneFits(me, args, m);
    r := Advance(me, args, m, Scene(m, []), m.lines);
  }

  lemma NewFileIsDirty()
    ensures forall c: Ctx :: c.preReviewerGitStatus == Some([]) ==> DirtyReason(c, LEFTOVER).Some?
  {
    hide PathPart;
    var line := "?? leftover";
    assert PathPart(line) != OUTBOX_REL by {
      PathPartShrinks(line);
    }
    assert LEFTOVER[0] == line && line in DirtyLines([], LEFTOVER);
  }

  lemma PathPartShrinks(line: string)
    ensures |PathPart(line)| <= |line|
  {
  }

  /**
   * The intended property, "a cleanup retry that leaves the workspace clean carries the stored verdict
   * to the gate", fails in every configuration that can read any verdict at all, in a plausible run: its
   * last iteration collects a cleanup retry with this verdict stored, the workspace is clean, and yet the
   * retry counts as a failure.
   */
  lemma CleanWorkspaceIsNotEnough(me: nat, args: Args, raw: string, d: Decision)
    returns (t: Trace, clock: seq<int>, trees: seq<seq<string>>)
    requires raw != "" && Delivers(args, raw, d)
    ensures IsRun(me, args, t) && Plausible(t, clock, trees) && t.inputs != []
    ensures var last := |t.inputs| - 1;
            var c := CtxAt(t, last);
            && c.runState.ReviewerOutputCollect? && c.reviewResult.Some? && c.preReviewerGitStatus.Some?
            && c.reviewResultYamlRaw == Some(raw)
            && Untroubled(t.inputs[last]) && CleanWorkspace(c, t.inputs[last].reviewerCollect.gitStatusAll)
            && StateAt(t, last + 1) == RoundRetryDecide
  {
    hide Inv, Ready, Watching, IsRun, Plausible, Next, VerifyRequestFingerprint, Delivers, Fits, Later;
    var m := Reviews(me, args, raw, LEFTOVER);
    m := LeavesFile(me, args, m, raw, d);
    m := Decides(me, args, m, Reviewer, 1);
    m := Dispatches(me, args, m, Reviewer, 1);
    m := Monitors(me, args, m, Reviewer, 1, m.world.files.outbox, [], {});
    var u, now, lines :| Leads(me, args, u, now, lines, m);
    SceneFits(me, args, m);
    t, clock, trees := Extend(me, args, u, now, lines, m, Scene(m, []), m.lines);
    CleanupOutcomeExact(me, m.sys.ctx, Scene(m, []));
    LastCtx(me, args, u, now, lines, m);
  }

  lemma LastCtx(me: nat, args: Args, t: Trace, clock: seq<int>, trees: seq<seq<string>>, m: Moment)
    requires Leads(me, args, t, clock, trees, m)
    ensures Sized(t) && CtxAt(t, |t.inputs|) == m.sys.ctx
  {
    hide Plausible, Iterates;
  }

  // ---- a cleaner that never touches the outbox ----

  /** From state m on, every collection finds the outbox as its dispatch found it. */
  ghost predicate LeavesOutboxAlone(t: Trace, m: nat)
    requires Sized(t)
  {
    forall n :: m <= n < |t.inputs| && StateAt(t, n) == ReviewerOutputCollect ==>
      OutboxUntouched(CtxAt(t, n), OutboxAt(t, n))
  }

  /** A terminal state that carries no decision of the reviewer. */
  predicate Undecided(s: RunState)
  {
    s.IsTerminal() && !Judged(s)
  }

  lemma PendingStays(me: nat, c: Ctx, i: Input, d: Ctx)
    requires Inv(c) && Inv(d) && Move(me, c, i, d) && ReviewerHalf(c) && c.reviewResult.Some?
    requires !d.runState.IsTerminal()
    requires c.runState.ReviewerOutputCollect? ==> OutboxUntouched(c, i.world.files.outbox)
    ensures ReviewerHalf(d) && SameVerdict(c, d)
  {
    hide LocksInv, SessionsInv, FailuresInv, VerifyRequestFingerprint, TemplateFor, Fresh, HasVerdict, DirtyReason;
    hide OutboxUntouched;
  }

  lemma PendingEnds(me: nat, c: Ctx, i: Input, d: Ctx)
    requires Move(me, c, i, d) && ReviewerHalf(c) && d.runState.IsTerminal()
    ensures Undecided(d.runState)
  {
    hide LiveMove;
  }

  lemma DispatchIsReviewerHalf(c: Ctx)
    ensures c.runState.ReviewerDispatch? ==> ReviewerHalf(c)
  {
  }

  /** One iteration of a run with a stored verdict and an untouched outbox. */
  lemma PendingStep(me: nat, args: Args, t: Trace, n: nat)
    requires IsRun(me, args, t) && n < |t.inputs|
    requires StateAt(t, n) == ReviewerOutputCollect ==> OutboxUntouched(CtxAt(t, n), OutboxAt(t, n))
    ensures var c, d := CtxAt(t, n), CtxAt(t, n + 1);
            && (Undecided(c.runState) ==> Undecided(d.runState))
            && (ReviewerHalf(c) && c.reviewResult.Some? ==>
                  Undecided(d.runState) || (ReviewerHalf(d) && d.reviewResult == c.reviewResult))
  {
    hide Inv, Move, Iterates, OutboxUntouched;
    RunMoves(me, args, t, n);
    var c, i, d := CtxAt(t, n), t.inputs[n], CtxAt(t, n + 1);
    Budget.TerminalStays(me, c, i, d);
    if ReviewerHalf(c) && c.reviewResult.Some? {
      if d.runState.IsTerminal() {
        PendingEnds(me, c, i, d);
      } else {
        PendingStays(me, c, i, d);
      }
    }
  }

  /**
   * A reviewer that cleans up but never rewrites the outbox: its verdict never reaches the gate. The
   * run stays in the reviewer's half with the same verdict until it ends without a decision.
   */
  lemma {:induction false} UntouchedOutboxNeverReachesGate(me: nat, args: Args, t: Trace, m: nat, n: nat)
    requires IsRun(me, args, t) && m <= n <= |t.inputs|
    requires StateAt(t, m) == ReviewerDispatch && CtxAt(t, m).reviewResult.Some?
    requires LeavesOutboxAlone(t, m)
    ensures || Undecided(StateAt(t, n))
            || (ReviewerHalf(CtxAt(t, n)) && CtxAt(t, n).reviewResult == CtxAt(t, m).reviewResult)
    decreases n
  {
    hide Iterates, OutboxUntouched, ReviewerHalf, Undecided;
    if m < n {
      UntouchedOutboxNeverReachesGate(me, args, t, m, n - 1);
      PendingStep(me, args, t, n - 1);
    } else {
      DispatchIsReviewerHalf(CtxAt(t, m));
    }
  }

  /** In the reviewer's half the measure of a pending cleanup falls with every live iteration that moves. */
  lemma {:induction false} PendingMeasure(me: nat, args: Args, t: Trace, m: nat, n: nat)
    requires IsRun(me, args, t) && m <= n <= |t.inputs|
    requires StateAt(t, m) == ReviewerDispatch && CtxAt(t, m).reviewResult.Some?
    requires LeavesOutboxAlone(t, m)
    requires !StateAt(t, n).IsTerminal()
    ensures Budget.Moving(t, n) - Budget.Moving(t, m) + Budget.Measure(0, CtxAt(t, n)) <= 88
    decreases n
  {
    hide Iterates, Budget.Edge, Inv, LeavesOutboxAlone;
    if m == n {
    } else {
      Budget.RunEdges(me, args, t, n - 1);
      PendingMeasure(me, args, t, m, n - 1);
      UntouchedOutboxNeverReachesGate(me, args, t, m, n);
      if Budget.Stays(t, n - 1) {
        Budget.StayKeepsMeasure(CtxAt(t, n - 1), CtxAt(t, n), 0);
      } else {
        Budget.EdgeDecreases(CtxAt(t, n - 1), CtxAt(t, n), 0);
      }
    }
  }

  /** No fault, service cap or cancellation ends the run: from m on, at most a retry decision does. */
  predicate EndsOnlyByRetry(t: Trace, m: nat)
    requires Sized(t)
  {
    forall k :: m <= k < |t.inputs| && !StateAt(t, k).IsTerminal() && StateAt(t, k + 1).IsTerminal() ==>
      StateAt(t, k) == RoundRetryDecide && !t.inputs[k].cancelled
  }

  lemma {:induction false} EndsAtLimit(me: nat, args: Args, t: Trace, m: nat, n: nat)
    requires IsRun(me, args, t) && m <= n <= |t.inputs|
    requires !StateAt(t, m).IsTerminal() && EndsOnlyByRetry(t, m)
    ensures StateAt(t, n).IsTerminal() ==> StateAt(t, n) == RunFailedConsecutiveFailureLimit
  {
    hide Iterates, Inv;
    if m == n {
    } else {
      EndsAtLimit(me, args, t, m, n - 1);
      if StateAt(t, n - 1).IsTerminal() {
        RunMoves(me, args, t, n - 1);
      } else if StateAt(t, n).IsTerminal() {
        Budget.LimitExact(me, args, t, n - 1);
      }
    }
  }

  /**
   * Such a cleaner uses up the failure budget: once 89 iterations did more than probe, the run is over
   * without a decision; and if nothing else ends it, it ends at the failure limit.
   */
  lemma UntouchedOutboxExhaustsBudget(me: nat, args: Args, t: Trace, m: nat, n: nat)
    requires IsRun(me, args, t) && m <= n <= |t.inputs| && Budget.Moving(t, n) >= Budget.Moving(t, m) + 89
    requires StateAt(t, m) == ReviewerDispatch && CtxAt(t, m).reviewResult.Some?
    requires LeavesOutboxAlone(t, m)
    ensures Undecided(StateAt(t, n))
    ensures EndsOnlyByRetry(t, m) ==> StateAt(t, n) == RunFailedConsecutiveFailureLimit
  {
    hide Iterates, LeavesOutboxAlone, EndsOnlyByRetry;
    if !StateAt(t, n).IsTerminal() {
      PendingMeasure(me, args, t, m, n);
      RunInv(me, args, t, n);
    }
    UntouchedOutboxNeverReachesGate(me, args, t, m, n);
    if EndsOnlyByRetry(t, m) {
      EndsAtLimit(me, args, t, m, n);
    }
  }

  /** In particular within 89 iterations if its monitor calls return. */
  lemma UntouchedOutboxEndsSoon(me: nat, args: Args, t: Trace, m: nat)
    requires IsRun(me, args, t) && m + 89 <= |t.inputs|
    requires StateAt(t, m) == ReviewerDispatch && CtxAt(t, m).reviewResult.Some?
    requires LeavesOutboxAlone(t, m)
    requires forall k :: m <= k < |t.inputs| ==> Budget.MonitorReturns(t, k)
    ensures Undecided(StateAt(t, m + 89))
    ensures EndsOnlyByRetry(t, m) ==> StateAt(t, m + 89) == RunFailedConsecutiveFailureLimit
  {
    hide Iterates, LeavesOutboxAlone, EndsOnlyByRetry;
    Budget.AllMove(t, m, m + 89);
    UntouchedOutboxExhaustsBudget(me, args, t, m, m + 89);
  }
}
