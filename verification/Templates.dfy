/** Which request template is sent at each dispatch, over whole runs. */
module Templates {
  import opened Base
  import opened State
  import opened YamlCheck
  import opened Transport
  import opened Probing
  import opened Phases
  import opened Invariants
  import opened Moves
  import opened Runs

  // ---- executor ----

  lemma ExecutorHalfBeforeAttempt(me: nat, c: Ctx, i: Input, d: Ctx)
    requires c.runState.IsMonitor() || c.runState.ExecutorDispatch? || c.runState.ReviewerDispatch?
    requires Inv(c) && Inv(d) && Move(me, c, i, d) && ExecutorHalf(d)
    ensures ExecutorHalf(c) && d.reviewResult == c.reviewResult
  {
    hide LocksInv, SessionsInv, FailuresInv, VerifyRequestFingerprint, TemplateFor, Fresh, HasVerdict, LastMove;
    hide SameDispatch;
  }

  lemma CollectIsReviewerHalf(me: nat, c: Ctx, i: Input, d: Ctx)
    requires c.runState.ReviewerOutputCollect? && ChildInv(c) && Move(me, c, i, d)
    ensures !ExecutorHalf(d)
  {
    hide DispatchMove, MonitorMove, HasVerdict, DirtyReason, OutboxUntouched, ReadableReport, IsVerdict;
  }

  lemma ExecutorHalfBeforeOther(me: nat, c: Ctx, i: Input, d: Ctx)
    requires !c.runState.IsMonitor() && !c.runState.ExecutorDispatch? && !c.runState.ReviewerDispatch?
    requires Inv(c) && Inv(d) && Move(me, c, i, d) && ExecutorHalf(d)
    ensures ExecutorHalf(c) || c.runState.QualityGate?
    ensures d.reviewResult == c.reviewResult
    ensures c.runState.QualityGate? ==> d.reviewResult.Some?
  {
    hide LocksInv, SessionsInv, FailuresInv, HasVerdict, DispatchMove, MonitorMove, CollectMove, LastMove;
    if c.runState.ReviewerOutputCollect? {
      CollectIsReviewerHalf(me, c, i, d);
    } else if c.runState.RoundRetryDecide? {
      var role := c.currentRole.value;
      assert role == Executor || role == Reviewer;
    }
  }

  /** The last gate visit before state n. */
  predicate LastGate(t: Trace, g: nat, n: nat)
    requires n < |t.states|
  {
    && g < n && StateAt(t, g) == QualityGate
    && forall i :: g < i < n ==> CtxAt(t, i).runState != QualityGate
  }

  /**
   * In the executor's half of a round a verdict is stored exactly when a gate was visited, and it is
   * the verdict of the last gate: a revise with feedback.
   */
  lemma {:induction false} FeedbackOrigin(me: nat, args: Args, t: Trace, n: nat) returns (g: Option<nat>)
    requires IsRun(me, args, t) && n <= |t.inputs| && ExecutorHalf(CtxAt(t, n))
    ensures g.None? ==>
              CtxAt(t, n).reviewResult.None? && forall i :: 0 <= i < n ==> CtxAt(t, i).runState != QualityGate
    ensures g.Some? ==>
              LastGate(t, g.value, n) && CtxAt(t, n).reviewResult.Some?
              && CtxAt(t, n).reviewResult == CtxAt(t, g.value).reviewResult
  {
    hide Inv, Move, Iterates;
    RunInv(me, args, t, n);
    if n == 0 {
      g := None;
    } else {
      RunMoves(me, args, t, n - 1);
      var c, d := CtxAt(t, n - 1), CtxAt(t, n);
      if c.runState.IsMonitor() || c.runState.ExecutorDispatch? || c.runState.ReviewerDispatch? {
        ExecutorHalfBeforeAttempt(me, c, t.inputs[n - 1], d);
      } else {
        ExecutorHalfBeforeOther(me, c, t.inputs[n - 1], d);
      }
      if c.runState.QualityGate? {
        g := Some(n - 1);
      } else {
        g := FeedbackOrigin(me, args, t, n - 1);
      }
    }
  }

  /**
   * The executor's template, retries included: the initial request exactly while no gate was visited,
   * and otherwise the feedback of the last gate's revise verdict, which is never empty.
   */
  lemma ExecutorTemplateExact(me: nat, args: Args, t: Trace, n: nat)
    requires IsRun(me, args, t) && n <= |t.inputs| && StateAt(t, n) == ExecutorDispatch
    ensures TemplateFor(CtxAt(t, n), Executor) == ExecutorInitial <==>
              forall g :: 0 <= g < n ==> CtxAt(t, g).runState != QualityGate
    ensures TemplateFor(CtxAt(t, n), Executor) == ExecutorFeedback <==>
              exists g: nat :: LastGate(t, g, n) && CtxAt(t, g).reviewResult.Some?
                && CtxAt(t, g).reviewResult.value.decision == Revise
                && CtxAt(t, g).reviewResult.value.feedbackForExecutor != []
                && CtxAt(t, n).reviewResult == CtxAt(t, g).reviewResult
  {
    hide LocksInv, ChildInv, FailuresInv, SessionsInv, IsVerdict, Iterates;
    RunInv(me, args, t, n);
    var g := FeedbackOrigin(me, args, t, n);
    if g.Some? {
      var c := CtxAt(t, n);
      NonAcceptVerdictCarriesReason(args.parse, args.notionPolicy, c.reviewResultYamlRaw.value, c.reviewResult.value);
      assert LastGate(t, g.value, n);
    }
  }

  // ---- reviewer ----

  /** Iteration i of the run parsed a report. */
  ghost predicate ParsesAt(t: Trace, i: nat)
    requires Sized(t) && i < |t.inputs|
  {
    && StateAt(t, i) == ReviewerOutputCollect && !StateAt(t, i + 1).IsTerminal()
    && CtxAt(t, i).reviewResult.None? && ReadableReport(CtxAt(t, i), OutboxAt(t, i))
  }

  /** A report was parsed at iteration i of the reviewer half that state n is in, and no verdict came of it. */
  ghost predicate RejectedSince(t: Trace, i: nat, n: nat)
    requires Sized(t) && i < n <= |t.inputs|
  {
    && ParsesAt(t, i)
    && forall k :: i < k <= n ==> ReviewerHalf(CtxAt(t, k)) && CtxAt(t, k).reviewResult.None?
  }

  /** This round's latest parsed report was rejected. */
  ghost predicate RejectedBy(t: Trace, n: nat)
    requires Sized(t) && n <= |t.inputs|
  {
    exists i :: 0 <= i < n && RejectedSince(t, i, n)
  }

  lemma RejectionBeforeAttempt(me: nat, c: Ctx, i: Input, d: Ctx)
    requires c.runState.IsMonitor() || c.runState.ExecutorDispatch? || c.runState.ReviewerDispatch?
    requires Inv(c) && Inv(d) && Move(me, c, i, d) && ReviewerHalf(d)
    ensures ReviewerHalf(c) && d.reviewResult == c.reviewResult
    ensures d.reviewerYamlRejection == c.reviewerYamlRejection
  {
    hide LocksInv, SessionsInv, FailuresInv, VerifyRequestFingerprint, TemplateFor, Fresh, HasVerdict, LastMove;
    hide SameDispatch;
  }

  lemma RejectionBeforeCollect(me: nat, c: Ctx, i: Input, d: Ctx)
    requires c.runState.ReviewerOutputCollect?
    requires Inv(c) && Inv(d) && Move(me, c, i, d) && ReviewerHalf(d) && d.reviewResult.None?
    ensures c.reviewResult.None?
    ensures d.reviewerYamlRejection.Some? <==>
              c.reviewerYamlRejection.Some? || ReadableReport(c, i.world.files.outbox)
  {
    hide LocksInv, SessionsInv, FailuresInv, HasVerdict, DirtyReason, OutboxUntouched, IsVerdict;
  }

  lemma RejectionBeforeRetry(me: nat, c: Ctx, i: Input, d: Ctx)
    requires c.runState.RoundRetryDecide?
    requires Inv(c) && Move(me, c, i, d) && ReviewerHalf(d)
    ensures ReviewerHalf(c)
    ensures d.reviewResult == c.reviewResult && d.reviewerYamlRejection == c.reviewerYamlRejection
  {
    hide LocksInv, SessionsInv, FailuresInv, VerdictInv;
  }

  /** The reviewer's half is otherwise entered only from the executor's, with nothing pending. */
  lemma RejectionBeforeVerify(me: nat, c: Ctx, i: Input, d: Ctx)
    requires !c.runState.IsMonitor() && !c.runState.ExecutorDispatch? && !c.runState.ReviewerDispatch?
    requires !c.runState.ReviewerOutputCollect? && !c.runState.RoundRetryDecide?
    requires Inv(c) && Move(me, c, i, d) && ReviewerHalf(d)
    ensures c.runState.OrchVerify? && d.reviewerYamlRejection.None?
  {
    hide LocksInv, SessionsInv, FailuresInv, VerdictInv, ChildInv, DispatchMove, MonitorMove, CollectMove;
  }

  /** A rejected document is pending exactly when this round's latest parsed report was rejected. */
  lemma {:induction false} RejectionExact(me: nat, args: Args, t: Trace, n: nat)
    requires IsRun(me, args, t) && n <= |t.inputs|
    requires ReviewerHalf(CtxAt(t, n)) && CtxAt(t, n).reviewResult.None?
    ensures CtxAt(t, n).reviewerYamlRejection.Some? <==> RejectedBy(t, n)
  {
    hide Inv, Move, Iterates, ReadableReport;
    RunInv(me, args, t, 0);
    RunMoves(me, args, t, n - 1);
    var c, d := CtxAt(t, n - 1), CtxAt(t, n);
    if c.runState.IsMonitor() || c.runState.ExecutorDispatch? || c.runState.ReviewerDispatch? {
      RejectionBeforeAttempt(me, c, t.inputs[n - 1], d);
      RejectionExact(me, args, t, n - 1);
      RejectionCarries(t, n);
    } else if c.runState.ReviewerOutputCollect? {
      RejectionBeforeCollect(me, c, t.inputs[n - 1], d);
      RejectionExact(me, args, t, n - 1);
      RejectionCarries(t, n);
    } else if c.runState.RoundRetryDecide? {
      RejectionBeforeRetry(me, c, t.inputs[n - 1], d);
      RejectionExact(me, args, t, n - 1);
      RejectionCarries(t, n);
    } else {
      RejectionBeforeVerify(me, c, t.inputs[n - 1], d);
      forall i | 0 <= i < n ensures !RejectedSince(t, i, n) {
        assert CtxAt(t, n - 1) == c;
      }
    }
  }

  /** A rejection pending at n was pending at n - 1, or was made by the iteration in between. */
  lemma RejectionCarries(t: Trace, n: nat)
    requires Sized(t) && 0 < n <= |t.inputs|
    requires ReviewerHalf(CtxAt(t, n)) && CtxAt(t, n).reviewResult.None?
    requires ReviewerHalf(CtxAt(t, n - 1)) && CtxAt(t, n - 1).reviewResult.None?
    ensures RejectedBy(t, n) <==>
              ParsesAt(t, n - 1) || RejectedBy(t, n - 1)
  {
    hide ReviewerHalf;
    if ParsesAt(t, n - 1) {
      assert RejectedSince(t, n - 1, n);
    } else if RejectedBy(t, n - 1) {
      var m := n - 1;
      var i :| 0 <= i < m && RejectedSince(t, i, m);
      assert RejectedSince(t, i, n);
    }
    if RejectedBy(t, n) {
      var i :| 0 <= i < n && RejectedSince(t, i, n);
      if i < n - 1 {
        assert RejectedSince(t, i, n - 1);
      }
    }
  }

  /**
   * The reviewer's template: workspace repair exactly when a verdict is stored, YAML repair exactly
   * when this round's latest parsed report was rejected, and a plain review otherwise.
   */
  lemma ReviewerTemplateExact(me: nat, args: Args, t: Trace, n: nat)
    requires IsRun(me, args, t) && n <= |t.inputs| && StateAt(t, n) == ReviewerDispatch
    ensures TemplateFor(CtxAt(t, n), Reviewer) == ReviewerRepairWorkspace <==> CtxAt(t, n).reviewResult.Some?
    ensures TemplateFor(CtxAt(t, n), Reviewer) == ReviewerRepairYaml <==> RejectedBy(t, n)
    ensures TemplateFor(CtxAt(t, n), Reviewer) in {ReviewerRepairWorkspace, ReviewerRepairYaml, ReviewerReview}
  {
    hide LocksInv, ChildInv, FailuresInv, SessionsInv, IsVerdict, Iterates, ReadableReport;
    RunInv(me, args, t, n);
    if CtxAt(t, n).reviewResult.None? {
      RejectionExact(me, args, t, n);
    } else {
      forall i | 0 <= i < n ensures !RejectedSince(t, i, n) {
        assert CtxAt(t, n).reviewResult.Some?;
      }
    }
  }
}
