/** Whole runs of the orchestrator against an arbitrary environment. */
module Runs {
  import opened Base
  import opened State
  import opened YamlCheck
  import opened Transport
  import opened Probing
  import opened Phases
  import opened Invariants
  import opened Moves

  // A run: the systems it goes through and the input of each iteration.
  datatype Trace = Trace(states: seq<Sys>, inputs: seq<Input>)

  predicate Sized(t: Trace)
  {
    |t.states| == |t.inputs| + 1
  }

  function CtxAt(t: Trace, n: nat): Ctx
    requires n < |t.states|
  {
    t.states[n].ctx
  }

  function StateAt(t: Trace, n: nat): RunState
    requires n < |t.states|
  {
    t.states[n].ctx.runState
  }

  function OutboxAt(t: Trace, n: nat): Option<File>
    requires n < |t.inputs|
  {
    t.inputs[n].world.files.outbox
  }

  /** Iteration n follows the run loop. */
  ghost predicate Iterates(me: nat, t: Trace, n: nat)
    requires Sized(t) && n < |t.inputs|
  {
    Wf(CtxAt(t, n)) && t.states[n + 1] == Next(me, CtxAt(t, n), t.inputs[n])
  }

  ghost predicate IsRun(me: nat, args: Args, t: Trace)
  {
    && Sized(t) && CtxAt(t, 0) == InitialCtx(args)
    && forall n :: 0 <= n < |t.inputs| ==> Iterates(me, t, n)
  }

  /** Everything an iteration reads of the clock lies between two times, in order. */
  predicate TimesWithin(i: Input, lo: int, hi: int)
  {
    && lo <= i.dispatch.resetAt <= i.dispatch.writtenAt <= i.dispatch.now <= hi
    && (forall k :: 0 <= k < |i.probes| ==> lo <= i.probes[k].now <= hi)
    && (forall j, k :: 0 <= j <= k < |i.probes| ==> i.probes[j].now <= i.probes[k].now)
  }

  predicate TimesAt(t: Trace, clock: seq<int>, n: nat)
    requires n < |t.inputs| && n + 1 < |clock|
  {
    TimesWithin(t.inputs[n], clock[n], clock[n + 1])
  }

  /** The clock never runs backwards; clock[n] is a time between iterations n - 1 and n. */
  predicate RunsForward(t: Trace, clock: seq<int>)
  {
    |clock| == |t.inputs| + 1 && forall n :: 0 <= n < |t.inputs| ==> TimesAt(t, clock, n)
  }

  /** Every input sequence drives a run. */
  lemma {:induction false} RunExists(me: nat, args: Args, world: World, inputs: seq<Input>) returns (t: Trace)
    ensures IsRun(me, args, t) && t.inputs == inputs
  {
    hide Next;
    if inputs == [] {
      t := Trace([Sys(InitialCtx(args), world)], []);
    } else {
      var last := |inputs| - 1;
      var u := RunExists(me, args, world, inputs[..last]);
      RunInv(me, args, u, last);
      t := Trace(u.states + [Next(me, CtxAt(u, last), inputs[last])], inputs);
      forall n | 0 <= n < |inputs| ensures Iterates(me, t, n) {
        if n < last {
          assert Iterates(me, u, n);
        }
      }
    }
  }

  /** The invariant holds in every state of every run. */
  lemma {:induction false} RunInv(me: nat, args: Args, t: Trace, n: nat)
    requires IsRun(me, args, t) && n <= |t.inputs|
    ensures Inv(CtxAt(t, n)) && CtxAt(t, n).args == args
  {
    hide Next, LocksInv, VerdictInv, SessionsInv, ChildInv, FailuresInv;
    if n == 0 {
      InitialInv(args);
    } else {
      RunInv(me, args, t, n - 1);
      assert Iterates(me, t, n - 1);
      NextKeeps(me, CtxAt(t, n - 1), t.inputs[n - 1]);
      NextArgs(me, CtxAt(t, n - 1), t.inputs[n - 1]);
    }
  }

  lemma NextArgs(me: nat, c: Ctx, i: Input)
    requires Inv(c)
    ensures Next(me, c, i).ctx.args == c.args
  {
    hide Next, LocksInv, VerdictInv, SessionsInv, ChildInv, FailuresInv, DirtyReason, IsVerdict;
    NextMoves(me, c, i);
  }

  /** Every iteration of a run is a move between contexts that satisfy the invariant. */
  lemma RunMoves(me: nat, args: Args, t: Trace, n: nat)
    requires IsRun(me, args, t) && n < |t.inputs|
    ensures Inv(CtxAt(t, n)) && Inv(CtxAt(t, n + 1))
    ensures CtxAt(t, n).args == args && CtxAt(t, n + 1).args == args
    ensures Move(me, CtxAt(t, n), t.inputs[n], CtxAt(t, n + 1))
  {
    hide Next, Move, LocksInv, VerdictInv, SessionsInv, ChildInv, FailuresInv;
    RunInv(me, args, t, n);
    RunInv(me, args, t, n + 1);
    assert Iterates(me, t, n);
    NextMoves(me, CtxAt(t, n), t.inputs[n]);
  }

  /**
   * No run reaches the protocol or provider-access failure: agent protocol errors are always retried
   * and provider access errors never end a run.
   */
  lemma UnreachableTerminals(me: nat, args: Args, t: Trace, n: nat)
    requires IsRun(me, args, t) && n <= |t.inputs|
    ensures StateAt(t, n) != RunFailedProtocol && StateAt(t, n) != RunFailedProviderAccess
    ensures StateAt(t, n) != RunInit
  {
    RunInv(me, args, t, n);
  }

  /** At every dispatch this run holds neither lock and no earlier child may still be alive. */
  lemma DispatchAlone(me: nat, args: Args, t: Trace, n: nat)
    requires IsRun(me, args, t) && n <= |t.inputs|
    ensures StateAt(t, n) == ExecutorDispatch || StateAt(t, n) == ReviewerDispatch ==>
              && !CtxAt(t, n).executorLock && !CtxAt(t, n).reviewerLock
              && (CtxAt(t, n).activeProcess.Some? ==> !CtxAt(t, n).activeProcess.value.alive)
    ensures StateAt(t, n) == ExecutorMonitor ==> CtxAt(t, n).executorLock && !CtxAt(t, n).reviewerLock
    ensures StateAt(t, n) == ReviewerMonitor ==> CtxAt(t, n).reviewerLock && !CtxAt(t, n).executorLock
  {
    RunInv(me, args, t, n);
  }

  // ---- where verdicts come from ----

  /** The dispatch at k started the reviewer attempt that state n monitors or collects. */
  ghost predicate AttemptFrom(t: Trace, k: nat, n: nat)
    requires Sized(t) && k < n <= |t.inputs|
  {
    && StateAt(t, k) == ReviewerDispatch
    && CtxAt(t, n).attempt.Some?
    && CtxAt(t, n).attempt.value.preReviewerOutboxMtime == Mtime(OutboxAt(t, k))
    && (forall i :: k < i <= n ==> CtxAt(t, i).runState.ReviewerMonitor? || CtxAt(t, i).runState.ReviewerOutputCollect?)
    && CtxAt(t, n).reviewResult == CtxAt(t, k).reviewResult
    && CtxAt(t, n).reviewResultYamlRaw == CtxAt(t, k).reviewResultYamlRaw
    && CtxAt(t, n).preReviewerGitStatus ==
         (if CtxAt(t, k).reviewerWorkspaceRejection.None? then Some(t.inputs[k].dispatch.gitStatusAll)
          else CtxAt(t, k).preReviewerGitStatus)
  }

  /** Only its dispatch leads into the reviewer's monitor, and only the monitor to the collection. */
  lemma StateBeforeMonitor(me: nat, c: Ctx, i: Input, d: Ctx)
    requires Inv(c) && Inv(d) && Move(me, c, i, d)
    requires d.runState.ReviewerMonitor? || d.runState.ReviewerOutputCollect?
    ensures c.runState.ReviewerDispatch? || c.runState.ReviewerMonitor?
  {
    hide VerdictInv, SessionsInv, FailuresInv, LastMove, VerifyRequestFingerprint, TemplateFor, Fresh;
  }

  lemma ReviewerDispatchEntry(me: nat, c: Ctx, i: Input, d: Ctx)
    requires c.runState.ReviewerDispatch? && Move(me, c, i, d) && !d.runState.IsTerminal()
    ensures d.runState.ReviewerMonitor? && d.attempt.Some?
    ensures d.attempt.value.preReviewerOutboxMtime == Mtime(i.world.files.outbox)
    ensures d.reviewResult == c.reviewResult && d.reviewResultYamlRaw == c.reviewResultYamlRaw
    ensures d.preReviewerGitStatus ==
            (if c.reviewerWorkspaceRejection.None? then Some(i.dispatch.gitStatusAll) else c.preReviewerGitStatus)
  {
    hide VerifyRequestFingerprint, TemplateFor, Fresh;
  }

  lemma ReviewerMonitorStep(me: nat, c: Ctx, i: Input, d: Ctx)
    requires c.runState.ReviewerMonitor? && Move(me, c, i, d) && !d.runState.IsTerminal()
    ensures MonitorMove(c, Reviewer, d)
  {
  }

  /** A monitor iteration hands on where the attempt came from. */
  lemma AttemptContinues(t: Trace, k: nat, n: nat)
    requires Sized(t) && k < n < |t.inputs| && AttemptFrom(t, k, n)
    requires MonitorMove(CtxAt(t, n), Reviewer, CtxAt(t, n + 1))
    requires StateAt(t, n + 1) == ReviewerMonitor || StateAt(t, n + 1) == ReviewerOutputCollect
    ensures AttemptFrom(t, k, n + 1)
  {
  }

  /** The dispatch itself is where its attempt came from. */
  lemma AttemptStarts(me: nat, t: Trace, k: nat)
    requires Sized(t) && k < |t.inputs| && StateAt(t, k) == ReviewerDispatch
    requires Move(me, CtxAt(t, k), t.inputs[k], CtxAt(t, k + 1)) && !StateAt(t, k + 1).IsTerminal()
    ensures AttemptFrom(t, k, k + 1)
  {
    hide Move;
    ReviewerDispatchEntry(me, CtxAt(t, k), t.inputs[k], CtxAt(t, k + 1));
  }

  lemma {:induction false} AttemptOrigin(me: nat, args: Args, t: Trace, n: nat) returns (k: nat)
    requires IsRun(me, args, t) && n <= |t.inputs|
    requires StateAt(t, n) == ReviewerMonitor || StateAt(t, n) == ReviewerOutputCollect
    ensures k < n && AttemptFrom(t, k, n)
  {
    hide Inv, Move, Iterates, MonitorMove, AttemptFrom;
    RunInv(me, args, t, 0);
    RunMoves(me, args, t, n - 1);
    var c, i, d := CtxAt(t, n - 1), t.inputs[n - 1], CtxAt(t, n);
    StateBeforeMonitor(me, c, i, d);
    if StateAt(t, n - 1) == ReviewerDispatch {
      k := n - 1;
      AttemptStarts(me, t, k);
    } else {
      ReviewerMonitorStep(me, c, i, d);
      k := AttemptOrigin(me, args, t, n - 1);
      AttemptContinues(t, k, n - 1);
    }
  }

  ghost predicate SameVerdict(c: Ctx, d: Ctx)
  {
    && c.reviewResult == d.reviewResult && c.reviewResultYamlRaw == d.reviewResultYamlRaw
    && c.preReviewerGitStatus == d.preReviewerGitStatus
  }

  /**
   * The verdict stored at state n was read at state j from an outbox written after the reviewer's
   * dispatch at state k, in the executor round that is still current, and it passed every rule. The
   * stored verdict, its text and the git baseline of dispatch k have been frozen since.
   */
  ghost predicate VerdictFrom(t: Trace, k: nat, j: nat, n: nat)
    requires Sized(t) && k < j < n <= |t.inputs|
  {
    && StateAt(t, k) == ReviewerDispatch && StateAt(t, j) == ReviewerOutputCollect
    && CtxAt(t, j).reviewResult.None? && CtxAt(t, j).attempt.Some?
    && CtxAt(t, j).attempt.value.preReviewerOutboxMtime == Mtime(OutboxAt(t, k))
    && OutboxAt(t, j).Some? && OutboxAt(t, j).value.body.Text?
    && Mtime(OutboxAt(t, j)) != Mtime(OutboxAt(t, k))
    && CtxAt(t, n).reviewResultYamlRaw == Some(OutboxAt(t, j).value.body.text)
    && HasVerdict(CtxAt(t, n))
    && CtxAt(t, n).preReviewerGitStatus == Some(t.inputs[k].dispatch.gitStatusAll)
    && (forall i :: k <= i <= n ==> !ExecutorHalf(CtxAt(t, i)))
    && (forall i :: j < i <= n ==> SameVerdict(CtxAt(t, i), CtxAt(t, n)))
  }

  /** The states in which a stored verdict awaits cleanup or the gate, or has just been accepted. */
  predicate HoldsVerdict(c: Ctx)
  {
    c.reviewResult.Some? && (ReviewerHalf(c) || c.runState.QualityGate? || c.runState.RunDone?)
  }

  lemma VerdictBeforeCollect(me: nat, c: Ctx, i: Input, d: Ctx)
    requires c.runState.ReviewerOutputCollect? && Inv(c)
    requires Move(me, c, i, d) && HoldsVerdict(d)
    ensures if c.reviewResult.None? then
              ReadableReport(c, i.world.files.outbox)
              && d.reviewResultYamlRaw == Some(i.world.files.outbox.value.body.text)
              && d.preReviewerGitStatus == c.preReviewerGitStatus
            else
              SameVerdict(c, d)
  {
    hide LocksInv, SessionsInv, FailuresInv, ChildInv, IsVerdict, DirtyReason, OutboxUntouched;
  }

  lemma VerdictBeforeAttempt(me: nat, c: Ctx, i: Input, d: Ctx)
    requires c.runState.IsMonitor() || c.runState.ReviewerDispatch? || c.runState.ExecutorDispatch?
    requires Inv(c) && Inv(d) && Move(me, c, i, d) && HoldsVerdict(d)
    ensures HoldsVerdict(c) && SameVerdict(c, d)
  {
    hide LocksInv, SessionsInv, FailuresInv, VerifyRequestFingerprint, TemplateFor, Fresh, HasVerdict;
  }

  lemma VerdictBeforeOther(me: nat, c: Ctx, i: Input, d: Ctx)
    requires !c.runState.IsMonitor() && !c.runState.ReviewerDispatch? && !c.runState.ExecutorDispatch?
    requires !c.runState.ReviewerOutputCollect?
    requires Inv(c) && Inv(d) && Move(me, c, i, d) && HoldsVerdict(d)
    ensures HoldsVerdict(c) && SameVerdict(c, d)
  {
    hide LocksInv, SessionsInv, FailuresInv, ChildInv, HasVerdict, DispatchMove, CollectMove, MonitorMove;
  }

  /** A verdict held after a move was held before it, unless the move read it from the outbox. */
  lemma VerdictBefore(me: nat, c: Ctx, i: Input, d: Ctx)
    requires Inv(c) && Inv(d) && Move(me, c, i, d) && HoldsVerdict(d)
    ensures if c.runState.ReviewerOutputCollect? && c.reviewResult.None? then
              ReadableReport(c, i.world.files.outbox)
              && d.reviewResultYamlRaw == Some(i.world.files.outbox.value.body.text)
              && d.preReviewerGitStatus == c.preReviewerGitStatus
            else
              HoldsVerdict(c) && SameVerdict(c, d)
    ensures !ExecutorHalf(d)
  {
    hide Inv, Move, SameVerdict, ReadableReport;
    if c.runState.ReviewerOutputCollect? {
      VerdictBeforeCollect(me, c, i, d);
    } else if c.runState.IsMonitor() || c.runState.ReviewerDispatch? || c.runState.ExecutorDispatch? {
      VerdictBeforeAttempt(me, c, i, d);
    } else {
      VerdictBeforeOther(me, c, i, d);
    }
  }

  lemma {:induction false} VerdictOrigin(me: nat, args: Args, t: Trace, n: nat) returns (k: nat, j: nat)
    requires IsRun(me, args, t) && n <= |t.inputs| && HoldsVerdict(CtxAt(t, n))
    ensures k < j < n && VerdictFrom(t, k, j, n)
  {
    hide LocksInv, SessionsInv, FailuresInv, ChildInv, Move, IsVerdict, Iterates;
    RunInv(me, args, t, 0);
    assert n > 0;
    RunMoves(me, args, t, n - 1);
    VerdictBefore(me, CtxAt(t, n - 1), t.inputs[n - 1], CtxAt(t, n));
    if StateAt(t, n - 1) == ReviewerOutputCollect && CtxAt(t, n - 1).reviewResult.None? {
      j := n - 1;
      k := AttemptOrigin(me, args, t, j);
      RunInv(me, args, t, k);
    } else {
      k, j := VerdictOrigin(me, args, t, n - 1);
    }
  }

  /**
   * Accept soundness. A run that ends in success holds an acceptable verdict, and that verdict was
   * written to the outbox after its reviewer was dispatched, in the last executor round.
   */
  lemma AcceptSoundness(me: nat, args: Args, t: Trace, n: nat) returns (k: nat, j: nat)
    requires IsRun(me, args, t) && n <= |t.inputs| && StateAt(t, n) == RunDone
    ensures CtxAt(t, n).reviewResult.Some? && Acceptable(args.notionPolicy, CtxAt(t, n).reviewResult.value)
    ensures k < j < n && VerdictFrom(t, k, j, n)
  {
    hide LocksInv, SessionsInv, FailuresInv, ChildInv, Acceptable, Iterates;
    RunInv(me, args, t, n);
    k, j := VerdictOrigin(me, args, t, n);
    var c := CtxAt(t, n);
    assert args.parse(c.reviewResultYamlRaw.value) == Some(c.reviewResult.value);
    AcceptVerdictExact(args.parse, args.notionPolicy, c.reviewResultYamlRaw.value, c.reviewResult.value);
  }

  lemma GateHolds(c: Ctx)
    requires Inv(c) && c.runState.QualityGate?
    ensures HoldsVerdict(c)
  {
  }

  lemma GateNeedsCleanWorkspace(me: nat, c: Ctx, i: Input, d: Ctx)
    requires Inv(c) && Move(me, c, i, d) && d.runState.QualityGate?
    ensures c.runState.ReviewerOutputCollect?
    ensures c.preReviewerGitStatus.Some? && d.preReviewerGitStatus == c.preReviewerGitStatus
    ensures DirtyLines(c.preReviewerGitStatus.value, i.reviewerCollect.gitStatusAll) == []
  {
    hide LocksInv, SessionsInv, FailuresInv, ChildInv, HasVerdict, DirtyLines, VerifyRequestFingerprint, TemplateFor;
    hide Fresh, OutboxUntouched;
  }

  /**
   * The gate is entered only from a collection whose workspace shows nothing beyond the baseline of
   * the dispatch that produced the verdict, except the outbox.
   */
  lemma GateWorkspaceClean(me: nat, args: Args, t: Trace, n: nat) returns (k: nat, j: nat)
    requires IsRun(me, args, t) && n <= |t.inputs| && StateAt(t, n) == QualityGate
    ensures 0 < n && StateAt(t, n - 1) == ReviewerOutputCollect
    ensures k < j < n && VerdictFrom(t, k, j, n)
    ensures forall l :: l in t.inputs[n - 1].reviewerCollect.gitStatusAll ==>
              l in t.inputs[k].dispatch.gitStatusAll || PathPart(l) == OUTBOX_REL
  {
    hide Inv, Move, PathPart, DirtyLines, Iterates, HasVerdict, SameVerdict;
    RunInv(me, args, t, n);
    GateHolds(CtxAt(t, n));
    k, j := VerdictOrigin(me, args, t, n);
    RunMoves(me, args, t, n - 1);
    var c := CtxAt(t, n - 1);
    var current := t.inputs[n - 1].reviewerCollect.gitStatusAll;
    GateNeedsCleanWorkspace(me, c, t.inputs[n - 1], CtxAt(t, n));
    forall l | l in current && l !in t.inputs[k].dispatch.gitStatusAll ensures PathPart(l) == OUTBOX_REL {
      assert l !in DirtyLines(c.preReviewerGitStatus.value, current);
    }
  }

  /** In the reviewer's half of a round a verdict is stored exactly while a cleanup is pending. */
  lemma VerdictIffCleanupPending(me: nat, args: Args, t: Trace, n: nat)
    requires IsRun(me, args, t) && n <= |t.inputs| && ReviewerHalf(CtxAt(t, n))
    ensures CtxAt(t, n).reviewResult.Some? <==> CtxAt(t, n).reviewerWorkspaceRejection.Some?
    ensures CtxAt(t, n).reviewerWorkspaceRejection.None? || CtxAt(t, n).reviewerYamlRejection.None?
  {
    RunInv(me, args, t, n);
  }
}
