/** The request fingerprint over whole runs: who may write the inbox, and what happens if others do. */
module Inbox {
  import opened Base
  import opened State
  import opened YamlCheck
  import opened Transport
  import opened Probing
  import opened Phases
  import opened Invariants
  import opened Moves
  import opened Runs

  /** Between iterations nobody but the orchestrator touches the inbox. */
  predicate InboxUndisturbed(t: Trace)
    requires Sized(t)
  {
    forall n :: 0 <= n < |t.inputs| ==> t.inputs[n].world.files.inbox == t.states[n].world.files.inbox
  }

  /** The inbox holds exactly the request of the current attempt. */
  predicate FingerprintMatches(s: Sys)
  {
    s.ctx.attempt.Some? ==>
      VerifyRequestFingerprint(s.world.files, s.ctx.attempt.value.requestFingerprint) == None
  }

  lemma OtherPhasesKeepFiles(me: nat, c: Ctx, i: Input)
    requires Wf(c) && c.runState != ExecutorDispatch && c.runState != ReviewerDispatch
    ensures Next(me, c, i).world.files == i.world.files
  {
    hide MonitorRun, TakeVerdict, Settle, SetAttemptState, DirtyReason;
  }

  lemma OtherPhasesKeepAttempt(me: nat, c: Ctx, i: Input, d: Ctx)
    requires Move(me, c, i, d) && c.runState != ExecutorDispatch && c.runState != ReviewerDispatch
    ensures SameRequest(c, d)
  {
    hide DispatchMove, DirtyReason, IsVerdict, ReadableReport, HasVerdict, SameReview, OutboxUntouched;
  }

  /** Outside the dispatches an iteration leaves the files as the environment left them, and the request alone. */
  lemma OtherPhasesKeepRequest(me: nat, c: Ctx, i: Input)
    requires Inv(c) && c.runState != ExecutorDispatch && c.runState != ReviewerDispatch
    ensures Next(me, c, i).world.files == i.world.files && SameRequest(c, Next(me, c, i).ctx)
  {
    hide Next, Inv, Move;
    InvIsWf(c);
    OtherPhasesKeepFiles(me, c, i);
    NextMoves(me, c, i);
    OtherPhasesKeepAttempt(me, c, i, Next(me, c, i).ctx);
  }

  lemma DispatchWritesRequest(me: nat, c: Ctx, i: Input)
    requires Inv(c) && (c.runState == ExecutorDispatch || c.runState == ReviewerDispatch)
    ensures var s := Next(me, c, i);
            s.ctx.runState.IsTerminal() || FingerprintMatches(s)
  {
    hide DoDispatch, TemplateFor, VerifyRequestFingerprint, VerdictInv, SessionsInv, LocksInv, FailuresInv, Fresh;
    var role := if c.runState.ExecutorDispatch? then Executor else Reviewer;
    DispatchExact(me, c, i.world, role, i.dispatch);
    var d := i.dispatch;
    var text := d.render(TemplateFor(c, role));
    FingerprintRoundTrip(i.world.files, text, d.writtenAt, DoDispatch(me, c, i.world, role, d).world.files);
    DispatchSettles(me, c, role, i);
  }

  /** While the run is live and undisturbed, the inbox always hashes to the attempt's fingerprint. */
  lemma {:induction false} InboxMatches(me: nat, args: Args, t: Trace, n: nat)
    requires IsRun(me, args, t) && n <= |t.inputs| && InboxUndisturbed(t)
    requires !StateAt(t, n).IsTerminal()
    ensures FingerprintMatches(t.states[n])
  {
    hide Next, Inv, FingerprintMatches, SameRequest;
    if n > 0 {
      var c, i := CtxAt(t, n - 1), t.inputs[n - 1];
      RunInv(me, args, t, n - 1);
      assert Iterates(me, t, n - 1);
      if !c.runState.IsTerminal() {
        InboxMatches(me, args, t, n - 1);
      }
      RunMoves(me, args, t, n - 1);
      if c.runState == ExecutorDispatch || c.runState == ReviewerDispatch {
        DispatchWritesRequest(me, c, i);
      } else {
        OtherPhasesKeepRequest(me, c, i);
        SameVerification(t.states[n - 1], t.states[n]);
      }
    } else {
      NothingToMatch(t.states[0]);
    }
  }

  lemma NothingToMatch(s: Sys)
    ensures s.ctx.attempt.None? ==> FingerprintMatches(s)
  {
  }

  lemma SameVerification(s: Sys, r: Sys)
    requires FingerprintMatches(s) && SameRequest(s.ctx, r.ctx)
    requires r.world.files.inbox == s.world.files.inbox
    ensures FingerprintMatches(r)
  {
  }

  /** So in an undisturbed run no dispatch is ever aborted because the request changed. */
  lemma NoSpuriousAbort(me: nat, args: Args, t: Trace, n: nat, role: Role)
    requires IsRun(me, args, t) && n < |t.inputs| && InboxUndisturbed(t)
    requires StateAt(t, n) == DispatchOf(role)
    ensures DoDispatch(me, CtxAt(t, n), t.inputs[n].world, role, t.inputs[n].dispatch).error
            != Some(RequestChangedAbortRetry)
  {
    hide Inv, TemplateFor, ResetTransport, Launch, Iterates;
    var c, i := CtxAt(t, n), t.inputs[n];
    InboxMatches(me, args, t, n);
    assert i.world.files.inbox == t.states[n].world.files.inbox;
    ResetErrors(i.world.files, role, i.dispatch.resetAt, i.dispatch.resetFault);
    LaunchErrors(PrepareDispatch(me, c, i.world, role, i.dispatch), role, i.dispatch);
  }

  /**
   * A change by anyone else that is present at the next dispatch ends that dispatch before transport is
   * reset, the request is written or a child is started; if nothing else is wrong, with the error that
   * says so, or with an I/O error if the inbox is gone.
   */
  lemma TamperingStopsDispatch(me: nat, c: Ctx, w: World, role: Role, d: DispatchInput)
    requires c.attempt.Some?
    requires w.files.inbox.None? || w.files.inbox.value.body != Text(c.attempt.value.requestFingerprint.of)
    ensures var o := DoDispatch(me, c, w, role, d);
            && o.error.Some?
            && o.world.files == w.files
            && o.ctx.attempt == c.attempt && o.ctx.activeProcess == c.activeProcess
            && o.ctx.runState == c.runState
            && (d.fault.None? && c.SessionId(role).Some? && c.Key(role) !in w.locks ==>
                  o.error == Some(if w.files.inbox.Some? then RequestChangedAbortRetry else Io))
  {
    hide ResetTransport, Launch;
  }

  /** Over whole runs: tampering found at a dispatch ends the run there, with the files as they were found. */
  lemma TamperingEndsRun(me: nat, args: Args, t: Trace, n: nat, role: Role)
    requires IsRun(me, args, t) && n < |t.inputs| && StateAt(t, n) == DispatchOf(role) && !t.inputs[n].cancelled
    requires CtxAt(t, n).attempt.Some?
    requires var inbox := t.inputs[n].world.files.inbox;
             inbox.None? || inbox.value.body != Text(CtxAt(t, n).attempt.value.requestFingerprint.of)
    ensures StateAt(t, n + 1).IsTerminal() && t.states[n + 1].world.files == t.inputs[n].world.files
    ensures CtxAt(t, n + 1).attempt == CtxAt(t, n).attempt
    ensures CtxAt(t, n).SessionId(role).Some?
    ensures t.inputs[n].dispatch.fault.None? && CtxAt(t, n).Key(role) !in t.inputs[n].world.locks ==>
              StateAt(t, n + 1) == RunFailedInternal
  {
    hide DoDispatch, LocksInv, ChildInv, VerdictInv, FailuresInv;
    var c, i := CtxAt(t, n), t.inputs[n];
    RunInv(me, args, t, n);
    assert Iterates(me, t, n);
    TamperingStopsDispatch(me, c, i.world, role, i.dispatch);
  }
}
