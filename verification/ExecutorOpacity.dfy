/** Noninterference by author: where every write moves the outbox time, the executor's bytes never matter. */
module ExecutorOpacity {
  import opened Base
  import opened State
  import opened Transport
  import opened Probing
  import opened Phases
  import opened Invariants
  import opened Moves
  import opened Runs
  import opened Terminals
  import opened Opacity
  import Inbox

  /** The outbox as an iteration shows it before its probe k; after the last probe, as it leaves it. */
  function Shown(i: Input, k: nat): Option<File>
    requires k <= |i.probes|
  {
    if k == 0 then i.world.files.outbox else i.probes[k - 1].outbox
  }

  /** The monitored child rewrote the outbox between probe k and what was shown before. */
  predicate Rewrites(i: Input, k: nat)
    requires k < |i.probes|
  {
    Mtime(i.probes[k].outbox) != Mtime(Shown(i, k))
  }

  /** A probe that does not see a new time sees the file that was there. */
  predicate WritesMoveTime(i: Input)
  {
    forall k :: 0 <= k < |i.probes| ==> i.probes[k].outbox == Shown(i, k) || Rewrites(i, k)
  }

  predicate OnlyChildrenWriteAt(t: Trace, n: nat)
    requires Sized(t) && n < |t.inputs|
  {
    t.inputs[n].world.files.outbox == WorldBefore(t, n).files.outbox && WritesMoveTime(t.inputs[n])
  }

  /** Besides the run itself only monitored children write the outbox, and every write moves its time. */
  predicate OnlyChildrenWrite(t: Trace)
    requires Sized(t)
  {
    forall n :: 0 <= n < |t.inputs| ==> OnlyChildrenWriteAt(t, n)
  }

  /** The two iterations agree on every file written during this one. */
  predicate SameWritten(i: Input, j: Input)
  {
    |i.probes| == |j.probes| &&
    forall k :: 0 <= k < |i.probes| && Rewrites(i, k) ==> j.probes[k].outbox == i.probes[k].outbox
  }

  /**
   * Two inputs of an iteration that differ only in bytes of the outbox, and not in those of files that a
   * reviewer wrote.
   */
  ghost predicate ExecutorBytesOnly(c: Ctx, i: Input, j: Input)
  {
    && j == i.(world := j.world, probes := j.probes)
    && SameWorld(i.world, j.world) && SameProbes(i.probes, j.probes)
    && (c.runState.ReviewerMonitor? ==> SameWritten(i, j))
  }

  ghost predicate ExecutorBytesOnlyAt(t: Trace, u: Trace, n: nat)
    requires Sized(t) && n < |t.inputs| && n < |u.inputs|
  {
    ExecutorBytesOnly(CtxAt(t, n), t.inputs[n], u.inputs[n])
  }

  ghost predicate ExecutorBytesOnlyIn(t: Trace, u: Trace)
    requires Sized(t)
  {
    |u.inputs| == |t.inputs| && forall n :: 0 <= n < |t.inputs| ==> ExecutorBytesOnlyAt(t, u, n)
  }

  /** The files are equal, or f is still of the time the outbox had when the reviewer was dispatched. */
  predicate EqualOrOld(pre: Option<int>, f: Option<File>, g: Option<File>)
  {
    SameShape(f, g) && (Mtime(f) == pre || g == f)
  }

  /** One step of the two outboxes, from f and g on, that moves the time or changes nothing. */
  lemma StepKeepsEqual(pre: Option<int>, f: Option<File>, g: Option<File>, f': Option<File>, g': Option<File>)
    requires EqualOrOld(pre, f, g) && SameShape(f', g')
    requires f' == f || Mtime(f') != Mtime(f)
    requires g' == g || Mtime(g') != Mtime(g)
    requires Mtime(f') != Mtime(f) ==> g' == f'
    ensures EqualOrOld(pre, f', g')
  {
  }

  /** Through the probes of a reviewer's monitor call the outboxes stay equal or old. */
  lemma {:induction false} ProbesKeepEqual(i: Input, j: Input, pre: Option<int>, k: nat)
    requires WritesMoveTime(i) && WritesMoveTime(j) && k <= |i.probes|
    requires SameProbes(i.probes, j.probes) && SameWritten(i, j)
    requires EqualOrOld(pre, Shown(i, 0), Shown(j, 0))
    ensures EqualOrOld(pre, Shown(i, k), Shown(j, k))
  {
    hide SameShape, EqualOrOld;
    if k == 0 {
    } else {
      var l := k - 1;
      ProbesKeepEqual(i, j, pre, l);
      assert SameProbe(i.probes[l], j.probes[l]);
      assert Rewrites(i, l) || i.probes[l].outbox == Shown(i, l);
      assert Rewrites(j, l) || j.probes[l].outbox == Shown(j, l);
      StepKeepsEqual(pre, Shown(i, l), Shown(j, l), i.probes[l].outbox, j.probes[l].outbox);
    }
  }

  /** What a monitor iteration leaves in the outbox is what its last probe was shown. */
  lemma AfterMonitor(me: nat, c: Ctx, i: Input)
    requires Inv(c) && c.runState.IsMonitor()
    ensures OutboxAfter(c, i, Next(me, c, i)) == Shown(i, |i.probes|)
  {
    hide Next, Inv;
    Inbox.OtherPhasesKeepRequest(me, c, i);
  }

  /** A reviewer's dispatch leaves the outbox as it found it. */
  lemma AfterDispatch(me: nat, c: Ctx, i: Input)
    requires c.runState.ReviewerDispatch? && !Next(me, c, i).ctx.runState.IsTerminal()
    ensures OutboxAfter(c, i, Next(me, c, i)) == i.world.files.outbox
  {
    hide DoDispatch, TemplateFor, VerifyRequestFingerprint, Fresh;
    DispatchExact(me, c, i.world, Reviewer, i.dispatch);
    DispatchSettles(me, c, Reviewer, i);
  }

  /** Both runs go through a reviewer's attempt dispatched at k, up to state n. */
  ghost predicate InAttempt(t: Trace, u: Trace, k: nat, n: nat)
    requires Sized(t) && Sized(u) && |u.inputs| == |t.inputs| && k < n <= |t.inputs|
  {
    && StateAt(t, k) == ReviewerDispatch
    && (forall m :: k <= m <= n ==> StateAt(u, m) == StateAt(t, m))
    && (forall m :: k < m < n ==> StateAt(t, m) == ReviewerMonitor)
    && (StateAt(t, n) == ReviewerMonitor || StateAt(t, n) == ReviewerOutputCollect)
  }

  lemma StepOfRun(me: nat, args: Args, t: Trace, n: nat)
    requires IsRun(me, args, t) && n < |t.inputs|
    ensures Inv(CtxAt(t, n)) && Wf(CtxAt(t, n)) && t.states[n + 1] == Next(me, CtxAt(t, n), t.inputs[n])
  {
    RunInv(me, args, t, n);
    assert Iterates(me, t, n);
  }

  lemma MonitorKeepsEqual(me: nat, c: Ctx, d: Ctx, i: Input, j: Input, pre: Option<int>)
    requires Inv(c) && Inv(d) && c.runState.ReviewerMonitor? && d.runState.ReviewerMonitor?
    requires WritesMoveTime(i) && WritesMoveTime(j) && ExecutorBytesOnly(c, i, j)
    requires EqualOrOld(pre, i.world.files.outbox, j.world.files.outbox)
    ensures EqualOrOld(pre, OutboxAfter(c, i, Next(me, c, i)), OutboxAfter(d, j, Next(me, d, j)))
  {
    hide Next, Inv, WritesMoveTime, SameProbes, SameWritten, EqualOrOld, SameWorld, OutboxAfter;
    AfterMonitor(me, c, i);
    AfterMonitor(me, d, j);
    SameLength(i.probes, j.probes);
    ProbesKeepEqual(i, j, pre, |i.probes|);
  }

  lemma DispatchStartsEqual(me: nat, c: Ctx, d: Ctx, i: Input, j: Input)
    requires c.runState.ReviewerDispatch? && d.runState.ReviewerDispatch? && ExecutorBytesOnly(c, i, j)
    requires !Next(me, c, i).ctx.runState.IsTerminal() && !Next(me, d, j).ctx.runState.IsTerminal()
    ensures EqualOrOld(Mtime(i.world.files.outbox), OutboxAfter(c, i, Next(me, c, i)),
                       OutboxAfter(d, j, Next(me, d, j)))
  {
    hide Next, SameProbes, SameWritten, OutboxAfter;
    AfterDispatch(me, c, i);
    AfterDispatch(me, d, j);
  }

  lemma OutboxFollows(me: nat, args: Args, t: Trace, n: nat)
    requires IsRun(me, args, t) && OnlyChildrenWrite(t) && n + 1 < |t.inputs|
    ensures Inv(CtxAt(t, n)) && Wf(CtxAt(t, n)) && t.states[n + 1] == Next(me, CtxAt(t, n), t.inputs[n])
    ensures WritesMoveTime(t.inputs[n])
    ensures OutboxAt(t, n + 1) == OutboxAfter(CtxAt(t, n), t.inputs[n], Next(me, CtxAt(t, n), t.inputs[n]))
  {
    hide Next, Inv, WritesMoveTime, OutboxAfter;
    StepOfRun(me, args, t, n);
    assert OnlyChildrenWriteAt(t, n) && OnlyChildrenWriteAt(t, n + 1);
  }

  lemma AttemptBefore(t: Trace, u: Trace, k: nat, n: nat)
    requires Sized(t) && Sized(u) && |u.inputs| == |t.inputs| && k + 1 < n <= |t.inputs| && InAttempt(t, u, k, n)
    ensures InAttempt(t, u, k, n - 1)
    ensures StateAt(t, n - 1) == ReviewerMonitor && StateAt(u, n - 1) == ReviewerMonitor
  {
  }

  lemma AttemptAfter(t: Trace, u: Trace, k: nat, n: nat)
    requires Sized(t) && Sized(u) && |u.inputs| == |t.inputs| && k < n <= |t.inputs| && InAttempt(t, u, k, n)
    ensures StateAt(t, k) == ReviewerDispatch && StateAt(u, k) == ReviewerDispatch
    ensures !StateAt(t, n).IsTerminal() && !StateAt(u, n).IsTerminal()
  {
  }

  /** Along a reviewer's attempt the outboxes of the two runs stay equal or of the time of its dispatch. */
  lemma {:induction false} AttemptKeepsEqual(me: nat, args: Args, t: Trace, u: Trace, k: nat, n: nat)
    requires IsRun(me, args, t) && IsRun(me, args, u) && OnlyChildrenWrite(t) && OnlyChildrenWrite(u)
    requires ExecutorBytesOnlyIn(t, u) && k < n < |t.inputs| && InAttempt(t, u, k, n)
    ensures EqualOrOld(Mtime(OutboxAt(t, k)), OutboxAt(t, n), OutboxAt(u, n))
  {
    hide Next, Inv, Iterates, OnlyChildrenWrite, WritesMoveTime, ExecutorBytesOnly, EqualOrOld, OutboxAfter;
    hide InAttempt;
    AttemptAfter(t, u, k, n);
    var m := n - 1;
    assert ExecutorBytesOnlyAt(t, u, m);
    OutboxFollows(me, args, t, m);
    OutboxFollows(me, args, u, m);
    var c, d, i, j := CtxAt(t, m), CtxAt(u, m), t.inputs[m], u.inputs[m];
    if m == k {
      DispatchStartsEqual(me, c, d, i, j);
    } else {
      AttemptBefore(t, u, k, n);
      AttemptKeepsEqual(me, args, t, u, k, m);
      MonitorKeepsEqual(me, c, d, i, j, Mtime(OutboxAt(t, k)));
    }
  }

  lemma SameLength(ps: seq<Probe>, qs: seq<Probe>)
    requires SameProbes(ps, qs)
    ensures |ps| == |qs|
  {
  }

  /** Where a report is read, the two runs show the same file: it was written in the reviewer's own attempt. */
  lemma ReadsSame(me: nat, args: Args, t: Trace, u: Trace, n: nat)
    requires IsRun(me, args, t) && IsRun(me, args, u) && OnlyChildrenWrite(t) && OnlyChildrenWrite(u)
    requires ExecutorBytesOnlyIn(t, u) && n < |t.inputs|
    requires forall m :: 0 <= m <= n ==> StateAt(u, m) == StateAt(t, m)
    requires ReadsReport(CtxAt(t, n), OutboxAt(t, n))
    ensures OutboxAt(u, n) == OutboxAt(t, n)
  {
    hide Iterates, OnlyChildrenWriteAt, SameProbes, SameWritten;
    var k := AttemptOrigin(me, args, t, n);
    forall m | k < m < n ensures StateAt(t, m) == ReviewerMonitor {
      var s, next := CtxAt(t, m).runState, CtxAt(t, m + 1).runState;
      assert s.ReviewerMonitor? || s.ReviewerOutputCollect?;
      assert next.ReviewerMonitor? || next.ReviewerOutputCollect?;
      BeforeCollect(me, args, t, m);
    }
    AttemptKeepsEqual(me, args, t, u, k, n);
  }

  /** Within an attempt only its last state collects. */
  lemma BeforeCollect(me: nat, args: Args, t: Trace, m: nat)
    requires IsRun(me, args, t) && m < |t.inputs|
    requires StateAt(t, m + 1) == ReviewerMonitor || StateAt(t, m + 1) == ReviewerOutputCollect
    ensures StateAt(t, m) == ReviewerMonitor || StateAt(t, m) == ReviewerDispatch
  {
    hide Iterates, Inv, Move;
    RunMoves(me, args, t, m);
    StateBeforeMonitor(me, CtxAt(t, m), t.inputs[m], CtxAt(t, m + 1));
  }

  lemma SameAsOpaque(c: Ctx, i: Input, j: Input)
    requires ExecutorBytesOnly(c, i, j)
    requires ReadsReport(c, i.world.files.outbox) ==> j.world.files.outbox == i.world.files.outbox
    ensures SameInput(c, i, j)
  {
    hide SameProbes, SameWorld, ReadsReport;
  }

  /**
   * The executor's report never influences a run. Two runs of the same arguments in which only monitored
   * children write the outbox, each time with a new time, and whose inputs differ only in the bytes of
   * files in the outbox that no reviewer wrote, go through the same run states, counters, verdicts and
   * attempts; they differ at most in the raw copies kept for the final report.
   */
  lemma {:induction false} ExecutorReportOpaque(me: nat, args: Args, t: Trace, u: Trace, n: nat)
    requires IsRun(me, args, t) && IsRun(me, args, u) && OnlyChildrenWrite(t) && OnlyChildrenWrite(u)
    requires ExecutorBytesOnlyIn(t, u) && n <= |t.inputs|
    ensures forall m :: 0 <= m <= n ==> SameAt(t, u, m)
  {
    hide Next, Inv, OnlyChildrenWrite, ExecutorBytesOnly, SameInput, SameButCopies, ReadsReport;
    if n == 0 {
      SameStart(args, t, u);
    } else {
      ExecutorReportOpaque(me, args, t, u, n - 1);
      var c, d, i, j := CtxAt(t, n - 1), CtxAt(u, n - 1), t.inputs[n - 1], u.inputs[n - 1];
      assert ExecutorBytesOnlyAt(t, u, n - 1);
      assert SameAt(t, u, n - 1);
      StepOfRun(me, args, t, n - 1);
      StepOfRun(me, args, u, n - 1);
      if ReadsReport(c, i.world.files.outbox) {
        assert forall m :: 0 <= m <= n - 1 ==> SameAt(t, u, m) ==> StateAt(u, m) == StateAt(t, m);
        ReadsSame(me, args, t, u, n - 1);
      }
      SameAsOpaque(c, i, j);
      NextIsOpaque(me, c, d, i, j);
      SameState(CtxAt(t, n), CtxAt(u, n));
    }
  }

  /** At state m the runs differ at most in the raw copies. */
  ghost predicate SameAt(t: Trace, u: Trace, m: nat)
    requires m < |t.states| && m < |u.states|
  {
    SameButCopies(CtxAt(t, m), CtxAt(u, m)) && StateAt(u, m) == StateAt(t, m)
  }

  lemma SameState(c: Ctx, d: Ctx)
    requires SameButCopies(c, d)
    ensures d.runState == c.runState
  {
  }

  lemma SameStart(args: Args, t: Trace, u: Trace)
    requires t.states != [] && u.states != []
    requires CtxAt(t, 0) == InitialCtx(args) && CtxAt(u, 0) == InitialCtx(args)
    ensures SameAt(t, u, 0)
  {
  }
}
