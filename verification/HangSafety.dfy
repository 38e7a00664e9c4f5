/** When a live attempt may be declared hung, over every probe sequence. */
module HangSafety {
  import opened Base
  import opened State
  import opened Probing

  /** The log has been seen exactly when some earlier probe of this attempt saw it. */
  lemma {:induction false} LogSeenExact(st: Setting, t: Watch, n: nat)
    requires IsWatch(st, t) && n <= |t.probes|
    ensures t.attempts[n].providerLogEverSeen <==>
              t.attempts[0].providerLogEverSeen || exists k :: 0 <= k < n && t.probes[k].logMtime.Some?
  {
    hide ProbeAttempt;
    if n == 0 {
    } else {
      assert Stepped(st, t, n - 1);
      StepFacts(st, t.attempts[n - 1], t.probes[n - 1]);
      LogSeenExact(st, t, n - 1);
      if exists k :: 0 <= k < n && t.probes[k].logMtime.Some? {
        var k :| 0 <= k < n && t.probes[k].logMtime.Some?;
        assert k == n - 1 || 0 <= k < n - 1;
      }
    }
  }

  /** The stored signal time is that of the latest probe with a work signal, else the dispatch time. */
  lemma {:induction false} LastSignalExact(st: Setting, t: Watch, n: nat)
    requires FromDispatch(st, t) && n <= |t.probes|
    ensures var s, dispatch := t.attempts[n].lastWorkSignalTs, t.attempts[0].dispatchTs;
            && s.Some? && s.value >= dispatch
            && (forall k :: 0 <= k < n && SignalAt(t, k) ==> t.probes[k].now <= s.value)
            && (s.value == dispatch || exists k :: 0 <= k < n && SignalAt(t, k) && t.probes[k].now == s.value)
  {
    hide ProbeAttempt, WorkSignalsChanged;
    if n == 0 {
    } else {
      assert Stepped(st, t, n - 1);
      StepFacts(st, t.attempts[n - 1], t.probes[n - 1]);
      LastSignalExact(st, t, n - 1);
      if SignalAt(t, n - 1) {
        assert t.attempts[n].lastWorkSignalTs == Some(t.probes[n - 1].now);
      } else {
        assert t.attempts[n].lastWorkSignalTs == t.attempts[n - 1].lastWorkSignalTs;
      }
    }
  }

  /** The file appeared, vanished, or has another size or time. */
  predicate Differs(f: Option<File>, g: Option<File>)
  {
    || f.Some? != g.Some?
    || (f.Some? && g.Some? && (f.value.body.Size() != g.value.body.Size() || f.value.mtime != g.value.mtime))
  }

  /**
   * A work signal is a change the previous probe did not see, or at the first probe the dispatch, or a
   * live descendant of a child that is still running.
   */
  lemma SignalIsChange(st: Setting, t: Watch, n: nat)
    requires IsWatch(st, t) && n < |t.probes|
    ensures n > 0 ==>
              var p, q := t.probes[n - 1], t.probes[n];
              SignalAt(t, n) <==>
                || q.gitStatus != p.gitStatus || q.gitHead != p.gitHead || Differs(q.outbox, p.outbox)
                || (q.logMtime.Some? && q.logMtime != p.logMtime)
                || (t.attempts[n].pid.Some? && !q.childExited && q.children)
    ensures n == 0 && Fresh(t.attempts[0]) ==>
              var a, q := t.attempts[0], t.probes[0];
              SignalAt(t, 0) <==>
                || Sha256Hex(q.gitStatus) != a.dispatchGitStatusHash || q.gitHead != a.dispatchGitHead
                || q.outbox.Some? || q.logMtime.Some? || (!q.childExited && q.children)
  {
    hide ProbeAttempt;
    if n == 0 {
    } else {
      assert Stepped(st, t, n - 1);
      StepFacts(st, t.attempts[n - 1], t.probes[n - 1]);
    }
  }

  /** The provider log is stale at probe n: 420 s old, or seen earlier in this attempt and now gone. */
  predicate LogStale(t: Watch, n: nat)
    requires n < |t.probes|
  {
    || (t.probes[n].logMtime.Some? && t.probes[n].now - t.probes[n].logMtime.value >= Seconds(420))
    || (t.probes[n].logMtime.None? && exists k :: 0 <= k < n && t.probes[k].logMtime.Some?)
  }

  /** No work signal reached the attempt during the 420 s before probe n. */
  predicate SilentBefore(t: Watch, n: nat)
    requires WellSized(t) && n < |t.probes|
  {
    forall k :: 0 <= k < n && SignalAt(t, k) ==> t.probes[n].now - t.probes[k].now >= Seconds(420)
  }

  /** Time since dispatch at probe n. */
  function Age(t: Watch, n: nat): int
    requires WellSized(t) && n < |t.probes|
  {
    t.probes[n].now - t.attempts[0].dispatchTs
  }

  /**
   * Hang confirmation, exactly. A probe is classified as a hang if and only if nothing of higher
   * priority applies and the log is stale, and either nothing happened for 420 s or the attempt is
   * 2400 s old.
   */
  lemma HangExact(st: Setting, t: Watch, n: nat)
    requires FromDispatch(st, t) && n < |t.probes|
    ensures ClassAt(st, t, n) == HangConfirmed <==>
              && t.probes[n].cancel != AtSnapshot
              && DetectProviderError(st, t.probes[n]).None?
              && !RefreshedAt(st, t, n).Exited()
              && !WindowOpen(RefreshedAt(st, t, n), t.probes[n])
              && LogStale(t, n)
              && (Age(t, n) >= Seconds(2400)
                  || (t.probes[n].alive && Age(t, n) >= Seconds(420) && SilentBefore(t, n)))
  {
    hide ProbeClass, Refresh, ProbeAttempt, WorkSignalsChanged, Leaves;
    var a, p := t.attempts[n], t.probes[n];
    var b := Refresh(st, a, p);
    Frozen(st, t, n);
    RefreshFacts(st, a, p);
    LastSignalExact(st, t, n);
    LogSeenExact(st, t, n);
    ClassOfPreempted(st, a, p);
    if p.cancel != AtSnapshot && DetectProviderError(st, p).None? {
      if b.Exited() {
        ClassOfExited(st, a, p);
      } else {
        ClassOfLive(st, a, p);
        assert ProviderStale(b, p) <==> LogStale(t, n);
      }
    }
  }

  /**
   * What a hang kill guarantees: the attempt is at least 420 s old, its log was seen and is stale, and
   * unless it is 2400 s old no work signal was seen for 420 s.
   */
  lemma HangKillSafety(st: Setting, t: Watch, n: nat)
    requires FromDispatch(st, t) && n < |t.probes|
    requires ClassAt(st, t, n) == HangConfirmed
    ensures Age(t, n) >= Seconds(420) && LogStale(t, n)
    ensures exists k :: 0 <= k <= n && t.probes[k].logMtime.Some?
    ensures Age(t, n) >= Seconds(2400) || SilentBefore(t, n)
    ensures !WindowOpen(RefreshedAt(st, t, n), t.probes[n])
  {
    HangExact(st, t, n);
    if t.probes[n].logMtime.None? {
      var k :| 0 <= k < n && t.probes[k].logMtime.Some?;
    }
  }
}
