/** The executor's finalization windows, over every probe sequence. */
module Grace {
  import opened Base
  import opened State
  import opened Probing
  import Workflow

  /** Index of the first set flag from m on and before n. */
  function FirstIndex(flags: seq<bool>, m: nat, n: nat): (r: Option<nat>)
    requires m <= n <= |flags|
    ensures r.None? <==> forall k :: m <= k < n ==> !flags[k]
    ensures r.Some? ==> m <= r.value < n && flags[r.value] && forall k :: m <= k < r.value ==> !flags[k]
  {
    if n == m then None
    else
      var f := FirstIndex(flags, m, n - 1);
      if f.Some? then f else if flags[n - 1] then Some(n - 1) else None
  }

  /** Probe k found HEAD away from where dispatch left it. */
  predicate CommittedAt(t: Watch, k: nat)
    requires WellSized(t) && k < |t.probes|
  {
    t.probes[k].gitHead != t.attempts[0].dispatchGitHead
  }

  /** Probe k found the working tree away from where dispatch left it. */
  predicate DirtyAt(t: Watch, k: nat)
    requires WellSized(t) && k < |t.probes|
  {
    Sha256Hex(t.probes[k].gitStatus) != t.attempts[0].dispatchGitStatusHash
  }

  function CommitFlags(t: Watch): seq<bool>
    requires WellSized(t)
  {
    seq(|t.probes|, k requires 0 <= k < |t.probes| => CommittedAt(t, k))
  }

  function DirtyFlags(t: Watch): seq<bool>
    requires WellSized(t)
  {
    seq(|t.probes|, k requires 0 <= k < |t.probes| => DirtyAt(t, k))
  }

  predicate OutboxEmptyIn(t: Watch, lo: nat, hi: nat)
    requires hi <= |t.probes|
  {
    forall k :: lo <= k < hi ==> !OutboxFilled(t.probes[k])
  }

  predicate NoWindow(a: Attempt)
  {
    a.graceUntilCommit == None && a.graceUntilOutbox == None
  }

  /** A watch of an attempt that starts without a window. */
  predicate StartsClosed(st: Setting, t: Watch)
  {
    IsWatch(st, t) && NoWindow(t.attempts[0])
  }

  /** At most one window is open after any probes, and none for a reviewer or after a report appeared. */
  lemma {:induction false} AtMostOneWindow(st: Setting, t: Watch, n: nat)
    requires StartsClosed(st, t) && n <= |t.probes|
    ensures t.attempts[n].graceUntilCommit.None? || t.attempts[n].graceUntilOutbox.None?
    ensures st.role == Reviewer || (n > 0 && OutboxFilled(t.probes[n - 1])) ==> NoWindow(t.attempts[n])
  {
    hide ProbeAttempt;
    if n == 0 {
    } else {
      assert Stepped(st, t, n - 1);
      StepFacts(st, t.attempts[n - 1], t.probes[n - 1]);
      AtMostOneWindow(st, t, n - 1);
    }
  }

  /** What probe n does to the windows of an executor whose report is missing. */
  lemma NextWindow(st: Setting, t: Watch, n: nat)
    requires IsWatch(st, t) && n < |t.probes| && st.role == Executor && !OutboxFilled(t.probes[n])
    ensures var a, b, due := t.attempts[n], t.attempts[n + 1], Some(t.probes[n].now + Seconds(180));
            if CommittedAt(t, n) then
              b.graceUntilCommit == None && b.graceUntilOutbox == Either(a.graceUntilOutbox, due)
            else if DirtyAt(t, n) && NoWindow(a) then
              b.graceUntilCommit == due && b.graceUntilOutbox == None
            else
              b.graceUntilCommit == a.graceUntilCommit && b.graceUntilOutbox == a.graceUntilOutbox
  {
    hide ProbeAttempt, Sha256Hex, WorkSignalsChanged, KillsFinalizing, OutboxFilled, Seconds;
    assert Stepped(st, t, n);
    StepFacts(st, t.attempts[n], t.probes[n]);
    Frozen(st, t, n);
  }

  /**
   * While the report is missing the windows are a function of two moments only: the first probe that
   * saw a commit and the first that saw a dirty tree, counted from a moment m without a window, such as
   * dispatch or a probe that saw a report. So since then an attempt gets at most one commit window and
   * then one outbox window, and neither is ever extended, whatever HEAD and status do later.
   */
  lemma {:induction false} WindowsWhileOutboxEmpty(st: Setting, t: Watch, m: nat, n: nat)
    requires IsWatch(st, t) && m <= n <= |t.probes| && st.role == Executor
    requires NoWindow(t.attempts[m]) && OutboxEmptyIn(t, m, n)
    ensures var b := t.attempts[n];
            var c := FirstIndex(CommitFlags(t), m, n);
            var d := FirstIndex(DirtyFlags(t), m, n);
            && b.graceUntilOutbox == (if c.Some? then Some(t.probes[c.value].now + Seconds(180)) else None)
            && b.graceUntilCommit ==
                 (if c.Some? || d.None? then None else Some(t.probes[d.value].now + Seconds(180)))
    decreases n
  {
    hide Stepped, CommittedAt, DirtyAt, OutboxFilled, Seconds;
    if n == m {
    } else {
      assert !OutboxFilled(t.probes[n - 1]);
      NextWindow(st, t, n - 1);
      WindowsWhileOutboxEmpty(st, t, m, n - 1);
    }
  }

  /** Every open window was opened by a probe 180 s before its deadline, with no report since. */
  lemma {:induction false} WindowOrigin(st: Setting, t: Watch, n: nat) returns (k: nat)
    requires StartsClosed(st, t) && n <= |t.probes|
    requires t.attempts[n].GraceDeadline().Some?
    ensures st.role == Executor
    ensures k < n && t.attempts[n].GraceDeadline() == Some(t.probes[k].now + Seconds(180))
    ensures DirtyAt(t, k) || CommittedAt(t, k)
    ensures OutboxEmptyIn(t, k, n)
  {
    hide ProbeAttempt;
    AtMostOneWindow(st, t, n);
    assert Stepped(st, t, n - 1);
    StepFacts(st, t.attempts[n - 1], t.probes[n - 1]);
    AtMostOneWindow(st, t, n - 1);
    Frozen(st, t, n - 1);
    if t.attempts[n - 1].GraceDeadline() == t.attempts[n].GraceDeadline() {
      k := WindowOrigin(st, t, n - 1);
    } else {
      k := n - 1;
    }
  }

  /**
   * Soft success, soundly: the child has exited, the report is empty, the workflow's artifact is there,
   * and a probe at least 180 s earlier saw a dirty tree or a commit, with the report empty ever since.
   */
  lemma SoftSuccessJustified(st: Setting, t: Watch, n: nat) returns (k: nat)
    requires StartsClosed(st, t) && n < |t.probes|
    requires ClassAt(st, t, n) == SoftSuccess
    ensures st.role == Executor && RefreshedAt(st, t, n).Exited()
    ensures Workflow.SoftSuccessAllowed(st.workflow, t.probes[n].artifacts)
    ensures k < n && t.probes[n].now - t.probes[k].now >= Seconds(180)
    ensures DirtyAt(t, k) || CommittedAt(t, k)
    ensures OutboxEmptyIn(t, k, n + 1)
  {
    hide ProbeClass, Refresh, ProbeAttempt;
    var a, p := t.attempts[n], t.probes[n];
    RefreshFacts(st, a, p);
    ClassOfPreempted(st, a, p);
    if Refresh(st, a, p).Exited() {
      ClassOfExited(st, a, p);
    } else {
      ClassOfLive(st, a, p);
    }
    assert Stepped(st, t, n);
    k := WindowOrigin(st, t, n + 1);
  }
}
