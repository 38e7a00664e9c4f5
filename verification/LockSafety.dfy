/** Any number of orchestrator processes on one lock table. */
module LockSafety {
  import opened Base
  import opened State
  import opened YamlCheck
  import opened Transport
  import opened Locks
  import opened Probing
  import opened Phases
  import opened Invariants
  import opened Moves
  import Runs

  // ---- what one iteration does to the table ----

  /**
   * The effect of one iteration of process me on the lock table: it takes at most keys nobody held and
   * that it now holds, gives back at most keys it held and no longer holds, and leaves all others alone.
   */
  ghost predicate LockMove(me: nat, c: Ctx, before: Table, d: Ctx, after: Table)
  {
    && (forall r: Role :: c.Holds(r) && d.Holds(r) ==> d.SessionId(r) == c.SessionId(r))
    && (forall r: Role :: d.Holds(r) && !c.Holds(r) ==>
          d.SessionId(r).Some? && d.Key(r) !in before && d.Key(r) in after && after[d.Key(r)] == me)
    && (forall r: Role :: c.Holds(r) && !d.Holds(r) && c.SessionId(r).Some? ==> c.Key(r) !in after)
    && (forall k :: k in after && k !in before ==> Owned(d, k) && after[k] == me)
    && (forall k :: k in before && k !in after ==> Owned(c, k) && !Owned(d, k))
    && (forall k :: k in before && k in after ==> after[k] == before[k])
  }

  /** The context holds the lock with this key. */
  predicate Owned(c: Ctx, k: LockKey)
  {
    exists r: Role :: c.Holds(r) && c.SessionId(r) == Some(k.session) && c.ProviderOf(r) == k.provider
  }

  lemma OwnedKey(c: Ctx, r: Role)
    requires c.Holds(r) && c.SessionId(r).Some?
    ensures Owned(c, c.Key(r))
  {
  }

  /** An iteration that keeps locks, sessions and table. */
  lemma KeepsLocks(me: nat, c: Ctx, d: Ctx, table: Table)
    requires d.executorLock == c.executorLock && d.reviewerLock == c.reviewerLock
    requires c.executorLock || c.reviewerLock ==>
               d.executorSessionId == c.executorSessionId && d.reviewerSessionId == c.reviewerSessionId
    requires d.args == c.args
    ensures LockMove(me, c, table, d, table)
  {
    forall r: Role ensures c.Holds(r) == d.Holds(r) {
      assert r == Executor || r == Reviewer;
    }
  }

  lemma DispatchLocks(me: nat, c: Ctx, i: Input, role: Role)
    requires Inv(c) && c.runState == DispatchOf(role)
    ensures var s := DoDispatch(me, c, i.world, role, i.dispatch);
            LockMove(me, c, i.world.locks, Settle(s), s.world.locks)
  {
    hide DoDispatch, VerdictInv, FailuresInv, ChildInv, TemplateFor, VerifyRequestFingerprint, Fresh;
    DispatchExact(me, c, i.world, role, i.dispatch);
    var o := DoDispatch(me, c, i.world, role, i.dispatch);
    var d := Settle(o);
    if o.error.Some? && o.ctx == c {
      KeepsLocks(me, c, d, i.world.locks);
    } else {
      var k := c.Key(role);
      assert d.Holds(role) && d.SessionId(role) == Some(k.session) && d.ProviderOf(role) == k.provider;
      forall r: Role ensures r == role || (!c.Holds(r) && !d.Holds(r)) {
        assert r == Executor || r == Reviewer;
      }
    }
  }

  /** An iteration that gives the role's lock back. */
  lemma DropsLock(me: nat, c: Ctx, d: Ctx, role: Role, table: Table)
    requires c.SessionId(role).Some? && c.Holds(role) && !d.executorLock && !d.reviewerLock
    requires role == Executor ==> !c.reviewerLock
    requires role == Reviewer ==> !c.executorLock
    ensures LockMove(me, c, table, d, Release(table, c.Key(role)))
  {
    OwnedKey(c, role);
    forall r: Role ensures !d.Holds(r) && (r == role || !c.Holds(r)) {
      assert r == Executor || r == Reviewer;
    }
  }

  lemma MonitorLocks(me: nat, c: Ctx, w: World, role: Role, ps: seq<Probe>)
    requires Monitoring(c, role)
    ensures var s := DoMonitor(c, w, role, ps);
            LockMove(me, c, w.locks, Settle(s), s.world.locks)
  {
    hide MonitorRun, VerdictInv, FailuresInv, LockMove;
    MonitorRunKeeps(c, role, ps, |ps|);
    var d := Settle(DoMonitor(c, w, role, ps));
    assert role == Executor || role == Reviewer;
    if d.Holds(role) {
      KeepsLocks(me, c, d, w.locks);
    } else {
      DropsLock(me, c, d, role, w.locks);
    }
  }

  lemma OtherLocks(me: nat, c: Ctx, i: Input)
    requires Inv(c) && !c.runState.IsMonitor() && c.runState != ExecutorDispatch && c.runState != ReviewerDispatch
    ensures LockMove(me, c, i.world.locks, Next(me, c, i).ctx, Next(me, c, i).world.locks)
  {
    hide VerdictInv, FailuresInv, ChildInv, LockMove, DoReviewerOutputCollect;
    var s := Next(me, c, i);
    if c.runState.ReviewerOutputCollect? {
      CollectLocks(c, i);
    }
    KeepsLocks(me, c, s.ctx, i.world.locks);
  }

  ghost predicate SameHolding(c: Ctx, d: Ctx)
  {
    && d.args == c.args && d.executorLock == c.executorLock && d.reviewerLock == c.reviewerLock
    && d.executorSessionId == c.executorSessionId && d.reviewerSessionId == c.reviewerSessionId
  }

  lemma VerdictLocks(c: Ctx, raw: string)
    ensures SameHolding(c, TakeVerdict(c, raw))
  {
    hide ParseReviewerYaml, EnforceReviewerNotionPolicy;
  }

  lemma WorkspaceLocks(c: Ctx, w: World, x: ReviewerCollectInput)
    ensures var o := CheckWorkspace(c, w, x);
            o.world == w && SameHolding(c, o.ctx)
  {
    hide DirtyReason;
  }

  lemma CollectLocks(c: Ctx, i: Input)
    ensures var o := DoReviewerOutputCollect(c, i.world, i.reviewerCollect);
            o.world == i.world && SameHolding(c, o.ctx)
  {
    hide CheckWorkspace, OutboxUntouched, TakeVerdict;
    var outbox := i.world.files.outbox;
    var c1 := c.(reviewerOutboxSnapshot := outbox);
    WorkspaceLocks(c1, i.world, i.reviewerCollect);
    if outbox.Some? && outbox.value.body.Text? {
      VerdictLocks(c1, outbox.value.body.text);
      WorkspaceLocks(TakeVerdict(c1, outbox.value.body.text), i.world, i.reviewerCollect);
    }
  }

  /** Every iteration of the run loop treats the shared table this way. */
  lemma NextLocks(me: nat, c: Ctx, i: Input)
    requires Inv(c)
    ensures LockMove(me, c, i.world.locks, Next(me, c, i).ctx, Next(me, c, i).world.locks)
  {
    hide Inv, LockMove, DoDispatch, DoMonitor;
    if c.runState.IsTerminal() || i.cancelled {
      InvSessions(c);
      KeepsLocks(me, c, Next(me, c, i).ctx, i.world.locks);
    } else if c.runState.ExecutorDispatch? {
      DispatchLocks(me, c, i, Executor);
    } else if c.runState.ReviewerDispatch? {
      DispatchLocks(me, c, i, Reviewer);
    } else if c.runState.ExecutorMonitor? {
      MonitorLocks(me, c, i.world, Executor, i.probes);
    } else if c.runState.ReviewerMonitor? {
      MonitorLocks(me, c, i.world, Reviewer, i.probes);
    } else {
      OtherLocks(me, c, i);
    }
  }

  // ---- where the sessions come from ----

  ghost predicate SameSessions(c: Ctx, d: Ctx)
  {
    d.executorSessionId == c.executorSessionId && d.reviewerSessionId == c.reviewerSessionId
  }

  /** Only session binding changes the sessions, and it sets them to what it found. */
  lemma NextSessions(me: nat, c: Ctx, i: Input)
    requires Inv(c)
    ensures var d := Next(me, c, i).ctx;
            || SameSessions(c, d)
            || (c.runState == SessionBind && i.bindExecutor.Found? && i.bindReviewer.Found?
                && d.executorSessionId == Some(i.bindExecutor.session)
                && d.reviewerSessionId == Some(i.bindReviewer.session))
  {
    hide Next, Inv, DirtyReason, IsVerdict, TemplateFor, VerifyRequestFingerprint, Fresh, SameDispatch;
    NextMoves(me, c, i);
  }

  /** Iteration k bound these sessions. */
  predicate BoundAt(t: Runs.Trace, k: nat, executor: string, reviewer: string)
    requires Runs.Sized(t) && k < |t.inputs|
  {
    && Runs.StateAt(t, k) == SessionBind
    && t.inputs[k].bindExecutor == Found(executor) && t.inputs[k].bindReviewer == Found(reviewer)
  }

  /** The sessions a run works with are, each for its role, those its session binding found. */
  lemma {:induction false} SessionsOrigin(me: nat, args: Args, t: Runs.Trace, n: nat) returns (k: nat)
    requires Runs.IsRun(me, args, t) && n <= |t.inputs| && Runs.CtxAt(t, n).executorSessionId.Some?
    ensures k < n && Runs.CtxAt(t, n).reviewerSessionId.Some?
    ensures BoundAt(t, k, Runs.CtxAt(t, n).executorSessionId.value, Runs.CtxAt(t, n).reviewerSessionId.value)
    ensures Runs.CtxAt(t, n).Key(Executor) ==
            LockKey(args.executorProvider, Runs.CtxAt(t, n).executorSessionId.value)
    ensures Runs.CtxAt(t, n).Key(Reviewer) ==
            LockKey(args.reviewerProvider, Runs.CtxAt(t, n).reviewerSessionId.value)
  {
    hide LocksInv, ChildInv, VerdictInv, FailuresInv, Next;
    assert n > 0;
    var c, i := Runs.CtxAt(t, n - 1), t.inputs[n - 1];
    Runs.RunInv(me, args, t, n - 1);
    Runs.RunInv(me, args, t, n);
    assert Runs.Iterates(me, t, n - 1);
    NextSessions(me, c, i);
    if SameSessions(c, Runs.CtxAt(t, n)) {
      k := SessionsOrigin(me, args, t, n - 1);
    } else {
      k := n - 1;
    }
  }

  lemma InvSessions(c: Ctx)
    requires Inv(c)
    ensures Wf(c) && SessionsInv(c)
  {
  }

  // ---- the machine ----

  // The live orchestrator processes and the lock table they share.
  datatype Machine = Machine(runs: map<nat, Ctx>, locks: Table)

  /** One process iterates, one starts, or one exits and the system drops its locks. */
  datatype Event = Iterate(p: nat, input: Input) | Start(p: nat, args: Args) | Exit(p: nat)

  function DropLocks(table: Table, p: nat): Table
  {
    map k | k in table && table[k] != p :: table[k]
  }

  ghost predicate MachineStep(m: Machine, e: Event, n: Machine)
  {
    match e
    case Iterate(p, input) =>
      && p in m.runs && Wf(m.runs[p]) && input.world.locks == m.locks
      && n == Machine(m.runs[p := Next(p, m.runs[p], input).ctx], Next(p, m.runs[p], input).world.locks)
    case Start(p, args) =>
      p !in m.runs && (forall k :: k in m.locks ==> m.locks[k] != p)
      && n == m.(runs := m.runs[p := InitialCtx(args)])
    case Exit(p) => n == Machine(m.runs - {p}, DropLocks(m.locks, p))
  }

  /** The table names, for every key, exactly the process that holds it. */
  ghost predicate MachineInv(m: Machine)
  {
    && (forall p :: p in m.runs ==> Inv(m.runs[p]))
    && (forall p, r: Role :: p in m.runs && m.runs[p].Holds(r) ==>
          m.runs[p].SessionId(r).Some? && m.runs[p].Key(r) in m.locks && m.locks[m.runs[p].Key(r)] == p)
    && (forall k :: k in m.locks ==> m.locks[k] in m.runs && Owned(m.runs[m.locks[k]], k))
  }

  lemma IterateKeeps(m: Machine, p: nat, input: Input, n: Machine)
    requires MachineInv(m) && MachineStep(m, Iterate(p, input), n)
    ensures MachineInv(n)
  {
    hide Inv, Next;
    var c, d := m.runs[p], n.runs[p];
    NextKeeps(p, c, input);
    NextLocks(p, c, input);
    InvSessions(c);
    Runs.NextArgs(p, c, input);
    forall q, r: Role | q in n.runs && n.runs[q].Holds(r)
      ensures n.runs[q].SessionId(r).Some? && n.runs[q].Key(r) in n.locks && n.locks[n.runs[q].Key(r)] == q
    {
      if q == p {
        if c.Holds(r) {
          HeldKeyStays(p, c, m.locks, d, n.locks, r);
        }
      } else {
        OtherKeyStays(m, p, n, q, r);
      }
    }
    forall k | k in n.locks ensures n.locks[k] in n.runs && Owned(n.runs[n.locks[k]], k) {
      if k in m.locks && m.locks[k] == p {
        OwnStays(p, c, m.locks, d, n.locks, k);
      }
    }
  }

  lemma HeldKeyStays(me: nat, c: Ctx, before: Table, d: Ctx, after: Table, r: Role)
    requires LockMove(me, c, before, d, after) && SessionsInv(c) && d.args == c.args
    requires c.Holds(r) && d.Holds(r) && c.SessionId(r).Some?
    requires c.Key(r) in before && before[c.Key(r)] == me
    ensures d.SessionId(r).Some? && d.Key(r) in after && after[d.Key(r)] == me
  {
    OwnedKey(d, r);
  }

  lemma OwnStays(me: nat, c: Ctx, before: Table, d: Ctx, after: Table, k: LockKey)
    requires LockMove(me, c, before, d, after) && SessionsInv(c) && d.args == c.args
    requires k in before && k in after && Owned(c, k)
    ensures Owned(d, k)
  {
    var r: Role :| c.Holds(r) && c.SessionId(r) == Some(k.session) && c.ProviderOf(r) == k.provider;
    assert c.Key(r) == k;
  }

  /** What another process holds is untouched by process p. */
  lemma OtherKeyStays(m: Machine, p: nat, n: Machine, q: nat, r: Role)
    requires MachineInv(m) && p in m.runs && p in n.runs && q in m.runs && q != p && m.runs[q].Holds(r)
    requires LockMove(p, m.runs[p], m.locks, n.runs[p], n.locks) && SessionsInv(m.runs[p])
    ensures m.runs[q].SessionId(r).Some? && m.runs[q].Key(r) in n.locks && n.locks[m.runs[q].Key(r)] == q
  {
    hide Inv;
    var k := m.runs[q].Key(r);
    forall s: Role | m.runs[p].Holds(s) && m.runs[p].SessionId(s).Some? ensures m.runs[p].Key(s) != k {
      assert m.locks[m.runs[p].Key(s)] == p;
    }
  }

  lemma StartKeeps(m: Machine, p: nat, args: Args, n: Machine)
    requires MachineInv(m) && MachineStep(m, Start(p, args), n)
    ensures MachineInv(n)
  {
    InitialInv(args);
    hide Inv;
    forall r: Role ensures !InitialCtx(args).Holds(r) {
      assert r == Executor || r == Reviewer;
    }
  }

  lemma ExitKeeps(m: Machine, p: nat, n: Machine)
    requires MachineInv(m) && MachineStep(m, Exit(p), n)
    ensures MachineInv(n)
  {
    hide Inv;
  }

  /** Every machine reachable from an empty one. */
  ghost predicate Reachable(ms: seq<Machine>, es: seq<Event>)
  {
    && |ms| == |es| + 1 && ms[0] == Machine(map[], map[])
    && forall n :: 0 <= n < |es| ==> StepAt(ms, es, n)
  }

  ghost predicate StepAt(ms: seq<Machine>, es: seq<Event>, n: nat)
    requires |ms| == |es| + 1 && n < |es|
  {
    MachineStep(ms[n], es[n], ms[n + 1])
  }

  lemma {:induction false} MachineKeeps(ms: seq<Machine>, es: seq<Event>, n: nat)
    requires Reachable(ms, es) && n < |ms|
    ensures MachineInv(ms[n])
  {
    hide MachineInv, MachineStep;
    if n == 0 {
      EmptyMachine();
    } else {
      MachineKeeps(ms, es, n - 1);
      assert StepAt(ms, es, n - 1);
      match es[n - 1]
      case Iterate(p, input) => IterateKeeps(ms[n - 1], p, input, ms[n]);
      case Start(p, args) => StartKeeps(ms[n - 1], p, args, ms[n]);
      case Exit(p) => ExitKeeps(ms[n - 1], p, ms[n]);
    }
  }

  lemma EmptyMachine()
    ensures MachineInv(Machine(map[], map[]))
  {
  }

  /** The process is monitoring an attempt of this session. */
  predicate Monitors(c: Ctx, role: Role, k: LockKey)
  {
    c.runState == MonitorOf(role) && c.SessionId(role) == Some(k.session) && c.ProviderOf(role) == k.provider
  }

  /**
   * Mutual exclusion: however the iterations, starts and exits of any number of processes interleave,
   * no two of them ever monitor the same session.
   */
  lemma MutualExclusion(ms: seq<Machine>, es: seq<Event>, n: nat, p: nat, q: nat, rp: Role, rq: Role, k: LockKey)
    requires Reachable(ms, es) && n < |ms|
    requires p in ms[n].runs && q in ms[n].runs
    requires Monitors(ms[n].runs[p], rp, k) && Monitors(ms[n].runs[q], rq, k)
    ensures p == q && rp == rq
  {
    hide VerdictInv, FailuresInv, ChildInv, MachineStep;
    MachineKeeps(ms, es, n);
    var m := ms[n];
    assert Inv(m.runs[p]) && Inv(m.runs[q]);
    assert m.runs[p].Holds(rp) && m.runs[q].Holds(rq);
    assert m.runs[p].Key(rp) == k && m.runs[q].Key(rq) == k;
  }

  /** No self-deadlock: a dispatch refused for a held lock was refused because of another live process. */
  lemma LockedOutByAnother(ms: seq<Machine>, es: seq<Event>, n: nat, p: nat, role: Role, input: Input)
    requires Reachable(ms, es) && n < |ms| && p in ms[n].runs
    requires ms[n].runs[p].runState == DispatchOf(role) && input.world.locks == ms[n].locks
    requires DoDispatch(p, ms[n].runs[p], input.world, role, input.dispatch).error == Some(SessionLocked)
    ensures var c := ms[n].runs[p];
            c.SessionId(role).Some? && c.Key(role) in ms[n].locks
            && ms[n].locks[c.Key(role)] != p && ms[n].locks[c.Key(role)] in ms[n].runs
  {
    hide VerdictInv, FailuresInv, ChildInv, MachineStep, DoDispatch;
    MachineKeeps(ms, es, n);
    var c := ms[n].runs[p];
    assert Inv(c);
    forall r: Role ensures !c.Holds(r) {
      assert r == Executor || r == Reviewer;
    }
    RefusedKey(p, c, input.world, role, input.dispatch);
  }

  lemma RefusedKey(me: nat, c: Ctx, w: World, role: Role, d: DispatchInput)
    requires c.SessionId(role).Some?
    requires DoDispatch(me, c, w, role, d).error == Some(SessionLocked)
    ensures c.Key(role) in w.locks
  {
    hide ResetTransport, VerifyRequestFingerprint, Launch;
    ResetErrors(w.files, role, d.resetAt, d.resetFault);
    if c.attempt.Some? {
      VerifyErrors(c, w);
    }
    var o := PrepareDispatch(me, c, w, role, d);
    LaunchErrors(o, role, d);
  }
}
