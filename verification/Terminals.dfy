/** Which terminal states runs can end in, for every configuration: exact conditions with plausible witnesses. */
module Terminals {
  import opened Base
  import opened State
  import opened YamlCheck
  import opened Transport
  import opened Locks
  import opened Probing
  import opened Phases
  import opened Invariants
  import opened Moves
  import opened Runs
  import Workflow

  // ---- plausible runs ----

  /** What the outbox holds after an iteration: what its last probe saw, or what the phase left. */
  function OutboxAfter(c: Ctx, i: Input, s: Sys): Option<File>
  {
    if c.runState.IsMonitor() && i.probes != [] then i.probes[|i.probes| - 1].outbox else s.world.files.outbox
  }

  /** The world as iteration n must find it if nobody but the run and its children writes. */
  function WorldBefore(t: Trace, n: nat): World
    requires Sized(t) && n <= |t.inputs|
  {
    var w := t.states[n].world;
    if n == 0 then w
    else w.(files := w.files.(outbox := OutboxAfter(CtxAt(t, n - 1), t.inputs[n - 1], t.states[n])))
  }

  /** Probe k sees the outbox as it was, or as the child rewrote it since, and no file from the future. */
  predicate ProbePlausible(i: Input, k: nat, lo: int)
    requires k < |i.probes|
  {
    var p := i.probes[k];
    var before := if k == 0 then i.world.files.outbox else i.probes[k - 1].outbox;
    var since := if k == 0 then lo else i.probes[k - 1].now;
    && (p.logMtime.Some? ==> p.logMtime.value <= p.now)
    && (|| p.outbox == before
        || (p.outbox.Some? && since <= p.outbox.value.mtime <= p.now && Mtime(p.outbox) != Mtime(before)))
  }

  predicate ProbesPlausible(i: Input, lo: int)
  {
    forall k :: 0 <= k < |i.probes| ==> ProbePlausible(i, k, lo)
  }

  /** The text of a git status. */
  function Joined(lines: seq<string>): string
  {
    if lines == [] then "" else lines[0] + "\n" + Joined(lines[1..])
  }

  // Nobody commits in the runs below.
  const HEAD: string := "h"

  /** Every git status and HEAD asked for outside a monitor call shows these lines. */
  predicate StatusFits(i: Input, lines: seq<string>)
  {
    && i.dispatch.gitStatus == Joined(lines) && i.dispatch.gitStatusAll == lines
    && i.reviewerCollect.gitStatusAll == lines
    && i.dispatch.gitHead == HEAD && forall k :: 0 <= k < |i.probes| ==> i.probes[k].gitHead == HEAD
  }

  /** The working tree changes only while a child is monitored, and the last probe sees the result. */
  predicate StatusMoves(c: Ctx, i: Input, before: seq<string>, after: seq<string>)
  {
    if c.runState.IsMonitor() && i.probes != [] then i.probes[|i.probes| - 1].gitStatus == Joined(after)
    else after == before
  }

  predicate NotFuture(f: Option<File>, now: int)
  {
    f.Some? ==> f.value.mtime <= now
  }

  predicate PlausibleAt(t: Trace, clock: seq<int>, trees: seq<seq<string>>, n: nat)
    requires Sized(t) && |clock| == |trees| == |t.states| && n < |t.inputs|
  {
    && t.inputs[n].world == WorldBefore(t, n)
    && NotFuture(t.inputs[n].world.files.outbox, clock[n])
    && ProbesPlausible(t.inputs[n], clock[n])
    && StatusFits(t.inputs[n], trees[n]) && StatusMoves(CtxAt(t, n), t.inputs[n], trees[n], trees[n + 1])
  }

  /**
   * A run as time can bring it: the clock runs forward, nobody else touches the inbox or the locks, and
   * only the monitored child writes the outbox, each time with a new time, or changes the working tree.
   */
  predicate Plausible(t: Trace, clock: seq<int>, trees: seq<seq<string>>)
    requires Sized(t)
  {
    && RunsForward(t, clock) && |trees| == |t.states|
    && forall n :: 0 <= n < |t.inputs| ==> PlausibleAt(t, clock, trees, n)
  }

  // ---- what plausible runs reach ----

  // Where a run stands: its system, the world and the status lines its next iteration will find, and the time.
  datatype Moment = Moment(sys: Sys, world: World, lines: seq<string>, now: int)

  ghost predicate Leads(me: nat, args: Args, t: Trace, clock: seq<int>, trees: seq<seq<string>>, m: Moment)
  {
    && IsRun(me, args, t) && Plausible(t, clock, trees)
    && m == Moment(t.states[|t.inputs|], WorldBefore(t, |t.inputs|), trees[|t.inputs|], clock[|t.inputs|])
    && NotFuture(m.world.files.outbox, m.now)
  }

  ghost predicate Reaches(me: nat, args: Args, m: Moment)
  {
    exists t, clock, trees :: Leads(me, args, t, clock, trees, m)
  }

  /** Some plausible run of this configuration ends in this state. */
  ghost predicate CanEndIn(me: nat, args: Args, end: RunState)
  {
    exists m :: Reaches(me, args, m) && m.sys.ctx.runState == end
  }

  lemma Start(me: nat, args: Args, w: World, now: int) returns (m: Moment)
    requires NotFuture(w.files.outbox, now)
    ensures m == Moment(Sys(InitialCtx(args), w), w, [], now) && Reaches(me, args, m)
  {
    m := Moment(Sys(InitialCtx(args), w), w, [], now);
    assert Leads(me, args, Trace([m.sys], []), [now], [[]], m);
  }

  const TICK: int := Seconds(1)

  /** The moment a second later, after one iteration. */
  function Later(me: nat, m: Moment, i: Input, lines: seq<string>): Moment
    requires Wf(m.sys.ctx)
  {
    var s := Next(me, m.sys.ctx, i);
    Moment(s, s.world.(files := s.world.files.(outbox := OutboxAfter(m.sys.ctx, i, s))), lines, m.now + TICK)
  }

  /** The iteration may come next, leaving these status lines. */
  predicate Fits(m: Moment, i: Input, lines: seq<string>)
  {
    && i.world == m.world && TimesWithin(i, m.now, m.now + TICK) && ProbesPlausible(i, m.now)
    && StatusFits(i, m.lines) && StatusMoves(m.sys.ctx, i, m.lines, lines)
  }

  lemma Extend(me: nat, args: Args, t: Trace, clock: seq<int>, trees: seq<seq<string>>, m: Moment, i: Input,
               lines: seq<string>)
    returns (u: Trace, later: seq<int>, grown: seq<seq<string>>)
    requires Leads(me, args, t, clock, trees, m) && Fits(m, i, lines)
    ensures Inv(m.sys.ctx) && m.sys.ctx.args == args && Wf(m.sys.ctx)
    ensures NotFuture(Later(me, m, i, lines).world.files.outbox, m.now + TICK) ==>
              Leads(me, args, u, later, grown, Later(me, m, i, lines))
    ensures u.inputs == t.inputs + [i] && u.states == t.states + [Next(me, m.sys.ctx, i)]
    ensures IsRun(me, args, u) && Plausible(u, later, grown)
  {
    hide Next, Inv, OutboxAfter, TimesWithin, ProbesPlausible, StatusFits, StatusMoves;
    var last := |t.inputs|;
    RunInv(me, args, t, last);
    InvIsWf(m.sys.ctx);
    u := Trace(t.states + [Next(me, m.sys.ctx, i)], t.inputs + [i]);
    later, grown := clock + [m.now + TICK], trees + [lines];
    assert forall n :: 0 <= n < last ==> Iterates(me, t, n) ==> Iterates(me, u, n);
    assert Iterates(me, u, last);
    assert forall n :: 0 <= n <= last ==> WorldBefore(u, n) == WorldBefore(t, n);
    assert forall n :: 0 <= n < last ==> TimesAt(t, clock, n) ==> TimesAt(u, later, n);
    assert TimesAt(u, later, last);
    assert forall n :: 0 <= n < last ==> PlausibleAt(t, clock, trees, n) ==> PlausibleAt(u, later, grown, n);
    assert PlausibleAt(u, later, grown, last);
  }

  lemma Advance(me: nat, args: Args, m: Moment, i: Input, lines: seq<string>) returns (r: Moment)
    requires Reaches(me, args, m) && Fits(m, i, lines)
    ensures Inv(m.sys.ctx) && m.sys.ctx.args == args && Wf(m.sys.ctx)
    ensures r == Later(me, m, i, lines)
    ensures NotFuture(r.world.files.outbox, r.now) ==> Reaches(me, args, r)
  {
    hide Next, Inv, Leads, Later, Fits;
    var t, clock, trees :| Leads(me, args, t, clock, trees, m);
    var u, later, grown := Extend(me, args, t, clock, trees, m, i, lines);
    r := Later(me, m, i, lines);
    LaterNow(me, m, i, lines);
  }

  lemma LaterNow(me: nat, m: Moment, i: Input, lines: seq<string>)
    requires Wf(m.sys.ctx)
    ensures Later(me, m, i, lines).now == m.now + TICK
  {
    hide Next;
  }

  // ---- the scenes the witnesses are made of ----

  const REQUEST: string := "q"

  function LaunchAt(m: Moment): DispatchInput
  {
    DispatchInput(m.now, m.now, m.now, Joined(m.lines), HEAD, m.lines, _ => REQUEST, 1, None, None)
  }

  /** An iteration without faults in the world as it stands, with the given probes. */
  function Scene(m: Moment, ps: seq<Probe>): Input
  {
    Input(false, m.world, None, Found("e"), Found("r"), LaunchAt(m), ps,
          ExecutorCollectInput(None, None, false, None), ReviewerCollectInput(None, None, None, m.lines))
  }

  /** The child is found dead, having left this working tree and this outbox. */
  function Exit(now: int, outbox: Option<File>, lines: seq<string>, matched: set<ErrorClass>): Probe
  {
    Probe(now, NotCancelled, true, None, false, false, Joined(lines), HEAD, outbox, None, map[], matched, false)
  }

  /** The child left the outbox alone, or wrote this file during the last second. */
  predicate MayLeave(m: Moment, outbox: Option<File>)
  {
    outbox == m.world.files.outbox || (outbox.Some? && outbox.value.mtime == m.now + TICK)
  }

  /** The scene in which the monitored child is found dead, having left these. */
  function ExitScene(m: Moment, outbox: Option<File>, lines: seq<string>, matched: set<ErrorClass>): Input
  {
    Scene(m, [Exit(m.now + TICK, outbox, lines, matched)])
  }

  lemma SceneFits(me: nat, args: Args, m: Moment)
    requires Reaches(me, args, m)
    ensures Fits(m, Scene(m, []), m.lines) && NotFuture(m.world.files.outbox, m.now)
  {
    hide IsRun, Plausible;
  }

  lemma ExitFits(me: nat, args: Args, m: Moment, outbox: Option<File>, lines: seq<string>, matched: set<ErrorClass>)
    requires Reaches(me, args, m) && MayLeave(m, outbox) && m.sys.ctx.runState.IsMonitor()
    ensures Fits(m, ExitScene(m, outbox, lines, matched), lines) && NotFuture(outbox, m.now + TICK)
  {
    SceneFits(me, args, m);
    hide Reaches;
    assert ProbePlausible(ExitScene(m, outbox, lines, matched), 0, m.now);
  }

  /** A document from which this configuration's reviewer parser reads a valid verdict of this decision. */
  predicate Delivers(args: Args, raw: string, d: Decision)
  {
    && ParseReviewerYaml(args.parse, raw).Ok?
    && EnforceReviewerNotionPolicy(args.notionPolicy, ParseReviewerYaml(args.parse, raw).value).Ok?
    && ParseReviewerYaml(args.parse, raw).value.decision == d
  }

  // ---- one phase of a witness at a time ----

  /** Both sessions are bound. */
  predicate Bound(c: Ctx)
  {
    c.executorSessionId == Some("e") && c.reviewerSessionId == Some("r")
  }

  /** The inbox holds the request of the attempt, if there is one. */
  predicate RequestKept(m: Moment)
  {
    m.sys.ctx.attempt.Some? ==>
      VerifyRequestFingerprint(m.world.files, m.sys.ctx.attempt.value.requestFingerprint) == None
  }

  /** Nobody holds a lock and the next dispatch finds its request untouched. */
  predicate Ready(m: Moment, role: Role, failures: nat)
  {
    && m.sys.ctx.runState == DispatchOf(role) && m.sys.ctx.consecutiveFailureCount == failures
    && Bound(m.sys.ctx) && RequestKept(m)
    && !m.sys.ctx.executorLock && !m.sys.ctx.reviewerLock && m.world.locks == map[]
  }

  predicate Watching(me: nat, m: Moment, role: Role, failures: nat)
  {
    && m.sys.ctx.runState == MonitorOf(role) && m.sys.ctx.consecutiveFailureCount == failures
    && Bound(m.sys.ctx) && RequestKept(m)
    && m.sys.ctx.executorLock == (role == Executor) && m.sys.ctx.reviewerLock == (role == Reviewer)
    && m.sys.ctx.currentRole == Some(role)
    && m.sys.ctx.attempt.Some? && Fresh(m.sys.ctx.attempt.value)
    && m.sys.ctx.attempt.value.dispatchGitStatusHash == Sha256Hex(Joined(m.lines))
    && m.sys.ctx.attempt.value.dispatchGitHead == HEAD
    && m.sys.ctx.SessionId(role).Some? && m.world.locks == map[m.sys.ctx.Key(role) := me]
  }

  /** The attempt is over and its lock is free again. */
  predicate Released(m: Moment, role: Role, failures: nat)
  {
    && m.sys.ctx.consecutiveFailureCount == failures && m.sys.ctx.currentRole == Some(role)
    && Bound(m.sys.ctx) && RequestKept(m)
    && !m.sys.ctx.executorLock && !m.sys.ctx.reviewerLock && m.world.locks == map[]
    && m.sys.ctx.attempt.Some?
  }

  /** What a witness keeps of the review while a role is dispatched, monitored or retried. */
  ghost predicate KeepsReview(c: Ctx, d: Ctx)
  {
    && d.reviewResult == c.reviewResult && d.reviewResultYamlRaw == c.reviewResultYamlRaw
    && d.reviewerWorkspaceRejection == c.reviewerWorkspaceRejection
  }

  const NO_FILES: Files := Files(None, None)

  /** The context checks have passed. */
  lemma Prepares(me: nat, args: Args, locks: Table) returns (m: Moment)
    ensures Reaches(me, args, m) && m.world == World(NO_FILES, locks) && m.lines == []
    ensures m.sys.ctx == InitialCtx(args).(runState := SessionBind)
  {
    hide Reaches, Inv, Fits;
    m := Start(me, args, World(NO_FILES, locks), 0);
    SceneFits(me, args, m);
    m := Advance(me, args, m, Scene(m, []), m.lines);
  }

  lemma Binds(me: nat, args: Args, locks: Table) returns (m: Moment)
    ensures Reaches(me, args, m) && m.world == World(NO_FILES, locks) && m.lines == []
    ensures locks == map[] ==> Ready(m, Executor, 0)
    ensures m.sys.ctx == InitialCtx(args).(executorSessionId := Some("e"), reviewerSessionId := Some("r"),
                                           runState := ExecutorDispatch)
  {
    hide Reaches, Inv, Fits;
    m := Prepares(me, args, locks);
    SceneFits(me, args, m);
    m := Advance(me, args, m, Scene(m, []), m.lines);
  }

  lemma PrepareSucceeds(me: nat, m: Moment, role: Role, failures: nat)
    requires Ready(m, role, failures)
    ensures PrepareDispatch(me, m.sys.ctx, m.world, role, LaunchAt(m)).error.None?
  {
    hide ResetTransport;
    ResetExact(m.world.files, role, m.now, None);
  }

  lemma LaunchSucceeds(c: Ctx, w: World, role: Role, m: Moment)
    ensures Launch(c, w, role, LaunchAt(m)).error.None?
  {
    hide TemplateFor, NewAttempt;
  }

  lemma DispatchSucceeds(me: nat, m: Moment, role: Role, failures: nat)
    requires Ready(m, role, failures)
    ensures var d := LaunchAt(m);
            var o := DoDispatch(me, m.sys.ctx, m.world, role, d);
            Dispatched(me, m.sys.ctx, m.world, role, d, o)
            && o.ctx.attempt.value ==
               NewAttempt(role, d, REQUEST, if role == Reviewer then Mtime(m.world.files.outbox) else None)
  {
    hide PrepareDispatch, Launch, TemplateFor, VerifyRequestFingerprint, NewAttempt, Ready;
    var d := LaunchAt(m);
    PrepareSucceeds(me, m, role, failures);
    PrepareExact(me, m.sys.ctx, m.world, role, d);
    var o := PrepareDispatch(me, m.sys.ctx, m.world, role, d);
    LaunchSucceeds(o.ctx, o.world, role, m);
    LaunchExact(o.ctx, o.world, role, d);
    DispatchExact(me, m.sys.ctx, m.world, role, d);
  }

  lemma DispatchNext(me: nat, m: Moment, role: Role)
    requires m.sys.ctx.runState == DispatchOf(role)
    requires DoDispatch(me, m.sys.ctx, m.world, role, LaunchAt(m)).error.None?
    ensures var o := DoDispatch(me, m.sys.ctx, m.world, role, LaunchAt(m));
            Later(me, m, Scene(m, []), m.lines) == Moment(Sys(o.ctx, o.world), o.world, m.lines, m.now + TICK)
  {
    hide DoDispatch;
    assert role == Executor || role == Reviewer;
  }

  lemma Dispatches(me: nat, args: Args, m: Moment, role: Role, failures: nat) returns (r: Moment)
    requires Reaches(me, args, m) && Ready(m, role, failures)
    ensures Reaches(me, args, r) && Watching(me, r, role, failures) && KeepsReview(m.sys.ctx, r.sys.ctx)
    ensures role == Reviewer ==>
              && r.sys.ctx.attempt.value.preReviewerOutboxMtime == Mtime(m.world.files.outbox)
              && r.world.files.outbox == m.world.files.outbox
    ensures r.sys.ctx.preReviewerGitStatus ==
            if role == Reviewer && m.sys.ctx.reviewerWorkspaceRejection.None? then Some(m.lines)
            else m.sys.ctx.preReviewerGitStatus
    ensures role == Executor ==> !NonEmpty(Meta(r.world.files.outbox))
    ensures r.lines == m.lines
  {
    hide Reaches, Inv, Fits, DoDispatch, Joined, TemplateFor, Next, Later;
    DispatchSucceeds(me, m, role, failures);
    DispatchNext(me, m, role);
    SceneFits(me, args, m);
    r := Advance(me, args, m, Scene(m, []), m.lines);
  }

  /** What the one probe of a witness is classified as. */
  lemma ExitClass(st: Setting, a: Attempt, p: Probe, matched: set<ErrorClass>)
    requires p == Exit(p.now, p.outbox, [], matched).(gitStatus := p.gitStatus)
    requires Fresh(a) && (matched == {} || matched == {ServiceCap})
    ensures var found := ProbeClass(st, a, p);
            && (matched == {ServiceCap} ==> found == FailedServiceCap)
            && (matched == {} && NonEmpty(Meta(p.outbox)) ==> found == Success)
            && (matched == {} && !NonEmpty(Meta(p.outbox)) && st.role == Executor
                && a.dispatchGitStatusHash == Sha256Hex(p.gitStatus) && a.dispatchGitHead == HEAD ==>
                  found == FailedSilent)
  {
    hide ParseReviewerYaml;
    OnlyServiceCapSurvives(st, p);
    if a.dispatchGitStatusHash == Sha256Hex(p.gitStatus) && a.dispatchGitHead == HEAD {
      assert GitDirty(a, p) == false && GitCommitted(a, p) == false;
    }
  }

  lemma ExitProbed(c: Ctx, role: Role, p: Probe)
    requires c.attempt.Some? && c.SessionId(role).Some? && p.cancel == NotCancelled && p.fault.None?
    ensures MonitorRun(c, role, [p], 1) ==
            RouteProbe(ClassifiedCtx(c, role, p), role, p, ProbeClass(c.SettingOf(role), c.attempt.value, p))
  {
    hide MonitorProbe, RouteProbe, ClassifiedCtx, ProbeClass;
    var ps := [p];
    ProbeIsRouted(c, role, ps[0]);
    assert MonitorRun(c, role, ps, 0).ctx == c;
  }

  lemma RouteExit(c: Ctx, role: Role, p: Probe, s: AttemptState)
    requires c.attempt.Some? && (s.Success? || s.FailedServiceCap? || s.FailedSilent?)
    ensures var m := RouteProbe(c, role, p, s);
            && m.status.Returned?
            && (c.executorLock == (role == Executor) && c.reviewerLock == (role == Reviewer) ==>
                  !m.ctx.executorLock && !m.ctx.reviewerLock)
            && m.ctx.runState == (if s.Success? then CollectOf(role)
                                  else if s.FailedSilent? then RoundRetryDecide else RunFailedServiceCap)
            && m.ctx.consecutiveFailureCount == c.consecutiveFailureCount + (if s.FailedSilent? then 1 else 0)
            && SameReview(c, m.ctx) && SameDispatch(c, m.ctx)
  {
    hide OutboxFilled, FinalizeExpired, Workflow.SoftSuccessAllowed;
    assert role == Executor || role == Reviewer;
  }

  /** Where the monitor goes after its one probe. */
  lemma ExitRouted(me: nat, m: Moment, role: Role, failures: nat, outbox: Option<File>, lines: seq<string>,
                   matched: set<ErrorClass>)
    requires Watching(me, m, role, failures) && (matched == {} || matched == {ServiceCap})
    requires matched == {} ==> NonEmpty(Meta(outbox)) || (role == Executor && lines == m.lines)
    ensures var c, p := m.sys.ctx, Exit(m.now + TICK, outbox, lines, matched);
            var n := MonitorRun(c, role, [p], 1);
            && n.status.Returned? && !n.ctx.executorLock && !n.ctx.reviewerLock
            && (matched != {} ==> n.ctx.runState == RunFailedServiceCap)
            && (matched == {} && NonEmpty(Meta(outbox)) ==>
                  n.ctx.runState == CollectOf(role) && n.ctx.consecutiveFailureCount == failures)
            && (matched == {} && !NonEmpty(Meta(outbox)) ==>
                  n.ctx.runState == RoundRetryDecide && n.ctx.consecutiveFailureCount == failures + 1)
            && SameReview(c, n.ctx) && SameDispatch(c, n.ctx)
  {
    var c, p := m.sys.ctx, Exit(m.now + TICK, outbox, lines, matched);
    ExitClass(c.SettingOf(role), c.attempt.value, p, matched);
    ExitProbed(c, role, p);
    ClassifiedFacts(c.SettingOf(role), c.attempt.value, p);
    RouteExit(ClassifiedCtx(c, role, p), role, p, ProbeClass(c.SettingOf(role), c.attempt.value, p));
    hide Classified, ProbeClass, VerifyRequestFingerprint, Fresh, RouteProbe, NonEmpty, Joined;
  }

  lemma ExitNext(me: nat, m: Moment, role: Role, i: Input, lines: seq<string>)
    requires m.sys.ctx.runState == MonitorOf(role) && m.sys.ctx.attempt.Some? && !i.cancelled && |i.probes| == 1
    requires i.world == m.world && MonitorRun(m.sys.ctx, role, i.probes, 1).status.Returned?
    ensures var d := MonitorRun(m.sys.ctx, role, i.probes, 1).ctx;
            var r := Later(me, m, i, lines);
            && r.sys.ctx == d && r.world.locks == LocksAfter(m.sys.ctx, d, role, m.world.locks)
            && r.world.files == m.world.files.(outbox := i.probes[0].outbox)
            && r.now == m.now + TICK && r.lines == lines
  {
    hide MonitorRun, LocksAfter;
  }

  /** The monitored child is found dead, having left this outbox and these status lines. */
  lemma Monitors(me: nat, args: Args, m: Moment, role: Role, failures: nat, outbox: Option<File>,
                 lines: seq<string>, matched: set<ErrorClass>)
    returns (r: Moment)
    requires Reaches(me, args, m) && Watching(me, m, role, failures) && (matched == {} || matched == {ServiceCap})
    requires matched == {} ==> NonEmpty(Meta(outbox)) || (role == Executor && lines == m.lines)
    requires MayLeave(m, outbox)
    ensures Reaches(me, args, r) && r.world.files.outbox == outbox && r.lines == lines
    ensures SameReview(m.sys.ctx, r.sys.ctx)
    ensures if matched != {} then r.sys.ctx.runState == RunFailedServiceCap
            else if NonEmpty(Meta(outbox)) then r.sys.ctx.runState == CollectOf(role) && Released(r, role, failures)
            else r.sys.ctx.runState == RoundRetryDecide && Released(r, role, failures + 1)
    ensures r.sys.ctx.attempt.Some? && SameDispatch(m.sys.ctx, r.sys.ctx)
  {
    hide Reaches, Inv, Fits, MonitorRun, Fresh, Next, Later, NonEmpty, Joined;
    var i := ExitScene(m, outbox, lines, matched);
    ExitRouted(me, m, role, failures, outbox, lines, matched);
    ExitNext(me, m, role, i, lines);
    ExitFits(me, args, m, outbox, lines, matched);
    r := Advance(me, args, m, i, lines);
  }

  /** A failed attempt below the limit leads to the next dispatch, at the limit to the end. */
  lemma Decides(me: nat, args: Args, m: Moment, role: Role, failures: nat) returns (r: Moment)
    requires Reaches(me, args, m) && m.sys.ctx.runState == RoundRetryDecide && Released(m, role, failures)
    ensures Reaches(me, args, r) && r.world == m.world && r.lines == m.lines
    ensures KeepsReview(m.sys.ctx, r.sys.ctx)
    ensures if failures >= 5 then r.sys.ctx.runState == RunFailedConsecutiveFailureLimit
            else Ready(r, role, failures)
    ensures r.sys.ctx.preReviewerGitStatus == m.sys.ctx.preReviewerGitStatus
  {
    hide Reaches, Inv, Fits;
    assert role == Executor || role == Reviewer;
    SceneFits(me, args, m);
    r := Advance(me, args, m, Scene(m, []), m.lines);
  }

  lemma {:induction false} FailsFrom(me: nat, args: Args, m: Moment, failures: nat)
    requires Reaches(me, args, m) && Ready(m, Executor, failures) && failures < 5
    ensures CanEndIn(me, args, RunFailedConsecutiveFailureLimit)
    decreases 5 - failures
  {
    hide Reaches, Inv, Ready, Watching, Released, SameDispatch, NonEmpty;
    var r := Dispatches(me, args, m, Executor, failures);
    r := Monitors(me, args, r, Executor, failures, r.world.files.outbox, r.lines, {});
    r := Decides(me, args, r, Executor, failures + 1);
    if failures + 1 < 5 {
      FailsFrom(me, args, r, failures + 1);
    }
  }

  /** From a finished executor attempt to the reviewer's dispatch. */
  lemma HandsOver(me: nat, args: Args, m: Moment) returns (r: Moment)
    requires Reaches(me, args, m) && m.sys.ctx.runState == ExecutorOutputCollect && Released(m, Executor, 0)
    ensures Reaches(me, args, r) && Ready(r, Reviewer, 0) && r.world == m.world && r.lines == m.lines
    ensures r.sys.ctx.reviewResult.None? && r.sys.ctx.reviewerWorkspaceRejection.None?
  {
    hide Reaches, Inv, Fits;
    SceneFits(me, args, m);
    r := Advance(me, args, m, Scene(m, []), m.lines);
    SceneFits(me, args, r);
    r := Advance(me, args, r, Scene(r, []), r.lines);
  }

  /** The reviewer delivered this text after a dispatch that found a clean working tree. */
  predicate Delivered(m: Moment, raw: string)
  {
    && m.sys.ctx.runState == ReviewerOutputCollect && Released(m, Reviewer, 0)
    && m.sys.ctx.reviewResult.None? && m.sys.ctx.reviewerWorkspaceRejection.None?
    && m.sys.ctx.preReviewerGitStatus == Some([])
    && m.world.files.outbox.Some? && m.world.files.outbox.value.body == Text(raw)
    && m.sys.ctx.attempt.value.preReviewerOutboxMtime.Some?
    && m.sys.ctx.attempt.value.preReviewerOutboxMtime != Mtime(m.world.files.outbox)
  }

  /** A first review: the executor wrote a report, the reviewer replaced it later and left these status lines. */
  lemma Reviews(me: nat, args: Args, raw: string, lines: seq<string>) returns (r: Moment)
    requires raw != ""
    ensures Reaches(me, args, r) && Delivered(r, raw) && r.lines == lines
  {
    hide Reaches, Inv, Ready, Watching;
    r := Binds(me, args, map[]);
    r := Dispatches(me, args, r, Executor, 0);
    r := Monitors(me, args, r, Executor, 0, Some(File(Text("done"), r.now + TICK)), [], {});
    r := HandsOver(me, args, r);
    SceneFits(me, args, r);
    r := Dispatches(me, args, r, Reviewer, 0);
    SceneFits(me, args, r);
    r := Monitors(me, args, r, Reviewer, 0, Some(File(Text(raw), r.now + TICK)), lines, {});
  }

  /** Collecting a delivered verdict. */
  lemma Collects(me: nat, args: Args, m: Moment, raw: string, d: Decision) returns (r: Moment)
    requires Reaches(me, args, m) && Delivered(m, raw) && m.lines == [] && Delivers(args, raw, d)
    ensures Reaches(me, args, r) && r.sys.ctx.runState == QualityGate
    ensures r.sys.ctx.reviewResult.Some? && r.sys.ctx.reviewResult.value.decision == d
  {
    hide Reaches, Inv, Fits, ParseReviewerYaml, EnforceReviewerNotionPolicy, VerifyRequestFingerprint;
    SceneFits(me, args, m);
    r := Advance(me, args, m, Scene(m, []), m.lines);
    assert DirtyReason(m.sys.ctx, []) == None;
  }

  /** From a delivered verdict through the gate. */
  lemma Judges(me: nat, args: Args, m: Moment, raw: string, d: Decision)
    requires Reaches(me, args, m) && Delivered(m, raw) && m.lines == [] && Delivers(args, raw, d)
    ensures CanEndIn(me, args, EndOf(d))
  {
    hide Reaches, Inv, Fits, Delivered, Delivers;
    var r := Collects(me, args, m, raw, d);
    SceneFits(me, args, r);
    r := Advance(me, args, r, Scene(r, []), r.lines);
    assert r.sys.ctx.runState == EndOf(d);
  }

  // ---- the witnesses, terminal by terminal ----

  lemma EndsAtOnce(me: nat, args: Args, e: PrepError)
    ensures CanEndIn(me, args, ErrorToRunState(e))
    ensures CanEndIn(me, args, RunAborted)
  {
    hide Reaches, Inv, Fits;
    var m := Start(me, args, World(NO_FILES, map[]), 0);
    SceneFits(me, args, m);
    FitsAnyway(m, e);
    var r := Advance(me, args, m, Scene(m, []).(prep := Some(e)), m.lines);
    assert r.sys.ctx.runState == ErrorToRunState(e);
    var s := Advance(me, args, m, Scene(m, []).(cancelled := true), m.lines);
    assert s.sys.ctx.runState == RunAborted;
  }

  /** Troubled scenes fit as well. */
  lemma FitsAnyway(m: Moment, e: PrepError)
    requires Fits(m, Scene(m, []), m.lines)
    ensures Fits(m, Scene(m, []).(prep := Some(e)), m.lines)
    ensures Fits(m, Scene(m, []).(cancelled := true), m.lines)
    ensures Fits(m, Scene(m, []).(bindExecutor := BindFailed(SessionBindFailed)), m.lines)
  {
  }

  lemma EndsUnbound(me: nat, args: Args)
    ensures CanEndIn(me, args, RunFailedSessionBind)
  {
    hide Reaches, Inv, Fits;
    var m := Prepares(me, args, map[]);
    SceneFits(me, args, m);
    FitsAnyway(m, Io);
    var r := Advance(me, args, m, Scene(m, []).(bindExecutor := BindFailed(SessionBindFailed)), m.lines);
    assert r.sys.ctx.runState == RunFailedSessionBind;
  }

  lemma RefusedNext(me: nat, m: Moment)
    requires m.sys.ctx.runState == ExecutorDispatch
    requires m.sys.ctx.SessionId(Executor).Some? && m.sys.ctx.Key(Executor) in m.world.locks
    ensures var s := Next(me, m.sys.ctx, Scene(m, []));
            s.ctx.runState == RunFailedSessionLocked && s.world == m.world
  {
    hide Launch, ResetTransport, VerifyRequestFingerprint;
  }

  /** Another run holds the executor's session. */
  lemma EndsLocked(me: nat, args: Args)
    ensures CanEndIn(me, args, RunFailedSessionLocked)
  {
    hide Reaches, Inv, Fits, Next;
    var m := Binds(me, args, map[LockKey(args.executorProvider, "e") := me + 1]);
    SceneFits(me, args, m);
    RefusedNext(me, m);
    var r := Advance(me, args, m, Scene(m, []), m.lines);
    assert r.sys.ctx.runState == RunFailedSessionLocked;
  }

  lemma EndsInRound(me: nat, args: Args)
    ensures CanEndIn(me, args, RunFailedServiceCap)
    ensures CanEndIn(me, args, RunFailedConsecutiveFailureLimit)
  {
    hide Reaches, Inv, Ready, Watching, Released;
    var m := Binds(me, args, map[]);
    FailsFrom(me, args, m, 0);
    m := Dispatches(me, args, m, Executor, 0);
    m := Monitors(me, args, m, Executor, 0, m.world.files.outbox, m.lines, {ServiceCap});
  }

  lemma EndsJudged(me: nat, args: Args, raw: string, d: Decision)
    requires raw != "" && Delivers(args, raw, d)
    ensures CanEndIn(me, args, EndOf(d))
  {
    hide Reaches, Delivered, Delivers;
    var m := Reviews(me, args, raw, []);
    Judges(me, args, m, raw, d);
  }

  // ---- the exact condition ----

  /** A judged end comes from a document that delivered its decision. */
  lemma {:induction false} JudgedOrigin(me: nat, args: Args, t: Trace, n: nat) returns (raw: string, d: Decision)
    requires IsRun(me, args, t) && n <= |t.inputs| && Judged(StateAt(t, n))
    ensures Delivers(args, raw, d) && StateAt(t, n) == EndOf(d)
  {
    hide Iterates, LiveMove, LocksInv, SessionsInv, ChildInv, FailuresInv, ParseReviewerYaml;
    hide EnforceReviewerNotionPolicy;
    RunInv(me, args, t, 0);
    RunMoves(me, args, t, n - 1);
    var c := CtxAt(t, n - 1);
    if c.runState.IsTerminal() {
      raw, d := JudgedOrigin(me, args, t, n - 1);
    } else {
      raw, d := c.reviewResultYamlRaw.value, c.reviewResult.value.decision;
    }
  }

  /**
   * What this configuration's runs can end in: everything but the two unreachable failures, a decision of
   * the reviewer only if some document delivers it.
   */
  ghost predicate EndPossible(args: Args, end: RunState)
  {
    && end != RunFailedProtocol && end != RunFailedProviderAccess
    && forall d: Decision :: end == EndOf(d) ==> exists raw :: Delivers(args, raw, d)
  }

  lemma PossibleEnds(me: nat, args: Args, end: RunState)
    requires end.IsTerminal() && args.parse("") == None && EndPossible(args, end)
    ensures CanEndIn(me, args, end)
  {
    hide Reaches, CanEndIn;
    assert EndOf(Accept) == RunDone && EndOf(Blocked) == RunFailedExternalBlocker;
    assert EndOf(IrreconcilableDisagreement) == RunFailedIrreconcilableDisagreement;
    assert EndOf(PoisonedSession) == RunFailedPoisonedSession;
    if d: Decision :| end == EndOf(d) {
      var raw :| Delivers(args, raw, d);
      EndsJudged(me, args, raw, d);
    } else {
      match end
      case RunAborted => EndsAtOnce(me, args, Io);
      case RunFailedInvalidInput => EndsAtOnce(me, args, InvalidInput);
      case RunFailedDirtyWorktree => EndsAtOnce(me, args, DirtyWorktree);
      case RunFailedSessionBind => EndsUnbound(me, args);
      case RunFailedServiceCap => EndsInRound(me, args);
      case RunFailedConsecutiveFailureLimit => EndsInRound(me, args);
      case RunFailedSessionLocked => EndsLocked(me, args);
      case RunFailedInternal => EndsAtOnce(me, args, Io);
      case _ =>
    }
  }

  lemma RunTo(me: nat, args: Args, m: Moment) returns (t: Trace)
    requires Reaches(me, args, m)
    ensures IsRun(me, args, t) && Sized(t) && CtxAt(t, |t.inputs|) == m.sys.ctx
  {
    hide Plausible, Iterates;
    var u, clock, trees :| Leads(me, args, u, clock, trees, m);
    t := u;
  }

  lemma EndsPossible(me: nat, args: Args, end: RunState)
    requires CanEndIn(me, args, end) && end.IsTerminal()
    ensures EndPossible(args, end)
  {
    hide IsRun, Inv, Delivers, Reaches;
    var m :| Reaches(me, args, m) && m.sys.ctx.runState == end;
    var t := RunTo(me, args, m);
    UnreachableTerminals(me, args, t, |t.inputs|);
    if Judged(end) {
      var raw, d := JudgedOrigin(me, args, t, |t.inputs|);
    }
  }

  /**
   * The terminal states of runs, exactly, for every configuration whose parser rejects the empty document:
   * a plausible run ends there if and only if the state is neither the protocol nor the provider-access
   * failure and, where it carries a decision, some document delivers that decision.
   */
  lemma TerminalsExact(me: nat, args: Args, end: RunState)
    requires end.IsTerminal() && args.parse("") == None
    ensures CanEndIn(me, args, end) <==> EndPossible(args, end)
  {
    hide CanEndIn, EndPossible;
    if EndPossible(args, end) {
      PossibleEnds(me, args, end);
    }
    if CanEndIn(me, args, end) {
      EndsPossible(me, args, end);
    }
  }
}
