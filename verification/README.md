# Verification of the two-agent orchestrator

The orchestrator drives an executor and a reviewer, two provider CLI sessions in one git workspace,
through rounds of work and review. It never talks to them directly: it writes a request file, starts a
child process, probes the workspace once a second, and reads a YAML verdict back. This project models
that program as one state machine driven by an adversarial environment, and proves what its runs can
and cannot do.

- **State.** `Phases.Ctx` holds the fields of the runtime context; `State.Attempt` the record of one
  dispatched child; `Phases.World` what a run shares with others: the two transport files and the lock
  table. Time is integer nanoseconds. SHA-256 is an injective digest. Turning text into a typed verdict
  is an unknown partial function; the semantic rules on the typed verdict, NaN scores included, are
  modelled in full.
- **Environment.** Every iteration of the run loop gets an `Input`: the world as others left it, the
  result of each external call (including its failure), and for a monitor phase a finite sequence of
  `Probe`s. A monitor call whose probes run out stays in its state, so runs cover every interleaving at
  the granularity of single probes. Nothing restricts inputs except what a theorem states.
- **Machine.** `Phases` defines each phase, `Step` and `Next` as functions. `Orchestration.Orchestrator`
  is the same machine as an object that updates its fields, with the monitor loop and the run loop as
  loops; every method is proved equal to its function, and `Run` is proved to go through a run in the
  sense of `Runs`, so the theorems on runs are theorems about that loop.
- **Theorems.** `Invariants` and `Moves` give the inductive invariant and the transition relation;
  `Outcomes` and `Ends` say exactly where each iteration leads and when, why and how a run ends;
  `HangSafety`, `Grace`, `Response`, `Classes` and `MonitorSafety` treat the monitor over every probe
  sequence, and `MonitorRuns` carries the results to monitor phases spread over many iterations of a
  run; `Runs`, `Budget`, `Templates`, `Inbox`, `Cleanup`, `Terminals`, `Opacity` and `ExecutorOpacity`
  treat whole runs; `LockSafety` treats any number of orchestrators on one lock table. `Codex` and
  `ProcessTree` verify the two search algorithms, session discovery and the look for live descendants.

Where the code and its documentation disagree, the model follows the code:

- The cleanup prompt (src/workflow.rs:866) says a cleanup retry need not change the outbox time, and the
  repository's README (README.md:240) that after cleanup the stored verdict proceeds to the gate. The
  collection phase (src/orchestrator/phases.rs:890) counts an unchanged time as a failure.
  `Cleanup.CleanupOutcomeExact` states the exact condition, `Cleanup.CleanWorkspaceIsNotEnough` gives, for
  every configuration, a whole run that a clean workspace does not save, and
  `Cleanup.UntouchedOutboxExhaustsBudget` says how every such run ends.
- The comment on the process-tree search (src/signals.rs:91) speaks of four levels; children of
  processes at depth four are still examined, so the reach is five links.
- The comment on the work-signal ceiling (src/orchestrator/monitor.rs:324) speaks of 30 minutes; the
  constant is 2400 seconds.

The monitor can wait for ever on a quiet live child whose log was never seen and whose reports, if any,
were gone before they grew 60 s old: `Response.IdleWatch` gives such a wait of any length, and
`Response.ResponseExact` states when the monitor answers, in both directions.

## Model

| member | source | states |
|---|---|---|
| `YamlCheck.VerdictExact` | src/yaml_check.rs:134-228 | for every decision and policy: a text is a verdict iff it parses to a document with a finite score in [0, 10], a rationale that is not blank, an explicit Notion answer where required, and what its decision needs: for accept a score of at least 8, the contract satisfied, no hard blocker and a positive Notion answer where required; for revise some feedback; for the others their own reason |
| `YamlCheck.AcceptVerdictExact` | src/yaml_check.rs:145-181 | an accept document passes validation and the Notion rule iff its score is finite and in [8, 10], the rationale is not blank, the contract is satisfied, there is no hard blocker, and under the required policy the Notion requirements are satisfied; NaN and infinities never pass |
| `YamlCheck.NonAcceptVerdictCarriesReason` | src/yaml_check.rs:182-225 | every other document that passes carries the non-empty feedback or the non-blank reason its decision needs |
| `Probing.OnlyServiceCapSurvives` | src/orchestrator/monitor.rs:744-805 | the only provider error that reaches the classifier is a service cap, and exactly when the texts match one, or nothing matches and the Claude log shows one |
| `Probing.ClassOfPreempted` | src/fsm.rs:21-60 | which probes are decided before any contract is looked at: a cancel, or else a service cap |
| `Probing.ClassOfLive` | src/fsm.rs:60-118 | the class of a probe of a running child, exactly: hang, finalizing, running or waiting, in terms of window, log, silence, age, fresh report and signals; only a hang is final |
| `Probing.ClassOfExited` | src/fsm.rs:60-93 | the class of a probe of an exited child, exactly: success iff there is a report, protocol failure iff a reviewer left none and may not be waited for, silent failure iff an executor did; what a non-empty document says never matters |
| `Probing.ClassFacts` | src/fsm.rs:21-118 | which classes imply that the child has exited, that it runs, and that soft success is allowed; transport and access failures are never produced |
| `HangSafety.SignalIsChange` | src/orchestrator/monitor.rs:304-330 | a work signal is a change against the previous probe, or at the first probe the dispatch, of status, HEAD, report size or time, or log time, or a live descendant of a child still running |
| `HangSafety.LogSeenExact` | src/orchestrator/monitor.rs:408-419 | the log counts as seen iff some earlier probe of this attempt saw it |
| `HangSafety.LastSignalExact` | src/orchestrator/monitor.rs:544-548 | the silence the classifier measures at a probe is that since the last earlier probe with a signal, or since dispatch: the probe's own signal does not count |
| `HangSafety.HangExact` | src/fsm.rs:91-98 | over every probe history: a probe is a confirmed hang iff nothing of higher priority applies, the log is stale, and the child was silent for 420 s or the attempt is 2400 s old |
| `HangSafety.HangKillSafety` | src/state.rs:431-438 | a hang is confirmed only without an open window, on a log that was seen and is stale, at least 420 s after dispatch, and within 2400 s only after 420 s without any signal |
| `Grace.AtMostOneWindow` | src/orchestrator/monitor.rs:963-992 | over every probe sequence at most one window is open, and none for a reviewer or once the report is there |
| `Grace.WindowsWhileOutboxEmpty` | src/orchestrator/monitor.rs:963-992 | while the report is empty the windows depend only on the first probe with a commit and the first with a dirty tree since dispatch or since the last probe with a report: at most two deadlines, never extended whatever HEAD and status do later |
| `Grace.WindowOrigin` | src/orchestrator/monitor.rs:928-961 | every open deadline was set by a probe exactly 180 s before it that saw a dirty tree or a commit, with no report since |
| `Grace.SoftSuccessJustified` | src/orchestrator/monitor.rs:843-897 | soft success only for an exited executor with an empty report and the workflow's artifact, at least 180 s after a probe that saw a dirty tree or a commit |
| `Classes.ExitedExact` | src/fsm.rs:60-89 | the class of every probe of an exited child over its history: report, passed window with artifact, open window or fresh log, and otherwise the failure of its role |
| `Classes.ExitedIff` | src/orchestrator/monitor.rs:278-285 | a child counts as exited iff some probe found it dead or an earlier one stopped it |
| `Classes.RunningExact` | src/fsm.rs:75-118 | the class of every probe of a running child that does not hang: window, report written since dispatch, work signal, and what is left |
| `Classes.KillExact` | src/orchestrator/monitor.rs:674-695 | a probe stops a finalizing child iff nothing of higher priority applies and its report, written since dispatch, is at least 60 s old |
| `Response.BoundedResponse` | src/fsm.rs:75-98 | in quiet, the first probe 420 s after quiet set in and 2400 s after dispatch ends the attempt, if the child exited or its log was ever seen |
| `Response.FreshReportIsCollected` | src/orchestrator/monitor.rs:674-703 | a live child with a report written since dispatch is stopped at one due probe and collected at the next |
| `Response.NeverSeenLogWaitsForever` | src/orchestrator/monitor.rs:449-454 | without a log ever seen, a live child that let no report since dispatch grow 60 s old is monitored as long as that lasts |
| `Response.IdleWatch` | src/orchestrator/monitor.rs:449-454 | such waits exist for every setting, from every dispatched attempt and of every length: quiet from the first probe, due from the 2401st, never answered |
| `Response.ResponseExact` | src/orchestrator/monitor.rs:595-709 | for a live untroubled child in quiet: the monitor has answered by a due probe iff the log was ever seen or an earlier probe saw a report, written since dispatch, at least 60 s old, whatever became of that report later |
| `Response.FinalizingKill` | src/orchestrator/monitor.rs:674-703 | a finalizing child is stopped only 60 s after a non-empty report written since dispatch, and if that report is untouched the next probe is success unless cancelled or capped |
| `MonitorSafety.RunIsWatched` | src/orchestrator/monitor.rs:240-709 | the probe-level theorems apply to monitor calls: while a call loops, its attempt is the one produced by the probes, and none of them was final |
| `MonitorSafety.MonitorAnswers` | src/orchestrator/monitor.rs:240-709 | bounded response of a whole monitor call |
| `MonitorSafety.ForceStopExact` | src/orchestrator/monitor.rs:998-1021 | a living child is force-stopped by a probe iff the run is cancelled, a hang is confirmed, or its finalization window has run out |
| `MonitorSafety.MonitorKillSafety` | src/orchestrator/monitor.rs:620-703 | if a monitor call that started at dispatch has not stopped the child after n probes and has after one more, the child was alive, and the operator cancelled, or the hang rule holds over the whole history, or the child sat 60 s on a report |
| `MonitorRuns.PhaseIsCall` | src/orchestrator/mod.rs:304-321 | a monitor phase of a run, over however many iterations it is spread, is one monitor call on the concatenation of their probes |
| `MonitorRuns.RunAnswers` | src/orchestrator/monitor.rs:240-709 | bounded response over runs, on a forward clock: in every state of a run that still monitors, no probe since the dispatch was one at which the answer was due |
| `MonitorRuns.RunKillSafety` | src/orchestrator/monitor.rs:620-703 | kill safety over runs, on a forward clock: an iteration that leaves the child force-stopped did so at one of its own probes, justified by the history since dispatch |
| `MonitorSafety.CollectedFlag` | src/orchestrator/monitor.rs:595-628 | an attempt is handed on with the report flag set iff its report is non-empty, which is iff it was a full success and not a soft one |
| `Outcomes.ProbeOutcome` | src/orchestrator/monitor.rs:595-709 | where each class leads: next state, failures counted, lock and attempt state, for every class |
| `Outcomes.CallOutcome` | src/orchestrator/monitor.rs:240-709 | a monitor call that stopped was stopped by one probe that led where its class says; one that has not is where it was |
| `Outcomes.CallEnds` | src/orchestrator/monitor.rs:240-709 | a monitor call ends the run iff it reaches a probe that is cancelled, faulty or capped, and in the state of that probe |
| `Outcomes.DispatchOutcome` | src/orchestrator/phases.rs:536-670 | a dispatch starts a child iff the session is bound, its lock is free, the request is intact and no call on its way fails |
| `Outcomes.RefusalOutcome` | src/orchestrator/phases.rs:554-563 | a dispatch is refused for its lock iff the lock could be tried and is held, and for its request iff the lock was taken and the inbox could be read and differs |
| `Outcomes.CollectOutcome` | src/orchestrator/phases.rs:874-967 | an untroubled collection never ends the run: it goes to the gate iff the outbox moved, a verdict is stored or a valid one can be read, and the workspace is clean; otherwise, a rejected report included, it counts one failure and goes to the retry decision |
| `Outcomes.CancelOutcome` | src/orchestrator/mod.rs:264-273 | a cancel seen between iterations aborts a live run at once in every state and changes nothing else |
| `Outcomes.PathOutcome` | src/orchestrator/phases.rs:1043-1052 | the path of a status line is what follows its first three characters, without white space around it |
| `Outcomes.ShortPathOutcome` | src/orchestrator/phases.rs:1043-1052 | a line of at most three characters is taken as a whole |
| `Transport.ResetExact` | src/transport.rs:10-39 | a reset succeeds iff no truncation fails; it empties the inbox, empties the executor's outbox and keeps the reviewer's; a failing one leaves exactly what was truncated before it |
| `Transport.FingerprintRoundTrip` | src/transport.rs:42-91 | verification passes right after a request is written, and later iff the inbox still holds exactly that text |
| `Transport.TransportDir.Reset` | src/transport.rs:10-39 | the truncation loop leaves exactly the files and the error of the reset function, also when it stops half-way |
| `Transport.TransportDir.Write` | src/transport.rs:42-50 | writes the inbox only, and returns a fingerprint that verifies |
| `Transport.TransportDir.Verify` | src/transport.rs:77-91 | reads only, and reports a missing or changed request |
| `Locks.LockTable.TryAcquire` | src/locks.rs:15-45 | succeeds iff there is no fault and nobody, not even the caller, holds the lock; success adds exactly this lock for the caller, refusal changes nothing |
| `Locks.LockTable.Drop` | src/orchestrator/monitor.rs:1023-1028 | afterwards the lock is free and every other holder is as before |
| `Invariants.DispatchExact` | src/orchestrator/phases.rs:536-670 | a dispatch either fails, with at most the lock taken and this dispatch's baseline captured and with the transport files untouched, reset as far as the reset got, or past the request only if spawning failed; or it starts a child with a fresh attempt whose fingerprint, outbox time, baseline and template are those of this dispatch |
| `Invariants.MonitorRunKeeps` | src/orchestrator/monitor.rs:595-709 | however a monitor call ends, no lock and no live child outlive it except in a terminal state, at most one failure is counted, and nothing of the review changes |
| `Invariants.InitialInv` | src/orchestrator/mod.rs:137-176 | the invariant holds at the start |
| `Invariants.NextKeeps` | src/orchestrator/mod.rs:264-287 | every iteration keeps the invariant: bound sessions, locks by state, the child, the failure counter, and the pairing of verdict, raw text, rejections and baseline |
| `Moves.NextMoves` | src/orchestrator/mod.rs:304-321 | which states an iteration can lead to, and for each move what becomes of counter, sessions, role, verdict, rejections, baseline, locks and the attempt's dispatch facts; a decision of the reviewer ends a run only from the gate and as that decision says; what it leaves open is listed below |
| `Moves.DispatchSettles` | src/orchestrator/mod.rs:279-286 | a dispatch error always ends the run and a started child never does |
| `Runs.RunExists` | src/orchestrator/mod.rs:264-287 | every input sequence drives a run |
| `Runs.RunInv` | src/orchestrator/mod.rs:264-287 | the invariant holds in every state of every run |
| `Runs.UnreachableTerminals` | src/orchestrator/mod.rs:290-301 | no run reaches the protocol or the provider-access failure |
| `Ends.ErrorOutcome` | src/orchestrator/mod.rs:290-301 | the terminal state of every error, as a table |
| `Ends.EndOutcome` | src/orchestrator/mod.rs:264-287 | a live, uncancelled iteration ends the run iff the reason listed for its phase is there, and aborts it iff its monitor reaches a cancelled probe |
| `Ends.EndStateOutcome` | src/orchestrator/mod.rs:279-301 | and it ends it in the state of that reason |
| `Ends.RetryEnd` | src/orchestrator/phases.rs:751-779 | the retry decision, uncancelled: next state, marked attempt, and nothing else changed |
| `Ends.GateEnd` | src/orchestrator/phases.rs:1069-1114 | the gate, uncancelled, clears the counter, goes where the decision says and changes nothing else |
| `Ends.AbortOutcome` | src/orchestrator/mod.rs:264-273 | over runs: a live run is aborted iff the operator cancelled that iteration or a probe its monitor reached |
| `Runs.DispatchAlone` | src/orchestrator/phases.rs:554-558 | at every dispatch the run holds neither lock and no earlier child is alive; in a monitor state it holds exactly the active role's lock |
| `Runs.AttemptOrigin` | src/orchestrator/phases.rs:574-591 | every monitored or collected reviewer attempt goes back to one dispatch, whose outbox time and baseline it carries |
| `Runs.VerdictOrigin` | src/orchestrator/phases.rs:898-963 | every stored verdict awaiting cleanup or the gate was read from an outbox rewritten since one dispatch of the current executor round; verdict, text and that dispatch's baseline are frozen since |
| `Runs.AcceptSoundness` | src/orchestrator/phases.rs:1069-1094 | a successful run holds an acceptable verdict of the last executor round, written after its reviewer was dispatched |
| `Runs.GateWorkspaceClean` | src/orchestrator/phases.rs:955-963 | the gate is entered only from a collection that saw no status line beyond the baseline of the dispatch that produced the stored verdict, except the outbox |
| `Runs.VerdictIffCleanupPending` | src/orchestrator/phases.rs:925-963 | in the reviewer's half of a round a verdict is stored iff a cleanup is pending, and both rejections are never pending together |
| `Budget.FailureBudget` | src/orchestrator/phases.rs:973-979 | the counter is the number of failed attempts since the last gate, at most 4 outside the retry decision and 5 in it; at most 6 dispatches lie between two gates |
| `Budget.RetriesSameRole` | src/orchestrator/phases.rs:767-772 | a failing role is retried as itself |
| `Budget.LimitExact` | src/orchestrator/phases.rs:751-763 | an uncancelled retry decision ends the run iff five attempts failed since the last gate |
| `Budget.MeasureBoundsRun` | src/orchestrator/mod.rs:264-287 | while a run is live, its iterations that do more than probe plus a measure of revises left, failures left and phase stay below a bound linear in the number of revises, however monitor phases are spread: no other step stutters |
| `Budget.RunEnds` | src/orchestrator/mod.rs:264-287 | with at most R revises, a run has ended once 128 R + 95 of its iterations did more than probe |
| `Budget.RunTerminates` | src/orchestrator/mod.rs:264-287 | in particular, if every monitor call returns in its own iteration, a run of 128 R + 95 iterations has ended |
| `Templates.FeedbackOrigin` | src/orchestrator/phases.rs:596-601 | in the executor's half the stored verdict is that of the last gate visit, and there is one iff a gate was visited |
| `Templates.ExecutorTemplateExact` | src/orchestrator/phases.rs:596-602 | retries included: the initial template iff no gate was visited, the feedback template iff the last gate's verdict was revise with non-empty feedback |
| `Templates.RejectionExact` | src/orchestrator/phases.rs:925-953 | a YAML rejection is pending iff this round's latest parsed report was rejected |
| `Templates.ReviewerTemplateExact` | src/orchestrator/phases.rs:602-609 | workspace repair iff a verdict is stored, YAML repair iff this round's latest parsed report was rejected, a plain review otherwise |
| `Inbox.InboxMatches` | src/orchestrator/phases.rs:612 | while only the orchestrator writes the inbox, it holds the request of the current attempt in every live state |
| `Inbox.NoSpuriousAbort` | src/orchestrator/phases.rs:560-563 | so no dispatch of such a run is aborted because the request changed |
| `Inbox.TamperingStopsDispatch` | src/orchestrator/phases.rs:560-572 | a missing inbox or any other content at the next dispatch ends it before transport is reset or a child is started, with the request-changed error, or an I/O error for a missing file, if nothing else is wrong |
| `Inbox.TamperingEndsRun` | src/orchestrator/phases.rs:560-563 | over whole runs: such a dispatch, a deleted inbox included, ends the run, as an internal failure if nothing else is wrong, with files and attempt as they were |
| `Cleanup.CleanupOutcomeExact` | src/orchestrator/phases.rs:882-967 | a cleanup retry carries the stored verdict unparsed to the gate iff the workspace is clean and the outbox is not at the time it had at dispatch; an outbox that was absent at dispatch passes |
| `Cleanup.CleanWorkspaceIsNotEnough` | src/orchestrator/phases.rs:888-896 | in every configuration that can read some verdict: a complete plausible run whose cleanup leaves the workspace clean, with the verdict stored, and is still counted as a failure |
| `Cleanup.UntouchedOutboxNeverReachesGate` | src/orchestrator/phases.rs:888-896 | a cleaner that never touches the outbox never gets its verdict to the gate |
| `Cleanup.UntouchedOutboxExhaustsBudget` | src/orchestrator/phases.rs:751-763 | once 89 iterations of such a run did more than probe it is over without a decision, and unless a fault, cap or cancellation ends it first, it ends at the failure limit |
| `Cleanup.UntouchedOutboxEndsSoon` | src/orchestrator/phases.rs:751-763 | in particular within 89 iterations if its monitor calls return |
| `LockSafety.SessionsOrigin` | src/orchestrator/phases.rs:200-243 | in every state of a run the executor's and the reviewer's session are, each for its role, those that one session binding found, and each role's lock is that of its own provider and session |
| `LockSafety.NextLocks` | src/locks.rs:15-45 | an iteration takes only free keys that it then holds, gives back only keys it held, and leaves all others alone |
| `LockSafety.MachineKeeps` | src/locks.rs:15-45 | for any interleaving of iterations, starts and exits of any number of processes the table names exactly the holders |
| `LockSafety.MutualExclusion` | src/orchestrator/phases.rs:554-558 | no two processes, and no two roles, ever monitor the same session |
| `LockSafety.LockedOutByAnother` | src/locks.rs:31-40 | a dispatch refused for a held lock was refused because of another live process, never because of its own lock |
| `Opacity.ClassIsOpaque` | src/orchestrator/monitor.rs:811-841 | a probe of either role is classified the same for any outbox content of the same size and time, although the document check parses it |
| `Opacity.NextIsOpaque` | src/orchestrator/mod.rs:304-321 | one iteration keeps two contexts that differ only in report copies that way, for worlds that differ only in outbox bytes |
| `Opacity.ReportOpacity` | src/signals.rs:13-21 | noninterference of whole runs: inputs that differ only in the bytes of outbox bodies, outside the reviewer's own fresh reports, give the same states, counters, verdicts and attempts |
| `ExecutorOpacity.AttemptKeepsEqual` | src/orchestrator/phases.rs:888-908 | along a reviewer's attempt the outboxes of two such runs are equal or still of the time they had at its dispatch, which the collection's guard does not read |
| `ExecutorOpacity.ExecutorReportOpaque` | src/signals.rs:13-21 | noninterference of whole runs by author: where only monitored children write the outbox and every write moves its time, inputs that differ only in the bytes of files no reviewer wrote give the same states, counters, verdicts and attempts |
| `Terminals.TerminalsExact` | src/state.rs:151-170 | for every configuration whose parser rejects the empty document: some plausible run ends in a terminal state iff it is neither the protocol nor the provider-access failure and, where it carries a decision, some document delivers that decision; in a plausible run the clock runs forward, nobody else touches inbox or locks, and only the monitored child writes the outbox or the working tree |
| `Terminals.JudgedOrigin` | src/orchestrator/phases.rs:1088-1114 | every run that ends with a decision ends with the one that a document it read delivers |
| `Orchestration.Orchestrator.constructor` | src/orchestrator/mod.rs:137-176 | a new object is in the initial context |
| `Orchestration.Orchestrator.BindSessions` | src/orchestrator/phases.rs:200-243 | binds iff both discoveries found a session and not the same one of one provider; then each role has the session found for it and the two locks differ; an error changes nothing |
| `Orchestration.Orchestrator.Dispatch` | src/orchestrator/phases.rs:536-670 | the dispatch protocol in place: the object, the files and the lock table end as the dispatch function says, on every error path too |
| `Orchestration.Orchestrator.ClassifyProbe` | src/orchestrator/monitor.rs:301-549 | one probe in place: compare, record baselines, update windows, take the snapshot with the work-signal time from before, classify, then update it |
| `Orchestration.Orchestrator.Monitor` | src/orchestrator/monitor.rs:240-709 | the monitor loop ends with the context, error and lock table of the monitor function for any number of probes |
| `Orchestration.Orchestrator.DecideRetry` | src/orchestrator/phases.rs:751-779 | ends at the failure limit iff at least five failures are counted, and otherwise retries the current role |
| `Orchestration.Orchestrator.CollectReviewerOutput` | src/orchestrator/phases.rs:874-967 | reviewer collection in place, with its early returns |
| `Orchestration.Orchestrator.PassGate` | src/orchestrator/phases.rs:1069-1117 | succeeds iff the stored verdict is accept, goes on iff it is revise, and clears the failure counter whenever there is a verdict |
| `Orchestration.Orchestrator.Run` | src/orchestrator/mod.rs:264-287 | the run loop goes through a run in the sense of `Runs`, stops early only in a terminal state, ends in success only with an acceptable verdict, and never in the two unreachable failures |
| `Codex.LexTotal` | src/providers/codex.rs:155-156 | the order of freshness keys is total and antisymmetric |
| `Codex.LexExact` | src/providers/codex.rs:155-156 | the order is the lexicographic one: a is at most b iff a is a prefix of b or has the smaller character where they first differ |
| `Codex.ReadIndex` | src/providers/codex.rs:136-161 | the fold succeeds iff every non-blank line parses, and keeps for every session its freshest row, the first of those that tie |
| `Codex.Discover` | src/providers/codex.rs:111-192 | discovery returns a session iff it is the only one whose latest row has the name and whose directory is the workspace; every other case is a binding failure |
| `Codex.DiscoveryDetermined` | src/providers/codex.rs:163-191 | the answer does not depend on the order in which the map is iterated |
| `Codex.OlderRowIgnored` | src/providers/codex.rs:153-160 | a row strictly older than its session's latest, inserted anywhere, changes no answer |
| `Codex.LatestExists` | src/providers/codex.rs:153-160 | every listed session has a latest row |
| `Codex.DistinctNames` | src/providers/codex.rs:163-179 | over one index no session answers to two names |
| `Codex.DistinctNamesBind` | src/orchestrator/phases.rs:220-228 | so two Codex roles with distinct names, both found, always bind |
| `ProcessTree.HasLiveChildProcesses` | src/signals.rs:93-127 | on every process table the search ends; a yes has a live descendant within five links; on a forest it says yes iff there is one; it never misses a live child |
| `ProcessTree.LiveIs` | src/signals.rs:111-117 | live are the readable processes whose state letter is neither Z nor X |
| `ProcessTree.CapLosesNothing` | src/signals.rs:89-94 | where dead processes have no children a live descendant at any depth shows as a live child, so the cap changes no answer |

## Left out

- Prompt texts: rendering is an unknown function of the template; only the choice of template is modelled.
- Text matching: the pre-scan, YAML and JSON parsing and the regular-expression catalogs are unknown functions or inputs; the class order of the provider-error classifier is modelled.
- Git, the file system, the process table of the system, provider CLIs and their logs: their answers and failures are inputs.
- Context preparation and command-line validation: the checks either pass or give their terminal error; a run starts after validation.
- Error points inside a probe: a failing external call ends the run from the context before the probe's baselines, which no later step reads.
- Telemetry, logging, heartbeats, warnings and the fields of the final report beyond the two raw outbox copies.
- Sleeping and the exact spacing of probes: a probe carries its time, and theorems that need a monotone clock say so.
- Races inside a single probe or a single phase, and log times in the future, which have no age in the model as in the code.
- Force-stopping is one step: the signal, the grace wait and the final kill are not separated.
- File sizes and line lengths are counted in characters, and two files are the same size when their counts agree; only emptiness and equality matter.
- SHA-256 collisions: digests are injective.
- Session discovery for Claude and OpenCode: directory scans that give a session or an error.
- The child lists of a process's threads are one sequence; a thread list that cannot be read contributes nothing.
- Moves.NextMoves: leaves open which probe's artifact map a monitor call ends with; in a move that ends the run, the artifact map, the report copies, a verdict or rejection stored by a last collection, a baseline captured by a last reviewer dispatch, and the child after a last monitor call; and after a reviewer's collection the report copy.
- Terminals.TerminalsExact: assumes a parser that rejects the empty document, as the mandatory fields of the verdict make it do; in the exhibited runs nobody commits.
- Opacity.ReportOpacity: asks for equal bytes wherever a collection finds the outbox time moved since the reviewer's dispatch; ExecutorOpacity.ExecutorReportOpaque replaces that by the author of the file, where every write moves the time.
