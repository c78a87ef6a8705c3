# Verification of the pawc-kit workflow engine

This project models the core of pawc-kit in Dafny and proves properties of it. The core is a persistent state
machine: a workflow engine that drives a session through a graph of phases, asks executors and reviewers for results,
commits every result to a revisioned state store, and can be paused, cancelled, crashed and resumed between any two
writes. Around it the project models the filesystem stores, the event log, the OpenTelemetry span registry, confidence
routing and the structured-output retry loop.

`dafny verify dfyconfig.toml` checks everything.

## How the model is built

- **The machine** (`Machine.dfy`) is a small-step specification of one engine. A step runs from one commit boundary to
  the next: a *plan* says what the step decides, and performing it writes artifacts, saves one snapshot at most, and
  announces it. The outcome of a step is a trace of *effects* (state write, revision write, artifact write, pack write,
  role call, event). What the run controller, the clock and the roles answer is an arbitrary list of inputs, so every
  theorem holds for every behaviour of the outside world. A crash is a cut of the trace at any effect; a pause, a
  resume or a human decision put on a PENDING stub are further things that can happen in the *life* of a session.
- **The engines** (`SyncEngine.dfy`, `AsyncEngine.dfy`) are the two engine classes as loops over mutable
  objects: a runtime, a state store, an artifact store and, for the asynchronous one, a context pack writer. Their
  methods are those of the source. `Run` of each is proved to do exactly what a session of the machine does: same
  writes, same events, same final snapshot, same exception (`Refinement.dfy` holds the lemmas that connect the two).
- **The outcomes** (`Outcomes.dfy`, `Retries.dfy`) say a second time, without plans or any helper of the machine, what
  every step and every start of a run comes to: which snapshot is saved, with which fields of the role's answer, what is
  written and said around it, in which order, and which error is raised. The machine is proved to do exactly that.
- **The theorems** are about the machine, one file per subject, and so hold of both engines.

Automatic induction is switched off on every lemma it would apply to; no proof needs it.

| File | Subject |
|---|---|
| Wrappers, Graph, State, Events, Names, Disk | data, graph validation, artifact names, durable storage |
| Machine, Invariants, Sessions | the specification, what every step keeps, the life of a session |
| Outcomes, Retries | what each step comes to in the fields of its inputs, when an executor is asked again, what every move has behind it |
| Cycles, Termination, Traps, Bounds | when runs end, and how often roles are called |
| Ways, Walks | when the lives of sessions begun on a graph end |
| Crash, Lineage, Feedback, LoopBacks | artifacts survive crashes, feedback is delivered, loop-backs are capped |
| Replay, Durability, Tokens | what the event log tells, when, and what it adds up to |
| Verdicts, Discovery | terminal states, discovery |
| Reach, Pause, HumanGate, Arrivals | pauses, human gates |
| Writers, Solo, Rivals | several engines on one session, one of them alone, and what they can spoil |
| Spans, Tracing | the span registry, and the spans of an engine run |
| Routing, Structured | confidence routing, structured output with retries and backoff |
| Stores, Refinement, SyncEngine, AsyncEngine, Agreement | the stores and engines as objects |

## What the proofs found

Where a natural claim is false of the code, the code is kept and the exact condition is proved.

- **Runs need not end.** Graph validation accepts cycles of `on_complete`/`on_approve`. Runs from any snapshot end
  within a bound that depends only on the graph and the settings if and only if no forward cycle avoids the human
  phases (`RunsEndIffLoopFree`, `CycleNeedNotEnd`). For sessions begun on the graph, through any crashes, resumes and
  decisions, they do if and only if no way from the first phase, under the feedback caps, leads to such a cycle
  (`LivesEndExactlyWhen`).
- **Pauses are not always invisible.** "Picks up where it left off" (README.md:103-104 of the repository) holds of a
  pause at an executor loop top exactly when the run does not come back to a human phase whose decision it had already
  applied, because a new `run()` forgets which decisions were applied (`PauseIsTransparent`). It holds for every future
  of the run where no such phase can be reached from the current one, which can be checked at the pause
  (`PauseIsTransparentAhead`), and so at every loop top of a graph without human phases
  (`WithoutHumansPausesAreTransparent`). A pause right after a verdict asks the reviewer again
  (`PauseAfterVerdictReviewsAgain`).
- **Artifact names can collide.** Two phases share their files exactly when pathlib normalises their ids alike, as it
  does for `a` and `./a` (`NamesCollide`, `SlashedIdsCollide`); an absolute id leaves the run directory and its
  handoffs and decisions share their files (`AbsoluteIdsCollide`). Crash consistency is proved for all graphs without
  such ids.
- **A lone feedback target goes without feedback.** When a reviewer requests changes without naming the only target,
  the session loops back but the findings are not shown to that phase (`LoneTargetGetsNoFindings`).
- **A completed discovery can stay unlocked.** The pack is locked after the completed snapshot is saved; a run cut off
  between the two, before or after the revision file, leaves it unlocked for good, because a terminal session is
  returned untouched; no other cut does (`CutCompletionNeverLocks`).
- **An atomic save is not enough for two writers.** Competing engines keep the saved snapshots one linear history if the
  store loads, creates and saves each in one go (`AtomicStoreIsLinear`). Where only the save is atomic, a turn keeps
  the history linear exactly when it does not clobber the store: `load` reads the state file and then the revision
  file, and a save of another engine in between pairs the older state with the newer revision; `initialize` checks and
  then writes two files, over a session created or started meanwhile (`TurnKeepsLinearExactlyWhen`). A torn load makes
  a committed iteration disappear (`TornLoadLosesWork`).
- **A second writer can spoil artifacts.** Artifacts are written before the save is checked. A turn changes what a
  committed reference loads exactly when it is the artifact write of an engine that is behind the store, whose next
  number the store already has with another content (`SpoilsExactlyWhen`); a race from an empty disk gets there with
  every store operation atomic (`RaceSpoils`).
- **A decision on an older PENDING stub is ignored** (`OlderStubIsIgnored`).
- **RunFailed can be missing.** `_phase_role_id` catches KeyError, but `PhaseGraph.get` raises ConfigurationError; when
  the current phase is not in the graph the handler fails itself, no RunFailed is emitted, and a ConfigurationError
  leaves `run()` (`AbortSays`, `WorkflowEngine.Fail`).
- **A resumed run has no phase span** until its next phase starts, so the documented run/phase/iteration hierarchy
  (README.md:302 of the repository) does not hold for work before that (`RunIsTraced`).
- **A per-phase feedback cap of 0 means the engine default**, not "no rounds", although the documentation calls it an
  override (docs/workflow-config-reference.md:217); the model follows the code (`VerdictAbandonsExactlyWhen`).

## Model

| member | source | states |
|---|---|---|
| Graph.Validate | src/pawc_kit/workflow/graph.py:262-308 | the loops return no error if and only if the graph is valid: not empty, distinct ids, roles set, kinds known and used right, targets defined, rules within the transition targets |
| Graph.ValidateEach | src/pawc_kit/workflow/graph.py:276-306 | the errors of all phases, in declaration order |
| Graph.FindRepeats | src/pawc_kit/workflow/graph.py:266-274 | one error per id seen before, skipped when the ids are as many as their set |
| Graph.ValidatePhase | src/pawc_kit/workflow/graph.py:276-306 | role, kind, target and routing errors of one phase, in this order |
| Graph.FindUndefinedTargets | src/pawc_kit/workflow/graph.py:295-299 | one error per target that is no phase |
| Graph.FindMisroutedRules | src/pawc_kit/workflow/graph.py:301-306 | one error per rule outside the targets, unless the phase has none |
| Graph.GraphErrorsDecide | src/pawc_kit/workflow/graph.py:262-308 | the error list is empty exactly for valid graphs |
| Graph.ErrorsAreExact | src/pawc_kit/workflow/graph.py:262-308 | each error is reported if and only if the list of phases has the fault it names: no phases, a repeated id, or in a named phase a missing role, targets of another kind, an unknown kind, an undefined target or a rule outside its targets |
| Graph.GetFinds | src/pawc_kit/workflow/graph.py:107-111 | a lookup succeeds exactly for ids of the graph, and finds one of its phases |
| Graph.GetFindsThePhase | src/pawc_kit/workflow/graph.py:107-111 | on a valid graph a phase is found under its id |
| Graph.TargetsExist | src/pawc_kit/workflow/graph.py:295-299 | on a valid graph every target of a phase can be looked up |
| Names.NamesCollide | src/pawc_kit/adapters/fs/artifact_store.py:35-36 | two artifacts of one kind share a file exactly when their phases have the same normal path and equal numbers |
| Names.ArtifactNamesInjective | src/pawc_kit/adapters/fs/artifact_store.py:35-58 | phases with different normal paths never share a file, and handoffs and decisions never do |
| Names.SlashedIdsCollide | src/pawc_kit/adapters/fs/artifact_store.py:35-58 | the ids `./a` and `a` share all their artifact files |
| Names.AbsoluteIdsCollide | src/pawc_kit/adapters/fs/artifact_store.py:35-58 | the handoffs and decisions of an absolute id share their files |
| Names.DecimalInjective | src/pawc_kit/adapters/fs/artifact_store.py:35 | different numbers are written differently |
| Names.DecimalReadsBack | src/pawc_kit/adapters/fs/artifact_store.py:35 | a number is written in the digits that stand for it, without a leading zero |
| Names.PlainNames | src/pawc_kit/adapters/fs/artifact_store.py:35-58 | an id without slashes has its artifacts in `handoffs/{id}-{n}.json` and `decisions/{id}-{n}.json` |
| Machine.ResolveTarget | src/pawc_kit/workflow/engine.py:163-197 | fails exactly when there are targets and the choice is not among them, or none was made among several; else no target is found only where there is none, and the choice is the one found where there is one |
| Machine.HumanDecision | src/pawc_kit/workflow/engine.py:144-160 | a decision found on entry is real, of this phase, and in the stored reviews |
| Machine.ExecWritesItsTrace | src/pawc_kit/workflow/engine.py:691-692 | the disk after a run is what its effects wrote |
| Machine.ExecConcat | src/pawc_kit/workflow/engine.py:661-666 | running on some answers and then on more is running on all of them |
| Outcomes.ExecutorIsNotDone | src/pawc_kit/workflow/engine.py:698-790 | at a loop top CANCEL abandons the session and PAUSE does nothing at all; feedback that is missing or no decision raises before the role is asked; a role that raises fails the run |
| Outcomes.ExecutorIsRefused | src/pawc_kit/workflow/engine.py:501-523 | a result of another role, without an end that parses or that ends before it was asked for is refused before anything is written; a discovery without its handoff is abandoned after its files; a score outside 0..100 is refused with its artifacts written |
| Outcomes.ExecutorIterates | src/pawc_kit/workflow/engine.py:798-840 | any other result is committed as the next iteration of its phase with its own role, score, times and handoff, after its artifacts, and the event carries its usage and choice; a question then stops the run, or fails it where questions are disabled |
| Outcomes.ResultReachesThePack | src/pawc_kit/workflow/engine.py:1281-1304 | the pack gets the files of the result, the last of each name, and the handoff of a finalize step as discovery/handoff-context.json, and nothing else in it changes |
| Outcomes.QuestionReachesThePack | src/pawc_kit/workflow/engine.py:1332-1349 | the pending question of a committed result is added to the questions of the pack where there is one and questions are enabled, and otherwise none is |
| Outcomes.HumanDecides | src/pawc_kit/workflow/engine.py:869-922 | the decision that waits at a human phase leaves by on_approve or can_request_changes_from to the target it names, or completes, or raises, and is remembered |
| Outcomes.HumanIsAwaited | src/pawc_kit/workflow/engine.py:924-946 | without one a PENDING stub with the next number is saved and reported, and the run stops |
| Outcomes.ReviewerIsNotDone | src/pawc_kit/workflow/engine.py:948-949 | feedback that is missing or no decision raises before the reviewer is asked, a reviewer that raises fails the run |
| Outcomes.ReviewerIsRefused | src/pawc_kit/workflow/engine.py:950-963 | a verdict of another role, at a wrong time, with an invalid score, no decision or a finding without its required change, or that leads nowhere, is refused before anything is written |
| Outcomes.ReviewerJudges | src/pawc_kit/workflow/engine.py:957-993 | any other verdict is stored with every field and finding and committed as the next review of its phase, counted if it requests changes, and its way on is resolved |
| Outcomes.VerdictIsFollowed | src/pawc_kit/workflow/engine.py:994-1005 | after a verdict come CANCEL and PAUSE, then the feedback limit, then completion or the move resolved with the verdict |
| Outcomes.FirstRun | src/pawc_kit/workflow/graph.py:104-105 | a run that finds no session creates one at revision 0 in the first phase of the list, with nothing else changed, and starts it there, or fails with the session created |
| Outcomes.LaterRun | src/pawc_kit/workflow/engine.py:633-660 | a run that finds an invalid or a foreign snapshot raises, and one that finds a terminal session returns it, with nothing written; any other starts it from now or resumes it where it stands; in a phase the graph does not have it raises a ConfigurationError that nothing reports |
| Outcomes.StaleSaveIsRefused | src/pawc_kit/adapters/fs/state_store.py:38-54 | where the store has another revision, or no session, a step saves nothing, and raises the error that says which if it would have saved |
| Outcomes.CountsIterations | src/pawc_kit/workflow/engine.py:111-112 | the number of iterations of a phase is that of their places in the history |
| Outcomes.CountsReviews | src/pawc_kit/workflow/engine.py:115-116 | the number of reviews of a phase is that of their places in the history |
| Retries.ExecutorDecides | src/pawc_kit/workflow/engine.py:841-867 | after an iteration, in this order: no target completes, a score under the floor fails, a score at the threshold leaves, a phase at its cap fails or leaves by choice, and any other score goes back to the loop top with nothing written |
| Retries.RetriesExactlyWhen | src/pawc_kit/workflow/engine.py:841-859 | where there is a way on and the score is not under the floor, the role is asked again if and only if its last score is below the threshold and the phase has iterations left, and then nothing is written or said |
| Retries.MovesAreEarned | src/pawc_kit/workflow/engine.py:841-1005 | whenever a run, from any stored session, leaves a phase, the snapshot before has the reason: an iteration over the floor and at the threshold, or at the cap where the role had to choose; a verdict within the feedback limit, for the phase it names; or the newest human decision |
| Retries.UnsatisfiedIsAskedAgain | src/pawc_kit/workflow/engine.py:786-859 | while it has iterations left, an executor whose results stay below the threshold is called once in every turn, and each result is committed |
| Retries.UnsatisfiedFailsAtTheCap | src/pawc_kit/workflow/engine.py:849-859 | an executor with one way on whose results stay below the threshold is called exactly as often as it has iterations left, at least once, and then the session fails |
| State.FindDecided | src/pawc_kit/workflow/engine.py:144-160 | an entry of a phase with a given number and a real decision; none only if there is none |
| State.FindsTheFirst | src/pawc_kit/workflow/engine.py:144-160 | it is the first such entry |
| State.LatestFeedback | src/pawc_kit/workflow/engine.py:740-750 | the newest request for changes that names the phase and has stored findings; none only if there is none |
| Invariants.CommitKeepsWellFormed | src/pawc_kit/workflow/engine.py:237-451 | a legal commit keeps a snapshot loadable, its current phase known, its numbers 1..n per phase, and feedback_loops equal to the automated requests for changes |
| Invariants.PlanIsOk | src/pawc_kit/workflow/engine.py:781-1004 | whatever the world answers, a step plans a legal commit and continues where its local variables agree with the snapshot |
| Invariants.StepShape | src/pawc_kit/workflow/engine.py:781-1004 | a step writes exactly one snapshot if it commits and none otherwise; roles and artifacts come before it, events after it |
| Invariants.StepKeepsSound | src/pawc_kit/workflow/engine.py:781-1004 | a step keeps the engine holding what the disk holds, with well-formed snapshots and consistent local variables |
| Sessions.SessionKeepsSound | src/pawc_kit/workflow/engine.py:615-683 | every snapshot a run saves is well formed, and so is the disk it leaves |
| Sessions.TerminalIsFinal | src/pawc_kit/workflow/engine.py:640-641 | a later run on a terminal session writes nothing and returns it |
| Sessions.LifeKeepsWellFormed | src/pawc_kit/contracts/state.py:85-92 | over any runs, crashes at any write, resumes and human decisions, what is on disk loads: completed_at set exactly when terminal, numbers 1..n per phase, feedback_loops equal to the automated requests for changes |
| Sessions.DecisionKeepsWellFormed | src/pawc_kit/workflow/engine.py:144-160 | replacing a PENDING stub in place concerns a human phase and changes neither numbering nor the feedback count |
| Cycles.LoopFreeIffNoTrap | src/pawc_kit/workflow/graph.py:262-308 | the computed loop-freedom holds exactly when no non-empty set of ungated phases keeps every member a forward target inside it |
| Cycles.LoopFreeIffNoTrapIn | src/pawc_kit/workflow/graph.py:262-308 | the same among any set of phases a run can be in |
| Cycles.ForwardGoesDown | src/pawc_kit/workflow/graph.py:262-308 | on a loop-free graph every forward edge from an ungated phase lowers the rank |
| Termination.StepLowersMeasure | src/pawc_kit/workflow/engine.py:661-666 | among phases without an ungated forward cycle every step that goes on lowers the measure of decisions and feedback left, rank, and iterations left |
| Termination.LoopFreeRunsEnd | src/pawc_kit/workflow/engine.py:661-666 | on a loop-free graph every run ends within a bound of the graph and the settings |
| Traps.RunsEndIffLoopFree | src/pawc_kit/workflow/engine.py:786-859 | a uniform bound on runs from any well-formed snapshot exists if and only if the graph is loop-free (where the settings allow an executor to leave its phase) |
| Ways.LifeStaysOnAWay | src/pawc_kit/workflow/engine.py:994-1005 | in every life of a session begun on the graph, what is on disk stands at the end of a way that starts in the first phase of the list and goes back only below the feedback limits, at no more feedback than it has counted |
| Ways.LoopFreeLivesEnd | src/pawc_kit/workflow/engine.py:661-666 | where no phase on a way lies in an ungated forward cycle, every run of every such life ends within a bound of the graph and the settings |
| Walks.Walk | src/pawc_kit/workflow/engine.py:781-1005 | every way is taken by a life: runs of the engine and human decisions lead a new session to its end with exactly its feedback |
| Walks.LivesEndExactlyWhen | src/pawc_kit/workflow/engine.py:786-1005 | a uniform bound on the runs of all lives begun on the graph exists if and only if no way from the first phase, under the feedback caps, leads to a set of ungated phases that lead on inside it |
| Traps.CycleNeedNotEnd | src/pawc_kit/workflow/graph.py:262-308 | two executors completing into each other pass validation and have runs of every length |
| Termination.DecisionHasNewestNumber | src/pawc_kit/workflow/engine.py:909-922 | with contiguous numbers the search at the next number finds nothing; a waiting decision is of a human phase, has its newest number and was not applied in this run |
| Termination.TopCapIsLeast | src/pawc_kit/workflow/engine.py:996-998 | the C of the bounds is the least number at which the feedback rounds of every automated phase are used up: its own if they are set and not 0, those of the run otherwise |
| Bounds.FreshRunCalls | src/pawc_kit/workflow/engine.py:783-859 | a fresh run of a loop-free graph calls each executor at most max_iterations + C - 1 times, each at least 1, where at C no automated phase has feedback rounds left |
| Crash.CommittedArtifactsSurvive | src/pawc_kit/workflow/engine.py:798-830 | through any crashes, resumes and decisions every reference of the stored state loads a document of its own entry, what a committed reference loads never changes, and no entry is lost, moved or changed except a PENDING stub that is decided |
| Crash.CommittedContentIsTheRolesOwn | src/pawc_kit/workflow/engine.py:377-388 | right after its step, what a commit refers to is on disk with it: the handoff body the role returned, or a verdict with the phase it reviewed and the role, decision, score, end, findings and target the reviewer returned |
| Lineage.CommitLasts | src/pawc_kit/workflow/engine.py:798-832 | after a committing step, the rest of its run on any answers cut off after any effect from the state file on, and any later crashes, resumes and decisions, the entry is at its place in the stored history and its reference loads the body, or a payload with every field and finding, that the role of that step returned |
| Lineage.CommitSurvivesTheRun | src/pawc_kit/workflow/engine.py:966-981 | the same at every cut of the run that commits, also between its state file and its revision file |
| Crash.NextHandoffIsFresh | src/pawc_kit/workflow/engine.py:798-806 | the file the next handoff goes to is not referred to by the stored state |
| Crash.NextDecisionIsFresh | src/pawc_kit/workflow/engine.py:966-972 | the file the next decision goes to is not referred to by the stored state |
| Feedback.VerdictReachesTheNamedPhase | src/pawc_kit/workflow/engine.py:738-755 | after a verdict the history of the phase it names carries its payload, which has every field and finding the reviewer returned, and that of every other phase what it carried before |
| Feedback.FeedbackIsDelivered | src/pawc_kit/workflow/engine.py:738-767 | once a request for changes that names a phase is committed, in the rest of its run cut off anywhere and in every later run of any life, each call of that phase's role is shown a session that has the verdict at its place, and, unless a later entry names the phase too, a payload with every field and finding the reviewer returned |
| Feedback.LoopBackIsShown | src/pawc_kit/workflow/engine.py:957-1005 | below the feedback limit of the phase or else of the run, and without a signal, the same run goes straight back to the named phase, and its first act there is to call its role with every field and finding the reviewer returned |
| Feedback.RequestsAreBuilt | src/pawc_kit/workflow/engine.py:738-755 | building a request never fails on feedback the engine stored, and shows the payload of its entry |
| Feedback.LoopBackGoesToTheNamedPhase | src/pawc_kit/workflow/engine.py:391-417 | a loop-back goes to an allowed phase, and to the named one if one is named |
| LoopBacks.LoopBacksAreCapped | src/pawc_kit/workflow/engine.py:996-1005 | over the whole life of a session automated loop-backs number at most C - 1, where at C no automated phase has feedback rounds left in any run |
| LoopBacks.StepFits | src/pawc_kit/workflow/engine.py:996-1005 | a request for changes takes the room of the one loop-back it allows, and no other commit loops back |
| Replay.RunIsTold | src/pawc_kit/workflow/engine.py:246-374 | replaying the log of a run over the session it found gives the session it leaves, and the log follows the run grammar |
| Replay.CommitIsTold | src/pawc_kit/workflow/engine.py:246-475 | the events of a commit teach exactly that commit and fit the grammar |
| Replay.StepSays | src/pawc_kit/workflow/engine.py:694-736 | a step says the events of its commit, then at most a failure that ends the run |
| Replay.AbortSays | src/pawc_kit/workflow/engine.py:671-683 | an exception leaves the run as it is and is reported by one RunFailed if the current phase is known; otherwise a ConfigurationError leaves it and nothing is reported |
| Durability.RunIsTruthful | src/pawc_kit/workflow/engine.py:829-832 | every event is emitted when the store already holds what it reports, at the revision it carries |
| Tokens.CompletionReportsTheSum | src/pawc_kit/workflow/engine.py:90-95 | RunCompleted is the last event of its run, and its prompt, completion and total tokens are each the sum of that field over the iterations and reviews the run committed with usage |
| Verdicts.ClosedRunsAreJustified | src/pawc_kit/workflow/engine.py:843-867 | a run that closes a session does so for a reason the history shows: floor, or threshold and cap, for failed; cancel, cap or missing handoff for abandoned; nowhere to go on for completed |
| Verdicts.FailsExactlyWhen | src/pawc_kit/workflow/engine.py:843-859 | a step fails the session exactly when the last iteration is below the floor, or below the threshold at the cap of a single-target phase |
| Verdicts.VerdictAbandonsExactlyWhen | src/pawc_kit/workflow/engine.py:994-1000 | after a verdict the session is abandoned exactly on cancel, or without a signal when changes were requested and feedback_loops has reached max_feedback_rounds of the phase if that is set and not 0, and of the run otherwise |
| Pause.PauseIsTransparent | src/pawc_kit/workflow/engine.py:786-788 | pausing at an executor loop top and running again saves what the unpaused run saves if and only if that run does not return to a human phase whose decision it had applied |
| Pause.PauseResumes | src/pawc_kit/workflow/engine.py:645-668 | the pause writes nothing and the resumed run recomputes the same iteration count |
| Reach.ReachableIsClosed | src/pawc_kit/workflow/graph.py:295-299 | the computed set of reachable phases is the least set that contains the phase and is closed under all targets |
| Pause.PauseIsTransparentAhead | src/pawc_kit/workflow/engine.py:907-922 | where no phase with an applied decision can be reached from the current one, a loop-top pause is invisible whatever the roles answer afterwards: same saves, same disk, same end |
| Pause.RunAppliesNothing | src/pawc_kit/workflow/engine.py:624-624 | on a graph without human phases no run ever remembers a decision |
| Pause.WithoutHumansPausesAreTransparent | src/pawc_kit/workflow/engine.py:786-788 | on a graph without human phases every pause at a loop top of any run is invisible, for every input stream after it |
| Pause.PauseAfterVerdictReviewsAgain | src/pawc_kit/workflow/engine.py:994-1005 | a pause after a verdict resumes before the same phase, and the next verdict is numbered one higher |
| Writers.TurnKeepsLinearExactlyWhen | src/pawc_kit/adapters/fs/state_store.py:28-75 | one file access of one engine keeps the saves one chain of legal commits, the disk at the last of them and its revision their count, exactly when it is not a revision read after another engine's save, nor a new session's state or revision file over one that exists or has moved on |
| Writers.SchedulesAreLinear | src/pawc_kit/adapters/fs/state_store.py:38-54 | any interleaving of any number of engines at every file access, with none of those, yields one chain of legal commits, and every engine builds on the snapshot of its own revision |
| Solo.AtomicStoreIsLinear | src/pawc_kit/ports/state.py:52-57 | with load, initialize and save each atomic, every interleaving is linear without exception, also where engines race to start the session they have loaded or write artifacts between another's role call and save |
| Writers.CurrentWriterHoldsTheState | src/pawc_kit/workflow/engine.py:633-636 | an engine at the revision of the store holds the stored state, up to started_at before its first save |
| Writers.HistoryOnlyGrows | src/pawc_kit/adapters/fs/state_store.py:46-54 | along the chain no committed entry is lost or reordered |
| Writers.StaleWriterCommitsNothing | src/pawc_kit/adapters/fs/state_store.py:46-50 | a step that saves against another revision than that of the store saves nothing |
| Writers.StaleMoveSavesNothing | src/pawc_kit/adapters/fs/state_store.py:46-50 | at whatever access an engine whose revision is not that of the store stands, it saves nothing |
| Solo.AloneIsStep | src/pawc_kit/workflow/engine.py:781-1005 | an engine that nobody interrupts takes exactly the steps of the machine |
| Solo.AloneIsBoot | src/pawc_kit/workflow/engine.py:633-660 | and starts exactly as the machine does |
| Rivals.SpoilsExactlyWhen | src/pawc_kit/workflow/engine.py:798-830 | a turn changes what a committed reference loads if and only if it is the artifact write, handoff or decision, of an engine behind the store's revision, the store counts more entries of its phase, the entry with its next number has an artifact, and the stored document differs |
| Rivals.OwesAnArtifactExactlyWhen | src/pawc_kit/workflow/engine.py:788-806 | an engine comes to write an artifact exactly when its role is called and hands over a document, or rules with a valid verdict that resolves |
| Rivals.RaceSpoils | src/pawc_kit/workflow/engine.py:966-980 | a schedule from an empty disk, with every store operation atomic, after which a committed handoff loads another engine's text |
| Rivals.TornLoadLosesWork | src/pawc_kit/adapters/fs/state_store.py:28-36 | a schedule from an empty disk in which a load is torn by a save, and a committed iteration is gone from the stored session |
| HumanGate.DecisionDrivesOneTransition | src/pawc_kit/workflow/engine.py:907-922 | in one run a human phase is left at most once |
| HumanGate.ArrivalWritesOneStub | src/pawc_kit/workflow/engine.py:924-946 | an arrival without a decision writes exactly one PENDING stub numbered n + 1, reports it and stops in progress |
| Arrivals.NextArrivalStubsAndStops | src/pawc_kit/workflow/engine.py:907-946 | in the log of any run, after the first departure from a human phase the next arrival there is followed by nothing or by exactly the report of stub n + 1; the run adds no review to the phase, or that one and then it is paused in progress |
| HumanGate.DecisionOnlyMoves | src/pawc_kit/workflow/engine.py:869-904 | applying a decision adds no review, leaves feedback_loops alone, and moves along the edge it allows |
| HumanGate.OlderStubIsIgnored | src/pawc_kit/workflow/engine.py:915-922 | a decision on any but the newest stub of a phase changes nothing |
| Discovery.DiscoveryCompletes | src/pawc_kit/workflow/engine.py:1191-1203 | where finalize is the only last phase, a completing discovery run locks the pack exactly once, only after the completed snapshot is on disk, and leaves it locked, and the canonical handoff is that of the last committed iteration; any other run never locks it |
| Discovery.CompletesInFinalize | src/pawc_kit/workflow/engine.py:1327-1330 | such a session completes only in its finalize phase, after a committed iteration |
| Discovery.CutCompletionNeverLocks | src/pawc_kit/workflow/engine.py:1191-1203 | cut a completing step anywhere: a completed session with its pack not locked is left exactly by the cuts after the state file and before the lock, and then no life ever locks it |
| Spans.Observer.OnEvent | src/pawc_kit/adapters/otel.py:300-352 | the registry and the spans change as the event says |
| Spans.Observer.TraceRunStarted | src/pawc_kit/adapters/otel.py:149-163 | open spans of an earlier run of the session are ended first, then a run span is opened |
| Spans.Observer.TracePhaseStarted | src/pawc_kit/adapters/otel.py:165-188 | the open phase span is ended, and one opened under the run span |
| Spans.Observer.TraceWork | src/pawc_kit/adapters/otel.py:190-255 | an iteration or review span under the open phase span, ended at once |
| Spans.Observer.TraceRunEnded | src/pawc_kit/adapters/otel.py:260-298 | both open spans are ended and the session forgotten |
| Spans.Observer.EndPhaseSpan | src/pawc_kit/adapters/otel.py:142-147 | the open phase span is ended once and unregistered |
| Spans.SpansAreConserved | src/pawc_kit/adapters/otel.py:137-298 | for any events of any sessions every span is ended exactly once or is one of the two its session has registered |
| Spans.AtMostTwoOpen | src/pawc_kit/adapters/otel.py:41-44 | of three spans of a session at least one is ended |
| Spans.SessionsAreIndependent | src/pawc_kit/adapters/otel.py:137-140 | the spans of a session are those its own events give in isolation, however other events are mixed in |
| Tracing.RunIsTraced | src/pawc_kit/adapters/otel.py:190-298 | for every engine run, mixed with any other sessions: work after the first phase start is under the open span of its own phase, work before it has no parent, and nothing stays open after RunCompleted or RunFailed |
| Tracing.WorkIsUnderItsPhase | src/pawc_kit/adapters/otel.py:190-255 | each iteration or review in a log of the run grammar adds one span of its kind and phase, ended at once, under the open span of that phase, or under nothing before the first phase start |
| Tracing.WaitingStaysOpen | src/pawc_kit/adapters/otel.py:300-352 | a run that stops for a human, once a phase has started, leaves the spans of the run and of that human phase open |
| Tracing.SessionSpeaks | src/pawc_kit/contracts/events.py:11-150 | every event of a run carries the session of the run |
| Routing.ResolveChosenNext | src/pawc_kit/llm/roles.py:48-69 | the first matching rule wins; an error exactly when there are rules and none matches; none exactly when there are no rules |
| Routing.CoverageIsGapless | src/pawc_kit/llm/roles.py:48-69 | rules match every score 0..100 if and only if some gte rule is 0 or reached by some lt rule |
| Routing.RouteDecides | src/pawc_kit/workflow/engine.py:163-197 | on a validated phase a score is routed without an error exactly when a rule matches or there are no rules and at most one target; the result is a target, or none without targets |
| Routing.RoutingIsTotal | src/pawc_kit/llm/roles.py:48-69 | routing a validated phase never fails if and only if its rules are gapless, or it has none and at most one target |
| Routing.ChangesAreRouted | src/pawc_kit/llm/roles.py:265-288 | with the default filled in, a request for changes is accepted exactly when the phase may request changes and the named target, if any, is allowed; it loops back there, or to the last allowed phase |
| Routing.LoneTargetGetsNoFindings | src/pawc_kit/llm/roles.py:284-285 | a lone target left unnamed is looped back to without its findings |
| Structured.StructuredOutput.Call | src/pawc_kit/llm/structured.py:189-252 | the first parseable reply within 1 + max_retries calls, the prompts sent, the error otherwise; each kind of tokens in last_usage is the sum over all attempts, under the first model named |
| Structured.AsyncStructuredOutput.Call | src/pawc_kit/llm/structured.py:281-356 | as the synchronous form, with the waits between attempts |
| Structured.AsyncStructuredOutput.BackOff | src/pawc_kit/llm/structured.py:293-304 | one wait before each retry, none if the delay is not positive |
| Structured.UsageTotal.Accumulate | src/pawc_kit/llm/structured.py:170-178 | prompt, completion and total tokens each grow by their own, and the first reported model is kept |
| Structured.SucceedsExactlyWhen | src/pawc_kit/llm/structured.py:201-225 | a call succeeds exactly when an attempt parses before the backend raises, and returns the first such reply |
| Structured.FailsExactlyWhen | src/pawc_kit/llm/structured.py:201-252 | a call raises what the backend raises before a reply parses; otherwise it fails exactly when no allowed attempt parses, with the text of the last reply and its error |
| Structured.SumConcat | src/pawc_kit/llm/structured.py:170-178 | usage adds up over consecutive stretches of attempts, and the model is the first one reported |
| Structured.SumTotals | src/pawc_kit/llm/structured.py:170-178 | each kind of tokens in a sum of attempts is the sum of what each attempt reports of it, and the model is the first one named |
| Structured.SilentSum | src/pawc_kit/llm/structured.py:198-222 | attempts without usage add nothing, so reporting None loses nothing |
| Structured.BackoffIsBounded | src/pawc_kit/llm/structured.py:293-304 | n retries wait at most d(2^n - 1) and at most 30n seconds, and exactly the former below the cap |
| Structured.EachWait | src/pawc_kit/llm/structured.py:293-304 | the i-th of n waits is the smaller of d 2^i and 30 seconds, and there are n |
| Structured.MoreRetriesKeepSuccess | src/pawc_kit/llm/structured.py:201-223 | a larger retry budget changes neither the result nor the cost of a call that succeeded |
| Structured.RetriesForgetTheUser | src/pawc_kit/llm/structured.py:132-138 | the first attempt is sent the prompt of the caller, every later one a prompt of the previous reply and its error only |
| Stores.FsStateStore.Load | src/pawc_kit/adapters/fs/state_store.py:28-36 | succeeds exactly for a stored, valid snapshot of the session, at its revision; the error says which failed |
| Stores.FsStateStore.Save | src/pawc_kit/adapters/fs/state_store.py:38-54 | writes exactly at the expected revision, which grows by one; otherwise nothing changes |
| Stores.FsStateStore.Initialize | src/pawc_kit/adapters/fs/state_store.py:56-75 | a new session at revision 0, unless one exists |
| Stores.FsStateStore.Delete | src/pawc_kit/adapters/fs/state_store.py:104-114 | removes both files of the named session; nothing to delete is no error, a foreign or invalid snapshot stays |
| Stores.FsArtifactStore.SaveHandoff | src/pawc_kit/adapters/fs/artifact_store.py:26-47 | overwrites exactly the file named by phase and number |
| Stores.FsArtifactStore.SaveDecision | src/pawc_kit/adapters/fs/artifact_store.py:49-66 | overwrites exactly the file named by phase and number |
| Stores.FsArtifactStore.LoadArtifact | src/pawc_kit/adapters/fs/artifact_store.py:84-89 | loads what is stored, and fails exactly when nothing is |
| Stores.FsContextPackWriter.WriteDiscoveryFile | src/pawc_kit/adapters/fs/context.py:47-55 | one file of the pack replaced |
| Stores.FsContextPackWriter.AppendQuestion | src/pawc_kit/adapters/fs/context.py:78-84 | one question added at the end |
| Stores.FsContextPackWriter.Finalize | src/pawc_kit/adapters/fs/context.py:57-72 | locks on request and never unlocks |
| Refinement.Runtime.Accumulate | src/pawc_kit/workflow/engine.py:90-95 | prompt, completion and total tokens of the run each grow by those of a result with usage |
| Refinement.FindCommittedHumanReview | src/pawc_kit/workflow/engine.py:144-160 | the loop finds the first decided entry with that number |
| Refinement.PerformSave | src/pawc_kit/workflow/engine.py:691-736 | performing a save is saving, announcing, then entering the next phase or aborting |
| Refinement.SignalEnds | src/pawc_kit/workflow/engine.py:698-712 | closing the session where CANCEL is read ends the step the machine plans |
| Refinement.SessionIs | src/pawc_kit/workflow/engine.py:615-683 | a session is its start, then the machine run to where it stopped |
| SyncEngine.WorkflowEngine.Save | src/pawc_kit/workflow/engine.py:691-692 | the stored snapshot and revision are replaced, or the error of the store is raised and nothing changes |
| AsyncEngine.AsyncWorkflowEngine.Save | src/pawc_kit/workflow/engine.py:1149-1152 | the stored snapshot and revision are replaced, or the error of the store is raised and nothing changes |
| SyncEngine.WorkflowEngine.CheckSignal | src/pawc_kit/workflow/engine.py:698-712 | CANCEL closes the session and stops the run, PAUSE stops it, anything else changes nothing |
| AsyncEngine.AsyncWorkflowEngine.CheckSignal | src/pawc_kit/workflow/engine.py:1158-1171 | CANCEL and PAUSE are raised, and nothing changes |
| SyncEngine.WorkflowEngine.StartRun | src/pawc_kit/workflow/engine.py:714-720 | the session goes in progress and says so |
| AsyncEngine.AsyncWorkflowEngine.StartRun | src/pawc_kit/workflow/engine.py:1173-1179 | the session goes in progress and says so |
| SyncEngine.WorkflowEngine.TransitionTo | src/pawc_kit/workflow/engine.py:722-730 | the current phase is saved, then left and entered in the log |
| AsyncEngine.AsyncWorkflowEngine.TransitionTo | src/pawc_kit/workflow/engine.py:1181-1189 | the current phase is saved, then left and entered in the log |
| SyncEngine.WorkflowEngine.Finalize | src/pawc_kit/workflow/engine.py:732-736 | the terminal snapshot is saved, then reported |
| AsyncEngine.AsyncWorkflowEngine.Finalize | src/pawc_kit/workflow/engine.py:1191-1203 | the terminal snapshot is saved, then a completed discovery locks its pack, then the completion is reported |
| SyncEngine.WorkflowEngine.HistoryForPhase | src/pawc_kit/workflow/engine.py:738-755 | the loop over the reviews, newest first, yields the decision shown to the phase |
| AsyncEngine.AsyncWorkflowEngine.HistoryForPhase | src/pawc_kit/workflow/engine.py:1205-1224 | the loop over the reviews, newest first, yields the decision shown to the phase |
| SyncEngine.WorkflowEngine.CommitIteration | src/pawc_kit/workflow/engine.py:829-832 | entry saved, usage added, event emitted |
| AsyncEngine.AsyncWorkflowEngine.CommitIteration | src/pawc_kit/workflow/engine.py:1327-1330 | entry saved, usage added, event emitted |
| SyncEngine.WorkflowEngine.CommitReview | src/pawc_kit/workflow/engine.py:980-993 | entry and feedback count saved, usage added, event emitted |
| AsyncEngine.AsyncWorkflowEngine.CommitReview | src/pawc_kit/workflow/engine.py:1459-1472 | entry and feedback count saved, usage added, event emitted |
| SyncEngine.WorkflowEngine.CommitStub | src/pawc_kit/workflow/engine.py:924-946 | stub saved and reported |
| AsyncEngine.AsyncWorkflowEngine.CommitStub | src/pawc_kit/workflow/engine.py:1400-1422 | stub saved and reported |
| SyncEngine.WorkflowEngine.IterateOnce | src/pawc_kit/workflow/engine.py:786-840 | one turn of the executor loop is one step of the machine |
| AsyncEngine.AsyncWorkflowEngine.IterateOnce | src/pawc_kit/workflow/engine.py:1257-1349 | one turn of the executor loop is one step of the machine |
| SyncEngine.WorkflowEngine.RunExecutor | src/pawc_kit/workflow/engine.py:781-867 | the executor loop follows the machine, step by step, to where it ends |
| AsyncEngine.AsyncWorkflowEngine.RunExecutor | src/pawc_kit/workflow/engine.py:1252-1374 | the executor loop follows the machine, step by step, to where it ends |
| SyncEngine.WorkflowEngine.ApplyCommittedReview | src/pawc_kit/workflow/engine.py:869-904 | a human decision is applied as planned |
| AsyncEngine.AsyncWorkflowEngine.ApplyCommittedReview | src/pawc_kit/workflow/engine.py:1486-1521 | a human decision is applied as planned |
| SyncEngine.WorkflowEngine.EnterReview | src/pawc_kit/workflow/engine.py:906-993 | from entry to committed verdict is one step of the machine |
| AsyncEngine.AsyncWorkflowEngine.EnterReview | src/pawc_kit/workflow/engine.py:1376-1472 | from entry to committed verdict is one step of the machine |
| SyncEngine.WorkflowEngine.AfterVerdict | src/pawc_kit/workflow/engine.py:994-1005 | signal, cap and transition are one step of the machine |
| AsyncEngine.AsyncWorkflowEngine.AfterVerdict | src/pawc_kit/workflow/engine.py:1473-1484 | signal, cap and transition are one step of the machine |
| SyncEngine.WorkflowEngine.RunReview | src/pawc_kit/workflow/engine.py:906-1005 | a review phase follows the machine to where it ends |
| AsyncEngine.AsyncWorkflowEngine.RunReview | src/pawc_kit/workflow/engine.py:1376-1484 | a review phase follows the machine to where it ends |
| SyncEngine.WorkflowEngine.LoadOrInitialize | src/pawc_kit/workflow/engine.py:685-689 | the session is loaded, initialized, or rejected with the error of the store |
| AsyncEngine.AsyncWorkflowEngine.LoadOrInitialize | src/pawc_kit/workflow/engine.py:1143-1147 | the session is loaded, initialized, or rejected with the error of the store |
| SyncEngine.WorkflowEngine.Drive | src/pawc_kit/workflow/engine.py:660-668 | the loop over the phases follows the machine to where it stops |
| AsyncEngine.AsyncWorkflowEngine.Drive | src/pawc_kit/workflow/engine.py:1116-1126 | the loop over the phases follows the machine to where it stops |
| SyncEngine.WorkflowEngine.Fail | src/pawc_kit/workflow/engine.py:671-683 | one RunFailed, unless the current phase is unknown, which is a ConfigurationError instead |
| AsyncEngine.AsyncWorkflowEngine.Fail | src/pawc_kit/workflow/engine.py:1129-1141 | one RunFailed, unless the current phase is unknown, which is a ConfigurationError instead |
| SyncEngine.WorkflowEngine.Run | src/pawc_kit/workflow/engine.py:615-683 | the whole call does exactly what a session of the machine does: disk, trace, result and exception |
| AsyncEngine.AsyncWorkflowEngine.Run | src/pawc_kit/workflow/engine.py:1071-1141 | the whole call does exactly what a session of the machine does: disk, trace, result and exception |
| SyncEngine.WorkflowEngine.Execute | src/pawc_kit/workflow/engine.py:788-828 | the role is asked, its answer checked, its handoff stored and the entry built as planned |
| AsyncEngine.AsyncWorkflowEngine.Execute | src/pawc_kit/workflow/engine.py:1259-1326 | the same with the pack files, and without a handoff where a finalize step needs one |
| AsyncEngine.AsyncWorkflowEngine.WritePack | src/pawc_kit/workflow/engine.py:1281-1304 | the files of the result, then the canonical handoff of a finalize step |
| AsyncEngine.AsyncWorkflowEngine.Ask | src/pawc_kit/workflow/engine.py:1338-1349 | a pending question goes to the pack |
| AsyncEngine.AsyncWorkflowEngine.Cancel | src/pawc_kit/workflow/engine.py:1123-1124 | the handler of a cancellation completes the step the machine was in |
| Agreement.RunBoth | src/pawc_kit/workflow/engine.py:1071-1141 | on equal worlds and the same answers both engines leave the same snapshots, artifacts, events and outcome, although they close a cancelled session in different places |

## Left out

What the model does not contain:

- Summaries, artifact lists, skill names and versions, agent and model fields, run metadata and command audits: carried along by the engine without being looked at.
- Context packs as input: scoping by `context_sources`, the payload given to roles, and `validate_against_pack`, which is one failing or passing pre-flight check together with the validation of the invoker.
- Timestamps are ordered integers; an RFC 3339 string that does not parse is a missing one.
- The clock is read once for each step, so readings of one step are equal.
- Exceptions of observers, clocks and stores, other than a revision mismatch, a missing state file and a modelled crash.
- The phantom-artifact warning and all logging.
- Metrics, exporters, span attributes and span times; the two fields a session has in the span registry are a value in its map, not an object of their own.
- Parsing of replies: a partial function from text; JSON extraction and schema rendering are not modelled.
- Floating point in the backoff is exact arithmetic.
- Backfill calls of the roles, prompt assembly, quality gates and context compression.
- `from_config`, `from_discovery_config` and serialization: their result is a list of phases, and every theorem quantifies over all of them.
- `update_question`, `initialize` and `update_metadata` of the context pack, which the engine does not call; its metadata file is taken to exist.
- `save_file`, `list` and `list_sessions` of the stores, which the engine does not call; the asynchronous stores, which only delegate.
- The refusal of discovery graphs by the synchronous engine, the constructors' choice of default invoker and controller, and `register_role`.

Weaker than the code may promise, and why:

- Writers.SchedulesAreLinear: takes the check and the two writes of a save as one atomic step, because the file store documents itself as single-writer; every other access to a file is a turn of its own.
- Crash.CommittedArtifactsSurvive: asks, like the theorems of Lineage, Feedback and Rivals built on it, for phase ids that are relative, do not climb with `..` and normalise apart; colliding ids are shown to share files.
- Discovery.DiscoveryCompletes: asks that finalize is the only phase a session can complete in.
- Walks.LivesEndExactlyWhen: all runs of a life use one configuration, and, as in the next line, settings under which an executor can leave its phase.
- Traps.RunsEndIffLoopFree: the direction from bounded runs to loop-freedom asks for settings under which an executor can leave its phase at all.
