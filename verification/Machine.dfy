/** The engine as a state machine. One step runs from one commit boundary of the engine to the next:
    it saves at most one snapshot. A plan says what a step decides; performing it saves and announces.

    The classes in SyncEngine and AsyncEngine are proved to do exactly what this machine does. */
module Machine {
  import opened Wrappers
  import opened Graph
  import opened State
  import opened Events
  import opened Names
  import opened Disk

  datatype Config = Config(
    threshold: int,
    maxIterations: int,
    maxFeedbackRounds: int,
    floor: Option<int>,
    adhocQuestions: bool,
    packWriter: bool)

  datatype Signal = Continue | Pause | Cancel

  datatype Reply<+T> = Returned(value: T) | Raised

  /** Everything a step may read from outside: the run controller, the clock and the roles. */
  datatype Input = Input(
    signal: Signal,
    startedAt: Time,
    now: Time,
    execution: Reply<ExecutionResult>,
    review: Reply<ReviewResult>)

  /** The arguments of a `run()` call, with the clock readings and pre-flight checks it makes. */
  datatype RunRequest = RunRequest(
    sessionId: string,
    contextId: Option<string>,
    initializedAt: Time,
    startedAt: Time,
    now: Time,
    preflight: bool)

  /** Where an engine stands. */
  datatype Pc =
    | ExecTop(phase: PhaseDefinition, count: int)
    | ExecDecide(phase: PhaseDefinition, count: int, score: int, chosen: Option<PhaseId>)
    | ReviewTop(phase: PhaseDefinition)
    | ReviewDecide(phase: PhaseDefinition, decision: Decision, next: Option<PhaseId>)
    | Finished
    | Paused
    | Crashed(error: EngineError)

  /** The memory of one engine during one `run()` call. */
  datatype Engine = Engine(held: Stored, pc: Pc, applied: set<(PhaseId, int)>, tokens: TokenUsage)

  const NO_TOKENS := TokenUsage(0, 0, 0)

  predicate Running(e: Engine) {
    e.pc.ExecTop? || e.pc.ExecDecide? || e.pc.ReviewTop? || e.pc.ReviewDecide?
  }

  /** What a step leaves in memory, and what it did to the world. */
  datatype Outcome = Outcome(next: Engine, out: seq<Effect>)

  // ---- Pure helpers of the engine -------------------------------------------------------------

  /** The next phase among `targets`, given what the role chose; Failure where a TransitionError is raised. */
  function ResolveTarget(targets: seq<PhaseId>, chosen: Option<PhaseId>): (r: Result<Option<PhaseId>, EngineError>)
    ensures r.Success? ==>
      if targets == [] then r.value.None?
      else r.value.Some? && r.value.value in targets && (chosen.Some? ==> r.value == chosen)
    ensures r.Failure? <==> targets != [] && if chosen.Some? then chosen.value !in targets else |targets| > 1
    ensures r.Failure? ==> r.error == TransitionError
  {
    if targets == [] then Success(None)
    else if |targets| == 1 then
      if chosen.Some? && chosen.value != targets[0] then Failure(TransitionError) else Success(Some(targets[0]))
    else if chosen.None? || chosen.value !in targets then Failure(TransitionError)
    else Success(chosen)
  }

  predicate ValidOutput(p: PhaseDefinition, roleId: string, startedAt: Time, endedAt: Option<Time>) {
    roleId == p.roleId && endedAt.Some? && startedAt <= endedAt.value
  }

  /** A phase cap of 0 or None means the cap of the engine. */
  function EffectiveCap(cfg: Config, p: PhaseDefinition): int {
    if p.maxFeedbackRounds.Some? && p.maxFeedbackRounds.value != 0 then p.maxFeedbackRounds.value
    else cfg.maxFeedbackRounds
  }

  /** The previous decision shown to a phase: the newest stored request for changes that names it. */
  function HistoryFor(d: Disk, st: SessionState, id: PhaseId): Result<Option<DecisionPayload>, EngineError> {
    match LatestFeedback(st.reviews, id)
    case None => Success(None)
    case Some(e) =>
      var ref := e.findingsRef.value;
      if ref !in d.files then Failure(StateNotFoundError)
      else if !d.files[ref].DecisionDocument? then Failure(ValidationError)
      else Success(Some(d.files[ref].payload))
  }

  function MakePayload(p: PhaseDefinition, r: ReviewResult): DecisionPayload
    requires r.endedAt.Some?
  {
    DecisionPayload(p.phaseId, r.roleId, r.decision, r.confidenceScore, r.endedAt.value, r.findings, r.targetPhase)
  }

  /** The phase after an automated decision, and how much the feedback counter grows. */
  function ResolveReview(p: PhaseDefinition, payload: DecisionPayload, chosen: Option<PhaseId>)
    : Result<(Option<PhaseId>, nat), EngineError>
  {
    if payload.decision.Approve? then
      match ResolveTarget(p.onApprove, chosen)
      case Failure(e) => Failure(e)
      case Success(next) => Success((next, 0))
    else
      match ResolveTarget(p.canRequestChangesFrom, payload.targetPhase)
      case Failure(e) => Failure(e)
      case Success(None) => Failure(TransitionError)
      case Success(Some(t)) => Success((Some(t), 1))
  }

  predicate PackActive(cfg: Config, st: SessionState) {
    cfg.packWriter && st.contextId.Some? && st.contextId.value != ""
  }

  function AddUsage(t: TokenUsage, u: Option<TokenUsage>): TokenUsage {
    if u.None? then t
    else TokenUsage(t.prompt + u.value.prompt, t.completion + u.value.completion, t.total + u.value.total)
  }

  // ---- Commits --------------------------------------------------------------------------------

  datatype Commit =
    | Begin
    | Iterate(iteration: IterationEntry, chosenNext: Option<PhaseId>, usage: Option<TokenUsage>)
    | Judge(verdict: ReviewEntry, payload: DecisionPayload, delta: nat, startedAt: Time,
            chosenNext: Option<PhaseId>, usage: Option<TokenUsage>)
    | Stub(stub: ReviewEntry, at: Time)
    | Move(source: PhaseId, target: PhaseId)
    | Close(status: Status, at: Time)

  function ApplyCommit(st: SessionState, c: Commit): SessionState {
    match c
    case Begin => st.(status := InProgress)
    case Iterate(entry, _, _) => st.(iterations := st.iterations + [entry])
    case Judge(entry, _, delta, _, _, _) =>
      st.(reviews := st.reviews + [entry], feedbackLoops := st.feedbackLoops + delta)
    case Stub(entry, _) => st.(reviews := st.reviews + [entry])
    case Move(_, target) => st.(currentPhase := target)
    case Close(status, at) => st.(status := status, completedAt := Some(at))
  }

  function UsageOf(c: Commit): Option<TokenUsage> {
    if c.Iterate? || c.Judge? then c.usage else None
  }

  function RoleOf(g: PhaseGraph, id: PhaseId): string {
    var p := Get(g, id);
    if p.Some? then p.value.roleId else ""
  }

  function StartedEvent(p: PhaseDefinition, s: Stored, now: Time): Event {
    PhaseStarted(s.state.sessionId, p.phaseId, p.roleId, p.kind, s.revision, now)
  }

  /** What follows a save: the events of the commit, and the pack lock of a completed discovery. */
  function Announce(g: PhaseGraph, cfg: Config, e: Engine, c: Commit, now: Time): seq<Effect> {
    var st, rev := e.held.state, e.held.revision;
    var sid := st.sessionId;
    match c
    case Begin =>
      (match Get(g, st.currentPhase)
       case None => []
       case Some(p) =>
         [Emit(RunStarted(sid, p.phaseId, p.roleId, rev, now)), Emit(StartedEvent(p, e.held, now))])
    case Iterate(it, chosen, usage) =>
      [Emit(IterationCommitted(sid, it.phaseId, it.roleId, it.iteration, it.confidenceScore, st.feedbackLoops, rev,
                               it.startedAt, it.endedAt, chosen, it.handoffRef, usage))]
    case Judge(r, payload, _, startedAt, chosen, usage) =>
      [Emit(ReviewCommitted(sid, r.phaseId, payload.roleId, r.review, payload.decision, payload.confidenceScore,
                            st.feedbackLoops, rev, startedAt, payload.endedAt, payload.targetPhase, chosen,
                            r.findingsRef, usage))]
    case Stub(r, at) => [Emit(HumanReviewPending(sid, r.phaseId, r.roleId, r.review, rev, at))]
    case Move(source, target) =>
      (match Get(g, target)
       case None => []
       case Some(p) =>
         [Emit(PhaseTransitioned(sid, source, RoleOf(g, source), target, p.roleId, rev, now)),
          Emit(StartedEvent(p, e.held, now))])
    case Close(status, at) =>
      (if status.Completed? && PackActive(cfg, st) then [PackLock] else []) +
      [Emit(RunCompleted(sid, status, st.feedbackLoops, rev, st.startedAt, at, e.tokens))]
  }

  // ---- Plans ----------------------------------------------------------------------------------

  datatype Plan =
    | Fail(before: seq<Effect>, error: EngineError)
    | Stop
    | Stay(pc: Pc)
    | Save(before: seq<Effect>, commit: Commit, next: After)

  /** What follows the announcement of a commit. */
  datatype After =
    | Enter
    | At(pc: Pc)
    | Halt(post: seq<Effect>)
    | Reject(error: EngineError)

  /** Leaving a phase: a resolved target moves on, no target at all completes the session. */
  function PlanLeave(p: PhaseDefinition, targets: seq<PhaseId>, chosen: Option<PhaseId>, now: Time): Plan {
    match ResolveTarget(targets, chosen)
    case Failure(err) => Fail([], err)
    case Success(None) => Save([], Close(Completed, now), Enter)
    case Success(Some(t)) => Save([], Move(p.phaseId, t), Enter)
  }

  const CANONICAL_HANDOFF := "discovery/handoff-context.json"

  function PackFiles(files: seq<(Ref, string)>): seq<Effect> {
    seq(|files|, i requires 0 <= i < |files| => PackWrite(files[i].0, TextDocument(files[i].1)))
  }

  /** The loop top of an executor phase: signal, request, role call, artifacts, commit. */
  function PlanExecTop(cfg: Config, d: Disk, e: Engine, p: PhaseDefinition, count: int, inp: Input): Plan {
    if inp.signal.Cancel? then Save([], Close(Abandoned, inp.now), Enter)
    else if inp.signal.Pause? then Stop
    else
      match HistoryFor(d, e.held.state, p.phaseId)
      case Failure(err) => Fail([], err)
      case Success(previous) =>
        var asked := [AskExecutor(p.phaseId, e.held.state, previous)];
        match inp.execution
        case Raised => Fail(asked, RoleError)
        case Returned(r) =>
          if !ValidOutput(p, r.roleId, inp.startedAt, r.endedAt) then Fail(asked, TransitionError)
          else PlanIteration(cfg, e, p, count, inp, r, asked)
  }

  function PlanIteration(cfg: Config, e: Engine, p: PhaseDefinition, count: int, inp: Input, r: ExecutionResult,
                         asked: seq<Effect>): Plan
    requires r.endedAt.Some?
  {
    var st := e.held.state;
    var number := CountIterations(st.iterations, p.phaseId) + 1;
    var ref := if r.handoff.Some? then Some(HandoffName(p.phaseId, number)) else None;
    var stored := asked +
      if r.handoff.Some? then [ArtifactWrite(ref.value, HandoffDocument(p.phaseId, r.roleId, r.handoff.value))]
      else [];
    var packed := stored + if PackActive(cfg, st) then PackFiles(r.files) else [];
    if PackActive(cfg, st) && p.phaseId == "finalize" && r.handoff.None? then
      Save(packed, Close(Abandoned, inp.now), Enter)
    else
      var before := packed +
        if PackActive(cfg, st) && p.phaseId == "finalize" then
          [PackWrite(CANONICAL_HANDOFF, HandoffDocument(p.phaseId, r.roleId, r.handoff.value))]
        else [];
      if !InScoreRange(r.confidenceScore) then Fail(before, ValidationError)
      else
        var entry := IterationEntry(number, p.phaseId, r.roleId, r.confidenceScore, inp.startedAt, r.endedAt.value, ref);
        Save(before, Iterate(entry, r.chosenNext, r.usage), AfterIteration(cfg, st, p, count, r))
  }

  /** A pending question stops the run before the floor, the threshold and the cap are looked at. */
  function AfterIteration(cfg: Config, st: SessionState, p: PhaseDefinition, count: int, r: ExecutionResult): After
    requires r.endedAt.Some?
  {
    if r.pendingQuestion.Some? then
      if !cfg.adhocQuestions then Reject(ConfigurationError)
      else if PackActive(cfg, st) then
        Halt([PackQuestion(r.pendingQuestion.value, p.phaseId, r.roleId, r.endedAt.value)])
      else Halt([])
    else At(ExecDecide(p, count + 1, r.confidenceScore, r.chosenNext))
  }

  /** After an iteration: no targets leaves at once; then floor, threshold and iteration cap, in this order. */
  function PlanExecDecide(cfg: Config, p: PhaseDefinition, count: int, score: int, chosen: Option<PhaseId>, now: Time)
    : Plan
  {
    if p.onComplete == [] then PlanLeave(p, p.onComplete, chosen, now)
    else if cfg.floor.Some? && score < cfg.floor.value then Save([], Close(Failed, now), Enter)
    else if score >= cfg.threshold then PlanLeave(p, p.onComplete, chosen, now)
    else if count >= cfg.maxIterations then
      if |p.onComplete| > 1 then PlanLeave(p, p.onComplete, chosen, now)
      else Save([], Close(Failed, now), Enter)
    else Stay(ExecTop(p, count))
  }

  function NextReview(st: SessionState, p: PhaseDefinition): nat {
    CountReviews(st.reviews, p.phaseId) + 1
  }

  /** The committed human decision a review phase finds on entry, if any. */
  function HumanDecision(e: Engine, p: PhaseDefinition): (r: Option<ReviewEntry>)
    ensures r.Some? ==> Decided(r.value) && r.value in e.held.state.reviews && r.value.phaseId == p.phaseId
  {
    var st := e.held.state;
    var n := NextReview(st, p);
    var here := FindDecided(st.reviews, p.phaseId, n);
    if here.Some? then here
    else if p.human && n > 1 && (p.phaseId, n - 1) !in e.applied then FindDecided(st.reviews, p.phaseId, n - 1)
    else None
  }

  function MarkApplied(e: Engine): Engine {
    if e.pc.ReviewTop? && HumanDecision(e, e.pc.phase).Some? then
      e.(applied := e.applied + {(e.pc.phase.phaseId, HumanDecision(e, e.pc.phase).value.review)})
    else e
  }

  /** Transition on a decision that was committed from outside. */
  function PlanApply(p: PhaseDefinition, entry: ReviewEntry, now: Time): Plan
    requires Decided(entry)
  {
    if entry.decision.value.Approve? then PlanLeave(p, p.onApprove, entry.targetPhase, now)
    else if p.canRequestChangesFrom == [] then Fail([], TransitionError)
    else PlanLeave(p, p.canRequestChangesFrom, entry.targetPhase, now)
  }

  function StubFor(st: SessionState, p: PhaseDefinition, now: Time): ReviewEntry {
    ReviewEntry(NextReview(st, p), p.phaseId, p.roleId, Some(Pending), None, None, Some(now), None)
  }

  /** A review phase on entry: apply a human decision, write a PENDING stub and stop, or call the reviewer. */
  function PlanReviewTop(d: Disk, e: Engine, p: PhaseDefinition, inp: Input): Plan {
    var st := e.held.state;
    if HumanDecision(e, p).Some? then PlanApply(p, HumanDecision(e, p).value, inp.now)
    else if p.human then Save([], Stub(StubFor(st, p, inp.now), inp.now), Halt([]))
    else
      match HistoryFor(d, st, p.phaseId)
      case Failure(err) => Fail([], err)
      case Success(previous) =>
        var asked := [AskReviewer(p.phaseId, st, previous)];
        match inp.review
        case Raised => Fail(asked, RoleError)
        case Returned(r) =>
          if !ValidOutput(p, r.roleId, inp.startedAt, r.endedAt) then Fail(asked, TransitionError)
          else PlanVerdict(e, p, inp, r, asked)
  }

  function VerdictFor(st: SessionState, p: PhaseDefinition, payload: DecisionPayload): ReviewEntry {
    ReviewEntry(NextReview(st, p), p.phaseId, payload.roleId, Some(payload.decision), payload.targetPhase,
                Some(payload.confidenceScore), Some(payload.endedAt), Some(DecisionName(p.phaseId, NextReview(st, p))))
  }

  /** The decision is resolved before anything is written, then stored, then committed. */
  function PlanVerdict(e: Engine, p: PhaseDefinition, inp: Input, r: ReviewResult, asked: seq<Effect>): Plan
    requires r.endedAt.Some?
  {
    var st := e.held.state;
    var payload := MakePayload(p, r);
    if !ValidPayload(payload) then Fail(asked, ValidationError)
    else
      match ResolveReview(p, payload, r.chosenNext)
      case Failure(err) => Fail(asked, err)
      case Success((next, delta)) =>
        Save(asked + [ArtifactWrite(DecisionName(p.phaseId, NextReview(st, p)), DecisionDocument(payload))],
             Judge(VerdictFor(st, p, payload), payload, delta, inp.startedAt, r.chosenNext, r.usage),
             At(ReviewDecide(p, r.decision, next)))
  }

  /** After a verdict: signal, feedback cap, then the transition resolved earlier. */
  function PlanReviewDecide(cfg: Config, st: SessionState, p: PhaseDefinition, decision: Decision,
                            next: Option<PhaseId>, inp: Input): Plan
  {
    if inp.signal.Cancel? then Save([], Close(Abandoned, inp.now), Enter)
    else if inp.signal.Pause? then Stop
    else if decision.RequestChanges? && st.feedbackLoops >= EffectiveCap(cfg, p) then
      Save([], Close(Abandoned, inp.now), Enter)
    else if next.None? then Save([], Close(Completed, inp.now), Enter)
    else Save([], Move(p.phaseId, next.value), Enter)
  }

  function PlanOf(cfg: Config, d: Disk, e: Engine, inp: Input): Plan
    requires Running(e)
  {
    match e.pc
    case ExecTop(p, count) => PlanExecTop(cfg, d, e, p, count, inp)
    case ExecDecide(p, count, score, chosen) => PlanExecDecide(cfg, p, count, score, chosen, inp.now)
    case ReviewTop(p) => PlanReviewTop(d, e, p, inp)
    case ReviewDecide(p, decision, next) => PlanReviewDecide(cfg, e.held.state, p, decision, next, inp)
  }

  // ---- Performing a plan ----------------------------------------------------------------------

  /** The optimistic-concurrency check of a save. */
  function SaveError(d: Disk, revision: nat): Option<EngineError> {
    if d.state.None? then Some(StateNotFoundError)
    else if ReadRevision(d) != revision then Some(ConcurrencyError)
    else None
  }

  /** An exception: RunFailed is emitted and the exception leaves `run()`. When the current phase is not in
      the graph, looking up its role raises inside the handler, so nothing is emitted. */
  function Abort(g: PhaseGraph, e: Engine, out: seq<Effect>, err: EngineError, now: Time): Outcome {
    var st := e.held.state;
    match Get(g, st.currentPhase)
    case None => Outcome(e.(pc := Crashed(ConfigurationError)), out)
    case Some(p) =>
      Outcome(e.(pc := Crashed(err)),
              out + [Emit(RunFailed(st.sessionId, p.phaseId, p.roleId, e.held.revision, now, err))])
  }

  /** The head of the loop in `run()`: dispatch on the kind of the current phase while in progress. */
  function EnterPhase(g: PhaseGraph, e: Engine, out: seq<Effect>, now: Time): Outcome {
    var st := e.held.state;
    if !st.status.InProgress? then Outcome(e.(pc := Finished), out)
    else
      match Get(g, st.currentPhase)
      case None => Abort(g, e, out, ConfigurationError, now)
      case Some(p) =>
        if p.kind.ExecutorKind? then
          Outcome(e.(pc := ExecTop(p, CountIterations(st.iterations, p.phaseId))), out)
        else Outcome(e.(pc := ReviewTop(p)), out)
  }

  predicate KnownPhase(g: PhaseGraph, st: SessionState, c: Commit) {
    c.Begin? || c.Move? ==> Get(g, st.currentPhase).Some?
  }

  function Saved(e: Engine, c: Commit): Engine {
    e.(held := Stored(ApplyCommit(e.held.state, c), e.held.revision + 1), tokens := AddUsage(e.tokens, UsageOf(c)))
  }

  function Written(e: Engine): seq<Effect> {
    [StateWrite(e.held.state), RevisionWrite(e.held.revision)]
  }

  function Conclude(g: PhaseGraph, cfg: Config, e: Engine, out: seq<Effect>, c: Commit, after: After, now: Time): Outcome {
    if !KnownPhase(g, e.held.state, c) then Abort(g, e, out, ConfigurationError, now)
    else
      var said := out + Announce(g, cfg, e, c, now);
      match after
      case Enter => EnterPhase(g, e, said, now)
      case At(pc) => Outcome(e.(pc := pc), said)
      case Halt(post) => Outcome(e.(pc := Paused), said + post)
      case Reject(err) => Abort(g, e, said, err, now)
  }

  function Perform(g: PhaseGraph, cfg: Config, d: Disk, e: Engine, plan: Plan, now: Time): Outcome {
    match plan
    case Fail(before, err) => Abort(g, e, before, err, now)
    case Stop => Outcome(e.(pc := Paused), [])
    case Stay(pc) => Outcome(e.(pc := pc), [])
    case Save(before, c, after) =>
      match SaveError(d, e.held.revision)
      case Some(err) => Abort(g, e, before, err, now)
      case None =>
        var e1 := Saved(e, c);
        Conclude(g, cfg, e1, before + Written(e1), c, after, now)
  }

  /** One step, from one commit boundary to the next. */
  function Step(g: PhaseGraph, cfg: Config, d: Disk, e: Engine, inp: Input): Outcome {
    if !Running(e) then Outcome(e, [])
    else Perform(g, cfg, d, MarkApplied(e), PlanOf(cfg, d, e, inp), inp.now)
  }

  // ---- Runs -----------------------------------------------------------------------------------

  datatype Run = Run(disk: Disk, engine: Engine, trace: seq<Effect>)

  /** As many steps as there are inputs, unless the engine stops first. A shorter list of inputs is a run
      that is cut off between two commit boundaries. */
  function Exec(g: PhaseGraph, cfg: Config, d: Disk, e: Engine, inputs: seq<Input>): Run
    decreases |inputs|
  {
    if inputs == [] || !Running(e) then Run(d, e, [])
    else
      var o := Step(g, cfg, d, e, inputs[0]);
      var rest := Exec(g, cfg, Apply(d, o.out), o.next, inputs[1..]);
      Run(rest.disk, rest.engine, o.out + rest.trace)
  }

  function FirstPhase(g: PhaseGraph): PhaseId {
    if g == [] then "" else g[0].phaseId
  }

  function FreshState(g: PhaseGraph, req: RunRequest): SessionState {
    SessionState(req.sessionId, req.contextId, req.initializedAt, FirstPhase(g), [], [], 0, Initialized, None)
  }

  function Fresh(s: Stored, pc: Pc): Engine { Engine(s, pc, {}, NO_TOKENS) }

  /** The start of `run()`: load or initialize, then start or resume. */
  function Boot(g: PhaseGraph, cfg: Config, d: Disk, req: RunRequest): Outcome {
    match d.state
    case None =>
      var st := FreshState(g, req);
      var out := [StateWrite(st), RevisionWrite(0)];
      Launch(g, cfg, Apply(d, out), Stored(st, 0), out, req)
    case Some(st) =>
      var s := Stored(st, ReadRevision(d));
      if !Loadable(st) then Outcome(Fresh(s, Crashed(ValidationError)), [])
      else if st.sessionId != req.sessionId then Outcome(Fresh(s, Crashed(StateError)), [])
      else Launch(g, cfg, d, s, [], req)
  }

  /** An initialized session gets its start time in memory only; the next save persists it. */
  function Timed(s: Stored, req: RunRequest): Stored {
    if s.state.status.Initialized? then s.(state := s.state.(startedAt := req.startedAt)) else s
  }

  function Launch(g: PhaseGraph, cfg: Config, d: Disk, s: Stored, out: seq<Effect>, req: RunRequest): Outcome {
    var e := Fresh(Timed(s, req), Finished);
    var st := e.held.state;
    if Terminal(st.status) then Outcome(e, out)
    else if !req.preflight then Abort(g, e, out, ConfigurationError, req.now)
    else if st.status.Initialized? then
      match SaveError(d, e.held.revision)
      case Some(err) => Abort(g, e, out, err, req.now)
      case None =>
        var e1 := Saved(e, Begin);
        Conclude(g, cfg, e1, out + Written(e1), Begin, Enter, req.now)
    else
      match Get(g, st.currentPhase)
      case None => Abort(g, e, out, ConfigurationError, req.now)
      case Some(p) =>
        var resumed := RunResumed(st.sessionId, p.phaseId, p.roleId, p.kind, e.held.revision, req.now);
        EnterPhase(g, e, out + [Emit(resumed)], req.now)
  }

  /** One whole `run()` call. */
  function Session(g: PhaseGraph, cfg: Config, d: Disk, req: RunRequest, inputs: seq<Input>): Run {
    var o := Boot(g, cfg, d, req);
    var rest := Exec(g, cfg, Apply(d, o.out), o.next, inputs);
    Run(rest.disk, rest.engine, o.out + rest.trace)
  }

  /** A machine that has stopped does nothing more. */
  lemma {:induction false} Stopped(g: PhaseGraph, cfg: Config, d: Disk, e: Engine, inputs: seq<Input>)
    ensures !Running(e) ==> Exec(g, cfg, d, e, inputs) == Run(d, e, [])
  {
  }

  // ---- Composition ----------------------------------------------------------------------------

  /** The disk after a run is what its trace wrote. */
  lemma {:induction false} ExecWritesItsTrace(g: PhaseGraph, cfg: Config, d: Disk, e: Engine, inputs: seq<Input>)
    ensures var r := Exec(g, cfg, d, e, inputs); r.disk == Apply(d, r.trace)
    decreases |inputs|
  {
    if inputs != [] && Running(e) {
      var o := Step(g, cfg, d, e, inputs[0]);
      ExecWritesItsTrace(g, cfg, Apply(d, o.out), o.next, inputs[1..]);
      ApplyConcat(d, o.out, Exec(g, cfg, Apply(d, o.out), o.next, inputs[1..]).trace);
    }
  }

  /** Running on some inputs and then on more is running on all of them. */
  lemma {:induction false} ExecConcat(g: PhaseGraph, cfg: Config, d: Disk, e: Engine, a: seq<Input>, b: seq<Input>)
    ensures var r := Exec(g, cfg, d, e, a);
            var s := Exec(g, cfg, r.disk, r.engine, b);
            Exec(g, cfg, d, e, a + b) == Run(s.disk, s.engine, r.trace + s.trace)
    decreases |a|
  {
    hide Step;
    if a == [] {
      assert a + b == b;
    } else if Running(e) {
      assert (a + b)[1..] == a[1..] + b;
      var o := Step(g, cfg, d, e, a[0]);
      ExecConcat(g, cfg, Apply(d, o.out), o.next, a[1..], b);
      var r := Exec(g, cfg, Apply(d, o.out), o.next, a[1..]);
      var s := Exec(g, cfg, r.disk, r.engine, b);
      assert o.out + (r.trace + s.trace) == (o.out + r.trace) + s.trace;
    }
  }
}
