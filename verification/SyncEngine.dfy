/** The synchronous engine: loops over a runtime and its stores, proved to do what the machine does. */
module SyncEngine {
  import opened Wrappers
  import opened Graph
  import opened State
  import opened Events
  import opened Names
  import opened Disk
  import opened Machine
  import opened Invariants
  import opened Sessions
  import opened Refinement
  import opened Stores

  class WorkflowEngine {
    const graph: PhaseGraph
    const cfg: Config
    const store: FsStateStore
    const artifacts: FsArtifactStore

    /** `_applied_human_reviews`. */
    var applied: set<(PhaseId, int)>

    /** What the controller, the clock and the roles will answer, and the last reading of the clock. */
    var inputs: seq<Input>
    var now: Time

    ghost var trace: seq<Effect>

    /** Discovery graphs are for the asynchronous engine: there is no context pack here. */
    constructor (graph: PhaseGraph, cfg: Config, store: FsStateStore, artifacts: FsArtifactStore)
      ensures this.graph == graph && this.cfg == cfg.(packWriter := false)
      ensures this.store == store && this.artifacts == artifacts && trace == [] && Valid()
    {
      this.graph, this.cfg, this.store, this.artifacts := graph, cfg.(packWriter := false), store, artifacts;
      applied, inputs, now, trace := {}, [], 0, [];
    }

    predicate Valid() { !cfg.packWriter }

    function World(): Disk
      reads store, artifacts
    {
      Disk(store.stateFile, store.revisionFile, artifacts.files, map[], [], false)
    }

    /** The memory of the machine, wherever it stands. */
    ghost function Memory(rt: Runtime): Engine
      reads this, rt
    {
      Engine(rt.stored, Finished, applied, rt.tokens)
    }

    /** The new state is what the machine tells. */
    twostate predicate Does(rt: Runtime, t: Told)
      reads this, rt, store, artifacts
    {
      && Memory(rt) == t.memory
      && trace == old(trace) + t.out
      && World() == Apply(old(World()), t.out)
    }

    // ---- Small steps --------------------------------------------------------------------------

    method Emit(ev: Event)
      modifies this`trace
      ensures trace == old(trace) + [Effect.Emit(ev)]
    {
      trace := trace + [Effect.Emit(ev)];
    }

    /** The next answers of the outside world. */
    method Advance() returns (inp: Input)
      requires inputs != []
      modifies this`inputs, this`now
      ensures inp == old(inputs[0]) && inputs == old(inputs[1..]) && now == inp.now
    {
      inp := inputs[0];
      inputs := inputs[1..];
      now := inp.now;
    }

    method Save(rt: Runtime, state: SessionState) returns (exit: Exit)
      modifies rt`stored, store, this`trace
      ensures var err := SaveError(old(World()), old(rt.stored.revision));
              if err.Some? then
                exit == Error(err.value) && rt.stored == old(rt.stored) &&
                World() == old(World()) && trace == old(trace)
              else
                var s := Stored(state, old(rt.stored.revision) + 1);
                var written := [StateWrite(s.state), RevisionWrite(s.revision)];
                exit == Normal && rt.stored == s &&
                trace == old(trace) + written && World() == Apply(old(World()), written)
    {
      var saved := store.Save(state, rt.stored.revision);
      if saved.Failure? {
        return Error(saved.error);
      }
      rt.stored := saved.value;
      trace := trace + [StateWrite(state), RevisionWrite(saved.value.revision)];
      WritesBoth(old(World()), saved.value);
      exit := Normal;
    }

    method Finalize(rt: Runtime, status: Status) returns (exit: Exit)
      requires Valid()
      modifies rt`stored, store, this`trace
      ensures var t := SaveAndTell(graph, cfg, old(World()), old(Memory(rt)), Close(status, now), now);
              exit == t.exit && Does(rt, t)
    {
      hide Announce, Apply;
      ghost var d := World();
      exit := Save(rt, rt.stored.state.(status := status, completedAt := Some(now)));
      if exit != Normal {
        NothingDone(d);
        return;
      }
      var st := rt.stored.state;
      ghost var written := [StateWrite(st), RevisionWrite(rt.stored.revision)];
      var ev := RunCompleted(st.sessionId, status, st.feedbackLoops, rt.stored.revision, st.startedAt, now, rt.tokens);
      Emit(ev);
      OneMore(d, written, Effect.Emit(ev));
      PlainClose(graph, cfg, Memory(rt), status, now, now);
    }

    method TransitionTo(rt: Runtime, source: PhaseId, target: PhaseId) returns (exit: Exit)
      requires Valid() && Get(graph, source).Some?
      modifies rt`stored, store, this`trace
      ensures var t := SaveAndTell(graph, cfg, old(World()), old(Memory(rt)), Move(source, target), now);
              exit == t.exit && Does(rt, t)
    {
      ghost var d := World();
      exit := Save(rt, rt.stored.state.(currentPhase := target));
      if exit != Normal {
        assert Apply(d, []) == d;
        return;
      }
      var st, revision := rt.stored.state, rt.stored.revision;
      ghost var written := [StateWrite(st), RevisionWrite(revision)];
      var p := Get(graph, target);
      if p.None? {
        return Error(ConfigurationError);
      }
      var role := Get(graph, source).value.roleId;
      var left := PhaseTransitioned(st.sessionId, source, role, target, p.value.roleId, revision, now);
      Emit(left);
      var started := PhaseStarted(st.sessionId, p.value.phaseId, p.value.roleId, p.value.kind, revision, now);
      Emit(started);
      OneMore(d, written, Effect.Emit(left));
      OneMore(d, written + [Effect.Emit(left)], Effect.Emit(started));
      assert written + [Effect.Emit(left)] + [Effect.Emit(started)] ==
             written + [Effect.Emit(left), Effect.Emit(started)];
    }

    method StartRun(rt: Runtime) returns (exit: Exit)
      requires Valid()
      modifies rt`stored, store, this`trace
      ensures var t := SaveAndTell(graph, cfg, old(World()), old(Memory(rt)), Begin, now);
              exit == t.exit && Does(rt, t)
    {
      ghost var d := World();
      exit := Save(rt, rt.stored.state.(status := InProgress));
      if exit != Normal {
        assert Apply(d, []) == d;
        return;
      }
      var st, revision := rt.stored.state, rt.stored.revision;
      ghost var written := [StateWrite(st), RevisionWrite(revision)];
      var p := Get(graph, st.currentPhase);
      if p.None? {
        return Error(ConfigurationError);
      }
      var run := RunStarted(st.sessionId, p.value.phaseId, p.value.roleId, revision, now);
      Emit(run);
      var started := PhaseStarted(st.sessionId, p.value.phaseId, p.value.roleId, p.value.kind, revision, now);
      Emit(started);
      OneMore(d, written, Effect.Emit(run));
      OneMore(d, written + [Effect.Emit(run)], Effect.Emit(started));
      assert written + [Effect.Emit(run)] + [Effect.Emit(started)] ==
             written + [Effect.Emit(run), Effect.Emit(started)];
    }

    method CommitIteration(rt: Runtime, entry: IterationEntry, r: ExecutionResult) returns (exit: Exit)
      requires Valid()
      modifies rt, store, this`trace
      ensures var c := Iterate(entry, r.chosenNext, r.usage);
              var t := SaveAndTell(graph, cfg, old(World()), old(Memory(rt)), c, now);
              exit == t.exit && Does(rt, t)
    {
      ghost var d := World();
      exit := Save(rt, rt.stored.state.(iterations := rt.stored.state.iterations + [entry]));
      if exit != Normal {
        assert Apply(d, []) == d;
        return;
      }
      rt.Accumulate(r.usage);
      var st, revision := rt.stored.state, rt.stored.revision;
      ghost var written := [StateWrite(st), RevisionWrite(revision)];
      var ev := IterationCommitted(st.sessionId, entry.phaseId, entry.roleId, entry.iteration, entry.confidenceScore,
                                   st.feedbackLoops, revision, entry.startedAt, entry.endedAt, r.chosenNext,
                                   entry.handoffRef, r.usage);
      Emit(ev);
      OneMore(d, written, Effect.Emit(ev));
    }

    method CommitReview(rt: Runtime, entry: ReviewEntry, payload: DecisionPayload, delta: nat, startedAt: Time,
                        r: ReviewResult)
      returns (exit: Exit)
      requires Valid()
      modifies rt, store, this`trace
      ensures var c := Judge(entry, payload, delta, startedAt, r.chosenNext, r.usage);
              var t := SaveAndTell(graph, cfg, old(World()), old(Memory(rt)), c, now);
              exit == t.exit && Does(rt, t)
    {
      ghost var d := World();
      var state := rt.stored.state;
      exit := Save(rt, state.(reviews := state.reviews + [entry], feedbackLoops := state.feedbackLoops + delta));
      if exit != Normal {
        assert Apply(d, []) == d;
        return;
      }
      rt.Accumulate(r.usage);
      var st, revision := rt.stored.state, rt.stored.revision;
      ghost var written := [StateWrite(st), RevisionWrite(revision)];
      var ev := ReviewCommitted(st.sessionId, entry.phaseId, payload.roleId, entry.review, payload.decision,
                                payload.confidenceScore, st.feedbackLoops, revision, startedAt, payload.endedAt,
                                payload.targetPhase, r.chosenNext, entry.findingsRef, r.usage);
      Emit(ev);
      OneMore(d, written, Effect.Emit(ev));
    }

    method CommitStub(rt: Runtime, stub: ReviewEntry) returns (exit: Exit)
      requires Valid()
      modifies rt`stored, store, this`trace
      ensures var t := SaveAndTell(graph, cfg, old(World()), old(Memory(rt)), Stub(stub, now), now);
              exit == t.exit && Does(rt, t)
    {
      ghost var d := World();
      exit := Save(rt, rt.stored.state.(reviews := rt.stored.state.reviews + [stub]));
      if exit != Normal {
        assert Apply(d, []) == d;
        return;
      }
      var st, revision := rt.stored.state, rt.stored.revision;
      ghost var written := [StateWrite(st), RevisionWrite(revision)];
      var ev := HumanReviewPending(st.sessionId, stub.phaseId, stub.roleId, stub.review, revision, now);
      Emit(ev);
      OneMore(d, written, Effect.Emit(ev));
    }

    /** CANCEL closes the session here; PAUSE leaves it in progress. */
    method CheckSignal(rt: Runtime, signal: Signal) returns (exit: Exit)
      requires Valid()
      modifies rt`stored, store, this`trace
      ensures signal.Cancel? ==>
        var t := SaveAndTell(graph, cfg, old(World()), old(Memory(rt)), Close(Abandoned, now), now);
        Does(rt, t) && exit == if t.exit.Normal? then CancelRequested else t.exit
      ensures !signal.Cancel? ==>
        && rt.stored == old(rt.stored) && trace == old(trace) && World() == old(World())
        && exit == if signal.Pause? then StopRequested else Normal
    {
      if signal.Continue? {
        return Normal;
      }
      if signal.Cancel? {
        exit := Finalize(rt, Abandoned);
        if exit == Normal {
          exit := CancelRequested;
        }
        return;
      }
      exit := StopRequested;
    }

    // ---- Searching the history ----------------------------------------------------------------

    /** The newest stored request for changes that names the phase. */
    method HistoryForPhase(state: SessionState, id: PhaseId) returns (r: Result<Option<DecisionPayload>, EngineError>)
      ensures r == HistoryFor(World(), state, id)
    {
      var rs := state.reviews;
      var i := |rs|;
      assert rs[..i] == rs;
      while i > 0
        invariant 0 <= i <= |rs|
        invariant LatestFeedback(rs, id) == LatestFeedback(rs[..i], id)
      {
        i := i - 1;
        assert rs[..i + 1][..i] == rs[..i];
        if Feeds(rs[i], id) {
          var loaded := artifacts.LoadArtifact(rs[i].findingsRef.value);
          if loaded.Failure? {
            return Failure(loaded.error);
          }
          if !loaded.value.DecisionDocument? {
            return Failure(ValidationError);
          }
          return Success(Some(loaded.value.payload));
        }
      }
      r := Success(None);
    }

    // ---- Executor phases ----------------------------------------------------------------------

    /** The runtime stands in this phase. */
    predicate Stands(rt: Runtime, p: PhaseDefinition)
      reads rt
    {
      rt.stored.state.status.InProgress? && Get(graph, rt.stored.state.currentPhase) == Some(p)
    }

    /** The machine, run from `e` on the answers there were, does `out` and comes to where this method ended. */
    twostate predicate Follows(rt: Runtime, e: Engine, exit: Exit, at: Pc, out: seq<Effect>)
      reads this, rt, store, artifacts
    {
      && trace == old(trace) + out
      && if exit.CutOff? then
           && inputs == [] && Running(Memory(rt).(pc := at))
           && Leads(graph, cfg, old(World()), e, old(inputs), World(), Memory(rt).(pc := at), [], out)
         else
           Leads(graph, cfg, old(World()), e, old(inputs), World(), Next(graph, exit, Memory(rt), now), inputs,
                 out + Tail(graph, exit, Memory(rt), now))
    }

    /** The tail that executor phases and applied decisions share: resolve the target, then complete or move. */
    method Leave(rt: Runtime, p: PhaseDefinition, targets: seq<PhaseId>, chosen: Option<PhaseId>)
      returns (exit: Exit, ghost t: Told)
      requires Valid() && Stands(rt, p)
      modifies rt`stored, store, this`trace
      ensures PerformsPlan(rt, PlanLeave(p, targets, chosen, now), exit, t)
    {
      hide SaveAndTell, Apply;
      NothingDone(World());
      ghost var d, m := World(), Memory(rt);
      match ResolveTarget(targets, chosen) {
        case Failure(err) =>
          exit, t := Error(err), Told(Error(err), m, []);
        case Success(None) =>
          exit := Finalize(rt, Completed);
          t := SaveAndTell(graph, cfg, d, m, Close(Completed, now), now);
        case Success(Some(target)) =>
          exit := TransitionTo(rt, p.phaseId, target);
          t := SaveAndTell(graph, cfg, d, m, Move(p.phaseId, target), now);
      }
    }

    /** A plan with nothing to do before its save was carried out, up to what follows the save. */
    twostate predicate PerformsPlan(rt: Runtime, plan: Plan, exit: Exit, t: Told)
      reads this, rt, store, artifacts
    {
      && exit == t.exit && Does(rt, t)
      && match plan
         case Fail(before, err) => before == [] && t == Told(Error(err), old(Memory(rt)), [])
         case Save(before, c, after) =>
           before == [] && after.Enter? && t == SaveAndTell(graph, cfg, old(World()), old(Memory(rt)), c, now)
         case _ => false
    }

    /** The answer of the role, checked and stored; Failure where an exception leaves the engine. */
    method Execute(rt: Runtime, p: PhaseDefinition, inp: Input, ghost count: int)
      returns (r: Result<(ExecutionResult, IterationEntry), EngineError>, ghost done: seq<Effect>)
      requires Valid() && Stands(rt, p) && inp.signal.Continue?
      modifies artifacts, this`trace
      ensures trace == old(trace) + done && World() == Apply(old(World()), done)
      ensures World().state == old(World()).state && World().revision == old(World()).revision
      ensures var e := old(Memory(rt)).(pc := ExecTop(p, count));
              var plan := PlanOf(cfg, old(World()), e, inp);
              match r
              case Failure(err) => plan == Plan.Fail(done, err)
              case Success((result, entry)) =>
                result.endedAt.Some? &&
                plan == Plan.Save(done, Commit.Iterate(entry, result.chosenNext, result.usage),
                                  AfterIteration(cfg, rt.stored.state, p, count, result))
    {
      ghost var d, e := World(), Memory(rt).(pc := ExecTop(p, count));
      hide PlanOf, PlanIteration, HistoryFor, AfterIteration, CountIterations, HandoffName;
      ExecTopCases(cfg, d, e, inp);
      done := [];
      assert Apply(d, []) == d;
      var history := HistoryForPhase(rt.stored.state, p.phaseId);
      if history.Failure? {
        return Failure(history.error), done;
      }
      ghost var ask := AskExecutor(p.phaseId, rt.stored.state, history.value);
      trace, done := trace + [ask], [ask];
      OneMore(d, [], ask);
      if inp.execution.Raised? {
        return Failure(RoleError), done;
      }
      var result := inp.execution.value;
      if !ValidOutput(p, result.roleId, inp.startedAt, result.endedAt) {
        return Failure(TransitionError), done;
      }
      PlainIterationCases(cfg, e, inp, result, [ask]);
      var number := CountIterations(rt.stored.state.iterations, p.phaseId) + 1;
      var handoffRef: Option<Ref> := None;
      if result.handoff.Some? {
        var ref := artifacts.SaveHandoff(p.phaseId, result.roleId, number, result.handoff.value);
        handoffRef := Some(ref);
        ghost var written := ArtifactWrite(ref, HandoffDocument(p.phaseId, result.roleId, result.handoff.value));
        trace, done := trace + [written], done + [written];
        OneMore(d, [ask], written);
      }
      assert done == [ask] + HandoffWrites(p, number, result);
      if !InScoreRange(result.confidenceScore) {
        return Failure(ValidationError), done;
      }
      var entry := IterationEntry(number, p.phaseId, result.roleId, result.confidenceScore, inp.startedAt,
                                  result.endedAt.value, handoffRef);
      r := Success((result, entry));
    }

    /** One turn of the executor loop, from the signal to the pending question. */
    method IterateOnce(rt: Runtime, p: PhaseDefinition, ghost count: int)
      returns (exit: Exit, result: Option<ExecutionResult>, ghost done: seq<Effect>)
      requires Valid() && inputs != [] && Stands(rt, p)
      modifies this`inputs, this`now, this`trace, rt, store, artifacts
      ensures inputs == old(inputs[1..]) && now == old(inputs[0]).now
      ensures trace == old(trace) + done && World() == Apply(old(World()), done)
      ensures !exit.CutOff? && (exit.Normal? ==> result.Some? && Stands(rt, p))
      ensures var e := old(Memory(rt)).(pc := ExecTop(p, count));
              Step(graph, cfg, old(World()), e, old(inputs[0])) ==
              if exit.Normal? then
                Outcome(Memory(rt).(pc := ExecDecide(p, count + 1, result.value.confidenceScore,
                                                     result.value.chosenNext)),
                        done)
              else Outcome(Next(graph, exit, Memory(rt), now), done + Tail(graph, exit, Memory(rt), now))
    {
      ghost var d, m := World(), Memory(rt);
      ghost var e := m.(pc := ExecTop(p, count));
      hide PlanOf, Step, SaveAndTell, Next, Tail, MarkApplied, HistoryFor, Apply;
      var inp := Advance();
      ExecTopCases(cfg, d, e, inp);
      MarkedSame(e);
      result := None;
      ToldStatus(graph, cfg, d, m, Close(Abandoned, inp.now), inp.now);
      exit := CheckSignal(rt, inp.signal);
      if exit != Normal {
        ghost var t := if inp.signal.Cancel? then SaveAndTell(graph, cfg, d, m, Close(Abandoned, inp.now), inp.now)
                       else Told(StopRequested, m, []);
        SignalEnds(graph, cfg, d, e, inp, t, exit);
        done := t.out;
        NothingDone(d);
        return;
      }
      var r;
      r, done := Execute(rt, p, inp, count);
      if r.Failure? {
        StepFails(graph, cfg, d, e, inp, done, r.error);
        return Error(r.error), None, done;
      }
      var (answer, entry) := r.value;
      ghost var c := Commit.Iterate(entry, answer.chosenNext, answer.usage);
      SameFilesSameTold(graph, cfg, d, World(), m, c, now);
      ghost var t := SaveAndTell(graph, cfg, d, m, c, now);
      ghost var after := AfterIteration(cfg, m.held.state, p, count, answer);
      StepCommits(graph, cfg, d, e, inp, done, c, after, t);
      ApplyConcat(d, done, t.out);
      exit := CommitIteration(rt, entry, answer);
      ToldStatus(graph, cfg, d, m, c, now);
      done := done + t.out;
      if exit != Normal {
        return;
      }
      if answer.pendingQuestion.Some? {
        if !cfg.adhocQuestions {
          return Error(ConfigurationError), None, done;
        }
        assert done + [] == done;
        NoTail(graph, Memory(rt), now);
        return StopRequested, None, done;
      }
      result := Some(answer);
    }

    /** The executor loop. */
    method RunExecutor(rt: Runtime, p: PhaseDefinition) returns (exit: Exit, ghost at: Pc, ghost out: seq<Effect>)
      requires Valid() && Stands(rt, p)
      modifies this`inputs, this`now, this`trace, rt, store, artifacts
      ensures Follows(rt, old(Memory(rt)).(pc := ExecTop(p, CountIterations(old(rt.stored.state.iterations), p.phaseId))),
                      exit, at, out)
      ensures !exit.CutOff? ==> |inputs| < |old(inputs)|
    {
      hide PlanOf, PlanLeave, Step, SaveAndTell, Next, Tail, Apply, Leads, MarkApplied, CountIterations, Get;
      ghost var d0, in0 := World(), inputs;
      ghost var e0 := Memory(rt).(pc := ExecTop(p, CountIterations(rt.stored.state.iterations, p.phaseId)));
      var targets := p.onComplete;
      var count := CountIterations(rt.stored.state.iterations, p.phaseId);
      var last: ExecutionResult;
      var failed := false;
      ghost var d: Disk, e: Engine, ins: seq<Input>, t: Told;
      out, at := [], Pc.Finished;
      LeadsNowhere(graph, cfg, d0, e0, in0);
      while true
        invariant Valid() && Stands(rt, p) && |inputs| <= |in0| && !failed
        invariant trace == old(trace) + out
        invariant Leads(graph, cfg, d0, e0, in0, World(), Memory(rt).(pc := ExecTop(p, count)), inputs, out)
        decreases |inputs|
      {
        if inputs == [] {
          return CutOff, ExecTop(p, count), out;
        }
        d, e, ins := World(), Memory(rt).(pc := ExecTop(p, count)), inputs;
        var result;
        ghost var done;
        exit, result, done := IterateOnce(rt, p, count);
        if exit != Normal {
          LeadsOut(graph, cfg, d0, e0, in0, d, e, ins, out, exit, Memory(rt), now, done);
          out := out + done;
          return;
        }
        last := result.value;
        count := count + 1;
        LeadsOn(graph, cfg, d0, e0, in0, d, e, ins, out,
                Outcome(Memory(rt).(pc := ExecDecide(p, count, last.confidenceScore, last.chosenNext)), done));
        out := out + done;
        if inputs == [] {
          return CutOff, ExecDecide(p, count, last.confidenceScore, last.chosenNext), out;
        }
        d, e, ins := World(), Memory(rt).(pc := ExecDecide(p, count, last.confidenceScore, last.chosenNext)), inputs;
        var inp := Advance();
        ExecDecideCases(cfg, d, e, inp);
        if targets == [] {
          break;
        }
        if cfg.floor.Some? && last.confidenceScore < cfg.floor.value {
          failed := true;
          break;
        }
        if last.confidenceScore >= cfg.threshold {
          break;
        }
        if count >= cfg.maxIterations {
          if |targets| > 1 {
            break;
          }
          failed := true;
          break;
        }
        StepStays(graph, cfg, d, e, inp, ExecTop(p, count));
        LeadsOn(graph, cfg, d0, e0, in0, d, e, ins, out, Outcome(Memory(rt).(pc := ExecTop(p, count)), []));
        NothingDone(d);
        assert out + [] == out;
      }
      if failed {
        exit, t := FailRun(rt, d, e, ins[0]);
      } else {
        exit, t := LeaveExecutor(rt, p, last.chosenNext, d, e, ins[0]);
      }
      LeadsOut(graph, cfg, d0, e0, in0, d, e, ins, out, exit, Memory(rt), now, t.out);
      out := out + t.out;
    }

    /** Leaving an executor phase for its next one, or completing. */
    method LeaveExecutor(rt: Runtime, p: PhaseDefinition, chosen: Option<PhaseId>, ghost d: Disk, ghost e: Engine,
                         ghost inp: Input)
      returns (exit: Exit, ghost t: Told)
      requires Valid() && Stands(rt, p)
      requires d == World() && e.pc.ExecDecide? && Bare(e) == Memory(rt) && inp.now == now
      requires PlanOf(cfg, d, e, inp) == PlanLeave(p, p.onComplete, chosen, now)
      modifies rt`stored, store, this`trace
      ensures exit == t.exit && Does(rt, t) && !exit.CutOff?
      ensures Step(graph, cfg, d, e, inp) ==
              Outcome(Next(graph, exit, t.memory, now), t.out + Tail(graph, exit, t.memory, now))
    {
      hide PlanOf, PlanLeave, Step, SaveAndTell, Next, Tail, MarkApplied, Apply, Get;
      ghost var m := Memory(rt);
      MarkedSame(e);
      exit, t := Leave(rt, p, p.onComplete, chosen);
      StepPerforms(graph, cfg, d, e, inp, m, t);
    }

    /** The two ends in failure: below the floor, and at the cap of a single-target phase. */
    method FailRun(rt: Runtime, ghost d: Disk, ghost e: Engine, ghost inp: Input)
      returns (exit: Exit, ghost t: Told)
      requires Valid() && d == World() && e.pc.ExecDecide? && Bare(e) == Memory(rt) && inp.now == now
      requires PlanOf(cfg, d, e, inp) == Plan.Save([], Close(Failed, now), Enter)
      modifies rt`stored, store, this`trace
      ensures exit == t.exit && Does(rt, t) && !exit.CutOff?
      ensures Step(graph, cfg, d, e, inp) ==
              Outcome(Next(graph, exit, t.memory, now), t.out + Tail(graph, exit, t.memory, now))
    {
      hide PlanOf, Step, SaveAndTell, Next, Tail, MarkApplied, Apply;
      t := SaveAndTell(graph, cfg, d, Memory(rt), Close(Failed, now), now);
      MarkedSame(e);
      StepPerforms(graph, cfg, d, e, inp, Memory(rt), t);
      exit := Finalize(rt, Failed);
    }

    // ---- Review phases ------------------------------------------------------------------------

    /** Transition on a decision that was committed from outside. */
    method ApplyCommittedReview(rt: Runtime, p: PhaseDefinition, entry: ReviewEntry) returns (exit: Exit, ghost t: Told)
      requires Valid() && Stands(rt, p) && Decided(entry)
      modifies rt`stored, store, this`trace
      ensures PerformsPlan(rt, PlanApply(p, entry, now), exit, t)
    {
      hide SaveAndTell, Apply, PlanLeave, Get;
      if entry.decision.value.Approve? {
        exit, t := Leave(rt, p, p.onApprove, entry.targetPhase);
      } else if p.canRequestChangesFrom == [] {
        NothingDone(World());
        exit, t := Error(TransitionError), Told(Error(TransitionError), Memory(rt), []);
      } else {
        exit, t := Leave(rt, p, p.canRequestChangesFrom, entry.targetPhase);
      }
    }

    /** The verdict of the role, checked, resolved and stored; Failure where an exception leaves the engine. */
    method Review(rt: Runtime, p: PhaseDefinition, inp: Input)
      returns (r: Result<(ReviewResult, DecisionPayload, ReviewEntry, Option<PhaseId>, nat), EngineError>,
               ghost done: seq<Effect>)
      requires Valid() && Stands(rt, p) && HumanDecision(Memory(rt), p).None? && !p.human
      modifies artifacts, this`trace
      ensures trace == old(trace) + done && World() == Apply(old(World()), done)
      ensures World().state == old(World()).state && World().revision == old(World()).revision
      ensures var e := old(Memory(rt)).(pc := ReviewTop(p));
              var plan := PlanOf(cfg, old(World()), e, inp);
              match r
              case Failure(err) => plan == Plan.Fail(done, err)
              case Success((result, payload, entry, next, delta)) =>
                plan == Plan.Save(done, Judge(entry, payload, delta, inp.startedAt, result.chosenNext, result.usage),
                                  At(ReviewDecide(p, payload.decision, next)))
    {
      ghost var d, e := World(), Memory(rt).(pc := ReviewTop(p));
      hide PlanOf, HistoryFor, DecisionName, HumanDecision, ResolveReview, ValidPayload, CountReviews;
      ReviewTopCases(cfg, d, e, inp);
      assert HumanDecision(e, p) == HumanDecision(Memory(rt), p) by { SameMemorySameDecision(Memory(rt), e, p); }
      done := [];
      NothingDone(d);
      var history := HistoryForPhase(rt.stored.state, p.phaseId);
      if history.Failure? {
        return Failure(history.error), done;
      }
      ghost var ask := AskReviewer(p.phaseId, rt.stored.state, history.value);
      trace, done := trace + [ask], [ask];
      OneMore(d, [], ask);
      if inp.review.Raised? {
        return Failure(RoleError), done;
      }
      var result := inp.review.value;
      if !ValidOutput(p, result.roleId, inp.startedAt, result.endedAt) {
        return Failure(TransitionError), done;
      }
      var payload := MakePayload(p, result);
      if !ValidPayload(payload) {
        return Failure(ValidationError), done;
      }
      var resolved := ResolveReview(p, payload, result.chosenNext);
      if resolved.Failure? {
        return Failure(resolved.error), done;
      }
      var (next, delta) := resolved.value;
      var number := CountReviews(rt.stored.state.reviews, p.phaseId) + 1;
      var ref := artifacts.SaveDecision(p.phaseId, number, payload);
      ghost var written := ArtifactWrite(ref, DecisionDocument(payload));
      trace, done := trace + [written], done + [written];
      OneMore(d, [ask], written);
      var entry := ReviewEntry(number, p.phaseId, payload.roleId, Some(payload.decision), payload.targetPhase,
                               Some(payload.confidenceScore), Some(payload.endedAt), Some(ref));
      r := Success((result, payload, entry, next, delta));
    }

    /** From the entry of a review phase to its committed verdict; without a verdict the method has ended. */
    method EnterReview(rt: Runtime, p: PhaseDefinition)
      returns (exit: Exit, verdict: Option<(Decision, Option<PhaseId>)>, ghost done: seq<Effect>)
      requires Valid() && inputs != [] && Stands(rt, p)
      modifies this`inputs, this`now, this`trace, this`applied, rt, store, artifacts
      ensures inputs == old(inputs[1..]) && now == old(inputs[0]).now
      ensures trace == old(trace) + done && World() == Apply(old(World()), done)
      ensures !exit.CutOff? && (verdict.Some? ==> Stands(rt, p))
      ensures var e := old(Memory(rt)).(pc := ReviewTop(p));
              Step(graph, cfg, old(World()), e, old(inputs[0])) ==
              if verdict.Some? then
                Outcome(Memory(rt).(pc := ReviewDecide(p, verdict.value.0, verdict.value.1)), done)
              else Outcome(Next(graph, exit, Memory(rt), now), done + Tail(graph, exit, Memory(rt), now))
    {
      hide PlanOf, PlanApply, Step, SaveAndTell, Next, Tail, MarkApplied, HistoryFor, HumanDecision, Apply,
           CountReviews, Get;
      ghost var d, m := World(), Memory(rt);
      ghost var e := m.(pc := ReviewTop(p));
      ghost var t: Told;
      var inp := Advance();
      ReviewTopCases(cfg, d, e, inp);
      DecisionCases(e, p);
      SameMemorySameDecision(m, e, p);
      verdict := None;
      var committed := FindWaiting(rt, p);
      if committed.Some? {
        exit, t := ApplyCommittedReview(rt, p, committed.value);
        StepPerforms(graph, cfg, d, e, inp, Bare(MarkApplied(e)), t);
        done := t.out;
        return;
      }
      if p.human {
        exit, t := WriteStub(rt, p, d, e, inp);
        done := t.out;
        return;
      }
      exit, verdict, done := CommitVerdict(rt, p, inp, d, e);
    }

    /** The automated path: the role is asked, its verdict stored, then committed. */
    method CommitVerdict(rt: Runtime, p: PhaseDefinition, inp: Input, ghost d: Disk, ghost e: Engine)
      returns (exit: Exit, verdict: Option<(Decision, Option<PhaseId>)>, ghost done: seq<Effect>)
      requires Valid() && Stands(rt, p) && d == World() && e == Memory(rt).(pc := ReviewTop(p)) && inp.now == now
      requires MarkApplied(e) == e && HumanDecision(Memory(rt), p).None? && !p.human
      modifies this`trace, rt, store, artifacts
      ensures trace == old(trace) + done && World() == Apply(old(World()), done)
      ensures !exit.CutOff? && (verdict.Some? ==> Stands(rt, p))
      ensures Step(graph, cfg, d, e, inp) ==
              if verdict.Some? then
                Outcome(Memory(rt).(pc := ReviewDecide(p, verdict.value.0, verdict.value.1)), done)
              else Outcome(Next(graph, exit, Memory(rt), now), done + Tail(graph, exit, Memory(rt), now))
    {
      hide PlanOf, Step, SaveAndTell, Next, Tail, MarkApplied, HumanDecision, Apply, CountReviews, Get;
      ghost var m := Memory(rt);
      verdict := None;
      var r;
      r, done := Review(rt, p, inp);
      if r.Failure? {
        StepFails(graph, cfg, d, e, inp, done, r.error);
        return Error(r.error), None, done;
      }
      var (result, payload, entry, next, delta) := r.value;
      ghost var c := Judge(entry, payload, delta, inp.startedAt, result.chosenNext, result.usage);
      SameFilesSameTold(graph, cfg, d, World(), m, c, now);
      ghost var t := SaveAndTell(graph, cfg, d, m, c, now);
      StepCommits(graph, cfg, d, e, inp, done, c, At(ReviewDecide(p, payload.decision, next)), t);
      ApplyConcat(d, done, t.out);
      exit := CommitReview(rt, entry, payload, delta, inp.startedAt, result);
      ToldStatus(graph, cfg, d, m, c, now);
      done := done + t.out;
      if exit == Normal {
        verdict := Some((payload.decision, next));
      }
    }

    /** An arrival without a decision: one PENDING stub, and the run stops. */
    method WriteStub(rt: Runtime, p: PhaseDefinition, ghost d: Disk, ghost e: Engine, ghost inp: Input)
      returns (exit: Exit, ghost t: Told)
      requires Valid() && Stands(rt, p) && d == World() && e == Memory(rt).(pc := ReviewTop(p)) && inp.now == now
      requires MarkApplied(e) == e
      requires PlanOf(cfg, d, e, inp) == Plan.Save([], Stub(StubFor(rt.stored.state, p, now), now), Halt([]))
      modifies rt`stored, store, this`trace
      ensures Does(rt, t) && !exit.CutOff?
      ensures Step(graph, cfg, d, e, inp) ==
              Outcome(Next(graph, exit, t.memory, now), t.out + Tail(graph, exit, t.memory, now))
    {
      hide PlanOf, Step, SaveAndTell, Next, Tail, MarkApplied, Apply, CountReviews, Get;
      ghost var m := Memory(rt);
      var stub := ReviewEntry(CountReviews(rt.stored.state.reviews, p.phaseId) + 1, p.phaseId, p.roleId, Some(Pending),
                              None, None, Some(now), None);
      ghost var c := Stub(stub, now);
      t := SaveAndTell(graph, cfg, d, m, c, now);
      StepCommits(graph, cfg, d, e, inp, [], c, Halt([]), t);
      exit := CommitStub(rt, stub);
      ToldStatus(graph, cfg, d, m, c, now);
      assert [] + t.out == t.out && t.out + [] == t.out;
      if exit == Normal {
        exit := StopRequested;
        NoTail(graph, t.memory, now);
      }
    }

    /** The committed human decision to apply on entry, remembered as applied. */
    method FindWaiting(rt: Runtime, p: PhaseDefinition) returns (r: Option<ReviewEntry>)
      modifies this`applied
      ensures r == HumanDecision(old(Memory(rt)), p)
      ensures applied == if r.Some? then old(applied) + {(p.phaseId, r.value.review)} else old(applied)
    {
      DecisionCases(Memory(rt), p);
      hide HumanDecision, MarkApplied, FindDecided, CountReviews;
      var state := rt.stored.state;
      var reviewIdx := CountReviews(state.reviews, p.phaseId) + 1;
      r := FindCommittedHumanReview(state, p.phaseId, reviewIdx);
      if r.Some? {
        applied := applied + {(p.phaseId, r.value.review)};
        return;
      }
      if p.human && reviewIdx > 1 {
        var key := (p.phaseId, reviewIdx - 1);
        if key !in applied {
          r := FindCommittedHumanReview(state, p.phaseId, reviewIdx - 1);
          if r.Some? {
            applied := applied + {key};
          }
        }
      }
    }

    /** After a verdict: the signal, the feedback cap, then the transition resolved earlier. */
    method AfterVerdict(rt: Runtime, p: PhaseDefinition, inp: Input, decision: Decision, next: Option<PhaseId>)
      returns (exit: Exit, ghost t: Told)
      requires Valid() && Stands(rt, p) && inp.now == now
      modifies rt`stored, store, this`trace
      ensures Does(rt, t) && !exit.CutOff?
      ensures var e := old(Memory(rt)).(pc := ReviewDecide(p, decision, next));
              Step(graph, cfg, old(World()), e, inp) ==
              Outcome(Next(graph, exit, t.memory, now), t.out + Tail(graph, exit, t.memory, now))
    {
      hide PlanOf, Step, SaveAndTell, Next, Tail, MarkApplied, Apply, Get;
      ghost var d, m := World(), Memory(rt);
      ghost var e := m.(pc := ReviewDecide(p, decision, next));
      ReviewDecideCases(cfg, d, e, inp);
      MarkedSame(e);
      ToldStatus(graph, cfg, d, m, Close(Abandoned, now), now);
      exit := CheckSignal(rt, inp.signal);
      if exit != Normal {
        t := if inp.signal.Cancel? then SaveAndTell(graph, cfg, d, m, Close(Abandoned, now), now)
             else Told(StopRequested, m, []);
        SignalEnds(graph, cfg, d, e, inp, t, exit);
        NothingDone(d);
        return;
      }
      if decision.RequestChanges? {
        var phaseCap := if p.maxFeedbackRounds.Some? && p.maxFeedbackRounds.value != 0 then p.maxFeedbackRounds.value
                        else cfg.maxFeedbackRounds;
        if rt.stored.state.feedbackLoops >= phaseCap {
          t := SaveAndTell(graph, cfg, d, m, Close(Abandoned, now), now);
          exit := Finalize(rt, Abandoned);
          StepPerforms(graph, cfg, d, e, inp, m, t);
          return;
        }
      }
      if next.None? {
        t := SaveAndTell(graph, cfg, d, m, Close(Completed, now), now);
        exit := Finalize(rt, Completed);
        StepPerforms(graph, cfg, d, e, inp, m, t);
        return;
      }
      t := SaveAndTell(graph, cfg, d, m, Move(p.phaseId, next.value), now);
      exit := TransitionTo(rt, p.phaseId, next.value);
      StepPerforms(graph, cfg, d, e, inp, m, t);
    }

    method RunReview(rt: Runtime, p: PhaseDefinition) returns (exit: Exit, ghost at: Pc, ghost out: seq<Effect>)
      requires Valid() && Stands(rt, p)
      modifies this`inputs, this`now, this`trace, this`applied, rt, store, artifacts
      ensures Follows(rt, old(Memory(rt)).(pc := ReviewTop(p)), exit, at, out)
      ensures !exit.CutOff? ==> |inputs| < |old(inputs)|
    {
      hide PlanOf, Step, SaveAndTell, Next, Tail, Apply, Leads, MarkApplied, Get;
      ghost var d0, e0, in0 := World(), Memory(rt).(pc := ReviewTop(p)), inputs;
      out, at := [], Pc.Finished;
      LeadsNowhere(graph, cfg, d0, e0, in0);
      if inputs == [] {
        return CutOff, ReviewTop(p), out;
      }
      var verdict;
      ghost var done;
      exit, verdict, done := EnterReview(rt, p);
      if verdict.None? {
        LeadsOut(graph, cfg, d0, e0, in0, d0, e0, in0, [], exit, Memory(rt), now, done);
        out := [] + done;
        return;
      }
      ghost var d, ins := World(), inputs;
      ghost var e := Memory(rt).(pc := ReviewDecide(p, verdict.value.0, verdict.value.1));
      LeadsOn(graph, cfg, d0, e0, in0, d0, e0, in0, [], Outcome(e, done));
      out := [] + done;
      if inputs == [] {
        return CutOff, ReviewDecide(p, verdict.value.0, verdict.value.1), out;
      }
      var inp := Advance();
      ghost var t;
      exit, t := AfterVerdict(rt, p, inp, verdict.value.0, verdict.value.1);
      LeadsOut(graph, cfg, d0, e0, in0, d, e, ins, out, exit, Memory(rt), now, t.out);
      out := out + t.out;
    }

    // ---- run() --------------------------------------------------------------------------------

    method LoadOrInitialize(req: RunRequest) returns (r: Result<Stored, EngineError>, ghost out: seq<Effect>)
      modifies store, this`trace
      ensures out == InitialWrites(graph, old(World()), req)
      ensures trace == old(trace) + out && World() == Apply(old(World()), out)
      ensures if Rejected(old(World()), req) then
                out == [] && World() == old(World()) &&
                r == Failure(if Loadable(old(World()).state.value) then StateError else ValidationError)
              else r == Success(LoadedState(graph, old(World()), req))
    {
      out := InitialWrites(graph, World(), req);
      InitialWritesLand(graph, World(), req);
      r := store.Load(req.sessionId);
      if r == Failure(StateNotFoundError) {
        r := store.Initialize(req.sessionId, req.contextId, FirstPhase(graph), req.initializedAt);
        trace := trace + [StateWrite(r.value.state), RevisionWrite(0)];
      } else {
        assert trace + [] == trace;
      }
    }

    /** Up to the loop: a terminal session returns, any other is checked, then started or resumed. */
    method Open(rt: Runtime, req: RunRequest, ghost s: Stored) returns (exit: Exit, ghost out: seq<Effect>)
      requires Valid() && Memory(rt) == Fresh(Timed(s, req), Finished) && now == req.now
      modifies rt`stored, store, this`trace
      ensures trace == old(trace) + out && World() == Apply(old(World()), out)
      ensures exit.Normal? || exit.Error?
      ensures Launch(graph, cfg, old(World()), s, [], req) ==
              Outcome(Next(graph, exit, Memory(rt), now), out + Tail(graph, exit, Memory(rt), now))
    {
      hide Launch, Next, Tail, SaveAndTell, Apply;
      ghost var d, m := World(), Memory(rt);
      LaunchCases(graph, cfg, d, s, req);
      NothingDone(d);
      NoTail(graph, m, now);
      out := [];
      assert [] + Tail(graph, Error(ConfigurationError), m, now) == Tail(graph, Error(ConfigurationError), m, now);
      var st := rt.stored.state;
      if Terminal(st.status) {
        return Normal, out;
      }
      if !req.preflight {
        return Error(ConfigurationError), out;
      }
      if st.status.Initialized? {
        exit := StartRun(rt);
        ghost var t := SaveAndTell(graph, cfg, d, m, Begin, now);
        ToldStatus(graph, cfg, d, m, Begin, now);
        out := t.out;
        return;
      }
      var p := Get(graph, st.currentPhase);
      if p.None? {
        return Error(ConfigurationError), out;
      }
      var resumed := RunResumed(st.sessionId, p.value.phaseId, p.value.roleId, p.value.kind, rt.stored.revision, now);
      Emit(resumed);
      OneMore(d, [], Effect.Emit(resumed));
      out := [Effect.Emit(resumed)];
      exit := Normal;
    }

    /** The loop of `run()`: one phase after another while the session is in progress. */
    method Drive(rt: Runtime) returns (exit: Exit, ghost at: Pc, ghost out: seq<Effect>)
      requires Valid()
      modifies this`inputs, this`now, this`trace, this`applied, rt, store, artifacts
      ensures Follows(rt, Next(graph, Normal, old(Memory(rt)), old(now)), exit, at, out)
      ensures exit.Normal? ==> !rt.stored.state.status.InProgress?
    {
      hide Next, Tail, Apply, Leads;
      ghost var d0, in0 := World(), inputs;
      ghost var e0 := Next(graph, Normal, Memory(rt), now);
      out, at := [], Pc.Finished;
      LeadsNowhere(graph, cfg, d0, e0, in0);
      while rt.stored.state.status.InProgress?
        invariant trace == old(trace) + out
        invariant Leads(graph, cfg, d0, e0, in0, World(), Next(graph, Normal, Memory(rt), now), inputs, out)
        decreases |inputs|
      {
        DispatchCases(graph, Memory(rt), now);
        NoTail(graph, Memory(rt), now);
        var p := Get(graph, rt.stored.state.currentPhase);
        if p.None? {
          assert out + [] == out;
          return Error(ConfigurationError), at, out;
        }
        ghost var d, e, ins := World(), Next(graph, Normal, Memory(rt), now), inputs;
        ghost var more;
        if p.value.kind.ExecutorKind? {
          exit, at, more := RunExecutor(rt, p.value);
        } else {
          exit, at, more := RunReview(rt, p.value);
        }
        ghost var e1 := if exit.CutOff? then Memory(rt).(pc := at) else Next(graph, exit, Memory(rt), now);
        ghost var tail := if exit.CutOff? then [] else Tail(graph, exit, Memory(rt), now);
        assert more + [] == more;
        LeadsFurther(graph, cfg, d0, e0, in0, d, e, ins, out, World(), e1, inputs, more + tail);
        assert out + (more + tail) == (out + more) + tail;
        out := out + more;
        assert out + [] == out;
        if exit != Normal {
          return;
        }
        NoTail(graph, Memory(rt), now);
      }
      NoTail(graph, Memory(rt), now);
      assert out + [] == out;
      exit := Normal;
    }

    /** The handler of `run()`: RunFailed is emitted, unless the current phase is not in the graph. */
    method Fail(rt: Runtime, err: EngineError) returns (exit: Exit)
      modifies this`trace
      ensures trace == old(trace) + Tail(graph, Error(err), Memory(rt), now)
      ensures exit == Error(if Get(graph, rt.stored.state.currentPhase).Some? then err else ConfigurationError)
    {
      TailCases(graph, err, Memory(rt), now);
      hide Tail;
      var st := rt.stored.state;
      var p := Get(graph, st.currentPhase);
      if p.None? {
        assert trace + [] == trace;
        return Error(ConfigurationError);
      }
      Emit(RunFailed(st.sessionId, p.value.phaseId, p.value.roleId, rt.stored.revision, now, err));
      exit := Error(err);
    }

    /** How `run()` ends: an exception is reported and raised again, everything else returns the session. */
    method Report(rt: Runtime, how: Exit) returns (exit: Exit, state: Option<SessionState>)
      modifies this`trace
      ensures trace == old(trace) + if how.CutOff? then [] else Tail(graph, how, Memory(rt), now)
      ensures match how
              case Error(err) =>
                exit == Error(if Get(graph, rt.stored.state.currentPhase).Some? then err else ConfigurationError)
              case CutOff => exit == CutOff
              case _ => exit == Normal && state == Some(rt.stored.state)
    {
      hide Tail;
      NoTail(graph, Memory(rt), now);
      assert trace + [] == trace;
      state := None;
      match how {
        case Error(err) => exit := Fail(rt, err);
        case CutOff => exit := CutOff;
        case _ => exit, state := Normal, Some(rt.stored.state);
      }
    }

    /** The body of the `try` block of `run()`. */
    method Body(rt: Runtime, req: RunRequest, ghost s: Stored)
      returns (exit: Exit, ghost at: Pc, ghost out: seq<Effect>, ghost more: seq<Effect>)
      requires Valid() && Memory(rt) == Fresh(Timed(s, req), Finished) && now == req.now
      modifies this`inputs, this`now, this`trace, this`applied, rt, store, artifacts
      ensures exit.Normal? ==> !rt.stored.state.status.InProgress?
      ensures exit.CutOff? ==> inputs == [] && Running(Memory(rt).(pc := at))
      ensures trace == old(trace) + out
      ensures var o := Launch(graph, cfg, old(World()), s, [], req);
              && out + (if exit.CutOff? then [] else Tail(graph, exit, Memory(rt), now)) == o.out + more
              && Leads(graph, cfg, Apply(old(World()), o.out), o.next, old(inputs), World(),
                       if exit.CutOff? then Memory(rt).(pc := at) else Next(graph, exit, Memory(rt), now), inputs, more)
    {
      hide Launch, Next, Tail, Apply, Leads;
      ghost var d, ins := World(), inputs;
      ghost var o := Launch(graph, cfg, d, s, [], req);
      at := Pc.Finished;
      exit, out := Open(rt, req, s);
      TailSaysNothingToDisk(graph, exit, Memory(rt), now, d, out);
      LeadsNowhere(graph, cfg, World(), o.next, ins);
      more := [];
      if exit != Normal {
        assert out + Tail(graph, exit, Memory(rt), now) == o.out + [];
        return;
      }
      NoTail(graph, Memory(rt), now);
      assert out + [] == out;
      ghost var driven;
      exit, at, driven := Drive(rt);
      ghost var tail := if exit.CutOff? then [] else Tail(graph, exit, Memory(rt), now);
      assert driven + [] == driven;
      assert (out + driven) + tail == o.out + (driven + tail);
      out, more := out + driven, driven + tail;
    }

    /** One whole `run()` call: it does exactly what a session of the machine does. */
    method Run(req: RunRequest, answers: seq<Input>) returns (exit: Exit, state: Option<SessionState>)
      requires Valid()
      modifies this, store, artifacts
      ensures var r := Session(graph, cfg, old(World()), req, answers);
              && World() == r.disk
              && trace == old(trace) + r.trace
              && match exit
                 case Normal => (r.engine.pc.Finished? || r.engine.pc.Paused?) && state == Some(r.engine.held.state)
                 case Error(err) => r.engine.pc == Crashed(err)
                 case CutOff => Running(r.engine)
                 case _ => false
    {
      hide Next, Tail, Apply, Leads, Launch, Exec, Boot, Rejected, InitialWrites, Session, World, LoadedState,
           Loadable, Get;
      ghost var d0 := World();
      applied, inputs, now, state := {}, answers, req.now, None;
      ghost var first;
      var loaded;
      loaded, first := LoadOrInitialize(req);
      if loaded.Failure? {
        SessionRejected(graph, cfg, d0, req, answers);
        return Error(loaded.error), None;
      }
      ghost var d1 := World();
      var stored := loaded.value;
      if stored.state.status.Initialized? {
        stored := stored.(state := stored.state.(startedAt := req.startedAt));
      }
      var rt := new Runtime(stored);
      ghost var o := Launch(graph, cfg, d1, loaded.value, [], req);
      ghost var at, out, more;
      exit, at, out, more := Body(rt, req, loaded.value);
      ghost var m := Memory(rt);
      ghost var tail := if exit.CutOff? then [] else Tail(graph, exit, m, now);
      ghost var e3 := if exit.CutOff? then m.(pc := at) else Next(graph, exit, m, now);
      if !exit.CutOff? { ExitsStop(graph, exit, m, now); }
      SessionIs(graph, cfg, d0, req, answers, loaded.value, first, o, Apply(d1, o.out), World(), e3, inputs, more);
      assert (first + o.out) + more == first + (out + tail);
      assert old(trace) + (first + (out + tail)) == trace + tail;
      exit, state := Report(rt, exit);
    }
  }
}
