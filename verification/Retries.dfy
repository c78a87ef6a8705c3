/** When the role of an executor is called again, when its phase is left, and what every move of a run must have
    behind it in the stored history. */
module Retries {
  import opened Wrappers
  import opened Graph
  import opened State
  import opened Events
  import opened Disk
  import opened Machine
  import opened Invariants
  import opened Sessions
  import opened Termination
  import opened Bounds
  import opened Crash
  import opened Feedback
  import opened Outcomes

  // ---- After one iteration --------------------------------------------------------------------

  /** The last iteration, of the phase the session stands at. */
  predicate HasWorked(st: SessionState) {
    st.iterations != [] && st.iterations[|st.iterations| - 1].phaseId == st.currentPhase
  }

  function ScoreOf(st: SessionState): int
    requires HasWorked(st)
  {
    st.iterations[|st.iterations| - 1].confidenceScore
  }

  predicate UnderFloor(cfg: Config, st: SessionState)
    requires HasWorked(st)
  {
    cfg.floor.Some? && ScoreOf(st) < cfg.floor.value
  }

  /** The iterations the phase has had, over all visits. */
  function Used(st: SessionState): nat { |IterationsAt(st.iterations, st.currentPhase)| }

  lemma {:induction false} DecidesOnHistory(g: PhaseGraph, d: Disk, e: Engine)
    requires Sound(g, d, e) && e.pc.ExecDecide?
    ensures HasWorked(e.held.state) && e.pc.score == ScoreOf(e.held.state) && e.pc.count == Used(e.held.state)
    ensures e.held.state.currentPhase == e.pc.phase.phaseId
    ensures Get(g, e.held.state.currentPhase) == Some(e.pc.phase) && e.pc.phase.kind.ExecutorKind?
  {
    hide WellFormed, IterationsAt, CountIterations;
    CountsIterations(e.held.state.iterations, e.pc.phase.phaseId);
  }

  /** Between two iterations the history decides, in this order: no target completes the session, a score under the
      floor fails it, a score at the threshold leaves the phase, a phase at its cap fails or leaves by the choice of the
      role, and any other score asks the role again with nothing written. */
  lemma ExecutorDecides(g: PhaseGraph, cfg: Config, d: Disk, e: Engine, inp: Input)
    requires ValidGraph(g) && Sound(g, d, e) && e.pc.ExecDecide?
    ensures var o, st, targets := Step(g, cfg, d, e, inp), e.held.state, e.pc.phase.onComplete;
            && HasWorked(st)
            && (targets == [] ==> Outcomes.Closes(cfg, e, o, [], Completed, inp.now))
            && (targets != [] && UnderFloor(cfg, st) ==> Outcomes.Closes(cfg, e, o, [], Failed, inp.now))
            && (targets != [] && !UnderFloor(cfg, st) && ScoreOf(st) >= cfg.threshold ==>
                  Leaves(g, cfg, e, o, targets, e.pc.chosen, inp.now))
            && (targets != [] && !UnderFloor(cfg, st) && ScoreOf(st) < cfg.threshold && Used(st) >= cfg.maxIterations ==>
                  if |targets| == 1 then Outcomes.Closes(cfg, e, o, [], Failed, inp.now)
                  else Leaves(g, cfg, e, o, targets, e.pc.chosen, inp.now))
            && (targets != [] && !UnderFloor(cfg, st) && ScoreOf(st) < cfg.threshold && Used(st) < cfg.maxIterations ==>
                  o == Outcome(e.(pc := ExecTop(e.pc.phase, Used(st))), []))
  {
    hide Perform, Outcomes.Closes, Leaves, WellFormed, ValidGraph, IterationsAt;
    StepPerforms(g, cfg, d, e, inp);
    DecidesOnHistory(g, d, e);
    PerformCloses(g, cfg, d, e, [], Completed, inp.now);
    PerformCloses(g, cfg, d, e, [], Failed, inp.now);
    TargetsAreKnown(g, e.held.state.currentPhase);
    PerformLeaves(g, cfg, d, e, e.pc.phase.onComplete, e.pc.chosen, inp.now);
    StayingDoesNothing(g, cfg, d, e, inp.now);
    NoTargetCompletes(g, cfg, e, e.pc.chosen, inp.now);
  }

  lemma NoTargetCompletes(g: PhaseGraph, cfg: Config, e: Engine, chosen: Option<PhaseId>, now: Time)
    requires Running(e)
    ensures forall o :: Leaves(g, cfg, e, o, [], chosen, now) <==> Outcomes.Closes(cfg, e, o, [], Completed, now)
  {
  }

  lemma StayingDoesNothing(g: PhaseGraph, cfg: Config, d: Disk, e: Engine, now: Time)
    ensures forall pc :: Perform(g, cfg, d, e, Stay(pc), now) == Outcome(e.(pc := pc), [])
  {
  }

  /** The role of an executor that has a way on and is not under the floor is asked again if and only if its last score
      is below the threshold and it has iterations left; and asking again writes and says nothing. */
  lemma RetriesExactlyWhen(g: PhaseGraph, cfg: Config, d: Disk, e: Engine, inp: Input)
    requires ValidGraph(g) && Sound(g, d, e) && e.pc.ExecDecide? && e.pc.phase.onComplete != []
    requires HasWorked(e.held.state) ==> !UnderFloor(cfg, e.held.state)
    ensures HasWorked(e.held.state)
    ensures var o, st := Step(g, cfg, d, e, inp), e.held.state;
            && (o == Outcome(e.(pc := ExecTop(e.pc.phase, Used(st))), []) <==>
                  ScoreOf(st) < cfg.threshold && Used(st) < cfg.maxIterations)
            && (o.out == [] <==> ScoreOf(st) < cfg.threshold && Used(st) < cfg.maxIterations)
  {
    hide Step, Sound, ValidGraph, IterationsAt;
    ExecutorDecides(g, cfg, d, e, inp);
    LeavingSpeaks(g, cfg, e, Step(g, cfg, d, e, inp), e.pc.chosen, inp.now);
  }

  lemma LeavingSpeaks(g: PhaseGraph, cfg: Config, e: Engine, o: Outcome, chosen: Option<PhaseId>, now: Time)
    requires Running(e)
    ensures forall targets :: Leaves(g, cfg, e, o, targets, chosen, now) ==> o.out != []
    ensures forall status :: Outcomes.Closes(cfg, e, o, [], status, now) ==> o.out != []
  {
  }

  // ---- What every move has behind it ----------------------------------------------------------

  /** An executor phase is left for one of its targets, over the floor, at the threshold or, where the role had to
      choose, at the cap. */
  predicate WorkedFor(cfg: Config, p: PhaseDefinition, st: SessionState, t: PhaseId) {
    && t in p.onComplete
    && HasWorked(st) && !UnderFloor(cfg, st)
    && (ScoreOf(st) >= cfg.threshold || (|p.onComplete| > 1 && Used(st) >= cfg.maxIterations))
  }

  /** A decision leads to a phase: forward on an approval, back on a request for changes, where one is named there. */
  predicate DecidedFor(p: PhaseDefinition, r: ReviewEntry, t: PhaseId) {
    && r.phaseId == p.phaseId
    && (r.decision == Some(Approve) || r.decision == Some(RequestChanges))
    && t in (if r.decision == Some(Approve) then p.onApprove else p.canRequestChangesFrom)
  }

  /** An automated review phase is left on its last verdict; back only while it has feedback rounds left, and to the
      phase the verdict names if it names one. */
  predicate JudgedFor(cfg: Config, p: PhaseDefinition, st: SessionState, t: PhaseId) {
    && st.reviews != []
    && var last := st.reviews[|st.reviews| - 1];
    && DecidedFor(p, last, t)
    && (last.decision == Some(RequestChanges) ==>
          !RoundsUsedUp(cfg, p, st.feedbackLoops) && (last.targetPhase.Some? ==> t == last.targetPhase.value))
  }

  /** A human phase is left on the decision with its newest number, for the phase it names if it names one. */
  predicate HumanlyDecidedFor(p: PhaseDefinition, st: SessionState, t: PhaseId) {
    exists i :: 0 <= i < |st.reviews| && DecidedFor(p, st.reviews[i], t) &&
                st.reviews[i].review == |ReviewsAt(st.reviews, p.phaseId)| &&
                (st.reviews[i].targetPhase.Some? ==> t == st.reviews[i].targetPhase.value)
  }

  /** A save that sends a session in progress on has its reason in the snapshot before it. */
  predicate Earned(g: PhaseGraph, cfg: Config, before: SessionState, after: SessionState) {
    before.status.InProgress? && after == before.(currentPhase := after.currentPhase) ==>
      && Get(g, before.currentPhase).Some?
      && var p, t := Get(g, before.currentPhase).value, after.currentPhase;
      if p.kind.ExecutorKind? then WorkedFor(cfg, p, before, t)
      else if p.human then HumanlyDecidedFor(p, before, t)
      else JudgedFor(cfg, p, before, t)
  }

  /** So do all of a trace, each on the disk it finds. */
  predicate EarnsItsMoves(g: PhaseGraph, cfg: Config, d: Disk, trace: seq<Effect>)
    decreases |trace|
  {
    trace != [] ==>
      && (trace[0].StateWrite? && d.state.Some? ==> Earned(g, cfg, d.state.value, trace[0].state))
      && EarnsItsMoves(g, cfg, ApplyEffect(d, trace[0]), trace[1..])
  }

  lemma {:induction false} EarnsConcat(g: PhaseGraph, cfg: Config, d: Disk, a: seq<Effect>, b: seq<Effect>)
    requires EarnsItsMoves(g, cfg, d, a) && EarnsItsMoves(g, cfg, Apply(d, a), b)
    ensures EarnsItsMoves(g, cfg, d, a + b)
    decreases |a|
  {
    hide Earned;
    if a == [] {
      assert a + b == b;
    } else {
      assert (a + b)[1..] == a[1..] + b;
      EarnsConcat(g, cfg, ApplyEffect(d, a[0]), a[1..], b);
    }
  }

  lemma {:induction false} NoSaveEarns(g: PhaseGraph, cfg: Config, d: Disk, trace: seq<Effect>)
    requires NoSave(trace)
    ensures EarnsItsMoves(g, cfg, d, trace)
    decreases |trace|
  {
    if trace != [] {
      NoSaveEarns(g, cfg, ApplyEffect(d, trace[0]), trace[1..]);
    }
  }

  lemma {:induction false} OneSaveEarns(g: PhaseGraph, cfg: Config, d: Disk, before: seq<Effect>, s: Stored,
                                        tail: seq<Effect>)
    requires NoSave(before) && NoSave(tail)
    requires d.state.Some? ==> Earned(g, cfg, d.state.value, s.state)
    ensures EarnsItsMoves(g, cfg, d, before + [StateWrite(s.state), RevisionWrite(s.revision)] + tail)
  {
    hide Earned;
    var written := [StateWrite(s.state), RevisionWrite(s.revision)];
    NoSaveEarns(g, cfg, d, before);
    NoSaveKeepsState(d, before);
    assert written[1..] == [written[1]] && written[1..][1..] == [];
    var d1 := ApplyEffect(Apply(d, before), written[0]);
    assert EarnsItsMoves(g, cfg, ApplyEffect(d1, written[1]), []);
    assert EarnsItsMoves(g, cfg, d1, [written[1]]);
    EarnsConcat(g, cfg, d, before, written);
    NoSaveEarns(g, cfg, Apply(d, before + written), tail);
    EarnsConcat(g, cfg, d, before + written, tail);
  }

  // ---- Steps ----------------------------------------------------------------------------------

  lemma MoveIsEarned(g: PhaseGraph, cfg: Config, d: Disk, e: Engine, inp: Input)
    requires ValidGraph(g) && Sound(g, d, e) && Commits(cfg, d, e, inp)
    ensures Earned(g, cfg, e.held.state, ApplyCommit(e.held.state, CommitOf(cfg, d, e, inp)))
  {
    hide ValidGraph, WellFormed, WorkedFor, JudgedFor, HumanlyDecidedFor, PlanOf, Legal;
    PlanIsOk(g, cfg, d, e, inp);
    if CommitOf(cfg, d, e, inp).Move? {
      match e.pc
      case ExecTop(_, _) => IterationsMoveNowhere(cfg, d, e, inp);
      case ExecDecide(_, _, _, _) => ExecutorMoves(g, cfg, d, e, inp);
      case ReviewTop(_) => ReviewMoves(g, cfg, d, e, inp);
      case ReviewDecide(_, _, _) => VerdictMoves(g, cfg, d, e, inp);
    } else {
      OthersMoveNothing(g, e.held.state, CommitOf(cfg, d, e, inp));
    }
  }

  lemma OthersMoveNothing(g: PhaseGraph, st: SessionState, c: Commit)
    requires Legal(g, st, c) && !c.Move?
    ensures !(st.status.InProgress? && ApplyCommit(st, c) == st.(currentPhase := ApplyCommit(st, c).currentPhase))
  {
    hide IterationOk, ReviewOk, ValidPayload;
    if c.Iterate? {
      assert |ApplyCommit(st, c).iterations| == |st.iterations| + 1;
    } else if c.Judge? || c.Stub? {
      assert |ApplyCommit(st, c).reviews| == |st.reviews| + 1;
    }
  }

  lemma IterationsMoveNowhere(cfg: Config, d: Disk, e: Engine, inp: Input)
    requires e.pc.ExecTop? && Commits(cfg, d, e, inp)
    ensures !CommitOf(cfg, d, e, inp).Move?
  {
    hide HistoryFor, AfterIteration;
  }

  lemma ExecutorMoves(g: PhaseGraph, cfg: Config, d: Disk, e: Engine, inp: Input)
    requires Sound(g, d, e) && e.pc.ExecDecide? && Commits(cfg, d, e, inp) && CommitOf(cfg, d, e, inp).Move?
    ensures WorkedFor(cfg, e.pc.phase, e.held.state, CommitOf(cfg, d, e, inp).target)
  {
    hide WellFormed, IterationsAt, CountIterations;
    DecidesOnHistory(g, d, e);
  }

  lemma VerdictMoves(g: PhaseGraph, cfg: Config, d: Disk, e: Engine, inp: Input)
    requires Sound(g, d, e) && e.pc.ReviewDecide? && Commits(cfg, d, e, inp) && CommitOf(cfg, d, e, inp).Move?
    ensures JudgedFor(cfg, e.pc.phase, e.held.state, CommitOf(cfg, d, e, inp).target)
  {
    hide WellFormed;
  }

  lemma ReviewMoves(g: PhaseGraph, cfg: Config, d: Disk, e: Engine, inp: Input)
    requires Sound(g, d, e) && e.pc.ReviewTop? && Commits(cfg, d, e, inp) && CommitOf(cfg, d, e, inp).Move?
    ensures e.pc.phase.human && HumanlyDecidedFor(e.pc.phase, e.held.state, CommitOf(cfg, d, e, inp).target)
  {
    hide WellFormed, HumanDecision, PlanVerdict, HistoryFor, ReviewsAt;
    SoundNumbersReviews(g, d, e);
    WaitingIsFound(e);
    VerdictsMoveNothing(e, inp);
    var i :| Waiting(e, i) && HumanDecision(e, e.pc.phase) == Some(e.held.state.reviews[i]);
    assert DecidedFor(e.pc.phase, e.held.state.reviews[i], CommitOf(cfg, d, e, inp).target);
  }

  lemma VerdictsMoveNothing(e: Engine, inp: Input)
    requires e.pc.ReviewTop?
    ensures inp.review.Returned? && inp.review.value.endedAt.Some? ==>
      forall asked :: var plan := PlanVerdict(e, e.pc.phase, inp, inp.review.value, asked);
                      plan.Save? ==> plan.commit.Judge?
  {
  }

  lemma {:induction false} StepEarns(g: PhaseGraph, cfg: Config, d: Disk, e: Engine, inp: Input)
    requires ValidGraph(g) && Sound(g, d, e)
    ensures EarnsItsMoves(g, cfg, d, Step(g, cfg, d, e, inp).out)
  {
    hide ValidGraph, Step, PlanOf, WellFormed, PcOk, Earned, Groundwork, Aftermath;
    var o := Step(g, cfg, d, e, inp);
    var before, tail := StepShape(g, cfg, d, e, inp);
    OrderedIsNoSave(before, tail);
    if Commits(cfg, d, e, inp) {
      MoveIsEarned(g, cfg, d, e, inp);
      OneSaveEarns(g, cfg, d, before, o.next.held, tail);
    } else {
      NoSaveEarns(g, cfg, d, before + tail);
    }
  }

  lemma {:induction false} ExecEarns(g: PhaseGraph, cfg: Config, d: Disk, e: Engine, inputs: seq<Input>)
    requires ValidGraph(g) && Sound(g, d, e)
    ensures EarnsItsMoves(g, cfg, d, Exec(g, cfg, d, e, inputs).trace)
    decreases |inputs|
  {
    hide ValidGraph, Step, Sound, Earned;
    if inputs != [] && Running(e) {
      var o := Step(g, cfg, d, e, inputs[0]);
      StepEarns(g, cfg, d, e, inputs[0]);
      StepKeepsSound(g, cfg, d, e, inputs[0]);
      ExecEarns(g, cfg, Apply(d, o.out), o.next, inputs[1..]);
      EarnsConcat(g, cfg, d, o.out, Exec(g, cfg, Apply(d, o.out), o.next, inputs[1..]).trace);
    }
  }

  // ---- Runs -----------------------------------------------------------------------------------

  lemma {:induction false} BeginningEarns(g: PhaseGraph, cfg: Config, d: Disk, o: Outcome, before: seq<Effect>,
                                          s: Stored, req: RunRequest)
    requires Outcomes.Begins(g, o, before, s, req) && EarnsItsMoves(g, cfg, d, before)
    requires Apply(d, before).state == Some(s.state) && s.state.status.Initialized?
    ensures EarnsItsMoves(g, cfg, d, o.out)
  {
    hide EarnsItsMoves, Apply;
    var d1, written := Apply(d, before), o.out[|before|..|before| + 2];
    var said := o.out[|before| + 2..];
    assert o.out == before + ([] + written + said);
    OneSaveEarns(g, cfg, d1, [], o.next.held, said);
    EarnsConcat(g, cfg, d, before, [] + written + said);
  }

  lemma {:induction false} BootEarns(g: PhaseGraph, cfg: Config, d: Disk, req: RunRequest)
    requires ValidGraph(g) && DiskOk(g, d)
    ensures EarnsItsMoves(g, cfg, d, Boot(g, cfg, d, req).out)
  {
    hide ValidPhase, Boot, Outcomes.Begins, NumberedIterations, NumberedReviews, IterationOk, ReviewOk, Exec, Earned,
      AutomatedChanges, IterationsAt, Valid, Loadable;
    var o := Boot(g, cfg, d, req);
    if d.state.None? {
      var st := NewSession(g, req);
      var created := [StateWrite(st), RevisionWrite(0)];
      FirstRun(g, cfg, d, req, []);
      OneSaveEarns(g, cfg, d, [], Stored(st, 0), []);
      assert [] + created + [] == created;
      WritesBoth(d, Stored(st, 0));
      if req.preflight {
        BeginningEarns(g, cfg, d, o, created, Stored(st, 0), req);
      } else {
        OneSaveEarns(g, cfg, d, [], Stored(st, 0), o.out[2..]);
        assert [] + created + o.out[2..] == o.out;
      }
    } else {
      var s := Stored(d.state.value, ReadRevision(d));
      LaterRun(g, cfg, d, req, []);
      LoadableIsValid(s.state);
      if Valid(s.state) && s.state.sessionId == req.sessionId && req.preflight && s.state.status.Initialized? {
        NoSaveEarns(g, cfg, d, []);
        NothingDone(d);
        BeginningEarns(g, cfg, d, o, [], s, req);
      } else {
        assert s.state.status.Initialized? ==> NoSave(o.out);
        assert s.state.status.InProgress? ==> NoSave(o.out);
        NoSaveEarns(g, cfg, d, o.out);
      }
    }
  }

  /** Whenever a run, from any stored session, sends the session on from a phase, the snapshot before says why: an
      iteration that earned it, a verdict within the feedback limit, or a human decision. */
  lemma {:induction false} MovesAreEarned(g: PhaseGraph, cfg: Config, d: Disk, req: RunRequest, inputs: seq<Input>)
    requires ValidGraph(g) && DiskOk(g, d)
    ensures EarnsItsMoves(g, cfg, d, Session(g, cfg, d, req, inputs).trace)
  {
    hide ValidGraph, Boot, Exec, DiskOk, Earned;
    var o := Boot(g, cfg, d, req);
    BootKeepsSound(g, cfg, d, req);
    BootEarns(g, cfg, d, req);
    ExecEarns(g, cfg, Apply(d, o.out), o.next, inputs);
    EarnsConcat(g, cfg, d, o.out, Exec(g, cfg, Apply(d, o.out), o.next, inputs).trace);
  }

  // ---- Calls up to the cap --------------------------------------------------------------------

  /** A result that is committed and leaves the phase unsatisfied: not under the floor, but below the threshold, and
      without a question. */
  predicate Unsatisfying(cfg: Config, e: Engine, inp: Input)
    requires Running(e)
  {
    && inp.signal.Continue? && inp.execution.Returned?
    && var r := inp.execution.value;
    && InTurn(e.pc.phase, inp, r.roleId, r.endedAt) && !HandoffMissing(cfg, e, r)
    && 0 <= r.confidenceScore <= 100 && r.confidenceScore < cfg.threshold
    && (cfg.floor.Some? ==> r.confidenceScore >= cfg.floor.value)
    && r.pendingQuestion.None?
  }

  /** An executor at its loop top, whose requests can be built. */
  predicate AtWork(g: PhaseGraph, d: Disk, e: Engine) {
    && Sound(g, d, e) && DiskIntact(g, d)
    && e.pc.ExecTop? && e.pc.phase.onComplete != []
    && AutomatedFeedback(g, e.held.state, e.pc.phase.phaseId)
  }

  lemma RequestIsShown(g: PhaseGraph, d: Disk, e: Engine) returns (previous: Option<DecisionPayload>)
    requires AtWork(g, d, e)
    ensures Shown(d, e.held.state.reviews, e.pc.phase.phaseId, previous)
  {
    hide WellFormed, DiskIntact, AutomatedFeedback, Shown, HistoryFor;
    RequestsAreBuilt(g, d, e.pc.phase.phaseId);
    HistoryIsShown(d, e.held.state, e.pc.phase.phaseId);
    previous := HistoryFor(d, e.held.state, e.pc.phase.phaseId).value;
  }

  /** Only the iterations differ. */
  predicate SameButIterations(a: SessionState, b: SessionState) {
    a.(iterations := b.iterations) == b && a.iterations <= b.iterations
  }

  /** An unsatisfying turn calls the role once and commits one iteration. */
  lemma TurnCalls(g: PhaseGraph, cfg: Config, d: Disk, e: Engine, inp: Input)
    requires AtWork(g, d, e) && Unsatisfying(cfg, e, inp)
    ensures var o, st := Step(g, cfg, d, e, inp), e.held.state;
            && o.next.pc.ExecDecide? && o.next.pc.phase == e.pc.phase
            && SameButIterations(st, o.next.held.state)
            && |o.next.held.state.iterations| == |st.iterations| + 1
            && HasWorked(o.next.held.state) && ScoreOf(o.next.held.state) == inp.execution.value.confidenceScore
            && Used(o.next.held.state) == Used(st) + 1
            && Calls(o.out, e.pc.phase.phaseId) == 1
  {
    hide Step, DiskIntact, AutomatedFeedback, Shown, WellFormed, IterationsAt, Calls, HandoffMissing, Groundworks, InTurn;
    var o, st := Step(g, cfg, d, e, inp), e.held.state;
    var previous := RequestIsShown(g, d, e);
    var before, files := ExecutorIterates(g, cfg, d, e, inp, previous);
    var ask := AskExecutor(e.pc.phase.phaseId, st, previous);
    var entry := o.next.held.state.iterations[|st.iterations|];
    IterationsAtAppend(st.iterations, entry, st.currentPhase);
    GroundworksAsk(cfg, e, inp.execution.value, before, ask, files);
    assert o.out[1..] == before[1..] + o.out[|before|..];
    SilentMakesNoCall(o.out[1..], e.pc.phase.phaseId);
    AskedOnce(o.out, e.pc.phase.phaseId);
  }

  lemma GroundworksAsk(cfg: Config, e: Engine, r: ExecutionResult, before: seq<Effect>, ask: Effect, files: seq<Effect>)
    requires Running(e) && Groundworks(cfg, e, r, before, ask, files)
    ensures before != [] && before[0] == ask && Silent(before[1..])
  {
  }

  lemma {:induction false} AskedOnce(out: seq<Effect>, id: PhaseId)
    requires out != [] && out[0].AskExecutor? && out[0].phaseId == id && Calls(out[1..], id) == 0
    ensures Calls(out, id) == 1
  {
  }

  /** Both steps of a turn that leaves iterations: the role is called once, and stands to be called again. */
  lemma {:induction false} TurnRepeats(g: PhaseGraph, cfg: Config, d: Disk, e: Engine, inputs: seq<Input>)
    requires ValidGraph(g) && ApartIds(g) && AtWork(g, d, e)
    requires |inputs| == 2 && Unsatisfying(cfg, e, inputs[0]) && Used(e.held.state) + 1 < cfg.maxIterations
    ensures var r := Exec(g, cfg, d, e, inputs);
            && AtWork(g, r.disk, r.engine) && r.engine.pc.phase == e.pc.phase
            && SameButIterations(e.held.state, r.engine.held.state)
            && |r.engine.held.state.iterations| == |e.held.state.iterations| + 1
            && Used(r.engine.held.state) == Used(e.held.state) + 1
            && Calls(r.trace, e.pc.phase.phaseId) == 1
  {
    hide Step, ValidGraph, ApartIds, Sound, DiskIntact, AutomatedFeedback, Unsatisfying, Calls, Used, UnderFloor, HasWorked;
    var o := TwoSteps(g, cfg, d, e, inputs);
    var d1 := Apply(d, o.out);
    RetriesExactlyWhen(g, cfg, d1, o.next, inputs[1]);
    NothingDone(d1);
    StepKeepsSound(g, cfg, d1, o.next, inputs[1]);
    assert o.out + [] == o.out;
    StaysAtWork(g, d, e, d1, Step(g, cfg, d1, o.next, inputs[1]).next);
  }

  lemma StaysAtWork(g: PhaseGraph, d: Disk, e: Engine, d': Disk, e': Engine)
    requires AtWork(g, d, e) && Sound(g, d', e') && DiskIntact(g, d') && e'.pc.ExecTop? && e'.pc.phase == e.pc.phase
    requires e'.held.state.reviews == e.held.state.reviews
    ensures AtWork(g, d', e')
  {
    hide Sound, DiskIntact;
  }

  /** The first step of a turn, and the second one still to come. */
  lemma TwoSteps(g: PhaseGraph, cfg: Config, d: Disk, e: Engine, inputs: seq<Input>) returns (o: Outcome)
    requires ValidGraph(g) && ApartIds(g) && AtWork(g, d, e)
    requires |inputs| == 2 && Unsatisfying(cfg, e, inputs[0])
    ensures o == Step(g, cfg, d, e, inputs[0])
    ensures var d1 := Apply(d, o.out);
            var last := Step(g, cfg, d1, o.next, inputs[1]);
            && Exec(g, cfg, d, e, inputs) == Run(Apply(d1, last.out), last.next, o.out + last.out)
            && Sound(g, d1, o.next) && DiskIntact(g, d1)
            && o.next.pc.ExecDecide? && o.next.pc.phase == e.pc.phase
            && SameButIterations(e.held.state, o.next.held.state)
            && |o.next.held.state.iterations| == |e.held.state.iterations| + 1
            && HasWorked(o.next.held.state) && !UnderFloor(cfg, o.next.held.state)
            && ScoreOf(o.next.held.state) < cfg.threshold
            && Used(o.next.held.state) == Used(e.held.state) + 1
            && Calls(o.out, e.pc.phase.phaseId) == 1
  {
    hide Step, ValidGraph, ApartIds, Sound, DiskIntact, Calls, Used, SafeTrace, AutomatedFeedback;
    o := Step(g, cfg, d, e, inputs[0]);
    var d1 := Apply(d, o.out);
    TurnCalls(g, cfg, d, e, inputs[0]);
    StepKeepsSound(g, cfg, d, e, inputs[0]);
    StepIsSafe(g, cfg, d, e, inputs[0]);
    SafeKeeps(g, d, o.out);
    assert inputs[1..] == [inputs[1]] && inputs[1..][1..] == [];
    var last := Step(g, cfg, d1, o.next, inputs[1]);
    assert Exec(g, cfg, Apply(d1, last.out), last.next, []) == Run(Apply(d1, last.out), last.next, []);
    assert last.out + [] == last.out;
    assert Exec(g, cfg, d1, o.next, inputs[1..]) == Run(Apply(d1, last.out), last.next, last.out);
  }

  /** While it has iterations left, an executor that stays unsatisfied is called once in every turn. */
  lemma {:induction false} UnsatisfiedIsAskedAgain(g: PhaseGraph, cfg: Config, d: Disk, e: Engine, inputs: seq<Input>,
                                                   turns: nat)
    requires ValidGraph(g) && ApartIds(g) && AtWork(g, d, e)
    requires |inputs| == 2 * turns && forall i :: 0 <= i < turns ==> Unsatisfying(cfg, e, inputs[2 * i])
    requires turns > 0 ==> Used(e.held.state) + turns < cfg.maxIterations
    ensures var r := Exec(g, cfg, d, e, inputs);
            && AtWork(g, r.disk, r.engine) && r.engine.pc.phase == e.pc.phase
            && SameButIterations(e.held.state, r.engine.held.state)
            && |r.engine.held.state.iterations| == |e.held.state.iterations| + turns
            && Used(r.engine.held.state) == Used(e.held.state) + turns
            && Calls(r.trace, e.pc.phase.phaseId) == turns
    decreases turns
  {
    hide ValidGraph, ApartIds, Sound, DiskIntact, AutomatedFeedback, Unsatisfying, Used, Step;
    if turns > 0 {
      var first, rest := inputs[..2], inputs[2..];
      assert first[0] == inputs[2 * 0];
      TurnRepeats(g, cfg, d, e, first);
      var a := Exec(g, cfg, d, e, first);
      SameDemands(cfg, e, a.engine);
      forall i | 0 <= i < turns - 1 ensures Unsatisfying(cfg, a.engine, rest[2 * i]) {
        assert rest[2 * i] == inputs[2 * (i + 1)];
      }
      UnsatisfiedIsAskedAgain(g, cfg, a.disk, a.engine, rest, turns - 1);
      assert first + rest == inputs;
      ExecConcat(g, cfg, d, e, first, rest);
      CallsConcat(a.trace, Exec(g, cfg, a.disk, a.engine, rest).trace, e.pc.phase.phaseId);
    }
  }

  lemma SameDemands(cfg: Config, e: Engine, e': Engine)
    requires Running(e) && Running(e') && e'.pc.phase == e.pc.phase
    requires SameButIterations(e.held.state, e'.held.state)
    ensures forall inp :: Unsatisfying(cfg, e', inp) <==> Unsatisfying(cfg, e, inp)
  {
  }

  /** An executor with one way on that stays unsatisfied is called exactly as often as it has iterations left, and once
      if it has none; then the session fails. */
  lemma {:induction false} UnsatisfiedFailsAtTheCap(g: PhaseGraph, cfg: Config, d: Disk, e: Engine, inputs: seq<Input>,
                                            turns: nat)
    requires ValidGraph(g) && ApartIds(g) && AtWork(g, d, e) && |e.pc.phase.onComplete| == 1
    requires turns == Max(1, cfg.maxIterations - Used(e.held.state)) && 2 * turns <= |inputs|
    requires forall i :: 0 <= i < turns ==> Unsatisfying(cfg, e, inputs[2 * i])
    ensures var r := Exec(g, cfg, d, e, inputs);
            && Calls(r.trace, e.pc.phase.phaseId) == turns
            && r.engine.pc.Finished? && r.disk.state == Some(r.engine.held.state)
            && r.engine.held.state.status.Failed?
            && |r.engine.held.state.iterations| == |e.held.state.iterations| + turns
  {
    hide ValidGraph, ApartIds, Sound, DiskIntact, AutomatedFeedback, Unsatisfying, Used, Step, Calls, Exec;
    var many, last, rest := inputs[..2 * turns - 2], inputs[2 * turns - 2..2 * turns], inputs[2 * turns..];
    assert inputs == many + (last + rest);
    assert forall i :: 0 <= i < turns - 1 ==> many[2 * i] == inputs[2 * i];
    UnsatisfiedIsAskedAgain(g, cfg, d, e, many, turns - 1);
    var a := Exec(g, cfg, d, e, many);
    SameDemands(cfg, e, a.engine);
    assert last[0] == inputs[2 * (turns - 1)];
    LastTurnFails(g, cfg, a.disk, a.engine, last);
    var b := Exec(g, cfg, a.disk, a.engine, last);
    Stopped(g, cfg, b.disk, b.engine, rest);
    ExecConcat(g, cfg, a.disk, a.engine, last, rest);
    ExecConcat(g, cfg, d, e, many, last + rest);
    assert b.trace + [] == b.trace;
    CallsConcat(a.trace, b.trace, e.pc.phase.phaseId);
  }

  lemma {:induction false} LastTurnFails(g: PhaseGraph, cfg: Config, d: Disk, e: Engine, inputs: seq<Input>)
    requires ValidGraph(g) && ApartIds(g) && AtWork(g, d, e) && |e.pc.phase.onComplete| == 1
    requires |inputs| == 2 && Unsatisfying(cfg, e, inputs[0]) && Used(e.held.state) + 1 >= cfg.maxIterations
    ensures var r := Exec(g, cfg, d, e, inputs);
            && Calls(r.trace, e.pc.phase.phaseId) == 1
            && r.engine.pc.Finished? && r.disk.state == Some(r.engine.held.state)
            && r.engine.held.state.status.Failed?
            && |r.engine.held.state.iterations| == |e.held.state.iterations| + 1
  {
    hide Step, ValidGraph, ApartIds, Sound, DiskIntact, AutomatedFeedback, Unsatisfying, Calls, Used, UnderFloor, HasWorked;
    var o := TwoSteps(g, cfg, d, e, inputs);
    var d1 := Apply(d, o.out);
    ExecutorDecides(g, cfg, d1, o.next, inputs[1]);
    var last := Step(g, cfg, d1, o.next, inputs[1]);
    hide Outcomes.Closes;
    FailingCallsNobody(cfg, d1, o.next, last, inputs[1].now, e.pc.phase.phaseId);
    CallsConcat(o.out, last.out, e.pc.phase.phaseId);
  }

  lemma {:induction false} FailingCallsNobody(cfg: Config, d: Disk, e: Engine, o: Outcome, now: Time, id: PhaseId)
    requires Outcomes.Closes(cfg, e, o, [], Failed, now)
    ensures Calls(o.out, id) == 0 && Apply(d, o.out).state == Some(o.next.held.state)
    ensures o.next.pc.Finished? && o.next.held.state.status.Failed?
    ensures o.next.held.state.iterations == e.held.state.iterations
  {
    hide Calls, Apply;
    var said := o.out[2..];
    assert [] + [StateWrite(o.next.held.state), RevisionWrite(o.next.held.revision)] + said == o.out;
    SaveLands(d, [], o.next.held, said);
    SilentMakesNoCall(o.out, id);
  }
}
