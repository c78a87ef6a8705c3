/** Every terminal status is justified by the history of the session and the last thing the run was told. */
module Verdicts {
  import opened Wrappers
  import opened Graph
  import opened State
  import opened Events
  import opened Disk
  import opened Machine
  import opened Invariants
  import opened Sessions
  import opened Termination

  predicate LastIterationOf(st: SessionState, id: PhaseId) {
    st.iterations != [] && st.iterations[|st.iterations| - 1].phaseId == id
  }

  function LastScore(st: SessionState): int
    requires st.iterations != []
  {
    st.iterations[|st.iterations| - 1].confidenceScore
  }

  predicate LastReviewOf(st: SessionState, id: PhaseId, decision: Decision) {
    && st.reviews != []
    && st.reviews[|st.reviews| - 1].phaseId == id
    && st.reviews[|st.reviews| - 1].decision == Some(decision)
  }

  /** Failed: the last iteration fell below the floor, or stayed below the threshold of a single-target phase
      until its iterations were used up. */
  predicate FailureJustified(g: PhaseGraph, cfg: Config, st: SessionState) {
    && Get(g, st.currentPhase).Some?
    && var p := Get(g, st.currentPhase).value;
    && p.kind.ExecutorKind? && p.onComplete != []
    && LastIterationOf(st, p.phaseId)
    && ((cfg.floor.Some? && LastScore(st) < cfg.floor.value) ||
        (LastScore(st) < cfg.threshold && |p.onComplete| == 1 &&
         CountIterations(st.iterations, p.phaseId) >= cfg.maxIterations))
  }

  /** Abandoned: the run was cancelled, or a reviewer asked for changes at or over the cap, or the finalize step
      of a discovery came back without a handoff. */
  predicate AbandonJustified(g: PhaseGraph, cfg: Config, st: SessionState, inp: Input) {
    && Get(g, st.currentPhase).Some?
    && var p := Get(g, st.currentPhase).value;
    (|| inp.signal.Cancel?
     || (p.kind.ReviewKind? && !p.human && LastReviewOf(st, p.phaseId, RequestChanges) &&
         RoundsUsedUp(cfg, p, st.feedbackLoops))
     || (p.kind.ExecutorKind? && p.phaseId == "finalize" && PackActive(cfg, st) &&
         inp.execution.Returned? && inp.execution.value.handoff.None?))
  }

  /** Completed: the phase had nowhere to go on to, and its work was done: an iteration committed, or the newest
      review an approval. */
  predicate CompletionJustified(g: PhaseGraph, st: SessionState) {
    && Get(g, st.currentPhase).Some?
    && var p := Get(g, st.currentPhase).value;
    && ForwardTargets(p) == []
    && (p.kind.ExecutorKind? ==> LastIterationOf(st, p.phaseId))
    && (p.kind.ReviewKind? && !p.human ==> LastReviewOf(st, p.phaseId, Approve))
    && (p.kind.ReviewKind? && p.human ==>
          exists i :: 0 <= i < |st.reviews| && st.reviews[i].phaseId == p.phaseId &&
                      st.reviews[i].review == CountReviews(st.reviews, p.phaseId) &&
                      st.reviews[i].decision == Some(Approve))
  }

  predicate Justified(g: PhaseGraph, cfg: Config, st: SessionState, inp: Input, status: Status) {
    match status
    case Failed => FailureJustified(g, cfg, st)
    case Abandoned => AbandonJustified(g, cfg, st, inp)
    case Completed => CompletionJustified(g, st)
    case Initialized => false
    case InProgress => false
  }

  // ---- Each step ------------------------------------------------------------------------------

  predicate Closes(cfg: Config, d: Disk, e: Engine, inp: Input) {
    Commits(cfg, d, e, inp) && CommitOf(cfg, d, e, inp).Close?
  }

  lemma ClosingIsJustified(g: PhaseGraph, cfg: Config, d: Disk, e: Engine, inp: Input)
    requires ValidGraph(g) && Sound(g, d, e) && Closes(cfg, d, e, inp)
    ensures Justified(g, cfg, e.held.state, inp, CommitOf(cfg, d, e, inp).status)
  {
    hide ValidGraph, IterationOk, ReviewOk, AutomatedChanges, NumberedIterations, Loadable;
    match e.pc
    case ExecTop(p, count) => ExecTopCloses(g, cfg, d, e, inp);
    case ExecDecide(p, count, score, chosen) =>
    case ReviewTop(p) => ReviewTopCloses(g, cfg, d, e, inp);
    case ReviewDecide(p, decision, next) =>
  }

  lemma ExecTopCloses(g: PhaseGraph, cfg: Config, d: Disk, e: Engine, inp: Input)
    requires Sound(g, d, e) && Closes(cfg, d, e, inp) && e.pc.ExecTop?
    ensures CommitOf(cfg, d, e, inp).status.Abandoned? && AbandonJustified(g, cfg, e.held.state, inp)
  {
    hide WellFormed, HistoryFor, AfterIteration;
  }

  /** A review phase closes on entry only on a human approval that leads nowhere. */
  lemma ReviewTopCloses(g: PhaseGraph, cfg: Config, d: Disk, e: Engine, inp: Input)
    requires Sound(g, d, e) && Closes(cfg, d, e, inp) && e.pc.ReviewTop?
    ensures CommitOf(cfg, d, e, inp).status.Completed? && CompletionJustified(g, e.held.state)
  {
    hide IterationOk, ReviewOk, AutomatedChanges, NumberedIterations, Loadable, HumanDecision, PlanVerdict;
    var p := e.pc.phase;
    PlanAtReviewTop(cfg, d, e, inp);
    ReviewTopShape(g, d, e, inp);
    if HumanDecision(e, p).None? { VerdictNeverCloses(d, e, p, inp); }
    DecisionHasNewestNumber(e, p);
    var r := HumanDecision(e, p).value;
    var i :| 0 <= i < |e.held.state.reviews| && e.held.state.reviews[i] == r;
  }

  lemma VerdictNeverCloses(d: Disk, e: Engine, p: PhaseDefinition, inp: Input)
    requires e.pc.ReviewTop? && HumanDecision(e, p).None?
    ensures var plan := PlanReviewTop(d, e, p, inp);
            plan.Save? ==> !plan.commit.Close?
  {
    hide HumanDecision, HistoryFor;
  }

  // ---- Exactly when ---------------------------------------------------------------------------

  /** A run fails in a step exactly when an iteration has just been committed and the floor, or the threshold and
      the cap, say so. */
  lemma FailsExactlyWhen(g: PhaseGraph, cfg: Config, d: Disk, e: Engine, inp: Input)
    requires ValidGraph(g) && Sound(g, d, e) && Running(e)
    ensures (Closes(cfg, d, e, inp) && CommitOf(cfg, d, e, inp).status.Failed?) <==>
            (e.pc.ExecDecide? && FailureJustified(g, cfg, e.held.state))
  {
    hide ValidGraph, WellFormed, PlanExecTop, PlanReviewTop;
    if Closes(cfg, d, e, inp) {
      if e.pc.ExecTop? { ExecTopCloses(g, cfg, d, e, inp); }
      if e.pc.ReviewTop? { ReviewTopCloses(g, cfg, d, e, inp); }
    }
  }

  /** A verdict is followed by abandoning the run exactly on a cancel signal, or without a pause when changes were
      requested and the feedback counter has reached the limit: the phase's own if it sets one other than 0, the
      run's otherwise. */
  lemma VerdictAbandonsExactlyWhen(g: PhaseGraph, cfg: Config, d: Disk, e: Engine, inp: Input)
    requires Sound(g, d, e) && e.pc.ReviewDecide?
    ensures var own, loops := e.pc.phase.maxFeedbackRounds, e.held.state.feedbackLoops;
            var asks := inp.signal.Continue? && LastReviewOf(e.held.state, e.pc.phase.phaseId, RequestChanges);
            var abandons := Closes(cfg, d, e, inp) && CommitOf(cfg, d, e, inp).status.Abandoned?;
            && (own.Some? && own.value != 0 ==> (abandons <==> inp.signal.Cancel? || (asks && loops >= own.value)))
            && (own.None? || own.value == 0 ==>
                  (abandons <==> inp.signal.Cancel? || (asks && loops >= cfg.maxFeedbackRounds)))
  {
    hide WellFormed;
  }

  // ---- Whole runs -----------------------------------------------------------------------------

  /** The step that closed a run. */
  lemma {:induction false} ExecClosesJustified(g: PhaseGraph, cfg: Config, d: Disk, e: Engine, inputs: seq<Input>)
    returns (st: SessionState, inp: Input)
    requires ValidGraph(g) && Sound(g, d, e) && Running(e)
    ensures var r := Exec(g, cfg, d, e, inputs);
            r.engine.pc.Finished? ==>
              && inp in inputs
              && st.status.InProgress?
              && Terminal(r.engine.held.state.status)
              && r.engine.held.state ==
                 st.(status := r.engine.held.state.status, completedAt := r.engine.held.state.completedAt)
              && r.disk.state == Some(r.engine.held.state)
              && Justified(g, cfg, st, inp, r.engine.held.state.status)
    decreases |inputs|
  {
    hide ValidGraph, Step, Sound, WellFormed, Justified;
    if inputs == [] {
      st, inp := e.held.state, Input(Continue, 0, 0, Raised, Raised);
    } else {
      var o := Step(g, cfg, d, e, inputs[0]);
      var d1 := Apply(d, o.out);
      StepKeepsSound(g, cfg, d, e, inputs[0]);
      if Running(o.next) {
        st, inp := ExecClosesJustified(g, cfg, d1, o.next, inputs[1..]);
      } else {
        st, inp := e.held.state, inputs[0];
        assert Exec(g, cfg, d1, o.next, inputs[1..]) == Run(d1, o.next, []);
        if o.next.pc.Finished? {
          FinishingCloses(g, cfg, d, e, inp);
          ClosingIsJustified(g, cfg, d, e, inp);
        }
      }
    }
  }

  lemma {:induction false} FinishingCloses(g: PhaseGraph, cfg: Config, d: Disk, e: Engine, inp: Input)
    requires ValidGraph(g) && Sound(g, d, e) && Running(e)
    requires Step(g, cfg, d, e, inp).next.pc.Finished?
    ensures Closes(cfg, d, e, inp)
    ensures var o := Step(g, cfg, d, e, inp);
            var c := CommitOf(cfg, d, e, inp);
            && e.held.state.status.InProgress? && Terminal(c.status)
            && o.next.held.state == ApplyCommit(e.held.state, c)
            && Apply(d, o.out).state == Some(o.next.held.state)
  {
    hide ValidGraph, WellFormed, PlanOf, Announce, PcOk;
    var before, tail := StepShape(g, cfg, d, e, inp);
    var plan := PlanOf(cfg, d, e, inp);
    PlanIsOk(g, cfg, d, e, inp);
    PlansFinishByClosing(cfg, d, e, inp);
  }

  lemma PlansFinishByClosing(cfg: Config, d: Disk, e: Engine, inp: Input)
    requires Running(e)
    ensures var plan := PlanOf(cfg, d, e, inp);
            && (plan.Save? && plan.next.At? ==> !plan.next.pc.Finished?)
            && (plan.Stay? ==> !plan.pc.Finished?)
            && (plan.Save? && plan.next.Enter? ==> plan.commit.Close? || plan.commit.Move?)
  {
    hide HumanDecision, HistoryFor, ValidPayload, ResolveReview;
  }

  /** A run that closes a session does so for a reason the history shows. */
  lemma ClosedRunsAreJustified(g: PhaseGraph, cfg: Config, d: Disk, req: RunRequest, inputs: seq<Input>)
    returns (st: SessionState, inp: Input)
    requires ValidGraph(g) && DiskOk(g, d) && !Rejected(d, req)
    requires d.state.Some? ==> !Terminal(d.state.value.status)
    requires Session(g, cfg, d, req, inputs).engine.pc.Finished?
    ensures var r := Session(g, cfg, d, req, inputs);
            && inp in inputs
            && st.status.InProgress?
            && r.disk.state == Some(r.engine.held.state)
            && r.engine.held.state ==
               st.(status := r.engine.held.state.status, completedAt := r.engine.held.state.completedAt)
            && Justified(g, cfg, st, inp, r.engine.held.state.status)
  {
    hide ValidGraph, WellFormed, Justified, Exec, Boot;
    BootKeepsSound(g, cfg, d, req);
    var o := Boot(g, cfg, d, req);
    BootRuns(g, cfg, d, req);
    assert !Running(o.next) ==> Exec(g, cfg, Apply(d, o.out), o.next, inputs) == Run(Apply(d, o.out), o.next, []) by {
      Stopped(g, cfg, Apply(d, o.out), o.next, inputs);
    }
    st, inp := ExecClosesJustified(g, cfg, Apply(d, o.out), o.next, inputs);
  }

  /** Starting or resuming a session that is not terminal never finishes by itself. */
  lemma BootRuns(g: PhaseGraph, cfg: Config, d: Disk, req: RunRequest)
    requires DiskOk(g, d) && !Rejected(d, req)
    requires d.state.Some? ==> !Terminal(d.state.value.status)
    ensures !Boot(g, cfg, d, req).next.pc.Finished?
  {
    hide Announce, IterationOk, ReviewOk, NumberedIterations, NumberedReviews;
  }
}
