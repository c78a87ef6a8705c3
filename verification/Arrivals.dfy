/** What a run makes of a human phase: the decision it finds there is used once, and the next arrival writes one
    stub and ends the run. */
module Arrivals {
  import opened Wrappers
  import opened Graph
  import opened State
  import opened Events
  import opened Disk
  import opened Machine
  import opened Invariants
  import opened Sessions
  import opened Termination
  import opened Replay
  import opened HumanGate

  predicate Departs(ev: Event, id: PhaseId) { ev.PhaseTransitioned? && ev.fromPhaseId == id }

  /** No event of a log is about leaving or entering a phase. */
  predicate Elsewhere(log: seq<Event>) {
    forall i :: 0 <= i < |log| ==> !log[i].PhaseTransitioned? && !log[i].PhaseStarted?
  }

  predicate Arrives(ev: Event, id: PhaseId) { ev.PhaseStarted? && ev.phaseId == id }

  /** Nothing, or the report of one stub with a given number. */
  predicate StubAtMost(log: seq<Event>, id: PhaseId, number: int) {
    log == [] || (|log| == 1 && log[0].HumanReviewPending? && log[0].phaseId == id && log[0].review == number)
  }

  /** The first arrival ends the log, but for the report of one stub with the next number. */
  predicate Settles(log: seq<Event>, id: PhaseId, n: nat)
    decreases |log|
  {
    log != [] ==>
      if Arrives(log[0], id) then StubAtMost(log[1..], id, n + 1) else Settles(log[1..], id, n)
  }

  /** After the first departure from a phase the log settles. */
  predicate LeavesOnce(log: seq<Event>, id: PhaseId, n: nat)
    decreases |log|
  {
    log != [] ==>
      if Departs(log[0], id) then Settles(log[1..], id, n) else LeavesOnce(log[1..], id, n)
  }

  lemma {:induction false} SettlesSkip(a: seq<Event>, b: seq<Event>, id: PhaseId, n: nat)
    requires Elsewhere(a)
    ensures Settles(a + b, id, n) == Settles(b, id, n)
    decreases |a|
  {
    if a == [] {
      assert a + b == b;
    } else {
      assert (a + b)[1..] == a[1..] + b;
      assert !a[0].PhaseStarted?;
      SettlesSkip(a[1..], b, id, n);
    }
  }

  lemma {:induction false} LeavesSkip(a: seq<Event>, b: seq<Event>, id: PhaseId, n: nat)
    requires forall i :: 0 <= i < |a| ==> !Departs(a[i], id)
    ensures LeavesOnce(a + b, id, n) == LeavesOnce(b, id, n)
    decreases |a|
  {
    if a == [] {
      assert a + b == b;
    } else {
      assert (a + b)[1..] == a[1..] + b;
      LeavesSkip(a[1..], b, id, n);
    }
  }

  /** A human review phase of the graph. */
  predicate Gate(g: PhaseGraph, id: PhaseId) {
    IsHuman(g, id) && Get(g, id).value.kind.ReviewKind?
  }

  /** The run stands before the phase. */
  predicate AtGate(e: Engine, id: PhaseId) { e.pc.ReviewTop? && e.pc.phase.phaseId == id }

  /** The run has used up the decision of the phase. */
  predicate Used(e: Engine, id: PhaseId, n: nat) {
    CountReviews(e.held.state.reviews, id) == n && (id, n as int) in e.applied
  }

  /** Where a run may end with respect to the phase: no stub was added, or one and the run is paused in progress. */
  predicate OneStubPauses(e: Engine, id: PhaseId, n: nat) {
    var m := CountReviews(e.held.state.reviews, id);
    m == n || (m == n + 1 && e.pc.Paused? && e.held.state.status.InProgress?)
  }

  // ---- One step -------------------------------------------------------------------------------

  predicate MovesBy(cfg: Config, d: Disk, e: Engine, inp: Input) {
    Commits(cfg, d, e, inp) && CommitOf(cfg, d, e, inp).Move?
  }

  lemma MovesEnter(cfg: Config, d: Disk, e: Engine, inp: Input)
    requires MovesBy(cfg, d, e, inp)
    ensures PlanOf(cfg, d, e, inp).next.Enter?
  {
    hide HumanDecision, HistoryFor, AfterIteration, ValidPayload, ResolveReview;
  }

  /** A move says where it leads, and stands there. */
  lemma MoveStep(g: PhaseGraph, cfg: Config, d: Disk, e: Engine, inp: Input)
    requires ValidGraph(g) && Sound(g, d, e) && MovesBy(cfg, d, e, inp)
    ensures var o, c := Step(g, cfg, d, e, inp), CommitOf(cfg, d, e, inp);
            var log := EventsOf(o.out);
            && |log| == 2
            && log[0].PhaseTransitioned? && log[0].fromPhaseId == c.source
            && log[1].PhaseStarted? && log[1].phaseId == c.target
            && (o.next.pc.ExecTop? || o.next.pc.ReviewTop?) && o.next.pc.phase.phaseId == c.target
            && (Gate(g, c.target) ==> o.next.pc.ReviewTop?)
  {
    hide PlanOf, ValidGraph, WellFormed, PcOk, Legal, MarkApplied;
    var c := CommitOf(cfg, d, e, inp);
    var end := StepSays(g, cfg, d, e, inp);
    CommitIsKnown(g, cfg, d, e, inp);
    MovesEnter(cfg, d, e, inp);
    MoveLands(g, cfg, d, e, inp);
  }

  lemma {:induction false} MoveLands(g: PhaseGraph, cfg: Config, d: Disk, e: Engine, inp: Input)
    requires Sound(g, d, e) && MovesBy(cfg, d, e, inp) && PlanOf(cfg, d, e, inp).next.Enter?
    requires Get(g, CommitOf(cfg, d, e, inp).target).Some?
    ensures var n, t := Step(g, cfg, d, e, inp).next, CommitOf(cfg, d, e, inp).target;
            && (n.pc.ExecTop? || n.pc.ReviewTop?) && n.pc.phase == Get(g, t).value
            && (Get(g, t).value.kind.ReviewKind? ==> n.pc.ReviewTop?)
  {
    hide PlanOf, WellFormed, PcOk, Announce, HumanDecision;
    MarkedSame(e);
  }

  /** Any other step says nothing about leaving or entering, and does not come to a review phase. */
  lemma OtherStep(g: PhaseGraph, cfg: Config, d: Disk, e: Engine, inp: Input)
    requires ValidGraph(g) && Sound(g, d, e) && Running(e) && !MovesBy(cfg, d, e, inp)
    ensures var o := Step(g, cfg, d, e, inp);
            var log := EventsOf(o.out);
            && Elsewhere(log)
            && !o.next.pc.ReviewTop?
  {
    hide Step, PlanOf, ValidGraph, WellFormed, PcOk, Said, MarkApplied;
    var end := StepSays(g, cfg, d, e, inp);
    if Commits(cfg, d, e, inp) {
      CommitIsKnown(g, cfg, d, e, inp);
      OtherCommitsSay(g, Step(g, cfg, d, e, inp).next, CommitOf(cfg, d, e, inp), inp.now);
    }
    if Running(Step(g, cfg, d, e, inp).next) {
      OtherStepsStay(g, cfg, d, e, inp);
    }
  }

  lemma OtherCommitsSay(g: PhaseGraph, n: Engine, c: Commit, now: Time)
    requires KnownPhase(g, n.held.state, c) && !c.Begin? && !c.Move?
    ensures Elsewhere(Said(g, n, c, now))
  {
  }

  lemma OtherStepsStay(g: PhaseGraph, cfg: Config, d: Disk, e: Engine, inp: Input)
    requires Sound(g, d, e) && Running(e) && !MovesBy(cfg, d, e, inp)
    requires Running(Step(g, cfg, d, e, inp).next)
    ensures !Step(g, cfg, d, e, inp).next.pc.ReviewTop?
  {
    hide Step, PlanOf, WellFormed, MarkApplied;
    StepShapeOnward(g, cfg, d, e, inp);
    var before, tail := StepShape(g, cfg, d, e, inp);
    MarkedSame(e);
    PlanIsOk(g, cfg, d, e, inp);
    if PlanOf(cfg, d, e, inp).Save? {
      SavesOnlyWhenRunning(g, cfg, d, e, inp);
    }
    match e.pc
    case ExecTop(_, _) => ExecTopShape(cfg, d, e, inp);
    case ExecDecide(_, _, _, _) => ExecDecideShape(g, cfg, d, e, inp);
    case ReviewTop(_) =>
      PlanAtReviewTop(cfg, d, e, inp);
      ReviewTopShape(g, d, e, inp);
    case ReviewDecide(_, _, _) => ReviewDecideShape(g, cfg, d, e, inp);
  }

  lemma SavesOnlyWhenRunning(g: PhaseGraph, cfg: Config, d: Disk, e: Engine, inp: Input)
    requires Sound(g, d, e) && Running(e) && PlanOf(cfg, d, e, inp).Save?
    ensures Commits(cfg, d, e, inp)
  {
    hide PlanOf, WellFormed, PcOk;
  }

  /** Only an arrival at the phase adds a review to it. */
  lemma {:induction false} StepCounts(g: PhaseGraph, cfg: Config, d: Disk, e: Engine, inp: Input, id: PhaseId)
    requires ValidGraph(g) && Sound(g, d, e) && Running(e) && Gate(g, id) && !AtGate(e, id)
    ensures CountReviews(Step(g, cfg, d, e, inp).next.held.state.reviews, id) == CountReviews(e.held.state.reviews, id)
  {
    hide Step, PlanOf, ValidGraph, WellFormed, NextReview;
    var before, tail := StepShape(g, cfg, d, e, inp);
    if Commits(cfg, d, e, inp) {
      PlanIsOk(g, cfg, d, e, inp);
      var c := CommitOf(cfg, d, e, inp);
      if c.Stub? {
        CountReviewsAppend(e.held.state.reviews, c.stub, id);
      } else {
        SameCount(g, e.held.state, c, id);
      }
    }
  }

  /** At the phase itself, a decision keeps the count. */
  lemma ApplyingCounts(g: PhaseGraph, cfg: Config, d: Disk, e: Engine, inp: Input, id: PhaseId)
    requires Sound(g, d, e) && AtGate(e, id) && HumanDecision(e, e.pc.phase).Some?
    ensures Step(g, cfg, d, e, inp).next.held.state.reviews == e.held.state.reviews
  {
    hide Step, WellFormed, HumanDecision;
    DecisionOnlyMoves(g, cfg, d, e, inp);
  }

  lemma StepForgetsNothing(g: PhaseGraph, cfg: Config, d: Disk, e: Engine, inp: Input)
    requires Running(e) && Running(Step(g, cfg, d, e, inp).next)
    ensures Step(g, cfg, d, e, inp).next.applied == MarkApplied(e).applied >= e.applied
  {
    hide Step, PlanOf, HumanDecision;
    StepShapeOnward(g, cfg, d, e, inp);
  }

  /** At a phase whose decision is used the run writes the next stub and is done. */
  lemma {:induction false} UsedGateStubs(g: PhaseGraph, cfg: Config, d: Disk, e: Engine, inp: Input, id: PhaseId,
                                         n: nat)
    requires ValidGraph(g) && Sound(g, d, e) && Gate(g, id) && AtGate(e, id) && HumanDecision(e, e.pc.phase).None?
    requires CountReviews(e.held.state.reviews, id) == n
    ensures var o := Step(g, cfg, d, e, inp);
            && StubAtMost(EventsOf(o.out), id, n + 1) && EventsOf(o.out) != []
            && o.next.pc.Paused? && OneStubPauses(o.next, id, n)
  {
    hide Step, PlanOf, ValidGraph, HumanDecision, NumberedIterations, NumberedReviews, Loadable, IterationOk, ReviewOk;
    GetFinds(g, e.held.state.currentPhase);
    ArrivalWritesOneStub(g, cfg, d, e, inp);
    var before, tail := StepShape(g, cfg, d, e, inp);
    CountReviewsAppend(e.held.state.reviews, StubFor(e.held.state, e.pc.phase, inp.now), id);
  }

  lemma UsedHasNoDecision(e: Engine, id: PhaseId, n: nat)
    requires NumberedReviews(e.held.state.reviews) && AtGate(e, id) && Used(e, id, n)
    ensures HumanDecision(e, e.pc.phase).None?
  {
    hide HumanDecision, NumberedReviews;
    DecisionHasNewestNumber(e, e.pc.phase);
  }

  // ---- Runs -----------------------------------------------------------------------------------

  lemma {:induction false} FirstOfRun(g: PhaseGraph, cfg: Config, d: Disk, e: Engine, inputs: seq<Input>)
    requires inputs != [] && Running(e)
    ensures var o := Step(g, cfg, d, e, inputs[0]);
            var rest := Exec(g, cfg, Apply(d, o.out), o.next, inputs[1..]);
            var r := Exec(g, cfg, d, e, inputs);
            && EventsOf(r.trace) == EventsOf(o.out) + EventsOf(rest.trace)
            && r.engine == rest.engine
            && (!Running(o.next) ==> rest.trace == [] && rest.engine == o.next)
  {
    hide Step;
    var o := Step(g, cfg, d, e, inputs[0]);
    EventsOfConcat(o.out, Exec(g, cfg, Apply(d, o.out), o.next, inputs[1..]).trace);
  }

  /** Once the decision of a phase is used. */
  lemma {:induction false} RunSettles(g: PhaseGraph, cfg: Config, d: Disk, e: Engine, inputs: seq<Input>, id: PhaseId,
                                      n: nat)
    requires ValidGraph(g) && Sound(g, d, e) && Gate(g, id)
    requires if Running(e) then Used(e, id, n) else OneStubPauses(e, id, n)
    ensures var r := Exec(g, cfg, d, e, inputs);
            var log := EventsOf(r.trace);
            && (AtGate(e, id) ==> StubAtMost(log, id, n + 1))
            && (!AtGate(e, id) ==> Settles(log, id, n))
            && OneStubPauses(r.engine, id, n)
    decreases |inputs|
  {
    hide ValidGraph, Step, Sound, Gate, MarkApplied, MovesBy;
    if inputs != [] && Running(e) {
      var o := Step(g, cfg, d, e, inputs[0]);
      var log := EventsOf(o.out);
      FirstOfRun(g, cfg, d, e, inputs);
      StepKeepsSound(g, cfg, d, e, inputs[0]);
      var d1 := Apply(d, o.out);
      var rest := EventsOf(Exec(g, cfg, d1, o.next, inputs[1..]).trace);
      if AtGate(e, id) {
        SoundIsNumbered(g, d, e);
        UsedHasNoDecision(e, id, n);
        UsedGateStubs(g, cfg, d, e, inputs[0], id, n);
        assert log + [] == log;
      } else {
        StepCounts(g, cfg, d, e, inputs[0], id);
        if Running(o.next) { StepForgetsNothing(g, cfg, d, e, inputs[0]); }
        RunSettles(g, cfg, d1, o.next, inputs[1..], id, n);
        StepSettles(g, cfg, d, e, inputs[0], id, n, rest);
      }
    }
  }

  lemma SoundIsNumbered(g: PhaseGraph, d: Disk, e: Engine)
    requires Sound(g, d, e) && Running(e)
    ensures NumberedReviews(e.held.state.reviews)
  {
    hide PcOk, NumberedReviews, NumberedIterations;
  }

  /** A step away from the phase: it comes to the phase, or says nothing about it. */
  lemma {:induction false} StepSettles(g: PhaseGraph, cfg: Config, d: Disk, e: Engine, inp: Input, id: PhaseId, n: nat,
                                       rest: seq<Event>)
    requires ValidGraph(g) && Sound(g, d, e) && Running(e) && Gate(g, id)
    requires var o := Step(g, cfg, d, e, inp);
             if AtGate(o.next, id) then StubAtMost(rest, id, n + 1) else Settles(rest, id, n)
    ensures Settles(EventsOf(Step(g, cfg, d, e, inp).out) + rest, id, n)
  {
    hide ValidGraph, Step, Sound, Gate, CommitOf;
    var o := Step(g, cfg, d, e, inp);
    var log := EventsOf(o.out);
    if MovesBy(cfg, d, e, inp) {
      MoveStep(g, cfg, d, e, inp);
      assert (log + rest)[1..] == [log[1]] + rest;
      assert ([log[1]] + rest)[1..] == rest;
    } else {
      OtherStep(g, cfg, d, e, inp);
      SettlesSkip(log, rest, id, n);
    }
  }

  /** The first departure uses the decision up. */
  lemma {:induction false} LeavingUses(g: PhaseGraph, cfg: Config, d: Disk, e: Engine, inp: Input, id: PhaseId)
    requires ValidGraph(g) && Sound(g, d, e) && Gate(g, id)
    requires MovesBy(cfg, d, e, inp) && CommitOf(cfg, d, e, inp).source == id
    ensures AtGate(e, id) && HumanDecision(e, e.pc.phase).Some?
    ensures Used(Step(g, cfg, d, e, inp).next, id, CountReviews(e.held.state.reviews, id))
  {
    hide ValidGraph, Step, PlanOf, HumanDecision, WellFormed, MarkApplied;
    MoveStep(g, cfg, d, e, inp);
    CommitIsKnown(g, cfg, d, e, inp);
    LeavingTakesTheDecision(g, cfg, d, e, inp, id);
    StepForgetsNothing(g, cfg, d, e, inp);
    LeavingIsDeciding(g, cfg, d, e, inp, id);
    ApplyingCounts(g, cfg, d, e, inp, id);
  }

  lemma LeavingIsDeciding(g: PhaseGraph, cfg: Config, d: Disk, e: Engine, inp: Input, id: PhaseId)
    requires Sound(g, d, e) && Gate(g, id) && MovesBy(cfg, d, e, inp)
    requires Legal(g, e.held.state, CommitOf(cfg, d, e, inp)) && CommitOf(cfg, d, e, inp).source == id
    ensures AtGate(e, id) && HumanDecision(e, e.pc.phase).Some?
  {
    hide PlanOf, HumanDecision, NumberedIterations, NumberedReviews, Loadable, IterationOk, ReviewOk;
    GateMoves(cfg, d, e, inp, id);
    PlanAtReviewTop(cfg, d, e, inp);
    MovesOnlyByDecision(d, e, inp);
  }

  /** Before the decision of a phase is used. */
  lemma {:induction false} RunLeavesOnce(g: PhaseGraph, cfg: Config, d: Disk, e: Engine, inputs: seq<Input>,
                                         id: PhaseId, n: nat)
    requires ValidGraph(g) && Sound(g, d, e) && Gate(g, id)
    requires if Running(e) then CountReviews(e.held.state.reviews, id) == n else OneStubPauses(e, id, n)
    ensures var r := Exec(g, cfg, d, e, inputs);
            LeavesOnce(EventsOf(r.trace), id, n) && OneStubPauses(r.engine, id, n)
    decreases |inputs|
  {
    hide ValidGraph, Step, Sound, Gate, MovesBy, HumanDecision, CommitOf;
    if inputs != [] && Running(e) {
      var o := Step(g, cfg, d, e, inputs[0]);
      var log := EventsOf(o.out);
      FirstOfRun(g, cfg, d, e, inputs);
      StepKeepsSound(g, cfg, d, e, inputs[0]);
      var d1 := Apply(d, o.out);
      var rest := EventsOf(Exec(g, cfg, d1, o.next, inputs[1..]).trace);
      if MovesBy(cfg, d, e, inputs[0]) && Source(cfg, d, e, inputs[0]) == id {
        LeavingUses(g, cfg, d, e, inputs[0], id);
        RunSettles(g, cfg, d1, o.next, inputs[1..], id, n);
        DepartureSettles(g, cfg, d, e, inputs[0], id, n, rest);
      } else {
        if AtGate(e, id) {
          GateCounts(g, cfg, d, e, inputs[0], id, n);
        } else {
          StepCounts(g, cfg, d, e, inputs[0], id);
        }
        RunLeavesOnce(g, cfg, d1, o.next, inputs[1..], id, n);
        OtherDeparts(g, cfg, d, e, inputs[0], id);
        LeavesSkip(log, rest, id, n);
      }
    }
  }

  function Source(cfg: Config, d: Disk, e: Engine, inp: Input): PhaseId
    requires MovesBy(cfg, d, e, inp)
  {
    CommitOf(cfg, d, e, inp).source
  }

  lemma {:induction false} GateCounts(g: PhaseGraph, cfg: Config, d: Disk, e: Engine, inp: Input, id: PhaseId, n: nat)
    requires ValidGraph(g) && Sound(g, d, e) && Gate(g, id) && AtGate(e, id)
    requires CountReviews(e.held.state.reviews, id) == n
    ensures var m := Step(g, cfg, d, e, inp).next;
            if Running(m) then CountReviews(m.held.state.reviews, id) == n else OneStubPauses(m, id, n)
  {
    hide ValidGraph, Step, Sound, Gate, HumanDecision;
    if HumanDecision(e, e.pc.phase).Some? {
      ApplyingCounts(g, cfg, d, e, inp, id);
    } else {
      UsedGateStubs(g, cfg, d, e, inp, id, n);
    }
  }

  lemma OtherDeparts(g: PhaseGraph, cfg: Config, d: Disk, e: Engine, inp: Input, id: PhaseId)
    requires ValidGraph(g) && Sound(g, d, e) && Running(e)
    requires !(MovesBy(cfg, d, e, inp) && Source(cfg, d, e, inp) == id)
    ensures var log := EventsOf(Step(g, cfg, d, e, inp).out); forall i :: 0 <= i < |log| ==> !Departs(log[i], id)
  {
    hide ValidGraph, Step, Sound, CommitOf;
    var log := EventsOf(Step(g, cfg, d, e, inp).out);
    if MovesBy(cfg, d, e, inp) {
      MoveStep(g, cfg, d, e, inp);
    } else {
      OtherStep(g, cfg, d, e, inp);
      assert Elsewhere(log);
    }
  }

  lemma {:induction false} DepartureSettles(g: PhaseGraph, cfg: Config, d: Disk, e: Engine, inp: Input, id: PhaseId,
                                            n: nat, rest: seq<Event>)
    requires ValidGraph(g) && Sound(g, d, e) && Gate(g, id)
    requires MovesBy(cfg, d, e, inp) && CommitOf(cfg, d, e, inp).source == id
    requires var o := Step(g, cfg, d, e, inp);
             if AtGate(o.next, id) then StubAtMost(rest, id, n + 1) else Settles(rest, id, n)
    ensures LeavesOnce(EventsOf(Step(g, cfg, d, e, inp).out) + rest, id, n)
  {
    hide ValidGraph, Step, Sound, Gate;
    var log := EventsOf(Step(g, cfg, d, e, inp).out);
    MoveStep(g, cfg, d, e, inp);
    assert (log + rest)[1..] == [log[1]] + rest;
    assert ([log[1]] + rest)[1..] == rest;
  }

  lemma BootKeepsReviews(g: PhaseGraph, cfg: Config, d: Disk, req: RunRequest)
    ensures Boot(g, cfg, d, req).next.held.state.reviews == LoadedState(g, d, req).state.reviews
  {
    hide Announce, Loadable;
  }

  lemma {:induction false} NoTransitionNoDeparting(trace: seq<Effect>, id: PhaseId)
    requires NoTransition(trace)
    ensures forall i :: 0 <= i < |EventsOf(trace)| ==> !Departs(EventsOf(trace)[i], id)
  {
    if trace != [] {
      NoTransitionNoDeparting(trace[1..], id);
    }
  }

  lemma BootDeparts(g: PhaseGraph, cfg: Config, d: Disk, req: RunRequest, id: PhaseId)
    ensures var log := EventsOf(Boot(g, cfg, d, req).out); forall i :: 0 <= i < |log| ==> !Departs(log[i], id)
  {
    NoTransitionNoDeparting(Boot(g, cfg, d, req).out, id);
  }

  /** A human phase in one run, whatever its decision leads back to. Let n be the number of its reviews when the run
      starts. After the first departure from the phase, the next arrival there is followed by nothing, or by
      exactly the report of one stub numbered n + 1. The run adds no review to the phase, or that one stub, and
      then it is paused with the session in progress. */
  lemma {:induction false} NextArrivalStubsAndStops(g: PhaseGraph, cfg: Config, d: Disk, req: RunRequest,
                                            inputs: seq<Input>, id: PhaseId)
    requires ValidGraph(g) && DiskOk(g, d) && Gate(g, id)
    ensures var r := Session(g, cfg, d, req, inputs);
            var n := CountReviews(LoadedState(g, d, req).state.reviews, id);
            LeavesOnce(EventsOf(r.trace), id, n) && OneStubPauses(r.engine, id, n)
  {
    hide ValidGraph, Boot, Exec, WellFormed, Gate, LoadedState, PcOk;
    BootKeepsSound(g, cfg, d, req);
    var o := Boot(g, cfg, d, req);
    var n := CountReviews(LoadedState(g, d, req).state.reviews, id);
    BootKeepsReviews(g, cfg, d, req);
    BootDeparts(g, cfg, d, req, id);
    RunLeavesOnce(g, cfg, Apply(d, o.out), o.next, inputs, id, n);
    var rest := Exec(g, cfg, Apply(d, o.out), o.next, inputs).trace;
    EventsOfConcat(o.out, rest);
    LeavesSkip(EventsOf(o.out), EventsOf(rest), id, n);
  }
}
