/** Human review phases: within one run a decision drives at most one transition, and an arrival without a
    decision writes exactly one stub and stops. */
module HumanGate {
  import opened Wrappers
  import opened Graph
  import opened State
  import opened Events
  import opened Disk
  import opened Machine
  import opened Invariants
  import opened Sessions
  import opened Termination
  import opened Replay

  /** Transitions out of a phase in an event log. */
  function Departures(log: seq<Event>, id: PhaseId): nat {
    if log == [] then 0
    else Departures(log[1..], id) + if log[0].PhaseTransitioned? && log[0].fromPhaseId == id then 1 else 0
  }

  lemma {:induction false} DeparturesConcat(a: seq<Event>, b: seq<Event>, id: PhaseId)
    ensures Departures(a + b, id) == Departures(a, id) + Departures(b, id)
  {
    if a == [] {
      assert a + b == b;
    } else {
      assert (a + b)[1..] == a[1..] + b;
      DeparturesConcat(a[1..], b, id);
    }
  }

  /** Whether this run can still leave the human phase on the decision it holds. */
  function Passes(e: Engine, id: PhaseId): nat {
    if (id, CountReviews(e.held.state.reviews, id) as int) in e.applied then 0 else 1
  }

  lemma {:induction false} SaidDepartures(g: PhaseGraph, n: Engine, c: Commit, now: Time, id: PhaseId)
    requires KnownPhase(g, n.held.state, c)
    ensures Departures(Said(g, n, c, now), id) <= if c.Move? && c.source == id then 1 else 0
  {
    var said := Said(g, n, c, now);
    if |said| == 2 {
      assert said[1..] == [said[1]] && said[1..][1..] == [];
      assert Departures(said[1..], id) == Departures([], id);
    } else if |said| == 1 {
      assert said[1..] == [];
    }
  }

  lemma {:induction false} EndDepartures(g: PhaseGraph, n: Engine, end: seq<Event>, id: PhaseId)
    requires EndsWell(g, n, end)
    ensures Departures(end, id) == 0
  {
    if end != [] { assert end[1..] == []; }
  }

  /** A step departs from a human phase only by using up the decision it holds. */
  lemma {:induction false} StepDepartures(g: PhaseGraph, cfg: Config, d: Disk, e: Engine, inp: Input, id: PhaseId)
    requires ValidGraph(g) && Sound(g, d, e) && Running(e) && IsHuman(g, id)
    requires Get(g, id).value.kind.ReviewKind?
    ensures var o := Step(g, cfg, d, e, inp);
            Departures(EventsOf(o.out), id) + (if Running(o.next) then Passes(o.next, id) else 0) <= Passes(e, id)
  {
    hide ValidGraph, Step, PlanOf, WellFormed, Said, Legal, PcOk;
    var o := Step(g, cfg, d, e, inp);
    var end := StepSays(g, cfg, d, e, inp);
    EndDepartures(g, o.next, end, id);
    if Commits(cfg, d, e, inp) {
      var c := CommitOf(cfg, d, e, inp);
      CommitIsKnown(g, cfg, d, e, inp);
      SaidDepartures(g, o.next, c, inp.now, id);
      DeparturesConcat(Said(g, o.next, c, inp.now), end, id);
      PassesAfter(g, cfg, d, e, inp, id);
    } else {
      PassesWithoutCommit(g, cfg, d, e, inp, id);
    }
  }

  /** Without a commit the memory of the engine only gains decisions. */
  lemma PassesWithoutCommit(g: PhaseGraph, cfg: Config, d: Disk, e: Engine, inp: Input, id: PhaseId)
    requires Running(e) && !Commits(cfg, d, e, inp)
    ensures Running(Step(g, cfg, d, e, inp).next) ==> Passes(Step(g, cfg, d, e, inp).next, id) <= Passes(e, id)
  {
    hide PlanOf, HumanDecision;
  }

  /** What a commit does to the passes of a human phase: leaving it takes one. */
  lemma {:induction false} PassesAfter(g: PhaseGraph, cfg: Config, d: Disk, e: Engine, inp: Input, id: PhaseId)
    requires Sound(g, d, e) && Commits(cfg, d, e, inp) && IsHuman(g, id) && Get(g, id).value.kind.ReviewKind?
    requires Legal(g, e.held.state, CommitOf(cfg, d, e, inp))
    ensures var n, c := Step(g, cfg, d, e, inp).next, CommitOf(cfg, d, e, inp);
            (if c.Move? && c.source == id then 1 else 0) + (if Running(n) then Passes(n, id) else 0) <= Passes(e, id)
  {
    hide Step, PlanOf, MarkApplied, WellFormed, PcOk, Legal;
    var n, c := Step(g, cfg, d, e, inp).next, CommitOf(cfg, d, e, inp);
    var before, tail := StepShape(g, cfg, d, e, inp);
    StepRemembers(g, cfg, d, e, inp);
    LeavingTakesTheDecision(g, cfg, d, e, inp, id);
    StubsStop(g, cfg, d, e, inp);
    if !c.Stub? {
      SameCount(g, e.held.state, c, id);
    }
  }

  /** A committing step remembers what it applied and forgets nothing. */
  lemma StepRemembers(g: PhaseGraph, cfg: Config, d: Disk, e: Engine, inp: Input)
    requires Commits(cfg, d, e, inp)
    ensures Step(g, cfg, d, e, inp).next.applied == MarkApplied(e).applied
    ensures e.applied <= MarkApplied(e).applied
  {
    hide PlanOf, Conclude, HumanDecision;
    PlansAreOrdered(cfg, d, e, inp);
    var plan, e1 := PlanOf(cfg, d, e, inp), Saved(MarkApplied(e), CommitOf(cfg, d, e, inp));
    var tail := ConcludeShape(g, cfg, e1, plan.before + Written(e1), plan.commit, plan.next, inp.now);
  }

  /** Only a stub adds a review of a human phase. */
  lemma {:induction false} SameCount(g: PhaseGraph, st: SessionState, c: Commit, id: PhaseId)
    requires Legal(g, st, c) && IsHuman(g, id) && !c.Stub?
    ensures CountReviews(ApplyCommit(st, c).reviews, id) == CountReviews(st.reviews, id)
  {
    if c.Judge? {
      CountReviewsAppend(st.reviews, c.verdict, id);
    }
  }

  lemma StubsStop(g: PhaseGraph, cfg: Config, d: Disk, e: Engine, inp: Input)
    requires Commits(cfg, d, e, inp)
    ensures CommitOf(cfg, d, e, inp).Stub? ==> !Running(Step(g, cfg, d, e, inp).next)
  {
    hide HumanDecision, HistoryFor, AfterIteration, Announce;
    ClosingPlans(cfg, d, e, inp);
  }

  lemma {:induction false} LeavingTakesTheDecision(g: PhaseGraph, cfg: Config, d: Disk, e: Engine, inp: Input,
                                            id: PhaseId)
    requires Sound(g, d, e) && Commits(cfg, d, e, inp) && IsHuman(g, id) && Get(g, id).value.kind.ReviewKind?
    requires Legal(g, e.held.state, CommitOf(cfg, d, e, inp))
    ensures var c := CommitOf(cfg, d, e, inp);
            c.Move? && c.source == id ==>
              && Passes(e, id) == 1
              && (id, CountReviews(e.held.state.reviews, id) as int) in MarkApplied(e).applied
  {
    hide PlanOf, IterationOk, ReviewOk, NumberedIterations, AutomatedChanges, HumanDecision;
    var c := CommitOf(cfg, d, e, inp);
    if c.Move? && c.source == id {
      assert e.pc.ReviewTop? by { GateMoves(cfg, d, e, inp, id); }
      PlanAtReviewTop(cfg, d, e, inp);
      ReviewTopShape(g, d, e, inp);
      DecisionHasNewestNumber(e, e.pc.phase);
      MovesOnlyByDecision(d, e, inp);
    }
  }

  lemma GateMoves(cfg: Config, d: Disk, e: Engine, inp: Input, id: PhaseId)
    requires Running(e) && e.pc.phase.human && e.pc.phase.kind.ReviewKind?
    requires e.pc.ExecTop? || e.pc.ExecDecide? ==> e.pc.phase.kind.ExecutorKind?
    requires e.pc.ReviewDecide? ==> !e.pc.phase.human
    ensures e.pc.ReviewTop?
  {
  }

  // ---- Runs -----------------------------------------------------------------------------------

  lemma {:induction false} RunDepartures(g: PhaseGraph, cfg: Config, d: Disk, e: Engine, inputs: seq<Input>,
                                         id: PhaseId)
    requires ValidGraph(g) && Sound(g, d, e) && IsHuman(g, id) && Get(g, id).value.kind.ReviewKind?
    ensures Departures(EventsOf(Exec(g, cfg, d, e, inputs).trace), id) <= if Running(e) then Passes(e, id) else 0
    decreases |inputs|
  {
    hide ValidGraph, Step, Sound, IsHuman;
    if inputs != [] && Running(e) {
      var o := Step(g, cfg, d, e, inputs[0]);
      StepDepartures(g, cfg, d, e, inputs[0], id);
      StepKeepsSound(g, cfg, d, e, inputs[0]);
      RunDepartures(g, cfg, Apply(d, o.out), o.next, inputs[1..], id);
      var rest := Exec(g, cfg, Apply(d, o.out), o.next, inputs[1..]).trace;
      EventsOfConcat(o.out, rest);
      DeparturesConcat(EventsOf(o.out), EventsOf(rest), id);
    }
  }

  /** In one run a human phase is left at most once, whatever its decision leads back to. */
  lemma {:induction false} DecisionDrivesOneTransition(g: PhaseGraph, cfg: Config, d: Disk, req: RunRequest,
                                            inputs: seq<Input>, id: PhaseId)
    requires ValidGraph(g) && DiskOk(g, d) && IsHuman(g, id) && Get(g, id).value.kind.ReviewKind?
    ensures Departures(EventsOf(Session(g, cfg, d, req, inputs).trace), id) <= 1
  {
    hide ValidGraph, Boot, Exec, WellFormed, IsHuman;
    BootKeepsSound(g, cfg, d, req);
    var o := Boot(g, cfg, d, req);
    BootDoesNotDepart(g, cfg, d, req, id);
    RunDepartures(g, cfg, Apply(d, o.out), o.next, inputs, id);
    var rest := Exec(g, cfg, Apply(d, o.out), o.next, inputs).trace;
    EventsOfConcat(o.out, rest);
    DeparturesConcat(EventsOf(o.out), EventsOf(rest), id);
  }

  predicate NoTransition(trace: seq<Effect>) {
    forall i :: 0 <= i < |trace| ==> !(trace[i].Emit? && trace[i].event.PhaseTransitioned?)
  }

  lemma {:induction false} NoTransitionNoDeparture(trace: seq<Effect>, id: PhaseId)
    requires NoTransition(trace)
    ensures Departures(EventsOf(trace), id) == 0
  {
    if trace != [] {
      NoTransitionNoDeparture(trace[1..], id);
      if trace[0].Emit? {
        assert EventsOf(trace)[1..] == EventsOf(trace[1..]);
      } else {
        assert EventsOf(trace) == EventsOf(trace[1..]);
      }
    }
  }

  lemma {:induction false} BootDoesNotDepart(g: PhaseGraph, cfg: Config, d: Disk, req: RunRequest, id: PhaseId)
    ensures Departures(EventsOf(Boot(g, cfg, d, req).out), id) == 0
  {
    NoTransitionNoDeparture(Boot(g, cfg, d, req).out, id);
  }

  // ---- Arrivals -------------------------------------------------------------------------------

  /** An arrival at a human phase without a waiting decision writes exactly one PENDING stub, numbered one higher
      than the reviews of the phase, reports it, and stops with the session in progress. */
  lemma ArrivalWritesOneStub(g: PhaseGraph, cfg: Config, d: Disk, e: Engine, inp: Input)
    requires ValidGraph(g) && Sound(g, d, e) && e.pc.ReviewTop? && e.pc.phase.human
    requires HumanDecision(e, e.pc.phase).None?
    ensures var o := Step(g, cfg, d, e, inp);
            var n := CountReviews(e.held.state.reviews, e.pc.phase.phaseId) + 1;
            var stub := StubFor(e.held.state, e.pc.phase, inp.now);
            && stub.review == n && stub.decision == Some(Pending)
            && SavesOf(o.out) == [e.held.state.(reviews := e.held.state.reviews + [stub])]
            && EventsOf(o.out) == [HumanReviewPending(e.held.state.sessionId, e.pc.phase.phaseId, e.pc.phase.roleId,
                                                      n, e.held.revision + 1, inp.now)]
            && o.next.pc.Paused? && o.next.held.state.status.InProgress?
  {
    hide ValidGraph, HumanDecision, IterationOk, ReviewOk, NumberedIterations, NumberedReviews, AutomatedChanges;
    var st := e.held.state;
    var stub := StubFor(st, e.pc.phase, inp.now);
    var st' := st.(reviews := st.reviews + [stub]);
    var said := Emit(HumanReviewPending(st.sessionId, e.pc.phase.phaseId, e.pc.phase.roleId, stub.review,
                                        e.held.revision + 1, inp.now));
    var out := [StateWrite(st'), RevisionWrite(e.held.revision + 1), said];
    assert Step(g, cfg, d, e, inp).out == out;
    assert out[1..] == [out[1], said] && out[1..][1..] == [said] && [said][1..] == [];
    assert SavesOf([said]) == [] && SavesOf(out[1..]) == SavesOf([said]);
    assert EventsOf([said]) == [said.event] && EventsOf(out[1..]) == EventsOf([said]);
  }

  /** A decision that is applied changes nothing but where the session stands: no review is added and the
      feedback counter stays, also for a request for changes. */
  lemma DecisionOnlyMoves(g: PhaseGraph, cfg: Config, d: Disk, e: Engine, inp: Input)
    requires Sound(g, d, e) && e.pc.ReviewTop? && HumanDecision(e, e.pc.phase).Some?
    ensures var n := Step(g, cfg, d, e, inp).next.held.state;
            var r := HumanDecision(e, e.pc.phase).value;
            && n.reviews == e.held.state.reviews && n.iterations == e.held.state.iterations
            && n.feedbackLoops == e.held.state.feedbackLoops
            && (n.currentPhase != e.held.state.currentPhase ==>
                  n.currentPhase in (if r.decision == Some(Approve) then e.pc.phase.onApprove
                                     else e.pc.phase.canRequestChangesFrom))
  {
    hide Step, HumanDecision, WellFormed, PlanApply, MarkApplied;
    var before, tail := StepShape(g, cfg, d, e, inp);
    AppliedPlan(e.pc.phase, HumanDecision(e, e.pc.phase).value, inp.now);
  }

  /** A waiting decision moves along the edge it allows, completes the session, or is refused. */
  lemma AppliedPlan(p: PhaseDefinition, entry: ReviewEntry, now: Time)
    requires Decided(entry)
    ensures var plan := PlanApply(p, entry, now);
            plan.Fail? || (plan.Save? && (
              plan.commit.Close? ||
              (plan.commit.Move? && plan.commit.target in
                 (if entry.decision == Some(Approve) then p.onApprove else p.canRequestChangesFrom))))
  {
  }

  /** A decision put on an older stub is never looked at: only the newest number of a phase counts. */
  lemma OlderStubIsIgnored(e: Engine, p: PhaseDefinition, index: nat, entry: ReviewEntry)
    requires index < |e.held.state.reviews|
    requires entry.phaseId == e.held.state.reviews[index].phaseId && entry.review == e.held.state.reviews[index].review
    requires entry.phaseId == p.phaseId ==> entry.review < CountReviews(e.held.state.reviews, p.phaseId)
    ensures var st := e.held.state.(reviews := e.held.state.reviews[index := entry]);
            var f := e.(held := e.held.(state := st));
            HumanDecision(f, p) == HumanDecision(e, p)
  {
    hide HumanDecision, FindDecided, CountReviews;
    var rs := e.held.state.reviews;
    SamePhasesSameCount(rs[index := entry], rs, p.phaseId);
    var n := CountReviews(rs, p.phaseId);
    OtherEntryOtherNumber(rs, index, entry, p.phaseId, n);
    OtherEntryOtherNumber(rs, index, entry, p.phaseId, n + 1);
    SameFindings(e, e.(held := e.held.(state := e.held.state.(reviews := rs[index := entry]))), p);
  }

  lemma SameFindings(e: Engine, f: Engine, p: PhaseDefinition)
    requires e.applied == f.applied
    requires CountReviews(e.held.state.reviews, p.phaseId) == CountReviews(f.held.state.reviews, p.phaseId)
    requires var n := CountReviews(e.held.state.reviews, p.phaseId);
             && FindDecided(e.held.state.reviews, p.phaseId, n) == FindDecided(f.held.state.reviews, p.phaseId, n)
             && FindDecided(e.held.state.reviews, p.phaseId, n + 1) == FindDecided(f.held.state.reviews, p.phaseId, n + 1)
    ensures HumanDecision(e, p) == HumanDecision(f, p)
  {
    hide FindDecided, CountReviews;
  }

  lemma {:induction false} OtherEntryOtherNumber(rs: seq<ReviewEntry>, index: nat, entry: ReviewEntry, id: PhaseId,
                                            n: int)
    requires index < |rs|
    requires !(rs[index].phaseId == id && rs[index].review == n) && !(entry.phaseId == id && entry.review == n)
    ensures FindDecided(rs[index := entry], id, n) == FindDecided(rs, id, n)
  {
    if index > 0 {
      assert rs[index := entry][1..] == rs[1..][index - 1 := entry];
      OtherEntryOtherNumber(rs[1..], index - 1, entry, id, n);
    } else {
      assert rs[index := entry][1..] == rs[1..];
    }
  }
}
