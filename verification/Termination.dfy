/** Every `run()` call ends, for any behaviour of roles, controller and clock, when no forward cycle of the graph
    avoids the human gates. */
module Termination {
  import opened Wrappers
  import opened Graph
  import opened State
  import opened Events
  import opened Disk
  import opened Machine
  import opened Invariants
  import opened Sessions
  import opened Cycles

  function Max(a: int, b: int): int { if a < b then b else a }

  predicate Automated(p: PhaseDefinition) { p.kind.ReviewKind? && !p.human }

  /** The largest feedback cap of any automated review phase, and at least 0. */
  function TopCap(cfg: Config, phases: PhaseGraph): nat {
    if phases == [] then 0
    else
      var rest := TopCap(cfg, phases[1..]);
      if Automated(phases[0]) then Max(EffectiveCap(cfg, phases[0]), rest) else rest
  }

  lemma {:induction false} TopCapCovers(cfg: Config, g: PhaseGraph, id: PhaseId)
    requires Get(g, id).Some? && Automated(Get(g, id).value)
    ensures EffectiveCap(cfg, Get(g, id).value) <= TopCap(cfg, g)
  {
    if g[0].phaseId != id {
      TopCapCovers(cfg, g[1..], id);
    }
  }

  /** Wherever an automated phase may still ask for changes, the counter is below `cap`. */
  predicate CapsAtMost(cfg: Config, g: PhaseGraph, cap: int) {
    forall i :: 0 <= i < |g| && g[i].kind.ReviewKind? && !g[i].human ==> RoundsUsedUp(cfg, g[i], cap)
  }

  /** `TopCap` is the least such number that is not negative. */
  lemma {:induction false} TopCapIsLeast(cfg: Config, g: PhaseGraph, cap: nat)
    ensures TopCap(cfg, g) <= cap <==> CapsAtMost(cfg, g, cap)
  {
    if g != [] {
      TopCapIsLeast(cfg, g[1..], cap);
      assert CapsAtMost(cfg, g, cap) <==>
             (Automated(g[0]) ==> RoundsUsedUp(cfg, g[0], cap)) && CapsAtMost(cfg, g[1..], cap) by {
        assert forall i :: 0 < i < |g| ==> g[i] == g[1..][i - 1];
      }
    }
  }

  // ---- The measure ----------------------------------------------------------------------------

  /** Human phases whose newest number has not been applied in this run. */
  function OpenGates(g: PhaseGraph, e: Engine): set<PhaseId> {
    set id | id in SetOf(Ids(g)) && IsHuman(g, id) && (id, CountReviews(e.held.state.reviews, id) as int) !in e.applied
  }

  function FeedbackLeft(cfg: Config, g: PhaseGraph, st: SessionState): nat {
    Max(0, TopCap(cfg, g) - st.feedbackLoops)
  }

  /** A request for changes that was committed within the cap, and whose loop-back is still to come. */
  predicate LoopBackDue(cfg: Config, g: PhaseGraph, e: Engine) {
    e.pc.ReviewDecide? && e.pc.decision.RequestChanges? && e.held.state.feedbackLoops <= TopCap(cfg, g)
  }

  /** Forward moves left: a full descent for each loop-back still possible, and the rank of this phase. */
  function MovesLeft(cfg: Config, g: PhaseGraph, land: set<PhaseId>, e: Engine): nat {
    (|OpenGates(g, e)| + FeedbackLeft(cfg, g, e.held.state)) * (|g| + 1) +
    if LoopBackDue(cfg, g, e) then |g| + 1 else Rank(g, land, e.held.state.currentPhase)
  }

  /** Steps one visit of a phase can take. */
  function VisitSteps(cfg: Config): nat { 2 * Max(1, cfg.maxIterations) + 1 }

  /** Steps left in this visit. */
  function StepsLeft(cfg: Config, e: Engine): nat {
    match e.pc
    case ExecTop(_, count) => 2 * Max(1, cfg.maxIterations - count)
    case ExecDecide(_, count, _, _) => 2 * Max(0, cfg.maxIterations - count) + 1
    case ReviewTop(_) => 2
    case ReviewDecide(_, _, _) => 1
    case _ => 0
  }

  function Measure(cfg: Config, g: PhaseGraph, land: set<PhaseId>, e: Engine): nat {
    MovesLeft(cfg, g, land, e) * VisitSteps(cfg) + StepsLeft(cfg, e)
  }

  lemma LexicographicLess(a: nat, b: nat, x: nat, y: nat, width: nat)
    requires (a < b && x < width) || (a <= b && x < y)
    ensures a * width + x < b * width + y
  {
    if a < b {
      assert a * width + width == (a + 1) * width <= b * width;
    } else {
      assert a * width <= b * width;
    }
  }

  lemma FewerDescents(a: nat, b: nat, n: nat)
    requires a < b
    ensures a * (n + 1) + n + 1 <= b * (n + 1)
  {
    assert a * (n + 1) + (n + 1) == (a + 1) * (n + 1) <= b * (n + 1);
  }

  lemma SameDescents(a: nat, b: nat, n: nat)
    requires a <= b
    ensures a * (n + 1) <= b * (n + 1)
  {
  }

  // ---- Human decisions ------------------------------------------------------------------------

  lemma {:induction false} NumbersAreBounded(rs: seq<ReviewEntry>, i: nat)
    requires NumberedReviews(rs) && i < |rs|
    ensures rs[i].review <= CountReviews(rs, rs[i].phaseId)
    decreases |rs|
  {
    var last := |rs| - 1;
    if i < last {
      assert forall k :: 0 <= k < last ==> rs[..last][..k] == rs[..k];
      NumbersAreBounded(rs[..last], i);
    }
  }

  /** With contiguous numbers nothing carries the next number, so the first lookup of a review phase finds
      nothing; a decision that is found has the newest number of a human phase. */
  lemma DecisionHasNewestNumber(e: Engine, p: PhaseDefinition)
    requires NumberedReviews(e.held.state.reviews)
    ensures FindDecided(e.held.state.reviews, p.phaseId, NextReview(e.held.state, p)).None?
    ensures HumanDecision(e, p).Some? ==>
      && p.human
      && HumanDecision(e, p).value.review == CountReviews(e.held.state.reviews, p.phaseId)
      && (p.phaseId, HumanDecision(e, p).value.review) !in e.applied
  {
    var rs := e.held.state.reviews;
    var here := FindDecided(rs, p.phaseId, NextReview(e.held.state, p));
    if here.Some? {
      var i :| 0 <= i < |rs| && rs[i] == here.value;
      NumbersAreBounded(rs, i);
    }
  }

  // ---- The measure goes down ------------------------------------------------------------------

  predicate Below(cfg: Config, g: PhaseGraph, land: set<PhaseId>, n: Engine, e: Engine) {
    || (MovesLeft(cfg, g, land, n) < MovesLeft(cfg, g, land, e) && StepsLeft(cfg, n) < VisitSteps(cfg))
    || (MovesLeft(cfg, g, land, n) <= MovesLeft(cfg, g, land, e) && StepsLeft(cfg, n) < StepsLeft(cfg, e))
  }

  lemma BelowIsLess(cfg: Config, g: PhaseGraph, land: set<PhaseId>, n: Engine, e: Engine)
    requires Below(cfg, g, land, n, e)
    ensures Measure(cfg, g, land, n) < Measure(cfg, g, land, e)
  {
    LexicographicLess(MovesLeft(cfg, g, land, n), MovesLeft(cfg, g, land, e),
                      StepsLeft(cfg, n), StepsLeft(cfg, e), VisitSteps(cfg));
  }

  /** At the entry of a phase. */
  predicate AtEntry(e: Engine) {
    (e.pc.ExecTop? && e.pc.count >= 0) || e.pc.ReviewTop?
  }

  /** A transition to a phase of lower rank, with the same budgets. */
  lemma DescentLowers(cfg: Config, g: PhaseGraph, land: set<PhaseId>, n: Engine, e: Engine)
    requires n.applied == e.applied && AtEntry(n)
    requires n.held.state == e.held.state.(currentPhase := n.held.state.currentPhase)
    requires Rank(g, land, n.held.state.currentPhase) < Rank(g, land, e.held.state.currentPhase) || LoopBackDue(cfg, g, e)
    ensures Below(cfg, g, land, n, e)
  {
    assert OpenGates(g, n) == OpenGates(g, e);
  }

  /** A transition anywhere, paid for with an open gate. */
  lemma {:induction false} ClosedGateLowers(cfg: Config, g: PhaseGraph, land: set<PhaseId>, n: Engine, e: Engine,
                                            id: PhaseId)
    requires AtEntry(n) && e.pc.ReviewTop?
    requires n.held.state == e.held.state.(currentPhase := n.held.state.currentPhase)
    requires id in OpenGates(g, e)
    requires n.applied == e.applied + {(id, CountReviews(e.held.state.reviews, id) as int)}
    ensures Below(cfg, g, land, n, e)
  {
    assert OpenGates(g, n) == OpenGates(g, e) - {id};
    FewerDescents(|OpenGates(g, n)| + FeedbackLeft(cfg, g, n.held.state),
                  |OpenGates(g, e)| + FeedbackLeft(cfg, g, e.held.state), |g|);
  }

  /** A verdict: a request for changes within the cap uses up one unit of feedback. */
  lemma VerdictLowers(cfg: Config, g: PhaseGraph, land: set<PhaseId>, n: Engine, e: Engine, r: ReviewEntry, delta: nat)
    requires e.pc.ReviewTop? && n.pc.ReviewDecide? && n.applied == e.applied && !IsHuman(g, r.phaseId)
    requires delta == if n.pc.decision.RequestChanges? then 1 else 0
    requires n.held.state == e.held.state.(reviews := e.held.state.reviews + [r],
                                           feedbackLoops := e.held.state.feedbackLoops + delta)
    ensures Below(cfg, g, land, n, e)
  {
    GatesAfterVerdict(g, e, n, r);
    var now := |OpenGates(g, n)| + FeedbackLeft(cfg, g, n.held.state);
    var was := |OpenGates(g, e)| + FeedbackLeft(cfg, g, e.held.state);
    if LoopBackDue(cfg, g, n) {
      FewerDescents(now, was, |g|);
    } else {
      SameDescents(now, was, |g|);
    }
  }

  /** An entry of an automated phase leaves the human gates as they were. */
  lemma GatesAfterVerdict(g: PhaseGraph, e: Engine, n: Engine, r: ReviewEntry)
    requires n.held.state.reviews == e.held.state.reviews + [r] && n.applied == e.applied
    requires !IsHuman(g, r.phaseId)
    ensures OpenGates(g, n) == OpenGates(g, e)
  {
    forall id | IsHuman(g, id)
      ensures CountReviews(n.held.state.reviews, id) == CountReviews(e.held.state.reviews, id)
    {
      CountReviewsAppend(e.held.state.reviews, r, id);
    }
  }

  lemma {:induction false} UngatedIsFree(g: PhaseGraph, p: PhaseDefinition)
    requires Get(g, p.phaseId) == Some(p) && !Gated(p)
    ensures p.phaseId in FreeIds(g) && p.phaseId in Everywhere(g)
  {
    GetFinds(g, p.phaseId);
    var i :| 0 <= i < |Ids(g)| && Ids(g)[i] == p.phaseId;
    assert g[i].phaseId == p.phaseId;
  }

  // ---- What a step that goes on has done ------------------------------------------------------

  lemma PerformShape(g: PhaseGraph, cfg: Config, d: Disk, e: Engine, plan: Plan, now: Time)
    requires Running(Perform(g, cfg, d, e, plan, now).next)
    ensures var n := Perform(g, cfg, d, e, plan, now).next;
            && (plan.Stay? ==> n == e.(pc := plan.pc))
            && (plan.Save? && plan.next.At? ==> n == Saved(e, plan.commit).(pc := plan.next.pc))
            && (plan.Save? && plan.next.Enter? ==>
                  n == Saved(e, plan.commit).(pc := n.pc) && AtEntry(n) && n.held.state.status.InProgress?)
            && (plan.Stay? || (plan.Save? && (plan.next.At? || plan.next.Enter?)))
  {
  }

  lemma StepShapeOnward(g: PhaseGraph, cfg: Config, d: Disk, e: Engine, inp: Input)
    requires Running(e) && Running(Step(g, cfg, d, e, inp).next)
    ensures var plan := PlanOf(cfg, d, e, inp);
            var n := Step(g, cfg, d, e, inp).next;
            var m := MarkApplied(e);
            && (plan.Stay? ==> n == m.(pc := plan.pc))
            && (plan.Save? && plan.next.At? ==> n == Saved(m, plan.commit).(pc := plan.next.pc))
            && (plan.Save? && plan.next.Enter? ==>
                  n == Saved(m, plan.commit).(pc := n.pc) && AtEntry(n) && n.held.state.status.InProgress?)
            && (plan.Stay? || (plan.Save? && (plan.next.At? || plan.next.Enter?)))
  {
    hide PlanOf, Perform;
    PerformShape(g, cfg, d, MarkApplied(e), PlanOf(cfg, d, e, inp), inp.now);
  }

  lemma ExecTopShape(cfg: Config, d: Disk, e: Engine, inp: Input)
    requires e.pc.ExecTop?
    ensures var plan := PlanOf(cfg, d, e, inp);
            && !plan.Stay?
            && (plan.Save? && plan.next.Enter? ==> plan.commit.Close? && Terminal(plan.commit.status))
            && (plan.Save? && plan.next.At? ==>
                  && plan.commit.Iterate?
                  && plan.next.pc.ExecDecide?
                  && plan.next.pc.count == e.pc.count + 1)
  {
  }

  lemma ReviewTopShape(g: PhaseGraph, d: Disk, e: Engine, inp: Input)
    requires Sound(g, d, e) && e.pc.ReviewTop?
    ensures var p := e.pc.phase;
            var plan := PlanReviewTop(d, e, p, inp);
            && !plan.Stay?
            && (plan.Save? && plan.next.Enter? ==>
                  HumanDecision(e, p).Some? && (plan.commit.Close? || plan.commit.Move?))
            && (plan.Save? && plan.next.At? ==>
                  && HumanDecision(e, p).None?
                  && plan.commit.Judge?
                  && plan.next.pc.ReviewDecide?
                  && !IsHuman(g, plan.commit.verdict.phaseId)
                  && plan.commit.delta == if plan.next.pc.decision.RequestChanges? then 1 else 0)
  {
    hide WellFormed, PlanVerdict, HumanDecision;
    if inp.review.Returned? && inp.review.value.endedAt.Some? {
      forall asked {
        VerdictShape(e, e.pc.phase, inp, inp.review.value, asked);
      }
    }
  }

  lemma MovesOnlyByDecision(d: Disk, e: Engine, inp: Input)
    requires e.pc.ReviewTop?
    ensures var plan := PlanReviewTop(d, e, e.pc.phase, inp);
            plan.Save? && plan.commit.Move? ==> HumanDecision(e, e.pc.phase).Some?
  {
    hide HumanDecision, HistoryFor;
  }

  lemma VerdictShape(e: Engine, p: PhaseDefinition, inp: Input, r: ReviewResult, asked: seq<Effect>)
    requires r.endedAt.Some?
    ensures var plan := PlanVerdict(e, p, inp, r, asked);
            && (plan.Fail? || plan.Save?)
            && (plan.Save? ==>
                  && plan.next.At?
                  && plan.next.pc.ReviewDecide?
                  && plan.commit.Judge?
                  && plan.commit.verdict.phaseId == p.phaseId
                  && plan.commit.delta == if plan.next.pc.decision.RequestChanges? then 1 else 0)
  {
  }

  /** The local loop of an executor phase: the same budgets, fewer iterations left. */
  lemma LoopLowers(cfg: Config, g: PhaseGraph, land: set<PhaseId>, n: Engine, e: Engine)
    requires n.applied == e.applied && n.held.state.reviews == e.held.state.reviews
    requires n.held.state.currentPhase == e.held.state.currentPhase
    requires n.held.state.feedbackLoops == e.held.state.feedbackLoops
    requires !e.pc.ReviewDecide? && !n.pc.ReviewDecide?
    requires StepsLeft(cfg, n) < StepsLeft(cfg, e)
    ensures Below(cfg, g, land, n, e)
  {
    assert OpenGates(g, n) == OpenGates(g, e);
  }

  lemma ExecTopLowers(g: PhaseGraph, land: set<PhaseId>, cfg: Config, d: Disk, e: Engine, inp: Input)
    requires Sound(g, d, e) && e.pc.ExecTop? && Running(Step(g, cfg, d, e, inp).next)
    ensures Below(cfg, g, land, Step(g, cfg, d, e, inp).next, e)
  {
    hide Step, PlanOf, WellFormed, Below;
    ExecTopShape(cfg, d, e, inp);
    StepShapeOnward(g, cfg, d, e, inp);
    LoopLowers(cfg, g, land, Step(g, cfg, d, e, inp).next, e);
  }

  lemma ReviewTopLowers(g: PhaseGraph, land: set<PhaseId>, cfg: Config, d: Disk, e: Engine, inp: Input)
    requires Sound(g, d, e) && e.pc.ReviewTop? && Running(Step(g, cfg, d, e, inp).next)
    ensures Below(cfg, g, land, Step(g, cfg, d, e, inp).next, e)
  {
    hide Step, PlanOf, Below, PlanReviewTop, HumanDecision, NumberedReviews, AutomatedChanges, ReviewOk, IterationOk;
    var n, p := Step(g, cfg, d, e, inp).next, e.pc.phase;
    PlanAtReviewTop(cfg, d, e, inp);
    ReviewTopShape(g, d, e, inp);
    StepShapeOnward(g, cfg, d, e, inp);
    var plan := PlanReviewTop(d, e, p, inp);
    if HumanDecision(e, p).Some? {
      PlanIsOk(g, cfg, d, e, inp);
      DecisionHasNewestNumber(e, p);
      GetFinds(g, p.phaseId);
      ClosedGateLowers(cfg, g, land, n, e, p.phaseId);
    } else {
      VerdictLowers(cfg, g, land, n, e, plan.commit.verdict, plan.commit.delta);
    }
  }

  lemma PlanAtReviewTop(cfg: Config, d: Disk, e: Engine, inp: Input)
    requires e.pc.ReviewTop?
    ensures PlanOf(cfg, d, e, inp) == PlanReviewTop(d, e, e.pc.phase, inp)
  {
  }

  lemma ExecDecideShape(g: PhaseGraph, cfg: Config, d: Disk, e: Engine, inp: Input)
    requires e.pc.ExecDecide? && e.pc.phase.kind.ExecutorKind?
    ensures var plan := PlanOf(cfg, d, e, inp);
            && (plan.Stay? ==> plan.pc == ExecTop(e.pc.phase, e.pc.count) && e.pc.count < cfg.maxIterations)
            && (plan.Save? ==> plan.next.Enter? && (plan.commit.Close? || plan.commit.Move?))
            && (plan.Save? && plan.commit.Move? ==> plan.commit.target in ForwardTargets(e.pc.phase))
  {
  }

  lemma ExecDecideLowers(g: PhaseGraph, land: set<PhaseId>, cfg: Config, d: Disk, e: Engine, inp: Input)
    requires g != [] && LoopFreeIn(g, land) && e.held.state.currentPhase in land && Sound(g, d, e) && e.pc.ExecDecide?
    requires Running(Step(g, cfg, d, e, inp).next)
    ensures Below(cfg, g, land, Step(g, cfg, d, e, inp).next, e)
  {
    hide Step, PlanOf, WellFormed, Below, LoopFreeIn, Rank, FreeIds;
    var n, p := Step(g, cfg, d, e, inp).next, e.pc.phase;
    var plan := PlanOf(cfg, d, e, inp);
    ExecDecideShape(g, cfg, d, e, inp);
    StepShapeOnward(g, cfg, d, e, inp);
    if plan.Stay? {
      LoopLowers(cfg, g, land, n, e);
    } else {
      PlanIsOk(g, cfg, d, e, inp);
      UngatedIsFree(g, p);
      ForwardGoesDown(g, land, p.phaseId, plan.commit.target);
      DescentLowers(cfg, g, land, n, e);
    }
  }

  lemma ReviewDecideShape(g: PhaseGraph, cfg: Config, d: Disk, e: Engine, inp: Input)
    requires Sound(g, d, e) && e.pc.ReviewDecide?
    ensures var plan := PlanOf(cfg, d, e, inp);
            && !plan.Stay?
            && (plan.Save? ==> plan.next.Enter? && (plan.commit.Close? || plan.commit.Move?))
            && (plan.Save? && plan.commit.Move? && e.pc.decision.Approve? ==>
                  plan.commit.target in ForwardTargets(e.pc.phase))
            && (plan.Save? && plan.commit.Move? && e.pc.decision.RequestChanges? ==>
                  e.held.state.feedbackLoops < EffectiveCap(cfg, e.pc.phase))
  {
    hide WellFormed;
  }

  lemma ReviewDecideLowers(g: PhaseGraph, land: set<PhaseId>, cfg: Config, d: Disk, e: Engine, inp: Input)
    requires g != [] && LoopFreeIn(g, land) && e.held.state.currentPhase in land && Sound(g, d, e) && e.pc.ReviewDecide?
    requires Running(Step(g, cfg, d, e, inp).next)
    ensures Below(cfg, g, land, Step(g, cfg, d, e, inp).next, e)
  {
    hide Step, PlanOf, WellFormed, Below, LoopFreeIn, Rank, FreeIds;
    var n, p := Step(g, cfg, d, e, inp).next, e.pc.phase;
    ReviewDecideShape(g, cfg, d, e, inp);
    StepShapeOnward(g, cfg, d, e, inp);
    PlanIsOk(g, cfg, d, e, inp);
    TopCapCovers(cfg, g, p.phaseId);
    if e.pc.decision.Approve? {
      UngatedIsFree(g, p);
      ForwardGoesDown(g, land, p.phaseId, PlanOf(cfg, d, e, inp).commit.target);
    }
    DescentLowers(cfg, g, land, n, e);
  }

  lemma StepLowersMeasure(g: PhaseGraph, land: set<PhaseId>, cfg: Config, d: Disk, e: Engine, inp: Input)
    requires ValidGraph(g) && LoopFreeIn(g, land) && e.held.state.currentPhase in land && Sound(g, d, e)
    requires Running(Step(g, cfg, d, e, inp).next)
    ensures Measure(cfg, g, land, Step(g, cfg, d, e, inp).next) < Measure(cfg, g, land, e)
  {
    StepPcOk(g, cfg, d, e, inp);
    match e.pc {
      case ExecTop(_, _) => ExecTopLowers(g, land, cfg, d, e, inp);
      case ExecDecide(_, _, _, _) => ExecDecideLowers(g, land, cfg, d, e, inp);
      case ReviewTop(_) => ReviewTopLowers(g, land, cfg, d, e, inp);
      case ReviewDecide(_, _, _) => ReviewDecideLowers(g, land, cfg, d, e, inp);
    }
    BelowIsLess(cfg, g, land, Step(g, cfg, d, e, inp).next, e);
  }

  // ---- Every run ends -------------------------------------------------------------------------

  lemma CurrentIsSomewhere(g: PhaseGraph, d: Disk, e: Engine)
    requires Sound(g, d, e) && Running(e)
    ensures e.held.state.currentPhase in Everywhere(g)
  {
    hide PcOk, IterationOk, ReviewOk, NumberedIterations, NumberedReviews, AutomatedChanges;
    GetFinds(g, e.held.state.currentPhase);
  }

  lemma {:induction false} RunEnds(g: PhaseGraph, cfg: Config, d: Disk, e: Engine, inputs: seq<Input>)
    requires ValidGraph(g) && LoopFree(g) && Sound(g, d, e)
    requires Measure(cfg, g, Everywhere(g), e) < |inputs|
    ensures !Running(Exec(g, cfg, d, e, inputs).engine)
    decreases |inputs|
  {
    hide Step, ValidGraph, LoopFreeIn, Sound, Everywhere, Measure;
    if Running(e) {
      var o := Step(g, cfg, d, e, inputs[0]);
      StepKeepsSound(g, cfg, d, e, inputs[0]);
      if Running(o.next) {
        CurrentIsSomewhere(g, d, e);
        StepLowersMeasure(g, Everywhere(g), cfg, d, e, inputs[0]);
        RunEnds(g, cfg, Apply(d, o.out), o.next, inputs[1..]);
      }
    }
  }

  /** A bound on the steps of any run of a graph, whatever the state of the session. */
  function StepBound(cfg: Config, g: PhaseGraph): nat {
    ((|g| + TopCap(cfg, g)) * (|g| + 1) + |g| + 1) * VisitSteps(cfg) + VisitSteps(cfg)
  }

  lemma MeasureIsBounded(cfg: Config, g: PhaseGraph, land: set<PhaseId>, d: Disk, e: Engine)
    requires Sound(g, d, e) && Running(e)
    ensures Measure(cfg, g, land, e) < StepBound(cfg, g)
  {
    hide PcOk, ReviewOk, IterationOk, NumberedIterations, NumberedReviews, StepsLeft, MovesLeft;
    MovesAreBounded(cfg, g, land, e);
    StepsAreBounded(cfg, g, e);
    LexicographicLess(MovesLeft(cfg, g, land, e), (|g| + TopCap(cfg, g)) * (|g| + 1) + |g| + 1,
                      StepsLeft(cfg, e), VisitSteps(cfg), VisitSteps(cfg));
  }

  lemma {:induction false} MovesAreBounded(cfg: Config, g: PhaseGraph, land: set<PhaseId>, e: Engine)
    requires e.held.state.feedbackLoops >= 0
    ensures MovesLeft(cfg, g, land, e) <= (|g| + TopCap(cfg, g)) * (|g| + 1) + |g| + 1
  {
    SelectedIdsCount(g, OpenGates(g, e));
    SameDescents(|OpenGates(g, e)| + FeedbackLeft(cfg, g, e.held.state), |g| + TopCap(cfg, g), |g|);
  }

  lemma StepsAreBounded(cfg: Config, g: PhaseGraph, e: Engine)
    requires PcOk(g, e)
    ensures StepsLeft(cfg, e) < VisitSteps(cfg)
  {
  }

  /** Every `run()` call on this graph stops within this many steps, from any well-formed disk. */
  ghost predicate HaltsWithin(g: PhaseGraph, cfg: Config, bound: nat) {
    forall d: Disk, req: RunRequest, inputs: seq<Input> ::
      DiskOk(g, d) && bound <= |inputs| ==> !Running(Session(g, cfg, d, req, inputs).engine)
  }

  lemma LoopFreeRunsEnd(g: PhaseGraph, cfg: Config)
    requires ValidGraph(g) && LoopFree(g)
    ensures HaltsWithin(g, cfg, StepBound(cfg, g))
  {
    forall d: Disk, req: RunRequest, inputs: seq<Input> | DiskOk(g, d) && StepBound(cfg, g) <= |inputs|
      ensures !Running(Session(g, cfg, d, req, inputs).engine)
    {
      BootKeepsSound(g, cfg, d, req);
      var o := Boot(g, cfg, d, req);
      if Running(o.next) {
        MeasureIsBounded(cfg, g, Everywhere(g), Apply(d, o.out), o.next);
        RunEnds(g, cfg, Apply(d, o.out), o.next, inputs);
      }
    }
  }
}
