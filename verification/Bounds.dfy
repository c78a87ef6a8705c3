/** How often a fresh, uninterrupted run may call the executor of a phase. */
module Bounds {
  import opened Wrappers
  import opened Graph
  import opened State
  import opened Events
  import opened Disk
  import opened Machine
  import opened Invariants
  import opened Sessions
  import opened Cycles
  import opened Termination

  /** How often a trace calls the executor of a phase. */
  function Calls(trace: seq<Effect>, id: PhaseId): nat {
    if trace == [] then 0
    else Calls(trace[1..], id) + if trace[0].AskExecutor? && trace[0].phaseId == id then 1 else 0
  }

  lemma {:induction false} CallsConcat(a: seq<Effect>, b: seq<Effect>, id: PhaseId)
    ensures Calls(a + b, id) == Calls(a, id) + Calls(b, id)
  {
    if a == [] {
      assert a + b == b;
    } else {
      assert (a + b)[1..] == a[1..] + b;
      CallsConcat(a[1..], b, id);
    }
  }

  function IterationCap(cfg: Config): nat { Max(1, cfg.maxIterations) }

  function FeedbackCap(cfg: Config, g: PhaseGraph): nat { Max(1, TopCap(cfg, g)) }

  /** Loop-backs made so far: a request for changes counts once its transition is made. */
  function LoopBacks(e: Engine): int {
    e.held.state.feedbackLoops - if e.pc.ReviewDecide? && e.pc.decision.RequestChanges? then 1 else 0
  }

  function Count(e: Engine, id: PhaseId): nat { CountIterations(e.held.state.iterations, id) }

  /** A phase that can still be reached in this pass, without another loop-back. */
  predicate Ahead(g: PhaseGraph, e: Engine, id: PhaseId) {
    || Rank(g, Everywhere(g), id) < Rank(g, Everywhere(g), e.held.state.currentPhase)
    || (id == e.held.state.currentPhase && !e.pc.ExecDecide?)
  }

  /** Each pass adds at most one iteration beyond the cap to a phase it has left. */
  ghost predicate Budgeted(g: PhaseGraph, cfg: Config, e: Engine) {
    && 0 <= LoopBacks(e) < FeedbackCap(cfg, g)
    && (forall i :: 0 <= i < |e.held.state.reviews| ==> !IsHuman(g, e.held.state.reviews[i].phaseId))
    && (forall id :: Count(e, id) <= IterationCap(cfg) + LoopBacks(e))
    && (forall id :: Ahead(g, e, id) ==> Count(e, id) < IterationCap(cfg) + LoopBacks(e))
  }

  // ---- One step -------------------------------------------------------------------------------

  lemma {:induction false} NoHumanNoCount(g: PhaseGraph, rs: seq<ReviewEntry>, id: PhaseId)
    requires IsHuman(g, id) && forall i :: 0 <= i < |rs| ==> !IsHuman(g, rs[i].phaseId)
    ensures CountReviews(rs, id) == 0
  {
    if rs != [] {
      NoHumanNoCount(g, rs[..|rs| - 1], id);
    }
  }

  /** In a run without human entries no decision is ever waiting. */
  lemma {:induction false} NoDecisionWaiting(g: PhaseGraph, e: Engine, p: PhaseDefinition)
    requires Get(g, p.phaseId) == Some(p)
    requires NumberedReviews(e.held.state.reviews)
    requires forall i :: 0 <= i < |e.held.state.reviews| ==> !IsHuman(g, e.held.state.reviews[i].phaseId)
    ensures HumanDecision(e, p).None?
  {
    DecisionHasNewestNumber(e, p);
    if p.human {
      NoHumanNoCount(g, e.held.state.reviews, p.phaseId);
    }
  }

  /** Moving down keeps the budget: what lies ahead lay ahead before. */
  lemma DescentKeepsBudget(g: PhaseGraph, cfg: Config, e: Engine, n: Engine)
    requires Budgeted(g, cfg, e) && AtEntry(n)
    requires n.held.state == e.held.state.(currentPhase := n.held.state.currentPhase)
    requires !(e.pc.ReviewDecide? && e.pc.decision.RequestChanges?)
    requires Rank(g, Everywhere(g), n.held.state.currentPhase) < Rank(g, Everywhere(g), e.held.state.currentPhase)
    ensures Budgeted(g, cfg, n)
  {
    hide Rank;
    assert forall id :: Count(n, id) == Count(e, id);
    forall id | Ahead(g, n, id) ensures Ahead(g, e, id) {
    }
  }

  /** A loop-back opens a new pass. */
  lemma {:induction false} LoopBackKeepsBudget(g: PhaseGraph, cfg: Config, e: Engine, n: Engine)
    requires Budgeted(g, cfg, e) && AtEntry(n)
    requires n.held.state == e.held.state.(currentPhase := n.held.state.currentPhase)
    requires e.pc.ReviewDecide? && e.pc.decision.RequestChanges?
    requires e.held.state.feedbackLoops < TopCap(cfg, g)
    ensures Budgeted(g, cfg, n)
  {
    hide Rank;
    assert forall id :: Count(n, id) == Count(e, id);
  }

  lemma IterationKeepsBudget(g: PhaseGraph, cfg: Config, e: Engine, n: Engine, entry: IterationEntry)
    requires Budgeted(g, cfg, e) && e.pc.ExecTop? && n.pc.ExecDecide?
    requires entry.phaseId == e.held.state.currentPhase
    requires n.held.state == e.held.state.(iterations := e.held.state.iterations + [entry])
    ensures Budgeted(g, cfg, n)
    ensures forall id :: Count(n, id) == Count(e, id) + if id == entry.phaseId then 1 else 0
  {
    hide Rank;
    forall id ensures Count(n, id) == Count(e, id) + if id == entry.phaseId then 1 else 0 {
      CountIterationsAppend(e.held.state.iterations, entry, id);
    }
    assert Ahead(g, e, entry.phaseId);
    forall id | Ahead(g, n, id) ensures Ahead(g, e, id) && id != entry.phaseId {
    }
  }

  lemma RepeatKeepsBudget(g: PhaseGraph, cfg: Config, e: Engine, n: Engine)
    requires Budgeted(g, cfg, e) && e.pc.ExecDecide? && n == e.(pc := n.pc) && n.pc.ExecTop?
    requires Count(e, e.held.state.currentPhase) < IterationCap(cfg)
    ensures Budgeted(g, cfg, n)
  {
    hide Rank;
    assert forall id :: Count(n, id) == Count(e, id);
    forall id | Ahead(g, n, id) ensures Count(n, id) < IterationCap(cfg) + LoopBacks(n) {
      if id != e.held.state.currentPhase { assert Ahead(g, e, id); }
    }
  }

  lemma VerdictKeepsBudget(g: PhaseGraph, cfg: Config, e: Engine, n: Engine, r: ReviewEntry, delta: nat)
    requires Budgeted(g, cfg, e) && e.pc.ReviewTop? && n.pc.ReviewDecide? && !IsHuman(g, r.phaseId)
    requires delta == if n.pc.decision.RequestChanges? then 1 else 0
    requires n.held.state == e.held.state.(reviews := e.held.state.reviews + [r],
                                           feedbackLoops := e.held.state.feedbackLoops + delta)
    ensures Budgeted(g, cfg, n)
  {
    hide Rank;
    assert forall id :: Count(n, id) == Count(e, id);
    forall id | Ahead(g, n, id) ensures Ahead(g, e, id) {
    }
  }

  /** A step that goes on keeps the budget. */
  lemma StepKeepsBudget(g: PhaseGraph, cfg: Config, d: Disk, e: Engine, inp: Input)
    requires ValidGraph(g) && LoopFree(g) && Sound(g, d, e) && Running(e) && Budgeted(g, cfg, e)
    requires Running(Step(g, cfg, d, e, inp).next)
    ensures Budgeted(g, cfg, Step(g, cfg, d, e, inp).next)
    ensures var n := Step(g, cfg, d, e, inp).next;
            forall id :: Count(n, id) == Count(e, id) +
              if e.pc.ExecTop? && id == e.held.state.currentPhase then 1 else 0
  {
    hide Step, PlanOf, ValidGraph, LoopFreeIn, Everywhere, Budgeted, Rank, ReviewOk, IterationOk, PlanReviewTop, FreeIds;
    var n := Step(g, cfg, d, e, inp).next;
    var plan := PlanOf(cfg, d, e, inp);
    StepShapeOnward(g, cfg, d, e, inp);
    PlanIsOk(g, cfg, d, e, inp);
    match e.pc {
      case ExecTop(p, _) =>
        ExecTopShape(cfg, d, e, inp);
        IterationKeepsBudget(g, cfg, e, n, plan.commit.iteration);
      case ExecDecide(p, count, _, _) =>
        ExecDecideShape(g, cfg, d, e, inp);
        if plan.Stay? {
          RepeatKeepsBudget(g, cfg, e, n);
        } else {
          UngatedIsFree(g, p);
          ForwardGoesDown(g, Everywhere(g), p.phaseId, plan.commit.target);
          DescentKeepsBudget(g, cfg, e, n);
        }
      case ReviewTop(p) =>
        PlanAtReviewTop(cfg, d, e, inp);
        ReviewTopShape(g, d, e, inp);
        NoHumanEntries(g, cfg, e);
        NoDecisionWaiting(g, e, p);
        VerdictKeepsBudget(g, cfg, e, n, plan.commit.verdict, plan.commit.delta);
      case ReviewDecide(p, decision, _) =>
        ReviewDecideShape(g, cfg, d, e, inp);
        if decision.Approve? {
          UngatedIsFree(g, p);
          ForwardGoesDown(g, Everywhere(g), p.phaseId, plan.commit.target);
          DescentKeepsBudget(g, cfg, e, n);
        } else {
          TopCapCovers(cfg, g, p.phaseId);
          LoopBackKeepsBudget(g, cfg, e, n);
        }
    }
  }

  lemma NoHumanEntries(g: PhaseGraph, cfg: Config, e: Engine)
    requires Budgeted(g, cfg, e)
    ensures forall i :: 0 <= i < |e.held.state.reviews| ==> !IsHuman(g, e.held.state.reviews[i].phaseId)
  {
  }

  // ---- Calls of one step ----------------------------------------------------------------------

  predicate Silent(trace: seq<Effect>) {
    forall i :: 0 <= i < |trace| ==> !trace[i].AskExecutor?
  }

  lemma {:induction false} SilentMakesNoCall(trace: seq<Effect>, id: PhaseId)
    requires Silent(trace)
    ensures Calls(trace, id) == 0
  {
    if trace != [] {
      SilentMakesNoCall(trace[1..], id);
    }
  }

  /** A plan calls its role first. */
  predicate AsksFirst(e: Engine, before: seq<Effect>) {
    && (before != [] ==> Silent(before[1..]))
    && (before != [] && before[0].AskExecutor? ==> e.pc.ExecTop? && before[0].phaseId == e.pc.phase.phaseId)
  }

  lemma PlanAsksFirst(cfg: Config, d: Disk, e: Engine, inp: Input)
    requires Running(e)
    ensures var plan := PlanOf(cfg, d, e, inp);
            plan.Fail? || plan.Save? ==> AsksFirst(e, plan.before)
  {
    hide PlanIteration, PlanVerdict, HumanDecision, HistoryFor, AsksFirst;
    NoAsking(e);
    if e.pc.ExecTop? && inp.execution.Returned? && inp.execution.value.endedAt.Some? {
      forall st, previous {
        IterationAsksFirst(cfg, e, inp, AskExecutor(e.pc.phase.phaseId, st, previous));
      }
    } else if e.pc.ReviewTop? && inp.review.Returned? && inp.review.value.endedAt.Some? {
      forall st, previous {
        VerdictAsksFirst(e, inp, AskReviewer(e.pc.phase.phaseId, st, previous));
      }
    }
  }

  lemma NoAsking(e: Engine)
    ensures AsksFirst(e, [])
    ensures e.pc.ExecTop? ==> forall st, previous :: AsksFirst(e, [AskExecutor(e.pc.phase.phaseId, st, previous)])
    ensures forall id, st, previous :: AsksFirst(e, [AskReviewer(id, st, previous)])
  {
  }

  lemma IterationAsksFirst(cfg: Config, e: Engine, inp: Input, ask: Effect)
    requires e.pc.ExecTop? && ask.AskExecutor? && ask.phaseId == e.pc.phase.phaseId
    requires inp.execution.Returned? && inp.execution.value.endedAt.Some?
    ensures var plan := PlanIteration(cfg, e, e.pc.phase, e.pc.count, inp, inp.execution.value, [ask]);
            plan.Fail? || plan.Save? ==> AsksFirst(e, plan.before)
  {
    hide AfterIteration;
  }

  lemma VerdictAsksFirst(e: Engine, inp: Input, ask: Effect)
    requires e.pc.ReviewTop? && ask.AskReviewer?
    requires inp.review.Returned? && inp.review.value.endedAt.Some?
    ensures var plan := PlanVerdict(e, e.pc.phase, inp, inp.review.value, [ask]);
            plan.Fail? || plan.Save? ==> AsksFirst(e, plan.before)
  {
    hide ValidPayload, ResolveReview;
  }

  lemma {:induction false} AsksFirstCalls(e: Engine, before: seq<Effect>, id: PhaseId)
    requires AsksFirst(e, before)
    ensures Calls(before, id) <= if e.pc.ExecTop? && id == e.pc.phase.phaseId then 1 else 0
  {
    if before != [] {
      SilentMakesNoCall(before[1..], id);
    }
  }

  lemma StepOut(g: PhaseGraph, cfg: Config, d: Disk, e: Engine, inp: Input) returns (before: seq<Effect>, tail: seq<Effect>)
    requires Running(e)
    ensures Step(g, cfg, d, e, inp).out == before + tail && AsksFirst(e, before) && Silent(tail)
  {
    hide Abort, Conclude, PlanOf;
    var plan, m := PlanOf(cfg, d, e, inp), MarkApplied(e);
    PlansAreOrdered(cfg, d, e, inp);
    PlanAsksFirst(cfg, d, e, inp);
    before := BeforeOf(plan);
    if plan.Fail? {
      tail := AbortShape(g, m, before, plan.error, inp.now);
    } else if plan.Save? {
      var err := SaveError(d, m.held.revision);
      if err.Some? {
        tail := AbortShape(g, m, before, err.value, inp.now);
      } else {
        var e1 := Saved(m, plan.commit);
        var end := ConcludeShape(g, cfg, e1, before + Written(e1), plan.commit, plan.next, inp.now);
        tail := Written(e1) + end;
        assert before + Written(e1) + end == before + tail;
      }
    } else {
      tail := [];
    }
  }

  /** A step calls at most one executor, that of the current phase, and only at the loop top. */
  lemma {:induction false} StepCalls(g: PhaseGraph, cfg: Config, d: Disk, e: Engine, inp: Input, id: PhaseId)
    requires Running(e)
    ensures Calls(Step(g, cfg, d, e, inp).out, id) <= if e.pc.ExecTop? && id == e.pc.phase.phaseId then 1 else 0
  {
    hide Step;
    var before, tail := StepOut(g, cfg, d, e, inp);
    AsksFirstCalls(e, before, id);
    SilentMakesNoCall(tail, id);
    CallsConcat(before, tail, id);
  }

  // ---- The bound ------------------------------------------------------------------------------

  lemma {:induction false} RunCalls(g: PhaseGraph, cfg: Config, d: Disk, e: Engine, inputs: seq<Input>, id: PhaseId)
    requires ValidGraph(g) && LoopFree(g) && Sound(g, d, e)
    requires Running(e) ==> Budgeted(g, cfg, e)
    ensures Running(e) ==>
      Calls(Exec(g, cfg, d, e, inputs).trace, id) + Count(e, id) <= IterationCap(cfg) + FeedbackCap(cfg, g) - 1
    ensures !Running(e) ==> Exec(g, cfg, d, e, inputs).trace == []
    decreases |inputs|
  {
    hide Step, ValidGraph, LoopFreeIn, Everywhere, WellFormed, Rank;
    if inputs != [] && Running(e) {
      var o := Step(g, cfg, d, e, inputs[0]);
      StepKeepsSound(g, cfg, d, e, inputs[0]);
      StepCalls(g, cfg, d, e, inputs[0], id);
      if Running(o.next) {
        StepKeepsBudget(g, cfg, d, e, inputs[0]);
      }
      RunCalls(g, cfg, Apply(d, o.out), o.next, inputs[1..], id);
      CallsConcat(o.out, Exec(g, cfg, Apply(d, o.out), o.next, inputs[1..]).trace, id);
    }
  }

  lemma FreshBoot(g: PhaseGraph, cfg: Config, d: Disk, req: RunRequest)
    requires d.state.None?
    ensures var o := Boot(g, cfg, d, req); Silent(o.out) && (Running(o.next) ==> Budgeted(g, cfg, o.next))
  {
  }

  /** A fresh run without free cycles calls each executor at most max_iterations + C - 1 times, each at least 1,
      whatever the roles answer, where at C the feedback rounds of every automated phase are used up. */
  lemma {:induction false} FreshRunCalls(g: PhaseGraph, cfg: Config, d: Disk, req: RunRequest, inputs: seq<Input>,
                                         id: PhaseId, cap: nat)
    requires ValidGraph(g) && LoopFree(g) && d.state.None? && CapsAtMost(cfg, g, cap)
    ensures Calls(Session(g, cfg, d, req, inputs).trace, id) <= Max(1, cfg.maxIterations) + Max(1, cap) - 1
  {
    hide Exec, ValidGraph, LoopFreeIn, Everywhere, Rank, Boot, WellFormed, CapsAtMost;
    TopCapIsLeast(cfg, g, cap);
    BootKeepsSound(g, cfg, d, req);
    var o := Boot(g, cfg, d, req);
    FreshBoot(g, cfg, d, req);
    SilentMakesNoCall(o.out, id);
    RunCalls(g, cfg, Apply(d, o.out), o.next, inputs, id);
    CallsConcat(o.out, Exec(g, cfg, Apply(d, o.out), o.next, inputs).trace, id);
  }
}
