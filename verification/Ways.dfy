/** The ways through a graph that a session begun on it can take, under the feedback caps of one configuration;
    and that lives end where no forward cycle that avoids the human gates lies on such a way. */
module Ways {
  import opened Wrappers
  import opened Graph
  import opened State
  import opened Events
  import opened Disk
  import opened Machine
  import opened Invariants
  import opened Sessions
  import opened Cycles
  import opened Termination

  /** A request for changes by an automated reviewer, where the phase does not also lead forward there. */
  predicate LoopsBack(p: PhaseDefinition, q: PhaseId) {
    q !in ForwardTargets(p) && !p.human
  }

  /** A session at a phase can go on to another one, after so much feedback: forward, wherever a human decides, or
      back on a request for changes that stays below the cap. */
  predicate Onward(g: PhaseGraph, cfg: Config, id: PhaseId, q: PhaseId, loops: int) {
    && Get(g, id).Some?
    && var p := Get(g, id).value;
    || q in ForwardTargets(p)
    || (p.kind.ReviewKind? && q in p.canRequestChangesFrom && (p.human || !RoundsUsedUp(cfg, p, loops + 1)))
  }

  function CostOf(g: PhaseGraph, id: PhaseId, q: PhaseId): nat {
    if Get(g, id).Some? && LoopsBack(Get(g, id).value, q) then 1 else 0
  }

  /** The requests for changes a way takes. */
  function Cost(g: PhaseGraph, way: seq<PhaseId>): nat {
    if |way| <= 1 then 0 else Cost(g, way[..|way| - 1]) + CostOf(g, way[|way| - 2], way[|way| - 1])
  }

  /** A way from the first phase that comes to no phase twice. */
  predicate Way(g: PhaseGraph, cfg: Config, way: seq<PhaseId>)
    decreases |way|
  {
    && way != []
    && if |way| == 1 then g != [] && way[0] == g[0].phaseId
       else
         var front, q := way[..|way| - 1], way[|way| - 1];
         Way(g, cfg, front) && Onward(g, cfg, front[|front| - 1], q, Cost(g, front)) && q !in front
  }

  predicate EndsAt(way: seq<PhaseId>, id: PhaseId) {
    way != [] && way[|way| - 1] == id
  }

  /** Some way leads to a phase at no more than a given cost. */
  ghost predicate Visits(g: PhaseGraph, cfg: Config, id: PhaseId, loops: int) {
    exists way :: Way(g, cfg, way) && EndsAt(way, id) && Cost(g, way) <= loops
  }

  ghost predicate Visitable(g: PhaseGraph, cfg: Config, id: PhaseId) {
    exists way :: Way(g, cfg, way) && EndsAt(way, id)
  }

  ghost function Land(g: PhaseGraph, cfg: Config): set<PhaseId> {
    set id | id in Everywhere(g) && Visitable(g, cfg, id)
  }

  lemma {:induction false} PrefixIsAWay(g: PhaseGraph, cfg: Config, way: seq<PhaseId>, k: nat)
    requires Way(g, cfg, way) && 1 <= k <= |way|
    ensures Way(g, cfg, way[..k]) && Cost(g, way[..k]) <= Cost(g, way)
    decreases |way|
  {
    hide Onward, CostOf;
    if k < |way| {
      var front := way[..|way| - 1];
      assert way[..k] == front[..k];
      PrefixIsAWay(g, cfg, front, k);
    } else {
      assert way[..k] == way;
    }
  }

  /** Going on from a way leads along a way: a longer one, or an earlier part of it. */
  lemma GoingOn(g: PhaseGraph, cfg: Config, id: PhaseId, q: PhaseId, loops: int)
    requires Visits(g, cfg, id, loops) && Onward(g, cfg, id, q, loops)
    ensures Visits(g, cfg, q, loops + CostOf(g, id, q))
  {
    hide CostOf, Way, Cost, Onward;
    var way :| Way(g, cfg, way) && EndsAt(way, id) && Cost(g, way) <= loops;
    if q in way {
      var k :| 0 <= k < |way| && way[k] == q;
      PrefixIsAWay(g, cfg, way, k + 1);
      assert EndsAt(way[..k + 1], q);
    } else {
      LongerWay(g, cfg, way, q, loops);
      assert EndsAt(way + [q], q);
    }
  }

  lemma {:induction false} LongerWay(g: PhaseGraph, cfg: Config, way: seq<PhaseId>, q: PhaseId, loops: int)
    requires Way(g, cfg, way) && q !in way && Cost(g, way) <= loops && Onward(g, cfg, way[|way| - 1], q, loops)
    ensures Way(g, cfg, way + [q]) && Cost(g, way + [q]) == Cost(g, way) + CostOf(g, way[|way| - 1], q)
  {
    hide CostOf;
    assert (way + [q])[..|way|] == way;
  }

  lemma VisitsMore(g: PhaseGraph, cfg: Config, id: PhaseId, a: int, b: int)
    requires Visits(g, cfg, id, a) && a <= b
    ensures Visits(g, cfg, id, b)
  {
    hide Way, Cost;
  }

  lemma FirstIsVisited(g: PhaseGraph, cfg: Config)
    requires g != []
    ensures Visits(g, cfg, g[0].phaseId, 0)
  {
    assert Way(g, cfg, [g[0].phaseId]) && EndsAt([g[0].phaseId], g[0].phaseId);
  }

  // ---- Every snapshot stands on a way ---------------------------------------------------------

  ghost predicate OnAWay(g: PhaseGraph, cfg: Config, st: SessionState) {
    Visits(g, cfg, st.currentPhase, st.feedbackLoops)
  }

  ghost predicate DiskOnAWay(g: PhaseGraph, cfg: Config, d: Disk) {
    d.state.Some? ==> OnAWay(g, cfg, d.state.value)
  }

  /** A request for changes is counted before the move it leads to. */
  function Due(e: Engine): int {
    if e.pc.ReviewDecide? && e.pc.decision.RequestChanges? then 1 else 0
  }

  ghost predicate EngineOnAWay(g: PhaseGraph, cfg: Config, e: Engine) {
    Visits(g, cfg, e.held.state.currentPhase, e.held.state.feedbackLoops - Due(e))
  }

  ghost predicate SavesOnAWay(g: PhaseGraph, cfg: Config, trace: seq<Effect>) {
    forall i :: 0 <= i < |trace| && trace[i].StateWrite? ==> OnAWay(g, cfg, trace[i].state)
  }

  lemma {:induction false} CutOnAWay(g: PhaseGraph, cfg: Config, d: Disk, trace: seq<Effect>)
    requires DiskOnAWay(g, cfg, d) && SavesOnAWay(g, cfg, trace)
    ensures DiskOnAWay(g, cfg, Apply(d, trace))
    decreases |trace|
  {
    hide OnAWay;
    if trace != [] {
      assert trace[0] in trace;
      CutOnAWay(g, cfg, ApplyEffect(d, trace[0]), trace[1..]);
    }
  }

  lemma OneSaveOnAWay(g: PhaseGraph, cfg: Config, before: seq<Effect>, s: Stored, tail: seq<Effect>)
    requires NoSave(before) && NoSave(tail) && OnAWay(g, cfg, s.state)
    ensures SavesOnAWay(g, cfg, before + [StateWrite(s.state), RevisionWrite(s.revision)] + tail)
  {
    hide OnAWay;
  }

  /** A move goes along the graph, and a loop-back is below the cap. */
  lemma MoveIsOnward(g: PhaseGraph, cfg: Config, d: Disk, e: Engine, inp: Input)
    requires Sound(g, d, e) && Commits(cfg, d, e, inp) && CommitOf(cfg, d, e, inp).Move?
    ensures var c, st := CommitOf(cfg, d, e, inp), e.held.state;
            && Onward(g, cfg, st.currentPhase, c.target, st.feedbackLoops - Due(e))
            && CostOf(g, st.currentPhase, c.target) <= Due(e)
  {
    hide PlanOf, WellFormed, HumanDecision;
    match e.pc {
      case ExecTop(_, _) => ExecTopMovesNot(cfg, d, e, inp);
      case ExecDecide(_, _, _, _) => ExecDecideShape(g, cfg, d, e, inp);
      case ReviewTop(_) =>
        PlanAtReviewTop(cfg, d, e, inp);
        DecisionMoves(g, d, e, inp);
      case ReviewDecide(_, _, _) =>
        ReviewDecideShape(g, cfg, d, e, inp);
        LoopBackTarget(g, cfg, d, e, inp);
    }
  }

  lemma ExecTopMovesNot(cfg: Config, d: Disk, e: Engine, inp: Input)
    requires e.pc.ExecTop? && PlanOf(cfg, d, e, inp).Save?
    ensures !PlanOf(cfg, d, e, inp).commit.Move?
  {
    hide HistoryFor, AfterIteration;
  }

  lemma DecisionMoves(g: PhaseGraph, d: Disk, e: Engine, inp: Input)
    requires Sound(g, d, e) && e.pc.ReviewTop?
    ensures var plan, p := PlanReviewTop(d, e, e.pc.phase, inp), e.pc.phase;
            plan.Save? && plan.commit.Move? ==> p.human && plan.commit.target in p.onApprove + p.canRequestChangesFrom
  {
    hide HumanDecision, HistoryFor, NumberedReviews, NumberedIterations, IterationOk, ReviewOk, AutomatedChanges;
    DecisionHasNewestNumber(e, e.pc.phase);
  }

  lemma LoopBackTarget(g: PhaseGraph, cfg: Config, d: Disk, e: Engine, inp: Input)
    requires Sound(g, d, e) && e.pc.ReviewDecide? && PlanOf(cfg, d, e, inp).Save? && PlanOf(cfg, d, e, inp).commit.Move?
    ensures e.pc.decision.RequestChanges? ==> PlanOf(cfg, d, e, inp).commit.target in e.pc.phase.canRequestChangesFrom
  {
    hide WellFormed;
  }

  lemma StepStaysOnAWay(g: PhaseGraph, cfg: Config, d: Disk, e: Engine, inp: Input)
    requires ValidGraph(g) && Sound(g, d, e) && Running(e) && EngineOnAWay(g, cfg, e)
    ensures var o := Step(g, cfg, d, e, inp);
            && SavesOnAWay(g, cfg, o.out)
            && (Running(o.next) ==> EngineOnAWay(g, cfg, o.next))
  {
    hide ValidGraph, Step, PlanOf, WellFormed, PcOk, Visits, SavesOnAWay, Groundwork, Aftermath;
    var o := Step(g, cfg, d, e, inp);
    var before, tail := StepShape(g, cfg, d, e, inp);
    OrderedIsNoSave(before, tail);
    if Commits(cfg, d, e, inp) {
      CommitStaysOnAWay(g, cfg, d, e, inp);
      OneSaveOnAWay(g, cfg, before, o.next.held, tail);
    } else {
      NoSaveOnAWay(g, cfg, before + tail);
      if Running(o.next) {
        StayIsNotDue(g, cfg, d, e, inp);
        VisitsMore(g, cfg, e.held.state.currentPhase, e.held.state.feedbackLoops - Due(e), e.held.state.feedbackLoops);
      }
    }
  }

  lemma NoSaveOnAWay(g: PhaseGraph, cfg: Config, trace: seq<Effect>)
    requires NoSave(trace)
    ensures SavesOnAWay(g, cfg, trace)
  {
  }

  lemma StayIsNotDue(g: PhaseGraph, cfg: Config, d: Disk, e: Engine, inp: Input)
    requires Sound(g, d, e) && Running(e) && !Commits(cfg, d, e, inp) && Running(Step(g, cfg, d, e, inp).next)
    ensures Due(Step(g, cfg, d, e, inp).next) == 0
  {
    hide PlanOf, WellFormed, PcOk, Step;
    StepShapeOnward(g, cfg, d, e, inp);
    match e.pc
    case ExecTop(_, _) => ExecTopShape(cfg, d, e, inp);
    case ExecDecide(_, _, _, _) => DecidesInside(g, d, e); ExecDecideShape(g, cfg, d, e, inp);
    case ReviewTop(_) =>
      PlanAtReviewTop(cfg, d, e, inp);
      ReviewTopShape(g, d, e, inp);
    case ReviewDecide(_, _, _) => ReviewDecideShape(g, cfg, d, e, inp);
  }

  lemma DecidesInside(g: PhaseGraph, d: Disk, e: Engine)
    requires Sound(g, d, e) && e.pc.ExecDecide?
    ensures e.pc.phase.kind.ExecutorKind?
  {
    hide WellFormed;
  }

  /** The snapshot a step saves, and the engine it leaves. */
  lemma CommitStaysOnAWay(g: PhaseGraph, cfg: Config, d: Disk, e: Engine, inp: Input)
    requires ValidGraph(g) && Sound(g, d, e) && EngineOnAWay(g, cfg, e) && Commits(cfg, d, e, inp)
    ensures var n := Step(g, cfg, d, e, inp).next;
            OnAWay(g, cfg, n.held.state) && (Running(n) ==> EngineOnAWay(g, cfg, n))
  {
    hide ValidGraph, Step, PlanOf, WellFormed, PcOk, Visits, Onward, CostOf;
    var n, c := Step(g, cfg, d, e, inp).next, CommitOf(cfg, d, e, inp);
    var before, tail := StepShape(g, cfg, d, e, inp);
    var st := e.held.state;
    var loops := st.feedbackLoops - Due(e);
    if c.Move? {
      MoveIsOnward(g, cfg, d, e, inp);
      GoingOn(g, cfg, st.currentPhase, c.target, loops);
      VisitsMore(g, cfg, c.target, loops + CostOf(g, st.currentPhase, c.target), st.feedbackLoops);
      EnteringIsNotDue(g, cfg, d, e, inp);
    } else {
      VisitsMore(g, cfg, st.currentPhase, loops, st.feedbackLoops);
      VisitsMore(g, cfg, st.currentPhase, st.feedbackLoops, ApplyCommit(st, c).feedbackLoops);
      if Running(n) {
        OthersAreDue(g, cfg, d, e, inp);
        VisitsMore(g, cfg, st.currentPhase, st.feedbackLoops, n.held.state.feedbackLoops - Due(n));
      }
    }
  }

  lemma EnteringIsNotDue(g: PhaseGraph, cfg: Config, d: Disk, e: Engine, inp: Input)
    requires Commits(cfg, d, e, inp) && CommitOf(cfg, d, e, inp).Move?
    ensures Due(Step(g, cfg, d, e, inp).next) == 0
  {
    hide HumanDecision, HistoryFor, AfterIteration, ValidPayload, ResolveReview, Announce;
  }

  lemma OthersAreDue(g: PhaseGraph, cfg: Config, d: Disk, e: Engine, inp: Input)
    requires Sound(g, d, e) && Commits(cfg, d, e, inp) && !CommitOf(cfg, d, e, inp).Move?
    requires Running(Step(g, cfg, d, e, inp).next)
    ensures var n := Step(g, cfg, d, e, inp).next; Due(n) <= n.held.state.feedbackLoops - e.held.state.feedbackLoops
  {
    hide PlanOf, WellFormed, PcOk, Step;
    StepShapeOnward(g, cfg, d, e, inp);
    PlanIsOk(g, cfg, d, e, inp);
    match e.pc
    case ExecTop(_, _) => ExecTopShape(cfg, d, e, inp);
    case ExecDecide(_, _, _, _) => DecidesInside(g, d, e); ExecDecideShape(g, cfg, d, e, inp);
    case ReviewTop(_) =>
      PlanAtReviewTop(cfg, d, e, inp);
      ReviewTopShape(g, d, e, inp);
    case ReviewDecide(_, _, _) => ReviewDecideShape(g, cfg, d, e, inp);
  }

  // ---- Runs and lives -------------------------------------------------------------------------

  lemma {:induction false} ExecStaysOnAWay(g: PhaseGraph, cfg: Config, d: Disk, e: Engine, inputs: seq<Input>)
    requires ValidGraph(g) && Sound(g, d, e) && (Running(e) ==> EngineOnAWay(g, cfg, e))
    ensures SavesOnAWay(g, cfg, Exec(g, cfg, d, e, inputs).trace)
    decreases |inputs|
  {
    hide ValidGraph, Step, Sound, EngineOnAWay, OnAWay;
    if inputs != [] && Running(e) {
      var o := Step(g, cfg, d, e, inputs[0]);
      StepStaysOnAWay(g, cfg, d, e, inputs[0]);
      StepKeepsSound(g, cfg, d, e, inputs[0]);
      ExecStaysOnAWay(g, cfg, Apply(d, o.out), o.next, inputs[1..]);
    }
  }

  lemma BootStaysOnAWay(g: PhaseGraph, cfg: Config, d: Disk, req: RunRequest)
    requires g != [] && DiskOnAWay(g, cfg, d)
    ensures var o := Boot(g, cfg, d, req);
            SavesOnAWay(g, cfg, o.out) && (Running(o.next) ==> EngineOnAWay(g, cfg, o.next))
  {
    hide Boot, Launch, Visits;
    FirstIsVisited(g, cfg);
    BootIsLaunch(g, cfg, d, req);
    if !Rejected(d, req) {
      var out := InitialWrites(g, d, req);
      LaunchStaysOnAWay(g, cfg, Apply(d, out), LoadedState(g, d, req), out, req);
    }
  }

  lemma LaunchStaysOnAWay(g: PhaseGraph, cfg: Config, d: Disk, s: Stored, out: seq<Effect>, req: RunRequest)
    requires OnAWay(g, cfg, s.state) && SavesOnAWay(g, cfg, out)
    ensures var o := Launch(g, cfg, d, s, out, req);
            SavesOnAWay(g, cfg, o.out) && (Running(o.next) ==> EngineOnAWay(g, cfg, o.next))
  {
    hide Conclude, Abort, Visits;
    var e := Fresh(Timed(s, req), Finished);
    var st := e.held.state;
    if Terminal(st.status) {
    } else if !req.preflight {
      var end := AbortShape(g, e, out, ConfigurationError, req.now);
    } else if st.status.Initialized? {
      var err := SaveError(d, e.held.revision);
      if err.Some? {
        var end := AbortShape(g, e, out, err.value, req.now);
      } else {
        var e1 := Saved(e, Begin);
        var end := ConcludeShape(g, cfg, e1, out + Written(e1), Begin, Enter, req.now);
        StartIsNotDue(g, cfg, e1, out + Written(e1), req.now);
      }
    } else {
      var p := Get(g, st.currentPhase);
      if p.None? {
        var end := AbortShape(g, e, out, ConfigurationError, req.now);
      } else {
        var resumed := RunResumed(st.sessionId, p.value.phaseId, p.value.roleId, p.value.kind, e.held.revision, req.now);
        var end := EnterShape(g, e, out + [Emit(resumed)], req.now);
      }
    }
  }

  lemma StartIsNotDue(g: PhaseGraph, cfg: Config, e: Engine, out: seq<Effect>, now: Time)
    ensures Due(Conclude(g, cfg, e, out, Begin, Enter, now).next) == 0
  {
    hide Announce;
  }

  /** All runs of a life use one configuration. */
  predicate Settings(cfg: Config, deeds: seq<Deed>) {
    forall i :: 0 <= i < |deeds| && deeds[i].RunDeed? ==> deeds[i].cfg == cfg
  }

  lemma DeedStaysOnAWay(g: PhaseGraph, cfg: Config, d: Disk, deed: Deed)
    requires ValidGraph(g) && DiskOk(g, d) && DiskOnAWay(g, cfg, d) && (deed.RunDeed? ==> deed.cfg == cfg)
    ensures DiskOnAWay(g, cfg, Live(g, d, deed))
  {
    assert g != [];
    hide ValidGraph, WellFormed, Boot, Exec, Visits, PcOk;
    if deed.RunDeed? {
      var o := Boot(g, cfg, d, deed.req);
      BootKeepsSound(g, cfg, d, deed.req);
      BootStaysOnAWay(g, cfg, d, deed.req);
      ExecStaysOnAWay(g, cfg, Apply(d, o.out), o.next, deed.inputs);
      CutOnAWay(g, cfg, d, Surviving(g, d, deed));
    }
  }

  lemma {:induction false} LifeStaysOnAWay(g: PhaseGraph, cfg: Config, d: Disk, deeds: seq<Deed>)
    requires ValidGraph(g) && DiskOk(g, d) && DiskOnAWay(g, cfg, d) && Settings(cfg, deeds)
    ensures DiskOk(g, LiveAll(g, d, deeds)) && DiskOnAWay(g, cfg, LiveAll(g, d, deeds))
    decreases |deeds|
  {
    hide ValidGraph, DiskOk, DiskOnAWay, Live;
    if deeds != [] {
      LiveKeepsOk(g, d, deeds[0]);
      DeedStaysOnAWay(g, cfg, d, deeds[0]);
      LifeStaysOnAWay(g, cfg, Live(g, d, deeds[0]), deeds[1..]);
    }
  }

  // ---- Lives end ------------------------------------------------------------------------------

  lemma VisitedIsLand(g: PhaseGraph, cfg: Config, d: Disk, e: Engine)
    requires Sound(g, d, e) && Running(e) && EngineOnAWay(g, cfg, e)
    ensures e.held.state.currentPhase in Land(g, cfg)
  {
    hide Way, Cost, Sound, Everywhere;
    CurrentIsSomewhere(g, d, e);
  }

  lemma {:induction false} RunOnAWayEnds(g: PhaseGraph, cfg: Config, d: Disk, e: Engine, inputs: seq<Input>)
    requires ValidGraph(g) && LoopFreeIn(g, Land(g, cfg)) && Sound(g, d, e) && (Running(e) ==> EngineOnAWay(g, cfg, e))
    requires Measure(cfg, g, Land(g, cfg), e) < |inputs|
    ensures !Running(Exec(g, cfg, d, e, inputs).engine)
    decreases |inputs|
  {
    hide Step, ValidGraph, LoopFreeIn, Sound, Land, Measure, EngineOnAWay;
    if Running(e) {
      var o := Step(g, cfg, d, e, inputs[0]);
      StepKeepsSound(g, cfg, d, e, inputs[0]);
      StepStaysOnAWay(g, cfg, d, e, inputs[0]);
      if Running(o.next) {
        VisitedIsLand(g, cfg, d, e);
        StepLowersMeasure(g, Land(g, cfg), cfg, d, e, inputs[0]);
        RunOnAWayEnds(g, cfg, Apply(d, o.out), o.next, inputs[1..]);
      }
    }
  }

  /** Every run in every life of a session begun on this graph, with this configuration, stops within so many steps. */
  ghost predicate LivesHaltWithin(g: PhaseGraph, cfg: Config, bound: nat) {
    forall deeds: seq<Deed>, req: RunRequest, inputs: seq<Input> ::
      Settings(cfg, deeds) && bound <= |inputs| ==>
      !Running(Session(g, cfg, LiveAll(g, EMPTY_DISK, deeds), req, inputs).engine)
  }

  lemma LoopFreeLivesEnd(g: PhaseGraph, cfg: Config)
    requires ValidGraph(g) && LoopFreeIn(g, Land(g, cfg))
    ensures LivesHaltWithin(g, cfg, StepBound(cfg, g))
  {
    assert g != [];
    hide ValidGraph, LoopFreeIn, Land, Boot, Exec, LiveAll, DiskOk, StepBound, Sound, Measure, EngineOnAWay;
    forall deeds: seq<Deed>, req: RunRequest, inputs: seq<Input> | Settings(cfg, deeds) && StepBound(cfg, g) <= |inputs|
      ensures !Running(Session(g, cfg, LiveAll(g, EMPTY_DISK, deeds), req, inputs).engine)
    {
      EmptyIsOk(g, cfg);
      LifeStaysOnAWay(g, cfg, EMPTY_DISK, deeds);
      var d := LiveAll(g, EMPTY_DISK, deeds);
      BootKeepsSound(g, cfg, d, req);
      BootStaysOnAWay(g, cfg, d, req);
      var o := Boot(g, cfg, d, req);
      if Running(o.next) {
        MeasureIsBounded(cfg, g, Land(g, cfg), Apply(d, o.out), o.next);
        RunOnAWayEnds(g, cfg, Apply(d, o.out), o.next, inputs);
      } else {
        Stopped(g, cfg, Apply(d, o.out), o.next, inputs);
      }
    }
  }

  lemma EmptyIsOk(g: PhaseGraph, cfg: Config)
    ensures DiskOk(g, EMPTY_DISK) && DiskOnAWay(g, cfg, EMPTY_DISK)
  {
  }
}
