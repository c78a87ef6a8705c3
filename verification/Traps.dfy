/** Where a forward cycle avoids the human gates, a run need not end: the other half of termination. */
module Traps {
  import opened Wrappers
  import opened Graph
  import opened State
  import opened Events
  import opened Disk
  import opened Machine
  import opened Invariants
  import opened Sessions
  import opened Cycles
  import opened Termination
  import opened Crash
  import opened Lineage

  // ---- A trap keeps a run going ---------------------------------------------------------------

  /** Confidence settings inside the documented range, so that a full score is always good enough. */
  predicate Reachable(cfg: Config) {
    cfg.threshold <= 100 && (cfg.floor.Some? ==> cfg.floor.value <= 100)
  }

  /** Roles that are always satisfied and always choose the same way on. */
  ghost function Contented(roleId: string, t: PhaseId): Input {
    Input(Continue, 0, 0,
          Returned(ExecutionResult(roleId, Some(0), 100, None, [], Some(t), None, None)),
          Returned(ReviewResult(roleId, Some(0), Approve, 100, [], None, Some(t), None)))
  }

  /** Any history of the session can be shown: what its reviews refer to are stored decisions. */
  predicate Readable(st: SessionState, files: map<Ref, Document>) {
    && st.contextId.None?
    && (forall ref :: ref in files ==> files[ref].DecisionDocument?)
    && forall i :: 0 <= i < |st.reviews| && st.reviews[i].findingsRef.Some? ==> st.reviews[i].findingsRef.value in files
  }

  /** Somewhere inside the trap, about to go on to another phase of it. */
  ghost predicate Spinning(g: PhaseGraph, ids: set<PhaseId>, d: Disk, e: Engine) {
    && Sound(g, d, e) && Running(e) && Readable(e.held.state, d.files)
    && e.held.state.currentPhase in ids
    && match e.pc
       case ExecTop(p, _) => true
       case ExecDecide(p, _, score, chosen) =>
         score == 100 && chosen.Some? && chosen.value in ids && chosen.value in p.onComplete
       case ReviewTop(p) => !p.human
       case ReviewDecide(p, decision, next) => decision.Approve? && next.Some? && next.value in ids
       case _ => false
  }

  lemma HistoryIsReadable(d: Disk, st: SessionState, id: PhaseId)
    requires Readable(st, d.files)
    ensures HistoryFor(d, st, id).Success?
  {
  }

  /** No document is handed over. */
  predicate Modest(inp: Input) {
    inp.execution.Returned? ==> inp.execution.value.handoff.None?
  }

  /** A step that hands over no document keeps the session readable. */
  lemma {:induction false} StaysReadable(g: PhaseGraph, cfg: Config, d: Disk, e: Engine, inp: Input)
    requires Running(e) && Readable(e.held.state, d.files)
    requires Modest(inp)
    ensures var o := Step(g, cfg, d, e, inp); Readable(o.next.held.state, Apply(d, o.out).files)
  {
    hide Step, PlanOf, Groundwork, Aftermath, WritesNone, Stores;
    var o := Step(g, cfg, d, e, inp);
    var before, tail := StepShape(g, cfg, d, e, inp);
    PlanStoresFiles(cfg, d, e, inp);
    GroundworkFilesOnly(d, before, StoredBy(e, inp));
    var d1 := Apply(d, before);
    if Commits(cfg, d, e, inp) {
      FilesAfterStep(g, cfg, d, e, inp, before, tail);
      CommitsItsFile(cfg, d, e, inp);
      CommittingStores(cfg, d, e, inp);
      CommitStaysReadable(g, cfg, d, e, inp);
    } else {
      ApplyConcat(d, before, tail);
      AftermathIsSafe(g, d1, tail);
    }
  }

  lemma CommitStaysReadable(g: PhaseGraph, cfg: Config, d: Disk, e: Engine, inp: Input)
    requires Commits(cfg, d, e, inp) && Readable(e.held.state, d.files)
    requires Modest(inp)
    ensures Readable(Held(e, CommitOf(cfg, d, e, inp)).state, FilesBeforeSave(cfg, d, e, inp))
  {
    hide PlanOf, WritesNone;
    CommitsItsFile(cfg, d, e, inp);
    CommittingStores(cfg, d, e, inp);
    StubsRefersToNothing(cfg, d, e, inp);
  }

  lemma StubsRefersToNothing(cfg: Config, d: Disk, e: Engine, inp: Input)
    requires Commits(cfg, d, e, inp)
    ensures CommitOf(cfg, d, e, inp).Stub? ==> CommitOf(cfg, d, e, inp).stub.findingsRef.None?
  {
    hide HumanDecision, HistoryFor, AfterIteration, ValidPayload, ResolveReview;
  }

  /** In a trap every phase has a way on that stays in it, and none is a human gate. */
  lemma TrapPhase(g: PhaseGraph, ids: set<PhaseId>, p: PhaseDefinition) returns (t: PhaseId)
    requires ValidGraph(g) && Trap(g, ids) && Get(g, p.phaseId) == Some(p) && p.phaseId in ids
    ensures t in ids && t in ForwardTargets(p) && Get(g, t).Some?
    ensures !Gated(p) && (p.kind.ExecutorKind? || p.kind.ReviewKind?)
    ensures ResolveTarget(ForwardTargets(p), Some(t)) == Success(Some(t))
  {
    hide ValidGraph, FreeIds, LeadsInto;
    t := WayInto(g, p.phaseId, ids);
    FreeIsKnown(g, p.phaseId);
    FreeIsKnown(g, t);
  }

  lemma WayInto(g: PhaseGraph, id: PhaseId, ids: set<PhaseId>) returns (t: PhaseId)
    requires LeadsInto(g, id, ids)
    ensures t in ids && t in WaysOn(g, id)
  {
    var i :| 0 <= i < |WaysOn(g, id)| && WaysOn(g, id)[i] in ids;
    t := WaysOn(g, id)[i];
  }

  lemma {:induction false} FreeIsKnown(g: PhaseGraph, id: PhaseId)
    requires id in FreeIds(g)
    ensures Get(g, id).Some? && !Gated(Get(g, id).value)
  {
  }

  // ---- Contented roles lead on ----------------------------------------------------------------

  /** A target that is on the list can be chosen. */
  lemma ChosenResolves(targets: seq<PhaseId>, t: PhaseId)
    requires t in targets
    ensures ResolveTarget(targets, Some(t)) == Success(Some(t))
  {
  }

  lemma IterationOfContented(g: PhaseGraph, cfg: Config, d: Disk, e: Engine, t: PhaseId)
    requires e.pc.ExecTop? && SaveError(d, e.held.revision).None? && Readable(e.held.state, d.files)
    ensures var n := Step(g, cfg, d, e, Contented(e.pc.phase.roleId, t)).next;
            && n.pc == ExecDecide(e.pc.phase, e.pc.count + 1, 100, Some(t))
            && n.held.state == e.held.state.(iterations := n.held.state.iterations)
            && n.applied == e.applied
  {
    hide Readable;
    HistoryIsReadable(d, e.held.state, e.pc.phase.phaseId);
    assert e.held.state.contextId.None? by { ReadableHasNoPack(e.held.state, d.files); }
  }

  lemma ReadableHasNoPack(st: SessionState, files: map<Ref, Document>)
    requires Readable(st, files)
    ensures st.contextId.None?
  {
  }

  /** A reviewer that asks for changes. */
  ghost function Critical(roleId: string, t: PhaseId): Input {
    Input(Continue, 0, 0, Raised,
          Returned(ReviewResult(roleId, Some(0), RequestChanges, 100, [], Some(t), None, None)))
  }

  lemma VerdictOfContented(g: PhaseGraph, cfg: Config, d: Disk, e: Engine, t: PhaseId)
    requires e.pc.ReviewTop? && HumanDecision(e, e.pc.phase).None? && !e.pc.phase.human
    requires SaveError(d, e.held.revision).None? && Readable(e.held.state, d.files)
    requires t in e.pc.phase.onApprove
    ensures var n := Step(g, cfg, d, e, Contented(e.pc.phase.roleId, t)).next;
            && n.pc == ReviewDecide(e.pc.phase, Approve, Some(t))
            && OneReview(e, n, 0)
  {
    hide HumanDecision, Readable;
    HistoryIsReadable(d, e.held.state, e.pc.phase.phaseId);
    ChosenResolves(e.pc.phase.onApprove, t);
  }

  lemma VerdictOfCritical(g: PhaseGraph, cfg: Config, d: Disk, e: Engine, t: PhaseId)
    requires e.pc.ReviewTop? && HumanDecision(e, e.pc.phase).None? && !e.pc.phase.human
    requires SaveError(d, e.held.revision).None? && Readable(e.held.state, d.files)
    requires t in e.pc.phase.canRequestChangesFrom
    ensures var n := Step(g, cfg, d, e, Critical(e.pc.phase.roleId, t)).next;
            && n.pc == ReviewDecide(e.pc.phase, RequestChanges, Some(t))
            && OneReview(e, n, 1)
  {
    hide HumanDecision, Readable;
    HistoryIsReadable(d, e.held.state, e.pc.phase.phaseId);
    ChosenResolves(e.pc.phase.canRequestChangesFrom, t);
  }

  /** One more review of the current phase, and so much more feedback. */
  predicate OneReview(e: Engine, n: Engine, delta: nat)
    requires e.pc.ReviewTop?
  {
    && n.applied == e.applied
    && |n.held.state.reviews| == |e.held.state.reviews| + 1
    && n.held.state.reviews[..|e.held.state.reviews|] == e.held.state.reviews
    && n.held.state.reviews[|e.held.state.reviews|].phaseId == e.pc.phase.phaseId
    && n.held.state == e.held.state.(reviews := n.held.state.reviews, feedbackLoops := e.held.state.feedbackLoops + delta)
  }

  /** Standing at the entry of a phase. */
  predicate Enters(g: PhaseGraph, e: Engine, id: PhaseId) {
    Get(g, id).Some? &&
    var p := Get(g, id).value;
    e.pc == if p.kind.ExecutorKind? then ExecTop(p, CountIterations(e.held.state.iterations, id)) else ReviewTop(p)
  }

  /** Ready to move on to a phase. */
  predicate ReadyFor(cfg: Config, e: Engine, t: PhaseId) {
    match e.pc
    case ExecDecide(p, _, score, chosen) => score == 100 && chosen == Some(t) && t in p.onComplete
    case ReviewDecide(p, decision, next) =>
      next == Some(t) && (decision.RequestChanges? ==> !RoundsUsedUp(cfg, p, e.held.state.feedbackLoops))
    case _ => false
  }

  lemma {:induction false} MovesOnward(g: PhaseGraph, cfg: Config, d: Disk, e: Engine, inp: Input, t: PhaseId)
    requires Reachable(cfg) && ReadyFor(cfg, e, t) && inp.signal.Continue? && Get(g, t).Some?
    requires SaveError(d, e.held.revision).None? && e.held.state.status.InProgress?
    ensures var n := Step(g, cfg, d, e, inp).next;
            && n.held.state == e.held.state.(currentPhase := t)
            && Enters(g, n, t)
            && n.applied == e.applied
  {
    hide Announce;
    if e.pc.ExecDecide? {
      ChosenResolves(e.pc.phase.onComplete, t);
    }
    assert PlanOf(cfg, d, e, inp) == Save([], Move(e.pc.phase.phaseId, t), Enter);
  }

  // ---- Spinning -------------------------------------------------------------------------------

  lemma SpinIteration(g: PhaseGraph, cfg: Config, ids: set<PhaseId>, d: Disk, e: Engine) returns (inp: Input)
    requires ValidGraph(g) && Trap(g, ids) && Spinning(g, ids, d, e) && e.pc.ExecTop?
    ensures var n := Step(g, cfg, d, e, inp).next;
            && n.pc.ExecDecide? && n.pc.phase == e.pc.phase && n.pc.score == 100
            && n.pc.chosen.Some? && n.pc.chosen.value in ids && n.pc.chosen.value in e.pc.phase.onComplete
            && n.held.state.currentPhase == e.held.state.currentPhase
    ensures Modest(inp)
  {
    hide WellFormed, ValidGraph, Trap, Step, Readable;
    var p := e.pc.phase;
    var t := TrapPhase(g, ids, p);
    inp := Contented(p.roleId, t);
    IterationOfContented(g, cfg, d, e, t);
  }

  lemma SpinVerdict(g: PhaseGraph, cfg: Config, ids: set<PhaseId>, d: Disk, e: Engine) returns (inp: Input)
    requires ValidGraph(g) && Trap(g, ids) && Spinning(g, ids, d, e) && e.pc.ReviewTop?
    ensures var n := Step(g, cfg, d, e, inp).next;
            && n.pc.ReviewDecide? && n.pc.decision.Approve? && n.pc.next.Some? && n.pc.next.value in ids
            && n.held.state.currentPhase == e.held.state.currentPhase
    ensures Modest(inp)
  {
    hide ValidGraph, Trap, Step, IterationOk, ReviewOk, AutomatedChanges, NumberedIterations, Loadable, Readable;
    var p := e.pc.phase;
    var t := TrapPhase(g, ids, p);
    DecisionHasNewestNumber(e, p);
    inp := Contented(p.roleId, t);
    VerdictOfContented(g, cfg, d, e, t);
  }

  lemma SpinMove(g: PhaseGraph, cfg: Config, ids: set<PhaseId>, d: Disk, e: Engine) returns (inp: Input)
    requires ValidGraph(g) && Trap(g, ids) && Reachable(cfg) && Spinning(g, ids, d, e)
    requires e.pc.ExecDecide? || e.pc.ReviewDecide?
    ensures var n := Step(g, cfg, d, e, inp).next;
            && n.held.state.currentPhase in ids
            && (n.pc.ExecTop? || (n.pc.ReviewTop? && !n.pc.phase.human))
    ensures Modest(inp)
  {
    hide WellFormed, ValidGraph, Trap, Step, Readable;
    var p := e.pc.phase;
    var t := if e.pc.ExecDecide? then e.pc.chosen.value else e.pc.next.value;
    inp := Contented(p.roleId, t);
    FreeInTrap(g, ids, t);
    var q := Get(g, t).value;
    var s := TrapPhase(g, ids, q);
    MovesOnward(g, cfg, d, e, inp, t);
  }

  lemma {:induction false} FreeInTrap(g: PhaseGraph, ids: set<PhaseId>, id: PhaseId)
    requires Trap(g, ids) && id in ids
    ensures Get(g, id).Some? && !Gated(Get(g, id).value)
  {
    hide FreeIds;
    FreeIsKnown(g, id);
  }

  lemma SpinStep(g: PhaseGraph, cfg: Config, ids: set<PhaseId>, d: Disk, e: Engine) returns (inp: Input)
    requires ValidGraph(g) && Trap(g, ids) && Reachable(cfg) && Spinning(g, ids, d, e)
    ensures var o := Step(g, cfg, d, e, inp); Spinning(g, ids, Apply(d, o.out), o.next)
    ensures Modest(inp)
  {
    hide WellFormed, ValidGraph, Trap, Step, PcOk, Readable, Modest;
    match e.pc {
      case ExecTop(_, _) => inp := SpinIteration(g, cfg, ids, d, e);
      case ReviewTop(_) => inp := SpinVerdict(g, cfg, ids, d, e);
      case _ => inp := SpinMove(g, cfg, ids, d, e);
    }
    StepKeepsSound(g, cfg, d, e, inp);
    StaysReadable(g, cfg, d, e, inp);
  }

  lemma {:induction false} SpinOn(g: PhaseGraph, cfg: Config, ids: set<PhaseId>, d: Disk, e: Engine, n: nat)
    returns (inputs: seq<Input>)
    requires ValidGraph(g) && Trap(g, ids) && Reachable(cfg) && Spinning(g, ids, d, e)
    ensures |inputs| == n && Running(Exec(g, cfg, d, e, inputs).engine)
    decreases n
  {
    hide Step, ValidGraph, Trap;
    if n == 0 {
      inputs := [];
    } else {
      var inp := SpinStep(g, cfg, ids, d, e);
      var o := Step(g, cfg, d, e, inp);
      var rest := SpinOn(g, cfg, ids, Apply(d, o.out), o.next, n - 1);
      inputs := [inp] + rest;
      assert inputs[1..] == rest;
    }
  }

  /** Resuming writes nothing and stands at the entry of the current phase. */
  lemma {:induction false} ResumesAt(g: PhaseGraph, cfg: Config, d: Disk, req: RunRequest)
    requires d.state.Some? && Loadable(d.state.value) && d.state.value.status.InProgress?
    requires req.sessionId == d.state.value.sessionId && req.preflight && Get(g, d.state.value.currentPhase).Some?
    ensures var o := Boot(g, cfg, d, req);
            && Apply(d, o.out) == d
            && o.next == Fresh(Stored(d.state.value, ReadRevision(d)), o.next.pc)
            && Enters(g, o.next, d.state.value.currentPhase)
  {
    hide Loadable;
    var st := d.state.value;
    var p := Get(g, st.currentPhase).value;
    var resumed := Emit(RunResumed(st.sessionId, p.phaseId, p.roleId, p.kind, ReadRevision(d), req.now));
    OneMore(d, [], resumed);
    assert [] + [resumed] == [resumed];
  }

  const ANYTIME := RunRequest("s", None, 0, 0, 0, true)

  /** A session that stands at a phase of the trap. */
  function TrappedDisk(id: PhaseId): Disk {
    EMPTY_DISK.(state := Some(SessionState("s", None, 0, id, [], [], 0, InProgress, None)), revision := Some(1))
  }

  lemma {:induction false} TrappedIsWellFormed(g: PhaseGraph, id: PhaseId)
    requires Get(g, id).Some?
    ensures DiskOk(g, TrappedDisk(id))
  {
  }

  lemma TrappedRunSpins(g: PhaseGraph, cfg: Config, ids: set<PhaseId>, n: nat)
    returns (d: Disk, req: RunRequest, inputs: seq<Input>)
    requires ValidGraph(g) && Trap(g, ids) && Reachable(cfg)
    ensures DiskOk(g, d) && |inputs| == n && Running(Session(g, cfg, d, req, inputs).engine)
  {
    hide Step, ValidGraph, FreeIds, WellFormed, LeadsInto, Boot;
    var id :| id in ids;
    FreeInTrap(g, ids, id);
    var p := Get(g, id).value;
    var t := TrapPhase(g, ids, p);
    TrappedIsWellFormed(g, id);
    d := TrappedDisk(id);
    req := ANYTIME;
    BootKeepsSound(g, cfg, d, req);
    ResumesAt(g, cfg, d, req);
    var o := Boot(g, cfg, d, req);
    inputs := SpinOn(g, cfg, ids, Apply(d, o.out), o.next, n);
  }

  /** Graph validation does not promise that runs end. They do, within a bound that depends on the graph and
      the engine settings only, if and only if no forward cycle avoids the human gates. */
  lemma RunsEndIffLoopFree(g: PhaseGraph, cfg: Config)
    requires ValidGraph(g)
    ensures LoopFree(g) ==> HaltsWithin(g, cfg, StepBound(cfg, g))
    ensures Reachable(cfg) ==> ((exists bound :: HaltsWithin(g, cfg, bound)) <==> LoopFree(g))
  {
    if LoopFree(g) {
      LoopFreeRunsEnd(g, cfg);
    } else if Reachable(cfg) {
      var ids := TrapExists(g, Everywhere(g));
      forall bound | HaltsWithin(g, cfg, bound) ensures false {
        var d, req, inputs := TrappedRunSpins(g, cfg, ids, bound);
      }
    }
  }

  function Executor(id: PhaseId, next: PhaseId): PhaseDefinition {
    PhaseDefinition(id, "r", ExecutorKind, [next], [], [], [], false, None)
  }

  /** Two executors that complete into each other: accepted by validation, and a run need not end. */
  lemma CycleNeedNotEnd(cfg: Config)
    requires Reachable(cfg)
    ensures var g := [Executor("a", "b"), Executor("b", "a")];
            ValidGraph(g) && !exists bound :: HaltsWithin(g, cfg, bound)
  {
    hide HaltsWithin, FreeIds;
    var g := [Executor("a", "b"), Executor("b", "a")];
    CycleIsTrapped(g);
    LoopFreeIffNoTrap(g);
    RunsEndIffLoopFree(g, cfg);
  }

  lemma CycleIsTrapped(g: PhaseGraph)
    requires g == [Executor("a", "b"), Executor("b", "a")]
    ensures ValidGraph(g) && Trap(g, {"a", "b"})
  {
    assert Ids(g) == ["a", "b"];
    assert g[1..] == [Executor("b", "a")];
    assert Get(g, "a") == Some(g[0]) && Get(g, "b") == Some(g[1]);
    UngatedIsFree(g, g[0]);
    UngatedIsFree(g, g[1]);
    assert WaysOn(g, "a")[0] == "b" && WaysOn(g, "b")[0] == "a";
    assert LeadsInto(g, "a", {"a", "b"}) && LeadsInto(g, "b", {"a", "b"});
  }
}
