/** The phases a session can still come to, computed from the graph. */
module Reach {
  import opened Wrappers
  import opened Graph
  import opened State
  import opened Disk
  import opened Machine
  import opened Invariants
  import opened Sessions
  import opened Cycles
  import opened Termination

  function TargetsOf(g: PhaseGraph, id: PhaseId): seq<PhaseId> {
    if Get(g, id).Some? then AllTargets(Get(g, id).value) else []
  }

  function Grow(g: PhaseGraph, ids: set<PhaseId>): set<PhaseId> {
    ids + set id, t | id in ids && t in TargetsOf(g, id) :: t
  }

  /** What can be reached in at most k moves. */
  function Within(g: PhaseGraph, id: PhaseId, k: nat): set<PhaseId> {
    if k == 0 then {id} else Grow(g, Within(g, id, k - 1))
  }

  function ReachableFrom(g: PhaseGraph, id: PhaseId): set<PhaseId> {
    Within(g, id, |g|)
  }

  predicate Closed(g: PhaseGraph, ids: set<PhaseId>) {
    forall id, t :: id in ids && t in TargetsOf(g, id) ==> t in ids
  }

  /** Growing stays inside any closed set. */
  lemma GrowsInside(g: PhaseGraph, ids: set<PhaseId>, all: set<PhaseId>)
    requires ids <= all && Closed(g, all)
    ensures ids <= Grow(g, ids) <= all
  {
    hide TargetsOf;
  }

  lemma {:induction false} WithinIsLeast(g: PhaseGraph, id: PhaseId, k: nat, ids: set<PhaseId>)
    requires id in ids && Closed(g, ids)
    ensures id in Within(g, id, k) && Within(g, id, k) <= ids
  {
    hide Grow, Closed;
    if k > 0 {
      WithinIsLeast(g, id, k - 1, ids);
      GrowsInside(g, Within(g, id, k - 1), ids);
    }
  }

  /** The phases of a valid graph are closed. */
  lemma AllIsClosed(g: PhaseGraph)
    requires ValidGraph(g)
    ensures Closed(g, set id | id in Ids(g))
  {
    hide ValidGraph;
    forall id, t | id in Ids(g) && t in TargetsOf(g, id) ensures t in Ids(g) {
      TargetsExist(g, id, t);
      GetFinds(g, t);
    }
  }

  lemma GrowingAdds(g: PhaseGraph, ids: set<PhaseId>)
    ensures Closed(g, ids) ==> Grow(g, ids) == ids
    ensures !Closed(g, ids) ==> |Grow(g, ids)| > |ids|
  {
    hide TargetsOf;
    if !Closed(g, ids) {
      var id, t :| id in ids && t in TargetsOf(g, id) && t !in ids;
      assert t in Grow(g, ids);
      hide Grow;
      SubsetCount(ids + {t}, Grow(g, ids));
    }
  }

  /** Growing either stops or finds a new phase each time. */
  lemma {:induction false} GrowsUntilClosed(g: PhaseGraph, id: PhaseId, k: nat)
    ensures Closed(g, Within(g, id, k)) || |Within(g, id, k)| >= k + 1
  {
    hide Closed, Grow;
    if k > 0 {
      GrowsUntilClosed(g, id, k - 1);
      GrowingAdds(g, Within(g, id, k - 1));
    }
  }

  /** The computed set is closed under moves, and the least such set: it is exactly what can be reached. */
  lemma {:induction false} ReachableIsClosed(g: PhaseGraph, id: PhaseId)
    requires ValidGraph(g) && Get(g, id).Some?
    ensures id in ReachableFrom(g, id) && Closed(g, ReachableFrom(g, id))
    ensures forall ids :: id in ids && Closed(g, ids) ==> ReachableFrom(g, id) <= ids
  {
    hide ValidGraph, Closed;
    AllIsClosed(g);
    GetFinds(g, id);
    WithinIsLeast(g, id, |g|, set t | t in Ids(g));
    GrowsUntilClosed(g, id, |g|);
    SelectedIdsCount(g, ReachableFrom(g, id));
    forall ids | id in ids && Closed(g, ids) ensures ReachableFrom(g, id) <= ids {
      WithinIsLeast(g, id, |g|, ids);
    }
  }

  /** No step leaves a closed set of phases. */
  lemma StepStaysInside(g: PhaseGraph, cfg: Config, d: Disk, e: Engine, inp: Input, ids: set<PhaseId>)
    requires ValidGraph(g) && Sound(g, d, e) && Closed(g, ids) && Running(e) && e.held.state.currentPhase in ids
    ensures Step(g, cfg, d, e, inp).next.held.state.currentPhase in ids
  {
    hide ValidGraph, Step, PlanOf, WellFormed, PcOk;
    var before, tail := StepShape(g, cfg, d, e, inp);
    PlanIsOk(g, cfg, d, e, inp);
    if Commits(cfg, d, e, inp) {
      var c := CommitOf(cfg, d, e, inp);
      if c.Move? {
        assert c.target in TargetsOf(g, e.held.state.currentPhase);
      }
    }
  }
}
