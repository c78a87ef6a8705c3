/** Forward cycles. Graph validation does not reject them; whether a run must end depends on them. */
module Cycles {
  import opened Wrappers
  import opened Graph

  /** A human review phase stops the run unless a decision is waiting: it never moves on by itself. */
  predicate Gated(p: PhaseDefinition) { p.kind.ReviewKind? && p.human }

  function FreeIds(g: PhaseGraph): set<PhaseId> {
    set i | 0 <= i < |g| && Get(g, g[i].phaseId).Some? && !Gated(Get(g, g[i].phaseId).value) :: g[i].phaseId
  }

  function WaysOn(g: PhaseGraph, id: PhaseId): seq<PhaseId> {
    if Get(g, id).Some? then ForwardTargets(Get(g, id).value) else []
  }

  predicate LeadsInto(g: PhaseGraph, id: PhaseId, ids: set<PhaseId>) {
    exists i :: 0 <= i < |WaysOn(g, id)| && WaysOn(g, id)[i] in ids
  }

  function Peel(g: PhaseGraph, ids: set<PhaseId>): set<PhaseId> {
    set id | id in ids && LeadsInto(g, id, ids)
  }

  /** Everything below is about the phases in `land`: those a run can be in. */
  function Everywhere(g: PhaseGraph): set<PhaseId> { SetOf(Ids(g)) }

  /** The phases from which k forward moves are possible without passing a human gate or leaving the land. */
  function Survivors(g: PhaseGraph, land: set<PhaseId>, k: nat): set<PhaseId> {
    if k == 0 then FreeIds(g) * land else Peel(g, Survivors(g, land, k - 1))
  }

  /** No forward cycle avoids the human gates: nobody can make as many moves as there are phases. */
  predicate LoopFreeIn(g: PhaseGraph, land: set<PhaseId>) {
    Survivors(g, land, |g|) == {}
  }

  predicate LoopFree(g: PhaseGraph) { LoopFreeIn(g, Everywhere(g)) }

  /** A set of ungated phases each of which can move forward inside the set. */
  predicate Trap(g: PhaseGraph, ids: set<PhaseId>) {
    && ids != {}
    && ids <= FreeIds(g)
    && forall id :: id in ids ==> LeadsInto(g, id, ids)
  }

  // ---- Ranks ----------------------------------------------------------------------------------

  function RankTo(g: PhaseGraph, land: set<PhaseId>, id: PhaseId, n: nat): (r: nat)
    ensures r <= n
  {
    if n == 0 then 0 else RankTo(g, land, id, n - 1) + if id in Survivors(g, land, n - 1) then 1 else 0
  }

  function Rank(g: PhaseGraph, land: set<PhaseId>, id: PhaseId): (r: nat)
    ensures r <= |g|
  {
    RankTo(g, land, id, |g|)
  }

  lemma {:induction false} MoveSurvives(g: PhaseGraph, land: set<PhaseId>, id: PhaseId, t: PhaseId, k: nat)
    requires id in FreeIds(g) * land && t in WaysOn(g, id) && t in Survivors(g, land, k)
    ensures id in Survivors(g, land, k) && id in Survivors(g, land, k + 1)
  {
    if k > 0 {
      MoveSurvives(g, land, id, t, k - 1);
    }
    assert LeadsInto(g, id, Survivors(g, land, k));
  }

  lemma {:induction false} RankToGrows(g: PhaseGraph, land: set<PhaseId>, id: PhaseId, t: PhaseId, n: nat)
    requires id in FreeIds(g) * land && t in WaysOn(g, id)
    ensures RankTo(g, land, id, n + 1) >= RankTo(g, land, t, n) + 1
  {
    if n > 0 {
      RankToGrows(g, land, id, t, n - 1);
      if t in Survivors(g, land, n - 1) {
        MoveSurvives(g, land, id, t, n - 1);
      }
    }
  }

  /** Without free cycles every forward move of an ungated phase goes down. */
  lemma ForwardGoesDown(g: PhaseGraph, land: set<PhaseId>, id: PhaseId, t: PhaseId)
    requires g != [] && LoopFreeIn(g, land) && id in FreeIds(g) * land && t in WaysOn(g, id)
    ensures Rank(g, land, t) < Rank(g, land, id)
  {
    RankToGrows(g, land, id, t, |g| - 1);
    if t in Survivors(g, land, |g| - 1) {
      MoveSurvives(g, land, id, t, |g| - 1);
    }
  }

  // ---- Traps ----------------------------------------------------------------------------------

  lemma FreeIdsCount(g: PhaseGraph, land: set<PhaseId>)
    ensures |FreeIds(g) * land| <= |g|
  {
    SelectedIdsCount(g, FreeIds(g) * land);
  }

  lemma {:induction false} SelectedIdsCount(g: PhaseGraph, ids: set<PhaseId>)
    requires forall id :: id in ids ==> id in Ids(g)
    ensures |ids| <= |g|
  {
    if g != [] {
      var n := |g| - 1;
      var rest := ids - {g[n].phaseId};
      forall id | id in rest ensures id in Ids(g[..n]) {
        var i :| 0 <= i < |g| && Ids(g)[i] == id;
        assert Ids(g[..n])[i] == id;
      }
      SelectedIdsCount(g[..n], rest);
      SubsetCount(ids, rest + {g[n].phaseId});
    } else {
      assert ids == {};
    }
  }

  lemma SubsetCount(a: set<PhaseId>, b: set<PhaseId>)
    requires a <= b
    ensures |a| <= |b|
    ensures |a| == |b| ==> a == b
  {
    assert b == a + (b - a);
  }

  lemma PeelShrinks(g: PhaseGraph, ids: set<PhaseId>)
    requires Peel(g, ids) != ids
    ensures |Peel(g, ids)| < |ids|
  {
    SubsetCount(Peel(g, ids), ids);
  }

  predicate Stuck(g: PhaseGraph, land: set<PhaseId>, k: nat) {
    Peel(g, Survivors(g, land, k)) == Survivors(g, land, k)
  }

  /** Peeling either gets stuck or loses a phase each time. */
  lemma {:induction false} ShrinkUntilStuck(g: PhaseGraph, land: set<PhaseId>, k: nat)
    requires forall j :: 0 <= j < k ==> !Stuck(g, land, j)
    ensures |Survivors(g, land, k)| + k <= |FreeIds(g) * land|
  {
    if k > 0 {
      ShrinkUntilStuck(g, land, k - 1);
      assert !Stuck(g, land, k - 1);
      PeelShrinks(g, Survivors(g, land, k - 1));
    }
  }

  lemma {:induction false} SurvivorsAreFree(g: PhaseGraph, land: set<PhaseId>, k: nat)
    ensures Survivors(g, land, k) <= FreeIds(g) * land
  {
    if k > 0 {
      SurvivorsAreFree(g, land, k - 1);
    }
  }

  lemma {:induction false} StuckStays(g: PhaseGraph, land: set<PhaseId>, j: nat, k: nat)
    requires j <= k && Stuck(g, land, j)
    ensures Survivors(g, land, k) == Survivors(g, land, j)
  {
    if j < k {
      StuckStays(g, land, j, k - 1);
    }
  }

  /** Where forward moves never run out, some set of phases keeps a run inside it. */
  lemma TrapExists(g: PhaseGraph, land: set<PhaseId>) returns (ids: set<PhaseId>)
    requires g != [] && !LoopFreeIn(g, land)
    ensures Trap(g, ids) && ids <= land
  {
    var n := |g|;
    FreeIdsCount(g, land);
    if forall j :: 0 <= j < n ==> !Stuck(g, land, j) {
      ShrinkUntilStuck(g, land, n);
    }
    var j :| 0 <= j < n && Stuck(g, land, j);
    StuckStays(g, land, j, n);
    SurvivorsAreFree(g, land, j);
    ids := Survivors(g, land, j);
  }

  lemma LeadsIntoMore(g: PhaseGraph, id: PhaseId, a: set<PhaseId>, b: set<PhaseId>)
    requires LeadsInto(g, id, a) && a <= b
    ensures LeadsInto(g, id, b)
  {
    hide WaysOn;
    var i :| 0 <= i < |WaysOn(g, id)| && WaysOn(g, id)[i] in a;
    assert WaysOn(g, id)[i] in b;
  }

  lemma {:induction false} TrapSurvives(g: PhaseGraph, land: set<PhaseId>, ids: set<PhaseId>, k: nat)
    requires Trap(g, ids) && ids <= land
    ensures ids <= Survivors(g, land, k)
  {
    hide LeadsInto, FreeIds;
    if k > 0 {
      TrapSurvives(g, land, ids, k - 1);
      var last := Survivors(g, land, k - 1);
      assert Survivors(g, land, k) == Peel(g, last);
      hide Survivors;
      forall id | id in ids ensures LeadsInto(g, id, last) {
        LeadsIntoMore(g, id, ids, last);
      }
    }
  }

  /** The peeling computation decides exactly whether a trap exists. */
  lemma LoopFreeIffNoTrapIn(g: PhaseGraph, land: set<PhaseId>)
    requires g != []
    ensures LoopFreeIn(g, land) <==> !exists ids :: Trap(g, ids) && ids <= land
  {
    if LoopFreeIn(g, land) {
      forall ids | Trap(g, ids) && ids <= land ensures false {
        TrapSurvives(g, land, ids, |g|);
      }
    } else {
      var ids := TrapExists(g, land);
    }
  }

  lemma TrapIsSomewhere(g: PhaseGraph, ids: set<PhaseId>)
    requires Trap(g, ids)
    ensures ids <= Everywhere(g)
  {
    hide LeadsInto;
    forall id | id in ids ensures id in Everywhere(g) {
      GetFinds(g, id);
    }
  }

  lemma LoopFreeIffNoTrap(g: PhaseGraph)
    requires g != []
    ensures LoopFree(g) <==> !exists ids :: Trap(g, ids)
  {
    hide LoopFreeIn, Everywhere, Trap;
    LoopFreeIffNoTrapIn(g, Everywhere(g));
    forall ids | Trap(g, ids) ensures ids <= Everywhere(g) {
      TrapIsSomewhere(g, ids);
    }
  }
}
