/** The workflow graph: phase definitions, the validation done by the constructor, and lookups. */
module Graph {
  import opened Wrappers

  type PhaseId = string

  datatype PhaseKind = ExecutorKind | ReviewKind | OtherKind(name: string)

  /** Exactly one bound per rule, each between 0 and 100. */
  datatype RoutingRule =
    | AtLeast(target: PhaseId, bound: int)
    | Below(target: PhaseId, bound: int)

  datatype PhaseDefinition = PhaseDefinition(
    phaseId: PhaseId,
    roleId: string,
    kind: PhaseKind,
    onComplete: seq<PhaseId>,
    onApprove: seq<PhaseId>,
    canRequestChangesFrom: seq<PhaseId>,
    routing: seq<RoutingRule>,
    human: bool,
    maxFeedbackRounds: Option<int>)

  datatype GraphError =
    | NoPhases
    | DuplicatePhase(phase: PhaseId)
    | MissingRole(phase: PhaseId)
    | ExecutorApproves(phase: PhaseId)
    | ExecutorRequestsChanges(phase: PhaseId)
    | ReviewCompletes(phase: PhaseId)
    | UnknownKind(phase: PhaseId)
    | UndefinedTarget(phase: PhaseId, target: PhaseId)
    | RoutingTarget(phase: PhaseId, target: PhaseId)

  // ---- What a valid graph is ------------------------------------------------------------------

  function Ids(phases: seq<PhaseDefinition>): (ids: seq<PhaseId>)
    ensures |ids| == |phases|
    ensures forall i :: 0 <= i < |ids| ==> ids[i] == phases[i].phaseId
  {
    seq(|phases|, i requires 0 <= i < |phases| => phases[i].phaseId)
  }

  function AllTargets(p: PhaseDefinition): seq<PhaseId> {
    p.onComplete + p.onApprove + p.canRequestChangesFrom
  }

  /** The targets a phase can move forward to: `on_complete` of an executor, `on_approve` of a review. */
  function ForwardTargets(p: PhaseDefinition): seq<PhaseId> {
    match p.kind
    case ExecutorKind => p.onComplete
    case ReviewKind => p.onApprove
    case OtherKind(_) => []
  }

  predicate ValidPhase(p: PhaseDefinition, ids: seq<PhaseId>) {
    && p.roleId != ""
    && !p.kind.OtherKind?
    && (p.kind.ExecutorKind? ==> p.onApprove == [] && p.canRequestChangesFrom == [])
    && (p.kind.ReviewKind? ==> p.onComplete == [])
    && (forall t :: t in AllTargets(p) ==> t in ids)
    && (ForwardTargets(p) != [] ==> forall r :: r in p.routing ==> r.target in ForwardTargets(p))
  }

  predicate Distinct(ids: seq<PhaseId>) {
    forall i, j :: 0 <= i < j < |ids| ==> ids[i] != ids[j]
  }

  predicate ValidGraph(phases: seq<PhaseDefinition>) {
    && phases != []
    && Distinct(Ids(phases))
    && forall i :: 0 <= i < |phases| ==> ValidPhase(phases[i], Ids(phases))
  }

  /** Every function on a graph takes the plain list; results that need what the constructor checks ask for
      ValidGraph. */
  type PhaseGraph = seq<PhaseDefinition>

  // ---- The validation loops -------------------------------------------------------------------

  function Repeats(ids: seq<PhaseId>): seq<GraphError> {
    if ids == [] then []
    else
      var front, last := ids[..|ids| - 1], ids[|ids| - 1];
      Repeats(front) + if last in front then [DuplicatePhase(last)] else []
  }

  function KindErrors(p: PhaseDefinition): seq<GraphError> {
    (if p.roleId == "" then [MissingRole(p.phaseId)] else []) +
    match p.kind
    case ExecutorKind =>
      (if p.onApprove != [] then [ExecutorApproves(p.phaseId)] else []) +
      (if p.canRequestChangesFrom != [] then [ExecutorRequestsChanges(p.phaseId)] else [])
    case ReviewKind =>
      if p.onComplete != [] then [ReviewCompletes(p.phaseId)] else []
    case OtherKind(_) => [UnknownKind(p.phaseId)]
  }

  function TargetErrors(id: PhaseId, targets: seq<PhaseId>, ids: set<PhaseId>): seq<GraphError> {
    if targets == [] then []
    else
      var n := |targets| - 1;
      TargetErrors(id, targets[..n], ids) + if targets[n] !in ids then [UndefinedTarget(id, targets[n])] else []
  }

  function RoutingErrors(id: PhaseId, rules: seq<RoutingRule>, allowed: set<PhaseId>): seq<GraphError> {
    if rules == [] then []
    else
      var n := |rules| - 1;
      RoutingErrors(id, rules[..n], allowed) +
      if allowed != {} && rules[n].target !in allowed then [RoutingTarget(id, rules[n].target)] else []
  }

  function SetOf(ids: seq<PhaseId>): set<PhaseId> {
    set id | id in ids
  }

  function PhaseErrors(p: PhaseDefinition, ids: set<PhaseId>): seq<GraphError> {
    KindErrors(p) + TargetErrors(p.phaseId, AllTargets(p), ids) +
    RoutingErrors(p.phaseId, p.routing, SetOf(ForwardTargets(p)))
  }

  function EachPhaseErrors(phases: seq<PhaseDefinition>, ids: set<PhaseId>): seq<GraphError> {
    if phases == [] then []
    else
      var n := |phases| - 1;
      EachPhaseErrors(phases[..n], ids) + PhaseErrors(phases[n], ids)
  }

  function GraphErrors(phases: seq<PhaseDefinition>): seq<GraphError> {
    if phases == [] then [NoPhases]
    else Repeats(Ids(phases)) + EachPhaseErrors(phases, SetOf(Ids(phases)))
  }

  /** The loops of `_validate`: the list of errors, grown phase by phase. */
  method Validate(phases: seq<PhaseDefinition>) returns (errors: seq<GraphError>)
    ensures errors == GraphErrors(phases)
    ensures errors == [] <==> ValidGraph(phases)
  {
    if phases == [] {
      errors := [NoPhases];
    } else {
      var definedIds := SetOf(Ids(phases));
      var repeats := FindRepeats(Ids(phases), definedIds);
      var found := ValidateEach(phases, definedIds);
      errors := repeats + found;
    }
    GraphErrorsDecide(phases);
  }

  method ValidateEach(phases: seq<PhaseDefinition>, definedIds: set<PhaseId>) returns (errors: seq<GraphError>)
    ensures errors == EachPhaseErrors(phases, definedIds)
  {
    errors := [];
    for i := 0 to |phases|
      invariant errors == EachPhaseErrors(phases[..i], definedIds)
    {
      assert phases[..i + 1][..i] == phases[..i];
      var found := ValidatePhase(phases[i], definedIds);
      errors := errors + found;
    }
    assert phases[..|phases|] == phases;
  }

  method FindRepeats(ids: seq<PhaseId>, definedIds: set<PhaseId>) returns (errors: seq<GraphError>)
    requires definedIds == SetOf(ids)
    ensures errors == Repeats(ids)
  {
    errors := [];
    if |ids| == |definedIds| {
      FullSetHasNoRepeats(ids);
      return;
    }
    var seen: set<PhaseId> := {};
    for i := 0 to |ids|
      invariant seen == SetOf(ids[..i])
      invariant errors == Repeats(ids[..i])
    {
      assert ids[..i + 1][..i] == ids[..i];
      if ids[i] in seen {
        errors := errors + [DuplicatePhase(ids[i])];
      }
      seen := seen + {ids[i]};
    }
    assert ids[..|ids|] == ids;
  }

  method ValidatePhase(p: PhaseDefinition, definedIds: set<PhaseId>) returns (errors: seq<GraphError>)
    ensures errors == PhaseErrors(p, definedIds)
  {
    errors := if p.roleId == "" then [MissingRole(p.phaseId)] else [];
    var validRoutingTargets: set<PhaseId> := {};
    match p.kind {
      case ExecutorKind =>
        if p.onApprove != [] {
          errors := errors + [ExecutorApproves(p.phaseId)];
        }
        if p.canRequestChangesFrom != [] {
          errors := errors + [ExecutorRequestsChanges(p.phaseId)];
        }
        validRoutingTargets := SetOf(p.onComplete);
      case ReviewKind =>
        if p.onComplete != [] {
          errors := errors + [ReviewCompletes(p.phaseId)];
        }
        validRoutingTargets := SetOf(p.onApprove);
      case OtherKind(_) =>
        errors := errors + [UnknownKind(p.phaseId)];
    }
    assert errors == KindErrors(p);
    var undefined := FindUndefinedTargets(p.phaseId, AllTargets(p), definedIds);
    var misrouted := FindMisroutedRules(p.phaseId, p.routing, validRoutingTargets);
    errors := errors + undefined + misrouted;
  }

  method FindUndefinedTargets(id: PhaseId, targets: seq<PhaseId>, ids: set<PhaseId>)
    returns (errors: seq<GraphError>)
    ensures errors == TargetErrors(id, targets, ids)
  {
    errors := [];
    for i := 0 to |targets|
      invariant errors == TargetErrors(id, targets[..i], ids)
    {
      assert targets[..i + 1][..i] == targets[..i];
      if targets[i] !in ids {
        errors := errors + [UndefinedTarget(id, targets[i])];
      }
    }
    assert targets[..|targets|] == targets;
  }

  method FindMisroutedRules(id: PhaseId, rules: seq<RoutingRule>, allowed: set<PhaseId>)
    returns (errors: seq<GraphError>)
    ensures errors == RoutingErrors(id, rules, allowed)
  {
    errors := [];
    for i := 0 to |rules|
      invariant errors == RoutingErrors(id, rules[..i], allowed)
    {
      assert rules[..i + 1][..i] == rules[..i];
      if allowed != {} && rules[i].target !in allowed {
        errors := errors + [RoutingTarget(id, rules[i].target)];
      }
    }
    assert rules[..|rules|] == rules;
  }

  // ---- The loops decide validity --------------------------------------------------------------

  lemma {:induction false} RepeatsDecide(ids: seq<PhaseId>)
    ensures Repeats(ids) == [] <==> Distinct(ids)
  {
    if ids != [] {
      var n := |ids| - 1;
      RepeatsDecide(ids[..n]);
      if ids[n] in ids[..n] {
        var k :| 0 <= k < n && ids[..n][k] == ids[n];
        assert ids[k] == ids[n];
      } else if Distinct(ids[..n]) {
        forall i, j | 0 <= i < j < |ids| ensures ids[i] != ids[j] {
          assert ids[i] == ids[..n][i];
          if j < n { assert ids[j] == ids[..n][j]; }
        }
      } else {
        var i, j :| 0 <= i < j < n && ids[..n][i] == ids[..n][j];
        assert ids[i] == ids[j];
      }
    }
  }

  lemma {:induction false} FullSetHasNoRepeats(ids: seq<PhaseId>)
    ensures |SetOf(ids)| <= |ids|
    ensures |SetOf(ids)| == |ids| ==> Repeats(ids) == []
  {
    if ids != [] {
      var front, last := ids[..|ids| - 1], ids[|ids| - 1];
      FullSetHasNoRepeats(front);
      assert ids == front + [last];
      assert SetOf(ids) == SetOf(front) + {last};
    }
  }

  lemma {:induction false} TargetErrorsDecide(id: PhaseId, targets: seq<PhaseId>, ids: set<PhaseId>)
    ensures TargetErrors(id, targets, ids) == [] <==> forall t :: t in targets ==> t in ids
  {
    if targets != [] {
      var n := |targets| - 1;
      TargetErrorsDecide(id, targets[..n], ids);
      assert targets == targets[..n] + [targets[n]];
    }
  }

  lemma {:induction false} RoutingErrorsDecide(id: PhaseId, rules: seq<RoutingRule>, allowed: set<PhaseId>)
    ensures RoutingErrors(id, rules, allowed) == [] <==>
            (allowed != {} ==> forall r :: r in rules ==> r.target in allowed)
  {
    if rules != [] {
      var n := |rules| - 1;
      RoutingErrorsDecide(id, rules[..n], allowed);
      assert rules == rules[..n] + [rules[n]];
    }
  }

  lemma PhaseErrorsDecide(p: PhaseDefinition, ids: seq<PhaseId>)
    ensures PhaseErrors(p, SetOf(ids)) == [] <==> ValidPhase(p, ids)
  {
    TargetErrorsDecide(p.phaseId, AllTargets(p), SetOf(ids));
    RoutingErrorsDecide(p.phaseId, p.routing, SetOf(ForwardTargets(p)));
    assert SetOf(ForwardTargets(p)) == {} <==> ForwardTargets(p) == [] by {
      if ForwardTargets(p) != [] { assert ForwardTargets(p)[0] in SetOf(ForwardTargets(p)); }
    }
  }

  lemma {:induction false} EachPhaseErrorsDecide(phases: seq<PhaseDefinition>, ids: seq<PhaseId>)
    ensures EachPhaseErrors(phases, SetOf(ids)) == [] <==>
            forall i :: 0 <= i < |phases| ==> ValidPhase(phases[i], ids)
  {
    hide ValidPhase, PhaseErrors;
    if phases != [] {
      var n := |phases| - 1;
      EachPhaseErrorsDecide(phases[..n], ids);
      PhaseErrorsDecide(phases[n], ids);
      assert forall i :: 0 <= i < n ==> phases[..n][i] == phases[i];
    }
  }

  /** The constructor accepts exactly the valid graphs. */
  lemma GraphErrorsDecide(phases: seq<PhaseDefinition>)
    ensures GraphErrors(phases) == [] <==> ValidGraph(phases)
  {
    RepeatsDecide(Ids(phases));
    EachPhaseErrorsDecide(phases, Ids(phases));
  }

  // ---- Each error names its fault -------------------------------------------------------------

  /** Some rule leads to `t`, and the phase has targets of its kind, but not this one. */
  predicate Misroutes(p: PhaseDefinition, t: PhaseId) {
    && (exists r :: r in p.routing && r.target == t)
    && (p.kind.ExecutorKind? ==> p.onComplete != [] && t !in p.onComplete)
    && (p.kind.ReviewKind? ==> p.onApprove != [] && t !in p.onApprove)
    && !p.kind.OtherKind?
  }

  /** The fault of one phase that an error names. */
  predicate PhaseFault(p: PhaseDefinition, ids: set<PhaseId>, e: GraphError) {
    match e
    case NoPhases => false
    case DuplicatePhase(_) => false
    case MissingRole(id) => p.phaseId == id && p.roleId == ""
    case ExecutorApproves(id) => p.phaseId == id && p.kind.ExecutorKind? && p.onApprove != []
    case ExecutorRequestsChanges(id) => p.phaseId == id && p.kind.ExecutorKind? && p.canRequestChangesFrom != []
    case ReviewCompletes(id) => p.phaseId == id && p.kind.ReviewKind? && p.onComplete != []
    case UnknownKind(id) => p.phaseId == id && p.kind.OtherKind?
    case UndefinedTarget(id, t) =>
      p.phaseId == id && (t in p.onComplete || t in p.onApprove || t in p.canRequestChangesFrom) && t !in ids
    case RoutingTarget(id, t) => p.phaseId == id && Misroutes(p, t)
  }

  /** The fault that an error names. */
  ghost predicate Faulty(phases: seq<PhaseDefinition>, e: GraphError) {
    match e
    case NoPhases => phases == []
    case DuplicatePhase(id) => exists i, j :: 0 <= i < j < |phases| && phases[i].phaseId == id == phases[j].phaseId
    case _ => exists p :: p in phases && PhaseFault(p, SetOf(Ids(phases)), e)
  }

  lemma {:induction false} RepeatsAreFaults(ids: seq<PhaseId>, e: GraphError)
    ensures e in Repeats(ids) <==>
            e.DuplicatePhase? && exists i, j :: 0 <= i < j < |ids| && ids[i] == e.phase == ids[j]
  {
    if ids != [] {
      var front, last := ids[..|ids| - 1], ids[|ids| - 1];
      RepeatsAreFaults(front, e);
      assert forall i :: 0 <= i < |front| ==> front[i] == ids[i];
      if e.DuplicatePhase? && e.phase == last && last in front {
        var i :| 0 <= i < |front| && front[i] == last;
        assert ids[i] == e.phase == ids[|ids| - 1];
      }
      if e in Repeats(front) {
        var i, j :| 0 <= i < j < |front| && front[i] == e.phase == front[j];
        assert ids[i] == e.phase == ids[j];
      }
    }
  }

  lemma {:induction false} TargetErrorsAreFaults(id: PhaseId, targets: seq<PhaseId>, ids: set<PhaseId>, e: GraphError)
    ensures e in TargetErrors(id, targets, ids) <==>
            e.UndefinedTarget? && e.phase == id && e.target in targets && e.target !in ids
  {
    if targets != [] {
      var n := |targets| - 1;
      TargetErrorsAreFaults(id, targets[..n], ids, e);
      assert targets == targets[..n] + [targets[n]];
    }
  }

  lemma {:induction false} RoutingErrorsAreFaults(id: PhaseId, rules: seq<RoutingRule>, allowed: set<PhaseId>, e: GraphError)
    ensures e in RoutingErrors(id, rules, allowed) <==>
            e.RoutingTarget? && e.phase == id && allowed != {} && e.target !in allowed &&
            exists r :: r in rules && r.target == e.target
  {
    if rules != [] {
      var n := |rules| - 1;
      RoutingErrorsAreFaults(id, rules[..n], allowed, e);
      assert rules == rules[..n] + [rules[n]];
    }
  }

  lemma KindErrorsAreFaults(p: PhaseDefinition, e: GraphError)
    ensures e in KindErrors(p) <==> PhaseFault(p, {}, e) && !e.UndefinedTarget? && !e.RoutingTarget?
  {
    hide Misroutes;
    var role := if p.roleId == "" then [MissingRole(p.phaseId)] else [];
    match p.kind
    case ExecutorKind =>
      var a := if p.onApprove != [] then [ExecutorApproves(p.phaseId)] else [];
      var c := if p.canRequestChangesFrom != [] then [ExecutorRequestsChanges(p.phaseId)] else [];
      assert KindErrors(p) == role + (a + c);
    case ReviewKind =>
      var c := if p.onComplete != [] then [ReviewCompletes(p.phaseId)] else [];
      assert KindErrors(p) == role + c;
    case OtherKind(_) =>
      assert KindErrors(p) == role + [UnknownKind(p.phaseId)];
  }

  lemma PhaseErrorsAreFaults(p: PhaseDefinition, ids: set<PhaseId>, e: GraphError)
    ensures e in PhaseErrors(p, ids) <==> PhaseFault(p, ids, e)
  {
    hide KindErrors, TargetErrors, RoutingErrors;
    KindErrorsAreFaults(p, e);
    TargetErrorsAreFaults(p.phaseId, AllTargets(p), ids, e);
    RoutingErrorsAreFaults(p.phaseId, p.routing, SetOf(ForwardTargets(p)), e);
    assert SetOf(ForwardTargets(p)) == {} <==> ForwardTargets(p) == [] by {
      if ForwardTargets(p) != [] { assert ForwardTargets(p)[0] in SetOf(ForwardTargets(p)); }
    }
  }

  lemma {:induction false} EachErrorIsAFault(phases: seq<PhaseDefinition>, ids: set<PhaseId>, e: GraphError)
    ensures e in EachPhaseErrors(phases, ids) <==> exists p :: p in phases && PhaseFault(p, ids, e)
  {
    hide PhaseErrors, PhaseFault;
    if phases != [] {
      var n := |phases| - 1;
      EachErrorIsAFault(phases[..n], ids, e);
      PhaseErrorsAreFaults(phases[n], ids, e);
      assert phases == phases[..n] + [phases[n]];
    }
  }

  /** An error is reported if and only if the list of phases has the fault it names. */
  lemma ErrorsAreExact(phases: seq<PhaseDefinition>, e: GraphError)
    ensures e in GraphErrors(phases) <==> Faulty(phases, e)
  {
    RepeatsAreFaults(Ids(phases), e);
    EachErrorIsAFault(phases, SetOf(Ids(phases)), e);
    if e.DuplicatePhase? {
      assert forall p :: !PhaseFault(p, SetOf(Ids(phases)), e);
    }
  }

  // ---- Lookups --------------------------------------------------------------------------------

  /** `_by_id[phase_id]`, None where `get` raises ConfigurationError. */
  function Get(g: PhaseGraph, id: PhaseId): (p: Option<PhaseDefinition>)
    ensures p.Some? ==> p.value.phaseId == id
  {
    if g == [] then None
    else if g[0].phaseId == id then Some(g[0])
    else Get(g[1..], id)
  }

  lemma {:induction false} GetFinds(g: PhaseGraph, id: PhaseId)
    ensures Get(g, id).Some? <==> id in Ids(g)
    ensures Get(g, id).Some? ==> Get(g, id).value in g
  {
    if g != [] {
      GetFinds(g[1..], id);
      if id in Ids(g) {
        var i :| 0 <= i < |Ids(g)| && Ids(g)[i] == id;
        assert i > 0 ==> Ids(g[1..])[i - 1] == id;
      }
      if id in Ids(g[1..]) {
        var i :| 0 <= i < |Ids(g[1..])| && Ids(g[1..])[i] == id;
        assert Ids(g)[i + 1] == id;
      }
    }
  }

  /** Phase ids are distinct, so a lookup finds the phase itself. */
  lemma {:induction false} GetFindsThePhase(g: PhaseGraph, p: PhaseDefinition)
    requires ValidGraph(g) && p in g
    ensures Get(g, p.phaseId) == Some(p)
  {
    hide ValidPhase;
    var i :| 0 <= i < |g| && g[i] == p;
    GetAt(g, i);
  }

  lemma {:induction false} GetAt(g: PhaseGraph, i: nat)
    requires Distinct(Ids(g)) && i < |g|
    ensures Get(g, g[i].phaseId) == Some(g[i])
  {
    if i > 0 {
      assert Ids(g)[0] != Ids(g)[i];
      forall j, k | 0 <= j < k < |g[1..]| ensures Ids(g[1..])[j] != Ids(g[1..])[k] {
        assert Ids(g)[j + 1] != Ids(g)[k + 1];
      }
      GetAt(g[1..], i - 1);
    }
  }

  /** The phases a valid graph names as targets exist. */
  lemma {:induction false} TargetsExist(g: PhaseGraph, id: PhaseId, target: PhaseId)
    requires ValidGraph(g) && Get(g, id).Some? && target in AllTargets(Get(g, id).value)
    ensures Get(g, target).Some?
  {
    GetFinds(g, id);
    GetFinds(g, target);
  }

  /** A looked-up phase passed validation. */
  lemma {:induction false} GetIsValid(g: PhaseGraph, id: PhaseId)
    requires ValidGraph(g) && Get(g, id).Some?
    ensures ValidPhase(Get(g, id).value, Ids(g))
  {
    GetFinds(g, id);
  }
}
