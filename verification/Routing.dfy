/** Confidence routing of the model-backed roles, composed with graph validation and target resolution. */
module Routing {
  import opened Wrappers
  import opened Graph
  import opened State
  import opened Events
  import opened Machine

  /** A rule holds exactly one bound, between 0 and 100. */
  predicate ValidRules(rules: seq<RoutingRule>) {
    forall i :: 0 <= i < |rules| ==> InScoreRange(rules[i].bound)
  }

  predicate Matches(rule: RoutingRule, score: int) {
    match rule
    case AtLeast(_, bound) => score >= bound
    case Below(_, bound) => score < bound
  }

  /** What the rules choose for a score, read left to right. */
  function ChosenNext(score: int, rules: seq<RoutingRule>): Result<Option<PhaseId>, EngineError> {
    if rules == [] then Success(None) else FirstMatch(score, rules)
  }

  function FirstMatch(score: int, rules: seq<RoutingRule>): (r: Result<Option<PhaseId>, EngineError>)
    ensures r.Success? ==> r.value.Some?
  {
    if rules == [] then Failure(ConfigurationError)
    else if Matches(rules[0], score) then Success(Some(rules[0].target))
    else FirstMatch(score, rules[1..])
  }

  /** The loop of `resolve_chosen_next`. */
  method ResolveChosenNext(score: int, rules: seq<RoutingRule>) returns (r: Result<Option<PhaseId>, EngineError>)
    ensures r == ChosenNext(score, rules)
    ensures r == Success(None) <==> rules == []
    ensures r.Failure? <==> rules != [] && forall i :: 0 <= i < |rules| ==> !Matches(rules[i], score)
    ensures r.Success? && r.value.Some? ==>
      exists i :: 0 <= i < |rules| && Matches(rules[i], score) && r.value.value == rules[i].target &&
                  forall j :: 0 <= j < i ==> !Matches(rules[j], score)
  {
    if rules == [] {
      return Success(None);
    }
    for i := 0 to |rules|
      invariant FirstMatch(score, rules) == FirstMatch(score, rules[i..])
      invariant forall j :: 0 <= j < i ==> !Matches(rules[j], score)
    {
      assert rules[i..][0] == rules[i] && rules[i..][1..] == rules[i + 1..];
      if Matches(rules[i], score) {
        return Success(Some(rules[i].target));
      }
    }
    r := Failure(ConfigurationError);
  }

  // ---- Coverage -------------------------------------------------------------------------------

  predicate Handles(rules: seq<RoutingRule>, score: int) {
    exists i :: 0 <= i < |rules| && Matches(rules[i], score)
  }

  /** The rules choose something for every score a role may report. */
  ghost predicate Covers(rules: seq<RoutingRule>) {
    forall score :: InScoreRange(score) ==> Handles(rules, score)
  }

  /** The lowest `confidence_gte`. */
  function Lowest(rules: seq<RoutingRule>): (n: Option<int>)
    ensures n.None? ==> forall i :: 0 <= i < |rules| ==> !rules[i].AtLeast?
    ensures n.Some? ==> exists i :: 0 <= i < |rules| && rules[i].AtLeast? && rules[i].bound == n.value
    ensures n.Some? ==> forall i :: 0 <= i < |rules| && rules[i].AtLeast? ==> n.value <= rules[i].bound
  {
    if rules == [] then None
    else
      var last := |rules| - 1;
      var rest := Lowest(rules[..last]);
      assert forall i :: 0 <= i < last ==> rules[..last][i] == rules[i];
      if rules[last].AtLeast? && (rest.None? || rules[last].bound < rest.value) then Some(rules[last].bound) else rest
  }

  /** Some rule starts at zero, or some `confidence_lt` reaches a `confidence_gte`. */
  predicate Gapless(rules: seq<RoutingRule>) {
    exists i :: 0 <= i < |rules| && rules[i].AtLeast? && (rules[i].bound == 0 || Reaches(rules, rules[i].bound))
  }

  predicate Reaches(rules: seq<RoutingRule>, bound: int) {
    exists j :: 0 <= j < |rules| && rules[j].Below? && bound <= rules[j].bound
  }

  /** Rules cover every score from 0 to 100 if and only if they are gapless. */
  lemma CoverageIsGapless(rules: seq<RoutingRule>)
    requires ValidRules(rules)
    ensures Covers(rules) <==> Gapless(rules)
  {
    if Covers(rules) {
      CoveredIsGapless(rules);
    }
    if Gapless(rules) {
      forall score | InScoreRange(score) ensures Handles(rules, score) {
        GaplessHandles(rules, score);
      }
    }
  }

  lemma CoveredIsGapless(rules: seq<RoutingRule>)
    requires ValidRules(rules) && Covers(rules)
    ensures Gapless(rules)
  {
    hide Handles, Gapless;
    assert Handles(rules, 100);
    var top := Handler(rules, 100);
    var low := Lowest(rules).value;
    if low > 0 {
      assert Handles(rules, low - 1);
      var j := Handler(rules, low - 1);
      assert rules[j].Below? && low <= rules[j].bound;
      assert Reaches(rules, low);
    }
    LowestIsGapless(rules);
  }

  lemma Handler(rules: seq<RoutingRule>, score: int) returns (i: nat)
    requires Handles(rules, score)
    ensures i < |rules| && Matches(rules[i], score)
  {
    i :| i < |rules| && Matches(rules[i], score);
  }

  lemma {:induction false} LowestIsGapless(rules: seq<RoutingRule>)
    requires Lowest(rules).Some? && (Lowest(rules).value <= 0 || Reaches(rules, Lowest(rules).value))
    requires ValidRules(rules)
    ensures Gapless(rules)
  {
  }

  lemma GaplessHandles(rules: seq<RoutingRule>, score: int)
    requires Gapless(rules) && InScoreRange(score)
    ensures Handles(rules, score)
  {
    var i :| 0 <= i < |rules| && rules[i].AtLeast? && (rules[i].bound == 0 || Reaches(rules, rules[i].bound));
    if score >= rules[i].bound {
      assert Matches(rules[i], score);
    } else {
      var j :| 0 <= j < |rules| && rules[j].Below? && rules[i].bound <= rules[j].bound;
      assert Matches(rules[j], score);
    }
  }

  // ---- Routing on a validated graph -----------------------------------------------------------

  /** A score, through the rules of a phase and then through the engine. */
  function Route(p: PhaseDefinition, score: int): Result<Option<PhaseId>, EngineError> {
    match ChosenNext(score, p.routing)
    case Failure(err) => Failure(err)
    case Success(chosen) => ResolveTarget(ForwardTargets(p), chosen)
  }

  lemma {:induction false} FirstMatchDecides(score: int, rules: seq<RoutingRule>)
    ensures FirstMatch(score, rules).Success? <==> Handles(rules, score)
    ensures FirstMatch(score, rules).Success? ==> exists r :: r in rules && FirstMatch(score, rules).value == Some(r.target)
  {
    if rules != [] {
      FirstMatchDecides(score, rules[1..]);
      if Matches(rules[0], score) {
        assert rules[0] in rules;
      } else {
        if Handles(rules, score) {
          var i :| 0 <= i < |rules| && Matches(rules[i], score);
          assert rules[1..][i - 1] == rules[i];
        }
        if Handles(rules[1..], score) {
          var i :| 0 <= i < |rules[1..]| && Matches(rules[1..][i], score);
          assert rules[i + 1] == rules[1..][i];
          var r :| r in rules[1..] && FirstMatch(score, rules[1..]).value == Some(r.target);
          assert r in rules;
        }
      }
    }
  }

  /** On a validated phase a score is routed without an error if and only if the rules match it, or there are
      no rules and at most one target; the result is one of the targets, or none when there are none. */
  lemma RouteDecides(p: PhaseDefinition, ids: seq<PhaseId>, score: int)
    requires ValidPhase(p, ids)
    ensures Route(p, score).Success? <==>
            if p.routing == [] then |ForwardTargets(p)| <= 1 else Handles(p.routing, score)
    ensures Route(p, score).Success? ==>
            if ForwardTargets(p) == [] then Route(p, score).value.None?
            else Route(p, score).value.Some? && Route(p, score).value.value in ForwardTargets(p)
  {
    FirstMatchDecides(score, p.routing);
  }

  /** Routing a validated phase is total if and only if it has no rules and at most one target, or its rules are
      gapless. */
  lemma RoutingIsTotal(p: PhaseDefinition, ids: seq<PhaseId>)
    requires ValidPhase(p, ids) && ValidRules(p.routing)
    ensures (forall score :: InScoreRange(score) ==> Route(p, score).Success?) <==>
            (if p.routing == [] then |ForwardTargets(p)| <= 1 else Gapless(p.routing))
  {
    hide ValidPhase, Route, ForwardTargets, Gapless, Handles;
    forall score {
      RouteDecides(p, ids, score);
    }
    CoverageIsGapless(p.routing);
    if p.routing == [] {
      assert InScoreRange(0);
      assert Route(p, 0).Success? <==> |ForwardTargets(p)| <= 1;
    }
  }

  // ---- Requests for changes -------------------------------------------------------------------

  /** The target filled in for a request for changes that names none: the last of several, never a lone one. */
  function FilledTarget(decision: Decision, output: Option<PhaseId>, targets: seq<PhaseId>): Option<PhaseId> {
    if !decision.RequestChanges? then output
    else if output.Some? then output
    else if |targets| <= 1 then None
    else Some(targets[|targets| - 1])
  }

  /** With the target filled in, a request for changes is accepted by the engine if and only if the phase may
      request changes and the model named no target or an allowed one; it then loops back to that one, or to the
      last allowed one if none was named. */
  lemma ChangesAreRouted(p: PhaseDefinition, payload: DecisionPayload, output: Option<PhaseId>, chosen: Option<PhaseId>)
    requires payload.decision.RequestChanges?
    requires payload.targetPhase == FilledTarget(RequestChanges, output, p.canRequestChangesFrom)
    ensures var r := ResolveReview(p, payload, chosen);
            && (r.Success? <==>
                  p.canRequestChangesFrom != [] && (output.Some? ==> output.value in p.canRequestChangesFrom))
            && (r.Success? ==> r.value.0.Some? && r.value.0.value in p.canRequestChangesFrom && r.value.1 == 1)
            && (r.Success? && output.Some? ==> r.value.0 == output)
            && (r.Success? && output.None? ==>
                  r.value.0 == Some(p.canRequestChangesFrom[|p.canRequestChangesFrom| - 1]))
  {
    if |p.canRequestChangesFrom| > 1 {
      assert p.canRequestChangesFrom[|p.canRequestChangesFrom| - 1] in p.canRequestChangesFrom;
    }
  }

  /** A lone target the model does not name is looped back to, but its findings are not: the verdict stores no
      target, so the history of that phase does not contain it. */
  lemma {:induction false} LoneTargetGetsNoFindings(p: PhaseDefinition, st: SessionState, payload: DecisionPayload,
                                            target: PhaseId)
    requires payload.decision.RequestChanges? && p.canRequestChangesFrom == [target]
    requires payload.targetPhase == FilledTarget(RequestChanges, None, p.canRequestChangesFrom)
    ensures ResolveReview(p, payload, None) == Success((Some(target), 1))
    ensures LatestFeedback(st.reviews + [VerdictFor(st, p, payload)], target) == LatestFeedback(st.reviews, target)
  {
    assert (st.reviews + [VerdictFor(st, p, payload)])[..|st.reviews|] == st.reviews;
  }
}
