/** Session state, role results and the payloads the engine persists. */
module State {
  import opened Wrappers
  import opened Graph

  type Ref = string

  /** Timestamps are ordered integers; only their order matters to the engine. */
  type Time = int

  datatype Decision = Approve | RequestChanges | Pending

  datatype Status = Initialized | InProgress | Completed | Abandoned | Failed

  predicate Terminal(s: Status) { s.Completed? || s.Abandoned? || s.Failed? }

  datatype IterationEntry = IterationEntry(
    iteration: int,
    phaseId: PhaseId,
    roleId: string,
    confidenceScore: int,
    startedAt: Time,
    endedAt: Time,
    handoffRef: Option<Ref>)

  datatype ReviewEntry = ReviewEntry(
    review: int,
    phaseId: PhaseId,
    roleId: string,
    decision: Option<Decision>,
    targetPhase: Option<PhaseId>,
    confidenceScore: Option<int>,
    endedAt: Option<Time>,
    findingsRef: Option<Ref>)

  datatype SessionState = SessionState(
    sessionId: string,
    contextId: Option<string>,
    startedAt: Time,
    currentPhase: PhaseId,
    iterations: seq<IterationEntry>,
    reviews: seq<ReviewEntry>,
    feedbackLoops: int,
    status: Status,
    completedAt: Option<Time>)

  datatype Stored = Stored(state: SessionState, revision: nat)

  // ---- What roles return ----------------------------------------------------------------------

  datatype TokenUsage = TokenUsage(prompt: int, completion: int, total: int)

  datatype Finding = Finding(title: string, requiredChange: Option<string>)

  /** Timestamps returned by roles are strings; None stands for one that does not parse. */
  datatype ExecutionResult = ExecutionResult(
    roleId: string,
    endedAt: Option<Time>,
    confidenceScore: int,
    handoff: Option<string>,
    files: seq<(Ref, string)>,
    chosenNext: Option<PhaseId>,
    pendingQuestion: Option<string>,
    usage: Option<TokenUsage>)

  datatype ReviewResult = ReviewResult(
    roleId: string,
    endedAt: Option<Time>,
    decision: Decision,
    confidenceScore: int,
    findings: seq<Finding>,
    targetPhase: Option<PhaseId>,
    chosenNext: Option<PhaseId>,
    usage: Option<TokenUsage>)

  datatype DecisionPayload = DecisionPayload(
    phaseId: PhaseId,
    roleId: string,
    decision: Decision,
    confidenceScore: int,
    endedAt: Time,
    findings: seq<Finding>,
    targetPhase: Option<PhaseId>)

  /** The content of a stored file. */
  datatype Document =
    | HandoffDocument(phaseId: PhaseId, roleId: string, body: string)
    | DecisionDocument(payload: DecisionPayload)
    | TextDocument(text: string)

  // ---- Validators -----------------------------------------------------------------------------

  predicate InScoreRange(score: int) { 0 <= score <= 100 }

  /** The payload contract: score range, a real decision, and a required change on every finding
      that comes with a request for changes. */
  predicate ValidPayload(p: DecisionPayload) {
    && InScoreRange(p.confidenceScore)
    && !p.decision.Pending?
    && (p.decision.RequestChanges? ==>
          forall i :: 0 <= i < |p.findings| ==>
            p.findings[i].requiredChange.Some? && p.findings[i].requiredChange.value != "")
  }

  predicate ValidIteration(e: IterationEntry) {
    1 <= e.iteration && InScoreRange(e.confidenceScore)
  }

  predicate ValidReview(e: ReviewEntry) {
    1 <= e.review && (e.confidenceScore.Some? ==> InScoreRange(e.confidenceScore.value))
  }

  /** What loading a stored snapshot checks: field bounds, and completed_at set exactly when terminal. */
  predicate Loadable(st: SessionState) {
    && (st.completedAt.Some? <==> Terminal(st.status))
    && 0 <= st.feedbackLoops
    && (forall i :: 0 <= i < |st.iterations| ==> ValidIteration(st.iterations[i]))
    && (forall i :: 0 <= i < |st.reviews| ==> ValidReview(st.reviews[i]))
  }

  // ---- Counting and searching -----------------------------------------------------------------

  function CountIterations(its: seq<IterationEntry>, id: PhaseId): (n: nat)
    ensures n <= |its|
  {
    if its == [] then 0
    else
      var last := |its| - 1;
      CountIterations(its[..last], id) + if its[last].phaseId == id then 1 else 0
  }

  function CountReviews(rs: seq<ReviewEntry>, id: PhaseId): (n: nat)
    ensures n <= |rs|
  {
    if rs == [] then 0
    else
      var last := |rs| - 1;
      CountReviews(rs[..last], id) + if rs[last].phaseId == id then 1 else 0
  }

  predicate Decided(e: ReviewEntry) {
    e.decision.Some? && !e.decision.value.Pending?
  }

  /** The first entry of a phase that carries a given review number and a real decision. */
  function FindDecided(rs: seq<ReviewEntry>, id: PhaseId, review: int): (e: Option<ReviewEntry>)
    ensures e.Some? ==> e.value in rs && Decided(e.value) && e.value.phaseId == id && e.value.review == review
    ensures e.None? ==> forall i :: 0 <= i < |rs| ==>
      !(rs[i].phaseId == id && rs[i].review == review && Decided(rs[i]))
  {
    if rs == [] then None
    else if rs[0].phaseId == id && rs[0].review == review && Decided(rs[0]) then Some(rs[0])
    else
      assert forall i :: 0 < i < |rs| ==> rs[1..][i - 1] == rs[i];
      FindDecided(rs[1..], id, review)
  }

  predicate IsDecided(e: ReviewEntry, id: PhaseId, review: int) {
    e.phaseId == id && e.review == review && e.decision.Some? && !e.decision.value.Pending?
  }

  /** It is the first such entry. */
  lemma {:induction false} FindsTheFirst(rs: seq<ReviewEntry>, id: PhaseId, review: int)
    ensures FindDecided(rs, id, review).Some? <==> exists i :: 0 <= i < |rs| && IsDecided(rs[i], id, review)
    ensures forall i :: 0 <= i < |rs| && IsDecided(rs[i], id, review) &&
                        (forall j :: 0 <= j < i ==> !IsDecided(rs[j], id, review)) ==>
                        FindDecided(rs, id, review) == Some(rs[i])
  {
    if rs != [] && !IsDecided(rs[0], id, review) {
      FindsTheFirst(rs[1..], id, review);
      assert forall i :: 0 <= i < |rs| - 1 ==> rs[1..][i] == rs[i + 1];
      if exists i :: 0 <= i < |rs| && IsDecided(rs[i], id, review) {
        var i :| 0 <= i < |rs| && IsDecided(rs[i], id, review);
        assert IsDecided(rs[1..][i - 1], id, review);
      }
      forall i | 0 <= i < |rs| && IsDecided(rs[i], id, review) && forall j :: 0 <= j < i ==> !IsDecided(rs[j], id, review)
        ensures FindDecided(rs, id, review) == Some(rs[i])
      {
        assert IsDecided(rs[1..][i - 1], id, review);
        forall j | 0 <= j < i - 1 ensures !IsDecided(rs[1..][j], id, review) {
          assert rs[1..][j] == rs[j + 1];
        }
      }
    }
  }

  predicate Feeds(e: ReviewEntry, id: PhaseId) {
    && e.decision == Some(RequestChanges)
    && e.targetPhase == Some(id)
    && e.findingsRef.Some? && e.findingsRef.value != ""
  }

  /** The newest request for changes that names a phase and has stored findings. */
  function LatestFeedback(rs: seq<ReviewEntry>, id: PhaseId): (e: Option<ReviewEntry>)
    ensures e.Some? ==> e.value in rs && Feeds(e.value, id)
    ensures e.None? ==> forall i :: 0 <= i < |rs| ==> !Feeds(rs[i], id)
  {
    if rs == [] then None
    else
      var last := |rs| - 1;
      if Feeds(rs[last], id) then Some(rs[last]) else LatestFeedback(rs[..last], id)
  }

  lemma {:induction false} CountIterationsAppend(its: seq<IterationEntry>, e: IterationEntry, id: PhaseId)
    ensures CountIterations(its + [e], id) == CountIterations(its, id) + if e.phaseId == id then 1 else 0
  {
    assert (its + [e])[..|its|] == its;
  }

  lemma {:induction false} CountReviewsAppend(rs: seq<ReviewEntry>, e: ReviewEntry, id: PhaseId)
    ensures CountReviews(rs + [e], id) == CountReviews(rs, id) + if e.phaseId == id then 1 else 0
  {
    assert (rs + [e])[..|rs|] == rs;
  }
}
