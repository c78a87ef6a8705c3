/** Workflow events, and the effects a run has on the world outside the engine. */
module Events {
  import opened Wrappers
  import opened Graph
  import opened State

  datatype EngineError =
    | TransitionError
    | ConfigurationError
    | ConcurrencyError
    | StateNotFoundError
    | StateError
    | ValidationError
    | RoleError

  datatype Event =
    | RunStarted(sessionId: string, phaseId: PhaseId, roleId: string, revision: nat, occurredAt: Time)
    | RunResumed(sessionId: string, phaseId: PhaseId, roleId: string, phaseKind: PhaseKind, revision: nat,
                 occurredAt: Time)
    | PhaseStarted(sessionId: string, phaseId: PhaseId, roleId: string, phaseKind: PhaseKind, revision: nat,
                   occurredAt: Time)
    | IterationCommitted(sessionId: string, phaseId: PhaseId, roleId: string, iteration: int,
                         confidenceScore: int, feedbackLoops: int, revision: nat, startedAt: Time,
                         endedAt: Time, chosenNext: Option<PhaseId>, handoffRef: Option<Ref>,
                         usage: Option<TokenUsage>)
    | ReviewCommitted(sessionId: string, phaseId: PhaseId, roleId: string, review: int, decision: Decision,
                      score: int, feedbackLoops: int, revision: nat, startedAt: Time,
                      endedAt: Time, targetPhase: Option<PhaseId>, chosenNext: Option<PhaseId>,
                      findingsRef: Option<Ref>, usage: Option<TokenUsage>)
    | HumanReviewPending(sessionId: string, phaseId: PhaseId, roleId: string, review: int, revision: nat,
                         occurredAt: Time)
    | PhaseTransitioned(sessionId: string, fromPhaseId: PhaseId, fromRoleId: string, toPhaseId: PhaseId,
                        toRoleId: string, revision: nat, occurredAt: Time)
    | RunCompleted(sessionId: string, status: Status, feedbackLoops: int, revision: nat, startedAt: Time,
                   completedAt: Time, totals: TokenUsage)
    | RunFailed(sessionId: string, phaseId: PhaseId, roleId: string, revision: nat, occurredAt: Time,
                error: EngineError)

  /** What a run does to the world, in order. A crash cuts this sequence anywhere. */
  datatype Effect =
    | StateWrite(state: SessionState)
    | RevisionWrite(revision: nat)
    | ArtifactWrite(ref: Ref, document: Document)
    | PackWrite(ref: Ref, document: Document)
    | PackQuestion(question: string, phaseId: PhaseId, askedBy: string, askedAt: Time)
    | PackLock
    | AskExecutor(phaseId: PhaseId, session: SessionState, previous: Option<DecisionPayload>)
    | AskReviewer(phaseId: PhaseId, session: SessionState, previous: Option<DecisionPayload>)
    | Emit(event: Event)

  /** The observer's view of a trace. */
  function EventsOf(trace: seq<Effect>): seq<Event> {
    if trace == [] then []
    else (if trace[0].Emit? then [trace[0].event] else []) + EventsOf(trace[1..])
  }

  /** The store's view of a trace: the snapshots saved, in order. */
  function SavesOf(trace: seq<Effect>): seq<SessionState> {
    if trace == [] then []
    else (if trace[0].StateWrite? then [trace[0].state] else []) + SavesOf(trace[1..])
  }

  lemma {:induction false} EventsOfConcat(a: seq<Effect>, b: seq<Effect>)
    ensures EventsOf(a + b) == EventsOf(a) + EventsOf(b)
  {
    if a == [] {
      assert a + b == b;
    } else {
      assert (a + b)[1..] == a[1..] + b;
      EventsOfConcat(a[1..], b);
      var first := if a[0].Emit? then [a[0].event] else [];
      assert EventsOf(a + b) == first + (EventsOf(a[1..]) + EventsOf(b));
      assert first + (EventsOf(a[1..]) + EventsOf(b)) == (first + EventsOf(a[1..])) + EventsOf(b);
    }
  }

  lemma {:induction false} SavesOfConcat(a: seq<Effect>, b: seq<Effect>)
    ensures SavesOf(a + b) == SavesOf(a) + SavesOf(b)
  {
    if a == [] {
      assert a + b == b;
    } else {
      assert (a + b)[1..] == a[1..] + b;
      SavesOfConcat(a[1..], b);
      var first := if a[0].StateWrite? then [a[0].state] else [];
      assert SavesOf(a + b) == first + (SavesOf(a[1..]) + SavesOf(b));
      assert first + (SavesOf(a[1..]) + SavesOf(b)) == (first + SavesOf(a[1..])) + SavesOf(b);
    }
  }
}
