/** What a step and the start of a run come to, told in the fields of what they were given: the session, the answer of the
    role, the settings. The results say nothing of plans; those on whole runs that rest on them are in Retries. */
module Outcomes {
  import opened Wrappers
  import opened Graph
  import opened State
  import opened Events
  import opened Names
  import opened Disk
  import opened Machine
  import opened Invariants
  import opened Sessions
  import opened Termination

  // ---- The ways a step can end ----------------------------------------------------------------

  /** The step raises: nothing is saved, and the failure of the current phase is reported. */
  predicate Raises(e: Engine, o: Outcome, before: seq<Effect>, err: EngineError, now: Time)
    requires Running(e)
  {
    var st, p := e.held.state, e.pc.phase;
    && o.next == e.(pc := Crashed(err))
    && o.out == before + [Emit(RunFailed(st.sessionId, p.phaseId, p.roleId, e.held.revision, now, err))]
  }

  /** The step saves a snapshot at the next revision, after some groundwork, and says something about it. */
  predicate Saves(e: Engine, o: Outcome, before: seq<Effect>, st: SessionState, said: seq<Effect>) {
    && o.next.held == Stored(st, e.held.revision + 1)
    && o.next.applied == e.applied
    && o.out == before + [StateWrite(st), RevisionWrite(e.held.revision + 1)] + said
  }

  /** A context pack is in use. */
  predicate PackInUse(cfg: Config, st: SessionState) {
    cfg.packWriter && match st.contextId case Some(id) => id != "" case None => false
  }

  /** The session is over; a completed discovery locks its pack before that is reported. */
  predicate Closes(cfg: Config, e: Engine, o: Outcome, before: seq<Effect>, status: Status, now: Time) {
    var st, t := e.held.state, e.tokens;
    var report := RunCompleted(st.sessionId, status, st.feedbackLoops, e.held.revision + 1, st.startedAt, now, t);
    && Saves(e, o, before, st.(status := status, completedAt := Some(now)),
             if status.Completed? && PackInUse(cfg, st) then [PackLock, Emit(report)] else [Emit(report)])
    && o.next.tokens == t
    && o.next.pc.Finished?
  }

  /** The session stands at the entry of a phase. */
  predicate Enters(e: Engine, q: PhaseDefinition) {
    if q.kind.ExecutorKind? then
      && e.pc.ExecTop?
      && e.pc.phase == q
      && e.pc.count == |IterationsAt(e.held.state.iterations, q.phaseId)|
    else e.pc == ReviewTop(q)
  }

  /** The session goes on to another phase, which starts. */
  predicate MovesTo(g: PhaseGraph, e: Engine, o: Outcome, t: PhaseId, now: Time)
    requires Running(e)
  {
    && Get(g, t).Some?
    && var st, p, q, n := e.held.state, e.pc.phase, Get(g, t).value, e.held.revision + 1;
    && Saves(e, o, [], st.(currentPhase := t),
             [Emit(PhaseTransitioned(st.sessionId, p.phaseId, p.roleId, t, q.roleId, n, now)),
              Emit(PhaseStarted(st.sessionId, t, q.roleId, q.kind, n, now))])
    && o.next.tokens == e.tokens
    && Enters(o.next, q)
  }

  /** A phase is left: no target completes the session, a lone target is taken unless another one was chosen, and of
      several one must be chosen. */
  predicate Leaves(g: PhaseGraph, cfg: Config, e: Engine, o: Outcome, targets: seq<PhaseId>, chosen: Option<PhaseId>,
                   now: Time)
    requires Running(e)
  {
    if targets == [] then Closes(cfg, e, o, [], Completed, now)
    else if |targets| == 1 && chosen in {None, Some(targets[0])} then MovesTo(g, e, o, targets[0], now)
    else if |targets| > 1 && chosen.Some? && chosen.value in targets then MovesTo(g, e, o, chosen.value, now)
    else Raises(e, o, [], TransitionError, now)
  }

  // ---- Counting -------------------------------------------------------------------------------

  /** The places of the iterations of a phase. */
  function IterationsAt(its: seq<IterationEntry>, id: PhaseId): set<int> {
    set i | 0 <= i < |its| && its[i].phaseId == id
  }

  lemma {:induction false} CountsIterations(its: seq<IterationEntry>, id: PhaseId)
    ensures CountIterations(its, id) == |IterationsAt(its, id)|
  {
    if its != [] {
      var last := |its| - 1;
      CountsIterations(its[..last], id);
      IterationsAtAppend(its[..last], its[last], id);
      assert its[..last] + [its[last]] == its;
    }
  }

  lemma IterationsAtAppend(its: seq<IterationEntry>, e: IterationEntry, id: PhaseId)
    ensures |IterationsAt(its + [e], id)| == |IterationsAt(its, id)| + if e.phaseId == id then 1 else 0
  {
    var before, after := IterationsAt(its, id), IterationsAt(its + [e], id);
    assert |its| !in before;
    if e.phaseId == id {
      assert after == before + {|its|};
    } else {
      assert after == before;
    }
  }

  /** The places of the reviews of a phase. */
  function ReviewsAt(rs: seq<ReviewEntry>, id: PhaseId): set<int> {
    set i | 0 <= i < |rs| && rs[i].phaseId == id
  }

  lemma {:induction false} CountsReviews(rs: seq<ReviewEntry>, id: PhaseId)
    ensures CountReviews(rs, id) == |ReviewsAt(rs, id)|
  {
    if rs != [] {
      var last := |rs| - 1;
      CountsReviews(rs[..last], id);
      ReviewsAtAppend(rs[..last], rs[last], id);
      assert rs[..last] + [rs[last]] == rs;
    }
  }

  lemma ReviewsAtAppend(rs: seq<ReviewEntry>, e: ReviewEntry, id: PhaseId)
    ensures |ReviewsAt(rs + [e], id)| == |ReviewsAt(rs, id)| + if e.phaseId == id then 1 else 0
  {
    var before, after := ReviewsAt(rs, id), ReviewsAt(rs + [e], id);
    assert |rs| !in before;
    if e.phaseId == id {
      assert after == before + {|rs|};
    } else {
      assert after == before;
    }
  }

  // ---- Performing -----------------------------------------------------------------------------

  /** An engine in step with its disk, at a phase of the graph. */
  predicate Steady(g: PhaseGraph, d: Disk, e: Engine) {
    && Running(e)
    && SaveError(d, e.held.revision).None?
    && e.held.state.status.InProgress?
    && Get(g, e.held.state.currentPhase) == Some(e.pc.phase)
  }

  lemma {:induction false} SoundIsSteady(g: PhaseGraph, d: Disk, e: Engine)
    requires Sound(g, d, e) && Running(e)
    ensures Steady(g, d, e) && Steady(g, d, MarkApplied(e))
    ensures Get(g, e.pc.phase.phaseId) == Some(e.pc.phase)
  {
    hide WellFormed, HumanDecision;
    MarkedSame(e);
  }

  lemma PerformRaises(g: PhaseGraph, cfg: Config, d: Disk, e: Engine, before: seq<Effect>, err: EngineError, now: Time)
    requires Steady(g, d, e)
    ensures Raises(e, Perform(g, cfg, d, e, Fail(before, err), now), before, err, now)
  {
  }

  lemma PerformCloses(g: PhaseGraph, cfg: Config, d: Disk, e: Engine, before: seq<Effect>, status: Status, now: Time)
    requires Steady(g, d, e) && status in {Completed, Abandoned, Failed}
    ensures Closes(cfg, e, Perform(g, cfg, d, e, Save(before, Close(status, now), Enter), now), before, status, now)
  {
  }

  lemma {:induction false} RoleIsKnown(g: PhaseGraph, e: Engine)
    requires Running(e) && Get(g, e.held.state.currentPhase) == Some(e.pc.phase)
    ensures RoleOf(g, e.pc.phase.phaseId) == e.pc.phase.roleId
    ensures e.held.state.currentPhase == e.pc.phase.phaseId
  {
  }

  lemma {:induction false} PerformMoves(g: PhaseGraph, cfg: Config, d: Disk, e: Engine, t: PhaseId, now: Time)
    requires Steady(g, d, e) && Get(g, t).Some?
    ensures MovesTo(g, e, Perform(g, cfg, d, e, Save([], Move(e.pc.phase.phaseId, t), Enter), now), t, now)
  {
    hide IterationsAt, CountIterations;
    CountsIterations(e.held.state.iterations, t);
    RoleIsKnown(g, e);
    hide Get;
    var e1 := Saved(e, Move(e.pc.phase.phaseId, t));
    EnterAfter(g, e1, Written(e1) + Announce(g, cfg, e1, Move(e.pc.phase.phaseId, t), now), now);
  }

  lemma {:induction false} PerformLeaves(g: PhaseGraph, cfg: Config, d: Disk, e: Engine, targets: seq<PhaseId>,
                                         chosen: Option<PhaseId>, now: Time)
    requires Steady(g, d, e) && forall t :: t in targets ==> Get(g, t).Some?
    ensures Leaves(g, cfg, e, Perform(g, cfg, d, e, PlanLeave(e.pc.phase, targets, chosen, now), now), targets, chosen, now)
  {
    hide Perform, MovesTo, Closes, Raises;
    PerformCloses(g, cfg, d, e, [], Completed, now);
    PerformRaises(g, cfg, d, e, [], TransitionError, now);
    var r := ResolveTarget(targets, chosen);
    if r.Success? && r.value.Some? {
      PerformMoves(g, cfg, d, e, r.value.value, now);
    }
  }

  // ---- What a role is shown -------------------------------------------------------------------

  /** The n-th review is the newest that feeds a phase. */
  predicate NewestFor(rs: seq<ReviewEntry>, id: PhaseId, n: int) {
    && 0 <= n < |rs| && Feeds(rs[n], id)
    && forall i :: n < i < |rs| ==> !Feeds(rs[i], id)
  }

  /** A phase is shown nothing if no review feeds it, and else the decision stored for the newest that does. */
  ghost predicate Shown(d: Disk, rs: seq<ReviewEntry>, id: PhaseId, previous: Option<DecisionPayload>) {
    if previous.None? then forall i :: 0 <= i < |rs| ==> !Feeds(rs[i], id)
    else exists n :: NewestFor(rs, id, n) &&
                     rs[n].findingsRef.value in d.files &&
                     d.files[rs[n].findingsRef.value] == DecisionDocument(previous.value)
  }

  /** The decision stored for it is not there, or is no decision. */
  ghost predicate Unreadable(d: Disk, rs: seq<ReviewEntry>, id: PhaseId, err: EngineError) {
    exists n :: NewestFor(rs, id, n) &&
      var ref := rs[n].findingsRef.value;
      if err.StateNotFoundError? then ref !in d.files
      else err.ValidationError? && ref in d.files && !d.files[ref].DecisionDocument?
  }

  lemma {:induction false} NewestIsLatest(rs: seq<ReviewEntry>, id: PhaseId)
    ensures LatestFeedback(rs, id).Some? ==> exists n :: NewestFor(rs, id, n) && LatestFeedback(rs, id) == Some(rs[n])
    ensures forall n :: NewestFor(rs, id, n) ==> LatestFeedback(rs, id) == Some(rs[n])
  {
    hide Feeds;
    if rs != [] {
      var last := |rs| - 1;
      NewestIsLatest(rs[..last], id);
      if Feeds(rs[last], id) {
        assert NewestFor(rs, id, last);
      } else if LatestFeedback(rs[..last], id).Some? {
        var n :| NewestFor(rs[..last], id, n) && LatestFeedback(rs[..last], id) == Some(rs[..last][n]);
        assert forall i :: 0 <= i < last ==> rs[..last][i] == rs[i];
        assert NewestFor(rs, id, n);
      }
      forall n | NewestFor(rs, id, n) ensures LatestFeedback(rs, id) == Some(rs[n]) {
        if n < last {
          assert forall i :: 0 <= i < last ==> rs[..last][i] == rs[i];
          assert NewestFor(rs[..last], id, n);
        }
      }
    }
  }

  lemma HistoryIsShown(d: Disk, st: SessionState, id: PhaseId)
    ensures forall previous :: Shown(d, st.reviews, id, previous) <==> HistoryFor(d, st, id) == Success(previous)
    ensures forall err :: Unreadable(d, st.reviews, id, err) <==> HistoryFor(d, st, id) == Failure(err)
  {
    hide Feeds, NewestFor, LatestFeedback;
    NewestIsLatest(st.reviews, id);
    var latest := LatestFeedback(st.reviews, id);
    if latest.None? {
      forall n | NewestFor(st.reviews, id, n) ensures false {}
    } else {
      NewestFeeds(st.reviews, id);
    }
  }

  lemma NewestFeeds(rs: seq<ReviewEntry>, id: PhaseId)
    ensures forall n :: NewestFor(rs, id, n) ==> 0 <= n < |rs| && Feeds(rs[n], id) && rs[n].findingsRef.Some?
  {
  }

  // ---- The turn of an executor ----------------------------------------------------------------

  lemma StepPerforms(g: PhaseGraph, cfg: Config, d: Disk, e: Engine, inp: Input)
    requires Sound(g, d, e) && Running(e)
    ensures var m := MarkApplied(e);
            && Steady(g, d, m) && m == e.(applied := m.applied)
            && Step(g, cfg, d, e, inp) == Perform(g, cfg, d, m, PlanOf(cfg, d, e, inp), inp.now)
    ensures !e.pc.ReviewTop? ==> MarkApplied(e) == e
  {
    hide PlanOf, HumanDecision, WellFormed, Perform;
    MarkedSame(e);
    SoundIsSteady(g, d, e);
  }

  /** The controller and the request come first: CANCEL abandons the session, PAUSE does nothing at all, a request that
      cannot be built raises before the role is asked, and a role that raises fails the run. */
  lemma ExecutorIsNotDone(g: PhaseGraph, cfg: Config, d: Disk, e: Engine, inp: Input)
    requires Sound(g, d, e) && e.pc.ExecTop?
    ensures var o, p, st := Step(g, cfg, d, e, inp), e.pc.phase, e.held.state;
            && (inp.signal.Cancel? ==> Closes(cfg, e, o, [], Abandoned, inp.now))
            && (inp.signal.Pause? ==> o == Outcome(e.(pc := Paused), []))
            && (inp.signal.Continue? ==>
                  && (forall err :: Unreadable(d, st.reviews, p.phaseId, err) ==> Raises(e, o, [], err, inp.now))
                  && (forall previous :: Shown(d, st.reviews, p.phaseId, previous) && inp.execution.Raised? ==>
                        Raises(e, o, [AskExecutor(p.phaseId, st, previous)], RoleError, inp.now)))
  {
    hide Perform, Closes, Raises, PlanIteration, HistoryFor, Shown, Unreadable, WellFormed;
    StepPerforms(g, cfg, d, e, inp);
    HistoryIsShown(d, e.held.state, e.pc.phase.phaseId);
    PerformCloses(g, cfg, d, e, [], Abandoned, inp.now);
    forall before, err { PerformRaises(g, cfg, d, e, before, err, inp.now); }
    assert inp.signal.Pause? ==> Perform(g, cfg, d, e, Stop, inp.now) == Outcome(e.(pc := Paused), []) by {
      PausingDoesNothing(g, cfg, d, e, inp.now);
    }
  }

  lemma PausingDoesNothing(g: PhaseGraph, cfg: Config, d: Disk, e: Engine, now: Time)
    ensures Perform(g, cfg, d, e, Stop, now) == Outcome(e.(pc := Paused), [])
  {
  }

  /** One pack file for each file of a result, in order. */
  predicate FilesWritten(out: seq<Effect>, files: seq<(Ref, string)>) {
    && |out| == |files|
    && forall i :: 0 <= i < |files| ==> out[i] == PackWrite(files[i].0, TextDocument(files[i].1))
  }

  /** The result is of the role of its phase, and does not end before it was asked for. */
  predicate InTurn(p: PhaseDefinition, inp: Input, roleId: string, endedAt: Option<Time>) {
    roleId == p.roleId && endedAt.Some? && inp.startedAt <= endedAt.value
  }

  /** The last step of a discovery came back without the handoff it is for. */
  predicate HandoffMissing(cfg: Config, e: Engine, r: ExecutionResult)
    requires Running(e)
  {
    PackInUse(cfg, e.held.state) && e.pc.phase.phaseId == "finalize" && r.handoff.None?
  }

  /** The number of the next iteration of the phase. */
  function NextIteration(e: Engine): nat
    requires Running(e)
  {
    |IterationsAt(e.held.state.iterations, e.pc.phase.phaseId)| + 1
  }

  /** What a result leaves in the run directory and in the pack: its handoff, then the files for the pack, then the
      handoff of a discovery under its fixed name. */
  predicate Groundworks(cfg: Config, e: Engine, r: ExecutionResult, before: seq<Effect>, ask: Effect, files: seq<Effect>)
    requires Running(e)
  {
    var p, pack := e.pc.phase, PackInUse(cfg, e.held.state);
    && (if pack then FilesWritten(files, r.files) else files == [])
    && match r.handoff
       case None => before == [ask] + files
       case Some(body) =>
         var document := HandoffDocument(p.phaseId, r.roleId, body);
         before == [ask, ArtifactWrite(HandoffName(p.phaseId, NextIteration(e)), document)] + files +
                   if pack && p.phaseId == "finalize" then [PackWrite("discovery/handoff-context.json", document)] else []
  }

  lemma IterationPlan(g: PhaseGraph, cfg: Config, d: Disk, e: Engine, inp: Input, r: ExecutionResult, ask: Effect)
    returns (before: seq<Effect>, files: seq<Effect>)
    requires Sound(g, d, e) && e.pc.ExecTop? && r.endedAt.Some?
    ensures Groundworks(cfg, e, r, before, ask, files)
    ensures var p, st := e.pc.phase, e.held.state;
            var plan := PlanIteration(cfg, e, p, e.pc.count, inp, r, [ask]);
            var n := NextIteration(e);
            var ref := if r.handoff.Some? then Some(HandoffName(p.phaseId, n)) else None;
            var entry := IterationEntry(n, p.phaseId, r.roleId, r.confidenceScore, inp.startedAt, r.endedAt.value, ref);
            if HandoffMissing(cfg, e, r) then plan == Save([ask] + files, Close(Abandoned, inp.now), Enter)
            else if r.confidenceScore < 0 || r.confidenceScore > 100 then plan == Fail(before, ValidationError)
            else plan == Save(before, Iterate(entry, r.chosenNext, r.usage), AfterIteration(cfg, st, p, e.pc.count, r))
  {
    hide AfterIteration, WellFormed, IterationsAt, CountIterations, HandoffName;
    CountsIterations(e.held.state.iterations, e.pc.phase.phaseId);
    var p, pack := e.pc.phase, PackInUse(cfg, e.held.state);
    assert PackActive(cfg, e.held.state) == pack;
    files := if pack then PackFiles(r.files) else [];
    match r.handoff
    case None =>
      before := [ask] + files;
      assert [ask] + [] + files == before && before + [] == before;
    case Some(body) =>
      var document := HandoffDocument(p.phaseId, r.roleId, body);
      var stored := ArtifactWrite(HandoffName(p.phaseId, NextIteration(e)), document);
      var last := if pack && p.phaseId == "finalize" then [PackWrite(CANONICAL_HANDOFF, document)] else [];
      assert [ask] + [stored] == [ask, stored];
      before := [ask, stored] + files + last;
  }

  /** A result that does not fit its phase is refused before anything is written; a discovery that ends without a
      handoff is abandoned after its files; a score outside 0..100 is refused when all but the entry is written. */
  lemma ExecutorIsRefused(g: PhaseGraph, cfg: Config, d: Disk, e: Engine, inp: Input, previous: Option<DecisionPayload>)
    returns (before: seq<Effect>, files: seq<Effect>)
    requires Sound(g, d, e) && e.pc.ExecTop? && inp.signal.Continue? && inp.execution.Returned?
    requires Shown(d, e.held.state.reviews, e.pc.phase.phaseId, previous)
    ensures var o, p, r := Step(g, cfg, d, e, inp), e.pc.phase, inp.execution.value;
            var ask := AskExecutor(p.phaseId, e.held.state, previous);
            && Groundworks(cfg, e, r, before, ask, files)
            && (!InTurn(p, inp, r.roleId, r.endedAt) ==> Raises(e, o, [ask], TransitionError, inp.now))
            && (InTurn(p, inp, r.roleId, r.endedAt) && HandoffMissing(cfg, e, r) ==>
                  Closes(cfg, e, o, [ask] + files, Abandoned, inp.now))
            && (InTurn(p, inp, r.roleId, r.endedAt) && !HandoffMissing(cfg, e, r) &&
                (r.confidenceScore < 0 || r.confidenceScore > 100) ==>
                  Raises(e, o, before, ValidationError, inp.now))
  {
    hide Perform, Closes, Raises, Groundworks, HandoffMissing, HistoryFor, Shown, WellFormed, AfterIteration,
      PlanIteration;
    var r, p := inp.execution.value, e.pc.phase;
    var ask := AskExecutor(p.phaseId, e.held.state, previous);
    StepPerforms(g, cfg, d, e, inp);
    HistoryIsShown(d, e.held.state, p.phaseId);
    var ended := if r.endedAt.Some? then r.endedAt.value else 0;
    before, files := IterationPlan(g, cfg, d, e, inp, r.(endedAt := Some(ended)), ask);
    SameGroundworks(cfg, e, r, before, ask, files);
    PerformCloses(g, cfg, d, e, [ask] + files, Abandoned, inp.now);
    PerformRaises(g, cfg, d, e, [ask], TransitionError, inp.now);
    PerformRaises(g, cfg, d, e, before, ValidationError, inp.now);
  }

  /** When a result ended does not matter to what it leaves. */
  lemma SameGroundworks(cfg: Config, e: Engine, r: ExecutionResult, before: seq<Effect>, ask: Effect, files: seq<Effect>)
    requires Running(e)
    ensures forall at :: Groundworks(cfg, e, r.(endedAt := at), before, ask, files) <==>
                         Groundworks(cfg, e, r, before, ask, files)
    ensures forall at :: HandoffMissing(cfg, e, r.(endedAt := at)) <==> HandoffMissing(cfg, e, r)
  {
  }

  /** Any other result is committed: its entry is the next of its phase, all it left is on disk before, and the event
      carries it. A pending question then stops the run, in the pack if there is one, or fails it where questions are
      disabled. */
  lemma ExecutorIterates(g: PhaseGraph, cfg: Config, d: Disk, e: Engine, inp: Input, previous: Option<DecisionPayload>)
    returns (before: seq<Effect>, files: seq<Effect>)
    requires Sound(g, d, e) && e.pc.ExecTop? && inp.signal.Continue? && inp.execution.Returned?
    requires Shown(d, e.held.state.reviews, e.pc.phase.phaseId, previous)
    requires var r := inp.execution.value;
             && InTurn(e.pc.phase, inp, r.roleId, r.endedAt)
             && !HandoffMissing(cfg, e, r)
             && 0 <= r.confidenceScore <= 100
    ensures var o, p, st, r := Step(g, cfg, d, e, inp), e.pc.phase, e.held.state, inp.execution.value;
            var n, rev, sid, ended := NextIteration(e), e.held.revision + 1, st.sessionId, r.endedAt.value;
            var ref := if r.handoff.Some? then Some(HandoffName(p.phaseId, n)) else None;
            var entry := IterationEntry(n, p.phaseId, r.roleId, r.confidenceScore, inp.startedAt, ended, ref);
            var committed := IterationCommitted(sid, p.phaseId, r.roleId, n, r.confidenceScore, st.feedbackLoops, rev,
                                                inp.startedAt, ended, r.chosenNext, ref, r.usage);
            var asked := r.pendingQuestion.Some?;
            var afterwards := if !asked then []
                         else if !cfg.adhocQuestions then
                           [Emit(RunFailed(sid, p.phaseId, p.roleId, rev, inp.now, ConfigurationError))]
                         else if PackInUse(cfg, st) then
                           [PackQuestion(r.pendingQuestion.value, p.phaseId, r.roleId, ended)]
                         else [];
            && Groundworks(cfg, e, r, before, AskExecutor(p.phaseId, st, previous), files)
            && Saves(e, o, before, st.(iterations := st.iterations + [entry]), [Emit(committed)] + afterwards)
            && o.next.pc == (if !asked then ExecDecide(p, n, r.confidenceScore, r.chosenNext)
                             else if !cfg.adhocQuestions then Crashed(ConfigurationError)
                             else Paused)
  {
    hide Groundworks, HandoffMissing, HistoryFor, Shown, WellFormed, PlanIteration, IterationsAt, CountIterations;
    var r, p := inp.execution.value, e.pc.phase;
    var ask := AskExecutor(p.phaseId, e.held.state, previous);
    StepPerforms(g, cfg, d, e, inp);
    CountsIterations(e.held.state.iterations, p.phaseId);
    HistoryIsShown(d, e.held.state, p.phaseId);
    before, files := IterationPlan(g, cfg, d, e, inp, r, ask);
  }

  // ---- The turn of a review phase -------------------------------------------------------------

  /** A decision that a review phase finds on entry: the newest of a human phase, and not applied in this run. */
  predicate Waiting(e: Engine, i: int)
    requires Running(e)
  {
    var p, rs := e.pc.phase, e.held.state.reviews;
    && p.human
    && 0 <= i < |rs| && rs[i].phaseId == p.phaseId
    && rs[i].review == |ReviewsAt(rs, p.phaseId)|
    && rs[i].decision in {Some(Approve), Some(RequestChanges)}
    && (p.phaseId, rs[i].review) !in e.applied
  }

  lemma {:induction false} NumbersAreDistinct(rs: seq<ReviewEntry>, i: nat, j: nat)
    requires NumberedReviews(rs) && i < j < |rs| && rs[i].phaseId == rs[j].phaseId
    ensures rs[i].review < rs[j].review
  {
    assert NumberedReviews(rs[..j]) by {
      forall k | 0 <= k < j ensures rs[..j][k].review == CountReviews(rs[..j][..k], rs[..j][k].phaseId) + 1 {
        assert rs[..j][..k] == rs[..k];
      }
    }
    assert rs[..j][i] == rs[i];
    NumbersAreBounded(rs[..j], i);
  }

  lemma WaitingIsFound(e: Engine)
    requires e.pc.ReviewTop? && NumberedReviews(e.held.state.reviews)
    ensures forall i :: Waiting(e, i) ==> HumanDecision(e, e.pc.phase) == Some(e.held.state.reviews[i])
    ensures HumanDecision(e, e.pc.phase).Some? ==>
      exists i :: Waiting(e, i) && HumanDecision(e, e.pc.phase) == Some(e.held.state.reviews[i])
  {
    hide NumberedReviews, ReviewsAt, CountReviews, FindDecided;
    var p, rs := e.pc.phase, e.held.state.reviews;
    CountsReviews(rs, p.phaseId);
    DecisionHasNewestNumber(e, p);
    forall i | Waiting(e, i) ensures HumanDecision(e, p) == Some(rs[i]) {
      NumberIsPositive(rs, i);
      var found := FindDecided(rs, p.phaseId, NextReview(e.held.state, p) - 1);
      assert Decided(rs[i]);
      var j :| 0 <= j < |rs| && rs[j] == found.value;
      if i < j { NumbersAreDistinct(rs, i, j); }
      if j < i { NumbersAreDistinct(rs, j, i); }
    }
    if HumanDecision(e, p).Some? {
      var i :| 0 <= i < |rs| && rs[i] == HumanDecision(e, p).value;
      assert rs[i].decision in {Some(Approve), Some(RequestChanges)};
      assert Waiting(e, i);
    }
  }

  lemma NumberIsPositive(rs: seq<ReviewEntry>, i: nat)
    requires NumberedReviews(rs) && i < |rs|
    ensures 1 <= rs[i].review
  {
  }

  /** A decision that waits at a human phase is applied and remembered: an approval leaves by `on_approve`, a request for
      changes by `can_request_changes_from`, each to the target the decision names. */
  lemma HumanDecides(g: PhaseGraph, cfg: Config, d: Disk, e: Engine, inp: Input, i: nat)
    requires ValidGraph(g) && Sound(g, d, e) && e.pc.ReviewTop? && Waiting(e, i)
    ensures var o, p, r := Step(g, cfg, d, e, inp), e.pc.phase, e.held.state.reviews[i];
            var m := e.(applied := e.applied + {(p.phaseId, r.review)});
            if r.decision == Some(Approve) then Leaves(g, cfg, m, o, p.onApprove, r.targetPhase, inp.now)
            else if p.canRequestChangesFrom == [] then Raises(m, o, [], TransitionError, inp.now)
            else Leaves(g, cfg, m, o, p.canRequestChangesFrom, r.targetPhase, inp.now)
  {
    hide Perform, PlanLeave, Leaves, Raises, WellFormed, HumanDecision, Waiting, ValidGraph;
    var p := e.pc.phase;
    StepPerforms(g, cfg, d, e, inp);
    SoundIsSteady(g, d, e);
    assert NumberedReviews(e.held.state.reviews) by { SoundNumbersReviews(g, d, e); }
    WaitingIsFound(e);
    var m := MarkApplied(e);
    WaitingIsDecided(e, i);
    PerformRaises(g, cfg, d, m, [], TransitionError, inp.now);
    TargetsAreKnown(g, e.held.state.currentPhase);
    PerformLeaves(g, cfg, d, m, p.onApprove, e.held.state.reviews[i].targetPhase, inp.now);
    PerformLeaves(g, cfg, d, m, p.canRequestChangesFrom, e.held.state.reviews[i].targetPhase, inp.now);
  }

  lemma WaitingIsDecided(e: Engine, i: nat)
    requires Running(e) && Waiting(e, i)
    ensures i < |e.held.state.reviews|
    ensures e.held.state.reviews[i].phaseId == e.pc.phase.phaseId
    ensures e.held.state.reviews[i].decision in {Some(Approve), Some(RequestChanges)}
  {
  }

  lemma SoundNumbersReviews(g: PhaseGraph, d: Disk, e: Engine)
    requires Sound(g, d, e) && Running(e)
    ensures NumberedReviews(e.held.state.reviews)
  {
    hide PcOk, NumberedReviews, NumberedIterations;
  }

  lemma {:induction false} TargetsAreKnown(g: PhaseGraph, id: PhaseId)
    requires ValidGraph(g) && Get(g, id).Some?
    ensures forall t :: t in AllTargets(Get(g, id).value) ==> Get(g, t).Some?
  {
    hide ValidGraph;
    forall t | t in AllTargets(Get(g, id).value) ensures Get(g, t).Some? {
      TargetsExist(g, id, t);
    }
  }

  /** Without one, a human phase leaves a PENDING stub with its next number and stops. */
  lemma HumanIsAwaited(g: PhaseGraph, cfg: Config, d: Disk, e: Engine, inp: Input)
    requires Sound(g, d, e) && e.pc.ReviewTop? && e.pc.phase.human && forall i :: !Waiting(e, i)
    ensures var o, p, st := Step(g, cfg, d, e, inp), e.pc.phase, e.held.state;
            var n := |ReviewsAt(st.reviews, p.phaseId)| + 1;
            var stub := ReviewEntry(n, p.phaseId, p.roleId, Some(Pending), None, None, Some(inp.now), None);
            var pending := HumanReviewPending(st.sessionId, p.phaseId, p.roleId, n, e.held.revision + 1, inp.now);
            && Saves(e, o, [], st.(reviews := st.reviews + [stub]), [Emit(pending)])
            && o.next.tokens == e.tokens
            && o.next.pc.Paused?
  {
    hide WellFormed, HumanDecision, Waiting, ReviewsAt, CountReviews;
    StepPerforms(g, cfg, d, e, inp);
    SoundNumbersReviews(g, d, e);
    WaitingIsFound(e);
    CountsReviews(e.held.state.reviews, e.pc.phase.phaseId);
  }

  /** Of no target none is chosen, of one it is that one unless another is asked for, of several the one asked for. */
  predicate Chooses(targets: seq<PhaseId>, chosen: Option<PhaseId>, next: Option<PhaseId>) {
    if targets == [] then next == None
    else if |targets| == 1 then next == Some(targets[0]) && (chosen.None? || chosen == next)
    else next == chosen && chosen.Some? && chosen.value in targets
  }

  /** Where a verdict leads: an approval on, a request for changes back to a phase it may send to. */
  predicate LeadsTo(p: PhaseDefinition, r: ReviewResult, next: Option<PhaseId>) {
    if r.decision.Approve? then Chooses(p.onApprove, r.chosenNext, next)
    else next.Some? && Chooses(p.canRequestChangesFrom, r.targetPhase, next)
  }

  lemma WayIsResolved(p: PhaseDefinition, r: ReviewResult)
    requires r.endedAt.Some? && r.decision in {Approve, RequestChanges}
    ensures var resolved := ResolveReview(p, MakePayload(p, r), r.chosenNext);
            && (forall next :: LeadsTo(p, r, next) ==>
                  resolved == Success((next, if r.decision.RequestChanges? then 1 else 0)))
            && ((forall next :: !LeadsTo(p, r, next)) ==> resolved == Failure(TransitionError))
  {
    var resolved := ResolveReview(p, MakePayload(p, r), r.chosenNext);
    if resolved.Success? {
      assert LeadsTo(p, r, resolved.value.0);
    }
  }

  /** A verdict says what it must: a score, a decision, and with a request for changes what each finding requires. */
  predicate Sayable(r: ReviewResult) {
    && 0 <= r.confidenceScore <= 100
    && r.decision in {Approve, RequestChanges}
    && (r.decision.RequestChanges? ==>
          forall i :: 0 <= i < |r.findings| ==> r.findings[i].requiredChange !in {None, Some("")})
  }

  /** A request that cannot be built raises before the reviewer is asked, and a reviewer that raises fails the run. */
  lemma ReviewerIsNotDone(g: PhaseGraph, cfg: Config, d: Disk, e: Engine, inp: Input)
    requires Sound(g, d, e) && e.pc.ReviewTop? && !e.pc.phase.human
    ensures var o, p, st := Step(g, cfg, d, e, inp), e.pc.phase, e.held.state;
            && (forall err :: Unreadable(d, st.reviews, p.phaseId, err) ==> Raises(e, o, [], err, inp.now))
            && (forall previous :: Shown(d, st.reviews, p.phaseId, previous) && inp.review.Raised? ==>
                  Raises(e, o, [AskReviewer(p.phaseId, st, previous)], RoleError, inp.now))
  {
    hide Perform, Raises, PlanVerdict, HistoryFor, Shown, Unreadable, WellFormed, HumanDecision, Waiting;
    StepPerforms(g, cfg, d, e, inp);
    SoundNumbersReviews(g, d, e);
    DecisionHasNewestNumber(e, e.pc.phase);
    HistoryIsShown(d, e.held.state, e.pc.phase.phaseId);
    forall before, err { PerformRaises(g, cfg, d, e, before, err, inp.now); }
  }

  /** A verdict that does not fit its phase, does not say what it must, or leads nowhere is refused before anything
      is written. */
  lemma ReviewerIsRefused(g: PhaseGraph, cfg: Config, d: Disk, e: Engine, inp: Input, previous: Option<DecisionPayload>)
    requires Sound(g, d, e) && e.pc.ReviewTop? && !e.pc.phase.human && inp.review.Returned?
    requires Shown(d, e.held.state.reviews, e.pc.phase.phaseId, previous)
    ensures var o, p, r := Step(g, cfg, d, e, inp), e.pc.phase, inp.review.value;
            var ask := AskReviewer(p.phaseId, e.held.state, previous);
            var fits := InTurn(p, inp, r.roleId, r.endedAt);
            && (!fits ==> Raises(e, o, [ask], TransitionError, inp.now))
            && (fits && !Sayable(r) ==> Raises(e, o, [ask], ValidationError, inp.now))
            && (fits && Sayable(r) && (forall next :: !LeadsTo(p, r, next)) ==>
                  Raises(e, o, [ask], TransitionError, inp.now))
  {
    hide Perform, Raises, HistoryFor, Shown, WellFormed, HumanDecision, Waiting, ResolveReview, LeadsTo;
    var p, r := e.pc.phase, inp.review.value;
    StepPerforms(g, cfg, d, e, inp);
    SoundNumbersReviews(g, d, e);
    DecisionHasNewestNumber(e, p);
    HistoryIsShown(d, e.held.state, p.phaseId);
    forall err { PerformRaises(g, cfg, d, e, [AskReviewer(p.phaseId, e.held.state, previous)], err, inp.now); }
    if InTurn(p, inp, r.roleId, r.endedAt) && Sayable(r) {
      WayIsResolved(p, r);
    }
  }

  /** Any other verdict is stored with all its findings, then committed as the next review of its phase; a request for
      changes is counted. */
  lemma ReviewerJudges(g: PhaseGraph, cfg: Config, d: Disk, e: Engine, inp: Input, previous: Option<DecisionPayload>,
                       next: Option<PhaseId>)
    requires Sound(g, d, e) && e.pc.ReviewTop? && !e.pc.phase.human && inp.review.Returned?
    requires Shown(d, e.held.state.reviews, e.pc.phase.phaseId, previous)
    requires var r := inp.review.value;
             InTurn(e.pc.phase, inp, r.roleId, r.endedAt) && Sayable(r) && LeadsTo(e.pc.phase, r, next)
    ensures var o, p, st, r := Step(g, cfg, d, e, inp), e.pc.phase, e.held.state, inp.review.value;
            var n, rev, ended := |ReviewsAt(st.reviews, p.phaseId)| + 1, e.held.revision + 1, r.endedAt.value;
            var ref := DecisionName(p.phaseId, n);
            var loops := st.feedbackLoops + if r.decision.RequestChanges? then 1 else 0;
            var payload := DecisionPayload(p.phaseId, r.roleId, r.decision, r.confidenceScore, ended, r.findings,
                                           r.targetPhase);
            var verdict := ReviewEntry(n, p.phaseId, r.roleId, Some(r.decision), r.targetPhase, Some(r.confidenceScore),
                                       Some(ended), Some(ref));
            var committed := ReviewCommitted(st.sessionId, p.phaseId, r.roleId, n, r.decision, r.confidenceScore, loops,
                                             rev, inp.startedAt, ended, r.targetPhase, r.chosenNext, Some(ref), r.usage);
            && Saves(e, o, [AskReviewer(p.phaseId, st, previous), ArtifactWrite(ref, DecisionDocument(payload))],
                     st.(reviews := st.reviews + [verdict], feedbackLoops := loops), [Emit(committed)])
            && o.next.pc == ReviewDecide(p, r.decision, next)
  {
    hide HistoryFor, Shown, WellFormed, HumanDecision, Waiting, ResolveReview, LeadsTo, ReviewsAt, CountReviews,
      DecisionName;
    var p, r := e.pc.phase, inp.review.value;
    StepPerforms(g, cfg, d, e, inp);
    SoundNumbersReviews(g, d, e);
    DecisionHasNewestNumber(e, p);
    CountsReviews(e.held.state.reviews, p.phaseId);
    HistoryIsShown(d, e.held.state, p.phaseId);
    WayIsResolved(p, r);
  }

  /** After a verdict the controller comes first, then the feedback limit, then the way resolved with the verdict. */
  lemma VerdictIsFollowed(g: PhaseGraph, cfg: Config, d: Disk, e: Engine, inp: Input)
    requires ValidGraph(g) && Sound(g, d, e) && e.pc.ReviewDecide?
    ensures var o, p, next := Step(g, cfg, d, e, inp), e.pc.phase, e.pc.next;
            var over := e.held.state.reviews[|e.held.state.reviews| - 1].decision == Some(RequestChanges) &&
                        RoundsUsedUp(cfg, p, e.held.state.feedbackLoops);
            && (inp.signal.Cancel? ==> Closes(cfg, e, o, [], Abandoned, inp.now))
            && (inp.signal.Pause? ==> o == Outcome(e.(pc := Paused), []))
            && (inp.signal.Continue? && over ==> Closes(cfg, e, o, [], Abandoned, inp.now))
            && (inp.signal.Continue? && !over && next.None? ==> Closes(cfg, e, o, [], Completed, inp.now))
            && (inp.signal.Continue? && !over && next.Some? ==> MovesTo(g, e, o, next.value, inp.now))
  {
    hide Perform, Closes, MovesTo, WellFormed, ValidGraph;
    StepPerforms(g, cfg, d, e, inp);
    PerformCloses(g, cfg, d, e, [], Abandoned, inp.now);
    PerformCloses(g, cfg, d, e, [], Completed, inp.now);
    PausingDoesNothing(g, cfg, d, e, inp.now);
    TargetsAreKnown(g, e.held.state.currentPhase);
    if e.pc.next.Some? {
      PerformMoves(g, cfg, d, e, e.pc.next.value, inp.now);
    }
  }

  // ---- The start of a run ---------------------------------------------------------------------

  /** A new session stands at the first phase of the list, with nothing done. */
  function NewSession(g: PhaseGraph, req: RunRequest): SessionState
    requires g != []
  {
    SessionState(req.sessionId, req.contextId, req.initializedAt, g[0].phaseId, [], [], 0, Initialized, None)
  }

  /** The session goes in progress, from the start time of this run. */
  predicate Begins(g: PhaseGraph, o: Outcome, before: seq<Effect>, s: Stored, req: RunRequest) {
    var st, n := s.state.(status := InProgress, startedAt := req.startedAt), s.revision + 1;
    && Get(g, st.currentPhase).Some?
    && var p := Get(g, st.currentPhase).value;
    && o.next.held == Stored(st, n) && o.next.applied == {} && o.next.tokens == TokenUsage(0, 0, 0)
    && o.out == before + [StateWrite(st), RevisionWrite(n)] +
                [Emit(RunStarted(st.sessionId, p.phaseId, p.roleId, n, req.now)),
                 Emit(PhaseStarted(st.sessionId, p.phaseId, p.roleId, p.kind, n, req.now))]
    && Enters(o.next, p)
  }

  lemma {:induction false} LaunchBegins(g: PhaseGraph, cfg: Config, d: Disk, s: Stored, out: seq<Effect>,
                                        req: RunRequest)
    requires s.state.status.Initialized? && req.preflight && SaveError(d, s.revision).None?
    requires Get(g, s.state.currentPhase).Some?
    ensures Begins(g, Launch(g, cfg, d, s, out, req), out, s, req)
  {
    hide IterationsAt, CountIterations, EnterPhase, Get;
    CountsIterations(s.state.iterations, s.state.currentPhase);
    var e1 := Saved(Fresh(Timed(s, req), Finished), Begin);
    var said := Announce(g, cfg, e1, Begin, req.now);
    EnterAfter(g, e1, out + Written(e1) + said, req.now);
    EntersThere(g, e1, req.now);
  }

  lemma {:induction false} EntersThere(g: PhaseGraph, e: Engine, now: Time)
    requires e.held.state.status.InProgress? && Get(g, e.held.state.currentPhase).Some?
    ensures var n := EnterPhase(g, e, [], now).next;
            n == e.(pc := n.pc) && Enters(n, Get(g, e.held.state.currentPhase).value)
  {
    hide IterationsAt, CountIterations, Get;
    CountsIterations(e.held.state.iterations, e.held.state.currentPhase);
  }

  /** A run without a stored session creates one at revision 0, and starts it in the first phase of the graph; where the
      checks before the run fail, it stays created. */
  lemma {:induction false} FirstRun(g: PhaseGraph, cfg: Config, d: Disk, req: RunRequest, inputs: seq<Input>)
    requires ValidGraph(g) && d.state.None?
    ensures var o, st := Boot(g, cfg, d, req), NewSession(g, req);
            var created := [StateWrite(st), RevisionWrite(0)];
            && (req.preflight ==> Begins(g, o, created, Stored(st, 0), req) && Get(g, st.currentPhase) == Some(g[0]))
            && (!req.preflight ==>
                  && o.next.pc == Crashed(ConfigurationError)
                  && o.out == created + [Emit(RunFailed(req.sessionId, g[0].phaseId, g[0].roleId, 0, req.now,
                                                        ConfigurationError))])
            && o.out <= Session(g, cfg, d, req, inputs).trace
  {
    hide Launch, Begins, Exec, ValidPhase;
    var st := NewSession(g, req);
    var created := [StateWrite(st), RevisionWrite(0)];
    GetAt(g, 0);
    BootIsLaunch(g, cfg, d, req);
    InitialWritesLand(g, d, req);
    if req.preflight {
      LaunchBegins(g, cfg, Apply(d, created), Stored(st, 0), created, req);
    } else {
      LaunchIsRefused(g, cfg, Apply(d, created), Stored(st, 0), created, req);
    }
  }

  lemma {:induction false} LaunchIsRefused(g: PhaseGraph, cfg: Config, d: Disk, s: Stored, out: seq<Effect>,
                                           req: RunRequest)
    requires !Terminal(s.state.status) && !req.preflight && Get(g, s.state.currentPhase).Some?
    ensures var o, p := Launch(g, cfg, d, s, out, req), Get(g, s.state.currentPhase).value;
            && o.next.pc == Crashed(ConfigurationError)
            && o.out == out + [Emit(RunFailed(s.state.sessionId, p.phaseId, p.roleId, s.revision, req.now,
                                              ConfigurationError))]
  {
  }

  /** In a phase the graph does not have, an exception becomes a ConfigurationError that nothing reports. */
  lemma {:induction false} LaunchIsLost(g: PhaseGraph, cfg: Config, d: Disk, s: Stored, req: RunRequest)
    requires SaveError(d, s.revision).None?
    ensures !Terminal(s.state.status) && Get(g, s.state.currentPhase).None? ==>
      var o, begun := Launch(g, cfg, d, s, [], req), s.state.(status := InProgress, startedAt := req.startedAt);
      && o.next.pc == Crashed(ConfigurationError)
      && o.out == (if req.preflight && s.state.status.Initialized? then
                     [StateWrite(begun), RevisionWrite(s.revision + 1)]
                   else [])
  {
    hide Get;
  }

  /** What a stored snapshot must satisfy to be loaded. */
  predicate Valid(st: SessionState) {
    && st.completedAt.Some? == (st.status in {Completed, Abandoned, Failed})
    && st.feedbackLoops >= 0
    && (forall it :: it in st.iterations ==> it.iteration >= 1 && 0 <= it.confidenceScore <= 100)
    && (forall r :: r in st.reviews ==> r.review >= 1 && (r.confidenceScore.Some? ==> 0 <= r.confidenceScore.value <= 100))
  }

  lemma LoadableIsValid(st: SessionState)
    ensures Loadable(st) <==> Valid(st)
  {
    if Loadable(st) {
      forall it | it in st.iterations ensures it.iteration >= 1 && 0 <= it.confidenceScore <= 100 {
        var i :| 0 <= i < |st.iterations| && st.iterations[i] == it;
        assert ValidIteration(st.iterations[i]);
      }
      forall r | r in st.reviews
        ensures r.review >= 1 && (r.confidenceScore.Some? ==> 0 <= r.confidenceScore.value <= 100)
      {
        var i :| 0 <= i < |st.reviews| && st.reviews[i] == r;
        assert ValidReview(st.reviews[i]);
      }
    }
  }

  /** A run that finds a session: an invalid snapshot or that of another session is refused untouched, a terminal
      session is returned untouched, and otherwise the run starts it or resumes it where it stands, or raises where
      the graph does not have that phase. */
  lemma {:induction false} LaterRun(g: PhaseGraph, cfg: Config, d: Disk, req: RunRequest, inputs: seq<Input>)
    requires d.state.Some?
    ensures var o, st, rev := Boot(g, cfg, d, req), d.state.value, ReadRevision(d);
            && (!Valid(st) ==> o.out == [] && o.next.pc == Crashed(ValidationError))
            && (Valid(st) && st.sessionId != req.sessionId ==> o.out == [] && o.next.pc == Crashed(StateError))
            && (Valid(st) && st.sessionId == req.sessionId ==>
                  && (st.status in {Completed, Abandoned, Failed} ==>
                        o.out == [] && o.next.pc.Finished? && o.next.held == Stored(st, rev))
                  && (st.status in {Initialized, InProgress} && Get(g, st.currentPhase).Some? ==>
                        var p := Get(g, st.currentPhase).value;
                        && (!req.preflight ==>
                              && o.next.pc == Crashed(ConfigurationError)
                              && o.out == [Emit(RunFailed(st.sessionId, p.phaseId, p.roleId, rev, req.now,
                                                          ConfigurationError))])
                        && (req.preflight && st.status.Initialized? ==> Begins(g, o, [], Stored(st, rev), req))
                        && (req.preflight && st.status.InProgress? ==>
                              && o.next.held == Stored(st, rev) && o.next.applied == {}
                              && o.next.tokens == TokenUsage(0, 0, 0)
                              && o.out == [Emit(RunResumed(st.sessionId, p.phaseId, p.roleId, p.kind, rev, req.now))]
                              && Enters(o.next, p)))
                  && (st.status in {Initialized, InProgress} && Get(g, st.currentPhase).None? ==>
                        var begun := st.(status := InProgress, startedAt := req.startedAt);
                        && o.next.pc == Crashed(ConfigurationError)
                        && o.out == (if req.preflight && st.status.Initialized? then
                                       [StateWrite(begun), RevisionWrite(rev + 1)]
                                     else [])))
            && o.out <= Session(g, cfg, d, req, inputs).trace
  {
    hide Begins, Exec, Loadable, Valid, IterationsAt, Get;
    var st := d.state.value;
    var s := Stored(st, ReadRevision(d));
    LoadableIsValid(st);
    assert Apply(d, []) == d;
    LaunchIsLost(g, cfg, d, s, req);
    if Valid(st) && st.sessionId == req.sessionId && !Terminal(st.status) && Get(g, st.currentPhase).Some? {
      if !req.preflight {
        LaunchIsRefused(g, cfg, d, s, [], req);
      } else if st.status.Initialized? {
        LaunchBegins(g, cfg, d, s, [], req);
      } else {
        var e := Fresh(s, Finished);
        var p := Get(g, st.currentPhase).value;
        var resumed := Emit(RunResumed(st.sessionId, p.phaseId, p.roleId, p.kind, s.revision, req.now));
        EnterAfter(g, e, [resumed], req.now);
        EntersThere(g, e, req.now);
        assert [] + [resumed] == [resumed];
      }
    }
  }

  // ---- A store that has moved on --------------------------------------------------------------

  /** An engine whose revision the store no longer has, or whose session is gone, saves nothing and says so. */
  lemma {:induction false} StaleSaveIsRefused(g: PhaseGraph, cfg: Config, d: Disk, e: Engine, inp: Input)
    requires Running(e) && Get(g, e.held.state.currentPhase).Some?
    requires d.state.None? || ReadRevision(d) != e.held.revision
    ensures var o := Step(g, cfg, d, e, inp);
            var there := d.(state := Some(e.held.state), revision := Some(e.held.revision));
            && o.next.held == e.held && SavesOf(o.out) == []
            && (SavesOf(Step(g, cfg, there, e, inp).out) != [] ==>
                  o.next.pc == Crashed(if d.state.None? then StateNotFoundError else ConcurrencyError))
  {
    hide PlanOf, Conclude, Groundwork, Aftermath, HumanDecision;
    var there := d.(state := Some(e.held.state), revision := Some(e.held.revision));
    var before, tail := StepShape(g, cfg, d, e, inp);
    var before1, tail1 := StepShape(g, cfg, there, e, inp);
    PlanReadsFiles(cfg, d, there, e, inp);
  }

  /** What a step decides depends on the disk through its artifacts only. */
  lemma PlanReadsFiles(cfg: Config, d: Disk, d': Disk, e: Engine, inp: Input)
    requires Running(e) && d.files == d'.files
    ensures PlanOf(cfg, d, e, inp) == PlanOf(cfg, d', e, inp)
  {
    hide PlanIteration, PlanVerdict, HumanDecision, LatestFeedback;
  }

  // ---- What reaches the pack ------------------------------------------------------------------

  /** The text of the last file of a name. */
  function LastUnder(files: seq<(Ref, string)>, ref: Ref): Option<string> {
    if files == [] then None
    else
      var last := |files| - 1;
      if files[last].0 == ref then Some(files[last].1) else LastUnder(files[..last], ref)
  }

  predicate PackUntouched(out: seq<Effect>) {
    forall i :: 0 <= i < |out| ==> !out[i].PackWrite?
  }

  lemma {:induction false} UntouchedKeepsPack(d: Disk, out: seq<Effect>)
    requires PackUntouched(out)
    ensures Apply(d, out).pack == d.pack
    decreases |out|
  {
    if out != [] {
      UntouchedKeepsPack(ApplyEffect(d, out[0]), out[1..]);
    }
  }

  /** A pack that got some files on top of what it had: the last of each name, and nothing else. */
  ghost predicate Holds(pack: map<Ref, Document>, base: map<Ref, Document>, files: seq<(Ref, string)>) {
    forall ref ::
      match LastUnder(files, ref)
      case Some(text) => ref in pack && pack[ref] == TextDocument(text)
      case None => (ref in pack <==> ref in base) && (ref in pack ==> pack[ref] == base[ref])
  }

  lemma OneMoreFile(pack: map<Ref, Document>, base: map<Ref, Document>, files: seq<(Ref, string)>, file: (Ref, string))
    requires Holds(pack, base, files)
    ensures Holds(pack[file.0 := TextDocument(file.1)], base, files + [file])
  {
    assert (files + [file])[..|files|] == files;
    forall ref ensures LastUnder(files + [file], ref) == if file.0 == ref then Some(file.1) else LastUnder(files, ref) {}
  }

  lemma {:induction false} FilesReachThePack(d: Disk, out: seq<Effect>, files: seq<(Ref, string)>)
    requires FilesWritten(out, files)
    ensures Holds(Apply(d, out).pack, d.pack, files)
    decreases |out|
  {
    if out != [] {
      hide Holds;
      var n := |out| - 1;
      FilesReachThePack(d, out[..n], files[..n]);
      assert out[..n] + [out[n]] == out && files[..n] + [files[n]] == files;
      OneMore(d, out[..n], out[n]);
      OneMoreFile(Apply(d, out[..n]).pack, d.pack, files[..n], files[n]);
    }
  }

  /** What the groundwork of an iteration makes of the pack. */
  lemma GroundworkReachesThePack(cfg: Config, d: Disk, e: Engine, r: ExecutionResult, before: seq<Effect>, ask: Effect,
                                 files: seq<Effect>)
    returns (held: map<Ref, Document>)
    requires Running(e) && ask.AskExecutor? && Groundworks(cfg, e, r, before, ask, files)
    ensures var id, pack := e.pc.phase.phaseId, Apply(d, before).pack;
            if !PackInUse(cfg, e.held.state) then pack == d.pack
            else
              && Holds(held, d.pack, r.files)
              && pack == if id == "finalize" && r.handoff.Some? then
                           held["discovery/handoff-context.json" := HandoffDocument(id, r.roleId, r.handoff.value)]
                         else held
  {
    hide Holds, FilesWritten, HandoffName;
    var first := if r.handoff.Some? then before[..2] else before[..1];
    var last := before[|first| + |files|..];
    assert before == first + files + last;
    assert PackUntouched(first);
    UntouchedKeepsPack(d, first);
    var d1 := Apply(d, first);
    var d2 := Apply(d1, files);
    held := d2.pack;
    ApplyConcat(d, first + files, last);
    ApplyConcat(d, first, files);
    if PackInUse(cfg, e.held.state) {
      FilesReachThePack(d1, files, r.files);
    } else {
      NothingDone(d1);
    }
    if last == [] {
      NothingDone(d2);
    } else {
      assert last == [last[0]];
      OneMore(d2, [], last[0]);
    }
  }

  /** An iteration puts the files of its result into the pack, the last of each name, and the handoff of the last step of
      a discovery under its fixed name, and changes nothing else in the pack. */
  lemma ResultReachesThePack(g: PhaseGraph, cfg: Config, d: Disk, e: Engine, inp: Input, previous: Option<DecisionPayload>)
    returns (held: map<Ref, Document>)
    requires Sound(g, d, e) && e.pc.ExecTop? && inp.signal.Continue? && inp.execution.Returned?
    requires Shown(d, e.held.state.reviews, e.pc.phase.phaseId, previous)
    requires var r := inp.execution.value;
             && InTurn(e.pc.phase, inp, r.roleId, r.endedAt)
             && !HandoffMissing(cfg, e, r)
             && 0 <= r.confidenceScore <= 100
    ensures var pack, r, id := Apply(d, Step(g, cfg, d, e, inp).out).pack, inp.execution.value, e.pc.phase.phaseId;
            if !PackInUse(cfg, e.held.state) then pack == d.pack
            else
              && Holds(held, d.pack, r.files)
              && pack == if id != "finalize" then held
                         else held["discovery/handoff-context.json" := HandoffDocument(id, r.roleId, r.handoff.value)]
  {
    hide Step, Shown, Sound, Groundworks, Holds, InTurn, IterationsAt, HandoffName;
    var r, o := inp.execution.value, Step(g, cfg, d, e, inp);
    var before, files := ExecutorIterates(g, cfg, d, e, inp, previous);
    var rest := o.out[|before|..];
    assert o.out == before + rest && PackUntouched(rest);
    ApplyConcat(d, before, rest);
    UntouchedKeepsPack(Apply(d, before), rest);
    held := GroundworkReachesThePack(cfg, d, e, r, before, AskExecutor(e.pc.phase.phaseId, e.held.state, previous), files);
  }

  lemma {:induction false} OthersAskNothing(d: Disk, out: seq<Effect>)
    requires forall i :: 0 <= i < |out| ==> !out[i].PackQuestion?
    ensures Apply(d, out).questions == d.questions
    decreases |out|
  {
    if out != [] {
      OthersAskNothing(ApplyEffect(d, out[0]), out[1..]);
    }
  }

  /** A pending question is added to the pack, if there is one and questions are enabled, and to nothing else. */
  lemma {:induction false} QuestionReachesThePack(g: PhaseGraph, cfg: Config, d: Disk, e: Engine, inp: Input,
                               previous: Option<DecisionPayload>)
    requires Sound(g, d, e) && e.pc.ExecTop? && inp.signal.Continue? && inp.execution.Returned?
    requires Shown(d, e.held.state.reviews, e.pc.phase.phaseId, previous)
    requires var r := inp.execution.value;
             && InTurn(e.pc.phase, inp, r.roleId, r.endedAt)
             && !HandoffMissing(cfg, e, r)
             && 0 <= r.confidenceScore <= 100
    ensures var asked := inp.execution.value.pendingQuestion;
            Apply(d, Step(g, cfg, d, e, inp).out).questions ==
            d.questions + if asked.Some? && cfg.adhocQuestions && PackInUse(cfg, e.held.state) then [asked.value] else []
  {
    hide Step, Shown, Sound, Groundworks, InTurn, IterationsAt, HandoffName, HandoffMissing;
    var r, o := inp.execution.value, Step(g, cfg, d, e, inp);
    var before, files := ExecutorIterates(g, cfg, d, e, inp, previous);
    GroundworksAreSilent(cfg, e, r, before, AskExecutor(e.pc.phase.phaseId, e.held.state, previous), files);
    if r.pendingQuestion.Some? && cfg.adhocQuestions && PackInUse(cfg, e.held.state) {
      var first, last := o.out[..|o.out| - 1], o.out[|o.out| - 1];
      assert o.out == first + [last];
      OthersAskNothing(d, first);
      OneMore(d, first, last);
    } else {
      OthersAskNothing(d, o.out);
    }
  }

  lemma GroundworksAreSilent(cfg: Config, e: Engine, r: ExecutionResult, before: seq<Effect>, ask: Effect,
                             files: seq<Effect>)
    requires Running(e) && ask.AskExecutor? && Groundworks(cfg, e, r, before, ask, files)
    ensures forall i :: 0 <= i < |before| ==> !before[i].PackQuestion?
  {
  }
}
