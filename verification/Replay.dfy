/** The event log: replaying it rebuilds the session, it follows the grammar of a run, and every event tells
    what is already on disk. */
module Replay {
  import opened Wrappers
  import opened Graph
  import opened State
  import opened Events
  import opened Disk
  import opened Machine
  import opened Invariants
  import opened Sessions

  // ---- Replaying events -----------------------------------------------------------------------

  /** What an observer learns about the session from one event. */
  function Learn(st: SessionState, ev: Event): SessionState {
    match ev
    case RunStarted(_, _, _, _, _) => st.(status := InProgress)
    case IterationCommitted(_, id, role, number, score, _, _, startedAt, endedAt, _, handoff, _) =>
      st.(iterations := st.iterations + [IterationEntry(number, id, role, score, startedAt, endedAt, handoff)])
    case ReviewCommitted(_, id, role, number, decision, score, _, _, _, endedAt, target, _, findings, _) =>
      var entry := ReviewEntry(number, id, role, Some(decision), target, Some(score), Some(endedAt), findings);
      st.(reviews := st.reviews + [entry],
          feedbackLoops := st.feedbackLoops + if decision.RequestChanges? then 1 else 0)
    case HumanReviewPending(_, id, role, number, _, at) =>
      st.(reviews := st.reviews + [ReviewEntry(number, id, role, Some(Pending), None, None, Some(at), None)])
    case PhaseTransitioned(_, _, _, target, _, _, _) => st.(currentPhase := target)
    case RunCompleted(_, status, _, _, _, at, _) => st.(status := status, completedAt := Some(at))
    case RunResumed(_, _, _, _, _, _) => st
    case PhaseStarted(_, _, _, _, _, _) => st
    case RunFailed(_, _, _, _, _, _) => st
  }

  function LearnAll(st: SessionState, log: seq<Event>): SessionState
    decreases |log|
  {
    if log == [] then st else LearnAll(Learn(st, log[0]), log[1..])
  }

  lemma {:induction false} LearnConcat(st: SessionState, a: seq<Event>, b: seq<Event>)
    ensures LearnAll(st, a + b) == LearnAll(LearnAll(st, a), b)
    decreases |a|
  {
    if a == [] {
      assert a + b == b;
    } else {
      assert (a + b)[1..] == a[1..] + b;
      LearnConcat(Learn(st, a[0]), a[1..], b);
    }
  }

  // ---- The grammar of a run -------------------------------------------------------------------

  datatype LogState = Start | Opening(phase: PhaseId) | Inside(phase: PhaseId) | Ended | Broken

  /** One event of a run: a start or a resume, then phases opened and left along the edges of the graph, work
      committed only in the open phase, and nothing after a pending review, a completion or a failure. */
  function Follow(g: PhaseGraph, log: LogState, ev: Event): LogState {
    match ev
    case RunStarted(_, id, _, _, _) => if log.Start? then Opening(id) else Broken
    case RunResumed(_, id, _, _, _, _) => if log.Start? then Inside(id) else Broken
    case PhaseStarted(_, id, _, _, _, _) => if log == Opening(id) then Inside(id) else Broken
    case IterationCommitted(_, id, _, _, _, _, _, _, _, _, _, _) =>
      if log == Inside(id) && Get(g, id).Some? && Get(g, id).value.kind.ExecutorKind? then log else Broken
    case ReviewCommitted(_, id, _, _, _, _, _, _, _, _, _, _, _, _) =>
      if log == Inside(id) && Get(g, id).Some? && Get(g, id).value.kind.ReviewKind? then log else Broken
    case HumanReviewPending(_, id, _, _, _, _) =>
      if log == Inside(id) && Get(g, id).Some? && Get(g, id).value.human then Ended else Broken
    case PhaseTransitioned(_, source, _, target, _, _, _) =>
      if log == Inside(source) && Get(g, source).Some? && target in AllTargets(Get(g, source).value) then Opening(target)
      else Broken
    case RunCompleted(_, _, _, _, _, _, _) => if log.Inside? then Ended else Broken
    case RunFailed(_, id, _, _, _, _) => if log.Start? || log == Inside(id) then Ended else Broken
  }

  function FollowAll(g: PhaseGraph, log: LogState, events: seq<Event>): LogState
    decreases |events|
  {
    if events == [] then log else FollowAll(g, Follow(g, log, events[0]), events[1..])
  }

  lemma {:induction false} FollowConcat(g: PhaseGraph, log: LogState, a: seq<Event>, b: seq<Event>)
    ensures FollowAll(g, log, a + b) == FollowAll(g, FollowAll(g, log, a), b)
    decreases |a|
  {
    if a == [] {
      assert a + b == b;
    } else {
      assert (a + b)[1..] == a[1..] + b;
      FollowConcat(g, Follow(g, log, a[0]), a[1..], b);
    }
  }

  lemma {:induction false} BrokenStays(g: PhaseGraph, log: seq<Event>)
    ensures FollowAll(g, Broken, log) == Broken
  {
    if log != [] {
      BrokenStays(g, log[1..]);
    }
  }

  lemma {:induction false} FollowTwo(g: PhaseGraph, log: LogState, a: Event, b: Event)
    ensures FollowAll(g, log, [a, b]) == Follow(g, Follow(g, log, a), b)
    ensures forall st :: LearnAll(st, [a, b]) == Learn(Learn(st, a), b)
  {
    assert [a, b][1..] == [b] && [b][1..] == [];
    var mid := Follow(g, log, a);
    assert FollowAll(g, Follow(g, mid, b), []) == Follow(g, mid, b);
    assert FollowAll(g, mid, [b]) == Follow(g, mid, b);
    forall st ensures LearnAll(st, [a, b]) == Learn(Learn(st, a), b) {
      var st1 := Learn(st, a);
      assert LearnAll(Learn(st1, b), []) == Learn(st1, b);
      assert LearnAll(st1, [b]) == Learn(st1, b);
    }
  }

  lemma {:induction false} FollowOne(g: PhaseGraph, log: LogState, a: Event)
    ensures FollowAll(g, log, [a]) == Follow(g, log, a)
    ensures forall st :: LearnAll(st, [a]) == Learn(st, a)
  {
    assert [a][1..] == [];
    assert FollowAll(g, Follow(g, log, a), []) == Follow(g, log, a);
    forall st ensures LearnAll(st, [a]) == Learn(st, a) {
      assert LearnAll(Learn(st, a), []) == Learn(st, a);
    }
  }

  // ---- What a step says -----------------------------------------------------------------------

  /** The events of a commit. */
  function Said(g: PhaseGraph, e: Engine, c: Commit, now: Time): seq<Event>
    requires KnownPhase(g, e.held.state, c)
  {
    var st, rev := e.held.state, e.held.revision;
    var sid := st.sessionId;
    match c
    case Begin =>
      var p := Get(g, st.currentPhase).value;
      [RunStarted(sid, p.phaseId, p.roleId, rev, now), StartedEvent(p, e.held, now)]
    case Iterate(it, chosen, usage) =>
      [IterationCommitted(sid, it.phaseId, it.roleId, it.iteration, it.confidenceScore, st.feedbackLoops, rev,
                          it.startedAt, it.endedAt, chosen, it.handoffRef, usage)]
    case Judge(r, payload, _, startedAt, chosen, usage) =>
      [ReviewCommitted(sid, r.phaseId, payload.roleId, r.review, payload.decision, payload.confidenceScore,
                       st.feedbackLoops, rev, startedAt, payload.endedAt, payload.targetPhase, chosen,
                       r.findingsRef, usage)]
    case Stub(r, at) => [HumanReviewPending(sid, r.phaseId, r.roleId, r.review, rev, at)]
    case Move(source, target) =>
      if Get(g, target).None? then []
      else
        var p := Get(g, target).value;
        [PhaseTransitioned(sid, source, RoleOf(g, source), target, p.roleId, rev, now), StartedEvent(p, e.held, now)]
    case Close(status, at) => [RunCompleted(sid, status, st.feedbackLoops, rev, st.startedAt, at, e.tokens)]
  }

  lemma AnnounceSays(g: PhaseGraph, cfg: Config, e: Engine, c: Commit, now: Time)
    requires KnownPhase(g, e.held.state, c)
    ensures EventsOf(Announce(g, cfg, e, c, now)) == Said(g, e, c, now)
  {
    var a := Announce(g, cfg, e, c, now);
    if |a| == 2 {
      assert a == [a[0], a[1]];
      EventsOfTwo(a[0], a[1]);
    } else if |a| == 1 {
      assert a == [a[0]];
      EventsOfOne(a[0]);
    }
  }

  lemma EventsOfOne(x: Effect)
    ensures EventsOf([x]) == if x.Emit? then [x.event] else []
  {
    assert [x][1..] == [];
  }

  lemma EventsOfTwo(x: Effect, y: Effect)
    ensures EventsOf([x, y]) == (if x.Emit? then [x.event] else []) + (if y.Emit? then [y.event] else [])
  {
    assert [x, y][1..] == [y];
    EventsOfOne(y);
  }

  lemma {:induction false} SilentBefore(before: seq<Effect>)
    requires forall i :: 0 <= i < |before| ==> !before[i].Emit?
    ensures EventsOf(before) == []
  {
    if before != [] {
      SilentBefore(before[1..]);
    }
  }

  /** The failure an abort reports, if the current phase can be looked up. */
  function ReportOf(g: PhaseGraph, e: Engine, err: EngineError, now: Time): seq<Event> {
    match Get(g, e.held.state.currentPhase)
    case None => []
    case Some(p) => [RunFailed(e.held.state.sessionId, p.phaseId, p.roleId, e.held.revision, now, err)]
  }

  lemma {:induction false} AbortSays(g: PhaseGraph, e: Engine, out: seq<Effect>, err: EngineError, now: Time)
    ensures EventsOf(Abort(g, e, out, err, now).out) == EventsOf(out) + ReportOf(g, e, err, now)
    ensures Abort(g, e, out, err, now).next.pc ==
            Crashed(if Get(g, e.held.state.currentPhase).Some? then err else ConfigurationError)
  {
    var p := Get(g, e.held.state.currentPhase);
    if p.Some? {
      var last := Emit(RunFailed(e.held.state.sessionId, p.value.phaseId, p.value.roleId, e.held.revision, now, err));
      EventsOfConcat(out, [last]);
      assert [last][1..] == [];
    }
  }

  /** A trailing failure of the current phase, and the engine is down. */
  predicate EndsWell(g: PhaseGraph, n: Engine, end: seq<Event>) {
    end != [] ==>
      && !Running(n)
      && |end| == 1 && end[0].RunFailed?
      && end[0].phaseId == n.held.state.currentPhase
      && end[0].sessionId == n.held.state.sessionId
      && end[0].revision == n.held.revision
  }

  lemma ConcludeSays(g: PhaseGraph, cfg: Config, e: Engine, out: seq<Effect>, c: Commit, after: After, now: Time)
    returns (end: seq<Event>)
    requires KnownPhase(g, e.held.state, c) && (after.Halt? ==> Aftermath(after.post) && EventsOf(after.post) == [])
    ensures var o := Conclude(g, cfg, e, out, c, after, now);
            && EventsOf(o.out) == EventsOf(out) + Said(g, e, c, now) + end
            && EndsWell(g, o.next, end)
            && (end != [] ==> after.Reject?)
            && (after.Halt? || (after.Enter? && !e.held.state.status.InProgress?) ==> !Running(o.next))
  {
    hide Announce, Said, Aftermath, EnterPhase, Abort, ReportOf, EndsWell;
    var said := Announce(g, cfg, e, c, now);
    AnnounceSays(g, cfg, e, c, now);
    EventsOfConcat(out, said);
    end := if after.Reject? then ReportOf(g, e, after.error, now) else [];
    NothingEndsWell(g, Conclude(g, cfg, e, out, c, after, now).next);
    match after
    case Enter => EnterSays(g, e, out + said, now);
    case At(_) =>
    case Halt(post) => EventsOfConcat(out + said, post);
    case Reject(err) =>
      AbortSays(g, e, out + said, err, now);
      FailureEndsWell(g, e, out + said, err, now);
  }

  /** Entering a phase says nothing. */
  lemma EnterSays(g: PhaseGraph, e: Engine, out: seq<Effect>, now: Time)
    ensures EnterPhase(g, e, out, now).out == out
    ensures !e.held.state.status.InProgress? ==> !Running(EnterPhase(g, e, out, now).next)
  {
    EnterAfter(g, e, out, now);
  }

  lemma HaltIsSilent(cfg: Config, d: Disk, e: Engine, inp: Input)
    requires Running(e)
    ensures var plan := PlanOf(cfg, d, e, inp);
            plan.Save? && plan.next.Halt? ==> Aftermath(plan.next.post) && EventsOf(plan.next.post) == []
  {
    hide HumanDecision, HistoryFor, ValidPayload, ResolveReview;
    assert forall ev: Effect :: [ev][1..] == [];
  }

  /** The commits a run does not go on after. */
  predicate Closing(st: SessionState, c: Commit) {
    c.Stub? || (c.Close? && Terminal(st.status))
  }

  lemma ClosingPlans(cfg: Config, d: Disk, e: Engine, inp: Input)
    requires Running(e)
    ensures var plan := PlanOf(cfg, d, e, inp);
            && (plan.Save? && plan.commit.Stub? ==> plan.next.Halt?)
            && (plan.Save? && plan.commit.Close? ==> plan.next.Enter?)
  {
    hide HumanDecision, HistoryFor, AfterIteration, ValidPayload, ResolveReview;
  }

  /** The events of a step: those of its commit, then possibly a failure. */
  lemma StepSays(g: PhaseGraph, cfg: Config, d: Disk, e: Engine, inp: Input) returns (end: seq<Event>)
    requires ValidGraph(g) && Sound(g, d, e)
    ensures var o := Step(g, cfg, d, e, inp);
            && EndsWell(g, o.next, end)
            && (Commits(cfg, d, e, inp) ==>
                  && KnownPhase(g, o.next.held.state, CommitOf(cfg, d, e, inp))
                  && EventsOf(o.out) == Said(g, o.next, CommitOf(cfg, d, e, inp), inp.now) + end
                  && (Closing(o.next.held.state, CommitOf(cfg, d, e, inp)) ==> end == [] && !Running(o.next)))
            && (!Commits(cfg, d, e, inp) ==> EventsOf(o.out) == end)
  {
    hide PlanOf, Conclude, Abort, ValidGraph, WellFormed, Said, PcOk, MarkApplied, Groundwork, Aftermath, EndsWell;
    NothingEndsWell(g, Step(g, cfg, d, e, inp).next);
    end := [];
    if Running(e) {
      var plan, m := PlanOf(cfg, d, e, inp), MarkApplied(e);
      MarkedSame(e);
      PlansAreOrdered(cfg, d, e, inp);
      GroundworkIsSilent(BeforeOf(plan));
      if Commits(cfg, d, e, inp) {
        HaltIsSilent(cfg, d, e, inp);
        CommitIsKnown(g, cfg, d, e, inp);
        end := PerformSays(g, cfg, d, m, plan, inp.now);
        CommittedHeld(g, cfg, d, e, inp);
        ClosingPlans(cfg, d, e, inp);
      } else if plan.Fail? {
        AbortSays(g, m, plan.before, plan.error, inp.now);
        end := ReportOf(g, m, plan.error, inp.now);
        FailureEndsWell(g, m, plan.before, plan.error, inp.now);
      }
    }
  }

  lemma NothingEndsWell(g: PhaseGraph, n: Engine)
    ensures EndsWell(g, n, [])
  {
  }

  lemma {:induction false} GroundworkIsSilent(before: seq<Effect>)
    requires Groundwork(before)
    ensures EventsOf(before) == []
  {
    SilentBefore(before);
  }

  lemma FailureEndsWell(g: PhaseGraph, m: Engine, before: seq<Effect>, err: EngineError, now: Time)
    ensures EndsWell(g, Abort(g, m, before, err, now).next, ReportOf(g, m, err, now))
  {
  }

  lemma CommittedHeld(g: PhaseGraph, cfg: Config, d: Disk, e: Engine, inp: Input)
    requires Commits(cfg, d, e, inp)
    ensures Step(g, cfg, d, e, inp).next.held == Held(e, CommitOf(cfg, d, e, inp))
  {
    hide Step;
    var before, tail := StepShape(g, cfg, d, e, inp);
  }

  /** Performing a save says what the commit says, then possibly reports a failure. */
  lemma PerformSays(g: PhaseGraph, cfg: Config, d: Disk, m: Engine, plan: Plan, now: Time) returns (end: seq<Event>)
    requires plan.Save? && SaveError(d, m.held.revision).None? && EventsOf(plan.before) == []
    requires plan.next.Halt? ==> Aftermath(plan.next.post) && EventsOf(plan.next.post) == []
    requires KnownPhase(g, Saved(m, plan.commit).held.state, plan.commit)
    ensures var o := Perform(g, cfg, d, m, plan, now);
            && EndsWell(g, o.next, end)
            && KnownPhase(g, o.next.held.state, plan.commit)
            && EventsOf(o.out) == Said(g, o.next, plan.commit, now) + end
            && (end != [] ==> plan.next.Reject?)
            && (plan.next.Halt? || (plan.next.Enter? && !o.next.held.state.status.InProgress?) ==> !Running(o.next))
  {
    hide Conclude, Said, Aftermath, EndsWell;
    var e1 := Saved(m, plan.commit);
    EventsOfConcat(plan.before, Written(e1));
    SilentBefore(Written(e1));
    end := ConcludeSays(g, cfg, e1, plan.before + Written(e1), plan.commit, plan.next, now);
    var tail := ConcludeShape(g, cfg, e1, plan.before + Written(e1), plan.commit, plan.next, now);
    SaidIgnoresPc(g, Perform(g, cfg, d, m, plan, now).next, e1, plan.commit, now);
  }

  lemma SaidIgnoresPc(g: PhaseGraph, a: Engine, b: Engine, c: Commit, now: Time)
    requires a.held == b.held && a.tokens == b.tokens && KnownPhase(g, a.held.state, c)
    ensures Said(g, a, c, now) == Said(g, b, c, now)
  {
  }

  lemma {:induction false} CommitIsKnown(g: PhaseGraph, cfg: Config, d: Disk, e: Engine, inp: Input)
    requires ValidGraph(g) && Sound(g, d, e) && Commits(cfg, d, e, inp)
    ensures var c := CommitOf(cfg, d, e, inp);
            && Legal(g, e.held.state, c)
            && KnownPhase(g, ApplyCommit(e.held.state, c), c)
            && (c.Move? ==> Get(g, c.target).Some?)
  {
    hide PlanOf, ValidGraph, WellFormed;
    PlanIsOk(g, cfg, d, e, inp);
    var c := CommitOf(cfg, d, e, inp);
    if c.Move? {
      TargetsExist(g, e.held.state.currentPhase, c.target);
    }
  }

  // ---- A commit is told in full ---------------------------------------------------------------

  /** Where the log stands for an engine that has not reported a failure. */
  function LogOf(e: Engine): LogState { Inside(e.held.state.currentPhase) }

  /** The events of a commit teach exactly the commit, and follow the grammar. */
  lemma {:induction false} CommitIsTold(g: PhaseGraph, st: SessionState, n: Engine, c: Commit, now: Time)
    requires Legal(g, st, c) && n.held.state == ApplyCommit(st, c)
    requires c.Begin? || c.Move? ==> Get(g, n.held.state.currentPhase).Some?
    ensures LearnAll(st, Said(g, n, c, now)) == n.held.state
    ensures var from := if c.Begin? then Start else Inside(st.currentPhase);
            var log := FollowAll(g, from, Said(g, n, c, now));
            if c.Close? || c.Stub? then log.Ended? else log == LogOf(n)
  {
    var said := Said(g, n, c, now);
    var from := if c.Begin? then Start else Inside(st.currentPhase);
    if |said| == 2 {
      assert said == [said[0], said[1]];
      FollowTwo(g, from, said[0], said[1]);
    } else {
      assert said == [said[0]];
      FollowOne(g, from, said[0]);
    }
  }

  /** Where the log may stand after a step. */
  predicate LogFits(e: Engine, log: LogState) {
    log == LogOf(e) || (!Running(e) && log.Ended?)
  }

  lemma {:induction false} EndingFits(g: PhaseGraph, st: SessionState, n: Engine, end: seq<Event>)
    requires EndsWell(g, n, end)
    ensures LearnAll(st, end) == st
    ensures LogFits(n, FollowAll(g, LogOf(n), end))
  {
    if end != [] {
      assert end == [end[0]];
      FollowOne(g, LogOf(n), end[0]);
    }
  }

  lemma {:induction false} StepIsTold(g: PhaseGraph, cfg: Config, d: Disk, e: Engine, inp: Input)
    requires ValidGraph(g) && Sound(g, d, e) && Running(e)
    ensures var o := Step(g, cfg, d, e, inp);
            && LearnAll(e.held.state, EventsOf(o.out)) == o.next.held.state
            && LogFits(o.next, FollowAll(g, LogOf(e), EventsOf(o.out)))
  {
    hide PlanOf, Step, ValidGraph, WellFormed, Said, Legal;
    var o := Step(g, cfg, d, e, inp);
    var end := StepSays(g, cfg, d, e, inp);
    var before, tail := StepShape(g, cfg, d, e, inp);
    if Commits(cfg, d, e, inp) {
      var c := CommitOf(cfg, d, e, inp);
      CommitIsKnown(g, cfg, d, e, inp);
      NeverBeginsAgain(g, e.held.state, c);
      CommitIsTold(g, e.held.state, o.next, c, inp.now);
      var said := Said(g, o.next, c, inp.now);
      LearnConcat(e.held.state, said, end);
      FollowConcat(g, LogOf(e), said, end);
      EndingFits(g, o.next.held.state, o.next, end);
      if c.Close? || c.Stub? { ClosingIsLegal(g, e.held.state, c); }
    } else {
      EndingFits(g, e.held.state, o.next, end);
    }
  }

  lemma NeverBeginsAgain(g: PhaseGraph, st: SessionState, c: Commit)
    requires st.status.InProgress? && Legal(g, st, c)
    ensures !c.Begin?
  {
  }

  lemma ClosingIsLegal(g: PhaseGraph, st: SessionState, c: Commit)
    requires Legal(g, st, c) && (c.Close? || c.Stub?)
    ensures Closing(ApplyCommit(st, c), c)
  {
  }

  // ---- Whole runs -----------------------------------------------------------------------------

  lemma {:induction false} ExecIsTold(g: PhaseGraph, cfg: Config, d: Disk, e: Engine, inputs: seq<Input>)
    requires ValidGraph(g) && Sound(g, d, e) && Running(e)
    ensures var r := Exec(g, cfg, d, e, inputs);
            && LearnAll(e.held.state, EventsOf(r.trace)) == r.engine.held.state
            && LogFits(r.engine, FollowAll(g, LogOf(e), EventsOf(r.trace)))
    decreases |inputs|
  {
    hide Step, ValidGraph, Sound;
    if inputs != [] {
      var o := Step(g, cfg, d, e, inputs[0]);
      var d1 := Apply(d, o.out);
      StepIsTold(g, cfg, d, e, inputs[0]);
      StepKeepsSound(g, cfg, d, e, inputs[0]);
      var rest := Exec(g, cfg, d1, o.next, inputs[1..]);
      EventsOfConcat(o.out, rest.trace);
      LearnConcat(e.held.state, EventsOf(o.out), EventsOf(rest.trace));
      FollowConcat(g, LogOf(e), EventsOf(o.out), EventsOf(rest.trace));
      if Running(o.next) {
        ExecIsTold(g, cfg, d1, o.next, inputs[1..]);
      }
    }
  }

  lemma FreshIsSilent(g: PhaseGraph, d: Disk, req: RunRequest)
    ensures EventsOf(InitialWrites(g, d, req)) == []
  {
    SilentBefore(InitialWrites(g, d, req));
  }

  /** The session as a run finds it: loaded or new, with the start time of a session not yet started. */
  function Found(g: PhaseGraph, d: Disk, req: RunRequest): SessionState {
    Timed(LoadedState(g, d, req), req).state
  }

  lemma {:induction false} StartIsTold(g: PhaseGraph, cfg: Config, e: Engine, out: seq<Effect>, now: Time)
    requires e.held.state.status.Initialized? && Get(g, e.held.state.currentPhase).Some? && EventsOf(out) == []
    ensures var e1 := Saved(e, Begin);
            var o := Conclude(g, cfg, e1, out + Written(e1), Begin, Enter, now);
            && LearnAll(e.held.state, EventsOf(o.out)) == o.next.held.state
            && FollowAll(g, Start, EventsOf(o.out)) == LogOf(o.next)
            && EventsOf(o.out) != []
  {
    hide Said, Conclude, Announce;
    var e1 := Saved(e, Begin);
    EventsOfConcat(out, Written(e1));
    SilentBefore(Written(e1));
    var end := ConcludeSays(g, cfg, e1, out + Written(e1), Begin, Enter, now);
    var tail := ConcludeShape(g, cfg, e1, out + Written(e1), Begin, Enter, now);
    CommitIsTold(g, e.held.state, e1, Begin, now);
    BeginSpeaks(g, e1, now);
    var o := Conclude(g, cfg, e1, out + Written(e1), Begin, Enter, now);
    assert EventsOf(o.out) == Said(g, e1, Begin, now);
  }

  lemma {:induction false} LaunchIsTold(g: PhaseGraph, cfg: Config, d: Disk, s: Stored, out: seq<Effect>,
                                        req: RunRequest)
    requires ValidGraph(g) && WellFormed(g, s.state) && EventsOf(out) == []
    requires d.state == Some(s.state) && ReadRevision(d) == s.revision
    ensures var o := Launch(g, cfg, d, s, out, req);
            && LearnAll(Timed(s, req).state, EventsOf(o.out)) == o.next.held.state
            && (EventsOf(o.out) == [] || LogFits(o.next, FollowAll(g, Start, EventsOf(o.out))))
            && (Running(o.next) ==> EventsOf(o.out) != [])
  {
    hide ValidGraph, Said, EnterPhase, Abort, Announce, IterationOk, ReviewOk, NumberedIterations, NumberedReviews;
    var e := Fresh(Timed(s, req), Finished);
    var st := e.held.state;
    if Terminal(st.status) {
    } else if !req.preflight {
      AbortSays(g, e, out, ConfigurationError, req.now);
      var tail := AbortShape(g, e, out, ConfigurationError, req.now);
      var end := ReportOf(g, e, ConfigurationError, req.now);
      assert end == [end[0]];
      FollowOne(g, Start, end[0]);
    } else if st.status.Initialized? {
      StartIsTold(g, cfg, e, out, req.now);
    } else {
      var p := Get(g, st.currentPhase).value;
      var resumed := RunResumed(st.sessionId, p.phaseId, p.roleId, p.kind, e.held.revision, req.now);
      EventsOfConcat(out, [Emit(resumed)]);
      EventsOfOne(Emit(resumed));
      FollowOne(g, Start, resumed);
      EnterOut(g, e, out + [Emit(resumed)], req.now);
    }
  }

  lemma BeginSpeaks(g: PhaseGraph, e: Engine, now: Time)
    requires KnownPhase(g, e.held.state, Begin)
    ensures Said(g, e, Begin, now) != []
  {
  }

  lemma {:induction false} EnterOut(g: PhaseGraph, e: Engine, out: seq<Effect>, now: Time)
    requires Get(g, e.held.state.currentPhase).Some?
    ensures EnterPhase(g, e, out, now).out == out
    ensures EnterPhase(g, e, out, now).next == e.(pc := EnterPhase(g, e, out, now).next.pc)
  {
  }

  /** Replaying the log of a run over the session it found gives the session it leaves, and the log follows the
      grammar of a run: it opens with a start or a resume, work is committed only in the open phase, every
      transition leaves the open phase along an edge of the graph, and nothing follows the end. */
  lemma {:induction false} RunIsTold(g: PhaseGraph, cfg: Config, d: Disk, req: RunRequest, inputs: seq<Input>)
    requires ValidGraph(g) && DiskOk(g, d) && !Rejected(d, req)
    ensures var r := Session(g, cfg, d, req, inputs);
            && LearnAll(Found(g, d, req), EventsOf(r.trace)) == r.engine.held.state
            && FollowAll(g, Start, EventsOf(r.trace)) != Broken
            && (Running(r.engine) ==> FollowAll(g, Start, EventsOf(r.trace)) == Inside(r.engine.held.state.currentPhase))
  {
    hide Step, ValidGraph, Exec, Boot, Launch, WellFormed;
    var out := InitialWrites(g, d, req);
    var d1 := Apply(d, out);
    BootIsLaunch(g, cfg, d, req);
    InitialWritesLand(g, d, req);
    FreshIsWellFormed(g, req);
    FreshIsSilent(g, d, req);
    LaunchIsTold(g, cfg, d1, LoadedState(g, d, req), out, req);
    BootKeepsSound(g, cfg, d, req);
    var o := Boot(g, cfg, d, req);
    var d2 := Apply(d, o.out);
    var rest := Exec(g, cfg, d2, o.next, inputs);
    EventsOfConcat(o.out, rest.trace);
    LearnConcat(Found(g, d, req), EventsOf(o.out), EventsOf(rest.trace));
    FollowConcat(g, Start, EventsOf(o.out), EventsOf(rest.trace));
    if Running(o.next) {
      ExecIsTold(g, cfg, d2, o.next, inputs);
    } else {
      Stopped(g, cfg, d2, o.next, inputs);
    }
  }

}
