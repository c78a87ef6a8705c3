/** What every saved snapshot satisfies, and what every step keeps. */
module Invariants {
  import opened Wrappers
  import opened Graph
  import opened State
  import opened Events
  import opened Names
  import opened Disk
  import opened Machine

  // ---- Well-formed snapshots ------------------------------------------------------------------

  predicate NumberedIterations(its: seq<IterationEntry>) {
    forall i :: 0 <= i < |its| ==> its[i].iteration == CountIterations(its[..i], its[i].phaseId) + 1
  }

  predicate NumberedReviews(rs: seq<ReviewEntry>) {
    forall i :: 0 <= i < |rs| ==> rs[i].review == CountReviews(rs[..i], rs[i].phaseId) + 1
  }

  /** An iteration belongs to an executor phase, and its stored handoff has the name of its number. */
  predicate IterationOk(g: PhaseGraph, e: IterationEntry) {
    && ValidIteration(e)
    && Get(g, e.phaseId).Some?
    && Get(g, e.phaseId).value.kind.ExecutorKind?
    && (e.handoffRef.Some? ==> e.handoffRef.value == HandoffName(e.phaseId, e.iteration))
  }

  predicate IsHuman(g: PhaseGraph, id: PhaseId) {
    Get(g, id).Some? && Get(g, id).value.human
  }

  /** A review belongs to a review phase; an automated one is decided and its stored decision has the
      name of its number. */
  predicate ReviewOk(g: PhaseGraph, r: ReviewEntry) {
    && ValidReview(r)
    && Get(g, r.phaseId).Some?
    && Get(g, r.phaseId).value.kind.ReviewKind?
    && (!IsHuman(g, r.phaseId) ==> Decided(r) && r.findingsRef == Some(DecisionName(r.phaseId, r.review)))
  }

  /** The feedback rounds of a phase are used up: those of its own limit if it sets one other than 0, and those of
      the run otherwise. */
  predicate RoundsUsedUp(cfg: Config, p: PhaseDefinition, loops: int) {
    match p.maxFeedbackRounds
    case Some(own) => loops >= (if own != 0 then own else cfg.maxFeedbackRounds)
    case None => loops >= cfg.maxFeedbackRounds
  }

  predicate AutomatedChange(g: PhaseGraph, r: ReviewEntry) {
    !IsHuman(g, r.phaseId) && r.decision == Some(RequestChanges)
  }

  /** How many requests for changes the automated reviewers of a session have made. */
  function AutomatedChanges(g: PhaseGraph, rs: seq<ReviewEntry>): nat {
    if rs == [] then 0
    else
      var last := |rs| - 1;
      AutomatedChanges(g, rs[..last]) + if AutomatedChange(g, rs[last]) then 1 else 0
  }

  predicate WellFormed(g: PhaseGraph, st: SessionState) {
    && Loadable(st)
    && Get(g, st.currentPhase).Some?
    && NumberedIterations(st.iterations)
    && NumberedReviews(st.reviews)
    && (forall i :: 0 <= i < |st.iterations| ==> IterationOk(g, st.iterations[i]))
    && (forall i :: 0 <= i < |st.reviews| ==> ReviewOk(g, st.reviews[i]))
    && st.feedbackLoops == AutomatedChanges(g, st.reviews)
  }

  // ---- Legal commits --------------------------------------------------------------------------

  /** What the engine may commit in a given state. */
  predicate Legal(g: PhaseGraph, st: SessionState, c: Commit) {
    && Get(g, st.currentPhase).Some?
    && var p := Get(g, st.currentPhase).value;
    match c
    case Begin => st.status.Initialized?
    case Iterate(entry, _, _) =>
      && st.status.InProgress?
      && p.kind.ExecutorKind?
      && IterationOk(g, entry)
      && entry.phaseId == p.phaseId
      && entry.iteration == CountIterations(st.iterations, p.phaseId) + 1
    case Judge(entry, payload, delta, _, _, _) =>
      && st.status.InProgress?
      && p.kind.ReviewKind? && !p.human
      && ReviewOk(g, entry)
      && ValidPayload(payload)
      && payload.phaseId == p.phaseId
      && entry == VerdictFor(st, p, payload)
      && delta == (if payload.decision.RequestChanges? then 1 else 0)
    case Stub(entry, at) =>
      && st.status.InProgress?
      && p.kind.ReviewKind? && p.human
      && entry == StubFor(st, p, at)
    case Move(source, target) =>
      && st.status.InProgress?
      && source == p.phaseId
      && target in AllTargets(p)
    case Close(status, _) => st.status.InProgress? && Terminal(status)
  }

  lemma CommitKeepsWellFormed(g: PhaseGraph, st: SessionState, c: Commit)
    requires ValidGraph(g) && WellFormed(g, st) && Legal(g, st, c)
    ensures WellFormed(g, ApplyCommit(st, c))
  {
    if c.Iterate? {
      IterateKeepsWellFormed(g, st, c);
    } else if c.Judge? || c.Stub? {
      ReviewKeepsWellFormed(g, st, c);
    } else if c.Move? {
      TargetsExist(g, st.currentPhase, c.target);
      StatusKeepsWellFormed(g, st, ApplyCommit(st, c));
    } else {
      StatusKeepsWellFormed(g, st, ApplyCommit(st, c));
    }
  }

  lemma IterateKeepsWellFormed(g: PhaseGraph, st: SessionState, c: Commit)
    requires WellFormed(g, st) && Legal(g, st, c) && c.Iterate?
    ensures WellFormed(g, ApplyCommit(st, c))
  {
    IterationAppended(g, st, c.iteration);
  }

  lemma ReviewKeepsWellFormed(g: PhaseGraph, st: SessionState, c: Commit)
    requires WellFormed(g, st) && Legal(g, st, c) && (c.Judge? || c.Stub?)
    ensures WellFormed(g, ApplyCommit(st, c))
  {
    ReviewAppended(g, st, if c.Judge? then c.verdict else c.stub);
  }

  /** Only the current phase and the status differ. */
  lemma {:induction false} StatusKeepsWellFormed(g: PhaseGraph, st: SessionState, st': SessionState)
    requires WellFormed(g, st)
    requires st' == st.(currentPhase := st'.currentPhase, status := st'.status, completedAt := st'.completedAt)
    requires Get(g, st'.currentPhase).Some?
    requires st'.completedAt.Some? <==> Terminal(st'.status)
    ensures WellFormed(g, st')
  {
  }

  lemma IterationAppended(g: PhaseGraph, st: SessionState, e: IterationEntry)
    requires WellFormed(g, st) && IterationOk(g, e)
    requires e.iteration == CountIterations(st.iterations, e.phaseId) + 1
    ensures var its := st.iterations + [e];
            && NumberedIterations(its)
            && (forall i :: 0 <= i < |its| ==> IterationOk(g, its[i]))
  {
    var its := st.iterations + [e];
    assert its[..|st.iterations|] == st.iterations;
    assert forall i :: 0 <= i < |st.iterations| ==> its[..i] == st.iterations[..i];
  }

  lemma {:induction false} ReviewAppended(g: PhaseGraph, st: SessionState, r: ReviewEntry)
    requires WellFormed(g, st) && ReviewOk(g, r)
    requires r.review == CountReviews(st.reviews, r.phaseId) + 1
    ensures var rs := st.reviews + [r];
            && NumberedReviews(rs)
            && (forall i :: 0 <= i < |rs| ==> ReviewOk(g, rs[i]))
            && AutomatedChanges(g, rs) == st.feedbackLoops + if AutomatedChange(g, r) then 1 else 0
  {
    hide ReviewOk, IterationOk, Loadable, NumberedIterations;
    var rs := st.reviews + [r];
    assert rs[..|st.reviews|] == st.reviews;
    assert forall i :: 0 <= i < |st.reviews| ==> rs[..i] == st.reviews[..i];
  }

  // ---- Where an engine may stand --------------------------------------------------------------

  /** The local variables of the engine agree with its snapshot. */
  predicate PcOk(g: PhaseGraph, e: Engine) {
    var st := e.held.state;
    match e.pc
    case ExecTop(p, count) =>
      && Get(g, st.currentPhase) == Some(p)
      && p.kind.ExecutorKind?
      && count == CountIterations(st.iterations, p.phaseId)
    case ExecDecide(p, count, score, _) =>
      && Get(g, st.currentPhase) == Some(p)
      && p.kind.ExecutorKind?
      && count == CountIterations(st.iterations, p.phaseId)
      && st.iterations != []
      && st.iterations[|st.iterations| - 1].phaseId == p.phaseId
      && st.iterations[|st.iterations| - 1].confidenceScore == score
    case ReviewTop(p) =>
      && Get(g, st.currentPhase) == Some(p)
      && p.kind.ReviewKind?
    case ReviewDecide(p, decision, next) =>
      && Get(g, st.currentPhase) == Some(p)
      && p.kind.ReviewKind? && !p.human
      && st.reviews != []
      && var last := st.reviews[|st.reviews| - 1];
      && last.phaseId == p.phaseId
      && last.decision == Some(decision)
      && !decision.Pending?
      && (decision.RequestChanges? ==>
            next.Some? && ResolveTarget(p.canRequestChangesFrom, last.targetPhase) == Success(next))
      && (decision.Approve? ==> if next.Some? then next.value in p.onApprove else p.onApprove == [])
    case _ => true
  }

  /** A running engine that is the only writer: it holds what the disk holds. */
  predicate Sound(g: PhaseGraph, d: Disk, e: Engine) {
    && (d.state.Some? ==> WellFormed(g, d.state.value))
    && (Running(e) ==>
          && d.state == Some(e.held.state)
          && ReadRevision(d) == e.held.revision
          && e.held.state.status.InProgress?
          && PcOk(g, e))
  }

  /** Remembering a decision changes nothing else. */
  lemma MarkedSame(e: Engine)
    ensures MarkApplied(e) == e.(applied := MarkApplied(e).applied)
    ensures !e.pc.ReviewTop? ==> MarkApplied(e) == e
  {
    hide HumanDecision;
  }

  // ---- The shape of a step --------------------------------------------------------------------

  lemma {:induction false} SaveLands(d: Disk, before: seq<Effect>, s: Stored, tail: seq<Effect>)
    requires NoSave(before) && NoSave(tail)
    ensures var out := before + [StateWrite(s.state), RevisionWrite(s.revision)] + tail;
            && Apply(d, out).state == Some(s.state)
            && Apply(d, out).revision == Some(s.revision)
            && SavesOf(out) == [s.state]
  {
    var written := [StateWrite(s.state), RevisionWrite(s.revision)];
    ApplyConcat(d, before + written, tail);
    ApplyConcat(d, before, written);
    NoSaveKeepsState(d, before);
    var d1 := Apply(d, before);
    WritesBoth(d1, s);
    NoSaveKeepsState(Apply(d1, written), tail);
    SavesOfConcat(before + written, tail);
    SavesOfConcat(before, written);
    assert SavesOf(written) == [s.state] by {
      assert written[1..] == [written[1]];
      assert written[1..][1..] == [];
      assert SavesOf(written[1..]) == [];
    }
    assert [] + [s.state] + [] == [s.state];
  }

  lemma PlansAreOrdered(cfg: Config, d: Disk, e: Engine, inp: Input)
    requires Running(e)
    ensures var plan := PlanOf(cfg, d, e, inp);
            && (plan.Fail? || plan.Save? ==> Groundwork(plan.before))
            && (plan.Save? && plan.next.Halt? ==> Aftermath(plan.next.post))
  {
    hide PlanIteration, PlanVerdict, Groundwork, Aftermath;
    if e.pc.ExecTop? && inp.execution.Returned? && inp.execution.value.endedAt.Some? {
      var p := e.pc.phase;
      forall asked | Groundwork(asked) {
        IterationIsOrdered(cfg, e, p, e.pc.count, inp, inp.execution.value, asked);
      }
    } else if e.pc.ReviewTop? && inp.review.Returned? && inp.review.value.endedAt.Some? {
      forall asked | Groundwork(asked) {
        VerdictIsOrdered(e, e.pc.phase, inp, inp.review.value, asked);
      }
    }
    AskingIsGroundwork();
  }

  lemma AskingIsGroundwork()
    ensures Groundwork([]) && Aftermath([])
    ensures forall id, st, previous :: Groundwork([AskExecutor(id, st, previous)])
    ensures forall id, st, previous :: Groundwork([AskReviewer(id, st, previous)])
  {
  }

  lemma IterationIsOrdered(cfg: Config, e: Engine, p: PhaseDefinition, count: int, inp: Input, r: ExecutionResult,
                           asked: seq<Effect>)
    requires r.endedAt.Some? && Groundwork(asked)
    ensures var plan := PlanIteration(cfg, e, p, count, inp, r, asked);
            && (plan.Fail? || plan.Save? ==> Groundwork(plan.before))
            && (plan.Save? && plan.next.Halt? ==> Aftermath(plan.next.post))
  {
  }

  lemma VerdictIsOrdered(e: Engine, p: PhaseDefinition, inp: Input, r: ReviewResult, asked: seq<Effect>)
    requires r.endedAt.Some? && Groundwork(asked)
    ensures var plan := PlanVerdict(e, p, inp, r, asked);
            && (plan.Fail? || plan.Save? ==> Groundwork(plan.before))
            && (plan.Save? && plan.next.Halt? ==> Aftermath(plan.next.post))
  {
  }

  /** Does this step commit? */
  predicate Commits(cfg: Config, d: Disk, e: Engine, inp: Input) {
    Running(e) && PlanOf(cfg, d, e, inp).Save? && SaveError(d, e.held.revision).None?
  }

  function CommitOf(cfg: Config, d: Disk, e: Engine, inp: Input): Commit
    requires Commits(cfg, d, e, inp)
  {
    PlanOf(cfg, d, e, inp).commit
  }

  function Held(e: Engine, c: Commit): Stored {
    Stored(ApplyCommit(e.held.state, c), e.held.revision + 1)
  }

  function BeforeOf(plan: Plan): seq<Effect> {
    if plan.Fail? || plan.Save? then plan.before else []
  }

  /** A step that commits writes exactly one snapshot, between its groundwork and its aftermath; any other
      step writes none. */
  lemma StepShape(g: PhaseGraph, cfg: Config, d: Disk, e: Engine, inp: Input)
    returns (before: seq<Effect>, tail: seq<Effect>)
    ensures var o := Step(g, cfg, d, e, inp);
            && Groundwork(before) && Aftermath(tail)
            && before == (if Running(e) then BeforeOf(PlanOf(cfg, d, e, inp)) else [])
            && (Commits(cfg, d, e, inp) ==>
                  && o.next.held == Held(e, CommitOf(cfg, d, e, inp))
                  && o.out == before + Written(o.next) + tail
                  && SavesOf(o.out) == [o.next.held.state]
                  && Apply(d, o.out).state == Some(o.next.held.state)
                  && Apply(d, o.out).revision == Some(o.next.held.revision))
            && (!Commits(cfg, d, e, inp) ==>
                  && o.next.held == e.held
                  && o.out == before + tail
                  && SavesOf(o.out) == []
                  && Apply(d, o.out).state == d.state
                  && Apply(d, o.out).revision == d.revision)
  {
    hide PlanOf, Conclude, Groundwork, Aftermath, Abort;
    var o := Step(g, cfg, d, e, inp);
    AskingIsGroundwork();
    if Running(e) {
      PlansAreOrdered(cfg, d, e, inp);
      var plan, m := PlanOf(cfg, d, e, inp), MarkApplied(e);
      before := BeforeOf(plan);
      if Commits(cfg, d, e, inp) {
        var e1 := Saved(m, plan.commit);
        tail := ConcludeShape(g, cfg, e1, before + Written(e1), plan.commit, plan.next, inp.now);
        OrderedIsNoSave(before, tail);
        SaveLands(d, before, o.next.held, tail);
      } else {
        if plan.Save? {
          tail := AbortShape(g, m, before, SaveError(d, m.held.revision).value, inp.now);
        } else if plan.Fail? {
          tail := AbortShape(g, m, before, plan.error, inp.now);
        } else {
          tail := [];
        }
        OrderedIsNoSave(before, tail);
        NoSaveKeepsState(d, before + tail);
      }
    } else {
      before, tail := [], [];
      assert Apply(d, []) == d;
    }
  }

  lemma OrderedIsNoSave(before: seq<Effect>, tail: seq<Effect>)
    requires Groundwork(before) && Aftermath(tail)
    ensures NoSave(before) && NoSave(tail) && NoSave(before + tail)
  {
  }

  lemma ConcludeShape(g: PhaseGraph, cfg: Config, e: Engine, out: seq<Effect>, c: Commit, after: After, now: Time)
    returns (tail: seq<Effect>)
    requires after.Halt? ==> Aftermath(after.post)
    ensures var o := Conclude(g, cfg, e, out, c, after, now);
            && Aftermath(tail)
            && o.out == out + tail
            && o.next.held == e.held
            && o.next.tokens == e.tokens
            && o.next.applied == e.applied
  {
    hide Abort, Announce, EnterPhase;
    if !KnownPhase(g, e.held.state, c) {
      tail := AbortShape(g, e, out, ConfigurationError, now);
    } else {
      var said := Announce(g, cfg, e, c, now);
      AnnounceIsAftermath(g, cfg, e, c, now);
      match after
      case Enter =>
        var end := EnterShape(g, e, out + said, now);
        tail := said + end;
        assert (out + said) + end == out + tail;
      case At(_) => tail := said;
      case Halt(post) =>
        tail := said + post;
        assert (out + said) + post == out + tail;
      case Reject(err) =>
        var end := AbortShape(g, e, out + said, err, now);
        tail := said + end;
        assert (out + said) + end == out + tail;
    }
  }

  lemma AnnounceIsAftermath(g: PhaseGraph, cfg: Config, e: Engine, c: Commit, now: Time)
    ensures Aftermath(Announce(g, cfg, e, c, now))
  {
  }

  lemma AbortShape(g: PhaseGraph, e: Engine, out: seq<Effect>, err: EngineError, now: Time)
    returns (tail: seq<Effect>)
    ensures var o := Abort(g, e, out, err, now);
            o.out == out + tail && Aftermath(tail) && o.next == e.(pc := o.next.pc) && o.next.pc.Crashed?
  {
    tail := Abort(g, e, [], err, now).out;
    assert out + [] == out;
  }

  lemma EnterShape(g: PhaseGraph, e: Engine, out: seq<Effect>, now: Time)
    returns (tail: seq<Effect>)
    ensures var o := EnterPhase(g, e, out, now);
            o.out == out + tail && Aftermath(tail) && o.next == e.(pc := o.next.pc)
  {
    tail := EnterPhase(g, e, [], now).out;
    assert out + [] == out;
  }

  lemma EnterAfter(g: PhaseGraph, m: Engine, out: seq<Effect>, now: Time)
    ensures EnterPhase(g, m, out, now) == Outcome(EnterPhase(g, m, [], now).next, out)
    ensures EnterPhase(g, m, [], now).out == []
  {
  }

  lemma AbortAfter(g: PhaseGraph, m: Engine, out: seq<Effect>, err: EngineError, now: Time)
    ensures Abort(g, m, out, err, now) == Outcome(Abort(g, m, [], err, now).next, out + Abort(g, m, [], err, now).out)
  {
    assert out + [] == out;
  }

  // ---- Every plan is legal --------------------------------------------------------------------

  /** What a plan owes: a legal commit, and a place to continue that agrees with the new snapshot. */
  predicate PlanOk(g: PhaseGraph, e: Engine, plan: Plan) {
    match plan
    case Fail(_, _) => true
    case Stop => true
    case Stay(pc) => PcOk(g, e.(pc := pc))
    case Save(_, c, after) =>
      && Legal(g, e.held.state, c)
      && (after.At? ==> PcOk(g, Saved(e, c).(pc := after.pc)) && !c.Close?)
  }

  lemma PlanIsOk(g: PhaseGraph, cfg: Config, d: Disk, e: Engine, inp: Input)
    requires Sound(g, d, e) && Running(e)
    ensures PlanOk(g, e, PlanOf(cfg, d, e, inp))
  {
    hide WellFormed, PlanExecTop, PlanReviewTop;
    match e.pc
    case ExecTop(p, count) => ExecTopPlanIsOk(g, cfg, d, e, inp);
    case ExecDecide(p, count, score, chosen) =>
    case ReviewTop(p) => ReviewTopPlanIsOk(g, d, e, inp);
    case ReviewDecide(p, decision, next) =>
  }

  lemma ExecTopPlanIsOk(g: PhaseGraph, cfg: Config, d: Disk, e: Engine, inp: Input)
    requires Sound(g, d, e) && e.pc.ExecTop?
    ensures PlanOk(g, e, PlanExecTop(cfg, d, e, e.pc.phase, e.pc.count, inp))
  {
    hide WellFormed, PlanIteration;
    if inp.execution.Returned? && inp.execution.value.endedAt.Some? {
      forall asked {
        IterationPlanIsOk(g, cfg, d, e, inp, inp.execution.value, asked);
      }
    }
  }

  lemma IterationPlanIsOk(g: PhaseGraph, cfg: Config, d: Disk, e: Engine, inp: Input, r: ExecutionResult,
                          asked: seq<Effect>)
    requires Sound(g, d, e) && e.pc.ExecTop? && r.endedAt.Some?
    ensures PlanOk(g, e, PlanIteration(cfg, e, e.pc.phase, e.pc.count, inp, r, asked))
  {
    hide WellFormed;
    var plan := PlanIteration(cfg, e, e.pc.phase, e.pc.count, inp, r, asked);
    if plan.Save? && plan.commit.Iterate? {
      var its := e.held.state.iterations;
      assert (its + [plan.commit.iteration])[..|its|] == its;
    }
  }

  lemma ReviewTopPlanIsOk(g: PhaseGraph, d: Disk, e: Engine, inp: Input)
    requires Sound(g, d, e) && e.pc.ReviewTop?
    ensures PlanOk(g, e, PlanReviewTop(d, e, e.pc.phase, inp))
  {
    hide WellFormed, PlanVerdict, HumanDecision;
    if inp.review.Returned? && inp.review.value.endedAt.Some? && !e.pc.phase.human {
      forall asked {
        VerdictPlanIsOk(g, d, e, inp, inp.review.value, asked);
      }
    }
  }

  lemma VerdictPlanIsOk(g: PhaseGraph, d: Disk, e: Engine, inp: Input, r: ReviewResult, asked: seq<Effect>)
    requires Sound(g, d, e) && e.pc.ReviewTop? && !e.pc.phase.human && r.endedAt.Some?
    ensures PlanOk(g, e, PlanVerdict(e, e.pc.phase, inp, r, asked))
  {
    hide WellFormed;
    var p, st := e.pc.phase, e.held.state;
    var plan := PlanVerdict(e, p, inp, r, asked);
    if plan.Save? {
      var after := Saved(e, plan.commit).held.state.reviews;
      assert after[|after| - 1] == VerdictFor(st, p, MakePayload(p, r));
    }
  }

  // ---- Every step keeps the invariant ---------------------------------------------------------

  lemma EnterPcOk(g: PhaseGraph, e: Engine, out: seq<Effect>, now: Time)
    requires ValidGraph(g)
    ensures var n := EnterPhase(g, e, out, now).next;
            Running(n) ==> PcOk(g, n) && e.held.state.status.InProgress?
  {
    if Get(g, e.held.state.currentPhase).Some? {
      GetIsValid(g, e.held.state.currentPhase);
    }
  }

  lemma PerformPcOk(g: PhaseGraph, cfg: Config, d: Disk, e: Engine, plan: Plan, now: Time)
    requires ValidGraph(g) && PlanOk(g, e, plan) && e.held.state.status.InProgress?
    ensures var n := Perform(g, cfg, d, e, plan, now).next;
            Running(n) ==> PcOk(g, n) && n.held.state.status.InProgress?
  {
    hide ValidGraph, EnterPhase, Announce, Legal;
    if plan.Save? && SaveError(d, e.held.revision).None? && plan.next.Enter? {
      var e1 := Saved(e, plan.commit);
      var said := plan.before + Written(e1) + Announce(g, cfg, e1, plan.commit, now);
      EnterPcOk(g, e1, said, now);
      var tail := EnterShape(g, e1, said, now);
    }
  }

  lemma MarkingKeepsPlanOk(g: PhaseGraph, e: Engine, plan: Plan)
    requires PlanOk(g, e, plan)
    ensures PlanOk(g, MarkApplied(e), plan)
  {
    hide Legal, HumanDecision;
  }

  predicate SavesOk(g: PhaseGraph, trace: seq<Effect>) {
    forall i :: 0 <= i < |trace| && trace[i].StateWrite? ==> WellFormed(g, trace[i].state)
  }

  lemma OneSaveOk(g: PhaseGraph, before: seq<Effect>, s: Stored, tail: seq<Effect>)
    requires NoSave(before) && NoSave(tail) && WellFormed(g, s.state)
    ensures SavesOk(g, before + [StateWrite(s.state), RevisionWrite(s.revision)] + tail)
  {
  }

  lemma StepPcOk(g: PhaseGraph, cfg: Config, d: Disk, e: Engine, inp: Input)
    requires ValidGraph(g) && Sound(g, d, e)
    ensures var n := Step(g, cfg, d, e, inp).next;
            Running(n) ==> Running(e) && PcOk(g, n) && n.held.state.status.InProgress?
    ensures Running(Step(g, cfg, d, e, inp).next) && !Commits(cfg, d, e, inp) ==> SaveError(d, e.held.revision).None?
    ensures Commits(cfg, d, e, inp) ==> WellFormed(g, Held(e, CommitOf(cfg, d, e, inp)).state)
  {
    hide ValidGraph, PlanOf, Perform, WellFormed, Legal, PcOk;
    if Running(e) {
      var plan := PlanOf(cfg, d, e, inp);
      PlanIsOk(g, cfg, d, e, inp);
      MarkingKeepsPlanOk(g, e, plan);
      PerformPcOk(g, cfg, d, MarkApplied(e), plan, inp.now);
      if Commits(cfg, d, e, inp) {
        CommitKeepsWellFormed(g, e.held.state, plan.commit);
      }
    }
  }

  lemma {:induction false} StepKeepsSound(g: PhaseGraph, cfg: Config, d: Disk, e: Engine, inp: Input)
    requires ValidGraph(g) && Sound(g, d, e)
    ensures var o := Step(g, cfg, d, e, inp);
            Sound(g, Apply(d, o.out), o.next) && SavesOk(g, o.out)
  {
    hide ValidGraph, Step, PlanOf, WellFormed, PcOk;
    var before, tail := StepShape(g, cfg, d, e, inp);
    OrderedIsNoSave(before, tail);
    StepPcOk(g, cfg, d, e, inp);
    if Commits(cfg, d, e, inp) {
      OneSaveOk(g, before, Held(e, CommitOf(cfg, d, e, inp)), tail);
    }
  }
}
