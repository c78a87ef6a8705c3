/** Feedback delivery: what a reviewer asked for reaches the next request built for the phase it named. */
module Feedback {
  import opened Wrappers
  import opened Graph
  import opened State
  import opened Events
  import opened Names
  import opened Disk
  import opened Machine
  import opened Invariants
  import opened Sessions
  import opened Termination
  import opened Crash
  import opened Lineage

  lemma {:induction false} LatestAfterAppend(rs: seq<ReviewEntry>, r: ReviewEntry, id: PhaseId)
    ensures LatestFeedback(rs + [r], id) == if Feeds(r, id) then Some(r) else LatestFeedback(rs, id)
  {
    assert (rs + [r])[..|rs|] == rs;
  }

  /** A request for changes reaches the phase it names with exactly the reviewer's payload; the history of any
      other phase, and of a lone target the reviewer left unnamed, is what it was before. */
  lemma {:induction false} VerdictReachesTheNamedPhase(g: PhaseGraph, cfg: Config, d: Disk, e: Engine, inp: Input,
                                            id: PhaseId)
    requires ValidGraph(g) && ApartIds(g) && Sound(g, d, e) && DiskIntact(g, d)
    requires Judges(cfg, d, e, inp) && inp.review.Returned?
    ensures var o := Step(g, cfg, d, e, inp);
            var d1 := Apply(d, o.out);
            var r := inp.review.value;
            && (r.decision.RequestChanges? && r.targetPhase == Some(id) ==>
                  && HistoryFor(d1, o.next.held.state, id) == Success(Some(CommitOf(cfg, d, e, inp).payload))
                  && e.pc.ReviewTop? && Conveys(CommitOf(cfg, d, e, inp).payload, e.pc.phase, r))
            && (!(r.decision.RequestChanges? && r.targetPhase == Some(id)) && AutomatedFeedback(g, e.held.state, id) ==>
                  HistoryFor(d1, o.next.held.state, id) == HistoryFor(d, e.held.state, id))
  {
    hide Step, PlanOf, ValidGraph, ApartIds, WellFormed, SafeTrace;
    var o, c := Step(g, cfg, d, e, inp), CommitOf(cfg, d, e, inp);
    VerdictOf(cfg, d, e, inp);
    var before, tail := StepShape(g, cfg, d, e, inp);
    CommittedContentIsTheRolesOwn(g, cfg, d, e, inp);
    LatestAfterAppend(e.held.state.reviews, c.verdict, id);
    StepIsSafe(g, cfg, d, e, inp);
    SafeKeeps(g, d, o.out);
    DecisionNameIsReal(g, e, inp);
    var prior := LatestFeedback(e.held.state.reviews, id);
    if prior.Some? && !IsHuman(g, prior.value.phaseId) {
      LatestLoads(g, d, e.held.state, prior.value);
    }
  }

  lemma {:induction false} DecisionNameIsReal(g: PhaseGraph, e: Engine, inp: Input)
    requires ApartIds(g) && e.pc.ReviewTop? && Get(g, e.pc.phase.phaseId).Some?
    ensures DecisionName(e.pc.phase.phaseId, NextReview(e.held.state, e.pc.phase)) != ""
  {
    KnownAreApart(g, e.pc.phase.phaseId, e.pc.phase.phaseId);
    ArtifactNamesInjective(e.pc.phase.phaseId, NextReview(e.held.state, e.pc.phase), e.pc.phase.phaseId, 0);
  }

  /** The feedback shown to a phase, if any, was stored by the engine and not by a human. */
  predicate AutomatedFeedback(g: PhaseGraph, st: SessionState, id: PhaseId) {
    var r := LatestFeedback(st.reviews, id);
    r.Some? ==> !IsHuman(g, r.value.phaseId)
  }

  lemma LatestLoads(g: PhaseGraph, d: Disk, st: SessionState, r: ReviewEntry)
    requires Intact(g, st, d.files) && r in st.reviews && !IsHuman(g, r.phaseId) && r.findingsRef.Some?
    ensures r.findingsRef.value in d.files && DecisionMatches(r, d.files[r.findingsRef.value])
    ensures DecisionRefOf(g, st, r.findingsRef.value)
  {
    var i :| 0 <= i < |st.reviews| && st.reviews[i] == r;
    assert DecisionLoads(g, d.files, st.reviews[i]);
  }

  /** Building a request never fails on stored feedback of the engine, and shows the payload of its entry. */
  lemma {:induction false} RequestsAreBuilt(g: PhaseGraph, d: Disk, id: PhaseId)
    requires d.state.Some? && DiskIntact(g, d) && AutomatedFeedback(g, d.state.value, id)
    ensures HistoryFor(d, d.state.value, id).Success?
    ensures var r := LatestFeedback(d.state.value.reviews, id);
            && (r.None? ==> HistoryFor(d, d.state.value, id).value.None?)
            && (r.Some? ==> HistoryFor(d, d.state.value, id).value.Some? &&
                            DecisionMatches(r.value, DecisionDocument(HistoryFor(d, d.state.value, id).value.value)))
  {
    var r := LatestFeedback(d.state.value.reviews, id);
    if r.Some? {
      LatestLoads(g, d, d.state.value, r.value);
    }
  }

  // ---- Calls of the roles ---------------------------------------------------------------------

  /** An effect that calls a role. */
  predicate IsAsk(x: Effect) { x.AskExecutor? || x.AskReviewer? }

  predicate AsksNothing(trace: seq<Effect>) {
    forall i :: 0 <= i < |trace| ==> !IsAsk(trace[i])
  }

  /** Every call in a sequence is the call of one phase, with its history read from disk. */
  predicate AsksWith(trace: seq<Effect>, d: Disk, st: SessionState, id: PhaseId) {
    forall i :: 0 <= i < |trace| && IsAsk(trace[i]) ==>
      && trace[i].phaseId == id
      && trace[i].session == st
      && HistoryFor(d, st, id) == Success(trace[i].previous)
  }

  lemma PlanAsksWith(cfg: Config, d: Disk, e: Engine, inp: Input)
    requires Running(e)
    ensures AsksWith(BeforeOf(PlanOf(cfg, d, e, inp)), d, e.held.state, e.pc.phase.phaseId)
  {
    hide HumanDecision, HistoryFor, AfterIteration, AsksWith, PlanIteration, PlanVerdict;
    AskingAsksWith();
    var id := e.pc.phase.phaseId;
    if e.pc.ExecTop? && inp.execution.Returned? && inp.execution.value.endedAt.Some? {
      forall asked | AsksWith(asked, d, e.held.state, id) {
        IterationAsksWith(cfg, d, e, inp, inp.execution.value, asked, id);
      }
    } else if e.pc.ReviewTop? && inp.review.Returned? && inp.review.value.endedAt.Some? {
      forall asked | AsksWith(asked, d, e.held.state, id) {
        VerdictAsksWith(d, e, inp, inp.review.value, asked, id);
      }
    }
  }

  lemma AskingAsksWith()
    ensures forall d, st, id :: AsksWith([], d, st, id)
    ensures forall d, st, id, previous :: HistoryFor(d, st, id) == Success(previous) ==>
      AsksWith([AskExecutor(id, st, previous)], d, st, id)
    ensures forall d, st, id, previous :: HistoryFor(d, st, id) == Success(previous) ==>
      AsksWith([AskReviewer(id, st, previous)], d, st, id)
  {
    hide HistoryFor;
  }

  lemma IterationAsksWith(cfg: Config, d: Disk, e: Engine, inp: Input, r: ExecutionResult, asked: seq<Effect>,
                          id: PhaseId)
    requires e.pc.ExecTop? && r.endedAt.Some? && AsksWith(asked, d, e.held.state, id)
    ensures var plan := PlanIteration(cfg, e, e.pc.phase, e.pc.count, inp, r, asked);
            AsksWith(BeforeOf(plan), d, e.held.state, id)
  {
    hide HistoryFor, AfterIteration;
  }

  lemma VerdictAsksWith(d: Disk, e: Engine, inp: Input, r: ReviewResult, asked: seq<Effect>, id: PhaseId)
    requires e.pc.ReviewTop? && r.endedAt.Some? && AsksWith(asked, d, e.held.state, id)
    ensures AsksWith(BeforeOf(PlanVerdict(e, e.pc.phase, inp, r, asked)), d, e.held.state, id)
  {
    hide HistoryFor;
  }

  /** The calls of a step are in its groundwork. */
  lemma StepAsksInBefore(g: PhaseGraph, cfg: Config, d: Disk, e: Engine, inp: Input, x: Effect)
    requires x in Step(g, cfg, d, e, inp).out && IsAsk(x)
    ensures Running(e) && x in BeforeOf(PlanOf(cfg, d, e, inp))
  {
    hide Step, PlanOf;
    var before, tail := StepShape(g, cfg, d, e, inp);
  }

  lemma BootAsksNothing(g: PhaseGraph, cfg: Config, d: Disk, req: RunRequest)
    ensures AsksNothing(Boot(g, cfg, d, req).out)
  {
    hide Boot, Launch;
    BootIsLaunch(g, cfg, d, req);
    if !Rejected(d, req) {
      var out := InitialWrites(g, d, req);
      LaunchAsksNothing(g, cfg, Apply(d, out), LoadedState(g, d, req), out, req);
    }
  }

  lemma LaunchAsksNothing(g: PhaseGraph, cfg: Config, d: Disk, s: Stored, out: seq<Effect>, req: RunRequest)
    requires AsksNothing(out)
    ensures AsksNothing(Launch(g, cfg, d, s, out, req).out)
  {
    hide Conclude, Abort, EnterPhase;
    var e := Fresh(Timed(s, req), Finished);
    var st := e.held.state;
    if Terminal(st.status) {
    } else if !req.preflight {
      var end := AbortShape(g, e, out, ConfigurationError, req.now);
    } else if st.status.Initialized? {
      var err := SaveError(d, e.held.revision);
      if err.Some? {
        var end := AbortShape(g, e, out, err.value, req.now);
      } else {
        var e1 := Saved(e, Begin);
        var end := ConcludeShape(g, cfg, e1, out + Written(e1), Begin, Enter, req.now);
      }
    } else {
      var p := Get(g, st.currentPhase);
      if p.None? {
        var end := AbortShape(g, e, out, ConfigurationError, req.now);
      } else {
        var resumed := RunResumed(st.sessionId, p.value.phaseId, p.value.roleId, p.value.kind, e.held.revision, req.now);
        var end := EnterShape(g, e, out + [Emit(resumed)], req.now);
      }
    }
  }

  // ---- Delivery -------------------------------------------------------------------------------

  /** What a phase must be given when its role is called: a session that has the verdict, and its payload
      unless a later entry names the phase as well. */
  predicate Delivered(x: Effect, id: PhaseId, n: nat, v: ReviewEntry, payload: DecisionPayload) {
    IsAsk(x) && x.phaseId == id ==>
      && n < |x.session.reviews|
      && x.session.reviews[n] == v
      && ((forall i :: n < i < |x.session.reviews| ==> !Feeds(x.session.reviews[i], id)) ==>
            x.previous == Some(payload))
  }

  lemma {:induction false} LatestIs(rs: seq<ReviewEntry>, n: nat, id: PhaseId)
    requires n < |rs| && Feeds(rs[n], id)
    requires forall i :: n < i < |rs| ==> !Feeds(rs[i], id)
    ensures LatestFeedback(rs, id) == Some(rs[n])
    decreases |rs|
  {
    if n < |rs| - 1 {
      LatestIs(rs[..|rs| - 1], n, id);
    }
  }

  lemma StepDelivers(g: PhaseGraph, cfg: Config, d: Disk, e: Engine, inp: Input, x: Effect, id: PhaseId, n: nat,
                     v: ReviewEntry, payload: DecisionPayload)
    requires Sound(g, d, e) && VerdictKept(d, n, v, payload) && Feeds(v, id)
    requires x in Step(g, cfg, d, e, inp).out
    ensures Delivered(x, id, n, v, payload)
  {
    hide Step, PlanOf, WellFormed, PcOk, Feeds;
    if IsAsk(x) && x.phaseId == id {
      StepAsksInBefore(g, cfg, d, e, inp, x);
      PlanAsksWith(cfg, d, e, inp);
      var rs := e.held.state.reviews;
      if forall i :: n < i < |rs| ==> !Feeds(rs[i], id) {
        LatestIs(rs, n, id);
      }
    }
  }

  lemma {:induction false} ExecDelivers(g: PhaseGraph, cfg: Config, d: Disk, e: Engine, inputs: seq<Input>, x: Effect,
                                        id: PhaseId, n: nat, v: ReviewEntry, payload: DecisionPayload)
    requires ValidGraph(g) && ApartIds(g) && Sound(g, d, e) && DiskIntact(g, d)
    requires VerdictKept(d, n, v, payload) && Feeds(v, id) && !IsHuman(g, v.phaseId)
    requires x in Exec(g, cfg, d, e, inputs).trace
    ensures Delivered(x, id, n, v, payload)
    decreases |inputs|
  {
    hide ValidGraph, ApartIds, Sound, DiskIntact, Step, VerdictKept, Delivered, DiskDescends, DiskRef, IsHuman;
    var o := Step(g, cfg, d, e, inputs[0]);
    if x in o.out {
      StepDelivers(g, cfg, d, e, inputs[0], x, id, n, v, payload);
    } else {
      var d1 := Apply(d, o.out);
      StepIsSafe(g, cfg, d, e, inputs[0]);
      StepKeepsSound(g, cfg, d, e, inputs[0]);
      SafeKeeps(g, d, o.out);
      assert RefsKept(g, d, d1);
      VerdictStaysKept(g, d, d1, n, v, payload);
      ExecDelivers(g, cfg, d1, o.next, inputs[1..], x, id, n, v, payload);
    }
  }

  lemma SessionDelivers(g: PhaseGraph, cfg: Config, d: Disk, req: RunRequest, inputs: seq<Input>, x: Effect,
                        id: PhaseId, n: nat, v: ReviewEntry, payload: DecisionPayload)
    requires ValidGraph(g) && ApartIds(g) && DiskOk(g, d) && DiskIntact(g, d)
    requires VerdictKept(d, n, v, payload) && Feeds(v, id) && !IsHuman(g, v.phaseId)
    requires x in Session(g, cfg, d, req, inputs).trace
    ensures Delivered(x, id, n, v, payload)
  {
    hide ValidGraph, ApartIds, Sound, DiskOk, DiskIntact, Boot, Exec, VerdictKept, DiskDescends, DiskRef, IsHuman;
    var o := Boot(g, cfg, d, req);
    if x in o.out {
      BootAsksNothing(g, cfg, d, req);
    } else {
      var d1 := Apply(d, o.out);
      BootKeepsSound(g, cfg, d, req);
      BootIsSafe(g, cfg, d, req);
      SafeKeeps(g, d, o.out);
      assert RefsKept(g, d, d1);
      VerdictStaysKept(g, d, d1, n, v, payload);
      ExecDelivers(g, cfg, d1, o.next, inputs, x, id, n, v, payload);
    }
  }

  /** Everything the later runs of a session do, each up to the effect it is cut off after. */
  function LifeTrace(g: PhaseGraph, d: Disk, deeds: seq<Deed>): seq<Effect>
    decreases |deeds|
  {
    if deeds == [] then []
    else
      (if deeds[0].RunDeed? then Surviving(g, d, deeds[0]) else []) + LifeTrace(g, Live(g, d, deeds[0]), deeds[1..])
  }

  lemma {:induction false} LifeDelivers(g: PhaseGraph, d: Disk, deeds: seq<Deed>, x: Effect, id: PhaseId, n: nat,
                                        v: ReviewEntry, payload: DecisionPayload)
    requires ValidGraph(g) && ApartIds(g) && DiskOk(g, d) && DiskIntact(g, d)
    requires VerdictKept(d, n, v, payload) && Feeds(v, id) && !IsHuman(g, v.phaseId)
    requires x in LifeTrace(g, d, deeds)
    ensures Delivered(x, id, n, v, payload)
    decreases |deeds|
  {
    hide ValidGraph, ApartIds, DiskOk, DiskIntact, Live, Session, VerdictKept, Delivered, DiskDescends, DiskRef, IsHuman;
    var deed := deeds[0];
    if deed.RunDeed? && x in Surviving(g, d, deed) {
      SessionDelivers(g, deed.cfg, d, deed.req, deed.inputs, x, id, n, v, payload);
    } else {
      var d1 := Live(g, d, deed);
      LiveKeepsOk(g, d, deed);
      DeedKeepsArtifacts(g, d, deed);
      assert RefsKept(g, d, d1);
      VerdictStaysKept(g, d, d1, n, v, payload);
      LifeDelivers(g, d1, deeds[1..], x, id, n, v, payload);
    }
  }

  /** A request for changes that an automated reviewer addresses to a phase. */
  predicate Requests(cfg: Config, d: Disk, e: Engine, inp: Input, id: PhaseId) {
    && Judges(cfg, d, e, inp)
    && inp.review.Returned?
    && inp.review.value.decision.RequestChanges?
    && inp.review.value.targetPhase == Some(id)
  }

  lemma RequestFeeds(g: PhaseGraph, cfg: Config, d: Disk, e: Engine, inp: Input, id: PhaseId)
    requires ApartIds(g) && Sound(g, d, e) && Requests(cfg, d, e, inp, id)
    ensures var v := CommitOf(cfg, d, e, inp).verdict; Feeds(v, id) && Decided(v) && !IsHuman(g, v.phaseId)
  {
    hide PlanOf, WellFormed, PcOk, ApartIds;
    VerdictOf(cfg, d, e, inp);
    CommittedVerdictIsDecided(g, cfg, d, e, inp);
    assert Get(g, e.pc.phase.phaseId).Some? by { CommittedPhaseIsKnown(g, cfg, d, e, inp); }
    DecisionNameIsReal(g, e, inp);
  }

  lemma {:induction false} CommittedPhaseIsKnown(g: PhaseGraph, cfg: Config, d: Disk, e: Engine, inp: Input)
    requires Sound(g, d, e) && Running(e)
    ensures Get(g, e.pc.phase.phaseId).Some?
  {
    hide WellFormed;
    GetFinds(g, e.held.state.currentPhase);
  }

  /** Feedback is delivered. Let a step commit an automated request for changes that names a phase. Let its run
      go on with any inputs and be cut off after any effect once the state file is written, and let the session
      live on through any runs, crashes, resumes and human decisions. In all of it, whenever the role of the
      named phase is called, the request is in the session the role is shown, and as long as no newer entry
      names the phase the role is given exactly that reviewer's payload. */
  lemma {:induction false} FeedbackIsDelivered(g: PhaseGraph, cfg: Config, d: Disk, e: Engine, inp: Input, id: PhaseId,
                            inputs: seq<Input>, cut: nat, deeds: seq<Deed>, x: Effect)
    requires ValidGraph(g) && ApartIds(g) && Sound(g, d, e) && DiskIntact(g, d)
    requires Requests(cfg, d, e, inp, id) && PastTheSave(g, cfg, d, e, inp, inputs, cut)
    requires var full := TraceFrom(g, cfg, d, e, inp, inputs);
             x in full[|BeforeOf(PlanOf(cfg, d, e, inp))|..cut] + LifeTrace(g, Apply(d, full[..cut]), deeds)
    ensures var c := CommitOf(cfg, d, e, inp);
            && Delivered(x, id, |e.held.state.reviews|, c.verdict, c.payload)
            && e.pc.ReviewTop? && inp.review.value.endedAt.Some?
            && Conveys(c.payload, e.pc.phase, inp.review.value)
  {
    hide ValidGraph, ApartIds, Sound, DiskIntact, DiskOk, Exec, Step, PlanOf, VerdictKept, Delivered, LifeTrace, IsHuman, Conveys;
    var full, before := TraceFrom(g, cfg, d, e, inp, inputs), BeforeOf(PlanOf(cfg, d, e, inp));
    var c, n := CommitOf(cfg, d, e, inp), |e.held.state.reviews|;
    RequestFeeds(g, cfg, d, e, inp, id);
    VerdictOf(cfg, d, e, inp);
    if x in full[|before|..cut] {
      RestDelivers(g, cfg, d, e, inp, id, inputs, x);
    } else {
      CommitSurvivesTheRun(g, cfg, d, e, inp, inputs, cut);
      LifeDelivers(g, Apply(d, full[..cut]), deeds, x, id, n, c.verdict, c.payload);
    }
  }

  /** The rest of the run itself. */
  lemma RestDelivers(g: PhaseGraph, cfg: Config, d: Disk, e: Engine, inp: Input, id: PhaseId, inputs: seq<Input>,
                     x: Effect)
    requires ValidGraph(g) && ApartIds(g) && Sound(g, d, e) && DiskIntact(g, d)
    requires Requests(cfg, d, e, inp, id)
    requires var before := BeforeOf(PlanOf(cfg, d, e, inp));
             var full := TraceFrom(g, cfg, d, e, inp, inputs);
             |before| <= |full| && x in full[|before|..]
    ensures var c := CommitOf(cfg, d, e, inp); Delivered(x, id, |e.held.state.reviews|, c.verdict, c.payload)
  {
    hide ValidGraph, ApartIds, Sound, DiskIntact, Exec, Step, PlanOf, VerdictKept, IsHuman, Groundwork, Feeds;
    var c, n := CommitOf(cfg, d, e, inp), |e.held.state.reviews|;
    var o := Step(g, cfg, d, e, inp);
    var d1 := Apply(d, o.out);
    var before, tail := StepShape(g, cfg, d, e, inp);
    TraceSplits(g, cfg, d, e, inp, inputs);
    var rest := Exec(g, cfg, d1, o.next, inputs).trace;
    assert TraceFrom(g, cfg, d, e, inp, inputs)[|before|..] == Written(o.next) + tail + rest;
    if x in rest {
      RequestFeeds(g, cfg, d, e, inp, id);
      assert d1 == Apply(d, TraceFrom(g, cfg, d, e, inp, inputs)[..|o.out|]) by {
        assert TraceFrom(g, cfg, d, e, inp, inputs)[..|o.out|] == o.out;
      }
      CommitSurvivesTheRun(g, cfg, d, e, inp, inputs, |o.out|);
      StepKeepsSound(g, cfg, d, e, inp);
      ExecDelivers(g, cfg, d1, o.next, inputs, x, id, n, c.verdict, c.payload);
    }
  }

  /** A step that calls a role: an executor that is not stopped, or a reviewer. */
  predicate Asks(e: Engine, inp: Input) {
    || (e.pc.ExecTop? && inp.signal.Continue?)
    || (e.pc.ReviewTop? && !e.pc.phase.human && HumanDecision(e, e.pc.phase).None?)
  }

  function Asking(e: Engine, id: PhaseId, previous: Option<DecisionPayload>): Effect {
    if e.pc.ExecTop? then AskExecutor(id, e.held.state, previous) else AskReviewer(id, e.held.state, previous)
  }

  /** A role call comes first in its step, and carries the history of the phase. */
  lemma StepAsks(g: PhaseGraph, cfg: Config, d: Disk, e: Engine, inp: Input, previous: Option<DecisionPayload>)
    requires Asks(e, inp) && HistoryFor(d, e.held.state, e.pc.phase.phaseId) == Success(previous)
    ensures var out := Step(g, cfg, d, e, inp).out;
            out != [] && out[0] == Asking(e, e.pc.phase.phaseId, previous)
  {
    hide Step, AfterIteration, HistoryFor, HumanDecision;
    StepStartsWithPlan(g, cfg, d, e, inp);
  }

  lemma StepStartsWithPlan(g: PhaseGraph, cfg: Config, d: Disk, e: Engine, inp: Input)
    requires Running(e) && BeforeOf(PlanOf(cfg, d, e, inp)) != []
    ensures var out := Step(g, cfg, d, e, inp).out;
            out != [] && out[0] == BeforeOf(PlanOf(cfg, d, e, inp))[0]
  {
    hide Step, PlanOf;
    var before, tail := StepShape(g, cfg, d, e, inp);
  }

  /** A loop-back goes to the phase the committed verdict names. */
  lemma LoopBackGoesToTheNamedPhase(g: PhaseGraph, cfg: Config, d: Disk, e: Engine, inp: Input)
    requires Sound(g, d, e) && e.pc.ReviewDecide? && e.pc.decision.RequestChanges?
    requires Running(Step(g, cfg, d, e, inp).next)
    ensures var last := e.held.state.reviews[|e.held.state.reviews| - 1];
            && Step(g, cfg, d, e, inp).next.held.state.currentPhase in e.pc.phase.canRequestChangesFrom
            && (last.targetPhase.Some? ==> Step(g, cfg, d, e, inp).next.held.state.currentPhase == last.targetPhase.value)
  {
    hide Step, WellFormed;
    StepShapeOnward(g, cfg, d, e, inp);
  }

  // ---- The loop-back in the same run ----------------------------------------------------------

  /** The step after a request for changes below the cap, with no signal pending. */
  lemma LoopBackMoves(g: PhaseGraph, cfg: Config, d: Disk, e: Engine, go: Input, id: PhaseId)
    requires ValidGraph(g) && Sound(g, d, e) && e.pc.ReviewDecide? && e.pc.next == Some(id)
    requires go.signal.Continue? && e.pc.decision.RequestChanges?
    requires !RoundsUsedUp(cfg, e.pc.phase, e.held.state.feedbackLoops)
    ensures var n := Step(g, cfg, d, e, go).next;
            && (n.pc.ExecTop? || n.pc.ReviewTop?) && n.pc.phase.phaseId == id
            && n.held.state == e.held.state.(currentPhase := id)
            && n.applied == e.applied
  {
    hide WellFormed, ValidGraph, Announce;
    TargetsExist(g, e.held.state.currentPhase, id);
    GetIsValid(g, id);
    GetFinds(g, id);
  }

  lemma RequestLeadsBack(g: PhaseGraph, cfg: Config, d: Disk, e: Engine, inp: Input, id: PhaseId)
    requires Requests(cfg, d, e, inp, id)
    ensures var n := Step(g, cfg, d, e, inp).next;
            n.pc == ReviewDecide(e.pc.phase, RequestChanges, Some(id)) && n.applied == e.applied
  {
    hide HumanDecision, HistoryFor, Announce;
    VerdictOf(cfg, d, e, inp);
  }

  /** Below the cap and without a signal, the run that commits the request goes straight back to the phase it
      names, and the first thing it does there is to call its role with exactly that payload; a human phase
      has no role to call. */
  lemma {:induction false} LoopBackIsShown(g: PhaseGraph, cfg: Config, d: Disk, e: Engine, inp: Input, id: PhaseId,
                                           go: Input, call: Input)
    requires ValidGraph(g) && ApartIds(g) && Sound(g, d, e) && DiskIntact(g, d)
    requires Requests(cfg, d, e, inp, id) && !IsHuman(g, id)
    requires go.signal.Continue? && call.signal.Continue?
    requires var n := Step(g, cfg, d, e, inp).next.held.state;
             Running(e) && !RoundsUsedUp(cfg, e.pc.phase, n.feedbackLoops)
    ensures var r := Exec(g, cfg, d, e, [inp, go]);
            var out := Step(g, cfg, r.disk, r.engine, call).out;
            && r.engine.held.state.currentPhase == id
            && out != [] && out[0] == Asking(r.engine, id, Some(CommitOf(cfg, d, e, inp).payload))
            && e.pc.ReviewTop? && inp.review.Returned?
            && Conveys(CommitOf(cfg, d, e, inp).payload, e.pc.phase, inp.review.value)
  {
    hide Step, PlanOf, ValidGraph, ApartIds, WellFormed, DiskIntact, VerdictKept, HumanDecision, Asks, Asking, IsHuman,
      Conveys;
    VerdictOf(cfg, d, e, inp);
    var c := CommitOf(cfg, d, e, inp);
    var o := Step(g, cfg, d, e, inp);
    var d1 := Apply(d, o.out);
    assert [inp, go][1..] == [go] && [go][1..] == [];
    RequestLeadsBack(g, cfg, d, e, inp, id);
    StepKeepsSound(g, cfg, d, e, inp);
    LoopBackMoves(g, cfg, d1, o.next, go, id);
    var m := Step(g, cfg, d1, o.next, go);
    var d2 := Apply(d1, m.out);
    StepKeepsSound(g, cfg, d1, o.next, go);
    assert Exec(g, cfg, d2, m.next, []) == Run(d2, m.next, []);
    assert Exec(g, cfg, d1, o.next, [go]).engine == m.next && Exec(g, cfg, d1, o.next, [go]).disk == d2;
    ShownOnArrival(g, cfg, d, e, inp, id, go);
    AutomatedAsks(g, d2, m.next, call);
    StepAsks(g, cfg, d2, m.next, call, Some(c.payload));
  }

  lemma AutomatedAsks(g: PhaseGraph, d: Disk, e: Engine, call: Input)
    requires Sound(g, d, e) && (e.pc.ExecTop? || e.pc.ReviewTop?) && !IsHuman(g, e.pc.phase.phaseId)
    requires call.signal.Continue?
    ensures Asks(e, call)
  {
    hide HumanDecision;
    GetFinds(g, e.held.state.currentPhase);
    if e.pc.ReviewTop? {
      DecisionHasNewestNumber(e, e.pc.phase);
    }
  }

  lemma {:induction false} ShownOnArrival(g: PhaseGraph, cfg: Config, d: Disk, e: Engine, inp: Input, id: PhaseId,
                                          go: Input)
    requires ValidGraph(g) && ApartIds(g) && Sound(g, d, e) && DiskIntact(g, d)
    requires Requests(cfg, d, e, inp, id)
    requires var o := Step(g, cfg, d, e, inp);
             Step(g, cfg, Apply(d, o.out), o.next, go).next.held.state == o.next.held.state.(currentPhase := id)
    ensures var o := Step(g, cfg, d, e, inp);
            var d1 := Apply(d, o.out);
            var m := Step(g, cfg, d1, o.next, go);
            HistoryFor(Apply(d1, m.out), m.next.held.state, id) == Success(Some(CommitOf(cfg, d, e, inp).payload))
  {
    hide ValidGraph, ApartIds, Sound, DiskIntact, Exec, Step, PlanOf, IsHuman, Feeds, Groundwork;
    var c, n := CommitOf(cfg, d, e, inp), |e.held.state.reviews|;
    var o := Step(g, cfg, d, e, inp);
    var before, tail := StepShape(g, cfg, d, e, inp);
    RequestFeeds(g, cfg, d, e, inp, id);
    TraceSplits(g, cfg, d, e, inp, []);
    var d1 := Apply(d, o.out);
    assert TraceFrom(g, cfg, d, e, inp, [])[..|o.out|] == o.out;
    CommitSurvivesTheRun(g, cfg, d, e, inp, [], |o.out|);
    StepKeepsSound(g, cfg, d, e, inp);
    StepIsSafe(g, cfg, d1, o.next, go);
    var d2 := Apply(d1, Step(g, cfg, d1, o.next, go).out);
    SafeKeeps(g, d1, Step(g, cfg, d1, o.next, go).out);
    assert RefsKept(g, d1, d2);
    VerdictStaysKept(g, d1, d2, n, c.verdict, c.payload);
    assert o.next.held.state.reviews == e.held.state.reviews + [c.verdict];
    LatestIs(o.next.held.state.reviews, n, id);
  }
}
