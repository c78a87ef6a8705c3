/** Pause and resume at the loop top of an executor phase: invisible to the stored session, exactly as long as
    the run does not come back to a human decision it had already applied. */
module Pause {
  import opened Wrappers
  import opened Graph
  import opened State
  import opened Events
  import opened Disk
  import opened Machine
  import opened Invariants
  import opened Sessions
  import opened Termination
  import opened Reach

  /** The same engine with another memory of applied decisions and token counts: all that a resume forgets. */
  function Recall(e: Engine, applied: set<(PhaseId, int)>, tokens: TokenUsage): Engine {
    e.(applied := applied, tokens := tokens)
  }

  function GateKey(e: Engine, p: PhaseDefinition): (PhaseId, int) {
    (p.phaseId, CountReviews(e.held.state.reviews, p.phaseId) as int)
  }

  /** A human phase that holds a decision this run has already applied. */
  predicate Spent(e: Engine, p: PhaseDefinition, before: set<(PhaseId, int)>) {
    && p.human
    && CountReviews(e.held.state.reviews, p.phaseId) > 0
    && GateKey(e, p) in before
    && FindDecided(e.held.state.reviews, p.phaseId, CountReviews(e.held.state.reviews, p.phaseId)).Some?
  }

  predicate AtSpentGate(e: Engine, before: set<(PhaseId, int)>) {
    e.pc.ReviewTop? && Spent(e, e.pc.phase, before)
  }

  /** Does a run step, somewhere, from a human phase whose decision is among `before`? */
  predicate MeetsSpentGate(g: PhaseGraph, cfg: Config, d: Disk, e: Engine, inputs: seq<Input>, before: set<(PhaseId, int)>)
    decreases |inputs|
  {
    inputs != [] && Running(e) &&
    (AtSpentGate(e, before) ||
     var o := Step(g, cfg, d, e, inputs[0]);
     MeetsSpentGate(g, cfg, Apply(d, o.out), o.next, inputs[1..], before))
  }

  // ---- Stopping and starting again ------------------------------------------------------------

  /** A pause at the loop top writes nothing, and a later run comes back to the same place with the iteration
      count recomputed from the state equal to the one the paused run had. */
  lemma {:induction false} PauseResumes(g: PhaseGraph, cfg: Config, d: Disk, e: Engine, inp: Input, req: RunRequest)
    requires Sound(g, d, e) && e.pc.ExecTop? && inp.signal.Pause?
    requires req.sessionId == e.held.state.sessionId && req.preflight
    ensures var o := Step(g, cfg, d, e, inp);
            var b := Boot(g, cfg, Apply(d, o.out), req);
            && o.out == [] && o.next.pc.Paused?
            && SavesOf(b.out) == []
            && Apply(d, b.out) == d
            && b.next == Recall(e, {}, NO_TOKENS)
  {
    hide IterationOk, ReviewOk, NumberedIterations, NumberedReviews, AutomatedChanges;
    assert Apply(d, []) == d;
    var st := e.held.state;
    var p := Get(g, st.currentPhase).value;
    var resumed := Emit(RunResumed(st.sessionId, p.phaseId, p.roleId, p.kind, e.held.revision, req.now));
    assert [resumed][1..] == [];
    assert Apply(d, [resumed]) == Apply(ApplyEffect(d, resumed), []);
    assert SavesOf([resumed]) == SavesOf([]);
    assert [] + [resumed] == [resumed];
  }

  // ---- Steps that do not notice ---------------------------------------------------------------

  /** Away from spent gates a resumed engine plans the same. */
  lemma SamePlan(cfg: Config, d: Disk, e: Engine, inp: Input, before: set<(PhaseId, int)>, f: Engine)
    requires NumberedReviews(e.held.state.reviews) && Running(e) && !AtSpentGate(e, before)
    requires f == Recall(e, f.applied, f.tokens) && e.applied == before + f.applied
    ensures PlanOf(cfg, d, f, inp) == PlanOf(cfg, d, e, inp)
    ensures MarkApplied(f).applied + before == MarkApplied(e).applied
    ensures MarkApplied(f) == Recall(MarkApplied(e), MarkApplied(f).applied, f.tokens)
  {
    hide HistoryFor, AfterIteration, ValidPayload, ResolveReview, NumberedReviews;
    if e.pc.ReviewTop? {
      SameDecision(e, e.pc.phase, before, f);
    }
  }

  lemma SameDecision(e: Engine, p: PhaseDefinition, before: set<(PhaseId, int)>, f: Engine)
    requires NumberedReviews(e.held.state.reviews) && !Spent(e, p, before)
    requires f == Recall(e, f.applied, f.tokens) && e.applied == before + f.applied
    ensures HumanDecision(f, p) == HumanDecision(e, p)
  {
    DecisionHasNewestNumber(e, p);
  }

  /** The same effects up to the contents of events. */
  predicate Alike(a: seq<Effect>, b: seq<Effect>) {
    |a| == |b| && forall i :: 0 <= i < |a| ==> a[i] == b[i] || (a[i].Emit? && b[i].Emit?)
  }

  lemma AbortAlike(g: PhaseGraph, e: Engine, f: Engine, out: seq<Effect>, err: EngineError, now: Time)
    requires f == Recall(e, f.applied, f.tokens)
    ensures Alike(Abort(g, e, out, err, now).out, Abort(g, f, out, err, now).out)
    ensures Abort(g, f, out, err, now).next == Recall(Abort(g, e, out, err, now).next, f.applied, f.tokens)
    ensures Abort(g, e, out, err, now).next.applied == e.applied
  {
  }

  lemma ConcludeAlike(g: PhaseGraph, cfg: Config, e: Engine, f: Engine, out: seq<Effect>, c: Commit, after: After, now: Time)
    requires f == Recall(e, f.applied, f.tokens)
    ensures var o, q := Conclude(g, cfg, e, out, c, after, now), Conclude(g, cfg, f, out, c, after, now);
            && Alike(o.out, q.out)
            && q.next == Recall(o.next, f.applied, f.tokens)
            && o.next.applied == e.applied
  {
    hide Announce;
    AnnounceAlike(g, cfg, e, f, c, now);
  }

  lemma AnnounceAlike(g: PhaseGraph, cfg: Config, e: Engine, f: Engine, c: Commit, now: Time)
    requires f == Recall(e, f.applied, f.tokens)
    ensures Alike(Announce(g, cfg, e, c, now), Announce(g, cfg, f, c, now))
    ensures !c.Close? ==> Announce(g, cfg, e, c, now) == Announce(g, cfg, f, c, now)
  {
  }

  /** The same saves, from engines that differ in memory only. */
  lemma SameSaves(g: PhaseGraph, cfg: Config, d: Disk, e: Engine, f: Engine, plan: Plan, now: Time)
    requires f == Recall(e, f.applied, f.tokens)
    ensures var o, q := Perform(g, cfg, d, e, plan, now), Perform(g, cfg, d, f, plan, now);
            && q.next == Recall(o.next, f.applied, q.next.tokens)
            && o.next.applied == e.applied
            && Alike(o.out, q.out)
  {
    hide Abort, Conclude, Alike;
    NothingAlike();
    match plan
    case Fail(before, err) => AbortAlike(g, e, f, before, err, now);
    case Stop =>
    case Stay(_) =>
    case Save(before, c, after) =>
      var err := SaveError(d, e.held.revision);
      if err.Some? {
        AbortAlike(g, e, f, before, err.value, now);
      } else {
        ConcludeAlike(g, cfg, Saved(e, c), Saved(f, c), before + Written(Saved(e, c)), c, after, now);
      }
  }

  lemma NothingAlike()
    ensures Alike([], [])
  {
  }

  lemma {:induction false} SameButEvents(d: Disk, a: seq<Effect>, b: seq<Effect>)
    requires Alike(a, b)
    ensures SavesOf(a) == SavesOf(b) && Apply(d, a) == Apply(d, b)
    decreases |a|
  {
    if a != [] {
      SameButEvents(ApplyEffect(d, a[0]), a[1..], b[1..]);
    }
  }

  lemma {:induction false} SameStep(g: PhaseGraph, cfg: Config, d: Disk, e: Engine, f: Engine, inp: Input,
                                    before: set<(PhaseId, int)>)
    requires NumberedReviews(e.held.state.reviews) && Running(e) && !AtSpentGate(e, before)
    requires f == Recall(e, f.applied, f.tokens) && e.applied == before + f.applied
    ensures var o, q := Step(g, cfg, d, e, inp), Step(g, cfg, d, f, inp);
            && q.next == Recall(o.next, q.next.applied, q.next.tokens)
            && o.next.applied == before + q.next.applied
            && SavesOf(q.out) == SavesOf(o.out)
            && Apply(d, q.out) == Apply(d, o.out)
  {
    hide PlanOf, Perform, MarkApplied, AtSpentGate, NumberedReviews;
    SamePlan(cfg, d, e, inp, before, f);
    var plan := PlanOf(cfg, d, e, inp);
    SameSaves(g, cfg, d, MarkApplied(e), MarkApplied(f), plan, inp.now);
    SameButEvents(d, Perform(g, cfg, d, MarkApplied(e), plan, inp.now).out,
                  Perform(g, cfg, d, MarkApplied(f), plan, inp.now).out);
  }

  // ---- Steps that do --------------------------------------------------------------------------

  /** At a spent gate the run that remembers writes a new stub and stops; the run that was resumed applies the
      old decision once more. */
  lemma {:induction false} SpentGateDiffers(g: PhaseGraph, cfg: Config, d: Disk, e: Engine, f: Engine, inp: Input,
                                            rest: seq<Input>, before: set<(PhaseId, int)>)
    requires ValidGraph(g) && Sound(g, d, e) && AtSpentGate(e, before)
    requires f == Recall(e, f.applied, f.tokens) && before <= e.applied && GateKey(e, e.pc.phase) !in f.applied
    ensures var stub := e.held.state.(reviews := e.held.state.reviews + [StubFor(e.held.state, e.pc.phase, inp.now)]);
            && SavesOf(Exec(g, cfg, d, e, [inp] + rest).trace) == [stub]
            && SavesOf(Exec(g, cfg, d, f, [inp] + rest).trace) != [stub]
  {
    hide WellFormed, ValidGraph, Exec, SavesOf, StubFor, Loadable;
    HeldIsNumbered(g, e);
    DecisionHasNewestNumber(e, e.pc.phase);
    DecisionHasNewestNumber(f, e.pc.phase);
    RememberingStops(g, cfg, d, e, inp, rest);
    ResumedGoesOn(g, cfg, d, f, inp, rest);
  }

  lemma {:induction false} RememberingStops(g: PhaseGraph, cfg: Config, d: Disk, e: Engine, inp: Input,
                                            rest: seq<Input>)
    requires e.pc.ReviewTop? && e.pc.phase.human && HumanDecision(e, e.pc.phase).None?
    requires SaveError(d, e.held.revision).None?
    ensures var stub := e.held.state.(reviews := e.held.state.reviews + [StubFor(e.held.state, e.pc.phase, inp.now)]);
            SavesOf(Exec(g, cfg, d, e, [inp] + rest).trace) == [stub]
  {
    hide Step, Exec, HumanDecision;
    var inputs := [inp] + rest;
    assert inputs[1..] == rest;
    StubStops(g, cfg, d, e, inp);
    FirstStep(g, cfg, d, e, inputs);
    var o := Step(g, cfg, d, e, inp);
    var b, t := StepShape(g, cfg, d, e, inp);
    Stopped(g, cfg, Apply(d, o.out), o.next, rest);
    assert o.out + [] == o.out;
  }

  lemma {:induction false} ResumedGoesOn(g: PhaseGraph, cfg: Config, d: Disk, f: Engine, inp: Input, rest: seq<Input>)
    requires f.pc.ReviewTop? && HumanDecision(f, f.pc.phase).Some?
    ensures var saves := SavesOf(Exec(g, cfg, d, f, [inp] + rest).trace);
            saves == [] || saves[0].reviews == f.held.state.reviews
  {
    hide Step, Exec, HumanDecision;
    var inputs := [inp] + rest;
    assert inputs[1..] == rest;
    FirstStep(g, cfg, d, f, inputs);
    var q := Step(g, cfg, d, f, inp);
    var b, t := StepShape(g, cfg, d, f, inp);
    Stopped(g, cfg, Apply(d, q.out), q.next, rest);
    SavesOfConcat(q.out, Exec(g, cfg, Apply(d, q.out), q.next, rest).trace);
    AppliesAgain(g, cfg, d, f, inp);
  }

  lemma {:induction false} FirstStep(g: PhaseGraph, cfg: Config, d: Disk, e: Engine, inputs: seq<Input>)
    requires inputs != [] && Running(e)
    ensures var o := Step(g, cfg, d, e, inputs[0]);
            Exec(g, cfg, d, e, inputs).trace == o.out + Exec(g, cfg, Apply(d, o.out), o.next, inputs[1..]).trace
  {
    hide Step;
  }

  lemma StubStops(g: PhaseGraph, cfg: Config, d: Disk, e: Engine, inp: Input)
    requires e.pc.ReviewTop? && e.pc.phase.human && HumanDecision(e, e.pc.phase).None?
    requires SaveError(d, e.held.revision).None?
    ensures Commits(cfg, d, e, inp)
    ensures CommitOf(cfg, d, e, inp) == Stub(StubFor(e.held.state, e.pc.phase, inp.now), inp.now)
    ensures Step(g, cfg, d, e, inp).next.pc.Paused?
  {
    hide HumanDecision;
  }

  /** A waiting decision adds no review: it moves, completes or is refused. */
  lemma AppliesAgain(g: PhaseGraph, cfg: Config, d: Disk, f: Engine, inp: Input)
    requires f.pc.ReviewTop? && HumanDecision(f, f.pc.phase).Some?
    ensures Commits(cfg, d, f, inp) ==> ApplyCommit(f.held.state, CommitOf(cfg, d, f, inp)).reviews == f.held.state.reviews
    ensures !Commits(cfg, d, f, inp) ==> !Running(Step(g, cfg, d, f, inp).next)
  {
    hide HumanDecision;
  }

  // ---- The two runs ---------------------------------------------------------------------------

  lemma {:induction false} SameRuns(g: PhaseGraph, cfg: Config, d: Disk, e: Engine, f: Engine, inputs: seq<Input>,
                                    before: set<(PhaseId, int)>)
    requires ValidGraph(g) && Sound(g, d, e)
    requires f == Recall(e, f.applied, f.tokens) && e.applied == before + f.applied
    requires forall key :: key in before ==> key !in f.applied
    ensures SavesOf(Exec(g, cfg, d, f, inputs).trace) == SavesOf(Exec(g, cfg, d, e, inputs).trace) <==>
            !MeetsSpentGate(g, cfg, d, e, inputs, before)
    ensures !MeetsSpentGate(g, cfg, d, e, inputs, before) ==>
            Exec(g, cfg, d, f, inputs).disk == Exec(g, cfg, d, e, inputs).disk &&
            Exec(g, cfg, d, f, inputs).engine.pc == Exec(g, cfg, d, e, inputs).engine.pc
    decreases |inputs|
  {
    hide ValidGraph, Step, WellFormed, AtSpentGate, PcOk;
    if inputs != [] && Running(e) {
      if AtSpentGate(e, before) {
        assert inputs == [inputs[0]] + inputs[1..];
        SpentKey(e, before);
        SpentGateDiffers(g, cfg, d, e, f, inputs[0], inputs[1..], before);
      } else {
        var o, q := Step(g, cfg, d, e, inputs[0]), Step(g, cfg, d, f, inputs[0]);
        HeldIsNumbered(g, e);
        SameStep(g, cfg, d, e, f, inputs[0], before);
        StepKeepsSound(g, cfg, d, e, inputs[0]);
        StaysDisjoint(g, cfg, d, e, f, inputs[0], before);
        SameRuns(g, cfg, Apply(d, o.out), o.next, q.next, inputs[1..], before);
        SavesOfConcat(o.out, Exec(g, cfg, Apply(d, o.out), o.next, inputs[1..]).trace);
        SavesOfConcat(q.out, Exec(g, cfg, Apply(d, q.out), q.next, inputs[1..]).trace);
        Cancel(SavesOf(o.out), SavesOf(Exec(g, cfg, Apply(d, o.out), o.next, inputs[1..]).trace),
               SavesOf(Exec(g, cfg, Apply(d, q.out), q.next, inputs[1..]).trace));
      }
    }
  }

  lemma Cancel(x: seq<SessionState>, a: seq<SessionState>, b: seq<SessionState>)
    ensures x + a == x + b <==> a == b
  {
    if x + a == x + b {
      assert a == (x + a)[|x|..] && b == (x + b)[|x|..];
    }
  }

  lemma HeldIsNumbered(g: PhaseGraph, e: Engine)
    requires WellFormed(g, e.held.state)
    ensures NumberedReviews(e.held.state.reviews)
  {
  }

  lemma SpentKey(e: Engine, before: set<(PhaseId, int)>)
    requires AtSpentGate(e, before)
    ensures e.pc.ReviewTop? && GateKey(e, e.pc.phase) in before
  {
  }

  /** Away from spent gates a resumed run never applies a decision that was applied before. */
  lemma StaysDisjoint(g: PhaseGraph, cfg: Config, d: Disk, e: Engine, f: Engine, inp: Input, before: set<(PhaseId, int)>)
    requires NumberedReviews(e.held.state.reviews) && Running(e) && !AtSpentGate(e, before)
    requires f == Recall(e, f.applied, f.tokens) && e.applied == before + f.applied
    requires forall key :: key in before ==> key !in f.applied
    ensures forall key :: key in before ==> key !in Step(g, cfg, d, f, inp).next.applied
  {
    hide PlanOf, Perform, HumanDecision, NumberedReviews, AtSpentGate;
    SamePlan(cfg, d, e, inp, before, f);
    SameSaves(g, cfg, d, MarkApplied(f), MarkApplied(f), PlanOf(cfg, d, f, inp), inp.now);
    if e.pc.ReviewTop? {
      DecisionHasNewestNumber(e, e.pc.phase);
      SameDecisionAt(e, f, before);
    }
  }

  lemma SameDecisionAt(e: Engine, f: Engine, before: set<(PhaseId, int)>)
    requires NumberedReviews(e.held.state.reviews) && e.pc.ReviewTop? && !AtSpentGate(e, before)
    requires f == Recall(e, f.applied, f.tokens) && e.applied == before + f.applied
    ensures HumanDecision(f, e.pc.phase) == HumanDecision(e, e.pc.phase)
  {
    SameDecision(e, e.pc.phase, before, f);
  }

  /** Pause transparency. Stop a run at the loop top of an executor phase and call `run()` again: the resumed run
      saves exactly what the uninterrupted run would have saved from there, for every behaviour of the roles, if
      and only if the uninterrupted run does not come back to a human phase whose decision it had applied before
      the pause. The timestamps saved are those of the inputs, so equality is exact. */
  lemma {:induction false} PauseIsTransparent(g: PhaseGraph, cfg: Config, d: Disk, e: Engine, pause: Input,
                                            req: RunRequest, inputs: seq<Input>)
    requires ValidGraph(g) && Sound(g, d, e) && e.pc.ExecTop? && pause.signal.Pause?
    requires req.sessionId == e.held.state.sessionId && req.preflight
    ensures var paused := Exec(g, cfg, d, e, [pause]);
            var resumed := Session(g, cfg, paused.disk, req, inputs);
            var through := Exec(g, cfg, d, e, inputs);
            && SavesOf(paused.trace) == []
            && (SavesOf(resumed.trace) == SavesOf(through.trace) <==> !MeetsSpentGate(g, cfg, d, e, inputs, e.applied))
            && (!MeetsSpentGate(g, cfg, d, e, inputs, e.applied) ==>
                  resumed.disk == through.disk && resumed.engine.pc == through.engine.pc)
  {
    hide ValidGraph, Step, WellFormed, Exec, Boot, PcOk, MeetsSpentGate;
    PauseResumes(g, cfg, d, e, pause, req);
    OnePause(g, cfg, d, e, pause);
    assert Apply(d, []) == d;
    var b := Boot(g, cfg, d, req);
    SameRuns(g, cfg, d, e, Recall(e, {}, NO_TOKENS), inputs, e.applied);
    SavesOfConcat(b.out, Exec(g, cfg, d, b.next, inputs).trace);
  }

  lemma {:induction false} OnePause(g: PhaseGraph, cfg: Config, d: Disk, e: Engine, pause: Input)
    requires Running(e) && Step(g, cfg, d, e, pause).out == [] && !Running(Step(g, cfg, d, e, pause).next)
    ensures Exec(g, cfg, d, e, [pause]) == Run(d, Step(g, cfg, d, e, pause).next, [])
  {
    hide Step;
    assert Apply(d, []) == d;
  }

  // ---- Conditions that can be checked before pausing ------------------------------------------

  /** No phase whose decision this run has applied can be reached from where it stands. */
  predicate ClearAhead(g: PhaseGraph, e: Engine) {
    forall key :: key in e.applied ==> key.0 !in ReachableFrom(g, e.held.state.currentPhase)
  }

  lemma {:induction false} NothingSpentInside(g: PhaseGraph, cfg: Config, d: Disk, e: Engine, inputs: seq<Input>,
                                              before: set<(PhaseId, int)>, ids: set<PhaseId>)
    requires ValidGraph(g) && Sound(g, d, e) && Closed(g, ids) && e.held.state.currentPhase in ids
    requires forall key :: key in before ==> key.0 !in ids
    ensures !MeetsSpentGate(g, cfg, d, e, inputs, before)
    decreases |inputs|
  {
    hide ValidGraph, Step, WellFormed, Closed, AtSpentGate, PcOk;
    if inputs != [] && Running(e) {
      if AtSpentGate(e, before) {
        GateIsCurrent(g, e, before);
      }
      StepStaysInside(g, cfg, d, e, inputs[0], ids);
      StepKeepsSound(g, cfg, d, e, inputs[0]);
      var o := Step(g, cfg, d, e, inputs[0]);
      NothingSpentInside(g, cfg, Apply(d, o.out), o.next, inputs[1..], before, ids);
    }
  }

  lemma GateIsCurrent(g: PhaseGraph, e: Engine, before: set<(PhaseId, int)>)
    requires PcOk(g, e) && AtSpentGate(e, before)
    ensures GateKey(e, e.pc.phase) in before && e.pc.phase.phaseId == e.held.state.currentPhase
  {
    hide FindDecided;
  }

  /** A pause from which no applied gate can be reached is invisible, whatever the roles answer afterwards. */
  lemma PauseIsTransparentAhead(g: PhaseGraph, cfg: Config, d: Disk, e: Engine, pause: Input, req: RunRequest)
    requires ValidGraph(g) && Sound(g, d, e) && e.pc.ExecTop? && pause.signal.Pause?
    requires req.sessionId == e.held.state.sessionId && req.preflight
    requires ClearAhead(g, e)
    ensures Transparent(g, cfg, d, e, pause, req)
  {
    hide ValidGraph, WellFormed, Exec, Session, PcOk, MeetsSpentGate, Closed, ReachableFrom;
    forall inputs: seq<Input> ensures Unnoticed(g, cfg, d, e, pause, req, inputs) {
      var start := e.held.state.currentPhase;
      assert Get(g, start).Some? by { CurrentIsKnown(g, e); }
      ReachableIsClosed(g, start);
      NothingSpentInside(g, cfg, d, e, inputs, e.applied, ReachableFrom(g, start));
      PauseIsTransparent(g, cfg, d, e, pause, req, inputs);
    }
  }

  lemma {:induction false} CurrentIsKnown(g: PhaseGraph, e: Engine)
    requires WellFormed(g, e.held.state)
    ensures Get(g, e.held.state.currentPhase).Some?
  {
  }

  /** Pausing and running on makes no difference to what is saved, to the disk and to where the run ends. */
  predicate Unnoticed(g: PhaseGraph, cfg: Config, d: Disk, e: Engine, pause: Input, req: RunRequest, inputs: seq<Input>) {
    var paused := Exec(g, cfg, d, e, [pause]);
    var resumed := Session(g, cfg, paused.disk, req, inputs);
    var through := Exec(g, cfg, d, e, inputs);
    && SavesOf(paused.trace) == []
    && SavesOf(resumed.trace) == SavesOf(through.trace)
    && resumed.disk == through.disk
    && resumed.engine.pc == through.engine.pc
  }

  ghost predicate Transparent(g: PhaseGraph, cfg: Config, d: Disk, e: Engine, pause: Input, req: RunRequest) {
    forall inputs: seq<Input> :: Unnoticed(g, cfg, d, e, pause, req, inputs)
  }

  // ---- Graphs without human phases ------------------------------------------------------------

  predicate NoHumans(g: PhaseGraph) {
    forall i :: 0 <= i < |g| ==> !g[i].human
  }

  lemma StepAppliesNothing(g: PhaseGraph, cfg: Config, d: Disk, e: Engine, inp: Input)
    requires ValidGraph(g) && NoHumans(g) && Sound(g, d, e)
    ensures Step(g, cfg, d, e, inp).next.applied == e.applied
  {
    hide ValidGraph, PlanOf, Perform, HumanDecision, NumberedIterations, Loadable, IterationOk, ReviewOk;
    if Running(e) {
      SameSaves(g, cfg, d, MarkApplied(e), MarkApplied(e), PlanOf(cfg, d, e, inp), inp.now);
      if e.pc.ReviewTop? {
        GetFinds(g, e.held.state.currentPhase);
        DecisionHasNewestNumber(e, e.pc.phase);
      }
    }
  }

  lemma {:induction false} RunAppliesNothing(g: PhaseGraph, cfg: Config, d: Disk, e: Engine, inputs: seq<Input>)
    requires ValidGraph(g) && NoHumans(g) && Sound(g, d, e)
    ensures Exec(g, cfg, d, e, inputs).engine.applied == e.applied
    decreases |inputs|
  {
    hide ValidGraph, NoHumans, Step, Sound;
    if inputs != [] && Running(e) {
      StepAppliesNothing(g, cfg, d, e, inputs[0]);
      StepKeepsSound(g, cfg, d, e, inputs[0]);
      var o := Step(g, cfg, d, e, inputs[0]);
      RunAppliesNothing(g, cfg, Apply(d, o.out), o.next, inputs[1..]);
    }
  }

  lemma BootAppliesNothing(g: PhaseGraph, cfg: Config, d: Disk, req: RunRequest)
    ensures Boot(g, cfg, d, req).next.applied == {}
  {
    hide Conclude, Abort, EnterPhase, Boot, Launch;
    BootIsLaunch(g, cfg, d, req);
    if Rejected(d, req) {
      RejectedIsFresh(g, cfg, d, req);
    } else {
      var out := InitialWrites(g, d, req);
      LaunchAppliesNothing(g, cfg, Apply(d, out), LoadedState(g, d, req), out, req);
    }
  }

  lemma RejectedIsFresh(g: PhaseGraph, cfg: Config, d: Disk, req: RunRequest)
    requires Rejected(d, req)
    ensures Boot(g, cfg, d, req).next.applied == {}
  {
    hide Launch;
  }

  lemma LaunchAppliesNothing(g: PhaseGraph, cfg: Config, d: Disk, s: Stored, out: seq<Effect>, req: RunRequest)
    ensures Launch(g, cfg, d, s, out, req).next.applied == {}
  {
    hide Announce;
  }

  /** On a graph without human phases every pause at a loop top is invisible: whatever run comes to the loop top,
      and whatever the roles answer after the pause. */
  lemma WithoutHumansPausesAreTransparent(g: PhaseGraph, cfg: Config, d: Disk, first: RunRequest, asked: seq<Input>,
                                          pause: Input, req: RunRequest)
    requires ValidGraph(g) && NoHumans(g) && DiskOk(g, d)
    requires var r := Session(g, cfg, d, first, asked);
             && r.engine.pc.ExecTop? && req.sessionId == r.engine.held.state.sessionId
    requires pause.signal.Pause? && req.preflight
    ensures var r := Session(g, cfg, d, first, asked);
            Transparent(g, cfg, r.disk, r.engine, pause, req)
  {
    hide ValidGraph, NoHumans, Boot, Exec, Transparent, WellFormed, ReachableFrom;
    SessionKeepsSound(g, cfg, d, first, asked);
    BootKeepsSound(g, cfg, d, first);
    BootAppliesNothing(g, cfg, d, first);
    var o := Boot(g, cfg, d, first);
    RunAppliesNothing(g, cfg, Apply(d, o.out), o.next, asked);
    var r := Session(g, cfg, d, first, asked);
    PauseIsTransparentAhead(g, cfg, r.disk, r.engine, pause, req);
  }

  // ---- Pauses elsewhere -----------------------------------------------------------------------

  /** A pause right after a verdict is not invisible: the resumed run stands before the same phase and its next
      verdict is numbered one higher. */
  lemma {:induction false} PauseAfterVerdictReviewsAgain(g: PhaseGraph, cfg: Config, d: Disk, e: Engine, pause: Input,
                                            req: RunRequest)
    requires ValidGraph(g) && Sound(g, d, e) && e.pc.ReviewDecide? && pause.signal.Pause?
    requires req.sessionId == e.held.state.sessionId && req.preflight
    ensures var o := Step(g, cfg, d, e, pause);
            var b := Boot(g, cfg, Apply(d, o.out), req);
            var last := e.held.state.reviews[|e.held.state.reviews| - 1];
            && o.out == [] && o.next.pc.Paused?
            && b.next.held == e.held
            && b.next.pc == ReviewTop(e.pc.phase)
            && NextReview(b.next.held.state, e.pc.phase) == last.review + 1
  {
    hide IterationOk, ReviewOk, NumberedIterations, NumberedReviews, AutomatedChanges, ValidGraph;
    assert Apply(d, []) == d;
    NewestNumber(g, e);
  }

  lemma NewestNumber(g: PhaseGraph, e: Engine)
    requires WellFormed(g, e.held.state) && e.held.state.reviews != []
    ensures var last := e.held.state.reviews[|e.held.state.reviews| - 1];
            last.review == CountReviews(e.held.state.reviews, last.phaseId)
  {
  }
}
