/** How the engines, written as loops over mutable objects, follow the machine. */
module Refinement {
  import opened Wrappers
  import opened Graph
  import opened State
  import opened Events
  import opened Names
  import opened Disk
  import opened Machine
  import opened Invariants
  import opened Sessions

  /** How a method of an engine ends: normally, by one of the exceptions of the engine, or because the world
      has no more answers (a run that is cut off between two commit boundaries). */
  datatype Exit = Normal | StopRequested | CancelRequested | Error(error: EngineError) | CutOff

  /** Where the machine stands when a method of an engine has ended that way. */
  function Next(g: PhaseGraph, exit: Exit, m: Engine, now: Time): Engine {
    match exit
    case Normal => EnterPhase(g, m, [], now).next
    case StopRequested => m.(pc := if m.held.state.status.InProgress? then Paused else Finished)
    case CancelRequested => m.(pc := if m.held.state.status.InProgress? then Paused else Finished)
    case Error(err) => Abort(g, m, [], err, now).next
    case CutOff => m
  }

  /** What `run()` still says about it. */
  function Tail(g: PhaseGraph, exit: Exit, m: Engine, now: Time): seq<Effect> {
    if exit.Error? then Abort(g, m, [], exit.error, now).out else []
  }

  /** What came of asking an executor: an exception, a finalize step without a handoff, or an entry to commit. */
  datatype Turn = Refused(error: EngineError) | NoHandoff | Ready(result: ExecutionResult, entry: IterationEntry)

  const NO_INPUT := Input(Continue, 0, 0, Reply.Raised, Reply.Raised)

  datatype Told = Told(exit: Exit, memory: Engine, out: seq<Effect>)

  /** Saving a commit and announcing it, without looking further. */
  function SaveAndTell(g: PhaseGraph, cfg: Config, d: Disk, m: Engine, c: Commit, now: Time): Told {
    match SaveError(d, m.held.revision)
    case Some(err) => Told(Error(err), m, [])
    case None =>
      var n := Saved(m, c);
      if KnownPhase(g, n.held.state, c) then Told(Normal, n, Written(n) + Announce(g, cfg, n, c, now))
      else Told(Error(ConfigurationError), n, Written(n))
  }

  /** What one `run()` call keeps in memory: the snapshot it last saved, and its token totals. */
  class Runtime {
    var stored: Stored
    var tokens: TokenUsage

    constructor (stored: Stored)
      ensures this.stored == stored && tokens == NO_TOKENS
    {
      this.stored := stored;
      tokens := NO_TOKENS;
    }

    method Accumulate(usage: Option<TokenUsage>)
      modifies this`tokens
      ensures tokens == AddUsage(old(tokens), usage)
      ensures usage.None? ==> tokens == old(tokens)
      ensures usage.Some? ==>
        && tokens.prompt == old(tokens.prompt) + usage.value.prompt
        && tokens.completion == old(tokens.completion) + usage.value.completion
        && tokens.total == old(tokens.total) + usage.value.total
    {
      if usage.Some? {
        tokens := TokenUsage(tokens.prompt + usage.value.prompt, tokens.completion + usage.value.completion,
                             tokens.total + usage.value.total);
      }
    }
  }

  /** The loop of `_find_committed_human_review`. */
  method FindCommittedHumanReview(state: SessionState, id: PhaseId, expected: int) returns (r: Option<ReviewEntry>)
    ensures r == FindDecided(state.reviews, id, expected)
  {
    var rs := state.reviews;
    for i := 0 to |rs|
      invariant FindDecided(rs, id, expected) == FindDecided(rs[i..], id, expected)
    {
      assert rs[i..][1..] == rs[i + 1..];
      if rs[i].phaseId == id && rs[i].review == expected && Decided(rs[i]) {
        return Some(rs[i]);
      }
    }
    r := None;
  }

  // ---- Runs that continue ---------------------------------------------------------------------

  /** Running the machine from here is doing `out` and then running it from there. */
  ghost predicate Leads(g: PhaseGraph, cfg: Config, d: Disk, e: Engine, inputs: seq<Input>,
                        d1: Disk, e1: Engine, inputs1: seq<Input>, out: seq<Effect>)
  {
    var r := Exec(g, cfg, d1, e1, inputs1);
    Exec(g, cfg, d, e, inputs) == Run(r.disk, r.engine, out + r.trace)
  }

  lemma LeadsNowhere(g: PhaseGraph, cfg: Config, d: Disk, e: Engine, inputs: seq<Input>)
    ensures Leads(g, cfg, d, e, inputs, d, e, inputs, [])
  {
    hide Exec;
    var r := Exec(g, cfg, d, e, inputs);
    assert [] + r.trace == r.trace;
  }

  lemma {:induction false} LeadsOn(g: PhaseGraph, cfg: Config, d: Disk, e: Engine, inputs: seq<Input>,
                d1: Disk, e1: Engine, inputs1: seq<Input>, out: seq<Effect>, n: Outcome)
    requires Leads(g, cfg, d, e, inputs, d1, e1, inputs1, out)
    requires inputs1 != [] && Running(e1) && Step(g, cfg, d1, e1, inputs1[0]) == n
    ensures Leads(g, cfg, d, e, inputs, Apply(d1, n.out), n.next, inputs1[1..], out + n.out)
  {
    hide Step;
    var r := Exec(g, cfg, Apply(d1, n.out), n.next, inputs1[1..]);
    assert out + (n.out + r.trace) == (out + n.out) + r.trace;
  }

  lemma LeadsFurther(g: PhaseGraph, cfg: Config, d: Disk, e: Engine, inputs: seq<Input>,
                     d1: Disk, e1: Engine, inputs1: seq<Input>, out: seq<Effect>,
                     d2: Disk, e2: Engine, inputs2: seq<Input>, more: seq<Effect>)
    requires Leads(g, cfg, d, e, inputs, d1, e1, inputs1, out)
    requires Leads(g, cfg, d1, e1, inputs1, d2, e2, inputs2, more)
    ensures Leads(g, cfg, d, e, inputs, d2, e2, inputs2, out + more)
  {
    hide Exec;
    var r := Exec(g, cfg, d2, e2, inputs2);
    assert out + (more + r.trace) == (out + more) + r.trace;
  }

  /** A machine that has stopped leaves things as they are. */
  lemma {:induction false} Arrived(g: PhaseGraph, cfg: Config, d: Disk, e: Engine, inputs: seq<Input>,
                d1: Disk, e1: Engine, inputs1: seq<Input>, out: seq<Effect>)
    requires Leads(g, cfg, d, e, inputs, d1, e1, inputs1, out)
    requires inputs1 == [] || !Running(e1)
    ensures Exec(g, cfg, d, e, inputs) == Run(d1, e1, out)
  {
    assert out + [] == out;
  }

  // ---- Steps, by what they plan ---------------------------------------------------------------

  lemma {:induction false} TailSaysNothingToDisk(g: PhaseGraph, exit: Exit, m: Engine, now: Time, d: Disk,
                                            out: seq<Effect>)
    ensures Apply(d, out + Tail(g, exit, m, now)) == Apply(d, out)
  {
    var tail := Tail(g, exit, m, now);
    ApplyConcat(d, out, tail);
    if tail != [] {
      assert tail[1..] == [];
      assert Apply(ApplyEffect(Apply(d, out), tail[0]), []) == Apply(d, out);
    }
  }

  /** Performing a plan does not look at where the engine stood. */
  function Bare(e: Engine): Engine { e.(pc := Finished) }

  lemma PerformSave(g: PhaseGraph, cfg: Config, d: Disk, m: Engine, before: seq<Effect>, c: Commit, now: Time)
    ensures var t := SaveAndTell(g, cfg, d, Bare(m), c, now);
            Perform(g, cfg, d, m, Save(before, c, Enter), now) ==
            Outcome(Next(g, t.exit, t.memory, now), before + t.out + Tail(g, t.exit, t.memory, now))
  {
    hide Announce, Abort, EnterPhase;
    var b := Bare(m);
    var t := SaveAndTell(g, cfg, d, b, c, now);
    var err := SaveError(d, m.held.revision);
    if err.Some? {
      BareAbort(g, m, before, err.value, now);
      AbortAfter(g, b, before, err.value, now);
      assert before + [] == before;
    } else {
      var e1, n := Saved(m, c), Saved(b, c);
      BareAnnounce(g, cfg, e1, c, now);
      assert n == Bare(e1);
      if KnownPhase(g, n.held.state, c) {
        var said := before + Written(e1) + Announce(g, cfg, e1, c, now);
        BareEnter(g, e1, said, now);
        EnterAfter(g, n, said, now);
        assert before + t.out + [] == said;
      } else {
        BareAbort(g, e1, before + Written(e1), ConfigurationError, now);
        AbortAfter(g, n, before + Written(e1), ConfigurationError, now);
      }
    }
  }

  lemma BareAbort(g: PhaseGraph, e: Engine, out: seq<Effect>, err: EngineError, now: Time)
    ensures Abort(g, Bare(e), out, err, now) == Abort(g, e, out, err, now)
  {
  }

  lemma BareEnter(g: PhaseGraph, e: Engine, out: seq<Effect>, now: Time)
    ensures EnterPhase(g, Bare(e), out, now) == EnterPhase(g, e, out, now)
  {
  }

  lemma BareAnnounce(g: PhaseGraph, cfg: Config, e: Engine, c: Commit, now: Time)
    ensures Announce(g, cfg, Bare(e), c, now) == Announce(g, cfg, e, c, now)
  {
  }

  /** A step that plans a save and nothing special after it. */
  lemma StepSaves(g: PhaseGraph, cfg: Config, d: Disk, e: Engine, inp: Input, before: seq<Effect>, c: Commit, t: Told)
    requires Running(e) && PlanOf(cfg, d, e, inp) == Save(before, c, Enter)
    requires t == SaveAndTell(g, cfg, d, Bare(MarkApplied(e)), c, inp.now)
    ensures Step(g, cfg, d, e, inp) ==
            Outcome(Next(g, t.exit, t.memory, inp.now), before + t.out + Tail(g, t.exit, t.memory, inp.now))
  {
    hide PlanOf, Perform, SaveAndTell, MarkApplied;
    PerformSave(g, cfg, d, MarkApplied(e), before, c, inp.now);
  }

  /** A step that plans to fail. */
  lemma StepFails(g: PhaseGraph, cfg: Config, d: Disk, e: Engine, inp: Input, before: seq<Effect>, err: EngineError)
    requires Running(e) && PlanOf(cfg, d, e, inp) == Fail(before, err)
    ensures var m := Bare(MarkApplied(e));
            Step(g, cfg, d, e, inp) ==
            Outcome(Next(g, Error(err), m, inp.now), before + Tail(g, Error(err), m, inp.now))
  {
    hide PlanOf, MarkApplied, Abort;
    BareAbort(g, MarkApplied(e), before, err, inp.now);
    AbortAfter(g, Bare(MarkApplied(e)), before, err, inp.now);
  }

  /** A step that plans to stop. */
  lemma StepStops(g: PhaseGraph, cfg: Config, d: Disk, e: Engine, inp: Input)
    requires Running(e) && PlanOf(cfg, d, e, inp) == Stop && e.held.state.status.InProgress?
    ensures var m := Bare(MarkApplied(e));
            Step(g, cfg, d, e, inp) == Outcome(Next(g, StopRequested, m, inp.now), [])
  {
    hide PlanOf, HumanDecision;
  }

  /** A step that commits and goes on, halts, or is rejected. */
  lemma StepCommits(g: PhaseGraph, cfg: Config, d: Disk, e: Engine, inp: Input, before: seq<Effect>, c: Commit,
                    after: After, t: Told)
    requires Running(e) && PlanOf(cfg, d, e, inp) == Save(before, c, after) && !after.Enter?
    requires t == SaveAndTell(g, cfg, d, Bare(MarkApplied(e)), c, inp.now)
    requires e.held.state.status.InProgress? && (c.Iterate? || c.Judge? || c.Stub?)
    ensures var o := Step(g, cfg, d, e, inp);
            if t.exit.Error? then
              o == Outcome(Next(g, t.exit, t.memory, inp.now), before + t.out + Tail(g, t.exit, t.memory, inp.now))
            else
              match after
              case At(pc) => o == Outcome(t.memory.(pc := pc), before + t.out)
              case Halt(post) => o == Outcome(Next(g, StopRequested, t.memory, inp.now), before + t.out + post)
              case Reject(err) =>
                o == Outcome(Next(g, Error(err), t.memory, inp.now),
                             before + t.out + Tail(g, Error(err), t.memory, inp.now))
  {
    hide PlanOf, MarkApplied, Announce, Abort;
    var m := MarkApplied(e);
    MarkedSame(e);
    var err := SaveError(d, m.held.revision);
    if err.Some? {
      BareAbort(g, m, before, err.value, inp.now);
      AbortAfter(g, Bare(m), before, err.value, inp.now);
      assert before + [] == before;
    } else {
      var e1 := Saved(m, c);
      BareAnnounce(g, cfg, e1, c, inp.now);
      var said := before + Written(e1) + Announce(g, cfg, e1, c, inp.now);
      assert before + t.out == said;
      if after.Reject? {
        BareAbort(g, e1, said, after.error, inp.now);
        AbortAfter(g, Bare(e1), said, after.error, inp.now);
      }
    }
  }

  /** Whether a save is refused depends on the state files only. */
  lemma SameFilesSameTold(g: PhaseGraph, cfg: Config, d: Disk, d1: Disk, m: Engine, c: Commit, now: Time)
    requires d.state == d1.state && d.revision == d1.revision
    ensures SaveAndTell(g, cfg, d, m, c, now) == SaveAndTell(g, cfg, d1, m, c, now)
  {
    hide Announce;
  }

  // ---- Starting -------------------------------------------------------------------------------

  /** Launching after the first writes of a session is launching, and having made them. */
  lemma LaunchAfter(g: PhaseGraph, cfg: Config, d: Disk, s: Stored, out: seq<Effect>, req: RunRequest)
    ensures var o := Launch(g, cfg, d, s, [], req);
            Launch(g, cfg, d, s, out, req) == Outcome(o.next, out + o.out)
  {
    hide Abort, EnterPhase, Announce, SaveAndTell;
    var e := Fresh(Timed(s, req), Finished);
    var st := e.held.state;
    assert out + [] == out;
    if Terminal(st.status) {
    } else if !req.preflight {
      AbortAfter(g, e, out, ConfigurationError, req.now);
    } else if st.status.Initialized? {
      LaunchStarts(g, cfg, d, s, out, req);
      LaunchStarts(g, cfg, d, s, [], req);
      var t := SaveAndTell(g, cfg, d, e, Begin, req.now);
      var tail := Tail(g, t.exit, t.memory, req.now);
      assert out + ([] + t.out + tail) == out + t.out + tail;
    } else if Get(g, st.currentPhase).None? {
      AbortAfter(g, e, out, ConfigurationError, req.now);
    } else {
      var p := Get(g, st.currentPhase).value;
      var resumed := Emit(RunResumed(st.sessionId, p.phaseId, p.roleId, p.kind, e.held.revision, req.now));
      EnterAfter(g, e, out + [resumed], req.now);
      EnterAfter(g, e, [resumed], req.now);
      assert [] + [resumed] == [resumed];
    }
  }

  lemma LaunchStarts(g: PhaseGraph, cfg: Config, d: Disk, s: Stored, out: seq<Effect>, req: RunRequest)
    requires s.state.status.Initialized? && req.preflight
    ensures var t := SaveAndTell(g, cfg, d, Fresh(Timed(s, req), Finished), Begin, req.now);
            Launch(g, cfg, d, s, out, req) ==
            Outcome(Next(g, t.exit, t.memory, req.now), out + t.out + Tail(g, t.exit, t.memory, req.now))
  {
    hide Abort, Conclude, SaveAndTell, Next, Tail;
    PerformSave(g, cfg, d, Fresh(Timed(s, req), Finished), out, Begin, req.now);
  }

  // ---- What each loop top plans ---------------------------------------------------------------

  lemma ExecTopCases(cfg: Config, d: Disk, e: Engine, inp: Input)
    requires e.pc.ExecTop?
    ensures var p, st, plan := e.pc.phase, e.held.state, PlanOf(cfg, d, e, inp);
            var history := HistoryFor(d, st, p.phaseId);
            && (inp.signal.Cancel? ==> plan == Save([], Close(Abandoned, inp.now), Enter))
            && (inp.signal.Pause? ==> plan == Stop)
            && (inp.signal.Continue? && history.Failure? ==> plan == Fail([], history.error))
            && (inp.signal.Continue? && history.Success? ==>
                  var asked := [AskExecutor(p.phaseId, st, history.value)];
                  if inp.execution.Raised? then plan == Fail(asked, RoleError)
                  else
                    var r := inp.execution.value;
                    if !ValidOutput(p, r.roleId, inp.startedAt, r.endedAt) then plan == Fail(asked, TransitionError)
                    else plan == PlanIteration(cfg, e, p, e.pc.count, inp, r, asked))
  {
    hide HistoryFor, PlanIteration;
  }

  /** What an iteration stores before it is committed. */
  function HandoffWrites(p: PhaseDefinition, number: nat, r: ExecutionResult): seq<Effect> {
    if r.handoff.Some? then
      [ArtifactWrite(HandoffName(p.phaseId, number), HandoffDocument(p.phaseId, r.roleId, r.handoff.value))]
    else []
  }

  function EntryOf(p: PhaseDefinition, number: nat, inp: Input, r: ExecutionResult): IterationEntry
    requires r.endedAt.Some?
  {
    IterationEntry(number, p.phaseId, r.roleId, r.confidenceScore, inp.startedAt, r.endedAt.value,
                   if r.handoff.Some? then Some(HandoffName(p.phaseId, number)) else None)
  }

  /** What an iteration of a discovery adds to the context pack. */
  function PackWrites(cfg: Config, st: SessionState, r: ExecutionResult): seq<Effect> {
    if PackActive(cfg, st) then PackFiles(r.files) else []
  }

  function CanonicalWrites(cfg: Config, st: SessionState, p: PhaseDefinition, r: ExecutionResult): seq<Effect> {
    if PackActive(cfg, st) && p.phaseId == "finalize" && r.handoff.Some? then
      [PackWrite(CANONICAL_HANDOFF, HandoffDocument(p.phaseId, r.roleId, r.handoff.value))]
    else []
  }

  lemma IterationCases(cfg: Config, e: Engine, inp: Input, r: ExecutionResult, asked: seq<Effect>)
    requires e.pc.ExecTop? && r.endedAt.Some?
    ensures var p, st := e.pc.phase, e.held.state;
            var number := CountIterations(st.iterations, p.phaseId) + 1;
            var packed := asked + HandoffWrites(p, number, r) + PackWrites(cfg, st, r);
            var before := packed + CanonicalWrites(cfg, st, p, r);
            PlanIteration(cfg, e, p, e.pc.count, inp, r, asked) ==
            if PackActive(cfg, st) && p.phaseId == "finalize" && r.handoff.None? then
              Save(packed, Close(Abandoned, inp.now), Enter)
            else if !InScoreRange(r.confidenceScore) then Fail(before, ValidationError)
            else Save(before, Iterate(EntryOf(p, number, inp, r), r.chosenNext, r.usage),
                      AfterIteration(cfg, st, p, e.pc.count, r))
  {
    hide AfterIteration;
  }

  lemma NoCanonical(cfg: Config, st: SessionState, p: PhaseDefinition, r: ExecutionResult)
    requires r.handoff.None?
    ensures CanonicalWrites(cfg, st, p, r) == []
    ensures PackWrites(cfg, st, r) + [] == PackWrites(cfg, st, r)
  {
  }

  /** What a pending question leads to. */
  lemma AfterCases(cfg: Config, st: SessionState, p: PhaseDefinition, count: int, r: ExecutionResult)
    requires r.endedAt.Some?
    ensures var after := AfterIteration(cfg, st, p, count, r);
            if r.pendingQuestion.None? then after == At(ExecDecide(p, count + 1, r.confidenceScore, r.chosenNext))
            else if !cfg.adhocQuestions then after == Reject(ConfigurationError)
            else after.Halt?
  {
  }

  lemma AfterIgnoresIterations(cfg: Config, a: SessionState, b: SessionState, p: PhaseDefinition, count: int,
                               r: ExecutionResult)
    requires a.contextId == b.contextId && r.endedAt.Some? && r.pendingQuestion.Some?
    ensures AfterIteration(cfg, a, p, count, r) == AfterIteration(cfg, b, p, 0, r)
  {
  }

  lemma OneMorePackFile(files: seq<(Ref, string)>, i: nat)
    requires i < |files|
    ensures PackFiles(files[..i + 1]) == PackFiles(files[..i]) + [PackWrite(files[i].0, TextDocument(files[i].1))]
  {
  }

  lemma PlainIterationCases(cfg: Config, e: Engine, inp: Input, r: ExecutionResult, asked: seq<Effect>)
    requires e.pc.ExecTop? && r.endedAt.Some? && !PackActive(cfg, e.held.state)
    ensures var p, st := e.pc.phase, e.held.state;
            var number := CountIterations(st.iterations, p.phaseId) + 1;
            var stored := asked + HandoffWrites(p, number, r);
            PlanIteration(cfg, e, p, e.pc.count, inp, r, asked) ==
            if !InScoreRange(r.confidenceScore) then Fail(stored, ValidationError)
            else Save(stored, Iterate(EntryOf(p, number, inp, r), r.chosenNext, r.usage),
                      AfterIteration(cfg, st, p, e.pc.count, r))
  {
    hide AfterIteration;
    var p, st := e.pc.phase, e.held.state;
    var stored := asked + HandoffWrites(p, CountIterations(st.iterations, p.phaseId) + 1, r);
    assert stored + [] + [] == stored;
  }

  lemma ReviewTopCases(cfg: Config, d: Disk, e: Engine, inp: Input)
    requires e.pc.ReviewTop?
    ensures var p, st, plan, decision := e.pc.phase, e.held.state, PlanOf(cfg, d, e, inp), HumanDecision(e, e.pc.phase);
            var history := HistoryFor(d, st, p.phaseId);
            && (decision.Some? ==> plan == PlanApply(p, decision.value, inp.now))
            && (decision.None? && p.human ==> plan == Save([], Stub(StubFor(st, p, inp.now), inp.now), Halt([])))
            && (decision.None? && !p.human && history.Failure? ==> plan == Fail([], history.error))
            && (decision.None? && !p.human && history.Success? ==>
                  var asked := [AskReviewer(p.phaseId, st, history.value)];
                  if inp.review.Raised? then plan == Fail(asked, RoleError)
                  else
                    var r := inp.review.value;
                    if !ValidOutput(p, r.roleId, inp.startedAt, r.endedAt) then plan == Fail(asked, TransitionError)
                    else plan == PlanVerdict(e, p, inp, r, asked))
  {
    hide HistoryFor, PlanVerdict, HumanDecision, PlanApply;
  }

  /** Which decision the two searches of a review phase find. */
  lemma DecisionCases(e: Engine, p: PhaseDefinition)
    ensures var n := NextReview(e.held.state, p);
            var here := FindDecided(e.held.state.reviews, p.phaseId, n);
            var earlier := FindDecided(e.held.state.reviews, p.phaseId, n - 1);
            HumanDecision(e, p) ==
            if here.Some? then here
            else if p.human && n > 1 && (p.phaseId, n - 1) !in e.applied && earlier.Some? then earlier
            else None
    ensures e.pc.ReviewTop? && e.pc.phase == p && HumanDecision(e, p).Some? ==>
      MarkApplied(e) == e.(applied := e.applied + {(p.phaseId, HumanDecision(e, p).value.review)})
    ensures e.pc.ReviewTop? && e.pc.phase == p && HumanDecision(e, p).None? ==> MarkApplied(e) == e
  {
    hide FindDecided;
  }

  lemma SameMemorySameDecision(m: Engine, e: Engine, p: PhaseDefinition)
    requires e.held == m.held && e.applied == m.applied
    ensures HumanDecision(e, p) == HumanDecision(m, p)
  {
  }

  lemma ReviewDecideCases(cfg: Config, d: Disk, e: Engine, inp: Input)
    requires e.pc.ReviewDecide?
    ensures PlanOf(cfg, d, e, inp) ==
            PlanReviewDecide(cfg, e.held.state, e.pc.phase, e.pc.decision, e.pc.next, inp)
  {
  }

  /** After an iteration. */
  lemma ExecDecideCases(cfg: Config, d: Disk, e: Engine, inp: Input)
    requires e.pc.ExecDecide?
    ensures PlanOf(cfg, d, e, inp) == PlanExecDecide(cfg, e.pc.phase, e.pc.count, e.pc.score, e.pc.chosen, inp.now)
  {
  }

  lemma StepStays(g: PhaseGraph, cfg: Config, d: Disk, e: Engine, inp: Input, pc: Pc)
    requires e.pc.ExecDecide? && PlanOf(cfg, d, e, inp) == Stay(pc)
    ensures Step(g, cfg, d, e, inp) == Outcome(e.(pc := pc), [])
  {
    hide PlanOf;
  }

  /** A step whose plan has nothing to do before its save, if it saves. */
  lemma StepPerforms(g: PhaseGraph, cfg: Config, d: Disk, e: Engine, inp: Input, m: Engine, t: Told)
    requires Running(e) && m == Bare(MarkApplied(e))
    requires match PlanOf(cfg, d, e, inp)
             case Fail(before, err) => before == [] && t == Told(Error(err), m, [])
             case Save(before, c, after) => before == [] && after.Enter? && t == SaveAndTell(g, cfg, d, m, c, inp.now)
             case _ => false
    ensures Step(g, cfg, d, e, inp) ==
            Outcome(Next(g, t.exit, t.memory, inp.now), t.out + Tail(g, t.exit, t.memory, inp.now))
    ensures t.exit.Normal? || t.exit.Error?
  {
    hide PlanOf, Step, SaveAndTell, Next, Tail, MarkApplied;
    match PlanOf(cfg, d, e, inp)
    case Fail(before, err) => StepFails(g, cfg, d, e, inp, before, err);
    case Save(before, c, after) =>
      StepSaves(g, cfg, d, e, inp, before, c, t);
      ToldStatus(g, cfg, d, m, c, inp.now);
      assert [] + t.out == t.out;
  }

  // ---- Ending a step --------------------------------------------------------------------------

  /** A run that leaves the machine's step `Step(g, cfg, d1, e1, inputs1[0])` having done `done`. */
  lemma {:induction false} LeadsOut(g: PhaseGraph, cfg: Config, d: Disk, e: Engine, inputs: seq<Input>,
                 d1: Disk, e1: Engine, inputs1: seq<Input>, out: seq<Effect>,
                 exit: Exit, m: Engine, now: Time, done: seq<Effect>)
    requires Leads(g, cfg, d, e, inputs, d1, e1, inputs1, out) && inputs1 != [] && Running(e1)
    requires Step(g, cfg, d1, e1, inputs1[0]) == Outcome(Next(g, exit, m, now), done + Tail(g, exit, m, now))
    ensures Leads(g, cfg, d, e, inputs, Apply(d1, done), Next(g, exit, m, now), inputs1[1..],
                  (out + done) + Tail(g, exit, m, now))
  {
    hide Step, Next, Tail, Leads;
    var tail := Tail(g, exit, m, now);
    LeadsOn(g, cfg, d, e, inputs, d1, e1, inputs1, out, Outcome(Next(g, exit, m, now), done + tail));
    TailSaysNothingToDisk(g, exit, m, now, d1, done);
    assert out + (done + tail) == (out + done) + tail;
  }

  /** CANCEL and PAUSE, where the machine plans to close and to stop. */
  lemma SignalEnds(g: PhaseGraph, cfg: Config, d: Disk, e: Engine, inp: Input, t: Told, exit: Exit)
    requires Running(e) && e.held.state.status.InProgress? && !inp.signal.Continue?
    requires inp.signal.Cancel? ==>
      && PlanOf(cfg, d, e, inp) == Save([], Close(Abandoned, inp.now), Enter)
      && t == SaveAndTell(g, cfg, d, Bare(MarkApplied(e)), Close(Abandoned, inp.now), inp.now)
      && exit == if t.exit.Normal? then CancelRequested else t.exit
    requires inp.signal.Pause? ==>
      && PlanOf(cfg, d, e, inp) == Stop
      && t == Told(StopRequested, Bare(MarkApplied(e)), []) && exit == StopRequested
    ensures Step(g, cfg, d, e, inp) ==
            Outcome(Next(g, exit, t.memory, inp.now), t.out + Tail(g, exit, t.memory, inp.now))
  {
    hide PlanOf, Step, SaveAndTell, Next, Tail, MarkApplied;
    if inp.signal.Cancel? {
      StepSaves(g, cfg, d, e, inp, [], Close(Abandoned, inp.now), t);
      assert [] + t.out == t.out;
      if t.exit.Normal? {
        ToldStatus(g, cfg, d, Bare(MarkApplied(e)), Close(Abandoned, inp.now), inp.now);
        ClosedIsDone(g, t.memory, inp.now);
        NoTail(g, t.memory, inp.now);
      }
    } else {
      StepStops(g, cfg, d, e, inp);
      NoTail(g, t.memory, inp.now);
      assert t.out + [] == [];
    }
  }

  lemma NoTail(g: PhaseGraph, m: Engine, now: Time)
    ensures Tail(g, Normal, m, now) == [] && Tail(g, StopRequested, m, now) == [] && Tail(g, CancelRequested, m, now) == []
  {
  }

  /** A session that is no longer in progress ends a run, whether the method returned or was stopped. */
  lemma ClosedIsDone(g: PhaseGraph, m: Engine, now: Time)
    requires !m.held.state.status.InProgress?
    ensures Next(g, Normal, m, now) == Next(g, CancelRequested, m, now) == Next(g, StopRequested, m, now)
  {
  }

  lemma ToldStatus(g: PhaseGraph, cfg: Config, d: Disk, m: Engine, c: Commit, now: Time)
    ensures var t := SaveAndTell(g, cfg, d, m, c, now);
            && (t.exit.Normal? || t.exit.Error?)
            && t.memory.applied == m.applied
            && (t.exit.Normal? ==> t.memory.held.state == ApplyCommit(m.held.state, c))
  {
    hide Announce;
  }

  /** How a run begins: with a terminal session it returns, otherwise it is checked, then started or resumed. */
  lemma {:induction false} LaunchCases(g: PhaseGraph, cfg: Config, d: Disk, s: Stored, req: RunRequest)
    ensures var e := Fresh(Timed(s, req), Finished);
            var st, o, now := e.held.state, Launch(g, cfg, d, s, [], req), req.now;
            if Terminal(st.status) then o == Outcome(Next(g, Normal, e, now), [])
            else if !req.preflight then
              o == Outcome(Next(g, Error(ConfigurationError), e, now), Tail(g, Error(ConfigurationError), e, now))
            else if st.status.Initialized? then
              var t := SaveAndTell(g, cfg, d, e, Begin, now);
              o == Outcome(Next(g, t.exit, t.memory, now), t.out + Tail(g, t.exit, t.memory, now))
            else
              match Get(g, st.currentPhase)
              case None =>
                o == Outcome(Next(g, Error(ConfigurationError), e, now), Tail(g, Error(ConfigurationError), e, now))
              case Some(p) =>
                o == Outcome(Next(g, Normal, e, now),
                             [Emit(RunResumed(st.sessionId, p.phaseId, p.roleId, p.kind, e.held.revision, now))])
  {
    hide Abort, Conclude, SaveAndTell;
    var e := Fresh(Timed(s, req), Finished);
    var st := e.held.state;
    if !Terminal(st.status) && req.preflight && st.status.Initialized? {
      LaunchStarts(g, cfg, d, s, [], req);
      var t := SaveAndTell(g, cfg, d, e, Begin, req.now);
      assert [] + t.out == t.out;
    } else if !Terminal(st.status) && req.preflight && Get(g, st.currentPhase).Some? {
      var p := Get(g, st.currentPhase).value;
      var resumed := Emit(RunResumed(st.sessionId, p.phaseId, p.roleId, p.kind, e.held.revision, req.now));
      EnterAfter(g, e, [resumed], req.now);
      assert [] + [resumed] == [resumed];
    }
  }

  /** The head of the loop in `run()`. */
  lemma {:induction false} DispatchCases(g: PhaseGraph, m: Engine, now: Time)
    requires m.pc.Finished?
    ensures var st := m.held.state;
            if !st.status.InProgress? then Next(g, Normal, m, now) == m
            else
              match Get(g, st.currentPhase)
              case None =>
                && Next(g, Normal, m, now) == Next(g, Error(ConfigurationError), m, now)
                && Tail(g, Error(ConfigurationError), m, now) == []
              case Some(p) =>
                Next(g, Normal, m, now) ==
                m.(pc := if p.kind.ExecutorKind? then ExecTop(p, CountIterations(st.iterations, p.phaseId))
                         else ReviewTop(p))
  {
  }

  /** Without a context pack a completion is announced by its event alone. */
  lemma PlainClose(g: PhaseGraph, cfg: Config, e: Engine, status: Status, at: Time, now: Time)
    requires !cfg.packWriter
    ensures var st := e.held.state;
            Announce(g, cfg, e, Close(status, at), now) ==
            [Emit(RunCompleted(st.sessionId, status, st.feedbackLoops, e.held.revision, st.startedAt, at, e.tokens))]
  {
    var ev := Announce(g, cfg, e, Close(status, at), now);
    assert |ev| == 1;
  }

  /** After these exits the machine has stopped. */
  lemma {:induction false} ExitsStop(g: PhaseGraph, exit: Exit, m: Engine, now: Time)
    requires exit.StopRequested? || exit.CancelRequested? || exit.Error? ||
             (exit.Normal? && !m.held.state.status.InProgress?)
    ensures var n := Next(g, exit, m, now);
            && !Running(n) && n.held == m.held
            && (exit.Error? ==>
                  n.pc == Crashed(if Get(g, m.held.state.currentPhase).Some? then exit.error else ConfigurationError))
            && (!exit.Error? ==> n.pc.Finished? || n.pc.Paused?)
  {
    hide Get;
  }

  /** What the handler of `run()` says about an exception. */
  lemma {:induction false} TailCases(g: PhaseGraph, err: EngineError, m: Engine, now: Time)
    ensures Tail(g, Error(err), m, now) ==
            match Get(g, m.held.state.currentPhase)
            case None => []
            case Some(p) => [Emit(RunFailed(m.held.state.sessionId, p.phaseId, p.roleId, m.held.revision, now, err))]
  {
    hide Get;
  }

  lemma BootRejects(g: PhaseGraph, cfg: Config, d: Disk, req: RunRequest)
    requires Rejected(d, req)
    ensures Boot(g, cfg, d, req) ==
            Outcome(Fresh(LoadedState(g, d, req),
                          Crashed(if Loadable(d.state.value) then StateError else ValidationError)), [])
  {
    hide Loadable;
  }

  lemma SessionRejected(g: PhaseGraph, cfg: Config, d: Disk, req: RunRequest, inputs: seq<Input>)
    requires Rejected(d, req)
    ensures var r := Session(g, cfg, d, req, inputs);
            && r.disk == d && r.trace == []
            && r.engine.pc == Crashed(if Loadable(d.state.value) then StateError else ValidationError)
  {
    hide Loadable, Boot, Rejected;
    BootRejects(g, cfg, d, req);
    assert Apply(d, []) == d;
  }

  /** A session is its boot, then the machine run to where it stopped. */
  lemma {:induction false} SessionIs(g: PhaseGraph, cfg: Config, d: Disk, req: RunRequest, inputs: seq<Input>,
                                     s: Stored, first: seq<Effect>, o: Outcome, d2: Disk, d3: Disk, e3: Engine,
                                     rest: seq<Input>, more: seq<Effect>)
    requires !Rejected(d, req) && s == LoadedState(g, d, req) && first == InitialWrites(g, d, req)
    requires o == Launch(g, cfg, Apply(d, first), s, [], req) && d2 == Apply(Apply(d, first), o.out)
    requires Leads(g, cfg, d2, o.next, inputs, d3, e3, rest, more) && (rest == [] || !Running(e3))
    ensures Session(g, cfg, d, req, inputs) == Run(d3, e3, (first + o.out) + more)
  {
    hide Launch, Boot, Exec, Rejected, Leads;
    BootIsLaunch(g, cfg, d, req);
    LaunchAfter(g, cfg, Apply(d, first), s, first, req);
    ApplyConcat(d, first, o.out);
    Arrived(g, cfg, d2, o.next, inputs, d3, e3, rest, more);
  }
}
