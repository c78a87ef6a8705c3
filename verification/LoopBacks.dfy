/** Automated loop-backs over the whole life of a session: each uses up one request for changes below the cap. */
module LoopBacks {
  import opened Wrappers
  import opened Graph
  import opened State
  import opened Events
  import opened Disk
  import opened Machine
  import opened Invariants
  import opened Sessions
  import opened Termination
  import opened Refinement

  /** A save that sends the session on from an automated review phase whose last verdict asks for changes. */
  predicate SendsBack(g: PhaseGraph, before: SessionState, after: SessionState) {
    && before.status.InProgress?
    && after == before.(currentPhase := after.currentPhase)
    && before.reviews != []
    && var last := before.reviews[|before.reviews| - 1];
    AutomatedChange(g, last) && last.phaseId == before.currentPhase
  }

  function Hit(g: PhaseGraph, d: Disk, x: Effect): nat {
    if x.StateWrite? && d.state.Some? && SendsBack(g, d.state.value, x.state) then 1 else 0
  }

  /** How often a trace sends the session back, as seen on disk. */
  function SentBack(g: PhaseGraph, d: Disk, trace: seq<Effect>): nat
    decreases |trace|
  {
    if trace == [] then 0 else Hit(g, d, trace[0]) + SentBack(g, ApplyEffect(d, trace[0]), trace[1..])
  }

  function LifeSentBack(g: PhaseGraph, d: Disk, deeds: seq<Deed>): nat
    decreases |deeds|
  {
    if deeds == [] then 0
    else
      (if deeds[0].RunDeed? then SentBack(g, d, Surviving(g, d, deeds[0])) else 0) +
      LifeSentBack(g, Live(g, d, deeds[0]), deeds[1..])
  }

  function Loops(d: Disk): int { if d.state.Some? then d.state.value.feedbackLoops else 0 }

  /** The requests for changes still to come that could send the session back. */
  function Room(cap: int, loops: int): nat { if loops < cap - 1 then cap - 1 - loops else 0 }

  /** Wherever the trace is cut, what was sent back and what still could be fit the budget. */
  predicate Within(g: PhaseGraph, cap: int, d: Disk, trace: seq<Effect>, budget: int)
    decreases |trace|
  {
    && Room(cap, Loops(d)) <= budget
    && (trace != [] ==> Within(g, cap, ApplyEffect(d, trace[0]), trace[1..], budget - Hit(g, d, trace[0])))
  }

  lemma {:induction false} WithinConcat(g: PhaseGraph, cap: int, d: Disk, a: seq<Effect>, b: seq<Effect>, budget: int)
    requires Within(g, cap, d, a, budget)
    requires Within(g, cap, Apply(d, a), b, budget - SentBack(g, d, a))
    ensures Within(g, cap, d, a + b, budget)
    decreases |a|
  {
    hide Hit;
    if a == [] {
      assert a + b == b;
    } else {
      assert (a + b)[1..] == a[1..] + b;
      WithinConcat(g, cap, ApplyEffect(d, a[0]), a[1..], b, budget - Hit(g, d, a[0]));
    }
  }

  lemma {:induction false} SentBackConcat(g: PhaseGraph, d: Disk, a: seq<Effect>, b: seq<Effect>)
    ensures SentBack(g, d, a + b) == SentBack(g, d, a) + SentBack(g, Apply(d, a), b)
    decreases |a|
  {
    hide Hit;
    if a == [] {
      assert a + b == b;
    } else {
      assert (a + b)[1..] == a[1..] + b;
      SentBackConcat(g, ApplyEffect(d, a[0]), a[1..], b);
    }
  }

  /** What a cut trace has sent back fits. */
  lemma {:induction false} CutFits(g: PhaseGraph, cap: int, d: Disk, trace: seq<Effect>, budget: int, cut: nat)
    requires Within(g, cap, d, trace, budget) && cut <= |trace|
    ensures SentBack(g, d, trace[..cut]) + Room(cap, Loops(Apply(d, trace[..cut]))) <= budget
    decreases |trace|
  {
    hide Hit;
    if cut > 0 {
      assert trace[..cut][1..] == trace[1..][..cut - 1];
      CutFits(g, cap, ApplyEffect(d, trace[0]), trace[1..], budget - Hit(g, d, trace[0]), cut - 1);
    }
  }

  predicate Stateless(trace: seq<Effect>) {
    forall i :: 0 <= i < |trace| ==> !trace[i].StateWrite?
  }

  lemma {:induction false} StatelessFits(g: PhaseGraph, cap: int, d: Disk, trace: seq<Effect>, budget: int)
    requires Stateless(trace) && Room(cap, Loops(d)) <= budget
    ensures Within(g, cap, d, trace, budget) && SentBack(g, d, trace) == 0 && Apply(d, trace).state == d.state
    decreases |trace|
  {
    if trace != [] {
      StatelessFits(g, cap, ApplyEffect(d, trace[0]), trace[1..], budget);
    }
  }

  /** A trace that saves one snapshot. */
  lemma {:induction false} OneSaveFits(g: PhaseGraph, cap: int, d: Disk, before: seq<Effect>, st: SessionState,
                                       rest: seq<Effect>, budget: int)
    requires Stateless(before) && Stateless(rest)
    requires Room(cap, Loops(d)) <= budget
    requires Room(cap, st.feedbackLoops) <= budget - Hit(g, d, StateWrite(st))
    ensures var out := before + [StateWrite(st)] + rest;
            Within(g, cap, d, out, budget) && SentBack(g, d, out) == Hit(g, d, StateWrite(st))
  {
    hide SendsBack;
    StatelessFits(g, cap, d, before, budget);
    var d1 := Apply(d, before);
    var x := StateWrite(st);
    var tail := [x] + rest;
    assert tail[1..] == rest;
    StatelessFits(g, cap, ApplyEffect(d1, x), rest, budget - Hit(g, d1, x));
    WithinConcat(g, cap, d, before, tail, budget);
    SentBackConcat(g, d, before, tail);
    assert before + tail == before + [x] + rest;
  }

  // ---- Steps ----------------------------------------------------------------------------------

  /** What a running engine may still send back. */
  function Budget(cap: int, e: Engine): int {
    Room(cap, e.held.state.feedbackLoops) +
    if e.pc.ReviewDecide? && e.pc.decision.RequestChanges? && e.held.state.feedbackLoops < cap then 1 else 0
  }

  lemma {:induction false} StepFits(g: PhaseGraph, cap: int, cfg: Config, d: Disk, e: Engine, inp: Input)
    requires ValidGraph(g) && Sound(g, d, e) && Running(e) && TopCap(cfg, g) <= cap
    ensures var o := Step(g, cfg, d, e, inp);
            && Within(g, cap, d, o.out, Budget(cap, e))
            && (Running(o.next) ==> Budget(cap, o.next) <= Budget(cap, e) - SentBack(g, d, o.out))
  {
    hide ValidGraph, Step, PlanOf, Sound, WellFormed, PcOk, SendsBack, TopCap;
    var o := Step(g, cfg, d, e, inp);
    var before, tail := StepShape(g, cfg, d, e, inp);
    assert d.state == Some(e.held.state) by { SoundHolds(g, d, e); }
    OrderedIsNoSave(before, tail);
    if Commits(cfg, d, e, inp) {
      var rest := [RevisionWrite(o.next.held.revision)] + tail;
      CommitFits(g, cap, cfg, d, e, inp);
      OneSaveFits(g, cap, d, before, o.next.held.state, rest, Budget(cap, e));
      assert before + [StateWrite(o.next.held.state)] + rest == o.out;
    } else {
      StatelessFits(g, cap, d, o.out, Budget(cap, e));
      if Running(o.next) { QuietStepStays(g, cfg, d, e, inp); }
    }
  }

  lemma SoundHolds(g: PhaseGraph, d: Disk, e: Engine)
    requires Sound(g, d, e) && Running(e)
    ensures d.state == Some(e.held.state) && WellFormed(g, e.held.state) && PcOk(g, e) && e.held.state.status.InProgress?
  {
  }

  /** Without a commit the machine at most goes back to the loop top. */
  lemma QuietStepStays(g: PhaseGraph, cfg: Config, d: Disk, e: Engine, inp: Input)
    requires Running(e) && !Commits(cfg, d, e, inp) && Running(Step(g, cfg, d, e, inp).next)
    ensures Step(g, cfg, d, e, inp).next.held == e.held && !Step(g, cfg, d, e, inp).next.pc.ReviewDecide?
  {
    hide HumanDecision, HistoryFor, AfterIteration, ValidPayload, ResolveReview;
  }

  /** A commit that sends the session back is the transition after an automated request for changes below the
      cap; a request for changes takes the room of the loop-back it allows. */
  lemma {:induction false} CommitFits(g: PhaseGraph, cap: int, cfg: Config, d: Disk, e: Engine, inp: Input)
    requires ValidGraph(g) && Sound(g, d, e) && Commits(cfg, d, e, inp) && TopCap(cfg, g) <= cap
    ensures var n := Step(g, cfg, d, e, inp).next;
            var hit := if SendsBack(g, e.held.state, n.held.state) then 1 else 0;
            && Room(cap, n.held.state.feedbackLoops) <= Budget(cap, e) - hit
            && (Running(n) ==> Budget(cap, n) <= Budget(cap, e) - hit)
  {
    hide ValidGraph, Step, PlanOf, Sound, WellFormed, PcOk, SendsBack, TopCap, Legal;
    var n, c := Step(g, cfg, d, e, inp).next, CommitOf(cfg, d, e, inp);
    SoundHolds(g, d, e);
    PlanIsOk(g, cfg, d, e, inp);
    var before, tail := StepShape(g, cfg, d, e, inp);
    if c.Move? {
      MoveFits(g, cap, cfg, d, e, inp);
      MovesEnter(g, cfg, d, e, inp);
    } else {
      OnlyMovesSendBack(g, e.held.state, c);
      if Running(n) { StandsAfter(g, cfg, d, e, inp); }
    }
  }

  lemma OnlyMovesSendBack(g: PhaseGraph, st: SessionState, c: Commit)
    requires Legal(g, st, c) && !c.Move? && st.status.InProgress?
    ensures !SendsBack(g, st, ApplyCommit(st, c))
    ensures ApplyCommit(st, c).feedbackLoops ==
            st.feedbackLoops + if c.Judge? && c.payload.decision.RequestChanges? then 1 else 0
  {
  }

  /** After a verdict the machine is about to decide on that verdict; after any other commit it is not. */
  lemma StandsAfter(g: PhaseGraph, cfg: Config, d: Disk, e: Engine, inp: Input)
    requires Commits(cfg, d, e, inp) && Running(Step(g, cfg, d, e, inp).next)
    ensures var n, c := Step(g, cfg, d, e, inp).next, CommitOf(cfg, d, e, inp);
            n.pc.ReviewDecide? ==> c.Judge? && n.pc.decision == c.payload.decision && !e.pc.ReviewDecide?
  {
    hide HumanDecision, HistoryFor, Announce;
  }

  lemma MovesEnter(g: PhaseGraph, cfg: Config, d: Disk, e: Engine, inp: Input)
    requires Commits(cfg, d, e, inp) && CommitOf(cfg, d, e, inp).Move?
    ensures !Step(g, cfg, d, e, inp).next.pc.ReviewDecide?
  {
    hide HumanDecision, HistoryFor, AfterIteration, Announce;
  }

  lemma {:induction false} MoveFits(g: PhaseGraph, cap: int, cfg: Config, d: Disk, e: Engine, inp: Input)
    requires ValidGraph(g) && Sound(g, d, e) && Commits(cfg, d, e, inp) && TopCap(cfg, g) <= cap
    requires CommitOf(cfg, d, e, inp).Move?
    ensures SendsBack(g, e.held.state, ApplyCommit(e.held.state, CommitOf(cfg, d, e, inp))) ==>
      e.pc.ReviewDecide? && e.pc.decision.RequestChanges? && e.held.state.feedbackLoops < cap
  {
    hide ValidGraph, PlanOf, TopCap, NumberedIterations, NumberedReviews, AutomatedChanges, Loadable, IterationOk;
    var st, c := e.held.state, CommitOf(cfg, d, e, inp);
    if SendsBack(g, st, ApplyCommit(st, c)) {
      assert ReviewOk(g, st.reviews[|st.reviews| - 1]);
      if e.pc.ReviewTop? {
        PlanAtReviewTop(cfg, d, e, inp);
        ReviewTopShape(g, d, e, inp);
        DecisionHasNewestNumber(e, e.pc.phase);
        MovesOnlyByDecision(d, e, inp);
      } else if e.pc.ReviewDecide? {
        ReviewDecideShape(g, cfg, d, e, inp);
        TopCapCovers(cfg, g, st.currentPhase);
      }
    }
  }

  // ---- Runs and lives -------------------------------------------------------------------------

  lemma {:induction false} ExecFits(g: PhaseGraph, cap: int, cfg: Config, d: Disk, e: Engine, inputs: seq<Input>)
    requires ValidGraph(g) && Sound(g, d, e) && Running(e) && TopCap(cfg, g) <= cap
    ensures Within(g, cap, d, Exec(g, cfg, d, e, inputs).trace, Budget(cap, e))
    decreases |inputs|
  {
    hide ValidGraph, Step, Sound, TopCap, SentBack, Within, Budget, Apply;
    if inputs == [] {
      SoundHolds(g, d, e);
      RoomInBudget(cap, d, e);
      StatelessFits(g, cap, d, [], Budget(cap, e));
    } else {
      var o := Step(g, cfg, d, e, inputs[0]);
      var d1 := Apply(d, o.out);
      StepFits(g, cap, cfg, d, e, inputs[0]);
      StepKeepsSound(g, cfg, d, e, inputs[0]);
      var rest := Exec(g, cfg, d1, o.next, inputs[1..]).trace;
      if Running(o.next) {
        ExecFits(g, cap, cfg, d1, o.next, inputs[1..]);
        MoreBudgetFits(g, cap, d1, rest, Budget(cap, o.next), Budget(cap, e) - SentBack(g, d, o.out));
        WithinConcat(g, cap, d, o.out, rest, Budget(cap, e));
      } else {
        assert o.out + [] == o.out;
      }
    }
  }

  lemma RoomInBudget(cap: int, d: Disk, e: Engine)
    requires d.state == Some(e.held.state)
    ensures Room(cap, Loops(d)) <= Budget(cap, e)
  {
  }

  lemma {:induction false} MoreBudgetFits(g: PhaseGraph, cap: int, d: Disk, trace: seq<Effect>, less: int, more: int)
    requires Within(g, cap, d, trace, less) && less <= more
    ensures Within(g, cap, d, trace, more)
    decreases |trace|
  {
    hide Hit;
    if trace != [] {
      MoreBudgetFits(g, cap, ApplyEffect(d, trace[0]), trace[1..], less - Hit(g, d, trace[0]), more - Hit(g, d, trace[0]));
    }
  }

  /** Starting or resuming a run sends nothing back. */
  lemma {:induction false} LaunchFits(g: PhaseGraph, cap: int, cfg: Config, d: Disk, s: Stored, req: RunRequest)
    requires d.state == Some(s.state)
    ensures var o := Launch(g, cfg, d, s, [], req);
            && Within(g, cap, d, o.out, Room(cap, s.state.feedbackLoops))
            && SentBack(g, d, o.out) == 0
            && o.next.held.state.feedbackLoops == s.state.feedbackLoops
            && !o.next.pc.ReviewDecide?
  {
    hide Launch, Announce, SendsBack;
    LaunchCases(g, cfg, d, s, req);
    var o, e := Launch(g, cfg, d, s, [], req), Fresh(Timed(s, req), Finished);
    var budget := Room(cap, s.state.feedbackLoops);
    if s.state.status.Initialized? && req.preflight && SaveError(d, e.held.revision).None? {
      var n := Saved(e, Begin);
      var t := SaveAndTell(g, cfg, d, e, Begin, req.now);
      AnnounceIsAftermath(g, cfg, n, Begin, req.now);
      var rest := [RevisionWrite(n.held.revision)] +
                  (if KnownPhase(g, n.held.state, Begin) then Announce(g, cfg, n, Begin, req.now) else []) +
                  Tail(g, t.exit, t.memory, req.now);
      BeginSendsNothingBack(g, s.state, n.held.state);
      OneSaveFits(g, cap, d, [], n.held.state, rest, budget);
      assert [] + [StateWrite(n.held.state)] + rest == o.out;
    } else {
      StatelessFits(g, cap, d, o.out, budget);
    }
  }

  lemma BeginSendsNothingBack(g: PhaseGraph, before: SessionState, after: SessionState)
    requires !before.status.InProgress?
    ensures !SendsBack(g, before, after)
  {
  }

  lemma {:induction false} SessionFits(g: PhaseGraph, cap: int, cfg: Config, d: Disk, req: RunRequest,
                                       inputs: seq<Input>)
    requires ValidGraph(g) && DiskOk(g, d) && TopCap(cfg, g) <= cap
    ensures Within(g, cap, d, Session(g, cfg, d, req, inputs).trace, Room(cap, Loops(d)))
  {
    hide ValidGraph, TopCap, WellFormed, Launch, Boot, Exec, Rejected, Hit, SentBack, Within;
    var budget := Room(cap, Loops(d));
    if Rejected(d, req) {
      SessionRejected(g, cfg, d, req, inputs);
      StatelessFits(g, cap, d, [], budget);
    } else {
      var first, s := InitialWrites(g, d, req), LoadedState(g, d, req);
      var d1 := Apply(d, first);
      BootIsLaunch(g, cfg, d, req);
      InitialWritesLand(g, d, req);
      FirstFits(g, cap, d, req);
      LaunchAfter(g, cfg, d1, s, first, req);
      LaunchFits(g, cap, cfg, d1, s, req);
      var o, boot := Launch(g, cfg, d1, s, [], req), Boot(g, cfg, d, req);
      WithinConcat(g, cap, d, first, o.out, budget);
      SentBackConcat(g, d, first, o.out);
      BootKeepsSound(g, cfg, d, req);
      var d2 := Apply(d, boot.out);
      var rest := Exec(g, cfg, d2, boot.next, inputs).trace;
      if Running(boot.next) {
        ExecFits(g, cap, cfg, d2, boot.next, inputs);
        WithinConcat(g, cap, d, boot.out, rest, budget);
      } else {
        Stopped(g, cfg, d2, boot.next, inputs);
        assert boot.out + [] == boot.out;
      }
    }
  }

  lemma {:induction false} FirstFits(g: PhaseGraph, cap: int, d: Disk, req: RunRequest)
    ensures Within(g, cap, d, InitialWrites(g, d, req), Room(cap, Loops(d)))
    ensures SentBack(g, d, InitialWrites(g, d, req)) == 0
  {
    hide SendsBack;
    if d.state.None? {
      var st := FreshState(g, req);
      OneSaveFits(g, cap, d, [], st, [RevisionWrite(0)], Room(cap, 0));
      assert [] + [StateWrite(st)] + [RevisionWrite(0)] == InitialWrites(g, d, req);
    } else {
      StatelessFits(g, cap, d, [], Room(cap, Loops(d)));
    }
  }

  predicate CapsWithin(g: PhaseGraph, cap: int, deeds: seq<Deed>) {
    forall i :: 0 <= i < |deeds| && deeds[i].RunDeed? ==> CapsAtMost(deeds[i].cfg, g, cap)
  }

  /** Over the whole life of a session, through any runs, pauses, crashes at any write, resumes and human
      decisions, the automated reviewers send it back at most cap - 1 times, where in no run an automated phase has
      feedback rounds left at `cap`. */
  lemma {:induction false} LoopBacksAreCapped(g: PhaseGraph, cap: nat, d: Disk, deeds: seq<Deed>)
    requires ValidGraph(g) && DiskOk(g, d) && CapsWithin(g, cap, deeds)
    ensures LifeSentBack(g, d, deeds) <= Room(cap, Loops(d))
    ensures d.state.None? ==> LifeSentBack(g, d, deeds) <= if cap > 1 then cap - 1 else 0
    decreases |deeds|
  {
    hide ValidGraph, WellFormed, TopCap, CapsAtMost, Session, SentBack, Within;
    if deeds != [] {
      var deed := deeds[0];
      LiveKeepsOk(g, d, deed);
      LoopBacksAreCapped(g, cap, Live(g, d, deed), deeds[1..]);
      if deed.RunDeed? {
        var trace := Session(g, deed.cfg, d, deed.req, deed.inputs).trace;
        TopCapIsLeast(deed.cfg, g, cap);
        SessionFits(g, cap, deed.cfg, d, deed.req, deed.inputs);
        var cut := if deed.cut < |trace| then deed.cut else |trace|;
        CutFits(g, cap, d, trace, Room(cap, Loops(d)), cut);
        assert Surviving(g, d, deed) == trace[..cut];
      }
    }
  }
}
