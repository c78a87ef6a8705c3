/** Events fire after the durable commit they report, and carry the revision the store has at that moment. */
module Durability {
  import opened Wrappers
  import opened Graph
  import opened State
  import opened Events
  import opened Disk
  import opened Machine
  import opened Invariants
  import opened Sessions
  import opened Replay

  function LastIteration(st: SessionState): Option<IterationEntry> {
    if st.iterations == [] then None else Some(st.iterations[|st.iterations| - 1])
  }

  function LastReview(st: SessionState): Option<ReviewEntry> {
    if st.reviews == [] then None else Some(st.reviews[|st.reviews| - 1])
  }

  /** The stored snapshot and revision already contain what the event reports. */
  predicate Stands(st: SessionState, revision: nat, ev: Event) {
    && ev.revision == revision
    && ev.sessionId == st.sessionId
    && match ev
       case RunStarted(_, id, _, _, _) => st.status.InProgress? && st.currentPhase == id
       case RunResumed(_, id, _, _, _, _) => st.status.InProgress? && st.currentPhase == id
       case PhaseStarted(_, id, _, _, _, _) => st.currentPhase == id
       case IterationCommitted(_, id, role, number, score, loops, _, startedAt, endedAt, _, handoff, _) =>
         && LastIteration(st) == Some(IterationEntry(number, id, role, score, startedAt, endedAt, handoff))
         && loops == st.feedbackLoops
       case ReviewCommitted(_, id, role, number, decision, score, loops, _, _, endedAt, target, _, findings, _) =>
         && LastReview(st) ==
            Some(ReviewEntry(number, id, role, Some(decision), target, Some(score), Some(endedAt), findings))
         && loops == st.feedbackLoops
       case HumanReviewPending(_, id, role, number, _, at) =>
         LastReview(st) == Some(ReviewEntry(number, id, role, Some(Pending), None, None, Some(at), None))
       case PhaseTransitioned(_, _, _, target, _, _, _) => st.currentPhase == target
       case RunCompleted(_, status, loops, _, startedAt, at, _) =>
         st.status == status && st.completedAt == Some(at) && loops == st.feedbackLoops && startedAt == st.startedAt
       case RunFailed(_, id, _, _, _, _) => st.currentPhase == id
  }

  predicate OnDisk(d: Disk, ev: Event) {
    d.state.Some? && Stands(d.state.value, ReadRevision(d), ev)
  }

  /** Every event of a trace is on disk when it is emitted. */
  predicate Truthful(d: Disk, trace: seq<Effect>)
    decreases |trace|
  {
    trace != [] ==>
      (trace[0].Emit? ==> OnDisk(d, trace[0].event)) && Truthful(ApplyEffect(d, trace[0]), trace[1..])
  }

  lemma {:induction false} TruthfulConcat(d: Disk, a: seq<Effect>, b: seq<Effect>)
    requires Truthful(d, a) && Truthful(Apply(d, a), b)
    ensures Truthful(d, a + b)
    decreases |a|
  {
    hide OnDisk;
    if a == [] {
      assert a + b == b;
    } else {
      assert (a + b)[1..] == a[1..] + b;
      TruthfulConcat(ApplyEffect(d, a[0]), a[1..], b);
    }
  }

  lemma {:induction false} SilentIsTruthful(d: Disk, trace: seq<Effect>)
    requires forall i :: 0 <= i < |trace| ==> !trace[i].Emit?
    ensures Truthful(d, trace)
    decreases |trace|
  {
    if trace != [] {
      SilentIsTruthful(ApplyEffect(d, trace[0]), trace[1..]);
    }
  }

  lemma {:induction false} TailIsTruthful(d: Disk, tail: seq<Effect>)
    requires Aftermath(tail)
    requires forall ev :: ev in EventsOf(tail) ==> OnDisk(d, ev)
    ensures Truthful(d, tail)
    decreases |tail|
  {
    hide Stands, OnDisk, EventsOf;
    if tail != [] {
      var d1 := ApplyEffect(d, tail[0]);
      FirstOrLater(tail);
      forall ev ensures OnDisk(d1, ev) == OnDisk(d, ev) {
        SameStateFiles(d, d1, ev);
      }
      TailIsTruthful(d1, tail[1..]);
    }
  }

  lemma {:induction false} FirstOrLater(tail: seq<Effect>)
    requires tail != []
    ensures tail[0].Emit? ==> tail[0].event in EventsOf(tail)
    ensures forall ev :: ev in EventsOf(tail[1..]) ==> ev in EventsOf(tail)
  {
    if tail[0].Emit? { assert EventsOf(tail)[0] == tail[0].event; }
  }

  lemma SameStateFiles(d: Disk, d1: Disk, ev: Event)
    requires d1.state == d.state && d1.revision == d.revision
    ensures OnDisk(d1, ev) == OnDisk(d, ev)
  {
  }

  // ---- Steps ----------------------------------------------------------------------------------

  lemma SaidStands(g: PhaseGraph, st: SessionState, n: Engine, c: Commit, now: Time)
    requires Legal(g, st, c) && n.held.state == ApplyCommit(st, c) && KnownPhase(g, n.held.state, c)
    ensures forall ev :: ev in Said(g, n, c, now) ==> Stands(n.held.state, n.held.revision, ev)
  {
    var said := Said(g, n, c, now);
    forall i | 0 <= i < |said| ensures Stands(n.held.state, n.held.revision, said[i]) {
    }
  }

  lemma EndStands(g: PhaseGraph, n: Engine, end: seq<Event>)
    requires EndsWell(g, n, end)
    ensures forall ev :: ev in end ==> Stands(n.held.state, n.held.revision, ev)
  {
  }

  lemma {:induction false} StepIsTruthful(g: PhaseGraph, cfg: Config, d: Disk, e: Engine, inp: Input)
    requires ValidGraph(g) && Sound(g, d, e) && Running(e)
    ensures Truthful(d, Step(g, cfg, d, e, inp).out)
  {
    hide PlanOf, Step, ValidGraph, WellFormed, Said, Legal, Stands, EndsWell, PcOk;
    var o := Step(g, cfg, d, e, inp);
    var before, tail := StepShape(g, cfg, d, e, inp);
    var end := StepSays(g, cfg, d, e, inp);
    EndStands(g, o.next, end);
    SilentBefore(before);
    SilentIsTruthful(d, before);
    OrderedIsNoSave(before, tail);
    NoSaveKeepsState(d, before);
    if Commits(cfg, d, e, inp) {
      CommitIsKnown(g, cfg, d, e, inp);
      SaidStands(g, e.held.state, o.next, CommitOf(cfg, d, e, inp), inp.now);
      var w := Written(o.next);
      SilentBefore(w);
      SilentIsTruthful(Apply(d, before), w);
      EventsOfConcat(before + w, tail);
      EventsOfConcat(before, w);
      TruthfulConcat(d, before, w);
      EmptyIsOrdered();
      SaveLands(d, before, o.next.held, []);
      assert before + w + [] == before + w;
      assert EventsOf(tail) == EventsOf(o.out);
      assert Apply(d, before + w).state == Some(o.next.held.state);
      TailIsTruthful(Apply(d, before + w), tail);
      TruthfulConcat(d, before + w, tail);
    } else {
      EventsOfConcat(before, tail);
      TailIsTruthful(Apply(d, before), tail);
      TruthfulConcat(d, before, tail);
    }
  }

  lemma EmptyIsOrdered()
    ensures NoSave([])
  {
  }

  lemma {:induction false} ExecIsTruthful(g: PhaseGraph, cfg: Config, d: Disk, e: Engine, inputs: seq<Input>)
    requires ValidGraph(g) && Sound(g, d, e)
    ensures Truthful(d, Exec(g, cfg, d, e, inputs).trace)
    decreases |inputs|
  {
    hide Step, ValidGraph, Sound, OnDisk;
    if inputs != [] && Running(e) {
      var o := Step(g, cfg, d, e, inputs[0]);
      StepIsTruthful(g, cfg, d, e, inputs[0]);
      StepKeepsSound(g, cfg, d, e, inputs[0]);
      ExecIsTruthful(g, cfg, Apply(d, o.out), o.next, inputs[1..]);
      TruthfulConcat(d, o.out, Exec(g, cfg, Apply(d, o.out), o.next, inputs[1..]).trace);
    }
  }

  // ---- Runs -----------------------------------------------------------------------------------

  lemma StartIsTruthful(g: PhaseGraph, cfg: Config, d: Disk, e: Engine, now: Time)
    returns (tail: seq<Effect>)
    requires WellFormed(g, e.held.state) && e.held.state.status.Initialized?
    ensures var e1 := Saved(e, Begin);
            && (forall out :: Conclude(g, cfg, e1, out + Written(e1), Begin, Enter, now).out == out + tail)
            && Truthful(d, tail)
  {
    hide WellFormed, Stands, EnterPhase, Announce;
    var e1 := Saved(e, Begin);
    BeginIsLegal(g, e.held.state);
    var w := Written(e1);
    var said := Announce(g, cfg, e1, Begin, now);
    EnterOut(g, e1, [], now);
    tail := w + said;
    forall out ensures Conclude(g, cfg, e1, out + w, Begin, Enter, now).out == out + tail {
      EnterOut(g, e1, out + w + said, now);
      assert out + w + said == out + tail;
    }
    AnnounceSays(g, cfg, e1, Begin, now);
    SaidStands(g, e.held.state, e1, Begin, now);
    AnnounceIsAftermath(g, cfg, e1, Begin, now);
    SilentIsTruthful(d, w);
    EmptyIsOrdered();
    SaveLands(d, [], e1.held, []);
    assert [] + w + [] == w;
    TailIsTruthful(Apply(d, w), said);
    TruthfulConcat(d, w, said);
  }

  lemma BeginIsLegal(g: PhaseGraph, st: SessionState)
    requires WellFormed(g, st) && st.status.Initialized?
    ensures Legal(g, st, Begin) && KnownPhase(g, ApplyCommit(st, Begin), Begin)
  {
  }

  lemma LaunchIsTruthful(g: PhaseGraph, cfg: Config, d: Disk, s: Stored, out: seq<Effect>, req: RunRequest)
    returns (tail: seq<Effect>)
    requires WellFormed(g, s.state) && d.state == Some(s.state) && ReadRevision(d) == s.revision
    ensures Launch(g, cfg, d, s, out, req).out == out + tail && Truthful(d, tail)
  {
    hide EnterPhase, Announce, IterationOk, ReviewOk, NumberedIterations, NumberedReviews, Conclude;
    var e := Fresh(Timed(s, req), Finished);
    var st := e.held.state;
    var p := Get(g, st.currentPhase).value;
    if Terminal(st.status) {
      tail := [];
      assert out + [] == out;
    } else if !req.preflight {
      tail := [Emit(RunFailed(st.sessionId, p.phaseId, p.roleId, e.held.revision, req.now, ConfigurationError))];
      EventsOfOne(tail[0]);
      TailIsTruthful(d, tail);
    } else if st.status.Initialized? {
      StartTimeKeepsWellFormed(g, s.state, st);
      tail := StartIsTruthful(g, cfg, d, e, req.now);
    } else {
      var resumed := Emit(RunResumed(st.sessionId, p.phaseId, p.roleId, p.kind, e.held.revision, req.now));
      tail := [resumed];
      EnterOut(g, e, out + tail, req.now);
      EventsOfOne(resumed);
      TailIsTruthful(d, tail);
    }
  }

  /** Every event of a run is emitted after the save it reports: at that moment the disk holds a snapshot that
      contains it, at the revision the event carries. */
  lemma {:induction false} RunIsTruthful(g: PhaseGraph, cfg: Config, d: Disk, req: RunRequest, inputs: seq<Input>)
    requires ValidGraph(g) && DiskOk(g, d)
    ensures Truthful(d, Session(g, cfg, d, req, inputs).trace)
  {
    hide ValidGraph, Exec, Boot, Launch, WellFormed, OnDisk;
    BootIsLaunch(g, cfg, d, req);
    var o := Boot(g, cfg, d, req);
    if !Rejected(d, req) {
      var out := InitialWrites(g, d, req);
      var d1 := Apply(d, out);
      InitialWritesLand(g, d, req);
      FreshIsWellFormed(g, req);
      var tail := LaunchIsTruthful(g, cfg, d1, LoadedState(g, d, req), out, req);
      SilentIsTruthful(d, out);
      TruthfulConcat(d, out, tail);
    }
    BootKeepsSound(g, cfg, d, req);
    ExecIsTruthful(g, cfg, Apply(d, o.out), o.next, inputs);
    TruthfulConcat(d, o.out, Exec(g, cfg, Apply(d, o.out), o.next, inputs).trace);
  }
}
