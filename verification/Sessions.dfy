/** The life of a session: runs that may be cut off at any effect, and decisions injected from outside. */
module Sessions {
  import opened Wrappers
  import opened Graph
  import opened State
  import opened Events
  import opened Disk
  import opened Machine
  import opened Invariants

  predicate DiskOk(g: PhaseGraph, d: Disk) {
    d.state.Some? ==> WellFormed(g, d.state.value)
  }

  // ---- Whole runs -----------------------------------------------------------------------------

  lemma {:induction false} ExecKeepsSound(g: PhaseGraph, cfg: Config, d: Disk, e: Engine, inputs: seq<Input>)
    requires ValidGraph(g) && Sound(g, d, e)
    ensures var r := Exec(g, cfg, d, e, inputs); Sound(g, r.disk, r.engine) && SavesOk(g, r.trace)
    decreases |inputs|
  {
    if inputs != [] && Running(e) {
      StepKeepsSound(g, cfg, d, e, inputs[0]);
      var o := Step(g, cfg, d, e, inputs[0]);
      ExecKeepsSound(g, cfg, Apply(d, o.out), o.next, inputs[1..]);
    }
  }

  lemma FreshIsWellFormed(g: PhaseGraph, req: RunRequest)
    requires ValidGraph(g)
    ensures WellFormed(g, FreshState(g, req))
  {
    GetFindsThePhase(g, g[0]);
  }

  /** The effects of starting a session: nothing, or the two files of a new session. */
  function InitialWrites(g: PhaseGraph, d: Disk, req: RunRequest): seq<Effect> {
    if d.state.None? then [StateWrite(FreshState(g, req)), RevisionWrite(0)] else []
  }

  lemma {:induction false} InitialWritesLand(g: PhaseGraph, d: Disk, req: RunRequest)
    ensures d.state.None? ==>
      Apply(d, InitialWrites(g, d, req)) == d.(state := Some(FreshState(g, req)), revision := Some(0))
    ensures d.state.Some? ==> Apply(d, InitialWrites(g, d, req)) == d
  {
    var out := InitialWrites(g, d, req);
    if d.state.None? {
      assert out[1..] == [out[1]] && out[1..][1..] == [];
      var d1 := ApplyEffect(d, out[0]);
      var d2 := ApplyEffect(d1, out[1]);
      assert Apply(d2, []) == d2;
      assert Apply(d1, out[1..]) == d2;
    }
  }

  predicate Rejected(d: Disk, req: RunRequest) {
    d.state.Some? && (!Loadable(d.state.value) || d.state.value.sessionId != req.sessionId)
  }

  function LoadedState(g: PhaseGraph, d: Disk, req: RunRequest): Stored {
    if d.state.None? then Stored(FreshState(g, req), 0) else Stored(d.state.value, ReadRevision(d))
  }

  /** Booting is launching whatever was loaded or initialized. */
  lemma {:induction false} BootIsLaunch(g: PhaseGraph, cfg: Config, d: Disk, req: RunRequest)
    ensures !Rejected(d, req) ==>
      var out := InitialWrites(g, d, req);
      Boot(g, cfg, d, req) == Launch(g, cfg, Apply(d, out), LoadedState(g, d, req), out, req)
    ensures Rejected(d, req) ==> Boot(g, cfg, d, req).out == [] && Boot(g, cfg, d, req).next.pc.Crashed?
  {
    if d.state.Some? { assert Apply(d, []) == d; }
  }

  /** The first save of a session. */
  lemma StartKeepsSound(g: PhaseGraph, cfg: Config, d: Disk, e: Engine, out: seq<Effect>, now: Time)
    returns (tail: seq<Effect>)
    requires ValidGraph(g) && WellFormed(g, e.held.state) && SavesOk(g, out)
    requires e.held.state.status.Initialized?
    ensures var e1 := Saved(e, Begin);
            var o := Conclude(g, cfg, e1, out + Written(e1), Begin, Enter, now);
            o.out == out + tail && SavesOk(g, o.out) && Sound(g, Apply(d, tail), o.next)
  {
    hide NumberedIterations, NumberedReviews, AutomatedChanges, Loadable, ValidGraph, Announce, EnterPhase, PcOk;
    var e1 := Saved(e, Begin);
    CommitKeepsWellFormed(g, e.held.state, Begin);
    var said := Announce(g, cfg, e1, Begin, now);
    AnnounceIsAftermath(g, cfg, e1, Begin, now);
    EnterPcOk(g, e1, out + Written(e1) + said, now);
    var end := EnterShape(g, e1, out + Written(e1) + said, now);
    var rest := said + end;
    OrderedIsNoSave([], rest);
    tail := Written(e1) + rest;
    SaveLands(d, [], e1.held, rest);
    assert [] + Written(e1) + rest == tail;
    OneSaveOk(g, [], e1.held, rest);
    assert out + Written(e1) + said + end == out + tail;
  }

  lemma ResumeKeepsSound(g: PhaseGraph, d: Disk, e: Engine, out: seq<Effect>, resumed: Event, now: Time)
    returns (tail: seq<Effect>)
    requires ValidGraph(g) && WellFormed(g, e.held.state) && SavesOk(g, out)
    requires d.state == Some(e.held.state) && ReadRevision(d) == e.held.revision
    ensures var o := EnterPhase(g, e, out + [Emit(resumed)], now);
            o.out == out + tail && SavesOk(g, o.out) && Sound(g, Apply(d, tail), o.next)
  {
    EnterPcOk(g, e, out + [Emit(resumed)], now);
    tail := [Emit(resumed)];
    NoSaveKeepsState(d, tail);
  }

  lemma LaunchKeepsSound(g: PhaseGraph, cfg: Config, d: Disk, s: Stored, out: seq<Effect>, req: RunRequest)
    returns (tail: seq<Effect>)
    requires ValidGraph(g) && WellFormed(g, s.state) && SavesOk(g, out)
    requires d.state == Some(s.state) && ReadRevision(d) == s.revision
    ensures var o := Launch(g, cfg, d, s, out, req);
            o.out == out + tail && SavesOk(g, o.out) && Sound(g, Apply(d, tail), o.next)
  {
    var o := Launch(g, cfg, d, s, out, req);
    var e := Fresh(Timed(s, req), Finished);
    var st := e.held.state;
    StartTimeKeepsWellFormed(g, s.state, st);
    if Terminal(st.status) || !req.preflight {
      tail := o.out[|out|..];
      assert o.out == out + tail;
      NoSaveKeepsState(d, tail);
    } else if st.status.Initialized? {
      tail := StartKeepsSound(g, cfg, d, e, out, req.now);
    } else {
      var p := Get(g, st.currentPhase).value;
      var resumed := RunResumed(st.sessionId, p.phaseId, p.roleId, p.kind, e.held.revision, req.now);
      tail := ResumeKeepsSound(g, d, e, out, resumed, req.now);
    }
  }

  lemma StartTimeKeepsWellFormed(g: PhaseGraph, st: SessionState, st': SessionState)
    requires WellFormed(g, st) && st' == st.(startedAt := st'.startedAt)
    ensures WellFormed(g, st')
  {
  }

  lemma {:induction false} BootKeepsSound(g: PhaseGraph, cfg: Config, d: Disk, req: RunRequest)
    requires ValidGraph(g) && DiskOk(g, d)
    ensures var o := Boot(g, cfg, d, req); Sound(g, Apply(d, o.out), o.next) && SavesOk(g, o.out)
  {
    var o := Boot(g, cfg, d, req);
    BootIsLaunch(g, cfg, d, req);
    if Rejected(d, req) {
      assert Apply(d, []) == d;
    } else {
      var out := InitialWrites(g, d, req);
      FreshIsWellFormed(g, req);
      InitialWritesLand(g, d, req);
      var s := LoadedState(g, d, req);
      var tail := LaunchKeepsSound(g, cfg, Apply(d, out), s, out, req);
      ApplyConcat(d, out, tail);
    }
  }

  /** Every snapshot a run saves is well formed, and so is the disk it leaves. */
  lemma {:induction false} SessionKeepsSound(g: PhaseGraph, cfg: Config, d: Disk, req: RunRequest, inputs: seq<Input>)
    requires ValidGraph(g) && DiskOk(g, d)
    ensures var r := Session(g, cfg, d, req, inputs);
            && Sound(g, r.disk, r.engine)
            && SavesOk(g, r.trace)
            && r.disk == Apply(d, r.trace)
  {
    BootKeepsSound(g, cfg, d, req);
    var o := Boot(g, cfg, d, req);
    ExecKeepsSound(g, cfg, Apply(d, o.out), o.next, inputs);
    ExecWritesItsTrace(g, cfg, Apply(d, o.out), o.next, inputs);
    ApplyConcat(d, o.out, Exec(g, cfg, Apply(d, o.out), o.next, inputs).trace);
  }

  /** A terminal session is never saved over: a later run returns it and does nothing. */
  lemma TerminalIsFinal(g: PhaseGraph, cfg: Config, d: Disk, req: RunRequest, inputs: seq<Input>)
    requires d.state.Some? && Terminal(d.state.value.status)
    ensures Session(g, cfg, d, req, inputs).trace == []
    ensures Session(g, cfg, d, req, inputs).disk == d
    ensures !Rejected(d, req) ==> Session(g, cfg, d, req, inputs).engine.pc.Finished?
  {
    assert Apply(d, []) == d;
  }

  // ---- Lives ----------------------------------------------------------------------------------

  /** One thing that happens to a session: a run, cut off after some number of effects when it crashes, or a
      human decision put in the place of a PENDING stub. */
  datatype Deed =
    | RunDeed(cfg: Config, req: RunRequest, inputs: seq<Input>, cut: nat)
    | DecideDeed(index: nat, entry: ReviewEntry, revision: nat)

  predicate Replaces(st: SessionState, index: nat, entry: ReviewEntry) {
    && index < |st.reviews|
    && st.reviews[index].decision == Some(Pending)
    && entry.phaseId == st.reviews[index].phaseId
    && entry.review == st.reviews[index].review
    && ValidReview(entry) && Decided(entry)
  }

  /** The effects of a run that reach the world before it is cut off. */
  function Surviving(g: PhaseGraph, d: Disk, deed: Deed): seq<Effect>
    requires deed.RunDeed?
  {
    var trace := Session(g, deed.cfg, d, deed.req, deed.inputs).trace;
    if deed.cut < |trace| then trace[..deed.cut] else trace
  }

  function Live(g: PhaseGraph, d: Disk, deed: Deed): Disk {
    match deed
    case RunDeed(_, _, _, _) => Apply(d, Surviving(g, d, deed))
    case DecideDeed(index, entry, revision) =>
      if d.state.Some? && Replaces(d.state.value, index, entry) then
        var st := d.state.value;
        d.(state := Some(st.(reviews := st.reviews[index := entry])), revision := Some(revision))
      else d
  }

  function LiveAll(g: PhaseGraph, d: Disk, deeds: seq<Deed>): Disk
    decreases |deeds|
  {
    if deeds == [] then d else LiveAll(g, Live(g, d, deeds[0]), deeds[1..])
  }

  // ---- Crashes --------------------------------------------------------------------------------

  lemma {:induction false} PrefixIsOk(g: PhaseGraph, d: Disk, trace: seq<Effect>)
    requires DiskOk(g, d) && SavesOk(g, trace)
    ensures DiskOk(g, Apply(d, trace))
    decreases |trace|
  {
    if trace != [] {
      assert trace[0] in trace;
      PrefixIsOk(g, ApplyEffect(d, trace[0]), trace[1..]);
    }
  }

  // ---- Decisions ------------------------------------------------------------------------------

  lemma {:induction false} SamePhasesSameCount(a: seq<ReviewEntry>, b: seq<ReviewEntry>, id: PhaseId)
    requires |a| == |b|
    requires forall i :: 0 <= i < |a| ==> a[i].phaseId == b[i].phaseId
    ensures CountReviews(a, id) == CountReviews(b, id)
  {
    if a != [] {
      SamePhasesSameCount(a[..|a| - 1], b[..|b| - 1], id);
    }
  }

  lemma {:induction false} SameChangesSameCount(g: PhaseGraph, a: seq<ReviewEntry>, b: seq<ReviewEntry>)
    requires |a| == |b|
    requires forall i :: 0 <= i < |a| ==> AutomatedChange(g, a[i]) == AutomatedChange(g, b[i])
    ensures AutomatedChanges(g, a) == AutomatedChanges(g, b)
  {
    if a != [] {
      SameChangesSameCount(g, a[..|a| - 1], b[..|b| - 1]);
    }
  }

  lemma DecisionKeepsNumbers(rs: seq<ReviewEntry>, index: nat, entry: ReviewEntry)
    requires NumberedReviews(rs) && index < |rs|
    requires entry.phaseId == rs[index].phaseId && entry.review == rs[index].review
    ensures NumberedReviews(rs[index := entry])
    ensures forall id :: CountReviews(rs[index := entry], id) == CountReviews(rs, id)
  {
    var rs' := rs[index := entry];
    forall i | 0 <= i < |rs| ensures rs'[i].review == CountReviews(rs'[..i], rs'[i].phaseId) + 1 {
      SamePhasesSameCount(rs'[..i], rs[..i], rs'[i].phaseId);
    }
    forall id ensures CountReviews(rs', id) == CountReviews(rs, id) {
      SamePhasesSameCount(rs', rs, id);
    }
  }

  /** Only human phases hold PENDING stubs, so a decision changes neither numbering nor the feedback count. */
  lemma DecisionKeepsWellFormed(g: PhaseGraph, st: SessionState, index: nat, entry: ReviewEntry)
    requires WellFormed(g, st) && Replaces(st, index, entry)
    ensures IsHuman(g, entry.phaseId)
    ensures WellFormed(g, st.(reviews := st.reviews[index := entry]))
  {
    hide NumberedReviews, NumberedIterations, IterationOk;
    assert ReviewOk(g, st.reviews[index]);
    DecisionKeepsNumbers(st.reviews, index, entry);
    SameChangesSameCount(g, st.reviews[index := entry], st.reviews);
  }

  lemma LiveKeepsOk(g: PhaseGraph, d: Disk, deed: Deed)
    requires ValidGraph(g) && DiskOk(g, d)
    ensures DiskOk(g, Live(g, d, deed))
  {
    match deed
    case RunDeed(cfg, req, inputs, cut) =>
      SessionKeepsSound(g, cfg, d, req, inputs);
      PrefixIsOk(g, d, Surviving(g, d, deed));
    case DecideDeed(index, entry, revision) =>
      if d.state.Some? && Replaces(d.state.value, index, entry) {
        DecisionKeepsWellFormed(g, d.state.value, index, entry);
      }
  }

  /** Over the whole life of a session, through any number of runs, pauses, crashes at any write and human
      decisions, what is on disk is well formed: it loads, completed_at is set exactly when the session is
      terminal, the current phase exists, numbers count 1..n per phase, and feedback_loops is the number of
      requests for changes made by automated reviewers. */
  lemma {:induction false} LifeKeepsWellFormed(g: PhaseGraph, d: Disk, deeds: seq<Deed>)
    requires ValidGraph(g) && DiskOk(g, d)
    ensures DiskOk(g, LiveAll(g, d, deeds))
    decreases |deeds|
  {
    if deeds != [] {
      LiveKeepsOk(g, d, deeds[0]);
      LifeKeepsWellFormed(g, Live(g, d, deeds[0]), deeds[1..]);
    }
  }
}
