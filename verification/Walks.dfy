/** Every way through the graph is taken by some life of a session, so that lives end exactly where no way leads to
    a forward cycle that avoids the human gates. */
module Walks {
  import opened Wrappers
  import opened Graph
  import opened State
  import opened Events
  import opened Disk
  import opened Machine
  import opened Invariants
  import opened Sessions
  import opened Cycles
  import opened Termination
  import opened Traps
  import opened Ways
  import opened Replay
  import opened HumanGate

  /** A session that has come along a way: it stands at its end, has spent its cost, and has reviews only of the
      phases before. */
  ghost predicate Stands(g: PhaseGraph, d: Disk, way: seq<PhaseId>) {
    && way != [] && d.state.Some? && DiskOk(g, d)
    && var st := d.state.value;
    && st.sessionId == "s" && st.status.InProgress?
    && st.currentPhase == way[|way| - 1]
    && st.feedbackLoops == Cost(g, way)
    && Readable(st, d.files)
    && forall id :: id !in way[..|way| - 1] ==> CountReviews(st.reviews, id) == 0
  }

  // ---- Deeds ----------------------------------------------------------------------------------

  lemma {:induction false} LiveAllConcat(g: PhaseGraph, d: Disk, a: seq<Deed>, b: seq<Deed>)
    ensures LiveAll(g, d, a + b) == LiveAll(g, LiveAll(g, d, a), b)
    decreases |a|
  {
    hide Live;
    if a == [] {
      assert a + b == b;
    } else {
      assert (a + b)[1..] == a[1..] + b;
      LiveAllConcat(g, Live(g, d, a[0]), a[1..], b);
    }
  }

  lemma {:induction false} OneDeed(g: PhaseGraph, d: Disk, deed: Deed)
    ensures LiveAll(g, d, [deed]) == Live(g, d, deed)
  {
    hide Live;
    assert [deed][1..] == [];
    assert LiveAll(g, Live(g, d, deed), []) == Live(g, d, deed);
  }

  /** A run that is not cut off early. */
  function WholeRun(g: PhaseGraph, cfg: Config, d: Disk, inputs: seq<Input>): Deed {
    RunDeed(cfg, ANYTIME, inputs, |Session(g, cfg, d, ANYTIME, inputs).trace|)
  }

  lemma WholeRunIsSession(g: PhaseGraph, cfg: Config, d: Disk, inputs: seq<Input>)
    requires ValidGraph(g) && DiskOk(g, d)
    ensures Live(g, d, WholeRun(g, cfg, d, inputs)) == Session(g, cfg, d, ANYTIME, inputs).disk
  {
    hide ValidGraph, DiskOk, Session;
    SessionKeepsSound(g, cfg, d, ANYTIME, inputs);
    var trace := Session(g, cfg, d, ANYTIME, inputs).trace;
    assert trace[..|trace|] == trace;
  }

  /** The engine of a run that resumes a session on a way. */
  function Resumed(g: PhaseGraph, cfg: Config, d: Disk): Engine {
    Boot(g, cfg, d, ANYTIME).next
  }

  lemma {:induction false} StandingResumes(g: PhaseGraph, cfg: Config, d: Disk)
    requires ValidGraph(g) && DiskOk(g, d) && d.state.Some?
    requires d.state.value.status.InProgress? && d.state.value.sessionId == "s"
    ensures var e := Resumed(g, cfg, d);
            && Sound(g, d, e) && Running(e)
            && e == Fresh(Stored(d.state.value, ReadRevision(d)), e.pc)
            && Enters(g, e, d.state.value.currentPhase)
            && (forall inputs :: Session(g, cfg, d, ANYTIME, inputs).disk == Exec(g, cfg, d, e, inputs).disk)
  {
    hide ValidGraph, Boot, Exec, IterationOk, ReviewOk, NumberedIterations, NumberedReviews, AutomatedChanges, Loadable,
      PcOk;
    BootKeepsSound(g, cfg, d, ANYTIME);
    ResumesAt(g, cfg, d, ANYTIME);
  }

  // ---- The first phase ------------------------------------------------------------------------

  lemma Begins(g: PhaseGraph, cfg: Config) returns (deeds: seq<Deed>)
    requires ValidGraph(g)
    ensures Settings(cfg, deeds) && Stands(g, LiveAll(g, EMPTY_DISK, deeds), [g[0].phaseId])
  {
    assert g != [];
    hide ValidGraph, Boot, Exec, Readable, WellFormed;
    var deed := WholeRun(g, cfg, EMPTY_DISK, []);
    deeds := [deed];
    OneDeed(g, EMPTY_DISK, deed);
    WholeRunIsSession(g, cfg, EMPTY_DISK, []);
    LiveKeepsOk(g, EMPTY_DISK, deed);
    var o := Boot(g, cfg, EMPTY_DISK, ANYTIME);
    NoSteps(g, cfg, Apply(EMPTY_DISK, o.out), o.next);
    BootBegins(g, cfg);
    assert Cost(g, [g[0].phaseId]) == 0;
  }

  lemma {:induction false} NoSteps(g: PhaseGraph, cfg: Config, d: Disk, e: Engine)
    ensures Exec(g, cfg, d, e, []) == Run(d, e, [])
  {
  }

  lemma BootBegins(g: PhaseGraph, cfg: Config)
    requires ValidGraph(g)
    ensures var d := Apply(EMPTY_DISK, Boot(g, cfg, EMPTY_DISK, ANYTIME).out);
            && d.state == Some(FreshState(g, ANYTIME).(status := InProgress))
            && Readable(d.state.value, d.files)
  {
    hide ValidGraph, Apply, Announce, EnterPhase, Abort;
    var created := Stored(FreshState(g, ANYTIME), 0);
    var out := InitialWrites(g, EMPTY_DISK, ANYTIME);
    InitialWritesLand(g, EMPTY_DISK, ANYTIME);
    var d := Apply(EMPTY_DISK, out);
    BootIsLaunch(g, cfg, EMPTY_DISK, ANYTIME);
    assert Timed(created, ANYTIME) == created;
    var e1 := Saved(Fresh(created, Finished), Begin);
    var tail := ConcludeShape(g, cfg, e1, out + Written(e1), Begin, Enter, 0);
    AskingIsGroundwork();
    OrderedIsNoSave([], tail);
    ApplyConcat(EMPTY_DISK, out + Written(e1), tail);
    ApplyConcat(EMPTY_DISK, out, Written(e1));
    WritesBoth(d, e1.held);
    NoSaveKeepsState(Apply(d, Written(e1)), tail);
    Crash.AftermathIsSafe(g, Apply(d, Written(e1)), tail);
  }

  // ---- One move -------------------------------------------------------------------------------

  lemma {:induction false} OneStep(g: PhaseGraph, cfg: Config, d: Disk, e: Engine, inp: Input)
    requires Running(e)
    ensures var o := Step(g, cfg, d, e, inp);
            Exec(g, cfg, d, e, [inp]).disk == Apply(d, o.out) && Exec(g, cfg, d, e, [inp]).engine == o.next
  {
    hide Step;
    assert [inp][1..] == [];
  }

  lemma {:induction false} TwoSteps(g: PhaseGraph, cfg: Config, d: Disk, e: Engine, a: Input, b: Input)
    requires Running(e)
    ensures var o := Step(g, cfg, d, e, a);
            Exec(g, cfg, d, e, [a, b]).disk == Exec(g, cfg, Apply(d, o.out), o.next, [b]).disk
  {
    hide Step;
    assert [a, b][1..] == [b];
  }

  /** The role does its work, and the engine moves on. */
  lemma {:induction false} WorksAndMoves(g: PhaseGraph, cfg: Config, d: Disk, e: Engine, work: Input, q: PhaseId)
    requires ValidGraph(g) && Reachable(cfg) && Sound(g, d, e) && Running(e) && Readable(e.held.state, d.files)
    requires Modest(work) && Get(g, q).Some?
    requires ReadyFor(cfg, Step(g, cfg, d, e, work).next, q)
    ensures var end := Exec(g, cfg, d, e, [work, Contented("", q)]).disk;
            && end.state == Some(Step(g, cfg, d, e, work).next.held.state.(currentPhase := q))
            && Readable(end.state.value, end.files)
            && end.state.value.status.InProgress?
  {
    hide ValidGraph, Step, WellFormed, PcOk, Readable, Exec, Modest;
    var go := Contented("", q);
    assert Modest(go) by { ContentedIsModest("", q); }
    var o := Step(g, cfg, d, e, work);
    var d1 := Apply(d, o.out);
    StepKeepsSound(g, cfg, d, e, work);
    StaysReadable(g, cfg, d, e, work);
    TwoSteps(g, cfg, d, e, work, go);
    OneStep(g, cfg, d1, o.next, go);
    MovesOnward(g, cfg, d1, o.next, go, q);
    StepKeepsSound(g, cfg, d1, o.next, go);
    StaysReadable(g, cfg, d1, o.next, go);
  }

  lemma ContentedIsModest(roleId: string, t: PhaseId)
    ensures Modest(Contented(roleId, t)) && Modest(Critical(roleId, t))
  {
  }

  /** An automated phase moves on in one run. */
  lemma AutomatedHop(g: PhaseGraph, cfg: Config, d: Disk, way: seq<PhaseId>, q: PhaseId) returns (deeds: seq<Deed>)
    requires ValidGraph(g) && Reachable(cfg) && Stands(g, d, way)
    requires Onward(g, cfg, way[|way| - 1], q, Cost(g, way)) && Get(g, q).Some?
    requires var p := Get(g, way[|way| - 1]).value; !(p.kind.ReviewKind? && p.human)
    requires way[|way| - 1] !in way[..|way| - 1]
    ensures Settings(cfg, deeds) && Stands(g, LiveAll(g, d, deeds), way + [q])
  {
    hide ValidGraph, Step, WellFormed, PcOk, Readable, Exec, Session, Boot, LiveAll, Live, Reachable, Sound;
    var id := way[|way| - 1];
    var e := Resumed(g, cfg, d);
    StandingResumes(g, cfg, d);
    var work := AutomatedWork(g, cfg, d, e, way, q);
    WorksAndMoves(g, cfg, d, e, work, q);
    var inputs := [work, Contented("", q)];
    var deed := WholeRun(g, cfg, d, inputs);
    deeds := [deed];
    OneDeed(g, d, deed);
    WholeRunIsSession(g, cfg, d, inputs);
    LiveKeepsOk(g, d, deed);
    LongerCost(g, way, q);
    assert (way + [q])[..|way|] == way;
    var st, st' := d.state.value, Exec(g, cfg, d, e, inputs).disk.state.value;
    forall x | x !in way ensures CountReviews(st'.reviews, x) == 0 {
      assert x !in way[..|way| - 1] && x != id;
      MoreReviews(st.reviews, st'.reviews, id, x);
    }
  }

  lemma {:induction false} LongerCost(g: PhaseGraph, way: seq<PhaseId>, q: PhaseId)
    requires way != []
    ensures Cost(g, way + [q]) == Cost(g, way) + CostOf(g, way[|way| - 1], q)
  {
    assert (way + [q])[..|way|] == way;
  }

  /** The reviews are the same, or one more of a phase. */
  predicate Grown(a: seq<ReviewEntry>, b: seq<ReviewEntry>, id: PhaseId) {
    a == b || (|b| == |a| + 1 && b[..|a|] == a && b[|a|].phaseId == id)
  }

  lemma {:induction false} MoreReviews(a: seq<ReviewEntry>, b: seq<ReviewEntry>, id: PhaseId, x: PhaseId)
    requires Grown(a, b, id) && x != id
    ensures CountReviews(b, x) == CountReviews(a, x)
  {
    if a != b {
      assert b == a + [b[|a|]];
      CountReviewsAppend(a, b[|a|], x);
    }
  }

  /** What the role of an automated phase must answer to go on. */
  lemma AutomatedWork(g: PhaseGraph, cfg: Config, d: Disk, e: Engine, way: seq<PhaseId>, q: PhaseId)
    returns (work: Input)
    requires ValidGraph(g) && Stands(g, d, way) && Sound(g, d, e) && Enters(g, e, way[|way| - 1])
    requires e.held.state == d.state.value
    requires Onward(g, cfg, way[|way| - 1], q, Cost(g, way))
    requires var p := Get(g, way[|way| - 1]).value; !(p.kind.ReviewKind? && p.human)
    ensures Modest(work)
    ensures var n := Step(g, cfg, d, e, work).next;
            && ReadyFor(cfg, n, q)
            && Grown(e.held.state.reviews, n.held.state.reviews, way[|way| - 1])
            && n.held.state.feedbackLoops == Cost(g, way) + CostOf(g, way[|way| - 1], q)
            && n.held.state.sessionId == "s"
  {
    hide ValidGraph, Step, Readable, IterationOk, ReviewOk, NumberedIterations, NumberedReviews, AutomatedChanges, Loadable;
    var p := e.pc.phase;
    GetIsValid(g, p.phaseId);
    ContentedIsModest(p.roleId, q);
    if p.kind.ExecutorKind? {
      work := Contented(p.roleId, q);
      IterationOfContented(g, cfg, d, e, q);
    } else {
      DecisionHasNewestNumber(e, p);
      if q in p.onApprove {
        work := Contented(p.roleId, q);
        VerdictOfContented(g, cfg, d, e, q);
      } else {
        work := Critical(p.roleId, q);
        VerdictOfCritical(g, cfg, d, e, q);
      }
    }
  }

  // ---- A human phase --------------------------------------------------------------------------

  lemma {:induction false} NoneCounted(rs: seq<ReviewEntry>, id: PhaseId)
    requires CountReviews(rs, id) == 0
    ensures forall i :: 0 <= i < |rs| ==> rs[i].phaseId != id
  {
    if rs != [] {
      NoneCounted(rs[..|rs| - 1], id);
      assert forall i :: 0 <= i < |rs| - 1 ==> rs[..|rs| - 1][i] == rs[i];
    }
  }

  /** The first arrival writes the first stub of the phase. */
  lemma {:induction false} FirstStub(g: PhaseGraph, cfg: Config, d: Disk, e: Engine)
    requires ValidGraph(g) && Sound(g, d, e) && e.pc.ReviewTop? && e.pc.phase.human
    requires CountReviews(e.held.state.reviews, e.pc.phase.phaseId) == 0 && Readable(e.held.state, d.files)
    ensures var d1 := Exec(g, cfg, d, e, [Contented("", "")]).disk;
            var stub := StubFor(e.held.state, e.pc.phase, 0);
            && stub.review == 1
            && d1.state == Some(e.held.state.(reviews := e.held.state.reviews + [stub]))
            && Readable(d1.state.value, d1.files)
  {
    hide ValidGraph, Step, WellFormed, Readable, FindDecided;
    var inp := Contented("", "");
    SoundNumbers(g, d, e);
    DecisionHasNewestNumber(e, e.pc.phase);
    ArrivalWritesOneStub(g, cfg, d, e, inp);
    var before, tail := StepShape(g, cfg, d, e, inp);
    OneStep(g, cfg, d, e, inp);
    ContentedIsModest("", "");
    StaysReadable(g, cfg, d, e, inp);
  }

  lemma SoundNumbers(g: PhaseGraph, d: Disk, e: Engine)
    requires Sound(g, d, e) && Running(e)
    ensures NumberedReviews(e.held.state.reviews)
  {
    hide PcOk, NumberedReviews, NumberedIterations;
  }

  /** The decision that a run is to find on the first stub of a phase. */
  function Verdict(stub: ReviewEntry, decision: Decision, q: PhaseId): ReviewEntry {
    stub.(decision := Some(decision), targetPhase := Some(q))
  }

  /** A decision on the only stub of a phase drives the move it names. */
  lemma {:induction false} DecisionDrives(g: PhaseGraph, cfg: Config, d: Disk, e: Engine, entry: ReviewEntry,
                                          rs: seq<ReviewEntry>, q: PhaseId)
    requires ValidGraph(g) && Sound(g, d, e) && e.pc.ReviewTop? && e.pc.phase.human && e.applied == {}
    requires e.held.state.reviews == rs + [entry] && CountReviews(rs, e.pc.phase.phaseId) == 0
    requires entry.phaseId == e.pc.phase.phaseId && entry.review == 1 && Decided(entry) && entry.targetPhase == Some(q)
    requires q in if entry.decision == Some(Approve) then e.pc.phase.onApprove else e.pc.phase.canRequestChangesFrom
    requires Get(g, q).Some? && Readable(e.held.state, d.files)
    ensures var d1 := Exec(g, cfg, d, e, [Contented("", q)]).disk;
            && d1.state == Some(e.held.state.(currentPhase := q))
            && Readable(d1.state.value, d1.files)
  {
    hide ValidGraph, Step, WellFormed, Readable, HumanDecision;
    var inp := Contented("", q);
    SoundNumbers(g, d, e);
    FindsTheDecision(e, entry, rs);
    ChosenResolves(if entry.decision == Some(Approve) then e.pc.phase.onApprove else e.pc.phase.canRequestChangesFrom, q);
    DecisionCommits(cfg, d, e, inp, entry, q);
    var before, tail := StepShape(g, cfg, d, e, inp);
    OneStep(g, cfg, d, e, inp);
    ContentedIsModest("", q);
    StaysReadable(g, cfg, d, e, inp);
  }

  lemma {:induction false} FindsTheDecision(e: Engine, entry: ReviewEntry, rs: seq<ReviewEntry>)
    requires e.pc.ReviewTop? && e.pc.phase.human && e.applied == {} && NumberedReviews(e.held.state.reviews)
    requires e.held.state.reviews == rs + [entry] && CountReviews(rs, e.pc.phase.phaseId) == 0
    requires entry.phaseId == e.pc.phase.phaseId && entry.review == 1 && Decided(entry)
    ensures HumanDecision(e, e.pc.phase) == Some(entry)
  {
    hide FindDecided, NumberedReviews;
    DecisionHasNewestNumber(e, e.pc.phase);
    CountReviewsAppend(rs, entry, e.pc.phase.phaseId);
    NoneCounted(rs, e.pc.phase.phaseId);
    var found := FindDecided(rs + [entry], e.pc.phase.phaseId, 1);
    assert (rs + [entry])[|rs|] == entry;
  }

  lemma DecisionCommits(cfg: Config, d: Disk, e: Engine, inp: Input, entry: ReviewEntry, q: PhaseId)
    requires e.pc.ReviewTop? && HumanDecision(e, e.pc.phase) == Some(entry)
    requires entry.targetPhase == Some(q) && Decided(entry)
    requires var targets := if entry.decision == Some(Approve) then e.pc.phase.onApprove
                            else e.pc.phase.canRequestChangesFrom;
             q in targets && ResolveTarget(targets, Some(q)) == Success(Some(q))
    requires SaveError(d, e.held.revision).None?
    ensures Commits(cfg, d, e, inp) && CommitOf(cfg, d, e, inp) == Move(e.pc.phase.phaseId, q)
  {
    hide HumanDecision;
  }

  /** A human phase moves on in two runs, with a decision in between. */
  lemma HumanHop(g: PhaseGraph, cfg: Config, d: Disk, way: seq<PhaseId>, q: PhaseId) returns (deeds: seq<Deed>)
    requires ValidGraph(g) && Stands(g, d, way)
    requires Onward(g, cfg, way[|way| - 1], q, Cost(g, way)) && Get(g, q).Some?
    requires var p := Get(g, way[|way| - 1]).value; p.kind.ReviewKind? && p.human
    requires way[|way| - 1] !in way[..|way| - 1]
    ensures Settings(cfg, deeds) && Stands(g, LiveAll(g, d, deeds), way + [q])
  {
    hide ValidGraph, Step, WellFormed, PcOk, Exec, Session, Boot, LiveAll, Live, Sound, Readable, ValidReview;
    var id, st := way[|way| - 1], d.state.value;
    var p := Get(g, id).value;
    var e := Resumed(g, cfg, d);
    StandingResumes(g, cfg, d);
    FirstStub(g, cfg, d, e);
    var stub := StubFor(st, p, 0);
    var arrive := WholeRun(g, cfg, d, [Contented("", "")]);
    WholeRunIsSession(g, cfg, d, [Contented("", "")]);
    LiveKeepsOk(g, d, arrive);
    var d1 := Live(g, d, arrive);

    var entry := Verdict(stub, if q in p.onApprove then Approve else RequestChanges, q);
    var decide := DecideDeed(|st.reviews|, entry, ReadRevision(d1));
    DecideLands(d1, st, stub, entry, g);
    LiveKeepsOk(g, d1, decide);
    var d2 := Live(g, d1, decide);

    var f := Resumed(g, cfg, d2);
    StandingResumes(g, cfg, d2);
    DecisionDrives(g, cfg, d2, f, entry, st.reviews, q);
    var leave := WholeRun(g, cfg, d2, [Contented("", q)]);
    WholeRunIsSession(g, cfg, d2, [Contented("", q)]);
    LiveKeepsOk(g, d2, leave);
    var d3 := Live(g, d2, leave);

    deeds := [arrive, decide, leave];
    assert deeds == [arrive] + [decide] + [leave];
    OneDeed(g, d, arrive);
    OneDeed(g, d1, decide);
    OneDeed(g, d2, leave);
    LiveAllConcat(g, d, [arrive], [decide]);
    LiveAllConcat(g, d, [arrive] + [decide], [leave]);
    LongerCost(g, way, q);
    assert (way + [q])[..|way|] == way;
    forall x | x !in way ensures CountReviews(st.reviews + [entry], x) == 0 {
      assert x !in way[..|way| - 1] && x != id;
      CountReviewsAppend(st.reviews, entry, x);
    }
  }

  lemma DecideLands(d1: Disk, st: SessionState, stub: ReviewEntry, entry: ReviewEntry, g: PhaseGraph)
    requires d1.state == Some(st.(reviews := st.reviews + [stub])) && Readable(d1.state.value, d1.files)
    requires stub.decision == Some(Pending) && 1 <= stub.review && stub.confidenceScore.None? && stub.findingsRef.None?
    requires entry == stub.(decision := entry.decision, targetPhase := entry.targetPhase) && Decided(entry)
    ensures var d2 := Live(g, d1, DecideDeed(|st.reviews|, entry, ReadRevision(d1)));
            && d2.state == Some(st.(reviews := st.reviews + [entry]))
            && Readable(d2.state.value, d2.files)
  {
    assert (st.reviews + [stub])[|st.reviews| := entry] == st.reviews + [entry];
    assert forall i :: 0 <= i < |st.reviews| ==> (st.reviews + [entry])[i] == (st.reviews + [stub])[i];
  }

  // ---- Walking --------------------------------------------------------------------------------

  /** Every way is taken by a life. */
  lemma {:induction false} Walk(g: PhaseGraph, cfg: Config, way: seq<PhaseId>) returns (deeds: seq<Deed>)
    requires ValidGraph(g) && Reachable(cfg) && Way(g, cfg, way)
    ensures Settings(cfg, deeds) && Stands(g, LiveAll(g, EMPTY_DISK, deeds), way)
    decreases |way|
  {
    hide ValidGraph, Reachable, Stands, Onward, LiveAll;
    if |way| == 1 {
      deeds := Begins(g, cfg);
      assert way == [g[0].phaseId];
    } else {
      var front, q := way[..|way| - 1], way[|way| - 1];
      var first := Walk(g, cfg, front);
      var d := LiveAll(g, EMPTY_DISK, first);
      var more := Hop(g, cfg, d, front, q);
      deeds := first + more;
      LiveAllConcat(g, EMPTY_DISK, first, more);
      assert front + [q] == way;
    }
  }

  lemma Hop(g: PhaseGraph, cfg: Config, d: Disk, way: seq<PhaseId>, q: PhaseId) returns (deeds: seq<Deed>)
    requires ValidGraph(g) && Reachable(cfg) && Way(g, cfg, way) && Stands(g, d, way)
    requires Onward(g, cfg, way[|way| - 1], q, Cost(g, way))
    ensures Settings(cfg, deeds) && Stands(g, LiveAll(g, d, deeds), way + [q])
  {
    hide ValidGraph, Reachable, Stands, LiveAll, Cost;
    var p := Get(g, way[|way| - 1]).value;
    TargetsExist(g, way[|way| - 1], q) by { OnwardIsATarget(g, cfg, way[|way| - 1], q, Cost(g, way)); }
    EndIsNew(g, cfg, way);
    if p.kind.ReviewKind? && p.human {
      deeds := HumanHop(g, cfg, d, way, q);
    } else {
      deeds := AutomatedHop(g, cfg, d, way, q);
    }
  }

  lemma {:induction false} OnwardIsATarget(g: PhaseGraph, cfg: Config, id: PhaseId, q: PhaseId, loops: int)
    requires Onward(g, cfg, id, q, loops)
    ensures q in AllTargets(Get(g, id).value)
  {
  }

  lemma {:induction false} EndIsNew(g: PhaseGraph, cfg: Config, way: seq<PhaseId>)
    requires Way(g, cfg, way)
    ensures way[|way| - 1] !in way[..|way| - 1]
  {
    hide Onward, Cost;
  }

  // ---- Lives end exactly when -----------------------------------------------------------------

  /** A run that spins in a trap some way leads to. */
  lemma VisitedTrapSpins(g: PhaseGraph, cfg: Config, ids: set<PhaseId>, id: PhaseId, way: seq<PhaseId>, n: nat)
    returns (deeds: seq<Deed>, inputs: seq<Input>)
    requires ValidGraph(g) && Reachable(cfg) && Trap(g, ids) && Way(g, cfg, way) && EndsAt(way, id) && id in ids
    ensures Settings(cfg, deeds) && |inputs| == n
    ensures Running(Session(g, cfg, LiveAll(g, EMPTY_DISK, deeds), ANYTIME, inputs).engine)
  {
    hide ValidGraph, Reachable, Trap, Way, Step, LiveAll, Boot, Exec, WellFormed, Readable, Cost;
    deeds := Walk(g, cfg, way);
    var d := LiveAll(g, EMPTY_DISK, deeds);
    StandingResumes(g, cfg, d);
    FreeInTrap(g, ids, id);
    var e := Resumed(g, cfg, d);
    inputs := SpinOn(g, cfg, ids, d, e, n);
    ResumesAtStanding(g, cfg, d);
  }

  lemma {:induction false} ResumesAtStanding(g: PhaseGraph, cfg: Config, d: Disk)
    requires ValidGraph(g) && DiskOk(g, d) && d.state.Some?
    requires d.state.value.status.InProgress? && d.state.value.sessionId == "s"
    ensures forall inputs ::
      Session(g, cfg, d, ANYTIME, inputs).engine == Exec(g, cfg, d, Resumed(g, cfg, d), inputs).engine
  {
    hide ValidGraph, Boot, Exec, IterationOk, ReviewOk, NumberedIterations, NumberedReviews, AutomatedChanges, Loadable;
    ResumesAt(g, cfg, d, ANYTIME);
  }

  /** A trap that some way touches lies, where ways go, on ways. */
  lemma TouchedTrap(g: PhaseGraph, cfg: Config, ids: set<PhaseId>, id: PhaseId)
    requires Trap(g, ids) && id in ids && Visitable(g, cfg, id)
    ensures Trap(g, ids * Land(g, cfg)) && ids * Land(g, cfg) <= Land(g, cfg)
  {
    hide Way, FreeIds, Visitable, LeadsInto, Everywhere;
    var land := Land(g, cfg);
    TrapIsSomewhere(g, ids);
    assert id in ids * land;
    forall x | x in ids * land ensures LeadsInto(g, x, ids * land) {
      assert LeadsInto(g, x, ids);
      WayStaysInTrap(g, cfg, ids, x);
    }
  }

  lemma LeadsIntoBy(g: PhaseGraph, x: PhaseId, t: PhaseId, ids: set<PhaseId>)
    requires t in WaysOn(g, x) && t in ids
    ensures LeadsInto(g, x, ids)
  {
    hide WaysOn;
  }

  lemma ForwardIsVisitable(g: PhaseGraph, cfg: Config, x: PhaseId, t: PhaseId)
    requires Visitable(g, cfg, x) && t in WaysOn(g, x)
    ensures Visitable(g, cfg, t)
  {
    hide Way, Cost;
    var way :| Way(g, cfg, way) && EndsAt(way, x);
    var cost := Cost(g, way);
    assert Visits(g, cfg, x, cost);
    GoingOn(g, cfg, x, t, cost);
  }

  lemma WayStaysInTrap(g: PhaseGraph, cfg: Config, ids: set<PhaseId>, x: PhaseId)
    requires Trap(g, ids) && x in ids && Visitable(g, cfg, x)
    ensures LeadsInto(g, x, ids * Land(g, cfg))
  {
    hide WaysOn, Visitable, FreeIds, Everywhere;
    assert LeadsInto(g, x, ids);
    TrapIsSomewhere(g, ids);
    var t := WayInto(g, x, ids);
    ForwardIsVisitable(g, cfg, x, t);
    hide LeadsInto;
    LeadsIntoBy(g, x, t, ids * Land(g, cfg));
  }

  /** A set of phases without a human gate each of which leads on inside the set, and a way that leads to it. */
  ghost predicate VisitedTrap(g: PhaseGraph, cfg: Config, ids: set<PhaseId>, id: PhaseId) {
    Trap(g, ids) && id in ids && Visitable(g, cfg, id)
  }

  lemma LoopFreeLandHasNone(g: PhaseGraph, cfg: Config, ids: set<PhaseId>, id: PhaseId)
    requires ValidGraph(g) && VisitedTrap(g, cfg, ids, id)
    ensures !LoopFreeIn(g, Land(g, cfg))
  {
    assert g != [];
    hide ValidGraph, Trap, LoopFreeIn, Visitable, Land;
    TouchedTrap(g, cfg, ids, id);
    LoopFreeIffNoTrapIn(g, Land(g, cfg));
  }

  lemma OtherLandHasOne(g: PhaseGraph, cfg: Config) returns (ids: set<PhaseId>, id: PhaseId)
    requires ValidGraph(g) && !LoopFreeIn(g, Land(g, cfg))
    ensures VisitedTrap(g, cfg, ids, id)
  {
    assert g != [];
    hide ValidGraph, Trap, LoopFreeIn, Visitable, Land;
    LoopFreeIffNoTrapIn(g, Land(g, cfg));
    ids :| Trap(g, ids) && ids <= Land(g, cfg);
    id := TrapMember(g, cfg, ids);
  }

  lemma TrapMember(g: PhaseGraph, cfg: Config, ids: set<PhaseId>) returns (id: PhaseId)
    requires Trap(g, ids) && ids <= Land(g, cfg)
    ensures id in ids && Visitable(g, cfg, id)
  {
    hide Way, LeadsInto, FreeIds;
    id :| id in ids;
    assert id in Land(g, cfg);
  }

  lemma NoBoundHolds(g: PhaseGraph, cfg: Config, ids: set<PhaseId>, id: PhaseId, bound: nat)
    requires ValidGraph(g) && Reachable(cfg) && VisitedTrap(g, cfg, ids, id)
    ensures !LivesHaltWithin(g, cfg, bound)
  {
    hide ValidGraph, Reachable, Trap, Way, LiveAll, Session;
    var way :| Way(g, cfg, way) && EndsAt(way, id);
    var deeds, inputs := VisitedTrapSpins(g, cfg, ids, id, way, bound);
  }

  /** The lives of sessions begun on a graph end, whatever roles, controller, clock, crashes and humans do, within a
      bound on the steps of each run, if and only if no way through the graph leads to a trap. */
  lemma LivesEndExactlyWhen(g: PhaseGraph, cfg: Config)
    requires ValidGraph(g) && Reachable(cfg)
    ensures (exists bound :: LivesHaltWithin(g, cfg, bound)) <==> !exists ids, id :: VisitedTrap(g, cfg, ids, id)
  {
    hide ValidGraph, Reachable, LoopFreeIn, VisitedTrap, LivesHaltWithin, Land, StepBound;
    if LoopFreeIn(g, Land(g, cfg)) {
      LoopFreeLivesEnd(g, cfg);
      forall ids, id | VisitedTrap(g, cfg, ids, id) ensures false {
        LoopFreeLandHasNone(g, cfg, ids, id);
      }
    } else {
      var ids, id := OtherLandHasOne(g, cfg);
      forall bound | LivesHaltWithin(g, cfg, bound) ensures false {
        NoBoundHolds(g, cfg, ids, id, bound);
      }
    }
  }
}
