/** What several engines on one session can still spoil. Artifacts are written before the save is checked, so a
    stale engine can overwrite what a committed reference loads. Here is exactly when it does. */
module Rivals {
  import opened Wrappers
  import opened Graph
  import opened State
  import opened Events
  import opened Names
  import opened Disk
  import opened Machine
  import opened Invariants
  import opened Sessions
  import opened Termination
  import opened Crash
  import opened Writers
  import opened Solo

  function FileAt(d: Disk, ref: Ref): Option<Document> {
    if ref in d.files then Some(d.files[ref]) else None
  }

  /** A turn changes what some committed reference loads. */
  ghost predicate Spoils(g: PhaseGraph, w: World, t: Turn) {
    exists ref :: DiskRef(g, w.disk, ref) && FileAt(TakeTurn(g, w, t).disk, ref) != FileAt(w.disk, ref)
  }

  // ---- The entry that took a number -----------------------------------------------------------

  /** The handoff stored for the n-th iteration of a phase. */
  function IterationRef(its: seq<IterationEntry>, id: PhaseId, n: int): (r: Option<Ref>)
    ensures r.Some? ==> exists k ::
      0 <= k < |its| && its[k].phaseId == id && its[k].iteration == n && its[k].handoffRef == r
    ensures r.None? ==> forall k ::
      0 <= k < |its| && its[k].phaseId == id && its[k].iteration == n ==> its[k].handoffRef.None?
  {
    if its == [] then None
    else
      var last := |its| - 1;
      if its[last].phaseId == id && its[last].iteration == n && its[last].handoffRef.Some? then its[last].handoffRef
      else IterationRef(its[..last], id, n)
  }

  /** The decision stored for the n-th review of a phase. */
  function ReviewRef(rs: seq<ReviewEntry>, id: PhaseId, n: int): (r: Option<Ref>)
    ensures r.Some? ==> exists k ::
      0 <= k < |rs| && rs[k].phaseId == id && rs[k].review == n && rs[k].findingsRef == r
    ensures r.None? ==> forall k ::
      0 <= k < |rs| && rs[k].phaseId == id && rs[k].review == n ==> rs[k].findingsRef.None?
  {
    if rs == [] then None
    else
      var last := |rs| - 1;
      if rs[last].phaseId == id && rs[last].review == n && rs[last].findingsRef.Some? then rs[last].findingsRef
      else ReviewRef(rs[..last], id, n)
  }

  /** The stored session counts more entries of the phase than the engine does. */
  predicate Overtaken(st: SessionState, e: Engine)
    requires e.pc.ExecTop? || e.pc.ReviewTop?
  {
    var id := e.pc.phase.phaseId;
    if e.pc.ExecTop? then CountIterations(e.held.state.iterations, id) < CountIterations(st.iterations, id)
    else CountReviews(e.held.state.reviews, id) < CountReviews(st.reviews, id)
  }

  /** The reference of the stored entry that has the number the engine is about to give. */
  function Taken(st: SessionState, e: Engine): Option<Ref>
    requires e.pc.ExecTop? || e.pc.ReviewTop?
  {
    var id := e.pc.phase.phaseId;
    if e.pc.ExecTop? then IterationRef(st.iterations, id, CountIterations(e.held.state.iterations, id) + 1)
    else ReviewRef(st.reviews, id, CountReviews(e.held.state.reviews, id) + 1)
  }

  /** The engine owes an artifact that another engine has already committed with another content: it is behind
      the store, the store counts more entries of its phase than it does, the entry with its next number has an
      artifact, and the stored document is not the one it is about to write. */
  predicate Tramples(w: World, i: nat) {
    && i < |w.writers|
    && var wr := w.writers[i];
    && wr.todo != [] && wr.todo[0].ArtifactWrite?
    && (wr.engine.pc.ExecTop? || wr.engine.pc.ReviewTop?)
    && w.disk.state.Some?
    && wr.engine.held.revision < ReadRevision(w.disk)
    && Overtaken(w.disk.state.value, wr.engine)
    && Taken(w.disk.state.value, wr.engine).Some?
    && FileAt(w.disk, wr.todo[0].ref) != Some(wr.todo[0].document)
  }

  lemma {:induction false} HandoffIsTaken(g: PhaseGraph, st: SessionState, id: PhaseId, n: nat)
    requires ApartIds(g) && WellFormed(g, st) && Get(g, id).Some?
    ensures RefOf(g, st, HandoffName(id, n)) <==> IterationRef(st.iterations, id, n).Some?
    ensures IterationRef(st.iterations, id, n).Some? ==> n <= CountIterations(st.iterations, id)
  {
    hide Loadable, AutomatedChanges, ApartIds, IterationRef, HandoffName, DecisionName;
    var ref := HandoffName(id, n);
    if IterationRef(st.iterations, id, n).Some? {
      var k :| 0 <= k < |st.iterations| && st.iterations[k].phaseId == id && st.iterations[k].iteration == n
               && st.iterations[k].handoffRef == IterationRef(st.iterations, id, n);
      assert IterationOk(g, st.iterations[k]);
      IterationNumbersBounded(st.iterations, k);
      assert HandoffRefOf(st, ref);
    }
    if HandoffRefOf(st, ref) {
      var k :| 0 <= k < |st.iterations| && st.iterations[k].handoffRef == Some(ref);
      var e := st.iterations[k];
      assert IterationOk(g, e);
      KnownAreApart(g, id, e.phaseId);
      ArtifactNamesInjective(id, n, e.phaseId, e.iteration);
    }
    if DecisionRefOf(g, st, ref) {
      var k :| 0 <= k < |st.reviews| && !IsHuman(g, st.reviews[k].phaseId) && st.reviews[k].findingsRef == Some(ref);
      var r := st.reviews[k];
      assert ReviewOk(g, r);
      KnownAreApart(g, id, r.phaseId);
      ArtifactNamesInjective(id, n, r.phaseId, r.review);
    }
  }

  lemma {:induction false} DecisionIsTaken(g: PhaseGraph, st: SessionState, id: PhaseId, n: nat)
    requires ApartIds(g) && WellFormed(g, st) && Get(g, id).Some? && !IsHuman(g, id)
    ensures RefOf(g, st, DecisionName(id, n)) <==> ReviewRef(st.reviews, id, n).Some?
    ensures ReviewRef(st.reviews, id, n).Some? ==> n <= CountReviews(st.reviews, id)
  {
    hide Loadable, AutomatedChanges, ApartIds, ReviewRef, HandoffName, DecisionName;
    var ref := DecisionName(id, n);
    if ReviewRef(st.reviews, id, n).Some? {
      var k :| 0 <= k < |st.reviews| && st.reviews[k].phaseId == id && st.reviews[k].review == n
               && st.reviews[k].findingsRef == ReviewRef(st.reviews, id, n);
      assert ReviewOk(g, st.reviews[k]);
      NumbersAreBounded(st.reviews, k);
      assert DecisionRefOf(g, st, ref);
    }
    if DecisionRefOf(g, st, ref) {
      var k :| 0 <= k < |st.reviews| && !IsHuman(g, st.reviews[k].phaseId) && st.reviews[k].findingsRef == Some(ref);
      var r := st.reviews[k];
      assert ReviewOk(g, r);
      KnownAreApart(g, id, r.phaseId);
      ArtifactNamesInjective(id, n, r.phaseId, r.review);
    }
    if HandoffRefOf(st, ref) {
      var k :| 0 <= k < |st.iterations| && st.iterations[k].handoffRef == Some(ref);
      var e := st.iterations[k];
      assert IterationOk(g, e);
      KnownAreApart(g, id, e.phaseId);
      ArtifactNamesInjective(e.phaseId, e.iteration, id, n);
    }
  }

  // ---- Exactly when a turn spoils -------------------------------------------------------------

  /** The file an engine is about to write is a committed one exactly when its number is taken. */
  lemma NextFileIsTaken(g: PhaseGraph, d: Disk, history: seq<SessionState>, e: Engine, x: Effect)
    requires ApartIds(g) && Chain(g, history) && Recorded(d, history) && Running(e) && Holds(g, history, e)
    requires x.ArtifactWrite? && NextFile(e, x)
    ensures d.state.Some? && (e.pc.ExecTop? || e.pc.ReviewTop?)
    ensures DiskRef(g, d, x.ref) <==> Taken(d.state.value, e).Some?
    ensures Taken(d.state.value, e).Some? ==>
      Overtaken(d.state.value, e) && e.held.revision < ReadRevision(d)
  {
    hide ApartIds, WellFormed, RefOf, IterationRef, ReviewRef, HandoffName, DecisionName;
    var st, id := d.state.value, e.pc.phase.phaseId;
    GetFinds(g, e.held.state.currentPhase);
    if e.pc.ExecTop? {
      HandoffIsTaken(g, st, id, CountIterations(e.held.state.iterations, id) + 1);
    } else {
      DecisionIsTaken(g, st, id, CountReviews(e.held.state.reviews, id) + 1);
    }
  }

  /** Any move but the write of an artifact leaves the files alone. */
  lemma OthersKeepFiles(g: PhaseGraph, w: World, i: nat, inp: Input)
    requires ValidGraph(g) && Linear(g, w) && i < |w.writers|
    requires w.writers[i].todo == [] || !w.writers[i].todo[0].ArtifactWrite?
    ensures TakeTurn(g, w, Moves(i, inp)).disk.files == w.disk.files
  {
    hide ValidGraph, Chain, Recorded, Holds, PlanOf, Perform, Launch, Saving, Groundwork, Aftermath, NextFiles, Settled,
      InitialWrites;
    var wr := w.writers[i];
    assert WriterOk(g, w.history, wr);
    NothingDone(w.disk);
    if wr.todo != [] {
      OneMore(w.disk, [], wr.todo[0]);
    } else {
      match wr.intent
      case Creating(_) =>
      case Reading(_, _) =>
      case Launching(req, found) =>
        LaunchingLands(g, wr.cfg, w.disk, found, req, w.history);
        LandingKeeps(g, w.disk, w.history, wr, Launch(g, wr.cfg, w.disk, found, [], req));
      case Thinking =>
      case Settling(plan, now) =>
        SettlingLands(g, wr.cfg, w.disk, wr.engine, plan, now, w.history);
        LandingKeeps(g, w.disk, w.history, wr, Perform(g, wr.cfg, w.disk, MarkApplied(wr.engine), plan, now));
    }
  }

  lemma WriteIsNext(g: PhaseGraph, w: World, i: nat)
    requires Linear(g, w) && i < |w.writers| && w.writers[i].todo != [] && w.writers[i].todo[0].ArtifactWrite?
    ensures var wr := w.writers[i];
            Running(wr.engine) && Holds(g, w.history, wr.engine) && NextFile(wr.engine, wr.todo[0])
  {
    hide Chain, Recorded, Holds, NextFile, Settled;
    assert WriterOk(g, w.history, w.writers[i]);
  }

  /** In every schedule, a turn changes what a committed reference loads exactly when it is the artifact write of
      an engine that another one has overtaken at its phase, and the content differs. Iterations and automated
      verdicts alike. */
  lemma SpoilsExactlyWhen(g: PhaseGraph, w: World, t: Turn)
    requires ValidGraph(g) && ApartIds(g) && Linear(g, w)
    ensures Spoils(g, w, t) <==> t.Moves? && Tramples(w, t.writer)
  {
    hide ValidGraph, ApartIds, Act, DiskRef, Taken, Overtaken, Holds, NextFile, Chain, Recorded;
    if t.Moves? && t.writer < |w.writers| {
      var wr := w.writers[t.writer];
      if wr.todo != [] && wr.todo[0].ArtifactWrite? {
        var x := wr.todo[0];
        WriteIsNext(g, w, t.writer);
        NextFileIsTaken(g, w.disk, w.history, wr.engine, x);
        WriteTurn(g, w, t.writer, t.inp);
        var w' := TakeTurn(g, w, t);
        if Tramples(w, t.writer) {
          assert FileAt(w'.disk, x.ref) == Some(x.document);
        }
        forall ref | ref != x.ref ensures FileAt(w'.disk, ref) == FileAt(w.disk, ref) {
        }
      } else {
        OthersKeepFiles(g, w, t.writer, t.inp);
      }
    }
  }

  lemma WriteTurn(g: PhaseGraph, w: World, i: nat, inp: Input)
    requires i < |w.writers| && w.writers[i].todo != [] && w.writers[i].todo[0].ArtifactWrite?
    ensures var x := w.writers[i].todo[0];
            TakeTurn(g, w, Moves(i, inp)).disk == w.disk.(files := w.disk.files[x.ref := x.document])
  {
    OneMore(w.disk, [], w.writers[i].todo[0]);
  }

  // ---- When an engine comes to owe an artifact ------------------------------------------------

  /** The executor is called and hands over a document. */
  predicate HandsOver(d: Disk, e: Engine, inp: Input) {
    && e.pc.ExecTop? && inp.signal.Continue?
    && HistoryFor(d, e.held.state, e.pc.phase.phaseId).Success?
    && inp.execution.Returned?
    && ValidOutput(e.pc.phase, inp.execution.value.roleId, inp.startedAt, inp.execution.value.endedAt)
    && inp.execution.value.handoff.Some?
  }

  /** The reviewer is called and gives a verdict that leads somewhere. */
  predicate Rules(d: Disk, e: Engine, inp: Input) {
    && e.pc.ReviewTop? && !e.pc.phase.human && HumanDecision(e, e.pc.phase).None?
    && HistoryFor(d, e.held.state, e.pc.phase.phaseId).Success?
    && inp.review.Returned?
    && ValidOutput(e.pc.phase, inp.review.value.roleId, inp.startedAt, inp.review.value.endedAt)
    && var payload := MakePayload(e.pc.phase, inp.review.value);
    && ValidPayload(payload)
    && ResolveReview(e.pc.phase, payload, inp.review.value.chosenNext).Success?
  }

  /** An engine that plans comes to owe an artifact exactly when its role hands one over or rules; whether the
      save after it can succeed plays no part. */
  lemma OwesAnArtifactExactlyWhen(cfg: Config, d: Disk, e: Engine, inp: Input)
    requires Running(e)
    ensures !WritesNone(BeforeOf(PlanOf(cfg, d, e, inp))) <==> HandsOver(d, e, inp) || Rules(d, e, inp)
  {
    hide HumanDecision, HistoryFor, AfterIteration, WritesNone, PlanIteration, PlanVerdict, Stores, ValidPayload;
    AskingStoresNothing();
    if e.pc.ExecTop? && inp.execution.Returned? && inp.execution.value.endedAt.Some? {
      forall asked | WritesNone(asked) {
        IterationOwes(cfg, e, inp, inp.execution.value, asked);
      }
    } else if e.pc.ReviewTop? && inp.review.Returned? && inp.review.value.endedAt.Some? {
      forall asked | WritesNone(asked) {
        VerdictOwes(e, inp, inp.review.value, asked);
      }
    }
  }

  lemma IterationOwes(cfg: Config, e: Engine, inp: Input, r: ExecutionResult, asked: seq<Effect>)
    requires e.pc.ExecTop? && inp.execution == Returned(r) && r.endedAt.Some? && WritesNone(asked)
    ensures var plan := PlanIteration(cfg, e, e.pc.phase, e.pc.count, inp, r, asked);
            !WritesNone(BeforeOf(plan)) <==> r.handoff.Some?
  {
    hide AfterIteration;
    if r.handoff.Some? {
      var plan := PlanIteration(cfg, e, e.pc.phase, e.pc.count, inp, r, asked);
      assert BeforeOf(plan)[|asked|].ArtifactWrite?;
    }
  }

  lemma VerdictOwes(e: Engine, inp: Input, r: ReviewResult, asked: seq<Effect>)
    requires e.pc.ReviewTop? && r.endedAt.Some? && WritesNone(asked)
    ensures var plan := PlanVerdict(e, e.pc.phase, inp, r, asked);
            var payload := MakePayload(e.pc.phase, r);
            !WritesNone(BeforeOf(plan)) <==>
            ValidPayload(payload) && ResolveReview(e.pc.phase, payload, r.chosenNext).Success?
  {
    hide ValidPayload;
    var plan := PlanVerdict(e, e.pc.phase, inp, r, asked);
    if plan.Save? {
      assert BeforeOf(plan)[|asked|].ArtifactWrite?;
    }
  }

  // ---- A schedule that spoils -----------------------------------------------------------------

  const EMPTY_WORLD := World(EMPTY_DISK, [], [])

  /** One executor phase, and nowhere to go from it. */
  const AUTHORING: PhaseDefinition := PhaseDefinition("a", "r", ExecutorKind, [], [], [], [], false, None)
  const LONE: PhaseGraph := [AUTHORING]
  const REQUEST := RunRequest("s", None, 0, 0, 0, true)

  /** An executor that hands over a text. */
  function Author(text: string, score: int): Input {
    Input(Continue, 0, 0, Returned(ExecutionResult("r", Some(0), score, Some(text), [], None, None, None)), Raised)
  }

  const BEGUN := SessionState("s", None, 0, "a", [], [], 0, InProgress, None)

  /** An engine that has just entered the phase. */
  const ENTERED := Fresh(Stored(BEGUN, 1), ExecTop(AUTHORING, 0))

  function Draft(text: string): Document { HandoffDocument("a", "r", text) }

  lemma LoneIsValid()
    ensures ValidGraph(LONE) && ApartIds(LONE) && Get(LONE, "a") == Some(AUTHORING)
    ensures Linear(LONE, EMPTY_WORLD) && NobodyJoins(EMPTY_WORLD)
  {
    assert Ids(LONE) == ["a"];
    assert "a"[1..] == "" && [] + ['a'] == "a";
    assert NormalFrom("", "a") == Path([], "a");
    assert Normal("a") == Path([], "a");
    assert Relative("a");
  }

  /** The disk once the session has started. */
  predicate Started(d: Disk) {
    d.state == Some(BEGUN) && d.revision == Some(1)
  }

  lemma FirstBoot(cfg: Config)
    ensures var o := Boot(LONE, cfg, EMPTY_DISK, REQUEST);
            o.next == ENTERED && Started(Apply(EMPTY_DISK, o.out)) && !Rejected(EMPTY_DISK, REQUEST)
  {
    hide Apply, Announce;
    LoneIsValid();
    var created := Stored(BEGUN.(status := Initialized), 0);
    var out := InitialWrites(LONE, EMPTY_DISK, REQUEST);
    InitialWritesLand(LONE, EMPTY_DISK, REQUEST);
    var d := Apply(EMPTY_DISK, out);
    BootIsLaunch(LONE, cfg, EMPTY_DISK, REQUEST);
    assert LoadedState(LONE, EMPTY_DISK, REQUEST) == created;
    assert Timed(created, REQUEST) == created;
    var e1 := Saved(Fresh(created, Finished), Begin);
    var tail := ConcludeShape(LONE, cfg, e1, out + Written(e1), Begin, Enter, 0);
    var o := Launch(LONE, cfg, d, created, out, REQUEST);
    assert o.out == out + Written(e1) + tail;
    OrderedIsNoSave([], tail) by { AskingIsGroundwork(); }
    ApplyConcat(EMPTY_DISK, out + Written(e1), tail);
    ApplyConcat(EMPTY_DISK, out, Written(e1));
    WritesBoth(d, e1.held);
    NoSaveKeepsState(Apply(d, Written(e1)), tail);
  }

  /** Starting on a session in progress reads nothing but the state and its revision, and writes nothing. */
  lemma Resumes(cfg: Config, d: Disk, s: Stored)
    requires s.state == BEGUN
    ensures var o := Launch(LONE, cfg, d, s, [], REQUEST);
            o.next == Fresh(s, ExecTop(AUTHORING, 0)) && Aftermath(o.out)
  {
    LoneIsValid();
  }

  lemma {:induction false} SecondBoot(cfg: Config, d: Disk)
    requires Started(d)
    ensures var o := Boot(LONE, cfg, d, REQUEST);
            o.next == ENTERED && Started(Apply(d, o.out)) && !Rejected(d, REQUEST)
  {
    Resumes(cfg, d, Stored(BEGUN, 1));
    var o := Boot(LONE, cfg, d, REQUEST);
    AskingIsGroundwork();
    OrderedIsNoSave([], o.out);
    NoSaveKeepsState(d, o.out);
  }

  /** Loading and starting without interruption. */
  lemma Enters(cfg: Config, w: World) returns (turns: seq<Turn>)
    requires w.disk == EMPTY_DISK || Started(w.disk)
    ensures var w' := TakeAllAtomic(LONE, w, turns);
            Started(w'.disk) && w'.writers == w.writers + [Writer(cfg, ENTERED, Thinking, [])]
  {
    hide Boot, Apply, MovesOn, TakeTurn, Joined;
    var inp := Author("", 100);
    if w.disk == EMPTY_DISK {
      FirstBoot(cfg);
    } else {
      SecondBoot(cfg, w.disk);
    }
    var n := JoinedLaunches(LONE, w, cfg, REQUEST, inp);
    var i := |w.writers|;
    turns := [Loads(cfg, REQUEST)] + Row(i, inp, n);
    assert turns[1..] == Row(i, inp, n);
    RowMoves(LONE, Joined(LONE, w, cfg, REQUEST), i, inp, n);
  }

  /** An engine asks its role and comes to owe its draft. */
  lemma Owes(cfg: Config, w: World, text: string) returns (turns: seq<Turn>)
    requires Started(w.disk) && |w.writers| == 2 && w.writers[1] == Writer(cfg, ENTERED, Thinking, [])
    ensures var w' := TakeAllAtomic(LONE, w, turns);
            && w'.disk == w.disk && |w'.writers| == 2 && w'.writers[0] == w.writers[0]
            && w'.writers[1].todo == [ArtifactWrite(HandoffName("a", 1), Draft(text))]
  {
    hide HandoffName, Apply, SavesOf;
    var inp := Author(text, 100);
    var ask := AskExecutor("a", BEGUN, None);
    var write := ArtifactWrite(HandoffName("a", 1), Draft(text));
    turns := [Moves(1, inp), Moves(1, inp)];
    NothingDone(w.disk);
    assert BeforeOf(PlanOf(cfg, w.disk, ENTERED, inp)) == [ask, write];
    var w1 := TakeTurn(LONE, w, turns[0]);
    assert w1.writers[1].todo == [ask, write] && w1.disk == w.disk;
    var w2 := TakeTurn(LONE, w1, turns[1]);
    OneMore(w1.disk, [], ask);
    assert w2.writers[1].todo == [ask, write][1..];
    assert turns[1..][1..] == [];
    assert TakeAllAtomic(LONE, w2, []) == w2;
    assert TakeAllAtomic(LONE, w1, turns[1..]) == w2;
  }

  /** The entry an engine commits. */
  function Entry(score: int): IterationEntry {
    IterationEntry(1, "a", "r", score, 0, 0, Some(HandoffName("a", 1)))
  }

  /** What is on disk once a draft is committed. */
  predicate Committed(d: Disk, text: string, score: int, revision: nat) {
    && d.state.Some? && d.revision == Some(revision)
    && d.state.value == BEGUN.(iterations := [Entry(score)])
    && FileAt(d, HandoffName("a", 1)) == Some(Draft(text))
  }

  /** An engine that holds the session without iterations commits its draft, if nobody interrupts it and the
      revision is the one it read. */
  lemma Drafts(cfg: Config, w: World, i: nat, text: string, score: int, revision: nat) returns (turns: seq<Turn>)
    requires i < |w.writers| && InScoreRange(score)
    requires w.writers[i] == Writer(cfg, Fresh(Stored(BEGUN, revision), ExecTop(AUTHORING, 0)), Thinking, [])
    requires w.disk.state.Some? && w.disk.revision == Some(revision)
    ensures var w' := TakeAllAtomic(LONE, w, turns);
            && |w'.writers| == |w.writers|
            && (forall k :: 0 <= k < |w.writers| && k != i ==> w'.writers[k] == w.writers[k])
            && Committed(w'.disk, text, score, revision + 1)
            && w'.history == w.history + [BEGUN.(iterations := [Entry(score)])]
  {
    hide HandoffName, MovesOn, TakeAllAtomic, Step, Apply, SavesOf;
    var inp := Author(text, score);
    var n := AloneIsStep(LONE, w, i, inp);
    turns := Row(i, inp, n);
    RowMoves(LONE, w, i, inp, n);
    DraftIsCommitted(cfg, w.disk, w.writers[i].engine, text, score);
  }

  lemma {:induction false} DraftIsCommitted(cfg: Config, d: Disk, e: Engine, text: string, score: int)
    requires e == Fresh(Stored(BEGUN, e.held.revision), ExecTop(AUTHORING, 0)) && InScoreRange(score)
    requires d.state.Some? && d.revision == Some(e.held.revision)
    ensures var o := Step(LONE, cfg, d, e, Author(text, score));
            && Committed(Apply(d, o.out), text, score, e.held.revision + 1)
            && SavesOf(o.out) == [BEGUN.(iterations := [Entry(score)])]
  {
    hide Step, HandoffName, Apply, SavesOf;
    var inp := Author(text, score);
    var before, tail := StepShape(LONE, cfg, d, e, inp);
    CommittedContentIsTheRolesOwn(LONE, cfg, d, e, inp);
    var c := CommitOf(cfg, d, e, inp);
    assert c.Iterate? && c.iteration == Entry(score);
    assert Held(e, c).state == BEGUN.(iterations := [Entry(score)]);
  }

  /** Two writes of one artifact, with a store whose operations are all atomic. From an empty disk both engines
      enter the phase; B's role hands over a draft; A commits an iteration with a draft of its own; then B
      writes, and the reference A committed loads B's draft. The history is linear throughout. */
  lemma RaceSpoils(cfg: Config, mine: string, theirs: string) returns (turns: seq<Turn>, t: Turn)
    requires mine != theirs
    ensures ValidGraph(LONE) && ApartIds(LONE)
    ensures var w := TakeAllAtomic(LONE, EMPTY_WORLD, turns);
            var ref := HandoffName("a", 1);
            && Linear(LONE, w) && Spoils(LONE, w, t)
            && DiskRef(LONE, w.disk, ref)
            && FileAt(w.disk, ref) == Some(Draft(mine))
            && FileAt(TakeTurn(LONE, w, t).disk, ref) == Some(Draft(theirs))
  {
    hide TakeAllAtomic, TakeTurn, ValidGraph, ApartIds, HandoffName, Linear, NobodyJoins;
    LoneIsValid();
    var a := Enters(cfg, EMPTY_WORLD);
    var w1 := TakeAllAtomic(LONE, EMPTY_WORLD, a);
    var b := Enters(cfg, w1);
    AtomicConcat(LONE, EMPTY_WORLD, a, b);
    var w2 := TakeAllAtomic(LONE, w1, b);
    var c := Owes(cfg, w2, theirs);
    AtomicConcat(LONE, EMPTY_WORLD, a + b, c);
    var w3 := TakeAllAtomic(LONE, w2, c);
    var f := Drafts(cfg, w3, 0, mine, 100, 1);
    AtomicConcat(LONE, EMPTY_WORLD, a + b + c, f);
    var w4 := TakeAllAtomic(LONE, w3, f);
    turns := a + b + c + f;
    t := Moves(1, Author(theirs, 100));
    AtomicStoreIsLinear(LONE, EMPTY_WORLD, turns);
    assert w4.disk.state.value.iterations[0].handoffRef == Some(HandoffName("a", 1));
    WriteTurn(LONE, w4, 1, Author(theirs, 100));
  }

  /** A torn load loses work, although every save is an atomic compare-and-set. B reads the state file; A commits
      an iteration; B reads the revision file, so that it holds the older state at the newer revision. Its own
      save passes the check, and A's iteration is gone. */
  lemma TornLoadLosesWork(cfg: Config, mine: string, theirs: string, score: int) returns (turns: seq<Turn>)
    requires InScoreRange(score) && score != 100
    ensures var w := TakeTurns(LONE, EMPTY_WORLD, turns);
            && w.disk.state.Some? && |w.history| >= 2
            && w.history[|w.history| - 2].iterations == [Entry(100)]
            && w.disk.state.value.iterations == [Entry(score)]
  {
    hide TakeTurns, TakeAllAtomic, HandoffName, Apply, SavesOf;
    var a := Enters(cfg, EMPTY_WORLD);
    var w1 := TakeAllAtomic(LONE, EMPTY_WORLD, a);
    var a' := AtomicIsASchedule(LONE, EMPTY_WORLD, a);
    var b := [Loads(cfg, REQUEST)];
    var w2 := TakeTurn(LONE, w1, b[0]);
    OneTurn(w1, b[0]);
    TurnsConcat(LONE, EMPTY_WORLD, a', b);
    var c := Drafts(cfg, w2, 0, mine, 100, 1);
    var w3 := TakeAllAtomic(LONE, w2, c);
    var f := ReadsTheRevision(cfg, w3, mine);
    AtomicConcat(LONE, w2, c, f);
    var w4 := TakeAllAtomic(LONE, w3, f);
    var h := Drafts(cfg, w4, 1, theirs, score, 2);
    AtomicConcat(LONE, w2, c + f, h);
    var rest := AtomicIsASchedule(LONE, w2, c + f + h);
    TurnsConcat(LONE, EMPTY_WORLD, a' + b, rest);
    turns := a' + b + rest;
  }

  lemma {:induction false} OneTurn(w: World, t: Turn)
    ensures TakeTurns(LONE, w, [t]) == TakeTurn(LONE, w, t)
  {
    hide TakeTurn;
    assert [t][1..] == [];
    assert TakeTurns(LONE, TakeTurn(LONE, w, t), []) == TakeTurn(LONE, w, t);
  }

  /** The rest of a load that was interrupted by a commit. */
  lemma ReadsTheRevision(cfg: Config, w: World, text: string) returns (turns: seq<Turn>)
    requires Committed(w.disk, text, 100, 2) && |w.writers| == 2
    requires w.writers[1].cfg == cfg && w.writers[1].todo == [] && w.writers[1].intent == Reading(REQUEST, BEGUN)
    ensures var w' := TakeAllAtomic(LONE, w, turns);
            && w'.disk.state == w.disk.state && w'.disk.revision == w.disk.revision && w'.history == w.history
            && |w'.writers| == 2
            && w'.writers[1] == Writer(cfg, Fresh(Stored(BEGUN, 2), ExecTop(AUTHORING, 0)), Thinking, [])
  {
    hide HandoffName, Apply, SavesOf, Launch, MovesOn;
    var go := Author("", 100);
    NothingDone(w.disk);
    NoSaves();
    var w1 := TakeTurn(LONE, w, Moves(1, go));
    assert w.history + [] == w.history;
    assert w1.disk == w.disk && w1.history == w.history;
    assert w1.writers[1].intent == Launching(REQUEST, Stored(BEGUN, 2));
    Resumes(cfg, w1.disk, Stored(BEGUN, 2));
    var n := LaunchesAlone(LONE, w1, 1, go);
    var out := Launch(LONE, cfg, w1.disk, Stored(BEGUN, 2), [], REQUEST).out;
    AskingIsGroundwork();
    OrderedIsNoSave([], out);
    NoSaveKeepsState(w1.disk, out);
    turns := [Moves(1, go)] + Row(1, go, n);
    assert turns[1..] == Row(1, go, n);
    RowMoves(LONE, w1, 1, go, n);
  }
}
