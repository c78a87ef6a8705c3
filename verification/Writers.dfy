/** Several engines on one session, interleaved at every access to a file. Only the compare-and-set of a save is
    atomic: loading reads the state file and then the revision file, and creating a session is a check and two
    writes. Here is exactly which accesses keep the saved snapshots one linear history. */
module Writers {
  import opened Wrappers
  import opened Graph
  import opened State
  import opened Events
  import opened Names
  import opened Disk
  import opened Machine
  import opened Invariants
  import opened Sessions
  import opened Crash

  /** What an engine does once its pending effects are done: create the session whose state file it did not find,
      read the revision that belongs to the state it has read, start with the session it has, plan its next
      step, or save and announce the step it planned. */
  datatype Intent =
    | Creating(req: RunRequest)
    | Reading(req: RunRequest, state: SessionState)
    | Launching(req: RunRequest, found: Stored)
    | Thinking
    | Settling(plan: Plan, now: Time)

  /** One engine at work: its memory, the effects it still owes, and what comes after them. */
  datatype Writer = Writer(cfg: Config, engine: Engine, intent: Intent, todo: seq<Effect>)

  /** The shared disk, the engines at work, and every snapshot saved so far, oldest first. */
  datatype World = World(disk: Disk, writers: seq<Writer>, history: seq<SessionState>)

  /** Another engine reads the state file, or one of the engines moves. */
  datatype Turn =
    | Loads(cfg: Config, req: RunRequest)
    | Moves(writer: nat, inp: Input)

  /** One move of an engine, and what it does to the disk. */
  datatype Action = Action(writer: Writer, done: seq<Effect>)

  /** What an engine knows once it has looked for the state file. */
  function Loaded(g: PhaseGraph, cfg: Config, d: Disk, req: RunRequest): Writer {
    var idle := Fresh(Stored(FreshState(g, req), 0), Finished);
    match d.state
    case None => Writer(cfg, idle, Creating(req), [])
    case Some(st) => Writer(cfg, idle, Reading(req, st), [])
  }

  /** The checks of a load. */
  predicate Accepts(req: RunRequest, st: SessionState) {
    Loadable(st) && st.sessionId == req.sessionId
  }

  function Fails(wr: Writer, err: EngineError): Action {
    Action(wr.(engine := wr.engine.(pc := Crashed(err)), intent := Thinking), [])
  }

  /** The plan without the groundwork that is already owed. */
  function WithoutGroundwork(plan: Plan): Plan {
    match plan
    case Fail(_, err) => Fail([], err)
    case Save(_, c, after) => Save([], c, after)
    case _ => plan
  }

  /** A save reaches the disk at once; what follows it is owed. */
  function Saving(wr: Writer, o: Outcome): Action {
    var k := if |o.out| >= 2 && o.out[0].StateWrite? then 2 else 0;
    Action(wr.(engine := o.next, intent := Thinking, todo := o.out[k..]), o.out[..k])
  }

  /** An engine that owes effects does the first of them. Otherwise it does what it intends. A plan reads the
      disk of the moment it is made; its save is checked against the disk of the moment it is made. */
  function Act(g: PhaseGraph, d: Disk, wr: Writer, inp: Input): Action {
    if wr.todo != [] then Action(wr.(todo := wr.todo[1..]), [wr.todo[0]])
    else
      match wr.intent
      case Creating(req) =>
        if d.state.Some? then Fails(wr, StateError)
        else Action(wr.(intent := Launching(req, Stored(FreshState(g, req), 0)), todo := InitialWrites(g, d, req)), [])
      case Reading(req, st) =>
        if !Accepts(req, st) then Fails(wr, if Loadable(st) then StateError else ValidationError)
        else Action(wr.(intent := Launching(req, Stored(st, ReadRevision(d)))), [])
      case Launching(req, found) => Saving(wr, Launch(g, wr.cfg, d, found, [], req))
      case Thinking =>
        if !Running(wr.engine) then Action(wr, [])
        else
          var plan := PlanOf(wr.cfg, d, wr.engine, inp);
          Action(wr.(intent := Settling(WithoutGroundwork(plan), inp.now), todo := BeforeOf(plan)), [])
      case Settling(plan, now) => Saving(wr, Perform(g, wr.cfg, d, MarkApplied(wr.engine), plan, now))
  }

  function TakeTurn(g: PhaseGraph, w: World, t: Turn): World {
    match t
    case Loads(cfg, req) => w.(writers := w.writers + [Loaded(g, cfg, w.disk, req)])
    case Moves(i, inp) =>
      if i < |w.writers| then
        var a := Act(g, w.disk, w.writers[i], inp);
        World(Apply(w.disk, a.done), w.writers[i := a.writer], w.history + SavesOf(a.done))
      else w
  }

  function TakeTurns(g: PhaseGraph, w: World, turns: seq<Turn>): World
    decreases |turns|
  {
    if turns == [] then w else TakeTurns(g, TakeTurn(g, w, turns[0]), turns[1..])
  }

  // ---- Linear history -------------------------------------------------------------------------

  /** One snapshot follows another by a single legal commit; the start time may be set on the way. */
  ghost predicate Follows(g: PhaseGraph, a: SessionState, b: SessionState) {
    exists t: Time, c: Commit :: Legal(g, a.(startedAt := t), c) && b == ApplyCommit(a.(startedAt := t), c)
  }

  ghost predicate Chain(g: PhaseGraph, history: seq<SessionState>) {
    && (forall k :: 0 <= k < |history| ==> WellFormed(g, history[k]))
    && (forall k :: 0 < k < |history| ==> Follows(g, history[k - 1], history[k]))
  }

  /** A running engine holds a snapshot of the history, that of its revision. */
  predicate Holds(g: PhaseGraph, history: seq<SessionState>, e: Engine) {
    Running(e) ==>
      && e.held.revision < |history|
      && e.held.state == history[e.held.revision]
      && e.held.state.status.InProgress?
      && PcOk(g, e)
  }

  /** A file a role call leads to: the next handoff of an executor phase, the next decision of an automated review. */
  predicate NextFile(e: Engine, x: Effect)
    requires x.ArtifactWrite? && Running(e)
  {
    var st, p := e.held.state, e.pc.phase;
    || (e.pc.ExecTop? && x.ref == HandoffName(p.phaseId, CountIterations(st.iterations, p.phaseId) + 1))
    || (e.pc.ReviewTop? && !p.human && x.ref == DecisionName(p.phaseId, NextReview(st, p)))
  }

  predicate NextFiles(e: Engine, todo: seq<Effect>)
    requires Running(e)
  {
    forall i :: 0 <= i < |todo| && todo[i].ArtifactWrite? ==> NextFile(e, todo[i])
  }

  /** A plan with nothing left to do before its save. */
  predicate Settled(g: PhaseGraph, e: Engine, plan: Plan) {
    && PlanOk(g, e, plan)
    && BeforeOf(plan) == []
    && (plan.Save? && plan.next.Halt? ==> Aftermath(plan.next.post))
  }

  predicate InHistory(history: seq<SessionState>, s: Stored) {
    s.revision < |history| && s.state == history[s.revision]
  }

  /** A session about to be created: both files are still owed, or only the revision file is. */
  predicate Founding(g: PhaseGraph, history: seq<SessionState>, found: Stored, todo: seq<Effect>) {
    && found.revision == 0
    && (|| (todo == [StateWrite(found.state), RevisionWrite(0)] && WellFormed(g, found.state))
        || (todo == [RevisionWrite(0)] && InHistory(history, found)))
  }

  /** Whatever an engine is at, it builds on a snapshot of the history. */
  predicate WriterOk(g: PhaseGraph, history: seq<SessionState>, wr: Writer) {
    match wr.intent
    case Creating(_) => wr.todo == [] && !Running(wr.engine)
    case Reading(_, _) => wr.todo == [] && !Running(wr.engine)
    case Launching(_, found) =>
      && !Running(wr.engine)
      && (Founding(g, history, found, wr.todo) || (wr.todo == [] && InHistory(history, found)))
    case Thinking => Aftermath(wr.todo) && Holds(g, history, wr.engine)
    case Settling(plan, _) =>
      && Groundwork(wr.todo)
      && Running(wr.engine) && Holds(g, history, wr.engine)
      && NextFiles(wr.engine, wr.todo)
      && Settled(g, wr.engine, plan)
  }

  /** The disk holds the newest snapshot, and its revision counts the saves. */
  predicate Recorded(d: Disk, history: seq<SessionState>) {
    if history == [] then d.state.None? && ReadRevision(d) == 0
    else d.state == Some(history[|history| - 1]) && ReadRevision(d) == |history| - 1
  }

  ghost predicate Linear(g: PhaseGraph, w: World) {
    && Chain(g, w.history)
    && Recorded(w.disk, w.history)
    && (forall i :: 0 <= i < |w.writers| ==> WriterOk(g, w.history, w.writers[i]))
  }

  // ---- Stale writers --------------------------------------------------------------------------

  /** A writer that is not at the revision of the store commits nothing. */
  lemma {:induction false} StaleWriterCommitsNothing(g: PhaseGraph, cfg: Config, d: Disk, e: Engine, inp: Input)
    requires ReadRevision(d) != e.held.revision
    ensures var o := Step(g, cfg, d, e, inp);
            && SavesOf(o.out) == []
            && Apply(d, o.out).state == d.state && Apply(d, o.out).revision == d.revision
  {
    hide Step, PlanOf;
    var before, tail := StepShape(g, cfg, d, e, inp);
  }

  /** The disk as a stale engine remembers it: its own snapshot and revision, but today's files. */
  function Remembered(d: Disk, e: Engine): Disk {
    d.(state := Some(e.held.state), revision := Some(e.held.revision))
  }

  lemma PlanReadsFilesOnly(cfg: Config, d: Disk, e: Engine, inp: Input)
    requires Running(e)
    ensures PlanOf(cfg, Remembered(d, e), e, inp) == PlanOf(cfg, d, e, inp)
  {
    hide PlanIteration, PlanVerdict, HumanDecision, PlanExecDecide, PlanReviewDecide;
  }

  lemma ChainHolds(g: PhaseGraph, history: seq<SessionState>, e: Engine)
    requires Chain(g, history) && Holds(g, history, e) && Running(e)
    ensures WellFormed(g, e.held.state)
  {
    hide WellFormed;
  }

  lemma CommitFollows(g: PhaseGraph, st: SessionState, c: Commit)
    requires Legal(g, st, c)
    ensures Follows(g, st, ApplyCommit(st, c))
  {
    assert st.(startedAt := st.startedAt) == st;
  }

  lemma ChainGrows(g: PhaseGraph, history: seq<SessionState>, st: SessionState)
    requires Chain(g, history) && history != [] && WellFormed(g, st) && Follows(g, history[|history| - 1], st)
    ensures Chain(g, history + [st])
  {
    hide WellFormed, Follows;
    var h := history + [st];
    forall k | 0 < k < |h| ensures Follows(g, h[k - 1], h[k]) {
      if k < |history| { assert h[k - 1] == history[k - 1] && h[k] == history[k]; }
    }
  }

  lemma {:induction false} BeginFollows(g: PhaseGraph, st: SessionState, timed: SessionState)
    requires WellFormed(g, st) && st.status.Initialized? && timed == st.(startedAt := timed.startedAt)
    requires ValidGraph(g)
    ensures Follows(g, st, ApplyCommit(timed, Begin)) && WellFormed(g, ApplyCommit(timed, Begin))
    ensures Get(g, timed.currentPhase).Some?
  {
    hide ValidGraph;
    StartTimeKeepsWellFormed(g, st, timed);
    assert Legal(g, st.(startedAt := timed.startedAt), Begin);
    CommitKeepsWellFormed(g, timed, Begin);
  }

  // ---- Planning -------------------------------------------------------------------------------

  lemma PlanWritesNextFile(cfg: Config, d: Disk, e: Engine, inp: Input)
    requires Running(e)
    ensures NextFiles(e, BeforeOf(PlanOf(cfg, d, e, inp)))
  {
    hide PlanOf;
    PlanStoresFiles(cfg, d, e, inp);
    HumansStoreNothing(cfg, d, e, inp);
  }

  /** A human phase calls no role and writes no file. */
  lemma HumansStoreNothing(cfg: Config, d: Disk, e: Engine, inp: Input)
    requires Running(e)
    ensures e.pc.ReviewTop? && e.pc.phase.human ==> BeforeOf(PlanOf(cfg, d, e, inp)) == []
  {
    hide HumanDecision;
  }

  lemma ThinkingSettles(g: PhaseGraph, cfg: Config, d: Disk, e: Engine, inp: Input, history: seq<SessionState>)
    requires Chain(g, history) && Holds(g, history, e) && Running(e)
    ensures var plan := PlanOf(cfg, d, e, inp);
            && Groundwork(BeforeOf(plan)) && NextFiles(e, BeforeOf(plan))
            && Settled(g, e, WithoutGroundwork(plan))
  {
    hide PlanOf, WellFormed, Legal, PcOk, NextFiles, Groundwork, Aftermath, Chain;
    ChainHolds(g, history, e);
    PlanReadsFilesOnly(cfg, d, e, inp);
    PlanIsOk(g, cfg, Remembered(d, e), e, inp);
    PlansAreOrdered(cfg, d, e, inp);
    PlanWritesNextFile(cfg, d, e, inp);
    AskingIsGroundwork();
  }

  // ---- Saving ---------------------------------------------------------------------------------

  lemma NothingSaved(wr: Writer, o: Outcome)
    requires Aftermath(o.out)
    ensures Saving(wr, o).done == [] && Saving(wr, o).writer.todo == o.out
  {
  }

  lemma OneSaved(wr: Writer, o: Outcome, tail: seq<Effect>)
    requires o.out == Written(o.next) + tail
    ensures Saving(wr, o).done == Written(o.next) && Saving(wr, o).writer.todo == tail
  {
  }

  lemma {:induction false} WrittenSaves(d: Disk, n: Engine)
    ensures SavesOf(Written(n)) == [n.held.state]
    ensures Apply(d, Written(n)).state == Some(n.held.state) && ReadRevision(Apply(d, Written(n))) == n.held.revision
    ensures Apply(d, Written(n)).files == d.files
  {
    var out := Written(n);
    assert out[1..] == [out[1]] && out[1..][1..] == [];
    assert SavesOf(out[1..]) == SavesOf([]);
    WritesBoth(d, n.held);
  }

  /** What an engine leaves behind when it settles or launches: either it saved the legal successor of the newest
      snapshot, or it saved nothing and still holds what it held. */
  ghost predicate Lands(g: PhaseGraph, d: Disk, history: seq<SessionState>, o: Outcome) {
    if Aftermath(o.out) then Holds(g, history, o.next)
    else
      && history != []
      && Written(o.next) <= o.out
      && Aftermath(o.out[2..])
      && Follows(g, history[|history| - 1], o.next.held.state)
      && WellFormed(g, o.next.held.state)
      && o.next.held.revision == |history|
      && (Running(o.next) ==> o.next.held.state.status.InProgress? && PcOk(g, o.next))
  }

  lemma {:induction false} LandingKeeps(g: PhaseGraph, d: Disk, history: seq<SessionState>, wr: Writer, o: Outcome)
    requires Chain(g, history) && Recorded(d, history) && Lands(g, d, history, o)
    ensures var a := Saving(wr, o);
            var h := history + SavesOf(a.done);
            Chain(g, h) && Recorded(Apply(d, a.done), h) && WriterOk(g, h, a.writer)
            && Apply(d, a.done).files == d.files
  {
    hide Chain, Follows, WellFormed, PcOk, Aftermath;
    if Aftermath(o.out) {
      NothingSaved(wr, o);
      NothingDone(d);
      assert history + [] == history;
    } else {
      var tail := o.out[2..];
      assert o.out == Written(o.next) + tail;
      OneSaved(wr, o, tail);
      WrittenSaves(d, o.next);
      ChainGrows(g, history, o.next.held.state);
    }
  }

  lemma SettlingLands(g: PhaseGraph, cfg: Config, d: Disk, e: Engine, plan: Plan, now: Time, history: seq<SessionState>)
    requires ValidGraph(g) && Chain(g, history) && Recorded(d, history)
    requires Running(e) && Holds(g, history, e) && Settled(g, e, plan)
    ensures Lands(g, d, history, Perform(g, cfg, d, MarkApplied(e), plan, now))
  {
    hide ValidGraph, Chain, Follows, WellFormed, PcOk, Legal, Aftermath, Conclude, Abort;
    var m := MarkApplied(e);
    var o := Perform(g, cfg, d, m, plan, now);
    MarkedSame(e);
    MarkingKeepsPlanOk(g, e, plan);
    PerformPcOk(g, cfg, d, m, plan, now);
    ChainHolds(g, history, e);
    AskingIsGroundwork();
    match plan {
      case Fail(_, err) =>
        var tail := AbortShape(g, m, [], err, now);
        assert [] + tail == tail;
      case Save(_, c, after) =>
        var err := SaveError(d, m.held.revision);
        if err.Some? {
          var tail := AbortShape(g, m, [], err.value, now);
          assert [] + tail == tail;
        } else {
          var e1 := Saved(m, c);
          var tail := ConcludeShape(g, cfg, e1, [] + Written(e1), c, after, now);
          CommitKeepsWellFormed(g, e.held.state, c);
          CommitFollows(g, e.held.state, c);
          SavedIsNoAftermath(o.out);
        }
      case _ =>
    }
  }

  lemma SavedIsNoAftermath(out: seq<Effect>)
    requires out != [] && out[0].StateWrite?
    ensures !Aftermath(out)
  {
  }

  lemma LaunchingLands(g: PhaseGraph, cfg: Config, d: Disk, found: Stored, req: RunRequest, history: seq<SessionState>)
    requires ValidGraph(g) && Chain(g, history) && Recorded(d, history) && InHistory(history, found)
    ensures Lands(g, d, history, Launch(g, cfg, d, found, [], req))
  {
    hide ValidGraph, Follows, WellFormed, PcOk, Aftermath, Conclude, Abort, EnterPhase, Announce;
    var e := Fresh(Timed(found, req), Finished);
    var st := e.held.state;
    AskingIsGroundwork();
    if Terminal(st.status) {
    } else if !req.preflight {
      var tail := AbortShape(g, e, [], ConfigurationError, req.now);
      assert [] + tail == tail;
    } else if st.status.Initialized? {
      var err := SaveError(d, e.held.revision);
      if err.Some? {
        var tail := AbortShape(g, e, [], err.value, req.now);
        assert [] + tail == tail;
      } else {
        BeginFollows(g, found.state, st);
        BeginPcOk(g, cfg, e, req.now);
        SavedIsNoAftermath(Launch(g, cfg, d, found, [], req).out);
      }
    } else {
      var p := Get(g, st.currentPhase);
      if p.None? {
        var tail := AbortShape(g, e, [], ConfigurationError, req.now);
        assert [] + tail == tail;
      } else {
        ResumePcOk(g, e, p.value, req.now);
      }
    }
  }

  lemma {:induction false} BeginPcOk(g: PhaseGraph, cfg: Config, e: Engine, now: Time)
    requires ValidGraph(g) && Get(g, e.held.state.currentPhase).Some?
    ensures var e1 := Saved(e, Begin);
            var o := Conclude(g, cfg, e1, [] + Written(e1), Begin, Enter, now);
            && Written(e1) <= o.out && Aftermath(o.out[2..])
            && o.next.held == e1.held
            && (Running(o.next) ==> PcOk(g, o.next))
  {
    hide ValidGraph, Announce, EnterPhase, PcOk;
    var e1 := Saved(e, Begin);
    var tail := ConcludeShape(g, cfg, e1, [] + Written(e1), Begin, Enter, now);
    EnterPcOk(g, e1, [] + Written(e1) + Announce(g, cfg, e1, Begin, now), now);
    assert Conclude(g, cfg, e1, [] + Written(e1), Begin, Enter, now).out[2..] == tail;
  }

  lemma ResumePcOk(g: PhaseGraph, e: Engine, p: PhaseDefinition, now: Time)
    requires ValidGraph(g)
    ensures var st := e.held.state;
            var out := [Emit(RunResumed(st.sessionId, p.phaseId, p.roleId, p.kind, e.held.revision, now))];
            var o := EnterPhase(g, e, [] + out, now);
            && Aftermath(o.out) && o.next.held == e.held
            && (Running(o.next) ==> PcOk(g, o.next) && st.status.InProgress?)
  {
    hide ValidGraph, EnterPhase, PcOk;
    var st := e.held.state;
    var out := [Emit(RunResumed(st.sessionId, p.phaseId, p.roleId, p.kind, e.held.revision, now))];
    EnterPcOk(g, e, [] + out, now);
    var tail := EnterShape(g, e, [] + out, now);
  }

  // ---- Which turns keep the history linear ----------------------------------------------------

  lemma MoreHistoryOk(g: PhaseGraph, history: seq<SessionState>, more: seq<SessionState>, wr: Writer)
    requires WriterOk(g, history, wr)
    ensures WriterOk(g, history + more, wr)
  {
    hide PcOk, PlanOk, Groundwork, Aftermath, NextFiles, WellFormed;
  }

  /** A file access that ruins the history: the state file or the revision file of a new session written over those
      of a session that another engine has created or started meanwhile, or a revision read that does not belong
      to the state read before it, because another engine has saved in between. */
  predicate Clobbers(w: World, t: Turn) {
    && t.Moves? && t.writer < |w.writers|
    && var wr := w.writers[t.writer];
    if wr.todo != [] then
      || (wr.todo[0].StateWrite? && w.disk.state.Some?)
      || (wr.todo[0].RevisionWrite? && ReadRevision(w.disk) != 0)
    else wr.intent.Reading? && Accepts(wr.intent.req, wr.intent.state) && w.disk.state != Some(wr.intent.state)
  }

  /** What one move needs to leave, apart from the other engines. */
  ghost predicate KeepsTo(g: PhaseGraph, d: Disk, history: seq<SessionState>, a: Action) {
    var h := history + SavesOf(a.done);
    Chain(g, h) && Recorded(Apply(d, a.done), h) && WriterOk(g, h, a.writer)
  }

  lemma {:induction false} QuietEffect(d: Disk, x: Effect)
    requires !x.StateWrite? && !x.RevisionWrite?
    ensures SavesOf([x]) == [] && Apply(d, [x]).state == d.state && Apply(d, [x]).revision == d.revision
  {
    assert NoSave([x]);
    NoSaveKeepsState(d, [x]);
  }

  /** An owed effect saves nothing. */
  lemma OwedKeeps(g: PhaseGraph, d: Disk, history: seq<SessionState>, wr: Writer, inp: Input)
    requires Chain(g, history) && Recorded(d, history) && WriterOk(g, history, wr)
    requires wr.todo != [] && !wr.intent.Launching?
    ensures KeepsTo(g, d, history, Act(g, d, wr, inp))
    ensures !wr.todo[0].StateWrite? && !wr.todo[0].RevisionWrite?
  {
    hide PcOk, PlanOk, NextFile, Chain;
    QuietEffect(d, wr.todo[0]);
    assert history + [] == history;
    assert forall i :: 0 <= i < |wr.todo| - 1 ==> wr.todo[1..][i] == wr.todo[i + 1];
  }

  lemma {:induction false} OneFile(d: Disk, x: Effect)
    requires x.StateWrite? || x.RevisionWrite?
    ensures Apply(d, [x]) == ApplyEffect(d, x)
    ensures SavesOf([x]) == if x.StateWrite? then [x.state] else []
  {
    OneMore(d, [], x);
    assert [x][1..] == [];
  }

  /** Writing the state file of a new session. */
  lemma StateKeepsExactlyWhen(g: PhaseGraph, d: Disk, history: seq<SessionState>, wr: Writer, inp: Input)
    requires Chain(g, history) && Recorded(d, history) && WriterOk(g, history, wr)
    requires wr.intent.Launching? && wr.todo == [StateWrite(wr.intent.found.state), RevisionWrite(0)]
    ensures KeepsTo(g, d, history, Act(g, d, wr, inp)) <==> d.state.None?
  {
    hide WellFormed, Chain, SavesOf, Apply;
    var st := wr.intent.found.state;
    OneFile(d, StateWrite(st));
    assert wr.todo[1..] == [RevisionWrite(0)];
    if d.state.None? {
      assert history + [st] == [st];
      OneLink(g, st);
    }
  }

  lemma OneLink(g: PhaseGraph, st: SessionState)
    requires WellFormed(g, st)
    ensures Chain(g, [st])
  {
    hide WellFormed, Follows;
  }

  /** Writing its revision file. */
  lemma RevisionKeepsExactlyWhen(g: PhaseGraph, d: Disk, history: seq<SessionState>, wr: Writer, inp: Input)
    requires Chain(g, history) && Recorded(d, history) && WriterOk(g, history, wr)
    requires wr.intent.Launching? && wr.todo == [RevisionWrite(0)]
    ensures KeepsTo(g, d, history, Act(g, d, wr, inp)) <==> ReadRevision(d) == 0
  {
    hide WellFormed, Chain, SavesOf, Apply;
    OneFile(d, RevisionWrite(0));
    assert history + [] == history;
    assert wr.todo[1..] == [];
  }

  /** Writing one of the two files of a new session. */
  lemma FoundingKeepsExactlyWhen(g: PhaseGraph, d: Disk, history: seq<SessionState>, wr: Writer, inp: Input)
    requires Chain(g, history) && Recorded(d, history) && WriterOk(g, history, wr)
    requires wr.todo != [] && wr.intent.Launching?
    ensures var x := wr.todo[0];
            && (x.StateWrite? || x.RevisionWrite?)
            && (KeepsTo(g, d, history, Act(g, d, wr, inp)) <==>
                  if x.StateWrite? then d.state.None? else ReadRevision(d) == 0)
  {
    hide WellFormed, Chain, KeepsTo, Act, Recorded;
    if wr.todo[0].StateWrite? {
      StateKeepsExactlyWhen(g, d, history, wr, inp);
    } else {
      RevisionKeepsExactlyWhen(g, d, history, wr, inp);
    }
  }

  lemma CreatingKeeps(g: PhaseGraph, d: Disk, history: seq<SessionState>, wr: Writer, inp: Input)
    requires ValidGraph(g) && Chain(g, history) && Recorded(d, history) && WriterOk(g, history, wr)
    requires wr.todo == [] && wr.intent.Creating?
    ensures KeepsTo(g, d, history, Act(g, d, wr, inp))
  {
    hide ValidGraph, WellFormed, FreshState, Chain, PcOk, Settled, NextFiles, Groundwork, Aftermath;
    FreshIsWellFormed(g, wr.intent.req);
    AskingIsGroundwork();
    NothingDone(d);
    NoSaves();
    assert history + [] == history;
  }

  /** Reading the revision that goes with a state. */
  lemma ReadingKeepsExactlyWhen(g: PhaseGraph, d: Disk, history: seq<SessionState>, wr: Writer, inp: Input)
    requires Chain(g, history) && Recorded(d, history) && WriterOk(g, history, wr)
    requires wr.todo == [] && wr.intent.Reading?
    ensures KeepsTo(g, d, history, Act(g, d, wr, inp)) <==>
            !Accepts(wr.intent.req, wr.intent.state) || d.state == Some(wr.intent.state)
  {
    hide WellFormed, Chain, PcOk, Settled, NextFiles, Groundwork, Aftermath, Accepts;
    AskingIsGroundwork();
    NothingDone(d);
    NoSaves();
    assert history + [] == history;
  }

  lemma ActKeepsExactlyWhen(g: PhaseGraph, w: World, i: nat, inp: Input)
    requires ValidGraph(g) && Linear(g, w) && i < |w.writers|
    ensures KeepsTo(g, w.disk, w.history, Act(g, w.disk, w.writers[i], inp)) <==> !Clobbers(w, Moves(i, inp))
  {
    hide ValidGraph, Chain, Recorded, WriterOk, PlanOf, Perform, Launch, Saving, KeepsTo, Accepts;
    var d, history, wr := w.disk, w.history, w.writers[i];
    assert WriterOk(g, history, wr);
    if wr.todo != [] {
      if wr.intent.Launching? {
        FoundingKeepsExactlyWhen(g, d, history, wr, inp);
      } else {
        OwedKeeps(g, d, history, wr, inp);
      }
    } else {
      match wr.intent
      case Creating(_) => CreatingKeeps(g, d, history, wr, inp);
      case Reading(_, _) => ReadingKeepsExactlyWhen(g, d, history, wr, inp);
      case _ => WorkKeeps(g, d, history, wr, inp);
    }
  }

  /** Starting, planning and saving keep the history linear, whoever else is at work. */
  lemma WorkKeeps(g: PhaseGraph, d: Disk, history: seq<SessionState>, wr: Writer, inp: Input)
    requires ValidGraph(g) && Chain(g, history) && Recorded(d, history) && WriterOk(g, history, wr)
    requires wr.todo == [] && !wr.intent.Creating? && !wr.intent.Reading?
    ensures KeepsTo(g, d, history, Act(g, d, wr, inp))
  {
    hide ValidGraph, Chain, Recorded, Holds, PlanOf, Perform, Launch, Saving, Groundwork, Aftermath, NextFiles, Settled;
    assert history + [] == history;
    NothingDone(d);
    NoSaves();
    match wr.intent
    case Launching(req, found) =>
      LaunchingLands(g, wr.cfg, d, found, req, history);
      LandingKeeps(g, d, history, wr, Launch(g, wr.cfg, d, found, [], req));
    case Thinking =>
      if Running(wr.engine) {
        ThinkingSettles(g, wr.cfg, d, wr.engine, inp, history);
      }
    case Settling(plan, now) =>
      SettlingLands(g, wr.cfg, d, wr.engine, plan, now, history);
      LandingKeeps(g, d, history, wr, Perform(g, wr.cfg, d, MarkApplied(wr.engine), plan, now));
  }

  lemma LoadKeepsLinear(g: PhaseGraph, w: World, cfg: Config, req: RunRequest)
    requires Linear(g, w)
    ensures Linear(g, TakeTurn(g, w, Loads(cfg, req)))
  {
    hide Chain, FreshState, Recorded;
    var wr := Loaded(g, cfg, w.disk, req);
    assert WriterOk(g, w.history, wr);
    hide WriterOk;
  }

  /** A turn keeps the history linear exactly when it does not clobber the store. */
  lemma TurnKeepsLinearExactlyWhen(g: PhaseGraph, w: World, t: Turn)
    requires ValidGraph(g) && Linear(g, w)
    ensures Linear(g, TakeTurn(g, w, t)) <==> !Clobbers(w, t)
  {
    hide ValidGraph, Act, Chain, Recorded, WriterOk, Loaded;
    if t.Loads? {
      LoadKeepsLinear(g, w, t.cfg, t.req);
    } else if t.writer < |w.writers| {
      var i := t.writer;
      var a := Act(g, w.disk, w.writers[i], t.inp);
      var w' := TakeTurn(g, w, t);
      ActKeepsExactlyWhen(g, w, i, t.inp);
      assert w'.writers[i] == a.writer;
      if !Clobbers(w, t) {
        forall k | 0 <= k < |w'.writers| ensures WriterOk(g, w'.history, w'.writers[k]) {
          assert WriterOk(g, w.history, w.writers[k]);
          MoreHistoryOk(g, w.history, SavesOf(a.done), w.writers[k]);
        }
      }
    }
  }

  lemma InitialSaves(g: PhaseGraph, d: Disk, req: RunRequest)
    ensures SavesOf(InitialWrites(g, d, req)) == if d.state.None? then [FreshState(g, req)] else []
  {
    var out := InitialWrites(g, d, req);
    if d.state.None? {
      assert out[1..] == [out[1]] && out[1..][1..] == [];
      assert SavesOf(out[1..]) == SavesOf([]);
    }
  }

  lemma FirstChain(g: PhaseGraph, req: RunRequest)
    requires ValidGraph(g)
    ensures Chain(g, [FreshState(g, req)])
  {
    hide ValidGraph, WellFormed, FreshState, Chain;
    FreshIsWellFormed(g, req);
    OneLink(g, FreshState(g, req));
  }

  // ---- Any schedule ---------------------------------------------------------------------------

  /** No turn of a schedule clobbers the store. */
  predicate Gentle(g: PhaseGraph, w: World, turns: seq<Turn>)
    decreases |turns|
  {
    turns != [] ==> !Clobbers(w, turns[0]) && Gentle(g, TakeTurn(g, w, turns[0]), turns[1..])
  }

  /** For every schedule of any number of engines, interleaved at every file access, also between loading a session
      and starting it, and between a role call, its artifacts and the save: unless an engine clobbers the store
      while it loads or creates the session, the snapshots saved form one chain of legal commits, the disk holds
      the last of them at the revision that counts them, and every engine builds on the snapshot of its own
      revision. */
  lemma {:induction false} SchedulesAreLinear(g: PhaseGraph, w: World, turns: seq<Turn>)
    requires ValidGraph(g) && Linear(g, w) && Gentle(g, w, turns)
    ensures Linear(g, TakeTurns(g, w, turns))
    ensures w.history <= TakeTurns(g, w, turns).history
    decreases |turns|
  {
    hide ValidGraph, Linear, Act, Loaded, Clobbers;
    if turns != [] {
      TurnKeepsLinearExactlyWhen(g, w, turns[0]);
      SchedulesAreLinear(g, TakeTurn(g, w, turns[0]), turns[1..]);
    }
  }

  /** The revision an engine saves against, when it comes to save. */
  function BuildsOn(wr: Writer): nat {
    if wr.intent.Launching? then wr.intent.found.revision else wr.engine.held.revision
  }

  /** However its accesses are interleaved, an engine whose revision is not that of the store saves nothing. */
  lemma {:induction false} StaleMoveSavesNothing(g: PhaseGraph, d: Disk, history: seq<SessionState>, wr: Writer,
                                            inp: Input)
    requires WriterOk(g, history, wr) && BuildsOn(wr) != ReadRevision(d)
    requires wr.intent.Thinking? || wr.intent.Settling? || (wr.intent.Launching? && wr.todo == [])
    ensures var a := Act(g, d, wr, inp);
            && SavesOf(a.done) == []
            && Apply(d, a.done).state == d.state
            && ReadRevision(Apply(d, a.done)) == ReadRevision(d)
  {
    hide PlanOf, Abort, Conclude, EnterPhase, Announce, PcOk, PlanOk, NextFiles;
    NothingDone(d);
    NoSaves();
    if wr.todo != [] {
      QuietEffect(d, wr.todo[0]);
    } else if wr.intent.Settling? {
      var m, plan, now := MarkApplied(wr.engine), wr.intent.plan, wr.intent.now;
      StalePerforms(g, wr.cfg, d, m, plan, now);
      NothingSaved(wr, Perform(g, wr.cfg, d, m, plan, now));
    } else if wr.intent.Launching? {
      StaleLaunches(g, wr.cfg, d, wr.intent.found, wr.intent.req);
      NothingSaved(wr, Launch(g, wr.cfg, d, wr.intent.found, [], wr.intent.req));
    }
  }

  lemma StalePerforms(g: PhaseGraph, cfg: Config, d: Disk, m: Engine, plan: Plan, now: Time)
    requires BeforeOf(plan) == [] && ReadRevision(d) != m.held.revision
    ensures Aftermath(Perform(g, cfg, d, m, plan, now).out)
  {
    hide Abort, Aftermath;
    AskingIsGroundwork();
    if plan.Fail? {
      var tail := AbortShape(g, m, [], plan.error, now);
      assert [] + tail == tail;
    } else if plan.Save? {
      var tail := AbortShape(g, m, [], SaveError(d, m.held.revision).value, now);
      assert [] + tail == tail;
    }
  }

  lemma StaleLaunches(g: PhaseGraph, cfg: Config, d: Disk, found: Stored, req: RunRequest)
    requires ReadRevision(d) != found.revision
    ensures Aftermath(Launch(g, cfg, d, found, [], req).out)
  {
    hide Conclude;
  }

  /** A writer at the store's revision holds the store's state; one that has only loaded it may start it with
      a start time of its own. */
  lemma CurrentWriterHoldsTheState(g: PhaseGraph, w: World, i: nat)
    requires Linear(g, w) && i < |w.writers|
    ensures var wr := w.writers[i];
            && (Running(wr.engine) && wr.engine.held.revision == ReadRevision(w.disk) ==>
                  w.disk.state == Some(wr.engine.held.state))
            && (wr.intent.Launching? && wr.todo == [] && wr.intent.found.revision == ReadRevision(w.disk) ==>
                  var held := Timed(wr.intent.found, wr.intent.req).state;
                  w.disk.state.Some? && held == w.disk.state.value.(startedAt := held.startedAt))
  {
    hide Chain, PcOk, PlanOk, NextFiles, Groundwork, Aftermath;
    assert WriterOk(g, w.history, w.writers[i]);
  }

  lemma NoSaves()
    ensures SavesOf([]) == []
  {
  }

  /** Along the history work is only added: no committed iteration or review is lost, changed or reordered, the
      feedback counter never falls, and nothing follows a terminal snapshot. */
  lemma {:induction false} HistoryOnlyGrows(g: PhaseGraph, history: seq<SessionState>, j: nat, k: nat)
    requires Chain(g, history) && j <= k < |history|
    ensures history[j].iterations <= history[k].iterations
    ensures history[j].reviews <= history[k].reviews
    ensures history[j].feedbackLoops <= history[k].feedbackLoops
    ensures Terminal(history[j].status) ==> j == k
    decreases k - j
  {
    hide WellFormed, Legal;
    if j < k {
      HistoryOnlyGrows(g, history, j, k - 1);
      assert Follows(g, history[k - 1], history[k]);
      FollowingGrows(g, history[k - 1], history[k]);
    }
  }

  lemma FollowingGrows(g: PhaseGraph, a: SessionState, b: SessionState)
    requires Follows(g, a, b)
    ensures a.iterations <= b.iterations && a.reviews <= b.reviews && a.feedbackLoops <= b.feedbackLoops
    ensures !Terminal(a.status)
  {
    var t: Time, c: Commit :| Legal(g, a.(startedAt := t), c) && b == ApplyCommit(a.(startedAt := t), c);
  }
}
