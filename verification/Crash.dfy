/** Crash consistency with a single writer: whatever the point at which a run is cut off, every artifact the
    stored state refers to is there, belongs to its entry, and never changes again. */
module Crash {
  import opened Wrappers
  import opened Graph
  import opened State
  import opened Events
  import opened Names
  import opened Disk
  import opened Machine
  import opened Invariants
  import opened Sessions
  import opened Termination

  /** No two phases share their artifact files, and no id leaves its directory, where two different references
      could still name one file. */
  predicate ApartIds(g: PhaseGraph) {
    && (forall i :: 0 <= i < |g| ==> Relative(g[i].phaseId) && ".." !in Normal(g[i].phaseId).directories)
    && (forall i, j :: 0 <= i < |g| && 0 <= j < |g| && Normal(g[i].phaseId) == Normal(g[j].phaseId) ==>
          g[i].phaseId == g[j].phaseId)
  }

  // ---- References the engine stores -----------------------------------------------------------

  predicate HandoffMatches(e: IterationEntry, doc: Document) {
    doc.HandoffDocument? && doc.phaseId == e.phaseId && doc.roleId == e.roleId
  }

  predicate DecisionMatches(r: ReviewEntry, doc: Document) {
    && doc.DecisionDocument?
    && doc.payload.phaseId == r.phaseId
    && doc.payload.roleId == r.roleId
    && Some(doc.payload.decision) == r.decision
    && doc.payload.targetPhase == r.targetPhase
    && Some(doc.payload.confidenceScore) == r.confidenceScore
    && Some(doc.payload.endedAt) == r.endedAt
  }

  /** A payload says what a reviewer of a phase returned: every field, and all the findings. */
  predicate Conveys(payload: DecisionPayload, p: PhaseDefinition, r: ReviewResult) {
    && payload.phaseId == p.phaseId
    && payload.roleId == r.roleId
    && payload.decision == r.decision
    && payload.confidenceScore == r.confidenceScore
    && Some(payload.endedAt) == r.endedAt
    && payload.findings == r.findings
    && payload.targetPhase == r.targetPhase
  }

  predicate HandoffLoads(files: map<Ref, Document>, e: IterationEntry) {
    e.handoffRef.Some? ==> e.handoffRef.value in files && HandoffMatches(e, files[e.handoffRef.value])
  }

  predicate DecisionLoads(g: PhaseGraph, files: map<Ref, Document>, r: ReviewEntry) {
    !IsHuman(g, r.phaseId) && r.findingsRef.Some? ==>
      r.findingsRef.value in files && DecisionMatches(r, files[r.findingsRef.value])
  }

  /** Every reference of a snapshot loads a document of its own entry. */
  predicate Intact(g: PhaseGraph, st: SessionState, files: map<Ref, Document>) {
    && (forall i :: 0 <= i < |st.iterations| ==> HandoffLoads(files, st.iterations[i]))
    && (forall i :: 0 <= i < |st.reviews| ==> DecisionLoads(g, files, st.reviews[i]))
  }

  predicate DiskIntact(g: PhaseGraph, d: Disk) {
    d.state.Some? ==> Intact(g, d.state.value, d.files)
  }

  predicate HandoffRefOf(st: SessionState, ref: Ref) {
    exists i :: 0 <= i < |st.iterations| && st.iterations[i].handoffRef == Some(ref)
  }

  predicate DecisionRefOf(g: PhaseGraph, st: SessionState, ref: Ref) {
    exists i :: 0 <= i < |st.reviews| && !IsHuman(g, st.reviews[i].phaseId) && st.reviews[i].findingsRef == Some(ref)
  }

  /** A reference the engine has committed. */
  predicate RefOf(g: PhaseGraph, st: SessionState, ref: Ref) {
    HandoffRefOf(st, ref) || DecisionRefOf(g, st, ref)
  }

  predicate DiskRef(g: PhaseGraph, d: Disk, ref: Ref) {
    d.state.Some? && RefOf(g, d.state.value, ref)
  }

  // ---- Growth ---------------------------------------------------------------------------------

  /** The history of a session only grows; the one entry that may still change is a PENDING stub. */
  predicate Descends(a: SessionState, b: SessionState) {
    && a.iterations <= b.iterations
    && |a.reviews| <= |b.reviews|
    && forall i :: 0 <= i < |a.reviews| ==> EntryLasts(a.reviews[i], b.reviews[i])
  }

  predicate EntryLasts(a: ReviewEntry, b: ReviewEntry) {
    a == b || (a.decision == Some(Pending) && a.phaseId == b.phaseId && a.review == b.review)
  }

  predicate DiskDescends(d: Disk, d': Disk) {
    d.state.Some? ==> d'.state.Some? && Descends(d.state.value, d'.state.value)
  }

  lemma DescentComposes(a: Disk, b: Disk, c: Disk)
    requires DiskDescends(a, b) && DiskDescends(b, c)
    ensures DiskDescends(a, c)
  {
    if a.state.Some? {
      var ra, rb, rc := a.state.value.reviews, b.state.value.reviews, c.state.value.reviews;
      forall i | 0 <= i < |ra| ensures EntryLasts(ra[i], rc[i]) {
        assert EntryLasts(ra[i], rb[i]) && EntryLasts(rb[i], rc[i]);
      }
    }
  }

  lemma CommitDescends(st: SessionState, c: Commit)
    ensures Descends(st, ApplyCommit(st, c))
  {
  }

  // ---- Safe effects ---------------------------------------------------------------------------

  /** An effect that overwrites nothing a snapshot refers to, and saves only what loads and adds to history. */
  ghost predicate SafeEffect(g: PhaseGraph, d: Disk, e: Effect) {
    match e
    case ArtifactWrite(ref, _) => !DiskRef(g, d, ref)
    case StateWrite(st) =>
      && Intact(g, st, d.files)
      && (d.state.Some? ==> Descends(d.state.value, st))
      && forall ref :: DiskRef(g, d, ref) ==> RefOf(g, st, ref)
    case _ => true
  }

  ghost predicate SafeTrace(g: PhaseGraph, d: Disk, trace: seq<Effect>)
    decreases |trace|
  {
    trace != [] ==> SafeEffect(g, d, trace[0]) && SafeTrace(g, ApplyEffect(d, trace[0]), trace[1..])
  }

  lemma {:induction false} SafeConcat(g: PhaseGraph, d: Disk, a: seq<Effect>, b: seq<Effect>)
    requires SafeTrace(g, d, a) && SafeTrace(g, Apply(d, a), b)
    ensures SafeTrace(g, d, a + b)
    decreases |a|
  {
    hide SafeEffect;
    if a == [] {
      assert a + b == b;
    } else {
      assert (a + b)[1..] == a[1..] + b;
      SafeConcat(g, ApplyEffect(d, a[0]), a[1..], b);
    }
  }

  lemma {:induction false} SafePrefix(g: PhaseGraph, d: Disk, trace: seq<Effect>, k: nat)
    requires SafeTrace(g, d, trace) && k <= |trace|
    ensures SafeTrace(g, d, trace[..k])
    decreases |trace|
  {
    hide SafeEffect;
    if k > 0 {
      assert trace[..k][1..] == trace[1..][..k - 1];
      SafePrefix(g, ApplyEffect(d, trace[0]), trace[1..], k - 1);
    }
  }

  lemma {:induction false} SafeSuffix(g: PhaseGraph, d: Disk, a: seq<Effect>, b: seq<Effect>)
    requires SafeTrace(g, d, a + b)
    ensures SafeTrace(g, Apply(d, a), b)
    decreases |a|
  {
    hide SafeEffect;
    if a == [] {
      assert a + b == b;
    } else {
      assert (a + b)[1..] == a[1..] + b;
      SafeSuffix(g, ApplyEffect(d, a[0]), a[1..], b);
    }
  }

  /** Safe effects keep every reference loading, and what it loads. */
  lemma {:induction false} SafeKeeps(g: PhaseGraph, d: Disk, trace: seq<Effect>)
    requires SafeTrace(g, d, trace) && DiskIntact(g, d)
    ensures DiskIntact(g, Apply(d, trace)) && DiskDescends(d, Apply(d, trace))
    ensures forall ref :: DiskRef(g, d, ref) ==>
      && DiskRef(g, Apply(d, trace), ref)
      && (ref in d.files ==> ref in Apply(d, trace).files && Apply(d, trace).files[ref] == d.files[ref])
    decreases |trace|
  {
    if trace != [] {
      EffectKeeps(g, d, trace[0]);
      hide SafeEffect, DiskIntact, DiskRef, DiskDescends;
      SafeKeeps(g, ApplyEffect(d, trace[0]), trace[1..]);
      DescentComposes(d, ApplyEffect(d, trace[0]), Apply(d, trace));
    } else {
      hide SafeEffect, DiskIntact, DiskRef;
    }
  }

  lemma EffectKeeps(g: PhaseGraph, d: Disk, e: Effect)
    requires SafeEffect(g, d, e) && DiskIntact(g, d)
    ensures DiskIntact(g, ApplyEffect(d, e)) && DiskDescends(d, ApplyEffect(d, e))
    ensures forall ref :: DiskRef(g, d, ref) ==>
      && DiskRef(g, ApplyEffect(d, e), ref)
      && (ref in d.files ==> ref in ApplyEffect(d, e).files && ApplyEffect(d, e).files[ref] == d.files[ref])
  {
    if e.ArtifactWrite? && d.state.Some? {
      var st, files := d.state.value, ApplyEffect(d, e).files;
      forall i | 0 <= i < |st.iterations| ensures HandoffLoads(files, st.iterations[i]) {
        assert HandoffLoads(d.files, st.iterations[i]);
        assert st.iterations[i].handoffRef.Some? ==> HandoffRefOf(st, st.iterations[i].handoffRef.value);
      }
      forall i | 0 <= i < |st.reviews| ensures DecisionLoads(g, files, st.reviews[i]) {
        assert DecisionLoads(g, d.files, st.reviews[i]);
        assert !IsHuman(g, st.reviews[i].phaseId) && st.reviews[i].findingsRef.Some? ==>
          DecisionRefOf(g, st, st.reviews[i].findingsRef.value);
      }
    }
  }

  // ---- New names are fresh --------------------------------------------------------------------

  lemma {:induction false} IterationNumbersBounded(its: seq<IterationEntry>, i: nat)
    requires NumberedIterations(its) && i < |its|
    ensures its[i].iteration <= CountIterations(its, its[i].phaseId)
    decreases |its|
  {
    var last := |its| - 1;
    if i < last {
      assert forall k :: 0 <= k < last ==> its[..last][..k] == its[..k];
      IterationNumbersBounded(its[..last], i);
    }
  }

  lemma {:induction false} KnownAreApart(g: PhaseGraph, id: PhaseId, other: PhaseId)
    requires ApartIds(g) && Get(g, id).Some? && Get(g, other).Some?
    ensures Relative(id) && Relative(other) && (Normal(id) == Normal(other) ==> id == other)
  {
    hide Normal;
    GetFinds(g, id);
    GetFinds(g, other);
  }

  /** The next handoff name of a phase is not in use. */
  lemma {:induction false} NextHandoffIsFresh(g: PhaseGraph, st: SessionState, id: PhaseId)
    requires ApartIds(g) && WellFormed(g, st) && Get(g, id).Some?
    ensures !RefOf(g, st, HandoffName(id, CountIterations(st.iterations, id) + 1))
  {
    hide Loadable, AutomatedChanges, ApartIds;
    var n := CountIterations(st.iterations, id) + 1;
    forall i | 0 <= i < |st.iterations| ensures st.iterations[i].handoffRef != Some(HandoffName(id, n)) {
      var e := st.iterations[i];
      assert IterationOk(g, e);
      KnownAreApart(g, id, e.phaseId);
      IterationNumbersBounded(st.iterations, i);
      ArtifactNamesInjective(id, n, e.phaseId, e.iteration);
    }
    forall i | 0 <= i < |st.reviews| && !IsHuman(g, st.reviews[i].phaseId)
      ensures st.reviews[i].findingsRef != Some(HandoffName(id, n))
    {
      var r := st.reviews[i];
      assert ReviewOk(g, r);
      KnownAreApart(g, id, r.phaseId);
      ArtifactNamesInjective(id, n, r.phaseId, r.review);
    }
  }

  /** The next decision name of a phase is not in use. */
  lemma {:induction false} NextDecisionIsFresh(g: PhaseGraph, st: SessionState, id: PhaseId)
    requires ApartIds(g) && WellFormed(g, st) && Get(g, id).Some?
    ensures !RefOf(g, st, DecisionName(id, CountReviews(st.reviews, id) + 1))
  {
    hide Loadable, AutomatedChanges, ApartIds;
    var n := CountReviews(st.reviews, id) + 1;
    forall i | 0 <= i < |st.iterations| ensures st.iterations[i].handoffRef != Some(DecisionName(id, n)) {
      var e := st.iterations[i];
      assert IterationOk(g, e);
      KnownAreApart(g, id, e.phaseId);
      ArtifactNamesInjective(e.phaseId, e.iteration, id, n);
    }
    forall i | 0 <= i < |st.reviews| && !IsHuman(g, st.reviews[i].phaseId)
      ensures st.reviews[i].findingsRef != Some(DecisionName(id, n))
    {
      var r := st.reviews[i];
      assert ReviewOk(g, r);
      KnownAreApart(g, id, r.phaseId);
      NumbersAreBounded(st.reviews, i);
      ArtifactNamesInjective(id, n, r.phaseId, r.review);
    }
  }

  // ---- What a plan stores ---------------------------------------------------------------------

  /** Groundwork that writes at most one artifact file. */
  predicate WritesOnly(before: seq<Effect>, ref: Ref, doc: Document) {
    forall i :: 0 <= i < |before| && before[i].ArtifactWrite? ==> before[i] == ArtifactWrite(ref, doc)
  }

  predicate WritesNone(before: seq<Effect>) {
    forall i :: 0 <= i < |before| ==> !before[i].ArtifactWrite?
  }

  lemma {:induction false} GroundworkFiles(g: PhaseGraph, d: Disk, before: seq<Effect>, ref: Ref, doc: Document)
    requires Groundwork(before) && WritesOnly(before, ref, doc)
    requires WritesNone(before) || !DiskRef(g, d, ref)
    ensures SafeTrace(g, d, before)
    ensures Apply(d, before).files == if WritesNone(before) then d.files else d.files[ref := doc]
    ensures Apply(d, before).state == d.state
    decreases |before|
  {
    if before != [] {
      var d1 := ApplyEffect(d, before[0]);
      assert before[0].ArtifactWrite? ==> before[0] == ArtifactWrite(ref, doc);
      assert WritesNone(before) ==> WritesNone(before[1..]);
      assert !before[0].ArtifactWrite? && WritesNone(before[1..]) ==> WritesNone(before);
      GroundworkFiles(g, d1, before[1..], ref, doc);
    }
  }

  lemma {:induction false} AftermathIsSafe(g: PhaseGraph, d: Disk, tail: seq<Effect>)
    requires Aftermath(tail)
    ensures SafeTrace(g, d, tail)
    ensures Apply(d, tail).files == d.files
    decreases |tail|
  {
    if tail != [] {
      AftermathIsSafe(g, ApplyEffect(d, tail[0]), tail[1..]);
    }
  }

  /** The artifact an iteration or a verdict stores before it is committed. */
  datatype StoredFile = Nothing | File(ref: Ref, document: Document)

  predicate Stores(before: seq<Effect>, s: StoredFile) {
    match s
    case Nothing => WritesNone(before)
    case File(ref, doc) => WritesOnly(before, ref, doc) && !WritesNone(before)
  }

  /** What each step stores: the handoff of an iteration under its next number, the payload of a verdict under
      its next number. */
  function StoredBy(e: Engine, inp: Input): StoredFile
    requires Running(e)
  {
    if e.pc.ExecTop? && inp.execution.Returned? && inp.execution.value.handoff.Some? then
      var r := inp.execution.value;
      File(HandoffName(e.pc.phase.phaseId, CountIterations(e.held.state.iterations, e.pc.phase.phaseId) + 1),
           HandoffDocument(e.pc.phase.phaseId, r.roleId, r.handoff.value))
    else if e.pc.ReviewTop? && inp.review.Returned? && inp.review.value.endedAt.Some? then
      File(DecisionName(e.pc.phase.phaseId, NextReview(e.held.state, e.pc.phase)),
           DecisionDocument(MakePayload(e.pc.phase, inp.review.value)))
    else Nothing
  }

  lemma PlanStores(cfg: Config, d: Disk, e: Engine, inp: Input)
    requires Running(e)
    ensures var plan := PlanOf(cfg, d, e, inp);
            && (plan.Save? && (plan.commit.Iterate? || plan.commit.Judge?) ==> Stores(plan.before, StoredBy(e, inp)))
            && (plan.Fail? || plan.Save? ==> WritesNone(plan.before) || Stores(plan.before, StoredBy(e, inp)))
  {
    hide HumanDecision, HistoryFor, AfterIteration, Stores, WritesNone, PlanIteration, PlanVerdict;
    if e.pc.ExecTop? && inp.execution.Returned? && inp.execution.value.endedAt.Some? {
      forall asked | WritesNone(asked) {
        IterationStores(cfg, e, inp, inp.execution.value, asked);
      }
    } else if e.pc.ReviewTop? && inp.review.Returned? && inp.review.value.endedAt.Some? {
      forall asked | WritesNone(asked) {
        VerdictStores(e, inp, inp.review.value, asked);
      }
    }
    AskingStoresNothing();
  }

  lemma AskingStoresNothing()
    ensures WritesNone([])
    ensures forall id, st, previous :: WritesNone([AskExecutor(id, st, previous)])
    ensures forall id, st, previous :: WritesNone([AskReviewer(id, st, previous)])
  {
  }

  lemma IterationStores(cfg: Config, e: Engine, inp: Input, r: ExecutionResult, asked: seq<Effect>)
    requires e.pc.ExecTop? && inp.execution == Returned(r) && r.endedAt.Some? && WritesNone(asked)
    ensures var plan := PlanIteration(cfg, e, e.pc.phase, e.pc.count, inp, r, asked);
            && (plan.Fail? || plan.Save? ==> Stores(plan.before, StoredBy(e, inp)))
            && !plan.Stay?
            && (plan.Save? ==> !plan.commit.Judge?)
  {
    if r.handoff.Some? {
      var plan := PlanIteration(cfg, e, e.pc.phase, e.pc.count, inp, r, asked);
      assert (plan.Fail? || plan.Save?) ==> plan.before[|asked|].ArtifactWrite?;
    }
  }

  lemma VerdictStores(e: Engine, inp: Input, r: ReviewResult, asked: seq<Effect>)
    requires e.pc.ReviewTop? && inp.review == Returned(r) && r.endedAt.Some? && WritesNone(asked)
    ensures var plan := PlanVerdict(e, e.pc.phase, inp, r, asked);
            && (plan.Save? ==> plan.commit.Judge? && Stores(plan.before, StoredBy(e, inp)))
            && (plan.Fail? ==> WritesNone(plan.before))
            && (plan.Fail? || plan.Save?)
  {
    var plan := PlanVerdict(e, e.pc.phase, inp, r, asked);
    if plan.Save? {
      assert plan.before[|asked|].ArtifactWrite?;
    }
  }

  // ---- Steps are safe -------------------------------------------------------------------------

  lemma {:induction false} StoredIsFresh(g: PhaseGraph, e: Engine, inp: Input)
    requires ApartIds(g) && Running(e) && WellFormed(g, e.held.state)
    requires Get(g, e.pc.phase.phaseId).Some?
    ensures StoredBy(e, inp).File? ==> !RefOf(g, e.held.state, StoredBy(e, inp).ref)
  {
    hide WellFormed, RefOf, ApartIds;
    NextHandoffIsFresh(g, e.held.state, e.pc.phase.phaseId);
    NextDecisionIsFresh(g, e.held.state, e.pc.phase.phaseId);
  }

  function WithStored(files: map<Ref, Document>, s: StoredFile): map<Ref, Document> {
    if s.File? then files[s.ref := s.document] else files
  }

  /** The files once the groundwork of a step is done. */
  function FilesBeforeSave(cfg: Config, d: Disk, e: Engine, inp: Input): map<Ref, Document>
    requires Running(e)
  {
    if WritesNone(BeforeOf(PlanOf(cfg, d, e, inp))) then d.files else WithStored(d.files, StoredBy(e, inp))
  }

  lemma FreshFileKeepsIntact(g: PhaseGraph, st: SessionState, files: map<Ref, Document>, s: StoredFile)
    requires Intact(g, st, files) && (s.File? ==> !RefOf(g, st, s.ref))
    ensures Intact(g, st, WithStored(files, s))
  {
    if s.File? {
      EffectKeeps(g, EMPTY_DISK.(state := Some(st), files := files), ArtifactWrite(s.ref, s.document));
    }
  }

  lemma CommittingStores(cfg: Config, d: Disk, e: Engine, inp: Input)
    requires Commits(cfg, d, e, inp)
    ensures var c := CommitOf(cfg, d, e, inp);
            c.Iterate? || c.Judge? ==> FilesBeforeSave(cfg, d, e, inp) == WithStored(d.files, StoredBy(e, inp))
  {
    hide PlanOf, StoredBy;
    PlanStores(cfg, d, e, inp);
  }

  /** The files after the groundwork of a step hold what the committed entry refers to. */
  lemma CommitIsIntact(g: PhaseGraph, cfg: Config, d: Disk, e: Engine, inp: Input)
    requires Commits(cfg, d, e, inp)
    requires Sound(g, d, e)
    requires Intact(g, e.held.state, d.files)
    requires StoredBy(e, inp).File? ==> !RefOf(g, e.held.state, StoredBy(e, inp).ref)
    ensures Intact(g, ApplyCommit(e.held.state, CommitOf(cfg, d, e, inp)), FilesBeforeSave(cfg, d, e, inp))
  {
    hide WellFormed, RefOf, PcOk, PlanOf, StoredBy, HandoffMatches, DecisionMatches;
    var files := FilesBeforeSave(cfg, d, e, inp);
    FreshFileKeepsIntact(g, e.held.state, d.files, StoredBy(e, inp));
    CommittingStores(cfg, d, e, inp);
    EntryLoads(cfg, d, e, inp, files);
    PlanIsOk(g, cfg, d, e, inp);
    var c := CommitOf(cfg, d, e, inp);
    assert c.Stub? ==> IsHuman(g, c.stub.phaseId);
  }

  lemma EntryLoads(cfg: Config, d: Disk, e: Engine, inp: Input, files: map<Ref, Document>)
    requires Commits(cfg, d, e, inp)
    requires var c := CommitOf(cfg, d, e, inp);
             (c.Iterate? || c.Judge?) && StoredBy(e, inp).File? ==>
               StoredBy(e, inp).ref in files && files[StoredBy(e, inp).ref] == StoredBy(e, inp).document
    ensures var c := CommitOf(cfg, d, e, inp);
            && (c.Iterate? ==> HandoffLoads(files, c.iteration))
            && (c.Judge? ==> c.verdict.findingsRef.Some? && c.verdict.findingsRef.value in files &&
                             DecisionMatches(c.verdict, files[c.verdict.findingsRef.value]))
  {
    hide HumanDecision, HistoryFor, AfterIteration;
  }

  lemma RefsGrow(g: PhaseGraph, st: SessionState, c: Commit)
    requires c.Judge? ==> !IsHuman(g, c.verdict.phaseId)
    ensures forall ref :: RefOf(g, st, ref) ==> RefOf(g, ApplyCommit(st, c), ref)
  {
    var st' := ApplyCommit(st, c);
    forall ref | HandoffRefOf(st, ref) ensures HandoffRefOf(st', ref) {
      var i :| 0 <= i < |st.iterations| && st.iterations[i].handoffRef == Some(ref);
      assert st'.iterations[i] == st.iterations[i];
    }
    forall ref | DecisionRefOf(g, st, ref) ensures DecisionRefOf(g, st', ref) {
      var i :| 0 <= i < |st.reviews| && !IsHuman(g, st.reviews[i].phaseId) && st.reviews[i].findingsRef == Some(ref);
      assert st'.reviews[i] == st.reviews[i];
    }
  }

  lemma {:induction false} GroundworkIsSafe(g: PhaseGraph, d: Disk, e: Engine, inp: Input, before: seq<Effect>)
    requires Running(e) && Groundwork(before) && d.state == Some(e.held.state)
    requires WritesNone(before) || Stores(before, StoredBy(e, inp))
    requires StoredBy(e, inp).File? ==> !RefOf(g, e.held.state, StoredBy(e, inp).ref)
    ensures SafeTrace(g, d, before)
    ensures Apply(d, before).state == d.state
    ensures var s := StoredBy(e, inp);
            Apply(d, before).files == if WritesNone(before) then d.files else d.files[s.ref := s.document]
  {
    hide StoredBy, RefOf;
    var s := StoredBy(e, inp);
    if s.File? {
      GroundworkFiles(g, d, before, s.ref, s.document);
    } else {
      GroundworkFiles(g, d, before, "", TextDocument(""));
    }
  }

  lemma {:induction false} StepIsSafe(g: PhaseGraph, cfg: Config, d: Disk, e: Engine, inp: Input)
    requires ValidGraph(g) && ApartIds(g) && Sound(g, d, e) && DiskIntact(g, d)
    ensures SafeTrace(g, d, Step(g, cfg, d, e, inp).out)
  {
    hide ValidGraph, ApartIds, Step, PlanOf, WellFormed, StoredBy, RefOf, Intact, Groundwork, Aftermath, SafeTrace;
    var o := Step(g, cfg, d, e, inp);
    var before, tail := StepShape(g, cfg, d, e, inp);
    if Running(e) {
      PlanStoresFiles(cfg, d, e, inp);
      StoredIsFresh(g, e, inp);
      GroundworkIsSafe(g, d, e, inp, before);
      var d1 := Apply(d, before);
      if Commits(cfg, d, e, inp) {
        SaveIsSafe(g, cfg, d, e, inp, d1, o.next.held);
        var d2 := Apply(d1, Written(o.next));
        AftermathIsSafe(g, d2, tail);
        SafeConcat(g, d, before, Written(o.next));
        ApplyConcat(d, before, Written(o.next));
        SafeConcat(g, d, before + Written(o.next), tail);
      } else {
        AftermathIsSafe(g, d1, tail);
        SafeConcat(g, d, before, tail);
      }
    } else {
      AftermathIsSafe(g, d, tail);
      assert o.out == tail;
    }
  }

  lemma PlanStoresFiles(cfg: Config, d: Disk, e: Engine, inp: Input)
    requires Running(e)
    ensures var before := BeforeOf(PlanOf(cfg, d, e, inp));
            WritesNone(before) || Stores(before, StoredBy(e, inp))
  {
    hide PlanOf, StoredBy;
    PlanStores(cfg, d, e, inp);
  }

  lemma {:induction false} SaveIsSafe(g: PhaseGraph, cfg: Config, d: Disk, e: Engine, inp: Input, d1: Disk, n: Stored)
    requires Commits(cfg, d, e, inp)
    requires n == Held(e, CommitOf(cfg, d, e, inp))
    requires d1.files == FilesBeforeSave(cfg, d, e, inp)
    requires Sound(g, d, e) && DiskIntact(g, d) && d1.state == d.state
    requires StoredBy(e, inp).File? ==> !RefOf(g, e.held.state, StoredBy(e, inp).ref)
    ensures SafeTrace(g, d1, [StateWrite(n.state), RevisionWrite(n.revision)])
  {
    hide PlanOf, WellFormed, StoredBy, RefOf, Intact, PcOk, FilesBeforeSave, Descends;
    PlanIsOk(g, cfg, d, e, inp);
    CommitIsIntact(g, cfg, d, e, inp);
    CommitDescends(e.held.state, CommitOf(cfg, d, e, inp));
    RefsGrow(g, e.held.state, CommitOf(cfg, d, e, inp));
    var writes := [StateWrite(n.state), RevisionWrite(n.revision)];
    assert writes[1..] == [writes[1]] && writes[1..][1..] == [];
    var d2 := ApplyEffect(d1, writes[0]);
    assert SafeTrace(g, ApplyEffect(d2, writes[1]), []);
    assert SafeTrace(g, d2, writes[1..]);
  }

  // ---- Lives ----------------------------------------------------------------------------------

  lemma {:induction false} ExecIsSafe(g: PhaseGraph, cfg: Config, d: Disk, e: Engine, inputs: seq<Input>)
    requires ValidGraph(g) && ApartIds(g) && Sound(g, d, e) && DiskIntact(g, d)
    ensures SafeTrace(g, d, Exec(g, cfg, d, e, inputs).trace)
    decreases |inputs|
  {
    hide ValidGraph, ApartIds, Step, Sound, DiskIntact, SafeEffect;
    if inputs != [] && Running(e) {
      var o := Step(g, cfg, d, e, inputs[0]);
      var d1 := Apply(d, o.out);
      StepIsSafe(g, cfg, d, e, inputs[0]);
      StepKeepsSound(g, cfg, d, e, inputs[0]);
      SafeKeeps(g, d, o.out);
      ExecIsSafe(g, cfg, d1, o.next, inputs[1..]);
      SafeConcat(g, d, o.out, Exec(g, cfg, d1, o.next, inputs[1..]).trace);
    }
  }

  /** Starting a run writes no artifact and refers to none that was not referred to before. */
  lemma {:induction false} BootIsSafe(g: PhaseGraph, cfg: Config, d: Disk, req: RunRequest)
    requires DiskIntact(g, d)
    ensures SafeTrace(g, d, Boot(g, cfg, d, req).out)
  {
    hide DiskIntact, RefOf, Intact, Boot, Launch;
    BootIsLaunch(g, cfg, d, req);
    if !Rejected(d, req) {
      var out := InitialWrites(g, d, req);
      InitialWritesLand(g, d, req);
      InitialWritesAreSafe(g, d, req);
      var d1 := Apply(d, out);
      var s := LoadedState(g, d, req);
      var tail := LaunchIsSafe(g, cfg, d1, s, out, req);
      SafeConcat(g, d, out, tail);
    }
  }

  lemma {:induction false} InitialWritesAreSafe(g: PhaseGraph, d: Disk, req: RunRequest)
    requires DiskIntact(g, d)
    ensures SafeTrace(g, d, InitialWrites(g, d, req))
    ensures DiskIntact(g, Apply(d, InitialWrites(g, d, req)))
  {
    var out := InitialWrites(g, d, req);
    InitialWritesLand(g, d, req);
    if d.state.None? {
      assert out[1..] == [out[1]] && out[1..][1..] == [];
      var d1 := ApplyEffect(d, out[0]);
      assert SafeTrace(g, ApplyEffect(d1, out[1]), []);
      assert SafeTrace(g, d1, out[1..]);
    }
  }

  lemma LaunchIsSafe(g: PhaseGraph, cfg: Config, d: Disk, s: Stored, out: seq<Effect>, req: RunRequest)
    returns (tail: seq<Effect>)
    requires d.state == Some(s.state) && DiskIntact(g, d)
    ensures Launch(g, cfg, d, s, out, req).out == out + tail && SafeTrace(g, d, tail)
  {
    hide Abort, Announce, EnterPhase;
    var e := Fresh(Timed(s, req), Finished);
    var st := e.held.state;
    if Terminal(st.status) {
      tail := [];
      assert out + [] == out;
      AftermathIsSafe(g, d, tail);
    } else if !req.preflight {
      tail := AbortShape(g, e, out, ConfigurationError, req.now);
      AftermathIsSafe(g, d, tail);
    } else if st.status.Initialized? {
      var err := SaveError(d, e.held.revision);
      if err.Some? {
        tail := AbortShape(g, e, out, err.value, req.now);
        AftermathIsSafe(g, d, tail);
      } else {
        var e1 := Saved(e, Begin);
        var end := ConcludeShape(g, cfg, e1, out + Written(e1), Begin, Enter, req.now);
        tail := Written(e1) + end;
        assert out + Written(e1) + end == out + tail;
        BeginIsSafe(g, d, e1.held);
        AftermathIsSafe(g, Apply(d, Written(e1)), end);
        SafeConcat(g, d, Written(e1), end);
      }
    } else {
      var p := Get(g, st.currentPhase);
      if p.None? {
        tail := AbortShape(g, e, out, ConfigurationError, req.now);
      } else {
        var resumed := [Emit(RunResumed(st.sessionId, p.value.phaseId, p.value.roleId, p.value.kind, e.held.revision,
                                        req.now))];
        var end := EnterShape(g, e, out + resumed, req.now);
        tail := resumed + end;
        assert out + resumed + end == out + tail;
      }
      AftermathIsSafe(g, d, tail);
    }
  }

  lemma {:induction false} BeginIsSafe(g: PhaseGraph, d: Disk, s: Stored)
    requires d.state.Some? && DiskIntact(g, d)
    requires s.state.iterations == d.state.value.iterations && s.state.reviews == d.state.value.reviews
    ensures SafeTrace(g, d, [StateWrite(s.state), RevisionWrite(s.revision)])
  {
    var writes := [StateWrite(s.state), RevisionWrite(s.revision)];
    assert writes[1..] == [writes[1]] && writes[1..][1..] == [];
    var d2 := ApplyEffect(d, writes[0]);
    assert SafeTrace(g, ApplyEffect(d2, writes[1]), []);
    assert SafeTrace(g, d2, writes[1..]);
  }

  /** What survives of a run is safe, wherever it is cut off. */
  lemma {:induction false} RunDeedIsSafe(g: PhaseGraph, d: Disk, deed: Deed)
    requires ValidGraph(g) && ApartIds(g) && DiskOk(g, d) && DiskIntact(g, d) && deed.RunDeed?
    ensures SafeTrace(g, d, Surviving(g, d, deed))
  {
    hide ValidGraph, ApartIds, DiskOk, DiskIntact, Boot, Exec;
    var o := Boot(g, deed.cfg, d, deed.req);
    var d1 := Apply(d, o.out);
    BootKeepsSound(g, deed.cfg, d, deed.req);
    BootIsSafe(g, deed.cfg, d, deed.req);
    SafeKeeps(g, d, o.out);
    ExecIsSafe(g, deed.cfg, d1, o.next, deed.inputs);
    SafeConcat(g, d, o.out, Exec(g, deed.cfg, d1, o.next, deed.inputs).trace);
    var trace := Session(g, deed.cfg, d, deed.req, deed.inputs).trace;
    if deed.cut < |trace| {
      SafePrefix(g, d, trace, deed.cut);
    }
  }

  /** A human decision touches no file and no entry the engine committed. */
  lemma DecisionIsSafe(g: PhaseGraph, d: Disk, deed: Deed)
    requires DiskOk(g, d) && DiskIntact(g, d) && deed.DecideDeed?
    ensures DiskIntact(g, Live(g, d, deed)) && DiskDescends(d, Live(g, d, deed))
    ensures Live(g, d, deed).files == d.files
    ensures forall ref :: DiskRef(g, d, ref) ==> DiskRef(g, Live(g, d, deed), ref)
  {
    hide NumberedIterations, NumberedReviews, AutomatedChanges, IterationOk, Loadable;
    if d.state.Some? && Replaces(d.state.value, deed.index, deed.entry) {
      var st := d.state.value;
      var st' := Live(g, d, deed).state.value;
      assert ReviewOk(g, st.reviews[deed.index]);
      assert IsHuman(g, deed.entry.phaseId);
      forall i | 0 <= i < |st'.reviews| ensures DecisionLoads(g, d.files, st'.reviews[i]) {
        assert DecisionLoads(g, d.files, st.reviews[i]);
      }
      forall ref | DecisionRefOf(g, st, ref) ensures DecisionRefOf(g, st', ref) {
        var i :| 0 <= i < |st.reviews| && !IsHuman(g, st.reviews[i].phaseId) && st.reviews[i].findingsRef == Some(ref);
        assert st'.reviews[i] == st.reviews[i];
      }
      forall ref | HandoffRefOf(st, ref) ensures HandoffRefOf(st', ref) {
        var i :| 0 <= i < |st.iterations| && st.iterations[i].handoffRef == Some(ref);
        assert st'.iterations[i] == st.iterations[i];
      }
    }
  }

  /** Crash consistency. Take any life of a session: runs cut off after any effect, also between an artifact
      and the snapshot that refers to it, or between the two files of the state store, followed by any number
      of resumes and human decisions. Then every reference in the stored state loads a document of its own
      entry, and a reference that was ever committed is never lost and never loads anything else. */
  lemma {:induction false} CommittedArtifactsSurvive(g: PhaseGraph, d: Disk, deeds: seq<Deed>)
    requires ValidGraph(g) && ApartIds(g) && DiskOk(g, d) && DiskIntact(g, d)
    ensures DiskIntact(g, LiveAll(g, d, deeds)) && DiskDescends(d, LiveAll(g, d, deeds))
    ensures forall ref :: DiskRef(g, d, ref) ==>
      && DiskRef(g, LiveAll(g, d, deeds), ref)
      && (ref in d.files ==> ref in LiveAll(g, d, deeds).files && LiveAll(g, d, deeds).files[ref] == d.files[ref])
    decreases |deeds|
  {
    hide ValidGraph, ApartIds, DiskOk, DiskIntact, Live, DiskRef;
    if deeds != [] {
      var d1 := Live(g, d, deeds[0]);
      LiveKeepsOk(g, d, deeds[0]);
      DeedKeepsArtifacts(g, d, deeds[0]);
      CommittedArtifactsSurvive(g, d1, deeds[1..]);
      DescentComposes(d, d1, LiveAll(g, d, deeds));
    }
  }

  lemma DeedKeepsArtifacts(g: PhaseGraph, d: Disk, deed: Deed)
    requires ValidGraph(g) && ApartIds(g) && DiskOk(g, d) && DiskIntact(g, d)
    ensures DiskIntact(g, Live(g, d, deed)) && DiskDescends(d, Live(g, d, deed))
    ensures forall ref :: DiskRef(g, d, ref) ==>
      && DiskRef(g, Live(g, d, deed), ref)
      && (ref in d.files ==> ref in Live(g, d, deed).files && Live(g, d, deed).files[ref] == d.files[ref])
  {
    hide ValidGraph, ApartIds, DiskOk, DiskIntact, DiskDescends, DiskRef, Surviving;
    if deed.RunDeed? {
      RunDeedIsSafe(g, d, deed);
      SafeKeeps(g, d, Surviving(g, d, deed));
    } else {
      DecisionIsSafe(g, d, deed);
    }
  }

  /** What a step commits is what its role returned: the handoff of an iteration and the payload of a verdict
      are on disk, under the reference in the new entry, by the time the entry is. */
  lemma {:induction false} CommittedContentIsTheRolesOwn(g: PhaseGraph, cfg: Config, d: Disk, e: Engine, inp: Input)
    requires Commits(cfg, d, e, inp)
    ensures var c := CommitOf(cfg, d, e, inp);
            var files := Apply(d, Step(g, cfg, d, e, inp).out).files;
            && (c.Iterate? ==>
                  && inp.execution.Returned?
                  && c.iteration.handoffRef.Some? == inp.execution.value.handoff.Some?
                  && (c.iteration.handoffRef.Some? ==>
                        && c.iteration.handoffRef.value in files
                        && files[c.iteration.handoffRef.value] ==
                           HandoffDocument(c.iteration.phaseId, inp.execution.value.roleId,
                                           inp.execution.value.handoff.value)))
            && (c.Judge? ==>
                  && inp.review.Returned? && inp.review.value.endedAt.Some? && e.pc.ReviewTop?
                  && c.verdict.findingsRef.Some?
                  && c.verdict.findingsRef.value in files
                  && files[c.verdict.findingsRef.value] == DecisionDocument(c.payload)
                  && Conveys(c.payload, e.pc.phase, inp.review.value))
  {
    hide Step, HumanDecision, HistoryFor, AfterIteration;
    var before, tail := StepShape(g, cfg, d, e, inp);
    FilesAfterStep(g, cfg, d, e, inp, before, tail);
    CommittingStores(cfg, d, e, inp);
  }

  lemma {:induction false} FilesAfterStep(g: PhaseGraph, cfg: Config, d: Disk, e: Engine, inp: Input,
                                          before: seq<Effect>, tail: seq<Effect>)
    requires Commits(cfg, d, e, inp) && Groundwork(before) && Aftermath(tail)
    requires before == BeforeOf(PlanOf(cfg, d, e, inp))
    requires Step(g, cfg, d, e, inp).out == before + Written(Step(g, cfg, d, e, inp).next) + tail
    ensures Apply(d, Step(g, cfg, d, e, inp).out).files == FilesBeforeSave(cfg, d, e, inp)
  {
    hide Step, PlanOf, StoredBy;
    PlanStoresFiles(cfg, d, e, inp);
    var w := Written(Step(g, cfg, d, e, inp).next);
    var s := StoredBy(e, inp);
    GroundworkFilesOnly(d, before, s);
    ApplyConcat(d, before + w, tail);
    ApplyConcat(d, before, w);
    var d1 := Apply(d, before);
    WritesBoth(d1, Step(g, cfg, d, e, inp).next.held);
    AftermathIsSafe(g, Apply(d1, w), tail);
  }

  lemma {:induction false} GroundworkFilesOnly(d: Disk, before: seq<Effect>, s: StoredFile)
    requires Groundwork(before) && (WritesNone(before) || Stores(before, s))
    ensures Apply(d, before).files == if WritesNone(before) then d.files else WithStored(d.files, s)
  {
    var d' := d.(state := None);
    GroundworkIgnoresState(d, d', before);
    if s.File? {
      GroundworkFiles([], d', before, s.ref, s.document);
    } else {
      GroundworkFiles([], d', before, "", TextDocument(""));
    }
  }

  lemma {:induction false} GroundworkIgnoresState(d: Disk, d': Disk, before: seq<Effect>)
    requires d'.files == d.files && Groundwork(before)
    ensures Apply(d', before).files == Apply(d, before).files
    decreases |before|
  {
    if before != [] {
      GroundworkIgnoresState(ApplyEffect(d, before[0]), ApplyEffect(d', before[0]), before[1..]);
    }
  }
}
