/** What becomes of a commit: the entry and the content a step saved, followed through the rest of its own run,
    cut off at any effect, and through everything that happens to the session afterwards. */
module Lineage {
  import opened Wrappers
  import opened Graph
  import opened State
  import opened Events
  import opened Names
  import opened Disk
  import opened Machine
  import opened Invariants
  import opened Sessions
  import opened Crash

  /** The n-th iteration is this entry, and its reference loads what its role returned. */
  predicate IterationKept(d: Disk, n: nat, entry: IterationEntry, body: Option<string>) {
    && d.state.Some?
    && n < |d.state.value.iterations|
    && d.state.value.iterations[n] == entry
    && entry.handoffRef.Some? == body.Some?
    && (body.Some? ==>
          && entry.handoffRef.value in d.files
          && d.files[entry.handoffRef.value] == HandoffDocument(entry.phaseId, entry.roleId, body.value))
  }

  /** The n-th review is this verdict, and its reference loads the payload its reviewer returned. */
  predicate VerdictKept(d: Disk, n: nat, verdict: ReviewEntry, payload: DecisionPayload) {
    && d.state.Some?
    && n < |d.state.value.reviews|
    && d.state.value.reviews[n] == verdict
    && verdict.findingsRef.Some?
    && verdict.findingsRef.value in d.files
    && d.files[verdict.findingsRef.value] == DecisionDocument(payload)
  }

  /** What a step committed is on disk, at its place in the history. */
  predicate CommitKept(e: Engine, c: Commit, inp: Input, d: Disk) {
    && (c.Iterate? ==>
          && inp.execution.Returned?
          && IterationKept(d, |e.held.state.iterations|, c.iteration, inp.execution.value.handoff))
    && (c.Judge? ==>
          && e.pc.ReviewTop? && inp.review.Returned? && inp.review.value.endedAt.Some?
          && Conveys(c.payload, e.pc.phase, inp.review.value)
          && VerdictKept(d, |e.held.state.reviews|, c.verdict, c.payload))
  }

  /** The effects of a run that starts with a given step. */
  function TraceFrom(g: PhaseGraph, cfg: Config, d: Disk, e: Engine, inp: Input, inputs: seq<Input>): seq<Effect> {
    Exec(g, cfg, d, e, [inp] + inputs).trace
  }

  /** A cut that comes after the state file of a committing step, and maybe before its revision file. */
  predicate PastTheSave(g: PhaseGraph, cfg: Config, d: Disk, e: Engine, inp: Input, inputs: seq<Input>, cut: nat) {
    && Running(e)
    && |BeforeOf(PlanOf(cfg, d, e, inp))| < cut <= |TraceFrom(g, cfg, d, e, inp, inputs)|
  }

  lemma {:induction false} TraceSplits(g: PhaseGraph, cfg: Config, d: Disk, e: Engine, inp: Input, inputs: seq<Input>)
    requires Running(e)
    ensures var o := Step(g, cfg, d, e, inp);
            TraceFrom(g, cfg, d, e, inp, inputs) == o.out + Exec(g, cfg, Apply(d, o.out), o.next, inputs).trace
  {
    hide Step;
    assert ([inp] + inputs)[1..] == inputs;
  }

  // ---- A kept entry stays kept ----------------------------------------------------------------

  lemma KeptVerdictIsReferred(g: PhaseGraph, d: Disk, n: nat, v: ReviewEntry, payload: DecisionPayload)
    requires VerdictKept(d, n, v, payload) && !IsHuman(g, v.phaseId)
    ensures DiskRef(g, d, v.findingsRef.value)
  {
    assert d.state.value.reviews[n] == v;
  }

  lemma KeptIterationIsReferred(g: PhaseGraph, d: Disk, n: nat, entry: IterationEntry, body: Option<string>)
    requires IterationKept(d, n, entry, body) && body.Some?
    ensures DiskRef(g, d, entry.handoffRef.value)
  {
    assert d.state.value.iterations[n] == entry;
  }

  /** Files under committed references are the same. */
  ghost predicate RefsKept(g: PhaseGraph, d: Disk, d': Disk) {
    forall ref :: DiskRef(g, d, ref) && ref in d.files ==> ref in d'.files && d'.files[ref] == d.files[ref]
  }

  lemma VerdictStaysKept(g: PhaseGraph, d: Disk, d': Disk, n: nat, v: ReviewEntry, payload: DecisionPayload)
    requires VerdictKept(d, n, v, payload) && !IsHuman(g, v.phaseId) && Decided(v)
    requires DiskDescends(d, d') && RefsKept(g, d, d')
    ensures VerdictKept(d', n, v, payload)
  {
    KeptVerdictIsReferred(g, d, n, v, payload);
    assert EntryLasts(d.state.value.reviews[n], d'.state.value.reviews[n]);
  }

  lemma IterationStaysKept(g: PhaseGraph, d: Disk, d': Disk, n: nat, entry: IterationEntry, body: Option<string>)
    requires IterationKept(d, n, entry, body)
    requires DiskDescends(d, d') && RefsKept(g, d, d')
    ensures IterationKept(d', n, entry, body)
  {
    if body.Some? {
      KeptIterationIsReferred(g, d, n, entry, body);
    }
  }

  // ---- The step itself ------------------------------------------------------------------------

  /** Once the state file is written, the entry and its content are there. */
  lemma {:induction false} CommitLands(g: PhaseGraph, cfg: Config, d: Disk, e: Engine, inp: Input)
    requires Commits(cfg, d, e, inp)
    ensures var before := BeforeOf(PlanOf(cfg, d, e, inp));
            var c := CommitOf(cfg, d, e, inp);
            var st := Held(e, c).state;
            var d1 := Apply(d, before + [StateWrite(st)]);
            d1.state == Some(st) && CommitKept(e, c, inp, d1)
  {
    hide Step, PlanOf, StoredBy, Conveys;
    var plan, c := PlanOf(cfg, d, e, inp), CommitOf(cfg, d, e, inp);
    var before := BeforeOf(plan);
    PlansAreOrdered(cfg, d, e, inp);
    PlanStoresFiles(cfg, d, e, inp);
    GroundworkFilesOnly(d, before, StoredBy(e, inp));
    OneMore(d, before, StateWrite(Held(e, c).state));
    CommittingStores(cfg, d, e, inp);
    CommitsItsFile(cfg, d, e, inp);
    if c.Judge? {
      VerdictOf(cfg, d, e, inp);
    }
  }

  /** A step that commits the verdict of an automated reviewer. */
  predicate Judges(cfg: Config, d: Disk, e: Engine, inp: Input) {
    Commits(cfg, d, e, inp) && CommitOf(cfg, d, e, inp).Judge?
  }

  lemma VerdictOf(cfg: Config, d: Disk, e: Engine, inp: Input)
    requires Judges(cfg, d, e, inp)
    ensures var c := CommitOf(cfg, d, e, inp);
            && e.pc.ReviewTop? && !e.pc.phase.human
            && inp.review.Returned? && inp.review.value.endedAt.Some?
            && Conveys(c.payload, e.pc.phase, inp.review.value)
            && c.verdict == VerdictFor(e.held.state, e.pc.phase, c.payload)
  {
    hide HumanDecision, HistoryFor, AfterIteration;
  }

  /** The file a step stores is the one its entry refers to, and holds what the role returned. */
  lemma CommitsItsFile(cfg: Config, d: Disk, e: Engine, inp: Input)
    requires Commits(cfg, d, e, inp)
    ensures var c, s := CommitOf(cfg, d, e, inp), StoredBy(e, inp);
            && (c.Iterate? ==>
                  && inp.execution.Returned?
                  && var body := inp.execution.value.handoff;
                  && c.iteration.handoffRef.Some? == body.Some?
                  && (body.Some? ==> s == File(c.iteration.handoffRef.value,
                                               HandoffDocument(c.iteration.phaseId, c.iteration.roleId, body.value))))
            && (c.Judge? ==>
                  && c.verdict.findingsRef.Some?
                  && s == File(c.verdict.findingsRef.value, DecisionDocument(c.payload)))
  {
    hide HumanDecision, HistoryFor, AfterIteration;
  }

  /** The verdict a step commits is decided and belongs to an automated phase. */
  lemma CommittedVerdictIsDecided(g: PhaseGraph, cfg: Config, d: Disk, e: Engine, inp: Input)
    requires Sound(g, d, e) && Commits(cfg, d, e, inp) && CommitOf(cfg, d, e, inp).Judge?
    ensures var v := CommitOf(cfg, d, e, inp).verdict; Decided(v) && !IsHuman(g, v.phaseId)
  {
    hide PlanOf, WellFormed, PcOk;
    PlanIsOk(g, cfg, d, e, inp);
  }

  // ---- The rest of the run, and of the life ---------------------------------------------------

  lemma {:induction false} CutIsOk(g: PhaseGraph, cfg: Config, d: Disk, e: Engine, inputs: seq<Input>, cut: nat)
    requires ValidGraph(g) && Sound(g, d, e) && cut <= |Exec(g, cfg, d, e, inputs).trace|
    ensures DiskOk(g, Apply(d, Exec(g, cfg, d, e, inputs).trace[..cut]))
  {
    hide Exec, WellFormed, ValidGraph, PcOk;
    ExecKeepsSound(g, cfg, d, e, inputs);
    PrefixIsOk(g, d, Exec(g, cfg, d, e, inputs).trace[..cut]);
  }

  /** From the state file of a committing step to any later cut of the same run. */
  lemma {:induction false} CommitSurvivesTheRun(g: PhaseGraph, cfg: Config, d: Disk, e: Engine, inp: Input,
                                            inputs: seq<Input>, cut: nat)
    requires ValidGraph(g) && ApartIds(g) && Sound(g, d, e) && DiskIntact(g, d)
    requires Commits(cfg, d, e, inp) && PastTheSave(g, cfg, d, e, inp, inputs, cut)
    ensures var d' := Apply(d, TraceFrom(g, cfg, d, e, inp, inputs)[..cut]);
            && CommitKept(e, CommitOf(cfg, d, e, inp), inp, d')
            && DiskOk(g, d') && DiskIntact(g, d')
  {
    hide ValidGraph, ApartIds, Sound, DiskIntact, DiskOk, Exec, Step, PlanOf, IterationKept, VerdictKept, DiskDescends,
      DiskRef, IsHuman;
    var full, c := TraceFrom(g, cfg, d, e, inp, inputs), CommitOf(cfg, d, e, inp);
    var saved := BeforeOf(PlanOf(cfg, d, e, inp)) + [StateWrite(Held(e, c).state)];
    var d1 := Apply(d, saved);
    CommitLands(g, cfg, d, e, inp);
    SavedIsPrefix(g, cfg, d, e, inp, inputs);
    ExecIsSafe(g, cfg, d, e, [inp] + inputs);
    SafePrefix(g, d, full, cut);
    var rest := full[|saved|..cut];
    assert full[..cut] == saved + rest;
    SafePrefix(g, d, full[..cut], |saved|);
    assert full[..cut][..|saved|] == saved;
    SafeSuffix(g, d, saved, rest);
    SafeKeeps(g, d, saved);
    SafeKeeps(g, d1, rest);
    ApplyConcat(d, saved, rest);
    assert RefsKept(g, d1, Apply(d1, rest));
    CommitStaysKept(g, cfg, d, e, inp, d1, Apply(d1, rest));
    CutIsOk(g, cfg, d, e, [inp] + inputs, cut);
  }

  lemma CommitStaysKept(g: PhaseGraph, cfg: Config, d: Disk, e: Engine, inp: Input, d1: Disk, d2: Disk)
    requires Sound(g, d, e) && Commits(cfg, d, e, inp) && CommitKept(e, CommitOf(cfg, d, e, inp), inp, d1)
    requires DiskDescends(d1, d2) && RefsKept(g, d1, d2)
    ensures CommitKept(e, CommitOf(cfg, d, e, inp), inp, d2)
  {
    hide Sound, PlanOf, IterationKept, VerdictKept, DiskDescends, RefsKept, IsHuman, Decided;
    var c := CommitOf(cfg, d, e, inp);
    if c.Iterate? {
      IterationStaysKept(g, d1, d2, |e.held.state.iterations|, c.iteration, inp.execution.value.handoff);
    } else if c.Judge? {
      CommittedVerdictIsDecided(g, cfg, d, e, inp);
      VerdictStaysKept(g, d1, d2, |e.held.state.reviews|, c.verdict, c.payload);
    }
  }

  lemma SavedIsPrefix(g: PhaseGraph, cfg: Config, d: Disk, e: Engine, inp: Input, inputs: seq<Input>)
    requires Commits(cfg, d, e, inp)
    ensures var saved := BeforeOf(PlanOf(cfg, d, e, inp)) + [StateWrite(Held(e, CommitOf(cfg, d, e, inp)).state)];
            saved <= TraceFrom(g, cfg, d, e, inp, inputs)
  {
    hide Exec, Step, PlanOf, Groundwork, Aftermath;
    var before, tail := StepShape(g, cfg, d, e, inp);
    TraceSplits(g, cfg, d, e, inp, inputs);
  }

  /** Content is conserved. Let a step commit an iteration or a verdict, let its run go on with any inputs, and
      cut it off after any effect once the state file is written, also before the revision file. Then let the
      session live on through any number of runs, crashes, resumes and human decisions. The entry is still at
      its place in the stored history, and its reference loads exactly what the role of that step returned. */
  lemma {:induction false} CommitLasts(g: PhaseGraph, cfg: Config, d: Disk, e: Engine, inp: Input, inputs: seq<Input>,
                                       cut: nat, deeds: seq<Deed>)
    requires ValidGraph(g) && ApartIds(g) && Sound(g, d, e) && DiskIntact(g, d)
    requires Commits(cfg, d, e, inp) && PastTheSave(g, cfg, d, e, inp, inputs, cut)
    ensures var end := LiveAll(g, Apply(d, TraceFrom(g, cfg, d, e, inp, inputs)[..cut]), deeds);
            CommitKept(e, CommitOf(cfg, d, e, inp), inp, end)
  {
    hide ValidGraph, ApartIds, Sound, DiskIntact, DiskOk, Exec, PlanOf, CommitKept, DiskDescends, DiskRef;
    CommitSurvivesTheRun(g, cfg, d, e, inp, inputs, cut);
    var d' := Apply(d, TraceFrom(g, cfg, d, e, inp, inputs)[..cut]);
    CommittedArtifactsSurvive(g, d', deeds);
    CommitStaysKept(g, cfg, d, e, inp, d', LiveAll(g, d', deeds));
  }
}
