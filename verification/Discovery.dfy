/** Discovery sessions: what completing one does to its context pack. */
module Discovery {
  import opened Wrappers
  import opened Graph
  import opened State
  import opened Events
  import opened Names
  import opened Disk
  import opened Machine
  import opened Invariants
  import opened Sessions
  import opened Crash
  import opened Verdicts

  /** Finalize is the only phase a session can complete in, and it is an executor. */
  predicate FinalizeIsLast(g: PhaseGraph) {
    forall i :: 0 <= i < |g| && ForwardTargets(g[i]) == [] ==> g[i].phaseId == "finalize" && g[i].kind.ExecutorKind?
  }

  function Locks(trace: seq<Effect>): nat {
    if trace == [] then 0 else Locks(trace[1..]) + if trace[0].PackLock? then 1 else 0
  }

  lemma {:induction false} LocksConcat(a: seq<Effect>, b: seq<Effect>)
    ensures Locks(a + b) == Locks(a) + Locks(b)
  {
    if a == [] {
      assert a + b == b;
    } else {
      assert (a + b)[1..] == a[1..] + b;
      LocksConcat(a[1..], b);
    }
  }

  lemma {:induction false} NoLocks(trace: seq<Effect>)
    requires forall i :: 0 <= i < |trace| ==> !trace[i].PackLock?
    ensures Locks(trace) == 0
  {
    if trace != [] {
      NoLocks(trace[1..]);
    }
  }

  lemma {:induction false} LocksShow(d: Disk, trace: seq<Effect>)
    ensures Apply(d, trace).locked <==> d.locked || Locks(trace) > 0
    decreases |trace|
  {
    if trace != [] {
      LocksShow(ApplyEffect(d, trace[0]), trace[1..]);
    }
  }

  // ---- When the pack is locked ----------------------------------------------------------------

  predicate Completes(cfg: Config, d: Disk, e: Engine, inp: Input) {
    Closes(cfg, d, e, inp) && CommitOf(cfg, d, e, inp).status.Completed?
  }

  /** The lock that goes with a commit. */
  function LockOf(cfg: Config, e: Engine, c: Commit): seq<Effect> {
    if c.Close? && c.status.Completed? && PackActive(cfg, e.held.state) then [PackLock] else []
  }

  /** A step locks the pack once if it completes a discovery session, and otherwise not at all; the lock comes
      after the completed snapshot is on disk. */
  lemma StepLocks(g: PhaseGraph, cfg: Config, d: Disk, e: Engine, inp: Input)
    returns (before: seq<Effect>, rest: seq<Effect>)
    requires Running(e)
    ensures var o := Step(g, cfg, d, e, inp);
            var completes := Completes(cfg, d, e, inp) && PackActive(cfg, e.held.state);
            && before == BeforeOf(PlanOf(cfg, d, e, inp))
            && Locks(o.out) == (if completes then 1 else 0)
            && (completes ==>
                  o.out == before + Written(o.next) + [PackLock] + rest && Locks(before) == 0 && Locks(rest) == 0)
  {
    hide PlanOf, HumanDecision, Announce, Abort, Conclude;
    PlansAreOrdered(cfg, d, e, inp);
    var plan, m := PlanOf(cfg, d, e, inp), MarkApplied(e);
    before := BeforeOf(plan);
    NoLocks(before);
    rest := [];
    if Commits(cfg, d, e, inp) {
      var e1 := Saved(m, plan.commit);
      PostNeverLocks(cfg, d, e, inp);
      rest := ConcludeLocks(g, cfg, e1, before + Written(e1), plan.commit, plan.next, inp.now);
      var tail := ConcludeShape(g, cfg, e1, before + Written(e1), plan.commit, plan.next, inp.now);
      SavedLocks(before, e1, LockOf(cfg, e1, plan.commit), rest);
    } else if plan.Fail? {
      AbortLocks(g, m, before, plan.error, inp.now);
    } else if plan.Save? {
      AbortLocks(g, m, before, SaveError(d, m.held.revision).value, inp.now);
    }
  }

  lemma {:induction false} SavedLocks(before: seq<Effect>, n: Engine, lock: seq<Effect>, rest: seq<Effect>)
    requires Locks(before) == 0 && Locks(rest) == 0 && (lock == [] || lock == [PackLock])
    ensures Locks(before + Written(n) + lock + rest) == |lock|
  {
    NoLocks(Written(n));
    LocksConcat(before, Written(n));
    LocksConcat(before + Written(n) + lock, rest);
    LocksConcat(before + Written(n), lock);
    if lock != [] {
      assert lock[1..] == [];
    }
  }

  lemma {:induction false} AbortLocks(g: PhaseGraph, e: Engine, out: seq<Effect>, err: EngineError, now: Time)
    ensures Locks(Abort(g, e, out, err, now).out) == Locks(out)
  {
    var tail := AbortLocksTail(g, e, out, err, now);
    LocksConcat(out, tail);
  }

  lemma AbortLocksTail(g: PhaseGraph, e: Engine, out: seq<Effect>, err: EngineError, now: Time) returns (tail: seq<Effect>)
    ensures Abort(g, e, out, err, now).out == out + tail && Locks(tail) == 0
  {
    tail := Abort(g, e, [], err, now).out;
    assert out + [] == out;
    NoLocks(tail);
  }

  lemma EnterLocksTail(g: PhaseGraph, e: Engine, out: seq<Effect>, now: Time) returns (tail: seq<Effect>)
    ensures EnterPhase(g, e, out, now).out == out + tail && Locks(tail) == 0
  {
    hide Abort;
    if e.held.state.status.InProgress? && Get(g, e.held.state.currentPhase).None? {
      tail := AbortLocksTail(g, e, out, ConfigurationError, now);
    } else {
      tail := [];
      assert out + [] == out;
    }
  }

  lemma PostNeverLocks(cfg: Config, d: Disk, e: Engine, inp: Input)
    requires Running(e)
    ensures var plan := PlanOf(cfg, d, e, inp);
            plan.Save? && plan.next.Halt? ==> Locks(plan.next.post) == 0
  {
    hide HumanDecision, HistoryFor, ValidPayload, ResolveReview;
    assert forall x: Effect :: [x][1..] == [];
    NoLocks([]);
  }

  lemma ConcludeLocks(g: PhaseGraph, cfg: Config, e: Engine, out: seq<Effect>, c: Commit, after: After, now: Time)
    returns (rest: seq<Effect>)
    requires after.Halt? ==> Locks(after.post) == 0
    ensures Conclude(g, cfg, e, out, c, after, now).out == out + LockOf(cfg, e, c) + rest && Locks(rest) == 0
  {
    hide Abort, EnterPhase, Announce, LockOf;
    var lock := LockOf(cfg, e, c);
    if !KnownPhase(g, e.held.state, c) {
      rest := AbortLocksTail(g, e, out, ConfigurationError, now);
      NoLockUnknown(cfg, e, c);
      assert out + [] == out;
    } else {
      var events := AnnounceLocks(g, cfg, e, c, now);
      var said := Announce(g, cfg, e, c, now);
      var end: seq<Effect> := [];
      match after {
        case Enter => end := EnterLocksTail(g, e, out + said, now);
        case At(_) =>
        case Halt(post) => end := post;
        case Reject(err) => end := AbortLocksTail(g, e, out + said, err, now);
      }
      rest := events + end;
      LocksConcat(events, end);
      assert out + said + end == out + lock + rest;
      assert out + said + [] == out + said;
    }
  }

  lemma NoLockUnknown(cfg: Config, e: Engine, c: Commit)
    requires !c.Close?
    ensures LockOf(cfg, e, c) == []
  {
  }

  lemma AnnounceLocks(g: PhaseGraph, cfg: Config, e: Engine, c: Commit, now: Time) returns (events: seq<Effect>)
    ensures Announce(g, cfg, e, c, now) == LockOf(cfg, e, c) + events && Locks(events) == 0
  {
    events := Announce(g, cfg, e, c, now)[|LockOf(cfg, e, c)|..];
    NoLocks(events);
  }

  // ---- The lock follows the snapshot ----------------------------------------------------------

  /** The pack is only ever locked when the snapshot on disk is a completed one, wherever the trace is cut. */
  predicate LocksLast(d: Disk, trace: seq<Effect>)
    decreases |trace|
  {
    trace != [] ==>
      && (trace[0].PackLock? ==> d.state.Some? && d.state.value.status.Completed?)
      && LocksLast(ApplyEffect(d, trace[0]), trace[1..])
  }

  lemma {:induction false} LocksLastConcat(d: Disk, a: seq<Effect>, b: seq<Effect>)
    ensures LocksLast(d, a) && LocksLast(Apply(d, a), b) ==> LocksLast(d, a + b)
    decreases |a|
  {
    if a == [] {
      assert a + b == b;
    } else {
      assert (a + b)[1..] == a[1..] + b;
      LocksLastConcat(ApplyEffect(d, a[0]), a[1..], b);
    }
  }

  lemma {:induction false} LocklessIsLast(d: Disk, trace: seq<Effect>)
    requires Locks(trace) == 0
    ensures LocksLast(d, trace)
    decreases |trace|
  {
    if trace != [] {
      LocklessIsLast(ApplyEffect(d, trace[0]), trace[1..]);
    }
  }

  lemma {:induction false} StepLocksLast(g: PhaseGraph, cfg: Config, d: Disk, e: Engine, inp: Input)
    requires Running(e)
    ensures LocksLast(d, Step(g, cfg, d, e, inp).out)
  {
    hide Step, PlanOf;
    var o := Step(g, cfg, d, e, inp);
    var before, rest := StepLocks(g, cfg, d, e, inp);
    if Completes(cfg, d, e, inp) && PackActive(cfg, e.held.state) {
      var shape, tail := StepShape(g, cfg, d, e, inp);
      LockAfterWrite(d, before, o.next.held, rest);
    } else {
      LocklessIsLast(d, o.out);
    }
  }

  lemma {:induction false} LockAfterWrite(d: Disk, before: seq<Effect>, s: Stored, rest: seq<Effect>)
    requires Locks(before) == 0 && Locks(rest) == 0 && s.state.status.Completed?
    ensures LocksLast(d, before + [StateWrite(s.state), RevisionWrite(s.revision)] + [PackLock] + rest)
  {
    var saved := before + [StateWrite(s.state), RevisionWrite(s.revision)];
    NoLocks([StateWrite(s.state), RevisionWrite(s.revision)]);
    LocksConcat(before, [StateWrite(s.state), RevisionWrite(s.revision)]);
    LocklessIsLast(d, saved);
    WritingLands(d, before, s);
    var d1 := Apply(d, saved);
    LocklessIsLast(ApplyEffect(d1, PackLock), rest);
    assert ([PackLock] + rest)[1..] == rest;
    LocksLastConcat(d, saved, [PackLock] + rest);
    assert saved + ([PackLock] + rest) == saved + [PackLock] + rest;
  }

  lemma {:induction false} WritingLands(d: Disk, before: seq<Effect>, s: Stored)
    ensures Apply(d, before + [StateWrite(s.state), RevisionWrite(s.revision)]).state == Some(s.state)
  {
    ApplyConcat(d, before, [StateWrite(s.state), RevisionWrite(s.revision)]);
    WritesBoth(Apply(d, before), s);
  }

  // ---- What the pack holds --------------------------------------------------------------------

  /** The canonical handoff of the pack is the handoff of the last committed iteration. */
  predicate CanonicalIsLast(st: SessionState, files: map<Ref, Document>, pack: map<Ref, Document>) {
    && st.iterations != []
    && var last := st.iterations[|st.iterations| - 1];
    && last.phaseId == "finalize" && last.handoffRef.Some?
    && last.handoffRef.value in files && files[last.handoffRef.value].HandoffDocument?
    && CANONICAL_HANDOFF in pack
    && pack[CANONICAL_HANDOFF] == files[last.handoffRef.value]
  }

  /** Ready to leave a finalize phase. */
  predicate FinalizeDone(cfg: Config, d: Disk, e: Engine) {
    e.pc.ExecDecide? && e.pc.phase.phaseId == "finalize" && PackActive(cfg, e.held.state) ==>
      CanonicalIsLast(e.held.state, d.files, d.pack)
  }

  lemma {:induction false} LastPackWrite(d: Disk, before: seq<Effect>, ref: Ref, doc: Document)
    requires Groundwork(before)
    ensures Apply(d, before + [PackWrite(ref, doc)]).pack == Apply(d, before).pack[ref := doc]
    ensures Apply(d, before + [PackWrite(ref, doc)]).files == Apply(d, before).files
  {
    ApplyConcat(d, before, [PackWrite(ref, doc)]);
    assert [PackWrite(ref, doc)][1..] == [];
    var d1 := Apply(d, before);
    assert Apply(ApplyEffect(d1, PackWrite(ref, doc)), []) == ApplyEffect(d1, PackWrite(ref, doc));
  }

  lemma {:induction false} AftermathKeepsPack(d: Disk, tail: seq<Effect>)
    requires Aftermath(tail)
    ensures Apply(d, tail).pack == d.pack && Apply(d, tail).files == d.files
    decreases |tail|
  {
    if tail != [] {
      AftermathKeepsPack(ApplyEffect(d, tail[0]), tail[1..]);
    }
  }

  /** The last thing a finalize iteration does before it is saved is to write the canonical handoff. */
  lemma FinalizePlan(cfg: Config, d: Disk, e: Engine, inp: Input)
    requires e.pc.ExecTop? && e.pc.phase.phaseId == "finalize" && PackActive(cfg, e.held.state)
    ensures var plan := PlanOf(cfg, d, e, inp);
            plan.Save? && plan.commit.Iterate? ==>
              && plan.before != []
              && inp.execution.Returned? && inp.execution.value.handoff.Some?
              && plan.commit.iteration.phaseId == "finalize"
              && plan.before[|plan.before| - 1] ==
                 PackWrite(CANONICAL_HANDOFF, HandoffDocument("finalize", inp.execution.value.roleId,
                                                              inp.execution.value.handoff.value))
  {
    hide HistoryFor, AfterIteration;
  }

  lemma {:induction false} IterationFinalizes(g: PhaseGraph, cfg: Config, d: Disk, e: Engine, inp: Input)
    requires e.pc.ExecTop? && Commits(cfg, d, e, inp) && CommitOf(cfg, d, e, inp).Iterate?
    ensures FinalizeDone(cfg, Apply(d, Step(g, cfg, d, e, inp).out), Step(g, cfg, d, e, inp).next)
  {
    hide Step, PlanOf;
    var o := Step(g, cfg, d, e, inp);
    if e.pc.phase.phaseId == "finalize" && PackActive(cfg, e.held.state) {
      FinalizePlan(cfg, d, e, inp);
      CommittedContentIsTheRolesOwn(g, cfg, d, e, inp);
      var before, tail := StepShape(g, cfg, d, e, inp);
      var front := before[..|before| - 1];
      assert before == front + [before[|before| - 1]];
      LastPackWrite(d, front, CANONICAL_HANDOFF, before[|before| - 1].document);
      ApplyConcat(d, before + Written(o.next), tail);
      ApplyConcat(d, before, Written(o.next));
      WritesBoth(Apply(d, before), o.next.held);
      AftermathKeepsPack(Apply(d, before + Written(o.next)), tail);
    } else {
      OtherPhases(g, cfg, d, e, inp);
    }
  }

  lemma OtherPhases(g: PhaseGraph, cfg: Config, d: Disk, e: Engine, inp: Input)
    requires e.pc.ExecTop? && Commits(cfg, d, e, inp) && CommitOf(cfg, d, e, inp).Iterate?
    ensures var n := Step(g, cfg, d, e, inp).next;
            n.pc.ExecDecide? ==> n.pc.phase == e.pc.phase && n.held.state.contextId == e.held.state.contextId
  {
    hide HistoryFor;
  }

  /** A step that completes the session leaves the pack as it was, apart from the lock. */
  lemma {:induction false} CompletingKeepsPack(g: PhaseGraph, cfg: Config, d: Disk, e: Engine, inp: Input)
    requires Completes(cfg, d, e, inp) && e.pc.ExecDecide?
    ensures var d1 := Apply(d, Step(g, cfg, d, e, inp).out); d1.pack == d.pack && d1.files == d.files
  {
    hide Step;
    var o := Step(g, cfg, d, e, inp);
    var before, tail := StepShape(g, cfg, d, e, inp);
    assert before == [];
    assert [] + Written(o.next) == Written(o.next);
    ApplyConcat(d, Written(o.next), tail);
    WritesBoth(d, o.next.held);
    AftermathKeepsPack(Apply(d, Written(o.next)), tail);
  }

  /** Where finalize is last, a session completes only there. */
  lemma CompletesInFinalize(g: PhaseGraph, cfg: Config, d: Disk, e: Engine, inp: Input)
    requires ValidGraph(g) && FinalizeIsLast(g) && Sound(g, d, e) && Completes(cfg, d, e, inp)
    ensures e.pc.ExecDecide? && e.pc.phase.phaseId == "finalize"
  {
    hide ValidGraph, WellFormed;
    ClosingIsJustified(g, cfg, d, e, inp);
    GetFinds(g, e.held.state.currentPhase);
    if e.pc.ExecTop? { ExecTopCloses(g, cfg, d, e, inp); }
  }

  // ---- Runs -----------------------------------------------------------------------------------

  lemma {:induction false} ExecDiscovers(g: PhaseGraph, cfg: Config, d: Disk, e: Engine, inputs: seq<Input>)
    requires ValidGraph(g) && FinalizeIsLast(g) && Sound(g, d, e) && Running(e) && FinalizeDone(cfg, d, e)
    ensures var r := Exec(g, cfg, d, e, inputs);
            var st := r.engine.held.state;
            && (st.status.Completed? && PackActive(cfg, st) ==>
                  Locks(r.trace) == 1 && CanonicalIsLast(st, r.disk.files, r.disk.pack))
            && (!(st.status.Completed? && PackActive(cfg, st)) ==> Locks(r.trace) == 0)
            && LocksLast(d, r.trace)
    decreases |inputs|
  {
    hide ValidGraph, FinalizeIsLast, Step, PlanOf, WellFormed, PcOk, CanonicalIsLast;
    if inputs != [] {
      var o := Step(g, cfg, d, e, inputs[0]);
      var d1 := Apply(d, o.out);
      var before, rest := StepLocks(g, cfg, d, e, inputs[0]);
      StepKeepsSound(g, cfg, d, e, inputs[0]);
      StepStatus(g, cfg, d, e, inputs[0]);
      LocksConcat(o.out, Exec(g, cfg, d1, o.next, inputs[1..]).trace);
      StepLocksLast(g, cfg, d, e, inputs[0]);
      LocksLastConcat(d, o.out, Exec(g, cfg, d1, o.next, inputs[1..]).trace);
      if Running(o.next) {
        StepFinalizes(g, cfg, d, e, inputs[0]);
        ExecDiscovers(g, cfg, d1, o.next, inputs[1..]);
      } else if Completes(cfg, d, e, inputs[0]) {
        CompletesInFinalize(g, cfg, d, e, inputs[0]);
        CompletingKeepsPack(g, cfg, d, e, inputs[0]);
        CompletionSeesLast(e, o.next, d, d1);
      }
    }
  }

  lemma CompletionSeesLast(e: Engine, n: Engine, d: Disk, d1: Disk)
    requires n.held.state.iterations == e.held.state.iterations && d1.files == d.files && d1.pack == d.pack
    ensures CanonicalIsLast(e.held.state, d.files, d.pack) ==> CanonicalIsLast(n.held.state, d1.files, d1.pack)
  {
  }

  /** A step ends in a completed session exactly when it completes it. */
  lemma StepStatus(g: PhaseGraph, cfg: Config, d: Disk, e: Engine, inp: Input)
    requires Sound(g, d, e) && Running(e)
    ensures var n := Step(g, cfg, d, e, inp).next;
            && (n.held.state.status.Completed? <==> Completes(cfg, d, e, inp))
            && n.held.state.contextId == e.held.state.contextId
            && (Completes(cfg, d, e, inp) ==> n.held.state.iterations == e.held.state.iterations && !Running(n))
  {
    hide PlanOf, WellFormed, Announce, PcOk;
    var before, tail := StepShape(g, cfg, d, e, inp);
    PlanIsOk(g, cfg, d, e, inp);
  }

  lemma {:induction false} StepFinalizes(g: PhaseGraph, cfg: Config, d: Disk, e: Engine, inp: Input)
    requires Sound(g, d, e) && Running(e) && Running(Step(g, cfg, d, e, inp).next)
    ensures FinalizeDone(cfg, Apply(d, Step(g, cfg, d, e, inp).out), Step(g, cfg, d, e, inp).next)
  {
    hide Step, WellFormed, CanonicalIsLast, PlanIteration;
    if Step(g, cfg, d, e, inp).next.pc.ExecDecide? {
      OnlyIterationsDecide(g, cfg, d, e, inp);
      IterationFinalizes(g, cfg, d, e, inp);
    }
  }

  lemma OnlyIterationsDecide(g: PhaseGraph, cfg: Config, d: Disk, e: Engine, inp: Input)
    requires Running(e) && Step(g, cfg, d, e, inp).next.pc.ExecDecide?
    ensures e.pc.ExecTop? && Commits(cfg, d, e, inp) && CommitOf(cfg, d, e, inp).Iterate?
  {
    hide HumanDecision, HistoryFor, Announce;
  }

  /** A discovery run that completes locks the pack exactly once, after the completed snapshot, and the canonical
      handoff in the pack is then the handoff of the last committed iteration. A run that does not complete
      never locks it. */
  lemma {:induction false} DiscoveryCompletes(g: PhaseGraph, cfg: Config, d: Disk, req: RunRequest, inputs: seq<Input>)
    requires ValidGraph(g) && FinalizeIsLast(g) && DiskOk(g, d) && !Rejected(d, req)
    requires d.state.Some? ==> !Terminal(d.state.value.status)
    ensures var r := Session(g, cfg, d, req, inputs);
            var st := r.engine.held.state;
            && (st.status.Completed? && PackActive(cfg, st) ==>
                  Locks(r.trace) == 1 && r.disk.locked && CanonicalIsLast(st, r.disk.files, r.disk.pack))
            && (!(st.status.Completed? && PackActive(cfg, st)) ==> Locks(r.trace) == 0 && r.disk.locked == d.locked)
            && LocksLast(d, r.trace)
  {
    hide ValidGraph, FinalizeIsLast, Exec, WellFormed, CanonicalIsLast;
    SessionKeepsSound(g, cfg, d, req, inputs);
    LocksShow(d, Session(g, cfg, d, req, inputs).trace);
    BootKeepsSound(g, cfg, d, req);
    BootNeverLocks(g, cfg, d, req);
    var o := Boot(g, cfg, d, req);
    hide Boot;
    LocksConcat(o.out, Exec(g, cfg, Apply(d, o.out), o.next, inputs).trace);
    LocklessIsLast(d, o.out);
    LocksLastConcat(d, o.out, Exec(g, cfg, Apply(d, o.out), o.next, inputs).trace);
    if Running(o.next) {
      ExecDiscovers(g, cfg, Apply(d, o.out), o.next, inputs);
    } else {
      Stopped(g, cfg, Apply(d, o.out), o.next, inputs);
    }
  }

  predicate Unlocked(trace: seq<Effect>) {
    forall i :: 0 <= i < |trace| ==> !trace[i].PackLock?
  }

  lemma BootNeverLocks(g: PhaseGraph, cfg: Config, d: Disk, req: RunRequest)
    requires d.state.Some? ==> !Terminal(d.state.value.status)
    ensures var o := Boot(g, cfg, d, req);
            Locks(o.out) == 0 && !o.next.pc.ExecDecide? && !o.next.held.state.status.Completed?
  {
    hide Apply, Loadable, Abort, EnterPhase, Announce;
    forall e, out, err | Unlocked(out) {
      AbortUnlocked(g, e, out, err, req.now);
    }
    forall e, out | Unlocked(out) {
      EnterUnlocked(g, e, out, req.now);
    }
    forall e, out | Unlocked(out) {
      BeginUnlocked(g, cfg, e, out, req.now);
    }
    NoLocks(Boot(g, cfg, d, req).out);
  }

  lemma AbortUnlocked(g: PhaseGraph, e: Engine, out: seq<Effect>, err: EngineError, now: Time)
    requires Unlocked(out)
    ensures var o := Abort(g, e, out, err, now); Unlocked(o.out) && o.next.pc.Crashed? && o.next.held == e.held
  {
  }

  lemma EnterUnlocked(g: PhaseGraph, e: Engine, out: seq<Effect>, now: Time)
    requires Unlocked(out)
    ensures var o := EnterPhase(g, e, out, now); Unlocked(o.out) && !o.next.pc.ExecDecide? && o.next.held == e.held
  {
  }

  lemma BeginUnlocked(g: PhaseGraph, cfg: Config, e: Engine, out: seq<Effect>, now: Time)
    requires Unlocked(out)
    ensures Unlocked(out + Announce(g, cfg, e, Begin, now))
  {
  }

  // ---- A completion that is cut off -----------------------------------------------------------

  /** A step that completes the session does nothing before its save. */
  lemma CompletingHasNoGroundwork(cfg: Config, d: Disk, e: Engine, inp: Input)
    requires Completes(cfg, d, e, inp)
    ensures BeforeOf(PlanOf(cfg, d, e, inp)) == []
  {
    hide HumanDecision, HistoryFor, AfterIteration;
  }

  /** The effects of completing a discovery session, in order. */
  lemma CompletionTrace(g: PhaseGraph, cfg: Config, d: Disk, e: Engine, inp: Input) returns (rest: seq<Effect>)
    requires Completes(cfg, d, e, inp) && PackActive(cfg, e.held.state)
    ensures var o := Step(g, cfg, d, e, inp);
            && o.out == [StateWrite(o.next.held.state), RevisionWrite(o.next.held.revision), PackLock] + rest
            && Aftermath(rest)
            && o.next.held.state.status.Completed?
  {
    hide Step, PlanOf, Aftermath, Groundwork;
    var o := Step(g, cfg, d, e, inp);
    var before, tail := StepShape(g, cfg, d, e, inp);
    CompletingHasNoGroundwork(cfg, d, e, inp);
    var front, end := StepLocks(g, cfg, d, e, inp);
    rest := end;
    var w := Written(o.next);
    assert [] + w + tail == w + tail;
    assert [] + w + [PackLock] + end == w + ([PackLock] + end);
    SameRest(w, tail, [PackLock] + end);
    LockedTail(tail, end);
  }

  lemma SameRest(w: seq<Effect>, a: seq<Effect>, b: seq<Effect>)
    requires w + a == w + b
    ensures a == b
  {
    assert a == (w + a)[|w|..] && b == (w + b)[|w|..];
  }

  lemma LockedTail(tail: seq<Effect>, end: seq<Effect>)
    requires Aftermath(tail) && tail == [PackLock] + end
    ensures Aftermath(end)
  {
    forall i | 0 <= i < |end| ensures end[i].Emit? || end[i].PackQuestion? || end[i].PackLock? {
      var x := tail[i + 1];
      assert x.Emit? || x.PackQuestion? || x.PackLock?;
    }
  }

  predicate HasCompleted(d: Disk) {
    d.state.Some? && d.state.value.status.Completed?
  }

  /** Once completed, always completed, and the lock stays as it is. */
  lemma {:induction false} CompletedStays(g: PhaseGraph, d: Disk, deeds: seq<Deed>)
    requires HasCompleted(d)
    ensures HasCompleted(LiveAll(g, d, deeds)) && LiveAll(g, d, deeds).locked == d.locked
    decreases |deeds|
  {
    hide Session;
    if deeds != [] {
      var deed := deeds[0];
      if deed.RunDeed? {
        TerminalIsFinal(g, deed.cfg, d, deed.req, deed.inputs);
        NothingDone(d);
      }
      CompletedStays(g, Live(g, d, deed), deeds[1..]);
    }
  }

  /** Completing and locking are not atomic. Cut a completing step off anywhere: the disk has a completed session
      whose pack was not locked exactly when the cut lies after the state file and before the lock, before or
      after the revision file. From there nothing ever locks the pack, through any runs, crashes, resumes and
      decisions, because a terminal session is returned untouched. */
  lemma {:induction false} CutCompletionNeverLocks(g: PhaseGraph, cfg: Config, d: Disk, e: Engine, inp: Input,
                                            cut: nat, deeds: seq<Deed>)
    requires Sound(g, d, e) && Completes(cfg, d, e, inp) && PackActive(cfg, e.held.state)
    requires cut <= |Step(g, cfg, d, e, inp).out|
    ensures var out := Step(g, cfg, d, e, inp).out;
            var d1 := Apply(d, out[..cut]);
            var end := LiveAll(g, d1, deeds);
            && |out| >= 3 && out[0].StateWrite? && out[1].RevisionWrite? && out[2].PackLock?
            && (HasCompleted(d1) && Locks(out[..cut]) == 0 <==> 1 <= cut <= 2)
            && (1 <= cut <= 2 ==> d1.locked == d.locked)
            && (1 <= cut ==> HasCompleted(end) && end.locked == d1.locked)
  {
    hide Step, WellFormed, LiveAll, Completes, Locks, PcOk;
    var o := Step(g, cfg, d, e, inp);
    var rest := CompletionTrace(g, cfg, d, e, inp);
    CutAfter(d, o.next.held, rest, cut);
    if cut == 0 {
      NothingDone(d);
      StillOpen(g, cfg, d, e, inp);
    } else {
      CompletedStays(g, Apply(d, o.out[..cut]), deeds);
    }
  }

  lemma StillOpen(g: PhaseGraph, cfg: Config, d: Disk, e: Engine, inp: Input)
    requires Sound(g, d, e) && Completes(cfg, d, e, inp)
    ensures !HasCompleted(d)
  {
    hide WellFormed, PcOk, PlanOf;
  }

  /** Prefixes of a save, a lock and what follows. */
  lemma {:induction false} CutAfter(d: Disk, s: Stored, rest: seq<Effect>, cut: nat)
    requires cut <= 3 + |rest| && Aftermath(rest)
    ensures var out := [StateWrite(s.state), RevisionWrite(s.revision), PackLock] + rest;
            && (cut >= 3 <==> Locks(out[..cut]) >= 1)
            && (cut >= 1 ==> Apply(d, out[..cut]).state == Some(s.state))
            && (cut == 1 || cut == 2 ==> Apply(d, out[..cut]).locked == d.locked)
  {
    var a, b := StateWrite(s.state), RevisionWrite(s.revision);
    var out := [a, b, PackLock] + rest;
    if cut >= 3 {
      var more := rest[..cut - 3];
      assert out[..cut] == [a, b] + ([PackLock] + more);
      WritesBoth(d, s);
      ApplyConcat(d, [a, b], [PackLock] + more);
      NoSaveKeepsState(Apply(d, [a, b]), [PackLock] + more);
      assert ([PackLock] + more)[1..] == more;
      LocksConcat([a, b], [PackLock] + more);
    } else {
      NoLocks(out[..cut]);
      if cut == 2 {
        assert out[..cut] == [a, b];
        WritesBoth(d, s);
      } else if cut == 1 {
        assert out[..cut] == [a];
        OneMore(d, [], a);
      }
    }
  }
}
