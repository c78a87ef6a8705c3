/** The spans of a run of the engine: once a phase has started, every iteration and review is traced under the open
    span of its own phase, and nothing is left open when the run completes or fails. */
module Tracing {
  import opened Wrappers
  import opened Graph
  import opened State
  import opened Events
  import opened Disk
  import opened Machine
  import opened Invariants
  import opened Sessions
  import opened Replay
  import opened Spans

  // ---- The registry follows the log -----------------------------------------------------------

  predicate RunOpen(r: Registry, sid: string) {
    && sid in r.active && r.active[sid].run.Some?
    && r.active[sid].run.value < |r.spans| && r.spans[r.active[sid].run.value].tag == RunTag
  }

  /** The phase span that is registered belongs to this phase and to the open run. */
  predicate PhaseOpen(r: Registry, sid: string, id: PhaseId) {
    && RunOpen(r, sid) && r.active[sid].phase.Some?
    && var j := r.active[sid].phase.value;
    && j < |r.spans| && r.spans[j].tag == PhaseTag(id) && r.spans[j].parent == r.active[sid].run
  }

  /** Where the registry of a session stands when the log of a run stands at `log`, before or after the first
      phase start of the run. A run may begin with the spans of an earlier run still open. */
  predicate Traced(r: Registry, sid: string, log: LogState, started: bool) {
    match log
    case Start => !started && Orderly(r, sid)
    case Opening(_) => RunOpen(r, sid) && r.active[sid].phase.None?
    case Inside(id) => if started then PhaseOpen(r, sid, id) else RunOpen(r, sid) && r.active[sid].phase.None?
    case Ended => Orderly(r, sid)
    case Broken => false
  }

  /** No phase span without a run span. */
  predicate Orderly(r: Registry, sid: string) {
    sid in r.active && r.active[sid].run.None? ==> r.active[sid].phase.None?
  }

  lemma ObserveFollows(g: PhaseGraph, r: Registry, sid: string, log: LogState, ev: Event, started: bool)
    requires Traced(r, sid, log, started) && ev.sessionId == sid
    requires Follow(g, log, ev) != Broken
    ensures Traced(Observe(r, ev), sid, Follow(g, log, ev), started || ev.PhaseStarted?)
  {
    hide Get;
  }

  predicate OfSession(log: seq<Event>, sid: string) {
    forall i :: 0 <= i < |log| ==> log[i].sessionId == sid
  }

  /** Has a phase been started? */
  predicate Opened(log: seq<Event>) {
    log != [] && (log[0].PhaseStarted? || Opened(log[1..]))
  }

  lemma {:induction false} LogFollows(g: PhaseGraph, r: Registry, sid: string, from: LogState, log: seq<Event>,
                                      started: bool)
    requires Traced(r, sid, from, started) && OfSession(log, sid)
    requires FollowAll(g, from, log) != Broken
    ensures Traced(ObserveAll(r, log), sid, FollowAll(g, from, log), started || Opened(log))
    decreases |log|
  {
    hide Observe, Follow, Traced;
    if log != [] {
      NotBroken(g, from, log);
      ObserveFollows(g, r, sid, from, log[0], started);
      LogFollows(g, Observe(r, log[0]), sid, Follow(g, from, log[0]), log[1..], started || log[0].PhaseStarted?);
    }
  }

  lemma {:induction false} NotBroken(g: PhaseGraph, from: LogState, log: seq<Event>)
    requires log != [] && FollowAll(g, from, log) != Broken
    ensures Follow(g, from, log[0]) != Broken
  {
    if Follow(g, from, log[0]) == Broken { BrokenStays(g, log[1..]); }
  }

  lemma {:induction false} ObserveConcat(r: Registry, a: seq<Event>, b: seq<Event>)
    ensures ObserveAll(r, a + b) == ObserveAll(ObserveAll(r, a), b)
    decreases |a|
  {
    hide Observe;
    if a == [] {
      assert a + b == b;
    } else {
      assert (a + b)[1..] == a[1..] + b;
      ObserveConcat(Observe(r, a[0]), a[1..], b);
    }
  }

  /** The phase whose work an event reports. */
  predicate Works(ev: Event) { ev.IterationCommitted? || ev.ReviewCommitted? }

  /** The event added one span of its kind and phase, ended at once. */
  predicate Adds(before: Registry, after: Registry, sid: string, ev: Event, parent: Option<nat>)
    requires Works(ev)
  {
    && after.active == before.active
    && after.spans ==
       before.spans + [Span(sid, if ev.IterationCommitted? then IterationTag(ev.phaseId) else ReviewTag(ev.phaseId),
                            parent, 1)]
  }

  /** Under the open span of its phase. */
  predicate TracedUnderItsPhase(before: Registry, after: Registry, sid: string, ev: Event)
    requires Works(ev)
  {
    && PhaseOpen(before, sid, ev.phaseId)
    && before.spans[before.active[sid].phase.value].ends == 0
    && before.spans[before.active[sid].run.value].ends == 0
    && Adds(before, after, sid, ev, before.active[sid].phase)
  }

  /** Without a parent. */
  predicate TracedAlone(before: Registry, after: Registry, sid: string, ev: Event)
    requires Works(ev)
  {
    && RunOpen(before, sid) && before.active[sid].phase.None?
    && Adds(before, after, sid, ev, None)
  }

  /** In the log of a run, each iteration and review after the first phase start becomes a span whose parent is the
      open span of its own phase, itself a child of the open span of the run; before that, as at the start of a
      resumed run, it has no parent. */
  lemma {:induction false} WorkIsUnderItsPhase(g: PhaseGraph, r: Registry, sid: string, log: seq<Event>, i: nat)
    requires Conserved(r) && Orderly(r, sid) && OfSession(log, sid)
    requires FollowAll(g, Start, log) != Broken && i < |log| && Works(log[i])
    ensures var before, after := ObserveAll(r, log[..i]), ObserveAll(r, log[..i + 1]);
            if Opened(log[..i]) then TracedUnderItsPhase(before, after, sid, log[i])
            else TracedAlone(before, after, sid, log[i])
  {
    var a, b := log[..i], log[i..];
    assert log == a + b && b[0] == log[i];
    var before := ObserveAll(r, a);
    FollowConcat(g, Start, a, b);
    var at := FollowAll(g, Start, a);
    if at == Broken { BrokenStays(g, b); }
    LogFollows(g, r, sid, Start, a, false);
    NotBroken(g, at, b);
    assert at == Inside(log[i].phaseId);
    SpansAreConserved(r, a);
    assert log[..i + 1] == a + [log[i]];
    ObserveConcat(r, a, [log[i]]);
    hide ObserveAll, Conserved;
    ObserveOne(before, log[i]);
    WorkAdds(before, log[i], sid);
    if Opened(a) { OpenOnes(before, sid); }
  }

  /** A run that stops for a human leaves the spans of its run and of the human phase open. */
  lemma {:induction false} WaitingStaysOpen(g: PhaseGraph, r: Registry, sid: string, log: seq<Event>)
    requires Conserved(r) && Orderly(r, sid) && OfSession(log, sid)
    requires FollowAll(g, Start, log) != Broken && log != [] && log[|log| - 1].HumanReviewPending? && Opened(log)
    ensures var after := ObserveAll(r, log);
            && PhaseOpen(after, sid, log[|log| - 1].phaseId)
            && after.spans[after.active[sid].phase.value].ends == 0
            && after.spans[after.active[sid].run.value].ends == 0
  {
    var n := |log| - 1;
    var a, ev := log[..n], log[n];
    assert log == a + [ev];
    FollowConcat(g, Start, a, [ev]);
    var at := FollowAll(g, Start, a);
    if at == Broken { BrokenStays(g, [ev]); }
    LogFollows(g, r, sid, Start, a, false);
    NotBroken(g, at, [ev]);
    OpenedBefore(a, ev);
    assert at == Inside(ev.phaseId);
    SpansAreConserved(r, a);
    ObserveConcat(r, a, [ev]);
    hide ObserveAll, Conserved;
    var before := ObserveAll(r, a);
    ObserveOne(before, ev);
    assert Observe(before, ev) == before;
    OpenOnes(before, sid);
  }

  lemma {:induction false} OpenedBefore(a: seq<Event>, ev: Event)
    ensures Opened(a + [ev]) <==> Opened(a) || ev.PhaseStarted?
  {
    if a == [] {
      assert a + [ev] == [ev] && [ev][1..] == [];
    } else {
      assert (a + [ev])[1..] == a[1..] + [ev];
      OpenedBefore(a[1..], ev);
    }
  }

  lemma {:induction false} ObserveOne(r: Registry, ev: Event)
    ensures ObserveAll(r, [ev]) == Observe(r, ev)
  {
    assert [ev][1..] == [];
    assert ObserveAll(Observe(r, ev), []) == Observe(r, ev);
  }

  lemma WorkAdds(r: Registry, ev: Event, sid: string)
    requires Works(ev) && ev.sessionId == sid && sid in r.active
    ensures Adds(r, Observe(r, ev), sid, ev, r.active[sid].phase)
  {
  }

  lemma OpenOnes(r: Registry, sid: string)
    requires Conserved(r) && sid in r.active && r.active[sid].run.Some? && r.active[sid].phase.Some?
    ensures r.active[sid].run.value < |r.spans| && r.spans[r.active[sid].run.value].ends == 0
    ensures r.active[sid].phase.value < |r.spans| && r.spans[r.active[sid].phase.value].ends == 0
  {
  }

  // ---- The log of an engine -------------------------------------------------------------------

  predicate Speaks(trace: seq<Effect>, sid: string) {
    forall i :: 0 <= i < |trace| && trace[i].Emit? ==> trace[i].event.sessionId == sid
  }

  lemma {:induction false} SpeaksInEvents(trace: seq<Effect>, sid: string)
    requires Speaks(trace, sid)
    ensures OfSession(EventsOf(trace), sid)
  {
    if trace != [] {
      SpeaksInEvents(trace[1..], sid);
    }
  }

  lemma AbortSpeaks(g: PhaseGraph, e: Engine, out: seq<Effect>, err: EngineError, now: Time)
    requires Speaks(out, e.held.state.sessionId)
    ensures var o := Abort(g, e, out, err, now); Speaks(o.out, e.held.state.sessionId) && o.next.held == e.held
  {
  }

  lemma EnterSpeaks(g: PhaseGraph, e: Engine, out: seq<Effect>, now: Time)
    requires Speaks(out, e.held.state.sessionId)
    ensures var o := EnterPhase(g, e, out, now); Speaks(o.out, e.held.state.sessionId) && o.next.held == e.held
  {
    hide Abort;
    if Get(g, e.held.state.currentPhase).None? {
      AbortSpeaks(g, e, out, ConfigurationError, now);
    }
  }

  lemma AnnounceSpeaks(g: PhaseGraph, cfg: Config, e: Engine, c: Commit, now: Time)
    ensures Speaks(Announce(g, cfg, e, c, now), e.held.state.sessionId)
  {
  }

  lemma ConcludeSpeaks(g: PhaseGraph, cfg: Config, e: Engine, out: seq<Effect>, c: Commit, after: After, now: Time)
    requires Speaks(out, e.held.state.sessionId)
    requires after.Halt? ==> Speaks(after.post, e.held.state.sessionId)
    ensures var o := Conclude(g, cfg, e, out, c, after, now);
            Speaks(o.out, e.held.state.sessionId) && o.next.held == e.held
  {
    hide Abort, EnterPhase, Announce;
    if !KnownPhase(g, e.held.state, c) {
      AbortSpeaks(g, e, out, ConfigurationError, now);
    } else {
      AnnounceSpeaks(g, cfg, e, c, now);
      var said := out + Announce(g, cfg, e, c, now);
      match after
      case Enter => EnterSpeaks(g, e, said, now);
      case At(_) =>
      case Halt(_) =>
      case Reject(err) => AbortSpeaks(g, e, said, err, now);
    }
  }

  lemma PostSpeaks(cfg: Config, d: Disk, e: Engine, inp: Input, sid: string)
    requires Running(e)
    ensures var plan := PlanOf(cfg, d, e, inp); plan.Save? && plan.next.Halt? ==> Speaks(plan.next.post, sid)
  {
    hide HumanDecision, HistoryFor, ValidPayload, ResolveReview;
  }

  lemma StepSpeaks(g: PhaseGraph, cfg: Config, d: Disk, e: Engine, inp: Input)
    ensures var o := Step(g, cfg, d, e, inp);
            Speaks(o.out, e.held.state.sessionId) && o.next.held.state.sessionId == e.held.state.sessionId
  {
    hide PlanOf, Conclude, Abort, MarkApplied;
    if Running(e) {
      PlansAreOrdered(cfg, d, e, inp);
      PostSpeaks(cfg, d, e, inp, e.held.state.sessionId);
      var plan, m := PlanOf(cfg, d, e, inp), MarkApplied(e);
      MarkedSame(e);
      if plan.Fail? {
        AbortSpeaks(g, m, plan.before, plan.error, inp.now);
      } else if plan.Save? {
        var err := SaveError(d, m.held.revision);
        if err.Some? {
          AbortSpeaks(g, m, plan.before, err.value, inp.now);
        } else {
          var e1 := Saved(m, plan.commit);
          ConcludeSpeaks(g, cfg, e1, plan.before + Written(e1), plan.commit, plan.next, inp.now);
        }
      }
    }
  }

  lemma {:induction false} ExecSpeaks(g: PhaseGraph, cfg: Config, d: Disk, e: Engine, inputs: seq<Input>)
    ensures Speaks(Exec(g, cfg, d, e, inputs).trace, e.held.state.sessionId)
    decreases |inputs|
  {
    hide Step;
    if inputs != [] && Running(e) {
      var o := Step(g, cfg, d, e, inputs[0]);
      StepSpeaks(g, cfg, d, e, inputs[0]);
      ExecSpeaks(g, cfg, Apply(d, o.out), o.next, inputs[1..]);
    }
  }

  lemma BootSpeaks(g: PhaseGraph, cfg: Config, d: Disk, req: RunRequest)
    ensures var o := Boot(g, cfg, d, req);
            !Rejected(d, req) ==> Speaks(o.out, req.sessionId) && o.next.held.state.sessionId == req.sessionId
  {
    BootIsLaunch(g, cfg, d, req);
    hide Boot, Loadable;
    if !Rejected(d, req) {
      var out := InitialWrites(g, d, req);
      LaunchSpeaks(g, cfg, Apply(d, out), LoadedState(g, d, req), out, req);
    }
  }

  lemma LaunchSpeaks(g: PhaseGraph, cfg: Config, d: Disk, s: Stored, out: seq<Effect>, req: RunRequest)
    requires s.state.sessionId == req.sessionId && Speaks(out, req.sessionId)
    ensures var o := Launch(g, cfg, d, s, out, req);
            Speaks(o.out, req.sessionId) && o.next.held.state.sessionId == req.sessionId
  {
    hide Abort, EnterPhase, Conclude;
    var e := Fresh(Timed(s, req), Finished);
    var st := e.held.state;
    if Terminal(st.status) {
    } else if !req.preflight {
      AbortSpeaks(g, e, out, ConfigurationError, req.now);
    } else if st.status.Initialized? {
      var err := SaveError(d, e.held.revision);
      if err.Some? {
        AbortSpeaks(g, e, out, err.value, req.now);
      } else {
        var e1 := Saved(e, Begin);
        ConcludeSpeaks(g, cfg, e1, out + Written(e1), Begin, Enter, req.now);
      }
    } else {
      match Get(g, st.currentPhase)
      case None => AbortSpeaks(g, e, out, ConfigurationError, req.now);
      case Some(p) =>
        var resumed := RunResumed(st.sessionId, p.phaseId, p.roleId, p.kind, e.held.revision, req.now);
        EnterSpeaks(g, e, out + [Emit(resumed)], req.now);
    }
  }

  lemma SessionSpeaks(g: PhaseGraph, cfg: Config, d: Disk, req: RunRequest, inputs: seq<Input>)
    requires !Rejected(d, req)
    ensures OfSession(EventsOf(Session(g, cfg, d, req, inputs).trace), req.sessionId)
  {
    hide Boot, Exec, Rejected;
    BootSpeaks(g, cfg, d, req);
    var o := Boot(g, cfg, d, req);
    ExecSpeaks(g, cfg, Apply(d, o.out), o.next, inputs);
    SpeaksInEvents(Session(g, cfg, d, req, inputs).trace, req.sessionId);
  }

  lemma {:induction false} OnlyMine(log: seq<Event>, sid: string)
    requires OfSession(log, sid)
    ensures OnlyOf(log, sid) == log
  {
    if log != [] {
      OnlyMine(log[1..], sid);
    }
  }

  /** Trace a run, fresh or resumed, with an observer that is busy with any other sessions at the same time, whose
      events are mixed into the log in any way: seen from the session, each iteration and review after the first
      phase start of the run is a span under the open span of its own phase, and once the run has completed or
      failed no span of the session is open. What one run asks of the registry it leaves for the next. */
  lemma {:induction false} RunIsTraced(g: PhaseGraph, cfg: Config, d: Disk, req: RunRequest, inputs: seq<Input>,
                    r: Registry, mixed: seq<Event>)
    requires ValidGraph(g) && DiskOk(g, d) && !Rejected(d, req)
    requires Conserved(r) && Orderly(r, req.sessionId)
    requires OnlyOf(mixed, req.sessionId) == EventsOf(Session(g, cfg, d, req, inputs).trace)
    ensures var log := EventsOf(Session(g, cfg, d, req, inputs).trace);
            var sid := req.sessionId;
            var mine, after := Project(r, sid), ObserveAll(r, mixed);
            && Conserved(after) && Orderly(after, sid)
            && Project(after, sid) == ObserveAll(mine, log)
            && (forall i :: 0 <= i < |log| && Works(log[i]) ==>
                  if Opened(log[..i]) then
                    TracedUnderItsPhase(ObserveAll(mine, log[..i]), ObserveAll(mine, log[..i + 1]), sid, log[i])
                  else TracedAlone(ObserveAll(mine, log[..i]), ObserveAll(mine, log[..i + 1]), sid, log[i]))
            && (log != [] && (log[|log| - 1].RunCompleted? || log[|log| - 1].RunFailed?) ==>
                  forall i :: 0 <= i < |after.spans| && after.spans[i].session == sid ==> after.spans[i].ends == 1)
  {
    hide ValidGraph, WellFormed, Session, Rejected, Conserved, Project, ObserveAll, TracedUnderItsPhase, TracedAlone,
         Orderly, Opened;
    var log := EventsOf(Session(g, cfg, d, req, inputs).trace);
    var sid := req.sessionId;
    RunIsTold(g, cfg, d, req, inputs);
    SessionSpeaks(g, cfg, d, req, inputs);
    SpansAreConserved(r, mixed);
    SessionsAreIndependent(r, mixed, sid);
    ProjectConserves(r, sid);
    forall i | 0 <= i < |log| && Works(log[i])
      ensures if Opened(log[..i]) then
                TracedUnderItsPhase(ObserveAll(Project(r, sid), log[..i]), ObserveAll(Project(r, sid), log[..i + 1]),
                                    sid, log[i])
              else TracedAlone(ObserveAll(Project(r, sid), log[..i]), ObserveAll(Project(r, sid), log[..i + 1]), sid, log[i])
    {
      WorkIsUnderItsPhase(g, Project(r, sid), sid, log, i);
    }
    LogFollows(g, Project(r, sid), sid, Start, log, false);
    StaysOrderly(ObserveAll(Project(r, sid), log), sid, FollowAll(g, Start, log), Opened(log));
    OrderlyAlone(ObserveAll(r, mixed), sid);
    if log != [] && (log[|log| - 1].RunCompleted? || log[|log| - 1].RunFailed?) {
      AllEnded(g, r, sid, mixed, log);
    }
  }

  lemma StaysOrderly(r: Registry, sid: string, log: LogState, started: bool)
    requires Traced(r, sid, log, started)
    ensures Orderly(r, sid)
  {
  }

  lemma OrderlyAlone(r: Registry, sid: string)
    ensures Orderly(Project(r, sid), sid) <==> Orderly(r, sid)
  {
    hide Mine, Rank;
  }

  lemma {:induction false} AllEnded(g: PhaseGraph, r: Registry, sid: string, mixed: seq<Event>, log: seq<Event>)
    requires Conserved(r) && Conserved(Project(r, sid)) && OnlyOf(mixed, sid) == log && log != []
    requires log[|log| - 1].sessionId == sid && (log[|log| - 1].RunCompleted? || log[|log| - 1].RunFailed?)
    ensures var after := ObserveAll(r, mixed);
            forall i :: 0 <= i < |after.spans| && after.spans[i].session == sid ==> after.spans[i].ends == 1
  {
    hide Observe, EndAll;
    var after := ObserveAll(r, mixed);
    SpansAreConserved(r, mixed);
    SessionsAreIndependent(r, mixed, sid);
    var n := |log| - 1;
    assert log == log[..n] + [log[n]];
    ObserveConcat(Project(r, sid), log[..n], [log[n]]);
    SpansAreConserved(Project(r, sid), log[..n]);
    var last := ObserveAll(Project(r, sid), log[..n]);
    ObserveOne(last, log[n]);
    EndsAll(last, log[n]);
    assert sid !in Project(after, sid).active;
    assert sid !in after.active;
  }

  lemma EndsAll(r: Registry, ev: Event)
    requires Conserved(r) && (ev.RunCompleted? || ev.RunFailed?)
    ensures ev.sessionId !in Observe(r, ev).active
  {
    hide Conserved, EndAll;
    EndAllConserves(r, ev.sessionId);
  }

  /** The projection of a conserved registry is conserved. */
  lemma ProjectConserves(r: Registry, sid: string)
    requires Conserved(r)
    ensures Conserved(Project(r, sid))
    ensures Orderly(r, sid) <==> Orderly(Project(r, sid), sid)
  {
    hide Mine, Rank;
    MineConserves(r.spans, sid);
    OrderlyAlone(r, sid);
    MineIsListed(r, sid);
    if sid in r.active { MineIsOpen(r, sid); }
  }

  lemma {:induction false} MineIsOpen(r: Registry, sid: string)
    requires Conserved(r) && sid in r.active
    ensures var a := Project(r, sid).active[sid];
            && OpenAs(Mine(r.spans, sid), a.run, sid)
            && OpenAs(Mine(r.spans, sid), a.phase, sid)
            && (a.run.Some? ==> a.run != a.phase)
  {
    hide Mine, Rank;
    MineConserves(r.spans, sid);
    var run, phase := r.active[sid].run, r.active[sid].phase;
    if run.Some? { LocalOpen(r.spans, sid, run.value); }
    if phase.Some? { LocalOpen(r.spans, sid, phase.value); }
    if run.Some? && phase.Some? { RanksDiffer(r.spans, sid, run.value, phase.value); }
  }

  lemma {:induction false} MineIsListed(r: Registry, sid: string)
    requires Conserved(r)
    ensures forall i :: 0 <= i < |Mine(r.spans, sid)| ==>
      Mine(r.spans, sid)[i].ends == 1 || (Mine(r.spans, sid)[i].ends == 0 && Listed(Project(r, sid), i, sid))
  {
    hide Mine, Rank;
    forall i | 0 <= i < |Mine(r.spans, sid)|
      ensures Mine(r.spans, sid)[i].ends == 1 || (Mine(r.spans, sid)[i].ends == 0 && Listed(Project(r, sid), i, sid))
    {
      var k := Global(r.spans, sid, i);
      assert r.spans[k].ends == 1 || (r.spans[k].ends == 0 && Listed(r, k, sid));
    }
  }

  /** The position of the i-th span of a session. */
  lemma {:induction false} Global(spans: seq<Span>, sid: string, i: nat) returns (k: nat)
    requires i < |Mine(spans, sid)|
    ensures k < |spans| && spans[k].session == sid && Rank(spans[..k], sid) == i
    ensures Mine(spans, sid)[i].ends == spans[k].ends
  {
    var n := |spans| - 1;
    var front := spans[..n];
    if i < |Mine(front, sid)| {
      k := Global(front, sid, i);
      assert spans[..k] == front[..k];
    } else {
      k := n;
    }
  }

  lemma {:induction false} LocalOpen(spans: seq<Span>, sid: string, k: nat)
    requires k < |spans| && spans[k].session == sid
    ensures Rank(spans[..k], sid) < |Mine(spans, sid)|
    ensures Mine(spans, sid)[Rank(spans[..k], sid)].ends == spans[k].ends
  {
    RankGrows(spans, sid, k);
    var n := |spans| - 1;
    var front := spans[..n];
    if k < n {
      assert front[..k] == spans[..k];
      LocalOpen(front, sid, k);
    }
  }

  lemma {:induction false} RanksDiffer(spans: seq<Span>, sid: string, a: nat, b: nat)
    requires a < |spans| && b < |spans| && a != b && spans[a].session == sid && spans[b].session == sid
    ensures Rank(spans[..a], sid) != Rank(spans[..b], sid)
  {
    if a < b {
      RankGrows(spans[..b], sid, a);
      assert spans[..b][..a] == spans[..a];
    } else {
      RankGrows(spans[..a], sid, b);
      assert spans[..a][..b] == spans[..b];
    }
  }

  lemma {:induction false} MineConserves(spans: seq<Span>, sid: string)
    requires forall i :: 0 <= i < |spans| && spans[i].session == sid && spans[i].parent.Some? ==>
      spans[i].parent.value < i && spans[spans[i].parent.value].session == sid
    ensures forall i :: 0 <= i < |Mine(spans, sid)| ==>
      && Mine(spans, sid)[i].session == sid
      && (Mine(spans, sid)[i].parent.Some? ==> Mine(spans, sid)[i].parent.value < i)
  {
    if spans != [] {
      var n := |spans| - 1;
      var front := spans[..n];
      MineConserves(front, sid);
      if spans[n].session == sid && spans[n].parent.Some? {
        RankGrows(front, sid, spans[n].parent.value);
      }
    }
  }
}
