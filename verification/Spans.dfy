/** The span registry of the OpenTelemetry observer: which spans are open, and under which parent spans start. */
module Spans {
  import opened Wrappers
  import opened Graph
  import opened State
  import opened Events
  import opened Disk
  import opened Machine
  import opened Invariants
  import opened Sessions
  import opened Replay

  datatype Tag = RunTag | PhaseTag(phase: PhaseId) | IterationTag(phase: PhaseId) | ReviewTag(phase: PhaseId)

  /** A started span; `ends` counts how often it was ended. Spans are named by their position. */
  datatype Span = Span(session: string, tag: Tag, parent: Option<nat>, ends: nat)

  datatype Active = Active(run: Option<nat>, phase: Option<nat>)

  datatype Registry = Registry(active: map<string, Active>, spans: seq<Span>)

  const NO_SPANS := Registry(map[], [])

  // ---- What an event does ---------------------------------------------------------------------

  function EndSpan(spans: seq<Span>, i: nat): (s: seq<Span>)
    ensures |s| == |spans|
  {
    if i < |spans| then spans[i := spans[i].(ends := spans[i].ends + 1)] else spans
  }

  function EnsureActive(r: Registry, sid: string): (s: Registry)
    ensures sid in s.active
  {
    if sid in r.active then r else r.(active := r.active[sid := Active(None, None)])
  }

  function EndPhase(r: Registry, sid: string): Registry {
    if sid in r.active && r.active[sid].phase.Some? then
      Registry(r.active[sid := r.active[sid].(phase := None)], EndSpan(r.spans, r.active[sid].phase.value))
    else r
  }

  function EndRun(r: Registry, sid: string): Registry {
    if sid in r.active && r.active[sid].run.Some? then
      Registry(r.active[sid := r.active[sid].(run := None)], EndSpan(r.spans, r.active[sid].run.value))
    else r
  }

  function StartRun(r: Registry, sid: string): Registry
    requires sid in r.active
  {
    Registry(r.active[sid := r.active[sid].(run := Some(|r.spans|))], r.spans + [Span(sid, RunTag, None, 0)])
  }

  function StartPhase(r: Registry, sid: string, id: PhaseId): Registry
    requires sid in r.active
  {
    Registry(r.active[sid := r.active[sid].(phase := Some(|r.spans|))],
             r.spans + [Span(sid, PhaseTag(id), r.active[sid].run, 0)])
  }

  function BeginRun(r: Registry, sid: string): Registry {
    var r1 := EnsureActive(r, sid);
    StartRun(if r1.active[sid].run.Some? then EndRun(EndPhase(r1, sid), sid) else r1, sid)
  }

  function BeginPhase(r: Registry, sid: string, id: PhaseId): Registry {
    StartPhase(EndPhase(EnsureActive(r, sid), sid), sid, id)
  }

  /** An iteration or a review: a span that is ended as soon as it is started. */
  function Work(r: Registry, sid: string, tag: Tag): Registry {
    r.(spans := r.spans + [Span(sid, tag, if sid in r.active then r.active[sid].phase else None, 1)])
  }

  function EndAll(r: Registry, sid: string): Registry {
    var r1 := EndRun(EndPhase(r, sid), sid);
    r1.(active := r1.active - {sid})
  }

  function Observe(r: Registry, ev: Event): Registry {
    var sid := ev.sessionId;
    match ev
    case RunStarted(_, _, _, _, _) => BeginRun(r, sid)
    case RunResumed(_, _, _, _, _, _) => BeginRun(r, sid)
    case PhaseStarted(_, id, _, _, _, _) => BeginPhase(r, sid, id)
    case IterationCommitted(_, id, _, _, _, _, _, _, _, _, _, _) => Work(r, sid, IterationTag(id))
    case ReviewCommitted(_, id, _, _, _, _, _, _, _, _, _, _, _, _) => Work(r, sid, ReviewTag(id))
    case HumanReviewPending(_, _, _, _, _, _) => r
    case PhaseTransitioned(_, _, _, _, _, _, _) => EndPhase(r, sid)
    case RunCompleted(_, _, _, _, _, _, _) => EndAll(r, sid)
    case RunFailed(_, _, _, _, _, _) => EndAll(r, sid)
  }

  function ObserveAll(r: Registry, log: seq<Event>): Registry
    decreases |log|
  {
    if log == [] then r else ObserveAll(Observe(r, log[0]), log[1..])
  }

  // ---- The observer ---------------------------------------------------------------------------

  class Tracer {
    var spans: seq<Span>

    constructor ()
      ensures spans == []
    {
      spans := [];
    }

    method StartSpan(session: string, tag: Tag, parent: Option<nat>) returns (id: nat)
      modifies this
      ensures id == old(|spans|) && spans == old(spans) + [Span(session, tag, parent, 0)]
    {
      id := |spans|;
      spans := spans + [Span(session, tag, parent, 0)];
    }

    method End(id: nat)
      modifies this
      ensures spans == EndSpan(old(spans), id)
    {
      if id < |spans| {
        spans := spans[id := spans[id].(ends := spans[id].ends + 1)];
      }
    }
  }

  class Observer {
    const tracer: Tracer
    var active: map<string, Active>

    constructor ()
      ensures Value() == NO_SPANS && fresh(tracer)
    {
      tracer := new Tracer();
      active := map[];
    }

    function Value(): Registry
      reads this, tracer
    {
      Registry(active, tracer.spans)
    }

    method EndPhaseSpan(sid: string)
      modifies this, tracer
      ensures Value() == EndPhase(old(Value()), sid)
    {
      if sid !in active || active[sid].phase.None? {
        return;
      }
      tracer.End(active[sid].phase.value);
      active := active[sid := active[sid].(phase := None)];
    }

    method EndRunSpan(sid: string)
      modifies this, tracer
      ensures Value() == EndRun(old(Value()), sid)
    {
      if sid in active && active[sid].run.Some? {
        tracer.End(active[sid].run.value);
        active := active[sid := active[sid].(run := None)];
      }
    }

    method TraceRunStarted(sid: string)
      modifies this, tracer
      ensures Value() == BeginRun(old(Value()), sid)
    {
      if sid !in active {
        active := active[sid := Active(None, None)];
      }
      if active[sid].run.Some? {
        EndPhaseSpan(sid);
        EndRunSpan(sid);
      }
      var span := tracer.StartSpan(sid, RunTag, None);
      active := active[sid := active[sid].(run := Some(span))];
    }

    method TracePhaseStarted(sid: string, id: PhaseId)
      modifies this, tracer
      ensures Value() == BeginPhase(old(Value()), sid, id)
    {
      if sid !in active {
        active := active[sid := Active(None, None)];
      }
      EndPhaseSpan(sid);
      var span := tracer.StartSpan(sid, PhaseTag(id), active[sid].run);
      active := active[sid := active[sid].(phase := Some(span))];
    }

    method TraceWork(sid: string, tag: Tag)
      modifies this, tracer
      ensures Value() == Work(old(Value()), sid, tag)
    {
      var parent := if sid in active then active[sid].phase else None;
      var span := tracer.StartSpan(sid, tag, parent);
      tracer.End(span);
    }

    method TraceRunEnded(sid: string)
      modifies this, tracer
      ensures Value() == EndAll(old(Value()), sid)
    {
      if sid !in active {
        assert active - {sid} == active;
        return;
      }
      EndPhaseSpan(sid);
      EndRunSpan(sid);
      active := active - {sid};
    }

    method OnEvent(ev: Event)
      modifies this, tracer
      ensures Value() == Observe(old(Value()), ev)
    {
      match ev {
        case RunStarted(sid, _, _, _, _) => TraceRunStarted(sid);
        case RunResumed(sid, _, _, _, _, _) => TraceRunStarted(sid);
        case PhaseStarted(sid, id, _, _, _, _) => TracePhaseStarted(sid, id);
        case IterationCommitted(sid, id, _, _, _, _, _, _, _, _, _, _) => TraceWork(sid, IterationTag(id));
        case ReviewCommitted(sid, id, _, _, _, _, _, _, _, _, _, _, _, _) => TraceWork(sid, ReviewTag(id));
        case HumanReviewPending(_, _, _, _, _, _) =>
        case PhaseTransitioned(sid, _, _, _, _, _, _) => EndPhaseSpan(sid);
        case RunCompleted(sid, _, _, _, _, _, _) => TraceRunEnded(sid);
        case RunFailed(sid, _, _, _, _, _) => TraceRunEnded(sid);
      }
    }
  }

  // ---- Conservation ---------------------------------------------------------------------------

  predicate OpenAs(spans: seq<Span>, id: Option<nat>, sid: string) {
    id.Some? ==> id.value < |spans| && spans[id.value].session == sid && spans[id.value].ends == 0
  }

  predicate Listed(r: Registry, i: nat, sid: string) {
    sid in r.active && (r.active[sid].run == Some(i) || r.active[sid].phase == Some(i))
  }

  /** Every span was ended exactly once, or is open and one of the two its session has registered. */
  predicate Conserved(r: Registry) {
    && (forall sid :: sid in r.active ==>
          && OpenAs(r.spans, r.active[sid].run, sid)
          && OpenAs(r.spans, r.active[sid].phase, sid)
          && (r.active[sid].run.Some? ==> r.active[sid].run != r.active[sid].phase))
    && (forall i :: 0 <= i < |r.spans| ==>
          && (r.spans[i].ends == 1 || (r.spans[i].ends == 0 && Listed(r, i, r.spans[i].session)))
          && (r.spans[i].parent.Some? ==>
                r.spans[i].parent.value < i && r.spans[r.spans[i].parent.value].session == r.spans[i].session))
  }

  lemma EndPhaseConserves(r: Registry, sid: string)
    requires Conserved(r)
    ensures Conserved(EndPhase(r, sid))
  {
  }

  lemma EndRunConserves(r: Registry, sid: string)
    requires Conserved(r)
    ensures Conserved(EndRun(r, sid))
  {
  }

  lemma EnsureActiveConserves(r: Registry, sid: string)
    requires Conserved(r)
    ensures Conserved(EnsureActive(r, sid))
  {
  }

  lemma StartRunConserves(r: Registry, sid: string)
    requires Conserved(r) && sid in r.active && r.active[sid].run.None?
    ensures Conserved(StartRun(r, sid))
  {
  }

  lemma StartPhaseConserves(r: Registry, sid: string, id: PhaseId)
    requires Conserved(r) && sid in r.active && r.active[sid].phase.None?
    ensures Conserved(StartPhase(r, sid, id))
  {
  }

  lemma WorkConserves(r: Registry, sid: string, tag: Tag)
    requires Conserved(r)
    ensures Conserved(Work(r, sid, tag))
  {
  }

  lemma EndAllConserves(r: Registry, sid: string)
    requires Conserved(r)
    ensures Conserved(EndAll(r, sid)) && sid !in EndAll(r, sid).active
  {
    EndPhaseConserves(r, sid);
    EndRunConserves(EndPhase(r, sid), sid);
  }

  lemma ObserveConserves(r: Registry, ev: Event)
    requires Conserved(r)
    ensures Conserved(Observe(r, ev))
  {
    hide Conserved;
    var sid := ev.sessionId;
    var r1 := EnsureActive(r, sid);
    EnsureActiveConserves(r, sid);
    EndPhaseConserves(r1, sid);
    EndRunConserves(EndPhase(r1, sid), sid);
    EndPhaseConserves(r, sid);
    EndAllConserves(r, sid);
    match ev
    case RunStarted(_, _, _, _, _) =>
      StartRunConserves(if r1.active[sid].run.Some? then EndRun(EndPhase(r1, sid), sid) else r1, sid);
    case RunResumed(_, _, _, _, _, _) =>
      StartRunConserves(if r1.active[sid].run.Some? then EndRun(EndPhase(r1, sid), sid) else r1, sid);
    case PhaseStarted(_, id, _, _, _, _) => StartPhaseConserves(EndPhase(r1, sid), sid, id);
    case IterationCommitted(_, id, _, _, _, _, _, _, _, _, _, _) => WorkConserves(r, sid, IterationTag(id));
    case ReviewCommitted(_, id, _, _, _, _, _, _, _, _, _, _, _, _) => WorkConserves(r, sid, ReviewTag(id));
    case _ =>
  }

  /** For any events of any sessions in any order, no span is lost or ended twice. */
  lemma {:induction false} SpansAreConserved(r: Registry, log: seq<Event>)
    requires Conserved(r)
    ensures Conserved(ObserveAll(r, log))
    decreases |log|
  {
    hide Conserved, Observe;
    if log != [] {
      ObserveConserves(r, log[0]);
      SpansAreConserved(Observe(r, log[0]), log[1..]);
    }
  }

  /** So at most two spans of a session are open at any time. */
  lemma AtMostTwoOpen(r: Registry, sid: string, a: nat, b: nat, c: nat)
    requires Conserved(r) && a < b < c < |r.spans|
    requires r.spans[a].session == sid && r.spans[b].session == sid && r.spans[c].session == sid
    ensures r.spans[a].ends == 1 || r.spans[b].ends == 1 || r.spans[c].ends == 1
  {
  }

  // ---- Sessions do not affect each other ------------------------------------------------------

  /** How many spans of a session there are. */
  function Rank(spans: seq<Span>, sid: string): nat {
    if spans == [] then 0
    else Rank(spans[..|spans| - 1], sid) + if spans[|spans| - 1].session == sid then 1 else 0
  }

  /** A span named by its rank among the spans of its session. */
  function Local(spans: seq<Span>, sid: string, id: Option<nat>): Option<nat> {
    if id.Some? && id.value <= |spans| then Some(Rank(spans[..id.value], sid)) else id
  }

  /** The spans of one session, in order, with parents named by rank. */
  function Mine(spans: seq<Span>, sid: string): (mine: seq<Span>)
    ensures |mine| == Rank(spans, sid)
  {
    if spans == [] then []
    else
      var front, last := spans[..|spans| - 1], spans[|spans| - 1];
      Mine(front, sid) + if last.session == sid then [last.(parent := Local(front, sid, last.parent))] else []
  }

  function MineActive(r: Registry, sid: string): map<string, Active> {
    if sid in r.active then
      map[sid := Active(Local(r.spans, sid, r.active[sid].run), Local(r.spans, sid, r.active[sid].phase))]
    else map[]
  }

  /** The registry as if no other session had ever been observed. */
  function Project(r: Registry, sid: string): Registry {
    Registry(MineActive(r, sid), Mine(r.spans, sid))
  }

  function OnlyOf(log: seq<Event>, sid: string): seq<Event> {
    if log == [] then []
    else (if log[0].sessionId == sid then [log[0]] else []) + OnlyOf(log[1..], sid)
  }

  lemma {:induction false} RankAppend(spans: seq<Span>, s: Span, sid: string)
    ensures Rank(spans + [s], sid) == Rank(spans, sid) + if s.session == sid then 1 else 0
    ensures Mine(spans + [s], sid) ==
            Mine(spans, sid) + if s.session == sid then [s.(parent := Local(spans, sid, s.parent))] else []
    ensures forall j :: 0 <= j <= |spans| ==> (spans + [s])[..j] == spans[..j]
  {
    assert (spans + [s])[..|spans|] == spans;
  }

  lemma {:induction false} RankGrows(spans: seq<Span>, sid: string, i: nat)
    requires i < |spans| && spans[i].session == sid
    ensures Rank(spans[..i], sid) < Rank(spans, sid)
  {
    var n := |spans| - 1;
    if i < n {
      assert spans[..n][..i] == spans[..i];
      RankGrows(spans[..n], sid, i);
    }
  }

  lemma {:induction false} RankIgnoresEnds(spans: seq<Span>, sid: string, i: nat)
    ensures Rank(EndSpan(spans, i), sid) == Rank(spans, sid)
  {
    if spans != [] && i < |spans| {
      var n := |spans| - 1;
      if i < n {
        assert EndSpan(spans, i)[..n] == EndSpan(spans[..n], i);
      } else {
        assert EndSpan(spans, i)[..n] == spans[..n] == EndSpan(spans[..n], i);
      }
      RankIgnoresEnds(spans[..n], sid, i);
    }
  }

  lemma LocalIgnoresEnds(spans: seq<Span>, sid: string, i: nat, id: Option<nat>)
    ensures Local(EndSpan(spans, i), sid, id) == Local(spans, sid, id)
  {
    if id.Some? && id.value <= |spans| {
      var j := id.value;
      if i < j {
        assert EndSpan(spans, i)[..j] == EndSpan(spans[..j], i);
        RankIgnoresEnds(spans[..j], sid, i);
      } else {
        assert EndSpan(spans, i)[..j] == spans[..j];
      }
    }
  }

  lemma EndSpanConcat(a: seq<Span>, b: seq<Span>, i: nat)
    ensures i < |a| ==> EndSpan(a + b, i) == EndSpan(a, i) + b
  {
  }

  /** The last span as its session sees it. */
  function Tail(front: seq<Span>, last: Span, sid: string): seq<Span> {
    if last.session == sid then [last.(parent := Local(front, sid, last.parent))] else []
  }

  /** Ending a span ends it in its own session only. */
  lemma {:induction false} MineAfterEnd(spans: seq<Span>, sid: string, i: nat)
    requires i < |spans|
    ensures Mine(EndSpan(spans, i), sid) ==
            if spans[i].session == sid then EndSpan(Mine(spans, sid), Rank(spans[..i], sid)) else Mine(spans, sid)
  {
    hide Mine, Rank, EndSpan;
    var n := |spans| - 1;
    var front, last := spans[..n], spans[n];
    assert spans == front + [last];
    RankAppend(front, last, sid);
    if i < n {
      EndSpanConcat(front, [last], i);
      RankAppend(EndSpan(front, i), last, sid);
      assert front[..i] == spans[..i];
      MineAfterEnd(front, sid, i);
      LocalIgnoresEnds(front, sid, i, last.parent);
      if spans[i].session == sid {
        RankGrows(front, sid, i);
        EndSpanConcat(Mine(front, sid), Tail(front, last, sid), Rank(spans[..i], sid));
      }
    } else {
      EndLast(front, last);
      RankAppend(front, last.(ends := last.ends + 1), sid);
      EndLast(Mine(front, sid), last.(parent := Local(front, sid, last.parent)));
    }
  }

  lemma EndLast(front: seq<Span>, last: Span)
    ensures EndSpan(front + [last], |front|) == front + [last.(ends := last.ends + 1)]
  {
  }

  lemma ActiveIgnoresEnds(r: Registry, i: nat, sid: string)
    ensures MineActive(r.(spans := EndSpan(r.spans, i)), sid) == MineActive(r, sid)
  {
    hide EndSpan, Local;
    if sid in r.active {
      LocalIgnoresEnds(r.spans, sid, i, r.active[sid].run);
      LocalIgnoresEnds(r.spans, sid, i, r.active[sid].phase);
    }
  }

  lemma OpenSpansExist(r: Registry, who: string)
    requires Conserved(r) && who in r.active
    ensures var a := r.active[who];
            && (a.run.Some? ==> a.run.value < |r.spans| && r.spans[a.run.value].session == who)
            && (a.phase.Some? ==> a.phase.value < |r.spans| && r.spans[a.phase.value].session == who)
  {
  }

  lemma {:induction false} LocalOf(spans: seq<Span>, sid: string, i: nat)
    requires i < |spans|
    ensures Local(spans, sid, Some(i)) == Some(Rank(spans[..i], sid))
    ensures Local(spans, sid, None) == None
  {
  }

  lemma ProjectEndPhase(r: Registry, who: string, sid: string)
    requires Conserved(r)
    ensures Project(EndPhase(r, who), sid) == if who == sid then EndPhase(Project(r, sid), sid) else Project(r, sid)
  {
    hide Conserved, EndSpan, Mine, Rank, Local;
    if who in r.active {
      OpenSpansExist(r, who);
      if r.active[who].phase.Some? {
        var i := r.active[who].phase.value;
        LocalOf(r.spans, sid, i);
        NoLocal(EndSpan(r.spans, i), sid);
        MineAfterEnd(r.spans, sid, i);
        ActiveIgnoresEnds(r, i, sid);
      } else {
        NoLocal(r.spans, sid);
      }
    }
  }

  lemma ProjectEndRun(r: Registry, who: string, sid: string)
    requires Conserved(r)
    ensures Project(EndRun(r, who), sid) == if who == sid then EndRun(Project(r, sid), sid) else Project(r, sid)
  {
    hide Conserved, EndSpan, Mine, Rank, Local;
    if who in r.active {
      OpenSpansExist(r, who);
      if r.active[who].run.Some? {
        var i := r.active[who].run.value;
        LocalOf(r.spans, sid, i);
        NoLocal(EndSpan(r.spans, i), sid);
        MineAfterEnd(r.spans, sid, i);
        ActiveIgnoresEnds(r, i, sid);
      } else {
        NoLocal(r.spans, sid);
      }
    }
  }

  lemma ProjectEnsureActive(r: Registry, who: string, sid: string)
    ensures Project(EnsureActive(r, who), sid) == if who == sid then EnsureActive(Project(r, sid), sid) else Project(r, sid)
  {
  }

  lemma LocalStays(spans: seq<Span>, s: Span, sid: string, id: Option<nat>)
    requires id.Some? ==> id.value <= |spans|
    ensures Local(spans + [s], sid, id) == Local(spans, sid, id)
  {
    RankAppend(spans, s, sid);
  }

  lemma ActiveStays(r: Registry, s: Span, sid: string)
    requires Conserved(r)
    ensures MineActive(r.(spans := r.spans + [s]), sid) == MineActive(r, sid)
  {
    if sid in r.active {
      LocalStays(r.spans, s, sid, r.active[sid].run);
      LocalStays(r.spans, s, sid, r.active[sid].phase);
    }
  }

  lemma {:induction false} NewestLocal(spans: seq<Span>, s: Span, sid: string)
    ensures Local(spans + [s], sid, Some(|spans|)) == Some(|Mine(spans, sid)|)
  {
    assert (spans + [s])[..|spans|] == spans;
  }

  lemma ProjectStartRun(r: Registry, who: string, sid: string)
    requires Conserved(r) && who in r.active
    ensures Project(StartRun(r, who), sid) == if who == sid then StartRun(Project(r, sid), sid) else Project(r, sid)
  {
    hide Mine, Rank, Local, Conserved;
    var s := Span(who, RunTag, None, 0);
    RankAppend(r.spans, s, sid);
    ActiveStays(r, s, sid);
    NewestLocal(r.spans, s, sid);
    if who == sid {
      assert Local(r.spans, sid, None) == None by { NoLocal(r.spans, sid); }
    } else {
      assert Mine(r.spans, sid) + [] == Mine(r.spans, sid);
    }
  }

  lemma NoLocal(spans: seq<Span>, sid: string)
    ensures Local(spans, sid, None) == None
  {
  }

  lemma ProjectStartPhase(r: Registry, who: string, id: PhaseId, sid: string)
    requires Conserved(r) && who in r.active
    ensures Project(StartPhase(r, who, id), sid) ==
            if who == sid then StartPhase(Project(r, sid), sid, id) else Project(r, sid)
  {
    hide Mine, Rank, Local, Conserved;
    var s := Span(who, PhaseTag(id), r.active[who].run, 0);
    RankAppend(r.spans, s, sid);
    ActiveStays(r, s, sid);
    NewestLocal(r.spans, s, sid);
    if who != sid {
      assert Mine(r.spans, sid) + [] == Mine(r.spans, sid);
    }
  }

  lemma ProjectWork(r: Registry, who: string, tag: Tag, sid: string)
    requires Conserved(r)
    ensures Project(Work(r, who, tag), sid) == if who == sid then Work(Project(r, sid), sid, tag) else Project(r, sid)
  {
    var s := Span(who, tag, if who in r.active then r.active[who].phase else None, 1);
    RankAppend(r.spans, s, sid);
    ActiveStays(r, s, sid);
  }

  lemma ProjectEndAll(r: Registry, who: string, sid: string)
    requires Conserved(r)
    ensures Project(EndAll(r, who), sid) == if who == sid then EndAll(Project(r, sid), sid) else Project(r, sid)
  {
    hide Conserved;
    EndPhaseConserves(r, who);
    ProjectEndPhase(r, who, sid);
    ProjectEndRun(EndPhase(r, who), who, sid);
    var r1 := EndRun(EndPhase(r, who), who);
    hide EndPhase, EndRun;
    Forget(r1, who, sid);
    Forget(Project(r1, sid), sid, sid);
  }

  lemma Forget(r: Registry, who: string, sid: string)
    ensures Project(r.(active := r.active - {who}), sid) ==
            if who == sid then Project(r, sid).(active := Project(r, sid).active - {sid}) else Project(r, sid)
  {
    if sid in r.active && who == sid { assert Project(r, sid).active - {sid} == map[]; }
  }

  /** Observing an event of a session and then looking at that session alone is observing it in isolation; an
      event of another session is not seen at all. */
  lemma ProjectObserve(r: Registry, ev: Event, sid: string)
    requires Conserved(r)
    ensures Project(Observe(r, ev), sid) ==
            if ev.sessionId == sid then Observe(Project(r, sid), ev) else Project(r, sid)
  {
    hide Conserved, Project, EndPhase, EndRun, StartRun, StartPhase, Work, EndAll;
    var who := ev.sessionId;
    match ev
    case RunStarted(_, _, _, _, _) => ProjectBeginRun(r, who, sid);
    case RunResumed(_, _, _, _, _, _) => ProjectBeginRun(r, who, sid);
    case PhaseStarted(_, id, _, _, _, _) => ProjectBeginPhase(r, who, id, sid);
    case IterationCommitted(_, id, _, _, _, _, _, _, _, _, _, _) => ProjectWork(r, who, IterationTag(id), sid);
    case ReviewCommitted(_, id, _, _, _, _, _, _, _, _, _, _, _, _) => ProjectWork(r, who, ReviewTag(id), sid);
    case HumanReviewPending(_, _, _, _, _, _) =>
    case PhaseTransitioned(_, _, _, _, _, _, _) => ProjectEndPhase(r, who, sid);
    case RunCompleted(_, _, _, _, _, _, _) => ProjectEndAll(r, who, sid);
    case RunFailed(_, _, _, _, _, _) => ProjectEndAll(r, who, sid);
  }

  lemma ProjectBeginRun(r: Registry, who: string, sid: string)
    requires Conserved(r)
    ensures Project(BeginRun(r, who), sid) == if who == sid then BeginRun(Project(r, sid), sid) else Project(r, sid)
  {
    hide Conserved, Project, EndPhase, EndRun, StartRun;
    var r1 := EnsureActive(r, who);
    EnsureActiveConserves(r, who);
    ProjectEnsureActive(r, who, sid);
    EndPhaseConserves(r1, who);
    ProjectEndPhase(r1, who, sid);
    EndRunConserves(EndPhase(r1, who), who);
    ProjectEndRun(EndPhase(r1, who), who, sid);
    EndingKeepsKeys(r1, who);
    SameRunOpen(r1, who);
    ProjectStartRun(if r1.active[who].run.Some? then EndRun(EndPhase(r1, who), who) else r1, who, sid);
  }

  lemma EndingKeepsKeys(r: Registry, sid: string)
    ensures EndPhase(r, sid).active.Keys == r.active.Keys
    ensures EndRun(r, sid).active.Keys == r.active.Keys
    ensures EndRun(EndPhase(r, sid), sid).active.Keys == r.active.Keys
  {
  }

  lemma SameRunOpen(r: Registry, sid: string)
    requires sid in r.active
    ensures sid in Project(r, sid).active && Project(r, sid).active[sid].run.Some? == r.active[sid].run.Some?
  {
  }

  lemma ProjectBeginPhase(r: Registry, who: string, id: PhaseId, sid: string)
    requires Conserved(r)
    ensures Project(BeginPhase(r, who, id), sid) ==
            if who == sid then BeginPhase(Project(r, sid), sid, id) else Project(r, sid)
  {
    hide Conserved, Project, EndPhase, StartPhase;
    var r1 := EnsureActive(r, who);
    EnsureActiveConserves(r, who);
    ProjectEnsureActive(r, who, sid);
    EndPhaseConserves(r1, who);
    ProjectEndPhase(r1, who, sid);
    EndingKeepsKeys(r1, who);
    EndingKeepsKeys(EnsureActive(Project(r, sid), sid), sid);
    ProjectStartPhase(EndPhase(r1, who), who, id, sid);
  }

  /** The spans of a session are those its own events give, however the events of other sessions are mixed in. */
  lemma {:induction false} SessionsAreIndependent(r: Registry, log: seq<Event>, sid: string)
    requires Conserved(r)
    ensures Project(ObserveAll(r, log), sid) == ObserveAll(Project(r, sid), OnlyOf(log, sid))
    decreases |log|
  {
    hide Conserved, Observe, Project;
    if log != [] {
      ObserveConserves(r, log[0]);
      ProjectObserve(r, log[0], sid);
      SessionsAreIndependent(Observe(r, log[0]), log[1..], sid);
      if log[0].sessionId == sid {
        assert OnlyOf(log, sid)[1..] == OnlyOf(log[1..], sid);
      } else {
        assert OnlyOf(log, sid) == OnlyOf(log[1..], sid);
      }
    }
  }
}
