/** An engine that nobody interrupts: its moves are the boot and the steps of the machine. Schedules only add
    interruptions. */
module Solo {
  import opened Wrappers
  import opened Graph
  import opened State
  import opened Events
  import opened Disk
  import opened Machine
  import opened Invariants
  import opened Sessions
  import Refinement
  import opened Writers

  /** The same engine moves several times in a row. */
  function MovesOn(g: PhaseGraph, w: World, i: nat, inp: Input, n: nat): World
    decreases n
  {
    if n == 0 then w else MovesOn(g, TakeTurn(g, w, Moves(i, inp)), i, inp, n - 1)
  }

  lemma {:induction false} MovesAdd(g: PhaseGraph, w: World, i: nat, inp: Input, a: nat, b: nat)
    ensures MovesOn(g, w, i, inp, a + b) == MovesOn(g, MovesOn(g, w, i, inp, a), i, inp, b)
    decreases a
  {
    hide TakeTurn;
    if a > 0 {
      MovesAdd(g, TakeTurn(g, w, Moves(i, inp)), i, inp, a - 1, b);
    }
  }

  lemma {:induction false} OwedIsDone(g: PhaseGraph, w: World, i: nat, inp: Input, n: nat)
    requires i < |w.writers| && n == |w.writers[i].todo|
    ensures var wr := w.writers[i];
            MovesOn(g, w, i, inp, n) ==
            World(Apply(w.disk, wr.todo), w.writers[i := wr.(todo := [])], w.history + SavesOf(wr.todo))
    decreases n
  {
    var wr := w.writers[i];
    if n == 0 {
      assert w.history + [] == w.history;
      assert w.writers[i := wr.(todo := [])] == w.writers;
    } else {
      hide ApplyEffect;
      var x, rest := wr.todo[0], wr.todo[1..];
      var w1 := TakeTurn(g, w, Moves(i, inp));
      OwedIsDone(g, w1, i, inp, n - 1);
      assert wr.todo == [x] + rest;
      OneMore(w.disk, [], x);
      SavesOfConcat([x], rest);
      assert (w.history + SavesOf([x])) + SavesOf(rest) == w.history + SavesOf(wr.todo);
      assert w1.writers[i := wr.(todo := [])] == w.writers[i := wr.(todo := [])];
    }
  }

  lemma ConcludeAfter(g: PhaseGraph, cfg: Config, e: Engine, out: seq<Effect>, c: Commit, after: After, now: Time)
    ensures var o := Conclude(g, cfg, e, [], c, after, now);
            Conclude(g, cfg, e, out, c, after, now) == Outcome(o.next, out + o.out)
  {
    hide Abort, EnterPhase, Announce;
    AbortAfter(g, e, out, ConfigurationError, now);
    var said := Announce(g, cfg, e, c, now);
    assert [] + said == said;
    match after
    case Enter =>
      EnterAfter(g, e, out + said, now);
      EnterAfter(g, e, said, now);
    case At(_) =>
    case Halt(post) => assert (out + said) + post == out + (said + post);
    case Reject(err) =>
      AbortAfter(g, e, out + said, err, now);
      AbortAfter(g, e, said, err, now);
      assert (out + said) + Abort(g, e, [], err, now).out == out + (said + Abort(g, e, [], err, now).out);
  }

  /** Groundwork can be done first. */
  lemma {:induction false} PerformSplits(g: PhaseGraph, cfg: Config, d: Disk, m: Engine, plan: Plan, now: Time)
    requires Groundwork(BeforeOf(plan))
    ensures var o := Perform(g, cfg, Apply(d, BeforeOf(plan)), m, WithoutGroundwork(plan), now);
            Perform(g, cfg, d, m, plan, now) == Outcome(o.next, BeforeOf(plan) + o.out)
  {
    hide Abort, Conclude;
    var before := BeforeOf(plan);
    GroundworkSavesNothing(d, before);
    match plan {
      case Fail(_, err) => AbortAfter(g, m, before, err, now);
      case Save(_, c, after) =>
        var err := SaveError(d, m.held.revision);
        if err.Some? {
          AbortAfter(g, m, before, err.value, now);
        } else {
          var e1 := Saved(m, c);
          ConcludeAfter(g, cfg, e1, before + Written(e1), c, after, now);
          ConcludeAfter(g, cfg, e1, [] + Written(e1), c, after, now);
          var o := Conclude(g, cfg, e1, [], c, after, now);
          assert [] + Written(e1) == Written(e1);
          assert (before + Written(e1)) + o.out == before + (Written(e1) + o.out);
        }
      case _ =>
    }
  }

  lemma {:induction false} GroundworkSavesNothing(d: Disk, before: seq<Effect>)
    requires Groundwork(before)
    ensures Apply(d, before).state == d.state && Apply(d, before).revision == d.revision && SavesOf(before) == []
  {
    AskingIsGroundwork();
    OrderedIsNoSave(before, []);
    NoSaveKeepsState(d, before);
  }

  /** Planning, and doing the groundwork. */
  lemma PlansAlone(g: PhaseGraph, w: World, i: nat, inp: Input) returns (n: nat)
    requires i < |w.writers| && w.writers[i].intent.Thinking? && w.writers[i].todo == [] && Running(w.writers[i].engine)
    ensures var wr := w.writers[i];
            var plan := PlanOf(wr.cfg, w.disk, wr.engine, inp);
            && Groundwork(BeforeOf(plan))
            && MovesOn(g, w, i, inp, n) ==
               World(Apply(w.disk, BeforeOf(plan)),
                     w.writers[i := wr.(intent := Settling(WithoutGroundwork(plan), inp.now))], w.history)
  {
    hide PlanOf, Apply, SavesOf, Groundwork, WithoutGroundwork;
    var wr := w.writers[i];
    var plan := PlanOf(wr.cfg, w.disk, wr.engine, inp);
    var before := BeforeOf(plan);
    PlansAreOrdered(wr.cfg, w.disk, wr.engine, inp);
    AskingIsGroundwork();
    GroundworkSavesNothing(w.disk, before);
    NothingDone(w.disk);
    NoSaves();
    assert w.history + [] == w.history;
    var settling := wr.(intent := Settling(WithoutGroundwork(plan), inp.now));
    var w1 := World(w.disk, w.writers[i := settling.(todo := before)], w.history);
    assert TakeTurn(g, w, Moves(i, inp)) == w1;
    OwedIsDone(g, w1, i, inp, |before|);
    assert w1.writers[i := settling] == w.writers[i := settling];
    n := 1 + |before|;
    MovesAdd(g, w, i, inp, 1, |before|);
    assert MovesOn(g, w, i, inp, 1) == w1;
  }

  /** A save and what follows it. */
  lemma SavesAlone(g: PhaseGraph, w: World, i: nat, inp: Input, p: Outcome) returns (n: nat)
    requires i < |w.writers| && w.writers[i].todo == [] && Act(g, w.disk, w.writers[i], inp) == Saving(w.writers[i], p)
    ensures MovesOn(g, w, i, inp, n) ==
            World(Apply(w.disk, p.out), w.writers[i := w.writers[i].(engine := p.next, intent := Thinking)],
                  w.history + SavesOf(p.out))
  {
    hide Apply, SavesOf, Act;
    var wr := w.writers[i];
    var a := Saving(wr, p);
    var rest := a.writer.todo;
    assert p.out == a.done + rest;
    var w1 := World(Apply(w.disk, a.done), w.writers[i := a.writer], w.history + SavesOf(a.done));
    assert TakeTurn(g, w, Moves(i, inp)) == w1;
    OwedIsDone(g, w1, i, inp, |rest|);
    ApplyConcat(w.disk, a.done, rest);
    SavesOfConcat(a.done, rest);
    assert (w.history + SavesOf(a.done)) + SavesOf(rest) == w.history + SavesOf(p.out);
    assert w1.writers[i := a.writer.(todo := [])] == w.writers[i := wr.(engine := p.next, intent := Thinking)];
    n := 1 + |rest|;
    MovesAdd(g, w, i, inp, 1, |rest|);
    assert MovesOn(g, w, i, inp, 1) == w1;
  }

  lemma SettlesAlone(g: PhaseGraph, w: World, i: nat, inp: Input) returns (n: nat)
    requires i < |w.writers| && w.writers[i].intent.Settling? && w.writers[i].todo == []
    ensures var wr := w.writers[i];
            var p := Perform(g, wr.cfg, w.disk, MarkApplied(wr.engine), wr.intent.plan, wr.intent.now);
            MovesOn(g, w, i, inp, n) ==
            World(Apply(w.disk, p.out), w.writers[i := wr.(engine := p.next, intent := Thinking)],
                  w.history + SavesOf(p.out))
  {
    hide Perform, Saving, MovesOn;
    var wr := w.writers[i];
    n := SavesAlone(g, w, i, inp, Perform(g, wr.cfg, w.disk, MarkApplied(wr.engine), wr.intent.plan, wr.intent.now));
  }

  lemma LaunchesAlone(g: PhaseGraph, w: World, i: nat, inp: Input) returns (n: nat)
    requires i < |w.writers| && w.writers[i].intent.Launching? && w.writers[i].todo == []
    ensures var wr := w.writers[i];
            var p := Launch(g, wr.cfg, w.disk, wr.intent.found, [], wr.intent.req);
            MovesOn(g, w, i, inp, n) ==
            World(Apply(w.disk, p.out), w.writers[i := wr.(engine := p.next, intent := Thinking)],
                  w.history + SavesOf(p.out))
  {
    hide Launch, Saving, MovesOn;
    var wr := w.writers[i];
    n := SavesAlone(g, w, i, inp, Launch(g, wr.cfg, w.disk, wr.intent.found, [], wr.intent.req));
  }

  /** An engine that nobody interrupts takes exactly the steps of the machine: moving on until it plans again
      is one step. Schedules only add interruptions. */
  lemma AloneIsStep(g: PhaseGraph, w: World, i: nat, inp: Input) returns (n: nat)
    requires i < |w.writers| && w.writers[i].intent.Thinking? && w.writers[i].todo == [] && Running(w.writers[i].engine)
    ensures var wr := w.writers[i];
            var o := Step(g, wr.cfg, w.disk, wr.engine, inp);
            MovesOn(g, w, i, inp, n) ==
            World(Apply(w.disk, o.out), w.writers[i := wr.(engine := o.next)], w.history + SavesOf(o.out))
  {
    hide PlanOf, Perform, Apply, SavesOf, Groundwork, WithoutGroundwork, MarkApplied, MovesOn;
    var wr := w.writers[i];
    var plan := PlanOf(wr.cfg, w.disk, wr.engine, inp);
    var before := BeforeOf(plan);
    var a := PlansAlone(g, w, i, inp);
    GroundworkSavesNothing(w.disk, before);
    PerformSplits(g, wr.cfg, w.disk, MarkApplied(wr.engine), plan, inp.now);
    var w1 := MovesOn(g, w, i, inp, a);
    var b := SettlesAlone(g, w1, i, inp);
    var p := Perform(g, wr.cfg, w1.disk, MarkApplied(wr.engine), WithoutGroundwork(plan), inp.now);
    ApplyConcat(w.disk, before, p.out);
    SavesOfConcat(before, p.out);
    assert [] + SavesOf(p.out) == SavesOf(p.out);
    var settled := wr.(engine := p.next);
    assert w1.writers[i := settled] == w.writers[i := settled];
    n := a + b;
    MovesAdd(g, w, i, inp, a, b);
  }

  /** Loading or creating the session in one go. */
  function Joined(g: PhaseGraph, w: World, cfg: Config, req: RunRequest): World {
    var idle := Fresh(Stored(FreshState(g, req), 0), Finished);
    if Rejected(w.disk, req) then
      var err := if Loadable(w.disk.state.value) then StateError else ValidationError;
      w.(writers := w.writers + [Writer(cfg, idle.(pc := Crashed(err)), Thinking, [])])
    else
      var out := InitialWrites(g, w.disk, req);
      World(Apply(w.disk, out), w.writers + [Writer(cfg, idle, Launching(req, LoadedState(g, w.disk, req)), [])],
            w.history + SavesOf(out))
  }

  /** That is what an engine does that nobody interrupts. */
  lemma JoinsAlone(g: PhaseGraph, w: World, cfg: Config, req: RunRequest, inp: Input) returns (n: nat)
    ensures MovesOn(g, TakeTurn(g, w, Loads(cfg, req)), |w.writers|, inp, n) == Joined(g, w, cfg, req)
  {
    hide Apply, SavesOf, FreshState, Loadable;
    var i := |w.writers|;
    var w1 := TakeTurn(g, w, Loads(cfg, req));
    var out := if w.disk.state.None? then InitialWrites(g, w.disk, req) else [];
    NothingDone(w.disk);
    NoSaves();
    assert w.history + [] == w.history;
    var w2 := TakeTurn(g, w1, Moves(i, inp));
    assert w2.disk == w.disk && w2.history == w.history;
    OwedIsDone(g, w2, i, inp, |out|);
    n := 1 + |out|;
    MovesAdd(g, w1, i, inp, 1, |out|);
    assert MovesOn(g, w1, i, inp, 1) == w2;
    var joined := Joined(g, w, cfg, req);
    assert w2.writers[i := w2.writers[i].(todo := [])] == joined.writers;
  }

  /** From there, launching without interruption. */
  lemma JoinedLaunches(g: PhaseGraph, w: World, cfg: Config, req: RunRequest, inp: Input) returns (n: nat)
    requires !Rejected(w.disk, req)
    ensures var o := Boot(g, cfg, w.disk, req);
            MovesOn(g, Joined(g, w, cfg, req), |w.writers|, inp, n) ==
            World(Apply(w.disk, o.out), w.writers + [Writer(cfg, o.next, Thinking, [])], w.history + SavesOf(o.out))
  {
    hide Apply, SavesOf, MovesOn, Boot, Launch, InitialWrites, LoadedState, FreshState;
    var i, out, found := |w.writers|, InitialWrites(g, w.disk, req), LoadedState(g, w.disk, req);
    BootIsLaunch(g, cfg, w.disk, req);
    var w1 := Joined(g, w, cfg, req);
    Refinement.LaunchAfter(g, cfg, w1.disk, found, out, req);
    n := LaunchesAlone(g, w1, i, inp);
    var p := Launch(g, cfg, w1.disk, found, [], req);
    ApplyConcat(w.disk, out, p.out);
    SavesOfConcat(out, p.out);
    assert (w.history + SavesOf(out)) + SavesOf(p.out) == w.history + SavesOf(out + p.out);
    assert MovesOn(g, w1, i, inp, n).writers == w.writers + [Writer(cfg, p.next, Thinking, [])];
  }

  /** Loading, creating and launching without interruption is the boot of the machine. */
  lemma AloneIsBoot(g: PhaseGraph, w: World, cfg: Config, req: RunRequest, inp: Input) returns (n: nat)
    requires !Rejected(w.disk, req)
    ensures var o := Boot(g, cfg, w.disk, req);
            MovesOn(g, TakeTurn(g, w, Loads(cfg, req)), |w.writers|, inp, n) ==
            World(Apply(w.disk, o.out), w.writers + [Writer(cfg, o.next, Thinking, [])], w.history + SavesOf(o.out))
  {
    hide Apply, SavesOf, MovesOn, Boot, TakeTurn, Joined;
    var a := JoinsAlone(g, w, cfg, req, inp);
    var b := JoinedLaunches(g, w, cfg, req, inp);
    n := a + b;
    MovesAdd(g, TakeTurn(g, w, Loads(cfg, req)), |w.writers|, inp, a, b);
  }

  // ---- A store whose operations are atomic ----------------------------------------------------

  /** No engine is in the middle of loading or creating the session. */
  predicate Joining(wr: Writer) {
    wr.intent.Creating? || wr.intent.Reading? || (wr.intent.Launching? && wr.todo != [])
  }

  predicate NobodyJoins(w: World) {
    forall i :: 0 <= i < |w.writers| ==> !Joining(w.writers[i])
  }

  function TakeAtomic(g: PhaseGraph, w: World, t: Turn): World {
    if t.Loads? then Joined(g, w, t.cfg, t.req) else TakeTurn(g, w, t)
  }

  function TakeAllAtomic(g: PhaseGraph, w: World, turns: seq<Turn>): World
    decreases |turns|
  {
    if turns == [] then w else TakeAllAtomic(g, TakeAtomic(g, w, turns[0]), turns[1..])
  }

  lemma JoinedKeeps(g: PhaseGraph, w: World, cfg: Config, req: RunRequest)
    requires ValidGraph(g) && Linear(g, w) && NobodyJoins(w)
    ensures Linear(g, Joined(g, w, cfg, req)) && NobodyJoins(Joined(g, w, cfg, req))
    ensures w.history <= Joined(g, w, cfg, req).history
  {
    hide ValidGraph, Chain, WriterOk, Loadable, FreshState, Apply, SavesOf, InitialWrites;
    var w' := Joined(g, w, cfg, req);
    InitialWritesLand(g, w.disk, req);
    InitialSaves(g, w.disk, req);
    AskingIsGroundwork();
    assert w.history + [] == w.history;
    FirstChain(g, req);
    var more := w'.history[|w.history|..];
    assert w.history == [] ==> w.history + [FreshState(g, req)] == [FreshState(g, req)];
    forall k | 0 <= k < |w'.writers| ensures WriterOk(g, w'.history, w'.writers[k]) {
      if k < |w.writers| {
        assert WriterOk(g, w.history, w.writers[k]);
        MoreHistoryOk(g, w.history, SavesOf(InitialWrites(g, w.disk, req)), w.writers[k]);
      } else {
        JoinedWriterOk(g, w, cfg, req);
      }
    }
  }

  lemma JoinedWriterOk(g: PhaseGraph, w: World, cfg: Config, req: RunRequest)
    requires Recorded(w.disk, w.history)
    ensures var w' := Joined(g, w, cfg, req); WriterOk(g, w'.history, w'.writers[|w.writers|])
  {
    hide Loadable, FreshState, Apply, SavesOf, InitialWrites;
    InitialSaves(g, w.disk, req);
    AskingIsGroundwork();
  }

  lemma MoveJoinsNobody(g: PhaseGraph, w: World, t: Turn)
    requires Linear(g, w) && NobodyJoins(w) && t.Moves?
    ensures !Clobbers(w, t) && NobodyJoins(TakeTurn(g, w, t))
  {
    hide Chain, Recorded, Holds, PlanOf, Perform, Launch, Settled, NextFiles;
    if t.writer < |w.writers| {
      assert WriterOk(g, w.history, w.writers[t.writer]);
    }
  }

  /** With a store whose load, initialize and save are each atomic, every schedule of any number of engines is
      linear, also where two of them race to start the session they have both loaded. */
  lemma {:induction false} AtomicStoreIsLinear(g: PhaseGraph, w: World, turns: seq<Turn>)
    requires ValidGraph(g) && Linear(g, w) && NobodyJoins(w)
    ensures Linear(g, TakeAllAtomic(g, w, turns))
    ensures w.history <= TakeAllAtomic(g, w, turns).history
    decreases |turns|
  {
    hide ValidGraph, Linear, Clobbers, NobodyJoins, Joined, TakeTurn;
    if turns != [] {
      var t := turns[0];
      if t.Loads? {
        JoinedKeeps(g, w, t.cfg, t.req);
      } else {
        MoveJoinsNobody(g, w, t);
        TurnKeepsLinearExactlyWhen(g, w, t);
        HistoryOnlyExtends(g, w, t);
      }
      AtomicStoreIsLinear(g, TakeAtomic(g, w, t), turns[1..]);
    }
  }

  lemma HistoryOnlyExtends(g: PhaseGraph, w: World, t: Turn)
    ensures w.history <= TakeTurn(g, w, t).history
  {
    hide Act;
  }

  // ---- Schedules of a row of moves ------------------------------------------------------------

  function Row(i: nat, inp: Input, n: nat): seq<Turn> {
    if n == 0 then [] else [Moves(i, inp)] + Row(i, inp, n - 1)
  }

  lemma {:induction false} TurnsConcat(g: PhaseGraph, w: World, a: seq<Turn>, b: seq<Turn>)
    ensures TakeTurns(g, w, a + b) == TakeTurns(g, TakeTurns(g, w, a), b)
    decreases |a|
  {
    hide TakeTurn;
    if a == [] {
      assert a + b == b;
    } else {
      assert (a + b)[1..] == a[1..] + b;
      TurnsConcat(g, TakeTurn(g, w, a[0]), a[1..], b);
    }
  }

  lemma {:induction false} AtomicConcat(g: PhaseGraph, w: World, a: seq<Turn>, b: seq<Turn>)
    ensures TakeAllAtomic(g, w, a + b) == TakeAllAtomic(g, TakeAllAtomic(g, w, a), b)
    decreases |a|
  {
    hide TakeAtomic;
    if a == [] {
      assert a + b == b;
    } else {
      assert (a + b)[1..] == a[1..] + b;
      AtomicConcat(g, TakeAtomic(g, w, a[0]), a[1..], b);
    }
  }

  lemma {:induction false} RowMoves(g: PhaseGraph, w: World, i: nat, inp: Input, n: nat)
    ensures TakeTurns(g, w, Row(i, inp, n)) == MovesOn(g, w, i, inp, n)
    ensures TakeAllAtomic(g, w, Row(i, inp, n)) == MovesOn(g, w, i, inp, n)
    decreases n
  {
    hide TakeTurn;
    if n > 0 {
      assert Row(i, inp, n)[1..] == Row(i, inp, n - 1);
      RowMoves(g, TakeTurn(g, w, Moves(i, inp)), i, inp, n - 1);
    }
  }

  /** A schedule with an atomic store is one of the schedules. */
  lemma {:induction false} AtomicIsASchedule(g: PhaseGraph, w: World, turns: seq<Turn>) returns (all: seq<Turn>)
    ensures TakeTurns(g, w, all) == TakeAllAtomic(g, w, turns)
    decreases |turns|
  {
    hide TakeTurn, Joined, MovesOn;
    if turns == [] {
      all := [];
    } else {
      var t := turns[0];
      var w1 := TakeAtomic(g, w, t);
      var rest := AtomicIsASchedule(g, w1, turns[1..]);
      if t.Loads? {
        var inp := Input(Continue, 0, 0, Raised, Raised);
        var n := JoinsAlone(g, w, t.cfg, t.req, inp);
        var row := Row(|w.writers|, inp, n);
        var loaded := TakeTurn(g, w, t);
        RowMoves(g, loaded, |w.writers|, inp, n);
        TurnsConcat(g, loaded, row, rest);
        all := [t] + (row + rest);
        assert all[1..] == row + rest;
      } else {
        all := [t] + rest;
        assert all[1..] == rest;
      }
    }
  }
}
