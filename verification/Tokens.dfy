/** Token accounting of a run: the totals in RunCompleted are the sum over the committed events of the run. */
module Tokens {
  import opened Wrappers
  import opened Graph
  import opened State
  import opened Events
  import opened Disk
  import opened Machine
  import opened Invariants
  import opened Sessions
  import opened Replay

  function UsageIn(ev: Event): Option<TokenUsage> {
    if ev.IterationCommitted? || ev.ReviewCommitted? then ev.usage else None
  }

  /** The sum of `t` and of the usage in a log. */
  function Tally(t: TokenUsage, log: seq<Event>): TokenUsage
    decreases |log|
  {
    if log == [] then t else Tally(AddUsage(t, UsageIn(log[0])), log[1..])
  }

  /** What an event reports of one kind of tokens, if it is a commit with usage. */
  function Reports(ev: Event, tokens: TokenUsage -> int): int {
    match ev
    case IterationCommitted(_, _, _, _, _, _, _, _, _, _, _, Some(usage)) => tokens(usage)
    case ReviewCommitted(_, _, _, _, _, _, _, _, _, _, _, _, _, Some(usage)) => tokens(usage)
    case _ => 0
  }

  function SumOf(log: seq<Event>, tokens: TokenUsage -> int): int {
    if log == [] then 0 else Reports(log[0], tokens) + SumOf(log[1..], tokens)
  }

  function PromptTokens(u: TokenUsage): int { u.prompt }
  function CompletionTokens(u: TokenUsage): int { u.completion }
  function TotalTokens(u: TokenUsage): int { u.total }

  /** Kind by kind, a tally is a sum over the events. */
  lemma {:induction false} TallySums(t: TokenUsage, log: seq<Event>)
    ensures Tally(t, log).prompt == t.prompt + SumOf(log, PromptTokens)
    ensures Tally(t, log).completion == t.completion + SumOf(log, CompletionTokens)
    ensures Tally(t, log).total == t.total + SumOf(log, TotalTokens)
    decreases |log|
  {
    if log != [] {
      TallySums(AddUsage(t, UsageIn(log[0])), log[1..]);
    }
  }

  /** Every completion reports `t` plus what the log holds before it. */
  predicate Accounts(t: TokenUsage, log: seq<Event>)
    decreases |log|
  {
    log != [] ==>
      && (log[0].RunCompleted? ==> log[0].totals == t)
      && Accounts(AddUsage(t, UsageIn(log[0])), log[1..])
  }

  lemma {:induction false} TallyConcat(t: TokenUsage, a: seq<Event>, b: seq<Event>)
    ensures Tally(t, a + b) == Tally(Tally(t, a), b)
    ensures Accounts(t, a) && Accounts(Tally(t, a), b) ==> Accounts(t, a + b)
    decreases |a|
  {
    if a == [] {
      assert a + b == b;
    } else {
      assert (a + b)[1..] == a[1..] + b;
      TallyConcat(AddUsage(t, UsageIn(a[0])), a[1..], b);
    }
  }

  /** Events that neither carry usage nor report totals. */
  predicate Free(ev: Event) { UsageIn(ev).None? && !ev.RunCompleted? }

  lemma {:induction false} FreeTally(t: TokenUsage, log: seq<Event>)
    requires forall i :: 0 <= i < |log| ==> Free(log[i])
    ensures Tally(t, log) == t && Accounts(t, log)
    decreases |log|
  {
    if log != [] {
      FreeTally(t, log[1..]);
    }
  }

  lemma {:induction false} TallyOne(t: TokenUsage, ev: Event)
    requires ev.RunCompleted? ==> ev.totals == t
    ensures Tally(t, [ev]) == AddUsage(t, UsageIn(ev)) && Accounts(t, [ev])
  {
    var u := AddUsage(t, UsageIn(ev));
    assert [ev][1..] == [];
    assert Tally(u, []) == u && Accounts(u, []);
  }

  lemma {:induction false} SaidTally(g: PhaseGraph, n: Engine, c: Commit, now: Time, t: TokenUsage)
    requires KnownPhase(g, n.held.state, c) && n.tokens == AddUsage(t, UsageOf(c))
    ensures Tally(t, Said(g, n, c, now)) == n.tokens && Accounts(t, Said(g, n, c, now))
  {
    var said := Said(g, n, c, now);
    if c.Iterate? || c.Judge? || c.Close? {
      assert said == [said[0]];
      TallyOne(t, said[0]);
    } else {
      FreeTally(t, said);
    }
  }

  lemma StepTokens(g: PhaseGraph, cfg: Config, d: Disk, e: Engine, inp: Input)
    requires Running(e)
    ensures Step(g, cfg, d, e, inp).next.tokens ==
      if Commits(cfg, d, e, inp) then AddUsage(e.tokens, UsageOf(CommitOf(cfg, d, e, inp))) else e.tokens
  {
    hide PlanOf, Conclude, HumanDecision, Abort;
    PlansAreOrdered(cfg, d, e, inp);
    var plan, m := PlanOf(cfg, d, e, inp), MarkApplied(e);
    if Commits(cfg, d, e, inp) {
      var e1 := Saved(m, plan.commit);
      var tail := ConcludeShape(g, cfg, e1, plan.before + Written(e1), plan.commit, plan.next, inp.now);
    } else if plan.Save? {
      var tail := AbortShape(g, m, plan.before, SaveError(d, m.held.revision).value, inp.now);
    } else if plan.Fail? {
      var tail := AbortShape(g, m, plan.before, plan.error, inp.now);
    }
  }

  lemma StepTally(g: PhaseGraph, cfg: Config, d: Disk, e: Engine, inp: Input)
    requires ValidGraph(g) && Sound(g, d, e) && Running(e)
    ensures var o := Step(g, cfg, d, e, inp);
            o.next.tokens == Tally(e.tokens, EventsOf(o.out)) && Accounts(e.tokens, EventsOf(o.out))
  {
    hide ValidGraph, Step, PlanOf, Sound, Said;
    var o := Step(g, cfg, d, e, inp);
    var end := StepSays(g, cfg, d, e, inp);
    StepTokens(g, cfg, d, e, inp);
    FreeTally(o.next.tokens, end);
    if Commits(cfg, d, e, inp) {
      var c := CommitOf(cfg, d, e, inp);
      SaidTally(g, o.next, c, inp.now, e.tokens);
      TallyConcat(e.tokens, Said(g, o.next, c, inp.now), end);
    }
  }

  lemma {:induction false} ExecTally(g: PhaseGraph, cfg: Config, d: Disk, e: Engine, inputs: seq<Input>)
    requires ValidGraph(g) && Sound(g, d, e)
    ensures Accounts(e.tokens, EventsOf(Exec(g, cfg, d, e, inputs).trace))
    decreases |inputs|
  {
    hide ValidGraph, Step, Sound;
    if inputs != [] && Running(e) {
      var o := Step(g, cfg, d, e, inputs[0]);
      StepTally(g, cfg, d, e, inputs[0]);
      StepKeepsSound(g, cfg, d, e, inputs[0]);
      ExecTally(g, cfg, Apply(d, o.out), o.next, inputs[1..]);
      var rest := Exec(g, cfg, Apply(d, o.out), o.next, inputs[1..]).trace;
      EventsOfConcat(o.out, rest);
      TallyConcat(e.tokens, EventsOf(o.out), EventsOf(rest));
    }
  }

  lemma BootTally(g: PhaseGraph, cfg: Config, d: Disk, req: RunRequest)
    ensures var o := Boot(g, cfg, d, req);
            && Tally(NO_TOKENS, EventsOf(o.out)) == NO_TOKENS
            && Accounts(NO_TOKENS, EventsOf(o.out))
            && o.next.tokens == NO_TOKENS
  {
    BootIsQuiet(g, cfg, d, req);
    hide Boot;
    QuietEvents(Boot(g, cfg, d, req).out);
    FreeTally(NO_TOKENS, EventsOf(Boot(g, cfg, d, req).out));
  }

  predicate Quiet(trace: seq<Effect>) {
    forall i :: 0 <= i < |trace| && trace[i].Emit? ==> Free(trace[i].event)
  }

  lemma BootIsQuiet(g: PhaseGraph, cfg: Config, d: Disk, req: RunRequest)
    ensures Quiet(Boot(g, cfg, d, req).out) && Boot(g, cfg, d, req).next.tokens == NO_TOKENS
  {
    hide Apply, EnterPhase, Abort, Conclude, Loadable;
    forall e, out, err | Quiet(out) {
      AbortIsQuiet(g, e, out, err, req.now);
    }
    forall e, out | Quiet(out) {
      EnterIsQuiet(g, e, out, req.now);
    }
    forall e, out | Quiet(out) {
      StartIsQuiet(g, cfg, e, out, req.now);
    }
  }

  lemma AbortIsQuiet(g: PhaseGraph, e: Engine, out: seq<Effect>, err: EngineError, now: Time)
    requires Quiet(out)
    ensures Quiet(Abort(g, e, out, err, now).out) && Abort(g, e, out, err, now).next.tokens == e.tokens
  {
  }

  lemma EnterIsQuiet(g: PhaseGraph, e: Engine, out: seq<Effect>, now: Time)
    requires Quiet(out)
    ensures Quiet(EnterPhase(g, e, out, now).out) && EnterPhase(g, e, out, now).next.tokens == e.tokens
  {
    hide Abort;
    if Get(g, e.held.state.currentPhase).None? {
      AbortIsQuiet(g, e, out, ConfigurationError, now);
    }
  }

  lemma StartIsQuiet(g: PhaseGraph, cfg: Config, e: Engine, out: seq<Effect>, now: Time)
    requires Quiet(out)
    ensures var o := Conclude(g, cfg, e, out, Begin, Enter, now); Quiet(o.out) && o.next.tokens == e.tokens
  {
    hide Abort, EnterPhase;
    if KnownPhase(g, e.held.state, Begin) {
      EnterIsQuiet(g, e, out + Announce(g, cfg, e, Begin, now), now);
    } else {
      AbortIsQuiet(g, e, out, ConfigurationError, now);
    }
  }

  lemma {:induction false} QuietEvents(trace: seq<Effect>)
    requires Quiet(trace)
    ensures forall i :: 0 <= i < |EventsOf(trace)| ==> Free(EventsOf(trace)[i])
  {
    hide Free;
    if trace != [] {
      QuietEvents(trace[1..]);
    }
  }

  /** Nothing follows the end of a log. */
  lemma {:induction false} EndIsLast(g: PhaseGraph, from: LogState, log: seq<Event>, i: nat)
    requires i < |log| && log[i].RunCompleted? && FollowAll(g, from, log) != Broken
    ensures i == |log| - 1
    decreases |log|
  {
    if i > 0 {
      EndIsLast(g, Follow(g, from, log[0]), log[1..], i - 1);
    } else if |log| > 1 {
      var mid := Follow(g, Follow(g, from, log[0]), log[1]);
      assert mid == Broken;
      assert FollowAll(g, from, log) == FollowAll(g, mid, log[1..][1..]);
      BrokenStays(g, log[1..][1..]);
    }
  }

  lemma {:induction false} AccountsAt(t: TokenUsage, log: seq<Event>)
    requires Accounts(t, log) && log != [] && log[|log| - 1].RunCompleted?
    ensures log[|log| - 1].totals == Tally(t, log)
    decreases |log|
  {
    if |log| > 1 {
      AccountsAt(AddUsage(t, UsageIn(log[0])), log[1..]);
    } else {
      TallyOne(t, log[0]);
      assert log == [log[0]];
    }
  }

  /** The totals a run reports are, kind by kind, the sums of the usage in the iterations and reviews it committed
      itself. */
  lemma CompletionReportsTheSum(g: PhaseGraph, cfg: Config, d: Disk, req: RunRequest, inputs: seq<Input>, i: nat)
    requires ValidGraph(g) && DiskOk(g, d) && !Rejected(d, req)
    requires i < |EventsOf(Session(g, cfg, d, req, inputs).trace)|
    requires EventsOf(Session(g, cfg, d, req, inputs).trace)[i].RunCompleted?
    ensures var log := EventsOf(Session(g, cfg, d, req, inputs).trace);
            && i == |log| - 1
            && log[i].totals.prompt == SumOf(log, PromptTokens)
            && log[i].totals.completion == SumOf(log, CompletionTokens)
            && log[i].totals.total == SumOf(log, TotalTokens)
  {
    hide ValidGraph, Boot, Exec, WellFormed, Rejected, SumOf;
    BootKeepsSound(g, cfg, d, req);
    BootTally(g, cfg, d, req);
    var o := Boot(g, cfg, d, req);
    ExecTally(g, cfg, Apply(d, o.out), o.next, inputs);
    var rest := Exec(g, cfg, Apply(d, o.out), o.next, inputs).trace;
    EventsOfConcat(o.out, rest);
    TallyConcat(NO_TOKENS, EventsOf(o.out), EventsOf(rest));
    RunIsTold(g, cfg, d, req, inputs);
    var log := EventsOf(o.out + rest);
    EndIsLast(g, Start, log, i);
    AccountsAt(NO_TOKENS, log);
    TallySums(NO_TOKENS, log);
  }
}
