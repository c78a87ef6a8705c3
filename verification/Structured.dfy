/** Structured output: call a language model, parse its reply, retry on failure; with usage accounting and, in
    the asynchronous form, capped exponential backoff. */
module Structured {
  import opened Wrappers

  datatype Usage = Usage(prompt: int, completion: int, total: int, model: Option<string>, requested: Option<string>)

  const NO_USAGE := Usage(0, 0, 0, None, None)

  datatype Completion = Completion(text: string, usage: Option<Usage>)

  /** What a backend call comes back with: a completion, or an exception. */
  datatype Answer = Answered(completion: Completion) | Raised

  datatype CallError =
    | LLMError(attempts: int, rawResponse: Option<string>, validationError: Option<string>)
    | BackendError

  /** Parsing and validating a reply is a partial function of its text. */
  type Parser<!T> = string -> Result<T, string>

  function RetryPrompt(raw: string, error: string): string {
    "Your previous response:\n" + raw + "\n\n" + "Validation errors:\n" + error + "\n\n" +
    "Fix the errors and return valid JSON matching the same schema."
  }

  // ---- What a call means ----------------------------------------------------------------------

  /** An answer that ends a call: an exception, or a reply that parses. */
  predicate Ends<T>(parse: Parser<T>, a: Answer) {
    a.Raised? || parse(a.completion.text).Success?
  }

  /** The first answer that ends the call, or how many there are. */
  function First<T>(parse: Parser<T>, answers: seq<Answer>): (k: nat)
    ensures k <= |answers|
    ensures forall j :: 0 <= j < k ==> !Ends(parse, answers[j])
    ensures k < |answers| ==> Ends(parse, answers[k])
  {
    if answers == [] || Ends(parse, answers[0]) then 0 else 1 + First(parse, answers[1..])
  }

  /** How many of the allowed attempts are made. */
  function Made<T>(parse: Parser<T>, answers: seq<Answer>): (n: nat)
    ensures n <= |answers|
  {
    if First(parse, answers) < |answers| then First(parse, answers) + 1 else |answers|
  }

  /** The raw reply and the error of the last of `n` attempts that did not end the call. */
  function LastFailure<T>(parse: Parser<T>, answers: seq<Answer>, n: nat): (Option<string>, Option<string>)
    requires n <= First(parse, answers)
  {
    if n == 0 then (None, None)
    else
      var text := answers[n - 1].completion.text;
      (Some(text), Some(parse(text).error))
  }

  function Outcome<T>(parse: Parser<T>, answers: seq<Answer>, attempts: int): Result<T, CallError> {
    var k := First(parse, answers);
    if k < |answers| then
      match answers[k]
      case Raised => Failure(BackendError)
      case Answered(c) => Success(parse(c.text).value)
    else
      var (raw, error) := LastFailure(parse, answers, k);
      Failure(LLMError(attempts, raw, error))
  }

  /** The user prompt of each attempt: the original one, then one built from the previous reply alone. */
  function PromptAt<T>(parse: Parser<T>, user: string, answers: seq<Answer>, i: nat): string
    requires i <= First(parse, answers)
  {
    if i == 0 then user
    else
      var text := answers[i - 1].completion.text;
      RetryPrompt(text, parse(text).error)
  }

  function Prompts<T>(parse: Parser<T>, user: string, answers: seq<Answer>, n: nat): (s: seq<string>)
    requires n <= Made(parse, answers)
    ensures |s| == n
    ensures forall i :: 0 <= i < n ==> s[i] == PromptAt(parse, user, answers, i)
  {
    if n == 0 then [] else Prompts(parse, user, answers, n - 1) + [PromptAt(parse, user, answers, n - 1)]
  }

  // ---- Usage ----------------------------------------------------------------------------------

  function Or(a: Option<string>, b: Option<string>): Option<string> {
    if a.None? then b else a
  }

  function Add(t: Usage, u: Option<Usage>): Usage {
    if u.None? then t
    else
      Usage(t.prompt + u.value.prompt, t.completion + u.value.completion, t.total + u.value.total,
            Or(t.model, u.value.model), Or(t.requested, u.value.requested))
  }

  function UsageIn(a: Answer): Option<Usage> {
    if a.Answered? then a.completion.usage else None
  }

  function Sum(answers: seq<Answer>): Usage {
    if answers == [] then NO_USAGE else Add(Sum(answers[..|answers| - 1]), UsageIn(answers[|answers| - 1]))
  }

  predicate Reported(answers: seq<Answer>) {
    exists i :: 0 <= i < |answers| && UsageIn(answers[i]).Some?
  }

  /** What `last_usage` holds after a call that was not cut short by the backend. */
  function UsageOf(answers: seq<Answer>): Option<Usage> {
    if Reported(answers) then Some(Sum(answers)) else None
  }

  lemma {:induction false} SumAppend(answers: seq<Answer>, a: Answer)
    ensures Sum(answers + [a]) == Add(Sum(answers), UsageIn(a))
    ensures Reported(answers + [a]) <==> Reported(answers) || UsageIn(a).Some?
  {
    assert (answers + [a])[..|answers|] == answers;
    if Reported(answers) {
      var i :| 0 <= i < |answers| && UsageIn(answers[i]).Some?;
      assert (answers + [a])[i] == answers[i];
    }
    assert (answers + [a])[|answers|] == a;
  }

  /** Usage adds up over consecutive stretches of attempts, and the model is the first one reported. */
  lemma {:induction false} SumConcat(a: seq<Answer>, b: seq<Answer>)
    ensures var s, x, y := Sum(a + b), Sum(a), Sum(b);
            && s.prompt == x.prompt + y.prompt && s.completion == x.completion + y.completion
            && s.total == x.total + y.total
            && s.model == Or(x.model, y.model) && s.requested == Or(x.requested, y.requested)
  {
    if b == [] {
      assert a + b == a;
    } else {
      var front := b[..|b| - 1];
      assert (a + b)[..|a + b| - 1] == a + front;
      SumConcat(a, front);
    }
  }

  /** What one attempt reports of one kind of tokens. */
  function Reports(a: Answer, tokens: Usage -> int): int {
    match a
    case Answered(Completion(_, Some(usage))) => tokens(usage)
    case _ => 0
  }

  function SumOf(answers: seq<Answer>, tokens: Usage -> int): int {
    if answers == [] then 0
    else SumOf(answers[..|answers| - 1], tokens) + Reports(answers[|answers| - 1], tokens)
  }

  function PromptTokens(u: Usage): int { u.prompt }
  function CompletionTokens(u: Usage): int { u.completion }
  function TotalTokens(u: Usage): int { u.total }

  /** A name some attempt reported, and no attempt before it, or none if none did. */
  predicate FirstNamed(answers: seq<Answer>, name: Usage -> Option<string>, first: Option<string>) {
    if first.None? then forall i :: 0 <= i < |answers| ==> Named(answers[i], name).None?
    else exists i :: 0 <= i < |answers| && Named(answers[i], name) == first &&
                     forall j :: 0 <= j < i ==> Named(answers[j], name).None?
  }

  function Named(a: Answer, name: Usage -> Option<string>): Option<string> {
    match a
    case Answered(Completion(_, Some(usage))) => name(usage)
    case _ => None
  }

  function ModelOf(u: Usage): Option<string> { u.model }
  function RequestedOf(u: Usage): Option<string> { u.requested }

  /** The usage of some attempts, kind by kind the sum of what each of them reports, under the first model named. */
  predicate Totals(u: Usage, answers: seq<Answer>) {
    && u.prompt == SumOf(answers, PromptTokens)
    && u.completion == SumOf(answers, CompletionTokens)
    && u.total == SumOf(answers, TotalTokens)
    && FirstNamed(answers, ModelOf, u.model)
    && FirstNamed(answers, RequestedOf, u.requested)
  }

  lemma {:induction false} SumTotals(answers: seq<Answer>)
    ensures Totals(Sum(answers), answers)
  {
    hide FirstNamed;
    if answers == [] {
      NothingNamed();
    } else {
      var front, a := answers[..|answers| - 1], answers[|answers| - 1];
      SumTotals(front);
      assert answers == front + [a];
      OneMoreNamed(front, a, ModelOf, Sum(front).model);
      OneMoreNamed(front, a, RequestedOf, Sum(front).requested);
    }
  }

  lemma NothingNamed()
    ensures forall name :: FirstNamed([], name, None)
  {
  }

  lemma OneMoreNamed(front: seq<Answer>, a: Answer, name: Usage -> Option<string>, first: Option<string>)
    requires FirstNamed(front, name, first)
    ensures FirstNamed(front + [a], name, Or(first, Named(a, name)))
  {
    var all := front + [a];
    assert forall i :: 0 <= i < |front| ==> all[i] == front[i];
    assert all[|front|] == a;
    if first.Some? {
      var i :| 0 <= i < |front| && Named(front[i], name) == first && forall j :: 0 <= j < i ==> Named(front[j], name).None?;
      assert Named(all[i], name) == first;
    } else if Named(a, name).Some? {
      assert Named(all[|front|], name) == Named(a, name);
    }
  }

  /** Attempts that report no usage add nothing, so nothing is lost by reporting None. */
  lemma {:induction false} SilentSum(answers: seq<Answer>)
    requires !Reported(answers)
    ensures Sum(answers) == NO_USAGE
  {
    if answers != [] {
      var last := |answers| - 1;
      assert forall i :: 0 <= i < last ==> answers[..last][i] == answers[i];
      SilentSum(answers[..last]);
    }
  }

  // ---- Backoff --------------------------------------------------------------------------------

  const BACKOFF_CAP := 30.0

  function Pow2(n: nat): (p: real)
    ensures p >= 1.0
  {
    if n == 0 then 1.0 else 2.0 * Pow2(n - 1)
  }

  function Min(a: real, b: real): real { if a <= b then a else b }

  /** The wait before attempt `k`, counted from 0; the first attempt does not wait. */
  function WaitBefore(delay: real, k: nat): seq<real> {
    if k > 0 && delay > 0.0 then [Min(delay * Pow2(k - 1), BACKOFF_CAP)] else []
  }

  /** The waits of a call that makes `n` attempts. */
  function Waits(delay: real, n: nat): seq<real> {
    if n == 0 then [] else Waits(delay, n - 1) + WaitBefore(delay, n - 1)
  }

  function TotalOf(waits: seq<real>): real {
    if waits == [] then 0.0 else TotalOf(waits[..|waits| - 1]) + waits[|waits| - 1]
  }

  /** The same power, without multiplication. */
  function Doubled(delay: real, n: nat): real {
    if n == 0 then delay else 2.0 * Doubled(delay, n - 1)
  }

  lemma {:induction false} DoubledIsPower(delay: real, n: nat)
    ensures Doubled(delay, n) == delay * Pow2(n)
    ensures delay >= 0.0 ==> Doubled(delay, n) >= delay
  {
    if n > 0 {
      DoubledIsPower(delay, n - 1);
      Twice(delay, Pow2(n - 1));
    }
  }

  lemma Twice(a: real, b: real)
    ensures a * (2.0 * b) == 2.0 * (a * b)
  {
  }

  lemma {:induction false} WaitIsDoubled(delay: real, n: nat)
    requires delay > 0.0 && n > 0
    ensures WaitBefore(delay, n) == [Min(Doubled(delay, n - 1), BACKOFF_CAP)]
  {
    hide Pow2, Doubled, Min;
    DoubledIsPower(delay, n - 1);
    var power := delay * Pow2(n - 1);
    assert WaitBefore(delay, n) == [Min(power, BACKOFF_CAP)];
  }

  lemma {:induction false} TotalOfAppend(waits: seq<real>, x: real)
    ensures TotalOf(waits + [x]) == TotalOf(waits) + x
  {
    assert (waits + [x])[..|waits|] == waits;
  }

  lemma WaitsGrow(delay: real, n: nat)
    requires delay > 0.0 && n > 0
    ensures TotalOf(Waits(delay, n + 1)) == TotalOf(Waits(delay, n)) + Min(Doubled(delay, n - 1), BACKOFF_CAP)
  {
    hide Waits, WaitBefore, TotalOf, Doubled, Min;
    OneMoreWait(delay, n);
    WaitIsDoubled(delay, n);
    TotalOfAppend(Waits(delay, n), Min(Doubled(delay, n - 1), BACKOFF_CAP));
  }

  lemma OneMoreWait(delay: real, k: nat)
    ensures Waits(delay, k + 1) == Waits(delay, k) + WaitBefore(delay, k)
  {
  }

  lemma {:induction false} NoWaits(delay: real)
    ensures TotalOf(Waits(delay, 1)) == 0.0
  {
    assert Waits(delay, 0) == [] && WaitBefore(delay, 0) == [];
    assert Waits(delay, 1) == [];
  }

  lemma {:induction false} DoublingIsBounded(delay: real, n: nat)
    requires delay > 0.0
    ensures 0.0 <= TotalOf(Waits(delay, n + 1)) <= Doubled(delay, n) - delay
    ensures TotalOf(Waits(delay, n + 1)) <= BACKOFF_CAP * (n as real)
    ensures n > 0 && Doubled(delay, n - 1) <= BACKOFF_CAP ==> TotalOf(Waits(delay, n + 1)) == Doubled(delay, n) - delay
    ensures Doubled(delay, n) >= delay
  {
    hide Waits, TotalOf;
    if n == 0 {
      NoWaits(delay);
    } else {
      DoublingIsBounded(delay, n - 1);
      WaitsGrow(delay, n);
      assert n as real == (n - 1) as real + 1.0;
      if n > 1 { assert Doubled(delay, n - 1) == 2.0 * Doubled(delay, n - 2); }
    }
  }

  /** Over n retries the waits add up to at most d(2^n - 1) and at most 30n, and to exactly the former while the
      cap is not reached. */
  lemma BackoffIsBounded(delay: real, n: nat)
    requires delay >= 0.0
    ensures 0.0 <= TotalOf(Waits(delay, n + 1)) <= delay * (Pow2(n) - 1.0)
    ensures TotalOf(Waits(delay, n + 1)) <= 30.0 * (n as real)
    ensures n > 0 && delay * Pow2(n - 1) <= 30.0 ==> TotalOf(Waits(delay, n + 1)) == delay * (Pow2(n) - 1.0)
  {
    LessOne(delay, Pow2(n));
    DoubledIsPower(delay, n);
    if n > 0 { DoubledIsPower(delay, n - 1); }
    if delay > 0.0 {
      DoublingIsBounded(delay, n);
    } else {
      NeverWaits(n + 1);
    }
  }

  /** Each wait is twice the one before, and 30 seconds from there on. */
  lemma {:induction false} EachWait(delay: real, n: nat)
    requires delay > 0.0
    ensures |Waits(delay, n + 1)| == n
    ensures forall i :: 0 <= i < n ==>
      Waits(delay, n + 1)[i] == if delay * Pow2(i) <= 30.0 then delay * Pow2(i) else 30.0
  {
    hide Pow2;
    assert Waits(delay, 0) == [] && WaitBefore(delay, 0) == [];
    if n > 0 {
      EachWait(delay, n - 1);
      var w := Waits(delay, n);
      hide Waits;
      OneMoreWait(delay, n);
      var last := delay * Pow2(n - 1);
      assert WaitBefore(delay, n) == [Min(last, BACKOFF_CAP)];
      forall i | 0 <= i < n
        ensures Waits(delay, n + 1)[i] == if delay * Pow2(i) <= 30.0 then delay * Pow2(i) else 30.0
      {
        if i < n - 1 { assert Waits(delay, n + 1)[i] == w[i]; }
      }
    }
  }

  lemma {:induction false} NeverWaits(n: nat)
    ensures Waits(0.0, n) == []
  {
    if n > 0 {
      NeverWaits(n - 1);
    }
  }

  lemma LessOne(a: real, b: real)
    ensures a * (b - 1.0) == a * b - a
  {
  }

  // ---- The classes ----------------------------------------------------------------------------

  /** A language model: whatever it answers, one call after the other, and the prompts it has been sent. */
  class Backend {
    const oracle: nat -> Answer
    var calls: nat
    ghost var prompts: seq<string>

    constructor (oracle: nat -> Answer)
      ensures this.oracle == oracle && calls == 0 && prompts == []
    {
      this.oracle := oracle;
      calls := 0;
      prompts := [];
    }

    /** The next answers, as many as asked for. */
    function Next(n: nat): (s: seq<Answer>)
      reads this
      ensures |s| == n
      ensures forall k :: 0 <= k < n ==> s[k] == oracle(calls + k)
    {
      var from := calls;
      seq(n, k requires 0 <= k => oracle(from + k))
    }

    method Complete(user: string) returns (a: Answer)
      modifies this
      ensures a == oracle(old(calls))
      ensures calls == old(calls) + 1 && prompts == old(prompts) + [user]
    {
      a := oracle(calls);
      calls := calls + 1;
      prompts := prompts + [user];
    }
  }

  /** The running total that `_accumulate_usage` updates in place. */
  class UsageTotal {
    var prompt: int
    var completion: int
    var total: int
    var model: Option<string>
    var requested: Option<string>

    constructor ()
      ensures Value() == NO_USAGE
    {
      prompt, completion, total, model, requested := 0, 0, 0, None, None;
    }

    function Value(): Usage
      reads this
    {
      Usage(prompt, completion, total, model, requested)
    }

    method Accumulate(usage: Option<Usage>)
      modifies this
      ensures Value() == Add(old(Value()), usage)
      ensures usage.None? ==> unchanged(this)
      ensures usage.Some? ==>
        && prompt == old(prompt) + usage.value.prompt
        && completion == old(completion) + usage.value.completion
        && total == old(total) + usage.value.total
        && model == (if old(model).Some? then old(model) else usage.value.model)
        && requested == (if old(requested).Some? then old(requested) else usage.value.requested)
    {
      if usage.Some? {
        prompt := prompt + usage.value.prompt;
        completion := completion + usage.value.completion;
        total := total + usage.value.total;
        if model.None? {
          model := usage.value.model;
        }
        if requested.None? {
          requested := usage.value.requested;
        }
      }
    }
  }

  function Attempts(maxRetries: int): nat {
    if 1 + maxRetries < 0 then 0 else 1 + maxRetries
  }

  lemma AttemptAdds<T>(parse: Parser<T>, user: string, answers: seq<Answer>, i: nat)
    requires i < |answers| && i < Made(parse, answers)
    ensures Prompts(parse, user, answers, i + 1) == Prompts(parse, user, answers, i) + [PromptAt(parse, user, answers, i)]
    ensures Sum(answers[..i + 1]) == Add(Sum(answers[..i]), UsageIn(answers[i]))
    ensures Reported(answers[..i + 1]) <==> Reported(answers[..i]) || UsageIn(answers[i]).Some?
  {
    hide Sum, Reported;
    assert answers[..i + 1] == answers[..i] + [answers[i]];
    SumAppend(answers[..i], answers[i]);
  }

  lemma {:induction false} AttemptDecides<T>(parse: Parser<T>, user: string, answers: seq<Answer>, i: nat,
                                            attempts: int)
    requires i < |answers| && i <= First(parse, answers)
    ensures i < Made(parse, answers)
    ensures Ends(parse, answers[i]) ==> First(parse, answers) == i && Made(parse, answers) == i + 1
    ensures answers[i].Raised? ==> Outcome(parse, answers, attempts) == Failure(BackendError)
    ensures answers[i].Answered? && Ends(parse, answers[i]) ==>
      Outcome(parse, answers, attempts) == Success(parse(answers[i].completion.text).value)
    ensures !Ends(parse, answers[i]) ==> i < First(parse, answers)
  {
  }

  /** What one more attempt adds. */
  lemma OneAttempt<T>(parse: Parser<T>, user: string, answers: seq<Answer>, i: nat, attempts: int)
    requires i < |answers| && i <= First(parse, answers)
    ensures i < Made(parse, answers)
    ensures Ends(parse, answers[i]) ==> First(parse, answers) == i && Made(parse, answers) == i + 1
    ensures answers[i].Raised? ==> Outcome(parse, answers, attempts) == Failure(BackendError)
    ensures answers[i].Answered? && Ends(parse, answers[i]) ==>
      Outcome(parse, answers, attempts) == Success(parse(answers[i].completion.text).value)
    ensures !Ends(parse, answers[i]) ==> i < First(parse, answers)
    ensures !Ends(parse, answers[i]) && i + 1 < |answers| ==>
      PromptAt(parse, user, answers, i + 1) ==
      RetryPrompt(answers[i].completion.text, parse(answers[i].completion.text).error)
    ensures !Ends(parse, answers[i]) ==>
      LastFailure(parse, answers, i + 1) ==
      (Some(answers[i].completion.text), Some(parse(answers[i].completion.text).error))
    ensures Prompts(parse, user, answers, i + 1) == Prompts(parse, user, answers, i) + [PromptAt(parse, user, answers, i)]
    ensures Sum(answers[..i + 1]) == Add(Sum(answers[..i]), UsageIn(answers[i]))
    ensures Reported(answers[..i + 1]) <==> Reported(answers[..i]) || UsageIn(answers[i]).Some?
  {
    hide Sum, Reported, Prompts, First, Made, Outcome;
    AttemptDecides(parse, user, answers, i, attempts);
    AttemptAdds(parse, user, answers, i);
  }

  lemma {:induction false} NoAttempt<T>(parse: Parser<T>, user: string, answers: seq<Answer>)
    ensures PromptAt(parse, user, answers, 0) == user
    ensures LastFailure(parse, answers, 0) == (None, None)
    ensures Prompts(parse, user, answers, 0) == [] && Sum(answers[..0]) == NO_USAGE && !Reported(answers[..0])
  {
  }

  /** All attempts made, none of them good. */
  lemma {:induction false} AllAttempts<T>(parse: Parser<T>, answers: seq<Answer>, attempts: int)
    requires First(parse, answers) == |answers|
    ensures Made(parse, answers) == |answers| && answers[..|answers|] == answers
    ensures var (raw, error) := LastFailure(parse, answers, |answers|);
            Outcome(parse, answers, attempts) == Failure(LLMError(attempts, raw, error))
  {
  }

  class StructuredOutput<!T(0)> {
    const backend: Backend
    const maxRetries: int
    var lastUsage: Option<Usage>

    constructor (backend: Backend, maxRetries: int)
      ensures this.backend == backend && this.maxRetries == maxRetries && lastUsage == None
    {
      this.backend := backend;
      this.maxRetries := maxRetries;
      lastUsage := None;
    }

    /** Returns the first reply that parses, after at most 1 + max_retries calls; every retry is prompted with the
        previous reply and its error only; usage is the sum over the attempts made. An exception of the
        backend passes through and leaves `lastUsage` as it was. */
    method Call(user: string, parse: Parser<T>) returns (r: Result<T, CallError>)
      modifies this, backend
      ensures var answers := old(backend.Next(Attempts(maxRetries)));
              && r == Outcome(parse, answers, 1 + maxRetries)
              && backend.calls == old(backend.calls) + Made(parse, answers)
              && backend.prompts == old(backend.prompts) + Prompts(parse, user, answers, Made(parse, answers))
              && lastUsage == (if r == Failure(BackendError) then old(lastUsage)
                               else UsageOf(answers[..Made(parse, answers)]))
              && (lastUsage.Some? && r != Failure(BackendError) ==>
                    Totals(lastUsage.value, answers[..Made(parse, answers)]))
    {
      hide First, Made, Prompts, PromptAt, Sum, Reported, RetryPrompt, Outcome, LastFailure, Totals;
      ghost var answers := backend.Next(Attempts(maxRetries));
      SumTotals(answers[..Made(parse, answers)]);
      NoAttempt(parse, user, answers);
      var lastRaw: Option<string>, lastError: Option<string> := None, None;
      var currentUser := user;
      var total := new UsageTotal();
      var hadUsage := false;
      var attempt := 0;
      while attempt < 1 + maxRetries
        invariant 0 <= attempt <= |answers| && attempt <= First(parse, answers) && attempt <= Made(parse, answers)
        invariant backend.calls == old(backend.calls) + attempt
        invariant backend.prompts == old(backend.prompts) + Prompts(parse, user, answers, attempt)
        invariant attempt < |answers| ==> currentUser == PromptAt(parse, user, answers, attempt)
        invariant (lastRaw, lastError) == LastFailure(parse, answers, attempt)
        invariant total.Value() == Sum(answers[..attempt])
        invariant hadUsage <==> Reported(answers[..attempt])
        invariant lastUsage == old(lastUsage)
      {
        var answer := backend.Complete(currentUser);
        assert answer == answers[attempt];
        OneAttempt(parse, user, answers, attempt, 1 + maxRetries);
        if answer.Raised? {
          return Failure(BackendError);
        }
        var result := answer.completion;
        lastRaw := Some(result.text);
        if result.usage.Some? {
          hadUsage := true;
        }
        total.Accumulate(result.usage);
        var parsed := parse(result.text);
        if parsed.Success? {
          lastUsage := if hadUsage then Some(total.Value()) else None;
          return Success(parsed.value);
        }
        lastError := Some(parsed.error);
        if attempt < maxRetries {
          currentUser := RetryPrompt(result.text, parsed.error);
        }
        attempt := attempt + 1;
      }
      AllAttempts(parse, answers, 1 + maxRetries);
      lastUsage := if hadUsage then Some(total.Value()) else None;
      r := Failure(LLMError(1 + maxRetries, lastRaw, lastError));
    }
  }

  class AsyncStructuredOutput<!T(0)> {
    const backend: Backend
    const maxRetries: int
    const retryDelay: real
    var lastUsage: Option<Usage>
    ghost var slept: seq<real>

    constructor (backend: Backend, maxRetries: int, retryDelay: real)
      ensures this.backend == backend && this.maxRetries == maxRetries && this.retryDelay == retryDelay
      ensures lastUsage == None && slept == []
    {
      this.backend := backend;
      this.maxRetries := maxRetries;
      this.retryDelay := retryDelay;
      lastUsage := None;
      slept := [];
    }

    /** The wait before an attempt. */
    method BackOff(attempt: nat)
      modifies this`slept
      ensures slept == old(slept) + WaitBefore(retryDelay, attempt)
    {
      if attempt > 0 && retryDelay > 0.0 {
        var delay := Min(retryDelay * Pow2(attempt - 1), BACKOFF_CAP);
        slept := slept + [delay];
      }
    }

    /** One attempt: the wait, if any, then the model. */
    method Ask(attempt: nat, user: string) returns (a: Answer)
      modifies this`slept, backend
      ensures slept == old(slept) + WaitBefore(retryDelay, attempt)
      ensures a == backend.oracle(old(backend.calls))
      ensures backend.calls == old(backend.calls) + 1 && backend.prompts == old(backend.prompts) + [user]
    {
      BackOff(attempt);
      a := backend.Complete(user);
    }

    /** As the synchronous form, with a wait before each retry. */
    method Call(user: string, parse: Parser<T>) returns (r: Result<T, CallError>)
      modifies this, backend
      ensures var answers := old(backend.Next(Attempts(maxRetries)));
              && r == Outcome(parse, answers, 1 + maxRetries)
              && backend.calls == old(backend.calls) + Made(parse, answers)
              && backend.prompts == old(backend.prompts) + Prompts(parse, user, answers, Made(parse, answers))
              && lastUsage == (if r == Failure(BackendError) then old(lastUsage)
                               else UsageOf(answers[..Made(parse, answers)]))
              && (lastUsage.Some? && r != Failure(BackendError) ==>
                    Totals(lastUsage.value, answers[..Made(parse, answers)]))
              && slept == old(slept) + Waits(retryDelay, Made(parse, answers))
    {
      hide First, Made, Prompts, PromptAt, Sum, Reported, RetryPrompt, Outcome, LastFailure, Totals, WaitBefore;
      ghost var answers := backend.Next(Attempts(maxRetries));
      SumTotals(answers[..Made(parse, answers)]);
      NoAttempt(parse, user, answers);
      assert Waits(retryDelay, 0) == [];
      hide Waits;
      var lastRaw: Option<string>, lastError: Option<string> := None, None;
      var currentUser := user;
      var total := new UsageTotal();
      var hadUsage := false;
      var attempt := 0;
      while attempt < 1 + maxRetries
        invariant 0 <= attempt <= |answers| && attempt <= First(parse, answers) && attempt <= Made(parse, answers)
        invariant backend.calls == old(backend.calls) + attempt
        invariant backend.prompts == old(backend.prompts) + Prompts(parse, user, answers, attempt)
        invariant attempt < |answers| ==> currentUser == PromptAt(parse, user, answers, attempt)
        invariant (lastRaw, lastError) == LastFailure(parse, answers, attempt)
        invariant total.Value() == Sum(answers[..attempt])
        invariant hadUsage <==> Reported(answers[..attempt])
        invariant lastUsage == old(lastUsage)
        invariant slept == old(slept) + Waits(retryDelay, attempt)
      {
        OneMoreWait(retryDelay, attempt);
        var answer := Ask(attempt, currentUser);
        assert slept == old(slept) + Waits(retryDelay, attempt + 1);
        assert answer == answers[attempt];
        OneAttempt(parse, user, answers, attempt, 1 + maxRetries);
        if answer.Raised? {
          return Failure(BackendError);
        }
        var result := answer.completion;
        lastRaw := Some(result.text);
        if result.usage.Some? {
          hadUsage := true;
        }
        total.Accumulate(result.usage);
        var parsed := parse(result.text);
        if parsed.Success? {
          lastUsage := if hadUsage then Some(total.Value()) else None;
          return Success(parsed.value);
        }
        lastError := Some(parsed.error);
        if attempt < maxRetries {
          currentUser := RetryPrompt(result.text, parsed.error);
        }
        attempt := attempt + 1;
      }
      AllAttempts(parse, answers, 1 + maxRetries);
      lastUsage := if hadUsage then Some(total.Value()) else None;
      r := Failure(LLMError(1 + maxRetries, lastRaw, lastError));
    }
  }

  // ---- What callers rely on -------------------------------------------------------------------

  predicate Parses<T>(parse: Parser<T>, a: Answer) {
    a.Answered? && parse(a.completion.text).Success?
  }

  /** The first reply that parses, with no exception of the backend before it. */
  predicate FirstGood<T>(parse: Parser<T>, answers: seq<Answer>, k: int) {
    && 0 <= k < |answers| && Parses(parse, answers[k])
    && forall j :: 0 <= j < k ==> answers[j].Answered? && !Parses(parse, answers[j])
  }

  /** A call succeeds exactly when one of the allowed attempts parses before the backend raises, and then returns
      the first such reply after that many calls. */
  lemma SucceedsExactlyWhen<T>(parse: Parser<T>, answers: seq<Answer>, attempts: int)
    ensures Outcome(parse, answers, attempts).Success? <==> exists k :: FirstGood(parse, answers, k)
    ensures forall k :: FirstGood(parse, answers, k) ==>
      Outcome(parse, answers, attempts) == Success(parse(answers[k].completion.text).value) &&
      Made(parse, answers) == k + 1
  {
    var first := First(parse, answers);
    forall k | FirstGood(parse, answers, k) ensures first == k {
      assert Ends(parse, answers[k]);
    }
    if Outcome(parse, answers, attempts).Success? {
      assert FirstGood(parse, answers, first);
    }
  }

  /** A call fails exactly in two ways. The backend raises before a reply parses; or every allowed attempt is made
      and none parses, and then the error holds the text of the last reply and what its parser said, or nothing if
      no attempt was allowed. */
  lemma FailsExactlyWhen<T>(parse: Parser<T>, answers: seq<Answer>, attempts: int)
    ensures Outcome(parse, answers, attempts) == Failure(BackendError) <==>
            exists k :: 0 <= k < |answers| && answers[k].Raised? && AllBad(parse, answers[..k])
    ensures Outcome(parse, answers, attempts).Failure? && Outcome(parse, answers, attempts).error.LLMError? <==>
            AllBad(parse, answers)
    ensures AllBad(parse, answers) && answers == [] ==>
      Outcome(parse, answers, attempts) == Failure(LLMError(attempts, None, None))
    ensures AllBad(parse, answers) && answers != [] ==>
      var text := answers[|answers| - 1].completion.text;
      Outcome(parse, answers, attempts) == Failure(LLMError(attempts, Some(text), Some(parse(text).error)))
  {
    var k := First(parse, answers);
    assert AllBad(parse, answers[..k]);
    forall m | 0 <= m < |answers| && answers[m].Raised? && AllBad(parse, answers[..m]) ensures m == k {
      assert Ends(parse, answers[m]);
      assert forall j :: 0 <= j < m ==> answers[j] == answers[..m][j];
    }
    if k < |answers| { assert Ends(parse, answers[k]); }
  }

  /** Replies that came and did not parse. */
  predicate AllBad<T>(parse: Parser<T>, answers: seq<Answer>) {
    forall i :: 0 <= i < |answers| ==> answers[i].Answered? && parse(answers[i].completion.text).Failure?
  }

  /** Retries drop the original prompt: after the first attempt, the prompt is built from the last reply and its
      error only. */
  lemma {:induction false} RetriesForgetTheUser<T>(parse: Parser<T>, user: string, answers: seq<Answer>, i: nat)
    requires i < Made(parse, answers)
    ensures var sent := Prompts(parse, user, answers, Made(parse, answers))[i];
            if i == 0 then sent == user
            else
              var text := answers[i - 1].completion.text;
              sent == "Your previous response:\n" + text + "\n\n" +
                      "Validation errors:\n" + parse(text).error + "\n\n" +
                      "Fix the errors and return valid JSON matching the same schema."
  {
  }

  /** A longer budget never changes what a shorter one returned, nor what it cost. */
  lemma MoreRetriesKeepSuccess<T>(parse: Parser<T>, answers: seq<Answer>, more: seq<Answer>, attempts: int, later: int)
    requires Outcome(parse, answers, attempts).Success?
    ensures Outcome(parse, answers + more, later) == Outcome(parse, answers, attempts)
    ensures Made(parse, answers + more) == Made(parse, answers)
    ensures UsageOf((answers + more)[..Made(parse, answers + more)]) == UsageOf(answers[..Made(parse, answers)])
  {
    FirstPrefix(parse, answers, more);
    var k := First(parse, answers);
    assert (answers + more)[..k + 1] == answers[..k + 1];
  }

  lemma {:induction false} FirstPrefix<T>(parse: Parser<T>, answers: seq<Answer>, more: seq<Answer>)
    requires First(parse, answers) < |answers|
    ensures First(parse, answers + more) == First(parse, answers)
  {
    if !Ends(parse, answers[0]) {
      assert (answers + more)[1..] == answers[1..] + more;
      FirstPrefix(parse, answers[1..], more);
    }
  }
}
