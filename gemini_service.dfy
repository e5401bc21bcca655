/** The ungrounded recommendation request of app/services/geminiService.ts:
    prompt construction, the bounded retry loop with exponential backoff, and
    the mapping of the last failure to the error the caller sees.

    The provider is an oracle: `respond(i)` is how attempt `i` (counting from 0)
    settles. Waiting is not modelled as time; each wait is recorded in
    milliseconds, in order. */
module GeminiService {
  import opened Js
  import opened Types

  datatype Location = Location(lat: real, lng: real)

  const Model := "gemini-3-flash-preview"
  const DefaultMaxRetries := 3
  const EmptyTextPlaceholder := "I couldn't find any specific matches for that craving. Try something more broad!"
  const RateLimitMessage := "The DishDrop Chef is currently overwhelmed by orders (Rate Limit). Please try again in a few moments!"
  const GenericMessage := "Failed to consult the digital chef."
  const MajorCity := "in a major city"
  const NearCoordinates := "Near coordinates "

  /** The text of the prompt template around its two holes. */
  const PromptHead := "I am craving: "
  const PromptMiddle := ". \n  "
  const PromptTail := ". \n  Suggest 3-4 restaurants that would match this craving. \n  Explain briefly why each fits.\n  \n  Note: These are suggestions based on general knowledge, not real-time search results."

  /** One provider request: a model and the prompt, with no tools attached. */
  datatype Request = Request(model: string, contents: string)

  /** How one `generateContent` call settles. */
  datatype Response = Success(text: Option<string>) | Failure(error: Error)

  /** The observable run of the retry loop: how the call settled, how many
      provider calls were made, and the waits between them in milliseconds. */
  datatype Trace = Trace(outcome: Outcome, calls: nat, waits: seq<nat>)

  // ---------------------------------------------------------------------------
  // Prompt construction

  /** `show` is the JavaScript rendering of a number inside a template literal. */
  function LocationContext(location: Option<Location>, show: real -> string): string {
    match location
    case Some(loc) => NearCoordinates + show(loc.lat) + ", " + show(loc.lng)
    case None => MajorCity
  }

  function Prompt(craving: string, location: Option<Location>, show: real -> string): string {
    PromptHead + Quoted(craving) + PromptMiddle + LocationContext(location, show) + PromptTail
  }

  /** The craving stands verbatim between two double quotes right after the head. */
  lemma PromptEmbedsCraving(craving: string, location: Option<Location>, show: real -> string)
    ensures OccursAt(Prompt(craving, location, show), Quoted(craving), |PromptHead|)
    ensures Contains(Prompt(craving, location, show), Quoted(craving))
  {
    var ctx := LocationContext(location, show);
    Regroup(PromptHead, Quoted(craving), PromptMiddle, ctx, PromptTail);
    OccursInConcat(PromptHead, Quoted(craving), PromptMiddle + (ctx + PromptTail));
  }

  /** "Near coordinates lat, lng" appears when a location is given, "in a major city" otherwise. */
  lemma PromptLocationPhrase(craving: string, location: Option<Location>, show: real -> string)
    ensures location.Some? ==>
      Contains(Prompt(craving, location, show),
               NearCoordinates + show(location.value.lat) + ", " + show(location.value.lng))
    ensures location.None? ==> Contains(Prompt(craving, location, show), MajorCity)
  {
    var ctx := LocationContext(location, show);
    Regroup(PromptHead, Quoted(craving), PromptMiddle, ctx, PromptTail);
    OccursInConcat(PromptHead + Quoted(craving) + PromptMiddle, ctx, PromptTail);
  }

  /** For a fixed location, different cravings give different prompts. */
  lemma PromptInjectiveInCraving(c1: string, c2: string, location: Option<Location>, show: real -> string)
    requires Prompt(c1, location, show) == Prompt(c2, location, show)
    ensures c1 == c2
  {
    var p, h, ctx := Prompt(c1, location, show), |PromptHead|, LocationContext(location, show);
    assert |p| == |PromptHead| + (|c1| + 2) + |PromptMiddle| + |ctx| + |PromptTail|;
    assert |p| == |PromptHead| + (|c2| + 2) + |PromptMiddle| + |ctx| + |PromptTail|;
    PromptEmbedsCraving(c1, location, show);
    PromptEmbedsCraving(c2, location, show);
    QuotedInner(p, c1, h);
    QuotedInner(p, c2, h);
  }

  /** For a fixed craving, a prompt with and one without a location never coincide. */
  lemma PromptDistinguishesLocation(craving: string, loc: Location, show: real -> string)
    ensures Prompt(craving, Some(loc), show) != Prompt(craving, None, show)
  {
    var front := PromptHead + Quoted(craving) + PromptMiddle;
    var k := |front|;
    var a, b := Prompt(craving, Some(loc), show), Prompt(craving, None, show);
    Regroup(PromptHead, Quoted(craving), PromptMiddle, LocationContext(Some(loc), show), PromptTail);
    Regroup(PromptHead, Quoted(craving), PromptMiddle, MajorCity, PromptTail);
    assert a[k] == 'N';
    assert b[k] == 'i';
  }

  // ---------------------------------------------------------------------------
  // Failure classification, backoff, terminal mapping

  /** `error.message?.includes("429") || error.message?.includes("500") || error.status === 429` */
  predicate IsRetryable(e: Error) {
    MaybeContains(e.message, "429") || MaybeContains(e.message, "500") || e.status == Some(429)
  }

  /** The status code alone counts only for 429: a bare 500 status is final. */
  lemma RetryableClassification(e: Error)
    ensures e.status == Some(429) ==> IsRetryable(e)
    ensures !MaybeContains(e.message, "429") && !MaybeContains(e.message, "500") ==>
      (IsRetryable(e) <==> e.status == Some(429))
    ensures e.status == Some(500) && !MaybeContains(e.message, "429") && !MaybeContains(e.message, "500") ==>
      !IsRetryable(e)
  {
  }

  /** `Math.pow(2, n)` for a non-negative integer exponent. */
  function Pow2(n: nat): (r: nat)
    ensures r >= 1
  {
    if n == 0 then 1 else 2 * Pow2(n - 1)
  }

  /** The wait before attempt `i + 1`, in milliseconds. */
  function Backoff(i: nat): nat {
    Pow2(i) * 1000
  }

  /** The waits of `k` consecutive retries: 1000, 2000, 4000, ... */
  function Backoffs(k: nat): (w: seq<nat>)
    ensures |w| == k
    ensures forall j :: 0 <= j < k ==> w[j] == Pow2(j) * 1000
  {
    if k == 0 then [] else Backoffs(k - 1) + [Backoff(k - 1)]
  }

  function Sum(s: seq<nat>): nat {
    if s == [] then 0 else Sum(s[..|s| - 1]) + s[|s| - 1]
  }

  /** k retries wait (2^k - 1) seconds in all. */
  lemma {:induction false} BackoffsTotal(k: nat)
    ensures Sum(Backoffs(k)) == (Pow2(k) - 1) * 1000
  {
    if k > 0 {
      BackoffsTotal(k - 1);
      assert Backoffs(k)[..k - 1] == Backoffs(k - 1);
    }
  }

  /** What the loop does once it has stopped: throw the rate-limit error, rethrow
      the last error, or throw the generic error when nothing was caught. */
  function Terminal(last: Option<Error>): (o: Outcome)
    ensures o.Thrown?
  {
    if last.Some? && MaybeContains(last.value.message, "429") then Thrown(NewError(RateLimitMessage))
    else if last.Some? then Thrown(last.value)
    else Thrown(NewError(GenericMessage))
  }

  /** A resolved call: the text or the placeholder, and never any sources. */
  function Resolved(text: Option<string>): Outcome {
    Returned(RecommendationResult(OrElse(text, EmptyTextPlaceholder), []))
  }

  lemma TerminalMapping(last: Option<Error>)
    ensures Terminal(last).Thrown?
    ensures last.Some? && MaybeContains(last.value.message, "429") ==>
      Terminal(last).error == Error(Some(RateLimitMessage), None)
    ensures last.Some? && !MaybeContains(last.value.message, "429") ==> Terminal(last).error == last.value
    ensures last.None? ==> Terminal(last).error == Error(Some(GenericMessage), None)
  {
  }

  /** A status-429 error whose message lacks "429" is retried but finally rethrown as it is. */
  lemma StatusOnlyRateLimitRethrown(e: Error)
    requires e.status == Some(429) && !MaybeContains(e.message, "429")
    ensures IsRetryable(e) && Terminal(Some(e)) == Thrown(e)
  {
  }

  lemma ResolvedText(text: Option<string>)
    ensures Resolved(text).result.sources == []
    ensures Truthy(text) ==> Resolved(text).result.text == text.value
    ensures !Truthy(text) ==> Resolved(text).result.text == EmptyTextPlaceholder
    ensures Resolved(text).result.text != ""
  {
  }

  // ---------------------------------------------------------------------------
  // The retry loop as a specification function

  /** The rest of the loop from iteration `i`, with `last` the error caught so far. */
  function RetryFrom(respond: nat -> Response, maxRetries: int, i: nat, last: Option<Error>): Trace
    decreases maxRetries - i
  {
    if i >= maxRetries then Trace(Terminal(last), 0, [])
    else match respond(i)
      case Success(text) => Trace(Resolved(text), 1, [])
      case Failure(e) =>
        if IsRetryable(e) && i < maxRetries - 1 then
          var rest := RetryFrom(respond, maxRetries, i + 1, Some(e));
          Trace(rest.outcome, rest.calls + 1, [Backoff(i)] + rest.waits)
        else Trace(Terminal(Some(e)), 1, [])
  }

  function Run(respond: nat -> Response, maxRetries: int): Trace {
    RetryFrom(respond, maxRetries, 0, None)
  }

  /** Attempt `j` failed with an error worth retrying. */
  predicate Retried(respond: nat -> Response, j: nat) {
    respond(j).Failure? && IsRetryable(respond(j).error)
  }

  /** The loop stops at attempt `k`: every earlier attempt was retried, and `k`
      is the last allowed attempt or did not fail retryably. */
  predicate StopsAt(respond: nat -> Response, maxRetries: int, k: nat) {
    && k < maxRetries
    && (forall j: nat :: j < k ==> Retried(respond, j))
    && (k == maxRetries - 1 || !Retried(respond, k))
  }

  /** How the attempt the loop stops at turns into the outcome. */
  function Settle(r: Response): Outcome {
    match r
    case Success(text) => Resolved(text)
    case Failure(e) => Terminal(Some(e))
  }

  /** The first attempt at or after `i` where the loop stops. */
  function StopFrom(respond: nat -> Response, maxRetries: int, i: nat): (k: nat)
    requires i < maxRetries
    requires forall j: nat :: j < i ==> Retried(respond, j)
    ensures i <= k && StopsAt(respond, maxRetries, k)
    decreases maxRetries - i
  {
    if i == maxRetries - 1 || !Retried(respond, i) then i
    else StopFrom(respond, maxRetries, i + 1)
  }

  function StopIndex(respond: nat -> Response, maxRetries: int): (k: nat)
    requires maxRetries > 0
    ensures StopsAt(respond, maxRetries, k)
  {
    StopFrom(respond, maxRetries, 0)
  }

  /** Closed form of the loop from any iteration up to its stopping attempt. */
  lemma {:induction false} RetryFromClosedForm(respond: nat -> Response, maxRetries: int, i: nat, last: Option<Error>, k: nat)
    requires i <= k && StopsAt(respond, maxRetries, k)
    ensures var t := RetryFrom(respond, maxRetries, i, last);
      && t.outcome == Settle(respond(k))
      && t.calls == k + 1 - i
      && |t.waits| == k - i
      && forall j :: 0 <= j < k - i ==> t.waits[j] == Backoff(i + j)
    decreases k - i
  {
    if i < k {
      assert Retried(respond, i);
      var rest := RetryFrom(respond, maxRetries, i + 1, Some(respond(i).error));
      RetryFromClosedForm(respond, maxRetries, i + 1, Some(respond(i).error), k);
      assert RetryFrom(respond, maxRetries, i, last) == Trace(rest.outcome, rest.calls + 1, [Backoff(i)] + rest.waits);
    }
  }

  /** The whole run: no call at all when `maxRetries <= 0`, and otherwise
      `k + 1` calls, the first `k` backoffs and the stopping attempt's outcome. */
  lemma RunClosedForm(respond: nat -> Response, maxRetries: int)
    ensures maxRetries <= 0 ==> Run(respond, maxRetries) == Trace(Thrown(Error(Some(GenericMessage), None)), 0, [])
    ensures maxRetries > 0 ==> var k := StopIndex(respond, maxRetries);
      Run(respond, maxRetries) == Trace(Settle(respond(k)), k + 1, Backoffs(k))
  {
    if maxRetries > 0 {
      var k := StopIndex(respond, maxRetries);
      RetryFromClosedForm(respond, maxRetries, 0, None, k);
      assert Run(respond, maxRetries).waits == Backoffs(k);
    }
  }

  /** The provider is called at most `maxRetries` times, and at least once when allowed. */
  lemma CallsBounded(respond: nat -> Response, maxRetries: int)
    ensures maxRetries <= 0 ==> Run(respond, maxRetries).calls == 0
    ensures maxRetries > 0 ==> 1 <= Run(respond, maxRetries).calls <= maxRetries
  {
    RunClosedForm(respond, maxRetries);
  }

  /** Before attempt j + 1 the wait is 2^j * 1000 ms, there is no wait after the
      last attempt, and the waits add up to (2^k - 1) * 1000 ms for k retries. */
  lemma WaitSchedule(respond: nat -> Response, maxRetries: int)
    ensures var t := Run(respond, maxRetries);
      && |t.waits| == (if t.calls == 0 then 0 else t.calls - 1)
      && (forall j :: 0 <= j < |t.waits| ==> t.waits[j] == Pow2(j) * 1000)
      && Sum(t.waits) == (Pow2(|t.waits|) - 1) * 1000
  {
    RunClosedForm(respond, maxRetries);
    BackoffsTotal(|Run(respond, maxRetries).waits|);
  }

  /** The first successful attempt ends the run at once with its text (or the
      placeholder) and no sources. */
  lemma FirstSuccessReturns(respond: nat -> Response, maxRetries: int, k: nat, text: Option<string>)
    requires k < maxRetries
    requires forall j: nat :: j < k ==> Retried(respond, j)
    requires respond(k) == Success(text)
    ensures Run(respond, maxRetries) ==
      Trace(Returned(RecommendationResult(OrElse(text, EmptyTextPlaceholder), [])), k + 1, Backoffs(k))
  {
    assert StopsAt(respond, maxRetries, k);
    RetryFromClosedForm(respond, maxRetries, 0, None, k);
    assert Run(respond, maxRetries).waits == Backoffs(k);
  }

  /** A non-retryable failure ends the run after that attempt without a wait, and
      the caller sees it unchanged: its message cannot say 429, or it would
      have been retryable. */
  lemma NonRetryableStops(respond: nat -> Response, maxRetries: int, k: nat, e: Error)
    requires k < maxRetries
    requires forall j: nat :: j < k ==> Retried(respond, j)
    requires respond(k) == Failure(e) && !IsRetryable(e)
    ensures Run(respond, maxRetries) == Trace(Thrown(e), k + 1, Backoffs(k))
  {
    assert StopsAt(respond, maxRetries, k);
    RetryFromClosedForm(respond, maxRetries, 0, None, k);
    assert Run(respond, maxRetries).waits == Backoffs(k);
  }

  /** When every allowed attempt fails retryably, all `maxRetries` calls are made
      and the last error decides what is thrown. */
  lemma ExhaustedRetries(respond: nat -> Response, maxRetries: int, last: Error)
    requires maxRetries > 0
    requires forall j: nat :: j < maxRetries ==> Retried(respond, j)
    requires respond(maxRetries - 1) == Failure(last)
    ensures Run(respond, maxRetries) ==
      Trace(Terminal(Some(last)), maxRetries, Backoffs(maxRetries - 1))
  {
    assert StopsAt(respond, maxRetries, maxRetries - 1);
    RetryFromClosedForm(respond, maxRetries, 0, None, maxRetries - 1);
    assert Run(respond, maxRetries).waits == Backoffs(maxRetries - 1);
  }

  /** Every attempt rate-limited: exactly `maxRetries` calls and the rate-limit message. */
  lemma AllRateLimited(respond: nat -> Response, maxRetries: int)
    requires maxRetries > 0
    requires forall j: nat :: j < maxRetries ==> respond(j).Failure? && MaybeContains(respond(j).error.message, "429")
    ensures Run(respond, maxRetries).calls == maxRetries
    ensures Run(respond, maxRetries).outcome == Thrown(Error(Some(RateLimitMessage), None))
  {
    forall j: nat | j < maxRetries ensures Retried(respond, j) { }
    ExhaustedRetries(respond, maxRetries, respond(maxRetries - 1).error);
  }

  /** Two 429 failures then a success, with the default of three attempts:
      the success is returned after waits of one and two seconds. */
  lemma TwoRateLimitsThenSuccess(respond: nat -> Response, e0: Error, e1: Error, text: Option<string>)
    requires respond(0) == Failure(e0) && respond(1) == Failure(e1) && respond(2) == Success(text)
    requires e0.status == Some(429) && e1.status == Some(429)
    ensures Run(respond, DefaultMaxRetries) ==
      Trace(Resolved(text), 3, [1000, 2000])
  {
    assert Retried(respond, 0) && Retried(respond, 1);
    FirstSuccessReturns(respond, DefaultMaxRetries, 2, text);
    assert Backoffs(2) == [1000, 2000];
  }

  // ---------------------------------------------------------------------------
  // The loop itself

  /** `findRestaurantsByCraving(craving, location, maxRetries)`: every provider
      call carries the same prompt, and the run is the one `Run` describes. */
  method FindRestaurantsByCraving(
    craving: string, location: Option<Location>, maxRetries: int,
    respond: nat -> Response, show: real -> string)
    returns (outcome: Outcome, requests: seq<Request>, waits: seq<nat>)
    ensures Trace(outcome, |requests|, waits) == Run(respond, maxRetries)
    ensures forall r :: r in requests ==> r == Request(Model, Prompt(craving, location, show))
  {
    var prompt := Prompt(craving, location, show);
    var lastError: Option<Error> := None;
    requests, waits := [], [];
    var i: nat := 0;
    while i < maxRetries
      invariant |requests| == i
      invariant forall r :: r in requests ==> r == Request(Model, prompt)
      invariant var rest := RetryFrom(respond, maxRetries, i, lastError);
        Run(respond, maxRetries) == Trace(rest.outcome, i + rest.calls, waits + rest.waits)
      decreases maxRetries - i
    {
      requests := requests + [Request(Model, prompt)];
      var response := respond(i);
      match response {
        case Success(text) =>
          outcome := Resolved(text);
          return;
        case Failure(error) =>
          lastError := Some(error);
          if IsRetryable(error) && i < maxRetries - 1 {
            waits := waits + [Backoff(i)];
            i := i + 1;
            continue;
          }
          break;
      }
    }
    outcome := Terminal(lastError);
  }
}
