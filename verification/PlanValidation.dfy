/** `PlannerAgent.generate_initial_plan` after the language-model call: fence stripping,
    decoding of the `{"plan": [...]}` reply and the per-step date validation filter. */
module PlanValidation {
  import opened Wrappers
  import opened Text
  import opened Json
  import opened Calendar
  import opened Sequences
  import opened State

  /** At index `i` of `step` starts `key="`, then a `YYYY-MM-DD`-shaped text, then `"`:
      one match of the pattern `key="(\d{4}-\d{2}-\d{2})"`. */
  predicate QuotedDateAt(step: string, key: string, i: int) {
    var open := key + "=\"";
    OccursAt(open, step, i) && i + |open| + 11 <= |step|
    && DateShaped(step[i + |open|..i + |open| + 10]) && step[i + |open| + 10] == '"'
  }

  /** The leftmost index at or after `from` where the quoted-date pattern for `key`
      matches (the position `re.search` reports). */
  function QuotedDateIndex(step: string, key: string, from: nat): (r: Option<nat>)
    ensures r.Some? ==> from <= r.value && QuotedDateAt(step, key, r.value)
    ensures r.Some? ==> forall j :: from <= j < r.value ==> !QuotedDateAt(step, key, j)
    ensures r.None? ==> forall j :: from <= j ==> !QuotedDateAt(step, key, j)
    decreases |step| - from
  {
    if from >= |step| then None
    else if QuotedDateAt(step, key, from) then Some(from)
    else QuotedDateIndex(step, key, from + 1)
  }

  /** The captured date text of the match at `i`. */
  function DateTextAt(step: string, key: string, i: nat): string
    requires QuotedDateAt(step, key, i)
  {
    step[i + |key| + 2..i + |key| + 12]
  }

  /** `re.search(key + '="(\d{4}-\d{2}-\d{2})"', step)` found a match and
      `is_valid_date` accepts its captured text. */
  predicate HasValidQuotedDate(step: string, key: string) {
    match QuotedDateIndex(step, key, 0)
    case None => false
    case Some(i) => IsValidDate(DateTextAt(step, key, i))
  }

  /** The flight-step rule: a present `departure_date=` needs a valid quoted date, and
      so does a present `return_date=` unless the step says `return_date="None"`. */
  predicate KeepFlightStep(step: string) {
    && (!Contains(step, "departure_date=") || HasValidQuotedDate(step, "departure_date"))
    && (!Contains(step, "return_date=") || Contains(step, "return_date=\"None\"")
        || HasValidQuotedDate(step, "return_date"))
  }

  /** The hotel-step rule: both `checkin_date=` and `checkout_date=` present, each with
      a valid quoted date. */
  predicate KeepHotelStep(step: string) {
    && Contains(step, "checkin_date=") && Contains(step, "checkout_date=")
    && HasValidQuotedDate(step, "checkin_date") && HasValidQuotedDate(step, "checkout_date")
  }

  /** Whether the validation loop appends `step`: a step mentioning `search_flights` is
      judged as a flight step, else one mentioning `search_hotels` as a hotel step, else
      it survives only if it mentions `search_attractions`. */
  predicate KeepStep(step: string) {
    if Contains(step, FLIGHTS) then KeepFlightStep(step)
    else if Contains(step, HOTELS) then KeepHotelStep(step)
    else Contains(step, ATTRACTIONS)
  }

  /** The validation loop over the language model's plan: an order-preserving filter that keeps
      exactly the steps `KeepStep` accepts, each as many times as it occurs. */
  function ValidatePlan(plan: seq<string>): (r: seq<string>)
    ensures IsSubsequence(r, plan)
    ensures forall i :: 0 <= i < |r| ==> KeepStep(r[i])
    ensures forall s :: multiset(r)[s] == if KeepStep(s) then multiset(plan)[s] else 0
  {
    if |plan| == 0 then []
    else
      var rest := ValidatePlan(plan[1..]);
      assert plan == [plan[0]] + plan[1..];
      if KeepStep(plan[0]) then
        assert ([plan[0]] + rest)[1..] == rest;
        [plan[0]] + rest
      else
        assert |rest| > 0 ==> rest[0] != plan[0];
        rest
  }

  const OPEN_FENCE := "```json\n"
  const CLOSE_FENCE := "\n```"

  /** `re.sub(r'^```json\n|\n```$', '', s)`: an opening fence at the very start, and a
      closing fence at the end or just before a final newline, removed without overlap. */
  function RemoveFences(s: string): string {
    var body := if StartsWith(s, OPEN_FENCE) then s[|OPEN_FENCE|..] else s;
    if EndsWith(body, CLOSE_FENCE) then body[..|body| - |CLOSE_FENCE|]
    else if EndsWith(body, CLOSE_FENCE + "\n") then body[..|body| - |CLOSE_FENCE| - 1] + "\n"
    else body
  }

  /** The text handed to `json.loads`: fences removed, then surrounding whitespace. */
  function StripFences(s: string): string {
    StripSpace(RemoveFences(s))
  }

  /** A reply wrapped in a json code fence decodes as the text inside the fence. */
  lemma FencedReply(body: string)
    ensures StripFences(OPEN_FENCE + body + CLOSE_FENCE) == StripSpace(body)
  {
    var s := OPEN_FENCE + body + CLOSE_FENCE;
    assert StartsWith(s, OPEN_FENCE);
    assert s[|OPEN_FENCE|..] == body + CLOSE_FENCE;
    assert EndsWith(body + CLOSE_FENCE, CLOSE_FENCE);
    assert (body + CLOSE_FENCE)[..|body|] == body;
  }

  /** A reply without fences is only stripped of surrounding whitespace. */
  lemma UnfencedReply(s: string)
    requires !StartsWith(s, OPEN_FENCE)
    requires !EndsWith(s, CLOSE_FENCE) && !EndsWith(s, CLOSE_FENCE + "\n")
    ensures StripFences(s) == StripSpace(s)
  {
  }

  /** The reason recorded when iterating the reply's `plan` raises. */
  const UNSUPPORTED_PLAN := "TypeError: plan is not an iterable of strings"
  /** The reason recorded when the reply decodes to something other than an object,
      whose missing `.get` raises `AttributeError`. */
  const NOT_AN_OBJECT := "AttributeError: decoded reply has no attribute 'get'"

  /** The steps the validation loop iterates over: a list of strings as it is, a string
      character by character, an object by its distinct member names; `None` for the
      values whose iteration or `in` test raises `TypeError`, and for lists holding
      non-strings. */
  function PlanSteps(plan: Json): (r: Option<seq<string>>)
    ensures plan.JStr? ==> r.Some? && |r.value| == |plan.s|
  {
    match plan
    case JStr(s) => Some(seq(|s|, i requires 0 <= i < |s| => [s[i]]))
    case JArr(items) =>
      if forall i :: 0 <= i < |items| ==> items[i].JStr? then
        Some(seq(|items|, i requires 0 <= i < |items| => items[i].s))
      else None
    case JObj(ms) => Some(Distinct(seq(|ms|, i requires 0 <= i < |ms| => ms[i].0)))
    case _ => None
  }

  /** `generate_initial_plan` once the language model replied `response`: the updated state, or
      the exception that escapes it. `parse` is `json.loads`, `None` for a decode error. */
  function GenerateInitialPlan(state: PlanningState, response: string, parse: string -> Option<Json>)
    : (r: Result<PlanningState, string>)
    ensures r.Success? ==> r.value == state.(currentPlan := r.value.currentPlan)
    ensures r.Success? ==> forall i :: 0 <= i < |r.value.currentPlan| ==> KeepStep(r.value.currentPlan[i])
    ensures parse(StripFences(response)).None? ==> r == Success(state.(currentPlan := []))
    ensures r.Failure? ==> parse(StripFences(response)).Some?
    ensures var d := parse(StripFences(response));
      r.Failure? <==> d.Some? && (!d.value.JObj? || PlanSteps(GetOr(d.value, "plan", JArr([]))).None?)
    ensures var d := parse(StripFences(response));
      d.Some? && !d.value.JObj? ==> r == Failure(NOT_AN_OBJECT)
    ensures var d := parse(StripFences(response));
      d.Some? && d.value.JObj? && PlanSteps(GetOr(d.value, "plan", JArr([]))).None? ==> r == Failure(UNSUPPORTED_PLAN)
    ensures var d := parse(StripFences(response));
      d.Some? && d.value.JObj? && PlanSteps(GetOr(d.value, "plan", JArr([]))).Some? ==>
        r == Success(state.(currentPlan := ValidatePlan(PlanSteps(GetOr(d.value, "plan", JArr([]))).value)))
  {
    match parse(StripFences(response))
    case None => Success(state.(currentPlan := []))
    case Some(reply) =>
      if !reply.JObj? then Failure(NOT_AN_OBJECT)
      else match PlanSteps(GetOr(reply, "plan", JArr([])))
        case None => Failure(UNSUPPORTED_PLAN)
        case Some(steps) => Success(state.(currentPlan := ValidatePlan(steps)))
  }

  /** A plan given as one string is iterated character by character, and no single
      character names a tool, so nothing survives. */
  lemma StringPlanIsEmpty(s: string)
    ensures ValidatePlan(PlanSteps(JStr(s)).value) == []
  {
    var steps := PlanSteps(JStr(s)).value;
    var r := ValidatePlan(steps);
    forall i | 0 <= i < |steps|
      ensures !KeepStep(steps[i])
    {
      assert |steps[i]| == 1;
      assert Find(steps[i], FLIGHTS).None?;
      assert Find(steps[i], HOTELS).None?;
      assert Find(steps[i], ATTRACTIONS).None?;
    }
    forall x
      ensures multiset(r)[x] == 0
    {
      if x in steps {
        var i :| 0 <= i < |steps| && steps[i] == x;
        assert !KeepStep(x);
      } else {
        assert multiset(steps)[x] == 0;
      }
    }
    assert multiset(r) == multiset{};
  }
}
