/** `PlannerAgent.optimize_itinerary` around its language-model call: the guard on an earlier
    error, the attraction highlights handed to the language model, the brace extraction of its
    reply and the merge of the decoded plan into the itinerary. */
module Narrative {
  import opened Wrappers
  import opened Text
  import opened Json
  import opened State
  import opened Executor
  import opened Selector

  /** The bucket the highlights are read from. */
  const TOKYO := "東京"
  const ANIME := "動漫"
  const FOOD := "美食"
  /** At most this many highlights per interest. */
  const HIGHLIGHTS := 5

  const NO_JSON_BLOCK := "LLM 創意規劃失敗"
  const UNPARSABLE_PLAN := "無法解析 LLM 創意行程"
  const NOT_A_SPOT := "AttributeError: 'str' object has no attribute 'get'"
  const NOT_ITERABLE := "TypeError: object is not iterable"

  /** One highlight line, `f"{spot.get('title')}: {spot.get('snippet')}"`, kept as the
      two values it is formatted from. */
  datatype SpotLine = SpotLine(title: Json, snippet: Json)

  /** The object serialised into the language model's prompt. */
  datatype NarrativeInput = NarrativeInput(
    userQuery: string,
    bestOption: Itinerary,
    costAnalysis: seq<Itinerary>,
    animeSpots: seq<SpotLine>,
    foodSpots: seq<SpotLine>)

  /** `search_results.get("東京", [])`. */
  function BucketRecords(groups: seq<Group>, key: string): (r: seq<ExecRecord>)
    ensures (forall i :: 0 <= i < |groups| ==> groups[i].key != Some(key)) ==> r == []
    ensures forall i :: (0 <= i < |groups| && groups[i].key == Some(key)
      && (forall j :: 0 <= j < i ==> groups[j].key != Some(key))) ==> r == groups[i].records
  {
    if |groups| == 0 then []
    else if groups[0].key == Some(key) then groups[0].records
    else
      var r := BucketRecords(groups[1..], key);
      BucketPastFirst(groups, key, r);
      r
  }

  /** The bucket of `key` in the groups after a first group with another key is its
      bucket in all of them. */
  lemma BucketPastFirst(groups: seq<Group>, key: string, r: seq<ExecRecord>)
    requires |groups| > 0 && groups[0].key != Some(key)
    requires (forall i :: 0 <= i < |groups| - 1 ==> groups[1..][i].key != Some(key)) ==> r == []
    requires forall i :: (0 <= i < |groups| - 1 && groups[1..][i].key == Some(key)
      && (forall j :: 0 <= j < i ==> groups[1..][j].key != Some(key))) ==> r == groups[1..][i].records
    ensures (forall i :: 0 <= i < |groups| ==> groups[i].key != Some(key)) ==> r == []
    ensures forall i :: (0 <= i < |groups| && groups[i].key == Some(key)
      && (forall j :: 0 <= j < i ==> groups[j].key != Some(key))) ==> r == groups[i].records
  {
    if forall i :: 0 <= i < |groups| ==> groups[i].key != Some(key) {
      forall i | 0 <= i < |groups| - 1
        ensures groups[1..][i].key != Some(key)
      {
        assert groups[1..][i] == groups[i + 1];
      }
    }
    forall i | 0 <= i < |groups| && groups[i].key == Some(key)
        && (forall j :: 0 <= j < i ==> groups[j].key != Some(key))
      ensures r == groups[i].records
    {
      assert i > 0 && groups[1..][i - 1] == groups[i];
      forall j | 0 <= j < i - 1
        ensures groups[1..][j].key != Some(key)
      {
        assert groups[1..][j] == groups[j + 1];
      }
    }
  }

  /** The record is a successful attraction search for `interest`. */
  predicate AttractionFor(rec: ExecRecord, interest: string) {
    rec.tool == ATTRACTIONS && Succeeded(rec)
    && "interest" in rec.params && rec.params["interest"] == Some(interest)
  }

  // ---------------------------------------------------------------- highlights

  /** `spot.get('title')` and `spot.get('snippet')` on an object. */
  function LineOf(spot: Json): SpotLine
    requires spot.JObj?
  {
    SpotLine(GetOrNull(spot, "title"), GetOrNull(spot, "snippet"))
  }

  /** The values of the spot list the attraction results contribute, keeping only
      lists of results and, within them, only objects. */
  function Spots(records: seq<ExecRecord>, interest: string): (r: seq<Json>)
    ensures forall i :: 0 <= i < |r| ==> r[i].JObj?
    decreases |records|
  {
    if |records| == 0 then []
    else
      var rest := Spots(records[1..], interest);
      var rec := records[0];
      if AttractionFor(rec, interest) && ResultOf(rec).JArr? then
        ObjectsIn(ResultOf(rec).items) + rest
      else rest
  }

  /** The objects of a list, in order. */
  function ObjectsIn(items: seq<Json>): (r: seq<Json>)
    ensures |r| <= |items|
    ensures forall i :: 0 <= i < |r| ==> r[i].JObj? && r[i] in items
    ensures forall i :: 0 <= i < |items| && items[i].JObj? ==> items[i] in r
    decreases |items|
  {
    if |items| == 0 then []
    else
      var rest := ObjectsIn(items[1..]);
      assert forall i :: 1 <= i < |items| ==> items[i] == items[1..][i - 1];
      if items[0].JObj? then [items[0]] + rest else rest
  }

  /** The spots of a log are collected record by record: those of its first part, then
      those of the rest. */
  lemma {:induction false} SpotsConcat(a: seq<ExecRecord>, b: seq<ExecRecord>, interest: string)
    ensures Spots(a + b, interest) == Spots(a, interest) + Spots(b, interest)
    decreases |a|
  {
    if |a| > 0 {
      assert (a + b)[0] == a[0] && (a + b)[1..] == a[1..] + b;
      SpotsConcat(a[1..], b, interest);
    } else {
      assert a + b == b;
    }
  }

  /** One record contributes the objects of its result list when it is a successful
      attraction search for the interest, and nothing otherwise. */
  lemma SpotsOne(rec: ExecRecord, interest: string)
    ensures Spots([rec], interest) ==
      if AttractionFor(rec, interest) && ResultOf(rec).JArr? then ObjectsIn(ResultOf(rec).items) else []
  {
    assert [rec][1..] == [];
  }

  /** The objects of a list are kept in order: those of its first part, then those of
      the rest. */
  lemma {:induction false} ObjectsInConcat(a: seq<Json>, b: seq<Json>)
    ensures ObjectsIn(a + b) == ObjectsIn(a) + ObjectsIn(b)
    decreases |a|
  {
    if |a| > 0 {
      assert (a + b)[0] == a[0] && (a + b)[1..] == a[1..] + b;
      ObjectsInConcat(a[1..], b);
    } else {
      assert a + b == b;
    }
  }

  /** The highlight lines: the first five spots, formatted. */
  function Highlights(spots: seq<Json>): (r: seq<SpotLine>)
    requires forall i :: 0 <= i < |spots| ==> spots[i].JObj?
    ensures |r| == if |spots| < HIGHLIGHTS then |spots| else HIGHLIGHTS
    ensures forall i :: 0 <= i < |r| ==> r[i] == LineOf(spots[i])
  {
    var n := if |spots| < HIGHLIGHTS then |spots| else HIGHLIGHTS;
    seq(n, i requires 0 <= i < n => LineOf(spots[i]))
  }

  /** The language model's input for a state whose itinerary holds no error. */
  function InputOf(state: PlanningState): (r: NarrativeInput)
    ensures |r.animeSpots| <= HIGHLIGHTS && |r.foodSpots| <= HIGHLIGHTS
    ensures r.userQuery == state.userQuery && r.bestOption == state.finalItinerary
    ensures r.costAnalysis == state.costAnalysis.GetOr([])
    ensures r.animeSpots == Highlights(Spots(BucketRecords(state.searchResults, TOKYO), ANIME))
    ensures r.foodSpots == Highlights(Spots(BucketRecords(state.searchResults, TOKYO), FOOD))
  {
    var records := BucketRecords(state.searchResults, TOKYO);
    NarrativeInput(state.userQuery, state.finalItinerary, state.costAnalysis.GetOr([]),
      Highlights(Spots(records, ANIME)), Highlights(Spots(records, FOOD)))
  }

  // ---------------------------------------------------------------- the reply

  /** `re.search(r'\{.*\}', s, re.DOTALL).group(0)`: from the first `{` to the last `}`
      after it; `None` when no `}` follows the first `{`. */
  function ExtractBraces(s: string): (r: Option<string>)
    ensures r.Some? ==> |r.value| >= 2 && r.value[0] == '{' && r.value[|r.value| - 1] == '}'
    ensures r.None? <==> forall i, j :: 0 <= i < j < |s| && s[i] == '{' ==> s[j] != '}'
    ensures r.Some? ==> exists i :: (OccursAt(r.value, s, i)
      && (forall k :: 0 <= k < i ==> s[k] != '{')
      && (forall k :: i + |r.value| <= k < |s| ==> s[k] != '}'))
  {
    match IndexOf(s, '{')
    case None => None
    case Some(i) =>
      match LastIndexOf(s, '}')
      case None => None
      case Some(j) =>
        if j <= i then None
        else
          var r := s[i..j + 1];
          assert OccursAt(r, s, i);
          Some(r)
  }

  /** A reply made of a JSON object with chatter around it that holds no `{` before and
      no `}` after yields exactly that object's text. */
  lemma ExtractFromChatter(before: string, body: string, after: string)
    requires forall k :: 0 <= k < |before| ==> before[k] != '{'
    requires forall k :: 0 <= k < |after| ==> after[k] != '}'
    ensures ExtractBraces(before + "{" + body + "}" + after) == Some("{" + body + "}")
  {
    var s := before + "{" + body + "}" + after;
    var j := |before| + 1 + |body|;
    assert s[|before|] == '{';
    assert IndexOf(s, '{') == Some(|before|);
    assert s[j] == '}';
    assert forall k :: j < k < |s| ==> s[k] == after[k - j - 1];
    assert LastIndexOf(s, '}') == Some(j);
    assert s[|before|..j + 1] == "{" + body + "}";
  }

  /** Python's `final_itinerary.get("total_cost")`. */
  function TotalCost(it: Itinerary): Option<int> {
    match it.base
    case BestOption(e) => Some(e.totalCost)
    case _ => None
  }

  /** The merge after the language model replied `response`: on a decodable object block only
      `creative_plan` is set and the global score becomes the itinerary's own total;
      otherwise only `error_message` is set. The key is written into the itinerary dict,
      so the cost-analysis row it shares gains it too, and no other row changes. */
  function MergeReply(state: PlanningState, response: string, parse: string -> Option<Json>)
    : (r: PlanningState)
    ensures r.(finalItinerary := state.finalItinerary, globalScore := state.globalScore,
               costAnalysis := state.costAnalysis) == state
    ensures r.finalItinerary.base == state.finalItinerary.base
    ensures Shared(state) ==> Shared(r)
    ensures state.sharedRow.None? ==> r.costAnalysis == state.costAnalysis
    ensures state.costAnalysis.Some? ==>
      && r.costAnalysis.Some? && |r.costAnalysis.value| == |state.costAnalysis.value|
      && forall i :: 0 <= i < |state.costAnalysis.value| && state.sharedRow != Some(i) ==>
           r.costAnalysis.value[i] == state.costAnalysis.value[i]
    ensures ExtractBraces(response).None? ==>
      && r.finalItinerary == state.finalItinerary.(errorMessage := Some(NO_JSON_BLOCK))
      && r.globalScore == state.globalScore
    ensures ExtractBraces(response).Some? && parse(ExtractBraces(response).value).None? ==>
      && r.finalItinerary == state.finalItinerary.(errorMessage := Some(UNPARSABLE_PLAN))
      && r.globalScore == state.globalScore
    ensures ExtractBraces(response).Some? && parse(ExtractBraces(response).value).Some? ==>
      && r.finalItinerary == state.finalItinerary.(creativePlan := parse(ExtractBraces(response).value))
      && r.globalScore == TotalCost(state.finalItinerary)
  {
    match ExtractBraces(response)
    case None => SetItinerary(state, state.finalItinerary.(errorMessage := Some(NO_JSON_BLOCK)))
    case Some(block) =>
      match parse(block)
      case None => SetItinerary(state, state.finalItinerary.(errorMessage := Some(UNPARSABLE_PLAN)))
      case Some(plan) =>
        SetItinerary(state, state.finalItinerary.(creativePlan := Some(plan)))
          .(globalScore := TotalCost(state.finalItinerary))
  }

  /** `optimize_itinerary` with the language model `narrate`: a state whose itinerary already
      holds an error is returned unchanged; otherwise the reply to the highlights input
      is merged, through the itinerary dict and the cost-analysis row it shares. */
  function OptimizeItinerary(state: PlanningState, narrate: NarrativeInput -> string,
                             parse: string -> Option<Json>): (r: PlanningState)
    ensures HasError(state.finalItinerary) ==> r == state
    ensures !HasError(state.finalItinerary) ==> r == MergeReply(state, narrate(InputOf(state)), parse)
    ensures r.(finalItinerary := state.finalItinerary, globalScore := state.globalScore,
               costAnalysis := state.costAnalysis) == state
    ensures Shared(state) ==> Shared(r)
  {
    if HasError(state.finalItinerary) then state
    else MergeReply(state, narrate(InputOf(state)), parse)
  }

  /** After a selection that found a viable option, the narration's `creative_plan` or
      `error_message` shows in the chosen cost-analysis row as well as in the itinerary,
      while the itinerary keeps the selected entry. */
  lemma NarrationReachesChosenRow(state: PlanningState, narrate: NarrativeInput -> string,
                                  parse: string -> Option<Json>)
    requires CostTable(state.searchResults) != []
    ensures var chosen := FindBestOption(state);
      var done := OptimizeItinerary(chosen, narrate, parse);
      && chosen.sharedRow.Some? && done.costAnalysis.Some?
      && chosen.sharedRow.value < |done.costAnalysis.value|
      && done.costAnalysis.value[chosen.sharedRow.value] == done.finalItinerary
      && done.finalItinerary.base == chosen.finalItinerary.base
  {
    var chosen := FindBestOption(state);
    assert !HasError(chosen.finalItinerary);
  }

  // ---------------------------------------------------------------- as written

  /** The spot list as the loop builds it, extending with every matching result. */
  function SpotsAsWritten(records: seq<ExecRecord>, interest: string): Result<seq<Json>, string>
    decreases |records|
  {
    if |records| == 0 then Success([])
    else
      var rec := records[0];
      match SpotsAsWritten(records[1..], interest)
      case Failure(e) => Failure(e)
      case Success(rest) =>
        if !AttractionFor(rec, interest) then Success(rest)
        else match Elements(ResultOf(rec))
          case None => Failure(NOT_ITERABLE)
          case Some(items) => Success(items + rest)
  }

  /** The highlight lines as written: `spot.get` on any of the first five spots that is
      not an object raises `AttributeError`. */
  function HighlightsAsWritten(spots: seq<Json>): Result<seq<SpotLine>, string> {
    var n := if |spots| < HIGHLIGHTS then |spots| else HIGHLIGHTS;
    if forall i :: 0 <= i < n ==> spots[i].JObj? then
      Success(Highlights(spots[..n]))
    else Failure(NOT_A_SPOT)
  }

  /** `optimize_itinerary` as written: an exception while collecting highlights escapes. */
  function OptimizeItineraryAsWritten(state: PlanningState, narrate: NarrativeInput -> string,
                                      parse: string -> Option<Json>): Result<PlanningState, string>
  {
    if HasError(state.finalItinerary) then Success(state)
    else
      var records := BucketRecords(state.searchResults, TOKYO);
      match SpotsAsWritten(records, ANIME)
      case Failure(e) => Failure(e)
      case Success(anime) =>
        match SpotsAsWritten(records, FOOD)
        case Failure(e) => Failure(e)
        case Success(food) =>
          match HighlightsAsWritten(anime)
          case Failure(e) => Failure(e)
          case Success(animeLines) =>
            match HighlightsAsWritten(food)
            case Failure(e) => Failure(e)
            case Success(foodLines) =>
              var input := NarrativeInput(state.userQuery, state.finalItinerary,
                state.costAnalysis.GetOr([]), animeLines, foodLines);
              Success(MergeReply(state, narrate(input), parse))
  }

  /** Every matching attraction result is a list of objects. */
  predicate WellFormedSpots(records: seq<ExecRecord>, interest: string) {
    forall i :: 0 <= i < |records| && AttractionFor(records[i], interest) ==>
      ResultOf(records[i]).JArr? && AllObjects(ResultOf(records[i]).items)
  }

  lemma {:induction false} SpotsAgree(records: seq<ExecRecord>, interest: string)
    requires WellFormedSpots(records, interest)
    ensures SpotsAsWritten(records, interest) == Success(Spots(records, interest))
    decreases |records|
  {
    if |records| > 0 {
      assert forall i :: 1 <= i < |records| ==> records[1..][i - 1] == records[i];
      SpotsAgree(records[1..], interest);
      var rec := records[0];
      if AttractionFor(rec, interest) {
        ObjectsOfObjects(ResultOf(rec).items);
      }
    }
  }

  lemma {:induction false} ObjectsOfObjects(items: seq<Json>)
    requires AllObjects(items)
    ensures ObjectsIn(items) == items
    decreases |items|
  {
    if |items| > 0 {
      ObjectsOfObjects(items[1..]);
    }
  }

  /** Where every attraction result the highlights read is a list of objects, the code
      as written and the corrected merge agree. */
  lemma AsWrittenAgrees(state: PlanningState, narrate: NarrativeInput -> string,
                        parse: string -> Option<Json>)
    requires WellFormedSpots(BucketRecords(state.searchResults, TOKYO), ANIME)
    requires WellFormedSpots(BucketRecords(state.searchResults, TOKYO), FOOD)
    ensures OptimizeItineraryAsWritten(state, narrate, parse) == Success(OptimizeItinerary(state, narrate, parse))
  {
    var records := BucketRecords(state.searchResults, TOKYO);
    SpotsAgree(records, ANIME);
    SpotsAgree(records, FOOD);
    HighlightsAgree(Spots(records, ANIME));
    HighlightsAgree(Spots(records, FOOD));
  }

  lemma HighlightsAgree(spots: seq<Json>)
    requires AllObjects(spots)
    ensures HighlightsAsWritten(spots) == Success(Highlights(spots))
  {
    var n := if |spots| < HIGHLIGHTS then |spots| else HIGHLIGHTS;
    assert Highlights(spots[..n]) == Highlights(spots);
  }

  /** An attraction search that returned its `{"error": ...}` object, in the `東京`
      bucket: `extend` adds the string `"error"` to the spots and `spot.get` raises. */
  lemma ErrorPayloadCrashes(narrate: NarrativeInput -> string, parse: string -> Option<Json>)
    ensures
      var rec := ExecRecord(ATTRACTIONS, map["destination" := Some(TOKYO), "interest" := Some(ANIME)],
        Returned(JObj([("error", JStr("搜尋景點失敗"))])));
      var state := InitialState("東京 動漫").(searchResults := [Group(Some(TOKYO), [rec])]);
      && OptimizeItineraryAsWritten(state, narrate, parse) == Failure(NOT_A_SPOT)
      && InputOf(state).animeSpots == []
  {
    var rec := ExecRecord(ATTRACTIONS, map["destination" := Some(TOKYO), "interest" := Some(ANIME)],
      Returned(JObj([("error", JStr("搜尋景點失敗"))])));
    var state := InitialState("東京 動漫").(searchResults := [Group(Some(TOKYO), [rec])]);
    assert BucketRecords(state.searchResults, TOKYO) == [rec];
    assert AttractionFor(rec, ANIME);
    assert !AttractionFor(rec, FOOD);
    var ext := Elements(ResultOf(rec)).value;
    assert |ext| == 1 && ext[0] == JStr("error");
    assert [rec][1..] == [];
    assert ext + [] == ext;
    assert SpotsAsWritten([rec], ANIME) == Success(ext);
    assert !ext[0].JObj?;
    assert HighlightsAsWritten(ext) == Failure(NOT_A_SPOT);
    assert !HasError(state.finalItinerary);
    assert SpotsAsWritten(BucketRecords(state.searchResults, TOKYO), ANIME) == Success(ext);
    assert SpotsAsWritten(BucketRecords(state.searchResults, TOKYO), FOOD) == Success([]);
    assert Spots([rec], ANIME) == [];
    assert SpotsAsWritten([rec], FOOD) == Success([]);
  }
}
