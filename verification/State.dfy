/** The record threaded through the planning pipeline (`PlanningState`) and the values
    stored in it. */
module State {
  import opened Wrappers
  import opened Json

  /** The names of the three tools the planner binds. */
  const FLIGHTS := "search_flights"
  const HOTELS := "search_hotels"
  const ATTRACTIONS := "search_attractions"

  predicate KnownTool(name: string) {
    name == FLIGHTS || name == HOTELS || name == ATTRACTIONS
  }

  /** A decoded step's argument map; a `None` value is Python's `None`. */
  type Args = map<string, Option<string>>

  /** What running an adapter produced: the decoded value, or the text of the exception
      it raised. */
  datatype Outcome = Returned(value: Json) | Raised(message: string)

  /** One `execution_history` entry: `{"tool", "params", "result"}` when the adapter
      returned and `{"tool", "params", "error"}` when it raised. */
  datatype ExecRecord = ExecRecord(tool: string, params: Args, outcome: Outcome)

  /** The record holds a `result` rather than an `error`. */
  predicate Succeeded(rec: ExecRecord) {
    rec.outcome.Returned?
  }

  /** The decoded value a successful record holds. */
  function ResultOf(rec: ExecRecord): Json
    requires Succeeded(rec)
  {
    rec.outcome.value
  }

  /** One `search_results` bucket. `None` is the key Python stores for a record with no
      usable date or destination. */
  datatype Group = Group(key: Option<string>, records: seq<ExecRecord>)

  /** One `cost_analysis` row: the date key, the hotel step's `checkout_date` argument,
      the cheapest flight and hotel offers with their prices, and the total. */
  datatype CostEntry = CostEntry(
    dateKey: string,
    checkout: Option<string>,
    flight: Json,
    hotel: Json,
    flightPrice: int,
    nightlyRate: int,
    totalCost: int)

  /** The three shapes of `final_itinerary` before narration: still empty, the
      `{"error": ...}` of a search with no viable option, or the selected option. */
  datatype Base = Blank | NoViableOption(error: string) | BestOption(entry: CostEntry)

  /** `final_itinerary`: its base shape plus the `creative_plan` and `error_message`
      keys the narrative step may add. */
  datatype Itinerary = Itinerary(base: Base, creativePlan: Option<Json>, errorMessage: Option<string>)

  /** Python's `"error" in final_itinerary`. */
  predicate HasError(it: Itinerary) {
    it.base.NoViableOption?
  }

  /** The dict `find_best_option` builds for one cost entry, before any narration. */
  function Row(e: CostEntry): Itinerary {
    Itinerary(BestOption(e), None, None)
  }

  /** `PlanningState`; `constraints` is reduced to the one key the pipeline writes,
      `cost_analysis`, a list of row dicts. `sharedRow` is the row that
      `final_itinerary` is the very same dict as, when it is one of them: the state
      model assigns fields without copying, so a write to either is a write to both. */
  datatype PlanningState = PlanningState(
    userQuery: string,
    costAnalysis: Option<seq<Itinerary>>,
    currentPlan: seq<string>,
    executionHistory: seq<ExecRecord>,
    globalScore: Option<int>,
    searchResults: seq<Group>,
    finalItinerary: Itinerary,
    sharedRow: Option<nat>)

  /** The shared row exists and reads as `final_itinerary`. */
  predicate Shared(state: PlanningState) {
    state.sharedRow.Some? ==>
      && state.costAnalysis.Some?
      && state.sharedRow.value < |state.costAnalysis.value|
      && state.costAnalysis.value[state.sharedRow.value] == state.finalItinerary
  }

  /** A write of `it` into `final_itinerary`, seen also through the row it shares. */
  function SetItinerary(state: PlanningState, it: Itinerary): (r: PlanningState)
    ensures r.finalItinerary == it
    ensures r.(finalItinerary := state.finalItinerary, costAnalysis := state.costAnalysis) == state
    ensures Shared(state) ==> Shared(r)
    ensures state.sharedRow.None? ==> r.costAnalysis == state.costAnalysis
    ensures state.costAnalysis.Some? ==>
      && r.costAnalysis.Some? && |r.costAnalysis.value| == |state.costAnalysis.value|
      && forall i :: 0 <= i < |state.costAnalysis.value| && state.sharedRow != Some(i) ==>
           r.costAnalysis.value[i] == state.costAnalysis.value[i]
    ensures state.costAnalysis.None? ==> r.costAnalysis.None?
  {
    match (state.sharedRow, state.costAnalysis)
    case (Some(k), Some(rows)) =>
      if k < |rows| then state.(finalItinerary := it, costAnalysis := Some(rows[k := it]))
      else state.(finalItinerary := it)
    case _ => state.(finalItinerary := it)
  }

  /** `PlanningState(user_query=query)` with every other field at its default. */
  function InitialState(query: string): PlanningState {
    PlanningState(query, None, [], [], None, [], Itinerary(Blank, None, None), None)
  }
}
