/** The scripted planner, which needs no language model: a fixed two-call plan built from the normalised
    dates, and the loop that runs each call against the tools that could be loaded. */
module ScriptedRun {
  import opened Wrappers
  import opened Json
  import opened Sequences
  import opened State
  import opened QueryDates

  /** A tool as the script's dynamic import left it: its `invoke` (decoding a text reply
      included), or the failure, with the exception's `repr` when one was raised. */
  datatype Tool = Loaded(invoke: Json -> Outcome) | ImportFailed(reason: Option<string>)

  /** One entry of `results`. */
  datatype RunEntry =
    | Data(tool: Json, data: Json)                     // {"tool", "data"}
    | ImportError(tool: Json, error: string)           // {"tool", "error"} for a tool that did not load
    | CallError(tool: Json, error: string, args: Json) // {"tool", "error", "args"}

  const UNSUPPORTED_TOOL := "unsupported tool"
  /** Raised by `call.get` when a call is not an object. */
  const CALL_NOT_AN_OBJECT := "AttributeError: tool call has no attribute 'get'"

  /** The message recorded for a tool that did not load; `deps` names the last package of
      the advice, which differs between the two tools. */
  function ImportMessage(reason: Option<string>, deps: string): (m: string)
    ensures reason.Some? && reason.value != "" ==>
      m == "import failed: " + reason.value + ", ensure dependencies installed (e.g., serpapi, requests, " + deps + ")"
    ensures reason.None? || reason.value == "" ==>
      m == "import failed: " + "unknown" + ", ensure dependencies installed (e.g., serpapi, requests, " + deps + ")"
  {
    var why := if reason.Some? && reason.value != "" then reason.value else "unknown";
    "import failed: " + why + ", ensure dependencies installed (e.g., serpapi, requests, " + deps + ")"
  }

  /** Running one known tool. */
  function RunTool(name: string, tool: Tool, deps: string, args: Json): (e: RunEntry)
    ensures e.tool == JStr(name)
    ensures e.Data? <==> tool.Loaded? && tool.invoke(args).Returned?
    ensures e.Data? ==> e.data == tool.invoke(args).value
    ensures e.ImportError? <==> tool.ImportFailed?
    ensures e.CallError? ==> e.args == args && e.error == tool.invoke(args).message
  {
    match tool
    case ImportFailed(reason) => ImportError(JStr(name), ImportMessage(reason, deps))
    case Loaded(invoke) =>
      match invoke(args)
      case Returned(data) => Data(JStr(name), data)
      case Raised(message) => CallError(JStr(name), message, args)
  }

  /** One iteration of `run_plan`: the call's `name` (absent reads as `None`) picks the
      tool, `arguments` defaults to `{}`, and any other name is unsupported. */
  function RunCall(call: Json, flights: Tool, hotels: Tool): (e: RunEntry)
    requires call.JObj?
    ensures e.tool == GetOrNull(call, "name")
    ensures e.Data? ==> e.tool in {JStr(FLIGHTS), JStr(HOTELS)}
    ensures e.tool == JStr(FLIGHTS) ==> e == RunTool(FLIGHTS, flights, "python-dateutil", GetOr(call, "arguments", JObj([])))
    ensures e.tool == JStr(HOTELS) ==> e == RunTool(HOTELS, hotels, "python-dotenv", GetOr(call, "arguments", JObj([])))
    ensures e.tool != JStr(FLIGHTS) && e.tool != JStr(HOTELS) ==> e == CallError(e.tool, UNSUPPORTED_TOOL, GetOr(call, "arguments", JObj([])))
  {
    var name := GetOrNull(call, "name");
    var args := GetOr(call, "arguments", JObj([]));
    if name == JStr(FLIGHTS) then RunTool(FLIGHTS, flights, "python-dateutil", args)
    else if name == JStr(HOTELS) then RunTool(HOTELS, hotels, "python-dotenv", args)
    else CallError(name, UNSUPPORTED_TOOL, args)
  }

  /** `run_plan(tool_calls)["results"]`: one entry per call, in order; a call that is
      not an object makes `call.get` raise out of the loop. */
  function RunPlan(calls: seq<Json>, flights: Tool, hotels: Tool): (r: Result<seq<RunEntry>, string>)
    ensures r.Success? <==> forall i :: 0 <= i < |calls| ==> calls[i].JObj?
    ensures r.Success? ==> |r.value| == |calls|
    ensures r.Failure? ==> r.error == CALL_NOT_AN_OBJECT
  {
    if |calls| == 0 then Success([])
    else
      match RunPlan(calls[..|calls| - 1], flights, hotels)
      case Failure(e) => Failure(e)
      case Success(prev) =>
        var last := calls[|calls| - 1];
        if last.JObj? then Success(prev + [RunCall(last, flights, hotels)])
        else Failure(CALL_NOT_AN_OBJECT)
  }

  /** Each entry is the outcome of its own call alone. */
  lemma {:induction false} RunPlanEntries(calls: seq<Json>, flights: Tool, hotels: Tool)
    requires forall i :: 0 <= i < |calls| ==> calls[i].JObj?
    ensures RunPlan(calls, flights, hotels).Success?
    ensures forall i :: 0 <= i < |calls| ==> RunPlan(calls, flights, hotels).value[i] == RunCall(calls[i], flights, hotels)
  {
    if |calls| > 0 {
      var init := calls[..|calls| - 1];
      RunPlanEntries(init, flights, hotels);
      var prev := RunPlan(init, flights, hotels).value;
      var last := RunCall(calls[|calls| - 1], flights, hotels);
      assert RunPlan(calls, flights, hotels).value == prev + [last];
      SnocMapped(calls, (c: Json) requires c.JObj? => RunCall(c, flights, hotels), prev, last);
    }
  }

  /** A call object `{"name": name, "arguments": args}`. */
  function CallOf(name: string, args: seq<(string, Json)>): Json {
    JObj([("name", JStr(name)), ("arguments", JObj(args))])
  }

  /** The arguments of the scripted flight call. */
  function FlightArgs(dates: TripDates): seq<(string, Json)> {
    [("departure_city", JStr("台北")), ("destination_city", JStr("東京")),
     ("departure_date", JStr(dates.depart)), ("return_date", JStr(dates.ret))]
  }

  /** The arguments of the scripted hotel call. */
  function HotelArgs(dates: TripDates): seq<(string, Json)> {
    [("destination", JStr("東京")), ("checkin_date", JStr(dates.checkin)),
     ("checkout_date", JStr(dates.checkout)), ("sort_by", JStr("price")), ("sort_order", JStr("asc"))]
  }

  /** `synth_plan(query, dates)["tool_calls"]`: a flight search from 台北 to 東京 over the
      trip's dates, then a 東京 hotel search over the same dates sorted by ascending price.
      The query itself is not consulted. */
  function SynthPlan(query: string, dates: TripDates): (calls: seq<Json>)
    ensures |calls| == 2 && calls[0].JObj? && calls[1].JObj?
  {
    [CallOf(FLIGHTS, FlightArgs(dates)), CallOf(HOTELS, HotelArgs(dates))]
  }

  /** Running the scripted plan: the flight entry first, then the hotel entry, each
      carrying what its tool gave for the trip's arguments. */
  lemma ScriptedRunEntries(query: string, dates: TripDates, flights: Tool, hotels: Tool)
    ensures var r := RunPlan(SynthPlan(query, dates), flights, hotels);
      && r.Success? && |r.value| == 2
      && r.value[0] == RunTool(FLIGHTS, flights, "python-dateutil", JObj(FlightArgs(dates)))
      && r.value[1] == RunTool(HOTELS, hotels, "python-dotenv", JObj(HotelArgs(dates)))
  {
    var calls := SynthPlan(query, dates);
    RunPlanEntries(calls, flights, hotels);
    CallFields(FLIGHTS, FlightArgs(dates));
    CallFields(HOTELS, HotelArgs(dates));
  }

  /** A call object reads back its name and its arguments. */
  lemma CallFields(name: string, args: seq<(string, Json)>)
    ensures GetOrNull(CallOf(name, args), "name") == JStr(name)
    ensures GetOr(CallOf(name, args), "arguments", JObj([])) == JObj(args)
  {
    var ms := CallOf(name, args).members;
    assert "arguments" != "name" by {
      assert "arguments"[0] != "name"[0];
    }
    assert ms[..1] == [("name", JStr(name))];
    assert Lookup(ms, "name") == Lookup([("name", JStr(name))], "name");
  }
}
