/** The flight-search tool: the checks made before the request, the query sent to the
    search engine, and the shaping of its reply into at most five flight offers. An
    exception the tool does not catch is a `Failure` carrying its message. */
module FlightSearch {
  import opened Wrappers
  import opened Text
  import opened Json
  import opened Sequences

  const BAD_DATE := "無法解析日期格式，請使用 YYYY-MM-DD 或其他有效格式"
  const MISSING_KEY := "找不到 SERPAPI_API_KEY"
  const MALFORMED_REPLY := "無法解析 API 回傳的 JSON 資料"
  /** How many flights the tool keeps, best flights first. */
  const MAX_FLIGHTS := 5
  /** The factor every price is multiplied by. */
  const PRICE_FACTOR := 30

  /** The tool's arguments; `returnDate` is absent for a one-way trip. */
  datatype FlightRequest = FlightRequest(
    departureCity: string, destinationCity: string, departureDate: string, returnDate: Option<string>)

  /** The dates after normalisation. */
  datatype FlightDates = FlightDates(outbound: string, ret: Option<string>)

  /** Python's truth value of an optional text: present and non-empty. */
  predicate Given(s: Option<string>) {
    s.Some? && s.value != ""
  }

  /** The airport code of a city the tool knows; any other name is passed on as it is. */
  function AirportCode(city: string): (code: string)
    ensures city == "東京" ==> code == "NRT"
    ensures city == "大阪" ==> code == "KIX"
    ensures city == "台北" ==> code == "TPE"
    ensures city !in {"東京", "大阪", "台北"} ==> code == city
  {
    if city == "東京" then "NRT"
    else if city == "大阪" then "KIX"
    else if city == "台北" then "TPE"
    else city
  }

  /** The error for a reply that carries neither list of flights. */
  function NotFound(departureId: string, arrivalId: string, date: string): string {
    "找不到從 " + departureId + " 到 " + arrivalId + " 在 " + date + " 的航班資訊"
  }

  /** Normalising the dates: `normalise` parses a date and prints it as YYYY-MM-DD,
      `None` when parsing raises `ValueError`. The return date is normalised only when it
      is given; an absent or empty one is kept as it is. */
  function NormaliseDates(req: FlightRequest, normalise: string -> Option<string>): (r: Option<FlightDates>)
    ensures r.None? <==> (|| normalise(req.departureDate).None?
                          || (Given(req.returnDate) && normalise(req.returnDate.value).None?))
    ensures r.Some? ==> Some(r.value.outbound) == normalise(req.departureDate)
    ensures r.Some? && Given(req.returnDate) ==> r.value.ret == normalise(req.returnDate.value)
    ensures r.Some? && !Given(req.returnDate) ==> r.value.ret == req.returnDate
  {
    match normalise(req.departureDate)
    case None => None
    case Some(outbound) =>
      if !Given(req.returnDate) then Some(FlightDates(outbound, req.returnDate))
      else match normalise(req.returnDate.value)
        case None => None
        case Some(ret) => Some(FlightDates(outbound, Some(ret)))
  }

  /** The query sent to the engine. */
  function Params(departureId: string, arrivalId: string, dates: FlightDates, key: string): Json {
    JObj([("engine", JStr("google_flights")), ("departure_id", JStr(departureId)),
          ("arrival_id", JStr(arrivalId)), ("outbound_date", JStr(dates.outbound)),
          ("return_date", if dates.ret.Some? then JStr(dates.ret.value) else JNull),
          ("api_key", JStr(key)), ("hl", JStr("zh-tw")),
          ("type", JStr(if Given(dates.ret) then "1" else "2")), ("bags", JStr("1"))])
  }

  /** The query asks for a round trip (`type` 1) exactly when a return date is given,
      and otherwise for a one-way trip (`type` 2); it names both airports and the
      outbound date. */
  lemma ParamsFields(departureId: string, arrivalId: string, dates: FlightDates, key: string)
    ensures var p := Params(departureId, arrivalId, dates, key);
      && Get(p, "type") == Some(JStr(if Given(dates.ret) then "1" else "2"))
      && Get(p, "departure_id") == Some(JStr(departureId))
      && Get(p, "arrival_id") == Some(JStr(arrivalId))
      && Get(p, "outbound_date") == Some(JStr(dates.outbound))
  {
    ParamsLookup(Params(departureId, arrivalId, dates, key).members);
  }

  /** In a query laid out as `Params` lays it out, each name finds its own member. */
  lemma ParamsLookup(ms: seq<(string, Json)>)
    requires |ms| == 9
    requires ms[1].0 == "departure_id" && ms[2].0 == "arrival_id" && ms[3].0 == "outbound_date"
    requires ms[4].0 == "return_date" && ms[5].0 == "api_key" && ms[6].0 == "hl"
    requires ms[7].0 == "type" && ms[8].0 == "bags"
    ensures Lookup(ms, "departure_id") == Some(ms[1].1)
    ensures Lookup(ms, "arrival_id") == Some(ms[2].1)
    ensures Lookup(ms, "outbound_date") == Some(ms[3].1)
    ensures Lookup(ms, "type") == Some(ms[7].1)
  {
    ParamsLookupBack(ms);
    ParamsLookupFront(ms);
  }

  lemma ParamsLookupBack(ms: seq<(string, Json)>)
    requires |ms| == 9
    requires ms[1].0 == "departure_id" && ms[2].0 == "arrival_id" && ms[3].0 == "outbound_date"
    requires ms[4].0 == "return_date" && ms[5].0 == "api_key" && ms[6].0 == "hl"
    requires ms[7].0 == "type" && ms[8].0 == "bags"
    ensures Lookup(ms, "outbound_date") == Some(ms[3].1)
    ensures Lookup(ms, "type") == Some(ms[7].1)
  {
    assert "type"[0] != "bags"[0];
    LookupAt(ms, "type", 7);
    assert "outbound_date"[0] != "return_date"[0] && "outbound_date"[0] != "api_key"[0];
    assert "outbound_date"[0] != "hl"[0] && "outbound_date"[0] != "type"[0] && "outbound_date"[0] != "bags"[0];
    LookupAt(ms, "outbound_date", 3);
  }

  lemma ParamsLookupFront(ms: seq<(string, Json)>)
    requires |ms| == 9
    requires ms[1].0 == "departure_id" && ms[2].0 == "arrival_id" && ms[3].0 == "outbound_date"
    requires ms[4].0 == "return_date" && ms[5].0 == "api_key" && ms[6].0 == "hl"
    requires ms[7].0 == "type" && ms[8].0 == "bags"
    ensures Lookup(ms, "departure_id") == Some(ms[1].1)
    ensures Lookup(ms, "arrival_id") == Some(ms[2].1)
  {
    assert "arrival_id"[0] != "outbound_date"[0] && "arrival_id"[1] != "api_key"[1];
    assert "arrival_id"[0] != "return_date"[0] && "arrival_id"[0] != "hl"[0];
    assert "arrival_id"[0] != "type"[0] && "arrival_id"[0] != "bags"[0];
    LookupAt(ms, "arrival_id", 2);
    assert "departure_id"[0] != "arrival_id"[0] && "departure_id"[0] != "outbound_date"[0];
    assert "departure_id"[0] != "return_date"[0] && "departure_id"[0] != "api_key"[0];
    assert "departure_id"[0] != "hl"[0] && "departure_id"[0] != "type"[0] && "departure_id"[0] != "bags"[0];
    LookupAt(ms, "departure_id", 1);
  }

  // ---------------------------------------------------------------- Python operators

  /** The integer a number stands for in arithmetic (`True` is 1). */
  function Numeric(j: Json): int
    requires j.JInt? || j.JBool?
  {
    if j.JInt? then j.i else if j.b then 1 else 0
  }

  /** Python's `a + b` on decoded values. */
  function Plus(a: Json, b: Json): (r: Result<Json, string>)
    ensures a.JArr? && b.JArr? ==> r == Success(JArr(a.items + b.items))
    ensures a.JStr? && b.JStr? ==> r == Success(JStr(a.s + b.s))
    ensures r.Success? ==> (a.JArr? && b.JArr?) || (a.JStr? && b.JStr?) || r.value.JInt?
  {
    if a.JArr? && b.JArr? then Success(JArr(a.items + b.items))
    else if a.JStr? && b.JStr? then Success(JStr(a.s + b.s))
    else if (a.JInt? || a.JBool?) && (b.JInt? || b.JBool?) then Success(JInt(Numeric(a) + Numeric(b)))
    else if a.JArr? then Failure("can only concatenate list (not \"" + TypeName(b) + "\") to list")
    else if a.JStr? then Failure("can only concatenate str (not \"" + TypeName(b) + "\") to str")
    else Failure("unsupported operand type(s) for +: '" + TypeName(a) + "' and '" + TypeName(b) + "'")
  }

  /** Python's `j[:n]`. */
  function Head(j: Json, n: nat): (r: Result<Json, string>)
    ensures j.JArr? ==> r == Success(JArr(j.items[..if |j.items| < n then |j.items| else n]))
    ensures j.JStr? ==> r == Success(JStr(j.s[..if |j.s| < n then |j.s| else n]))
    ensures r.Success? <==> j.JArr? || j.JStr?
  {
    match j
    case JArr(xs) => Success(JArr(xs[..if |xs| < n then |xs| else n]))
    case JStr(s) => Success(JStr(s[..if |s| < n then |s| else n]))
    case JObj(_) => Failure("unhashable type: 'slice'")
    case _ => Failure("'" + TypeName(j) + "' object is not subscriptable")
  }

  /** `s` repeated `k` times: it starts with `s` and repeats with period `|s|`. */
  function Times<T>(s: seq<T>, k: nat): (r: seq<T>)
    ensures |r| == |s| * k
    ensures k > 0 ==> r[..|s|] == s
    ensures forall i :: |s| <= i < |r| ==> r[i] == r[i - |s|]
  {
    if k == 0 then []
    else
      var rest := Times(s, k - 1);
      var r := s + rest;
      assert |s| * k == |s| + |s| * (k - 1);
      assert forall i :: |s| <= i < |r| ==> r[i] == rest[i - |s|];
      r
  }

  /** Python's `j * k` for a non-negative integer `k`: numbers multiply, text and lists
      repeat, and anything else raises `TypeError`. */
  function Scale(j: Json, k: nat): (r: Result<Json, string>)
    ensures j.JInt? ==> r == Success(JInt(j.i * k))
    ensures j.JStr? ==> r.Success? && r.value.JStr? && |r.value.s| == |j.s| * k
    ensures j.JArr? ==> r.Success? && r.value.JArr? && |r.value.items| == |j.items| * k
    ensures r.Failure? <==> j.JNull? || j.JObj?
  {
    match j
    case JInt(i) => Success(JInt(i * k))
    case JBool(b) => Success(JInt(if b then k else 0))
    case JStr(s) => Success(JStr(Times(s, k)))
    case JArr(xs) => Success(JArr(Times(xs, k)))
    case _ => Failure("unsupported operand type(s) for *: '" + TypeName(j) + "' and 'int'")
  }

  // ---------------------------------------------------------------- one offer

  /** What the tool reads from a flight's first segment. */
  datatype Segment = Segment(airline: Json, flightNumber: Json, departureTime: Json, arrivalTime: Json)

  /** The segments a flight lists, `[]` when the value is absent or false. */
  function Segments(flight: Json): Json
    requires flight.JObj?
  {
    OrElse(GetOrNull(flight, "flights"), JArr([]))
  }

  /** Python's `segs[0]` on a true value. */
  function FirstOf(segs: Json): Result<Json, string>
    requires Truthy(segs)
  {
    match segs
    case JArr(xs) => Success(xs[0])
    case JStr(s) => Success(JStr([s[0]]))
    case JObj(_) => Failure("0")
    case _ => Failure("'" + TypeName(segs) + "' object is not subscriptable")
  }

  /** The first segment's airline, flight number and times; all four are `None` for a
      flight with no segments. */
  function FirstSegment(flight: Json): (r: Result<Segment, string>)
    requires flight.JObj?
    ensures !Truthy(Segments(flight)) ==> r == Success(Segment(JNull, JNull, JNull, JNull))
    ensures Segments(flight).JArr? && Truthy(Segments(flight)) && Segments(flight).items[0] == JObj([]) ==>
      r == Success(Segment(JNull, JNull, JNull, JNull))
  {
    var segs := Segments(flight);
    if !Truthy(segs) then Success(Segment(JNull, JNull, JNull, JNull))
    else match FirstOf(segs)
      case Failure(e) => Failure(e)
      case Success(first) => SegmentOf(first)
  }

  /** The fields read from the value `segs[0]` (`{}` when it is false): the segment's
      airline and flight number, and the time of each airport, `None` for an airport
      that is absent or false. */
  function SegmentOf(first: Json): (r: Result<Segment, string>)
    ensures first == JObj([]) ==> r == Success(Segment(JNull, JNull, JNull, JNull))
    ensures !Truthy(first) ==> r == Success(Segment(JNull, JNull, JNull, JNull))
    ensures Truthy(first) && !first.JObj? ==> r == Failure(NoGet(first))
    ensures first.JObj? ==>
      var dep := GetOrNull(first, "departure_airport");
      var arr := GetOrNull(first, "arrival_airport");
      (r.Success? <==> (!Truthy(dep) || dep.JObj?) && (!Truthy(arr) || arr.JObj?))
    ensures first.JObj? && r.Success? ==>
      var dep := GetOrNull(first, "departure_airport");
      var arr := GetOrNull(first, "arrival_airport");
      && r.value.airline == GetOrNull(first, "airline")
      && r.value.flightNumber == GetOrNull(first, "flight_number")
      && (Truthy(dep) ==> dep.JObj? && r.value.departureTime == GetOrNull(dep, "time"))
      && (!Truthy(dep) ==> r.value.departureTime == JNull)
      && (Truthy(arr) ==> arr.JObj? && r.value.arrivalTime == GetOrNull(arr, "time"))
      && (!Truthy(arr) ==> r.value.arrivalTime == JNull)
  {
    var seg0 := OrElse(first, JObj([]));
    if !seg0.JObj? then Failure(NoGet(seg0))
    else
      var dep := OrElse(GetOrNull(seg0, "departure_airport"), JObj([]));
      var arr := OrElse(GetOrNull(seg0, "arrival_airport"), JObj([]));
      if !dep.JObj? then Failure(NoGet(dep))
      else if !arr.JObj? then Failure(NoGet(arr))
      else Success(Segment(GetOrNull(seg0, "airline"), GetOrNull(seg0, "flight_number"),
                           GetOrNull(dep, "time"), GetOrNull(arr, "time")))
  }

  /** A flight listing segments reads only the first of them. */
  lemma FirstSegmentOfList(flight: Json, seg: Json, rest: seq<Json>)
    requires flight.JObj? && Get(flight, "flights") == Some(JArr([seg] + rest))
    ensures FirstSegment(flight) == SegmentOf(seg)
  {
    assert Segments(flight) == JArr([seg] + rest);
  }

  /** The number of layovers: `len` of the listed ones, 0 when none are listed. */
  function Stops(flight: Json): (r: Result<nat, string>)
    requires flight.JObj?
    ensures Get(flight, "layovers").None? ==> r == Success(0)
    ensures Get(flight, "layovers") == Some(JArr([])) ==> r == Success(0)
    ensures forall ls :: Get(flight, "layovers") == Some(JArr(ls)) ==> r == Success(|ls|)
  {
    var layovers := GetOr(flight, "layovers", JArr([]));
    match PyLen(layovers)
    case Some(n) => Success(n)
    case None => Failure("object of type '" + TypeName(layovers) + "' has no len()")
  }

  /** A simplified offer. */
  function Entry(seg: Segment, price: Json, duration: Json, stops: nat): Json {
    JObj([("airline", seg.airline), ("flight_number", seg.flightNumber), ("price", price),
          ("duration", duration), ("stops", JInt(stops)),
          ("departure_time", seg.departureTime), ("arrival_time", seg.arrivalTime)])
  }

  /** Each field of an offer is found under its own name. */
  lemma EntryFields(seg: Segment, price: Json, duration: Json, stops: nat)
    ensures var e := Entry(seg, price, duration, stops);
      && Get(e, "airline") == Some(seg.airline)
      && Get(e, "flight_number") == Some(seg.flightNumber)
      && Get(e, "price") == Some(price)
      && Get(e, "duration") == Some(duration)
      && Get(e, "stops") == Some(JInt(stops))
      && Get(e, "departure_time") == Some(seg.departureTime)
      && Get(e, "arrival_time") == Some(seg.arrivalTime)
  {
    OfferLookup(Entry(seg, price, duration, stops).members);
  }

  /** In an offer laid out as `Entry` lays it out, each name finds its own member. */
  lemma OfferLookup(ms: seq<(string, Json)>)
    requires |ms| == 7
    requires ms[0].0 == "airline" && ms[1].0 == "flight_number" && ms[2].0 == "price"
    requires ms[3].0 == "duration" && ms[4].0 == "stops"
    requires ms[5].0 == "departure_time" && ms[6].0 == "arrival_time"
    ensures Lookup(ms, "airline") == Some(ms[0].1)
    ensures Lookup(ms, "flight_number") == Some(ms[1].1)
    ensures Lookup(ms, "price") == Some(ms[2].1)
    ensures Lookup(ms, "duration") == Some(ms[3].1)
    ensures Lookup(ms, "stops") == Some(ms[4].1)
    ensures Lookup(ms, "departure_time") == Some(ms[5].1)
    ensures Lookup(ms, "arrival_time") == Some(ms[6].1)
  {
    OfferLookupFront(ms);
    OfferLookupBack(ms);
  }

  lemma OfferLookupFront(ms: seq<(string, Json)>)
    requires |ms| == 7
    requires ms[0].0 == "airline" && ms[1].0 == "flight_number" && ms[2].0 == "price"
    requires ms[3].0 == "duration" && ms[4].0 == "stops"
    requires ms[5].0 == "departure_time" && ms[6].0 == "arrival_time"
    ensures Lookup(ms, "airline") == Some(ms[0].1)
    ensures Lookup(ms, "flight_number") == Some(ms[1].1)
    ensures Lookup(ms, "price") == Some(ms[2].1)
  {
    assert "airline"[0] != "flight_number"[0] && "airline"[0] != "price"[0] && "airline"[0] != "duration"[0];
    assert "airline"[0] != "stops"[0] && "airline"[0] != "departure_time"[0] && "airline"[1] != "arrival_time"[1];
    assert "flight_number"[0] != "price"[0] && "flight_number"[0] != "duration"[0] && "flight_number"[0] != "stops"[0];
    assert "flight_number"[0] != "departure_time"[0] && "flight_number"[0] != "arrival_time"[0];
    assert "price"[0] != "duration"[0] && "price"[0] != "stops"[0];
    assert "price"[0] != "departure_time"[0] && "price"[0] != "arrival_time"[0];
    LookupAt(ms, "airline", 0);
    LookupAt(ms, "flight_number", 1);
    LookupAt(ms, "price", 2);
  }

  lemma OfferLookupBack(ms: seq<(string, Json)>)
    requires |ms| == 7
    requires ms[0].0 == "airline" && ms[1].0 == "flight_number" && ms[2].0 == "price"
    requires ms[3].0 == "duration" && ms[4].0 == "stops"
    requires ms[5].0 == "departure_time" && ms[6].0 == "arrival_time"
    ensures Lookup(ms, "duration") == Some(ms[3].1)
    ensures Lookup(ms, "stops") == Some(ms[4].1)
    ensures Lookup(ms, "departure_time") == Some(ms[5].1)
    ensures Lookup(ms, "arrival_time") == Some(ms[6].1)
  {
    assert "duration"[0] != "stops"[0] && "duration"[1] != "departure_time"[1] && "duration"[0] != "arrival_time"[0];
    assert "stops"[0] != "departure_time"[0] && "stops"[0] != "arrival_time"[0];
    assert "departure_time"[0] != "arrival_time"[0];
    LookupAt(ms, "duration", 3);
    LookupAt(ms, "stops", 4);
    LookupAt(ms, "departure_time", 5);
    LookupAt(ms, "arrival_time", 6);
  }

  /** One simplified offer: the first segment's details, the price times 30, the total
      duration and the number of layovers, in the order Python evaluates them. */
  function Offer(flight: Json): (r: Result<Json, string>)
    ensures !flight.JObj? ==> r == Failure(NoGet(flight))
    ensures r.Success? ==> r.value.JObj? && |r.value.members| == 7
  {
    if !flight.JObj? then Failure(NoGet(flight))
    else match FirstSegment(flight)
      case Failure(e) => Failure(e)
      case Success(seg) =>
        match Scale(GetOrNull(flight, "price"), PRICE_FACTOR)
        case Failure(e) => Failure(e)
        case Success(price) =>
          match Stops(flight)
          case Failure(e) => Failure(e)
          case Success(n) => Success(Entry(seg, price, GetOrNull(flight, "total_duration"), n))
  }

  /** An offer carries the flight's integer price multiplied by 30, its total duration
      and as many stops as it lists layovers. */
  lemma OfferFields(flight: Json, e: Json)
    requires flight.JObj? && Offer(flight) == Success(e)
    ensures forall p :: GetOrNull(flight, "price") == JInt(p) ==> Get(e, "price") == Some(JInt(p * PRICE_FACTOR))
    ensures Get(e, "duration") == Some(GetOrNull(flight, "total_duration"))
    ensures forall ls :: Get(flight, "layovers") == Some(JArr(ls)) ==> Get(e, "stops") == Some(JInt(|ls|))
    ensures Get(flight, "layovers").None? ==> Get(e, "stops") == Some(JInt(0))
    ensures FirstSegment(flight).Success?
    ensures var seg := FirstSegment(flight).value;
      && Get(e, "airline") == Some(seg.airline)
      && Get(e, "flight_number") == Some(seg.flightNumber)
      && Get(e, "departure_time") == Some(seg.departureTime)
      && Get(e, "arrival_time") == Some(seg.arrivalTime)
  {
    var seg := FirstSegment(flight).value;
    var price := Scale(GetOrNull(flight, "price"), PRICE_FACTOR).value;
    var n := Stops(flight).value;
    assert e == Entry(seg, price, GetOrNull(flight, "total_duration"), n);
    EntryFields(seg, price, GetOrNull(flight, "total_duration"), n);
  }

  /** An offer for a flight whose first segment is an object carries that segment's
      airline and flight number, and the times of its two airports. */
  lemma OfferFromFirstSegment(flight: Json, seg: Json, rest: seq<Json>, e: Json)
    requires flight.JObj? && Get(flight, "flights") == Some(JArr([seg] + rest)) && seg.JObj?
    requires Offer(flight) == Success(e)
    ensures Get(e, "airline") == Some(GetOrNull(seg, "airline"))
    ensures Get(e, "flight_number") == Some(GetOrNull(seg, "flight_number"))
    ensures var dep := GetOrNull(seg, "departure_airport");
      Get(e, "departure_time") == Some(if Truthy(dep) && dep.JObj? then GetOrNull(dep, "time") else JNull)
    ensures var arr := GetOrNull(seg, "arrival_airport");
      Get(e, "arrival_time") == Some(if Truthy(arr) && arr.JObj? then GetOrNull(arr, "time") else JNull)
  {
    FirstSegmentOfList(flight, seg, rest);
    OfferFields(flight, e);
  }

  /** A flight without a price (or with a `null` one) makes the whole search raise. */
  lemma UnpricedFlightRaises(flight: Json)
    requires flight.JObj? && FirstSegment(flight).Success?
    requires Get(flight, "price").None? || Get(flight, "price") == Some(JNull)
    ensures Offer(flight) == Failure("unsupported operand type(s) for *: '" + "NoneType" + "' and 'int'")
  {
  }

  /** Only the first segment is read: two flights that agree on it and on their price,
      duration and layovers give the same offer, whatever segments follow. */
  lemma OnlyFirstSegmentCounts(f1: Json, f2: Json, seg: Json, rest1: seq<Json>, rest2: seq<Json>)
    requires f1.JObj? && f2.JObj?
    requires Get(f1, "flights") == Some(JArr([seg] + rest1))
    requires Get(f2, "flights") == Some(JArr([seg] + rest2))
    requires Get(f1, "price") == Get(f2, "price")
    requires Get(f1, "total_duration") == Get(f2, "total_duration")
    requires Get(f1, "layovers") == Get(f2, "layovers")
    ensures Offer(f1) == Offer(f2)
  {
    FirstSegmentOfList(f1, seg, rest1);
    FirstSegmentOfList(f2, seg, rest2);
    assert Stops(f1) == Stops(f2);
    OfferOfParts(f1, f2);
  }

  /** The offer depends only on the first segment, the price, the duration and the stops. */
  lemma OfferOfParts(f1: Json, f2: Json)
    requires f1.JObj? && f2.JObj?
    requires FirstSegment(f1) == FirstSegment(f2) && Stops(f1) == Stops(f2)
    requires GetOrNull(f1, "price") == GetOrNull(f2, "price")
    requires GetOrNull(f1, "total_duration") == GetOrNull(f2, "total_duration")
    ensures Offer(f1) == Offer(f2)
  {
  }

  /** The offers of `flights`, in order; the first failure is the one raised. */
  function Offers(flights: seq<Json>): (r: Result<seq<Json>, string>)
    ensures r.Success? <==> forall i :: 0 <= i < |flights| ==> Offer(flights[i]).Success?
    ensures r.Success? ==> |r.value| == |flights|
    ensures r.Success? ==> forall i :: 0 <= i < |flights| ==> Offer(flights[i]) == Success(r.value[i])
  {
    if |flights| == 0 then Success([])
    else match Offer(flights[0])
      case Failure(e) => Failure(e)
      case Success(o) =>
        match Offers(flights[1..])
        case Failure(e) =>
          TailFailsMapped(flights, Offer);
          Failure(e)
        case Success(os) =>
          ConsMapped(flights, Offer, o, os);
          Success([o] + os)
  }

  // ---------------------------------------------------------------- the reply

  /** The flights the loop visits: `best_flights` then `other_flights` (each `[]` when
      absent), cut to the first five. */
  function ToProcess(response: seq<(string, Json)>): (r: Result<seq<Json>, string>)
    ensures r.Success? ==> |r.value| <= MAX_FLIGHTS
  {
    var best := Lookup(response, "best_flights").GetOr(JArr([]));
    var other := Lookup(response, "other_flights").GetOr(JArr([]));
    match Plus(best, other)
    case Failure(e) => Failure(e)
    case Success(merged) =>
      match Head(merged, MAX_FLIGHTS)
      case Failure(e) => Failure(e)
      case Success(kept) => Success(Elements(kept).value)
  }

  /** What the tool does with the engine's reply; a `Failure` is an exception it does
      not catch. */
  function HandleReply(departureId: string, arrivalId: string, date: string, reply: ApiReply)
    : (r: Result<SearchResult, string>)
    ensures reply.NetworkError? ==> r == Success(Error("網路錯誤: " + reply.message))
    ensures reply.MalformedJson? ==> r == Success(Error(MALFORMED_REPLY))
    ensures reply.OtherError? ==> r == Failure(reply.message)
    ensures reply.Reply? && Lookup(reply.response, "error").Some? ==>
      r == Success(Error("API 錯誤: " + PyStr(Lookup(reply.response, "error").value)))
    ensures (&& reply.Reply? && Lookup(reply.response, "error").None?
             && Lookup(reply.response, "best_flights").None?
             && Lookup(reply.response, "other_flights").None?) ==>
      r == Success(Error(NotFound(departureId, arrivalId, date)))
    ensures r.Success? && r.value.Found? ==> |r.value.entries| <= MAX_FLIGHTS
  {
    match reply
    case NetworkError(m) => Success(Error("網路錯誤: " + m))
    case MalformedJson(_) => Success(Error(MALFORMED_REPLY))
    case OtherError(m) => Failure(m)
    case Reply(resp) =>
      match Lookup(resp, "error")
      case Some(e) => Success(Error("API 錯誤: " + PyStr(e)))
      case None =>
        if Lookup(resp, "best_flights").None? && Lookup(resp, "other_flights").None? then
          Success(Error(NotFound(departureId, arrivalId, date)))
        else match ToProcess(resp)
          case Failure(e) => Failure(e)
          case Success(flights) =>
            match Offers(flights)
            case Failure(e) => Failure(e)
            case Success(offers) => Success(Found(offers))
  }

  /** With both lists present as lists (or one absent), the offers are those of the
      best flights followed by the other flights, in order, cut to five; the reply is
      shaped without an exception exactly when each of those flights has an offer. */
  lemma BestFlightsFirst(departureId: string, arrivalId: string, date: string,
                         resp: seq<(string, Json)>, best: seq<Json>, other: seq<Json>)
    requires Lookup(resp, "error").None?
    requires Lookup(resp, "best_flights").Some? || Lookup(resp, "other_flights").Some?
    requires Lookup(resp, "best_flights").GetOr(JArr([])) == JArr(best)
    requires Lookup(resp, "other_flights").GetOr(JArr([])) == JArr(other)
    ensures var all := best + other;
      var n := if |all| < MAX_FLIGHTS then |all| else MAX_FLIGHTS;
      var r := HandleReply(departureId, arrivalId, date, Reply(resp));
      && (r.Success? <==> forall i :: 0 <= i < n ==> Offer(all[i]).Success?)
      && (r.Success? ==> r.value.Found? && |r.value.entries| == n)
      && (r.Success? ==> forall i :: 0 <= i < n && i < |best| ==> Offer(best[i]) == Success(r.value.entries[i]))
      && (r.Success? ==> forall i :: |best| <= i < n ==> Offer(other[i - |best|]) == Success(r.value.entries[i]))
  {
    var all := best + other;
    var n := if |all| < MAX_FLIGHTS then |all| else MAX_FLIGHTS;
    var flights := all[..n];
    ToProcessLists(resp, best, other);
    ReplyOffers(departureId, arrivalId, date, resp, flights);
    OffersOfBoth(best, other);
  }

  /** The offers of the first five of `best + other`, split by the list they come from. */
  lemma OffersOfBoth(best: seq<Json>, other: seq<Json>)
    ensures var all := best + other;
      var n := if |all| < MAX_FLIGHTS then |all| else MAX_FLIGHTS;
      var r := Offers(all[..n]);
      && (r.Success? <==> forall i :: 0 <= i < n ==> Offer(all[i]).Success?)
      && (r.Success? ==> |r.value| == n)
      && (r.Success? ==> forall i :: 0 <= i < n && i < |best| ==> Offer(best[i]) == Success(r.value[i]))
      && (r.Success? ==> forall i :: |best| <= i < n ==> Offer(other[i - |best|]) == Success(r.value[i]))
  {
    var all := best + other;
    var n := if |all| < MAX_FLIGHTS then |all| else MAX_FLIGHTS;
    var r := Offers(all[..n]);
    PrefixOfBoth(best, other, n, Offer, if r.Success? then r.value else []);
  }

  /** What a map over a prefix of `best + other` says about each of the two lists. */
  lemma PrefixOfBoth<A, B>(best: seq<A>, other: seq<A>, n: nat, f: A -> Result<B, string>, r: seq<B>)
    requires n <= |best + other|
    ensures (forall i :: 0 <= i < n ==> f((best + other)[..n][i]).Success?)
      <==> forall i :: 0 <= i < n ==> f((best + other)[i]).Success?
    ensures |r| == n && (forall i :: 0 <= i < n ==> f((best + other)[..n][i]) == Success(r[i])) ==>
      && (forall i :: 0 <= i < n && i < |best| ==> f(best[i]) == Success(r[i]))
      && (forall i :: |best| <= i < n ==> f(other[i - |best|]) == Success(r[i]))
  {
    var all := best + other;
    assert forall i :: 0 <= i < n ==> all[..n][i] == all[i];
    assert forall i :: 0 <= i < n && i < |best| ==> all[i] == best[i];
    assert forall i :: |best| <= i < n ==> all[i] == other[i - |best|];
  }

  /** Once the error and not-found checks pass, the reply is the offers of the flights
      to process. */
  lemma ReplyOffers(departureId: string, arrivalId: string, date: string,
                    resp: seq<(string, Json)>, flights: seq<Json>)
    requires Lookup(resp, "error").None?
    requires Lookup(resp, "best_flights").Some? || Lookup(resp, "other_flights").Some?
    requires ToProcess(resp) == Success(flights)
    ensures HandleReply(departureId, arrivalId, date, Reply(resp)) == match Offers(flights)
      case Failure(e) => Failure(e)
      case Success(os) => Success(Found(os))
  {
  }

  /** Two lists present as lists, or one absent, are concatenated and cut to five. */
  lemma ToProcessLists(resp: seq<(string, Json)>, best: seq<Json>, other: seq<Json>)
    requires Lookup(resp, "best_flights").GetOr(JArr([])) == JArr(best)
    requires Lookup(resp, "other_flights").GetOr(JArr([])) == JArr(other)
    ensures var all := best + other;
      ToProcess(resp) == Success(all[..if |all| < MAX_FLIGHTS then |all| else MAX_FLIGHTS])
  {
  }

  /** A reply whose lists are both present and empty yields no offers, not an error. */
  lemma EmptyListsGiveNoOffers(departureId: string, arrivalId: string, date: string, resp: seq<(string, Json)>)
    requires Lookup(resp, "error").None?
    requires Lookup(resp, "best_flights") == Some(JArr([]))
    requires Lookup(resp, "other_flights") == Some(JArr([]))
    ensures HandleReply(departureId, arrivalId, date, Reply(resp)) == Success(Found([]))
  {
    assert ToProcess(resp) == Success([]);
  }

  /** `search_flights`: the date checks, the key check, then the engine call and the
      shaping of its reply. `apiKey` is the environment's `SERPAPI_API_KEY`. */
  function SearchFlights(req: FlightRequest, normalise: string -> Option<string>, apiKey: Option<string>,
                         engine: Json -> ApiReply): (r: Result<SearchResult, string>)
    ensures NormaliseDates(req, normalise).None? ==> r == Success(Error(BAD_DATE))
    ensures NormaliseDates(req, normalise).Some? && !Given(apiKey) ==> r == Success(Error(MISSING_KEY))
    ensures NormaliseDates(req, normalise).Some? && Given(apiKey) ==>
      var dates := NormaliseDates(req, normalise).value;
      var dep := AirportCode(req.departureCity);
      var arr := AirportCode(req.destinationCity);
      r == HandleReply(dep, arr, dates.outbound, engine(Params(dep, arr, dates, apiKey.value)))
  {
    match NormaliseDates(req, normalise)
    case None => Success(Error(BAD_DATE))
    case Some(dates) =>
      if !Given(apiKey) then Success(Error(MISSING_KEY))
      else
        var dep := AirportCode(req.departureCity);
        var arr := AirportCode(req.destinationCity);
        HandleReply(dep, arr, dates.outbound, engine(Params(dep, arr, dates, apiKey.value)))
  }
}
