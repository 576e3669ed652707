/** `PlannerAgent.find_best_option`: per date key, the cheapest flight plus four nights
    at the cheapest numeric hotel rate; a cost table over the viable keys; the first
    entry of least total cost becomes the itinerary. */
module Selector {
  import opened Wrappers
  import opened Text
  import opened Json
  import opened Calendar
  import opened Sequences
  import opened State
  import opened Executor
  import FlightSearch

  /** The selection assumes a five-day, four-night stay. */
  const NIGHTS := 4

  const NO_VIABLE_OPTION := "找不到有效的航班和飯店組合"

  /** `re.match(r'\d{4}-\d{2}-\d{2}', key)`: the key begins with a date-shaped text;
      anything may follow it. */
  predicate StartsWithDate(key: string) {
    |key| >= 10 && DateShaped(key[..10])
  }

  // ---------------------------------------------------------------- offers

  /** `offer.get("price")`, `None` reading as `JNull`. */
  function PriceOf(offer: Json): Json {
    if offer.JObj? then GetOrNull(offer, "price") else JNull
  }

  /** Some offer in `items` carries the integer price `p`. */
  predicate Priced(items: seq<Json>, p: int) {
    exists i :: 0 <= i < |items| && PriceOf(items[i]) == JInt(p)
  }

  /** The integer prices of the offers, in order. */
  function IntPrices(items: seq<Json>): (r: seq<int>)
    ensures forall p :: p in r <==> Priced(items, p)
    decreases |items|
  {
    if |items| == 0 then []
    else
      var init := items[..|items| - 1];
      var last := items[|items| - 1];
      var rest := IntPrices(init);
      PricedSnoc(items);
      if PriceOf(last).JInt? then rest + [PriceOf(last).i] else rest
  }

  /** A price is carried by a non-empty list exactly when its front or its last offer
      carries it. */
  lemma PricedSnoc(items: seq<Json>)
    requires |items| > 0
    ensures forall p :: Priced(items, p) <==> Priced(items[..|items| - 1], p) || PriceOf(items[|items| - 1]) == JInt(p)
  {
    var init := items[..|items| - 1];
    forall p | Priced(items, p)
      ensures Priced(init, p) || PriceOf(items[|items| - 1]) == JInt(p)
    {
      var i :| 0 <= i < |items| && PriceOf(items[i]) == JInt(p);
      if i < |init| {
        assert PriceOf(init[i]) == JInt(p);
      }
    }
    forall p | Priced(init, p)
      ensures Priced(items, p)
    {
      var i :| 0 <= i < |init| && PriceOf(init[i]) == JInt(p);
      assert items[i] == init[i];
    }
  }

  /** Python's `min` of a non-empty list of integers. */
  function Minimum(xs: seq<int>): (m: int)
    requires |xs| > 0
    ensures m in xs && forall x :: x in xs ==> m <= x
  {
    if |xs| == 1 then xs[0]
    else
      var m := Minimum(xs[1..]);
      assert forall x :: x in xs ==> x == xs[0] || x in xs[1..];
      if xs[0] <= m then xs[0] else m
  }

  /** `next(o for o in items if o.get("price") == p)`: the first offer priced `p`. */
  function FirstPricedAt(items: seq<Json>, p: int): (i: nat)
    requires Priced(items, p)
    ensures i < |items| && PriceOf(items[i]) == JInt(p)
    ensures forall j :: 0 <= j < i ==> PriceOf(items[j]) != JInt(p)
  {
    if PriceOf(items[0]) == JInt(p) then 0
    else
      assert Priced(items[1..], p) by {
        var i :| 0 <= i < |items| && PriceOf(items[i]) == JInt(p);
        assert items[1..][i - 1] == items[i];
      }
      var i := FirstPricedAt(items[1..], p);
      assert forall j :: 1 <= j <= i ==> items[1..][j - 1] == items[j];
      i + 1
  }

  /** A chosen offer and its price. */
  datatype Pick = Pick(offer: Json, price: int)

  /** The least integer price among the offers and the first offer at that price. */
  function CheapestOffer(items: seq<Json>): (r: Option<Pick>)
    ensures r.None? <==> forall i :: 0 <= i < |items| ==> !PriceOf(items[i]).JInt?
    ensures r.Some? ==> exists i :: (0 <= i < |items| && items[i] == r.value.offer
      && PriceOf(items[i]) == JInt(r.value.price)
      && forall j :: 0 <= j < i ==> PriceOf(items[j]) != JInt(r.value.price))
    ensures r.Some? ==> forall i :: 0 <= i < |items| && PriceOf(items[i]).JInt? ==>
      r.value.price <= PriceOf(items[i]).i
  {
    var prices := IntPrices(items);
    if |prices| == 0 then
      assert forall i :: 0 <= i < |items| ==> !PriceOf(items[i]).JInt? by {
        forall i | 0 <= i < |items| && PriceOf(items[i]).JInt?
          ensures false
        {
          assert Priced(items, PriceOf(items[i]).i);
        }
      }
      None
    else
      var m := Minimum(prices);
      assert forall i :: 0 <= i < |items| && PriceOf(items[i]).JInt? ==> m <= PriceOf(items[i]).i by {
        forall i | 0 <= i < |items| && PriceOf(items[i]).JInt?
          ensures m <= PriceOf(items[i]).i
        {
          assert Priced(items, PriceOf(items[i]).i);
        }
      }
      var i := FirstPricedAt(items, m);
      Some(Pick(items[i], m))
  }

  /** The flight half of a date key, from the first flight record's result: a non-empty
      list of offer objects whose non-`None` prices are all integers, at least one of
      them. Anything else raises inside the `try` (or is skipped) and the key is dropped. */
  function CheapestFlight(result: Json): (r: Option<Pick>)
    ensures r.Some? <==>
      result.JArr? && AllObjects(result.items)
      && (forall i :: 0 <= i < |result.items| ==>
            PriceOf(result.items[i]).JNull? || PriceOf(result.items[i]).JInt?)
      && exists i :: 0 <= i < |result.items| && PriceOf(result.items[i]).JInt?
    ensures r.Some? ==> CheapestOffer(result.items) == r
    ensures r.Some? ==> Truthy(result)
  {
    if result.JArr? && AllObjects(result.items)
       && forall i :: 0 <= i < |result.items| ==>
            PriceOf(result.items[i]).JNull? || PriceOf(result.items[i]).JInt?
    then CheapestOffer(result.items)
    else None
  }

  /** The hotel half of a date key: offers are objects, and only integer rates count;
      a `"-"` rate is ignored. */
  function CheapestHotel(result: Json): (r: Option<Pick>)
    ensures r.Some? <==>
      result.JArr? && AllObjects(result.items)
      && exists i :: 0 <= i < |result.items| && PriceOf(result.items[i]).JInt?
    ensures r.Some? ==> CheapestOffer(result.items) == r
    ensures r.Some? ==> Truthy(result)
  {
    if result.JArr? && AllObjects(result.items) then CheapestOffer(result.items) else None
  }

  // ---------------------------------------------------------------- one key

  /** `next((r for r in records if r["tool"] == tool and "result" in r), None)`. */
  function FirstRecordOf(records: seq<ExecRecord>, tool: string): (r: Option<ExecRecord>)
    ensures r.Some? ==> r.value in records && r.value.tool == tool && Succeeded(r.value)
    ensures r.None? ==> forall i :: 0 <= i < |records| ==> !(records[i].tool == tool && Succeeded(records[i]))
    ensures r.Some? ==> exists i :: (0 <= i < |records| && records[i] == r.value
      && forall j :: 0 <= j < i ==> !(records[j].tool == tool && Succeeded(records[j])))
  {
    if |records| == 0 then None
    else if records[0].tool == tool && Succeeded(records[0]) then Some(records[0])
    else
      var r := FirstRecordOf(records[1..], tool);
      assert forall j :: 1 <= j < |records| ==> records[1..][j - 1] == records[j];
      r
  }

  /** The cost-table entry for one date key, or `None` when the key is skipped: no
      truthy flight result, no usable flight price, no truthy hotel result, no integer
      hotel rate, or no `checkout_date` argument on the hotel record. */
  function Analyze(key: string, records: seq<ExecRecord>): (r: Option<CostEntry>)
    ensures r.Some? ==> r.value.dateKey == key
    ensures r.Some? ==> r.value.totalCost == r.value.flightPrice + NIGHTS * r.value.nightlyRate
    ensures r.Some? ==>
      var f := FirstRecordOf(records, FLIGHTS);
      var h := FirstRecordOf(records, HOTELS);
      && f.Some? && h.Some?
      && CheapestFlight(ResultOf(f.value)) == Some(Pick(r.value.flight, r.value.flightPrice))
      && CheapestHotel(ResultOf(h.value)) == Some(Pick(r.value.hotel, r.value.nightlyRate))
      && "checkout_date" in h.value.params && r.value.checkout == h.value.params["checkout_date"]
    ensures
      var f := FirstRecordOf(records, FLIGHTS);
      var h := FirstRecordOf(records, HOTELS);
      (&& f.Some? && CheapestFlight(ResultOf(f.value)).Some?
       && h.Some? && CheapestHotel(ResultOf(h.value)).Some?
       && "checkout_date" in h.value.params) ==> r.Some?
  {
    match FirstRecordOf(records, FLIGHTS)
    case None => None
    case Some(f) =>
      if !Truthy(ResultOf(f)) then None
      else match CheapestFlight(ResultOf(f))
        case None => None
        case Some(flight) =>
          match FirstRecordOf(records, HOTELS)
          case None => None
          case Some(h) =>
            if !Truthy(ResultOf(h)) then None
            else match CheapestHotel(ResultOf(h))
              case None => None
              case Some(hotel) =>
                if "checkout_date" !in h.params then None
                else Some(CostEntry(key, h.params["checkout_date"], flight.offer, hotel.offer,
                  flight.price, hotel.price, flight.price + NIGHTS * hotel.price))
  }

  /** `f"{date_key} 至 {checkout_date}"`, a `None` checkout printed as `None`. */
  function DateRange(e: CostEntry): (r: string)
    ensures StartsWith(r, e.dateKey)
  {
    e.dateKey + " 至 " + e.checkout.GetOr("None")
  }

  /** `f"航班 TWD {flight} + 飯店 TWD {nightly} x 4晚"`. */
  function CostBreakdown(e: CostEntry): string {
    "航班 TWD " + IntToString(e.flightPrice) + " + 飯店 TWD " + IntToString(e.nightlyRate) + " x 4晚"
  }

  /** The `analysis` dict of one row, as `json.dumps` would see it: its five keys in
      insertion order, the date range and the cost breakdown rendered as text. */
  function RowDict(e: CostEntry): (d: Json)
    ensures d.JObj? && |d.members| == 5
    ensures Get(d, "date_range") == Some(JStr(DateRange(e)))
    ensures Get(d, "flight") == Some(e.flight) && Get(d, "hotel") == Some(e.hotel)
    ensures Get(d, "total_cost") == Some(JInt(e.totalCost))
    ensures Get(d, "cost_breakdown") == Some(JStr(CostBreakdown(e)))
  {
    var ms := [("date_range", JStr(DateRange(e))), ("flight", e.flight), ("hotel", e.hotel),
               ("total_cost", JInt(e.totalCost)), ("cost_breakdown", JStr(CostBreakdown(e)))];
    RowLookup(ms);
    JObj(ms)
  }

  /** Each of the five keys of a row finds its own value. */
  lemma RowLookup(ms: seq<(string, Json)>)
    requires |ms| == 5
    requires ms[0].0 == "date_range" && ms[1].0 == "flight" && ms[2].0 == "hotel"
    requires ms[3].0 == "total_cost" && ms[4].0 == "cost_breakdown"
    ensures Lookup(ms, "date_range") == Some(ms[0].1)
    ensures Lookup(ms, "flight") == Some(ms[1].1)
    ensures Lookup(ms, "hotel") == Some(ms[2].1)
    ensures Lookup(ms, "total_cost") == Some(ms[3].1)
    ensures Lookup(ms, "cost_breakdown") == Some(ms[4].1)
  {
    assert "date_range"[0] == 'd' && "flight"[0] == 'f' && "hotel"[0] == 'h';
    assert "total_cost"[0] == 't' && "cost_breakdown"[0] == 'c';
    LookupAt(ms, "date_range", 0);
    LookupAt(ms, "flight", 1);
    LookupAt(ms, "hotel", 2);
    LookupAt(ms, "total_cost", 3);
    LookupAt(ms, "cost_breakdown", 4);
  }

  // ---------------------------------------------------------------- the table

  /** The group is considered at all: its key is a string beginning with a date. */
  predicate DateGroup(g: Group) {
    g.key.Some? && StartsWithDate(g.key.value)
  }

  /** The entry a group contributes, if any. */
  function EntryOf(g: Group): Option<CostEntry> {
    if DateGroup(g) then Analyze(g.key.value, g.records) else None
  }

  /** The cost table: one entry per viable date key, in key order. A `None` key is
      passed over like any other key that is not a date. */
  function CostTable(groups: seq<Group>): (r: seq<CostEntry>)
    ensures |r| <= |groups|
    ensures forall i :: 0 <= i < |r| ==> StartsWithDate(r[i].dateKey)
    decreases |groups|
  {
    if |groups| == 0 then [] else CostTable(groups[..|groups| - 1]) + EntryList(groups[|groups| - 1])
  }

  /** The entries one group adds to the table: its entry, or none. */
  function EntryList(g: Group): (r: seq<CostEntry>)
    ensures |r| <= 1 && forall i :: 0 <= i < |r| ==> StartsWithDate(r[i].dateKey)
  {
    match EntryOf(g)
    case None => []
    case Some(e) => [e]
  }

  /** The table of consecutive runs of keys is the concatenation of their tables. */
  lemma {:induction false} CostTableConcat(g: seq<Group>, h: seq<Group>)
    ensures CostTable(g + h) == CostTable(g) + CostTable(h)
    decreases |h|
  {
    if |h| == 0 {
      assert g + h == g;
    } else {
      var h' := h[..|h| - 1];
      assert (g + h)[..|g + h| - 1] == g + h';
      assert (g + h)[|g + h| - 1] == h[|h| - 1];
      CostTableConcat(g, h');
      AppendAssoc(CostTable(g), CostTable(h'), EntryList(h[|h| - 1]));
    }
  }

  /** One group contributes exactly its entry, or nothing. */
  lemma CostTableOne(g: Group)
    ensures CostTable([g]) == match EntryOf(g) case None => [] case Some(e) => [e]
  {
    assert [g][..0] == [];
  }

  /** The index the loop's `if total_cost < min_total_cost` update settles on: the first
      entry of least total cost. */
  function Cheapest(table: seq<CostEntry>): (r: nat)
    requires |table| > 0
    ensures r < |table|
    ensures forall j :: 0 <= j < |table| ==> table[r].totalCost <= table[j].totalCost
    ensures forall j :: 0 <= j < r ==> table[j].totalCost > table[r].totalCost
    decreases |table|
  {
    if |table| == 1 then 0
    else
      var init := table[..|table| - 1];
      var b := Cheapest(init);
      assert forall j :: 0 <= j < |init| ==> init[j] == table[j];
      if table[|table| - 1].totalCost < table[b].totalCost then |table| - 1 else b
  }

  /** The rows of `cost_analysis`, one fresh dict per entry. */
  function Rows(table: seq<CostEntry>): (rows: seq<Itinerary>)
    ensures |rows| == |table| && forall i :: 0 <= i < |table| ==> rows[i] == Row(table[i])
  {
    seq(|table|, i requires 0 <= i < |table| => Row(table[i]))
  }

  /** `find_best_option` with `None` keys passed over: with a viable key, the first
      cheapest entry's row becomes the itinerary (the same dict, shared with the table),
      its total the global score, and the rows of the whole table the cost analysis;
      with none, the itinerary becomes a new error object and the score and analysis
      stay as they were. Nothing else changes. */
  function FindBestOption(state: PlanningState): (r: PlanningState)
    ensures r.(finalItinerary := state.finalItinerary, globalScore := state.globalScore,
               costAnalysis := state.costAnalysis, sharedRow := state.sharedRow) == state
    ensures Shared(r)
    ensures CostTable(state.searchResults) == [] ==>
      r == state.(finalItinerary := Itinerary(NoViableOption(NO_VIABLE_OPTION), None, None), sharedRow := None)
    ensures CostTable(state.searchResults) != [] ==>
      var table := CostTable(state.searchResults);
      && r.costAnalysis.Some? && |r.costAnalysis.value| == |table|
      && (forall i :: 0 <= i < |table| ==> r.costAnalysis.value[i] == Row(table[i]))
      && r.sharedRow.Some?
      && r.sharedRow == Some(Cheapest(table))
      && r.finalItinerary == Row(table[Cheapest(table)])
      && (forall j :: 0 <= j < Cheapest(table) ==> table[j].totalCost > r.finalItinerary.base.entry.totalCost)
      && r.finalItinerary.base.BestOption?
      && r.finalItinerary.creativePlan.None? && r.finalItinerary.errorMessage.None?
      && r.globalScore == Some(r.finalItinerary.base.entry.totalCost)
      && r.finalItinerary.base.entry in table
      && forall e :: e in table ==> r.finalItinerary.base.entry.totalCost <= e.totalCost
  {
    var table := CostTable(state.searchResults);
    if |table| == 0 then
      state.(finalItinerary := Itinerary(NoViableOption(NO_VIABLE_OPTION), None, None), sharedRow := None)
    else
      var k := Cheapest(table);
      var best := table[k];
      state.(finalItinerary := Row(best), globalScore := Some(best.totalCost),
             costAnalysis := Some(Rows(table)), sharedRow := Some(k))
  }

  /** Ties go to the earliest key: an entry that an earlier entry matches in total cost
      is never the one chosen. */
  lemma EarliestTieWins(table: seq<CostEntry>, i: nat, j: nat)
    requires i < j < |table| && table[i].totalCost == table[j].totalCost
    ensures Cheapest(table) != j
  {
  }

  // ---------------------------------------------------------------- as written

  const NONE_KEY_ERROR := "TypeError: expected string or bytes-like object, got 'NoneType'"

  /** `find_best_option` as written: the date-key test runs `re.match` on each key
      before the `try`, so a `None` key raises `TypeError` out of the whole step. */
  function FindBestOptionAsWritten(state: PlanningState): (r: Result<PlanningState, string>)
    ensures r.Failure? <==> exists i :: 0 <= i < |state.searchResults| && state.searchResults[i].key.None?
    ensures r.Success? ==> r.value == FindBestOption(state)
  {
    if exists i :: 0 <= i < |state.searchResults| && state.searchResults[i].key.None? then
      Failure(NONE_KEY_ERROR)
    else Success(FindBestOption(state))
  }

  /** A flight step that repeats `departure_date`, first with a date and then empty. */
  const REPEATED_DATE_BINDS: seq<(string, Option<string>)> :=
    [("departure_city", Some("台北")), ("destination_city", Some("東京")),
     ("departure_date", Some("2025-12-01")), ("departure_date", Some(""))]

  lemma RepeatedDateRenderable()
    ensures Renderable(FLIGHTS, REPEATED_DATE_BINDS)
  {
    var b := REPEATED_DATE_BINDS;
    CleanByCharacters(b[0]);
    CleanByCharacters(b[1]);
    CleanByCharacters(b[2]);
    CleanByCharacters(b[3]);
    assert forall x :: x in b ==> x == b[0] || x == b[1] || x == b[2] || x == b[3];
  }

  lemma RepeatedDateBindings()
    ensures GroupKey(BindAll(REPEATED_DATE_BINDS)) == None
  {
    var b := REPEATED_DATE_BINDS;
    var m := BindAll(b);
    assert m["departure_date"] == Some("");
    assert |b[0].0| == 14 && |b[1].0| == 16 && |b[2].0| == 14 && |b[3].0| == 14;
    assert "checkin_date" !in m;
    assert "destination" !in m;
  }

  /** Decoding that step gives an empty date, the later binding winning, and its record
      has no usable grouping key. */
  lemma RepeatedDateHasNoKey()
    ensures GroupKey(DecodeParams(RenderStep(FLIGHTS, REPEATED_DATE_BINDS))) == None
  {
    RepeatedDateRenderable();
    DecodeRenderedStep(FLIGHTS, REPEATED_DATE_BINDS);
    RepeatedDateBindings();
  }

  /** The record the flight adapter's `{"error": ...}` answer to an empty date leaves. */
  const EMPTY_DATE_RECORD := ExecRecord(FLIGHTS,
    map["departure_city" := Some("台北"), "destination_city" := Some("東京"), "departure_date" := Some("")],
    Returned(SearchJson(Error(FlightSearch.BAD_DATE))))

  lemma EmptyDateRecordGrouping()
    ensures GroupRecords([EMPTY_DATE_RECORD]) == [Group(None, [EMPTY_DATE_RECORD])]
  {
    assert GroupKey(EMPTY_DATE_RECORD.params) == None;
    assert [EMPTY_DATE_RECORD][..0] == [];
  }

  /** That record lands under the `None` key; the selection as written then raises,
      while the corrected selection passes the key over and reports no viable option. */
  lemma NoneKeyCrashes()
    ensures
      var state := InitialState("十二月 東京").(executionHistory := [EMPTY_DATE_RECORD],
        searchResults := GroupRecords([EMPTY_DATE_RECORD]));
      && FindBestOptionAsWritten(state) == Failure(NONE_KEY_ERROR)
      && FindBestOption(state).finalItinerary.base == NoViableOption(NO_VIABLE_OPTION)
  {
    EmptyDateRecordGrouping();
    var state := InitialState("十二月 東京").(executionHistory := [EMPTY_DATE_RECORD],
      searchResults := GroupRecords([EMPTY_DATE_RECORD]));
    OnlyNoneKey(state, [EMPTY_DATE_RECORD]);
  }

  /** A state whose only bucket has the `None` key: the selection as written raises,
      the corrected one finds no viable option. */
  lemma OnlyNoneKey(state: PlanningState, records: seq<ExecRecord>)
    requires state.searchResults == [Group(None, records)]
    ensures FindBestOptionAsWritten(state) == Failure(NONE_KEY_ERROR)
    ensures FindBestOption(state).finalItinerary.base == NoViableOption(NO_VIABLE_OPTION)
  {
    CostTableOne(Group(None, records));
    assert state.searchResults[0].key.None?;
  }
}
