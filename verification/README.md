# Travel planner core, modelled in Dafny

This project models the deterministic core of a travel planner for trips to Tokyo. The
planner takes a free-text request such as "十二月 東京 五天四夜 動漫 美食" and proceeds in stages:

1. It asks a language model for a search plan. The plan is a list of tool-call strings such as
   `search_flights(departure_city="台北", ..., departure_date="2025-12-01")`.
2. It validates the dates in each step (`PlannerAgent.generate_initial_plan`).
3. It runs each step against the flight, hotel and attraction search tools, logs every
   outcome and groups the successful ones by date (`execute_plan`).
4. It picks the cheapest date whose flight and hotel offers both have prices
   (`find_best_option`). The total cost is the flight price plus four nights at the hotel rate.
5. It asks the model to dress the chosen option up as a themed itinerary, merging the reply
   back in (`optimize_itinerary`).

Next to that pipeline, a scripted runner (`test.py`) works without a language model:

- It reads the month and the trip length from the request (`_parse_month`, `_extract_len_nights`).
- It picks the first day of that month that is not yet past (`_first_future_day_in_month`,
  `normalize_dates`).
- It builds a fixed two-call plan (`synth_plan`) and runs it (`run_plan`).

The two search tools are modelled up to their network call:

- `tools/search_hotel.py` checks its request, sorts the hotels by a configurable key with
  Python's stable `sorted`, keeps five, and projects each to six fields.
- `tools/search_flights.py` normalises the dates, maps city names to airport codes,
  concatenates best and other flights, keeps five, and projects each to seven fields. Prices
  are multiplied by 30.

The language model, `json.loads`, the search engine, the clock, the environment's API key and
`dateutil.parse` are all parameters: functions from inputs to replies. Every property holds
for every behaviour those collaborators may have.

Module layout:

- `Wrappers`: `Option` and `Result`.
- `Text`: substring search, splitting, stripping, decimal digits.
- `Json`: decoded JSON values and the Python operations on them, such as `dict.get`,
  truthiness, `or`, `str` and iteration.
- `Calendar`: proleptic Gregorian dates, `strptime("%Y-%m-%d")` and `strftime`.
- `Sequences`: subsequences, de-duplication and element-wise results.
- `State`: `PlanningState` and the values stored in it.
- `PlanValidation`: `generate_initial_plan` after the model call.
- `Executor`: `execute_plan`.
- `Selector`: `find_best_option`.
- `Narrative`: `optimize_itinerary` around the model call.
- `QueryDates` and `ScriptedRun`: the scripted runner.
- `HotelSearch` and `FlightSearch`: the tools.

Three behaviours of the code worth noting:

- Unresolvable tool names: a step whose tool name resolves to no tool is skipped before its
  `try`, and it leaves no record. The execution log is therefore at most as long as the plan,
  and exactly as long only when every tool name resolves (`Executor.ExecuteResolved`).
- Unkeyed records: a successful record with no date and no destination is not dropped from the
  grouping. It is filed under Python's `None` key (main.py:170-173). That key then makes the
  selection raise; this is Finding 1 below.
- Replies that parse but are not well-formed: only a JSON decode error of the plan reply falls
  back to an empty plan. A reply that decodes to something other than an object, or whose
  `plan` cannot be iterated as strings, raises out of `generate_initial_plan`.

`find_best_option` stores the chosen dict both as `final_itinerary` and as one row of
`cost_analysis` (main.py:457-460). The state model does not copy on assignment, so the
narration's later writes to `final_itinerary` (main.py:274-294) also show in that row. The
model records the shared row as `PlanningState.sharedRow`, and `State.SetItinerary` writes
through both views.

## Model

| member | source | states |
|---|---|---|
| Calendar.Strptime | main.py:39-45 | a date string is accepted only as a real calendar date with a year of at most four digits |
| Calendar.ShapedDateValidity | main.py:39-45 | a `YYYY-MM-DD`-shaped string is a valid date exactly when its month is 1..12 and its day is within that month's length, and then it denotes those fields |
| Calendar.FormatRoundTrip | test.py:77-82 | formatting a valid date as `%Y-%m-%d` and parsing it back gives the same date |
| Calendar.NextDay | test.py:52-53 | adding one day gives a valid later date with no valid date in between |
| Calendar.AddDays | test.py:76 | adding `n` days to a valid date gives a valid date, the same one for `n = 0` and a later one otherwise |
| PlanValidation.QuotedDateIndex | main.py:98 | the regex search finds the leftmost `key="YYYY-MM-DD"` occurrence, and reports none only when there is none |
| PlanValidation.ValidatePlan | main.py:94-120 | the validated plan is the subsequence of the steps that pass the tool-specific date checks, each kept with its full multiplicity and nothing else kept |
| PlanValidation.FencedReply | main.py:87 | a reply wrapped in a json code fence is decoded from the text inside the fence |
| PlanValidation.UnfencedReply | main.py:87 | a reply with no fence is only stripped of surrounding whitespace |
| PlanValidation.GenerateInitialPlan | main.py:87-127 | an undecodable reply gives an empty plan; a decoded reply that is not an object, or whose `plan` cannot be iterated as strings, raises, and only then; otherwise the stored plan is the validated plan of its steps and nothing else changes |
| PlanValidation.StringPlanIsEmpty | main.py:91-95 | a plan given as a single string is iterated by character and validates to nothing |
| Executor.ToolName | main.py:138 | the tool name is the longest prefix of the step without an opening parenthesis |
| Executor.DecodePiece | main.py:148-149 | a parameter piece binds a key only when it contains `=`, and the key is the text before the first `=` |
| Executor.BindingsLastWins | main.py:147-154 | when a key is bound several times, the decoded parameters hold its last binding |
| Executor.CallParts | main.py:138-145 | a step `name(body)` whose name has no parenthesis splits back into that name and that body |
| Text.StripWrapped | main.py:151 | stripping a quote character from a value wrapped in it gives back the value, when the value neither starts nor ends with that character |
| Executor.BodyBindings | main.py:145-154 | the argument text of rendered `k="v"` pieces decodes to those bindings |
| Executor.DecodeRenderedStep | main.py:138-154 | decoding a rendered `name(k="v", ...)` step gives back its tool name and its arguments, `None` included |
| Executor.RunStep | main.py:156-162 | the logged record carries the decoded name and arguments and exactly the adapter's outcome |
| Executor.ExecuteSteps | main.py:134-162 | the log has at most one record per plan step |
| Executor.LoggedRecords | main.py:134-162 | every logged record names a resolvable tool and holds the adapter's outcome for its arguments |
| Executor.ExecuteConcat | main.py:134-162 | running two plans in sequence logs the concatenation of their logs |
| Executor.ExecuteOne | main.py:134-162 | one step logs one record when its tool resolves and none otherwise |
| Executor.ExecuteResolved | main.py:134-162 | when every tool resolves, record `i` of the log is the outcome of step `i` |
| Executor.GroupKey | main.py:170 | the grouping key is a truthy `departure_date`, else a truthy `checkin_date`, else `destination`, and is `None` exactly when none applies |
| Executor.RecordsWithKey | main.py:168-173 | a bucket holds only successful records with its key, in log order |
| Executor.AddToGroup | main.py:171-173 | appending to a bucket keeps the keys distinct, opens a bucket only for a new key, and leaves the other buckets alone |
| Executor.GroupRecords | main.py:167-173 | the buckets are keyed by the distinct keys of the successful records in first-seen order, each holding exactly that key's successful records |
| Executor.GroupsCoverSuccesses | main.py:167-173 | every successful record's key has a bucket |
| Executor.ExecutePlan | main.py:129-174 | the history is replaced by the log of the plan, with every record naming a resolvable tool and holding its outcome; the buckets are rebuilt from that history, keyed by its distinct success keys in first-seen order and holding exactly each key's successful records; nothing else changes |
| Selector.IntPrices | main.py:404-405 | the prices collected are exactly the integer prices of the offers |
| Selector.Minimum | main.py:409 | the minimum is one of the prices and at most every other |
| Selector.FirstPricedAt | main.py:410-411 | the offer chosen for a price is the first offer carrying it |
| Selector.CheapestOffer | main.py:404-411 | there is no cheapest offer exactly when no offer has an integer price; otherwise it is the first offer with the least price |
| Selector.CheapestFlight | main.py:397-411 | a flight offer is chosen exactly when the result is a list of objects whose prices are integers or absent, at least one an integer, and then it is the cheapest |
| Selector.CheapestHotel | main.py:414-429 | a hotel offer is chosen exactly when the result is a list of objects with some integer rate, other rates being ignored, and then it is the cheapest |
| Selector.FirstRecordOf | main.py:397 | the record used is the first successful record of that tool in the bucket |
| Selector.Analyze | main.py:395-442 | a bucket yields an entry exactly when its first flight record and first hotel record both have a cheapest usable offer and the hotel record has a `checkout_date`; the entry pairs those offers, with the total equal to the flight price plus four nightly rates |
| Selector.DateRange | main.py:436 | the date range starts with the date key |
| Selector.RowDict | main.py:435-441 | a row renders as a five-key dict holding the date range, both offers, the total and the cost breakdown, each under its own key |
| Selector.CostTable | main.py:389-442 | there is at most one entry per bucket, and every entry's key has the date shape |
| Selector.CostTableConcat | main.py:389-442 | the cost table of concatenated buckets is the concatenation of their tables |
| Selector.CostTableOne | main.py:389-442 | a single bucket contributes its entry exactly when it is a viable date |
| Selector.Cheapest | main.py:444-447 | the chosen entry has the least total, and every earlier entry costs strictly more |
| Selector.FindBestOption | main.py:444-463 | with no viable date the itinerary is a new no-option error shared with no row; otherwise the cost analysis holds one row per table entry, and the itinerary is the row of the first cheapest entry (every earlier entry costs strictly more), shares that row, and its total is the score |
| State.SetItinerary | main.py:274 | a write to the itinerary is also a write to the cost-analysis row it shares, and leaves every other row as it was |
| Selector.EarliestTieWins | main.py:445-447 | of two entries with equal totals, the later one is never chosen |
| Selector.FindBestOptionAsWritten | main.py:389-393 | the selection as written raises exactly when some bucket has the `None` key, and otherwise agrees with the corrected selection |
| Selector.RepeatedDateHasNoKey | main.py:147-170 | a flight step that repeats `departure_date` with an empty value decodes to arguments with no grouping key |
| Selector.EmptyDateRecordGrouping | main.py:168-173 | a successful record without a usable key lands in a bucket keyed `None` |
| Selector.OnlyNoneKey | main.py:389-393 | when the only bucket has the `None` key, the selection as written raises and the corrected one reports no viable option |
| Selector.NoneKeyCrashes | main.py:389-393 | with that bucket the selection as written raises, while the corrected one reports no viable option |
| Narrative.BucketRecords | main.py:192 | the attraction records are those of the first bucket keyed 東京, or none |
| Narrative.Spots | main.py:195-200 | the spots collected are all objects |
| Narrative.SpotsConcat | main.py:195-200 | the spots of a log are those of its first part followed by those of the rest |
| Narrative.SpotsOne | main.py:196-200 | a record contributes the objects of its result list exactly when it is a successful attraction search for the interest |
| Narrative.ObjectsInConcat | main.py:195-200 | the objects of a list are kept in order, part by part |
| Narrative.Highlights | main.py:207-208 | there are at most five highlights, the first spots' titles and snippets in order |
| Narrative.InputOf | main.py:203-209 | the language model sees the query, the current itinerary, the stored cost table, and for each interest the highlights of the spots collected from the 東京 bucket |
| Narrative.ExtractBraces | main.py:271-277 | the extracted block runs from the first `{` to the last `}`, and there is none exactly when no `{` precedes a `}` |
| Narrative.ExtractFromChatter | main.py:271-277 | a JSON object surrounded by brace-free commentary is extracted exactly |
| Narrative.MergeReply | main.py:271-294 | the base itinerary is never changed; no block or an unparsable block sets the matching error message and keeps the score; a parsed block becomes the creative plan and the score is the itinerary's total; the cost-analysis row shared with the itinerary shows the same change, and no other row changes |
| Narrative.OptimizeItinerary | main.py:185-296 | an itinerary carrying an error passes through untouched; otherwise the reply to this input is merged; only the itinerary, the score and the shared cost-analysis row change |
| Narrative.NarrationReachesChosenRow | main.py:442-460 | after a selection with a viable option, the narrated itinerary and the chosen cost-analysis row are equal, and the itinerary keeps the selected entry |
| Narrative.AsWrittenAgrees | main.py:195-208 | when every attraction result is a list of objects, the step as written agrees with the corrected one |
| Narrative.ErrorPayloadCrashes | main.py:195-208 | an attraction search that answered `{"error": ...}` makes the step as written raise, while the corrected one collects no spots |
| QueryDates.CnMonth | test.py:39-48 | a Chinese month name maps to a month in 1..12 |
| QueryDates.CnName | test.py:39 | every month has a Chinese name of one or two numerals that maps back to it |
| QueryDates.MonthTokenAt | test.py:42 | a month token is one to three Chinese numerals or one to two digits, followed by 月 |
| QueryDates.MonthTokenFound | test.py:42 | a run of one to three numerals, or of one or two digits, followed by 月 is matched at its start with the whole run as the token |
| QueryDates.MonthMatch | test.py:42-43 | the month regex finds the leftmost position where a month token matches |
| QueryDates.ParseMonth | test.py:41-48 | a parsed month is in 1..12, and there is none when no token matches |
| QueryDates.ParseDigitMonth | test.py:41-47 | a request naming a month in digits before 月 parses to that month |
| QueryDates.ParseCnMonth | test.py:41-48 | a request naming a month in Chinese numerals before 月 parses to that month |
| QueryDates.FirstFutureDay | test.py:50-57 | the result is in the given month; every earlier day of the month is past; it is not past unless the whole month is past, and then it is the first |
| QueryDates.FirstFutureDayUnique | test.py:50-57 | at most one day of the month meets that description, so the walk's result is determined by it |
| QueryDates.FirstDaysNights | test.py:60 | the search finds the leftmost `<digits>天<digits>夜` |
| QueryDates.FirstDays | test.py:63 | the search finds the leftmost `<digits>天` |
| QueryDates.ExtractNights | test.py:59-67 | the nights are never negative, at least one when only days are given, and absent when neither pattern occurs |
| QueryDates.NightsOfFirstMatch | test.py:60-62 | when the first `N天M夜` match reads `D天N夜`, the nights are `N`, whatever else the request holds |
| QueryDates.NightsOfFirstDays | test.py:63-66 | with no `N天M夜` match, when the first `N天` match reads `D天`, the nights are `max(1, D-1)` |
| QueryDates.DaysNightsIn | test.py:60-62 | a request stating `D天N夜` gives `N` nights |
| QueryDates.DaysIn | test.py:59-66 | a request whose only digits are one `D天` gives `max(1, D-1)` nights |
| QueryDates.NightsOfDays | test.py:63-66 | a request stating only `D天` gives `max(1, D-1)` nights |
| QueryDates.NormalizeDates | test.py:69-82 | departure equals check-in and return equals check-out; check-in is the one day of the requested (else current) month that is the first not yet past, or the 1st when the whole month is past; check-out is the chosen number of nights later; both texts are the zero-padded `YYYY-MM-DD` forms; the overflow is reported exactly when that check-out passes the year 9999 |
| QueryDates.Nights | test.py:75 | the trip length is the extracted nights when positive and four otherwise |
| ScriptedRun.ImportMessage | test.py:127-138 | the message names the import error, or `unknown` when there is none |
| ScriptedRun.RunTool | test.py:126-145 | a loaded tool records its data or its error with the arguments, and a tool that failed to load records the import error |
| ScriptedRun.RunCall | test.py:123-147 | the call's name picks the tool, its arguments default to `{}`, and any other name is recorded as unsupported |
| ScriptedRun.RunPlan | test.py:121-148 | a plan of call objects yields one entry per call; a call that is not an object raises |
| ScriptedRun.RunPlanEntries | test.py:121-148 | each entry is the outcome of its own call |
| ScriptedRun.SynthPlan | test.py:87-116 | the scripted plan is two call objects |
| ScriptedRun.ScriptedRunEntries | test.py:87-148 | running the scripted plan records the flight search and then the hotel search over the trip's dates |
| Json.SearchJson | tools/search_hotel.py:117-124 | a tool reply is a list exactly when it carries offers, and otherwise a single-key `{"error": message}` object |
| HotelSearch.CheckRequest | tools/search_hotel.py:33-57 | a request is accepted exactly when the key is set, the sort field and order are known, and the check-in date is not past and precedes the check-out date; the missing key, the sort field, the sort order, the date format and the date order each report their own message, in that order |
| HotelSearch.LtOrder | tools/search_hotel.py:93-103 | the sort-key order is strict and total, and negation reverses it |
| HotelSearch.SortValue | tools/search_hotel.py:95-99 | a missing field sorts as the given infinity, an integer as itself, and anything else cannot be compared |
| HotelSearch.SortKey | tools/search_hotel.py:93-101 | the price key is the lowest rate, `+inf` when missing; the rating and review keys are the value, `-inf` when missing; a descending sort negates the key; the key fails exactly when the value present is not an integer or the rate is not an object |
| HotelSearch.SortKeys | tools/search_hotel.py:103 | the keys are computed hotel by hotel and fail when one does |
| HotelSearch.Insert | tools/search_hotel.py:103 | inserting an index lengthens the order by one, and every entry is either the new index or one already there |
| HotelSearch.InsertPermutes | tools/search_hotel.py:103 | inserting an index adds exactly that index to the order, as a multiset |
| HotelSearch.InsertSorted | tools/search_hotel.py:103 | inserting a later index into a stably sorted order keeps it stably sorted |
| HotelSearch.SortOrder | tools/search_hotel.py:103 | the order of the first `n` hotels has `n` entries, all indices below `n` |
| HotelSearch.SortOrderComplete | tools/search_hotel.py:103 | the order lists every index of the prefix |
| HotelSearch.SortOrderSorted | tools/search_hotel.py:103 | the order is stably sorted: smaller keys first, equal keys in input order |
| HotelSearch.SortOrderDistinct | tools/search_hotel.py:103 | the order lists no index twice |
| HotelSearch.TopIndices | tools/search_hotel.py:103 | at most five indices are kept, stably sorted, and each precedes every index left out |
| HotelSearch.Project | tools/search_hotel.py:106-115 | a projected hotel is a six-field object |
| HotelSearch.ProjectedFields | tools/search_hotel.py:106-115 | a hotel is projected exactly when its `total_rate` and `gps_coordinates` are objects or absent; then each of the six fields holds the hotel's value or `-`, and the address joins latitude and longitude |
| HotelSearch.ProjectAll | tools/search_hotel.py:106-115 | projecting a list projects every hotel in order, failing when one fails |
| HotelSearch.Rank | tools/search_hotel.py:103-115 | a ranking has at most five entries and needs comparable keys |
| HotelSearch.RankEntries | tools/search_hotel.py:103-115 | entry `x` of the ranking is the projection of the `x`-th kept hotel |
| HotelSearch.TopAscending | tools/search_hotel.py:103 | the kept positions come in non-decreasing key order |
| HotelSearch.PriceAscending | tools/search_hotel.py:93-103 | ascending by price, kept hotels appear in non-decreasing price with unpriced ones last |
| HotelSearch.UnpricedKey | tools/search_hotel.py:95 | a hotel without a rate sorts as infinitely expensive |
| HotelSearch.HandleReply | tools/search_hotel.py:72-124 | an API error, a reply without hotels, a network error and other failures each give their message; a truthy `properties` list is answered with its ranking, or with the ranking's error |
| HotelSearch.RankedReply | tools/search_hotel.py:93-115 | a reply listing hotels is answered with a list exactly when the ranking succeeds, and entry `x` is the projection of the hotel at the `x`-th kept position of the stable sort |
| HotelSearch.SearchHotels | tools/search_hotel.py:22-124 | a rejected request answers with its check's message without calling the engine; otherwise the engine's reply to the request's parameters is shaped |
| FlightSearch.AirportCode | tools/search_flights.py:14-18 | 東京, 大阪 and 台北 map to NRT, KIX and TPE, and any other city to itself |
| FlightSearch.NormaliseDates | tools/search_flights.py:36-41 | normalisation fails exactly when the departure date fails or a given return date fails; an absent return date is passed through |
| FlightSearch.ParamsFields | tools/search_flights.py:47-65 | the query asks for a round trip exactly when a return date is given, between the two airport codes on the departure date |
| FlightSearch.Plus | tools/search_flights.py:77 | `+` concatenates two lists or two strings and otherwise gives a number or a type error |
| FlightSearch.Head | tools/search_flights.py:77 | `[:n]` keeps the first `n` items of a list or string and fails on anything else |
| FlightSearch.Times | tools/search_flights.py:96 | repeating a sequence `k` times gives a `k`-fold periodic copy of it |
| FlightSearch.Scale | tools/search_flights.py:96 | `* 30` multiplies a number, repeats a string or a list, and raises exactly on `None` and objects |
| FlightSearch.FirstSegment | tools/search_flights.py:81-84 | a flight with no segments, or an empty first segment, has all segment fields `None` |
| FlightSearch.SegmentOf | tools/search_flights.py:84-92 | a false first segment gives all fields `None`, a true non-object raises; an object gives its `airline` and `flight_number` and the `time` of each true airport (`None` for a false one), failing exactly when an airport is a true non-object |
| FlightSearch.Stops | tools/search_flights.py:98 | the stop count is the number of layovers, zero when absent |
| FlightSearch.EntryFields | tools/search_flights.py:93-101 | each of the seven offer fields holds the value it is built from |
| FlightSearch.Offer | tools/search_flights.py:80-101 | a flight that is not an object raises, and an offer is a seven-field object |
| FlightSearch.OfferFields | tools/search_flights.py:93-101 | an offer's price is thirty times the flight's, its duration the flight's, its stops the number of layovers, and its airline, flight number and two times those of the first segment |
| FlightSearch.OfferFromFirstSegment | tools/search_flights.py:81-101 | for a flight whose first segment is an object, the offer carries that segment's airline and flight number and the times of its two airports |
| FlightSearch.UnpricedFlightRaises | tools/search_flights.py:96 | a flight without a price raises a `TypeError` |
| FlightSearch.OnlyFirstSegmentCounts | tools/search_flights.py:81-92 | two flights that differ only after their first segment give the same offer |
| FlightSearch.Offers | tools/search_flights.py:79-101 | the offers are the flights' offers in order, failing when one fails |
| FlightSearch.ToProcess | tools/search_flights.py:77 | at most five flights are processed |
| FlightSearch.HandleReply | tools/search_flights.py:67-108 | network, decode, API and not-found failures each give their message, other exceptions escape, and a list has at most five offers |
| FlightSearch.BestFlightsFirst | tools/search_flights.py:74-103 | the reply is shaped exactly when each of the first five of the best flights followed by the other flights has an offer, and then the offers are those flights' offers in order |
| FlightSearch.EmptyListsGiveNoOffers | tools/search_flights.py:74-77 | empty best and other lists give an empty offer list rather than an error |
| FlightSearch.SearchFlights | tools/search_flights.py:27-108 | a bad date and then a missing key are reported before the engine is called; otherwise the engine's reply to the airport-coded query is shaped |

## Left out

- The language-model calls and their prompts (main.py:47-85, main.py:210-266) are left out. Their replies are parameters; the model relies on no property of them.
- `json.loads` is a parameter, and decoded values are the `Json` datatype. JSON numbers are integers only: floating-point prices are not modelled, nor are booleans counted as integers in comparisons.
- `float('inf')` in the hotel sort key is the `ExtInt` value `PosInf` or `NegInf`.
- Network access, the SerpApi client, `requests`, `load_dotenv`, `os.getenv`, logging and all printing are left out. The engine's reply and the API key are parameters.
- `datetime.now()` and `date.today()` are left out; the current moment is a parameter.
- `dateutil.parse` is a parameter. Its `OverflowError`, which the flight tool does not catch, is not modelled.
- Python's `\d` also matches non-ASCII decimal digits; the model accepts ASCII digits only.
- `Json.Repr` and `Json.PyStr` do not escape quotes and backslashes inside strings the way Python's `repr` does.
- HotelSearch.BadSortBy: the set of valid fields is rendered in one fixed order, while Python prints a set in hash order.
- HotelSearch.SortKey: it fails as soon as a present sort value is not an integer. Python fails only when such a value is actually compared with a number, so a list whose keys are all strings sorts in Python but fails in the model.
- The text of exceptions that escape is approximated by a fixed message per kind (for example `KeyError` on `flights[0]` for an object is reported as `0`).
- Narrative.Highlights: each highlight line is kept as its title and snippet values rather than formatted into text.
- PlanValidation.PlanSteps: a plan list holding non-string items is reported as raising. Python would raise only for some item types, and would test membership in dicts and lists.
- The dynamic tool loading of `test.py` (test.py:13-34) is left out; its outcome is the `ScriptedRun.Tool` parameter. `main()` and the `__main__` blocks are left out as demonstration code.
- `app.py`, `tools/dispatcher.py`, `tools/tool_spec.py` and `tools/search_attractions.py` are not part of this model. An attraction tool is any adapter behaviour. `state/model.py` is mirrored as the `State` datatype without its pydantic validation.
- The fixed four-night multiplier in the cost formula (main.py:432) is modelled as written, and is not derived from the stay's dates.

## Findings

| source | as written | input that shows it | evidently intended | confidence | as-written member | corrected member |
|---|---|---|---|---|---|---|
| main.py:389-393 | every grouping key is passed to `re.match` before the `try`, and a `None` key raises `TypeError` out of `find_best_option` | a flight step whose `departure_date` is repeated, the second time empty; its record is filed under `None` | keys that are not dates, `None` included, are skipped like the 東京 key | not executed | Selector.FindBestOptionAsWritten, Selector.NoneKeyCrashes | Selector.FindBestOption |
| main.py:195-208 | every attraction result is `extend`ed into the spot list, so the `{"error": ...}` object of a failed search adds the string `"error"`, and `spot.get` raises `AttributeError` | an attraction record in the 東京 bucket whose result is `{"error": "搜尋景點失敗"}` | only lists of spot objects contribute highlights | not executed | Narrative.OptimizeItineraryAsWritten, Narrative.ErrorPayloadCrashes | Narrative.OptimizeItinerary, Narrative.AsWrittenAgrees |
