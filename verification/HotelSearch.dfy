/** The hotel search tool around its search-engine call: argument checks in a fixed
    order, the error shapes of the reply, the stable sort on a sentinel-extended key,
    the first five properties and their projection with `"-"` defaults. The engine, the
    API key and the current moment are parameters. */
module HotelSearch {
  import opened Wrappers
  import opened Text
  import opened Json
  import opened Sequences
  import opened Calendar

  /** The tool's arguments (`HotelSearchInput`). */
  datatype HotelRequest = HotelRequest(
    destination: string,
    checkin: string,
    checkout: string,
    sortBy: string,
    sortOrder: string)

  /** `datetime.now()`: a calendar day and the microseconds elapsed since its midnight. */
  datatype Moment = Moment(day: Date, micros: nat)

  /** The value the key falls back to when `SERPAPI_API_KEY` is unset. */
  const PLACEHOLDER_KEY := "YOUR_SERPAPI_API_KEY"
  const MISSING_KEY := "⚠️ 請先設定 SERPAPI_API_KEY 在 .env 檔案"
  const BAD_DATES := "入住日期必須為未來，且退房日期必須晚於入住日期"
  const BAD_DATE_FORMAT := "日期格式必須為 YYYY-MM-DD"
  /** How the set of sort fields prints in the message; Python's set order may vary. */
  const SORT_FIELDS := "{'price', 'rating', 'reviews'}"
  const MAX_RESULTS := 5
  const DASH := JStr("-")

  function BadSortBy(sortBy: string): string {
    "無效的排序欄位：" + sortBy + "，必須是 " + SORT_FIELDS
  }

  function BadSortOrder(sortOrder: string): string {
    "無效的排序順序：" + sortOrder + "，必須是 'asc' 或 'desc'"
  }

  function NoProperties(destination: string): string {
    "在 " + destination + " 找不到符合日期的飯店資訊。"
  }

  predicate ValidSortBy(sortBy: string) {
    sortBy == "price" || sortBy == "rating" || sortBy == "reviews"
  }

  predicate ValidSortOrder(sortOrder: string) {
    sortOrder == "asc" || sortOrder == "desc"
  }

  /** Midnight of `d` (what `strptime` yields) is earlier than `now`. */
  predicate StartsBefore(d: Date, now: Moment) {
    Before(d, now.day) || (d == now.day && now.micros > 0)
  }

  /** The checks before the request, in the order the tool makes them: the first that
      fails gives the error message. */
  function CheckRequest(req: HotelRequest, apiKey: Option<string>, now: Moment): (r: Option<string>)
    ensures apiKey.GetOr(PLACEHOLDER_KEY) == PLACEHOLDER_KEY <==> r == Some(MISSING_KEY)
    ensures r.None? <==>
      && apiKey.GetOr(PLACEHOLDER_KEY) != PLACEHOLDER_KEY
      && ValidSortBy(req.sortBy) && ValidSortOrder(req.sortOrder)
      && Strptime(req.checkin).Some? && Strptime(req.checkout).Some?
      && !StartsBefore(Strptime(req.checkin).value, now)
      && Before(Strptime(req.checkin).value, Strptime(req.checkout).value)
    ensures apiKey.GetOr(PLACEHOLDER_KEY) != PLACEHOLDER_KEY && !ValidSortBy(req.sortBy) ==>
      r == Some(BadSortBy(req.sortBy))
    ensures apiKey.GetOr(PLACEHOLDER_KEY) != PLACEHOLDER_KEY && ValidSortBy(req.sortBy) && !ValidSortOrder(req.sortOrder) ==>
      r == Some(BadSortOrder(req.sortOrder))
    ensures (&& apiKey.GetOr(PLACEHOLDER_KEY) != PLACEHOLDER_KEY && ValidSortBy(req.sortBy)
             && ValidSortOrder(req.sortOrder)
             && (Strptime(req.checkin).None? || Strptime(req.checkout).None?)) ==>
      r == Some(BAD_DATE_FORMAT)
    ensures (&& apiKey.GetOr(PLACEHOLDER_KEY) != PLACEHOLDER_KEY && ValidSortBy(req.sortBy)
             && ValidSortOrder(req.sortOrder)
             && Strptime(req.checkin).Some? && Strptime(req.checkout).Some?
             && (StartsBefore(Strptime(req.checkin).value, now)
                 || !Before(Strptime(req.checkin).value, Strptime(req.checkout).value))) ==>
      r == Some(BAD_DATES)
  {
    if apiKey.GetOr(PLACEHOLDER_KEY) == PLACEHOLDER_KEY then Some(MISSING_KEY)
    else if !ValidSortBy(req.sortBy) then
      assert BadSortBy(req.sortBy)[0] != MISSING_KEY[0];
      Some(BadSortBy(req.sortBy))
    else if !ValidSortOrder(req.sortOrder) then
      assert BadSortOrder(req.sortOrder)[0] != MISSING_KEY[0];
      Some(BadSortOrder(req.sortOrder))
    else match (Strptime(req.checkin), Strptime(req.checkout))
      case (Some(ci), Some(co)) =>
        if StartsBefore(ci, now) || !Before(ci, co) then
          assert BAD_DATES[0] != MISSING_KEY[0];
          Some(BAD_DATES)
        else None
      case _ =>
        assert BAD_DATE_FORMAT[0] != MISSING_KEY[0];
        Some(BAD_DATE_FORMAT)
  }

  // ---------------------------------------------------------------- sort key

  /** A sort key: an integer, or the `float("inf")` sentinels a missing value takes. */
  datatype ExtInt = NegInf | Fin(v: int) | PosInf

  predicate Lt(a: ExtInt, b: ExtInt) {
    match (a, b)
    case (NegInf, NegInf) => false
    case (NegInf, _) => true
    case (Fin(x), Fin(y)) => x < y
    case (Fin(_), PosInf) => true
    case _ => false
  }

  predicate Le(a: ExtInt, b: ExtInt) {
    a == b || Lt(a, b)
  }

  function Negate(a: ExtInt): ExtInt {
    match a
    case NegInf => PosInf
    case Fin(x) => Fin(-x)
    case PosInf => NegInf
  }

  /** `Lt` is a strict total order. */
  lemma LtOrder(a: ExtInt, b: ExtInt, c: ExtInt)
    ensures !Lt(a, a)
    ensures Lt(a, b) && Lt(b, c) ==> Lt(a, c)
    ensures a == b || Lt(a, b) || Lt(b, a)
    ensures Lt(a, b) <==> Lt(Negate(b), Negate(a))
    ensures Negate(Negate(a)) == a
  {
  }

  /** A present key value: an integer, or the name of its type when it is not one. */
  function SortValue(v: Option<Json>, missing: ExtInt): (r: Result<ExtInt, string>)
    ensures v.None? ==> r == Success(missing)
    ensures v.Some? && v.value.JInt? ==> r == Success(Fin(v.value.i))
    ensures r.Failure? <==> v.Some? && !v.value.JInt?
  {
    match v
    case None => Success(missing)
    case Some(JInt(n)) => Success(Fin(n))
    case Some(other) => Failure(TypeName(other))
  }

  /** The member a rating or review-count key is read from. */
  function KeyField(sortBy: string): string {
    if sortBy == "rating" then "overall_rating" else "reviews"
  }

  /** `k` is the key of field value `v` for the order: the value itself, or `missing`
      when absent, negated for a descending sort. */
  predicate KeyOf(v: Option<Json>, missing: ExtInt, sortOrder: string, k: ExtInt) {
    && (v.None? ==> k == (if sortOrder == "asc" then missing else Negate(missing)))
    && (v.Some? ==> v.value.JInt? && k == Fin(if sortOrder == "asc" then v.value.i else -v.value.i))
  }

  /** `get_sort_key(prop)`: the lowest total rate (missing: `+inf`), the overall rating or
      the review count (missing: `-inf`), negated for a descending sort. */
  function SortKey(prop: Json, sortBy: string, sortOrder: string): (r: Result<ExtInt, string>)
    requires ValidSortBy(sortBy) && ValidSortOrder(sortOrder)
    ensures r.Success? ==> prop.JObj?
    ensures r.Success? && sortBy == "price" ==>
      var rate := GetOr(prop, "total_rate", JObj([]));
      rate.JObj? && KeyOf(Get(rate, "extracted_lowest"), PosInf, sortOrder, r.value)
    ensures r.Success? && sortBy != "price" ==> KeyOf(Get(prop, KeyField(sortBy)), NegInf, sortOrder, r.value)
    ensures prop.JObj? && sortBy == "price" ==>
      var rate := GetOr(prop, "total_rate", JObj([]));
      (r.Failure? <==> !rate.JObj? || (Get(rate, "extracted_lowest").Some? && !Get(rate, "extracted_lowest").value.JInt?))
    ensures prop.JObj? && sortBy != "price" ==>
      (r.Failure? <==> Get(prop, KeyField(sortBy)).Some? && !Get(prop, KeyField(sortBy)).value.JInt?)
    ensures r.Success? && sortBy == "price" && sortOrder == "asc" ==>
      var rate := GetOr(prop, "total_rate", JObj([]));
      && rate.JObj?
      && (Get(rate, "extracted_lowest").None? <==> r.value == PosInf)
  {
    if !prop.JObj? then Failure(NoGet(prop))
    else
      var raw :=
        if sortBy == "price" then
          var rate := GetOr(prop, "total_rate", JObj([]));
          if !rate.JObj? then Failure(NoGet(rate)) else SortValue(Get(rate, "extracted_lowest"), PosInf)
        else SortValue(Get(prop, KeyField(sortBy)), NegInf);
      match raw
      case Failure(t) =>
        if sortBy == "price" && !GetOr(prop, "total_rate", JObj([])).JObj? then Failure(t)
        else if sortOrder == "asc" then Failure("'<' not supported between instances of '" + t + "' and 'int'")
        else Failure("bad operand type for unary -: '" + t + "'")
      case Success(k) => Success(if sortOrder == "asc" then k else Negate(k))
  }

  /** The keys of all properties, computed in order; the first failure is the one raised. */
  function SortKeys(props: seq<Json>, sortBy: string, sortOrder: string): (r: Result<seq<ExtInt>, string>)
    requires ValidSortBy(sortBy) && ValidSortOrder(sortOrder)
    ensures r.Success? <==> forall i :: 0 <= i < |props| ==> SortKey(props[i], sortBy, sortOrder).Success?
    ensures r.Success? ==> |r.value| == |props|
    ensures r.Success? ==> forall i :: 0 <= i < |props| ==> SortKey(props[i], sortBy, sortOrder) == Success(r.value[i])
  {
    if |props| == 0 then Success([])
    else match SortKey(props[0], sortBy, sortOrder)
      case Failure(e) => Failure(e)
      case Success(k) =>
        match SortKeys(props[1..], sortBy, sortOrder)
        case Failure(e) =>
          TailFailsMapped(props, p requires ValidSortBy(sortBy) && ValidSortOrder(sortOrder) => SortKey(p, sortBy, sortOrder));
          Failure(e)
        case Success(ks) =>
          ConsMapped(props, p requires ValidSortBy(sortBy) && ValidSortOrder(sortOrder) => SortKey(p, sortBy, sortOrder), k, ks);
          Success([k] + ks)
  }

  // ---------------------------------------------------------------- stable sort

  /** Index `a` goes before index `b` in a stable sort by `keys`: a smaller key, or an
      equal key and an earlier position. */
  predicate Precedes(keys: seq<ExtInt>, a: nat, b: nat)
    requires a < |keys| && b < |keys|
  {
    Lt(keys[a], keys[b]) || (keys[a] == keys[b] && a < b)
  }

  predicate Indices(keys: seq<ExtInt>, order: seq<nat>) {
    forall x :: 0 <= x < |order| ==> order[x] < |keys|
  }

  /** `order` lists indices of `keys` in stable-sort order. */
  predicate StablySorted(keys: seq<ExtInt>, order: seq<nat>)
    requires Indices(keys, order)
  {
    forall x, y :: 0 <= x < y < |order| ==> Precedes(keys, order[x], order[y])
  }

  /** Inserts index `i` before the first entry with a strictly larger key. */
  function Insert(keys: seq<ExtInt>, order: seq<nat>, i: nat): (r: seq<nat>)
    requires i < |keys| && Indices(keys, order)
    ensures Indices(keys, r) && |r| == |order| + 1
    ensures forall x :: 0 <= x < |r| ==> r[x] == i || r[x] in order
  {
    if |order| == 0 then [i]
    else if Lt(keys[i], keys[order[0]]) then [i] + order
    else [order[0]] + Insert(keys, order[1..], i)
  }

  /** Inserting adds exactly the one index: the result is a permutation of the order
      with `i` added. */
  lemma {:induction false} InsertPermutes(keys: seq<ExtInt>, order: seq<nat>, i: nat)
    requires i < |keys| && Indices(keys, order)
    ensures multiset(Insert(keys, order, i)) == multiset(order) + multiset{i}
  {
    if |order| > 0 && !Lt(keys[i], keys[order[0]]) {
      InsertPermutes(keys, order[1..], i);
      assert order == [order[0]] + order[1..];
    }
  }

  /** Inserting an index later than every index present keeps a stable order stable. */
  lemma {:induction false} InsertSorted(keys: seq<ExtInt>, order: seq<nat>, i: nat)
    requires i < |keys| && Indices(keys, order) && StablySorted(keys, order)
    requires forall x :: 0 <= x < |order| ==> order[x] < i
    ensures StablySorted(keys, Insert(keys, order, i))
  {
    if |order| == 0 {
    } else if Lt(keys[i], keys[order[0]]) {
      PrependSorted(keys, order, i);
    } else {
      var rest := order[1..];
      InsertSorted(keys, rest, i);
      HeadPrecedesInsert(keys, order, i);
      ConsSorted(keys, order[0], Insert(keys, rest, i));
    }
  }

  /** An index whose key is below the first key precedes the whole stable order. */
  lemma PrependSorted(keys: seq<ExtInt>, order: seq<nat>, i: nat)
    requires i < |keys| && Indices(keys, order) && StablySorted(keys, order)
    requires |order| > 0 && Lt(keys[i], keys[order[0]])
    ensures StablySorted(keys, [i] + order)
  {
    forall y | 0 <= y < |order|
      ensures Precedes(keys, i, order[y])
    {
      if y > 0 {
        assert Precedes(keys, order[0], order[y]);
      }
      LtOrder(keys[i], keys[order[0]], keys[order[y]]);
    }
    ConsSorted(keys, i, order);
  }

  /** The first index of a stable order precedes everything inserted after it. */
  lemma HeadPrecedesInsert(keys: seq<ExtInt>, order: seq<nat>, i: nat)
    requires i < |keys| && Indices(keys, order) && StablySorted(keys, order)
    requires |order| > 0 && !Lt(keys[i], keys[order[0]]) && order[0] < i
    ensures forall y :: 0 <= y < |Insert(keys, order[1..], i)| ==> Precedes(keys, order[0], Insert(keys, order[1..], i)[y])
  {
    var rest := order[1..];
    var tail := Insert(keys, rest, i);
    forall y | 0 <= y < |tail|
      ensures Precedes(keys, order[0], tail[y])
    {
      var o := tail[y];
      if o == i {
        LtOrder(keys[i], keys[order[0]], keys[i]);
      } else {
        var z :| 0 <= z < |rest| && rest[z] == o;
        assert order[z + 1] == o;
      }
    }
  }

  /** A stable order stays stable behind an index that precedes all of it. */
  lemma ConsSorted(keys: seq<ExtInt>, h: nat, order: seq<nat>)
    requires h < |keys| && Indices(keys, order) && StablySorted(keys, order)
    requires forall y :: 0 <= y < |order| ==> Precedes(keys, h, order[y])
    ensures Indices(keys, [h] + order) && StablySorted(keys, [h] + order)
  {
    var r := [h] + order;
    forall x, y | 0 <= x < y < |r|
      ensures Precedes(keys, r[x], r[y])
    {
      if x == 0 {
        assert r[y] == order[y - 1];
      } else {
        assert r[x] == order[x - 1] && r[y] == order[y - 1];
      }
    }
  }

  /** `sorted(range(n), key=...)` on the first `n` keys: Python's stable sort. */
  function SortOrder(keys: seq<ExtInt>, n: nat): (r: seq<nat>)
    requires n <= |keys|
    ensures Indices(keys, r) && |r| == n
    ensures forall x :: 0 <= x < |r| ==> r[x] < n
  {
    if n == 0 then [] else Insert(keys, SortOrder(keys, n - 1), n - 1)
  }

  /** The order of the first `n` keys lists every index below `n`. */
  lemma {:induction false} SortOrderComplete(keys: seq<ExtInt>, n: nat)
    requires n <= |keys|
    ensures forall k :: 0 <= k < n ==> k in SortOrder(keys, n)
  {
    if n > 0 {
      SortOrderComplete(keys, n - 1);
      SortOrderStep(keys, n);
      forall k | 0 <= k < n
        ensures k in SortOrder(keys, n)
      {
        InsertKeeps(keys, SortOrder(keys, n - 1), n - 1, k);
      }
    }
  }

  /** Inserting keeps every index already present, and adds the new one. */
  lemma InsertKeeps(keys: seq<ExtInt>, order: seq<nat>, i: nat, k: nat)
    requires i < |keys| && Indices(keys, order) && (k in order || k == i)
    ensures k in Insert(keys, order, i)
  {
    InsertPermutes(keys, order, i);
    assert k in multiset(order) + multiset{i};
  }

  /** The stable order is stable-sorted. */
  lemma {:induction false} SortOrderSorted(keys: seq<ExtInt>, n: nat)
    requires n <= |keys|
    ensures StablySorted(keys, SortOrder(keys, n))
  {
    if n > 0 {
      SortOrderSorted(keys, n - 1);
      SortedStep(keys, n);
    }
  }

  /** One insertion step keeps the order stably sorted. */
  lemma SortedStep(keys: seq<ExtInt>, n: nat)
    requires 0 < n <= |keys| && StablySorted(keys, SortOrder(keys, n - 1))
    ensures StablySorted(keys, SortOrder(keys, n))
  {
    var prev := SortOrder(keys, n - 1);
    assert forall x :: 0 <= x < |prev| ==> prev[x] < n - 1;
    InsertSorted(keys, prev, n - 1);
    SortOrderStep(keys, n);
  }

  /** The order of `n` keys inserts index `n - 1` into the order of the first `n - 1`. */
  lemma SortOrderStep(keys: seq<ExtInt>, n: nat)
    requires 0 < n <= |keys|
    ensures SortOrder(keys, n) == Insert(keys, SortOrder(keys, n - 1), n - 1)
  {
  }

  /** A stable order lists each index once, so it is a permutation of `0..n`. */
  lemma SortOrderDistinct(keys: seq<ExtInt>, n: nat)
    requires n <= |keys|
    ensures forall x, y :: 0 <= x < y < n ==> SortOrder(keys, n)[x] != SortOrder(keys, n)[y]
  {
    SortOrderSorted(keys, n);
    var r := SortOrder(keys, n);
    forall x, y | 0 <= x < y < n
      ensures r[x] != r[y]
    {
      assert Precedes(keys, r[x], r[y]);
      LtOrder(keys[r[x]], keys[r[x]], keys[r[x]]);
    }
  }

  // ---------------------------------------------------------------- projection

  /** One entry of the reply: name, price, rating, review count, description and
      `"lat, lon"`, each `"-"` when missing. */
  function Project(prop: Json): (r: Result<Json, string>)
    requires prop.JObj?
    ensures r.Success? ==> r.value.JObj? && |r.value.members| == 6
    ensures r.Success? ==> GetOr(prop, "total_rate", JObj([])).JObj? && GetOr(prop, "gps_coordinates", JObj([])).JObj?
  {
    var rate := GetOr(prop, "total_rate", JObj([]));
    if !rate.JObj? then Failure(NoGet(rate))
    else
      var gps := GetOr(prop, "gps_coordinates", JObj([]));
      if !gps.JObj? then Failure(NoGet(gps))
      else Success(Entry(GetOr(prop, "name", DASH), GetOr(rate, "extracted_lowest", DASH),
        GetOr(prop, "overall_rating", DASH), GetOr(prop, "reviews", DASH),
        GetOr(prop, "description", DASH),
        JStr(PyStr(GetOr(gps, "latitude", DASH)) + ", " + PyStr(GetOr(gps, "longitude", DASH)))))
  }

  /** The six-field object of one reply entry. */
  function Entry(name: Json, price: Json, rating: Json, reviews: Json, description: Json, address: Json): Json {
    JObj([("name", name), ("price", price), ("rating", rating), ("reviews", reviews),
          ("description", description), ("address", address)])
  }

  /** A projected entry has exactly the six fields, each the property's own value or
      `"-"` when the property lacks it; the price comes from `total_rate`, and the
      address joins latitude and longitude with `", "`. */
  lemma ProjectedFields(prop: Json)
    requires prop.JObj?
    ensures Project(prop).Success? <==>
      GetOr(prop, "total_rate", JObj([])).JObj? && GetOr(prop, "gps_coordinates", JObj([])).JObj?
    ensures Project(prop).Success? ==> var out := Project(prop).value;
      && out.JObj? && |out.members| == 6
      && Get(out, "name") == Some(Get(prop, "name").GetOr(DASH))
      && Get(out, "price") == Some(Get(GetOr(prop, "total_rate", JObj([])), "extracted_lowest").GetOr(DASH))
      && Get(out, "rating") == Some(Get(prop, "overall_rating").GetOr(DASH))
      && Get(out, "reviews") == Some(Get(prop, "reviews").GetOr(DASH))
      && Get(out, "description") == Some(Get(prop, "description").GetOr(DASH))
      && Get(out, "address") == Some(JStr(PyStr(Get(GetOr(prop, "gps_coordinates", JObj([])), "latitude").GetOr(DASH))
                                             + ", " + PyStr(Get(GetOr(prop, "gps_coordinates", JObj([])), "longitude").GetOr(DASH))))
  {
    if Project(prop).Success? {
      var rate := GetOr(prop, "total_rate", JObj([]));
      var gps := GetOr(prop, "gps_coordinates", JObj([]));
      var address := JStr(PyStr(GetOr(gps, "latitude", DASH)) + ", " + PyStr(GetOr(gps, "longitude", DASH)));
      assert Project(prop).value == Entry(GetOr(prop, "name", DASH), GetOr(rate, "extracted_lowest", DASH),
        GetOr(prop, "overall_rating", DASH), GetOr(prop, "reviews", DASH),
        GetOr(prop, "description", DASH), address);
      EntryFields(GetOr(prop, "name", DASH), GetOr(rate, "extracted_lowest", DASH),
        GetOr(prop, "overall_rating", DASH), GetOr(prop, "reviews", DASH),
        GetOr(prop, "description", DASH), address);
    }
  }

  /** Each field of an entry holds the value it was built from. */
  lemma EntryFields(name: Json, price: Json, rating: Json, reviews: Json, description: Json, address: Json)
    ensures var e := Entry(name, price, rating, reviews, description, address);
      && e.JObj? && |e.members| == 6
      && Get(e, "name") == Some(name) && Get(e, "price") == Some(price)
      && Get(e, "rating") == Some(rating) && Get(e, "reviews") == Some(reviews)
      && Get(e, "description") == Some(description) && Get(e, "address") == Some(address)
  {
    SixFields(Entry(name, price, rating, reviews, description, address).members);
  }

  /** In a six-member object whose names are those of a projected entry, each name
      finds its own member. */
  lemma SixFields(ms: seq<(string, Json)>)
    requires |ms| == 6
    requires ms[0].0 == "name" && ms[1].0 == "price" && ms[2].0 == "rating"
    requires ms[3].0 == "reviews" && ms[4].0 == "description" && ms[5].0 == "address"
    ensures Lookup(ms, "name") == Some(ms[0].1)
    ensures Lookup(ms, "price") == Some(ms[1].1)
    ensures Lookup(ms, "rating") == Some(ms[2].1)
    ensures Lookup(ms, "reviews") == Some(ms[3].1)
    ensures Lookup(ms, "description") == Some(ms[4].1)
    ensures Lookup(ms, "address") == Some(ms[5].1)
  {
    assert "name"[0] != "price"[0] && "name"[0] != "rating"[0] && "name"[0] != "reviews"[0];
    assert "name"[0] != "description"[0] && "name"[0] != "address"[0];
    assert "price"[0] != "rating"[0] && "price"[0] != "reviews"[0];
    assert "price"[0] != "description"[0] && "price"[0] != "address"[0];
    assert "rating"[1] != "reviews"[1];
    assert "rating"[0] != "description"[0] && "rating"[0] != "address"[0];
    assert "reviews"[0] != "description"[0] && "reviews"[0] != "address"[0];
    assert "description"[0] != "address"[0];
    LookupAt(ms, "name", 0);
    LookupAt(ms, "price", 1);
    LookupAt(ms, "rating", 2);
    LookupAt(ms, "reviews", 3);
    LookupAt(ms, "description", 4);
    LookupAt(ms, "address", 5);
  }

  /** The projections of `props`, in order; the first failure is the one raised. */
  function ProjectAll(props: seq<Json>): (r: Result<seq<Json>, string>)
    requires forall i :: 0 <= i < |props| ==> props[i].JObj?
    ensures r.Success? <==> forall i :: 0 <= i < |props| ==> Project(props[i]).Success?
    ensures r.Success? ==> |r.value| == |props|
    ensures r.Success? ==> forall i :: 0 <= i < |props| ==> Project(props[i]) == Success(r.value[i])
  {
    if |props| == 0 then Success([])
    else match Project(props[0])
      case Failure(e) => Failure(e)
      case Success(p) =>
        match ProjectAll(props[1..])
        case Failure(e) =>
          TailFailsMapped(props, Project);
          Failure(e)
        case Success(ps) =>
          ConsMapped(props, Project, p, ps);
          Success([p] + ps)
  }

  /** The positions `sorted(...)[:5]` keeps: the first `MAX_RESULTS` of the stable order.
      They are distinct, in stable order, and each precedes every position left out. */
  function TopIndices(keys: seq<ExtInt>): (idx: seq<nat>)
    ensures |idx| == if |keys| < MAX_RESULTS then |keys| else MAX_RESULTS
    ensures Indices(keys, idx) && StablySorted(keys, idx)
    ensures forall j :: 0 <= j < |keys| && j !in idx ==>
      forall x :: 0 <= x < |idx| ==> Precedes(keys, idx[x], j)
  {
    var order := SortOrder(keys, |keys|);
    SortOrderSorted(keys, |keys|);
    SortOrderComplete(keys, |keys|);
    var n := if |order| < MAX_RESULTS then |order| else MAX_RESULTS;
    var idx := order[..n];
    PrefixPrecedesRest(keys, order, n);
    idx
  }

  /** In a stable order listing every index, a prefix precedes every index it leaves out. */
  lemma PrefixPrecedesRest(keys: seq<ExtInt>, order: seq<nat>, n: nat)
    requires Indices(keys, order) && StablySorted(keys, order) && n <= |order|
    requires forall k :: 0 <= k < |keys| ==> k in order
    ensures forall j :: 0 <= j < |keys| && j !in order[..n] ==>
      forall x :: 0 <= x < n ==> Precedes(keys, order[..n][x], j)
  {
    var idx := order[..n];
    forall q | 0 <= q < n
      ensures order[q] in idx
    {
      assert idx[q] == order[q];
    }
    forall j, x | 0 <= j < |keys| && j !in idx && 0 <= x < n
      ensures Precedes(keys, idx[x], j)
    {
      assert j in order;
      var p :| 0 <= p < |order| && order[p] == j;
      assert idx[x] == order[x] && x < p;
      assert Precedes(keys, order[x], order[p]);
    }
  }

  /** Sorting and projecting the reply's properties: the `sorted(...)[:5]` and the loop
      that builds `simplified_results`. */
  function Rank(props: seq<Json>, sortBy: string, sortOrder: string): (r: Result<seq<Json>, string>)
    requires ValidSortBy(sortBy) && ValidSortOrder(sortOrder)
    ensures r.Success? ==> |r.value| <= MAX_RESULTS && |r.value| <= |props|
    ensures r.Success? ==> SortKeys(props, sortBy, sortOrder).Success?
  {
    match SortKeys(props, sortBy, sortOrder)
    case Failure(e) => Failure(e)
    case Success(keys) => ProjectAll(Kept(props, keys))
  }

  /** The properties at the kept positions. */
  function Kept(props: seq<Json>, keys: seq<ExtInt>): (r: seq<Json>)
    requires |keys| == |props| && forall i :: 0 <= i < |props| ==> props[i].JObj?
    ensures |r| == |TopIndices(keys)| && forall x :: 0 <= x < |r| ==> r[x].JObj?
  {
    var idx := TopIndices(keys);
    seq(|idx|, x requires 0 <= x < |idx| => props[idx[x]])
  }

  /** Each ranked entry is the projection of the property at a kept position. */
  lemma RankEntries(props: seq<Json>, sortBy: string, sortOrder: string)
    requires ValidSortBy(sortBy) && ValidSortOrder(sortOrder)
    ensures Rank(props, sortBy, sortOrder).Success? ==> var keys := SortKeys(props, sortBy, sortOrder).value;
      var idx := TopIndices(keys);
      var out := Rank(props, sortBy, sortOrder).value;
      |out| == |idx| && forall x :: 0 <= x < |out| ==> props[idx[x]].JObj? && Project(props[idx[x]]) == Success(out[x])
  {
    if Rank(props, sortBy, sortOrder).Success? {
      var keys := SortKeys(props, sortBy, sortOrder).value;
      var kept := Kept(props, keys);
      var out := Rank(props, sortBy, sortOrder).value;
      assert out == ProjectAll(kept).value;
      forall x | 0 <= x < |out|
        ensures props[TopIndices(keys)[x]].JObj? && Project(props[TopIndices(keys)[x]]) == Success(out[x])
      {
        var p := kept[x];
        assert p == props[TopIndices(keys)[x]];
        assert Project(p).Success? && out[x] == Project(p).value;
      }
    }
  }

  /** Sorting by ascending price: the kept properties come in non-decreasing price, and
      those without a price (`+inf`) come after every priced one. */
  lemma PriceAscending(props: seq<Json>)
    requires SortKeys(props, "price", "asc").Success?
    ensures var keys := SortKeys(props, "price", "asc").value;
      var idx := TopIndices(keys);
      forall x, y :: 0 <= x < y < |idx| ==>
        && (keys[idx[x]] == PosInf ==> keys[idx[y]] == PosInf)
        && (keys[idx[x]].Fin? && keys[idx[y]].Fin? ==> keys[idx[x]].v <= keys[idx[y]].v)
  {
    TopAscending(SortKeys(props, "price", "asc").value);
  }

  /** The kept positions come in non-decreasing key order, `+inf` last. */
  lemma TopAscending(keys: seq<ExtInt>)
    ensures var idx := TopIndices(keys);
      forall x, y :: 0 <= x < y < |idx| ==>
        && (keys[idx[x]] == PosInf ==> keys[idx[y]] == PosInf)
        && (keys[idx[x]].Fin? && keys[idx[y]].Fin? ==> keys[idx[x]].v <= keys[idx[y]].v)
  {
    var idx := TopIndices(keys);
    forall x, y | 0 <= x < y < |idx|
      ensures keys[idx[x]] == PosInf ==> keys[idx[y]] == PosInf
    {
      assert Precedes(keys, idx[x], idx[y]);
    }
  }

  /** The key `+inf` means the property has no `total_rate.extracted_lowest`. */
  lemma UnpricedKey(props: seq<Json>, i: nat)
    requires SortKeys(props, "price", "asc").Success? && i < |props|
    ensures props[i].JObj? && GetOr(props[i], "total_rate", JObj([])).JObj?
    ensures SortKeys(props, "price", "asc").value[i] == PosInf
      <==> Get(GetOr(props[i], "total_rate", JObj([])), "extracted_lowest").None?
  {
    assert SortKey(props[i], "price", "asc").Success?;
  }

  // ---------------------------------------------------------------- the tool

  /** The request the tool sends. */
  function Params(req: HotelRequest, key: string): Json {
    JObj([("engine", JStr("google_hotels")), ("q", JStr(req.destination)),
          ("check_in_date", JStr(req.checkin)), ("check_out_date", JStr(req.checkout)),
          ("hl", JStr("zh-tw")), ("gl", JStr("tw")), ("adults", JInt(1)),
          ("currency", JStr("TWD")), ("api_key", JStr(key))])
  }

  /** What the tool does with the engine's reply. */
  function HandleReply(req: HotelRequest, reply: ApiReply): (r: SearchResult)
    requires ValidSortBy(req.sortBy) && ValidSortOrder(req.sortOrder)
    ensures reply.Reply? && Lookup(reply.response, "error").Some? ==>
      r == Error("API 錯誤: " + PyStr(Lookup(reply.response, "error").value))
    ensures (&& reply.Reply? && Lookup(reply.response, "error").None?
             && (Lookup(reply.response, "properties").None?
                 || !Truthy(Lookup(reply.response, "properties").value))) ==>
      r == Error(NoProperties(req.destination))
    ensures reply.NetworkError? ==> r == Error("網路錯誤: " + reply.message)
    ensures reply.MalformedJson? || reply.OtherError? ==> r == Error("未知錯誤: " + reply.message)
    ensures r.Found? ==> |r.entries| <= MAX_RESULTS
    ensures (&& reply.Reply? && Lookup(reply.response, "error").None?
             && Lookup(reply.response, "properties").Some? && Truthy(Lookup(reply.response, "properties").value)) ==>
      var p := Lookup(reply.response, "properties").value;
      && (Elements(p).None? ==> r == Error("未知錯誤: '" + TypeName(p) + "' object is not iterable"))
      && (Elements(p).Some? && Rank(Elements(p).value, req.sortBy, req.sortOrder).Success? ==>
            r == Found(Rank(Elements(p).value, req.sortBy, req.sortOrder).value))
      && (Elements(p).Some? && Rank(Elements(p).value, req.sortBy, req.sortOrder).Failure? ==>
            r == Error("未知錯誤: " + Rank(Elements(p).value, req.sortBy, req.sortOrder).error))
  {
    match reply
    case NetworkError(m) => Error("網路錯誤: " + m)
    case MalformedJson(m) => Error("未知錯誤: " + m)
    case OtherError(m) => Error("未知錯誤: " + m)
    case Reply(resp) =>
      match Lookup(resp, "error")
      case Some(e) => Error("API 錯誤: " + PyStr(e))
      case None =>
        match Lookup(resp, "properties")
        case None => Error(NoProperties(req.destination))
        case Some(p) =>
          if !Truthy(p) then Error(NoProperties(req.destination))
          else match Elements(p)
            case None => Error("未知錯誤: '" + TypeName(p) + "' object is not iterable")
            case Some(props) =>
              match Rank(props, req.sortBy, req.sortOrder)
              case Failure(e) => Error("未知錯誤: " + e)
              case Success(es) => Found(es)
  }

  /** A reply listing properties is answered with the ranking: entry `x` is the
      projection of the property at the `x`-th kept position of the stable sort, and
      the reply is an error exactly when a key or a projection fails. */
  lemma RankedReply(req: HotelRequest, resp: seq<(string, Json)>, props: seq<Json>)
    requires ValidSortBy(req.sortBy) && ValidSortOrder(req.sortOrder)
    requires Lookup(resp, "error").None?
    requires Lookup(resp, "properties") == Some(JArr(props)) && |props| > 0
    ensures var r := HandleReply(req, Reply(resp));
      && (r.Found? <==> Rank(props, req.sortBy, req.sortOrder).Success?)
      && (r.Found? ==>
            var idx := TopIndices(SortKeys(props, req.sortBy, req.sortOrder).value);
            && |r.entries| == |idx|
            && forall x :: 0 <= x < |r.entries| ==>
                 props[idx[x]].JObj? && Project(props[idx[x]]) == Success(r.entries[x]))
  {
    assert Truthy(JArr(props));
    assert Elements(JArr(props)) == Some(props);
    RankEntries(props, req.sortBy, req.sortOrder);
  }

  /** `search_hotels`: the checks, then the engine call and the shaping of its reply. */
  function SearchHotels(req: HotelRequest, apiKey: Option<string>, now: Moment, engine: Json -> ApiReply)
    : (r: SearchResult)
    ensures CheckRequest(req, apiKey, now).Some? ==> r == Error(CheckRequest(req, apiKey, now).value)
    ensures CheckRequest(req, apiKey, now).None? ==> r == HandleReply(req, engine(Params(req, apiKey.value)))
  {
    match CheckRequest(req, apiKey, now)
    case Some(e) => Error(e)
    case None => HandleReply(req, engine(Params(req, apiKey.value)))
  }
}
