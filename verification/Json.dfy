/** Values produced by `json.loads` and by the search engine's `get_dict()`, with the
    few Python operations the pipeline applies to them: `dict.get`, truthiness and `len`. */
module Json {
  import opened Wrappers
  import opened Text

  /** A decoded JSON value. Numbers are integers in this model; an object keeps its
      members in document order. */
  datatype Json =
    | JNull
    | JBool(b: bool)
    | JInt(i: int)
    | JStr(s: string)
    | JArr(items: seq<Json>)
    | JObj(members: seq<(string, Json)>)

  /** The member named `key`; when a name repeats, the last binding wins, as in the
      dictionary `json.loads` builds. */
  function Lookup(members: seq<(string, Json)>, key: string): (r: Option<Json>)
    ensures r.None? <==> forall i :: 0 <= i < |members| ==> members[i].0 != key
    ensures r.Some? ==> exists i :: 0 <= i < |members| && members[i] == (key, r.value)
  {
    if |members| == 0 then None
    else if members[|members| - 1].0 == key then Some(members[|members| - 1].1)
    else Lookup(members[..|members| - 1], key)
  }

  /** Python's `obj.get(key)` on an object; `None` when the key is absent. */
  function Get(obj: Json, key: string): Option<Json>
    requires obj.JObj?
  {
    Lookup(obj.members, key)
  }

  /** Python's `obj.get(key, default)`. */
  function GetOr(obj: Json, key: string, default: Json): Json
    requires obj.JObj?
  {
    Get(obj, key).GetOr(default)
  }

  /** The binding at `i` is the one a lookup finds when no later member has the same
      name. */
  lemma {:induction false} LookupAt(members: seq<(string, Json)>, key: string, i: nat)
    requires i < |members| && members[i].0 == key
    requires forall j :: i < j < |members| ==> members[j].0 != key
    ensures Lookup(members, key) == Some(members[i].1)
  {
    if i < |members| - 1 {
      LookupAt(members[..|members| - 1], key, i);
    }
  }

  /** Python's `obj.get(key)` where an absent key reads as `None` (`JNull`). */
  function GetOrNull(obj: Json, key: string): Json
    requires obj.JObj?
  {
    GetOr(obj, key, JNull)
  }

  /** Every entry is an object, so `.get` on it does not raise. */
  predicate AllObjects(items: seq<Json>) {
    forall i :: 0 <= i < |items| ==> items[i].JObj?
  }

  /** Python's truth value of a decoded value. */
  predicate Truthy(j: Json) {
    match j
    case JNull => false
    case JBool(b) => b
    case JInt(i) => i != 0
    case JStr(s) => |s| > 0
    case JArr(xs) => |xs| > 0
    case JObj(ms) => |ms| > 0
  }

  /** Python's `x or default`. */
  function OrElse(j: Json, default: Json): Json {
    if Truthy(j) then j else default
  }

  /** The names of an object's members. */
  function KeySet(members: seq<(string, Json)>): set<string> {
    set i | 0 <= i < |members| :: members[i].0
  }

  /** Python's `len(x)`: `None` when `len` raises `TypeError`. */
  function PyLen(j: Json): (r: Option<nat>)
    ensures r.Some? <==> (j.JArr? || j.JStr? || j.JObj?)
  {
    match j
    case JArr(xs) => Some(|xs|)
    case JStr(s) => Some(|s|)
    case JObj(ms) => Some(|KeySet(ms)|)
    case _ => None
  }

  /** Python's name for the type of a decoded value, as error messages print it. */
  function TypeName(j: Json): string {
    match j
    case JNull => "NoneType"
    case JBool(_) => "bool"
    case JInt(_) => "int"
    case JStr(_) => "str"
    case JArr(_) => "list"
    case JObj(_) => "dict"
  }

  /** The `AttributeError` text of calling `.get` on a non-object. */
  function NoGet(j: Json): string {
    "'" + TypeName(j) + "' object has no attribute 'get'"
  }

  /** Python's `str(x)` of a decoded value: text as it is, `None`, `True`/`False`,
      decimal integers, and containers as their `repr` with strings in single quotes. */
  function PyStr(j: Json): string {
    match j
    case JStr(s) => s
    case _ => Repr(j)
  }

  /** Python's `repr(x)` of a decoded value. */
  function Repr(j: Json): string {
    match j
    case JNull => "None"
    case JBool(b) => if b then "True" else "False"
    case JInt(i) => IntToString(i)
    case JStr(s) => "'" + s + "'"
    case JArr(items) => "[" + Join(seq(|items|, k requires 0 <= k < |items| => Repr(items[k])), ", ") + "]"
    case JObj(ms) => "{" + Join(seq(|ms|, k requires 0 <= k < |ms| => "'" + ms[k].0 + "': " + Repr(ms[k].1)), ", ") + "}"
  }

  /** The values `for x in j` (and `list.extend(j)`) visits: a list's items, a string's
      characters, an object's member names; `None` when iterating raises `TypeError`. */
  function Elements(j: Json): (r: Option<seq<Json>>)
    ensures r.Some? <==> j.JArr? || j.JStr? || j.JObj?
    ensures j.JArr? ==> r == Some(j.items)
  {
    match j
    case JArr(items) => Some(items)
    case JStr(s) => Some(seq(|s|, i requires 0 <= i < |s| => JStr([s[i]])))
    case JObj(ms) => Some(seq(|ms|, i requires 0 <= i < |ms| => JStr(ms[i].0)))
    case _ => None
  }

  /** What a search-engine request yields: the decoded response object, a network error
      (`requests.RequestException`), an undecodable body (`json.JSONDecodeError`),
      or any other exception, each with its message. */
  datatype ApiReply =
    | Reply(response: seq<(string, Json)>)
    | NetworkError(message: string)
    | MalformedJson(message: string)
    | OtherError(message: string)

  /** What a search tool hands back, before `json.dumps`: a list of entries, or an
      object whose only member is `error`. */
  datatype SearchResult = Found(entries: seq<Json>) | Error(message: string)

  /** The value `json.dumps` encodes. */
  function SearchJson(r: SearchResult): (j: Json)
    ensures r.Found? <==> j.JArr?
    ensures r.Error? ==> j.JObj? && KeySet(j.members) == {"error"} && Get(j, "error") == Some(JStr(r.message))
  {
    match r
    case Found(es) => JArr(es)
    case Error(m) =>
      var ms := [("error", JStr(m))];
      assert KeySet(ms) == {"error"} by {
        assert ms[0].0 in KeySet(ms);
      }
      JObj(ms)
  }
}
