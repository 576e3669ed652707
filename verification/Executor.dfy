/** `PlannerAgent.execute_plan`: decoding each plan step into a tool name and an argument
    map, running it through an adapter, logging one record per resolved step, and
    bucketing the successful records by date or destination. */
module Executor {
  import opened Wrappers
  import opened Text
  import opened Json
  import opened Sequences
  import opened State

  // ---------------------------------------------------------------- decoding

  /** `step.split("(")[0]`: the text before the first `(`, or the whole step. */
  function ToolName(step: string): (r: string)
    ensures |r| <= |step| && r == step[..|r|]
    ensures forall i :: 0 <= i < |r| ==> r[i] != '('
    ensures |r| < |step| ==> step[|r|] == '('
  {
    match IndexOf(step, '(')
    case None => step
    case Some(i) => step[..i]
  }

  /** Python's `s[start:stop]` for `0 <= start`, with a `stop` of `-1` read as
      `len(s) - 1`, as `rfind` returning `-1` makes it. */
  function SliceFrom(s: string, start: nat, stop: int): (r: string)
    requires -1 <= stop < |s|
    ensures |r| <= |s|
  {
    var end := if stop < 0 then (if |s| == 0 then 0 else |s| - 1) else stop;
    if start < end then s[start..end] else ""
  }

  /** `step[step.find("(") + 1:step.rfind(")")]`: the argument text. A missing `(` makes
      the slice start at 0; a missing `)` makes it stop before the last character. */
  function ParamText(step: string): (r: string)
    ensures |r| <= |step|
  {
    var start := match IndexOf(step, '(') case None => 0 case Some(i) => i + 1;
    var stop := match LastIndexOf(step, ')') case None => -1 case Some(j) => j as int;
    SliceFrom(step, start, stop)
  }

  /** `value.strip('"')`, then `"None"` read as Python's `None`. */
  function DecodeValue(raw: string): Option<string> {
    var v := Strip(raw, {'"'});
    if v == "None" then None else Some(v)
  }

  /** One `key=value` piece: split at its first `=`; a piece without `=` binds nothing. */
  function DecodePiece(piece: string): (r: Option<(string, Option<string>)>)
    ensures r.None? <==> forall i :: 0 <= i < |piece| ==> piece[i] != '='
    ensures r.Some? ==> forall i :: 0 <= i < |r.value.0| ==> r.value.0[i] != '='
    ensures r.Some? ==> |r.value.0| < |piece| && piece[..|r.value.0|] == r.value.0
  {
    match IndexOf(piece, '=')
    case None => None
    case Some(k) => Some((piece[..k], DecodeValue(piece[k + 1..])))
  }

  /** Piece `p` binds key `k`. */
  predicate BindsKey(p: string, k: string) {
    DecodePiece(p).Some? && DecodePiece(p).value.0 == k
  }

  /** The argument map the pieces build, left to right, a later piece overwriting an
      earlier one with the same key. */
  function Bindings(pieces: seq<string>): (r: Args)
    ensures forall k :: k in r ==> exists i :: 0 <= i < |pieces| && BindsKey(pieces[i], k)
    decreases |pieces|
  {
    if |pieces| == 0 then map[]
    else
      var init := pieces[..|pieces| - 1];
      var last := pieces[|pieces| - 1];
      var m := Bindings(init);
      match DecodePiece(last)
      case None => m
      case Some(kv) => m[kv.0 := kv.1]
  }

  /** Every key some piece binds is in the map, with the value of the last piece that
      binds it. */
  lemma {:induction false} BindingsLastWins(pieces: seq<string>, i: nat, k: string)
    requires i < |pieces| && BindsKey(pieces[i], k)
    requires forall j :: i < j < |pieces| ==> !BindsKey(pieces[j], k)
    ensures k in Bindings(pieces) && Bindings(pieces)[k] == DecodePiece(pieces[i]).value.1
    decreases |pieces|
  {
    if i < |pieces| - 1 {
      var init := pieces[..|pieces| - 1];
      assert init[i] == pieces[i];
      assert !BindsKey(pieces[|pieces| - 1], k);
      BindingsLastWins(init, i, k);
    }
  }

  /** The argument map `execute_plan` builds for `step`. */
  function DecodeParams(step: string): Args {
    Bindings(Split(ParamText(step), ", "))
  }

  // ---------------------------------------------------------------- rendering

  /** A value as a planner writes it: quoted, or a bare `None`. */
  function RenderValue(v: Option<string>): string {
    match v
    case None => "None"
    case Some(s) => "\"" + s + "\""
  }

  function RenderPiece(b: (string, Option<string>)): string {
    b.0 + "=" + RenderValue(b.1)
  }

  function RenderPieces(binds: seq<(string, Option<string>)>): (r: seq<string>)
    ensures |r| == |binds|
    ensures forall i :: 0 <= i < |r| ==> r[i] == RenderPiece(binds[i])
  {
    seq(|binds|, i requires 0 <= i < |binds| => RenderPiece(binds[i]))
  }

  /** A call written as `name(key="value", ...)`. */
  function RenderStep(name: string, binds: seq<(string, Option<string>)>): string {
    name + "(" + Join(RenderPieces(binds), ", ") + ")"
  }

  /** The map a sequence of bindings denotes, a later binding winning. */
  function BindAll(binds: seq<(string, Option<string>)>): (r: Args)
    ensures forall k :: k in r <==> exists i :: 0 <= i < |binds| && binds[i].0 == k
    ensures |binds| > 0 ==> r[binds[|binds| - 1].0] == binds[|binds| - 1].1
    decreases |binds|
  {
    if |binds| == 0 then map[]
    else
      var init := binds[..|binds| - 1];
      assert forall i :: 0 <= i < |init| ==> init[i] == binds[i];
      BindAll(init)[binds[|binds| - 1].0 := binds[|binds| - 1].1]
  }

  /** No `", "` inside `s`, stated on characters. */
  predicate NoCommaSpace(s: string) {
    forall j :: 0 <= j < |s| - 1 ==> !(s[j] == ',' && s[j + 1] == ' ')
  }

  /** A call the decoder reads back exactly: the name has no `(`, keys have no `=`, no
      text holds `", "`, and a quoted value neither is `None` nor starts or ends with `"`. */
  predicate Renderable(name: string, binds: seq<(string, Option<string>)>) {
    && (forall i :: 0 <= i < |name| ==> name[i] != '(')
    && forall b :: b in binds ==> CleanBinding(b)
  }

  /** A binding the decoder reads back exactly. */
  predicate CleanBinding(b: (string, Option<string>)) {
    && (forall i :: 0 <= i < |b.0| ==> b.0[i] != '=')
    && NoCommaSpace(b.0)
    && (b.1.Some? ==>
      && NoCommaSpace(b.1.value) && b.1.value != "None"
      && (|b.1.value| > 0 ==> b.1.value[0] != '"' && b.1.value[|b.1.value| - 1] != '"'))
  }

  /** A binding whose key has neither `=` nor `,` and whose quoted value has neither `,`
      nor `"` and is not `None` is read back exactly. */
  lemma CleanByCharacters(b: (string, Option<string>))
    requires forall i :: 0 <= i < |b.0| ==> b.0[i] != '=' && b.0[i] != ','
    requires b.1.Some? ==> b.1.value != "None" && forall i :: 0 <= i < |b.1.value| ==> b.1.value[i] != ',' && b.1.value[i] != '"'
    ensures CleanBinding(b)
  {
  }

  lemma NoCommaSpaceNotContained(s: string)
    requires NoCommaSpace(s)
    ensures !Contains(s, ", ")
  {
    forall j | 0 <= j
      ensures !OccursAt(", ", s, j)
    {
      if j + 2 <= |s| {
        assert s[j..j + 2][0] == s[j] && s[j..j + 2][1] == s[j + 1];
      }
    }
  }

  lemma DecodeRenderedValue(v: Option<string>)
    requires v.Some? ==> v.value != "None"
    requires v.Some? && |v.value| > 0 ==> v.value[0] != '"' && v.value[|v.value| - 1] != '"'
    ensures DecodeValue(RenderValue(v)) == v
  {
    match v
    case None =>
      StripUntouched("None", {'"'});
    case Some(s) =>
      assert RenderValue(v) == ['"'] + s + ['"'];
      StripWrapped(s, '"');
  }

  lemma DecodeRenderedPiece(b: (string, Option<string>))
    requires forall i :: 0 <= i < |b.0| ==> b.0[i] != '='
    requires b.1.Some? ==> b.1.value != "None"
    requires b.1.Some? && |b.1.value| > 0 ==> b.1.value[0] != '"' && b.1.value[|b.1.value| - 1] != '"'
    ensures DecodePiece(RenderPiece(b)) == Some(b)
  {
    var p := RenderPiece(b);
    assert p[|b.0|] == '=';
    assert IndexOf(p, '=') == Some(|b.0|);
    assert p[..|b.0|] == b.0;
    assert p[|b.0| + 1..] == RenderValue(b.1);
    DecodeRenderedValue(b.1);
  }

  lemma RenderedPieceIsClean(b: (string, Option<string>))
    requires NoCommaSpace(b.0)
    requires b.1.Some? ==> NoCommaSpace(b.1.value)
    ensures !Contains(RenderPiece(b), ", ") && SplitsCleanly(RenderPiece(b), ", ")
  {
    var p := RenderPiece(b);
    assert NoCommaSpace(p) by {
      forall j | 0 <= j < |p| - 1
        ensures !(p[j] == ',' && p[j + 1] == ' ')
      {
        if j + 1 < |b.0| {
          assert p[j] == b.0[j] && p[j + 1] == b.0[j + 1];
        } else if j + 1 == |b.0| {
          assert p[j + 1] == '=';
        } else if b.1.Some? {
          var s := b.1.value;
          assert p == b.0 + "=" + "\"" + s + "\"";
          if j <= |b.0| + 1 {
            assert p[j] == '=' || p[j] == '"';
          } else if j < |b.0| + 1 + |s| {
            assert p[j] == s[j - |b.0| - 2] && p[j + 1] == (s + "\"")[j - |b.0| - 1];
            if j + 1 < |b.0| + 2 + |s| {
              assert p[j + 1] == s[j - |b.0| - 1];
            }
          }
        } else {
          assert p == b.0 + "=" + "None";
          assert p[j] in "=None";
        }
      }
    }
    NoCommaSpaceNotContained(p);
    CommaSpaceCleanly(p);
  }

  lemma {:induction false} BindingsOfRendered(binds: seq<(string, Option<string>)>)
    requires forall b :: b in binds ==>
      && (forall i :: 0 <= i < |b.0| ==> b.0[i] != '=')
      && (b.1.Some? ==> b.1.value != "None")
      && (b.1.Some? && |b.1.value| > 0 ==> b.1.value[0] != '"' && b.1.value[|b.1.value| - 1] != '"')
    ensures Bindings(RenderPieces(binds)) == BindAll(binds)
    decreases |binds|
  {
    if |binds| > 0 {
      var init := binds[..|binds| - 1];
      var last := binds[|binds| - 1];
      assert RenderPieces(binds)[..|binds| - 1] == RenderPieces(init);
      BindingsOfRendered(init);
      DecodeRenderedPiece(last);
    }
  }

  /** Decoding a rendered call gives back its name and the map its bindings denote, a
      later duplicate key overwriting an earlier one. */
  lemma DecodeRenderedStep(name: string, binds: seq<(string, Option<string>)>)
    requires Renderable(name, binds)
    ensures ToolName(RenderStep(name, binds)) == name
    ensures DecodeParams(RenderStep(name, binds)) == BindAll(binds)
  {
    var body := Join(RenderPieces(binds), ", ");
    CallParts(name, body);
    BodyBindings(name, binds);
  }

  /** `name(body)` splits back into its name and its argument text. */
  lemma CallParts(name: string, body: string)
    requires forall i :: 0 <= i < |name| ==> name[i] != '('
    ensures ToolName(name + "(" + body + ")") == name
    ensures ParamText(name + "(" + body + ")") == body
  {
    var step := name + "(" + body + ")";
    assert step[|name|] == '(';
    assert forall i :: 0 <= i < |name| ==> step[i] == name[i];
    assert IndexOf(step, '(') == Some(|name|);
    assert step[..|name|] == name;
    assert LastIndexOf(step, ')') == Some(|step| - 1);
    if |name| + 1 < |step| - 1 {
      assert step[|name| + 1..|step| - 1] == body;
    }
  }

  /** The argument text of a rendered call binds what its bindings denote. */
  lemma BodyBindings(name: string, binds: seq<(string, Option<string>)>)
    requires Renderable(name, binds)
    ensures Bindings(Split(Join(RenderPieces(binds), ", "), ", ")) == BindAll(binds)
  {
    var pieces := RenderPieces(binds);
    if |binds| == 0 {
      assert Join(pieces, ", ") == "";
      assert Split("", ", ") == [""];
      assert DecodePiece("").None?;
      assert Bindings([""]) == map[];
    } else {
      forall i | 0 <= i < |pieces|
        ensures !Contains(pieces[i], ", ") && SplitsCleanly(pieces[i], ", ")
      {
        assert binds[i] in binds;
        RenderedPieceIsClean(binds[i]);
      }
      SplitJoin(pieces, ", ");
      BindingsOfRendered(binds);
    }
  }

  // ---------------------------------------------------------------- running

  /** A tool as `execute_plan` calls it: given the name and the decoded arguments, the
      decoded value it returned or the text of the exception it raised. */
  type Adapter = (string, Args) -> Outcome

  /** The record logged for a step whose tool resolves. */
  function RunStep(step: string, adapter: Adapter): (r: ExecRecord)
    ensures r.tool == ToolName(step) && r.params == DecodeParams(step)
    ensures r.outcome == adapter(r.tool, r.params)
  {
    var name := ToolName(step);
    var params := DecodeParams(step);
    ExecRecord(name, params, adapter(name, params))
  }

  /** The execution log of a plan: steps whose tool name resolves each log one record,
      in plan order; the others log nothing. */
  function ExecuteSteps(plan: seq<string>, adapter: Adapter): (log: seq<ExecRecord>)
    ensures |log| <= |plan|
    decreases |plan|
  {
    if |plan| == 0 then [] else ExecuteSteps(plan[..|plan| - 1], adapter) + StepLog(plan[|plan| - 1], adapter)
  }

  /** What one step adds to the log: its record when its tool resolves, nothing otherwise. */
  function StepLog(step: string, adapter: Adapter): (r: seq<ExecRecord>)
    ensures |r| <= 1
  {
    if KnownTool(ToolName(step)) then [RunStep(step, adapter)] else []
  }

  /** Every logged record names a resolvable tool and holds what the adapter produced
      for the logged name and arguments. */
  lemma {:induction false} LoggedRecords(plan: seq<string>, adapter: Adapter)
    ensures forall i :: 0 <= i < |ExecuteSteps(plan, adapter)| ==> Logged(ExecuteSteps(plan, adapter)[i], adapter)
    decreases |plan|
  {
    if |plan| > 0 {
      var init := plan[..|plan| - 1];
      LoggedRecords(init, adapter);
      var last := plan[|plan| - 1];
      if KnownTool(ToolName(last)) {
        LoggedAppend(ExecuteSteps(init, adapter), RunStep(last, adapter), adapter);
      } else {
        assert ExecuteSteps(plan, adapter) == ExecuteSteps(init, adapter) + [];
      }
    }
  }

  /** A record that names a resolvable tool and holds the adapter's outcome. */
  predicate Logged(rec: ExecRecord, adapter: Adapter) {
    KnownTool(rec.tool) && rec.outcome == adapter(rec.tool, rec.params)
  }

  /** Appending a well-logged record to a well-logged log. */
  lemma LoggedAppend(log: seq<ExecRecord>, rec: ExecRecord, adapter: Adapter)
    requires forall i :: 0 <= i < |log| ==> Logged(log[i], adapter)
    requires Logged(rec, adapter)
    ensures forall i :: 0 <= i < |log + [rec]| ==> Logged((log + [rec])[i], adapter)
  {
  }

  /** Running a plan is running its parts one after the other. */
  lemma {:induction false} ExecuteConcat(p: seq<string>, q: seq<string>, adapter: Adapter)
    ensures ExecuteSteps(p + q, adapter) == ExecuteSteps(p, adapter) + ExecuteSteps(q, adapter)
    decreases |q|
  {
    if |q| == 0 {
      assert p + q == p;
    } else {
      var q' := q[..|q| - 1];
      var c := StepLog(q[|q| - 1], adapter);
      assert (p + q)[..|p + q| - 1] == p + q';
      assert (p + q)[|p + q| - 1] == q[|q| - 1];
      ExecuteConcat(p, q', adapter);
      AppendAssoc(ExecuteSteps(p, adapter), ExecuteSteps(q', adapter), c);
    }
  }

  /** A single step logs exactly one record when its tool resolves and none otherwise. */
  lemma ExecuteOne(step: string, adapter: Adapter)
    ensures ExecuteSteps([step], adapter) ==
      if KnownTool(ToolName(step)) then [RunStep(step, adapter)] else []
  {
    assert [step][..0] == [];
  }

  /** When every step's tool resolves, the log has one record per step, in plan order. */
  lemma {:induction false} ExecuteResolved(plan: seq<string>, adapter: Adapter)
    requires forall i :: 0 <= i < |plan| ==> KnownTool(ToolName(plan[i]))
    ensures |ExecuteSteps(plan, adapter)| == |plan|
    ensures forall i :: 0 <= i < |plan| ==> ExecuteSteps(plan, adapter)[i] == RunStep(plan[i], adapter)
    decreases |plan|
  {
    if |plan| > 0 {
      var init := plan[..|plan| - 1];
      ExecuteResolved(init, adapter);
      var prev := ExecuteSteps(init, adapter);
      assert ExecuteSteps(plan, adapter) == prev + [RunStep(plan[|plan| - 1], adapter)];
      forall i | 0 <= i < |plan| - 1
        ensures ExecuteSteps(plan, adapter)[i] == RunStep(plan[i], adapter)
      {
        assert init[i] == plan[i];
      }
    }
  }

  // ---------------------------------------------------------------- grouping

  /** The argument `key` is present and a non-empty string. */
  predicate ArgTruthy(params: Args, key: string) {
    key in params && params[key].Some? && |params[key].value| > 0
  }

  /** `params.get("departure_date") or params.get("checkin_date") or
      params.get("destination")`: the first truthy date, else the destination as it is,
      which may be `None` or empty. */
  function GroupKey(params: Args): (r: Option<string>)
    ensures ArgTruthy(params, "departure_date") ==> r == params["departure_date"]
    ensures !ArgTruthy(params, "departure_date") && ArgTruthy(params, "checkin_date") ==>
      r == params["checkin_date"]
    ensures r.None? <==>
      !ArgTruthy(params, "departure_date") && !ArgTruthy(params, "checkin_date")
      && ("destination" !in params || params["destination"].None?)
  {
    if ArgTruthy(params, "departure_date") then params["departure_date"]
    else if ArgTruthy(params, "checkin_date") then params["checkin_date"]
    else if "destination" in params then params["destination"]
    else None
  }

  /** The grouping keys of the successful records, in log order. */
  function SuccessKeys(log: seq<ExecRecord>): seq<Option<string>>
    decreases |log|
  {
    if |log| == 0 then []
    else
      var last := log[|log| - 1];
      SuccessKeys(log[..|log| - 1]) + (if Succeeded(last) then [GroupKey(last.params)] else [])
  }

  /** The successful records with grouping key `k`, in log order. */
  function RecordsWithKey(log: seq<ExecRecord>, k: Option<string>): (r: seq<ExecRecord>)
    ensures forall i :: 0 <= i < |r| ==> Succeeded(r[i]) && GroupKey(r[i].params) == k
    ensures IsSubsequence(r, log)
    decreases |log|
  {
    if |log| == 0 then []
    else
      var init := log[..|log| - 1];
      var last := log[|log| - 1];
      var r := RecordsWithKey(init, k);
      SubsequenceSnoc(r, init, last);
      assert init + [last] == log;
      if Succeeded(last) && GroupKey(last.params) == k then r + [last] else r
  }

  function Keys(groups: seq<Group>): (r: seq<Option<string>>)
    ensures |r| == |groups| && forall i :: 0 <= i < |r| ==> r[i] == groups[i].key
  {
    seq(|groups|, i requires 0 <= i < |groups| => groups[i].key)
  }

  predicate DistinctKeys(groups: seq<Group>) {
    forall i, j :: 0 <= i < j < |groups| ==> groups[i].key != groups[j].key
  }

  /** `r` is `groups` with `rec` appended to the bucket of `k`, opened at the end when
      `k` is new. */
  predicate Appended(groups: seq<Group>, k: Option<string>, rec: ExecRecord, r: seq<Group>) {
    && DistinctKeys(r)
    && Keys(r) == (if k in Keys(groups) then Keys(groups) else Keys(groups) + [k])
    && |groups| <= |r|
    && (forall i :: 0 <= i < |groups| ==>
          r[i].records == groups[i].records + (if groups[i].key == k then [rec] else []))
    && (k !in Keys(groups) ==> r[|groups|] == Group(k, [rec]))
  }

  /** `search_results[k].append(rec)`, creating the bucket at the end when `k` is new. */
  function AddToGroup(groups: seq<Group>, k: Option<string>, rec: ExecRecord): (r: seq<Group>)
    requires DistinctKeys(groups)
    ensures DistinctKeys(r)
    ensures Keys(r) == if k in Keys(groups) then Keys(groups) else Keys(groups) + [k]
    ensures forall i :: 0 <= i < |groups| ==>
      r[i].records == groups[i].records + (if groups[i].key == k then [rec] else [])
    ensures k !in Keys(groups) ==> r[|groups|] == Group(k, [rec])
    decreases |groups|
  {
    if |groups| == 0 then
      AppendToEmpty(k, rec);
      [Group(k, [rec])]
    else if groups[0].key == k then
      AppendToFirst(groups, rec);
      [groups[0].(records := groups[0].records + [rec])] + groups[1..]
    else
      var rest := AddToGroup(groups[1..], k, rec);
      AppendPastFirst(groups, k, rec, rest);
      [groups[0]] + rest
  }

  lemma AppendToEmpty(k: Option<string>, rec: ExecRecord)
    ensures Appended([], k, rec, [Group(k, [rec])])
  {
    assert Keys([Group(k, [rec])]) == [k];
  }

  lemma AppendToFirst(groups: seq<Group>, rec: ExecRecord)
    requires |groups| > 0 && DistinctKeys(groups)
    ensures Appended(groups, groups[0].key, rec,
      [groups[0].(records := groups[0].records + [rec])] + groups[1..])
  {
    var r := [groups[0].(records := groups[0].records + [rec])] + groups[1..];
    assert Keys(r) == Keys(groups);
  }

  lemma AppendPastFirst(groups: seq<Group>, k: Option<string>, rec: ExecRecord, rest: seq<Group>)
    requires |groups| > 0 && DistinctKeys(groups) && groups[0].key != k
    requires Appended(groups[1..], k, rec, rest)
    ensures Appended(groups, k, rec, [groups[0]] + rest)
  {
    PastFirstKeys(groups, k, rec, rest);
    PastFirstDistinct(groups, k, rec, rest);
    PastFirstRecords(groups, k, rec, rest);
  }

  lemma PastFirstRecords(groups: seq<Group>, k: Option<string>, rec: ExecRecord, rest: seq<Group>)
    requires |groups| > 0 && groups[0].key != k
    requires |groups[1..]| <= |rest|
    requires forall i :: 0 <= i < |groups[1..]| ==>
      rest[i].records == groups[1..][i].records + (if groups[1..][i].key == k then [rec] else [])
    requires k !in Keys(groups[1..]) ==> |groups[1..]| < |rest| && rest[|groups[1..]|] == Group(k, [rec])
    requires k in Keys(groups) <==> k in Keys(groups[1..])
    ensures var r := [groups[0]] + rest;
      && |groups| <= |r|
      && (forall i :: 0 <= i < |groups| ==>
            r[i].records == groups[i].records + (if groups[i].key == k then [rec] else []))
      && (k !in Keys(groups) ==> |groups| < |r| && r[|groups|] == Group(k, [rec]))
  {
    var r := [groups[0]] + rest;
    forall i | 0 <= i < |groups|
      ensures r[i].records == groups[i].records + (if groups[i].key == k then [rec] else [])
    {
      if i > 0 {
        assert groups[i] == groups[1..][i - 1];
      }
    }
  }

  lemma PastFirstKeys(groups: seq<Group>, k: Option<string>, rec: ExecRecord, rest: seq<Group>)
    requires |groups| > 0 && groups[0].key != k
    requires Keys(rest) == if k in Keys(groups[1..]) then Keys(groups[1..]) else Keys(groups[1..]) + [k]
    ensures k in Keys(groups) <==> k in Keys(groups[1..])
    ensures Keys([groups[0]] + rest) == if k in Keys(groups) then Keys(groups) else Keys(groups) + [k]
  {
    KeysCons(groups[0], groups[1..]);
    assert [groups[0]] + groups[1..] == groups;
    KeysCons(groups[0], rest);
    if k in Keys(groups[1..]) {
      assert Keys([groups[0]] + rest) == Keys(groups);
    } else {
      assert Keys([groups[0]] + rest) == [groups[0].key] + (Keys(groups[1..]) + [k]);
    }
  }

  lemma KeysCons(g: Group, gs: seq<Group>)
    ensures Keys([g] + gs) == [g.key] + Keys(gs)
  {
  }

  lemma PastFirstDistinct(groups: seq<Group>, k: Option<string>, rec: ExecRecord, rest: seq<Group>)
    requires |groups| > 0 && DistinctKeys(groups) && groups[0].key != k
    requires DistinctKeys(rest)
    requires Keys(rest) == if k in Keys(groups[1..]) then Keys(groups[1..]) else Keys(groups[1..]) + [k]
    ensures DistinctKeys([groups[0]] + rest)
  {
    var r := [groups[0]] + rest;
    assert groups[0].key !in Keys(groups[1..]);
    assert groups[0].key !in Keys(rest);
    forall i, j | 0 <= i < j < |r|
      ensures r[i].key != r[j].key
    {
      if i == 0 {
        assert Keys(rest)[j - 1] == r[j].key;
      }
    }
  }

  /** A key no successful record carries has no records. */
  lemma {:induction false} NoRecordsForAbsentKey(log: seq<ExecRecord>, k: Option<string>)
    requires k !in SuccessKeys(log)
    ensures RecordsWithKey(log, k) == []
    decreases |log|
  {
    if |log| > 0 {
      NoRecordsForAbsentKey(log[..|log| - 1], k);
    }
  }

  /** `groups` is the `search_results` rebuild of `log`. */
  predicate GroupsOf(log: seq<ExecRecord>, groups: seq<Group>) {
    && DistinctKeys(groups)
    && Keys(groups) == Distinct(SuccessKeys(log))
    && forall i :: 0 <= i < |groups| ==> groups[i].records == RecordsWithKey(log, groups[i].key)
  }

  /** A failed record leaves the rebuild as it was. */
  lemma FailedRecordKeepsGroups(log: seq<ExecRecord>, groups: seq<Group>)
    requires |log| > 0 && !Succeeded(log[|log| - 1])
    requires GroupsOf(log[..|log| - 1], groups)
    ensures GroupsOf(log, groups)
  {
    var init := log[..|log| - 1];
    assert SuccessKeys(log) == SuccessKeys(init);
    forall i | 0 <= i < |groups|
      ensures groups[i].records == RecordsWithKey(log, groups[i].key)
    {
      assert RecordsWithKey(log, groups[i].key) == RecordsWithKey(init, groups[i].key);
    }
  }

  /** A successful record's key joins the key list when it is new. */
  lemma KeysAfterSuccess(log: seq<ExecRecord>, groups: seq<Group>)
    requires |log| > 0 && Succeeded(log[|log| - 1])
    requires DistinctKeys(groups) && Keys(groups) == Distinct(SuccessKeys(log[..|log| - 1]))
    ensures Keys(AddToGroup(groups, GroupKey(log[|log| - 1].params), log[|log| - 1]))
      == Distinct(SuccessKeys(log))
  {
    var init := log[..|log| - 1];
    var k := GroupKey(log[|log| - 1].params);
    assert SuccessKeys(log) == SuccessKeys(init) + [k];
    assert k in Keys(groups) <==> k in SuccessKeys(init) by {
      if k in SuccessKeys(init) {
        var j :| 0 <= j < |SuccessKeys(init)| && SuccessKeys(init)[j] == k;
        assert k in Distinct(SuccessKeys(init));
      }
    }
    DistinctSnoc(SuccessKeys(init), k);
  }

  /** An existing bucket gains the successful record exactly when it has its key. */
  lemma OldBucketAfterSuccess(log: seq<ExecRecord>, groups: seq<Group>, i: nat)
    requires |log| > 0 && Succeeded(log[|log| - 1]) && DistinctKeys(groups)
    requires i < |groups| && groups[i].records == RecordsWithKey(log[..|log| - 1], groups[i].key)
    ensures var r := AddToGroup(groups, GroupKey(log[|log| - 1].params), log[|log| - 1]);
      i < |r| && r[i].key == groups[i].key && r[i].records == RecordsWithKey(log, r[i].key)
  {
    var r := AddToGroup(groups, GroupKey(log[|log| - 1].params), log[|log| - 1]);
    assert Keys(r)[i] == Keys(groups)[i];
  }

  /** A bucket opened for a new key holds just the record that opened it. */
  lemma NewBucketAfterSuccess(log: seq<ExecRecord>, groups: seq<Group>)
    requires |log| > 0 && Succeeded(log[|log| - 1]) && DistinctKeys(groups)
    requires Keys(groups) == Distinct(SuccessKeys(log[..|log| - 1]))
    requires GroupKey(log[|log| - 1].params) !in Keys(groups)
    ensures var k := GroupKey(log[|log| - 1].params);
      var r := AddToGroup(groups, k, log[|log| - 1]);
      |groups| < |r| && r[|groups|].key == k && r[|groups|].records == RecordsWithKey(log, k)
  {
    var init := log[..|log| - 1];
    var k := GroupKey(log[|log| - 1].params);
    assert k !in SuccessKeys(init);
    NoRecordsForAbsentKey(init, k);
  }

  /** After a successful record, every bucket holds exactly its key's records. */
  lemma BucketsAfterSuccess(log: seq<ExecRecord>, groups: seq<Group>)
    requires |log| > 0 && Succeeded(log[|log| - 1])
    requires GroupsOf(log[..|log| - 1], groups)
    ensures var r := AddToGroup(groups, GroupKey(log[|log| - 1].params), log[|log| - 1]);
      forall i :: 0 <= i < |r| ==> r[i].records == RecordsWithKey(log, r[i].key)
  {
    var k := GroupKey(log[|log| - 1].params);
    var r := AddToGroup(groups, k, log[|log| - 1]);
    forall i | 0 <= i < |r|
      ensures r[i].records == RecordsWithKey(log, r[i].key)
    {
      if i < |groups| {
        OldBucketAfterSuccess(log, groups, i);
      } else {
        assert k !in Keys(groups) && i == |groups| by {
          assert |Keys(r)| == |r|;
        }
        NewBucketAfterSuccess(log, groups);
      }
    }
  }

  /** A successful record is appended to the bucket of its key, opened if new. */
  lemma SucceededRecordExtendsGroups(log: seq<ExecRecord>, groups: seq<Group>)
    requires |log| > 0 && Succeeded(log[|log| - 1])
    requires GroupsOf(log[..|log| - 1], groups)
    ensures GroupsOf(log, AddToGroup(groups, GroupKey(log[|log| - 1].params), log[|log| - 1]))
  {
    KeysAfterSuccess(log, groups);
    BucketsAfterSuccess(log, groups);
  }

  /** The `search_results` rebuild: one bucket per distinct key of the successful
      records, buckets in first-seen order, each holding exactly the successful records
      with its key, in log order. Failed records are in no bucket. */
  function GroupRecords(log: seq<ExecRecord>): (r: seq<Group>)
    ensures DistinctKeys(r)
    ensures Keys(r) == Distinct(SuccessKeys(log))
    ensures forall i :: 0 <= i < |r| ==> r[i].records == RecordsWithKey(log, r[i].key)
    decreases |log|
  {
    if |log| == 0 then []
    else
      var g := GroupRecords(log[..|log| - 1]);
      var last := log[|log| - 1];
      if !Succeeded(last) then
        FailedRecordKeepsGroups(log, g);
        g
      else
        SucceededRecordExtendsGroups(log, g);
        AddToGroup(g, GroupKey(last.params), last)
  }

  /** Every successful record lands in the bucket of its own key. */
  lemma GroupsCoverSuccesses(log: seq<ExecRecord>, i: nat)
    requires i < |log| && Succeeded(log[i])
    ensures GroupKey(log[i].params) in Keys(GroupRecords(log))
  {
    SuccessKeyListed(log, i);
  }

  lemma {:induction false} SuccessKeyListed(log: seq<ExecRecord>, i: nat)
    requires i < |log| && Succeeded(log[i])
    ensures GroupKey(log[i].params) in SuccessKeys(log)
    decreases |log|
  {
    if i < |log| - 1 {
      SuccessKeyListed(log[..|log| - 1], i);
    }
  }

  /** `execute_plan`: the log of this run replaces `execution_history`, the buckets are
      rebuilt from it, and nothing else in the state changes. */
  function ExecutePlan(state: PlanningState, adapter: Adapter): (r: PlanningState)
    ensures r.(executionHistory := state.executionHistory, searchResults := state.searchResults) == state
    ensures |r.executionHistory| <= |state.currentPlan|
    ensures DistinctKeys(r.searchResults)
    ensures forall i :: 0 <= i < |r.searchResults| ==>
      forall rec :: rec in r.searchResults[i].records ==>
        Succeeded(rec) && GroupKey(rec.params) == r.searchResults[i].key
    ensures r.executionHistory == ExecuteSteps(state.currentPlan, adapter)
    ensures forall i :: 0 <= i < |r.executionHistory| ==> Logged(r.executionHistory[i], adapter)
    ensures GroupsOf(r.executionHistory, r.searchResults)
  {
    var log := ExecuteSteps(state.currentPlan, adapter);
    LoggedRecords(state.currentPlan, adapter);
    state.(executionHistory := log, searchResults := GroupRecords(log))
  }
}
