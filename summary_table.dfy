/**
 * `create_summary_df` (utils.py, lines 38-68): fill in default aggregation functions,
 * build the per-column aggregation specification, let the data-frame library group and
 * aggregate, and flatten the resulting two-level column names into single names.
 * The grouping and aggregation themselves are an uninterpreted function of the frame;
 * only the names of the aggregation functions the library accepts are known.
 */
module SummaryTable {
  import opened Wrappers

  /** An aggregation argument: a list of function names, or a single name passed as a string. */
  datatype FuncSpec = Names(names: seq<string>) | Name(name: string)

  /**
   * `df[k]` or `groupby(k)` on a column the frame does not have, or `agg` given a function name
   * the data-frame library does not know.
   */
  datatype Error = KeyError(column: string) | UnknownAggregation

  /**
   * A data frame as far as the summary sees it: which columns exist and whether each has a
   * numeric dtype, the aggregation function names the library accepts, and the column tuples
   * that grouping by a column and aggregating with a specification produce (after `reset_index`).
   */
  datatype Frame = Frame(
    numeric: map<string, bool>,
    known: set<string>,
    aggregate: (string, map<string, FuncSpec>) -> seq<seq<string>>)

  /** The aggregation specification that was used and the flattened column names of the result. */
  datatype Summary = Summary(aggregations: map<string, FuncSpec>, columns: seq<string>)

  const DefaultFunctions: seq<string> := ["min", "max", "mean"]
  const DefaultFallback: seq<string> := ["count"]

  /** `f is None or not f`: absent, an empty list or an empty string. */
  predicate Missing(f: Option<FuncSpec>)
    ensures Missing(f) <==> f == None || f == Some(Names([])) || f == Some(Name(""))
  {
    match f
    case None => true
    case Some(Names(ns)) => ns == []
    case Some(Name(n)) => n == ""
  }

  /** Lines 52-56: a missing argument is replaced by the default list; a given one is kept. */
  function WithDefault(f: Option<FuncSpec>, default: seq<string>): (r: FuncSpec)
    ensures Missing(f) ==> r == Names(default)
    ensures !Missing(f) ==> Some(r) == f
    ensures default != [] ==> !Missing(Some(r))
  {
    if Missing(f) then Names(default) else f.value
  }

  /** `list(functions)`: a list is copied; a string is split into its one-character strings. */
  function ListOf(f: FuncSpec): (r: seq<string>)
    ensures f.Names? ==> r == f.names
    ensures f.Name? ==> |r| == |f.name| && forall i :: 0 <= i < |r| ==> r[i] == [f.name[i]]
  {
    match f
    case Names(ns) => ns
    case Name(n) => seq(|n|, i requires 0 <= i < |n| => [n[i]])
  }

  /** A function name given as a string of two or more characters is not kept as one function. */
  lemma StringFunctionsSplit(n: string)
    requires |n| >= 2
    ensures ListOf(Name(n)) != [n]
    ensures ListOf(Name(n))[0] == [n[0]]
  {
  }

  /** The specification line 60 gives one column. */
  function ColumnSpec(frame: Frame, column: string, functions: FuncSpec, fallback: FuncSpec): (r: FuncSpec)
    requires column in frame.numeric
    ensures frame.numeric[column] ==> r.Names? && r.names == ListOf(functions)
    ensures !frame.numeric[column] ==> r == fallback
  {
    if frame.numeric[column] then Names(ListOf(functions)) else fallback
  }

  /**
   * Line 60: one entry per aggregator column, the function list for a numeric column and the
   * fallback otherwise; the first aggregator the frame lacks raises `KeyError`.
   */
  function AggregationMap(frame: Frame, aggregators: seq<string>, functions: FuncSpec, fallback: FuncSpec)
    : (r: Result<map<string, FuncSpec>, Error>)
    ensures r.Ok? <==> forall k :: k in aggregators ==> k in frame.numeric
    ensures r.Ok? ==> r.value.Keys == set k | k in aggregators
    ensures r.Ok? ==> forall k :: k in r.value ==>
      k in frame.numeric && r.value[k] == (if frame.numeric[k] then Names(ListOf(functions)) else fallback)
    ensures r.Err? ==>
      r.error.KeyError? &&
      exists i :: 0 <= i < |aggregators| && aggregators[i] == r.error.column &&
        aggregators[i] !in frame.numeric && forall j :: 0 <= j < i ==> aggregators[j] in frame.numeric
  {
    if aggregators == [] then Ok(map[])
    else if aggregators[0] !in frame.numeric then Err(KeyError(aggregators[0]))
    else
      var rest :- AggregationMap(frame, aggregators[1..], functions, fallback);
      assert forall k :: k in aggregators ==> k == aggregators[0] || k in aggregators[1..];
      Ok(rest[aggregators[0] := ColumnSpec(frame, aggregators[0], functions, fallback)])
  }

  function TotalLength(parts: seq<string>): nat {
    if parts == [] then 0 else |parts[0]| + TotalLength(parts[1..])
  }

  /** The length taken by `count` separators. */
  function SeparatorsLength(sep: string, count: nat): (n: nat)
    ensures n == count * |sep|
  {
    if count == 0 then 0 else |sep| + SeparatorsLength(sep, count - 1)
  }

  /** Every part in order, each one preceded by `sep`. */
  function JoinTail(sep: string, parts: seq<string>): (r: string)
    ensures |r| == TotalLength(parts) + SeparatorsLength(sep, |parts|)
  {
    if parts == [] then [] else sep + parts[0] + JoinTail(sep, parts[1..])
  }

  /** The last part ends the string `JoinTail` builds. */
  lemma {:induction false} JoinTailEnds(sep: string, parts: seq<string>)
    requires parts != []
    ensures |parts[|parts| - 1]| <= |JoinTail(sep, parts)|
    ensures var r, last := JoinTail(sep, parts), parts[|parts| - 1]; r[|r| - |last|..] == last
  {
    var r, last := JoinTail(sep, parts), parts[|parts| - 1];
    if |parts| == 1 {
      assert r == sep + last + [];
    } else {
      var rest := JoinTail(sep, parts[1..]);
      JoinTailEnds(sep, parts[1..]);
      assert parts[1..][|parts[1..]| - 1] == last;
      assert r == (sep + parts[0]) + rest;
      assert r[|r| - |last|..] == rest[|rest| - |last|..];
    }
  }

  /** `sep.join(parts)`: the parts in order with `sep` between neighbours. */
  function Join(sep: string, parts: seq<string>): (r: string)
    ensures parts == [] ==> r == []
    ensures parts != [] ==> |r| == TotalLength(parts) + SeparatorsLength(sep, |parts| - 1)
    ensures |parts| == 1 ==> r == parts[0]
    ensures parts != [] ==> r[..|parts[0]|] == parts[0]
    ensures parts != [] ==> |parts[|parts| - 1]| <= |r| && r[|r| - |parts[|parts| - 1]|..] == parts[|parts| - 1]
  {
    if parts == [] then []
    else
      var tail := JoinTail(sep, parts[1..]);
      if |parts| == 1 then
        assert tail == [];
        parts[0] + tail
      else
        JoinTailEnds(sep, parts[1..]);
        assert parts[1..][|parts[1..]| - 1] == parts[|parts| - 1];
        parts[0] + tail
  }

  /** Putting a separator before every part distributes over concatenation of the part lists. */
  lemma {:induction false} JoinTailAppend(sep: string, a: seq<string>, b: seq<string>)
    ensures JoinTail(sep, a + b) == JoinTail(sep, a) + JoinTail(sep, b)
  {
    if a == [] {
      assert a + b == b;
    } else {
      assert (a + b)[0] == a[0];
      assert (a + b)[1..] == a[1..] + b;
      JoinTailAppend(sep, a[1..], b);
    }
  }

  /** Joining a concatenation joins the two halves with one more separator between them. */
  lemma {:induction false} JoinAppend(sep: string, a: seq<string>, b: seq<string>)
    requires a != [] && b != []
    ensures Join(sep, a + b) == Join(sep, a) + sep + Join(sep, b)
  {
    var ta, tb := JoinTail(sep, a[1..]), JoinTail(sep, b[1..]);
    calc {
      Join(sep, a + b);
      { assert (a + b)[0] == a[0] && (a + b)[1..] == a[1..] + b; }
      a[0] + JoinTail(sep, a[1..] + b);
      { JoinTailAppend(sep, a[1..], b); }
      a[0] + (ta + JoinTail(sep, b));
      { assert JoinTail(sep, b) == sep + b[0] + tb; }
      a[0] + (ta + (sep + b[0] + tb));
      (a[0] + ta) + sep + (b[0] + tb);
    }
  }

  /** Where the pattern `_$` matches: a final underscore, or one just before a final newline. */
  predicate EndMatch(s: string) {
    (|s| >= 1 && s[|s| - 1] == '_') || (|s| >= 2 && s[|s| - 1] == '\n' && s[|s| - 2] == '_')
  }

  /**
   * `re.sub('^_|_$', '', s)`: drop one leading underscore, then one underscore that ends the
   * string (or precedes its final newline); nothing else changes.
   */
  function StripEdge(s: string): (r: string)
    ensures |s| - 2 <= |r| <= |s|
    ensures |s| > 0 && s[0] == '_' ==> |r| < |s|
    ensures (s == [] || s[0] != '_') && !EndMatch(s) ==> r == s
    ensures |s| > 0 && s[0] == '_' && !EndMatch(s[1..]) ==> r == s[1..]
    ensures (s == [] || s[0] != '_') && |s| >= 1 && s[|s| - 1] == '_' ==> r == s[..|s| - 1]
    ensures (s == [] || s[0] != '_') && |s| >= 2 && s[|s| - 1] == '\n' && s[|s| - 2] == '_' ==>
      r == s[..|s| - 2] + "\n"
    ensures |s| >= 3 && s[0] == '_' && s[|s| - 1] == '\n' && s[|s| - 2] == '_' ==> r == s[1..|s| - 2] + "\n"
  {
    var t := if |s| > 0 && s[0] == '_' then s[1..] else s;
    if |t| >= 1 && t[|t| - 1] == '_' then t[..|t| - 1]
    else if |t| >= 2 && t[|t| - 1] == '\n' && t[|t| - 2] == '_' then t[..|t| - 2] + "\n"
    else t
  }

  /** A name the pattern leaves alone: no leading underscore and no end match. */
  predicate Plain(n: string) {
    n == [] || (n[0] != '_' && n[|n| - 1] != '_' && n[|n| - 1] != '\n')
  }

  /** Adding at most one underscore at each end of a plain name and stripping gives the name back. */
  lemma StripEdgeRoundTrip(n: string, lead: bool, trail: bool)
    requires Plain(n)
    ensures StripEdge((if lead then "_" else "") + n + (if trail then "_" else "")) == n
  {
    var s := (if lead then "_" else "") + n + (if trail then "_" else "");
    if lead && trail {
      assert s == "_" + n + "_";
      StripBothEnds(n);
    } else if lead {
      assert s == "_" + n;
      StripLeading(n);
    } else if trail {
      assert s == n + "_";
      StripTrailing(n);
    } else {
      assert s == n;
      StripNothing(n);
    }
  }

  /** A plain name has no edge to strip. */
  lemma StripNothing(n: string)
    requires Plain(n)
    ensures StripEdge(n) == n
  {
    assert !EndMatch(n);
  }

  /** One leading underscore before a plain name is stripped. */
  lemma StripLeading(n: string)
    requires Plain(n)
    ensures StripEdge("_" + n) == n
  {
    assert ("_" + n)[1..] == n;
    assert !EndMatch(n);
  }

  /** One trailing underscore after a plain name is stripped. */
  lemma StripTrailing(n: string)
    requires Plain(n)
    ensures StripEdge(n + "_") == n
  {
    var s := n + "_";
    if n == [] {
      assert s == "_";
      assert s[0] == '_' && s[1..] == [] && !EndMatch([]);
    } else {
      assert |s| == |n| + 1 && s[|s| - 1] == '_';
      assert s[0] == n[0] && n[0] != '_';
      assert s[..|s| - 1] == n;
    }
  }

  /** Exactly one underscore is stripped from each end, whatever the rest of the name holds. */
  lemma StripBothEnds(n: string)
    ensures StripEdge("_" + n + "_") == n
  {
    var t := ("_" + n + "_")[1..];
    assert t == n + "_";
    assert t[..|t| - 1] == n;
  }

  /** A first level that does not begin with an underscore. */
  predicate CleanStart(s: string) {
    s != [] && s[0] != '_'
  }

  /** A last level whose end the pattern `_$` cannot match. */
  predicate CleanEnd(s: string) {
    s != [] && s[|s| - 1] != '_' && s[|s| - 1] != '\n'
  }

  /**
   * Line 66 for one column tuple: a one-level tuple is its stripped name, and a tuple of two or
   * more levels that starts and ends cleanly is the plain underscore join of its levels.
   */
  function FlattenColumn(col: seq<string>): (r: string)
    ensures col == [] ==> r == []
    ensures |col| == 1 ==> r == StripEdge(col[0])
    ensures |col| >= 2 && CleanStart(col[0]) && CleanEnd(col[|col| - 1]) ==> r == Join("_", col)
  {
    var joined := Join("_", col);
    if |col| >= 2 && CleanStart(col[0]) && CleanEnd(col[|col| - 1]) then
      var last := col[|col| - 1];
      assert joined[0] == joined[..|col[0]|][0] == col[0][0];
      assert joined[|joined| - 1] == joined[|joined| - |last|..][|last| - 1] == last[|last| - 1];
      assert !EndMatch(joined);
      StripEdge(joined)
    else
      StripEdge(joined)
  }

  /** Line 66: one flattened name per column, in column order. */
  function FlattenColumns(cols: seq<seq<string>>): (names: seq<string>)
    ensures |names| == |cols|
    ensures forall i :: 0 <= i < |cols| ==> names[i] == FlattenColumn(cols[i])
  {
    seq(|cols|, i requires 0 <= i < |cols| => FlattenColumn(cols[i]))
  }

  lemma JoinPair(sep: string, a: string, b: string)
    ensures Join(sep, [a, b]) == a + sep + b
  {
    assert [a, b][1..] == [b];
  }

  /** The group key column, `(key, '')` after `reset_index`, flattens to the key when the key has no leading underscore. */
  lemma FlattenGroupKey(key: string)
    requires key == [] || key[0] != '_'
    ensures FlattenColumn([key, ""]) == key
  {
    JoinPair("_", key, "");
    var s := key + "_";
    if key != [] {
      assert s[0] == key[0];
      assert s[..|s| - 1] == key;
    }
  }

  /** A group key with a leading underscore loses it: `('_id', '')` flattens to `id`. */
  lemma FlattenGroupKeyLosesUnderscore(rest: string)
    ensures FlattenColumn(["_" + rest, ""]) == rest
  {
    JoinPair("_", "_" + rest, "");
    StripBothEnds(rest);
  }

  /** An aggregated column `(column, function)` flattens to `column_function`. */
  lemma FlattenAggregate(column: string, aggregation: string)
    requires CleanStart(column) && CleanEnd(aggregation)
    ensures FlattenColumn([column, aggregation]) == column + "_" + aggregation
  {
    JoinPair("_", column, aggregation);
  }

  /** A tuple whose first level is empty, `('', function)`, flattens to the function name. */
  lemma FlattenEmptyFirstLevel(aggregation: string)
    requires !EndMatch(aggregation)
    ensures FlattenColumn(["", aggregation]) == aggregation
  {
    JoinPair("_", "", aggregation);
    assert ("_" + aggregation)[1..] == aggregation;
  }

  /** Every function name in one column's specification is one the library accepts. */
  predicate KnownSpec(known: set<string>, spec: FuncSpec) {
    match spec
    case Names(ns) => forall i :: 0 <= i < |ns| ==> ns[i] in known
    case Name(n) => n in known
  }

  /** Lines 62-63: `agg` succeeds only when every column's specification uses known names. */
  predicate AllKnown(known: set<string>, aggs: map<string, FuncSpec>) {
    forall k :: k in aggs ==> KnownSpec(known, aggs[k])
  }

  /**
   * The whole routine: defaults, aggregation map, then grouping by `groupBy` (a `KeyError`
   * when the frame lacks it), aggregation (which fails on a function name the library does not
   * know) and flattening of the aggregated frame's column tuples.
   */
  function CreateSummaryDf(frame: Frame, groupBy: string, aggregators: seq<string>,
                           functions: Option<FuncSpec>, fallback: Option<FuncSpec>): (r: Result<Summary, Error>)
    ensures r.Ok? <==>
      && groupBy in frame.numeric
      && (forall k :: k in aggregators ==> k in frame.numeric)
      && (forall k :: k in aggregators ==>
            k in frame.numeric &&
            KnownSpec(frame.known, ColumnSpec(frame, k, WithDefault(functions, DefaultFunctions),
                                              WithDefault(fallback, DefaultFallback))))
    ensures !(forall k :: k in aggregators ==> k in frame.numeric) ==>
      r.Err? && r.error.KeyError? && r.error.column in aggregators && r.error.column !in frame.numeric
    ensures (forall k :: k in aggregators ==> k in frame.numeric) && groupBy !in frame.numeric ==>
      r == Err(KeyError(groupBy))
    ensures (forall k :: k in aggregators ==> k in frame.numeric) && groupBy in frame.numeric && r.Err? ==>
      r == Err(UnknownAggregation)
    ensures r.Ok? ==> r.value.aggregations.Keys == set k | k in aggregators
    ensures r.Ok? ==>
      forall k :: k in r.value.aggregations ==>
        && k in frame.numeric
        && (frame.numeric[k] ==>
              r.value.aggregations[k] == Names(if Missing(functions) then DefaultFunctions else ListOf(functions.value)))
        && (!frame.numeric[k] ==>
              r.value.aggregations[k] == (if Missing(fallback) then Names(DefaultFallback) else fallback.value))
    ensures r.Ok? ==>
      var cols := frame.aggregate(groupBy, r.value.aggregations);
      |r.value.columns| == |cols| && forall i :: 0 <= i < |cols| ==> r.value.columns[i] == FlattenColumn(cols[i])
  {
    var fs := WithDefault(functions, DefaultFunctions);
    var fb := WithDefault(fallback, DefaultFallback);
    var aggs :- AggregationMap(frame, aggregators, fs, fb);
    if groupBy !in frame.numeric then Err(KeyError(groupBy))
    else if !AllKnown(frame.known, aggs) then Err(UnknownAggregation)
    else Ok(Summary(aggs, FlattenColumns(frame.aggregate(groupBy, aggs))))
  }

  /**
   * A function name passed as a string is split into one-character names; when the library knows
   * no one-character name, a summary with a numeric aggregator fails instead of aggregating.
   */
  lemma StringFunctionsFail(frame: Frame, groupBy: string, aggregators: seq<string>, n: string,
                            fallback: Option<FuncSpec>, k: string)
    requires n != []
    requires forall name :: name in frame.known ==> |name| != 1
    requires k in aggregators && k in frame.numeric && frame.numeric[k]
    ensures CreateSummaryDf(frame, groupBy, aggregators, Some(Name(n)), fallback).Err?
  {
    var spec := ColumnSpec(frame, k, WithDefault(Some(Name(n)), DefaultFunctions), WithDefault(fallback, DefaultFallback));
    assert spec.names[0] == [n[0]];
    assert !KnownSpec(frame.known, spec);
  }

  /** With both arguments missing, a frame whose library knows min, max, mean and count always aggregates. */
  lemma DefaultsAggregate(frame: Frame, groupBy: string, aggregators: seq<string>)
    requires {"min", "max", "mean", "count"} <= frame.known
    requires groupBy in frame.numeric && forall k :: k in aggregators ==> k in frame.numeric
    ensures CreateSummaryDf(frame, groupBy, aggregators, None, None).Ok?
  {
    forall k | k in aggregators
      ensures KnownSpec(frame.known, ColumnSpec(frame, k, WithDefault(None, DefaultFunctions),
                                                WithDefault(None, DefaultFallback)))
    {
    }
  }
}
