/**
 * The Flux query builder `CustomFluxQuery`: an append-only list of stage
 * strings, rendered by joining them with newlines.  Every stage is an
 * f-string template over the caller's arguments, interpolated raw (nothing is
 * escaped).  Each template has a decoder beside it; the round-trip lemmas say
 * the text carries exactly the arguments it was built from, provided no
 * argument contains the character that ends its slot in the template.
 */
module Flux {
  import opened Wrappers
  import opened Text
  import opened Calendar
  import Rfc3339

  /** One entry of `range_filters`: `Min`/`Max` are already-rendered numeric literals. */
  datatype RangeFilter = RangeFilter(field: string, min: string, max: string, minEqual: bool, maxEqual: bool)

  /** The arguments of `add_window`. */
  datatype Window = Window(every: string, fn: string, column: string, timeStarting: bool, createEmpty: bool)

  /** A rendered scaling map: the column, the window bounds as text, slope and offset literals. */
  datatype Scaling = Scaling(field: string, start: string, end: string, slope: string, offset: string)

  /** One `scaling` entry: `Start`/`End`/`Slope`/`Offset` may be absent. */
  datatype ScaleConf = ScaleConf(field: string, start: Option<DateTime>, end: Option<DateTime>,
                                 slope: Option<string>, offset: Option<string>)

  // ---------------------------------------------------------------- templates

  const ImportDebug: string := "import \"internal/debug\""
  const ImportExperimental: string := "import \"experimental\""
  const FromLits: seq<string> := ["from(bucket: \"", "\")"]
  const RangeLits: seq<string> := ["  |> range(start: ", ", stop: ", ")"]
  const MeasurementLits: seq<string> := ["  |> filter(fn: (r) => r._measurement == \"", "\")"]

  const FieldPrefix: string := "  |> filter(fn: (r) => r[\"_field\"] == \""
  const FieldSep: string := "\" or r[\"_field\"] == \""
  const FieldSuffix: string := "\")"

  const FilterLits: seq<string> := ["  |> filter(fn: (r) => r[\"", "\"] == \"", "\")"]

  // The last literal is written as a concatenation so that the verifier sees its first character.
  const TargetedLits: seq<string> :=
    ["  |> map(fn: (r) => ({ r with \"_value\": if r[\"", "\"] == \"", "\" or r[\"_field\"] != \"",
     "\"" + " then r[\"_value\"] else debug.null(type: \"float\")}))"]

  const RangeClauseLits: seq<string> :=
    ["  |> filter(fn: (r) => r[\"", "\"] >", " ", " and r[\"", "\"] <", " ", ")"]

  const UnpivotStage: string := "  |> experimental.unpivot()"

  const ColumnSep: string := "\", \""
  const GroupPrefix: string := "  |> group(columns: [\""
  const GroupSuffix: string := "\"])"
  const PivotPrefix: string := "  |> pivot(rowKey: [\"_time\"], columnKey: [\""
  const PivotSuffix: string := "\"], valueColumn: \"_value\")"

  const WindowLits: seq<string> :=
    ["  |> aggregateWindow(every: ", ", fn: ", ", column: \"", "\", timeSrc: \"",
     "\", timeDst: \"_time\", createEmpty: ", ")"]

  const KeepStage: string := "  |> keep(columns: [\"_time\", \"_value\"])"
  const DropStartStopStage: string := "  |> drop(columns: [\"_start\", \"_stop\"])"

  const ScalingLits: seq<string> :=
    ["  |> map(fn: (r) => ({ r with \"", "\": if r[\"_time\"] >= ", " and r[\"_time\"] <= ",
     " then (r[\"", "\"] * float(v: ", ")) + float(v: ", ") else r[\"", "\"]}))"]

  const YieldLits: seq<string> := ["  |> yield(name: \"", "\")"]

  // ------------------------------------------------------------------- stages

  /** The five stages a fresh builder holds. */
  function Header(bucket: string, start: DateTime, end: DateTime, measurement: string): (h: seq<string>)
    requires Valid(start) && Valid(end)
    ensures |h| == 5
  {
    [ ImportDebug,
      ImportExperimental,
      Fill(FromLits, [bucket]),
      Fill(RangeLits, [Rfc3339.Format(start), Rfc3339.Format(end)]),
      Fill(MeasurementLits, [measurement]) ]
  }

  /** `add_field`: one filter ORing `_field` equality over the names. */
  function FieldStage(fields: seq<string>): string
  {
    FieldPrefix + Join(fields, FieldSep) + FieldSuffix
  }

  /** `add_filter`: keep rows whose tag `key` equals `value`. */
  function FilterStage(key: string, value: string): string
  {
    Fill(FilterLits, [key, value])
  }

  /** `add_specific_filter`: null `_value` of column `col` unless tag `key` equals `value`. */
  function TargetedStage(key: string, value: string, col: string): string
  {
    Fill(TargetedLits, [key, value, col])
  }

  function LowerEq(f: RangeFilter): string { if f.minEqual then "=" else "" }
  function UpperEq(f: RangeFilter): string { if f.maxEqual then "=" else "" }

  /** One range-filter clause of `add_filter_range`. */
  function RangeClause(f: RangeFilter): string
  {
    Fill(RangeClauseLits, [f.field, LowerEq(f), f.min, f.field, UpperEq(f), f.max])
  }

  /** The clauses of `add_filter_range`, one per entry, in input order. */
  function RangeClauses(filters: seq<RangeFilter>): (r: seq<string>)
    ensures |r| == |filters|
    ensures forall k :: 0 <= k < |filters| ==> r[k] == RangeClause(filters[k])
  {
    seq(|filters|, k requires 0 <= k < |filters| => RangeClause(filters[k]))
  }

  /** Everything `add_filter_range` appends: pivot on `_field`, the clauses, unpivot. */
  function RangeBlock(filters: seq<RangeFilter>): seq<string>
  {
    [PivotStage(["_field"])] + RangeClauses(filters) + [UnpivotStage]
  }

  /** `add_groups` (and `drop_columns`, which emits the same group stage). */
  function GroupStage(columns: seq<string>): string
  {
    GroupPrefix + Join(columns, ColumnSep) + GroupSuffix
  }

  /** `add_pivot`: one row per `_time`, one column per value of the column keys. */
  function PivotStage(columns: seq<string>): string
  {
    PivotPrefix + Join(columns, ColumnSep) + PivotSuffix
  }

  function TimeSource(timeStarting: bool): string
  {
    if timeStarting then "_start" else "_stop"
  }

  function BoolText(b: bool): string
  {
    if b then "true" else "false"
  }

  /** `add_window`. */
  function WindowStage(w: Window): string
  {
    Fill(WindowLits, [w.every, w.fn, w.column, TimeSource(w.timeStarting), BoolText(w.createEmpty)])
  }

  /** `add_scaling`, once its bounds and literals are rendered. */
  function ScalingStage(s: Scaling): string
  {
    Fill(ScalingLits, [s.field, s.start, s.end, s.field, s.slope, s.offset, s.field])
  }

  /**
   * The rendered form of a scaling entry inside a query over `[qStart, qEnd]`:
   * absent bounds default to the query's own, absent slope and offset to 1 and 0.
   */
  function RenderScaling(c: ScaleConf, qStart: DateTime, qEnd: DateTime): Scaling
    requires Valid(qStart) && Valid(qEnd)
    requires c.start.Some? ==> Valid(c.start.value)
    requires c.end.Some? ==> Valid(c.end.value)
  {
    var s := if c.start.Some? then c.start.value else qStart;
    var e := if c.end.Some? then c.end.value else qEnd;
    Scaling(c.field, Rfc3339.Format(s), Rfc3339.Format(e),
            if c.slope.Some? then c.slope.value else "1",
            if c.offset.Some? then c.offset.value else "0")
  }

  /** `add_yield`. */
  function YieldStage(name: string): string
  {
    Fill(YieldLits, [name])
  }

  /** `return_query`: the stages joined by newlines. */
  function Render(stages: seq<string>): string
  {
    Join(stages, "\n")
  }

  // ----------------------------------------------------------------- decoders

  function DecodeFrom(s: string): Option<string>
  {
    match Match(FromLits, s)
    case Some(a) => if |a| == 1 then Some(a[0]) else None
    case None => None
  }

  function DecodeRange(s: string): Option<(DateTime, DateTime)>
  {
    match Match(RangeLits, s)
    case Some(a) =>
      if |a| == 2 && Rfc3339.Parse(a[0]).Some? && Rfc3339.Parse(a[1]).Some?
      then Some((Rfc3339.Parse(a[0]).value, Rfc3339.Parse(a[1]).value))
      else None
    case None => None
  }

  function DecodeMeasurement(s: string): Option<string>
  {
    match Match(MeasurementLits, s)
    case Some(a) => if |a| == 1 then Some(a[0]) else None
    case None => None
  }

  function DecodeFields(s: string): Option<seq<string>>
  {
    match Unwrap(s, FieldPrefix, FieldSuffix)
    case Some(mid) => Some(SplitOn(mid, FieldSep))
    case None => None
  }

  function DecodeFilter(s: string): Option<(string, string)>
  {
    match Match(FilterLits, s)
    case Some(a) => if |a| == 2 then Some((a[0], a[1])) else None
    case None => None
  }

  function DecodeTargeted(s: string): Option<(string, string, string)>
  {
    match Match(TargetedLits, s)
    case Some(a) => if |a| == 3 then Some((a[0], a[1], a[2])) else None
    case None => None
  }

  function DecodeRangeClause(s: string): Option<RangeFilter>
  {
    match Match(RangeClauseLits, s)
    case Some(a) =>
      if |a| == 6 && a[0] == a[3] && a[1] in {"", "="} && a[4] in {"", "="}
      then Some(RangeFilter(a[0], a[2], a[5], a[1] == "=", a[4] == "="))
      else None
    case None => None
  }

  function DecodeGroup(s: string): Option<seq<string>>
  {
    match Unwrap(s, GroupPrefix, GroupSuffix)
    case Some(mid) => Some(SplitOn(mid, ColumnSep))
    case None => None
  }

  function DecodePivot(s: string): Option<seq<string>>
  {
    match Unwrap(s, PivotPrefix, PivotSuffix)
    case Some(mid) => Some(SplitOn(mid, ColumnSep))
    case None => None
  }

  function DecodeWindow(s: string): Option<Window>
  {
    match Match(WindowLits, s)
    case Some(a) =>
      if |a| == 5 && a[3] in {"_start", "_stop"} && a[4] in {"true", "false"}
      then Some(Window(a[0], a[1], a[2], a[3] == "_start", a[4] == "true"))
      else None
    case None => None
  }

  function DecodeScaling(s: string): Option<Scaling>
  {
    match Match(ScalingLits, s)
    case Some(a) =>
      if |a| == 7 && a[0] == a[3] && a[0] == a[6]
      then Some(Scaling(a[0], a[1], a[2], a[4], a[5]))
      else None
    case None => None
  }

  function DecodeYield(s: string): Option<string>
  {
    match Match(YieldLits, s)
    case Some(a) => if |a| == 1 then Some(a[0]) else None
    case None => None
  }

  // ------------------------------------------------------ round-trip lemmas

  lemma FormatAvoids(t: DateTime, c: char)
    requires Valid(t) && c in "\", )"
    ensures c !in Rfc3339.Format(t)
  {
    Rfc3339.FormatAlphabet(t);
  }

  /**
   * A fresh builder holds five stages: the two imports, then stages that read
   * back as the bucket, the range bounds (rendered by `dt_to_rfc3339`) and the
   * measurement.
   */
  lemma HeaderDecodes(bucket: string, start: DateTime, end: DateTime, measurement: string)
    requires Valid(start) && Valid(end)
    requires '"' !in bucket && '"' !in measurement
    ensures DecodeHeader(Header(bucket, start, end, measurement)) == Some((bucket, start, end, measurement))
  {
    FromDecodes(bucket);
    RangeDecodes(start, end);
    MeasurementDecodes(measurement);
  }

  function DecodeHeader(h: seq<string>): Option<(string, DateTime, DateTime, string)>
  {
    if |h| == 5 && h[0] == ImportDebug && h[1] == ImportExperimental then
      match (DecodeFrom(h[2]), DecodeRange(h[3]), DecodeMeasurement(h[4]))
      case (Some(b), Some(r), Some(m)) => Some((b, r.0, r.1, m))
      case _ => None
    else None
  }

  lemma FromDecodes(bucket: string)
    requires '"' !in bucket
    ensures DecodeFrom(Fill(FromLits, [bucket])) == Some(bucket)
  {
    MatchFill(FromLits, [bucket]);
  }

  lemma RangeDecodes(start: DateTime, end: DateTime)
    requires Valid(start) && Valid(end)
    ensures DecodeRange(Fill(RangeLits, [Rfc3339.Format(start), Rfc3339.Format(end)])) == Some((start, end))
  {
    FormatAvoids(start, ',');
    FormatAvoids(end, ')');
    MatchFill(RangeLits, [Rfc3339.Format(start), Rfc3339.Format(end)]);
    Rfc3339.ParseFormat(start);
    Rfc3339.ParseFormat(end);
  }

  lemma MeasurementDecodes(measurement: string)
    requires '"' !in measurement
    ensures DecodeMeasurement(Fill(MeasurementLits, [measurement])) == Some(measurement)
  {
    MatchFill(MeasurementLits, [measurement]);
  }

  /** The field filter reads back as exactly the requested names, in order. */
  lemma FieldStageDecodes(fields: seq<string>)
    requires |fields| >= 1 && AllAvoid(fields, '"')
    ensures DecodeFields(FieldStage(fields)) == Some(fields)
  {
    UnwrapWrap(FieldPrefix, Join(fields, FieldSep), FieldSuffix);
    SplitJoin(fields, FieldSep);
  }

  /** With no names, the field filter still renders and tests `_field == ""`. */
  lemma FieldStageEmpty()
    ensures DecodeFields(FieldStage([])) == Some([""])
  {
    UnwrapWrap(FieldPrefix, "", FieldSuffix);
    assert IndexOf("", FieldSep[0]) == 0;
  }

  lemma FilterStageDecodes(key: string, value: string)
    requires '"' !in key && '"' !in value
    ensures DecodeFilter(FilterStage(key, value)) == Some((key, value))
  {
    MatchFill(FilterLits, [key, value]);
  }

  lemma TargetedStageDecodes(key: string, value: string, col: string)
    requires '"' !in key && '"' !in value && '"' !in col
    ensures DecodeTargeted(TargetedStage(key, value, col)) == Some((key, value, col))
  {
    MatchFill(TargetedLits, [key, value, col]);
  }

  /**
   * A range clause reads back as its entry: in particular the lower bound is
   * `>=` exactly when `Min Equal` holds and the upper bound `<=` exactly when
   * `Max Equal` holds, and both comparisons name the same field.
   */
  lemma RangeClauseDecodes(f: RangeFilter)
    requires '"' !in f.field && ' ' !in f.min && ')' !in f.max
    ensures DecodeRangeClause(RangeClause(f)) == Some(f)
  {
    MatchFill(RangeClauseLits, [f.field, LowerEq(f), f.min, f.field, UpperEq(f), f.max]);
  }

  /** Flipping `Min Equal` (or `Max Equal`) always changes the clause text. */
  lemma RangeClauseFlags(f: RangeFilter, g: RangeFilter)
    requires '"' !in f.field && ' ' !in f.min && ')' !in f.max
    requires '"' !in g.field && ' ' !in g.min && ')' !in g.max
    requires RangeClause(f) == RangeClause(g)
    ensures f == g
  {
    RangeClauseDecodes(f);
    RangeClauseDecodes(g);
  }

  lemma GroupStageDecodes(columns: seq<string>)
    requires |columns| >= 1 && AllAvoid(columns, '"')
    ensures DecodeGroup(GroupStage(columns)) == Some(columns)
  {
    UnwrapWrap(GroupPrefix, Join(columns, ColumnSep), GroupSuffix);
    SplitJoin(columns, ColumnSep);
  }

  lemma PivotStageDecodes(columns: seq<string>)
    requires |columns| >= 1 && AllAvoid(columns, '"')
    ensures DecodePivot(PivotStage(columns)) == Some(columns)
  {
    UnwrapWrap(PivotPrefix, Join(columns, ColumnSep), PivotSuffix);
    SplitJoin(columns, ColumnSep);
  }

  /**
   * The window stage reads back as its arguments: `timeSrc` is `"_start"`
   * exactly when `time_starting` was set, and `createEmpty` is as given.
   */
  lemma WindowStageDecodes(w: Window)
    requires ',' !in w.every && ',' !in w.fn && '"' !in w.column
    ensures DecodeWindow(WindowStage(w)) == Some(w)
  {
    var args := [w.every, w.fn, w.column, TimeSource(w.timeStarting), BoolText(w.createEmpty)];
    WindowSeparable(w);
    MatchFill(WindowLits, args);
    FlagTexts(w.timeStarting, w.createEmpty);
  }

  /** The two flag texts of the window stage determine their flags. */
  lemma FlagTexts(timeStarting: bool, createEmpty: bool)
    ensures TimeSource(timeStarting) in {"_start", "_stop"}
    ensures (TimeSource(timeStarting) == "_start") == timeStarting
    ensures BoolText(createEmpty) in {"true", "false"}
    ensures (BoolText(createEmpty) == "true") == createEmpty
  {
    assert "_stop" != "_start" by { assert |"_stop"| != |"_start"|; }
    assert "false" != "true" by { assert "false"[0] != "true"[0]; }
  }

  lemma WindowSeparable(w: Window)
    requires ',' !in w.every && ',' !in w.fn && '"' !in w.column
    ensures Separable(WindowLits, [w.every, w.fn, w.column, TimeSource(w.timeStarting), BoolText(w.createEmpty)])
  {
    var args := [w.every, w.fn, w.column, TimeSource(w.timeStarting), BoolText(w.createEmpty)];
    assert WindowLits[1][0] == ',' && WindowLits[2][0] == ',' && WindowLits[3][0] == '"';
    assert WindowLits[4][0] == '"' && WindowLits[5][0] == ')';
    assert '"' !in args[3] && ')' !in args[4];
  }

  lemma ScalingStageDecodes(s: Scaling)
    requires '"' !in s.field && ' ' !in s.start && ' ' !in s.end && ')' !in s.slope && ')' !in s.offset
    ensures DecodeScaling(ScalingStage(s)) == Some(s)
  {
    var args := [s.field, s.start, s.end, s.field, s.slope, s.offset, s.field];
    assert Separable(ScalingLits, args) by {
      assert ScalingLits[1][0] == '"' && ScalingLits[2][0] == ' ' && ScalingLits[3][0] == ' ';
      assert ScalingLits[4][0] == '"' && ScalingLits[5][0] == ')' && ScalingLits[6][0] == ')';
      assert ScalingLits[7][0] == '"';
    }
    MatchFill(ScalingLits, args);
  }

  /**
   * A scaling entry applies over the closed window from its own bounds, or the
   * query's bounds where it gives none, with slope 1 and offset 0 by default.
   */
  lemma RenderScalingDecodes(c: ScaleConf, qStart: DateTime, qEnd: DateTime)
    requires Valid(qStart) && Valid(qEnd)
    requires c.start.Some? ==> Valid(c.start.value)
    requires c.end.Some? ==> Valid(c.end.value)
    requires '"' !in c.field
    requires c.slope.Some? ==> ')' !in c.slope.value
    requires c.offset.Some? ==> ')' !in c.offset.value
    ensures var d := DecodeScaling(ScalingStage(RenderScaling(c, qStart, qEnd)));
      d.Some? && d.value.field == c.field
      && Rfc3339.Parse(d.value.start) == Some(if c.start.Some? then c.start.value else qStart)
      && Rfc3339.Parse(d.value.end) == Some(if c.end.Some? then c.end.value else qEnd)
      && d.value.slope == (if c.slope.Some? then c.slope.value else "1")
      && d.value.offset == (if c.offset.Some? then c.offset.value else "0")
  {
    var s := if c.start.Some? then c.start.value else qStart;
    var e := if c.end.Some? then c.end.value else qEnd;
    var r := RenderScaling(c, qStart, qEnd);
    assert r.start == Rfc3339.Format(s) && r.end == Rfc3339.Format(e);
    assert ')' !in r.slope && ')' !in r.offset;
    FormatAvoids(s, ' ');
    FormatAvoids(e, ' ');
    ScalingStageDecodes(r);
    Rfc3339.ParseFormat(s);
    Rfc3339.ParseFormat(e);
  }

  lemma YieldStageDecodes(name: string)
    requires '"' !in name
    ensures DecodeYield(YieldStage(name)) == Some(name)
  {
    MatchFill(YieldLits, [name]);
  }

  /** The query text splits back into its stages when no stage holds a newline. */
  lemma RenderSplits(stages: seq<string>)
    requires |stages| >= 1 && AllAvoid(stages, '\n')
    ensures SplitOn(Render(stages), "\n") == stages
  {
    SplitJoin(stages, "\n");
  }

  /** Appending a stage appends a line: the earlier query text is an untouched prefix. */
  lemma {:induction false} RenderAppend(stages: seq<string>, extra: seq<string>)
    requires |stages| >= 1 && |extra| >= 1
    ensures Render(stages + extra) == Render(stages) + "\n" + Render(extra)
    decreases |stages|
  {
    if |stages| == 1 {
      assert (stages + extra)[1..] == extra;
    } else {
      assert (stages + extra)[1..] == stages[1..] + extra;
      RenderAppend(stages[1..], extra);
    }
  }

  // ------------------------------------------------------------------ builder

  /** `CustomFluxQuery`: the stage list grows by appending only. */
  class CustomFluxQuery {
    var stages: seq<string>
    const start: DateTime
    const end: DateTime

    constructor (start: DateTime, end: DateTime, bucket: string, measurement: string)
      requires Valid(start) && Valid(end)
      ensures stages == Header(bucket, start, end, measurement)
      ensures this.start == start && this.end == end
    {
      stages := Header(bucket, start, end, measurement);
      this.start := start;
      this.end := end;
    }

    method AddField(fields: seq<string>)
      modifies this
      ensures stages == old(stages) + [FieldStage(fields)]
    {
      stages := stages + [FieldStage(fields)];
    }

    method AddFilter(key: string, value: string)
      modifies this
      ensures stages == old(stages) + [FilterStage(key, value)]
    {
      stages := stages + [FilterStage(key, value)];
    }

    method AddSpecificFilter(key: string, value: string, col: string)
      modifies this
      ensures stages == old(stages) + [TargetedStage(key, value, col)]
    {
      stages := stages + [TargetedStage(key, value, col)];
    }

    /** `groups` is accepted and not used, as in the source. */
    method AddFilterRange(filters: seq<RangeFilter>, groups: seq<string>)
      modifies this
      ensures stages == old(stages) + RangeBlock(filters)
      ensures |stages| == |old(stages)| + |filters| + 2
    {
      AddPivot(["_field"]);
      var i := 0;
      while i < |filters|
        invariant 0 <= i <= |filters|
        invariant stages == old(stages) + [PivotStage(["_field"])] + RangeClauses(filters[..i])
      {
        stages := stages + [RangeClause(filters[i])];
        assert RangeClauses(filters[..i + 1]) == RangeClauses(filters[..i]) + [RangeClause(filters[i])];
        i := i + 1;
      }
      assert filters[..i] == filters;
      stages := stages + [UnpivotStage];
    }

    method AddGroups(groups: seq<string>)
      modifies this
      ensures stages == old(stages) + [GroupStage(groups)]
    {
      stages := stages + [GroupStage(groups)];
    }

    method AddPivot(groups: seq<string>)
      modifies this
      ensures stages == old(stages) + [PivotStage(groups)]
    {
      stages := stages + [PivotStage(groups)];
    }

    method AddWindow(every: string, fn: string, createEmpty: bool := true,
                     timeStarting: bool := false, column: string := "_value")
      modifies this
      ensures stages == old(stages) + [WindowStage(Window(every, fn, column, timeStarting, createEmpty))]
    {
      stages := stages + [WindowStage(Window(every, fn, column, timeStarting, createEmpty))];
    }

    /** Despite its name, emits a `group` stage over `cols`. */
    method DropColumns(cols: seq<string>)
      modifies this
      ensures stages == old(stages) + [GroupStage(cols)]
    {
      stages := stages + [GroupStage(cols)];
    }

    method KeepMeasurements()
      modifies this
      ensures stages == old(stages) + [KeepStage]
    {
      stages := stages + [KeepStage];
    }

    method DropStartStop()
      modifies this
      ensures stages == old(stages) + [DropStartStopStage]
    {
      stages := stages + [DropStartStopStage];
    }

    method AddScaling(conf: ScaleConf)
      requires Valid(start) && Valid(end)
      requires conf.start.Some? ==> Valid(conf.start.value)
      requires conf.end.Some? ==> Valid(conf.end.value)
      modifies this
      ensures stages == old(stages) + [ScalingStage(RenderScaling(conf, start, end))]
    {
      stages := stages + [ScalingStage(RenderScaling(conf, start, end))];
    }

    method AddYield(name: string)
      modifies this
      ensures stages == old(stages) + [YieldStage(name)]
    {
      stages := stages + [YieldStage(name)];
    }

    function ReturnQuery(): string
      reads this
    {
      Render(stages)
    }
  }
}
