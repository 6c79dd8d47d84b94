/**
 * `InfluxQuery.data_query` and `clear_measurements`: for every chunk the
 * planner yields, build one query in a fixed stage order, run it, clean the
 * returned table and append its rows to the accumulator; once every chunk has
 * been fetched, keep the first row per timestamp and sort.  The store is a
 * function from query text and organisation to a table.
 */
module Influx {
  import opened Wrappers
  import opened Text
  import opened Calendar
  import opened Flux
  import opened Planner
  import opened Results

  /**
   * A `bool_filters` value: a plain tag value, or a dict whose `Value` and
   * `Col` entries may be missing (`dict.get` then yields `None`).
   */
  datatype FilterValue = Tag(value: string) | Targeted(target: Option<string>, col: Option<string>)

  /**
   * The arguments of `data_query`, with `fields` and `groups` already lists.
   * The source's defaults are `winRange := "1h"`, `winFunc := "mean"`, no
   * filters, no scaling, every flag false and no split.
   */
  datatype Request = Request(
    bucket: string, start: DateTime, end: DateTime, measurement: string,
    fields: seq<string>, groups: seq<string>,
    winRange: string, winFunc: string,
    boolFilters: seq<(string, FilterValue)>,
    rangeFilters: seq<RangeFilter>,
    hourBeginning: bool,
    scaling: seq<ScaleConf>,
    multiindex: bool, aggregate: bool,
    timeSplit: SplitUnit)

  /** Why a call stops early: a chunk bound outside Python's datetime range, or a column `drop` lacks. */
  datatype Failure = Overflow | MissingColumns(labels: seq<string>)

  predicate ValidConf(c: ScaleConf)
  {
    (c.start.Some? ==> Valid(c.start.value)) && (c.end.Some? ==> Valid(c.end.value))
  }

  /** Every datetime in a request is a real date in Python's range. */
  predicate ValidRequest(req: Request)
  {
    Valid(req.start) && Valid(req.end) && ValidConfs(req.scaling)
  }

  predicate ValidConfs(confs: seq<ScaleConf>)
  {
    forall k :: 0 <= k < |confs| ==> ValidConf(confs[k])
  }

  lemma ValidConfsPrefix(confs: seq<ScaleConf>, i: nat)
    requires ValidConfs(confs) && i <= |confs|
    ensures ValidConfs(confs[..i])
    ensures i < |confs| ==> ValidConf(confs[i])
  {
  }

  /** `str(None)` for a missing dict entry. */
  function PyText(o: Option<string>): string
  {
    if o.Some? then o.value else "None"
  }

  // ------------------------------------------------------------ chunk stages

  /** Fields named only by range filters, in filter order. */
  function ExtraFields(fields: seq<string>, filters: seq<RangeFilter>): seq<string>
  {
    if filters == [] then []
    else ExtraFields(fields, filters[..|filters| - 1])
         + (if filters[|filters| - 1].field in fields then [] else [filters[|filters| - 1].field])
  }

  /** The fields the chunk query selects: the requested ones, then the extra ones. */
  function AllFields(req: Request): seq<string>
  {
    req.fields + ExtraFields(req.fields, req.rangeFilters)
  }

  /** One equality filter per plain (non-dict) entry, in entry order. */
  function PlainFilters(bf: seq<(string, FilterValue)>): seq<string>
  {
    if bf == [] then []
    else
      var (key, v) := bf[|bf| - 1];
      PlainFilters(bf[..|bf| - 1]) + (if v.Tag? then [FilterStage(key, v.value)] else [])
  }

  /** One targeted filter per dict-valued entry, in entry order. */
  function TargetedFilters(bf: seq<(string, FilterValue)>): seq<string>
  {
    if bf == [] then []
    else
      var (key, v) := bf[|bf| - 1];
      TargetedFilters(bf[..|bf| - 1])
        + (if v.Targeted? then [TargetedStage(key, PyText(v.target), PyText(v.col))] else [])
  }

  /** The range-filter block, only when there are range filters. */
  function RangeStages(filters: seq<RangeFilter>): seq<string>
  {
    if |filters| > 0 then RangeBlock(filters) else []
  }

  /** The filter stages of a chunk query: tag filters, targeted filters, then the range block. */
  function FilterStages(req: Request): seq<string>
  {
    PlainFilters(req.boolFilters) + TargetedFilters(req.boolFilters) + RangeStages(req.rangeFilters)
  }

  /** The window arguments `data_query` passes to `add_window`. */
  function ChunkWindow(req: Request): Window
  {
    Window(req.winRange, req.winFunc, "_value", req.hourBeginning, true)
  }

  function WindowStages(req: Request): seq<string>
  {
    if req.aggregate then [WindowStage(ChunkWindow(req))] else []
  }

  /** Whether the final pivot also spreads `_field` into the columns. */
  predicate PivotsOnField(req: Request)
  {
    |req.fields| > 1 || req.multiindex || |req.groups| == 0
  }

  function PivotColumns(req: Request): seq<string>
  {
    if PivotsOnField(req) then req.groups + ["_field"] else req.groups
  }

  /** One scaling map per entry, in entry order, defaulting to the chunk's bounds. */
  function ScalingStages(confs: seq<ScaleConf>, a: DateTime, b: DateTime): (r: seq<string>)
    requires Valid(a) && Valid(b)
    requires ValidConfs(confs)
    ensures |r| == |confs|
  {
    if confs == [] then []
    else
      var last := confs[|confs| - 1];
      ValidConfsPrefix(confs, |confs| - 1);
      ScalingStages(confs[..|confs| - 1], a, b) + [ScalingStage(RenderScaling(last, a, b))]
  }

  /**
   * The query stages around a given header `h` and scaling stages `sc`: field
   * selection, grouping, filters, window, pivot.
   */
  function Assemble(h: seq<string>, req: Request, sc: seq<string>): seq<string>
  {
    h
    + [FieldStage(AllFields(req))]
    + [GroupStage(req.groups + ["_field"])]
    + PlainFilters(req.boolFilters)
    + TargetedFilters(req.boolFilters)
    + RangeStages(req.rangeFilters)
    + WindowStages(req)
    + [PivotStage(PivotColumns(req))]
    + sc
  }

  /** The stages of the query for chunk `[a, b]`, in the order `data_query` adds them. */
  function ChunkStages(req: Request, a: DateTime, b: DateTime): seq<string>
    requires ValidRequest(req) && Valid(a) && Valid(b)
  {
    Assemble(Header(req.bucket, a, b, req.measurement), req, ScalingStages(req.scaling, a, b))
  }

  /** The first `bool_filters` loop: `add_filter` for each plain entry. */
  method AddPlainFilters(q: CustomFluxQuery, bf: seq<(string, FilterValue)>)
    modifies q
    ensures q.stages == old(q.stages) + PlainFilters(bf)
  {
    var i := 0;
    while i < |bf|
      invariant 0 <= i <= |bf|
      invariant q.stages == old(q.stages) + PlainFilters(bf[..i])
    {
      var (key, v) := bf[i];
      assert bf[..i + 1][..i] == bf[..i];
      if v.Tag? {
        q.AddFilter(key, v.value);
      }
      i := i + 1;
    }
    assert bf[..i] == bf;
  }

  /** The second `bool_filters` loop: `add_specific_filter` for each dict entry. */
  method AddTargetedFilters(q: CustomFluxQuery, bf: seq<(string, FilterValue)>)
    modifies q
    ensures q.stages == old(q.stages) + TargetedFilters(bf)
  {
    var i := 0;
    while i < |bf|
      invariant 0 <= i <= |bf|
      invariant q.stages == old(q.stages) + TargetedFilters(bf[..i])
    {
      var (key, v) := bf[i];
      assert bf[..i + 1][..i] == bf[..i];
      if v.Targeted? {
        q.AddSpecificFilter(key, PyText(v.target), PyText(v.col));
      }
      i := i + 1;
    }
    assert bf[..i] == bf;
  }

  /** The `scaling` loop: `add_scaling` for each entry. */
  method AddScalings(q: CustomFluxQuery, confs: seq<ScaleConf>)
    requires Valid(q.start) && Valid(q.end)
    requires ValidConfs(confs)
    modifies q
    ensures q.stages == old(q.stages) + ScalingStages(confs, q.start, q.end)
  {
    var i := 0;
    while i < |confs|
      invariant 0 <= i <= |confs|
      invariant q.stages == old(q.stages) + ScalingStages(confs[..i], q.start, q.end)
      invariant ValidConfs(confs[..i])
    {
      ScalingStagesStep(confs, i, q.start, q.end);
      q.AddScaling(confs[i]);
      AppendAssoc(old(q.stages), ScalingStages(confs[..i], q.start, q.end),
                  [ScalingStage(RenderScaling(confs[i], q.start, q.end))]);
      i := i + 1;
    }
    assert confs[..i] == confs;
  }

  lemma ScalingStagesStep(confs: seq<ScaleConf>, i: nat, a: DateTime, b: DateTime)
    requires Valid(a) && Valid(b) && i < |confs|
    requires ValidConfs(confs)
    ensures ValidConf(confs[i]) && ValidConfs(confs[..i]) && ValidConfs(confs[..i + 1])
    ensures ScalingStages(confs[..i + 1], a, b)
      == ScalingStages(confs[..i], a, b) + [ScalingStage(RenderScaling(confs[i], a, b))]
  {
    ValidConfsPrefix(confs, i);
    ValidConfsPrefix(confs, i + 1);
    assert confs[..i + 1][..i] == confs[..i];
  }

  /** The body of one `data_query` pass up to `return_query`. */
  method BuildChunkQuery(req: Request, a: DateTime, b: DateTime) returns (q: CustomFluxQuery)
    requires ValidRequest(req) && Valid(a) && Valid(b)
    ensures fresh(q)
    ensures q.stages == ChunkStages(req, a, b)
  {
    q := new CustomFluxQuery(a, b, req.bucket, req.measurement);
    var extra := ExtraFields(req.fields, req.rangeFilters);
    q.AddField(req.fields + extra);
    q.AddGroups(req.groups + ["_field"]);
    AddPlainFilters(q, req.boolFilters);
    AddTargetedFilters(q, req.boolFilters);
    ghost var s1 := q.stages;
    if |req.rangeFilters| > 0 {
      q.AddFilterRange(req.rangeFilters, req.groups);
    } else {
      assert s1 + RangeStages(req.rangeFilters) == s1;
    }
    ghost var s2 := q.stages;
    if req.aggregate {
      q.AddWindow(req.winRange, req.winFunc, timeStarting := req.hourBeginning);
    } else {
      assert s2 + WindowStages(req) == s2;
    }
    if PivotsOnField(req) {
      q.AddPivot(req.groups + ["_field"]);
    } else {
      q.AddPivot(req.groups);
    }
    AddScalings(q, req.scaling);
  }

  // --------------------------------------------------- properties of a chunk

  /**
   * The selected fields are the requested ones, in order, followed by every
   * range-filter field not among them, each once per filter naming it.
   */
  lemma {:induction false} ExtraFieldsSpec(fields: seq<string>, filters: seq<RangeFilter>)
    ensures forall x :: x in ExtraFields(fields, filters) ==> x !in fields
    ensures forall k :: 0 <= k < |filters| && filters[k].field !in fields ==> filters[k].field in ExtraFields(fields, filters)
    ensures forall x :: x in ExtraFields(fields, filters) ==> exists k :: 0 <= k < |filters| && filters[k].field == x
    ensures |ExtraFields(fields, filters)| <= |filters|
  {
    if filters != [] {
      var init := filters[..|filters| - 1];
      ExtraFieldsSpec(fields, init);
      forall k | 0 <= k < |filters| && filters[k].field !in fields
        ensures filters[k].field in ExtraFields(fields, filters)
      {
        if k < |filters| - 1 {
          assert init[k] == filters[k];
        }
      }
      forall x | x in ExtraFields(fields, filters)
        ensures exists k :: 0 <= k < |filters| && filters[k].field == x
      {
        if x in ExtraFields(fields, init) {
          var k :| 0 <= k < |init| && init[k].field == x;
          assert filters[k].field == x;
        } else {
          assert filters[|filters| - 1].field == x;
        }
      }
    }
  }

  /** Every range-filter field is selected, so the filter has a column to test. */
  lemma AllFieldsCoverRanges(req: Request)
    ensures AllFields(req)[..|req.fields|] == req.fields
    ensures forall k :: 0 <= k < |req.rangeFilters| ==> req.rangeFilters[k].field in AllFields(req)
    ensures forall x :: x in AllFields(req) ==>
      x in req.fields || exists k :: 0 <= k < |req.rangeFilters| && req.rangeFilters[k].field == x
  {
    ExtraFieldsSpec(req.fields, req.rangeFilters);
  }

  lemma {:induction false} PlainFiltersSpec(bf: seq<(string, FilterValue)>)
    ensures |PlainFilters(bf)| <= |bf|
    ensures forall k :: 0 <= k < |bf| && bf[k].1.Tag? ==> FilterStage(bf[k].0, bf[k].1.value) in PlainFilters(bf)
  {
    if bf != [] {
      var init := bf[..|bf| - 1];
      PlainFiltersSpec(init);
      forall k | 0 <= k < |bf| && bf[k].1.Tag?
        ensures FilterStage(bf[k].0, bf[k].1.value) in PlainFilters(bf)
      {
        if k < |bf| - 1 {
          assert init[k] == bf[k];
        }
      }
    }
  }

  lemma {:induction false} ScalingStagesSpec(confs: seq<ScaleConf>, a: DateTime, b: DateTime)
    requires Valid(a) && Valid(b)
    requires ValidConfs(confs)
    ensures |ScalingStages(confs, a, b)| == |confs|
    ensures forall k :: 0 <= k < |confs| ==> ScalingStages(confs, a, b)[k] == ScalingStage(RenderScaling(confs[k], a, b))
  {
    if confs != [] {
      var init := confs[..|confs| - 1];
      ScalingStagesSpec(init, a, b);
      forall k | 0 <= k < |confs|
        ensures ScalingStages(confs, a, b)[k] == ScalingStage(RenderScaling(confs[k], a, b))
      {
        if k < |confs| - 1 {
          assert init[k] == confs[k];
        }
      }
    }
  }

  /** Positions in a sequence laid out as the stages of a chunk query. */
  lemma Layout<T>(h: seq<T>, x: T, y: T, p: seq<T>, t: seq<T>, r: seq<T>, w: seq<T>, v: T, sc: seq<T>)
    ensures var cs := h + [x] + [y] + p + t + r + w + [v] + sc;
      var n := |sc|;
      |cs| == |h| + 3 + |p| + |t| + |r| + |w| + n
      && cs[..|h|] == h && cs[|h|] == x && cs[|h| + 1] == y
      && cs[|h| + 2..|h| + 2 + |p| + |t| + |r|] == p + t + r
      && cs[|h| + 2 + |p| + |t| + |r|..|cs| - n - 1] == w
      && cs[|cs| - n - 1] == v
      && (|w| > 0 ==> cs[|cs| - n - 2] == w[|w| - 1])
      && cs[|cs| - n..] == sc
  {
    var p6 := h + [x] + [y] + p + t + r + w;
    var p7 := p6 + [v];
    var cs := p7 + sc;
    assert cs[..|p7|] == p7;
    assert p7[..|h|] == h;
    assert cs[..|h|] == h;
    var m := h + [x] + [y];
    assert p6 == m + (p + t + r) + w;
    assert cs[|m|..|m| + |p + t + r|] == p + t + r;
    assert cs[|m| + |p + t + r|..|p6|] == w;
    assert cs[|cs| - |sc|..] == sc;
    if |w| > 0 {
      assert cs[|cs| - |sc| - 2] == p6[|p6| - 1];
    }
  }

  /**
   * The stages open with the header, then the field filter and the group
   * stage; after the plain filters, the targeted filters and the range block
   * come the window stage exactly when `aggregate` is set, the pivot, and the
   * scaling stages.
   */
  lemma AssembleLayout(h: seq<string>, req: Request, sc: seq<string>)
    ensures var cs := Assemble(h, req, sc);
      var n := |sc|;
      |cs| == |h| + 3 + |PlainFilters(req.boolFilters)| + |TargetedFilters(req.boolFilters)|
               + (if |req.rangeFilters| > 0 then |req.rangeFilters| + 2 else 0)
               + (if req.aggregate then 1 else 0) + n
      && cs[..|h|] == h
      && cs[|h|] == FieldStage(AllFields(req))
      && cs[|h| + 1] == GroupStage(req.groups + ["_field"])
      && var f := FilterStages(req);
      |cs| == |h| + 3 + |f| + |WindowStages(req)| + n
      && cs[|h| + 2..|h| + 2 + |f|] == f
      && cs[|h| + 2 + |f|..|cs| - n - 1] == WindowStages(req)
      && cs[|cs| - n - 1] == PivotStage(PivotColumns(req))
      && (req.aggregate ==> cs[|cs| - n - 2] == WindowStage(ChunkWindow(req)))
      && cs[|cs| - n..] == sc
  {
    Layout(h, FieldStage(AllFields(req)), GroupStage(req.groups + ["_field"]),
           PlainFilters(req.boolFilters), TargetedFilters(req.boolFilters),
           RangeStages(req.rangeFilters), WindowStages(req), PivotStage(PivotColumns(req)), sc);
  }

  /**
   * The chunk query opens with the builder's header over the chunk bounds,
   * then the field filter and the group stage; it ends with the window stage
   * exactly when `aggregate` is set, the pivot, and the scaling stages.
   */
  lemma ChunkLayout(req: Request, a: DateTime, b: DateTime)
    requires ValidRequest(req) && Valid(a) && Valid(b)
    ensures var cs := ChunkStages(req, a, b);
      var n := |req.scaling|;
      |cs| == 8 + |PlainFilters(req.boolFilters)| + |TargetedFilters(req.boolFilters)|
               + (if |req.rangeFilters| > 0 then |req.rangeFilters| + 2 else 0)
               + (if req.aggregate then 1 else 0) + n
      && cs[..5] == Header(req.bucket, a, b, req.measurement)
      && cs[5] == FieldStage(AllFields(req))
      && cs[6] == GroupStage(req.groups + ["_field"])
      && cs[|cs| - n - 1] == PivotStage(PivotColumns(req))
      && (req.aggregate ==> cs[|cs| - n - 2] == WindowStage(ChunkWindow(req)))
      && cs[|cs| - n..] == ScalingStages(req.scaling, a, b)
  {
    ScalingStagesSpec(req.scaling, a, b);
    AssembleLayout(Header(req.bucket, a, b, req.measurement), req, ScalingStages(req.scaling, a, b));
  }

  /**
   * Between the group stage and the pivot, the chunk query holds the filter
   * stages in their order, then the window stages.
   */
  lemma ChunkFilterOrder(req: Request, a: DateTime, b: DateTime)
    requires ValidRequest(req) && Valid(a) && Valid(b)
    ensures var cs := ChunkStages(req, a, b);
      var f := FilterStages(req);
      var n := |req.scaling|;
      |cs| == 8 + |f| + |WindowStages(req)| + n
      && cs[7..7 + |f|] == f
      && cs[7 + |f|..|cs| - n - 1] == WindowStages(req)
  {
    var h := Header(req.bucket, a, b, req.measurement);
    AssembleLayout(h, req, ScalingStages(req.scaling, a, b));
  }

  /**
   * The pivot reads back as the groups followed by `_field` exactly when more
   * than one field is requested, multi-index mode is on, or there are no
   * groups; otherwise as the groups alone.
   */
  lemma PivotRule(req: Request, a: DateTime, b: DateTime)
    requires ValidRequest(req) && Valid(a) && Valid(b)
    requires AllAvoid(req.groups, '"')
    ensures var cs := ChunkStages(req, a, b);
      |cs| > |req.scaling|
      && var p := DecodePivot(cs[|cs| - |req.scaling| - 1]);
      p.Some?
      && (p.value == req.groups + ["_field"] <==> |req.fields| > 1 || req.multiindex || |req.groups| == 0)
      && (p.value == req.groups <==> !(|req.fields| > 1 || req.multiindex || |req.groups| == 0))
  {
    ChunkLayout(req, a, b);
    PivotColumnsDecode(req);
  }

  lemma PivotColumnsDecode(req: Request)
    requires AllAvoid(req.groups, '"')
    ensures var p := DecodePivot(PivotStage(PivotColumns(req)));
      p == Some(PivotColumns(req))
      && (p.value == req.groups + ["_field"] <==> PivotsOnField(req))
      && (p.value == req.groups <==> !PivotsOnField(req))
  {
    var cols := PivotColumns(req);
    if PivotsOnField(req) {
      assert AllAvoid(cols, '"') by {
        forall k | 0 <= k < |cols| ensures '"' !in cols[k] {
          if k < |req.groups| {
            assert cols[k] == req.groups[k];
          }
        }
      }
    }
    PivotStageDecodes(cols);
    assert |req.groups + ["_field"]| != |req.groups|;
  }

  /**
   * The chunk query covers exactly the chunk: its range stage reads back as
   * `(a, b)`, and it selects the requested fields plus the range-filter-only ones.
   */
  lemma ChunkSelects(req: Request, a: DateTime, b: DateTime)
    requires ValidRequest(req) && Valid(a) && Valid(b)
    requires '"' !in req.bucket && '"' !in req.measurement
    requires |req.fields| >= 1 && AllAvoid(req.fields, '"')
    requires forall k :: 0 <= k < |req.rangeFilters| ==> '"' !in req.rangeFilters[k].field
    ensures var cs := ChunkStages(req, a, b);
      |cs| > 5
      && DecodeHeader(cs[..5]) == Some((req.bucket, a, b, req.measurement))
      && DecodeFields(cs[5]) == Some(AllFields(req))
  {
    ChunkLayout(req, a, b);
    HeaderDecodes(req.bucket, a, b, req.measurement);
    AllFieldsAvoid(req);
    FieldStageDecodes(AllFields(req));
  }

  lemma AllFieldsAvoid(req: Request)
    requires AllAvoid(req.fields, '"')
    requires forall k :: 0 <= k < |req.rangeFilters| ==> '"' !in req.rangeFilters[k].field
    ensures AllAvoid(AllFields(req), '"')
  {
    ExtraFieldsSpec(req.fields, req.rangeFilters);
    var all := AllFields(req);
    forall k | 0 <= k < |all| ensures '"' !in all[k] {
      if k >= |req.fields| {
        assert all[k] in ExtraFields(req.fields, req.rangeFilters);
      }
    }
  }

  /**
   * The window stage `data_query` adds reads back as `win_range` and
   * `win_func` over `_value`, stamped from the window start exactly when
   * `hour_beginning` is set, and always creating empty windows.
   */
  lemma WindowRule(req: Request)
    requires ',' !in req.winRange && ',' !in req.winFunc
    ensures var w := DecodeWindow(WindowStage(ChunkWindow(req)));
      w == Some(Window(req.winRange, req.winFunc, "_value", req.hourBeginning, true))
      && (TimeSource(w.value.timeStarting) == "_start" <==> req.hourBeginning)
  {
    WindowStageDecodes(ChunkWindow(req));
  }

  // --------------------------------------------------------- the fetch loop

  /** What one pass contributes, from the table the store returned. */
  function PassRows(req: Request, t: Table): Result<seq<Entry>, Failure>
  {
    if IsEmpty(t) then Ok([])
    else
      match Normalise(t, ExtraFields(req.fields, req.rangeFilters), |req.fields| == 1, req.multiindex)
      case Err(missing) => Err(MissingColumns(missing))
      case Ok(es) => Ok(es)
  }

  /**
   * One pass of the loop: a chunk bound outside Python's range raises before
   * any query; otherwise the query text sent and what its table contributes.
   */
  datatype Pass = Unbounded | Sent(query: string, result: Result<seq<Entry>, Failure>)

  /** Pass `i` of `data_query` against the store `exec`. */
  function PassOf(req: Request, org: string, exec: (string, string) -> Table, i: nat): Pass
    requires ValidRequest(req)
  {
    match Chunk(req.timeSplit, req.start, req.end, i)
    case None => Unbounded
    case Some((a, b)) =>
      BoundValid(req.timeSplit, req.start, req.end, i);
      BoundValid(req.timeSplit, req.start, req.end, i + 1);
      var q := Render(ChunkStages(req, a, b));
      Sent(q, PassRows(req, exec(q, org)))
  }

  /** `range(diff)`: no pass at all when the count is zero or negative. */
  function Passes(req: Request): nat
    requires ValidRequest(req)
  {
    var d := Difference(req.timeSplit, req.start, req.end);
    if d > 0 then d else 0
  }

  /** Every pass the loop would run, in order. */
  function PassResults(req: Request, org: string, exec: (string, string) -> Table): seq<Pass>
    requires ValidRequest(req)
  {
    seq(Passes(req), i requires 0 <= i < Passes(req) => PassOf(req, org, exec, i))
  }

  /** Rows appended, query texts issued, and the failure that ended the loop if any. */
  datatype Outcome = Outcome(rows: seq<Entry>, queries: seq<string>, failure: Option<Failure>)

  /** Running the passes `ps` in order; the first failure stops the loop. */
  function Gather(ps: seq<Pass>): Outcome
  {
    if ps == [] then Outcome([], [], None)
    else
      var g := Gather(ps[..|ps| - 1]);
      if g.failure.Some? then g
      else
        match ps[|ps| - 1]
        case Unbounded => Outcome(g.rows, g.queries, Some(Overflow))
        case Sent(q, Err(f)) => Outcome(g.rows, g.queries + [q], Some(f))
        case Sent(q, Ok(es)) => Outcome(g.rows + es, g.queries + [q], None)
  }

  /** Once a pass fails, later passes change nothing. */
  lemma {:induction false} GatherStops(ps: seq<Pass>, k: nat)
    requires k <= |ps| && Gather(ps[..k]).failure.Some?
    ensures Gather(ps) == Gather(ps[..k])
    decreases |ps|
  {
    if k < |ps| {
      var init := ps[..|ps| - 1];
      assert init[..k] == ps[..k];
      GatherStops(init, k);
    } else {
      assert ps[..k] == ps;
    }
  }

  /**
   * The queries issued are those of the passes run, in order, up to and
   * including the one that failed; all of them when none fails.  Rows come
   * only from passes that succeeded.
   */
  lemma {:induction false} GatherQueries(ps: seq<Pass>)
    ensures var g := Gather(ps);
      |g.queries| <= |ps|
      && (g.failure.None? ==> |g.queries| == |ps| && forall i :: 0 <= i < |ps| ==> ps[i].Sent? && ps[i].result.Ok?)
      && forall i :: 0 <= i < |g.queries| ==> ps[i].Sent? && g.queries[i] == ps[i].query
    decreases |ps|
  {
    if ps != [] {
      var init := ps[..|ps| - 1];
      GatherQueries(init);
      forall i | 0 <= i < |init| ensures init[i] == ps[i] { }
    }
  }

  /** Pass `p` was sent and its table cleaned without error, so its rows were appended. */
  predicate Succeeded(p: Pass)
  {
    p.Sent? && p.result.Ok?
  }

  /** The index of the first pass that did not succeed, or `|ps|` when every pass did. */
  function FirstFailure(ps: seq<Pass>): (j: nat)
    ensures j <= |ps|
    ensures forall i :: 0 <= i < j ==> Succeeded(ps[i])
    ensures j < |ps| ==> !Succeeded(ps[j])
  {
    if ps == [] then 0
    else
      var j := FirstFailure(ps[..|ps| - 1]);
      if j < |ps| - 1 || !Succeeded(ps[|ps| - 1]) then j else |ps|
  }

  /** The rows of every pass that succeeded, in pass order. */
  function AllRows(ps: seq<Pass>): seq<Entry>
  {
    if ps == [] then []
    else
      var p := ps[|ps| - 1];
      AllRows(ps[..|ps| - 1]) + (if Succeeded(p) then p.result.value else [])
  }

  /** The query of every pass that was sent, in pass order. */
  function SentQueries(ps: seq<Pass>): seq<string>
  {
    if ps == [] then []
    else
      var p := ps[|ps| - 1];
      SentQueries(ps[..|ps| - 1]) + (if p.Sent? then [p.query] else [])
  }

  /** The exception a pass that did not succeed raises. */
  function FailureOf(p: Pass): Failure
    requires !Succeeded(p)
  {
    match p
    case Unbounded => Overflow
    case Sent(_, r) => r.error
  }

  /**
   * The loop runs up to the first pass that does not succeed.  With none, it
   * appends the rows of every pass and has printed every query.  Otherwise it
   * has appended the rows of the passes before that one, printed their queries
   * and that pass's own when it was sent, and raised that pass's failure.
   */
  lemma {:induction false} GatherSpec(ps: seq<Pass>)
    ensures var g := Gather(ps);
      var j := FirstFailure(ps);
      (g.failure.None? <==> j == |ps|)
      && (j == |ps| ==> g.rows == AllRows(ps) && g.queries == SentQueries(ps))
      && (j < |ps| ==>
            g.rows == AllRows(ps[..j]) && g.queries == SentQueries(ps[..j + 1])
            && g.failure == Some(FailureOf(ps[j])))
    decreases |ps|
  {
    if ps != [] {
      var init := ps[..|ps| - 1];
      GatherSpec(init);
      var j := FirstFailure(init);
      if j < |init| {
        assert init[..j] == ps[..j];
        assert init[..j + 1] == ps[..j + 1];
      } else {
        assert ps[..|init|] == init;
        assert ps[..|init| + 1] == ps;
      }
    }
  }

  /** With no failure, the rows appended are those of every pass, in pass order. */
  lemma {:induction false} GatherRows(ps: seq<Pass>, extra: Pass)
    requires Gather(ps).failure.None? && extra.Sent? && extra.result.Ok?
    ensures Gather(ps + [extra]).rows == Gather(ps).rows + extra.result.value
    ensures Gather(ps + [extra]).failure.None?
  {
    assert (ps + [extra])[..|ps|] == ps;
  }

  /** Pass `i` sends the query of chunk `i`, whose bounds are valid datetimes. */
  lemma PassQuery(req: Request, org: string, exec: (string, string) -> Table, i: nat)
    requires ValidRequest(req)
    ensures PassOf(req, org, exec, i).Sent? <==> Chunk(req.timeSplit, req.start, req.end, i).Some?
    ensures PassOf(req, org, exec, i).Sent? ==>
      var c := Chunk(req.timeSplit, req.start, req.end, i).value;
      Valid(c.0) && Valid(c.1)
      && PassOf(req, org, exec, i).query == Render(ChunkStages(req, c.0, c.1))
      && PassOf(req, org, exec, i).result == PassRows(req, exec(Render(ChunkStages(req, c.0, c.1)), org))
  {
    if Chunk(req.timeSplit, req.start, req.end, i).Some? {
      BoundValid(req.timeSplit, req.start, req.end, i);
      BoundValid(req.timeSplit, req.start, req.end, i + 1);
    }
  }

  /**
   * Without a split, exactly one query is issued, over the whole requested
   * range, and its rows are all the call appends.
   */
  lemma NoSplitOneQuery(req: Request, org: string, exec: (string, string) -> Table)
    requires ValidRequest(req) && req.timeSplit == NoSplit
    ensures Passes(req) == 1
    ensures var q := Render(ChunkStages(req, req.start, req.end));
      var r := PassRows(req, exec(q, org));
      var g := Gather(PassResults(req, org, exec));
      g.queries == [q]
      && (r.Ok? ==> g.rows == r.value && g.failure.None?)
      && (r.Err? ==> g.rows == [] && g.failure == Some(r.error))
  {
    NoSplitIsWholeRange(req.start, req.end);
    var p := PassOf(req, org, exec, 0);
    assert PassResults(req, org, exec) == [p];
    PassQuery(req, org, exec, 0);
    GatherOne(p);
  }

  lemma GatherOne(p: Pass)
    requires p.Sent?
    ensures Gather([p]) == match p.result
      case Ok(es) => Outcome(es, [p.query], None)
      case Err(f) => Outcome([], [p.query], Some(f))
  {
    assert [p][..0] == [];
  }

  /** An end earlier than the start issues no query and appends nothing. */
  lemma NothingToFetch(req: Request, org: string, exec: (string, string) -> Table)
    requires ValidRequest(req) && req.timeSplit != NoSplit
    requires Seconds(req.end) < Seconds(req.start)
    ensures Passes(req) == 0
    ensures Gather(PassResults(req, org, exec)) == Outcome([], [], None)
  {
    assert DeltaDays(req.start, req.end) < 0;
    if MonthIndex(req.start) < MonthIndex(req.end) {
      MonthIndexOrder(req.start, req.end);
      assert false;
    }
  }

  lemma AppendAssoc<T>(a: seq<T>, b: seq<T>, c: seq<T>)
    ensures (a + b) + c == a + (b + c)
  {
  }

  /** One step of the loop: the passes so far, then pass `i`. */
  lemma GatherNext(ps: seq<Pass>, i: nat)
    requires i < |ps| && Gather(ps[..i]).failure.None?
    ensures var g := Gather(ps[..i]);
      Gather(ps[..i + 1]) == match ps[i]
        case Unbounded => Outcome(g.rows, g.queries, Some(Overflow))
        case Sent(q, Err(f)) => Outcome(g.rows, g.queries + [q], Some(f))
        case Sent(q, Ok(es)) => Outcome(g.rows + es, g.queries + [q], None)
  {
    assert ps[..i + 1][..i] == ps[..i];
  }

  /**
   * One pass of the `data_query` loop body: the chunk bounds, the query built
   * and printed, the store's table and its clean-up.
   */
  method RunPass(req: Request, org: string, exec: (string, string) -> Table, i: nat, ghost ps: seq<Pass>) returns (p: Pass)
    requires ValidRequest(req) && ps == PassResults(req, org, exec) && i < |ps|
    ensures p == ps[i]
  {
    var chunk := Chunk(req.timeSplit, req.start, req.end, i);
    if chunk.None? {
      return Unbounded;
    }
    var (a, b) := chunk.value;
    BoundValid(req.timeSplit, req.start, req.end, i);
    BoundValid(req.timeSplit, req.start, req.end, i + 1);
    var q := BuildChunkQuery(req, a, b);
    var text := q.ReturnQuery();
    var table := exec(text, org);
    p := Sent(text, PassRows(req, table));
  }

  /** `InfluxQuery`: the organisation queries run under, and the accumulated rows. */
  class InfluxQuery {
    const organisation: string
    var measurements: seq<Entry>

    constructor (organisation: string)
      ensures this.organisation == organisation && measurements == []
    {
      this.organisation := organisation;
      measurements := [];
    }

    /**
     * `data_query`: `printed` are the query texts sent, in order.  On success
     * the accumulator, earlier rows first, is merged; a failure leaves the rows
     * appended so far unmerged, as the raised exception skips the merge.
     */
    method DataQuery(req: Request, exec: (string, string) -> Table) returns (failure: Option<Failure>, printed: seq<string>)
      requires ValidRequest(req)
      modifies this
      ensures var g := Gather(PassResults(req, organisation, exec));
        printed == g.queries && failure == g.failure
        && measurements == if g.failure.None? then DedupSort(old(measurements) + g.rows)
                           else old(measurements) + g.rows
    {
      ghost var ps := PassResults(req, organisation, exec);
      ghost var appended: seq<Entry> := [];
      var n := Difference(req.timeSplit, req.start, req.end);
      failure := None;
      printed := [];
      var i := 0;
      while i < n
        invariant 0 <= i <= |ps| && (n > 0 ==> |ps| == n)
        invariant measurements == old(measurements) + appended
        invariant Gather(ps[..i]) == Outcome(appended, printed, None)
        invariant failure == None
      {
        var p := RunPass(req, organisation, exec, i, ps);
        GatherNext(ps, i);
        if p.Unbounded? {
          failure := Some(Overflow);
          GatherStops(ps, i + 1);
          return;
        }
        printed := printed + [p.query];
        if p.result.Err? {
          failure := Some(p.result.error);
          GatherStops(ps, i + 1);
          return;
        }
        AppendAssoc(old(measurements), appended, p.result.value);
        measurements := measurements + p.result.value;
        appended := appended + p.result.value;
        i := i + 1;
      }
      assert ps[..i] == ps;
      measurements := DedupSort(measurements);
    }

    /** `clear_measurements`: the accumulator becomes empty. */
    method ClearMeasurements()
      modifies this
      ensures measurements == []
    {
      measurements := [];
    }
  }
}
