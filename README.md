# caderidflux query core in Dafny

A Dafny model of the query side of `caderidflux`. The model covers four pieces:

- the Flux query builder `CustomFluxQuery`;
- the time-window planner, per-chunk stage order and merge of `InfluxQuery.data_query`;
- `clear_measurements`;
- the formatter `dt_to_rfc3339`.

Everything is in `src/caderidflux/query.py`.

The builder is a class whose `stages` field only grows. Each `add_*` method appends exactly the stage text the source builds. `ReturnQuery` is the newline join of the stages. Every stage template has a decoder beside it. The round-trip lemmas show that each stage reads back as its arguments. For example, a range clause says `>=` exactly when `Min Equal` is set, and the window stage names `_start` exactly when `time_starting` is set. They also show that `return_query` splits back into its stages.

The planner is a set of functions over naive datetimes `(Y, M, D, h, m, s)`. They use a Gregorian calendar and Python's year range 1..9999:

- `Difference` is the chunk count per split unit.
- `Bound` is `start + k * Timedelta`.
- `Chunk` is the pair of bounds of loop pass `i`.

`timedelta` arithmetic uses whole seconds, with `.days`/`.seconds` as floor division and modulus. Month and year steps follow `relativedelta`: the day is clamped to the length of the target month. That library is not shown, so this is an assumption of the model. A bound outside Python's datetime range is `None`. There Python raises: `OverflowError` for the `timedelta` steps (hour, day, week, no split), and `ValueError` for the month and year steps, since `relativedelta` builds the bound with `datetime.replace`. Either way the call stops, and the model records the failure as `Overflow`.

`data_query` is a method of the class `InfluxQuery`, whose field `measurements` is the accumulated table as a sequence of `(timestamp, row)` entries. The store is a parameter `exec` mapping query text and organisation to a table. The loop runs one pass per chunk:

1. build the chunk query;
2. record it as printed;
3. call the store;
4. clean the table (drop the bookkeeping columns, index by `_time`, drop range-filter-only fields, drop `_field` when one field was asked for, split names in multi-index mode);
5. append the rows.

After the last pass it keeps the first row per timestamp and sorts. The method's postcondition ties the printed queries, the failure and the new accumulator to `Gather`, a function over the passes. The lemmas about `Gather`, `DedupSort` and the chunk stages state what the source promises.

Behaviour of the code that a reader might not expect, and that the model keeps:

- Chunks are anchored at `start`, not aligned to calendar boundaries.
- The last chunk is not clipped to `end`. Hour and day counts round down, so the tail of the range can be left unqueried. Week counts round up, and month and year counts compare calendar fields only, so the last chunk can run past `end`.
- A month split from 2023-01-15 to 2023-04-03 gives three chunks anchored on the 15th, not one per calendar month touched.
- A zero count gives no chunk at all, not one empty chunk.
- The scaling window is closed on both ends (`>=` and `<=`), not half-open.
- A failing pass (a chunk bound out of range, or a `drop` of a missing column) raises mid-loop. The rows already appended stay in the accumulator, unmerged; they are not discarded.
- Names are interpolated into the query without escaping, so the round-trip lemmas require each name to be free of the character that ends its slot.

## Model

| member | source | states |
|---|---|---|
| Text.SplitJoin | src/caderidflux/query.py:410-411 | splitting `sep.join(xs)` on `sep` gives back `xs` when no element holds the separator's first character |
| Text.JoinSplit | src/caderidflux/query.py:513 | joining the pieces of a split gives back the text, for every text |
| Text.MatchFill | src/caderidflux/query.py:366-368 | reading the holes of an f-string template back from its filled text recovers the arguments, when each argument avoids the first character of the literal after it |
| Text.UnwrapWrap | src/caderidflux/query.py:353-356 | the middle of `prefix + mid + suffix` is `mid` |
| Calendar.FromSecondsOfSeconds | src/caderidflux/query.py:196-201 | a valid datetime's position in seconds is non-negative, and converting it back gives the same datetime |
| Calendar.AddSecondsCorrect | src/caderidflux/query.py:196-201 | `t + timedelta(seconds=k)` is a valid datetime exactly `k` seconds later, and fails exactly when that leaves years 1..9999 |
| Calendar.AddMonthsCorrect | src/caderidflux/query.py:167-174 | `t + relativedelta(months=k)` lands `k` calendar months later with the day clamped and the time kept, and fails exactly past year 9999 |
| Calendar.AddYearsCorrect | src/caderidflux/query.py:175-178 | `t + relativedelta(years=k)` keeps the month, clamps February 29th and fails exactly past year 9999 |
| Calendar.MonthIndexOrder | src/caderidflux/query.py:167-172 | a later calendar month is later on the time line, whatever the day and time |
| Rfc3339.ParseFormat | src/caderidflux/query.py:527-528 | `dt_to_rfc3339(t)` is 20 characters and parses back to `t` |
| Rfc3339.ParseFormatDate | src/caderidflux/query.py:529 | `dt_to_rfc3339(t, use_time=False)` is 10 characters and parses back to `t`'s date |
| Rfc3339.FormatInjective | src/caderidflux/query.py:516-529 | distinct datetimes render to distinct text |
| Rfc3339.FormatAlphabet | src/caderidflux/query.py:527-528 | the rendering holds only digits and `-`, `:`, `T`, `Z` |
| Flux.HeaderDecodes | src/caderidflux/query.py:331-338 | a fresh builder's five stages are the two imports, then stages reading back as the bucket, the range bounds rendered by `dt_to_rfc3339`, and the measurement |
| Flux.FieldStageDecodes | src/caderidflux/query.py:350-356 | the field filter reads back as exactly the requested names, in order |
| Flux.FieldStageEmpty | src/caderidflux/query.py:350-356 | with no names, the field filter still renders and tests `_field == ""` |
| Flux.FilterStageDecodes | src/caderidflux/query.py:366-368 | the tag filter reads back as its key and value |
| Flux.TargetedStageDecodes | src/caderidflux/query.py:373-378 | the targeted null-mask reads back as its key, value and column |
| Flux.RangeClauseDecodes | src/caderidflux/query.py:393-401 | a range clause reads back as its entry: `>=` exactly when `Min Equal`, `<=` exactly when `Max Equal`, both on the same field |
| Flux.RangeClauseFlags | src/caderidflux/query.py:396-401 | two entries rendering to the same clause are equal, so each flag changes the text |
| Flux.GroupStageDecodes | src/caderidflux/query.py:410-411 | the group stage reads back as its columns |
| Flux.PivotStageDecodes | src/caderidflux/query.py:416-420 | the pivot stage reads back as its column keys |
| Flux.WindowStageDecodes | src/caderidflux/query.py:446-454 | the window stage reads back as every, fn, column, time source and `createEmpty` |
| Flux.FlagTexts | src/caderidflux/query.py:446-453 | the time source is `_start` exactly when `time_starting`, and the `createEmpty` text is `true` exactly when it is set |
| Flux.ScalingStageDecodes | src/caderidflux/query.py:491-496 | the scaling map reads back as its column, bounds, slope and offset |
| Flux.RenderScalingDecodes | src/caderidflux/query.py:478-496 | a scaling entry applies over the closed window from its own bounds or the query's, with slope 1 and offset 0 by default |
| Flux.YieldStageDecodes | src/caderidflux/query.py:505 | the yield stage reads back as its name |
| Flux.RenderSplits | src/caderidflux/query.py:513 | the query text splits back into its stages when no stage holds a newline |
| Flux.RenderAppend | src/caderidflux/query.py:513 | appending stages appends lines: the earlier query text is an untouched prefix |
| Flux.CustomFluxQuery.constructor | src/caderidflux/query.py:319-340 | the builder starts with the five header stages and keeps the bounds |
| Flux.CustomFluxQuery.AddField | src/caderidflux/query.py:342-356 | appends exactly the field filter |
| Flux.CustomFluxQuery.AddFilter | src/caderidflux/query.py:358-368 | appends exactly the tag filter |
| Flux.CustomFluxQuery.AddSpecificFilter | src/caderidflux/query.py:370-378 | appends exactly the targeted null-mask |
| Flux.CustomFluxQuery.AddFilterRange | src/caderidflux/query.py:380-402 | appends `n + 2` stages: `pivot(["_field"])`, one clause per entry in input order, then `unpivot()` |
| Flux.CustomFluxQuery.AddGroups | src/caderidflux/query.py:404-411 | appends exactly the group stage |
| Flux.CustomFluxQuery.AddPivot | src/caderidflux/query.py:413-420 | appends exactly the pivot stage |
| Flux.CustomFluxQuery.AddWindow | src/caderidflux/query.py:422-454 | appends the window stage, with `createEmpty` true, `time_starting` false and column `_value` by default |
| Flux.CustomFluxQuery.DropColumns | src/caderidflux/query.py:456-461 | appends a `group` stage over the columns, as the source does |
| Flux.CustomFluxQuery.KeepMeasurements | src/caderidflux/query.py:463-467 | appends exactly the `keep` stage |
| Flux.CustomFluxQuery.DropStartStop | src/caderidflux/query.py:469-473 | appends exactly the `drop` stage |
| Flux.CustomFluxQuery.AddScaling | src/caderidflux/query.py:475-496 | appends the scaling map rendered over the builder's own bounds |
| Flux.CustomFluxQuery.AddYield | src/caderidflux/query.py:498-505 | appends exactly the yield stage |
| Planner.HourCount | src/caderidflux/query.py:151-156 | the hour count is the number of whole hours elapsed |
| Planner.WeekCount | src/caderidflux/query.py:163-165 | the week count `n` satisfies `7(n-1) < days <= 7n` |
| Planner.NoSplitIsWholeRange | src/caderidflux/query.py:179-189 | without a split there is one chunk, and it is exactly `[start, end]` |
| Planner.BoundValid | src/caderidflux/query.py:196-201 | every bound the loop computes is a valid datetime |
| Planner.ChunksContiguous | src/caderidflux/query.py:195-201 | chunk `i` ends where chunk `i + 1` starts; starts strictly increase and every chunk is non-empty |
| Planner.BoundsIncrease | src/caderidflux/query.py:196-201 | consecutive bounds strictly increase, for every split unit |
| Planner.FixedUnitsUnderCover | src/caderidflux/query.py:151-162 | hour and day chunks end at or before `end`, less than one step before it |
| Planner.WeekCover | src/caderidflux/query.py:163-166 | week chunks cover every whole day elapsed and end less than a week after them |
| Planner.MonthLastBound | src/caderidflux/query.py:167-174 | the last month bound is in `end`'s month, at `start`'s clamped day and time |
| Planner.YearLastBound | src/caderidflux/query.py:175-178 | the last year bound is in `end`'s year and `start`'s month |
| Planner.MonthExample | src/caderidflux/query.py:167-174 | 2023-01-15 to 2023-04-03 by month gives three chunks on the 15th, the last ending after `end` |
| Planner.MonthClampExample | src/caderidflux/query.py:173 | a month split from January 31st gives February 28th, then March 31st |
| Planner.MonthZeroExample | src/caderidflux/query.py:168-172 | thirty days within one month give a month count of zero |
| Planner.HourExample | src/caderidflux/query.py:151-157 | 90 minutes by hour gives one chunk of 60 minutes |
| Planner.WeekExample | src/caderidflux/query.py:163-166 | one day by week gives one chunk running six days past `end` |
| Results.InsertSpec | src/caderidflux/query.py:255 | inserting a row with a new timestamp keeps the rows strictly sorted and adds exactly that row |
| Results.SortByTimeSpec | src/caderidflux/query.py:255 | `sort_index` on distinct timestamps gives a strictly sorted permutation |
| Results.KeepFirstFromSpec | src/caderidflux/query.py:253-254 | keeping first occurrences keeps every unseen timestamp exactly once, as its earliest row, and no seen one |
| Results.DedupSortSpec | src/caderidflux/query.py:253-255 | the merge is strictly sorted, has every input timestamp, and keeps the earliest row for each |
| Results.DedupSortUnique | src/caderidflux/query.py:253-255 | any strictly sorted table with those properties is the merge |
| Results.DedupSortIdempotent | src/caderidflux/query.py:253-255 | merging a merged table changes nothing |
| Results.DedupSortAccumulates | src/caderidflux/query.py:251-255 | merging an earlier call's merged rows followed by new rows equals merging everything at once, so earlier calls win |
| Results.Without | src/caderidflux/query.py:241-247 | `drop` keeps exactly the columns not dropped |
| Results.Missing | src/caderidflux/query.py:241-245 | the labels `drop` lacks are exactly the wanted ones not present |
| Results.KeptColumnsSpec | src/caderidflux/query.py:240-247 | clean-up fails exactly when a bookkeeping column, `_time` or an extra field is absent, or an extra field is also dropped by an earlier step; otherwise it keeps exactly the other columns, minus `_field` for one field |
| Results.RowOfSpec | src/caderidflux/query.py:248-250 | each kept column's cell is under that column's key, and a missing cell is the null cell (pandas' NaN) |
| Results.ColumnKeyInjective | src/caderidflux/query.py:248-250 | a multi-index key joins back to its column name, so distinct columns get distinct keys |
| Results.NormaliseSpec | src/caderidflux/query.py:240-250 | a cleaned chunk has one row per record, in order, at the record's timestamp; each row holds every kept column's cell under its key and no other key |
| Results.RowOfKeys | src/caderidflux/query.py:241-250 | a row's keys are exactly the keys of the kept columns, so no dropped column survives |
| Influx.AddPlainFilters | src/caderidflux/query.py:211-213 | appends one tag filter per plain entry, in entry order |
| Influx.AddTargetedFilters | src/caderidflux/query.py:214-220 | appends the targeted filters in entry order, one per dict entry, with `str(None)` for a missing `Value` or `Col` |
| Influx.AddScalings | src/caderidflux/query.py:233-234 | appends one scaling map per entry, in entry order |
| Influx.BuildChunkQuery | src/caderidflux/query.py:202-234 | a fresh builder holding exactly the chunk's stages in the fixed order |
| Influx.ExtraFieldsSpec | src/caderidflux/query.py:203-206 | extra fields are the range-filter fields not requested, and only those |
| Influx.AllFieldsCoverRanges | src/caderidflux/query.py:203-209 | the requested fields come first, and every range-filter field is selected |
| Influx.PlainFiltersSpec | src/caderidflux/query.py:211-213 | every plain entry yields its tag filter |
| Influx.ScalingStagesSpec | src/caderidflux/query.py:233-234 | scaling stage `k` is entry `k` rendered over the chunk's bounds |
| Influx.ChunkLayout | src/caderidflux/query.py:202-234 | the chunk query opens with the header, the field filter and the group stage, and ends with the window only if `aggregate`, the pivot, then the scaling maps; its exact length counts the filters and the range block |
| Influx.ChunkFilterOrder | src/caderidflux/query.py:210-228 | between the group stage and the pivot, the chunk query holds exactly the tag filters, the targeted filters and the range block, in that order, then the window stages |
| Influx.ChunkSelects | src/caderidflux/query.py:202-209 | the chunk query's header reads back as the bucket, the chunk bounds and the measurement, and its field filter as all selected fields |
| Influx.PivotRule | src/caderidflux/query.py:229-232 | the pivot is on `groups + ["_field"]` exactly when more than one field, multi-index, or no groups; otherwise on `groups` |
| Influx.WindowRule | src/caderidflux/query.py:223-228 | the window uses `win_range`, `win_func` and `_value`, stamps from the window start exactly when `hour_beginning` is set, and creates empty windows |
| Influx.GatherStops | src/caderidflux/query.py:195-251 | once a pass fails, later passes change nothing |
| Influx.GatherQueries | src/caderidflux/query.py:195-239 | the printed queries are a prefix of the passes' queries, in order, and all of them when no pass fails |
| Influx.GatherSpec | src/caderidflux/query.py:194-251 | the loop stops at the first pass that does not succeed: with none, every pass's rows and query; otherwise the rows of the passes before it, their queries plus its own when it was sent, and its failure |
| Influx.GatherRows | src/caderidflux/query.py:240-251 | a successful pass appends its rows after the earlier ones |
| Influx.PassQuery | src/caderidflux/query.py:196-239 | pass `i` sends the query of chunk `i` over valid bounds, unless a bound overflows |
| Influx.NoSplitOneQuery | src/caderidflux/query.py:179-251 | without a split, exactly one query over the whole range is sent, and its rows or its failure are the outcome |
| Influx.NothingToFetch | src/caderidflux/query.py:194-195 | with a split unit, an end before the start sends no query and appends nothing |
| Influx.RunPass | src/caderidflux/query.py:196-251 | one loop body computes exactly pass `i` as `PassOf` defines it |
| Influx.InfluxQuery.constructor | src/caderidflux/query.py:89-91 | a client starts with its organisation and an empty accumulator |
| Influx.InfluxQuery.DataQuery | src/caderidflux/query.py:194-255 | the printed queries and failure are those of `Gather` over the passes; on success the accumulator becomes the merge of its old rows then the new ones, and on failure the old rows then the rows appended so far |
| Influx.InfluxQuery.ClearMeasurements | src/caderidflux/query.py:268-274 | the accumulator becomes empty |
| Calendar.AddSeconds | src/caderidflux/query.py:196-201 | `datetime + timedelta`, `None` outside years 1..9999; specified by `AddSecondsCorrect` |
| Calendar.AddMonths | src/caderidflux/query.py:167-174 | `datetime + relativedelta(months=k)`; specified by `AddMonthsCorrect` |
| Calendar.AddYears | src/caderidflux/query.py:175-178 | `datetime + relativedelta(years=k)`; specified by `AddYearsCorrect` |
| Rfc3339.Format | src/caderidflux/query.py:527-528 | `dt_to_rfc3339(t)`, zero-padded `%Y-%m-%dT%H:%M:%SZ`; specified by `ParseFormat`, `FormatInjective` and `FormatAlphabet` |
| Rfc3339.FormatDate | src/caderidflux/query.py:529 | `dt_to_rfc3339(t, use_time=False)`, zero-padded `%Y-%m-%d`; specified by `ParseFormatDate` |
| Flux.Header | src/caderidflux/query.py:331-338 | the five stages of a fresh builder, exactly five of them; read back by `HeaderDecodes` |
| Flux.FieldStage | src/caderidflux/query.py:350-356 | the `_field` equality OR-chain of `add_field`; read back by `FieldStageDecodes` |
| Flux.FilterStage | src/caderidflux/query.py:366-368 | the tag filter of `add_filter`; read back by `FilterStageDecodes` |
| Flux.TargetedStage | src/caderidflux/query.py:373-378 | the null-mask of `add_specific_filter`; read back by `TargetedStageDecodes` |
| Flux.RangeClause | src/caderidflux/query.py:393-401 | one clause of `add_filter_range`; read back by `RangeClauseDecodes` |
| Flux.RangeBlock | src/caderidflux/query.py:380-402 | the stages of `add_filter_range`: pivot, clauses, unpivot; stated by `CustomFluxQuery.AddFilterRange` |
| Flux.GroupStage | src/caderidflux/query.py:410-411 | the group stage of `add_groups` and `drop_columns`; read back by `GroupStageDecodes` |
| Flux.PivotStage | src/caderidflux/query.py:416-420 | the pivot of `add_pivot`; read back by `PivotStageDecodes` |
| Flux.WindowStage | src/caderidflux/query.py:446-454 | the `aggregateWindow` of `add_window`; read back by `WindowStageDecodes` |
| Flux.RenderScaling | src/caderidflux/query.py:478-490 | the bounds, slope and offset `add_scaling` renders, with its defaults; stated by `RenderScalingDecodes` |
| Flux.ScalingStage | src/caderidflux/query.py:491-496 | the map stage of `add_scaling`; read back by `ScalingStageDecodes` |
| Flux.YieldStage | src/caderidflux/query.py:505 | the yield stage of `add_yield`; read back by `YieldStageDecodes` |
| Flux.Render | src/caderidflux/query.py:513 | `"\n".join` of the stages; split back by `RenderSplits`, extended by `RenderAppend` |
| Flux.CustomFluxQuery.ReturnQuery | src/caderidflux/query.py:507-513 | `return_query`: the rendering of the builder's stages; see `RenderSplits` |
| Planner.Difference | src/caderidflux/query.py:147-189 | `time_dict[time_split]['Difference']` per unit; stated by `HourCount`, `WeekCount`, `NoSplitIsWholeRange` and the examples |
| Planner.StepSeconds | src/caderidflux/query.py:151-166 | the fixed `'Timedelta'` of hour, day and week in seconds; used by `FixedUnitsUnderCover` and `WeekCover` |
| Planner.Bound | src/caderidflux/query.py:196-201 | `start_date + Timedelta * k`, `None` where Python raises; stated by `BoundValid` and `BoundsIncrease` |
| Planner.Chunk | src/caderidflux/query.py:196-201 | `(start_t, end_t)` of pass `i`; stated by `ChunksContiguous` |
| Results.KeepFirst | src/caderidflux/query.py:253-254 | `~index.duplicated(keep='first')`; stated by `KeepFirstFromSpec` |
| Results.SortByTime | src/caderidflux/query.py:255 | `sort_index()`; stated by `SortByTimeSpec` |
| Results.DedupSort | src/caderidflux/query.py:253-255 | the final merge; stated by `DedupSortSpec`, `DedupSortUnique` and `DedupSortAccumulates` |
| Results.KeptColumns | src/caderidflux/query.py:241-247 | the columns a chunk keeps, or the labels whose absence raises `KeyError`; stated by `KeptColumnsSpec` |
| Results.Normalise | src/caderidflux/query.py:240-250 | one chunk's clean-up; stated by `NormaliseSpec` and `RowOfKeys` |
| Influx.ExtraFields | src/caderidflux/query.py:203-206 | the range-filter fields not requested; stated by `ExtraFieldsSpec` |
| Influx.FilterStages | src/caderidflux/query.py:211-222 | the tag filters, the targeted filters, then the range block; placed by `ChunkFilterOrder` |
| Influx.ChunkStages | src/caderidflux/query.py:202-234 | the stages of chunk `[a, b]`; stated by `ChunkLayout`, `ChunkFilterOrder`, `ChunkSelects`, `PivotRule` and built by `BuildChunkQuery` |
| Influx.PassRows | src/caderidflux/query.py:236-250 | what a pass's table contributes: nothing when empty, else its cleaned rows or `MissingColumns` |
| Influx.PassOf | src/caderidflux/query.py:196-251 | one pass: `Unbounded` when a bound overflows, else the query sent and its rows; stated by `PassQuery` |
| Influx.Gather | src/caderidflux/query.py:194-251 | the loop over the passes; stated by `GatherSpec`, `GatherStops`, `GatherQueries` and `GatherRows` |
| Influx.FirstFailure | src/caderidflux/query.py:195-251 | the index of the first pass that does not succeed: every pass before it succeeds, and it does not |

## Left out

- `src/caderidflux/upload.py`, client construction, `query_api` and `custom_data_query`: they are transport and client record handling. The store is the parameter `exec`.
- Transport and execution errors raised by the store: the store is a total function here.
- The debug `print` of each query: it is modelled as the `printed` result of `DataQuery`.
- `return_measurements`: it only returns the field.
- `strptime` of string `Start`/`End` in `add_scaling`: scaling bounds are `Option<DateTime>`, and a string bound is not parsed.
- Microseconds, time zones and `pd.to_datetime`: datetimes are naive to the second, and the accumulator's timestamps are integer instants.
- The rendering of numbers: `Min`, `Max`, `Slope` and `Offset` are already-rendered strings, and `add_scaling`'s defaults are the texts `"1"` and `"0"`.
- What the Flux stages compute once the store runs them (null-masking, windowing, pivoting): the model states the exact query text and reads it back, not its evaluation.
- pandas column alignment on `concat` (rows of different chunks with different columns): a row is a map from column key to cell, and absent keys are not filled with NaN.
- `fields` or `groups` given as a single string: the request holds lists, which is what the source converts them to.
- `bool_filters` is a sequence of pairs. The model does not require the keys to be distinct, unlike a Python dict.
- Influx.PlainFiltersSpec: states the count and that every plain entry's filter is present, not their relative order. The order is stated by `Influx.AddPlainFilters` through `PlainFilters`.
- Years below 1000 under `%Y`: they are modelled as zero-padded to four digits, as recent CPython releases print them. Older releases on Linux print fewer digits, and the model does not cover that platform difference.
- A `scaling` entry whose `Start` or `End` key is present with the value `None`: the source renders the text `None` there. In the model an absent bound is `None`, and the query's own bound is used.
- The NaN padding of `columns.str.split('_', expand=True)`: pandas pads shorter column keys to the longest key's length, and `ColumnKeyOf` keeps each key at its own length.
