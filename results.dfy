/**
 * What `data_query` does with each chunk's table and with the accumulated
 * result: the per-chunk column clean-up, and the final merge that keeps the
 * first row seen for each timestamp and sorts by timestamp.  Timestamps are
 * abstract instants (`int`); a row maps column keys to cells.
 */
module Results {
  import opened Wrappers
  import opened Text

  /** A column label: one name, or the parts of a name split on `_` in multi-index mode. */
  type ColumnKey = seq<string>

  /** A cell value as rendered by the store; `Null` is pandas' NaN. */
  datatype Cell = Null | Value(text: string)

  type Row = map<ColumnKey, Cell>

  /** One row of the accumulated table, indexed by its timestamp. */
  datatype Entry = Entry(time: int, row: Row)

  /** The timestamps of a sequence of rows. */
  function Times(s: seq<Entry>): set<int>
  {
    if s == [] then {} else {s[0].time} + Times(s[1..])
  }

  /** The earliest row of `s` with timestamp `t`. */
  function FirstWith(s: seq<Entry>, t: int): Entry
    requires t in Times(s)
  {
    if s[0].time == t then s[0] else FirstWith(s[1..], t)
  }

  /** Rows of `s` whose timestamp was not seen before them (nor in `seen`), in order. */
  function KeepFirstFrom(s: seq<Entry>, seen: set<int>): seq<Entry>
  {
    if s == [] then []
    else if s[0].time in seen then KeepFirstFrom(s[1..], seen)
    else [s[0]] + KeepFirstFrom(s[1..], seen + {s[0].time})
  }

  /** `~index.duplicated(keep='first')` */
  function KeepFirst(s: seq<Entry>): seq<Entry>
  {
    KeepFirstFrom(s, {})
  }

  /** Insert `x` into `r`, ahead of the first row with a later timestamp. */
  function Insert(x: Entry, r: seq<Entry>): seq<Entry>
  {
    if r == [] then [x]
    else if x.time < r[0].time then [x] + r
    else [r[0]] + Insert(x, r[1..])
  }

  /** `sort_index()` on rows whose timestamps are distinct. */
  function SortByTime(s: seq<Entry>): seq<Entry>
  {
    if s == [] then [] else Insert(s[0], SortByTime(s[1..]))
  }

  /** The merge that ends `data_query`: first occurrence per timestamp, then sorted. */
  function DedupSort(s: seq<Entry>): seq<Entry>
  {
    SortByTime(KeepFirst(s))
  }

  predicate StrictlySorted(r: seq<Entry>)
  {
    forall i, j :: 0 <= i < j < |r| ==> r[i].time < r[j].time
  }

  predicate DistinctTimes(r: seq<Entry>)
  {
    forall i, j :: 0 <= i < j < |r| ==> r[i].time != r[j].time
  }

  // ------------------------------------------------------------- lemmas

  lemma {:induction false} TimesMember(s: seq<Entry>, t: int)
    ensures t in Times(s) <==> exists k :: 0 <= k < |s| && s[k].time == t
  {
    if s != [] {
      TimesMember(s[1..], t);
      if t in Times(s[1..]) {
        var k :| 0 <= k < |s[1..]| && s[1..][k].time == t;
        assert s[k + 1].time == t;
      }
      if exists k :: 0 <= k < |s| && s[k].time == t {
        var k :| 0 <= k < |s| && s[k].time == t;
        if k > 0 { assert s[1..][k - 1].time == t; }
      }
    }
  }

  lemma {:induction false} TimesAppend(a: seq<Entry>, b: seq<Entry>)
    ensures Times(a + b) == Times(a) + Times(b)
    decreases |a|
  {
    if a != [] {
      assert (a + b)[1..] == a[1..] + b;
      TimesAppend(a[1..], b);
    } else {
      assert a + b == b;
    }
  }

  lemma {:induction false} FirstWithIn(s: seq<Entry>, t: int)
    requires t in Times(s)
    ensures FirstWith(s, t) in s && FirstWith(s, t).time == t
  {
    if s[0].time != t {
      FirstWithIn(s[1..], t);
    }
  }

  /** Keeping first occurrences keeps every timestamp not already seen, once. */
  lemma {:induction false} KeepFirstFromSpec(s: seq<Entry>, seen: set<int>)
    ensures var r := KeepFirstFrom(s, seen);
      Times(r) == Times(s) - seen
      && DistinctTimes(r)
      && (forall k :: 0 <= k < |r| ==> r[k].time !in seen)
      && (forall k :: 0 <= k < |r| ==> r[k].time in Times(s) && r[k] == FirstWith(s, r[k].time))
  {
    if s != [] {
      var x := s[0];
      if x.time in seen {
        KeepFirstFromSpec(s[1..], seen);
        var r := KeepFirstFrom(s[1..], seen);
        forall k | 0 <= k < |r| ensures r[k] == FirstWith(s, r[k].time) {
          assert r[k].time != x.time;
        }
      } else {
        var seen' := seen + {x.time};
        KeepFirstFromSpec(s[1..], seen');
        var tail := KeepFirstFrom(s[1..], seen');
        var r := [x] + tail;
        assert r[1..] == tail;
        forall k | 1 <= k < |r| ensures r[k] == FirstWith(s, r[k].time) && r[k].time != x.time {
          assert r[k] == tail[k - 1];
        }
        assert DistinctTimes(r);
      }
    }
  }

  lemma {:induction false} InsertMultiset(x: Entry, r: seq<Entry>)
    ensures multiset(Insert(x, r)) == multiset(r) + multiset{x}
  {
    if r != [] && x.time >= r[0].time {
      InsertMultiset(x, r[1..]);
      assert r == [r[0]] + r[1..];
    }
  }

  lemma {:induction false} InsertSpec(x: Entry, r: seq<Entry>)
    requires StrictlySorted(r) && x.time !in Times(r)
    ensures StrictlySorted(Insert(x, r))
    ensures multiset(Insert(x, r)) == multiset(r) + multiset{x}
  {
    InsertMultiset(x, r);
    if r == [] {
    } else if x.time < r[0].time {
      var res := [x] + r;
      forall i, j | 0 <= i < j < |res| ensures res[i].time < res[j].time {
        assert res[j] == r[j - 1];
        if i > 0 { assert res[i] == r[i - 1]; }
      }
    } else {
      assert x.time !in Times(r[1..]);
      InsertSpec(x, r[1..]);
      InsertBehind(x, r);
    }
  }

  lemma InsertBehind(x: Entry, r: seq<Entry>)
    requires StrictlySorted(r) && r != [] && x.time > r[0].time
    requires StrictlySorted(Insert(x, r[1..]))
    ensures StrictlySorted(Insert(x, r))
  {
    var tail := Insert(x, r[1..]);
    assert forall j :: 0 <= j < |r[1..]| ==> r[0].time < r[1..][j].time by {
      forall j | 0 <= j < |r[1..]| ensures r[0].time < r[1..][j].time {
        assert r[1..][j] == r[j + 1];
      }
    }
    InsertAbove(x, r[1..], r[0].time);
    var res := [r[0]] + tail;
    assert Insert(x, r) == res;
    forall i, j | 0 <= i < j < |res| ensures res[i].time < res[j].time {
      assert res[j] == tail[j - 1];
      if i > 0 { assert res[i] == tail[i - 1]; }
    }
  }

  /** Inserting a row later than `t` into rows all later than `t` keeps them all later than `t`. */
  lemma InsertAbove(x: Entry, s: seq<Entry>, t: int)
    requires t < x.time
    requires forall j :: 0 <= j < |s| ==> t < s[j].time
    ensures forall j :: 0 <= j < |Insert(x, s)| ==> t < Insert(x, s)[j].time
  {
    var r := Insert(x, s);
    InsertMultiset(x, s);
    forall j | 0 <= j < |r| ensures t < r[j].time {
      assert r[j] in multiset(r);
      if r[j] != x {
        assert r[j] in multiset(s);
      }
    }
  }

  /** Sequences holding the same rows have the same timestamps. */
  lemma SameTimes(a: seq<Entry>, b: seq<Entry>)
    requires multiset(a) == multiset(b)
    ensures Times(a) == Times(b)
  {
    MultisetTimes(a, b);
    forall t ensures t in Times(a) <==> t in Times(b) {
      TimesMember(a, t);
      TimesMember(b, t);
      if t in Times(a) {
        var k :| 0 <= k < |a| && a[k].time == t;
        assert a[k] in b;
        var j :| 0 <= j < |b| && b[j] == a[k];
      }
      if t in Times(b) {
        var k :| 0 <= k < |b| && b[k].time == t;
        assert b[k] in a;
        var j :| 0 <= j < |a| && a[j] == b[k];
      }
    }
  }

  lemma {:induction false} SortByTimeSpec(s: seq<Entry>)
    requires DistinctTimes(s)
    ensures StrictlySorted(SortByTime(s))
    ensures multiset(SortByTime(s)) == multiset(s)
    ensures Times(SortByTime(s)) == Times(s)
  {
    if s != [] {
      assert DistinctTimes(s[1..]) by {
        forall i, j | 0 <= i < j < |s[1..]| ensures s[1..][i].time != s[1..][j].time {
          assert s[1..][i] == s[i + 1] && s[1..][j] == s[j + 1];
        }
      }
      SortByTimeSpec(s[1..]);
      forall k | 0 <= k < |s[1..]| ensures s[1..][k].time != s[0].time {
        assert s[1..][k] == s[k + 1];
      }
      TimesMember(s[1..], s[0].time);
      InsertSpec(s[0], SortByTime(s[1..]));
      assert s == [s[0]] + s[1..];
    }
    SameTimes(SortByTime(s), s);
  }

  lemma {:induction false} MultisetTimes(a: seq<Entry>, b: seq<Entry>)
    requires multiset(a) == multiset(b)
    ensures forall e :: e in a <==> e in b
  {
    forall e ensures e in a <==> e in b {
      assert e in a <==> e in multiset(a);
      assert e in b <==> e in multiset(b);
    }
  }

  /** Distinct timestamps: the one row with timestamp `t` is the first. */
  lemma {:induction false} FirstWithDistinct(r: seq<Entry>, k: nat)
    requires DistinctTimes(r) && k < |r|
    ensures r[k].time in Times(r) && FirstWith(r, r[k].time) == r[k]
  {
    TimesMember(r, r[k].time);
    if k > 0 {
      assert DistinctTimes(r[1..]) by {
        forall i, j | 0 <= i < j < |r[1..]| ensures r[1..][i].time != r[1..][j].time {
          assert r[1..][i] == r[i + 1] && r[1..][j] == r[j + 1];
        }
      }
      FirstWithDistinct(r[1..], k - 1);
    }
  }

  /**
   * The merge yields rows strictly increasing in timestamp (so no duplicate
   * timestamps), one for every timestamp of the input, and the row kept for
   * each timestamp is the earliest one in the input.
   */
  lemma DedupSortSpec(s: seq<Entry>)
    ensures var r := DedupSort(s);
      StrictlySorted(r)
      && Times(r) == Times(s)
      && (forall k :: 0 <= k < |r| ==> r[k].time in Times(s) && r[k] == FirstWith(s, r[k].time))
  {
    var kept := KeepFirst(s);
    KeepFirstFromSpec(s, {});
    SortByTimeSpec(kept);
    var r := DedupSort(s);
    MultisetTimes(r, kept);
    forall k | 0 <= k < |r| ensures r[k].time in Times(s) && r[k] == FirstWith(s, r[k].time) {
      assert r[k] in kept;
      var j :| 0 <= j < |kept| && kept[j] == r[k];
    }
  }

  /** Two strictly sorted sequences holding the same rows are equal. */
  lemma {:induction false} SortedUnique(a: seq<Entry>, b: seq<Entry>)
    requires StrictlySorted(a) && StrictlySorted(b)
    requires forall e :: e in a <==> e in b
    ensures a == b
  {
    assert a != [] ==> a[0] in b;
    assert b != [] ==> b[0] in a;
    if a != [] && b != [] {
      assert a[0] in b && b[0] in a;
      var i :| 0 <= i < |b| && b[i] == a[0];
      var j :| 0 <= j < |a| && a[j] == b[0];
      assert a[0].time <= a[j].time == b[0].time <= b[i].time == a[0].time;
      assert i == 0;
      forall e ensures e in a[1..] <==> e in b[1..] {
        if e in a[1..] {
          var p :| 0 <= p < |a[1..]| && a[1..][p] == e;
          assert a[p + 1].time > a[0].time;
          assert e in b;
          assert e != b[0];
        }
        if e in b[1..] {
          var p :| 0 <= p < |b[1..]| && b[1..][p] == e;
          assert b[p + 1].time > b[0].time;
          assert e in a;
          assert e != a[0];
          var q :| 0 <= q < |a| && a[q] == e;
          assert q > 0;
          assert a[1..][q - 1] == e;
        }
      }
      SortedUnique(a[1..], b[1..]);
      assert a == [a[0]] + a[1..] && b == [b[0]] + b[1..];
    }
  }

  /**
   * The merge result is the only strictly sorted sequence that holds, for
   * each timestamp of the input, the earliest row with it.
   */
  lemma DedupSortUnique(s: seq<Entry>, r: seq<Entry>)
    requires StrictlySorted(r) && Times(r) == Times(s)
    requires forall k :: 0 <= k < |r| ==> r[k].time in Times(s) && r[k] == FirstWith(s, r[k].time)
    ensures r == DedupSort(s)
  {
    var d := DedupSort(s);
    DedupSortSpec(s);
    forall e ensures e in r <==> e in d {
      if e in r {
        var k :| 0 <= k < |r| && r[k] == e;
        TimesMember(d, e.time);
        var j :| 0 <= j < |d| && d[j].time == e.time;
      }
      if e in d {
        var k :| 0 <= k < |d| && d[k] == e;
        TimesMember(r, e.time);
        var j :| 0 <= j < |r| && r[j].time == e.time;
      }
    }
    SortedUnique(r, d);
  }

  /** Merging an already merged table changes nothing. */
  lemma DedupSortIdempotent(s: seq<Entry>)
    ensures DedupSort(DedupSort(s)) == DedupSort(s)
  {
    var r := DedupSort(s);
    DedupSortSpec(s);
    forall k | 0 <= k < |r| ensures r[k].time in Times(r) && r[k] == FirstWith(r, r[k].time) {
      FirstWithDistinct(r, k);
    }
    DedupSortUnique(r, r);
  }

  /** For a timestamp of `a`, the earliest row of `a + b` comes from `a`; otherwise from `b`. */
  lemma {:induction false} FirstWithAppend(a: seq<Entry>, b: seq<Entry>, t: int)
    requires t in Times(a) + Times(b)
    ensures t in Times(a + b)
    ensures FirstWith(a + b, t) == if t in Times(a) then FirstWith(a, t) else FirstWith(b, t)
    decreases |a|
  {
    TimesAppend(a, b);
    if a == [] {
      assert a + b == b;
    } else {
      assert (a + b)[1..] == a[1..] + b;
      if a[0].time != t {
        FirstWithAppend(a[1..], b, t);
      }
    }
  }

  /**
   * Rows accumulated by an earlier call and already merged, followed by new
   * rows, merge to the same table as merging everything at once: rows from the
   * earlier call win over new rows with the same timestamp.
   */
  lemma DedupSortAccumulates(a: seq<Entry>, b: seq<Entry>)
    ensures DedupSort(DedupSort(a) + b) == DedupSort(a + b)
  {
    var m := DedupSort(a);
    DedupSortSpec(a);
    DedupSortSpec(m + b);
    var r := DedupSort(m + b);
    TimesAppend(m, b);
    TimesAppend(a, b);
    forall k | 0 <= k < |r| ensures r[k].time in Times(a + b) && r[k] == FirstWith(a + b, r[k].time) {
      var t := r[k].time;
      FirstWithAppend(m, b, t);
      FirstWithAppend(a, b, t);
      if t in Times(m) {
        TimesMember(m, t);
        var j :| 0 <= j < |m| && m[j].time == t;
        assert StrictlySorted(m);
        assert DistinctTimes(m);
        FirstWithDistinct(m, j);
      }
    }
    DedupSortUnique(a + b, r);
  }

  // ------------------------------------------------------ chunk clean-up

  /** The table `query_data_frame` returns; each record's `_time` is already an instant. */
  datatype Record = Record(time: int, cells: map<string, Cell>)
  datatype Table = Table(columns: seq<string>, rows: seq<Record>)

  /** `DataFrame.empty`: no rows or no columns. */
  predicate IsEmpty(t: Table)
  {
    |t.rows| == 0 || |t.columns| == 0
  }

  const Bookkeeping: seq<string> := ["result", "table", "_start", "_stop"]

  /** `cols` without the labels in `drop`, order kept. */
  function Without(cols: seq<string>, drop: seq<string>): (r: seq<string>)
    ensures forall c :: c in r <==> c in cols && c !in drop
  {
    if cols == [] then []
    else (if cols[0] in drop then [] else [cols[0]]) + Without(cols[1..], drop)
  }

  /** The labels of `want` that `cols` lacks: `drop` raises KeyError for them. */
  function Missing(cols: seq<string>, want: seq<string>): (r: seq<string>)
    ensures forall c :: c in r <==> c in want && c !in cols
  {
    if want == [] then []
    else (if want[0] in cols then [] else [want[0]]) + Missing(cols, want[1..])
  }

  /** A column's key: split on `_` in multi-index mode, the name alone otherwise. */
  function ColumnKeyOf(c: string, multiindex: bool): ColumnKey
  {
    if multiindex then SplitOn(c, "_") else [c]
  }

  /** The row of a record over the kept columns; a missing cell is NaN. */
  function RowOf(cols: seq<string>, cells: map<string, Cell>, multiindex: bool): Row
  {
    if cols == [] then map[]
    else
      var c := cols[|cols| - 1];
      RowOf(cols[..|cols| - 1], cells, multiindex)[ColumnKeyOf(c, multiindex) := if c in cells then cells[c] else Null]
  }

  /** The columns a chunk keeps, or the labels whose absence raises KeyError. */
  function KeptColumns(columns: seq<string>, extraFields: seq<string>, singleField: bool): Result<seq<string>, seq<string>>
  {
    if |Missing(columns, Bookkeeping)| > 0 then Err(Missing(columns, Bookkeeping))
    else
      var c1 := Without(columns, Bookkeeping);
      if "_time" !in c1 then Err(["_time"])
      else
        var c2 := Without(c1, ["_time"]);
        if |Missing(c2, extraFields)| > 0 then Err(Missing(c2, extraFields))
        else
          var c3 := Without(c2, extraFields);
          Ok(if singleField && "_field" in c3 then Without(c3, ["_field"]) else c3)
  }

  /**
   * One chunk's clean-up: drop the bookkeeping columns, index by `_time`,
   * drop the range-filter-only fields, drop `_field` when one field was asked
   * for, and split column names in multi-index mode.
   */
  function Normalise(t: Table, extraFields: seq<string>, singleField: bool, multiindex: bool): Result<seq<Entry>, seq<string>>
  {
    match KeptColumns(t.columns, extraFields, singleField)
    case Err(missing) => Err(missing)
    case Ok(cols) =>
      Ok(seq(|t.rows|, k requires 0 <= k < |t.rows| => Entry(t.rows[k].time, RowOf(cols, t.rows[k].cells, multiindex))))
  }

  /**
   * The clean-up fails exactly when a bookkeeping column, `_time` or a
   * range-filter-only field is absent; otherwise the kept columns are those of
   * the table minus all of these (and minus `_field` when one field was asked for).
   */
  lemma KeptColumnsSpec(columns: seq<string>, extraFields: seq<string>, singleField: bool)
    ensures KeptColumns(columns, extraFields, singleField).Err? <==>
      (exists c :: c in Bookkeeping && c !in columns) || "_time" !in columns
      || (exists c :: c in extraFields && (c !in columns || c in Bookkeeping || c == "_time"))
    ensures KeptColumns(columns, extraFields, singleField).Ok? ==>
      forall c :: c in KeptColumns(columns, extraFields, singleField).value <==>
        c in columns && c !in Bookkeeping && c != "_time" && c !in extraFields
        && !(singleField && c == "_field")
  {
    if |Missing(columns, Bookkeeping)| > 0 {
      var c := Missing(columns, Bookkeeping)[0];
      assert c in Bookkeeping && c !in columns;
    } else if "_time" in Without(columns, Bookkeeping) {
      var c2 := Without(Without(columns, Bookkeeping), ["_time"]);
      if |Missing(c2, extraFields)| > 0 {
        var c := Missing(c2, extraFields)[0];
        assert c in extraFields && c !in c2;
      }
    }
  }

  /** The keys of a row are the keys of the kept columns, each carrying that column's cell. */
  lemma {:induction false} RowOfSpec(cols: seq<string>, cells: map<string, Cell>, multiindex: bool, c: string)
    requires c in cols
    ensures ColumnKeyOf(c, multiindex) in RowOf(cols, cells, multiindex)
    ensures RowOf(cols, cells, multiindex)[ColumnKeyOf(c, multiindex)] == if c in cells then cells[c] else Null
  {
    var last := cols[|cols| - 1];
    if c != last {
      assert c in cols[..|cols| - 1] by {
        var i :| 0 <= i < |cols| && cols[i] == c;
        assert i < |cols| - 1;
        assert cols[..|cols| - 1][i] == c;
      }
      RowOfSpec(cols[..|cols| - 1], cells, multiindex, c);
      ColumnKeyInjective(c, last, multiindex);
    }
  }

  /** A row holds the keys of the kept columns and no others. */
  lemma {:induction false} RowOfKeys(cols: seq<string>, cells: map<string, Cell>, multiindex: bool)
    ensures RowOf(cols, cells, multiindex).Keys == set c | c in cols :: ColumnKeyOf(c, multiindex)
    decreases |cols|
  {
    if cols != [] {
      var init := cols[..|cols| - 1];
      RowOfKeys(init, cells, multiindex);
      assert cols == init + [cols[|cols| - 1]];
    }
  }

  /** Column keys are unambiguous: joining a key's parts with `_` gives back its column name. */
  lemma ColumnKeyInjective(a: string, b: string, multiindex: bool)
    ensures Join(ColumnKeyOf(a, multiindex), "_") == a
    ensures ColumnKeyOf(a, multiindex) == ColumnKeyOf(b, multiindex) ==> a == b
  {
    if multiindex {
      JoinSplit(a, "_");
      JoinSplit(b, "_");
    }
  }

  /**
   * A cleaned chunk has one row per record, in order, at the record's
   * timestamp, holding each kept column's cell under that column's key and
   * no key of a dropped column.
   */
  lemma NormaliseSpec(t: Table, extraFields: seq<string>, singleField: bool, multiindex: bool, k: nat, c: string)
    requires Normalise(t, extraFields, singleField, multiindex).Ok?
    requires k < |t.rows|
    requires c in KeptColumns(t.columns, extraFields, singleField).value
    ensures var es := Normalise(t, extraFields, singleField, multiindex).value;
      |es| == |t.rows| && es[k].time == t.rows[k].time
      && ColumnKeyOf(c, multiindex) in es[k].row
      && es[k].row[ColumnKeyOf(c, multiindex)] == (if c in t.rows[k].cells then t.rows[k].cells[c] else Null)
      && es[k].row.Keys == set c' | c' in KeptColumns(t.columns, extraFields, singleField).value :: ColumnKeyOf(c', multiindex)
  {
    RowOfSpec(KeptColumns(t.columns, extraFields, singleField).value, t.rows[k].cells, multiindex, c);
    RowOfKeys(KeptColumns(t.columns, extraFields, singleField).value, t.rows[k].cells, multiindex);
  }
}
