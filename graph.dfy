/**
 * Graph widgets: the height and colour palette every graph has, and the
 * time graph's grouping presets, date settings and the gap filling that
 * gives every time bucket of the window a row.
 *
 * Time points are integers and the interval between buckets a positive
 * integer; turning a time point into a bucket key (`DateTime::format`),
 * parsing relative date strings and parsing interval strings are
 * parameters of the widget.
 */
module Graph {
  import opened Php
  import Str
  import KeySort

  /** The default palette. */
  const DefaultColors: seq<string> := [
    "#ed5564", "#337ab7", "#da70d6", "#32cd32", "#6495ed",
    "#ff69b4", "#ba55d3", "#cd5c5c", "#ffa500", "#40e0d0",
    "#1e90ff", "#ff6347", "#7b68ee", "#00fa9a", "#ffd700",
    "#6b8e23", "#ff00ff", "#3cb371", "#b8860b", "#30e0e0"]

  class GraphWidget {
    var height: Val
    /** The palette; an unset palette is empty. */
    var colors: seq<string>

    constructor ()
      ensures height == Int(400) && colors == []
    {
      height := Int(400);
      colors := [];
    }

    method SetHeight(h: Val)
      modifies this`height
      ensures height == h
    {
      height := h;
    }

    method SetColors(c: seq<string>)
      modifies this`colors
      ensures colors == c
    {
      colors := c;
    }

    /** `colors()`: an empty palette is replaced by the defaults, so the
      * palette returned is never empty; a palette that was set is kept. */
    method Colors() returns (r: seq<string>)
      modifies this`colors
      ensures r == colors && r != []
      ensures old(colors) != [] ==> colors == old(colors)
      ensures old(colors) == [] ==> colors == DefaultColors
    {
      if colors == [] {
        colors := DefaultColors;
      }
      r := colors;
    }
  }

  // ---------------------------------------------------------------------
  // Time graphs

  /** A date interval: a positive number of time units. */
  type Step = n: int | n > 0 witness 1

  /** What a grouping type sets: the PHP and SQL date formats, the window's
    * start and end as relative date strings, and the interval string. */
  datatype Preset = Preset(dateFormat: string, sqlDateFormat: string, start: string, end: string, interval: string)

  /** The three grouping presets; any other grouping type has none. */
  function PresetFor(groupingType: Val): (r: Option<Preset>)
    ensures r.Some? <==> groupingType in {Str("hour"), Str("day"), Str("month")}
    ensures r.Some? ==> r.value.end == "now"
  {
    if groupingType == Str("hour") then Some(Preset("Y-m-d H:i", "%Y-%m-%d %H:%i", "-24 hours", "now", "+1 hour"))
    else if groupingType == Str("day") then Some(Preset("Y-m-d", "%Y-%m-%d", "-30 days", "now", "+1 day"))
    else if groupingType == Str("month") then Some(Preset("Y-m", "%Y-%m", "-12 months", "now", "+1 month"))
    else None
  }

  /** An argument of `setStartDate` / `setEndDate`. */
  datatype DateArg = DateString(s: string) | DateValue(t: int) | NotADate

  /** An argument of `setDateInterval`. */
  datatype IntervalArg = IntervalString(s: string) | IntervalValue(step: Step) | NotAnInterval

  /** A date argument as a time point: a string must parse. */
  function DateOf(arg: DateArg, parseDate: string -> Option<int>): (r: Result<int>)
    ensures r.Err? <==> arg.NotADate? || (arg.DateString? && parseDate(arg.s).None?)
    ensures r.Err? ==> r.error == InvalidArgument
    ensures arg.DateValue? ==> r == Ok(arg.t)
  {
    match arg
    case DateString(s) => if parseDate(s).Some? then Ok(parseDate(s).value) else Err(InvalidArgument)
    case DateValue(t) => Ok(t)
    case NotADate => Err(InvalidArgument)
  }

  /** The zero row: `'0'` for every series id. */
  function Zeros(ids: seq<Key>): (r: Dict<Key, Val>)
    ensures UniqueKeys(r)
    ensures forall k :: Get(r, k) == if k in ids then Some(Str("0")) else None
  {
    if ids == [] then []
    else
      var init := Zeros(ids[..|ids| - 1]);
      PutKeys(init, ids[|ids| - 1], Str("0"));
      assert forall k :: k in ids <==> k in ids[..|ids| - 1] || k == ids[|ids| - 1];
      Put(init, ids[|ids| - 1], Str("0"))
  }

  /** One more ident adds its zero at the end. */
  lemma ZerosStep(ids: seq<Key>, i: nat)
    requires i < |ids|
    ensures Zeros(ids[..i + 1]) == Put(Zeros(ids[..i]), ids[i], Str("0"))
  {
    assert ids[..i + 1][..i] == ids[..i];
  }

  /** The bucket key of a time point: the time formatted with the
    * configured date format. */
  function Formatted(t: int, format: (int, string) -> string, fmt: string): string
  {
    format(t, fmt)
  }

  /** The bucket keys of the window: `start`, `start + step`, … strictly
    * before `end`, each formatted. */
  function Buckets(start: int, end: int, step: Step, format: (int, string) -> string, fmt: string): seq<string>
    decreases end - start
  {
    if start < end then [Formatted(start, format, fmt)] + Buckets(start + step, end, step, format, fmt) else []
  }

  /** The `n`-th point of the grid from `start`. */
  function GridPoint(start: int, step: Step, n: nat): int
  {
    start + n * step
  }

  lemma GridPointNext(start: int, step: Step, n: nat)
    ensures GridPoint(start + step, step, n) == GridPoint(start, step, n + 1)
    ensures GridPoint(start, step, n) >= start
  {
  }

  /** A bucket key is the formatted time of a grid point strictly before
    * `end`, and every such grid point has one. */
  lemma {:induction false} BucketsGrid(start: int, end: int, step: Step, format: (int, string) -> string, fmt: string, x: string)
    ensures x in Buckets(start, end, step, format, fmt) <==>
      exists n: nat :: GridPoint(start, step, n) < end && x == format(GridPoint(start, step, n), fmt)
    decreases end - start
  {
    if start < end {
      BucketsGrid(start + step, end, step, format, fmt, x);
      if exists n: nat :: GridPoint(start, step, n) < end && x == format(GridPoint(start, step, n), fmt) {
        var n: nat :| GridPoint(start, step, n) < end && x == format(GridPoint(start, step, n), fmt);
        if n > 0 {
          GridPointNext(start, step, n - 1);
        }
      }
      if x in Buckets(start + step, end, step, format, fmt) {
        var n: nat :| GridPoint(start + step, step, n) < end && x == format(GridPoint(start + step, step, n), fmt);
        GridPointNext(start, step, n);
      }
    } else {
      forall n: nat ensures GridPoint(start, step, n) >= end {
        GridPointNext(start, step, n);
      }
    }
  }

  /** `isset($rows[$x])`. */
  predicate HasRow(rows: Dict<string, Val>, x: string)
  {
    Get(rows, x).Some? && Get(rows, x).value != Null
  }

  /** The loop of `fillRows` over the bucket keys: a bucket without a row
    * gets the zero row. */
  function Fill(rows: Dict<string, Val>, zero: Val, buckets: seq<string>): Dict<string, Val>
    decreases |buckets|
  {
    if buckets == [] then rows
    else Fill(Touch(rows, buckets[0], zero), zero, buckets[1..])
  }

  /** The rows with `x` added as `zero` when it is not there yet. */
  function Touch(rows: Dict<string, Val>, x: string, zero: Val): Dict<string, Val>
  {
    if HasRow(rows, x) then rows else Put(rows, x, zero)
  }

  /** One step of the walk over the window. */
  lemma FillStep(rows: Dict<string, Val>, zero: Val, start: int, end: int, step: Step, format: (int, string) -> string, fmt: string)
    requires start < end
    ensures var x := Formatted(start, format, fmt);
      Fill(rows, zero, Buckets(start, end, step, format, fmt)) ==
      Fill(Touch(rows, x, zero), zero, Buckets(start + step, end, step, format, fmt))
  {
    var bs := Buckets(start, end, step, format, fmt);
    assert bs[1..] == Buckets(start + step, end, step, format, fmt);
  }

  /** The walk of `fillRows` from `start` to `end`. */
  method FillWindow(rows: Dict<string, Val>, zero: Val, start: int, end: int, step: Step, format: (int, string) -> string, fmt: string)
    returns (acc: Dict<string, Val>)
    ensures acc == Fill(rows, zero, Buckets(start, end, step, format, fmt))
  {
    acc := rows;
    var starts := start;
    ghost var filled := Fill(rows, zero, Buckets(start, end, step, format, fmt));
    while starts < end
      invariant FillsTo(acc, zero, starts, end, step, format, fmt, filled)
      decreases end - starts
    {
      var x := Formatted(starts, format, fmt);
      FillsToStep(acc, zero, starts, end, step, format, fmt, filled);
      acc := Touch(acc, x, zero);
      starts := starts + step;
    }
  }

  /** Walking the window on from `start` with the rows so far ends with
    * `filled`. */
  ghost predicate FillsTo(rows: Dict<string, Val>, zero: Val, start: int, end: int, step: Step,
                          format: (int, string) -> string, fmt: string, filled: Dict<string, Val>)
  {
    Fill(rows, zero, Buckets(start, end, step, format, fmt)) == filled
  }

  lemma FillsToStep(rows: Dict<string, Val>, zero: Val, start: int, end: int, step: Step,
                    format: (int, string) -> string, fmt: string, filled: Dict<string, Val>)
    requires start < end && FillsTo(rows, zero, start, end, step, format, fmt, filled)
    ensures var x := Formatted(start, format, fmt);
      FillsTo(Touch(rows, x, zero), zero, start + step, end, step, format, fmt, filled)
  {
    FillStep(rows, zero, start, end, step, format, fmt);
  }

  /** Filling adds the zero row exactly for the buckets without a row and
    * changes no other key; keys stay distinct. */
  lemma {:induction false} FillGet(rows: Dict<string, Val>, zero: Val, buckets: seq<string>, k: string)
    requires UniqueKeys(rows)
    ensures UniqueKeys(Fill(rows, zero, buckets))
    ensures Get(Fill(rows, zero, buckets), k) == if k in buckets && !HasRow(rows, k) then Some(zero) else Get(rows, k)
    decreases |buckets|
  {
    if buckets != [] {
      var x := buckets[0];
      var next := if HasRow(rows, x) then rows else Put(rows, x, zero);
      PutKeys(rows, x, zero);
      FillGet(next, zero, buckets[1..], k);
      assert k in buckets <==> k == x || k in buckets[1..];
    }
  }

  /** The rows `fillRows` returns, as a value. */
  function FilledRows(rows: Dict<string, Val>, seriesOptions: Dict<Key, Val>, start: int, end: int, step: Step,
                      format: (int, string) -> string, fmt: string): Dict<string, Val>
  {
    KeySort.SortByKey(Fill(rows, Arr(Zeros(Keys(seriesOptions))), Buckets(start, end, step, format, fmt)))
  }

  /** What `fillRows` promises: the rows ascend by key; every bucket has a
    * row; a row that was there is unchanged (even outside the window); a
    * bucket that had none gets `'0'` for every series; there are no other
    * rows. */
  lemma FilledRowsGet(rows: Dict<string, Val>, seriesOptions: Dict<Key, Val>, start: int, end: int, step: Step,
                      format: (int, string) -> string, fmt: string, k: string)
    requires UniqueKeys(rows)
    ensures var r := FilledRows(rows, seriesOptions, start, end, step, format, fmt);
      var inWindow := k in Buckets(start, end, step, format, fmt);
      KeySort.SortedByKey(r) && UniqueKeys(r) &&
      (HasRow(rows, k) ==> Get(r, k) == Get(rows, k)) &&
      (inWindow && !HasRow(rows, k) ==> Get(r, k) == Some(Arr(Zeros(Keys(seriesOptions))))) &&
      (!inWindow ==> Get(r, k) == Get(rows, k))
  {
    var zero := Arr(Zeros(Keys(seriesOptions)));
    var filled := Fill(rows, zero, Buckets(start, end, step, format, fmt));
    FillGet(rows, zero, Buckets(start, end, step, format, fmt), k);
    KeySort.SortByKeyUnique(filled);
    KeySort.SortByKeyGet(filled, k);
  }

  /** A row carries a series when it is an array holding the series id. */
  predicate Carries(row: Val, id: Key)
  {
    row.Arr? && Get(row.entries, id).Some?
  }

  /** `array_column($rows, $id)`: the series' value of each row carrying
    * it, in row order. */
  function Column(rows: Dict<string, Val>, id: Key): (r: seq<Val>)
    ensures |r| <= |rows|
    ensures (forall i :: 0 <= i < |rows| ==> Carries(rows[i].1, id)) ==> |r| == |rows|
  {
    if rows == [] then []
    else
      (if Carries(rows[0].1, id) then [Get(rows[0].1.entries, id).value] else []) + Column(rows[1..], id)
  }

  /** One series per series option, in order: its name, its type and its
    * data column. */
  function SeriesOf(seriesOptions: Dict<Key, Val>, rows: Dict<string, Val>): (r: seq<Val>)
    ensures |r| == |seriesOptions|
    ensures forall i :: 0 <= i < |r| ==> r[i] == Record([
      ("name", Str(ScalarString(At(seriesOptions[i].1, "name")))),
      ("type", Str(ScalarString(At(seriesOptions[i].1, "type")))),
      ("data", List(Column(rows, seriesOptions[i].0)))])
  {
    if seriesOptions == [] then []
    else
      var (id, opts) := seriesOptions[0];
      [Record([
        ("name", Str(ScalarString(At(opts, "name")))),
        ("type", Str(ScalarString(At(opts, "type")))),
        ("data", List(Column(rows, id)))])] + SeriesOf(seriesOptions[1..], rows)
  }

  /** When every database row carries every series, every series has one
    * value per category. */
  lemma SeriesAligned(rows: Dict<string, Val>, seriesOptions: Dict<Key, Val>, start: int, end: int, step: Step,
                      format: (int, string) -> string, fmt: string, id: Key)
    requires UniqueKeys(rows) && id in Keys(seriesOptions)
    requires forall i :: 0 <= i < |rows| ==> Carries(rows[i].1, id)
    ensures var r := FilledRows(rows, seriesOptions, start, end, step, format, fmt);
      |Column(r, id)| == |Keys(r)|
  {
    var zero := Arr(Zeros(Keys(seriesOptions)));
    var filled := Fill(rows, zero, Buckets(start, end, step, format, fmt));
    var r := KeySort.SortByKey(filled);
    FillCarries(rows, zero, Buckets(start, end, step, format, fmt), id);
    forall i | 0 <= i < |r| ensures Carries(r[i].1, id) {
      assert r[i] in multiset(filled);
    }
  }

  /** Filling with a zero row that carries a series keeps every row
    * carrying it. */
  lemma {:induction false} FillCarries(rows: Dict<string, Val>, zero: Val, buckets: seq<string>, id: Key)
    requires Carries(zero, id)
    requires forall i :: 0 <= i < |rows| ==> Carries(rows[i].1, id)
    ensures forall e :: e in Fill(rows, zero, buckets) ==> Carries(e.1, id)
    decreases |buckets|
  {
    if buckets != [] {
      var x := buckets[0];
      var next := if HasRow(rows, x) then rows else Put(rows, x, zero);
      PutCarries(rows, x, zero, id);
      FillCarries(next, zero, buckets[1..], id);
    }
    forall e | e in Fill(rows, zero, buckets) ensures Carries(e.1, id) {
      if buckets == [] {
        var i :| 0 <= i < |rows| && rows[i] == e;
      }
    }
  }

  lemma {:induction false} PutCarries(rows: Dict<string, Val>, x: string, zero: Val, id: Key)
    requires Carries(zero, id)
    requires forall i :: 0 <= i < |rows| ==> Carries(rows[i].1, id)
    ensures forall i :: 0 <= i < |Put(rows, x, zero)| ==> Carries(Put(rows, x, zero)[i].1, id)
  {
    if rows != [] && rows[0].0 != x {
      PutCarries(rows[1..], x, zero, id);
      var r := Put(rows, x, zero);
      forall i | 0 <= i < |r| ensures Carries(r[i].1, id) {
        if i > 0 {
          assert r[i] == Put(rows[1..], x, zero)[i - 1];
        }
      }
    }
  }

  class TimeGraphWidget {
    var groupingType: Option<string>
    var dateFormat: Option<string>
    var sqlDateFormat: Option<string>
    var startDate: Option<int>
    var endDate: Option<int>
    var dateInterval: Option<Step>
    /** `new DateTime($s)` at the current time; `None` when it throws. */
    const parseDate: string -> Option<int>
    /** `DateInterval::createFromDateString($s)`. */
    const parseInterval: string -> Step
    /** `$date->format($format)`. */
    const format: (int, string) -> string

    constructor (parseDate: string -> Option<int>, parseInterval: string -> Step, format: (int, string) -> string)
      ensures groupingType == None && dateFormat == None && sqlDateFormat == None
      ensures startDate == None && endDate == None && dateInterval == None
      ensures this.parseDate == parseDate && this.parseInterval == parseInterval && this.format == format
    {
      groupingType := None;
      dateFormat := None;
      sqlDateFormat := None;
      startDate := None;
      endDate := None;
      dateInterval := None;
      this.parseDate := parseDate;
      this.parseInterval := parseInterval;
      this.format := format;
    }

    /** `setDateFormat()`: only strings. */
    method SetDateFormat(v: Val) returns (err: Option<Exception>)
      modifies this`dateFormat
      ensures v.Str? ==> err == None && dateFormat == Some(v.s)
      ensures !v.Str? ==> err == Some(InvalidArgument) && dateFormat == old(dateFormat)
    {
      if !v.Str? {
        return Some(InvalidArgument);
      }
      dateFormat := Some(v.s);
      err := None;
    }

    /** `setSqlDateFormat()`: only strings. */
    method SetSqlDateFormat(v: Val) returns (err: Option<Exception>)
      modifies this`sqlDateFormat
      ensures v.Str? ==> err == None && sqlDateFormat == Some(v.s)
      ensures !v.Str? ==> err == Some(InvalidArgument) && sqlDateFormat == old(sqlDateFormat)
    {
      if !v.Str? {
        return Some(InvalidArgument);
      }
      sqlDateFormat := Some(v.s);
      err := None;
    }

    method SetStartDate(arg: DateArg) returns (err: Option<Exception>)
      modifies this`startDate
      ensures DateOf(arg, parseDate).Ok? ==> err == None && startDate == Some(DateOf(arg, parseDate).value)
      ensures DateOf(arg, parseDate).Err? ==> err == Some(InvalidArgument) && startDate == old(startDate)
    {
      var t := DateOf(arg, parseDate);
      if t.Err? {
        return Some(t.error);
      }
      startDate := Some(t.value);
      err := None;
    }

    method SetEndDate(arg: DateArg) returns (err: Option<Exception>)
      modifies this`endDate
      ensures DateOf(arg, parseDate).Ok? ==> err == None && endDate == Some(DateOf(arg, parseDate).value)
      ensures DateOf(arg, parseDate).Err? ==> err == Some(InvalidArgument) && endDate == old(endDate)
    {
      var t := DateOf(arg, parseDate);
      if t.Err? {
        return Some(t.error);
      }
      endDate := Some(t.value);
      err := None;
    }

    /** `setDateInterval()`: a string is parsed, an interval kept, anything
      * else rejected. */
    method SetDateInterval(arg: IntervalArg) returns (err: Option<Exception>)
      modifies this`dateInterval
      ensures arg.IntervalString? ==> err == None && dateInterval == Some(parseInterval(arg.s))
      ensures arg.IntervalValue? ==> err == None && dateInterval == Some(arg.step)
      ensures arg.NotAnInterval? ==> err == Some(InvalidArgument) && dateInterval == old(dateInterval)
    {
      match arg
      case IntervalString(s) =>
        dateInterval := Some(parseInterval(s));
        err := None;
      case IntervalValue(step) =>
        dateInterval := Some(step);
        err := None;
      case NotAnInterval =>
        err := Some(InvalidArgument);
    }

    /** `setGroupingType()`: an unknown type is rejected before anything
      * changes; a known one records the type and applies its preset. */
    method SetGroupingType(v: Val) returns (err: Option<Exception>)
      modifies this`groupingType, this`dateFormat, this`sqlDateFormat, this`startDate, this`endDate, this`dateInterval
      ensures PresetFor(v).None? ==> (err == Some(InvalidArgument) &&
        groupingType == old(groupingType) && dateFormat == old(dateFormat) && sqlDateFormat == old(sqlDateFormat) &&
        startDate == old(startDate) && endDate == old(endDate) && dateInterval == old(dateInterval))
      ensures PresetFor(v).Some? ==> var p := PresetFor(v).value;
        groupingType == Some(v.s) && dateFormat == Some(p.dateFormat) && sqlDateFormat == Some(p.sqlDateFormat)
      ensures PresetFor(v).Some? && parseDate(PresetFor(v).value.start).Some? && parseDate("now").Some? ==>
        var p := PresetFor(v).value;
        err == None && startDate == parseDate(p.start) && endDate == parseDate("now") &&
        dateInterval == Some(parseInterval(p.interval))
    {
      var preset := PresetFor(v);
      if preset.None? {
        return Some(InvalidArgument);
      }
      var p := preset.value;
      groupingType := Some(v.s);
      err := SetDateFormat(Str(p.dateFormat));
      err := SetSqlDateFormat(Str(p.sqlDateFormat));
      err := SetStartDate(DateString(p.start));
      if err.Some? {
        return;
      }
      err := SetEndDate(DateString(p.end));
      if err.Some? {
        return;
      }
      err := SetDateInterval(IntervalString(p.interval));
    }

    /** The zero row of `fillRows`, built over the series options. */
    method ZeroRow(seriesOptions: Dict<Key, Val>) returns (row: Dict<Key, Val>)
      ensures row == Zeros(Keys(seriesOptions))
    {
      row := [];
      var i := 0;
      while i < |seriesOptions|
        invariant 0 <= i <= |seriesOptions|
        invariant row == Zeros(Keys(seriesOptions)[..i])
      {
        KeysAt(seriesOptions, i);
        ZerosStep(Keys(seriesOptions), i);
        row := Put(row, seriesOptions[i].0, Str("0"));
        i := i + 1;
      }
      assert Keys(seriesOptions)[..i] == Keys(seriesOptions);
    }

    /** `fillRows()`: walks the window bucket by bucket, giving each bucket
      * without a row the zero row, then sorts by key. */
    method FillRows(rows: Dict<string, Val>, seriesOptions: Dict<Key, Val>) returns (r: Dict<string, Val>)
      requires startDate.Some? && endDate.Some? && dateInterval.Some? && dateFormat.Some?
      ensures r == FilledRows(rows, seriesOptions, startDate.value, endDate.value, dateInterval.value, format, dateFormat.value)
    {
      var row := ZeroRow(seriesOptions);
      var starts := startDate.value;
      var ends := endDate.value;
      var step := dateInterval.value;
      var fmt := dateFormat.value;
      var acc := FillWindow(rows, Arr(row), starts, ends, step, format, fmt);
      r := KeySort.SortByKey(acc);
    }

    /** `categories()`: the keys of the filled rows, ascending. */
    method Categories(dbRows: Dict<string, Val>, seriesOptions: Dict<Key, Val>) returns (r: seq<string>)
      requires startDate.Some? && endDate.Some? && dateInterval.Some? && dateFormat.Some?
      ensures r == Keys(FilledRows(dbRows, seriesOptions, startDate.value, endDate.value, dateInterval.value, format, dateFormat.value))
    {
      var rows := FillRows(dbRows, seriesOptions);
      r := Keys(rows);
    }

    /** `series()`: one series per series option over the filled rows. */
    method Series(dbRows: Dict<string, Val>, seriesOptions: Dict<Key, Val>) returns (r: seq<Val>)
      requires startDate.Some? && endDate.Some? && dateInterval.Some? && dateFormat.Some?
      ensures r == SeriesOf(seriesOptions, FilledRows(dbRows, seriesOptions, startDate.value, endDate.value, dateInterval.value, format, dateFormat.value))
    {
      var rows := FillRows(dbRows, seriesOptions);
      r := SeriesOf(seriesOptions, rows);
    }
  }

  /** Categories ascend by key. */
  lemma CategoriesSorted(rows: Dict<string, Val>, seriesOptions: Dict<Key, Val>, start: int, end: int, step: Step,
                         format: (int, string) -> string, fmt: string)
    ensures var ks := Keys(FilledRows(rows, seriesOptions, start, end, step, format, fmt));
      forall i, j :: 0 <= i < j < |ks| ==> Str.LessEq(ks[i], ks[j])
  {
    var r := FilledRows(rows, seriesOptions, start, end, step, format, fmt);
    forall i, j | 0 <= i < j < |Keys(r)| ensures Str.LessEq(Keys(r)[i], Keys(r)[j]) {
      KeysAt(r, i);
      KeysAt(r, j);
    }
  }
}
