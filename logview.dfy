/** The rendered alert log of public/js/script.js as a sequence of rows:
    what `renderRow` appends, how `sortLogEntries` rebuilds the log, and how a
    check-box change re-applies visibility. HTML and styling are not modelled;
    a row keeps its time, category, caption and hidden flag. */
module LogView {
  import opened Optional
  import opened Alerts

  /** A child of the log: the "No alerts yet" placeholder or an alert row
      (`dataset.time`, `dataset.cat`, the category text, the hidden class). */
  datatype Row = EmptyState | AlertRow(time: Option<int>, category: Option<int>, caption: string, hidden: bool)

  /** Rows that `sortLogEntries` keeps: not the placeholder, and with a time. */
  predicate IsTimed(r: Row) {
    r.AlertRow? && r.time.Some?
  }

  predicate AllTimed(rows: seq<Row>) {
    forall i :: 0 <= i < |rows| ==> IsTimed(rows[i])
  }

  /** The timed rows of the log, in log order. */
  function TimedRows(log: seq<Row>): (rows: seq<Row>)
    ensures AllTimed(rows)
  {
    if log == [] then []
    else TimedRows(log[..|log| - 1]) + (if IsTimed(log[|log| - 1]) then [log[|log| - 1]] else [])
  }

  /** The timed rows are the log's timed rows with their multiplicities:
      nothing else is kept and nothing is lost. */
  lemma {:induction false} TimedRowsCount(log: seq<Row>, r: Row)
    ensures multiset(TimedRows(log))[r] == if IsTimed(r) then multiset(log)[r] else 0
  {
    if log != [] {
      var init := log[..|log| - 1];
      TimedRowsCount(init, r);
      assert log == init + [log[|log| - 1]];
    }
  }

  /** The sort key: the comparator `b.time - a.time` when descending,
      `a.time - b.time` when ascending. */
  function Rank(r: Row, desc: bool): int
    requires IsTimed(r)
  {
    if desc then -r.time.value else r.time.value
  }

  predicate Ordered(rows: seq<Row>, desc: bool)
    requires AllTimed(rows)
  {
    forall i, j :: 0 <= i < j < |rows| ==> Rank(rows[i], desc) <= Rank(rows[j], desc)
  }

  /** Inserts `x` after every row that does not rank above it, so rows that
      tie keep their order. */
  function Insert(x: Row, rows: seq<Row>, desc: bool): (r: seq<Row>)
    requires IsTimed(x) && AllTimed(rows)
    ensures multiset(r) == multiset(rows) + multiset{x}
    ensures AllTimed(r)
  {
    if rows == [] then [x]
    else
      var init, last := rows[..|rows| - 1], rows[|rows| - 1];
      assert rows == init + [last];
      if Rank(last, desc) <= Rank(x, desc) then rows + [x]
      else Insert(x, init, desc) + [last]
  }

  /** Appending a row that ranks at least as high as every row keeps order. */
  lemma AppendOrdered(rows: seq<Row>, y: Row, desc: bool)
    requires AllTimed(rows) && IsTimed(y) && Ordered(rows, desc)
    requires forall i :: 0 <= i < |rows| ==> Rank(rows[i], desc) <= Rank(y, desc)
    ensures AllTimed(rows + [y]) && Ordered(rows + [y], desc)
  {
    var t := rows + [y];
    forall i, j | 0 <= i < j < |t|
      ensures Rank(t[i], desc) <= Rank(t[j], desc)
    {
      assert t[i] == rows[i];
      if j < |rows| {
        assert t[j] == rows[j];
      }
    }
  }

  /** Every row of `Insert(x, rows)` is `x` or a row of `rows`. */
  lemma InsertMembers(x: Row, rows: seq<Row>, desc: bool, i: nat)
    requires IsTimed(x) && AllTimed(rows) && i < |Insert(x, rows, desc)|
    ensures Insert(x, rows, desc)[i] == x || exists k :: 0 <= k < |rows| && rows[k] == Insert(x, rows, desc)[i]
  {
    var s := Insert(x, rows, desc);
    assert s[i] in multiset(s);
    if s[i] != x {
      assert s[i] in multiset(rows);
    }
  }

  lemma {:induction false} InsertOrdered(x: Row, rows: seq<Row>, desc: bool)
    requires IsTimed(x) && AllTimed(rows) && Ordered(rows, desc)
    ensures Ordered(Insert(x, rows, desc), desc)
  {
    if rows != [] {
      var init, last := rows[..|rows| - 1], rows[|rows| - 1];
      assert rows == init + [last];
      if Rank(last, desc) <= Rank(x, desc) {
        AppendOrdered(rows, x, desc);
      } else {
        assert Ordered(init, desc);
        InsertOrdered(x, init, desc);
        var s := Insert(x, init, desc);
        forall i | 0 <= i < |s|
          ensures Rank(s[i], desc) <= Rank(last, desc)
        {
          InsertMembers(x, init, desc, i);
          if s[i] != x {
            var k :| 0 <= k < |init| && init[k] == s[i];
            assert rows[k] == init[k];
          }
        }
        AppendOrdered(s, last, desc);
      }
    }
  }

  /** A stable insertion sort of the timed rows by `Rank`. */
  function SortRows(rows: seq<Row>, desc: bool): (r: seq<Row>)
    requires AllTimed(rows)
    ensures multiset(r) == multiset(rows)
    ensures AllTimed(r)
  {
    if rows == [] then []
    else
      var init, last := rows[..|rows| - 1], rows[|rows| - 1];
      assert rows == init + [last];
      Insert(last, SortRows(init, desc), desc)
  }

  lemma {:induction false} SortRowsOrdered(rows: seq<Row>, desc: bool)
    requires AllTimed(rows)
    ensures Ordered(SortRows(rows, desc), desc)
  {
    if rows != [] {
      var init := rows[..|rows| - 1];
      SortRowsOrdered(init, desc);
      InsertOrdered(rows[|rows| - 1], SortRows(init, desc), desc);
    }
  }

  /** `sortLogEntries`: when the log has timed rows it becomes exactly those
      rows, sorted; otherwise it is left alone. */
  function SortLog(log: seq<Row>, desc: bool): (s: seq<Row>)
    ensures AllTimed(s) || s == log
  {
    var rows := TimedRows(log);
    if rows == [] then log else SortRows(rows, desc)
  }

  /** The sorted log is a permutation of the timed rows (the placeholder and
      untimed rows are dropped, row contents and hidden flags are untouched),
      newest first when `desc` and oldest first otherwise; a log without timed
      rows is unchanged. */
  lemma SortLogSpec(log: seq<Row>, desc: bool)
    ensures var s := SortLog(log, desc);
      && (TimedRows(log) == [] ==> s == log)
      && (TimedRows(log) != [] ==>
            && (forall r :: multiset(s)[r] == if IsTimed(r) then multiset(log)[r] else 0)
            && AllTimed(s)
            && forall i, j :: 0 <= i < j < |s| ==>
                 if desc then s[i].time.value >= s[j].time.value else s[i].time.value <= s[j].time.value)
  {
    var rows := TimedRows(log);
    if rows != [] {
      var s := SortRows(rows, desc);
      SortRowsOrdered(rows, desc);
      forall r
        ensures multiset(s)[r] == if IsTimed(r) then multiset(log)[r] else 0
      {
        TimedRowsCount(log, r);
      }
      forall i, j | 0 <= i < j < |s|
        ensures if desc then s[i].time.value >= s[j].time.value else s[i].time.value <= s[j].time.value
      {
        assert Rank(s[i], desc) <= Rank(s[j], desc);
      }
    }
  }

  /** The category text of a row: nationwide records read "Across the
      country", others their description or "Unknown". */
  function Label(a: Alert): (t: string)
    ensures |t| > 0
    ensures a.nw ==> t == "Across the country"
    ensures !a.nw ==> t == "Unknown" || t == a.categoryDesc
  {
    if a.nw then "Across the country" else if a.categoryDesc == "" then "Unknown" else a.categoryDesc
  }

  /** `renderRow`: a record whose date does not parse is not rendered; a
      rendered row is hidden exactly when its category is not enabled. */
  function RenderRow(a: Alert, cats: map<int, CategoryInfo>, parse: string -> Option<int>): (r: Option<Row>)
    ensures r.Some? <==> ParsedTime(a, parse).Some?
    ensures r.Some? ==> IsTimed(r.value) && r.value.time == ParsedTime(a, parse)
    ensures r.Some? ==> r.value.category == a.category && r.value.hidden == !IsEnabled(a.category, cats)
  {
    match ParsedTime(a, parse)
    case None => None
    case Some(t) => Some(AlertRow(Some(t), a.category, Label(a), !IsEnabled(a.category, cats)))
  }

  /** `newAlerts.forEach(renderRow)`: the rows appended, in order. */
  function RenderRows(alerts: seq<Alert>, cats: map<int, CategoryInfo>, parse: string -> Option<int>): (rows: seq<Row>)
    ensures |rows| <= |alerts|
    ensures forall i :: 0 <= i < |rows| ==> IsTimed(rows[i]) && rows[i].hidden == !IsEnabled(rows[i].category, cats)
  {
    if alerts == [] then []
    else
      var init, last := alerts[..|alerts| - 1], alerts[|alerts| - 1];
      RenderRows(init, cats, parse) + (if RenderRow(last, cats, parse).Some? then [RenderRow(last, cats, parse).value] else [])
  }

  /** One iteration of `newAlerts.forEach(renderRow)`. */
  lemma RenderStep(alerts: seq<Alert>, cats: map<int, CategoryInfo>, parse: string -> Option<int>, i: nat)
    requires i < |alerts|
    ensures RenderRows(alerts[..i + 1], cats, parse) == RenderRows(alerts[..i], cats, parse)
      + (if RenderRow(alerts[i], cats, parse).Some? then [RenderRow(alerts[i], cats, parse).value] else [])
  {
    var pre := alerts[..i + 1];
    assert pre[..i] == alerts[..i] && pre[i] == alerts[i];
  }

  /** What a check-box change does to one row: an alert row of a registered
      category is hidden exactly when that category is unticked. */
  function Restyled(r: Row, cats: map<int, CategoryInfo>): (s: Row)
    ensures s.EmptyState? <==> r.EmptyState?
    ensures s.AlertRow? ==> s.time == r.time && s.category == r.category && s.caption == r.caption
    ensures s.AlertRow? && s.category.Some? && s.category.value in cats ==> s.hidden == !cats[s.category.value].checked
    ensures !(r.AlertRow? && r.category.Some? && r.category.value in cats) ==> s == r
  {
    if r.AlertRow? && r.category.Some? && r.category.value in cats
    then r.(hidden := !cats[r.category.value].checked)
    else r
  }
}
