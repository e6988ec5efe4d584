// The bounded read of a task table and the counts over its rows.
module BitableReader {
  import opened Prelude
  import opened Text
  import opened FolderScans

  // Cell values are given as the text they render to.
  datatype RawRecord = RawRecord(recordId: Option<string>, fields: Option<map<string, string>>)
  datatype Row = Row(recordId: string, fields: map<string, string>)

  // The names of the columns that look like status, assignee and due date.
  datatype Hints = Hints(status: Option<string>, assignee: Option<string>, due: Option<string>)

  datatype Stats = Stats(total: nat, open: nat, blocked: nat, overdue: nat, unassigned: nat)

  function ToRow(raw: RawRecord): Option<Row> {
    if raw.recordId.Some? && raw.recordId.value != "" && raw.fields.Some?
    then Some(Row(raw.recordId.value, raw.fields.value)) else None
  }

  function FirstRow(raw: RawRecord): (rows: seq<Row>)
    ensures |rows| <= 1
  {
    if ToRow(raw).Some? then [ToRow(raw).value] else []
  }

  function ValidRows(raws: seq<RawRecord>): (rows: seq<Row>)
    ensures |rows| <= |raws|
  {
    if raws == [] then []
    else FirstRow(raws[0]) + ValidRows(raws[1..])
  }

  lemma {:induction false} ValidRowsConcat(a: seq<RawRecord>, b: seq<RawRecord>)
    ensures ValidRows(a + b) == ValidRows(a) + ValidRows(b)
  {
    if a == [] {
      assert a + b == b;
    } else {
      assert (a + b)[0] == a[0] && (a + b)[1..] == a[1..] + b;
      ValidRowsConcat(a[1..], b);
      Assoc(FirstRow(a[0]), ValidRows(a[1..]), ValidRows(b));
    }
  }

  // One row for each record with an id and fields, in order.
  ghost predicate Reads(rows: seq<Row>, raws: seq<RawRecord>) {
    if raws == [] then rows == []
    else if raws[0].recordId.None? || raws[0].recordId.value == "" || raws[0].fields.None? then Reads(rows, raws[1..])
    else
      && rows != [] && raws[0].recordId == Some(rows[0].recordId) && raws[0].fields == Some(rows[0].fields)
      && Reads(rows[1..], raws[1..])
  }

  lemma {:induction false} ValidRowsAreRead(raws: seq<RawRecord>)
    ensures Reads(ValidRows(raws), raws)
  {
    if raws != [] {
      var first, rest := FirstRow(raws[0]), ValidRows(raws[1..]);
      ValidRowsAreRead(raws[1..]);
      assert if first == [] then first + rest == rest else (first + rest)[0] == first[0] && (first + rest)[1..] == rest;
    }
  }

  // The valid rows still to come after a page.
  function RowsLater(l: Listing<(), RawRecord>, next: Option<PageToken>): seq<Row> {
    if next.None? then [] else ValidRows(l.rest((), next))
  }

  method RowPage(l: Listing<(), RawRecord>, at: Option<PageToken>, room: nat)
    returns (items: seq<Row>, next: Option<PageToken>)
    requires Coherent(l) && room > 0
    ensures ValidRows(l.rest((), at)) == items + RowsLater(l, next)
    ensures next.Some? ==> l.pagesLeft((), next) < l.pagesLeft((), at)
  {
    var size := if room < 500 then room else 500;
    var page := l.page((), at, size);
    items, next := ValidRows(page.items), page.NextToken();
    assert Answers(l, (), at, size);
    if next.Some? {
      ValidRowsConcat(page.items, l.rest((), next));
    }
  }

  // However the table is paged, the rows read are the first `limit` valid records.
  method ReadRows(l: Listing<(), RawRecord>, limit: nat) returns (rows: seq<Row>)
    requires Coherent(l)
    ensures rows == Take(ValidRows(l.rest((), None)), limit)
    ensures exists all :: Reads(all, l.rest((), None)) && rows == Take(all, limit)
  {
    ValidRowsAreRead(l.rest((), None));
    ghost var all := ValidRows(l.rest((), None));
    rows := [];
    var at: Option<PageToken> := None;
    while |rows| < limit
      invariant |rows| <= limit
      invariant |rows| < limit ==> all == rows + ValidRows(l.rest((), at))
      invariant |rows| == limit ==> rows <= all
      decreases if |rows| < limit then 1 else 0, l.pagesLeft((), at)
    {
      var room := limit - |rows|;
      var items, next := RowPage(l, at, room);
      Assoc(rows, items, RowsLater(l, next));
      TakeConcat(rows, items, limit);
      TakeConcat(rows + items, RowsLater(l, next), limit);
      NothingMore(rows + items, RowsLater(l, next));
      rows := rows + Take(items, room);
      at := next;
      if next.None? {
        break;
      }
    }
  }

  // ---- the counts

  function Cell(row: Row, column: Option<string>): string {
    if column.Some? && column.value != "" && column.value in row.fields then row.fields[column.value] else ""
  }

  const DoneWords: seq<string> := ["完成", "done", "closed", "关闭", "已完成", "cancel", "取消"]
  const BlockedWords: seq<string> := ["阻塞", "blocked", "risk", "风险"]

  predicate Done(h: Hints, row: Row) { ContainsOneOf(Lower(Cell(row, h.status)), DoneWords) }

  predicate Blocked(h: Hints, row: Row) { ContainsOneOf(Lower(Cell(row, h.status)), BlockedWords) }

  predicate Unassigned(h: Hints, row: Row) { Cell(row, h.assignee) == "" }

  predicate Overdue(h: Hints, dueDate: string -> Option<int>, now: int, row: Row) {
    var due := if Cell(row, h.due) == "" then None else dueDate(Cell(row, h.due));
    !Done(h, row) && due.Some? && due.value < now
  }

  // What a row shows in the column of that name; without the column, nothing.
  predicate Shows(row: Row, column: Option<string>, text: string) {
    if column.None? || column.value == "" || column.value !in row.fields then text == ""
    else row.fields[column.value] == text
  }

  // The text holds one of the words, in any case of the ASCII letters.
  ghost predicate Mentions(text: string, words: set<string>) {
    exists w, i :: w in words && 0 <= i <= |text| && w <= Lower(text)[i..]
  }

  // The four conditions that are counted, from the texts of the three columns.
  lemma ConditionsByText(h: Hints, dueDate: string -> Option<int>, now: int, row: Row,
                         status: string, assignee: string, due: string)
    requires Shows(row, h.status, status) && Shows(row, h.assignee, assignee) && Shows(row, h.due, due)
    ensures Done(h, row) <==>
      Mentions(status, {"完成", "done", "closed", "关闭", "已完成", "cancel", "取消"})
    ensures Blocked(h, row) <==> Mentions(status, {"阻塞", "blocked", "risk", "风险"})
    ensures Unassigned(h, row) <==> assignee == ""
    ensures Overdue(h, dueDate, now, row) <==>
      !Done(h, row) && due != "" && dueDate(due).Some? && dueDate(due).value < now
  {
    assert Cell(row, h.status) == status;
    SameWords(status, DoneWords, {"完成", "done", "closed", "关闭", "已完成", "cancel", "取消"});
    SameWords(status, BlockedWords, {"阻塞", "blocked", "risk", "风险"});
  }

  lemma SameWords(text: string, words: seq<string>, among: set<string>)
    requires forall w :: w in words <==> w in among
    ensures ContainsOneOf(Lower(text), words) <==> Mentions(text, among)
  {
    if ContainsOneOf(Lower(text), words) {
      var k :| 0 <= k < |words| && Contains(Lower(text), words[k]);
      var i :| 0 <= i <= |text| && words[k] <= Lower(text)[i..];
      assert words[k] in among;
    }
    if Mentions(text, among) {
      var w, i :| w in among && 0 <= i <= |text| && w <= Lower(text)[i..];
      var k :| 0 <= k < |words| && words[k] == w;
      assert Contains(Lower(text), words[k]);
    }
  }

  // How many of the first i rows satisfy p.
  function Count(p: Row -> bool, rows: seq<Row>, i: nat): nat
    requires i <= |rows|
  {
    if i == 0 then 0 else Count(p, rows, i - 1) + if p(rows[i - 1]) then 1 else 0
  }

  lemma {:induction false} CountIsFilter(p: Row -> bool, rows: seq<Row>, i: nat)
    requires i <= |rows|
    ensures Count(p, rows, i) == |Filter(p, rows[..i])|
  {
    if i > 0 {
      CountIsFilter(p, rows, i - 1);
      FilterNext(p, rows, i - 1);
    }
  }

  lemma CountAll(p: Row -> bool, rows: seq<Row>)
    ensures Count(p, rows, |rows|) == |Filter(p, rows)|
  {
    CountIsFilter(p, rows, |rows|);
    assert rows[..|rows|] == rows;
  }

  lemma {:induction false} Complement(p: Row -> bool, q: Row -> bool, rows: seq<Row>, i: nat)
    requires i <= |rows| && forall r | r in rows :: p(r) != q(r)
    ensures Count(p, rows, i) + Count(q, rows, i) == i
  {
    if i > 0 { Complement(p, q, rows, i - 1); }
  }

  lemma {:induction false} Fewer(p: Row -> bool, q: Row -> bool, rows: seq<Row>, i: nat)
    requires i <= |rows| && forall r | r in rows :: p(r) ==> q(r)
    ensures Count(p, rows, i) <= Count(q, rows, i)
  {
    if i > 0 { Fewer(p, q, rows, i - 1); }
  }

  // One pass counts what four filters would select.
  method CalculateTaskStats(rows: seq<Row>, h: Hints, dueDate: string -> Option<int>, now: int) returns (s: Stats)
    ensures s.total == |rows| == s.open + |Filter(row => Done(h, row), rows)|
    ensures s.open == |Filter(row => !Done(h, row), rows)|
    ensures s.blocked == |Filter(row => Blocked(h, row), rows)| <= s.total
    ensures s.overdue == |Filter(row => Overdue(h, dueDate, now, row), rows)| <= s.open
    ensures s.unassigned == |Filter(row => Unassigned(h, row), rows)| <= s.total
  {
    var open, blocked, overdue, unassigned := 0, 0, 0, 0;
    ghost var isDone, isOpen := (row: Row) => Done(h, row), (row: Row) => !Done(h, row);
    ghost var isBlocked, isUnassigned := (row: Row) => Blocked(h, row), (row: Row) => Unassigned(h, row);
    ghost var isOverdue := (row: Row) => Overdue(h, dueDate, now, row);
    for i := 0 to |rows|
      invariant open == Count(isOpen, rows, i)
      invariant blocked == Count(isBlocked, rows, i)
      invariant overdue == Count(isOverdue, rows, i)
      invariant unassigned == Count(isUnassigned, rows, i)
    {
      var row := rows[i];
      if !Done(h, row) {
        open := open + 1;
      }
      if Blocked(h, row) {
        blocked := blocked + 1;
      }
      if Unassigned(h, row) {
        unassigned := unassigned + 1;
      }
      if Overdue(h, dueDate, now, row) {
        overdue := overdue + 1;
      }
    }
    Complement(isDone, isOpen, rows, |rows|);
    Fewer(isOverdue, isOpen, rows, |rows|);
    CountAll(isDone, rows);
    CountAll(isOpen, rows);
    CountAll(isBlocked, rows);
    CountAll(isOverdue, rows);
    CountAll(isUnassigned, rows);
    s := Stats(|rows|, open, blocked, overdue, unassigned);
  }

  // A missing application or table reads as nothing.
  method ReadBitable(l: Listing<(), RawRecord>, appToken: Option<string>, tableId: Option<string>, rowLimit: nat,
                     h: Hints, dueDate: string -> Option<int>, now: int)
    returns (read: Option<(Stats, seq<Row>)>)
    requires Coherent(l)
    ensures read.Some? <==> appToken.Some? && appToken.value != "" && tableId.Some? && tableId.value != ""
    ensures read.Some? ==>
      var rows := Take(ValidRows(l.rest((), None)), rowLimit);
      && read.value.1 == Take(rows, 50)
      && read.value.0.total == |rows|
      && read.value.0.open == |Filter(row => !Done(h, row), rows)|
      && read.value.0.blocked == |Filter(row => Blocked(h, row), rows)|
      && read.value.0.unassigned == |Filter(row => Unassigned(h, row), rows)|
      && read.value.0.overdue == |Filter(row => Overdue(h, dueDate, now, row), rows)|
  {
    if appToken.None? || appToken.value == "" || tableId.None? || tableId.value == "" {
      return None;
    }
    var rows := ReadRows(l, rowLimit);
    var stats := CalculateTaskStats(rows, h, dueDate, now);
    read := Some((stats, Take(rows, 50)));
  }
}
