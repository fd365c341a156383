/**
 * The `jobs` and `notifications` tables as the services use them. The
 * jobs table is a sequence of rows in insertion (rowid) order; a query
 * selects with a predicate, orders with a stable sort on a key, and pages
 * with LIMIT/OFFSET. Timestamps written by the database
 * (`CURRENT_TIMESTAMP`) are passed in as strings.
 */
module Store {
  import opened Common
  import Fastwork

  /** The four board columns a row's `kanban_status` may hold. */
  const Columns: seq<string> := ["jobs", "interested", "proposed", "archived"]

  predicate IsColumn(s: string) { s in Columns }

  /** One row of the `jobs` table. `None` is SQL NULL. */
  datatype JobRow = JobRow(
    id: string,
    title: string,
    description: string,
    budget: int,
    currency: string,
    tagId: string,
    createdAt: int,
    insertedAt: string,
    url: string,
    raw: Fastwork.Listing,
    status: string,
    kanbanStatus: string,
    category: string,
    notes: string,
    priority: int,
    githubSynced: int,
    githubItemId: Option<string>,
    githubSyncedAt: Option<string>,
    analysis: Option<string>)

  /** One row of the `notifications` table. */
  datatype NotificationRow = NotificationRow(
    jobId: string,
    platform: string,
    status: string,
    sentAt: Option<string>,
    errorMessage: Option<string>)

  /** The single-row updates `UPDATE jobs SET ... WHERE id = ?` performs in the services and routes. */
  datatype RowUpdate =
    | SetKanbanStatus(kanbanStatus: string)
    | SetPriority(priority: int)
    | SetNotes(notes: string)
    | SetStatus(status: string)
    | SetAnalysis(analysis: string)
    | MarkSynced(itemId: Option<string>, at: string)

  /** The row after one update; `SetAnalysis` also moves the status to `analyzed`. */
  function ApplyUpdate(r: JobRow, u: RowUpdate): JobRow
  {
    match u
    case SetKanbanStatus(k) => r.(kanbanStatus := k)
    case SetPriority(p) => r.(priority := p)
    case SetNotes(n) => r.(notes := n)
    case SetStatus(s) => r.(status := s)
    case SetAnalysis(a) => r.(analysis := Some(a), status := "analyzed")
    case MarkSynced(item, at) => r.(githubSynced := 1, githubItemId := item, githubSyncedAt := Some(at))
  }

  /** An update keeps the row's column valid when it does not set an invalid one. */
  predicate KeepsColumn(u: RowUpdate)
  {
    u.SetKanbanStatus? ==> IsColumn(u.kanbanStatus)
  }

  predicate HasId(rows: seq<JobRow>, id: string)
  {
    exists i :: 0 <= i < |rows| && rows[i].id == id
  }

  /** Row ids are unique (the primary key) and every row sits in a board column. */
  predicate WellFormed(rows: seq<JobRow>)
  {
    UniqueIds(rows) && (forall i :: 0 <= i < |rows| ==> IsColumn(rows[i].kanbanStatus))
  }

  /** No two rows share an id. */
  predicate UniqueIds(rows: seq<JobRow>)
  {
    forall i, j :: 0 <= i < j < |rows| ==> rows[i].id != rows[j].id
  }

  /** `SELECT ... WHERE id = ?`: the first row with the id. */
  function FindRow(rows: seq<JobRow>, id: string): (r: Option<JobRow>)
    ensures r.Some? <==> HasId(rows, id)
    ensures r.Some? ==> r.value in rows && r.value.id == id
  {
    if rows == [] then None
    else if rows[0].id == id then Some(rows[0])
    else
      var rest := FindRow(rows[1..], id);
      assert forall i :: 1 <= i < |rows| ==> rows[i] == rows[1..][i - 1];
      assert HasId(rows, id) ==> HasId(rows[1..], id) by {
        if HasId(rows, id) {
          var i :| 0 <= i < |rows| && rows[i].id == id;
          assert rows[1..][i - 1].id == id;
        }
      }
      rest
  }

  /** The row found is the first row holding the id. */
  lemma {:induction false} FindRowFirst(rows: seq<JobRow>, id: string, i: nat)
    requires i < |rows| && rows[i].id == id
    requires forall k :: 0 <= k < i ==> rows[k].id != id
    ensures FindRow(rows, id) == Some(rows[i])
  {
    if i > 0 {
      assert rows[0].id != id;
      FindRowFirst(rows[1..], id, i - 1);
    }
  }

  /** The rows without the given id, in order (the delete half of INSERT OR REPLACE). */
  function RemoveId(rows: seq<JobRow>, id: string): (r: seq<JobRow>)
    ensures !HasId(r, id)
    ensures forall x :: x in r <==> x in rows && x.id != id
    ensures |r| <= |rows|
  {
    if rows == [] then []
    else (if rows[0].id == id then [] else [rows[0]]) + RemoveId(rows[1..], id)
  }

  /** `INSERT OR REPLACE`: any row with the same key is deleted and the new row appended. */
  function Upsert(rows: seq<JobRow>, row: JobRow): (r: seq<JobRow>)
    ensures |r| >= 1 && r[|r| - 1] == row
    ensures forall x :: x in r <==> x == row || (x in rows && x.id != row.id)
  {
    RemoveId(rows, row.id) + [row]
  }

  /** After an upsert the new row is the only row with its id, and every other row is kept. */
  lemma UpsertReplaces(rows: seq<JobRow>, row: JobRow)
    ensures FindRow(Upsert(rows, row), row.id) == Some(row)
    ensures forall i :: 0 <= i < |Upsert(rows, row)| && Upsert(rows, row)[i].id == row.id ==> i == |Upsert(rows, row)| - 1
    ensures forall x: JobRow :: x.id != row.id ==> (x in Upsert(rows, row) <==> x in rows)
  {
    var rest := RemoveId(rows, row.id);
    var r := rest + [row];
    assert forall i :: 0 <= i < |rest| ==> r[i] == rest[i] && rest[i].id != row.id;
    FindLast(rest, row);
  }

  lemma {:induction false} FindLast(rest: seq<JobRow>, row: JobRow)
    requires !HasId(rest, row.id)
    ensures FindRow(rest + [row], row.id) == Some(row)
  {
    if rest != [] {
      assert (rest + [row])[1..] == rest[1..] + [row];
      assert forall i :: 0 <= i < |rest| ==> rest[i].id != row.id;
      assert forall i :: 0 <= i < |rest[1..]| ==> rest[1..][i] == rest[i + 1];
      FindLast(rest[1..], row);
    }
  }

  /** An upsert keeps the table well formed when the new row sits in a board column. */
  lemma UpsertWellFormed(rows: seq<JobRow>, row: JobRow)
    requires WellFormed(rows) && IsColumn(row.kanbanStatus)
    ensures WellFormed(Upsert(rows, row))
  {
    var rest := RemoveId(rows, row.id);
    RemoveIdWellFormed(rows, row.id);
    var r := rest + [row];
    assert forall i :: 0 <= i < |rest| ==> r[i] == rest[i] && rest[i].id != row.id;
  }

  lemma {:induction false} RemoveIdWellFormed(rows: seq<JobRow>, id: string)
    requires WellFormed(rows)
    ensures WellFormed(RemoveId(rows, id))
  {
    if rows != [] {
      assert WellFormed(rows[1..]) by {
        forall i, j | 0 <= i < j < |rows[1..]|
          ensures rows[1..][i].id != rows[1..][j].id
        {
          assert rows[1..][i] == rows[i + 1] && rows[1..][j] == rows[j + 1];
        }
      }
      RemoveIdWellFormed(rows[1..], id);
      var tail := RemoveId(rows[1..], id);
      var r := RemoveId(rows, id);
      if rows[0].id != id {
        assert r == [rows[0]] + tail;
        forall j | 0 < j < |r|
          ensures r[0].id != r[j].id
        {
          assert r[j] in tail;
          var k :| 0 <= k < |rows[1..]| && rows[1..][k] == r[j];
          assert rows[k + 1] == r[j];
        }
      }
    }
  }

  /** `UPDATE jobs SET ... WHERE id = ?` over the whole table. */
  function UpdateWhere(rows: seq<JobRow>, id: string, u: RowUpdate): (r: seq<JobRow>)
    ensures |r| == |rows|
    ensures forall i :: 0 <= i < |rows| ==> r[i] == if rows[i].id == id then ApplyUpdate(rows[i], u) else rows[i]
  {
    if rows == [] then []
    else [if rows[0].id == id then ApplyUpdate(rows[0], u) else rows[0]] + UpdateWhere(rows[1..], id, u)
  }

  /** The number of rows with the id: `this.changes` of an update by id. */
  function CountId(rows: seq<JobRow>, id: string): (n: nat)
    ensures n == 0 <==> !HasId(rows, id)
    ensures n <= |rows|
  {
    if rows == [] then 0
    else
      var rest := CountId(rows[1..], id);
      assert HasId(rows, id) <==> rows[0].id == id || HasId(rows[1..], id) by {
        if HasId(rows, id) {
          var i :| 0 <= i < |rows| && rows[i].id == id;
          if i > 0 { assert rows[1..][i - 1].id == id; }
        }
        if HasId(rows[1..], id) {
          var i :| 0 <= i < |rows[1..]| && rows[1..][i].id == id;
          assert rows[i + 1].id == id;
        }
      }
      (if rows[0].id == id then 1 else 0) + rest
  }

  /** In a well-formed table an id names at most one row. */
  lemma CountIdAtMostOne(rows: seq<JobRow>, id: string)
    requires WellFormed(rows)
    ensures CountId(rows, id) <= 1
    decreases |rows|
  {
    if rows != [] {
      assert WellFormed(rows[1..]) by {
        forall i, j | 0 <= i < j < |rows[1..]|
          ensures rows[1..][i].id != rows[1..][j].id
        {
          assert rows[1..][i] == rows[i + 1] && rows[1..][j] == rows[j + 1];
        }
      }
      CountIdAtMostOne(rows[1..], id);
      assert forall k :: 0 <= k < |rows[1..]| ==> rows[1..][k] == rows[k + 1] && rows[k + 1].id != rows[0].id;
    }
  }

  /** An update of a missing id leaves the table as it was. */
  lemma UpdateMissingIsNoOp(rows: seq<JobRow>, id: string, u: RowUpdate)
    requires !HasId(rows, id)
    ensures UpdateWhere(rows, id, u) == rows
  {
    forall i | 0 <= i < |rows|
      ensures UpdateWhere(rows, id, u)[i] == rows[i]
    {
      assert rows[i].id != id;
    }
  }

  /** An update keeps the ids in place, so the table stays well formed when the update keeps the column valid. */
  lemma UpdateWellFormed(rows: seq<JobRow>, id: string, u: RowUpdate)
    requires WellFormed(rows) && KeepsColumn(u)
    ensures WellFormed(UpdateWhere(rows, id, u))
  {
    var r := UpdateWhere(rows, id, u);
    assert forall i :: 0 <= i < |rows| ==> r[i].id == rows[i].id;
  }

  /** A sort key, compared lexicographically. */
  datatype Key = Key(a: int, b: int, c: int)

  predicate KeyLe(x: Key, y: Key)
  {
    x.a < y.a || (x.a == y.a && (x.b < y.b || (x.b == y.b && x.c <= y.c)))
  }

  /** The ORDER BY clauses the services use. */
  datatype Order = ByCreatedDesc | ByBoardOrder

  /**
   * The rank `CASE kanban_status WHEN 'jobs' THEN 1 ... END`; any other
   * status gives NULL, which sorts first.
   */
  function ColumnRank(status: string): (r: int)
    ensures 0 <= r <= 4
    ensures r == 0 <==> !IsColumn(status)
    ensures IsColumn(status) ==> Columns[r - 1] == status
  {
    if status == "jobs" then 1
    else if status == "interested" then 2
    else if status == "proposed" then 3
    else if status == "archived" then 4
    else 0
  }

  function KeyOf(o: Order, r: JobRow): Key
  {
    match o
    case ByCreatedDesc => Key(0, 0, -r.createdAt)
    case ByBoardOrder => Key(ColumnRank(r.kanbanStatus), -r.priority, -r.createdAt)
  }

  /**
   * What the keys order: newest first for `ORDER BY created_at DESC`; for the
   * board, column rank ascending, then priority descending, then newest first.
   */
  lemma KeyOfOrder(x: JobRow, y: JobRow)
    ensures KeyLe(KeyOf(ByCreatedDesc, x), KeyOf(ByCreatedDesc, y)) <==> x.createdAt >= y.createdAt
    ensures KeyLe(KeyOf(ByBoardOrder, x), KeyOf(ByBoardOrder, y)) <==>
      || ColumnRank(x.kanbanStatus) < ColumnRank(y.kanbanStatus)
      || (ColumnRank(x.kanbanStatus) == ColumnRank(y.kanbanStatus)
          && (x.priority > y.priority || (x.priority == y.priority && x.createdAt >= y.createdAt)))
  {
  }

  predicate SortedBy(o: Order, rows: seq<JobRow>)
  {
    forall i, j :: 0 <= i < j < |rows| ==> KeyLe(KeyOf(o, rows[i]), KeyOf(o, rows[j]))
  }

  /** Insert `x` after every row whose key is not greater than its own. */
  function Insert(o: Order, x: JobRow, rows: seq<JobRow>): (r: seq<JobRow>)
    ensures multiset(r) == multiset(rows) + multiset{x}
  {
    if rows == [] then [x]
    else if KeyLe(KeyOf(o, rows[|rows| - 1]), KeyOf(o, x)) then
      rows + [x]
    else
      var init := rows[..|rows| - 1];
      assert rows == init + [rows[|rows| - 1]];
      Insert(o, x, init) + [rows[|rows| - 1]]
  }

  /** Inserting into a sorted sequence keeps it sorted. */
  lemma {:induction false} InsertSorted(o: Order, x: JobRow, rows: seq<JobRow>)
    requires SortedBy(o, rows)
    ensures SortedBy(o, Insert(o, x, rows))
  {
    if rows != [] && !KeyLe(KeyOf(o, rows[|rows| - 1]), KeyOf(o, x)) {
      var init := rows[..|rows| - 1];
      var last := rows[|rows| - 1];
      assert SortedBy(o, init);
      InsertSorted(o, x, init);
      var mid := Insert(o, x, init);
      assert Insert(o, x, rows) == mid + [last];
      assert forall k :: 0 <= k < |init| ==> KeyLe(KeyOf(o, init[k]), KeyOf(o, last)) by {
        forall k | 0 <= k < |init| ensures KeyLe(KeyOf(o, init[k]), KeyOf(o, last)) {
          assert init[k] == rows[k];
        }
      }
      InsertBelow(o, x, init, KeyOf(o, last));
      AppendSorted(o, mid, last);
    }
  }

  /** When `x` and every row have keys at most `y`, so does every row after inserting `x`. */
  lemma {:induction false} InsertBelow(o: Order, x: JobRow, rows: seq<JobRow>, y: Key)
    requires KeyLe(KeyOf(o, x), y)
    requires forall k :: 0 <= k < |rows| ==> KeyLe(KeyOf(o, rows[k]), y)
    ensures forall i :: 0 <= i < |Insert(o, x, rows)| ==> KeyLe(KeyOf(o, Insert(o, x, rows)[i]), y)
  {
    if rows != [] && !KeyLe(KeyOf(o, rows[|rows| - 1]), KeyOf(o, x)) {
      var init := rows[..|rows| - 1];
      InsertBelow(o, x, init, y);
      assert Insert(o, x, rows) == Insert(o, x, init) + [rows[|rows| - 1]];
    }
  }

  /** A row whose key is at least every key of a sorted sequence can follow it. */
  lemma AppendSorted(o: Order, rows: seq<JobRow>, x: JobRow)
    requires SortedBy(o, rows)
    requires forall i :: 0 <= i < |rows| ==> KeyLe(KeyOf(o, rows[i]), KeyOf(o, x))
    ensures SortedBy(o, rows + [x])
  {
    var r := rows + [x];
    forall i, j | 0 <= i < j < |r| ensures KeyLe(KeyOf(o, r[i]), KeyOf(o, r[j])) {
      assert r[i] == rows[i];
    }
  }

  /** `ORDER BY`: a stable sort of the rows by the order's key. */
  function OrderBy(o: Order, rows: seq<JobRow>): (r: seq<JobRow>)
    ensures multiset(r) == multiset(rows)
    ensures |r| == |rows|
    ensures SortedBy(o, r)
  {
    if rows == [] then []
    else
      var init := rows[..|rows| - 1];
      assert rows == init + [rows[|rows| - 1]];
      var r := Insert(o, rows[|rows| - 1], OrderBy(o, init));
      InsertSorted(o, rows[|rows| - 1], OrderBy(o, init));
      assert |r| == |multiset(r)|;
      r
  }

  /** How many of `n` rows `LIMIT limit OFFSET offset` returns; a negative limit means no limit. */
  function WindowLength(n: nat, limit: int, offset: int): nat
  {
    var start := Min(Max(offset, 0), n);
    if limit >= 0 then Min(limit, n - start) else n - start
  }

  /** `LIMIT ? OFFSET ?`: a negative offset counts as 0 and a negative limit means no limit. */
  function LimitOffset(rows: seq<JobRow>, limit: int, offset: int): (r: seq<JobRow>)
    ensures |r| <= |rows|
    ensures limit >= 0 ==> |r| <= limit
    ensures |r| == WindowLength(|rows|, limit, offset)
    ensures forall i :: 0 <= i < |r| ==> i + Max(offset, 0) < |rows| && r[i] == rows[i + Max(offset, 0)]
  {
    var start := Min(Max(offset, 0), |rows|);
    var rest := rows[start..];
    if limit >= 0 && limit < |rest| then rest[..limit] else rest
  }

  /** A window of sorted rows is sorted and holds only rows of the table. */
  lemma LimitOffsetWindow(o: Order, rows: seq<JobRow>, limit: int, offset: int)
    requires SortedBy(o, rows)
    ensures SortedBy(o, LimitOffset(rows, limit, offset))
    ensures forall x :: x in LimitOffset(rows, limit, offset) ==> x in rows
  {
    var r, off := LimitOffset(rows, limit, offset), Max(offset, 0);
    ShiftedSorted(o, rows, r, off);
    forall x | x in r ensures x in rows {
      var i :| 0 <= i < |r| && r[i] == x;
      assert rows[i + off] == x;
    }
  }

  /** Rows read off sorted rows at a fixed shift are sorted. */
  lemma ShiftedSorted(o: Order, rows: seq<JobRow>, r: seq<JobRow>, off: nat)
    requires SortedBy(o, rows)
    requires forall i :: 0 <= i < |r| ==> i + off < |rows| && r[i] == rows[i + off]
    ensures SortedBy(o, r)
  {
    forall i, j | 0 <= i < j < |r| ensures KeyLe(KeyOf(o, r[i]), KeyOf(o, r[j])) {
      var x, y := r[i], r[j];
      assert x == rows[i + off] && y == rows[j + off];
    }
  }

  /** A query: the rows satisfying `p`, ordered. */
  function SelectOrdered(rows: seq<JobRow>, p: JobRow -> bool, o: Order): (r: seq<JobRow>)
    ensures SortedBy(o, r)
    ensures forall x :: x in r <==> x in rows && p(x)
    ensures multiset(r) == multiset(Filter(rows, p))
  {
    var sel := Filter(rows, p);
    assert forall x :: x in rows && p(x) ==> x in sel by {
      forall x | x in rows && p(x) ensures x in sel {
        var i :| 0 <= i < |rows| && rows[i] == x;
      }
    }
    var r := OrderBy(o, sel);
    assert forall x :: x in r <==> x in sel by {
      forall x ensures x in r <==> x in sel {
        assert x in r <==> x in multiset(r);
        assert x in sel <==> x in multiset(sel);
      }
    }
    r
  }

  /** With unique ids, the row found for an id is the one row holding it. */
  lemma FindRowUnique(rows: seq<JobRow>, x: JobRow)
    requires UniqueIds(rows) && x in rows
    ensures FindRow(rows, x.id) == Some(x)
  {
    var b :| 0 <= b < |rows| && rows[b] == x;
    assert HasId(rows, x.id);
    var r := FindRow(rows, x.id).value;
    var a :| 0 <= a < |rows| && rows[a] == r;
    assert a == b;
  }

  /** An update of one id leaves what is found under any other id as it was. */
  lemma {:induction false} FindRowUpdateOther(rows: seq<JobRow>, id: string, other: string, u: RowUpdate)
    requires id != other
    ensures FindRow(UpdateWhere(rows, other, u), id) == FindRow(rows, id)
  {
    if rows != [] {
      var up := UpdateWhere(rows, other, u);
      assert up[1..] == UpdateWhere(rows[1..], other, u);
      FindRowUpdateOther(rows[1..], id, other, u);
    }
  }

  /** A row of a table with unique ids occurs in it at most once. */
  lemma {:induction false} UniqueOnce(rows: seq<JobRow>, x: JobRow)
    requires UniqueIds(rows)
    ensures multiset(rows)[x] <= 1
  {
    if rows != [] {
      assert rows == [rows[0]] + rows[1..];
      assert UniqueIds(rows[1..]) by {
        forall i, j | 0 <= i < j < |rows[1..]| ensures rows[1..][i].id != rows[1..][j].id {
          assert rows[1..][i] == rows[i + 1] && rows[1..][j] == rows[j + 1];
        }
      }
      UniqueOnce(rows[1..], x);
      forall k | 0 <= k < |rows[1..]| ensures rows[1..][k] != rows[0] {
        assert rows[1..][k] == rows[k + 1];
      }
      assert rows[0] !in rows[1..];
    }
  }

  /** An element occurring at most once is found at no other position. */
  lemma AtMostOnce<T>(s: seq<T>, i: int, j: int)
    requires 0 <= i < j < |s| && multiset(s)[s[i]] <= 1
    ensures s[i] != s[j]
  {
    assert s == s[..j] + s[j..];
    assert s[..j][i] == s[i];
    assert multiset(s[..j])[s[i]] >= 1;
    assert multiset(s[j..])[s[i]] == 0;
    assert s[j..][0] == s[j];
  }

  /** A query over a table with unique ids returns rows with unique ids. */
  lemma SelectedUniqueIds(rows: seq<JobRow>, p: JobRow -> bool, o: Order)
    requires UniqueIds(rows)
    ensures UniqueIds(SelectOrdered(rows, p, o))
  {
    var sel := Filter(rows, p);
    var r := SelectOrdered(rows, p, o);
    assert r == OrderBy(o, sel);
    forall i, j | 0 <= i < j < |r| ensures r[i].id != r[j].id {
      FilterMultiset(rows, p, r[i]);
      UniqueOnce(rows, r[i]);
      AtMostOnce(r, i, j);
      assert r[i] in rows && r[j] in rows;
      var a :| 0 <= a < |rows| && rows[a] == r[i];
      var b :| 0 <= b < |rows| && rows[b] == r[j];
      assert a != b;
    }
  }

  /** The SQLite file the services open: the two tables. */
  class Database {
    var jobs: seq<JobRow>
    var notifications: seq<NotificationRow>

    predicate Valid()
      reads this
    {
      WellFormed(jobs)
    }

    constructor ()
      ensures jobs == [] && notifications == []
      ensures Valid()
    {
      jobs := [];
      notifications := [];
    }

    /** `INSERT OR REPLACE INTO jobs ...`. */
    method Replace(row: JobRow)
      requires Valid() && IsColumn(row.kanbanStatus)
      modifies this
      ensures jobs == Upsert(old(jobs), row)
      ensures notifications == old(notifications)
      ensures Valid()
      ensures FindRow(jobs, row.id) == Some(row)
    {
      UpsertWellFormed(jobs, row);
      UpsertReplaces(jobs, row);
      jobs := Upsert(jobs, row);
    }

    /**
     * `UPDATE jobs SET ... WHERE id = ?`, row by row; `changes` is the
     * number of rows updated, 1 when the id exists and 0 otherwise.
     */
    method Update(id: string, u: RowUpdate) returns (changes: nat)
      requires Valid() && KeepsColumn(u)
      modifies this
      ensures jobs == UpdateWhere(old(jobs), id, u)
      ensures notifications == old(notifications)
      ensures changes == CountId(old(jobs), id)
      ensures changes == (if HasId(old(jobs), id) then 1 else 0)
      ensures changes == 0 ==> jobs == old(jobs)
      ensures Valid()
    {
      var rows := jobs;
      var updated;
      updated, changes := UpdateRows(rows, id, u);
      CountIdAtMostOne(rows, id);
      UpdateWellFormed(rows, id, u);
      if changes == 0 {
        UpdateMissingIsNoOp(rows, id, u);
      }
      jobs := updated;
    }

    /** `INSERT INTO notifications ...`. */
    method InsertNotification(n: NotificationRow)
      modifies this
      ensures notifications == old(notifications) + [n]
      ensures jobs == old(jobs)
    {
      notifications := notifications + [n];
    }
  }

  /** The row-by-row pass of an update by id: the new rows and the number of rows changed. */
  method UpdateRows(rows: seq<JobRow>, id: string, u: RowUpdate) returns (updated: seq<JobRow>, changes: nat)
    ensures updated == UpdateWhere(rows, id, u)
    ensures changes == CountId(rows, id)
  {
    updated := [];
    changes := 0;
    var i := 0;
    while i < |rows|
      invariant 0 <= i <= |rows|
      invariant updated == UpdateWhere(rows[..i], id, u)
      invariant changes == CountId(rows[..i], id)
    {
      updated, changes := UpdateOne(rows, i, id, u, updated, changes);
      i := i + 1;
    }
    assert rows[..i] == rows;
  }

  /** One pass of the loop of `UpdateRows`, on the row at `i`. */
  method UpdateOne(rows: seq<JobRow>, i: nat, id: string, u: RowUpdate, updated: seq<JobRow>, changes: nat)
      returns (updated': seq<JobRow>, changes': nat)
    requires i < |rows|
    requires updated == UpdateWhere(rows[..i], id, u) && changes == CountId(rows[..i], id)
    ensures updated' == UpdateWhere(rows[..i + 1], id, u) && changes' == CountId(rows[..i + 1], id)
  {
    var hit := rows[i].id == id;
    updated' := updated + [if hit then ApplyUpdate(rows[i], u) else rows[i]];
    changes' := changes + (if hit then 1 else 0);
    UpdateWherePrefix(rows, i, id, u);
    CountIdPrefix(rows, i, id);
  }

  /** The update over one more row of the table. */
  lemma UpdateWherePrefix(rows: seq<JobRow>, i: nat, id: string, u: RowUpdate)
    requires i < |rows|
    ensures UpdateWhere(rows[..i + 1], id, u)
         == UpdateWhere(rows[..i], id, u) + [if rows[i].id == id then ApplyUpdate(rows[i], u) else rows[i]]
  {
    assert rows[..i + 1] == rows[..i] + [rows[i]];
    UpdateWhereSnoc(rows[..i], rows[i], id, u);
  }

  /** Updating a table with one more row at the end updates that row on its own. */
  lemma {:induction false} UpdateWhereSnoc(rows: seq<JobRow>, x: JobRow, id: string, u: RowUpdate)
    ensures UpdateWhere(rows + [x], id, u) == UpdateWhere(rows, id, u) + [if x.id == id then ApplyUpdate(x, u) else x]
  {
    if rows != [] {
      assert (rows + [x])[1..] == rows[1..] + [x];
      UpdateWhereSnoc(rows[1..], x, id, u);
    }
  }

  /** The count over one more row of the table. */
  lemma CountIdPrefix(rows: seq<JobRow>, i: nat, id: string)
    requires i < |rows|
    ensures CountId(rows[..i + 1], id) == CountId(rows[..i], id) + (if rows[i].id == id then 1 else 0)
  {
    assert rows[..i + 1] == rows[..i] + [rows[i]];
    CountIdSnoc(rows[..i], rows[i], id);
  }

  lemma CountIdSnoc(rows: seq<JobRow>, x: JobRow, id: string)
    ensures CountId(rows + [x], id) == CountId(rows, id) + (if x.id == id then 1 else 0)
    decreases |rows|
  {
    if rows != [] {
      assert (rows + [x])[1..] == rows[1..] + [x];
      CountIdSnoc(rows[1..], x, id);
    }
  }
}
