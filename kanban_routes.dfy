/**
 * The board routes (src/server/routes/kanban.js): the board grouped into
 * its four columns, moving a job between columns, setting its priority,
 * and per-column statistics. Responses are modelled by their status and
 * payload; the jobs table is `Store.Database`.
 */
module KanbanRoutes {
  import opened Common
  import opened Store
  import Processor

  /** The four column arrays of `/board`. */
  datatype Board = Board(jobs: seq<JobRow>, interested: seq<JobRow>, proposed: seq<JobRow>, archived: seq<JobRow>)

  predicate InColumn(r: JobRow)
  {
    IsColumn(r.kanbanStatus)
  }

  /** The rows of one column, in query order. */
  function Bucket(rows: seq<JobRow>, s: string): (r: seq<JobRow>)
    ensures |r| <= |rows|
    ensures forall i :: 0 <= i < |r| ==> r[i].kanbanStatus == s
  {
    if rows == [] then []
    else
      var last := rows[|rows| - 1];
      Bucket(rows[..|rows| - 1], s) + (if last.kanbanStatus == s then [last] else [])
  }

  /** A column holds exactly the rows with its status. */
  lemma {:induction false} BucketMembers(rows: seq<JobRow>, s: string)
    ensures forall x :: x in Bucket(rows, s) <==> x in rows && x.kanbanStatus == s
  {
    if rows != [] {
      var init := rows[..|rows| - 1];
      BucketMembers(init, s);
      assert rows == init + [rows[|rows| - 1]];
    }
  }

  /** The grouping of `/board`: each row goes to the column named by its status; other statuses are dropped. */
  function Grouped(rows: seq<JobRow>): (b: Board)
    ensures forall x :: x in b.jobs ==> x.kanbanStatus == "jobs"
    ensures forall x :: x in b.interested ==> x.kanbanStatus == "interested"
    ensures forall x :: x in b.proposed ==> x.kanbanStatus == "proposed"
    ensures forall x :: x in b.archived ==> x.kanbanStatus == "archived"
  {
    Board(Bucket(rows, "jobs"), Bucket(rows, "interested"), Bucket(rows, "proposed"), Bucket(rows, "archived"))
  }

  function Column(b: Board, s: string): seq<JobRow>
    requires IsColumn(s)
  {
    if s == "jobs" then b.jobs
    else if s == "interested" then b.interested
    else if s == "proposed" then b.proposed
    else b.archived
  }

  /** A row is on the board exactly in the column its status names, and only when that status is a column. */
  lemma GroupedPlacement(rows: seq<JobRow>, x: JobRow)
    requires x in rows
    ensures IsColumn(x.kanbanStatus) ==> x in Column(Grouped(rows), x.kanbanStatus)
    ensures forall s :: IsColumn(s) && x in Column(Grouped(rows), s) ==> s == x.kanbanStatus
  {
    BucketMembers(rows, "jobs");
    BucketMembers(rows, "interested");
    BucketMembers(rows, "proposed");
    BucketMembers(rows, "archived");
  }

  /** The columns together hold exactly the rows whose status is a column: none lost, none counted twice. */
  lemma {:induction false} GroupedSize(rows: seq<JobRow>)
    ensures var b := Grouped(rows);
      |b.jobs| + |b.interested| + |b.proposed| + |b.archived| == |Filter(rows, InColumn)|
  {
    if rows != [] {
      var init := rows[..|rows| - 1];
      var last := rows[|rows| - 1];
      GroupedSize(init);
      assert rows == init + [last];
      FilterSnoc(init, last, InColumn);
      GroupedSizeStep(init, last);
    }
  }

  lemma GroupedSizeStep(init: seq<JobRow>, last: JobRow)
    ensures var b, b' := Grouped(init), Grouped(init + [last]);
      |b'.jobs| + |b'.interested| + |b'.proposed| + |b'.archived|
      == |b.jobs| + |b.interested| + |b.proposed| + |b.archived| + if InColumn(last) then 1 else 0
  {
    assert (init + [last])[..|init|] == init;
  }

  /** The rows `/board` queries: budget at least the minimum, in column, priority and recency order. */
  function BoardRows(rows: seq<JobRow>, minBudget: int): (r: seq<JobRow>)
    ensures forall x :: x in r <==> x in rows && x.budget >= minBudget
    ensures SortedBy(ByBoardOrder, r)
  {
    SelectOrdered(rows, (x: JobRow) => x.budget >= minBudget, ByBoardOrder)
  }

  lemma {:induction false} FilterSnoc<T(!new)>(s: seq<T>, x: T, p: T -> bool)
    ensures Filter(s + [x], p) == Filter(s, p) + (if p(x) then [x] else [])
  {
    FilterAppend(s, [x], p);
    assert [x][1..] == [];
  }

  /** The `forEach` that pushes each row into its column. */
  method GroupBoard(rows: seq<JobRow>) returns (b: Board)
    ensures b == Grouped(rows)
  {
    b := Board([], [], [], []);
    var i := 0;
    while i < |rows|
      invariant i <= |rows|
      invariant b == Grouped(rows[..i])
    {
      var job := rows[i];
      assert rows[..i + 1][..i] == rows[..i];
      if job.kanbanStatus == "jobs" {
        b := b.(jobs := b.jobs + [job]);
      } else if job.kanbanStatus == "interested" {
        b := b.(interested := b.interested + [job]);
      } else if job.kanbanStatus == "proposed" {
        b := b.(proposed := b.proposed + [job]);
      } else if job.kanbanStatus == "archived" {
        b := b.(archived := b.archived + [job]);
      }
      i := i + 1;
    }
    assert rows[..i] == rows;
  }

  /** `GET /board` with the settings' minimum. */
  method GetBoard(db: Database) returns (b: Board)
    ensures b == Grouped(BoardRows(db.jobs, Processor.MinimumBudget))
  {
    b := GroupBoard(BoardRows(db.jobs, Processor.MinimumBudget));
  }

  /** The responses of the update routes. */
  datatype Response = BadRequest(error: string) | NotFound | Moved(jobId: string, fromStatus: string, toStatus: string) | Updated

  /**
   * `POST /move`: a target outside the four columns is refused before the
   * table is touched; `fromStatus` is echoed but never checked; an id
   * with no row gives not-found.
   */
  method MoveJob(db: Database, jobId: string, fromStatus: string, toStatus: string) returns (resp: Response)
    requires db.Valid()
    modifies db
    ensures db.Valid() && db.notifications == old(db.notifications)
    ensures !IsColumn(toStatus) ==> resp == BadRequest("Invalid kanban status") && db.jobs == old(db.jobs)
    ensures IsColumn(toStatus) ==> db.jobs == UpdateWhere(old(db.jobs), jobId, SetKanbanStatus(toStatus))
    ensures IsColumn(toStatus) && !HasId(old(db.jobs), jobId) ==> resp == NotFound && db.jobs == old(db.jobs)
    ensures IsColumn(toStatus) && HasId(old(db.jobs), jobId) ==> resp == Moved(jobId, fromStatus, toStatus)
  {
    if !IsColumn(toStatus) {
      return BadRequest("Invalid kanban status");
    }
    var changes := db.Update(jobId, SetKanbanStatus(toStatus));
    if changes == 0 {
      return NotFound;
    }
    resp := Moved(jobId, fromStatus, toStatus);
  }

  /** `PATCH /priority`: anything but a number is refused; an id with no row gives not-found. */
  method SetPriority(db: Database, jobId: string, priority: JsValue) returns (resp: Response)
    requires db.Valid()
    modifies db
    ensures db.Valid() && db.notifications == old(db.notifications)
    ensures !priority.Num? ==> resp == BadRequest("Priority must be a number") && db.jobs == old(db.jobs)
    ensures priority.Num? ==> db.jobs == UpdateWhere(old(db.jobs), jobId, RowUpdate.SetPriority(priority.n))
    ensures priority.Num? && !HasId(old(db.jobs), jobId) ==> resp == NotFound && db.jobs == old(db.jobs)
    ensures priority.Num? && HasId(old(db.jobs), jobId) ==> resp == Updated
  {
    if !priority.Num? {
      return BadRequest("Priority must be a number");
    }
    var changes := db.Update(jobId, RowUpdate.SetPriority(priority.n));
    if changes == 0 {
      return NotFound;
    }
    resp := Updated;
  }

  /** A move to a column puts the job in that column of the next board, when its budget qualifies. */
  lemma MovedJobShowsInColumn(rows: seq<JobRow>, jobId: string, toStatus: string, minBudget: int, x: JobRow)
    requires IsColumn(toStatus) && x in rows && x.id == jobId && x.budget >= minBudget
    ensures x.(kanbanStatus := toStatus) in Column(Grouped(BoardRows(UpdateWhere(rows, jobId, SetKanbanStatus(toStatus)), minBudget)), toStatus)
  {
    var after := UpdateWhere(rows, jobId, SetKanbanStatus(toStatus));
    var k :| 0 <= k < |rows| && rows[k] == x;
    assert after[k] == x.(kanbanStatus := toStatus);
    GroupedPlacement(BoardRows(after, minBudget), after[k]);
  }

  /** The statistics of one status: how many rows, and the least and greatest budget among them. */
  datatype ColumnStats = ColumnStats(count: nat, minBudget: int, maxBudget: int)

  function Budgets(rows: seq<JobRow>): (r: seq<int>)
    ensures |r| == |rows| && forall i :: 0 <= i < |rows| ==> r[i] == rows[i].budget
  {
    if rows == [] then [] else [rows[0].budget] + Budgets(rows[1..])
  }

  function MinOf(xs: seq<int>): (m: int)
    requires xs != []
    ensures m in xs && forall x :: x in xs ==> m <= x
  {
    if |xs| == 1 then xs[0]
    else
      assert xs == [xs[0]] + xs[1..];
      Min(xs[0], MinOf(xs[1..]))
  }

  function MaxOf(xs: seq<int>): (m: int)
    requires xs != []
    ensures m in xs && forall x :: x in xs ==> x <= m
  {
    if |xs| == 1 then xs[0]
    else
      assert xs == [xs[0]] + xs[1..];
      Max(xs[0], MaxOf(xs[1..]))
  }

  /** The rows `/stats` puts in the group of status `s`. */
  function InGroup(minBudget: int, s: string): JobRow -> bool
  {
    (x: JobRow) => x.budget >= minBudget && x.kanbanStatus == s
  }

  function GroupStats(group: seq<JobRow>): (st: ColumnStats)
    requires group != []
    ensures st.count == |group| && st.minBudget <= st.maxBudget
    ensures forall x :: x in group ==> st.minBudget <= x.budget <= st.maxBudget
    ensures (exists x :: x in group && x.budget == st.minBudget) && (exists x :: x in group && x.budget == st.maxBudget)
  {
    var bs := Budgets(group);
    var lo := MinOf(bs);
    var hi := MaxOf(bs);
    assert forall x :: x in group ==> x.budget in bs by {
      forall x | x in group ensures x.budget in bs {
        var k :| 0 <= k < |group| && group[k] == x;
        assert bs[k] == x.budget;
      }
    }
    var i :| 0 <= i < |bs| && bs[i] == lo;
    var j :| 0 <= j < |bs| && bs[j] == hi;
    assert group[i] in group && group[j] in group;
    ColumnStats(|group|, lo, hi)
  }

  /**
   * `GET /stats`: one entry per status among the rows meeting the
   * minimum (any status, not only the four columns), with the number of
   * such rows and their budget range.
   */
  function Stats(rows: seq<JobRow>, minBudget: int): (r: map<string, ColumnStats>)
    ensures forall s :: s in r <==> exists x :: x in rows && x.budget >= minBudget && x.kanbanStatus == s
  {
    var statuses := set x | x in rows && x.budget >= minBudget :: x.kanbanStatus;
    map s | s in statuses :: StatsOf(rows, minBudget, s)
  }

  /** Each status's entry counts its rows, and its least and greatest budget are budgets of those rows. */
  lemma StatsEntries(rows: seq<JobRow>, minBudget: int)
    ensures var r := Stats(rows, minBudget);
      && (forall s :: s in r ==> r[s].count == Count(rows, InGroup(minBudget, s)) && r[s].count >= 1)
      && (forall s, x :: s in r && x in rows && x.budget >= minBudget && x.kanbanStatus == s ==>
            r[s].minBudget <= x.budget <= r[s].maxBudget)
      && (forall s :: s in r ==>
            (exists x :: x in rows && x.budget >= minBudget && x.kanbanStatus == s && x.budget == r[s].minBudget)
            && (exists x :: x in rows && x.budget >= minBudget && x.kanbanStatus == s && x.budget == r[s].maxBudget))
  {
  }

  function StatsOf(rows: seq<JobRow>, minBudget: int, s: string): (st: ColumnStats)
    requires exists x :: x in rows && x.budget >= minBudget && x.kanbanStatus == s
    ensures st.count == Count(rows, InGroup(minBudget, s)) && st.count >= 1
    ensures forall x :: x in rows && x.budget >= minBudget && x.kanbanStatus == s ==> st.minBudget <= x.budget <= st.maxBudget
    ensures exists x :: x in rows && x.budget >= minBudget && x.kanbanStatus == s && x.budget == st.minBudget
    ensures exists x :: x in rows && x.budget >= minBudget && x.kanbanStatus == s && x.budget == st.maxBudget
  {
    var group := Filter(rows, InGroup(minBudget, s));
    var x :| x in rows && x.budget >= minBudget && x.kanbanStatus == s;
    var k :| 0 <= k < |rows| && rows[k] == x;
    assert InGroup(minBudget, s)(rows[k]);
    GroupStats(group)
  }
}
