/**
 * The browser side of the board (src/web/public/script.js): the
 * `FastworkKanban` object holding the board's four column arrays, its
 * local move after a drag, the positions and board caches kept in local
 * storage with their expiry, the position sort applied to fresh data, the
 * change check that decides whether fresh data replaces the shown board,
 * and the text a job card shows.
 *
 * The DOM, the toasts, the modal and the network are not modelled: a
 * reply from the server is a parameter, and so is the order in which the
 * page currently shows the cards.
 */
module BoardClient {
  import opened Common
  import opened Store
  import opened KanbanRoutes

  /** Board data read back from the cache is discarded after five minutes. */
  const CacheExpiry := 5 * 60 * 1000

  /** Saved positions are discarded after 24 hours. */
  const PositionsMaxAge := 24 * 60 * 60 * 1000

  /** The sort key of a job without a saved position. */
  const Unpositioned := 9999

  // ---------------------------------------------------------------------------
  // Job cards

  /** `s` cut to `keep` characters plus `...` when longer than `max`. */
  function Truncate(s: string, max: nat, keep: nat): (r: string)
    requires keep <= max
    ensures |s| <= max ==> r == s
    ensures |s| > max ==> |r| == keep + 3 && r[..keep] == s[..keep] && r[keep..] == "..."
  {
    if |s| > max then s[..keep] + "..." else s
  }

  /** The title a card shows: at most 60 characters. */
  function CardTitle(job: JobRow): (r: string)
    ensures |r| <= 60
    ensures |job.title| <= 60 ==> r == job.title
    ensures |job.title| > 60 ==> |r| == 60 && r[..57] == job.title[..57] && r[57..] == "..."
  {
    Truncate(job.title, 60, 57)
  }

  /** The description a card shows: at most 120 characters, or a placeholder for a missing one. */
  function CardDescription(job: JobRow): (r: string)
    ensures job.description == "" ==> r == "No description available"
    ensures job.description != "" ==> |r| <= 120
    ensures job.description != "" && |job.description| <= 120 ==> r == job.description
    ensures job.description != "" && |job.description| > 120 ==> |r| == 120 && r[..117] == job.description[..117] && r[117..] == "..."
  {
    if job.description == "" then "No description available" else Truncate(job.description, 120, 117)
  }

  /** `job.category || 'Other'`. */
  function CardCategory(job: JobRow): string
  {
    if job.category == "" then "Other" else job.category
  }

  /** The style classes of the known categories. */
  const CategoryClasses: map<string, string> := map[
    "Application Development" := "application-development",
    "Web Development" := "web-development",
    "IT Solutions" := "it-solutions",
    "IoT Work" := "iot-work",
    "Other" := "other"]

  /** `getCategoryClass`: the class of a known category, `other` for any other. */
  function CategoryClass(category: string): (r: string)
    ensures category in CategoryClasses ==> r == CategoryClasses[category]
    ensures category !in CategoryClasses ==> r == "other"
    ensures r in CategoryClasses.Values
  {
    assert CategoryClasses["Other"] == "other";
    if category in CategoryClasses then CategoryClasses[category] else "other"
  }

  /** A card's status class: `analyzed` when the analysis is truthy, `pending` otherwise. */
  function StatusClass(job: JobRow): (r: string)
    ensures r == "analyzed" <==> job.analysis.Some? && job.analysis.value != ""
    ensures r == "analyzed" || r == "pending"
  {
    if job.analysis.Some? && job.analysis.value != "" then "analyzed" else "pending"
  }

  // ---------------------------------------------------------------------------
  // Board values

  /** All the jobs of a board, column after column. */
  function AllRows(b: Board): seq<JobRow>
  {
    b.jobs + b.interested + b.proposed + b.archived
  }

  /** The ids on a board. */
  function Ids(b: Board): set<string>
  {
    set x | x in AllRows(b) :: x.id
  }

  /** `hasDataChanges`: the totals differ, or the id sets differ in size, or a new id is not an old one. */
  function HasDataChanges(oldData: Board, newData: Board): bool
  {
    || |AllRows(oldData)| != |AllRows(newData)|
    || |Ids(oldData)| != |Ids(newData)|
    || !(Ids(newData) <= Ids(oldData))
  }

  /** Two finite sets of one size, one inside the other, are equal. */
  lemma SubsetSameSize(a: set<string>, b: set<string>)
    requires a <= b && |a| == |b|
    ensures a == b
  {
    assert |b - a| == |b| - |a|;
    assert b - a == {};
  }

  /** The board changed exactly when the job count changed or the set of ids changed. */
  lemma DataChangesIff(oldData: Board, newData: Board)
    ensures HasDataChanges(oldData, newData) <==> |AllRows(oldData)| != |AllRows(newData)| || Ids(oldData) != Ids(newData)
  {
    if |Ids(oldData)| == |Ids(newData)| && Ids(newData) <= Ids(oldData) {
      SubsetSameSize(Ids(newData), Ids(oldData));
    }
  }

  /** A board compared with itself has no changes. */
  lemma NoChangesSelf(b: Board)
    ensures !HasDataChanges(b, b)
  {
    DataChangesIff(b, b);
  }

  /** The board with column `s` replaced by `col`. */
  function WithColumn(b: Board, s: string, col: seq<JobRow>): (r: Board)
    requires IsColumn(s)
    ensures Column(r, s) == col
    ensures forall t :: IsColumn(t) && t != s ==> Column(r, t) == Column(b, t)
  {
    if s == "jobs" then b.(jobs := col)
    else if s == "interested" then b.(interested := col)
    else if s == "proposed" then b.(proposed := col)
    else b.(archived := col)
  }

  /** The jobs of a board, counted column by column. */
  lemma RowsMultiset(b: Board)
    ensures multiset(AllRows(b)) == multiset(b.jobs) + multiset(b.interested) + multiset(b.proposed) + multiset(b.archived)
  {
  }

  /** Replacing a column changes the board's jobs by exactly that column. */
  lemma WithColumnRows(b: Board, s: string, col: seq<JobRow>)
    requires IsColumn(s)
    ensures multiset(AllRows(WithColumn(b, s, col))) + multiset(Column(b, s)) == multiset(AllRows(b)) + multiset(col)
  {
    var r := WithColumn(b, s, col);
    RowsMultiset(b);
    RowsMultiset(r);
    if s == "jobs" {
      assert r == b.(jobs := col);
    } else if s == "interested" {
      assert r == b.(interested := col);
    } else if s == "proposed" {
      assert r == b.(proposed := col);
    } else {
      assert r == b.(archived := col);
    }
  }

  /** `findIndex` by id: the first position holding `id`. */
  function FindIndex(col: seq<JobRow>, id: string): (r: Option<nat>)
    ensures r.None? <==> forall k :: 0 <= k < |col| ==> col[k].id != id
    ensures r.Some? ==> r.value < |col| && col[r.value].id == id && forall k :: 0 <= k < r.value ==> col[k].id != id
  {
    if col == [] then None
    else if col[0].id == id then Some(0)
    else
      match FindIndex(col[1..], id)
      case None => None
      case Some(i) => Some(i + 1)
  }

  /** The local part of `moveJob`; a `TypeError` on a missing column leaves what was done before it. */
  datatype MoveOutcome = MovedLocally(board: Board) | MoveThrew(board: Board)

  /**
   * The local update of `moveJob`: the job is cut out of `fromStatus`, its
   * status becomes `toStatus` and it is appended to `toStatus`; a job not
   * found leaves the board alone. A name that is not a column makes the
   * array access throw.
   */
  function LocalMove(b: Board, jobId: string, fromStatus: string, toStatus: string): (r: MoveOutcome)
    ensures IsColumn(fromStatus) && FindIndex(Column(b, fromStatus), jobId).None? ==> r == MovedLocally(b)
    ensures !IsColumn(fromStatus) ==> r == MoveThrew(b)
    ensures r.MovedLocally? <==> IsColumn(fromStatus) && (IsColumn(toStatus) || FindIndex(Column(b, fromStatus), jobId).None?)
  {
    if !IsColumn(fromStatus) then MoveThrew(b)
    else
      var col := Column(b, fromStatus);
      match FindIndex(col, jobId)
      case None => MovedLocally(b)
      case Some(i) =>
        var cut := CutAt(b, fromStatus, i);
        if IsColumn(toStatus) then MovedLocally(PutLast(cut, toStatus, col[i].(kanbanStatus := toStatus)))
        else MoveThrew(cut)
  }

  /** The board with the job at `i` of column `s` spliced out. */
  function CutAt(b: Board, s: string, i: nat): Board
    requires IsColumn(s) && i < |Column(b, s)|
  {
    WithColumn(b, s, Column(b, s)[..i] + Column(b, s)[i + 1..])
  }

  /** The board with `job` pushed onto column `s`. */
  function PutLast(b: Board, s: string, job: JobRow): Board
    requires IsColumn(s)
  {
    WithColumn(b, s, Column(b, s) + [job])
  }

  /**
   * A move between two columns leaves the source column without the job,
   * ends the target column with the job under its new status, and leaves
   * the other columns alone.
   */
  lemma MovePlacement(b: Board, jobId: string, fromStatus: string, toStatus: string)
    requires IsColumn(fromStatus) && IsColumn(toStatus) && fromStatus != toStatus
    requires FindIndex(Column(b, fromStatus), jobId).Some?
    ensures var i := FindIndex(Column(b, fromStatus), jobId).value;
      var col := Column(b, fromStatus);
      var after := LocalMove(b, jobId, fromStatus, toStatus).board;
      && Column(after, fromStatus) == col[..i] + col[i + 1..]
      && Column(after, toStatus) == Column(b, toStatus) + [col[i].(kanbanStatus := toStatus)]
      && forall t :: IsColumn(t) && t != fromStatus && t != toStatus ==> Column(after, t) == Column(b, t)
  {
  }

  /** A local move keeps the jobs, only restating the moved one's status. */
  lemma MoveRows(b: Board, jobId: string, fromStatus: string, toStatus: string)
    requires IsColumn(fromStatus) && IsColumn(toStatus)
    requires FindIndex(Column(b, fromStatus), jobId).Some?
    ensures var job := Column(b, fromStatus)[FindIndex(Column(b, fromStatus), jobId).value];
      multiset(AllRows(LocalMove(b, jobId, fromStatus, toStatus).board)) + multiset{job}
        == multiset(AllRows(b)) + multiset{job.(kanbanStatus := toStatus)}
  {
    var col := Column(b, fromStatus);
    var i := FindIndex(col, jobId).value;
    var moved := col[i].(kanbanStatus := toStatus);
    var cut := CutAt(b, fromStatus, i);
    assert LocalMove(b, jobId, fromStatus, toStatus).board == PutLast(cut, toStatus, moved);
    CutRows(b, fromStatus, i);
    PutRows(cut, toStatus, moved);
  }

  /** Splicing a job out of a column removes exactly that job from the board. */
  lemma CutRows(b: Board, s: string, i: nat)
    requires IsColumn(s) && i < |Column(b, s)|
    ensures multiset(AllRows(CutAt(b, s, i))) + multiset{Column(b, s)[i]} == multiset(AllRows(b))
  {
    var col := Column(b, s);
    var rest := col[..i] + col[i + 1..];
    var mb, mc := multiset(AllRows(b)), multiset(AllRows(CutAt(b, s, i)));
    assert col == col[..i] + [col[i]] + col[i + 1..];
    assert multiset(col) == multiset(rest) + multiset{col[i]};
    WithColumnRows(b, s, rest);
    assert (mc + multiset{col[i]}) + multiset(rest) == mb + multiset(rest);
    Cancel(mc + multiset{col[i]}, mb, multiset(rest));
  }

  /** Pushing a job onto a column adds exactly that job to the board. */
  lemma PutRows(b: Board, s: string, job: JobRow)
    requires IsColumn(s)
    ensures multiset(AllRows(PutLast(b, s, job))) == multiset(AllRows(b)) + multiset{job}
  {
    var ma, mb := multiset(AllRows(PutLast(b, s, job))), multiset(AllRows(b));
    WithColumnRows(b, s, Column(b, s) + [job]);
    assert ma + multiset(Column(b, s)) == (mb + multiset{job}) + multiset(Column(b, s));
    Cancel(ma, mb + multiset{job}, multiset(Column(b, s)));
  }

  lemma Cancel(x: multiset<JobRow>, y: multiset<JobRow>, z: multiset<JobRow>)
    requires x + z == y + z
    ensures x == y
  {
    forall e ensures x[e] == y[e] {
      assert (x + z)[e] == (y + z)[e];
    }
  }

  /** Swapping one job for another with the same id keeps the length and the ids of a sequence of jobs. */
  lemma SwapKeepsIds(a: seq<JobRow>, b: seq<JobRow>, job: JobRow, moved: JobRow)
    requires multiset(a) + multiset{job} == multiset(b) + multiset{moved}
    requires job.id == moved.id && job in b
    ensures |a| == |b|
    ensures (set x | x in a :: x.id) == (set x | x in b :: x.id)
  {
    assert |multiset(a) + multiset{job}| == |multiset(b) + multiset{moved}|;
    SwapIdsForward(a, b, job, moved);
    SwapIdsBackward(a, b, job, moved);
  }

  /** Every id of the old sequence is still present after the swap. */
  lemma SwapIdsForward(a: seq<JobRow>, b: seq<JobRow>, job: JobRow, moved: JobRow)
    requires multiset(a) + multiset{job} == multiset(b) + multiset{moved}
    requires job.id == moved.id && job in b
    ensures forall x :: x in a ==> x.id in (set y | y in b :: y.id)
  {
    forall x | x in a ensures x.id in (set y | y in b :: y.id) {
      assert x in multiset(a);
      assert x in multiset(b) + multiset{moved};
      if x != moved {
        assert x in b;
      } else {
        assert x.id == job.id;
      }
    }
  }

  /** Every id of the new sequence was already present before the swap. */
  lemma SwapIdsBackward(a: seq<JobRow>, b: seq<JobRow>, job: JobRow, moved: JobRow)
    requires multiset(a) + multiset{job} == multiset(b) + multiset{moved}
    requires job.id == moved.id
    ensures forall x :: x in b ==> x.id in (set y | y in a :: y.id)
  {
    forall x | x in b ensures x.id in (set y | y in a :: y.id) {
      assert x in multiset(b);
      assert x in multiset(a) + multiset{job};
      if x != job {
        assert x in a;
      } else {
        assert moved in multiset(b) + multiset{moved};
        assert moved in multiset(a) + multiset{job};
        if moved == job {
          assert (multiset(a) + multiset{job})[job] == (multiset(b) + multiset{moved})[job];
          assert multiset(a)[job] == multiset(b)[job] > 0;
        }
        assert moved in multiset(a);
      }
    }
  }

  /**
   * A local move that does not throw keeps the job count and the ids, so
   * the change check does not see it.
   */
  lemma MoveUndetected(b: Board, jobId: string, fromStatus: string, toStatus: string)
    requires LocalMove(b, jobId, fromStatus, toStatus).MovedLocally?
    ensures var after := LocalMove(b, jobId, fromStatus, toStatus).board;
      |AllRows(after)| == |AllRows(b)| && Ids(after) == Ids(b) && !HasDataChanges(b, after)
  {
    var after := LocalMove(b, jobId, fromStatus, toStatus).board;
    if FindIndex(Column(b, fromStatus), jobId).Some? {
      var col := Column(b, fromStatus);
      var job := col[FindIndex(col, jobId).value];
      MoveRows(b, jobId, fromStatus, toStatus);
      RowsMultiset(b);
      assert job in multiset(AllRows(b));
      SwapKeepsIds(AllRows(after), AllRows(b), job, job.(kanbanStatus := toStatus));
    }
    DataChangesIff(b, after);
  }

  /** A throwing move between columns has already cut the job out, so the board it leaves has one job fewer. */
  lemma ThrowLosesJob(b: Board, jobId: string, fromStatus: string, toStatus: string)
    requires IsColumn(fromStatus) && !IsColumn(toStatus) && FindIndex(Column(b, fromStatus), jobId).Some?
    ensures LocalMove(b, jobId, fromStatus, toStatus).MoveThrew?
    ensures |AllRows(LocalMove(b, jobId, fromStatus, toStatus).board)| + 1 == |AllRows(b)|
  {
    var i := FindIndex(Column(b, fromStatus), jobId).value;
    assert LocalMove(b, jobId, fromStatus, toStatus).board == CutAt(b, fromStatus, i);
    CutRows(b, fromStatus, i);
  }

  // ---------------------------------------------------------------------------
  // Positions

  /** One saved card: its job id and its index in its column. */
  datatype Placement = Placement(jobId: string, position: int)

  /** The positions entry of local storage: per column name, the saved cards, and when they were saved. */
  datatype PositionsEntry = PositionsEntry(positions: map<string, seq<Placement>>, timestamp: int)

  /** The board entry of local storage and when it was saved. */
  datatype CacheEntry = CacheEntry(data: Board, timestamp: int)

  /** The cards of a shown column with their indices. */
  function PlacementsOf(shown: seq<JobRow>): (ps: seq<Placement>)
    ensures |ps| == |shown| && forall k :: 0 <= k < |shown| ==> ps[k] == Placement(shown[k].id, k)
  {
    seq(|shown|, k requires 0 <= k < |shown| => Placement(shown[k].id, k))
  }

  /** The saved positions of the four shown columns. */
  function PositionsOf(shown: Board): map<string, seq<Placement>>
  {
    map s | s in Columns :: PlacementsOf(Column(shown, s))
  }

  /** The `positionMap` of one column: a later entry for the same job overwrites an earlier one. */
  function PositionMap(ps: seq<Placement>): (m: map<string, int>)
    ensures forall id :: id in m <==> exists k :: 0 <= k < |ps| && ps[k].jobId == id
    ensures forall k :: 0 <= k < |ps| && (forall j :: k < j < |ps| ==> ps[j].jobId != ps[k].jobId) ==>
              m[ps[k].jobId] == ps[k].position
  {
    if ps == [] then map[]
    else
      var init := ps[..|ps| - 1];
      var last := ps[|ps| - 1];
      var m := PositionMap(init)[last.jobId := last.position];
      assert forall k :: 0 <= k < |init| ==> init[k] == ps[k];
      m
  }

  /** The sort key of a job: its saved position, or 9999. */
  function PositionOf(m: map<string, int>, id: string): int
  {
    if id in m then m[id] else Unpositioned
  }

  predicate SortedByPosition(s: seq<JobRow>, m: map<string, int>)
  {
    forall i, j :: 0 <= i < j < |s| ==> PositionOf(m, s[i].id) <= PositionOf(m, s[j].id)
  }

  /** `x` placed after every job of `s` whose key is not larger than its own. */
  function InsertByPosition(x: JobRow, s: seq<JobRow>, m: map<string, int>): (r: seq<JobRow>)
    ensures multiset(r) == multiset(s) + multiset{x}
  {
    if s == [] then [x]
    else if PositionOf(m, x.id) < PositionOf(m, s[0].id) then [x] + s
    else
      assert s == [s[0]] + s[1..];
      [s[0]] + InsertByPosition(x, s[1..], m)
  }

  /** A job whose key is at most the first key of a sorted column can go in front of it. */
  lemma PrependSorted(h: JobRow, s: seq<JobRow>, m: map<string, int>)
    requires SortedByPosition(s, m)
    requires s != [] ==> PositionOf(m, h.id) <= PositionOf(m, s[0].id)
    ensures SortedByPosition([h] + s, m)
  {
    var r := [h] + s;
    forall i, j | 0 <= i < j < |r| ensures PositionOf(m, r[i].id) <= PositionOf(m, r[j].id) {
      assert r[j] == s[j - 1];
      if i > 0 {
        assert r[i] == s[i - 1];
      }
    }
  }

  /** Insertion keeps a column in key order. */
  lemma {:induction false} InsertSorted(x: JobRow, s: seq<JobRow>, m: map<string, int>)
    requires SortedByPosition(s, m)
    ensures SortedByPosition(InsertByPosition(x, s, m), m)
  {
    if s == [] {
    } else if PositionOf(m, x.id) < PositionOf(m, s[0].id) {
      PrependSorted(x, s, m);
    } else {
      var tail := s[1..];
      assert SortedByPosition(tail, m);
      InsertSorted(x, tail, m);
      var rest := InsertByPosition(x, tail, m);
      assert rest[0] in multiset(rest);
      if rest[0] != x {
        assert rest[0] in multiset(tail);
        var k :| 0 <= k < |tail| && tail[k] == rest[0];
        assert tail[k] == s[k + 1];
      }
      PrependSorted(s[0], rest, m);
    }
  }

  /**
   * The column sort of `applyLocalPositions`: ascending by key, ties in
   * their original order (the engine's sort is stable).
   */
  function SortByPosition(s: seq<JobRow>, m: map<string, int>): (r: seq<JobRow>)
    ensures multiset(r) == multiset(s)
    ensures SortedByPosition(r, m)
  {
    if s == [] then []
    else
      var init := s[..|s| - 1];
      assert s == init + [s[|s| - 1]];
      var sorted := SortByPosition(init, m);
      InsertSorted(s[|s| - 1], sorted, m);
      InsertByPosition(s[|s| - 1], sorted, m)
  }

  /** Inserting a job whose key is at least every key of `s` appends it. */
  lemma {:induction false} InsertLast(x: JobRow, s: seq<JobRow>, m: map<string, int>)
    requires forall k :: 0 <= k < |s| ==> PositionOf(m, s[k].id) <= PositionOf(m, x.id)
    ensures InsertByPosition(x, s, m) == s + [x]
  {
    if s != [] {
      InsertLast(x, s[1..], m);
      assert s == [s[0]] + s[1..];
    }
  }

  /** A column already in key order comes out of the sort unchanged. */
  lemma {:induction false} SortSorted(s: seq<JobRow>, m: map<string, int>)
    requires SortedByPosition(s, m)
    ensures SortByPosition(s, m) == s
  {
    if s != [] {
      var init := s[..|s| - 1];
      var last := s[|s| - 1];
      assert SortByPosition(init, m) == init by {
        SortedSplit(s, m);
        SortSorted(init, m);
      }
      assert InsertByPosition(last, init, m) == init + [last] by {
        SortedSplit(s, m);
        InsertLast(last, init, m);
      }
      InitLast(s);
    }
  }

  /** A sorted column without its last job is sorted, and that job's key is the largest. */
  lemma SortedSplit(s: seq<JobRow>, m: map<string, int>)
    requires s != [] && SortedByPosition(s, m)
    ensures SortedByPosition(s[..|s| - 1], m)
    ensures forall k :: 0 <= k < |s| - 1 ==> PositionOf(m, s[k].id) <= PositionOf(m, s[|s| - 1].id)
  {
    var init := s[..|s| - 1];
    forall i, j | 0 <= i < j < |init| ensures PositionOf(m, init[i].id) <= PositionOf(m, init[j].id) {
      assert init[i] == s[i] && init[j] == s[j];
    }
  }

  /** In the saved map of a column with distinct ids, each job's key is its index. */
  lemma {:induction false} PositionMapOfPlacements(shown: seq<JobRow>)
    requires NoDuplicates(ItemIdsOf(shown))
    ensures forall k :: 0 <= k < |shown| ==> PositionOf(PositionMap(PlacementsOf(shown)), shown[k].id) == k
  {
    if shown != [] {
      var init := shown[..|shown| - 1];
      assert ItemIdsOf(init) == ItemIdsOf(shown)[..|shown| - 1];
      PositionMapOfPlacements(init);
      assert PlacementsOf(shown)[..|shown| - 1] == PlacementsOf(init);
      forall k | 0 <= k < |shown|
        ensures PositionOf(PositionMap(PlacementsOf(shown)), shown[k].id) == k
      {
        if k < |shown| - 1 {
          assert ItemIdsOf(shown)[k] != ItemIdsOf(shown)[|shown| - 1];
          assert init[k] == shown[k];
        }
      }
    }
  }

  /** The ids of a column, in order. */
  function ItemIdsOf(s: seq<JobRow>): (ids: seq<string>)
    ensures |ids| == |s| && forall k :: 0 <= k < |s| ==> ids[k] == s[k].id
  {
    seq(|s|, k requires 0 <= k < |s| => s[k].id)
  }

  /** Positions saved from a column with distinct ids restore exactly that column's order. */
  lemma SavedOrderRestored(shown: seq<JobRow>)
    requires NoDuplicates(ItemIdsOf(shown))
    ensures SortByPosition(shown, PositionMap(PlacementsOf(shown))) == shown
  {
    var m := PositionMap(PlacementsOf(shown));
    PositionMapOfPlacements(shown);
    assert SortedByPosition(shown, m);
    SortSorted(shown, m);
  }

  /** When every saved position is below 9999, the jobs with a saved position come first. */
  lemma PositionedFirst(s: seq<JobRow>, m: map<string, int>)
    requires forall id :: id in m ==> m[id] < Unpositioned
    ensures var r := SortByPosition(s, m);
      forall i, j :: 0 <= i < |r| && 0 <= j < |r| && r[i].id in m && r[j].id !in m ==> i < j
  {
  }

  /** The column `s` of `applyLocalPositions`: sorted by its saved map when one is saved under its name. */
  function Arranged(col: seq<JobRow>, positions: map<string, seq<Placement>>, s: string): (r: seq<JobRow>)
    ensures multiset(r) == multiset(col)
    ensures s in positions ==> SortedByPosition(r, PositionMap(positions[s]))
    ensures s !in positions ==> r == col
  {
    if s in positions then SortByPosition(col, PositionMap(positions[s])) else col
  }

  /** `applyLocalPositions` on a board: each column sorted by the positions saved for it. */
  function ApplyPositions(b: Board, positions: map<string, seq<Placement>>): Board
  {
    Board(Arranged(b.jobs, positions, "jobs"), Arranged(b.interested, positions, "interested"),
          Arranged(b.proposed, positions, "proposed"), Arranged(b.archived, positions, "archived"))
  }

  /**
   * The board the server sends has each job in the column its status
   * names, so the reconciliation step of `applyLocalPositions` finds
   * nothing to move on it.
   */
  lemma GroupedColumnsAgree(rows: seq<JobRow>, s: string, x: JobRow)
    requires IsColumn(s) && x in Column(Grouped(rows), s)
    ensures x.kanbanStatus == s
  {
    BucketMembers(rows, s);
  }

  /** An entry saved at `timestamp` is kept at `now` unless more than `maxAge` has passed. */
  predicate Unexpired(timestamp: int, now: int, maxAge: int)
  {
    !(now - timestamp > maxAge)
  }

  // ---------------------------------------------------------------------------
  // The page object

  class KanbanClient {
    /** `kanbanData`. */
    var data: Board
    /** The board entry of local storage. */
    var cache: Option<CacheEntry>
    /** The positions entry of local storage. */
    var stored: Option<PositionsEntry>

    /** A fresh page: empty columns, over whatever local storage already holds. */
    constructor (cache: Option<CacheEntry>, stored: Option<PositionsEntry>)
      ensures data == Board([], [], [], []) && this.cache == cache && this.stored == stored
    {
      data := Board([], [], [], []);
      this.cache := cache;
      this.stored := stored;
    }

    /** `saveToCache`. */
    method SaveToCache(now: int)
      modifies this
      ensures cache == Some(CacheEntry(data, now))
      ensures data == old(data) && stored == old(stored)
    {
      cache := Some(CacheEntry(data, now));
    }

    /** `loadFromCache`: the cached board while it is at most five minutes old; an older entry is removed. */
    method LoadFromCache(now: int) returns (r: Option<Board>)
      modifies this
      ensures data == old(data) && stored == old(stored)
      ensures old(cache).None? ==> r.None? && cache.None?
      ensures old(cache).Some? && Unexpired(old(cache).value.timestamp, now, CacheExpiry) ==>
                r == Some(old(cache).value.data) && cache == old(cache)
      ensures old(cache).Some? && !Unexpired(old(cache).value.timestamp, now, CacheExpiry) ==> r.None? && cache.None?
    {
      if cache.None? {
        return None;
      }
      if now - cache.value.timestamp > CacheExpiry {
        cache := None;
        return None;
      }
      r := Some(cache.value.data);
    }

    /** `savePositionsToLocal`: each shown column's card ids with their indices. */
    method SavePositionsToLocal(shown: Board, now: int)
      modifies this
      ensures stored == Some(PositionsEntry(PositionsOf(shown), now))
      ensures data == old(data) && cache == old(cache)
    {
      stored := Some(PositionsEntry(PositionsOf(shown), now));
    }

    /** `loadPositionsFromLocal`: the saved positions while at most 24 hours old; an older entry is removed. */
    method LoadPositionsFromLocal(now: int) returns (r: Option<map<string, seq<Placement>>>)
      modifies this
      ensures data == old(data) && cache == old(cache)
      ensures old(stored).None? ==> r.None? && stored.None?
      ensures old(stored).Some? && Unexpired(old(stored).value.timestamp, now, PositionsMaxAge) ==>
                r == Some(old(stored).value.positions) && stored == old(stored)
      ensures old(stored).Some? && !Unexpired(old(stored).value.timestamp, now, PositionsMaxAge) ==> r.None? && stored.None?
    {
      if stored.None? {
        return None;
      }
      if now - stored.value.timestamp > PositionsMaxAge {
        stored := None;
        return None;
      }
      r := Some(stored.value.positions);
    }

    /** `applyLocalPositions`: with saved positions still valid, every column is sorted by them. */
    method ApplyLocalPositions(now: int)
      modifies this
      ensures cache == old(cache)
      ensures old(stored).Some? && Unexpired(old(stored).value.timestamp, now, PositionsMaxAge) ==>
                data == ApplyPositions(old(data), old(stored).value.positions) && stored == old(stored)
      ensures !(old(stored).Some? && Unexpired(old(stored).value.timestamp, now, PositionsMaxAge)) ==>
                data == old(data) && stored.None?
    {
      var local := LoadPositionsFromLocal(now);
      if local.None? {
        return;
      }
      data := ApplyPositions(data, local.value);
    }

    /**
     * `loadKanbanBoard`: a board still in the cache is shown as it is (the
     * caller then starts the background refresh); otherwise the server's
     * board, when it answers, is sorted by the saved positions and cached.
     */
    method LoadKanbanBoard(fetched: Option<Board>, now: int) returns (fromCache: bool)
      modifies this
      ensures fromCache <==> old(cache).Some? && Unexpired(old(cache).value.timestamp, now, CacheExpiry)
      ensures fromCache ==> data == old(cache).value.data && cache == old(cache) && stored == old(stored)
      ensures !fromCache && fetched.None? ==> data == old(data) && cache.None? && stored == old(stored)
      ensures !fromCache && fetched.Some? ==>
                var valid := old(stored).Some? && Unexpired(old(stored).value.timestamp, now, PositionsMaxAge);
                && data == (if valid then ApplyPositions(fetched.value, old(stored).value.positions) else fetched.value)
                && cache == Some(CacheEntry(data, now))
                && stored == (if valid then old(stored) else None)
    {
      var cached := LoadFromCache(now);
      if cached.Some? {
        data := cached.value;
        return true;
      }
      fromCache := false;
      if fetched.None? {
        return;
      }
      data := fetched.value;
      ApplyLocalPositions(now);
      SaveToCache(now);
    }

    /** `loadFreshDataInBackground`: fresh data replaces the board only when the change check says so. */
    method LoadFreshDataInBackground(latest: Option<Board>, now: int) returns (changed: bool)
      modifies this
      ensures changed <==> latest.Some? && HasDataChanges(old(data), latest.value)
      ensures !changed ==> data == old(data) && cache == old(cache) && stored == old(stored)
      ensures changed ==>
                var valid := old(stored).Some? && Unexpired(old(stored).value.timestamp, now, PositionsMaxAge);
                && data == (if valid then ApplyPositions(latest.value, old(stored).value.positions) else latest.value)
                && cache == Some(CacheEntry(data, now))
                && stored == (if valid then old(stored) else None)
    {
      if latest.None? || !HasDataChanges(data, latest.value) {
        return false;
      }
      data := latest.value;
      ApplyLocalPositions(now);
      SaveToCache(now);
      changed := true;
    }

    /**
     * `moveJob` after the server has answered (`ok` is `response.ok`): on
     * success the board is updated locally, cached and its shown order
     * saved; on a refused request or a throw the board is to be reloaded.
     */
    method MoveJob(ok: bool, jobId: string, fromStatus: string, toStatus: string, shown: Board, now: int)
        returns (reload: bool)
      modifies this
      ensures !ok ==> reload && data == old(data) && cache == old(cache) && stored == old(stored)
      ensures ok ==> data == LocalMove(old(data), jobId, fromStatus, toStatus).board
      ensures ok ==> (reload <==> LocalMove(old(data), jobId, fromStatus, toStatus).MoveThrew?)
      ensures ok && !reload ==>
                cache == Some(CacheEntry(data, now)) && stored == Some(PositionsEntry(PositionsOf(shown), now))
      ensures ok && reload ==> cache == old(cache) && stored == old(stored)
    {
      if !ok {
        return true;
      }
      var outcome := LocalMove(data, jobId, fromStatus, toStatus);
      data := outcome.board;
      if outcome.MoveThrew? {
        return true;
      }
      SaveToCache(now);
      SavePositionsToLocal(shown, now);
      reload := false;
    }

    /** `clearLocalStorage`: both entries removed, the board kept. */
    method ClearLocalStorage()
      modifies this
      ensures cache.None? && stored.None? && data == old(data)
    {
      cache := None;
      stored := None;
    }
  }
}
