/** Cursor pagination of a project's rows, newest first. */
module Pagination {
  import opened Core

  /** A listed row; `id` is its rank in the database's text order. */
  datatype Row = Row(id: nat, project: string, createdAt: int)

  datatype Page = Page(data: seq<Row>, hasMore: bool, next: Option<nat>)

  const DEFAULT_LIMIT: nat := 20
  const MAX_LIMIT: nat := 100

  datatype LimitError = LimitOutOfRange

  function FromQuery(limit: Option<int>): (r: Result<nat, LimitError>)
    ensures r.Ok? ==> 1 <= r.value <= MAX_LIMIT && r.value == if limit.None? then 20 else limit.value
  {
    if limit.None? then Ok(DEFAULT_LIMIT)
    else if 1 <= limit.value <= MAX_LIMIT then Ok(limit.value)
    else Err(LimitOutOfRange)
  }

  /** `a` is listed before `b`: descending creation time, then descending id. */
  predicate Before(a: Row, b: Row) {
    a.createdAt > b.createdAt || (a.createdAt == b.createdAt && a.id > b.id)
  }

  function Select(rows: seq<Row>, keep: Row -> bool): seq<Row> {
    if |rows| == 0 then []
    else if keep(rows[0]) then [rows[0]] + Select(rows[1..], keep)
    else Select(rows[1..], keep)
  }

  function InProject(project: string): Row -> bool {
    (row: Row) => row.project == project
  }

  function After(cursor: Row): Row -> bool {
    (row: Row) => Before(cursor, row)
  }

  function Insert(row: Row, sorted: seq<Row>): seq<Row> {
    if |sorted| == 0 then [row]
    else if Before(row, sorted[0]) then [row] + sorted
    else [sorted[0]] + Insert(row, sorted[1..])
  }

  function Ordered(rows: seq<Row>): seq<Row> {
    if |rows| == 0 then [] else Insert(rows[0], Ordered(rows[1..]))
  }

  function Find(rows: seq<Row>, id: nat): Option<Row> {
    if |rows| == 0 then None else if rows[0].id == id then Some(rows[0]) else Find(rows[1..], id)
  }

  function Take(rows: seq<Row>, limit: nat): seq<Row> {
    if |rows| <= limit then rows else rows[..limit]
  }

  function ProjectRows(table: seq<Row>, project: string): seq<Row> {
    Select(table, InProject(project))
  }

  /** The list query: rows past the cursor's row, in order, at most `limit`; none for an unknown cursor. */
  function List(table: seq<Row>, project: string, after: Option<nat>, limit: nat): seq<Row> {
    var mine := ProjectRows(table, project);
    if after.None? then Take(Ordered(mine), limit)
    else
      var cursor := Find(mine, after.value);
      if cursor.None? then [] else Take(Ordered(Select(mine, After(cursor.value))), limit)
  }

  /** Truncates one row too many into a page and its cursor. */
  method Wrap(fetched: seq<Row>, limit: nat) returns (page: Page)
    ensures page.hasMore <==> |fetched| > limit
    ensures page.data <= fetched && |page.data| == if |fetched| > limit then limit else |fetched|
    ensures page.next.Some? <==> page.hasMore && limit > 0
    ensures page.next.Some? ==> page.next.value == fetched[limit - 1].id
  {
    var rows := fetched;
    var hasMore := |rows| > limit;
    if |rows| > limit {
      rows := rows[..limit];
    }
    var next := None;
    if hasMore && |rows| > 0 {
      next := Some(rows[|rows| - 1].id);
    }
    return Page(rows, hasMore, next);
  }

  // ------------------------------------------------------------- the order

  predicate Descending(rows: seq<Row>) {
    forall i, j :: 0 <= i < j < |rows| ==> Before(rows[i], rows[j])
  }

  predicate IdsDistinct(rows: seq<Row>) {
    forall i, j :: 0 <= i < j < |rows| ==> rows[i].id != rows[j].id
  }

  lemma {:induction false} InsertKeepsRows(row: Row, sorted: seq<Row>)
    ensures multiset(Insert(row, sorted)) == multiset(sorted) + multiset{row}
  {
    if |sorted| > 0 {
      assert sorted == [sorted[0]] + sorted[1..];
      if !Before(row, sorted[0]) {
        InsertKeepsRows(row, sorted[1..]);
      }
    }
  }

  lemma {:induction false} OrderedKeepsRows(rows: seq<Row>)
    ensures multiset(Ordered(rows)) == multiset(rows)
  {
    if |rows| > 0 {
      assert rows == [rows[0]] + rows[1..];
      OrderedKeepsRows(rows[1..]);
      InsertKeepsRows(rows[0], Ordered(rows[1..]));
    }
  }

  lemma SameMembers(a: seq<Row>, b: seq<Row>, row: Row)
    requires multiset(a) == multiset(b)
    ensures row in a <==> row in b
  {
    assert row in a <==> row in multiset(a);
    assert row in b <==> row in multiset(b);
  }

  lemma {:induction false} InsertKeepsOrder(row: Row, sorted: seq<Row>)
    requires Descending(sorted) && forall k :: 0 <= k < |sorted| ==> sorted[k].id != row.id
    ensures Descending(Insert(row, sorted))
  {
    if |sorted| > 0 && !Before(row, sorted[0]) {
      var rest := Insert(row, sorted[1..]);
      InsertKeepsOrder(row, sorted[1..]);
      InsertKeepsRows(row, sorted[1..]);
      forall k | 0 <= k < |rest| ensures Before(sorted[0], rest[k]) {
        assert rest[k] in multiset(rest);
        assert rest[k] == row || rest[k] in sorted[1..];
      }
    }
  }

  lemma {:induction false} OrderedIsDescending(rows: seq<Row>)
    requires IdsDistinct(rows)
    ensures Descending(Ordered(rows))
  {
    if |rows| > 0 {
      var rest := Ordered(rows[1..]);
      OrderedIsDescending(rows[1..]);
      OrderedKeepsRows(rows[1..]);
      forall k | 0 <= k < |rest| ensures rest[k].id != rows[0].id {
        SameMembers(rest, rows[1..], rest[k]);
      }
      InsertKeepsOrder(rows[0], rest);
    }
  }

  // ------------------------------------------- ordering commutes with a cursor

  lemma {:induction false} SelectedAreRows(rows: seq<Row>, keep: Row -> bool)
    ensures forall row :: row in Select(rows, keep) <==> row in rows && keep(row)
  {
    if |rows| > 0 {
      SelectedAreRows(rows[1..], keep);
    }
  }

  lemma {:induction false} SelectKeepsDistinct(rows: seq<Row>, keep: Row -> bool)
    requires IdsDistinct(rows)
    ensures IdsDistinct(Select(rows, keep))
  {
    if |rows| > 0 {
      SelectKeepsDistinct(rows[1..], keep);
      SelectedAreRows(rows[1..], keep);
      var rest := Select(rows[1..], keep);
      forall k | 0 <= k < |rest| ensures rest[k].id != rows[0].id {
        assert rest[k] in rows[1..];
      }
    }
  }

  lemma {:induction false} InsertInFront(row: Row, sorted: seq<Row>)
    requires forall k :: 0 <= k < |sorted| ==> Before(row, sorted[k])
    ensures Insert(row, sorted) == [row] + sorted
  {
  }

  lemma {:induction false} InsertThenSelect(row: Row, sorted: seq<Row>, keep: Row -> bool)
    requires Descending(sorted)
    ensures Select(Insert(row, sorted), keep)
         == if keep(row) then Insert(row, Select(sorted, keep)) else Select(sorted, keep)
  {
    if |sorted| == 0 {
      assert [row][1..] == [];
    } else if Before(row, sorted[0]) {
      assert ([row] + sorted)[1..] == sorted;
      SelectedAreRows(sorted, keep);
      var kept := Select(sorted, keep);
      forall k | 0 <= k < |kept| ensures Before(row, kept[k]) {
        assert kept[k] in sorted;
      }
      InsertInFront(row, kept);
    } else {
      var rest := Insert(row, sorted[1..]);
      assert ([sorted[0]] + rest)[1..] == rest;
      InsertThenSelect(row, sorted[1..], keep);
      assert keep(sorted[0]) ==> Select(sorted, keep)[1..] == Select(sorted[1..], keep);
    }
  }

  lemma {:induction false} OrderThenSelect(rows: seq<Row>, keep: Row -> bool)
    requires IdsDistinct(rows)
    ensures Ordered(Select(rows, keep)) == Select(Ordered(rows), keep)
  {
    if |rows| > 0 {
      OrderThenSelect(rows[1..], keep);
      OrderedIsDescending(rows[1..]);
      InsertThenSelect(rows[0], Ordered(rows[1..]), keep);
      if keep(rows[0]) {
        assert Select(rows, keep)[1..] == Select(rows[1..], keep);
      }
    }
  }

  lemma {:induction false} SelectSuffix(rows: seq<Row>, keep: Row -> bool, k: nat)
    requires k <= |rows|
    requires forall i :: 0 <= i < k ==> !keep(rows[i])
    requires forall i :: k <= i < |rows| ==> keep(rows[i])
    ensures Select(rows, keep) == rows[k..]
  {
    if |rows| > 0 {
      if k == 0 {
        SelectSuffix(rows[1..], keep, 0);
        assert rows == [rows[0]] + rows[1..];
      } else {
        SelectSuffix(rows[1..], keep, k - 1);
        assert rows[1..][k - 1..] == rows[k..];
      }
    }
  }

  lemma {:induction false} FindsByDistinctId(rows: seq<Row>, row: Row)
    requires IdsDistinct(rows) && row in rows
    ensures Find(rows, row.id) == Some(row)
  {
    if rows[0] != row {
      var k :| 0 <= k < |rows| && rows[k] == row;
      FindsByDistinctId(rows[1..], row);
    }
  }

  // -------------------------------------------------------- following cursors

  /** All of a project's rows, as listed. */
  function All(table: seq<Row>, project: string): seq<Row> {
    Ordered(ProjectRows(table, project))
  }

  /** Continuing after the k-th listed row gives exactly the rows that follow it. */
  lemma ListContinues(table: seq<Row>, project: string, k: nat, limit: nat)
    requires IdsDistinct(table) && k <= |All(table, project)|
    ensures var all := All(table, project);
            List(table, project, if k == 0 then None else Some(all[k - 1].id), limit) == Take(all[k..], limit)
  {
    var mine, all := ProjectRows(table, project), All(table, project);
    if k == 0 {
      assert all[0..] == all;
    } else {
      var cursor := all[k - 1];
      SelectKeepsDistinct(table, InProject(project));
      OrderedKeepsRows(mine);
      SameMembers(all, mine, cursor);
      FindsByDistinctId(mine, cursor);
      OrderThenSelect(mine, After(cursor));
      OrderedIsDescending(mine);
      SelectSuffix(all, After(cursor), k);
    }
  }

  /** A cursor that names no row of the project lists nothing. */
  lemma {:induction false} UnknownCursorListsNothing(table: seq<Row>, project: string, id: nat, limit: nat)
    requires forall row :: row in table && row.project == project ==> row.id != id
    ensures List(table, project, Some(id), limit) == []
  {
    SelectedAreRows(table, InProject(project));
    NotFound(ProjectRows(table, project), id);
  }

  lemma {:induction false} NotFound(rows: seq<Row>, id: nat)
    requires forall row :: row in rows ==> row.id != id
    ensures Find(rows, id).None?
  {
    if |rows| > 0 {
      NotFound(rows[1..], id);
    }
  }

  lemma PageExtends(all: seq<Row>, k: nat, limit: nat, fetched: seq<Row>, data: seq<Row>)
    requires k <= |all| && limit > 0 && fetched == Take(all[k..], limit + 1)
    requires data <= fetched && |data| == if |fetched| > limit then limit else |fetched|
    ensures k + |data| <= |all| && all[..k] + data == all[..k + |data|]
    ensures if |fetched| > limit then fetched[limit - 1] == all[k + |data| - 1] else k + |data| == |all|
  {
  }

  /** One list request, whose cursor is the last of the `k` rows read so far. */
  method ListPage(table: seq<Row>, project: string, after: Option<nat>, limit: nat, ghost k: nat) returns (page: Page)
    requires IdsDistinct(table) && limit > 0 && k <= |All(table, project)|
    requires after == if k == 0 then None else Some(All(table, project)[k - 1].id)
    ensures var all := All(table, project);
            && k + |page.data| <= |all| && all[..k] + page.data == all[..k + |page.data|] && |page.data| <= limit
            && (if page.next.Some? then |page.data| > 0 && page.next.value == all[k + |page.data| - 1].id
                else k + |page.data| == |all|)
  {
    ListContinues(table, project, k, limit + 1);
    var fetched := List(table, project, after, limit + 1);
    page := Wrap(fetched, limit);
    PageExtends(All(table, project), k, limit, fetched, page.data);
  }

  /**
   A client follows `next_cursor` from the first page until there is none, always asking for
   the same limit. A limit that is refused reads nothing; otherwise the walk stops, and has
   then read the project's rows in order.
   */
  method FollowCursors(table: seq<Row>, project: string, query: Option<int>) returns (r: Result<seq<Row>, LimitError>)
    requires IdsDistinct(table)
    ensures r.Ok? <==> query.None? || 1 <= query.value <= 100
    ensures r.Ok? ==> r.value == All(table, project)
  {
    var limit := FromQuery(query);
    if limit.Err? {
      return Err(limit.error);
    }
    ghost var all := All(table, project);
    var cursor := None;
    var more := true;
    var read := [];
    while more
      invariant |read| <= |all| && read == all[..|read|]
      invariant more ==> cursor == if |read| == 0 then None else Some(all[|read| - 1].id)
      invariant !more ==> read == all
      decreases |all| - |read|, more
    {
      var page := ListPage(table, project, cursor, limit.value, |read|);
      read := read + page.data;
      cursor := page.next;
      more := page.next.Some?;
    }
    return Ok(read);
  }

  /** What a walk reads: exactly the project's rows, each once, in descending (created_at, id). */
  lemma WalkReadsEachOnce(table: seq<Row>, project: string)
    requires IdsDistinct(table)
    ensures var all := All(table, project);
            && (forall i, j :: 0 <= i < j < |all| ==>
                  all[i].createdAt > all[j].createdAt || (all[i].createdAt == all[j].createdAt && all[i].id > all[j].id))
            && (forall row :: row in all <==> row in table && row.project == project)
            && Distinct(all)
  {
    var mine, all := ProjectRows(table, project), All(table, project);
    SelectedAreRows(table, InProject(project));
    SelectKeepsDistinct(table, InProject(project));
    OrderedIsDescending(mine);
    OrderedKeepsRows(mine);
    forall row ensures row in all <==> row in mine {
      SameMembers(all, mine, row);
    }
    forall i, j | 0 <= i < j < |all| ensures all[i] != all[j] {
      assert Before(all[i], all[j]);
    }
  }
}
