/** Reading the dependency table, and impact analysis on what was read. */
module DependencyQuery {
  import opened Options
  import opened Order
  import opened Impact
  import opened CodeIndex

  /** ORDER BY source, target. */
  predicate RowBelow(a: DependencyRow, b: DependencyRow) {
    Below(a.source, b.source) || (a.source == b.source && Below(a.target, b.target))
  }

  ghost predicate Ordered(rows: seq<DependencyRow>) {
    forall i, j | 0 <= i < j < |rows| :: !RowBelow(rows[j], rows[i])
  }

  lemma RowsAreOrdered(a: DependencyRow, b: DependencyRow, c: DependencyRow)
    ensures !RowBelow(b, a) && !RowBelow(c, b) ==> !RowBelow(c, a)
    ensures RowBelow(a, b) ==> !RowBelow(b, a)
  {
    BelowIsTotal(a.source, b.source);
    BelowIsTotal(b.source, c.source);
    BelowIsTotal(a.source, c.source);
    BelowIsTotal(a.target, b.target);
    BelowIsTotal(b.target, c.target);
    BelowIsTotal(a.target, c.target);
    if RowBelow(c, a) && !RowBelow(c, b) && !RowBelow(b, a) {
      if Below(c.source, a.source) {
        if Below(b.source, c.source) {
          BelowIsTransitive(b.source, c.source, a.source);
        }
      } else if Below(c.target, a.target) {
        if b.source == c.source && Below(b.target, c.target) {
          BelowIsTransitive(b.target, c.target, a.target);
        }
      }
    }
  }

  function InsertRow(row: DependencyRow, rows: seq<DependencyRow>): (r: seq<DependencyRow>)
    ensures |r| == |rows| + 1 && forall d :: d in r <==> d == row || d in rows
  {
    if rows == [] then [row]
    else if RowBelow(rows[0], row) then [rows[0]] + InsertRow(row, rows[1..])
    else [row] + rows
  }

  lemma {:induction false} InsertRowOrdered(row: DependencyRow, rows: seq<DependencyRow>)
    requires Ordered(rows)
    ensures Ordered(InsertRow(row, rows))
  {
    if rows != [] {
      if RowBelow(rows[0], row) {
        InsertRowOrdered(row, rows[1..]);
        var rest := InsertRow(row, rows[1..]);
        forall j | 0 <= j < |rest|
          ensures !RowBelow(rest[j], rows[0])
        {
          assert rest[j] in rest;
          RowsAreOrdered(rows[0], row, row);
          if rest[j] != row {
            var k :| 0 <= k < |rows[1..]| && rows[1..][k] == rest[j];
            assert rows[k + 1] == rest[j];
          }
        }
      } else {
        forall j | 0 <= j < |rows|
          ensures !RowBelow(rows[j], row)
        {
          RowsAreOrdered(row, rows[0], rows[j]);
          RowsAreOrdered(rows[0], rows[0], rows[0]);
        }
      }
    }
  }

  /** The WHERE clause: of the project, and with a path given (not None, not empty) at either end of the row. */
  predicate Asked(d: DependencyRow, project: string, path: Option<string>) {
    d.project == project && (path.None? || path.value == "" || d.source == path.value || d.target == path.value)
  }

  /** The rows asked for, in query order. */
  function RowsOf(rows: seq<DependencyRow>, project: string, path: Option<string>): (r: seq<DependencyRow>)
    ensures forall d :: d in r <==> d in rows && Asked(d, project, path)
  {
    if rows == [] then []
    else if Asked(rows[0], project, path) then InsertRow(rows[0], RowsOf(rows[1..], project, path))
    else RowsOf(rows[1..], project, path)
  }

  lemma {:induction false} InsertedOnce(row: DependencyRow, rows: seq<DependencyRow>)
    ensures multiset(InsertRow(row, rows)) == multiset(rows) + multiset{row}
  {
    if rows != [] && RowBelow(rows[0], row) {
      InsertedOnce(row, rows[1..]);
      assert rows == [rows[0]] + rows[1..];
    }
  }

  /** A query returns every row that is asked for as often as the table holds it. */
  lemma {:induction false} RowsAreReturnedOnce(rows: seq<DependencyRow>, project: string, path: Option<string>,
                                               d: DependencyRow)
    ensures multiset(RowsOf(rows, project, path))[d] == if Asked(d, project, path) then multiset(rows)[d] else 0
  {
    if rows != [] {
      RowsAreReturnedOnce(rows[1..], project, path, d);
      InsertedOnce(rows[0], RowsOf(rows[1..], project, path));
      assert rows == [rows[0]] + rows[1..];
    }
  }

  lemma {:induction false} RowsOfOrdered(rows: seq<DependencyRow>, project: string, path: Option<string>)
    ensures Ordered(RowsOf(rows, project, path))
  {
    if rows != [] {
      RowsOfOrdered(rows[1..], project, path);
      if Asked(rows[0], project, path) {
        InsertRowOrdered(rows[0], RowsOf(rows[1..], project, path));
      }
    }
  }

  /** LIMIT keeps the first rows; a negative limit keeps them all. */
  function Limited(rows: seq<DependencyRow>, limit: int): seq<DependencyRow> {
    if 0 <= limit < |rows| then rows[..limit] else rows
  }

  function Dependencies(rows: seq<DependencyRow>, project: string, path: Option<string>, limit: int)
    : seq<DependencyRow>
  {
    Limited(RowsOf(rows, project, path), limit)
  }

  /** What the limit drops never comes before what it keeps, and below the limit nothing is dropped. */
  lemma DependenciesAreTheFirstRows(rows: seq<DependencyRow>, project: string, path: Option<string>, limit: int)
    ensures var r := Dependencies(rows, project, path, limit);
      && Ordered(r)
      && (forall d | d in r :: d in rows && Asked(d, project, path))
      && (forall d, e | d in r && e in rows && Asked(e, project, path) && e !in r :: !RowBelow(e, d))
      && (limit < 0 || |RowsOf(rows, project, path)| <= limit ==>
            forall d | d in rows && Asked(d, project, path) :: d in r)
  {
    hide Asked;
    RowsOfOrdered(rows, project, path);
    var all, r := RowsOf(rows, project, path), Dependencies(rows, project, path, limit);
    forall d, e | d in r && e in rows && Asked(e, project, path) && e !in r
      ensures !RowBelow(e, d)
    {
      var i :| 0 <= i < |r| && r[i] == d;
      var j :| 0 <= j < |all| && all[j] == e;
      assert all[i] == d;
    }
  }

  // ------------------------------------------------------------ impact over the index

  function EdgesOf(rows: seq<DependencyRow>): (r: seq<Edge>)
    ensures |r| == |rows| && forall i | 0 <= i < |rows| :: r[i] == Edge(rows[i].source, rows[i].target)
  {
    if rows == [] then [] else [Edge(rows[0].source, rows[0].target)] + EdgesOf(rows[1..])
  }

  /** Distances depend only on which edges there are. */
  lemma {:induction false} SameEdgesSameDistances(a: seq<Edge>, b: seq<Edge>, start: set<string>, d: nat)
    requires forall e :: e in a <==> e in b
    ensures Within(a, start, d) == Within(b, start, d)
  {
    hide DependentsOf;
    if d > 0 {
      SameEdgesSameDistances(a, b, start, d - 1);
      SameEdgesSameDependents(a, b, Within(a, start, d - 1));
    }
  }

  lemma SameEdgesSameDependents(a: seq<Edge>, b: seq<Edge>, targets: set<string>)
    requires forall e :: e in a <==> e in b
    ensures DependentsOf(a, targets) == DependentsOf(b, targets)
  {
    forall x | x in DependentsOf(a, targets)
      ensures x in DependentsOf(b, targets)
    {
      var e :| e in a && e.target in targets && e.source == x;
      assert e in b;
    }
    forall x | x in DependentsOf(b, targets)
      ensures x in DependentsOf(a, targets)
    {
      var e :| e in b && e.target in targets && e.source == x;
      assert e in a;
    }
  }

  /** The whole import graph of a project, as the table holds it. */
  ghost predicate Imports(rows: seq<DependencyRow>, project: string, edge: Edge) {
    exists d | d in rows :: d.project == project && d.source == edge.source && d.target == edge.target
  }

  /** The edges of a query are imports of the project, and below the limit all of them. */
  lemma QueriedEdges(rows: seq<DependencyRow>, project: string, limit: int)
    ensures var edges := EdgesOf(Dependencies(rows, project, None, limit));
      && (forall e | e in edges :: Imports(rows, project, e))
      && (limit < 0 || |RowsOf(rows, project, None)| <= limit ==> forall e | Imports(rows, project, e) :: e in edges)
  {
    DependenciesAreTheFirstRows(rows, project, None, limit);
    var r := Dependencies(rows, project, None, limit);
    var edges := EdgesOf(r);
    forall e | e in edges
      ensures Imports(rows, project, e)
    {
      var i :| 0 <= i < |edges| && edges[i] == e;
      assert r[i] in r;
    }
    if limit < 0 || |RowsOf(rows, project, None)| <= limit {
      forall e | Imports(rows, project, e)
        ensures e in edges
      {
        var d :| d in rows && d.project == project && d.source == e.source && d.target == e.target;
        assert Asked(d, project, None) && d in r;
        var i :| 0 <= i < |r| && r[i] == d;
        assert edges[i] == e;
      }
    }
  }

  lemma {:induction false} MoreEdgesReachMore(a: seq<Edge>, b: seq<Edge>, start: set<string>, d: nat)
    requires forall e | e in a :: e in b
    ensures Within(a, start, d) <= Within(b, start, d)
  {
    if d > 0 {
      MoreEdgesReachMore(a, b, start, d - 1);
      var closer := Within(a, start, d - 1);
      forall x | x in DependentsOf(a, closer)
        ensures x in DependentsOf(b, Within(b, start, d - 1))
      {
        var e :| e in a && e.target in closer && e.source == x;
        assert e in b;
      }
    }
  }

  lemma ReachesInMore(a: seq<Edge>, b: seq<Edge>, start: set<string>)
    requires forall e | e in a :: e in b
    ensures forall x | Reaches(a, start, x) :: Reaches(b, start, x)
  {
    forall x | Reaches(a, start, x)
      ensures Reaches(b, start, x)
    {
      var d: nat :| x in Within(a, start, d);
      MoreEdgesReachMore(a, b, start, d);
    }
  }

  const EDGE_LIMIT := 2000

  /**
   * Impact analysis of an indexed project: the edges come from a query limited to 2000 rows. Whatever the
   * number of rows, an answer is a true dependent in the whole import graph, and the answers are exactly the
   * dependents in the part that was queried; up to 2000 rows that part is the whole graph, however it is listed.
   */
  method ProjectImpact(rows: seq<DependencyRow>, project: string, changedPaths: seq<string>, limit: int,
                       ghost graph: seq<Edge>)
    returns (impacted: seq<string>)
    requires forall e :: e in graph <==> Imports(rows, project, e)
    ensures Ascending(impacted) && Elements(impacted) !! Elements(changedPaths)
    ensures forall x | x in impacted :: Reaches(graph, Elements(changedPaths), x)
    ensures |impacted| + |Elements(changedPaths)| < limit ==>
      forall x :: x in impacted <==>
        Reaches(EdgesOf(Dependencies(rows, project, None, EDGE_LIMIT)), Elements(changedPaths), x) && x !in changedPaths
    ensures |RowsOf(rows, project, None)| <= EDGE_LIMIT && |impacted| + |Elements(changedPaths)| < limit ==>
      forall x :: x in impacted <==> Reaches(graph, Elements(changedPaths), x) && x !in changedPaths
    ensures |RowsOf(rows, project, None)| <= EDGE_LIMIT ==>
      ClosestFirst(graph, Elements(changedPaths), Elements(impacted) + Elements(changedPaths))
  {
    hide Dependencies, Reaches, ClosestFirst, Imports;
    var edges := EdgesOf(Dependencies(rows, project, None, EDGE_LIMIT));
    impacted := ReverseImpact(edges, changedPaths, limit);
    QueriedEdges(rows, project, EDGE_LIMIT);
    ReachesInMore(edges, graph, Elements(changedPaths));
    if |RowsOf(rows, project, None)| <= EDGE_LIMIT {
      SameEdgesSameAnswers(edges, graph, Elements(changedPaths));
    }
  }

  lemma SameEdgesSameAnswers(a: seq<Edge>, b: seq<Edge>, start: set<string>)
    requires forall e :: e in a <==> e in b
    ensures forall x :: Reaches(a, start, x) <==> Reaches(b, start, x)
    ensures forall seen :: ClosestFirst(a, start, seen) <==> ClosestFirst(b, start, seen)
  {
    forall d: nat
      ensures Within(a, start, d) == Within(b, start, d)
    {
      SameEdgesSameDistances(a, b, start, d);
    }
  }
}
