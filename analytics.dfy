/** The Analytics table's mutation and its per-workspace summary (convex/analytics.ts). */
module Analytics {
  import opened ConvexSchema

  /** `insert`: appends the event row and touches nothing else. */
  method Insert(db: Db, row: AnalyticsRow)
    modifies db
    ensures db.analytics == old(db.analytics) + [row]
    ensures db.workspaces == old(db.workspaces) && db.users == old(db.users)
    ensures db.nextId == old(db.nextId)
  {
    db.analytics := db.analytics + [row];
  }

  /** The quick metrics of one workspace. */
  datatype Summary = Summary(submissions: nat, qualified: nat)

  /** The rows of `rows` that belong to the workspace `name`, in order. */
  function RowsOf(rows: seq<AnalyticsRow>, name: string): (r: seq<AnalyticsRow>)
    ensures |r| <= |rows|
    ensures forall i :: 0 <= i < |r| ==> r[i].workspaceName == name && r[i] in rows
    ensures (forall i :: 0 <= i < |rows| ==> rows[i].workspaceName != name) ==> r == []
    ensures forall i :: 0 <= i < |rows| && rows[i].workspaceName == name ==> rows[i] in r
  {
    if rows == [] then []
    else RowsOf(rows[..|rows| - 1], name)
         + (if rows[|rows| - 1].workspaceName == name then [rows[|rows| - 1]] else [])
  }

  /** Selecting the rows of a workspace keeps their order: the rows of a concatenation are the rows of each part, in turn. */
  lemma {:induction false} RowsOfAppend(a: seq<AnalyticsRow>, b: seq<AnalyticsRow>, name: string)
    ensures RowsOf(a + b, name) == RowsOf(a, name) + RowsOf(b, name)
  {
    if b == [] {
      assert a + b == a;
    } else {
      assert (a + b)[..|a + b| - 1] == a + b[..|b| - 1];
      RowsOfAppend(a, b[..|b| - 1], name);
    }
  }

  /** A single row is kept exactly when it belongs to the workspace. */
  lemma RowsOfOne(row: AnalyticsRow, name: string)
    ensures RowsOf([row], name) == if row.workspaceName == name then [row] else []
  {
    assert [row][..0] == [];
  }

  /** How many rows carry a positive verdict. */
  function QualifiedCount(rows: seq<AnalyticsRow>): nat {
    if rows == [] then 0
    else QualifiedCount(rows[..|rows| - 1]) + (if rows[|rows| - 1].qualified.result then 1 else 0)
  }

  /** `summaryForWorkspaceName` over a list of rows. */
  function Summarize(rows: seq<AnalyticsRow>, name: string): (s: Summary)
    ensures s.qualified <= s.submissions
    ensures (forall i :: 0 <= i < |rows| ==> rows[i].workspaceName != name) ==> s == Summary(0, 0)
  {
    var mine := RowsOf(rows, name);
    QualifiedCountBound(mine);
    Summary(|mine|, QualifiedCount(mine))
  }

  /** `summaryForWorkspaceName`: submissions and qualified leads of one workspace. */
  function SummaryForWorkspaceName(db: Db, name: string): (s: Summary)
    reads db
    ensures s.qualified <= s.submissions <= |db.analytics|
  {
    Summarize(db.analytics, name)
  }

  lemma {:induction false} QualifiedCountBound(rows: seq<AnalyticsRow>)
    ensures QualifiedCount(rows) <= |rows|
  {
    if rows != [] {
      QualifiedCountBound(rows[..|rows| - 1]);
    }
  }

  /**
   * Inserting a row counts one more submission of its own workspace (and one
   * more qualified lead when its verdict is positive), and leaves every other
   * workspace's summary as it was.
   */
  lemma SummaryAfterInsert(rows: seq<AnalyticsRow>, row: AnalyticsRow, name: string)
    ensures var before := Summarize(rows, name);
            Summarize(rows + [row], name)
            == if row.workspaceName == name
               then Summary(before.submissions + 1, before.qualified + (if row.qualified.result then 1 else 0))
               else before
  {
    var all := rows + [row];
    assert all[..|all| - 1] == rows;
    var mine := RowsOf(rows, name);
    if row.workspaceName == name {
      assert RowsOf(all, name) == mine + [row];
      assert (mine + [row])[..|mine|] == mine;
    } else {
      assert RowsOf(all, name) == mine;
    }
  }
}
