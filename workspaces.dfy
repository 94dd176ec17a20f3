/** The read-only queries of convex/workspaces.ts. */
module Workspaces {
  import opened Wrappers
  import opened ConvexSchema

  /** `get`: every row of the Workspaces table, in table order. */
  function Get(db: Db): (rows: seq<Workspace>)
    reads db
    ensures |rows| == |db.workspaces|
    ensures forall i :: 0 <= i < |rows| ==> rows[i] == db.workspaces[i]
  {
    db.workspaces
  }

  /** The first row of `table` named `name`, if any (`filter(...).first()`). */
  function FirstNamed(table: seq<Workspace>, name: string): (r: Option<Workspace>)
    ensures r.Some? ==> r.value.workspaceName == name
    ensures r.Some? ==> exists i :: 0 <= i < |table| && table[i] == r.value
                                    && forall j :: 0 <= j < i ==> table[j].workspaceName != name
    ensures r.None? <==> forall i :: 0 <= i < |table| ==> table[i].workspaceName != name
  {
    if table == [] then None
    else if table[0].workspaceName == name then
      assert table[0] == table[0];
      Some(table[0])
    else
      var r := FirstNamed(table[1..], name);
      assert forall i :: 1 <= i < |table| ==> table[i] == table[1..][i - 1];
      if r.Some? then
        var i :| 0 <= i < |table[1..]| && table[1..][i] == r.value
                 && forall j :: 0 <= j < i ==> table[1..][j].workspaceName != name;
        assert table[i + 1] == r.value;
        r
      else r
  }

  /** `getByName`: the first workspace with that name, or null. */
  function GetByName(db: Db, name: string): (r: Option<Workspace>)
    reads db
    ensures r.Some? ==> r.value.workspaceName == name && r.value in db.workspaces
    ensures r.None? <==> forall w :: w in db.workspaces ==> w.workspaceName != name
  {
    FirstNamed(db.workspaces, name)
  }
}
