/** The recursive visibility query of src/db/resource.rs, and what the tree built from it shows. */
module Visibility {
  import opened Schema
  import opened ResourceForest
  import opened ForestMeaning
  import opened ForestBuilding
  import opened ForestChains

  /** A row of `resources`; `scope` is its `organization_id`. */
  datatype Row = Row(resource: Resource, scope: Option<OrganizationId>, active: bool)

  type Table = map<Id, Row>

  ghost predicate ValidTable(table: Table) {
    forall id | id in table :: table[id].resource.id == id
  }

  /** The row a query of `scope` may add as a parent. */
  predicate Enterable(table: Table, scope: Option<OrganizationId>, id: Id) {
    id in table && table[id].active && table[id].scope == scope
  }

  /** The parent of a row, when the query would add it. */
  function ParentIn(table: Table, scope: Option<OrganizationId>, r: Resource): Option<Id> {
    if r.parent.Some? && Enterable(table, scope, r.parent.value) then r.parent else None
  }

  /** One round of the recursive term. */
  function ParentsOf(table: Table, scope: Option<OrganizationId>, visible: set<Id>): set<Id> {
    set p | p in table
            && exists id | id in visible :: id in table && ParentIn(table, scope, table[id].resource) == Some(p)
  }

  /** `WITH RECURSIVE visible`: rounds until one adds nothing. */
  function Visible(table: Table, scope: Option<OrganizationId>, visible: set<Id>): set<Id>
    decreases table.Keys - visible
  {
    var parents := ParentsOf(table, scope, visible);
    if parents <= visible then visible
    else
      assert exists p :: p in parents && p !in visible;
      assert table.Keys - (visible + parents) < table.Keys - visible;
      Visible(table, scope, visible + parents)
  }

  ghost predicate Closed(table: Table, scope: Option<OrganizationId>, ids: set<Id>) {
    forall id | id in ids && id in table && ParentIn(table, scope, table[id].resource).Some? ::
      ParentIn(table, scope, table[id].resource).value in ids
  }

  /** The query returns the least set that holds the permitted rows and every active parent of
    * the scope of a row it holds. */
  lemma {:induction false} VisibleIsLeast(table: Table, scope: Option<OrganizationId>, permitted: set<Id>)
    ensures permitted <= Visible(table, scope, permitted)
    ensures Closed(table, scope, Visible(table, scope, permitted))
    ensures forall ids | permitted <= ids && Closed(table, scope, ids) :: Visible(table, scope, permitted) <= ids
    decreases table.Keys - permitted
  {
    var parents := ParentsOf(table, scope, permitted);
    if parents <= permitted {
      forall id | id in permitted && id in table && ParentIn(table, scope, table[id].resource).Some?
        ensures ParentIn(table, scope, table[id].resource).value in permitted
      {
        assert ParentIn(table, scope, table[id].resource).value in parents;
      }
    } else {
      var p :| p in parents && p !in permitted;
      assert p in table.Keys - permitted && p !in table.Keys - (permitted + parents);
      VisibleIsLeast(table, scope, permitted + parents);
      forall ids | permitted <= ids && Closed(table, scope, ids)
        ensures permitted + parents <= ids
      {
      }
    }
  }

  /** A line of rows from the top down to a last one, each the parent of the next, whose first has
    * no parent that the query would add. */
  ghost predicate AncestorLine(table: Table, scope: Option<OrganizationId>, line: seq<Resource>) {
    && line != []
    && (forall i | 0 <= i < |line| :: line[i].id in table && table[line[i].id].resource == line[i])
    && ParentIn(table, scope, line[0]) == None
    && (forall i | 0 < i < |line| :: ParentIn(table, scope, line[i]) == Some(line[i - 1].id))
  }

  /** The result set: one row per visible id. */
  ghost predicate Enumerates(table: Table, rows: seq<Resource>, ids: set<Id>) {
    && UniqueIds(rows)
    && Ids(rows) == ids
    && forall r | r in rows :: r.id in table && table[r.id].resource == r
  }

  /** Among visible rows, the parent key of `build_tree` is the parent that the query follows. */
  lemma ParentsAgree(table: Table, scope: Option<OrganizationId>, rows: seq<Resource>, ids: set<Id>, r: Resource)
    requires ValidTable(table) && Enumerates(table, rows, ids) && Closed(table, scope, ids) && r in rows
    requires forall id | id in ids :: Enterable(table, scope, id)
    ensures ParentKey(r, ids) == ParentIn(table, scope, r)
  {
    assert r.id in Ids(rows);
  }

  /** The permitted rows are active rows of the scope, and so is everything visible. */
  lemma VisibleIsEnterable(table: Table, scope: Option<OrganizationId>, permitted: set<Id>)
    requires forall id | id in permitted :: Enterable(table, scope, id)
    ensures forall id | id in Visible(table, scope, permitted) :: Enterable(table, scope, id)
  {
    var ids := set id | id in table && Enterable(table, scope, id);
    VisibleIsLeast(table, scope, permitted);
    forall id | id in permitted
      ensures id in ids
    {
      assert Enterable(table, scope, id);
    }
    assert Closed(table, scope, ids);
  }

  /** A line of rows, each the parent of the next, from `id` down to a permitted row. */
  ghost predicate LeadsToPermitted(table: Table, scope: Option<OrganizationId>, permitted: set<Id>, id: Id,
                                   line: seq<Resource>)
  {
    && line != []
    && line[0].id == id
    && line[|line| - 1].id in permitted
    && (forall i | 0 <= i < |line| :: line[i].id in table && table[line[i].id].resource == line[i])
    && (forall i | 0 < i < |line| :: ParentIn(table, scope, line[i]) == Some(line[i - 1].id))
  }

  ghost predicate AbovePermitted(table: Table, scope: Option<OrganizationId>, permitted: set<Id>, id: Id) {
    exists line :: LeadsToPermitted(table, scope, permitted, id, line)
  }

  lemma AboveIsClosed(table: Table, scope: Option<OrganizationId>, permitted: set<Id>, id: Id)
    requires ValidTable(table) && AbovePermitted(table, scope, permitted, id) && id in table
    requires ParentIn(table, scope, table[id].resource).Some?
    ensures AbovePermitted(table, scope, permitted, ParentIn(table, scope, table[id].resource).value)
  {
    var line :| LeadsToPermitted(table, scope, permitted, id, line);
    var parent := ParentIn(table, scope, table[id].resource).value;
    var longer := [table[parent].resource] + line;
    forall i | 0 < i < |longer|
      ensures ParentIn(table, scope, longer[i]) == Some(longer[i - 1].id)
    {
      assert longer[i] == line[i - 1];
      if i > 1 {
        assert longer[i - 1] == line[i - 2];
      }
    }
    assert LeadsToPermitted(table, scope, permitted, parent, longer);
  }

  lemma {:induction false} ClosedUpwards(table: Table, scope: Option<OrganizationId>, ids: set<Id>,
                                         line: seq<Resource>, i: nat)
    requires Closed(table, scope, ids) && i < |line| && line[|line| - 1].id in ids
    requires forall j | 0 <= j < |line| :: line[j].id in table && table[line[j].id].resource == line[j]
    requires forall j | 0 < j < |line| :: ParentIn(table, scope, line[j]) == Some(line[j - 1].id)
    ensures line[i].id in ids
    decreases |line| - i
  {
    if i < |line| - 1 {
      ClosedUpwards(table, scope, ids, line, i + 1);
      assert ParentIn(table, scope, line[i + 1]) == Some(line[i].id);
    }
  }

  /** A row is visible exactly when it is permitted or an ancestor of a permitted row. */
  lemma VisibleIffAbovePermitted(table: Table, scope: Option<OrganizationId>, permitted: set<Id>, id: Id)
    requires ValidTable(table) && permitted <= table.Keys
    ensures id in Visible(table, scope, permitted) <==> AbovePermitted(table, scope, permitted, id)
  {
    VisibleIsLeast(table, scope, permitted);
    var visible := Visible(table, scope, permitted);
    if AbovePermitted(table, scope, permitted, id) {
      var line :| LeadsToPermitted(table, scope, permitted, id, line);
      ClosedUpwards(table, scope, visible, line, 0);
    }
    hide LeadsToPermitted, ParentIn, Visible;
    AboveHoldsVisible(table, scope, permitted);
  }

  lemma AboveHoldsVisible(table: Table, scope: Option<OrganizationId>, permitted: set<Id>)
    requires ValidTable(table) && permitted <= table.Keys
    ensures forall id | id in Visible(table, scope, permitted) :: AbovePermitted(table, scope, permitted, id)
  {
    VisibleIsLeast(table, scope, permitted);
    var above := set x | x in table && AbovePermitted(table, scope, permitted, x);
    forall x | x in permitted
      ensures x in above
    {
      assert LeadsToPermitted(table, scope, permitted, x, [table[x].resource]);
    }
    hide LeadsToPermitted, AbovePermitted, Visible;
    forall x | x in above && ParentIn(table, scope, table[x].resource).Some?
      ensures ParentIn(table, scope, table[x].resource).value in above
    {
      AboveIsClosed(table, scope, permitted, x);
    }
    assert Closed(table, scope, above);
  }

  lemma ChainsAreLines(table: Table, scope: Option<OrganizationId>, rows: seq<Resource>, ids: set<Id>, c: Input,
                       path: seq<Resource>)
    requires ValidTable(table) && Enumerates(table, rows, ids) && Closed(table, scope, ids)
    requires forall id | id in ids :: Enterable(table, scope, id)
    requires c.resources == rows && c.ids == ids && path != []
    ensures Chain(c, None, path) <==> AncestorLine(table, scope, path) && path[|path| - 1].id in ids
  {
    forall r | r in rows
      ensures Key(c, r) == ParentIn(table, scope, r) && r.id in ids
    {
      ParentsAgree(table, scope, rows, ids, r);
      assert r.id in Ids(rows);
    }
    if AncestorLine(table, scope, path) && path[|path| - 1].id in ids {
      forall i | 0 <= i < |path|
        ensures path[i] in rows
      {
        ClosedUpwards(table, scope, ids, path, i);
        assert path[i].id in Ids(rows);
      }
    }
    if Chain(c, None, path) {
      assert path[|path| - 1] in rows;
    }
  }

  /** The tree of an authorized query shows a resource below all its active ancestors of the
    * scope, up to the first missing one, and shows exactly the lines that end in a visible row. */
  lemma TreeShowsVisible(table: Table, scope: Option<OrganizationId>, permitted: set<Id>, rows: seq<Resource>,
                         permissions: Permissions, nodes: seq<Node>, path: seq<Resource>)
    requires ValidTable(table) && (forall id | id in permitted :: Enterable(table, scope, id))
    requires Enumerates(table, rows, Visible(table, scope, permitted)) && path != []
    requires IsForest(InputOf(rows, permissions), nodes, None)
    ensures OnPath(nodes, path)
            <==> AncestorLine(table, scope, path) && AbovePermitted(table, scope, permitted, path[|path| - 1].id)
  {
    hide IsForest, Visible, LeadsToPermitted;
    var c := InputOf(rows, permissions);
    var visible := Visible(table, scope, permitted);
    VisibleIsLeast(table, scope, permitted);
    VisibleIsEnterable(table, scope, permitted);
    PathsAreChains(c, nodes, None, path);
    ChainsAreLines(table, scope, rows, visible, c, path);
    VisibleIffAbovePermitted(table, scope, permitted, path[|path| - 1].id);
  }

  /** The ancestor `k` steps up, following the parents that the query would add. */
  function Ancestor(table: Table, scope: Option<OrganizationId>, r: Resource, k: nat): Option<Resource>
    decreases k
  {
    if k == 0 then Some(r)
    else
      var parent := ParentIn(table, scope, r);
      if parent.None? then None else Ancestor(table, scope, table[parent.value].resource, k - 1)
  }

  /** Going up from `r` comes to an end. */
  ghost predicate OffCycle(table: Table, scope: Option<OrganizationId>, r: Resource) {
    exists k: nat :: Ancestor(table, scope, r, k).None?
  }

  ghost predicate LineTo(table: Table, scope: Option<OrganizationId>, line: seq<Resource>, r: Resource) {
    AncestorLine(table, scope, line) && line[|line| - 1] == r
  }

  lemma LineExtends(table: Table, scope: Option<OrganizationId>, line: seq<Resource>, r: Resource)
    requires AncestorLine(table, scope, line) && r.id in table && table[r.id].resource == r
    requires ParentIn(table, scope, r) == Some(line[|line| - 1].id)
    ensures LineTo(table, scope, line + [r], r)
  {
  }

  lemma {:induction false} EndingHasLine(table: Table, scope: Option<OrganizationId>, r: Resource, k: nat)
    returns (line: seq<Resource>)
    requires ValidTable(table) && r.id in table && table[r.id].resource == r && Ancestor(table, scope, r, k).None?
    ensures LineTo(table, scope, line, r)
    decreases k
  {
    var parent := ParentIn(table, scope, r);
    if parent.None? {
      line := [r];
    } else {
      var above := table[parent.value].resource;
      var upper := EndingHasLine(table, scope, above, k - 1);
      LineExtends(table, scope, upper, r);
      line := upper + [r];
    }
  }

  lemma {:induction false} LineEnds(table: Table, scope: Option<OrganizationId>, line: seq<Resource>, i: nat)
    requires AncestorLine(table, scope, line) && i < |line|
    ensures Ancestor(table, scope, line[i], i + 1).None?
  {
    if i > 0 {
      LineEnds(table, scope, line, i - 1);
      assert ParentIn(table, scope, line[i]) == Some(line[i - 1].id);
    }
  }

  /** A visible resource, a permitted one in particular, is in the tree exactly when going up from
    * it comes to an end: only resources on or below a cycle are missing. */
  lemma ShownIffOffCycle(table: Table, scope: Option<OrganizationId>, permitted: set<Id>, rows: seq<Resource>,
                         permissions: Permissions, nodes: seq<Node>, id: Id)
    requires ValidTable(table) && (forall x | x in permitted :: Enterable(table, scope, x))
    requires Enumerates(table, rows, Visible(table, scope, permitted)) && id in Visible(table, scope, permitted)
    requires IsForest(InputOf(rows, permissions), nodes, None)
    ensures id in table && (table[id].resource in Flatten(nodes) <==> OffCycle(table, scope, table[id].resource))
  {
    hide IsForest, Visible, Flatten, Ancestor;
    var c, visible := InputOf(rows, permissions), Visible(table, scope, permitted);
    VisibleIsLeast(table, scope, permitted);
    VisibleIsEnterable(table, scope, permitted);
    assert Enterable(table, scope, id);
    var r := table[id].resource;
    RootedIsFlattened(c, nodes, r);
    if Rooted(c, r) {
      var path :| Chain(c, None, path) && path[|path| - 1] == r;
      ChainsAreLines(table, scope, rows, visible, c, path);
      LineEnds(table, scope, path, |path| - 1);
    }
    if OffCycle(table, scope, r) {
      var k: nat :| Ancestor(table, scope, r, k).None?;
      var line := EndingHasLine(table, scope, r, k);
      ChainsAreLines(table, scope, rows, visible, c, line);
    }
  }
}
