/** The recursive builder against the declarative forest: although it consumes the maps as it
  * goes, every key and every permission list is still there when its turn comes. */
module ForestBuilding {
  import opened Schema
  import opened ResourceForest
  import opened ForestMeaning

  function Key(c: Input, r: Resource): Option<Id> {
    ParentKey(r, c.ids)
  }

  /** The builder has not come to `r` yet: its group and its permissions are as at the start. */
  ghost predicate Untouched(c: Input, groups: Groups, permissions: Permissions, r: Resource) {
    && (Some(r.id) in c.groups ==> Some(r.id) in groups)
    && PermissionsOf(permissions, r.id) == PermissionsOf(c.permissions, r.id)
  }

  /** The groups left are original ones, and what is still to be listed is untouched. */
  ghost predicate Fresh(c: Input, groups: Groups, permissions: Permissions) {
    && (forall k | k in groups :: k in c.groups && groups[k] == c.groups[k])
    && (forall r | r in c.resources && Key(c, r) in groups :: Untouched(c, groups, permissions, r))
  }

  /** A resource keeps its group and permissions unless its parent's group is used up. */
  ghost predicate Spares(c: Input, before: Groups, permissions: Permissions, b: Built, r: Resource) {
    Untouched(c, before, permissions, r) && !(Key(c, r) in before && Key(c, r) !in b.groups)
    ==> Untouched(c, b.groups, b.permissions, r)
  }

  /** The builder may start on the subtree of `key`. */
  ghost predicate Ready(c: Input, key: Option<Id>, groups: Groups) {
    && (key in c.groups ==> key in groups)
    && forall r | r in c.resources && Some(r.id) == key :: Key(c, r) !in groups
  }

  ghost predicate ReadyList(c: Input, rest: seq<Resource>, parent: Option<Id>, groups: Groups,
                            permissions: Permissions)
  {
    && parent !in groups
    && UniqueIds(rest)
    && forall r | r in rest :: r in c.resources && Key(c, r) == parent && Untouched(c, groups, permissions, r)
  }

  lemma SameId(c: Input, a: Resource, b: Resource)
    requires ValidInput(c) && a in c.resources && b in c.resources && a.id == b.id
    ensures a == b
  {
    var i :| 0 <= i < |c.resources| && c.resources[i] == a;
    var j :| 0 <= j < |c.resources| && c.resources[j] == b;
  }

  lemma GroupIsListed(c: Input, key: Option<Id>)
    requires ValidInput(c)
    ensures GroupOf(c.groups, key) == ChildrenOf(c.resources, c.ids, key)
    ensures key in c.groups <==> ChildrenOf(c.resources, c.ids, key) != []
    ensures UniqueIds(Sorted(GroupOf(c.groups, key)))
    ensures forall r | r in Sorted(GroupOf(c.groups, key)) :: r in c.resources && Key(c, r) == key
    ensures forall r | r in c.resources && Key(c, r) == key :: r in Sorted(GroupOf(c.groups, key))
  {
    GroupsAreChildren(c.resources, c.ids, key);
    var group := ChildrenOf(c.resources, c.ids, key);
    ChildrenUnique(c.resources, c.ids, key);
    SortedUnique(group);
    SortedKeeps(group);
    forall r
      ensures r in Sorted(group) <==> r in c.resources && Key(c, r) == key
    {
      ChildrenAre(c.resources, c.ids, key, r);
      assert r in Sorted(group) <==> r in multiset(Sorted(group));
    }
  }

  lemma {:induction false} InsertUnique(r: Resource, sorted: seq<Resource>)
    requires UniqueIds(sorted) && forall s | s in sorted :: s.id != r.id
    ensures UniqueIds(Insert(r, sorted))
  {
    if sorted != [] && SortsBefore(r, sorted[|sorted| - 1]) {
      var init, last := sorted[..|sorted| - 1], sorted[|sorted| - 1];
      InsertUnique(r, init);
      InsertKeeps(r, init);
      var inserted := Insert(r, init);
      forall i | 0 <= i < |inserted|
        ensures inserted[i].id != last.id
      {
        assert inserted[i] in multiset(inserted);
        assert inserted[i] == r || inserted[i] in init;
        assert last in sorted;
      }
    }
  }

  lemma {:induction false} SortedUnique(siblings: seq<Resource>)
    requires UniqueIds(siblings)
    ensures UniqueIds(Sorted(siblings))
  {
    if siblings != [] {
      var init, last := siblings[..|siblings| - 1], siblings[|siblings| - 1];
      SortedUnique(init);
      SortedKeeps(init);
      forall s | s in Sorted(init)
        ensures s.id != last.id
      {
        assert s in multiset(Sorted(init));
        var i :| 0 <= i < |init| && init[i] == s;
        assert siblings[i] == s;
      }
      InsertUnique(last, Sorted(init));
    }
  }

  /** Taking a group out of the map makes its list ready. */
  lemma TakingMakesReady(c: Input, key: Option<Id>, groups: Groups, permissions: Permissions)
    requires ValidInput(c) && Fresh(c, groups, permissions) && Ready(c, key, groups) && key in groups
    ensures ReadyList(c, Sorted(groups[key]), key, groups - {key}, permissions)
    ensures Fresh(c, groups - {key}, permissions)
  {
    GroupIsListed(c, key);
  }

  /** Coming to the first of the list: taking its permissions touches nothing still to come. */
  lemma FirstIsReady(c: Input, rest: seq<Resource>, parent: Option<Id>, groups: Groups, permissions: Permissions)
    requires ValidInput(c) && Fresh(c, groups, permissions)
    requires ReadyList(c, rest, parent, groups, permissions) && rest != []
    ensures Fresh(c, groups, permissions - {rest[0].id})
    ensures Ready(c, Some(rest[0].id), groups)
    ensures forall r | r in c.resources && r != rest[0] && Untouched(c, groups, permissions, r) ::
              Untouched(c, groups, permissions - {rest[0].id}, r)
  {
    var first := rest[0];
    assert first in rest;
    forall r | r in c.resources && r != first
      ensures r.id != first.id
    {
      if r.id == first.id {
        SameId(c, r, first);
      }
    }
  }

  /** The subtree of the first leaves the later siblings untouched. */
  lemma RestStaysReady(c: Input, rest: seq<Resource>, parent: Option<Id>, groups: Groups, permissions: Permissions,
                       b: Built)
    requires ValidInput(c) && ReadyList(c, rest, parent, groups, permissions) && rest != []
    requires b.groups.Keys <= groups.Keys
    requires forall r | r in c.resources && r != rest[0] && Untouched(c, groups, permissions, r) ::
               Untouched(c, groups, permissions - {rest[0].id}, r)
    requires forall r | r in c.resources && r.id != rest[0].id :: Spares(c, groups, permissions - {rest[0].id}, b, r)
    ensures ReadyList(c, rest[1..], parent, b.groups, b.permissions)
  {
    var tail := rest[1..];
    forall r | r in tail
      ensures r in c.resources && Key(c, r) == parent && Untouched(c, b.groups, b.permissions, r)
    {
      var i :| 0 <= i < |tail| && tail[i] == r;
      assert rest[i + 1] == r && rest[i + 1].id != rest[0].id;
    }
  }

  /** Sparing composes along the list. */
  lemma SparesAlong(c: Input, first: Resource, r: Resource, groups: Groups, permissions: Permissions, b: Built,
                    d: Built)
    requires b.groups.Keys <= groups.Keys && d.groups.Keys <= b.groups.Keys
    requires Untouched(c, groups, permissions, r) ==> Untouched(c, groups, permissions - {first.id}, r)
    requires Spares(c, groups, permissions - {first.id}, b, r) && Spares(c, b.groups, b.permissions, d, r)
    ensures Spares(c, groups, permissions, d, r)
  {
  }

  /** Taking out the group of `key` before its list is built spares every resource but its own. */
  lemma LevelSpares(c: Input, key: Option<Id>, groups: Groups, permissions: Permissions, b: Built, r: Resource)
    requires key in groups && b.groups.Keys <= groups.Keys - {key} && Some(r.id) != key
    requires Key(c, r) != key ==> Spares(c, groups - {key}, permissions, b, r)
    ensures Spares(c, groups, permissions, b, r)
  {
  }

  lemma {:induction false} LevelBuilds(c: Input, key: Option<Id>, groups: Groups, permissions: Permissions)
    requires ValidInput(c) && Fresh(c, groups, permissions) && Ready(c, key, groups)
    ensures var b := Level(key, groups, permissions);
            && IsForest(c, b.nodes, key)
            && Fresh(c, b.groups, b.permissions)
            && forall r | r in c.resources && Some(r.id) != key :: Spares(c, groups, permissions, b, r)
    decreases groups.Keys, 0, 0
  {
    GroupIsListed(c, key);
    if key in groups {
      var list, left := Sorted(groups[key]), groups - {key};
      assert groups[key] == c.groups[key];
      TakingMakesReady(c, key, groups, permissions);
      assert left.Keys < groups.Keys;
      SiblingsBuild(c, list, key, left, permissions);
      hide ValidInput, Fresh, Ready, ReadyList, Untouched, Spares, Sorted, ChildrenOf, Siblings, IsTree;
      var b := Siblings(list, left, permissions);
      forall r | r in c.resources && Some(r.id) != key
        ensures Spares(c, groups, permissions, b, r)
      {
        LevelSpares(c, key, groups, permissions, b, r);
      }
    } else {
      NothingListed(c, key);
    }
  }

  lemma NothingListed(c: Input, key: Option<Id>)
    requires ChildrenOf(c.resources, c.ids, key) == []
    ensures IsForest(c, [], key)
  {
    assert Listed([]) == [];
  }

  lemma {:induction false} SiblingsBuild(c: Input, rest: seq<Resource>, parent: Option<Id>, groups: Groups,
                                         permissions: Permissions)
    requires ValidInput(c) && Fresh(c, groups, permissions) && ReadyList(c, rest, parent, groups, permissions)
    ensures var b := Siblings(rest, groups, permissions);
            && Listed(b.nodes) == rest
            && (forall i | 0 <= i < |b.nodes| :: IsTree(c, b.nodes[i]))
            && Fresh(c, b.groups, b.permissions)
            && forall r | r in c.resources && r !in rest :: Spares(c, groups, permissions, b, r)
    decreases groups.Keys, 1, |rest|
  {
    if rest != [] {
      var first := rest[0];
      var below := Level(Some(first.id), groups, permissions - {first.id});
      assert below.groups.Keys < groups.Keys || below.groups.Keys == groups.Keys;
      FirstIsReady(c, rest, parent, groups, permissions);
      LevelBuilds(c, Some(first.id), groups, permissions - {first.id});
      assert first in rest && first in c.resources;
      hide Fresh, Ready, ReadyList, ValidInput, Untouched, Spares, Level, PermissionsOf, Listed;
      RestStaysReady(c, rest, parent, groups, permissions, below);
      SiblingsBuild(c, rest[1..], parent, below.groups, below.permissions);
      var others := Siblings(rest[1..], below.groups, below.permissions);
      SparesAll(c, rest, groups, permissions, below, others, Siblings(rest, groups, permissions));
      TreesGrow(c, Node(first, PermissionsOf(permissions, first.id), below.nodes), others.nodes);
      ListedGrows(first, PermissionsOf(permissions, first.id), below.nodes, others.nodes, rest);
    }
  }

  lemma SparesAll(c: Input, rest: seq<Resource>, groups: Groups, permissions: Permissions, below: Built,
                  others: Built, all: Built)
    requires ValidInput(c) && rest != [] && rest[0] in c.resources
    requires below.groups.Keys <= groups.Keys && others.groups.Keys <= below.groups.Keys
    requires all.groups == others.groups && all.permissions == others.permissions
    requires forall r | r in c.resources && r != rest[0] && Untouched(c, groups, permissions, r) ::
               Untouched(c, groups, permissions - {rest[0].id}, r)
    requires forall r | r in c.resources && Some(r.id) != Some(rest[0].id) ::
               Spares(c, groups, permissions - {rest[0].id}, below, r)
    requires forall r | r in c.resources && r !in rest[1..] :: Spares(c, below.groups, below.permissions, others, r)
    ensures forall r | r in c.resources && r !in rest :: Spares(c, groups, permissions, all, r)
  {
    hide ValidInput, Untouched;
    forall r | r in c.resources && r !in rest
      ensures Spares(c, groups, permissions, all, r)
    {
      assert rest[0] in rest && forall x | x in rest[1..] :: x in rest;
      if r.id == rest[0].id {
        SameId(c, r, rest[0]);
      }
      SparesAlong(c, rest[0], r, groups, permissions, below, others);
    }
  }

  lemma TreesGrow(c: Input, node: Node, others: seq<Node>)
    requires IsTree(c, node) && forall i | 0 <= i < |others| :: IsTree(c, others[i])
    ensures var all := [node] + others; forall i | 0 <= i < |all| :: IsTree(c, all[i])
  {
    hide IsTree;
  }

  lemma ListedGrows(first: Resource, own: seq<Permission>, below: seq<Node>, others: seq<Node>, rest: seq<Resource>)
    requires rest != [] && rest[0] == first && Listed(others) == rest[1..]
    ensures Listed([Node(first, own, below)] + others) == rest
  {
  }

  ghost function InputOf(resources: seq<Resource>, permissions: Permissions): Input {
    Input(resources, Ids(resources), Grouped(resources, Ids(resources)), permissions)
  }

  lemma LevelOfAll(resources: seq<Resource>, permissions: Permissions)
    requires UniqueIds(resources)
    ensures IsForest(InputOf(resources, permissions),
                     Level(None, Grouped(resources, Ids(resources)), permissions).nodes, None)
  {
    var c := InputOf(resources, permissions);
    LevelBuilds(c, None, c.groups, permissions);
  }

  /** `build_tree`: whatever the parents, cycles and self-parents included, it ends; and over
    * rows with distinct ids it returns the forest of their parent chains. */
  method BuildTree(resources: seq<Resource>, permissions: Permissions) returns (nodes: seq<Node>)
    ensures nodes == Level(None, Grouped(resources, Ids(resources)), permissions).nodes
    ensures UniqueIds(resources) ==> IsForest(InputOf(resources, permissions), nodes, None)
  {
    var ids := Ids(resources);
    var builder := new TreeBuilder(permissions);
    for i := 0 to |resources|
      invariant builder.childrenByParent == Grouped(resources[..i], ids) && builder.permissionMap == permissions
    {
      var resource := resources[i];
      var parent := ParentKey(resource, ids);
      assert resources[..i + 1][..i] == resources[..i];
      builder.childrenByParent :=
        builder.childrenByParent[parent := GroupOf(builder.childrenByParent, parent) + [resource]];
    }
    assert resources[..|resources|] == resources;
    nodes := builder.BuildLevel(None);
    if UniqueIds(resources) {
      LevelOfAll(resources, permissions);
    }
  }
}
