/** The resource tree of src/db/resource.rs: `build_tree` consumes two maps level by level. */
module ResourceForest {
  import opened Schema
  import opened TextOrder

  type Id = int
  type Permission = int

  datatype Resource = Resource(id: Id, parent: Option<Id>, displayOrder: int, code: string)

  datatype Node = Node(resource: Resource, permissions: seq<Permission>, children: seq<Node>)

  type Groups = map<Option<Id>, seq<Resource>>
  type Permissions = map<Id, seq<Permission>>

  /** `sort_by` of the source: by display order, then by code. */
  predicate SortsBefore(a: Resource, b: Resource) {
    a.displayOrder < b.displayOrder || (a.displayOrder == b.displayOrder && Less(a.code, b.code))
  }

  /** After every sibling that does not sort behind it: the sort is stable. */
  function Insert(r: Resource, sorted: seq<Resource>): seq<Resource> {
    if sorted == [] || !SortsBefore(r, sorted[|sorted| - 1]) then sorted + [r]
    else Insert(r, sorted[..|sorted| - 1]) + [sorted[|sorted| - 1]]
  }

  function Sorted(siblings: seq<Resource>): seq<Resource> {
    if siblings == [] then [] else Insert(siblings[|siblings| - 1], Sorted(siblings[..|siblings| - 1]))
  }

  function PermissionsOf(permissions: Permissions, id: Id): seq<Permission> {
    if id in permissions then permissions[id] else []
  }

  function Ids(resources: seq<Resource>): set<Id> {
    set r | r in resources :: r.id
  }

  /** The parent, unless it is not among the resources. */
  function ParentKey(r: Resource, ids: set<Id>): Option<Id> {
    if r.parent.Some? && r.parent.value in ids then r.parent else None
  }

  function GroupOf(groups: Groups, key: Option<Id>): seq<Resource> {
    if key in groups then groups[key] else []
  }

  /** `children_by_parent`, filled in input order. */
  function Grouped(resources: seq<Resource>, ids: set<Id>): Groups {
    if resources == [] then map[]
    else
      var groups, last := Grouped(resources[..|resources| - 1], ids), resources[|resources| - 1];
      groups[ParentKey(last, ids) := GroupOf(groups, ParentKey(last, ids)) + [last]]
  }

  datatype Built = Built(nodes: seq<Node>, groups: Groups, permissions: Permissions)

  /** `build_level`: the subtrees below a key, and what is left of the two maps. */
  function Level(key: Option<Id>, groups: Groups, permissions: Permissions): (b: Built)
    ensures b.groups.Keys <= groups.Keys
    decreases groups.Keys, 0, 0
  {
    if key !in groups then Built([], groups, permissions)
    else
      assert groups.Keys - {key} < groups.Keys;
      Siblings(Sorted(groups[key]), groups - {key}, permissions)
  }

  /** The nodes of a list of siblings, one after another. */
  function Siblings(rest: seq<Resource>, groups: Groups, permissions: Permissions): (b: Built)
    ensures b.groups.Keys <= groups.Keys
    decreases groups.Keys, 1, |rest|
  {
    if rest == [] then Built([], groups, permissions)
    else
      var r := rest[0];
      var below := Level(Some(r.id), groups, permissions - {r.id});
      assert below.groups.Keys < groups.Keys || below.groups.Keys == groups.Keys;
      var others := Siblings(rest[1..], below.groups, below.permissions);
      Built([Node(r, PermissionsOf(permissions, r.id), below.nodes)] + others.nodes, others.groups, others.permissions)
  }

  lemma SiblingsUnfold(rest: seq<Resource>, groups: Groups, permissions: Permissions)
    requires rest != []
    ensures var below := Level(Some(rest[0].id), groups, permissions - {rest[0].id});
            var others := Siblings(rest[1..], below.groups, below.permissions);
            Siblings(rest, groups, permissions)
            == Built([Node(rest[0], PermissionsOf(permissions, rest[0].id), below.nodes)] + others.nodes,
                     others.groups, others.permissions)
  {
  }

  lemma NoMoreSiblings(rest: seq<Resource>, groups: Groups, permissions: Permissions)
    requires rest == []
    ensures Siblings(rest, groups, permissions) == Built([], groups, permissions)
  {
  }

  /** The two maps that the recursion consumes. */
  class TreeBuilder {
    var childrenByParent: Groups
    var permissionMap: Permissions

    constructor (permissions: Permissions)
      ensures childrenByParent == map[] && permissionMap == permissions
    {
      childrenByParent := map[];
      permissionMap := permissions;
    }

    /** Ends on every parent graph: each call that goes deeper has removed its key. */
    method BuildLevel(parent: Option<Id>) returns (nodes: seq<Node>)
      modifies this
      ensures Built(nodes, childrenByParent, permissionMap) == Level(parent, old(childrenByParent), old(permissionMap))
      decreases childrenByParent.Keys
    {
      nodes := [];
      if parent !in childrenByParent {
        return;
      }
      ghost var keys := childrenByParent.Keys;
      var children := Sorted(childrenByParent[parent]);
      childrenByParent := childrenByParent - {parent};
      ghost var all := Siblings(children, childrenByParent, permissionMap);
      assert Level(parent, old(childrenByParent), old(permissionMap)) == all;
      hide Level, Siblings, Sorted;
      assert children[0..] == children;
      var i := 0;
      while i < |children|
        invariant 0 <= i <= |children|
        invariant childrenByParent.Keys < keys
        invariant var rest := Siblings(children[i..], childrenByParent, permissionMap);
                  all == Built(nodes + rest.nodes, rest.groups, rest.permissions)
      {
        SiblingsUnfold(children[i..], childrenByParent, permissionMap);
        var resource := children[i];
        var permissions := PermissionsOf(permissionMap, resource.id);
        permissionMap := permissionMap - {resource.id};
        var below := BuildLevel(Some(resource.id));
        assert children[i..][1..] == children[i + 1..];
        nodes := nodes + [Node(resource, permissions, below)];
        i := i + 1;
      }
      NoMoreSiblings(children[i..], childrenByParent, permissionMap);
    }
  }
}
