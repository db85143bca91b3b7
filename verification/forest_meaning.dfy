/** What `build_tree` returns: the forest of parent chains that start at a root. */
module ForestMeaning {
  import opened Schema
  import opened TextOrder
  import opened ResourceForest

  /** What the builder starts from. */
  datatype Input = Input(resources: seq<Resource>, ids: set<Id>, groups: Groups, permissions: Permissions)

  /** The grouping that `build_tree` computes, over rows whose `id` is a primary key. */
  ghost predicate ValidInput(c: Input) {
    && c.ids == Ids(c.resources)
    && c.groups == Grouped(c.resources, c.ids)
    && UniqueIds(c.resources)
  }

  ghost predicate UniqueIds(resources: seq<Resource>) {
    forall i, j | 0 <= i < j < |resources| :: resources[i].id != resources[j].id
  }

  /** The resources below a key, in input order. */
  function ChildrenOf(resources: seq<Resource>, ids: set<Id>, key: Option<Id>): seq<Resource> {
    if resources == [] then []
    else
      var init, last := ChildrenOf(resources[..|resources| - 1], ids, key), resources[|resources| - 1];
      if ParentKey(last, ids) == key then init + [last] else init
  }

  function Listed(nodes: seq<Node>): seq<Resource> {
    seq(|nodes|, i requires 0 <= i < |nodes| => nodes[i].resource)
  }

  /** The nodes are all the resources below the key, in order, each with its own permissions and
    * above its own subtree. */
  ghost predicate IsForest(c: Input, nodes: seq<Node>, key: Option<Id>)
    decreases nodes
  {
    && Listed(nodes) == Sorted(ChildrenOf(c.resources, c.ids, key))
    && forall i | 0 <= i < |nodes| :: IsTree(c, nodes[i])
  }

  ghost predicate IsTree(c: Input, node: Node)
    decreases node
  {
    && node.permissions == PermissionsOf(c.permissions, node.resource.id)
    && IsForest(c, node.children, Some(node.resource.id))
  }

  lemma {:induction false} GroupsAreChildren(resources: seq<Resource>, ids: set<Id>, key: Option<Id>)
    ensures GroupOf(Grouped(resources, ids), key) == ChildrenOf(resources, ids, key)
    ensures key in Grouped(resources, ids) <==> ChildrenOf(resources, ids, key) != []
  {
    if resources != [] {
      GroupsAreChildren(resources[..|resources| - 1], ids, key);
    }
  }

  lemma {:induction false} ChildrenAre(resources: seq<Resource>, ids: set<Id>, key: Option<Id>, r: Resource)
    ensures r in ChildrenOf(resources, ids, key) <==> r in resources && ParentKey(r, ids) == key
  {
    if resources != [] {
      var init, last := resources[..|resources| - 1], resources[|resources| - 1];
      ChildrenAre(init, ids, key, r);
      assert r in resources <==> r in init || r == last;
    }
  }

  lemma {:induction false} ChildrenUnique(resources: seq<Resource>, ids: set<Id>, key: Option<Id>)
    requires UniqueIds(resources)
    ensures UniqueIds(ChildrenOf(resources, ids, key))
  {
    if resources != [] {
      var n := |resources| - 1;
      var init, last := resources[..n], resources[n];
      ChildrenUnique(init, ids, key);
      var below := ChildrenOf(init, ids, key);
      forall i | 0 <= i < |below|
        ensures below[i].id != last.id
      {
        ChildrenAre(init, ids, key, below[i]);
        var j :| 0 <= j < |init| && init[j] == below[i];
        assert resources[j].id != resources[n].id;
      }
    }
  }

  lemma {:induction false} InsertKeeps(r: Resource, sorted: seq<Resource>)
    ensures multiset(Insert(r, sorted)) == multiset(sorted) + multiset{r}
  {
    if sorted != [] && SortsBefore(r, sorted[|sorted| - 1]) {
      var init, last := sorted[..|sorted| - 1], sorted[|sorted| - 1];
      InsertKeeps(r, init);
      assert sorted == init + [last];
    }
  }

  lemma {:induction false} SortedKeeps(siblings: seq<Resource>)
    ensures multiset(Sorted(siblings)) == multiset(siblings)
  {
    if siblings != [] {
      var init, last := siblings[..|siblings| - 1], siblings[|siblings| - 1];
      SortedKeeps(init);
      InsertKeeps(last, Sorted(init));
      assert siblings == init + [last];
    }
  }

  ghost predicate Ordered(siblings: seq<Resource>) {
    forall i, j | 0 <= i < j < |siblings| :: !SortsBefore(siblings[j], siblings[i])
  }

  lemma BeforeIsTransitive(a: Resource, b: Resource, c: Resource)
    requires SortsBefore(a, b) && !SortsBefore(c, b)
    ensures SortsBefore(a, c)
  {
    if a.displayOrder == b.displayOrder == c.displayOrder {
      LessIsStrict(c.code, b.code);
      if b.code != c.code {
        LessTransitive(a.code, b.code, c.code);
      }
    }
  }

  lemma {:induction false} InsertOrders(r: Resource, sorted: seq<Resource>)
    requires Ordered(sorted)
    ensures Ordered(Insert(r, sorted))
  {
    hide SortsBefore;
    if sorted == [] {
    } else if SortsBefore(r, Last(sorted)) {
      var init, last := sorted[..|sorted| - 1], Last(sorted);
      InsertOrders(r, init);
      var inserted := Insert(r, init);
      forall i | 0 <= i < |inserted|
        ensures !SortsBefore(last, inserted[i])
      {
        InsertKeeps(r, init);
        assert inserted[i] in multiset(inserted);
        BeforeIsAsymmetric(r, last);
        assert inserted[i] == r || inserted[i] in init;
      }
    } else {
      forall i | 0 <= i < |sorted|
        ensures !SortsBefore(r, sorted[i])
      {
        if SortsBefore(r, sorted[i]) && i < |sorted| - 1 {
          BeforeIsTransitive(r, sorted[i], Last(sorted));
        }
      }
    }
  }

  function Last(rows: seq<Resource>): Resource
    requires rows != []
  {
    rows[|rows| - 1]
  }

  lemma BeforeIsAsymmetric(a: Resource, b: Resource)
    ensures !(SortsBefore(a, b) && SortsBefore(b, a))
  {
    LessIsStrict(a.code, b.code);
  }

  /** Siblings come out ordered by display order and code. */
  lemma {:induction false} SortedOrders(siblings: seq<Resource>)
    ensures Ordered(Sorted(siblings))
  {
    if siblings != [] {
      SortedOrders(siblings[..|siblings| - 1]);
      InsertOrders(Last(siblings), Sorted(siblings[..|siblings| - 1]));
    }
  }

  /** The siblings of one display order and code. */
  function OfRank(siblings: seq<Resource>, displayOrder: int, code: string): seq<Resource> {
    if siblings == [] then []
    else
      var init, last := OfRank(siblings[..|siblings| - 1], displayOrder, code), Last(siblings);
      if last.displayOrder == displayOrder && last.code == code then init + [last] else init
  }

  lemma {:induction false} InsertIsStable(r: Resource, sorted: seq<Resource>, displayOrder: int, code: string)
    ensures OfRank(Insert(r, sorted), displayOrder, code) == OfRank(sorted + [r], displayOrder, code)
  {
    assert (sorted + [r])[..|sorted|] == sorted;
    if sorted != [] && SortsBefore(r, Last(sorted)) {
      var init, last := sorted[..|sorted| - 1], Last(sorted);
      InsertIsStable(r, init, displayOrder, code);
      assert (init + [r])[..|init|] == init;
      var inserted := Insert(r, init);
      assert (inserted + [last])[..|inserted|] == inserted;
      LessIsStrict(r.code, last.code);
    }
  }

  /** The sort is stable: siblings of one display order and code keep their input order. */
  lemma {:induction false} SortedIsStable(siblings: seq<Resource>, displayOrder: int, code: string)
    ensures OfRank(Sorted(siblings), displayOrder, code) == OfRank(siblings, displayOrder, code)
  {
    if siblings != [] {
      var init := siblings[..|siblings| - 1];
      SortedIsStable(init, displayOrder, code);
      InsertIsStable(Last(siblings), Sorted(init), displayOrder, code);
      assert (Sorted(init) + [Last(siblings)])[..|Sorted(init)|] == Sorted(init);
    }
  }
}
