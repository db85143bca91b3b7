/** The forest in terms of parent chains: every chain from a root is a path of it, every path is
  * one, and no resource occurs twice. */
module ForestChains {
  import opened Schema
  import opened ResourceForest
  import opened ForestMeaning
  import opened ForestBuilding

  /** A line of resources, each the parent of the next, whose first is listed under `key`. */
  ghost predicate Chain(c: Input, key: Option<Id>, path: seq<Resource>) {
    && path != []
    && (forall i | 0 <= i < |path| :: path[i] in c.resources)
    && Key(c, path[0]) == key
    && (forall i | 0 < i < |path| :: Key(c, path[i]) == Some(path[i - 1].id))
  }

  /** Following `path` downwards leads through the forest. */
  ghost predicate OnPath(nodes: seq<Node>, path: seq<Resource>)
    requires path != []
    decreases |path|
  {
    exists i | 0 <= i < |nodes| ::
      nodes[i].resource == path[0] && (|path| > 1 ==> OnPath(nodes[i].children, path[1..]))
  }

  lemma ForestLists(c: Input, nodes: seq<Node>, key: Option<Id>)
    requires ValidInput(c) && IsForest(c, nodes, key)
    ensures forall i | 0 <= i < |nodes| :: nodes[i].resource in c.resources && Key(c, nodes[i].resource) == key
    ensures UniqueIds(Listed(nodes))
  {
    GroupIsListed(c, key);
    forall i | 0 <= i < |nodes|
      ensures nodes[i].resource in c.resources && Key(c, nodes[i].resource) == key
    {
      assert Listed(nodes)[i] in Listed(nodes);
    }
  }

  lemma ForestHolds(c: Input, nodes: seq<Node>, key: Option<Id>, r: Resource) returns (i: nat)
    requires ValidInput(c) && IsForest(c, nodes, key) && r in c.resources && Key(c, r) == key
    ensures i < |nodes| && nodes[i].resource == r
  {
    GroupIsListed(c, key);
    assert r in Listed(nodes);
    i :| 0 <= i < |nodes| && Listed(nodes)[i] == r;
  }

  lemma ChainTail(c: Input, key: Option<Id>, path: seq<Resource>)
    requires Chain(c, key, path) && |path| > 1
    ensures Chain(c, Some(path[0].id), path[1..])
  {
    var tail := path[1..];
    assert tail[0] == path[1];
    forall i | 0 < i < |tail|
      ensures Key(c, tail[i]) == Some(tail[i - 1].id)
    {
      assert tail[i] == path[i + 1] && tail[i - 1] == path[i];
    }
  }

  lemma ChainCons(c: Input, key: Option<Id>, r: Resource, tail: seq<Resource>)
    requires r in c.resources && Key(c, r) == key && Chain(c, Some(r.id), tail)
    ensures Chain(c, key, [r] + tail)
  {
    var path := [r] + tail;
    forall i | 0 < i < |path|
      ensures Key(c, path[i]) == Some(path[i - 1].id)
    {
      assert path[i] == tail[i - 1];
      if i > 1 {
        assert path[i - 1] == tail[i - 2];
      }
    }
  }

  /** The paths of the forest are exactly the parent chains. */
  lemma {:induction false} PathsAreChains(c: Input, nodes: seq<Node>, key: Option<Id>, path: seq<Resource>)
    requires ValidInput(c) && IsForest(c, nodes, key) && path != []
    ensures OnPath(nodes, path) <==> Chain(c, key, path)
    decreases |path|
  {
    ForestLists(c, nodes, key);
    if OnPath(nodes, path) {
      var i :| 0 <= i < |nodes| && nodes[i].resource == path[0]
               && (|path| > 1 ==> OnPath(nodes[i].children, path[1..]));
      if |path| > 1 {
        assert IsTree(c, nodes[i]);
        PathsAreChains(c, nodes[i].children, Some(path[0].id), path[1..]);
        ChainCons(c, key, path[0], path[1..]);
        assert path == [path[0]] + path[1..];
      }
    }
    if Chain(c, key, path) {
      var i := ForestHolds(c, nodes, key, path[0]);
      if |path| > 1 {
        assert IsTree(c, nodes[i]);
        ChainTail(c, key, path);
        PathsAreChains(c, nodes[i].children, Some(path[0].id), path[1..]);
      }
    }
  }

  /** A resource is at the end of at most one chain from a root. */
  lemma {:induction false} OneChain(c: Input, p: seq<Resource>, q: seq<Resource>)
    requires ValidInput(c) && Chain(c, None, p) && Chain(c, None, q) && p[|p| - 1] == q[|q| - 1]
    ensures p == q
  {
    var m, n := |p|, |q|;
    assert m > 1 ==> Key(c, p[m - 1]) == Some(p[m - 2].id);
    assert n > 1 ==> Key(c, q[n - 1]) == Some(q[n - 2].id);
    if m > 1 {
      SameId(c, p[m - 2], q[n - 2]);
      OneChain(c, p[..m - 1], q[..n - 1]);
      assert p == p[..m - 1] + [p[m - 1]] && q == q[..n - 1] + [q[n - 1]];
    }
  }

  /** Every resource of the forest, parents before children. */
  function Flatten(nodes: seq<Node>): seq<Resource> {
    if nodes == [] then []
    else [nodes[0].resource] + Flatten(nodes[0].children) + Flatten(nodes[1..])
  }

  /** `nodes` are trees under `key`, with distinct roots. */
  ghost predicate Trees(c: Input, nodes: seq<Node>, key: Option<Id>) {
    && UniqueIds(Listed(nodes))
    && forall i | 0 <= i < |nodes| ::
         IsTree(c, nodes[i]) && nodes[i].resource in c.resources && Key(c, nodes[i].resource) == key
  }

  lemma TreesSplit(c: Input, nodes: seq<Node>, key: Option<Id>)
    requires ValidInput(c) && Trees(c, nodes, key) && nodes != []
    ensures Trees(c, nodes[0].children, Some(nodes[0].resource.id))
    ensures Trees(c, nodes[1..], key)
    ensures forall r | r in Listed(nodes[1..]) :: r.id != nodes[0].resource.id
  {
    assert IsTree(c, nodes[0]);
    ForestLists(c, nodes[0].children, Some(nodes[0].resource.id));
    var tail := nodes[1..];
    assert Listed(tail) == Listed(nodes)[1..];
    forall r | r in Listed(tail)
      ensures r.id != nodes[0].resource.id
    {
      var i :| 0 <= i < |tail| && Listed(tail)[i] == r;
      assert Listed(nodes)[0].id != Listed(nodes)[i + 1].id;
    }
  }

  /** Whatever is flattened is reached by a chain through one of the listed roots. */
  lemma {:induction false} FlattenedHasChain(c: Input, nodes: seq<Node>, key: Option<Id>, r: Resource)
    returns (path: seq<Resource>)
    requires ValidInput(c) && Trees(c, nodes, key) && r in Flatten(nodes)
    ensures Chain(c, key, path) && path[|path| - 1] == r && path[0] in Listed(nodes)
    decreases nodes
  {
    var first := nodes[0];
    TreesSplit(c, nodes, key);
    assert Listed(nodes)[0] == first.resource;
    if r == first.resource {
      path := [r];
    } else if r in Flatten(first.children) {
      var tail := FlattenedHasChain(c, first.children, Some(first.resource.id), r);
      ChainCons(c, key, first.resource, tail);
      path := [first.resource] + tail;
    } else {
      path := FlattenedHasChain(c, nodes[1..], key, r);
      var i :| 0 <= i < |Listed(nodes[1..])| && Listed(nodes[1..])[i] == path[0];
      assert Listed(nodes)[i + 1] == path[0];
    }
  }

  /** `key` is the root level, or the end of a chain `pre` from a root. */
  ghost predicate ReachedBy(c: Input, pre: seq<Resource>, key: Option<Id>) {
    if pre == [] then key == None else Chain(c, None, pre) && key == Some(pre[|pre| - 1].id)
  }

  lemma ChainAppend(c: Input, pre: seq<Resource>, key: Option<Id>, path: seq<Resource>)
    requires ReachedBy(c, pre, key) && Chain(c, key, path)
    ensures Chain(c, None, pre + path)
  {
    var all := pre + path;
    if pre == [] {
      assert all == path;
    } else {
      forall i | 0 < i < |all|
        ensures Key(c, all[i]) == Some(all[i - 1].id)
      {
        if i < |pre| {
          assert all[i] == pre[i] && all[i - 1] == pre[i - 1];
        } else if i > |pre| {
          assert all[i] == path[i - |pre|] && all[i - 1] == path[i - |pre| - 1];
        }
      }
    }
  }

  /** Two chains below one key that end in the same resource are the same. */
  lemma OneChainBelow(c: Input, pre: seq<Resource>, key: Option<Id>, p: seq<Resource>, q: seq<Resource>)
    requires ValidInput(c) && ReachedBy(c, pre, key)
    requires Chain(c, key, p) && Chain(c, key, q) && p[|p| - 1] == q[|q| - 1]
    ensures p == q
  {
    ChainAppend(c, pre, key, p);
    ChainAppend(c, pre, key, q);
    OneChain(c, pre + p, pre + q);
    assert p == (pre + p)[|pre|..] && q == (pre + q)[|pre|..];
  }

  /** A subtree shares no resource with its root or with the trees beside it. */
  lemma SubtreeIsApart(c: Input, nodes: seq<Node>, key: Option<Id>, pre: seq<Resource>, r: Resource)
    requires ValidInput(c) && Trees(c, nodes, key) && ReachedBy(c, pre, key) && nodes != []
    requires r in Flatten(nodes[0].children)
    ensures r != nodes[0].resource && r !in Flatten(nodes[1..])
  {
    var first := nodes[0].resource;
    TreesSplit(c, nodes, key);
    var tail := FlattenedHasChain(c, nodes[0].children, Some(first.id), r);
    ChainCons(c, key, first, tail);
    hide ValidInput, Trees, ReachedBy, Flatten, IsTree;
    if r == first {
      OneChainBelow(c, pre, key, [first], [first] + tail);
    }
    if r in Flatten(nodes[1..]) {
      var other := FlattenedHasChain(c, nodes[1..], key, r);
      OneChainBelow(c, pre, key, other, [first] + tail);
    }
  }

  lemma RootIsApart(c: Input, nodes: seq<Node>, key: Option<Id>, pre: seq<Resource>)
    requires ValidInput(c) && Trees(c, nodes, key) && ReachedBy(c, pre, key) && nodes != []
    ensures nodes[0].resource !in Flatten(nodes[1..])
  {
    var first := nodes[0].resource;
    TreesSplit(c, nodes, key);
    if first in Flatten(nodes[1..]) {
      var other := FlattenedHasChain(c, nodes[1..], key, first);
      OneChainBelow(c, pre, key, other, [first]);
    }
  }

  ghost predicate NoRepeats(resources: seq<Resource>) {
    forall i, j | 0 <= i < j < |resources| :: resources[i] != resources[j]
  }

  lemma ConcatNoRepeats(first: Resource, below: seq<Resource>, beside: seq<Resource>)
    requires NoRepeats(below) && NoRepeats(beside)
    requires forall r | r in below :: r != first && r !in beside
    requires forall r | r in beside :: r != first
    ensures NoRepeats([first] + below + beside)
  {
    var all := [first] + below + beside;
    forall i, j | 0 <= i < j < |all|
      ensures all[i] != all[j]
    {
      assert all[i] == if i == 0 then first else if i <= |below| then below[i - 1] else beside[i - 1 - |below|];
      assert all[j] == if j <= |below| then below[j - 1] else beside[j - 1 - |below|];
      assert j <= |below| ==> all[j] in below;
      assert j > |below| ==> all[j] in beside;
      assert 0 < i <= |below| ==> all[i] in below;
    }
  }

  lemma {:induction false} FlattenedNoRepeats(c: Input, nodes: seq<Node>, key: Option<Id>, pre: seq<Resource>)
    requires ValidInput(c) && Trees(c, nodes, key) && ReachedBy(c, pre, key)
    ensures NoRepeats(Flatten(nodes))
    decreases nodes
  {
    if nodes != [] {
      var first := nodes[0].resource;
      TreesSplit(c, nodes, key);
      ReachedDeeper(c, pre, key, first);
      hide ValidInput, Trees, ReachedBy, NoRepeats;
      FlattenedNoRepeats(c, nodes[0].children, Some(first.id), pre + [first]);
      FlattenedNoRepeats(c, nodes[1..], key, pre);
      var below, beside := Flatten(nodes[0].children), Flatten(nodes[1..]);
      forall r
        ensures r in below ==> r != first && r !in beside
      {
        if r in below {
          SubtreeIsApart(c, nodes, key, pre, r);
        }
      }
      RootIsApart(c, nodes, key, pre);
      ConcatNoRepeats(first, below, beside);
    }
  }

  lemma ReachedDeeper(c: Input, pre: seq<Resource>, key: Option<Id>, r: Resource)
    requires ReachedBy(c, pre, key) && r in c.resources && Key(c, r) == key
    ensures ReachedBy(c, pre + [r], Some(r.id))
  {
    ChainAppend(c, pre, key, [r]);
  }

  /** What lies on a path is in the flattened forest. */
  lemma {:induction false} PathIsFlattened(nodes: seq<Node>, path: seq<Resource>, i: nat)
    requires path != [] && i < |nodes| && nodes[i].resource == path[0]
    requires |path| > 1 ==> OnPath(nodes[i].children, path[1..])
    ensures path[|path| - 1] in Flatten(nodes)
    decreases |path|, i
  {
    if i > 0 {
      PathIsFlattened(nodes[1..], path, i - 1);
    } else if |path| > 1 {
      var children, tail := nodes[0].children, path[1..];
      var j :| 0 <= j < |children| && children[j].resource == tail[0]
               && (|tail| > 1 ==> OnPath(children[j].children, tail[1..]));
      PathIsFlattened(children, tail, j);
      assert tail[|tail| - 1] == path[|path| - 1];
    }
  }

  /** Some chain of parents leads from the resource up to a root. */
  ghost predicate Rooted(c: Input, r: Resource) {
    exists path :: Chain(c, None, path) && path[|path| - 1] == r
  }

  /** The forest holds each resource whose parent chain reaches a root, and no other, exactly
    * once; and its paths are exactly those chains. */
  lemma EachRootedOnce(c: Input, nodes: seq<Node>)
    requires ValidInput(c) && IsForest(c, nodes, None)
    ensures NoRepeats(Flatten(nodes))
    ensures forall r :: r in Flatten(nodes) <==> Rooted(c, r)
    ensures forall path | path != [] :: OnPath(nodes, path) <==> Chain(c, None, path)
  {
    ForestLists(c, nodes, None);
    FlattenedNoRepeats(c, nodes, None, []);
    forall path: seq<Resource> | path != []
      ensures OnPath(nodes, path) <==> Chain(c, None, path)
    {
      PathsAreChains(c, nodes, None, path);
    }
    hide IsForest, IsTree, OnPath;
    forall r
      ensures r in Flatten(nodes) <==> Rooted(c, r)
    {
      RootedIsFlattened(c, nodes, r);
    }
  }

  lemma RootedIsFlattened(c: Input, nodes: seq<Node>, r: Resource)
    requires ValidInput(c) && IsForest(c, nodes, None)
    ensures r in Flatten(nodes) <==> Rooted(c, r)
  {
    ForestLists(c, nodes, None);
    if r in Flatten(nodes) {
      var path := FlattenedHasChain(c, nodes, None, r);
    }
    if Rooted(c, r) {
      var path :| Chain(c, None, path) && path[|path| - 1] == r;
      PathsAreChains(c, nodes, None, path);
      var i :| 0 <= i < |nodes| && nodes[i].resource == path[0]
               && (|path| > 1 ==> OnPath(nodes[i].children, path[1..]));
      PathIsFlattened(nodes, path, i);
    }
  }
}
