/** The navigation menu: a list of parent links turned into a forest by recursion from the roots.
    Nothing stops parent cycles, so termination and the exact output are both proved here. */
module MenuForest {
  import opened Wrappers

  datatype Item = Item(id: int, parent: Option<int>, permission: Option<int>,
                       caption: string, order: int, route: Option<string>, icon: Option<string>)

  datatype Node = Node(id: int, caption: string, order: int, route: Option<string>, icon: Option<string>,
                       children: seq<Node>)

  predicate UniqueIds(items: seq<Item>) {
    forall i, j | 0 <= i < j < |items| :: items[i].id != items[j].id
  }

  predicate Distinct(s: seq<Item>) {
    forall i, j | 0 <= i < j < |s| :: s[i] != s[j]
  }

  /** The listed children of `parent` (the roots when it is `None`), in input order. */
  function Listed(items: seq<Item>, parent: Option<int>): (r: seq<Item>)
    ensures forall i | 0 <= i < |r| :: r[i] in items && r[i].parent == parent
  {
    if items == [] then [] else
      var last := items[|items| - 1];
      Listed(items[..|items| - 1], parent) + if last.parent == parent then [last] else []
  }

  /** `out` holds the items at the positions `at`, taken in order. */
  ghost predicate TakenAt(items: seq<Item>, out: seq<Item>, at: seq<nat>) {
    && |at| == |out|
    && (forall j, k | 0 <= j < k < |at| :: at[j] < at[k])
    && (forall k | 0 <= k < |at| :: at[k] < |items| && out[k] == items[at[k]])
  }

  lemma TakenOneMore(items: seq<Item>, out: seq<Item>, at: seq<nat>)
    requires items != [] && TakenAt(items[..|items| - 1], out, at)
    ensures TakenAt(items, out, at) && TakenAt(items, out + [items[|items| - 1]], at + [|items| - 1])
    ensures |items| - 1 !in at
  {
  }

  /** The positions of the items with that parent. */
  ghost predicate AllWithParent(items: seq<Item>, parent: Option<int>, at: seq<nat>) {
    forall i | 0 <= i < |items| :: i in at <==> items[i].parent == parent
  }

  lemma WithParentOneMore(items: seq<Item>, parent: Option<int>, before: seq<nat>)
    requires items != [] && AllWithParent(items[..|items| - 1], parent, before) && |items| - 1 !in before
    ensures AllWithParent(items, parent, if items[|items| - 1].parent == parent then before + [|items| - 1] else before)
  {
    var n := |items| - 1;
    forall i | 0 <= i < n ensures i in before <==> items[i].parent == parent { assert items[..n][i] == items[i]; }
  }

  /** Siblings: exactly the items with that parent, in input order. */
  lemma {:induction false} ListedInOrder(items: seq<Item>, parent: Option<int>) returns (at: seq<nat>)
    ensures TakenAt(items, Listed(items, parent), at) && AllWithParent(items, parent, at)
  {
    at := [];
    if items != [] {
      var n := |items| - 1;
      var before := ListedInOrder(items[..n], parent);
      TakenOneMore(items, Listed(items[..n], parent), before);
      WithParentOneMore(items, parent, before);
      at := if items[n].parent == parent then before + [n] else before;
    }
  }

  lemma ListedGrows(items: seq<Item>, k: nat, parent: Option<int>)
    requires k < |items|
    ensures Listed(items[..k + 1], parent) ==
            Listed(items[..k], parent) + if items[k].parent == parent then [items[k]] else []
  {
    assert items[..k + 1][..k] == items[..k];
  }

  lemma {:induction false} ListsAll(items: seq<Item>, parent: Option<int>, c: Item)
    requires c in items && c.parent == parent
    ensures c in Listed(items, parent)
  {
    if c != items[|items| - 1] {
      assert c in items[..|items| - 1];
      ListsAll(items[..|items| - 1], parent, c);
    }
  }

  /** A path from a root down: each item is the parent of the next. */
  predicate RootPath(items: seq<Item>, path: seq<Item>) {
    && path != [] && path[0].parent == None
    && (forall i | 0 <= i < |path| :: path[i] in items)
    && (forall i, j | 0 <= i < |path| && 0 <= j < |path| && j == i + 1 :: path[j].parent == Some(path[i].id))
  }

  predicate LeadsTo(items: seq<Item>, path: seq<Item>, id: int) {
    RootPath(items, path) && path[|path| - 1].id == id
  }

  /** The item's parent chain stays inside the list and ends at a parentless item. */
  ghost predicate Grounded(items: seq<Item>, id: int) {
    exists p: seq<Item> :: LeadsTo(items, p, id)
  }

  lemma SameItem(items: seq<Item>, a: Item, b: Item)
    requires UniqueIds(items) && a in items && b in items && a.id == b.id
    ensures a == b
  {
  }

  /** Two root paths to the same item are the same path. */
  lemma {:induction false} UniquePath(items: seq<Item>, p: seq<Item>, q: seq<Item>)
    requires UniqueIds(items) && RootPath(items, p) && RootPath(items, q)
    requires p[|p| - 1].id == q[|q| - 1].id
    ensures p == q
    decreases |p|
  {
    var a, b := p[|p| - 1], q[|q| - 1];
    SameItem(items, a, b);
    assert |p| > 1 ==> a.parent == Some(p[|p| - 2].id);
    assert |q| > 1 ==> b.parent == Some(q[|q| - 2].id);
    if |p| > 1 {
      UniquePath(items, p[..|p| - 1], q[..|q| - 1]);
      assert p == p[..|p| - 1] + [p[|p| - 1]] && q == q[..|q| - 1] + [q[|q| - 1]];
    }
  }

  /** A root path never repeats an item, so it is no longer than the list. */
  lemma PathShort(items: seq<Item>, path: seq<Item>)
    requires UniqueIds(items) && RootPath(items, path)
    ensures |path| <= |items|
  {
    forall i, j | 0 <= i < j < |path| ensures path[i] != path[j] {
      if path[i] == path[j] {
        assert RootPath(items, path[..i + 1]) && RootPath(items, path[..j + 1]);
        UniquePath(items, path[..i + 1], path[..j + 1]);
      }
    }
    DistinctFits(path, items);
  }

  lemma {:induction false} DistinctFits(p: seq<Item>, items: seq<Item>)
    requires Distinct(p)
    requires forall i | 0 <= i < |p| :: p[i] in items
    ensures |p| <= |items|
    decreases |items|
  {
    if p != [] {
      var x := p[|p| - 1];
      var k :| 0 <= k < |items| && items[k] == x;
      DistinctFits(p[..|p| - 1], items[..k] + items[k + 1..]);
    }
  }

  predicate Under(items: seq<Item>, path: seq<Item>, below: seq<Item>)
    requires path != []
  {
    forall i | 0 <= i < |below| :: below[i] in items && below[i].parent == Some(path[|path| - 1].id)
  }

  lemma StepDown(items: seq<Item>, path: seq<Item>, below: seq<Item>)
    requires UniqueIds(items) && RootPath(items, path) && below != [] && Under(items, path, below)
    ensures RootPath(items, path + [below[0]]) && |path| < |items| && Under(items, path, below[1..])
  {
    var longer := path + [below[0]];
    forall i, j | 0 <= i < |longer| && 0 <= j < |longer| && j == i + 1 ensures longer[j].parent == Some(longer[i].id) {
      assert longer[i] == path[i];
    }
    PathShort(items, longer);
  }

  /** The node of the last item of a root path, with its listed children below it. */
  function NodeOf(items: seq<Item>, path: seq<Item>): Node
    requires UniqueIds(items) && RootPath(items, path)
    decreases |items| - |path|, 1
  {
    var item := path[|path| - 1];
    Node(item.id, item.caption, item.order, item.route, item.icon,
         NodesOf(items, path, Listed(items, Some(item.id))))
  }

  function NodesOf(items: seq<Item>, path: seq<Item>, below: seq<Item>): (r: seq<Node>)
    requires UniqueIds(items) && RootPath(items, path)
    requires Under(items, path, below)
    ensures |r| == |below| && forall i | 0 <= i < |r| :: r[i].id == below[i].id
    decreases |items| - |path|, 0, |below|
  {
    if below == [] then [] else
      StepDown(items, path, below);
      [NodeOf(items, path + [below[0]])] + NodesOf(items, path, below[1..])
  }

  function Forest(items: seq<Item>, roots: seq<Item>): (r: seq<Node>)
    requires UniqueIds(items) && forall i | 0 <= i < |roots| :: roots[i] in items && roots[i].parent == None
    ensures |r| == |roots| && forall i | 0 <= i < |r| :: r[i].id == roots[i].id
  {
    if roots == [] then [] else [NodeOf(items, [roots[0]])] + Forest(items, roots[1..])
  }

  // ------------------------------------------------------------ what appears, and how often

  function Count(n: Node, id: int): nat {
    (if n.id == id then 1 else 0) + CountAll(n.children, id)
  }

  function CountAll(ns: seq<Node>, id: int): nat {
    if ns == [] then 0 else Count(ns[0], id) + CountAll(ns[1..], id)
  }

  /** An item is counted once below a path that leads to it, and never below any other. */
  lemma {:induction false} CountBelow(items: seq<Item>, path: seq<Item>, id: int)
    requires UniqueIds(items) && RootPath(items, path)
    ensures forall p: seq<Item> | LeadsTo(items, p, id) ::
              Count(NodeOf(items, path), id) == if path <= p then 1 else 0
    ensures !Grounded(items, id) ==> Count(NodeOf(items, path), id) == 0
    decreases |items| - |path|, 1
  {
    var item := path[|path| - 1];
    var below := Listed(items, Some(item.id));
    ListedDistinct(items, Some(item.id));
    CountAmong(items, path, below, id);
    if item.id == id {
      assert LeadsTo(items, path, id);
    }
    forall p: seq<Item> | LeadsTo(items, p, id)
      ensures Count(NodeOf(items, path), id) == if path <= p then 1 else 0
    {
      if item.id == id {
        UniquePath(items, p, path);
        assert !Continues(path, below, p);
      } else if path <= p {
        NextOnPath(items, path, p);
      } else {
        assert !Continues(path, below, p);
      }
    }
  }

  predicate Continues(path: seq<Item>, below: seq<Item>, p: seq<Item>) {
    exists i :: 0 <= i < |below| && path + [below[i]] <= p
  }

  /** A longer path continues through one of the listed children. */
  lemma NextOnPath(items: seq<Item>, path: seq<Item>, p: seq<Item>)
    requires RootPath(items, path) && RootPath(items, p) && path <= p && p[|p| - 1].id != path[|path| - 1].id
    ensures Continues(path, Listed(items, Some(path[|path| - 1].id)), p)
  {
    assert |path| < |p|;
    var below := Listed(items, Some(path[|path| - 1].id));
    var c := p[|path|];
    assert c.parent == Some(p[|path| - 1].id);
    ListsAll(items, c.parent, c);
    var i :| 0 <= i < |below| && below[i] == c;
    assert path + [below[i]] <= p;
  }

  lemma {:induction false} CountAmong(items: seq<Item>, path: seq<Item>, below: seq<Item>, id: int)
    requires UniqueIds(items) && RootPath(items, path)
    requires Under(items, path, below)
    requires Distinct(below)
    ensures forall p: seq<Item> | LeadsTo(items, p, id) ::
              CountAll(NodesOf(items, path, below), id)
              == if Continues(path, below, p) then 1 else 0
    ensures !Grounded(items, id) ==> CountAll(NodesOf(items, path, below), id) == 0
    decreases |items| - |path|, 0, |below|
  {
    if below != [] {
      var first := path + [below[0]];
      StepDown(items, path, below);
      CountBelow(items, first, id);
      CountAmong(items, path, below[1..], id);
      var ns := NodesOf(items, path, below);
      assert ns[0] == NodeOf(items, first) && ns[1..] == NodesOf(items, path, below[1..]);
      forall p: seq<Item> | LeadsTo(items, p, id)
        ensures CountAll(ns, id) == if Continues(path, below, p) then 1 else 0
      {
        OneBranch(path, below, p);
      }
    }
  }

  /** A path continues through at most one of several distinct children. */
  lemma OneBranch(path: seq<Item>, below: seq<Item>, p: seq<Item>)
    requires below != [] && Distinct(below)
    ensures path + [below[0]] <= p ==> !Continues(path, below[1..], p)
    ensures Continues(path, below, p) <==> path + [below[0]] <= p || Continues(path, below[1..], p)
  {
    forall i | 0 <= i < |below| && path + [below[i]] <= p ensures p[|path|] == below[i] {
      assert (path + [below[i]])[|path|] == below[i];
    }
    if Continues(path, below, p) {
      var i :| 0 <= i < |below| && path + [below[i]] <= p;
      assert i > 0 ==> below[1..][i - 1] == below[i];
    }
    if Continues(path, below[1..], p) {
      var i :| 0 <= i < |below[1..]| && path + [below[1..][i]] <= p;
      assert below[i + 1] == below[1..][i];
    }
  }

  lemma {:induction false} ListedDistinct(items: seq<Item>, parent: Option<int>)
    requires UniqueIds(items)
    ensures Distinct(Listed(items, parent))
  {
    if items != [] {
      var past, last := items[..|items| - 1], items[|items| - 1];
      ListedDistinct(past, parent);
      assert last !in past;
      assert forall i | 0 <= i < |Listed(past, parent)| :: Listed(past, parent)[i] in past;
    }
  }

  lemma {:induction false} CountInForest(items: seq<Item>, roots: seq<Item>, id: int)
    requires UniqueIds(items) && forall i | 0 <= i < |roots| :: roots[i] in items && roots[i].parent == None
    requires Distinct(roots)
    ensures forall p: seq<Item> | LeadsTo(items, p, id) ::
              CountAll(Forest(items, roots), id) == if p[0] in roots then 1 else 0
    ensures !Grounded(items, id) ==> CountAll(Forest(items, roots), id) == 0
  {
    if roots != [] {
      CountBelow(items, [roots[0]], id);
      CountInForest(items, roots[1..], id);
      var ns := Forest(items, roots);
      assert ns[0] == NodeOf(items, [roots[0]]) && ns[1..] == Forest(items, roots[1..]);
      assert forall p: seq<Item> | RootPath(items, p) :: [roots[0]] <= p <==> p[0] == roots[0];
      assert forall r :: r in roots <==> r == roots[0] || r in roots[1..];
    }
  }

  /** Over every list with unique ids, parent cycles included: an item appears in the forest
      exactly once if its parent chain ends at a root inside the list, and not at all otherwise. */
  lemma AppearsOnceIffGrounded(items: seq<Item>, id: int)
    requires UniqueIds(items)
    ensures CountAll(Forest(items, Listed(items, None)), id) == if Grounded(items, id) then 1 else 0
  {
    ListedDistinct(items, None);
    CountInForest(items, Listed(items, None), id);
    if Grounded(items, id) {
      var p: seq<Item> :| LeadsTo(items, p, id);
      ListsAll(items, None, p[0]);
    }
  }

  predicate Copies(items: seq<Item>, n: Node) {
    exists k :: 0 <= k < |items| && items[k].id == n.id && items[k].caption == n.caption && items[k].order == n.order
                && items[k].route == n.route && items[k].icon == n.icon
  }

  /** Every node of the forest carries its item's fields and exactly its listed children, in order. */
  predicate Mirrors(items: seq<Item>, n: Node) {
    && Copies(items, n)
    && |n.children| == |Listed(items, Some(n.id))|
    && forall i | 0 <= i < |n.children| ::
         n.children[i].id == Listed(items, Some(n.id))[i].id && Mirrors(items, n.children[i])
  }

  lemma NodeHead(items: seq<Item>, path: seq<Item>)
    requires UniqueIds(items) && RootPath(items, path)
    ensures var n := NodeOf(items, path);
            Copies(items, n) && n.id == path[|path| - 1].id && |n.children| == |Listed(items, Some(n.id))|
  {
    var k :| 0 <= k < |items| && items[k] == path[|path| - 1];
  }

  lemma ChildAt(items: seq<Item>, path: seq<Item>, i: nat)
    requires UniqueIds(items) && RootPath(items, path) && i < |Listed(items, Some(path[|path| - 1].id))|
    ensures var child := Listed(items, Some(path[|path| - 1].id))[i];
            && RootPath(items, path + [child]) && |path| < |items|
            && i < |NodeOf(items, path).children|
            && NodeOf(items, path).children[i] == NodeOf(items, path + [child])
            && NodeOf(items, path + [child]).id == child.id
  {
    var below := Listed(items, Some(path[|path| - 1].id));
    NodesOfAt(items, path, below, i);
    PathShort(items, path + [below[i]]);
    NodeHead(items, path + [below[i]]);
  }

  lemma {:induction false} NodesMirror(items: seq<Item>, path: seq<Item>)
    requires UniqueIds(items) && RootPath(items, path)
    ensures Mirrors(items, NodeOf(items, path))
    decreases |items| - |path|
  {
    var n, below := NodeOf(items, path), Listed(items, Some(path[|path| - 1].id));
    NodeHead(items, path);
    forall i | 0 <= i < |below| ensures n.children[i].id == below[i].id && Mirrors(items, n.children[i]) {
      ChildAt(items, path, i);
      NodesMirror(items, path + [below[i]]);
    }
  }

  lemma NodesOfFirst(items: seq<Item>, path: seq<Item>, below: seq<Item>)
    requires UniqueIds(items) && RootPath(items, path) && below != [] && Under(items, path, below)
    ensures RootPath(items, path + [below[0]]) && |path| < |items| && Under(items, path, below[1..])
    ensures NodesOf(items, path, below) == [NodeOf(items, path + [below[0]])] + NodesOf(items, path, below[1..])
  {
    StepDown(items, path, below);
  }

  lemma {:induction false} NodesOfAt(items: seq<Item>, path: seq<Item>, below: seq<Item>, i: nat)
    requires UniqueIds(items) && RootPath(items, path) && i < |below|
    requires Under(items, path, below)
    ensures RootPath(items, path + [below[i]])
    ensures NodesOf(items, path, below)[i] == NodeOf(items, path + [below[i]])
    decreases |below|
  {
    NodesOfFirst(items, path, below);
    if i > 0 {
      NodesOfAt(items, path, below[1..], i - 1);
    }
  }

  lemma {:induction false} ForestMirrors(items: seq<Item>, roots: seq<Item>)
    requires UniqueIds(items) && forall i | 0 <= i < |roots| :: roots[i] in items && roots[i].parent == None
    ensures forall i | 0 <= i < |roots| :: Mirrors(items, Forest(items, roots)[i])
  {
    if roots != [] {
      NodesMirror(items, [roots[0]]);
      ForestMirrors(items, roots[1..]);
    }
  }

  // ------------------------------------------------------------ the builder as it runs

  function Below(children: map<int, seq<Item>>, id: int): seq<Item> {
    if id in children then children[id] else []
  }

  predicate Indexes(children: map<int, seq<Item>>, items: seq<Item>) {
    forall k | 0 <= k < |items| :: Below(children, items[k].id) == Listed(items, Some(items[k].id))
  }

  /** The first loop: roots, and children by parent; an item under a hidden parent is dropped. */
  method Sort(items: seq<Item>) returns (roots: seq<Item>, children: map<int, seq<Item>>)
    ensures roots == Listed(items, None)
    ensures Indexes(children, items)
  {
    var visible := set i | i in items :: i.id;
    roots, children := [], map[];
    for k := 0 to |items|
      invariant roots == Listed(items[..k], None)
      invariant forall id | id in visible :: Below(children, id) == Listed(items[..k], Some(id))
    {
      var item := items[k];
      ListedGrows(items, k, None);
      forall id ensures Listed(items[..k + 1], Some(id)) ==
                        Listed(items[..k], Some(id)) + if item.parent == Some(id) then [item] else []
      {
        ListedGrows(items, k, Some(id));
      }
      if item.parent == None {
        roots := roots + [item];
      } else if item.parent.value in visible {
        var p := item.parent.value;
        children := children[p := Below(children, p) + [item]];
      }
    }
    assert items[..|items|] == items;
  }

  /** `path` leads from a root to the item; only its last element is used to build the node. */
  method ToNode(ghost items: seq<Item>, children: map<int, seq<Item>>, item: Item, ghost path: seq<Item>)
    returns (node: Node)
    requires UniqueIds(items) && RootPath(items, path) && path[|path| - 1] == item && Indexes(children, items)
    ensures node == NodeOf(items, path)
    decreases |items| - |path|, 1
  {
    var below := Below(children, item.id);
    var nodes := ToNodes(items, children, below, path);
    node := Node(item.id, item.caption, item.order, item.route, item.icon, nodes);
  }

  method ToNodes(ghost items: seq<Item>, children: map<int, seq<Item>>, below: seq<Item>, ghost path: seq<Item>)
    returns (nodes: seq<Node>)
    requires UniqueIds(items) && RootPath(items, path) && Indexes(children, items)
    requires Under(items, path, below)
    ensures nodes == NodesOf(items, path, below)
    decreases |items| - |path|, 0, |below|
  {
    if below == [] {
      return [];
    }
    StepDown(items, path, below);
    var first := ToNode(items, children, below[0], path + [below[0]]);
    var rest := ToNodes(items, children, below[1..], path);
    return [first] + rest;
  }

  method ToForest(ghost items: seq<Item>, children: map<int, seq<Item>>, roots: seq<Item>) returns (forest: seq<Node>)
    requires UniqueIds(items) && Indexes(children, items)
    requires forall i | 0 <= i < |roots| :: roots[i] in items && roots[i].parent == None
    ensures forest == Forest(items, roots)
  {
    if roots == [] {
      return [];
    }
    var first := ToNode(items, children, roots[0], [roots[0]]);
    var rest := ToForest(items, children, roots[1..]);
    return [first] + rest;
  }

  method BuildTree(items: seq<Item>) returns (forest: seq<Node>)
    requires UniqueIds(items)
    ensures forest == Forest(items, Listed(items, None))
    ensures forall id :: CountAll(forest, id) == if Grounded(items, id) then 1 else 0
    ensures forall i | 0 <= i < |forest| :: Mirrors(items, forest[i])
    ensures |forest| == |Listed(items, None)|
    ensures forall i | 0 <= i < |forest| :: forest[i].id == Listed(items, None)[i].id
  {
    var roots, children := Sort(items);
    forest := ToForest(items, children, roots);
    forall id ensures CountAll(Forest(items, roots), id) == if Grounded(items, id) then 1 else 0 {
      AppearsOnceIffGrounded(items, id);
    }
    ForestMirrors(items, roots);
  }

  predicate Allowed(item: Item, permissions: set<int>) {
    item.permission.None? || item.permission.value in permissions
  }

  function Visible(items: seq<Item>, permissions: set<int>): (r: seq<Item>)
    ensures forall i :: i in r <==> i in items && Allowed(i, permissions)
  {
    if items == [] then [] else
      var last := items[|items| - 1];
      Visible(items[..|items| - 1], permissions) + if Allowed(last, permissions) then [last] else []
  }

  /** The positions of the items open to everyone or unlocked by one of the permissions. */
  ghost predicate AllOpen(items: seq<Item>, permissions: set<int>, at: seq<nat>) {
    forall i | 0 <= i < |items| ::
      i in at <==> items[i].permission.None? || items[i].permission.value in permissions
  }

  lemma OpenOneMore(items: seq<Item>, permissions: set<int>, before: seq<nat>)
    requires items != [] && AllOpen(items[..|items| - 1], permissions, before) && |items| - 1 !in before
    ensures var n := |items| - 1;
            AllOpen(items, permissions, if Allowed(items[n], permissions) then before + [n] else before)
  {
    var n := |items| - 1;
    forall i | 0 <= i < n
      ensures i in before <==> items[i].permission.None? || items[i].permission.value in permissions
    {
      assert items[..n][i] == items[i];
    }
  }

  /** What a user may see: exactly the items open to them, in input order. */
  lemma {:induction false} VisibleInOrder(items: seq<Item>, permissions: set<int>) returns (at: seq<nat>)
    ensures TakenAt(items, Visible(items, permissions), at) && AllOpen(items, permissions, at)
  {
    at := [];
    if items != [] {
      var n := |items| - 1;
      var before := VisibleInOrder(items[..n], permissions);
      TakenOneMore(items, Visible(items[..n], permissions), before);
      OpenOneMore(items, permissions, before);
      at := if Allowed(items[n], permissions) then before + [n] else before;
    }
  }

  lemma {:induction false} VisibleUnique(items: seq<Item>, permissions: set<int>)
    requires UniqueIds(items)
    ensures UniqueIds(Visible(items, permissions))
  {
    if items != [] {
      var past, last := items[..|items| - 1], items[|items| - 1];
      VisibleUnique(past, permissions);
      assert forall i | i in past :: i.id != last.id;
      assert forall i | 0 <= i < |Visible(past, permissions)| :: Visible(past, permissions)[i] in past;
    }
  }

  method Filter(items: seq<Item>, permissions: set<int>) returns (visible: seq<Item>)
    ensures visible == Visible(items, permissions)
  {
    visible := [];
    for k := 0 to |items|
      invariant visible == Visible(items[..k], permissions)
    {
      assert items[..k + 1][..k] == items[..k];
      if Allowed(items[k], permissions) {
        visible := visible + [items[k]];
      }
    }
    assert items[..|items|] == items;
  }

  /** The path to an item and every item on it are allowed. */
  predicate OpenPath(items: seq<Item>, path: seq<Item>, id: int, permissions: set<int>) {
    LeadsTo(items, path, id) && forall i | 0 <= i < |path| :: Allowed(path[i], permissions)
  }

  /** A user sees an item exactly when it and every ancestor up to a root are allowed; a hidden
      parent hides the whole branch. */
  method GetMenuForUser(items: seq<Item>, permissions: set<int>) returns (forest: seq<Node>)
    requires UniqueIds(items)
    ensures forall id :: CountAll(forest, id) ==
              if exists p: seq<Item> :: OpenPath(items, p, id, permissions) then 1 else 0
    ensures forall i | 0 <= i < |forest| :: Mirrors(Visible(items, permissions), forest[i])
    ensures var roots := Listed(Visible(items, permissions), None);
            |forest| == |roots| && forall i | 0 <= i < |forest| :: forest[i].id == roots[i].id
  {
    var visible := Filter(items, permissions);
    VisibleUnique(items, permissions);
    forest := BuildTree(visible);
    forall id ensures Grounded(visible, id) <==> exists p: seq<Item> :: OpenPath(items, p, id, permissions) {
      OpenIsGrounded(items, permissions, id);
    }
  }

  lemma OpenIsGrounded(items: seq<Item>, permissions: set<int>, id: int)
    ensures Grounded(Visible(items, permissions), id) <==> exists p: seq<Item> :: OpenPath(items, p, id, permissions)
  {
    var visible := Visible(items, permissions);
    forall p: seq<Item> ensures LeadsTo(visible, p, id) <==> OpenPath(items, p, id, permissions) {
    }
  }
}
