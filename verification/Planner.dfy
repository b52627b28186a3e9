/** The client's revoke planner: a walk below a root, a sort, and a filter. */
module Planner {
  import opened Types

  /** A snapshot of one authority. The address is the derived one, so the id it was derived from stands for it. */
  datatype Node = Node(authorityId: U64, parentId: U64, depth: U8, status: AuthStatus, address: U64, agent: Pubkey)
  datatype Child = Child(authorityId: U64, address: U64)
  datatype Batch = Batch(authorityId: U64, address: U64, children: seq<Child>)

  // ---- what a plan is ----

  /** The node a map built from the list holds for an id: the last one. */
  function LastNode(nodes: seq<Node>, id: U64): Option<Node> {
    if nodes == [] then None
    else if nodes[|nodes| - 1].authorityId == id then Some(nodes[|nodes| - 1])
    else LastNode(nodes[..|nodes| - 1], id)
  }

  /** The nodes naming `id` as parent, in list order; 0 means no parent and has no children. */
  function Children(nodes: seq<Node>, id: U64): seq<Node> {
    if nodes == [] then []
    else
      var n := nodes[|nodes| - 1];
      var rest := Children(nodes[..|nodes| - 1], id);
      if id != 0 && n.parentId == id then rest + [n] else rest
  }

  ghost predicate Link(nodes: seq<Node>, up: U64, id: U64) {
    up != 0 && exists n :: n in nodes && n.parentId == up && n.authorityId == id
  }

  ghost predicate IsPath(nodes: seq<Node>, root: U64, p: seq<U64>) {
    && |p| > 0 && p[0] == root
    && forall k :: 0 < k < |p| ==> Link(nodes, p[k - 1], p[k])
  }

  ghost predicate Reaches(nodes: seq<Node>, root: U64, id: U64) {
    exists p :: IsPath(nodes, root, p) && p[|p| - 1] == id
  }

  /** Deeper first, then the larger id. */
  predicate Before(a: Node, b: Node) {
    a.depth > b.depth || (a.depth == b.depth && a.authorityId > b.authorityId)
  }

  function ActiveKids(kids: seq<Node>): seq<Child> {
    if kids == [] then []
    else
      var n := kids[|kids| - 1];
      var rest := ActiveKids(kids[..|kids| - 1]);
      if n.status == Active then rest + [Child(n.authorityId, n.address)] else rest
  }

  function BatchOf(nodes: seq<Node>, n: Node): Batch {
    Batch(n.authorityId, n.address, ActiveKids(Children(nodes, n.authorityId)))
  }

  /** An id the plan must revoke: below the root, and Active in the snapshot. */
  ghost predicate Wanted(nodes: seq<Node>, root: U64, id: U64) {
    Reaches(nodes, root, id) && LastNode(nodes, id).Some? && LastNode(nodes, id).value.status == Active
  }

  /** Exactly the wanted ids, each once, deepest first, each with its Active children. */
  ghost predicate IsPlan(nodes: seq<Node>, root: U64, plan: seq<Batch>) {
    && (forall k :: 0 <= k < |plan| ==>
      Wanted(nodes, root, plan[k].authorityId) && plan[k] == BatchOf(nodes, LastNode(nodes, plan[k].authorityId).value))
    && (forall j, k :: 0 <= j < k < |plan| ==>
      Before(LastNode(nodes, plan[j].authorityId).value, LastNode(nodes, plan[k].authorityId).value))
    && (forall id :: Wanted(nodes, root, id) ==> exists k :: 0 <= k < |plan| && plan[k].authorityId == id)
  }

  /** There is one plan: the list of nodes and the root determine it. */
  lemma PlanUnique(nodes: seq<Node>, root: U64, p: seq<Batch>, q: seq<Batch>)
    requires IsPlan(nodes, root, p) && IsPlan(nodes, root, q)
    ensures p == q
  {
    hide IsPlan, LastNode;
    var k := 0;
    while k < |p| && k < |q|
      invariant 0 <= k <= |p| && k <= |q|
      invariant forall j :: 0 <= j < k ==> p[j] == q[j]
    {
      PlanHeadsAgree(nodes, root, p, q, k);
      PlanHeadsAgree(nodes, root, q, p, k);
      k := k + 1;
    }
    if k < |p| {
      PlanHeadsAgree(nodes, root, p, q, k);
    }
    if k < |q| {
      PlanHeadsAgree(nodes, root, q, p, k);
    }
  }

  /** After an equal beginning, the next entry of one plan is in the other, not earlier, and nothing comes before it there. */
  lemma PlanHeadsAgree(nodes: seq<Node>, root: U64, p: seq<Batch>, q: seq<Batch>, k: nat)
    requires IsPlan(nodes, root, p) && IsPlan(nodes, root, q)
    requires k < |p| && k <= |q| && forall j :: 0 <= j < k ==> p[j] == q[j]
    ensures k < |q|
    ensures p[k] == q[k] || Before(LastNode(nodes, q[k].authorityId).value, LastNode(nodes, p[k].authorityId).value)
  {
    assert Wanted(nodes, root, p[k].authorityId);
    var m :| 0 <= m < |q| && q[m].authorityId == p[k].authorityId;
    if m < k {
      assert false;
    }
    if m > k {
      assert Before(LastNode(nodes, q[k].authorityId).value, LastNode(nodes, q[m].authorityId).value);
    }
  }

  // ---- facts about the list functions ----

  lemma {:induction false} LastNodeIn(nodes: seq<Node>, id: U64)
    ensures LastNode(nodes, id).Some? ==> LastNode(nodes, id).value in nodes && LastNode(nodes, id).value.authorityId == id
    ensures LastNode(nodes, id).None? ==> forall n | n in nodes :: n.authorityId != id
  {
    if nodes != [] {
      LastNodeIn(nodes[..|nodes| - 1], id);
      assert nodes == nodes[..|nodes| - 1] + [nodes[|nodes| - 1]];
    }
  }

  lemma {:induction false} ChildrenIn(nodes: seq<Node>, id: U64, n: Node)
    ensures n in Children(nodes, id) <==> id != 0 && n in nodes && n.parentId == id
  {
    if nodes != [] {
      ChildrenIn(nodes[..|nodes| - 1], id, n);
      assert nodes == nodes[..|nodes| - 1] + [nodes[|nodes| - 1]];
    }
  }

  lemma {:induction false} ActiveKidsIn(kids: seq<Node>, c: Child)
    ensures c in ActiveKids(kids) <==> exists n :: n in kids && n.status == Active && c == Child(n.authorityId, n.address)
  {
    if kids != [] {
      ActiveKidsIn(kids[..|kids| - 1], c);
      assert kids == kids[..|kids| - 1] + [kids[|kids| - 1]];
    }
  }

  lemma ReachStep(nodes: seq<Node>, root: U64, up: U64, id: U64)
    requires Reaches(nodes, root, up) && Link(nodes, up, id)
    ensures Reaches(nodes, root, id)
  {
    var p :| IsPath(nodes, root, p) && p[|p| - 1] == up;
    var q := p + [id];
    assert IsPath(nodes, root, q) && q[|q| - 1] == id;
  }

  // ---- what a plan says, without its definition ----

  /** The node at this place is the last of the list with the id. */
  ghost predicate LastAt(nodes: seq<Node>, id: U64, i: int) {
    && 0 <= i < |nodes| && nodes[i].authorityId == id
    && forall j :: i < j < |nodes| ==> nodes[j].authorityId != id
  }

  /** The Active nodes of the list that name a parent, from the front. */
  function ListedKids(nodes: seq<Node>, parent: U64): seq<Child> {
    if nodes == [] then []
    else
      var n := nodes[0];
      (if parent != 0 && n.parentId == parent && n.status == Active then [Child(n.authorityId, n.address)] else [])
      + ListedKids(nodes[1..], parent)
  }

  lemma {:induction false} ListedKidsPush(nodes: seq<Node>, n: Node, parent: U64)
    ensures ListedKids(nodes + [n], parent) == ListedKids(nodes, parent)
            + if parent != 0 && n.parentId == parent && n.status == Active then [Child(n.authorityId, n.address)] else []
  {
    if nodes == [] {
      assert ([n])[1..] == [];
    } else {
      ListedKidsPush(nodes[1..], n, parent);
      assert (nodes + [n])[1..] == nodes[1..] + [n];
    }
  }

  lemma {:induction false} KidsListed(nodes: seq<Node>, parent: U64)
    ensures ActiveKids(Children(nodes, parent)) == ListedKids(nodes, parent)
  {
    if nodes != [] {
      var front, n := nodes[..|nodes| - 1], nodes[|nodes| - 1];
      KidsListed(front, parent);
      ListedKidsPush(front, n, parent);
      assert nodes == front + [n];
      assert (Children(front, parent) + [n])[..|Children(front, parent)|] == Children(front, parent);
    }
  }

  lemma {:induction false} LastNodeAt(nodes: seq<Node>, id: U64, i: int)
    requires LastAt(nodes, id, i)
    ensures LastNode(nodes, id) == Some(nodes[i])
  {
    var n := |nodes| - 1;
    if nodes[n].authorityId != id {
      LastNodeAt(nodes[..n], id, i);
    }
  }

  lemma {:induction false} LastPlace(nodes: seq<Node>, id: U64) returns (i: int)
    requires LastNode(nodes, id).Some?
    ensures LastAt(nodes, id, i)
  {
    i := |nodes| - 1;
    if nodes[i].authorityId != id {
      i := LastPlace(nodes[..i], id);
    }
  }

  /** The entry of an Active node: its address, and in list order the Active nodes that name it as their parent. */
  ghost predicate Entry(nodes: seq<Node>, b: Batch) {
    && b.children == ListedKids(nodes, b.authorityId)
    && exists i :: LastAt(nodes, b.authorityId, i) && nodes[i].status == Active && nodes[i].address == b.address
  }

  /** Deeper nodes come first, and larger ids first among equals. */
  ghost predicate Precedes(nodes: seq<Node>, a: U64, b: U64) {
    forall x, y :: LastAt(nodes, a, x) && LastAt(nodes, b, y) ==>
      nodes[x].depth > nodes[y].depth || (nodes[x].depth == nodes[y].depth && a > b)
  }

  lemma EntryOf(nodes: seq<Node>, root: U64, b: Batch)
    requires Wanted(nodes, root, b.authorityId) && b == BatchOf(nodes, LastNode(nodes, b.authorityId).value)
    ensures Entry(nodes, b)
  {
    hide Reaches, ListedKids, Children, ActiveKids;
    LastNodeIn(nodes, b.authorityId);
    var i := LastPlace(nodes, b.authorityId);
    LastNodeAt(nodes, b.authorityId, i);
    KidsListed(nodes, b.authorityId);
  }

  lemma InOrder(nodes: seq<Node>, a: U64, b: U64)
    requires LastNode(nodes, a).Some? && LastNode(nodes, b).Some? && Before(LastNode(nodes, a).value, LastNode(nodes, b).value)
    ensures Precedes(nodes, a, b)
  {
    forall x, y | LastAt(nodes, a, x) && LastAt(nodes, b, y)
      ensures nodes[x].depth > nodes[y].depth || (nodes[x].depth == nodes[y].depth && a > b)
    {
      LastNodeAt(nodes, a, x);
      LastNodeAt(nodes, b, y);
    }
  }

  /** A plan names, each once, exactly the ids reachable from the root whose last node is Active, deeper nodes
      first and larger ids first among equals, each with its address and the Active nodes that name it as parent. */
  lemma PlanMeaning(nodes: seq<Node>, root: U64, plan: seq<Batch>)
    requires IsPlan(nodes, root, plan)
    ensures forall k :: 0 <= k < |plan| ==> Reaches(nodes, root, plan[k].authorityId) && Entry(nodes, plan[k])
    ensures forall j, k :: 0 <= j < k < |plan| ==> plan[j].authorityId != plan[k].authorityId && Precedes(nodes, plan[j].authorityId, plan[k].authorityId)
    ensures forall id, i :: LastAt(nodes, id, i) && nodes[i].status == Active && Reaches(nodes, root, id) ==>
      exists k :: 0 <= k < |plan| && plan[k].authorityId == id
  {
    hide Reaches, LastNode, BatchOf, Entry, Precedes;
    forall k | 0 <= k < |plan|
      ensures Reaches(nodes, root, plan[k].authorityId) && Entry(nodes, plan[k])
    {
      EntryOf(nodes, root, plan[k]);
    }
    forall j, k | 0 <= j < k < |plan|
      ensures plan[j].authorityId != plan[k].authorityId && Precedes(nodes, plan[j].authorityId, plan[k].authorityId)
    {
      assert Wanted(nodes, root, plan[j].authorityId) && Wanted(nodes, root, plan[k].authorityId);
      InOrder(nodes, plan[j].authorityId, plan[k].authorityId);
    }
    forall id, i | LastAt(nodes, id, i) && nodes[i].status == Active && Reaches(nodes, root, id)
      ensures exists k :: 0 <= k < |plan| && plan[k].authorityId == id
    {
      LastNodeAt(nodes, id, i);
      assert Wanted(nodes, root, id);
    }
  }

  /** A set that holds the root and is closed under links holds everything reachable. */
  lemma ReachStays(nodes: seq<Node>, root: U64, closed: set<U64>, id: U64)
    requires root in closed && Reaches(nodes, root, id)
    requires forall up, c :: up in closed && Link(nodes, up, c) ==> c in closed
    ensures id in closed
  {
    var p :| IsPath(nodes, root, p) && p[|p| - 1] == id;
    var k := 0;
    while k < |p| - 1
      invariant 0 <= k < |p| && p[k] in closed
    {
      assert Link(nodes, p[k], p[k + 1]);
      k := k + 1;
    }
  }

  // ---- the sort ----

  ghost predicate Sorted(s: seq<Node>) {
    forall i, j :: 0 <= i < j < |s| ==> !Before(s[j], s[i])
  }

  /** Puts one node behind all it must not come before. */
  method Insert(s: seq<Node>, n: Node) returns (r: seq<Node>)
    requires Sorted(s)
    ensures Sorted(r) && multiset(r) == multiset(s) + multiset{n}
  {
    var j := |s|;
    while j > 0 && Before(n, s[j - 1])
      invariant 0 <= j <= |s|
      invariant forall k :: j <= k < |s| ==> Before(n, s[k])
    {
      j := j - 1;
    }
    assert s == s[..j] + s[j..];
    InsertSorts(s, j, n);
    hide Sorted;
    r := s[..j] + [n] + s[j..];
  }

  lemma InsertSorts(s: seq<Node>, j: nat, n: Node)
    requires Sorted(s) && j <= |s|
    requires j > 0 ==> !Before(n, s[j - 1])
    requires forall k :: j <= k < |s| ==> Before(n, s[k])
    ensures Sorted(s[..j] + [n] + s[j..])
  {
    var r := s[..j] + [n] + s[j..];
    forall p, q | 0 <= p < q < |r|
      ensures !Before(r[q], r[p])
    {
      if p < j && q == j {
        assert p == j - 1 || !Before(s[j - 1], s[p]);
      }
    }
  }

  method SortDeepestFirst(s: seq<Node>) returns (r: seq<Node>)
    ensures Sorted(r) && multiset(r) == multiset(s)
  {
    hide Sorted;
    assert Sorted([]) by { NothingSorted(); }
    r := [];
    var i := 0;
    while i < |s|
      invariant 0 <= i <= |s|
      invariant Sorted(r) && multiset(r) == multiset(s[..i])
    {
      r := Insert(r, s[i]);
      assert s[..i + 1] == s[..i] + [s[i]];
      i := i + 1;
    }
    assert s[..i] == s;
  }

  lemma NothingSorted()
    ensures Sorted([])
  {
  }

  // ---- the planner ----

  function KidsOf(childrenOf: map<U64, seq<Node>>, id: U64): seq<Node> {
    if id in childrenOf then childrenOf[id] else []
  }

  method BuildMaps(nodes: seq<Node>) returns (byId: map<U64, Node>, childrenOf: map<U64, seq<Node>>)
    ensures forall id :: LastNode(nodes, id) == if id in byId then Some(byId[id]) else None
    ensures forall id :: KidsOf(childrenOf, id) == Children(nodes, id)
  {
    byId, childrenOf := map[], map[];
    var i := 0;
    while i < |nodes|
      invariant 0 <= i <= |nodes|
      invariant forall id :: LastNode(nodes[..i], id) == if id in byId then Some(byId[id]) else None
      invariant forall id :: KidsOf(childrenOf, id) == Children(nodes[..i], id)
    {
      var n := nodes[i];
      assert nodes[..i + 1][..i] == nodes[..i];
      byId := byId[n.authorityId := n];
      if n.parentId !in childrenOf {
        childrenOf := childrenOf[n.parentId := []];
      }
      if n.parentId != 0 {
        childrenOf := childrenOf[n.parentId := childrenOf[n.parentId] + [n]];
      }
      i := i + 1;
    }
    assert nodes[..i] == nodes;
  }

  /** The ids found so far are the ids of the nodes found so far, each once. */
  ghost predicate Found(byId: map<U64, Node>, seen: set<U64>, subtree: seq<Node>) {
    && seen <= byId.Keys
    && (forall id :: id in seen ==> byId[id] in subtree)
    && (forall n :: n in subtree ==> n.authorityId in seen && n == byId[n.authorityId])
    && Distinct(subtree)
  }

  ghost predicate Distinct(s: seq<Node>) {
    forall j, k :: 0 <= j < k < |s| ==> s[j].authorityId != s[k].authorityId
  }

  /** The walk has seen, or still has to see, every child of what it has seen, and nothing out of reach. */
  ghost predicate Walking(nodes: seq<Node>, root: U64, seen: set<U64>, stack: seq<U64>) {
    && (root in seen || root in stack)
    && (forall id :: id in seen || id in stack ==> Reaches(nodes, root, id))
    && (forall up, c :: up in seen && Link(nodes, up, c) ==> c in seen || c in stack)
  }

  function Ids(s: seq<Node>): seq<U64> {
    seq(|s|, k requires 0 <= k < |s| => s[k].authorityId)
  }

  /** One id taken off the stack: already seen, or seen now with its children pushed. */
  lemma WalkOn(nodes: seq<Node>, root: U64, seen: set<U64>, rest: seq<U64>, id: U64)
    requires Walking(nodes, root, seen, rest + [id])
    ensures id in seen ==> Walking(nodes, root, seen, rest)
    ensures Walking(nodes, root, seen + {id}, rest + Ids(Children(nodes, id)))
  {
    var stack := rest + [id];
    var kids := Children(nodes, id);
    var more := rest + Ids(kids);
    assert id in stack;
    assert forall x :: x in rest ==> x in stack;
    assert forall x :: x in stack ==> x in rest || x == id;
    assert forall x :: x in rest ==> x in more;
    forall x | x in more
      ensures Reaches(nodes, root, x)
    {
      if x !in rest {
        var k :| 0 <= k < |kids| && kids[k].authorityId == x;
        ChildrenIn(nodes, id, kids[k]);
        ReachStep(nodes, root, id, x);
      }
    }
    forall c | Link(nodes, id, c)
      ensures c in more
    {
      var n :| n in nodes && n.parentId == id && n.authorityId == c;
      ChildrenIn(nodes, id, n);
      var k :| 0 <= k < |kids| && kids[k] == n;
      assert more[|rest| + k] == c;
    }
    forall up, c | up in seen + {id} && Link(nodes, up, c)
      ensures c in seen + {id} || c in more
    {
      if up != id {
        assert c in seen || c in stack;
      }
    }
  }

  /** Whatever a path leads to has a node, if the root has one. */
  lemma ReachedHasNode(nodes: seq<Node>, root: U64, id: U64)
    requires Reaches(nodes, root, id) && LastNode(nodes, root).Some?
    ensures LastNode(nodes, id).Some?
  {
    var p :| IsPath(nodes, root, p) && p[|p| - 1] == id;
    LastNodeIn(nodes, id);
    if |p| > 1 {
      assert Link(nodes, p[|p| - 2], p[|p| - 1]);
    }
  }

  method PushKids(stack: seq<U64>, kids: seq<Node>) returns (r: seq<U64>)
    ensures r == stack + Ids(kids)
  {
    r := stack;
    var i := 0;
    while i < |kids|
      invariant 0 <= i <= |kids|
      invariant r == stack + Ids(kids)[..i]
    {
      r := r + [kids[i].authorityId];
      i := i + 1;
    }
  }

  ghost predicate MapsOf(nodes: seq<Node>, byId: map<U64, Node>, childrenOf: map<U64, seq<Node>>) {
    && (forall id :: LastNode(nodes, id) == if id in byId then Some(byId[id]) else None)
    && (forall id :: KidsOf(childrenOf, id) == Children(nodes, id))
  }

  method Collect(nodes: seq<Node>, root: U64, byId: map<U64, Node>, childrenOf: map<U64, seq<Node>>) returns (subtree: seq<Node>, ghost seen: set<U64>)
    requires root in byId && MapsOf(nodes, byId, childrenOf)
    ensures Distinct(subtree) && forall n :: n in subtree ==> LastNode(nodes, n.authorityId) == Some(n) && Reaches(nodes, root, n.authorityId)
    ensures Found(byId, seen, subtree)
    ensures forall id :: id in seen <==> Reaches(nodes, root, id)
  {
    subtree := [];
    var stack := [root];
    var visited: set<U64> := {};
    assert IsPath(nodes, root, [root]);
    while stack != []
      invariant Found(byId, visited, subtree)
      invariant Walking(nodes, root, visited, stack)
      decreases byId.Keys - visited, |stack|
    {
      var id := stack[|stack| - 1];
      assert stack == stack[..|stack| - 1] + [id];
      stack := stack[..|stack| - 1];
      WalkOn(nodes, root, visited, stack, id);
      if id !in visited {
        ReachedHasNode(nodes, root, id);
        LastNodeIn(nodes, id);
        visited := visited + {id};
        if id in byId {
          subtree := subtree + [byId[id]];
          stack := PushKids(stack, KidsOf(childrenOf, id));
        }
      }
    }
    forall id | Reaches(nodes, root, id)
      ensures id in visited
    {
      ReachStays(nodes, root, visited, id);
    }
    seen := visited;
  }

  function Actives(s: seq<Node>): (r: seq<Node>)
    ensures forall n :: n in r <==> n in s && n.status == Active
  {
    if s == [] then []
    else
      var rest := Actives(s[..|s| - 1]);
      if s[|s| - 1].status == Active then rest + [s[|s| - 1]] else rest
  }

  /** Filtering a sorted list without repetitions leaves it strictly sorted. */
  lemma {:induction false} ActivesSorted(s: seq<Node>)
    requires Sorted(s) && Distinct(s)
    ensures forall j, k :: 0 <= j < k < |Actives(s)| ==> Before(Actives(s)[j], Actives(s)[k])
  {
    if s != [] {
      var m := |s| - 1;
      ActivesSorted(s[..m]);
      forall n | n in Actives(s[..m])
        ensures Before(n, s[m])
      {
        var j :| 0 <= j < m && s[j] == n;
        assert !Before(s[m], s[j]);
      }
    }
  }

  method MakeBatches(nodes: seq<Node>, childrenOf: map<U64, seq<Node>>, subtree: seq<Node>) returns (batches: seq<Batch>)
    requires forall id :: KidsOf(childrenOf, id) == Children(nodes, id)
    ensures |batches| == |Actives(subtree)|
    ensures forall k :: 0 <= k < |batches| ==> batches[k] == BatchOf(nodes, Actives(subtree)[k])
  {
    batches := [];
    var i := 0;
    while i < |subtree|
      invariant 0 <= i <= |subtree|
      invariant |batches| == |Actives(subtree[..i])|
      invariant forall k :: 0 <= k < |batches| ==> batches[k] == BatchOf(nodes, Actives(subtree[..i])[k])
    {
      var node := subtree[i];
      assert subtree[..i + 1][..i] == subtree[..i];
      if node.status == Active {
        var kids := ActiveKids(KidsOf(childrenOf, node.authorityId));
        batches := batches + [Batch(node.authorityId, node.address, kids)];
      }
      i := i + 1;
    }
    assert subtree[..i] == subtree;
  }

  /** Nothing when the root is not among the nodes; otherwise the plan. */
  method PlanRevokeTree(nodes: seq<Node>, root: U64) returns (r: Option<seq<Batch>>)
    ensures r.None? <==> LastNode(nodes, root).None?
    ensures r.None? <==> forall n :: n in nodes ==> n.authorityId != root
    ensures r.Some? ==> IsPlan(nodes, root, r.value)
  {
    LastNodeIn(nodes, root);
    var byId, childrenOf := BuildMaps(nodes);
    if root !in byId {
      return None;
    }
    var subtree, seen := Collect(nodes, root, byId, childrenOf);
    ghost var collected := subtree;
    subtree := SortDeepestFirst(subtree);
    SortedFound(byId, seen, collected, subtree);
    var batches := MakeBatches(nodes, childrenOf, subtree);
    BatchesPlan(nodes, root, byId, seen, subtree, batches);
    return Some(batches);
  }

  lemma BatchesPlan(nodes: seq<Node>, root: U64, byId: map<U64, Node>, seen: set<U64>, subtree: seq<Node>, batches: seq<Batch>)
    requires forall id :: LastNode(nodes, id) == if id in byId then Some(byId[id]) else None
    requires Found(byId, seen, subtree) && Sorted(subtree)
    requires forall id :: id in seen <==> Reaches(nodes, root, id)
    requires |batches| == |Actives(subtree)|
    requires forall k :: 0 <= k < |batches| ==> batches[k] == BatchOf(nodes, Actives(subtree)[k])
    ensures IsPlan(nodes, root, batches)
  {
    var from := Actives(subtree);
    ActivesSorted(subtree);
    forall k | 0 <= k < |batches|
      ensures LastNode(nodes, batches[k].authorityId) == Some(from[k]) && Wanted(nodes, root, batches[k].authorityId)
    {
      assert from[k] in subtree;
    }
    forall id | Wanted(nodes, root, id)
      ensures exists k :: 0 <= k < |batches| && batches[k].authorityId == id
    {
      LastNodeIn(nodes, id);
      assert byId[id] in from;
      var k :| 0 <= k < |from| && from[k] == byId[id];
      assert batches[k].authorityId == id;
    }
  }

  /** Sorting what was found loses nothing and doubles nothing. */
  lemma SortedFound(byId: map<U64, Node>, seen: set<U64>, s: seq<Node>, r: seq<Node>)
    requires Found(byId, seen, s) && multiset(r) == multiset(s)
    ensures Found(byId, seen, r)
  {
    forall n: Node
      ensures n in r <==> n in s
    {
      assert n in multiset(r) <==> n in multiset(s);
    }
    forall j, k | 0 <= j < k < |r|
      ensures r[j].authorityId != r[k].authorityId
    {
      assert r[j] in s && r[k] in s;
      if r[j] == r[k] {
        TwiceIn(r, j, k);
        OnceIn(s, r[j]);
      }
    }
  }

  lemma TwiceIn(s: seq<Node>, j: nat, k: nat)
    requires j < k < |s| && s[j] == s[k]
    ensures multiset(s)[s[j]] >= 2
  {
    assert s == s[..j] + [s[j]] + s[j + 1..k] + [s[k]] + s[k + 1..];
  }

  lemma {:induction false} OnceIn(s: seq<Node>, n: Node)
    requires Distinct(s)
    ensures multiset(s)[n] <= 1
  {
    if s != [] {
      var m := |s| - 1;
      assert s == s[..m] + [s[m]];
      OnceIn(s[..m], n);
      if n == s[m] {
        assert n !in s[..m];
        assert multiset(s[..m])[n] == 0;
      }
    }
  }
}
