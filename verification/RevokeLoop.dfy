/** The client's loop over a plan, as the program is written and as it is intended. */
module RevokeLoop {
  import opened Types
  import opened AuthoritySpec
  import opened Machine
  import opened Forest
  import opened AuthorityRuns
  import opened Planner
  import opened ProgramModel
  import opened Revocation
  import opened Setting

  /** How many batches the loop gets through: as written it stops at the first that lists a child. */
  function StopsAt(b: WriteBack, plan: seq<Batch>): (n: nat)
    ensures n <= |plan|
    ensures forall k :: 0 <= k < n ==> b.AsIntended? || plan[k].children == []
    ensures n < |plan| ==> b.AsWritten? && plan[n].children != []
  {
    if plan == [] || (b.AsWritten? && plan[0].children != []) then 0 else 1 + StopsAt(b, plan[1..])
  }

  /** Some Active authority of the subtree has an Active child. */
  ghost predicate Nested(A: Authorities, root: U64) {
    exists id, child :: ActivePair(A, root, id, child)
  }

  ghost predicate ActivePair(A: Authorities, root: U64, id: U64, child: U64) {
    && id in Subtree(A, root) && A[id].status == Active && id != 0
    && child in A && A[child].parentId == id && A[child].status == Active
  }

  /** The targets of the first `n` batches. */
  function Targets(plan: seq<Batch>, n: nat): set<U64>
    requires n <= |plan|
  {
    set k | 0 <= k < n :: plan[k].authorityId
  }

  /** As written the loop comes through a plan exactly if nothing Active in the subtree has an Active child. */
  lemma StopExact(w: World, agent: Pubkey, root: U64, nodes: seq<Node>, plan: seq<Batch>)
    requires Ready(w, agent, root, nodes) && IsPlan(nodes, root, plan)
    ensures StopsAt(AsWritten, plan) == |plan| <==> !Nested(w.authorities, root)
  {
    hide Subtree, ForestInv;
    var A := w.authorities;
    PlanFits(w, agent, root, nodes, plan);
    var n := StopsAt(AsWritten, plan);
    if n < |plan| {
      var c := plan[n].children[0];
      assert c in plan[n].children;
      ListedIsActive(w, agent, root, nodes, plan, n, c);
      assert ActivePair(A, root, plan[n].authorityId, c.address);
    }
    if Nested(A, root) {
      var id, child :| ActivePair(A, root, id, child);
      var k :| 0 <= k < |plan| && plan[k].authorityId == id;
      ActiveIsListed(w, agent, root, nodes, plan, k, child);
    }
  }

  lemma ListedIsActive(w: World, agent: Pubkey, root: U64, nodes: seq<Node>, plan: seq<Batch>, k: nat, c: Child)
    requires Ready(w, agent, root, nodes) && IsPlan(nodes, root, plan) && k < |plan| && c in plan[k].children
    ensures plan[k].authorityId != 0 && c.address in w.authorities && w.authorities[c.address].status == Active
  {
    var id := plan[k].authorityId;
    assert Wanted(nodes, root, id);
    LastNodeIn(nodes, id);
    ActiveKidsIn(Children(nodes, id), c);
    var n :| n in Children(nodes, id) && n.status == Active && c == Planner.Child(n.authorityId, n.address);
    ChildrenIn(nodes, id, n);
    assert n == NodeOf(w.authorities, n.authorityId);
  }

  lemma ActiveIsListed(w: World, agent: Pubkey, root: U64, nodes: seq<Node>, plan: seq<Batch>, k: nat, child: U64)
    requires Ready(w, agent, root, nodes) && IsPlan(nodes, root, plan) && k < |plan|
    requires ActivePair(w.authorities, root, plan[k].authorityId, child)
    ensures plan[k].children != []
  {
    var A, id := w.authorities, plan[k].authorityId;
    assert Wanted(nodes, root, id);
    LastNodeIn(nodes, id);
    SubtreeByParent(A, Count(w), root, child);
    var n := NodeOf(A, child);
    assert n in nodes;
    ChildrenIn(nodes, id, n);
    ActiveKidsIn(Children(nodes, id), Planner.Child(n.authorityId, n.address));
  }

  /** A batch is carried out with all its children. */
  lemma CallsCascadable(b: WriteBack, plan: seq<Batch>, agent: Pubkey, n: nat)
    requires n <= StopsAt(b, plan)
    ensures AllCascadable(b, CallsOf(plan, agent), n)
    ensures n < |plan| ==> (Cascadable(b, CallsOf(plan, agent)[n]) <==> n < StopsAt(b, plan))
  {
    if n < |plan| && plan[n].children != [] {
      assert |CallsOf(plan, agent)[n].children| > 0;
    }
  }

  lemma {:induction false} NamedAreTargets(plan: seq<Batch>, agent: Pubkey, n: nat)
    requires n <= StopsAt(AsWritten, plan)
    ensures Named(CallsOf(plan, agent), n) == Targets(plan, n)
  {
    if n > 0 {
      NamedAreTargets(plan, agent, n - 1);
      assert CallsOf(plan, agent)[n - 1].children == [];
      assert Targets(plan, n) == Targets(plan, n - 1) + {plan[n - 1].authorityId};
    }
  }

  lemma SilenceIsQuiet(n: nat, agent: Pubkey)
    ensures |Silence(n)| == n && Quiet(Silence(n), agent)
  {
  }

  /** Where the loop stands after `n` calls. */
  lemma LoopState(w: World, agent: Pubkey, root: U64, nodes: seq<Node>, plan: seq<Batch>, n: nat)
    requires Ready(w, agent, root, nodes) && IsPlan(nodes, root, plan) && n <= StopsAt(w.writeBack, plan)
    ensures var calls := CallsOf(plan, agent);
            At(w, calls, Silence(|calls| + 1), n) == w.(authorities := Revoke(w.authorities, Named(calls, n)))
  {
    hide Exec, Step, IsPlan, ForestInv, Cascadable, AllCascadable, Revoke, Subtree, Ready, Fits, Follows, At, Named, StopsAt;
    CallsFollow(plan, agent);
    CallsCascadable(w.writeBack, plan, agent, n);
    PlanFits(w, agent, root, nodes, plan);
    ReadyToRun(w, agent, root, nodes);
    Undisturbed(w, agent, root, plan, CallsOf(plan, agent), n);
  }

  /** And what becomes of its next call. */
  lemma LoopCall(w: World, agent: Pubkey, root: U64, nodes: seq<Node>, plan: seq<Batch>, n: nat)
    requires Ready(w, agent, root, nodes) && IsPlan(nodes, root, plan) && n <= StopsAt(w.writeBack, plan) && n < |plan|
    ensures var calls := CallsOf(plan, agent);
            var now := At(w, calls, Silence(|calls| + 1), n);
            && (Accepted(now, DoRevoke(calls[n])) <==> n < StopsAt(w.writeBack, plan))
            && (n == StopsAt(w.writeBack, plan) ==> Exec(now, DoRevoke(calls[n])) == Err(AccountDidNotSerialize))
  {
    hide Exec, Step, Accepted, IsPlan, ForestInv, Cascadable, AllCascadable, Revoke, Subtree, Ready, Fits, Follows, At, StopsAt, Quiet, Silence;
    var calls := CallsOf(plan, agent);
    CallsFollow(plan, agent);
    CallsCascadable(w.writeBack, plan, agent, n);
    SilenceIsQuiet(|calls| + 1, agent);
    PlanCallExact(w, agent, root, nodes, plan, calls, Silence(|calls| + 1), n);
  }

  /** What a snapshot's plan comes to: all of the Active subtree revoked, or, as written and with something
      Active nested, exactly the targets before the first batch that lists a child. */
  lemma LoopExact(w: World, agent: Pubkey, root: U64, nodes: seq<Node>, plan: seq<Batch>)
    requires Ready(w, agent, root, nodes) && IsPlan(nodes, root, plan)
    ensures var calls, n := CallsOf(plan, agent), StopsAt(w.writeBack, plan);
            && (n == |plan| <==> w.writeBack.AsIntended? || !Nested(w.authorities, root))
            && At(w, calls, Silence(|calls| + 1), n) == w.(authorities := Revoke(w.authorities,
                if n == |plan| then Subtree(w.authorities, root) else Targets(plan, n)))
  {
    hide Exec, Step, IsPlan, ForestInv, Revoke, Subtree, Ready, Nested;
    var n := StopsAt(w.writeBack, plan);
    LoopState(w, agent, root, nodes, plan, n);
    if w.writeBack.AsWritten? {
      StopExact(w, agent, root, nodes, plan);
      NamedAreTargets(plan, agent, n);
    }
    if n == |plan| {
      CallsFollow(plan, agent);
      CallsCascadable(w.writeBack, plan, agent, n);
      PlanExact(w, agent, root, nodes, plan, CallsOf(plan, agent));
    }
  }

  /** What the loop comes to: through the whole plan, with exactly the Active authorities of the subtree
      revoked, if the program is built as intended or nothing Active in the subtree has an Active child;
      otherwise to the first batch that lists a child, refused by the write-back, with exactly the targets
      before it revoked. */
  ghost predicate ComesTo(w: World, agent: Pubkey, root: U64, plan: seq<Batch>, ok: bool, n: nat, now: World)
    requires n <= |plan|
  {
    && n == StopsAt(w.writeBack, plan)
    && (ok <==> n == |plan|)
    && (ok <==> w.writeBack.AsIntended? || !Nested(w.authorities, root))
    && now == w.(authorities := Revoke(w.authorities, if ok then Subtree(w.authorities, root) else Targets(plan, n)))
    && (!ok ==> Exec(now, DoRevoke(CallsOf(plan, agent)[n])) == Err(AccountDidNotSerialize))
  }

  lemma StartsUnmoved(w: World)
    ensures forall calls: seq<RevokeCall> :: At(w, calls, Silence(|calls| + 1), 0) == w
  {
  }

  /** The client's loop: plan, then one transaction a batch with all its children, stopping at the first
      failure. From a complete snapshot, signed by the root's agent, it comes through exactly if the
      program is built as intended or nothing Active in the subtree has an Active child; then exactly the
      Active authorities of the subtree are Revoked. Otherwise it stops at the first batch that lists a
      child, and exactly the targets before that are. */
  method RevokeTree(program: Program, agent: Pubkey, root: U64, nodes: seq<Node>) returns (ok: bool, signatures: nat, ghost plan: seq<Batch>)
    modifies program
    ensures LastNode(nodes, root).None? ==> !ok && program.bank == old(program.bank)
    ensures LastNode(nodes, root).Some? ==>
      && IsPlan(nodes, root, plan) && signatures <= |plan| && (ok <==> signatures == |plan|)
      && program.bank == At(old(program.bank), CallsOf(plan, agent), Silence(|plan| + 1), signatures)
      && (!ok ==> !Accepted(program.bank, DoRevoke(CallsOf(plan, agent)[signatures])))
    ensures Ready(old(program.bank), agent, root, nodes) ==>
      signatures <= |plan| && ComesTo(old(program.bank), agent, root, plan, ok, signatures, program.bank)
  {
    hide Exec, Step, Accepted, Ready, IsPlan, Revoke, Subtree, Nested, ComesTo, StopsAt, At;
    StartsUnmoved(program.bank);
    ghost var w := program.bank;
    signatures := 0;
    plan := [];
    RootIsNode(w, agent, root, nodes);
    var planned := PlanRevokeTree(nodes, root);
    if planned.None? {
      return false, 0, [];
    }
    var batches := planned.value;
    plan := batches;
    ghost var calls := CallsOf(plan, agent);
    ghost var noise := Silence(|calls| + 1);
    while signatures < |batches|
      invariant signatures <= |batches|
      invariant program.bank == At(w, calls, noise, signatures)
      invariant Ready(w, agent, root, nodes) ==> signatures <= StopsAt(w.writeBack, plan)
    {
      NextCall(w, agent, root, nodes, plan, signatures);
      var batch := batches[signatures];
      var r := program.Execute(DoRevoke(RevokeCall(agent, batch.authorityId, MetasOf(batch.children))));
      if r.Err? {
        Stopped(w, agent, root, nodes, plan);
        return false, signatures, plan;
      }
      signatures := signatures + 1;
    }
    Stopped(w, agent, root, nodes, plan);
    return true, signatures, plan;
  }

  lemma RootIsNode(w: World, agent: Pubkey, root: U64, nodes: seq<Node>)
    ensures Ready(w, agent, root, nodes) ==> LastNode(nodes, root).Some?
  {
    if Ready(w, agent, root, nodes) {
      SnapshotLast(w.authorities, root, nodes, root);
    }
  }

  lemma NextCall(w: World, agent: Pubkey, root: U64, nodes: seq<Node>, plan: seq<Batch>, j: nat)
    requires IsPlan(nodes, root, plan) && j < |plan|
    ensures var calls := CallsOf(plan, agent);
            var noise := Silence(|calls| + 1);
            var now := At(w, calls, noise, j);
            && At(w, calls, noise, j + 1) == Step(now, DoRevoke(calls[j]))
            && (!Accepted(now, DoRevoke(calls[j])) ==> At(w, calls, noise, j + 1) == now)
            && (Ready(w, agent, root, nodes) && j <= StopsAt(w.writeBack, plan) ==>
                (Accepted(now, DoRevoke(calls[j])) <==> j < StopsAt(w.writeBack, plan)))
  {
    hide Exec, Ready, IsPlan;
    if Ready(w, agent, root, nodes) && j <= StopsAt(w.writeBack, plan) {
      LoopCall(w, agent, root, nodes, plan, j);
    }
  }

  lemma Stopped(w: World, agent: Pubkey, root: U64, nodes: seq<Node>, plan: seq<Batch>)
    requires IsPlan(nodes, root, plan)
    ensures Ready(w, agent, root, nodes) ==>
      var n := StopsAt(w.writeBack, plan);
      ComesTo(w, agent, root, plan, n == |plan|, n, At(w, CallsOf(plan, agent), Silence(|plan| + 1), n))
  {
    hide Exec, Step, Ready, IsPlan, Revoke, Subtree, Nested, At;
    if Ready(w, agent, root, nodes) {
      LoopExact(w, agent, root, nodes, plan);
      if StopsAt(w.writeBack, plan) < |plan| {
        LoopCall(w, agent, root, nodes, plan, StopsAt(w.writeBack, plan));
      }
    }
  }

  // ---- one by one ----

  /** The calls of a loop that passes no children. */
  function BareCalls(plan: seq<Batch>, agent: Pubkey): seq<RevokeCall> {
    seq(|plan|, k requires 0 <= k < |plan| => RevokeCall(agent, plan[k].authorityId, []))
  }

  /** The accounts after `n` batches of a loop that leaves out what is not Active any more. */
  function Swept(w: World, plan: seq<Batch>, agent: Pubkey, n: nat): World
    requires n <= |plan|
  {
    if n == 0 then w
    else
      var now := Swept(w, plan, agent, n - 1);
      var id := plan[n - 1].authorityId;
      if id in now.authorities && now.authorities[id].status == Active then Step(now, DoRevoke(RevokeCall(agent, id, []))) else now
  }

  lemma BareFollow(b: WriteBack, plan: seq<Batch>, agent: Pubkey, n: nat)
    requires n <= |plan|
    ensures Follows(plan, agent, BareCalls(plan, agent)) && AllCascadable(b, BareCalls(plan, agent), n)
    ensures n < |plan| ==> Cascadable(b, BareCalls(plan, agent)[n])
  {
  }

  /** The authority is Active, and revoking it alone is accepted. */
  predicate Due(now: World, agent: Pubkey, id: U64) {
    id in now.authorities && now.authorities[id].status == Active && Accepted(now, DoRevoke(RevokeCall(agent, id, [])))
  }

  /** From a snapshot every call without children is accepted, and its target is still Active. */
  lemma BareCall(w: World, agent: Pubkey, root: U64, nodes: seq<Node>, plan: seq<Batch>, n: nat)
    requires Ready(w, agent, root, nodes) && IsPlan(nodes, root, plan) && n < |plan|
    ensures Due(At(w, BareCalls(plan, agent), Silence(|plan| + 1), n), agent, plan[n].authorityId)
  {
    hide Exec, Step, Accepted, IsPlan, ForestInv, Cascadable, AllCascadable, Ready, Fits, Follows, At, Quiet, Silence, Progress;
    var calls := BareCalls(plan, agent);
    var noise := Silence(|calls| + 1);
    BareFollow(w.writeBack, plan, agent, n);
    SilenceIsQuiet(|calls| + 1, agent);
    PlanFits(w, agent, root, nodes, plan);
    ReadyToRun(w, agent, root, nodes);
    Advance(w, agent, root, plan, calls, noise, n);
    TargetActive(w.authorities, agent, root, plan, n, At(w, calls, noise, n).authorities);
    PlanCallExact(w, agent, root, nodes, plan, calls, noise, n);
  }

  /** So the loop leaves out nothing. */
  lemma {:induction false} SweptIsPlan(w: World, agent: Pubkey, root: U64, nodes: seq<Node>, plan: seq<Batch>, n: nat)
    requires Ready(w, agent, root, nodes) && IsPlan(nodes, root, plan) && n <= |plan|
    ensures Swept(w, plan, agent, n) == At(w, BareCalls(plan, agent), Silence(|BareCalls(plan, agent)| + 1), n)
  {
    hide Exec, Step, Accepted, IsPlan, Ready;
    if n > 0 {
      SweptIsPlan(w, agent, root, nodes, plan, n - 1);
      BareCall(w, agent, root, nodes, plan, n - 1);
    }
  }

  lemma SweptExact(w: World, agent: Pubkey, root: U64, nodes: seq<Node>, plan: seq<Batch>)
    requires Ready(w, agent, root, nodes) && IsPlan(nodes, root, plan)
    ensures Swept(w, plan, agent, |plan|) == w.(authorities := Revoke(w.authorities, Subtree(w.authorities, root)))
  {
    hide Exec, Step, IsPlan, Ready, Revoke, Subtree;
    SweptIsPlan(w, agent, root, nodes, plan, |plan|);
    BareFollow(w.writeBack, plan, agent, |plan|);
    PlanExact(w, agent, root, nodes, plan, BareCalls(plan, agent));
  }

  /** The demonstration's loop: the same plan, one authority a transaction, no children passed. From a
      complete snapshot, signed by the root's agent, it never fails, leaves out nothing and revokes
      exactly the Active authorities of the subtree, as written and as intended alike. */
  method RevokeOneByOne(program: Program, agent: Pubkey, root: U64, nodes: seq<Node>) returns (ok: bool, revoked: nat, ghost plan: seq<Batch>)
    modifies program
    ensures LastNode(nodes, root).None? ==> !ok && program.bank == old(program.bank)
    ensures LastNode(nodes, root).Some? ==>
      IsPlan(nodes, root, plan) && (ok ==> program.bank == Swept(old(program.bank), plan, agent, |plan|))
    ensures Ready(old(program.bank), agent, root, nodes) ==>
      var w := old(program.bank);
      ok && revoked == |plan| && program.bank == w.(authorities := Revoke(w.authorities, Subtree(w.authorities, root)))
  {
    hide Exec, Step, Ready, IsPlan, Revoke, Subtree;
    ghost var w := program.bank;
    revoked := 0;
    plan := [];
    RootIsNode(w, agent, root, nodes);
    var planned := PlanRevokeTree(nodes, root);
    if planned.None? {
      return false, 0, [];
    }
    var batches := planned.value;
    plan := batches;
    var i := 0;
    while i < |batches|
      invariant 0 <= i <= |batches|
      invariant program.bank == Swept(w, plan, agent, i)
      invariant Ready(w, agent, root, nodes) ==> revoked == i
    {
      if Ready(w, agent, root, nodes) {
        SweptIsPlan(w, agent, root, nodes, plan, i);
        BareCall(w, agent, root, nodes, plan, i);
      }
      var id := batches[i].authorityId;
      if id in program.bank.authorities && program.bank.authorities[id].status == Active {
        var r := program.Execute(DoRevoke(RevokeCall(agent, id, [])));
        if r.Err? {
          return false, revoked, plan;
        }
        revoked := revoked + 1;
      }
      i := i + 1;
    }
    if Ready(w, agent, root, nodes) {
      SweptExact(w, agent, root, nodes, plan);
    }
    return true, revoked, plan;
  }

  // ---- one authority and its child ----

  function BothNodes(b: WriteBack): seq<Node> {
    [NodeOf(Delegated(b).authorities, 1), NodeOf(Delegated(b).authorities, 2)]
  }

  /** The child first, then the root with the child listed. */
  function ChildThenRoot(): seq<Batch> {
    [Batch(2, 2, []), Batch(1, 1, [Planner.Child(2, 2)])]
  }

  lemma BothMaps(b: WriteBack)
    ensures var nodes := BothNodes(b);
            && LastNode(nodes, 1) == Some(nodes[0]) && LastNode(nodes, 2) == Some(nodes[1])
            && BatchOf(nodes, nodes[0]) == ChildThenRoot()[1] && BatchOf(nodes, nodes[1]) == ChildThenRoot()[0]
  {
    var nodes := BothNodes(b);
    var root, child := nodes[0], nodes[1];
    assert nodes[..1] == [root] && [root][..0] == [] && [child][..0] == [];
    assert LastNode([root], 1) == Some(root);
    assert Children([], 1) == [] && Children([root], 1) == [] && Children([root], 2) == [];
    assert Children(nodes, 1) == Children([root], 1) + [child] == [child];
    assert Children(nodes, 2) == Children([root], 2);
    assert ActiveKids([child]) == ActiveKids([]) + [Planner.Child(2, 2)] == [Planner.Child(2, 2)];
  }

  lemma BothReached(b: WriteBack)
    ensures Reaches(BothNodes(b), 1, 1) && Reaches(BothNodes(b), 1, 2)
  {
    var nodes := BothNodes(b);
    assert IsPath(nodes, 1, [1]);
    assert Link(nodes, 1, 2) by { assert nodes[1] in nodes; }
    ReachStep(nodes, 1, 1, 2);
  }

  lemma PlanOfBoth(b: WriteBack)
    ensures IsPlan(BothNodes(b), 1, ChildThenRoot())
  {
    hide LastNode, BatchOf, Reaches;
    var nodes, plan := BothNodes(b), ChildThenRoot();
    BothMaps(b);
    BothReached(b);
    forall id | Wanted(nodes, 1, id)
      ensures exists k :: 0 <= k < |plan| && plan[k].authorityId == id
    {
      LastNodeIn(nodes, id);
      assert plan[0].authorityId == 2 && plan[1].authorityId == 1;
    }
  }

  lemma FirstCall(b: WriteBack)
    ensures RevokeAuthority(Delegated(b), CallsOf(ChildThenRoot(), ALICE)[0])
            == Ok(Delegated(b).(authorities := Revoke(Delegated(b).authorities, {2})))
    ensures var A := Revoke(Delegated(b).authorities, {2});
            A.Keys == {1, 2} && A[1].status == Active && A[2].status == Revoked
  {
    var c := CallsOf(ChildThenRoot(), ALICE)[0];
    assert c.children == [];
    assert ChildIds(c.children) + {2} == {2};
  }

  lemma SecondCall(b: WriteBack)
    ensures var w, c := Delegated(b).(authorities := Revoke(Delegated(b).authorities, {2})), CallsOf(ChildThenRoot(), ALICE)[1];
            RevokeAuthority(w, c) == match b
              case AsWritten => Err(AccountDidNotSerialize)
              case AsIntended => Ok(w.(authorities := Revoke(w.authorities, {1, 2})))
  {
    var c := CallsOf(ChildThenRoot(), ALICE)[1];
    assert c.children == [ChildMeta(2, true)];
    assert ChildIds(c.children) + {1} == {1, 2};
  }

  /** The smallest case that tells the two write-backs apart, and a run that leads to it. The client's
      plan revokes the child, then the root with the child listed. As written the second call is refused and
      the root stays Active; as intended both end up Revoked. */
  lemma RootSurvives(b: WriteBack)
    ensures Init(Beginning(b)) && Run(Run(Beginning(b), Registrations()), Delegations()) == Delegated(b)
    ensures IsPlan(BothNodes(b), 1, ChildThenRoot())
    ensures var calls := CallsOf(ChildThenRoot(), ALICE);
            var one := RevokeAuthority(Delegated(b), calls[0]);
            && one.Ok? && one.value.authorities == Revoke(Delegated(b).authorities, {2})
            && one.value.authorities.Keys == {1, 2} && one.value.authorities[1].status == Active && one.value.authorities[2].status == Revoked
            && RevokeAuthority(one.value, calls[1]) == match b
              case AsWritten => Err(AccountDidNotSerialize)
              case AsIntended => Ok(one.value.(authorities := Revoke(one.value.authorities, {1, 2})))
  {
    hide Run, RevokeAuthority, IsPlan, Revoke;
    Delegating(b);
    PlanOfBoth(b);
    FirstCall(b);
    SecondCall(b);
  }
}
