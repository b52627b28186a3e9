/** The planner against the program: carrying out a plan revokes a whole subtree for good. */
module Revocation {
  import opened Types
  import opened AuthoritySpec
  import opened Machine
  import opened Forest
  import opened AuthorityRuns
  import opened Planner
  import opened Frames

  // ---- snapshots ----

  function NodeOf(A: Authorities, id: U64): Node
    requires id in A
  {
    Node(id, A[id].parentId, A[id].depth, A[id].status, id, A[id].agent)
  }

  /** True nodes only, and all those of the root's subtree. */
  ghost predicate Snapshot(A: Authorities, root: U64, nodes: seq<Node>) {
    && (forall n :: n in nodes ==> n.authorityId in A && n == NodeOf(A, n.authorityId))
    && (forall id :: id in Subtree(A, root) ==> NodeOf(A, id) in nodes)
  }

  /** The nodes of a scan of the ids 1 to `maxId`, one agent's or everybody's. */
  function Scan(A: Authorities, maxId: U64, agent: Option<Pubkey>): seq<Node> {
    if maxId == 0 then []
    else
      var rest := Scan(A, maxId - 1, agent);
      if maxId in A && (agent == None || agent.value == A[maxId].agent) then rest + [NodeOf(A, maxId)] else rest
  }

  lemma {:induction false} ScanHas(A: Authorities, maxId: U64, agent: Option<Pubkey>, n: Node)
    ensures n in Scan(A, maxId, agent) <==>
            1 <= n.authorityId <= maxId && n.authorityId in A && n == NodeOf(A, n.authorityId) && (agent == None || agent.value == n.agent)
  {
    if maxId > 0 {
      ScanHas(A, maxId - 1, agent, n);
    }
  }

  /** Scanning every issued id, for the root's agent or for all, gives a complete snapshot. */
  lemma ScanIsSnapshot(A: Authorities, count: U64, maxId: U64, agent: Option<Pubkey>, root: U64)
    requires Inv(A, count) && root in A && count <= maxId
    requires agent == None || agent.value == A[root].agent
    ensures Snapshot(A, root, Scan(A, maxId, agent))
  {
    forall n
      ensures n in Scan(A, maxId, agent) ==> n.authorityId in A && n == NodeOf(A, n.authorityId)
    {
      ScanHas(A, maxId, agent, n);
    }
    forall id | id in Subtree(A, root)
      ensures NodeOf(A, id) in Scan(A, maxId, agent)
    {
      Attenuation(A, count, id);
      ScanHas(A, maxId, agent, NodeOf(A, id));
    }
  }

  lemma SnapshotLast(A: Authorities, root: U64, nodes: seq<Node>, id: U64)
    requires Snapshot(A, root, nodes)
    ensures LastNode(nodes, id).Some? ==> id in A && LastNode(nodes, id).value == NodeOf(A, id)
    ensures id in Subtree(A, root) ==> LastNode(nodes, id) == Some(NodeOf(A, id))
  {
    LastNodeIn(nodes, id);
  }

  /** Reachability in the snapshot is descent in the store. */
  lemma ReachIsSubtree(A: Authorities, count: U64, root: U64, nodes: seq<Node>, id: U64)
    requires Inv(A, count) && root in A && Snapshot(A, root, nodes)
    ensures Reaches(nodes, root, id) <==> id in Subtree(A, root)
  {
    if Reaches(nodes, root, id) {
      forall up, c | up in Subtree(A, root) && Link(nodes, up, c)
        ensures c in Subtree(A, root)
      {
        var n :| n in nodes && n.parentId == up && n.authorityId == c;
        SubtreeByParent(A, count, root, c);
      }
      ReachStays(nodes, root, Subtree(A, root), id);
    }
    if id in Subtree(A, root) {
      SubtreeReached(A, count, root, nodes, id);
    }
  }

  lemma {:induction false} SubtreeReached(A: Authorities, count: U64, root: U64, nodes: seq<Node>, id: U64)
    requires Inv(A, count) && root in A && Snapshot(A, root, nodes) && id in Subtree(A, root)
    ensures Reaches(nodes, root, id)
    decreases id
  {
    if id == root {
      assert IsPath(nodes, root, [root]);
    } else {
      var up := A[id].parentId;
      SubtreeByParent(A, count, root, id);
      assert WellKept(A, id);
      SubtreeReached(A, count, root, nodes, up);
      assert NodeOf(A, id) in nodes;
      assert Link(nodes, up, id);
      ReachStep(nodes, root, up, id);
    }
  }

  // ---- carrying out a plan ----

  /** Calls that follow a plan: its targets in its order, each cascading to any of the children it lists. */
  ghost predicate Follows(plan: seq<Batch>, agent: Pubkey, calls: seq<RevokeCall>) {
    && |calls| == |plan|
    && forall k :: 0 <= k < |calls| ==>
      && calls[k].agent == agent && calls[k].authorityId == plan[k].authorityId
      && forall m :: m in calls[k].children ==> m.writable && exists c :: c in plan[k].children && c.address == m.id
  }

  /** As written, the write-back of a child never fits, so only a call without children can be accepted. That
      it fits is what the theorems below assume of a program built as intended. */
  predicate Cascadable(b: WriteBack, c: RevokeCall) {
    c.children == [] || b.AsIntended?
  }

  lemma WriteBackExact(b: WriteBack)
    ensures ChildFits(b) <==> b.AsIntended?
  {
  }

  /** A revoke is accepted if and only if its agent revokes an Active authority of its own, and every account
      passed along is a writable direct child of that authority, of the same agent, which the program can write
      back. It ends that authority and the children that are Active, and changes nothing else. */
  lemma RevokeExact(w: World, c: RevokeCall)
    requires ForestInv(w)
    ensures var A := w.authorities;
            RevokeAuthority(w, c).Ok? <==>
              && c.agent.Wallet? && c.authorityId in A && A[c.authorityId].agent == c.agent && A[c.authorityId].status == Active
              && Cascadable(w.writeBack, c)
              && forall m :: m in c.children ==> m.writable && m.id in A && A[m.id].parentId == c.authorityId && A[m.id].agent == c.agent
    ensures RevokeAuthority(w, c).Ok? ==>
      var A, n := w.authorities, RevokeAuthority(w, c).value.authorities;
      && n.Keys == A.Keys
      && forall id :: id in A ==>
        n[id] == if (id == c.authorityId || exists m :: m in c.children && m.id == id) && A[id].status == Active then A[id].(status := Revoked) else A[id]
  {
    hide Revoke, RevokeAuthority, CascadeRefusal;
    if c.authorityId in w.authorities {
      assert WellKept(w.authorities, c.authorityId);
    }
    CascadeExact(w, c);
    RevokeOk(w, c);
    if RevokeAuthority(w, c).Ok? {
      RevokeLeaves(w, c);
    }
    hide Inv, WellKept;
  }

  lemma CascadeExact(w: World, c: RevokeCall)
    ensures CascadeRefusal(w, c).None? <==>
      Cascadable(w.writeBack, c)
      && forall m :: m in c.children ==>
        m.writable && m.id in w.authorities && w.authorities[m.id].parentId == c.authorityId && w.authorities[m.id].agent == c.agent
  {
    WriteBackExact(w.writeBack);
    hide ChildFits;
    if c.children != [] {
      assert c.children[0] in c.children;
    }
    if c.children != [] && w.writeBack.AsIntended? {
      assert CascadeRefusal(w, c).None? <==> forall m :: m in c.children ==> CascadeChild(w.authorities, c, m);
    }
  }

  lemma RevokeOk(w: World, c: RevokeCall)
    ensures RevokeAuthority(w, c).Ok? <==>
      && RevokeAccounts(w, c).None? && w.authorities[c.authorityId].status == Active && CascadeRefusal(w, c).None?
  {
    hide CascadeRefusal, Revoke;
  }

  lemma RevokeLeaves(w: World, c: RevokeCall)
    requires RevokeAuthority(w, c).Ok?
    ensures var A, n := w.authorities, RevokeAuthority(w, c).value.authorities;
      && n.Keys == A.Keys
      && forall id :: id in A ==>
        n[id] == if (id == c.authorityId || exists m :: m in c.children && m.id == id) && A[id].status == Active then A[id].(status := Revoked) else A[id]
  {
    hide CascadeRefusal;
    forall id | id in w.authorities
      ensures id in ChildIds(c.children) + {c.authorityId} <==> id == c.authorityId || exists m :: m in c.children && m.id == id
    {
    }
  }

  /** An authority is marked Expired if and only if its agent asks, it is Active, and its expiry slot has passed. */
  lemma ExpireExact(w: World, c: ExpireCall)
    requires ForestInv(w)
    ensures var A := w.authorities;
            ExpireAuthority(w, c).Ok? <==>
              && c.agent.Wallet? && c.authorityId in A && A[c.authorityId].agent == c.agent && A[c.authorityId].status == Active
              && A[c.authorityId].expirySlot != 0 && w.slot > A[c.authorityId].expirySlot
    ensures ExpireAuthority(w, c).Ok? ==>
      ExpireAuthority(w, c).value.authorities == w.authorities[c.authorityId := w.authorities[c.authorityId].(status := Expired)]
  {
    if c.authorityId in w.authorities {
      assert WellKept(w.authorities, c.authorityId);
    }
  }

  ghost predicate AllCascadable(b: WriteBack, calls: seq<RevokeCall>, n: nat)
    requires n <= |calls|
  {
    forall k :: 0 <= k < n ==> Cascadable(b, calls[k])
  }

  /** What a plan is made from and run on. */
  ghost predicate Ready(w: World, agent: Pubkey, root: U64, nodes: seq<Node>) {
    && ForestInv(w) && root in w.authorities
    && agent.Wallet? && w.authorities[root].agent == agent
    && Snapshot(w.authorities, root, nodes)
  }

  /** A plan that fits the store: it holds exactly the Active ids of the subtree, the children of its
      targets are true children, and no target repeats or is a child of an earlier one. */
  ghost predicate Fits(A: Authorities, agent: Pubkey, root: U64, plan: seq<Batch>) {
    && (forall k :: 0 <= k < |plan| ==>
      plan[k].authorityId in Subtree(A, root) && A[plan[k].authorityId].agent == agent && A[plan[k].authorityId].status == Active)
    && (forall k, c :: 0 <= k < |plan| && c in plan[k].children ==>
      c.address in Subtree(A, root) && A[c.address].parentId == plan[k].authorityId && A[c.address].agent == agent)
    && (forall id :: id in Subtree(A, root) && A[id].status == Active ==> exists k :: 0 <= k < |plan| && plan[k].authorityId == id)
    && (forall j, k :: 0 <= j < k < |plan| ==>
      plan[j].authorityId != plan[k].authorityId && A[plan[k].authorityId].parentId != plan[j].authorityId)
  }

  /** Deepest first is what makes a plan fit. */
  lemma PlanFits(w: World, agent: Pubkey, root: U64, nodes: seq<Node>, plan: seq<Batch>)
    requires Ready(w, agent, root, nodes) && IsPlan(nodes, root, plan)
    ensures Fits(w.authorities, agent, root, plan)
  {
    var A := w.authorities;
    forall k | 0 <= k < |plan|
      ensures var id := plan[k].authorityId;
              id in Subtree(A, root) && A[id].agent == agent && LastNode(nodes, id) == Some(NodeOf(A, id)) && A[id].status == Active
    {
      var id := plan[k].authorityId;
      assert Wanted(nodes, root, id);
      ReachIsSubtree(A, Count(w), root, nodes, id);
      SnapshotLast(A, root, nodes, id);
      Attenuation(A, Count(w), id);
    }
    forall k, c | 0 <= k < |plan| && c in plan[k].children
      ensures c.address in Subtree(A, root) && A[c.address].parentId == plan[k].authorityId && A[c.address].agent == agent
    {
      PlanChild(w, agent, root, nodes, plan, k, c);
    }
    forall id | id in Subtree(A, root) && A[id].status == Active
      ensures exists k :: 0 <= k < |plan| && plan[k].authorityId == id
    {
      ReachIsSubtree(A, Count(w), root, nodes, id);
      SnapshotLast(A, root, nodes, id);
      assert Wanted(nodes, root, id);
    }
    forall j, k | 0 <= j < k < |plan|
      ensures plan[j].authorityId != plan[k].authorityId && A[plan[k].authorityId].parentId != plan[j].authorityId
    {
      assert Before(NodeOf(A, plan[j].authorityId), NodeOf(A, plan[k].authorityId));
      assert WellKept(A, plan[k].authorityId);
      assert A[plan[j].authorityId].authorityId == plan[j].authorityId by { assert WellKept(A, plan[j].authorityId); }
    }
  }

  lemma PlanChild(w: World, agent: Pubkey, root: U64, nodes: seq<Node>, plan: seq<Batch>, k: nat, c: Child)
    requires Ready(w, agent, root, nodes) && IsPlan(nodes, root, plan)
    requires k < |plan| && c in plan[k].children
    ensures var A := w.authorities;
            c.address in Subtree(A, root) && A[c.address].parentId == plan[k].authorityId && A[c.address].agent == agent
  {
    var A := w.authorities;
    var id := plan[k].authorityId;
    assert Wanted(nodes, root, id);
    LastNodeIn(nodes, id);
    assert plan[k].children == ActiveKids(Children(nodes, id));
    ActiveKidsIn(Children(nodes, id), c);
    var n :| n in Children(nodes, id) && n.status == Active && c == Planner.Child(n.authorityId, n.address);
    ChildrenIn(nodes, id, n);
    ReachIsSubtree(A, Count(w), root, nodes, id);
    SubtreeByParent(A, Count(w), root, n.authorityId);
    Attenuation(A, Count(w), n.authorityId);
  }

  /** The accounts just before call `j`, when other transactions run before, between and after the calls. */
  ghost function At(w: World, calls: seq<RevokeCall>, noise: seq<seq<Instr>>, j: nat): World
    requires j <= |calls| && |noise| == |calls| + 1
  {
    if j == 0 then Run(w, noise[0]) else Run(Step(At(w, calls, noise, j - 1), DoRevoke(calls[j - 1])), noise[j])
  }

  /** Nothing in between is signed by the agent. */
  ghost predicate Quiet(noise: seq<seq<Instr>>, agent: Pubkey) {
    forall k :: 0 <= k < |noise| ==> NotBy(noise[k], agent)
  }

  ghost predicate NotBy(trace: seq<Instr>, agent: Pubkey) {
    forall i :: i in trace ==> SignerOf(i) != Some(agent)
  }

  /** The agent holds the same authorities in `B` as in `A`, with the same contents. */
  ghost predicate SameHoldings(A: Authorities, B: Authorities, agent: Pubkey) {
    && (forall id :: id in A && A[id].agent == agent ==> id in B && B[id] == A[id])
    && (forall id :: id in B && B[id].agent == agent ==> id in A && A[id] == B[id])
  }

  lemma OthersStep(w: World, i: Instr, agent: Pubkey)
    requires ForestInv(w) && SignerOf(i) != Some(agent)
    ensures SameHoldings(w.authorities, Step(w, i).authorities, agent)
  {
    hide Exec, ForestInv;
    var B := Step(w, i).authorities;
    forall id: U64
      ensures id in w.authorities && w.authorities[id].agent == agent ==> id in B && B[id] == w.authorities[id]
      ensures id in B && B[id].agent == agent ==> id in w.authorities && w.authorities[id] == B[id]
    {
      OthersCannotTouch(w, i, agent, id);
      if id in w.authorities {
        AgentKept(w, i, id);
      }
    }
  }

  lemma {:induction false} OthersRun(w: World, trace: seq<Instr>, agent: Pubkey)
    requires ForestInv(w) && NotBy(trace, agent)
    ensures ForestInv(Run(w, trace)) && SameHoldings(w.authorities, Run(w, trace).authorities, agent)
  {
    hide Exec, Step, ForestInv;
    RunKeepsForest(w, trace);
    if trace != [] {
      OthersRun(w, trace[..|trace| - 1], agent);
      OthersStep(Run(w, trace[..|trace| - 1]), trace[|trace| - 1], agent);
    }
  }

  lemma AgentKept(w: World, i: Instr, id: U64)
    requires ForestInv(w) && id in w.authorities
    ensures id in Step(w, i).authorities && SameTerms(w.authorities[id], Step(w, i).authorities[id])
  {
    hide Exec, MoveOf;
    StepMoves(w, i);
    MoveKeeps(w.authorities, Count(w), MoveOf(w, i), id);
  }

  ghost predicate Hit(A: Authorities, plan: seq<Batch>, j: nat, id: U64)
    requires j <= |plan| && id in A
  {
    exists k :: 0 <= k < j && (plan[k].authorityId == id || A[id].parentId == plan[k].authorityId)
  }

  /** What a record of the subtree's agent may have become after `j` calls: itself, or Revoked if it
      was an Active target so far or a child of one. */
  ghost predicate Became(A: Authorities, plan: seq<Batch>, root: U64, j: nat, id: U64, now: Authority)
    requires j <= |plan| && id in A
  {
    || now == A[id]
    || (A[id].status == Active && id in Subtree(A, root) && Hit(A, plan, j, id) && now == A[id].(status := Revoked))
  }

  ghost predicate Progress(A: Authorities, plan: seq<Batch>, root: U64, agent: Pubkey, j: nat, B: Authorities)
    requires j <= |plan|
  {
    && (forall id :: id in B && B[id].agent == agent ==> id in A && A[id].agent == agent)
    && (forall id :: id in A && A[id].agent == agent ==> id in B && Became(A, plan, root, j, id, B[id]))
    && (forall k :: 0 <= k < j ==> plan[k].authorityId in B && B[plan[k].authorityId].status == Revoked)
  }

  /** With the calls so far carried out, the next one is accepted exactly if its children can be written back. */
  lemma CallExact(A: Authorities, agent: Pubkey, root: U64, plan: seq<Batch>, calls: seq<RevokeCall>, j: nat, now: World)
    requires Fits(A, agent, root, plan) && Follows(plan, agent, calls) && agent.Wallet?
    requires j < |plan| && ForestInv(now) && Progress(A, plan, root, agent, j, now.authorities)
    ensures RevokeAuthority(now, calls[j]).Ok? <==> Cascadable(now.writeBack, calls[j])
    ensures !Cascadable(now.writeBack, calls[j]) ==> RevokeAuthority(now, calls[j]) == Err(AccountDidNotSerialize)
  {
    var id := plan[j].authorityId;
    WriteBackExact(now.writeBack);
    TargetActive(A, agent, root, plan, j, now.authorities);
    assert WellKept(now.authorities, id);
    forall m | m in calls[j].children
      ensures CascadeChild(now.authorities, calls[j], m)
    {
      var c :| c in plan[j].children && c.address == m.id;
      assert Became(A, plan, root, j, m.id, now.authorities[m.id]);
    }
    hide BytesWritten, ChildFits, Became, Fits, ForestInv, Progress, Follows;
    if calls[j].children != [] {
      assert calls[j].children[0] in calls[j].children;
    }
  }

  lemma CallProgresses(A: Authorities, agent: Pubkey, root: U64, plan: seq<Batch>, calls: seq<RevokeCall>, j: nat, B: Authorities)
    requires Fits(A, agent, root, plan) && Follows(plan, agent, calls)
    requires j < |plan| && Progress(A, plan, root, agent, j, B)
    ensures Progress(A, plan, root, agent, j + 1, Revoke(B, ChildIds(calls[j].children) + {calls[j].authorityId}))
  {
    hide Became, Hit, Fits;
    var ids := ChildIds(calls[j].children) + {calls[j].authorityId};
    var C := Revoke(B, ids);
    forall id | id in A && A[id].agent == agent
      ensures id in C && Became(A, plan, root, j + 1, id, C[id])
    {
      BecomesNext(A, agent, root, plan, calls, j, B, id);
    }
    TargetActive(A, agent, root, plan, j, B);
  }

  /** The earlier calls left the next target Active. */
  lemma TargetActive(A: Authorities, agent: Pubkey, root: U64, plan: seq<Batch>, j: nat, B: Authorities)
    requires Fits(A, agent, root, plan) && j < |plan| && Progress(A, plan, root, agent, j, B)
    ensures plan[j].authorityId in A && A[plan[j].authorityId].agent == agent
    ensures plan[j].authorityId in B && B[plan[j].authorityId] == A[plan[j].authorityId] && B[plan[j].authorityId].status == Active
  {
    var target := plan[j].authorityId;
    assert !Hit(A, plan, j, target);
    assert Became(A, plan, root, j, target, B[target]);
  }

  lemma BecomesNext(A: Authorities, agent: Pubkey, root: U64, plan: seq<Batch>, calls: seq<RevokeCall>, j: nat, B: Authorities, id: U64)
    requires Fits(A, agent, root, plan) && Follows(plan, agent, calls)
    requires j < |plan| && id in A && id in B && Became(A, plan, root, j, id, B[id])
    ensures var C := Revoke(B, ChildIds(calls[j].children) + {calls[j].authorityId});
            Became(A, plan, root, j + 1, id, C[id])
  {
    assert Hit(A, plan, j, id) ==> Hit(A, plan, j + 1, id);
    if id in ChildIds(calls[j].children) && id != plan[j].authorityId {
      var m :| m in calls[j].children && m.id == id;
      var c :| c in plan[j].children && c.address == m.id;
      assert Hit(A, plan, j + 1, id);
    }
  }

  lemma HoldingsKeepProgress(A: Authorities, plan: seq<Batch>, root: U64, agent: Pubkey, j: nat, B: Authorities, C: Authorities)
    requires j <= |plan| && Progress(A, plan, root, agent, j, B) && SameHoldings(B, C, agent)
    requires Fits(A, agent, root, plan)
    ensures Progress(A, plan, root, agent, j, C)
  {
  }

  lemma {:induction false} Advance(w: World, agent: Pubkey, root: U64, plan: seq<Batch>, calls: seq<RevokeCall>, noise: seq<seq<Instr>>, j: nat)
    requires ForestInv(w) && agent.Wallet? && Fits(w.authorities, agent, root, plan) && Follows(plan, agent, calls)
    requires |noise| == |calls| + 1 && Quiet(noise, agent) && j <= |calls| && AllCascadable(w.writeBack, calls, j)
    ensures ForestInv(At(w, calls, noise, j)) && Progress(w.authorities, plan, root, agent, j, At(w, calls, noise, j).authorities)
    ensures j < |calls| ==> (RevokeAuthority(At(w, calls, noise, j), calls[j]).Ok? <==> Cascadable(w.writeBack, calls[j]))
    ensures j < |calls| && !Cascadable(w.writeBack, calls[j]) ==> RevokeAuthority(At(w, calls, noise, j), calls[j]) == Err(AccountDidNotSerialize)
  {
    hide RevokeAuthority, Progress, Exec, Step, ForestInv, Fits, SameHoldings, Cascadable;
    AtWriteBack(w, calls, noise, j);
    if j == 0 {
      OthersRun(w, noise[0], agent);
      ProgressStart(w.authorities, plan, root, agent, At(w, calls, noise, 0).authorities);
    } else {
      var now := At(w, calls, noise, j - 1);
      Advance(w, agent, root, plan, calls, noise, j - 1);
      CallProgresses(w.authorities, agent, root, plan, calls, j - 1, now.authorities);
      var next := Step(now, DoRevoke(calls[j - 1]));
      StepIsRevoke(now, calls[j - 1]);
      StepKeepsForest(now, DoRevoke(calls[j - 1]));
      OthersRun(next, noise[j], agent);
      HoldingsKeepProgress(w.authorities, plan, root, agent, j, next.authorities, At(w, calls, noise, j).authorities);
    }
    if j < |calls| {
      CallExact(w.authorities, agent, root, plan, calls, j, At(w, calls, noise, j));
    }
  }

  lemma {:induction false} AtWriteBack(w: World, calls: seq<RevokeCall>, noise: seq<seq<Instr>>, j: nat)
    requires j <= |calls| && |noise| == |calls| + 1
    ensures At(w, calls, noise, j).writeBack == w.writeBack
  {
    hide Exec, Step;
    if j == 0 {
      RunKeepsWriteBack(w, noise[0]);
    } else {
      AtWriteBack(w, calls, noise, j - 1);
      WriteBackFrame(At(w, calls, noise, j - 1), DoRevoke(calls[j - 1]));
      RunKeepsWriteBack(Step(At(w, calls, noise, j - 1), DoRevoke(calls[j - 1])), noise[j]);
    }
  }

  lemma ProgressStart(A: Authorities, plan: seq<Batch>, root: U64, agent: Pubkey, B: Authorities)
    requires SameHoldings(A, B, agent)
    ensures Progress(A, plan, root, agent, 0, B)
  {
  }

  lemma StepIsRevoke(w: World, c: RevokeCall)
    requires RevokeAuthority(w, c).Ok?
    ensures Accepted(w, DoRevoke(c)) && Step(w, DoRevoke(c)) == RevokeAuthority(w, c).value
    ensures Step(w, DoRevoke(c)).authorities == Revoke(w.authorities, ChildIds(c.children) + {c.authorityId})
    ensures Step(w, DoRevoke(c)) == w.(authorities := Step(w, DoRevoke(c)).authorities)
  {
  }

  /** Same holdings, same terms: the subtree is the same set. */
  lemma SubtreeUnmoved(A: Authorities, countA: U64, B: Authorities, countB: U64, root: U64, agent: Pubkey)
    requires Inv(A, countA) && Inv(B, countB) && root in A && A[root].agent == agent
    requires forall id :: id in B && B[id].agent == agent ==> id in A && SameTerms(A[id], B[id])
    requires forall id :: id in A && A[id].agent == agent ==> id in B && SameTerms(A[id], B[id])
    ensures Subtree(B, root) == Subtree(A, root)
  {
    forall id | id in Subtree(A, root)
      ensures id in Subtree(B, root)
    {
      Climb(A, countA, B, countB, root, agent, id);
    }
    forall id | id in Subtree(B, root)
      ensures id in Subtree(A, root)
    {
      Climb(B, countB, A, countA, root, agent, id);
    }
  }

  lemma {:induction false} Climb(A: Authorities, countA: U64, B: Authorities, countB: U64, root: U64, agent: Pubkey, id: U64)
    requires Inv(A, countA) && Inv(B, countB) && root in A && A[root].agent == agent
    requires forall x :: x in A && A[x].agent == agent ==> x in B && B[x].parentId == A[x].parentId
    requires id in Subtree(A, root)
    ensures id in Subtree(B, root)
    decreases id
  {
    Attenuation(A, countA, id);
    if id != root {
      assert WellKept(A, id);
      SubtreeByParent(A, countA, root, id);
      Climb(A, countA, B, countB, root, agent, A[id].parentId);
      SubtreeByParent(B, countB, root, id);
    }
  }

  /** As long as only calls that can be written back were made, the next call of a plan is accepted exactly
      if it can be too, whatever the agent did not sign ran in between; otherwise the write-back refuses it. */
  lemma PlanCallExact(w: World, agent: Pubkey, root: U64, nodes: seq<Node>, plan: seq<Batch>, calls: seq<RevokeCall>, noise: seq<seq<Instr>>, j: nat)
    requires Ready(w, agent, root, nodes) && IsPlan(nodes, root, plan) && Follows(plan, agent, calls)
    requires |noise| == |calls| + 1 && Quiet(noise, agent) && j < |calls| && AllCascadable(w.writeBack, calls, j)
    ensures Accepted(At(w, calls, noise, j), DoRevoke(calls[j])) <==> Cascadable(w.writeBack, calls[j])
    ensures !Cascadable(w.writeBack, calls[j]) ==> Exec(At(w, calls, noise, j), DoRevoke(calls[j])) == Err(AccountDidNotSerialize)
  {
    hide Step, RevokeAuthority, IsPlan, ForestInv, Cascadable, AllCascadable, Ready, Fits, Follows, Quiet;
    assert |calls| == |plan| by { SameLength(plan, agent, calls); }
    PlanFits(w, agent, root, nodes, plan);
    ReadyToRun(w, agent, root, nodes);
    Advance(w, agent, root, plan, calls, noise, j);
  }

  lemma SameLength(plan: seq<Batch>, agent: Pubkey, calls: seq<RevokeCall>)
    requires Follows(plan, agent, calls)
    ensures |calls| == |plan|
  {
  }

  lemma ReadyToRun(w: World, agent: Pubkey, root: U64, nodes: seq<Node>)
    requires Ready(w, agent, root, nodes)
    ensures ForestInv(w) && agent.Wallet?
  {
  }

  /** The plan theorem. Carry out a plan made from a snapshot while anything the agent did not sign runs in
      between. If no call lists a child, or the program is built as intended and each call cascades to all,
      some or none of the children listed: every call is accepted, and at the end the root's subtree is the
      same set of authorities, none of them Active. */
  lemma PlanRevokesSubtree(w: World, agent: Pubkey, root: U64, nodes: seq<Node>, plan: seq<Batch>, calls: seq<RevokeCall>, noise: seq<seq<Instr>>)
    requires Ready(w, agent, root, nodes) && IsPlan(nodes, root, plan) && Follows(plan, agent, calls)
    requires |noise| == |calls| + 1 && Quiet(noise, agent) && AllCascadable(w.writeBack, calls, |calls|)
    ensures forall j :: 0 <= j < |calls| ==> Accepted(At(w, calls, noise, j), DoRevoke(calls[j]))
    ensures var end := At(w, calls, noise, |calls|);
            && ForestInv(end) && root in end.authorities
            && Subtree(end.authorities, root) == Subtree(w.authorities, root)
            && forall id :: id in Subtree(w.authorities, root) ==> id in end.authorities && Dead(end.authorities[id])
  {
    hide Exec, Step, RevokeAuthority, IsPlan, ForestInv;
    PlanFits(w, agent, root, nodes, plan);
    forall j | 0 <= j < |calls|
      ensures Accepted(At(w, calls, noise, j), DoRevoke(calls[j]))
    {
      Advance(w, agent, root, plan, calls, noise, j);
      StepIsRevoke(At(w, calls, noise, j), calls[j]);
    }
    Advance(w, agent, root, plan, calls, noise, |calls|);
    PlanDone(w, agent, root, plan, At(w, calls, noise, |calls|));
  }

  lemma PlanDone(w: World, agent: Pubkey, root: U64, plan: seq<Batch>, end: World)
    requires ForestInv(w) && root in w.authorities && w.authorities[root].agent == agent && Fits(w.authorities, agent, root, plan)
    requires ForestInv(end) && Progress(w.authorities, plan, root, agent, |plan|, end.authorities)
    ensures root in end.authorities && Subtree(end.authorities, root) == Subtree(w.authorities, root)
    ensures forall id :: id in Subtree(w.authorities, root) ==> id in end.authorities && Dead(end.authorities[id])
  {
    var A, B := w.authorities, end.authorities;
    ProgressTerms(A, plan, root, agent, B);
    SubtreeUnmoved(A, Count(w), B, Count(end), root, agent);
    forall id | id in Subtree(A, root)
      ensures id in B && Dead(B[id])
    {
      hide Progress, Fits, Subtree, ForestInv;
      assert id in A && A[id].agent == agent by { SubtreeAgent(w, root, id); }
      TargetDead(A, agent, root, plan, B, id);
    }
  }

  lemma ProgressTerms(A: Authorities, plan: seq<Batch>, root: U64, agent: Pubkey, B: Authorities)
    requires Progress(A, plan, root, agent, |plan|, B)
    ensures forall id :: id in B && B[id].agent == agent ==> id in A && SameTerms(A[id], B[id])
    ensures forall id :: id in A && A[id].agent == agent ==> id in B && SameTerms(A[id], B[id])
  {
    forall id | id in A && A[id].agent == agent
      ensures id in B && SameTerms(A[id], B[id])
    {
      assert Became(A, plan, root, |plan|, id, B[id]);
    }
    forall id | id in B && B[id].agent == agent
      ensures id in A && SameTerms(A[id], B[id])
    {
      assert id in A;
    }
  }

  lemma TargetDead(A: Authorities, agent: Pubkey, root: U64, plan: seq<Batch>, B: Authorities, id: U64)
    requires Fits(A, agent, root, plan) && Progress(A, plan, root, agent, |plan|, B)
    requires id in Subtree(A, root) && A[id].agent == agent
    ensures id in B && Dead(B[id])
  {
    assert Became(A, plan, root, |plan|, id, B[id]);
  }

  /** And for good: whatever runs afterwards, signed by whom it may be, the subtree never gains a member
      and no record in it, `spent` included, ever changes. */
  lemma RevokedForGood(w: World, agent: Pubkey, root: U64, nodes: seq<Node>, plan: seq<Batch>, calls: seq<RevokeCall>, noise: seq<seq<Instr>>, later: seq<Instr>)
    requires Ready(w, agent, root, nodes) && IsPlan(nodes, root, plan) && Follows(plan, agent, calls)
    requires |noise| == |calls| + 1 && Quiet(noise, agent) && AllCascadable(w.writeBack, calls, |calls|)
    ensures var end := At(w, calls, noise, |calls|).authorities;
            var A := Run(At(w, calls, noise, |calls|), later).authorities;
            && root in A && Subtree(A, root) == Subtree(w.authorities, root)
            && forall id :: id in Subtree(w.authorities, root) ==> id in A && id in end && A[id] == end[id] && Dead(A[id])
  {
    hide Exec, IsPlan, Follows, Ready;
    PlanRevokesSubtree(w, agent, root, nodes, plan, calls, noise);
    DeadForGood(At(w, calls, noise, |calls|), later, root);
  }

  // ---- undisturbed ----

  /** Everything the first `j` calls name. */
  function Named(calls: seq<RevokeCall>, j: nat): set<U64>
    requires j <= |calls|
  {
    if j == 0 then {} else Named(calls, j - 1) + (ChildIds(calls[j - 1].children) + {calls[j - 1].authorityId})
  }

  ghost function Silence(n: nat): seq<seq<Instr>> {
    seq(n, _ => [])
  }

  lemma RevokeTwice(A: Authorities, x: set<U64>, y: set<U64>)
    ensures Revoke(Revoke(A, x), y) == Revoke(A, x + y)
  {
  }

  lemma SilentStep(w: World, calls: seq<RevokeCall>, j: nat)
    requires j < |calls| && RevokeAuthority(At(w, calls, Silence(|calls| + 1), j), calls[j]).Ok?
    ensures var noise := Silence(|calls| + 1);
            var now := At(w, calls, noise, j);
            At(w, calls, noise, j + 1) == now.(authorities := Revoke(now.authorities, ChildIds(calls[j].children) + {calls[j].authorityId}))
  {
    hide Exec, Step, RevokeAuthority;
    StepIsRevoke(At(w, calls, Silence(|calls| + 1), j), calls[j]);
  }

  /** Without other transactions, each call adds its ids to the revoked ones and changes nothing else. */
  lemma {:induction false} Undisturbed(w: World, agent: Pubkey, root: U64, plan: seq<Batch>, calls: seq<RevokeCall>, j: nat)
    requires ForestInv(w) && agent.Wallet? && Fits(w.authorities, agent, root, plan) && Follows(plan, agent, calls)
    requires j <= |calls| && AllCascadable(w.writeBack, calls, j)
    ensures At(w, calls, Silence(|calls| + 1), j) == w.(authorities := Revoke(w.authorities, Named(calls, j)))
  {
    hide Exec, Step, Follows, Fits, ForestInv, RevokeAuthority, Revoke;
    var noise := Silence(|calls| + 1);
    if j == 0 {
      RevokeNobody(w.authorities);
    } else {
      Undisturbed(w, agent, root, plan, calls, j - 1);
      Advance(w, agent, root, plan, calls, noise, j - 1);
      SilentStep(w, calls, j - 1);
      RevokeTwice(w.authorities, Named(calls, j - 1), ChildIds(calls[j - 1].children) + {calls[j - 1].authorityId});
    }
  }

  lemma RevokeNobody(A: Authorities)
    ensures Revoke(A, {}) == A
  {
  }

  lemma {:induction false} NamedInSubtree(A: Authorities, agent: Pubkey, root: U64, plan: seq<Batch>, calls: seq<RevokeCall>, j: nat)
    requires Fits(A, agent, root, plan) && Follows(plan, agent, calls) && j <= |calls|
    ensures Named(calls, j) <= Subtree(A, root)
    ensures forall k :: 0 <= k < j ==> plan[k].authorityId in Named(calls, j)
  {
    hide Subtree;
    if j > 0 {
      NamedInSubtree(A, agent, root, plan, calls, j - 1);
      ChildIdsInSubtree(A, agent, root, plan, calls, j - 1);
    }
  }

  lemma ChildIdsInSubtree(A: Authorities, agent: Pubkey, root: U64, plan: seq<Batch>, calls: seq<RevokeCall>, k: nat)
    requires Fits(A, agent, root, plan) && Follows(plan, agent, calls) && k < |calls|
    ensures ChildIds(calls[k].children) <= Subtree(A, root)
  {
    hide Subtree;
    forall m | m in calls[k].children
      ensures m.id in Subtree(A, root)
    {
      var c :| c in plan[k].children && c.address == m.id;
    }
  }

  lemma RevokeSame(A: Authorities, x: set<U64>, y: set<U64>)
    requires x <= y && forall id :: id in y && id in A && A[id].status == Active ==> id in x
    ensures Revoke(A, x) == Revoke(A, y)
  {
  }

  /** With nothing in between, carrying out a plan with calls that can be written back revokes the Active
      authorities of the subtree, and that is all that changes anywhere. */
  lemma PlanExact(w: World, agent: Pubkey, root: U64, nodes: seq<Node>, plan: seq<Batch>, calls: seq<RevokeCall>)
    requires Ready(w, agent, root, nodes) && IsPlan(nodes, root, plan) && Follows(plan, agent, calls)
    requires AllCascadable(w.writeBack, calls, |calls|)
    ensures At(w, calls, Silence(|calls| + 1), |calls|) == w.(authorities := Revoke(w.authorities, Subtree(w.authorities, root)))
  {
    hide Exec, IsPlan, ForestInv, Revoke, Subtree;
    PlanFits(w, agent, root, nodes, plan);
    NamedInSubtree(w.authorities, agent, root, plan, calls, |calls|);
    Undisturbed(w, agent, root, plan, calls, |calls|);
    RevokeSame(w.authorities, Named(calls, |calls|), Subtree(w.authorities, root));
  }

  function MetasOf(children: seq<Child>): seq<ChildMeta> {
    seq(|children|, k requires 0 <= k < |children| => ChildMeta(children[k].address, true))
  }

  function CallsOf(plan: seq<Batch>, agent: Pubkey): seq<RevokeCall> {
    seq(|plan|, k requires 0 <= k < |plan| => RevokeCall(agent, plan[k].authorityId, MetasOf(plan[k].children)))
  }

  lemma CallsFollow(plan: seq<Batch>, agent: Pubkey)
    ensures Follows(plan, agent, CallsOf(plan, agent))
  {
    forall k, m | 0 <= k < |plan| && m in MetasOf(plan[k].children)
      ensures m.writable && exists c :: c in plan[k].children && c.address == m.id
    {
      var x :| 0 <= x < |plan[k].children| && m == ChildMeta(plan[k].children[x].address, true);
      assert plan[k].children[x] in plan[k].children;
    }
  }
}
