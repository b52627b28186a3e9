/** Organizations over whole runs: the share ledger. */
module Orgs {
  import opened Types
  import opened AuthoritySpec
  import opened SpendSpec
  import opened EscrowSpec
  import opened OrgSpec
  import opened ReceiptSpec
  import opened AgentSpec
  import opened Machine
  import opened Frames
  import opened Sums
  import opened Keys

  type Members = map<MemberKey, OrgMember>

  ghost function Shares(members: Members, org: U64): map<MemberKey, nat> {
    map k | k in members && k.org == org :: members[k].shareBps
  }

  /** The ledger of one organization agrees with its members, and its creator is an admin. */
  ghost predicate Balanced(w: World, id: U64)
    requires id in w.orgs
  {
    var o := w.orgs[id];
    && o.orgId == id && o.status != OrgDissolving
    && o.totalShareBps == Total(Shares(w.members, id)) <= FULL_SHARE
    && o.memberCount == |Shares(w.members, id)|
    && MemberKey(id, o.creator) in w.members && w.members[MemberKey(id, o.creator)].role == Admin
  }

  ghost predicate MembersKeyed(w: World) {
    forall k :: k in w.members ==> k.org in w.orgs && k.agent.Wallet? && w.members[k].agent == k.agent && w.members[k].orgId == k.org
  }

  ghost predicate OrgInv(w: World) {
    && (forall id: U64 :: id in w.orgs <==> 1 <= id <= Counters(w).orgCounter)
    && MembersKeyed(w)
    && (forall id :: id in w.orgs ==> Balanced(w, id))
  }

  lemma SharesPut(members: Members, k: MemberKey, m: OrgMember, org: U64)
    ensures Total(Shares(members[k := m], org)) ==
            Total(Shares(members, org)) + if k.org != org then 0 else m.shareBps - if k in members then members[k].shareBps else 0
    ensures |Shares(members[k := m], org)| == |Shares(members, org)| + if k.org == org && k !in members then 1 else 0
  {
    if k.org == org {
      assert Shares(members[k := m], org) == Shares(members, org)[k := m.shareBps];
      TotalUpdate(Shares(members, org), k, m.shareBps);
    } else {
      assert Shares(members[k := m], org) == Shares(members, org);
    }
  }

  lemma NoMembersYet(w: World, org: U64)
    requires MembersKeyed(w) && org !in w.orgs
    ensures Shares(w.members, org) == map[]
  {
    forall k | k in w.members
      ensures k.org != org
    {
    }
  }

  /** Writing one member and, for its organization alone, a ledger that follows, keeps every ledger balanced. */
  lemma PutKeeps(w: World, n: World, k: MemberKey, id: U64)
    requires MembersKeyed(w) && k in n.members && n.members == w.members[k := n.members[k]]
    requires id in n.orgs && (id in w.orgs ==> Balanced(w, id))
    requires id != k.org ==> id in w.orgs && n.orgs[id] == w.orgs[id]
    requires id == k.org && id in w.orgs ==>
      && n.orgs[id] == w.orgs[id].(totalShareBps := n.orgs[id].totalShareBps, memberCount := n.orgs[id].memberCount)
      && n.orgs[id].totalShareBps == w.orgs[id].totalShareBps + n.members[k].shareBps - (if k in w.members then w.members[k].shareBps else 0)
      && n.orgs[id].memberCount == w.orgs[id].memberCount + (if k in w.members then 0 else 1)
      && n.orgs[id].totalShareBps <= FULL_SHARE
      && (k in w.members ==> n.members[k].role == w.members[k].role)
    requires id == k.org && id !in w.orgs ==>
      && n.orgs[id].orgId == id && n.orgs[id].status == OrgActive && n.orgs[id].creator == k.agent && n.members[k].role == Admin
      && n.orgs[id].totalShareBps == n.members[k].shareBps <= FULL_SHARE && n.orgs[id].memberCount == 1
    ensures Balanced(n, id)
  {
    hide Total, Shares;
    SharesPut(w.members, k, n.members[k], id);
    if id !in w.orgs {
      NoMembersYet(w, id);
      EmptyTotal();
    }
  }

  lemma EmptyTotal()
    ensures Total<MemberKey>(map[]) == 0
  {
  }

  lemma CreateOrgKeeps(w: World, c: CreateOrgCall)
    requires OrgInv(w) && KeyInv(w) && CreateOrg(w, c).Ok?
    ensures OrgInv(CreateOrg(w, c).value)
  {
    hide Balanced;
    var n := CreateOrg(w, c).value;
    forall id | id in n.orgs
      ensures Balanced(n, id)
    {
      PutKeeps(w, n, MemberKey(c.orgId, c.creator), id);
    }
  }

  lemma JoinKeeps(w: World, c: JoinCall)
    requires OrgInv(w) && KeyInv(w) && JoinOrg(w, c).Ok?
    ensures OrgInv(JoinOrg(w, c).value)
  {
    hide Balanced;
    var n := JoinOrg(w, c).value;
    forall id | id in n.orgs
      ensures Balanced(n, id)
    {
      PutKeeps(w, n, MemberKey(c.orgId, c.newAgent), id);
    }
  }

  lemma SetShareKeeps(w: World, c: ShareCall)
    requires OrgInv(w) && SetMemberShare(w, c).Ok?
    ensures OrgInv(SetMemberShare(w, c).value)
  {
    hide Balanced;
    var n := SetMemberShare(w, c).value;
    forall id | id in n.orgs
      ensures Balanced(n, id)
    {
      PutKeeps(w, n, MemberKey(c.orgId, c.target), id);
    }
  }

  lemma DissolveKeeps(w: World, c: DissolveCall)
    requires OrgInv(w) && DissolveOrg(w, c).Ok?
    ensures OrgInv(DissolveOrg(w, c).value)
  {
    hide PayOut, PayoutShare, SecondPayout, Total, Shares;
    var n := DissolveOrg(w, c).value;
    forall id | id in n.orgs
      ensures Balanced(n, id)
    {
      assert Balanced(w, id);
    }
  }

  lemma StepKeepsOrgs(w: World, i: Instr)
    requires OrgInv(w) && KeyInv(w)
    ensures OrgInv(Step(w, i))
  {
    hide InitializeConfig, RegisterAgent, SetPaused, IssueAuthority, RevokeAuthority, ExpireAuthority, Pay, AtomicSplit, CreateEscrow, ReleaseEscrow, CancelEscrow,
      SlashBond, CreateOrg, JoinOrg, SetMemberShare, DepositToOrg, OrgSplit, DissolveOrg, ReclaimOrgResidual, CreateReceipt, AdvanceClock, OpenTokenAccount, OutsideTransfer;
    hide Balanced, KeyInv;
    if !i.DoCreateOrg? {
      OrgCounterFrame(w, i);
    }
    if !ChangesOrgs(i) {
      OrgsFrame(w, i);
      SameLedgers(w, Step(w, i));
    } else if Accepted(w, i) {
      match i
      case DoCreateOrg(c) => CreateOrgKeeps(w, c);
      case DoJoin(c) => JoinKeeps(w, c);
      case DoSetShare(c) => SetShareKeeps(w, c);
      case DoDissolve(c) => DissolveKeeps(w, c);
    }
  }

  lemma SameLedgers(w: World, n: World)
    requires w.orgs == n.orgs && w.members == n.members && Counters(w).orgCounter == Counters(n).orgCounter && OrgInv(w)
    ensures OrgInv(n)
  {
    forall id | id in n.orgs
      ensures Balanced(n, id)
    {
      assert Balanced(w, id);
    }
  }

  /** In every reachable state an organization's total is the sum of its members' shares and at most
      10000, its count is their number, and one of them, the creator, is an admin. */
  lemma {:induction false} SharesBalance(start: World, trace: seq<Instr>)
    requires Init(start)
    ensures OrgInv(Run(start, trace)) && KeyInv(Run(start, trace))
  {
    hide Exec, Step, Balanced;
    if trace != [] {
      SharesBalance(start, trace[..|trace| - 1]);
      StepKeepsOrgs(Run(start, trace[..|trace| - 1]), trace[|trace| - 1]);
      StepKeepsKeys(Run(start, trace[..|trace| - 1]), trace[|trace| - 1]);
    }
  }

  /** So the 16-bit share arithmetic never wraps: joining overflows only when the member count is full. */
  lemma JoinArithmeticSafe(w: World, c: JoinCall)
    requires OrgInv(w)
    ensures JoinOrg(w, c) == Err(Overflow) ==> w.orgs[c.orgId].memberCount == 0xFFFF
  {
    hide Total, Shares, MembersKeyed;
    if c.orgId in w.orgs {
      assert w.orgs[c.orgId].totalShareBps <= FULL_SHARE by { assert Balanced(w, c.orgId); }
    }
  }

  lemma ShareAccountsExist(w: World, c: ShareCall)
    ensures ShareAccounts(w, c) != Some(Overflow)
    ensures ShareAccounts(w, c).None? ==> c.orgId in w.orgs && MemberKey(c.orgId, c.target) in w.members
  {
  }

  /** And replacing a share never does. */
  lemma ShareArithmeticSafe(w: World, c: ShareCall)
    requires OrgInv(w)
    ensures SetMemberShare(w, c) != Err(Overflow)
  {
    var k := MemberKey(c.orgId, c.target);
    if c.orgId in w.orgs && k in w.members {
      ShareWithinTotal(w, c.orgId, k);
    }
    ShareAccountsExist(w, c);
    hide OrgInv, ShareAccounts;
  }

  lemma ShareWithinTotal(w: World, id: U64, k: MemberKey)
    requires id in w.orgs && Balanced(w, id) && k in w.members && k.org == id
    ensures w.members[k].shareBps <= w.orgs[id].totalShareBps <= FULL_SHARE
  {
    TotalCovers(Shares(w.members, id), k, k);
  }

  lemma SharesFitTogether(w: World, id: U64, j: MemberKey, k: MemberKey)
    requires id in w.orgs && Balanced(w, id) && j in w.members && k in w.members && j.org == id && k.org == id && j != k
    ensures w.members[j].shareBps + w.members[k].shareBps <= FULL_SHARE
  {
    TotalCovers(Shares(w.members, id), j, k);
  }

  // ---- dissolving ----

  /** The floor of a share of at most everything fits in 64 bits and is within one token of the share. */
  lemma PayoutFloor(balance: U64, bps: U16)
    requires bps <= FULL_SHARE
    ensures PayoutShare(balance, bps) == balance * bps / 10_000 <= balance
    ensures 10_000 * PayoutShare(balance, bps) <= balance * bps < 10_000 * PayoutShare(balance, bps) + 10_000
  {
    var share := balance * bps;
    assert share <= balance * 10_000;
    FloorFits(share, balance);
  }

  lemma FloorFits(share: nat, balance: U64)
    requires share <= balance * 10_000
    ensures share / 10_000 <= balance && share / 10_000 % U64_END == share / 10_000
    ensures 10_000 * (share / 10_000) <= share < 10_000 * (share / 10_000) + 10_000
  {
  }

  /** Two payouts out of shares that fit together fit into the balance, and leave what is not shared
      out, give or take two roundings. */
  lemma TwoPayouts(balance: U64, a: U16, b: U16)
    requires a + b <= FULL_SHARE
    ensures var paid := PayoutShare(balance, a) + PayoutShare(balance, b);
            && paid <= balance
            && balance * (10_000 - a - b) <= 10_000 * (balance - paid) < balance * (10_000 - a - b) + 20_000
  {
    PayoutFloor(balance, a);
    PayoutFloor(balance, b);
    assert balance * (10_000 - a - b) == 10_000 * balance - balance * a - balance * b;
    assert balance * (a + b) <= balance * 10_000;
    assert balance * (a + b) == balance * a + balance * b;
  }
}
