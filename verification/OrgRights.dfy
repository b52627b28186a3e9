/** Who may change an organization, and how each instruction changes it. */
module OrgRights {
  import opened Types
  import opened TokenLedger
  import opened AuthoritySpec
  import opened SpendSpec
  import opened EscrowSpec
  import opened OrgSpec
  import opened ReceiptSpec
  import opened AgentSpec
  import opened Machine
  import opened Frames
  import opened Sums
  import opened Custody
  import opened Keys
  import opened Orgs
  import opened Accounts
  import opened Treasury

  ghost predicate IsMember(w: World, id: U64, agent: Pubkey) {
    agent.Wallet? && MemberKey(id, agent) in w.members
  }

  ghost predicate IsAdmin(w: World, id: U64, agent: Pubkey) {
    IsMember(w, id, agent) && w.members[MemberKey(id, agent)].role == Admin
  }

  ghost predicate IsOpen(w: World, id: U64) {
    id in w.orgs && w.orgs[id].status == OrgActive
  }

  ghost predicate IsAgent(w: World, agent: Pubkey) {
    agent.Wallet? && agent in w.identities && w.identities[agent].active
  }

  /** A token account of an owner in the program's mint. */
  ghost predicate Holds(w: World, a: Address, owner: Pubkey) {
    a in w.tokens && w.tokens[a].owner == owner && w.tokens[a].mint == Counters(w).mint
  }

  // ---- instruction by instruction ----

  /** A registered agent founds an organization under the next id, with at most the whole share, while the
      program is not paused; it becomes the only member, an admin, with the share asked for, or all of it if none
      is; and the treasury is new and empty. */
  lemma CreateOrgExact(w: World, c: CreateOrgCall)
    requires Treasury.Inv(w)
    ensures CreateOrg(w, c).Ok? <==>
      && IsAgent(w, c.creator) && w.config.Some? && !w.config.value.paused && c.mint == Counters(w).mint
      && c.creatorShareBps <= 10_000 && c.orgId as int == Counters(w).orgCounter as int + 1
    ensures CreateOrg(w, c).Ok? ==>
      var n := CreateOrg(w, c).value;
      var share: U16 := if c.creatorShareBps == 0 then 10_000 else c.creatorShareBps;
      && n.orgs == w.orgs[c.orgId := Org(c.orgId, c.nameHash, c.creator, 1, share, OrgActive, w.slot)]
      && n.members == w.members[MemberKey(c.orgId, c.creator) := OrgMember(c.orgId, c.creator, Admin, share)]
      && n.tokens == w.tokens[OrgTreasury(c.orgId) := TokenAccount(OrgPda(c.orgId), c.mint, 0)]
  {
    hide Balanced;
    assert TreasuryOf(w, c.orgId);
  }

  lemma JoinAdmits(w: World, c: JoinCall)
    requires OrgInv(w) && KeyInv(w)
    ensures JoinAccounts(w, c).None? <==>
      && IsOpen(w, c.orgId) && IsAdmin(w, c.orgId, c.admin) && IsAgent(w, c.newAgent) && MemberKey(c.orgId, c.newAgent) !in w.members
  {
    hide Total, Shares;
    assert c.orgId in w.orgs ==> Balanced(w, c.orgId);
  }

  /** An admin of an active organization lets a registered agent in that is no member yet, with one of the three
      roles, as long as the shares stay within the whole and the count within its 16 bits. */
  lemma JoinExact(w: World, c: JoinCall)
    requires OrgInv(w) && KeyInv(w)
    ensures JoinOrg(w, c).Ok? <==>
      && IsOpen(w, c.orgId) && IsAdmin(w, c.orgId, c.admin) && IsAgent(w, c.newAgent)
      && MemberKey(c.orgId, c.newAgent) !in w.members && c.role in {Admin, Member, Viewer}
      && w.orgs[c.orgId].totalShareBps + c.shareBps <= 10_000 && w.orgs[c.orgId].memberCount < 0xFFFF
    ensures JoinOrg(w, c).Ok? ==>
      JoinOrg(w, c).value.members == w.members[MemberKey(c.orgId, c.newAgent) := OrgMember(c.orgId, c.newAgent, c.role, c.shareBps)]
  {
    hide JoinOrg, JoinAccounts, IsAdmin, IsAgent, OrgInv, KeyInv;
    JoinAdmits(w, c);
    if JoinOrg(w, c).Ok? {
      JoinAdds(w, c);
    }
    JoinWhen(w, c);
  }

  lemma JoinAdds(w: World, c: JoinCall)
    requires JoinOrg(w, c).Ok?
    ensures JoinOrg(w, c).value.members == w.members[MemberKey(c.orgId, c.newAgent) := OrgMember(c.orgId, c.newAgent, c.role, c.shareBps)]
  {
    hide JoinAccounts;
  }

  lemma JoinWhen(w: World, c: JoinCall)
    ensures JoinOrg(w, c).Ok? <==>
      && JoinAccounts(w, c).None? && c.role != NoRole && c.shareBps <= 10_000
      && w.orgs[c.orgId].totalShareBps + c.shareBps <= 10_000 && w.orgs[c.orgId].memberCount < 0xFFFF
  {
    hide AdminGuard, IdentityGuard;
  }

  lemma ShareAdmits(w: World, c: ShareCall)
    requires OrgInv(w) && KeyInv(w)
    ensures ShareAccounts(w, c).None? <==> IsOpen(w, c.orgId) && IsAdmin(w, c.orgId, c.admin) && MemberKey(c.orgId, c.target) in w.members
    ensures ShareAccounts(w, c).None? ==> w.members[MemberKey(c.orgId, c.target)].shareBps <= w.orgs[c.orgId].totalShareBps <= 10_000
  {
    hide Total, Shares;
    if c.orgId in w.orgs {
      assert Balanced(w, c.orgId);
      if MemberKey(c.orgId, c.target) in w.members {
        ShareWithinTotal(w, c.orgId, MemberKey(c.orgId, c.target));
      }
    }
  }

  /** An admin of an active organization replaces the share of a member, as long as the shares stay within the
      whole; nothing else about the member changes. */
  lemma SetShareExact(w: World, c: ShareCall)
    requires OrgInv(w) && KeyInv(w)
    ensures SetMemberShare(w, c).Ok? <==>
      && IsOpen(w, c.orgId) && IsAdmin(w, c.orgId, c.admin) && MemberKey(c.orgId, c.target) in w.members
      && w.orgs[c.orgId].totalShareBps - w.members[MemberKey(c.orgId, c.target)].shareBps + c.newShareBps <= 10_000
    ensures SetMemberShare(w, c).Ok? ==>
      var k := MemberKey(c.orgId, c.target);
      SetMemberShare(w, c).value.members == w.members[k := w.members[k].(shareBps := c.newShareBps)]
  {
    hide SetMemberShare, ShareAccounts, IsAdmin, OrgInv, KeyInv;
    ShareAdmits(w, c);
    if SetMemberShare(w, c).Ok? {
      ShareReplaces(w, c);
    }
    ShareWhen(w, c);
  }

  lemma ShareReplaces(w: World, c: ShareCall)
    requires SetMemberShare(w, c).Ok?
    ensures MemberKey(c.orgId, c.target) in w.members
    ensures var k := MemberKey(c.orgId, c.target);
            SetMemberShare(w, c).value.members == w.members[k := w.members[k].(shareBps := c.newShareBps)]
  {
    hide AdminGuard, OrgGuard;
  }

  lemma ShareWhen(w: World, c: ShareCall)
    requires ShareAccounts(w, c).None? ==> w.members[MemberKey(c.orgId, c.target)].shareBps <= w.orgs[c.orgId].totalShareBps <= 10_000
    ensures SetMemberShare(w, c).Ok? <==>
      && ShareAccounts(w, c).None?
      && w.orgs[c.orgId].totalShareBps - w.members[MemberKey(c.orgId, c.target)].shareBps + c.newShareBps <= 10_000
  {
    hide AdminGuard;
  }

  lemma DepositAdmits(w: World, c: DepositCall)
    requires Treasury.Inv(w)
    ensures DepositAccounts(w, c).None? <==> IsOpen(w, c.orgId) && IsMember(w, c.orgId, c.member) && Holds(w, c.memberToken, c.member)
  {
    hide Treasury.Inv;
    TreasuryReady(w, c.orgId);
    if MemberKey(c.orgId, c.member) in w.members {
      MemberReady(w, c.orgId, c.member);
    }
  }

  /** A member pays a positive amount, out of an account of its own that holds it, into the treasury of an active
      organization. */
  lemma DepositExact(w: World, c: DepositCall)
    requires Treasury.Inv(w) && Supply(w.tokens, Counters(w).mint) < U64_END && c.accept && c.mint == Counters(w).mint
    ensures DepositToOrg(w, c).Ok? <==>
      && IsOpen(w, c.orgId) && IsMember(w, c.orgId, c.member) && Holds(w, c.memberToken, c.member)
      && 0 < c.amount <= w.tokens[c.memberToken].amount
    ensures DepositToOrg(w, c).Ok? ==>
      Moved(w.tokens, DepositToOrg(w, c).value.tokens, c.memberToken, OrgTreasury(c.orgId), c.amount)
  {
    hide Supply, Treasury.Inv, Transfer, Moved, DepositAccounts;
    DepositAdmits(w, c);
    TreasuryReady(w, c.orgId);
    TreasuryRoom(w, c.orgId, c.memberToken);
    if c.orgId in w.orgs && c.memberToken in w.tokens && w.tokens[c.memberToken].mint == Counters(w).mint && w.tokens[c.memberToken].owner == c.member && c.member.Wallet? {
      TransferExact(w.tokens, c.memberToken, OrgTreasury(c.orgId), c.mint, c.member, c.amount);
    }
  }

  lemma TreasuryReady(w: World, id: U64)
    requires Treasury.Inv(w)
    ensures OrgTreasury(id) in w.tokens <==> id in w.orgs
    ensures id in w.orgs ==> w.orgs[id].orgId == id && Holds(w, OrgTreasury(id), OrgPda(id))
  {
    assert TreasuryOf(w, id);
    assert id in w.orgs ==> Balanced(w, id);
  }

  lemma MemberReady(w: World, id: U64, agent: Pubkey)
    requires Treasury.Inv(w) && MemberKey(id, agent) in w.members
    ensures id in w.orgs && agent.Wallet? && w.members[MemberKey(id, agent)].agent == agent && w.members[MemberKey(id, agent)].orgId == id
  {
  }

  lemma TreasuryRoom(w: World, id: U64, a: Address)
    requires Supply(w.tokens, Counters(w).mint) < U64_END && (OrgTreasury(id) in w.tokens ==> w.tokens[OrgTreasury(id)].mint == Counters(w).mint)
    ensures OrgTreasury(id) in w.tokens && a in w.tokens && w.tokens[a].mint == Counters(w).mint && a != OrgTreasury(id)
      ==> w.tokens[a].amount as int + w.tokens[OrgTreasury(id)].amount as int < U64_END
  {
    if OrgTreasury(id) in w.tokens && a in w.tokens && w.tokens[a].mint == Counters(w).mint {
      TotalCovers(Balances(w.tokens, Counters(w).mint), a, OrgTreasury(id));
    }
  }

  lemma OrgSplitAdmits(w: World, c: OrgSplitCall)
    requires Treasury.Inv(w)
    ensures OrgSplitAccounts(w, c).None? <==>
      && IsOpen(w, c.orgId) && IsAdmin(w, c.orgId, c.admin)
      && MemberKey(c.orgId, c.recipient) in w.members && w.members[MemberKey(c.orgId, c.recipient)].role != Viewer
      && Holds(w, c.recipientToken, c.recipient)
  {
    hide Treasury.Inv;
    TreasuryReady(w, c.orgId);
    if MemberKey(c.orgId, c.admin) in w.members {
      MemberReady(w, c.orgId, c.admin);
    }
    if MemberKey(c.orgId, c.recipient) in w.members {
      MemberReady(w, c.orgId, c.recipient);
    }
  }

  /** An admin pays a positive amount that the treasury of an active organization holds to a member that is no
      viewer, into an account of that member's. */
  lemma OrgSplitExact(w: World, c: OrgSplitCall)
    requires Treasury.Inv(w) && Supply(w.tokens, Counters(w).mint) < U64_END && c.accept && c.mint == Counters(w).mint
    ensures OrgSplit(w, c).Ok? <==>
      && IsOpen(w, c.orgId) && IsAdmin(w, c.orgId, c.admin)
      && MemberKey(c.orgId, c.recipient) in w.members && w.members[MemberKey(c.orgId, c.recipient)].role != Viewer
      && Holds(w, c.recipientToken, c.recipient)
      && |c.amounts| == 1 && 0 < c.amounts[0] <= Balance(w.tokens, OrgTreasury(c.orgId))
    ensures OrgSplit(w, c).Ok? ==>
      && |c.amounts| == 1
      && Moved(w.tokens, OrgSplit(w, c).value.tokens, OrgTreasury(c.orgId), c.recipientToken, c.amounts[0])
  {
    hide Supply, Treasury.Inv, Transfer, Moved, OrgSplitAccounts, IsAdmin, IsMember;
    if MemberKey(c.orgId, c.recipient) in w.members {
      MemberReady(w, c.orgId, c.recipient);
    }
    OrgSplitAdmits(w, c);
    TreasuryReady(w, c.orgId);
    TreasuryRoom(w, c.orgId, c.recipientToken);
    if c.orgId in w.orgs && c.recipientToken in w.tokens && w.tokens[c.recipientToken].mint == Counters(w).mint && |c.amounts| == 1 {
      TransferExact(w.tokens, OrgTreasury(c.orgId), c.recipientToken, c.mint, OrgPda(c.orgId), c.amounts[0]);
    }
  }

  lemma ReclaimAdmits(w: World, c: ReclaimCall)
    requires Treasury.Inv(w)
    ensures ReclaimAccounts(w, c).None? <==>
      && c.orgId in w.orgs && w.orgs[c.orgId].status == OrgClosed && IsMember(w, c.orgId, c.authority)
      && c.destination in w.tokens && w.tokens[c.destination].mint == Counters(w).mint
  {
    hide Treasury.Inv;
    TreasuryReady(w, c.orgId);
    if MemberKey(c.orgId, c.authority) in w.members {
      MemberReady(w, c.orgId, c.authority);
    }
  }

  /** The creator or an admin drains the treasury of a closed organization, if anything is left, into any account
      of the mint. */
  lemma ReclaimExact(w: World, c: ReclaimCall)
    requires Treasury.Inv(w) && Supply(w.tokens, Counters(w).mint) < U64_END && c.accept && c.mint == Counters(w).mint
    ensures ReclaimOrgResidual(w, c).Ok? <==>
      && c.orgId in w.orgs && w.orgs[c.orgId].status == OrgClosed && IsMember(w, c.orgId, c.authority)
      && (c.authority == w.orgs[c.orgId].creator || IsAdmin(w, c.orgId, c.authority))
      && c.destination in w.tokens && w.tokens[c.destination].mint == Counters(w).mint
      && Balance(w.tokens, OrgTreasury(c.orgId)) > 0
    ensures ReclaimOrgResidual(w, c).Ok? && c.destination != OrgTreasury(c.orgId) ==>
      Moved(w.tokens, ReclaimOrgResidual(w, c).value.tokens, OrgTreasury(c.orgId), c.destination, Balance(w.tokens, OrgTreasury(c.orgId)))
  {
    hide Supply, Treasury.Inv, Transfer, Moved, ReclaimAccounts, Holds;
    ReclaimAdmits(w, c);
    TreasuryReady(w, c.orgId);
    TreasuryRoom(w, c.orgId, c.destination);
    if c.orgId in w.orgs && c.destination in w.tokens && w.tokens[c.destination].mint == Counters(w).mint {
      TransferExact(w.tokens, OrgTreasury(c.orgId), c.destination, c.mint, OrgPda(c.orgId), w.tokens[OrgTreasury(c.orgId)].amount);
    }
  }

  // ---- nobody but its admins ----

  /** The instructions that change an organization, its members, or take from its treasury. */
  predicate Runs(i: Instr, id: U64) {
    match i
    case DoJoin(c) => c.orgId == id
    case DoSetShare(c) => c.orgId == id
    case DoOrgSplit(c) => c.orgId == id
    case DoDissolve(c) => c.orgId == id
    case DoReclaim(c) => c.orgId == id
    case _ => false
  }

  lemma JoinByAdmin(w: World, c: JoinCall)
    requires JoinOrg(w, c).Ok?
    ensures IsAdmin(w, c.orgId, c.admin)
  {
  }

  lemma ShareByAdmin(w: World, c: ShareCall)
    requires SetMemberShare(w, c).Ok?
    ensures IsAdmin(w, c.orgId, c.admin)
  {
  }

  lemma OrgSplitByAdmin(w: World, c: OrgSplitCall)
    requires OrgSplit(w, c).Ok?
    ensures IsAdmin(w, c.orgId, c.admin)
  {
    hide Transfer;
  }

  lemma DissolveByAdmin(w: World, c: DissolveCall)
    requires DissolveOrg(w, c).Ok?
    ensures IsAdmin(w, c.orgId, c.admin)
  {
    hide PayOut, PayoutShare, SecondPayout, AdminPayout;
  }

  /** The creator, who may reclaim too, never stops being an admin. */
  lemma ReclaimByAdmin(w: World, c: ReclaimCall)
    requires Treasury.Inv(w) && ReclaimOrgResidual(w, c).Ok?
    ensures IsAdmin(w, c.orgId, c.authority)
  {
    hide Transfer, Total, Shares;
    assert Balanced(w, c.orgId);
  }

  lemma RunByAdmin(w: World, i: Instr, id: U64)
    requires Treasury.Inv(w) && Accepted(w, i) && Runs(i, id)
    ensures SignerOf(i).Some? && IsAdmin(w, id, SignerOf(i).value)
  {
    hide InitializeConfig, RegisterAgent, SetPaused, IssueAuthority, RevokeAuthority, ExpireAuthority, Pay, AtomicSplit, CreateEscrow, ReleaseEscrow, CancelEscrow,
      SlashBond, CreateOrg, JoinOrg, SetMemberShare, DepositToOrg, OrgSplit, DissolveOrg, ReclaimOrgResidual, CreateReceipt, AdvanceClock, OpenTokenAccount, OutsideTransfer;
    hide Treasury.Inv, IsAdmin;
    match i
    case DoJoin(c) => JoinByAdmin(w, c);
    case DoSetShare(c) => ShareByAdmin(w, c);
    case DoOrgSplit(c) => OrgSplitByAdmin(w, c);
    case DoDissolve(c) => DissolveByAdmin(w, c);
    case DoReclaim(c) => ReclaimByAdmin(w, c);
  }

  /** The record of an organization and those of its members are the same. */
  ghost predicate SameOrg(w: World, n: World, id: U64) {
    && (id in n.orgs <==> id in w.orgs) && (id in w.orgs ==> n.orgs[id] == w.orgs[id])
    && (forall agent :: MemberKey(id, agent) in n.members <==> MemberKey(id, agent) in w.members)
    && (forall agent :: MemberKey(id, agent) in w.members ==> n.members[MemberKey(id, agent)] == w.members[MemberKey(id, agent)])
  }

  lemma CreatesAnother(w: World, c: CreateOrgCall, id: U64)
    requires id in w.orgs && CreateOrg(w, c).Ok?
    ensures SameOrg(w, CreateOrg(w, c).value, id)
  {
  }

  lemma JoinsAnother(w: World, c: JoinCall, id: U64)
    requires c.orgId != id && JoinOrg(w, c).Ok?
    ensures SameOrg(w, JoinOrg(w, c).value, id)
  {
  }

  lemma SharesAnother(w: World, c: ShareCall, id: U64)
    requires c.orgId != id && SetMemberShare(w, c).Ok?
    ensures SameOrg(w, SetMemberShare(w, c).value, id)
  {
  }

  lemma DissolvesAnother(w: World, c: DissolveCall, id: U64)
    requires c.orgId != id && DissolveOrg(w, c).Ok?
    ensures SameOrg(w, DissolveOrg(w, c).value, id)
  {
    hide PayOut, PayoutShare, SecondPayout, AdminPayout;
  }

  lemma OthersLeave(w: World, i: Instr, id: U64)
    requires id in w.orgs && (Accepted(w, i) ==> !Runs(i, id))
    ensures SameOrg(w, Step(w, i), id)
  {
    hide InitializeConfig, RegisterAgent, SetPaused, IssueAuthority, RevokeAuthority, ExpireAuthority, Pay, AtomicSplit, CreateEscrow, ReleaseEscrow, CancelEscrow,
      SlashBond, CreateOrg, JoinOrg, SetMemberShare, DepositToOrg, OrgSplit, DissolveOrg, ReclaimOrgResidual, CreateReceipt, AdvanceClock, OpenTokenAccount, OutsideTransfer;
    hide SameOrg;
    assert SameOrg(w, w, id) by { Unchanged(w, w, id); }
    if !ChangesOrgs(i) {
      OrgsFrame(w, i);
      Unchanged(w, Step(w, i), id);
    } else if Accepted(w, i) {
      match i
      case DoCreateOrg(c) => CreatesAnother(w, c, id);
      case DoJoin(c) => JoinsAnother(w, c, id);
      case DoSetShare(c) => SharesAnother(w, c, id);
      case DoDissolve(c) => DissolvesAnother(w, c, id);
    }
  }

  lemma Unchanged(w: World, n: World, id: U64)
    requires n.orgs == w.orgs && n.members == w.members
    ensures SameOrg(w, n, id)
  {
  }

  lemma TreasuryStays(w: World, i: Instr, id: U64)
    requires Treasury.Inv(w) && id in w.orgs && (Accepted(w, i) ==> !Runs(i, id))
    ensures Balance(Step(w, i).tokens, OrgTreasury(id)) >= Balance(w.tokens, OrgTreasury(id))
  {
    hide Exec, Supply, Treasury.Inv;
    TreasuryReady(w, id);
    StepTokens(w, i);
    if Accepted(w, i) && SignerOf(i).Some? {
      SignedByWallet(w, i);
    }
  }

  /** None of a run's steps carries the signature of an admin that the organization has at its start. */
  ghost predicate NoAdminSigns(w: World, trace: seq<Instr>, id: U64) {
    forall i, k :: i in trace && SignerOf(i) == Some(k) ==> !IsAdmin(w, id, k)
  }

  /** However long others run the program, an organization none of whose admins signs anything keeps its record,
      its members with their roles and shares, and everything in its treasury. */
  lemma {:induction false} OnlyAdmins(w: World, trace: seq<Instr>, id: U64)
    requires Treasury.Inv(w) && id in w.orgs && NoAdminSigns(w, trace, id)
    ensures var n := Run(w, trace);
            && Treasury.Inv(n) && SameOrg(w, n, id)
            && Balance(n.tokens, OrgTreasury(id)) >= Balance(w.tokens, OrgTreasury(id))
  {
    hide Exec, Step, Treasury.Inv, Balance, SignerOf, Runs;
    if trace != [] {
      var mid, i := Run(w, trace[..|trace| - 1]), trace[|trace| - 1];
      OnlyAdmins(w, trace[..|trace| - 1], id);
      if Accepted(mid, i) && Runs(i, id) {
        RunByAdmin(mid, i, id);
        assert false;
      }
      OthersLeave(mid, i, id);
      TreasuryStays(mid, i, id);
      StepKeepsInv(mid, i);
    }
  }
}
