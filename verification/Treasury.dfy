/** Organization treasuries: an exact account of what goes in and out, and when a dissolve goes through. */
module Treasury {
  import opened Types
  import opened TokenLedger
  import opened AuthoritySpec
  import opened SpendSpec
  import opened EscrowSpec
  import opened OrgSpec
  import opened ReceiptSpec
  import opened AgentSpec
  import opened Machine
  import opened Frames
  import opened Sums
  import opened Custody
  import opened Keys
  import opened Orgs
  import opened Accounts

  /** Treasuries exist for organizations alone, owned by them and in the program's mint. */
  ghost predicate TreasuryInv(w: World) {
    forall org: U64 :: TreasuryOf(w, org)
  }

  ghost predicate TreasuryOf(w: World, org: U64) {
    && (OrgTreasury(org) in w.tokens <==> org in w.orgs)
    && (OrgTreasury(org) in w.tokens ==> w.tokens[OrgTreasury(org)].owner == OrgPda(org) && w.tokens[OrgTreasury(org)].mint == Counters(w).mint)
  }

  ghost predicate Inv(w: World) {
    OrgInv(w) && KeyInv(w) && TreasuryInv(w)
  }

  /** So a treasury is one of the accounts whose books are exact. */
  lemma InvApart(w: World, org: U64)
    requires Inv(w)
    ensures Apart(w) && ProgramOwned(w.tokens, OrgTreasury(org)) && TreasuryOf(w, org)
  {
    assert TreasuryOf(w, org);
  }

  lemma CreatesTreasury(w: World, c: CreateOrgCall, org: U64)
    requires Inv(w) && CreateOrg(w, c).Ok?
    ensures TreasuryOf(CreateOrg(w, c).value, org)
  {
    assert TreasuryOf(w, org);
  }

  lemma OnlyCreationOpens(w: World, i: Instr, org: U64)
    requires Accepted(w, i) && Opens(i, OrgTreasury(org))
    ensures i.DoCreateOrg?
  {
    hide InitializeConfig, RegisterAgent, SetPaused, IssueAuthority, RevokeAuthority, ExpireAuthority, Pay, AtomicSplit, CreateEscrow, ReleaseEscrow, CancelEscrow,
      SlashBond, CreateOrg, JoinOrg, SetMemberShare, DepositToOrg, OrgSplit, DissolveOrg, ReclaimOrgResidual, CreateReceipt, AdvanceClock, OutsideTransfer;
  }

  lemma StepKeepsTreasury(w: World, i: Instr, org: U64)
    requires Inv(w)
    ensures TreasuryOf(Step(w, i), org)
  {
    hide Exec, Step, Accepted, Inv, Apart, In, Out, Opens, Supply, Counters;
    InvApart(w, org);
    if i.DoCreateOrg? {
      CreatedTreasury(w, i, org);
    } else {
      MintStays(w, i);
      SameOrgs(w, i, org);
      StepBooks(w, i, OrgTreasury(org));
      StepTokens(w, i);
      if Opens(i, OrgTreasury(org)) && Accepted(w, i) {
        OnlyCreationOpens(w, i, org);
      }
    }
  }

  lemma CreatedTreasury(w: World, i: Instr, org: U64)
    requires Inv(w) && i.DoCreateOrg?
    ensures TreasuryOf(Step(w, i), org)
  {
    hide InitializeConfig, RegisterAgent, SetPaused, IssueAuthority, RevokeAuthority, ExpireAuthority, Pay, AtomicSplit, CreateEscrow, ReleaseEscrow, CancelEscrow,
      SlashBond, CreateOrg, JoinOrg, SetMemberShare, DepositToOrg, OrgSplit, DissolveOrg, ReclaimOrgResidual, CreateReceipt, AdvanceClock, OpenTokenAccount, OutsideTransfer;
    hide Inv, TreasuryOf;
    InvApart(w, org);
    if Accepted(w, i) {
      CreatesTreasury(w, i.create, org);
    }
  }

  lemma SameOrgs(w: World, i: Instr, org: U64)
    requires !i.DoCreateOrg?
    ensures org in Step(w, i).orgs <==> org in w.orgs
  {
    hide InitializeConfig, RegisterAgent, SetPaused, IssueAuthority, RevokeAuthority, ExpireAuthority, Pay, AtomicSplit, CreateEscrow, ReleaseEscrow, CancelEscrow,
      SlashBond, CreateOrg, DepositToOrg, OrgSplit, ReclaimOrgResidual, CreateReceipt, AdvanceClock, OpenTokenAccount, OutsideTransfer;
    hide PayOut, PayoutShare, SecondPayout;
    if !ChangesOrgs(i) {
      OrgsFrame(w, i);
    }
  }

  /** With any treasury there is a configuration, and its mint stays. */
  lemma MintStays(w: World, i: Instr)
    requires Inv(w)
    ensures w.orgs != map[] ==> Counters(Step(w, i)).mint == Counters(w).mint
  {
    hide Exec, Step, KeyInv, Balanced, MembersKeyed;
    if w.orgs != map[] {
      var id :| id in w.orgs;
      assert w.config.Some?;
      MintFrame(w, i);
    }
  }

  lemma StepKeepsInv(w: World, i: Instr)
    requires Inv(w)
    ensures Inv(Step(w, i))
  {
    hide Exec, Step, TreasuryOf, Balanced, KeyInv;
    StepKeepsOrgs(w, i);
    StepKeepsKeys(w, i);
    forall org: U64
      ensures TreasuryOf(Step(w, i), org)
    {
      StepKeepsTreasury(w, i, org);
    }
  }

  lemma {:induction false} RunKeepsTreasury(start: World, trace: seq<Instr>)
    requires Init(start)
    ensures Inv(Run(start, trace))
  {
    hide Exec, Step, OrgInv, KeyInv;
    if trace == [] {
      StartsEmpty(start);
      SharesBalance(start, trace);
    } else {
      RunKeepsTreasury(start, trace[..|trace| - 1]);
      StepKeepsInv(Run(start, trace[..|trace| - 1]), trace[|trace| - 1]);
    }
  }

  lemma StartsEmpty(start: World)
    requires Init(start)
    ensures TreasuryInv(start) && forall org: U64 :: OrgTreasury(org) !in start.tokens
  {
  }

  /** Over any run a treasury holds exactly its deposits and gifts less its splits, payouts and reclaims. */
  lemma TreasuryAccount(start: World, trace: seq<Instr>, org: U64)
    requires Init(start)
    ensures Inv(Run(start, trace))
    ensures var a := OrgTreasury(org);
            Balance(Run(start, trace).tokens, a) + OutTotal(start, trace, a) == InTotal(start, trace, a)
  {
    hide Exec, Run, Inv, InTotal, OutTotal, TreasuryInv;
    RunKeepsTreasury(start, trace);
    InvApart(Run(start, trace), org);
    StartsEmpty(start);
    AccountHolds(start, trace, OrgTreasury(org));
  }

  // ---- when a dissolve goes through ----

  /** Everything a dissolve needs apart from enough tokens: an admin of an active organization, token accounts
      of the members it pays, all in the program's mint, and a token program that lets the tokens go. */
  ghost predicate DissolveWellFormed(w: World, c: DissolveCall) {
    && c.orgId in w.orgs && w.orgs[c.orgId].status == OrgActive && c.admin.Wallet?
    && MemberKey(c.orgId, c.admin) in w.members && w.members[MemberKey(c.orgId, c.admin)].role == Admin
    && c.adminToken in w.tokens && w.tokens[c.adminToken].owner == c.admin && w.tokens[c.adminToken].mint == Counters(w).mint
    && (c.memberB.Some? ==> c.memberB.value in w.members) && (c.tokenB.Some? ==> c.tokenB.value in w.tokens)
    && (c.memberB.Some? && c.tokenB.Some? ==>
        && c.memberB.value.org == c.orgId
        && w.tokens[c.tokenB.value].owner == w.members[c.memberB.value].agent && w.tokens[c.tokenB.value].mint == Counters(w).mint)
    && c.mint == Counters(w).mint && c.acceptA && c.acceptB
  }

  lemma WellFormedPasses(w: World, c: DissolveCall)
    requires Inv(w) && DissolveWellFormed(w, c)
    ensures OrgTreasury(c.orgId) in w.tokens && DissolveAccounts(w, c).None? && SecondPayout(w, c, w.tokens[OrgTreasury(c.orgId)].amount).Ok?
  {
    assert TreasuryOf(w, c.orgId) && Balanced(w, c.orgId);
    hide PayoutShare, Total, Shares;
  }

  /** What a dissolve is to pay a member out of what the treasury held at its start. */
  function Due(w: World, c: DissolveCall, k: MemberKey): nat
    requires OrgTreasury(c.orgId) in w.tokens && k in w.members
  {
    w.tokens[OrgTreasury(c.orgId)].amount * w.members[k].shareBps / 10_000
  }

  /** The same for the second member, if both of its accounts are passed. */
  function DueSecond(w: World, c: DissolveCall): nat
    requires OrgTreasury(c.orgId) in w.tokens && (c.memberB.Some? && c.tokenB.Some? ==> c.memberB.value in w.members)
  {
    if c.memberB.Some? && c.tokenB.Some? then Due(w, c, c.memberB.value) else 0
  }

  /** The payouts are those floors: the truncation to 64 bits never cuts anything off. */
  lemma DissolveShares(w: World, c: DissolveCall)
    requires Inv(w) && DissolveAccounts(w, c).None? && SecondPayout(w, c, w.tokens[OrgTreasury(c.orgId)].amount).Ok?
    ensures c.memberB.Some? && c.tokenB.Some? ==> c.memberB.value in w.members && c.memberB.value.org == c.orgId
    ensures AdminPayout(w, c) == Due(w, c, MemberKey(c.orgId, c.admin))
    ensures SecondPayout(w, c, w.tokens[OrgTreasury(c.orgId)].amount) == Ok(DueSecond(w, c))
  {
    hide PayoutShare, TreasuryInv, KeyInv, Total, Shares;
    var held := w.tokens[OrgTreasury(c.orgId)].amount;
    AdminShare(w, c);
    PayoutFloor(held, w.members[MemberKey(c.orgId, c.admin)].shareBps);
    if c.memberB.Some? && c.tokenB.Some? {
      assert Balanced(w, c.orgId);
      ShareWithinTotal(w, c.orgId, c.memberB.value);
      PayoutFloor(held, w.members[c.memberB.value].shareBps);
    }
  }

  /** It goes through exactly when the two payouts fit into the treasury. */
  lemma DissolveExact(w: World, c: DissolveCall)
    requires Inv(w) && DissolveWellFormed(w, c) && Supply(w.tokens, Counters(w).mint) < U64_END
    ensures OrgTreasury(c.orgId) in w.tokens
    ensures DissolveOrg(w, c).Ok? <==> Due(w, c, MemberKey(c.orgId, c.admin)) + DueSecond(w, c) <= w.tokens[OrgTreasury(c.orgId)].amount
  {
    WellFormedPasses(w, c);
    DissolveShares(w, c);
    InvApart(w, c.orgId);
    DissolveElsewhere(w, c, OrgTreasury(c.orgId));
    var t := w.tokens;
    var first := AdminPayout(w, c);
    var second := SecondPayout(w, c, t[OrgTreasury(c.orgId)].amount).value;
    var to := if c.tokenB.Some? then c.tokenB.value else c.adminToken;
    TreasuryKnown(w, c.orgId);
    DissolveMints(w, c);
    DissolvePaysOut(w, c, first, second, to);
    hide PayoutShare, Supply, Inv, Apart, PayOut, DissolveAccounts, SecondPayout, DissolveOrg, DissolveWellFormed, Due, DueSecond, AdminPayout;
    TwoPayOutsExact(t, c.orgId, c.adminToken, to, c.mint, first, second);
  }

  lemma DissolvePaysOut(w: World, c: DissolveCall, first: U64, second: U64, to: Address)
    requires DissolveAccounts(w, c).None? && c.acceptA && c.acceptB
    requires OrgTreasury(c.orgId) in w.tokens && MemberKey(c.orgId, c.admin) in w.members
    requires first == AdminPayout(w, c) && Ok(second) == SecondPayout(w, c, w.tokens[OrgTreasury(c.orgId)].amount)
    requires to == if c.tokenB.Some? then c.tokenB.value else c.adminToken
    ensures var one := PayOut(w.tokens, c.orgId, c.adminToken, c.mint, first, true);
            DissolveOrg(w, c).Ok? <==>
              one.Ok? && PayOut(one.value, c.orgId, to, c.mint, second, true).Ok?
              && first + second <= w.tokens[OrgTreasury(c.orgId)].amount
  {
    hide PayOut, PayoutShare, DissolveAccounts, SecondPayout;
  }

  lemma DissolveMints(w: World, c: DissolveCall)
    requires DissolveWellFormed(w, c) && DissolveAccounts(w, c).None? && SecondPayout(w, c, w.tokens[OrgTreasury(c.orgId)].amount).Ok?
    ensures c.adminToken in w.tokens && w.tokens[c.adminToken].mint == c.mint
    ensures SecondPayout(w, c, w.tokens[OrgTreasury(c.orgId)].amount).value > 0
            ==> c.tokenB.Some? && c.tokenB.value in w.tokens && w.tokens[c.tokenB.value].mint == c.mint
  {
    hide PayoutShare;
  }

  lemma TreasuryKnown(w: World, org: U64)
    requires Inv(w) && OrgTreasury(org) in w.tokens
    ensures w.tokens[OrgTreasury(org)].owner == OrgPda(org) && w.tokens[OrgTreasury(org)].mint == Counters(w).mint
  {
    assert TreasuryOf(w, org);
  }

  lemma TwoPayOutsExact(t: Tokens, org: U64, a: Address, b: Address, mint: Bytes32, first: U64, second: U64)
    requires Supply(t, mint) < U64_END && OrgTreasury(org) in t && t[OrgTreasury(org)].owner == OrgPda(org) && t[OrgTreasury(org)].mint == mint
    requires first > 0 ==> a in t && t[a].mint == mint && a != OrgTreasury(org)
    requires second > 0 ==> b in t && t[b].mint == mint && b != OrgTreasury(org)
    ensures PayOut(t, org, a, mint, first, true).Ok? && PayOut(PayOut(t, org, a, mint, first, true).value, org, b, mint, second, true).Ok?
            <==> first + second <= t[OrgTreasury(org)].amount
  {
    hide PayOut, Supply;
    PayOutExact(t, org, a, mint, first);
    if first <= t[OrgTreasury(org)].amount {
      PayOutExact(PayOut(t, org, a, mint, first, true).value, org, b, mint, second);
    }
  }

  lemma PayOutExact(t: Tokens, org: U64, to: Address, mint: Bytes32, amount: U64)
    requires Supply(t, mint) < U64_END && OrgTreasury(org) in t && t[OrgTreasury(org)].owner == OrgPda(org) && t[OrgTreasury(org)].mint == mint
    requires amount > 0 ==> to in t && t[to].mint == mint && to != OrgTreasury(org)
    ensures PayOut(t, org, to, mint, amount, true).Ok? <==> amount <= t[OrgTreasury(org)].amount
    ensures PayOut(t, org, to, mint, amount, true).Ok? ==>
      var n := PayOut(t, org, to, mint, amount, true).value;
      && n.Keys == t.Keys && Supply(n, mint) < U64_END
      && (forall a :: a in t ==> n[a] == t[a].(amount := n[a].amount))
      && n[OrgTreasury(org)].amount == t[OrgTreasury(org)].amount - amount
  {
    if amount > 0 {
      TotalCovers(Balances(t, mint), OrgTreasury(org), to);
      if amount <= t[OrgTreasury(org)].amount {
        TransferSupply(t, OrgTreasury(org), to, mint, OrgPda(org), amount, true, mint);
      }
    }
  }

  /** The basis points of the balance that a dissolve pays to nobody. */
  function Unshared(w: World, c: DissolveCall): int
    requires DissolveAccounts(w, c).None?
  {
    10_000 - w.members[MemberKey(c.orgId, c.admin)].shareBps
    - (if c.memberB.Some? && c.tokenB.Some? then w.members[c.memberB.value].shareBps else 0)
  }

  /** With a second member other than the admin, or none, the payouts always fit, so a well-formed
      dissolve cannot fail. */
  lemma DissolveNeverShort(w: World, c: DissolveCall)
    requires Inv(w) && DissolveWellFormed(w, c) && Supply(w.tokens, Counters(w).mint) < U64_END
    requires c.memberB.Some? && c.tokenB.Some? ==> c.memberB.value != MemberKey(c.orgId, c.admin)
    ensures DissolveOrg(w, c).Ok?
  {
    WellFormedPasses(w, c);
    PayoutsFit(w, c);
    DissolveShares(w, c);
    DissolveExact(w, c);
    PaysBoth(w, c);
    hide Inv, Due, DueSecond, AdminPayout, SecondPayout, DissolveOrg, DissolvePays, Supply, DissolveAccounts;
  }

  lemma PaysBoth(w: World, c: DissolveCall)
    requires DissolveAccounts(w, c).None? && SecondPayout(w, c, w.tokens[OrgTreasury(c.orgId)].amount).Ok?
    ensures DissolvePays(w, c) == AdminPayout(w, c) + SecondPayout(w, c, w.tokens[OrgTreasury(c.orgId)].amount).value
  {
  }

  /** An accepted dissolve closes the organization, pays no more than the treasury held, and, unless the
      admin is paid twice, leaves the unshared part of it, within two roundings. */
  lemma DissolveLeaves(w: World, c: DissolveCall, n: World)
    requires Inv(w) && DissolveOrg(w, c) == Ok(n)
    ensures DissolveAccounts(w, c).None?
    ensures c.orgId in n.orgs && n.orgs[c.orgId].status == OrgClosed
    ensures var held, rest := w.tokens[OrgTreasury(c.orgId)].amount, Balance(n.tokens, OrgTreasury(c.orgId));
            && rest == held - DissolvePays(w, c) && rest >= 0
            && ((c.memberB.Some? && c.tokenB.Some? ==> c.memberB.value != MemberKey(c.orgId, c.admin)) ==>
                held * Unshared(w, c) <= 10_000 * rest < held * Unshared(w, c) + 20_000)
  {
    InvApart(w, c.orgId);
    DissolveSteps(w, c);
    DissolveBooks(w, c, OrgTreasury(c.orgId));
    if c.memberB.Some? && c.tokenB.Some? ==> c.memberB.value != MemberKey(c.orgId, c.admin) {
      PayoutsFit(w, c);
    }
    hide DissolveOrg, Inv, Apart, DissolvePays, DissolveAccounts, Unshared;
  }

  lemma PayoutsFit(w: World, c: DissolveCall)
    requires Inv(w) && DissolveAccounts(w, c).None? && SecondPayout(w, c, w.tokens[OrgTreasury(c.orgId)].amount).Ok?
    requires c.memberB.Some? && c.tokenB.Some? ==> c.memberB.value != MemberKey(c.orgId, c.admin)
    ensures var b := w.tokens[OrgTreasury(c.orgId)].amount;
            DissolvePays(w, c) <= b && b * Unshared(w, c) <= 10_000 * (b - DissolvePays(w, c)) < b * Unshared(w, c) + 20_000
  {
    hide PayoutShare, Inv, TokenGuard;
    var k := MemberKey(c.orgId, c.admin);
    var b := w.tokens[OrgTreasury(c.orgId)].amount;
    SharesOfDissolve(w, c);
    TwoPayouts(b, w.members[k].shareBps, if c.memberB.Some? && c.tokenB.Some? then w.members[c.memberB.value].shareBps else 0);
    NoShareNoPay(b);
  }

  lemma SharesOfDissolve(w: World, c: DissolveCall)
    requires Inv(w) && DissolveAccounts(w, c).None? && SecondPayout(w, c, w.tokens[OrgTreasury(c.orgId)].amount).Ok?
    requires c.memberB.Some? && c.tokenB.Some? ==> c.memberB.value != MemberKey(c.orgId, c.admin)
    ensures 0 <= Unshared(w, c) <= 10_000
  {
    hide PayoutShare, TreasuryInv, KeyInv;
    var k := MemberKey(c.orgId, c.admin);
    assert Balanced(w, c.orgId);
    if c.memberB.Some? && c.tokenB.Some? {
      SharesFitTogether(w, c.orgId, k, c.memberB.value);
    } else {
      ShareWithinTotal(w, c.orgId, k);
    }
  }

  lemma AdminShare(w: World, c: DissolveCall)
    requires Inv(w) && DissolveAccounts(w, c).None?
    ensures w.members[MemberKey(c.orgId, c.admin)].shareBps <= FULL_SHARE
  {
    hide TreasuryInv, KeyInv, Total, Shares;
    assert Balanced(w, c.orgId);
    ShareWithinTotal(w, c.orgId, MemberKey(c.orgId, c.admin));
  }

  lemma NoShareNoPay(balance: U64)
    ensures PayoutShare(balance, 0) == 0
  {
  }

  /** Naming the admin as the second member too asks for its share twice: that goes through exactly
      when two such payouts fit. */
  lemma DissolveAdminTwice(w: World, c: DissolveCall)
    requires Inv(w) && DissolveWellFormed(w, c) && Supply(w.tokens, Counters(w).mint) < U64_END
    requires c.tokenB.Some? && c.memberB == Some(MemberKey(c.orgId, c.admin))
    ensures OrgTreasury(c.orgId) in w.tokens
    ensures var b := w.tokens[OrgTreasury(c.orgId)].amount;
            var share := w.members[MemberKey(c.orgId, c.admin)].shareBps;
            DissolveOrg(w, c).Ok? <==> 2 * (b * share / 10_000) <= b
  {
    hide Supply, DissolveOrg, Inv;
    DissolveExact(w, c);
  }
}
