/** Whose shares a dissolve has to cover, according to the code. */
module ShareCover {
  import opened Types
  import opened TokenLedger
  import opened OrgSpec
  import opened Machine
  import opened Frames
  import opened Sums
  import opened Custody
  import opened Orgs
  import opened Accounts
  import opened Treasury
  import opened Setting

  /** The members a dissolve pays. */
  function Paid(c: DissolveCall): set<MemberKey> {
    {MemberKey(c.orgId, c.admin)} + if c.memberB.Some? && c.tokenB.Some? then {c.memberB.value} else {}
  }

  /** The shares of the members it pays, each member once. */
  function PaidShares(w: World, c: DissolveCall): nat
    requires MemberKey(c.orgId, c.admin) in w.members
    requires c.memberB.Some? && c.tokenB.Some? ==> c.memberB.value in w.members
  {
    var first: nat := w.members[MemberKey(c.orgId, c.admin)].shareBps;
    var second: nat := if Second(c).Some? then w.members[Second(c).value].shareBps else 0;
    first + second
  }

  /** The second member a dissolve pays, if it is another one than the admin. */
  function Second(c: DissolveCall): Option<MemberKey> {
    if c.memberB.Some? && c.tokenB.Some? && c.memberB.value != MemberKey(c.orgId, c.admin) then c.memberB else None
  }

  lemma {:induction false} TotalZero<K>(m: map<K, nat>)
    ensures Total(m) == 0 <==> forall k :: k in m ==> m[k] == 0
  {
    if m != map[] {
      var k :| k in m;
      TotalWithout(m, k);
      TotalZero(m - {k});
      assert forall x :: x in m <==> x == k || x in m - {k};
      assert forall x :: x in m - {k} ==> (m - {k})[x] == m[x];
    }
  }

  /** Two entries are the whole sum exactly when every other entry is zero. */
  lemma PairIsTotal<K>(m: map<K, nat>, j: K, k: K)
    requires j in m && k in m && j != k
    ensures m[j] + m[k] == Total(m) <==> forall x :: x in m && x != j && x != k ==> m[x] == 0
  {
    TotalWithout(m, j);
    TotalWithout(m - {j}, k);
    TotalZero(m - {j} - {k});
    assert forall x :: x in m - {j} - {k} <==> x in m && x != j && x != k;
  }

  lemma OneIsTotal<K>(m: map<K, nat>, j: K)
    requires j in m
    ensures m[j] == Total(m) <==> forall x :: x in m && x != j ==> m[x] == 0
  {
    TotalWithout(m, j);
    TotalZero(m - {j});
    assert forall x :: x in m - {j} <==> x in m && x != j;
  }

  lemma DissolveNames(w: World, c: DissolveCall)
    requires OrgInv(w) && DissolveOrg(w, c).Ok?
    ensures c.orgId in w.orgs && Balanced(w, c.orgId) && MemberKey(c.orgId, c.admin) in w.members
    ensures c.memberB.Some? && c.tokenB.Some? ==> c.memberB.value in w.members && c.memberB.value.org == c.orgId
  {
    hide PayOut, PayoutShare, Balanced;
  }

  /** A dissolve that goes through pays out the whole total of an organization's shares if and only if
      every member it does not pay holds no share. The code checks no such thing, so where the
      condition fails it pays less: the documents promise that the set must be complete. */
  lemma CoversAllExactly(w: World, c: DissolveCall)
    requires OrgInv(w) && DissolveOrg(w, c).Ok?
    ensures c.orgId in w.orgs && MemberKey(c.orgId, c.admin) in w.members
    ensures c.memberB.Some? && c.tokenB.Some? ==> c.memberB.value in w.members
    ensures PaidShares(w, c) == w.orgs[c.orgId].totalShareBps
            <==> forall k :: k in w.members && k.org == c.orgId && k !in Paid(c) ==> w.members[k].shareBps == 0
  {
    hide DissolveOrg, OrgInv, Balanced;
    DissolveNames(w, c);
    RestExactly(w, c.orgId, MemberKey(c.orgId, c.admin), Second(c));
  }

  lemma RestExactly(w: World, id: U64, j: MemberKey, k: Option<MemberKey>)
    requires id in w.orgs && Balanced(w, id) && j in w.members && j.org == id
    requires k.Some? ==> k.value in w.members && k.value.org == id && k.value != j
    ensures w.members[j].shareBps as int + (if k.Some? then w.members[k.value].shareBps as int else 0) == w.orgs[id].totalShareBps
            <==> forall x :: x in w.members && x.org == id && x != j && Some(x) != k ==> w.members[x].shareBps == 0
  {
    hide Total;
    var m := Shares(w.members, id);
    assert forall x :: x in m <==> x in w.members && x.org == id;
    if k.Some? {
      PairIsTotal(m, j, k.value);
    } else {
      OneIsTotal(m, j);
    }
  }

  /** Whoever else holds shares: an admin who names nobody else closes any active organization. */
  lemma AdminAloneCloses(w: World, id: U64, admin: Pubkey, adminToken: Address)
    requires Treasury.Inv(w) && Supply(w.tokens, Counters(w).mint) < U64_END
    requires id in w.orgs && w.orgs[id].status == OrgActive && admin.Wallet?
    requires MemberKey(id, admin) in w.members && w.members[MemberKey(id, admin)].role == Admin
    requires adminToken in w.tokens && w.tokens[adminToken].owner == admin && w.tokens[adminToken].mint == Counters(w).mint
    ensures DissolveOrg(w, DissolveCall(admin, id, adminToken, None, None, Counters(w).mint, true, true)).Ok?
  {
    var c := DissolveCall(admin, id, adminToken, None, None, Counters(w).mint, true, true);
    AloneWellFormed(w, c);
    DissolveNeverShort(w, c);
  }

  lemma AloneWellFormed(w: World, c: DissolveCall)
    requires Treasury.Inv(w) && c.orgId in w.orgs && w.orgs[c.orgId].status == OrgActive && c.admin.Wallet?
    requires MemberKey(c.orgId, c.admin) in w.members && w.members[MemberKey(c.orgId, c.admin)].role == Admin
    requires c.adminToken in w.tokens && w.tokens[c.adminToken].owner == c.admin && w.tokens[c.adminToken].mint == Counters(w).mint
    requires c.memberB == None && c.tokenB == None && c.mint == Counters(w).mint && c.acceptA && c.acceptB
    ensures DissolveWellFormed(w, c)
  {
  }

  // ---- getting everything out ----

  lemma ReclaimGoesThrough(w: World, c: ReclaimCall)
    requires Treasury.Inv(w) && Supply(w.tokens, Counters(w).mint) < U64_END
    requires c.orgId in w.orgs && w.orgs[c.orgId].status == OrgClosed && c.authority.Wallet? && MemberKey(c.orgId, c.authority) in w.members
    requires c.authority == w.orgs[c.orgId].creator || w.members[MemberKey(c.orgId, c.authority)].role == Admin
    requires c.destination in w.tokens && w.tokens[c.destination].mint == Counters(w).mint && c.destination != OrgTreasury(c.orgId)
    requires c.mint == Counters(w).mint && c.accept && Balance(w.tokens, OrgTreasury(c.orgId)) > 0
    ensures ReclaimOrgResidual(w, c).Ok? && Balance(ReclaimOrgResidual(w, c).value.tokens, OrgTreasury(c.orgId)) == 0
  {
    ReclaimAccountsPass(w, c);
    Drains(w, c);
    hide Treasury.Inv, Supply, ReclaimAccounts, Transfer;
  }

  lemma ReclaimAccountsPass(w: World, c: ReclaimCall)
    requires Treasury.Inv(w) && c.orgId in w.orgs && w.orgs[c.orgId].status == OrgClosed && c.authority.Wallet?
    requires MemberKey(c.orgId, c.authority) in w.members && c.destination in w.tokens && w.tokens[c.destination].mint == Counters(w).mint
    ensures ReclaimAccounts(w, c).None? && OrgTreasury(c.orgId) in w.tokens
  {
    assert Balanced(w, c.orgId) && TreasuryOf(w, c.orgId);
    hide Total, Shares;
  }

  lemma Drains(w: World, c: ReclaimCall)
    requires Treasury.Inv(w) && Supply(w.tokens, c.mint) < U64_END && c.orgId in w.orgs && c.mint == Counters(w).mint && c.accept
    requires c.destination in w.tokens && w.tokens[c.destination].mint == c.mint && c.destination != OrgTreasury(c.orgId)
    requires OrgTreasury(c.orgId) in w.tokens && w.tokens[OrgTreasury(c.orgId)].amount > 0
    ensures var a := OrgTreasury(c.orgId);
            var r := Transfer(w.tokens, a, c.destination, c.mint, OrgPda(c.orgId), w.tokens[a].amount, c.accept);
            r.Ok? && a in r.value && r.value[a].amount == 0
  {
    hide Treasury.Inv, Supply, Counters;
    TreasuryKnown(w, c.orgId);
    PayOutExact(w.tokens, c.orgId, c.destination, c.mint, w.tokens[OrgTreasury(c.orgId)].amount);
  }

  lemma StepIs(w: World, i: Instr, n: World)
    requires Exec(w, i) == Ok(n)
    ensures Accepted(w, i) && Step(w, i) == n
  {
    hide Exec;
  }

  lemma DissolveFrame(w: World, c: DissolveCall, to: Address)
    requires Treasury.Inv(w) && DissolveOrg(w, c).Ok? && to in w.tokens
    ensures var n := DissolveOrg(w, c).value;
            && Step(w, DoDissolve(c)) == n && Accepted(w, DoDissolve(c)) && n.members == w.members && n.config == w.config
            && c.orgId in w.orgs && c.orgId in n.orgs && n.orgs[c.orgId] == w.orgs[c.orgId].(status := OrgClosed)
            && to in n.tokens && n.tokens[to].mint == w.tokens[to].mint
  {
    hide PayOut, PayoutShare, Supply, Treasury.Inv;
    StepTokens(w, DoDissolve(c));
  }

  /** In every reachable state an active organization's treasury can be emptied, whatever the shares: an admin
      dissolves it naming nobody else, and the creator or an admin reclaims what is left, if anything. */
  lemma TreasuryCanBeEmptied(start: World, trace: seq<Instr>, id: U64, admin: Pubkey, adminToken: Address, reclaimer: Pubkey, to: Address)
    requires Init(start) && forall m :: Supply(start.tokens, m) < U64_END
    requires var w := Run(start, trace);
             && id in w.orgs && w.orgs[id].status == OrgActive && admin.Wallet? && reclaimer.Wallet?
             && MemberKey(id, admin) in w.members && w.members[MemberKey(id, admin)].role == Admin
             && adminToken in w.tokens && w.tokens[adminToken].owner == admin && w.tokens[adminToken].mint == Counters(w).mint
             && MemberKey(id, reclaimer) in w.members && (reclaimer == w.orgs[id].creator || w.members[MemberKey(id, reclaimer)].role == Admin)
             && to in w.tokens && w.tokens[to].mint == Counters(w).mint && to != OrgTreasury(id)
    ensures var w, mint := Run(start, trace), Counters(Run(start, trace)).mint;
            var dissolve := DoDissolve(DissolveCall(admin, id, adminToken, None, None, mint, true, true));
            var n := Step(w, dissolve);
            var reclaim := DoReclaim(ReclaimCall(reclaimer, id, to, mint, true));
            && Accepted(w, dissolve)
            && (Balance(n.tokens, OrgTreasury(id)) > 0 ==> Accepted(n, reclaim))
            && Balance(Step(n, reclaim).tokens, OrgTreasury(id)) == 0
  {
    hide Exec, Step, Run, Supply, Treasury.Inv, DissolveOrg, ReclaimOrgResidual;
    var w, mint := Run(start, trace), Counters(Run(start, trace)).mint;
    var c := DissolveCall(admin, id, adminToken, None, None, mint, true, true);
    RunKeepsTreasury(start, trace);
    SupplyConserved(start, trace, mint);
    AdminAloneCloses(w, id, admin, adminToken);
    DissolveFrame(w, c, to);
    RunThenStep(start, trace, DoDissolve(c));
    RunKeepsTreasury(start, trace + [DoDissolve(c)]);
    SupplyConserved(start, trace + [DoDissolve(c)], mint);
    ThenReclaimed(Step(w, DoDissolve(c)), ReclaimCall(reclaimer, id, to, mint, true));
  }

  lemma RunThenStep(w: World, trace: seq<Instr>, i: Instr)
    ensures Run(w, trace + [i]) == Step(Run(w, trace), i)
  {
    hide Step;
    assert (trace + [i])[..|trace|] == trace;
  }

  lemma ThenReclaimed(w: World, c: ReclaimCall)
    requires Treasury.Inv(w) && Supply(w.tokens, Counters(w).mint) < U64_END
    requires c.orgId in w.orgs && w.orgs[c.orgId].status == OrgClosed && c.authority.Wallet? && MemberKey(c.orgId, c.authority) in w.members
    requires c.authority == w.orgs[c.orgId].creator || w.members[MemberKey(c.orgId, c.authority)].role == Admin
    requires c.destination in w.tokens && w.tokens[c.destination].mint == Counters(w).mint && c.destination != OrgTreasury(c.orgId)
    requires c.mint == Counters(w).mint && c.accept
    ensures Balance(w.tokens, OrgTreasury(c.orgId)) > 0 ==> Accepted(w, DoReclaim(c))
    ensures Balance(Step(w, DoReclaim(c)).tokens, OrgTreasury(c.orgId)) == 0
  {
    hide ReclaimOrgResidual, Treasury.Inv, Supply;
    if Balance(w.tokens, OrgTreasury(c.orgId)) > 0 {
      ReclaimGoesThrough(w, c);
      StepIs(w, DoReclaim(c), ReclaimOrgResidual(w, c).value);
    } else {
      NothingToReclaim(w, c);
    }
  }

  lemma NothingToReclaim(w: World, c: ReclaimCall)
    requires Balance(w.tokens, OrgTreasury(c.orgId)) == 0
    ensures Step(w, DoReclaim(c)) == w
  {
  }

  // ---- who is paid what ----

  lemma DissolveParties(w: World, c: DissolveCall)
    requires Treasury.Inv(w) && DissolveOrg(w, c).Ok?
    ensures c.orgId in w.orgs && w.orgs[c.orgId].status == OrgActive && c.admin.Wallet?
    ensures MemberKey(c.orgId, c.admin) in w.members && w.members[MemberKey(c.orgId, c.admin)].role == Admin
    ensures w.members[MemberKey(c.orgId, c.admin)].shareBps <= FULL_SHARE
    ensures OrgTreasury(c.orgId) in w.tokens && w.tokens[OrgTreasury(c.orgId)].owner == OrgPda(c.orgId)
    ensures c.adminToken in w.tokens && w.tokens[c.adminToken].owner == c.admin
    ensures c.memberB.Some? && c.tokenB.Some? ==>
      && c.memberB.value in w.members && c.memberB.value.org == c.orgId && w.members[c.memberB.value].shareBps <= FULL_SHARE
      && c.tokenB.value in w.tokens && w.tokens[c.tokenB.value].owner == w.members[c.memberB.value].agent
      && w.members[c.memberB.value].agent.Wallet?
  {
    hide PayOut, PayoutShare, Total, Shares;
    AdminShare(w, c);
    TreasuryKnown(w, c.orgId);
    assert Balanced(w, c.orgId);
    if c.memberB.Some? && c.tokenB.Some? {
      ShareWithinTotal(w, c.orgId, c.memberB.value);
    }
  }

  lemma PayOutAdds(t: Tokens, org: U64, to: Address, mint: Bytes32, amount: U64, accept: bool)
    requires PayOut(t, org, to, mint, amount, accept).Ok? && OrgTreasury(org) in t && to in t && to != OrgTreasury(org)
    ensures var n := PayOut(t, org, to, mint, amount, accept).value;
            && n.Keys == t.Keys && n[OrgTreasury(org)].amount == t[OrgTreasury(org)].amount - amount
            && forall a :: a in t && a != OrgTreasury(org) ==> n[a].amount == t[a].amount + if a == to then amount else 0
  {
  }

  lemma TwoPayOutsAdd(t: Tokens, c: DissolveCall, first: U64, second: U64)
    requires OrgTreasury(c.orgId) in t && c.adminToken in t && c.adminToken != OrgTreasury(c.orgId)
    requires second > 0 ==> c.tokenB.Some? && c.tokenB.value in t && c.tokenB.value != OrgTreasury(c.orgId)
    requires PayOut(t, c.orgId, c.adminToken, c.mint, first, c.acceptA).Ok?
    requires var one := PayOut(t, c.orgId, c.adminToken, c.mint, first, c.acceptA).value;
             PayOut(one, c.orgId, if c.tokenB.Some? then c.tokenB.value else c.adminToken, c.mint, second, c.acceptB).Ok?
    ensures var one := PayOut(t, c.orgId, c.adminToken, c.mint, first, c.acceptA).value;
            var n := PayOut(one, c.orgId, if c.tokenB.Some? then c.tokenB.value else c.adminToken, c.mint, second, c.acceptB).value;
            && n.Keys == t.Keys && n[OrgTreasury(c.orgId)].amount == t[OrgTreasury(c.orgId)].amount - first - second
            && (forall a :: a in t && a != OrgTreasury(c.orgId) ==>
                n[a].amount == t[a].amount + (if a == c.adminToken then first else 0) + (if Some(a) == c.tokenB then second else 0))
  {
    hide PayOut;
    var one := PayOut(t, c.orgId, c.adminToken, c.mint, first, c.acceptA).value;
    PayOutAdds(t, c.orgId, c.adminToken, c.mint, first, c.acceptA);
    if second == 0 {
      PaysNothing(one, c.orgId, if c.tokenB.Some? then c.tokenB.value else c.adminToken, c.mint, c.acceptB);
    } else {
      PayOutAdds(one, c.orgId, c.tokenB.value, c.mint, second, c.acceptB);
    }
  }

  lemma PaysNothing(t: Tokens, org: U64, to: Address, mint: Bytes32, accept: bool)
    ensures PayOut(t, org, to, mint, 0, accept) == Ok(t)
  {
  }

  /** An accepted dissolve pays its admin, into an account of the admin's, the floor of the admin's own share
      of what the treasury held, and the second member, if both of its accounts are passed, into an account of
      that member's, the floor of that member's own share; and nobody else. That holds of an admin named twice too. */
  lemma DissolvePaysEach(w: World, c: DissolveCall)
    requires Treasury.Inv(w) && DissolveOrg(w, c).Ok?
    ensures c.orgId in w.orgs && w.orgs[c.orgId].status == OrgActive && OrgTreasury(c.orgId) in w.tokens
    ensures MemberKey(c.orgId, c.admin) in w.members && w.members[MemberKey(c.orgId, c.admin)].role == Admin
    ensures c.adminToken in w.tokens && w.tokens[c.adminToken].owner == c.admin
    ensures c.memberB.Some? && c.tokenB.Some? ==>
      && c.memberB.value in w.members && c.memberB.value.org == c.orgId
      && c.tokenB.value in w.tokens && w.tokens[c.tokenB.value].owner == w.members[c.memberB.value].agent
    ensures var treasury := OrgTreasury(c.orgId);
            var t, n := w.tokens, DissolveOrg(w, c).value.tokens;
            var first := Due(w, c, MemberKey(c.orgId, c.admin));
            var second := DueSecond(w, c);
            && n.Keys == t.Keys && n[treasury].amount == t[treasury].amount - first - second
            && (forall a :: a in t && a != treasury ==>
                n[a].amount == t[a].amount + (if a == c.adminToken then first else 0) + (if Some(a) == c.tokenB then second else 0))
  {
    DissolveParties(w, c);
    DissolveSteps(w, c);
    DissolveShares(w, c);
    hide DissolveOrg, PayOut, PayoutShare, Treasury.Inv, DissolveAccounts, SecondPayout, AdminPayout, Due;
    TwoPayOutsAdd(w.tokens, c, AdminPayout(w, c), SecondPayout(w, c, w.tokens[OrgTreasury(c.orgId)].amount).value);
  }

  /** A dissolve that names the admin as the second member too pays the admin the floor of its share twice,
      and nobody else. */
  lemma AdminPaidTwice(w: World, c: DissolveCall)
    requires Treasury.Inv(w) && DissolveOrg(w, c).Ok?
    requires c.tokenB.Some? && c.memberB == Some(MemberKey(c.orgId, c.admin))
    ensures OrgTreasury(c.orgId) in w.tokens && c.adminToken in w.tokens && c.tokenB.value in w.tokens
    ensures w.tokens[c.adminToken].owner == c.admin && c.memberB.value in w.members
    ensures var treasury := OrgTreasury(c.orgId);
            var held := w.tokens[treasury].amount;
            var share := held * w.members[c.memberB.value].shareBps / 10_000;
            var t, n := w.tokens, DissolveOrg(w, c).value.tokens;
            && n.Keys == t.Keys
            && n[treasury].amount == held - 2 * share
            && t[c.tokenB.value].owner == c.admin
            && (forall a :: a in t && a != treasury ==>
                n[a].amount == t[a].amount + (if a == c.adminToken then share else 0) + (if a == c.tokenB.value then share else 0))
  {
    DissolvePaysEach(w, c);
    AgentOfAdmin(w, c);
    hide DissolveOrg, Treasury.Inv;
  }

  lemma AgentOfAdmin(w: World, c: DissolveCall)
    requires Treasury.Inv(w) && MemberKey(c.orgId, c.admin) in w.members
    ensures w.members[MemberKey(c.orgId, c.admin)].agent == c.admin
  {
  }

  // ---- which organizations are always shared out whole ----

  ghost predicate HasAccount(w: World, agent: Pubkey) {
    exists a :: a in w.tokens && w.tokens[a].owner == agent && w.tokens[a].mint == Counters(w).mint
  }

  /** Every accepted dissolve of the organization pays for all of its shares. */
  ghost predicate AlwaysWhole(w: World, id: U64)
    requires id in w.orgs
  {
    forall c: DissolveCall :: c.orgId == id && DissolveOrg(w, c).Ok? ==>
      && MemberKey(id, c.admin) in w.members && (c.memberB.Some? && c.tokenB.Some? ==> c.memberB.value in w.members)
      && PaidShares(w, c) == w.orgs[id].totalShareBps
  }

  /** Each admin who has a token account holds every share. */
  ghost predicate AdminsHoldAll(w: World, id: U64)
    requires id in w.orgs
  {
    forall k :: k in w.members && k.org == id && w.members[k].role == Admin && HasAccount(w, k.agent)
      ==> w.members[k].shareBps == w.orgs[id].totalShareBps
  }

  /** The documented rule holds of an active organization, whatever dissolve comes, if and only if each of
      its admins with a token account holds every share. */
  lemma AlwaysWholeExactly(w: World, id: U64)
    requires Treasury.Inv(w) && Supply(w.tokens, Counters(w).mint) < U64_END
    requires id in w.orgs && w.orgs[id].status == OrgActive
    ensures AlwaysWhole(w, id) <==> AdminsHoldAll(w, id)
  {
    hide DissolveOrg, Supply, Treasury.Inv, PaidShares, HasAccount;
    if AlwaysWhole(w, id) {
      forall k | k in w.members && k.org == id && w.members[k].role == Admin && HasAccount(w, k.agent)
        ensures w.members[k].shareBps == w.orgs[id].totalShareBps
      {
        WholeMeansAll(w, id, k);
      }
    }
    if AdminsHoldAll(w, id) {
      forall c: DissolveCall | c.orgId == id && DissolveOrg(w, c).Ok?
        ensures MemberKey(id, c.admin) in w.members && (c.memberB.Some? && c.tokenB.Some? ==> c.memberB.value in w.members)
        ensures PaidShares(w, c) == w.orgs[id].totalShareBps
      {
        AllMeansWhole(w, c);
      }
    }
  }

  lemma WholeMeansAll(w: World, id: U64, k: MemberKey)
    requires Treasury.Inv(w) && Supply(w.tokens, Counters(w).mint) < U64_END
    requires id in w.orgs && w.orgs[id].status == OrgActive && AlwaysWhole(w, id)
    requires k in w.members && k.org == id && w.members[k].role == Admin && HasAccount(w, k.agent)
    ensures w.members[k].shareBps == w.orgs[id].totalShareBps
  {
    hide DissolveOrg, Supply, Treasury.Inv;
    WalletMember(w, k);
    var a :| a in w.tokens && w.tokens[a].owner == k.agent && w.tokens[a].mint == Counters(w).mint;
    assert k == MemberKey(id, k.agent);
    AdminAloneCloses(w, id, k.agent, a);
    assert PaidShares(w, DissolveCall(k.agent, id, a, None, None, Counters(w).mint, true, true)) == w.orgs[id].totalShareBps;
  }

  lemma WalletMember(w: World, k: MemberKey)
    requires Treasury.Inv(w) && k in w.members
    ensures k.agent.Wallet?
  {
  }

  lemma AllMeansWhole(w: World, c: DissolveCall)
    requires Treasury.Inv(w) && DissolveOrg(w, c).Ok? && c.orgId in w.orgs && AdminsHoldAll(w, c.orgId)
    ensures MemberKey(c.orgId, c.admin) in w.members && (c.memberB.Some? && c.tokenB.Some? ==> c.memberB.value in w.members)
    ensures PaidShares(w, c) == w.orgs[c.orgId].totalShareBps
  {
    hide DissolveOrg, Treasury.Inv, Balanced, HasAccount;
    DissolveAdmin(w, c);
    var j := MemberKey(c.orgId, c.admin);
    assert w.members[j].shareBps == w.orgs[c.orgId].totalShareBps;
    if Second(c).Some? {
      PairWithinTotal(w, c.orgId, j, Second(c).value);
    }
  }

  lemma PairWithinTotal(w: World, id: U64, j: MemberKey, k: MemberKey)
    requires id in w.orgs && Balanced(w, id) && j in w.members && k in w.members && j.org == id && k.org == id && j != k
    ensures w.members[j].shareBps as int + w.members[k].shareBps as int <= w.orgs[id].totalShareBps as int
  {
    TotalCovers(Shares(w.members, id), j, k);
  }

  lemma DissolveAdmin(w: World, c: DissolveCall)
    requires Treasury.Inv(w) && DissolveOrg(w, c).Ok?
    ensures c.orgId in w.orgs && Balanced(w, c.orgId)
    ensures MemberKey(c.orgId, c.admin) in w.members && w.members[MemberKey(c.orgId, c.admin)].role == Admin && HasAccount(w, c.admin)
    ensures c.memberB.Some? && c.tokenB.Some? ==> c.memberB.value in w.members && c.memberB.value.org == c.orgId
  {
    hide PayOut, PayoutShare, Balanced;
    assert TreasuryOf(w, c.orgId);
    assert c.adminToken in w.tokens && w.tokens[c.adminToken].owner == c.admin;
  }

  // ---- a run that leaves a member out ----

  function Created(b: WriteBack): World {
    var w := Registered(b);
    w.(config := Some(w.config.value.(orgCounter := 1)),
       orgs := map[1 := Org(1, 0, ALICE, 1, 5_000, OrgActive, 0)],
       members := map[MemberKey(1, ALICE) := OrgMember(1, ALICE, Admin, 5_000)],
       tokens := w.tokens[OrgTreasury(1) := TokenAccount(OrgPda(1), MINT, 0)])
  }

  /** Two equal members. */
  function Joined(b: WriteBack): World {
    var w := Created(b);
    w.(orgs := map[1 := Org(1, 0, ALICE, 2, 10_000, OrgActive, 0)],
       members := w.members[MemberKey(1, BOB) := OrgMember(1, BOB, Member, 5_000)])
  }

  /** The other one has paid in 100. */
  function Funded(b: WriteBack): World {
    var w := Joined(b);
    w.(tokens := w.tokens[Plain(2) := TokenAccount(BOB, MINT, 0)][OrgTreasury(1) := TokenAccount(OrgPda(1), MINT, 100)])
  }

  /** Half of that to the admin, none to the other, and the organization closed. */
  function Dissolved(b: WriteBack): World {
    var w := Funded(b);
    w.(orgs := w.orgs[1 := w.orgs[1].(status := OrgClosed)],
       tokens := w.tokens[OrgTreasury(1) := TokenAccount(OrgPda(1), MINT, 50)][Plain(1) := TokenAccount(ALICE, MINT, 150)])
  }

  function Memberships(): seq<Instr> {
    [DoCreateOrg(CreateOrgCall(ALICE, 1, 0, 5_000, MINT)), DoJoin(JoinCall(ALICE, BOB, 1, Member, 5_000)),
     DoDeposit(DepositCall(BOB, 1, Plain(2), MINT, 100, true))]
  }

  function Closing(): DissolveCall {
    DissolveCall(ALICE, 1, Plain(1), None, None, MINT, true, true)
  }

  lemma Creating(b: WriteBack)
    ensures Step(Registered(b), Memberships()[0]) == Created(b)
  {
  }

  lemma Joining(b: WriteBack)
    ensures Step(Created(b), Memberships()[1]) == Joined(b)
  {
  }

  lemma Funding(b: WriteBack)
    ensures Step(Joined(b), Memberships()[2]) == Funded(b)
  {
  }

  lemma Opened(b: WriteBack)
    ensures Run(Registered(b), Memberships()) == Funded(b)
  {
    hide Step;
    RunOfThree(Registered(b), Memberships()[0], Memberships()[1], Memberships()[2]);
    hide Run;
    Creating(b);
    Joining(b);
    Funding(b);
  }

  lemma Closed(b: WriteBack)
    ensures DissolveOrg(Funded(b), Closing()) == Ok(Dissolved(b))
  {
    var w, c := Funded(b), Closing();
    assert AdminPayout(w, c) == 50;
    assert DissolveAccounts(w, c).None?;
    assert PayOut(w.tokens, 1, Plain(1), MINT, 50, true) == Ok(Dissolved(b).tokens);
  }

  /** The documented rule is not the code's: here the only other member holds half of the shares, is not
      named, and the dissolve is accepted all the same, paying the admin's half and nobody else. */
  lemma MemberLeftOut(b: WriteBack)
    ensures Init(Beginning(b)) && Run(Run(Beginning(b), Registrations()), Memberships()) == Funded(b)
    ensures PaidShares(Funded(b), Closing()) == 5_000 < Funded(b).orgs[1].totalShareBps
    ensures DissolveOrg(Funded(b), Closing()) == Ok(Dissolved(b))
  {
    hide Run, Step, DissolveOrg;
    Registering(b);
    Opened(b);
    Closed(b);
  }

  function ClosingTwice(): DissolveCall {
    DissolveCall(ALICE, 1, Plain(1), Some(MemberKey(1, ALICE)), Some(Plain(1)), MINT, true, true)
  }

  /** All of it to the admin, none to the other. */
  function DissolvedTwice(b: WriteBack): World {
    var w := Funded(b);
    w.(orgs := w.orgs[1 := w.orgs[1].(status := OrgClosed)],
       tokens := w.tokens[OrgTreasury(1) := TokenAccount(OrgPda(1), MINT, 50)][Plain(1) := TokenAccount(ALICE, MINT, 150)]
                         [OrgTreasury(1) := TokenAccount(OrgPda(1), MINT, 0)][Plain(1) := TokenAccount(ALICE, MINT, 200)])
  }

  lemma ClosedTwice(b: WriteBack)
    ensures DissolveOrg(Funded(b), ClosingTwice()) == Ok(DissolvedTwice(b))
  {
    var w, c := Funded(b), ClosingTwice();
    TwoHalves(b);
    hide PayOut;
    assert AdminPayout(w, c) == 50;
    assert DissolveAccounts(w, c).None?;
    assert SecondPayout(w, c, 100) == Ok(50);
  }

  lemma TwoHalves(b: WriteBack)
    ensures PayOut(Funded(b).tokens, 1, Plain(1), MINT, 50, true) == Ok(Dissolved(b).tokens)
    ensures PayOut(Dissolved(b).tokens, 1, Plain(1), MINT, 50, true) == Ok(DissolvedTwice(b).tokens)
  {
  }

  /** The same run, with the admin named as the second member too: the two halves both go to the admin. */
  lemma AdminTakesBoth(b: WriteBack)
    ensures Init(Beginning(b)) && Run(Run(Beginning(b), Registrations()), Memberships()) == Funded(b)
    ensures PaidShares(Funded(b), ClosingTwice()) == 5_000 < Funded(b).orgs[1].totalShareBps
    ensures DissolveOrg(Funded(b), ClosingTwice()) == Ok(DissolvedTwice(b))
    ensures var n := DissolvedTwice(b).tokens; n[OrgTreasury(1)].amount == 0 && n[Plain(1)].amount == 200 && n[Plain(2)].amount == 0
  {
    hide Run, Step, DissolveOrg;
    Registering(b);
    Opened(b);
    ClosedTwice(b);
  }
}
