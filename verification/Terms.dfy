/** Every authority and every escrow carries the terms that the call which made it asked for. */
module Terms {
  import opened Types
  import opened TokenLedger
  import opened AuthoritySpec
  import opened SpendSpec
  import opened EscrowSpec
  import opened OrgSpec
  import opened ReceiptSpec
  import opened AgentSpec
  import opened Machine
  import opened Forest
  import opened Frames
  import opened Sums
  import opened AuthorityRuns
  import opened Custody
  import opened Keys
  import opened Escrows

  // ---- what an issued authority may do ----

  /** The smallest of some limits. */
  ghost predicate Least(limit: U64, limits: set<U64>) {
    limit in limits && forall x :: x in limits ==> limit <= x
  }

  /** A request that starts a new tree. */
  ghost predicate AsRoot(c: IssueCall, a: Authority) {
    && a.parentId == 0 && a.depth == 0
    && a.maxPerTx == c.maxPerTx && Least(a.maxTotal, {c.maxTotal, c.budget})
    && (forall k :: Allows(a.categories, k) <==> Allows(c.categories, k))
  }

  /** A request under a parent: nothing is granted that either of the two does not grant. */
  ghost predicate AsChild(c: IssueCall, a: Authority, parent: Authority) {
    && parent.agent == c.agent && parent.status == Active && a.depth == parent.depth + 1
    && c.budget <= parent.budget - parent.spent
    && Least(a.maxPerTx, {c.maxPerTx, parent.maxPerTx}) && Least(a.maxTotal, {c.maxTotal, parent.maxTotal, c.budget})
    && (forall k :: Allows(a.categories, k) <==> Allows(c.categories, k) && Allows(parent.categories, k))
  }

  /** The record that a request makes in a store: its own terms, narrowed to its parent's. */
  ghost predicate IssuedAs(A: Authorities, c: IssueCall, a: Authority) {
    && a.authorityId == c.authorityId && a.agent == c.agent && a.parentId == c.parentId
    && a.budget == c.budget && a.spent == 0 && a.expirySlot == c.expirySlot && a.status == Active && a.bondAmount == c.bondAmount
    && a.blocked == [] && a.requireMinReserve == 0
    && if c.parentId == 0 then AsRoot(c, a) else c.parentId in A && AsChild(c, a, A[c.parentId])
  }

  /** An accepted issue stores exactly the limits asked for, each cut to the parent's where that is less. */
  lemma IssueTerms(w: World, c: IssueCall)
    requires ForestInv(w) && IssueAuthority(w, c).Ok?
    ensures c.authorityId in IssueAuthority(w, c).value.authorities
    ensures var A := IssueAuthority(w, c).value.authorities;
            A == w.authorities[c.authorityId := A[c.authorityId]] && IssuedAs(w.authorities, c, A[c.authorityId])
  {
    IssueMoves(w, c);
    NewTerms(w, c);
    hide IssueAuthority, NewAuthority, Inv;
  }

  lemma NewTerms(w: World, c: IssueCall)
    requires ForestInv(w) && |c.categories| <= MAX_CATEGORIES && NewAuthority(w, c).Ok? && IssueAuthority(w, c).Ok?
    ensures IssuedAs(w.authorities, c, NewAuthority(w, c).value)
  {
    hide IssueAuthority, Narrow;
    if c.parentId != 0 {
      assert WellKept(w.authorities, c.parentAcc.value);
      NarrowMeaning(c.categories, w.authorities[c.parentId].categories);
    }
  }

  /** The bond asked for is moved from an account of the agent's into the vault of the new authority and
      recorded; without one nothing is moved. */
  lemma IssueLocksBond(w: World, c: IssueCall)
    requires IssueAuthority(w, c).Ok?
    ensures c.bondAmount == 0 ==> IssueAuthority(w, c).value.bonds == w.bonds && IssueAuthority(w, c).value.tokens == w.tokens
    ensures c.bondAmount > 0 ==>
      var n := IssueAuthority(w, c).value;
      && c.agentVault.Some? && c.agentVault.value in w.tokens && w.tokens[c.agentVault.value].owner == c.agent
      && Moved(w.tokens, n.tokens, c.agentVault.value, Ata(BondPda(c.authorityId), Counters(w).mint), c.bondAmount)
      && c.authorityId !in w.bonds && n.bonds == w.bonds[c.authorityId := Bond(c.authorityId, c.agent, c.bondAmount, BondActive)]
  {
    hide NewAuthority;
  }

  // ---- when an authority is granted ----

  /** Who may issue: a registered, active agent while the program is not paused, under the next id. */
  ghost predicate MayIssue(w: World, c: IssueCall) {
    && c.agent.Wallet? && w.config.Some? && !w.config.value.paused
    && c.agent in w.identities && w.identities[c.agent].active
    && c.authorityId as int == Count(w) as int + 1
  }

  /** What may be issued: a root, or a child that its parent has room for and shares a category with. */
  ghost predicate Grantable(A: Authorities, c: IssueCall) {
    && c.budget > 0 && |c.categories| <= 8
    && if c.parentId == 0 then c.parentAcc.None? else
         && c.parentAcc == Some(c.parentId) && c.parentId in A
         && var parent := A[c.parentId];
            && parent.status == Active && parent.agent == c.agent && parent.depth < 3
            && c.budget <= parent.budget - parent.spent
            && (exists k :: Allows(c.categories, k) && Allows(parent.categories, k))
  }

  /** A bond needs its five accounts, in order and with enough tokens; no bond needs that none is passed. */
  ghost predicate BondReady(w: World, c: IssueCall)
    requires w.config.Some?
  {
    var mint := w.config.value.mint;
    if c.bondAmount == 0 then
      !c.bondAcc && c.agentVault.None? && c.bondVault.None? && c.mintAcc.None? && !c.tokenProgram && !c.ataProgram
    else
      && c.bondAcc && c.mintAcc == Some(mint) && c.tokenProgram && c.ataProgram && c.accept
      && c.agentVault.Some? && c.agentVault.value in w.tokens
      && w.tokens[c.agentVault.value].owner == c.agent && w.tokens[c.agentVault.value].mint == mint
      && w.tokens[c.agentVault.value].amount >= c.bondAmount
      && c.bondVault == Some(Ata(BondPda(c.authorityId), mint)) && c.bondVault.value in w.tokens
      && w.tokens[c.bondVault.value].owner == BondPda(c.authorityId) && w.tokens[c.bondVault.value].mint == mint
  }

  lemma SomeCategory(request: Categories, parent: Categories)
    ensures (exists k :: Allows(request, k) && Allows(parent, k)) <==> !(request != [] && parent != [] && Narrow(request, parent) == [])
  {
    hide Narrow;
    NarrowMeaning(request, parent);
    if request == [] || parent == [] {
      var either := if request == [] then parent else request;
      var k: Bytes16 := if either == [] then 0 else either[0];
      assert Allows(request, k) && Allows(parent, k);
    } else if Narrow(request, parent) != [] {
      var k := Narrow(request, parent)[0];
      assert Allows(Narrow(request, parent), k);
      assert Allows(request, k) && Allows(parent, k);
    }
  }

  lemma GrantableExact(w: World, c: IssueCall)
    requires ForestInv(w) && |c.categories| <= MAX_CATEGORIES && c.budget > 0
    requires c.parentAcc.Some? ==> c.parentAcc.value in w.authorities
    ensures NewAuthority(w, c).Ok? <==> Grantable(w.authorities, c)
  {
    hide Narrow;
    if c.parentAcc.Some? {
      var parent := w.authorities[c.parentAcc.value];
      assert WellKept(w.authorities, c.parentAcc.value);
      SomeCategory(c.categories, parent.categories);
      if parent.categories != [] && c.categories == [] {
        NarrowMeaning(c.categories, parent.categories);
      }
    }
  }

  lemma IssuerExact(w: World, c: IssueCall)
    requires ForestInv(w) && KeyInv(w) && (forall id :: id in w.bonds ==> id in w.authorities)
    requires w.config.Some? && BondReady(w, c) && Grantable(w.authorities, c)
    ensures IssueAccounts(w, c).None? && !w.config.value.paused && c.authorityId as int == Count(w) as int + 1 <==> MayIssue(w, c)
  {
    hide Grantable, WellKept;
    assert c.parentAcc.Some? ==> c.parentAcc.value in w.authorities by { ParentThere(w, c); }
  }

  lemma ParentThere(w: World, c: IssueCall)
    requires Grantable(w.authorities, c)
    ensures c.parentAcc.Some? ==> c.parentAcc.value in w.authorities
  {
  }

  lemma BondLocks(w: World, c: IssueCall)
    requires w.config.Some? && Supply(w.tokens, Counters(w).mint) < U64_END && IssueAccounts(w, c).None?
    ensures LockBond(w, c).Ok? <==> BondReady(w, c)
  {
    if BondReady(w, c) && c.bondAmount > 0 {
      TotalCovers(Balances(w.tokens, Counters(w).mint), c.agentVault.value, c.bondVault.value);
    }
  }

  /** An authority is granted, and its bond locked, if and only if the caller may issue, the grant fits under its
      parent, and the bond's accounts are in order: the other refusals of the code never decide. That every bond
      has its authority holds in reachable states (`Bonds.BondsMatch`). */
  lemma IssueExact(w: World, c: IssueCall)
    requires ForestInv(w) && KeyInv(w) && (forall id :: id in w.bonds ==> id in w.authorities)
    requires Supply(w.tokens, Counters(w).mint) < U64_END
    ensures IssueAuthority(w, c).Ok? <==> MayIssue(w, c) && Grantable(w.authorities, c) && BondReady(w, c)
  {
    if IssueAuthority(w, c).Ok? {
      IssuedHad(w, c);
    }
    if MayIssue(w, c) && Grantable(w.authorities, c) && BondReady(w, c) {
      IssuePasses(w, c);
    }
  }

  lemma IssuedHad(w: World, c: IssueCall)
    requires ForestInv(w) && KeyInv(w) && IssueAuthority(w, c).Ok? && Supply(w.tokens, Counters(w).mint) < U64_END
    ensures MayIssue(w, c) && Grantable(w.authorities, c) && BondReady(w, c)
  {
    hide NewAuthority, BondReady, Grantable, LockBond;
    var cfg := w.config.value;
    GrantableExact(w, c);
    LockIgnores(w, c);
    BondLocks(w, c);
  }

  /** Locking a bond looks at nothing that issuing has changed by then. */
  lemma LockIgnores(w: World, c: IssueCall)
    requires w.config.Some? && |c.categories| <= MAX_CATEGORIES && NewAuthority(w, c).Ok?
    ensures var n := w.(config := Some(w.config.value.(authorityCounter := c.authorityId)),
                        authorities := w.authorities[c.authorityId := NewAuthority(w, c).value]);
            LockBond(n, c).Ok? <==> LockBond(w, c).Ok?
  {
    hide NewAuthority, Transfer;
  }

  lemma IssuePasses(w: World, c: IssueCall)
    requires ForestInv(w) && KeyInv(w) && (forall id :: id in w.bonds ==> id in w.authorities)
    requires Supply(w.tokens, Counters(w).mint) < U64_END
    requires MayIssue(w, c) && Grantable(w.authorities, c) && BondReady(w, c)
    ensures IssueAuthority(w, c).Ok?
  {
    hide NewAuthority, Supply, LockBond;
    IssuerExact(w, c);
    GrantableExact(w, c);
    LockIgnores(w, c);
    BondLocks(w, c);
    hide IssueAccounts, BondReady, Inv, KeyInv;
  }

  // ---- where the records of a run come from ----

  /** Step `k` of the run was an accepted issue that made the record, up to what has since been spent and ended. */
  ghost predicate IssuedAt(start: World, trace: seq<Instr>, a: Authority, k: nat) {
    && k < |trace| && trace[k].DoIssue?
    && var before := Run(start, trace[..k]);
       && Accepted(before, trace[k])
       && IssuedAs(before.authorities, trace[k].issue, a.(spent := 0, status := Active))
  }

  /** In every reachable state every authority comes from an accepted issue of the run, under exactly the terms
      asked for, cut to those its parent had. */
  lemma {:induction false} AuthorityOrigin(start: World, trace: seq<Instr>, id: U64)
    requires Init(start) && id in Run(start, trace).authorities
    ensures exists k :: IssuedAt(start, trace, Run(start, trace).authorities[id], k)
  {
    hide Exec, Step, IssuedAs;
    if trace != [] {
      var n := |trace| - 1;
      var mid := Run(start, trace[..n]);
      RunKeepsForest(start, trace[..n]);
      hide ForestInv;
      if id in mid.authorities {
        AuthorityOrigin(start, trace[..n], id);
        var k: nat :| IssuedAt(start, trace[..n], mid.authorities[id], k);
        TermsStay(mid, trace[n], id);
        assert trace[..n][..k] == trace[..k];
        assert IssuedAt(start, trace, Run(start, trace).authorities[id], k);
      } else {
        NewlyIssued(mid, trace[n], id);
        assert IssuedAt(start, trace, Run(start, trace).authorities[id], n);
      }
    }
  }

  lemma TermsStay(w: World, i: Instr, id: U64)
    requires ForestInv(w) && id in w.authorities
    ensures id in Step(w, i).authorities
    ensures Step(w, i).authorities[id].(spent := 0, status := Active) == w.authorities[id].(spent := 0, status := Active)
  {
    hide Exec, Step, MoveOf, Apply, Legal, Inv;
    StepMoves(w, i);
    MoveKeeps(w.authorities, Count(w), MoveOf(w, i), id);
  }

  lemma NewlyIssued(w: World, i: Instr, id: U64)
    requires ForestInv(w) && id !in w.authorities && id in Step(w, i).authorities
    ensures i.DoIssue? && Accepted(w, i) && IssuedAs(w.authorities, i.issue, Step(w, i).authorities[id])
    ensures Step(w, i).authorities[id].(spent := 0, status := Active) == Step(w, i).authorities[id]
  {
    hide Exec, Step, Accepted, MoveOf, Legal, Inv, IssuedAs;
    StepMoves(w, i);
    OnlyIssueAdds(w, i);
    assert MoveOf(w, i).Issued?;
    IssueStep(w, i);
    IssuedFresh(w.authorities, i.issue, Step(w, i).authorities[id]);
  }

  lemma IssuedFresh(A: Authorities, c: IssueCall, a: Authority)
    requires IssuedAs(A, c, a)
    ensures a.(spent := 0, status := Active) == a
  {
  }

  lemma OnlyIssueAdds(w: World, i: Instr)
    requires MoveOf(w, i).Issued?
    ensures i.DoIssue? && Accepted(w, i) && MoveOf(w, i).id == i.issue.authorityId
  {
    hide Exec, NewAuthority, SplitTotal;
  }

  lemma IssueStep(w: World, i: Instr)
    requires ForestInv(w) && i.DoIssue? && Accepted(w, i)
    ensures var A := Step(w, i).authorities;
            i.issue.authorityId in A && IssuedAs(w.authorities, i.issue, A[i.issue.authorityId])
  {
    hide IssueAuthority, IssuedAs, ForestInv;
    IssueTerms(w, i.issue);
  }

  /** The record that a lock makes at a slot. */
  predicate LockedAs(c: EscrowCall, slot: U64, e: Escrow) {
    && e.escrowId == c.escrowId && e.payer == c.payer && e.payee == c.payee && e.amount == c.amount
    && e.authorityId == c.authorityId && e.category == c.category
    && e.condition == c.condition && e.conditionData == c.conditionData && e.expirySlot == c.expirySlot
    && e.createdSlot == slot && e.status == Open
    && !c.condition.Unknown?
  }

  lemma LockTerms(w: World, c: EscrowCall)
    requires CreateEscrow(w, c).Ok?
    ensures c.escrowId in CreateEscrow(w, c).value.escrows && LockedAs(c, w.slot, CreateEscrow(w, c).value.escrows[c.escrowId])
  {
    hide DebitGate, Transfer, Commit;
  }

  /** Step `k` of the run was an accepted lock that made the record, up to how it was since settled. */
  ghost predicate LockedAt(start: World, trace: seq<Instr>, e: Escrow, k: nat) {
    && k < |trace| && trace[k].DoCreateEscrow?
    && var before := Run(start, trace[..k]);
       Accepted(before, trace[k]) && LockedAs(trace[k].lock, before.slot, e.(status := Open))
  }

  /** This instruction settles the escrow as its status says, at a time and by a party that may. */
  ghost predicate SettledBy(w: World, i: Instr, e: Escrow) {
    && Accepted(w, i)
    && match e.status
       case Open => false
       case Released => i.DoRelease? && i.release.escrowId == e.escrowId && ReleaseWindow(e.(status := Open), w.slot) && Proves(e, i.release.proof)
       case Cancelled => i.DoCancel? && i.cancel.escrowId == e.escrowId && i.cancel.canceller == e.payer
       case Lapsed => i.DoCancel? && i.cancel.escrowId == e.escrowId && i.cancel.canceller != e.payer && AnyoneMayCancel(e.(status := Open), w.slot)
  }

  ghost predicate SettledAt(start: World, trace: seq<Instr>, e: Escrow, k: nat) {
    k < |trace| && SettledBy(Run(start, trace[..k]), trace[k], e)
  }

  /** In every reachable state every escrow comes from an accepted lock of the run with exactly its terms; and if
      it is not Open, a step of the run settled it as its status says: a release in the window with the proof
      asked for, a cancel by its payer, or one by somebody else past the expiry. */
  lemma {:induction false} EscrowOrigin(start: World, trace: seq<Instr>, id: U64)
    requires Init(start) && id in Run(start, trace).escrows
    ensures exists k :: LockedAt(start, trace, Run(start, trace).escrows[id], k)
    ensures Run(start, trace).escrows[id].status != Open ==> exists k :: SettledAt(start, trace, Run(start, trace).escrows[id], k)
  {
    hide Exec, Step, Settles, SettledBy, LockedAs;
    if trace != [] {
      var n := |trace| - 1;
      var mid := Run(start, trace[..n]);
      RunKeepsEscrows(start, trace[..n]);
      hide EscrowInv, KeyInv;
      if id in mid.escrows {
        EscrowOrigin(start, trace[..n], id);
        EscrowEvolves(mid, trace[n], id);
        OriginStays(start, trace, id);
        if Settles(mid, trace[n], id) {
          SettlesAs(mid, trace[n], id);
          assert SettledAt(start, trace, Run(start, trace).escrows[id], n);
        }
      } else {
        NewlyLocked(mid, trace[n], id);
        assert LockedAt(start, trace, Run(start, trace).escrows[id], n);
      }
    }
  }

  lemma OriginStays(start: World, trace: seq<Instr>, id: U64)
    requires trace != [] && EscrowInv(Run(start, trace[..|trace| - 1])) && id in Run(start, trace[..|trace| - 1]).escrows
    requires var before := trace[..|trace| - 1];
             var e := Run(start, before).escrows[id];
             && (exists k :: LockedAt(start, before, e, k)) && (e.status != Open ==> exists k :: SettledAt(start, before, e, k))
    ensures id in Run(start, trace).escrows
    ensures exists k :: LockedAt(start, trace, Run(start, trace).escrows[id], k)
    ensures Run(start, trace[..|trace| - 1]).escrows[id].status != Open
            ==> exists k :: SettledAt(start, trace, Run(start, trace).escrows[id], k)
  {
    hide Exec, Step, Settles, SettledBy, LockedAs, EscrowInv;
    var n := |trace| - 1;
    var e := Run(start, trace[..n]).escrows[id];
    EscrowEvolves(Run(start, trace[..n]), trace[n], id);
    var k: nat :| LockedAt(start, trace[..n], e, k);
    assert trace[..n][..k] == trace[..k];
    assert LockedAt(start, trace, Run(start, trace).escrows[id], k);
    if e.status != Open {
      var j: nat :| SettledAt(start, trace[..n], e, j);
      assert trace[..n][..j] == trace[..j];
      assert SettledAt(start, trace, Run(start, trace).escrows[id], j);
    }
  }

  lemma NewlyLocked(w: World, i: Instr, id: U64)
    requires EscrowInv(w) && id !in w.escrows && id in Step(w, i).escrows
    ensures i.DoCreateEscrow? && Accepted(w, i) && LockedAs(i.lock, w.slot, Step(w, i).escrows[id])
    ensures Step(w, i).escrows[id].status == Open
  {
    hide InitializeConfig, RegisterAgent, SetPaused, IssueAuthority, RevokeAuthority, ExpireAuthority, Pay, AtomicSplit, CreateEscrow, ReleaseEscrow, CancelEscrow,
      SlashBond, CreateOrg, JoinOrg, SetMemberShare, DepositToOrg, OrgSplit, DissolveOrg, ReclaimOrgResidual, CreateReceipt, AdvanceClock, OpenTokenAccount, OutsideTransfer;
    hide EscrowInv;
    NewEscrowHeld(w, i, id);
    LockTerms(w, i.lock);
  }

  lemma SettlesAs(w: World, i: Instr, id: U64)
    requires EscrowInv(w) && KeyInv(w) && id in w.escrows && Settles(w, i, id)
    ensures id in Step(w, i).escrows && SettledBy(w, i, Step(w, i).escrows[id])
  {
    hide InitializeConfig, RegisterAgent, SetPaused, IssueAuthority, RevokeAuthority, ExpireAuthority, Pay, AtomicSplit, CreateEscrow, ReleaseEscrow, CancelEscrow,
      SlashBond, CreateOrg, JoinOrg, SetMemberShare, DepositToOrg, OrgSplit, DissolveOrg, ReclaimOrgResidual, CreateReceipt, AdvanceClock, OpenTokenAccount, OutsideTransfer;
    EscrowEvolves(w, i, id);
    assert Held(w, id);
    hide Held;
    if i.DoRelease? {
      ReleaseExact(w, i.release);
    } else if i.cancel.canceller != w.escrows[id].payer {
      StrangerCancelExact(w, i.cancel);
    }
  }
}
