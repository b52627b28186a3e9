/** Where the tokens are: nothing is minted or lost, and every instruction takes from accounts of one key only. */
module Custody {
  import opened Types
  import opened TokenLedger
  import opened AuthoritySpec
  import opened SpendSpec
  import opened EscrowSpec
  import opened OrgSpec
  import opened ReceiptSpec
  import opened AgentSpec
  import opened Machine
  import opened Frames
  import opened Sums

  ghost function Balances(t: Tokens, mint: Bytes32): map<Address, nat> {
    map a | a in t && t[a].mint == mint :: t[a].amount
  }

  /** All the tokens of a mint. */
  ghost function Supply(t: Tokens, mint: Bytes32): nat {
    Total(Balances(t, mint))
  }

  /** From `t` to `n`: accounts stay, with owner and mint; only accounts of `opener` lose tokens; nothing but
      tokens of `mint` moves; and the supply of every mint is the same. */
  ghost predicate Kept(t: Tokens, n: Tokens, opener: Option<Pubkey>, mint: Option<Bytes32>) {
    && (forall a :: a in t ==> a in n && n[a].owner == t[a].owner && n[a].mint == t[a].mint)
    && (forall a :: a in t && Some(t[a].owner) != opener ==> n[a].amount >= t[a].amount)
    && (forall a :: a in t && Some(t[a].mint) != mint ==> n[a] == t[a])
    && (forall m :: Supply(n, m) == Supply(t, m))
  }

  /** Moving `amount` from one account to another, and nothing else. */
  ghost predicate Moved(t: Tokens, n: Tokens, from: Address, to: Address, amount: int) {
    && n.Keys == t.Keys && from in t && to in t && from != to
    && n[from].amount == t[from].amount - amount && n[to].amount == t[to].amount + amount
    && forall a :: a in t && a != from && a != to ==> n[a] == t[a]
  }

  /** A transfer between accounts of the mint goes through if and only if the amount is there, and moves just that. */
  lemma TransferExact(t: Tokens, from: Address, to: Address, mint: Bytes32, signer: Pubkey, amount: U64)
    requires from in t && to in t && t[from].mint == mint && t[to].mint == mint && t[from].owner == signer
    requires from != to ==> t[from].amount as int + t[to].amount as int < U64_END
    ensures var r := Transfer(t, from, to, mint, signer, amount, true);
            && (r.Ok? <==> amount <= t[from].amount)
            && (r.Ok? && from != to ==> Moved(t, r.value, from, to, amount))
  {
  }

  lemma TransferSupply(t: Tokens, from: Address, to: Address, mint: Bytes32, signer: Pubkey, amount: U64, accept: bool, m: Bytes32)
    requires Transfer(t, from, to, mint, signer, amount, accept).Ok?
    ensures Supply(Transfer(t, from, to, mint, signer, amount, accept).value, m) == Supply(t, m)
  {
    var n := Transfer(t, from, to, mint, signer, amount, accept).value;
    if from != to {
      var b: map<Address, nat> := Balances(t, m);
      if m == mint {
        var x: nat, y: nat := t[from].amount - amount, t[to].amount + amount;
        assert Balances(n, m) == b[from := x][to := y];
        TotalUpdate(b, from, x);
        TotalUpdate(b[from := x], to, y);
      } else {
        assert Balances(n, m) == b;
      }
    }
  }

  lemma TransferKeeps(t: Tokens, from: Address, to: Address, mint: Bytes32, signer: Pubkey, amount: U64, accept: bool)
    requires Transfer(t, from, to, mint, signer, amount, accept).Ok?
    ensures Kept(t, Transfer(t, from, to, mint, signer, amount, accept).value, Some(signer), Some(mint))
    ensures Transfer(t, from, to, mint, signer, amount, accept).value.Keys == t.Keys
  {
    forall m
      ensures Supply(Transfer(t, from, to, mint, signer, amount, accept).value, m) == Supply(t, m)
    {
      TransferSupply(t, from, to, mint, signer, amount, accept, m);
    }
  }

  lemma OpeningKeeps(t: Tokens, at: Address, owner: Pubkey, mint: Bytes32, opener: Option<Pubkey>, m: Option<Bytes32>)
    requires at !in t
    ensures Kept(t, t[at := TokenAccount(owner, mint, 0)], opener, m)
  {
    var n := t[at := TokenAccount(owner, mint, 0)];
    forall m
      ensures Supply(n, m) == Supply(t, m)
    {
      if m == mint {
        assert Balances(n, m) == Balances(t, m)[at := 0];
        TotalUpdate(Balances(t, m), at, 0);
      } else {
        assert Balances(n, m) == Balances(t, m);
      }
    }
  }

  lemma KeptTwice(t: Tokens, n: Tokens, u: Tokens, opener: Option<Pubkey>, mint: Option<Bytes32>)
    requires Kept(t, n, opener, mint) && Kept(n, u, opener, mint)
    ensures Kept(t, u, opener, mint)
  {
    forall m
      ensures Supply(u, m) == Supply(t, m)
    {
      assert Supply(n, m) == Supply(t, m);
    }
  }

  lemma KeptSame(t: Tokens, opener: Option<Pubkey>, mint: Option<Bytes32>)
    ensures Kept(t, t, opener, mint)
  {
  }

  /** The one key whose accounts an instruction may take tokens from: its caller's, or one the program signs for. */
  function OpenerOf(i: Instr): Option<Pubkey> {
    match i
    case DoIssue(c) => Some(c.agent)
    case DoPay(c) => Some(c.payer)
    case DoSplit(c) => Some(c.payer)
    case DoCreateEscrow(c) => Some(c.payer)
    case DoRelease(c) => Some(EscrowPda(c.escrowId))
    case DoCancel(c) => Some(EscrowPda(c.escrowId))
    case DoSlash(c) => Some(BondPda(c.authorityId))
    case DoDeposit(c) => Some(c.member)
    case DoOrgSplit(c) => Some(OrgPda(c.orgId))
    case DoDissolve(c) => Some(OrgPda(c.orgId))
    case DoReclaim(c) => Some(OrgPda(c.orgId))
    case Outside(_, _, _, signer, _) => Some(signer)
    case _ => None
  }

  /** The one mint whose tokens it may move: the one it names. */
  function MintOf(i: Instr): Option<Bytes32> {
    match i
    case DoIssue(c) => c.mintAcc
    case DoPay(c) => Some(c.mint)
    case DoSplit(c) => Some(c.mint)
    case DoCreateEscrow(c) => Some(c.mint)
    case DoRelease(c) => Some(c.mint)
    case DoCancel(c) => Some(c.mint)
    case DoSlash(c) => Some(c.mint)
    case DoDeposit(c) => Some(c.mint)
    case DoOrgSplit(c) => Some(c.mint)
    case DoDissolve(c) => Some(c.mint)
    case DoReclaim(c) => Some(c.mint)
    case Outside(_, _, mint, _, _) => Some(mint)
    case _ => None
  }

  lemma IssueTokens(w: World, c: IssueCall)
    requires IssueAuthority(w, c).Ok?
    ensures Kept(w.tokens, IssueAuthority(w, c).value.tokens, Some(c.agent), c.mintAcc)
  {
    hide NewAuthority, Kept;
    if c.bondAmount == 0 {
      KeptSame(w.tokens, Some(c.agent), c.mintAcc);
    } else {
      TransferKeeps(w.tokens, c.agentVault.value, c.bondVault.value, c.mintAcc.value, c.agent, c.bondAmount, c.accept);
    }
  }

  lemma PayTokens(w: World, c: PayCall)
    requires Pay(w, c).Ok?
    ensures Kept(w.tokens, Pay(w, c).value.tokens, Some(c.payer), Some(c.mint))
  {
    hide DebitGate, Transfer, Kept, Commit;
    TransferKeeps(w.tokens, c.payerToken, c.payeeToken, c.mint, c.payer, c.amount, c.accept);
  }

  lemma SplitTokens(w: World, c: SplitCall)
    requires AtomicSplit(w, c).Ok?
    ensures Kept(w.tokens, AtomicSplit(w, c).value.tokens, Some(c.payer), Some(c.mint))
  {
    hide DebitGate, Transfer, Kept, Commit, SplitCris, SplitTotal;
    TransferKeeps(w.tokens, c.payerToken, c.tokenA, c.mint, c.payer, c.amounts[0], c.acceptA);
    if |c.amounts| == 2 {
      var t := Transfer(w.tokens, c.payerToken, c.tokenA, c.mint, c.payer, c.amounts[0], c.acceptA).value;
      TransferKeeps(t, c.payerToken, c.tokenB.value, c.mint, c.payer, c.amounts[1], c.acceptB);
      KeptTwice(w.tokens, t, AtomicSplit(w, c).value.tokens, Some(c.payer), Some(c.mint));
    }
  }

  lemma EscrowTokens(w: World, c: EscrowCall)
    requires CreateEscrow(w, c).Ok?
    ensures Kept(w.tokens, CreateEscrow(w, c).value.tokens, Some(c.payer), Some(c.mint))
    ensures var vault := EscrowVault(c.escrowId);
            var n := CreateEscrow(w, c).value.tokens;
            vault !in w.tokens && n.Keys == w.tokens.Keys + {vault} && n[vault] == TokenAccount(EscrowPda(c.escrowId), c.mint, c.amount)
  {
    hide DebitGate, Kept, Commit;
    var t := WithVault(w.tokens, c);
    OpeningKeeps(w.tokens, EscrowVault(c.escrowId), EscrowPda(c.escrowId), c.mint, Some(c.payer), Some(c.mint));
    TransferKeeps(t, c.payerToken, EscrowVault(c.escrowId), c.mint, c.payer, c.amount, c.accept);
    KeptTwice(w.tokens, t, CreateEscrow(w, c).value.tokens, Some(c.payer), Some(c.mint));
  }

  lemma ReleaseTokens(w: World, c: ReleaseCall)
    requires ReleaseEscrow(w, c).Ok?
    ensures Kept(w.tokens, ReleaseEscrow(w, c).value.tokens, Some(EscrowPda(c.escrowId)), Some(c.mint))
  {
    hide Transfer, Kept, ReleaseRefusal;
    TransferKeeps(w.tokens, EscrowVault(c.escrowId), c.payeeToken, c.mint, EscrowPda(c.escrowId), w.escrows[c.escrowId].amount, c.accept);
  }

  lemma CancelTokens(w: World, c: CancelCall)
    requires CancelEscrow(w, c).Ok?
    ensures Kept(w.tokens, CancelEscrow(w, c).value.tokens, Some(EscrowPda(c.escrowId)), Some(c.mint))
  {
    hide Transfer, Kept;
    TransferKeeps(w.tokens, EscrowVault(c.escrowId), c.payerToken, c.mint, EscrowPda(c.escrowId), w.escrows[c.escrowId].amount, c.accept);
  }

  lemma SlashTokens(w: World, c: SlashCall)
    requires SlashBond(w, c).Ok?
    ensures Kept(w.tokens, SlashBond(w, c).value.tokens, Some(BondPda(c.authorityId)), Some(c.mint))
  {
    hide Transfer, Kept;
    TransferKeeps(w.tokens, c.bondVault, c.destination, c.mint, BondPda(c.authorityId), w.bonds[c.authorityId].amount, c.accept);
  }

  lemma CreateOrgTokens(w: World, c: CreateOrgCall)
    requires CreateOrg(w, c).Ok?
    ensures Kept(w.tokens, CreateOrg(w, c).value.tokens, None, None)
  {
    hide Kept;
    OpeningKeeps(w.tokens, OrgTreasury(c.orgId), OrgPda(c.orgId), c.mint, None, None);
  }

  lemma DepositTokens(w: World, c: DepositCall)
    requires DepositToOrg(w, c).Ok?
    ensures Kept(w.tokens, DepositToOrg(w, c).value.tokens, Some(c.member), Some(c.mint))
  {
    hide Transfer, Kept;
    TransferKeeps(w.tokens, c.memberToken, OrgTreasury(c.orgId), c.mint, c.member, c.amount, c.accept);
  }

  lemma OrgSplitTokens(w: World, c: OrgSplitCall)
    requires OrgSplit(w, c).Ok?
    ensures Kept(w.tokens, OrgSplit(w, c).value.tokens, Some(OrgPda(c.orgId)), Some(c.mint))
  {
    hide Transfer, Kept;
    TransferKeeps(w.tokens, OrgTreasury(c.orgId), c.recipientToken, c.mint, OrgPda(c.orgId), c.amounts[0], c.accept);
  }

  lemma PayOutKeeps(t: Tokens, org: U64, to: Address, mint: Bytes32, amount: U64, accept: bool)
    requires PayOut(t, org, to, mint, amount, accept).Ok?
    ensures Kept(t, PayOut(t, org, to, mint, amount, accept).value, Some(OrgPda(org)), Some(mint))
  {
    hide Transfer, Kept;
    if amount == 0 {
      KeptSame(t, Some(OrgPda(org)), Some(mint));
    } else {
      TransferKeeps(t, OrgTreasury(org), to, mint, OrgPda(org), amount, accept);
    }
  }

  lemma DissolveTokens(w: World, c: DissolveCall)
    requires DissolveOrg(w, c).Ok?
    ensures Kept(w.tokens, DissolveOrg(w, c).value.tokens, Some(OrgPda(c.orgId)), Some(c.mint))
  {
    hide PayOut, Kept, PayoutShare;
    var first := AdminPayout(w, c);
    var t := PayOut(w.tokens, c.orgId, c.adminToken, c.mint, first, c.acceptA).value;
    var second := SecondPayout(w, c, w.tokens[OrgTreasury(c.orgId)].amount).value;
    PayOutKeeps(w.tokens, c.orgId, c.adminToken, c.mint, first, c.acceptA);
    PayOutKeeps(t, c.orgId, if c.tokenB.Some? then c.tokenB.value else c.adminToken, c.mint, second, c.acceptB);
    KeptTwice(w.tokens, t, DissolveOrg(w, c).value.tokens, Some(OrgPda(c.orgId)), Some(c.mint));
  }

  lemma ReclaimTokens(w: World, c: ReclaimCall)
    requires ReclaimOrgResidual(w, c).Ok?
    ensures Kept(w.tokens, ReclaimOrgResidual(w, c).value.tokens, Some(OrgPda(c.orgId)), Some(c.mint))
  {
    hide Transfer, Kept;
    TransferKeeps(w.tokens, OrgTreasury(c.orgId), c.destination, c.mint, OrgPda(c.orgId), w.tokens[OrgTreasury(c.orgId)].amount, c.accept);
  }

  lemma OutsideTokens(w: World, from: Address, to: Address, mint: Bytes32, signer: Pubkey, amount: U64)
    requires OutsideTransfer(w, from, to, mint, signer, amount).Ok?
    ensures Kept(w.tokens, OutsideTransfer(w, from, to, mint, signer, amount).value.tokens, Some(signer), Some(mint))
  {
    hide Transfer, Kept;
    TransferKeeps(w.tokens, from, to, mint, signer, amount, true);
  }

  lemma OpenTokens(w: World, at: Address, owner: Pubkey, mint: Bytes32)
    requires OpenTokenAccount(w, at, owner, mint).Ok?
    ensures Kept(w.tokens, OpenTokenAccount(w, at, owner, mint).value.tokens, None, None)
  {
    hide Kept;
    OpeningKeeps(w.tokens, at, owner, mint, None, None);
  }

  predicate ByOrg(i: Instr) {
    i.DoCreateOrg? || i.DoDeposit? || i.DoOrgSplit? || i.DoDissolve? || i.DoReclaim?
  }

  lemma OrgStepTokens(w: World, i: Instr)
    requires ByOrg(i) && Accepted(w, i)
    ensures Kept(w.tokens, Step(w, i).tokens, OpenerOf(i), MintOf(i))
  {
    hide InitializeConfig, RegisterAgent, SetPaused, IssueAuthority, RevokeAuthority, ExpireAuthority, Pay, AtomicSplit, CreateEscrow, ReleaseEscrow, CancelEscrow,
      SlashBond, CreateOrg, JoinOrg, SetMemberShare, DepositToOrg, OrgSplit, DissolveOrg, ReclaimOrgResidual, CreateReceipt, AdvanceClock, OpenTokenAccount, OutsideTransfer;
    hide Kept;
    match i
    case DoCreateOrg(c) => CreateOrgTokens(w, c);
    case DoDeposit(c) => DepositTokens(w, c);
    case DoOrgSplit(c) => OrgSplitTokens(w, c);
    case DoDissolve(c) => DissolveTokens(w, c);
    case DoReclaim(c) => ReclaimTokens(w, c);
  }

  lemma VaultStepTokens(w: World, i: Instr)
    requires (i.DoCreateEscrow? || i.DoRelease? || i.DoCancel? || i.DoSlash?) && Accepted(w, i)
    ensures Kept(w.tokens, Step(w, i).tokens, OpenerOf(i), MintOf(i))
  {
    hide InitializeConfig, RegisterAgent, SetPaused, IssueAuthority, RevokeAuthority, ExpireAuthority, Pay, AtomicSplit, CreateEscrow, ReleaseEscrow, CancelEscrow,
      SlashBond, CreateOrg, JoinOrg, SetMemberShare, DepositToOrg, OrgSplit, DissolveOrg, ReclaimOrgResidual, CreateReceipt, AdvanceClock, OpenTokenAccount, OutsideTransfer;
    hide Kept;
    match i
    case DoCreateEscrow(c) => EscrowTokens(w, c);
    case DoRelease(c) => ReleaseTokens(w, c);
    case DoCancel(c) => CancelTokens(w, c);
    case DoSlash(c) => SlashTokens(w, c);
  }

  /** Every step conserves the supply of every mint, moves tokens of at most the one mint it names, and takes
      them only from accounts of one key: the caller's, or one the program signs for. */
  lemma StepTokens(w: World, i: Instr)
    ensures Kept(w.tokens, Step(w, i).tokens, OpenerOf(i), MintOf(i))
  {
    hide InitializeConfig, RegisterAgent, SetPaused, IssueAuthority, RevokeAuthority, ExpireAuthority, Pay, AtomicSplit, CreateEscrow, ReleaseEscrow, CancelEscrow,
      SlashBond, CreateOrg, JoinOrg, SetMemberShare, DepositToOrg, OrgSplit, DissolveOrg, ReclaimOrgResidual, CreateReceipt, AdvanceClock, OpenTokenAccount, OutsideTransfer;
    hide Kept;
    KeptSame(w.tokens, OpenerOf(i), MintOf(i));
    if !ChangesTokens(i) {
      TokensFrame(w, i);
    } else if Accepted(w, i) {
      match i
      case DoIssue(c) => IssueTokens(w, c);
      case DoPay(c) => PayTokens(w, c);
      case DoSplit(c) => SplitTokens(w, c);
      case OpenAccount(at, owner, mint) => OpenTokens(w, at, owner, mint);
      case Outside(from, to, mint, signer, amount) => OutsideTokens(w, from, to, mint, signer, amount);
      case _ => if ByOrg(i) { OrgStepTokens(w, i); } else { VaultStepTokens(w, i); }
    }
  }

  /** Over any run the supply of every mint is what it was at the start. */
  lemma {:induction false} SupplyConserved(start: World, trace: seq<Instr>, mint: Bytes32)
    ensures Supply(Run(start, trace).tokens, mint) == Supply(start.tokens, mint)
  {
    hide Exec, Step, Supply;
    if trace != [] {
      SupplyConserved(start, trace[..|trace| - 1], mint);
      StepTokens(Run(start, trace[..|trace| - 1]), trace[|trace| - 1]);
    }
  }
}
