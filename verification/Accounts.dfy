/** An exact account of what goes in and out of any token account that a program key owns. */
module Accounts {
  import opened Types
  import opened TokenLedger
  import opened AuthoritySpec
  import opened SpendSpec
  import opened EscrowSpec
  import opened OrgSpec
  import opened ReceiptSpec
  import opened AgentSpec
  import opened Machine
  import opened Frames
  import opened Custody
  import opened Keys
  import opened Orgs

  /** What an account holds; nothing before there is one. */
  function Balance(t: Tokens, a: Address): nat {
    if a in t then t[a].amount else 0
  }

  /** If there is such an account, a program key owns it, not a wallet. */
  predicate ProgramOwned(t: Tokens, a: Address) {
    a in t ==> !t[a].owner.Wallet?
  }

  /** What tells the program's accounts from those of the agents it pays: agents and members are wallets. */
  ghost predicate Apart(w: World) {
    KeyInv(w) && MembersKeyed(w)
  }

  /** The two payouts of a dissolve. */
  function DissolvePays(w: World, c: DissolveCall): nat {
    if DissolveAccounts(w, c).None? && SecondPayout(w, c, w.tokens[OrgTreasury(c.orgId)].amount).Ok?
    then AdminPayout(w, c) + SecondPayout(w, c, w.tokens[OrgTreasury(c.orgId)].amount).value else 0
  }

  /** Into an account: bonds, escrow locks, deposits, and gifts: transfers from outside, slashed bonds and
      reclaimed treasuries sent there. */
  function In(w: World, i: Instr, a: Address): nat {
    if !Accepted(w, i) then 0
    else match i
      case DoIssue(c) => if c.bondAmount > 0 && c.bondVault == Some(a) then c.bondAmount else 0
      case DoCreateEscrow(c) => if a == EscrowVault(c.escrowId) then c.amount else 0
      case DoDeposit(c) => if a == OrgTreasury(c.orgId) then c.amount else 0
      case Outside(_, to, _, _, amount) => if to == a then amount else 0
      case DoSlash(c) => if c.destination == a && c.authorityId in w.bonds then w.bonds[c.authorityId].amount else 0
      case DoReclaim(c) => if c.destination == a then Balance(w.tokens, OrgTreasury(c.orgId)) else 0
      case _ => 0
  }

  /** Out of an account: settled escrows, slashed bonds, splits, dissolve payouts and the reclaimed rest. */
  function Out(w: World, i: Instr, a: Address): nat {
    if !Accepted(w, i) then 0
    else match i
      case DoRelease(c) => if a == EscrowVault(c.escrowId) && c.escrowId in w.escrows then w.escrows[c.escrowId].amount else 0
      case DoCancel(c) => if a == EscrowVault(c.escrowId) && c.escrowId in w.escrows then w.escrows[c.escrowId].amount else 0
      case DoSlash(c) => if c.bondVault == a && c.authorityId in w.bonds then w.bonds[c.authorityId].amount else 0
      case DoOrgSplit(c) => if a == OrgTreasury(c.orgId) && |c.amounts| == 1 then c.amounts[0] else 0
      case DoDissolve(c) => if a == OrgTreasury(c.orgId) then DissolvePays(w, c) else 0
      case DoReclaim(c) => if a == OrgTreasury(c.orgId) then Balance(w.tokens, a) else 0
      case _ => 0
  }

  /** The account an instruction opens. */
  predicate Opens(i: Instr, a: Address) {
    match i
    case DoCreateEscrow(c) => a == EscrowVault(c.escrowId)
    case DoCreateOrg(c) => a == OrgTreasury(c.orgId)
    case OpenAccount(at, _, _) => a == at
    case _ => false
  }

  /** The balance changes by `plus - minus`, and the account is there if it was or is opened. */
  ghost predicate Booked(t: Tokens, n: Tokens, a: Address, plus: int, minus: int, created: bool) {
    && (a in n <==> a in t || created)
    && Balance(n, a) + minus == Balance(t, a) + plus
  }

  // ---- instruction by instruction ----

  lemma TransferBooks(t: Tokens, from: Address, to: Address, mint: Bytes32, signer: Pubkey, amount: U64, accept: bool, a: Address)
    requires Transfer(t, from, to, mint, signer, amount, accept).Ok?
    ensures Booked(t, Transfer(t, from, to, mint, signer, amount, accept).value, a, if to == a then amount else 0, if from == a then amount else 0, false)
  {
  }

  lemma SameBooks(t: Tokens, a: Address)
    ensures Booked(t, t, a, 0, 0, false)
  {
  }

  lemma IssueBooks(w: World, c: IssueCall, a: Address)
    requires Apart(w) && ProgramOwned(w.tokens, a) && IssueAuthority(w, c).Ok?
    ensures Booked(w.tokens, IssueAuthority(w, c).value.tokens, a, if c.bondAmount > 0 && c.bondVault == Some(a) then c.bondAmount else 0, 0, false)
  {
    hide NewAuthority, Transfer, Booked;
    if c.bondAmount > 0 {
      TransferBooks(w.tokens, c.agentVault.value, c.bondVault.value, c.mintAcc.value, c.agent, c.bondAmount, c.accept, a);
    } else {
      SameBooks(w.tokens, a);
    }
  }

  lemma PayBooks(w: World, c: PayCall, a: Address)
    requires Apart(w) && ProgramOwned(w.tokens, a) && Pay(w, c).Ok?
    ensures Booked(w.tokens, Pay(w, c).value.tokens, a, 0, 0, false)
  {
    hide DebitGate, Transfer, Commit, Booked;
    TransferBooks(w.tokens, c.payerToken, c.payeeToken, c.mint, c.payer, c.amount, c.accept, a);
  }

  lemma SplitOwners(w: World, c: SplitCall)
    requires AtomicSplit(w, c).Ok?
    ensures SplitArity(c) && |c.amounts| <= 2 && c.payer.Wallet? && c.payeeA in w.cris
    ensures c.payerToken in w.tokens && w.tokens[c.payerToken].owner == c.payer
    ensures c.tokenA in w.tokens && w.tokens[c.tokenA].owner == c.payeeA
    ensures |c.amounts| == 2 ==>
      && c.tokenB.value in w.tokens && w.tokens[c.tokenB.value].owner == c.payeeB.value
      && c.criB.value in w.cris && w.cris[c.criB.value].agent == c.payeeB.value
  {
    hide DebitGate, Transfer, Commit, SplitTotal, Settlement, Commitment;
  }

  /** None of a split's token accounts is the program's: their owners are registered agents. */
  lemma SplitElsewhere(w: World, c: SplitCall, a: Address)
    requires Apart(w) && ProgramOwned(w.tokens, a) && AtomicSplit(w, c).Ok?
    ensures SplitArity(c) && |c.amounts| <= 2
    ensures c.payerToken != a && c.tokenA != a
    ensures |c.amounts| == 2 ==> c.tokenB.value != a
  {
    SplitOwners(w, c);
    hide AtomicSplit, MembersKeyed;
  }

  lemma SplitBooks(w: World, c: SplitCall, a: Address)
    requires Apart(w) && ProgramOwned(w.tokens, a) && AtomicSplit(w, c).Ok?
    ensures Booked(w.tokens, AtomicSplit(w, c).value.tokens, a, 0, 0, false)
  {
    hide DebitGate, Transfer, Commit, SplitTotal;
    SplitElsewhere(w, c, a);
    hide Apart;
    TransferBooks(w.tokens, c.payerToken, c.tokenA, c.mint, c.payer, c.amounts[0], c.acceptA, a);
    if |c.amounts| == 2 {
      var t := Transfer(w.tokens, c.payerToken, c.tokenA, c.mint, c.payer, c.amounts[0], c.acceptA).value;
      TransferBooks(t, c.payerToken, c.tokenB.value, c.mint, c.payer, c.amounts[1], c.acceptB, a);
    }
  }

  lemma LockBooks(w: World, c: EscrowCall, a: Address)
    requires Apart(w) && ProgramOwned(w.tokens, a) && CreateEscrow(w, c).Ok?
    ensures Booked(w.tokens, CreateEscrow(w, c).value.tokens, a,
                   if a == EscrowVault(c.escrowId) then c.amount else 0, 0, a == EscrowVault(c.escrowId))
  {
    hide DebitGate, Commit, NewEscrow;
  }

  lemma ReleaseBooks(w: World, c: ReleaseCall, a: Address)
    requires Apart(w) && ProgramOwned(w.tokens, a) && ReleaseEscrow(w, c).Ok?
    ensures c.escrowId in w.escrows
    ensures Booked(w.tokens, ReleaseEscrow(w, c).value.tokens, a, 0, if a == EscrowVault(c.escrowId) then w.escrows[c.escrowId].amount else 0, false)
  {
    hide ReleaseRefusal, Transfer, Booked;
    TransferBooks(w.tokens, EscrowVault(c.escrowId), c.payeeToken, c.mint, EscrowPda(c.escrowId), w.escrows[c.escrowId].amount, c.accept, a);
  }

  lemma CancelBooks(w: World, c: CancelCall, a: Address)
    requires Apart(w) && ProgramOwned(w.tokens, a) && CancelEscrow(w, c).Ok?
    ensures c.escrowId in w.escrows
    ensures Booked(w.tokens, CancelEscrow(w, c).value.tokens, a, 0, if a == EscrowVault(c.escrowId) then w.escrows[c.escrowId].amount else 0, false)
  {
    hide Transfer, Booked;
    TransferBooks(w.tokens, EscrowVault(c.escrowId), c.payerToken, c.mint, EscrowPda(c.escrowId), w.escrows[c.escrowId].amount, c.accept, a);
  }

  lemma SlashBooks(w: World, c: SlashCall, a: Address)
    requires SlashBond(w, c).Ok?
    ensures c.authorityId in w.bonds
    ensures var amount := w.bonds[c.authorityId].amount;
            Booked(w.tokens, SlashBond(w, c).value.tokens, a, if c.destination == a then amount else 0, if c.bondVault == a then amount else 0, false)
  {
    hide Transfer, Booked;
    TransferBooks(w.tokens, c.bondVault, c.destination, c.mint, BondPda(c.authorityId), w.bonds[c.authorityId].amount, c.accept, a);
  }

  lemma CreateOrgBooks(w: World, c: CreateOrgCall, a: Address)
    requires CreateOrg(w, c).Ok?
    ensures Booked(w.tokens, CreateOrg(w, c).value.tokens, a, 0, 0, a == OrgTreasury(c.orgId))
  {
  }

  lemma DepositBooks(w: World, c: DepositCall, a: Address)
    requires Apart(w) && ProgramOwned(w.tokens, a) && DepositToOrg(w, c).Ok?
    ensures Booked(w.tokens, DepositToOrg(w, c).value.tokens, a, if a == OrgTreasury(c.orgId) then c.amount else 0, 0, false)
  {
    hide Transfer, Booked;
    TransferBooks(w.tokens, c.memberToken, OrgTreasury(c.orgId), c.mint, c.member, c.amount, c.accept, a);
  }

  lemma OrgSplitBooks(w: World, c: OrgSplitCall, a: Address)
    requires Apart(w) && ProgramOwned(w.tokens, a) && OrgSplit(w, c).Ok?
    ensures |c.amounts| == 1
    ensures Booked(w.tokens, OrgSplit(w, c).value.tokens, a, 0, if a == OrgTreasury(c.orgId) then c.amounts[0] else 0, false)
  {
    hide Transfer, Booked;
    TransferBooks(w.tokens, OrgTreasury(c.orgId), c.recipientToken, c.mint, OrgPda(c.orgId), c.amounts[0], c.accept, a);
  }

  /** An accepted dissolve is its two payouts, one after the other, and then the organization is closed. */
  lemma DissolveSteps(w: World, c: DissolveCall)
    requires DissolveOrg(w, c).Ok?
    ensures DissolveAccounts(w, c).None? && SecondPayout(w, c, w.tokens[OrgTreasury(c.orgId)].amount).Ok?
    ensures var n := DissolveOrg(w, c).value;
            var first, second := AdminPayout(w, c), SecondPayout(w, c, w.tokens[OrgTreasury(c.orgId)].amount).value;
            var to := if c.tokenB.Some? then c.tokenB.value else c.adminToken;
            var t := PayOut(w.tokens, c.orgId, c.adminToken, c.mint, first, c.acceptA);
            && DissolvePays(w, c) == first + second <= w.tokens[OrgTreasury(c.orgId)].amount
            && t.Ok? && PayOut(t.value, c.orgId, to, c.mint, second, c.acceptB) == Ok(n.tokens)
            && c.orgId in n.orgs && n.orgs[c.orgId].status == OrgClosed
  {
    hide PayOut, PayoutShare;
  }

  lemma DissolveElsewhere(w: World, c: DissolveCall, a: Address)
    requires Apart(w) && ProgramOwned(w.tokens, a)
    requires DissolveAccounts(w, c).None? && SecondPayout(w, c, w.tokens[OrgTreasury(c.orgId)].amount).Ok?
    ensures c.adminToken != a
    ensures SecondPayout(w, c, w.tokens[OrgTreasury(c.orgId)].amount).value > 0 ==> c.tokenB.Some? && c.tokenB.value != a
  {
    hide PayoutShare, KeyInv;
  }

  lemma PayOutBooks(t: Tokens, org: U64, to: Address, mint: Bytes32, amount: U64, accept: bool, a: Address)
    requires PayOut(t, org, to, mint, amount, accept).Ok? && (amount > 0 ==> to != a)
    ensures Booked(t, PayOut(t, org, to, mint, amount, accept).value, a, 0, if a == OrgTreasury(org) then amount else 0, false)
  {
    hide Transfer, Booked;
    if amount == 0 {
      SameBooks(t, a);
    } else {
      TransferBooks(t, OrgTreasury(org), to, mint, OrgPda(org), amount, accept, a);
    }
  }

  lemma DissolveBooks(w: World, c: DissolveCall, a: Address)
    requires Apart(w) && ProgramOwned(w.tokens, a) && DissolveOrg(w, c).Ok?
    ensures Booked(w.tokens, DissolveOrg(w, c).value.tokens, a, 0, if a == OrgTreasury(c.orgId) then DissolvePays(w, c) else 0, false)
  {
    DissolveSteps(w, c);
    DissolveElsewhere(w, c, a);
    hide PayOut, PayoutShare, DissolveOrg, SecondPayout, DissolveAccounts, Apart, DissolvePays;
    var first := AdminPayout(w, c);
    var t := PayOut(w.tokens, c.orgId, c.adminToken, c.mint, first, c.acceptA).value;
    var second := SecondPayout(w, c, w.tokens[OrgTreasury(c.orgId)].amount).value;
    var to := if c.tokenB.Some? then c.tokenB.value else c.adminToken;
    PayOutBooks(w.tokens, c.orgId, c.adminToken, c.mint, first, c.acceptA, a);
    PayOutBooks(t, c.orgId, to, c.mint, second, c.acceptB, a);
  }

  lemma ReclaimBooks(w: World, c: ReclaimCall, a: Address)
    requires ReclaimOrgResidual(w, c).Ok?
    ensures var rest := Balance(w.tokens, OrgTreasury(c.orgId));
            Booked(w.tokens, ReclaimOrgResidual(w, c).value.tokens, a, if c.destination == a then rest else 0, if a == OrgTreasury(c.orgId) then rest else 0, false)
  {
    hide Transfer, Booked;
    TransferBooks(w.tokens, OrgTreasury(c.orgId), c.destination, c.mint, OrgPda(c.orgId), w.tokens[OrgTreasury(c.orgId)].amount, c.accept, a);
  }

  lemma OpenBooks(w: World, at: Address, owner: Pubkey, mint: Bytes32, a: Address)
    requires OpenTokenAccount(w, at, owner, mint).Ok?
    ensures Booked(w.tokens, OpenTokenAccount(w, at, owner, mint).value.tokens, a, 0, 0, a == at)
  {
  }

  lemma OutsideBooks(w: World, from: Address, to: Address, mint: Bytes32, signer: Pubkey, amount: U64, a: Address)
    requires ProgramOwned(w.tokens, a) && OutsideTransfer(w, from, to, mint, signer, amount).Ok?
    ensures Booked(w.tokens, OutsideTransfer(w, from, to, mint, signer, amount).value.tokens, a, if to == a then amount else 0, 0, false)
  {
    hide Booked;
    TransferBooks(w.tokens, from, to, mint, signer, amount, true, a);
  }

  // ---- one step ----

  lemma OrgStepBooks(w: World, i: Instr, a: Address)
    requires Apart(w) && ProgramOwned(w.tokens, a) && ByOrg(i) && Accepted(w, i)
    ensures Booked(w.tokens, Step(w, i).tokens, a, In(w, i, a), Out(w, i, a), Opens(i, a))
  {
    hide InitializeConfig, RegisterAgent, SetPaused, IssueAuthority, RevokeAuthority, ExpireAuthority, Pay, AtomicSplit, CreateEscrow, ReleaseEscrow, CancelEscrow,
      SlashBond, CreateOrg, JoinOrg, SetMemberShare, DepositToOrg, OrgSplit, DissolveOrg, ReclaimOrgResidual, CreateReceipt, AdvanceClock, OpenTokenAccount, OutsideTransfer;
    hide Apart, ProgramOwned, Booked, DissolvePays, Balance;
    match i
    case DoCreateOrg(c) => CreateOrgBooks(w, c, a);
    case DoDeposit(c) => DepositBooks(w, c, a);
    case DoOrgSplit(c) => OrgSplitBooks(w, c, a);
    case DoDissolve(c) => DissolveBooks(w, c, a);
    case DoReclaim(c) => ReclaimBooks(w, c, a);
  }

  lemma VaultStepBooks(w: World, i: Instr, a: Address)
    requires Apart(w) && ProgramOwned(w.tokens, a) && Accepted(w, i)
    requires i.DoIssue? || i.DoCreateEscrow? || i.DoRelease? || i.DoCancel? || i.DoSlash?
    ensures Booked(w.tokens, Step(w, i).tokens, a, In(w, i, a), Out(w, i, a), Opens(i, a))
  {
    hide InitializeConfig, RegisterAgent, SetPaused, IssueAuthority, RevokeAuthority, ExpireAuthority, Pay, AtomicSplit, CreateEscrow, ReleaseEscrow, CancelEscrow,
      SlashBond, CreateOrg, JoinOrg, SetMemberShare, DepositToOrg, OrgSplit, DissolveOrg, ReclaimOrgResidual, CreateReceipt, AdvanceClock, OpenTokenAccount, OutsideTransfer;
    hide Apart, ProgramOwned, Booked, DissolvePays, Balance;
    match i
    case DoIssue(c) => IssueBooks(w, c, a);
    case DoCreateEscrow(c) => LockBooks(w, c, a);
    case DoRelease(c) => ReleaseBooks(w, c, a);
    case DoCancel(c) => CancelBooks(w, c, a);
    case DoSlash(c) => SlashBooks(w, c, a);
  }

  lemma WalletStepBooks(w: World, i: Instr, a: Address)
    requires Apart(w) && ProgramOwned(w.tokens, a) && Accepted(w, i)
    requires i.DoPay? || i.DoSplit? || i.OpenAccount? || i.Outside?
    ensures Booked(w.tokens, Step(w, i).tokens, a, In(w, i, a), Out(w, i, a), Opens(i, a))
  {
    hide InitializeConfig, RegisterAgent, SetPaused, IssueAuthority, RevokeAuthority, ExpireAuthority, Pay, AtomicSplit, CreateEscrow, ReleaseEscrow, CancelEscrow,
      SlashBond, CreateOrg, JoinOrg, SetMemberShare, DepositToOrg, OrgSplit, DissolveOrg, ReclaimOrgResidual, CreateReceipt, AdvanceClock, OpenTokenAccount, OutsideTransfer;
    hide Apart, ProgramOwned, Booked, DissolvePays, Balance;
    match i
    case DoPay(c) => PayBooks(w, c, a);
    case DoSplit(c) => SplitBooks(w, c, a);
    case OpenAccount(at, owner, mint) => OpenBooks(w, at, owner, mint, a);
    case Outside(from, to, mint, signer, amount) => OutsideBooks(w, from, to, mint, signer, amount, a);
  }

  lemma QuietBooks(w: World, i: Instr, a: Address)
    requires !ChangesTokens(i) || !Accepted(w, i)
    ensures Booked(w.tokens, Step(w, i).tokens, a, In(w, i, a), Out(w, i, a), Opens(i, a) && Accepted(w, i))
  {
    hide Exec;
    if !ChangesTokens(i) {
      TokensFrame(w, i);
    }
  }

  /** Every step moves the balance of an account that a program key owns by exactly what goes in and out. */
  lemma StepBooks(w: World, i: Instr, a: Address)
    requires Apart(w) && ProgramOwned(w.tokens, a)
    ensures Booked(w.tokens, Step(w, i).tokens, a, In(w, i, a), Out(w, i, a), Opens(i, a) && Accepted(w, i))
  {
    hide Exec, Step, Accepted, Apart, ProgramOwned, Booked, In, Out, Opens;
    if !ChangesTokens(i) || !Accepted(w, i) {
      QuietBooks(w, i, a);
    } else if ByOrg(i) {
      OrgStepBooks(w, i, a);
    } else if i.DoPay? || i.DoSplit? || i.OpenAccount? || i.Outside? {
      WalletStepBooks(w, i, a);
    } else {
      VaultStepBooks(w, i, a);
    }
  }

  // ---- whole runs ----

  function InTotal(w: World, trace: seq<Instr>, a: Address): nat {
    if trace == [] then 0
    else InTotal(w, trace[..|trace| - 1], a) + In(Run(w, trace[..|trace| - 1]), trace[|trace| - 1], a)
  }

  function OutTotal(w: World, trace: seq<Instr>, a: Address): nat {
    if trace == [] then 0
    else OutTotal(w, trace[..|trace| - 1], a) + Out(Run(w, trace[..|trace| - 1]), trace[|trace| - 1], a)
  }

  lemma OwnedBefore(w: World, i: Instr, a: Address)
    requires ProgramOwned(Step(w, i).tokens, a)
    ensures ProgramOwned(w.tokens, a)
  {
    hide Exec, Step, Supply;
    StepTokens(w, i);
  }

  lemma RunApart(start: World, trace: seq<Instr>)
    requires Init(start)
    ensures Apart(Run(start, trace))
  {
    hide Exec, Step, Run, KeyInv, Balanced;
    SharesBalance(start, trace);
  }

  /** Over any run, an account that a program key owns at the end holds what it held at the start and all that
      went in, less all that went out. */
  lemma {:induction false} AccountHolds(start: World, trace: seq<Instr>, a: Address)
    requires Init(start) && ProgramOwned(Run(start, trace).tokens, a)
    ensures Balance(Run(start, trace).tokens, a) + OutTotal(start, trace, a) == Balance(start.tokens, a) + InTotal(start, trace, a)
  {
    hide Exec, Step, In, Out, Apart, ProgramOwned;
    if trace != [] {
      var mid, i := Run(start, trace[..|trace| - 1]), trace[|trace| - 1];
      OwnedBefore(mid, i, a);
      AccountHolds(start, trace[..|trace| - 1], a);
      RunApart(start, trace[..|trace| - 1]);
      StepBooks(mid, i, a);
    }
  }
}
