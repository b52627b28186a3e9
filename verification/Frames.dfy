/** Which instructions can change which accounts at all. */
module Frames {
  import opened Types
  import opened TokenLedger
  import opened AuthoritySpec
  import opened SpendSpec
  import opened EscrowSpec
  import opened OrgSpec
  import opened ReceiptSpec
  import opened AgentSpec
  import opened Machine

  predicate ChangesAuthorities(i: Instr) {
    i.DoIssue? || i.DoRevoke? || i.DoExpire? || i.DoPay? || i.DoSplit? || i.DoCreateEscrow?
  }

  predicate ChangesCris(i: Instr) {
    i.DoRegisterAgent? || i.DoPay? || i.DoSplit? || i.DoRelease? || i.DoCancel? || i.DoReceipt?
  }

  predicate ChangesEscrows(i: Instr) {
    i.DoCreateEscrow? || i.DoRelease? || i.DoCancel?
  }

  predicate ChangesOrgs(i: Instr) {
    i.DoCreateOrg? || i.DoJoin? || i.DoSetShare? || i.DoDissolve?
  }

  predicate ChangesTokens(i: Instr) {
    i.DoIssue? || i.DoPay? || i.DoSplit? || i.DoCreateEscrow? || i.DoRelease? || i.DoCancel? || i.DoSlash? || i.DoCreateOrg?
    || i.DoDeposit? || i.DoOrgSplit? || i.DoDissolve? || i.DoReclaim? || i.OpenAccount? || i.Outside?
  }

  predicate ChangesConfig(i: Instr) {
    i.DoInitializeConfig? || i.DoSetPaused? || i.DoIssue? || i.DoCreateEscrow? || i.DoCreateOrg? || i.DoReceipt?
  }

  /** The program's own keys sign nothing but what the program does. */
  lemma SignedByWallet(w: World, i: Instr)
    requires Accepted(w, i) && SignerOf(i).Some?
    ensures SignerOf(i).value.Wallet?
  {
    hide NewAuthority, LockBond, CascadeRefusal, Revoke, DebitGate, Commit, Commitment, Settlement, SplitTotal, SplitTransfers, SplitCris, Transfer,
      ReleaseRefusal, NewEscrow, WithVault, CreatorShare, PayOut, SecondPayout, AdminPayout, NewReceipt, CriGuard, TokenGuard, OrgGuard, AdminGuard,
      MemberGuard, IdentityGuard, TreasuryMint, CascadeChild, SplitArity, Either;
  }

  /** No instruction rebuilds the program. */
  lemma WriteBackFrame(w: World, i: Instr)
    ensures Step(w, i).writeBack == w.writeBack
  {
    hide InitializeConfig, RegisterAgent, SetPaused, IssueAuthority, RevokeAuthority, ExpireAuthority, Pay, AtomicSplit, CreateEscrow, ReleaseEscrow, CancelEscrow, SlashBond,
      CreateOrg, JoinOrg, SetMemberShare, DepositToOrg, OrgSplit, DissolveOrg, ReclaimOrgResidual, CreateReceipt, AdvanceClock, OpenTokenAccount, OutsideTransfer;
  }

  lemma {:induction false} RunKeepsWriteBack(w: World, trace: seq<Instr>)
    ensures Run(w, trace).writeBack == w.writeBack
  {
    hide Exec, Step;
    if trace != [] {
      RunKeepsWriteBack(w, trace[..|trace| - 1]);
      WriteBackFrame(Run(w, trace[..|trace| - 1]), trace[|trace| - 1]);
    }
  }

  lemma AuthoritiesFrame(w: World, i: Instr)
    ensures !ChangesAuthorities(i) ==> Step(w, i).authorities == w.authorities
  {
    hide InitializeConfig, RegisterAgent, SetPaused, IssueAuthority, RevokeAuthority, ExpireAuthority, Pay, AtomicSplit, CreateEscrow, ReleaseEscrow, CancelEscrow, SlashBond,
      CreateOrg, JoinOrg, SetMemberShare, DepositToOrg, OrgSplit, DissolveOrg, ReclaimOrgResidual, CreateReceipt, AdvanceClock, OpenTokenAccount, OutsideTransfer;
  }

  lemma CrisFrame(w: World, i: Instr)
    ensures !ChangesCris(i) ==> Step(w, i).cris == w.cris
  {
    hide InitializeConfig, RegisterAgent, SetPaused, IssueAuthority, RevokeAuthority, ExpireAuthority, Pay, AtomicSplit, CreateEscrow, ReleaseEscrow, CancelEscrow, SlashBond,
      CreateOrg, JoinOrg, SetMemberShare, DepositToOrg, OrgSplit, DissolveOrg, ReclaimOrgResidual, CreateReceipt, AdvanceClock, OpenTokenAccount, OutsideTransfer;
  }

  lemma EscrowsFrame(w: World, i: Instr)
    ensures !ChangesEscrows(i) ==> Step(w, i).escrows == w.escrows
  {
    hide InitializeConfig, RegisterAgent, SetPaused, IssueAuthority, RevokeAuthority, ExpireAuthority, Pay, AtomicSplit, CreateEscrow, ReleaseEscrow, CancelEscrow, SlashBond,
      CreateOrg, JoinOrg, SetMemberShare, DepositToOrg, OrgSplit, DissolveOrg, ReclaimOrgResidual, CreateReceipt, AdvanceClock, OpenTokenAccount, OutsideTransfer;
  }

  lemma OrgsFrame(w: World, i: Instr)
    ensures !ChangesOrgs(i) ==> Step(w, i).orgs == w.orgs && Step(w, i).members == w.members
  {
    hide InitializeConfig, RegisterAgent, SetPaused, IssueAuthority, RevokeAuthority, ExpireAuthority, Pay, AtomicSplit, CreateEscrow, ReleaseEscrow, CancelEscrow, SlashBond,
      CreateOrg, JoinOrg, SetMemberShare, DepositToOrg, OrgSplit, DissolveOrg, ReclaimOrgResidual, CreateReceipt, AdvanceClock, OpenTokenAccount, OutsideTransfer;
  }

  lemma TokensFrame(w: World, i: Instr)
    ensures !ChangesTokens(i) ==> Step(w, i).tokens == w.tokens
  {
    hide InitializeConfig, RegisterAgent, SetPaused, IssueAuthority, RevokeAuthority, ExpireAuthority, Pay, AtomicSplit, CreateEscrow, ReleaseEscrow, CancelEscrow, SlashBond,
      CreateOrg, JoinOrg, SetMemberShare, DepositToOrg, OrgSplit, DissolveOrg, ReclaimOrgResidual, CreateReceipt, AdvanceClock, OpenTokenAccount, OutsideTransfer;
  }

  lemma BondsFrame(w: World, i: Instr)
    ensures !i.DoIssue? && !i.DoSlash? ==> Step(w, i).bonds == w.bonds
  {
    hide InitializeConfig, RegisterAgent, SetPaused, IssueAuthority, RevokeAuthority, ExpireAuthority, Pay, AtomicSplit, CreateEscrow, ReleaseEscrow, CancelEscrow, SlashBond,
      CreateOrg, JoinOrg, SetMemberShare, DepositToOrg, OrgSplit, DissolveOrg, ReclaimOrgResidual, CreateReceipt, AdvanceClock, OpenTokenAccount, OutsideTransfer;
  }

  lemma ReceiptsFrame(w: World, i: Instr)
    ensures !i.DoReceipt? ==> Step(w, i).receipts == w.receipts
  {
    hide InitializeConfig, RegisterAgent, SetPaused, IssueAuthority, RevokeAuthority, ExpireAuthority, Pay, AtomicSplit, CreateEscrow, ReleaseEscrow, CancelEscrow, SlashBond,
      CreateOrg, JoinOrg, SetMemberShare, DepositToOrg, OrgSplit, DissolveOrg, ReclaimOrgResidual, CreateReceipt, AdvanceClock, OpenTokenAccount, OutsideTransfer;
  }

  lemma IdentitiesFrame(w: World, i: Instr)
    ensures !i.DoRegisterAgent? ==> Step(w, i).identities == w.identities
  {
    hide InitializeConfig, RegisterAgent, SetPaused, IssueAuthority, RevokeAuthority, ExpireAuthority, Pay, AtomicSplit, CreateEscrow, ReleaseEscrow, CancelEscrow, SlashBond,
      CreateOrg, JoinOrg, SetMemberShare, DepositToOrg, OrgSplit, DissolveOrg, ReclaimOrgResidual, CreateReceipt, AdvanceClock, OpenTokenAccount, OutsideTransfer;
  }

  lemma ConfigFrame(w: World, i: Instr)
    ensures !ChangesConfig(i) ==> Step(w, i).config == w.config
  {
    hide InitializeConfig, RegisterAgent, SetPaused, IssueAuthority, RevokeAuthority, ExpireAuthority, Pay, AtomicSplit, CreateEscrow, ReleaseEscrow, CancelEscrow, SlashBond,
      CreateOrg, JoinOrg, SetMemberShare, DepositToOrg, OrgSplit, DissolveOrg, ReclaimOrgResidual, CreateReceipt, AdvanceClock, OpenTokenAccount, OutsideTransfer;
  }

  lemma ClockFrame(w: World, i: Instr)
    ensures w.slot <= Step(w, i).slot && (!i.Clock? ==> Step(w, i).slot == w.slot)
  {
    hide InitializeConfig, RegisterAgent, SetPaused, IssueAuthority, RevokeAuthority, ExpireAuthority, Pay, AtomicSplit, CreateEscrow, ReleaseEscrow, CancelEscrow, SlashBond,
      CreateOrg, JoinOrg, SetMemberShare, DepositToOrg, OrgSplit, DissolveOrg, ReclaimOrgResidual, CreateReceipt, AdvanceClock, OpenTokenAccount, OutsideTransfer;
  }

  /** The configuration, with zero counters before there is one. */
  function Counters(w: World): Config {
    if w.config.Some? then w.config.value else Config(Wallet(0), 0, 0, 0, 0, 0, false)
  }

  lemma AuthorityCounterFrame(w: World, i: Instr)
    ensures !i.DoIssue? ==> Counters(Step(w, i)).authorityCounter == Counters(w).authorityCounter
  {
    hide RegisterAgent, RevokeAuthority, ExpireAuthority, Pay, AtomicSplit, ReleaseEscrow, CancelEscrow, SlashBond, JoinOrg, SetMemberShare, DepositToOrg,
      OrgSplit, DissolveOrg, ReclaimOrgResidual, AdvanceClock, OpenTokenAccount, OutsideTransfer;
    if !ChangesConfig(i) {
      ConfigFrame(w, i);
    }
  }

  lemma EscrowCounterFrame(w: World, i: Instr)
    ensures !i.DoCreateEscrow? ==> Counters(Step(w, i)).escrowCounter == Counters(w).escrowCounter
  {
    hide RegisterAgent, RevokeAuthority, ExpireAuthority, Pay, AtomicSplit, ReleaseEscrow, CancelEscrow, SlashBond, JoinOrg, SetMemberShare, DepositToOrg,
      OrgSplit, DissolveOrg, ReclaimOrgResidual, AdvanceClock, OpenTokenAccount, OutsideTransfer;
    if !ChangesConfig(i) {
      ConfigFrame(w, i);
    }
  }

  lemma OrgCounterFrame(w: World, i: Instr)
    ensures !i.DoCreateOrg? ==> Counters(Step(w, i)).orgCounter == Counters(w).orgCounter
  {
    hide RegisterAgent, RevokeAuthority, ExpireAuthority, Pay, AtomicSplit, ReleaseEscrow, CancelEscrow, SlashBond, JoinOrg, SetMemberShare, DepositToOrg,
      OrgSplit, DissolveOrg, ReclaimOrgResidual, AdvanceClock, OpenTokenAccount, OutsideTransfer;
    if !ChangesConfig(i) {
      ConfigFrame(w, i);
    }
  }

  lemma ReceiptCounterFrame(w: World, i: Instr)
    ensures !i.DoReceipt? ==> Counters(Step(w, i)).receiptCounter == Counters(w).receiptCounter
  {
    hide RegisterAgent, RevokeAuthority, ExpireAuthority, Pay, AtomicSplit, ReleaseEscrow, CancelEscrow, SlashBond, JoinOrg, SetMemberShare, DepositToOrg,
      OrgSplit, DissolveOrg, ReclaimOrgResidual, AdvanceClock, OpenTokenAccount, OutsideTransfer;
    if !ChangesConfig(i) {
      ConfigFrame(w, i);
    }
  }

  lemma MintFrame(w: World, i: Instr)
    ensures w.config.Some? ==> Step(w, i).config.Some? && Step(w, i).config.value.mint == w.config.value.mint
  {
    hide RegisterAgent, RevokeAuthority, ExpireAuthority, Pay, AtomicSplit, ReleaseEscrow, CancelEscrow, SlashBond, JoinOrg, SetMemberShare, DepositToOrg,
      OrgSplit, DissolveOrg, ReclaimOrgResidual, AdvanceClock, OpenTokenAccount, OutsideTransfer;
    if !ChangesConfig(i) {
      ConfigFrame(w, i);
    }
  }
}
