/** Reputation accounts and identities sit at the address of their agent, and only wallets have them. */
module Keys {
  import opened Types
  import opened TokenLedger
  import opened AuthoritySpec
  import opened SpendSpec
  import opened EscrowSpec
  import opened OrgSpec
  import opened ReceiptSpec
  import opened AgentSpec
  import opened Machine
  import opened Frames
  import opened SplitSimulation

  ghost predicate KeyInv(w: World) {
    && CrisKeyed(w)
    && (forall k :: k in w.cris ==> k.Wallet?)
    && (forall k :: k in w.identities ==> k.Wallet? && w.identities[k].agent == k)
  }

  lemma StepKeepsCri(w: World, i: Instr, k: Pubkey)
    requires KeyInv(w) && k in Step(w, i).cris
    ensures k.Wallet? && Step(w, i).cris[k].agent == k
    ensures k !in w.cris ==> i == DoRegisterAgent(k)
  {
    hide InitializeConfig, RegisterAgent, SetPaused, IssueAuthority, RevokeAuthority, ExpireAuthority, Pay, AtomicSplit, CreateEscrow, ReleaseEscrow, CancelEscrow,
      SlashBond, CreateOrg, JoinOrg, SetMemberShare, DepositToOrg, OrgSplit, DissolveOrg, ReclaimOrgResidual, CreateReceipt, AdvanceClock, OpenTokenAccount, OutsideTransfer;
    hide KeyInv;
    if !ChangesCris(i) || !Accepted(w, i) {
      CrisFrame(w, i);
      CriKept(w, k);
    } else {
      match i
      case DoRegisterAgent(_) => RegisterKeeps(w, i.agent, k);
      case DoPay(c) => PayKeeps(w, c, k);
      case DoSplit(c) => SplitKeeps(w, c, k);
      case DoRelease(c) => ReleaseKeeps(w, c, k);
      case DoCancel(c) => CancelKeeps(w, c, k);
      case DoReceipt(c) => ReceiptKeeps(w, c, k);
    }
  }

  lemma CriKept(w: World, k: Pubkey)
    requires KeyInv(w) && k in w.cris
    ensures k.Wallet? && w.cris[k].agent == k
  {
  }

  lemma PayKeeps(w: World, c: PayCall, k: Pubkey)
    requires KeyInv(w) && Pay(w, c).Ok? && k in Pay(w, c).value.cris
    ensures k.Wallet? && k in w.cris && Pay(w, c).value.cris[k].agent == k
  {
    hide DebitGate, Transfer, Commit;
  }

  lemma SplitKeeps(w: World, c: SplitCall, k: Pubkey)
    requires KeyInv(w) && AtomicSplit(w, c).Ok? && k in AtomicSplit(w, c).value.cris
    ensures k.Wallet? && k in w.cris && AtomicSplit(w, c).value.cris[k].agent == k
  {
    hide DebitGate, SplitTransfers, Commit, SplitTotal;
  }

  lemma ReleaseKeeps(w: World, c: ReleaseCall, k: Pubkey)
    requires KeyInv(w) && ReleaseEscrow(w, c).Ok? && k in ReleaseEscrow(w, c).value.cris
    ensures k.Wallet? && k in w.cris && ReleaseEscrow(w, c).value.cris[k].agent == k
  {
    hide Transfer, ReleaseRefusal;
  }

  lemma CancelKeeps(w: World, c: CancelCall, k: Pubkey)
    requires KeyInv(w) && CancelEscrow(w, c).Ok? && k in CancelEscrow(w, c).value.cris
    ensures k.Wallet? && k in w.cris && CancelEscrow(w, c).value.cris[k].agent == k
  {
    hide Transfer;
  }

  lemma ReceiptKeeps(w: World, c: ReceiptCall, k: Pubkey)
    requires KeyInv(w) && CreateReceipt(w, c).Ok? && k in CreateReceipt(w, c).value.cris
    ensures k.Wallet? && k in w.cris && CreateReceipt(w, c).value.cris[k].agent == k
  {
    hide Preimage;
  }

  lemma RegisterKeeps(w: World, agent: Pubkey, k: Pubkey)
    requires KeyInv(w) && RegisterAgent(w, agent).Ok? && k in RegisterAgent(w, agent).value.cris
    ensures k.Wallet? && RegisterAgent(w, agent).value.cris[k].agent == k && (k in w.cris || k == agent)
  {
  }

  lemma StepKeepsIdentity(w: World, i: Instr, k: Pubkey)
    requires KeyInv(w) && k in Step(w, i).identities
    ensures k.Wallet? && Step(w, i).identities[k].agent == k
  {
    hide InitializeConfig, SetPaused, IssueAuthority, RevokeAuthority, ExpireAuthority, Pay, AtomicSplit, CreateEscrow, ReleaseEscrow, CancelEscrow, SlashBond,
      CreateOrg, JoinOrg, SetMemberShare, DepositToOrg, OrgSplit, DissolveOrg, ReclaimOrgResidual, CreateReceipt, AdvanceClock, OpenTokenAccount, OutsideTransfer;
    if !i.DoRegisterAgent? {
      IdentitiesFrame(w, i);
    }
  }

  lemma StepKeepsKeys(w: World, i: Instr)
    requires KeyInv(w)
    ensures KeyInv(Step(w, i))
  {
    hide Exec, Step;
    forall k | k in Step(w, i).cris
      ensures k.Wallet? && Step(w, i).cris[k].agent == k
    {
      StepKeepsCri(w, i, k);
    }
    forall k | k in Step(w, i).identities
      ensures k.Wallet? && Step(w, i).identities[k].agent == k
    {
      StepKeepsIdentity(w, i, k);
    }
  }
}
