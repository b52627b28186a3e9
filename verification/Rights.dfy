/** What holds whoever calls: the configuration, the pause switch, the wallets and the mint. */
module Rights {
  import opened Types
  import opened TokenLedger
  import opened AuthoritySpec
  import opened SpendSpec
  import opened EscrowSpec
  import opened OrgSpec
  import opened ReceiptSpec
  import opened AgentSpec
  import opened Machine
  import opened Frames
  import opened Custody
  import opened Escrows
  import opened Treasury
  import opened Vaults

  // ---- registration ----

  /** A wallet registers once, while the program is configured and not paused: it gets an active identity and a
      reputation account, both new, of its own, and with nothing counted. */
  lemma RegisterExact(w: World, agent: Pubkey)
    ensures RegisterAgent(w, agent).Ok? <==>
      && agent.Wallet? && w.config.Some? && !w.config.value.paused && agent !in w.identities && agent !in w.cris
    ensures RegisterAgent(w, agent).Ok? ==>
      && RegisterAgent(w, agent).value.identities == w.identities[agent := AgentIdentity(agent, w.slot, true)]
      && RegisterAgent(w, agent).value.cris == w.cris[agent := Cri(agent, 0, 0, 0, 0, 0, w.slot, w.slot, 0, 0)]
  {
  }

  // ---- the configuration ----

  /** What a step leaves of a configuration: admin and mint for good, and the pause flag unless this very step is
      the admin setting it. */
  ghost predicate ConfigAfter(w: World, i: Instr, n: World) {
    && w.config.Some? && n.config.Some?
    && n.config.value.admin == w.config.value.admin && n.config.value.mint == w.config.value.mint
    && n.config.value.paused == if i.DoSetPaused? && i.pauser == w.config.value.admin && i.pauser.Wallet? then i.paused else w.config.value.paused
  }

  lemma IssueConfig(w: World, c: IssueCall)
    requires IssueAuthority(w, c).Ok?
    ensures ConfigAfter(w, DoIssue(c), IssueAuthority(w, c).value)
  {
    hide NewAuthority, Transfer;
  }

  lemma LockConfig(w: World, c: EscrowCall)
    requires CreateEscrow(w, c).Ok?
    ensures ConfigAfter(w, DoCreateEscrow(c), CreateEscrow(w, c).value)
  {
    hide DebitGate, Transfer, Commit;
  }

  lemma CreateOrgConfig(w: World, c: CreateOrgCall)
    requires CreateOrg(w, c).Ok?
    ensures ConfigAfter(w, DoCreateOrg(c), CreateOrg(w, c).value)
  {
  }

  lemma ReceiptConfig(w: World, c: ReceiptCall)
    requires CreateReceipt(w, c).Ok?
    ensures ConfigAfter(w, DoReceipt(c), CreateReceipt(w, c).value)
  {
    hide NewReceipt;
  }

  lemma PauserConfig(w: World, pauser: Pubkey, paused: bool)
    requires w.config.Some?
    ensures ConfigAfter(w, DoSetPaused(pauser, paused), if SetPaused(w, pauser, paused).Ok? then SetPaused(w, pauser, paused).value else w)
  {
  }

  lemma NotAgain(w: World, admin: Pubkey, mint: Bytes32)
    requires w.config.Some?
    ensures InitializeConfig(w, admin, mint).Err?
  {
  }

  lemma SameConfig(w: World, i: Instr, n: World)
    requires w.config.Some? && n.config == w.config && !i.DoSetPaused?
    ensures ConfigAfter(w, i, n)
  {
  }

  lemma StepConfig(w: World, i: Instr)
    requires w.config.Some?
    ensures ConfigAfter(w, i, Step(w, i))
  {
    hide InitializeConfig, RegisterAgent, SetPaused, IssueAuthority, RevokeAuthority, ExpireAuthority, Pay, AtomicSplit, CreateEscrow, ReleaseEscrow, CancelEscrow,
      SlashBond, CreateOrg, JoinOrg, SetMemberShare, DepositToOrg, OrgSplit, DissolveOrg, ReclaimOrgResidual, CreateReceipt, AdvanceClock, OpenTokenAccount, OutsideTransfer;
    hide ConfigAfter;
    if i.DoInitializeConfig? {
      NotAgain(w, i.admin, i.mint);
      SameConfig(w, i, w);
    } else if i.DoSetPaused? {
      PauserConfig(w, i.pauser, i.paused);
    } else if !ChangesConfig(i) || !Accepted(w, i) {
      ConfigFrame(w, i);
      SameConfig(w, i, Step(w, i));
    } else {
      match i
      case DoIssue(c) => IssueConfig(w, c);
      case DoCreateEscrow(c) => LockConfig(w, c);
      case DoCreateOrg(c) => CreateOrgConfig(w, c);
      case DoReceipt(c) => ReceiptConfig(w, c);
    }
  }

  /** The flag after a run: what the admin last set it to, if it did. */
  function FlagAfter(w: World, trace: seq<Instr>): bool
    requires w.config.Some?
  {
    if trace == [] then w.config.value.paused
    else
      var i := trace[|trace| - 1];
      if i.DoSetPaused? && i.pauser == w.config.value.admin && i.pauser.Wallet? then i.paused else FlagAfter(w, trace[..|trace| - 1])
  }

  /** Over any run a configuration keeps its admin and its mint, and the pause flag is what the admin last set. */
  lemma {:induction false} ConfigFixed(w: World, trace: seq<Instr>)
    requires w.config.Some?
    ensures var n := Run(w, trace).config;
            n.Some? && n.value.admin == w.config.value.admin && n.value.mint == w.config.value.mint && n.value.paused == FlagAfter(w, trace)
  {
    hide Exec, Step;
    if trace != [] {
      ConfigFixed(w, trace[..|trace| - 1]);
      StepConfig(Run(w, trace[..|trace| - 1]), trace[|trace| - 1]);
    }
  }

  /** The first configuration is its caller's: it becomes the admin, with every counter at zero. */
  lemma ConfiguredBy(w: World, i: Instr)
    requires w.config.None? && Step(w, i).config.Some?
    ensures i.DoInitializeConfig? && i.admin.Wallet? && Step(w, i).config == Some(Config(i.admin, i.mint, 0, 0, 0, 0, false))
  {
    hide RegisterAgent, RevokeAuthority, ExpireAuthority, Pay, AtomicSplit, ReleaseEscrow, CancelEscrow, SlashBond, JoinOrg, SetMemberShare, DepositToOrg,
      OrgSplit, DissolveOrg, ReclaimOrgResidual, AdvanceClock, OpenTokenAccount, OutsideTransfer, NewAuthority, DebitGate, LockBond, NewReceipt;
    if !ChangesConfig(i) {
      ConfigFrame(w, i);
    }
  }

  // ---- the pause switch ----

  /** The instructions that the pause switch stops. */
  predicate Gated(i: Instr) {
    i.DoRegisterAgent? || i.DoIssue? || i.DoPay? || i.DoSplit? || i.DoCreateEscrow? || i.DoCreateOrg? || i.DoReceipt?
  }

  lemma PausedRefuses(w: World, i: Instr)
    requires Gated(i) && w.config.Some? && w.config.value.paused
    ensures !Accepted(w, i)
  {
    hide IssueAccounts, NewAuthority, LockBond, PayAccounts, SplitAccounts, EscrowAccounts, DebitGate, Commit, Transfer, SplitTotal, SplitTransfers, SplitCris,
      CreateOrgAccounts, ReceiptAccounts, NewReceipt, RegisterAccounts;
  }

  /** With the pause switch set one way or the other. */
  function Flagged(w: World, paused: bool): World
    requires w.config.Some?
  {
    w.(config := Some(w.config.value.(paused := paused)))
  }

  lemma SettlesPaused(w: World, i: Instr, paused: bool)
    requires w.config.Some? && (i.DoRelease? || i.DoCancel? || i.DoSlash?)
    ensures Accepted(Flagged(w, paused), i) <==> Accepted(w, i)
  {
    hide Transfer, ReleaseRefusal, Commitment, Settlement;
  }

  lemma JoinsPaused(w: World, c: JoinCall, paused: bool)
    requires w.config.Some?
    ensures JoinOrg(Flagged(w, paused), c).Ok? <==> JoinOrg(w, c).Ok?
  {
  }

  lemma SharesPaused(w: World, c: ShareCall, paused: bool)
    requires w.config.Some?
    ensures SetMemberShare(Flagged(w, paused), c).Ok? <==> SetMemberShare(w, c).Ok?
  {
  }

  lemma MovesPaused(w: World, i: Instr, paused: bool)
    requires w.config.Some? && (i.DoDeposit? || i.DoOrgSplit? || i.DoReclaim?)
    ensures Accepted(Flagged(w, paused), i) <==> Accepted(w, i)
  {
    hide Transfer, TokenGuard;
  }

  lemma DissolvesPaused(w: World, c: DissolveCall, paused: bool)
    requires w.config.Some?
    ensures DissolveOrg(Flagged(w, paused), c).Ok? <==> DissolveOrg(w, c).Ok?
  {
    hide PayOut, PayoutShare, TokenGuard;
  }

  lemma EndsPaused(w: World, i: Instr, paused: bool)
    requires w.config.Some? && (i.DoRevoke? || i.DoExpire?)
    ensures Accepted(Flagged(w, paused), i) <==> Accepted(w, i)
  {
    hide Revoke, ChildFits;
  }

  /** The pause switch stops exactly seven instructions: while it is on each of them is refused, and whether any
      other is accepted does not depend on it. */
  lemma PauseExact(w: World, i: Instr, paused: bool)
    requires w.config.Some?
    ensures Gated(i) && w.config.value.paused ==> !Accepted(w, i)
    ensures !Gated(i) ==> (Accepted(Flagged(w, paused), i) <==> Accepted(w, i))
  {
    hide RegisterAgent, IssueAuthority, RevokeAuthority, ExpireAuthority, Pay, AtomicSplit, CreateEscrow, ReleaseEscrow, CancelEscrow, SlashBond,
      CreateOrg, JoinOrg, SetMemberShare, DepositToOrg, OrgSplit, DissolveOrg, ReclaimOrgResidual, CreateReceipt;
    if Gated(i) && w.config.value.paused {
      PausedRefuses(w, i);
    }
    if i.DoRelease? || i.DoCancel? || i.DoSlash? {
      SettlesPaused(w, i, paused);
    } else if i.DoJoin? {
      JoinsPaused(w, i.join, paused);
    } else if i.DoSetShare? {
      SharesPaused(w, i.share, paused);
    } else if i.DoDeposit? || i.DoOrgSplit? || i.DoReclaim? {
      MovesPaused(w, i, paused);
    } else if i.DoDissolve? {
      DissolvesPaused(w, i.dissolve, paused);
    } else if i.DoRevoke? || i.DoExpire? {
      EndsPaused(w, i, paused);
    }
  }

  /** What only gated instructions change: the counters, the agents, what is spent, and which accounts there are. */
  ghost predicate Frozen(w: World, n: World) {
    && n.config == w.config && n.identities == w.identities && n.receipts == w.receipts
    && n.authorities.Keys == w.authorities.Keys && (forall id :: id in w.authorities ==> n.authorities[id].spent == w.authorities[id].spent)
    && n.escrows.Keys == w.escrows.Keys && n.orgs.Keys == w.orgs.Keys
  }

  lemma EndingFreezes(w: World, i: Instr)
    requires i.DoRevoke? || i.DoExpire?
    ensures Step(w, i).authorities.Keys == w.authorities.Keys
    ensures forall id :: id in w.authorities ==> Step(w, i).authorities[id].spent == w.authorities[id].spent
  {
    hide CascadeRefusal;
  }

  lemma SettlingFreezes(w: World, i: Instr)
    requires i.DoRelease? || i.DoCancel?
    ensures Step(w, i).escrows.Keys == w.escrows.Keys
  {
    hide ReleaseEscrow, CancelEscrow;
    if Accepted(w, i) {
      match i
      case DoRelease(c) => ReleaseEffect(w, c);
      case DoCancel(c) => CancelEffect(w, c);
    }
  }

  lemma UngatedFreezes(w: World, i: Instr)
    requires w.config.Some? && !Gated(i) && !(i.DoSetPaused? && i.pauser == w.config.value.admin && !i.paused) && w.config.value.paused
    ensures Frozen(w, Step(w, i))
  {
    hide InitializeConfig, RegisterAgent, SetPaused, IssueAuthority, RevokeAuthority, ExpireAuthority, Pay, AtomicSplit, CreateEscrow, ReleaseEscrow, CancelEscrow,
      SlashBond, CreateOrg, JoinOrg, SetMemberShare, DepositToOrg, OrgSplit, DissolveOrg, ReclaimOrgResidual, CreateReceipt, AdvanceClock, OpenTokenAccount, OutsideTransfer;
    if i.DoRevoke? || i.DoExpire? {
      EndingFreezes(w, i);
    } else {
      AuthoritiesFrame(w, i);
    }
    if i.DoRelease? || i.DoCancel? {
      SettlingFreezes(w, i);
    } else {
      EscrowsFrame(w, i);
    }
    forall id: U64
      ensures id in Step(w, i).orgs <==> id in w.orgs
    {
      SameOrgs(w, i, id);
    }
    IdentitiesFrame(w, i);
    ReceiptsFrame(w, i);
    ConfigStays(w, i);
  }

  lemma ConfigStays(w: World, i: Instr)
    requires w.config.Some? && !Gated(i) && !(i.DoSetPaused? && i.pauser == w.config.value.admin && !i.paused) && w.config.value.paused
    ensures Step(w, i).config == w.config
  {
    hide RegisterAgent, IssueAuthority, RevokeAuthority, ExpireAuthority, Pay, AtomicSplit, CreateEscrow, ReleaseEscrow, CancelEscrow, SlashBond,
      CreateOrg, JoinOrg, SetMemberShare, DepositToOrg, OrgSplit, DissolveOrg, ReclaimOrgResidual, CreateReceipt, AdvanceClock, OpenTokenAccount, OutsideTransfer;
    if !ChangesConfig(i) {
      ConfigFrame(w, i);
    }
  }

  /** While the program stays paused nothing is spent and no agent, authority, escrow, organization or receipt is
      added, however long the run. */
  lemma {:induction false} PauseFreezes(w: World, trace: seq<Instr>)
    requires w.config.Some? && w.config.value.paused
    requires forall i :: i in trace ==> !(i.DoSetPaused? && i.pauser == w.config.value.admin && !i.paused)
    ensures Frozen(w, Run(w, trace))
  {
    hide Exec, Step, Gated;
    if trace != [] {
      var mid, i := Run(w, trace[..|trace| - 1]), trace[|trace| - 1];
      PauseFreezes(w, trace[..|trace| - 1]);
      if Gated(i) {
        PausedRefuses(mid, i);
        Refused(mid, i);
      } else {
        UngatedFreezes(mid, i);
      }
    }
  }

  lemma Refused(w: World, i: Instr)
    requires !Accepted(w, i)
    ensures Step(w, i) == w
  {
    hide Exec;
  }

  // ---- wallets ----

  /** Over any run no token account of a wallet loses a token unless the wallet signs: no authority, escrow,
      bond or organization ever draws on it by itself. */
  lemma {:induction false} WalletSafe(w: World, trace: seq<Instr>, a: Address)
    requires a in w.tokens && w.tokens[a].owner.Wallet?
    requires forall i :: i in trace ==> SignerOf(i) != Some(w.tokens[a].owner)
    ensures var n := Run(w, trace).tokens;
            a in n && n[a].owner == w.tokens[a].owner && n[a].amount >= w.tokens[a].amount
  {
    hide Exec, Step, Supply;
    if trace != [] {
      var mid, i := Run(w, trace[..|trace| - 1]), trace[|trace| - 1];
      WalletSafe(w, trace[..|trace| - 1], a);
      StepTokens(mid, i);
      assert SignerOf(i) != Some(w.tokens[a].owner);
      assert OpenerOf(i) != Some(mid.tokens[a].owner);
    }
  }

  // ---- one mint ----

  lemma SpendsMint(w: World, i: Instr)
    requires Accepted(w, i) && (i.DoPay? || i.DoSplit? || i.DoCreateEscrow? || i.DoIssue?) && MintOf(i).Some?
    ensures MintOf(i) == Some(Counters(w).mint)
  {
    hide NewAuthority, LockBond, DebitGate, Commit, SplitTotal, SplitCris, CriGuard;
  }

  lemma SettlesMint(w: World, i: Instr)
    requires EscrowInv(w) && Accepted(w, i) && (i.DoRelease? || i.DoCancel? || i.DoSlash?)
    ensures MintOf(i) == Some(Counters(w).mint)
  {
    hide ReleaseRefusal, CriGuard, Commitment, Settlement;
    if i.DoRelease? {
      assert Held(w, i.release.escrowId);
    } else if i.DoCancel? {
      assert Held(w, i.cancel.escrowId);
    }
  }

  lemma TreasuryMintIs(w: World, org: U64)
    requires Treasury.Inv(w)
    ensures OrgTreasury(org) in w.tokens ==> w.tokens[OrgTreasury(org)].mint == Counters(w).mint
  {
    assert TreasuryOf(w, org);
  }

  lemma ManagesMint(w: World, i: Instr)
    requires Treasury.Inv(w) && Accepted(w, i) && (i.DoDeposit? || i.DoOrgSplit? || i.DoReclaim?)
    ensures MintOf(i) == Some(Counters(w).mint)
  {
    hide Treasury.Inv, OrgGuard, AdminGuard, MemberGuard;
    match i
    case DoDeposit(c) => TreasuryMintIs(w, c.orgId);
    case DoOrgSplit(c) => TreasuryMintIs(w, c.orgId);
    case DoReclaim(c) => TreasuryMintIs(w, c.orgId);
  }

  /** A dissolve does not look at the mint it is passed unless it pays something out. */
  lemma DissolveMint(w: World, c: DissolveCall)
    requires Treasury.Inv(w) && DissolveOrg(w, c).Ok?
    ensures c.mint == Counters(w).mint || DissolveOrg(w, c).value.tokens == w.tokens
  {
    hide Treasury.Inv, OrgGuard, AdminGuard, PayoutShare, TokenGuard;
    TreasuryMintIs(w, c.orgId);
  }

  lemma StepMint(w: World, i: Instr)
    requires EscrowInv(w) && Treasury.Inv(w) && Accepted(w, i) && !i.Outside? && MintOf(i).Some?
    ensures MintOf(i) == Some(Counters(w).mint) || Step(w, i).tokens == w.tokens
  {
    hide InitializeConfig, RegisterAgent, SetPaused, IssueAuthority, RevokeAuthority, ExpireAuthority, Pay, AtomicSplit, CreateEscrow, ReleaseEscrow, CancelEscrow,
      SlashBond, CreateOrg, JoinOrg, SetMemberShare, DepositToOrg, OrgSplit, DissolveOrg, ReclaimOrgResidual, CreateReceipt, AdvanceClock, OpenTokenAccount, OutsideTransfer;
    hide EscrowInv, Treasury.Inv;
    if i.DoPay? || i.DoSplit? || i.DoCreateEscrow? || i.DoIssue? {
      SpendsMint(w, i);
    } else if i.DoRelease? || i.DoCancel? || i.DoSlash? {
      SettlesMint(w, i);
    } else if i.DoDissolve? {
      DissolveMint(w, i.dissolve);
    } else {
      ManagesMint(w, i);
    }
  }

  /** In every reachable state no instruction of the program touches a token account of another mint than the
      configured one: whoever calls it, and whatever mint and accounts the call names. */
  lemma MintBinding(start: World, trace: seq<Instr>, i: Instr, a: Address)
    requires Init(start) && !i.Outside? && !i.OpenAccount?
    requires var w := Run(start, trace); a in w.tokens && w.tokens[a].mint != Counters(w).mint
    ensures var w := Run(start, trace); a in Step(w, i).tokens && Step(w, i).tokens[a] == w.tokens[a]
  {
    hide Exec, Step, Supply, EscrowInv, Treasury.Inv;
    var w := Run(start, trace);
    StartsReady(start);
    RunKeepsEscrows(start, trace);
    RunKeepsTreasury(start, trace);
    StepTokens(w, i);
    if Accepted(w, i) && MintOf(i).Some? {
      StepMint(w, i);
    } else if !Accepted(w, i) {
      Refused(w, i);
    }
  }
}
