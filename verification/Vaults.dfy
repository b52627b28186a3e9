/** Escrow vaults: an exact account of what each holds. */
module Vaults {
  import opened Types
  import opened TokenLedger
  import opened AuthoritySpec
  import opened SpendSpec
  import opened EscrowSpec
  import opened OrgSpec
  import opened ReceiptSpec
  import opened AgentSpec
  import opened Machine
  import opened Frames
  import opened Keys
  import opened Orgs
  import opened Escrows
  import opened Accounts

  /** Vaults exist for escrows alone, and besides the accounts and members are what they should be. */
  ghost predicate VaultInv(w: World) {
    EscrowInv(w) && KeyInv(w) && MembersKeyed(w) && forall id: U64 :: EscrowVault(id) in w.tokens ==> id in w.escrows
  }

  /** So a vault is one of the accounts whose books are exact. */
  lemma InvApart(w: World, id: U64)
    requires VaultInv(w)
    ensures Apart(w) && ProgramOwned(w.tokens, EscrowVault(id)) && EscrowInv(w) && (EscrowVault(id) in w.tokens <==> id in w.escrows)
  {
    if id in w.escrows {
      assert Held(w, id);
    }
  }

  /** What is locked for an escrow: its amount, as long as it is Open. */
  function LockedFor(w: World, id: U64): nat {
    if id in w.escrows && w.escrows[id].status == Open then w.escrows[id].amount else 0
  }

  /** What comes into a vault without anybody being owed it. */
  function Gift(w: World, i: Instr, id: U64): nat {
    if i.DoCreateEscrow? then 0 else In(w, i, EscrowVault(id))
  }

  predicate Locks(i: Instr, id: U64) {
    i.DoCreateEscrow? && i.lock.escrowId == id
  }

  /** A step changes what a vault holds by what it changes about what is locked for its escrow, and by gifts. */
  lemma StepKeepsAccount(w: World, i: Instr, id: U64)
    requires VaultInv(w)
    ensures Balance(Step(w, i).tokens, EscrowVault(id)) + LockedFor(w, id)
            == Balance(w.tokens, EscrowVault(id)) + LockedFor(Step(w, i), id) + Gift(w, i, id)
  {
    hide Exec, Step, Apart, VaultInv, EscrowInv, ProgramOwned, In, Out, Opens;
    InvApart(w, id);
    StepBooks(w, i, EscrowVault(id));
    if Locks(i, id) && Accepted(w, i) {
      LockedNow(w, i, id);
    } else {
      NoLock(w, i, id);
      SettlesOut(w, i, id);
      if id in w.escrows {
        EscrowEvolves(w, i, id);
      } else {
        NotLocked(w, i, id);
      }
    }
  }

  lemma NoLock(w: World, i: Instr, id: U64)
    requires !(Locks(i, id) && Accepted(w, i))
    ensures Gift(w, i, id) == In(w, i, EscrowVault(id))
  {
    hide Exec;
  }

  /** Only settling its escrow takes anything out of a vault. */
  lemma SettlesOut(w: World, i: Instr, id: U64)
    requires VaultInv(w)
    ensures Out(w, i, EscrowVault(id)) == if Settles(w, i, id) && id in w.escrows then w.escrows[id].amount else 0
  {
    hide InitializeConfig, RegisterAgent, SetPaused, IssueAuthority, RevokeAuthority, ExpireAuthority, Pay, AtomicSplit, CreateEscrow, ReleaseEscrow, CancelEscrow,
      SlashBond, CreateOrg, JoinOrg, SetMemberShare, DepositToOrg, OrgSplit, DissolveOrg, ReclaimOrgResidual, CreateReceipt, AdvanceClock, OpenTokenAccount, OutsideTransfer;
    hide VaultInv, DissolvePays;
    if Accepted(w, i) && i.DoSlash? {
      NoSlash(w, i.slash, id);
    }
  }

  lemma NoSlash(w: World, c: SlashCall, id: U64)
    requires VaultInv(w) && SlashBond(w, c).Ok?
    ensures c.bondVault != EscrowVault(id)
  {
    hide Transfer;
    if id in w.escrows {
      assert Held(w, id);
    }
  }

  lemma LockedNow(w: World, i: Instr, id: U64)
    requires EscrowInv(w) && Accepted(w, i) && Locks(i, id)
    ensures id !in w.escrows && LockedFor(Step(w, i), id) == In(w, i, EscrowVault(id))
    ensures Out(w, i, EscrowVault(id)) == 0 && Gift(w, i, id) == 0
  {
    hide InitializeConfig, RegisterAgent, SetPaused, IssueAuthority, RevokeAuthority, ExpireAuthority, Pay, AtomicSplit, CreateEscrow, ReleaseEscrow, CancelEscrow,
      SlashBond, CreateOrg, JoinOrg, SetMemberShare, DepositToOrg, OrgSplit, DissolveOrg, ReclaimOrgResidual, CreateReceipt, AdvanceClock, OpenTokenAccount, OutsideTransfer;
    CreateEffect(w, i.lock);
  }

  lemma NotLocked(w: World, i: Instr, id: U64)
    requires id !in w.escrows && !(Locks(i, id) && Accepted(w, i))
    ensures id !in Step(w, i).escrows
  {
    hide InitializeConfig, RegisterAgent, SetPaused, IssueAuthority, RevokeAuthority, ExpireAuthority, Pay, AtomicSplit, CreateEscrow, ReleaseEscrow, CancelEscrow,
      SlashBond, CreateOrg, JoinOrg, SetMemberShare, DepositToOrg, OrgSplit, DissolveOrg, ReclaimOrgResidual, CreateReceipt, AdvanceClock, OpenTokenAccount, OutsideTransfer;
    if !ChangesEscrows(i) {
      EscrowsFrame(w, i);
    } else if Accepted(w, i) {
      match i
      case DoCreateEscrow(c) => CreateEffect(w, c);
      case DoRelease(c) => ReleaseEffect(w, c);
      case DoCancel(c) => CancelEffect(w, c);
    }
  }

  // ---- whole runs ----

  lemma StartsReady(start: World)
    requires Init(start)
    ensures EscrowInv(start) && KeyInv(start)
  {
  }

  lemma {:induction false} RunKeepsVaults(start: World, trace: seq<Instr>)
    requires Init(start)
    ensures VaultInv(Run(start, trace))
  {
    StartsReady(start);
    hide Exec, Step, EscrowInv, KeyInv, MembersKeyed, Balanced;
    RunKeepsEscrows(start, trace);
    SharesBalance(start, trace);
    if trace != [] {
      var mid, i := Run(start, trace[..|trace| - 1]), trace[|trace| - 1];
      RunKeepsVaults(start, trace[..|trace| - 1]);
      forall id: U64 | EscrowVault(id) in Step(mid, i).tokens
        ensures id in Step(mid, i).escrows
      {
        StaysEscrow(mid, i, id);
      }
    }
  }

  lemma StaysEscrow(w: World, i: Instr, id: U64)
    requires VaultInv(w) && EscrowVault(id) in Step(w, i).tokens
    ensures id in Step(w, i).escrows
  {
    hide Exec, Step, Apart, VaultInv, EscrowInv, ProgramOwned, In, Out;
    InvApart(w, id);
    StepBooks(w, i, EscrowVault(id));
    if id in w.escrows {
      EscrowEvolves(w, i, id);
    } else {
      LocksEscrow(w, i, id);
    }
  }

  lemma LocksEscrow(w: World, i: Instr, id: U64)
    requires Accepted(w, i) && Opens(i, EscrowVault(id))
    ensures id in Step(w, i).escrows
  {
    hide InitializeConfig, RegisterAgent, SetPaused, IssueAuthority, RevokeAuthority, ExpireAuthority, Pay, AtomicSplit, CreateEscrow, ReleaseEscrow, CancelEscrow,
      SlashBond, CreateOrg, JoinOrg, SetMemberShare, DepositToOrg, OrgSplit, DissolveOrg, ReclaimOrgResidual, CreateReceipt, AdvanceClock, OutsideTransfer;
    if i.DoCreateEscrow? {
      CreateEffect(w, i.lock);
    }
  }

  function GiftTotal(w: World, trace: seq<Instr>, id: U64): nat {
    if trace == [] then 0
    else GiftTotal(w, trace[..|trace| - 1], id) + Gift(Run(w, trace[..|trace| - 1]), trace[|trace| - 1], id)
  }

  /** Over any run a vault holds exactly its escrow's amount while that is Open, nothing of it once it is
      settled, and whatever was given to it besides. */
  lemma {:induction false} VaultAccount(start: World, trace: seq<Instr>, id: U64)
    requires Init(start)
    ensures var w := Run(start, trace);
            Balance(w.tokens, EscrowVault(id)) == LockedFor(w, id) + GiftTotal(start, trace, id)
  {
    hide Exec, Step, Gift, VaultInv;
    if trace == [] {
      assert EscrowVault(id) !in start.tokens;
    } else {
      VaultAccount(start, trace[..|trace| - 1], id);
      RunKeepsVaults(start, trace[..|trace| - 1]);
      StepKeepsAccount(Run(start, trace[..|trace| - 1]), trace[|trace| - 1], id);
    }
  }
}
