/** The state machine: one instruction, all or nothing, and runs of them. */
module Machine {
  import opened Types
  import opened AuthoritySpec
  import opened SpendSpec
  import opened EscrowSpec
  import opened OrgSpec
  import opened ReceiptSpec
  import opened AgentSpec

  datatype Instr =
    | DoInitializeConfig(admin: Pubkey, mint: Bytes32)
    | DoRegisterAgent(agent: Pubkey)
    | DoSetPaused(pauser: Pubkey, paused: bool)
    | DoIssue(issue: IssueCall)
    | DoRevoke(revoke: RevokeCall)
    | DoExpire(expire: ExpireCall)
    | DoPay(pay: PayCall)
    | DoSplit(split: SplitCall)
    | DoCreateEscrow(lock: EscrowCall)
    | DoRelease(release: ReleaseCall)
    | DoCancel(cancel: CancelCall)
    | DoSlash(slash: SlashCall)
    | DoCreateOrg(create: CreateOrgCall)
    | DoJoin(join: JoinCall)
    | DoSetShare(share: ShareCall)
    | DoDeposit(deposit: DepositCall)
    | DoOrgSplit(orgSplit: OrgSplitCall)
    | DoDissolve(dissolve: DissolveCall)
    | DoReclaim(reclaim: ReclaimCall)
    | DoReceipt(receipt: ReceiptCall)
    | Clock(to: U64)
    | OpenAccount(at: Address, owner: Pubkey, mint: Bytes32)
    | Outside(from: Address, dest: Address, mint: Bytes32, signer: Pubkey, amount: U64)

  function Exec(w: World, i: Instr): Result<World> {
    match i
    case DoInitializeConfig(admin, mint) => InitializeConfig(w, admin, mint)
    case DoRegisterAgent(agent) => RegisterAgent(w, agent)
    case DoSetPaused(admin, paused) => SetPaused(w, admin, paused)
    case DoIssue(c) => IssueAuthority(w, c)
    case DoRevoke(c) => RevokeAuthority(w, c)
    case DoExpire(c) => ExpireAuthority(w, c)
    case DoPay(c) => Pay(w, c)
    case DoSplit(c) => AtomicSplit(w, c)
    case DoCreateEscrow(c) => CreateEscrow(w, c)
    case DoRelease(c) => ReleaseEscrow(w, c)
    case DoCancel(c) => CancelEscrow(w, c)
    case DoSlash(c) => SlashBond(w, c)
    case DoCreateOrg(c) => CreateOrg(w, c)
    case DoJoin(c) => JoinOrg(w, c)
    case DoSetShare(c) => SetMemberShare(w, c)
    case DoDeposit(c) => DepositToOrg(w, c)
    case DoOrgSplit(c) => OrgSplit(w, c)
    case DoDissolve(c) => DissolveOrg(w, c)
    case DoReclaim(c) => ReclaimOrgResidual(w, c)
    case DoReceipt(c) => CreateReceipt(w, c)
    case Clock(to) => AdvanceClock(w, to)
    case OpenAccount(at, owner, mint) => OpenTokenAccount(w, at, owner, mint)
    case Outside(from, to, mint, signer, amount) => OutsideTransfer(w, from, to, mint, signer, amount)
  }

  /** The key whose signature an instruction carries. */
  function SignerOf(i: Instr): Option<Pubkey> {
    match i
    case DoInitializeConfig(admin, _) => Some(admin)
    case DoRegisterAgent(agent) => Some(agent)
    case DoSetPaused(admin, _) => Some(admin)
    case DoIssue(c) => Some(c.agent)
    case DoRevoke(c) => Some(c.agent)
    case DoExpire(c) => Some(c.agent)
    case DoPay(c) => Some(c.payer)
    case DoSplit(c) => Some(c.payer)
    case DoCreateEscrow(c) => Some(c.payer)
    case DoRelease(c) => Some(c.releaser)
    case DoCancel(c) => Some(c.canceller)
    case DoSlash(c) => Some(c.slasher)
    case DoCreateOrg(c) => Some(c.creator)
    case DoJoin(c) => Some(c.admin)
    case DoSetShare(c) => Some(c.admin)
    case DoDeposit(c) => Some(c.member)
    case DoOrgSplit(c) => Some(c.admin)
    case DoDissolve(c) => Some(c.admin)
    case DoReclaim(c) => Some(c.authority)
    case DoReceipt(c) => Some(c.actor)
    case Clock(_) => None
    case OpenAccount(_, _, _) => None
    case Outside(_, _, _, signer, _) => Some(signer)
  }

  predicate Accepted(w: World, i: Instr) {
    Exec(w, i).Ok?
  }

  /** A failed transaction leaves no trace. */
  function Step(w: World, i: Instr): World {
    match Exec(w, i)
    case Ok(next) => next
    case Err(_) => w
  }

  function Run(w: World, trace: seq<Instr>): World {
    if trace == [] then w else Step(Run(w, trace[..|trace| - 1]), trace[|trace| - 1])
  }

  /** Before the program is configured: no accounts of its own, and no token account at an address it derives. */
  ghost predicate Init(w: World) {
    && w.config == None && w.identities == map[] && w.cris == map[] && w.authorities == map[] && w.bonds == map[]
    && w.escrows == map[] && w.orgs == map[] && w.members == map[] && w.receipts == map[]
    && (forall a | a in w.tokens :: a.Plain? || a == Ata(w.tokens[a].owner, w.tokens[a].mint))
  }
}
