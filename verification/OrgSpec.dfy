/** What the organization instructions do to the accounts. */
module OrgSpec {
  import opened Types
  import opened TokenLedger

  function OrgGuard(w: World, id: U64, status: OrgStatus, otherwise: Error): Option<Error> {
    if id !in w.orgs then Some(AnchorConstraint)
    else if w.orgs[id].orgId != id then Some(Unauthorized)
    else if w.orgs[id].status != status then Some(otherwise)
    else None
  }

  function AdminGuard(w: World, id: U64, admin: Pubkey): Option<Error> {
    var k := MemberKey(id, admin);
    if k !in w.members then Some(AnchorConstraint)
    else if w.members[k].agent != admin || w.members[k].role != Admin then Some(Unauthorized)
    else None
  }

  function MemberGuard(w: World, id: U64, agent: Pubkey, mismatch: Error): Option<Error> {
    var k := MemberKey(id, agent);
    if k !in w.members then Some(AnchorConstraint)
    else if w.members[k].agent != agent then Some(mismatch)
    else if w.members[k].orgId != id then Some(Unauthorized)
    else None
  }

  function IdentityGuard(w: World, agent: Pubkey): Option<Error> {
    if agent !in w.identities then Some(AnchorConstraint)
    else if w.identities[agent].agent != agent then Some(Unauthorized)
    else if !w.identities[agent].active then Some(AgentNotActive)
    else None
  }

  function TreasuryMint(w: World, id: U64): Option<Bytes32> {
    if OrgTreasury(id) in w.tokens then Some(w.tokens[OrgTreasury(id)].mint) else None
  }

  // ---- create_org ----

  datatype CreateOrgCall = CreateOrgCall(creator: Pubkey, orgId: U64, nameHash: Bytes32, creatorShareBps: U16, mint: Bytes32)

  function CreateOrgAccounts(w: World, c: CreateOrgCall): Option<Error> {
    if !c.creator.Wallet? then Some(MissingSignature)
    else if w.config.None? then Some(AnchorConstraint)
    else Either(IdentityGuard(w, c.creator),
      if c.orgId in w.orgs || OrgTreasury(c.orgId) in w.tokens || MemberKey(c.orgId, c.creator) in w.members then Some(AnchorConstraint)
      else if c.mint != w.config.value.mint then Some(InvalidMint) else None)
  }

  /** A creator who asks for no share gets all of it. */
  function CreatorShare(asked: U16): U16 {
    if asked == 0 then FULL_SHARE else asked
  }

  function CreateOrg(w: World, c: CreateOrgCall): (r: Result<World>)
    ensures r.Ok? ==> r.value == w.(tokens := r.value.tokens, orgs := r.value.orgs, members := r.value.members, config := r.value.config)
  {
    match CreateOrgAccounts(w, c)
    case Some(e) => Err(e)
    case None =>
      var cfg := w.config.value;
      if cfg.paused then Err(Paused)
      else if c.creatorShareBps > FULL_SHARE then Err(InvalidShareBps)
      else if cfg.orgCounter + 1 >= U64_END then Err(Overflow)
      else if c.orgId != cfg.orgCounter + 1 then Err(Unauthorized)
      else
        var share := CreatorShare(c.creatorShareBps);
        Ok(w.(
          tokens := w.tokens[OrgTreasury(c.orgId) := TokenAccount(OrgPda(c.orgId), c.mint, 0)],
          orgs := w.orgs[c.orgId := Org(c.orgId, c.nameHash, c.creator, 1, share, OrgActive, w.slot)],
          members := w.members[MemberKey(c.orgId, c.creator) := OrgMember(c.orgId, c.creator, Admin, share)],
          config := Some(cfg.(orgCounter := c.orgId))))
  }

  // ---- join_org ----

  datatype JoinCall = JoinCall(admin: Pubkey, newAgent: Pubkey, orgId: U64, role: Role, shareBps: U16)

  function JoinAccounts(w: World, c: JoinCall): Option<Error> {
    if !c.admin.Wallet? then Some(MissingSignature)
    else Either(OrgGuard(w, c.orgId, OrgActive, OrgNotActive), Either(AdminGuard(w, c.orgId, c.admin),
      Either(IdentityGuard(w, c.newAgent),
        if MemberKey(c.orgId, c.newAgent) in w.members then Some(AnchorConstraint) else None)))
  }

  function JoinOrg(w: World, c: JoinCall): (r: Result<World>)
    ensures r.Ok? ==> r.value == w.(orgs := r.value.orgs, members := r.value.members)
  {
    match JoinAccounts(w, c)
    case Some(e) => Err(e)
    case None =>
      var org := w.orgs[c.orgId];
      if c.role == NoRole then Err(Unauthorized)
      else if c.shareBps > FULL_SHARE then Err(InvalidShareBps)
      else if org.totalShareBps + c.shareBps >= 0x1_0000 then Err(Overflow)
      else if org.totalShareBps + c.shareBps > FULL_SHARE then Err(ShareBpsExceedsMax)
      else if org.memberCount + 1 >= 0x1_0000 then Err(Overflow)
      else Ok(w.(
        orgs := w.orgs[c.orgId := org.(totalShareBps := org.totalShareBps + c.shareBps, memberCount := org.memberCount + 1)],
        members := w.members[MemberKey(c.orgId, c.newAgent) := OrgMember(c.orgId, c.newAgent, c.role, c.shareBps)]))
  }

  // ---- set_member_share ----

  datatype ShareCall = ShareCall(admin: Pubkey, target: Pubkey, orgId: U64, newShareBps: U16)

  function ShareAccounts(w: World, c: ShareCall): Option<Error> {
    if !c.admin.Wallet? then Some(MissingSignature)
    else Either(OrgGuard(w, c.orgId, OrgActive, OrgNotActive),
      Either(AdminGuard(w, c.orgId, c.admin), MemberGuard(w, c.orgId, c.target, AnchorConstraint)))
  }

  function SetMemberShare(w: World, c: ShareCall): (r: Result<World>)
    ensures r.Ok? ==> r.value == w.(orgs := r.value.orgs, members := r.value.members)
  {
    match ShareAccounts(w, c)
    case Some(e) => Err(e)
    case None =>
      var org := w.orgs[c.orgId];
      var k := MemberKey(c.orgId, c.target);
      var before := w.members[k].shareBps;
      if c.newShareBps > FULL_SHARE then Err(InvalidShareBps)
      else if org.totalShareBps < before then Err(Overflow)
      else if org.totalShareBps - before + c.newShareBps >= 0x1_0000 then Err(Overflow)
      else if org.totalShareBps - before + c.newShareBps > FULL_SHARE then Err(ShareBpsExceedsMax)
      else Ok(w.(
        orgs := w.orgs[c.orgId := org.(totalShareBps := org.totalShareBps - before + c.newShareBps)],
        members := w.members[k := w.members[k].(shareBps := c.newShareBps)]))
  }

  // ---- deposit_to_org ----

  datatype DepositCall = DepositCall(member: Pubkey, orgId: U64, memberToken: Address, mint: Bytes32, amount: U64, accept: bool)

  function DepositAccounts(w: World, c: DepositCall): Option<Error> {
    if !c.member.Wallet? then Some(MissingSignature)
    else Either(OrgGuard(w, c.orgId, OrgActive, OrgNotActive), Either(MemberGuard(w, c.orgId, c.member, Unauthorized),
      match TreasuryMint(w, c.orgId)
      case None => Some(AnchorConstraint)
      case Some(mint) => TokenGuard(w.tokens, c.memberToken, c.member, mint)))
  }

  function DepositToOrg(w: World, c: DepositCall): (r: Result<World>)
    ensures r.Ok? ==> r.value == w.(tokens := r.value.tokens)
  {
    match DepositAccounts(w, c)
    case Some(e) => Err(e)
    case None =>
      if c.amount == 0 then Err(InvalidAmount)
      else if Some(c.mint) != TreasuryMint(w, c.orgId) then Err(InvalidMint)
      else match Transfer(w.tokens, c.memberToken, OrgTreasury(c.orgId), c.mint, c.member, c.amount, c.accept)
        case Err(e) => Err(e)
        case Ok(tokens) => Ok(w.(tokens := tokens))
  }

  // ---- org_split ----

  datatype OrgSplitCall = OrgSplitCall(admin: Pubkey, recipient: Pubkey, orgId: U64, recipientToken: Address, mint: Bytes32, amounts: seq<U64>, accept: bool)

  function OrgSplitAccounts(w: World, c: OrgSplitCall): Option<Error> {
    if !c.admin.Wallet? then Some(MissingSignature)
    else Either(OrgGuard(w, c.orgId, OrgActive, OrgNotActive), Either(AdminGuard(w, c.orgId, c.admin),
      Either(MemberGuard(w, c.orgId, c.recipient, AnchorConstraint),
        match TreasuryMint(w, c.orgId)
        case None => Some(AnchorConstraint)
        case Some(mint) =>
          if MemberKey(c.orgId, c.recipient) in w.members && w.members[MemberKey(c.orgId, c.recipient)].role == Viewer
          then Some(Unauthorized)
          else TokenGuard(w.tokens, c.recipientToken, c.recipient, mint))))
  }

  function OrgSplit(w: World, c: OrgSplitCall): (r: Result<World>)
    ensures r.Ok? ==> r.value == w.(tokens := r.value.tokens)
  {
    match OrgSplitAccounts(w, c)
    case Some(e) => Err(e)
    case None =>
      var treasury := OrgTreasury(c.orgId);
      if |c.amounts| != 1 then Err(InvalidRemainingAccounts)
      else if c.amounts[0] == 0 then Err(InvalidAmount)
      else if c.amounts[0] > w.tokens[treasury].amount then Err(TreasuryConservation)
      else match Transfer(w.tokens, treasury, c.recipientToken, c.mint, OrgPda(c.orgId), c.amounts[0], c.accept)
        case Err(e) => Err(e)
        case Ok(tokens) => Ok(w.(tokens := tokens))
  }

  // ---- dissolve_org ----

  datatype DissolveCall = DissolveCall(
    admin: Pubkey, orgId: U64, adminToken: Address, memberB: Option<MemberKey>, tokenB: Option<Address>,
    mint: Bytes32, acceptA: bool, acceptB: bool)

  /** The floor of `balance * bps / 10000`, truncated to 64 bits as the cast does. */
  function PayoutShare(balance: U64, bps: U16): U64 {
    if bps == 0 then 0 else (balance * bps / 10_000) % U64_END
  }

  function DissolveAccounts(w: World, c: DissolveCall): Option<Error> {
    if !c.admin.Wallet? then Some(MissingSignature)
    else Either(OrgGuard(w, c.orgId, OrgActive, OrgNotActive), Either(AdminGuard(w, c.orgId, c.admin),
      match TreasuryMint(w, c.orgId)
      case None => Some(AnchorConstraint)
      case Some(mint) => Either(TokenGuard(w.tokens, c.adminToken, c.admin, mint),
        if (c.memberB.Some? && c.memberB.value !in w.members) || (c.tokenB.Some? && c.tokenB.value !in w.tokens)
        then Some(AnchorConstraint) else None)))
  }

  /** A payout of nothing makes no transfer. */
  function PayOut(t: Tokens, org: U64, to: Address, mint: Bytes32, amount: U64, accept: bool): Result<Tokens> {
    if amount == 0 then Ok(t) else Transfer(t, OrgTreasury(org), to, mint, OrgPda(org), amount, accept)
  }

  /** The second member's payout; 0 unless both of its accounts are passed. */
  function SecondPayout(w: World, c: DissolveCall, balance: U64): Result<U64>
    requires DissolveAccounts(w, c).None?
  {
    if c.memberB.None? || c.tokenB.None? then Ok(0)
    else
      var b := w.members[c.memberB.value];
      if b.orgId != c.orgId || w.tokens[c.tokenB.value].owner != b.agent then Err(Unauthorized)
      else if Some(w.tokens[c.tokenB.value].mint) != TreasuryMint(w, c.orgId) then Err(InvalidMint)
      else Ok(PayoutShare(balance, b.shareBps))
  }

  function AdminPayout(w: World, c: DissolveCall): U64
    requires MemberKey(c.orgId, c.admin) in w.members && OrgTreasury(c.orgId) in w.tokens
  {
    PayoutShare(w.tokens[OrgTreasury(c.orgId)].amount, w.members[MemberKey(c.orgId, c.admin)].shareBps)
  }

  function DissolveOrg(w: World, c: DissolveCall): (r: Result<World>)
    ensures r.Ok? ==> r.value == w.(tokens := r.value.tokens, orgs := r.value.orgs)
  {
    match DissolveAccounts(w, c)
    case Some(e) => Err(e)
    case None =>
      var balance := w.tokens[OrgTreasury(c.orgId)].amount;
      var first := AdminPayout(w, c);
      match PayOut(w.tokens, c.orgId, c.adminToken, c.mint, first, c.acceptA)
      case Err(e) => Err(e)
      case Ok(t1) =>
        match SecondPayout(w, c, balance)
        case Err(e) => Err(e)
        case Ok(second) =>
          match PayOut(t1, c.orgId, if c.tokenB.Some? then c.tokenB.value else c.adminToken, c.mint, second, c.acceptB)
          case Err(e) => Err(e)
          case Ok(t2) =>
            if first + second >= U64_END then Err(Overflow)
            else if first + second > balance then Err(TreasuryConservation)
            else Ok(w.(tokens := t2, orgs := w.orgs[c.orgId := w.orgs[c.orgId].(status := OrgClosed)]))
  }

  // ---- reclaim_org_residual ----

  datatype ReclaimCall = ReclaimCall(authority: Pubkey, orgId: U64, destination: Address, mint: Bytes32, accept: bool)

  function ReclaimAccounts(w: World, c: ReclaimCall): Option<Error> {
    if !c.authority.Wallet? then Some(MissingSignature)
    else Either(OrgGuard(w, c.orgId, OrgClosed, OrgNotClosed), Either(MemberGuard(w, c.orgId, c.authority, Unauthorized),
      match TreasuryMint(w, c.orgId)
      case None => Some(AnchorConstraint)
      case Some(mint) =>
        if c.destination !in w.tokens then Some(AnchorConstraint)
        else if w.tokens[c.destination].mint != mint then Some(InvalidMint) else None))
  }

  function ReclaimOrgResidual(w: World, c: ReclaimCall): (r: Result<World>)
    ensures r.Ok? ==> r.value == w.(tokens := r.value.tokens)
  {
    match ReclaimAccounts(w, c)
    case Some(e) => Err(e)
    case None =>
      var amount := w.tokens[OrgTreasury(c.orgId)].amount;
      if c.authority != w.orgs[c.orgId].creator && w.members[MemberKey(c.orgId, c.authority)].role != Admin then Err(Unauthorized)
      else if amount == 0 then Err(InvalidAmount)
      else match Transfer(w.tokens, OrgTreasury(c.orgId), c.destination, c.mint, OrgPda(c.orgId), amount, c.accept)
        case Err(e) => Err(e)
        case Ok(tokens) => Ok(w.(tokens := tokens))
  }
}
