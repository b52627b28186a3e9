/** What issuing, revoking, expiring and debiting an authority does to the accounts. */
module AuthoritySpec {
  import opened Types
  import opened TokenLedger

  // ---- state.rs queries ----

  /** An authority without categories allows all of them. */
  predicate CategoryAllowed(a: Authority, category: Bytes16) {
    a.categories == [] || category in a.categories
  }

  predicate Dead(a: Authority) {
    a.status != Active
  }

  // ---- issue_authority ----

  datatype IssueCall = IssueCall(
    agent: Pubkey, authorityId: U64, budget: U64, maxPerTx: U64, maxTotal: U64,
    categories: seq<Bytes16>, parentId: U64, parentAcc: Option<U64>, expirySlot: U64, bondAmount: U64,
    bondAcc: bool, agentVault: Option<Address>, bondVault: Option<Address>, mintAcc: Option<Bytes32>,
    tokenProgram: bool, ataProgram: bool, accept: bool)

  function IssueAccounts(w: World, c: IssueCall): Option<Error> {
    if !c.agent.Wallet? then Some(MissingSignature)
    else if w.config.None? || c.agent !in w.identities then Some(AnchorConstraint)
    else if w.identities[c.agent].agent != c.agent then Some(Unauthorized)
    else if !w.identities[c.agent].active then Some(AgentNotActive)
    else if c.parentAcc.Some? && c.parentAcc.value !in w.authorities then Some(AnchorConstraint)
    else if c.authorityId in w.authorities then Some(AnchorConstraint)
    else if c.bondAcc && c.authorityId in w.bonds then Some(AnchorConstraint)
    else
      var mint := w.config.value.mint;
      var bondOwner := if c.bondAcc then BondPda(c.authorityId) else Wallet(0);
      Either(
        if c.agentVault.Some? then TokenGuard(w.tokens, c.agentVault.value, c.agent, mint) else None,
        Either(
          if c.bondVault.Some? then TokenGuard(w.tokens, c.bondVault.value, bondOwner, mint) else None,
          if c.mintAcc.Some? && c.mintAcc.value != mint then Some(InvalidMint) else None))
  }

  /** The requested categories the parent accepts too, in the order of the request. */
  function Common(request: seq<Bytes16>, parent: seq<Bytes16>): (r: seq<Bytes16>)
    ensures |r| <= |request|
  {
    if request == [] then []
    else
      var rest := Common(request[..|request| - 1], parent);
      if request[|request| - 1] in parent then rest + [request[|request| - 1]] else rest
  }

  function Narrow(request: Categories, parent: Categories): Categories {
    if parent == [] then request
    else if request == [] then parent
    else Common(request, parent)
  }

  function Min(a: U64, b: U64): U64 {
    if a < b then a else b
  }

  /** The record a new authority gets, before any bond is locked. */
  function NewAuthority(w: World, c: IssueCall): Result<Authority>
    requires |c.categories| <= MAX_CATEGORIES
  {
    var root := Authority(
      c.authorityId, c.agent, c.parentId, 0, c.budget, 0, c.maxPerTx, Min(c.maxTotal, c.budget),
      c.categories, [], 0, c.expirySlot, Active, c.bondAmount);
    if c.parentId == 0 then (if c.parentAcc.Some? then Err(Unauthorized) else Ok(root))
    else if c.parentAcc.None? then Err(ParentRequired)
    else if c.parentAcc.value !in w.authorities then Err(AnchorConstraint)
    else
      var parent := w.authorities[c.parentAcc.value];
      if parent.authorityId != c.parentId then Err(ParentIdMismatch)
      else if parent.status != Active then Err(ParentNotActive)
      else if parent.agent != c.agent then Err(Unauthorized)
      else if parent.depth + 1 >= 0x100 || parent.depth + 1 > MAX_AUTHORITY_DEPTH then Err(MaxDelegationDepth)
      else if parent.budget < parent.spent then Err(Overflow)
      else if c.budget > parent.budget - parent.spent then Err(ChildBudgetExceedsParent)
      else
        var narrowed := Narrow(c.categories, parent.categories);
        if parent.categories != [] && narrowed == [] && c.categories != [] then Err(EmptyCategoryIntersection)
        else Ok(root.(
          depth := parent.depth + 1,
          maxPerTx := Min(c.maxPerTx, parent.maxPerTx),
          maxTotal := Min(Min(c.maxTotal, parent.maxTotal), c.budget),
          categories := narrowed))
  }

  /** Locks the bond, or insists that no bond account was passed. */
  function LockBond(w: World, c: IssueCall): (r: Result<World>)
    ensures r.Ok? ==> r.value == w.(bonds := r.value.bonds, tokens := r.value.tokens)
  {
    if c.bondAmount == 0 then
      if c.bondAcc || c.agentVault.Some? || c.bondVault.Some? || c.mintAcc.Some? || c.tokenProgram || c.ataProgram
      then Err(Unauthorized) else Ok(w)
    else if !c.bondAcc || c.agentVault.None? || c.bondVault.None? then Err(InsufficientBond)
    else if c.mintAcc.None? || !c.tokenProgram || !c.ataProgram then Err(InvalidMint)
    else if c.bondVault.value != Ata(BondPda(c.authorityId), c.mintAcc.value) then Err(Unauthorized)
    else match Transfer(w.tokens, c.agentVault.value, c.bondVault.value, c.mintAcc.value, c.agent, c.bondAmount, c.accept)
      case Err(e) => Err(e)
      case Ok(tokens) => Ok(w.(
        bonds := w.bonds[c.authorityId := Bond(c.authorityId, c.agent, c.bondAmount, BondActive)],
        tokens := tokens))
  }

  function IssueAuthority(w: World, c: IssueCall): (r: Result<World>)
    ensures r.Ok? ==> r.value == w.(config := r.value.config, authorities := r.value.authorities, bonds := r.value.bonds, tokens := r.value.tokens)
  {
    match IssueAccounts(w, c)
    case Some(e) => Err(e)
    case None =>
      var cfg := w.config.value;
      if cfg.paused then Err(Paused)
      else if c.budget == 0 then Err(InvalidBudget)
      else if |c.categories| > MAX_CATEGORIES then Err(InvalidCategoryCount)
      else if cfg.authorityCounter + 1 >= U64_END then Err(Overflow)
      else if c.authorityId != cfg.authorityCounter + 1 then Err(Unauthorized)
      else match NewAuthority(w, c)
        case Err(e) => Err(e)
        case Ok(record) => LockBond(w.(
          config := Some(cfg.(authorityCounter := c.authorityId)),
          authorities := w.authorities[c.authorityId := record]), c)
  }

  // ---- revoke_authority ----

  /** One remaining account of a cascade: the authority it holds, and whether it is writable. */
  datatype ChildMeta = ChildMeta(id: U64, writable: bool)
  datatype RevokeCall = RevokeCall(agent: Pubkey, authorityId: U64, children: seq<ChildMeta>)

  function RevokeAccounts(w: World, c: RevokeCall): Option<Error> {
    if !c.agent.Wallet? then Some(MissingSignature)
    else if w.config.None? || c.authorityId !in w.authorities then Some(AnchorConstraint)
    else if w.authorities[c.authorityId].authorityId != c.authorityId then Some(Unauthorized)
    else if w.authorities[c.authorityId].agent != c.agent then Some(AuthorityAgentMismatch)
    else None
  }

  predicate CascadeChild(authorities: map<U64, Authority>, c: RevokeCall, m: ChildMeta) {
    m.writable && m.id in authorities && authorities[m.id].parentId == c.authorityId && authorities[m.id].agent == c.agent
  }

  // The bytes of the fields of an authority, in declaration order; every one has a fixed width.
  const MAX_BLOCKED := 4
  const DISCRIMINATOR_BYTES := 8
  const RECORD_BYTES := 8 + 32 + 8 + 1 + 8 + 8 + 8 + 8 + (1 + MAX_CATEGORIES * 16) + (1 + MAX_BLOCKED * 32) + 8 + 8 + 1 + 8 + 1
  const ACCOUNT_BYTES := DISCRIMINATOR_BYTES + RECORD_BYTES
  const WRITE_OFFSET := 8

  /** What writing a child back takes. */
  function BytesWritten(b: WriteBack): nat {
    match b
    case AsWritten => DISCRIMINATOR_BYTES + RECORD_BYTES
    case AsIntended => RECORD_BYTES
  }

  /** Whether that fits behind the offset at which it is written. */
  predicate ChildFits(b: WriteBack) {
    BytesWritten(b) <= ACCOUNT_BYTES - WRITE_OFFSET
  }

  /** Children are checked and written back one by one: the first that is no child is refused, and so is the
      first that does not fit. */
  function CascadeRefusal(w: World, c: RevokeCall): Option<Error> {
    if c.children == [] then None
    else if ChildFits(w.writeBack) then
      if exists m | m in c.children :: !CascadeChild(w.authorities, c, m) then Some(InvalidCascadeChild) else None
    else if CascadeChild(w.authorities, c, c.children[0]) then Some(AccountDidNotSerialize)
    else Some(InvalidCascadeChild)
  }

  /** The listed authorities that are still Active become Revoked; every other record stays. */
  function Revoke(authorities: map<U64, Authority>, ids: set<U64>): map<U64, Authority> {
    map id | id in authorities ::
      if id in ids && authorities[id].status == Active then authorities[id].(status := Revoked) else authorities[id]
  }

  function ChildIds(children: seq<ChildMeta>): set<U64> {
    set m | m in children :: m.id
  }

  function RevokeAuthority(w: World, c: RevokeCall): (r: Result<World>)
    ensures r.Ok? ==> r.value == w.(authorities := r.value.authorities)
  {
    match RevokeAccounts(w, c)
    case Some(e) => Err(e)
    case None =>
      if w.authorities[c.authorityId].status != Active then Err(AuthorityAlreadyRevoked)
      else match CascadeRefusal(w, c)
        case Some(e) => Err(e)
        case None => Ok(w.(authorities := Revoke(w.authorities, ChildIds(c.children) + {c.authorityId})))
  }

  // ---- expire_authority ----

  datatype ExpireCall = ExpireCall(agent: Pubkey, authorityId: U64)

  function ExpireAccounts(w: World, c: ExpireCall): Option<Error> {
    if !c.agent.Wallet? then Some(MissingSignature)
    else if c.authorityId !in w.authorities then Some(AnchorConstraint)
    else if w.authorities[c.authorityId].authorityId != c.authorityId then Some(ParentIdMismatch)
    else if w.authorities[c.authorityId].agent != c.agent then Some(Unauthorized)
    else if w.authorities[c.authorityId].status != Active then Some(AuthorityNotActive)
    else None
  }

  function ExpireAuthority(w: World, c: ExpireCall): (r: Result<World>)
    ensures r.Ok? ==> r.value == w.(authorities := r.value.authorities)
  {
    match ExpireAccounts(w, c)
    case Some(e) => Err(e)
    case None =>
      var a := w.authorities[c.authorityId];
      if a.expirySlot == 0 || w.slot <= a.expirySlot then Err(AuthorityNotExpired)
      else Ok(w.(authorities := w.authorities[c.authorityId := a.(status := Expired)]))
  }

  // ---- the debit gate shared by pay, atomic_split and create_escrow ----

  /** What a handler stages before its transfers: the new `spent`, and whether that exhausts the budget. */
  datatype Staged = Staged(newSpent: U64, exhaust: bool)

  function DebitGate(w: World, authorityId: U64, acc: Option<U64>, payer: Pubkey, payees: seq<Pubkey>,
                     amount: U64, category: Bytes16, payerToken: Address): Result<Option<Staged>> {
    if authorityId == 0 then (if acc.Some? then Err(Unauthorized) else Ok(None))
    else if acc.None? then Err(AuthorityRequired)
    else if acc.value !in w.authorities || payerToken !in w.tokens then Err(AnchorConstraint)
    else
      var a := w.authorities[acc.value];
      if acc.value != authorityId || a.authorityId != authorityId then Err(Unauthorized)
      else if a.agent != payer then Err(AuthorityAgentMismatch)
      else if a.expirySlot != 0 && w.slot > a.expirySlot then Err(AuthorityExpired)
      else if a.status != Active then Err(AuthorityNotActive)
      else if amount > a.maxPerTx then Err(ExceedsMaxPerTx)
      else if a.spent + amount >= U64_END then Err(Overflow)
      else if a.spent + amount > a.maxTotal then Err(ExceedsMaxTotal)
      else if a.spent + amount > a.budget then Err(InsufficientBudget)
      else if !CategoryAllowed(a, category) then Err(CategoryNotAllowed)
      else if exists p | p in payees :: p in a.blocked then Err(RecipientBlocked)
      else if w.tokens[payerToken].amount < amount then Err(InsufficientBudget)
      else if w.tokens[payerToken].amount - amount < a.requireMinReserve then Err(InsufficientBudget)
      else Ok(Some(Staged(a.spent + amount, a.spent + amount >= a.budget)))
  }

  /** Writes what was staged. */
  function Commit(authorities: map<U64, Authority>, id: U64, staged: Option<Staged>): map<U64, Authority> {
    if staged.None? || id !in authorities then authorities
    else
      var a := authorities[id].(spent := staged.value.newSpent);
      authorities[id := if staged.value.exhaust then a.(status := Exhausted) else a]
  }
}
