/** What locking, releasing and cancelling an escrow, and slashing a bond, does to the accounts. */
module EscrowSpec {
  import opened Types
  import opened TokenLedger
  import opened AuthoritySpec
  import opened SpendSpec

  // ---- create_escrow ----

  datatype EscrowCall = EscrowCall(
    payer: Pubkey, payee: Pubkey, authorityAcc: Option<U64>, payerToken: Address, mint: Bytes32,
    escrowId: U64, amount: U64, authorityId: U64, category: Bytes16,
    condition: Condition, conditionData: Bytes64, expirySlot: U64, accept: bool)

  function EscrowAccounts(w: World, c: EscrowCall): Option<Error> {
    if !c.payer.Wallet? then Some(MissingSignature)
    else if w.config.None? then Some(AnchorConstraint)
    else if c.authorityAcc.Some? && c.authorityAcc.value !in w.authorities then Some(AnchorConstraint)
    else if c.escrowId in w.escrows || EscrowVault(c.escrowId) in w.tokens then Some(AnchorConstraint)
    else
      var mint := w.config.value.mint;
      Either(TokenGuard(w.tokens, c.payerToken, c.payer, mint), if c.mint != mint then Some(InvalidMint) else None)
  }

  function NewEscrow(w: World, c: EscrowCall): Escrow {
    Escrow(c.escrowId, c.payer, c.payee, c.amount, c.authorityId, c.category,
           c.condition, c.conditionData, Open, w.slot, c.expirySlot)
  }

  function WithVault(t: Tokens, c: EscrowCall): Tokens {
    t[EscrowVault(c.escrowId) := TokenAccount(EscrowPda(c.escrowId), c.mint, 0)]
  }

  function CreateEscrow(w: World, c: EscrowCall): (r: Result<World>)
    ensures r.Ok? ==> r.value == w.(tokens := r.value.tokens, authorities := r.value.authorities, escrows := r.value.escrows, config := r.value.config)
  {
    match EscrowAccounts(w, c)
    case Some(e) => Err(e)
    case None =>
      var cfg := w.config.value;
      if cfg.paused then Err(Paused)
      else if c.amount == 0 then Err(InvalidAmount)
      else if cfg.escrowCounter + 1 >= U64_END then Err(Overflow)
      else if c.escrowId != cfg.escrowCounter + 1 then Err(EscrowIdMismatch)
      else if c.condition.Unknown? then Err(EscrowConditionFailed)
      else if c.payer == c.payee then Err(Unauthorized)
      else match DebitGate(w, c.authorityId, c.authorityAcc, c.payer, [c.payee], c.amount, c.category, c.payerToken)
        case Err(e) => Err(e)
        case Ok(staged) =>
          match Transfer(WithVault(w.tokens, c), c.payerToken, EscrowVault(c.escrowId), c.mint, c.payer, c.amount, c.accept)
          case Err(e) => Err(e)
          case Ok(tokens) => Ok(w.(
            tokens := tokens,
            authorities := Commit(w.authorities, c.authorityId, staged),
            escrows := w.escrows[c.escrowId := NewEscrow(w, c)],
            config := Some(cfg.(escrowCounter := c.escrowId))))
  }

  // ---- release_escrow ----

  datatype ReleaseCall = ReleaseCall(releaser: Pubkey, escrowId: U64, payeeToken: Address, mint: Bytes32, proof: Bytes64, accept: bool)

  function ReleaseAccounts(w: World, c: ReleaseCall): Option<Error> {
    var vault := EscrowVault(c.escrowId);
    if !c.releaser.Wallet? then Some(MissingSignature)
    else if c.escrowId !in w.escrows || vault !in w.tokens then Some(AnchorConstraint)
    else
      var e := w.escrows[c.escrowId];
      if e.escrowId != c.escrowId then Some(EscrowIdMismatch)
      else Either(TokenGuard(w.tokens, c.payeeToken, e.payee, w.tokens[vault].mint), Either(CriGuard(w, e.payer), CriGuard(w, e.payee)))
  }

  /** Past its deadline: from here on anyone may cancel. */
  predicate PastExpiry(e: Escrow, slot: U64) {
    e.expirySlot != 0 && slot > e.expirySlot
  }

  /** Why an escrow may not be released now, if it may not. */
  function ReleaseRefusal(e: Escrow, slot: U64, proof: Bytes64): Option<Error> {
    if e.status != Open then Some(EscrowNotOpen)
    else if e.condition != OnTimeout && PastExpiry(e, slot) then Some(EscrowExpired)
    else match e.condition
      case Immediate => None
      case OnTimeout => if e.expirySlot == 0 || slot < e.expirySlot then Some(EscrowConditionFailed) else None
      case OnReceipt => if proof.head == e.conditionData.head then None else Some(EscrowConditionFailed)
      case _ => Some(EscrowConditionFailed)
  }

  function ReleaseEscrow(w: World, c: ReleaseCall): (r: Result<World>)
    ensures r.Ok? ==> r.value == w.(tokens := r.value.tokens, escrows := r.value.escrows, cris := r.value.cris)
  {
    match ReleaseAccounts(w, c)
    case Some(e) => Err(e)
    case None =>
      var e := w.escrows[c.escrowId];
      var vault := EscrowVault(c.escrowId);
      match ReleaseRefusal(e, w.slot, c.proof)
      case Some(err) => Err(err)
      case None =>
        if c.mint != w.tokens[vault].mint then Err(InvalidMint)
        else match Transfer(w.tokens, vault, c.payeeToken, c.mint, EscrowPda(c.escrowId), e.amount, c.accept)
          case Err(err) => Err(err)
          case Ok(tokens) =>
            match Commitment(w.cris[e.payer], e.amount, w.slot)
            case Err(err) => Err(err)
            case Ok(payer) =>
              match Settlement(w.cris[e.payee], e.amount, w.slot)
              case Err(err) => Err(err)
              case Ok(payee) => Ok(w.(
                tokens := tokens,
                escrows := w.escrows[c.escrowId := e.(status := Released)],
                cris := w.cris[e.payer := payer][e.payee := payee]))
  }

  // ---- cancel_escrow ----

  datatype CancelCall = CancelCall(canceller: Pubkey, escrowId: U64, payerToken: Address, mint: Bytes32, accept: bool)

  function CancelAccounts(w: World, c: CancelCall): Option<Error> {
    var vault := EscrowVault(c.escrowId);
    if !c.canceller.Wallet? then Some(MissingSignature)
    else if c.escrowId !in w.escrows || vault !in w.tokens then Some(AnchorConstraint)
    else
      var e := w.escrows[c.escrowId];
      if e.escrowId != c.escrowId then Some(EscrowIdMismatch)
      else Either(TokenGuard(w.tokens, c.payerToken, e.payer, w.tokens[vault].mint), CriGuard(w, e.payer))
  }

  function CancelEscrow(w: World, c: CancelCall): (r: Result<World>)
    ensures r.Ok? ==> r.value == w.(tokens := r.value.tokens, escrows := r.value.escrows, cris := r.value.cris)
  {
    match CancelAccounts(w, c)
    case Some(e) => Err(e)
    case None =>
      var e := w.escrows[c.escrowId];
      var vault := EscrowVault(c.escrowId);
      if e.status != Open then Err(EscrowNotOpen)
      else if c.canceller != e.payer && !PastExpiry(e, w.slot) then Err(EscrowCancelUnauthorized)
      else if c.mint != w.tokens[vault].mint then Err(InvalidMint)
      else match Transfer(w.tokens, vault, c.payerToken, c.mint, EscrowPda(c.escrowId), e.amount, c.accept)
        case Err(err) => Err(err)
        case Ok(tokens) =>
          var cri := w.cris[e.payer];
          if cri.failedCommitments + 1 >= U64_END then Err(Overflow)
          else Ok(w.(
            tokens := tokens,
            escrows := w.escrows[c.escrowId := e.(status := if c.canceller == e.payer then Cancelled else Lapsed)],
            cris := w.cris[e.payer := cri.(failedCommitments := cri.failedCommitments + 1, lastActiveSlot := w.slot)]))
  }

  // ---- slash_bond ----

  datatype SlashCall = SlashCall(slasher: Pubkey, authorityId: U64, bondVault: Address, destination: Address, mint: Bytes32, accept: bool)

  function SlashAccounts(w: World, c: SlashCall): Option<Error> {
    if !c.slasher.Wallet? then Some(MissingSignature)
    else if w.config.None? || c.authorityId !in w.authorities then Some(AnchorConstraint)
    else
      var a := w.authorities[c.authorityId];
      var mint := w.config.value.mint;
      if a.authorityId != c.authorityId then Some(ParentIdMismatch)
      else if a.agent != c.slasher then Some(Unauthorized)
      else if a.bondAmount == 0 then Some(InsufficientBond)
      else if c.authorityId !in w.bonds then Some(AnchorConstraint)
      else if w.bonds[c.authorityId].authorityId != c.authorityId then Some(ParentIdMismatch)
      else if w.bonds[c.authorityId].status != BondActive then Some(BondNotActive)
      else Either(TokenGuard(w.tokens, c.bondVault, BondPda(c.authorityId), mint),
        if c.destination !in w.tokens then Some(AnchorConstraint)
        else if w.tokens[c.destination].mint != mint || c.mint != mint then Some(InvalidMint) else None)
  }

  function SlashBond(w: World, c: SlashCall): (r: Result<World>)
    ensures r.Ok? ==> r.value == w.(bonds := r.value.bonds, tokens := r.value.tokens)
  {
    match SlashAccounts(w, c)
    case Some(e) => Err(e)
    case None =>
      var bond := w.bonds[c.authorityId];
      match Transfer(w.tokens, c.bondVault, c.destination, c.mint, BondPda(c.authorityId), bond.amount, c.accept)
      case Err(e) => Err(e)
      case Ok(tokens) => Ok(w.(bonds := w.bonds[c.authorityId := bond.(status := BondSlashed)], tokens := tokens))
  }
}
