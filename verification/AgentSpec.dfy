/** Configuration, registration, the pause switch, and what the rest of the chain may do. */
module AgentSpec {
  import opened Types
  import opened TokenLedger

  function InitializeConfig(w: World, admin: Pubkey, mint: Bytes32): (r: Result<World>)
    ensures r.Ok? ==> r.value == w.(config := r.value.config)
  {
    if !admin.Wallet? then Err(MissingSignature)
    else if w.config.Some? then Err(AnchorConstraint)
    else Ok(w.(config := Some(Config(admin, mint, 0, 0, 0, 0, false))))
  }

  function RegisterAccounts(w: World, agent: Pubkey): Option<Error> {
    if !agent.Wallet? then Some(MissingSignature)
    else if w.config.None? || agent in w.identities || agent in w.cris then Some(AnchorConstraint)
    else None
  }

  function RegisterAgent(w: World, agent: Pubkey): (r: Result<World>)
    ensures r.Ok? ==> r.value == w.(identities := r.value.identities, cris := r.value.cris)
  {
    match RegisterAccounts(w, agent)
    case Some(e) => Err(e)
    case None =>
      if w.config.value.paused then Err(Paused)
      else Ok(w.(
        identities := w.identities[agent := AgentIdentity(agent, w.slot, true)],
        cris := w.cris[agent := Cri(agent, 0, 0, 0, 0, 0, w.slot, w.slot, 0, 0)]))
  }

  function SetPaused(w: World, admin: Pubkey, paused: bool): (r: Result<World>)
    ensures r.Ok? ==> r.value == w.(config := r.value.config)
  {
    if !admin.Wallet? then Err(MissingSignature)
    else if w.config.None? then Err(AnchorConstraint)
    else if w.config.value.admin != admin then Err(Unauthorized)
    else Ok(w.(config := Some(w.config.value.(paused := paused))))
  }

  // ---- steps the program does not take ----

  function AdvanceClock(w: World, to: U64): (r: Result<World>)
    ensures r.Ok? ==> r.value == w.(slot := r.value.slot) && w.slot <= r.value.slot
  {
    if to < w.slot then Err(AnchorConstraint) else Ok(w.(slot := to))
  }

  /** Anyone may open a token account, but not at an address the program derives. */
  function OpenTokenAccount(w: World, at: Address, owner: Pubkey, mint: Bytes32): (r: Result<World>)
    ensures r.Ok? ==> r.value == w.(tokens := r.value.tokens)
  {
    if at in w.tokens then Err(AnchorConstraint)
    else if !at.Plain? && at != Ata(owner, mint) then Err(AnchorConstraint)
    else Ok(w.(tokens := w.tokens[at := TokenAccount(owner, mint, 0)]))
  }

  /** A wallet moves its own tokens into any account, the program's vaults included. */
  function OutsideTransfer(w: World, from: Address, to: Address, mint: Bytes32, signer: Pubkey, amount: U64): (r: Result<World>)
    ensures r.Ok? ==> r.value == w.(tokens := r.value.tokens)
  {
    if !signer.Wallet? then Err(MissingSignature)
    else match Transfer(w.tokens, from, to, mint, signer, amount, true)
      case Err(e) => Err(e)
      case Ok(tokens) => Ok(w.(tokens := tokens))
  }
}
