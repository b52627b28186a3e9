/** The token program as the handlers see it: one checked transfer. */
module TokenLedger {
  import opened Types

  /** `accept` is the token program's own say: a frozen account or a transfer hook may refuse. */
  function Transfer(t: Tokens, from: Address, to: Address, mint: Bytes32, signer: Pubkey, amount: U64, accept: bool): Result<Tokens> {
    if !accept || from !in t || to !in t then Err(TokenTransferFailed)
    else if t[from].mint != mint || t[to].mint != mint || t[from].owner != signer then Err(TokenTransferFailed)
    else if t[from].amount < amount then Err(TokenTransferFailed)
    else if from == to then Ok(t)
    else if t[to].amount + amount >= U64_END then Err(TokenTransferFailed)
    else Ok(t[from := t[from].(amount := t[from].amount - amount)][to := t[to].(amount := t[to].amount + amount)])
  }

  /** A token account named in an instruction: it exists, and has the owner and mint asked for. */
  function TokenGuard(t: Tokens, a: Address, owner: Pubkey, mint: Bytes32): Option<Error> {
    if a !in t then Some(AnchorConstraint)
    else if t[a].owner != owner then Some(Unauthorized)
    else if t[a].mint != mint then Some(InvalidMint)
    else None
  }

  /** The first complaint of two account checks. */
  function Either(a: Option<Error>, b: Option<Error>): Option<Error> {
    if a.Some? then a else b
  }
}
