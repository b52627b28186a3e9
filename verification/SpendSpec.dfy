/** What paying and splitting does to the accounts. */
module SpendSpec {
  import opened Types
  import opened TokenLedger
  import opened AuthoritySpec

  // ---- reputation counters ----

  /** The payer's side of a settlement. */
  function Commitment(c: Cri, amount: U64, slot: U64): Result<Cri> {
    if c.successfulCommitments + 1 >= U64_END || c.volumeSettled + amount >= U64_END then Err(Overflow)
    else Ok(c.(
      successfulCommitments := c.successfulCommitments + 1,
      volumeSettled := c.volumeSettled + amount,
      lastActiveSlot := slot))
  }

  /** The payee's side of a settlement. */
  function Settlement(c: Cri, amount: U64, slot: U64): Result<Cri> {
    if c.successfulSettlements + 1 >= U64_END || c.volumeSettled + amount >= U64_END then Err(Overflow)
    else Ok(c.(
      successfulSettlements := c.successfulSettlements + 1,
      volumeSettled := c.volumeSettled + amount,
      lastActiveSlot := slot))
  }

  function CriGuard(w: World, agent: Pubkey): Option<Error> {
    if agent !in w.cris then Some(AnchorConstraint)
    else if w.cris[agent].agent != agent then Some(Unauthorized)
    else None
  }

  // ---- pay ----

  datatype PayCall = PayCall(
    payer: Pubkey, payee: Pubkey, authorityAcc: Option<U64>, payerToken: Address, payeeToken: Address,
    mint: Bytes32, amount: U64, authorityId: U64, category: Bytes16, accept: bool)

  function PayAccounts(w: World, c: PayCall): Option<Error> {
    if !c.payer.Wallet? then Some(MissingSignature)
    else if w.config.None? then Some(AnchorConstraint)
    else if c.authorityAcc.Some? && c.authorityAcc.value !in w.authorities then Some(AnchorConstraint)
    else
      var mint := w.config.value.mint;
      Either(CriGuard(w, c.payer), Either(CriGuard(w, c.payee),
        Either(TokenGuard(w.tokens, c.payerToken, c.payer, mint), Either(TokenGuard(w.tokens, c.payeeToken, c.payee, mint),
          if c.mint != mint then Some(InvalidMint) else None))))
  }

  function Pay(w: World, c: PayCall): (r: Result<World>)
    ensures r.Ok? ==> r.value == w.(tokens := r.value.tokens, authorities := r.value.authorities, cris := r.value.cris)
  {
    match PayAccounts(w, c)
    case Some(e) => Err(e)
    case None =>
      if w.config.value.paused then Err(Paused)
      else if c.amount == 0 then Err(InvalidAmount)
      else if c.payer == c.payee then Err(Unauthorized)
      else match DebitGate(w, c.authorityId, c.authorityAcc, c.payer, [c.payee], c.amount, c.category, c.payerToken)
        case Err(e) => Err(e)
        case Ok(staged) =>
          match Transfer(w.tokens, c.payerToken, c.payeeToken, c.mint, c.payer, c.amount, c.accept)
          case Err(e) => Err(e)
          case Ok(tokens) =>
            match Commitment(w.cris[c.payer], c.amount, w.slot)
            case Err(e) => Err(e)
            case Ok(payer) =>
              match Settlement(w.cris[c.payee], c.amount, w.slot)
              case Err(e) => Err(e)
              case Ok(payee) => Ok(w.(
                tokens := tokens,
                authorities := Commit(w.authorities, c.authorityId, staged),
                cris := w.cris[c.payer := payer][c.payee := payee]))
  }

  // ---- atomic_split ----

  datatype SplitCall = SplitCall(
    payer: Pubkey, payeeA: Pubkey, payeeB: Option<Pubkey>, authorityAcc: Option<U64>,
    payerToken: Address, tokenA: Address, tokenB: Option<Address>, criB: Option<Pubkey>, mint: Bytes32,
    authorityId: U64, amounts: seq<U64>, category: Bytes16, acceptA: bool, acceptB: bool)

  function SplitAccounts(w: World, c: SplitCall): Option<Error> {
    if !c.payer.Wallet? then Some(MissingSignature)
    else if w.config.None? then Some(AnchorConstraint)
    else if c.authorityAcc.Some? && c.authorityAcc.value !in w.authorities then Some(AnchorConstraint)
    else
      var mint := w.config.value.mint;
      Either(TokenGuard(w.tokens, c.payerToken, c.payer, mint), Either(TokenGuard(w.tokens, c.tokenA, c.payeeA, mint),
        if c.tokenB.Some? && c.tokenB.value !in w.tokens then Some(AnchorConstraint)
        else Either(CriGuard(w, c.payer), Either(CriGuard(w, c.payeeA),
          if c.criB.Some? && c.criB.value !in w.cris then Some(AnchorConstraint) else None))))
  }

  predicate SplitArity(c: SplitCall) {
    |c.amounts| == 1 || (|c.amounts| == 2 && c.payeeB.Some? && c.tokenB.Some? && c.criB.Some?)
  }

  /** The sum of the legs; every leg must be positive and the sum must fit. */
  function SplitTotal(amounts: seq<U64>): Result<U64> {
    if amounts == [] then Ok(0)
    else match SplitTotal(amounts[..|amounts| - 1])
      case Err(e) => Err(e)
      case Ok(sum) =>
        if amounts[|amounts| - 1] == 0 then Err(InvalidAmount)
        else if sum + amounts[|amounts| - 1] >= U64_END then Err(Overflow)
        else Ok(sum + amounts[|amounts| - 1])
  }

  function SplitPayees(c: SplitCall): seq<Pubkey> {
    if c.payeeB.Some? then [c.payeeA, c.payeeB.value] else [c.payeeA]
  }

  function SplitTransfers(t: Tokens, c: SplitCall): Result<Tokens>
    requires SplitArity(c)
  {
    match Transfer(t, c.payerToken, c.tokenA, c.mint, c.payer, c.amounts[0], c.acceptA)
    case Err(e) => Err(e)
    case Ok(t1) =>
      if |c.amounts| == 1 then Ok(t1)
      else if c.tokenB.value !in t then Err(AnchorConstraint)
      else if t[c.tokenB.value].owner != c.payeeB.value then Err(Unauthorized)
      else Transfer(t1, c.payerToken, c.tokenB.value, c.mint, c.payer, c.amounts[1], c.acceptB)
  }

  /** Each reputation account is loaded once per place it is named in, and written back in
      declaration order: payer, payee A, payee B. A repeated account keeps its last copy. */
  function SplitCris(w: World, c: SplitCall, total: U64): Result<map<Pubkey, Cri>>
    requires SplitArity(c) && c.payer in w.cris && c.payeeA in w.cris
    requires c.criB.Some? ==> c.criB.value in w.cris
  {
    match Commitment(w.cris[c.payer], total, w.slot)
    case Err(e) => Err(e)
    case Ok(payer) =>
      match Settlement(w.cris[c.payeeA], c.amounts[0], w.slot)
      case Err(e) => Err(e)
      case Ok(a) =>
        var two := w.cris[c.payer := payer][c.payeeA := a];
        if |c.amounts| == 1 then Ok(if c.criB.Some? then two[c.criB.value := w.cris[c.criB.value]] else two)
        else if w.cris[c.criB.value].agent != c.payeeB.value then Err(Unauthorized)
        else match Settlement(w.cris[c.criB.value], c.amounts[1], w.slot)
          case Err(e) => Err(e)
          case Ok(b) => Ok(two[c.criB.value := b])
  }

  function AtomicSplit(w: World, c: SplitCall): (r: Result<World>)
    ensures r.Ok? ==> r.value == w.(tokens := r.value.tokens, authorities := r.value.authorities, cris := r.value.cris)
  {
    match SplitAccounts(w, c)
    case Some(e) => Err(e)
    case None =>
      if w.config.value.paused then Err(Paused)
      else if |c.amounts| == 0 || |c.amounts| > 2 then Err(InvalidAmount)
      else if !SplitArity(c) then Err(InvalidRemainingAccounts)
      else match SplitTotal(c.amounts)
        case Err(e) => Err(e)
        case Ok(total) =>
          if c.payer == c.payeeA then Err(Unauthorized)
          else match DebitGate(w, c.authorityId, c.authorityAcc, c.payer, SplitPayees(c), total, c.category, c.payerToken)
            case Err(e) => Err(e)
            case Ok(staged) =>
              match SplitTransfers(w.tokens, c)
              case Err(e) => Err(e)
              case Ok(tokens) =>
                match SplitCris(w, c, total)
                case Err(e) => Err(e)
                case Ok(cris) => Ok(w.(
                  tokens := tokens, authorities := Commit(w.authorities, c.authorityId, staged), cris := cris))
  }
}
