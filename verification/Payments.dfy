/** Where the tokens and the credit of a payment, a split and an escrow lock end up. */
module Payments {
  import opened Types
  import opened TokenLedger
  import opened AuthoritySpec
  import opened SpendSpec
  import opened EscrowSpec
  import opened ReceiptSpec
  import opened Frames
  import opened AuthorityRuns
  import opened Sums
  import opened Custody
  import opened Keys
  import opened Escrows
  import opened Vaults

  /** What an agent has to show for itself; nothing while it has no reputation account. */
  datatype Standing = Standing(settlements: nat, commitments: nat, volume: nat, failures: nat, lastActive: nat)

  function StandingOf(w: World, agent: Pubkey): Standing {
    if agent !in w.cris then Standing(0, 0, 0, 0, 0)
    else
      var c := w.cris[agent];
      Standing(c.successfulSettlements, c.successfulCommitments, c.volumeSettled, c.failedCommitments, c.lastActiveSlot)
  }

  /** A payment takes the amount out of an account of the payer and puts it into an account of the
      payee, and no other account changes. */
  lemma PayDelivers(w: World, c: PayCall)
    requires Pay(w, c).Ok?
    ensures c.payerToken in w.tokens && w.tokens[c.payerToken].owner == c.payer
    ensures c.payeeToken in w.tokens && w.tokens[c.payeeToken].owner == c.payee != c.payer
    ensures Moved(w.tokens, Pay(w, c).value.tokens, c.payerToken, c.payeeToken, c.amount)
  {
    hide DebitGate, Commit, Commitment, Settlement;
  }

  /** What a settlement of an amount between two agents does to the standing of any agent: the payer is credited
      with a commitment, the payee with a settlement, both with the volume and the slot, and nobody else with anything. */
  ghost predicate Credited(before: Standing, now: Standing, agent: Pubkey, payer: Pubkey, payee: Pubkey, amount: U64, slot: U64) {
    now == Standing(
      before.settlements + (if agent == payee then 1 else 0),
      before.commitments + (if agent == payer then 1 else 0),
      before.volume + (if agent == payer || agent == payee then amount else 0),
      before.failures,
      if agent == payer || agent == payee then slot else before.lastActive)
  }

  lemma PayCredits(w: World, c: PayCall, agent: Pubkey)
    requires Pay(w, c).Ok?
    ensures Credited(StandingOf(w, agent), StandingOf(Pay(w, c).value, agent), agent, c.payer, c.payee, c.amount, w.slot)
  {
    hide DebitGate, Commit, Transfer;
  }

  /** A release credits its escrow's parties, whoever signs it, in the same way. */
  lemma ReleaseCredits(w: World, c: ReleaseCall, agent: Pubkey)
    requires EscrowInv(w) && KeyInv(w) && ReleaseEscrow(w, c).Ok?
    ensures c.escrowId in w.escrows
    ensures var e := w.escrows[c.escrowId];
            Credited(StandingOf(w, agent), StandingOf(ReleaseEscrow(w, c).value, agent), agent, e.payer, e.payee, e.amount, w.slot)
  {
    hide Transfer, ReleaseRefusal;
    assert Held(w, c.escrowId);
  }

  /** A cancel counts against the escrow's payer, whoever signs it, and touches nobody else. */
  lemma CancelCredits(w: World, c: CancelCall, agent: Pubkey)
    requires KeyInv(w) && CancelEscrow(w, c).Ok?
    ensures c.escrowId in w.escrows
    ensures var before, now := StandingOf(w, agent), StandingOf(CancelEscrow(w, c).value, agent);
            now == if agent == w.escrows[c.escrowId].payer then before.(failures := before.failures + 1, lastActive := w.slot) else before
  {
    hide Transfer;
  }

  /** A receipt only marks its actor as active. */
  lemma ReceiptCredits(w: World, c: ReceiptCall, agent: Pubkey)
    requires CreateReceipt(w, c).Ok?
    ensures var before, now := StandingOf(w, agent), StandingOf(CreateReceipt(w, c).value, agent);
            now == if agent == c.actor then before.(lastActive := w.slot) else before
  {
    hide NewReceipt;
  }

  // ---- when a payment and a lock go through ----

  /** A token account of an owner, in the program's mint, that holds the amount. */
  ghost predicate CanGive(w: World, a: Address, owner: Pubkey, amount: U64) {
    a in w.tokens && w.tokens[a].owner == owner && w.tokens[a].mint == Counters(w).mint && w.tokens[a].amount >= amount
  }

  /** A reputation account with room for one more commitment or settlement of the amount. */
  ghost predicate HasRoom(w: World, agent: Pubkey, count: Cri -> U64, amount: U64) {
    agent in w.cris && count(w.cris[agent]) + 1 < U64_END && w.cris[agent].volumeSettled + amount < U64_END
  }

  /** What a split should add to the balance of an account, whatever accounts coincide. */
  function Net(c: SplitCall, a: Address): int
    requires SplitArity(c)
  {
    var one: int := c.amounts[0];
    var two: int := if |c.amounts| == 2 then c.amounts[1] else 0;
    var inA: int := if a == c.tokenA then one else 0;
    var inB: int := if |c.amounts| == 2 && a == c.tokenB.value then two else 0;
    var paid: int := if a == c.payerToken then one + two else 0;
    inA + inB - paid
  }

  /** Each leg of a split arrives in full, the first at payee A and the second at payee B, and the payer
      pays for both, also where the accounts named coincide. */
  lemma SplitDelivers(w: World, c: SplitCall)
    requires AtomicSplit(w, c).Ok?
    ensures SplitArity(c) && c.payerToken in w.tokens && c.tokenA in w.tokens
    ensures w.tokens[c.payerToken].owner == c.payer && w.tokens[c.tokenA].owner == c.payeeA != c.payer
    ensures |c.amounts| == 2 ==> c.tokenB.value in w.tokens && w.tokens[c.tokenB.value].owner == c.payeeB.value
    ensures var n := AtomicSplit(w, c).value.tokens;
            n.Keys == w.tokens.Keys
            && forall a :: a in n ==> n[a] == w.tokens[a].(amount := n[a].amount) && n[a].amount == w.tokens[a].amount + Net(c, a)
  {
    hide DebitGate, Commit, SplitCris, SplitTotal;
  }

  /** Locking an escrow moves the amount from the payer's account into a vault that was not there
      before, holds exactly that, and only the program can open; nobody is credited with anything yet. */
  lemma EscrowLocks(w: World, c: EscrowCall, agent: Pubkey)
    requires CreateEscrow(w, c).Ok?
    ensures var n := CreateEscrow(w, c).value;
            && EscrowVault(c.escrowId) !in w.tokens && n.tokens.Keys == w.tokens.Keys + {EscrowVault(c.escrowId)}
            && n.tokens[EscrowVault(c.escrowId)] == TokenAccount(EscrowPda(c.escrowId), c.mint, c.amount)
            && c.payerToken in w.tokens && w.tokens[c.payerToken].owner == c.payer
            && n.tokens[c.payerToken].amount == w.tokens[c.payerToken].amount - c.amount
            && (forall a :: a in w.tokens && a != c.payerToken ==> n.tokens[a] == w.tokens[a])
            && StandingOf(n, agent) == StandingOf(w, agent)
  {
    hide DebitGate, Commit;
  }

  lemma PayWhen(w: World, c: PayCall)
    requires KeyInv(w) && Supply(w.tokens, Counters(w).mint) < U64_END && c.accept && w.config.Some?
    ensures Pay(w, c).Ok? <==>
      && PayAccounts(w, c).None? && !w.config.value.paused && c.amount > 0 && c.payer != c.payee
      && DebitGate(w, c.authorityId, c.authorityAcc, c.payer, [c.payee], c.amount, c.category, c.payerToken).Ok?
      && CanGive(w, c.payerToken, c.payer, c.amount)
      && HasRoom(w, c.payer, (k: Cri) => k.successfulCommitments, c.amount) && HasRoom(w, c.payee, (k: Cri) => k.successfulSettlements, c.amount)
  {
    hide DebitGate, Commit, Supply, Transfer;
    if PayAccounts(w, c).None? {
      Room(w, c.payerToken, c.payeeToken);
      TransferExact(w.tokens, c.payerToken, c.payeeToken, c.mint, c.payer, c.amount);
    }
  }

  lemma Room(w: World, a: Address, b: Address)
    requires Supply(w.tokens, Counters(w).mint) < U64_END && a in w.tokens && b in w.tokens
    requires w.tokens[a].mint == Counters(w).mint && w.tokens[b].mint == Counters(w).mint
    ensures a != b ==> w.tokens[a].amount as int + w.tokens[b].amount as int < U64_END
  {
    TotalCovers(Balances(w.tokens, Counters(w).mint), a, b);
  }

  lemma PayAdmits(w: World, c: PayCall)
    requires KeyInv(w) && (c.authorityAcc.Some? ==> c.authorityAcc.value in w.authorities)
    ensures PayAccounts(w, c).None? <==>
      && c.payer.Wallet? && w.config.Some? && c.mint == Counters(w).mint && c.payer in w.cris && c.payee in w.cris
      && CanGive(w, c.payerToken, c.payer, 0) && CanGive(w, c.payeeToken, c.payee, 0)
  {
  }

  /** In reachable states a payment is accepted if and only if the payer signs it while the program is not paused,
      the amount is positive and for somebody else, the authority, if one is named, allows it, an account of the
      payer's holds it, and both parties' reputation accounts have room. */
  lemma PayExact(w: World, c: PayCall)
    requires ForestInv(w) && KeyInv(w) && Supply(w.tokens, Counters(w).mint) < U64_END && c.accept
    ensures Pay(w, c).Ok? <==>
      && c.payer.Wallet? && w.config.Some? && !w.config.value.paused && c.mint == Counters(w).mint
      && c.amount > 0 && c.payer != c.payee
      && MaySpend(w, c.authorityId, c.authorityAcc, c.payer, c.amount, c.category)
      && CanGive(w, c.payerToken, c.payer, c.amount) && CanGive(w, c.payeeToken, c.payee, 0)
      && HasRoom(w, c.payer, (k: Cri) => k.successfulCommitments, c.amount) && HasRoom(w, c.payee, (k: Cri) => k.successfulSettlements, c.amount)
  {
    hide Pay, DebitGate, PayAccounts, MaySpend, Supply, ForestInv, KeyInv;
    PayNeeds(w, c);
    if MaySpend(w, c.authorityId, c.authorityAcc, c.payer, c.amount, c.category) {
      MaySpendNamed(w, c.authorityId, c.authorityAcc, c.payer, c.amount, c.category);
    }
    if c.authorityAcc.Some? ==> c.authorityAcc.value in w.authorities {
      PayAdmits(w, c);
      if w.config.Some? && c.payerToken in w.tokens {
        PayWhen(w, c);
        GateExact(w, c.authorityId, c.authorityAcc, c.payer, [c.payee], c.amount, c.category, c.payerToken);
      }
    }
  }

  lemma PayNeeds(w: World, c: PayCall)
    ensures Pay(w, c).Ok? ==> w.config.Some? && c.payerToken in w.tokens && (c.authorityAcc.Some? ==> c.authorityAcc.value in w.authorities)
  {
    hide DebitGate, Commit, Transfer;
  }

  lemma MaySpendNamed(w: World, id: U64, acc: Option<U64>, payer: Pubkey, amount: U64, category: Bytes16)
    requires MaySpend(w, id, acc, payer, amount, category)
    ensures acc.Some? ==> acc.value in w.authorities
  {
  }

  lemma LockAdmits(w: World, c: EscrowCall)
    requires VaultInv(w) && (c.authorityAcc.Some? ==> c.authorityAcc.value in w.authorities)
    ensures EscrowAccounts(w, c).None? <==>
      && c.payer.Wallet? && w.config.Some? && c.mint == Counters(w).mint && c.escrowId !in w.escrows && CanGive(w, c.payerToken, c.payer, 0)
  {
  }

  lemma LockWhen(w: World, c: EscrowCall)
    requires VaultInv(w) && c.accept && EscrowAccounts(w, c).None?
    ensures CreateEscrow(w, c).Ok? <==>
      && !w.config.value.paused && c.amount > 0 && c.payer != c.payee && !c.condition.Unknown? && c.escrowId as int == Counters(w).escrowCounter as int + 1
      && DebitGate(w, c.authorityId, c.authorityAcc, c.payer, [c.payee], c.amount, c.category, c.payerToken).Ok?
      && CanGive(w, c.payerToken, c.payer, c.amount)
  {
    hide DebitGate, Commit, NewEscrow, Transfer, VaultInv, EscrowInv, KeyInv;
    TransferExact(WithVault(w.tokens, c), c.payerToken, EscrowVault(c.escrowId), c.mint, c.payer, c.amount);
  }

  lemma LockNeeds(w: World, c: EscrowCall)
    ensures CreateEscrow(w, c).Ok? ==> EscrowAccounts(w, c).None? && (c.authorityAcc.Some? ==> c.authorityAcc.value in w.authorities)
  {
    hide DebitGate, Commit, Transfer;
  }

  /** The same of a lock: besides, its condition is one the program knows and its id the next one. The payee need
      not be registered, nor the deadline lie ahead. */
  lemma LockExact(w: World, c: EscrowCall)
    requires ForestInv(w) && VaultInv(w) && c.accept
    ensures CreateEscrow(w, c).Ok? <==>
      && c.payer.Wallet? && w.config.Some? && !w.config.value.paused && c.mint == Counters(w).mint
      && c.amount > 0 && c.payer != c.payee && !c.condition.Unknown? && c.escrowId as int == Counters(w).escrowCounter as int + 1
      && MaySpend(w, c.authorityId, c.authorityAcc, c.payer, c.amount, c.category)
      && CanGive(w, c.payerToken, c.payer, c.amount)
  {
    hide CreateEscrow, DebitGate, EscrowAccounts, MaySpend, ForestInv, VaultInv;
    LockNeeds(w, c);
    NextEscrow(w, c.escrowId);
    if MaySpend(w, c.authorityId, c.authorityAcc, c.payer, c.amount, c.category) {
      MaySpendNamed(w, c.authorityId, c.authorityAcc, c.payer, c.amount, c.category);
    }
    if c.authorityAcc.Some? ==> c.authorityAcc.value in w.authorities {
      LockAdmits(w, c);
      if EscrowAccounts(w, c).None? {
        LockWhen(w, c);
        GateExact(w, c.authorityId, c.authorityAcc, c.payer, [c.payee], c.amount, c.category, c.payerToken);
      }
    }
  }

  lemma NextEscrow(w: World, id: U64)
    requires VaultInv(w)
    ensures id as int == Counters(w).escrowCounter as int + 1 ==> id !in w.escrows
  {
    hide KeyInv, Held;
  }
}
