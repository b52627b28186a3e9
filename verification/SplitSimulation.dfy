/** A split is a sequence of payments. */
module SplitSimulation {
  import opened Types
  import opened TokenLedger
  import opened AuthoritySpec
  import opened SpendSpec
  import opened Forest
  import opened AuthorityRuns

  function FirstPay(c: SplitCall): PayCall
    requires |c.amounts| >= 1
  {
    PayCall(c.payer, c.payeeA, c.authorityAcc, c.payerToken, c.tokenA, c.mint, c.amounts[0], c.authorityId, c.category, c.acceptA)
  }

  function SecondPay(c: SplitCall): PayCall
    requires |c.amounts| == 2 && c.payeeB.Some? && c.tokenB.Some?
  {
    PayCall(c.payer, c.payeeB.value, c.authorityAcc, c.payerToken, c.tokenB.value, c.mint, c.amounts[1], c.authorityId, c.category, c.acceptB)
  }

  /** Reputation accounts sit at the address of their agent. */
  ghost predicate CrisKeyed(w: World) {
    forall k :: k in w.cris ==> w.cris[k].agent == k
  }

  lemma TotalOfTwo(amounts: seq<U64>)
    requires |amounts| == 2 && SplitTotal(amounts).Ok?
    ensures amounts[0] > 0 && amounts[1] > 0 && amounts[0] + amounts[1] < U64_END && SplitTotal(amounts).value == amounts[0] + amounts[1]
  {
    assert amounts[..1][..0] == [];
    assert SplitTotal(amounts[..1]) == SplitTotal([amounts[0]]);
  }

  lemma TotalOfOne(amounts: seq<U64>)
    requires |amounts| == 1
    ensures SplitTotal(amounts) == if amounts[0] == 0 then Err(InvalidAmount) else Ok(amounts[0])
  {
    assert amounts[..0] == [];
  }

  /** If the gate lets the total through, it lets the first leg through, and after that the second,
      and committing the legs one after the other commits the total. */
  lemma GateSplits(w: World, w1: World, id: U64, acc: Option<U64>, payer: Pubkey, a: Pubkey, b: Pubkey, x: U64, y: U64, category: Bytes16, payerToken: Address)
    requires x > 0 && y > 0 && x + y < U64_END
    requires DebitGate(w, id, acc, payer, [a, b], x + y, category, payerToken).Ok?
    requires payerToken in w.tokens && w.tokens[payerToken].amount >= x + y
    ensures DebitGate(w, id, acc, payer, [a], x, category, payerToken).Ok?
    ensures var first := DebitGate(w, id, acc, payer, [a], x, category, payerToken).value;
            w1.authorities == Commit(w.authorities, id, first) && w1.slot == w.slot
            && payerToken in w1.tokens && w1.tokens[payerToken].amount == w.tokens[payerToken].amount - x ==>
              && DebitGate(w1, id, acc, payer, [b], y, category, payerToken).Ok?
              && Commit(w1.authorities, id, DebitGate(w1, id, acc, payer, [b], y, category, payerToken).value)
                 == Commit(w.authorities, id, DebitGate(w, id, acc, payer, [a, b], x + y, category, payerToken).value)
  {
    assert a in [a, b] && b in [a, b];
  }

  /** With three different agents, a split to two payees does what two payments would: the first is
      accepted, the second too unless the payer's commitment counter is full, and they end in the same
      accounts but for one more commitment of the payer. */
  lemma TwoLegsAreTwoPays(w: World, c: SplitCall)
    requires CrisKeyed(w) && |c.amounts| == 2 && AtomicSplit(w, c).Ok?
    requires c.payeeB.Some? && c.payeeB.value != c.payer && c.payeeB.value != c.payeeA
    ensures c.tokenB.Some? && Pay(w, FirstPay(c)).Ok?
    ensures var w1 := Pay(w, FirstPay(c)).value;
            var split := AtomicSplit(w, c).value;
            && (Pay(w1, SecondPay(c)).Ok? <==> w.cris[c.payer].successfulCommitments + 2 < U64_END)
            && (Pay(w1, SecondPay(c)).Ok? ==>
              var payer := split.cris[c.payer];
              Pay(w1, SecondPay(c)).value == split.(
                cris := split.cris[c.payer := payer.(successfulCommitments := payer.successfulCommitments + 1)]))
  {
    TotalOfTwo(c.amounts);
    var x, y := c.amounts[0], c.amounts[1];
    FirstLegPays(w, c);
    var w1 := Pay(w, FirstPay(c)).value;
    GateSplits(w, w1, c.authorityId, c.authorityAcc, c.payer, c.payeeA, c.payeeB.value, x, y, c.category, c.payerToken);
    SecondLegPays(w, c, w1);
  }

  lemma FirstLegPays(w: World, c: SplitCall)
    requires CrisKeyed(w) && |c.amounts| == 2 && AtomicSplit(w, c).Ok?
    requires c.payeeB.Some? && c.payeeB.value != c.payer && c.payeeB.value != c.payeeA
    ensures Pay(w, FirstPay(c)).Ok?
    ensures var w1 := Pay(w, FirstPay(c)).value;
            && w1.tokens[c.payerToken].amount == w.tokens[c.payerToken].amount - c.amounts[0]
            && w.tokens[c.payerToken].amount >= c.amounts[0] + c.amounts[1]
  {
    TotalOfTwo(c.amounts);
    var x, y := c.amounts[0], c.amounts[1];
    assert w.tokens[c.payerToken].amount >= x + y;
    GateSplits(w, w, c.authorityId, c.authorityAcc, c.payer, c.payeeA, c.payeeB.value, x, y, c.category, c.payerToken);
  }

  lemma SecondLegPays(w: World, c: SplitCall, w1: World)
    requires CrisKeyed(w) && |c.amounts| == 2 && AtomicSplit(w, c).Ok?
    requires c.payeeB.Some? && c.payeeB.value != c.payer && c.payeeB.value != c.payeeA
    requires Pay(w, FirstPay(c)) == Ok(w1)
    requires var x, y := c.amounts[0], c.amounts[1];
             && x + y < U64_END && SplitTotal(c.amounts) == Ok(x + y)
             && DebitGate(w1, c.authorityId, c.authorityAcc, c.payer, [c.payeeB.value], y, c.category, c.payerToken).Ok?
             && Commit(w1.authorities, c.authorityId, DebitGate(w1, c.authorityId, c.authorityAcc, c.payer, [c.payeeB.value], y, c.category, c.payerToken).value)
                == AtomicSplit(w, c).value.authorities
    ensures c.tokenB.Some?
    ensures var split := AtomicSplit(w, c).value;
            && (Pay(w1, SecondPay(c)).Ok? <==> w.cris[c.payer].successfulCommitments + 2 < U64_END)
            && (Pay(w1, SecondPay(c)).Ok? ==>
              var payer := split.cris[c.payer];
              Pay(w1, SecondPay(c)).value == split.(
                cris := split.cris[c.payer := payer.(successfulCommitments := payer.successfulCommitments + 1)]))
  {
    SecondAccounts(w, c, w1);
    SecondCris(w, c, w1);
    hide DebitGate, Commit, AtomicSplit, PayAccounts, Transfer, Commitment, Settlement;
  }

  /** After the first payment the accounts of the second one pass, and its transfer is the split's. */
  lemma SecondAccounts(w: World, c: SplitCall, w1: World)
    requires |c.amounts| == 2 && AtomicSplit(w, c).Ok? && CrisKeyed(w)
    requires c.payeeB.Some? && c.payeeB.value != c.payer && c.payeeB.value != c.payeeA
    requires Pay(w, FirstPay(c)) == Ok(w1)
    ensures c.tokenB.Some? && c.criB == c.payeeB && PayAccounts(w1, SecondPay(c)).None?
    ensures w1.config.Some? && !w1.config.value.paused && c.amounts[1] > 0
    ensures Transfer(w1.tokens, c.payerToken, c.tokenB.value, c.mint, c.payer, c.amounts[1], c.acceptB) == Ok(AtomicSplit(w, c).value.tokens)
  {
    CommitKeys(w, c);
    TotalOfTwo(c.amounts);
    hide DebitGate, Commit, SplitTotal;
    assert c.criB.value == c.payeeB.value;
  }

  /** The counters after the first payment, and what the second one makes of them. */
  lemma SecondCris(w: World, c: SplitCall, w1: World)
    requires |c.amounts| == 2 && AtomicSplit(w, c).Ok? && CrisKeyed(w)
    requires c.payeeB.Some? && c.payeeB.value != c.payer && c.payeeB.value != c.payeeA
    requires Pay(w, FirstPay(c)) == Ok(w1)
    ensures c.payer in w1.cris && c.payeeB.value in w1.cris && c.payer in AtomicSplit(w, c).value.cris
    ensures var p, q := Commitment(w1.cris[c.payer], c.amounts[1], w1.slot), Settlement(w1.cris[c.payeeB.value], c.amounts[1], w1.slot);
            && (p.Ok? <==> w.cris[c.payer].successfulCommitments + 2 < U64_END) && q.Ok?
            && (p.Ok? ==>
              var C := AtomicSplit(w, c).value.cris;
              w1.cris[c.payer := p.value][c.payeeB.value := q.value]
              == C[c.payer := C[c.payer].(successfulCommitments := C[c.payer].successfulCommitments + 1)])
  {
    TotalOfTwo(c.amounts);
    hide DebitGate, Commit, SplitTotal, Transfer;
    assert c.criB.value == c.payeeB.value;
  }

  lemma CommitKeys(w: World, c: SplitCall)
    requires |c.amounts| == 2 && Pay(w, FirstPay(c)).Ok?
    ensures Pay(w, FirstPay(c)).value.authorities.Keys == w.authorities.Keys
  {
  }

  /** A split to one payee is a payment: accepted for the same callers in the same states, with the same
      effect, as long as no second reputation account that repeats one of the two is passed along. */
  lemma OneLegIsPay(w: World, c: SplitCall)
    requires ForestInv(w) && |c.amounts| == 1
    requires c.tokenB.Some? ==> c.tokenB.value in w.tokens
    requires c.criB.Some? ==> c.criB.value in w.cris && c.criB.value != c.payer && c.criB.value != c.payeeA
    ensures AtomicSplit(w, c).Ok? <==> Pay(w, FirstPay(c)).Ok?
    ensures AtomicSplit(w, c).Ok? ==> AtomicSplit(w, c) == Pay(w, FirstPay(c))
  {
    TotalOfOne(c.amounts);
    GateIgnoresPayees(w, c.authorityId, c.authorityAcc, c.payer, SplitPayees(c), [c.payeeA], c.amounts[0], c.category, c.payerToken);
    if c.payer in w.cris && c.payeeA in w.cris && c.payer != c.payeeA {
      OneLegCris(w, c);
    }
    OneLegAccounts(w, c);
    hide DebitGate, Commit, SplitCris, Transfer, PayAccounts, SplitAccounts, CriGuard;
  }

  /** Both check the same accounts. */
  lemma OneLegAccounts(w: World, c: SplitCall)
    requires |c.amounts| == 1
    requires c.tokenB.Some? ==> c.tokenB.value in w.tokens
    requires c.criB.Some? ==> c.criB.value in w.cris
    ensures PayAccounts(w, FirstPay(c)).None? <==> SplitAccounts(w, c).None? && w.config.Some? && c.mint == w.config.value.mint
    ensures SplitAccounts(w, c).None? ==> w.config.Some? && c.payer in w.cris && c.payeeA in w.cris
    ensures SplitAccounts(w, c).None? && c.mint != w.config.value.mint ==> Transfer(w.tokens, c.payerToken, c.tokenA, c.mint, c.payer, c.amounts[0], c.acceptA).Err?
  {
    hide Commitment, Settlement;
  }

  /** A third reputation account that repeats neither of the two is written back as it was loaded. */
  lemma OneLegCris(w: World, c: SplitCall)
    requires |c.amounts| == 1 && c.payer in w.cris && c.payeeA in w.cris && c.payer != c.payeeA
    requires c.criB.Some? ==> c.criB.value in w.cris && c.criB.value != c.payer && c.criB.value != c.payeeA
    ensures SplitCris(w, c, c.amounts[0]) ==
            match Commitment(w.cris[c.payer], c.amounts[0], w.slot)
            case Err(e) => Err(e)
            case Ok(payer) =>
              match Settlement(w.cris[c.payeeA], c.amounts[0], w.slot)
              case Err(e) => Err(e)
              case Ok(a) => Ok(w.cris[c.payer := payer][c.payeeA := a])
  {
    var p, a := Commitment(w.cris[c.payer], c.amounts[0], w.slot), Settlement(w.cris[c.payeeA], c.amounts[0], w.slot);
    if p.Ok? && a.Ok? && c.criB.Some? {
      var two := w.cris[c.payer := p.value][c.payeeA := a.value];
      assert two[c.criB.value := w.cris[c.criB.value]] == two;
    }
  }

  /** No authority ever lists a blocked recipient, so who is paid makes no difference to the gate. */
  lemma GateIgnoresPayees(w: World, id: U64, acc: Option<U64>, payer: Pubkey, p: seq<Pubkey>, q: seq<Pubkey>, amount: U64, category: Bytes16, payerToken: Address)
    requires ForestInv(w)
    ensures DebitGate(w, id, acc, payer, p, amount, category, payerToken) == DebitGate(w, id, acc, payer, q, amount, category, payerToken)
  {
    hide ForestInv, CategoryAllowed;
    NothingBlocked(w, acc);
  }

  lemma NothingBlocked(w: World, acc: Option<U64>)
    requires ForestInv(w)
    ensures acc.Some? && acc.value in w.authorities ==> w.authorities[acc.value].blocked == []
  {
    if acc.Some? && acc.value in w.authorities {
      assert WellKept(w.authorities, acc.value);
    }
  }
}
