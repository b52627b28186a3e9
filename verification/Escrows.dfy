/** Escrows over whole runs: settled once, to one side, out of a vault that holds enough. */
module Escrows {
  import opened Types
  import opened TokenLedger
  import opened AuthoritySpec
  import opened SpendSpec
  import opened EscrowSpec
  import opened OrgSpec
  import opened ReceiptSpec
  import opened AgentSpec
  import opened Machine
  import opened Frames
  import opened Sums
  import opened Custody
  import opened Keys
  import opened Setting

  // ---- the invariant ----

  function Mint(w: World): Bytes32 {
    Counters(w).mint
  }

  ghost predicate Held(w: World, id: U64)
    requires id in w.escrows
  {
    var e := w.escrows[id];
    var vault := EscrowVault(id);
    && e.escrowId == id && e.payer != e.payee && e.payer.Wallet?
    && vault in w.tokens && w.tokens[vault].owner == EscrowPda(id) && w.tokens[vault].mint == Mint(w)
    && (e.status == Open ==> e.amount <= w.tokens[vault].amount)
  }

  ghost predicate EscrowInv(w: World) {
    && (w.config.None? ==> w.escrows == map[])
    && (forall id: U64 :: id in w.escrows <==> 1 <= id <= Counters(w).escrowCounter)
    && (forall id :: id in w.escrows ==> Held(w, id))
  }

  /** What becomes of an escrow in one step: nothing, unless it is Open and this step settles it. */
  predicate Settles(w: World, i: Instr, id: U64) {
    Accepted(w, i) && ((i.DoRelease? && i.release.escrowId == id) || (i.DoCancel? && i.cancel.escrowId == id))
  }

  /** How a settling instruction leaves an escrow. */
  function Outcome(i: Instr, e: Escrow): EscrowStatus {
    if i.DoCancel? then (if i.cancel.canceller == e.payer then Cancelled else Lapsed) else Released
  }

  lemma ReleaseEffect(w: World, c: ReleaseCall)
    requires ReleaseEscrow(w, c).Ok?
    ensures c.escrowId in w.escrows && w.escrows[c.escrowId].status == Open
    ensures ReleaseEscrow(w, c).value.escrows == w.escrows[c.escrowId := w.escrows[c.escrowId].(status := Released)]
  {
    hide Transfer;
  }

  lemma CancelEffect(w: World, c: CancelCall)
    requires CancelEscrow(w, c).Ok?
    ensures c.escrowId in w.escrows && w.escrows[c.escrowId].status == Open
    ensures var e := w.escrows[c.escrowId];
            CancelEscrow(w, c).value.escrows == w.escrows[c.escrowId := e.(status := if c.canceller == e.payer then Cancelled else Lapsed)]
  {
    hide Transfer;
  }

  lemma CreateEffect(w: World, c: EscrowCall)
    requires CreateEscrow(w, c).Ok?
    ensures w.config.Some? && c.escrowId == Counters(w).escrowCounter + 1 && c.amount > 0 && c.payer != c.payee && c.payer.Wallet?
    ensures CreateEscrow(w, c).value.escrows == w.escrows[c.escrowId := NewEscrow(w, c)]
    ensures Counters(CreateEscrow(w, c).value) == Counters(w).(escrowCounter := c.escrowId) && c.mint == Mint(w)
  {
    hide DebitGate, Transfer, Commit;
  }

  /** An escrow's terms never change, and its status only when it is Open and settled. */
  lemma EscrowEvolves(w: World, i: Instr, id: U64)
    requires EscrowInv(w) && id in w.escrows
    ensures id in Step(w, i).escrows
    ensures Settles(w, i, id) ==> w.escrows[id].status == Open
    ensures Step(w, i).escrows[id] == w.escrows[id].(status := if Settles(w, i, id) then Outcome(i, w.escrows[id]) else w.escrows[id].status)
  {
    hide InitializeConfig, RegisterAgent, SetPaused, IssueAuthority, RevokeAuthority, ExpireAuthority, Pay, AtomicSplit, CreateEscrow, ReleaseEscrow, CancelEscrow,
      SlashBond, CreateOrg, JoinOrg, SetMemberShare, DepositToOrg, OrgSplit, DissolveOrg, ReclaimOrgResidual, CreateReceipt, AdvanceClock, OpenTokenAccount, OutsideTransfer;
    hide Held;
    if !ChangesEscrows(i) {
      EscrowsFrame(w, i);
    } else if Accepted(w, i) {
      match i
      case DoCreateEscrow(c) => CreateEffect(w, c);
      case DoRelease(c) => ReleaseEffect(w, c);
      case DoCancel(c) => CancelEffect(w, c);
    }
  }

  lemma NewEscrowHeld(w: World, i: Instr, id: U64)
    requires EscrowInv(w) && id !in w.escrows && id in Step(w, i).escrows
    ensures Held(Step(w, i), id) && i.DoCreateEscrow? && i.lock.escrowId == id && Step(w, i).escrows[id] == NewEscrow(w, i.lock)
  {
    hide InitializeConfig, RegisterAgent, SetPaused, IssueAuthority, RevokeAuthority, ExpireAuthority, Pay, AtomicSplit, CreateEscrow, ReleaseEscrow, CancelEscrow,
      SlashBond, CreateOrg, JoinOrg, SetMemberShare, DepositToOrg, OrgSplit, DissolveOrg, ReclaimOrgResidual, CreateReceipt, AdvanceClock, OpenTokenAccount, OutsideTransfer;
    hide Kept;
    if !ChangesEscrows(i) {
      EscrowsFrame(w, i);
    } else if Accepted(w, i) {
      match i
      case DoCreateEscrow(c) => CreateEffect(w, c); EscrowTokens(w, c);
      case DoRelease(c) => ReleaseEffect(w, c);
      case DoCancel(c) => CancelEffect(w, c);
    }
  }

  lemma OldEscrowHeld(w: World, i: Instr, id: U64)
    requires EscrowInv(w) && id in w.escrows
    ensures id in Step(w, i).escrows && Held(Step(w, i), id)
  {
    hide Exec, Step, Supply;
    EscrowEvolves(w, i, id);
    StepTokens(w, i);
    MintFrame(w, i);
    OpenerSettles(w, i, id);
    assert Held(w, id);
  }

  /** Only settling an escrow opens its vault. */
  lemma OpenerSettles(w: World, i: Instr, id: U64)
    ensures OpenerOf(i) == Some(EscrowPda(id)) ==> Settles(w, i, id) || Step(w, i) == w
  {
    hide Exec;
    if Accepted(w, i) && SignerOf(i).Some? {
      SignedByWallet(w, i);
    }
  }

  lemma StepKeepsEscrows(w: World, i: Instr)
    requires EscrowInv(w)
    ensures EscrowInv(Step(w, i))
  {
    hide Exec, Step, Held;
    forall id | id in Step(w, i).escrows
      ensures Held(Step(w, i), id)
    {
      if id in w.escrows {
        OldEscrowHeld(w, i, id);
      } else {
        NewEscrowHeld(w, i, id);
      }
    }
    EscrowIdsKept(w, i);
  }

  lemma EscrowIdsKept(w: World, i: Instr)
    requires EscrowInv(w)
    ensures forall id: U64 :: id in Step(w, i).escrows <==> 1 <= id <= Counters(Step(w, i)).escrowCounter
    ensures Step(w, i).config.None? ==> Step(w, i).escrows == map[]
  {
    hide InitializeConfig, RegisterAgent, SetPaused, IssueAuthority, RevokeAuthority, ExpireAuthority, Pay, AtomicSplit, CreateEscrow, ReleaseEscrow, CancelEscrow,
      SlashBond, CreateOrg, JoinOrg, SetMemberShare, DepositToOrg, OrgSplit, DissolveOrg, ReclaimOrgResidual, CreateReceipt, AdvanceClock, OpenTokenAccount, OutsideTransfer;
    hide Held;
    if w.config.Some? {
      MintFrame(w, i);
    }
    if !i.DoCreateEscrow? {
      EscrowCounterFrame(w, i);
    }
    if !ChangesEscrows(i) {
      EscrowsFrame(w, i);
    } else if Accepted(w, i) {
      match i
      case DoCreateEscrow(c) => CreateEffect(w, c);
      case DoRelease(c) => ReleaseEffect(w, c);
      case DoCancel(c) => CancelEffect(w, c);
    }
  }

  lemma {:induction false} RunKeepsEscrows(w: World, trace: seq<Instr>)
    requires EscrowInv(w) && KeyInv(w)
    ensures EscrowInv(Run(w, trace)) && KeyInv(Run(w, trace))
  {
    hide Exec, Step, EscrowInv, KeyInv;
    if trace != [] {
      RunKeepsEscrows(w, trace[..|trace| - 1]);
      StepKeepsEscrows(Run(w, trace[..|trace| - 1]), trace[|trace| - 1]);
      StepKeepsKeys(Run(w, trace[..|trace| - 1]), trace[|trace| - 1]);
    }
  }

  // ---- settled once ----

  function Settlements(w: World, trace: seq<Instr>, id: U64): nat {
    if trace == [] then 0
    else
      var before := trace[..|trace| - 1];
      Settlements(w, before, id) + if Settles(Run(w, before), trace[|trace| - 1], id) then 1 else 0
  }

  /** What the run made of an escrow: how the last instruction that settled it left it. */
  function Fate(w: World, trace: seq<Instr>, id: U64): EscrowStatus {
    if trace == [] then Open
    else
      var before := trace[..|trace| - 1];
      var mid := Run(w, before);
      if Settles(mid, trace[|trace| - 1], id) && id in mid.escrows then Outcome(trace[|trace| - 1], mid.escrows[id])
      else Fate(w, before, id)
  }

  /** Over any run an escrow is settled at most once, and its status tells whether and how: Released by a
      release, Cancelled by a cancel of its payer, expired by anybody else's; meanwhile the vault of every
      Open one holds at least the amount. */
  lemma {:induction false} SettledOnce(start: World, trace: seq<Instr>, id: U64)
    requires Init(start)
    ensures var w := Run(start, trace);
            && EscrowInv(w)
            && Settlements(start, trace, id) == (if id in w.escrows && w.escrows[id].status != Open then 1 else 0)
            && (if id in w.escrows then w.escrows[id].status == Fate(start, trace, id) else Fate(start, trace, id) == Open)
            && (id in w.escrows && w.escrows[id].status == Open ==> w.tokens[EscrowVault(id)].amount >= w.escrows[id].amount)
  {
    hide Exec, Step, Settles;
    RunKeepsEscrows(start, trace);
    if trace != [] {
      var mid := Run(start, trace[..|trace| - 1]);
      var i := trace[|trace| - 1];
      SettledOnce(start, trace[..|trace| - 1], id);
      if id in mid.escrows {
        EscrowEvolves(mid, i, id);
      } else {
        UnbornUnsettled(mid, i, id);
      }
    }
    if id in Run(start, trace).escrows {
      assert Held(Run(start, trace), id);
    }
  }

  lemma UnbornUnsettled(w: World, i: Instr, id: U64)
    requires EscrowInv(w) && id !in w.escrows
    ensures !Settles(w, i, id)
    ensures id in Step(w, i).escrows ==> Step(w, i).escrows[id].status == Open
  {
    hide InitializeConfig, RegisterAgent, SetPaused, IssueAuthority, RevokeAuthority, ExpireAuthority, Pay, AtomicSplit, CreateEscrow, ReleaseEscrow, CancelEscrow,
      SlashBond, CreateOrg, JoinOrg, SetMemberShare, DepositToOrg, OrgSplit, DissolveOrg, ReclaimOrgResidual, CreateReceipt, AdvanceClock, OpenTokenAccount, OutsideTransfer;
    if id in Step(w, i).escrows {
      NewEscrowHeld(w, i, id);
    }
    if Accepted(w, i) {
      match i
      case DoRelease(c) => ReleaseEffect(w, c);
      case DoCancel(c) => CancelEffect(w, c);
      case _ =>
    }
  }

  /** A release pays exactly the amount out of the vault into an account of the payee. */
  lemma ReleasePaysPayee(w: World, c: ReleaseCall)
    requires EscrowInv(w) && KeyInv(w) && ReleaseEscrow(w, c).Ok?
    ensures var e := w.escrows[c.escrowId];
            && Moved(w.tokens, ReleaseEscrow(w, c).value.tokens, EscrowVault(c.escrowId), c.payeeToken, e.amount)
            && w.tokens[c.payeeToken].owner == e.payee && w.tokens[c.payeeToken].mint == Mint(w)
  {
    assert Held(w, c.escrowId);
  }

  /** A cancel gives exactly the amount back to an account of the payer. */
  lemma CancelPaysPayer(w: World, c: CancelCall)
    requires EscrowInv(w) && CancelEscrow(w, c).Ok?
    ensures var e := w.escrows[c.escrowId];
            && Moved(w.tokens, CancelEscrow(w, c).value.tokens, EscrowVault(c.escrowId), c.payerToken, e.amount)
            && w.tokens[c.payerToken].owner == e.payer && w.tokens[c.payerToken].mint == Mint(w)
  {
    assert Held(w, c.escrowId);
  }

  // ---- release against third-party cancel ----

  /** Anyone may cancel. */
  predicate AnyoneMayCancel(e: Escrow, slot: U64) {
    e.status == Open && e.expirySlot != 0 && slot > e.expirySlot
  }

  /** When some proof lets an escrow be released. */
  ghost predicate ReleaseWindow(e: Escrow, slot: U64) {
    && e.status == Open
    && match e.condition
       case Immediate => e.expirySlot == 0 || slot <= e.expirySlot
       case OnReceipt => e.expirySlot == 0 || slot <= e.expirySlot
       case OnTimeout => e.expirySlot != 0 && slot >= e.expirySlot
       case _ => false
  }

  /** A receipt escrow asks for a proof whose first 32 bytes are those it was locked with. */
  ghost predicate Proves(e: Escrow, proof: Bytes64) {
    e.condition == OnReceipt ==> proof.head == e.conditionData.head
  }

  /** A release with everything in order: accounts of the right owners in the program's mint, counters with
      room, and a token program that lets the tokens go. */
  ghost predicate ReleaseReady(w: World, c: ReleaseCall) {
    && c.escrowId in w.escrows && c.releaser.Wallet? && c.mint == Mint(w) && c.accept
    && var e := w.escrows[c.escrowId];
       && c.payeeToken in w.tokens && w.tokens[c.payeeToken].owner == e.payee && w.tokens[c.payeeToken].mint == Mint(w)
       && e.payer in w.cris && w.cris[e.payer].successfulCommitments + 1 < U64_END && w.cris[e.payer].volumeSettled + e.amount < U64_END
       && e.payee in w.cris && w.cris[e.payee].successfulSettlements + 1 < U64_END && w.cris[e.payee].volumeSettled + e.amount < U64_END
  }

  /** Such a release, whoever signs it, is accepted if and only if the release window is open and the proof is
      the one asked for; so some proof makes it accepted if and only if the window is open; and no release is
      ever accepted outside that. */
  lemma ReleaseExact(w: World, c: ReleaseCall)
    requires EscrowInv(w) && KeyInv(w) && c.escrowId in w.escrows
    ensures var e := w.escrows[c.escrowId];
            ReleaseEscrow(w, c).Ok? ==> ReleaseWindow(e, w.slot) && Proves(e, c.proof)
    ensures ReleaseReady(w, c) && Supply(w.tokens, Mint(w)) < U64_END ==>
      var e := w.escrows[c.escrowId];
      && (ReleaseEscrow(w, c).Ok? <==> ReleaseWindow(e, w.slot) && Proves(e, c.proof))
      && ((exists proof :: ReleaseEscrow(w, c.(proof := proof)).Ok?) <==> ReleaseWindow(e, w.slot))
  {
    hide ReleaseEscrow, EscrowInv, KeyInv, Supply, ReleaseWindow;
    var e := w.escrows[c.escrowId];
    ReleaseByProof(w, c);
    if ReleaseReady(w, c) && Supply(w.tokens, Mint(w)) < U64_END {
      forall proof
        ensures ReleaseEscrow(w, c.(proof := proof)).Ok? <==> ReleaseWindow(e, w.slot) && Proves(e, proof)
      {
        ReleaseByProof(w, c.(proof := proof));
      }
      assert Proves(e, e.conditionData);
      assert ReleaseEscrow(w, c.(proof := e.conditionData)).Ok? <==> ReleaseWindow(e, w.slot);
    }
  }

  lemma ReleaseByProof(w: World, c: ReleaseCall)
    requires EscrowInv(w) && KeyInv(w) && c.escrowId in w.escrows
    ensures var e := w.escrows[c.escrowId];
            ReleaseEscrow(w, c).Ok? ==> ReleaseWindow(e, w.slot) && Proves(e, c.proof)
    ensures ReleaseReady(w, c) && Supply(w.tokens, Mint(w)) < U64_END ==>
      var e := w.escrows[c.escrowId];
      (ReleaseEscrow(w, c).Ok? <==> ReleaseWindow(e, w.slot) && Proves(e, c.proof))
  {
    assert Held(w, c.escrowId);
    if ReleaseReady(w, c) {
      TotalCovers(Balances(w.tokens, Mint(w)), EscrowVault(c.escrowId), c.payeeToken);
    }
    hide Supply;
  }

  /** A cancel with everything in order. */
  ghost predicate CancelReady(w: World, c: CancelCall) {
    && c.escrowId in w.escrows && c.canceller.Wallet? && c.mint == Mint(w) && c.accept
    && var e := w.escrows[c.escrowId];
       && c.payerToken in w.tokens && w.tokens[c.payerToken].owner == e.payer && w.tokens[c.payerToken].mint == Mint(w)
       && e.payer in w.cris && w.cris[e.payer].failedCommitments + 1 < U64_END
  }

  /** A stranger's cancel is accepted only once anyone may cancel, and then whenever everything is in order. */
  lemma StrangerCancelExact(w: World, c: CancelCall)
    requires EscrowInv(w) && KeyInv(w) && c.escrowId in w.escrows && c.canceller != w.escrows[c.escrowId].payer
    ensures CancelEscrow(w, c).Ok? ==> AnyoneMayCancel(w.escrows[c.escrowId], w.slot)
    ensures CancelReady(w, c) && Supply(w.tokens, Mint(w)) < U64_END ==>
      (CancelEscrow(w, c).Ok? <==> AnyoneMayCancel(w.escrows[c.escrowId], w.slot))
  {
    assert Held(w, c.escrowId);
    if CancelReady(w, c) {
      TotalCovers(Balances(w.tokens, Mint(w)), EscrowVault(c.escrowId), c.payerToken);
    }
    hide Supply;
  }

  /** Of a release and a stranger's cancel of one escrow, both in order, both are accepted if and only if the
      escrow is an Open TIMEOUT one past its slot. */
  lemma BothAcceptedExactly(w: World, r: ReleaseCall, c: CancelCall)
    requires EscrowInv(w) && KeyInv(w) && Supply(w.tokens, Mint(w)) < U64_END
    requires ReleaseReady(w, r) && CancelReady(w, c) && r.escrowId == c.escrowId && c.canceller != w.escrows[c.escrowId].payer
    ensures var e := w.escrows[c.escrowId];
            ReleaseEscrow(w, r).Ok? && CancelEscrow(w, c).Ok? <==> e.status == Open && e.condition == OnTimeout && e.expirySlot != 0 && w.slot > e.expirySlot
  {
    hide ReleaseEscrow, CancelEscrow, EscrowInv, KeyInv, Supply;
    ReleaseExact(w, r);
    StrangerCancelExact(w, c);
  }

  lemma {:induction false} LaterSlot(w: World, trace: seq<Instr>)
    ensures w.slot <= Run(w, trace).slot
  {
    hide Exec, Step;
    if trace != [] {
      LaterSlot(w, trace[..|trace| - 1]);
      ClockFrame(Run(w, trace[..|trace| - 1]), trace[|trace| - 1]);
    }
  }

  lemma {:induction false} TermsKept(w: World, trace: seq<Instr>, id: U64)
    requires EscrowInv(w) && KeyInv(w) && id in w.escrows
    ensures var A := Run(w, trace).escrows;
            id in A && A[id] == w.escrows[id].(status := A[id].status) && (w.escrows[id].status != Open ==> A[id] == w.escrows[id])
  {
    hide Exec, Step, EscrowInv, KeyInv, Settles;
    if trace != [] {
      TermsKept(w, trace[..|trace| - 1], id);
      RunKeepsEscrows(w, trace[..|trace| - 1]);
      EscrowEvolves(Run(w, trace[..|trace| - 1]), trace[|trace| - 1], id);
    }
  }

  /** Once third parties may cancel an escrow that is not a TIMEOUT one, no release of it is ever
      accepted again, by anybody, with any proof, whatever runs in between. */
  lemma NoReleaseAfterLapse(w: World, trace: seq<Instr>, c: ReleaseCall)
    requires EscrowInv(w) && KeyInv(w) && c.escrowId in w.escrows
    requires w.escrows[c.escrowId].condition != OnTimeout && AnyoneMayCancel(w.escrows[c.escrowId], w.slot)
    ensures ReleaseEscrow(Run(w, trace), c).Err?
  {
    hide Exec, Transfer;
    LaterSlot(w, trace);
    TermsKept(w, trace, c.escrowId);
  }

  // ---- failed commitments ----

  ghost function FailedBy(escrows: map<U64, Escrow>, payer: Pubkey): set<U64> {
    set id | id in escrows && escrows[id].payer == payer && escrows[id].status in {Cancelled, Lapsed}
  }

  ghost function FailedCount(w: World, k: Pubkey): nat {
    if k in w.cris then w.cris[k].failedCommitments else 0
  }

  /** What cancelling does to the count of failed commitments; no other step touches it. */
  lemma FailedFrame(w: World, i: Instr, k: Pubkey)
    ensures !i.DoCancel? ==> FailedCount(Step(w, i), k) == FailedCount(w, k)
  {
    hide InitializeConfig, RegisterAgent, SetPaused, IssueAuthority, RevokeAuthority, ExpireAuthority, Pay, AtomicSplit, CreateEscrow, ReleaseEscrow, CancelEscrow,
      SlashBond, CreateOrg, JoinOrg, SetMemberShare, DepositToOrg, OrgSplit, DissolveOrg, ReclaimOrgResidual, CreateReceipt, AdvanceClock, OpenTokenAccount, OutsideTransfer;
    if !ChangesCris(i) {
      CrisFrame(w, i);
    } else if Accepted(w, i) {
      match i
      case DoRegisterAgent(agent) => RegisterFailed(w, agent, k);
      case DoPay(c) => PayFailed(w, c, k);
      case DoSplit(c) => SplitFailed(w, c, k);
      case DoRelease(c) => ReleaseFailed(w, c, k);
      case DoReceipt(c) => ReceiptFailed(w, c, k);
      case _ =>
    }
  }

  lemma RegisterFailed(w: World, agent: Pubkey, k: Pubkey)
    requires RegisterAgent(w, agent).Ok?
    ensures FailedCount(RegisterAgent(w, agent).value, k) == FailedCount(w, k)
  {
  }

  lemma PayFailed(w: World, c: PayCall, k: Pubkey)
    requires Pay(w, c).Ok?
    ensures FailedCount(Pay(w, c).value, k) == FailedCount(w, k)
  {
    hide DebitGate, Transfer, Commit;
  }

  lemma SplitFailed(w: World, c: SplitCall, k: Pubkey)
    requires AtomicSplit(w, c).Ok?
    ensures FailedCount(AtomicSplit(w, c).value, k) == FailedCount(w, k)
  {
    hide DebitGate, SplitTransfers, Commit, SplitTotal;
  }

  lemma ReleaseFailed(w: World, c: ReleaseCall, k: Pubkey)
    requires ReleaseEscrow(w, c).Ok?
    ensures FailedCount(ReleaseEscrow(w, c).value, k) == FailedCount(w, k)
  {
    hide Transfer, ReleaseRefusal;
  }

  lemma ReceiptFailed(w: World, c: ReceiptCall, k: Pubkey)
    requires CreateReceipt(w, c).Ok?
    ensures FailedCount(CreateReceipt(w, c).value, k) == FailedCount(w, k)
  {
    hide Preimage;
  }

  lemma CancelFailed(w: World, c: CancelCall, k: Pubkey)
    requires CancelEscrow(w, c).Ok? && c.escrowId in w.escrows
    ensures FailedCount(CancelEscrow(w, c).value, k) == FailedCount(w, k) + if k == w.escrows[c.escrowId].payer then 1 else 0
    ensures w.escrows[c.escrowId].payer in w.cris
  {
    hide Transfer;
  }

  ghost predicate FailedInv(w: World, k: Pubkey) {
    |FailedBy(w.escrows, k)| == FailedCount(w, k)
  }

  lemma StepKeepsFailed(w: World, i: Instr, k: Pubkey)
    requires EscrowInv(w) && KeyInv(w) && FailedInv(w, k)
    ensures FailedInv(Step(w, i), k)
  {
    hide InitializeConfig, RegisterAgent, SetPaused, IssueAuthority, RevokeAuthority, ExpireAuthority, Pay, AtomicSplit, CreateEscrow, ReleaseEscrow, CancelEscrow,
      SlashBond, CreateOrg, JoinOrg, SetMemberShare, DepositToOrg, OrgSplit, DissolveOrg, ReclaimOrgResidual, CreateReceipt, AdvanceClock, OpenTokenAccount, OutsideTransfer;
    hide FailedBy, FailedCount, Held;
    if !i.DoCancel? {
      FailedFrame(w, i, k);
    }
    if !ChangesEscrows(i) {
      EscrowsFrame(w, i);
    } else if Accepted(w, i) {
      match i
      case DoCreateEscrow(c) => CreateEffect(w, c);
        FailedByPut(w.escrows, c.escrowId, NewEscrow(w, c), k);
      case DoRelease(c) => ReleaseEffect(w, c);
        FailedByPut(w.escrows, c.escrowId, Step(w, i).escrows[c.escrowId], k);
      case DoCancel(c) => CancelEffect(w, c); CancelFailed(w, c, k);
        FailedByPut(w.escrows, c.escrowId, Step(w, i).escrows[c.escrowId], k);
    }
  }

  /** Writing one escrow that was not a failed one before. */
  lemma FailedByPut(escrows: map<U64, Escrow>, id: U64, e: Escrow, k: Pubkey)
    requires id in escrows ==> escrows[id].status == Open
    ensures |FailedBy(escrows[id := e], k)| == |FailedBy(escrows, k)| + if e.payer == k && e.status in {Cancelled, Lapsed} then 1 else 0
  {
    assert FailedBy(escrows[id := e], k) == FailedBy(escrows, k) + if e.payer == k && e.status in {Cancelled, Lapsed} then {id} else {};
  }

  /** In every reachable state an agent's failed commitments are its escrows that were cancelled or lapsed. */
  lemma {:induction false} FailedCommitmentsCount(start: World, trace: seq<Instr>, k: Pubkey)
    requires Init(start)
    ensures |FailedBy(Run(start, trace).escrows, k)| == FailedCount(Run(start, trace), k)
  {
    hide Exec, Step;
    if trace == [] {
      assert FailedBy(start.escrows, k) == {};
    } else {
      FailedCommitmentsCount(start, trace[..|trace| - 1], k);
      RunKeepsEscrows(start, trace[..|trace| - 1]);
      StepKeepsFailed(Run(start, trace[..|trace| - 1]), trace[|trace| - 1], k);
    }
  }

  lemma {:induction false} DenseSize(ids: set<U64>, n: U64)
    requires forall id :: id in ids <==> 1 <= id <= n
    ensures |ids| == n
    decreases n
  {
    if n > 0 {
      DenseSize(ids - {n}, n - 1);
    } else {
      assert ids == {};
    }
  }

  lemma {:induction false} SubsetSize<T>(a: set<T>, b: set<T>)
    requires a <= b
    ensures |a| <= |b|
  {
    if a != {} {
      var x :| x in a;
      SubsetSize(a - {x}, b - {x});
    }
  }

  /** An Open escrow leaves room for one more failed commitment. */
  lemma RoomForFailure(w: World, id: U64)
    requires EscrowInv(w) && id in w.escrows && w.escrows[id].status == Open
    ensures |FailedBy(w.escrows, w.escrows[id].payer)| + 1 < U64_END
  {
    var n := Counters(w).escrowCounter;
    DenseSize(w.escrows.Keys, n);
    SubsetSize(FailedBy(w.escrows, w.escrows[id].payer), w.escrows.Keys - {id});
  }

  /** The payer can always get an Open escrow back: whatever the condition, the expiry, the clock and
      the pause flag, a cancel signed by the payer into an account of its own is accepted, provided the
      payer is registered and the token program lets the tokens go. */
  lemma PayerCanCancel(start: World, trace: seq<Instr>, id: U64, to: Address)
    requires Init(start) && forall m :: Supply(start.tokens, m) < U64_END
    requires var w := Run(start, trace);
             && id in w.escrows && w.escrows[id].status == Open && w.escrows[id].payer in w.cris
             && to in w.tokens && w.tokens[to].owner == w.escrows[id].payer && w.tokens[to].mint == Mint(w)
    ensures var w := Run(start, trace);
            Accepted(w, DoCancel(CancelCall(w.escrows[id].payer, id, to, Mint(w), true)))
  {
    hide Exec, Step, Supply;
    var w := Run(start, trace);
    RunKeepsEscrows(start, trace);
    FailedCommitmentsCount(start, trace, w.escrows[id].payer);
    SupplyConserved(start, trace, Mint(w));
    RoomForFailure(w, id);
    CancelGoesThrough(w, id, to);
    CancelIsStep(w, CancelCall(w.escrows[id].payer, id, to, Mint(w), true));
  }

  lemma CancelIsStep(w: World, c: CancelCall)
    requires CancelEscrow(w, c).Ok?
    ensures Accepted(w, DoCancel(c))
  {
  }

  lemma CancelGoesThrough(w: World, id: U64, to: Address)
    requires EscrowInv(w) && KeyInv(w) && Supply(w.tokens, Mint(w)) < U64_END
    requires id in w.escrows && w.escrows[id].status == Open && w.escrows[id].payer in w.cris
    requires to in w.tokens && w.tokens[to].owner == w.escrows[id].payer && w.tokens[to].mint == Mint(w)
    requires w.cris[w.escrows[id].payer].failedCommitments + 1 < U64_END
    ensures CancelEscrow(w, CancelCall(w.escrows[id].payer, id, to, Mint(w), true)).Ok?
  {
    assert Held(w, id);
    TotalCovers(Balances(w.tokens, Mint(w)), EscrowVault(id), to);
  }

  // ---- a run that leaves both open ----

  function LockCall(): EscrowCall {
    EscrowCall(ALICE, BOB, None, Plain(1), MINT, 1, 10, 0, 0, OnTimeout, Bytes64(0, 0), 5, true)
  }

  function Locked(b: WriteBack): World {
    var w := Registered(b);
    w.(config := Some(w.config.value.(escrowCounter := 1)),
       escrows := w.escrows[1 := Escrow(1, ALICE, BOB, 10, 0, 0, OnTimeout, Bytes64(0, 0), Open, 0, 5)],
       tokens := w.tokens[EscrowVault(1) := TokenAccount(EscrowPda(1), MINT, 0)]
                         [Plain(1) := TokenAccount(ALICE, MINT, 90)][EscrowVault(1) := TokenAccount(EscrowPda(1), MINT, 10)])
  }

  function Lapsing(b: WriteBack): World {
    Locked(b).(slot := 6)
  }

  lemma Locking(b: WriteBack)
    ensures Step(Registered(b), DoCreateEscrow(LockCall())) == Locked(b)
  {
    var w, c := Registered(b), LockCall();
    assert EscrowAccounts(w, c).None?;
    assert Transfer(WithVault(w.tokens, c), Plain(1), EscrowVault(1), MINT, ALICE, 10, true) == Ok(Locked(b).tokens);
  }

  lemma LapsingRun(b: WriteBack)
    ensures Init(Beginning(b)) && Run(Run(Beginning(b), Registrations()), [DoCreateEscrow(LockCall()), Clock(6)]) == Lapsing(b)
  {
    Registering(b);
    RunOfTwo(Registered(b), DoCreateEscrow(LockCall()), Clock(6));
    hide Run, Step;
    Locking(b);
    Waiting(b);
  }

  lemma Waiting(b: WriteBack)
    ensures Step(Locked(b), Clock(6)) == Lapsing(b)
  {
  }

  function AnyonesRelease(): ReleaseCall {
    ReleaseCall(Wallet(3), 1, Plain(2), MINT, Bytes64(0, 0), true)
  }

  function AnyonesCancel(): CancelCall {
    CancelCall(Wallet(3), 1, Plain(1), MINT, true)
  }

  /** At the end of this run anybody may release the escrow to its payee and anybody may give it back to its
      payer; whichever comes first, the other is refused. */
  lemma EitherMayWin(b: WriteBack)
    ensures Init(Beginning(b)) && Run(Run(Beginning(b), Registrations()), [DoCreateEscrow(LockCall()), Clock(6)]) == Lapsing(b)
    ensures ReleaseEscrow(Lapsing(b), AnyonesRelease()).Ok? && CancelEscrow(Lapsing(b), AnyonesCancel()).Ok?
    ensures CancelEscrow(ReleaseEscrow(Lapsing(b), AnyonesRelease()).value, AnyonesCancel()).Err?
    ensures ReleaseEscrow(CancelEscrow(Lapsing(b), AnyonesCancel()).value, AnyonesRelease()).Err?
  {
    hide Run, ReleaseEscrow, CancelEscrow;
    LapsingRun(b);
    ReleaseFirst(b);
    CancelFirst(b);
  }

  lemma ReleaseFirst(b: WriteBack)
    ensures ReleaseEscrow(Lapsing(b), AnyonesRelease()).Ok?
    ensures CancelEscrow(ReleaseEscrow(Lapsing(b), AnyonesRelease()).value, AnyonesCancel()).Err?
  {
    var w, c := Lapsing(b), AnyonesRelease();
    assert ReleaseAccounts(w, c).None?;
    assert Transfer(w.tokens, EscrowVault(1), Plain(2), MINT, EscrowPda(1), 10, true).Ok?;
  }

  lemma CancelFirst(b: WriteBack)
    ensures CancelEscrow(Lapsing(b), AnyonesCancel()).Ok?
    ensures ReleaseEscrow(CancelEscrow(Lapsing(b), AnyonesCancel()).value, AnyonesRelease()).Err?
  {
    var w, c := Lapsing(b), AnyonesCancel();
    assert CancelAccounts(w, c).None?;
    assert Transfer(w.tokens, EscrowVault(1), Plain(1), MINT, EscrowPda(1), 10, true).Ok?;
  }
}
