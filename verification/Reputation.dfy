/** Double-entry reputation: what the counters of all agents add up to over a run. */
module Reputation {
  import opened Types
  import opened TokenLedger
  import opened AuthoritySpec
  import opened SpendSpec
  import opened EscrowSpec
  import opened OrgSpec
  import opened ReceiptSpec
  import opened AgentSpec
  import opened Machine
  import opened Frames
  import opened SplitSimulation
  import opened Keys
  import opened Sums
  import opened Setting

  type Cris = map<Pubkey, Cri>

  datatype Counter = Volume | Settlements | Commitments | Receipts

  function Read(c: Cri, what: Counter): nat {
    match what
    case Volume => c.volumeSettled
    case Settlements => c.successfulSettlements
    case Commitments => c.successfulCommitments
    case Receipts => c.receiptCount
  }

  ghost function Readings(cris: Cris, what: Counter): map<Pubkey, nat> {
    map k | k in cris :: Read(cris[k], what)
  }

  /** A counter summed over all agents. */
  ghost function Sum(cris: Cris, what: Counter): nat {
    Total(Readings(cris, what))
  }

  lemma SumUpdate(cris: Cris, k: Pubkey, c: Cri, what: Counter)
    ensures Sum(cris[k := c], what) == Sum(cris, what) + Read(c, what) - if k in cris then Read(cris[k], what) else 0
  {
    assert Readings(cris[k := c], what) == Readings(cris, what)[k := Read(c, what)];
    TotalUpdate(Readings(cris, what), k, Read(c, what));
  }

  // ---- what one instruction settles ----

  /** The tokens that change hands for good between two agents. */
  function Settled(w: World, i: Instr): nat {
    if !Accepted(w, i) then 0
    else match i
      case DoPay(c) => c.amount
      case DoSplit(c) => if SplitTotal(c.amounts).Ok? then SplitTotal(c.amounts).value else 0
      case DoRelease(c) => if c.escrowId in w.escrows then w.escrows[c.escrowId].amount else 0
      case _ => 0
  }

  /** How many payees it pays. */
  function Legs(w: World, i: Instr): nat {
    if !Accepted(w, i) then 0
    else match i
      case DoPay(_) => 1
      case DoSplit(c) => |c.amounts|
      case DoRelease(_) => 1
      case _ => 0
  }

  /** What it should add to the sum of a counter: volume twice, once for each side. */
  function Flow(w: World, i: Instr, what: Counter): nat {
    match what
    case Volume => 2 * Settled(w, i)
    case Settlements => Legs(w, i)
    case Commitments => if Legs(w, i) > 0 then 1 else 0
    case Receipts => if Accepted(w, i) && i.DoReceipt? then 1 else 0
  }

  /** No split, or one whose second reputation account does not undo what the other two have to gain
      in this counter: repeating the payer loses commitments, repeating payee A settlements, and
      either loses volume. */
  predicate Clean(i: Instr, what: Counter) {
    i.DoSplit? && i.split.criB.Some? ==>
      match what
      case Volume => i.split.criB.value != i.split.payer && i.split.criB.value != i.split.payeeA
      case Settlements => i.split.criB.value != i.split.payeeA
      case Commitments => i.split.criB.value != i.split.payer
      case Receipts => true
  }

  ghost predicate Inv(w: World) {
    && KeyInv(w)
    && forall id :: id in w.escrows ==> w.escrows[id].payer != w.escrows[id].payee
  }

  /** One settling instruction: its amount on both sides, its payees, and itself. */
  function Counts(what: Counter, amount: nat, legs: nat): nat {
    match what
    case Volume => 2 * amount
    case Settlements => legs
    case Commitments => 1
    case Receipts => 0
  }

  lemma PayFlows(w: World, c: PayCall, what: Counter)
    requires Inv(w) && Pay(w, c).Ok?
    ensures Sum(Pay(w, c).value.cris, what) == Sum(w.cris, what) + Counts(what, c.amount, 1)
  {
    hide DebitGate, Transfer, Commit, Sum;
    var p, q := Commitment(w.cris[c.payer], c.amount, w.slot).value, Settlement(w.cris[c.payee], c.amount, w.slot).value;
    SumUpdate(w.cris, c.payer, p, what);
    SumUpdate(w.cris[c.payer := p], c.payee, q, what);
  }

  lemma ReleaseFlows(w: World, c: ReleaseCall, what: Counter)
    requires Inv(w) && ReleaseEscrow(w, c).Ok?
    ensures Sum(ReleaseEscrow(w, c).value.cris, what) == Sum(w.cris, what) + Counts(what, w.escrows[c.escrowId].amount, 1)
  {
    hide Transfer, ReleaseRefusal, Sum;
    var e := w.escrows[c.escrowId];
    var p, q := Commitment(w.cris[e.payer], e.amount, w.slot).value, Settlement(w.cris[e.payee], e.amount, w.slot).value;
    SumUpdate(w.cris, e.payer, p, what);
    SumUpdate(w.cris[e.payer := p], e.payee, q, what);
  }

  lemma CancelFlows(w: World, c: CancelCall, what: Counter)
    requires Inv(w) && CancelEscrow(w, c).Ok?
    ensures Sum(CancelEscrow(w, c).value.cris, what) == Sum(w.cris, what)
  {
    hide Transfer, Sum;
    var payer := w.escrows[c.escrowId].payer;
    SumUpdate(w.cris, payer, CancelEscrow(w, c).value.cris[payer], what);
  }

  lemma ReceiptFlows(w: World, c: ReceiptCall, what: Counter)
    requires Inv(w) && CreateReceipt(w, c).Ok?
    ensures Sum(CreateReceipt(w, c).value.cris, what) == Sum(w.cris, what) + if what == Receipts then 1 else 0
  {
    hide Preimage, Sum;
    SumUpdate(w.cris, c.actor, CreateReceipt(w, c).value.cris[c.actor], what);
  }

  lemma RegisterFlows(w: World, agent: Pubkey, what: Counter)
    requires Inv(w) && RegisterAgent(w, agent).Ok?
    ensures Sum(RegisterAgent(w, agent).value.cris, what) == Sum(w.cris, what)
  {
    hide Sum;
    SumUpdate(w.cris, agent, RegisterAgent(w, agent).value.cris[agent], what);
  }

  /** The three copies an accepted split writes back, the last one only if it was passed. */
  lemma SplitWrites(w: World, c: SplitCall)
    requires Inv(w) && AtomicSplit(w, c).Ok?
    ensures c.payer in w.cris && c.payeeA in w.cris && c.payer != c.payeeA && SplitArity(c) && SplitTotal(c.amounts).Ok?
    ensures c.criB.Some? ==> c.criB.value in w.cris
    ensures var total := SplitTotal(c.amounts).value;
            && SplitCris(w, c, total).Ok? && SplitCris(w, c, total).value == AtomicSplit(w, c).value.cris
            && Commitment(w.cris[c.payer], total, w.slot).Ok? && Settlement(w.cris[c.payeeA], c.amounts[0], w.slot).Ok?
            && (|c.amounts| == 2 ==> total == c.amounts[0] + c.amounts[1] && c.amounts[0] > 0 && c.amounts[1] > 0)
            && (|c.amounts| == 1 ==> total == c.amounts[0] > 0)
  {
    hide DebitGate, SplitTransfers, Commit;
    if |c.amounts| == 2 {
      TotalOfTwo(c.amounts);
    } else {
      TotalOfOne(c.amounts);
    }
  }

  /** A split never books more than it should, and exactly what it should if and only if no reputation
      account is passed twice that matters to the counter: a repeated account is written back last and
      forgets what its other copy gained. */
  lemma SplitExact(w: World, c: SplitCall, what: Counter)
    requires Inv(w) && AtomicSplit(w, c).Ok?
    ensures SplitTotal(c.amounts).Ok?
    ensures var due := Sum(w.cris, what) + Counts(what, SplitTotal(c.amounts).value, |c.amounts|);
            && Sum(AtomicSplit(w, c).value.cris, what) <= due
            && (Sum(AtomicSplit(w, c).value.cris, what) == due <==> Clean(DoSplit(c), what))
  {
    hide AtomicSplit, Sum, SplitTotal;
    SplitWrites(w, c);
    var total := SplitTotal(c.amounts).value;
    var p, a := Commitment(w.cris[c.payer], total, w.slot).value, Settlement(w.cris[c.payeeA], c.amounts[0], w.slot).value;
    SumUpdate(w.cris, c.payer, p, what);
    var one := w.cris[c.payer := p];
    SumUpdate(one, c.payeeA, a, what);
    var two := one[c.payeeA := a];
    if c.criB.Some? {
      SumUpdate(two, c.criB.value, SplitCris(w, c, total).value[c.criB.value], what);
    }
  }

  lemma SettleFlows(w: World, i: Instr, what: Counter)
    requires Inv(w) && Accepted(w, i) && (i.DoPay? || i.DoRelease?)
    ensures Sum(Step(w, i).cris, what) == Sum(w.cris, what) + Flow(w, i, what)
  {
    hide InitializeConfig, RegisterAgent, SetPaused, IssueAuthority, RevokeAuthority, ExpireAuthority, Pay, AtomicSplit, CreateEscrow, ReleaseEscrow, CancelEscrow, SlashBond,
      CreateOrg, JoinOrg, SetMemberShare, DepositToOrg, OrgSplit, DissolveOrg, ReclaimOrgResidual, CreateReceipt, AdvanceClock, OpenTokenAccount, OutsideTransfer;
    hide Sum, Inv;
    match i
    case DoPay(c) => PayFlows(w, c, what);
    case DoRelease(c) => ReleaseFlows(w, c, what); ReleaseOpen(w, c);
  }

  lemma SplitFlows(w: World, i: Instr, what: Counter)
    requires Inv(w) && Accepted(w, i) && i.DoSplit?
    ensures Sum(Step(w, i).cris, what) <= Sum(w.cris, what) + Flow(w, i, what)
    ensures Sum(Step(w, i).cris, what) == Sum(w.cris, what) + Flow(w, i, what) <==> Clean(i, what)
  {
    hide InitializeConfig, RegisterAgent, SetPaused, IssueAuthority, RevokeAuthority, ExpireAuthority, Pay, AtomicSplit, CreateEscrow, ReleaseEscrow, CancelEscrow, SlashBond,
      CreateOrg, JoinOrg, SetMemberShare, DepositToOrg, OrgSplit, DissolveOrg, ReclaimOrgResidual, CreateReceipt, AdvanceClock, OpenTokenAccount, OutsideTransfer;
    hide Sum, SplitTotal, Inv, Clean;
    SplitExact(w, i.split, what);
    SplitWrites(w, i.split);
  }

  lemma OtherFlows(w: World, i: Instr, what: Counter)
    requires Inv(w) && Accepted(w, i) && (i.DoRegisterAgent? || i.DoCancel? || i.DoReceipt?)
    ensures Sum(Step(w, i).cris, what) == Sum(w.cris, what) + Flow(w, i, what)
  {
    hide InitializeConfig, RegisterAgent, SetPaused, IssueAuthority, RevokeAuthority, ExpireAuthority, Pay, AtomicSplit, CreateEscrow, ReleaseEscrow, CancelEscrow, SlashBond,
      CreateOrg, JoinOrg, SetMemberShare, DepositToOrg, OrgSplit, DissolveOrg, ReclaimOrgResidual, CreateReceipt, AdvanceClock, OpenTokenAccount, OutsideTransfer;
    hide Sum, Inv;
    match i
    case DoRegisterAgent(agent) => RegisterFlows(w, agent, what);
    case DoCancel(c) => CancelFlows(w, c, what);
    case DoReceipt(c) => ReceiptFlows(w, c, what);
  }

  lemma NoFlows(w: World, i: Instr, what: Counter)
    requires !ChangesCris(i) || !Accepted(w, i)
    ensures Sum(Step(w, i).cris, what) == Sum(w.cris, what) + Flow(w, i, what)
  {
    hide Exec, Sum;
    if !ChangesCris(i) {
      CrisFrame(w, i);
    }
  }

  lemma StepFlows(w: World, i: Instr, what: Counter)
    requires Inv(w)
    ensures Sum(Step(w, i).cris, what) <= Sum(w.cris, what) + Flow(w, i, what)
    ensures Sum(Step(w, i).cris, what) == Sum(w.cris, what) + Flow(w, i, what) <==> Clean(i, what) || !Accepted(w, i)
  {
    hide Exec, Step, Sum, Flow, Inv, Accepted;
    if i.DoSplit? && Accepted(w, i) {
      SplitFlows(w, i, what);
    } else if !ChangesCris(i) || !Accepted(w, i) {
      NoFlows(w, i, what);
    } else if i.DoPay? || i.DoRelease? {
      SettleFlows(w, i, what);
    } else {
      OtherFlows(w, i, what);
    }
  }

  lemma ReleaseOpen(w: World, c: ReleaseCall)
    requires ReleaseEscrow(w, c).Ok?
    ensures c.escrowId in w.escrows && w.escrows[c.escrowId].status == Open
  {
    hide Transfer;
  }

  /** Payer and payee of an escrow always differ. */
  lemma StepKeepsParties(w: World, i: Instr, id: U64)
    requires Inv(w) && id in Step(w, i).escrows
    ensures Step(w, i).escrows[id].payer != Step(w, i).escrows[id].payee
  {
    hide InitializeConfig, RegisterAgent, SetPaused, IssueAuthority, RevokeAuthority, ExpireAuthority, Pay, AtomicSplit, SlashBond,
      CreateOrg, JoinOrg, SetMemberShare, DepositToOrg, OrgSplit, DissolveOrg, ReclaimOrgResidual, CreateReceipt, AdvanceClock, OpenTokenAccount, OutsideTransfer;
    hide DebitGate, Transfer, ReleaseRefusal;
    if !ChangesEscrows(i) {
      EscrowsFrame(w, i);
    }
  }

  // ---- whole runs ----

  /** Every accepted split of the run is clean for this counter. */
  ghost predicate CleanRun(w: World, trace: seq<Instr>, what: Counter) {
    trace != [] ==>
      var before := trace[..|trace| - 1];
      CleanRun(w, before, what) && (Accepted(Run(w, before), trace[|trace| - 1]) ==> Clean(trace[|trace| - 1], what))
  }

  function FlowOf(w: World, trace: seq<Instr>, what: Counter): nat {
    if trace == [] then 0
    else
      var before := trace[..|trace| - 1];
      FlowOf(w, before, what) + Flow(Run(w, before), trace[|trace| - 1], what)
  }

  lemma {:induction false} RunKeepsInv(start: World, trace: seq<Instr>)
    requires Init(start)
    ensures Inv(Run(start, trace))
  {
    hide Exec, Step;
    if trace != [] {
      var mid := Run(start, trace[..|trace| - 1]);
      var i := trace[|trace| - 1];
      RunKeepsInv(start, trace[..|trace| - 1]);
      StepKeepsKeys(mid, i);
      forall id | id in Step(mid, i).escrows
        ensures Step(mid, i).escrows[id].payer != Step(mid, i).escrows[id].payee
      {
        StepKeepsParties(mid, i, id);
      }
    }
  }

  /** Over any run, and for each counter: all agents' counters add up to at most what they should (volume
      to twice what was settled, settlements to the payees paid, commitments to the settling instructions,
      receipt counts to the receipts), and to exactly that if and only if no accepted split repeated an
      account that matters to the counter. */
  lemma {:induction false} CountersExact(start: World, trace: seq<Instr>, what: Counter)
    requires Init(start)
    ensures Sum(Run(start, trace).cris, what) <= FlowOf(start, trace, what)
    ensures Sum(Run(start, trace).cris, what) == FlowOf(start, trace, what) <==> CleanRun(start, trace, what)
  {
    hide Exec, Flow, Inv, Clean;
    if trace == [] {
      assert Readings(start.cris, what) == map[];
    } else {
      hide Sum;
      var mid := Run(start, trace[..|trace| - 1]);
      CountersExact(start, trace[..|trace| - 1], what);
      RunKeepsInv(start, trace[..|trace| - 1]);
      StepFlows(mid, trace[|trace| - 1], what);
    }
  }

  lemma {:induction false} CleanForAll(start: World, trace: seq<Instr>, what: Counter)
    requires CleanRun(start, trace, Volume)
    ensures CleanRun(start, trace, what)
  {
    hide Exec, Step;
    if trace != [] {
      CleanForAll(start, trace[..|trace| - 1], what);
    }
  }

  /** So where every accepted split names three different agents, all four counters balance. */
  lemma DoubleEntry(start: World, trace: seq<Instr>, what: Counter)
    requires Init(start) && CleanRun(start, trace, Volume)
    ensures Sum(Run(start, trace).cris, what) == FlowOf(start, trace, what)
  {
    hide Exec, Run, Flow, Sum;
    CleanForAll(start, trace, what);
    CountersExact(start, trace, what);
  }

  // ---- a split that names one payee twice ----

  function ToOnePayeeTwice(): SplitCall {
    SplitCall(ALICE, BOB, Some(BOB), None, Plain(1), Plain(2), Some(Plain(2)), Some(BOB), MINT, 0, [3, 4], 0, true, true)
  }

  lemma TwiceTotal()
    ensures SplitTotal(ToOnePayeeTwice().amounts) == Ok(7)
  {
    var a := ToOnePayeeTwice().amounts;
    assert a[..1] == [3] && [3][..0] == [];
    assert SplitTotal([3]) == Ok(3);
  }

  lemma TwiceIsAccepted(b: WriteBack)
    ensures AtomicSplit(Registered(b), ToOnePayeeTwice()).Ok?
    ensures var n := AtomicSplit(Registered(b), ToOnePayeeTwice()).value;
            && n.cris[BOB].volumeSettled == 4 && n.cris[BOB].successfulSettlements == 1
            && Plain(2) in n.tokens && n.tokens[Plain(2)].amount == 107
  {
    var w, c := Registered(b), ToOnePayeeTwice();
    TwiceTotal();
    assert SplitAccounts(w, c).None?;
    assert SplitTransfers(w.tokens, c).Ok?;
  }

  /** The double entry does fail where an agent is named twice: after this run a payee has been paid 3 and
      4, its account books one settlement and 4, and neither volume nor settlements balance. */
  lemma NamedTwiceForgets(b: WriteBack)
    ensures Init(Beginning(b)) && Run(Beginning(b), Registrations()) == Registered(b)
    ensures AtomicSplit(Registered(b), ToOnePayeeTwice()).Ok?
    ensures var w, n := Registered(b), AtomicSplit(Registered(b), ToOnePayeeTwice()).value;
            && w.tokens[Plain(2)].amount == 100 && Plain(2) in n.tokens && n.tokens[Plain(2)].amount == 107
            && n.cris[BOB].volumeSettled == 4 && n.cris[BOB].successfulSettlements == 1
            && Sum(n.cris, Volume) < Sum(w.cris, Volume) + 2 * 7
            && Sum(n.cris, Settlements) < Sum(w.cris, Settlements) + 2
            && Sum(n.cris, Commitments) == Sum(w.cris, Commitments) + 1
  {
    hide AtomicSplit, Sum, Run;
    Registering(b);
    TwiceIsAccepted(b);
    TwiceTotal();
    SplitExact(Registered(b), ToOnePayeeTwice(), Volume);
    SplitExact(Registered(b), ToOnePayeeTwice(), Settlements);
    SplitExact(Registered(b), ToOnePayeeTwice(), Commitments);
  }
}
