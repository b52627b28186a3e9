/** The authority store over whole runs of the program. */
module AuthorityRuns {
  import opened Types
  import opened TokenLedger
  import opened AuthoritySpec
  import opened SpendSpec
  import opened EscrowSpec
  import opened OrgSpec
  import opened ReceiptSpec
  import opened AgentSpec
  import opened Machine
  import opened Forest
  import opened Frames

  // ---- the category intersection ----

  lemma {:induction false} CommonMeaning(request: seq<Bytes16>, parent: seq<Bytes16>, c: Bytes16)
    ensures c in Common(request, parent) <==> c in request && c in parent
  {
    if request != [] {
      var n := |request| - 1;
      CommonMeaning(request[..n], parent, c);
      assert request == request[..n] + [request[n]];
    }
  }

  /** Unless both sides are constrained and share nothing, which is refused, the list stored for a
      child allows exactly what the request and the parent both allow; and under a constrained
      parent it is never the empty list that would allow everything. */
  lemma NarrowMeaning(request: Categories, parent: Categories)
    ensures var r := Narrow(request, parent);
            var refused := request != [] && parent != [] && r == [];
            && (refused <==> request != [] && parent != [] && forall c :: !(c in request && c in parent))
            && (!refused ==> forall c :: Allows(r, c) <==> Allows(request, c) && Allows(parent, c))
            && (!refused && parent != [] ==> r != [])
            && |r| <= MAX_CATEGORIES
  {
    var r := Narrow(request, parent);
    forall c: Bytes16
      ensures c in Common(request, parent) <==> c in request && c in parent
    {
      CommonMeaning(request, parent, c);
    }
    if request != [] && parent != [] && r != [] {
      assert r[0] in r;
    }
    if request != [] && parent != [] && r == [] {
      assert forall c :: c !in Common(request, parent);
    }
  }

  // ---- every instruction makes a legal move ----

  function Count(w: World): U64 {
    Counters(w).authorityCounter
  }

  ghost predicate ForestInv(w: World) {
    Inv(w.authorities, Count(w))
  }

  function Charge(id: U64, amount: U64): Move {
    if id == 0 then Still else Debited(id, amount)
  }

  /** What an accepted instruction does to the authority store. */
  function MoveOf(w: World, i: Instr): Move {
    if !Accepted(w, i) then Still
    else match i
      case DoIssue(c) =>
        if |c.categories| <= MAX_CATEGORIES && NewAuthority(w, c).Ok? then Issued(c.authorityId, NewAuthority(w, c).value) else Still
      case DoRevoke(c) => Ended(ChildIds(c.children) + {c.authorityId}, Revoked)
      case DoExpire(c) => Ended({c.authorityId}, Expired)
      case DoPay(c) => Charge(c.authorityId, c.amount)
      case DoSplit(c) => if SplitTotal(c.amounts).Ok? then Charge(c.authorityId, SplitTotal(c.amounts).value) else Still
      case DoCreateEscrow(c) => Charge(c.authorityId, c.amount)
      case _ => Still
  }

  lemma GateCharges(w: World, id: U64, acc: Option<U64>, payer: Pubkey, payees: seq<Pubkey>, amount: U64, category: Bytes16, payerToken: Address)
    requires ForestInv(w) && amount > 0
    requires DebitGate(w, id, acc, payer, payees, amount, category, payerToken).Ok?
    ensures var staged := DebitGate(w, id, acc, payer, payees, amount, category, payerToken).value;
            && Legal(w.authorities, Count(w), Charge(id, amount))
            && MovedBy(w.authorities, Charge(id, amount), payer)
            && Commit(w.authorities, id, staged) == Apply(w.authorities, Charge(id, amount))
  {
  }

  lemma IssueMoves(w: World, c: IssueCall)
    requires ForestInv(w) && IssueAuthority(w, c).Ok?
    ensures |c.categories| <= MAX_CATEGORIES && NewAuthority(w, c).Ok?
    ensures var m := Issued(c.authorityId, NewAuthority(w, c).value);
            && Legal(w.authorities, Count(w), m) && MovedBy(w.authorities, m, c.agent)
            && IssueAuthority(w, c).value.authorities == Apply(w.authorities, m)
            && Count(IssueAuthority(w, c).value) == c.authorityId
  {
    var a := NewAuthority(w, c).value;
    if c.parentId != 0 {
      var parent := w.authorities[c.parentId];
      assert WellKept(w.authorities, c.parentAcc.value);
      assert a.categories == Narrow(c.categories, parent.categories);
      NarrowMeaning(c.categories, parent.categories);
      forall k | Allows(a.categories, k)
        ensures Allows(parent.categories, k)
      {
        assert Allows(a.categories, k);
      }
      assert Narrower(a, parent);
    }
  }

  lemma RevokeMoves(w: World, c: RevokeCall)
    requires ForestInv(w) && RevokeAuthority(w, c).Ok?
    ensures var m := Ended(ChildIds(c.children) + {c.authorityId}, Revoked);
            && Legal(w.authorities, Count(w), m) && MovedBy(w.authorities, m, c.agent)
            && RevokeAuthority(w, c).value.authorities == Apply(w.authorities, m)
            && RevokeAuthority(w, c).value.config == w.config
  {
    forall m | m in c.children
      ensures m.id in w.authorities && w.authorities[m.id].agent == c.agent
    {
      assert CascadeChild(w.authorities, c, m);
    }
  }

  lemma ExpireMoves(w: World, c: ExpireCall)
    requires ForestInv(w) && ExpireAuthority(w, c).Ok?
    ensures var m := Ended({c.authorityId}, Expired);
            && Legal(w.authorities, Count(w), m) && MovedBy(w.authorities, m, c.agent)
            && ExpireAuthority(w, c).value.authorities == Apply(w.authorities, m)
            && ExpireAuthority(w, c).value.config == w.config
  {
  }

  lemma PayMoves(w: World, c: PayCall)
    requires ForestInv(w) && Pay(w, c).Ok?
    ensures var m := Charge(c.authorityId, c.amount);
            && Legal(w.authorities, Count(w), m) && MovedBy(w.authorities, m, c.payer)
            && Pay(w, c).value.authorities == Apply(w.authorities, m)
            && Pay(w, c).value.config == w.config
  {
    GateCharges(w, c.authorityId, c.authorityAcc, c.payer, [c.payee], c.amount, c.category, c.payerToken);
  }

  lemma SplitMoves(w: World, c: SplitCall)
    requires ForestInv(w) && AtomicSplit(w, c).Ok?
    ensures SplitTotal(c.amounts).Ok? && SplitTotal(c.amounts).value > 0
    ensures var m := Charge(c.authorityId, SplitTotal(c.amounts).value);
            && Legal(w.authorities, Count(w), m) && MovedBy(w.authorities, m, c.payer)
            && AtomicSplit(w, c).value.authorities == Apply(w.authorities, m)
            && AtomicSplit(w, c).value.config == w.config
  {
    GateCharges(w, c.authorityId, c.authorityAcc, c.payer, SplitPayees(c), SplitTotal(c.amounts).value, c.category, c.payerToken);
  }

  lemma EscrowMoves(w: World, c: EscrowCall)
    requires ForestInv(w) && CreateEscrow(w, c).Ok?
    ensures var m := Charge(c.authorityId, c.amount);
            && Legal(w.authorities, Count(w), m) && MovedBy(w.authorities, m, c.payer)
            && CreateEscrow(w, c).value.authorities == Apply(w.authorities, m)
            && Count(CreateEscrow(w, c).value) == Count(w)
  {
    GateCharges(w, c.authorityId, c.authorityAcc, c.payer, [c.payee], c.amount, c.category, c.payerToken);
  }

  /** One instruction is one legal move, made by its signer. */
  lemma StepMoves(w: World, i: Instr)
    requires ForestInv(w)
    ensures Legal(w.authorities, Count(w), MoveOf(w, i))
    ensures MoveOf(w, i) != Still ==> SignerOf(i).Some? && MovedBy(w.authorities, MoveOf(w, i), SignerOf(i).value)
    ensures Step(w, i).authorities == Apply(w.authorities, MoveOf(w, i))
    ensures Count(Step(w, i)) == if MoveOf(w, i).Issued? then MoveOf(w, i).id else Count(w)
  {
    hide InitializeConfig, RegisterAgent, SetPaused, IssueAuthority, RevokeAuthority, ExpireAuthority, Pay, AtomicSplit, CreateEscrow, ReleaseEscrow, CancelEscrow, SlashBond,
      CreateOrg, JoinOrg, SetMemberShare, DepositToOrg, OrgSplit, DissolveOrg, ReclaimOrgResidual, CreateReceipt, AdvanceClock, OpenTokenAccount, OutsideTransfer;
    if !i.DoIssue? {
      AuthorityCounterFrame(w, i);
    }
    if ChangesAuthorities(i) {
      if Accepted(w, i) {
        match i
        case DoIssue(c) => IssueMoves(w, c);
        case DoRevoke(c) => RevokeMoves(w, c);
        case DoExpire(c) => ExpireMoves(w, c);
        case DoPay(c) => PayMoves(w, c);
        case DoSplit(c) => SplitMoves(w, c);
        case DoCreateEscrow(c) => EscrowMoves(w, c);
      }
    } else {
      AuthoritiesFrame(w, i);
    }
  }

  // ---- whole runs ----

  lemma StepKeepsForest(w: World, i: Instr)
    requires ForestInv(w)
    ensures ForestInv(Step(w, i))
  {
    hide Exec, MoveOf;
    StepMoves(w, i);
    MoveKeepsInv(w.authorities, Count(w), MoveOf(w, i));
  }

  lemma {:induction false} RunKeepsForest(w: World, trace: seq<Instr>)
    requires ForestInv(w)
    ensures ForestInv(Run(w, trace))
  {
    hide Exec;
    if trace != [] {
      RunKeepsForest(w, trace[..|trace| - 1]);
      StepKeepsForest(Run(w, trace[..|trace| - 1]), trace[|trace| - 1]);
    }
  }

  /** In every reachable state ids are dense, every ancestor chain is acyclic and as long as the depth
      says, at most three, and each limit of each ancestor bounds the descendant. */
  lemma ReachableAttenuation(start: World, trace: seq<Instr>, id: U64)
    requires Init(start) && id in Run(start, trace).authorities
    ensures var A := Run(start, trace).authorities;
            && A[id].authorityId == id && 1 <= id <= Count(Run(start, trace))
            && |Ancestors(A, id)| == A[id].depth <= 3
            && forall up | up in Ancestors(A, id) :: up in A && up < id && Narrower(A[id], A[up])
  {
    hide Exec;
    RunKeepsForest(start, trace);
    Attenuation(Run(start, trace).authorities, Count(Run(start, trace)), id);
    assert WellKept(Run(start, trace).authorities, id);
  }

  /** A whole subtree belongs to its root's agent. */
  lemma SubtreeAgent(w: World, root: U64, id: U64)
    requires ForestInv(w) && root in w.authorities && id in Subtree(w.authorities, root)
    ensures id in w.authorities && w.authorities[id].agent == w.authorities[root].agent
  {
    Attenuation(w.authorities, Count(w), id);
  }

  /** What one instruction debits from an authority. */
  function DebitOf(w: World, i: Instr, id: U64): nat {
    match MoveOf(w, i)
    case Debited(other, amount) => if other == id then amount else 0
    case _ => 0
  }

  /** What the accepted payments, splits and escrow locks of a run debited from an authority. */
  function Debits(w: World, trace: seq<Instr>, id: U64): nat {
    if trace == [] then 0
    else
      var before := trace[..|trace| - 1];
      Debits(w, before, id) + DebitOf(Run(w, before), trace[|trace| - 1], id)
  }

  lemma StepDebits(w: World, i: Instr, id: U64)
    requires ForestInv(w)
    ensures id in w.authorities ==> id in Step(w, i).authorities && Step(w, i).authorities[id].spent == w.authorities[id].spent + DebitOf(w, i, id)
    ensures id !in w.authorities ==> DebitOf(w, i, id) == 0 && (id in Step(w, i).authorities ==> Step(w, i).authorities[id].spent == 0)
  {
    hide Exec, MoveOf;
    StepMoves(w, i);
    if id in w.authorities {
      assert WellKept(w.authorities, id);
    }
  }

  /** `spent` is exactly what was debited, never restored by a cancel, and the budget is used up
      exactly when the status says so. */
  lemma {:induction false} SpentIsDebits(start: World, trace: seq<Instr>, id: U64)
    requires Init(start)
    ensures var A := Run(start, trace).authorities;
            if id in A then
              && A[id].spent == Debits(start, trace, id) && A[id].spent <= A[id].maxTotal <= A[id].budget
              && (A[id].status == Exhausted <==> Debits(start, trace, id) == A[id].budget)
            else Debits(start, trace, id) == 0
  {
    hide Exec, MoveOf;
    RunKeepsForest(start, trace);
    if trace != [] {
      var before := trace[..|trace| - 1];
      SpentIsDebits(start, before, id);
      RunKeepsForest(start, before);
      StepDebits(Run(start, before), trace[|trace| - 1], id);
    }
    if id in Run(start, trace).authorities {
      assert WellKept(Run(start, trace).authorities, id);
    }
  }

  /** The category an instruction spends in; 0 if it spends nothing. */
  function CategoryOf(i: Instr): Bytes16 {
    match i
    case DoPay(c) => c.category
    case DoSplit(c) => c.category
    case DoCreateEscrow(c) => c.category
    case _ => 0
  }

  /** The record lets its agent spend in this category now. */
  predicate Usable(w: World, id: U64, signer: Option<Pubkey>, category: Bytes16) {
    && id in w.authorities && signer == Some(w.authorities[id].agent) && Allows(w.authorities[id].categories, category)
    && (w.authorities[id].expirySlot == 0 || w.slot <= w.authorities[id].expirySlot)
  }

  lemma PayUsable(w: World, c: PayCall)
    requires Pay(w, c).Ok? && c.authorityId != 0
    ensures Usable(w, c.authorityId, Some(c.payer), c.category)
  {
    hide Transfer;
  }

  lemma SplitUsable(w: World, c: SplitCall)
    requires AtomicSplit(w, c).Ok? && c.authorityId != 0
    ensures Usable(w, c.authorityId, Some(c.payer), c.category)
  {
    hide SplitTransfers, SplitCris, SplitTotal;
  }

  lemma EscrowUsable(w: World, c: EscrowCall)
    requires CreateEscrow(w, c).Ok? && c.authorityId != 0
    ensures Usable(w, c.authorityId, Some(c.payer), c.category)
  {
    hide Transfer;
  }

  lemma DebitUsable(w: World, i: Instr, id: U64)
    requires DebitOf(w, i, id) > 0
    ensures Usable(w, id, SignerOf(i), CategoryOf(i))
  {
    hide InitializeConfig, RegisterAgent, SetPaused, IssueAuthority, RevokeAuthority, ExpireAuthority, Pay, AtomicSplit, CreateEscrow, ReleaseEscrow, CancelEscrow, SlashBond,
      CreateOrg, JoinOrg, SetMemberShare, DepositToOrg, OrgSplit, DissolveOrg, ReclaimOrgResidual, CreateReceipt, AdvanceClock, OpenTokenAccount, OutsideTransfer;
    hide Usable, SplitTotal;
    match i
    case DoPay(c) => PayUsable(w, c);
    case DoSplit(c) => SplitUsable(w, c);
    case DoCreateEscrow(c) => EscrowUsable(w, c);
    case _ =>
  }

  /** Every debit of every run obeys every ancestor: its signer is the agent of the whole chain, the
      authority is Active and not past its expiry, and the amount, the new total and the category are
      within the limits of the authority itself and of all it was delegated from. */
  lemma DebitsObeyAncestors(start: World, trace: seq<Instr>, i: Instr, id: U64)
    requires Init(start) && DebitOf(Run(start, trace), i, id) > 0
    ensures var w := Run(start, trace);
            var A, d := w.authorities, DebitOf(w, i, id);
            && id in A && A[id].status == Active && (A[id].expirySlot == 0 || w.slot <= A[id].expirySlot)
            && forall up | up == id || up in Ancestors(A, id) ::
              && up in A && SignerOf(i) == Some(A[up].agent) && Allows(A[up].categories, CategoryOf(i))
              && d <= A[up].maxPerTx && A[id].spent + d <= A[up].maxTotal && A[id].spent + d <= A[up].budget
  {
    hide Exec, Step, SignerOf, CategoryOf, MoveOf, Allows;
    var w := Run(start, trace);
    RunKeepsForest(start, trace);
    DebitUsable(w, i, id);
    StepMoves(w, i);
    Attenuation(w.authorities, Count(w), id);
    assert WellKept(w.authorities, id);
  }

  /** In reachable states the budget test after the max_total test, the reserve test and the blocked
      test are dead code: InsufficientBudget always means that the wallet holds less than the amount. */
  lemma BudgetErrorMeansEmptyWallet(w: World, id: U64, acc: Option<U64>, payer: Pubkey, payees: seq<Pubkey>, amount: U64, category: Bytes16, payerToken: Address)
    requires ForestInv(w)
    ensures DebitGate(w, id, acc, payer, payees, amount, category, payerToken) == Err(InsufficientBudget)
            ==> w.tokens[payerToken].amount < amount
    ensures DebitGate(w, id, acc, payer, payees, amount, category, payerToken) != Err(RecipientBlocked)
  {
    if acc.Some? && acc.value in w.authorities {
      assert WellKept(w.authorities, acc.value);
    }
  }

  /** What an authority, if one is named, must allow: its agent spending this much, in this category, now. */
  predicate MaySpend(w: World, id: U64, acc: Option<U64>, payer: Pubkey, amount: U64, category: Bytes16) {
    if id == 0 then acc.None?
    else
      && acc == Some(id) && id in w.authorities
      && var a := w.authorities[id];
         && a.agent == payer && a.status == Active && (a.expirySlot == 0 || w.slot <= a.expirySlot)
         && amount <= a.maxPerTx && a.spent + amount <= a.maxTotal && Allows(a.categories, category)
  }

  /** In reachable states that, and a wallet that holds the amount if there is an authority, is all the gate asks;
      it stages something if and only if there is an authority. */
  lemma GateExact(w: World, id: U64, acc: Option<U64>, payer: Pubkey, payees: seq<Pubkey>, amount: U64, category: Bytes16, payerToken: Address)
    requires ForestInv(w) && payerToken in w.tokens
    ensures var gate := DebitGate(w, id, acc, payer, payees, amount, category, payerToken);
            && (gate.Ok? <==> MaySpend(w, id, acc, payer, amount, category) && (id != 0 ==> w.tokens[payerToken].amount >= amount))
            && (gate.Ok? ==> (gate.value.Some? <==> id != 0))
  {
    if acc.Some? && acc.value in w.authorities {
      assert WellKept(w.authorities, acc.value);
    }
  }

  /** A parent never has spent more than its budget, so issuing under it cannot fail with Overflow. */
  lemma IssueNeverUnderflows(w: World, c: IssueCall)
    requires ForestInv(w) && |c.categories| <= MAX_CATEGORIES
    ensures NewAuthority(w, c) != Err(Overflow)
  {
    if c.parentAcc.Some? && c.parentAcc.value in w.authorities {
      assert WellKept(w.authorities, c.parentAcc.value);
    }
  }

  /** Whatever runs after a subtree is dead, no record in it changes and none is added to it. */
  lemma {:induction false} DeadForGood(w: World, trace: seq<Instr>, root: U64)
    requires ForestInv(w) && root in w.authorities
    requires forall id | id in Subtree(w.authorities, root) :: Dead(w.authorities[id])
    ensures var A := Run(w, trace).authorities;
            && root in A && Subtree(A, root) == Subtree(w.authorities, root)
            && forall id | id in Subtree(w.authorities, root) :: id in A && A[id] == w.authorities[id]
  {
    hide Exec, MoveOf;
    if trace != [] {
      var mid := Run(w, trace[..|trace| - 1]);
      DeadForGood(w, trace[..|trace| - 1], root);
      RunKeepsForest(w, trace[..|trace| - 1]);
      StepMoves(mid, trace[|trace| - 1]);
      assert root in Subtree(w.authorities, root);
      DeadSubtreeStays(mid.authorities, Count(mid), MoveOf(mid, trace[|trace| - 1]), root);
    }
  }

  lemma OthersMove(A: Authorities, count: U64, m: Move, signer: Pubkey, id: U64)
    requires Inv(A, count) && Legal(A, count, m) && MovedBy(A, m, signer)
    ensures id in A && A[id].agent != signer ==> id in Apply(A, m) && Apply(A, m)[id] == A[id]
    ensures id !in A && id in Apply(A, m) ==> Apply(A, m)[id].agent == signer
  {
  }

  lemma StillStays(A: Authorities)
    ensures Apply(A, Still) == A
  {
  }

  /** What an agent did not sign changes none of its authorities and adds none. */
  lemma OthersCannotTouch(w: World, i: Instr, agent: Pubkey, id: U64)
    requires ForestInv(w) && SignerOf(i) != Some(agent)
    ensures id in w.authorities && w.authorities[id].agent == agent
            ==> id in Step(w, i).authorities && Step(w, i).authorities[id] == w.authorities[id]
    ensures id !in w.authorities && id in Step(w, i).authorities ==> Step(w, i).authorities[id].agent != agent
  {
    hide Exec, Step, MoveOf, SignerOf, Inv, Legal, Apply;
    StepMoves(w, i);
    if MoveOf(w, i) != Still {
      OthersMove(w.authorities, Count(w), MoveOf(w, i), SignerOf(i).value, id);
    }
    assert Apply(w.authorities, Still) == w.authorities by { StillStays(w.authorities); }
  }
}
