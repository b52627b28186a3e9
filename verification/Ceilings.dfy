/** What the authorities of a subtree can spend together, and whether its root's budget bounds that. */
module Ceilings {
  import opened Types
  import opened TokenLedger
  import opened AuthoritySpec
  import opened SpendSpec
  import opened Machine
  import opened Frames
  import opened Forest
  import opened AuthorityRuns
  import opened Sums
  import opened Custody
  import opened Setting

  /** An authority that can still be debited, given the tokens. */
  predicate Spendable(w: World, id: U64)
    requires id in w.authorities
  {
    var a := w.authorities[id];
    a.status == Active && a.maxPerTx > 0 && (a.expirySlot == 0 || w.slot <= a.expirySlot)
  }

  /** The most its `spent` can come to. */
  function CanReach(w: World, id: U64): nat
    requires id in w.authorities
  {
    if Spendable(w, id) then w.authorities[id].maxTotal else w.authorities[id].spent
  }

  function Spents(A: Authorities, ids: set<U64>): map<U64, nat> {
    map id | id in ids && id in A :: A[id].spent
  }

  function Reaches(w: World, ids: set<U64>): map<U64, nat> {
    map id | id in ids && id in w.authorities :: CanReach(w, id)
  }

  ghost function SpentIn(A: Authorities, ids: set<U64>): nat {
    Total(Spents(A, ids))
  }

  /** The most they can come to together. */
  ghost function Ceiling(w: World, ids: set<U64>): nat {
    Total(Reaches(w, ids))
  }

  // ---- the ceiling holds over every run ----

  /** No step raises what an authority can come to, nor takes it below what it has spent. */
  lemma StepLowers(w: World, i: Instr, id: U64)
    requires ForestInv(w) && id in w.authorities
    ensures id in Step(w, i).authorities
    ensures CanReach(Step(w, i), id) <= CanReach(w, id)
  {
    hide Exec, Step, MoveOf, Legal, Apply, Inv;
    StepMoves(w, i);
    MoveKeeps(w.authorities, Count(w), MoveOf(w, i), id);
    ClockFrame(w, i);
    SpentBelowMax(w, id);
    if Step(w, i).authorities[id].spent != w.authorities[id].spent {
      OnlyDebitsSpend(w, i, id);
    }
  }

  lemma SpentBelowMax(w: World, id: U64)
    requires ForestInv(w) && id in w.authorities
    ensures w.authorities[id].spent <= w.authorities[id].maxTotal <= w.authorities[id].budget
  {
    assert WellKept(w.authorities, id);
  }

  lemma OnlyDebitsSpend(w: World, i: Instr, id: U64)
    requires ForestInv(w) && id in w.authorities
    requires id in Step(w, i).authorities && Step(w, i).authorities[id].spent != w.authorities[id].spent
    ensures Spendable(w, id)
  {
    hide Exec, Step, MoveOf, Usable;
    StepMoves(w, i);
    StepDebits(w, i, id);
    DebitUsable(w, i, id);
    UsableNow(w, i, id);
  }

  lemma UsableNow(w: World, i: Instr, id: U64)
    requires Usable(w, id, SignerOf(i), CategoryOf(i))
    ensures id in w.authorities && (w.authorities[id].expirySlot == 0 || w.slot <= w.authorities[id].expirySlot)
  {
  }

  lemma {:induction false} RunLowers(w: World, trace: seq<Instr>, id: U64)
    requires ForestInv(w) && id in w.authorities
    ensures var n := Run(w, trace);
            id in n.authorities && n.authorities[id].spent <= CanReach(n, id) <= CanReach(w, id)
  {
    hide Exec, Step, ForestInv;
    RunKeepsForest(w, trace);
    if trace != [] {
      RunKeepsForest(w, trace[..|trace| - 1]);
      RunLowers(w, trace[..|trace| - 1], id);
      StepLowers(Run(w, trace[..|trace| - 1]), trace[|trace| - 1], id);
    }
    SpentReached(Run(w, trace), id);
  }

  lemma SpentReached(w: World, id: U64)
    requires ForestInv(w) && id in w.authorities
    ensures w.authorities[id].spent <= CanReach(w, id)
  {
    assert WellKept(w.authorities, id);
  }

  lemma {:induction false} TotalBelow<K>(m: map<K, nat>, n: map<K, nat>)
    requires m.Keys == n.Keys && forall k :: k in m ==> m[k] <= n[k]
    ensures Total(m) <= Total(n)
  {
    if m == map[] {
      assert n == map[];
    } else {
      var k :| k in m;
      TotalWithout(m, k);
      TotalWithout(n, k);
      TotalBelow(m - {k}, n - {k});
    }
  }

  /** Whatever runs, whoever signs: together any authorities never spend more than their ceiling was at any
      earlier moment. */
  lemma SpendingBounded(w: World, trace: seq<Instr>, ids: set<U64>)
    requires ForestInv(w) && ids <= w.authorities.Keys
    ensures SpentIn(Run(w, trace).authorities, ids) <= Ceiling(w, ids)
  {
    hide Run, CanReach, ForestInv, Total;
    var n := Run(w, trace);
    forall id | id in ids
      ensures id in n.authorities && n.authorities[id].spent <= CanReach(w, id)
    {
      RunLowers(w, trace, id);
    }
    TotalBelow(Spents(n.authorities, ids), Reaches(w, ids));
  }

  // ---- without further delegation ----

  /** An accepted instruction that issues an authority below the root. */
  ghost predicate Delegates(w: World, i: Instr, root: U64) {
    MoveOf(w, i).Issued? && MoveOf(w, i).record.parentId in Subtree(w.authorities, root)
  }

  ghost predicate NoDelegation(w: World, trace: seq<Instr>, root: U64) {
    trace != [] ==>
      NoDelegation(w, trace[..|trace| - 1], root) && !Delegates(Run(w, trace[..|trace| - 1]), trace[|trace| - 1], root)
  }

  lemma StepKeepsSubtree(w: World, i: Instr, root: U64)
    requires ForestInv(w) && root in w.authorities
    ensures root in Step(w, i).authorities
    ensures Subtree(Step(w, i).authorities, root) == Subtree(w.authorities, root) <==> !Delegates(w, i, root)
  {
    hide Exec, Step, MoveOf, Subtree;
    StepMoves(w, i);
    MoveKeepsSubtree(w.authorities, Count(w), MoveOf(w, i), root);
  }

  lemma MoveKeepsSubtree(A: Authorities, count: U64, m: Move, root: U64)
    requires Inv(A, count) && Legal(A, count, m) && root in A
    ensures root in Apply(A, m)
    ensures Subtree(Apply(A, m), root) == Subtree(A, root) <==> !(m.Issued? && m.record.parentId in Subtree(A, root))
  {
    hide Subtree, Apply, Legal, Inv;
    MoveKeeps(A, count, m, root);
    SubtreeKept(A, count, m, root);
    SubtreesIn(A, Apply(A, m), root);
    if m.Issued? {
      IssueExtends(A, count, m, root);
    } else {
      SameKeys(A, m);
    }
  }

  lemma SubtreesIn(A: Authorities, B: Authorities, root: U64)
    ensures Subtree(A, root) <= A.Keys && Subtree(B, root) <= B.Keys
  {
  }

  lemma SameKeys(A: Authorities, m: Move)
    requires !m.Issued?
    ensures Apply(A, m).Keys == A.Keys
  {
  }

  lemma IssueExtends(A: Authorities, count: U64, m: Move, root: U64)
    requires Inv(A, count) && Legal(A, count, m) && root in A && m.Issued?
    ensures var B := Apply(A, m);
            && B.Keys == A.Keys + {m.id} && m.id !in A
            && (m.id in Subtree(B, root) <==> m.record.parentId in Subtree(A, root))
  {
    var B := Apply(A, m);
    MoveKeepsInv(A, count, m);
    SubtreeByParent(B, m.id, root, m.id);
    SubtreeKept(A, count, m, root);
  }

  lemma {:induction false} SubtreeStays(w: World, trace: seq<Instr>, root: U64)
    requires ForestInv(w) && root in w.authorities && NoDelegation(w, trace, root)
    ensures root in Run(w, trace).authorities && Subtree(Run(w, trace).authorities, root) == Subtree(w.authorities, root)
  {
    hide Exec, Step, ForestInv, Subtree, Delegates;
    if trace != [] {
      SubtreeStays(w, trace[..|trace| - 1], root);
      RunKeepsForest(w, trace[..|trace| - 1]);
      StepKeepsSubtree(Run(w, trace[..|trace| - 1]), trace[|trace| - 1], root);
    }
  }

  /** So as long as nothing more is delegated below a root, its whole subtree stays under the ceiling. */
  lemma SubtreeBounded(w: World, trace: seq<Instr>, root: U64)
    requires ForestInv(w) && root in w.authorities && NoDelegation(w, trace, root)
    ensures var A := Run(w, trace).authorities;
            SpentIn(A, Subtree(A, root)) <= Ceiling(w, Subtree(w.authorities, root))
  {
    hide Run, ForestInv, SpentIn, Ceiling;
    SubtreeStays(w, trace, root);
    SpendingBounded(w, trace, Subtree(w.authorities, root));
  }

  // ---- and it can be reached ----

  /** Who pays whom, from which account into which. */
  datatype Purse = Purse(agent: Pubkey, payee: Pubkey, from: Address, to: Address)

  /** The program is not paused, both are registered, the accounts are theirs, and `need` more tokens can be
      paid: they are there, and no counter or balance is too full for them. */
  ghost predicate Funded(w: World, p: Purse, need: int) {
    && w.config.Some? && !w.config.value.paused && p.agent.Wallet? && p.agent != p.payee
    && p.agent in w.cris && p.payee in w.cris && w.cris[p.agent].agent == p.agent && w.cris[p.payee].agent == p.payee
    && (var mint := w.config.value.mint;
        && p.from in w.tokens && w.tokens[p.from].owner == p.agent && w.tokens[p.from].mint == mint && w.tokens[p.from].amount >= need
        && p.to in w.tokens && w.tokens[p.to].owner == p.payee && w.tokens[p.to].mint == mint
        && Supply(w.tokens, mint) < U64_END)
    && w.cris[p.agent].successfulCommitments + need < U64_END && w.cris[p.agent].volumeSettled + need < U64_END
    && w.cris[p.payee].successfulSettlements + need < U64_END && w.cris[p.payee].volumeSettled + need < U64_END
  }

  /** A payment under an authority, in a category it allows. */
  function PayUnder(w: World, p: Purse, id: U64, x: U64): PayCall
    requires w.config.Some? && id in w.authorities
  {
    var a := w.authorities[id];
    PayCall(p.agent, p.payee, Some(id), p.from, p.to, w.config.value.mint, x, id, if a.categories == [] then 0 else a.categories[0], true)
  }

  lemma GatePasses(w: World, p: Purse, id: U64, x: U64, need: int)
    requires ForestInv(w) && Funded(w, p, need) && id != 0 && id in w.authorities && w.authorities[id].agent == p.agent && Spendable(w, id)
    requires 1 <= x <= need && x <= w.authorities[id].maxPerTx && w.authorities[id].spent + x <= w.authorities[id].maxTotal
    ensures var c := PayUnder(w, p, id, x);
            && DebitGate(w, id, Some(id), p.agent, [p.payee], x, c.category, p.from)
               == Ok(Some(Staged(w.authorities[id].spent + x, w.authorities[id].spent + x >= w.authorities[id].budget)))
  {
    assert WellKept(w.authorities, id);
    hide Supply;
  }

  lemma TransferPasses(w: World, p: Purse, x: U64, need: int)
    requires Funded(w, p, need) && 1 <= x <= need
    ensures Transfer(w.tokens, p.from, p.to, w.config.value.mint, p.agent, x, true).Ok?
    ensures var n := Transfer(w.tokens, p.from, p.to, w.config.value.mint, p.agent, x, true).value;
            && n.Keys == w.tokens.Keys && Supply(n, w.config.value.mint) < U64_END
            && n[p.from] == w.tokens[p.from].(amount := w.tokens[p.from].amount - x)
            && n[p.to] == w.tokens[p.to].(amount := w.tokens[p.to].amount + x)
  {
    TotalCovers(Balances(w.tokens, w.config.value.mint), p.from, p.to);
    TransferSupply(w.tokens, p.from, p.to, w.config.value.mint, p.agent, x, true, w.config.value.mint);
  }

  /** One payment goes through, debits the authority and leaves the rest of the need funded. */
  lemma PayOne(w: World, p: Purse, id: U64, x: U64, need: int)
    requires ForestInv(w) && Funded(w, p, need) && id != 0 && id in w.authorities && w.authorities[id].agent == p.agent && Spendable(w, id)
    requires 1 <= x <= need && x <= w.authorities[id].maxPerTx && w.authorities[id].spent + x <= w.authorities[id].maxTotal
    ensures Pay(w, PayUnder(w, p, id, x)).Ok?
    ensures var n := Pay(w, PayUnder(w, p, id, x)).value;
            n.authorities == w.authorities[id := Charged(w.authorities[id], x)] && n.slot == w.slot && Funded(n, p, need - x)
  {
    GatePasses(w, p, id, x, need);
    TransferPasses(w, p, x, need);
    AccountsPass(w, p, id, x, need);
    PayResult(w, p, id, x, need);
    StillFunded(w, Pay(w, PayUnder(w, p, id, x)).value, p, x, need);
    hide Pay, DebitGate, Transfer, Supply, ForestInv, PayAccounts, Funded;
  }

  lemma PayResult(w: World, p: Purse, id: U64, x: U64, need: int)
    requires Funded(w, p, need) && id in w.authorities && 1 <= x <= need && PayAccounts(w, PayUnder(w, p, id, x)).None?
    requires var c := PayUnder(w, p, id, x); DebitGate(w, id, Some(id), p.agent, [p.payee], x, c.category, p.from).Ok?
    requires Transfer(w.tokens, p.from, p.to, w.config.value.mint, p.agent, x, true).Ok?
    ensures var c := PayUnder(w, p, id, x);
            Pay(w, c) == Ok(w.(
              tokens := Transfer(w.tokens, p.from, p.to, w.config.value.mint, p.agent, x, true).value,
              authorities := Commit(w.authorities, id, DebitGate(w, id, Some(id), p.agent, [p.payee], x, c.category, p.from).value),
              cris := w.cris[p.agent := Commitment(w.cris[p.agent], x, w.slot).value][p.payee := Settlement(w.cris[p.payee], x, w.slot).value]))
    ensures Commitment(w.cris[p.agent], x, w.slot).Ok? && Settlement(w.cris[p.payee], x, w.slot).Ok?
  {
    hide DebitGate, Transfer, Supply, PayAccounts, Commit;
  }

  lemma StillFunded(w: World, n: World, p: Purse, x: U64, need: int)
    requires Funded(w, p, need) && 1 <= x <= need && n.config == w.config
    requires Commitment(w.cris[p.agent], x, w.slot).Ok? && Settlement(w.cris[p.payee], x, w.slot).Ok?
    requires n.cris == w.cris[p.agent := Commitment(w.cris[p.agent], x, w.slot).value][p.payee := Settlement(w.cris[p.payee], x, w.slot).value]
    requires p.from in n.tokens && p.to in n.tokens && Supply(n.tokens, w.config.value.mint) < U64_END
    requires n.tokens[p.from] == w.tokens[p.from].(amount := n.tokens[p.from].amount) && n.tokens[p.from].amount == w.tokens[p.from].amount - x
    requires n.tokens[p.to] == w.tokens[p.to].(amount := n.tokens[p.to].amount)
    ensures Funded(n, p, need - x)
  {
    hide Supply;
  }

  lemma AccountsPass(w: World, p: Purse, id: U64, x: U64, need: int)
    requires Funded(w, p, need) && id in w.authorities
    ensures PayAccounts(w, PayUnder(w, p, id, x)).None?
  {
    hide Supply;
  }

  lemma PayStep(w: World, c: PayCall)
    requires Pay(w, c).Ok?
    ensures Step(w, DoPay(c)) == Pay(w, c).value
  {
  }

  lemma {:induction false} RunAppend(w: World, s: seq<Instr>, t: seq<Instr>)
    ensures Run(w, s + t) == Run(Run(w, s), t)
  {
    hide Step;
    if t == [] {
      assert s + t == s;
    } else {
      RunAppend(w, s, t[..|t| - 1]);
      assert (s + t)[..|s + t| - 1] == s + t[..|t| - 1];
    }
  }

  lemma RunOne(w: World, i: Instr)
    ensures Run(w, [i]) == Step(w, i)
  {
    hide Step;
    assert [i][..0] == [];
  }

  /** From `w` to `n` the clock stood still and no authority changed but `ids`. */
  ghost predicate OnlyThese(w: World, n: World, ids: set<U64>) {
    && n.slot == w.slot && n.authorities.Keys == w.authorities.Keys
    && forall id :: id in w.authorities && id !in ids ==> n.authorities[id] == w.authorities[id]
  }

  /** Payments one after the other take an authority as far as it can go. */
  lemma {:induction false} Exhaust(w: World, p: Purse, id: U64, need: int) returns (trace: seq<Instr>)
    requires ForestInv(w) && Funded(w, p, need) && id != 0 && id in w.authorities && w.authorities[id].agent == p.agent && Spendable(w, id)
    requires w.authorities[id].spent + need >= w.authorities[id].maxTotal
    ensures var n := Run(w, trace);
            && ForestInv(n) && OnlyThese(w, n, {id}) && n.authorities[id].spent == w.authorities[id].maxTotal
            && Funded(n, p, need - (w.authorities[id].maxTotal - w.authorities[id].spent))
    decreases w.authorities[id].maxTotal - w.authorities[id].spent
  {
    hide Run, Step, Pay, Funded, ForestInv;
    var a := w.authorities[id];
    SpentBelowMax(w, id);
    if a.spent == a.maxTotal {
      trace := [];
      RunNothing(w);
    } else {
      var x := Min(a.maxPerTx, a.maxTotal - a.spent);
      var i := DoPay(PayUnder(w, p, id, x)) by { FundedConfig(w, p, need); }
      PayOne(w, p, id, x, need);
      PayStep(w, i.pay);
      var n := Step(w, i);
      RunKeepsForest(w, [i]);
      RunOne(w, i);
      if a.spent + x == a.maxTotal {
        trace := [i];
      } else {
        var rest := Exhaust(n, p, id, need - x);
        RunAppend(w, [i], rest);
        trace := [i] + rest;
      }
    }
  }

  lemma RunNothing(w: World)
    ensures Run(w, []) == w
  {
  }

  lemma FundedConfig(w: World, p: Purse, need: int)
    requires Funded(w, p, need)
    ensures w.config.Some?
  {
  }

  /** What is still missing to the ceiling. */
  ghost function Slack(w: World, ids: set<U64>): int {
    Ceiling(w, ids) - SpentIn(w.authorities, ids)
  }

  lemma SlackWithout(w: World, ids: set<U64>, id: U64)
    requires id in ids && id in w.authorities
    ensures Slack(w, ids) == CanReach(w, id) - w.authorities[id].spent + Slack(w, ids - {id})
  {
    hide CanReach;
    TotalWithout(Reaches(w, ids), id);
    TotalWithout(Spents(w.authorities, ids), id);
    assert Reaches(w, ids) - {id} == Reaches(w, ids - {id});
    assert Spents(w.authorities, ids) - {id} == Spents(w.authorities, ids - {id});
  }

  lemma SlackSame(w: World, n: World, ids: set<U64>, id: U64)
    requires OnlyThese(w, n, {id}) && id !in ids && ids <= w.authorities.Keys
    ensures Slack(n, ids) == Slack(w, ids)
    ensures forall k :: k in ids ==> k in n.authorities && CanReach(n, k) == CanReach(w, k)
  {
    hide Total;
    assert Reaches(n, ids) == Reaches(w, ids);
    assert Spents(n.authorities, ids) == Spents(w.authorities, ids);
  }

  lemma {:induction false} SlackPositive(w: World, ids: set<U64>)
    requires ForestInv(w) && ids <= w.authorities.Keys
    ensures Slack(w, ids) >= 0
  {
    hide ForestInv, CanReach, Total;
    forall id | id in ids
      ensures w.authorities[id].spent <= CanReach(w, id)
    {
      SpentReached(w, id);
    }
    TotalBelow(Spents(w.authorities, ids), Reaches(w, ids));
  }

  ghost predicate AllReached(w: World, n: World, ids: set<U64>) {
    forall id :: id in ids ==> id in w.authorities && id in n.authorities && n.authorities[id].spent == CanReach(w, id)
  }

  /** An agent with the tokens can take all of its authorities as far as each can go. */
  lemma {:induction false} SpendAll(w: World, p: Purse, ids: set<U64>) returns (trace: seq<Instr>)
    requires ForestInv(w) && ids <= w.authorities.Keys && Funded(w, p, Slack(w, ids))
    requires forall id :: id in ids ==> w.authorities[id].agent == p.agent
    ensures OnlyThese(w, Run(w, trace), ids) && AllReached(w, Run(w, trace), ids)
    decreases ids
  {
    hide Run, Step, Funded, ForestInv, Slack;
    if ids == {} {
      trace := [];
      RunNothing(w);
    } else {
      var id :| id in ids;
      var rest := ids - {id};
      var first := SpendOne(w, p, ids, id);
      var mid := Run(w, first);
      SlackSame(w, mid, rest, id);
      SlackPositive(mid, rest);
      var others := SpendAll(mid, p, rest);
      RunAppend(w, first, others);
      trace := first + others;
    }
  }

  lemma SpendOne(w: World, p: Purse, ids: set<U64>, id: U64) returns (trace: seq<Instr>)
    requires ForestInv(w) && ids <= w.authorities.Keys && Funded(w, p, Slack(w, ids))
    requires id in ids && w.authorities[id].agent == p.agent
    ensures var n := Run(w, trace);
            && ForestInv(n) && OnlyThese(w, n, {id}) && n.authorities[id].spent == CanReach(w, id)
            && Funded(n, p, Slack(n, ids - {id}))
  {
    hide Run, Step, Funded, ForestInv, Slack;
    SlackWithout(w, ids, id);
    SlackPositive(w, ids - {id});
    if Spendable(w, id) {
      SpentBelowMax(w, id);
      NotZero(w, id);
      trace := Exhaust(w, p, id, Slack(w, ids));
    } else {
      trace := [];
      RunNothing(w);
    }
    SlackSame(w, Run(w, trace), ids - {id}, id);
  }

  lemma NotZero(w: World, id: U64)
    requires ForestInv(w) && id in w.authorities
    ensures id != 0
  {
  }

  /** The ceiling is reached: some run, payments of the agent alone, spends exactly it. */
  lemma CeilingReached(w: World, p: Purse, ids: set<U64>) returns (trace: seq<Instr>)
    requires ForestInv(w) && ids <= w.authorities.Keys && Funded(w, p, Slack(w, ids))
    requires forall id :: id in ids ==> w.authorities[id].agent == p.agent
    ensures SpentIn(Run(w, trace).authorities, ids) == Ceiling(w, ids)
  {
    hide Run, Funded, ForestInv, CanReach, Total;
    trace := SpendAll(w, p, ids);
    assert Spents(Run(w, trace).authorities, ids) == Reaches(w, ids);
  }

  /** With the tokens at hand, the root's budget bounds what its present subtree spends, over every run there is,
      if and only if it bounds the subtree's ceiling. */
  lemma BudgetBoundsExactly(w: World, p: Purse, root: U64)
    requires ForestInv(w) && root in w.authorities && w.authorities[root].agent == p.agent
    requires var ids := Subtree(w.authorities, root); Funded(w, p, Slack(w, ids))
    ensures var ids := Subtree(w.authorities, root);
            (forall trace :: SpentIn(Run(w, trace).authorities, ids) <= w.authorities[root].budget) <==> Ceiling(w, ids) <= w.authorities[root].budget
  {
    hide Run, Funded, ForestInv, SpentIn, Ceiling, Slack;
    var ids := Subtree(w.authorities, root);
    forall id | id in ids
      ensures id in w.authorities && w.authorities[id].agent == p.agent
    {
      SubtreeAgent(w, root, id);
    }
    var most := CeilingReached(w, p, ids);
    forall trace
      ensures SpentIn(Run(w, trace).authorities, ids) <= Ceiling(w, ids)
    {
      SpendingBounded(w, trace, ids);
    }
    assert SpentIn(Run(w, most).authorities, ids) == Ceiling(w, ids);
  }

  // ---- siblings that spend more than their parent has, and a child that outlives it ----

  function SecondChild(): Instr {
    DoIssue(IssueCall(ALICE, 3, 10, 10, 10, [], 1, Some(1), 0, 0, false, None, None, None, false, false, true))
  }

  function PayTen(id: U64): Instr {
    DoPay(PayCall(ALICE, BOB, Some(id), Plain(1), Plain(2), MINT, 10, id, 0, true))
  }

  function Spent(id: U64): Authority {
    Authority(id, ALICE, 1, 1, 10, 10, 10, 10, [], [], 0, 0, Exhausted, 0)
  }

  lemma IssuesSecond(b: WriteBack)
    ensures var n := Step(Delegated(b), SecondChild());
            && Accepted(Delegated(b), SecondChild())
            && n == Delegated(b).(config := n.config, authorities := n.authorities) && n.config.Some? && !n.config.value.paused && n.config.value.mint == MINT
            && n.authorities == Delegated(b).authorities[3 := Authority(3, ALICE, 1, 1, 10, 0, 10, 10, [], [], 0, 0, Active, 0)]
  {
  }

  /** In any state with these accounts and counters a payment of ten under such a child is accepted. */
  lemma PaysTen(w: World, id: U64, paid: U64)
    requires id != 0 && id in w.authorities && w.authorities[id] == Authority(id, ALICE, 1, 1, 10, 0, 10, 10, [], [], 0, 0, Active, 0)
    requires w.config.Some? && !w.config.value.paused && w.config.value.mint == MINT && Paid(w, paid) && paid <= 90
    ensures Accepted(w, PayTen(id))
    ensures var n := Step(w, PayTen(id));
            n.authorities == w.authorities[id := Spent(id)] && n.config == w.config && Paid(n, paid + 10)
  {
    var t := w.tokens;
    assert Transfer(t, Plain(1), Plain(2), MINT, ALICE, 10, true).Ok?;
  }

  /** ALICE has paid BOB this much so far. */
  ghost predicate Paid(w: World, paid: int) {
    && Plain(1) in w.tokens && w.tokens[Plain(1)] == TokenAccount(ALICE, MINT, w.tokens[Plain(1)].amount) && w.tokens[Plain(1)].amount == 100 - paid
    && Plain(2) in w.tokens && w.tokens[Plain(2)] == TokenAccount(BOB, MINT, w.tokens[Plain(2)].amount) && w.tokens[Plain(2)].amount == 100 + paid
    && ALICE in w.cris && w.cris[ALICE].agent == ALICE && w.cris[ALICE].successfulCommitments <= paid && w.cris[ALICE].volumeSettled <= paid
    && BOB in w.cris && w.cris[BOB].agent == BOB && w.cris[BOB].successfulSettlements <= paid && w.cris[BOB].volumeSettled <= paid
  }

  /** The end of a run: a second child, and ten spent under each. The root's budget is ten, nothing was ever
      debited from it, and its subtree has spent twenty. */
  lemma SiblingsOverspend(b: WriteBack)
    ensures Init(Beginning(b)) && Run(Run(Beginning(b), Registrations()), Delegations()) == Delegated(b)
    ensures var w := Step(Delegated(b), SecondChild());
            var v := Step(w, PayTen(2));
            var A := Step(v, PayTen(3)).authorities;
            && Accepted(Delegated(b), SecondChild()) && Accepted(w, PayTen(2)) && Accepted(v, PayTen(3))
            && A == map[1 := Delegated(b).authorities[1], 2 := Spent(2), 3 := Spent(3)]
            && A[1].budget == 10 && A[1].spent == 0
            && Subtree(A, 1) == {1, 2, 3} && SpentIn(A, Subtree(A, 1)) == 20
  {
    hide Run, Step, Exec, Accepted, Total, Ancestors, Subtree, SpentIn;
    Delegating(b);
    IssuesSecond(b);
    var w := Step(Delegated(b), SecondChild());
    PaysTen(w, 2, 0);
    var v := Step(w, PayTen(2));
    PaysTen(v, 3, 10);
    var A := Step(v, PayTen(3)).authorities;
    assert A == map[1 := Delegated(b).authorities[1], 2 := Spent(2), 3 := Spent(3)];
    ThreeSpent(A);
  }

  lemma ThreeSpent(A: Authorities)
    requires A.Keys == {1, 2, 3} && A[1].parentId == 0 && A[1].spent == 0 && A[2] == Spent(2) && A[3] == Spent(3)
    ensures Subtree(A, 1) == {1, 2, 3} && SpentIn(A, Subtree(A, 1)) == 20
  {
    assert Ancestors(A, 2) == [1] + Ancestors(A, 1) && Ancestors(A, 3) == [1] + Ancestors(A, 1);
    assert Subtree(A, 1) == {1, 2, 3};
    var m := Spents(A, {1, 2, 3});
    hide Ancestors;
    TotalWithout(m, 1);
    TotalWithout(m - {1}, 2);
    TotalWithout(m - {1} - {2}, 3);
    assert m - {1} - {2} - {3} == map[];
  }

  /** Revoking the root alone, which is accepted, leaves its child Active, and the child still pays. */
  lemma ChildOutlives(b: WriteBack)
    ensures Init(Beginning(b)) && Run(Run(Beginning(b), Registrations()), Delegations()) == Delegated(b)
    ensures var revoke := DoRevoke(RevokeCall(ALICE, 1, []));
            var w := Step(Delegated(b), revoke);
            && Accepted(Delegated(b), revoke) && 1 in w.authorities && w.authorities[1].status == Revoked
            && Accepted(w, PayTen(2)) && Step(w, PayTen(2)).authorities == w.authorities[2 := Spent(2)]
  {
    hide Run, Step, Accepted;
    Delegating(b);
    RevokesRoot(b);
    PaysTen(Step(Delegated(b), DoRevoke(RevokeCall(ALICE, 1, []))), 2, 0);
  }

  lemma RevokesRoot(b: WriteBack)
    ensures var revoke := DoRevoke(RevokeCall(ALICE, 1, []));
            var w := Step(Delegated(b), revoke);
            && Accepted(Delegated(b), revoke) && w == Delegated(b).(authorities := w.authorities)
            && 1 in w.authorities && w.authorities[1].status == Revoked && 2 in w.authorities && w.authorities[2] == Delegated(b).authorities[2]
  {
  }
}
