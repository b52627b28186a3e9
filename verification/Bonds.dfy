/** Bonds over whole runs: backed while active, slashed once, and where a slash takes the tokens. */
module Bonds {
  import opened Types
  import opened TokenLedger
  import opened AuthoritySpec
  import opened SpendSpec
  import opened EscrowSpec
  import opened OrgSpec
  import opened ReceiptSpec
  import opened AgentSpec
  import opened Machine
  import opened Frames
  import opened Forest
  import opened AuthorityRuns
  import opened Sums
  import opened Custody

  ghost predicate Backed(w: World, id: U64)
    requires id in w.bonds
  {
    var b := w.bonds[id];
    var vault := Ata(BondPda(id), Counters(w).mint);
    && b.authorityId == id
    && (b.status == BondActive ==>
        vault in w.tokens && w.tokens[vault].owner == BondPda(id) && w.tokens[vault].mint == Counters(w).mint
        && w.tokens[vault].amount >= b.amount)
  }

  ghost predicate BondInv(w: World) {
    && (w.config.None? ==> w.bonds == map[])
    && (forall id :: id in w.bonds ==> Backed(w, id))
  }

  predicate Slashes(w: World, i: Instr, id: U64) {
    Accepted(w, i) && i.DoSlash? && i.slash.authorityId == id
  }

  lemma SlashEffect(w: World, c: SlashCall)
    requires SlashBond(w, c).Ok?
    ensures c.authorityId in w.bonds && w.bonds[c.authorityId].status == BondActive
    ensures SlashBond(w, c).value.bonds == w.bonds[c.authorityId := w.bonds[c.authorityId].(status := BondSlashed)]
  {
    hide Transfer;
  }

  /** A slash moves exactly the bonded amount from an account of the bond's own key to the destination, or
      nothing at all if that is the same account. */
  lemma SlashPaysAmount(w: World, c: SlashCall)
    requires SlashBond(w, c).Ok?
    ensures var t, n := w.tokens, SlashBond(w, c).value.tokens;
            && c.bondVault in t && t[c.bondVault].owner == BondPda(c.authorityId)
            && (c.bondVault == c.destination ==> n == t)
            && (c.bondVault != c.destination ==> Moved(t, n, c.bondVault, c.destination, w.bonds[c.authorityId].amount))
  {
  }

  /** Issuing adds at most the bond of the new authority, and its vault holds it. */
  lemma IssueEffect(w: World, c: IssueCall)
    requires IssueAuthority(w, c).Ok?
    ensures w.config.Some? && Counters(IssueAuthority(w, c).value).mint == Counters(w).mint
    ensures var n := IssueAuthority(w, c).value;
            n.bonds == w.bonds || (c.authorityId !in w.bonds
              && n.bonds == w.bonds[c.authorityId := Bond(c.authorityId, c.agent, c.bondAmount, BondActive)]
              && Backed(n, c.authorityId))
  {
    hide NewAuthority;
  }

  lemma BondEvolves(w: World, i: Instr, id: U64)
    requires id in w.bonds
    ensures id in Step(w, i).bonds
    ensures Slashes(w, i, id) ==> w.bonds[id].status == BondActive
    ensures Step(w, i).bonds[id] == w.bonds[id].(status := if Slashes(w, i, id) then BondSlashed else w.bonds[id].status)
  {
    hide InitializeConfig, RegisterAgent, SetPaused, IssueAuthority, RevokeAuthority, ExpireAuthority, Pay, AtomicSplit, CreateEscrow, ReleaseEscrow, CancelEscrow,
      SlashBond, CreateOrg, JoinOrg, SetMemberShare, DepositToOrg, OrgSplit, DissolveOrg, ReclaimOrgResidual, CreateReceipt, AdvanceClock, OpenTokenAccount, OutsideTransfer;
    hide Backed;
    if !i.DoIssue? && !i.DoSlash? {
      BondsFrame(w, i);
    } else if Accepted(w, i) {
      match i
      case DoIssue(c) => IssueEffect(w, c);
      case DoSlash(c) => SlashEffect(w, c);
    }
  }

  lemma NewBondBacked(w: World, i: Instr, id: U64)
    requires id !in w.bonds && id in Step(w, i).bonds
    ensures Backed(Step(w, i), id) && Step(w, i).bonds[id].status == BondActive
  {
    hide InitializeConfig, RegisterAgent, SetPaused, IssueAuthority, RevokeAuthority, ExpireAuthority, Pay, AtomicSplit, CreateEscrow, ReleaseEscrow, CancelEscrow,
      SlashBond, CreateOrg, JoinOrg, SetMemberShare, DepositToOrg, OrgSplit, DissolveOrg, ReclaimOrgResidual, CreateReceipt, AdvanceClock, OpenTokenAccount, OutsideTransfer;
    hide Backed;
    if !i.DoIssue? && !i.DoSlash? {
      BondsFrame(w, i);
    } else if Accepted(w, i) {
      match i
      case DoIssue(c) => IssueEffect(w, c);
      case DoSlash(c) => SlashEffect(w, c);
    }
  }

  lemma OpenerSlashes(w: World, i: Instr, id: U64)
    ensures OpenerOf(i) == Some(BondPda(id)) ==> Slashes(w, i, id) || Step(w, i) == w
  {
    hide Exec;
    if Accepted(w, i) && SignerOf(i).Some? {
      SignedByWallet(w, i);
    }
  }

  lemma OldBondBacked(w: World, i: Instr, id: U64)
    requires BondInv(w) && id in w.bonds
    ensures id in Step(w, i).bonds && Backed(Step(w, i), id)
  {
    hide Exec, Step, Supply, Slashes;
    BondEvolves(w, i, id);
    StepTokens(w, i);
    MintFrame(w, i);
    OpenerSlashes(w, i, id);
    assert Backed(w, id);
  }

  lemma StepKeepsBonds(w: World, i: Instr)
    requires BondInv(w)
    ensures BondInv(Step(w, i))
  {
    hide Exec, Step, Backed;
    forall id | id in Step(w, i).bonds
      ensures Backed(Step(w, i), id)
    {
      if id in w.bonds {
        OldBondBacked(w, i, id);
      } else {
        NewBondBacked(w, i, id);
      }
    }
    NoBondsUnconfigured(w, i);
  }

  lemma NoBondsUnconfigured(w: World, i: Instr)
    requires BondInv(w)
    ensures Step(w, i).config.None? ==> Step(w, i).bonds == map[]
  {
    hide InitializeConfig, RegisterAgent, SetPaused, IssueAuthority, RevokeAuthority, ExpireAuthority, Pay, AtomicSplit, CreateEscrow, ReleaseEscrow, CancelEscrow,
      SlashBond, CreateOrg, JoinOrg, SetMemberShare, DepositToOrg, OrgSplit, DissolveOrg, ReclaimOrgResidual, CreateReceipt, AdvanceClock, OpenTokenAccount, OutsideTransfer;
    hide Backed;
    if w.config.Some? {
      MintFrame(w, i);
    }
    if !i.DoIssue? && !i.DoSlash? {
      BondsFrame(w, i);
    } else if Accepted(w, i) {
      match i
      case DoIssue(c) => IssueEffect(w, c);
      case DoSlash(c) => SlashEffect(w, c);
    }
  }

  function Slashings(w: World, trace: seq<Instr>, id: U64): nat {
    if trace == [] then 0
    else
      var before := trace[..|trace| - 1];
      Slashings(w, before, id) + if Slashes(Run(w, before), trace[|trace| - 1], id) then 1 else 0
  }

  /** Over any run a bond is slashed at most once, and its status tells whether it was; while it is active
      its associated account holds at least its amount. */
  lemma {:induction false} SlashedOnce(start: World, trace: seq<Instr>, id: U64)
    requires Init(start)
    ensures var w := Run(start, trace);
            && BondInv(w)
            && Slashings(start, trace, id) == (if id in w.bonds && w.bonds[id].status == BondSlashed then 1 else 0)
            && (id in w.bonds && w.bonds[id].status == BondActive ==>
                var vault := Ata(BondPda(id), Counters(w).mint);
                vault in w.tokens && w.tokens[vault].amount >= w.bonds[id].amount)
  {
    hide Exec, Step, Slashes;
    if trace != [] {
      var mid := Run(start, trace[..|trace| - 1]);
      var i := trace[|trace| - 1];
      SlashedOnce(start, trace[..|trace| - 1], id);
      StepKeepsBonds(mid, i);
      if id in mid.bonds {
        BondEvolves(mid, i, id);
      } else {
        UnbornUnslashed(mid, i, id);
      }
    }
    if id in Run(start, trace).bonds {
      assert Backed(Run(start, trace), id);
    }
  }

  lemma UnbornUnslashed(w: World, i: Instr, id: U64)
    requires id !in w.bonds
    ensures !Slashes(w, i, id)
    ensures id in Step(w, i).bonds ==> Step(w, i).bonds[id].status == BondActive
  {
    hide InitializeConfig, RegisterAgent, SetPaused, IssueAuthority, RevokeAuthority, ExpireAuthority, Pay, AtomicSplit, CreateEscrow, ReleaseEscrow, CancelEscrow,
      SlashBond, CreateOrg, JoinOrg, SetMemberShare, DepositToOrg, OrgSplit, DissolveOrg, ReclaimOrgResidual, CreateReceipt, AdvanceClock, OpenTokenAccount, OutsideTransfer;
    if id in Step(w, i).bonds {
      NewBondBacked(w, i, id);
    }
    if Accepted(w, i) && i.DoSlash? {
      SlashEffect(w, i.slash);
    }
  }

  // ---- the agent's right to its bond ----

  /** A bond belongs to the authority of its id: same agent, same positive amount. */
  ghost predicate Matched(w: World, id: U64)
    requires id in w.bonds
  {
    && id in w.authorities && w.authorities[id].agent == w.bonds[id].agent
    && w.authorities[id].bondAmount == w.bonds[id].amount > 0 && w.bonds[id].agent.Wallet?
  }

  ghost predicate AllMatched(w: World) {
    forall id :: id in w.bonds ==> Matched(w, id)
  }

  lemma IssueMatches(w: World, c: IssueCall)
    requires IssueAuthority(w, c).Ok? && c.authorityId !in w.bonds && c.authorityId in IssueAuthority(w, c).value.bonds
    ensures Matched(IssueAuthority(w, c).value, c.authorityId)
  {
    hide Transfer;
  }

  lemma NewMatched(w: World, i: Instr, id: U64)
    requires id !in w.bonds && id in Step(w, i).bonds
    ensures Matched(Step(w, i), id)
  {
    hide InitializeConfig, RegisterAgent, SetPaused, IssueAuthority, RevokeAuthority, ExpireAuthority, Pay, AtomicSplit, CreateEscrow, ReleaseEscrow, CancelEscrow,
      SlashBond, CreateOrg, JoinOrg, SetMemberShare, DepositToOrg, OrgSplit, DissolveOrg, ReclaimOrgResidual, CreateReceipt, AdvanceClock, OpenTokenAccount, OutsideTransfer;
    hide Matched, Backed;
    if !i.DoIssue? && !i.DoSlash? {
      BondsFrame(w, i);
    } else if Accepted(w, i) {
      match i
      case DoIssue(c) => IssueEffect(w, c); IssueMatches(w, c);
      case DoSlash(c) => SlashEffect(w, c);
    }
  }

  lemma OldMatched(w: World, i: Instr, id: U64)
    requires ForestInv(w) && id in w.bonds && Matched(w, id)
    ensures id in Step(w, i).bonds && Matched(Step(w, i), id)
  {
    hide Exec, Step, MoveOf, Slashes, Apply, Legal, Inv;
    BondEvolves(w, i, id);
    StepMoves(w, i);
    MoveKeeps(w.authorities, Count(w), MoveOf(w, i), id);
  }

  lemma BondsMatch(start: World, trace: seq<Instr>)
    requires Init(start)
    ensures AllMatched(Run(start, trace)) && ForestInv(Run(start, trace))
  {
    hide Run;
    MatchLasts(start, trace);
  }

  lemma StepMatches(w: World, i: Instr)
    requires ForestInv(w) && AllMatched(w)
    ensures AllMatched(Step(w, i))
  {
    hide Exec, Step, Matched, ForestInv;
    forall id | id in Step(w, i).bonds
      ensures Matched(Step(w, i), id)
    {
      if id in w.bonds {
        OldMatched(w, i, id);
      } else {
        NewMatched(w, i, id);
      }
    }
  }

  /** In every reachable state the agent's slash of an Active bond, from the bond's vault into any account of
      the mint, is accepted, whatever became of the authority, provided the token program lets the tokens
      go. */
  lemma AgentCanSlash(start: World, trace: seq<Instr>, id: U64, to: Address)
    requires Init(start) && forall m :: Supply(start.tokens, m) < U64_END
    requires var w := Run(start, trace);
             && id in w.bonds && w.bonds[id].status == BondActive
             && to in w.tokens && w.tokens[to].mint == Counters(w).mint
    ensures var w := Run(start, trace);
            var mint := Counters(w).mint;
            Accepted(w, DoSlash(SlashCall(w.bonds[id].agent, id, Ata(BondPda(id), mint), to, mint, true)))
  {
    hide Exec, Step, Supply, ForestInv;
    var w := Run(start, trace);
    SlashedOnce(start, trace, id);
    BondsMatch(start, trace);
    SupplyConserved(start, trace, Counters(w).mint);
    IdsMatch(w, id);
    SlashGoesThrough(w, id, to);
    SlashIsStep(w, SlashCall(w.bonds[id].agent, id, Ata(BondPda(id), Counters(w).mint), to, Counters(w).mint, true));
  }

  lemma IdsMatch(w: World, id: U64)
    requires ForestInv(w) && id in w.authorities
    ensures w.authorities[id].authorityId == id
  {
    assert WellKept(w.authorities, id);
  }

  lemma SlashIsStep(w: World, c: SlashCall)
    requires SlashBond(w, c).Ok?
    ensures Accepted(w, DoSlash(c))
  {
  }

  lemma SlashGoesThrough(w: World, id: U64, to: Address)
    requires BondInv(w) && AllMatched(w) && Supply(w.tokens, Counters(w).mint) < U64_END
    requires id in w.bonds && w.bonds[id].status == BondActive && id in w.authorities && w.authorities[id].authorityId == id
    requires to in w.tokens && w.tokens[to].mint == Counters(w).mint
    ensures SlashBond(w, SlashCall(w.bonds[id].agent, id, Ata(BondPda(id), Counters(w).mint), to, Counters(w).mint, true)).Ok?
  {
    assert Backed(w, id) && Matched(w, id);
    TotalCovers(Balances(w.tokens, Counters(w).mint), Ata(BondPda(id), Counters(w).mint), to);
  }

  // ---- nobody else's right to it ----

  /** A slash is signed by the agent of the authority, which put up the bond. */
  lemma SlashByAgent(w: World, c: SlashCall)
    requires AllMatched(w) && SlashBond(w, c).Ok?
    ensures c.authorityId in w.authorities && c.slasher == w.authorities[c.authorityId].agent
    ensures c.authorityId in w.bonds && c.slasher == w.bonds[c.authorityId].agent
  {
    hide Transfer;
    assert Matched(w, c.authorityId);
  }

  lemma UnsignedSlash(w: World, i: Instr, id: U64)
    requires AllMatched(w) && id in w.bonds && SignerOf(i) != Some(w.bonds[id].agent)
    ensures !Slashes(w, i, id)
  {
    hide InitializeConfig, RegisterAgent, SetPaused, IssueAuthority, RevokeAuthority, ExpireAuthority, Pay, AtomicSplit, CreateEscrow, ReleaseEscrow, CancelEscrow,
      SlashBond, CreateOrg, JoinOrg, SetMemberShare, DepositToOrg, OrgSplit, DissolveOrg, ReclaimOrgResidual, CreateReceipt, AdvanceClock, OpenTokenAccount, OutsideTransfer;
    if Slashes(w, i, id) {
      SlashByAgent(w, i.slash);
    }
  }

  lemma {:induction false} MatchLasts(w: World, trace: seq<Instr>)
    requires ForestInv(w) && AllMatched(w)
    ensures ForestInv(Run(w, trace)) && AllMatched(Run(w, trace))
  {
    hide Exec, Step, Matched;
    RunKeepsForest(w, trace);
    if trace != [] {
      MatchLasts(w, trace[..|trace| - 1]);
      StepMatches(Run(w, trace[..|trace| - 1]), trace[|trace| - 1]);
    }
  }

  /** However long others run the program, a bond whose agent signs nothing keeps its status and its terms, and no
      account of its key loses a token: only its agent can have it slashed. */
  lemma {:induction false} OnlyAgentSlashes(w: World, trace: seq<Instr>, id: U64, a: Address)
    requires ForestInv(w) && AllMatched(w) && id in w.bonds
    requires forall i :: i in trace ==> SignerOf(i) != Some(w.bonds[id].agent)
    requires a in w.tokens && w.tokens[a].owner == BondPda(id)
    ensures var n := Run(w, trace);
            && id in n.bonds && n.bonds[id] == w.bonds[id]
            && a in n.tokens && n.tokens[a].owner == BondPda(id) && n.tokens[a].amount >= w.tokens[a].amount
  {
    hide Exec, Step, Slashes, Supply, SignerOf, Matched, ForestInv;
    if trace != [] {
      var mid, i := Run(w, trace[..|trace| - 1]), trace[|trace| - 1];
      OnlyAgentSlashes(w, trace[..|trace| - 1], id, a);
      MatchLasts(w, trace[..|trace| - 1]);
      StepTokens(mid, i);
      BondEvolves(mid, i, id);
      UnsignedSlash(mid, i, id);
      OpenerSlashes(mid, i, id);
    }
  }

  // ---- where a slash takes the tokens ----

  /** Everything of a mint in the accounts of a key. */
  ghost function HeldBy(t: Tokens, key: Pubkey, mint: Bytes32): nat {
    Total(Holdings(t, key, mint))
  }

  ghost function Holdings(t: Tokens, key: Pubkey, mint: Bytes32): map<Address, nat> {
    map a | a in t && t[a].owner == key && t[a].mint == mint :: t[a].amount
  }

  /** What moving tokens out of one account of a key does to everything the key holds. */
  lemma HoldingsMoved(t: Tokens, n: Tokens, from: Address, to: Address, key: Pubkey, mint: Bytes32, amount: nat)
    requires Moved(t, n, from, to, amount) && t[from].owner == key && t[from].mint == mint && t[to].mint == mint
    requires n[from] == t[from].(amount := n[from].amount) && n[to] == t[to].(amount := n[to].amount)
    ensures HeldBy(n, key, mint) == HeldBy(t, key, mint) - if t[to].owner == key then 0 else amount
  {
    var before: map<Address, nat> := Holdings(t, key, mint);
    var x: nat, y: nat := t[from].amount - amount, t[to].amount + amount;
    var paid: map<Address, nat> := before[from := x];
    TotalUpdate(before, from, x);
    if t[to].owner == key {
      assert Holdings(n, key, mint) == paid[to := y];
      TotalUpdate(paid, to, y);
    } else {
      assert Holdings(n, key, mint) == paid;
    }
  }

  /** An accepted slash takes the bonded amount from the accounts of the bond's key if and only if the
      destination belongs to another key; into an account of the bond's own it takes nothing. */
  lemma SlashTakesExactly(w: World, c: SlashCall)
    requires SlashBond(w, c).Ok?
    ensures c.authorityId in w.bonds && c.destination in w.tokens
    ensures var key := BondPda(c.authorityId);
            HeldBy(SlashBond(w, c).value.tokens, key, c.mint)
            == HeldBy(w.tokens, key, c.mint) - if w.tokens[c.destination].owner == key then 0 else w.bonds[c.authorityId].amount
  {
    hide SlashBond, HeldBy;
    SlashPaysAmount(w, c);
    SlashMints(w, c);
    if c.bondVault != c.destination {
      HoldingsMoved(w.tokens, SlashBond(w, c).value.tokens, c.bondVault, c.destination, BondPda(c.authorityId), c.mint, w.bonds[c.authorityId].amount);
    }
  }

  lemma SlashMints(w: World, c: SlashCall)
    requires SlashBond(w, c).Ok?
    ensures c.authorityId in w.bonds && c.bondVault in w.tokens && c.destination in w.tokens
    ensures w.tokens[c.bondVault].mint == c.mint && w.tokens[c.destination].mint == c.mint
    ensures c.bondVault != c.destination ==>
      var n := SlashBond(w, c).value.tokens;
      && n[c.bondVault] == w.tokens[c.bondVault].(amount := n[c.bondVault].amount)
      && n[c.destination] == w.tokens[c.destination].(amount := n[c.destination].amount)
  {
  }

  /** In every reachable state an Active bond can be slashed into its own vault: that is accepted, moves no
      token, and leaves the bond Slashed. */
  lemma SlashIntoItself(start: World, trace: seq<Instr>, id: U64)
    requires Init(start) && forall m :: Supply(start.tokens, m) < U64_END
    requires id in Run(start, trace).bonds && Run(start, trace).bonds[id].status == BondActive
    ensures var w := Run(start, trace);
            var vault := Ata(BondPda(id), Counters(w).mint);
            var i := DoSlash(SlashCall(w.bonds[id].agent, id, vault, vault, Counters(w).mint, true));
            Accepted(w, i) && Step(w, i) == w.(bonds := w.bonds[id := w.bonds[id].(status := BondSlashed)])
  {
    hide Exec, Run, Supply;
    var w := Run(start, trace);
    SlashedOnce(start, trace, id);
    assert Backed(w, id);
    var vault := Ata(BondPda(id), Counters(w).mint);
    AgentCanSlash(start, trace, id, vault);
    SlashStep(w, SlashCall(w.bonds[id].agent, id, vault, vault, Counters(w).mint, true));
  }

  lemma SlashStep(w: World, c: SlashCall)
    requires Accepted(w, DoSlash(c)) && c.bondVault == c.destination
    ensures c.authorityId in w.bonds
    ensures Step(w, DoSlash(c)) == w.(bonds := w.bonds[c.authorityId := w.bonds[c.authorityId].(status := BondSlashed)])
  {
  }

  /** Once a bond is slashed, no later run takes anything out of any account of its key: what a slash left
      there, or anybody sends there, stays. */
  lemma {:induction false} LockedForGood(w: World, trace: seq<Instr>, id: U64, a: Address)
    requires id in w.bonds && w.bonds[id].status == BondSlashed
    requires a in w.tokens && w.tokens[a].owner == BondPda(id)
    ensures var n := Run(w, trace);
            && id in n.bonds && n.bonds[id].status == BondSlashed
            && a in n.tokens && n.tokens[a].owner == BondPda(id) && n.tokens[a].amount >= w.tokens[a].amount
  {
    hide Exec, Step, Slashes, Supply;
    if trace != [] {
      var mid, i := Run(w, trace[..|trace| - 1]), trace[|trace| - 1];
      LockedForGood(w, trace[..|trace| - 1], id, a);
      StepTokens(mid, i);
      BondEvolves(mid, i, id);
      OpenerSlashes(mid, i, id);
    }
  }

  // ---- what a run took out of a bond ----

  /** The owner of the account the run's slash of a bond went to, if there was one. */
  function SlashedTo(w: World, trace: seq<Instr>, id: U64): Option<Pubkey> {
    if trace == [] then None
    else
      var mid, i := Run(w, trace[..|trace| - 1]), trace[|trace| - 1];
      if Slashes(mid, i, id) && i.slash.destination in mid.tokens then Some(mid.tokens[i.slash.destination].owner)
      else SlashedTo(w, trace[..|trace| - 1], id)
  }

  /** What the run's slashes took from the accounts of the bond's key. */
  ghost function Taken(w: World, trace: seq<Instr>, id: U64): int {
    if trace == [] then 0
    else
      var mid, i := Run(w, trace[..|trace| - 1]), trace[|trace| - 1];
      Taken(w, trace[..|trace| - 1], id)
      + if Slashes(mid, i, id) then HeldBy(mid.tokens, BondPda(id), i.slash.mint) - HeldBy(Step(mid, i).tokens, BondPda(id), i.slash.mint) else 0
  }

  /** Over any run: the bond is Slashed if and only if some slash of it went somewhere, and its amount has been
      taken from its accounts if and only if that was to another key; otherwise nothing has. */
  lemma {:induction false} TakenExactly(start: World, trace: seq<Instr>, id: U64)
    requires Init(start)
    ensures var w, to := Run(start, trace), SlashedTo(start, trace, id);
            && (to.Some? <==> id in w.bonds && w.bonds[id].status == BondSlashed)
            && Taken(start, trace, id) == if to.Some? && to.value != BondPda(id) then w.bonds[id].amount else 0
  {
    hide Exec, Step, Slashes, HeldBy;
    if trace != [] {
      var mid, i := Run(start, trace[..|trace| - 1]), trace[|trace| - 1];
      TakenExactly(start, trace[..|trace| - 1], id);
      if id in mid.bonds {
        BondEvolves(mid, i, id);
      } else {
        UnbornUnslashed(mid, i, id);
      }
      SlashStepTakes(mid, i, id);
    }
  }

  lemma SlashStepTakes(w: World, i: Instr, id: U64)
    ensures Slashes(w, i, id) ==>
      && id in w.bonds && i.slash.destination in w.tokens
      && HeldBy(w.tokens, BondPda(id), i.slash.mint) - HeldBy(Step(w, i).tokens, BondPda(id), i.slash.mint)
         == if w.tokens[i.slash.destination].owner == BondPda(id) then 0 else w.bonds[id].amount
  {
    hide SlashBond, HeldBy;
    if Slashes(w, i, id) {
      SlashTakesExactly(w, i.slash);
    }
  }
}
