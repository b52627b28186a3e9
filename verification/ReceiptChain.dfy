/** The receipt chain over whole runs, and what a last hash pins down. */
module ReceiptChain {
  import opened Types
  import opened TokenLedger
  import opened AuthoritySpec
  import opened SpendSpec
  import opened EscrowSpec
  import opened OrgSpec
  import opened ReceiptSpec
  import opened AgentSpec
  import opened Machine
  import opened Frames
  import opened Sums
  import opened Keys
  import opened Reputation

  type ReceiptStore = map<U64, Receipt>

  // ---- the byte string is injective ----

  /** The numbers that `width` bytes can spell. */
  predicate Spellable(n: nat, width: nat) {
    if width == 0 then n == 0 else Spellable(n / 0x100, width - 1)
  }

  /** The number that bytes spell, least significant first. */
  function Spelled(bytes: seq<U8>): nat {
    if bytes == [] then 0 else bytes[0] + 0x100 * Spelled(bytes[1..])
  }

  /** Reading back what was written gives the number, if it fits. */
  lemma {:induction false} LittleEndianSpells(n: nat, width: nat)
    requires Spellable(n, width)
    ensures Spelled(LittleEndian(n, width)) == n
  {
    if width > 0 {
      LittleEndianSpells(n / 0x100, width - 1);
      assert LittleEndian(n, width)[1..] == LittleEndian(n / 0x100, width - 1);
    }
  }

  lemma LittleEndianInjective(m: nat, n: nat, width: nat)
    requires Spellable(m, width) && Spellable(n, width) && LittleEndian(m, width) == LittleEndian(n, width)
    ensures m == n
  {
    LittleEndianSpells(m, width);
    LittleEndianSpells(n, width);
  }

  function Pow256(width: nat): nat {
    if width == 0 then 1 else 0x100 * Pow256(width - 1)
  }

  lemma {:induction false} BelowPowFits(n: nat, width: nat)
    requires n < Pow256(width)
    ensures Spellable(n, width)
  {
    if width > 0 {
      BelowPowFits(n / 0x100, width - 1);
    }
  }

  lemma WidthsFit(a: U64, b: Bytes32)
    ensures Spellable(a, 8) && Spellable(b, 32)
  {
    assert Pow256(8) == U64_END;
    assert Pow256(16) == U64_END * U64_END;
    assert Pow256(24) == U64_END * U64_END * U64_END;
    assert Pow256(32) == U64_END * U64_END * U64_END * U64_END;
    BelowPowFits(a, 8);
    BelowPowFits(b, 32);
  }

  /** The parts of a hashed byte string, cut at their fixed places. */
  lemma PreimageParts(r: Receipt)
    requires r.actor.Wallet?
    ensures var p := Preimage(r);
            && |p| == 128
            && p[..15] == ['A' as int, 'E' as int, 'O' as int, 'N' as int, '_' as int, 'R' as int, 'E' as int, 'C' as int, 'E' as int,
                           'I' as int, 'P' as int, 'T' as int, '_' as int, 'V' as int, '1' as int]
            && p[15..23] == LittleEndian(r.receiptId, 8) && p[23..24] == [r.receiptType]
            && p[24..56] == KeyBytes(r.actor) && p[56..64] == LittleEndian(r.slot, 8)
            && p[64..96] == LittleEndian(r.payloadHash, 32) && p[96..128] == LittleEndian(r.prevHash, 32)
  {
    hide LittleEndian;
  }

  /** The hashed bytes spell the fields of the receipt at their fixed places, each number least significant
      byte first, behind the tag AEON_RECEIPT_V1. */
  lemma PreimageSpells(r: Receipt)
    requires r.actor.Wallet?
    ensures var p := Preimage(r);
            && |p| == 128
            && p[..15] == ['A' as int, 'E' as int, 'O' as int, 'N' as int, '_' as int, 'R' as int, 'E' as int, 'C' as int, 'E' as int,
                           'I' as int, 'P' as int, 'T' as int, '_' as int, 'V' as int, '1' as int]
            && Spelled(p[15..23]) == r.receiptId && p[23] == r.receiptType && Spelled(p[24..56]) == r.actor.raw
            && Spelled(p[56..64]) == r.slot && Spelled(p[64..96]) == r.payloadHash && Spelled(p[96..128]) == r.prevHash
  {
    PreimageParts(r);
    hide Preimage, LittleEndian, Spellable;
    WidthsFit(r.receiptId, r.payloadHash);
    WidthsFit(r.slot, r.prevHash);
    WidthsFit(0, r.actor.raw);
    LittleEndianSpells(r.receiptId, 8);
    LittleEndianSpells(r.slot, 8);
    LittleEndianSpells(r.actor.raw, 32);
    LittleEndianSpells(r.payloadHash, 32);
    LittleEndianSpells(r.prevHash, 32);
    assert Preimage(r)[23] == Preimage(r)[23..24][0];
  }

  /** Two receipts hash the same bytes only if they agree on everything but the hash. */
  lemma PreimageInjective(r: Receipt, s: Receipt)
    requires r.actor.Wallet? && s.actor.Wallet? && Preimage(r) == Preimage(s)
    ensures r == s.(hash := r.hash)
  {
    PreimageParts(r);
    PreimageParts(s);
    hide Preimage, LittleEndian, Spellable;
    WidthsFit(r.receiptId, r.payloadHash);
    WidthsFit(s.receiptId, s.payloadHash);
    WidthsFit(r.slot, r.prevHash);
    WidthsFit(s.slot, s.prevHash);
    WidthsFit(0, r.actor.raw);
    WidthsFit(0, s.actor.raw);
    LittleEndianInjective(r.receiptId, s.receiptId, 8);
    LittleEndianInjective(r.slot, s.slot, 8);
    LittleEndianInjective(r.actor.raw, s.actor.raw, 32);
    LittleEndianInjective(r.payloadHash, s.payloadHash, 32);
    LittleEndianInjective(r.prevHash, s.prevHash, 32);
    assert [r.receiptType][0] == [s.receiptType][0];
  }

  // ---- the chain ----

  /** The receipts of an actor among the ids up to `n`, newest first. */
  ghost function History(R: ReceiptStore, actor: Pubkey, n: U64): seq<Receipt> {
    if n == 0 then []
    else
      var rest := History(R, actor, n - 1);
      if n in R && R[n].actor == actor then [R[n]] + rest else rest
  }

  /** Each receipt carries the hash expected of it, and names the next one's; the last names none. */
  ghost predicate Linked(h: seq<Receipt>, last: Bytes32) {
    if h == [] then last == 0 else h[0].hash == last && Linked(h[1..], h[0].prevHash)
  }

  ghost predicate Sealed(R: ReceiptStore, id: U64)
    requires id in R
  {
    R[id].receiptId == id && R[id].actor.Wallet? && R[id].hash == SHA256(Preimage(R[id]))
  }

  function Latest(w: World): U64 {
    Counters(w).receiptCounter
  }

  ghost function LastHash(w: World, actor: Pubkey): Bytes32 {
    if actor in w.cris then w.cris[actor].lastReceiptHash else 0
  }

  ghost function ReceiptCount(w: World, actor: Pubkey): nat {
    if actor in w.cris then w.cris[actor].receiptCount else 0
  }

  ghost predicate Chained(w: World, actor: Pubkey) {
    && Linked(History(w.receipts, actor, Latest(w)), LastHash(w, actor))
    && |History(w.receipts, actor, Latest(w))| == ReceiptCount(w, actor)
  }

  ghost predicate ChainInv(w: World) {
    && (forall id: U64 :: id in w.receipts <==> 1 <= id <= Latest(w))
    && (forall id :: id in w.receipts ==> Sealed(w.receipts, id))
    && (forall actor :: Chained(w, actor))
    && Sum(w.cris, Receipts) == Latest(w)
  }

  /** What a receipt says, apart from its place in the chain. */
  datatype Entry = Entry(id: U64, kind: U8, payloadHash: Bytes32, slot: U64)

  function EntryOf(r: Receipt): Entry {
    Entry(r.receiptId, r.receiptType, r.payloadHash, r.slot)
  }

  /** What a call asks to have recorded at a slot: its own id and type, and the hash of its own payload. */
  function CallEntry(c: ReceiptCall, slot: U64): Entry {
    Entry(c.receiptId, c.receiptType, SHA256(c.payload), slot)
  }

  lemma {:induction false} HistoryPut(R: ReceiptStore, id: U64, r: Receipt, actor: Pubkey, n: U64)
    requires n < id
    ensures History(R[id := r], actor, n) == History(R, actor, n)
  {
    if n > 0 {
      HistoryPut(R, id, r, actor, n - 1);
    }
  }

  lemma ReceiptEffect(w: World, c: ReceiptCall)
    requires CreateReceipt(w, c).Ok?
    ensures c.actor.Wallet? && c.actor in w.cris && w.config.Some? && c.receiptId == Latest(w) + 1
    ensures var r, n := NewReceipt(w, c), CreateReceipt(w, c).value;
            && n.receipts == w.receipts[c.receiptId := r] && Latest(n) == c.receiptId
            && r.prevHash == LastHash(w, c.actor) && r.actor == c.actor && r.receiptId == c.receiptId && r.hash == SHA256(Preimage(r))
            && EntryOf(r) == CallEntry(c, w.slot)
            && LastHash(n, c.actor) == r.hash && ReceiptCount(n, c.actor) == ReceiptCount(w, c.actor) + 1
            && n.cris.Keys == w.cris.Keys
            && (forall k :: k != c.actor ==> LastHash(n, k) == LastHash(w, k) && ReceiptCount(n, k) == ReceiptCount(w, k))
  {
    var draft := Receipt(c.receiptId, c.receiptType, c.actor, w.slot, SHA256(c.payload), w.cris[c.actor].lastReceiptHash, 0);
    assert Preimage(draft) == Preimage(NewReceipt(w, c));
  }

  lemma ReceiptKeepsChained(w: World, c: ReceiptCall, actor: Pubkey)
    requires ChainInv(w) && CreateReceipt(w, c).Ok?
    ensures Chained(CreateReceipt(w, c).value, actor)
  {
    ReceiptEffect(w, c);
    hide CreateReceipt, NewReceipt, Sealed, Sum, LastHash, ReceiptCount;
    var n := CreateReceipt(w, c).value;
    HistoryPut(w.receipts, c.receiptId, n.receipts[c.receiptId], actor, Latest(w));
    assert Chained(w, actor);
    if actor == c.actor {
      var h := History(w.receipts, actor, Latest(w));
      assert ([NewReceipt(w, c)] + h)[1..] == h;
    }
  }

  /** Only recording a receipt, or registering afresh, touches an agent's end of the chain. */
  lemma EndFrame(w: World, i: Instr, k: Pubkey)
    ensures !i.DoReceipt? ==> LastHash(Step(w, i), k) == LastHash(w, k) && ReceiptCount(Step(w, i), k) == ReceiptCount(w, k)
  {
    hide Exec;
    if !ChangesCris(i) {
      CrisFrame(w, i);
    } else if Accepted(w, i) && !i.DoReceipt? {
      EndKept(w, i, k);
    }
  }

  lemma EndKept(w: World, i: Instr, k: Pubkey)
    requires ChangesCris(i) && Accepted(w, i) && !i.DoReceipt?
    ensures LastHash(Step(w, i), k) == LastHash(w, k) && ReceiptCount(Step(w, i), k) == ReceiptCount(w, k)
  {
    hide InitializeConfig, RegisterAgent, SetPaused, IssueAuthority, RevokeAuthority, ExpireAuthority, Pay, AtomicSplit, CreateEscrow, ReleaseEscrow, CancelEscrow,
      SlashBond, CreateOrg, JoinOrg, SetMemberShare, DepositToOrg, OrgSplit, DissolveOrg, ReclaimOrgResidual, CreateReceipt, AdvanceClock, OpenTokenAccount, OutsideTransfer;
    match i
    case DoRegisterAgent(agent) => RegisterEnd(w, agent, k);
    case DoPay(c) => PayEnd(w, c, k);
    case DoSplit(c) => SplitEnd(w, c, k);
    case DoRelease(c) => ReleaseEnd(w, c, k);
    case DoCancel(c) => CancelEnd(w, c, k);
  }

  lemma RegisterEnd(w: World, agent: Pubkey, k: Pubkey)
    requires RegisterAgent(w, agent).Ok?
    ensures LastHash(RegisterAgent(w, agent).value, k) == LastHash(w, k) && ReceiptCount(RegisterAgent(w, agent).value, k) == ReceiptCount(w, k)
  {
  }

  lemma PayEnd(w: World, c: PayCall, k: Pubkey)
    requires Pay(w, c).Ok?
    ensures LastHash(Pay(w, c).value, k) == LastHash(w, k) && ReceiptCount(Pay(w, c).value, k) == ReceiptCount(w, k)
  {
    hide DebitGate, Transfer, Commit;
  }

  lemma SplitEnd(w: World, c: SplitCall, k: Pubkey)
    requires AtomicSplit(w, c).Ok?
    ensures LastHash(AtomicSplit(w, c).value, k) == LastHash(w, k) && ReceiptCount(AtomicSplit(w, c).value, k) == ReceiptCount(w, k)
  {
    hide DebitGate, SplitTransfers, Commit, SplitTotal;
  }

  lemma ReleaseEnd(w: World, c: ReleaseCall, k: Pubkey)
    requires ReleaseEscrow(w, c).Ok?
    ensures LastHash(ReleaseEscrow(w, c).value, k) == LastHash(w, k) && ReceiptCount(ReleaseEscrow(w, c).value, k) == ReceiptCount(w, k)
  {
    hide Transfer, ReleaseRefusal;
  }

  lemma CancelEnd(w: World, c: CancelCall, k: Pubkey)
    requires CancelEscrow(w, c).Ok?
    ensures LastHash(CancelEscrow(w, c).value, k) == LastHash(w, k) && ReceiptCount(CancelEscrow(w, c).value, k) == ReceiptCount(w, k)
  {
    hide Transfer;
  }

  lemma StepKeepsChain(w: World, i: Instr)
    requires ChainInv(w) && KeyInv(w)
    ensures forall id: U64 :: id in Step(w, i).receipts <==> 1 <= id <= Latest(Step(w, i))
    ensures forall id :: id in Step(w, i).receipts ==> Sealed(Step(w, i).receipts, id)
    ensures forall actor :: Chained(Step(w, i), actor)
  {
    hide InitializeConfig, RegisterAgent, SetPaused, IssueAuthority, RevokeAuthority, ExpireAuthority, Pay, AtomicSplit, CreateEscrow, ReleaseEscrow, CancelEscrow,
      SlashBond, CreateOrg, JoinOrg, SetMemberShare, DepositToOrg, OrgSplit, DissolveOrg, ReclaimOrgResidual, CreateReceipt, AdvanceClock, OpenTokenAccount, OutsideTransfer;
    hide Chained, Sum, KeyInv, LastHash, ReceiptCount, NewReceipt;
    if !i.DoReceipt? {
      ReceiptsFrame(w, i);
      ReceiptCounterFrame(w, i);
      forall actor
        ensures Chained(Step(w, i), actor)
      {
        EndFrame(w, i, actor);
        SameChain(w, Step(w, i), actor);
      }
    } else if Accepted(w, i) {
      ReceiptEffect(w, i.receipt);
      forall actor
        ensures Chained(Step(w, i), actor)
      {
        ReceiptKeepsChained(w, i.receipt, actor);
      }
    }
  }

  lemma SameChain(w: World, n: World, actor: Pubkey)
    requires Chained(w, actor) && n.receipts == w.receipts && Latest(n) == Latest(w)
    requires LastHash(n, actor) == LastHash(w, actor) && ReceiptCount(n, actor) == ReceiptCount(w, actor)
    ensures Chained(n, actor)
  {
  }

  /** Splits included that repeat an account: they never change the sum of the receipt counts. */
  lemma CountsAddUp(w: World, i: Instr)
    requires KeyInv(w)
    ensures Sum(Step(w, i).cris, Receipts) == Sum(w.cris, Receipts) + if Accepted(w, i) && i.DoReceipt? then 1 else 0
  {
    hide Exec, Step, Sum, KeyInv;
    if i.DoReceipt? {
      ReceiptCounts(w, i);
    } else {
      SameCounts(w, i);
    }
  }

  lemma ReceiptCounts(w: World, i: Instr)
    requires KeyInv(w) && i.DoReceipt?
    ensures Sum(Step(w, i).cris, Receipts) == Sum(w.cris, Receipts) + if Accepted(w, i) then 1 else 0
  {
    hide InitializeConfig, RegisterAgent, SetPaused, IssueAuthority, RevokeAuthority, ExpireAuthority, Pay, AtomicSplit, CreateEscrow, ReleaseEscrow, CancelEscrow,
      SlashBond, CreateOrg, JoinOrg, SetMemberShare, DepositToOrg, OrgSplit, DissolveOrg, ReclaimOrgResidual, CreateReceipt, AdvanceClock, OpenTokenAccount, OutsideTransfer;
    hide Sum, KeyInv;
    if Accepted(w, i) {
      ReceiptSum(w, i.receipt);
    }
  }

  lemma ReceiptSum(w: World, c: ReceiptCall)
    requires CreateReceipt(w, c).Ok?
    ensures Sum(CreateReceipt(w, c).value.cris, Receipts) == Sum(w.cris, Receipts) + 1
  {
    hide Preimage, Sum;
    SumUpdate(w.cris, c.actor, CreateReceipt(w, c).value.cris[c.actor], Receipts);
  }

  /** Any other instruction leaves every agent's count, and gives a new agent none. */
  lemma SameCounts(w: World, i: Instr)
    requires KeyInv(w) && !i.DoReceipt?
    ensures Sum(Step(w, i).cris, Receipts) == Sum(w.cris, Receipts)
  {
    hide Exec, Step, Sum, KeyInv, ReceiptCount, RegisterAgent;
    if i.DoRegisterAgent? {
      RegisterCounts(w, i);
    } else {
      forall k
        ensures ReceiptCount(Step(w, i), k) == ReceiptCount(w, k)
      {
        EndFrame(w, i, k);
      }
      SameCris(w, i);
      CountsToSum(w, Step(w, i));
    }
  }

  lemma RegisterCounts(w: World, i: Instr)
    requires i.DoRegisterAgent?
    ensures Sum(Step(w, i).cris, Receipts) == Sum(w.cris, Receipts)
  {
    hide InitializeConfig, RegisterAgent, SetPaused, IssueAuthority, RevokeAuthority, ExpireAuthority, Pay, AtomicSplit, CreateEscrow, ReleaseEscrow, CancelEscrow,
      SlashBond, CreateOrg, JoinOrg, SetMemberShare, DepositToOrg, OrgSplit, DissolveOrg, ReclaimOrgResidual, CreateReceipt, AdvanceClock, OpenTokenAccount, OutsideTransfer;
    hide Sum;
    if Accepted(w, i) {
      RegisterSum(w, i.agent);
    }
  }

  lemma RegisterSum(w: World, agent: Pubkey)
    requires RegisterAgent(w, agent).Ok?
    ensures Sum(RegisterAgent(w, agent).value.cris, Receipts) == Sum(w.cris, Receipts)
  {
    hide Sum;
    SumUpdate(w.cris, agent, RegisterAgent(w, agent).value.cris[agent], Receipts);
  }

  /** Only registering opens a reputation account. */
  lemma SameCris(w: World, i: Instr)
    requires !i.DoRegisterAgent?
    ensures Step(w, i).cris.Keys == w.cris.Keys
  {
    hide InitializeConfig, RegisterAgent, SetPaused, IssueAuthority, RevokeAuthority, ExpireAuthority, Pay, AtomicSplit, CreateEscrow, ReleaseEscrow, CancelEscrow,
      SlashBond, CreateOrg, JoinOrg, SetMemberShare, DepositToOrg, OrgSplit, DissolveOrg, ReclaimOrgResidual, CreateReceipt, AdvanceClock, OpenTokenAccount, OutsideTransfer;
    if !ChangesCris(i) {
      CrisFrame(w, i);
    } else if Accepted(w, i) {
      match i
      case DoPay(c) => PayCris(w, c);
      case DoSplit(c) => SplitCrisKeys(w, c);
      case DoRelease(c) => ReleaseCris(w, c);
      case DoCancel(c) => CancelCris(w, c);
      case DoReceipt(c) => ReceiptCris(w, c);
      case _ =>
    }
  }

  lemma PayCris(w: World, c: PayCall)
    requires Pay(w, c).Ok?
    ensures Pay(w, c).value.cris.Keys == w.cris.Keys
  {
    hide DebitGate, Transfer, Commit;
  }

  lemma SplitCrisKeys(w: World, c: SplitCall)
    requires AtomicSplit(w, c).Ok?
    ensures AtomicSplit(w, c).value.cris.Keys == w.cris.Keys
  {
    hide DebitGate, SplitTransfers, Commit, SplitTotal;
  }

  lemma ReleaseCris(w: World, c: ReleaseCall)
    requires ReleaseEscrow(w, c).Ok?
    ensures ReleaseEscrow(w, c).value.cris.Keys == w.cris.Keys
  {
    hide Transfer, ReleaseRefusal;
  }

  lemma CancelCris(w: World, c: CancelCall)
    requires CancelEscrow(w, c).Ok?
    ensures CancelEscrow(w, c).value.cris.Keys == w.cris.Keys
  {
    hide Transfer;
  }

  lemma ReceiptCris(w: World, c: ReceiptCall)
    requires CreateReceipt(w, c).Ok?
    ensures CreateReceipt(w, c).value.cris.Keys == w.cris.Keys
  {
    hide Preimage;
  }

  lemma CountsToSum(w: World, n: World)
    requires forall k :: ReceiptCount(n, k) == ReceiptCount(w, k)
    requires n.cris.Keys == w.cris.Keys
    ensures Sum(n.cris, Receipts) == Sum(w.cris, Receipts)
  {
    var a, b := Readings(w.cris, Receipts), Readings(n.cris, Receipts);
    forall k | k in a
      ensures k in b && a[k] == b[k]
    {
      assert ReceiptCount(n, k) == ReceiptCount(w, k);
    }
    assert a.Keys == b.Keys;
    assert a == b;
  }

  /** In every reachable state following prev_hash from an agent's last hash visits exactly its
      receipts, newest first, down to the zero hash; its count is how many there are; and all counts
      add up to the receipt counter. */
  lemma {:induction false} ChainsHold(start: World, trace: seq<Instr>)
    requires Init(start)
    ensures ChainInv(Run(start, trace)) && KeyInv(Run(start, trace))
  {
    hide Exec, Step;
    if trace == [] {
      assert Readings(start.cris, Receipts) == map[];
    } else {
      var mid, i := Run(start, trace[..|trace| - 1]), trace[|trace| - 1];
      ChainsHold(start, trace[..|trace| - 1]);
      hide Sum, Sealed, Chained, KeyInv;
      StepKeepsChain(mid, i);
      StepKeepsKeys(mid, i);
      CountsAddUp(mid, i);
      CounterMoves(mid, i);
    }
  }

  lemma CounterMoves(w: World, i: Instr)
    ensures Latest(Step(w, i)) == Latest(w) + if Accepted(w, i) && i.DoReceipt? then 1 else 0
  {
    hide InitializeConfig, RegisterAgent, SetPaused, IssueAuthority, RevokeAuthority, ExpireAuthority, Pay, AtomicSplit, CreateEscrow, ReleaseEscrow, CancelEscrow,
      SlashBond, CreateOrg, JoinOrg, SetMemberShare, DepositToOrg, OrgSplit, DissolveOrg, ReclaimOrgResidual, CreateReceipt, AdvanceClock, OpenTokenAccount, OutsideTransfer;
    hide NewReceipt, LastHash, ReceiptCount;
    if !i.DoReceipt? {
      ReceiptCounterFrame(w, i);
    } else if Accepted(w, i) {
      ReceiptEffect(w, i.receipt);
    }
  }

  // ---- the chain is the calls ----

  /** What the accepted calls of an actor in a run asked to have recorded, newest first. */
  ghost function Recorded(w: World, trace: seq<Instr>, actor: Pubkey): seq<Entry> {
    if trace == [] then []
    else
      var mid, i := Run(w, trace[..|trace| - 1]), trace[|trace| - 1];
      var rest := Recorded(w, trace[..|trace| - 1], actor);
      if Accepted(mid, i) && i.DoReceipt? && i.receipt.actor == actor then [CallEntry(i.receipt, mid.slot)] + rest else rest
  }

  ghost function Entries(h: seq<Receipt>): seq<Entry> {
    if h == [] then [] else [EntryOf(h[0])] + Entries(h[1..])
  }

  /** One step adds to the front of an actor's history what the actor's accepted call asked for, or nothing. */
  lemma StepRecords(w: World, i: Instr, actor: Pubkey)
    requires ChainInv(w)
    ensures var before, now := History(w.receipts, actor, Latest(w)), History(Step(w, i).receipts, actor, Latest(Step(w, i)));
            Entries(now) ==
              (if Accepted(w, i) && i.DoReceipt? && i.receipt.actor == actor then [CallEntry(i.receipt, w.slot)] else []) + Entries(before)
  {
    hide InitializeConfig, RegisterAgent, SetPaused, IssueAuthority, RevokeAuthority, ExpireAuthority, Pay, AtomicSplit, CreateEscrow, ReleaseEscrow, CancelEscrow,
      SlashBond, CreateOrg, JoinOrg, SetMemberShare, DepositToOrg, OrgSplit, DissolveOrg, ReclaimOrgResidual, CreateReceipt, AdvanceClock, OpenTokenAccount, OutsideTransfer;
    hide ChainInv, EntryOf, CallEntry, NewReceipt, LastHash, ReceiptCount;
    if !i.DoReceipt? {
      ReceiptsFrame(w, i);
      ReceiptCounterFrame(w, i);
    } else if Accepted(w, i) {
      var c := i.receipt;
      ReceiptEffect(w, c);
      HistoryPut(w.receipts, c.receiptId, NewReceipt(w, c), actor, Latest(w));
      var h := History(w.receipts, actor, Latest(w));
      assert ([NewReceipt(w, c)] + h)[1..] == h;
    }
  }

  /** In every reachable state an agent's receipts are, newest first, exactly its accepted calls of the run: each
      with the id and the type asked for, the hash of the payload passed, and the slot of the call. */
  lemma {:induction false} HistoryIsCalls(start: World, trace: seq<Instr>, actor: Pubkey)
    requires Init(start)
    ensures var w := Run(start, trace);
            Entries(History(w.receipts, actor, Latest(w))) == Recorded(start, trace, actor)
  {
    hide Exec, Step, ChainInv, KeyInv, CallEntry;
    if trace != [] {
      HistoryIsCalls(start, trace[..|trace| - 1], actor);
      ChainsHold(start, trace[..|trace| - 1]);
      StepRecords(Run(start, trace[..|trace| - 1]), trace[|trace| - 1], actor);
    }
  }

  /** A receipt is recorded if and only if a registered agent asks for it, under the next id and with 1 to 1024
      bytes, while the program is not paused. */
  lemma ReceiptExact(w: World, c: ReceiptCall)
    requires ChainInv(w) && KeyInv(w)
    ensures CreateReceipt(w, c).Ok? <==>
      && c.actor.Wallet? && c.actor in w.cris && w.config.Some? && !w.config.value.paused
      && 1 <= |c.payload| <= 1024 && c.receiptId as int == Latest(w) as int + 1
  {
    hide Preimage;
    if c.actor in w.cris {
      TotalCovers(Readings(w.cris, Receipts), c.actor, c.actor);
      assert w.cris[c.actor].agent == c.actor;
    }
  }

  /** The chain test can never fail, and the count can never overflow before the id counter does. */
  lemma ChainErrorsUnreachable(w: World, c: ReceiptCall)
    requires ChainInv(w)
    ensures CreateReceipt(w, c) != Err(ReceiptChainMismatch)
    ensures CreateReceipt(w, c) == Err(Overflow) ==> Latest(w) == U64_END - 1
  {
    hide Preimage;
    if c.actor in w.cris {
      TotalCovers(Readings(w.cris, Receipts), c.actor, c.actor);
    }
  }

  // ---- following hashes ----

  ghost predicate Distinguished(r: Receipt, s: Receipt) {
    r.actor.Wallet? && s.actor.Wallet? && SHA256(Preimage(r)) == SHA256(Preimage(s)) ==> Preimage(r) == Preimage(s)
  }

  /** The hash did not collide on what was hashed for the receipts of these two stores, nor give zero. */
  ghost predicate NoCollision(R: ReceiptStore, S: ReceiptStore) {
    && (forall i, j :: i in R && j in S ==> Distinguished(R[i], S[j]))
    && (forall i :: i in R ==> R[i].hash != 0)
    && (forall j :: j in S ==> S[j].hash != 0)
  }

  /** A walk that knows nothing but a hash: find a receipt with it, and go on with the hash it names. */
  ghost function Follow(R: ReceiptStore, h: Bytes32, n: U64): seq<Receipt>
    decreases n
  {
    if h == 0 || !exists id: U64 :: 1 <= id <= n && id in R && R[id].hash == h then []
    else
      var id: U64 :| 1 <= id <= n && id in R && R[id].hash == h;
      [R[id]] + Follow(R, R[id].prevHash, id - 1)
  }

  lemma {:induction false} HistoryIn(R: ReceiptStore, actor: Pubkey, n: U64)
    ensures forall r :: r in History(R, actor, n) ==> exists id :: id in R && id <= n && R[id] == r
    ensures forall r :: r in History(R, actor, n) ==> r.actor == actor
  {
    if n > 0 {
      HistoryIn(R, actor, n - 1);
    }
  }

  /** If the newest receipt of a history has id `top`, the rest is the history below `top`. */
  lemma {:induction false} HistoryBelow(R: ReceiptStore, actor: Pubkey, n: U64)
    requires forall id :: id in R ==> R[id].receiptId == id
    requires History(R, actor, n) != []
    ensures var top := History(R, actor, n)[0].receiptId;
            1 <= top <= n && top in R && R[top] == History(R, actor, n)[0] && History(R, actor, n)[1..] == History(R, actor, top - 1)
    decreases n
  {
    var rest := History(R, actor, n - 1);
    if !(n in R && R[n].actor == actor) {
      HistoryBelow(R, actor, n - 1);
    } else {
      assert ([R[n]] + rest)[1..] == rest;
    }
  }

  ghost predicate Store(R: ReceiptStore) {
    forall id :: id in R ==> Sealed(R, id)
  }

  /** Whichever receipt with the hash the walk finds, it is the one that carries it. */
  lemma FollowOne(R: ReceiptStore, h: Bytes32, n: U64, top: U64)
    requires Store(R) && NoCollision(R, R) && 1 <= top <= n && top in R && R[top].hash == h
    ensures Follow(R, h, n) == [R[top]] + Follow(R, R[top].prevHash, top - 1)
  {
    assert h != 0 by { assert R[top].hash != 0; }
    hide Preimage, NoCollision, Distinguished;
    var id: U64 :| 1 <= id <= n && id in R && R[id].hash == h && Follow(R, h, n) == [R[id]] + Follow(R, R[id].prevHash, id - 1);
    SameHashSameReceipt(R, R, id, top);
    assert Sealed(R, id) && Sealed(R, top);
  }

  /** Without collisions the hash alone leads through the actor's receipts, all of them and no others. */
  lemma {:induction false} FollowIsHistory(R: ReceiptStore, actor: Pubkey, n: U64, h: Bytes32)
    requires Store(R) && NoCollision(R, R) && Linked(History(R, actor, n), h)
    ensures Follow(R, h, n) == History(R, actor, n)
    decreases n
  {
    hide Preimage, NoCollision;
    var H := History(R, actor, n);
    if H == [] {
      assert h == 0;
    } else {
      assert forall id :: id in R ==> Sealed(R, id);
      HistoryBelow(R, actor, n);
      var top := H[0].receiptId;
      FollowOne(R, h, n, top);
      FollowIsHistory(R, actor, top - 1, R[top].prevHash);
      assert H == [H[0]] + H[1..];
    }
  }

  lemma SameHashSameReceipt(R: ReceiptStore, S: ReceiptStore, i: U64, j: U64)
    requires Store(R) && Store(S) && NoCollision(R, S) && i in R && j in S && R[i].hash == S[j].hash
    ensures R[i] == S[j]
  {
    hide Preimage;
    assert Sealed(R, i) && Sealed(S, j);
    PreimageInjective(R[i], S[j]);
  }

  lemma {:induction false} SameEndSameHistory(R: ReceiptStore, S: ReceiptStore, a: Pubkey, b: Pubkey, m: U64, n: U64, h: Bytes32)
    requires Store(R) && Store(S) && NoCollision(R, S)
    requires Linked(History(R, a, m), h) && Linked(History(S, b, n), h)
    ensures History(R, a, m) == History(S, b, n)
    decreases m
  {
    hide Preimage;
    var A, B := History(R, a, m), History(S, b, n);
    if A != [] {
      HistoryBelow(R, a, m);
    }
    if B != [] {
      HistoryBelow(S, b, n);
    }
    if A != [] && B != [] {
      var i, j := A[0].receiptId, B[0].receiptId;
      SameHashSameReceipt(R, S, i, j);
      SameEndSameHistory(R, S, a, b, i - 1, j - 1, A[0].prevHash);
      assert A == [A[0]] + A[1..] && B == [B[0]] + B[1..];
    }
  }

  /** Walking back from an agent's last hash by hash alone finds exactly its receipts, in every reachable state. */
  lemma FollowFindsAll(start: World, trace: seq<Instr>, actor: Pubkey)
    requires Init(start) && NoCollision(Run(start, trace).receipts, Run(start, trace).receipts)
    ensures var w := Run(start, trace);
            && Follow(w.receipts, LastHash(w, actor), Latest(w)) == History(w.receipts, actor, Latest(w))
            && |History(w.receipts, actor, Latest(w))| == ReceiptCount(w, actor)
  {
    hide Exec, Step, Sum, KeyInv;
    ChainsHold(start, trace);
    var w := Run(start, trace);
    assert Chained(w, actor);
    FollowIsHistory(w.receipts, actor, Latest(w), LastHash(w, actor));
  }

  /** Two runs that end with the same last hash for an agent recorded the same receipts for it, field by field and
      in the same order; so the agent made the same calls, up to what the hash makes of their payloads. */
  lemma LastHashPinsHistory(start: World, trace: seq<Instr>, start': World, trace': seq<Instr>, actor: Pubkey)
    requires Init(start) && Init(start')
    requires NoCollision(Run(start, trace).receipts, Run(start', trace').receipts)
    requires LastHash(Run(start, trace), actor) == LastHash(Run(start', trace'), actor)
    ensures var w, v := Run(start, trace), Run(start', trace');
            History(w.receipts, actor, Latest(w)) == History(v.receipts, actor, Latest(v))
    ensures Recorded(start, trace, actor) == Recorded(start', trace', actor)
  {
    hide Exec, Step, Sum, KeyInv;
    ChainsHold(start, trace);
    ChainsHold(start', trace');
    var w, v := Run(start, trace), Run(start', trace');
    assert Chained(w, actor) && Chained(v, actor);
    SameEndSameHistory(w.receipts, v.receipts, actor, actor, Latest(w), Latest(v), LastHash(w, actor));
    HistoryIsCalls(start, trace, actor);
    HistoryIsCalls(start', trace', actor);
  }
}
