/** The program itself: handlers that change the accounts in place, in the order of the code,
    each proved against its specification, and the transaction that undoes a failed handler. */
module ProgramModel {
  import opened Types
  import opened TokenLedger
  import opened AuthoritySpec
  import opened SpendSpec
  import opened EscrowSpec
  import opened OrgSpec
  import opened ReceiptSpec
  import opened AgentSpec
  import opened Machine

  /** A handler that succeeds leaves exactly the specified accounts, and one that fails gives the specified error. */
  ghost predicate Meets(spec: Result<World>, r: Result<()>, now: World) {
    match spec
    case Ok(next) => r == Ok(()) && now == next
    case Err(e) => r == Err(e)
  }

  /** Keeps, in order, the requested categories the parent also lists, in an eight-slot array. */
  method IntersectCategories(request: Categories, parent: Categories) returns (r: Categories)
    ensures r == Common(request, parent)
  {
    var slots := new Bytes16[MAX_CATEGORIES](_ => 0);
    var count := 0;
    var i := 0;
    while i < |request|
      invariant 0 <= i <= |request| && count <= i
      invariant slots[..count] == Common(request[..i], parent)
    {
      var cat := request[i];
      assert request[..i + 1][..i] == request[..i];
      var j := 0;
      while j < |parent| && parent[j] != cat
        invariant 0 <= j <= |parent| && cat !in parent[..j]
      {
        j := j + 1;
      }
      if j < |parent| {
        slots[count] := cat;
        count := count + 1;
      } else {
        assert parent[..j] == parent;
      }
      i := i + 1;
    }
    assert request[..i] == request;
    r := slots[..count];
  }

  /** Once a prefix of the legs fails, the whole total fails the same way. */
  lemma {:induction false} TotalFails(amounts: seq<U64>, n: nat)
    requires n <= |amounts| && SplitTotal(amounts[..n]).Err?
    ensures SplitTotal(amounts) == SplitTotal(amounts[..n])
    decreases |amounts| - n
  {
    if n == |amounts| {
      assert amounts[..n] == amounts;
    } else {
      assert amounts[..n + 1][..n] == amounts[..n];
      TotalFails(amounts, n + 1);
    }
  }

  /** Adds the legs up one by one, refusing an empty leg and a sum that does not fit. */
  method AddLegs(amounts: seq<U64>) returns (r: Result<U64>)
    ensures r == SplitTotal(amounts)
  {
    var total: U64 := 0;
    var i := 0;
    while i < |amounts|
      invariant 0 <= i <= |amounts|
      invariant SplitTotal(amounts[..i]) == Ok(total)
    {
      assert amounts[..i + 1][..i] == amounts[..i];
      if amounts[i] == 0 { TotalFails(amounts, i + 1); return Err(InvalidAmount); }
      if total + amounts[i] >= U64_END { TotalFails(amounts, i + 1); return Err(Overflow); }
      total := total + amounts[i];
      i := i + 1;
    }
    assert amounts[..i] == amounts;
    return Ok(total);
  }

  /** The debit gate, test by test in the order all three spending handlers have them. */
  method CheckDebit(w: World, authorityId: U64, acc: Option<U64>, payer: Pubkey, payees: seq<Pubkey>,
                    amount: U64, category: Bytes16, payerToken: Address) returns (r: Result<Option<Staged>>)
    ensures r == DebitGate(w, authorityId, acc, payer, payees, amount, category, payerToken)
  {
    if authorityId == 0 {
      if acc.Some? { return Err(Unauthorized); }
      return Ok(None);
    }
    if acc.None? { return Err(AuthorityRequired); }
    if acc.value !in w.authorities || payerToken !in w.tokens { return Err(AnchorConstraint); }
    var authority := w.authorities[acc.value];
    if acc.value != authorityId { return Err(Unauthorized); }
    if authority.authorityId != authorityId { return Err(Unauthorized); }
    if authority.agent != payer { return Err(AuthorityAgentMismatch); }
    if authority.expirySlot != 0 && w.slot > authority.expirySlot { return Err(AuthorityExpired); }
    if authority.status != Active { return Err(AuthorityNotActive); }
    if amount > authority.maxPerTx { return Err(ExceedsMaxPerTx); }
    if authority.spent + amount >= U64_END { return Err(Overflow); }
    var newSpent := authority.spent + amount;
    if newSpent > authority.maxTotal { return Err(ExceedsMaxTotal); }
    if newSpent > authority.budget { return Err(InsufficientBudget); }
    if !CategoryAllowed(authority, category) { return Err(CategoryNotAllowed); }
    var i := 0;
    while i < |payees|
      invariant 0 <= i <= |payees|
      invariant forall k :: 0 <= k < i ==> payees[k] !in authority.blocked
    {
      if payees[i] in authority.blocked { return Err(RecipientBlocked); }
      i := i + 1;
    }
    var pre := w.tokens[payerToken].amount;
    if pre < amount { return Err(InsufficientBudget); }
    if pre - amount < authority.requireMinReserve { return Err(InsufficientBudget); }
    return Ok(Some(Staged(newSpent, newSpent >= authority.budget)));
  }

  lemma RevokeNone(authorities: map<U64, Authority>)
    ensures Revoke(authorities, ChildIds([])) == authorities
  {
  }

  /** Revoking one more listed authority, after the others. */
  lemma RevokeOneMore(authorities: map<U64, Authority>, ids: set<U64>, id: U64)
    requires id in authorities
    ensures var so := Revoke(authorities, ids);
            var a := if so[id].status == Active then so[id].(status := Revoked) else so[id];
            so[id := a] == Revoke(authorities, ids + {id})
  {
  }

  /** Revoking adds and drops no record, and changes none but in its status. */
  lemma RevokeSome(authorities: map<U64, Authority>, ids: set<U64>)
    ensures var so := Revoke(authorities, ids);
            so.Keys == authorities.Keys && forall id :: id in so ==> so[id] == authorities[id].(status := so[id].status)
  {
  }

  lemma ListedOneMore(children: seq<ChildMeta>, i: nat)
    requires i < |children|
    ensures ChildIds(children[..i + 1]) == ChildIds(children[..i]) + {children[i].id}
  {
    assert children[..i + 1] == children[..i] + [children[i]];
  }

  lemma IssueAccountsExist(w: World, c: IssueCall)
    ensures IssueAccounts(w, c).None? ==> w.config.Some? && (c.parentAcc.Some? ==> c.parentAcc.value in w.authorities)
  {
    hide TokenGuard;
  }

  class Program {
    /** Every account, as the transactions so far left it. */
    var bank: World
    /** The accounts as they stood at each transfer call so far. */
    ghost var atTransfer: seq<World>

    constructor (w: World)
      ensures bank == w && atTransfer == []
    {
      bank := w;
      atTransfer := [];
    }

    /** Every transfer made since the entry `log` found all accounts but the balances as `w` has them. */
    ghost predicate FailClosed(log: seq<World>, w: World)
      reads this
    {
      |log| <= |atTransfer| && atTransfer[..|log|] == log
      && forall k :: |log| <= k < |atTransfer| ==> Books(atTransfer[k]) == Books(w)
    }

    method TransferChecked(from: Address, to: Address, mint: Bytes32, signer: Pubkey, amount: U64, accept: bool) returns (r: Result<()>)
      modifies this
      ensures atTransfer == old(atTransfer) + [old(bank)]
      ensures match Transfer(old(bank.tokens), from, to, mint, signer, amount, accept)
              case Ok(t) => r == Ok(()) && bank == old(bank).(tokens := t)
              case Err(e) => r == Err(e) && bank == old(bank)
    {
      atTransfer := atTransfer + [bank];
      var t := bank.tokens;
      if !accept || from !in t || to !in t { return Err(TokenTransferFailed); }
      if t[from].mint != mint || t[to].mint != mint || t[from].owner != signer { return Err(TokenTransferFailed); }
      if t[from].amount < amount { return Err(TokenTransferFailed); }
      if from != to {
        if t[to].amount + amount >= U64_END { return Err(TokenTransferFailed); }
        bank := bank.(tokens := bank.tokens[from := t[from].(amount := t[from].amount - amount)]);
        bank := bank.(tokens := bank.tokens[to := t[to].(amount := t[to].amount + amount)]);
      }
      return Ok(());
    }

    /** The staged debit of pay, create_escrow and atomic_split, written once the transfers are through. */
    method CommitSpent(id: U64, staged: Option<Staged>)
      modifies `bank
      ensures bank == old(bank).(authorities := Commit(old(bank.authorities), id, staged))
    {
      if staged.Some? && id in bank.authorities {
        var a := bank.authorities[id];
        bank := bank.(authorities := bank.authorities[id := a.(spent := staged.value.newSpent)]);
        if staged.value.exhaust {
          bank := bank.(authorities := bank.authorities[id := bank.authorities[id].(status := Exhausted)]);
        }
      }
    }

    // ---- configuration and agents ----

    method HandleInitializeConfig(admin: Pubkey, mint: Bytes32) returns (r: Result<()>)
      modifies this
      ensures Meets(InitializeConfig(old(bank), admin, mint), r, bank)
      ensures FailClosed(old(atTransfer), old(bank))
    {
      if !admin.Wallet? { return Err(MissingSignature); }
      if bank.config.Some? { return Err(AnchorConstraint); }
      bank := bank.(config := Some(Config(admin, mint, 0, 0, 0, 0, false)));
      return Ok(());
    }

    method HandleRegisterAgent(agent: Pubkey) returns (r: Result<()>)
      modifies this
      ensures Meets(RegisterAgent(old(bank), agent), r, bank)
      ensures FailClosed(old(atTransfer), old(bank))
    {
      var bad := RegisterAccounts(bank, agent);
      if bad.Some? { return Err(bad.value); }
      if bank.config.value.paused { return Err(Paused); }
      bank := bank.(identities := bank.identities[agent := AgentIdentity(agent, bank.slot, true)]);
      bank := bank.(cris := bank.cris[agent := Cri(agent, 0, 0, 0, 0, 0, bank.slot, bank.slot, 0, 0)]);
      return Ok(());
    }

    method HandleSetPaused(admin: Pubkey, paused: bool) returns (r: Result<()>)
      modifies this
      ensures Meets(SetPaused(old(bank), admin, paused), r, bank)
      ensures FailClosed(old(atTransfer), old(bank))
    {
      if !admin.Wallet? { return Err(MissingSignature); }
      if bank.config.None? { return Err(AnchorConstraint); }
      if bank.config.value.admin != admin { return Err(Unauthorized); }
      bank := bank.(config := Some(bank.config.value.(paused := paused)));
      return Ok(());
    }

    // ---- authorities ----

    method HandleIssue(c: IssueCall) returns (r: Result<()>)
      modifies this
      ensures Meets(IssueAuthority(old(bank), c), r, bank)
    {
      IssueAccountsExist(bank, c);
      hide IssueAccounts;
      var bad := IssueAccounts(bank, c);
      if bad.Some? { return Err(bad.value); }
      if bank.config.value.paused { return Err(Paused); }
      if c.budget == 0 { return Err(InvalidBudget); }
      if |c.categories| > MAX_CATEGORIES { return Err(InvalidCategoryCount); }
      if bank.config.value.authorityCounter + 1 >= U64_END { return Err(Overflow); }
      if c.authorityId != bank.config.value.authorityCounter + 1 { return Err(Unauthorized); }

      var depth: U8 := 0;
      var finalMaxPerTx, finalMaxTotal := c.maxPerTx, c.maxTotal;
      var finalCategories: Categories := c.categories;
      if c.parentId != 0 {
        if c.parentAcc.None? { return Err(ParentRequired); }
        var parent := bank.authorities[c.parentAcc.value];
        if parent.authorityId != c.parentId { return Err(ParentIdMismatch); }
        if parent.status != Active { return Err(ParentNotActive); }
        if parent.agent != c.agent { return Err(Unauthorized); }
        if parent.depth + 1 >= 0x100 || parent.depth + 1 > MAX_AUTHORITY_DEPTH { return Err(MaxDelegationDepth); }
        depth := parent.depth + 1;
        if parent.budget < parent.spent { return Err(Overflow); }
        if c.budget > parent.budget - parent.spent { return Err(ChildBudgetExceedsParent); }
        finalMaxPerTx := Min(finalMaxPerTx, parent.maxPerTx);
        finalMaxTotal := Min(finalMaxTotal, parent.maxTotal);
        if |parent.categories| > 0 {
          if |finalCategories| == 0 {
            finalCategories := parent.categories;
          } else {
            finalCategories := IntersectCategories(finalCategories, parent.categories);
          }
          if |finalCategories| == 0 && |c.categories| > 0 { return Err(EmptyCategoryIntersection); }
        }
      } else if c.parentAcc.Some? {
        return Err(Unauthorized);
      }

      bank := bank.(config := Some(bank.config.value.(authorityCounter := c.authorityId)));
      if finalMaxTotal > c.budget {
        finalMaxTotal := c.budget;
      }
      bank := bank.(authorities := bank.authorities[c.authorityId := Authority(
        c.authorityId, c.agent, c.parentId, depth, c.budget, 0, finalMaxPerTx, finalMaxTotal,
        finalCategories, [], 0, c.expirySlot, Active, c.bondAmount)]);

      if c.bondAmount > 0 {
        if !c.bondAcc || c.agentVault.None? || c.bondVault.None? { return Err(InsufficientBond); }
        if c.mintAcc.None? || !c.tokenProgram || !c.ataProgram { return Err(InvalidMint); }
        bank := bank.(bonds := bank.bonds[c.authorityId := Bond(c.authorityId, c.agent, c.bondAmount, BondActive)]);
        if c.bondVault.value != Ata(BondPda(c.authorityId), c.mintAcc.value) { return Err(Unauthorized); }
        r := TransferChecked(c.agentVault.value, c.bondVault.value, c.mintAcc.value, c.agent, c.bondAmount, c.accept);
        return r;
      }
      if c.bondAcc || c.agentVault.Some? || c.bondVault.Some? || c.mintAcc.Some? || c.tokenProgram || c.ataProgram {
        return Err(Unauthorized);
      }
      return Ok(());
    }

    /** The cascade over the remaining accounts, each checked and written back before the next is looked at. */
    method Cascade(c: RevokeCall) returns (r: Result<()>)
      modifies `bank
      ensures match CascadeRefusal(old(bank), c)
              case Some(e) => r == Err(e)
              case None => r == Ok(()) && bank == old(bank).(authorities := Revoke(old(bank.authorities), ChildIds(c.children)))
    {
      hide Revoke, ChildIds;
      ghost var entry := bank.authorities;
      RevokeNone(entry);
      var i := 0;
      while i < |c.children|
        invariant 0 <= i <= |c.children|
        invariant i > 0 ==> ChildFits(bank.writeBack)
        invariant forall k :: 0 <= k < i ==> CascadeChild(entry, c, c.children[k])
        invariant bank == old(bank).(authorities := Revoke(entry, ChildIds(c.children[..i])))
      {
        var m := c.children[i];
        assert m in c.children && m == c.children[i];
        RevokeSome(entry, ChildIds(c.children[..i]));
        if !m.writable || m.id !in bank.authorities { return Err(InvalidCascadeChild); }
        var child := bank.authorities[m.id];
        if child.parentId != c.authorityId || child.agent != c.agent { return Err(InvalidCascadeChild); }
        if child.status == Active {
          child := child.(status := Revoked);
        }
        if BytesWritten(bank.writeBack) > ACCOUNT_BYTES - WRITE_OFFSET { return Err(AccountDidNotSerialize); }
        RevokeOneMore(entry, ChildIds(c.children[..i]), m.id);
        ListedOneMore(c.children, i);
        bank := bank.(authorities := bank.authorities[m.id := child]);
        i := i + 1;
      }
      assert c.children[..i] == c.children;
      return Ok(());
    }

    method HandleRevoke(c: RevokeCall) returns (r: Result<()>)
      modifies this
      ensures Meets(RevokeAuthority(old(bank), c), r, bank)
      ensures FailClosed(old(atTransfer), old(bank))
    {
      var bad := RevokeAccounts(bank, c);
      if bad.Some? { return Err(bad.value); }
      if bank.authorities[c.authorityId].status != Active { return Err(AuthorityAlreadyRevoked); }
      ghost var entry := bank.authorities;
      r := Cascade(c);
      if r.Err? { return r; }
      RevokeOneMore(entry, ChildIds(c.children), c.authorityId);
      bank := bank.(authorities := bank.authorities[c.authorityId := bank.authorities[c.authorityId].(status := Revoked)]);
      return Ok(());
    }

    method HandleExpire(c: ExpireCall) returns (r: Result<()>)
      modifies this
      ensures Meets(ExpireAuthority(old(bank), c), r, bank)
      ensures FailClosed(old(atTransfer), old(bank))
    {
      var bad := ExpireAccounts(bank, c);
      if bad.Some? { return Err(bad.value); }
      if bank.authorities[c.authorityId].expirySlot == 0 { return Err(AuthorityNotExpired); }
      if bank.slot <= bank.authorities[c.authorityId].expirySlot { return Err(AuthorityNotExpired); }
      bank := bank.(authorities := bank.authorities[c.authorityId := bank.authorities[c.authorityId].(status := Expired)]);
      return Ok(());
    }

    // ---- spending ----

    method HandlePay(c: PayCall) returns (r: Result<()>)
      modifies this
      ensures Meets(Pay(old(bank), c), r, bank)
      ensures FailClosed(old(atTransfer), old(bank))
    {
      hide DebitGate;
      var bad := PayAccounts(bank, c);
      if bad.Some? { return Err(bad.value); }
      if bank.config.value.paused { return Err(Paused); }
      if c.amount == 0 { return Err(InvalidAmount); }
      if c.payer == c.payee { return Err(Unauthorized); }
      var staged := CheckDebit(bank, c.authorityId, c.authorityAcc, c.payer, [c.payee], c.amount, c.category, c.payerToken);
      if staged.Err? { return Err(staged.error); }

      r := TransferChecked(c.payerToken, c.payeeToken, c.mint, c.payer, c.amount, c.accept);
      if r.Err? { return r; }

      CommitSpent(c.authorityId, staged.value);
      var payer := Commitment(bank.cris[c.payer], c.amount, bank.slot);
      if payer.Err? { return Err(payer.error); }
      bank := bank.(cris := bank.cris[c.payer := payer.value]);
      var payee := Settlement(bank.cris[c.payee], c.amount, bank.slot);
      if payee.Err? { return Err(payee.error); }
      bank := bank.(cris := bank.cris[c.payee := payee.value]);
      return Ok(());
    }

    method HandleSplit(c: SplitCall) returns (r: Result<()>)
      modifies this
      ensures Meets(AtomicSplit(old(bank), c), r, bank)
      ensures FailClosed(old(atTransfer), old(bank))
    {
      hide DebitGate, SplitTotal;
      var bad := SplitAccounts(bank, c);
      if bad.Some? { return Err(bad.value); }
      if bank.config.value.paused { return Err(Paused); }
      if |c.amounts| == 0 || |c.amounts| > 2 { return Err(InvalidAmount); }
      if |c.amounts| == 2 && (c.payeeB.None? || c.tokenB.None? || c.criB.None?) { return Err(InvalidRemainingAccounts); }

      var sum := AddLegs(c.amounts);
      if sum.Err? { return Err(sum.error); }
      var total := sum.value;
      if c.payer == c.payeeA { return Err(Unauthorized); }
      var staged := CheckDebit(bank, c.authorityId, c.authorityAcc, c.payer, SplitPayees(c), total, c.category, c.payerToken);
      if staged.Err? { return Err(staged.error); }

      // The accounts as loaded on entry; the reputation copies are written back on exit.
      var loaded := bank;
      r := TransferChecked(c.payerToken, c.tokenA, c.mint, c.payer, c.amounts[0], c.acceptA);
      if r.Err? { return r; }
      if |c.amounts| == 2 {
        if loaded.tokens[c.tokenB.value].owner != c.payeeB.value { return Err(Unauthorized); }
        r := TransferChecked(c.payerToken, c.tokenB.value, c.mint, c.payer, c.amounts[1], c.acceptB);
        if r.Err? { return r; }
      }

      CommitSpent(c.authorityId, staged.value);
      var payer := Commitment(loaded.cris[c.payer], total, bank.slot);
      if payer.Err? { return Err(payer.error); }
      var a := Settlement(loaded.cris[c.payeeA], c.amounts[0], bank.slot);
      if a.Err? { return Err(a.error); }
      var b := if c.criB.Some? then Some(loaded.cris[c.criB.value]) else None;
      if |c.amounts| == 2 {
        if b.value.agent != c.payeeB.value { return Err(Unauthorized); }
        var settled := Settlement(b.value, c.amounts[1], bank.slot);
        if settled.Err? { return Err(settled.error); }
        b := Some(settled.value);
      }
      bank := bank.(cris := bank.cris[c.payer := payer.value]);
      bank := bank.(cris := bank.cris[c.payeeA := a.value]);
      if b.Some? {
        bank := bank.(cris := bank.cris[c.criB.value := b.value]);
      }
      return Ok(());
    }

    // ---- escrows and bonds ----

    method HandleCreateEscrow(c: EscrowCall) returns (r: Result<()>)
      modifies this
      ensures Meets(CreateEscrow(old(bank), c), r, bank)
      ensures FailClosed(old(atTransfer), old(bank))
    {
      hide DebitGate;
      var bad := EscrowAccounts(bank, c);
      if bad.Some? { return Err(bad.value); }
      var entry := bank;
      bank := bank.(tokens := bank.tokens[EscrowVault(c.escrowId) := TokenAccount(EscrowPda(c.escrowId), c.mint, 0)]);
      if bank.config.value.paused { return Err(Paused); }
      if c.amount == 0 { return Err(InvalidAmount); }
      if bank.config.value.escrowCounter + 1 >= U64_END { return Err(Overflow); }
      if c.escrowId != bank.config.value.escrowCounter + 1 { return Err(EscrowIdMismatch); }
      if c.condition.Unknown? { return Err(EscrowConditionFailed); }
      if c.payer == c.payee { return Err(Unauthorized); }
      var staged := CheckDebit(entry, c.authorityId, c.authorityAcc, c.payer, [c.payee], c.amount, c.category, c.payerToken);
      if staged.Err? { return Err(staged.error); }

      r := TransferChecked(c.payerToken, EscrowVault(c.escrowId), c.mint, c.payer, c.amount, c.accept);
      if r.Err? { return r; }

      CommitSpent(c.authorityId, staged.value);
      bank := bank.(escrows := bank.escrows[c.escrowId := Escrow(
        c.escrowId, c.payer, c.payee, c.amount, c.authorityId, c.category,
        c.condition, c.conditionData, Open, bank.slot, c.expirySlot)]);
      bank := bank.(config := Some(bank.config.value.(escrowCounter := c.escrowId)));
      return Ok(());
    }

    method HandleRelease(c: ReleaseCall) returns (r: Result<()>)
      modifies this
      ensures Meets(ReleaseEscrow(old(bank), c), r, bank)
      ensures FailClosed(old(atTransfer), old(bank))
    {
      var bad := ReleaseAccounts(bank, c);
      if bad.Some? { return Err(bad.value); }
      var e := bank.escrows[c.escrowId];
      if e.status != Open { return Err(EscrowNotOpen); }
      if e.condition != OnTimeout && e.expirySlot != 0 && bank.slot > e.expirySlot { return Err(EscrowExpired); }
      match e.condition {
        case Immediate =>
        case OnTimeout =>
          if e.expirySlot == 0 { return Err(EscrowConditionFailed); }
          if bank.slot < e.expirySlot { return Err(EscrowConditionFailed); }
        case OnReceipt =>
          if c.proof.head != e.conditionData.head { return Err(EscrowConditionFailed); }
        case _ => return Err(EscrowConditionFailed);
      }
      if c.mint != bank.tokens[EscrowVault(c.escrowId)].mint { return Err(InvalidMint); }

      r := TransferChecked(EscrowVault(c.escrowId), c.payeeToken, c.mint, EscrowPda(c.escrowId), e.amount, c.accept);
      if r.Err? { return r; }

      bank := bank.(escrows := bank.escrows[c.escrowId := e.(status := Released)]);
      var loaded := bank.cris;
      var payer := Commitment(loaded[e.payer], e.amount, bank.slot);
      if payer.Err? { return Err(payer.error); }
      bank := bank.(cris := bank.cris[e.payer := payer.value]);
      var payee := Settlement(loaded[e.payee], e.amount, bank.slot);
      if payee.Err? { return Err(payee.error); }
      bank := bank.(cris := bank.cris[e.payee := payee.value]);
      return Ok(());
    }

    method HandleCancel(c: CancelCall) returns (r: Result<()>)
      modifies this
      ensures Meets(CancelEscrow(old(bank), c), r, bank)
      ensures FailClosed(old(atTransfer), old(bank))
    {
      var bad := CancelAccounts(bank, c);
      if bad.Some? { return Err(bad.value); }
      var e := bank.escrows[c.escrowId];
      if e.status != Open { return Err(EscrowNotOpen); }
      var expired := e.expirySlot != 0 && bank.slot > e.expirySlot;
      var isPayer := c.canceller == e.payer;
      if !(isPayer || expired) { return Err(EscrowCancelUnauthorized); }
      if c.mint != bank.tokens[EscrowVault(c.escrowId)].mint { return Err(InvalidMint); }

      r := TransferChecked(EscrowVault(c.escrowId), c.payerToken, c.mint, EscrowPda(c.escrowId), e.amount, c.accept);
      if r.Err? { return r; }

      bank := bank.(escrows := bank.escrows[c.escrowId := e.(status := if expired && !isPayer then Lapsed else Cancelled)]);
      var cri := bank.cris[e.payer];
      if cri.failedCommitments + 1 >= U64_END { return Err(Overflow); }
      bank := bank.(cris := bank.cris[e.payer := cri.(failedCommitments := cri.failedCommitments + 1, lastActiveSlot := bank.slot)]);
      return Ok(());
    }

    method HandleSlash(c: SlashCall) returns (r: Result<()>)
      modifies this
      ensures Meets(SlashBond(old(bank), c), r, bank)
      ensures |old(atTransfer)| <= |atTransfer| <= |old(atTransfer)| + 1 && (r.Ok? ==> |atTransfer| == |old(atTransfer)| + 1)
      ensures |atTransfer| > |old(atTransfer)| ==>
        && c.authorityId in old(bank).bonds
        && atTransfer == old(atTransfer) + [old(bank).(bonds := old(bank).bonds[c.authorityId := old(bank).bonds[c.authorityId].(status := BondSlashed)])]
    {
      var bad := SlashAccounts(bank, c);
      if bad.Some? { return Err(bad.value); }
      var bond := bank.bonds[c.authorityId];
      bank := bank.(bonds := bank.bonds[c.authorityId := bond.(status := BondSlashed)]);
      r := TransferChecked(c.bondVault, c.destination, c.mint, BondPda(c.authorityId), bond.amount, c.accept);
    }

    // ---- organizations ----

    method HandleCreateOrg(c: CreateOrgCall) returns (r: Result<()>)
      modifies this
      ensures Meets(CreateOrg(old(bank), c), r, bank)
      ensures FailClosed(old(atTransfer), old(bank))
    {
      var bad := CreateOrgAccounts(bank, c);
      if bad.Some? { return Err(bad.value); }
      bank := bank.(tokens := bank.tokens[OrgTreasury(c.orgId) := TokenAccount(OrgPda(c.orgId), c.mint, 0)]);
      if bank.config.value.paused { return Err(Paused); }
      if c.creatorShareBps > FULL_SHARE { return Err(InvalidShareBps); }
      if bank.config.value.orgCounter + 1 >= U64_END { return Err(Overflow); }
      if c.orgId != bank.config.value.orgCounter + 1 { return Err(Unauthorized); }
      var share: U16 := if c.creatorShareBps == 0 then 10_000 else c.creatorShareBps;
      bank := bank.(orgs := bank.orgs[c.orgId := Org(c.orgId, c.nameHash, c.creator, 1, share, OrgActive, bank.slot)]);
      bank := bank.(members := bank.members[MemberKey(c.orgId, c.creator) := OrgMember(c.orgId, c.creator, Admin, share)]);
      bank := bank.(config := Some(bank.config.value.(orgCounter := c.orgId)));
      return Ok(());
    }

    method HandleJoin(c: JoinCall) returns (r: Result<()>)
      modifies this
      ensures Meets(JoinOrg(old(bank), c), r, bank)
      ensures FailClosed(old(atTransfer), old(bank))
    {
      var bad := JoinAccounts(bank, c);
      if bad.Some? { return Err(bad.value); }
      if !(c.role == Admin || c.role == Member || c.role == Viewer) { return Err(Unauthorized); }
      if c.shareBps > FULL_SHARE { return Err(InvalidShareBps); }
      var org := bank.orgs[c.orgId];
      if org.totalShareBps + c.shareBps >= 0x1_0000 { return Err(Overflow); }
      if org.totalShareBps + c.shareBps > FULL_SHARE { return Err(ShareBpsExceedsMax); }
      bank := bank.(orgs := bank.orgs[c.orgId := org.(totalShareBps := org.totalShareBps + c.shareBps)]);
      if org.memberCount + 1 >= 0x1_0000 { return Err(Overflow); }
      bank := bank.(orgs := bank.orgs[c.orgId := bank.orgs[c.orgId].(memberCount := org.memberCount + 1)]);
      bank := bank.(members := bank.members[MemberKey(c.orgId, c.newAgent) := OrgMember(c.orgId, c.newAgent, c.role, c.shareBps)]);
      return Ok(());
    }

    method HandleSetShare(c: ShareCall) returns (r: Result<()>)
      modifies this
      ensures Meets(SetMemberShare(old(bank), c), r, bank)
      ensures FailClosed(old(atTransfer), old(bank))
    {
      var bad := ShareAccounts(bank, c);
      if bad.Some? { return Err(bad.value); }
      if c.newShareBps > FULL_SHARE { return Err(InvalidShareBps); }
      var target := MemberKey(c.orgId, c.target);
      var before := bank.members[target].shareBps;
      var org := bank.orgs[c.orgId];
      if org.totalShareBps < before { return Err(Overflow); }
      var withoutOld := org.totalShareBps - before;
      if withoutOld + c.newShareBps >= 0x1_0000 { return Err(Overflow); }
      if withoutOld + c.newShareBps > FULL_SHARE { return Err(ShareBpsExceedsMax); }
      bank := bank.(orgs := bank.orgs[c.orgId := org.(totalShareBps := withoutOld + c.newShareBps)]);
      bank := bank.(members := bank.members[target := bank.members[target].(shareBps := c.newShareBps)]);
      return Ok(());
    }

    method HandleDeposit(c: DepositCall) returns (r: Result<()>)
      modifies this
      ensures Meets(DepositToOrg(old(bank), c), r, bank)
      ensures FailClosed(old(atTransfer), old(bank))
    {
      var bad := DepositAccounts(bank, c);
      if bad.Some? { return Err(bad.value); }
      if c.amount == 0 { return Err(InvalidAmount); }
      if c.mint != bank.tokens[OrgTreasury(c.orgId)].mint { return Err(InvalidMint); }
      r := TransferChecked(c.memberToken, OrgTreasury(c.orgId), c.mint, c.member, c.amount, c.accept);
    }

    method HandleOrgSplit(c: OrgSplitCall) returns (r: Result<()>)
      modifies this
      ensures Meets(OrgSplit(old(bank), c), r, bank)
      ensures FailClosed(old(atTransfer), old(bank))
    {
      var bad := OrgSplitAccounts(bank, c);
      if bad.Some? { return Err(bad.value); }
      if |c.amounts| != 1 { return Err(InvalidRemainingAccounts); }
      if c.amounts[0] == 0 { return Err(InvalidAmount); }
      if c.amounts[0] > bank.tokens[OrgTreasury(c.orgId)].amount { return Err(TreasuryConservation); }
      r := TransferChecked(OrgTreasury(c.orgId), c.recipientToken, c.mint, OrgPda(c.orgId), c.amounts[0], c.accept);
    }

    method HandleDissolve(c: DissolveCall) returns (r: Result<()>)
      modifies this
      ensures Meets(DissolveOrg(old(bank), c), r, bank)
    {
      var bad := DissolveAccounts(bank, c);
      if bad.Some? { return Err(bad.value); }
      var loaded := bank.tokens;
      bank := bank.(orgs := bank.orgs[c.orgId := bank.orgs[c.orgId].(status := OrgDissolving)]);
      var balance := loaded[OrgTreasury(c.orgId)].amount;
      var totalPaid := 0;
      var adminAmount := PayoutShare(balance, bank.members[MemberKey(c.orgId, c.admin)].shareBps);
      if adminAmount > 0 {
        r := TransferChecked(OrgTreasury(c.orgId), c.adminToken, c.mint, OrgPda(c.orgId), adminAmount, c.acceptA);
        if r.Err? { return r; }
        totalPaid := totalPaid + adminAmount;
      }
      if c.memberB.Some? && c.tokenB.Some? {
        var b := bank.members[c.memberB.value];
        if b.orgId != c.orgId || loaded[c.tokenB.value].owner != b.agent { return Err(Unauthorized); }
        if loaded[c.tokenB.value].mint != loaded[OrgTreasury(c.orgId)].mint { return Err(InvalidMint); }
        var amount := PayoutShare(balance, b.shareBps);
        if amount > 0 {
          r := TransferChecked(OrgTreasury(c.orgId), c.tokenB.value, c.mint, OrgPda(c.orgId), amount, c.acceptB);
          if r.Err? { return r; }
          if totalPaid + amount >= U64_END { return Err(Overflow); }
          totalPaid := totalPaid + amount;
        }
      }
      if totalPaid > balance { return Err(TreasuryConservation); }
      bank := bank.(orgs := bank.orgs[c.orgId := bank.orgs[c.orgId].(status := OrgClosed)]);
      return Ok(());
    }

    method HandleReclaim(c: ReclaimCall) returns (r: Result<()>)
      modifies this
      ensures Meets(ReclaimOrgResidual(old(bank), c), r, bank)
      ensures FailClosed(old(atTransfer), old(bank))
    {
      var bad := ReclaimAccounts(bank, c);
      if bad.Some? { return Err(bad.value); }
      var isCreator := c.authority == bank.orgs[c.orgId].creator;
      var isAdmin := bank.members[MemberKey(c.orgId, c.authority)].role == Admin;
      if !(isCreator || isAdmin) { return Err(Unauthorized); }
      var amount := bank.tokens[OrgTreasury(c.orgId)].amount;
      if amount == 0 { return Err(InvalidAmount); }
      r := TransferChecked(OrgTreasury(c.orgId), c.destination, c.mint, OrgPda(c.orgId), amount, c.accept);
    }

    // ---- receipts ----

    method HandleReceipt(c: ReceiptCall) returns (r: Result<()>)
      modifies this
      ensures Meets(CreateReceipt(old(bank), c), r, bank)
      ensures FailClosed(old(atTransfer), old(bank))
    {
      var bad := ReceiptAccounts(bank, c);
      if bad.Some? { return Err(bad.value); }
      if bank.config.value.paused { return Err(Paused); }
      if !(|c.payload| > 0 && |c.payload| <= 1024) { return Err(InvalidPayload); }
      if bank.config.value.receiptCounter + 1 >= U64_END { return Err(Overflow); }
      if c.receiptId != bank.config.value.receiptCounter + 1 { return Err(ReceiptIdMismatch); }

      var payloadHash := SHA256(c.payload);
      var prevHash := bank.cris[c.actor].lastReceiptHash;
      var bytes := DOMAIN;
      bytes := bytes + LittleEndian(c.receiptId, 8);
      bytes := bytes + [c.receiptType];
      bytes := bytes + KeyBytes(c.actor);
      bytes := bytes + LittleEndian(bank.slot, 8);
      bytes := bytes + LittleEndian(payloadHash, 32);
      bytes := bytes + LittleEndian(prevHash, 32);
      var hash := SHA256(bytes);
      bank := bank.(receipts := bank.receipts[c.receiptId := Receipt(
        c.receiptId, c.receiptType, c.actor, bank.slot, payloadHash, prevHash, hash)]);

      if bank.cris[c.actor].lastReceiptHash != prevHash { return Err(ReceiptChainMismatch); }
      bank := bank.(cris := bank.cris[c.actor := bank.cris[c.actor].(lastReceiptHash := hash)]);
      if bank.cris[c.actor].receiptCount + 1 >= U64_END { return Err(Overflow); }
      bank := bank.(cris := bank.cris[c.actor := bank.cris[c.actor].(receiptCount := bank.cris[c.actor].receiptCount + 1)]);
      bank := bank.(cris := bank.cris[c.actor := bank.cris[c.actor].(lastActiveSlot := bank.slot)]);
      bank := bank.(config := Some(bank.config.value.(receiptCounter := c.receiptId)));
      return Ok(());
    }

    // ---- steps the program does not take ----

    method TurnClock(to: U64) returns (r: Result<()>)
      modifies this
      ensures Meets(AdvanceClock(old(bank), to), r, bank)
    {
      if to < bank.slot { return Err(AnchorConstraint); }
      bank := bank.(slot := to);
      return Ok(());
    }

    method OpenAccountAt(at: Address, owner: Pubkey, mint: Bytes32) returns (r: Result<()>)
      modifies this
      ensures Meets(OpenTokenAccount(old(bank), at, owner, mint), r, bank)
    {
      if at in bank.tokens || (!at.Plain? && at != Ata(owner, mint)) { return Err(AnchorConstraint); }
      bank := bank.(tokens := bank.tokens[at := TokenAccount(owner, mint, 0)]);
      return Ok(());
    }

    method TransferOutside(from: Address, to: Address, mint: Bytes32, signer: Pubkey, amount: U64) returns (r: Result<()>)
      modifies this
      ensures Meets(OutsideTransfer(old(bank), from, to, mint, signer, amount), r, bank)
    {
      if !signer.Wallet? { return Err(MissingSignature); }
      r := TransferChecked(from, to, mint, signer, amount, true);
    }

    // ---- transactions ----

    method Dispatch(i: Instr) returns (r: Result<()>)
      modifies this
      ensures Meets(Exec(old(bank), i), r, bank)
    {
      hide InitializeConfig, RegisterAgent, SetPaused, IssueAuthority, RevokeAuthority, ExpireAuthority, Pay, AtomicSplit, CreateEscrow, ReleaseEscrow, CancelEscrow,
        SlashBond, CreateOrg, JoinOrg, SetMemberShare, DepositToOrg, OrgSplit, DissolveOrg, ReclaimOrgResidual, CreateReceipt, AdvanceClock, OpenTokenAccount, OutsideTransfer;
      hide Meets, FailClosed;
      match i
      case DoInitializeConfig(admin, mint) => r := HandleInitializeConfig(admin, mint);
      case DoRegisterAgent(agent) => r := HandleRegisterAgent(agent);
      case DoSetPaused(admin, paused) => r := HandleSetPaused(admin, paused);
      case DoIssue(c) => r := HandleIssue(c);
      case DoRevoke(c) => r := HandleRevoke(c);
      case DoExpire(c) => r := HandleExpire(c);
      case DoPay(c) => r := HandlePay(c);
      case DoSplit(c) => r := HandleSplit(c);
      case DoCreateEscrow(c) => r := HandleCreateEscrow(c);
      case DoRelease(c) => r := HandleRelease(c);
      case DoCancel(c) => r := HandleCancel(c);
      case DoSlash(c) => r := HandleSlash(c);
      case DoCreateOrg(c) => r := HandleCreateOrg(c);
      case DoJoin(c) => r := HandleJoin(c);
      case DoSetShare(c) => r := HandleSetShare(c);
      case DoDeposit(c) => r := HandleDeposit(c);
      case DoOrgSplit(c) => r := HandleOrgSplit(c);
      case DoDissolve(c) => r := HandleDissolve(c);
      case DoReclaim(c) => r := HandleReclaim(c);
      case DoReceipt(c) => r := HandleReceipt(c);
      case Clock(to) => r := TurnClock(to);
      case OpenAccount(at, owner, mint) => r := OpenAccountAt(at, owner, mint);
      case Outside(from, to, mint, signer, amount) => r := TransferOutside(from, to, mint, signer, amount);
    }

    /** One transaction: the handler runs, and on an error every account is put back. */
    method Execute(i: Instr) returns (r: Result<()>)
      modifies this
      ensures bank == Step(old(bank), i)
      ensures r.Ok? == Accepted(old(bank), i)
    {
      hide Exec;
      var entry := bank;
      r := Dispatch(i);
      if r.Err? {
        bank := entry;
      }
    }
  }
}
