/** The delegation forest: what may happen to the authority store, and what always holds of it. */
module Forest {
  import opened Types
  import opened AuthoritySpec

  type Authorities = map<U64, Authority>

  // ---- the four things that happen to the store ----

  datatype Move =
    | Still
    | Debited(id: U64, amount: U64)
    | Issued(id: U64, record: Authority)
    | Ended(ids: set<U64>, how: AuthStatus)

  /** The record after a debit: `spent` grows, and reaching the budget exhausts it. */
  function Charged(a: Authority, amount: U64): Authority
    requires a.spent + amount < U64_END
  {
    a.(spent := a.spent + amount, status := if a.spent + amount >= a.budget then Exhausted else a.status)
  }

  /** Only the party named here can have signed the move. */
  predicate MovedBy(A: Authorities, m: Move, agent: Pubkey) {
    match m
    case Still => true
    case Debited(id, _) => id in A && A[id].agent == agent
    case Issued(_, record) => record.agent == agent
    case Ended(ids, _) => forall id | id in ids && id in A :: A[id].agent == agent
  }

  /** A list of categories without entries allows all of them. */
  predicate Allows(list: seq<Bytes16>, c: Bytes16) {
    list == [] || c in list
  }

  ghost predicate Narrower(child: Authority, parent: Authority) {
    && child.agent == parent.agent
    && child.budget <= parent.budget
    && child.maxPerTx <= parent.maxPerTx
    && child.maxTotal <= parent.maxTotal
    && (forall c :: Allows(child.categories, c) ==> Allows(parent.categories, c))
  }

  ghost predicate FreshRecord(A: Authorities, id: U64, a: Authority) {
    && a.authorityId == id
    && a.status == Active && a.spent == 0 && a.blocked == [] && a.requireMinReserve == 0
    && 0 < a.budget && a.maxTotal <= a.budget
    && (a.parentId == 0 ==> a.depth == 0)
    && (a.parentId != 0 ==>
      && a.parentId in A && A[a.parentId].status == Active
      && a.depth == A[a.parentId].depth + 1 && a.depth <= MAX_AUTHORITY_DEPTH
      && Narrower(a, A[a.parentId]))
  }

  /** The moves the program makes on a store with `count` authorities. */
  ghost predicate Legal(A: Authorities, count: U64, m: Move) {
    match m
    case Still => true
    case Debited(id, amount) =>
      && id in A && A[id].status == Active
      && 0 < amount <= A[id].maxPerTx && A[id].spent + amount <= A[id].maxTotal
    case Issued(id, record) => id == count + 1 && FreshRecord(A, id, record)
    case Ended(ids, how) => how in {Revoked, Expired} && ids <= A.Keys
  }

  function Apply(A: Authorities, m: Move): Authorities {
    match m
    case Still => A
    case Debited(id, amount) => if id in A && A[id].spent + amount < U64_END then A[id := Charged(A[id], amount)] else A
    case Issued(id, record) => A[id := record]
    case Ended(ids, how) => map id | id in A :: if id in ids && A[id].status == Active then A[id].(status := how) else A[id]
  }

  // ---- the invariant ----

  ghost predicate WellKept(A: Authorities, id: U64)
    requires id in A
  {
    var a := A[id];
    && a.authorityId == id
    && a.blocked == [] && a.requireMinReserve == 0
    && a.spent <= a.maxTotal <= a.budget
    && (a.status == Exhausted <==> a.spent == a.budget)
    && a.depth <= MAX_AUTHORITY_DEPTH
    && (a.parentId == 0 ==> a.depth == 0)
    && (a.parentId != 0 ==>
      a.parentId < id && a.parentId in A && a.depth == A[a.parentId].depth + 1 && Narrower(a, A[a.parentId]))
  }

  ghost predicate Inv(A: Authorities, count: U64) {
    && (forall id: U64 :: id in A <==> 1 <= id <= count)
    && (forall id | id in A :: WellKept(A, id))
  }

  /** The fields nothing ever rewrites. */
  ghost predicate SameTerms(a: Authority, b: Authority) {
    a == b.(spent := a.spent, status := a.status)
  }

  /** No move rewrites the terms of a record, brings a dead one back, or touches a dead one at all. */
  lemma MoveKeeps(A: Authorities, count: U64, m: Move, id: U64)
    requires Inv(A, count) && Legal(A, count, m) && id in A
    ensures id in Apply(A, m) && SameTerms(A[id], Apply(A, m)[id])
    ensures Dead(A[id]) ==> Apply(A, m)[id] == A[id]
    ensures A[id].spent <= Apply(A, m)[id].spent <= A[id].maxTotal
  {
  }

  lemma NarrowerKept(child: Authority, parent: Authority, child': Authority, parent': Authority)
    requires SameTerms(child, child') && SameTerms(parent, parent') && Narrower(child, parent)
    ensures Narrower(child', parent')
  {
    assert child'.categories == child.categories && parent'.categories == parent.categories;
    forall c | Allows(child'.categories, c)
      ensures Allows(parent'.categories, c)
    {
      assert Allows(child.categories, c);
      assert Allows(parent.categories, c);
    }
  }

  /** A record that was there before the move is still well kept after it. */
  lemma OldStaysWellKept(A: Authorities, count: U64, m: Move, id: U64)
    requires Inv(A, count) && Legal(A, count, m) && id in A
    ensures id in Apply(A, m) && WellKept(Apply(A, m), id)
  {
    var p := A[id].parentId;
    MoveKeeps(A, count, m, id);
    assert WellKept(A, id);
    if p != 0 {
      MoveKeeps(A, count, m, p);
      NarrowerKept(A[id], A[p], Apply(A, m)[id], Apply(A, m)[p]);
    }
  }

  lemma MoveKeepsInv(A: Authorities, count: U64, m: Move)
    requires Inv(A, count) && Legal(A, count, m)
    ensures Inv(Apply(A, m), if m.Issued? then m.id else count)
  {
    var B := Apply(A, m);
    forall id | id in B
      ensures WellKept(B, id)
    {
      if id in A {
        OldStaysWellKept(A, count, m, id);
      } else {
        assert m.Issued? && id == m.id && B[id] == m.record;
        assert m.record.parentId != 0 ==> B[m.record.parentId] == A[m.record.parentId];
      }
    }
  }

  // ---- ancestors ----

  /** The proper ancestors of an authority, nearest first. */
  ghost function Ancestors(A: Authorities, id: U64): seq<U64>
    decreases id
  {
    if id !in A || A[id].parentId == 0 || A[id].parentId >= id then []
    else [A[id].parentId] + Ancestors(A, A[id].parentId)
  }

  /** An authority and everything delegated from it. */
  ghost function Subtree(A: Authorities, root: U64): set<U64> {
    set id | id in A && (id == root || root in Ancestors(A, id))
  }

  /** Depth counts the ancestors, so no chain is longer than three, and every limit of an ancestor binds. */
  lemma {:induction false} Attenuation(A: Authorities, count: U64, id: U64)
    requires Inv(A, count) && id in A
    ensures |Ancestors(A, id)| == A[id].depth <= 3
    ensures forall up | up in Ancestors(A, id) :: up in A && up < id && A[up].depth < A[id].depth && Narrower(A[id], A[up])
    decreases id
  {
    assert WellKept(A, id);
    if A[id].parentId != 0 {
      Attenuation(A, count, A[id].parentId);
    }
  }

  /** Being below a root passes from parent to child, and only so. */
  lemma SubtreeByParent(A: Authorities, count: U64, root: U64, id: U64)
    requires Inv(A, count) && id in A && root in A
    ensures id in Subtree(A, root) <==> id == root || (A[id].parentId != 0 && A[id].parentId in Subtree(A, root))
    ensures A[id].parentId == 0 ==> Ancestors(A, id) == []
  {
    assert WellKept(A, id);
  }

  /** A move that keeps the terms keeps the ancestors. */
  lemma {:induction false} AncestorsKept(A: Authorities, count: U64, m: Move, id: U64)
    requires Inv(A, count) && Legal(A, count, m) && id in A
    ensures Ancestors(Apply(A, m), id) == Ancestors(A, id)
    decreases id
  {
    MoveKeeps(A, count, m, id);
    assert WellKept(A, id);
    if A[id].parentId != 0 {
      AncestorsKept(A, count, m, A[id].parentId);
    }
  }

  /** Once a whole subtree is dead, no move changes a record in it or adds one to it. */
  lemma SubtreeKept(A: Authorities, count: U64, m: Move, root: U64)
    requires Inv(A, count) && Legal(A, count, m) && root in A
    ensures Subtree(Apply(A, m), root) * A.Keys == Subtree(A, root)
  {
    forall id | id in A
      ensures id in Apply(A, m) && Ancestors(Apply(A, m), id) == Ancestors(A, id)
    {
      AncestorsKept(A, count, m, id);
      MoveKeeps(A, count, m, id);
    }
  }

  lemma DeadSubtreeStays(A: Authorities, count: U64, m: Move, root: U64)
    requires Inv(A, count) && Legal(A, count, m) && root in A
    requires forall id | id in Subtree(A, root) :: Dead(A[id])
    ensures Subtree(Apply(A, m), root) == Subtree(A, root)
    ensures forall id | id in Subtree(A, root) :: id in Apply(A, m) && Apply(A, m)[id] == A[id]
  {
    var B := Apply(A, m);
    SubtreeKept(A, count, m, root);
    forall id | id in Subtree(A, root)
      ensures id in B && B[id] == A[id]
    {
      MoveKeeps(A, count, m, id);
    }
    if m.Issued? {
      MoveKeepsInv(A, count, m);
      SubtreeByParent(B, m.id, root, m.id);
      assert m.id !in Subtree(B, root);
    }
    assert B.Keys == A.Keys + (if m.Issued? then {m.id} else {});
  }
}
