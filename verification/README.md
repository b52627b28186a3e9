# AEON: a verification model

AEON is an economic control plane for agents on Solana: delegated spending authorities, payments and
splits, escrows, slashable bonds, organizations with a shared treasury, a reputation index and a
receipt chain. This project models the on-chain program and the client's tree revocation in Dafny 4.11
and proves what they keep over whole runs. `dafny verify dfyconfig.toml` checks everything.

## How it is built

- `Types`, `Tokens`: widths, account records, and one checked token transfer. A `World` is every account
  the program owns or moves tokens between, the clock slot, and which write-back the program was built with:
  `AsWritten` is the code, `AsIntended` an assumption that a theorem makes only where it says so.
- `AuthoritySpec`, `SpendSpec`, `EscrowSpec`, `OrgSpec`, `ReceiptSpec`, `AgentSpec`: what each instruction
  does, as a function from accounts to accounts or an error.
- `Program`: the handlers as methods that change the accounts in place, in the order of the code, each
  proved to meet its function; and the transaction that restores the entry state on an error.
- `Machine`: one step, all or nothing, and runs of steps. Besides the program's instructions a run may
  advance the clock, open token accounts and move tokens between any accounts from outside, which is why
  vaults hold "at least" what they should.
- `Frames`, `Keys`, `Sums`: what no instruction touches, where accounts sit, sums over maps.
- `Forest`, `AuthorityRuns`: the delegation forest as four moves, its invariant, attenuation along chains,
  and the account of every debit.
- `Planner`, `Revocation`, `RevokeLoop`: the revoke planner with its maps, walk, sort and filter; the plan
  carried out on the state machine, alone and among other transactions; and the client's loop and the
  demonstration's loop over it.
- `SplitSimulation`, `Payments`, `Reputation`: a split as two payments, where tokens and credit end up,
  and the double entry of the counters.
- `Terms`: every authority and escrow carries what its call asked for, and when an authority is granted.
- `Ceilings`: what the authorities of a subtree can spend together, and when its root's budget bounds that.
- `Custody`, `Accounts`, `Escrows`, `Vaults`, `Bonds`: conservation, the exact books of every account that a
  program key owns, settlement at most once, release against cancel, and what a slash takes.
- `Orgs`, `OrgRights`, `Treasury`, `ShareCover`: share sums, who may do what to an organization, the account
  of a treasury, the arithmetic of a dissolve, whom it pays, and which shares it covers.
- `Rights`: what holds whoever calls: the configuration, the pause switch, wallets and the one mint.
- `Setting`: two registered agents, reached by a run, where the concrete examples start.
- `ReceiptChain`: the chain over runs, the injective byte string, and what a last hash pins down.

The rows of the handlers say that each method does what its specification says; account constraints and
counter updates are the specification's own functions, called in place. What the specification answers is
pinned apart from it: when a call is accepted, by the `...Exact` theorems; by whom and with which effect, by
the others. The handlers, and the corollaries at the end of the table, are what the results build on, not
results themselves.

A reachable state is the end of a run from a state without any account of the program. Theorems about
one call that need an invariant take it as `ForestInv`, `EscrowInv`, `KeyInv`, `OrgInv`, `ChainInv` or a
module's `Inv`; the run theorem of the same module shows that every reachable state has it.

## Where code and documents differ

The model follows the code.

- Revoking may cascade to direct children (docs/SECURITY_MODEL.md, H3), and the client's `revokeTree` relies on
  it. An authority's account has room for its discriminator and record
  (programs/aeon/src/instructions/issue_authority.rs:49-54); the cascade serialises a child, discriminator
  first, behind offset 8 of it (programs/aeon/src/instructions/revoke_authority.rs:48-51), where only the
  record fits. So as written every otherwise valid call that lists a child is refused, and the client's loop
  comes through exactly if no Active member of the subtree has an Active child (`RevokeLoop.RevokeTree`,
  `RevokeLoop.StopExact`); `RevokeLoop.RootSurvives` is a run where it leaves the root Active. The loop of
  demos/agent-economy.ts, which lists no children, does what is promised (`RevokeLoop.RevokeOneByOne`).
  What the cascade is meant to do is kept as `AsIntended`.
- The documents (docs/SECURITY_MODEL.md, H4; docs/OVERVIEW.md) promise that a dissolve covers the complete
  share set. `dissolve_org` pays the admin and at most one more member and does not ask who else holds
  shares, nor that the two differ. `ShareCover.MemberLeftOut` and
  `ShareCover.AdminTakesBoth` are runs that show it, `ShareCover.CoversAllExactly` says of which calls the
  promise is met and `ShareCover.AlwaysWholeExactly` of which organizations, and `ShareCover.AdminPaidTwice`
  and `Treasury.DissolveAdminTwice` what happens when the admin is named twice.
- Reputation is meant to be booked on both sides. `atomic_split` takes payee B's reputation account
  without requiring it to differ from the payer's or payee A's; a repeated account is loaded twice and
  written back last-wins. `Reputation.NamedTwiceForgets` shows the loss, and `Reputation.CountersExact`
  for each counter over which runs the books balance.
- A TIMEOUT escrow past its slot may be both released and cancelled by anybody, and no other escrow may
  (`Escrows.BothAcceptedExactly`, `Escrows.EitherMayWin`); the first to come settles it, once.
- Siblings may each be given all that their parent has left, and the documents say that parents enforce what
  remains when it is spent (docs/SECURITY_MODEL.md, section 3). No payment looks at the parent:
  `Ceilings.SiblingsOverspend` is a run in which a subtree spends twice its root's budget, and
  `Ceilings.BudgetBoundsExactly` says when the budget does bound the subtree. A child also outlives its
  parent's revocation (`Ceilings.ChildOutlives`); what stops it is the client's plan.
- A slashed bond reads as one that was paid out, but the destination need only have the right mint, so a slash
  into an account of the bond's own key is accepted (`Bonds.SlashIntoItself`). It takes nothing, and what it
  leaves can never be taken again (`Bonds.LockedForGood`); `Bonds.TakenExactly` says when a bond did pay.

## Model

| member | source | states |
|---|---|---|
| ProgramModel.IntersectCategories | programs/aeon/src/instructions/issue_authority.rs:170-188 | The nested loops over an eight-slot array leave exactly the requested categories the parent lists too, in request order (what that list then allows: `AuthorityRuns.NarrowMeaning`). |
| ProgramModel.AddLegs | programs/aeon/src/instructions/atomic_split.rs:73-80 | The checked total: an empty leg or a sum beyond 64 bits is refused, whichever comes first; otherwise the sum. |
| ProgramModel.CheckDebit | programs/aeon/src/instructions/pay.rs:64-93 | The gate that pay, create_escrow and atomic_split share, test by test in code order: the same refusal or the same staged debit as the specification that `AuthorityRuns.DebitsObeyAncestors` and `AuthorityRuns.SpentIsDebits` are about. |
| ProgramModel.Program.TransferChecked | programs/aeon/src/instructions/pay.rs:95-108 | The token program as called: it may refuse at will; otherwise owner, mint, balance and overflow decide, and only the two balances change. Each call is logged with the accounts as they stood. |
| ProgramModel.Program.Cascade | programs/aeon/src/instructions/revoke_authority.rs:34-52 | Children are checked and written back one by one. As written (`AsWritten`) the first valid child is refused with AccountDidNotSerialize, because its record and discriminator do not fit behind the offset. As intended (`AsIntended`) it succeeds exactly when every remaining account is writable, a child of the target and of the same agent; then the listed Active ones are Revoked and nothing else changes. |
| ProgramModel.Program.HandleIssue | programs/aeon/src/instructions/issue_authority.rs:94-300 | On every path, tests in code order, the specified error or exactly the specified accounts: counter, record, bond and tokens. What these are is said apart from the specification by `Terms.IssueTerms`, `Terms.IssueLocksBond` and `Terms.IssueExact`. |
| ProgramModel.Program.HandleRevoke | programs/aeon/src/instructions/revoke_authority.rs:24-57 | On every path the specified error or exactly the specified accounts, for revoking with its cascade, under both write-backs; no transfer is made. |
| ProgramModel.Program.HandleExpire | programs/aeon/src/instructions/expire_authority.rs:24-39 | On every path the specified error or exactly the specified accounts, for the Active to Expired step after the expiry slot. |
| ProgramModel.Program.HandlePay | programs/aeon/src/instructions/pay.rs:54-150 | On every path the specified error or exactly the specified accounts; and fail-closed: at the transfer call every account but the balances is as on entry, also when a later counter overflows. |
| ProgramModel.Program.HandleSplit | programs/aeon/src/instructions/atomic_split.rs:59-215 | On every path the specified error or exactly the specified accounts; and fail-closed at both transfer calls: nothing but balances has changed before the last leg is through. Reputation copies are written back in declaration order, the last one winning. |
| ProgramModel.Program.HandleCreateEscrow | programs/aeon/src/instructions/create_escrow.rs:59-159 | On every path the specified error or exactly the specified accounts; and fail-closed: authority, escrow and counter are untouched at the transfer call. |
| ProgramModel.Program.HandleRelease | programs/aeon/src/instructions/release_escrow.rs:53-132 | On every path the specified error or exactly the specified accounts: condition and clock cases, vault to payee, status and both reputation accounts; fail-closed. When it accepts is said by `Escrows.ReleaseExact`, what it changes by `Escrows.ReleasePaysPayee` and `Payments.ReleaseCredits`. |
| ProgramModel.Program.HandleCancel | programs/aeon/src/instructions/cancel_escrow.rs:46-94 | On every path the specified error or exactly the specified accounts: payer or expired, vault to payer, Cancelled or Expired, one more failed commitment; fail-closed. |
| ProgramModel.Program.HandleSlash | programs/aeon/src/instructions/slash_bond.rs:54-91 | On every path the specified error or exactly the specified accounts; the status is already Slashed at the transfer call, so only the transaction takes it back. Whom it accepts is said by `Bonds.SlashByAgent` and `Bonds.AgentCanSlash`. |
| ProgramModel.Program.HandleCreateOrg | programs/aeon/src/instructions/create_org.rs:59-95 | On every path the specified error or exactly the specified accounts, for the organization, its creator as admin and its empty treasury. |
| ProgramModel.Program.HandleJoin | programs/aeon/src/instructions/join_org.rs:50-77 | On every path the specified error or exactly the specified accounts, for the new member, the share total and the member count. |
| ProgramModel.Program.HandleSetShare | programs/aeon/src/instructions/set_member_share.rs:36-52 | On every path the specified error or exactly the specified accounts, for replacing one share against the running total. |
| ProgramModel.Program.HandleDeposit | programs/aeon/src/instructions/deposit_to_org.rs:44-70 | On every path the specified error or exactly the specified accounts, for member to treasury. |
| ProgramModel.Program.HandleOrgSplit | programs/aeon/src/instructions/org_split.rs:55-92 | On every path the specified error or exactly the specified accounts, for treasury to one recipient. |
| ProgramModel.Program.HandleDissolve | programs/aeon/src/instructions/dissolve_org.rs:64-130 | On every path the specified error or exactly the specified accounts, for the two payouts, the conservation check and the two status writes; the balance is read once, before any payout. Who is paid what is said by `ShareCover.DissolvePaysEach`. |
| ProgramModel.Program.HandleReclaim | programs/aeon/src/instructions/reclaim_org_residual.rs:45-79 | On every path the specified error or exactly the specified accounts, for draining a closed treasury. |
| ProgramModel.Program.HandleReceipt | programs/aeon/src/instructions/create_receipt.rs:37-91 | On every path the specified error or exactly the specified accounts: the bytes fed to the hasher one field after the other, the receipt, the chain end, the count and the id counter. What is recorded is said by `ReceiptChain.HistoryIsCalls`, the bytes by `ReceiptChain.PreimageSpells`. |
| ProgramModel.Program.HandleRegisterAgent | programs/aeon/src/instructions/register_agent.rs:40-68 | On every path the specified error or exactly the specified accounts, for a first identity and reputation account. |
| ProgramModel.Program.HandleSetPaused | programs/aeon/src/instructions/set_paused.rs:22-30 | On every path the specified error or exactly the specified accounts, for the pause flag. |
| ProgramModel.Program.HandleInitializeConfig | programs/aeon/src/instructions/initialize_config.rs:23-35 | On every path the specified error or exactly the specified accounts, for the configuration and its counters. |
| ProgramModel.Program.Execute | docs/SECURITY_MODEL.md:45-55 | All or nothing: any of the handlers run as a transaction is one step of the state machine, and leaves every account as it was on an error. |
| AuthorityRuns.CommonMeaning | programs/aeon/src/instructions/issue_authority.rs:178-187 | The intersection accepts a category iff request and parent both list it. |
| AuthorityRuns.NarrowMeaning | programs/aeon/src/instructions/issue_authority.rs:169-194 | For every pair of lists: refused iff both are constrained and share nothing; otherwise the stored list allows exactly what both allow, fits eight slots, and under a constrained parent is never the empty list that allows everything. |
| AuthorityRuns.StepMoves | programs/aeon/src/instructions/issue_authority.rs:94-217 | Every instruction of the program is one of four moves on the authority store (none, debit, issue, end), legal in it, and made by the signer who owns what it touches. |
| AuthorityRuns.ReachableAttenuation | programs/aeon/src/instructions/issue_authority.rs:112-217 | In every reachable state: ids are dense, ancestors have smaller ids, depth is their number and at most 3, and agent, budget, max_per_tx, max_total and accepted categories of a descendant are within those of every ancestor. |
| AuthorityRuns.DebitsObeyAncestors | programs/aeon/src/instructions/pay.rs:64-93 | Every debit of every run (payment, split or escrow lock): its signer is the agent of the whole chain, the authority is Active and not past its expiry, and amount, new total and category are within the limits of the authority and of each ancestor. |
| AuthorityRuns.SpentIsDebits | programs/aeon/src/instructions/create_escrow.rs:89-132 | Over any run `spent` equals all accepted debits, spent <= max_total <= budget, and Exhausted holds iff the debits reach the budget; a cancel restores nothing. |
| AuthorityRuns.BudgetErrorMeansEmptyWallet | programs/aeon/src/instructions/atomic_split.rs:100-114 | In reachable states the budget, reserve and blocked tests of the gate are dead code: InsufficientBudget means the wallet holds less than the amount, and RecipientBlocked never happens. |
| AuthorityRuns.GateExact | programs/aeon/src/instructions/pay.rs:57-93 | In reachable states the gate passes iff no authority is named at all, or its own agent spends, Active and not past expiry, within max_per_tx, the rest of max_total and the categories, out of an account that holds the amount. |
| Payments.PayExact | programs/aeon/src/instructions/pay.rs:51-117 | In reachable states a payment is accepted iff its wallet signs it unpaused, a positive amount to somebody else, the authority allows it, an account of the payer holds it and both reputation accounts have room. |
| Payments.LockExact | programs/aeon/src/instructions/create_escrow.rs:64-150 | The same of a lock, with a known condition and the next id; the payee need not be registered. |
| Terms.IssueTerms | programs/aeon/src/instructions/issue_authority.rs:120-226 | Every accepted issue stores the agent, parent, budget, expiry and bond asked for, fresh; max_per_tx and max_total are the least of the request, the parent's and, for max_total, the budget; it allows a category iff the request and the parent do; a child's budget is within what its parent has left. |
| Terms.IssueLocksBond | programs/aeon/src/instructions/issue_authority.rs:230-290 | The bond asked for moves from an account of the agent into the vault of the new authority and is recorded Active; without one neither bonds nor tokens change. |
| Terms.IssueExact | programs/aeon/src/instructions/issue_authority.rs:94-290 | In reachable states an issue is accepted iff an active registered agent asks unpaused under the next id, for a root or for a child of an Active own parent of depth below 3 with that budget left and a category in common, with the bond's accounts all in order or none passed. |
| Terms.AuthorityOrigin | programs/aeon/src/instructions/issue_authority.rs:205-226 | In every reachable state every authority comes from an accepted issue of the run, under exactly those terms, whatever has been spent and ended since. |
| AuthorityRuns.IssueNeverUnderflows | programs/aeon/src/instructions/issue_authority.rs:156-166 | In reachable states the parent_remaining subtraction never fails. |
| AuthorityRuns.DeadForGood | programs/aeon/src/instructions/revoke_authority.rs:25-28 | Once no authority of a subtree is Active, no later run of any instructions adds a member to it or changes any record in it. |
| AuthorityRuns.OthersCannotTouch | programs/aeon/src/instructions/revoke_authority.rs:14-20 | An instruction an agent did not sign changes none of its authorities and adds none. |
| Ceilings.SpendingBounded | programs/aeon/src/instructions/pay.rs:74-83 | Whatever runs, any set of authorities together never spends more than its ceiling was before: max_total for what is Active, unexpired and has a per-payment limit above zero, what is spent already for the rest. |
| Ceilings.SubtreeBounded | programs/aeon/src/instructions/issue_authority.rs:130-148 | As long as nothing is delegated below a root, what its whole subtree spends stays under the subtree's ceiling. |
| Ceilings.CeilingReached | programs/aeon/src/instructions/pay.rs:64-116 | An agent with the tokens reaches that ceiling exactly, by payments alone. |
| Ceilings.BudgetBoundsExactly | docs/SECURITY_MODEL.md:143 | With the tokens at hand, a root's budget bounds what its present subtree spends over every run iff it bounds the subtree's ceiling: nothing else enforces it. |
| Ceilings.SiblingsOverspend | docs/SECURITY_MODEL.md:143 | A run from an empty program: two children of a root with budget ten each spend ten; the root's own spent is zero and its subtree has spent twenty. |
| Ceilings.ChildOutlives | programs/aeon/src/instructions/revoke_authority.rs:54 | A run: the root is revoked, its child stays Active and pays. |
| Forest.Attenuation | programs/aeon/src/instructions/issue_authority.rs:150-207 | The inductive core of the attenuation: from one link to whole ancestor chains. |
| Forest.DeadSubtreeStays | programs/aeon/src/instructions/issue_authority.rs:141-144 | No legal move touches or grows a subtree without an Active member. |
| Planner.PlanRevokeTree | client/revokeTree.ts:58-109 | Terminates on every list of nodes, cyclic, dangling or repeated links included; refuses iff the root has no node; otherwise the result is the plan: each Active id reachable from the root, once, deepest first and then by descending id, with its Active children. |
| Planner.PlanUnique | client/revokeTree.ts:77-108 | That description fixes the plan: two plans for the same nodes and root are equal. |
| Planner.PlanMeaning | client/revokeTree.ts:77-108 | Spelled out without the plan's own functions: it names, each once, exactly the ids reachable from the root whose last node is Active, deeper first and larger ids first among equals, each with its address and, in list order, the Active nodes that name it as parent. |
| Planner.BuildMaps | client/revokeTree.ts:62-71 | The two maps hold, per id, the last node with it and the nodes naming it as parent, in list order; 0 is no parent. |
| Planner.Collect | client/revokeTree.ts:77-91 | The stack walk with its seen set finds exactly the ids reachable from the root, each once. |
| Planner.SortDeepestFirst | client/revokeTree.ts:93-94 | Sorted by descending depth, then id, and a permutation. |
| Planner.MakeBatches | client/revokeTree.ts:96-107 | One batch for each Active node, in order, with its Active children. |
| Revocation.WriteBackExact | programs/aeon/src/instructions/issue_authority.rs:49-54 | The account has room for discriminator and record; behind offset 8 the record fits, the record with its discriminator does not. |
| Revocation.RevokeExact | programs/aeon/src/instructions/revoke_authority.rs:29-57 | A revoke is accepted iff its agent revokes an own Active authority and every account passed along is a writable direct child of the same agent that can be written back; it ends those that are Active and changes nothing else. |
| Revocation.ExpireExact | programs/aeon/src/instructions/expire_authority.rs:10-39 | An authority is marked Expired iff its agent asks, it is Active and its expiry slot has passed. |
| Revocation.ScanIsSnapshot | client/aeon.ts:781-795 | Scanning ids 1 to at least the counter, for the root's agent or everybody, yields a complete snapshot of its subtree. |
| Revocation.ReachIsSubtree | client/revokeTree.ts:77-91 | On a complete snapshot the planner's reachability is descent in the on-chain forest. |
| Revocation.PlanFits | client/revokeTree.ts:93-108 | Deepest first makes a plan executable: no target is repeated or a child of an earlier target, so no earlier cascade has revoked it. |
| Revocation.PlanCallExact | programs/aeon/src/instructions/revoke_authority.rs:24-57 | While only calls that can be written back have been made, with any transactions the agent did not sign in between, the next call of a plan is accepted iff it lists no child or the program is built as intended; otherwise AccountDidNotSerialize. |
| Revocation.PlanRevokesSubtree | client/revokeTree.ts:58-109 | If no call lists a child (or the program is built as intended, and calls cascade to all, some or none of the listed children), with any transactions the agent did not sign before, between and after: every call is accepted, and at the end the subtree is the same set with no Active member. |
| Revocation.RevokedForGood | programs/aeon/src/instructions/revoke_authority.rs:24-57 | After that no run whatever, signed by whomever, adds a member to the subtree or changes a record in it. |
| Revocation.PlanExact | client/revokeTree.ts:93-108 | Undisturbed, such calls revoke exactly the Active authorities of the subtree and change nothing else in any account. |
| RevokeLoop.RevokeTree | client/aeon.ts:797-808 | The client's loop, which passes all children: no root, no call; otherwise it stops exactly at the first refused call. From a complete snapshot, signed by the root's agent, it comes through iff the program is built as intended or no Active member of the subtree has an Active child, and then exactly the Active subtree is Revoked; otherwise it stops at the first batch that lists a child, with AccountDidNotSerialize and exactly the earlier targets Revoked. |
| RevokeLoop.StopExact | client/revokeTree.ts:99-101 | A snapshot's plan has no batch that lists a child iff no Active member of the subtree has an Active child. |
| RevokeLoop.LoopExact | client/aeon.ts:797-808 | Where the loop ends, under either write-back: the whole Active subtree revoked, or exactly the targets before the first batch with a child. |
| RevokeLoop.RevokeOneByOne | demos/agent-economy.ts:475-485 | The loop without children: from a complete snapshot it leaves out nothing, never fails, and revokes exactly the Active authorities of the subtree, under both write-backs. |
| RevokeLoop.RootSurvives | programs/aeon/src/instructions/revoke_authority.rs:48-51 | A run to one root with one child, both Active: the client's plan revokes the child; as written the second call is refused and the root stays Active, as intended both are Revoked. |
| SplitSimulation.TwoLegsAreTwoPays | programs/aeon/src/instructions/atomic_split.rs:73-207 | For three different agents, an accepted two-leg split is simulated by two payments: the first is accepted, the second iff the payer's commitment counter has room for two, and they end in the same accounts but for one more commitment of the payer. |
| SplitSimulation.OneLegIsPay | programs/aeon/src/instructions/atomic_split.rs:73-207 | In reachable states a one-leg split is accepted iff the payment is, with the same result, unless a needless third reputation account repeats one of the two. |
| Payments.SplitDelivers | programs/aeon/src/instructions/atomic_split.rs:121-157 | For every token account, coinciding ones included: its balance changes by the legs that arrive less the total that leaves. |
| Reputation.DoubleEntry | programs/aeon/src/instructions/atomic_split.rs:164-193 | Over any run whose accepted splits name different agents: all volumes add up to twice what was settled, settlements to payee legs, commitments to settling instructions, receipt counts to receipts. |
| Reputation.CountersExact | programs/aeon/src/instructions/atomic_split.rs:164-193 | Over any run at all, for each counter: the sum over all agents is at most what it should be (twice the volume settled, payee legs, settling instructions, receipts), and exactly that iff no accepted split repeats an account that matters to it: payer or payee A for volume, payee A for settlements, payer for commitments. |
| Reputation.SplitExact | programs/aeon/src/instructions/atomic_split.rs:164-193 | The same for one split and each counter, one-leg splits with a needless third account included. |
| Reputation.NamedTwiceForgets | programs/aeon/src/instructions/atomic_split.rs:182-193 | A run from an empty program to a split that names one payee twice: paid 7, booked 4 and one settlement; volume and settlements fall short, commitments do not. |
| Custody.SupplyConserved | programs/aeon/src/instructions/dissolve_org.rs:75-123 | Over any run, outside transfers included, the total of every mint is what it was. |
| Custody.StepTokens | programs/aeon/src/instructions/slash_bond.rs:60-82 | Every step keeps accounts, owners and mints, conserves every supply, moves tokens of at most the one mint it names, and takes them from the accounts of one key only: its caller's, or one its instruction signs for. |
| Escrows.SettledOnce | programs/aeon/src/instructions/release_escrow.rs:53-106 | Over any run an escrow is settled at most once, its status says whether and by what (release, its payer's cancel, anybody else's cancel), and the vault of every Open one holds at least its amount. |
| Vaults.VaultAccount | programs/aeon/src/instructions/create_escrow.rs:111-150 | Over any run a vault holds exactly its escrow's amount while that is Open, nothing of it once settled, and whatever outside transfers, slashes and reclaims sent there. |
| Accounts.AccountHolds | programs/aeon/src/instructions/issue_authority.rs:270-281 | Over any run, any token account that a program key owns (bond vault, escrow vault, treasury or other) holds what it held at the start and all that went in, less all that went out; what counts as either is said instruction by instruction. |
| Escrows.ReleasePaysPayee | programs/aeon/src/instructions/release_escrow.rs:83-106 | A release moves exactly the amount from the vault to an account of the payee, and nothing else. |
| Escrows.CancelPaysPayer | programs/aeon/src/instructions/cancel_escrow.rs:60-86 | A cancel moves exactly the amount back to an account of the payer, and nothing else. |
| Escrows.ReleaseExact | programs/aeon/src/instructions/release_escrow.rs:53-106 | No release is ever accepted outside the release window (Open, and: immediate and receipt not past expiry; timeout at or past a set expiry; oracle and multisig never), nor one of a receipt escrow whose proof does not begin with the 32 bytes it was locked with. With good accounts and room in the counters, inside the window and with that proof, every one is accepted, whoever signs; so some proof releases iff the window is open. |
| Escrows.StrangerCancelExact | programs/aeon/src/instructions/cancel_escrow.rs:46-90 | A stranger's cancel is accepted only on an Open escrow past its expiry, and with good accounts always then. |
| Terms.EscrowOrigin | programs/aeon/src/instructions/create_escrow.rs:127-142 | In every reachable state every escrow comes from an accepted lock of the run with exactly its parties, amount, condition, data and expiry; and if it is not Open, a step of the run settled it as its status says: a release in the window with the proof asked for, a cancel by its payer, or one by somebody else past the expiry. |
| Escrows.BothAcceptedExactly | programs/aeon/src/instructions/cancel_escrow.rs:49-52 | Of a release and a stranger's cancel, both in order, both are accepted iff the escrow is an Open TIMEOUT one past its slot. |
| Escrows.EitherMayWin | programs/aeon/src/instructions/release_escrow.rs:65-68 | A run to such an escrow: anybody's release and anybody's cancel are both accepted, and each makes the other be refused. |
| Escrows.NoReleaseAfterLapse | programs/aeon/src/instructions/release_escrow.rs:56-61 | Once third parties may cancel any other escrow, no release of it is ever accepted again, whatever runs in between. |
| Escrows.FailedCommitmentsCount | programs/aeon/src/instructions/cancel_escrow.rs:79-90 | In every reachable state failed_commitments of an agent is the number of its escrows that were cancelled or expired. |
| Escrows.PayerCanCancel | programs/aeon/src/instructions/cancel_escrow.rs:46-94 | In every reachable state the registered payer's cancel of an Open escrow is accepted for every condition, expiry and pause flag; the counter cannot overflow. |
| Bonds.SlashedOnce | programs/aeon/src/instructions/slash_bond.rs:54-82 | Over any run a bond is slashed at most once, its status says whether, and an Active one's associated account holds at least its amount. |
| Bonds.TakenExactly | programs/aeon/src/instructions/slash_bond.rs:35-46 | Over any run: a bond is Slashed iff some slash of it went somewhere, and its amount has left the accounts of its key iff that was an account of another key; otherwise nothing has. |
| Bonds.SlashTakesExactly | programs/aeon/src/instructions/slash_bond.rs:63-82 | One slash takes the bonded amount from the accounts of the bond's key iff the destination belongs to another key, and nothing otherwise. |
| Bonds.SlashIntoItself | programs/aeon/src/instructions/slash_bond.rs:42-46 | In every reachable state an Active bond's slash into its own vault is accepted, moves no token and leaves the bond Slashed. |
| Bonds.LockedForGood | programs/aeon/src/instructions/slash_bond.rs:26-33 | Once a bond is Slashed, no later run takes anything out of any account of its key. |
| Bonds.AgentCanSlash | programs/aeon/src/instructions/slash_bond.rs:54-82 | In every reachable state the agent's slash of an Active bond, from its vault into any account of the mint, is accepted, whatever became of the authority. |
| Bonds.SlashByAgent | programs/aeon/src/instructions/slash_bond.rs:18-24 | In reachable states every accepted slash is signed by the agent of the authority, which is the one that put up the bond. |
| Bonds.OnlyAgentSlashes | programs/aeon/src/instructions/slash_bond.rs:18-33 | However long others run the program, a bond whose agent signs nothing keeps status and terms, and no account of its key loses a token. |
| Orgs.SharesBalance | programs/aeon/src/instructions/create_org.rs:70-90 | In every reachable state an organization's total is the sum of its members' shares and at most 10000, its count is their number, and its creator is an admin. |
| Orgs.JoinArithmeticSafe | programs/aeon/src/instructions/join_org.rs:55-68 | In reachable states joining overflows only when the member count is full, never in the shares. |
| Orgs.ShareArithmeticSafe | programs/aeon/src/instructions/set_member_share.rs:37-44 | In reachable states replacing a share never under- or overflows. |
| OrgRights.OnlyAdmins | programs/aeon/src/instructions/org_split.rs:27-33 | However long others run the program, an organization none of whose admins signs keeps its record, its members with their roles and shares, and all of its treasury. |
| OrgRights.CreateOrgExact | programs/aeon/src/instructions/create_org.rs:59-95 | Accepted iff an active registered agent asks unpaused under the next id for at most the whole share; it becomes the one admin with the share asked for, the whole if none is, and the treasury is new and empty. |
| OrgRights.JoinExact | programs/aeon/src/instructions/join_org.rs:48-68 | Accepted iff an admin of the active organization lets in a registered agent that is no member, with one of three roles, and total and count stay in bounds; the member gets the role and share asked for. |
| OrgRights.SetShareExact | programs/aeon/src/instructions/set_member_share.rs:36-52 | Accepted iff an admin replaces a member's share and the new total is within 10000; the member has the share asked for and is otherwise the same. |
| OrgRights.DepositExact | programs/aeon/src/instructions/deposit_to_org.rs:44-66 | Accepted iff a member pays a positive amount that an own account holds; it moves into the treasury. |
| OrgRights.OrgSplitExact | programs/aeon/src/instructions/org_split.rs:53-80 | Accepted iff an admin pays one positive amount that the treasury holds to a member that is no viewer; it moves into an account of that member. |
| OrgRights.ReclaimExact | programs/aeon/src/instructions/reclaim_org_residual.rs:45-75 | Accepted iff the creator or an admin, being a member, drains a closed treasury that is not empty; all of it moves to the destination. |
| Orgs.PayoutFloor | programs/aeon/src/instructions/dissolve_org.rs:53-62 | The 128-bit product cast back to 64 bits loses nothing: the payout is the floor of the share, within one token of it and at most the balance. |
| Orgs.TwoPayouts | programs/aeon/src/instructions/dissolve_org.rs:53-123 | Two shares that fit together pay at most the balance and leave r with B(10000-a-b) <= 10000 r < B(10000-a-b) + 20000. |
| Treasury.TreasuryAccount | programs/aeon/src/instructions/org_split.rs:59-84 | Over any run a treasury holds exactly deposits and gifts less splits, dissolve payouts and reclaims. |
| Treasury.DissolveExact | programs/aeon/src/instructions/dissolve_org.rs:64-123 | With an admin, token accounts of the members paid, and a willing token program, a dissolve goes through iff the floors of their own shares fit together into the treasury. |
| Treasury.DissolveNeverShort | programs/aeon/src/instructions/dissolve_org.rs:64-123 | Unless the admin is named twice they always fit: the conservation check and the transfers cannot fail. |
| Treasury.DissolveAdminTwice | programs/aeon/src/instructions/dissolve_org.rs:98-123 | If the admin is named twice it goes through iff twice its floored share fits. |
| Treasury.DissolveLeaves | programs/aeon/src/instructions/dissolve_org.rs:64-123 | An accepted dissolve closes the organization, pays no more than the treasury held and, unless the admin is paid twice, leaves the unshared part, within two roundings. |
| ShareCover.CoversAllExactly | docs/SECURITY_MODEL.md:96-101 | The documented rule for one call: an accepted dissolve pays for the organization's whole share total, each member counted once, iff every member it does not pay holds no share. The admin named twice included. |
| ShareCover.DissolvePaysEach | programs/aeon/src/instructions/dissolve_org.rs:76-123 | Every accepted dissolve is signed by an admin and pays an account of the admin the floor of the admin's own share of what the treasury held, an account of the second member, if passed, the floor of that member's own share, and nobody else anything; naming the admin twice included. |
| ShareCover.AlwaysWholeExactly | docs/SECURITY_MODEL.md:96-101 | The documented rule for an organization: every dissolve it can accept pays for all shares iff each of its admins with a token account holds all of them. |
| ShareCover.AdminPaidTwice | programs/aeon/src/instructions/dissolve_org.rs:98-120 | A dissolve that names the admin as second member too pays the admin its floored share twice, into accounts of its own, and nobody else anything. |
| ShareCover.AdminTakesBoth | programs/aeon/src/instructions/dissolve_org.rs:98-120 | A run in which an admin with half of the shares gets the whole treasury that way, and the other half-holder nothing. |
| ShareCover.AdminAloneCloses | programs/aeon/src/instructions/dissolve_org.rs:64-123 | The rule is not enforced: an admin who names nobody closes any active organization, whoever else holds shares. |
| ShareCover.TreasuryCanBeEmptied | programs/aeon/src/instructions/reclaim_org_residual.rs:45-71 | In every reachable state an active organization's treasury can be emptied in two steps, whatever the shares: an admin dissolves it naming nobody else, and the creator or an admin reclaims what is left. |
| ShareCover.MemberLeftOut | docs/SECURITY_MODEL.md:96-101 | A concrete run from an empty program in which half of the shares are left out and the dissolve is accepted. |
| ReceiptChain.PreimageInjective | programs/aeon/src/instructions/create_receipt.rs:55-64 | Two receipts hash the same bytes only if they agree in id, type, actor, slot and both hashes. |
| ReceiptChain.PreimageSpells | programs/aeon/src/instructions/create_receipt.rs:55-64 | The 128 hashed bytes are the tag AEON_RECEIPT_V1 and then, read least significant byte first, id, type, actor, slot, payload hash and previous hash. |
| ReceiptChain.ReceiptExact | programs/aeon/src/instructions/create_receipt.rs:43-81 | In reachable states a receipt is recorded iff a registered agent asks unpaused, under the next id, with 1 to 1024 bytes. |
| ReceiptChain.HistoryIsCalls | programs/aeon/src/instructions/create_receipt.rs:52-75 | In every reachable state an agent's receipts are, newest first, exactly its accepted calls of the run: each with the id and type asked for, the hash of its own payload, and the slot of the call. |
| ReceiptChain.ChainsHold | programs/aeon/src/instructions/create_receipt.rs:46-87 | In every reachable state, for every actor: following prev_hash from last_receipt_hash visits exactly its receipts, newest first, down to zero; receipt_count is their number; all counts add up to the id counter, splits with repeated accounts included. |
| ReceiptChain.ChainErrorsUnreachable | programs/aeon/src/instructions/create_receipt.rs:77-81 | In reachable states ReceiptChainMismatch never happens, and Overflow only when the id counter itself is full. |
| ReceiptChain.FollowFindsAll | programs/aeon/src/instructions/create_receipt.rs:49-67 | If no hashes collide, a walk that knows only the last hash finds exactly the actor's receipts. |
| ReceiptChain.LastHashPinsHistory | programs/aeon/src/instructions/create_receipt.rs:55-67 | If no hashes collide, two runs that end with the same last hash for an actor recorded the same receipts for it, field by field and in order: the actor made the same calls, up to what the hash makes of their payloads. |
| Keys.StepKeepsKeys | programs/aeon/src/instructions/register_agent.rs:40-68 | Reputation accounts and identities sit at the address of their agent, only wallets have them, and every step keeps it so. |
| Rights.WalletSafe | programs/aeon/src/instructions/pay.rs:22-44 | Over any run no token account of a wallet loses a token unless the wallet signs. |
| Rights.MintBinding | docs/SECURITY_MODEL.md:104-108 | In every reachable state no instruction of the program touches a token account of another mint than the configured one, whatever mint and accounts the call names. |
| Rights.ConfigFixed | programs/aeon/src/instructions/set_paused.rs:8-30 | Over any run a configuration keeps admin and mint, and its pause flag is what the admin last set. |
| Rights.ConfiguredBy | programs/aeon/src/instructions/initialize_config.rs:21-35 | The first configuration is made by an initialize call and names its caller as admin, with every counter at zero and not paused. |
| Rights.PauseExact | programs/aeon/src/instructions/set_paused.rs:20-30 | The pause switch stops exactly seven instructions (register, issue, pay, split, lock, create_org, receipt): each is refused while it is on, and whether any other is accepted does not depend on it. |
| Rights.PauseFreezes | programs/aeon/src/instructions/issue_authority.rs:105 | While the program stays paused nothing is spent and no agent, authority, escrow, organization or receipt is added, however long the run. |
| Rights.RegisterExact | programs/aeon/src/instructions/register_agent.rs:40-68 | Corollary of the specification: a wallet registers once, while the program is configured and not paused, and gets an active identity and an empty reputation account of its own. |
| Payments.PayDelivers | programs/aeon/src/instructions/pay.rs:95-108 | Corollary of the specification: the amount leaves an account of the payer and arrives in an account of the payee, who is somebody else; no other account changes. |
| Payments.PayCredits | programs/aeon/src/instructions/pay.rs:118-130 | Corollary of the specification: for every agent: payer one commitment, payee one settlement, both the volume and the slot, everybody else nothing. |
| Payments.ReleaseCredits | programs/aeon/src/instructions/release_escrow.rs:107-120 | A release does the same for its escrow's payer and payee, whoever signs it. |
| Payments.CancelCredits | programs/aeon/src/instructions/cancel_escrow.rs:75-90 | A cancel counts one failed commitment, and the slot, for its escrow's payer, whoever signs it, and nothing for anybody else. |
| Payments.ReceiptCredits | programs/aeon/src/instructions/create_receipt.rs:76-81 | A receipt marks its actor as active at the slot and leaves every other count and agent alone. |
| Payments.EscrowLocks | programs/aeon/src/instructions/create_escrow.rs:111-150 | Corollary of the specification: the amount moves from the payer's account into a new vault that holds exactly it, under a key only the program signs for; no reputation changes. |
| Bonds.SlashPaysAmount | programs/aeon/src/instructions/slash_bond.rs:63-82 | Corollary of the specification: a slash moves exactly the bonded amount from an account of the bond's own key to the destination, or nothing if the two are one. |

## Left out

- What a cascade would leave in a child's bytes if the write fitted: the intended write-back is taken as the update of the status, and is an assumption (`AsIntended`).
- The framework's serialiser (anchor-lang 0.30.1, programs/aeon/Cargo.toml:20): its source is not part of this model; that it writes an account's discriminator before its fields is taken from how the framework lays accounts out.
- Address derivation, bumps, rent, account sizes other than an authority's, and decoding: addresses are injective keys, records are decoded values, and only wallets sign from outside.
- The order of complaints when several account constraints fail at once: the framework's errors for them are two, AnchorConstraint and MissingSignature, and which of several failing constraints is named is not promised.
- SPL Token and Token-2022 internals, minting, burning, closing and re-owning of token accounts: one transfer that may refuse at will and otherwise moves the amount.
- SHA-256: any function; that it does not collide and never gives zero is required, of what was hashed, only where a theorem says so.
- Lossy conversion of ids beyond 2^53 to JavaScript numbers in the client; ids there are u64.
- The library sort of the planner: represented by an insertion sort with the same comparison.
- The debit gate stands three times in the code, word for word but for the payees; in the model it is one method, `ProgramModel.CheckDebit`, that all three handlers call.
- One mutable account store: the program object holds all accounts in one field that each handler rewrites step by step, so aliasing of accounts appears as equal keys, and the last-wins write-back of atomic_split is written out.
- Blocked recipients and the minimum reserve as policies: they are guards, but empty and zero for every issued authority.
- Byte strings of fixed width are the numbers they spell, and the eight category slots are the part in use.
- Fields nothing reads: bumps, metadata hash, min_solvency_bps. failed_settlements is kept but no instruction writes it.
- Oracle and multisig escrows beyond "release always fails"; both can still be cancelled.
- Events, error texts, the IDL, and the rest of the client: no state depends on them.
- Fees and compute limits of transactions, and transactions of several instructions: each is one step here.
- Ceilings.BudgetBoundsExactly: is about the subtree as it stands; authorities issued below the root later are not counted, and have a ceiling of their own.
- Bonds.AgentCanSlash: takes the mint's total supply to fit in 64 bits and the token program to let the tokens go.
- ShareCover.AlwaysWholeExactly: takes the mint's total supply to fit in 64 bits, without which a payout could fail for other reasons.
- Escrows.PayerCanCancel: takes the mint's total supply to fit in 64 bits, the payer to be registered, and the token program to let the tokens go; a frozen mint can hold an escrow back.
- SplitSimulation.OneLegIsPay: compares acceptance and result, not which error a refused call names.
- Treasury.DissolveExact: takes the mint's total supply to fit in 64 bits, as the token program guarantees; without it a receiving account could overflow.
- OrgRights.DepositExact: takes the mint's total supply to fit in 64 bits, the call to name the configured mint and the token program to let the tokens go; so do OrgSplitExact and ReclaimExact.
- Payments.PayExact: takes the same, and Terms.IssueExact the supply; a lock needs only the token program's consent.
- Terms.AuthorityOrigin: says where a record comes from, not that no later step spent from it; that is AuthorityRuns.SpentIsDebits.
- ReceiptChain.LastHashPinsHistory: compares what is on the receipts; that equal payload hashes mean equal payloads is left to the hash.
