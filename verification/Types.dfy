/** Machine widths, addresses, errors and account records of the AEON program. */
module Types {

  type U8 = x: int | 0 <= x < 0x100
  type U16 = x: int | 0 <= x < 0x1_0000
  type U64 = x: int | 0 <= x < 0x1_0000_0000_0000_0000

  /** The first number a u64 cannot hold. */
  const U64_END: int := 0x1_0000_0000_0000_0000

  /** A fixed-width byte string is held as the number its bytes spell, least significant first. */
  type Bytes16 = x: int | 0 <= x < 0x1_0000_0000_0000_0000_0000_0000_0000_0000
  type Bytes32 = x: int | 0 <= x < 0x1_0000_0000_0000_0000_0000_0000_0000_0000_0000_0000_0000_0000_0000_0000_0000_0000
  datatype Bytes64 = Bytes64(head: Bytes32, tail: Bytes32)

  const MAX_AUTHORITY_DEPTH: U8 := 3
  const MAX_CATEGORIES := 8
  const FULL_SHARE: U16 := 10_000

  datatype Option<+T> = None | Some(value: T)

  datatype Result<+T> = Ok(value: T) | Err(error: Error)

  /** The program's own errors, and three of the framework's: a missing, duplicate or mismatched account,
      a signature nobody can give, and a record that does not fit where it is written. */
  datatype Error =
    | AnchorConstraint | MissingSignature
    | Paused | Unauthorized | AgentNotActive | InvalidBudget | MaxDelegationDepth | ParentNotActive
    | ChildBudgetExceedsParent | AuthorityNotActive | AuthorityExpired | InvalidCategoryCount
    | ParentRequired | ParentIdMismatch | Overflow | InvalidAmount | ExceedsMaxPerTx | ExceedsMaxTotal
    | InsufficientBudget | CategoryNotAllowed | RecipientBlocked | AuthorityRequired
    | AuthorityAgentMismatch | EmptyCategoryIntersection | InvalidMint | TokenTransferFailed
    | AuthorityAlreadyRevoked | InvalidCascadeChild | AccountDidNotSerialize | EscrowNotOpen | EscrowConditionFailed
    | EscrowExpired | EscrowCancelUnauthorized | EscrowIdMismatch | OrgNotActive | TreasuryConservation
    | InvalidRemainingAccounts | InvalidShareBps | ShareBpsExceedsMax | OrgNotClosed | InvalidPayload
    | ReceiptIdMismatch | ReceiptChainMismatch | InsufficientBond | BondNotActive | AuthorityNotExpired

  /** Keys: a wallet can sign a transaction; a program-derived address signs only through the program. */
  datatype Pubkey = Wallet(raw: Bytes32) | EscrowPda(id: U64) | OrgPda(org: U64) | BondPda(bond: U64)

  /** Token account addresses. Derivation is injective, so each derived address is a constructor. */
  datatype Address = Plain(raw: Bytes32) | Ata(owner: Pubkey, mint: Bytes32) | EscrowVault(id: U64) | OrgTreasury(org: U64)

  datatype TokenAccount = TokenAccount(owner: Pubkey, mint: Bytes32, amount: U64)

  datatype Config = Config(
    admin: Pubkey, mint: Bytes32,
    authorityCounter: U64, escrowCounter: U64, orgCounter: U64, receiptCounter: U64,
    paused: bool)

  datatype AgentIdentity = AgentIdentity(agent: Pubkey, createdSlot: U64, active: bool)

  datatype Cri = Cri(
    agent: Pubkey,
    successfulSettlements: U64, failedSettlements: U64,
    successfulCommitments: U64, failedCommitments: U64,
    volumeSettled: U64, lastActiveSlot: U64, createdSlot: U64,
    lastReceiptHash: Bytes32, receiptCount: U64)

  /** The eight category slots and their count, held as the part in use. */
  type Categories = s: seq<Bytes16> | |s| <= MAX_CATEGORIES

  datatype AuthStatus = Active | Revoked | Expired | Exhausted

  datatype Authority = Authority(
    authorityId: U64, agent: Pubkey, parentId: U64, depth: U8,
    budget: U64, spent: U64, maxPerTx: U64, maxTotal: U64,
    categories: Categories, blocked: seq<Pubkey>, requireMinReserve: U64,
    expirySlot: U64, status: AuthStatus, bondAmount: U64)

  datatype BondStatus = BondActive | BondSlashed
  datatype Bond = Bond(authorityId: U64, agent: Pubkey, amount: U64, status: BondStatus)

  datatype EscrowStatus = Open | Released | Cancelled | Lapsed
  /** Condition types 0 to 4; a caller may ask for any other code and is refused. */
  datatype Condition = Immediate | OnReceipt | OnOracle | OnMultisig | OnTimeout | Unknown
  datatype Escrow = Escrow(
    escrowId: U64, payer: Pubkey, payee: Pubkey, amount: U64, authorityId: U64, category: Bytes16,
    condition: Condition, conditionData: Bytes64, status: EscrowStatus, createdSlot: U64, expirySlot: U64)

  datatype OrgStatus = OrgActive | OrgDissolving | OrgClosed
  datatype Org = Org(
    orgId: U64, nameHash: Bytes32, creator: Pubkey, memberCount: U16, totalShareBps: U16,
    status: OrgStatus, createdSlot: U64)

  datatype Role = Admin | Member | Viewer | NoRole
  datatype MemberKey = MemberKey(org: U64, agent: Pubkey)
  datatype OrgMember = OrgMember(orgId: U64, agent: Pubkey, role: Role, shareBps: U16)

  datatype Receipt = Receipt(
    receiptId: U64, receiptType: U8, actor: Pubkey, slot: U64,
    payloadHash: Bytes32, prevHash: Bytes32, hash: Bytes32)

  type Tokens = map<Address, TokenAccount>

  /** What the cascade of a revoke writes back for a child. As written it is what the framework's serialiser
      writes, the record behind its discriminator; as intended it is the record alone. */
  datatype WriteBack = AsWritten | AsIntended

  /** Every account the program owns or moves tokens between, the clock, and which of the two
      write-backs the program was built with. */
  datatype World = World(
    config: Option<Config>,
    identities: map<Pubkey, AgentIdentity>,
    cris: map<Pubkey, Cri>,
    authorities: map<U64, Authority>,
    bonds: map<U64, Bond>,
    escrows: map<U64, Escrow>,
    orgs: map<U64, Org>,
    members: map<MemberKey, OrgMember>,
    receipts: map<U64, Receipt>,
    tokens: Tokens,
    slot: U64,
    writeBack: WriteBack)

  /** Everything but the token balances. */
  ghost function Books(w: World): World {
    w.(tokens := map[])
  }
}
