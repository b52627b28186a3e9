/** The receipt chain: the hashed byte string, and what recording a receipt does. */
module ReceiptSpec {
  import opened Types
  import opened TokenLedger
  import opened SpendSpec

  /** The hash syscall: some function from byte strings to 32 bytes, of which nothing is known here. */
  const SHA256: seq<U8> -> Bytes32

  /** `n` as `width` bytes, least significant first. */
  function LittleEndian(n: nat, width: nat): (r: seq<U8>)
    ensures |r| == width
  {
    if width == 0 then [] else [n % 0x100] + LittleEndian(n / 0x100, width - 1)
  }

  /** The bytes of AEON_RECEIPT_V1. */
  const DOMAIN: seq<U8> := [65, 69, 79, 78, 95, 82, 69, 67, 69, 73, 80, 84, 95, 86, 49]

  /** The 32 bytes of a key. Only wallets record receipts. */
  function KeyBytes(k: Pubkey): (r: seq<U8>)
    requires k.Wallet?
    ensures |r| == 32
  {
    LittleEndian(k.raw, 32)
  }

  /** The fields of a receipt that the hash covers, one after the other. */
  function Preimage(r: Receipt): seq<U8>
    requires r.actor.Wallet?
  {
    DOMAIN + LittleEndian(r.receiptId, 8) + [r.receiptType] + KeyBytes(r.actor) + LittleEndian(r.slot, 8)
    + LittleEndian(r.payloadHash, 32) + LittleEndian(r.prevHash, 32)
  }

  // ---- create_receipt ----

  datatype ReceiptCall = ReceiptCall(actor: Pubkey, receiptId: U64, receiptType: U8, payload: seq<U8>)

  function ReceiptAccounts(w: World, c: ReceiptCall): Option<Error> {
    if !c.actor.Wallet? then Some(MissingSignature)
    else if w.config.None? then Some(AnchorConstraint)
    else Either(CriGuard(w, c.actor), if c.receiptId in w.receipts then Some(AnchorConstraint) else None)
  }

  function NewReceipt(w: World, c: ReceiptCall): Receipt
    requires c.actor.Wallet? && c.actor in w.cris
  {
    var draft := Receipt(c.receiptId, c.receiptType, c.actor, w.slot, SHA256(c.payload), w.cris[c.actor].lastReceiptHash, 0);
    draft.(hash := SHA256(Preimage(draft)))
  }

  function CreateReceipt(w: World, c: ReceiptCall): (r: Result<World>)
    ensures r.Ok? ==> r.value == w.(receipts := r.value.receipts, cris := r.value.cris, config := r.value.config)
  {
    match ReceiptAccounts(w, c)
    case Some(e) => Err(e)
    case None =>
      var cfg := w.config.value;
      var cri := w.cris[c.actor];
      if cfg.paused then Err(Paused)
      else if |c.payload| == 0 || |c.payload| > 1024 then Err(InvalidPayload)
      else if cfg.receiptCounter + 1 >= U64_END then Err(Overflow)
      else if c.receiptId != cfg.receiptCounter + 1 then Err(ReceiptIdMismatch)
      else
        var r := NewReceipt(w, c);
        if cri.lastReceiptHash != r.prevHash then Err(ReceiptChainMismatch)
        else if cri.receiptCount + 1 >= U64_END then Err(Overflow)
        else Ok(w.(
          receipts := w.receipts[c.receiptId := r],
          cris := w.cris[c.actor := cri.(lastReceiptHash := r.hash, receiptCount := cri.receiptCount + 1, lastActiveSlot := w.slot)],
          config := Some(cfg.(receiptCounter := c.receiptId))))
  }
}
