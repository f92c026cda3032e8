// Payload projection, and the per-update cache of prepared projections.
module Projection {
  import opened Proto
  import Wire

  function ProjectedBody(b: TransactionBody, mode: TransactionPayload): (r: TransactionBody) {
    var labelled := b.(payload := mode);
    match mode
    case TxMetaOnly => labelled.(raw := [], inputs := [], outputs := [])
    case TxRawOnly => labelled.(inputs := [], outputs := [])
    case TxTransparentOnly => labelled.(raw := [])
    case TxUnspecified => labelled
    case TxFull => labelled
  }

  /** The message as one subscription mode sees it. */
  function Projected(u: SubscribeUpdate, block: BlockPayload, tx: TransactionPayload): (r: SubscribeUpdate) {
    match u.update
    case Some(Block(height, hash, bytes, finalized, _)) =>
      u.(update := Some(Block(height, hash, if block == BlockMetaOnly then [] else bytes, finalized, block)))
    case Some(Transaction(height, hash, index, commitment, body)) =>
      u.(update := Some(Transaction(height, hash, index, commitment, ProjectedBody(body, tx))))
    case Some(MempoolTransaction(body)) =>
      u.(update := Some(MempoolTransaction(ProjectedBody(body, tx))))
    case _ => u
  }

  /** A projected message and its length. */
  datatype Prepared = Prepared(message: SubscribeUpdate, encodedLen: nat)

  function Prepare(codec: Wire.Codec, u: SubscribeUpdate, block: BlockPayload, tx: TransactionPayload): (r: Prepared) {
    var message := Projected(u, block, tx);
    Prepared(message, Wire.EncodedLen(codec, message))
  }

  predicate IsTransaction(u: SubscribeUpdate) {
    u.update.Some? && (u.update.value.Transaction? || u.update.value.MempoolTransaction?)
  }

  predicate IsBlock(u: SubscribeUpdate) {
    u.update.Some? && u.update.value.Block?
  }

  /** The mode that matters for this kind of update has been chosen. */
  predicate Specified(u: SubscribeUpdate, block: BlockPayload, tx: TransactionPayload) {
    (IsBlock(u) ==> block != BlockUnspecified) && (IsTransaction(u) ==> tx != TxUnspecified)
  }

  /** One update as the server keeps it: the full message, and a lazily filled slot per projection. */
  class PublishedUpdate {
    const codec: Wire.Codec
    const message: SubscribeUpdate
    const encodedLen: nat
    var blockMeta: Option<Prepared>
    var transactionMeta: Option<Prepared>
    var transactionRaw: Option<Prepared>
    var transactionTransparent: Option<Prepared>

    /** Every filled slot holds the projection it is named after. */
    ghost predicate Valid()
      reads this
    {
      && message == Projected(message, BlockFull, TxFull)
      && encodedLen == Wire.EncodedLen(codec, message)
      && (blockMeta.Some? ==> IsBlock(message) && blockMeta.value == Prepare(codec, message, BlockMetaOnly, TxFull))
      && SlotHolds(transactionMeta, TxMetaOnly)
      && SlotHolds(transactionRaw, TxRawOnly)
      && SlotHolds(transactionTransparent, TxTransparentOnly)
    }

    ghost predicate SlotHolds(slot: Option<Prepared>, mode: TransactionPayload) {
      slot.Some? ==> IsTransaction(message) && slot.value == Prepare(codec, message, BlockFull, mode)
    }

    constructor (codec: Wire.Codec, source: SubscribeUpdate)
      ensures Valid()
      ensures this.codec == codec && message == Projected(source, BlockFull, TxFull)
      ensures blockMeta == transactionMeta == transactionRaw == transactionTransparent == None
    {
      this.codec := codec;
      var full := Projected(source, BlockFull, TxFull);
      message := full;
      encodedLen := Wire.EncodedLen(codec, full);
      blockMeta, transactionMeta, transactionRaw, transactionTransparent := None, None, None, None;
    }

    /** Whichever call filled the slot, and with whatever irrelevant mode, a call with specified modes
        returns what projecting the original from scratch returns. */
    method Payload(block: BlockPayload, tx: TransactionPayload) returns (r: Prepared)
      requires Valid()
      modifies this
      ensures Valid()
      ensures Specified(message, block, tx) ==> r == Prepare(codec, message, block, tx)
      ensures !Specified(message, block, tx) ==> r == Prepared(message, encodedLen)
      ensures r.message == Projected(message, block, tx) <==> Specified(message, block, tx)
      ensures old(blockMeta.Some?) ==> blockMeta == old(blockMeta)
      ensures old(transactionMeta.Some?) ==> transactionMeta == old(transactionMeta)
      ensures old(transactionRaw.Some?) ==> transactionRaw == old(transactionRaw)
      ensures old(transactionTransparent.Some?) ==> transactionTransparent == old(transactionTransparent)
    {
      IrrelevantMode(codec, message, block, tx);
      if !Specified(message, block, tx) {
        UnspecifiedIsRelabelled(message, block, tx);
      }
      if IsBlock(message) && block == BlockMetaOnly {
        if blockMeta.None? {
          blockMeta := Some(Prepare(codec, message, block, tx));
        }
        return blockMeta.value;
      } else if IsTransaction(message) {
        match tx {
          case TxMetaOnly =>
            if transactionMeta.None? {
              transactionMeta := Some(Prepare(codec, message, block, tx));
            }
            return transactionMeta.value;
          case TxRawOnly =>
            if transactionRaw.None? {
              transactionRaw := Some(Prepare(codec, message, block, tx));
            }
            return transactionRaw.value;
          case TxTransparentOnly =>
            if transactionTransparent.None? {
              transactionTransparent := Some(Prepare(codec, message, block, tx));
            }
            return transactionTransparent.value;
          case TxUnspecified =>
            return Prepared(message, encodedLen);
          case TxFull =>
            return Prepared(message, encodedLen);
        }
      } else {
        return Prepared(message, encodedLen);
      }
    }
  }

  lemma IrrelevantMode(codec: Wire.Codec, u: SubscribeUpdate, block: BlockPayload, tx: TransactionPayload)
    ensures IsBlock(u) ==> Prepare(codec, u, block, tx) == Prepare(codec, u, block, TxFull)
    ensures IsTransaction(u) ==> Prepare(codec, u, block, tx) == Prepare(codec, u, BlockFull, tx)
    ensures !IsBlock(u) && !IsTransaction(u) ==> Prepare(codec, u, block, tx) == Prepare(codec, u, BlockFull, TxFull)
  {
  }

  /** For unspecified modes the stored message is not what direct projection gives: it is labelled Full. */
  lemma UnspecifiedIsRelabelled(u: SubscribeUpdate, block: BlockPayload, tx: TransactionPayload)
    requires u == Projected(u, BlockFull, TxFull) && !Specified(u, block, tx)
    ensures Projected(u, block, tx) != u
  {
    var p := Projected(u, block, tx);
    if IsBlock(u) {
      assert u.update.value.blockPayload == BlockFull && p.update.value.blockPayload == BlockUnspecified;
    } else {
      assert u.update.value.body.payload == TxFull && p.update.value.body.payload == TxUnspecified;
    }
  }

  // ---------- what a projection carries ----------

  /** The parts of a message that projection can drop: block bytes, transaction bytes, decoded
      transparent inputs and outputs. */
  datatype Parts = Parts(block: Bytes, raw: Bytes, inputs: seq<TransparentInput>, outputs: seq<TransparentOutput>)

  function PartsOf(u: SubscribeUpdate): (r: Parts) {
    match u.update
    case Some(Block(_, _, bytes, _, _)) => Parts(bytes, [], [], [])
    case Some(Transaction(_, _, _, _, b)) => Parts([], b.raw, b.inputs, b.outputs)
    case Some(MempoolTransaction(b)) => Parts([], b.raw, b.inputs, b.outputs)
    case _ => Parts([], [], [], [])
  }

  /** The message with its droppable parts and payload labels blanked. */
  function Metadata(u: SubscribeUpdate): (r: SubscribeUpdate) {
    Projected(u, BlockMetaOnly, TxMetaOnly)
  }

  /** Projection keeps the metadata: only droppable parts and labels can differ. */
  lemma ProjectionKeepsMetadata(u: SubscribeUpdate, block: BlockPayload, tx: TransactionPayload)
    ensures Metadata(Projected(u, block, tx)) == Metadata(u)
    ensures BlockHeight(Projected(u, block, tx)) == BlockHeight(u)
  {
    match u.update {
      case Some(Transaction(_, _, _, _, b)) => BodyMetadata(b, tx);
      case Some(MempoolTransaction(b)) => BodyMetadata(b, tx);
      case _ =>
    }
  }

  lemma BodyMetadata(b: TransactionBody, tx: TransactionPayload)
    ensures ProjectedBody(ProjectedBody(b, tx), TxMetaOnly) == ProjectedBody(b, TxMetaOnly)
  {
  }
}
