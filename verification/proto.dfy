// The messages of geyser.proto that the server and the client exchange.
//
// Strings are kept as their UTF-8 bytes, so that lengths and comparisons are the byte-wise
// ones of the original. Heights, sequence numbers and revisions are natural numbers.
module Proto {
  newtype byte = x: int | 0 <= x < 256

  type Bytes = seq<byte>
  type Text = seq<byte>

  datatype Option<+T> = None | Some(value: T)

  datatype Result<+T, +E> = Ok(value: T) | Err(error: E)

  /** The gRPC status codes that the modelled code produces or tests. */
  datatype Code =
    | Cancelled | Unknown | DeadlineExceeded | ResourceExhausted | Aborted | Internal | Unavailable
    | DataLoss | OutOfRange | InvalidArgument | FailedPrecondition | Unauthenticated

  datatype BlockCommitment = CommitmentUnspecified | Accepted | Finalized

  datatype BlockPayload = BlockUnspecified | BlockMetaOnly | BlockFull

  datatype TransactionPayload = TxUnspecified | TxFull | TxMetaOnly | TxRawOnly | TxTransparentOnly

  datatype MempoolAction = ActionUnspecified | Added | Invalidated | Mined

  datatype SnapshotPhase = Begin | End

  datatype CanonicalBlock = CanonicalBlock(height: nat, hash: Text, previousHash: Text)

  datatype Outpoint = Outpoint(transactionId: Text, index: nat)

  /** What is known about the output that an input spends; every field is absent when unresolved. */
  datatype PreviousOutput = PreviousOutput(
    value: Option<nat>, lockScript: Option<Bytes>, address: Option<Text>,
    height: Option<nat>, fromCoinbase: Option<bool>)

  datatype InputDetail =
    | Prevout(outpoint: Outpoint, unlockScript: Bytes, previous: PreviousOutput)
    | Coinbase(height: nat, data: Bytes)

  datatype TransparentInput = TransparentInput(index: nat, sequence: nat, detail: Option<InputDetail>)

  datatype TransparentOutput = TransparentOutput(index: nat, value: nat, lockScript: Bytes, address: Option<Text>)

  datatype UtxoChange =
    | Spent(outpoint: Outpoint, inputIndex: nat, unlockScript: Bytes, sequence: nat, previous: PreviousOutput)
    | Created(outpoint: Outpoint, value: nat, lockScript: Bytes, address: Option<Text>)

  /** The facts about a transaction that filters test; shared by three kinds of update. */
  datatype TransactionFacts = TransactionFacts(
    coinbase: bool, version: nat, hasTransparent: bool, hasSapling: bool, hasOrchard: bool,
    inputValue: Option<nat>, outputValue: nat)

  /** The body of a transaction, mined or not. */
  datatype TransactionBody = TransactionBody(
    transactionId: Text, unminedId: Text, raw: Bytes,
    inputs: seq<TransparentInput>, outputs: seq<TransparentOutput>,
    facts: TransactionFacts, payload: TransactionPayload)

  datatype BestChainChange =
    | Grow(previousHash: Text, transactionIds: seq<Text>)
    | Reset(disconnected: seq<CanonicalBlock>, connected: seq<CanonicalBlock>, diffComplete: bool)

  /** The `update` oneof of SubscribeUpdate. */
  datatype Update =
    | Block(height: nat, hash: Text, block: Bytes, finalized: bool, blockPayload: BlockPayload)
    | BestChain(height: nat, hash: Text, change: Option<BestChainChange>)
    | Transaction(height: nat, hash: Text, index: nat, commitment: BlockCommitment, body: TransactionBody)
    | Utxo(height: nat, hash: Text, transactionId: Text, index: nat, commitment: BlockCommitment,
           changes: seq<UtxoChange>, facts: TransactionFacts)
    | Mempool(action: MempoolAction, ids: seq<Text>)
    | MempoolTransaction(body: TransactionBody)
    | Ping(id: int)
    | Pong(id: int)
    | Reconnect(finalizedHeight: nat, finalizedHash: Text, discarded: seq<CanonicalBlock>)
    | MempoolSnapshot(phase: SnapshotPhase, revision: nat, count: nat)

  datatype SubscribeUpdate = SubscribeUpdate(
    session: Bytes, sequence: nat, eventType: int, filters: seq<Text>,
    sourceSequence: nat, mempoolRevision: Option<nat>, update: Option<Update>)

  datatype ResumeCheckpoint = ResumeCheckpoint(
    finalizedHeight: nat, finalizedHash: Text, partialBlocks: seq<CanonicalBlock>)

  datatype SubscribeRequestFilter = SubscribeRequestFilter(
    eventTypes: seq<int>, minHeight: Option<nat>, transactionIds: seq<Text>,
    transparentAddresses: seq<Text>, addressInclude: seq<Text>, addressExclude: seq<Text>, addressRequired: seq<Text>,
    coinbase: Option<bool>, transactionVersion: Option<nat>,
    hasTransparent: Option<bool>, hasSapling: Option<bool>, hasOrchard: Option<bool>,
    minValue: Option<nat>, blockPayload: int, transactionPayload: int)

  datatype SubscribeRequest = SubscribeRequest(
    eventTypes: seq<int>, fromHeight: Option<nat>, ping: Option<int>,
    filters: map<Text, SubscribeRequestFilter>, resume: Option<ResumeCheckpoint>, includeMempoolSnapshot: bool)

  const U64_MAX: nat := 0xFFFF_FFFF_FFFF_FFFF

  /** Subtraction that stops at zero. */
  function SatSub(a: nat, b: nat): (r: nat) {
    if a < b then 0 else a - b
  }

  /** The height of a block-scoped update; absent for mempool and control messages. */
  function BlockHeight(u: SubscribeUpdate): (h: Option<nat>) {
    match u.update
    case Some(Block(height, _, _, _, _)) => Some(height)
    case Some(BestChain(height, _, _)) => Some(height)
    case Some(Transaction(height, _, _, _, _)) => Some(height)
    case Some(Utxo(height, _, _, _, _, _, _)) => Some(height)
    case _ => None
  }

  /** True of the two kinds of update that change the mempool's contents. */
  predicate IsMempoolUpdate(u: SubscribeUpdate) {
    u.update.Some? && (u.update.value.Mempool? || u.update.value.MempoolTransaction?)
  }
}
