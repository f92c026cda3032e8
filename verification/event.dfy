// The encoding of one node event as the batch of updates that is published for it.
module Events {
  import opened Proto
  import opened Transparent
  import opened Projection
  import ChainResume
  import Replay

  /** A transaction, with its serialization unless that fails. */
  datatype SourceTransaction = SourceTransaction(
    id: Text, unminedId: Text, raw: Option<Bytes>, inputs: seq<Input>, outputs: seq<Output>,
    coinbase: bool, version: nat, hasTransparent: bool, hasSapling: bool, hasOrchard: bool)

  /** A block event, with the block's serialization unless that fails. */
  datatype BlockEvent = BlockEvent(
    height: nat, hash: Text, bytes: Option<Bytes>, transactions: seq<SourceTransaction>, spent: map<Outpoint,
      OrderedUtxo>)

  datatype VerifiedTransaction = VerifiedTransaction(transaction: SourceTransaction, spent: seq<Output>)

  datatype PluginEvent =
    | BlockAccepted(block: BlockEvent)
    | BlockFinalized(block: BlockEvent)
    | BestChainChanged(height: nat, hash: Text, change: BestChainChange)
    | MempoolChanged(action: MempoolAction, ids: seq<Text>, transactions: seq<VerifiedTransaction>)

  datatype Envelope = Envelope(session: Bytes, sequence: nat, payload: PluginEvent)

  datatype Options = Options(transactions: bool, utxos: bool, mempoolTransactions: bool)

  datatype EventError = TransactionIndexRange | Serialization | Transparent(error: EncodeError)

  const TYPE_BLOCK_ACCEPTED := 1
  const TYPE_BEST_CHAIN := 2
  const TYPE_BLOCK_FINALIZED := 3
  const TYPE_MEMPOOL := 4
  const TYPE_TRANSACTION := 5
  const TYPE_UTXO := 6
  const TYPE_MEMPOOL_TRANSACTION := 7

  function Unwrapped(bytes: Option<Bytes>): (r: Bytes) {
    if bytes.Some? then bytes.value else []
  }

  function NewUpdate(e: Envelope, eventType: int, update: Update): (r: SubscribeUpdate) {
    SubscribeUpdate(e.session, 0, eventType, [], e.sequence, None, Some(update))
  }

  function Facts(t: SourceTransaction, encoded: Encoded): (r: TransactionFacts) {
    TransactionFacts(t.coinbase, t.version, t.hasTransparent, t.hasSapling, t.hasOrchard, encoded.inputValue,
      encoded.outputValue)
  }

  function Body(t: SourceTransaction, encoded: Encoded): (r: TransactionBody) {
    TransactionBody(t.id, t.unminedId, Unwrapped(t.raw), encoded.inputs, encoded.outputs, Facts(t, encoded), TxFull)
  }

  function Commitment(final: bool): (r: BlockCommitment) {
    if final then Finalized else Accepted
  }

  /** A transaction update if wanted, then a UTXO update if wanted and there is any change. */
  function TransactionUpdates(
    e: Envelope, block: BlockEvent, final: bool, o: Options, i: nat): (r: seq<SubscribeUpdate>)
    requires i < |block.transactions|
  {
    var t := block.transactions[i];
    var encoded := Encoding(t.id, t.inputs, t.outputs, OfBlock(block.spent), o.transactions, o.utxos);
    (if o.transactions
     then [NewUpdate(e, TYPE_TRANSACTION,
                     Transaction(block.height, block.hash, i, Commitment(final), Body(t, encoded)))] else [])
    + if o.utxos && encoded.changes != []
      then [NewUpdate(e, TYPE_UTXO,
                      Utxo(block.height, block.hash, t.id, i, Commitment(final), encoded.changes,
                        Facts(t, encoded)))] else []
  }

  /** The block itself and then its first n transactions, in block order. */
  function BlockUpdates(e: Envelope, block: BlockEvent, final: bool, o: Options, n: nat): (r: seq<SubscribeUpdate>)
    requires n <= |block.transactions|
  {
    if n == 0 then
      [NewUpdate(e, if final then TYPE_BLOCK_FINALIZED else TYPE_BLOCK_ACCEPTED,
                 Block(block.height, block.hash, Unwrapped(block.bytes), final, BlockFull))]
    else
      BlockUpdates(e, block, final, o, n - 1) + TransactionUpdates(e, block, final, o, n - 1)
  }

  function MempoolTransactionOf(e: Envelope, v: VerifiedTransaction): (r: SubscribeUpdate) {
    var t := v.transaction;
    NewUpdate(e, TYPE_MEMPOOL_TRANSACTION,
              MempoolTransaction(Body(t, Encoding(t.id, t.inputs, t.outputs, OfMempool(v.spent), true, false))))
  }

  /** The updates that an event is published as, in order. */
  function EventUpdates(e: Envelope, o: Options): (r: seq<SubscribeUpdate>) {
    match e.payload
    case BlockAccepted(block) =>
      BlockUpdates(e, block, false, o, if o.transactions || o.utxos then |block.transactions| else 0)
    case BlockFinalized(block) =>
      BlockUpdates(e, block, true, o, if o.transactions || o.utxos then |block.transactions| else 0)
    case BestChainChanged(height, hash, change) =>
      [NewUpdate(e, TYPE_BEST_CHAIN, BestChain(height, hash, Some(change)))]
    case MempoolChanged(action, ids, transactions) =>
      [NewUpdate(e, TYPE_MEMPOOL, Mempool(action, ids))]
      + if o.mempoolTransactions && action == Added
        then seq(|transactions|, i requires 0 <= i < |transactions| => MempoolTransactionOf(e, transactions[i])) else []
  }

  /** Every transaction that is looked at has its index, its totals and, if it is sent, its serialization. */
  ghost predicate TransactionsEncodable(block: BlockEvent, o: Options) {
    o.transactions || o.utxos ==>
      && |block.transactions| <= U32_COUNT
      && forall i :: 0 <= i < |block.transactions| ==> TransactionEncodable(block, block.transactions[i], o)
  }

  predicate TransactionEncodable(block: BlockEvent, t: SourceTransaction, o: Options) {
    Encodable(OfBlock(block.spent), t.inputs, t.outputs, true) && (o.transactions ==> t.raw.Some?)
  }

  method EncodeBlockTransactions(
    e: Envelope, block: BlockEvent, final: bool, o: Options, updates0: seq<SubscribeUpdate>)
    returns (r: Result<seq<SubscribeUpdate>, EventError>)
    requires updates0 == BlockUpdates(e, block, final, o, 0)
    ensures r.Ok? ==> r.value == BlockUpdates(e, block, final, o, if o.transactions || o.utxos
            then |block.transactions| else 0)
    ensures r.Ok? <==> TransactionsEncodable(block, o)
  {
    hide BlockUpdates, TransactionUpdates, Encoding, Encodable;
    var updates := updates0;
    if !o.transactions && !o.utxos {
      return Ok(updates);
    }
    for i := 0 to |block.transactions|
      invariant i <= U32_COUNT
      invariant updates == BlockUpdates(e, block, final, o, i)
      invariant forall k :: 0 <= k < i ==> TransactionEncodable(block, block.transactions[k], o)
    {
      if i >= U32_COUNT {
        return Err(TransactionIndexRange);
      }
      var t := block.transactions[i];
      var encoded := EncodeTransparentUpdates(t.id, t.inputs, t.outputs, OfBlock(block.spent), o.transactions, o.utxos);
      if encoded.Err? {
        assert !TransactionEncodable(block, block.transactions[i], o);
        return Err(EventError.Transparent(encoded.error));
      }
      var one := [];
      if o.transactions {
        if t.raw.None? {
          assert !TransactionEncodable(block, block.transactions[i], o);
          return Err(Serialization);
        }
        one := one + [NewUpdate(e, TYPE_TRANSACTION,
                                Transaction(block.height, block.hash, i, Commitment(final), Body(t, encoded.value)))];
      }
      if o.utxos && |encoded.value.changes| > 0 {
        one := one + [NewUpdate(e, TYPE_UTXO,
                                Utxo(block.height, block.hash, t.id, i, Commitment(final), encoded.value.changes,
                                  Facts(t, encoded.value)))];
      }
      OneMoreTransaction(e, block, final, o, i, one);
      updates := updates + one;
    }
    return Ok(updates);
  }

  lemma OneMoreTransaction(e: Envelope, block: BlockEvent, final: bool, o: Options, i: nat, one: seq<SubscribeUpdate>)
    requires i < |block.transactions|
    requires var t := block.transactions[i];
             var encoded := Encoding(t.id, t.inputs, t.outputs, OfBlock(block.spent), o.transactions, o.utxos);
             one == (if o.transactions
                     then [NewUpdate(e, TYPE_TRANSACTION,
                                     Transaction(block.height, block.hash, i, Commitment(final), Body(t, encoded)))]
                                       else [])
                    + if o.utxos && encoded.changes != []
                      then [NewUpdate(e, TYPE_UTXO,
                                      Utxo(block.height, block.hash, t.id, i, Commitment(final), encoded.changes,
                                        Facts(t, encoded)))] else []
    ensures BlockUpdates(e, block, final, o, i + 1) == BlockUpdates(e, block, final, o, i) + one
  {
  }

  /** Nothing that is encoded breaks a range or a total or fails to serialize. */
  ghost predicate EventEncodable(e: Envelope, o: Options) {
    match e.payload
    case BlockAccepted(block) => block.bytes.Some? && TransactionsEncodable(block, o)
    case BlockFinalized(block) => block.bytes.Some? && TransactionsEncodable(block, o)
    case BestChainChanged(_, _, _) => true
    case MempoolChanged(action, _, transactions) =>
      o.mempoolTransactions && action == Added ==>
        forall i :: 0 <= i < |transactions| ==> MempoolEncodable(transactions[i])
  }

  predicate MempoolEncodable(v: VerifiedTransaction) {
    Encodable(OfMempool(v.spent), v.transaction.inputs, v.transaction.outputs, true) && v.transaction.raw.Some?
  }

  method EncodeEvent(e: Envelope, o: Options) returns (r: Result<seq<SubscribeUpdate>, EventError>)
    ensures r.Ok? <==> EventEncodable(e, o)
    ensures r.Ok? ==> r.value == EventUpdates(e, o)
  {
    match e.payload {
      case BlockAccepted(block) =>
        if block.bytes.None? {
          return Err(Serialization);
        }
        var header := Block(block.height, block.hash, block.bytes.value, false, BlockFull);
        r := EncodeBlockTransactions(e, block, false, o, [NewUpdate(e, TYPE_BLOCK_ACCEPTED, header)]);
      case BlockFinalized(block) =>
        if block.bytes.None? {
          return Err(Serialization);
        }
        var header := Block(block.height, block.hash, block.bytes.value, true, BlockFull);
        r := EncodeBlockTransactions(e, block, true, o, [NewUpdate(e, TYPE_BLOCK_FINALIZED, header)]);
      case BestChainChanged(height, hash, change) =>
        r := Ok([NewUpdate(e, TYPE_BEST_CHAIN, BestChain(height, hash, Some(change)))]);
      case MempoolChanged(action, ids, transactions) =>
        var updates := [NewUpdate(e, TYPE_MEMPOOL, Mempool(action, ids))];
        if o.mempoolTransactions && action == Added {
          var header := updates;
          for i := 0 to |transactions|
            invariant updates == header + seq(i, k requires 0 <= k < i => MempoolTransactionOf(e, transactions[k]))
            invariant forall k :: 0 <= k < i ==> MempoolEncodable(transactions[k])
          {
            var t := transactions[i].transaction;
            var encoded := EncodeTransparentUpdates(t.id, t.inputs, t.outputs, OfMempool(transactions[i].spent),
              true, false);
            if encoded.Err? {
              assert !MempoolEncodable(transactions[i]);
              return Err(EventError.Transparent(encoded.error));
            }
            if t.raw.None? {
              assert !MempoolEncodable(transactions[i]);
              return Err(Serialization);
            }
            updates := updates + [NewUpdate(e, TYPE_MEMPOOL_TRANSACTION, MempoolTransaction(Body(t, encoded.value)))];
          }
        }
        r := Ok(updates);
    }
  }

  // ---------- the shape of a batch ----------

  /** No filter names, and the full payload labelled as such. */
  predicate Plain(u: SubscribeUpdate) {
    u.filters == [] && Projected(u, BlockFull, TxFull) == u
  }

  /** An update as encoded: plain, no revision yet, block-scoped or about the mempool. */
  predicate SourceUpdate(u: SubscribeUpdate) {
    && Plain(u) && u.mempoolRevision.None? && u.update.Some?
    && (BlockHeight(u).Some? || IsMempoolUpdate(u))
    && !u.update.value.Reconnect?
  }

  /** Whoever finalizes a block, the finalized block itself is among them. */
  ghost predicate FinalityShown(us: seq<SubscribeUpdate>) {
    forall u :: u in us && ChainResume.Finalizes(u).Some? ==>
      exists v :: v in us && Replay.IsFinalizedBlock(v, ChainResume.Finalizes(u).value.1)
  }

  /** One event's updates: either all block-scoped at one height, or all about the mempool. */
  ghost predicate SourceBatch(batch: seq<SubscribeUpdate>) {
    && batch != [] && FinalityShown(batch)
    && forall u :: u in batch ==>
         SourceUpdate(u) && BlockHeight(u) == BlockHeight(batch[0]) && u.session == batch[0].session
  }

  lemma {:induction false} BlockUpdatesShape(
    e: Envelope, block: BlockEvent, final: bool, o: Options, n: nat, u: SubscribeUpdate)
    requires n <= |block.transactions| && u in BlockUpdates(e, block, final, o, n)
    ensures SourceUpdate(u) && BlockHeight(u) == Some(block.height) && u.session == e.session
    ensures ChainResume.Finalizes(u) == if final then Some((block.height, block.hash)) else None
  {
    hide SourceUpdate, TransactionUpdates, ChainResume.Finalizes, BlockHeight;
    if n == 0 {
      HeaderShape(e, block, final);
    } else if u in BlockUpdates(e, block, final, o, n - 1) {
      BlockUpdatesShape(e, block, final, o, n - 1, u);
    } else {
      TransactionUpdatesShape(e, block, final, o, n - 1, u);
    }
  }

  lemma HeaderShape(e: Envelope, block: BlockEvent, final: bool)
    ensures var u := NewUpdate(e, if final then TYPE_BLOCK_FINALIZED else TYPE_BLOCK_ACCEPTED,
                               Block(block.height, block.hash, Unwrapped(block.bytes), final, BlockFull));
            && SourceUpdate(u) && BlockHeight(u) == Some(block.height) && u.session == e.session
            && ChainResume.Finalizes(u) == if final then Some((block.height, block.hash)) else None
  {
  }

  lemma TransactionUpdatesShape(e: Envelope, block: BlockEvent, final: bool, o: Options, i: nat, u: SubscribeUpdate)
    requires i < |block.transactions| && u in TransactionUpdates(e, block, final, o, i)
    ensures SourceUpdate(u) && BlockHeight(u) == Some(block.height) && u.session == e.session
    ensures ChainResume.Finalizes(u) == if final then Some((block.height, block.hash)) else None
  {
    hide Encoding, Facts;
    assert u.update.Some? && (u.update.value.Transaction? || u.update.value.Utxo?);
  }

  lemma {:induction false} BlockUpdatesNonempty(e: Envelope, block: BlockEvent, final: bool, o: Options, n: nat)
    requires n <= |block.transactions|
    ensures BlockUpdates(e, block, final, o, n) != []
    ensures final ==> exists v :: v in BlockUpdates(e, block, final, o, n) && Replay.IsFinalizedBlock(v, block.hash)
  {
    hide TransactionUpdates;
    if n == 0 {
      var header := BlockUpdates(e, block, final, o, 0)[0];
      assert final ==> Replay.IsFinalizedBlock(header, block.hash);
    } else {
      BlockUpdatesNonempty(e, block, final, o, n - 1);
    }
  }

  /** Every event encodes to a source batch; the updates of a finalized block all finalize that block, and no
      other event finalizes anything. */
  lemma EventIsSourceBatch(e: Envelope, o: Options)
    ensures SourceBatch(EventUpdates(e, o))
    ensures forall u :: u in EventUpdates(e, o) ==>
              ChainResume.Finalizes(u) == if e.payload.BlockFinalized?
                then Some((e.payload.block.height, e.payload.block.hash)) else None
  {
    var batch := EventUpdates(e, o);
    match e.payload {
      case BlockAccepted(block) => BlockBatch(e, block, false, o);
      case BlockFinalized(block) => BlockBatch(e, block, true, o);
      case BestChainChanged(height, hash, change) =>
      case MempoolChanged(action, ids, transactions) =>
        forall u | u in batch ensures SourceUpdate(u) && BlockHeight(u) == None && u.session == e.session {
        }
    }
  }

  lemma BlockBatch(e: Envelope, block: BlockEvent, final: bool, o: Options)
    ensures var batch := BlockUpdates(e, block, final, o, if o.transactions || o.utxos then |block.transactions|
            else 0);
            SourceBatch(batch)
            && forall u :: u in batch ==> ChainResume.Finalizes(u) == if final then Some((block.height, block.hash))
               else None
  {
    hide BlockUpdates, SourceUpdate;
    var n := if o.transactions || o.utxos then |block.transactions| else 0;
    var batch := BlockUpdates(e, block, final, o, n);
    BlockUpdatesNonempty(e, block, final, o, n);
    forall u | u in batch
      ensures SourceUpdate(u) && BlockHeight(u) == Some(block.height) && u.session == e.session
      ensures ChainResume.Finalizes(u) == if final then Some((block.height, block.hash)) else None
    {
      BlockUpdatesShape(e, block, final, o, n, u);
    }
    assert batch[0] in batch;
  }
}
