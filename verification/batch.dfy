// What the batch of one event shows, field by field: each transaction once, in order, with all that is known about it.
module BatchView {
  import opened Proto
  import opened Transparent
  import opened Events

  // ---------- inputs, outputs and changes ----------

  /** All that is known about a spent output, or nothing. */
  ghost predicate ShowsPrevious(p: PreviousOutput, previous: PreviousOutputs, outpoint: Outpoint, index: nat) {
    if IsKnown(previous, outpoint, index) then
      var output := KnownOutput(previous, outpoint, index);
      && p.value == Some(output.value) && p.lockScript == Some(output.lockScript) && p.address == output.address
      && (previous.OfBlock? ==> p.height == Some(previous.spent[outpoint].height)
                                && p.fromCoinbase == Some(previous.spent[outpoint].fromCoinbase))
      && (previous.OfMempool? ==> p.height.None? && p.fromCoinbase.None?)
    else
      p.value.None? && p.lockScript.None? && p.address.None? && p.height.None? && p.fromCoinbase.None?
  }

  ghost predicate ShowsInput(r: TransparentInput, input: Input, previous: PreviousOutputs, index: nat) {
    && r.index == index && r.sequence == input.sequence && r.detail.Some?
    && match input
       case CoinbaseInput(height, data, _) => r.detail.value == Coinbase(height, data)
       case SpendInput(outpoint, unlock, _) =>
         && r.detail.value.Prevout? && r.detail.value.outpoint == outpoint && r.detail.value.unlockScript == unlock
         && ShowsPrevious(r.detail.value.previous, previous, outpoint, index)
  }

  ghost predicate ShowsOutput(r: TransparentOutput, output: Output, index: nat) {
    r.index == index && Output(r.value, r.lockScript, r.address) == output
  }

  ghost predicate ShowsChange(c: UtxoChange, t: SourceTransaction, previous: PreviousOutputs) {
    match c
    case Spent(outpoint, i, unlock, sequence, p) =>
      && i < |t.inputs| && t.inputs[i] == SpendInput(outpoint, unlock, sequence)
      && ShowsPrevious(p, previous, outpoint, i)
    case Created(outpoint, value, script, address) =>
      && outpoint.transactionId == t.id && outpoint.index < |t.outputs|
      && t.outputs[outpoint.index] == Output(value, script, address)
  }

  /** Spends by input, then created outputs by index. */
  function Place(c: UtxoChange, t: SourceTransaction): (r: nat) {
    match c
    case Spent(_, i, _, _, _) => i
    case Created(outpoint, _, _, _) => |t.inputs| + outpoint.index
  }

  ghost predicate HasSpend(cs: seq<UtxoChange>, i: nat) {
    exists c :: c in cs && c.Spent? && c.inputIndex == i
  }

  ghost predicate HasCreate(cs: seq<UtxoChange>, i: nat) {
    exists c :: c in cs && c.Created? && c.outpoint.index == i
  }

  /** One change for each spend and each output, in order, and no other. */
  ghost predicate ShowsChanges(cs: seq<UtxoChange>, t: SourceTransaction, previous: PreviousOutputs) {
    && (forall p :: 0 <= p < |cs| ==> ShowsChange(cs[p], t, previous))
    && (forall p, q :: 0 <= p < q < |cs| ==> Place(cs[p], t) < Place(cs[q], t))
    && (forall i :: 0 <= i < |t.inputs| && t.inputs[i].SpendInput? ==> HasSpend(cs, i))
    && (forall i :: 0 <= i < |t.outputs| ==> HasCreate(cs, i))
  }

  // ---------- whole transactions ----------

  ghost predicate ShowsFacts(f: TransactionFacts, t: SourceTransaction, previous: PreviousOutputs) {
    && f.coinbase == t.coinbase && f.version == t.version
    && f.hasTransparent == t.hasTransparent && f.hasSapling == t.hasSapling && f.hasOrchard == t.hasOrchard
    && f.outputValue == OutputSum(t.outputs)
    && (f.inputValue.Some? <==>
          forall i :: 0 <= i < |t.inputs| && t.inputs[i].SpendInput? ==> IsKnown(previous, t.inputs[i].outpoint, i))
    && (f.inputValue.Some? ==> f.inputValue.value == InputSum(previous, t.inputs))
  }

  ghost predicate ShowsBody(b: TransactionBody, t: SourceTransaction, previous: PreviousOutputs) {
    && b.transactionId == t.id && b.unminedId == t.unminedId && t.raw == Some(b.raw) && b.payload == TxFull
    && |b.inputs| == |t.inputs| && |b.outputs| == |t.outputs|
    && (forall i :: 0 <= i < |b.inputs| ==> ShowsInput(b.inputs[i], t.inputs[i], previous, i))
    && (forall i :: 0 <= i < |b.outputs| ==> ShowsOutput(b.outputs[i], t.outputs[i], i))
    && ShowsFacts(b.facts, t, previous)
  }

  /** An update of this event, of this type, as yet without a number, a filter or a revision. */
  predicate OfEvent(u: SubscribeUpdate, e: Envelope, eventType: int) {
    && u.session == e.session && u.sourceSequence == e.sequence && u.eventType == eventType
    && u.sequence == 0 && u.filters == [] && u.mempoolRevision.None? && u.update.Some?
  }

  ghost predicate ShowsTransaction(u: SubscribeUpdate, e: Envelope, block: BlockEvent, final: bool, k: nat)
    requires k < |block.transactions|
  {
    OfEvent(u, e, 5) &&
    match u.update.value
    case Transaction(height, hash, index, commitment, body) =>
      && height == block.height && hash == block.hash && index == k && (commitment == Finalized <==> final)
      && commitment != CommitmentUnspecified && ShowsBody(body, block.transactions[k], OfBlock(block.spent))
    case _ => false
  }

  ghost predicate ShowsUtxos(u: SubscribeUpdate, e: Envelope, block: BlockEvent, final: bool, k: nat)
    requires k < |block.transactions|
  {
    OfEvent(u, e, 6) &&
    match u.update.value
    case Utxo(height, hash, id, index, commitment, changes, facts) =>
      && height == block.height && hash == block.hash && id == block.transactions[k].id && index == k
      && (commitment == Finalized <==> final) && commitment != CommitmentUnspecified
      && ShowsChanges(changes, block.transactions[k], OfBlock(block.spent))
      && ShowsFacts(facts, block.transactions[k], OfBlock(block.spent))
    case _ => false
  }

  ghost predicate ShowsBlock(u: SubscribeUpdate, e: Envelope, block: BlockEvent, final: bool) {
    && OfEvent(u, e, if final then 3 else 1)
    && u.update.value.Block? && u.update.value.height == block.height && u.update.value.hash == block.hash
    && Some(u.update.value.block) == block.bytes && u.update.value.finalized == final
    && u.update.value.blockPayload == BlockFull
  }

  /** A transaction that spends or creates a transparent output. */
  predicate MovesOutputs(t: SourceTransaction) {
    t.outputs != [] || exists i :: 0 <= i < |t.inputs| && t.inputs[i].SpendInput?
  }

  /** Transactions in block order, each before its own changes. */
  function Rank(u: SubscribeUpdate): (r: nat) {
    match u.update
    case Some(Transaction(_, _, index, _, _)) => 2 * index
    case Some(Utxo(_, _, _, index, _, _, _)) => 2 * index + 1
    case _ => 0
  }

  ghost predicate HasTransaction(us: seq<SubscribeUpdate>, e: Envelope, block: BlockEvent, final: bool, k: nat)
    requires k < |block.transactions|
  {
    exists u :: u in us && ShowsTransaction(u, e, block, final, k)
  }

  ghost predicate HasUtxos(us: seq<SubscribeUpdate>, e: Envelope, block: BlockEvent, final: bool, k: nat)
    requires k < |block.transactions|
  {
    exists u :: u in us && ShowsUtxos(u, e, block, final, k)
  }

  /** The update shows one of the transactions from lo on, up to hi, in one of the ways that the options ask for. */
  ghost predicate ShowsOne(
    u: SubscribeUpdate, e: Envelope, block: BlockEvent, final: bool, o: Options, lo: nat, hi: nat)
    requires hi <= |block.transactions|
  {
    || (o.transactions && exists k :: lo <= k < hi && ShowsTransaction(u, e, block, final, k))
    || (o.utxos && exists k :: lo <= k < hi && ShowsUtxos(u, e, block, final, k))
  }

  /** These updates show the block's transactions from lo on, up to hi, as the options ask: nothing else, each once and
      in order. */
  ghost predicate ShowsStretch(
    us: seq<SubscribeUpdate>, e: Envelope, block: BlockEvent, final: bool, o: Options, lo: nat, hi: nat)
    requires hi <= |block.transactions|
  {
    && (forall p :: 0 <= p < |us| ==> ShowsOne(us[p], e, block, final, o, lo, hi))
    && (forall p, q :: 0 <= p < q < |us| ==> Rank(us[p]) < Rank(us[q]))
    && (forall k :: lo <= k < hi && o.transactions ==> HasTransaction(us, e, block, final, k))
    && (forall k :: lo <= k < hi && o.utxos && MovesOutputs(block.transactions[k]) ==>
          HasUtxos(us, e, block, final, k))
  }

  // ---------- the proofs ----------

  lemma PreviousShown(previous: PreviousOutputs, outpoint: Outpoint, index: nat)
    ensures ShowsPrevious(EncodePreviousOutput(previous, outpoint, index), previous, outpoint, index)
  {
  }

  /** The changes for the first n inputs. */
  ghost predicate ShowsSpends(cs: seq<UtxoChange>, t: SourceTransaction, previous: PreviousOutputs, n: nat)
    requires n <= |t.inputs|
  {
    && (forall p :: 0 <= p < |cs| ==> cs[p].Spent? && cs[p].inputIndex < n && ShowsChange(cs[p], t, previous))
    && (forall p, q :: 0 <= p < q < |cs| ==> cs[p].inputIndex < cs[q].inputIndex)
    && (forall i :: 0 <= i < n && t.inputs[i].SpendInput? ==> HasSpend(cs, i))
  }

  lemma OneMoreSpendShown(cs: seq<UtxoChange>, t: SourceTransaction, previous: PreviousOutputs, n: nat)
    requires n < |t.inputs| && ShowsSpends(cs, t, previous, n)
    ensures ShowsSpends(cs + SpentBy(previous, t.inputs[n], n), t, previous, n + 1)
  {
    var input := t.inputs[n];
    var all := cs + SpentBy(previous, input, n);
    forall i | 0 <= i < n && HasSpend(cs, i) ensures HasSpend(all, i) {
      var c :| c in cs && c.Spent? && c.inputIndex == i;
      assert c in all;
    }
    if input.SpendInput? {
      PreviousShown(previous, input.outpoint, n);
      assert all[|cs|] in all && all[|cs|].inputIndex == n;
    }
    hide ShowsPrevious, EncodePreviousOutput;
  }

  lemma {:induction false} SpendsShown(t: SourceTransaction, previous: PreviousOutputs, n: nat)
    requires n <= |t.inputs|
    ensures ShowsSpends(SpentChanges(previous, t.inputs[..n]), t, previous, n)
  {
    if n == 0 {
    } else {
      hide ShowsSpends, SpentBy;
      SpendsShown(t, previous, n - 1);
      assert t.inputs[..n][..n - 1] == t.inputs[..n - 1];
      OneMoreSpendShown(SpentChanges(previous, t.inputs[..n - 1]), t, previous, n - 1);
    }
  }

  lemma ChangesShown(t: SourceTransaction, previous: PreviousOutputs)
    ensures ShowsChanges(Changes(previous, t.id, t.inputs, t.outputs), t, previous)
    ensures Changes(previous, t.id, t.inputs, t.outputs) != [] <==> MovesOutputs(t)
  {
    hide ShowsSpends, SpentChanges, CreatedChanges, ShowsChanges, MovesOutputs;
    SpendsShown(t, previous, |t.inputs|);
    assert t.inputs[..|t.inputs|] == t.inputs;
    var spends, creates := SpentChanges(previous, t.inputs), CreatedChanges(t.id, t.outputs);
    CreatesShown(t, previous);
    BothShown(spends, creates, t, previous);
  }

  lemma CreatesShown(t: SourceTransaction, previous: PreviousOutputs)
    ensures var creates := CreatedChanges(t.id, t.outputs);
            && |creates| == |t.outputs|
            && forall i :: 0 <= i < |creates| ==>
                 creates[i].Created? && creates[i].outpoint.index == i && ShowsChange(creates[i], t, previous)
  {
  }

  lemma BothShown(spends: seq<UtxoChange>, creates: seq<UtxoChange>, t: SourceTransaction, previous: PreviousOutputs)
    requires ShowsSpends(spends, t, previous, |t.inputs|) && |creates| == |t.outputs|
    requires forall i :: 0 <= i < |creates| ==>
               creates[i].Created? && creates[i].outpoint.index == i && ShowsChange(creates[i], t, previous)
    ensures ShowsChanges(spends + creates, t, previous)
    ensures spends + creates != [] <==> MovesOutputs(t)
  {
    var cs := spends + creates;
    forall i | 0 <= i < |t.outputs| ensures HasCreate(cs, i) {
      assert cs[|spends| + i] == creates[i] && creates[i] in cs;
    }
    forall i | 0 <= i < |t.inputs| && HasSpend(spends, i) ensures HasSpend(cs, i) && spends != [] {
      var c :| c in spends && c.Spent? && c.inputIndex == i;
      assert c in cs;
    }
    if spends != [] {
      assert ShowsChange(spends[0], t, previous) && t.inputs[spends[0].inputIndex].SpendInput?;
    }
    hide ShowsChange, HasSpend, HasCreate;
  }

  lemma BodyShown(t: SourceTransaction, previous: PreviousOutputs, utxos: bool)
    requires t.raw.Some?
    ensures ShowsBody(Body(t, Encoding(t.id, t.inputs, t.outputs, previous, true, utxos)), t, previous)
  {
    hide ShowsPrevious, EncodePreviousOutput;
    FactsShown(t, previous, true, utxos);
    var b := Body(t, Encoding(t.id, t.inputs, t.outputs, previous, true, utxos));
    hide ShowsFacts, Facts;
    forall i | 0 <= i < |b.inputs| ensures ShowsInput(b.inputs[i], t.inputs[i], previous, i) {
      if t.inputs[i].SpendInput? {
        PreviousShown(previous, t.inputs[i].outpoint, i);
      }
    }
  }

  lemma FactsShown(t: SourceTransaction, previous: PreviousOutputs, transactions: bool, utxos: bool)
    requires transactions || utxos
    ensures ShowsFacts(Facts(t, Encoding(t.id, t.inputs, t.outputs, previous, transactions, utxos)), t, previous)
  {
    TotalKnown(previous, t.inputs);
    hide Changes, InputRecords, OutputRecords, InputSum, OutputSum, IsKnown, AllResolved;
  }

  lemma OneTransactionShown(e: Envelope, block: BlockEvent, final: bool, o: Options, k: nat)
    requires k < |block.transactions| && (o.transactions ==> block.transactions[k].raw.Some?)
    ensures ShowsStretch(TransactionUpdates(e, block, final, o, k), e, block, final, o, k, k + 1)
  {
    hide Encoding, Changes, ShowsBody, ShowsFacts, ShowsChanges, Body, Facts, MovesOutputs;
    var t := block.transactions[k];
    var us := TransactionUpdates(e, block, final, o, k);
    var previous := OfBlock(block.spent);
    var encoded := Encoding(t.id, t.inputs, t.outputs, previous, o.transactions, o.utxos);
    if o.transactions {
      BodyShown(t, previous, o.utxos);
      assert us[0] in us && ShowsTransaction(us[0], e, block, final, k);
      assert ShowsOne(us[0], e, block, final, o, k, k + 1);
    }
    if o.utxos {
      EncodedChanges(t, previous, o.transactions);
      ChangesShown(t, previous);
      FactsShown(t, previous, o.transactions, true);
      if encoded.changes != [] {
        assert us[|us| - 1] in us && ShowsUtxos(us[|us| - 1], e, block, final, k);
        assert ShowsOne(us[|us| - 1], e, block, final, o, k, k + 1);
      }
    }
  }

  lemma EncodedChanges(t: SourceTransaction, previous: PreviousOutputs, transactions: bool)
    ensures Encoding(t.id, t.inputs, t.outputs, previous, transactions, true).changes
            == Changes(previous, t.id, t.inputs, t.outputs)
  {
    hide Changes;
  }

  lemma StretchesAppend(
    a: seq<SubscribeUpdate>, b: seq<SubscribeUpdate>, e: Envelope, block: BlockEvent, final: bool, o: Options,
    lo: nat, mid: nat, hi: nat)
    requires lo <= mid <= hi <= |block.transactions|
    requires ShowsStretch(a, e, block, final, o, lo, mid) && ShowsStretch(b, e, block, final, o, mid, hi)
    ensures ShowsStretch(a + b, e, block, final, o, lo, hi)
  {
    hide ShowsBody, ShowsFacts, ShowsChanges, MovesOutputs;
    forall u ensures ShowsOne(u, e, block, final, o, lo, mid) || ShowsOne(u, e, block, final, o, mid, hi)
                     ==> ShowsOne(u, e, block, final, o, lo, hi)
    {
    }
    RankWithin(a, e, block, final, o, lo, mid);
    RankWithin(b, e, block, final, o, mid, hi);
    hide Rank, ShowsOne;
    forall k | lo <= k < hi && o.transactions ensures HasTransaction(a + b, e, block, final, k) {
      var us := if k < mid then a else b;
      assert HasTransaction(us, e, block, final, k);
      var u :| u in us && ShowsTransaction(u, e, block, final, k);
      assert u in a + b;
    }
    forall k | lo <= k < hi && o.utxos && MovesOutputs(block.transactions[k])
      ensures HasUtxos(a + b, e, block, final, k)
    {
      var us := if k < mid then a else b;
      assert HasUtxos(us, e, block, final, k);
      var u :| u in us && ShowsUtxos(u, e, block, final, k);
      assert u in a + b;
    }
    hide ShowsTransaction, ShowsUtxos, HasTransaction, HasUtxos;
  }

  lemma RankWithin(
    us: seq<SubscribeUpdate>, e: Envelope, block: BlockEvent, final: bool, o: Options, lo: nat, hi: nat)
    requires hi <= |block.transactions| && ShowsStretch(us, e, block, final, o, lo, hi)
    ensures forall p :: 0 <= p < |us| ==> 2 * lo <= Rank(us[p]) < 2 * hi
  {
    hide ShowsBody, ShowsFacts, ShowsChanges, MovesOutputs, HasTransaction, HasUtxos;
    forall p | 0 <= p < |us| ensures 2 * lo <= Rank(us[p]) < 2 * hi {
      assert ShowsOne(us[p], e, block, final, o, lo, hi);
    }
  }

  lemma {:induction false} BlockShown(e: Envelope, block: BlockEvent, final: bool, o: Options, n: nat)
    requires n <= |block.transactions| && block.bytes.Some?
    requires o.transactions ==> forall k :: 0 <= k < n ==> block.transactions[k].raw.Some?
    ensures var us := BlockUpdates(e, block, final, o, n);
            && us != [] && ShowsBlock(us[0], e, block, final)
            && ShowsStretch(us[1..], e, block, final, o, 0, n)
  {
    hide ShowsStretch, TransactionUpdates, ShowsBlock, NewUpdate;
    var us := BlockUpdates(e, block, final, o, n);
    if n == 0 {
      HeaderShown(e, block, final, o);
    } else {
      var before, more := BlockUpdates(e, block, final, o, n - 1), TransactionUpdates(e, block, final, o, n - 1);
      assert us == before + more;
      hide BlockUpdates;
      BlockShown(e, block, final, o, n - 1);
      OneTransactionShown(e, block, final, o, n - 1);
      StretchesAppend(before[1..], more, e, block, final, o, 0, n - 1, n);
      assert us[0] == before[0] && us[1..] == before[1..] + more;
    }
  }

  lemma HeaderShown(e: Envelope, block: BlockEvent, final: bool, o: Options)
    requires block.bytes.Some?
    ensures var us := BlockUpdates(e, block, final, o, 0);
            && |us| == 1 && ShowsBlock(us[0], e, block, final) && ShowsStretch(us[1..], e, block, final, o, 0, 0)
  {
    NothingShown(e, block, final, o);
    hide ShowsStretch;
    assert BlockUpdates(e, block, final, o, 0)[1..] == [];
  }

  lemma NothingShown(e: Envelope, block: BlockEvent, final: bool, o: Options)
    ensures ShowsStretch([], e, block, final, o, 0, 0)
  {
  }

  // ---------- whole events ----------

  ghost predicate ShowsMempoolTransaction(u: SubscribeUpdate, e: Envelope, v: VerifiedTransaction) {
    && OfEvent(u, e, 7) && u.update.value.MempoolTransaction?
    && ShowsBody(u.update.value.body, v.transaction, OfMempool(v.spent))
  }

  /** The whole batch of an event: first what the event itself is, then its transactions, as far as the options ask. */
  ghost predicate ShowsEvent(us: seq<SubscribeUpdate>, e: Envelope, o: Options) {
    && us != []
    && match e.payload
       case BlockAccepted(block) =>
         && ShowsBlock(us[0], e, block, false)
         && ShowsStretch(us[1..], e, block, false, o, 0, |block.transactions|)
       case BlockFinalized(block) =>
         && ShowsBlock(us[0], e, block, true)
         && ShowsStretch(us[1..], e, block, true, o, 0, |block.transactions|)
       case BestChainChanged(height, hash, change) =>
         |us| == 1 && OfEvent(us[0], e, 2) && us[0].update == Some(BestChain(height, hash, Some(change)))
       case MempoolChanged(action, ids, transactions) =>
         && OfEvent(us[0], e, 4) && us[0].update == Some(Mempool(action, ids))
         && |us| == 1 + (if o.mempoolTransactions && action == Added then |transactions| else 0)
         && forall k :: 1 <= k < |us| ==> ShowsMempoolTransaction(us[k], e, transactions[k - 1])
  }

  /** Every event that can be encoded is published as a batch that shows it. */
  lemma EventShown(e: Envelope, o: Options)
    requires EventEncodable(e, o)
    ensures ShowsEvent(EventUpdates(e, o), e, o)
  {
    match e.payload {
      case BlockAccepted(block) => BlockEventShown(e, block, false, o);
      case BlockFinalized(block) => BlockEventShown(e, block, true, o);
      case BestChainChanged(_, _, _) =>
      case MempoolChanged(_, _, _) => MempoolShown(e, o);
    }
    hide EventEncodable, ShowsStretch, ShowsBlock, BlockUpdates, MempoolTransactionOf, ShowsMempoolTransaction;
  }

  lemma BlockEventShown(e: Envelope, block: BlockEvent, final: bool, o: Options)
    requires block.bytes.Some? && TransactionsEncodable(block, o)
    ensures var us := BlockUpdates(e, block, final, o, if o.transactions || o.utxos then |block.transactions| else 0);
            && us != [] && ShowsBlock(us[0], e, block, final)
            && ShowsStretch(us[1..], e, block, final, o, 0, |block.transactions|)
  {
    hide Encodable;
    if o.transactions || o.utxos {
      BlockShown(e, block, final, o, |block.transactions|);
    } else {
      assert BlockUpdates(e, block, final, o, 0)[1..] == [];
    }
  }

  lemma MempoolShown(e: Envelope, o: Options)
    requires e.payload.MempoolChanged? && EventEncodable(e, o)
    ensures ShowsEvent(EventUpdates(e, o), e, o)
  {
    hide Encodable, ShowsMempoolTransaction, MempoolTransactionOf;
    var us, transactions := EventUpdates(e, o), e.payload.transactions;
    forall k | 1 <= k < |us| ensures ShowsMempoolTransaction(us[k], e, transactions[k - 1]) {
      assert MempoolEncodable(transactions[k - 1]);
      OneMempoolShown(e, transactions[k - 1]);
    }
  }

  lemma OneMempoolShown(e: Envelope, v: VerifiedTransaction)
    requires v.transaction.raw.Some?
    ensures ShowsMempoolTransaction(MempoolTransactionOf(e, v), e, v)
  {
    BodyShown(v.transaction, OfMempool(v.spent), false);
    hide ShowsBody, Body, Encoding;
  }
}
