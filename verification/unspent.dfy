// What a follower of the UTXO updates rebuilds: the whole set of unspent outputs, block by block, and back again.
module UnspentView {
  import opened Proto
  import opened Transparent
  import opened Events

  /** Every unspent output in full, with the height and kind of the transaction that created it. */
  type Unspent = map<Outpoint, OrderedUtxo>

  // ---------- what the blocks do ----------

  function OutputsOf(t: SourceTransaction, height: nat): (r: Unspent) {
    map i | 0 <= i < |t.outputs| :: Outpoint(t.id, i) := OrderedUtxo(t.outputs[i], height, t.coinbase)
  }

  /** A transaction takes what it spends out of the set and puts what it creates in. */
  function Connected(utxos: Unspent, t: SourceTransaction, height: nat): (r: Unspent) {
    utxos - SpentOutpoints(t.inputs) + OutputsOf(t, height)
  }

  /** The set after the first n transactions of a block. */
  function ConnectedUpTo(utxos: Unspent, block: BlockEvent, n: nat): (r: Unspent)
    requires n <= |block.transactions|
  {
    if n == 0 then utxos else Connected(ConnectedUpTo(utxos, block, n - 1), block.transactions[n - 1], block.height)
  }

  // ---------- what a follower does ----------

  function FollowedChange(utxos: Unspent, change: UtxoChange, height: nat, coinbase: bool): (r: Unspent) {
    match change
    case Spent(outpoint, _, _, _, _) => utxos - {outpoint}
    case Created(outpoint, value, script, address) =>
      utxos[outpoint := OrderedUtxo(Output(value, script, address), height, coinbase)]
  }

  function FollowedChanges(utxos: Unspent, changes: seq<UtxoChange>, height: nat, coinbase: bool): (r: Unspent) {
    if changes == [] then
      utxos
    else
      FollowedChange(FollowedChanges(utxos, changes[..|changes| - 1], height, coinbase), changes[|changes| - 1],
        height, coinbase)
  }

  function Followed(utxos: Unspent, u: SubscribeUpdate): (r: Unspent) {
    match u.update
    case Some(Utxo(height, _, _, _, _, changes, facts)) => FollowedChanges(utxos, changes, height, facts.coinbase)
    case _ => utxos
  }

  function FollowedAll(utxos: Unspent, us: seq<SubscribeUpdate>): (r: Unspent) {
    if us == [] then utxos else Followed(FollowedAll(utxos, us[..|us| - 1]), us[|us| - 1])
  }

  // ---------- and what it does when a block goes away ----------

  /** The output that a spend says it spent, when it says all of it. */
  function Stated(previous: PreviousOutput): (r: Option<OrderedUtxo>) {
    match previous
    case PreviousOutput(Some(value), Some(script), address, Some(height), Some(coinbase)) =>
      Some(OrderedUtxo(Output(value, script, address), height, coinbase))
    case _ => None
  }

  function UndoneChange(utxos: Unspent, change: UtxoChange): (r: Unspent) {
    match change
    case Spent(outpoint, _, _, _, previous) =>
      if Stated(previous).Some? then utxos[outpoint := Stated(previous).value] else utxos
    case Created(outpoint, _, _, _) => utxos - {outpoint}
  }

  /** The last change is undone first. */
  function UndoneChanges(utxos: Unspent, changes: seq<UtxoChange>): (r: Unspent)
    decreases |changes|
  {
    if changes == [] then
      utxos
    else
      UndoneChanges(UndoneChange(utxos, changes[|changes| - 1]), changes[..|changes| - 1])
  }

  function Undone(utxos: Unspent, u: SubscribeUpdate): (r: Unspent) {
    match u.update
    case Some(Utxo(_, _, _, _, _, changes, _)) => UndoneChanges(utxos, changes)
    case _ => utxos
  }

  function UndoneAll(utxos: Unspent, us: seq<SubscribeUpdate>): (r: Unspent)
    decreases |us|
  {
    if us == [] then utxos else UndoneAll(Undone(utxos, us[|us| - 1]), us[..|us| - 1])
  }

  // ---------- following ----------

  lemma {:induction false} FollowedAppend(
    utxos: Unspent, a: seq<UtxoChange>, b: seq<UtxoChange>, height: nat, coinbase: bool)
    ensures FollowedChanges(utxos, a + b, height, coinbase)
            == FollowedChanges(FollowedChanges(utxos, a, height, coinbase), b, height, coinbase)
  {
    hide FollowedChange;
    if b == [] {
      assert a + b == a;
    } else {
      FollowedAppend(utxos, a, b[..|b| - 1], height, coinbase);
      assert (a + b)[..|a + b| - 1] == a + b[..|b| - 1];
    }
  }

  lemma {:induction false} UpdatesAppend(utxos: Unspent, a: seq<SubscribeUpdate>, b: seq<SubscribeUpdate>)
    ensures FollowedAll(utxos, a + b) == FollowedAll(FollowedAll(utxos, a), b)
    ensures UndoneAll(utxos, a + b) == UndoneAll(UndoneAll(utxos, b), a)
    decreases |b|
  {
    hide Followed, Undone;
    if b == [] {
      assert a + b == a;
    } else {
      var rest, last := b[..|b| - 1], b[|b| - 1];
      assert (a + b)[..|a + b| - 1] == a + rest && (a + b)[|a + b| - 1] == last;
      UpdatesAppend(utxos, a, rest);
      UpdatesAppend(Undone(utxos, last), a, rest);
    }
  }

  lemma RemovedTwice<K, V>(m: map<K, V>, a: set<K>, b: set<K>)
    ensures m - a - b == m - (a + b)
  {
  }

  lemma {:induction false} SpendsFollowed(
    utxos: Unspent, previous: PreviousOutputs, inputs: seq<Input>, height: nat, coinbase: bool)
    ensures FollowedChanges(utxos, SpentChanges(previous, inputs), height, coinbase) == utxos - SpentOutpoints(inputs)
  {
    hide FollowedChanges, FollowedChange, SpentBy, SpentOutpoints;
    if inputs == [] {
      NothingSpent(utxos, inputs, height, coinbase);
    } else {
      var n := |inputs| - 1;
      var spent := SpentBy(previous, inputs[n], n);
      SpendsFollowed(utxos, previous, inputs[..n], height, coinbase);
      FollowedAppend(utxos, SpentChanges(previous, inputs[..n]), spent, height, coinbase);
      OneSpendFollowed(utxos - SpentOutpoints(inputs[..n]), previous, inputs[n], n, height, coinbase);
      OneMoreSpent(inputs);
      RemovedTwice(utxos, SpentOutpoints(inputs[..n]), if inputs[n].SpendInput? then {inputs[n].outpoint} else {});
    }
  }

  lemma NothingSpent(utxos: Unspent, inputs: seq<Input>, height: nat, coinbase: bool)
    requires inputs == []
    ensures FollowedChanges(utxos, [], height, coinbase) == utxos == utxos - SpentOutpoints(inputs)
  {
    assert SpentOutpoints(inputs) == {};
  }

  lemma OneSpendFollowed(
    utxos: Unspent, previous: PreviousOutputs, input: Input, n: nat, height: nat, coinbase: bool)
    ensures FollowedChanges(utxos, SpentBy(previous, input, n), height, coinbase)
            == utxos - if input.SpendInput? then {input.outpoint} else {}
  {
    if input.SpendInput? {
      assert FollowedChanges(utxos, SpentBy(previous, input, n)[..0], height, coinbase) == utxos;
    }
  }

  /** The first n outputs of a transaction. */
  function FirstOutputs(t: SourceTransaction, height: nat, n: nat): (r: Unspent)
    requires n <= |t.outputs|
  {
    map i | 0 <= i < n :: Outpoint(t.id, i) := OrderedUtxo(t.outputs[i], height, t.coinbase)
  }

  lemma {:induction false} CreatesFollowed(utxos: Unspent, t: SourceTransaction, height: nat, n: nat)
    requires n <= |t.outputs|
    ensures FollowedChanges(utxos, CreatedChanges(t.id, t.outputs)[..n], height, t.coinbase)
            == utxos + FirstOutputs(t, height, n)
  {
    var changes := CreatedChanges(t.id, t.outputs);
    if n == 0 {
      assert FirstOutputs(t, height, 0) == map[];
    } else {
      CreatesFollowed(utxos, t, height, n - 1);
      assert changes[..n][..n - 1] == changes[..n - 1];
      OneMoreFirst(t, height, n);
      var last := OrderedUtxo(t.outputs[n - 1], height, t.coinbase);
      assert changes[n - 1] == Created(Outpoint(t.id, n - 1), last.output.value, last.output.lockScript,
                                 last.output.address);
      hide FirstOutputs, CreatedChanges;
      AddedOneMore(utxos, FirstOutputs(t, height, n - 1), Outpoint(t.id, n - 1), last);
    }
  }

  lemma AddedOneMore<K, V>(m: map<K, V>, a: map<K, V>, k: K, v: V)
    ensures m + a[k := v] == (m + a)[k := v]
    ensures m + map[] == m
  {
  }

  lemma OneMoreFirst(t: SourceTransaction, height: nat, n: nat)
    requires 0 < n <= |t.outputs|
    ensures FirstOutputs(t, height, n)
            == FirstOutputs(t, height, n - 1)
               [Outpoint(t.id, n - 1) := OrderedUtxo(t.outputs[n - 1], height, t.coinbase)]
    ensures Outpoint(t.id, n - 1) !in FirstOutputs(t, height, n - 1)
  {
    var a, b := FirstOutputs(t, height, n - 1), FirstOutputs(t, height, n);
    forall k ensures k in b <==> k in a || k == Outpoint(t.id, n - 1) {
      assert k in b <==> exists i :: 0 <= i < n && k == Outpoint(t.id, i);
    }
  }

  lemma FirstIsAll(t: SourceTransaction, height: nat)
    ensures FirstOutputs(t, height, |t.outputs|) == OutputsOf(t, height)
  {
  }

  lemma TransactionFollowed(utxos: Unspent, previous: PreviousOutputs, t: SourceTransaction, height: nat)
    ensures FollowedChanges(utxos, Changes(previous, t.id, t.inputs, t.outputs), height, t.coinbase)
            == Connected(utxos, t, height)
  {
    hide FollowedChanges, SpentOutpoints, SpentChanges, FirstOutputs;
    SpendsFollowed(utxos, previous, t.inputs, height, t.coinbase);
    FirstIsAll(t, height);
    var created := CreatedChanges(t.id, t.outputs);
    FollowedAppend(utxos, SpentChanges(previous, t.inputs), created, height, t.coinbase);
    CreatesFollowed(utxos - SpentOutpoints(t.inputs), t, height, |t.outputs|);
    assert created[..|t.outputs|] == created;
  }

  /** What a transaction's updates do, forwards and backwards, is what its changes do. */
  lemma OneTransaction(
    utxos: Unspent, e: Envelope, block: BlockEvent, final: bool, o: Options, i: nat)
    requires i < |block.transactions| && o.utxos
    ensures var t, us := block.transactions[i], TransactionUpdates(e, block, final, o, i);
            var changes := Changes(OfBlock(block.spent), t.id, t.inputs, t.outputs);
            && FollowedAll(utxos, us) == FollowedChanges(utxos, changes, block.height, t.coinbase)
            && UndoneAll(utxos, us) == UndoneChanges(utxos, changes)
  {
    ChangesOnly(e, block, final, o, i);
    var t, us := block.transactions[i], TransactionUpdates(e, block, final, o, i);
    var changes := Changes(OfBlock(block.spent), t.id, t.inputs, t.outputs);
    hide TransactionUpdates, Changes, Followed, Undone, FollowedAll, UndoneAll, FollowedChanges, UndoneChanges;
    var k := if o.transactions then 1 else 0;
    assert us == us[..k] + us[k..] && us[k..] == if changes == [] then [] else [us[k]];
    assert o.transactions ==> us[..k] == [us[0]];
    UpdatesAppend(utxos, us[..k], us[k..]);
    UtxoPart(utxos, us[k..], changes, block.height, t.coinbase);
    TransactionAside(utxos, us[..k]);
    TransactionAside(UndoneAll(utxos, us[k..]), us[..k]);
  }

  lemma TransactionAside(utxos: Unspent, us: seq<SubscribeUpdate>)
    requires us != [] ==> |us| == 1 && us[0].update.Some? && us[0].update.value.Transaction?
    ensures FollowedAll(utxos, us) == utxos && UndoneAll(utxos, us) == utxos
  {
    if us != [] {
      OneUpdate(utxos, us[0]);
      assert us == [us[0]];
    }
  }

  lemma UtxoPart(utxos: Unspent, us: seq<SubscribeUpdate>, changes: seq<UtxoChange>, height: nat, coinbase: bool)
    requires |us| == if changes == [] then 0 else 1
    requires changes != [] ==>
               && us[0].update.Some? && us[0].update.value.Utxo? && us[0].update.value.height == height
               && us[0].update.value.changes == changes && us[0].update.value.facts.coinbase == coinbase
    ensures FollowedAll(utxos, us) == FollowedChanges(utxos, changes, height, coinbase)
    ensures UndoneAll(utxos, us) == UndoneChanges(utxos, changes)
  {
    if changes != [] {
      OneUpdate(utxos, us[0]);
      assert us == [us[0]];
      hide FollowedChanges, UndoneChanges;
    }
  }

  lemma OneUpdate(utxos: Unspent, u: SubscribeUpdate)
    ensures FollowedAll(utxos, [u]) == Followed(utxos, u) && UndoneAll(utxos, [u]) == Undone(utxos, u)
    ensures FollowedAll(utxos, []) == utxos && UndoneAll(utxos, []) == utxos
  {
    hide Followed, Undone;
    assert [u][..0] == [] && FollowedAll(utxos, []) == utxos;
  }

  lemma ChangesOnly(e: Envelope, block: BlockEvent, final: bool, o: Options, i: nat)
    requires i < |block.transactions| && o.utxos
    ensures var t, us := block.transactions[i], TransactionUpdates(e, block, final, o, i);
            var changes := Changes(OfBlock(block.spent), t.id, t.inputs, t.outputs);
            var k := if o.transactions then 1 else 0;
            && |us| == k + (if changes == [] then 0 else 1)
            && (k == 1 ==> us[0].update.Some? && us[0].update.value.Transaction?)
            && (changes != [] ==>
                  && us == us[..k] + [us[k]] && us[k].update.Some? && us[k].update.value.Utxo?
                  && us[k].update.value.height == block.height && us[k].update.value.changes == changes
                  && us[k].update.value.facts.coinbase == t.coinbase)
  {
    hide Changes, InputRecords, OutputRecords, InputTotal, OutputSum;
  }

  /** Following the UTXO updates of one block, accepted or finalized, takes the full set of unspent outputs over the
      block's transactions, whatever else its batch holds. */
  lemma {:induction false} BlockFollowed(
    utxos: Unspent, e: Envelope, block: BlockEvent, final: bool, o: Options, n: nat)
    requires n <= |block.transactions| && o.utxos
    ensures FollowedAll(utxos, BlockUpdates(e, block, final, o, n)) == ConnectedUpTo(utxos, block, n)
  {
    hide FollowedAll, Followed, TransactionUpdates, Connected, FollowedChanges, Changes;
    if n == 0 {
      HeaderAside(utxos, e, block, final, o);
    } else {
      BlockFollowed(utxos, e, block, final, o, n - 1);
      var before := ConnectedUpTo(utxos, block, n - 1);
      UpdatesAppend(utxos, BlockUpdates(e, block, final, o, n - 1), TransactionUpdates(e, block, final, o, n - 1));
      OneTransaction(before, e, block, final, o, n - 1);
      TransactionFollowed(before, OfBlock(block.spent), block.transactions[n - 1], block.height);
    }
  }

  lemma HeaderAside(utxos: Unspent, e: Envelope, block: BlockEvent, final: bool, o: Options)
    ensures FollowedAll(utxos, BlockUpdates(e, block, final, o, 0)) == utxos
    ensures UndoneAll(utxos, BlockUpdates(e, block, final, o, 0)) == utxos
  {
    OneUpdate(utxos, BlockUpdates(e, block, final, o, 0)[0]);
  }

  // ---------- undoing ----------

  lemma {:induction false} UndoneAppend(utxos: Unspent, a: seq<UtxoChange>, b: seq<UtxoChange>)
    ensures UndoneChanges(utxos, a + b) == UndoneChanges(UndoneChanges(utxos, b), a)
    decreases |b|
  {
    hide UndoneChange;
    if b == [] {
      assert a + b == a;
    } else {
      var rest, last := b[..|b| - 1], b[|b| - 1];
      assert (a + b)[..|a + b| - 1] == a + rest && (a + b)[|a + b| - 1] == last;
      UndoneAppend(UndoneChange(utxos, last), a, rest);
    }
  }

  /** Every input spends an output of the set, each a different one, that the event gives as it is in the set. */
  ghost predicate SpendsKnown(utxos: Unspent, spent: map<Outpoint, OrderedUtxo>, inputs: seq<Input>) {
    && (forall i, j :: 0 <= i < j < |inputs| && inputs[i].SpendInput? && inputs[j].SpendInput? ==>
          inputs[i].outpoint != inputs[j].outpoint)
    && (forall i :: 0 <= i < |inputs| && inputs[i].SpendInput? ==>
          && inputs[i].outpoint in utxos && inputs[i].outpoint in spent
          && spent[inputs[i].outpoint] == utxos[inputs[i].outpoint])
  }

  ghost predicate CreatesNew(utxos: Unspent, t: SourceTransaction) {
    forall i :: 0 <= i < |t.outputs| ==> Outpoint(t.id, i) !in utxos
  }

  lemma OneSpendUndone(utxos: Unspent, spent: map<Outpoint, OrderedUtxo>, input: Input, n: nat, before: set<Outpoint>)
    requires input.SpendInput? ==>
               && input.outpoint in utxos && input.outpoint in spent && input.outpoint !in before
               && spent[input.outpoint] == utxos[input.outpoint]
    ensures var taken := if input.SpendInput? then {input.outpoint} else {};
            UndoneChanges(utxos - (before + taken), SpentBy(OfBlock(spent), input, n)) == utxos - before
  {
    if input.SpendInput? {
      var changes := SpentBy(OfBlock(spent), input, n);
      assert changes[..0] == [];
      assert UndoneChange(utxos - (before + {input.outpoint}), changes[0]) == utxos - before;
    } else {
      assert before + {} == before;
    }
  }

  lemma {:induction false} SpendsUndone(utxos: Unspent, spent: map<Outpoint, OrderedUtxo>, inputs: seq<Input>)
    requires SpendsKnown(utxos, spent, inputs)
    ensures UndoneChanges(utxos - SpentOutpoints(inputs), SpentChanges(OfBlock(spent), inputs)) == utxos
  {
    if inputs == [] {
      NothingSpent(utxos, inputs, 0, false);
    } else {
      var n := |inputs| - 1;
      var rest, last := inputs[..n], inputs[n];
      assert last.SpendInput? ==> last.outpoint !in SpentOutpoints(rest);
      SpendsUndone(utxos, spent, rest);
      hide SpendsKnown, UndoneChanges, SpentBy, SpentOutpoints;
      OneMoreSpent(inputs);
      OneSpendUndone(utxos, spent, last, n, SpentOutpoints(rest));
      UndoneAppend(utxos - SpentOutpoints(inputs), SpentChanges(OfBlock(spent), rest),
        SpentBy(OfBlock(spent), last, n));
    }
  }

  lemma RemovedAgain<K, V>(m: map<K, V>, a: map<K, V>, k: K, v: V)
    requires k !in m && k !in a
    ensures m + a[k := v] - {k} == m + a
  {
  }

  lemma {:induction false} CreatesUndone(utxos: Unspent, t: SourceTransaction, height: nat, n: nat)
    requires n <= |t.outputs| && CreatesNew(utxos, t)
    ensures UndoneChanges(utxos + FirstOutputs(t, height, n), CreatedChanges(t.id, t.outputs)[..n]) == utxos
  {
    hide FirstOutputs, CreatedChanges;
    var changes := CreatedChanges(t.id, t.outputs);
    if n == 0 {
      NoOutputs(utxos, t, height);
    } else {
      assert Outpoint(t.id, n - 1) !in utxos;
      hide CreatesNew;
      CreatesUndone(utxos, t, height, n - 1);
      CreatedAt(t, n - 1);
      assert changes[..n][..n - 1] == changes[..n - 1];
      OneMoreFirst(t, height, n);
      RemovedAgain(utxos, FirstOutputs(t, height, n - 1), Outpoint(t.id, n - 1),
        OrderedUtxo(t.outputs[n - 1], height, t.coinbase));
    }
  }

  lemma NoOutputs(utxos: Unspent, t: SourceTransaction, height: nat)
    ensures utxos + FirstOutputs(t, height, 0) == utxos
  {
  }

  lemma CreatedAt(t: SourceTransaction, i: nat)
    requires i < |t.outputs|
    ensures |CreatedChanges(t.id, t.outputs)| == |t.outputs|
    ensures CreatedChanges(t.id, t.outputs)[i].Created?
    ensures CreatedChanges(t.id, t.outputs)[i].outpoint == Outpoint(t.id, i)
  {
  }

  lemma TransactionUndone(utxos: Unspent, spent: map<Outpoint, OrderedUtxo>, t: SourceTransaction, height: nat)
    requires SpendsKnown(utxos, spent, t.inputs) && CreatesNew(utxos, t)
    ensures UndoneChanges(Connected(utxos, t, height), Changes(OfBlock(spent), t.id, t.inputs, t.outputs)) == utxos
  {
    hide UndoneChanges, SpentOutpoints, SpentChanges, FirstOutputs, SpendsKnown, OutputsOf;
    var left, created := utxos - SpentOutpoints(t.inputs), CreatedChanges(t.id, t.outputs);
    SpendsUndone(utxos, spent, t.inputs);
    UndoneAppend(left + OutputsOf(t, height), SpentChanges(OfBlock(spent), t.inputs), created);
    CreatesUndone(left, t, height, |t.outputs|);
    FirstIsAll(t, height);
    assert created[..|t.outputs|] == created;
  }

  /** Each transaction of the block, when its turn comes, spends what the event says and creates what is new. */
  ghost predicate Connects(utxos: Unspent, block: BlockEvent, n: nat)
    requires n <= |block.transactions|
  {
    forall k :: 0 <= k < n ==>
      && SpendsKnown(ConnectedUpTo(utxos, block, k), block.spent, block.transactions[k].inputs)
      && CreatesNew(ConnectedUpTo(utxos, block, k), block.transactions[k])
  }

  /** So the follower can take a block back when it leaves the chain: undoing its UTXO updates, the last one first,
      gives back every output that the block spent, with its value, script, address, height and kind, and nothing
      else. */
  lemma {:induction false} BlockUndone(
    utxos: Unspent, e: Envelope, block: BlockEvent, final: bool, o: Options, n: nat)
    requires n <= |block.transactions| && o.utxos && Connects(utxos, block, n)
    ensures UndoneAll(ConnectedUpTo(utxos, block, n), BlockUpdates(e, block, final, o, n)) == utxos
  {
    hide UndoneAll, Undone, TransactionUpdates, Connected, UndoneChanges, Changes, SpendsKnown, CreatesNew;
    if n == 0 {
      HeaderAside(utxos, e, block, final, o);
    } else {
      var before, after := ConnectedUpTo(utxos, block, n - 1), ConnectedUpTo(utxos, block, n);
      BlockUndone(utxos, e, block, final, o, n - 1);
      UpdatesAppend(after, BlockUpdates(e, block, final, o, n - 1), TransactionUpdates(e, block, final, o, n - 1));
      OneTransaction(after, e, block, final, o, n - 1);
      TransactionUndone(before, block.spent, block.transactions[n - 1], block.height);
    }
  }

  /** Forwards and back over what is published for one block event. */
  lemma EventFollowedAndUndone(utxos: Unspent, e: Envelope, block: BlockEvent, o: Options)
    requires e.payload == BlockAccepted(block) || e.payload == BlockFinalized(block)
    requires o.utxos
    ensures var after := ConnectedUpTo(utxos, block, |block.transactions|);
            && FollowedAll(utxos, EventUpdates(e, o)) == after
            && (Connects(utxos, block, |block.transactions|) ==> UndoneAll(after, EventUpdates(e, o)) == utxos)
  {
    var final, n := e.payload.BlockFinalized?, |block.transactions|;
    BlockFollowed(utxos, e, block, final, o, n);
    hide FollowedAll, UndoneAll, ConnectedUpTo, BlockUpdates;
    if Connects(utxos, block, n) {
      BlockUndone(utxos, e, block, final, o, n);
    }
  }
}
