// The client's chain state: the finalized anchor it resumes from and the blocks above it that it has
// shown to the application.
module ChainResume {
  import opened Proto
  import Order

  type BlockKey = (nat, Text)

  datatype Chain = Chain(finalized: Option<BlockKey>, partial: map<BlockKey, CanonicalBlock>)

  const EMPTY := Chain(None, map[])

  function BlockKeyOf(b: CanonicalBlock): (k: BlockKey) {
    (b.height, b.hash)
  }

  function KeysOf(blocks: seq<CanonicalBlock>): (r: set<BlockKey>) {
    set b | b in blocks :: BlockKeyOf(b)
  }

  function InsertPartial(c: Chain, b: CanonicalBlock): (r: Chain) {
    if c.finalized.None? || b.height > c.finalized.value.0 then
      c.(partial := c.partial[BlockKeyOf(b) := b])
    else
      c
  }

  function InsertAll(c: Chain, blocks: seq<CanonicalBlock>): (r: Chain) {
    if blocks == [] then c else InsertPartial(InsertAll(c, blocks[..|blocks| - 1]), blocks[|blocks| - 1])
  }

  function ObserveBlock(c: Chain, height: nat, hash: Text, finalized: bool): (r: Chain) {
    if finalized then
      Chain(Some((height, hash)), map k | k in c.partial && k.0 > height :: c.partial[k])
    else
      InsertPartial(c, CanonicalBlock(height, hash, []))
  }

  function Observe(c: Chain, u: SubscribeUpdate): (r: Chain) {
    match u.update
    case Some(Block(height, hash, _, finalized, _)) => ObserveBlock(c, height, hash, finalized)
    case Some(BestChain(height, hash, Some(Grow(previous, _)))) => InsertPartial(c,
      CanonicalBlock(height, hash, previous))
    case Some(BestChain(_, _, Some(Reset(disconnected, connected, _)))) =>
      InsertAll(c.(partial := c.partial - KeysOf(disconnected)), connected)
    case Some(Transaction(height, hash, _, commitment, _)) => ObserveBlock(c, height, hash, commitment == Finalized)
    case Some(Utxo(height, hash, _, _, commitment, _, _)) => ObserveBlock(c, height, hash, commitment == Finalized)
    case Some(Reconnect(_, _, discarded)) => c.(partial := c.partial - KeysOf(discarded))
    case _ => c
  }

  function ObserveAll(c: Chain, us: seq<SubscribeUpdate>): (r: Chain) {
    if us == [] then c else Observe(ObserveAll(c, us[..|us| - 1]), us[|us| - 1])
  }

  /** The checkpoint's blocks as a map; a later block replaces an earlier one with its key. */
  function ByKey(blocks: seq<CanonicalBlock>): (r: map<BlockKey, CanonicalBlock>) {
    if blocks == [] then
      map[]
    else
      ByKey(blocks[..|blocks| - 1])[BlockKeyOf(blocks[|blocks| - 1]) := blocks[|blocks| - 1]]
  }

  function FromCheckpoint(resume: Option<ResumeCheckpoint>): (r: Chain) {
    match resume
    case None => EMPTY
    case Some(c) => Chain(Some((c.finalizedHeight, c.finalizedHash)), ByKey(c.partialBlocks))
  }

  /** The values of the keys, in reverse order. */
  function Backwards(keys: seq<BlockKey>, partial: map<BlockKey, CanonicalBlock>): (r: seq<CanonicalBlock>)
    requires forall k :: k in keys ==> k in partial
    ensures |r| == |keys|
    ensures forall i :: 0 <= i < |r| ==> r[i] == partial[keys[|keys| - 1 - i]]
  {
    seq(|keys|, i requires 0 <= i < |keys| => partial[keys[|keys| - 1 - i]])
  }

  ghost function PartialKeys(c: Chain): (r: seq<BlockKey>)
    ensures forall k :: k in r <==> k in c.partial
    ensures Order.Ascending(r, Order.KeyLess)
  {
    Order.KeyOrder();
    Order.ListingAscending(c.partial.Keys, Order.KeyLess);
    var r := Order.Listing(c.partial.Keys, Order.KeyLess);
    assert forall k :: k in r <==> k in Order.Elements(r);
    r
  }

  ghost function Checkpoint(c: Chain): Option<ResumeCheckpoint> {
    match c.finalized
    case None => None
    case Some((height, hash)) => Some(ResumeCheckpoint(height, hash, Backwards(PartialKeys(c), c.partial)))
  }

  class ChainResumeState {
    var finalized: Option<BlockKey>
    var partial: map<BlockKey, CanonicalBlock>

    function Value(): (c: Chain)
      reads this
    {
      Chain(finalized, partial)
    }

    constructor FromRequest(request: SubscribeRequest)
      ensures Value() == FromCheckpoint(request.resume)
    {
      finalized, partial := None, map[];
      new;
      if request.resume.Some? {
        var checkpoint := request.resume.value;
        finalized := Some((checkpoint.finalizedHeight, checkpoint.finalizedHash));
        var blocks := checkpoint.partialBlocks;
        for i := 0 to |blocks|
          invariant finalized == Some((checkpoint.finalizedHeight, checkpoint.finalizedHash))
          invariant partial == ByKey(blocks[..i])
        {
          assert blocks[..i + 1][..i] == blocks[..i];
          partial := partial[BlockKeyOf(blocks[i]) := blocks[i]];
        }
        assert blocks[..|blocks|] == blocks;
      }
    }

    method ObserveUpdate(u: SubscribeUpdate)
      modifies this
      ensures Value() == Observe(old(Value()), u)
    {
      match u.update {
        case Some(Block(height, hash, _, final, _)) =>
          ObserveOneBlock(height, hash, final);
        case Some(BestChain(height, hash, Some(Grow(previous, _)))) =>
          InsertOne(CanonicalBlock(height, hash, previous));
        case Some(BestChain(_, _, Some(Reset(disconnected, connected, _)))) =>
          Remove(disconnected);
          ghost var before := Value();
          for i := 0 to |connected|
            invariant Value() == InsertAll(before, connected[..i])
          {
            assert connected[..i + 1][..i] == connected[..i];
            InsertOne(connected[i]);
          }
          assert connected[..|connected|] == connected;
        case Some(Transaction(height, hash, _, commitment, _)) =>
          ObserveOneBlock(height, hash, commitment == Finalized);
        case Some(Utxo(height, hash, _, _, commitment, _, _)) =>
          ObserveOneBlock(height, hash, commitment == Finalized);
        case Some(Reconnect(_, _, discarded)) =>
          Remove(discarded);
        case _ =>
      }
    }

    method InsertOne(b: CanonicalBlock)
      modifies `partial
      ensures Value() == InsertPartial(old(Value()), b)
    {
      if finalized.None? || b.height > finalized.value.0 {
        partial := partial[BlockKeyOf(b) := b];
      }
    }

    method Remove(blocks: seq<CanonicalBlock>)
      modifies `partial
      ensures partial == old(partial) - KeysOf(blocks)
    {
      for i := 0 to |blocks|
        invariant partial == old(partial) - KeysOf(blocks[..i])
      {
        assert blocks[..i + 1] == blocks[..i] + [blocks[i]];
        partial := partial - {BlockKeyOf(blocks[i])};
      }
      assert blocks[..|blocks|] == blocks;
    }

    method ObserveOneBlock(height: nat, hash: Text, final: bool)
      modifies this
      ensures Value() == ObserveBlock(old(Value()), height, hash, final)
    {
      if final {
        finalized := Some((height, hash));
        partial := map k | k in partial && k.0 > height :: partial[k];
      } else {
        InsertOne(CanonicalBlock(height, hash, []));
      }
    }

    method TakeCheckpoint() returns (r: Option<ResumeCheckpoint>)
      ensures r == Checkpoint(Value())
    {
      if finalized.None? {
        return None;
      }
      Order.KeyOrder();
      var keys := Order.List(partial.Keys, Order.KeyLess);
      assert keys == PartialKeys(Value());
      return Some(ResumeCheckpoint(finalized.value.0, finalized.value.1, Backwards(keys, partial)));
    }
  }

  // ---------- what every run keeps ----------

  /** Every partial block lies above the finalized height and is filed under its own key. */
  ghost predicate WellFormed(c: Chain) {
    && (c.finalized.Some? ==> forall k :: k in c.partial ==> k.0 > c.finalized.value.0)
    && forall k :: k in c.partial ==> BlockKeyOf(c.partial[k]) == k
  }

  lemma {:induction false} InsertAllWellFormed(c: Chain, blocks: seq<CanonicalBlock>)
    requires WellFormed(c)
    ensures WellFormed(InsertAll(c, blocks)) && InsertAll(c, blocks).finalized == c.finalized
  {
    if blocks == [] {
    } else {
      InsertAllWellFormed(c, blocks[..|blocks| - 1]);
    }
  }

  /** The block that an update finalizes, if any. */
  function Finalizes(u: SubscribeUpdate): (r: Option<BlockKey>) {
    match u.update
    case Some(Block(height, hash, _, true, _)) => Some((height, hash))
    case Some(Transaction(height, hash, _, Finalized, _)) => Some((height, hash))
    case Some(Utxo(height, hash, _, _, Finalized, _, _)) => Some((height, hash))
    case _ => None
  }

  lemma {:induction false} InsertAllKeepsAnchor(c: Chain, blocks: seq<CanonicalBlock>)
    ensures InsertAll(c, blocks).finalized == c.finalized
  {
    if blocks == [] {
    } else {
      InsertAllKeepsAnchor(c, blocks[..|blocks| - 1]);
    }
  }

  /** The anchor is the last block finalized, even one lower than before. */
  lemma AnchorIsLastFinalized(c: Chain, u: SubscribeUpdate)
    ensures Observe(c, u).finalized == if Finalizes(u).Some? then Finalizes(u) else c.finalized
    ensures Finalizes(u).Some? ==> BlockHeight(u) == Some(Finalizes(u).value.0)
  {
    match u.update {
      case Some(BestChain(_, _, Some(Reset(disconnected, connected, _)))) =>
        InsertAllKeepsAnchor(c.(partial := c.partial - KeysOf(disconnected)), connected);
      case _ =>
    }
  }

  /** No update breaks the shape, not even one that finalizes a lower height; and the anchor is always the
      last block finalized. */
  lemma ObserveWellFormed(c: Chain, u: SubscribeUpdate)
    requires WellFormed(c)
    ensures WellFormed(Observe(c, u))
    ensures Observe(c, u).finalized == if Finalizes(u).Some? then Finalizes(u) else c.finalized
    ensures Finalizes(u).Some? ==> BlockHeight(u) == Some(Finalizes(u).value.0)
  {
    match u.update {
      case Some(BestChain(_, _, Some(Reset(disconnected, connected, _)))) =>
        InsertAllWellFormed(c.(partial := c.partial - KeysOf(disconnected)), connected);
      case _ =>
    }
  }

  lemma {:induction false} RunWellFormed(c: Chain, us: seq<SubscribeUpdate>)
    requires WellFormed(c)
    ensures WellFormed(ObserveAll(c, us))
  {
    if us == [] {
    } else {
      RunWellFormed(c, us[..|us| - 1]);
      ObserveWellFormed(ObserveAll(c, us[..|us| - 1]), us[|us| - 1]);
    }
  }

  // ---------- a client that starts from a checkpoint ----------

  lemma {:induction false} ByKeyWellFormed(blocks: seq<CanonicalBlock>)
    ensures forall k :: k in ByKey(blocks) ==> ByKey(blocks)[k] in blocks && BlockKeyOf(ByKey(blocks)[k]) == k
    ensures ByKey(blocks).Keys == KeysOf(blocks)
  {
    if blocks == [] {
    } else {
      ByKeyWellFormed(blocks[..|blocks| - 1]);
      assert blocks == blocks[..|blocks| - 1] + [blocks[|blocks| - 1]];
    }
  }

  /** From the highest block down, and at one height from the greatest hash down. */
  ghost predicate StrictlyDescending(blocks: seq<CanonicalBlock>) {
    forall i, j :: 0 <= i < j < |blocks| ==>
      || blocks[j].height < blocks[i].height
      || (blocks[j].height == blocks[i].height && Order.TextLess(blocks[j].hash, blocks[i].hash))
  }

  /** A checkpoint lists the partial blocks strictly from highest to lowest, and exactly those. */
  lemma CheckpointBlocks(c: Chain)
    requires WellFormed(c) && c.finalized.Some?
    ensures var blocks := Checkpoint(c).value.partialBlocks;
            && StrictlyDescending(blocks)
            && KeysOf(blocks) == c.partial.Keys
            && (forall b :: b in blocks ==> BlockKeyOf(b) in c.partial && c.partial[BlockKeyOf(b)] == b)
  {
    hide Order.KeyLess, KeysOf, StrictlyDescending;
    BackwardsDescends(PartialKeys(c), c.partial);
    BackwardsIsWhole(PartialKeys(c), c.partial);
  }

  ghost predicate FiledByKey(partial: map<BlockKey, CanonicalBlock>) {
    forall k :: k in partial ==> BlockKeyOf(partial[k]) == k
  }

  lemma BackwardsDescends(keys: seq<BlockKey>, partial: map<BlockKey, CanonicalBlock>)
    requires FiledByKey(partial) && Order.Ascending(keys, Order.KeyLess)
    requires forall k :: k in keys ==> k in partial
    ensures StrictlyDescending(Backwards(keys, partial))
  {
    hide Order.TextLess;
    var n, blocks := |keys|, Backwards(keys, partial);
    forall i, j | 0 <= i < j < n
      ensures Order.KeyLess(keys[n - 1 - j], keys[n - 1 - i])
      ensures BlockKeyOf(blocks[j]) == keys[n - 1 - j] && BlockKeyOf(blocks[i]) == keys[n - 1 - i]
    {
      assert keys[n - 1 - j] in keys && keys[n - 1 - i] in keys;
    }
  }

  lemma BackwardsIsWhole(keys: seq<BlockKey>, partial: map<BlockKey, CanonicalBlock>)
    requires FiledByKey(partial)
    requires forall k :: k in keys <==> k in partial
    ensures KeysOf(Backwards(keys, partial)) == partial.Keys
    ensures forall b :: b in Backwards(keys, partial) ==> BlockKeyOf(b) in partial && partial[BlockKeyOf(b)] == b
  {
    var blocks := Backwards(keys, partial);
    forall b | b in blocks ensures BlockKeyOf(b) in partial && partial[BlockKeyOf(b)] == b {
      var i :| 0 <= i < |blocks| && blocks[i] == b;
      assert keys[|keys| - 1 - i] in keys;
    }
    forall k | k in partial ensures k in KeysOf(blocks) {
      assert k in keys;
      var i :| 0 <= i < |keys| && keys[i] == k;
      assert blocks[|keys| - 1 - i] == partial[k];
      assert BlockKeyOf(blocks[|keys| - 1 - i]) == k;
    }
  }

  lemma {:induction false} ByKeyRebuilds(blocks: seq<CanonicalBlock>, partial: map<BlockKey, CanonicalBlock>)
    requires forall b :: b in blocks ==> BlockKeyOf(b) in partial && partial[BlockKeyOf(b)] == b
    ensures ByKey(blocks).Keys == KeysOf(blocks)
    ensures forall k :: k in ByKey(blocks) ==> k in partial && ByKey(blocks)[k] == partial[k]
  {
    if blocks == [] {
    } else {
      var n := |blocks| - 1;
      assert blocks == blocks[..n] + [blocks[n]];
      ByKeyRebuilds(blocks[..n], partial);
    }
  }

  /** Rebuilding the state from its own checkpoint gives it back exactly. */
  lemma CheckpointRoundTrip(c: Chain)
    requires WellFormed(c) && c.finalized.Some?
    ensures FromCheckpoint(Checkpoint(c)) == c
  {
    CheckpointBlocks(c);
    var blocks := Checkpoint(c).value.partialBlocks;
    hide Order.KeyLess, KeysOf, StrictlyDescending, PartialKeys, ByKey;
    ByKeyRebuilds(blocks, c.partial);
    assert ByKey(blocks) == c.partial;
  }

  // ---------- what is left of a block ----------

  function At(partial: map<BlockKey, CanonicalBlock>, k: BlockKey): (r: Option<CanonicalBlock>) {
    if k in partial then Some(partial[k]) else None
  }

  /** What an update does to the partial block filed under a key. */
  datatype Effect = Keeps | Drops | Files(block: CanonicalBlock)

  /** The last of these blocks that has the key. */
  function LastWith(blocks: seq<CanonicalBlock>, k: BlockKey): (r: Option<CanonicalBlock>) {
    if blocks == [] then
      None
    else if BlockKeyOf(blocks[|blocks| - 1]) == k then
      Some(blocks[|blocks| - 1])
    else
      LastWith(blocks[..|blocks| - 1], k)
  }

  function FilesIf(b: CanonicalBlock, k: BlockKey): (r: Effect) {
    if BlockKeyOf(b) == k then Files(b) else Keeps
  }

  /** The effect above the finalized heights, whatever the state. */
  function EffectOn(u: SubscribeUpdate, k: BlockKey): (r: Effect) {
    match u.update
    case Some(Block(height, hash, _, false, _)) => FilesIf(CanonicalBlock(height, hash, []), k)
    case Some(Transaction(height, hash, _, commitment, _)) =>
      if commitment == Finalized then Keeps else FilesIf(CanonicalBlock(height, hash, []), k)
    case Some(Utxo(height, hash, _, _, commitment, _, _)) =>
      if commitment == Finalized then Keeps else FilesIf(CanonicalBlock(height, hash, []), k)
    case Some(BestChain(height, hash, Some(Grow(previous, _)))) => FilesIf(CanonicalBlock(height, hash, previous), k)
    case Some(BestChain(_, _, Some(Reset(disconnected, connected, _)))) =>
      if LastWith(connected, k).Some? then Files(LastWith(connected, k).value)
      else if k in KeysOf(disconnected) then Drops else Keeps
    case Some(Reconnect(_, _, discarded)) => if k in KeysOf(discarded) then Drops else Keeps
    case _ => Keeps
  }

  /** What the last update with an effect on the key leaves there. */
  function Last(log: seq<SubscribeUpdate>, k: BlockKey): (r: Option<CanonicalBlock>) {
    if log == [] then
      None
    else
      match EffectOn(log[|log| - 1], k)
      case Keeps => Last(log[..|log| - 1], k)
      case Drops => None
      case Files(b) => Some(b)
  }

  /** The state has an anchor no higher than this, or none. */
  predicate AnchoredBy(c: Chain, f: nat) {
    c.finalized.Some? ==> c.finalized.value.0 <= f
  }

  ghost predicate NeverBeyond(log: seq<SubscribeUpdate>, f: nat) {
    forall u :: u in log && Finalizes(u).Some? ==> Finalizes(u).value.0 <= f
  }

  lemma {:induction false} InsertAllAt(c: Chain, blocks: seq<CanonicalBlock>, k: BlockKey, f: nat)
    requires AnchoredBy(c, f) && k.0 > f
    ensures At(InsertAll(c, blocks).partial, k) == if LastWith(blocks, k).Some? then LastWith(blocks, k)
            else At(c.partial, k)
  {
    if blocks == [] {
    } else {
      InsertAllAt(c, blocks[..|blocks| - 1], k, f);
      InsertAllKeepsAnchor(c, blocks[..|blocks| - 1]);
    }
  }

  lemma EffectIsObserved(c: Chain, u: SubscribeUpdate, k: BlockKey, f: nat)
    requires AnchoredBy(c, f) && k.0 > f && (Finalizes(u).Some? ==> Finalizes(u).value.0 <= f)
    ensures At(Observe(c, u).partial, k)
            == match EffectOn(u, k) case Keeps => At(c.partial, k) case Drops => None case Files(b) => Some(b)
  {
    match u.update {
      case Some(BestChain(_, _, Some(Reset(disconnected, connected, _)))) =>
        InsertAllAt(c.(partial := c.partial - KeysOf(disconnected)), connected, k, f);
      case _ =>
    }
  }

  /** Above the finalized heights the fold of a log is, key by key, what the last effect on the key left. */
  lemma {:induction false} FoldIsLast(c: Chain, log: seq<SubscribeUpdate>, k: BlockKey, f: nat)
    requires AnchoredBy(c, f) && At(c.partial, k).None? && NeverBeyond(log, f) && k.0 > f
    ensures At(ObserveAll(c, log).partial, k) == Last(log, k) && AnchoredBy(ObserveAll(c, log), f)
  {
    if log == [] {
    } else {
      var rest, u := log[..|log| - 1], log[|log| - 1];
      assert log == rest + [u];
      FoldIsLast(c, rest, k, f);
      EffectIsObserved(ObserveAll(c, rest), u, k, f);
      AnchorIsLastFinalized(ObserveAll(c, rest), u);
      assert u in log;
      hide Observe, EffectOn, Finalizes, At;
    }
  }

  // ---------- replay reconstructs the state ----------

  predicate IsAtOrAbove(u: SubscribeUpdate, f: nat) {
    BlockHeight(u).Some? && BlockHeight(u).value >= f
  }

  function AtOrAbove(log: seq<SubscribeUpdate>, f: nat): (r: seq<SubscribeUpdate>) {
    if log == [] then
      []
    else
      AtOrAbove(log[..|log| - 1], f) + if IsAtOrAbove(log[|log| - 1], f) then [log[|log| - 1]] else []
  }

  lemma {:induction false} AtOrAboveMembers(log: seq<SubscribeUpdate>, f: nat)
    ensures forall u :: u in AtOrAbove(log, f) <==> u in log && IsAtOrAbove(u, f)
  {
    if log == [] {
    } else {
      hide IsAtOrAbove;
      AtOrAboveMembers(log[..|log| - 1], f);
      assert log == log[..|log| - 1] + [log[|log| - 1]];
    }
  }

  /** A client that starts from an anchor alone. */
  function Resumed(f: nat, hash: Text): (r: Chain) {
    Chain(Some((f, hash)), map[])
  }

  /** If the log was last finalized at `f` then both folds end with that anchor. */
  lemma {:induction false} AnchorsAgree(log: seq<SubscribeUpdate>, f: nat, hash: Text)
    requires NeverBeyond(log, f)
    ensures var whole, part := ObserveAll(EMPTY, log).finalized,
            ObserveAll(Resumed(f, hash), AtOrAbove(log, f)).finalized;
            && part.Some? && part.value.0 == f && (whole.Some? ==> whole.value.0 <= f)
            && (whole.Some? && whole.value.0 == f ==> whole == part)
  {
    if log == [] {
    } else {
      var rest, u := log[..|log| - 1], log[|log| - 1];
      assert log == rest + [u] && u in log;
      hide Observe, Finalizes, BlockHeight, Resumed;
      AnchorsAgree(rest, f, hash);
      var high := AtOrAbove(rest, f);
      assert (high + [u])[..|high|] == high && high + [] == high;
      AnchorIsLastFinalized(ObserveAll(EMPTY, rest), u);
      AnchorIsLastFinalized(ObserveAll(Resumed(f, hash), high), u);
    }
  }

  lemma PartialsByKey(a: Chain, b: Chain, f: nat)
    requires WellFormed(a) && WellFormed(b) && a.finalized == b.finalized && a.finalized.Some?
             && a.finalized.value.0 == f
    ensures a == b <==> forall k: BlockKey :: k.0 > f ==> At(a.partial, k) == At(b.partial, k)
  {
    if forall k: BlockKey :: k.0 > f ==> At(a.partial, k) == At(b.partial, k) {
      forall k | k in a.partial || k in b.partial
        ensures k in a.partial && k in b.partial && a.partial[k] == b.partial[k] {
        assert At(a.partial, k) == At(b.partial, k);
      }
      assert a.partial == b.partial;
    }
  }

  /** The last update with an effect on the key is not in the part of the log at or above `f`. */
  predicate LastLeftOut(log: seq<SubscribeUpdate>, k: BlockKey, f: nat) {
    if log == [] then
      false
    else if EffectOn(log[|log| - 1], k) == Keeps then
      LastLeftOut(log[..|log| - 1], k, f)
    else
      !IsAtOrAbove(log[|log| - 1], f)
  }

  /** Where an update that is left out has the last effect on a key above `f`, it leaves there what the part at or
      above `f` leaves. */
  ghost predicate LeftOutAgree(log: seq<SubscribeUpdate>, f: nat) {
    forall k: BlockKey :: k.0 > f && LastLeftOut(log, k, f) ==> Last(log, k) == Last(AtOrAbove(log, f), k)
  }

  /** Where the last effect is not left out, the part leaves what the whole log leaves. */
  lemma {:induction false} LastIsReplayed(log: seq<SubscribeUpdate>, k: BlockKey, f: nat)
    requires !LastLeftOut(log, k, f)
    ensures Last(log, k) == Last(AtOrAbove(log, f), k)
  {
    hide EffectOn, IsAtOrAbove;
    if log == [] {
    } else {
      var rest, u := log[..|log| - 1], log[|log| - 1];
      var high := AtOrAbove(rest, f);
      assert (high + [u])[..|high|] == high && high + [] == high;
      if EffectOn(u, k) == Keeps {
        LastIsReplayed(rest, k, f);
      }
    }
  }

  lemma FoldsByKey(log: seq<SubscribeUpdate>, f: nat, hash: Text)
    requires NeverBeyond(log, f)
    ensures forall k: BlockKey :: k.0 > f ==>
              && At(ObserveAll(EMPTY, log).partial, k) == Last(log, k)
              && At(ObserveAll(Resumed(f, hash), AtOrAbove(log, f)).partial, k) == Last(AtOrAbove(log, f), k)
  {
    AtOrAboveMembers(log, f);
    forall k: BlockKey | k.0 > f
      ensures At(ObserveAll(EMPTY, log).partial, k) == Last(log, k)
      ensures At(ObserveAll(Resumed(f, hash), AtOrAbove(log, f)).partial, k) == Last(AtOrAbove(log, f), k)
    {
      FoldIsLast(EMPTY, log, k, f);
      FoldIsLast(Resumed(f, hash), AtOrAbove(log, f), k, f);
    }
  }

  /** Exactly when the replay from the last finalized block stands in for the whole log, for every log whose last
      finalized block is its highest: when no update that the replay leaves out has the last effect on a key above that
      block, unless it leaves there what the replay leaves. */
  lemma ReplayReconstructsExactly(log: seq<SubscribeUpdate>, f: nat, hash: Text)
    requires NeverBeyond(log, f)
    requires ObserveAll(EMPTY, log).finalized.Some? && ObserveAll(EMPTY, log).finalized.value.0 == f
    ensures ObserveAll(Resumed(f, hash), AtOrAbove(log, f)) == ObserveAll(EMPTY, log) <==> LeftOutAgree(log, f)
  {
    AnchorsAgree(log, f, hash);
    RunWellFormed(EMPTY, log);
    RunWellFormed(Resumed(f, hash), AtOrAbove(log, f));
    FoldsByKey(log, f, hash);
    hide ObserveAll, AtOrAbove, Last, LastLeftOut, At, NeverBeyond, WellFormed;
    forall k: BlockKey | k.0 > f && !LastLeftOut(log, k, f) ensures Last(log, k) == Last(AtOrAbove(log, f), k) {
      LastIsReplayed(log, k, f);
    }
    PartialsByKey(ObserveAll(Resumed(f, hash), AtOrAbove(log, f)), ObserveAll(EMPTY, log), f);
  }

  /** Where a fold starts from does not matter once the log has finalized its highest block. */
  lemma StartForgotten(log: seq<SubscribeUpdate>, start: nat, hash: Text, f: nat)
    requires NeverBeyond(log, f) && start <= f
    requires ObserveAll(EMPTY, log).finalized.Some? && ObserveAll(EMPTY, log).finalized.value.0 == f
    ensures ObserveAll(Resumed(start, hash), log) == ObserveAll(EMPTY, log)
  {
    var a, b := ObserveAll(Resumed(start, hash), log), ObserveAll(EMPTY, log);
    AnchorOfFold(Resumed(start, hash), log);
    RunWellFormed(Resumed(start, hash), log);
    RunWellFormed(EMPTY, log);
    forall k: BlockKey | k.0 > f ensures At(a.partial, k) == At(b.partial, k) {
      FoldIsLast(Resumed(start, hash), log, k, f);
      FoldIsLast(EMPTY, log, k, f);
    }
    hide ObserveAll, Last, At, NeverBeyond, WellFormed;
    PartialsByKey(a, b, f);
  }

  lemma {:induction false} AnchorOfFold(c: Chain, log: seq<SubscribeUpdate>)
    ensures ObserveAll(EMPTY, log).finalized.Some? ==> ObserveAll(c, log).finalized == ObserveAll(EMPTY, log).finalized
    ensures ObserveAll(EMPTY, log).finalized.None? ==> ObserveAll(c, log).finalized == c.finalized
  {
    if log == [] {
    } else {
      hide Observe, Finalizes;
      var rest, u := log[..|log| - 1], log[|log| - 1];
      AnchorOfFold(c, rest);
      AnchorIsLastFinalized(ObserveAll(EMPTY, rest), u);
      AnchorIsLastFinalized(ObserveAll(c, rest), u);
    }
  }

  // ---------- a condition on the resets ----------

  /** A best-chain reset that names a block above a height. */
  ghost predicate ResetsAbove(u: SubscribeUpdate, f: nat) {
    match u.update
    case Some(BestChain(_, _, Some(Reset(disconnected, connected, _)))) =>
      exists b :: (b in disconnected || b in connected) && b.height > f
    case _ => false
  }

  function Above(partial: map<BlockKey, CanonicalBlock>, f: nat): (r: map<BlockKey, CanonicalBlock>) {
    map k | k in partial && k.0 > f :: partial[k]
  }

  /** The fold over the whole log and the fold over the part at or above `f` agree above `f`. */
  ghost predicate AgreeAbove(whole: Chain, part: Chain, f: nat) {
    && part.finalized.Some? && part.finalized.value.0 == f
    && (whole.finalized.Some? ==> whole.finalized.value.0 <= f)
    && Above(whole.partial, f) == part.partial
  }

  predicate Published(u: SubscribeUpdate) {
    u.update.Some? ==> !u.update.value.Reconnect?
  }

  ghost predicate Harmless(u: SubscribeUpdate, f: nat) {
    Published(u) && (BlockHeight(u).Some? && BlockHeight(u).value < f ==> !ResetsAbove(u, f))
  }

  ghost predicate FinalityMovesUp(log: seq<SubscribeUpdate>) {
    forall i, j :: 0 <= i < j < |log| && Finalizes(log[i]).Some? && Finalizes(log[j]).Some? ==>
      Finalizes(log[i]).value.0 <= Finalizes(log[j]).value.0
  }

  /** What suffices for a replay from `f` to stand in for a log: it never finalizes beyond `f`, finality never moves
      down, and no reset whose new tip is below `f` names a block above `f`. */
  ghost predicate ReplayableFrom(log: seq<SubscribeUpdate>, f: nat) {
    FinalityMovesUp(log) && NeverBeyond(log, f) && forall u :: u in log ==> Harmless(u, f)
  }

  ghost predicate FinalizedAt(log: seq<SubscribeUpdate>, f: nat) {
    exists i :: 0 <= i < |log| && Finalizes(log[i]).Some? && Finalizes(log[i]).value.0 == f
  }

  /** With finality moving up to `f` and no further, the last block finalized is the one at `f`. */
  lemma {:induction false} LastFinalizedAt(log: seq<SubscribeUpdate>, f: nat)
    requires FinalityMovesUp(log) && NeverBeyond(log, f) && FinalizedAt(log, f)
    ensures ObserveAll(EMPTY, log).finalized.Some? && ObserveAll(EMPTY, log).finalized.value.0 == f
  {
    hide Observe, Finalizes;
    var i :| 0 <= i < |log| && Finalizes(log[i]).Some? && Finalizes(log[i]).value.0 == f;
    var rest, u := log[..|log| - 1], log[|log| - 1];
    assert u in log;
    AnchorIsLastFinalized(ObserveAll(EMPTY, rest), u);
    if Finalizes(u).None? {
      FinalityOfPrefix(log, |log| - 1, f);
      assert rest[i] == log[i];
      hide FinalityMovesUp, NeverBeyond;
      LastFinalizedAt(rest, f);
    }
  }

  lemma FinalityOfPrefix(log: seq<SubscribeUpdate>, n: nat, f: nat)
    requires FinalityMovesUp(log) && NeverBeyond(log, f) && n <= |log|
    ensures FinalityMovesUp(log[..n]) && NeverBeyond(log[..n], f)
  {
    hide Finalizes;
    assert forall i :: 0 <= i < n ==> log[..n][i] == log[i];
  }

  lemma {:induction false} LastWithIn(blocks: seq<CanonicalBlock>, k: BlockKey)
    requires LastWith(blocks, k).Some?
    ensures LastWith(blocks, k).value in blocks && BlockKeyOf(LastWith(blocks, k).value) == k
  {
    if BlockKeyOf(blocks[|blocks| - 1]) != k {
      LastWithIn(blocks[..|blocks| - 1], k);
    }
  }

  /** Of what the server publishes, only a reset with its new tip below `f` can have an effect above `f` and be left
      out. */
  lemma LeftOutIsReset(u: SubscribeUpdate, k: BlockKey, f: nat)
    requires Published(u) && k.0 > f && EffectOn(u, k) != Keeps && !IsAtOrAbove(u, f)
    ensures BlockHeight(u).Some? && BlockHeight(u).value < f && ResetsAbove(u, f)
  {
    match u.update {
      case Some(BestChain(_, _, Some(Reset(disconnected, connected, _)))) =>
        if LastWith(connected, k).Some? {
          LastWithIn(connected, k);
        }
      case _ =>
    }
  }

  lemma {:induction false} NothingLeftOut(log: seq<SubscribeUpdate>, k: BlockKey, f: nat)
    requires k.0 > f && forall u :: u in log ==> Harmless(u, f)
    ensures !LastLeftOut(log, k, f)
  {
    hide EffectOn, BlockHeight, IsAtOrAbove, ResetsAbove, Published;
    if log == [] {
    } else {
      var rest, u := log[..|log| - 1], log[|log| - 1];
      assert log == rest + [u] && Harmless(u, f);
      NothingLeftOut(rest, k, f);
      if EffectOn(u, k) != Keeps && !IsAtOrAbove(u, f) {
        LeftOutIsReset(u, k, f);
      }
    }
  }

  lemma FoldsAgree(log: seq<SubscribeUpdate>, f: nat, hash: Text)
    requires ReplayableFrom(log, f)
    ensures var whole, part := ObserveAll(EMPTY, log), ObserveAll(Resumed(f, hash), AtOrAbove(log, f));
            AgreeAbove(whole, part, f) && (FinalizedAt(log, f) ==> whole == part)
  {
    var whole, part := ObserveAll(EMPTY, log), ObserveAll(Resumed(f, hash), AtOrAbove(log, f));
    AnchorsAgree(log, f, hash);
    RunWellFormed(Resumed(f, hash), AtOrAbove(log, f));
    FoldsByKey(log, f, hash);
    forall k: BlockKey | k.0 > f ensures Last(log, k) == Last(AtOrAbove(log, f), k) {
      NothingLeftOut(log, k, f);
      LastIsReplayed(log, k, f);
    }
    if FinalizedAt(log, f) {
      LastFinalizedAt(log, f);
      ReplayReconstructsExactly(log, f, hash);
    }
    hide ObserveAll, AtOrAbove, Last, Finalizes, FinalizedAt, ReplayableFrom;
    SameAbove(whole, part, f);
  }

  lemma SameAbove(whole: Chain, part: Chain, f: nat)
    requires WellFormed(part) && part.finalized.Some? && part.finalized.value.0 == f
    requires forall k: BlockKey :: k.0 > f ==> At(whole.partial, k) == At(part.partial, k)
    ensures Above(whole.partial, f) == part.partial
  {
    forall k | k in part.partial || k in Above(whole.partial, f)
      ensures k in part.partial && k in Above(whole.partial, f) && part.partial[k] == whole.partial[k]
    {
      assert At(whole.partial, k) == At(part.partial, k);
    }
  }

  /** Folding only the updates at or above the last finalized height, from that anchor alone, gives the same
      anchor and the same partial blocks as folding the whole log. */
  lemma ReplayReconstructsState(log: seq<SubscribeUpdate>, f: nat, hash: Text)
    requires ReplayableFrom(log, f)
    requires FinalizedAt(log, f)
    ensures ObserveAll(Resumed(f, hash), AtOrAbove(log, f)) == ObserveAll(EMPTY, log)
  {
    FoldsAgree(log, f, hash);
  }

  /** Without the condition on resets it can fail. The chain grows to a block above `f`, a reset to a tip below `f`
      disconnects it again, and a block at `f` is finalized: the replay from `f` leaves the reset out and keeps the
      orphan, which the fold of the whole log has dropped. */
  lemma LowResetBreaksReplay(
    grow: SubscribeUpdate, reset: SubscribeUpdate, final: SubscribeUpdate, f: nat, hash: Text, bytes: Bytes,
    orphan: CanonicalBlock, tip: CanonicalBlock, ids: seq<Text>)
    requires f > 0 && orphan.height == f + 1 && tip.height == f - 1
    requires grow.update == Some(BestChain(f + 1, orphan.hash, Some(Grow(orphan.previousHash, ids))))
    requires reset.update == Some(BestChain(f - 1, tip.hash, Some(Reset([orphan], [tip], true))))
    requires final.update == Some(Block(f, hash, bytes, true, BlockFull))
    ensures var log := [grow, reset, final];
            && FinalityMovesUp(log) && NeverBeyond(log, f) && FinalizedAt(log, f)
            && Last(log, BlockKeyOf(orphan)) == None && Last(AtOrAbove(log, f), BlockKeyOf(orphan)) == Some(orphan)
            && ObserveAll(Resumed(f, hash), AtOrAbove(log, f)) != ObserveAll(EMPTY, log)
  {
    var log, key := [grow, reset, final], BlockKeyOf(orphan);
    assert log[2] == final && Finalizes(final) == Some((f, hash)) && Finalizes(grow) == Finalizes(reset) == None;
    assert log[..2] == [grow, reset] && [grow, reset][..1] == [grow] && [grow][..0] == [];
    assert AtOrAbove([], f) == [] && AtOrAbove([grow], f) == [grow] && AtOrAbove([grow, reset], f) == [grow];
    assert AtOrAbove(log, f) == [grow, final] && [grow, final][..1] == [grow];
    OneBlock(tip, key);
    assert orphan in [orphan] && key in KeysOf([orphan]);
    assert EffectOn(final, key) == Keeps && EffectOn(reset, key) == Drops && EffectOn(grow, key) == Files(orphan);
    assert Last([grow], key) == Some(orphan) && Last([grow, reset], key) == None;
    assert LastLeftOut([grow, reset], key, f) && LastLeftOut(log, key, f);
    LastFinalizedAt(log, f);
    ReplayReconstructsExactly(log, f, hash);
    hide ObserveAll, Last, AtOrAbove, LastLeftOut, EffectOn;
    assert key.0 > f;
  }

  lemma OneBlock(b: CanonicalBlock, k: BlockKey)
    ensures LastWith([b], k) == if BlockKeyOf(b) == k then Some(b) else None
  {
    assert [b][..0] == [];
  }
}
