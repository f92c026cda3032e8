// The client's partial blocks, block by block: what each update leaves of them, and that they hold the best chain.
module BestChainView {
  import opened Proto
  import opened ChainResume

  /** The client has shown this block to the application and would tell the server of it. */
  ghost predicate Holds(c: Chain, b: CanonicalBlock) {
    exists k :: k in c.partial && c.partial[k] == b
  }

  predicate SameBlock(a: CanonicalBlock, b: CanonicalBlock) {
    a.height == b.height && a.hash == b.hash
  }

  /** The last mention of the block in the list is this one. */
  ghost predicate LastMention(blocks: seq<CanonicalBlock>, b: CanonicalBlock) {
    exists i :: 0 <= i < |blocks| && blocks[i] == b && forall j :: i < j < |blocks| ==> !SameBlock(blocks[j], b)
  }

  ghost predicate Mentions(blocks: seq<CanonicalBlock>, b: CanonicalBlock) {
    exists i :: 0 <= i < |blocks| && SameBlock(blocks[i], b)
  }

  /** The block as an update shows it: an accepted one without its previous hash, a best-chain one with it. */
  ghost predicate Shows(u: SubscribeUpdate, b: CanonicalBlock) {
    match u.update
    case Some(Block(height, hash, _, final, _)) => !final && b == CanonicalBlock(height, hash, [])
    case Some(Transaction(height, hash, _, commitment, _)) =>
      commitment != Finalized && b == CanonicalBlock(height, hash, [])
    case Some(Utxo(height, hash, _, _, commitment, _, _)) =>
      commitment != Finalized && b == CanonicalBlock(height, hash, [])
    case Some(BestChain(height, hash, Some(Grow(previous, _)))) => b == CanonicalBlock(height, hash, previous)
    case Some(BestChain(_, _, Some(Reset(_, connected, _)))) => LastMention(connected, b)
    case _ => false
  }

  /** The update says something about the block of this height and hash. */
  ghost predicate Touches(u: SubscribeUpdate, b: CanonicalBlock) {
    match u.update
    case Some(BestChain(_, _, Some(Reset(disconnected, connected, _)))) =>
      Mentions(disconnected, b) || Mentions(connected, b)
    case Some(Reconnect(_, _, discarded)) => Mentions(discarded, b)
    case _ => exists shown :: SameBlock(shown, b) && Shows(u, shown)
  }

  /** Holding a block is having it under its own height and hash. */
  lemma HoldsIsAt(c: Chain, b: CanonicalBlock)
    requires WellFormed(c)
    ensures Holds(c, b) <==> At(c.partial, (b.height, b.hash)) == Some(b)
  {
    if k :| k in c.partial && c.partial[k] == b {
      assert BlockKeyOf(c.partial[k]) == k;
    }
  }

  lemma {:induction false} LastMentioned(blocks: seq<CanonicalBlock>, b: CanonicalBlock)
    ensures LastMention(blocks, b) <==> LastWith(blocks, (b.height, b.hash)) == Some(b)
    ensures Mentions(blocks, b) <==> LastWith(blocks, (b.height, b.hash)).Some?
  {
    if blocks == [] {
    } else {
      var rest, last := blocks[..|blocks| - 1], blocks[|blocks| - 1];
      LastMentioned(rest, b);
      if SameBlock(last, b) {
        assert Mentions(blocks, b);
      } else {
        if LastMention(rest, b) {
          var i :| 0 <= i < |rest| && rest[i] == b && forall j :: i < j < |rest| ==> !SameBlock(rest[j], b);
          assert blocks[i] == b && forall j :: i < j < |blocks| ==> !SameBlock(blocks[j], b);
        }
        if LastMention(blocks, b) {
          var i :| 0 <= i < |blocks| && blocks[i] == b && forall j :: i < j < |blocks| ==> !SameBlock(blocks[j], b);
          assert rest[i] == b && forall j :: i < j < |rest| ==> !SameBlock(rest[j], b);
        }
      }
    }
  }

  lemma MentionedKey(blocks: seq<CanonicalBlock>, b: CanonicalBlock)
    ensures (b.height, b.hash) in KeysOf(blocks) <==> Mentions(blocks, b)
  {
    if i :| 0 <= i < |blocks| && SameBlock(blocks[i], b) {
      assert blocks[i] in blocks;
    }
  }

  /** What an update leaves at a block's key, told by the block: there is it, if that is what the update shows; or
      nothing, or another one, if the update touches it. */
  lemma EffectShown(u: SubscribeUpdate, b: CanonicalBlock)
    ensures EffectOn(u, (b.height, b.hash)) == Files(b) <==> Shows(u, b)
    ensures EffectOn(u, (b.height, b.hash)) == Keeps <==> !Touches(u, b)
  {
    match u.update {
      case Some(BestChain(_, _, Some(Reset(disconnected, connected, _)))) =>
        LastMentioned(connected, b);
        MentionedKey(disconnected, b);
      case Some(Reconnect(_, _, discarded)) => MentionedKey(discarded, b);
      case Some(BestChain(height, hash, Some(Grow(previous, _)))) =>
        assert Shows(u, CanonicalBlock(height, hash, previous));
      case Some(Block(height, hash, _, final, _)) => assert !final ==> Shows(u, CanonicalBlock(height, hash, []));
      case Some(Transaction(height, hash, _, commitment, _)) =>
        assert commitment != Finalized ==> Shows(u, CanonicalBlock(height, hash, []));
      case Some(Utxo(height, hash, _, _, commitment, _, _)) =>
        assert commitment != Finalized ==> Shows(u, CanonicalBlock(height, hash, []));
      case _ =>
    }
  }

  /** The key lies above the state's anchor. */
  predicate IsAbove(c: Chain, k: BlockKey) {
    c.finalized.Some? ==> k.0 > c.finalized.value.0
  }

  lemma {:induction false} InsertedAbove(c: Chain, blocks: seq<CanonicalBlock>, k: BlockKey)
    requires IsAbove(c, k)
    ensures At(InsertAll(c, blocks).partial, k)
            == if LastWith(blocks, k).Some? then LastWith(blocks, k) else At(c.partial, k)
  {
    if blocks == [] {
    } else {
      InsertedAbove(c, blocks[..|blocks| - 1], k);
      InsertAllKeepsAnchor(c, blocks[..|blocks| - 1]);
    }
  }

  lemma LeftAbove(c: Chain, u: SubscribeUpdate, k: BlockKey)
    requires IsAbove(Observe(c, u), k)
    ensures At(Observe(c, u).partial, k)
            == match EffectOn(u, k) case Keeps => At(c.partial, k) case Drops => None case Files(b) => Some(b)
  {
    match u.update {
      case Some(BestChain(_, _, Some(Reset(disconnected, connected, _)))) =>
        var without := c.(partial := c.partial - KeysOf(disconnected));
        InsertAllKeepsAnchor(without, connected);
        InsertedAbove(without, connected, k);
      case _ =>
    }
  }

  /** Above the anchor the client holds, after an update, exactly what the update shows and what it held before and the
      update does not touch; at or below the anchor it holds nothing. */
  lemma HeldExactly(c: Chain, u: SubscribeUpdate, b: CanonicalBlock)
    requires WellFormed(c)
    ensures var after := Observe(c, u);
            var above := after.finalized.Some? ==> b.height > after.finalized.value.0;
            Holds(after, b) <==> above && (Shows(u, b) || (Holds(c, b) && !Touches(u, b)))
  {
    var after, k := Observe(c, u), (b.height, b.hash);
    ObserveWellFormed(c, u);
    HoldsIsAt(c, b);
    HoldsIsAt(after, b);
    EffectShown(u, b);
    hide Shows, Touches, Holds, Observe, EffectOn;
    if IsAbove(after, k) {
      LeftAbove(c, u, k);
    }
  }

  // ---------- the best chain ----------

  /** What the best-chain updates make of the node's chain, ancestor first. */
  function Followed(best: seq<CanonicalBlock>, u: SubscribeUpdate): (r: seq<CanonicalBlock>) {
    match u.update
    case Some(BestChain(height, hash, Some(Grow(previous, _)))) => best + [CanonicalBlock(height, hash, previous)]
    case Some(BestChain(_, _, Some(Reset(disconnected, connected, _)))) =>
      if |disconnected| <= |best| then best[..|best| - |disconnected|] + connected else connected
    case _ => best
  }

  function FollowedAll(log: seq<SubscribeUpdate>): (r: seq<CanonicalBlock>) {
    if log == [] then [] else Followed(FollowedAll(log[..|log| - 1]), log[|log| - 1])
  }

  ghost predicate Rising(best: seq<CanonicalBlock>) {
    forall i, j :: 0 <= i < j < |best| ==> best[i].height < best[j].height
  }

  /** The node moves its chain as a chain: it disconnects from the tip down, and heights rise. */
  ghost predicate MovesTip(best: seq<CanonicalBlock>, u: SubscribeUpdate) {
    && Rising(Followed(best, u)) && (u.update.Some? ==> !u.update.value.Reconnect?)
    && match u.update
       case Some(BestChain(_, _, Some(Reset(disconnected, _, _)))) =>
         && |disconnected| <= |best|
         && forall i :: 0 <= i < |disconnected| ==> SameBlock(disconnected[i], best[|best| - 1 - i])
       case _ => true
  }

  ghost predicate MovesTips(log: seq<SubscribeUpdate>) {
    forall n :: 0 <= n < |log| ==> MovesTip(FollowedAll(log[..n]), log[n])
  }

  /** Every block of this chain above the height is held, by height and hash. */
  ghost predicate HoldsAbove(c: Chain, best: seq<CanonicalBlock>, f: nat) {
    forall i :: 0 <= i < |best| && best[i].height > f ==> HoldsLike(c, best[i])
  }

  ghost predicate HoldsLike(c: Chain, b: CanonicalBlock) {
    exists held :: SameBlock(held, b) && Holds(c, held)
  }

  /** Whatever else the log says, the blocks of the node's best chain above the last finalized height are among the
      client's partial blocks, so its next checkpoint names them. */
  lemma {:induction false} BestChainHeld(log: seq<SubscribeUpdate>, f: nat)
    requires MovesTips(log) && NeverBeyond(log, f)
    ensures HoldsAbove(ObserveAll(EMPTY, log), FollowedAll(log), f) && Rising(FollowedAll(log))
  {
    hide Observe, Finalizes, HoldsAbove, WellFormed, Rising, MovesTip, MovesTips, NeverBeyond;
    if log == [] {
      NothingHeld(f);
    } else {
      var rest, u := log[..|log| - 1], log[|log| - 1];
      PrefixMoves(log, f);
      BestChainHeld(rest, f);
      RunWellFormed(EMPTY, rest);
      AnchorWithin(rest, f);
      StepHolds(ObserveAll(EMPTY, rest), FollowedAll(rest), u, f);
      MoveRises(FollowedAll(rest), u);
    }
  }

  lemma NothingHeld(f: nat)
    ensures HoldsAbove(ObserveAll(EMPTY, []), FollowedAll([]), f) && Rising(FollowedAll([]))
  {
  }

  lemma MoveRises(best: seq<CanonicalBlock>, u: SubscribeUpdate)
    requires MovesTip(best, u)
    ensures Rising(Followed(best, u))
  {
  }

  lemma PrefixMoves(log: seq<SubscribeUpdate>, f: nat)
    requires log != [] && MovesTips(log) && NeverBeyond(log, f)
    ensures var rest, u := log[..|log| - 1], log[|log| - 1];
            && MovesTips(rest) && NeverBeyond(rest, f) && MovesTip(FollowedAll(rest), u)
            && (Finalizes(u).Some? ==> Finalizes(u).value.0 <= f)
  {
    hide MovesTip, Finalizes, FollowedAll;
    var rest, u := log[..|log| - 1], log[|log| - 1];
    assert log == rest + [u] && u in log;
    assert forall n :: 0 <= n < |rest| ==> rest[..n] == log[..n];
  }

  lemma {:induction false} AnchorWithin(log: seq<SubscribeUpdate>, f: nat)
    requires NeverBeyond(log, f)
    ensures AnchoredBy(ObserveAll(EMPTY, log), f)
  {
    if log == [] {
    } else {
      var rest, u := log[..|log| - 1], log[|log| - 1];
      assert log == rest + [u] && u in log;
      AnchorWithin(rest, f);
      AnchorIsLastFinalized(ObserveAll(EMPTY, rest), u);
      hide Observe, Finalizes;
    }
  }

  lemma StepHolds(c: Chain, best: seq<CanonicalBlock>, u: SubscribeUpdate, f: nat)
    requires WellFormed(c) && AnchoredBy(c, f) && HoldsAbove(c, best, f) && Rising(best) && MovesTip(best, u)
    requires Finalizes(u).Some? ==> Finalizes(u).value.0 <= f
    ensures HoldsAbove(Observe(c, u), Followed(best, u), f)
  {
    var after := Followed(best, u);
    AnchorIsLastFinalized(c, u);
    forall i | 0 <= i < |after| && after[i].height > f ensures HoldsLike(Observe(c, u), after[i]) {
      OneHeld(c, best, u, f, i);
    }
  }

  lemma OneHeld(c: Chain, best: seq<CanonicalBlock>, u: SubscribeUpdate, f: nat, i: nat)
    requires WellFormed(c) && AnchoredBy(c, f) && HoldsAbove(c, best, f) && Rising(best) && MovesTip(best, u)
    requires AnchoredBy(Observe(c, u), f)
    requires i < |Followed(best, u)| && Followed(best, u)[i].height > f
    ensures HoldsLike(Observe(c, u), Followed(best, u)[i])
  {
    var b := Followed(best, u)[i];
    hide Observe, Holds, WellFormed;
    if Shows(u, b) {
      HeldExactly(c, u, b);
    } else if shown :| SameBlock(shown, b) && Shows(u, shown) {
      HeldExactly(c, u, shown);
    } else {
      KeptFromBefore(best, u, i);
      assert HoldsLike(c, b);
      var held :| SameBlock(held, b) && Holds(c, held);
      TouchesSame(u, held, b);
      HeldExactly(c, u, held);
    }
  }

  lemma TouchesSame(u: SubscribeUpdate, a: CanonicalBlock, b: CanonicalBlock)
    requires SameBlock(a, b)
    ensures Touches(u, a) <==> Touches(u, b)
  {
  }

  /** A block of the chain that the update does not show was there before and is not touched. */
  lemma KeptFromBefore(best: seq<CanonicalBlock>, u: SubscribeUpdate, i: nat)
    requires Rising(best) && MovesTip(best, u) && i < |Followed(best, u)|
    requires forall shown :: SameBlock(shown, Followed(best, u)[i]) ==> !Shows(u, shown)
    ensures i < |best| && best[i] == Followed(best, u)[i] && !Touches(u, best[i])
  {
    var after := Followed(best, u);
    match u.update {
      case Some(BestChain(height, hash, Some(Grow(previous, _)))) =>
        if i == |best| {
          assert SameBlock(after[i], after[i]) && Shows(u, after[i]);
        }
      case Some(BestChain(_, _, Some(Reset(disconnected, connected, _)))) =>
        var n := |best| - |disconnected|;
        if i >= n {
          assert forall j :: i - n < j < |connected| ==> connected[j] == after[n + j];
          assert connected[i - n] == after[i] && LastMention(connected, after[i]);
          assert SameBlock(after[i], after[i]) && Shows(u, after[i]);
        } else {
          assert forall j :: 0 <= j < |connected| ==> connected[j] == after[n + j];
          assert !Mentions(connected, after[i]) && !Mentions(disconnected, after[i]);
        }
      case _ =>
    }
  }

  /** So its next checkpoint names every block of the best chain above its anchor. */
  lemma CheckpointNamesBestChain(log: seq<SubscribeUpdate>, i: nat)
    requires MovesTips(log) && i < |FollowedAll(log)|
    requires var c := ObserveAll(EMPTY, log);
             c.finalized.Some? && NeverBeyond(log, c.finalized.value.0)
             && FollowedAll(log)[i].height > c.finalized.value.0
    ensures exists b :: b in Checkpoint(ObserveAll(EMPTY, log)).value.partialBlocks
                        && SameBlock(b, FollowedAll(log)[i])
  {
    var c := ObserveAll(EMPTY, log);
    BestChainHeld(log, c.finalized.value.0);
    RunWellFormed(EMPTY, log);
    CheckpointBlocks(c);
    hide ObserveAll, FollowedAll, MovesTips, NeverBeyond, StrictlyDescending, Checkpoint;
    assert HoldsLike(c, FollowedAll(log)[i]);
    var held :| SameBlock(held, FollowedAll(log)[i]) && Holds(c, held);
    var k :| k in c.partial && c.partial[k] == held;
    assert k in KeysOf(Checkpoint(c).value.partialBlocks);
  }
}
