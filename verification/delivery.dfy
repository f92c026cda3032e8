// The last step before the wire: match, take the prepared projection, attach the matched names.
module Delivery {
  import opened Proto
  import Order
  import Wire
  import opened Projection
  import opened Filter
  import opened EventFilters

  /** Skips an unmatched update; otherwise sends the projection that the match asks for, with the matched
      names, and accounts for its exact encoded length. */
  method SendFiltered(ef: EventFilter, update: PublishedUpdate) returns (r: Option<Prepared>)
    requires update.Valid() && update.message.filters == []
    modifies update
    ensures update.Valid()
    ensures r.Some? <==> Matched(ef, update.message).Some?
    ensures r.Some? ==> r.value.message == Delivered(ef, update.message)
    ensures r.Some? ==> r.value.encodedLen == Wire.EncodedLen(update.codec, r.value.message)
  {
    var m := Matched(ef, update.message);
    if m.None? {
      return None;
    }
    MatchedIsSpecified(ef, update.message);
    var prepared := update.Payload(m.value.blockPayload, m.value.transactionPayload);
    ProjectionKeepsFilters(update.message, m.value.blockPayload, m.value.transactionPayload);
    Wire.LengthAdditive(update.codec, prepared.message, m.value.names);
    var names := Wire.EncodedFilterNamesLen(m.value.names);
    r := Some(Prepared(prepared.message.(filters := m.value.names), prepared.encodedLen + names));
  }

  /** A match never asks for an unspecified mode, so the cache always answers as direct projection would. */
  lemma MatchedIsSpecified(ef: EventFilter, u: SubscribeUpdate)
    requires Matched(ef, u).Some?
    ensures Specified(u, Matched(ef, u).value.blockPayload, Matched(ef, u).value.transactionPayload)
  {
  }

  lemma ProjectionKeepsFilters(u: SubscribeUpdate, block: BlockPayload, tx: TransactionPayload)
    ensures Projected(u, block, tx).filters == u.filters
  {
  }

  /** A catch-all subscription is sent every published update whole. */
  lemma CatchAllDeliversEverything(ef: EventFilter, request: SubscribeRequest, canon: Canon, u: SubscribeUpdate)
    requires Represents(ef, request, canon) && CatchAll(request)
    requires u.filters == [] && u == Projected(u, BlockFull, TxFull)
    ensures Matched(ef, u).Some? && Delivered(ef, u) == u
  {
    assert |Names(ef.named)| == 0 by {
      assert Order.Listing(request.filters.Keys, Order.TextLess) == [];
    }
    assert |ef.named| == 0;
  }
}
