// How a client reconnects: the request it builds, the server's check of it, and the echoed notice.
module Handshake {
  import opened Proto
  import opened ChainResume
  import Dedup

  /** Gap recovery with this many heights of duplicate detection, or none. */
  datatype ReconnectConfig = ReconnectConfig(recoverRetention: Option<nat>, checkpointHeightBuffer: nat)

  // ---------- the server side ----------

  /** The height that a request replays from, or why it is refused. */
  function ReplayHeight(request: SubscribeRequest): (r: Result<Option<nat>, Code>) {
    match request.resume
    case None => Ok(request.fromHeight)
    case Some(checkpoint) =>
      if checkpoint.finalizedHash == [] then
        Err(InvalidArgument)
      else if request.fromHeight.Some? && request.fromHeight.value != checkpoint.finalizedHeight then
        Err(InvalidArgument)
      else if exists b :: b in checkpoint.partialBlocks && b.height <= checkpoint.finalizedHeight then
        Err(InvalidArgument)
      else
        Ok(Some(checkpoint.finalizedHeight))
  }

  const UNSPECIFIED := SubscribeUpdate([], 0, 0, [], 0, None, None)

  function ReconnectNotice(checkpoint: ResumeCheckpoint): (r: SubscribeUpdate) {
    UNSPECIFIED.(update := Some(Reconnect(checkpoint.finalizedHeight, checkpoint.finalizedHash,
      checkpoint.partialBlocks)))
  }

  // ---------- the client side ----------

  /** The request sent after a disconnect. */
  ghost function ReconnectRequest(
    current: SubscribeRequest, chain: Chain, checkpoint: Option<nat>, config: ReconnectConfig): SubscribeRequest
  {
    if config.recoverRetention.None? then
      current.(fromHeight := None, resume := None)
    else
      var resume := Checkpoint(chain);
      var from := if resume.Some? then Some(resume.value.finalizedHeight)
                  else if checkpoint.Some? then Some(SatSub(checkpoint.value, config.checkpointHeightBuffer))
                  else current.fromHeight;
      current.(resume := resume, fromHeight := from)
  }

  method BuildReconnectRequest(
    current: SubscribeRequest, chain: ChainResumeState, checkpoint: Option<nat>, config: ReconnectConfig)
    returns (request: SubscribeRequest)
    ensures request == ReconnectRequest(current, chain.Value(), checkpoint, config)
  {
    request := current;
    if config.recoverRetention.None? {
      request := request.(fromHeight := None, resume := None);
    } else {
      var resume := chain.TakeCheckpoint();
      request := request.(resume := resume);
      if resume.Some? {
        request := request.(fromHeight := Some(resume.value.finalizedHeight));
      } else if checkpoint.Some? {
        request := request.(fromHeight := Some(SatSub(checkpoint.value, config.checkpointHeightBuffer)));
      }
    }
  }

  /** What the client keeps across connections, and what it has handed to the application. */
  datatype Client = Client(
    chain: Chain, dedup: Option<Dedup.State>, checkpoint: Option<nat>, output: seq<SubscribeUpdate>)

  /** A server ping, or the pong to one of the client's own keepalive replies: not for the application. */
  predicate IsKeepalive(u: SubscribeUpdate) {
    u.update.Some? && (u.update.value.Ping? || (u.update.value.Pong? && u.update.value.id < 0))
  }

  /** Chain state first, then the height, then duplicate suppression: a suppressed update still counts as seen. */
  function Handled(c: Client, u: SubscribeUpdate): (r: Client) {
    if IsKeepalive(u) then
      c
    else
      Client(Observe(c.chain, u),
             if c.dedup.Some? then Some(Dedup.Observed(c.dedup.value, u)) else None,
             if BlockHeight(u).Some? then BlockHeight(u) else c.checkpoint,
             if c.dedup.None? || Dedup.Accepts(c.dedup.value, u) then c.output + [u] else c.output)
  }

  method HandleUpdate(
    chain: ChainResumeState, dedup: Dedup.DedupState?, checkpoint: Option<nat>, output: seq<SubscribeUpdate>,
      u: SubscribeUpdate)
    returns (checkpoint': Option<nat>, output': seq<SubscribeUpdate>, reply: Option<int>)
    modifies chain, dedup
    ensures var before := Client(old(chain.Value()), if dedup == null then None
            else Some(old(dedup.Value())), checkpoint, output);
            var after := Client(chain.Value(), if dedup == null then None
              else Some(dedup.Value()), checkpoint', output');
            after == Handled(before, u)
    ensures reply == if u.update.Some? && u.update.value.Ping? then Some(u.update.value.id) else None
  {
    checkpoint', output', reply := checkpoint, output, None;
    if u.update.Some? && u.update.value.Ping? {
      return checkpoint', output', Some(u.update.value.id);
    }
    if u.update.Some? && u.update.value.Pong? && u.update.value.id < 0 {
      return;
    }
    chain.ObserveUpdate(u);
    var height := BlockHeight(u);
    if height.Some? {
      checkpoint' := height;
    }
    var accepted := true;
    if dedup != null {
      accepted := dedup.Observe(u);
    }
    if accepted {
      output' := output + [u];
    }
  }

  // ---------- the handshake ----------

  /** No finalizing update has an empty hash. */
  ghost predicate HashesPresent(us: seq<SubscribeUpdate>) {
    forall u :: u in us && Finalizes(u).Some? ==> Finalizes(u).value.1 != []
  }

  /** A request the server accepts starts the client in good shape. */
  lemma AcceptedRequestWellFormed(request: SubscribeRequest)
    requires ReplayHeight(request).Ok?
    ensures WellFormed(FromCheckpoint(request.resume))
    ensures request.resume.Some? ==> FromCheckpoint(request.resume).finalized.value.1 != []
  {
    if request.resume.Some? {
      ByKeyWellFormed(request.resume.value.partialBlocks);
    }
  }

  lemma {:induction false} AnchorHash(c: Chain, us: seq<SubscribeUpdate>)
    requires WellFormed(c) && HashesPresent(us)
    requires c.finalized.Some? ==> c.finalized.value.1 != []
    ensures var r := ObserveAll(c, us);
            && WellFormed(r) && (r.finalized.Some? ==> r.finalized.value.1 != [])
            && (r.finalized.Some? <==> c.finalized.Some? || exists u :: u in us && Finalizes(u).Some?)
  {
    hide Observe, Finalizes, WellFormed;
    if us == [] {
    } else {
      var n := |us| - 1;
      assert us == us[..n] + [us[n]];
      AnchorHash(c, us[..n]);
      ObserveWellFormed(ObserveAll(c, us[..n]), us[n]);
    }
  }

  /** After any run from an accepted request, an anchored client's reconnect request passes the server's check
      with the anchor's height; its blocks strictly descend; rebuilding the state from it is exact; and the
      echoed notice leaves no partial block. */
  lemma HandshakeSucceeds(
    request: SubscribeRequest, us: seq<SubscribeUpdate>, current: SubscribeRequest, checkpoint: Option<nat>,
      config: ReconnectConfig)
    requires ReplayHeight(request).Ok? && HashesPresent(us) && config.recoverRetention.Some?
    requires ObserveAll(FromCheckpoint(request.resume), us).finalized.Some?
    ensures var chain := ObserveAll(FromCheckpoint(request.resume), us);
            var again := ReconnectRequest(current, chain, checkpoint, config);
            && again.resume.Some?
            && ReplayHeight(again) == Ok(Some(chain.finalized.value.0))
            && StrictlyDescending(again.resume.value.partialBlocks)
            && FromCheckpoint(again.resume) == chain
            && Observe(chain, ReconnectNotice(again.resume.value)) == Chain(chain.finalized, map[])
  {
    AcceptedRequestWellFormed(request);
    var start := FromCheckpoint(request.resume);
    AnchorHash(start, us);
    var chain := ObserveAll(start, us);
    AnchoredRequestAccepted(chain, current, checkpoint, config);
    CheckpointRoundTrip(chain);
    NoticeEmptiesPartial(chain);
  }

  lemma AnchoredRequestAccepted(
    chain: Chain, current: SubscribeRequest, checkpoint: Option<nat>, config: ReconnectConfig)
    requires WellFormed(chain) && chain.finalized.Some? && config.recoverRetention.Some?
    ensures var again := ReconnectRequest(current, chain, checkpoint, config);
            && again.resume == Checkpoint(chain) && StrictlyDescending(again.resume.value.partialBlocks)
            && (ReplayHeight(again) == Ok(Some(chain.finalized.value.0)) <==> chain.finalized.value.1 != [])
  {
    CheckpointBlocks(chain);
    var again := ReconnectRequest(current, chain, checkpoint, config);
    forall b | b in again.resume.value.partialBlocks ensures b.height > chain.finalized.value.0 {
      assert BlockKeyOf(b) in chain.partial;
    }
  }

  lemma NoticeEmptiesPartial(chain: Chain)
    requires WellFormed(chain) && chain.finalized.Some?
    ensures Observe(chain, ReconnectNotice(Checkpoint(chain).value)) == Chain(chain.finalized, map[])
  {
    CheckpointBlocks(chain);
    assert chain.partial - chain.partial.Keys == map[];
    hide KeysOf, StrictlyDescending, PartialKeys, Backwards, WellFormed;
  }

  /** Which requests the server accepts: with a checkpoint, those whose chain state the client could have, with a hash
      at its anchor and the anchor's height asked for, if any. */
  lemma AcceptedCheckpoints(request: SubscribeRequest)
    ensures request.resume.None? ==> ReplayHeight(request) == Ok(request.fromHeight)
    ensures request.resume.Some? ==>
              var c := FromCheckpoint(request.resume);
              && (ReplayHeight(request).Ok? <==>
                    && c.finalized.value.1 != [] && WellFormed(c)
                    && (request.fromHeight.Some? ==> request.fromHeight == Some(c.finalized.value.0)))
              && (ReplayHeight(request).Ok? ==> ReplayHeight(request).value == Some(c.finalized.value.0))
              && (ReplayHeight(request).Err? ==> ReplayHeight(request).error == InvalidArgument)
  {
    if request.resume.Some? {
      var blocks := request.resume.value.partialBlocks;
      ByKeyWellFormed(blocks);
      forall b | b in blocks ensures BlockKeyOf(b) in ByKey(blocks) {
        assert BlockKeyOf(b) in KeysOf(blocks);
      }
    }
  }

  /** A client that skips what it missed asks for nothing back: no height, no checkpoint, and everything else as it was
      asked for first. A client that does not, and has no anchor, asks from its last height less the buffer; or, having
      received nothing, for what it asked first. The server accepts all of these. */
  lemma UnanchoredRequest(
    current: SubscribeRequest, chain: Chain, checkpoint: Option<nat>, config: ReconnectConfig)
    requires config.recoverRetention.None? || chain.finalized.None?
    ensures var again := ReconnectRequest(current, chain, checkpoint, config);
            && again.resume.None?
            && again.eventTypes == current.eventTypes && again.filters == current.filters
            && again.ping == current.ping && again.includeMempoolSnapshot == current.includeMempoolSnapshot
            && (config.recoverRetention.None? ==> ReplayHeight(again) == Ok(None))
            && (config.recoverRetention.Some? && checkpoint.None? ==> ReplayHeight(again) == Ok(current.fromHeight))
            && (config.recoverRetention.Some? && checkpoint.Some? ==>
                  && ReplayHeight(again).Ok? && ReplayHeight(again).value.Some?
                  && var from := ReplayHeight(again).value.value;
                     && checkpoint.value <= from + config.checkpointHeightBuffer
                     && (from > 0 ==> checkpoint.value == from + config.checkpointHeightBuffer))
  {
  }

  /** Of what is not block-scoped the application is handed everything but the server's pings and the pongs to the
      client's own replies; those change nothing at all. */
  lemma ControlHandedOn(c: Client, u: SubscribeUpdate)
    requires BlockHeight(u).None?
    ensures var keepalive :=
              u.update.Some? && (u.update.value.Ping? || (u.update.value.Pong? && u.update.value.id < 0));
            && (keepalive ==> Handled(c, u) == c)
            && (!keepalive ==> Handled(c, u).output == c.output + [u] && Handled(c, u).checkpoint == c.checkpoint)
  {
  }

  // ---------- composition with the dedup and chain folds ----------

  function HandledAll(c: Client, us: seq<SubscribeUpdate>): (r: Client) {
    if us == [] then c else Handled(HandledAll(c, us[..|us| - 1]), us[|us| - 1])
  }
}
