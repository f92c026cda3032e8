// The server's shared state as the code updates it in place, and why its operations are runs of the machine's steps.
module SharedStates {
  import opened Proto
  import opened Replay
  import opened Events
  import opened Handshake
  import opened Protocol
  import MempoolView

  /** What a subscription starts from. */
  datatype InitialSubscription = InitialSubscription(
    cursor: nat, replay: ReplaySnapshot, mempool: Option<MempoolView.Snapshot>, reconnect: Option<SubscribeUpdate>)

  /** A batch published without interruption: begun, pushed, every update sent, finished. */
  function Published(cfg: Config, s: Server, batch: seq<SubscribeUpdate>, now: nat): (r: Server) {
    var pushed := DoPush(cfg, DoBegin(s, batch), now);
    pushed.(ring := pushed.ring + pushed.publisher.rest, publisher := Idle)
  }

  /** A subscriber that has opened its receiver now. */
  function Opened(s: Server, request: SubscribeRequest): (r: Subscriber) {
    FreshSubscriber(request).(phase := Listening, openedAt := |s.ring|, cursor := |s.ring|)
  }

  class SharedState {
    const config: Config
    const replay: ReplayBuffer
    const mempool: MempoolView.MempoolState
    /** Everything sent to the live channel. */
    var live: seq<SubscribeUpdate>
    ghost var log: seq<SubscribeUpdate>
    ghost var history: seq<Bucket>
    ghost var clock: nat

    ghost predicate Valid()
      reads this, replay
    {
      replay.Valid() && replay.limits == config.limits
    }

    /** The machine's server, given the last sequence number assigned. */
    ghost function Value(last: nat): Server
      reads this, replay, mempool
    {
      Server(last, log, history, replay.buckets, live, mempool.Value(), Idle, clock)
    }

    constructor (config: Config)
      ensures Valid() && this.config == config && Value(0) == EMPTY_SERVER && fresh(replay) && fresh(mempool)
    {
      this.config := config;
      replay := new ReplayBuffer(config.limits);
      mempool := new MempoolView.MempoolState();
      live, log, history, clock := [], [], [], 0;
    }

    /** Stamps and applies a mempool batch, pushes the batch to the replay buffer, and sends its updates. */
    method PublishBatch(updates: seq<SubscribeUpdate>, now: nat, ghost batch: seq<SubscribeUpdate>, ghost last: nat)
      requires Valid() && updates == NumberedFrom(batch, last)
      modifies this, replay, mempool
      ensures Valid()
      ensures Value(last + |batch|) == Published(config, old(Value(last)), batch, now)
    {
      ghost var before := Value(last);
      var ready := StampAndApply(updates, batch, last);
      hide DoBegin, Pushed, BucketOf, Entries;
      BeginKeepsRest(before, batch);
      replay.PushBatchAt(Entries(ready, config.measure), now);
      log, history, clock := log + ready, history + BucketOf(Entries(ready, config.measure), now), now;
      Send(ready);
    }

    /** With a mempool update in it, a batch gets the next revision and is applied to the mempool. */
    method StampAndApply(updates: seq<SubscribeUpdate>, ghost batch: seq<SubscribeUpdate>, ghost last: nat)
      returns (ready: seq<SubscribeUpdate>)
      requires updates == NumberedFrom(batch, last)
      modifies mempool
      ensures var begun := DoBegin(old(Value(last)), batch);
              ready == begun.publisher.batch && mempool.Value() == begun.mempool
    {
      hide MempoolView.AppliedAll;
      ready := updates;
      if IsMempoolBatch(updates) {
        mempool.revision := mempool.revision + 1;
        ready := Stamp(updates, mempool.revision);
        mempool.Apply(ready);
      }
    }

    /** Sends the updates to the live channel one by one. */
    method Send(updates: seq<SubscribeUpdate>)
      modifies `live
      ensures live == old(live) + updates
    {
      for i := 0 to |updates|
        invariant live == old(live) + updates[..i]
      {
        assert updates[..i + 1] == updates[..i] + [updates[i]];
        live := live + [updates[i]];
      }
      assert updates[..|updates|] == updates;
    }

    /** Opens a receiver; verifies the checkpoint and takes the replay snapshot; then the mempool snapshot. */
    method Subscribe(
      request: SubscribeRequest, now: nat, ghost last: nat) returns (r: Result<InitialSubscription, Code>)
      requires Valid()
      modifies this`clock, replay
      ensures Valid()
      ensures var s := old(Value(last));
              var joined := DoJoin(config, State(s, Opened(s, request)), now);
              && Value(last) == joined.server
              && joined.sub.phase == (if r.Ok? then Joined else Refused(r.error))
              && (r.Ok? ==>
                    && r.value.cursor == |live|
                    && r.value.replay == ReplaySnapshot(joined.sub.replay, joined.sub.watermark)
                    && r.value.mempool == (if request.includeMempoolSnapshot
                       then Some(MempoolView.SnapshotOf(mempool.Value())) else None)
                    && r.value.reconnect == (if request.resume.Some? then Some(ReconnectNotice(request.resume.value))
                       else None))
    {
      hide Kept, SnapshotOf, Verified, ReplayHeight, MempoolView.SnapshotOf;
      var cursor := |live|;
      var from := ReplayHeight(request);
      if from.Err? {
        return Err(from.error);
      }
      if request.resume.Some? {
        var verified := replay.VerifyCheckpoint(request.resume.value);
        if verified.Err? {
          return Err(verified.error);
        }
      }
      var snapshot := replay.Snapshot(from.value, now);
      clock := now;
      if snapshot.Err? {
        return Err(snapshot.error);
      }
      var mempoolSnapshot := None;
      if request.includeMempoolSnapshot {
        var taken := mempool.TakeSnapshot();
        mempoolSnapshot := Some(taken);
      }
      var reconnect := if request.resume.Some? then Some(ReconnectNotice(request.resume.value)) else None;
      return Ok(InitialSubscription(cursor, snapshot.value, mempoolSnapshot, reconnect));
    }
  }

  lemma BeginKeepsRest(s: Server, batch: seq<SubscribeUpdate>)
    ensures var r := DoBegin(s, batch);
            && r.nextSequence == s.nextSequence + |batch| && r.publisher.Ready?
            && r == s.(nextSequence := r.nextSequence, mempool := r.mempool, publisher := r.publisher)
  {
  }

  method Stamp(updates: seq<SubscribeUpdate>, revision: nat) returns (stamped: seq<SubscribeUpdate>)
    ensures stamped == Stamped(updates, revision)
  {
    stamped := [];
    for i := 0 to |updates|
      invariant stamped == Stamped(updates[..i], revision)
    {
      stamped := stamped + [if IsMempoolUpdate(updates[i]) then updates[i].(mempoolRevision := Some(revision))
        else updates[i]];
    }
    assert updates[..|updates|] == updates;
  }

  datatype PluginError = Encoding(error: EventError) | SequenceExhausted

  /** The node's plugin: encodes an event, numbers its updates and publishes them. */
  class GrpcPlugin {
    const state: SharedState
    const options: Options
    var nextSequence: nat

    ghost predicate Valid()
      reads this, state, state.replay
    {
      state.Valid() && nextSequence <= U64_MAX
    }

    constructor (config: Config, options: Options)
      ensures Valid() && state.config == config && this.options == options
      ensures state.Value(nextSequence) == EMPTY_SERVER
      ensures fresh(state) && fresh(state.replay) && fresh(state.mempool)
    {
      state := new SharedState(config);
      this.options := options;
      nextSequence := 0;
    }

    /** An event that cannot be encoded changes nothing; one for which the numbers run out uses them up and publishes
        nothing; any other is published as one source batch. */
    method OnEvent(e: Envelope, now: nat) returns (r: Result<(), PluginError>)
      requires Valid()
      modifies this, state, state.replay, state.mempool
      ensures Valid()
      ensures r.Ok? <==> EventEncodable(e, options) && old(nextSequence) + |EventUpdates(e, options)| <= U64_MAX
      ensures r.Ok? ==>
                state.Value(nextSequence)
                == Published(state.config, old(state.Value(nextSequence)), EventUpdates(e, options), now)
      ensures r.Ok? ==> SourceBatch(EventUpdates(e, options))
      ensures r.Err? ==> forall last :: state.Value(last) == old(state.Value(last))
      ensures r.Err? ==> if EventEncodable(e, options) then r.error.SequenceExhausted? && nextSequence == U64_MAX
                         else r.error.Encoding? && nextSequence == old(nextSequence)
    {
      hide EventUpdates, EventEncodable, Published, SourceBatch;
      EventIsSourceBatch(e, options);
      var encoded := EncodeEvent(e, options);
      if encoded.Err? {
        return Err(Encoding(encoded.error));
      }
      var last := nextSequence;
      var numbered;
      numbered, nextSequence := AssignSequences(encoded.value, last);
      if numbered.None? {
        return Err(SequenceExhausted);
      }
      state.PublishBatch(numbered.value, now, encoded.value, last);
      return Ok(());
    }
  }

  // ---------- the same things as steps ----------

  /** Sending one by one, as many times as there are updates left. */
  function AllSent(s: Server): (r: Server)
    requires s.publisher.Sending?
    decreases |s.publisher.rest|
  {
    if s.publisher.rest == [] then s else AllSent(DoSend(s))
  }

  lemma {:induction false} AllSentIsAtOnce(s: Server)
    requires s.publisher.Sending?
    ensures AllSent(s) == s.(ring := s.ring + s.publisher.rest, publisher := Sending([], s.publisher.locked))
    decreases |s.publisher.rest|
  {
    if s.publisher.rest == [] {
      assert s.ring + [] == s.ring;
    } else {
      AllSentIsAtOnce(DoSend(s));
      assert s.ring + [s.publisher.rest[0]] + s.publisher.rest[1..] == s.ring + s.publisher.rest;
    }
  }

  /** Publishing a batch at once is the step sequence Begin, Push, Send for each update, Finish. */
  lemma PublishedIsSteps(cfg: Config, s: Server, sub: Subscriber, batch: seq<SubscribeUpdate>, now: nat)
    requires s.publisher.Idle? && SourceBatch(batch) && now >= s.clock
    ensures var begun := Do(cfg, State(s, sub), Step.Begin(batch));
            && Enabled(cfg, begun, Push(now))
            && var pushed := Do(cfg, begun, Push(now));
               && pushed.server.publisher.Sending?
               && var sent := State(AllSent(pushed.server), sub);
                  && Enabled(cfg, sent, Finish)
                  && Do(cfg, sent, Finish) == State(Published(cfg, s, batch, now), sub)
  {
    var pushed := DoPush(cfg, DoBegin(s, batch), now);
    AllSentIsAtOnce(pushed);
  }
}
