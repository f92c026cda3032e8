// The publisher, one subscription at a time, and the client that reconnects: what the application ends up with.
//
// The client folds every update it handles into its chain state and its duplicate filter, and hands on what the
// filter accepts. A disconnect loses whatever it had not handled yet. It then asks again from its finalized
// anchor or, while it has none, from a little below the last height it handled. What the server sends on goes
// through the subscription's filter, which a reconnect asks for again.
module Recovery {
  import opened Proto
  import opened Replay
  import opened ChainResume
  import opened Handshake
  import opened Protocol
  import opened Splice
  import opened Guarantees
  import opened EventFilters
  import opened Filter
  import opened FilteredStream
  import Dedup
  import MempoolView
  import Window

  datatype Link = Up | Down | Stopped(code: Code)

  /** The request with its compiled filter; `retention` is the number of heights that the duplicate filter keeps. */
  datatype Setup = Setup(
    config: Config, request: SubscribeRequest, filter: EventFilter, retention: nat, heightBuffer: nat)

  /** `handled` counts the updates of this connection that have gone through the filter to the client, or not, and
      `received` lists what the client got on all connections. `base` is the log length at the first snapshot; a client
      that reconnects with no anchor and with nothing block-scoped received has nothing to resume from and starts over.
      `byAnchor` and `byHeight` say which kinds of resumption there were since: from a finalized anchor, or without one
      from the height of the last update received. */
  datatype System = System(
    server: Server, sub: Subscriber, client: Client, handled: nat, received: seq<SubscribeUpdate>,
    link: Link, base: Option<nat>, byAnchor: bool, byHeight: bool)

  datatype Move = Net(step: Step) | Handle | Disconnect | Resubscribe | GiveUp

  // ---------- the machine ----------

  predicate IsPublisherStep(step: Step) {
    step.Begin? || step.Push? || step.Send? || step.Finish? || step.EvictByReader?
  }

  ghost predicate Allowed(setup: Setup, sys: System, move: Move) {
    match move
    case Net(step) => Enabled(setup.config, State(sys.server, sys.sub), step) && (IsPublisherStep(step) || sys.link.Up?)
    case Handle => sys.link.Up? && sys.handled < |sys.sub.sent|
    case Disconnect => sys.link.Up? && !sys.sub.phase.Refused?
    case Resubscribe => sys.link.Down?
    case GiveUp => sys.link.Up? && sys.sub.phase.Refused?
  }

  ghost function NextRequest(setup: Setup, c: Client): SubscribeRequest {
    ReconnectRequest(setup.request, c.chain, c.checkpoint, ReconnectConfig(Some(setup.retention), setup.heightBuffer))
  }

  ghost predicate Heard(received: seq<SubscribeUpdate>) {
    exists v :: v in received && BlockHeight(v).Some?
  }

  ghost function Resubscribed(setup: Setup, sys: System): System {
    var anchored, heard := sys.client.chain.finalized.Some?, Heard(sys.received);
    sys.(sub := FreshSubscriber(NextRequest(setup, sys.client)), handled := 0, link := Up,
         base := if anchored || heard then sys.base else None,
         byAnchor := sys.byAnchor || (sys.base.Some? && anchored),
         byHeight := sys.byHeight || (sys.base.Some? && !anchored && heard))
  }

  ghost function After(setup: Setup, sys: System, move: Move): System
    requires Allowed(setup, sys, move)
  {
    match move
    case Net(step) =>
      var r := Do(setup.config, State(sys.server, sys.sub), step);
      sys.(server := r.server, sub := r.sub,
           base := if sys.base.None? && HasJoined(r.sub) then Some(r.sub.joinedAt) else sys.base)
    case Handle =>
      var message := Through(setup.filter, sys.sub.sent[sys.handled]);
      if message.None? then
        sys.(handled := sys.handled + 1)
      else
        sys.(client := Handled(sys.client, message.value), handled := sys.handled + 1, received
          := sys.received + [message.value])
    case Disconnect => sys.(link := Down)
    case Resubscribe => Resubscribed(setup, sys)
    case GiveUp => sys.(link := Stopped(sys.sub.phase.code))
  }

  function NewClient(setup: Setup): (r: Client) {
    Client(FromCheckpoint(setup.request.resume), Some(Dedup.State({}, [], setup.retention)),
      setup.request.fromHeight, [])
  }

  function Initially(setup: Setup): (r: System) {
    System(EMPTY_SERVER, FreshSubscriber(setup.request), NewClient(setup), 0, [], Up, None, false, false)
  }

  ghost predicate IsStory(setup: Setup, states: seq<System>, moves: seq<Move>) {
    && |states| == |moves| + 1
    && states[0] == Initially(setup)
    && forall i :: 0 <= i < |moves|
        ==> Allowed(setup, states[i], moves[i]) && states[i + 1] == After(setup, states[i], moves[i])
  }

  // ---------- the hypotheses on the chain ----------

  ghost predicate Finalizing(b: Bucket) {
    exists e :: e in b.updates && Finalizes(e.message).Some?
  }

  /** Whatever is published after a block was finalized is about greater heights. */
  ghost predicate ChainRule(history: seq<Bucket>) {
    forall j, k :: 0 <= j < k < |history| && Finalizing(history[j]) ==> history[j].height < history[k].height
  }

  /** Whatever is published later lies above the height that a client without an anchor asks for after an earlier
      update: published heights go down by less than the buffer. */
  ghost predicate HeightRule(history: seq<Bucket>, buffer: nat) {
    forall j, k :: 0 <= j < k < |history| ==> SatSub(history[j].height, buffer) < history[k].height
  }

  /** What the reconnects of a story ask of the chain: a rule for each kind of them. */
  ghost predicate Rules(setup: Setup, sys: System) {
    && (sys.byAnchor ==> ChainRule(sys.server.history))
    && (sys.byHeight ==> HeightRule(sys.server.history, setup.heightBuffer))
  }

  /** Why the rule asks for greater heights and not just for none smaller. The checkpoint is verified before the same
      call evicts. With later batches at the anchor's height, the eviction may take the anchor's batch and the next
      one, and the request is still accepted because a third one has that height: the second update is lost. */
  lemma EqualHeightLosesUpdate(fin: Entry, lost: Entry, last: Entry, f: nat, hash: Text, limits: Limits)
    requires IsFinalizedBlock(fin.message, hash) && BlockHeight(fin.message) == Some(f)
    requires BlockHeight(lost.message) == BlockHeight(last.message) == Some(f) && lost.message != last.message
    requires limits.heights > 0 && limits.events >= 3 && limits.maxAge == Some(100)
    requires limits.bytes >= fin.encodedLen + lost.encodedLen + last.encodedLen
    ensures var checkpoint := ResumeCheckpoint(f, hash, []);
            var bs := [Bucket(f, 0, [fin], fin.encodedLen), Bucket(f, 0, [lost], lost.encodedLen),
                       Bucket(f, 50, [last], last.encodedLen)];
            && Window.NonDecreasing(bs) && !ChainRule(bs)
            && Verified(bs, checkpoint).Ok? && SnapshotOf(Kept(bs, limits, 101), Some(f)).Ok?
            && lost.message !in SnapshotOf(Kept(bs, limits, 101), Some(f)).value.updates
  {
    var a, b := Bucket(f, 0, [fin], fin.encodedLen), Bucket(f, 0, [lost], lost.encodedLen);
    var c := Bucket(f, 50, [last], last.encodedLen);
    var bs := [a, b, c];
    OnlyLastStays(a, b, c, limits);
    hide Kept;
    Window.OnlyOne(c, last.message);
    var checkpoint := ResumeCheckpoint(f, hash, []);
    assert fin in a.updates && Proves(a, checkpoint) && a in bs;
    FinalizedFinalizes(fin.message, hash);
    assert Finalizing(bs[0]);
    assert bs[0].height == bs[1].height;
  }

  lemma OnlyLastStays(a: Bucket, b: Bucket, c: Bucket, limits: Limits)
    requires limits.maxAge == Some(100) && a.insertedAt == b.insertedAt == 0 && c.insertedAt == 50
    requires limits.heights > 0 && |c.updates| <= limits.events && c.bytes <= limits.bytes
    ensures Kept([a, b, c], limits, 101) == [c]
  {
    assert [a, b, c][1..] == [b, c] && [b, c][1..] == [c] && [c][1..] == [];
    assert EventSum([c]) == EventSum([]) + |c.updates| && ByteSum([c]) == ByteSum([]) + c.bytes;
    assert c in [c] && Heights([c]) == {c.height};
    assert Kept([c], limits, 101) == [c] && Kept([b, c], limits, 101) == [c];
  }

  /** Why published heights may go down by less than the buffer only. The client has no anchor and has received an
      update at `h`. One at `h + 1` and then one no higher than `h` less the buffer are published, with room for one of
      them. The reconnect asks for `h` less the buffer and is accepted, since the low one is retained; the update at
      `h + 1` is lost, although the chain rule holds. */
  lemma LowUpdateLosesAnother(
    setup: Setup, seen: Entry, lost: Entry, low: Entry, h: nat, l: nat, server: Server)
    requires BlockHeight(seen.message) == Some(h) && BlockHeight(lost.message) == Some(h + 1)
    requires BlockHeight(low.message) == Some(l) && l <= SatSub(h, setup.heightBuffer)
    requires Finalizes(seen.message).None? && Finalizes(lost.message).None? && setup.request.resume.None?
    requires setup.config.limits.heights > 0 && setup.config.limits.events == 1
    requires setup.config.limits.bytes >= seen.encodedLen && setup.config.limits.bytes >= lost.encodedLen
    requires setup.config.limits.bytes >= low.encodedLen
    requires var ops := [Window.Push([seen], 0), Window.Push([lost], 0), Window.Push([low], 0)];
             server.history == Window.History(ops) && server.buckets == Window.Run(setup.config.limits, ops)
    ensures var again := NextRequest(setup, Handled(NewClient(setup), seen.message));
            var r := DoJoin(setup.config, State(server, FreshSubscriber(again)), 0).sub;
            && ChainRule(server.history) && !HeightRule(server.history, setup.heightBuffer)
            && again.resume.None? && again.fromHeight == Some(SatSub(h, setup.heightBuffer))
            && r.phase == Joined && lost.message !in r.replay
  {
    var a, b := Bucket(h, 0, [seen], seen.encodedLen), Bucket(h + 1, 0, [lost], lost.encodedLen);
    var c := Bucket(l, 0, [low], low.encodedLen);
    ThreePushes(setup.config.limits, seen, lost, low, a, b, c);
    HandledAnchor(NewClient(setup), seen.message);
    NextRequestResumes(setup, Handled(NewClient(setup), seen.message));
    var again := NextRequest(setup, Handled(NewClient(setup), seen.message));
    OneReplayed(c, low.message, SatSub(h, setup.heightBuffer));
    Window.LastOneKept([], c, setup.config.limits);
    assert [] + [c] == [c];
    JoinsWithoutAnchor(setup.config, server, again, SatSub(h, setup.heightBuffer));
    RulesOfThree(a, b, c, setup.heightBuffer);
    hide Kept, Window.Run, Window.History, SnapshotOf, Replayed, NextRequest, Handled, DoJoin, Finalizing, SatSub;
  }

  /** Three batches, at these heights, each taking the place of the one before. */
  lemma ThreePushes(
    limits: Limits, x: Entry, y: Entry, z: Entry, a: Bucket, b: Bucket, c: Bucket)
    requires limits.heights > 0 && limits.events == 1
    requires limits.bytes >= x.encodedLen && limits.bytes >= y.encodedLen && limits.bytes >= z.encodedLen
    requires BlockHeight(x.message) == Some(a.height) && a == Bucket(a.height, 0, [x], x.encodedLen)
    requires BlockHeight(y.message) == Some(b.height) && b == Bucket(b.height, 0, [y], y.encodedLen)
    requires BlockHeight(z.message) == Some(c.height) && c == Bucket(c.height, 0, [z], z.encodedLen)
    ensures var ops := [Window.Push([x], 0), Window.Push([y], 0), Window.Push([z], 0)];
            Window.History(ops) == [a, b, c] && Window.Run(limits, ops) == [c]
  {
    var p, q, r := Window.Push([x], 0), Window.Push([y], 0), Window.Push([z], 0);
    hide BlockHeight, Window.Run, Window.History, Window.AtMostOne;
    Window.TwoPushes(limits, x, y, a, b);
    Window.PushReplaces(limits, [p, q], z, c.height);
    assert [p, q] + [r] == [p, q, r] && [a, b] + [c] == [a, b, c];
  }

  lemma OneReplayed(b: Bucket, v: SubscribeUpdate, from: nat)
    requires b.updates != [] && b.updates == [b.updates[0]] && b.updates[0].message == v && b.height <= from
    ensures SnapshotOf([b], Some(from)).Ok?
    ensures forall u :: u in SnapshotOf([b], Some(from)).value.updates ==> u == v
  {
    Window.RangeFailure([b], from);
    assert b in [b];
    assert SnapshotOf([b], Some(from)).value.updates == Replayed([b], from);
    hide SnapshotOf, Replayed;
    forall u | u in Replayed([b], from) ensures u == v {
      Window.InReplayed([b], from, u);
    }
  }

  lemma JoinsWithoutAnchor(cfg: Config, server: Server, request: SubscribeRequest, from: nat)
    requires request.resume.None? && request.fromHeight == Some(from)
    requires SnapshotOf(Kept(server.buckets, cfg.limits, 0), Some(from)).Ok?
    ensures var r := DoJoin(cfg, State(server, FreshSubscriber(request)), 0).sub;
            && r.phase == Joined
            && r.replay == SnapshotOf(Kept(server.buckets, cfg.limits, 0), Some(from)).value.updates
  {
    hide SnapshotOf, Kept, Verified;
  }

  lemma RulesOfThree(a: Bucket, b: Bucket, c: Bucket, buffer: nat)
    requires !Finalizing(a) && !Finalizing(b) && c.height <= SatSub(a.height, buffer)
    ensures ChainRule([a, b, c]) && !HeightRule([a, b, c], buffer)
  {
    hide Finalizing;
    var history := [a, b, c];
    assert history[0] == a && history[1] == b && history[2] == c;
  }

  lemma FinalizedFinalizes(u: SubscribeUpdate, hash: Text)
    requires IsFinalizedBlock(u, hash)
    ensures Finalizes(u).Some?
  {
  }

  // ---------- a snapshot at or below what was handled is complete ----------

  lemma BucketOfUpdate(log: seq<SubscribeUpdate>, history: seq<Bucket>, i: nat) returns (j: nat)
    requires HistoryInv(log, history) && i < |log| && BlockHeight(log[i]).Some?
    ensures j < |history| && Inside(history, j, i)
    ensures Some(history[j].height) == BlockHeight(log[i]) && log[i] in Messages(history[j].updates)
    ensures Finalizes(log[i]).Some? ==> Finalizing(history[j])
  {
    hide BlockHeight, Finalizes;
    j :| 0 <= j < |history| && Inside(history, j, i);
    var b := history[j];
    assert Spans(log, b);
    var k := i - Start(b);
    assert Messages(b.updates)[k] == log[i];
    assert b.updates[k] in b.updates;
  }

  /** The height is no greater than that of bucket j and less than those of all later buckets. */
  ghost predicate Below(history: seq<Bucket>, j: nat, from: nat)
    requires j < |history|
  {
    from <= history[j].height && forall k :: j < k < |history| ==> from < history[k].height
  }

  /** A snapshot at such a height succeeds only while bucket j is retained. */
  lemma BelowRetained(history: seq<Bucket>, window: seq<Bucket>, j: nat, from: nat)
    requires IsSuffix(window, history) && j < |history| && Below(history, j, from)
    requires SnapshotOf(window, Some(from)).Ok?
    ensures |history| - |window| <= j
  {
    Window.RangeFailure(window, from);
    hide SnapshotOf;
    var low :| low in window && low.height <= from;
    var m :| 0 <= m < |window| && window[m] == low;
    assert history[|history| - |window| + m] == low;
  }

  /** A snapshot at the height of a finalizing bucket succeeds only while that bucket is retained. */
  lemma AnchorRetained(history: seq<Bucket>, window: seq<Bucket>, j: nat)
    requires IsSuffix(window, history) && ChainRule(history) && j < |history| && Finalizing(history[j])
    requires SnapshotOf(window, Some(history[j].height)).Ok?
    ensures |history| - |window| <= j
  {
    hide SnapshotOf, Finalizing;
    BelowRetained(history, window, j, history[j].height);
  }

  lemma EarlierBucket(log: seq<SubscribeUpdate>, history: seq<Bucket>, j: nat, k: nat, a: nat, i: nat)
    requires AllSpan(log, history) && InOrder(history) && k < j < |history| && Inside(history, j, a)
             && Inside(history, k, i)
    ensures i < a
  {
    hide Spans;
    assert Until(history[k]) <= Start(history[j]);
  }

  lemma RetainedReplayed(history: seq<Bucket>, window: seq<Bucket>, k: nat, f: nat, u: SubscribeUpdate)
    requires IsSuffix(window, history) && |history| - |window| <= k < |history|
    requires history[k].height >= f && u in Messages(history[k].updates)
    ensures u in Replayed(window, f)
  {
    assert window[k - (|history| - |window|)] == history[k];
    Window.InReplayed(window, f, u);
  }

  /** If a snapshot succeeds at a height below all that was published after position `a` then whatever was not
      published up to `a` is replayed. */
  lemma SnapshotComplete(
    log: seq<SubscribeUpdate>, history: seq<Bucket>, window: seq<Bucket>, j: nat, a: nat, from: nat, i: nat)
    requires HistoryInv(log, history) && IsSuffix(window, history)
    requires j < |history| && Inside(history, j, a) && Below(history, j, from) && SnapshotOf(window, Some(from)).Ok?
    requires i < |log| && BlockHeight(log[i]).Some?
    ensures i <= a || log[i] in Replayed(window, from)
  {
    hide IsSuffix, SnapshotOf, BlockHeight, Finalizes, Finalizing, Messages, Replayed, AllSpan, AllHeld, InOrder,
      Inside;
    BelowRetained(history, window, j, from);
    var k := BucketOfUpdate(log, history, i);
    if k < j {
      EarlierBucket(log, history, j, k, a, i);
    } else {
      assert k > j ==> from < history[k].height;
      RetainedReplayed(history, window, k, from, log[i]);
    }
  }

  /** If the snapshot at an anchor succeeds then the anchor's bucket is still there, so whatever was not
      published before the anchor is replayed. */
  lemma AnchoredSnapshotComplete(
    log: seq<SubscribeUpdate>, history: seq<Bucket>, window: seq<Bucket>, a: nat, f: nat, i: nat)
    requires HistoryInv(log, history) && IsSuffix(window, history) && ChainRule(history)
    requires a < |log| && Finalizes(log[a]).Some? && BlockHeight(log[a]) == Some(f)
    requires SnapshotOf(window, Some(f)).Ok?
    requires i < |log| && BlockHeight(log[i]).Some?
    ensures i <= a || log[i] in Replayed(window, f)
  {
    hide HistoryInv, SnapshotOf, BlockHeight, Finalizes, Finalizing, Replayed, Inside, IsSuffix;
    var j := BucketOfUpdate(log, history, a);
    assert Below(history, j, f);
    SnapshotComplete(log, history, window, j, a, f, i);
  }

  /** Likewise for a client that asks for the height of the update at `a` less the buffer: if the server accepts, then
      whatever was not published up to `a` is replayed. */
  lemma HeightSnapshotComplete(
    log: seq<SubscribeUpdate>, history: seq<Bucket>, window: seq<Bucket>, a: nat, h: nat, buffer: nat, i: nat)
    requires HistoryInv(log, history) && IsSuffix(window, history) && HeightRule(history, buffer)
    requires a < |log| && BlockHeight(log[a]) == Some(h) && SnapshotOf(window, Some(SatSub(h, buffer))).Ok?
    requires i < |log| && BlockHeight(log[i]).Some?
    ensures i <= a || log[i] in Replayed(window, SatSub(h, buffer))
  {
    hide HistoryInv, SnapshotOf, BlockHeight, Finalizes, Finalizing, Replayed, Inside, IsSuffix;
    var j := BucketOfUpdate(log, history, a);
    assert Below(history, j, SatSub(h, buffer));
    SnapshotComplete(log, history, window, j, a, SatSub(h, buffer), i);
  }

  // ---------- what every story keeps ----------

  /** Whatever is block-scoped here is what the filter delivers of some update of the log. */
  ghost predicate FromLog(ef: EventFilter, log: seq<SubscribeUpdate>, us: seq<SubscribeUpdate>) {
    forall v :: v in us && BlockHeight(v).Some? ==> DeliveredOf(ef, log, v)
  }

  ghost predicate DeliveredOf(ef: EventFilter, log: seq<SubscribeUpdate>, v: SubscribeUpdate) {
    exists u :: u in log && Owed(ef, u) && v == Delivered(ef, u)
  }

  /** If the filter lets this update through then it has been received. */
  ghost predicate Got(ef: EventFilter, received: seq<SubscribeUpdate>, u: SubscribeUpdate) {
    Owed(ef, u) ==> Delivered(ef, u) in received
  }

  /** Nothing is missing up to log position `a`. */
  ghost predicate CompleteTo(
    ef: EventFilter, log: seq<SubscribeUpdate>, base: nat, received: seq<SubscribeUpdate>, a: nat)
  {
    a < |log| && forall i :: base <= i <= a && BlockHeight(log[i]).Some? ==> Got(ef, received, log[i])
  }

  /** The anchor was finalized at a log position up to which nothing is missing. */
  ghost predicate HasAnchor(
    ef: EventFilter, log: seq<SubscribeUpdate>, base: nat, received: seq<SubscribeUpdate>, anchor: BlockKey)
  {
    exists a: nat :: CompleteTo(ef, log, base, received, a) && Finalizes(log[a]) == Some(anchor)
  }

  /** An update of this height is at a log position up to which nothing is missing. */
  ghost predicate HasHeight(
    ef: EventFilter, log: seq<SubscribeUpdate>, base: nat, received: seq<SubscribeUpdate>, h: nat)
  {
    exists a: nat :: CompleteTo(ef, log, base, received, a) && BlockHeight(log[a]) == Some(h)
  }

  /** Up to the snapshot of this connection, whatever was not received before is in its replay. */
  ghost predicate Entered(
    ef: EventFilter, log: seq<SubscribeUpdate>, base: nat, received: seq<SubscribeUpdate>, sub: Subscriber)
  {
    && base <= sub.joinedAt <= |log|
    && forall i :: base <= i < sub.joinedAt && BlockHeight(log[i]).Some?
        ==> Got(ef, received, log[i]) || log[i] in sub.replay
  }

  predicate Waiting(sub: Subscriber) {
    sub.phase == Fresh || sub.phase == Listening
  }

  function AnchorOf(resume: Option<ResumeCheckpoint>): (r: Option<BlockKey>) {
    if resume.Some? then Some((resume.value.finalizedHeight, resume.value.finalizedHash)) else None
  }

  ghost predicate Held(ef: EventFilter, sys: System) {
    && sys.handled <= |sys.sub.sent|
    && (forall k :: 0 <= k < sys.handled ==> Got(ef, sys.received, sys.sub.sent[k]))
    && FromLog(ef, sys.server.log, sys.received)
  }

  /** A reconnect is about to ask for the client's anchor, or for the height of the last update received less the
      buffer. */
  ghost predicate Resuming(setup: Setup, sys: System) {
    if sys.client.chain.finalized.Some? then
      sys.byAnchor
    else
      && sys.byHeight && Heard(sys.received) && sys.client.checkpoint.Some?
      && sys.sub.request.fromHeight == Some(SatSub(sys.client.checkpoint.value, setup.heightBuffer))
  }

  /** Up to where the client would resume from, nothing is missing. */
  ghost predicate Complete(ef: EventFilter, sys: System, base: nat) {
    var log, client := sys.server.log, sys.client;
    && (client.chain.finalized.Some? ==> HasAnchor(ef, log, base, sys.received, client.chain.finalized.value))
    && (Heard(sys.received) ==>
          client.checkpoint.Some? && HasHeight(ef, log, base, sys.received, client.checkpoint.value))
  }

  ghost predicate Sound(setup: Setup, sys: System) {
    && (Waiting(sys.sub) ==> AnchorOf(sys.sub.request.resume) == sys.client.chain.finalized)
    && match sys.base
       case None => !HasJoined(sys.sub) && !Heard(sys.received)
       case Some(base) =>
         && base <= |sys.server.log|
         && Complete(setup.filter, sys, base)
         && (HasJoined(sys.sub) ==> Entered(setup.filter, sys.server.log, base, sys.received, sys.sub))
         && (Waiting(sys.sub) ==> Resuming(setup, sys))
  }

  ghost predicate SysInv(setup: Setup, sys: System) {
    && Inv(setup.config, State(sys.server, sys.sub))
    && Held(setup.filter, sys) && Sound(setup, sys)
    && sys.client == HandledAll(NewClient(setup), sys.received)
  }

  // ---------- the publisher ----------

  lemma PublisherExtends(cfg: Config, st: State, step: Step)
    requires Enabled(cfg, st, step) && IsPublisherStep(step)
    ensures var r := Do(cfg, st, step);
            && r.sub == st.sub && st.server.log <= r.server.log && st.server.history <= r.server.history
  {
    if step.Begin? {
      BeginLeaves(st.server, step.batch);
      hide DoBegin;
    }
    hide BucketOf, Pushed, Kept;
  }

  lemma CompletenessOutlives(
    ef: EventFilter, log: seq<SubscribeUpdate>, log': seq<SubscribeUpdate>, base: nat, received: seq<SubscribeUpdate>,
    received': seq<SubscribeUpdate>)
    requires log <= log' && received <= received'
    ensures forall a: nat :: CompleteTo(ef, log, base, received, a) ==> CompleteTo(ef, log', base, received', a)
    ensures forall anchor :: HasAnchor(ef, log, base, received, anchor) ==> HasAnchor(ef, log', base, received', anchor)
    ensures forall h :: HasHeight(ef, log, base, received, h) ==> HasHeight(ef, log', base, received', h)
  {
    hide BlockHeight, Finalizes;
    forall a: nat | CompleteTo(ef, log, base, received, a) ensures CompleteTo(ef, log', base, received', a) {
      forall i | base <= i <= a && BlockHeight(log'[i]).Some? ensures Got(ef, received', log'[i]) {
        assert log'[i] == log[i] && Got(ef, received, log[i]);
      }
    }
    assert forall a :: 0 <= a < |log| ==> log'[a] == log[a];
    hide CompleteTo;
  }

  lemma EntryOutlives(
    ef: EventFilter, log: seq<SubscribeUpdate>, log': seq<SubscribeUpdate>, base: nat, received: seq<SubscribeUpdate>,
    received': seq<SubscribeUpdate>, sub: Subscriber)
    requires Entered(ef, log, base, received, sub) && log <= log' && received <= received'
    ensures Entered(ef, log', base, received', sub)
  {
    hide BlockHeight;
    forall i | base <= i < sub.joinedAt && BlockHeight(log'[i]).Some?
      ensures Got(ef, received', log'[i]) || log'[i] in sub.replay {
      assert log'[i] == log[i];
    }
  }

  lemma GrowthKeeps(setup: Setup, sys: System, server: Server)
    requires Held(setup.filter, sys) && Sound(setup, sys) && sys.server.log <= server.log
    ensures Held(setup.filter, sys.(server := server)) && Sound(setup, sys.(server := server))
  {
    var log, log' := sys.server.log, server.log;
    hide BlockHeight, HasAnchor, HasHeight, Entered, Heard;
    if sys.base.Some? {
      CompletenessOutlives(setup.filter, log, log', sys.base.value, sys.received, sys.received);
      if HasJoined(sys.sub) {
        EntryOutlives(setup.filter, log, log', sys.base.value, sys.received, sys.received, sys.sub);
      }
    }
  }

  // ---------- the subscriber, except for the snapshot ----------

  lemma QuietStep(cfg: Config, st: State, step: Step)
    requires Enabled(cfg, st, step) && !IsPublisherStep(step) && !step.Join?
    ensures var r := Do(cfg, st, step);
            && r.server == st.server && st.sub.sent <= r.sub.sent && (HasJoined(r.sub) <==> HasJoined(st.sub))
            && r.sub.request == st.sub.request && r.sub.replay == st.sub.replay && r.sub.joinedAt == st.sub.joinedAt
            && (Waiting(r.sub) ==> Waiting(st.sub))
  {
    hide InitialUpdates, MempoolView.SnapshotOf, Covered;
  }

  lemma QuietKeeps(setup: Setup, sys: System, sub: Subscriber)
    requires Held(setup.filter, sys) && Sound(setup, sys) && sys.sub.sent <= sub.sent
    requires HasJoined(sub) <==> HasJoined(sys.sub)
    requires sub.request == sys.sub.request && sub.replay == sys.sub.replay && sub.joinedAt == sys.sub.joinedAt
    requires Waiting(sub) ==> Waiting(sys.sub)
    ensures Held(setup.filter, sys.(sub := sub)) && Sound(setup, sys.(sub := sub))
  {
    hide FromLog, HasAnchor, HasHeight, BlockHeight, Heard;
    assert forall k :: 0 <= k < sys.handled ==> sub.sent[k] == sys.sub.sent[k];
  }

  // ---------- the snapshot ----------

  /** What a successful snapshot says about the anchor or the height it started from. */
  lemma JoinAccepts(cfg: Config, st: State, now: nat)
    requires ServerInv(cfg, st.server) && DoJoin(cfg, st, now).sub.phase == Joined
    ensures var r := DoJoin(cfg, st, now);
            && r.server.log == st.server.log && r.server.history == st.server.history
            && r.sub.joinedAt == |st.server.log| && r.sub.sent == st.sub.sent && r.sub.request == st.sub.request
            && IsSuffix(r.sub.window, st.server.history)
            && (forall f :: ResumeHeight(st.sub.request) == Some(f) ==>
                  SnapshotOf(r.sub.window, Some(f)).Ok? && r.sub.replay == Replayed(r.sub.window, f))
            && (st.sub.request.resume.Some? ==> Verified(st.server.buckets, st.sub.request.resume.value).Ok?)
  {
    hide LogInv, MempoolInv, HistoryInv, IsSuffix, DoJoin, Kept, SnapshotOf, Replayed, Verified, ReplayHeight,
      ResumeHeight, Refusal;
    JoinOutcome(cfg, st, now);
    AcceptedHeight(st.server, st.sub.request);
    KeptSuffix(st.server.buckets, st.server.history, cfg.limits, now);
    if ResumeHeight(st.sub.request).Some? {
      SnapshotReplays(DoJoin(cfg, st, now).sub.window, ResumeHeight(st.sub.request));
    }
  }

  /** A verified checkpoint was finalized somewhere in the log. */
  lemma VerifiedInLog(
    log: seq<SubscribeUpdate>, history: seq<Bucket>, buckets: seq<Bucket>, checkpoint: ResumeCheckpoint)
    returns (a: nat)
    requires AllSpan(log, history) && IsSuffix(buckets, history) && Verified(buckets, checkpoint).Ok?
    ensures a < |log| && Finalizes(log[a]) == Some((checkpoint.finalizedHeight, checkpoint.finalizedHash))
  {
    var b :| b in buckets && Proves(b, checkpoint);
    var m :| 0 <= m < |buckets| && buckets[m] == b;
    assert history[|history| - |buckets| + m] == b;
    a := ProofInLog(log, b, checkpoint);
  }

  lemma ProofInLog(log: seq<SubscribeUpdate>, b: Bucket, checkpoint: ResumeCheckpoint) returns (a: nat)
    requires Spans(log, b) && Proves(b, checkpoint)
    ensures a < |log| && Finalizes(log[a]) == Some((checkpoint.finalizedHeight, checkpoint.finalizedHash))
  {
    var e :| e in b.updates && IsFinalizedBlock(e.message, checkpoint.finalizedHash);
    var k :| 0 <= k < |b.updates| && b.updates[k] == e;
    a := Start(b) + k;
    assert Messages(b.updates)[k] == log[a];
  }

  lemma JoinHasAnchor(setup: Setup, sys: System, now: nat)
    requires ServerInv(setup.config, sys.server) && Sound(setup, sys) && sys.sub.phase == Listening
    requires DoJoin(setup.config, State(sys.server, sys.sub), now).sub.phase == Joined
    requires sys.base.None? && sys.client.chain.finalized.Some?
    ensures HasAnchor(setup.filter, sys.server.log, |sys.server.log|, sys.received, sys.client.chain.finalized.value)
  {
    var s := sys.server;
    JoinAccepts(setup.config, State(s, sys.sub), now);
    hide DoJoin, LogInv, MempoolInv, HistoryInv, IsSuffix, Finalizes;
    var a := VerifiedInLog(s.log, s.history, s.buckets, sys.sub.request.resume.value);
    assert CompleteTo(setup.filter, s.log, |s.log|, sys.received, a);
  }

  lemma AnchoredReplayEnters(
    ef: EventFilter, log: seq<SubscribeUpdate>, history: seq<Bucket>, window: seq<Bucket>, base: nat,
      received: seq<SubscribeUpdate>, anchor: BlockKey)
    requires HistoryInv(log, history) && IsSuffix(window, history) && ChainRule(history)
    requires HasAnchor(ef, log, base, received, anchor) && SnapshotOf(window, Some(anchor.0)).Ok?
    ensures forall i :: base <= i < |log| && BlockHeight(log[i]).Some?
             ==> Got(ef, received, log[i]) || log[i] in Replayed(window, anchor.0)
  {
    hide HistoryInv, IsSuffix, ChainRule, SnapshotOf, Replayed;
    var a: nat :| CompleteTo(ef, log, base, received, a) && Finalizes(log[a]) == Some(anchor);
    AnchorIsLastFinalized(EMPTY, log[a]);
    hide Observe, Finalizes, BlockHeight;
    forall i | base <= i < |log| && BlockHeight(log[i]).Some?
      ensures Got(ef, received, log[i]) || log[i] in Replayed(window, anchor.0) {
      AnchoredSnapshotComplete(log, history, window, a, anchor.0, i);
    }
  }

  lemma HeightReplayEnters(
    ef: EventFilter, log: seq<SubscribeUpdate>, history: seq<Bucket>, window: seq<Bucket>, base: nat,
      received: seq<SubscribeUpdate>, h: nat, buffer: nat)
    requires HistoryInv(log, history) && IsSuffix(window, history) && HeightRule(history, buffer)
    requires HasHeight(ef, log, base, received, h) && SnapshotOf(window, Some(SatSub(h, buffer))).Ok?
    ensures forall i :: base <= i < |log| && BlockHeight(log[i]).Some?
             ==> Got(ef, received, log[i]) || log[i] in Replayed(window, SatSub(h, buffer))
  {
    hide HistoryInv, IsSuffix, HeightRule, SnapshotOf, Replayed, BlockHeight, SatSub;
    var a: nat :| CompleteTo(ef, log, base, received, a) && BlockHeight(log[a]) == Some(h);
    forall i | base <= i < |log| && BlockHeight(log[i]).Some?
      ensures Got(ef, received, log[i]) || log[i] in Replayed(window, SatSub(h, buffer)) {
      HeightSnapshotComplete(log, history, window, a, h, buffer, i);
    }
  }

  /** Up to the snapshot of a resumed connection, by anchor or by height, nothing is lost. */
  lemma JoinEnters(setup: Setup, sys: System, now: nat)
    requires ServerInv(setup.config, sys.server) && Rules(setup, sys) && Sound(setup, sys)
             && sys.sub.phase == Listening
    requires DoJoin(setup.config, State(sys.server, sys.sub), now).sub.phase == Joined
    requires sys.base.Some?
    ensures Entered(setup.filter, sys.server.log, sys.base.value, sys.received,
                    DoJoin(setup.config, State(sys.server, sys.sub), now).sub)
  {
    var s, anchor := sys.server, sys.client.chain.finalized;
    JoinAccepts(setup.config, State(s, sys.sub), now);
    var r := DoJoin(setup.config, State(s, sys.sub), now).sub;
    hide DoJoin, LogInv, MempoolInv, HistoryInv, IsSuffix, ChainRule, HeightRule, SnapshotOf, Verified, Replayed,
      HasAnchor, HasHeight, Heard, BlockHeight, SatSub;
    if anchor.Some? {
      AnchoredReplayEnters(setup.filter, s.log, s.history, r.window, sys.base.value, sys.received, anchor.value);
    } else {
      HeightReplayEnters(setup.filter, s.log, s.history, r.window, sys.base.value, sys.received,
        sys.client.checkpoint.value, setup.heightBuffer);
    }
  }

  // ---------- handling an update ----------

  lemma InSequenceAcross(
    a: seq<SubscribeUpdate>, b: seq<SubscribeUpdate>, u: SubscribeUpdate, v: SubscribeUpdate, lo: int, hi: int)
    requires InSequence(a + b, lo, hi) && u in a && v in b
    ensures u.sequence < v.sequence
  {
    var i :| 0 <= i < |a| && a[i] == u;
    var j :| 0 <= j < |b| && b[j] == v;
    assert (a + b)[i] == u && (a + b)[|a| + j] == v;
  }

  lemma InSequencePositions(us: seq<SubscribeUpdate>, p: nat, q: nat, lo: int, hi: int)
    requires InSequence(BlockPart(us), lo, hi) && p < q < |us| && BlockHeight(us[p]).Some? && BlockHeight(us[q]).Some?
    ensures us[p].sequence < us[q].sequence
  {
    hide BlockHeight, BlockPart, InSequence;
    var left, right := us[..q], us[q..];
    assert us == left + right && left[p] == us[p] && right[0] == us[q];
    BlockPartAppend(left, right);
    BlockPartMembers(left, us[p]);
    BlockPartMembers(right, us[q]);
    InSequenceAcross(BlockPart(left), BlockPart(right), us[p], us[q], lo, hi);
  }

  /** Every block-scoped update that this connection has passed by was received before or is delivered by it. */
  lemma PassedByOutgoing(
    ef: EventFilter, server: Server, sub: Subscriber, base: nat, received: seq<SubscribeUpdate>, k: nat)
    requires LogInv(server) && |server.ring| <= |server.log| && HasFollowed(sub) && SubInv(server, sub)
    requires Entered(ef, server.log, base, received, sub)
    requires base <= k < Reached(sub) && k < |server.log| && BlockHeight(server.log[k]).Some?
    ensures Got(ef, received, server.log[k]) || server.log[k] in Outgoing(sub)
  {
    FirstLiveBound(server, sub);
    OutgoingMembers(server, sub, server.log[k]);
    hide LogInv, WindowAt, BlockPart, Outgoing, BlockHeight, Reached, FirstLive, FollowInv, ReplayPart, Watermark;
  }

  /** Of those delivered, the ones below an update that is about to be handled were handled already. */
  lemma EarlierHandled(server: Server, sub: Subscriber, handled: nat, v: SubscribeUpdate)
    requires LogInv(server) && |server.ring| <= |server.log| && HasFollowed(sub) && SubInv(server, sub)
    requires handled < |sub.sent| && BlockHeight(sub.sent[handled]).Some?
    requires v in Outgoing(sub) && BlockHeight(v).Some? && v.sequence < sub.sent[handled].sequence
    ensures v in sub.sent[..handled]
  {
    hide LogInv, SubInv, BlockPart, BlockHeight, Reached, InSequence;
    OutgoingAscends(server, sub);
    var all := Outgoing(sub);
    var p :| 0 <= p < |all| && all[p] == v;
    assert all[handled] == sub.sent[handled];
    if p > handled {
      InSequencePositions(all, handled, p, 0, Reached(sub));
    }
    assert sub.sent[..handled][p] == v;
  }

  /** A block-scoped update delivered is in the log, at the position its number says, within reach. */
  lemma OutgoingFromLog(server: Server, sub: Subscriber, u: SubscribeUpdate)
    requires LogInv(server) && |server.ring| <= |server.log| && HasFollowed(sub) && SubInv(server, sub)
    requires u in Outgoing(sub) && BlockHeight(u).Some?
    ensures 0 < u.sequence <= Reached(sub) <= |server.log| && server.log[u.sequence - 1] == u
  {
    hide LogInv, WindowAt, FollowInv, BlockHeight, BlockPart, Reached, FirstLive, Outgoing, ReplayPart, Revised,
      Watermark;
    OutgoingAscends(server, sub);
    OutgoingMembers(server, sub, u);
    AllRevised(server);
    if u in ReplayPart(sub.request, sub.window) {
      ReplayFromLog(server, sub, u);
    }
    BlockPartMembers(Outgoing(sub), u);
  }

  lemma ReplayFromLog(server: Server, sub: Subscriber, u: SubscribeUpdate)
    requires JoinInv(server, sub) && u in ReplayPart(sub.request, sub.window)
    ensures u in server.log
  {
    var from := ReplayHeight(sub.request).value.value;
    Window.InReplayed(sub.window, from, u);
    hide Replayed;
    var b :| b in sub.window && b.height >= from && u in Messages(b.updates);
    assert Spans(server.log, b);
  }

  lemma SentMeansFollowed(server: Server, sub: Subscriber)
    requires |server.ring| <= |server.log| && SubInv(server, sub) && sub.sent != []
    ensures HasFollowed(sub)
  {
    hide JoinInv, FollowInv;
  }

  lemma NotControl(u: SubscribeUpdate)
    ensures BlockHeight(u).Some? ==> !IsControl(u)
    ensures IsControl(u) ==> Finalizes(u).None?
  {
  }

  lemma OneMoreHeld(ef: EventFilter, sys: System, u: SubscribeUpdate)
    requires Held(ef, sys) && sys.handled < |sys.sub.sent| && u == sys.sub.sent[sys.handled]
    requires BlockHeight(u).Some? ==> u in sys.server.log
    ensures Held(ef, sys.(handled := sys.handled + 1, received := sys.received + LetThrough(ef, u)))
  {
    NotControl(u);
    if Matched(ef, u).Some? {
      DeliveredKeeps(ef, u);
    }
    hide BlockHeight, Finalizes, Matched, Delivered, IsControl, DeliveredOf;
    var r := sys.received + LetThrough(ef, u);
    forall k | 0 <= k < sys.handled + 1 ensures Got(ef, r, sys.sub.sent[k]) {
      if k < sys.handled {
        assert Got(ef, sys.received, sys.sub.sent[k]);
      } else if Owed(ef, u) {
        assert Delivered(ef, u) in LetThrough(ef, u);
      }
    }
    forall v | v in r && BlockHeight(v).Some? ensures DeliveredOf(ef, sys.server.log, v) {
      if v !in sys.received {
        assert v in LetThrough(ef, u);
        FromOne(ef, sys.server.log, u, v);
      }
    }
  }

  lemma FromOne(ef: EventFilter, log: seq<SubscribeUpdate>, u: SubscribeUpdate, v: SubscribeUpdate)
    requires v in LetThrough(ef, u) && BlockHeight(v).Some? && (BlockHeight(u).Some? ==> u in log)
    ensures DeliveredOf(ef, log, v)
  {
    NotControl(u);
    if Matched(ef, u).Some? {
      DeliveredKeeps(ef, u);
    }
    hide BlockHeight, Finalizes, Matched, Delivered, IsControl;
    assert Owed(ef, u) && v == Delivered(ef, u);
  }

  lemma HandleKeepsHeld(ef: EventFilter, sys: System)
    requires LogInv(sys.server) && |sys.server.ring| <= |sys.server.log| && SubInv(sys.server, sys.sub) && Held(ef, sys)
    requires sys.handled < |sys.sub.sent|
    ensures HasFollowed(sys.sub)
    ensures var u := sys.sub.sent[sys.handled];
            Held(ef, sys.(handled := sys.handled + 1, received := sys.received + LetThrough(ef, u)))
  {
    hide LogInv, SubInv, BlockHeight, Reached, Held, LetThrough;
    var u := sys.sub.sent[sys.handled];
    SentMeansFollowed(sys.server, sys.sub);
    assert u in Outgoing(sys.sub);
    if BlockHeight(u).Some? {
      OutgoingFromLog(sys.server, sys.sub, u);
    }
    OneMoreHeld(ef, sys, u);
  }

  /** What is below an update about to be handled has been received. */
  lemma BelowReceived(ef: EventFilter, sys: System, base: nat, i: nat)
    requires LogInv(sys.server) && |sys.server.ring| <= |sys.server.log| && SubInv(sys.server, sys.sub)
             && HasFollowed(sys.sub)
    requires Held(ef, sys) && sys.handled < |sys.sub.sent| && BlockHeight(sys.sub.sent[sys.handled]).Some?
    requires Entered(ef, sys.server.log, base, sys.received, sys.sub)
    requires base <= i < |sys.server.log| && i < Reached(sys.sub) && BlockHeight(sys.server.log[i]).Some?
    requires sys.server.log[i].sequence < sys.sub.sent[sys.handled].sequence
    ensures Got(ef, sys.received, sys.server.log[i])
  {
    hide LogInv, SubInv, BlockHeight, Reached, FirstLive, Entered, FromLog, Outgoing, Got;
    PassedByOutgoing(ef, sys.server, sys.sub, base, sys.received, i);
    if sys.server.log[i] in Outgoing(sys.sub) {
      EarlierHandled(sys.server, sys.sub, sys.handled, sys.server.log[i]);
    }
  }

  /** When a block-scoped update goes through to the client, nothing at or below it is missing; so nothing is missing
      up to the anchor that it moves to, if it moves, and up to the height that it remembers. */
  lemma HandleCompletes(ef: EventFilter, sys: System, base: nat, u: SubscribeUpdate)
    requires LogInv(sys.server) && |sys.server.ring| <= |sys.server.log| && SubInv(sys.server, sys.sub)
             && HasFollowed(sys.sub)
    requires Held(ef, sys) && sys.handled < |sys.sub.sent| && u == sys.sub.sent[sys.handled]
    requires Entered(ef, sys.server.log, base, sys.received, sys.sub) && Owed(ef, u)
    ensures var received := sys.received + [Delivered(ef, u)];
            && HasHeight(ef, sys.server.log, base, received, BlockHeight(u).value)
            && (Finalizes(u).Some? ==> HasAnchor(ef, sys.server.log, base, received, Finalizes(u).value))
  {
    hide LogInv, SubInv, Finalizes, Observe, BlockHeight, Reached, FirstLive, Revised, Entered, FromLog, Matched,
      Delivered;
    var log, sub, received := sys.server.log, sys.sub, sys.received + [Delivered(ef, u)];
    assert u in Outgoing(sub);
    hide Outgoing;
    OutgoingFromLog(sys.server, sub, u);
    AllRevised(sys.server);
    var a := u.sequence - 1;
    forall i | base <= i <= a && BlockHeight(log[i]).Some? ensures Got(ef, received, log[i]) {
      if i < a {
        BelowReceived(ef, sys, base, i);
      } else {
        assert Delivered(ef, u) in received;
      }
    }
    assert CompleteTo(ef, log, base, received, a);
  }

  lemma HandleKeeps(setup: Setup, sys: System)
    requires LogInv(sys.server) && |sys.server.ring| <= |sys.server.log| && SubInv(sys.server, sys.sub)
    requires Held(setup.filter, sys) && Sound(setup, sys) && sys.handled < |sys.sub.sent|
    ensures var message := Through(setup.filter, sys.sub.sent[sys.handled]);
            var r := if message.None? then sys.(handled := sys.handled + 1)
                     else sys.(client := Handled(sys.client, message.value), handled := sys.handled + 1,
                               received := sys.received + [message.value]);
            Held(setup.filter, r) && Sound(setup, r)
  {
    var u := sys.sub.sent[sys.handled];
    HandleKeepsHeld(setup.filter, sys);
    assert sys.received + [] == sys.received;
    if Through(setup.filter, u).Some? {
      HandleKeepsSound(setup, sys, u);
    }
    hide LogInv, SubInv, Finalizes, Handled, HasAnchor, HasHeight, Heard, Entered, FromLog, Matched, Delivered,
      IsControl;
  }

  lemma HandleKeepsSound(setup: Setup, sys: System, u: SubscribeUpdate)
    requires LogInv(sys.server) && |sys.server.ring| <= |sys.server.log| && SubInv(sys.server, sys.sub)
             && HasFollowed(sys.sub)
    requires Held(setup.filter, sys) && Sound(setup, sys) && sys.handled < |sys.sub.sent|
    requires u == sys.sub.sent[sys.handled] && Through(setup.filter, u).Some?
    ensures var v := Through(setup.filter, u).value;
            Sound(setup, sys.(client := Handled(sys.client, v), handled := sys.handled + 1, received
              := sys.received + [v]))
  {
    var ef, log := setup.filter, sys.server.log;
    var v := Through(ef, u).value;
    ThroughKeeps(ef, u);
    HandledAnchor(sys.client, v);
    hide LogInv, SubInv, Finalizes, Handled, HasAnchor, HasHeight, Entered, FromLog, Through, Matched, Delivered,
      BlockHeight;
    if sys.base.Some? {
      CompletenessOutlives(ef, log, log, sys.base.value, sys.received, sys.received + [v]);
      EntryOutlives(ef, log, log, sys.base.value, sys.received, sys.received + [v], sys.sub);
      if BlockHeight(v).Some? {
        HandleCompletes(ef, sys, sys.base.value, u);
      }
    }
  }

  /** What goes through is about what came in, and it is the projection if that is block-scoped. */
  lemma ThroughKeeps(ef: EventFilter, u: SubscribeUpdate)
    requires Through(ef, u).Some?
    ensures var v := Through(ef, u).value;
            && BlockHeight(v) == BlockHeight(u) && Finalizes(v) == Finalizes(u)
            && (BlockHeight(v).Some? ==> Owed(ef, u) && v == Delivered(ef, u))
            && (BlockHeight(v).None? ==> Finalizes(v).None?)
  {
    NotControl(u);
    AnchorIsLastFinalized(EMPTY, u);
    if Matched(ef, u).Some? {
      DeliveredKeeps(ef, u);
    }
    hide Matched, Delivered, Observe;
  }

  lemma HandledAnchor(c: Client, u: SubscribeUpdate)
    ensures Handled(c, u).chain.finalized == if Finalizes(u).Some? then Finalizes(u) else c.chain.finalized
    ensures Handled(c, u).checkpoint == if BlockHeight(u).Some? then BlockHeight(u) else c.checkpoint
  {
    AnchorIsLastFinalized(c.chain, u);
    hide Observe;
  }

  lemma HandledOneMore(c: Client, us: seq<SubscribeUpdate>, u: SubscribeUpdate)
    ensures HandledAll(c, us + [u]) == Handled(HandledAll(c, us), u)
  {
    assert (us + [u])[..|us|] == us;
  }

  // ---------- every move keeps the invariant ----------

  lemma NetKeeps(setup: Setup, sys: System, step: Step)
    requires SysInv(setup, sys) && Allowed(setup, sys, Net(step)) && Rules(setup, sys)
    ensures SysInv(setup, After(setup, sys, Net(step)))
  {
    var st := State(sys.server, sys.sub);
    StepKeeps(setup.config, st, step);
    hide Inv, HandledAll, Rules, FromLog;
    if IsPublisherStep(step) {
      PublisherExtends(setup.config, st, step);
      hide Do;
      GrowthKeeps(setup, sys, After(setup, sys, Net(step)).server);
    } else if step.Join? {
      JoinKeepsSound(setup, sys, step.now);
    } else {
      QuietStep(setup.config, st, step);
      hide Do;
      QuietKeeps(setup, sys, After(setup, sys, Net(step)).sub);
    }
  }

  lemma JoinKeepsSound(setup: Setup, sys: System, now: nat)
    requires SysInv(setup, sys) && Allowed(setup, sys, Net(Join(now))) && Rules(setup, sys)
    ensures var r := After(setup, sys, Net(Join(now))); Held(setup.filter, r) && Sound(setup, r)
  {
    hide LogInv, MempoolInv, WindowInv, SubInv, DoJoin, DoEvict, HandledAll, Rules, FromLog, Complete, Resuming,
      Entered, AnchorOf;
    var st := State(sys.server, sys.sub);
    var r := DoJoin(setup.config, st, now);
    JoinLeaves(setup.config, st, now);
    JoinKeepsLog(setup.config, st, now);
    HeldElsewhere(setup.filter, sys, r.server, r.sub);
    if r.sub.phase == Joined {
      JoinedSound(setup, sys, now);
    } else {
      RefusedSound(setup, sys, r.server, r.sub);
    }
  }

  lemma HeldElsewhere(ef: EventFilter, sys: System, server: Server, sub: Subscriber)
    requires Held(ef, sys) && server.log == sys.server.log && sub.sent == sys.sub.sent
    ensures forall base :: Held(ef, sys.(server := server, sub := sub, base := base))
  {
    hide FromLog;
  }

  lemma RefusedSound(setup: Setup, sys: System, server: Server, sub: Subscriber)
    requires Sound(setup, sys) && server.log == sys.server.log && sub.phase.Refused?
    ensures Sound(setup, sys.(server := server, sub := sub))
  {
    hide HasAnchor, HasHeight, Heard, Entered;
  }

  lemma JoinKeepsLog(cfg: Config, st: State, now: nat)
    ensures DoJoin(cfg, st, now).server.log == st.server.log && DoJoin(cfg, st, now).sub.request == st.sub.request
  {
    hide Kept, SnapshotOf, Refusal;
  }

  lemma JoinedSound(setup: Setup, sys: System, now: nat)
    requires ServerInv(setup.config, sys.server) && Rules(setup, sys) && Sound(setup, sys)
             && sys.sub.phase == Listening
    requires DoJoin(setup.config, State(sys.server, sys.sub), now).sub.phase == Joined
    ensures var r := DoJoin(setup.config, State(sys.server, sys.sub), now);
            Sound(setup, sys.(server := r.server, sub := r.sub, base := if sys.base.None?
              then Some(r.sub.joinedAt) else sys.base))
  {
    var st := State(sys.server, sys.sub);
    hide ServerInv, DoJoin, Rules, HasAnchor, HasHeight, SnapshotOf, Verified, Replayed, IsSuffix, AnchorOf,
      BlockHeight, ResumeHeight, Resuming;
    JoinAccepts(setup.config, st, now);
    JoinKeepsLog(setup.config, st, now);
    if sys.base.None? {
      if sys.client.chain.finalized.Some? {
        JoinHasAnchor(setup, sys, now);
      }
    } else {
      JoinEnters(setup, sys, now);
    }
  }

  lemma FreshKeeps(server: Server, request: SubscribeRequest)
    requires |server.ring| <= |server.log|
    ensures SubInv(server, FreshSubscriber(request))
  {
  }

  /** A reconnect asks for the anchor, or without one for the last height less the buffer. */
  lemma NextRequestResumes(setup: Setup, c: Client)
    ensures AnchorOf(NextRequest(setup, c).resume) == c.chain.finalized
    ensures c.chain.finalized.None? && c.checkpoint.Some? ==>
              NextRequest(setup, c).fromHeight == Some(SatSub(c.checkpoint.value, setup.heightBuffer))
  {
    hide PartialKeys, Backwards, SatSub;
  }

  /** A reconnect asks for the same filter. */
  lemma NextRequestKeepsFilter(setup: Setup, c: Client, canon: Canon)
    requires Represents(setup.filter, setup.request, canon)
    ensures Represents(setup.filter, NextRequest(setup, c), canon)
  {
    hide Compiles, UsesAddresses, Names, PartialKeys, Backwards;
    var next := NextRequest(setup, c);
    assert next.eventTypes == setup.request.eventTypes && next.filters == setup.request.filters;
  }

  lemma ResubscribeKeeps(setup: Setup, sys: System)
    requires SysInv(setup, sys) && sys.link.Down?
    ensures SysInv(setup, After(setup, sys, Resubscribe))
  {
    hide ServerInv, SubInv, HandledAll, FromLog, Sound, FreshSubscriber, NextRequest, Handled, Heard, Do, Enabled;
    FreshKeeps(sys.server, NextRequest(setup, sys.client));
    ResubscribedSound(setup, sys);
  }

  lemma ResubscribedSound(setup: Setup, sys: System)
    requires Sound(setup, sys)
    ensures Sound(setup, Resubscribed(setup, sys))
  {
    NextRequestResumes(setup, sys.client);
    hide NextRequest, AnchorOf, HasAnchor, HasHeight, Heard, Entered, SatSub;
  }

  lemma HandleMoveKeeps(setup: Setup, sys: System)
    requires SysInv(setup, sys) && Allowed(setup, sys, Handle)
    ensures SysInv(setup, After(setup, sys, Handle))
  {
    hide ServerInv, SubInv, HandledAll, Handled, Held, Sound, Through, NewClient;
    HandleApplies(setup, sys);
    var message := Through(setup.filter, sys.sub.sent[sys.handled]);
    if message.Some? {
      HandledOneMore(NewClient(setup), sys.received, message.value);
    }
  }

  lemma HandleApplies(setup: Setup, sys: System)
    requires Inv(setup.config, State(sys.server, sys.sub)) && Held(setup.filter, sys) && Sound(setup, sys)
    requires Allowed(setup, sys, Handle)
    ensures Held(setup.filter, After(setup, sys, Handle)) && Sound(setup, After(setup, sys, Handle))
  {
    hide LogInv, MempoolInv, WindowInv, SubInv, Held, Sound, Through, Handled, Do, Enabled, Resubscribed;
    HandleKeeps(setup, sys);
  }

  lemma LinkKeeps(setup: Setup, sys: System, link: Link)
    requires SysInv(setup, sys)
    ensures SysInv(setup, sys.(link := link))
  {
    hide Inv, HandledAll, FromLog, HasAnchor, HasHeight, Heard, Entered, NewClient;
  }

  /** While the chain obeys the rules that the reconnects ask for, no move breaks the invariant. */
  lemma MoveKeeps(setup: Setup, sys: System, move: Move)
    requires SysInv(setup, sys) && Allowed(setup, sys, move) && Rules(setup, sys)
    ensures SysInv(setup, After(setup, sys, move))
  {
    hide SysInv, Rules, Do, Enabled, Resubscribed, Handled, Through;
    match move {
      case Net(step) => NetKeeps(setup, sys, step);
      case Handle => HandleMoveKeeps(setup, sys);
      case Disconnect => LinkKeeps(setup, sys, Down);
      case Resubscribe => ResubscribeKeeps(setup, sys);
      case GiveUp => LinkKeeps(setup, sys, Stopped(sys.sub.phase.code));
    }
  }

  lemma InitiallyKept(setup: Setup)
    ensures SysInv(setup, Initially(setup))
  {
    InitialInv(setup.config, setup.request);
    hide Inv;
  }

  lemma MoveExtends(setup: Setup, sys: System, move: Move)
    requires Allowed(setup, sys, move)
    ensures sys.server.history <= After(setup, sys, move).server.history
    ensures sys.byAnchor ==> After(setup, sys, move).byAnchor
    ensures sys.byHeight ==> After(setup, sys, move).byHeight
  {
    if move.Net? {
      var st := State(sys.server, sys.sub);
      if IsPublisherStep(move.step) {
        PublisherExtends(setup.config, st, move.step);
      } else if move.step.Join? {
        JoinLeaves(setup.config, st, move.step.now);
        hide Kept, SnapshotOf;
      } else {
        QuietStep(setup.config, st, move.step);
      }
      hide Do;
    }
  }

  lemma RulesEarlier(setup: Setup, earlier: System, later: System)
    requires earlier.server.history <= later.server.history && Rules(setup, later)
    requires (earlier.byAnchor ==> later.byAnchor) && (earlier.byHeight ==> later.byHeight)
    ensures Rules(setup, earlier)
  {
    hide Finalizing, SatSub;
    var h, h' := earlier.server.history, later.server.history;
    assert forall j :: 0 <= j < |h| ==> h[j] == h'[j];
  }

  /** The invariant holds in every state of every story whose history so far obeys the rules. */
  lemma {:induction false} StoryKeeps(setup: Setup, states: seq<System>, moves: seq<Move>, i: nat)
    requires IsStory(setup, states, moves) && i <= |moves| && Rules(setup, states[i])
    ensures SysInv(setup, states[i])
  {
    hide SysInv, Allowed, After, Rules;
    if i == 0 {
      InitiallyKept(setup);
    } else {
      var before, move := states[i - 1], moves[i - 1];
      assert Allowed(setup, before, move) && states[i - 1 + 1] == After(setup, before, move);
      MoveExtends(setup, before, move);
      RulesEarlier(setup, before, states[i]);
      StoryKeeps(setup, states, moves, i - 1);
      MoveKeeps(setup, before, move);
    }
  }
}
