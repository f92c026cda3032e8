// The publisher and one subscriber as a machine of interleaved steps.
//
// The publisher handles one event at a time: it numbers and, for a mempool event, stamps and applies the batch
// under the mempool lock; pushes the batch to the replay buffer at once; sends its updates to the live ring one
// by one; and lets the lock go. The subscriber opens its receiver; takes the replay snapshot; takes the mempool
// snapshot; hands on the initial updates; and then receives from the ring. Other readers of the replay buffer
// appear as evictions at any time.
module Protocol {
  import opened Proto
  import opened Replay
  import opened Events
  import opened Handshake
  import MempoolView

  /** The replay limits, the slots of the live ring, and the encoded length of a message. */
  datatype Config = Config(limits: Limits, capacity: nat, measure: SubscribeUpdate -> nat)

  datatype Publisher =
    | Idle
    | Ready(batch: seq<SubscribeUpdate>, locked: bool)
    | Sending(rest: seq<SubscribeUpdate>, locked: bool)

  /** `log` and `history` record everything ever pushed; `ring` is everything ever sent to the live channel. */
  datatype Server = Server(
    nextSequence: nat, log: seq<SubscribeUpdate>, history: seq<Bucket>, buckets: seq<Bucket>,
    ring: seq<SubscribeUpdate>, mempool: MempoolView.State, publisher: Publisher, clock: nat)

  datatype Phase = Fresh | Listening | Joined | Following | Lagged | Refused(code: Code)

  /** `sent` holds the updates handed to the subscription's filter, in order; for a catch-all subscription they
      are what it is sent. The record also keeps, for the statements about it, the ring length at which the
      receiver was opened, the log lengths at the two snapshots, the window and the initial updates. */
  datatype Subscriber = Subscriber(
    request: SubscribeRequest, phase: Phase, cursor: nat, watermark: nat, mempoolMark: Option<nat>,
    replay: seq<SubscribeUpdate>, queue: seq<SubscribeUpdate>, sent: seq<SubscribeUpdate>,
    openedAt: nat, joinedAt: nat, mempoolAt: nat, window: seq<Bucket>, initial: seq<SubscribeUpdate>)

  datatype State = State(server: Server, sub: Subscriber)

  datatype Step =
    | Begin(batch: seq<SubscribeUpdate>)
    | Push(now: nat)
    | Send
    | Finish
    | EvictByReader(now: nat)
    | Open
    | Join(now: nat)
    | Follow
    | Emit
    | Receive
    | FallBehind

  // ---------- the publisher ----------

  function NumberedFrom(batch: seq<SubscribeUpdate>, last: nat): (r: seq<SubscribeUpdate>)
    ensures |r| == |batch|
    ensures forall i :: 0 <= i < |r| ==> r[i] == batch[i].(sequence := last + i + 1)
  {
    seq(|batch|, i requires 0 <= i < |batch| => batch[i].(sequence := last + i + 1))
  }

  /** Assigns consecutive sequence numbers, as the event hook does before it publishes. When the numbers run out it
      gives up, with the last one used. */
  method AssignSequences(batch: seq<SubscribeUpdate>, nextSequence: nat)
    returns (numbered: Option<seq<SubscribeUpdate>>, nextSequence': nat)
    requires nextSequence <= U64_MAX
    ensures numbered.Some? <==> nextSequence + |batch| <= U64_MAX
    ensures numbered.Some? ==> numbered.value == NumberedFrom(batch, nextSequence)
    ensures numbered.Some? ==> nextSequence' == nextSequence + |batch|
    ensures numbered.None? ==> nextSequence' == U64_MAX
  {
    var updates := [];
    nextSequence' := nextSequence;
    for i := 0 to |batch|
      invariant nextSequence' == nextSequence + i <= U64_MAX
      invariant updates == NumberedFrom(batch[..i], nextSequence)
    {
      if nextSequence' == U64_MAX {
        return None, nextSequence';
      }
      nextSequence' := nextSequence' + 1;
      updates := updates + [batch[i].(sequence := nextSequence')];
    }
    assert batch[..|batch|] == batch;
    numbered := Some(updates);
  }

  function Stamped(batch: seq<SubscribeUpdate>, revision: nat): (r: seq<SubscribeUpdate>)
    ensures |r| == |batch|
    ensures forall i :: 0 <= i < |r| ==>
              r[i] == if IsMempoolUpdate(batch[i]) then batch[i].(mempoolRevision := Some(revision)) else batch[i]
  {
    seq(|batch|, i requires 0 <= i < |batch| =>
      if IsMempoolUpdate(batch[i]) then batch[i].(mempoolRevision := Some(revision)) else batch[i])
  }

  predicate IsMempoolBatch(batch: seq<SubscribeUpdate>) {
    exists u :: u in batch && IsMempoolUpdate(u)
  }

  function Entries(batch: seq<SubscribeUpdate>, measure: SubscribeUpdate -> nat): (r: seq<Entry>) {
    seq(|batch|, i requires 0 <= i < |batch| => Entry(batch[i], measure(batch[i])))
  }

  predicate HoldsMempoolLock(p: Publisher) {
    !p.Idle? && p.locked
  }

  function DoBegin(s: Server, batch: seq<SubscribeUpdate>): (r: Server) {
    var numbered := NumberedFrom(batch, s.nextSequence);
    if IsMempoolBatch(numbered) then
      var bumped := s.mempool.(revision := s.mempool.revision + 1);
      var stamped := Stamped(numbered, bumped.revision);
      s.(nextSequence := s.nextSequence + |batch|, mempool := MempoolView.AppliedAll(bumped, stamped),
         publisher := Ready(stamped, true))
    else
      s.(nextSequence := s.nextSequence + |batch|, publisher := Ready(numbered, false))
  }

  function DoPush(cfg: Config, s: Server, now: nat): (r: Server)
    requires s.publisher.Ready?
  {
    var batch := s.publisher.batch;
    var entries := Entries(batch, cfg.measure);
    s.(log := s.log + batch,
       history := s.history + BucketOf(entries, now),
       buckets := Pushed(s.buckets, cfg.limits, entries, now),
       publisher := Sending(batch, s.publisher.locked), clock := now)
  }

  function DoSend(s: Server): (r: Server)
    requires s.publisher.Sending? && s.publisher.rest != []
  {
    s.(ring := s.ring + [s.publisher.rest[0]], publisher := Sending(s.publisher.rest[1..], s.publisher.locked))
  }

  function DoEvict(cfg: Config, s: Server, now: nat): (r: Server) {
    s.(buckets := Kept(s.buckets, cfg.limits, now), clock := now)
  }

  // ---------- the subscriber ----------

  function FreshSubscriber(request: SubscribeRequest): (r: Subscriber) {
    Subscriber(request, Fresh, 0, 0, None, [], [], [], 0, 0, 0, [], [])
  }

  /** Why a request is refused, before any eviction; the checkpoint is verified first. */
  function Refusal(s: Server, request: SubscribeRequest): (r: Option<Code>) {
    if ReplayHeight(request).Err? then
      Some(ReplayHeight(request).error)
    else if request.resume.Some? && Replay.Verified(s.buckets, request.resume.value).Err? then
      Some(Replay.Verified(s.buckets, request.resume.value).error)
    else
      None
  }

  /** The replay snapshot, under the replay lock: verification, eviction, range check. */
  function DoJoin(cfg: Config, st: State, now: nat): (r: State) {
    var s, sub := st.server, st.sub;
    if Refusal(s, sub.request).Some? then
      State(s, sub.(phase := Refused(Refusal(s, sub.request).value)))
    else
      var s' := DoEvict(cfg, s, now);
      match SnapshotOf(s'.buckets, ReplayHeight(sub.request).value)
      case Err(code) => State(s', sub.(phase := Refused(code)))
      case Ok(snapshot) =>
        State(s', sub.(phase := Joined, replay := snapshot.updates, watermark := snapshot.watermark,
                       joinedAt := |s.log|, window := s'.buckets))
  }

  function Marker(phase: SnapshotPhase, snapshot: MempoolView.Snapshot): (r: SubscribeUpdate) {
    UNSPECIFIED.(mempoolRevision := Some(snapshot.revision),
                 update := Some(MempoolSnapshot(phase, snapshot.revision, snapshot.count)))
  }

  /** Notice, then the bracketed mempool snapshot, then the replay. */
  function InitialUpdates(
    request: SubscribeRequest, snapshot: Option<MempoolView.Snapshot>, replay: seq<SubscribeUpdate>)
    : (r: seq<SubscribeUpdate>)
  {
    (if request.resume.Some? then [ReconnectNotice(request.resume.value)] else [])
    + (if snapshot.Some?
       then [Marker(SnapshotPhase.Begin, snapshot.value)] + snapshot.value.updates
         + [Marker(SnapshotPhase.End, snapshot.value)] else [])
    + replay
  }

  ghost function DoFollow(st: State): State {
    var s, sub := st.server, st.sub;
    var snapshot := if sub.request.includeMempoolSnapshot then Some(MempoolView.SnapshotOf(s.mempool)) else None;
    var initial := InitialUpdates(sub.request, snapshot, sub.replay);
    State(s, sub.(phase := Following, queue := initial, initial := initial,
                  mempoolMark := if snapshot.Some? then Some(snapshot.value.revision) else None,
                  mempoolAt := |s.log|))
  }

  /** A mempool update that the mempool snapshot already accounts for. */
  predicate Covered(u: SubscribeUpdate, mark: Option<nat>) {
    mark.Some? && u.mempoolRevision.Some? && u.mempoolRevision.value <= mark.value
  }

  function DoReceive(s: Server, sub: Subscriber): (r: Subscriber)
    requires sub.cursor < |s.ring|
  {
    var u := s.ring[sub.cursor];
    if u.sequence <= sub.watermark then
      sub.(cursor := sub.cursor + 1)
    else if Covered(u, sub.mempoolMark) then
      sub.(cursor := sub.cursor + 1, watermark := u.sequence)
    else
      sub.(cursor := sub.cursor + 1, watermark := u.sequence, sent := sub.sent + [u])
  }

  // ---------- the machine ----------

  ghost predicate Enabled(cfg: Config, st: State, step: Step) {
    var s, sub := st.server, st.sub;
    match step
    case Begin(batch) => s.publisher.Idle? && SourceBatch(batch)
    case Push(now) => s.publisher.Ready? && now >= s.clock
    case Send => s.publisher.Sending? && s.publisher.rest != []
    case Finish => s.publisher.Sending? && s.publisher.rest == []
    case EvictByReader(now) => now >= s.clock
    case Open => sub.phase == Fresh
    case Join(now) => sub.phase == Listening && now >= s.clock
    case Follow => sub.phase == Joined && (sub.request.includeMempoolSnapshot ==> !HoldsMempoolLock(s.publisher))
    case Emit => sub.phase == Following && sub.queue != []
    case Receive =>
      sub.phase == Following && sub.queue == [] && sub.cursor < |s.ring| && |s.ring| - sub.cursor <= cfg.capacity
    case FallBehind => sub.phase == Following && sub.queue == [] && |s.ring| > sub.cursor + cfg.capacity
  }

  ghost function Do(cfg: Config, st: State, step: Step): State
    requires Enabled(cfg, st, step)
  {
    var s, sub := st.server, st.sub;
    match step
    case Begin(batch) => State(DoBegin(s, batch), sub)
    case Push(now) => State(DoPush(cfg, s, now), sub)
    case Send => State(DoSend(s), sub)
    case Finish => State(s.(publisher := Idle), sub)
    case EvictByReader(now) => State(DoEvict(cfg, s, now), sub)
    case Open => State(s, sub.(phase := Listening, openedAt := |s.ring|, cursor := |s.ring|))
    case Join(now) => DoJoin(cfg, st, now)
    case Follow => DoFollow(st)
    case Emit => State(s, sub.(sent := sub.sent + [sub.queue[0]], queue := sub.queue[1..]))
    case Receive => State(s, DoReceive(s, sub))
    case FallBehind => State(s, sub.(phase := Lagged))
  }

  const EMPTY_SERVER := Server(0, [], [], [], [], MempoolView.EMPTY, Idle, 0)

  /** A run: any number of enabled steps, in any order, from an empty server and a fresh subscriber. */
  ghost predicate IsRun(cfg: Config, request: SubscribeRequest, states: seq<State>, steps: seq<Step>) {
    && |states| == |steps| + 1
    && states[0] == State(EMPTY_SERVER, FreshSubscriber(request))
    && forall i :: 0 <= i < |steps|
        ==> Enabled(cfg, states[i], steps[i]) && states[i + 1] == Do(cfg, states[i], steps[i])
  }
}
