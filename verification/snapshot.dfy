// The mempool snapshot that a subscriber is sent, in every state of every run: its markers and all between them.
module SnapshotStream {
  import opened Proto
  import Events
  import opened Replay
  import opened Handshake
  import opened Protocol
  import opened Splice
  import Guarantees
  import MempoolView

  /** The view is what applying everything published so far gives. */
  ghost predicate ViewInv(s: Server) {
    var applied := MempoolView.AppliedAll(MempoolView.EMPTY, s.log + Unpushed(s.publisher));
    s.mempool == applied.(revision := s.mempool.revision)
  }

  lemma {:induction false} AppliedAppend(m: MempoolView.State, a: seq<SubscribeUpdate>, b: seq<SubscribeUpdate>)
    ensures MempoolView.AppliedAll(m, a + b) == MempoolView.AppliedAll(MempoolView.AppliedAll(m, a), b)
  {
    hide MempoolView.Applied;
    if b == [] {
      assert a + b == a;
    } else {
      AppliedAppend(m, a, b[..|b| - 1]);
      assert (a + b)[..|a + b| - 1] == a + b[..|b| - 1];
    }
  }

  lemma {:induction false} RevisionAside(m: MempoolView.State, us: seq<SubscribeUpdate>, revision: nat)
    ensures MempoolView.AppliedAll(m.(revision := revision), us) == MempoolView.AppliedAll(m, us).(revision := revision)
  {
    if us == [] {
    } else {
      RevisionAside(m, us[..|us| - 1], revision);
    }
  }

  lemma {:induction false} BlocksAside(m: MempoolView.State, us: seq<SubscribeUpdate>)
    requires forall u :: u in us ==> BlockHeight(u).Some?
    ensures MempoolView.AppliedAll(m, us) == m
  {
    if us == [] {
    } else {
      var n := |us| - 1;
      assert us == us[..n] + [us[n]] && us[n] in us;
      BlocksAside(m, us[..n]);
    }
  }

  lemma UnlockedAside(m: MempoolView.State, batch: seq<SubscribeUpdate>, after: nat, revision: nat)
    requires BatchInv(batch, false, after, revision)
    ensures MempoolView.AppliedAll(m, batch) == m
  {
    BlocksAside(m, batch);
  }

  lemma BeginKeepsView(s: Server, batch: seq<SubscribeUpdate>)
    requires LogInv(s) && ViewInv(s) && s.publisher.Idle? && Events.SourceBatch(batch)
    ensures ViewInv(DoBegin(s, batch))
  {
    BeginBatch(batch, s);
    BeginLeaves(s, batch);
    var r := DoBegin(s, batch);
    var ready := r.publisher.batch;
    hide DoBegin, BatchInv, Events.SourceBatch, LogInv, MempoolView.AppliedAll;
    assert s.log + [] == s.log;
    AppliedAppend(MempoolView.EMPTY, s.log, ready);
    var before := MempoolView.AppliedAll(MempoolView.EMPTY, s.log);
    if r.publisher.locked {
      RevisionAside(before, ready, s.mempool.revision + 1);
    } else {
      UnlockedAside(before, ready, |s.log|, r.mempool.revision);
    }
  }

  /** The view as of the first n updates of the log, at a revision. */
  function ViewAt(log: seq<SubscribeUpdate>, n: nat, revision: nat): (r: MempoolView.State)
    requires n <= |log|
  {
    MempoolView.AppliedAll(MempoolView.EMPTY, log[..n]).(revision := revision)
  }

  /** The mempool snapshot that a subscriber started with, if it asked for one. */
  ghost function SnapshotTaken(log: seq<SubscribeUpdate>, sub: Subscriber): Option<MempoolView.Snapshot>
    requires sub.request.includeMempoolSnapshot ==> sub.mempoolMark.Some? && sub.mempoolAt <= |log|
  {
    if sub.request.includeMempoolSnapshot
    then Some(MempoolView.SnapshotOf(ViewAt(log, sub.mempoolAt, sub.mempoolMark.value))) else None
  }

  /** What a subscriber starts with is built on the view as of its mempool snapshot. */
  ghost predicate StartInv(s: Server, sub: Subscriber) {
    HasFollowed(sub) ==>
      && (sub.request.includeMempoolSnapshot ==> sub.mempoolMark.Some? && sub.mempoolAt <= |s.log|)
      && sub.initial == InitialUpdates(sub.request, SnapshotTaken(s.log, sub), sub.replay)
  }

  lemma UnlockedView(s: Server)
    requires LogInv(s) && ViewInv(s) && !HoldsMempoolLock(s.publisher)
    ensures s.mempool == ViewAt(s.log, |s.log|, s.mempool.revision)
  {
    var before := MempoolView.AppliedAll(MempoolView.EMPTY, s.log);
    AppliedAppend(MempoolView.EMPTY, s.log, Unpushed(s.publisher));
    assert s.log[..|s.log|] == s.log && s.log + [] == s.log;
    if s.publisher.Ready? {
      UnlockedAside(before, s.publisher.batch, |s.log|, s.mempool.revision);
    }
  }

  lemma FollowStartsView(cfg: Config, st: State)
    requires Inv(cfg, st) && ViewInv(st.server) && Enabled(cfg, st, Follow)
    ensures StartInv(st.server, DoFollow(st).sub)
  {
    hide WindowInv, MempoolInv, SubInv, MempoolView.AppliedAll, InitialUpdates, MempoolView.SnapshotOf;
    if st.sub.request.includeMempoolSnapshot {
      UnlockedView(st.server);
      hide LogInv, ViewAt;
      SnapshotRevision(st.server.mempool);
    }
  }

  lemma SnapshotRevision(m: MempoolView.State)
    ensures MempoolView.SnapshotOf(m).revision == m.revision
  {
  }

  /** The other steps of the subscriber leave alone what it started with. */
  lemma StartStays(cfg: Config, st: State, step: Step)
    requires Enabled(cfg, st, step) && (step.Open? || step.Emit? || step.Receive? || step.FallBehind?)
    ensures var r := Do(cfg, st, step);
            && r.server == st.server
            && r.sub.initial == st.sub.initial && r.sub.request == st.sub.request && r.sub.replay == st.sub.replay
            && r.sub.mempoolMark == st.sub.mempoolMark && r.sub.mempoolAt == st.sub.mempoolAt
            && (HasFollowed(r.sub) ==> HasFollowed(st.sub))
  {
    hide Covered;
  }

  lemma StartOutlives(s: Server, r: Server, sub: Subscriber)
    requires StartInv(s, sub) && s.log <= r.log
    ensures StartInv(r, sub)
  {
    if HasFollowed(sub) && sub.request.includeMempoolSnapshot {
      assert r.log[..sub.mempoolAt] == s.log[..sub.mempoolAt];
    }
    hide MempoolView.AppliedAll, InitialUpdates, MempoolView.SnapshotOf;
  }

  lemma PublisherKeepsView(cfg: Config, st: State, step: Step)
    requires Inv(cfg, st) && ViewInv(st.server) && StartInv(st.server, st.sub) && Enabled(cfg, st, step)
    requires step.Begin? || step.Push? || step.Send? || step.Finish? || step.EvictByReader?
    ensures var r := Do(cfg, st, step); ViewInv(r.server) && StartInv(r.server, r.sub) && r.sub == st.sub
  {
    var s, r := st.server, Do(cfg, st, step).server;
    if step.Begin? {
      BeginKeepsView(s, step.batch);
      BeginLeaves(s, step.batch);
      hide DoBegin;
    } else if step.Push? {
      assert s.log + s.publisher.batch + [] == s.log + s.publisher.batch;
    }
    hide ServerInv, SubInv, ViewAt, MempoolView.AppliedAll, Events.SourceBatch, BucketOf, Pushed, Kept, Entries;
    StartOutlives(s, r, st.sub);
  }

  lemma StepKeepsStart(cfg: Config, st: State, step: Step)
    requires Inv(cfg, st) && ViewInv(st.server) && StartInv(st.server, st.sub) && Enabled(cfg, st, step)
    ensures var r := Do(cfg, st, step); ViewInv(r.server) && StartInv(r.server, r.sub)
  {
    hide Inv, ViewInv, DoBegin, DoPush, DoSend, DoReceive;
    match step {
      case Open => StartStays(cfg, st, step);
      case Join(now) =>
        JoinLeaves(cfg, st, now);
        JoinLeavesView(cfg, st, now);
        hide DoJoin;
      case Follow => FollowStartsView(cfg, st);
        hide StartInv;
      case Emit => StartStays(cfg, st, step);
      case Receive => StartStays(cfg, st, step);
      case FallBehind => StartStays(cfg, st, step);
      case _ => PublisherKeepsView(cfg, st, step);
        hide StartInv;
    }
  }

  lemma JoinLeavesView(cfg: Config, st: State, now: nat)
    requires ViewInv(st.server)
    ensures ViewInv(DoJoin(cfg, st, now).server)
    ensures DoJoin(cfg, st, now).sub.phase.Refused? || DoJoin(cfg, st, now).sub.phase.Joined?
  {
    hide Kept, SnapshotOf, Refusal, MempoolView.AppliedAll;
  }

  lemma {:induction false} RunKeepsStart(
    cfg: Config, request: SubscribeRequest, states: seq<State>, steps: seq<Step>, i: nat)
    requires IsRun(cfg, request, states, steps) && i <= |steps|
    ensures Inv(cfg, states[i]) && ViewInv(states[i].server) && StartInv(states[i].server, states[i].sub)
  {
    RunKeeps(cfg, request, states, steps, i);
    hide Inv, ViewInv, StartInv, Do, Enabled;
    if i == 0 {
      EmptyView(request);
    } else {
      RunKeepsStart(cfg, request, states, steps, i - 1);
      assert Enabled(cfg, states[i - 1], steps[i - 1]) && states[i - 1 + 1] == Do(cfg, states[i - 1], steps[i - 1]);
      StepKeepsStart(cfg, states[i - 1], steps[i - 1]);
    }
  }

  lemma EmptyView(request: SubscribeRequest)
    ensures ViewInv(EMPTY_SERVER) && StartInv(EMPTY_SERVER, FreshSubscriber(request))
  {
    assert EMPTY_SERVER.log + [] == [];
  }

  // ---------- what a subscriber starts with ----------

  /** A message that is not published and carries no number of the server's. */
  predicate IsControlMessage(v: SubscribeUpdate, revision: Option<nat>, update: Update) {
    v == SubscribeUpdate([], 0, 0, [], 0, revision, Some(update))
  }

  /** Between the two markers lies exactly the snapshot of the mempool that the first n updates of the log make; both
      markers give its revision and the number of its entries. Only the reconnect notice comes before, and after it
      comes the replay. */
  ghost predicate Starts(
    initial: seq<SubscribeUpdate>, request: SubscribeRequest, m: MempoolView.State, replay: seq<SubscribeUpdate>)
  {
    var notices, inner := if request.resume.Some? then 1 else 0, MempoolView.SnapshotOf(m).updates;
    && |initial| == notices + 1 + |inner| + 1 + |replay|
    && (request.resume.Some? ==>
          var c := request.resume.value;
          IsControlMessage(initial[0], None, Reconnect(c.finalizedHeight, c.finalizedHash, c.partialBlocks)))
    && IsControlMessage(initial[notices], Some(m.revision),
         MempoolSnapshot(SnapshotPhase.Begin, m.revision, |m.entries.Keys|))
    && initial[notices + 1..notices + 1 + |inner|] == inner
    && IsControlMessage(initial[notices + 1 + |inner|], Some(m.revision),
         MempoolSnapshot(SnapshotPhase.End, m.revision, |m.entries.Keys|))
    && initial[notices + 2 + |inner|..] == replay
  }

  lemma InitialStarts(request: SubscribeRequest, m: MempoolView.State, replay: seq<SubscribeUpdate>)
    ensures Starts(InitialUpdates(request, Some(MempoolView.SnapshotOf(m)), replay), request, m, replay)
  {
    SnapshotRevision(m);
    assert MempoolView.SnapshotOf(m).count == |m.entries.Keys|;
    hide MempoolView.SnapshotOf;
  }

  /** For every interleaving, a subscriber that asked for the mempool snapshot starts with it, bracketed by its markers,
      as of one moment of the log; so it is given in full every mempool transaction that was current at that moment, and
      no other before the deltas. */
  lemma SnapshotSent(cfg: Config, request: SubscribeRequest, states: seq<State>, steps: seq<Step>, i: nat)
    requires IsRun(cfg, request, states, steps) && i <= |steps|
    requires HasFollowed(states[i].sub) && states[i].sub.request.includeMempoolSnapshot
    ensures var s, sub := states[i].server, states[i].sub;
            && sub.mempoolMark.Some? && sub.mempoolAt <= |s.log|
            && Starts(sub.initial, sub.request, ViewAt(s.log, sub.mempoolAt, sub.mempoolMark.value), sub.replay)
            && sub.initial <= Guarantees.Outgoing(sub)
            && (forall j: nat, k :: MempoolView.Current(s.log[..sub.mempoolAt], j, k) ==>
                  exists v :: v in Guarantees.Outgoing(sub)
                              && MempoolView.IsDetail(v, s.log[..sub.mempoolAt][j], sub.mempoolMark.value))
  {
    RunKeepsStart(cfg, request, states, steps, i);
    hide IsRun;
    StartSent(cfg, states[i]);
  }

  lemma StartSent(cfg: Config, st: State)
    requires Inv(cfg, st) && StartInv(st.server, st.sub) && HasFollowed(st.sub) && st.sub.request.includeMempoolSnapshot
    ensures var s, sub := st.server, st.sub;
            && sub.mempoolMark.Some? && sub.mempoolAt <= |s.log|
            && Starts(sub.initial, sub.request, ViewAt(s.log, sub.mempoolAt, sub.mempoolMark.value), sub.replay)
            && sub.initial <= Guarantees.Outgoing(sub)
            && (forall j: nat, k :: MempoolView.Current(s.log[..sub.mempoolAt], j, k) ==>
                  exists v :: v in Guarantees.Outgoing(sub)
                              && MempoolView.IsDetail(v, s.log[..sub.mempoolAt][j], sub.mempoolMark.value))
  {
    var s, sub := st.server, st.sub;
    hide ServerInv, JoinInv, MarkInv, Passed, InitialUpdates, MempoolView.SnapshotOf, MempoolView.IsDetail,
      MempoolView.AppliedAll, MempoolView.IsTransactionOf, MempoolView.Removes, Starts;
    var us, revision := s.log[..sub.mempoolAt], sub.mempoolMark.value;
    var m := ViewAt(s.log, sub.mempoolAt, revision);
    InitialStarts(sub.request, m, sub.replay);
    MempoolView.SnapshotExactly(us, revision);
    InnerSent(sub.initial, sub.request, m, sub.replay);
    assert sub.initial <= Guarantees.Outgoing(sub);
  }

  lemma InnerSent(
    initial: seq<SubscribeUpdate>, request: SubscribeRequest, m: MempoolView.State, replay: seq<SubscribeUpdate>)
    requires Starts(initial, request, m, replay)
    ensures forall v :: v in MempoolView.SnapshotOf(m).updates ==> v in initial
  {
    hide IsControlMessage, MempoolView.SnapshotOf;
    var notices, inner := if request.resume.Some? then 1 else 0, MempoolView.SnapshotOf(m).updates;
    forall v | v in inner ensures v in initial {
      var p :| 0 <= p < |inner| && inner[p] == v;
      assert initial[notices + 1..notices + 1 + |inner|][p] == v;
    }
  }
}
