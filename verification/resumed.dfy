// The client's chain state after a resume: when it is again what folding everything published would give.
module ResumedState {
  import opened Proto
  import opened Projection
  import opened Replay
  import opened ChainResume
  import opened Handshake
  import opened Protocol
  import opened Splice
  import opened Guarantees
  import opened EventFilters
  import opened Filter
  import opened Events
  import opened FilteredStream
  import opened Recovery
  import Acceptance
  import ExactlyOnce
  import MempoolView
  import Window

  predicate IsNotice(u: SubscribeUpdate) {
    u.update.Some? && u.update.value.Reconnect?
  }

  // ---------- what the fold makes of a connection ----------

  /** Only notices and block-scoped updates change the chain state. */
  lemma QuietObserved(c: Chain, u: SubscribeUpdate)
    requires BlockHeight(u).None? && !IsNotice(u)
    ensures Observe(c, u) == c
  {
  }

  lemma QuietThrough(ef: EventFilter, c: Chain, u: SubscribeUpdate)
    requires BlockHeight(u).None? && !IsNotice(u) && Through(ef, u).Some?
    ensures Observe(c, Through(ef, u).value) == c
  {
    if IsControl(u) {
    } else {
      var m := Matched(ef, u).value;
      hide Matched;
      ProjectionKeepsMetadata(u, m.blockPayload, m.transactionPayload);
      ProjectionIsNoNotice(u, m.blockPayload, m.transactionPayload);
      hide Projected;
      QuietObserved(c, Delivered(ef, u));
    }
  }

  lemma ProjectionIsNoNotice(u: SubscribeUpdate, block: BlockPayload, tx: TransactionPayload)
    requires !IsNotice(u)
    ensures !IsNotice(Projected(u, block, tx))
  {
  }

  /** Observing the echo of a checkpoint leaves its anchor alone. */
  lemma NoticeLeavesAnchor(checkpoint: ResumeCheckpoint)
    ensures Observe(FromCheckpoint(Some(checkpoint)), ReconnectNotice(checkpoint))
            == Resumed(checkpoint.finalizedHeight, checkpoint.finalizedHash)
  {
    ByKeyWellFormed(checkpoint.partialBlocks);
    var partial := ByKey(checkpoint.partialBlocks);
    hide ByKey, KeysOf;
    assert partial - partial.Keys == map[];
  }

  lemma ObserveAppend(c: Chain, us: seq<SubscribeUpdate>, u: SubscribeUpdate)
    ensures ObserveAll(c, us + [u]) == Observe(ObserveAll(c, us), u)
  {
    assert (us + [u])[..|us|] == us;
  }

  /** A notice first, no other, and every block-scoped update passed on as it is. */
  ghost predicate Opened(ef: EventFilter, checkpoint: ResumeCheckpoint, us: seq<SubscribeUpdate>) {
    && us != [] && us[0] == ReconnectNotice(checkpoint)
    && forall i :: 1 <= i < |us| ==>
         !IsNotice(us[i]) && (BlockHeight(us[i]).Some? ==> Through(ef, us[i]) == Some(us[i]))
  }

  lemma NoticePasses(ef: EventFilter, checkpoint: ResumeCheckpoint)
    ensures Through(ef, ReconnectNotice(checkpoint)) == Some(ReconnectNotice(checkpoint))
    ensures BlockHeight(ReconnectNotice(checkpoint)).None?
  {
  }

  lemma NoticeFolds(ef: EventFilter, checkpoint: ResumeCheckpoint)
    ensures BlockPart([ReconnectNotice(checkpoint)]) == []
    ensures ObserveAll(FromCheckpoint(Some(checkpoint)), Passes(ef, [ReconnectNotice(checkpoint)]))
            == Resumed(checkpoint.finalizedHeight, checkpoint.finalizedHash)
  {
    var c, u := FromCheckpoint(Some(checkpoint)), ReconnectNotice(checkpoint);
    NoticePasses(ef, checkpoint);
    NoticeLeavesAnchor(checkpoint);
    hide Observe, Through, FromCheckpoint, ReconnectNotice, BlockHeight;
    ObserveAppend(c, [], u);
    assert [u][..0] == [] && [] + [u] == [u];
    assert Passes(ef, [u]) == [u];
  }

  lemma BlockFolds(ef: EventFilter, c: Chain, us: seq<SubscribeUpdate>, u: SubscribeUpdate)
    requires BlockHeight(u).Some? && Through(ef, u) == Some(u)
    ensures BlockPart(us + [u]) == BlockPart(us) + [u]
    ensures ObserveAll(c, Passes(ef, us + [u])) == Observe(ObserveAll(c, Passes(ef, us)), u)
  {
    hide Observe, ObserveAll, Through, BlockHeight;
    assert (us + [u])[..|us|] == us;
    ObserveAppend(c, Passes(ef, us), u);
  }

  lemma QuietFolds(ef: EventFilter, c: Chain, us: seq<SubscribeUpdate>, u: SubscribeUpdate)
    requires BlockHeight(u).None? && !IsNotice(u)
    ensures BlockPart(us + [u]) == BlockPart(us)
    ensures ObserveAll(c, Passes(ef, us + [u])) == ObserveAll(c, Passes(ef, us))
  {
    hide Observe, ObserveAll, Through, BlockHeight, IsNotice;
    assert (us + [u])[..|us|] == us;
    var before := Passes(ef, us);
    assert before + [] == before && BlockPart(us) + [] == BlockPart(us);
    if Through(ef, u).Some? {
      QuietThrough(ef, ObserveAll(c, before), u);
      ObserveAppend(c, before, Through(ef, u).value);
    }
  }

  /** Folding a resumed connection is folding its block-scoped updates from the anchor alone. */
  lemma {:induction false} ConnectionFolds(ef: EventFilter, checkpoint: ResumeCheckpoint, us: seq<SubscribeUpdate>)
    requires Opened(ef, checkpoint, us)
    ensures ObserveAll(FromCheckpoint(Some(checkpoint)), Passes(ef, us))
            == ObserveAll(Resumed(checkpoint.finalizedHeight, checkpoint.finalizedHash), BlockPart(us))
  {
    var c, start := FromCheckpoint(Some(checkpoint)), Resumed(checkpoint.finalizedHeight, checkpoint.finalizedHash);
    var rest, u := us[..|us| - 1], us[|us| - 1];
    assert us == rest + [u] && ObserveAll(start, []) == start;
    hide Observe, ObserveAll, Through, FromCheckpoint, Resumed, ReconnectNotice, BlockHeight, IsNotice, Passes,
      BlockPart;
    if |us| == 1 {
      assert us == [ReconnectNotice(checkpoint)];
      NoticeFolds(ef, checkpoint);
    } else {
      ConnectionFolds(ef, checkpoint, rest);
      if BlockHeight(u).Some? {
        BlockFolds(ef, c, rest, u);
        ObserveAppend(start, BlockPart(rest), u);
      } else {
        QuietFolds(ef, c, rest, u);
      }
    }
  }

  // ---------- the client's chain state is that fold ----------

  lemma HandledChain(c: Client, u: SubscribeUpdate)
    ensures Handled(c, u).chain == Observe(c.chain, u)
  {
  }

  lemma {:induction false} ChainOfHandled(c: Client, us: seq<SubscribeUpdate>)
    ensures HandledAll(c, us).chain == ObserveAll(c.chain, us)
  {
    if us == [] {
    } else {
      hide Handled, Observe;
      ChainOfHandled(c, us[..|us| - 1]);
      HandledChain(HandledAll(c, us[..|us| - 1]), us[|us| - 1]);
    }
  }

  lemma StoryWellFormed(setup: Setup, states: seq<System>, moves: seq<Move>, i: nat)
    requires IsStory(setup, states, moves) && i <= |moves| && ReplayHeight(setup.request).Ok?
    ensures WellFormed(states[i].client.chain)
  {
    ExactlyOnce.StoryFolds(setup, states, moves, i);
    hide IsStory;
    ChainOfHandled(NewClient(setup), states[i].received);
    AcceptedRequestWellFormed(setup.request);
    hide ReplayHeight, HandledAll, FromCheckpoint, WellFormed;
    RunWellFormed(FromCheckpoint(setup.request.resume), states[i].received);
  }

  /** A resumed connection starts with the echo of its checkpoint, and has no other notice before the ring. */
  ghost predicate NoticeFirst(sub: Subscriber) {
    HasFollowed(sub) && sub.request.resume.Some? ==>
      && sub.initial != [] && sub.initial[0] == ReconnectNotice(sub.request.resume.value)
      && forall i :: 1 <= i < |sub.initial| ==> !IsNotice(sub.initial[i])
  }

  /** The anchor of a resumed connection was finalized somewhere in the log. */
  ghost predicate AnchorLogged(log: seq<SubscribeUpdate>, sub: Subscriber) {
    HasJoined(sub) && sub.request.resume.Some? ==>
      exists a: nat :: a < |log| && Finalizes(log[a]) == AnchorOf(sub.request.resume)
  }

  ghost predicate ChainFollows(setup: Setup, sys: System) {
    && sys.handled <= |sys.sub.sent|
    && (sys.sub.request.resume.Some? ==>
          sys.client.chain
          == ObserveAll(FromCheckpoint(sys.sub.request.resume), Passes(setup.filter, sys.sub.sent[..sys.handled])))
  }

  ghost predicate ResumeInv(setup: Setup, sys: System) {
    NoticeFirst(sys.sub) && AnchorLogged(sys.server.log, sys.sub) && ChainFollows(setup, sys)
  }

  lemma InitialHasNotice(
    request: SubscribeRequest, snapshot: Option<MempoolView.Snapshot>, replay: seq<SubscribeUpdate>)
    requires request.resume.Some? && forall u :: u in replay ==> !IsNotice(u)
    requires snapshot.Some? ==> (forall u :: u in snapshot.value.updates ==> !IsNotice(u))
    ensures var initial := InitialUpdates(request, snapshot, replay);
            && initial != [] && initial[0] == ReconnectNotice(request.resume.value)
            && forall i :: 1 <= i < |initial| ==> !IsNotice(initial[i])
  {
    hide ReconnectNotice;
    var initial := InitialUpdates(request, snapshot, replay);
    var bracket := if snapshot.Some?
      then [Marker(SnapshotPhase.Begin, snapshot.value)] + snapshot.value.updates
        + [Marker(SnapshotPhase.End, snapshot.value)] else [];
    var tail := bracket + replay;
    assert initial == [ReconnectNotice(request.resume.value)] + tail;
    assert forall u :: u in tail ==> !IsNotice(u);
  }

  lemma BlockNoNotice(u: SubscribeUpdate)
    ensures BlockHeight(u).Some? || IsMempoolUpdate(u) ==> !IsNotice(u)
  {
  }

  lemma FollowStartsWithNotice(cfg: Config, st: State)
    requires Inv(cfg, st) && Enabled(cfg, st, Follow)
    ensures NoticeFirst(DoFollow(st).sub)
  {
    var sub := st.sub;
    JoinedReplayBlocks(st.server, sub);
    MempoolView.SnapshotRebuildsKeys(st.server.mempool);
    hide Inv, MempoolView.SnapshotOf, MempoolView.FollowedAll, InitialUpdates, BlockHeight, IsNotice, IsMempoolUpdate;
    forall u ensures BlockHeight(u).Some? || IsMempoolUpdate(u) ==> !IsNotice(u) {
      BlockNoNotice(u);
    }
    if sub.request.resume.Some? {
      var pool := MempoolView.SnapshotOf(st.server.mempool);
      InitialHasNotice(sub.request, if sub.request.includeMempoolSnapshot then Some(pool) else None, sub.replay);
    }
  }

  /** The other steps of the subscriber leave the initial updates alone. */
  lemma InitialStays(cfg: Config, st: State, step: Step)
    requires Enabled(cfg, st, step) && !IsPublisherStep(step) && !step.Follow?
    ensures var r := Do(cfg, st, step).sub;
            && r.initial == st.sub.initial && r.request == st.sub.request && st.sub.sent <= r.sent
            && (HasFollowed(r) ==> HasFollowed(st.sub))
  {
    hide Covered, SnapshotOf, Kept, Refusal, ReplayHeight;
  }

  lemma JoinLogsAnchor(cfg: Config, st: State, now: nat)
    requires Inv(cfg, st)
    ensures DoJoin(cfg, st, now).sub.phase == Joined
            ==> AnchorLogged(DoJoin(cfg, st, now).server.log, DoJoin(cfg, st, now).sub)
  {
    if DoJoin(cfg, st, now).sub.phase == Joined && st.sub.request.resume.Some? {
      JoinAccepts(cfg, st, now);
      var s := st.server;
      hide DoJoin, LogInv, MempoolInv, IsSuffix, SubInv, Verified, Finalizes;
      var a := VerifiedInLog(s.log, s.history, s.buckets, st.sub.request.resume.value);
    } else {
      JoinKeepsLog(cfg, st, now);
      hide DoJoin, Inv;
    }
  }

  lemma AnchorStaysLogged(log: seq<SubscribeUpdate>, log': seq<SubscribeUpdate>, sub: Subscriber, sub': Subscriber)
    requires AnchorLogged(log, sub) && log <= log' && sub'.request == sub.request
    requires HasJoined(sub') ==> HasJoined(sub)
    ensures AnchorLogged(log', sub')
  {
    hide Finalizes, AnchorOf;
    if HasJoined(sub') && sub'.request.resume.Some? {
      var a: nat :| a < |log| && Finalizes(log[a]) == AnchorOf(sub.request.resume);
      assert log'[a] == log[a];
    }
  }

  lemma StepFollows(setup: Setup, sys: System, step: Step)
    requires Inv(setup.config, State(sys.server, sys.sub)) && Enabled(setup.config, State(sys.server, sys.sub), step)
    requires NoticeFirst(sys.sub) && AnchorLogged(sys.server.log, sys.sub)
    ensures var r := Do(setup.config, State(sys.server, sys.sub), step);
            && NoticeFirst(r.sub) && AnchorLogged(r.server.log, r.sub)
            && r.sub.request == sys.sub.request && sys.sub.sent <= r.sub.sent
  {
    var cfg, st := setup.config, State(sys.server, sys.sub);
    hide Inv, ReconnectNotice, IsNotice;
    if IsPublisherStep(step) {
      PublisherExtends(cfg, st, step);
      hide Do, Enabled, NoticeFirst;
      AnchorStaysLogged(st.server.log, Do(cfg, st, step).server.log, st.sub, st.sub);
    } else if step.Join? {
      InitialStays(cfg, st, step);
      JoinLogsAnchor(cfg, st, step.now);
      JoinLeaves(cfg, st, step.now);
      hide DoJoin;
    } else {
      QuietStep(cfg, st, step);
      if step.Follow? {
        FollowStartsWithNotice(cfg, st);
        hide NoticeFirst;
      } else {
        InitialStays(cfg, st, step);
      }
      AnchorStaysLogged(st.server.log, st.server.log, st.sub, Do(cfg, st, step).sub);
      hide DoFollow, DoReceive, AnchorLogged;
    }
  }

  lemma NetFollows(setup: Setup, sys: System, step: Step)
    requires Inv(setup.config, State(sys.server, sys.sub)) && ResumeInv(setup, sys)
    requires Allowed(setup, sys, Net(step))
    ensures ResumeInv(setup, After(setup, sys, Net(step)))
  {
    hide Inv, NoticeFirst, AnchorLogged, Passes, FromCheckpoint, ObserveAll, Do, Enabled;
    StepFollows(setup, sys, step);
    var sent := Do(setup.config, State(sys.server, sys.sub), step).sub.sent;
    assert sent[..sys.handled] == sys.sub.sent[..sys.handled];
  }

  lemma HandleFollows(setup: Setup, sys: System)
    requires ResumeInv(setup, sys) && Allowed(setup, sys, Handle)
    ensures ResumeInv(setup, After(setup, sys, Handle))
  {
    var us, n := sys.sub.sent, sys.handled;
    hide Do, Enabled, Handled, Observe, ObserveAll, FromCheckpoint, NoticeFirst, AnchorLogged, Through;
    assert us[..n + 1][..n] == us[..n] && us[..n + 1][n] == us[n];
    var before := Passes(setup.filter, us[..n]);
    if Through(setup.filter, us[n]).Some? {
      HandledChain(sys.client, Through(setup.filter, us[n]).value);
      ObserveAppend(FromCheckpoint(sys.sub.request.resume), before, Through(setup.filter, us[n]).value);
    } else {
      assert before + [] == before;
    }
  }

  lemma ResubscribeFollows(setup: Setup, sys: System)
    requires WellFormed(sys.client.chain)
    ensures ResumeInv(setup, Resubscribed(setup, sys))
  {
    var request := NextRequest(setup, sys.client);
    hide FromCheckpoint, Observe, WellFormed, Heard, Checkpoint;
    assert request.resume == Checkpoint(sys.client.chain);
    if request.resume.Some? {
      AnchorWhenCheckpoint(sys.client.chain);
      CheckpointRoundTrip(sys.client.chain);
    }
  }

  lemma AnchorWhenCheckpoint(c: Chain)
    ensures Checkpoint(c).Some? <==> c.finalized.Some?
  {
    hide PartialKeys, Backwards;
  }

  /** In every state of every story, whatever the chain does: on a resumed connection the client's chain state is the
      fold, from the checkpoint sent, of what has come through. */
  lemma {:induction false} StoryFollows(setup: Setup, states: seq<System>, moves: seq<Move>, i: nat)
    requires IsStory(setup, states, moves) && i <= |moves| && ReplayHeight(setup.request).Ok?
    ensures ResumeInv(setup, states[i])
  {
    hide Inv, ResumeInv, Do, Enabled, NextRequest, Handled, NewClient, ReplayHeight, WellFormed, Through;
    if i == 0 {
      InitiallyFollows(setup);
    } else {
      var before, move := states[i - 1], moves[i - 1];
      assert Allowed(setup, before, move) && states[i - 1 + 1] == After(setup, before, move);
      StoryFollows(setup, states, moves, i - 1);
      match move {
        case Net(step) =>
          Acceptance.StoryShown(setup, states, moves, i - 1);
          NetFollows(setup, before, step);
        case Handle => HandleFollows(setup, before);
        case Resubscribe =>
          StoryWellFormed(setup, states, moves, i - 1);
          ResubscribeFollows(setup, before);
        case _ => LinkIrrelevant(setup, before, states[i].link);
      }
    }
  }

  lemma InitiallyFollows(setup: Setup)
    ensures ResumeInv(setup, Initially(setup))
  {
    hide FromCheckpoint;
  }

  lemma LinkIrrelevant(setup: Setup, sys: System, link: Link)
    requires ResumeInv(setup, sys)
    ensures ResumeInv(setup, sys.(link := link))
  {
    hide FromCheckpoint, ObserveAll, Passes, NoticeFirst, AnchorLogged;
  }

  // ---------- and that fold is the fold of the whole log ----------

  lemma {:induction false} AtOrAboveAscends(us: seq<SubscribeUpdate>, f: nat, lo: int, hi: int)
    requires InSequence(us, lo, hi)
    ensures InSequence(AtOrAbove(us, f), lo, LastOf(us, lo))
  {
    hide IsAtOrAbove;
    if us == [] {
    } else {
      var rest, u := us[..|us| - 1], us[|us| - 1];
      PrefixAscends(us, lo, hi);
      AtOrAboveAscends(rest, f, lo, hi);
      var one := if IsAtOrAbove(u, f) then [u] else [];
      InSequenceAppend(AtOrAbove(rest, f), one, lo, LastOf(rest, lo), u.sequence);
    }
  }

  /** A strictly ascending list is determined by its elements. */
  lemma {:induction false} SameElements(a: seq<SubscribeUpdate>, b: seq<SubscribeUpdate>, lo: int, hi: int)
    requires InSequence(a, lo, hi) && InSequence(b, lo, hi) && forall u :: u in a <==> u in b
    ensures a == b
  {
    assert (a != [] ==> a[0] in a) && (b != [] ==> b[0] in b);
    if a == [] {
    } else {
      LastIsSame(a, b, lo, hi);
      var a', b' := a[..|a| - 1], b[..|b| - 1];
      forall u ensures u in a' <==> u in b' {
        Shorter(a, u);
        Shorter(b, u);
      }
      assert InSequence(a', lo, hi) && InSequence(b', lo, hi);
      hide InSequence;
      SameElements(a', b', lo, hi);
      assert a == a' + [a[|a| - 1]] && b == b' + [b[|b| - 1]];
    }
  }

  lemma LastIsSame(a: seq<SubscribeUpdate>, b: seq<SubscribeUpdate>, lo: int, hi: int)
    requires InSequence(a, lo, hi) && InSequence(b, lo, hi) && forall u :: u in a <==> u in b
    requires a != [] && b != []
    ensures a[|a| - 1] == b[|b| - 1]
  {
    var x, y := a[|a| - 1], b[|b| - 1];
    assert x in b && y in a;
    var i :| 0 <= i < |b| && b[i] == x;
    var j :| 0 <= j < |a| && a[j] == y;
  }

  lemma Shorter(a: seq<SubscribeUpdate>, u: SubscribeUpdate)
    requires a != [] && forall i, j :: 0 <= i < j < |a| ==> a[i].sequence < a[j].sequence
    ensures u in a[..|a| - 1] <==> u in a && u != a[|a| - 1]
  {
    assert a == a[..|a| - 1] + [a[|a| - 1]];
  }

  /** Some of the log, in its order, with at least all that lies at or above a height. */
  ghost predicate PartFrom(log: seq<SubscribeUpdate>, part: seq<SubscribeUpdate>, from: nat) {
    && InSequence(part, 0, |log|)
    && (forall u :: u in part ==> u in log)
    && (forall u :: u in log && IsAtOrAbove(u, from) ==> u in part)
  }

  lemma PartFinality(log: seq<SubscribeUpdate>, part: seq<SubscribeUpdate>, from: nat)
    requires Numbered(log) && PartFrom(log, part, from) && FinalityMovesUp(log)
    ensures FinalityMovesUp(part)
  {
    hide Finalizes, IsAtOrAbove;
    forall i, j | 0 <= i < j < |part| && Finalizes(part[i]).Some? && Finalizes(part[j]).Some?
      ensures Finalizes(part[i]).value.0 <= Finalizes(part[j]).value.0
    {
      assert part[i] in log && part[j] in log;
      var p :| 0 <= p < |log| && log[p] == part[i];
      var q :| 0 <= q < |log| && log[q] == part[j];
      assert p < q;
    }
  }

  lemma PartReplayable(log: seq<SubscribeUpdate>, part: seq<SubscribeUpdate>, from: nat, f: nat)
    requires Numbered(log) && PartFrom(log, part, from) && from <= f && ReplayableFrom(log, f) && FinalizedAt(log, f)
    ensures ReplayableFrom(part, f) && FinalizedAt(part, f)
  {
    PartFinality(log, part, from);
    hide FinalityMovesUp, Harmless;
    var i :| 0 <= i < |log| && Finalizes(log[i]).Some? && Finalizes(log[i]).value.0 == f;
    AnchorIsLastFinalized(EMPTY, log[i]);
    hide Finalizes, Observe, BlockHeight;
    assert log[i] in part;
    var k :| 0 <= k < |part| && part[k] == log[i];
  }

  lemma SamePartAbove(log: seq<SubscribeUpdate>, part: seq<SubscribeUpdate>, from: nat, f: nat)
    requires Numbered(log) && PartFrom(log, part, from) && from <= f
    ensures AtOrAbove(part, f) == AtOrAbove(log, f)
  {
    hide AtOrAbove, BlockHeight, LastOf;
    AtOrAboveMembers(log, f);
    AtOrAboveMembers(part, f);
    AtOrAboveAscends(log, f, 0, |log|);
    AtOrAboveAscends(part, f, 0, |log|);
    LastWithin(log, |log|);
    LastWithin(part, |log|);
    SameElements(AtOrAbove(part, f), AtOrAbove(log, f), 0, |log|);
  }

  lemma LastWithin(us: seq<SubscribeUpdate>, hi: nat)
    requires InSequence(us, 0, hi)
    ensures 0 <= LastOf(us, 0) <= hi
  {
  }

  /** Folding such a part from the anchor at that height gives the state of the whole log. */
  lemma PartReconstructs(log: seq<SubscribeUpdate>, part: seq<SubscribeUpdate>, from: nat, hash: Text, f: nat)
    requires Numbered(log) && PartFrom(log, part, from) && from <= f && ReplayableFrom(log, f) && FinalizedAt(log, f)
    ensures ObserveAll(Resumed(from, hash), part) == ObserveAll(EMPTY, log)
  {
    hide AtOrAbove, Harmless, FinalityMovesUp, NeverBeyond, FinalizedAt, ObserveAll, PartFrom, Numbered, Resumed;
    PartReplayable(log, part, from, f);
    SamePartAbove(log, part, from, f);
    ReplayReconstructsState(log, f, hash);
    ReplayReconstructsState(part, f, hash);
    LastFinalizedAt(part, f);
    StartForgotten(part, from, hash, f);
  }

  // ---------- a client that has resumed and caught up ----------

  /** What the connection has brought, once caught up: its notice, and block-scoped updates passed on as they are. */
  lemma CaughtUpOpened(setup: Setup, canon: Canon, sys: System)
    requires Represents(setup.filter, setup.request, canon) && CatchAll(setup.request)
    requires Inv(setup.config, State(sys.server, sys.sub)) && NoticeFirst(sys.sub) && HasFollowed(sys.sub)
    requires sys.sub.request.resume.Some? && sys.sub.queue == []
    ensures Opened(setup.filter, sys.sub.request.resume.value, sys.sub.sent)
  {
    var sub := sys.sub;
    assert sub.sent + [] == sub.sent && sub.initial <= sub.sent;
    hide Represents, Inv, Through, ReconnectNotice, BlockHeight, IsNotice, Plain, Passed;
    forall i | 1 <= i < |sub.sent|
      ensures !IsNotice(sub.sent[i])
      ensures BlockHeight(sub.sent[i]).Some? ==> Through(setup.filter, sub.sent[i]) == Some(sub.sent[i])
    {
      CaughtUpOne(setup, canon, sys, i);
    }
  }

  /** After the notice there is no other, and what is block-scoped goes through the filter as it is. */
  lemma CaughtUpOne(setup: Setup, canon: Canon, sys: System, i: nat)
    requires Represents(setup.filter, setup.request, canon) && CatchAll(setup.request)
    requires Inv(setup.config, State(sys.server, sys.sub)) && NoticeFirst(sys.sub) && HasFollowed(sys.sub)
    requires sys.sub.request.resume.Some? && sys.sub.queue == [] && 1 <= i < |sys.sub.sent|
    ensures var u := sys.sub.sent[i];
            !IsNotice(u) && (BlockHeight(u).Some? ==> Through(setup.filter, u) == Some(u))
  {
    var s, sub, u := sys.server, sys.sub, sys.sub.sent[i];
    FirstLiveBound(s, sub);
    var passed := Passed(s.log, FirstLive(sub), sub.cursor, sub.mempoolMark);
    assert sub.sent == sub.initial + passed by {
      assert sub.sent + [] == sub.sent;
    }
    hide Represents, MempoolInv, WindowInv, WindowAt, MarkInv, Through, ReconnectNotice, BlockHeight, IsNotice, Plain,
      Numbered, Passed, FirstLive, LogInv;
    if i >= |sub.initial| {
      assert u in passed;
      PassedWithin(s.log, FirstLive(sub), sub.cursor, sub.mempoolMark, u);
      NoNoticeInLog(s, u);
    }
    if BlockHeight(u).Some? {
      ExactlyOnce.LogIsPlain(s);
      assert u in Outgoing(sub);
      OutgoingFromLog(s, sub, u);
      PlainThrough(setup, canon, u);
    }
  }

  lemma {:induction false} PassedWithin(
    log: seq<SubscribeUpdate>, lo: nat, hi: nat, mark: Option<nat>, u: SubscribeUpdate)
    requires hi <= |log| && u in Passed(log, lo, hi, mark)
    ensures u in log
  {
    hide Covered;
    if hi <= lo {
      assert false;
    } else if u in Passed(log, lo, hi - 1, mark) {
      PassedWithin(log, lo, hi - 1, mark, u);
    } else {
      assert u == log[hi - 1];
    }
  }

  lemma NoNoticeInLog(s: Server, u: SubscribeUpdate)
    requires LogInv(s) && u in s.log
    ensures !IsNotice(u)
  {
    var i :| 0 <= i < |s.log| && s.log[i] == u;
    assert Revised(s.log[i], s.mempool.revision);
  }

  lemma PlainThrough(setup: Setup, canon: Canon, u: SubscribeUpdate)
    requires Represents(setup.filter, setup.request, canon) && CatchAll(setup.request)
    requires Plain(u) && BlockHeight(u).Some?
    ensures Through(setup.filter, u) == Some(u)
  {
    PlainPasses(setup.filter, setup.request, canon, u);
    NotControl(u);
    hide Represents, Matched, Delivered, Plain, BlockHeight, IsControl;
  }

  /** The replay of a resumed connection holds everything published before it at or above the anchor. */
  ghost predicate ReplaysAll(sys: System)
    requires sys.sub.request.resume.Some?
  {
    forall k :: 0 <= k < sys.sub.joinedAt && k < |sys.server.log|
                && IsAtOrAbove(sys.server.log[k], sys.sub.request.resume.value.finalizedHeight)
      ==> sys.server.log[k] in sys.sub.replay
  }

  lemma CaughtUpPart(cfg: Config, sys: System)
    requires Inv(cfg, State(sys.server, sys.sub)) && HasFollowed(sys.sub)
    requires sys.sub.request.resume.Some? && sys.sub.queue == [] && sys.sub.cursor == |sys.server.log|
    requires ReplaysAll(sys)
    ensures PartFrom(sys.server.log, BlockPart(sys.sub.sent), sys.sub.request.resume.value.finalizedHeight)
  {
    var s, sub := sys.server, sys.sub;
    var log, part, from := s.log, BlockPart(sub.sent), sub.request.resume.value.finalizedHeight;
    assert Outgoing(sub) == sub.sent by {
      assert sub.sent + [] == sub.sent;
    }
    FirstLiveBound(s, sub);
    OutgoingAscends(s, sub);
    hide LogInv, MempoolInv, WindowInv, WindowAt, FollowInv, BlockPart, Outgoing, BlockHeight, FirstLive, ReplayPart,
      Watermark;
    ReachedEnd(s, sub);
    forall u | u in part ensures u in log {
      BlockPartMembers(sub.sent, u);
      OutgoingFromLog(s, sub, u);
    }
    forall u | u in log && IsAtOrAbove(u, from) ensures u in part {
      var k :| 0 <= k < |log| && log[k] == u;
      OutgoingMembers(s, sub, u);
      BlockPartMembers(sub.sent, u);
      if k < sub.joinedAt {
        assert u in sub.replay;
      }
    }
  }

  lemma ReachedEnd(s: Server, sub: Subscriber)
    requires sub.cursor == |s.log| && FirstLive(sub) <= |s.log|
    ensures Reached(sub) == |s.log|
  {
    hide FirstLive;
  }

  /** The client has handled everything that the connection has brought, and the connection has reached the end. */
  ghost predicate CaughtUp(sys: System) {
    && HasFollowed(sys.sub) && sys.handled == |sys.sub.sent|
    && sys.sub.queue == [] && sys.sub.cursor == |sys.server.log|
  }

  lemma AnchorAtMost(log: seq<SubscribeUpdate>, sub: Subscriber, f: nat)
    requires AnchorLogged(log, sub) && HasJoined(sub) && sub.request.resume.Some? && NeverBeyond(log, f)
    ensures sub.request.resume.value.finalizedHeight <= f
  {
    hide Finalizes;
    var a: nat :| a < |log| && Finalizes(log[a]) == AnchorOf(sub.request.resume);
    assert log[a] in log;
  }

  lemma InvNumbered(cfg: Config, st: State)
    requires Inv(cfg, st)
    ensures Numbered(st.server.log)
  {
    hide MempoolInv, WindowInv, SubInv;
  }

  lemma ResumedChainNow(setup: Setup, canon: Canon, sys: System, f: nat)
    requires Represents(setup.filter, setup.request, canon) && CatchAll(setup.request)
    requires Inv(setup.config, State(sys.server, sys.sub)) && ResumeInv(setup, sys)
    requires CaughtUp(sys) && sys.sub.request.resume.Some? && ReplaysAll(sys)
    requires ReplayableFrom(sys.server.log, f) && FinalizedAt(sys.server.log, f)
    ensures sys.client.chain == ObserveAll(EMPTY, sys.server.log)
  {
    hide Inv, Represents, NoticeFirst, AnchorLogged, ObserveAll, Passes, FromCheckpoint, Opened, PartFrom, Numbered,
      ReplaysAll, BlockPart, FinalityMovesUp, NeverBeyond, Harmless, FinalizedAt;
    var checkpoint, log, sent := sys.sub.request.resume.value, sys.server.log, sys.sub.sent;
    assert sent[..|sent|] == sent;
    CaughtUpOpened(setup, canon, sys);
    CaughtUpPart(setup.config, sys);
    InvNumbered(setup.config, State(sys.server, sys.sub));
    ConnectionFolds(setup.filter, checkpoint, sent);
    AnchorAtMost(log, sys.sub, f);
    PartReconstructs(log, BlockPart(sent), checkpoint.finalizedHeight, checkpoint.finalizedHash, f);
  }

  /** A client that has resumed and caught up has, for a catch-all request, the chain state of everything ever
      published: whatever connections came before, if the replay held everything at or above its anchor and the log can
      be replayed from its last finalized block. */
  lemma ResumedChainIsLog(setup: Setup, canon: Canon, states: seq<System>, moves: seq<Move>, i: nat, f: nat)
    requires Represents(setup.filter, setup.request, canon) && CatchAll(setup.request)
    requires IsStory(setup, states, moves) && i <= |moves| && ReplayHeight(setup.request).Ok?
    requires CaughtUp(states[i]) && states[i].sub.request.resume.Some? && ReplaysAll(states[i])
    requires ReplayableFrom(states[i].server.log, f) && FinalizedAt(states[i].server.log, f)
    ensures states[i].client.chain == ObserveAll(EMPTY, states[i].server.log)
  {
    hide Inv, Represents, ReplayHeight, ResumeInv, CaughtUp, ReplaysAll, ReplayableFrom, FinalizedAt, ObserveAll,
      Acceptance.ShownInv;
    StoryFollows(setup, states, moves, i);
    Acceptance.StoryShown(setup, states, moves, i);
    hide IsStory;
    ResumedChainNow(setup, canon, states[i], f);
  }

  /** Why the replay has to hold everything at or above the anchor. A block is accepted above a block that is then
      finalized, with room for one event: the resume from the finalized block succeeds, but the echoed notice has
      discarded the accepted block and the replay does not bring it back. */
  lemma EvictedBlockForgotten(limits: Limits, accepted: Entry, final: Entry, f: nat, hash: Text, block: BlockKey)
    requires limits.heights > 0 && limits.events == 1
    requires limits.bytes >= accepted.encodedLen && limits.bytes >= final.encodedLen
    requires accepted.message.update.Some? && accepted.message.update.value.Block?
    requires Finalizes(accepted.message).None? && BlockHeight(accepted.message) == Some(block.0)
    requires accepted.message.update.value.hash == block.1 && block.0 > f
    requires IsFinalizedBlock(final.message, hash) && BlockHeight(final.message) == Some(f)
    ensures var ops := [Window.Push([accepted], 0), Window.Push([final], 0)];
            var log, window := [accepted.message, final.message], Window.Run(limits, ops);
            && ChainRule(Window.History(ops)) && ReplayableFrom(log, f) && FinalizedAt(log, f)
            && SnapshotOf(window, Some(f)).Ok?
            && block in ObserveAll(EMPTY, log).partial
            && block !in ObserveAll(Resumed(f, hash), SnapshotOf(window, Some(f)).value.updates).partial
  {
    var a, b := Bucket(block.0, 0, [accepted], accepted.encodedLen), Bucket(f, 0, [final], final.encodedLen);
    TwoFolded(accepted.message, final.message, f, hash, block);
    TwoReplayable(accepted.message, final.message, f, hash);
    assert !Finalizing(a);
    hide Window.Run, Window.History, SnapshotOf, Replayed, FirstAvailable, ObserveAll, Finalizing, ReplayableFrom,
      FinalizedAt, Finalizes;
    Window.TwoPushes(limits, accepted, final, a, b);
    Window.OnlyOne(b, final.message);
    Window.OneSnapshot(b, final.message);
    assert ChainRule([a, b]);
  }

  lemma TwoReplayable(x: SubscribeUpdate, y: SubscribeUpdate, f: nat, hash: Text)
    requires x.update.Some? && x.update.value.Block? && Finalizes(x).None?
    requires IsFinalizedBlock(y, hash) && BlockHeight(y) == Some(f)
    ensures ReplayableFrom([x, y], f) && FinalizedAt([x, y], f)
  {
    assert [x, y][0] == x && [x, y][1] == y;
  }

  lemma TwoFolded(x: SubscribeUpdate, y: SubscribeUpdate, f: nat, hash: Text, block: BlockKey)
    requires x.update.Some? && x.update.value.Block? && !x.update.value.finalized
    requires x.update.value.height == block.0 && x.update.value.hash == block.1 && block.0 > f
    requires IsFinalizedBlock(y, hash) && BlockHeight(y) == Some(f)
    ensures block in ObserveAll(EMPTY, [x, y]).partial
    ensures block !in ObserveAll(Resumed(f, hash), [y]).partial
  {
    assert [x, y][..1] == [x] && [x][..0] == [] && [y][..0] == [];
    assert ObserveAll(EMPTY, [x]) == Observe(EMPTY, x);
  }
}
