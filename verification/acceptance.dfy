// When the server accepts a client's anchor: exactly while the batch that finalized it is retained. And exactly what
// an accepted replay brings back.
module Acceptance {
  import opened Proto
  import opened Replay
  import opened ChainResume
  import opened Events
  import opened Handshake
  import opened Protocol
  import opened Splice
  import opened Guarantees
  import opened Recovery
  import Window

  /** The server publishes a finalized block with whatever else finalizes it. */
  ghost predicate ShownInv(s: Server) {
    && (s.publisher.Ready? ==> FinalityShown(s.publisher.batch))
    && forall j :: 0 <= j < |s.history| ==> FinalityShown(Messages(s.history[j].updates))
  }

  /** Numbers and revisions do not change what an update finalizes. */
  ghost predicate SameUpdates(a: seq<SubscribeUpdate>, b: seq<SubscribeUpdate>) {
    |a| == |b| && forall i :: 0 <= i < |a| ==> a[i].update == b[i].update
  }

  lemma ShownBySame(a: seq<SubscribeUpdate>, b: seq<SubscribeUpdate>)
    requires FinalityShown(a) && SameUpdates(a, b)
    ensures FinalityShown(b)
  {
    forall u | u in b && Finalizes(u).Some? ensures exists v :: v in b && IsFinalizedBlock(v, Finalizes(u).value.1) {
      var i :| 0 <= i < |b| && b[i] == u;
      assert a[i] in a && Finalizes(a[i]) == Finalizes(u);
      var w :| w in a && IsFinalizedBlock(w, Finalizes(u).value.1);
      var k :| 0 <= k < |a| && a[k] == w;
      assert b[k] in b && IsFinalizedBlock(b[k], Finalizes(u).value.1);
    }
  }

  lemma BeginKeepsShown(s: Server, batch: seq<SubscribeUpdate>)
    requires ShownInv(s) && FinalityShown(batch)
    ensures ShownInv(DoBegin(s, batch))
  {
    BeginLeaves(s, batch);
    var r := DoBegin(s, batch);
    assert SameUpdates(batch, r.publisher.batch);
    ShownBySame(batch, r.publisher.batch);
    hide DoBegin, FinalityShown;
  }

  lemma PushKeepsShown(cfg: Config, s: Server, now: nat)
    requires ShownInv(s) && LogInv(s) && s.publisher.Ready?
    ensures ShownInv(DoPush(cfg, s, now))
  {
    var batch := s.publisher.batch;
    BatchBucket(batch, s.publisher.locked, |s.log|, s.mempool.revision, cfg.measure, now);
    var bs := BucketOf(Entries(batch, cfg.measure), now);
    assert Messages(Entries(batch, cfg.measure)) == batch;
    hide BucketOf, Pushed, FinalityShown, LogInv, BatchInv, Messages, Entries;
  }

  lemma DoKeepsShown(cfg: Config, st: State, step: Step)
    requires Inv(cfg, st) && ShownInv(st.server) && Enabled(cfg, st, step)
    ensures ShownInv(Do(cfg, st, step).server)
  {
    hide FinalityShown, LogInv, MempoolInv, WindowInv, SubInv;
    match step {
      case Begin(batch) =>
        BeginKeepsShown(st.server, batch);
        hide DoBegin;
      case Push(now) =>
        PushKeepsShown(cfg, st.server, now);
        hide DoPush;
      case Join(now) =>
        JoinLeaves(cfg, st, now);
        hide DoJoin, Kept;
      case _ =>
        hide Kept;
    }
  }

  /** In every state of every story, whatever the chain does. */
  lemma {:induction false} StoryShown(setup: Setup, states: seq<System>, moves: seq<Move>, i: nat)
    requires IsStory(setup, states, moves) && i <= |moves|
    ensures Inv(setup.config, State(states[i].server, states[i].sub)) && ShownInv(states[i].server)
  {
    hide Inv, ShownInv, Do, Enabled, NextRequest, Handled, NewClient;
    if i == 0 {
      InitialInv(setup.config, setup.request);
      EmptyShown();
    } else {
      var before, move := states[i - 1], moves[i - 1];
      assert Allowed(setup, before, move) && states[i - 1 + 1] == After(setup, before, move);
      StoryShown(setup, states, moves, i - 1);
      match move {
        case Net(step) =>
          StepKeeps(setup.config, State(before.server, before.sub), step);
          DoKeepsShown(setup.config, State(before.server, before.sub), step);
        case Resubscribe => ResubscribeKeepsInv(setup.config, before.server, before.sub,
          NextRequest(setup, before.client));
        case _ =>
      }
    }
  }

  lemma EmptyShown()
    ensures ShownInv(EMPTY_SERVER)
  {
  }

  lemma ResubscribeKeepsInv(cfg: Config, server: Server, sub: Subscriber, request: SubscribeRequest)
    requires Inv(cfg, State(server, sub))
    ensures Inv(cfg, State(server, FreshSubscriber(request)))
  {
    FreshKeeps(server, request);
    hide ServerInv, SubInv;
  }

  // ---------- the decision ----------

  /** The batch that position `a` of the log was published in is among these buckets. */
  ghost predicate Retains(bs: seq<Bucket>, log: seq<SubscribeUpdate>, a: nat)
    requires a < |log|
  {
    exists b :: b in bs && log[a] in Messages(b.updates)
  }

  lemma OnlyBucket(log: seq<SubscribeUpdate>, history: seq<Bucket>, j: nat, k: nat, a: nat)
    requires Numbered(log) && AllSpan(log, history) && InOrder(history) && j < |history| && k < |history| && a < |log|
    requires Inside(history, j, a) && log[a] in Messages(history[k].updates)
    ensures j == k
  {
    assert Spans(log, history[k]);
    InOneStretch(log, history[k], a);
    hide Spans;
  }

  lemma RetainsIsIndex(log: seq<SubscribeUpdate>, history: seq<Bucket>, bs: seq<Bucket>, j: nat, a: nat)
    requires Numbered(log) && AllSpan(log, history) && InOrder(history) && IsSuffix(bs, history)
    requires j < |history| && a < |log| && Inside(history, j, a) && log[a] in Messages(history[j].updates)
    ensures Retains(bs, log, a) <==> |history| - |bs| <= j
  {
    hide AllSpan, InOrder, Numbered;
    var d := |history| - |bs|;
    if d <= j {
      assert bs[j - d] == history[j];
    }
    if Retains(bs, log, a) {
      var b :| b in bs && log[a] in Messages(b.updates);
      var m :| 0 <= m < |bs| && bs[m] == b;
      assert history[d + m] == b;
      OnlyBucket(log, history, j, d + m, a);
    }
  }

  lemma InOneStretch(log: seq<SubscribeUpdate>, b: Bucket, a: nat)
    requires Numbered(log) && Spans(log, b) && a < |log| && log[a] in Messages(b.updates)
    ensures Start(b) <= a < Until(b)
  {
    var k :| 0 <= k < |b.updates| && Messages(b.updates)[k] == log[a];
    assert log[Start(b) + k] == log[a];
  }

  lemma ShownProves(b: Bucket, u: SubscribeUpdate, checkpoint: ResumeCheckpoint)
    requires FinalityShown(Messages(b.updates)) && u in Messages(b.updates)
    requires Finalizes(u) == Some((checkpoint.finalizedHeight, checkpoint.finalizedHash))
             && b.height == checkpoint.finalizedHeight
    ensures Proves(b, checkpoint)
  {
    var v :| v in Messages(b.updates) && IsFinalizedBlock(v, checkpoint.finalizedHash);
    var k :| 0 <= k < |b.updates| && Messages(b.updates)[k] == v;
    assert b.updates[k] in b.updates;
  }

  /** Below the chain rule, the checks of a request anchored at bucket j succeed exactly while j is retained, and
      otherwise answer OUT_OF_RANGE. */
  lemma ChecksDecide(history: seq<Bucket>, bs: seq<Bucket>, j: nat, checkpoint: ResumeCheckpoint)
    requires IsSuffix(bs, history) && ChainRule(history) && j < |history| && Finalizing(history[j])
    requires Proves(history[j], checkpoint)
    ensures Verified(bs, checkpoint) == if |history| - |bs| <= j then Ok(()) else Err(OutOfRange)
    ensures SnapshotOf(bs, Some(checkpoint.finalizedHeight)).Ok? <==> |history| - |bs| <= j
    ensures SnapshotOf(bs, Some(checkpoint.finalizedHeight)).Err? ==>
              SnapshotOf(bs, Some(checkpoint.finalizedHeight)) == Err(OutOfRange)
  {
    hide ChainRule, Finalizing, Proves, Verified, SnapshotOf, FirstAvailable, Heights, Watermark, Replayed;
    var d := |history| - |bs|;
    assert history[j].height == checkpoint.finalizedHeight by {
      ProvesHeight(history[j], checkpoint);
    }
    Window.RangeFailure(bs, checkpoint.finalizedHeight);
    SnapshotError(bs, Some(checkpoint.finalizedHeight));
    if d <= j {
      assert bs[j - d] == history[j];
      CheckPasses(bs, history[j], checkpoint);
    } else {
      LaterAreHigher(history, bs, j);
      CheckRefuses(bs, checkpoint);
    }
  }

  lemma ProvesHeight(b: Bucket, checkpoint: ResumeCheckpoint)
    requires Proves(b, checkpoint)
    ensures b.height == checkpoint.finalizedHeight
  {
  }

  lemma CheckPasses(bs: seq<Bucket>, b: Bucket, checkpoint: ResumeCheckpoint)
    requires b in bs && Proves(b, checkpoint)
    ensures Verified(bs, checkpoint) == Ok(())
  {
  }

  lemma CheckRefuses(bs: seq<Bucket>, checkpoint: ResumeCheckpoint)
    requires forall b :: b in bs ==> checkpoint.finalizedHeight < b.height
    ensures Verified(bs, checkpoint) == Err(OutOfRange)
  {
  }

  lemma LaterAreHigher(history: seq<Bucket>, bs: seq<Bucket>, j: nat)
    requires IsSuffix(bs, history) && ChainRule(history) && j < |history| - |bs| && Finalizing(history[j])
    ensures forall b :: b in bs ==> history[j].height < b.height
  {
    hide Finalizing;
    forall b | b in bs ensures history[j].height < b.height {
      var m :| 0 <= m < |bs| && bs[m] == b;
      assert history[|history| - |bs| + m] == b;
    }
  }

  /** Accepted exactly while retained. For every interleaving: a well-formed request anchored at a block that was
      finalized at log position `a` is accepted at time `now` if and only if the eviction at `now` keeps the batch
      of position `a`; otherwise it is refused with OUT_OF_RANGE, never with another code and never with a replay
      that has a gap. */
  lemma AnchorDecides(setup: Setup, states: seq<System>, moves: seq<Move>, i: nat, a: nat, now: nat)
    requires IsStory(setup, states, moves) && i <= |moves| && ChainRule(states[i].server.history)
    requires states[i].sub.phase == Listening && states[i].sub.request.resume.Some?
             && ReplayHeight(states[i].sub.request).Ok?
    requires a < |states[i].server.log|
    requires Finalizes(states[i].server.log[a]) == AnchorOf(states[i].sub.request.resume)
    ensures var s := states[i].server;
            var r := DoJoin(setup.config, State(s, states[i].sub), now).sub;
            r.phase == if Retains(Kept(s.buckets, setup.config.limits, now), s.log, a) then Joined
              else Refused(OutOfRange)
  {
    StoryShown(setup, states, moves, i);
    var s, sub := states[i].server, states[i].sub;
    hide IsStory, ShownInv, LogInv, MempoolInv, HistoryInv, IsSuffix, ChainRule, SubInv, Retains, Finalizes, DoJoin,
      Kept, ReplayHeight, AnchorOf;
    KeptSuffix(s.buckets, s.history, setup.config.limits, now);
    KeptIsSuffix(s.buckets, setup.config.limits, now);
    AnchorShape(s.log[a], sub.request);
    AnchorBucket(s, Kept(s.buckets, setup.config.limits, now), a, sub.request.resume.value);
    JoinByChecks(setup.config, State(s, sub), now);
  }

  lemma AnchorShape(u: SubscribeUpdate, request: SubscribeRequest)
    requires request.resume.Some? && ReplayHeight(request).Ok? && Finalizes(u) == AnchorOf(request.resume)
    ensures var f := request.resume.value.finalizedHeight;
            && Finalizes(u) == Some((f, request.resume.value.finalizedHash)) && BlockHeight(u) == Some(f)
            && ReplayHeight(request) == Ok(Some(f))
  {
    AnchorIsLastFinalized(EMPTY, u);
  }

  /** The outcome of a join is that of its two checks. */
  lemma JoinByChecks(cfg: Config, st: State, now: nat)
    requires ReplayHeight(st.sub.request).Ok? && st.sub.request.resume.Some?
    ensures var verified := Verified(st.server.buckets, st.sub.request.resume.value);
            var snapshot := SnapshotOf(Kept(st.server.buckets, cfg.limits, now), ReplayHeight(st.sub.request).value);
            DoJoin(cfg, st, now).sub.phase
            == if verified.Err? then Refused(verified.error) else if snapshot.Err? then Refused(snapshot.error)
              else Joined
  {
    hide Verified, SnapshotOf, Kept, ReplayHeight;
  }

  lemma AnchorBucket(s: Server, kept: seq<Bucket>, a: nat, checkpoint: ResumeCheckpoint)
    requires LogInv(s) && HistoryInv(s.log, s.history) && ShownInv(s) && ChainRule(s.history)
    requires IsSuffix(s.buckets, s.history) && IsSuffix(kept, s.history) && |kept| <= |s.buckets|
    requires a < |s.log| && Finalizes(s.log[a]) == Some((checkpoint.finalizedHeight, checkpoint.finalizedHash))
    requires BlockHeight(s.log[a]) == Some(checkpoint.finalizedHeight)
    ensures Retains(kept, s.log, a)
            ==> Verified(s.buckets, checkpoint).Ok? && SnapshotOf(kept, Some(checkpoint.finalizedHeight)).Ok?
    ensures !Retains(kept, s.log, a) ==>
              && (Verified(s.buckets, checkpoint).Ok? || Verified(s.buckets, checkpoint) == Err(OutOfRange))
              && SnapshotOf(kept, Some(checkpoint.finalizedHeight)) == Err(OutOfRange)
  {
    hide AllSpan, AllHeld, InOrder, ChainRule, IsSuffix, Verified, SnapshotOf, Finalizes, BlockHeight, FinalityShown,
      Retains, Proves;
    var j := BucketOfUpdate(s.log, s.history, a);
    AllRevised(s);
    RetainsIsIndex(s.log, s.history, kept, j, a);
    ShownProves(s.history[j], s.log[a], checkpoint);
    ChecksDecide(s.history, s.buckets, j, checkpoint);
    ChecksDecide(s.history, kept, j, checkpoint);
  }

  // ---------- why a request is refused ----------

  /** The update lies in the replay window. */
  ghost predicate InWindow(bs: seq<Bucket>, u: SubscribeUpdate) {
    exists b :: b in bs && u in Messages(b.updates)
  }

  /** The replay window still has something of this height. */
  ghost predicate HeightRetained(bs: seq<Bucket>, height: nat) {
    exists u :: InWindow(bs, u) && BlockHeight(u) == Some(height)
  }

  /** The replay window still has this block itself, finalized. */
  ghost predicate BlockRetained(bs: seq<Bucket>, height: nat, hash: Text) {
    exists u :: InWindow(bs, u) && u.update.Some? && u.update.value.Block?
                && u.update.value.height == height && u.update.value.hash == hash && u.update.value.finalized
  }

  /** With a checkpoint: INVALID_ARGUMENT if it makes no sense; else accepted only if the window has its block,
      finalized; FAILED_PRECONDITION if the window has its height without that block, as when the chain or the node is
      another one; and OUT_OF_RANGE if the window does not reach its height, or no longer does at this moment. */
  lemma RefusedExactly(cfg: Config, st: State, now: nat)
    requires Inv(cfg, st) && st.sub.request.resume.Some?
    ensures var bs, c := st.server.buckets, st.sub.request.resume.value;
            var phase := DoJoin(cfg, st, now).sub.phase;
            if ReplayHeight(st.sub.request).Err? then phase == Refused(InvalidArgument)
            else if BlockRetained(bs, c.finalizedHeight, c.finalizedHash) then
              phase == Joined || phase == Refused(OutOfRange)
            else if HeightRetained(bs, c.finalizedHeight) then phase == Refused(FailedPrecondition)
            else phase == Refused(OutOfRange)
  {
    var s, c := st.server, st.sub.request.resume.value;
    AcceptedCheckpoints(st.sub.request);
    if ReplayHeight(st.sub.request).Ok? {
      JoinByChecks(cfg, st, now);
      SuffixSpans(s.log, s.history, s.buckets);
      hide Inv, Kept, ReplayHeight, DoJoin, AllSpan, BlockRetained, HeightRetained, Verified;
      VerifiedByContents(s.log, s.buckets, c);
      SnapshotError(Kept(s.buckets, cfg.limits, now), ReplayHeight(st.sub.request).value);
    }
  }

  lemma SuffixSpans(log: seq<SubscribeUpdate>, history: seq<Bucket>, bs: seq<Bucket>)
    requires AllSpan(log, history) && IsSuffix(bs, history)
    ensures AllSpan(log, bs)
  {
    forall j | 0 <= j < |bs| ensures Spans(log, bs[j]) {
      assert bs[j] == history[|history| - |bs| + j];
    }
  }

  lemma SnapshotError(bs: seq<Bucket>, from: Option<nat>)
    ensures SnapshotOf(bs, from).Err? ==> SnapshotOf(bs, from).error == OutOfRange
  {
  }

  /** The check of a checkpoint, by what the window holds. */
  lemma VerifiedByContents(log: seq<SubscribeUpdate>, bs: seq<Bucket>, c: ResumeCheckpoint)
    requires AllSpan(log, bs)
    ensures Verified(bs, c)
            == if BlockRetained(bs, c.finalizedHeight, c.finalizedHash) then Ok(())
               else if HeightRetained(bs, c.finalizedHeight) then Err(FailedPrecondition)
               else Err(OutOfRange)
  {
    hide AllSpan, Proves, Heights, BlockRetained, HeightRetained;
    HeightByContents(log, bs, c.finalizedHeight);
    if b :| b in bs && Proves(b, c) {
      ProvedIsRetained(log, bs, b, c);
    }
    if BlockRetained(bs, c.finalizedHeight, c.finalizedHash) {
      RetainedProves(log, bs, c);
    }
  }

  lemma ProvedIsRetained(log: seq<SubscribeUpdate>, bs: seq<Bucket>, b: Bucket, c: ResumeCheckpoint)
    requires AllSpan(log, bs) && b in bs && Proves(b, c)
    ensures BlockRetained(bs, c.finalizedHeight, c.finalizedHash)
  {
    var j :| 0 <= j < |bs| && bs[j] == b;
    SpanHeights(log, bs[j]);
    hide AllSpan;
    var e :| e in b.updates && IsFinalizedBlock(e.message, c.finalizedHash);
    var k :| 0 <= k < |b.updates| && b.updates[k] == e;
    assert Messages(b.updates)[k] == e.message && e.message in Messages(b.updates);
    assert InWindow(bs, e.message) && BlockHeight(e.message) == Some(b.height);
  }

  lemma RetainedProves(log: seq<SubscribeUpdate>, bs: seq<Bucket>, c: ResumeCheckpoint)
    requires AllSpan(log, bs) && BlockRetained(bs, c.finalizedHeight, c.finalizedHash)
    ensures exists b :: b in bs && Proves(b, c)
  {
    var u :| InWindow(bs, u) && u.update.Some? && u.update.value.Block? && u.update.value.height == c.finalizedHeight
             && u.update.value.hash == c.finalizedHash && u.update.value.finalized;
    var b :| b in bs && u in Messages(b.updates);
    var j :| 0 <= j < |bs| && bs[j] == b;
    SpanHeights(log, bs[j]);
    assert BlockHeight(u) == Some(b.height) && b.height == c.finalizedHeight;
    hide AllSpan, Proves;
    OneProves(b, u, c);
  }

  lemma OneProves(b: Bucket, u: SubscribeUpdate, c: ResumeCheckpoint)
    requires u in Messages(b.updates) && b.height == c.finalizedHeight && IsFinalizedBlock(u, c.finalizedHash)
    ensures Proves(b, c)
  {
    var k :| 0 <= k < |b.updates| && Messages(b.updates)[k] == u;
    assert b.updates[k] in b.updates;
  }

  lemma SpanHeights(log: seq<SubscribeUpdate>, b: Bucket)
    requires Spans(log, b)
    ensures forall u :: u in Messages(b.updates) ==> BlockHeight(u) == Some(b.height)
  {
    forall u | u in Messages(b.updates) ensures BlockHeight(u) == Some(b.height) {
      var k :| 0 <= k < |b.updates| && Messages(b.updates)[k] == u;
      assert u == log[Start(b) + k];
    }
  }

  lemma HeightByContents(log: seq<SubscribeUpdate>, bs: seq<Bucket>, height: nat)
    requires AllSpan(log, bs)
    ensures height in Heights(bs) <==> HeightRetained(bs, height)
  {
    if b :| b in bs && b.height == height {
      var j :| 0 <= j < |bs| && bs[j] == b;
      SpanHeights(log, bs[j]);
      assert Messages(b.updates)[0] in Messages(b.updates);
      assert InWindow(bs, Messages(b.updates)[0]);
    }
    if u :| InWindow(bs, u) && BlockHeight(u) == Some(height) {
      var b :| b in bs && u in Messages(b.updates);
      var j :| 0 <= j < |bs| && bs[j] == b;
      SpanHeights(log, bs[j]);
    }
  }

  /** A request for no height is accepted at any time and replays nothing: the subscriber goes straight to the ring. */
  lemma NothingToReplay(cfg: Config, st: State, now: nat)
    requires st.sub.request.resume.None? && st.sub.request.fromHeight.None?
    ensures DoJoin(cfg, st, now).sub.phase == Joined && DoJoin(cfg, st, now).sub.replay == []
  {
    hide Kept;
  }

  // ---------- what a replay brings back ----------

  /** Whatever was published from log position `n` on is in the replay. */
  ghost predicate AllBack(log: seq<SubscribeUpdate>, window: seq<Bucket>, n: int, from: nat) {
    forall i :: 0 <= i < |log| && n <= i && BlockHeight(log[i]).Some? ==> log[i] in Replayed(window, from)
  }

  /** Bucket k is retained and lies at or above the height. */
  predicate KeptAt(history: seq<Bucket>, window: seq<Bucket>, k: nat, from: nat)
    requires k < |history|
  {
    |history| - |window| <= k && from <= history[k].height
  }

  ghost predicate LaterKept(history: seq<Bucket>, window: seq<Bucket>, j: nat, from: nat) {
    forall k :: j < k < |history| ==> KeptAt(history, window, k, from)
  }

  /** With or without an anchor: whatever was published after bucket j comes back in a replay if and only if every
      later bucket is retained and lies at or above the height replayed from. */
  lemma LaterComesBack(log: seq<SubscribeUpdate>, history: seq<Bucket>, window: seq<Bucket>, j: nat, from: nat)
    requires Numbered(log) && HistoryInv(log, history) && IsSuffix(window, history)
    requires j < |history|
    ensures AllBack(log, window, Until(history[j]), from) <==> LaterKept(history, window, j, from)
  {
    assert Spans(log, history[j]);
    hide HistoryInv, IsSuffix, Numbered, Replayed, BlockHeight, Start, Until, Messages;
    if LaterKept(history, window, j, from) {
      forall i | 0 <= i < |log| && Until(history[j]) <= i && BlockHeight(log[i]).Some?
        ensures log[i] in Replayed(window, from)
      {
        LaterReplayed(log, history, window, j, from, i);
      }
    }
    if AllBack(log, window, Until(history[j]), from) {
      forall k | j < k < |history| ensures KeptAt(history, window, k, from) {
        FirstReplayed(log, history, window, j, k, from);
      }
    }
  }

  lemma LaterReplayed(log: seq<SubscribeUpdate>, history: seq<Bucket>, window: seq<Bucket>, j: nat, from: nat, i: nat)
    requires HistoryInv(log, history) && IsSuffix(window, history) && j < |history|
    requires Spans(log, history[j]) && Until(history[j]) <= i < |log| && BlockHeight(log[i]).Some?
    requires LaterKept(history, window, j, from)
    ensures log[i] in Replayed(window, from)
  {
    hide AllSpan, AllHeld, InOrder, IsSuffix, Replayed, BlockHeight, Finalizes, Finalizing, Messages;
    var k := BucketOfUpdate(log, history, i);
    if k < j {
      EarlierBucket(log, history, j, k, Start(history[j]), i);
    }
    assert KeptAt(history, window, k, from);
    RetainedReplayed(history, window, k, from, log[i]);
  }

  /** The first update of a later bucket is replayed only if the bucket is retained and high enough. */
  lemma FirstReplayed(
    log: seq<SubscribeUpdate>, history: seq<Bucket>, window: seq<Bucket>, j: nat, k: nat, from: nat)
    requires Numbered(log) && HistoryInv(log, history) && IsSuffix(window, history) && j < k < |history|
    requires Spans(log, history[j]) && AllBack(log, window, Until(history[j]), from)
    ensures KeptAt(history, window, k, from)
  {
    assert Spans(log, history[k]) && Until(history[j]) <= Start(history[k]);
    hide Numbered, AllSpan, AllHeld, InOrder, Replayed, Messages, IsSuffix;
    ReplayedOnce(log, history, window, k, Start(history[k]), from);
  }

  lemma ReplayedOnce(
    log: seq<SubscribeUpdate>, history: seq<Bucket>, window: seq<Bucket>, k: nat, i: nat, from: nat)
    requires Numbered(log) && HistoryInv(log, history) && IsSuffix(window, history)
    requires k < |history| && i < |log| && Inside(history, k, i) && log[i] in Replayed(window, from)
    ensures KeptAt(history, window, k, from)
  {
    hide Numbered, AllSpan, AllHeld, InOrder, Replayed, Messages, Inside;
    Window.InReplayed(window, from, log[i]);
    var b :| b in window && b.height >= from && log[i] in Messages(b.updates);
    var m :| 0 <= m < |window| && window[m] == b;
    assert history[|history| - |window| + m] == b;
    OnlyBucket(log, history, k, |history| - |window| + m, i);
  }
}
