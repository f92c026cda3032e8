// What a subscriber is sent, in every state of every run: the block-scoped stream and the mempool's key set.
module Guarantees {
  import opened Proto
  import opened Replay
  import opened Handshake
  import opened Protocol
  import opened Splice
  import MempoolView

  // ---------- strictly increasing sequence numbers ----------

  /** Strictly increasing sequence numbers, all above `lo` and at most `hi`. */
  ghost predicate InSequence(us: seq<SubscribeUpdate>, lo: int, hi: int) {
    && (forall i :: 0 <= i < |us| ==> lo < us[i].sequence <= hi)
    && (forall i, j :: 0 <= i < j < |us| ==> us[i].sequence < us[j].sequence)
  }

  lemma InSequenceAppend(a: seq<SubscribeUpdate>, b: seq<SubscribeUpdate>, lo: int, mid: int, hi: int)
    requires InSequence(a, lo, mid) && InSequence(b, mid, hi) && lo <= mid <= hi
    ensures InSequence(a + b, lo, hi)
  {
  }

  /** A replay is in log order: buckets are whole stretches of the log, one after the other. */
  lemma {:induction false} ReplayedAscends(log: seq<SubscribeUpdate>, window: seq<Bucket>, from: nat, lo: int, hi: int)
    requires Numbered(log) && AllSpan(log, window) && InOrder(window) && lo <= hi
    requires window != [] ==> lo <= Start(window[0]) && Until(window[|window| - 1]) <= hi
    ensures InSequence(Replayed(window, from), lo, hi)
  {
    if window == [] {
    } else {
      var b, rest := window[0], window[1..];
      assert Spans(log, b);
      StretchAscends(log, b);
      assert AllSpan(log, rest) && InOrder(rest) by {
        hide Spans;
      }
      var mid := Until(b);
      assert rest != [] ==> mid <= Start(window[1]);
      ReplayedAscends(log, rest, from, mid, hi);
      var first := if b.height >= from then Messages(b.updates) else [];
      assert InSequence(first, lo, mid);
      InSequenceAppend(first, Replayed(rest, from), lo, mid, hi);
    }
  }

  lemma StretchAscends(log: seq<SubscribeUpdate>, b: Bucket)
    requires Numbered(log) && Spans(log, b)
    ensures InSequence(Messages(b.updates), Start(b), Until(b))
  {
    forall i | 0 <= i < |b.updates| ensures Messages(b.updates)[i].sequence == Start(b) + i + 1 {
      assert Messages(b.updates)[i] == log[Start(b) + i];
    }
  }

  lemma {:induction false} LiveAscends(log: seq<SubscribeUpdate>, lo: nat, hi: nat)
    requires Numbered(log) && lo <= hi <= |log|
    ensures InSequence(BlockPart(log[lo..hi]), lo, hi)
  {
    if lo == hi {
      assert log[lo..hi] == [];
    } else {
      LiveAscends(log, lo, hi - 1);
      assert log[lo..hi][..hi - 1 - lo] == log[lo..hi - 1];
      assert log[lo..hi][hi - 1 - lo] == log[hi - 1];
      InSequenceAppend(BlockPart(log[lo..hi - 1]), if BlockHeight(log[hi - 1]).Some? then [log[hi - 1]]
        else [], lo, hi - 1, hi);
    }
  }

  // ---------- what a subscriber is sent ----------

  /** Everything the subscriber has been sent or is about to be sent before it looks at the ring again. */
  function Outgoing(sub: Subscriber): (r: seq<SubscribeUpdate>) {
    sub.sent + sub.queue
  }

  /** The log position that the subscriber has reached. */
  function Reached(sub: Subscriber): (r: nat)
    ensures r >= sub.cursor && r >= FirstLive(sub)
  {
    if sub.cursor < FirstLive(sub) then FirstLive(sub) else sub.cursor
  }

  /** No block-scoped update is mistaken for one that the mempool snapshot covers. */
  lemma {:induction false} PassedBlocks(log: seq<SubscribeUpdate>, lo: nat, hi: nat, mark: Option<nat>, revision: nat)
    requires lo <= hi <= |log| && forall i :: 0 <= i < |log| ==> Revised(log[i], revision)
    ensures BlockPart(Passed(log, lo, hi, mark)) == BlockPart(log[lo..hi])
  {
    if lo == hi {
      assert log[lo..hi] == [];
    } else {
      var u := log[hi - 1];
      var one := if Covered(u, mark) then [] else [u];
      assert Passed(log, lo, hi, mark) == Passed(log, lo, hi - 1, mark) + one;
      assert log[lo..hi] == log[lo..hi - 1] + [u];
      hide Passed, Revised, Covered, BlockPart;
      PassedBlocks(log, lo, hi - 1, mark, revision);
      BlockPartAppend(log[lo..hi - 1], [u]);
      BlockPartAppend(Passed(log, lo, hi - 1, mark), one);
      CoveredNotBlock(u, mark, revision);
    }
  }

  lemma CoveredNotBlock(u: SubscribeUpdate, mark: Option<nat>, revision: nat)
    requires Revised(u, revision)
    ensures Covered(u, mark) ==> BlockPart([u]) == []
    ensures BlockPart([]) == []
  {
    assert [u][..0] == [];
  }

  lemma FirstLiveBound(s: Server, sub: Subscriber)
    requires LogInv(s) && JoinInv(s, sub)
    ensures FirstLive(sub) <= sub.joinedAt <= |s.log|
    ensures Watermark(sub.window)
            == (if sub.window == [] then 0 else Until(sub.window[|sub.window| - 1])) <= FirstLive(sub)
  {
    WatermarkIsEnd(s.log, sub.window);
  }

  /** The block-scoped part of what is delivered: the replay, then a stretch of the log. */
  lemma OutgoingBlocks(s: Server, sub: Subscriber)
    requires LogInv(s) && |s.ring| <= |s.log| && HasFollowed(sub) && SubInv(s, sub)
    ensures FirstLive(sub) <= Reached(sub) <= |s.log|
    ensures BlockPart(Outgoing(sub))
            == ReplayPart(sub.request, sub.window) + BlockPart(s.log[FirstLive(sub)..Reached(sub)])
  {
    FirstLiveBound(s, sub);
    var lo, hi := FirstLive(sub), Reached(sub);
    hide LogInv, WindowAt, MarkInv;
    assert Passed(s.log, lo, sub.cursor, sub.mempoolMark) == Passed(s.log, lo, hi, sub.mempoolMark) by {
      if sub.cursor < lo {
        assert Passed(s.log, lo, sub.cursor, sub.mempoolMark) == [] == Passed(s.log, lo, hi, sub.mempoolMark);
      }
    }
    hide Passed;
    BlockPartAppend(sub.initial, Passed(s.log, lo, hi, sub.mempoolMark));
    AllRevised(s);
    PassedBlocks(s.log, lo, hi, sub.mempoolMark, s.mempool.revision);
  }

  lemma AllRevised(s: Server)
    requires LogInv(s)
    ensures Numbered(s.log) && forall i :: 0 <= i < |s.log| ==> Revised(s.log[i], s.mempool.revision)
  {
    hide Revised;
  }

  lemma ReplayPartAscends(s: Server, sub: Subscriber)
    requires LogInv(s) && JoinInv(s, sub)
    ensures InSequence(ReplayPart(sub.request, sub.window), 0, FirstLive(sub))
  {
    FirstLiveBound(s, sub);
    AllRevised(s);
    hide LogInv;
    match ReplayHeight(sub.request) {
      case Ok(Some(from)) => ReplayedAscends(s.log, sub.window, from, 0, FirstLive(sub));
      case _ =>
    }
  }

  /** In log order, so nothing twice. */
  lemma OutgoingAscends(s: Server, sub: Subscriber)
    requires LogInv(s) && |s.ring| <= |s.log| && HasFollowed(sub) && SubInv(s, sub)
    ensures Reached(sub) <= |s.log| && InSequence(BlockPart(Outgoing(sub)), 0, Reached(sub))
  {
    OutgoingBlocks(s, sub);
    ReplayPartAscends(s, sub);
    AllRevised(s);
    hide LogInv, SubInv, BlockPart, ReplayPart;
    LiveAscends(s.log, FirstLive(sub), Reached(sub));
    InSequenceAppend(ReplayPart(sub.request, sub.window), BlockPart(s.log[FirstLive(sub)..Reached(sub)]), 0,
      FirstLive(sub), Reached(sub));
  }

  /** A block-scoped update delivered is in the replay or at a log position from `FirstLive` to `Reached`. */
  lemma OutgoingMembers(s: Server, sub: Subscriber, u: SubscribeUpdate)
    requires LogInv(s) && |s.ring| <= |s.log| && HasFollowed(sub) && SubInv(s, sub) && BlockHeight(u).Some?
    ensures Reached(sub) <= |s.log|
    ensures u in Outgoing(sub)
            <==> u in ReplayPart(sub.request, sub.window) || exists k :: FirstLive(sub) <= k < Reached(sub)
                                                              && s.log[k] == u
  {
    hide LogInv, SubInv, ReplayPart, BlockPart, BlockHeight, Outgoing, FirstLive, Reached;
    OutgoingBlocks(s, sub);
    BlockPartMembers(Outgoing(sub), u);
    BlockPartMembers(s.log[FirstLive(sub)..Reached(sub)], u);
    StretchMembers(s.log, FirstLive(sub), Reached(sub), u);
  }

  lemma StretchMembers(log: seq<SubscribeUpdate>, lo: nat, hi: nat, u: SubscribeUpdate)
    requires lo <= hi <= |log|
    ensures u in log[lo..hi] <==> exists k :: lo <= k < hi && log[k] == u
  {
    if k :| lo <= k < hi && log[k] == u {
      assert log[lo..hi][k - lo] == u;
    }
  }

  /** Nothing block-scoped was pushed between the last retained bucket and the snapshot. */
  lemma QuietUntilJoin(s: Server, sub: Subscriber, k: nat)
    requires LogInv(s) && JoinInv(s, sub) && FirstLive(sub) <= k < sub.joinedAt
    requires BlockHeight(s.log[k]).Some?
    ensures sub.window == [] && sub.openedAt <= k
  {
    FirstLiveBound(s, sub);
    hide LogInv, BlockHeight;
  }

  /** The whole stream of a subscriber that never falls behind: the replay, then the log from the first live one on. */
  function Stream(s: Server, sub: Subscriber): (r: seq<SubscribeUpdate>)
    requires FirstLive(sub) <= |s.log|
  {
    ReplayPart(sub.request, sub.window) + BlockPart(s.log[FirstLive(sub)..])
  }

  lemma PrefixesExtend<T>(a: seq<T>, b: seq<T>, c: seq<T>)
    ensures a <= a + b && a + b <= a + (b + c)
  {
    assert a + (b + c) == a + b + c;
  }

  lemma BlockPartSplit(log: seq<SubscribeUpdate>, lo: nat, hi: nat)
    requires lo <= hi <= |log|
    ensures BlockPart(log[lo..]) == BlockPart(log[lo..hi]) + BlockPart(log[hi..])
  {
    hide BlockPart;
    assert log[lo..] == log[lo..hi] + log[hi..];
    BlockPartAppend(log[lo..hi], log[hi..]);
  }

  lemma SentIsPrefix(s: Server, sub: Subscriber)
    requires LogInv(s) && |s.ring| <= |s.log| && HasFollowed(sub) && SubInv(s, sub)
    ensures FirstLive(sub) <= |s.log| && BlockPart(sub.sent) <= BlockPart(Outgoing(sub)) <= Stream(s, sub)
  {
    hide LogInv, SubInv, ReplayPart, BlockPart, FirstLive, Reached;
    OutgoingBlocks(s, sub);
    var lo, hi := FirstLive(sub), Reached(sub);
    BlockPartAppend(sub.sent, sub.queue);
    PrefixesExtend(BlockPart(sub.sent), BlockPart(sub.queue), []);
    BlockPartSplit(s.log, lo, hi);
    PrefixesExtend(ReplayPart(sub.request, sub.window), BlockPart(s.log[lo..hi]), BlockPart(s.log[hi..]));
  }

  /** Splice safety. For every interleaving, what a subscriber is delivered of the block-scoped updates is in
      strictly increasing sequence order, so nothing comes twice. It includes every update retained at the
      snapshot at or above the requested height, and every one pushed after the snapshot up to the cursor. It
      includes nothing else, except that with an empty window it may include what was pushed between the opening
      of the receiver and the snapshot. What has been sent, also when the subscriber fell behind, is a prefix of
      the stream of a subscriber that did not. */
  lemma SpliceSafety(cfg: Config, request: SubscribeRequest, states: seq<State>, steps: seq<Step>, i: nat)
    requires IsRun(cfg, request, states, steps) && i <= |steps| && HasFollowed(states[i].sub)
    ensures var s, sub := states[i].server, states[i].sub;
            && sub.cursor <= |s.ring| <= |s.log| && sub.joinedAt <= |s.log| && FirstLive(sub) <= |s.log|
            && InSequence(BlockPart(Outgoing(sub)), 0, |s.log|)
            && (forall u :: u in ReplayPart(sub.request, sub.window) ==> u in Outgoing(sub))
            && (forall k :: sub.joinedAt <= k < sub.cursor && BlockHeight(s.log[k]).Some? ==> s.log[k] in Outgoing(sub))
            && (forall u :: u in Outgoing(sub) && BlockHeight(u).Some? ==>
                  || u in ReplayPart(sub.request, sub.window)
                  || (exists k :: sub.joinedAt <= k < sub.cursor && s.log[k] == u)
                  || (sub.window == [] && exists k :: sub.openedAt <= k < sub.joinedAt && s.log[k] == u))
            && BlockPart(sub.sent) <= BlockPart(Outgoing(sub)) <= Stream(s, sub)
  {
    RunKeeps(cfg, request, states, steps, i);
    hide IsRun;
    SpliceState(cfg, states[i]);
  }

  lemma SpliceState(cfg: Config, st: State)
    requires Inv(cfg, st) && HasFollowed(st.sub)
    ensures var s, sub := st.server, st.sub;
            && sub.cursor <= |s.ring| <= |s.log| && sub.joinedAt <= |s.log| && FirstLive(sub) <= |s.log|
            && InSequence(BlockPart(Outgoing(sub)), 0, |s.log|)
            && (forall u :: u in ReplayPart(sub.request, sub.window) ==> u in Outgoing(sub))
            && (forall k :: sub.joinedAt <= k < sub.cursor && BlockHeight(s.log[k]).Some? ==> s.log[k] in Outgoing(sub))
            && (forall u :: u in Outgoing(sub) && BlockHeight(u).Some? ==>
                  || u in ReplayPart(sub.request, sub.window)
                  || (exists k :: sub.joinedAt <= k < sub.cursor && s.log[k] == u)
                  || (sub.window == [] && exists k :: sub.openedAt <= k < sub.joinedAt && s.log[k] == u))
            && BlockPart(sub.sent) <= BlockPart(Outgoing(sub)) <= Stream(s, sub)
  {
    var s, sub := st.server, st.sub;
    hide LogInv, MempoolInv, WindowInv, BlockPart, ReplayPart, Outgoing, BlockHeight, Stream, WindowAt, FirstLive,
      FollowInv, Watermark;
    FirstLiveBound(s, sub);
    OutgoingAscends(s, sub);
    SentIsPrefix(s, sub);
    JoinedReplayBlocks(s, sub);
    forall u | u in ReplayPart(sub.request, sub.window) ensures u in Outgoing(sub) {
      OutgoingMembers(s, sub, u);
    }
    forall k | sub.joinedAt <= k < sub.cursor && BlockHeight(s.log[k]).Some? ensures s.log[k] in Outgoing(sub) {
      OutgoingMembers(s, sub, s.log[k]);
    }
    forall u | u in Outgoing(sub) && BlockHeight(u).Some? && u !in ReplayPart(sub.request, sub.window)
      ensures (exists k :: sub.joinedAt <= k < sub.cursor && s.log[k] == u)
              || (sub.window == [] && exists k :: sub.openedAt <= k < sub.joinedAt && s.log[k] == u)
    {
      OutgoingMembers(s, sub, u);
      var k :| FirstLive(sub) <= k < Reached(sub) && s.log[k] == u;
      if k < sub.joinedAt {
        QuietUntilJoin(s, sub, k);
      }
    }
  }

  // ---------- the mempool ----------

  /** The log from `lo` to `hi`, or nothing when that is backwards. */
  function Between(log: seq<SubscribeUpdate>, lo: nat, hi: nat): (r: seq<SubscribeUpdate>)
    requires hi <= |log|
  {
    if lo <= hi then log[lo..hi] else []
  }

  lemma BetweenStep(log: seq<SubscribeUpdate>, at: nat, hi: nat)
    requires 0 < hi <= |log|
    ensures Between(log, at, hi) == if at < hi then Between(log, at, hi - 1) + [log[hi - 1]] else []
    ensures hi <= at ==> Between(log, at, hi - 1) == []
  {
  }

  /** Following the log from the snapshot on with the covered updates left out is following it with them in. */
  lemma {:induction false} PassedFollows(
    log: seq<SubscribeUpdate>, lo: nat, at: nat, hi: nat, mark: Option<nat>, keys: set<Text>)
    requires lo <= at && hi <= |log|
    requires forall i :: 0 <= i < |log| && IsMempoolUpdate(log[i]) ==> (Covered(log[i], mark) <==> i < at)
    ensures MempoolView.FollowedAll(keys, Passed(log, lo, hi, mark))
            == MempoolView.FollowedAll(keys, Between(log, at, hi))
  {
    hide MempoolView.FollowedAll, MempoolView.Followed, IsMempoolUpdate, Covered;
    if hi <= lo {
      assert Passed(log, lo, hi, mark) == [] == Between(log, at, hi);
    } else {
      var u := log[hi - 1];
      var one := if Covered(u, mark) then [] else [u];
      assert Passed(log, lo, hi, mark) == Passed(log, lo, hi - 1, mark) + one;
      hide Passed, Between;
      PassedFollows(log, lo, at, hi - 1, mark, keys);
      BetweenStep(log, at, hi);
      var before := MempoolView.FollowedAll(keys, Passed(log, lo, hi - 1, mark));
      MempoolView.FollowedAppend(keys, Passed(log, lo, hi - 1, mark), one);
      MempoolView.FollowedAppend(keys, Between(log, at, hi - 1), [u]);
      OneFollowed(before, u);
      OneFollowed(keys, u);
    }
  }

  lemma OneFollowed(keys: set<Text>, u: SubscribeUpdate)
    ensures MempoolView.FollowedAll(keys, [u]) == MempoolView.Followed(keys, u)
    ensures MempoolView.FollowedAll(keys, []) == keys
    ensures !IsMempoolUpdate(u) ==> MempoolView.Followed(keys, u) == keys
  {
    FollowedOne(keys, u);
  }

  lemma MempoolNow(cfg: Config, st: State)
    requires Inv(cfg, st) && HasFollowed(st.sub) && st.sub.request.includeMempoolSnapshot
    ensures var s, sub := st.server, st.sub;
            && sub.cursor <= |s.ring| <= |s.log| && sub.mempoolAt <= |s.log|
            && MempoolView.FollowedAll({}, Outgoing(sub))
               == MempoolView.FollowedAll({}, s.log[..if sub.cursor < sub.mempoolAt then sub.mempoolAt else sub.cursor])
            && (forall k :: sub.mempoolAt <= k < sub.cursor && IsMempoolUpdate(s.log[k]) ==> s.log[k] in Outgoing(sub))
            && (s.publisher.Idle? && sub.cursor == |s.ring|
               ==> MempoolView.FollowedAll({}, Outgoing(sub)) == s.mempool.entries.Keys)
  {
    var s, sub := st.server, st.sub;
    FirstLiveBound(s, sub);
    var lo, at, hi := FirstLive(sub), sub.mempoolAt, sub.cursor;
    var passed := Passed(s.log, lo, hi, sub.mempoolMark);
    forall k | at <= k < hi && IsMempoolUpdate(s.log[k]) ensures s.log[k] in Outgoing(sub) {
      PassedKeeps(s.log, lo, hi, sub.mempoolMark, k);
      assert s.log[k] in sub.initial + passed;
    }
    FollowMarkAt(s, sub);
    if s.publisher.Idle? && hi == |s.ring| {
      assert s.log + [] == s.log && s.ring + [] == s.ring;
      assert s.log[..|s.log|] == s.log;
    }
  }

  /** An update that is not covered passes. */
  lemma {:induction false} PassedKeeps(log: seq<SubscribeUpdate>, lo: nat, hi: nat, mark: Option<nat>, k: nat)
    requires lo <= k < hi <= |log| && !Covered(log[k], mark)
    ensures log[k] in Passed(log, lo, hi, mark)
  {
    if k < hi - 1 {
      PassedKeeps(log, lo, hi - 1, mark, k);
    }
  }

  lemma FollowMarkAt(s: Server, sub: Subscriber)
    requires LogInv(s) && |s.ring| <= |s.log| && HasFollowed(sub) && SubInv(s, sub)
             && sub.request.includeMempoolSnapshot
    ensures MempoolView.FollowedAll({}, Outgoing(sub))
            == MempoolView.FollowedAll({}, s.log[..if sub.cursor < sub.mempoolAt then sub.mempoolAt else sub.cursor])
  {
    FirstLiveBound(s, sub);
    hide LogInv, WindowAt, BlockPart, ReplayPart, FirstLive, Revised;
    SnapshotThenPassed(s.log, FirstLive(sub), sub.mempoolAt, sub.cursor, sub.mempoolMark, sub.initial);
  }

  lemma SnapshotThenPassed(
    log: seq<SubscribeUpdate>, lo: nat, at: nat, hi: nat, mark: Option<nat>, initial: seq<SubscribeUpdate>)
    requires lo <= at <= |log| && hi <= |log|
    requires forall i :: 0 <= i < |log| && IsMempoolUpdate(log[i]) ==> (Covered(log[i], mark) <==> i < at)
    requires MempoolView.FollowedAll({}, initial) == MempoolView.FollowedAll({}, log[..at])
    ensures MempoolView.FollowedAll({}, initial + Passed(log, lo, hi, mark))
            == MempoolView.FollowedAll({}, log[..if hi < at then at else hi])
  {
    hide Covered, IsMempoolUpdate, Passed, MempoolView.FollowedAll;
    PassedFollows(log, lo, at, hi, mark, MempoolView.FollowedAll({}, log[..at]));
    MempoolView.FollowedAppend({}, initial, Passed(log, lo, hi, mark));
    MempoolView.FollowedAppend({}, log[..at], Between(log, at, hi));
    assert log[..at] + Between(log, at, hi) == log[..if hi < at then at else hi];
  }

  /** Mempool agreement. For every interleaving, a subscriber that asked for the mempool snapshot and follows what
      it is delivered, snapshot and deltas alike, has exactly the keys that the log gives as of the snapshot or
      its cursor, whichever is later. No delta newer than the snapshot is withheld by either watermark. When the
      publisher is idle and the cursor is at the end, the keys are those of the server's mempool. */
  lemma MempoolAgreement(cfg: Config, request: SubscribeRequest, states: seq<State>, steps: seq<Step>, i: nat)
    requires IsRun(cfg, request, states, steps) && i <= |steps|
    requires HasFollowed(states[i].sub) && states[i].sub.request.includeMempoolSnapshot
    ensures var s, sub := states[i].server, states[i].sub;
            && sub.cursor <= |s.ring| <= |s.log| && sub.mempoolAt <= |s.log|
            && MempoolView.FollowedAll({}, Outgoing(sub))
               == MempoolView.FollowedAll({}, s.log[..if sub.cursor < sub.mempoolAt then sub.mempoolAt else sub.cursor])
            && (forall k :: sub.mempoolAt <= k < sub.cursor && IsMempoolUpdate(s.log[k]) ==> s.log[k] in Outgoing(sub))
            && (s.publisher.Idle? && sub.cursor == |s.ring|
               ==> MempoolView.FollowedAll({}, Outgoing(sub)) == s.mempool.entries.Keys)
  {
    RunKeeps(cfg, request, states, steps, i);
    hide IsRun;
    MempoolNow(cfg, states[i]);
  }
}
