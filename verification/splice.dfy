// What every interleaving of the publisher and a subscriber keeps, and what the subscriber therefore receives.
module Splice {
  import opened Proto
  import opened Replay
  import opened Events
  import opened Handshake
  import opened Protocol
  import MempoolView
  import Window

  // ---------- where buckets sit in the log ----------

  function Start(b: Bucket): (r: int)
    requires b.updates != []
  {
    b.updates[0].message.sequence - 1
  }

  function Until(b: Bucket): (r: int)
    requires b.updates != []
  {
    Start(b) + |b.updates|
  }

  /** Sequence numbers are the positions in the log, counted from one. */
  ghost predicate Numbered(log: seq<SubscribeUpdate>) {
    forall i :: 0 <= i < |log| ==> log[i].sequence == i + 1
  }

  /** The bucket is a whole stretch of the log, all at its height. */
  ghost predicate Spans(log: seq<SubscribeUpdate>, b: Bucket) {
    && b.updates != [] && 0 <= Start(b) && Until(b) <= |log|
    && Messages(b.updates) == log[Start(b)..Until(b)]
    && forall i :: Start(b) <= i < Until(b) ==> BlockHeight(log[i]) == Some(b.height)
  }

  ghost predicate AllSpan(log: seq<SubscribeUpdate>, bs: seq<Bucket>) {
    forall j :: 0 <= j < |bs| ==> Spans(log, bs[j])
  }

  ghost predicate InOrder(bs: seq<Bucket>)
    requires forall j :: 0 <= j < |bs| ==> bs[j].updates != []
  {
    forall j, k :: 0 <= j < k < |bs| ==> Until(bs[j]) <= Start(bs[k])
  }

  /** Position i of the log lies in bucket j. */
  predicate Inside(bs: seq<Bucket>, j: nat, i: nat)
    requires j < |bs|
  {
    bs[j].updates != [] && Start(bs[j]) <= i < Until(bs[j])
  }

  /** Every block-scoped update of the log lies in some bucket. */
  ghost predicate AllHeld(log: seq<SubscribeUpdate>, history: seq<Bucket>) {
    forall i :: 0 <= i < |log| && BlockHeight(log[i]).Some? ==> exists j :: 0 <= j < |history| && Inside(history, j, i)
  }

  ghost predicate HistoryInv(log: seq<SubscribeUpdate>, history: seq<Bucket>) {
    AllSpan(log, history) && InOrder(history) && AllHeld(log, history)
  }

  ghost predicate IsSuffix(bs: seq<Bucket>, history: seq<Bucket>) {
    |bs| <= |history| && bs == history[|history| - |bs|..]
  }

  // ---------- the server's invariant ----------

  /** A published update: plain; a mempool update carries a revision that the server has reached, no other carries
      one. */
  predicate Revised(u: SubscribeUpdate, revision: nat) {
    && (IsMempoolUpdate(u) ==> u.mempoolRevision.Some? && u.mempoolRevision.value <= revision)
    && (!IsMempoolUpdate(u) ==> u.mempoolRevision.None?)
    && (BlockHeight(u).Some? <==> !IsMempoolUpdate(u))
    && u.update.Some? && !u.update.value.Reconnect?
    && Plain(u)
  }

  /** A numbered batch: one stretch after the log, all at one height or all about the mempool. */
  ghost predicate BatchInv(batch: seq<SubscribeUpdate>, locked: bool, after: nat, revision: nat) {
    && batch != []
    && (forall i :: 0 <= i < |batch| ==> batch[i].sequence == after + i + 1)
    && (forall i :: 0 <= i < |batch| ==> Revised(batch[i], revision) && BlockHeight(batch[i]) == BlockHeight(batch[0]))
    && (forall i :: 0 <= i < |batch| ==> (IsMempoolUpdate(batch[i]) <==> locked))
    && (locked ==> forall i :: 0 <= i < |batch| ==> batch[i].mempoolRevision == Some(revision))
  }

  function Unpushed(p: Publisher): (r: seq<SubscribeUpdate>) {
    if p.Ready? then p.batch else []
  }

  function Unsent(p: Publisher): (r: seq<SubscribeUpdate>) {
    if p.Sending? then p.rest else []
  }

  ghost predicate LogInv(s: Server) {
    && Numbered(s.log)
    && s.nextSequence == |s.log| + |Unpushed(s.publisher)|
    && s.ring + Unsent(s.publisher) == s.log
    && (forall i :: 0 <= i < |s.log| ==> Revised(s.log[i], s.mempool.revision))
    && (s.publisher.Ready? ==> BatchInv(s.publisher.batch, s.publisher.locked, |s.log|, s.mempool.revision))
  }

  ghost predicate MempoolInv(s: Server) {
    && MempoolView.DetailsFiled(s.mempool)
    && s.mempool.entries.Keys == MempoolView.FollowedAll({}, s.log + Unpushed(s.publisher))
  }

  ghost predicate WindowInv(cfg: Config, s: Server) {
    && HistoryInv(s.log, s.history)
    && IsSuffix(s.buckets, s.history)
    && (cfg.limits.heights == 0 ==> s.buckets == [])
  }

  ghost predicate ServerInv(cfg: Config, s: Server) {
    LogInv(s) && MempoolInv(s) && WindowInv(cfg, s)
  }

  // ---------- the subscriber's invariant ----------

  /** The first log position that the subscriber takes from the ring. */
  function FirstLive(sub: Subscriber): (r: nat) {
    var w := Watermark(sub.window);
    if sub.openedAt < w then w else sub.openedAt
  }

  /** The log from `lo` to `hi` without what the mempool snapshot covers. */
  function Passed(log: seq<SubscribeUpdate>, lo: nat, hi: nat, mark: Option<nat>): (r: seq<SubscribeUpdate>)
    requires hi <= |log|
  {
    if hi <= lo then
      []
    else
      Passed(log, lo, hi - 1, mark) + if Covered(log[hi - 1], mark) then [] else [log[hi - 1]]
  }

  /** The window taken at log length n: whole stretches up to n, and nothing block-scoped after its last one. */
  ghost predicate WindowAt(log: seq<SubscribeUpdate>, window: seq<Bucket>, n: nat) {
    && n <= |log|
    && AllSpan(log, window) && InOrder(window)
    && (forall j :: 0 <= j < |window| ==> Until(window[j]) <= n)
    && (window != [] ==> forall i :: Until(window[|window| - 1]) <= i < n ==> BlockHeight(log[i]).None?)
  }

  function ReplayPart(request: SubscribeRequest, window: seq<Bucket>): (r: seq<SubscribeUpdate>) {
    match ReplayHeight(request)
    case Ok(Some(from)) => Replayed(window, from)
    case _ => []
  }

  predicate HasJoined(sub: Subscriber) {
    sub.phase == Joined || sub.phase == Following || sub.phase == Lagged
  }

  predicate HasFollowed(sub: Subscriber) {
    sub.phase == Following || sub.phase == Lagged
  }

  ghost predicate JoinInv(s: Server, sub: Subscriber) {
    && sub.openedAt <= sub.cursor <= |s.ring| && sub.openedAt <= sub.joinedAt
    && WindowAt(s.log, sub.window, sub.joinedAt)
    && sub.replay == ReplayPart(sub.request, sub.window)
    && sub.watermark == (if sub.cursor > sub.openedAt && sub.cursor > Watermark(sub.window) then sub.cursor
                         else Watermark(sub.window))
  }

  ghost predicate FollowInv(s: Server, sub: Subscriber)
    requires |s.ring| <= |s.log| && sub.cursor <= |s.ring|
  {
    && sub.sent + sub.queue == sub.initial + Passed(s.log, FirstLive(sub), sub.cursor, sub.mempoolMark)
    && (sub.queue != [] ==> sub.cursor == sub.openedAt)
    && BlockPart(sub.initial) == sub.replay
    && (sub.mempoolMark.Some? <==> sub.request.includeMempoolSnapshot)
    && (sub.request.includeMempoolSnapshot ==> MarkInv(s, sub))
  }

  /** The mark splits the log: what came before the mempool snapshot is covered by it, the rest is not. */
  ghost predicate MarkInv(s: Server, sub: Subscriber) {
    && sub.mempoolMark.Some? && sub.joinedAt <= sub.mempoolAt <= |s.log|
    && sub.mempoolMark.value <= s.mempool.revision
    && (forall i :: 0 <= i < |s.log| && IsMempoolUpdate(s.log[i])
         ==> (Covered(s.log[i], sub.mempoolMark) <==> i < sub.mempoolAt))
    && (s.publisher.Ready? && s.publisher.locked ==> sub.mempoolMark.value < s.mempool.revision)
    && MempoolView.FollowedAll({}, sub.initial) == MempoolView.FollowedAll({}, s.log[..sub.mempoolAt])
  }

  ghost predicate SubInv(s: Server, sub: Subscriber)
    requires |s.ring| <= |s.log|
  {
    && (!HasJoined(sub) ==> sub.sent == [] && sub.queue == [])
    && (sub.phase == Listening ==> sub.openedAt == sub.cursor <= |s.ring|)
    && (HasJoined(sub) ==> JoinInv(s, sub))
    && (sub.phase == Joined ==> sub.cursor == sub.openedAt && sub.sent == [] && sub.queue == [])
    && (HasFollowed(sub) ==> FollowInv(s, sub))
  }

  ghost predicate Inv(cfg: Config, st: State) {
    ServerInv(cfg, st.server) && |st.server.ring| <= |st.server.log| && SubInv(st.server, st.sub)
  }

  // ---------- filtering block-scoped updates ----------

  function BlockPart(us: seq<SubscribeUpdate>): (r: seq<SubscribeUpdate>) {
    if us == [] then
      []
    else
      BlockPart(us[..|us| - 1]) + if BlockHeight(us[|us| - 1]).Some? then [us[|us| - 1]] else []
  }

  lemma {:induction false} BlockPartMembers(us: seq<SubscribeUpdate>, u: SubscribeUpdate)
    ensures u in BlockPart(us) <==> u in us && BlockHeight(u).Some?
  {
    if us == [] {
    } else {
      hide BlockHeight;
      var n := |us| - 1;
      assert us == us[..n] + [us[n]];
      BlockPartMembers(us[..n], u);
    }
  }

  lemma {:induction false} BlockPartAppend(a: seq<SubscribeUpdate>, b: seq<SubscribeUpdate>)
    ensures BlockPart(a + b) == BlockPart(a) + BlockPart(b)
  {
    hide BlockHeight;
    if b == [] {
      assert a + b == a;
    } else {
      var n := |b| - 1;
      BlockPartAppend(a, b[..n]);
      assert (a + b)[..|a + b| - 1] == a + b[..n];
      assert (a + b)[|a + b| - 1] == b[n];
    }
  }

  lemma {:induction false} BlockPartNone(us: seq<SubscribeUpdate>)
    requires forall u :: u in us ==> BlockHeight(u).None?
    ensures BlockPart(us) == []
  {
    if us == [] {
    } else {
      var n := |us| - 1;
      assert us == us[..n] + [us[n]];
      BlockPartNone(us[..n]);
    }
  }

  lemma {:induction false} BlockPartAll(us: seq<SubscribeUpdate>)
    requires forall u :: u in us ==> BlockHeight(u).Some?
    ensures BlockPart(us) == us
  {
    if us == [] {
    } else {
      var n := |us| - 1;
      assert us == us[..n] + [us[n]];
      BlockPartAll(us[..n]);
    }
  }

  // ---------- the publisher keeps the invariant ----------

  lemma BeginBatch(batch: seq<SubscribeUpdate>, s: Server)
    requires SourceBatch(batch) && s.publisher.Idle? && LogInv(s)
    ensures var r := DoBegin(s, batch);
            && r.publisher.Ready? && |r.publisher.batch| == |batch|
            && BatchInv(r.publisher.batch, r.publisher.locked, |s.log|, r.mempool.revision)
            && r.mempool.revision == s.mempool.revision + (if r.publisher.locked then 1 else 0)
            && r.mempool == (if r.publisher.locked
                             then MempoolView.AppliedAll(s.mempool.(revision := s.mempool.revision + 1),
                               r.publisher.batch)
                             else s.mempool)
  {
    hide MempoolView.AppliedAll, SourceBatch, BatchInv, IsMempoolBatch, Revised, Numbered, NumberedFrom, Stamped;
    NumberedBatch(batch, s.nextSequence, s.mempool.revision + 1, s.mempool.revision);
    var numbered := NumberedFrom(batch, s.nextSequence);
    if IsMempoolBatch(numbered) {
      MempoolView.ApplyFollows(s.mempool.(revision := s.mempool.revision + 1),
        Stamped(numbered, s.mempool.revision + 1));
    }
  }

  /** Numbered and, for the mempool, stamped, a source batch is ready to be published. */
  lemma NumberedBatch(batch: seq<SubscribeUpdate>, after: nat, next: nat, revision: nat)
    requires SourceBatch(batch)
    ensures var numbered := NumberedFrom(batch, after);
            if IsMempoolBatch(numbered) then BatchInv(Stamped(numbered, next), true, after, next)
            else BatchInv(numbered, false, after, revision)
  {
    hide SourceUpdate, Revised, BlockHeight, IsMempoolUpdate;
    var numbered := NumberedFrom(batch, after);
    forall i | 0 <= i < |batch|
      ensures BlockHeight(numbered[i]) == BlockHeight(batch[0])
      ensures IsMempoolUpdate(numbered[i]) <==> BlockHeight(batch[0]).None?
      ensures IsMempoolUpdate(numbered[i]) ==>
                Revised(Stamped(numbered, next)[i], next)
                && BlockHeight(Stamped(numbered, next)[i]) == BlockHeight(batch[0])
                && IsMempoolUpdate(Stamped(numbered, next)[i])
      ensures !IsMempoolUpdate(numbered[i]) ==> Revised(numbered[i], revision)
    {
      assert batch[i] in batch;
      SourceRevised(batch[i], after + i + 1, next, revision);
    }
    assert numbered[0] in numbered;
    assert IsMempoolBatch(numbered) <==> BlockHeight(batch[0]).None?;
  }

  lemma SourceRevised(u: SubscribeUpdate, sequence: nat, revision: nat, other: nat)
    requires SourceUpdate(u)
    ensures var n := u.(sequence := sequence);
            && BlockHeight(n) == BlockHeight(u) && (IsMempoolUpdate(n) <==> BlockHeight(u).None?)
            && (IsMempoolUpdate(n) ==>
                  && Revised(n.(mempoolRevision := Some(revision)), revision)
                  && BlockHeight(n.(mempoolRevision := Some(revision))) == BlockHeight(u)
                  && IsMempoolUpdate(n.(mempoolRevision := Some(revision))))
            && (!IsMempoolUpdate(n) ==> Revised(n, other))
  {
  }

  lemma BeginKeeps(cfg: Config, s: Server, batch: seq<SubscribeUpdate>)
    requires ServerInv(cfg, s) && s.publisher.Idle? && SourceBatch(batch)
    ensures ServerInv(cfg, DoBegin(s, batch))
  {
    BeginLeaves(s, batch);
    BeginKeepsLog(s, batch);
    BeginKeepsMempool(s, batch);
    hide DoBegin, LogInv, MempoolInv, HistoryInv, IsSuffix, SourceBatch;
  }

  lemma BeginKeepsLog(s: Server, batch: seq<SubscribeUpdate>)
    requires LogInv(s) && s.publisher.Idle? && SourceBatch(batch)
    ensures LogInv(DoBegin(s, batch))
  {
    BeginBatch(batch, s);
    BeginLeaves(s, batch);
    hide DoBegin, BatchInv, SourceBatch, MempoolView.AppliedAll;
  }

  lemma BeginKeepsMempool(s: Server, batch: seq<SubscribeUpdate>)
    requires LogInv(s) && MempoolInv(s) && s.publisher.Idle? && SourceBatch(batch)
    ensures MempoolInv(DoBegin(s, batch))
  {
    BeginBatch(batch, s);
    BeginLeaves(s, batch);
    var r := DoBegin(s, batch);
    hide DoBegin, BatchInv, SourceBatch, LogInv, MempoolView.AppliedAll, MempoolView.FollowedAll,
      MempoolView.DetailsFiled;
    assert s.log + [] == s.log;
    MempoolView.FollowedAppend({}, s.log, r.publisher.batch);
    if r.publisher.locked {
      var bumped := s.mempool.(revision := s.mempool.revision + 1);
      MempoolView.ApplyFollows(bumped, r.publisher.batch);
      BumpFiles(s.mempool);
      MempoolView.ApplyFiles(bumped, r.publisher.batch);
    } else {
      UnlockedBatchIgnored(r.publisher.batch, |s.log|, r.mempool.revision, s.mempool.entries.Keys);
    }
  }

  lemma BeginLeaves(s: Server, batch: seq<SubscribeUpdate>)
    ensures var r := DoBegin(s, batch);
            && r.log == s.log && r.history == s.history && r.buckets == s.buckets && r.ring == s.ring
            && r.nextSequence == s.nextSequence + |batch| && r.clock == s.clock
  {
  }

  lemma BumpFiles(m: MempoolView.State)
    requires MempoolView.DetailsFiled(m)
    ensures MempoolView.DetailsFiled(m.(revision := m.revision + 1))
  {
  }

  lemma {:induction false} BlockUpdatesIgnored(us: seq<SubscribeUpdate>, keys: set<Text>)
    requires forall u :: u in us ==> BlockHeight(u).Some?
    ensures MempoolView.FollowedAll(keys, us) == keys
  {
    if us == [] {
    } else {
      var n := |us| - 1;
      assert us == us[..n] + [us[n]];
      assert us[n] in us;
      BlockUpdateIgnored(us[n], keys);
      hide BlockHeight;
      BlockUpdatesIgnored(us[..n], keys);
    }
  }

  lemma BlockUpdateIgnored(u: SubscribeUpdate, keys: set<Text>)
    requires BlockHeight(u).Some?
    ensures MempoolView.Followed(keys, u) == keys
  {
  }

  lemma UnlockedBatchIgnored(batch: seq<SubscribeUpdate>, after: nat, revision: nat, keys: set<Text>)
    requires BatchInv(batch, false, after, revision)
    ensures MempoolView.FollowedAll(keys, batch) == keys
  {
    BlockUpdatesIgnored(batch, keys);
  }

  /** A block batch becomes one whole bucket, a mempool batch none. */
  lemma BatchBucket(
    batch: seq<SubscribeUpdate>, locked: bool, after: nat, revision: nat, measure: SubscribeUpdate -> nat, now: nat)
    requires BatchInv(batch, locked, after, revision)
    ensures var bs := BucketOf(Entries(batch, measure), now);
            && (locked ==> bs == [])
            && (!locked ==>
                  && |bs| == 1 && BlockHeight(batch[0]) == Some(bs[0].height)
                  && bs[0].updates == Entries(batch, measure) && bs[0].insertedAt == now)
  {
    var es := Entries(batch, measure);
    if locked {
      forall e | e in es ensures BlockHeight(e.message).None? {
        var i :| 0 <= i < |es| && es[i] == e;
        assert Revised(batch[i], revision);
      }
    } else {
      var h := BlockHeight(batch[0]);
      assert Revised(batch[0], revision);
      assert es[0] in es;
      forall e | e in es ensures BlockHeight(e.message) == h {
        var i :| 0 <= i < |es| && es[i] == e;
      }
      AllAtHeight(es, h.value);
    }
  }

  lemma {:induction false} AllAtHeight(es: seq<Entry>, h: nat)
    requires forall i :: 0 <= i < |es| ==> BlockHeight(es[i].message) == Some(h)
    ensures AtHeight(es, h) == es
  {
    if es == [] {
    } else {
      AllAtHeight(es[1..], h);
    }
  }

  lemma SpansGrow(log: seq<SubscribeUpdate>, more: seq<SubscribeUpdate>, b: Bucket)
    requires Spans(log, b)
    ensures Spans(log + more, b)
  {
    assert (log + more)[Start(b)..Until(b)] == log[Start(b)..Until(b)];
  }

  /** The bucket of a pushed batch is the stretch of the log that the batch becomes. */
  lemma NewSpan(
    log: seq<SubscribeUpdate>, batch: seq<SubscribeUpdate>, revision: nat, measure: SubscribeUpdate -> nat, b: Bucket)
    requires BatchInv(batch, false, |log|, revision)
    requires b.updates == Entries(batch, measure) && BlockHeight(batch[0]) == Some(b.height)
    ensures Spans(log + batch, b) && Start(b) == |log| && Until(b) == |log| + |batch|
  {
    hide BlockHeight, Revised, IsMempoolUpdate;
    assert Messages(b.updates) == batch;
    assert (log + batch)[|log|..|log| + |batch|] == batch;
  }

  lemma HeldGrows(log: seq<SubscribeUpdate>, batch: seq<SubscribeUpdate>, history: seq<Bucket>, bs: seq<Bucket>)
    requires AllHeld(log, history)
    requires (forall i :: 0 <= i < |batch| ==> BlockHeight(batch[i]).None?)
             || (bs != [] && bs[0].updates != [] && Start(bs[0]) == |log| && Until(bs[0]) == |log| + |batch|)
    ensures AllHeld(log + batch, history + bs)
  {
    hide BlockHeight;
    var log', history' := log + batch, history + bs;
    forall i | 0 <= i < |log'| && BlockHeight(log'[i]).Some?
      ensures exists j :: 0 <= j < |history'| && Inside(history', j, i)
    {
      if i < |log| {
        var j :| 0 <= j < |history| && Inside(history, j, i);
        assert Inside(history', j, i);
      } else {
        assert log'[i] == batch[i - |log|];
        assert Inside(history', |history|, i);
      }
    }
  }

  lemma NoBlocks(batch: seq<SubscribeUpdate>, after: nat, revision: nat)
    requires BatchInv(batch, true, after, revision)
    ensures forall i :: 0 <= i < |batch| ==> BlockHeight(batch[i]).None?
  {
    hide BlockHeight, IsMempoolUpdate;
  }

  lemma PushHistory(
    log: seq<SubscribeUpdate>, history: seq<Bucket>, batch: seq<SubscribeUpdate>, locked: bool, revision: nat,
    measure: SubscribeUpdate -> nat, now: nat)
    requires HistoryInv(log, history) && BatchInv(batch, locked, |log|, revision)
    ensures HistoryInv(log + batch, history + BucketOf(Entries(batch, measure), now))
  {
    hide BucketOf, AllHeld, BatchInv, Entries, BlockHeight, AllSpan, InOrder;
    var bs := BucketOf(Entries(batch, measure), now);
    BatchBucket(batch, locked, |log|, revision, measure, now);
    if locked {
      NoBlocks(batch, |log|, revision);
    } else {
      NewSpan(log, batch, revision, measure, bs[0]);
    }
    SpansAppend(log, batch, history, bs);
    HeldGrows(log, batch, history, bs);
  }

  lemma SpansAppend(log: seq<SubscribeUpdate>, batch: seq<SubscribeUpdate>, history: seq<Bucket>, bs: seq<Bucket>)
    requires AllSpan(log, history) && InOrder(history) && |bs| <= 1
    requires bs != [] ==> Spans(log + batch, bs[0]) && Start(bs[0]) == |log|
    ensures AllSpan(log + batch, history + bs) && InOrder(history + bs)
  {
    forall j | 0 <= j < |history| ensures Spans(log + batch, history[j]) && Until(history[j]) <= |log| {
      SpansGrow(log, batch, history[j]);
    }
    hide Spans;
  }

  lemma KeptSuffix(bs: seq<Bucket>, history: seq<Bucket>, limits: Limits, now: nat)
    requires IsSuffix(bs, history)
    ensures IsSuffix(Kept(bs, limits, now), history)
  {
    KeptIsSuffix(bs, limits, now);
    var r := Kept(bs, limits, now);
    Window.SuffixSuffix(history, |history| - |bs|, |bs| - |r|);
  }

  lemma PushKeeps(cfg: Config, s: Server, now: nat)
    requires ServerInv(cfg, s) && s.publisher.Ready?
    ensures ServerInv(cfg, DoPush(cfg, s, now))
  {
    PushKeepsLog(cfg, s, now);
    PushKeepsMempool(cfg, s, now);
    PushKeepsWindow(cfg, s, now);
    hide LogInv, MempoolInv, WindowInv, DoPush;
  }

  lemma PushKeepsLog(cfg: Config, s: Server, now: nat)
    requires LogInv(s) && s.publisher.Ready?
    ensures LogInv(DoPush(cfg, s, now))
  {
    hide BucketOf, Pushed, Revised;
    assert s.ring + [] == s.ring;
  }

  lemma PushKeepsMempool(cfg: Config, s: Server, now: nat)
    requires MempoolInv(s) && s.publisher.Ready?
    ensures MempoolInv(DoPush(cfg, s, now))
  {
    hide BucketOf, Pushed, MempoolView.FollowedAll, MempoolView.DetailsFiled;
    assert s.log + s.publisher.batch + [] == s.log + s.publisher.batch;
  }

  lemma PushKeepsWindow(cfg: Config, s: Server, now: nat)
    requires WindowInv(cfg, s) && LogInv(s) && s.publisher.Ready?
    ensures WindowInv(cfg, DoPush(cfg, s, now))
  {
    var batch := s.publisher.batch;
    PushHistory(s.log, s.history, batch, s.publisher.locked, s.mempool.revision, cfg.measure, now);
    var e := BucketOf(Entries(batch, cfg.measure), now);
    hide HistoryInv, LogInv, BucketOf, Kept;
    if cfg.limits.heights != 0 {
      Window.SuffixAppend(s.history, e, |s.history| - |s.buckets|);
      KeptSuffix(s.buckets + e, s.history + e, cfg.limits, now);
    }
  }

  lemma SendKeeps(cfg: Config, s: Server)
    requires ServerInv(cfg, s) && s.publisher.Sending? && s.publisher.rest != []
    ensures ServerInv(cfg, DoSend(s))
  {
    hide HistoryInv, MempoolView.FollowedAll, MempoolView.DetailsFiled;
    var rest := s.publisher.rest;
    assert s.ring + [rest[0]] + rest[1..] == s.ring + rest;
  }

  lemma EvictKeeps(cfg: Config, s: Server, now: nat)
    requires ServerInv(cfg, s)
    ensures ServerInv(cfg, DoEvict(cfg, s, now))
  {
    hide HistoryInv, MempoolView.FollowedAll, MempoolView.DetailsFiled;
    KeptSuffix(s.buckets, s.history, cfg.limits, now);
  }

  // ---------- the subscriber's facts survive the publisher ----------

  lemma {:induction false} PassedGrows(
    log: seq<SubscribeUpdate>, more: seq<SubscribeUpdate>, lo: nat, hi: nat, mark: Option<nat>)
    requires hi <= |log|
    ensures Passed(log + more, lo, hi, mark) == Passed(log, lo, hi, mark)
  {
    if hi > lo {
      PassedGrows(log, more, lo, hi - 1, mark);
    }
  }

  lemma WindowAtGrows(log: seq<SubscribeUpdate>, more: seq<SubscribeUpdate>, window: seq<Bucket>, n: nat)
    requires WindowAt(log, window, n)
    ensures WindowAt(log + more, window, n)
  {
    forall j | 0 <= j < |window| ensures Spans(log + more, window[j]) {
      SpansGrow(log, more, window[j]);
    }
  }

  /** Pushing a batch changes nothing for a subscriber: it lies beyond everything that the subscriber has seen. */
  lemma PushKeepsSub(cfg: Config, s: Server, sub: Subscriber, now: nat)
    requires ServerInv(cfg, s) && s.publisher.Ready? && |s.ring| <= |s.log| && SubInv(s, sub)
    ensures SubInv(DoPush(cfg, s, now), sub)
  {
    var batch := s.publisher.batch;
    var r := DoPush(cfg, s, now);
    hide HistoryInv, BucketOf, MempoolView.FollowedAll, MempoolView.DetailsFiled, Kept, WindowAt, Passed, BlockPart,
      Covered, Pushed;
    if HasJoined(sub) {
      WindowAtGrows(s.log, batch, sub.window, sub.joinedAt);
    }
    if HasFollowed(sub) {
      PassedGrows(s.log, batch, FirstLive(sub), sub.cursor, sub.mempoolMark);
      if sub.request.includeMempoolSnapshot {
        PushKeepsMark(cfg, s, sub, now);
      }
    }
  }

  lemma PushKeepsMark(cfg: Config, s: Server, sub: Subscriber, now: nat)
    requires LogInv(s) && s.publisher.Ready? && MarkInv(s, sub)
    ensures MarkInv(DoPush(cfg, s, now), sub)
  {
    hide MempoolView.FollowedAll, BucketOf, Pushed;
    var r := DoPush(cfg, s, now);
    assert r.log[..sub.mempoolAt] == s.log[..sub.mempoolAt];
    forall i | 0 <= i < |r.log| && IsMempoolUpdate(r.log[i])
      ensures Covered(r.log[i], sub.mempoolMark) <==> i < sub.mempoolAt
    {
      if i < |s.log| {
        assert r.log[i] == s.log[i];
      } else {
        assert r.log[i] == s.publisher.batch[i - |s.log|];
      }
    }
  }

  lemma BeginKeepsSub(cfg: Config, s: Server, sub: Subscriber, batch: seq<SubscribeUpdate>)
    requires ServerInv(cfg, s) && s.publisher.Idle? && SourceBatch(batch) && |s.ring| <= |s.log| && SubInv(s, sub)
    ensures SubInv(DoBegin(s, batch), sub)
  {
    BeginBatch(batch, s);
    BeginLeaves(s, batch);
    hide DoBegin, ServerInv, JoinInv, MarkInv, Passed, BlockPart, BatchInv, SourceBatch, MempoolView.AppliedAll;
    if HasJoined(sub) {
      LogKeepsJoin(s, DoBegin(s, batch), sub);
    }
    if HasFollowed(sub) && sub.request.includeMempoolSnapshot {
      BeginKeepsMark(s, DoBegin(s, batch), sub);
    }
  }

  lemma LogKeepsJoin(s: Server, r: Server, sub: Subscriber)
    requires JoinInv(s, sub) && r.log == s.log && r.ring == s.ring
    ensures JoinInv(r, sub)
  {
    hide WindowAt, ReplayPart;
  }

  lemma BeginKeepsMark(s: Server, r: Server, sub: Subscriber)
    requires MarkInv(s, sub) && r.log == s.log && r.mempool.revision >= s.mempool.revision
    requires r.publisher.Ready? && r.publisher.locked ==> r.mempool.revision > s.mempool.revision
    ensures MarkInv(r, sub)
  {
    hide MempoolView.FollowedAll, Covered;
  }

  lemma PublisherStep(cfg: Config, st: State, step: Step)
    requires Inv(cfg, st) && Enabled(cfg, st, step)
    requires step.Begin? || step.Push? || step.Send? || step.Finish? || step.EvictByReader?
    ensures Inv(cfg, Do(cfg, st, step))
  {
    var s, sub := st.server, st.sub;
    match step {
      case Begin(batch) =>
        BeginKeeps(cfg, s, batch);
        BeginKeepsSub(cfg, s, sub, batch);
        BeginLeaves(s, batch);
        hide ServerInv, SubInv, DoBegin;
      case Push(now) =>
        PushKeeps(cfg, s, now);
        PushKeepsSub(cfg, s, sub, now);
        hide ServerInv, SubInv;
      case Send =>
        SendKeeps(cfg, s);
        SendKeepsSub(s, sub);
        SentWithinLog(s);
        hide ServerInv, SubInv;
      case Finish =>
        FinishKeeps(cfg, s, sub);
        hide ServerInv, SubInv;
      case EvictByReader(now) =>
        EvictKeeps(cfg, s, now);
        EvictKeepsSub(cfg, s, sub, now);
        hide ServerInv, SubInv;
    }
  }

  lemma SentWithinLog(s: Server)
    requires LogInv(s) && s.publisher.Sending? && s.publisher.rest != []
    ensures |DoSend(s).ring| <= |s.log|
  {
  }

  lemma SendKeepsSub(s: Server, sub: Subscriber)
    requires LogInv(s) && s.publisher.Sending? && s.publisher.rest != []
    requires |s.ring| < |s.log| && SubInv(s, sub)
    ensures SubInv(DoSend(s), sub)
  {
    hide MempoolView.FollowedAll, WindowAt, Passed, BlockPart, Covered, LogInv;
  }

  lemma FinishKeeps(cfg: Config, s: Server, sub: Subscriber)
    requires ServerInv(cfg, s) && s.publisher.Sending? && s.publisher.rest == [] && |s.ring| <= |s.log|
             && SubInv(s, sub)
    ensures ServerInv(cfg, s.(publisher := Idle)) && SubInv(s.(publisher := Idle), sub)
  {
    hide MempoolView.FollowedAll, MempoolView.DetailsFiled, WindowAt, Passed, BlockPart, Covered, HistoryInv, BatchInv;
  }

  lemma EvictKeepsSub(cfg: Config, s: Server, sub: Subscriber, now: nat)
    requires |s.ring| <= |s.log| && SubInv(s, sub)
    ensures SubInv(DoEvict(cfg, s, now), sub)
  {
    hide MempoolView.FollowedAll, WindowAt, Passed, BlockPart, Covered, Kept;
  }

  // ---------- the subscriber keeps the invariant ----------

  lemma LastBucketMark(log: seq<SubscribeUpdate>, b: Bucket)
    requires Numbered(log) && Spans(log, b)
    ensures b.updates[|b.updates| - 1].message.sequence == Until(b)
  {
    assert Messages(b.updates)[|b.updates| - 1] == log[Until(b) - 1];
  }

  /** The watermark is where the last bucket of the window ends, or zero. */
  lemma WatermarkIsEnd(log: seq<SubscribeUpdate>, window: seq<Bucket>)
    requires Numbered(log) && AllSpan(log, window)
    ensures Watermark(window) == if window == [] then 0 else Until(window[|window| - 1])
  {
    if window != [] {
      LastBucketMark(log, window[|window| - 1]);
    }
  }

  lemma NothingAfterLast(log: seq<SubscribeUpdate>, history: seq<Bucket>, i: nat)
    requires HistoryInv(log, history) && history != [] && i < |log| && Until(history[|history| - 1]) <= i
    ensures BlockHeight(log[i]).None?
  {
    hide BlockHeight;
    assert Spans(log, history[|history| - 1]);
    forall j | 0 <= j < |history| ensures !Inside(history, j, i) {
      if j < |history| - 1 {
        assert Until(history[j]) <= Start(history[|history| - 1]);
      }
    }
  }

  /** A window taken now: FIFO eviction leaves the last buckets pushed, so nothing block-scoped follows them. */
  lemma SuffixWindow(log: seq<SubscribeUpdate>, history: seq<Bucket>, window: seq<Bucket>)
    requires HistoryInv(log, history) && IsSuffix(window, history)
    ensures WindowAt(log, window, |log|)
  {
    var d := |history| - |window|;
    forall j | 0 <= j < |window| ensures window[j] == history[d + j] && Spans(log, window[j]) {
    }
    forall j, k | 0 <= j < k < |window| ensures Until(window[j]) <= Start(window[k]) {
      assert Until(history[d + j]) <= Start(history[d + k]);
    }
    if window != [] {
      assert window[|window| - 1] == history[|history| - 1];
      forall i | Until(window[|window| - 1]) <= i < |log| ensures BlockHeight(log[i]).None? {
        NothingAfterLast(log, history, i);
      }
    }
  }

  /** The height that an accepted request replays from. */
  function ResumeHeight(request: SubscribeRequest): (r: Option<nat>) {
    if request.resume.Some? then Some(request.resume.value.finalizedHeight) else request.fromHeight
  }

  lemma AcceptedHeight(s: Server, request: SubscribeRequest)
    requires Refusal(s, request).None?
    ensures ReplayHeight(request) == Ok(ResumeHeight(request))
    ensures request.resume.Some? ==> Verified(s.buckets, request.resume.value).Ok?
  {
    hide Verified;
  }

  lemma SnapshotReplays(bs: seq<Bucket>, from: Option<nat>)
    requires SnapshotOf(bs, from).Ok?
    ensures SnapshotOf(bs, from).value
            == ReplaySnapshot(if from.Some? then Replayed(bs, from.value) else [], Watermark(bs))
  {
    hide FirstAvailable, Replayed, Watermark;
  }

  lemma JoinOutcome(cfg: Config, st: State, now: nat)
    requires DoJoin(cfg, st, now).sub.phase == Joined
    ensures Refusal(st.server, st.sub.request).None? && ReplayHeight(st.sub.request).Ok?
    ensures var window := Kept(st.server.buckets, cfg.limits, now);
            var snapshot := SnapshotOf(window, ReplayHeight(st.sub.request).value);
            && snapshot.Ok?
            && DoJoin(cfg, st, now)
               == State(DoEvict(cfg, st.server, now),
                        st.sub.(phase := Joined, replay := snapshot.value.updates,
                                watermark := snapshot.value.watermark, joinedAt := |st.server.log|, window := window))
  {
    hide Kept, SnapshotOf, Verified, ReplayHeight;
  }

  lemma JoinStarts(cfg: Config, st: State, now: nat)
    requires ServerInv(cfg, st.server) && st.sub.phase == Listening
             && st.sub.openedAt == st.sub.cursor <= |st.server.ring|
    requires DoJoin(cfg, st, now).sub.phase == Joined
    ensures JoinInv(DoJoin(cfg, st, now).server, DoJoin(cfg, st, now).sub)
  {
    var s, sub := st.server, st.sub;
    hide LogInv, MempoolInv, HistoryInv, IsSuffix, WindowAt, Kept, SnapshotOf, Replayed, Watermark, DoJoin, Refusal,
      ReplayHeight;
    JoinOutcome(cfg, st, now);
    AcceptedHeight(s, sub.request);
    var window := Kept(s.buckets, cfg.limits, now);
    SnapshotReplays(window, ResumeHeight(sub.request));
    KeptSuffix(s.buckets, s.history, cfg.limits, now);
    SuffixWindow(s.log, s.history, window);
    RingWithinLog(s);
  }

  lemma JoinKeeps(cfg: Config, st: State, now: nat)
    requires Inv(cfg, st) && st.sub.phase == Listening
    ensures Inv(cfg, DoJoin(cfg, st, now))
  {
    var s, sub, r := st.server, st.sub, DoJoin(cfg, st, now);
    EvictKeeps(cfg, s, now);
    if r.sub.phase == Joined {
      JoinStarts(cfg, st, now);
    }
    JoinLeaves(cfg, st, now);
    hide ServerInv, DoJoin, DoEvict, JoinInv;
  }

  /** Joining evicts at most, and the subscriber is then joined or refused. */
  lemma JoinLeaves(cfg: Config, st: State, now: nat)
    ensures var r := DoJoin(cfg, st, now);
            && (r.server == st.server || r.server == DoEvict(cfg, st.server, now))
            && |r.server.log| == |st.server.log| && |r.server.ring| == |st.server.ring|
            && (r.sub.phase == Joined || r.sub.phase.Refused?)
            && r.sub.cursor == st.sub.cursor && r.sub.openedAt == st.sub.openedAt && r.sub.sent == st.sub.sent
               && r.sub.queue == st.sub.queue
  {
    hide Kept, SnapshotOf, Refusal;
  }

  lemma RingWithinLog(s: Server)
    requires LogInv(s)
    ensures |s.ring| <= |s.log| && s.ring == s.log[..|s.ring|]
  {
  }

  lemma {:induction false} ReplayedBlocks(log: seq<SubscribeUpdate>, window: seq<Bucket>, from: nat)
    requires AllSpan(log, window)
    ensures forall u :: u in Replayed(window, from) ==> BlockHeight(u).Some?
  {
    if window == [] {
    } else {
      assert Spans(log, window[0]);
      forall u | u in Messages(window[0].updates) ensures BlockHeight(u).Some? {
        var k :| 0 <= k < |window[0].updates| && Messages(window[0].updates)[k] == u;
        assert u == log[Start(window[0]) + k];
      }
      assert AllSpan(log, window[1..]);
      ReplayedBlocks(log, window[1..], from);
    }
  }

  lemma NoticeNotBlock(checkpoint: ResumeCheckpoint, keys: set<Text>)
    ensures BlockHeight(ReconnectNotice(checkpoint)).None?
    ensures MempoolView.Followed(keys, ReconnectNotice(checkpoint)) == keys
  {
  }

  lemma MarkerNotBlock(phase: SnapshotPhase, snapshot: MempoolView.Snapshot, keys: set<Text>)
    ensures BlockHeight(Marker(phase, snapshot)).None?
    ensures MempoolView.Followed(keys, Marker(phase, snapshot)) == keys
  {
  }

  /** Only the replay is block-scoped among the initial updates. */
  lemma MempoolNotBlock(u: SubscribeUpdate)
    ensures IsMempoolUpdate(u) ==> BlockHeight(u).None?
  {
  }

  lemma InitialBlocks(request: SubscribeRequest, snapshot: Option<MempoolView.Snapshot>, replay: seq<SubscribeUpdate>)
    requires forall u :: u in replay ==> BlockHeight(u).Some?
    requires snapshot.Some? ==> forall u :: u in snapshot.value.updates ==> IsMempoolUpdate(u)
    ensures BlockPart(InitialUpdates(request, snapshot, replay)) == replay
  {
    hide BlockHeight, IsMempoolUpdate, BlockPart, ReconnectNotice, Marker;
    var notice := if request.resume.Some? then [ReconnectNotice(request.resume.value)] else [];
    var pool := if snapshot.Some?
                then [Marker(SnapshotPhase.Begin, snapshot.value)] + snapshot.value.updates
                  + [Marker(SnapshotPhase.End, snapshot.value)]
                else [];
    assert InitialUpdates(request, snapshot, replay) == notice + pool + replay;
    if request.resume.Some? {
      NoticeNotBlock(request.resume.value, {});
    }
    if snapshot.Some? {
      MarkerNotBlock(SnapshotPhase.Begin, snapshot.value, {});
      MarkerNotBlock(SnapshotPhase.End, snapshot.value, {});
    }
    forall u | u in notice + pool ensures BlockHeight(u).None? {
      MempoolNotBlock(u);
    }
    BlockPartNone(notice + pool);
    BlockPartAll(replay);
    BlockPartAppend(notice + pool, replay);
  }

  lemma FollowedOne(keys: set<Text>, u: SubscribeUpdate)
    ensures MempoolView.FollowedAll(keys, [u]) == MempoolView.Followed(keys, u)
  {
    assert [u][..0] == [];
  }

  /** Following the initial updates gives the keys of the mempool snapshot. */
  lemma InitialKeys(request: SubscribeRequest, snapshot: MempoolView.Snapshot, replay: seq<SubscribeUpdate>)
    requires forall u :: u in replay ==> BlockHeight(u).Some?
    ensures MempoolView.FollowedAll({}, InitialUpdates(request, Some(snapshot), replay))
            == MempoolView.FollowedAll({}, snapshot.updates)
  {
    hide MempoolView.FollowedAll, MempoolView.Followed, Marker, ReconnectNotice, BlockHeight;
    var notice := if request.resume.Some? then [ReconnectNotice(request.resume.value)] else [];
    var first, last := Marker(SnapshotPhase.Begin, snapshot), Marker(SnapshotPhase.End, snapshot);
    var keys := MempoolView.FollowedAll({}, snapshot.updates);
    assert InitialUpdates(request, Some(snapshot), replay) == notice + [first] + snapshot.updates + [last] + replay;
    StartsEmpty(notice, request);
    MempoolView.FollowedAppend({}, notice, [first]);
    FollowedOne({}, first);
    MarkerNotBlock(SnapshotPhase.Begin, snapshot, {});
    MempoolView.FollowedAppend({}, notice + [first], snapshot.updates);
    MempoolView.FollowedAppend({}, notice + [first] + snapshot.updates, [last]);
    FollowedOne(keys, last);
    MarkerNotBlock(SnapshotPhase.End, snapshot, keys);
    MempoolView.FollowedAppend({}, notice + [first] + snapshot.updates + [last], replay);
    BlockUpdatesIgnored(replay, keys);
  }

  lemma StartsEmpty(notice: seq<SubscribeUpdate>, request: SubscribeRequest)
    requires notice == if request.resume.Some? then [ReconnectNotice(request.resume.value)] else []
    ensures MempoolView.FollowedAll({}, notice) == {}
  {
    if request.resume.Some? {
      FollowedOne({}, notice[0]);
      NoticeNotBlock(request.resume.value, {});
    }
  }

  /** The mempool snapshot is taken while no mempool batch is in flight, so its keys are those of the log. */
  lemma FollowMark(s: Server)
    requires LogInv(s) && MempoolInv(s) && !HoldsMempoolLock(s.publisher)
    ensures s.mempool.entries.Keys == MempoolView.FollowedAll({}, s.log)
  {
    hide MempoolView.DetailsFiled;
    MempoolView.FollowedAppend({}, s.log, Unpushed(s.publisher));
    if s.publisher.Ready? {
      UnlockedBatchIgnored(s.publisher.batch, |s.log|, s.mempool.revision, MempoolView.FollowedAll({}, s.log));
    } else {
      assert s.log + [] == s.log;
    }
  }

  lemma JoinedReplayBlocks(s: Server, sub: Subscriber)
    requires JoinInv(s, sub)
    ensures forall u :: u in sub.replay ==> BlockHeight(u).Some?
  {
    match ReplayHeight(sub.request) {
      case Ok(Some(from)) => ReplayedBlocks(s.log, sub.window, from);
      case _ =>
    }
  }

  lemma SnapshotAllMempool(s: Server)
    requires MempoolInv(s)
    ensures forall u :: u in MempoolView.SnapshotOf(s.mempool).updates ==> IsMempoolUpdate(u)
  {
    MempoolView.SnapshotRebuildsKeys(s.mempool);
    hide MempoolView.SnapshotOf, MempoolView.FollowedAll, IsMempoolUpdate;
  }

  /** The facts that a subscriber gathers when it takes the mempool snapshot. */
  lemma FollowStarts(s: Server, sub: Subscriber, r: Subscriber)
    requires LogInv(s) && MempoolInv(s) && |s.ring| <= |s.log| && JoinInv(s, sub)
    requires sub.cursor == sub.openedAt && sub.sent == []
    requires sub.request.includeMempoolSnapshot ==> !HoldsMempoolLock(s.publisher)
    requires r == DoFollow(State(s, sub)).sub
    ensures FollowInv(s, r)
  {
    hide LogInv, MempoolInv, WindowAt, ReplayPart, Watermark, MempoolView.FollowedAll, BlockPart, InitialUpdates,
      MempoolView.SnapshotOf, MarkInv, Covered, BlockHeight, IsMempoolUpdate, HoldsMempoolLock;
    SnapshotAllMempool(s);
    JoinedReplayBlocks(s, sub);
    if sub.request.includeMempoolSnapshot {
      MarkStarts(s, sub, r);
    }
    var snapshot := if sub.request.includeMempoolSnapshot then Some(MempoolView.SnapshotOf(s.mempool)) else None;
    InitialBlocks(sub.request, snapshot, sub.replay);
    assert Passed(s.log, FirstLive(r), r.cursor, r.mempoolMark) == [];
    assert [] + r.queue == r.initial + [];
  }

  lemma MarkStarts(s: Server, sub: Subscriber, r: Subscriber)
    requires LogInv(s) && MempoolInv(s) && |s.ring| <= |s.log| && JoinInv(s, sub)
    requires sub.request.includeMempoolSnapshot && !HoldsMempoolLock(s.publisher)
    requires r == DoFollow(State(s, sub)).sub
    ensures MarkInv(s, r)
  {
    JoinedReplayBlocks(s, sub);
    MempoolView.SnapshotRebuildsKeys(s.mempool);
    var snapshot := MempoolView.SnapshotOf(s.mempool);
    FollowSetsMark(s, sub, snapshot);
    hide LogInv, MempoolInv, JoinInv, MempoolView.FollowedAll, InitialUpdates, MarkInv;
  }

  lemma FollowKeeps(cfg: Config, st: State)
    requires Inv(cfg, st) && Enabled(cfg, st, Follow)
    ensures Inv(cfg, DoFollow(st))
  {
    var s, sub, r := st.server, st.sub, DoFollow(st);
    FollowStarts(s, sub, r.sub);
    hide ServerInv, WindowAt, FollowInv, InitialUpdates, MempoolView.SnapshotOf, Replayed;
  }

  lemma FollowSetsMark(s: Server, sub: Subscriber, snapshot: MempoolView.Snapshot)
    requires LogInv(s) && MempoolInv(s) && !HoldsMempoolLock(s.publisher) && |s.ring| <= |s.log|
    requires JoinInv(s, sub) && (forall u :: u in sub.replay ==> BlockHeight(u).Some?)
    requires snapshot.revision == s.mempool.revision
    requires MempoolView.FollowedAll({}, snapshot.updates) == s.mempool.entries.Keys
    ensures MarkInv(s, sub.(phase := Following, mempoolMark := Some(snapshot.revision), mempoolAt := |s.log|,
                            initial := InitialUpdates(sub.request, Some(snapshot), sub.replay),
                            queue := InitialUpdates(sub.request, Some(snapshot), sub.replay)))
  {
    hide MempoolView.FollowedAll, InitialUpdates, MempoolView.DetailsFiled;
    InitialKeys(sub.request, snapshot, sub.replay);
    FollowMark(s);
    assert s.log[..|s.log|] == s.log;
    forall i | 0 <= i < |s.log| && IsMempoolUpdate(s.log[i]) ensures Covered(s.log[i], Some(snapshot.revision)) {
      assert Revised(s.log[i], s.mempool.revision);
    }
  }

  lemma EmitKeeps(s: Server, sub: Subscriber)
    requires |s.ring| <= |s.log| && SubInv(s, sub) && sub.phase == Following && sub.queue != []
    ensures SubInv(s, sub.(sent := sub.sent + [sub.queue[0]], queue := sub.queue[1..]))
  {
    hide WindowAt, MempoolView.FollowedAll, BlockPart, Passed, Covered, Replayed;
    assert sub.sent + [sub.queue[0]] + sub.queue[1..] == sub.sent + sub.queue;
  }

  /** Receiving passes one more log position by. */
  lemma ReceivePasses(s: Server, sub: Subscriber)
    requires LogInv(s) && sub.cursor < |s.ring| <= |s.log| && sub.openedAt <= sub.cursor
    requires sub.watermark == (if sub.cursor > sub.openedAt && sub.cursor > Watermark(sub.window) then sub.cursor
                               else Watermark(sub.window))
    requires sub.sent == sub.initial + Passed(s.log, FirstLive(sub), sub.cursor, sub.mempoolMark)
    ensures var r := DoReceive(s, sub);
            && r.sent == sub.initial + Passed(s.log, FirstLive(sub), r.cursor, sub.mempoolMark)
            && r.watermark == (if r.cursor > sub.openedAt && r.cursor > Watermark(sub.window) then r.cursor
                               else Watermark(sub.window))
  {
    RingWithinLog(s);
    var u, lo := s.log[sub.cursor], FirstLive(sub);
    assert u == s.ring[sub.cursor] && u.sequence == sub.cursor + 1;
    hide LogInv, Covered, Watermark;
    if sub.cursor < lo {
      assert Passed(s.log, lo, sub.cursor, sub.mempoolMark) == [] == Passed(s.log, lo, sub.cursor + 1, sub.mempoolMark);
    } else {
      var before, one := Passed(s.log, lo, sub.cursor, sub.mempoolMark), if Covered(u, sub.mempoolMark) then []
        else [u];
      assert Passed(s.log, lo, sub.cursor + 1, sub.mempoolMark) == before + one;
      assert sub.initial + before + one == sub.initial + (before + one);
    }
  }

  lemma ReceiveKeeps(s: Server, sub: Subscriber)
    requires LogInv(s) && |s.ring| <= |s.log| && SubInv(s, sub)
    requires sub.phase == Following && sub.queue == [] && sub.cursor < |s.ring|
    ensures SubInv(s, DoReceive(s, sub))
  {
    hide LogInv, WindowAt, MempoolView.FollowedAll, BlockPart, Covered, Replayed, Passed, Watermark, ReplayPart;
    assert forall us: seq<SubscribeUpdate> :: us + [] == us;
    ReceivePasses(s, sub);
    var r := DoReceive(s, sub);
    assert r == sub.(cursor := sub.cursor + 1, watermark := r.watermark, sent := r.sent);
    if sub.request.includeMempoolSnapshot {
      MarkStays(s, sub, r);
    }
    hide MarkInv, DoReceive;
  }

  lemma MarkStays(s: Server, sub: Subscriber, r: Subscriber)
    requires MarkInv(s, sub) && r == sub.(cursor := r.cursor, watermark := r.watermark, sent := r.sent)
    ensures MarkInv(s, r)
  {
    hide MempoolView.FollowedAll, Covered;
  }

  lemma OpenKeeps(s: Server, sub: Subscriber)
    requires |s.ring| <= |s.log| && SubInv(s, sub) && sub.phase == Fresh
    ensures SubInv(s, sub.(phase := Listening, openedAt := |s.ring|, cursor := |s.ring|))
  {
    hide JoinInv, FollowInv;
  }

  lemma FallBehindKeeps(s: Server, sub: Subscriber)
    requires |s.ring| <= |s.log| && SubInv(s, sub) && sub.phase == Following
    ensures SubInv(s, sub.(phase := Lagged))
  {
    hide WindowAt, MempoolView.FollowedAll, BlockPart, Passed, Covered, ReplayPart, Watermark;
  }

  lemma SubscriberStep(cfg: Config, st: State, step: Step)
    requires Inv(cfg, st) && Enabled(cfg, st, step)
    requires !(step.Begin? || step.Push? || step.Send? || step.Finish? || step.EvictByReader?)
    ensures Inv(cfg, Do(cfg, st, step))
  {
    var s, sub := st.server, st.sub;
    hide SubInv, WindowInv, MempoolInv, LogInv, DoJoin, DoFollow, DoReceive;
    match step {
      case Open => OpenKeeps(s, sub);
      case Join(now) => JoinKeeps(cfg, st, now);
      case Follow => FollowKeeps(cfg, st);
      case Emit => EmitKeeps(s, sub);
      case Receive => ReceiveKeeps(s, sub);
      case FallBehind => FallBehindKeeps(s, sub);
    }
  }

  lemma StepKeeps(cfg: Config, st: State, step: Step)
    requires Inv(cfg, st) && Enabled(cfg, st, step)
    ensures Inv(cfg, Do(cfg, st, step))
  {
    hide Inv, Do, Enabled;
    if step.Begin? || step.Push? || step.Send? || step.Finish? || step.EvictByReader? {
      PublisherStep(cfg, st, step);
    } else {
      SubscriberStep(cfg, st, step);
    }
  }

  lemma InitialInv(cfg: Config, request: SubscribeRequest)
    ensures Inv(cfg, State(EMPTY_SERVER, FreshSubscriber(request)))
  {
    EmptyServerInv(cfg);
    hide ServerInv, JoinInv, FollowInv;
  }

  lemma EmptyServerInv(cfg: Config)
    ensures ServerInv(cfg, EMPTY_SERVER)
  {
    var s := EMPTY_SERVER;
    assert LogInv(s) by {
      hide Revised, BatchInv;
    }
    assert WindowInv(cfg, s) by {
      hide Spans, BlockHeight;
    }
    assert MempoolInv(s) by {
      hide LogInv, WindowInv;
      assert MempoolView.FollowedAll({}, [] + []) == {};
    }
  }

  /** The invariant holds in every state of every run. */
  lemma {:induction false} RunKeeps(
    cfg: Config, request: SubscribeRequest, states: seq<State>, steps: seq<Step>, i: nat)
    requires IsRun(cfg, request, states, steps) && i <= |steps|
    ensures Inv(cfg, states[i])
  {
    hide Inv, Do, Enabled;
    if i == 0 {
      InitialInv(cfg, request);
    } else {
      RunKeeps(cfg, request, states, steps, i - 1);
      assert Enabled(cfg, states[i - 1], steps[i - 1]) && states[i - 1 + 1] == Do(cfg, states[i - 1], steps[i - 1]);
      StepKeeps(cfg, states[i - 1], steps[i - 1]);
    }
  }
}
