// A subscription's task on what `Subscribe` returns in a reachable state: it sends what the machine's subscriber is
// given, and whatever else wakes it up, nothing comes twice.
module TaskStream {
  import opened Proto
  import opened Replay
  import opened EventFilters
  import opened Filter
  import opened Handshake
  import opened Protocol
  import opened SharedStates
  import opened Splice
  import opened Subscriptions
  import opened FilteredStream
  import opened SnapshotStream
  import opened Guarantees
  import Projection
  import MempoolView

  // ---------- what a subscriber starts its task with ----------

  /** What `Subscribe` returns to a subscriber with these snapshots of this log. */
  ghost function InitialOf(log: seq<SubscribeUpdate>, sub: Subscriber): InitialSubscription
    requires sub.request.includeMempoolSnapshot ==> sub.mempoolMark.Some? && sub.mempoolAt <= |log|
  {
    InitialSubscription(sub.openedAt, ReplaySnapshot(sub.replay, Watermark(sub.window)), SnapshotTaken(log, sub),
      if sub.request.resume.Some? then Some(ReconnectNotice(sub.request.resume.value)) else None)
  }

  /** Subscribing is the machine's Open, Join and Follow. */
  lemma SubscribeIsSteps(cfg: Config, s: Server, request: SubscribeRequest, now: nat)
    requires s.publisher.Idle? && now >= s.clock && DoJoin(cfg, State(s, Opened(s, request)), now).sub.phase.Joined?
    ensures var unopened, listening := State(s, FreshSubscriber(request)), State(s, Opened(s, request));
            var joined := DoJoin(cfg, listening, now);
            && Enabled(cfg, unopened, Open) && Do(cfg, unopened, Open) == listening
            && Enabled(cfg, listening, Join(now)) && Do(cfg, listening, Join(now)) == joined
            && Enabled(cfg, joined, Follow) && Do(cfg, joined, Follow) == DoFollow(joined)
  {
    JoinKeepsPlaces(cfg, State(s, Opened(s, request)), now);
    hide DoJoin, DoFollow;
  }

  /** What `Subscribe` returns is what the subscriber's snapshots make after those steps. */
  lemma SubscribeStarts(cfg: Config, s: Server, request: SubscribeRequest, now: nat)
    requires LogInv(s) && ViewInv(s) && s.publisher.Idle?
    requires DoJoin(cfg, State(s, Opened(s, request)), now).sub.phase.Joined?
    ensures var joined := DoJoin(cfg, State(s, Opened(s, request)), now);
            var sub := DoFollow(joined).sub;
            && HasFollowed(sub) && DoFollow(joined).server.log == s.log
            && (request.includeMempoolSnapshot ==> sub.mempoolMark.Some? && sub.mempoolAt <= |s.log|)
            && InitialOf(s.log, sub)
               == InitialSubscription(|s.ring|, ReplaySnapshot(joined.sub.replay, joined.sub.watermark),
                    if request.includeMempoolSnapshot then Some(MempoolView.SnapshotOf(s.mempool)) else None,
                    if request.resume.Some? then Some(ReconnectNotice(request.resume.value)) else None)
  {
    JoinKeepsPlaces(cfg, State(s, Opened(s, request)), now);
    UnlockedView(s);
    hide LogInv, ViewInv, DoJoin, MempoolView.SnapshotOf, InitialUpdates, ViewAt, ReconnectNotice, Watermark;
    SnapshotRevision(s.mempool);
  }

  lemma JoinKeepsPlaces(cfg: Config, st: State, now: nat)
    requires DoJoin(cfg, st, now).sub.phase.Joined?
    ensures var r := DoJoin(cfg, st, now);
            && r.server.log == st.server.log && r.server.mempool == st.server.mempool
            && r.server.publisher == st.server.publisher && r.sub.request == st.sub.request
            && r.sub.openedAt == st.sub.openedAt && r.sub.watermark == Watermark(r.sub.window)
  {
    hide Kept, Replayed, FirstAvailable, Watermark, Verified;
  }

  // ---------- the initial messages ----------

  /** Sending what the request asks is sending what passes the filter, for updates other than notices and markers. */
  lemma {:induction false} AskedIsPassed(
    ef: EventFilter, request: SubscribeRequest, canon: Canon, us: seq<SubscribeUpdate>)
    requires Represents(ef, request, canon) && forall u :: u in us ==> !IsControl(u)
    ensures AskedAll(request, canon, us) == Passes(ef, us)
  {
    hide Represents, Asked, Matched, Delivered, IsControl;
    if us == [] {
    } else {
      var n := |us| - 1;
      assert us == us[..n] + [us[n]];
      AskedIsPassed(ef, request, canon, us[..n]);
      SentIsAsked(ef, request, canon, us[n]);
    }
  }

  lemma OnePasses(ef: EventFilter, u: SubscribeUpdate)
    requires IsControl(u)
    ensures Passes(ef, [u]) == [u]
  {
    assert [u][..0] == [] && [u][0] == u;
    assert Passes(ef, []) == [];
  }

  lemma NotControl(u: SubscribeUpdate)
    requires BlockHeight(u).Some? || IsMempoolUpdate(u)
    ensures !IsControl(u)
  {
  }

  lemma MarkersAreControl(phase: SnapshotPhase, snapshot: MempoolView.Snapshot, checkpoint: ResumeCheckpoint)
    ensures IsControl(Marker(phase, snapshot)) && IsControl(ReconnectNotice(checkpoint))
  {
  }

  lemma BracketedPasses(ef: EventFilter, request: SubscribeRequest, canon: Canon, snapshot: MempoolView.Snapshot)
    requires Represents(ef, request, canon) && forall u :: u in snapshot.updates ==> IsMempoolUpdate(u)
    ensures Bracketed(request, canon, snapshot)
            == Passes(ef, [Marker(SnapshotPhase.Begin, snapshot)] + snapshot.updates
                            + [Marker(SnapshotPhase.End, snapshot)])
  {
    hide Represents, Passes, AskedAll, IsControl, IsMempoolUpdate, Marker;
    var first, last := Marker(SnapshotPhase.Begin, snapshot), Marker(SnapshotPhase.End, snapshot);
    MarkersAreControl(SnapshotPhase.Begin, snapshot, ResumeCheckpoint(0, [], []));
    MarkersAreControl(SnapshotPhase.End, snapshot, ResumeCheckpoint(0, [], []));
    forall u | u in snapshot.updates ensures !IsControl(u) {
      NotControl(u);
    }
    AskedIsPassed(ef, request, canon, snapshot.updates);
    OnePasses(ef, first);
    OnePasses(ef, last);
    PassesAppend(ef, [first], snapshot.updates);
    PassesAppend(ef, [first] + snapshot.updates, [last]);
  }

  /** The initial messages are what passes of the machine's initial updates. */
  lemma InitialPasses(
    ef: EventFilter, request: SubscribeRequest, canon: Canon, initial: InitialSubscription)
    requires Represents(ef, request, canon)
    requires initial.reconnect == if request.resume.Some? then Some(ReconnectNotice(request.resume.value)) else None
    requires initial.mempool.Some? ==> forall u :: u in initial.mempool.value.updates ==> IsMempoolUpdate(u)
    requires forall u :: u in initial.replay.updates ==> BlockHeight(u).Some?
    ensures InitialMessages(request, canon, initial)
            == Passes(ef, InitialUpdates(request, initial.mempool, initial.replay.updates))
  {
    hide Represents, Passes, AskedAll, InitialMessages, Marker, ReconnectNotice, IsControl, IsMempoolUpdate,
      BlockHeight, Bracketed;
    var notice := if request.resume.Some? then [ReconnectNotice(request.resume.value)] else [];
    var pool := if initial.mempool.Some?
                then [Marker(SnapshotPhase.Begin, initial.mempool.value)] + initial.mempool.value.updates
                  + [Marker(SnapshotPhase.End, initial.mempool.value)]
                else [];
    InitialShape(request, canon, initial);
    NothingPasses(ef);
    if request.resume.Some? {
      MarkersAreControl(SnapshotPhase.Begin, MempoolView.Snapshot(0, 0, []), request.resume.value);
      OnePasses(ef, notice[0]);
    }
    if initial.mempool.Some? {
      BracketedPasses(ef, request, canon, initial.mempool.value);
    }
    forall u | u in initial.replay.updates ensures !IsControl(u) {
      NotControl(u);
    }
    AskedIsPassed(ef, request, canon, initial.replay.updates);
    PassesAppend(ef, notice, pool);
    PassesAppend(ef, notice + pool, initial.replay.updates);
  }

  lemma NothingPasses(ef: EventFilter)
    ensures Passes(ef, []) == []
  {
  }

  // ---------- the loop between two positions of the ring ----------

  /** The subscriber as it was when it had received the ring up to position n. */
  function At(s: Server, sub: Subscriber, n: nat): (r: Subscriber)
    requires n <= |s.log|
    ensures r.cursor == n && r.mempoolMark == sub.mempoolMark
  {
    sub.(cursor := n, queue := [],
         watermark := if n > sub.openedAt && n > Watermark(sub.window) then n else Watermark(sub.window),
         sent := sub.initial + Passed(s.log, FirstLive(sub), n, sub.mempoolMark))
  }

  lemma OneOn(s: Server, sub: Subscriber, n: nat)
    requires LogInv(s) && sub.openedAt <= n < |s.ring| <= |s.log|
    ensures DoReceive(s, At(s, sub, n)) == At(s, sub, n + 1)
  {
    var before := At(s, sub, n);
    assert FirstLive(before) == FirstLive(sub);
    ReceivePasses(s, before);
    hide LogInv, Passed, Watermark, Covered, FirstLive;
  }

  lemma {:induction false} ReceivedBetween(s: Server, sub: Subscriber, m: nat, n: nat)
    requires LogInv(s) && sub.openedAt <= m <= n <= |s.ring| <= |s.log|
    ensures ReceivedUpTo(s, At(s, sub, m), n) == At(s, sub, n)
  {
    hide LogInv, At, DoReceive;
    if n == m {
    } else {
      ReceivedBetween(s, sub, m, n - 1);
      OneOn(s, sub, n - 1);
    }
  }

  /** What the ring lets past the watermark and the mark from position m on, up to n. */
  function Since(s: Server, sub: Subscriber, m: nat, n: nat): (r: seq<SubscribeUpdate>)
    requires n <= |s.log|
  {
    Passed(s.log, if m < FirstLive(sub) then FirstLive(sub) else m, n, sub.mempoolMark)
  }

  lemma {:induction false} PassedSplit(log: seq<SubscribeUpdate>, lo: nat, m: nat, n: nat, mark: Option<nat>)
    requires m <= n <= |log|
    ensures Passed(log, lo, n, mark) == Passed(log, lo, m, mark) + Passed(log, if m < lo then lo else m, n, mark)
  {
    hide Covered;
    if n == m || n <= lo {
    } else {
      PassedSplit(log, lo, m, n - 1, mark);
      var one := if Covered(log[n - 1], mark) then [] else [log[n - 1]];
      Regrouped(Passed(log, lo, m, mark), Passed(log, if m < lo then lo else m, n - 1, mark), one);
    }
  }

  lemma Regrouped<T>(a: seq<T>, b: seq<T>, c: seq<T>)
    ensures a + b + c == a + (b + c)
  {
  }

  lemma SameTail<T>(a: seq<T>, b: seq<T>, c: seq<T>)
    requires a + b == a + c
    ensures b == c
  {
    assert b == (a + b)[|a|..] && c == (a + c)[|a|..];
  }

  /** Woken by the ring from position m to n, the loop sends what its active request asks of what the machine's
      subscriber passes on there. */
  lemma LoopBetween(s: Server, sub: Subscriber, m: nat, n: nat, l: Loop, context: Context)
    requires LogInv(s) && sub.openedAt <= m <= n <= |s.ring| <= |s.log|
    requires l.watermark == At(s, sub, m).watermark && l.mempoolMark == sub.mempoolMark
    requires l.ended.None? && |l.sent| <= context.accepts
    ensures var after := Looped(l, context, Arrivals(s.ring[m..n]));
            var whole := l.sent + AskedAll(l.active, context.canon, Since(s, sub, m, n));
            if |whole| <= context.accepts then after == l.(watermark := At(s, sub, n).watermark, sent := whole)
            else after.sent == whole[..context.accepts] && after.ended == Some(ResponseClosed)
  {
    var before := At(s, sub, m);
    ReceivedBetween(s, sub, m, n);
    var passed := LoopIsReceive(s, before, n, l, context);
    PassedSplit(s.log, FirstLive(sub), m, n, sub.mempoolMark);
    Regrouped(sub.initial, Passed(s.log, FirstLive(sub), m, sub.mempoolMark), Since(s, sub, m, n));
    assert before.sent + passed == before.sent + Since(s, sub, m, n);
    SameTail(before.sent, passed, Since(s, sub, m, n));
    hide LogInv, Passed, ReceivedUpTo, Looped, AskedAll, FirstLive, Watermark;
  }

  // ---------- the task on a subscriber of the machine ----------

  /** As far as the response takes them, and why the task ended then, if it did. */
  function Taken(whole: seq<SubscribeUpdate>, accepts: nat): (r: (seq<SubscribeUpdate>, Option<Reason>)) {
    (UpTo(whole, accepts), if |whole| <= accepts then None else Some(ResponseClosed))
  }

  /** A subscriber in a reachable state. */
  ghost predicate Subscribed(s: Server, sub: Subscriber) {
    && LogInv(s) && MempoolInv(s) && |s.ring| <= |s.log| && HasFollowed(sub)
    && SubInv(s, sub) && StartInv(s, sub)
  }

  lemma TaskStart(s: Server, sub: Subscriber, ef: EventFilter, canon: Canon)
    requires Subscribed(s, sub) && Represents(ef, sub.request, canon)
    ensures sub.request.includeMempoolSnapshot ==> sub.mempoolMark.Some? && sub.mempoolAt <= |s.log|
    ensures var initial := InitialOf(s.log, sub);
            var whole := Passes(ef, sub.initial);
            && InitialMessages(sub.request, canon, initial) == whole
            && LoopStart(sub.request, initial, whole)
               == Loop(sub.request, At(s, sub, sub.openedAt).watermark, sub.mempoolMark, -1, true, whole, None)
  {
    var initial := InitialOf(s.log, sub);
    TakenMempool(s, sub);
    JoinedReplayBlocks(s, sub);
    hide LogInv, MempoolInv, JoinInv, Represents, IsMempoolUpdate, BlockHeight, InitialMessages, Passes,
      InitialUpdates, SnapshotTaken, ReconnectNotice, Watermark, Passed;
    InitialPasses(ef, sub.request, canon, initial);
  }

  lemma TakenMempool(s: Server, sub: Subscriber)
    requires StartInv(s, sub) && HasFollowed(sub)
    ensures var taken := SnapshotTaken(s.log, sub);
            && (taken.Some? <==> sub.request.includeMempoolSnapshot)
            && (taken.Some? ==>
                  && taken.value.revision == sub.mempoolMark.value
                  && forall u :: u in taken.value.updates ==> IsMempoolUpdate(u))
  {
    if sub.request.includeMempoolSnapshot {
      var us := s.log[..sub.mempoolAt];
      MempoolView.ApplyFiles(MempoolView.EMPTY, us);
      var m := ViewAt(s.log, sub.mempoolAt, sub.mempoolMark.value);
      hide MempoolView.AppliedAll, IsMempoolUpdate, MempoolView.FollowedAll, InitialUpdates;
      SnapshotRevision(m);
      MempoolView.SnapshotRebuildsKeys(m);
      hide MempoolView.SnapshotOf;
    }
  }

  lemma LogNotControl(s: Server, sub: Subscriber, m: nat, n: nat)
    requires LogInv(s) && n <= |s.log|
    ensures forall u :: u in Since(s, sub, m, n) ==> !IsControl(u)
  {
    AllRevised(s);
    hide LogInv, IsControl, Revised, Covered, FirstLive;
    forall u | u in s.log ensures !IsControl(u) {
      var i :| 0 <= i < |s.log| && s.log[i] == u;
      RevisedNotControl(u, s.mempool.revision);
    }
    PassedFromLog(s.log, if m < FirstLive(sub) then FirstLive(sub) else m, n, sub.mempoolMark);
  }

  lemma RevisedNotControl(u: SubscribeUpdate, revision: nat)
    requires Revised(u, revision)
    ensures !IsControl(u)
  {
  }

  lemma {:induction false} PassedFromLog(log: seq<SubscribeUpdate>, lo: nat, hi: nat, mark: Option<nat>)
    requires hi <= |log|
    ensures forall u :: u in Passed(log, lo, hi, mark) ==> u in log
  {
    hide Covered;
    if hi <= lo {
    } else {
      PassedFromLog(log, lo, hi - 1, mark);
    }
  }

  /** In every state of every run, the task of a subscriber, started on what `Subscribe` returned and woken by the ring
      as far as the subscriber got, has sent what passes the request's filter of everything that the machine's
      subscriber was given, in the same order, as far as the response took it. */
  lemma TaskIsMachine(
    cfg: Config, request: SubscribeRequest, states: seq<State>, steps: seq<Step>, i: nat, ef: EventFilter,
    context: Context)
    requires IsRun(cfg, request, states, steps) && i <= |steps| && HasFollowed(states[i].sub)
    requires Represents(ef, states[i].sub.request, context.canon)
    ensures var s, sub := states[i].server, states[i].sub;
            && (sub.request.includeMempoolSnapshot ==> sub.mempoolMark.Some? && sub.mempoolAt <= |s.log|)
            && sub.openedAt <= sub.cursor <= |s.ring|
            && Task(sub.request, InitialOf(s.log, sub), context, Arrivals(s.ring[sub.openedAt..sub.cursor]))
               == Taken(Passes(ef, Outgoing(sub)), context.accepts)
  {
    ReachedSubscribed(cfg, request, states, steps, i);
    hide IsRun, Represents, Subscribed;
    TaskState(states[i].server, states[i].sub, ef, context);
  }

  lemma ReachedSubscribed(cfg: Config, request: SubscribeRequest, states: seq<State>, steps: seq<Step>, i: nat)
    requires IsRun(cfg, request, states, steps) && i <= |steps| && HasFollowed(states[i].sub)
    ensures Subscribed(states[i].server, states[i].sub)
  {
    RunKeepsStart(cfg, request, states, steps, i);
    hide IsRun, LogInv, MempoolInv, WindowInv, SubInv, StartInv;
  }

  lemma TaskState(s: Server, sub: Subscriber, ef: EventFilter, context: Context)
    requires Subscribed(s, sub) && Represents(ef, sub.request, context.canon)
    ensures sub.request.includeMempoolSnapshot ==> sub.mempoolMark.Some? && sub.mempoolAt <= |s.log|
    ensures sub.openedAt <= sub.cursor <= |s.ring|
    ensures Task(sub.request, InitialOf(s.log, sub), context, Arrivals(s.ring[sub.openedAt..sub.cursor]))
            == Taken(Passes(ef, Outgoing(sub)), context.accepts)
  {
    hide *;
    var first, canon := sub.openedAt, context.canon;
    SubscribedLog(s, sub);
    TaskStart(s, sub, ef, canon);
    var whole := Passes(ef, sub.initial);
    var rest := Since(s, sub, first, sub.cursor);
    GivenSince(s, sub);
    PassesAppend(ef, sub.initial, rest);
    LogNotControl(s, sub, first, sub.cursor);
    AskedIsPassed(ef, sub.request, canon, rest);
    TaskRuns(sub.request, InitialOf(s.log, sub), context, Arrivals(s.ring[first..sub.cursor]), whole);
    TakenCases(whole + Passes(ef, rest), context.accepts);
    if |whole| <= context.accepts {
      LoopBetween(s, sub, first, sub.cursor, LoopStart(sub.request, InitialOf(s.log, sub), whole), context);
    } else {
      ClosedEarly(whole, Passes(ef, rest), context.accepts);
      TakenCases(whole, context.accepts);
    }
  }

  lemma SubscribedLog(s: Server, sub: Subscriber)
    requires Subscribed(s, sub)
    ensures LogInv(s) && |s.ring| <= |s.log| && sub.openedAt <= sub.cursor <= |s.ring|
  {
    hide LogInv, MempoolInv, StartInv, WindowAt, FollowInv;
  }

  lemma TaskRuns(
    request: SubscribeRequest, initial: InitialSubscription, context: Context, wakes: seq<Wake>,
    whole: seq<SubscribeUpdate>)
    requires InitialMessages(request, context.canon, initial) == whole
    ensures var r := Looped(LoopStart(request, initial, whole), context, wakes);
            Task(request, initial, context, wakes)
            == if |whole| > context.accepts then (whole[..context.accepts], Some(ResponseClosed)) else (r.sent, r.ended)
  {
    hide InitialMessages, Looped, LoopStart;
  }

  lemma TakenCases(whole: seq<SubscribeUpdate>, accepts: nat)
    ensures Taken(whole, accepts)
            == if |whole| <= accepts then (whole, None) else (whole[..accepts], Some(ResponseClosed))
    ensures UpTo(whole, accepts) == Taken(whole, accepts).0
  {
  }

  lemma GivenSince(s: Server, sub: Subscriber)
    requires Subscribed(s, sub)
    ensures sub.openedAt <= sub.cursor <= |s.ring|
    ensures Outgoing(sub) == sub.initial + Since(s, sub, sub.openedAt, sub.cursor)
  {
    hide LogInv, MempoolInv, StartInv, WindowAt, MarkInv, Passed, Watermark, BlockPart;
  }

  // ---------- a request while the task runs ----------

  lemma {:induction false} LoopedAppend(l: Loop, context: Context, a: seq<Wake>, b: seq<Wake>)
    ensures Looped(l, context, a + b) == Looped(Looped(l, context, a), context, b)
  {
    hide Woken;
    if b == [] {
      assert a + b == a;
    } else {
      LoopedAppend(l, context, a, b[..|b| - 1]);
      assert (a + b)[..|a + b| - 1] == a + b[..|b| - 1];
    }
  }

  /** What a request that comes in between makes of the task: a ping is answered at once with its own id and changes
      nothing else; a request whose filters are accepted decides from then on; any other ends the task. */
  function Interrupted(
    before: seq<SubscribeUpdate>, again: SubscribeRequest, ended: bool, asBefore: seq<SubscribeUpdate>,
    replaced: seq<SubscribeUpdate>, accepts: nat): (r: (seq<SubscribeUpdate>, Option<Reason>))
  {
    if |before| > accepts then
      Taken(before, accepts)
    else if again.ping.Some? then
      Taken(before + [SubscribeUpdate([], 0, 0, [], 0, None, Some(Pong(again.ping.value)))] + asBefore, accepts)
    else if ended then
      (before, Some(InvalidFilter))
    else
      Taken(before + replaced, accepts)
  }

  /** A request that comes in when the subscriber has the ring up to position `mid` leaves alone what was sent before
      it. From there on the ring's updates are sent as it asks, if it is accepted, and as before, if it is a ping. */
  lemma RequestTakesEffect(
    cfg: Config, request: SubscribeRequest, states: seq<State>, steps: seq<Step>, i: nat, ef: EventFilter,
    context: Context, again: SubscribeRequest, mid: nat)
    requires IsRun(cfg, request, states, steps) && i <= |steps| && HasFollowed(states[i].sub)
    requires Represents(ef, states[i].sub.request, context.canon)
    requires states[i].sub.openedAt <= mid <= states[i].sub.cursor
    ensures var s, sub := states[i].server, states[i].sub;
            && (sub.request.includeMempoolSnapshot ==> sub.mempoolMark.Some? && sub.mempoolAt <= |s.log|)
            && sub.cursor <= |s.ring| <= |s.log|
            && var earlier := sub.initial + Since(s, sub, sub.openedAt, mid);
               var later := Since(s, sub, mid, sub.cursor);
               && Outgoing(sub) == earlier + later
               && Task(sub.request, InitialOf(s.log, sub), context,
                       Arrivals(s.ring[sub.openedAt..mid]) + [Request(again)] + Arrivals(s.ring[mid..sub.cursor]))
                  == Interrupted(Passes(ef, earlier), again, !RequestAccepted(again, context.limits, context.canon),
                       Passes(ef, later), AskedAll(again, context.canon, later), context.accepts)
  {
    ReachedSubscribed(cfg, request, states, steps, i);
    hide IsRun, Represents, Subscribed;
    InterruptedState(states[i].server, states[i].sub, ef, context, again, mid);
  }

  lemma OneWake(l: Loop, context: Context, wake: Wake)
    ensures Looped(l, context, [wake]) == if l.ended.Some? then l else Woken(l, context, wake)
    ensures Looped(l, context, []) == l
  {
    hide Woken;
    assert [wake][..0] == [] && Looped(l, context, []) == l;
  }

  lemma EndedLoop(l: Loop, context: Context, wakes: seq<Wake>)
    requires l.ended.Some?
    ensures Looped(l, context, wakes) == l
  {
    OneWake(l, context, RequestsEnd);
    assert wakes[..0] == [];
    EndedStays(l, context, wakes, 0);
  }

  /** The request itself, and then the rest of the ring. */
  lemma AfterRequest(s: Server, sub: Subscriber, context: Context, again: SubscribeRequest, mid: nat, l: Loop)
    requires LogInv(s) && sub.openedAt <= mid <= sub.cursor <= |s.ring| <= |s.log|
    requires l.watermark == At(s, sub, mid).watermark && l.mempoolMark == sub.mempoolMark
    requires l.ended.None? && l.inboundOpen && |l.sent| <= context.accepts
    ensures var later := Since(s, sub, mid, sub.cursor);
            var r := Looped(Looped(l, context, [Request(again)]), context, Arrivals(s.ring[mid..sub.cursor]));
            (r.sent, r.ended)
            == Interrupted(l.sent, again, !RequestAccepted(again, context.limits, context.canon),
                 AskedAll(l.active, context.canon, later), AskedAll(again, context.canon, later), context.accepts)
  {
    OneWake(l, context, Request(again));
    var asked := Looped(l, context, [Request(again)]);
    hide LogInv, Since, At, AskedAll, Looped, RequestAccepted;
    if asked.ended.Some? {
      EndedLoop(asked, context, Arrivals(s.ring[mid..sub.cursor]));
      if again.ping.Some? {
        ClosedEarly(l.sent + [PongMessage(again.ping.value)],
          AskedAll(l.active, context.canon, Since(s, sub, mid, sub.cursor)), context.accepts);
      }
    } else {
      LoopBetween(s, sub, mid, sub.cursor, asked, context);
    }
  }

  lemma InterruptedLoop(s: Server, sub: Subscriber, context: Context, again: SubscribeRequest, mid: nat, start: Loop)
    requires LogInv(s) && sub.openedAt <= mid <= sub.cursor <= |s.ring| <= |s.log|
    requires start.watermark == At(s, sub, sub.openedAt).watermark && start.mempoolMark == sub.mempoolMark
    requires start.ended.None? && start.inboundOpen && |start.sent| <= context.accepts
    ensures var earlier := AskedAll(start.active, context.canon, Since(s, sub, sub.openedAt, mid));
            var later := Since(s, sub, mid, sub.cursor);
            var r := Looped(start, context,
                       Arrivals(s.ring[sub.openedAt..mid]) + [Request(again)] + Arrivals(s.ring[mid..sub.cursor]));
            (r.sent, r.ended)
            == Interrupted(start.sent + earlier, again, !RequestAccepted(again, context.limits, context.canon),
                 AskedAll(start.active, context.canon, later), AskedAll(again, context.canon, later), context.accepts)
  {
    hide LogInv, Since, At, AskedAll, Looped, RequestAccepted, Woken;
    var upTo, from := Arrivals(s.ring[sub.openedAt..mid]), Arrivals(s.ring[mid..sub.cursor]);
    LoopedAppend(start, context, upTo + [Request(again)], from);
    LoopedAppend(start, context, upTo, [Request(again)]);
    LoopBetween(s, sub, sub.openedAt, mid, start, context);
    var reached := Looped(start, context, upTo);
    if reached.ended.Some? {
      EndedLoop(reached, context, [Request(again)]);
      EndedLoop(reached, context, from);
    } else {
      AfterRequest(s, sub, context, again, mid, reached);
    }
  }

  lemma SinceSplit(s: Server, sub: Subscriber, l: nat, m: nat, n: nat)
    requires l <= m <= n <= |s.log|
    ensures Since(s, sub, l, n) == Since(s, sub, l, m) + Since(s, sub, m, n)
  {
    PassedSplit(s.log, if l < FirstLive(sub) then FirstLive(sub) else l, m, n, sub.mempoolMark);
    hide Passed, FirstLive;
    assert (if m < (if l < FirstLive(sub) then FirstLive(sub) else l)
            then (if l < FirstLive(sub) then FirstLive(sub) else l) else m)
        == (if m < FirstLive(sub) then FirstLive(sub) else m);
  }

  lemma InterruptedState(
    s: Server, sub: Subscriber, ef: EventFilter, context: Context, again: SubscribeRequest, mid: nat)
    requires Subscribed(s, sub) && Represents(ef, sub.request, context.canon)
    requires sub.openedAt <= mid <= sub.cursor
    ensures sub.request.includeMempoolSnapshot ==> sub.mempoolMark.Some? && sub.mempoolAt <= |s.log|
    ensures sub.cursor <= |s.ring| <= |s.log|
    ensures var earlier := sub.initial + Since(s, sub, sub.openedAt, mid);
            var later := Since(s, sub, mid, sub.cursor);
            && Outgoing(sub) == earlier + later
            && Task(sub.request, InitialOf(s.log, sub), context,
                    Arrivals(s.ring[sub.openedAt..mid]) + [Request(again)] + Arrivals(s.ring[mid..sub.cursor]))
               == Interrupted(Passes(ef, earlier), again, !RequestAccepted(again, context.limits, context.canon),
                    Passes(ef, later), AskedAll(again, context.canon, later), context.accepts)
  {
    hide *;
    var first, canon := sub.openedAt, context.canon;
    SubscribedLog(s, sub);
    TaskStart(s, sub, ef, canon);
    GivenSince(s, sub);
    SinceSplit(s, sub, first, mid, sub.cursor);
    var since, later := Since(s, sub, first, mid), Since(s, sub, mid, sub.cursor);
    Regrouped(sub.initial, since, later);
    PassesAppend(ef, sub.initial, since);
    LogNotControl(s, sub, first, mid);
    LogNotControl(s, sub, mid, sub.cursor);
    AskedIsPassed(ef, sub.request, canon, since);
    AskedIsPassed(ef, sub.request, canon, later);
    var initial, whole := InitialOf(s.log, sub), Passes(ef, sub.initial);
    var wakes := Arrivals(s.ring[first..mid]) + [Request(again)] + Arrivals(s.ring[mid..sub.cursor]);
    TaskRuns(sub.request, initial, context, wakes, whole);
    if |whole| > context.accepts {
      ClosedEarly(whole, Passes(ef, since), context.accepts);
      InterruptedEarly(whole + Passes(ef, since), again, context, Passes(ef, later),
        AskedAll(again, canon, later));
      TakenCases(whole, context.accepts);
      TakenCases(whole + Passes(ef, since), context.accepts);
    } else {
      InterruptedLoop(s, sub, context, again, mid, LoopStart(sub.request, initial, whole));
    }
  }

  lemma InterruptedEarly(
    before: seq<SubscribeUpdate>, again: SubscribeRequest, context: Context, asBefore: seq<SubscribeUpdate>,
    replaced: seq<SubscribeUpdate>)
    requires |before| > context.accepts
    ensures forall ended ::
              Interrupted(before, again, ended, asBefore, replaced, context.accepts) == Taken(before, context.accepts)
  {
  }

  // ---------- whatever wakes the task up ----------

  /** What the loop has sent of blocks ascends up to its watermark, replay included; and nothing it sent after its
      start, at `from`, is covered by the mempool snapshot. */
  ghost predicate InOrderSoFar(l: Loop, from: nat, mark: Option<nat>) {
    && l.mempoolMark == mark && from <= |l.sent|
    && InSequence(BlockPart(l.sent), 0, l.watermark)
    && (forall p :: from <= p < |l.sent| ==> !Covered(l.sent[p], mark))
  }

  lemma AskedKeepsPlace(request: SubscribeRequest, canon: Canon, u: SubscribeUpdate)
    requires Asked(request, canon, u).Some?
    ensures var v := Asked(request, canon, u).value;
            v.sequence == u.sequence && v.mempoolRevision == u.mempoolRevision && BlockHeight(v) == BlockHeight(u)
  {
    ProjectionKeepsPlace(u);
    hide Wanted, Projection.Projected, WantingNames, LegacyWants;
  }

  lemma ProjectionKeepsPlace(u: SubscribeUpdate)
    ensures forall block, tx :: var v := Projection.Projected(u, block, tx);
              v.sequence == u.sequence && v.mempoolRevision == u.mempoolRevision && BlockHeight(v) == BlockHeight(u)
  {
  }

  lemma OneMoreInOrder(l: Loop, from: nat, mark: Option<nat>, m: SubscribeUpdate, watermark: nat)
    requires InOrderSoFar(l, from, mark) && l.watermark <= watermark && !Covered(m, mark)
    requires BlockHeight(m).Some? ==> l.watermark < m.sequence <= watermark
    ensures InSequence(BlockPart(l.sent + [m]), 0, watermark)
    ensures forall p :: from <= p < |l.sent| + 1 ==> !Covered((l.sent + [m])[p], mark)
  {
    hide BlockHeight, Covered;
    assert [m][..0] == [];
    BlockPartAppend(l.sent, [m]);
  }

  lemma WokenKeepsOrder(l: Loop, from: nat, mark: Option<nat>, context: Context, wake: Wake)
    requires InOrderSoFar(l, from, mark)
    ensures InOrderSoFar(Woken(l, context, wake), from, mark)
  {
    hide RequestAccepted, Asked, BlockPart;
    match wake {
      case Request(request) =>
        if request.ping.Some? {
          OneMoreInOrder(l, from, mark, PongMessage(request.ping.value), l.watermark);
        }
      case Live(u) =>
        if Asked(l.active, context.canon, u).Some? {
          AskedKeepsPlace(l.active, context.canon, u);
          if u.sequence > l.watermark && !Covered(u, mark) {
            OneMoreInOrder(l, from, mark, Asked(l.active, context.canon, u).value, u.sequence);
          }
        }
      case Tick(_) => OneMoreInOrder(l, from, mark, PingMessage(l.pingId), l.watermark);
      case _ =>
    }
  }

  lemma {:induction false} LoopedKeepsOrder(
    start: Loop, from: nat, mark: Option<nat>, context: Context, wakes: seq<Wake>)
    requires InOrderSoFar(start, from, mark)
    ensures InOrderSoFar(Looped(start, context, wakes), from, mark)
  {
    hide InOrderSoFar, Woken;
    if wakes == [] {
    } else {
      var rest := wakes[..|wakes| - 1];
      LoopedKeepsOrder(start, from, mark, context, rest);
      WokenKeepsOrder(Looped(start, context, rest), from, mark, context, wakes[|wakes| - 1]);
    }
  }

  /** Filtering and control messages aside, the block-scoped part of what passes is what the filter makes of the
      block-scoped part. */
  lemma {:induction false} BlocksPass(ef: EventFilter, us: seq<SubscribeUpdate>)
    ensures BlockPart(Passes(ef, us)) == Filtered(ef, BlockPart(us))
  {
    if us == [] {
    } else {
      var rest, u := us[..|us| - 1], us[|us| - 1];
      BlocksPass(ef, rest);
      BlockPartAppend(Passes(ef, rest), LetThrough(ef, u));
      OneBlockPasses(ef, u);
      FilteredOneMore(ef, BlockPart(rest), u);
      hide LetThrough, BlockHeight, Matched, Delivered, Filtered;
    }
  }

  lemma FilteredOneMore(ef: EventFilter, us: seq<SubscribeUpdate>, u: SubscribeUpdate)
    ensures Filtered(ef, us + [u]) == Filtered(ef, us) + if Matched(ef, u).Some? then [Delivered(ef, u)] else []
    ensures us + [] == us
  {
    hide Matched, Delivered;
    assert (us + [u])[..|us|] == us;
  }

  lemma OneBlockPasses(ef: EventFilter, u: SubscribeUpdate)
    ensures BlockPart(LetThrough(ef, u))
            == if BlockHeight(u).Some? && Matched(ef, u).Some? then [Delivered(ef, u)] else []
  {
    if BlockHeight(u).Some? {
      NotControl(u);
    }
    if Matched(ef, u).Some? {
      DeliveredKeeps(ef, u);
    }
    hide BlockHeight, Matched, Delivered, IsControl;
    assert forall v: SubscribeUpdate :: [v][..0] == [];
  }

  lemma InitialInOrder(s: Server, sub: Subscriber, ef: EventFilter)
    requires Subscribed(s, sub)
    ensures InSequence(BlockPart(Passes(ef, sub.initial)), 0, Watermark(sub.window))
  {
    assert JoinInv(s, sub) && BlockPart(sub.initial) == sub.replay;
    hide LogInv, MempoolInv, StartInv, SubInv, Watermark, Passes, BlockPart, Filtered, JoinInv, InSequence;
    ReplayInOrder(s, sub);
    BlocksPass(ef, sub.initial);
    FilteredAscends(ef, sub.replay, 0, Watermark(sub.window));
    WithinLog(ef, sub.replay, Watermark(sub.window));
  }

  lemma ReplayInOrder(s: Server, sub: Subscriber)
    requires LogInv(s) && JoinInv(s, sub)
    ensures InSequence(sub.replay, 0, Watermark(sub.window))
  {
    AllRevised(s);
    WatermarkIsEnd(s.log, sub.window);
    hide LogInv, Watermark, Replayed;
    match ReplayHeight(sub.request) {
      case Ok(Some(from)) => ReplayedAscends(s.log, sub.window, from, 0, Watermark(sub.window));
      case _ =>
    }
  }

  lemma PrefixInSequence(us: seq<SubscribeUpdate>, n: nat, hi: nat)
    requires n <= |us| && InSequence(BlockPart(us), 0, hi)
    ensures InSequence(BlockPart(us[..n]), 0, hi)
  {
    assert us == us[..n] + us[n..];
    BlockPartAppend(us[..n], us[n..]);
    hide BlockPart;
    var whole := BlockPart(us[..n]) + BlockPart(us[n..]);
    assert forall i :: 0 <= i < |BlockPart(us[..n])| ==> BlockPart(us[..n])[i] == whole[i];
  }

  /** Whatever wakes the task of a subscriber up, in any order, and also when its filter is replaced: the block-scoped
      part of all it sends, replay included, is in strictly increasing sequence order, so that nothing comes twice; and
      nothing that it sends after the initial messages is covered by its mempool snapshot. */
  lemma TaskInSequence(
    cfg: Config, request: SubscribeRequest, states: seq<State>, steps: seq<Step>, i: nat, ef: EventFilter,
    context: Context, wakes: seq<Wake>) returns (hi: nat)
    requires IsRun(cfg, request, states, steps) && i <= |steps| && HasFollowed(states[i].sub)
    requires Represents(ef, states[i].sub.request, context.canon)
    ensures var s, sub := states[i].server, states[i].sub;
            && (sub.request.includeMempoolSnapshot ==> sub.mempoolMark.Some? && sub.mempoolAt <= |s.log|)
            && var sent := Task(sub.request, InitialOf(s.log, sub), context, wakes).0;
               && InSequence(BlockPart(sent), 0, hi)
               && (forall p :: |Passes(ef, sub.initial)| <= p < |sent| ==> !Covered(sent[p], sub.mempoolMark))
  {
    ReachedSubscribed(cfg, request, states, steps, i);
    hide IsRun, Represents, Subscribed;
    hi := SequenceState(states[i].server, states[i].sub, ef, context, wakes);
  }

  lemma SequenceState(s: Server, sub: Subscriber, ef: EventFilter, context: Context, wakes: seq<Wake>)
    returns (hi: nat)
    requires Subscribed(s, sub) && Represents(ef, sub.request, context.canon)
    ensures sub.request.includeMempoolSnapshot ==> sub.mempoolMark.Some? && sub.mempoolAt <= |s.log|
    ensures var sent := Task(sub.request, InitialOf(s.log, sub), context, wakes).0;
            && InSequence(BlockPart(sent), 0, hi)
            && (forall p :: |Passes(ef, sub.initial)| <= p < |sent| ==> !Covered(sent[p], sub.mempoolMark))
  {
    hide *;
    var whole := Passes(ef, sub.initial);
    SubscribedLog(s, sub);
    TaskStart(s, sub, ef, context.canon);
    InitialInOrder(s, sub, ef);
    AtStart(s, sub);
    var start := LoopStart(sub.request, InitialOf(s.log, sub), whole);
    TaskRuns(sub.request, InitialOf(s.log, sub), context, wakes, whole);
    if |whole| > context.accepts {
      hi := Watermark(sub.window);
      PrefixInSequence(whole, context.accepts, hi);
    } else {
      hi := Looped(start, context, wakes).watermark;
      LoopInOrder(start, context, wakes);
    }
  }

  lemma AtStart(s: Server, sub: Subscriber)
    requires sub.openedAt <= |s.log|
    ensures At(s, sub, sub.openedAt).watermark == Watermark(sub.window)
  {
    hide Watermark, Passed;
  }

  lemma LoopInOrder(start: Loop, context: Context, wakes: seq<Wake>)
    requires InSequence(BlockPart(start.sent), 0, start.watermark)
    ensures var l := Looped(start, context, wakes);
            && InSequence(BlockPart(l.sent), 0, l.watermark)
            && forall p :: |start.sent| <= p < |l.sent| ==> !Covered(l.sent[p], start.mempoolMark)
  {
    LoopedKeepsOrder(start, |start.sent|, start.mempoolMark, context, wakes);
    hide Looped, BlockPart, Covered, InSequence;
  }
}
