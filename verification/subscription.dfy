// A subscription's task: the initial updates and then the loop over requests, live updates and pings.
module Subscriptions {
  import opened Proto
  import opened Filter
  import opened EventFilters
  import opened Handshake
  import opened Protocol
  import Projection
  import opened SharedStates
  import Guarantees
  import MempoolView
  import Window

  /** What the task wakes up for: a request, which replaces the filter or asks for a pong; the end or the failure of the
      requests; an update from the ring, or that the ring has overtaken it or is closed; the ping timer, which says
      whether the response queue has room for a message at once. */
  datatype Wake =
    | Request(request: SubscribeRequest)
    | RequestsEnd
    | RequestsFail
    | Live(update: SubscribeUpdate)
    | LiveLagged
    | LiveClosed
    | Tick(room: bool)

  /** Why the task ended. */
  datatype Reason = ResponseClosed | InvalidFilter | RequestError | BroadcastLag | ServerClosed

  /** The loop's state: the request whose filter is active, the two watermarks, the next ping's id, whether requests are
      still read, and every message sent. */
  datatype Loop = Loop(
    active: SubscribeRequest, watermark: nat, mempoolMark: Option<nat>, pingId: int, inboundOpen: bool,
    sent: seq<SubscribeUpdate>, ended: Option<Reason>)

  /** The response takes this many messages and is then closed; the limits and canonical forms of filters. */
  datatype Context = Context(accepts: nat, limits: FilterLimits, canon: Canon)

  const I32_MIN := -0x8000_0000

  function PingMessage(id: int): (r: SubscribeUpdate) {
    UNSPECIFIED.(update := Some(Ping(id)))
  }

  function PongMessage(id: int): (r: SubscribeUpdate) {
    UNSPECIFIED.(update := Some(Pong(id)))
  }

  function NextPing(id: int): (r: int) {
    if id == I32_MIN then -1 else id - 1
  }

  // ---------- what the loop does, as a function ----------

  /** Sends one message, or ends because the response is closed. */
  function SentOn(l: Loop, context: Context, m: SubscribeUpdate): (r: Loop) {
    if |l.sent| < context.accepts then l.(sent := l.sent + [m]) else l.(ended := Some(ResponseClosed))
  }

  ghost function Forwarded(l: Loop, context: Context, u: SubscribeUpdate): Loop {
    if u.sequence <= l.watermark then
      l
    else
      var passed := l.(watermark := u.sequence);
      if Covered(u, l.mempoolMark) || Asked(l.active, context.canon, u).None? then
        passed
      else
        SentOn(passed, context, Asked(l.active, context.canon, u).value)
  }

  ghost function Woken(l: Loop, context: Context, wake: Wake): Loop {
    match wake
    case Request(request) =>
      if !l.inboundOpen then l
      else if request.ping.Some? then SentOn(l, context, PongMessage(request.ping.value))
      else if RequestAccepted(request, context.limits, context.canon) then l.(active := request)
      else l.(ended := Some(InvalidFilter))
    case RequestsEnd => l.(inboundOpen := false)
    case RequestsFail => if l.inboundOpen then l.(ended := Some(RequestError)) else l
    case Live(update) => Forwarded(l, context, update)
    case LiveLagged => l.(ended := Some(BroadcastLag))
    case LiveClosed => l.(ended := Some(ServerClosed))
    case Tick(room) =>
      if |l.sent| >= context.accepts then l.(ended := Some(ResponseClosed))
      else if room then l.(sent := l.sent + [PingMessage(l.pingId)], pingId := NextPing(l.pingId))
      else l
  }

  /** The loop over these wake-ups; nothing more happens once it has ended. */
  ghost function Looped(l: Loop, context: Context, wakes: seq<Wake>): Loop {
    if wakes == [] then
      l
    else
      var before := Looped(l, context, wakes[..|wakes| - 1]);
      if before.ended.Some? then before else Woken(before, context, wakes[|wakes| - 1])
  }

  /** What a request asks to be sent of a list of updates. */
  ghost function AskedAll(request: SubscribeRequest, canon: Canon, us: seq<SubscribeUpdate>): seq<SubscribeUpdate> {
    if us == [] then
      []
    else
      var last := Asked(request, canon, us[|us| - 1]);
      AskedAll(request, canon, us[..|us| - 1]) + if last.Some? then [last.value] else []
  }

  /** All initial messages: notice and markers as they are, the rest as the request asks. */
  ghost function InitialMessages(
    request: SubscribeRequest, canon: Canon, initial: InitialSubscription): seq<SubscribeUpdate>
  {
    (if initial.reconnect.Some? then [initial.reconnect.value] else [])
    + (if initial.mempool.Some?
       then [Marker(SnapshotPhase.Begin, initial.mempool.value)]
         + AskedAll(request, canon, initial.mempool.value.updates)
            + [Marker(SnapshotPhase.End, initial.mempool.value)] else [])
    + AskedAll(request, canon, initial.replay.updates)
  }

  /** The state in which the loop starts. */
  function LoopStart(request: SubscribeRequest, initial: InitialSubscription, sent: seq<SubscribeUpdate>): (r: Loop) {
    Loop(request, initial.replay.watermark,
         if initial.mempool.Some? then Some(initial.mempool.value.revision) else None, -1, true, sent, None)
  }

  function UpTo<T>(s: seq<T>, n: nat): (r: seq<T>) {
    if |s| <= n then s else s[..n]
  }

  // ---------- the task ----------

  method SendAll(
    ef: EventFilter, updates: seq<SubscribeUpdate>, accepts: nat, sent0: seq<SubscribeUpdate>,
    ghost request: SubscribeRequest, ghost canon: Canon)
    returns (sent: seq<SubscribeUpdate>, open: bool)
    requires Represents(ef, request, canon) && |sent0| <= accepts
    ensures var whole := sent0 + AskedAll(request, canon, updates);
            sent == UpTo(whole, accepts) && (open <==> |whole| <= accepts)
  {
    hide Represents, Asked, AskedAll, Matched, Delivered;
    sent, open := sent0, true;
    NothingAsked(request, canon);
    for i := 0 to |updates|
      invariant |sent| <= accepts && sent == sent0 + AskedAll(request, canon, updates[..i])
    {
      SentIsAsked(ef, request, canon, updates[i]);
      OneMoreAsked(request, canon, updates, i);
      if Matched(ef, updates[i]).Some? {
        if |sent| >= accepts {
          AskedPrefix(request, canon, updates, i + 1);
          return sent, false;
        }
        sent := sent + [Delivered(ef, updates[i])];
      }
    }
    assert updates[..|updates|] == updates;
  }

  lemma NothingAsked(request: SubscribeRequest, canon: Canon)
    ensures AskedAll(request, canon, []) == []
  {
  }

  lemma OneMoreAsked(request: SubscribeRequest, canon: Canon, us: seq<SubscribeUpdate>, n: nat)
    requires n < |us|
    ensures var asked := Asked(request, canon, us[n]);
            AskedAll(request, canon, us[..n + 1]) == AskedAll(request, canon, us[..n]) + if asked.Some?
              then [asked.value] else []
  {
    hide Asked;
    assert us[..n + 1][..n] == us[..n];
  }

  /** What is asked of a prefix is a prefix of what is asked. */
  lemma {:induction false} AskedPrefix(request: SubscribeRequest, canon: Canon, us: seq<SubscribeUpdate>, n: nat)
    requires n <= |us|
    ensures AskedAll(request, canon, us[..n]) <= AskedAll(request, canon, us)
  {
    if n == |us| {
      assert us[..n] == us;
    } else {
      AskedPrefix(request, canon, us[..|us| - 1], n);
      assert us[..|us| - 1][..n] == us[..n];
    }
  }

  /** The initial messages, until the response closes. */
  method SendInitialUpdates(
    ef: EventFilter, initial: InitialSubscription, accepts: nat, ghost request: SubscribeRequest, ghost canon: Canon)
    returns (sent: seq<SubscribeUpdate>, marks: Option<(nat, Option<nat>)>)
    requires Represents(ef, request, canon)
    ensures var whole := InitialMessages(request, canon, initial);
            && sent == UpTo(whole, accepts)
            && marks == if |whole| <= accepts
                        then Some((initial.replay.watermark,
                                   if initial.mempool.Some? then Some(initial.mempool.value.revision) else None))
                                     else None
  {
    hide Represents, AskedAll, InitialMessages;
    ghost var whole := InitialMessages(request, canon, initial);
    ghost var replayed := AskedAll(request, canon, initial.replay.updates);
    ghost var head := InitialHead(request, canon, initial);
    InitialShape(request, canon, initial);
    var open;
    sent, open := SendHead(ef, initial, accepts, request, canon);
    if !open {
      ClosedEarly(head, replayed, accepts);
      return sent, None;
    }
    sent, open := SendAll(ef, initial.replay.updates, accepts, sent, request, canon);
    if !open {
      return sent, None;
    }
    marks := Some((initial.replay.watermark,
                   if initial.mempool.Some? then Some(initial.mempool.value.revision) else None));
  }

  /** The notice and the bracketed mempool snapshot. */
  ghost function InitialHead(
    request: SubscribeRequest, canon: Canon, initial: InitialSubscription): seq<SubscribeUpdate>
  {
    (if initial.reconnect.Some? then [initial.reconnect.value] else [])
    + (if initial.mempool.Some? then Bracketed(request, canon, initial.mempool.value) else [])
  }

  ghost function Bracketed(
    request: SubscribeRequest, canon: Canon, snapshot: MempoolView.Snapshot): seq<SubscribeUpdate>

  {
    [Marker(SnapshotPhase.Begin, snapshot)] + AskedAll(request, canon, snapshot.updates)
      + [Marker(SnapshotPhase.End, snapshot)]
  }

  lemma InitialShape(request: SubscribeRequest, canon: Canon, initial: InitialSubscription)
    ensures InitialMessages(request, canon, initial)
            == InitialHead(request, canon, initial) + AskedAll(request, canon, initial.replay.updates)
  {
    hide AskedAll, Marker;
  }

  /** What a closed response took is the same however much more would have come. */
  lemma ClosedEarly(part: seq<SubscribeUpdate>, rest: seq<SubscribeUpdate>, accepts: nat)
    requires |part| > accepts
    ensures UpTo(part + rest, accepts) == UpTo(part, accepts) && |part + rest| > accepts
  {
  }

  method SendHead(
    ef: EventFilter, initial: InitialSubscription, accepts: nat, ghost request: SubscribeRequest, ghost canon: Canon)
    returns (sent: seq<SubscribeUpdate>, open: bool)
    requires Represents(ef, request, canon)
    ensures var head := InitialHead(request, canon, initial);
            sent == UpTo(head, accepts) && (open <==> |head| <= accepts)
  {
    hide Represents, AskedAll, Marker, Bracketed;
    sent, open := [], true;
    if initial.reconnect.Some? {
      sent, open := SendOne(initial.reconnect.value, accepts, sent);
    }
    if initial.mempool.Some? {
      ghost var notice := if initial.reconnect.Some? then [initial.reconnect.value] else [];
      if !open {
        ClosedEarly(notice, Bracketed(request, canon, initial.mempool.value), accepts);
        return;
      }
      assert sent == notice;
      sent, open := SendBracketed(ef, initial.mempool.value, accepts, sent, request, canon);
    }
  }

  method SendBracketed(
    ef: EventFilter, snapshot: MempoolView.Snapshot, accepts: nat, sent0: seq<SubscribeUpdate>,
    ghost request: SubscribeRequest, ghost canon: Canon)
    returns (sent: seq<SubscribeUpdate>, open: bool)
    requires Represents(ef, request, canon) && |sent0| <= accepts
    ensures var whole := sent0 + Bracketed(request, canon, snapshot);
            sent == UpTo(whole, accepts) && (open <==> |whole| <= accepts)
  {
    hide Represents, AskedAll, Marker;
    var first, last := Marker(SnapshotPhase.Begin, snapshot), Marker(SnapshotPhase.End, snapshot);
    ghost var asked := AskedAll(request, canon, snapshot.updates);
    assert sent0 + Bracketed(request, canon, snapshot) == sent0 + [first] + (asked + [last])
      == sent0 + [first] + asked + [last];
    sent, open := SendOne(first, accepts, sent0);
    if !open {
      ClosedEarly(sent0 + [first], asked + [last], accepts);
      return;
    }
    sent, open := SendAll(ef, snapshot.updates, accepts, sent, request, canon);
    if !open {
      ClosedEarly(sent0 + [first] + asked, [last], accepts);
      return;
    }
    sent, open := SendOne(last, accepts, sent);
  }

  method SendOne(
    m: SubscribeUpdate, accepts: nat, sent0: seq<SubscribeUpdate>) returns (sent: seq<SubscribeUpdate>, open: bool)
    requires |sent0| <= accepts
    ensures sent == UpTo(sent0 + [m], accepts) && (open <==> |sent0| < accepts)
  {
    open := |sent0| < accepts;
    sent := if open then sent0 + [m] else sent0;
  }

  /** What the whole task sends, and why it ended if it did. */
  ghost function Task(
    request: SubscribeRequest, initial: InitialSubscription, context: Context, wakes: seq<Wake>)
    : (seq<SubscribeUpdate>, Option<Reason>)
  {
    var whole := InitialMessages(request, context.canon, initial);
    if |whole| > context.accepts then
      (whole[..context.accepts], Some(ResponseClosed))
    else
      var l := Looped(LoopStart(request, initial, whole), context, wakes);
      (l.sent, l.ended)
  }

  /** The whole task: the initial messages, and then the loop until something ends it or nothing wakes it up. */
  method RunSubscription(
    ef: EventFilter, request: SubscribeRequest, initial: InitialSubscription, context: Context, wakes: seq<Wake>)
    returns (sent: seq<SubscribeUpdate>, ended: Option<Reason>)
    requires Represents(ef, request, context.canon)
    ensures (sent, ended) == Task(request, initial, context, wakes)
  {
    hide Represents, RequestAccepted, InitialMessages, Matched, Delivered, Asked, Covered;
    var marks;
    sent, marks := SendInitialUpdates(ef, initial, context.accepts, request, context.canon);
    if marks.None? {
      return sent, Some(ResponseClosed);
    }
    ghost var start := LoopStart(request, initial, sent);
    var watermark, mempoolMark := marks.value.0, marks.value.1;
    var filter, pingId, inboundOpen := ef, -1, true;
    ghost var active := request;
    ended := None;
    assert wakes[..0] == [] && Looped(start, context, []) == start;
    hide Looped;
    for i := 0 to |wakes|
      invariant Represents(filter, active, context.canon) && ended.None?
      invariant Looped(start, context, wakes[..i])
                == Loop(active, watermark, mempoolMark, pingId, inboundOpen, sent, None)
    {
      ghost var before := Loop(active, watermark, mempoolMark, pingId, inboundOpen, sent, None);
      OneMoreWake(start, context, wakes, i);
      match wakes[i] {
        case Request(r) =>
          if inboundOpen {
            if r.ping.Some? {
              if |sent| >= context.accepts {
                ended := Some(ResponseClosed);
              } else {
                sent := sent + [PongMessage(r.ping.value)];
              }
            } else {
              var compiled := New(r, context.limits, context.canon);
              if compiled.Err? {
                ended := Some(InvalidFilter);
              } else {
                filter, active := compiled.value, r;
              }
            }
          }
        case RequestsEnd => inboundOpen := false;
        case RequestsFail =>
          if inboundOpen {
            ended := Some(RequestError);
          }
        case Live(u) =>
          SentIsAsked(filter, active, context.canon, u);
          if u.sequence > watermark {
            watermark := u.sequence;
            if !Covered(u, mempoolMark) && Matched(filter, u).Some? {
              if |sent| >= context.accepts {
                ended := Some(ResponseClosed);
              } else {
                sent := sent + [Delivered(filter, u)];
              }
            }
          }
        case LiveLagged => ended := Some(BroadcastLag);
        case LiveClosed => ended := Some(ServerClosed);
        case Tick(room) =>
          if |sent| >= context.accepts {
            ended := Some(ResponseClosed);
          } else if room {
            sent := sent + [PingMessage(pingId)];
            pingId := NextPing(pingId);
          }
      }
      if ended.Some? {
        EndedStays(start, context, wakes, i + 1);
        return;
      }
    }
    assert wakes[..|wakes|] == wakes;
  }

  lemma OneMoreWake(l: Loop, context: Context, wakes: seq<Wake>, i: nat)
    requires i < |wakes|
    ensures var before := Looped(l, context, wakes[..i]);
            Looped(l, context, wakes[..i + 1]) == if before.ended.Some? then before
              else Woken(before, context, wakes[i])
  {
    hide Woken;
    assert wakes[..i + 1][..i] == wakes[..i];
  }

  /** Once it has ended, nothing more happens. */
  lemma {:induction false} EndedStays(l: Loop, context: Context, wakes: seq<Wake>, i: nat)
    requires i <= |wakes| && Looped(l, context, wakes[..i]).ended.Some?
    ensures Looped(l, context, wakes) == Looped(l, context, wakes[..i])
  {
    hide Woken;
    if i == |wakes| {
      assert wakes[..i] == wakes;
    } else {
      var rest := wakes[..|wakes| - 1];
      assert rest[..i] == wakes[..i];
      EndedStays(l, context, rest, i);
    }
  }

  // ---------- what every run of the loop keeps ----------

  /** The messages that carry a sequence number; pings and pongs carry none. */
  function WithNumbers(us: seq<SubscribeUpdate>): (r: seq<SubscribeUpdate>) {
    if us == [] then
      []
    else
      WithNumbers(us[..|us| - 1]) + if us[|us| - 1].sequence > 0 then [us[|us| - 1]] else []
  }

  lemma WithNumbersOneMore(us: seq<SubscribeUpdate>, u: SubscribeUpdate)
    ensures WithNumbers(us + [u]) == WithNumbers(us) + if u.sequence > 0 then [u] else []
  {
    assert (us + [u])[..|us|] == us;
  }

  lemma AskedKeeps(request: SubscribeRequest, canon: Canon, u: SubscribeUpdate)
    requires Asked(request, canon, u).Some?
    ensures Asked(request, canon, u).value.sequence == u.sequence
  {
    ProjectedKeeps(u);
    hide Wanted, Projection.Projected, WantingNames, LegacyWants;
  }

  lemma ProjectedKeeps(u: SubscribeUpdate)
    ensures forall block, tx :: Projection.Projected(u, block, tx).sequence == u.sequence
  {
  }

  /** However the loop is woken up, also when the filter is replaced while it runs: what it forwards from the ring is in
      strictly increasing sequence order, above the watermark that it started with and not above the one it has. */
  lemma {:induction false} ForwardedInOrder(start: Loop, context: Context, wakes: seq<Wake>)
    requires start.ended.None?
    ensures var l := Looped(start, context, wakes);
            && start.watermark <= l.watermark && start.sent <= l.sent
            && Guarantees.InSequence(WithNumbers(l.sent[|start.sent|..]), start.watermark, l.watermark)
  {
    hide RequestAccepted, Asked, Covered, WithNumbers, Guarantees.InSequence;
    if wakes == [] {
      NothingInSequence(start.watermark);
      assert start.sent[|start.sent|..] == [];
    } else {
      var rest, wake := wakes[..|wakes| - 1], wakes[|wakes| - 1];
      var before := Looped(start, context, rest);
      ForwardedInOrder(start, context, rest);
      if before.ended.None? {
        WokenInOrder(start.watermark, |start.sent|, before, context, wake);
      }
      hide Woken;
    }
  }

  lemma NothingInSequence(lo: nat)
    ensures WithNumbers([]) == [] && Guarantees.InSequence([], lo, lo)
  {
  }

  lemma OneMoreSent(sent: seq<SubscribeUpdate>, from: nat, m: SubscribeUpdate)
    requires from <= |sent|
    ensures WithNumbers((sent + [m])[from..]) == WithNumbers(sent[from..]) + if m.sequence > 0 then [m] else []
  {
    assert (sent + [m])[from..] == sent[from..] + [m];
    WithNumbersOneMore(sent[from..], m);
  }

  lemma WokenInOrder(lo: nat, from: nat, l: Loop, context: Context, wake: Wake)
    requires lo <= l.watermark && from <= |l.sent|
    requires Guarantees.InSequence(WithNumbers(l.sent[from..]), lo, l.watermark)
    ensures var r := Woken(l, context, wake);
            && lo <= r.watermark && l.sent <= r.sent
            && Guarantees.InSequence(WithNumbers(r.sent[from..]), lo, r.watermark)
  {
    hide RequestAccepted, Asked, Covered, WithNumbers;
    match wake {
      case Request(request) =>
        if request.ping.Some? {
          OneMoreSent(l.sent, from, PongMessage(request.ping.value));
        }
      case Live(u) =>
        if Asked(l.active, context.canon, u).Some? {
          AskedKeeps(l.active, context.canon, u);
          OneMoreSent(l.sent, from, Asked(l.active, context.canon, u).value);
        }
      case Tick(_) => OneMoreSent(l.sent, from, PingMessage(l.pingId));
      case _ =>
    }
    assert forall us: seq<SubscribeUpdate> :: us + [] == us;
  }

  /** The ids of the server's own pings are negative, so the client's replies to them are recognised as keepalive and
      hidden from the application. */
  lemma {:induction false} PingIdsNegative(start: Loop, context: Context, wakes: seq<Wake>)
    requires I32_MIN <= start.pingId < 0
    ensures I32_MIN <= Looped(start, context, wakes).pingId < 0
  {
    hide RequestAccepted, Asked, Covered;
    if wakes == [] {
    } else {
      PingIdsNegative(start, context, wakes[..|wakes| - 1]);
    }
  }

  lemma KeepaliveHidden(start: Loop, context: Context, wakes: seq<Wake>)
    requires start.pingId == -1
    ensures IsKeepalive(PongMessage(Looped(start, context, wakes).pingId))
  {
    PingIdsNegative(start, context, wakes);
    hide Looped;
  }

  // ---------- why the task ends ----------

  /** No wake-up before the n-th was the end of the requests. */
  ghost predicate StillRead(wakes: seq<Wake>, n: nat)
    requires n <= |wakes|
  {
    forall m :: 0 <= m < n ==> wakes[m] != RequestsEnd
  }

  /** Wake-up n, whatever was sent before, ends the task for this reason. */
  ghost predicate EndsBy(wakes: seq<Wake>, n: nat, context: Context, reason: Reason)
    requires n < |wakes|
  {
    match reason
    case BroadcastLag => wakes[n] == LiveLagged
    case ServerClosed => wakes[n] == LiveClosed
    case RequestError => wakes[n] == RequestsFail && StillRead(wakes, n)
    case InvalidFilter =>
      && wakes[n].Request? && wakes[n].request.ping.None? && StillRead(wakes, n)
      && !RequestAccepted(wakes[n].request, context.limits, context.canon)
    case ResponseClosed => false
  }

  ghost predicate NoneEnds(wakes: seq<Wake>, n: nat, context: Context)
    requires n <= |wakes|
  {
    forall m, reason :: 0 <= m < n ==> !EndsBy(wakes, m, context, reason)
  }

  lemma EndsByPrefix(wakes: seq<Wake>, n: nat, m: nat, context: Context)
    requires m < n <= |wakes|
    ensures forall reason :: EndsBy(wakes[..n], m, context, reason) <==> EndsBy(wakes, m, context, reason)
  {
    hide RequestAccepted;
    assert StillRead(wakes[..n], m) <==> StillRead(wakes, m);
  }

  lemma NoneEndsPrefix(wakes: seq<Wake>, n: nat, m: nat, context: Context)
    requires m <= n <= |wakes|
    ensures NoneEnds(wakes[..n], m, context) <==> NoneEnds(wakes, m, context)
    ensures StillRead(wakes[..n], m) <==> StillRead(wakes, m)
  {
    forall k, reason | 0 <= k < m
      ensures EndsBy(wakes[..n], k, context, reason) <==> EndsBy(wakes, k, context, reason)
    {
      EndsByPrefix(wakes, n, k, context);
    }
    hide EndsBy;
  }

  /** How the loop stands after these wake-ups. */
  ghost predicate Stands(l: Loop, context: Context, wakes: seq<Wake>) {
    && |l.sent| <= context.accepts
    && (l.ended.None? ==> NoneEnds(wakes, |wakes|, context) && (l.inboundOpen <==> StillRead(wakes, |wakes|)))
    && (l.ended == Some(ResponseClosed) ==> |l.sent| == context.accepts)
    && (l.ended.Some? && l.ended != Some(ResponseClosed) ==>
          exists n :: 0 <= n < |wakes| && EndsBy(wakes, n, context, l.ended.value) && NoneEnds(wakes, n, context))
  }

  /** The task goes on until the first wake-up that ends it, and for that one's reason, unless the response had no more
      room before; and once the requests have ended, none is read. */
  lemma {:induction false} EndsExactly(start: Loop, context: Context, wakes: seq<Wake>)
    requires start.ended.None? && start.inboundOpen && |start.sent| <= context.accepts
    ensures Stands(Looped(start, context, wakes), context, wakes)
  {
    if wakes == [] {
    } else {
      var rest, wake := wakes[..|wakes| - 1], wakes[|wakes| - 1];
      EndsExactly(start, context, rest);
      hide Woken;
      var before := Looped(start, context, rest);
      hide Looped;
      if before.ended.None? {
        hide Stands;
        WokenStands(before, context, wakes);
      } else {
        StillEnded(before, context, wakes);
      }
    }
  }

  lemma StillEnded(l: Loop, context: Context, wakes: seq<Wake>)
    requires wakes != [] && Stands(l, context, wakes[..|wakes| - 1]) && l.ended.Some?
    ensures Stands(l, context, wakes)
  {
    var n := |wakes| - 1;
    hide EndsBy, NoneEnds;
    if l.ended != Some(ResponseClosed) {
      var m :| 0 <= m < n && EndsBy(wakes[..n], m, context, l.ended.value) && NoneEnds(wakes[..n], m, context);
      EndsByPrefix(wakes, n, m, context);
      NoneEndsPrefix(wakes, n, m, context);
    }
  }

  lemma WokenStands(l: Loop, context: Context, wakes: seq<Wake>)
    requires wakes != [] && Stands(l, context, wakes[..|wakes| - 1]) && l.ended.None?
    ensures Stands(Woken(l, context, wakes[|wakes| - 1]), context, wakes)
  {
    var n := |wakes| - 1;
    NoneEndsPrefix(wakes, n, n, context);
    hide RequestAccepted, Asked, Covered;
    var r := Woken(l, context, wakes[n]);
    assert r.ended.Some? && r.ended != Some(ResponseClosed) ==> EndsBy(wakes, n, context, r.ended.value);
    assert r.ended.None? ==> forall reason :: !EndsBy(wakes, n, context, reason);
  }

  // ---------- the server's pings ----------

  function PingIds(us: seq<SubscribeUpdate>): (r: seq<int>) {
    if us == [] then
      []
    else
      var last := us[|us| - 1];
      PingIds(us[..|us| - 1])
      + if last.update.Some? && last.update.value.Ping? then [last.update.value.id] else []
  }

  /** The pings that had room. */
  function Ticks(wakes: seq<Wake>): (r: nat) {
    if wakes == [] then 0 else Ticks(wakes[..|wakes| - 1]) + if wakes[|wakes| - 1] == Tick(true) then 1 else 0
  }

  /** The n-th ping's id: counted down from -1 through all the negative i32 numbers, and then again. */
  function PingId(n: nat): (r: int) {
    -1 - n % 0x8000_0000
  }

  ghost predicate CountsDown(ids: seq<int>) {
    forall n :: 0 <= n < |ids| ==> ids[n] == PingId(n)
  }

  /** The ring carries no pings. */
  ghost predicate NoLivePings(wakes: seq<Wake>) {
    forall wake :: wake in wakes && wake.Live? ==> PingIds([wake.update]) == []
  }

  lemma {:induction false} PingIdsAppend(a: seq<SubscribeUpdate>, b: seq<SubscribeUpdate>)
    ensures PingIds(a + b) == PingIds(a) + PingIds(b)
  {
    if b == [] {
      assert a + b == a;
    } else {
      PingIdsAppend(a, b[..|b| - 1]);
      assert (a + b)[..|a + b| - 1] == a + b[..|b| - 1];
    }
  }

  lemma AskedNoPing(request: SubscribeRequest, canon: Canon, u: SubscribeUpdate)
    requires Asked(request, canon, u).Some? && PingIds([u]) == []
    ensures PingIds([Asked(request, canon, u).value]) == []
  {
    assert [u][..0] == [] && forall v: SubscribeUpdate :: [v][..0] == [];
    ProjectedNoPing(u);
    hide Wanted, Projection.Projected, WantingNames, LegacyWants;
  }

  lemma ProjectedNoPing(u: SubscribeUpdate)
    ensures forall block, tx :: var v := Projection.Projected(u, block, tx);
              v.update.Some? && v.update.value.Ping? ==> u.update.Some? && u.update.value.Ping?
  {
  }

  lemma OnePing(id: int)
    ensures PingIds([PingMessage(id)]) == [id] && PingIds([PongMessage(id)]) == []
  {
    assert forall v: SubscribeUpdate :: [v][..0] == [];
    assert PingIds([]) == [];
  }

  /** The ids of the pings among what is sent from position `from` on count down; the next one's is due; there was one
      for each of these ticks, as long as the task runs. */
  ghost predicate PingsSoFar(l: Loop, from: nat, ticks: nat) {
    && from <= |l.sent|
    && var ids := PingIds(l.sent[from..]);
       && CountsDown(ids) && l.pingId == PingId(|ids|)
       && |ids| <= ticks && (l.ended.None? ==> |ids| == ticks)
  }

  lemma SentPings(sent: seq<SubscribeUpdate>, from: nat, m: SubscribeUpdate)
    requires from <= |sent|
    ensures PingIds((sent + [m])[from..]) == PingIds(sent[from..]) + PingIds([m])
  {
    assert (sent + [m])[from..] == sent[from..] + [m];
    PingIdsAppend(sent[from..], [m]);
  }

  lemma WokenPings(l: Loop, from: nat, ticks: nat, context: Context, wake: Wake)
    requires PingsSoFar(l, from, ticks) && l.ended.None? && (wake.Live? ==> PingIds([wake.update]) == [])
    ensures PingsSoFar(Woken(l, context, wake), from, ticks + if wake == Tick(true) then 1 else 0)
  {
    hide RequestAccepted, Asked, Covered, PingIds;
    assert forall ids: seq<int> :: ids + [] == ids;
    match wake {
      case Request(request) =>
        if request.ping.Some? {
          OnePing(request.ping.value);
          SentPings(l.sent, from, PongMessage(request.ping.value));
        }
      case Live(u) =>
        if Asked(l.active, context.canon, u).Some? {
          AskedNoPing(l.active, context.canon, u);
          SentPings(l.sent, from, Asked(l.active, context.canon, u).value);
        }
      case Tick(_) =>
        OnePing(l.pingId);
        SentPings(l.sent, from, PingMessage(l.pingId));
      case _ =>
    }
  }

  /** Every tick that finds room sends one ping; their ids count down from -1 and never leave the negative i32. */
  lemma {:induction false} PingsCountDown(start: Loop, context: Context, wakes: seq<Wake>)
    requires start.ended.None? && start.pingId == -1 && NoLivePings(wakes)
    ensures PingsSoFar(Looped(start, context, wakes), |start.sent|, Ticks(wakes))
  {
    hide Woken, PingsSoFar;
    if wakes == [] {
      NoPingsYet(start);
    } else {
      var rest, wake := wakes[..|wakes| - 1], wakes[|wakes| - 1];
      assert wakes == rest + [wake] && wake in wakes;
      PingsCountDown(start, context, rest);
      hide NoLivePings;
      var before := Looped(start, context, rest);
      if before.ended.None? {
        WokenPings(before, |start.sent|, Ticks(rest), context, wake);
      } else {
        NoMorePings(before, |start.sent|, Ticks(rest), Ticks(wakes));
      }
    }
  }

  lemma NoPingsYet(l: Loop)
    requires l.pingId == -1
    ensures PingsSoFar(l, |l.sent|, 0)
  {
    assert l.sent[|l.sent|..] == [];
  }

  lemma NoMorePings(l: Loop, from: nat, ticks: nat, more: nat)
    requires PingsSoFar(l, from, ticks) && l.ended.Some? && ticks <= more
    ensures PingsSoFar(l, from, more)
  {
  }

  // ---------- the loop as the machine's receive steps ----------

  /** A subscriber after it received the ring up to position `hi`. */
  function ReceivedUpTo(s: Server, sub: Subscriber, hi: nat): (r: Subscriber)
    requires sub.cursor <= hi <= |s.ring|
    ensures r.cursor == hi
  {
    if hi == sub.cursor then sub else DoReceive(s, ReceivedUpTo(s, sub, hi - 1))
  }

  function Arrivals(us: seq<SubscribeUpdate>): (r: seq<Wake>)
    ensures |r| == |us| && forall i :: 0 <= i < |r| ==> r[i] == Live(us[i])
  {
    seq(|us|, i requires 0 <= i < |us| => Live(us[i]))
  }

  lemma {:induction false} AskedAppend(
    request: SubscribeRequest, canon: Canon, a: seq<SubscribeUpdate>, b: seq<SubscribeUpdate>)
    ensures AskedAll(request, canon, a + b) == AskedAll(request, canon, a) + AskedAll(request, canon, b)
  {
    hide Asked;
    if b == [] {
      assert a + b == a;
    } else {
      AskedAppend(request, canon, a, b[..|b| - 1]);
      assert (a + b)[..|a + b| - 1] == a + b[..|b| - 1];
    }
  }

  /** What one receive step lets pass. */
  function PassedOn(s: Server, sub: Subscriber): (r: seq<SubscribeUpdate>)
    requires sub.cursor < |s.ring|
  {
    var u := s.ring[sub.cursor];
    if u.sequence <= sub.watermark || Covered(u, sub.mempoolMark) then [] else [u]
  }

  lemma OneArrival(s: Server, sub: Subscriber, l: Loop, context: Context)
    requires sub.cursor < |s.ring| && sub.watermark == l.watermark && sub.mempoolMark == l.mempoolMark
    requires l.ended.None? && |l.sent| <= context.accepts
    ensures var r, asked := DoReceive(s, sub), AskedAll(l.active, context.canon, PassedOn(s, sub));
            && r.sent == sub.sent + PassedOn(s, sub) && r.mempoolMark == sub.mempoolMark
            && |asked| <= 1
            && var woken := Woken(l, context, Live(s.ring[sub.cursor]));
               if |l.sent + asked| <= context.accepts
               then woken == l.(watermark := r.watermark, sent := l.sent + asked)
               else woken == l.(watermark := r.watermark, ended := Some(ResponseClosed))
  {
    hide Asked, Covered, RequestAccepted;
    NothingAsked(l.active, context.canon);
    OneMoreAsked(l.active, context.canon, [s.ring[sub.cursor]], 0);
    assert [s.ring[sub.cursor]][..1] == [s.ring[sub.cursor]] && [s.ring[sub.cursor]][..0] == [];
    assert sub.sent + [] == sub.sent && l.sent + [] == l.sent;
    hide AskedAll;
  }

  lemma NothingReceived(s: Server, sub: Subscriber, l: Loop, context: Context)
    requires sub.cursor <= |s.ring|
    ensures ReceivedUpTo(s, sub, sub.cursor) == sub && Looped(l, context, Arrivals([])) == l
  {
    hide Woken, DoReceive;
    assert Arrivals([]) == [];
  }

  /** Woken only by the ring, the loop sends what the request asks of what the machine's receive steps let pass, with
      the same watermark, until the response closes. */
  lemma {:induction false} LoopIsReceive(
    s: Server, sub: Subscriber, hi: nat, l: Loop, context: Context) returns (passed: seq<SubscribeUpdate>)
    requires sub.cursor <= hi <= |s.ring| && sub.watermark == l.watermark && sub.mempoolMark == l.mempoolMark
    requires l.ended.None? && |l.sent| <= context.accepts
    ensures var r, after := ReceivedUpTo(s, sub, hi), Looped(l, context, Arrivals(s.ring[sub.cursor..hi]));
            var whole := l.sent + AskedAll(l.active, context.canon, passed);
            && r.sent == sub.sent + passed && r.mempoolMark == sub.mempoolMark
            && (if |whole| <= context.accepts then after == l.(watermark := r.watermark, sent := whole)
                else after.sent == whole[..context.accepts] && after.ended == Some(ResponseClosed))
  {
    hide *;
    if hi == sub.cursor {
      passed := [];
      NothingAsked(l.active, context.canon);
      NothingReceived(s, sub, l, context);
      assert s.ring[sub.cursor..hi] == [] && l.sent + [] == l.sent && sub.sent + [] == sub.sent;
    } else {
      var earlier := LoopIsReceive(s, sub, hi - 1, l, context);
      var before := ReceivedUpTo(s, sub, hi - 1);
      var soFar := l.sent + AskedAll(l.active, context.canon, earlier);
      OneFurther(s, sub, hi, l, context);
      OneReceived(s, before);
      passed := earlier + PassedOn(s, before);
      AskedAppend(l.active, context.canon, earlier, PassedOn(s, before));
      Window.Regrouped(sub.sent, earlier, PassedOn(s, before));
      Window.Regrouped(l.sent, AskedAll(l.active, context.canon, earlier),
        AskedAll(l.active, context.canon, PassedOn(s, before)));
      if |soFar| <= context.accepts {
        OneArrival(s, before, Looped(l, context, Arrivals(s.ring[sub.cursor..hi - 1])), context);
      }
    }
  }

  lemma OneReceived(s: Server, sub: Subscriber)
    requires sub.cursor < |s.ring|
    ensures DoReceive(s, sub).sent == sub.sent + PassedOn(s, sub)
    ensures DoReceive(s, sub).mempoolMark == sub.mempoolMark
  {
    hide Covered;
    assert sub.sent + [] == sub.sent;
  }

  lemma OneFurther(s: Server, sub: Subscriber, hi: nat, l: Loop, context: Context)
    requires sub.cursor < hi <= |s.ring|
    ensures ReceivedUpTo(s, sub, hi) == DoReceive(s, ReceivedUpTo(s, sub, hi - 1))
    ensures var before := Looped(l, context, Arrivals(s.ring[sub.cursor..hi - 1]));
            Looped(l, context, Arrivals(s.ring[sub.cursor..hi]))
            == if before.ended.None? then Woken(before, context, Live(s.ring[hi - 1])) else before
  {
    hide Woken, DoReceive;
    var stretch := s.ring[sub.cursor..hi];
    assert Arrivals(stretch)[..|stretch| - 1] == Arrivals(s.ring[sub.cursor..hi - 1]);
    assert Arrivals(stretch)[|stretch| - 1] == Live(s.ring[hi - 1]);
  }
}
