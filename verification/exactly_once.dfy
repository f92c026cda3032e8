// The end-to-end guarantee: what the application has been given, across reconnects.
module ExactlyOnce {
  import opened Proto
  import opened ChainResume
  import opened Handshake
  import opened Protocol
  import opened Splice
  import opened Events
  import opened EventFilters
  import opened Filter
  import opened FilteredStream
  import opened Guarantees
  import opened Recovery
  import Dedup
  import Window

  // ---------- the duplicate filter loses nothing ----------

  lemma {:induction false} TrimmedForgets(d: Dedup.State)
    ensures Dedup.Trimmed(d).seen <= d.seen
    decreases |d.heights|
  {
    if |d.heights| > d.retention {
      TrimmedForgets(Dedup.State(d.seen - Dedup.Keys(d.heights[0]), d.heights[1..], d.retention));
    }
  }

  lemma SeenGrowsByOne(d: Dedup.State, u: SubscribeUpdate)
    ensures Dedup.Observed(d, u).seen <= d.seen + {Dedup.EventKeyOf(u)}
    ensures BlockHeight(u).None? ==> Dedup.Observed(d, u) == d
  {
    hide BlockHeight, Dedup.Trimmed;
    if !(BlockHeight(u).None? || d.retention == 0 || Dedup.EventKeyOf(u) in d.seen) {
      TrimmedForgets(Dedup.State(d.seen
        + {Dedup.EventKeyOf(u)}, Dedup.Filed(d.heights, BlockHeight(u).value, Dedup.EventKeyOf(u)), d.retention));
    }
  }

  /** The output covers what was handled: its block-scoped updates are all there, and whatever the filter has
      seen is there too. */
  ghost predicate Covers(c: Client, us: seq<SubscribeUpdate>) {
    && c.dedup.Some?
    && (forall u :: u in us && BlockHeight(u).Some? ==> u in c.output)
    && (forall u :: u in c.output ==> u in us)
    && (forall k :: k in c.dedup.value.seen
         ==> exists v :: v in c.output && BlockHeight(v).Some? && Dedup.EventKeyOf(v) == k)
  }

  lemma SameKeySame(
    ef: EventFilter, log: seq<SubscribeUpdate>, us: seq<SubscribeUpdate>, u: SubscribeUpdate, v: SubscribeUpdate)
    requires Numbered(log) && FromLog(ef, log, us) && u in us && v in us
    requires BlockHeight(u).Some? && BlockHeight(v).Some? && Dedup.EventKeyOf(u) == Dedup.EventKeyOf(v)
    ensures u == v
  {
    hide BlockHeight, Matched, Delivered;
    assert DeliveredOf(ef, log, u) && DeliveredOf(ef, log, v);
    var a :| a in log && Owed(ef, a) && u == Delivered(ef, a);
    var b :| b in log && Owed(ef, b) && v == Delivered(ef, b);
    DeliveredKeeps(ef, a);
    DeliveredKeeps(ef, b);
    var i :| 0 <= i < |log| && log[i] == a;
    var j :| 0 <= j < |log| && log[j] == b;
  }

  lemma CoversOneMore(
    ef: EventFilter, log: seq<SubscribeUpdate>, c: Client, us: seq<SubscribeUpdate>, u: SubscribeUpdate)
    requires Numbered(log) && FromLog(ef, log, us + [u]) && Covers(c, us)
    ensures Covers(Handled(c, u), us + [u])
  {
    KeepaliveNotBlock(u);
    SeenGrowsByOne(c.dedup.value, u);
    var r := Handled(c, u);
    hide BlockHeight, Dedup.Observed, Observe, IsKeepalive, Numbered, FromLog;
    if BlockHeight(u).Some? && u !in r.output {
      var v :| v in c.output && BlockHeight(v).Some? && Dedup.EventKeyOf(v) == Dedup.EventKeyOf(u);
      SameKeySame(ef, log, us + [u], u, v);
      assert false;
    }
    if r.output == c.output + [u] {
      assert u in r.output;
    }
    forall k | k in r.dedup.value.seen
      ensures exists v :: v in r.output && BlockHeight(v).Some? && Dedup.EventKeyOf(v) == k {
      if k in c.dedup.value.seen {
        var v :| v in c.output && BlockHeight(v).Some? && Dedup.EventKeyOf(v) == k;
        assert v in r.output;
      } else {
        assert k == Dedup.EventKeyOf(u) && BlockHeight(u).Some? && u in r.output;
      }
    }
  }

  lemma KeepaliveNotBlock(u: SubscribeUpdate)
    ensures IsKeepalive(u) ==> BlockHeight(u).None?
  {
  }

  lemma {:induction false} OutputCovers(setup: Setup, log: seq<SubscribeUpdate>, us: seq<SubscribeUpdate>)
    requires Numbered(log) && FromLog(setup.filter, log, us)
    ensures Covers(HandledAll(NewClient(setup), us), us)
  {
    if us == [] {
    } else {
      var n := |us| - 1;
      assert us == us[..n] + [us[n]];
      hide Handled, Covers, Numbered, NewClient, DeliveredOf;
      OutputCovers(setup, log, us[..n]);
      CoversOneMore(setup.filter, log, HandledAll(NewClient(setup), us[..n]), us[..n], us[n]);
    }
  }

  // ---------- the duplicate filter lets nothing through twice ----------

  /** The client's filter is in the state that the run of its updates leads to. */
  lemma {:induction false} FilterFollowsRun(setup: Setup, us: seq<SubscribeUpdate>)
    ensures HandledAll(NewClient(setup), us).dedup == Some(Dedup.Run(setup.retention, us).state)
  {
    if us == [] {
    } else {
      var n := |us| - 1;
      FilterFollowsRun(setup, us[..n]);
      KeepaliveNotBlock(us[n]);
      SeenGrowsByOne(Dedup.Run(setup.retention, us[..n]).state, us[n]);
      hide BlockHeight, Dedup.Observed, Observe, IsKeepalive;
    }
  }

  /** Where an element of the output came from: the update that was accepted as it. */
  lemma {:induction false} OutputAt(setup: Setup, us: seq<SubscribeUpdate>, p: nat) returns (n: nat)
    requires p < |HandledAll(NewClient(setup), us).output|
    ensures n < |us| && us[n] == HandledAll(NewClient(setup), us).output[p]
    ensures |HandledAll(NewClient(setup), us[..n]).output| == p
    ensures Dedup.Accepts(Dedup.Run(setup.retention, us[..n]).state, us[n])
  {
    if us == [] {
      assert false;
    } else {
      var rest, u := us[..|us| - 1], us[|us| - 1];
      FilterFollowsRun(setup, rest);
      hide Dedup.Run, Dedup.Accepts, Dedup.Observed, Observe, NewClient, IsKeepalive;
      if p < |HandledAll(NewClient(setup), rest).output| {
        n := OutputAt(setup, rest, p);
        assert rest[..n] == us[..n];
      } else {
        n := |rest|;
      }
    }
  }

  lemma {:induction false} OutputGrows(setup: Setup, us: seq<SubscribeUpdate>, n: nat)
    requires n <= |us|
    ensures |HandledAll(NewClient(setup), us[..n]).output| <= |HandledAll(NewClient(setup), us).output|
  {
    if n == |us| {
      assert us[..n] == us;
    } else {
      var rest := us[..|us| - 1];
      OutputGrows(setup, rest, n);
      assert rest[..n] == us[..n];
      hide Dedup.Accepts, Dedup.Observed, Observe, NewClient, IsKeepalive;
    }
  }

  lemma OutputOrder(setup: Setup, us: seq<SubscribeUpdate>, m: nat, n: nat)
    requires m <= n <= |us|
    ensures |HandledAll(NewClient(setup), us[..m]).output| <= |HandledAll(NewClient(setup), us[..n]).output|
  {
    OutputGrows(setup, us[..n], m);
    assert us[..n][..m] == us[..m];
  }

  /** Since some update of the same height, at or before the first time, updates of more heights than the retention
      have come. */
  ghost predicate ManyHeightsBetween(us: seq<SubscribeUpdate>, u: SubscribeUpdate, retention: nat) {
    exists s, i, j :: 0 <= s <= i < j < |us| && us[i] == us[j] == u
                      && BlockHeight(us[s]) == BlockHeight(u) && |Dedup.BlockHeights(us[s..j])| > retention
  }

  lemma OutputTwice(setup: Setup, us: seq<SubscribeUpdate>, p: nat, q: nat)
    requires var output := HandledAll(NewClient(setup), us).output;
             p < q < |output| && output[p] == output[q] && BlockHeight(output[p]).Some?
    ensures ManyHeightsBetween(us, HandledAll(NewClient(setup), us).output[p], setup.retention)
  {
    hide HandledAll, Dedup.Run, Dedup.Accepts, BlockHeight, Dedup.BlockHeights;
    var i := OutputAt(setup, us, p);
    var j := OutputAt(setup, us, q);
    if j < i {
      OutputOrder(setup, us, j, i);
    }
    Dedup.ReacceptedAfterHeights(setup.retention, us, i, j);
  }

  /** No block-scoped update is in the output twice. */
  ghost predicate NothingTwice(output: seq<SubscribeUpdate>) {
    forall p, q :: 0 <= p < q < |output| && BlockHeight(output[p]).Some? ==> output[p] != output[q]
  }

  lemma OutputOnce(setup: Setup, us: seq<SubscribeUpdate>)
    requires |Dedup.BlockHeights(us)| <= setup.retention
    ensures NothingTwice(HandledAll(NewClient(setup), us).output)
  {
    var output := HandledAll(NewClient(setup), us).output;
    hide HandledAll, BlockHeight;
    forall p, q | 0 <= p < q < |output| && BlockHeight(output[p]).Some? ensures output[p] != output[q] {
      if output[p] == output[q] {
        OutputTwice(setup, us, p, q);
        var s, i, j :| 0 <= s <= i < j < |us| && us[i] == us[j] == output[p]
                       && BlockHeight(us[s]) == BlockHeight(output[p])
                          && |Dedup.BlockHeights(us[s..j])| > setup.retention;
        Window.SubsetSize(Dedup.BlockHeights(us[s..j]), Dedup.BlockHeights(us));
      }
    }
  }

  // ---------- across reconnects ----------

  /** What is still on its way on this connection: handed to it but not yet handled by the client. */
  function OnTheWay(sys: System): (r: seq<SubscribeUpdate>)
    requires sys.handled <= |sys.sub.sent|
  {
    sys.sub.sent[sys.handled..] + sys.sub.queue
  }

  /** The application has what the request asks to be sent for this update, if it asks for anything. */
  ghost predicate Given(setup: Setup, canon: Canon, output: seq<SubscribeUpdate>, u: SubscribeUpdate) {
    Asked(setup.request, canon, u).Some? ==> Asked(setup.request, canon, u).value in output
  }

  /** The request asks to be sent this for some update of the log. */
  ghost predicate Meant(setup: Setup, canon: Canon, log: seq<SubscribeUpdate>, v: SubscribeUpdate) {
    exists u :: u in log && Asked(setup.request, canon, u) == Some(v)
  }

  /** No gap, for every request, every interleaving and across reconnects, whether from anchors or by height. While the
      chain obeys the rules that those reconnects ask for: each block-scoped update published since the base that the
      request means is with the application, or on its way, or beyond what the connection has reached. So once the
      client has caught up, the application has them all. And it has no other. */
  lemma NothingMissing(setup: Setup, canon: Canon, states: seq<System>, moves: seq<Move>, i: nat)
    requires Represents(setup.filter, setup.request, canon)
    requires IsStory(setup, states, moves) && i <= |moves| && Rules(setup, states[i])
    requires HasFollowed(states[i].sub)
    ensures var sys := states[i];
            var log, output := sys.server.log, sys.client.output;
            && sys.base.Some? && sys.base.value <= |log| && sys.handled <= |sys.sub.sent| && Reached(sys.sub) <= |log|
            && (forall k :: sys.base.value <= k < Reached(sys.sub) && BlockHeight(log[k]).Some? ==>
                  Given(setup, canon, output, log[k]) || log[k] in OnTheWay(sys))
            && (OnTheWay(sys) == [] && sys.sub.cursor == |log| ==>
                  forall k :: sys.base.value <= k < |log| && BlockHeight(log[k]).Some?
                    ==> Given(setup, canon, output, log[k]))
            && (forall v :: v in output && BlockHeight(v).Some? ==> Meant(setup, canon, log, v))
  {
    StoryKeeps(setup, states, moves, i);
    hide IsStory, Rules, Represents, SysInv;
    NothingMissingNow(setup, canon, states[i]);
  }

  lemma NothingMissingNow(setup: Setup, canon: Canon, sys: System)
    requires Represents(setup.filter, setup.request, canon) && SysInv(setup, sys) && HasFollowed(sys.sub)
    ensures var log, output := sys.server.log, sys.client.output;
            && sys.base.Some? && sys.base.value <= |log| && sys.handled <= |sys.sub.sent| && Reached(sys.sub) <= |log|
            && (forall k :: sys.base.value <= k < Reached(sys.sub) && BlockHeight(log[k]).Some? ==>
                  Given(setup, canon, output, log[k]) || log[k] in OnTheWay(sys))
            && (OnTheWay(sys) == [] && sys.sub.cursor == |log| ==>
                  forall k :: sys.base.value <= k < |log| && BlockHeight(log[k]).Some?
                    ==> Given(setup, canon, output, log[k]))
            && (forall v :: v in output && BlockHeight(v).Some? ==> Meant(setup, canon, log, v))
  {
    hide Represents, Held, Sound, HandledAll, LogInv, MempoolInv, WindowInv, SubInv, BlockHeight, FirstLive, Given,
      Meant,
      DeliveredOf, OnTheWay, Reached, Got;
    OutputOfReceived(setup, sys);
    ReachedWithinLog(sys.server, sys.sub);
    ReachedCursor(sys.sub);
    var log, output := sys.server.log, sys.client.output;
    forall k | sys.base.value <= k < Reached(sys.sub) && BlockHeight(log[k]).Some?
      ensures Given(setup, canon, output, log[k]) || log[k] in OnTheWay(sys)
    {
      OutputOrOnTheWay(setup, sys, k);
      if Got(setup.filter, output, log[k]) {
        GotIsGiven(setup, canon, output, log[k]);
      }
    }
    forall v | v in output && BlockHeight(v).Some? ensures Meant(setup, canon, log, v) {
      DeliveredIsMeant(setup, canon, log, v);
    }
  }

  lemma ReachedCursor(sub: Subscriber)
    ensures Reached(sub) >= sub.cursor
  {
  }

  lemma GotIsGiven(setup: Setup, canon: Canon, output: seq<SubscribeUpdate>, u: SubscribeUpdate)
    requires Represents(setup.filter, setup.request, canon) && BlockHeight(u).Some? && Got(setup.filter, output, u)
    ensures Given(setup, canon, output, u)
  {
    hide Represents, Matched, Asked, Delivered;
    SentIsAsked(setup.filter, setup.request, canon, u);
  }

  lemma DeliveredIsMeant(setup: Setup, canon: Canon, log: seq<SubscribeUpdate>, v: SubscribeUpdate)
    requires Represents(setup.filter, setup.request, canon) && DeliveredOf(setup.filter, log, v)
    ensures Meant(setup, canon, log, v)
  {
    hide Represents, Matched, Asked, Delivered, BlockHeight;
    var u :| u in log && Owed(setup.filter, u) && v == Delivered(setup.filter, u);
    SentIsAsked(setup.filter, setup.request, canon, u);
  }

  lemma ReachedWithinLog(server: Server, sub: Subscriber)
    requires LogInv(server) && |server.ring| <= |server.log| && HasFollowed(sub) && SubInv(server, sub)
    ensures Reached(sub) <= |server.log|
  {
    FirstLiveBound(server, sub);
  }

  lemma OutputOfReceived(setup: Setup, sys: System)
    requires SysInv(setup, sys) && HasFollowed(sys.sub)
    ensures sys.base.Some? && sys.base.value <= |sys.server.log| && sys.handled <= |sys.sub.sent|
    ensures forall u :: u in sys.received && BlockHeight(u).Some? ==> u in sys.client.output
    ensures forall v :: v in sys.client.output && BlockHeight(v).Some? ==> DeliveredOf(setup.filter, sys.server.log, v)
  {
    AllRevised(sys.server);
    OutputCovers(setup, sys.server.log, sys.received);
    hide Inv, HandledAll, BlockHeight, HasAnchor, Entered, Numbered, DeliveredOf;
  }

  lemma StillOnTheWay(ef: EventFilter, sys: System, u: SubscribeUpdate)
    requires u in Outgoing(sys.sub) && sys.handled <= |sys.sub.sent|
    requires forall k :: 0 <= k < sys.handled ==> Got(ef, sys.received, sys.sub.sent[k])
    ensures Got(ef, sys.received, u) || u in OnTheWay(sys)
  {
    hide Got;
    var all := Outgoing(sys.sub);
    var p :| 0 <= p < |all| && all[p] == u;
    if p < sys.handled {
      assert sys.sub.sent[p] == u;
    } else {
      assert OnTheWay(sys)[p - sys.handled] == u;
    }
  }

  lemma GotOutput(ef: EventFilter, received: seq<SubscribeUpdate>, output: seq<SubscribeUpdate>, u: SubscribeUpdate)
    requires Got(ef, received, u) && forall v :: v in received && BlockHeight(v).Some? ==> v in output
    ensures Got(ef, output, u)
  {
    hide BlockHeight, Matched, Delivered;
    if Owed(ef, u) {
      DeliveredKeeps(ef, u);
    }
  }

  lemma OutputOrOnTheWay(setup: Setup, sys: System, k: nat)
    requires SysInv(setup, sys) && HasFollowed(sys.sub) && sys.base.Some?
             && sys.handled <= |sys.sub.sent|
    requires forall u :: u in sys.received && BlockHeight(u).Some? ==> u in sys.client.output
    requires sys.base.value <= k < Reached(sys.sub) && k < |sys.server.log| && BlockHeight(sys.server.log[k]).Some?
    ensures Got(setup.filter, sys.client.output, sys.server.log[k]) || sys.server.log[k] in OnTheWay(sys)
  {
    hide LogInv, MempoolInv, WindowInv, SubInv, HandledAll, BlockHeight, HasAnchor, Entered, Reached, FromLog, OnTheWay,
      Outgoing, AnchorOf, Got;
    var u := sys.server.log[k];
    PassedByOutgoing(setup.filter, sys.server, sys.sub, sys.base.value, sys.received, k);
    if u in Outgoing(sys.sub) {
      StillOnTheWay(setup.filter, sys, u);
    }
    if Got(setup.filter, sys.received, u) {
      GotOutput(setup.filter, sys.received, sys.client.output, u);
    }
  }

  /** With a catch-all request the application is given the updates themselves. */
  lemma NothingMissingUnfiltered(setup: Setup, canon: Canon, states: seq<System>, moves: seq<Move>, i: nat)
    requires Represents(setup.filter, setup.request, canon) && CatchAll(setup.request)
    requires IsStory(setup, states, moves) && i <= |moves| && Rules(setup, states[i])
    requires HasFollowed(states[i].sub)
    ensures var sys := states[i];
            var log, output := sys.server.log, sys.client.output;
            && sys.base.Some? && sys.base.value <= |log| && sys.handled <= |sys.sub.sent| && Reached(sys.sub) <= |log|
            && (forall k :: sys.base.value <= k < Reached(sys.sub) && BlockHeight(log[k]).Some? ==>
                  log[k] in output || log[k] in OnTheWay(sys))
            && (OnTheWay(sys) == [] && sys.sub.cursor == |log| ==>
                  forall k :: sys.base.value <= k < |log| && BlockHeight(log[k]).Some? ==> log[k] in output)
            && (forall v :: v in output && BlockHeight(v).Some? ==> v in log)
  {
    var sys := states[i];
    NothingMissing(setup, canon, states, moves, i);
    StoryKeeps(setup, states, moves, i);
    LogIsPlain(sys.server);
    hide IsStory, Rules, SysInv, Represents, BlockHeight, Plain, OnTheWay, Reached, Given, Meant;
    UnfilteredIsAll(setup, canon, sys.server.log, sys.client.output);
  }

  lemma UnfilteredIsAll(setup: Setup, canon: Canon, log: seq<SubscribeUpdate>, output: seq<SubscribeUpdate>)
    requires Represents(setup.filter, setup.request, canon) && CatchAll(setup.request)
    requires forall u :: u in log ==> Plain(u)
    ensures forall k :: 0 <= k < |log| && Given(setup, canon, output, log[k]) ==> log[k] in output
    ensures forall v :: Meant(setup, canon, log, v) ==> v in log
  {
    hide Represents, Asked, Plain;
    forall u | u in log ensures Asked(setup.request, canon, u) == Some(u) {
      UnfilteredIsItself(setup, canon, u);
    }
  }

  lemma LogIsPlain(s: Server)
    requires LogInv(s)
    ensures forall u :: u in s.log ==> Plain(u)
  {
    hide Plain;
    forall u | u in s.log ensures Plain(u) {
      var i :| 0 <= i < |s.log| && s.log[i] == u;
      assert Revised(s.log[i], s.mempool.revision);
    }
  }

  lemma UnfilteredIsItself(setup: Setup, canon: Canon, u: SubscribeUpdate)
    requires Represents(setup.filter, setup.request, canon) && CatchAll(setup.request) && Plain(u)
    ensures Asked(setup.request, canon, u) == Some(u)
  {
    PlainPasses(setup.filter, setup.request, canon, u);
    SentIsAsked(setup.filter, setup.request, canon, u);
    hide Represents, Matched, Delivered, Asked;
  }

  /** At every moment, connected or not, the application has everything block-scoped that its filter lets through, from
      the base up to the anchor that the client would resume from, and also up to the last update received, whose
      height it would resume near. */
  lemma ResumptionNeverAhead(setup: Setup, states: seq<System>, moves: seq<Move>, i: nat)
    requires IsStory(setup, states, moves) && i <= |moves| && Rules(setup, states[i]) && states[i].base.Some?
    ensures var log, base, client := states[i].server.log, states[i].base.value, states[i].client;
            && (client.chain.finalized.Some? ==>
                  HasAnchor(setup.filter, log, base, client.output, client.chain.finalized.value))
            && (Heard(states[i].received) ==>
                  client.checkpoint.Some? && HasHeight(setup.filter, log, base, client.output, client.checkpoint.value))
  {
    var sys := states[i];
    StoryKeeps(setup, states, moves, i);
    hide IsStory, Rules;
    AllRevised(sys.server);
    OutputCovers(setup, sys.server.log, sys.received);
    hide Inv, HandledAll, BlockHeight, Finalizes, Entered, Numbered, DeliveredOf;
    CompleteWithOutput(setup.filter, sys.server.log, sys.base.value, sys.received, sys.client.output);
    hide CompleteTo;
  }

  lemma CompleteWithOutput(
    ef: EventFilter, log: seq<SubscribeUpdate>, base: nat, received: seq<SubscribeUpdate>, output: seq<SubscribeUpdate>)
    requires forall v :: v in received && BlockHeight(v).Some? ==> v in output
    ensures forall a: nat :: CompleteTo(ef, log, base, received, a) ==> CompleteTo(ef, log, base, output, a)
  {
    hide Got, BlockHeight;
    forall a: nat, k | CompleteTo(ef, log, base, received, a) && base <= k <= a && BlockHeight(log[k]).Some?
      ensures Got(ef, output, log[k])
    {
      GotOutput(ef, received, output, log[k]);
    }
  }

  /** Once the client has an anchor or has received anything block-scoped, no reconnect makes it start over. */
  lemma {:induction false} BaseStays(setup: Setup, states: seq<System>, moves: seq<Move>, i: nat, j: nat)
    requires IsStory(setup, states, moves) && i <= j <= |moves|
    requires states[i].base.Some? && (states[i].client.chain.finalized.Some? || Heard(states[i].received))
    ensures states[j].base == states[i].base
    ensures states[j].client.chain.finalized.Some? || Heard(states[j].received)
  {
    hide Do, Enabled, NextRequest, FreshSubscriber, Handled, Through, BlockHeight;
    if i == j {
    } else {
      var before, move := states[j - 1], moves[j - 1];
      assert Allowed(setup, before, move) && states[j - 1 + 1] == After(setup, before, move);
      BaseStays(setup, states, moves, i, j - 1);
      if move.Handle? {
        var message := Through(setup.filter, before.sub.sent[before.handled]);
        if message.Some? {
          HandledAnchor(before.client, message.value);
        }
      }
    }
  }

  /** What the client is, in any story at all: the fold of everything it has received. */
  lemma {:induction false} StoryFolds(setup: Setup, states: seq<System>, moves: seq<Move>, i: nat)
    requires IsStory(setup, states, moves) && i <= |moves|
    ensures states[i].client == HandledAll(NewClient(setup), states[i].received)
  {
    hide Handled, NewClient, Do, Enabled, NextRequest, FreshSubscriber, HandledAll;
    if i > 0 {
      var before, move := states[i - 1], moves[i - 1];
      assert Allowed(setup, before, move) && states[i - 1 + 1] == After(setup, before, move);
      StoryFolds(setup, states, moves, i - 1);
      if move.Handle? {
        if Through(setup.filter, before.sub.sent[before.handled]).Some? {
          HandledOneMore(NewClient(setup), before.received,
            Through(setup.filter, before.sub.sent[before.handled]).value);
        }
      }
    } else {
      NothingHandled(NewClient(setup));
    }
  }

  lemma NothingHandled(c: Client)
    ensures HandledAll(c, []) == c
  {
  }

  /** Nothing twice too soon, in any story, however often the client reconnects and whatever is replayed to it: if the
      application is given a block-scoped update twice, it was received twice, and since some update of its height, at
      or before the first time, updates of more heights than the filter retains were received. */
  lemma DuplicateNeedsHeights(setup: Setup, states: seq<System>, moves: seq<Move>, i: nat, p: nat, q: nat)
    requires IsStory(setup, states, moves) && i <= |moves|
    requires p < q < |states[i].client.output| && states[i].client.output[p] == states[i].client.output[q]
    requires BlockHeight(states[i].client.output[p]).Some?
    ensures ManyHeightsBetween(states[i].received, states[i].client.output[p], setup.retention)
  {
    assert |states| == |moves| + 1;
    hide IsStory;
    StoryFolds(setup, states, moves, i);
    OutputTwice(setup, states[i].received, p, q);
  }

  /** In particular, while no more heights have appeared than the filter retains, nothing is given twice at all. */
  lemma NothingDuplicated(setup: Setup, states: seq<System>, moves: seq<Move>, i: nat)
    requires IsStory(setup, states, moves) && i <= |moves|
    requires |Dedup.BlockHeights(states[i].received)| <= setup.retention
    ensures NothingTwice(states[i].client.output)
  {
    assert |states| == |moves| + 1;
    hide IsStory;
    StoryFolds(setup, states, moves, i);
    OutputOnce(setup, states[i].received);
  }
}
