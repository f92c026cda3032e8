// A filtered subscription: the block-scoped stream with each update dropped or projected as its request asks.
module FilteredStream {
  import opened Proto
  import opened Projection
  import opened Filter
  import opened EventFilters
  import opened ChainResume
  import opened Events
  import Delivery
  import Guarantees
  import Protocol
  import Splice

  /** The reconnect notice and the markers of a mempool snapshot are sent past the filter. */
  predicate IsControl(u: SubscribeUpdate) {
    u.update.Some? && (u.update.value.Reconnect? || u.update.value.MempoolSnapshot?)
  }

  /** What a subscription sends for one update, if anything. */
  function Through(ef: EventFilter, u: SubscribeUpdate): (r: Option<SubscribeUpdate>) {
    if IsControl(u) then Some(u) else if Matched(ef, u).Some? then Some(Delivered(ef, u)) else None
  }

  /** What goes through the filter for one update, as a list. */
  function LetThrough(ef: EventFilter, u: SubscribeUpdate): (r: seq<SubscribeUpdate>) {
    if Through(ef, u).Some? then [Through(ef, u).value] else []
  }

  /** What a subscription sends for a list of updates, control messages included. */
  function Passes(ef: EventFilter, us: seq<SubscribeUpdate>): (r: seq<SubscribeUpdate>) {
    if us == [] then [] else Passes(ef, us[..|us| - 1]) + LetThrough(ef, us[|us| - 1])
  }

  lemma {:induction false} PassesAppend(ef: EventFilter, a: seq<SubscribeUpdate>, b: seq<SubscribeUpdate>)
    ensures Passes(ef, a + b) == Passes(ef, a) + Passes(ef, b)
  {
    hide LetThrough;
    if b == [] {
      assert a + b == a;
    } else {
      PassesAppend(ef, a, b[..|b| - 1]);
      assert (a + b)[..|a + b| - 1] == a + b[..|b| - 1];
    }
  }

  /** A block-scoped update that the filter lets through. */
  predicate Owed(ef: EventFilter, u: SubscribeUpdate) {
    BlockHeight(u).Some? && Matched(ef, u).Some?
  }

  /** What the filter passes on of a stream, in order. */
  function Filtered(ef: EventFilter, us: seq<SubscribeUpdate>): (r: seq<SubscribeUpdate>) {
    if us == [] then
      []
    else
      var last := us[|us| - 1];
      Filtered(ef, us[..|us| - 1]) + if Matched(ef, last).Some? then [Delivered(ef, last)] else []
  }

  lemma DeliveredKeeps(ef: EventFilter, u: SubscribeUpdate)
    requires Matched(ef, u).Some?
    ensures Delivered(ef, u).sequence == u.sequence && BlockHeight(Delivered(ef, u)) == BlockHeight(u)
    ensures Delivered(ef, u).session == u.session && Finalizes(Delivered(ef, u)) == Finalizes(u)
  {
    hide Matched;
    var m := Matched(ef, u).value;
    ProjectionKeepsMetadata(u, m.blockPayload, m.transactionPayload);
  }

  lemma MatchedIsWanted(ef: EventFilter, request: SubscribeRequest, canon: Canon, u: SubscribeUpdate)
    requires Represents(ef, request, canon)
    ensures Matched(ef, u).Some? <==> Wanted(request, canon, u)
  {
    MatchedMeansRequest(ef, request, canon, u);
    hide Matched, Represents, LegacyWants, WantingNames;
  }

  /** The last sequence number of a stream, or a bound below all of it. */
  function LastOf(us: seq<SubscribeUpdate>, lo: int): (r: int) {
    if us == [] then lo else us[|us| - 1].sequence
  }

  lemma PrefixAscends(us: seq<SubscribeUpdate>, lo: int, hi: int)
    requires Guarantees.InSequence(us, lo, hi) && us != []
    ensures var rest, u := us[..|us| - 1], us[|us| - 1];
            && Guarantees.InSequence(rest, lo, hi) && lo <= LastOf(rest, lo) < u.sequence
            && forall x :: x in rest ==> x.sequence <= LastOf(rest, lo)
  {
  }

  /** Filtering keeps the order. */
  lemma {:induction false} FilteredAscends(ef: EventFilter, us: seq<SubscribeUpdate>, lo: int, hi: int)
    requires Guarantees.InSequence(us, lo, hi)
    ensures Guarantees.InSequence(Filtered(ef, us), lo, LastOf(us, lo))
  {
    if us == [] {
    } else {
      var rest, u := us[..|us| - 1], us[|us| - 1];
      PrefixAscends(us, lo, hi);
      FilteredAscends(ef, rest, lo, hi);
      if Matched(ef, u).Some? {
        DeliveredKeeps(ef, u);
        hide Matched, Delivered, Filtered;
        Guarantees.InSequenceAppend(Filtered(ef, rest), [Delivered(ef, u)], lo, LastOf(rest, lo), u.sequence);
      } else {
        hide Matched, Delivered;
      }
    }
  }

  /** One message out for each wanted update in, with its number, and each the projection of its match. */
  ghost predicate Picks(
    ef: EventFilter, request: SubscribeRequest, canon: Canon, us: seq<SubscribeUpdate>, out: seq<SubscribeUpdate>)
  {
    && (forall u :: u in us ==> (Wanted(request, canon, u) <==> exists v :: v in out && v.sequence == u.sequence))
    && (forall v :: v in out ==> exists u :: u in us && Matched(ef, u).Some? && v == Delivered(ef, u))
  }

  /** Filtering drops exactly what is not wanted. */
  lemma {:induction false} FilteredKeeps(
    ef: EventFilter, request: SubscribeRequest, canon: Canon, us: seq<SubscribeUpdate>, lo: int, hi: int)
    requires Represents(ef, request, canon) && Guarantees.InSequence(us, lo, hi)
    ensures Picks(ef, request, canon, us, Filtered(ef, us))
  {
    hide Matched, Delivered, Represents, Wanted;
    if us == [] {
    } else {
      var rest, u := us[..|us| - 1], us[|us| - 1];
      var one := if Matched(ef, u).Some? then [Delivered(ef, u)] else [];
      assert Filtered(ef, us) == Filtered(ef, rest) + one && us == rest + [u];
      hide Picks, Filtered, LastOf, Guarantees.InSequence;
      PrefixAscends(us, lo, hi);
      FilteredKeeps(ef, request, canon, rest, lo, hi);
      FilteredAscends(ef, rest, lo, hi);
      NoneAbove(Filtered(ef, rest), lo, LastOf(rest, lo));
      MatchedIsWanted(ef, request, canon, u);
      if Matched(ef, u).Some? {
        DeliveredKeeps(ef, u);
      }
      OneMoreFiltered(ef, request, canon, rest, u, Filtered(ef, rest), one, LastOf(rest, lo));
    }
  }

  lemma NoneAbove(us: seq<SubscribeUpdate>, lo: int, hi: int)
    requires Guarantees.InSequence(us, lo, hi)
    ensures forall v :: v in us ==> v.sequence <= hi
  {
  }

  lemma OneMoreFiltered(
    ef: EventFilter, request: SubscribeRequest, canon: Canon, rest: seq<SubscribeUpdate>, u: SubscribeUpdate,
    out: seq<SubscribeUpdate>, one: seq<SubscribeUpdate>, before: int)
    requires one == if Matched(ef, u).Some? then [Delivered(ef, u)] else []
    requires Matched(ef, u).Some? ==> Delivered(ef, u).sequence == u.sequence
    requires Matched(ef, u).Some? <==> Wanted(request, canon, u)
    requires before < u.sequence && (forall x :: x in rest ==> x.sequence <= before) && forall v :: v in out
                                                                                         ==> v.sequence <= before
    requires Picks(ef, request, canon, rest, out)
    ensures Picks(ef, request, canon, rest + [u], out + one)
  {
    hide Matched, Delivered, Wanted;
    var all, us := out + one, rest + [u];
    forall x | x in us ensures Wanted(request, canon, x) <==> exists v :: v in all && v.sequence == x.sequence {
      if x in rest {
        assert forall v :: v in one ==> v.sequence != x.sequence;
      } else {
        assert x == u;
        assert one != [] ==> one[0] in all;
      }
    }
    forall v | v in all ensures exists x :: x in us && Matched(ef, x).Some? && v == Delivered(ef, x) {
      if v in out {
        var x :| x in rest && Matched(ef, x).Some? && v == Delivered(ef, x);
        assert x in us;
      } else {
        assert v == Delivered(ef, u) && u in us;
      }
    }
  }

  /** A catch-all subscription passes a stream of plain updates on unchanged. */
  lemma {:induction false} CatchAllPassesAll(
    ef: EventFilter, request: SubscribeRequest, canon: Canon, us: seq<SubscribeUpdate>)
    requires Represents(ef, request, canon) && CatchAll(request) && forall u :: u in us ==> Plain(u)
    ensures Filtered(ef, us) == us
  {
    hide Matched, Delivered, Represents, Plain;
    if us == [] {
    } else {
      var n := |us| - 1;
      assert us == us[..n] + [us[n]] && Plain(us[n]);
      CatchAllPassesAll(ef, request, canon, us[..n]);
      PlainPasses(ef, request, canon, us[n]);
    }
  }

  lemma PlainPasses(ef: EventFilter, request: SubscribeRequest, canon: Canon, u: SubscribeUpdate)
    requires Represents(ef, request, canon) && CatchAll(request) && Plain(u)
    ensures Matched(ef, u).Some? && Delivered(ef, u) == u
  {
    Delivery.CatchAllDeliversEverything(ef, request, canon, u);
  }

  /** For every interleaving and every accepted request: the block-scoped messages of a filtered subscription are
      in strictly increasing sequence order; each update retained at the snapshot at or above the requested height,
      or pushed after it up to the cursor, is sent exactly when the request means it; and each is sent as
      the projection of its match. */
  lemma FilteredSplice(
    cfg: Protocol.Config, request: SubscribeRequest, states: seq<Protocol.State>, steps: seq<Protocol.Step>, i: nat,
    ef: EventFilter, canon: Canon)
    requires Protocol.IsRun(cfg, request, states, steps) && i <= |steps| && Splice.HasFollowed(states[i].sub)
    requires Represents(ef, request, canon)
    ensures var s, sub := states[i].server, states[i].sub;
            var out := Filtered(ef, Splice.BlockPart(Guarantees.Outgoing(sub)));
            && sub.cursor <= |s.log|
            && Guarantees.InSequence(out, 0, |s.log|)
            && (forall u :: u in Splice.ReplayPart(sub.request, sub.window) ==>
                  (Wanted(request, canon, u) <==> exists v :: v in out && v.sequence == u.sequence))
            && (forall k :: sub.joinedAt <= k < sub.cursor && BlockHeight(s.log[k]).Some? ==>
                  (Wanted(request, canon, s.log[k]) <==> exists v :: v in out && v.sequence == s.log[k].sequence))
            && (forall v :: v in out ==> exists u :: u in Guarantees.Outgoing(sub) && Matched(ef, u).Some?
                                          && v == Delivered(ef, u))
  {
    var s, sub := states[i].server, states[i].sub;
    hide Represents, Wanted, Matched, Delivered, Filtered, BlockHeight, Splice.ReplayPart, Splice.BlockPart,
      Splice.ServerInv, Splice.WindowAt, Splice.FollowInv, Guarantees.Stream, Guarantees.InSequence,
      Guarantees.Outgoing;
    Guarantees.SpliceSafety(cfg, request, states, steps, i);
    Splice.RunKeeps(cfg, request, states, steps, i);
    hide Protocol.IsRun;
    Splice.JoinedReplayBlocks(s, sub);
    FilteredBlocks(ef, request, canon, Guarantees.Outgoing(sub), |s.log|);
  }

  /** What filtering makes of the block-scoped part of a stream. */
  lemma FilteredBlocks(
    ef: EventFilter, request: SubscribeRequest, canon: Canon, all: seq<SubscribeUpdate>, hi: nat)
    requires Represents(ef, request, canon) && Guarantees.InSequence(Splice.BlockPart(all), 0, hi)
    ensures var out := Filtered(ef, Splice.BlockPart(all));
            && Guarantees.InSequence(out, 0, hi)
            && (forall u :: u in all && BlockHeight(u).Some? ==>
                  (Wanted(request, canon, u) <==> exists v :: v in out && v.sequence == u.sequence))
            && (forall v :: v in out ==> exists u :: u in all && Matched(ef, u).Some? && v == Delivered(ef, u))
  {
    hide Represents, Wanted, Matched, Delivered, Filtered, BlockHeight, Splice.BlockPart, Guarantees.InSequence;
    var blocks := Splice.BlockPart(all);
    FilteredKeeps(ef, request, canon, blocks, 0, hi);
    FilteredAscends(ef, blocks, 0, hi);
    WithinLog(ef, blocks, hi);
    forall u ensures u in blocks <==> u in all && BlockHeight(u).Some? {
      Splice.BlockPartMembers(all, u);
    }
  }

  lemma WithinLog(ef: EventFilter, us: seq<SubscribeUpdate>, hi: nat)
    requires Guarantees.InSequence(us, 0, hi) && Guarantees.InSequence(Filtered(ef, us), 0, LastOf(us, 0))
    ensures Guarantees.InSequence(Filtered(ef, us), 0, hi)
  {
    hide Matched, Delivered, Filtered;
  }
}
