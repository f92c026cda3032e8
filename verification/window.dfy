// What the replay buffer retains over whole runs, and what a range request can rely on.
module Window {
  import opened Proto
  import opened Replay
  import Wire

  /** One use of the buffer: a published batch, or an eviction by a reader. */
  datatype Op = Push(updates: seq<Entry>, now: nat) | Tick(now: nat)

  /** The buckets after a run, from an empty buffer. */
  function Run(limits: Limits, ops: seq<Op>): (r: seq<Bucket>) {
    if ops == [] then
      []
    else
      var before := Run(limits, ops[..|ops| - 1]);
      match ops[|ops| - 1]
      case Push(updates, now) => Pushed(before, limits, updates, now)
      case Tick(now) => Kept(before, limits, now)
  }

  /** Every bucket ever pushed. */
  function History(ops: seq<Op>): (r: seq<Bucket>) {
    if ops == [] then
      []
    else
      History(ops[..|ops| - 1])
      + if ops[|ops| - 1].Push? then BucketOf(ops[|ops| - 1].updates, ops[|ops| - 1].now) else []
  }

  ghost predicate MonotoneClock(ops: seq<Op>) {
    forall i, j :: 0 <= i < j < |ops| ==> ops[i].now <= ops[j].now
  }

  ghost predicate InsertionOrder(bs: seq<Bucket>) {
    forall i, j :: 0 <= i < j < |bs| ==> bs[i].insertedAt <= bs[j].insertedAt
  }

  /** `w` is the longest suffix of `h` that satisfies all four limits at time `now`. */
  ghost predicate LongestFit(w: seq<Bucket>, h: seq<Bucket>, limits: Limits, now: nat) {
    && |w| <= |h|
    && w == h[|h| - |w|..]
    && Fits(w, limits, now)
    && forall k :: 0 <= k < |h| - |w| ==> !Fits(h[k..], limits, now)
  }

  lemma {:induction false} MeasuresGrow(s: seq<Bucket>, e: seq<Bucket>)
    ensures Heights(s) <= Heights(s + e)
    ensures EventSum(s) <= EventSum(s + e) && ByteSum(s) <= ByteSum(s + e)
  {
    forall b | b in s ensures b in s + e {
    }
    if s == [] {
    } else {
      assert (s + e)[0] == s[0] && (s + e)[1..] == s[1..] + e;
      MeasuresGrow(s[1..], e);
    }
  }

  lemma SubsetSize(a: set<nat>, b: set<nat>)
    requires a <= b
    ensures |a| <= |b|
  {
    assert b == a + (b - a);
  }

  /** A window that fits later, with more in it, fitted before. */
  lemma FitsBefore(s: seq<Bucket>, e: seq<Bucket>, limits: Limits, earlier: nat, later: nat)
    requires earlier <= later && Fits(s + e, limits, later)
    ensures Fits(s, limits, earlier)
  {
    MeasuresGrow(s, e);
    SubsetSize(Heights(s), Heights(s + e));
    forall b | b in s ensures !Expired(b, limits, earlier) {
      assert b in s + e;
    }
  }

  lemma OldestFirst(bs: seq<Bucket>, limits: Limits, now: nat)
    requires InsertionOrder(bs)
    ensures Stays(bs, limits, now) <==> Fits(bs, limits, now)
  {
    assert bs != [] ==> bs[0] in bs;
    if Stays(bs, limits, now) {
      forall b | b in bs ensures !Expired(b, limits, now) {
        var i :| 0 <= i < |bs| && bs[i] == b;
        assert bs[0].insertedAt <= b.insertedAt;
      }
    }
  }

  /** With the oldest bucket first, testing only the front's age finds the longest window that fits. */
  lemma {:induction false} KeptIsLongest(bs: seq<Bucket>, limits: Limits, now: nat)
    requires InsertionOrder(bs)
    ensures LongestFit(Kept(bs, limits, now), bs, limits, now)
  {
    OldestFirst(bs, limits, now);
    var w := Kept(bs, limits, now);
    if bs == [] || Stays(bs, limits, now) {
      assert bs[0..] == bs;
    } else {
      KeptIsLongest(bs[1..], limits, now);
      assert w == bs[1..][|bs[1..]| - |w|..] == bs[|bs| - |w|..];
      forall k | 0 <= k < |bs| - |w| ensures !Fits(bs[k..], limits, now) {
        if k == 0 {
          assert bs[0..] == bs;
        } else {
          assert bs[1..][k - 1..] == bs[k..];
        }
      }
    }
  }

  /** One operation keeps the window longest, whatever was dropped before. */
  lemma LongestFitStep(w: seq<Bucket>, h: seq<Bucket>, limits: Limits, earlier: nat, e: seq<Bucket>, now: nat)
    requires LongestFit(w, h, limits, earlier) && earlier <= now
    requires InsertionOrder(h + e)
    ensures LongestFit(Kept(w + e, limits, now), h + e, limits, now)
  {
    var r := Kept(w + e, limits, now);
    SuffixAppend(h, e, |h| - |w|);
    SuffixInOrder(h + e, |h| - |w|);
    KeptFits(w, h, e, limits, now);
    forall k | 0 <= k < |h + e| - |r| ensures !Fits((h + e)[k..], limits, now) {
      LongerFails(w, h, limits, earlier, e, now, k);
    }
  }

  lemma SuffixInOrder(s: seq<Bucket>, k: nat)
    requires InsertionOrder(s) && k <= |s|
    ensures InsertionOrder(s[k..])
  {
  }

  lemma KeptFits(w: seq<Bucket>, h: seq<Bucket>, e: seq<Bucket>, limits: Limits, now: nat)
    requires |w| <= |h| && w == h[|h| - |w|..]
    requires InsertionOrder(w + e)
    ensures var r := Kept(w + e, limits, now);
            |r| <= |h + e| && r == (h + e)[|h + e| - |r|..] && Fits(r, limits, now)
  {
    hide Kept, InsertionOrder, Fits;
    KeptIsLongest(w + e, limits, now);
    SuffixOfSuffix(w, h, e, Kept(w + e, limits, now));
  }

  lemma SuffixOfSuffix<T>(w: seq<T>, h: seq<T>, e: seq<T>, r: seq<T>)
    requires |w| <= |h| && w == h[|h| - |w|..]
    requires |r| <= |w + e| && r == (w + e)[|w + e| - |r|..]
    ensures |r| <= |h + e| && r == (h + e)[|h + e| - |r|..]
  {
    SuffixAppend(h, e, |h| - |w|);
    SuffixSuffix(h + e, |h| - |w|, |w + e| - |r|);
  }

  lemma LongerFails(
    w: seq<Bucket>, h: seq<Bucket>, limits: Limits, earlier: nat, e: seq<Bucket>, now: nat, k: nat)
    requires LongestFit(w, h, limits, earlier) && earlier <= now
    requires InsertionOrder(w + e)
    requires k < |h + e| - |Kept(w + e, limits, now)|
    ensures !Fits((h + e)[k..], limits, now)
  {
    hide Kept, Fits, InsertionOrder;
    var d := |h| - |w|;
    if k < d {
      NoLongerThanBefore(w, h, limits, earlier, e, now, k);
    } else {
      SuffixAppend(h, e, d);
      SuffixSuffix(h + e, d, k - d);
      KeptIsLongest(w + e, limits, now);
      assert !Fits((w + e)[k - d..], limits, now);
    }
  }

  lemma NoLongerThanBefore(
    w: seq<Bucket>, h: seq<Bucket>, limits: Limits, earlier: nat, e: seq<Bucket>, now: nat, k: nat)
    requires LongestFit(w, h, limits, earlier) && earlier <= now && k < |h| - |w|
    ensures !Fits((h + e)[k..], limits, now)
  {
    hide Fits;
    SuffixAppend(h, e, k);
    if Fits(h[k..] + e, limits, now) {
      FitsBefore(h[k..], e, limits, earlier, now);
    }
  }

  lemma SuffixAppend<T>(h: seq<T>, e: seq<T>, k: nat)
    requires k <= |h|
    ensures (h + e)[k..] == h[k..] + e
  {
  }

  lemma SuffixSuffix<T>(s: seq<T>, d: nat, k: nat)
    requires d + k <= |s|
    ensures s[d..][k..] == s[d + k..]
  {
  }

  lemma {:induction false} HistoryInOrder(ops: seq<Op>)
    requires MonotoneClock(ops)
    ensures InsertionOrder(History(ops))
    ensures ops == [] ==> History(ops) == []
    ensures ops != [] ==> InsertedBy(History(ops), ops[|ops| - 1].now)
  {
    if ops == [] {
    } else {
      hide InsertionOrder, InsertedBy, BucketOf;
      var rest, last := ops[..|ops| - 1], ops[|ops| - 1];
      HistoryInOrder(rest);
      var e := if last.Push? then BucketOf(last.updates, last.now) else [];
      InsertedNow(if last.Push? then last.updates else [], last.now);
      if rest == [] {
        OneLater([], 0, e, last.now);
      } else {
        OneLater(History(rest), rest[|rest| - 1].now, e, last.now);
      }
    }
  }

  ghost predicate InsertedBy(bs: seq<Bucket>, now: nat) {
    forall i :: 0 <= i < |bs| ==> bs[i].insertedAt <= now
  }

  lemma OneLater(bs: seq<Bucket>, earlier: nat, e: seq<Bucket>, now: nat)
    requires bs == [] || (InsertionOrder(bs) && InsertedBy(bs, earlier) && earlier <= now)
    requires |e| <= 1 && forall i :: 0 <= i < |e| ==> e[i].insertedAt == now
    ensures InsertionOrder(bs + e) && InsertedBy(bs + e, now)
  {
  }

  lemma InsertedNow(es: seq<Entry>, now: nat)
    ensures forall i :: 0 <= i < |BucketOf(es, now)| ==> BucketOf(es, now)[i].insertedAt == now
  {
  }

  /** After any run under a monotone clock, the buffer holds exactly the longest suffix of everything
      ever pushed that satisfies all four limits at the time of the last operation. */
  lemma {:induction false} WindowRefinement(limits: Limits, ops: seq<Op>)
    requires ops != [] && MonotoneClock(ops)
    ensures LongestFit(Run(limits, ops), History(ops), limits, ops[|ops| - 1].now)
  {
    if limits.heights == 0 {
      DisabledFit(limits, ops);
    } else {
      var rest := ops[..|ops| - 1];
      var now := ops[|ops| - 1].now;
      HistoryInOrder(ops);
      OneOperation(limits, ops);
      if rest == [] {
        KeptIsLongest(Appended(ops), limits, now);
      } else {
        WindowRefinement(limits, rest);
        LongestFitStep(Run(limits, rest), History(rest), limits, rest[|rest| - 1].now, Appended(ops), now);
      }
    }
  }

  /** The bucket that the last operation pushed, if any. */
  function Appended(ops: seq<Op>): (r: seq<Bucket>)
    requires ops != []
  {
    var last := ops[|ops| - 1];
    if last.Push? then BucketOf(last.updates, last.now) else []
  }

  lemma OneOperation(limits: Limits, ops: seq<Op>)
    requires ops != [] && limits.heights != 0
    ensures var rest := ops[..|ops| - 1];
            && History(ops) == History(rest) + Appended(ops)
            && Run(limits, ops) == Kept(Run(limits, rest) + Appended(ops), limits, ops[|ops| - 1].now)
            && (rest == [] ==> History(rest) + Appended(ops) == Run(limits, rest) + Appended(ops) == Appended(ops))
  {
    var w := Run(limits, ops[..|ops| - 1]);
    assert w + [] == w;
  }

  lemma DisabledFit(limits: Limits, ops: seq<Op>)
    requires limits.heights == 0 && ops != []
    ensures LongestFit(Run(limits, ops), History(ops), limits, ops[|ops| - 1].now)
  {
    hide Run, History, BucketOf;
    var h := History(ops);
    DisabledIsEmpty(limits, ops);
    assert Heights([]) == {} && h[|h|..] == [];
    forall k | 0 <= k < |h| ensures !Fits(h[k..], limits, ops[|ops| - 1].now) {
      assert h[k] in h[k..];
      assert h[k].height in Heights(h[k..]);
    }
  }

  lemma {:induction false} DisabledIsEmpty(limits: Limits, ops: seq<Op>)
    requires limits.heights == 0
    ensures Run(limits, ops) == []
  {
    if ops == [] {
    } else {
      DisabledIsEmpty(limits, ops[..|ops| - 1]);
    }
  }

  // ---------- the window in terms of its messages ----------

  /** All updates held, in buffer order. */
  function Contents(bs: seq<Bucket>): (r: seq<Entry>) {
    if bs == [] then [] else bs[0].updates + Contents(bs[1..])
  }

  /** Their encodings, one after the other. */
  function Encodings(codec: Wire.Codec, es: seq<Entry>): (r: Bytes) {
    if es == [] then [] else Wire.Encoded(codec, es[0].message) + Encodings(codec, es[1..])
  }

  /** Each cached length is that of the message's encoding. */
  ghost predicate Measured(codec: Wire.Codec, es: seq<Entry>) {
    forall e :: e in es ==> e.encodedLen == |Wire.Encoded(codec, e.message)|
  }

  ghost predicate AllMeasured(codec: Wire.Codec, ops: seq<Op>) {
    forall i :: 0 <= i < |ops| && ops[i].Push? ==> Measured(codec, ops[i].updates)
  }

  /** The four limits, on the messages themselves: their number, the length of all their encodings, the number of
      heights, and every bucket's age. */
  ghost predicate WithinLimits(codec: Wire.Codec, bs: seq<Bucket>, limits: Limits, now: nat) {
    && |Contents(bs)| <= limits.events
    && |Encodings(codec, Contents(bs))| <= limits.bytes
    && |set b | b in bs :: b.height| <= limits.heights
    && (limits.maxAge.Some? ==> forall b :: b in bs ==> now <= b.insertedAt + limits.maxAge.value)
  }

  /** Every bucket's byte count is the length of its messages' encodings. */
  ghost predicate Weighed(codec: Wire.Codec, bs: seq<Bucket>) {
    forall b :: b in bs ==> b.bytes == |Encodings(codec, b.updates)|
  }

  lemma {:induction false} EncodingsAppend(codec: Wire.Codec, a: seq<Entry>, b: seq<Entry>)
    ensures Encodings(codec, a + b) == Encodings(codec, a) + Encodings(codec, b)
  {
    hide Wire.Encoded;
    if a == [] {
      assert a + b == b;
    } else {
      EncodingsAppend(codec, a[1..], b);
      assert (a + b)[0] == a[0] && (a + b)[1..] == a[1..] + b;
    }
  }

  lemma {:induction false} LengthsOfEncodings(codec: Wire.Codec, es: seq<Entry>)
    requires Measured(codec, es)
    ensures LengthSum(es) == |Encodings(codec, es)|
  {
    hide Wire.Encoded;
    if es == [] {
    } else {
      assert es == [es[0]] + es[1..];
      LengthsOfEncodings(codec, es[1..]);
    }
  }

  /** The sums over buckets are the sums over messages. */
  lemma {:induction false} SumsOverMessages(codec: Wire.Codec, bs: seq<Bucket>)
    requires Weighed(codec, bs)
    ensures EventSum(bs) == |Contents(bs)| && ByteSum(bs) == |Encodings(codec, Contents(bs))|
  {
    hide Encodings;
    if bs == [] {
      NoEncodings(codec);
    } else {
      assert bs == [bs[0]] + bs[1..];
      SumsOverMessages(codec, bs[1..]);
      EncodingsAppend(codec, bs[0].updates, Contents(bs[1..]));
    }
  }

  lemma NoEncodings(codec: Wire.Codec)
    ensures Encodings(codec, []) == []
  {
  }

  lemma FitsIsWithinLimits(codec: Wire.Codec, bs: seq<Bucket>, limits: Limits, now: nat)
    requires Weighed(codec, bs)
    ensures Fits(bs, limits, now) <==> WithinLimits(codec, bs, limits, now)
  {
    SumsOverMessages(codec, bs);
    hide Encodings, Contents, EventSum, ByteSum, Weighed;
  }

  lemma BatchWeighed(codec: Wire.Codec, es: seq<Entry>, now: nat)
    requires Measured(codec, es)
    ensures Weighed(codec, BucketOf(es, now))
  {
    if FirstHeight(es).Some? {
      LengthsOfEncodings(codec, AtHeight(es, FirstHeight(es).value));
    }
    hide Encodings, Wire.Encoded;
  }

  lemma {:induction false} HistoryWeighed(codec: Wire.Codec, ops: seq<Op>)
    requires AllMeasured(codec, ops)
    ensures Weighed(codec, History(ops))
  {
    hide Measured, Encodings, BucketOf;
    if ops == [] {
    } else {
      HistoryWeighed(codec, ops[..|ops| - 1]);
      if ops[|ops| - 1].Push? {
        BatchWeighed(codec, ops[|ops| - 1].updates, ops[|ops| - 1].now);
      }
    }
  }

  lemma WeighedSuffix(codec: Wire.Codec, bs: seq<Bucket>, k: nat)
    requires Weighed(codec, bs) && k <= |bs|
    ensures Weighed(codec, bs[k..])
  {
  }

  /** After any run under a monotone clock, with the true length of each message: what the buffer holds is within all
      four limits, counted over the messages themselves, and one bucket more of the history would not be. */
  lemma WindowByMessages(codec: Wire.Codec, limits: Limits, ops: seq<Op>)
    requires ops != [] && MonotoneClock(ops) && AllMeasured(codec, ops)
    ensures var w, h, now := Run(limits, ops), History(ops), ops[|ops| - 1].now;
            && |w| <= |h| && w == h[|h| - |w|..]
            && WithinLimits(codec, w, limits, now)
            && forall k :: 0 <= k < |h| - |w| ==> !WithinLimits(codec, h[k..], limits, now)
  {
    WindowRefinement(limits, ops);
    HistoryWeighed(codec, ops);
    hide Run, History, MonotoneClock, AllMeasured, Fits, WithinLimits, Weighed;
    var w, h, now := Run(limits, ops), History(ops), ops[|ops| - 1].now;
    forall k | 0 <= k <= |h| ensures Fits(h[k..], limits, now) <==> WithinLimits(codec, h[k..], limits, now) {
      WeighedSuffix(codec, h, k);
      FitsIsWithinLimits(codec, h[k..], limits, now);
    }
  }

  /** What a bucket takes of a batch, it takes in the batch's order. */
  lemma {:induction false} AtHeightAppend(a: seq<Entry>, b: seq<Entry>, h: nat)
    ensures AtHeight(a + b, h) == AtHeight(a, h) + AtHeight(b, h)
  {
    if a == [] {
      assert a + b == b;
    } else {
      assert (a + b)[1..] == a[1..] + b;
      AtHeightAppend(a[1..], b, h);
    }
  }

  /** A batch becomes a bucket at the height of its first block-scoped update. */
  lemma {:induction false} FirstHeightIsFirst(es: seq<Entry>, i: nat)
    requires i < |es| && BlockHeight(es[i].message).Some?
    requires forall k :: 0 <= k < i ==> BlockHeight(es[k].message).None?
    ensures FirstHeight(es) == BlockHeight(es[i].message)
  {
    hide BlockHeight;
    if i == 0 {
    } else {
      FirstHeightIsFirst(es[1..], i - 1);
    }
  }

  // ---------- what a range request can rely on ----------

  ghost predicate NonDecreasing(h: seq<Bucket>) {
    forall i, j :: 0 <= i < j < |h| ==> h[i].height <= h[j].height
  }

  lemma {:induction false} InReplayed(bs: seq<Bucket>, from: nat, u: SubscribeUpdate)
    ensures u in Replayed(bs, from) <==> exists b :: b in bs && b.height >= from && u in Messages(b.updates)
  {
    if bs == [] {
    } else {
      assert bs == [bs[0]] + bs[1..];
      InReplayed(bs[1..], from, u);
      if u in Replayed(bs, from) && !(bs[0].height >= from && u in Messages(bs[0].updates)) {
        assert u in Replayed(bs[1..], from);
        var b :| b in bs[1..] && b.height >= from && u in Messages(b.updates);
        assert b in bs;
      }
    }
  }

  /** FIFO whatever the clock does: the buckets are a suffix of everything pushed. */
  lemma {:induction false} RunIsSuffix(limits: Limits, ops: seq<Op>)
    ensures var w, h := Run(limits, ops), History(ops); |w| <= |h| && w == h[|h| - |w|..]
  {
    if limits.heights == 0 {
      DisabledIsEmpty(limits, ops);
    } else if ops != [] {
      var rest := ops[..|ops| - 1];
      var w, h, e := Run(limits, rest), History(rest), Appended(ops);
      RunIsSuffix(limits, rest);
      OneOperation(limits, ops);
      KeptIsSuffix(w + e, limits, ops[|ops| - 1].now);
      SuffixAppend(h, e, |h| - |w|);
      SuffixSuffix(h + e, |h| - |w|, |w + e| - |Run(limits, ops)|);
    }
  }

  /** When heights never went down, a successful range request from `h` omits nothing above `h` that was
      ever pushed, and nothing at `h` either when `h` exceeds the first available height. */
  lemma RangeComplete(limits: Limits, ops: seq<Op>, h: nat, b: Bucket, u: SubscribeUpdate)
    requires NonDecreasing(History(ops))
    requires SnapshotOf(Run(limits, ops), Some(h)).Ok?
    requires b in History(ops) && u in Messages(b.updates)
    requires b.height > h || (b.height == h && h > FirstAvailable(Run(limits, ops)).value)
    ensures u in SnapshotOf(Run(limits, ops), Some(h)).value.updates
  {
    var window := Run(limits, ops);
    RunIsSuffix(limits, ops);
    hide Run, History, FirstAvailable, Messages;
    RetainedAbove(History(ops), |History(ops)| - |window|, h, b);
    InReplayed(window, h, u);
    hide Replayed;
  }

  lemma RetainedAbove(history: seq<Bucket>, drop: nat, h: nat, b: Bucket)
    requires NonDecreasing(history) && drop < |history| && b in history
    requires FirstAvailable(history[drop..]).value <= h
    requires b.height > h || (b.height == h && h > FirstAvailable(history[drop..]).value)
    ensures b in history[drop..]
  {
    var window := history[drop..];
    var first :| first in window && first.height == FirstAvailable(window).value;
    var k :| 0 <= k < |window| && window[k] == first;
    var i :| 0 <= i < |history| && history[i] == b;
    assert history[drop + k] == first;
    assert i >= drop;
    assert window[i - drop] == b;
  }

  /** A range request fails exactly when the window is empty or lies wholly above the request. */
  lemma RangeFailure(window: seq<Bucket>, h: nat)
    ensures SnapshotOf(window, Some(h)) == Err(OutOfRange) <==> forall b :: b in window ==> h < b.height
  {
    if window != [] {
      var first := FirstAvailable(window).value;
      var b :| b in window && b.height == first;
      forall c | c in window ensures first <= c.height {
        assert c.height in Heights(window);
      }
    } else {
      assert forall b :: b !in window;
    }
  }

  lemma ReplayedFirst(bs: seq<Bucket>, from: nat)
    requires bs != []
    ensures Replayed(bs, from)
            == (if bs[0].height >= from then Messages(bs[0].updates) else []) + Replayed(bs[1..], from)
  {
  }

  lemma {:induction false} ReplayedAppend(a: seq<Bucket>, b: seq<Bucket>, from: nat)
    ensures Replayed(a + b, from) == Replayed(a, from) + Replayed(b, from)
  {
    if a == [] {
      assert a + b == b;
    } else {
      hide Messages, Replayed;
      ReplayedAppend(a[1..], b, from);
      assert (a + b)[0] == a[0] && (a + b)[1..] == a[1..] + b;
      ReplayedFirst(a, from);
      ReplayedFirst(a + b, from);
      var first := if a[0].height >= from then Messages(a[0].updates) else [];
      Regrouped(first, Replayed(a[1..], from), Replayed(b, from));
    }
  }

  lemma Regrouped<T>(a: seq<T>, b: seq<T>, c: seq<T>)
    ensures a + b + c == a + (b + c)
  {
  }

  ghost predicate NonemptyBuckets(bs: seq<Bucket>) {
    forall i :: 0 <= i < |bs| ==> bs[i].updates != []
  }

  /** Nothing is replayed of buckets that all lie below the height, and something otherwise. */
  lemma {:induction false} ReplayedNothing(bs: seq<Bucket>, from: nat)
    requires NonemptyBuckets(bs)
    ensures Replayed(bs, from) == [] <==> forall i :: 0 <= i < |bs| ==> bs[i].height < from
  {
    if bs == [] {
    } else {
      ReplayedNothing(bs[1..], from);
      assert forall i :: 1 <= i < |bs| ==> bs[i] == bs[1..][i - 1];
      assert |Messages(bs[0].updates)| > 0;
    }
  }

  lemma {:induction false} HistoryNonempty(ops: seq<Op>)
    ensures NonemptyBuckets(History(ops))
  {
    if ops == [] {
    } else {
      HistoryNonempty(ops[..|ops| - 1]);
      if ops[|ops| - 1].Push? {
        var es := ops[|ops| - 1].updates;
        if FirstHeight(es).Some? {
          var e :| e in es && BlockHeight(e.message) == FirstHeight(es);
          assert e in AtHeight(es, FirstHeight(es).value);
        }
      }
    }
  }

  /** How many buckets of the history have been evicted. */
  function Evicted(limits: Limits, ops: seq<Op>): (r: int) {
    |History(ops)| - |Run(limits, ops)|
  }

  /** Exactly when an accepted range request returns everything at or above its height that was ever pushed: when
      every evicted bucket lies below it. With heights that never went down that is a question about the last evicted
      bucket alone. */
  lemma RangeCompleteExactly(limits: Limits, ops: seq<Op>, h: nat)
    requires SnapshotOf(Run(limits, ops), Some(h)).Ok?
    ensures var history, evicted := History(ops), Evicted(limits, ops);
            && 0 <= evicted < |history|
            && (SnapshotOf(Run(limits, ops), Some(h)).value.updates == Replayed(history, h)
                <==> forall i :: 0 <= i < evicted ==> history[i].height < h)
            && (NonDecreasing(history) ==>
                  (SnapshotOf(Run(limits, ops), Some(h)).value.updates == Replayed(history, h)
                   <==> evicted == 0 || history[evicted - 1].height < h))
  {
    var window, history := Run(limits, ops), History(ops);
    RunIsSuffix(limits, ops);
    HistoryNonempty(ops);
    hide Run, History, FirstAvailable, Replayed, Messages;
    var gone := history[..Evicted(limits, ops)];
    assert history == gone + window;
    ReplayedAppend(gone, window, h);
    ReplayedNothing(gone, h);
    assert SnapshotOf(window, Some(h)).value.updates == Replayed(window, h);
  }

  lemma SingleBucket(e: Entry, h: nat)
    requires BlockHeight(e.message) == Some(h)
    ensures BucketOf([e], 0) == [Bucket(h, 0, [e], e.encodedLen)]
  {
    assert [e][1..] == [];
    assert FirstHeight([e]) == Some(h);
    assert AtHeight([e], h) == [e];
    assert LengthSum([e]) == e.encodedLen;
  }

  /** A buffer with room for one event, holding no more than one. */
  predicate AtMostOne(bs: seq<Bucket>) {
    bs == [] || (|bs| == 1 && |bs[0].updates| == 1)
  }

  lemma LastOneKept(bs: seq<Bucket>, b: Bucket, limits: Limits)
    requires AtMostOne(bs) && |b.updates| == 1 && b.insertedAt == 0
    requires limits.heights > 0 && limits.events == 1 && limits.bytes >= b.bytes
    ensures Kept(bs + [b], limits, 0) == [b]
  {
    assert [b][1..] == [] && Heights([b]) == {b.height} && EventSum([b]) == 1 && ByteSum([b]) == b.bytes;
    if bs == [] {
      assert bs + [b] == [b];
    } else {
      assert (bs + [b])[1..] == [b] && EventSum(bs + [b]) == |bs[0].updates| + EventSum([b]);
    }
  }

  /** With room for one event, each push of one takes the place of what was there. */
  lemma PushReplaces(limits: Limits, ops: seq<Op>, e: Entry, h: nat)
    requires limits.heights > 0 && limits.events == 1 && limits.bytes >= e.encodedLen
    requires AtMostOne(Run(limits, ops)) && BlockHeight(e.message) == Some(h)
    ensures var b := Bucket(h, 0, [e], e.encodedLen);
            && Run(limits, ops + [Push([e], 0)]) == [b] && AtMostOne([b])
            && History(ops + [Push([e], 0)]) == History(ops) + [b]
  {
    var b, next := Bucket(h, 0, [e], e.encodedLen), ops + [Push([e], 0)];
    assert next[..|next| - 1] == ops;
    SingleBucket(e, h);
    LastOneKept(Run(limits, ops), b, limits);
    hide Run, History, Kept, BucketOf, AtMostOne;
    OneOperation(limits, next);
  }

  lemma NothingPushed(limits: Limits)
    ensures Run(limits, []) == [] && History([]) == [] && AtMostOne([])
  {
  }

  lemma TwoPushes(limits: Limits, x: Entry, y: Entry, a: Bucket, b: Bucket)
    requires limits.heights > 0 && limits.events == 1
    requires limits.bytes >= x.encodedLen && limits.bytes >= y.encodedLen
    requires BlockHeight(x.message) == Some(a.height) && a == Bucket(a.height, 0, [x], x.encodedLen)
    requires BlockHeight(y.message) == Some(b.height) && b == Bucket(b.height, 0, [y], y.encodedLen)
    ensures var ops := [Push([x], 0), Push([y], 0)];
            History(ops) == [a, b] && Run(limits, ops) == [b] && AtMostOne([b])
  {
    hide BlockHeight, Run, History, AtMostOne, Pushed, Kept;
    var p, q := Push([x], 0), Push([y], 0);
    assert [] + [p] == [p] && [p] + [q] == [p, q] && [] + [a] == [a] && [a] + [b] == [a, b];
    NothingPushed(limits);
    PushReplaces(limits, [], x, a.height);
    PushReplaces(limits, [p], y, b.height);
  }

  /** At the first available height itself the range may be incomplete: eviction drops whole buckets, and an older
      bucket of that same height may be gone although the request succeeds. Here the second update of a height
      exceeds the event limit. */
  lemma BoundaryHeightMayBeIncomplete(limits: Limits, first: Entry, second: Entry, h: nat)
    requires limits.heights > 0 && limits.events == 1
    requires limits.bytes >= first.encodedLen && limits.bytes >= second.encodedLen
    requires first.message != second.message
    requires BlockHeight(first.message) == Some(h) && BlockHeight(second.message) == Some(h)
    ensures var ops := [Push([first], 0), Push([second], 0)];
            var window := Run(limits, ops);
            && NonDecreasing(History(ops)) && Evicted(limits, ops) == 1 && History(ops)[0].height == h
            && SnapshotOf(window, Some(h)).Ok?
            && (exists b :: b in History(ops) && b.height == h && first.message in Messages(b.updates))
            && first.message !in SnapshotOf(window, Some(h)).value.updates
  {
    hide Run, History, SnapshotOf, Replayed, FirstAvailable, Messages;
    var a, b := Bucket(h, 0, [first], first.encodedLen), Bucket(h, 0, [second], second.encodedLen);
    TwoPushes(limits, first, second, a, b);
    OnlyOne(b, second.message);
    OneSnapshot(b, second.message);
    FirstMessage(a.updates);
    assert [a, b][0] == a && [a, b][1] == b;
  }

  lemma FirstMessage(es: seq<Entry>)
    requires es != []
    ensures es[0].message in Messages(es)
  {
    assert Messages(es)[0] == es[0].message;
  }

  lemma OneSnapshot(b: Bucket, v: SubscribeUpdate)
    requires FirstAvailable([b]) == Some(b.height) && Replayed([b], b.height) == [v]
    ensures SnapshotOf([b], Some(b.height)).Ok? && SnapshotOf([b], Some(b.height)).value.updates == [v]
  {
    hide FirstAvailable, Replayed;
  }

  lemma OnlyOne(b: Bucket, v: SubscribeUpdate)
    requires |b.updates| == 1 && b.updates[0].message == v
    ensures FirstAvailable([b]) == Some(b.height) && Replayed([b], b.height) == [v]
  {
    assert b.height in Heights([b]);
    assert [b][1..] == [];
    assert Messages(b.updates) == [v];
  }
}
