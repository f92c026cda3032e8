// The bounded replay buffer: a FIFO of per-event buckets under four limits at once.
module Replay {
  import opened Proto

  /** A published update with its cached encoded length. */
  datatype Entry = Entry(message: SubscribeUpdate, encodedLen: nat)

  datatype Limits = Limits(heights: nat, events: nat, bytes: nat, maxAge: Option<nat>)

  datatype Bucket = Bucket(height: nat, insertedAt: nat, updates: seq<Entry>, bytes: nat)

  /** What a subscriber gets from the buffer: the replayed updates and the last buffered sequence number. */
  datatype ReplaySnapshot = ReplaySnapshot(updates: seq<SubscribeUpdate>, watermark: nat)

  // ---------- measures of a window ----------

  function Heights(bs: seq<Bucket>): (r: set<nat>) {
    set b | b in bs :: b.height
  }

  function EventSum(bs: seq<Bucket>): (r: nat) {
    if bs == [] then 0 else |bs[0].updates| + EventSum(bs[1..])
  }

  function ByteSum(bs: seq<Bucket>): (r: nat) {
    if bs == [] then 0 else bs[0].bytes + ByteSum(bs[1..])
  }

  /** One more bucket at a height. */
  function Bumped(counts: map<nat, nat>, h: nat): (r: map<nat, nat>) {
    counts[h := (if h in counts then counts[h] else 0) + 1]
  }

  /** How many buckets there are at each height that has any. */
  function Counts(bs: seq<Bucket>): (r: map<nat, nat>)
    ensures forall h :: h in r ==> r[h] > 0
  {
    if bs == [] then map[] else Bumped(Counts(bs[1..]), bs[0].height)
  }

  predicate Expired(b: Bucket, limits: Limits, now: nat) {
    limits.maxAge.Some? && now - b.insertedAt > limits.maxAge.value
  }

  predicate Oversized(bs: seq<Bucket>, limits: Limits) {
    |Heights(bs)| > limits.heights || EventSum(bs) > limits.events || ByteSum(bs) > limits.bytes
  }

  /** The exit test of the eviction loop: only the front bucket's age is looked at. */
  predicate Stays(bs: seq<Bucket>, limits: Limits, now: nat) {
    (bs == [] || !Expired(bs[0], limits, now)) && !Oversized(bs, limits)
  }

  /** All four limits hold, the age limit for every bucket. */
  ghost predicate Fits(bs: seq<Bucket>, limits: Limits, now: nat) {
    (forall b :: b in bs ==> !Expired(b, limits, now)) && !Oversized(bs, limits)
  }

  /** What the eviction loop leaves. */
  function Kept(bs: seq<Bucket>, limits: Limits, now: nat): (r: seq<Bucket>) {
    if bs == [] || Stays(bs, limits, now) then bs else Kept(bs[1..], limits, now)
  }

  // ---------- a batch as a bucket ----------

  function FirstHeight(es: seq<Entry>): (r: Option<nat>)
    ensures r.None? <==> forall e :: e in es ==> BlockHeight(e.message).None?
    ensures r.Some? ==> exists e :: e in es && BlockHeight(e.message) == r
  {
    if es == [] then
      None
    else
      assert es == [es[0]] + es[1..];
      if BlockHeight(es[0].message).Some? then BlockHeight(es[0].message) else FirstHeight(es[1..])
  }

  function AtHeight(es: seq<Entry>, h: nat): (r: seq<Entry>)
    ensures forall e :: e in r <==> e in es && BlockHeight(e.message) == Some(h)
  {
    if es == [] then
      []
    else
      assert es == [es[0]] + es[1..];
      (if BlockHeight(es[0].message) == Some(h) then [es[0]] else []) + AtHeight(es[1..], h)
  }

  function LengthSum(es: seq<Entry>): (r: nat) {
    if es == [] then 0 else es[0].encodedLen + LengthSum(es[1..])
  }

  /** The bucket that a batch becomes, if it has a block-scoped update. */
  function BucketOf(es: seq<Entry>, now: nat): (r: seq<Bucket>)
    ensures |r| <= 1
  {
    match FirstHeight(es)
    case None => []
    case Some(h) =>
      var kept := AtHeight(es, h);
      [Bucket(h, now, kept, LengthSum(kept))]
  }

  /** The window after a batch; a zero height capacity disables the buffer. */
  function Pushed(bs: seq<Bucket>, limits: Limits, es: seq<Entry>, now: nat): (r: seq<Bucket>) {
    if limits.heights == 0 then bs else Kept(bs + BucketOf(es, now), limits, now)
  }

  // ---------- reading the window ----------

  function Smallest(s: set<nat>): (r: Option<nat>)
    ensures r.None? <==> s == {}
    ensures r.Some? ==> r.value in s && forall x :: x in s ==> r.value <= x
  {
    if s == {} then
      None
    else
      SmallestExists(s);
      var m :| m in s && forall x :: x in s ==> m <= x;
      Some(m)
  }

  lemma SmallestExists(s: set<nat>)
    requires s != {}
    ensures exists m :: m in s && forall x :: x in s ==> m <= x
  {
    var m := SmallestOf(s);
  }

  lemma {:induction false} SmallestOf(s: set<nat>) returns (m: nat)
    requires s != {}
    ensures m in s && forall x :: x in s ==> m <= x
  {
    m :| m in s;
    if s != {m} {
      var k := SmallestOf(s - {m});
      assert forall x :: x in s ==> x == m || x in s - {m};
      m := if m < k then m else k;
    }
  }

  function FirstAvailable(bs: seq<Bucket>): (r: Option<nat>)
    ensures r.None? <==> bs == []
  {
    assert bs != [] ==> bs[0].height in Heights(bs);
    Smallest(Heights(bs))
  }

  function Messages(es: seq<Entry>): (r: seq<SubscribeUpdate>)
    ensures |r| == |es|
    ensures forall i :: 0 <= i < |r| ==> r[i] == es[i].message
  {
    seq(|es|, i requires 0 <= i < |es| => es[i].message)
  }

  /** Every update of every bucket at or above a height, in buffer order. */
  function Replayed(bs: seq<Bucket>, from: nat): (r: seq<SubscribeUpdate>) {
    if bs == [] then
      []
    else
      (if bs[0].height >= from then Messages(bs[0].updates) else []) + Replayed(bs[1..], from)
  }

  function Watermark(bs: seq<Bucket>): (r: nat) {
    if bs == [] || bs[|bs| - 1].updates == [] then
      0
    else
      var last := bs[|bs| - 1].updates;
      last[|last| - 1].message.sequence
  }

  function SnapshotOf(bs: seq<Bucket>, from: Option<nat>): (r: Result<ReplaySnapshot, Code>) {
    if from.Some? && (bs == [] || from.value < FirstAvailable(bs).value) then
      Err(OutOfRange)
    else
      Ok(ReplaySnapshot(if from.Some? then Replayed(bs, from.value) else [], Watermark(bs)))
  }

  /** A bucket that proves the checkpoint: its height, and a finalized block with its hash. */
  predicate Proves(b: Bucket, checkpoint: ResumeCheckpoint) {
    && b.height == checkpoint.finalizedHeight
    && exists e :: e in b.updates && IsFinalizedBlock(e.message, checkpoint.finalizedHash)
  }

  predicate IsFinalizedBlock(u: SubscribeUpdate, hash: Text) {
    u.update.Some? && u.update.value.Block? && u.update.value.finalized && u.update.value.hash == hash
  }

  function Verified(bs: seq<Bucket>, checkpoint: ResumeCheckpoint): (r: Result<(), Code>) {
    if exists b :: b in bs && Proves(b, checkpoint) then
      Ok(())
    else if checkpoint.finalizedHeight in Heights(bs) then
      Err(FailedPrecondition)
    else
      Err(OutOfRange)
  }

  // ---------- the buffer object ----------

  class ReplayBuffer {
    const limits: Limits
    var buckets: seq<Bucket>
    var heightCounts: map<nat, nat>
    var eventCount: nat
    var encodedBytes: nat

    /** The redundant counters agree with the deque. */
    ghost predicate Valid()
      reads this
    {
      && heightCounts == Counts(buckets)
      && eventCount == EventSum(buckets)
      && encodedBytes == ByteSum(buckets)
    }

    constructor (limits: Limits)
      ensures Valid() && buckets == [] && this.limits == limits
    {
      this.limits := limits;
      buckets, heightCounts, eventCount, encodedBytes := [], map[], 0, 0;
    }

    method PushBatchAt(updates: seq<Entry>, now: nat)
      requires Valid()
      modifies this
      ensures Valid()
      ensures buckets == Pushed(old(buckets), limits, updates, now)
    {
      if limits.heights == 0 {
        return;
      }
      var first := FirstHeight(updates);
      if first.None? {
        assert buckets + BucketOf(updates, now) == buckets;
        Evict(now);
        return;
      }
      var height := first.value;
      var replayUpdates := AtHeight(updates, height);
      var bytes := LengthSum(replayUpdates);
      var bucket := Bucket(height, now, replayUpdates, bytes);
      AppendMeasures(buckets, bucket);
      heightCounts := heightCounts[height := (if height in heightCounts then heightCounts[height] else 0) + 1];
      eventCount := eventCount + |replayUpdates|;
      encodedBytes := encodedBytes + bytes;
      buckets := buckets + [bucket];
      Evict(now);
    }

    /** Evicts from the front until no limit is exceeded. That the counters agree with the deque
        is what makes the loop end: an empty deque has nothing left to exceed. */
    method Evict(now: nat)
      requires Valid()
      modifies this
      ensures Valid()
      ensures buckets == Kept(old(buckets), limits, now)
      ensures Stays(buckets, limits, now)
    {
      KeptStays(buckets, limits, now);
      while (|buckets| > 0 && Expired(buckets[0], limits, now))
            || |heightCounts| > limits.heights
            || eventCount > limits.events
            || encodedBytes > limits.bytes
        invariant Valid()
        invariant Kept(buckets, limits, now) == Kept(old(buckets), limits, now)
        decreases |buckets|
      {
        CountsKeys(buckets);
        EvictFront();
      }
      CountsKeys(buckets);
    }

    method EvictFront()
      requires Valid()
      modifies this
      ensures Valid()
      ensures buckets == if old(buckets) == [] then [] else old(buckets)[1..]
    {
      if |buckets| == 0 {
        return;
      }
      var bucket := buckets[0];
      ghost var rest := Counts(buckets[1..]);
      assert heightCounts == Bumped(rest, bucket.height);
      DropUndoesBump(rest, bucket.height);
      buckets := buckets[1..];
      eventCount := SatSub(eventCount, |bucket.updates|);
      encodedBytes := SatSub(encodedBytes, bucket.bytes);
      if bucket.height in heightCounts {
        heightCounts := heightCounts[bucket.height := SatSub(heightCounts[bucket.height], 1)];
        if heightCounts[bucket.height] == 0 {
          heightCounts := map h | h in heightCounts && h != bucket.height :: heightCounts[h];
        }
      }
    }

    method Snapshot(from: Option<nat>, now: nat) returns (r: Result<ReplaySnapshot, Code>)
      requires Valid()
      modifies this
      ensures Valid()
      ensures buckets == Kept(old(buckets), limits, now)
      ensures r == SnapshotOf(buckets, from)
    {
      Evict(now);
      CountsKeys(buckets);
      var available := Smallest(heightCounts.Keys);
      assert available == FirstAvailable(buckets);
      if from.Some? {
        match available {
          case Some(first) =>
            if from.value < first {
              return Err(OutOfRange);
            }
          case None =>
            return Err(OutOfRange);
        }
      }
      var watermark := 0;
      if |buckets| > 0 {
        var last := buckets[|buckets| - 1].updates;
        if |last| > 0 {
          watermark := last[|last| - 1].message.sequence;
        }
      }
      assert watermark == Watermark(buckets);
      r := Ok(ReplaySnapshot(if from.Some? then Replayed(buckets, from.value) else [], watermark));
    }

    /** Looks for a bucket that proves the checkpoint, then for any bucket at its height. */
    method VerifyCheckpoint(checkpoint: ResumeCheckpoint) returns (r: Result<(), Code>)
      ensures r == Verified(buckets, checkpoint)
    {
      for i := 0 to |buckets|
        invariant forall j :: 0 <= j < i ==> !Proves(buckets[j], checkpoint)
      {
        if Proves(buckets[i], checkpoint) {
          return Ok(());
        }
      }
      for i := 0 to |buckets|
        invariant forall j :: 0 <= j < i ==> buckets[j].height != checkpoint.finalizedHeight
      {
        if buckets[i].height == checkpoint.finalizedHeight {
          return Err(FailedPrecondition);
        }
      }
      return Err(OutOfRange);
    }
  }

  // ---------- lemmas on the measures ----------

  lemma {:induction false} AppendMeasures(bs: seq<Bucket>, b: Bucket)
    ensures EventSum(bs + [b]) == EventSum(bs) + |b.updates|
    ensures ByteSum(bs + [b]) == ByteSum(bs) + b.bytes
    ensures Counts(bs + [b]) == Bumped(Counts(bs), b.height)
  {
    if bs == [] {
    } else {
      assert (bs + [b])[0] == bs[0] && (bs + [b])[1..] == bs[1..] + [b];
      AppendMeasures(bs[1..], b);
      BumpsCommute(Counts(bs[1..]), bs[0].height, b.height);
    }
  }

  lemma BumpsCommute(counts: map<nat, nat>, h: nat, k: nat)
    ensures Bumped(Bumped(counts, h), k) == Bumped(Bumped(counts, k), h)
  {
  }

  /** The distinct heights are counted by the size of the map. */
  lemma {:induction false} CountsKeys(bs: seq<Bucket>)
    ensures Counts(bs).Keys == Heights(bs)
    ensures |Counts(bs)| == |Heights(bs)|
  {
    assert |Counts(bs)| == |Counts(bs).Keys|;
    if bs == [] {
    } else {
      CountsKeys(bs[1..]);
      HeightsFront(bs);
    }
  }

  lemma HeightsFront(bs: seq<Bucket>)
    requires bs != []
    ensures Heights(bs) == Heights(bs[1..]) + {bs[0].height}
  {
    assert bs == [bs[0]] + bs[1..];
  }

  lemma DropUndoesBump(counts: map<nat, nat>, h: nat)
    requires forall k :: k in counts ==> counts[k] > 0
    ensures var up := Bumped(counts, h);
            counts == if up[h] == 1 then map k | k in up && k != h :: up[k] else up[h := up[h] - 1]
  {
  }

  lemma {:induction false} KeptStays(bs: seq<Bucket>, limits: Limits, now: nat)
    ensures Stays(Kept(bs, limits, now), limits, now)
  {
    if bs != [] && !Stays(bs, limits, now) {
      KeptStays(bs[1..], limits, now);
    }
  }

  /** FIFO: the loop leaves a suffix. */
  lemma {:induction false} KeptIsSuffix(bs: seq<Bucket>, limits: Limits, now: nat)
    ensures var r := Kept(bs, limits, now); |r| <= |bs| && r == bs[|bs| - |r|..]
  {
    if bs != [] && !Stays(bs, limits, now) {
      KeptIsSuffix(bs[1..], limits, now);
    }
  }
}
