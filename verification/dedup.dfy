// Client-side suppression of replayed events, bounded by a number of block heights.
module Dedup {
  import opened Proto

  type EventKey = (Bytes, nat)

  datatype HeightBucket = HeightBucket(height: nat, keys: seq<EventKey>)

  datatype State = State(seen: set<EventKey>, heights: seq<HeightBucket>, retention: nat)

  function EventKeyOf(u: SubscribeUpdate): (k: EventKey) {
    (u.session, u.sequence)
  }

  /** The same event of the same server session. */
  predicate SameEvent(u: SubscribeUpdate, v: SubscribeUpdate) {
    u.session == v.session && u.sequence == v.sequence
  }

  lemma SameKeySameEvent(u: SubscribeUpdate, v: SubscribeUpdate)
    ensures EventKeyOf(u) == EventKeyOf(v) <==> SameEvent(u, v)
  {
  }

  /** Appends the key to the first bucket of its height, or to a new last bucket. */
  function Filed(hs: seq<HeightBucket>, height: nat, key: EventKey): (r: seq<HeightBucket>) {
    if hs == [] then
      [HeightBucket(height, [key])]
    else if hs[0].height == height then
      [HeightBucket(height, hs[0].keys + [key])] + hs[1..]
    else
      [hs[0]] + Filed(hs[1..], height, key)
  }

  lemma FiledFrom(hs: seq<HeightBucket>, i: nat, height: nat, key: EventKey)
    requires i <= |hs|
    ensures Filed(hs[i..], height, key)
            == if i == |hs| then [HeightBucket(height, [key])]
               else if hs[i].height == height then [HeightBucket(height, hs[i].keys + [key])] + hs[i + 1..]
               else [hs[i]] + Filed(hs[i + 1..], height, key)
  {
    if i < |hs| {
      assert hs[i..][1..] == hs[i + 1..];
    }
  }

  function Keys(b: HeightBucket): (r: set<EventKey>) {
    set k | k in b.keys
  }

  /** Drops front buckets, and forgets their keys, while there are too many. */
  function Trimmed(d: State): (r: State)
    decreases |d.heights|
  {
    if |d.heights| <= d.retention then
      d
    else
      Trimmed(State(d.seen - Keys(d.heights[0]), d.heights[1..], d.retention))
  }

  function Accepts(d: State, u: SubscribeUpdate): (r: bool) {
    BlockHeight(u).None? || d.retention == 0 || EventKeyOf(u) !in d.seen
  }

  function Observed(d: State, u: SubscribeUpdate): (r: State) {
    if BlockHeight(u).None? || d.retention == 0 || EventKeyOf(u) in d.seen then
      d
    else
      Trimmed(State(d.seen + {EventKeyOf(u)}, Filed(d.heights, BlockHeight(u).value, EventKeyOf(u)), d.retention))
  }

  class DedupState {
    var seen: set<EventKey>
    var heights: seq<HeightBucket>
    const retention: nat

    function Value(): (d: State)
      reads this
    {
      State(seen, heights, retention)
    }

    constructor (retention: nat)
      ensures Value() == State({}, [], retention)
    {
      this.retention := retention;
      seen, heights := {}, [];
    }

    method Observe(u: SubscribeUpdate) returns (accepted: bool)
      modifies this
      ensures accepted == Accepts(old(Value()), u)
      ensures Value() == Observed(old(Value()), u)
    {
      var height := BlockHeight(u);
      if height.None? {
        return true;
      }
      if retention == 0 {
        return true;
      }
      var key := EventKeyOf(u);
      if key in seen {
        return false;
      }
      seen := seen + {key};
      FileKey(height.value, key);
      while |heights| > retention
        invariant Trimmed(Value()) == Observed(old(Value()), u)
        decreases |heights|
      {
        var bucket := heights[0];
        heights := heights[1..];
        seen := seen - Keys(bucket);
      }
      return true;
    }

    /** Finds the first bucket of the height and adds the key to it, or appends a bucket. */
    method FileKey(height: nat, key: EventKey)
      modifies `heights
      ensures heights == Filed(old(heights), height, key)
    {
      var i := 0;
      hide Filed;
      while i < |heights| && heights[i].height != height
        invariant 0 <= i <= |heights|
        invariant heights == old(heights)
        invariant Filed(heights, height, key) == heights[..i] + Filed(heights[i..], height, key)
      {
        FiledFrom(heights, i, height, key);
        assert heights[..i + 1] == heights[..i] + [heights[i]];
        i := i + 1;
      }
      FiledFrom(heights, i, height, key);
      if i < |heights| {
        var bucket := HeightBucket(height, heights[i].keys + [key]);
        assert Filed(heights[i..], height, key) == [bucket] + heights[i + 1..];
        assert Filed(heights, height, key) == heights[..i] + [bucket] + heights[i + 1..];
        heights := heights[..i] + [bucket] + heights[i + 1..];
      } else {
        assert heights[..i] == heights;
        heights := heights + [HeightBucket(height, [key])];
      }
    }
  }

  // ---------- runs ----------

  /** The state after a run, with what the run has done so far: the heights of all buckets ever created,
      in order, and for each key accepted the position of the bucket that took it last. */
  datatype Trace = Trace(state: State, created: seq<nat>, slot: map<EventKey, int>)

  /** The position of the first bucket of a height, or the number of buckets. */
  function Position(hs: seq<HeightBucket>, height: nat): (r: nat)
    ensures r <= |hs|
    ensures r < |hs| ==> hs[r].height == height
    ensures forall i :: 0 <= i < r ==> hs[i].height != height
  {
    if hs == [] || hs[0].height == height then 0 else 1 + Position(hs[1..], height)
  }

  function Stepped(t: Trace, u: SubscribeUpdate): (r: Trace) {
    var after := Observed(t.state, u);
    if BlockHeight(u).None? || t.state.retention == 0 || EventKeyOf(u) in t.state.seen then
      Trace(after, t.created, t.slot)
    else
      var height := BlockHeight(u).value;
      var at := Position(t.state.heights, height);
      var created := if at < |t.state.heights| then t.created else t.created + [height];
      Trace(after, created, t.slot[EventKeyOf(u) := |t.created| - |t.state.heights| + at])
  }

  function Run(retention: nat, us: seq<SubscribeUpdate>): (r: Trace) {
    if us == [] then Trace(State({}, [], retention), [], map[])
      else Stepped(Run(retention, us[..|us| - 1]), us[|us| - 1])
  }

  // ---------- what every run keeps ----------

  /** How many created buckets have been dropped. */
  function Dropped(t: Trace): (r: int) {
    |t.created| - |t.state.heights|
  }

  /** The deque holds the last buckets created, from position `d` on. */
  ghost predicate Aligned(hs: seq<HeightBucket>, created: seq<nat>, d: int) {
    && 0 <= d && d + |hs| == |created|
    && forall p :: 0 <= p < |hs| ==> hs[p].height == created[d + p]
  }

  /** Each key sits in one bucket, the one recorded for it, and nowhere else; it was recorded in a bucket
      that is still held exactly when it is in `seen`. */
  ghost predicate Filing(hs: seq<HeightBucket>, slot: map<EventKey, int>, seen: set<EventKey>, d: int) {
    && (forall p, k :: 0 <= p < |hs| && k in hs[p].keys ==> k in slot && slot[k] == d + p)
    && (forall k :: k in slot ==> 0 <= slot[k] < d + |hs|)
    && (forall k :: k in slot && d <= slot[k] ==> k in hs[slot[k] - d].keys)
    && (forall k :: k in seen <==> k in slot && d <= slot[k])
  }

  ghost predicate NoRepeats(hs: seq<HeightBucket>) {
    forall p :: 0 <= p < |hs| ==> Distinct(hs[p].keys)
  }

  /** What a run keeps. Any retention + 1 buckets created in a row have distinct heights. `room` is the
      retention, or one more before trimming. */
  ghost predicate Consistent(t: Trace, room: nat) {
    && |t.state.heights| <= room
    && (Dropped(t) > 0 ==> |t.state.heights| >= t.state.retention)
    && Aligned(t.state.heights, t.created, Dropped(t))
    && Filing(t.state.heights, t.slot, t.state.seen, Dropped(t))
    && NoRepeats(t.state.heights)
    && SpreadOut(t.created, t.state.retention)
  }

  ghost predicate Distinct<T>(s: seq<T>) {
    forall i, j :: 0 <= i < j < |s| ==> s[i] != s[j]
  }

  ghost predicate SpreadOut(created: seq<nat>, retention: nat) {
    forall p, q :: 0 <= p < q < |created| && q <= p + retention ==> created[p] != created[q]
  }

  lemma {:induction false} FiledShape(hs: seq<HeightBucket>, height: nat, key: EventKey)
    ensures var at := Position(hs, height);
            Filed(hs, height, key) == if at < |hs| then hs[at := HeightBucket(height, hs[at].keys + [key])]
                                      else hs + [HeightBucket(height, [key])]
  {
    if hs != [] && hs[0].height != height {
      FiledShape(hs[1..], height, key);
      assert hs == [hs[0]] + hs[1..];
    }
  }

  /** The step before trimming. */
  function Grown(t: Trace, u: SubscribeUpdate): (r: Trace)
    requires BlockHeight(u).Some?
  {
    Stepped(t, u).(state := State(t.state.seen + {EventKeyOf(u)},
                                  Filed(t.state.heights, BlockHeight(u).value, EventKeyOf(u)), t.state.retention))
  }

  lemma FiledFiling(
    hs: seq<HeightBucket>, slot: map<EventKey, int>, seen: set<EventKey>, d: int, height: nat, key: EventKey)
    requires Filing(hs, slot, seen, d) && NoRepeats(hs) && key !in seen && 0 <= d
    ensures Filing(Filed(hs, height, key), slot[key := d + Position(hs, height)], seen + {key}, d)
    ensures NoRepeats(Filed(hs, height, key))
  {
    hide Filing, NoRepeats;
    FiledShape(hs, height, key);
    var at := Position(hs, height);
    if at < |hs| {
      AddToBucket(hs, slot, seen, d, at, key);
      assert Filed(hs, height, key) == hs[at := HeightBucket(hs[at].height, hs[at].keys + [key])];
    } else {
      AddBucket(hs, slot, seen, d, height, key);
      assert Filed(hs, height, key) == hs + [HeightBucket(height, [key])];
    }
  }

  lemma AddToBucket(
    hs: seq<HeightBucket>, slot: map<EventKey, int>, seen: set<EventKey>, d: int, at: nat, key: EventKey)
    requires Filing(hs, slot, seen, d) && NoRepeats(hs) && key !in seen && 0 <= d && at < |hs|
    ensures var gs := hs[at := HeightBucket(hs[at].height, hs[at].keys + [key])];
            Filing(gs, slot[key := d + at], seen + {key}, d) && NoRepeats(gs)
  {
    var gs, slot' := hs[at := HeightBucket(hs[at].height, hs[at].keys + [key])], slot[key := d + at];
    forall p, k | 0 <= p < |gs| && k in gs[p].keys ensures k in slot' && slot'[k] == d + p {
      assert k in hs[p].keys || (k == key && p == at);
    }
    forall k | k in slot' && d <= slot'[k] ensures k in gs[slot'[k] - d].keys {
      if k != key {
        assert k in hs[slot[k] - d].keys;
      }
    }
    assert key !in hs[at].keys;
  }

  lemma AddBucket(
    hs: seq<HeightBucket>, slot: map<EventKey, int>, seen: set<EventKey>, d: int, height: nat, key: EventKey)
    requires Filing(hs, slot, seen, d) && NoRepeats(hs) && key !in seen && 0 <= d
    ensures var gs := hs + [HeightBucket(height, [key])];
            Filing(gs, slot[key := d + |hs|], seen + {key}, d) && NoRepeats(gs)
  {
    var gs, slot' := hs + [HeightBucket(height, [key])], slot[key := d + |hs|];
    forall p, k | 0 <= p < |gs| && k in gs[p].keys ensures k in slot' && slot'[k] == d + p {
      assert p < |hs| ==> gs[p] == hs[p] && k in hs[p].keys;
    }
    forall k | k in slot' && d <= slot'[k] ensures k in gs[slot'[k] - d].keys {
      if k != key {
        assert k in hs[slot[k] - d].keys;
      }
    }
  }

  lemma NewBucketSpreadsOut(hs: seq<HeightBucket>, created: seq<nat>, d: int, retention: nat, height: nat)
    requires Aligned(hs, created, d) && SpreadOut(created, retention) && (d > 0 ==> |hs| >= retention)
    requires forall p :: 0 <= p < |hs| ==> hs[p].height != height
    ensures SpreadOut(created + [height], retention)
  {
    forall p | 0 <= p < |created| && |created| <= p + retention ensures created[p] != height {
      assert hs[p - d].height == created[d + (p - d)];
    }
  }

  lemma GrownShape(t: Trace, u: SubscribeUpdate)
    requires t.state.retention > 0 && BlockHeight(u).Some? && EventKeyOf(u) !in t.state.seen
    ensures var hs, g, at := t.state.heights, Grown(t, u), Position(t.state.heights, BlockHeight(u).value);
            && g.state == State(t.state.seen
               + {EventKeyOf(u)}, Filed(hs, BlockHeight(u).value, EventKeyOf(u)), t.state.retention)
            && g.created == (if at < |hs| then t.created else t.created + [BlockHeight(u).value])
            && g.slot == t.slot[EventKeyOf(u) := Dropped(t) + at]
            && |g.state.heights| == (if at < |hs| then |hs| else |hs| + 1)
            && Dropped(g) == Dropped(t)
  {
    FiledShape(t.state.heights, BlockHeight(u).value, EventKeyOf(u));
    hide Trimmed, Filed;
  }

  /** Filing a key keeps what the buckets and the record say of each other. */
  lemma FiledTracked(
    hs: seq<HeightBucket>, created: seq<nat>, slot: map<EventKey, int>, seen: set<EventKey>, d: int, retention: nat,
    height: nat, key: EventKey)
    requires Aligned(hs, created, d) && Filing(hs, slot, seen, d) && NoRepeats(hs) && SpreadOut(created, retention)
    requires (d > 0 ==> |hs| >= retention) && key !in seen
    ensures var at := Position(hs, height);
            var filed, created' := Filed(hs, height, key), if at < |hs| then created else created + [height];
            && Aligned(filed, created', d) && Filing(filed, slot[key := d + at], seen + {key}, d)
            && NoRepeats(filed) && SpreadOut(created', retention)
  {
    assert 0 <= d;
    hide Aligned, Filing, NoRepeats, SpreadOut, Filed;
    FiledFiling(hs, slot, seen, d, height, key);
    FiledAligned(hs, created, d, height, key);
    if Position(hs, height) == |hs| {
      NewBucketSpreadsOut(hs, created, d, retention, height);
    }
  }

  lemma GrownConsistent(t: Trace, u: SubscribeUpdate)
    requires Consistent(t, t.state.retention) && t.state.retention > 0
    requires BlockHeight(u).Some? && EventKeyOf(u) !in t.state.seen
    ensures Consistent(Grown(t, u), t.state.retention + 1)
  {
    hide Filing, NoRepeats, SpreadOut, Aligned, Grown, Filed, Dropped, Position, EventKeyOf, BlockHeight;
    GrownShape(t, u);
    FiledTracked(t.state.heights, t.created, t.slot, t.state.seen, Dropped(t), t.state.retention,
      BlockHeight(u).value, EventKeyOf(u));
  }

  lemma FiledAligned(hs: seq<HeightBucket>, created: seq<nat>, d: int, height: nat, key: EventKey)
    requires Aligned(hs, created, d)
    ensures Aligned(Filed(hs, height, key), if Position(hs, height) < |hs| then created else created + [height], d)
  {
    FiledShape(hs, height, key);
  }

  lemma TailFiling(hs: seq<HeightBucket>, slot: map<EventKey, int>, seen: set<EventKey>, d: int)
    requires Filing(hs, slot, seen, d) && |hs| > 0
    ensures Filing(hs[1..], slot, seen - Keys(hs[0]), d + 1)
  {
    forall k ensures k in seen - Keys(hs[0]) <==> k in slot && d + 1 <= slot[k] {
      if k in slot && slot[k] == d {
        assert k in hs[0].keys;
      }
    }
    forall k | k in slot && d + 1 <= slot[k] ensures k in hs[1..][slot[k] - (d + 1)].keys {
      assert hs[1..][slot[k] - (d + 1)] == hs[slot[k] - d];
    }
  }

  lemma TrimmedConsistent(t: Trace)
    requires Consistent(t, t.state.retention + 1)
    ensures Consistent(t.(state := Trimmed(t.state)), t.state.retention)
  {
    var hs := t.state.heights;
    hide Filing, SpreadOut, Keys;
    if |hs| > t.state.retention {
      var after := State(t.state.seen - Keys(hs[0]), hs[1..], t.state.retention);
      assert Trimmed(after) == after;
      TailFiling(hs, t.slot, t.state.seen, Dropped(t));
    }
  }

  lemma {:induction false} RunConsistent(retention: nat, us: seq<SubscribeUpdate>)
    requires retention > 0
    ensures Run(retention, us).state.retention == retention
    ensures Consistent(Run(retention, us), retention)
  {
    if us == [] {
    } else {
      var u := us[|us| - 1];
      var t := Run(retention, us[..|us| - 1]);
      RunConsistent(retention, us[..|us| - 1]);
      StepConsistent(t, u);
    }
  }

  lemma StepConsistent(t: Trace, u: SubscribeUpdate)
    requires Consistent(t, t.state.retention) && t.state.retention > 0
    ensures Consistent(Stepped(t, u), t.state.retention) && Stepped(t, u).state.retention == t.state.retention
  {
    if BlockHeight(u).Some? && EventKeyOf(u) !in t.state.seen {
      GrownConsistent(t, u);
      TrimmedConsistent(Grown(t, u));
      TrimmedRetention(Grown(t, u).state);
    }
  }

  lemma {:induction false} TrimmedRetention(d: State)
    ensures Trimmed(d).retention == d.retention
    decreases |d.heights|
  {
    if |d.heights| > d.retention {
      TrimmedRetention(State(d.seen - Keys(d.heights[0]), d.heights[1..], d.retention));
    }
  }

  /** Over any run, `seen` is the disjoint union of the buckets' keys, and the buckets' heights are distinct
      and at most `retention` in number. */
  lemma SeenIsDisjointUnion(retention: nat, us: seq<SubscribeUpdate>)
    requires retention > 0
    ensures var d := Run(retention, us).state;
            && |d.heights| <= retention
            && (forall k :: k in d.seen <==> exists p :: 0 <= p < |d.heights| && k in d.heights[p].keys)
            && (forall p, q, k :: 0 <= p < q < |d.heights| && k in d.heights[p].keys ==> k !in d.heights[q].keys)
            && (forall p :: 0 <= p < |d.heights| ==> Distinct(d.heights[p].keys))
            && (forall p, q :: 0 <= p < q < |d.heights| ==> d.heights[p].height != d.heights[q].height)
  {
    RunConsistent(retention, us);
    var t := Run(retention, us);
    DisjointUnion(t.state.heights, t.slot, t.state.seen, Dropped(t));
    forall p, q | 0 <= p < q < |t.state.heights| ensures t.state.heights[p].height != t.state.heights[q].height {
      var x, y := Dropped(t) + p, Dropped(t) + q;
      assert t.created[x] != t.created[y];
    }
  }

  lemma DisjointUnion(hs: seq<HeightBucket>, slot: map<EventKey, int>, seen: set<EventKey>, d: int)
    requires Filing(hs, slot, seen, d)
    ensures forall k :: k in seen <==> exists p :: 0 <= p < |hs| && k in hs[p].keys
    ensures forall p, q, k :: 0 <= p < q < |hs| && k in hs[p].keys ==> k !in hs[q].keys
  {
    forall k | k in seen ensures exists p :: 0 <= p < |hs| && k in hs[p].keys {
      assert k in hs[slot[k] - d].keys;
    }
    forall p, q, k | 0 <= p < q < |hs| && k in hs[p].keys ensures k !in hs[q].keys {
      assert slot[k] == d + p;
    }
  }

  /** Buckets are only ever added to the record, and a key's last bucket only moves on. */
  lemma StepGrows(t: Trace, u: SubscribeUpdate)
    requires Consistent(t, t.state.retention)
    ensures t.created <= Stepped(t, u).created
    ensures forall k :: k in t.slot ==> k in Stepped(t, u).slot && t.slot[k] <= Stepped(t, u).slot[k]
  {
    hide Observed, BlockHeight;
  }

  lemma {:induction false} RecordGrows(retention: nat, us: seq<SubscribeUpdate>, i: nat)
    requires retention > 0 && i <= |us|
    ensures Run(retention, us[..i]).created <= Run(retention, us).created
    ensures forall k :: k in Run(retention, us[..i]).slot ==>
              k in Run(retention, us).slot && Run(retention, us[..i]).slot[k] <= Run(retention, us).slot[k]
  {
    if i == |us| {
      assert us[..i] == us;
    } else {
      var rest := us[..|us| - 1];
      hide Stepped, Consistent;
      RecordGrows(retention, rest, i);
      RunConsistent(retention, rest);
      StepGrows(Run(retention, rest), us[|us| - 1]);
      assert rest[..i] == us[..i];
    }
  }

  /** A block-scoped key is accepted a second time only if at least `retention` buckets of other, pairwise
      distinct heights were created after the one that held it. */
  lemma ReacceptedOnlyAfterRetention(retention: nat, us: seq<SubscribeUpdate>, i: nat, j: nat)
    requires retention > 0 && i < j < |us|
    requires BlockHeight(us[i]).Some? && SameEvent(us[i], us[j]) && BlockHeight(us[j]).Some?
    requires Accepts(Run(retention, us[..i]).state, us[i])
    requires Accepts(Run(retention, us[..j]).state, us[j])
    ensures EventKeyOf(us[i]) in Run(retention, us[..i + 1]).slot
    ensures var held := Run(retention, us[..i + 1]).slot[EventKeyOf(us[i])];
            var created := Run(retention, us[..j]).created;
            && 0 <= held && held + retention < |created|
            && created[held] == BlockHeight(us[i]).value
            && Distinct(created[held..held + retention + 1])
  {
    SameKeySameEvent(us[i], us[j]);
    hide Run, Stepped, Filing, NoRepeats, Aligned;
    HeldAfter(retention, us, i);
    RecordBetween(retention, us, i, j);
    RunConsistent(retention, us[..j]);
    ForgottenAfterRetention(Run(retention, us[..j]), EventKeyOf(us[i]));
    SpreadDistinct(Run(retention, us[..j]).created, retention, Run(retention, us[..i + 1]).slot[EventKeyOf(us[i])]);
  }

  lemma HeldAfter(retention: nat, us: seq<SubscribeUpdate>, i: nat)
    requires retention > 0 && i < |us| && BlockHeight(us[i]).Some?
    requires Accepts(Run(retention, us[..i]).state, us[i])
    ensures var t := Run(retention, us[..i + 1]);
            && EventKeyOf(us[i]) in t.slot && 0 <= t.slot[EventKeyOf(us[i])] < |t.created|
            && t.created[t.slot[EventKeyOf(us[i])]] == BlockHeight(us[i]).value
  {
    assert us[..i + 1][..i] == us[..i];
    RunConsistent(retention, us[..i]);
    AcceptedSlot(Run(retention, us[..i]), us[i]);
  }

  lemma RecordBetween(retention: nat, us: seq<SubscribeUpdate>, i: nat, j: nat)
    requires retention > 0 && i < j <= |us|
    ensures Run(retention, us[..i + 1]).created <= Run(retention, us[..j]).created
    ensures forall k :: k in Run(retention, us[..i + 1]).slot ==>
              && k in Run(retention, us[..j]).slot
              && Run(retention, us[..i + 1]).slot[k] <= Run(retention, us[..j]).slot[k]
  {
    assert us[..j][..i + 1] == us[..i + 1];
    RecordGrows(retention, us[..j], i + 1);
  }

  /** A key on record that is not in `seen` was dropped with its bucket. */
  lemma ForgottenAfterRetention(t: Trace, key: EventKey)
    requires Consistent(t, t.state.retention)
    requires key in t.slot && key !in t.state.seen
    ensures 0 <= t.slot[key] && t.slot[key] + t.state.retention < |t.created|
    ensures Distinct(t.created[t.slot[key]..t.slot[key] + t.state.retention + 1])
  {
    SpreadDistinct(t.created, t.state.retention, t.slot[key]);
  }

  lemma SpreadDistinct(created: seq<nat>, retention: nat, held: int)
    requires SpreadOut(created, retention) && 0 <= held && held + retention < |created|
    ensures Distinct(created[held..held + retention + 1])
  {
    forall p, q | held <= p < q < held + retention + 1 ensures created[p] != created[q] {
      assert q <= p + retention;
    }
  }

  lemma AcceptedSlot(t: Trace, u: SubscribeUpdate)
    requires Consistent(t, t.state.retention) && t.state.retention > 0
    requires BlockHeight(u).Some? && EventKeyOf(u) !in t.state.seen
    ensures var s := Stepped(t, u);
            && EventKeyOf(u) in s.slot && 0 <= s.slot[EventKeyOf(u)] < |s.created|
            && s.created[s.slot[EventKeyOf(u)]] == BlockHeight(u).value
  {
  }

  function BlockHeights(us: seq<SubscribeUpdate>): (r: set<nat>) {
    set u | u in us && BlockHeight(u).Some? :: BlockHeight(u).value
  }

  // ---------- which keys come through again ----------

  /** A block-scoped update is accepted exactly when its key is not recorded, or as many buckets as the retention were
      created after the one that took the key last. */
  lemma AcceptedByRecord(retention: nat, us: seq<SubscribeUpdate>, u: SubscribeUpdate)
    requires retention > 0 && BlockHeight(u).Some?
    ensures var t := Run(retention, us);
            Accepts(t.state, u) <==> (EventKeyOf(u) in t.slot ==> t.slot[EventKeyOf(u)] + retention < |t.created|)
  {
    RunConsistent(retention, us);
    hide Run, Aligned, NoRepeats, SpreadOut;
  }

  /** It does happen: with one height retained, one update of another height makes the filter forget the first. */
  lemma ForgottenKeyComesThroughAgain(a: SubscribeUpdate, b: SubscribeUpdate)
    requires BlockHeight(a).Some? && BlockHeight(b).Some? && BlockHeight(a) != BlockHeight(b)
             && EventKeyOf(a) != EventKeyOf(b)
    ensures Accepts(Run(1, []).state, a)
    ensures Accepts(Run(1, [a, b]).state, a)
  {
    var ka, kb := EventKeyOf(a), EventKeyOf(b);
    var first := HeightBucket(BlockHeight(a).value, [ka]);
    var second := HeightBucket(BlockHeight(b).value, [kb]);
    assert [a][..0] == [] && [a, b][..1] == [a];
    FiledInNew(State({}, [], 1), a);
    assert Run(1, [a]).state == State({ka}, [first], 1);
    FiledInNew(State({ka}, [first], 1), b);
    assert [first] + [second] == [first, second] && [first, second][1..] == [second];
    assert Run(1, [a, b]).state == State({kb}, [second], 1);
  }

  /** An update at a height without a bucket gets a new last bucket, and the oldest one goes if there are too many. */
  lemma FiledInNew(d: State, u: SubscribeUpdate)
    requires BlockHeight(u).Some? && 0 < d.retention && |d.heights| <= d.retention && EventKeyOf(u) !in d.seen
    requires forall i :: 0 <= i < |d.heights| ==> d.heights[i].height != BlockHeight(u).value
    ensures var grown := d.heights + [HeightBucket(BlockHeight(u).value, [EventKeyOf(u)])];
            var seen := d.seen + {EventKeyOf(u)};
            Observed(d, u) == if |grown| <= d.retention then State(seen, grown, d.retention)
                              else State(seen - Keys(grown[0]), grown[1..], d.retention)
  {
    FiledLater(d.heights, BlockHeight(u).value, EventKeyOf(u));
    hide BlockHeight, EventKeyOf, Filed, Keys;
    var grown := d.heights + [HeightBucket(BlockHeight(u).value, [EventKeyOf(u)])];
    if |grown| > d.retention {
      var after := State(d.seen + {EventKeyOf(u)} - Keys(grown[0]), grown[1..], d.retention);
      assert Trimmed(after) == after;
    }
  }

  /** An update at the oldest bucket's height goes into that bucket. */
  lemma FiledInOldest(d: State, u: SubscribeUpdate)
    requires d.heights != [] && BlockHeight(u) == Some(d.heights[0].height)
    requires 0 < |d.heights| <= d.retention && EventKeyOf(u) !in d.seen
    ensures var b := HeightBucket(d.heights[0].height, d.heights[0].keys + [EventKeyOf(u)]);
            Observed(d, u) == State(d.seen + {EventKeyOf(u)}, [b] + d.heights[1..], d.retention)
  {
  }

  lemma RunStep(retention: nat, us: seq<SubscribeUpdate>, u: SubscribeUpdate)
    ensures Run(retention, us + [u]).state == Observed(Run(retention, us).state, u)
  {
    assert (us + [u])[..|us|] == us;
  }

  /** A height that no bucket has gets a new last bucket. */
  lemma {:induction false} FiledLater(hs: seq<HeightBucket>, height: nat, key: EventKey)
    requires forall i :: 0 <= i < |hs| ==> hs[i].height != height
    ensures Filed(hs, height, key) == hs + [HeightBucket(height, [key])]
  {
    if hs == [] {
    } else {
      FiledLater(hs[1..], height, key);
    }
  }

  // ---------- how many heights that takes ----------

  lemma {:induction false} RecordedHeights(retention: nat, us: seq<SubscribeUpdate>)
    requires retention > 0
    ensures forall h :: h in Run(retention, us).created ==> h in BlockHeights(us)
  {
    if us == [] {
    } else {
      var rest, u := us[..|us| - 1], us[|us| - 1];
      RecordedHeights(retention, rest);
      assert us == rest + [u];
      assert u in us;
      assert BlockHeights(rest) <= BlockHeights(us);
    }
  }

  /** The keys on record are those of the block-scoped events so far. */
  lemma {:induction false} RecordedKeys(retention: nat, us: seq<SubscribeUpdate>, k: EventKey)
    requires retention > 0
    ensures k in Run(retention, us).slot
            <==> exists i :: 0 <= i < |us| && BlockHeight(us[i]).Some? && EventKeyOf(us[i]) == k
  {
    if us == [] {
    } else {
      var rest, u := us[..|us| - 1], us[|us| - 1];
      RecordedKeys(retention, rest, k);
      RunConsistent(retention, rest);
      SlotAfter(Run(retention, rest), u, k);
      if i :| 0 <= i < |rest| && BlockHeight(rest[i]).Some? && EventKeyOf(rest[i]) == k {
        assert us[i] == rest[i];
      }
      assert Run(retention, us) == Stepped(Run(retention, rest), u);
    }
  }

  lemma SlotAfter(t: Trace, u: SubscribeUpdate, k: EventKey)
    requires Consistent(t, t.state.retention) && t.state.retention > 0
    ensures k in Stepped(t, u).slot <==> k in t.slot || (BlockHeight(u).Some? && EventKeyOf(u) == k)
  {
  }

  lemma {:induction false} DistinctSize(s: seq<nat>, bound: set<nat>)
    requires Distinct(s) && forall x :: x in s ==> x in bound
    ensures |s| <= |bound|
  {
    if s == [] {
    } else {
      var last := s[|s| - 1];
      assert last in bound;
      DistinctSize(s[..|s| - 1], bound - {last});
    }
  }

  /** Each bucket was created by an update of its height. */
  lemma {:induction false} CreatedBy(retention: nat, us: seq<SubscribeUpdate>, p: nat) returns (n: nat)
    requires retention > 0 && p < |Run(retention, us).created|
    ensures n < |us| && |Run(retention, us[..n]).created| == p
            && BlockHeight(us[n]) == Some(Run(retention, us).created[p])
  {
    hide Trimmed, Position;
    var rest := us[..|us| - 1];
    if p < |Run(retention, rest).created| {
      n := CreatedBy(retention, rest, p);
      assert rest[..n] == us[..n];
    } else {
      n := |rest|;
    }
  }

  /** Every bucket created after the first n updates is at the height of a later one. */
  lemma {:induction false} HeightsSince(retention: nat, us: seq<SubscribeUpdate>, n: nat)
    requires retention > 0 && n <= |us|
    ensures forall p :: |Run(retention, us[..n]).created| <= p < |Run(retention, us).created| ==>
              Run(retention, us).created[p] in BlockHeights(us[n..])
  {
    hide Trimmed, Position;
    if n == |us| {
      assert us[..n] == us;
    } else {
      var rest, u := us[..|us| - 1], us[|us| - 1];
      HeightsSince(retention, rest, n);
      assert rest[..n] == us[..n] && us[n..] == rest[n..] + [u];
      assert BlockHeights(rest[n..]) <= BlockHeights(us[n..]);
      assert u in us[n..];
    }
  }

  /** A key accepted at i and again at j: since some update of its height, at or before i, updates of more heights
      than the retention have come. */
  lemma ReacceptedAfterHeights(retention: nat, us: seq<SubscribeUpdate>, i: nat, j: nat)
    requires i < j < |us|
    requires BlockHeight(us[i]).Some? && SameEvent(us[i], us[j]) && BlockHeight(us[j]).Some?
    requires Accepts(Run(retention, us[..i]).state, us[i]) && Accepts(Run(retention, us[..j]).state, us[j])
    ensures exists s :: 0 <= s <= i && BlockHeight(us[s]) == BlockHeight(us[i]) && |BlockHeights(us[s..j])| > retention
  {
    hide Run, Accepts, BlockHeight, EventKeyOf;
    if retention == 0 {
      assert us[i] in us[i..j] && BlockHeight(us[i]).value in BlockHeights(us[i..j]);
    } else {
      ReacceptedOnlyAfterRetention(retention, us, i, j);
      var held := Run(retention, us[..i + 1]).slot[EventKeyOf(us[i])];
      var s := BucketCreated(retention, us, i, j);
      var created := Run(retention, us[..j]).created;
      hide BlockHeights;
      DistinctSize(created[held..held + retention + 1], BlockHeights(us[s..j]));
    }
  }

  /** The update that created the bucket which took the key at i: every bucket from that one on is at the height of
      some update from there on. */
  lemma BucketCreated(retention: nat, us: seq<SubscribeUpdate>, i: nat, j: nat) returns (s: nat)
    requires retention > 0 && i < j < |us| && BlockHeight(us[i]).Some?
    requires Accepts(Run(retention, us[..i]).state, us[i])
    ensures EventKeyOf(us[i]) in Run(retention, us[..i + 1]).slot
    ensures var held, created := Run(retention, us[..i + 1]).slot[EventKeyOf(us[i])], Run(retention, us[..j]).created;
            && s <= i && BlockHeight(us[s]) == BlockHeight(us[i]) && 0 <= held
            && forall p :: held <= p < |created| ==> created[p] in BlockHeights(us[s..j])
  {
    hide Run, Accepts, BlockHeight, EventKeyOf, BlockHeights;
    HeldAfter(retention, us, i);
    RecordBetween(retention, us, i, j);
    s := CreatedBy(retention, us[..i + 1], Run(retention, us[..i + 1]).slot[EventKeyOf(us[i])]);
    assert us[..i + 1][..s] == us[..s] == us[..j][..s] && us[..j][s..] == us[s..j];
    HeightsSince(retention, us[..j], s);
  }

  /** A block-scoped update is accepted exactly when the same event of the same session has not come yet, or as many
      buckets as the retention were created after the one that took it last. */
  lemma AcceptedExactly(retention: nat, us: seq<SubscribeUpdate>, u: SubscribeUpdate)
    requires retention > 0 && BlockHeight(u).Some?
    ensures var t := Run(retention, us);
            Accepts(t.state, u)
            <==> ((exists i :: 0 <= i < |us| && BlockHeight(us[i]).Some? && SameEvent(us[i], u)) ==>
                    EventKeyOf(u) in t.slot && t.slot[EventKeyOf(u)] + retention < |t.created|)
  {
    hide Run, Accepts, BlockHeight, EventKeyOf, SameEvent;
    AcceptedByRecord(retention, us, u);
    RecordedKeys(retention, us, EventKeyOf(u));
    forall i | 0 <= i < |us| ensures EventKeyOf(us[i]) == EventKeyOf(u) <==> SameEvent(us[i], u) {
      SameKeySameEvent(us[i], u);
    }
  }

  /** Whatever came before of other sessions or with other numbers, an event is let through the first time. So after a
      restart of the server, when its numbers begin again, nothing of the new session is taken for a duplicate. */
  lemma NewIsAccepted(retention: nat, us: seq<SubscribeUpdate>, u: SubscribeUpdate)
    requires forall i :: 0 <= i < |us| && BlockHeight(us[i]).Some? ==>
               !(us[i].session == u.session && us[i].sequence == u.sequence)
    ensures Accepts(Run(retention, us).state, u)
  {
    RetentionStays(retention, us);
    if retention > 0 && BlockHeight(u).Some? {
      AcceptedExactly(retention, us, u);
      hide Run, Accepts, BlockHeight;
    }
  }

  /** As long as no more heights than the retention have come since an update of an event's height, that event is
      accepted exactly when it has not come before. */
  lemma ExactlyOnceWithinRetention(retention: nat, us: seq<SubscribeUpdate>, j: nat)
    requires j < |us| && BlockHeight(us[j]).Some?
    requires forall i, s ::
               (0 <= s <= i < j && BlockHeight(us[i]).Some? && SameEvent(us[i], us[j])
                && BlockHeight(us[s]) == BlockHeight(us[i])) ==> |BlockHeights(us[s..j])| <= retention
    ensures Accepts(Run(retention, us[..j]).state, us[j])
            <==> !exists i :: 0 <= i < j && BlockHeight(us[i]).Some?
                              && us[i].session == us[j].session && us[i].sequence == us[j].sequence
  {
    if i :| 0 <= i < j && BlockHeight(us[i]).Some? && SameEvent(us[i], us[j]) {
      var first := FirstOf(us, us[j], i);
      NewIsAccepted(retention, us[..first], us[first]);
      if Accepts(Run(retention, us[..j]).state, us[j]) {
        ReacceptedAfterHeights(retention, us, first, j);
      }
    } else {
      NewIsAccepted(retention, us[..j], us[j]);
    }
  }

  lemma {:induction false} FirstOf(us: seq<SubscribeUpdate>, u: SubscribeUpdate, i: nat) returns (first: nat)
    requires i < |us| && BlockHeight(us[i]).Some? && SameEvent(us[i], u)
    ensures first <= i && BlockHeight(us[first]).Some? && SameEvent(us[first], u)
    ensures forall k :: 0 <= k < first && BlockHeight(us[k]).Some? ==> !SameEvent(us[k], u)
  {
    if k :| 0 <= k < i && BlockHeight(us[k]).Some? && SameEvent(us[k], u) {
      first := FirstOf(us, u, k);
    } else {
      first := i;
    }
  }

  lemma {:induction false} RetentionStays(retention: nat, us: seq<SubscribeUpdate>)
    ensures Run(retention, us).state.retention == retention
  {
    if us == [] {
    } else {
      var t, u := Run(retention, us[..|us| - 1]), us[|us| - 1];
      RetentionStays(retention, us[..|us| - 1]);
      TrimmedRetention(State(t.state.seen + {EventKeyOf(u)},
                             Filed(t.state.heights, if BlockHeight(u).Some? then BlockHeight(u).value
                               else 0, EventKeyOf(u)), retention));
    }
  }

  /** Two updates of different heights, with room for both. */
  lemma TwoFiled(a: SubscribeUpdate, b: SubscribeUpdate, retention: nat)
    requires BlockHeight(a).Some? && BlockHeight(b).Some? && BlockHeight(a) != BlockHeight(b) && retention >= 2
    requires EventKeyOf(a) != EventKeyOf(b)
    ensures Run(retention, [a, b]).state
            == State({EventKeyOf(a), EventKeyOf(b)},
                     [HeightBucket(BlockHeight(a).value, [EventKeyOf(a)]),
                       HeightBucket(BlockHeight(b).value, [EventKeyOf(b)])],
                     retention)
  {
    assert Run(retention, []).state == State({}, [], retention);
    assert [] + [a] == [a] && [a] + [b] == [a, b];
    hide Run, Observed, BlockHeight, EventKeyOf;
    RunStep(retention, [], a);
    FiledInNew(State({}, [], retention), a);
    var first := HeightBucket(BlockHeight(a).value, [EventKeyOf(a)]);
    RunStep(retention, [a], b);
    assert [] + [first] == [first] && {} + {EventKeyOf(a)} == {EventKeyOf(a)};
    assert Run(retention, [a]).state == State({EventKeyOf(a)}, [first], retention);
    FiledInNew(State({EventKeyOf(a)}, [first], retention), b);
    var second := HeightBucket(BlockHeight(b).value, [EventKeyOf(b)]);
    assert [first] + [second] == [first, second];
    assert {EventKeyOf(a)} + {EventKeyOf(b)} == {EventKeyOf(a), EventKeyOf(b)};
  }

  /** With two heights retained, one more update at the oldest height and then one at a third height: the oldest
      bucket goes, with the update just put there. */
  lemma OldestDropped(d: State, u: SubscribeUpdate, v: SubscribeUpdate)
    requires d.retention == 2 && |d.heights| == 2 && EventKeyOf(u) !in d.seen
             && EventKeyOf(v) !in d.seen + {EventKeyOf(u)}
    requires BlockHeight(u) == Some(d.heights[0].height)
    requires BlockHeight(v).Some? && forall i :: 0 <= i < 2 ==> d.heights[i].height != BlockHeight(v).value
    ensures EventKeyOf(u) !in Observed(Observed(d, u), v).seen
  {
    hide Observed, BlockHeight, EventKeyOf;
    FiledInOldest(d, u);
    var both := HeightBucket(d.heights[0].height, d.heights[0].keys + [EventKeyOf(u)]);
    assert EventKeyOf(u) in both.keys;
    FiledInNew(State(d.seen + {EventKeyOf(u)}, [both] + d.heights[1..], 2), v);
  }

  lemma TwoHeights(u: SubscribeUpdate, v: SubscribeUpdate)
    requires BlockHeight(u).Some? && BlockHeight(v).Some? && BlockHeight(u) != BlockHeight(v)
    ensures |BlockHeights([u, v])| == 2
  {
    hide BlockHeight;
    assert BlockHeights([u, v]) == {BlockHeight(u).value, BlockHeight(v).value};
  }

  /** It need not be more than the retention since the first acceptance itself: the update's height may already have
      had the oldest bucket then. Here the third update comes through again after one other height. */
  lemma NotCountedFromAcceptance(a: SubscribeUpdate, b: SubscribeUpdate, c: SubscribeUpdate, d: SubscribeUpdate)
    requires BlockHeight(a) == BlockHeight(c) == Some(10) && BlockHeight(b) == Some(11) && BlockHeight(d) == Some(12)
    requires a.session == b.session == c.session == d.session
    requires a.sequence == 1 && b.sequence == 2 && c.sequence == 3 && d.sequence == 4
    ensures var us := [a, b, c, d, c];
            && Accepts(Run(2, us[..2]).state, us[2]) && Accepts(Run(2, us[..4]).state, us[4])
            && (forall i :: 0 <= i < 4 && us[i] == us[4] ==> i == 2)
            && |BlockHeights(us[2..4])| == 2
  {
    var us := [a, b, c, d, c];
    assert us[..2] == [a, b] && us[..4] == [a, b] + [c] + [d] && us[2..4] == [c, d];
    hide Run, Observed, BlockHeights, BlockHeight;
    TwoHeights(c, d);
    TwoFiled(a, b, 2);
    OldestDropped(Run(2, [a, b]).state, c, d);
    RunStep(2, [a, b], c);
    RunStep(2, [a, b] + [c], d);
  }
}
