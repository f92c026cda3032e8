// The server's view of the mempool, its revisioned snapshot, and what a client makes of the updates.
module MempoolView {
  import opened Proto
  import Order
  import opened Projection

  const SNAPSHOT_IDS_PER_UPDATE: nat := 1_000

  datatype State = State(revision: nat, entries: map<Text, Option<SubscribeUpdate>>, template: Option<SubscribeUpdate>)

  const EMPTY := State(0, map[], None)

  /** What a subscriber gets: the revision, the number of entries, and updates that rebuild them. */
  datatype Snapshot = Snapshot(revision: nat, count: nat, updates: seq<SubscribeUpdate>)

  /** The key of a mempool transaction: its unmined id when it has one. */
  function DetailKey(b: TransactionBody): (r: Text) {
    if b.unminedId == [] then b.transactionId else b.unminedId
  }

  // ---------- the server side ----------

  function AddIds(
    entries: map<Text, Option<SubscribeUpdate>>, ids: seq<Text>): (r: map<Text, Option<SubscribeUpdate>>)
  {
    entries + map id | id in ids && id !in entries :: None
  }

  lemma NoIds(entries: map<Text, Option<SubscribeUpdate>>)
    ensures AddIds(entries, []) == entries
  {
  }

  lemma OneMoreId(entries: map<Text, Option<SubscribeUpdate>>, ids: seq<Text>, id: Text)
    ensures AddIds(entries, ids + [id])
            == var before := AddIds(entries, ids); if id in before then before else before[id := None]
  {
    forall k ensures k in ids + [id] <==> k in ids || k == id {
    }
  }

  function Ids(ids: seq<Text>): (r: set<Text>) {
    set id | id in ids
  }

  function Applied(m: State, u: SubscribeUpdate): (r: State) {
    match u.update
    case Some(Mempool(action, ids)) =>
      var entries :=
        match action
        case Added => AddIds(m.entries, ids)
        case Invalidated => m.entries - Ids(ids)
        case Mined => m.entries - Ids(ids)
        case ActionUnspecified => m.entries;
      State(m.revision, entries, Some(u))
    case Some(MempoolTransaction(body)) => m.(entries := m.entries[DetailKey(body) := Some(u)])
    case _ => m
  }

  function AppliedAll(m: State, us: seq<SubscribeUpdate>): (r: State) {
    if us == [] then m else Applied(AppliedAll(m, us[..|us| - 1]), us[|us| - 1])
  }

  /** One summary of at most SNAPSHOT_IDS_PER_UPDATE ids. */
  function Summary(m: State, ids: seq<Text>): (r: SubscribeUpdate) {
    var base := if m.template.Some? then m.template.value else SubscribeUpdate([], 0, 0, [], 0, None, None);
    Projected(base.(eventType := 4, filters := [], mempoolRevision := Some(m.revision), update
      := Some(Mempool(Added, ids))),
              BlockFull, TxFull)
  }

  function Summaries(m: State, ids: seq<Text>): (r: seq<SubscribeUpdate>)
    decreases |ids|
  {
    if ids == [] then
      []
    else if |ids| <= SNAPSHOT_IDS_PER_UPDATE then
      [Summary(m, ids)]
    else
      [Summary(m, ids[..SNAPSHOT_IDS_PER_UPDATE])] + Summaries(m, ids[SNAPSHOT_IDS_PER_UPDATE..])
  }

  /** The details known for these keys, stamped with the current revision. */
  function Details(m: State, keys: seq<Text>): (r: seq<SubscribeUpdate>)
    requires forall k :: k in keys ==> k in m.entries
  {
    if keys == [] then
      []
    else
      (if m.entries[keys[0]].Some?
       then [Projected(m.entries[keys[0]].value.(mempoolRevision := Some(m.revision)), BlockFull, TxFull)] else [])
      + Details(m, keys[1..])
  }

  /** The keys in the ascending order that the ordered map yields them. */
  ghost function KeyList(m: State): (r: seq<Text>)
    ensures forall k :: k in r <==> k in m.entries
  {
    Order.TextOrder();
    Order.ListingAscending(m.entries.Keys, Order.TextLess);
    var r := Order.Listing(m.entries.Keys, Order.TextLess);
    assert forall k :: k in r <==> k in Order.Elements(r);
    r
  }

  ghost function SnapshotOf(m: State): Snapshot {
    Snapshot(m.revision, |m.entries|, Summaries(m, KeyList(m)) + Details(m, KeyList(m)))
  }

  class MempoolState {
    var revision: nat
    var entries: map<Text, Option<SubscribeUpdate>>
    var template: Option<SubscribeUpdate>

    function Value(): (m: State)
      reads this
    {
      State(revision, entries, template)
    }

    constructor ()
      ensures Value() == EMPTY
    {
      revision, entries, template := 0, map[], None;
    }

    method Apply(updates: seq<SubscribeUpdate>)
      modifies this
      ensures Value() == AppliedAll(old(Value()), updates)
    {
      for i := 0 to |updates|
        invariant Value() == AppliedAll(old(Value()), updates[..i])
      {
        assert updates[..i + 1][..i] == updates[..i];
        ApplyOne(updates[i]);
      }
      assert updates[..|updates|] == updates;
    }

    method ApplyOne(u: SubscribeUpdate)
      modifies this
      ensures Value() == Applied(old(Value()), u)
    {
      match u.update {
        case Some(Mempool(action, ids)) =>
          template := Some(u);
          match action {
            case Added => InsertIds(ids);
            case Invalidated => RemoveIds(ids);
            case Mined => RemoveIds(ids);
            case ActionUnspecified =>
          }
        case Some(MempoolTransaction(body)) =>
          entries := entries[DetailKey(body) := Some(u)];
        case _ =>
      }
    }

    /** Adds the ids that have no entry yet; an entry with details keeps them. */
    method InsertIds(ids: seq<Text>)
      modifies `entries
      ensures entries == AddIds(old(entries), ids)
    {
      NoIds(entries);
      hide AddIds;
      for k := 0 to |ids|
        invariant entries == AddIds(old(entries), ids[..k])
      {
        assert ids[..k + 1] == ids[..k] + [ids[k]];
        OneMoreId(old(entries), ids[..k], ids[k]);
        if ids[k] !in entries {
          entries := entries[ids[k] := None];
        }
      }
      assert ids[..|ids|] == ids;
    }

    method RemoveIds(ids: seq<Text>)
      modifies `entries
      ensures entries == old(entries) - Ids(ids)
    {
      for k := 0 to |ids|
        invariant entries == old(entries) - Ids(ids[..k])
      {
        assert ids[..k + 1] == ids[..k] + [ids[k]];
        entries := entries - {ids[k]};
      }
      assert ids[..|ids|] == ids;
    }

    /** Lists every key in chunks, then every known transaction. */
    method TakeSnapshot() returns (r: Snapshot)
      ensures r == SnapshotOf(Value())
    {
      Order.TextOrder();
      var keys := Order.List(entries.Keys, Order.TextLess);
      assert keys == KeyList(Value());
      var summaries := ListSummaries(keys);
      var details := ListDetails(keys);
      r := Snapshot(revision, |entries|, summaries + details);
    }

    method ListSummaries(keys: seq<Text>) returns (r: seq<SubscribeUpdate>)
      ensures r == Summaries(Value(), keys)
    {
      hide Summaries, Summary;
      r := [];
      var i := 0;
      while i < |keys|
        invariant 0 <= i <= |keys|
        invariant r + Summaries(Value(), keys[i..]) == Summaries(Value(), keys)
      {
        var next := if |keys| - i > SNAPSHOT_IDS_PER_UPDATE then i + SNAPSHOT_IDS_PER_UPDATE else |keys|;
        SummariesStep(Value(), keys[i..], next - i);
        assert keys[i..][next - i..] == keys[next..];
        assert keys[i..][..next - i] == keys[i..next];
        r := r + [Summary(Value(), keys[i..next])];
        i := next;
      }
      NoSummaries(Value(), keys[|keys|..]);
    }

    method ListDetails(keys: seq<Text>) returns (r: seq<SubscribeUpdate>)
      requires forall k :: k in keys ==> k in entries
      ensures r == Details(Value(), keys)
    {
      hide Projected;
      r := [];
      for k := 0 to |keys|
        invariant r + Details(Value(), keys[k..]) == Details(Value(), keys)
      {
        assert keys[k..][1..] == keys[k + 1..];
        if entries[keys[k]].Some? {
          r := r + [Projected(entries[keys[k]].value.(mempoolRevision := Some(revision)), BlockFull, TxFull)];
        }
      }
      assert keys[|keys|..] == [];
    }
  }

  lemma SummariesStep(m: State, ids: seq<Text>, n: nat)
    requires ids != [] && n == if |ids| > SNAPSHOT_IDS_PER_UPDATE then SNAPSHOT_IDS_PER_UPDATE else |ids|
    ensures Summaries(m, ids) == [Summary(m, ids[..n])] + Summaries(m, ids[n..])
  {
    assert n == |ids| ==> ids[..n] == ids && ids[n..] == [];
  }

  lemma NoSummaries(m: State, ids: seq<Text>)
    requires ids == []
    ensures Summaries(m, ids) == []
  {
  }

  // ---------- the client side ----------

  /** How one update changes the set of ids that a client believes to be in the mempool. */
  function Followed(keys: set<Text>, u: SubscribeUpdate): (r: set<Text>) {
    match u.update
    case Some(Mempool(Added, ids)) => keys + Ids(ids)
    case Some(Mempool(Invalidated, ids)) => keys - Ids(ids)
    case Some(Mempool(Mined, ids)) => keys - Ids(ids)
    case Some(MempoolTransaction(body)) => keys + {DetailKey(body)}
    case _ => keys
  }

  function FollowedAll(keys: set<Text>, us: seq<SubscribeUpdate>): (r: set<Text>) {
    if us == [] then keys else Followed(FollowedAll(keys, us[..|us| - 1]), us[|us| - 1])
  }

  lemma {:induction false} FollowedAppend(keys: set<Text>, a: seq<SubscribeUpdate>, b: seq<SubscribeUpdate>)
    ensures FollowedAll(keys, a + b) == FollowedAll(FollowedAll(keys, a), b)
  {
    if b == [] {
      assert a + b == a;
    } else {
      FollowedAppend(keys, a, b[..|b| - 1]);
      assert (a + b)[..|a + b| - 1] == a + b[..|b| - 1];
    }
  }

  /** A client that follows the updates the server applies has the server's keys. */
  lemma {:induction false} ApplyFollows(m: State, us: seq<SubscribeUpdate>)
    ensures AppliedAll(m, us).entries.Keys == FollowedAll(m.entries.Keys, us)
    ensures AppliedAll(m, us).revision == m.revision
  {
    if us == [] {
    } else {
      ApplyFollows(m, us[..|us| - 1]);
    }
  }

  /** Every stored detail is filed under its own key. */
  ghost predicate DetailsFiled(m: State) {
    forall k :: k in m.entries && m.entries[k].Some? ==>
      && m.entries[k].value.update.Some? && m.entries[k].value.update.value.MempoolTransaction?
      && DetailKey(m.entries[k].value.update.value.body) == k
  }

  lemma {:induction false} ApplyFiles(m: State, us: seq<SubscribeUpdate>)
    requires DetailsFiled(m)
    ensures DetailsFiled(AppliedAll(m, us))
  {
    if us == [] {
    } else {
      ApplyFiles(m, us[..|us| - 1]);
    }
  }

  lemma SummaryFollowed(m: State, keys: set<Text>, ids: seq<Text>)
    ensures Followed(keys, Summary(m, ids)) == keys + Ids(ids)
    ensures Summary(m, ids).mempoolRevision == Some(m.revision) && IsMempoolUpdate(Summary(m, ids))
  {
  }

  lemma {:induction false} SummariesFollowed(m: State, keys: set<Text>, ids: seq<Text>)
    ensures FollowedAll(keys, Summaries(m, ids)) == keys + Ids(ids)
    ensures forall u :: u in Summaries(m, ids) ==> u.mempoolRevision == Some(m.revision) && IsMempoolUpdate(u)
    decreases |ids|
  {
    hide Summary;
    if ids == [] {
    } else if |ids| <= SNAPSHOT_IDS_PER_UPDATE {
      SummaryFollowed(m, keys, ids);
      assert [Summary(m, ids)][..0] == [];
    } else {
      var first, rest := ids[..SNAPSHOT_IDS_PER_UPDATE], ids[SNAPSHOT_IDS_PER_UPDATE..];
      SummaryFollowed(m, keys, first);
      assert [Summary(m, first)][..0] == [];
      FollowedAppend(keys, [Summary(m, first)], Summaries(m, rest));
      SummariesFollowed(m, keys + Ids(first), rest);
      assert ids == first + rest;
    }
  }

  lemma DetailFollowed(m: State, keys: set<Text>, k: Text)
    requires DetailsFiled(m) && k in m.entries && m.entries[k].Some?
    ensures var u := Projected(m.entries[k].value.(mempoolRevision := Some(m.revision)), BlockFull, TxFull);
            Followed(keys, u) == keys + {k} && u.mempoolRevision == Some(m.revision) && IsMempoolUpdate(u)
  {
  }

  lemma {:induction false} DetailsFollowed(m: State, keys: set<Text>, ids: seq<Text>)
    requires DetailsFiled(m) && Ids(ids) <= keys
    requires forall k :: k in ids ==> k in m.entries
    ensures FollowedAll(keys, Details(m, ids)) == keys
    ensures forall u :: u in Details(m, ids) ==> u.mempoolRevision == Some(m.revision) && IsMempoolUpdate(u)
  {
    hide Projected, IsMempoolUpdate, DetailsFiled;
    if ids == [] {
    } else {
      assert ids == [ids[0]] + ids[1..];
      DetailsFollowed(m, keys, ids[1..]);
      if m.entries[ids[0]].Some? {
        DetailFollowed(m, keys, ids[0]);
        var u := Projected(m.entries[ids[0]].value.(mempoolRevision := Some(m.revision)), BlockFull, TxFull);
        assert [u][..0] == [];
        FollowedAppend(keys, [u], Details(m, ids[1..]));
        assert ids[0] in keys;
        assert keys + {ids[0]} == keys;
      } else {
        assert [] + Details(m, ids[1..]) == Details(m, ids[1..]);
      }
    }
  }

  /** Following a snapshot from nothing gives exactly the server's keys; every message of it is a mempool
      update of the snapshot's revision. */
  lemma SnapshotRebuildsKeys(m: State)
    requires DetailsFiled(m)
    ensures FollowedAll({}, SnapshotOf(m).updates) == m.entries.Keys
    ensures forall u :: u in SnapshotOf(m).updates ==> u.mempoolRevision == Some(m.revision) && IsMempoolUpdate(u)
  {
    var keys := KeyList(m);
    assert Ids(keys) == m.entries.Keys;
    SummariesFollowed(m, {}, keys);
    DetailsFollowed(m, m.entries.Keys, keys);
    FollowedAppend({}, Summaries(m, keys), Details(m, keys));
    assert {} + Ids(keys) == m.entries.Keys;
  }

  // ---------- what is in the mempool, and what a snapshot holds, by what was published ----------

  /** The update puts the id into the mempool: it lists it as added, or it is the transaction itself. */
  ghost predicate Adds(u: SubscribeUpdate, k: Text) {
    || (u.update.Some? && u.update.value.Mempool? && u.update.value.action == Added && k in u.update.value.ids)
    || IsTransactionOf(u, k)
  }

  /** The full transaction of this id: its unmined id, or the transaction id when it has none. */
  ghost predicate IsTransactionOf(u: SubscribeUpdate, k: Text) {
    && u.update.Some? && u.update.value.MempoolTransaction?
    && var body := u.update.value.body;
       (body.unminedId != [] && body.unminedId == k) || (body.unminedId == [] && body.transactionId == k)
  }

  ghost predicate Removes(u: SubscribeUpdate, k: Text) {
    && u.update.Some? && u.update.value.Mempool? && k in u.update.value.ids
    && (u.update.value.action == Invalidated || u.update.value.action == Mined)
  }

  /** Position i put the id there, and nothing after it took it away. */
  ghost predicate Present(us: seq<SubscribeUpdate>, i: nat, k: Text) {
    && i < |us| && Adds(us[i], k)
    && forall j :: i < j < |us| ==> !Removes(us[j], k)
  }

  /** Position i is the transaction of the id, and nothing after it took it away or replaced it. */
  ghost predicate Current(us: seq<SubscribeUpdate>, i: nat, k: Text) {
    && i < |us| && IsTransactionOf(us[i], k)
    && forall j :: i < j < |us| ==> !Removes(us[j], k) && !IsTransactionOf(us[j], k)
  }

  lemma AppliedAt(m: State, u: SubscribeUpdate, k: Text)
    ensures k in Applied(m, u).entries <==> Adds(u, k) || (k in m.entries && !Removes(u, k))
    ensures k in Applied(m, u).entries ==>
              Applied(m, u).entries[k]
              == if IsTransactionOf(u, k) then Some(u) else if k in m.entries then m.entries[k] else None
  {
  }

  lemma OnlyOneOf(u: SubscribeUpdate, k: Text)
    ensures Adds(u, k) ==> !Removes(u, k)
    ensures IsTransactionOf(u, k) ==> Adds(u, k)
  {
  }

  /** Exactly the ids that were added and not taken away since are in the mempool. */
  lemma {:induction false} KeysExactly(us: seq<SubscribeUpdate>, k: Text)
    ensures k in AppliedAll(EMPTY, us).entries <==> exists i: nat :: Present(us, i, k)
  {
    hide Applied, Adds, Removes, IsTransactionOf;
    if us == [] {
    } else {
      var n := |us| - 1;
      var rest, last := us[..n], us[n];
      KeysExactly(rest, k);
      AppliedAt(AppliedAll(EMPTY, rest), last, k);
      if k in AppliedAll(EMPTY, us).entries {
        if Adds(last, k) {
          assert Present(us, n, k);
        } else {
          var i: nat :| Present(rest, i, k);
          assert Present(us, i, k);
        }
      }
      if i: nat :| Present(us, i, k) {
        assert i < n ==> Present(rest, i, k) && !Removes(us[n], k);
      }
    }
  }

  /** Each id has the transaction that was published for it last, if one was since the id was last taken away. Being
      listed again does not lose it. */
  lemma {:induction false} DetailsExactly(us: seq<SubscribeUpdate>, k: Text, u: SubscribeUpdate)
    ensures k in AppliedAll(EMPTY, us).entries && AppliedAll(EMPTY, us).entries[k] == Some(u)
            <==> exists i: nat :: Current(us, i, k) && us[i] == u
  {
    hide Applied, Adds, Removes, IsTransactionOf;
    if us == [] {
    } else {
      var n := |us| - 1;
      var rest, last := us[..n], us[n];
      DetailsExactly(rest, k, u);
      AppliedAt(AppliedAll(EMPTY, rest), last, k);
      OnlyOneOf(last, k);
      if k in AppliedAll(EMPTY, us).entries && AppliedAll(EMPTY, us).entries[k] == Some(u) {
        if IsTransactionOf(last, k) {
          assert Current(us, n, k);
        } else {
          var i: nat :| Current(rest, i, k) && rest[i] == u;
          assert Current(us, i, k);
        }
      }
      if i: nat :| Current(us, i, k) && us[i] == u {
        if i < n {
          assert Current(rest, i, k) && !Removes(us[n], k);
        }
      }
    }
  }

  // ---------- what a snapshot lists ----------

  /** The ids listed by the summaries among these, in order. */
  function Listed(us: seq<SubscribeUpdate>): (r: seq<Text>) {
    if us == [] then
      []
    else
      (if us[0].update.Some? && us[0].update.value.Mempool? then us[0].update.value.ids else []) + Listed(us[1..])
  }

  /** A summary: added ids, at the revision, and otherwise as the last mempool update applied. */
  ghost predicate IsSummary(m: State, v: SubscribeUpdate) {
    && v.update.Some? && v.update.value.Mempool? && v.update.value.action == Added
    && 0 < |v.update.value.ids| <= 1000
    && v.eventType == 4 && v.filters == [] && v.mempoolRevision == Some(m.revision)
    && (m.template.Some? ==> v.session == m.template.value.session && v.sequence == m.template.value.sequence
                             && v.sourceSequence == m.template.value.sourceSequence)
  }

  /** The transaction as it was published, whole and labelled so, at the given revision. */
  predicate IsDetail(v: SubscribeUpdate, u: SubscribeUpdate, revision: nat) {
    && u.update.Some? && u.update.value.MempoolTransaction?
    && v == u.(mempoolRevision := Some(revision), update
                 := Some(MempoolTransaction(u.update.value.body.(payload := TxFull))))
  }

  lemma {:induction false} ListedAppend(a: seq<SubscribeUpdate>, b: seq<SubscribeUpdate>)
    ensures Listed(a + b) == Listed(a) + Listed(b)
  {
    if a == [] {
      assert a + b == b;
    } else {
      var first := if a[0].update.Some? && a[0].update.value.Mempool? then a[0].update.value.ids else [];
      assert (a + b)[0] == a[0] && (a + b)[1..] == a[1..] + b;
      assert Listed(a) == first + Listed(a[1..]) && Listed(a + b) == first + Listed(a[1..] + b);
      hide Listed;
      ListedAppend(a[1..], b);
      assert first + (Listed(a[1..]) + Listed(b)) == first + Listed(a[1..]) + Listed(b);
    }
  }

  lemma OneSummary(m: State, ids: seq<Text>)
    requires 0 < |ids| <= 1000
    ensures IsSummary(m, Summary(m, ids)) && Summary(m, ids).update.value.ids == ids
  {
  }

  /** The summaries list exactly these ids, in this order, in full chunks but for the last. */
  lemma {:induction false} SummariesList(m: State, ids: seq<Text>)
    ensures Listed(Summaries(m, ids)) == ids
    ensures forall v :: v in Summaries(m, ids) ==> IsSummary(m, v)
    ensures forall i :: 0 <= i < |Summaries(m, ids)| - 1 ==>
              IsSummary(m, Summaries(m, ids)[i]) && |Summaries(m, ids)[i].update.value.ids| == 1000
    decreases |ids|
  {
    hide Summary, IsSummary;
    if ids == [] {
    } else if |ids| <= SNAPSHOT_IDS_PER_UPDATE {
      OneSummary(m, ids);
      assert [Summary(m, ids)][1..] == [];
      assert Listed([Summary(m, ids)]) == ids + Listed([]);
    } else {
      var first, rest := ids[..SNAPSHOT_IDS_PER_UPDATE], ids[SNAPSHOT_IDS_PER_UPDATE..];
      OneSummary(m, first);
      SummariesList(m, rest);
      var all := Summaries(m, ids);
      assert all[0] == Summary(m, first) && all[1..] == Summaries(m, rest);
      assert first + rest == ids;
    }
  }

  lemma OneDetail(m: State, u: SubscribeUpdate)
    requires u.update.Some? && u.update.value.MempoolTransaction?
    ensures IsDetail(Projected(u.(mempoolRevision := Some(m.revision)), BlockFull, TxFull), u, m.revision)
  {
  }

  /** Exactly the known transactions of these keys are given in full. */
  lemma {:induction false} DetailsGiven(m: State, keys: seq<Text>, v: SubscribeUpdate)
    requires DetailsFiled(m) && forall k :: k in keys ==> k in m.entries
    ensures v in Details(m, keys)
            <==> exists k :: k in keys && m.entries[k].Some? && IsDetail(v, m.entries[k].value, m.revision)
    ensures v in Details(m, keys) ==> v.update.Some? && v.update.value.MempoolTransaction?
  {
    hide Projected, IsDetail;
    if keys == [] {
    } else {
      DetailsGiven(m, keys[1..], v);
      assert keys == [keys[0]] + keys[1..];
      if m.entries[keys[0]].Some? {
        OneDetail(m, m.entries[keys[0]].value);
        SameDetail(v, Projected(m.entries[keys[0]].value.(mempoolRevision := Some(m.revision)), BlockFull, TxFull),
          m.entries[keys[0]].value, m.revision);
      }
    }
  }

  lemma SameDetail(v: SubscribeUpdate, w: SubscribeUpdate, u: SubscribeUpdate, revision: nat)
    requires IsDetail(w, u, revision)
    ensures IsDetail(v, u, revision) <==> v == w
    ensures w.update.Some? && w.update.value.MempoolTransaction?
  {
  }

  lemma {:induction false} NothingListed(us: seq<SubscribeUpdate>)
    requires forall v :: v in us ==> v.update.Some? && v.update.value.MempoolTransaction?
    ensures Listed(us) == []
  {
    if us == [] {
    } else {
      assert us == [us[0]] + us[1..];
      NothingListed(us[1..]);
    }
  }

  /** The last summary update applied is what later summaries are made from. */
  lemma {:induction false} TemplateExactly(us: seq<SubscribeUpdate>, i: nat)
    requires i < |us| && us[i].update.Some? && us[i].update.value.Mempool?
    requires forall j :: i < j < |us| ==> us[j].update.None? || !us[j].update.value.Mempool?
    ensures AppliedAll(EMPTY, us).template == Some(us[i])
  {
    var n := |us| - 1;
    if i == n {
    } else {
      assert us[..n][i] == us[i];
      TemplateExactly(us[..n], i);
      assert us[n].update.None? || !us[n].update.value.Mempool?;
    }
  }

  /** The summaries of a snapshot list its ids, and all the rest of it are transactions. */
  lemma SnapshotShape(m: State)
    requires DetailsFiled(m)
    ensures var snapshot := SnapshotOf(m);
            && snapshot.updates == Summaries(m, KeyList(m)) + Details(m, KeyList(m))
            && Listed(snapshot.updates) == KeyList(m)
            && snapshot.count == |KeyList(m)|
  {
    var keys := KeyList(m);
    KeysCounted(m, keys);
    hide Summaries, Details, KeyList;
    SummariesList(m, keys);
    var details := Details(m, keys);
    forall v ensures v in details ==> v.update.Some? && v.update.value.MempoolTransaction? {
      DetailsGiven(m, keys, v);
    }
    NothingListed(details);
    ListedAppend(Summaries(m, keys), details);
    assert keys + [] == keys;
  }

  /** A snapshot after any run of updates: its summaries list every id of the mempool once, in ascending order, and the
      count is their number; and it gives in full exactly the transactions that are current, each as published, at the
      snapshot's revision. */
  lemma SnapshotExactly(us: seq<SubscribeUpdate>, revision: nat)
    ensures var m := AppliedAll(EMPTY, us).(revision := revision);
            var snapshot := SnapshotOf(m);
            && snapshot.revision == revision && snapshot.count == |Listed(snapshot.updates)|
            && Listed(snapshot.updates) == Order.Listing(m.entries.Keys, Order.TextLess)
            && (forall k :: k in Listed(snapshot.updates) <==> exists i: nat :: Present(us, i, k))
            && (forall v :: v in snapshot.updates ==>
                  || IsSummary(m, v)
                  || exists i: nat, k :: Current(us, i, k) && IsDetail(v, us[i], revision))
            && (forall i: nat, k :: Current(us, i, k) ==>
                  exists v :: v in snapshot.updates && IsDetail(v, us[i], revision))
  {
    var m := AppliedAll(EMPTY, us).(revision := revision);
    var keys := KeyList(m);
    ApplyFiles(EMPTY, us);
    KeysCounted(m, keys);
    SnapshotShape(m);
    assert SnapshotOf(m).revision == revision;
    hide AppliedAll, Summaries, Details, KeyList, IsSummary, IsDetail, Present, IsTransactionOf, Removes, SnapshotOf,
      Listed, DetailsFiled;
    SummariesList(m, keys);
    forall k ensures k in m.entries <==> exists i: nat :: Present(us, i, k) {
      KeysExactly(us, k);
    }
    forall v | v in Details(m, keys) ensures exists i: nat, k :: Current(us, i, k) && IsDetail(v, us[i], revision) {
      DetailIsCurrent(us, m, keys, v);
    }
    forall i: nat, k | Current(us, i, k) ensures exists v :: v in Details(m, keys) && IsDetail(v, us[i], revision) {
      CurrentGiven(us, m, keys, i, k);
    }
  }

  lemma DetailIsCurrent(us: seq<SubscribeUpdate>, m: State, keys: seq<Text>, v: SubscribeUpdate)
    requires m.entries == AppliedAll(EMPTY, us).entries && keys == KeyList(m) && DetailsFiled(m)
    requires v in Details(m, keys)
    ensures exists i: nat, k :: Current(us, i, k) && IsDetail(v, us[i], m.revision)
  {
    hide AppliedAll, Details, DetailsFiled, IsDetail, IsTransactionOf, Removes;
    DetailsGiven(m, keys, v);
    var k :| k in keys && m.entries[k].Some? && IsDetail(v, m.entries[k].value, m.revision);
    DetailsExactly(us, k, m.entries[k].value);
    var i: nat :| Current(us, i, k) && us[i] == m.entries[k].value;
  }

  lemma KeysCounted(m: State, keys: seq<Text>)
    requires keys == KeyList(m)
    ensures |keys| == |m.entries| && keys == Order.Listing(m.entries.Keys, Order.TextLess)
    ensures forall k :: k in keys <==> k in m.entries
  {
    Order.TextOrder();
    Order.ListingSize(m.entries.Keys, Order.TextLess);
    assert |m.entries| == |m.entries.Keys|;
  }

  lemma CurrentGiven(us: seq<SubscribeUpdate>, m: State, keys: seq<Text>, i: nat, k: Text)
    requires m.entries == AppliedAll(EMPTY, us).entries && keys == KeyList(m) && DetailsFiled(m) && Current(us, i, k)
    ensures exists v :: v in Details(m, keys) && IsDetail(v, us[i], m.revision)
  {
    DetailsExactly(us, k, us[i]);
    assert k in keys;
    var v := us[i].(mempoolRevision := Some(m.revision), update
                      := Some(MempoolTransaction(us[i].update.value.body.(payload := TxFull))));
    assert IsDetail(v, us[i], m.revision);
    DetailsGiven(m, keys, v);
  }
}
