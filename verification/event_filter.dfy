// A subscription's whole filter: the legacy event list and the named filters together, and the payload
// that their matches ask for.
module EventFilters {
  import opened Proto
  import Order
  import opened Filter
  import opened Projection

  datatype EventFilter = EventFilter(
    defaultAll: bool, legacy: Option<CompiledFilter>, named: seq<(Text, CompiledFilter)>, needsAddresses: bool)

  datatype FilterMatch = FilterMatch(
    names: seq<Text>, blockPayload: BlockPayload, transactionPayload: TransactionPayload)

  const NO_FILTER := SubscribeRequestFilter([], None, [], [], [], [], [], None, None, None, None, None, None, 0, 0)

  /** The legacy event list as a filter. */
  function LegacyFilter(types: seq<int>): (r: SubscribeRequestFilter) {
    NO_FILTER.(eventTypes := types)
  }

  predicate IsEmpty(f: SubscribeRequestFilter) {
    && f.eventTypes == [] && f.minHeight.None? && f.transactionIds == [] && f.transparentAddresses == []
    && f.addressInclude == [] && f.addressExclude == [] && f.addressRequired == []
    && f.coinbase.None? && f.transactionVersion.None? && f.hasTransparent.None? && f.hasSapling.None?
    && f.hasOrchard.None? && f.minValue.None?
  }

  /** A filter counts as empty exactly when it asks for every update. */
  lemma EmptyFilterMeansAll(f: SubscribeRequestFilter, canon: Canon)
    ensures IsEmpty(f) <==> forall u :: Means(f, canon, u)
  {
    if !IsEmpty(f) {
      var t := UnlistedType(f.eventTypes);
      var u := SubscribeUpdate([], 0, t, [], 0, None, None);
      assert f.eventTypes != [] ==> u.eventType !in f.eventTypes;
      assert !Means(f, canon, u);
    }
  }

  lemma {:induction false} UnlistedType(types: seq<int>) returns (t: int)
    ensures forall k :: k in types ==> k < t
  {
    if types == [] {
      t := 0;
    } else {
      t := UnlistedType(types[1..]);
      assert types == [types[0]] + types[1..];
      t := if types[0] < t then t else types[0] + 1;
    }
  }

  predicate NamedAccepted(name: Text, f: SubscribeRequestFilter, limits: FilterLimits, canon: Canon) {
    && name != [] && |name| <= limits.maxNameBytes
    && (IsEmpty(f) ==> limits.allowAll)
    && FilterAccepted(f, limits, canon)
  }

  predicate CatchAll(request: SubscribeRequest) {
    request.eventTypes == [] && request.filters == map[]
  }

  ghost predicate RequestAccepted(request: SubscribeRequest, limits: FilterLimits, canon: Canon) {
    && |request.filters| <= limits.maxNamedFilters
    && (CatchAll(request) ==> limits.allowAll)
    && (request.eventTypes != [] ==> FilterAccepted(LegacyFilter(request.eventTypes), limits, canon))
    && AllNamedAccepted(request.filters, limits, canon)
  }

  function Names(named: seq<(Text, CompiledFilter)>): (r: seq<Text>) {
    seq(|named|, i requires 0 <= i < |named| => named[i].0)
  }

  /** The compiled form of a request: the named filters in ascending order of their names. */
  ghost predicate Represents(ef: EventFilter, request: SubscribeRequest, canon: Canon) {
    && (ef.defaultAll <==> CatchAll(request))
    && (ef.legacy.Some? <==> request.eventTypes != [])
    && (ef.legacy.Some? ==> Compiles(LegacyFilter(request.eventTypes), ef.legacy.value, canon))
    && Names(ef.named) == Order.Listing(request.filters.Keys, Order.TextLess)
    && (forall i :: 0 <= i < |ef.named| ==>
          ef.named[i].0 in request.filters && Compiles(request.filters[ef.named[i].0], ef.named[i].1, canon))
    && (ef.legacy.Some? && UsesAddresses(ef.legacy.value) ==> ef.needsAddresses)
    && (forall i :: 0 <= i < |ef.named| && UsesAddresses(ef.named[i].1) ==> ef.needsAddresses)
  }

  lemma CompiledRepresents(
    ef: EventFilter, request: SubscribeRequest, canon: Canon, byName: map<Text, CompiledFilter>)
    requires ef.defaultAll <==> CatchAll(request)
    requires ef.legacy.Some? <==> request.eventTypes != []
    requires ef.legacy.Some? ==> Compiles(LegacyFilter(request.eventTypes), ef.legacy.value, canon)
    requires byName.Keys == request.filters.Keys
    requires forall name :: name in request.filters ==> Compiles(request.filters[name], byName[name], canon)
    requires Names(ef.named) == Order.Listing(byName.Keys, Order.TextLess)
    requires forall i :: 0 <= i < |ef.named| ==> ef.named[i].0 in byName && byName[ef.named[i].0] == ef.named[i].1
    requires ef.needsAddresses <==> (ef.legacy.Some? && UsesAddresses(ef.legacy.value))
                                    || exists i :: 0 <= i < |ef.named| && UsesAddresses(ef.named[i].1)
    ensures Represents(ef, request, canon)
  {
    hide Compiles, UsesAddresses, CatchAll, Names, Order.Listing, LegacyFilter;
  }

  /** Validates and compiles a request, taking its named filters in whatever order the map yields them. */
  method New(request: SubscribeRequest, limits: FilterLimits, canon: Canon) returns (r: Result<EventFilter, Code>)
    ensures r.Ok? <==> RequestAccepted(request, limits, canon)
    ensures r.Ok? ==> Represents(r.value, request, canon)
    ensures r.Err? ==> r.error == InvalidArgument || r.error == Internal
  {
    hide FilterAccepted, Compiles, IsEmpty, UsesAddresses, AllNamedAccepted, Represents, Names, Order.Listing;
    if |request.filters| > limits.maxNamedFilters {
      return Err(InvalidArgument);
    }
    var defaultAll := request.eventTypes == [] && request.filters == map[];
    if defaultAll && !limits.allowAll {
      return Err(InvalidArgument);
    }
    var legacy := None;
    if request.eventTypes != [] {
      var compiled := FromProto(LegacyFilter(request.eventTypes), limits, canon);
      if compiled.Err? {
        return Err(compiled.error);
      }
      legacy := Some(compiled.value);
    }
    var byName := CompileNamed(request.filters, limits, canon);
    if byName.Err? {
      return Err(byName.error);
    }
    var named := SortedByName(byName.value);
    var needsAddresses := (legacy.Some? && UsesAddresses(legacy.value))
                          || exists i :: 0 <= i < |named| && UsesAddresses(named[i].1);
    r := Ok(EventFilter(defaultAll, legacy, named, needsAddresses));
    CompiledRepresents(r.value, request, canon, byName.value);
  }

  /** The compiled filters sorted by name. */
  method SortedByName(byName: map<Text, CompiledFilter>) returns (named: seq<(Text, CompiledFilter)>)
    ensures Names(named) == Order.Listing(byName.Keys, Order.TextLess)
    ensures forall i :: 0 <= i < |named| ==> named[i].0 in byName && byName[named[i].0] == named[i].1
  {
    Order.TextOrder();
    var order := Order.List(byName.Keys, Order.TextLess);
    assert forall i :: 0 <= i < |order| ==> order[i] in Order.Elements(order);
    named := seq(|order|, i requires 0 <= i < |order| => (order[i], byName[order[i]]));
    assert Names(named) == order;
  }

  ghost predicate AllNamedAccepted(filters: map<Text, SubscribeRequestFilter>, limits: FilterLimits, canon: Canon) {
    forall name :: name in filters ==> NamedAccepted(name, filters[name], limits, canon)
  }

  /** Compiles the named filters one after the other; the map's order is not specified. */
  method CompileNamed(filters: map<Text, SubscribeRequestFilter>, limits: FilterLimits, canon: Canon)
    returns (r: Result<map<Text, CompiledFilter>, Code>)
    ensures r.Ok? <==> AllNamedAccepted(filters, limits, canon)
    ensures r.Ok? ==> r.value.Keys == filters.Keys
    ensures r.Ok? ==> forall name :: name in filters ==> Compiles(filters[name], r.value[name], canon)
    ensures r.Err? ==> r.error == InvalidArgument || r.error == Internal
  {
    hide FilterAccepted, Compiles, IsEmpty;
    var byName: map<Text, CompiledFilter> := map[];
    var rest := filters.Keys;
    while rest != {}
      invariant rest <= filters.Keys && byName.Keys == filters.Keys - rest
      invariant forall name :: name in byName ==> NamedAccepted(name, filters[name], limits, canon)
      invariant forall name :: name in byName ==> Compiles(filters[name], byName[name], canon)
      decreases rest
    {
      var name :| name in rest;
      var f := filters[name];
      if name == [] || |name| > limits.maxNameBytes || (IsEmpty(f) && !limits.allowAll) {
        return Err(InvalidArgument);
      }
      var compiled := FromProto(f, limits, canon);
      if compiled.Err? {
        return Err(compiled.error);
      }
      byName := byName[name := compiled.value];
      rest := rest - {name};
    }
    return Ok(byName);
  }

  // ---------- matching ----------

  function MatchedNamed(ef: EventFilter, context: UpdateContext, n: nat): (r: seq<(Text, CompiledFilter)>)
    requires n <= |ef.named|
  {
    if n == 0 then
      []
    else
      MatchedNamed(ef, context, n - 1) + if Matches(ef.named[n - 1].1, context) then [ef.named[n - 1]] else []
  }

  predicate KeepsRaw(mode: TransactionPayload) {
    mode.TxFull? || mode.TxRawOnly? || mode.TxUnspecified?
  }

  predicate KeepsTransparent(mode: TransactionPayload) {
    mode.TxFull? || mode.TxTransparentOnly? || mode.TxUnspecified?
  }

  function ModeOf(raw: bool, transparent: bool): (r: TransactionPayload) {
    if raw && transparent then TxFull
    else if raw then TxRawOnly
    else if transparent then TxTransparentOnly
    else TxMetaOnly
  }

  function Modes(filters: seq<(Text, CompiledFilter)>): (r: seq<TransactionPayload>) {
    seq(|filters|, i requires 0 <= i < |filters| => filters[i].1.transactionPayload)
  }

  function Richest(modes: seq<TransactionPayload>): (r: TransactionPayload) {
    ModeOf(exists m :: m in modes && KeepsRaw(m), exists m :: m in modes && KeepsTransparent(m))
  }

  /** Joins the modes of the matched filters, one flag per half of the payload. */
  method RichestTransactionPayload(filters: seq<(Text, CompiledFilter)>) returns (r: TransactionPayload)
    ensures r == Richest(Modes(filters))
  {
    var modes := Modes(filters);
    var raw, transparent := false, false;
    for i := 0 to |filters|
      invariant raw <==> exists k :: 0 <= k < i && KeepsRaw(modes[k])
      invariant transparent <==> exists k :: 0 <= k < i && KeepsTransparent(modes[k])
    {
      assert modes[i] == filters[i].1.transactionPayload;
      match filters[i].1.transactionPayload {
        case TxUnspecified => raw, transparent := true, true;
        case TxFull => raw, transparent := true, true;
        case TxMetaOnly =>
        case TxRawOnly => raw := true;
        case TxTransparentOnly => transparent := true;
      }
    }
    r := ModeOf(raw, transparent);
  }

  function Matched(ef: EventFilter, u: SubscribeUpdate): (r: Option<FilterMatch>) {
    var context := ContextOf(u, ef.needsAddresses);
    var legacyMatches := ef.legacy.Some? && Matches(ef.legacy.value, context);
    var named := MatchedNamed(ef, context, |ef.named|);
    if !ef.defaultAll && !legacyMatches && named == [] then
      None
    else
      Some(FilterMatch(
        Names(named),
        if ef.defaultAll || legacyMatches || exists m :: m in named && m.1.blockPayload == BlockFull then BlockFull
        else BlockMetaOnly,
        if ef.defaultAll || legacyMatches then TxFull else Richest(Modes(named))))
  }

  // ---------- the meaning of a whole request ----------

  ghost predicate LegacyWants(request: SubscribeRequest, u: SubscribeUpdate) {
    CatchAll(request) || (request.eventTypes != [] && u.eventType in request.eventTypes)
  }

  /** The named filters that mean this update. */
  ghost function WantingNames(request: SubscribeRequest, canon: Canon, u: SubscribeUpdate): set<Text> {
    set name | name in request.filters && Means(request.filters[name], canon, u)
  }

  lemma NamesRequested(ef: EventFilter, request: SubscribeRequest, canon: Canon)
    requires Represents(ef, request, canon)
    ensures forall i :: 0 <= i < |ef.named| ==> ef.named[i].0 in request.filters
  {
    hide Compiles, UsesAddresses, Names;
  }

  lemma {:induction false} MatchedNamedMember(
    ef: EventFilter, request: SubscribeRequest, canon: Canon, u: SubscribeUpdate, n: nat, x: (Text, CompiledFilter))
    requires Represents(ef, request, canon) && n <= |ef.named|
    ensures x in MatchedNamed(ef, ContextOf(u, ef.needsAddresses), n) <==>
              exists i :: 0 <= i < n && ef.named[i] == x && Means(request.filters[x.0], canon, u)
  {
    hide Represents, Means, Matches, ContextOf, MatchedNamed;
    var context := ContextOf(u, ef.needsAddresses);
    if n == 0 {
      NoneMatched(ef, context);
    } else {
      MatchedNamedMember(ef, request, canon, u, n - 1, x);
      OneMoreMatched(ef, context, n, x);
      NamedMatches(ef, request, canon, u, n - 1);
    }
  }

  lemma NoneMatched(ef: EventFilter, context: UpdateContext)
    ensures MatchedNamed(ef, context, 0) == []
  {
  }

  lemma OneMoreMatched(ef: EventFilter, context: UpdateContext, n: nat, x: (Text, CompiledFilter))
    requires 0 < n <= |ef.named|
    ensures x in MatchedNamed(ef, context, n)
            <==> x in MatchedNamed(ef, context, n - 1) || (x == ef.named[n - 1] && Matches(x.1, context))
  {
    hide Matches;
  }

  lemma NamedMatches(ef: EventFilter, request: SubscribeRequest, canon: Canon, u: SubscribeUpdate, i: nat)
    requires Represents(ef, request, canon) && i < |ef.named|
    ensures ef.named[i].0 in request.filters
    ensures Matches(ef.named[i].1, ContextOf(u, ef.needsAddresses))
            <==> Means(request.filters[ef.named[i].0], canon, u)
  {
    hide Means, Matches, Compiles, ContextOf, UsesAddresses, Names;
    CompilationPreservesMeaning(request.filters[ef.named[i].0], ef.named[i].1, canon, u, ef.needsAddresses);
  }

  lemma MatchedNamedMeans(
    ef: EventFilter, request: SubscribeRequest, canon: Canon, u: SubscribeUpdate, n: nat)
    requires Represents(ef, request, canon) && n <= |ef.named|
    ensures forall x :: x in MatchedNamed(ef, ContextOf(u, ef.needsAddresses), n) <==>
              exists i :: 0 <= i < n && ef.named[i] == x && Means(request.filters[ef.named[i].0], canon, u)
  {
    hide Represents, Means, MatchedNamed, ContextOf;
    NamesRequested(ef, request, canon);
    forall x ensures x in MatchedNamed(ef, ContextOf(u, ef.needsAddresses), n) <==>
              exists i :: 0 <= i < n && ef.named[i] == x && Means(request.filters[ef.named[i].0], canon, u)
    {
      MatchedNamedMember(ef, request, canon, u, n, x);
    }
  }

  lemma {:induction false} MatchedNamedFrom(ef: EventFilter, context: UpdateContext, n: nat)
    requires n <= |ef.named|
    ensures forall x :: x in MatchedNamed(ef, context, n) ==> exists i :: 0 <= i < n && ef.named[i] == x
  {
    hide Matches;
    if n == 0 {
    } else {
      MatchedNamedFrom(ef, context, n - 1);
    }
  }

  lemma {:induction false} MatchedNamedAscending(
    ef: EventFilter, request: SubscribeRequest, canon: Canon, context: UpdateContext, n: nat)
    requires Represents(ef, request, canon) && n <= |ef.named|
    ensures Order.Ascending(Names(MatchedNamed(ef, context, n)), Order.TextLess)
  {
    hide Matches, Represents;
    if n == 0 {
    } else {
      MatchedNamedAscending(ef, request, canon, context, n - 1);
      MatchedNamedFrom(ef, context, n - 1);
      var before, last := MatchedNamed(ef, context, n - 1), ef.named[n - 1];
      forall i | 0 <= i < |before| ensures Order.TextLess(Names(before)[i], last.0) {
        assert before[i] in before;
        var k :| 0 <= k < n - 1 && ef.named[k] == before[i];
        NamedInOrder(ef, request, canon, k, n - 1);
      }
      NamesAppend(before, last);
      assert MatchedNamed(ef, context, n) == before || MatchedNamed(ef, context, n) == before + [last];
    }
  }

  lemma NamesAppend(named: seq<(Text, CompiledFilter)>, last: (Text, CompiledFilter))
    requires Order.Ascending(Names(named), Order.TextLess)
    requires forall i :: 0 <= i < |named| ==> Order.TextLess(Names(named)[i], last.0)
    ensures Order.Ascending(Names(named + [last]), Order.TextLess)
  {
    assert Names(named + [last]) == Names(named) + [last.0];
  }

  lemma NamedInOrder(ef: EventFilter, request: SubscribeRequest, canon: Canon, i: nat, j: nat)
    requires Represents(ef, request, canon) && i < j < |ef.named|
    ensures Order.TextLess(ef.named[i].0, ef.named[j].0)
  {
    Order.TextOrder();
    Order.ListingAscending(request.filters.Keys, Order.TextLess);
    assert Names(ef.named)[i] == ef.named[i].0 && Names(ef.named)[j] == ef.named[j].0;
  }

  lemma LegacyMeans(request: SubscribeRequest, canon: Canon, u: SubscribeUpdate)
    requires request.eventTypes != []
    ensures Means(LegacyFilter(request.eventTypes), canon, u) <==> u.eventType in request.eventTypes
  {
  }

  lemma NameOfFilter(ef: EventFilter, request: SubscribeRequest, canon: Canon, name: Text)
    requires Represents(ef, request, canon) && name in request.filters
    ensures exists i :: 0 <= i < |ef.named| && ef.named[i].0 == name
  {
    hide Compiles, UsesAddresses;
    Order.TextOrder();
    Order.ListingAscending(request.filters.Keys, Order.TextLess);
    assert name in Order.Elements(Names(ef.named));
    var i :| 0 <= i < |ef.named| && Names(ef.named)[i] == name;
    assert ef.named[i].0 == name;
  }

  lemma LegacyMatches(ef: EventFilter, request: SubscribeRequest, canon: Canon, u: SubscribeUpdate)
    requires Represents(ef, request, canon)
    ensures LegacyWants(request, u)
            <==> ef.defaultAll || (ef.legacy.Some? && Matches(ef.legacy.value, ContextOf(u, ef.needsAddresses)))
  {
    hide Means, Matches, Compiles, ContextOf, UsesAddresses, LegacyFilter;
    if request.eventTypes != [] {
      LegacyMeans(request, canon, u);
      CompilationPreservesMeaning(LegacyFilter(request.eventTypes), ef.legacy.value, canon, u, ef.needsAddresses);
    }
  }

  /** What `Matched` computes, in terms of the raw request: whether the update is wanted at all, and exactly
      the names of the filters that mean it, in ascending order whatever order the request listed them in. */
  lemma MatchedMeansRequest(ef: EventFilter, request: SubscribeRequest, canon: Canon, u: SubscribeUpdate)
    requires Represents(ef, request, canon)
    ensures Matched(ef, u).Some? <==> LegacyWants(request, u) || WantingNames(request, canon, u) != {}
    ensures Matched(ef, u).Some? ==>
              && Order.Elements(Matched(ef, u).value.names) == WantingNames(request, canon, u)
              && Order.Ascending(Matched(ef, u).value.names, Order.TextLess)
              && Matched(ef, u).value.names == Order.Listing(WantingNames(request, canon, u), Order.TextLess)
  {
    var context := ContextOf(u, ef.needsAddresses);
    var named := MatchedNamed(ef, context, |ef.named|);
    MatchedNamedMeans(ef, request, canon, u, |ef.named|);
    MatchedNamedAscending(ef, request, canon, context, |ef.named|);
    LegacyMatches(ef, request, canon, u);
    MatchedNames(ef, request, canon, u);
    Order.TextOrder();
    Order.ListingAscending(WantingNames(request, canon, u), Order.TextLess);
    Order.AscendingUnique(Names(named), Order.Listing(WantingNames(request, canon, u), Order.TextLess), Order.TextLess);
    Order.NoElements(Names(named));
  }

  lemma MatchedNames(ef: EventFilter, request: SubscribeRequest, canon: Canon, u: SubscribeUpdate)
    requires Represents(ef, request, canon)
    ensures Order.Elements(Names(MatchedNamed(ef, ContextOf(u, ef.needsAddresses), |ef.named|)))
            == WantingNames(request, canon, u)
  {
    hide Means, Matches, Compiles, ContextOf;
    var named := MatchedNamed(ef, ContextOf(u, ef.needsAddresses), |ef.named|);
    MatchedNamedMeans(ef, request, canon, u, |ef.named|);
    forall name | name in WantingNames(request, canon, u) ensures name in Names(named) {
      NameOfFilter(ef, request, canon, name);
      var i :| 0 <= i < |ef.named| && ef.named[i].0 == name;
      assert ef.named[i] in named;
      var k :| 0 <= k < |named| && named[k] == ef.named[i];
      assert Names(named)[k] == name;
    }
    forall name | name in Names(named) ensures name in WantingNames(request, canon, u) {
      var k :| 0 <= k < |named| && Names(named)[k] == name;
      assert named[k] in named;
    }
  }

  // ---------- the delivered payload ----------

  /** One mode shows at least what another shows. */
  predicate ShowsAtLeast(a: TransactionPayload, b: TransactionPayload) {
    (KeepsRaw(b) ==> KeepsRaw(a)) && (KeepsTransparent(b) ==> KeepsTransparent(a))
  }

  /** The richest mode is the least upper bound of the modes, so their order does not matter. */
  lemma RichestIsLeastUpperBound(modes: seq<TransactionPayload>, other: TransactionPayload)
    ensures forall m :: m in modes ==> ShowsAtLeast(Richest(modes), m)
    ensures (forall m :: m in modes ==> ShowsAtLeast(other, m)) ==> ShowsAtLeast(other, Richest(modes))
    ensures !Richest(modes).TxUnspecified?
  {
  }

  /** What the update would look like for one filter on its own. */
  function SentAlone(f: SubscribeRequestFilter, u: SubscribeUpdate): (r: SubscribeUpdate)
    requires BlockMode(f.blockPayload).Some? && TransactionMode(f.transactionPayload).Some?
  {
    Projected(u, BlockMode(f.blockPayload).value, TransactionMode(f.transactionPayload).value)
  }

  /** Some wanting filter alone, or a catch-all request, would have been sent this whole part. */
  ghost predicate SomeoneGets<T>(
    request: SubscribeRequest, canon: Canon, u: SubscribeUpdate, part: Parts -> seq<T>)
    requires forall name :: name in request.filters ==>
               BlockMode(request.filters[name].blockPayload).Some?
                 && TransactionMode(request.filters[name].transactionPayload).Some?
  {
    || LegacyWants(request, u)
    || exists name :: name in WantingNames(request, canon, u)
                      && part(PartsOf(SentAlone(request.filters[name], u))) == part(PartsOf(u))
  }

  ghost predicate ModesKnown(request: SubscribeRequest) {
    forall name :: name in request.filters ==>
      BlockMode(request.filters[name].blockPayload).Some?
        && TransactionMode(request.filters[name].transactionPayload).Some?
  }

  function Delivered(ef: EventFilter, u: SubscribeUpdate): (r: SubscribeUpdate)
    requires Matched(ef, u).Some?
  {
    var m := Matched(ef, u).value;
    Projected(u, m.blockPayload, m.transactionPayload).(filters := m.names)
  }

  lemma AllModesKnown(ef: EventFilter, request: SubscribeRequest, canon: Canon)
    requires Represents(ef, request, canon)
    ensures ModesKnown(request)
  {
    forall name | name in request.filters
      ensures BlockMode(request.filters[name].blockPayload).Some?
              && TransactionMode(request.filters[name].transactionPayload).Some?
    {
      NameOfFilter(ef, request, canon, name);
    }
  }

  /** The modes that a match chooses: each half of the payload is kept exactly when some wanting filter keeps
      it, and everything is kept for a legacy or catch-all match. */
  lemma ChosenModes(ef: EventFilter, request: SubscribeRequest, canon: Canon, u: SubscribeUpdate)
    requires Represents(ef, request, canon) && Matched(ef, u).Some?
    ensures ModesKnown(request)
    ensures var m := Matched(ef, u).value;
            var wanting := WantingNames(request, canon, u);
            && !m.blockPayload.BlockUnspecified? && !m.transactionPayload.TxUnspecified?
            && (LegacyWants(request, u) ==> m.blockPayload == BlockFull && m.transactionPayload == TxFull)
            && (!LegacyWants(request, u) ==>
                  && (m.blockPayload == BlockFull <==>
                        exists name :: name in wanting
                          && BlockMode(request.filters[name].blockPayload) == Some(BlockFull))
                  && (KeepsRaw(m.transactionPayload) <==>
                        exists name :: name in wanting
                          && KeepsRaw(TransactionMode(request.filters[name].transactionPayload).value))
                  && (KeepsTransparent(m.transactionPayload) <==>
                        exists name :: name in wanting
                          && KeepsTransparent(TransactionMode(request.filters[name].transactionPayload).value)))
  {
    AllModesKnown(ef, request, canon);
    LegacyMatches(ef, request, canon, u);
    hide Represents, ModesKnown, WantingNames, LegacyWants, Matches, MatchedNamed, ContextOf, Modes, BlockMode,
      TransactionMode;
    NamedModes(ef, request, canon, u);
  }

  lemma NamedModes(ef: EventFilter, request: SubscribeRequest, canon: Canon, u: SubscribeUpdate)
    requires Represents(ef, request, canon) && ModesKnown(request)
    ensures var named := MatchedNamed(ef, ContextOf(u, ef.needsAddresses), |ef.named|);
            var wanting := WantingNames(request, canon, u);
            && ((exists m :: m in named && m.1.blockPayload == BlockFull) <==>
                  exists name :: name in wanting && BlockMode(request.filters[name].blockPayload) == Some(BlockFull))
            && (KeepsRaw(Richest(Modes(named))) <==>
                  exists name :: name in wanting
                    && KeepsRaw(TransactionMode(request.filters[name].transactionPayload).value))
            && (KeepsTransparent(Richest(Modes(named))) <==>
                  exists name :: name in wanting
                    && KeepsTransparent(TransactionMode(request.filters[name].transactionPayload).value))
  {
    hide Means, Matches, ContextOf;
    var named := MatchedNamed(ef, ContextOf(u, ef.needsAddresses), |ef.named|);
    var wanting := WantingNames(request, canon, u);
    MatchedNamedMeans(ef, request, canon, u, |ef.named|);
    forall name | name in wanting
      ensures exists k :: 0 <= k < |named| && named[k].0 == name && CompiledModes(request.filters[name], named[k].1)
    {
      NameOfFilter(ef, request, canon, name);
      var i :| 0 <= i < |ef.named| && ef.named[i].0 == name;
      assert ef.named[i] in named;
      var k :| 0 <= k < |named| && named[k] == ef.named[i];
    }
    forall k | 0 <= k < |named|
      ensures named[k].0 in wanting && CompiledModes(request.filters[named[k].0], named[k].1)
    {
      assert named[k] in named;
    }
    ModesCorrespond(named, request, wanting);
  }

  predicate CompiledModes(f: SubscribeRequestFilter, c: CompiledFilter) {
    BlockMode(f.blockPayload) == Some(c.blockPayload)
      && TransactionMode(f.transactionPayload) == Some(c.transactionPayload)
  }

  lemma RichestKeeps(modes: seq<TransactionPayload>)
    ensures KeepsRaw(Richest(modes)) <==> exists m :: m in modes && KeepsRaw(m)
    ensures KeepsTransparent(Richest(modes)) <==> exists m :: m in modes && KeepsTransparent(m)
  {
  }

  lemma ModesCorrespond(named: seq<(Text, CompiledFilter)>, request: SubscribeRequest, wanting: set<Text>)
    requires ModesKnown(request) && wanting <= request.filters.Keys
    requires forall name :: name in wanting ==>
               exists k :: 0 <= k < |named| && named[k].0 == name && CompiledModes(request.filters[name], named[k].1)
    requires forall k :: 0 <= k < |named| ==>
               named[k].0 in wanting && CompiledModes(request.filters[named[k].0], named[k].1)
    ensures (exists m :: m in named && m.1.blockPayload == BlockFull) <==>
              exists name :: name in wanting && BlockMode(request.filters[name].blockPayload) == Some(BlockFull)
    ensures KeepsRaw(Richest(Modes(named))) <==>
              exists name :: name in wanting
                && KeepsRaw(TransactionMode(request.filters[name].transactionPayload).value)
    ensures KeepsTransparent(Richest(Modes(named))) <==>
              exists name :: name in wanting
                && KeepsTransparent(TransactionMode(request.filters[name].transactionPayload).value)
  {
    var modes := Modes(named);
    RichestKeeps(modes);
    hide BlockMode, TransactionMode, KeepsRaw, KeepsTransparent, Richest;
    forall name | name in wanting ensures TransactionMode(request.filters[name].transactionPayload).value in modes {
      var k :| 0 <= k < |named| && named[k].0 == name && CompiledModes(request.filters[name], named[k].1);
      assert modes[k] == named[k].1.transactionPayload;
    }
    forall m | m in modes
      ensures exists name :: name in wanting && TransactionMode(request.filters[name].transactionPayload).value == m
    {
      var k :| 0 <= k < |named| && modes[k] == m;
      assert named[k].0 in wanting;
    }
  }

  predicate AloneParts(f: SubscribeRequestFilter, u: SubscribeUpdate)
    requires BlockMode(f.blockPayload).Some? && TransactionMode(f.transactionPayload).Some?
  {
    PartsKept(u, PartsOf(SentAlone(f, u)), BlockMode(f.blockPayload).value
      == BlockFull, TransactionMode(f.transactionPayload).value)
  }

  lemma AllAlone(request: SubscribeRequest, u: SubscribeUpdate)
    requires ModesKnown(request)
    ensures forall name :: name in request.filters ==> AloneParts(request.filters[name], u)
  {
    forall name | name in request.filters ensures AloneParts(request.filters[name], u) {
      ProjectedParts(u, BlockMode(request.filters[name].blockPayload).value,
                     TransactionMode(request.filters[name].transactionPayload).value);
    }
  }

  /** A part that is not empty is sent whole for someone exactly when some wanting filter's mode keeps it. */
  lemma WhoGetsWhat(request: SubscribeRequest, canon: Canon, u: SubscribeUpdate)
    requires ModesKnown(request)
    ensures var p, wanting := PartsOf(u), WantingNames(request, canon, u);
            && (p.block != [] ==> (SomeoneGets(request, canon, u, (x: Parts) => x.block) <==>
                  LegacyWants(request, u)
                  || exists name :: name in wanting
                      && BlockMode(request.filters[name].blockPayload) == Some(BlockFull)))
            && (p.raw != [] ==> (SomeoneGets(request, canon, u, (x: Parts) => x.raw) <==>
                  LegacyWants(request, u)
                  || exists name :: name in wanting
                      && KeepsRaw(TransactionMode(request.filters[name].transactionPayload).value)))
            && (p.inputs != [] ==> (SomeoneGets(request, canon, u, (x: Parts) => x.inputs) <==>
                  LegacyWants(request, u)
                  || exists name :: name in wanting
                      && KeepsTransparent(TransactionMode(request.filters[name].transactionPayload).value)))
            && (p.outputs != [] ==> (SomeoneGets(request, canon, u, (x: Parts) => x.outputs) <==>
                  LegacyWants(request, u)
                  || exists name :: name in wanting
                      && KeepsTransparent(TransactionMode(request.filters[name].transactionPayload).value)))
  {
    AllAlone(request, u);
    hide LegacyWants, Means, PartsOf, SentAlone, BlockMode, TransactionMode, KeepsRaw, KeepsTransparent;
  }

  /** The delivered update carries exactly the union of what each wanting filter alone would have been sent,
      and all of it for a legacy or catch-all match; its metadata is untouched. */
  lemma DeliveredIsUnion(ef: EventFilter, request: SubscribeRequest, canon: Canon, u: SubscribeUpdate)
    requires Represents(ef, request, canon) && Matched(ef, u).Some?
    ensures ModesKnown(request)
    ensures var p, d := PartsOf(u), PartsOf(Delivered(ef, u));
            && d.block == (if SomeoneGets(request, canon, u, (x: Parts) => x.block) then p.block else [])
            && d.raw == (if SomeoneGets(request, canon, u, (x: Parts) => x.raw) then p.raw else [])
            && d.inputs == (if SomeoneGets(request, canon, u, (x: Parts) => x.inputs) then p.inputs else [])
            && d.outputs == (if SomeoneGets(request, canon, u, (x: Parts) => x.outputs) then p.outputs else [])
    ensures Metadata(Delivered(ef, u)) == Metadata(u).(filters := Matched(ef, u).value.names)
  {
    ChosenModes(ef, request, canon, u);
    var m := Matched(ef, u).value;
    hide Means, Matched, Represents, LegacyWants, WantingNames, SomeoneGets, BlockMode, TransactionMode;
    DeliveredParts(u, m.blockPayload, m.transactionPayload, m.names);
    WhoGetsWhat(request, canon, u);
    hide Projected, PartsOf, Metadata;
  }

  lemma DeliveredParts(u: SubscribeUpdate, block: BlockPayload, tx: TransactionPayload, names: seq<Text>)
    requires !block.BlockUnspecified?
    ensures var d := Projected(u, block, tx).(filters := names);
            PartsKept(u, PartsOf(d), block == BlockFull, tx) && Metadata(d) == Metadata(u).(filters := names)
  {
    FiltersDoNotMatter(Projected(u, block, tx), names);
    ProjectionKeepsMetadata(u, block, tx);
    ProjectedParts(u, block, tx);
  }

  predicate PartsKept(u: SubscribeUpdate, d: Parts, block: bool, tx: TransactionPayload) {
    var p := PartsOf(u);
    && d.block == (if block then p.block else [])
    && d.raw == (if KeepsRaw(tx) then p.raw else [])
    && d.inputs == (if KeepsTransparent(tx) then p.inputs else [])
    && d.outputs == (if KeepsTransparent(tx) then p.outputs else [])
  }

  lemma ProjectedParts(u: SubscribeUpdate, block: BlockPayload, tx: TransactionPayload)
    requires !block.BlockUnspecified?
    ensures PartsKept(u, PartsOf(Projected(u, block, tx)), block == BlockFull, tx)
  {
  }

  lemma FiltersDoNotMatter(u: SubscribeUpdate, names: seq<Text>)
    ensures PartsOf(u.(filters := names)) == PartsOf(u)
    ensures Metadata(u.(filters := names)) == Metadata(u).(filters := names)
  {
  }

  // ---------- a whole request interpreted directly ----------

  predicate KeepsRawCode(code: int) {
    TransactionMode(code).Some? && KeepsRaw(TransactionMode(code).value)
  }

  predicate KeepsTransparentCode(code: int) {
    TransactionMode(code).Some? && KeepsTransparent(TransactionMode(code).value)
  }

  /** What each payload code of the protocol leaves of a message sent for that filter alone: of a block its bytes, of a
      transaction its bytes and its decoded inputs and outputs. */
  lemma PayloadCodes(f: SubscribeRequestFilter, u: SubscribeUpdate)
    ensures BlockMode(f.blockPayload).Some? <==> 0 <= f.blockPayload <= 2
    ensures TransactionMode(f.transactionPayload).Some? <==> 0 <= f.transactionPayload <= 4
    ensures 0 <= f.blockPayload <= 2 && 0 <= f.transactionPayload <= 4 && u.update.Some? ==>
              var alone, tx := SentAlone(f, u), f.transactionPayload;
              match u.update.value
              case Block(_, _, bytes, _, _) =>
                alone.update.Some? && alone.update.value.Block?
                  && alone.update.value.block == if f.blockPayload == 1 then [] else bytes
              case Transaction(_, _, _, _, body) =>
                alone.update.Some? && alone.update.value.Transaction? && BodyByCode(body, alone.update.value.body, tx)
              case MempoolTransaction(body) =>
                alone.update.Some? && alone.update.value.MempoolTransaction?
                  && BodyByCode(body, alone.update.value.body, tx)
              case _ => alone == u
  {
  }

  predicate BodyByCode(whole: TransactionBody, sent: TransactionBody, code: int) {
    && sent.raw == (if code == 2 || code == 4 then [] else whole.raw)
    && sent.inputs == (if code == 2 || code == 3 then [] else whole.inputs)
    && sent.outputs == (if code == 2 || code == 3 then [] else whole.outputs)
    && sent == whole.(raw := sent.raw, inputs := sent.inputs, outputs := sent.outputs, payload := sent.payload)
  }

  /** Where asking for everything is not allowed, no accepted request does so: neither as a whole, nor by its legacy
      event list, nor by a named filter. */
  lemma NoneAsksForAll(request: SubscribeRequest, limits: FilterLimits, canon: Canon)
    requires RequestAccepted(request, limits, canon) && !limits.allowAll
    ensures exists u :: !LegacyWants(request, u)
    ensures forall name :: name in request.filters ==> exists u :: !Means(request.filters[name], canon, u)
  {
    hide Means, FilterAccepted, IsEmpty;
    var t := UnlistedType(request.eventTypes);
    var u := SubscribeUpdate([], 0, t, [], 0, None, None);
    assert u.eventType !in request.eventTypes && !LegacyWants(request, u);
    forall name | name in request.filters ensures exists v :: !Means(request.filters[name], canon, v) {
      assert NamedAccepted(name, request.filters[name], limits, canon);
      EmptyFilterMeansAll(request.filters[name], canon);
    }
  }

  /** The request asks for this update: by its legacy event list, by a named filter, or by asking for everything. */
  ghost predicate Wanted(request: SubscribeRequest, canon: Canon, u: SubscribeUpdate) {
    LegacyWants(request, u) || WantingNames(request, canon, u) != {}
  }

  /** Some filter that wants the update keeps this half of its payload. */
  ghost predicate AsksBlock(request: SubscribeRequest, canon: Canon, u: SubscribeUpdate) {
    || LegacyWants(request, u)
    || exists name :: name in WantingNames(request, canon, u)
                      && BlockMode(request.filters[name].blockPayload) == Some(BlockFull)
  }

  ghost predicate AsksRaw(request: SubscribeRequest, canon: Canon, u: SubscribeUpdate) {
    || LegacyWants(request, u)
    || exists name :: name in WantingNames(request, canon, u) && KeepsRawCode(request.filters[name].transactionPayload)
  }

  ghost predicate AsksTransparent(request: SubscribeRequest, canon: Canon, u: SubscribeUpdate) {
    || LegacyWants(request, u)
    || exists name :: name in WantingNames(request, canon, u)
                      && KeepsTransparentCode(request.filters[name].transactionPayload)
  }

  /** What a request asks to be sent for an update, read off the raw request: nothing, or the update with each half of
      its payload that some wanting filter keeps, under the ascending names of those filters. */
  ghost function Asked(request: SubscribeRequest, canon: Canon, u: SubscribeUpdate): Option<SubscribeUpdate> {
    if !Wanted(request, canon, u) then
      None
    else
      var block := if AsksBlock(request, canon, u) then BlockFull else BlockMetaOnly;
      var transaction := ModeOf(AsksRaw(request, canon, u), AsksTransparent(request, canon, u));
      Some(Projected(u, block, transaction)
           .(filters := Order.Listing(WantingNames(request, canon, u), Order.TextLess)))
  }

  /** The compiled filter sends exactly what the raw request asks for, whatever order the request was compiled in. */
  lemma SentIsAsked(ef: EventFilter, request: SubscribeRequest, canon: Canon, u: SubscribeUpdate)
    requires Represents(ef, request, canon)
    ensures Asked(request, canon, u) == if Matched(ef, u).Some? then Some(Delivered(ef, u)) else None
  {
    hide Represents, Matched, LegacyWants, WantingNames, Projected, AsksBlock, AsksRaw, AsksTransparent, ModeOf;
    MatchedMeansRequest(ef, request, canon, u);
    if Matched(ef, u).Some? {
      AskedHalves(ef, request, canon, u);
    }
  }

  lemma AskedHalves(ef: EventFilter, request: SubscribeRequest, canon: Canon, u: SubscribeUpdate)
    requires Represents(ef, request, canon) && Matched(ef, u).Some?
    ensures var m := Matched(ef, u).value;
            && m.blockPayload == (if AsksBlock(request, canon, u) then BlockFull else BlockMetaOnly)
            && m.transactionPayload == ModeOf(AsksRaw(request, canon, u), AsksTransparent(request, canon, u))
  {
    assert WantingNames(request, canon, u) <= request.filters.Keys;
    hide Represents, Matched, LegacyWants, WantingNames, BlockMode, TransactionMode, KeepsRaw, KeepsTransparent;
    ChosenModes(ef, request, canon, u);
    MatchedModes(ef, u);
    LegacyKeepsAll();
  }

  lemma LegacyKeepsAll()
    ensures KeepsRaw(TxFull) && KeepsTransparent(TxFull)
  {
  }

  /** A match's modes are never other than full or metadata-only for blocks, nor unspecified for transactions. */
  lemma MatchedModes(ef: EventFilter, u: SubscribeUpdate)
    requires Matched(ef, u).Some?
    ensures var m := Matched(ef, u).value;
            && (m.blockPayload == BlockFull || m.blockPayload == BlockMetaOnly)
            && m.transactionPayload == ModeOf(KeepsRaw(m.transactionPayload), KeepsTransparent(m.transactionPayload))
  {
  }
}
