// Sets of event types as a 64-bit mask, one bit per protobuf event type.
module EventBits {
  /** The largest event type of the protocol. */
  const LAST_EVENT_TYPE: nat := 7

  function Bit(e: nat): (r: bv64)
    requires e < 64
  {
    (1 as bv64) << (e as bv64)
  }

  function Union(a: bv64, b: bv64): (r: bv64) {
    a | b
  }

  /** The mask with one more event type. */
  function With(kinds: bv64, e: nat): (r: bv64)
    requires e < 64
  {
    Union(kinds, Bit(e))
  }

  predicate Meets(a: bv64, b: bv64) {
    a & b != 0
  }

  /** Whether the mask has this event type; a type outside 0..63 has no bit. */
  predicate Has(kinds: bv64, eventType: int) {
    0 <= eventType < 64 && Meets(kinds, Bit(eventType))
  }

  lemma KnownType(a: nat)
    requires a < 8
    ensures a as bv64 < 8 && (a as bv64) as int == a
  {
    if a == 0 {
    } else if a == 1 {
    } else if a == 2 {
    } else if a == 3 {
    } else if a == 4 {
    } else if a == 5 {
    } else if a == 6 {
    } else {
    }
  }

  lemma OtherType(a: nat)
    requires 8 <= a < 64
    ensures 8 <= a as bv64 < 64
  {
  }

  lemma ShiftedOnes(x: bv64, y: bv64)
    requires x < 64 && y < 64
    ensures ((1 as bv64) << x) & ((1 as bv64) << y) != 0 <==> x == y
  {
  }

  lemma BitsDiffer(known: nat, e: nat)
    requires known < 8 && e < 64
    ensures Meets(Bit(known), Bit(e)) <==> known == e
  {
    KnownType(known);
    if e < 8 {
      KnownType(e);
    } else {
      OtherType(e);
    }
    ShiftedOnes(known as bv64, e as bv64);
  }

  lemma MissesBoth(x: bv64, y: bv64, b: bv64)
    requires !Meets(x, b) && !Meets(y, b)
    ensures !Meets(Union(x, y), b)
  {
  }

  lemma MissesEach(x: bv64, y: bv64, b: bv64)
    requires !Meets(Union(x, y), b)
    ensures !Meets(x, b) && !Meets(y, b)
  {
  }

  lemma UnionMeets(x: bv64, y: bv64, b: bv64)
    ensures Meets(Union(x, y), b) <==> Meets(x, b) || Meets(y, b)
  {
    hide Meets, Union;
    if Meets(Union(x, y), b) {
      if !Meets(x, b) && !Meets(y, b) {
        MissesBoth(x, y, b);
      }
    } else {
      MissesEach(x, y, b);
    }
  }

  /** Adding a known type adds exactly that type. */
  lemma HasAfterWith(kinds: bv64, known: nat, e: int)
    requires known <= LAST_EVENT_TYPE
    ensures Has(With(kinds, known), e) <==> Has(kinds, e) || known == e
  {
    hide Bit, Meets, Union;
    if 0 <= e < 64 {
      UnionMeets(kinds, Bit(known), Bit(e));
      BitsDiffer(known, e);
    }
  }

  lemma EmptyMask(e: int)
    ensures !Has(0, e)
  {
    hide Bit, Meets;
    if 0 <= e < 64 {
      NothingInZero(Bit(e));
    }
  }

  lemma NothingInZero(b: bv64)
    ensures !Meets(0, b)
  {
  }
}

// Subscription filters: compilation of a request, matching, and the request's direct meaning.
module Filter {
  import opened Proto
  import opened EventBits

  /** Parsing and canonical printing of addresses and transaction ids, kept abstract. */
  datatype Canon = Canon(address: Text -> Option<Text>, transactionId: Text -> Option<Text>)

  datatype FilterLimits = FilterLimits(
    maxNamedFilters: nat, maxNameBytes: nat, maxEventTypes: nat, maxTransactionIds: nat,
    maxTransparentAddresses: nat, maxAddressInclude: nat, maxAddressExclude: nat, maxAddressRequired: nat,
    allowAll: bool, transactionIdReject: seq<Text>, transparentAddressReject: seq<Text>,
    addressIncludeReject: seq<Text>, addressExcludeReject: seq<Text>, addressRequiredReject: seq<Text>)

  // ---------- compiled filters ----------

  datatype CompiledFilter = CompiledFilter(
    kinds: bv64, minHeight: Option<nat>, transactionIds: set<Text>,
    included: set<Text>, excluded: set<Text>, required: set<Text>,
    coinbase: Option<bool>, version: Option<nat>,
    hasTransparent: Option<bool>, hasSapling: Option<bool>, hasOrchard: Option<bool>,
    minValue: Option<nat>, blockPayload: BlockPayload, transactionPayload: TransactionPayload)

  function CanonicalSet(values: seq<Text>, canonical: Text -> Option<Text>): (r: set<Text>) {
    set v | v in values && canonical(v).Some? :: canonical(v).value
  }

  predicate AllCanonical(values: seq<Text>, canonical: Text -> Option<Text>) {
    forall v :: v in values ==> canonical(v).Some?
  }

  /** A list is accepted when it is short enough, every value parses and none is on the reject list. */
  predicate ListAccepted(values: seq<Text>, maximum: nat, rejected: seq<Text>, canonical: Text -> Option<Text>) {
    && |values| <= maximum
    && AllCanonical(rejected, canonical) && AllCanonical(values, canonical)
    && CanonicalSet(values, canonical) !! CanonicalSet(rejected, canonical)
  }

  method CompileList(values: seq<Text>, maximum: nat, rejected: seq<Text>, canonical: Text -> Option<Text>)
    returns (r: Result<set<Text>, Code>)
    ensures r.Ok? <==> ListAccepted(values, maximum, rejected, canonical)
    ensures r.Ok? ==> r.value == CanonicalSet(values, canonical)
    ensures r == Err(Internal) <==> |values| <= maximum && !AllCanonical(rejected, canonical)
    ensures r.Err? ==> r.error == Internal || r.error == InvalidArgument
  {
    if |values| > maximum {
      return Err(InvalidArgument);
    }
    var refused := {};
    for i := 0 to |rejected|
      invariant forall k :: 0 <= k < i ==> canonical(rejected[k]).Some?
      invariant refused == CanonicalSet(rejected[..i], canonical)
    {
      if canonical(rejected[i]).None? {
        return Err(Internal);
      }
      OneMoreCanonical(rejected, i, canonical);
      refused := refused + {canonical(rejected[i]).value};
    }
    assert rejected[..|rejected|] == rejected;
    var compiled := {};
    for i := 0 to |values|
      invariant forall k :: 0 <= k < i ==> canonical(values[k]).Some?
      invariant compiled == CanonicalSet(values[..i], canonical)
      invariant compiled !! refused
    {
      if canonical(values[i]).None? {
        return Err(InvalidArgument);
      }
      var value := canonical(values[i]).value;
      if value in refused {
        assert values[i] in values;
        return Err(InvalidArgument);
      }
      OneMoreCanonical(values, i, canonical);
      compiled := compiled + {value};
    }
    assert values[..|values|] == values;
    return Ok(compiled);
  }

  lemma OneMoreCanonical(values: seq<Text>, i: nat, canonical: Text -> Option<Text>)
    requires i < |values| && canonical(values[i]).Some?
    ensures CanonicalSet(values[..i + 1], canonical)
            == CanonicalSet(values[..i], canonical) + {canonical(values[i]).value}
  {
    assert values[..i + 1] == values[..i] + [values[i]];
  }

  function BlockMode(code: int): (r: Option<BlockPayload>) {
    if code == 0 || code == 2 then Some(BlockFull) else if code == 1 then Some(BlockMetaOnly) else None
  }

  function TransactionMode(code: int): (r: Option<TransactionPayload>) {
    if code == 0 || code == 1 then Some(TxFull)
    else if code == 2 then Some(TxMetaOnly)
    else if code == 3 then Some(TxRawOnly)
    else if code == 4 then Some(TxTransparentOnly)
    else None
  }

  predicate TypesAccepted(types: seq<int>, limits: FilterLimits) {
    |types| <= limits.maxEventTypes && forall t :: t in types ==> 1 <= t <= LAST_EVENT_TYPE
  }

  predicate FilterAccepted(f: SubscribeRequestFilter, limits: FilterLimits, canon: Canon) {
    && TypesAccepted(f.eventTypes, limits)
    && ListAccepted(f.transactionIds, limits.maxTransactionIds, limits.transactionIdReject, canon.transactionId)
    && ListAccepted(f.transparentAddresses, limits.maxTransparentAddresses, limits.transparentAddressReject,
       canon.address)
    && ListAccepted(f.addressInclude, limits.maxAddressInclude, limits.addressIncludeReject, canon.address)
    && ListAccepted(f.addressExclude, limits.maxAddressExclude, limits.addressExcludeReject, canon.address)
    && ListAccepted(f.addressRequired, limits.maxAddressRequired, limits.addressRequiredReject, canon.address)
    && BlockMode(f.blockPayload).Some? && TransactionMode(f.transactionPayload).Some?
  }

  /** A mask holds exactly the listed event types. */
  ghost predicate MaskOf(kinds: bv64, types: seq<int>) {
    && (kinds == 0 <==> types == [])
    && forall e: int :: Has(kinds, e) <==> e in types
  }

  /** The compiled filter holds what the raw one says, in canonical form. */
  ghost predicate Compiles(f: SubscribeRequestFilter, c: CompiledFilter, canon: Canon) {
    && MaskOf(c.kinds, f.eventTypes)
    && c.minHeight == f.minHeight
    && AllCanonical(f.transactionIds, canon.transactionId)
    && c.transactionIds == CanonicalSet(f.transactionIds, canon.transactionId)
    && AllCanonical(f.transparentAddresses + f.addressInclude + f.addressExclude + f.addressRequired, canon.address)
    && c.included == CanonicalSet(f.transparentAddresses + f.addressInclude, canon.address)
    && c.excluded == CanonicalSet(f.addressExclude, canon.address)
    && c.required == CanonicalSet(f.addressRequired, canon.address)
    && c.coinbase == f.coinbase && c.version == f.transactionVersion
    && c.hasTransparent == f.hasTransparent && c.hasSapling == f.hasSapling && c.hasOrchard == f.hasOrchard
    && c.minValue == f.minValue
    && BlockMode(f.blockPayload) == Some(c.blockPayload)
    && TransactionMode(f.transactionPayload) == Some(c.transactionPayload)
  }

  method CompileKinds(types: seq<int>, limits: FilterLimits) returns (r: Result<bv64, Code>)
    ensures r.Ok? <==> TypesAccepted(types, limits)
    ensures r.Ok? ==> MaskOf(r.value, types)
    ensures r.Err? ==> r.error == InvalidArgument
  {
    if |types| > limits.maxEventTypes {
      return Err(InvalidArgument);
    }
    hide MaskOf, With, Has;
    var kinds: bv64 := 0;
    NoKinds();
    for i := 0 to |types|
      invariant forall k :: 0 <= k < i ==> 1 <= types[k] <= LAST_EVENT_TYPE
      invariant MaskOf(kinds, types[..i])
    {
      assert types[i] in types;
      if !(0 <= types[i] <= LAST_EVENT_TYPE) {
        return Err(InvalidArgument);
      }
      if types[i] == 0 {
        return Err(InvalidArgument);
      }
      OneMoreKind(kinds, types[..i], types[i]);
      assert types[..i + 1] == types[..i] + [types[i]];
      kinds := With(kinds, types[i]);
    }
    assert types[..|types|] == types;
    return Ok(kinds);
  }

  lemma NoKinds()
    ensures forall types: seq<int> :: types == [] ==> MaskOf(0, types)
  {
    hide With, Has;
    forall e ensures !Has(0, e) {
      EmptyMask(e);
    }
  }

  lemma OneMoreKind(kinds: bv64, types: seq<int>, t: nat)
    requires 1 <= t <= LAST_EVENT_TYPE && MaskOf(kinds, types)
    ensures MaskOf(With(kinds, t), types + [t])
  {
    hide With, Has;
    forall e ensures Has(With(kinds, t), e) <==> e in types + [t] {
      HasAfterWith(kinds, t, e);
    }
    EmptyMask(t);
    assert Has(With(kinds, t), t);
  }

  method FromProto(f: SubscribeRequestFilter, limits: FilterLimits, canon: Canon)
    returns (r: Result<CompiledFilter, Code>)
    ensures r.Ok? <==> FilterAccepted(f, limits, canon)
    ensures r.Ok? ==> Compiles(f, r.value, canon)
    ensures r.Err? ==> r.error == InvalidArgument || r.error == Internal
  {
    hide MaskOf, ListAccepted;
    var kinds := CompileKinds(f.eventTypes, limits);
    if kinds.Err? { return Err(kinds.error); }
    var ids := CompileList(f.transactionIds, limits.maxTransactionIds, limits.transactionIdReject, canon.transactionId);
    if ids.Err? { return Err(ids.error); }
    var legacy := CompileList(f.transparentAddresses, limits.maxTransparentAddresses,
                              limits.transparentAddressReject, canon.address);
    if legacy.Err? { return Err(legacy.error); }
    var included := CompileList(f.addressInclude, limits.maxAddressInclude, limits.addressIncludeReject, canon.address);
    if included.Err? { return Err(included.error); }
    var excluded := CompileList(f.addressExclude, limits.maxAddressExclude, limits.addressExcludeReject, canon.address);
    if excluded.Err? { return Err(excluded.error); }
    var required := CompileList(f.addressRequired, limits.maxAddressRequired, limits.addressRequiredReject,
      canon.address);
    if required.Err? { return Err(required.error); }
    var block := BlockMode(f.blockPayload);
    if block.None? { return Err(InvalidArgument); }
    var transaction := TransactionMode(f.transactionPayload);
    if transaction.None? { return Err(InvalidArgument); }
    AcceptedLists(f, limits, canon);
    return Ok(CompiledFilter(
      kinds.value, f.minHeight, ids.value, included.value + legacy.value, excluded.value, required.value,
      f.coinbase, f.transactionVersion, f.hasTransparent, f.hasSapling, f.hasOrchard, f.minValue,
      block.value, transaction.value));
  }

  lemma AcceptedLists(f: SubscribeRequestFilter, limits: FilterLimits, canon: Canon)
    requires FilterAccepted(f, limits, canon)
    ensures AllCanonical(f.transactionIds, canon.transactionId)
    ensures AllCanonical(f.transparentAddresses + f.addressInclude + f.addressExclude
            + f.addressRequired, canon.address)
    ensures CanonicalSet(f.transparentAddresses + f.addressInclude, canon.address)
            == CanonicalSet(f.addressInclude, canon.address) + CanonicalSet(f.transparentAddresses, canon.address)
  {
  }

  // ---------- what an update offers to filters ----------

  const HAS_TRANSPARENT: bv8 := 1
  const HAS_SAPLING: bv8 := 2
  const HAS_ORCHARD: bv8 := 4

  /** Transaction facts with the feature flags packed into one byte. */
  datatype PackedFacts = PackedFacts(
    coinbase: bool, version: nat, features: bv8, inputValue: Option<nat>, outputValue: nat)

  function Packed(f: TransactionFacts): (r: PackedFacts) {
    PackedFacts(f.coinbase, f.version,
                (if f.hasTransparent then HAS_TRANSPARENT else 0)
                | (if f.hasSapling then HAS_SAPLING else 0)
                | (if f.hasOrchard then HAS_ORCHARD else 0),
                f.inputValue, f.outputValue)
  }

  function FactsOf(u: SubscribeUpdate): (r: Option<TransactionFacts>) {
    match u.update
    case Some(Transaction(_, _, _, _, body)) => Some(body.facts)
    case Some(MempoolTransaction(body)) => Some(body.facts)
    case Some(Utxo(_, _, _, _, _, _, facts)) => Some(facts)
    case _ => None
  }

  /** The transaction ids that an update is about. */
  function MentionedIds(u: SubscribeUpdate): (r: seq<Text>) {
    match u.update
    case Some(Transaction(_, _, _, _, body)) => [body.transactionId]
    case Some(MempoolTransaction(body)) => [body.transactionId]
    case Some(Utxo(_, _, id, _, _, _, _)) => [id]
    case Some(Mempool(_, ids)) => ids
    case Some(BestChain(_, _, Some(Grow(_, ids)))) => ids
    case _ => []
  }

  function Present(options: seq<Option<Text>>): (r: seq<Text>)
    ensures forall a :: a in r <==> Some(a) in options
  {
    if options == [] then
      []
    else
      assert options == [options[0]] + options[1..];
      (if options[0].Some? then [options[0].value] else []) + Present(options[1..])
  }

  function InputAddress(input: TransparentInput): (r: Option<Text>) {
    match input.detail
    case Some(Prevout(_, _, previous)) => previous.address
    case _ => None
  }

  function BodyAddresses(b: TransactionBody): (r: seq<Text>) {
    Present(seq(|b.inputs|, i requires 0 <= i < |b.inputs| => InputAddress(b.inputs[i])))
    + Present(seq(|b.outputs|, i requires 0 <= i < |b.outputs| => b.outputs[i].address))
  }

  function ChangeAddress(c: UtxoChange): (r: Option<Text>) {
    match c
    case Created(_, _, _, address) => address
    case Spent(_, _, _, _, previous) => previous.address
  }

  /** The decoded transparent addresses of a transaction-scoped update. */
  function AddressesOf(u: SubscribeUpdate): (r: Option<seq<Text>>) {
    match u.update
    case Some(Transaction(_, _, _, _, body)) => Some(BodyAddresses(body))
    case Some(MempoolTransaction(body)) => Some(BodyAddresses(body))
    case Some(Utxo(_, _, _, _, _, changes, _)) =>
      Some(Present(seq(|changes|, i requires 0 <= i < |changes| => ChangeAddress(changes[i]))))
    case _ => None
  }

  // ---------- matching compiled filters ----------

  datatype UpdateContext = UpdateContext(
    update: SubscribeUpdate, addresses: Option<seq<Text>>, facts: Option<PackedFacts>)

  function ContextOf(u: SubscribeUpdate, needsAddresses: bool): (r: UpdateContext) {
    UpdateContext(u, if needsAddresses then AddressesOf(u) else None,
                  if FactsOf(u).Some? then Some(Packed(FactsOf(u).value)) else None)
  }

  predicate UsesAddresses(c: CompiledFilter) {
    c.included != {} || c.excluded != {} || c.required != {}
  }

  predicate AddressesMatch(c: CompiledFilter, addresses: Option<seq<Text>>) {
    if !UsesAddresses(c) then
      true
    else if addresses.None? then
      false
    else
      && (c.included == {} || exists a :: a in addresses.value && a in c.included)
      && (forall a :: a in addresses.value ==> a !in c.excluded)
      && (forall a :: a in c.required ==> a in addresses.value)
  }

  predicate Agrees<T(==)>(expected: Option<T>, actual: T) {
    expected.None? || expected.value == actual
  }

  predicate MetadataMatch(c: CompiledFilter, facts: Option<PackedFacts>) {
    var usesMetadata := c.coinbase.Some? || c.version.Some? || c.hasTransparent.Some? || c.hasSapling.Some?
                        || c.hasOrchard.Some? || c.minValue.Some?;
    if !usesMetadata then
      true
    else if facts.None? then
      false
    else
      var f := facts.value;
      && Agrees(c.coinbase, f.coinbase)
      && Agrees(c.version, f.version)
      && Agrees(c.hasTransparent, f.features & HAS_TRANSPARENT != 0)
      && Agrees(c.hasSapling, f.features & HAS_SAPLING != 0)
      && Agrees(c.hasOrchard, f.features & HAS_ORCHARD != 0)
      && (c.minValue.None? || (f.inputValue.Some? && f.inputValue.value >= c.minValue.value)
          || f.outputValue >= c.minValue.value)
  }

  predicate Matches(c: CompiledFilter, context: UpdateContext) {
    var u := context.update;
    && (c.kinds == 0 || Has(c.kinds, u.eventType))
    && (c.minHeight.None? || (BlockHeight(u).Some? && BlockHeight(u).value >= c.minHeight.value))
    && (c.transactionIds == {} || exists id :: id in MentionedIds(u) && id in c.transactionIds)
    && AddressesMatch(c, context.addresses)
    && MetadataMatch(c, context.facts)
  }

  // ---------- the direct meaning of a raw filter ----------

  predicate IsAboutTransaction(u: SubscribeUpdate) {
    u.update.Some? && (u.update.value.Transaction? || u.update.value.MempoolTransaction? || u.update.value.Utxo?)
  }

  /** The transaction is the update's own, or is listed by it. */
  ghost predicate Mentions(u: SubscribeUpdate, id: Text) {
    && u.update.Some?
    && match u.update.value
       case Transaction(_, _, _, _, body) => id == body.transactionId
       case MempoolTransaction(body) => id == body.transactionId
       case Utxo(_, _, own, _, _, _, _) => id == own
       case Mempool(_, ids) => exists i :: 0 <= i < |ids| && ids[i] == id
       case BestChain(_, _, change) =>
         change.Some? && change.value.Grow?
           && exists i :: 0 <= i < |change.value.transactionIds| && change.value.transactionIds[i] == id
       case _ => false
  }

  /** Some input spends an output of the address, or some output is for it. */
  ghost predicate BodyShows(b: TransactionBody, a: Text) {
    || (exists i :: 0 <= i < |b.inputs| && b.inputs[i].detail.Some? && b.inputs[i].detail.value.Prevout?
                    && b.inputs[i].detail.value.previous.address == Some(a))
    || (exists i :: 0 <= i < |b.outputs| && b.outputs[i].address == Some(a))
  }

  ghost predicate ShowsAddress(u: SubscribeUpdate, a: Text) {
    && u.update.Some?
    && match u.update.value
       case Transaction(_, _, _, _, body) => BodyShows(body, a)
       case MempoolTransaction(body) => BodyShows(body, a)
       case Utxo(_, _, _, _, _, changes, _) =>
         || (exists i :: 0 <= i < |changes| && changes[i].Created? && changes[i].address == Some(a))
         || (exists i :: 0 <= i < |changes| && changes[i].Spent? && changes[i].previous.address == Some(a))
       case _ => false
  }

  /** Some listed value stands for a transaction that the update mentions, or for an address that it shows. */
  ghost predicate ListsTransaction(values: seq<Text>, canonical: Text -> Option<Text>, u: SubscribeUpdate) {
    exists v :: v in values && canonical(v).Some? && Mentions(u, canonical(v).value)
  }

  ghost predicate ListsAddress(values: seq<Text>, canonical: Text -> Option<Text>, u: SubscribeUpdate) {
    exists v :: v in values && canonical(v).Some? && ShowsAddress(u, canonical(v).value)
  }

  /** The facts that the update carries. */
  predicate Carries(u: SubscribeUpdate, facts: TransactionFacts) {
    && u.update.Some?
    && ((u.update.value.Transaction? && u.update.value.body.facts == facts)
        || (u.update.value.MempoolTransaction? && u.update.value.body.facts == facts)
        || (u.update.value.Utxo? && u.update.value.facts == facts))
  }

  ghost predicate ValuesMeant(f: SubscribeRequestFilter, facts: TransactionFacts) {
    && (f.coinbase.Some? ==> facts.coinbase == f.coinbase.value)
    && (f.transactionVersion.Some? ==> facts.version == f.transactionVersion.value)
    && (f.hasTransparent.Some? ==> facts.hasTransparent == f.hasTransparent.value)
    && (f.hasSapling.Some? ==> facts.hasSapling == f.hasSapling.value)
    && (f.hasOrchard.Some? ==> facts.hasOrchard == f.hasOrchard.value)
    && (f.minValue.Some? ==>
          facts.outputValue >= f.minValue.value
            || (facts.inputValue.Some? && facts.inputValue.value >= f.minValue.value))
  }

  ghost predicate MetadataMeant(f: SubscribeRequestFilter, u: SubscribeUpdate) {
    f.coinbase.Some? || f.transactionVersion.Some? || f.hasTransparent.Some? || f.hasSapling.Some?
    || f.hasOrchard.Some? || f.minValue.Some? ==>
      exists facts :: Carries(u, facts) && ValuesMeant(f, facts)
  }

  ghost predicate AddressesMeant(f: SubscribeRequestFilter, canon: Canon, u: SubscribeUpdate) {
    f.transparentAddresses + f.addressInclude + f.addressExclude + f.addressRequired != [] ==>
      && IsAboutTransaction(u)
      && (f.transparentAddresses + f.addressInclude != [] ==>
            ListsAddress(f.transparentAddresses + f.addressInclude, canon.address, u))
      && !ListsAddress(f.addressExclude, canon.address, u)
      && (forall v :: v in f.addressRequired ==> canon.address(v).Some? && ShowsAddress(u, canon.address(v).value))
  }

  /** What a raw filter asks for, read off the message: every populated field is a condition, and a condition on
      addresses or on transaction facts can only be met by an update that has them. */
  ghost predicate Means(f: SubscribeRequestFilter, canon: Canon, u: SubscribeUpdate) {
    && (f.eventTypes != [] ==> u.eventType in f.eventTypes)
    && (f.minHeight.Some? ==> BlockHeight(u).Some? && BlockHeight(u).value >= f.minHeight.value)
    && (f.transactionIds != [] ==> ListsTransaction(f.transactionIds, canon.transactionId, u))
    && AddressesMeant(f, canon, u)
    && MetadataMeant(f, u)
  }

  // ---------- what is extracted is what the message shows ----------

  lemma PresentAt(options: seq<Option<Text>>, a: Text)
    ensures a in Present(options) <==> exists i :: 0 <= i < |options| && options[i] == Some(a)
  {
  }

  /** Exactly the addresses of spent outputs and of outputs, each where it is absent or not. */
  lemma BodyAddressesShown(b: TransactionBody, a: Text)
    ensures a in BodyAddresses(b) <==> BodyShows(b, a)
  {
    var spent := seq(|b.inputs|, i requires 0 <= i < |b.inputs| => InputAddress(b.inputs[i]));
    var paid := seq(|b.outputs|, i requires 0 <= i < |b.outputs| => b.outputs[i].address);
    PresentAt(spent, a);
    PresentAt(paid, a);
    assert (exists i :: 0 <= i < |spent| && spent[i] == Some(a)) <==>
           exists i :: 0 <= i < |b.inputs| && b.inputs[i].detail.Some? && b.inputs[i].detail.value.Prevout?
                       && b.inputs[i].detail.value.previous.address == Some(a) by {
      if i :| 0 <= i < |spent| && spent[i] == Some(a) {
        assert spent[i] == InputAddress(b.inputs[i]);
      }
      if i :| 0 <= i < |b.inputs| && b.inputs[i].detail.Some? && b.inputs[i].detail.value.Prevout?
              && b.inputs[i].detail.value.previous.address == Some(a) {
        assert spent[i] == Some(a);
      }
    }
    assert (exists i :: 0 <= i < |paid| && paid[i] == Some(a)) <==>
           exists i :: 0 <= i < |b.outputs| && b.outputs[i].address == Some(a) by {
      if i :| 0 <= i < |b.outputs| && b.outputs[i].address == Some(a) {
        assert paid[i] == Some(a);
      }
    }
  }

  lemma ChangeAddressesShown(changes: seq<UtxoChange>, a: Text)
    ensures a in Present(seq(|changes|, i requires 0 <= i < |changes| => ChangeAddress(changes[i])))
            <==> || (exists i :: 0 <= i < |changes| && changes[i].Created? && changes[i].address == Some(a))
                 || (exists i :: 0 <= i < |changes| && changes[i].Spent? && changes[i].previous.address == Some(a))
  {
    var all := seq(|changes|, i requires 0 <= i < |changes| => ChangeAddress(changes[i]));
    PresentAt(all, a);
    if i :| 0 <= i < |all| && all[i] == Some(a) {
      assert changes[i].Created? || changes[i].Spent?;
    }
    if i :| 0 <= i < |changes| && changes[i].Created? && changes[i].address == Some(a) {
      assert all[i] == Some(a);
    }
    if i :| 0 <= i < |changes| && changes[i].Spent? && changes[i].previous.address == Some(a) {
      assert all[i] == Some(a);
    }
  }

  /** Addresses are extracted from updates about a transaction only, and then exactly those that the message shows. */
  lemma AddressesShown(u: SubscribeUpdate, a: Text)
    ensures AddressesOf(u).Some? <==> IsAboutTransaction(u)
    ensures AddressesOf(u).Some? ==> (a in AddressesOf(u).value <==> ShowsAddress(u, a))
  {
    match u.update {
      case Some(Transaction(_, _, _, _, body)) => BodyAddressesShown(body, a);
      case Some(MempoolTransaction(body)) => BodyAddressesShown(body, a);
      case Some(Utxo(_, _, _, _, _, changes, _)) => ChangeAddressesShown(changes, a);
      case _ =>
    }
    hide BodyAddresses, BodyShows, ChangeAddress;
  }

  lemma IdsMentioned(u: SubscribeUpdate, id: Text)
    ensures id in MentionedIds(u) <==> Mentions(u, id)
  {
  }

  lemma FactsCarried(u: SubscribeUpdate, facts: TransactionFacts)
    ensures FactsOf(u) == Some(facts) <==> Carries(u, facts)
  {
  }

  // ---------- compilation preserves meaning ----------

  /** Some value stands for one of these, all do, or there is none: all in terms of the canonical set. */
  lemma CanonicalListed(values: seq<Text>, canonical: Text -> Option<Text>, actual: seq<Text>)
    requires AllCanonical(values, canonical)
    ensures (exists v :: v in values && canonical(v).Some? && canonical(v).value in actual)
            <==> exists a :: a in actual && a in CanonicalSet(values, canonical)
    ensures CanonicalSet(values, canonical) == {} <==> values == []
    ensures (forall v :: v in values ==> canonical(v).value in actual)
            <==> forall a :: a in CanonicalSet(values, canonical) ==> a in actual
  {
    if values != [] {
      assert canonical(values[0]).value in CanonicalSet(values, canonical) by {
        assert values[0] in values;
      }
    }
    forall v | v in values ensures canonical(v).value in CanonicalSet(values, canonical) {
    }
    if v :| v in values && canonical(v).Some? && canonical(v).value in actual {
      assert canonical(v).value in CanonicalSet(values, canonical);
    }
  }

  /** The addresses' conditions on the extracted list. */
  ghost predicate ExtractedMeant(f: SubscribeRequestFilter, canon: Canon, addresses: Option<seq<Text>>) {
    f.transparentAddresses + f.addressInclude + f.addressExclude + f.addressRequired != [] ==>
      && addresses.Some?
      && (f.transparentAddresses + f.addressInclude != [] ==>
            exists v :: v in f.transparentAddresses + f.addressInclude && canon.address(v).Some?
                        && canon.address(v).value in addresses.value)
      && !(exists v :: v in f.addressExclude && canon.address(v).Some? && canon.address(v).value in addresses.value)
      && (forall v :: v in f.addressRequired ==> canon.address(v).Some? && canon.address(v).value in addresses.value)
  }

  lemma ExtractedIsMeant(f: SubscribeRequestFilter, canon: Canon, u: SubscribeUpdate)
    ensures ExtractedMeant(f, canon, AddressesOf(u)) <==> AddressesMeant(f, canon, u)
  {
    forall a ensures AddressesOf(u).Some? ==> (a in AddressesOf(u).value <==> ShowsAddress(u, a)) {
      AddressesShown(u, a);
    }
    AddressesShown(u, []);
    hide AddressesOf, ShowsAddress, IsAboutTransaction;
  }

  lemma ExtractedMatch(
    f: SubscribeRequestFilter, c: CompiledFilter, canon: Canon, addresses: Option<seq<Text>>, needed: bool)
    requires Compiles(f, c, canon) && (UsesAddresses(c) ==> needed)
    ensures AddressesMatch(c, if needed then addresses else None) <==> ExtractedMeant(f, canon, addresses)
  {
    hide MaskOf, CanonicalSet;
    var actual := if addresses.Some? then addresses.value else [];
    var included := f.transparentAddresses + f.addressInclude;
    assert AllCanonical(included, canon.address) && AllCanonical(f.addressExclude, canon.address)
           && AllCanonical(f.addressRequired, canon.address);
    CanonicalListed(included, canon.address, actual);
    CanonicalListed(f.addressExclude, canon.address, actual);
    CanonicalListed(f.addressRequired, canon.address, actual);
  }

  /** The compiled sets, tested against what is extracted, mean what the raw lists say of the message. */
  lemma AddressesMean(f: SubscribeRequestFilter, c: CompiledFilter, canon: Canon, u: SubscribeUpdate, needed: bool)
    requires Compiles(f, c, canon) && (UsesAddresses(c) ==> needed)
    ensures AddressesMatch(c, ContextOf(u, needed).addresses) <==> AddressesMeant(f, canon, u)
  {
    hide Compiles, AddressesMatch, ExtractedMeant, AddressesMeant, AddressesOf, UsesAddresses, FactsOf;
    ExtractedMatch(f, c, canon, AddressesOf(u), needed);
    ExtractedIsMeant(f, canon, u);
  }

  lemma MetadataMeans(f: SubscribeRequestFilter, c: CompiledFilter, canon: Canon, u: SubscribeUpdate, needed: bool)
    requires Compiles(f, c, canon)
    ensures MetadataMatch(c, ContextOf(u, needed).facts) <==> MetadataMeant(f, u)
  {
    if FactsOf(u).Some? {
      PackingKeepsFlags(FactsOf(u).value);
    }
    forall facts ensures FactsOf(u) == Some(facts) <==> Carries(u, facts) {
      FactsCarried(u, facts);
    }
    hide MaskOf, CanonicalSet, AllCanonical, FactsOf, Carries;
  }

  lemma PackingKeepsFlags(f: TransactionFacts)
    ensures var p := Packed(f).features;
            && (p & HAS_TRANSPARENT != 0 <==> f.hasTransparent)
            && (p & HAS_SAPLING != 0 <==> f.hasSapling)
            && (p & HAS_ORCHARD != 0 <==> f.hasOrchard)
  {
  }

  /** Compilation preserves meaning on every update, despite the bit mask, the canonical sets, the packed
      flags and the shortcut of not extracting addresses that no filter needs. */
  lemma CompilationPreservesMeaning(
    f: SubscribeRequestFilter, c: CompiledFilter, canon: Canon, u: SubscribeUpdate, needed: bool)
    requires Compiles(f, c, canon) && (UsesAddresses(c) ==> needed)
    ensures Matches(c, ContextOf(u, needed)) <==> Means(f, canon, u)
  {
    hide Has, AddressesMatch, MetadataMatch, AddressesMeant, MetadataMeant, CanonicalSet, AddressesOf, FactsOf,
      Mentions, MentionedIds;
    CanonicalListed(f.transactionIds, canon.transactionId, MentionedIds(u));
    forall id ensures id in MentionedIds(u) <==> Mentions(u, id) {
      IdsMentioned(u, id);
    }
    AddressesMean(f, c, canon, u, needed);
    MetadataMeans(f, c, canon, u, needed);
  }
}
