// The encoding of a transaction's transparent inputs and outputs, and what its UTXO changes mean.
module Transparent {
  import opened Proto

  const U32_COUNT: nat := 0x1_0000_0000

  /** An output, with the address that its script stands for on the network, if any. */
  datatype Output = Output(value: nat, lockScript: Bytes, address: Option<Text>)

  datatype Input =
    | SpendInput(outpoint: Outpoint, unlockScript: Bytes, sequence: nat)
    | CoinbaseInput(height: nat, data: Bytes, sequence: nat)

  datatype OrderedUtxo = OrderedUtxo(output: Output, height: nat, fromCoinbase: bool)

  /** Verified previous outputs: by outpoint for a block, by input index for a mempool transaction. */
  datatype PreviousOutputs =
    | OfBlock(spent: map<Outpoint, OrderedUtxo>)
    | OfMempool(outputs: seq<Output>)

  datatype EncodeError = InputIndexRange | InputValueRange | OutputIndexRange | OutputValueRange

  datatype Encoded = Encoded(
    inputs: seq<TransparentInput>, outputs: seq<TransparentOutput>, changes: seq<UtxoChange>,
    inputValue: Option<nat>, outputValue: nat)

  // ---------- single inputs and outputs ----------

  const UNRESOLVED := PreviousOutput(None, None, None, None, None)

  function EncodePreviousOutput(previous: PreviousOutputs, outpoint: Outpoint, index: nat): (r: PreviousOutput) {
    match previous
    case OfBlock(spent) =>
      if outpoint !in spent then
        UNRESOLVED
      else
        var utxo := spent[outpoint];
        PreviousOutput(Some(utxo.output.value), Some(utxo.output.lockScript), utxo.output.address,
                       Some(utxo.height), Some(utxo.fromCoinbase))
    case OfMempool(outputs) =>
      if index >= |outputs| then
        UNRESOLVED
      else
        PreviousOutput(Some(outputs[index].value), Some(outputs[index].lockScript), outputs[index].address, None, None)
  }

  /** The value an input brings in: nothing for coinbase, absent when the spent output is unresolved. */
  function InputValue(previous: PreviousOutputs, input: Input, index: nat): (r: Option<nat>) {
    match input
    case CoinbaseInput(_, _, _) => Some(0)
    case SpendInput(outpoint, _, _) => EncodePreviousOutput(previous, outpoint, index).value
  }

  function InputRecord(previous: PreviousOutputs, input: Input, index: nat): (r: TransparentInput) {
    match input
    case CoinbaseInput(height, data, sequence) =>
      TransparentInput(index, sequence, Some(Coinbase(height, data)))
    case SpendInput(outpoint, unlock, sequence) =>
      TransparentInput(index, sequence,
        Some(Prevout(outpoint, unlock, EncodePreviousOutput(previous, outpoint, index))))
  }

  function SpentBy(previous: PreviousOutputs, input: Input, index: nat): (r: seq<UtxoChange>) {
    match input
    case CoinbaseInput(_, _, _) => []
    case SpendInput(outpoint, unlock, sequence) =>
      [Spent(outpoint, index, unlock, sequence, EncodePreviousOutput(previous, outpoint, index))]
  }

  // ---------- whole transactions ----------

  function InputRecords(previous: PreviousOutputs, inputs: seq<Input>): (r: seq<TransparentInput>) {
    seq(|inputs|, i requires 0 <= i < |inputs| => InputRecord(previous, inputs[i], i))
  }

  function OutputRecords(outputs: seq<Output>): (r: seq<TransparentOutput>) {
    seq(|outputs|, i requires 0 <= i < |outputs| =>
      TransparentOutput(i, outputs[i].value, outputs[i].lockScript, outputs[i].address))
  }

  /** One change per non-coinbase input, in input order. */
  function SpentChanges(previous: PreviousOutputs, inputs: seq<Input>): (r: seq<UtxoChange>) {
    if inputs == [] then
      []
    else
      var n := |inputs| - 1;
      SpentChanges(previous, inputs[..n]) + SpentBy(previous, inputs[n], n)
  }

  function CreatedChanges(id: Text, outputs: seq<Output>): (r: seq<UtxoChange>) {
    seq(|outputs|, i requires 0 <= i < |outputs| =>
      Created(Outpoint(id, i), outputs[i].value, outputs[i].lockScript, outputs[i].address))
  }

  /** Spends first, then created outputs. */
  function Changes(
    previous: PreviousOutputs, id: Text, inputs: seq<Input>, outputs: seq<Output>): (r: seq<UtxoChange>)
  {
    SpentChanges(previous, inputs) + CreatedChanges(id, outputs)
  }

  predicate AllResolved(previous: PreviousOutputs, inputs: seq<Input>) {
    forall i :: 0 <= i < |inputs| ==> InputValue(previous, inputs[i], i).Some?
  }

  /** The sum of the resolved input values, counting an unresolved one as nothing. */
  function InputSum(previous: PreviousOutputs, inputs: seq<Input>): (r: nat) {
    if inputs == [] then
      0
    else
      var n := |inputs| - 1;
      var value := InputValue(previous, inputs[n], n);
      InputSum(previous, inputs[..n]) + if value.Some? then value.value else 0
  }

  /** How many inputs come before the first unresolved one. */
  function ResolvedCount(previous: PreviousOutputs, inputs: seq<Input>): (r: nat)
    ensures r <= |inputs|
    ensures AllResolved(previous, inputs[..r])
    ensures r < |inputs| ==> InputValue(previous, inputs[r], r).None?
  {
    if inputs == [] then
      0
    else
      var n := |inputs| - 1;
      var before := ResolvedCount(previous, inputs[..n]);
      assert inputs[..n][..before] == inputs[..before];
      if before == n && InputValue(previous, inputs[n], n).Some? then
        assert inputs[..|inputs|] == inputs;
        |inputs|
      else
        before
  }

  function OutputSum(outputs: seq<Output>): (r: nat) {
    if outputs == [] then 0 else OutputSum(outputs[..|outputs| - 1]) + outputs[|outputs| - 1].value
  }

  /** The u64 total that the inputs before the first unresolved one must stay within. */
  function CheckedInputSum(previous: PreviousOutputs, inputs: seq<Input>): (r: nat) {
    InputSum(previous, inputs[..ResolvedCount(previous, inputs)])
  }

  lemma {:induction false} InputSumGrows(previous: PreviousOutputs, inputs: seq<Input>, n: nat)
    requires n <= |inputs|
    ensures InputSum(previous, inputs[..n]) <= InputSum(previous, inputs)
  {
    if n == |inputs| {
      assert inputs[..n] == inputs;
    } else {
      var rest := inputs[..|inputs| - 1];
      InputSumGrows(previous, rest, n);
      assert rest[..n] == inputs[..n];
    }
  }

  lemma {:induction false} OutputSumGrows(outputs: seq<Output>, n: nat)
    requires n <= |outputs|
    ensures OutputSum(outputs[..n]) <= OutputSum(outputs)
  {
    if n == |outputs| {
      assert outputs[..n] == outputs;
    } else {
      var rest := outputs[..|outputs| - 1];
      OutputSumGrows(rest, n);
      assert rest[..n] == outputs[..n];
    }
  }

  /** As long as nothing was unresolved, the first n inputs all count towards the checked total. */
  lemma ResolvedPrefix(previous: PreviousOutputs, inputs: seq<Input>, n: nat)
    requires n <= |inputs| && AllResolved(previous, inputs[..n])
    ensures n <= ResolvedCount(previous, inputs)
    ensures InputSum(previous, inputs[..n]) <= CheckedInputSum(previous, inputs)
  {
    var r := ResolvedCount(previous, inputs);
    assert forall k :: 0 <= k < n ==> inputs[..n][k] == inputs[k];
    InputSumGrows(previous, inputs[..r], n);
    assert inputs[..r][..n] == inputs[..n];
  }

  /** The input total is exact when every previous output is resolved, and absent otherwise. */
  function InputTotal(previous: PreviousOutputs, inputs: seq<Input>): (r: Option<nat>) {
    if AllResolved(previous, inputs) then Some(InputSum(previous, inputs)) else None
  }

  // ---------- the encoder ----------

  /** Pushes what one input contributes, and returns its value. */
  method EncodeTransparentInput(
    previous: PreviousOutputs, transactionUpdates: bool, utxoUpdates: bool, input: Input, index: nat,
    inputs0: seq<TransparentInput>, changes0: seq<UtxoChange>)
    returns (inputs: seq<TransparentInput>, changes: seq<UtxoChange>, value: Option<nat>)
    ensures inputs == inputs0 + if transactionUpdates then [InputRecord(previous, input, index)] else []
    ensures changes == changes0 + if utxoUpdates then SpentBy(previous, input, index) else []
    ensures value == InputValue(previous, input, index)
  {
    inputs, changes := inputs0, changes0;
    match input {
      case SpendInput(outpoint, unlock, sequence) =>
        var resolved := EncodePreviousOutput(previous, outpoint, index);
        if transactionUpdates {
          inputs := inputs + [TransparentInput(index, sequence, Some(Prevout(outpoint, unlock, resolved)))];
        }
        if utxoUpdates {
          changes := changes + [Spent(outpoint, index, unlock, sequence, resolved)];
        }
        value := resolved.value;
      case CoinbaseInput(height, data, sequence) =>
        if transactionUpdates {
          inputs := inputs + [TransparentInput(index, sequence, Some(Coinbase(height, data)))];
        }
        value := Some(0);
    }
  }

  method EncodeTransparentOutput(
    id: Text, transactionUpdates: bool, utxoUpdates: bool, output: Output, index: nat,
    outputs0: seq<TransparentOutput>, changes0: seq<UtxoChange>)
    returns (outputs: seq<TransparentOutput>, changes: seq<UtxoChange>, value: nat)
    ensures outputs == outputs0 + if transactionUpdates
                                  then [TransparentOutput(index, output.value, output.lockScript, output.address)]
                                    else []
    ensures changes == changes0 + if utxoUpdates
                                  then [Created(Outpoint(id, index), output.value, output.lockScript,
                                    output.address)] else []
    ensures value == output.value
  {
    outputs, changes := outputs0, changes0;
    if transactionUpdates {
      outputs := outputs + [TransparentOutput(index, output.value, output.lockScript, output.address)];
    }
    if utxoUpdates {
      changes := changes + [Created(Outpoint(id, index), output.value, output.lockScript, output.address)];
    }
    value := output.value;
  }

  /** Every index fits u32, the output total fits u64, and, when a total is wanted, so does the sum of the
      inputs before the first unresolved one. */
  predicate Encodable(previous: PreviousOutputs, inputs: seq<Input>, outputs: seq<Output>, totals: bool) {
    && |inputs| <= U32_COUNT && |outputs| <= U32_COUNT
    && (totals ==> CheckedInputSum(previous, inputs) <= U64_MAX)
    && OutputSum(outputs) <= U64_MAX
  }

  /** The whole encoding of a transaction's transparent side. */
  function Encoding(
    id: Text, inputs: seq<Input>, outputs: seq<Output>, previous: PreviousOutputs,
    transactionUpdates: bool, utxoUpdates: bool): (r: Encoded)
  {
    Encoded(
      if transactionUpdates then InputRecords(previous, inputs) else [],
      if transactionUpdates then OutputRecords(outputs) else [],
      if utxoUpdates then Changes(previous, id, inputs, outputs) else [],
      if transactionUpdates || utxoUpdates then InputTotal(previous, inputs) else None,
      OutputSum(outputs))
  }

  method EncodeTransparentUpdates(
    id: Text, inputs: seq<Input>, outputs: seq<Output>, previous: PreviousOutputs,
    transactionUpdates: bool, utxoUpdates: bool)
    returns (r: Result<Encoded, EncodeError>)
    ensures r.Ok? <==> Encodable(previous, inputs, outputs, transactionUpdates || utxoUpdates)
    ensures r.Ok? ==> r.value == Encoding(id, inputs, outputs, previous, transactionUpdates, utxoUpdates)
    ensures |inputs| <= U32_COUNT && |outputs| <= U32_COUNT && r.Err? ==>
      r.error == if (transactionUpdates || utxoUpdates) && CheckedInputSum(previous, inputs) > U64_MAX
                 then InputValueRange else OutputValueRange
  {
    hide *;
    var totals := transactionUpdates || utxoUpdates;
    var inputRecords, changes, total := [], [], if totals then Some(0) else None;
    NothingYet(previous, id, inputs, outputs);
    for i := 0 to |inputs|
      invariant i <= U32_COUNT
      invariant inputRecords == if transactionUpdates then InputRecords(previous, inputs[..i]) else []
      invariant changes == if utxoUpdates then SpentChanges(previous, inputs[..i]) else []
      invariant total == if totals then InputTotal(previous, inputs[..i]) else None
      invariant total.Some? ==> total.value <= U64_MAX
      invariant total.None? && totals ==> CheckedInputSum(previous, inputs) <= U64_MAX
    {
      if i >= U32_COUNT {
        NotEncodable(previous, inputs, outputs, totals);
        return Err(InputIndexRange);
      }
      OneMoreInput(previous, inputs, i);
      var value;
      inputRecords, changes, value :=
        EncodeTransparentInput(previous, transactionUpdates, utxoUpdates, inputs[i], i, inputRecords, changes);
      if total.Some? && value.Some? {
        if total.value + value.value > U64_MAX {
          TotalWithinChecked(previous, inputs, i + 1);
          NotEncodable(previous, inputs, outputs, totals);
          return Err(InputValueRange);
        }
        total := Some(total.value + value.value);
      } else {
        if total.Some? {
          FirstUnresolved(previous, inputs, i);
        }
        total := None;
      }
    }
    assert inputs[..|inputs|] == inputs;
    if total.Some? {
      AllCounted(previous, inputs);
    }
    var outputRecords, outputTotal := [], 0;
    for i := 0 to |outputs|
      invariant i <= U32_COUNT
      invariant outputRecords == if transactionUpdates then OutputRecords(outputs[..i]) else []
      invariant changes == if utxoUpdates then Changes(previous, id, inputs, outputs[..i]) else []
      invariant outputTotal == OutputSum(outputs[..i]) <= U64_MAX
    {
      if i >= U32_COUNT {
        NotEncodable(previous, inputs, outputs, totals);
        return Err(OutputIndexRange);
      }
      OneMoreOutput(previous, id, inputs, outputs, i);
      var value;
      outputRecords, changes, value :=
        EncodeTransparentOutput(id, transactionUpdates, utxoUpdates, outputs[i], i, outputRecords, changes);
      if outputTotal + value > U64_MAX {
        OutputSumGrows(outputs, i + 1);
        NotEncodable(previous, inputs, outputs, totals);
        return Err(OutputValueRange);
      }
      outputTotal := outputTotal + value;
    }
    assert outputs[..|outputs|] == outputs;
    NotEncodable(previous, inputs, outputs, totals);
    r := Ok(Encoded(inputRecords, outputRecords, changes, total, outputTotal));
    EncodingParts(id, inputs, outputs, previous, transactionUpdates, utxoUpdates);
  }

  lemma EncodingParts(
    id: Text, inputs: seq<Input>, outputs: seq<Output>, previous: PreviousOutputs,
    transactionUpdates: bool, utxoUpdates: bool)
    ensures Encoding(id, inputs, outputs, previous, transactionUpdates, utxoUpdates)
            == Encoded(
                 if transactionUpdates then InputRecords(previous, inputs) else [],
                 if transactionUpdates then OutputRecords(outputs) else [],
                 if utxoUpdates then Changes(previous, id, inputs, outputs) else [],
                 if transactionUpdates || utxoUpdates then InputTotal(previous, inputs) else None,
                 OutputSum(outputs))
  {
  }

  lemma NothingYet(previous: PreviousOutputs, id: Text, inputs: seq<Input>, outputs: seq<Output>)
    ensures InputRecords(previous, inputs[..0]) == [] && SpentChanges(previous, inputs[..0]) == []
    ensures InputTotal(previous, inputs[..0]) == Some(0)
    ensures OutputRecords(outputs[..0]) == [] && OutputSum(outputs[..0]) == 0
    ensures Changes(previous, id, inputs, outputs[..0]) == SpentChanges(previous, inputs)
  {
    assert CreatedChanges(id, outputs[..0]) == [];
  }

  lemma NotEncodable(previous: PreviousOutputs, inputs: seq<Input>, outputs: seq<Output>, totals: bool)
    ensures !Encodable(previous, inputs, outputs, totals)
            <==> || |inputs| > U32_COUNT || |outputs| > U32_COUNT
                 || (totals && CheckedInputSum(previous, inputs) > U64_MAX)
                 || OutputSum(outputs) > U64_MAX
  {
  }

  lemma TotalWithinChecked(previous: PreviousOutputs, inputs: seq<Input>, n: nat)
    requires n <= |inputs| && InputTotal(previous, inputs[..n]).Some?
    ensures InputTotal(previous, inputs[..n]).value <= CheckedInputSum(previous, inputs)
  {
    ResolvedPrefix(previous, inputs, n);
  }

  lemma OneMoreInput(previous: PreviousOutputs, inputs: seq<Input>, i: nat)
    requires i < |inputs|
    ensures InputRecords(previous, inputs[..i + 1])
            == InputRecords(previous, inputs[..i]) + [InputRecord(previous, inputs[i], i)]
    ensures SpentChanges(previous, inputs[..i + 1])
            == SpentChanges(previous, inputs[..i]) + SpentBy(previous, inputs[i], i)
    ensures var total, value := InputTotal(previous, inputs[..i]), InputValue(previous, inputs[i], i);
            InputTotal(previous, inputs[..i + 1])
            == if total.Some? && value.Some? then Some(total.value + value.value) else None
  {
    assert inputs[..i + 1][..i] == inputs[..i];
    assert forall k :: 0 <= k < i ==> inputs[..i + 1][k] == inputs[..i][k];
    assert inputs[..i + 1][i] == inputs[i];
  }

  lemma OneMoreOutput(previous: PreviousOutputs, id: Text, inputs: seq<Input>, outputs: seq<Output>, i: nat)
    requires i < |outputs|
    ensures OutputRecords(outputs[..i + 1])
            == OutputRecords(outputs[..i])
               + [TransparentOutput(i, outputs[i].value, outputs[i].lockScript, outputs[i].address)]
    ensures Changes(previous, id, inputs, outputs[..i + 1])
            == Changes(previous, id, inputs, outputs[..i])
               + [Created(Outpoint(id, i), outputs[i].value, outputs[i].lockScript, outputs[i].address)]
    ensures OutputSum(outputs[..i + 1]) == OutputSum(outputs[..i]) + outputs[i].value
  {
    assert outputs[..i + 1][..i] == outputs[..i];
  }

  lemma FirstUnresolved(previous: PreviousOutputs, inputs: seq<Input>, i: nat)
    requires i < |inputs| && InputTotal(previous, inputs[..i]).Some? && InputValue(previous, inputs[i], i).None?
    ensures Some(CheckedInputSum(previous, inputs)) == InputTotal(previous, inputs[..i])
  {
    var r := ResolvedCount(previous, inputs);
    ResolvedPrefix(previous, inputs, i);
    assert forall k :: 0 <= k < r ==> inputs[..r][k] == inputs[k];
  }

  lemma AllCounted(previous: PreviousOutputs, inputs: seq<Input>)
    requires InputTotal(previous, inputs).Some?
    ensures Some(CheckedInputSum(previous, inputs)) == InputTotal(previous, inputs)
  {
    assert inputs[..|inputs|] == inputs;
    ResolvedPrefix(previous, inputs, |inputs|);
  }

  // ---------- what the changes do to a UTXO set ----------

  type UtxoSet = map<Outpoint, nat>

  function Applied(utxos: UtxoSet, change: UtxoChange): (r: UtxoSet) {
    match change
    case Spent(outpoint, _, _, _, _) => utxos - {outpoint}
    case Created(outpoint, value, _, _) => utxos[outpoint := value]
  }

  function AppliedAll(utxos: UtxoSet, changes: seq<UtxoChange>): (r: UtxoSet) {
    if changes == [] then
      utxos
    else
      Applied(AppliedAll(utxos, changes[..|changes| - 1]), changes[|changes| - 1])
  }

  /** The outpoints that the non-coinbase inputs spend. */
  function SpentOutpoints(inputs: seq<Input>): (r: set<Outpoint>) {
    set input | input in inputs && input.SpendInput? :: input.outpoint
  }

  /** The outputs at (id, 0) to (id, n - 1). */
  function CreatedOutputs(id: Text, outputs: seq<Output>): (r: UtxoSet) {
    map i | 0 <= i < |outputs| :: Outpoint(id, i) := outputs[i].value
  }

  lemma {:induction false} AppliedAppend(utxos: UtxoSet, a: seq<UtxoChange>, b: seq<UtxoChange>)
    ensures AppliedAll(utxos, a + b) == AppliedAll(AppliedAll(utxos, a), b)
  {
    if b == [] {
      assert a + b == a;
    } else {
      AppliedAppend(utxos, a, b[..|b| - 1]);
      assert (a + b)[..|a + b| - 1] == a + b[..|b| - 1];
    }
  }

  lemma OneSpent(utxos: UtxoSet, previous: PreviousOutputs, input: Input, n: nat)
    ensures AppliedAll(utxos, SpentBy(previous, input, n)) == utxos - if input.SpendInput? then {input.outpoint} else {}
  {
    if input.SpendInput? {
      assert AppliedAll(utxos, SpentBy(previous, input, n)[..0]) == utxos;
    }
  }

  lemma {:induction false} SpentRemoved(utxos: UtxoSet, previous: PreviousOutputs, inputs: seq<Input>)
    ensures AppliedAll(utxos, SpentChanges(previous, inputs)) == utxos - SpentOutpoints(inputs)
  {
    if inputs == [] {
      assert SpentOutpoints(inputs) == {};
    } else {
      hide AppliedAll, SpentBy, SpentOutpoints;
      var n := |inputs| - 1;
      SpentRemoved(utxos, previous, inputs[..n]);
      AppliedAppend(utxos, SpentChanges(previous, inputs[..n]), SpentBy(previous, inputs[n], n));
      OneSpent(utxos - SpentOutpoints(inputs[..n]), previous, inputs[n], n);
      OneMoreSpent(inputs);
    }
  }

  lemma OneMoreSpent(inputs: seq<Input>)
    requires inputs != []
    ensures var last := inputs[|inputs| - 1];
            SpentOutpoints(inputs)
            == SpentOutpoints(inputs[..|inputs| - 1]) + if last.SpendInput? then {last.outpoint} else {}
  {
    assert inputs == inputs[..|inputs| - 1] + [inputs[|inputs| - 1]];
  }

  lemma {:induction false} CreatedAdded(utxos: UtxoSet, id: Text, outputs: seq<Output>)
    ensures AppliedAll(utxos, CreatedChanges(id, outputs)) == utxos + CreatedOutputs(id, outputs)
  {
    var changes := CreatedChanges(id, outputs);
    if outputs != [] {
      var n := |outputs| - 1;
      CreatedAdded(utxos, id, outputs[..n]);
      assert changes[..n] == CreatedChanges(id, outputs[..n]);
      OneMoreCreated(utxos, id, outputs);
    } else {
      assert changes == [];
    }
  }

  lemma OneMoreCreated(utxos: UtxoSet, id: Text, outputs: seq<Output>)
    requires outputs != []
    ensures var n := |outputs| - 1;
            && utxos + CreatedOutputs(id, outputs)
               == (utxos + CreatedOutputs(id, outputs[..n]))[Outpoint(id, n) := outputs[n].value]
            && forall k :: k in CreatedOutputs(id, outputs[..n]) ==> k != Outpoint(id, n)
  {
    var n := |outputs| - 1;
    var a, b := CreatedOutputs(id, outputs[..n]), CreatedOutputs(id, outputs);
    forall k ensures k in b <==> k in a || k == Outpoint(id, n) {
      assert k in b <==> exists i :: 0 <= i < |outputs| && k == Outpoint(id, i);
    }
    assert b == a[Outpoint(id, n) := outputs[n].value];
  }

  /** Folding a transaction's changes removes exactly the spent outpoints and then adds exactly the outputs. */
  lemma ChangesReplayTransaction(
    utxos: UtxoSet, previous: PreviousOutputs, id: Text, inputs: seq<Input>, outputs: seq<Output>)
    ensures AppliedAll(utxos, Changes(previous, id, inputs, outputs))
            == utxos - SpentOutpoints(inputs) + CreatedOutputs(id, outputs)
  {
    AppliedAppend(utxos, SpentChanges(previous, inputs), CreatedChanges(id, outputs));
    SpentRemoved(utxos, previous, inputs);
    CreatedAdded(utxos - SpentOutpoints(inputs), id, outputs);
  }

  // ---------- conservation ----------

  ghost function Total(utxos: UtxoSet): nat {
    if utxos == map[] then
      0
    else
      var k :| k in utxos;
      utxos[k] + Total(utxos - {k})
  }

  lemma {:induction false} TotalWithout(utxos: UtxoSet, k: Outpoint)
    requires k in utxos
    ensures Total(utxos) == utxos[k] + Total(utxos - {k})
    decreases |utxos|
  {
    var x :| x in utxos && Total(utxos) == utxos[x] + Total(utxos - {x});
    if x != k {
      TotalWithout(utxos - {x}, k);
      TotalWithout(utxos - {k}, x);
      assert utxos - {x} - {k} == utxos - {k} - {x};
    }
  }

  lemma TotalWith(utxos: UtxoSet, k: Outpoint, value: nat)
    requires k !in utxos
    ensures Total(utxos[k := value]) == Total(utxos) + value
  {
    TotalWithout(utxos[k := value], k);
    assert utxos[k := value] - {k} == utxos;
  }

  /** The output that an input spends is known: for a block under its outpoint, for a mempool transaction at the
      input's index. */
  predicate IsKnown(previous: PreviousOutputs, outpoint: Outpoint, index: nat) {
    match previous
    case OfBlock(spent) => outpoint in spent
    case OfMempool(outputs) => index < |outputs|
  }

  function KnownOutput(previous: PreviousOutputs, outpoint: Outpoint, index: nat): (r: Output)
    requires IsKnown(previous, outpoint, index)
  {
    match previous
    case OfBlock(spent) => spent[outpoint].output
    case OfMempool(outputs) => outputs[index]
  }

  /** The input total is there exactly when every spent output is known. */
  lemma TotalKnown(previous: PreviousOutputs, inputs: seq<Input>)
    ensures InputTotal(previous, inputs).Some?
            <==> forall i :: 0 <= i < |inputs| && inputs[i].SpendInput? ==> IsKnown(previous, inputs[i].outpoint, i)
  {
    forall i | 0 <= i < |inputs|
      ensures InputValue(previous, inputs[i], i).Some?
              <==> inputs[i].SpendInput? ==> IsKnown(previous, inputs[i].outpoint, i)
    {
    }
  }

  /** No outpoint is spent twice, and each is in the set with the value of the output known for it. */
  ghost predicate SpendsFrom(utxos: UtxoSet, previous: PreviousOutputs, inputs: seq<Input>) {
    && (forall i, j :: 0 <= i < j < |inputs| && inputs[i].SpendInput? && inputs[j].SpendInput? ==>
          inputs[i].outpoint != inputs[j].outpoint)
    && (forall i :: 0 <= i < |inputs| && inputs[i].SpendInput? ==>
          && inputs[i].outpoint in utxos && IsKnown(previous, inputs[i].outpoint, i)
          && KnownOutput(previous, inputs[i].outpoint, i).value == utxos[inputs[i].outpoint])
  }

  lemma {:induction false} SpentTotal(utxos: UtxoSet, previous: PreviousOutputs, inputs: seq<Input>)
    requires SpendsFrom(utxos, previous, inputs)
    ensures Total(utxos - SpentOutpoints(inputs)) + InputSum(previous, inputs) == Total(utxos)
  {
    if inputs == [] {
      assert utxos - SpentOutpoints(inputs) == utxos;
    } else {
      var n := |inputs| - 1;
      var rest, last := inputs[..n], inputs[n];
      SpentTotal(utxos, previous, rest);
      OneMoreSpent(inputs);
      var left := utxos - SpentOutpoints(rest);
      if last.SpendInput? {
        assert last.outpoint !in SpentOutpoints(rest);
        TotalWithout(left, last.outpoint);
        assert utxos - SpentOutpoints(inputs) == left - {last.outpoint};
      } else {
        assert SpentOutpoints(inputs) == SpentOutpoints(rest);
      }
    }
  }

  lemma {:induction false} CreatedTotal(utxos: UtxoSet, id: Text, outputs: seq<Output>)
    requires forall i :: 0 <= i < |outputs| ==> Outpoint(id, i) !in utxos
    ensures Total(utxos + CreatedOutputs(id, outputs)) == Total(utxos) + OutputSum(outputs)
  {
    if outputs == [] {
      assert utxos + CreatedOutputs(id, outputs) == utxos;
    } else {
      var n := |outputs| - 1;
      CreatedTotal(utxos, id, outputs[..n]);
      var before := utxos + CreatedOutputs(id, outputs[..n]);
      OneMoreCreated(utxos, id, outputs);
      TotalWith(before, Outpoint(id, n), outputs[n].value);
    }
  }

  /** Folding the changes moves the set's total by exactly the output total minus the input total. */
  lemma Conservation(utxos: UtxoSet, previous: PreviousOutputs, id: Text, inputs: seq<Input>, outputs: seq<Output>)
    requires SpendsFrom(utxos, previous, inputs)
    requires forall i :: 0 <= i < |outputs| ==> Outpoint(id, i) !in utxos
    ensures InputTotal(previous, inputs).Some?
    ensures Total(AppliedAll(utxos, Changes(previous, id, inputs, outputs)))
            == Total(utxos) - InputTotal(previous, inputs).value + OutputSum(outputs)
  {
    ChangesReplayTransaction(utxos, previous, id, inputs, outputs);
    SpentTotal(utxos, previous, inputs);
    CreatedTotal(utxos - SpentOutpoints(inputs), id, outputs);
    forall i | 0 <= i < |inputs| ensures InputValue(previous, inputs[i], i).Some? {
      assert inputs[i].SpendInput? || inputs[i].CoinbaseInput?;
    }
  }
}
