// The explorer's event decoder: topics and data of a log, taken apart by an event's declaration and
// put back into one list of arguments in declaration order. Arguments are of static types, so each
// takes one 32-byte word, of a topic or of the data.
module Explorer {
  import opened Evm
  import Amounts

  type Word = uint256

  const TWO_256: nat := MAX_UINT256 + 1
  const TWO_255: int := TWO_256 / 2
  const TWO_160: nat := 0x1_0000_0000_0000_0000_0000_0000_0000_0000_0000_0000

  datatype AbiType = AddressTy | UintTy(bits: nat) | IntTy(bits: nat) | BoolTy | Bytes32Ty

  datatype Argument = Argument(name: string, ty: AbiType, indexed: bool)

  datatype EventSpec = EventSpec(name: string, inputs: seq<Argument>)

  // A decoded value. SmallVal is a number of 8, 16, 32 or 64 bits from the data, which is not a big
  // integer to the decoder; HexVal is a topic kept as text because its type is none the decoder knows.
  datatype Value =
    | AddressVal(address: nat)
    | NumberVal(n: int)
    | SmallVal(n: int)
    | BoolVal(b: bool)
    | BytesVal(bytes: Word)
    | HexVal(topic: Word)

  datatype Log = Log(address: nat, topics: seq<Word>, data: seq<Word>)

  // A value that is not there is printed as <nil>.
  datatype Param = Param(name: string, ty: AbiType, value: Option<Value>, human: Option<string>,
                         friendly: Option<string>)

  datatype Place = Named(name: string) | Plain(address: nat)

  datatype LogEntry =
    | Decoded(place: Place, event: string, params: seq<Param>)
    | Unknown(place: Place, topic: Word)

  // The friendly names of known addresses.
  type Labels = map<nat, string>

  function PlaceOf(labels: Labels, address: nat): Place
  {
    if address in labels then Named(labels[address]) else Plain(address)
  }

  predicate Small(bits: nat)
  {
    bits == 8 || bits == 16 || bits == 32 || bits == 64
  }

  function Numeral(n: int, bits: nat): Value
  {
    if Small(bits) then SmallVal(n) else NumberVal(n)
  }

  function Power(bits: nat): nat
  {
    if bits == 0 then 1 else 2 * Power(bits - 1)
  }

  // Two's complement numbers of that many bits, and at most 256.
  predicate Signed(n: int, bits: nat)
  {
    0 < bits && 0 <= n + Power(bits - 1) < 2 * Power(bits - 1) && -TWO_255 <= n < TWO_255
  }

  // ---- Encoding, as section 'Events' of the Solidity Contract ABI Specification has it ----

  predicate Fits(v: Value, ty: AbiType)
  {
    match ty
    case AddressTy => v.AddressVal? && v.address < TWO_160
    case UintTy(bits) => v.NumberVal? && 0 <= v.n < Power(bits) && v.n < TWO_256
    case IntTy(bits) => v.NumberVal? && Signed(v.n, bits)
    case BoolTy => v.BoolVal?
    case Bytes32Ty => v.BytesVal?
  }

  function WordOf(v: Value): Word
    requires v.AddressVal? ==> v.address < TWO_160
    requires v.NumberVal? || v.SmallVal? ==> -TWO_255 <= v.n < TWO_256
  {
    match v
    case AddressVal(a) => a
    case NumberVal(n) => if n < 0 then n + TWO_256 else n
    case SmallVal(n) => if n < 0 then n + TWO_256 else n
    case BoolVal(b) => if b then 1 else 0
    case BytesVal(w) => w
    case HexVal(w) => w
  }

  predicate WellTyped(inputs: seq<Argument>, values: seq<Value>)
  {
    |values| == |inputs| && forall i | 0 <= i < |inputs| :: Fits(values[i], inputs[i].ty)
  }

  // The words of the first n arguments that are indexed, or that are not.
  function Words(inputs: seq<Argument>, values: seq<Value>, n: nat, indexed: bool): seq<Word>
    requires WellTyped(inputs, values) && n <= |inputs|
  {
    if n == 0 then [] else
      Words(inputs, values, n - 1, indexed) + if inputs[n - 1].indexed == indexed then [WordOf(values[n - 1])] else []
  }

  datatype Emission = Emission(address: nat, id: Word, values: seq<Value>)

  function Encode(spec: EventSpec, e: Emission): Log
    requires WellTyped(spec.inputs, e.values)
  {
    Log(e.address, [e.id] + Words(spec.inputs, e.values, |spec.inputs|, true),
      Words(spec.inputs, e.values, |spec.inputs|, false))
  }

  // ---- Decoding one word ----

  // A topic is read as a number that is never negative, whatever the type's sign.
  function TopicValue(ty: AbiType, topic: Word): Value
  {
    match ty
    case AddressTy => AddressVal(topic % TWO_160)
    case UintTy(_) => NumberVal(topic)
    case IntTy(_) => NumberVal(topic)
    case BoolTy => BoolVal(topic != 0)
    case Bytes32Ty => HexVal(topic)
  }

  // A data word; None is one that encodes no value of the type. Numbers are checked against the types of
  // 8, 16, 32 and 64 bits alone; others are shown as they come.
  function DataValue(ty: AbiType, w: Word): Option<Value>
  {
    match ty
    case AddressTy => Some(AddressVal(w % TWO_160))
    case UintTy(bits) => if Small(bits) && w >= Power(bits) then None else Some(Numeral(w, bits))
    case IntTy(bits) =>
      var n: int := if w < TWO_255 then w else w - TWO_256;
      if Small(bits) && !Signed(n, bits) then None else Some(Numeral(n, bits))
    case BoolTy => if w == 0 then Some(BoolVal(false)) else if w == 1 then Some(BoolVal(true)) else None
    case Bytes32Ty => Some(BytesVal(w))
  }

  // All of them or, if one is missing or malformed, none.
  function Unpacked(types: seq<AbiType>, data: seq<Word>): Option<seq<Value>>
  {
    if types == [] then Some([])
    else if |data| < |types| then None else
    var last := |types| - 1;
    var before, value := Unpacked(types[..last], data), DataValue(types[last], data[last]);
    if before.Some? && value.Some? then Some(before.value + [value.value]) else None
  }

  // ---- Decoding a log, argument by argument ----

  // How many of the first n arguments are indexed.
  function IndexedBefore(inputs: seq<Argument>, n: nat): (k: nat)
    requires n <= |inputs|
    ensures k <= n
  {
    if n == 0 then 0 else IndexedBefore(inputs, n - 1) + if inputs[n - 1].indexed then 1 else 0
  }

  function DataTypes(inputs: seq<Argument>, n: nat): (types: seq<AbiType>)
    requires n <= |inputs|
    ensures |types| == n - IndexedBefore(inputs, n)
  {
    if n == 0 then [] else DataTypes(inputs, n - 1) + if inputs[n - 1].indexed then [] else [inputs[n - 1].ty]
  }

  // An indexed argument is the topic after the event's id and the indexed ones before it; another is
  // the data value after the others before it; what is not there is left blank.
  function ValueAt(inputs: seq<Argument>, log: Log, i: nat): Option<Value>
    requires i < |inputs|
  {
    var k := IndexedBefore(inputs, i);
    if inputs[i].indexed then
      if 1 + k < |log.topics| then Some(TopicValue(inputs[i].ty, log.topics[1 + k])) else None
    else
      var values := Unpacked(DataTypes(inputs, |inputs|), log.data);
      if values.Some? && i - k < |values.value| then Some(values.value[i - k]) else None
  }

  // An amount that is a big integer is shown in whole tokens too, a known address with its name.
  function Shown(labels: Labels, input: Argument, value: Option<Value>): Param
  {
    Param(input.name, input.ty, value,
      if value.Some? && value.value.NumberVal? && (input.name == "amount" || input.name == "value")
      then Some(Amounts.Human(value.value.n) + " WFUSD") else None,
      if value.Some? && value.value.AddressVal? && value.value.address in labels
      then Some(labels[value.value.address]) else None)
  }

  function Params(labels: Labels, inputs: seq<Argument>, log: Log, n: nat): (params: seq<Param>)
    requires n <= |inputs|
    ensures |params| == n
  {
    if n == 0 then [] else
      Params(labels, inputs, log, n - 1) + [Shown(labels, inputs[n - 1], ValueAt(inputs, log, n - 1))]
  }

  type EventTable = map<Word, EventSpec>

  // A log without topics shows nothing, one with an unknown id only that id.
  function Entry(labels: Labels, events: EventTable, log: Log): seq<LogEntry>
  {
    if log.topics == [] then []
    else if log.topics[0] !in events then [Unknown(PlaceOf(labels, log.address), log.topics[0])]
    else
      var spec := events[log.topics[0]];
      [Decoded(PlaceOf(labels, log.address), spec.name, Params(labels, spec.inputs, log, |spec.inputs|))]
  }

  function Entries(labels: Labels, events: EventTable, logs: seq<Log>): seq<LogEntry>
  {
    if logs == [] then [] else Entries(labels, events, logs[..|logs| - 1]) + Entry(labels, events, logs[|logs| - 1])
  }

  lemma {:induction false} UnpackedLength(types: seq<AbiType>, data: seq<Word>)
    ensures Unpacked(types, data).Some? ==> |Unpacked(types, data).value| == |types|
    decreases |types|
  {
    if types != [] && |data| >= |types| {
      UnpackedLength(types[..|types| - 1], data);
    }
  }

  method DecodeLogs(labels: Labels, events: EventTable, logs: seq<Log>) returns (out: seq<LogEntry>)
    ensures out == Entries(labels, events, logs)
  {
    out := [];
    var l := 0;
    while l < |logs|
      invariant l <= |logs|
      invariant out == Entries(labels, events, logs[..l])
    {
      assert logs[..l + 1][..l] == logs[..l];
      var log := logs[l];
      l := l + 1;
      if |log.topics| == 0 {
        continue;
      }
      if log.topics[0] !in events {
        out := out + [Unknown(PlaceOf(labels, log.address), log.topics[0])];
        continue;
      }
      var spec := events[log.topics[0]];
      var params := DecodeParams(labels, spec.inputs, log);
      out := out + [Decoded(PlaceOf(labels, log.address), spec.name, params)];
    }
    assert logs[..l] == logs;
  }

  // The body of the loop over logs, once the event is known.
  method DecodeParams(labels: Labels, inputs: seq<Argument>, log: Log) returns (params: seq<Param>)
    ensures params == Params(labels, inputs, log, |inputs|)
  {
    hide Shown, TopicValue, Unpacked;
    var types: seq<AbiType> := [];
    for i := 0 to |inputs|
      invariant types == DataTypes(inputs, i)
    {
      if !inputs[i].indexed {
        types := types + [inputs[i].ty];
      }
    }
    var unpacked := Unpacked(types, log.data);
    UnpackedLength(types, log.data);
    var values := if unpacked.Some? then unpacked.value else [];
    var ti, di := 1, 0;
    params := [];
    for i := 0 to |inputs|
      invariant params == Params(labels, inputs, log, i)
      invariant ti == 1 + IndexedBefore(inputs, i)
      invariant di == if unpacked.Some? then i - IndexedBefore(inputs, i) else 0
    {
      var input := inputs[i];
      var v: Option<Value> := None;
      if input.indexed {
        if ti < |log.topics| {
          v := Some(TopicValue(input.ty, log.topics[ti]));
        }
        ti := ti + 1;
      } else if di < |values| {
        v := Some(values[di]);
        di := di + 1;
      }
      DataFits(inputs, i);
      params := params + [Shown(labels, input, v)];
    }
  }

  // Before an argument that is not indexed there are fewer data values than in all.
  lemma {:induction false} DataFits(inputs: seq<Argument>, i: nat)
    requires i < |inputs|
    ensures !inputs[i].indexed ==> i - IndexedBefore(inputs, i) < |inputs| - IndexedBefore(inputs, |inputs|)
  {
    IndexedGrows(inputs, i + 1, |inputs|);
  }

  lemma {:induction false} IndexedGrows(inputs: seq<Argument>, m: nat, n: nat)
    requires m <= n <= |inputs|
    ensures IndexedBefore(inputs, n) <= IndexedBefore(inputs, m) + n - m
    decreases n
  {
    if m < n {
      IndexedGrows(inputs, m, n - 1);
    }
  }

  // ---- Decoding undoes encoding ----

  // Each argument's word is where the decoder looks for it.
  lemma {:induction false} WordIsThere(inputs: seq<Argument>, values: seq<Value>, n: nat, i: nat)
    requires WellTyped(inputs, values) && i < n <= |inputs|
    ensures var k := IndexedBefore(inputs, i);
      var at := if inputs[i].indexed then k else i - k;
      var words := Words(inputs, values, n, inputs[i].indexed);
      at < |words| && words[at] == WordOf(values[i])
    decreases n
  {
    WordsCount(inputs, values, n - 1);
    if i < n - 1 {
      WordIsThere(inputs, values, n - 1, i);
    }
  }

  lemma {:induction false} WordsCount(inputs: seq<Argument>, values: seq<Value>, n: nat)
    requires WellTyped(inputs, values) && n <= |inputs|
    ensures |Words(inputs, values, n, true)| == IndexedBefore(inputs, n)
    ensures |Words(inputs, values, n, false)| == n - IndexedBefore(inputs, n)
    decreases n
  {
    if n > 0 {
      WordsCount(inputs, values, n - 1);
    }
  }

  lemma DataValueReadsBack(v: Value, ty: AbiType)
    requires Fits(v, ty)
    ensures DataValue(ty, WordOf(v)) == Some(AsData(ty, v))
  {}

  // What unpacking makes of a value: a small number is not a big integer.
  function AsData(ty: AbiType, v: Value): Value
  {
    if (ty.UintTy? || ty.IntTy?) && v.NumberVal? then Numeral(v.n, ty.bits) else v
  }

  function DataValues(inputs: seq<Argument>, values: seq<Value>, n: nat): (kept: seq<Value>)
    requires n <= |inputs| == |values|
    ensures |kept| == n - IndexedBefore(inputs, n)
  {
    if n == 0 then [] else
      DataValues(inputs, values, n - 1)
      + if inputs[n - 1].indexed then [] else [AsData(inputs[n - 1].ty, values[n - 1])]
  }

  lemma UnpackedLast(types: seq<AbiType>, ty: AbiType, data: seq<Word>, values: seq<Value>, v: Value)
    requires Unpacked(types, data) == Some(values) && |types| < |data| && DataValue(ty, data[|types|]) == Some(v)
    ensures Unpacked(types + [ty], data) == Some(values + [v])
  {
    hide DataValue;
    var more := types + [ty];
    assert more[..|more| - 1] == types && more[|more| - 1] == ty;
    assert Unpacked(more[..|more| - 1], data) == Some(values);
  }

  // Unpacking the data of an encoded event gives its values back, whatever data follows.
  lemma {:induction false} UnpackReadsBack(inputs: seq<Argument>, values: seq<Value>, n: nat, more: seq<Word>)
    requires WellTyped(inputs, values) && n <= |inputs|
    ensures Unpacked(DataTypes(inputs, n), Words(inputs, values, n, false) + more) ==
            Some(DataValues(inputs, values, n))
    decreases n
  {
    hide WordOf, DataValue, Unpacked;
    if n == 0 {
      NothingToUnpack(more);
    } else {
      var words, types := Words(inputs, values, n - 1, false), DataTypes(inputs, n - 1);
      if inputs[n - 1].indexed {
        UnpackReadsBack(inputs, values, n - 1, more);
        assert types + [] == types && words + [] == words;
        assert DataValues(inputs, values, n - 1) + [] == DataValues(inputs, values, n - 1);
      } else {
        var word := [WordOf(values[n - 1])];
        WordsCount(inputs, values, n - 1);
        UnpackReadsBack(inputs, values, n - 1, word + more);
        DataValueReadsBack(values[n - 1], inputs[n - 1].ty);
        assert words + word + more == words + (word + more);
        UnpackedLast(types, inputs[n - 1].ty, words + (word + more), DataValues(inputs, values, n - 1),
          AsData(inputs[n - 1].ty, values[n - 1]));
      }
    }
  }

  lemma NothingToUnpack(data: seq<Word>)
    ensures Unpacked([], [] + data) == Some([])
  {}

  lemma {:induction false} DataValueAt(inputs: seq<Argument>, values: seq<Value>, n: nat, i: nat)
    requires i < n <= |inputs| == |values| && !inputs[i].indexed
    ensures var at := i - IndexedBefore(inputs, i);
      at < |DataValues(inputs, values, n)| && DataValues(inputs, values, n)[at] == AsData(inputs[i].ty, values[i])
    decreases n
  {
    if i < n - 1 {
      DataValueAt(inputs, values, n - 1, i);
    }
  }

  // What the decoder makes of a value: in a topic, bytes become their hexadecimal text; in the data, a
  // small number becomes one of its own width. Both are printed as the value they are.
  function Restored(input: Argument, v: Value): Value
  {
    if !input.indexed then AsData(input.ty, v)
    else if v.BytesVal? then HexVal(v.bytes)
    else v
  }

  // The one value the decoder gets wrong: a negative number in a topic comes out as a large positive one.
  predicate Misread(input: Argument, v: Value)
  {
    input.indexed && input.ty.IntTy? && v.NumberVal? && v.n < 0
  }

  lemma TopicReadsBack(input: Argument, v: Value)
    requires Fits(v, input.ty) && input.indexed
    ensures TopicValue(input.ty, WordOf(v)) == Restored(input, v) <==> !Misread(input, v)
  {}

  // At an event with a signed indexed argument, which none of the explorer's own has: -1 is shown as 2^256-1.
  lemma NegativeTopicIsMisread()
    ensures var spec := EventSpec("Moved", [Argument("delta", IntTy(8), true)]);
      && WellTyped(spec.inputs, [NumberVal(-1)])
      && Entry(map[], map[0 := spec], Encode(spec, Emission(7, 0, [NumberVal(-1)]))) ==
         [Decoded(Plain(7), "Moved", [Param("delta", IntTy(8), Some(NumberVal(MAX_UINT256)), None, None)])]
  {
    var spec := EventSpec("Moved", [Argument("delta", IntTy(8), true)]);
    assert Power(7) == 128;
    var log := Encode(spec, Emission(7, 0, [NumberVal(-1)]));
    assert log.topics == [0, MAX_UINT256];
    assert Params(map[], spec.inputs, log, 0) == [];
    assert Params(map[], spec.inputs, log, 1) == [Shown(map[], spec.inputs[0], ValueAt(spec.inputs, log, 0))];
  }

  lemma ValueReadsBack(spec: EventSpec, e: Emission, i: nat)
    requires WellTyped(spec.inputs, e.values) && i < |spec.inputs|
    ensures ValueAt(spec.inputs, Encode(spec, e), i) == Some(Restored(spec.inputs[i], e.values[i])) <==>
            !Misread(spec.inputs[i], e.values[i])
  {
    hide WordOf, Fits, TopicValue, Unpacked;
    var inputs, values, n := spec.inputs, e.values, |spec.inputs|;
    WordIsThere(inputs, values, n, i);
    if inputs[i].indexed {
      TopicReadsBack(inputs[i], values[i]);
    } else {
      UnpackReadsBack(inputs, values, n, []);
      assert Words(inputs, values, n, false) + [] == Words(inputs, values, n, false);
      DataValueAt(inputs, values, n, i);
    }
  }

  // The entry an event ought to show: every argument, in declaration order.
  function Expected(labels: Labels, spec: EventSpec, e: Emission, n: nat): (params: seq<Param>)
    requires n <= |spec.inputs| == |e.values|
    ensures |params| == n
  {
    if n == 0 then [] else
      Expected(labels, spec, e, n - 1) +
        [Shown(labels, spec.inputs[n - 1], Some(Restored(spec.inputs[n - 1], e.values[n - 1])))]
  }

  lemma {:induction false} ParamsReadBack(labels: Labels, spec: EventSpec, e: Emission, n: nat)
    requires WellTyped(spec.inputs, e.values) && n <= |spec.inputs|
    ensures Params(labels, spec.inputs, Encode(spec, e), n) == Expected(labels, spec, e, n) <==>
            forall i | 0 <= i < n :: !Misread(spec.inputs[i], e.values[i])
    decreases n
  {
    hide Misread, ValueAt, Restored, Encode;
    if n > 0 {
      ParamsReadBack(labels, spec, e, n - 1);
      ValueReadsBack(spec, e, n - 1);
      var params, expected := Params(labels, spec.inputs, Encode(spec, e), n), Expected(labels, spec, e, n);
      assert params[..n - 1] == Params(labels, spec.inputs, Encode(spec, e), n - 1)
        && expected[..n - 1] == Expected(labels, spec, e, n - 1);
    }
  }

  // For any pattern of indexed arguments: decoding an encoded event shows every value in its place if and
  // only if no negative number was put in a topic.
  lemma DecodingUndoesEncoding(labels: Labels, events: EventTable, e: Emission)
    requires e.id in events && WellTyped(events[e.id].inputs, e.values)
    ensures var spec := events[e.id];
      Entry(labels, events, Encode(spec, e)) ==
        [Decoded(PlaceOf(labels, e.address), spec.name, Expected(labels, spec, e, |spec.inputs|))] <==>
      forall i | 0 <= i < |spec.inputs| :: !Misread(spec.inputs[i], e.values[i])
  {
    hide Misread, Expected, Params;
    ParamsReadBack(labels, events[e.id], e, |events[e.id].inputs|);
  }

  // The events the explorer declares have no signed arguments, so all of them read back.
  predicate Unsigned(spec: EventSpec)
  {
    forall i | 0 <= i < |spec.inputs| :: !spec.inputs[i].ty.IntTy?
  }

  const TRANSFER := EventSpec("Transfer",
    [Argument("from", AddressTy, true), Argument("to", AddressTy, true), Argument("value", UintTy(256), false)])
  const APPROVAL := EventSpec("Approval",
    [Argument("owner", AddressTy, true), Argument("spender", AddressTy, true), Argument("value", UintTy(256), false)])
  const MINT := EventSpec("Mint",
    [Argument("stablecoin", AddressTy, true), Argument("to", AddressTy, true), Argument("amount", UintTy(256), false)])
  const BURN := EventSpec("Burn",
    [Argument("stablecoin", AddressTy, true), Argument("amount", UintTy(256), false)])
  const POLICY_MEMBERSHIP_CHANGED := EventSpec("PolicyMembershipChanged",
    [Argument("policyId", UintTy(64), true), Argument("account", AddressTy, true), Argument("value", BoolTy, false)])

  const DECLARED: set<EventSpec> := {TRANSFER, APPROVAL, MINT, BURN, POLICY_MEMBERSHIP_CHANGED}

  lemma DeclaredEventsReadBack(labels: Labels, events: EventTable, e: Emission)
    requires e.id in events && events[e.id] in DECLARED && WellTyped(events[e.id].inputs, e.values)
    ensures var spec := events[e.id];
      Entry(labels, events, Encode(spec, e)) ==
        [Decoded(PlaceOf(labels, e.address), spec.name, Expected(labels, spec, e, |spec.inputs|))]
  {
    assert Unsigned(events[e.id]);
    DecodingUndoesEncoding(labels, events, e);
  }

  // ---- What is shown ----

  // A text that is a figure in whole tokens with its unit: without its commas the figure reads as the number
  // of base units divided by a million, the fraction dropped.
  predicate ReadsAsTokens(text: string, n: int)
  {
    && |text| >= 6 && text[|text| - 6..] == " WFUSD"
    && Amounts.Parse(Amounts.WithoutCommas(text[..|text| - 6])) ==
       Some(if n < 0 then -(-n / 1_000_000) else n / 1_000_000)
  }

  // The number a reader sees: in a topic a negative one has wrapped around.
  function NumberRead(input: Argument, n: int): int
  {
    if input.indexed && n < 0 then n + MAX_UINT256 + 1 else n
  }

  // An argument as shown: under its name and type, with its value; a big number called amount or value in
  // whole tokens too, an address with its label if it has one, and nothing else.
  predicate Displays(labels: Labels, input: Argument, v: Value, p: Param)
    requires Fits(v, input.ty)
  {
    && p.name == input.name && p.ty == input.ty
    && match input.ty
       case AddressTy =>
         && p.value == Some(AddressVal(v.address)) && p.human == None
         && p.friendly == if v.address in labels then Some(labels[v.address]) else None
       case BoolTy => p.value == Some(BoolVal(v.b)) && p.human == None && p.friendly == None
       case Bytes32Ty =>
         && p.value == Some(if input.indexed then HexVal(v.bytes) else BytesVal(v.bytes))
         && p.human == None && p.friendly == None
       case UintTy(bits) => DisplaysNumber(input, bits, v.n, p)
       case IntTy(bits) => DisplaysNumber(input, bits, v.n, p)
  }

  predicate DisplaysNumber(input: Argument, bits: nat, n: int, p: Param)
  {
    var big := input.indexed || (bits != 8 && bits != 16 && bits != 32 && bits != 64);
    var read := NumberRead(input, n);
    && p.value == Some(if big then NumberVal(read) else SmallVal(read)) && p.friendly == None
    && if big && (input.name == "amount" || input.name == "value")
       then p.human.Some? && ReadsAsTokens(p.human.value, read)
       else p.human == None
  }

  // What is at an argument's place, misread or not.
  function ReadFrom(input: Argument, v: Value): Value
  {
    if v.NumberVal? && input.indexed then NumberVal(NumberRead(input, v.n)) else Restored(input, v)
  }

  lemma TopicReads(input: Argument, v: Value)
    requires Fits(v, input.ty) && input.indexed
    ensures TopicValue(input.ty, WordOf(v)) == ReadFrom(input, v)
  {}

  lemma ValueReads(spec: EventSpec, e: Emission, i: nat)
    requires WellTyped(spec.inputs, e.values) && i < |spec.inputs|
    ensures ValueAt(spec.inputs, Encode(spec, e), i) == Some(ReadFrom(spec.inputs[i], e.values[i]))
  {
    hide WordOf, Fits, TopicValue, Unpacked;
    var inputs, values, n := spec.inputs, e.values, |spec.inputs|;
    WordIsThere(inputs, values, n, i);
    if inputs[i].indexed {
      TopicReads(inputs[i], values[i]);
    } else {
      UnpackReadsBack(inputs, values, n, []);
      assert Words(inputs, values, n, false) + [] == Words(inputs, values, n, false);
      DataValueAt(inputs, values, n, i);
    }
  }

  lemma TokensRead(n: int)
    ensures ReadsAsTokens(Amounts.Human(n) + " WFUSD", n)
  {
    hide Amounts.Human, Amounts.WithoutCommas, Amounts.Parse;
    Amounts.HumanReadsBack(n);
    var text := Amounts.Human(n) + " WFUSD";
    assert text[..|text| - 6] == Amounts.Human(n);
  }

  lemma ShownDisplays(labels: Labels, input: Argument, v: Value)
    requires Fits(v, input.ty)
    ensures Displays(labels, input, v, Shown(labels, input, Some(ReadFrom(input, v))))
  {
    hide Amounts.Human, ReadsAsTokens;
    if v.NumberVal? {
      TokensRead(NumberRead(input, v.n));
    }
  }

  lemma {:induction false} ParamAt(labels: Labels, inputs: seq<Argument>, log: Log, n: nat, i: nat)
    requires i < n <= |inputs|
    ensures Params(labels, inputs, log, n)[i] == Shown(labels, inputs[i], ValueAt(inputs, log, i))
    decreases n
  {
    if i < n - 1 {
      ParamAt(labels, inputs, log, n - 1, i);
    }
  }

  // An entry under the event's name and the emitter's label or address, its arguments displayed one by one.
  ghost predicate EntryDisplays(labels: Labels, spec: EventSpec, e: Emission, entry: LogEntry)
    requires WellTyped(spec.inputs, e.values)
  {
    && entry.Decoded? && entry.event == spec.name
    && entry.place == (if e.address in labels then Named(labels[e.address]) else Plain(e.address))
    && |entry.params| == |spec.inputs|
    && forall i | 0 <= i < |spec.inputs| :: Displays(labels, spec.inputs[i], e.values[i], entry.params[i])
  }

  // For every declaration, every pattern of indexed arguments and all values, negative topics included: the
  // one entry of an encoded event displays it.
  lemma EventsAreDisplayed(labels: Labels, events: EventTable, e: Emission)
    requires e.id in events && WellTyped(events[e.id].inputs, e.values)
    ensures var shown := Entry(labels, events, Encode(events[e.id], e));
      |shown| == 1 && EntryDisplays(labels, events[e.id], e, shown[0])
  {
    hide Displays, Shown, ValueAt, ReadFrom, Params;
    var spec := events[e.id];
    forall i | 0 <= i < |spec.inputs|
      ensures Displays(labels, spec.inputs[i], e.values[i],
                Params(labels, spec.inputs, Encode(spec, e), |spec.inputs|)[i])
    {
      ParamAt(labels, spec.inputs, Encode(spec, e), |spec.inputs|, i);
      ValueReads(spec, e, i);
      ShownDisplays(labels, spec.inputs[i], e.values[i]);
    }
  }

  // A log without topics shows nothing; one whose identifier is unknown shows that identifier and who logged it.
  lemma UnknownEventsAreNamed(labels: Labels, events: EventTable, log: Log)
    ensures log.topics == [] ==> Entries(labels, events, [log]) == []
    ensures log.topics != [] && log.topics[0] !in events ==>
      Entries(labels, events, [log]) ==
      [Unknown(if log.address in labels then Named(labels[log.address]) else Plain(log.address), log.topics[0])]
  {
    assert [log][..0] == [];
    assert Entries(labels, events, []) == [];
  }

  // ---- Any number of logs ----

  lemma {:induction false} LogsDecodeOneByOne(labels: Labels, events: EventTable, logs: seq<Log>, more: seq<Log>)
    ensures Entries(labels, events, logs + more) == Entries(labels, events, logs) + Entries(labels, events, more)
    decreases |more|
  {
    hide Entry;
    if more == [] {
      assert logs + more == logs;
      assert Entries(labels, events, logs) + [] == Entries(labels, events, logs);
    } else {
      var last := |more| - 1;
      assert (logs + more)[..|logs + more| - 1] == logs + more[..last];
      LogsDecodeOneByOne(labels, events, logs, more[..last]);
    }
  }

  ghost predicate AllWellTyped(events: EventTable, es: seq<Emission>)
  {
    forall i | 0 <= i < |es| :: es[i].id in events && WellTyped(events[es[i].id].inputs, es[i].values)
  }

  ghost function Encoded(events: EventTable, es: seq<Emission>): (logs: seq<Log>)
    requires AllWellTyped(events, es)
    ensures |logs| == |es|
  {
    if es == [] then [] else
    var e := es[|es| - 1];
    Encoded(events, es[..|es| - 1]) + [Encode(events[e.id], e)]
  }

  ghost function AllExpected(labels: Labels, events: EventTable, es: seq<Emission>): (entries: seq<LogEntry>)
    requires AllWellTyped(events, es)
    ensures |entries| == |es|
  {
    if es == [] then [] else
    var e := es[|es| - 1];
    AllExpected(labels, events, es[..|es| - 1]) +
    [Decoded(PlaceOf(labels, e.address), events[e.id].name, Expected(labels, events[e.id], e, |events[e.id].inputs|))]
  }

  lemma {:induction false} LogsReadBack(labels: Labels, events: EventTable, es: seq<Emission>)
    requires AllWellTyped(events, es) && forall i | 0 <= i < |es| :: Unsigned(events[es[i].id])
    ensures Entries(labels, events, Encoded(events, es)) == AllExpected(labels, events, es)
    decreases |es|
  {
    hide Expected, Entry, Encode;
    if es != [] {
      var before, e := es[..|es| - 1], es[|es| - 1];
      LogsReadBack(labels, events, before);
      DecodingUndoesEncoding(labels, events, e);
      assert Encoded(events, es)[..|Encoded(events, es)| - 1] == Encoded(events, before);
    }
  }

  // Any number of encoded events, in any order, come out as one entry each that displays it.
  lemma {:induction false} LogsAreDisplayed(labels: Labels, events: EventTable, es: seq<Emission>)
    requires AllWellTyped(events, es)
    ensures |Entries(labels, events, Encoded(events, es))| == |es|
    ensures forall i | 0 <= i < |es| ::
      EntryDisplays(labels, events[es[i].id], es[i], Entries(labels, events, Encoded(events, es))[i])
    decreases |es|
  {
    hide EntryDisplays, Entry, Encode;
    if es != [] {
      var before, e := es[..|es| - 1], es[|es| - 1];
      LogsAreDisplayed(labels, events, before);
      EventsAreDisplayed(labels, events, e);
      assert Encoded(events, es)[..|Encoded(events, es)| - 1] == Encoded(events, before);
    }
  }
}
