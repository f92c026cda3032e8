// The length accounting of sent messages against the Protocol Buffers wire format
// ("Base 128 Varints" and "Length-Delimited Records" of the Encoding specification).
module Wire {
  import opened Proto

  /** The base-128 encoding: seven bits a byte, least significant first, high bit on all but the last. */
  function Varint(n: nat): (r: Bytes)
    ensures |r| > 0
  {
    if n < 0x80 then [n as byte] else [(n % 0x80 + 0x80) as byte] + Varint(n / 0x80)
  }

  /** Reads one varint off the front; absent when the bytes end inside it. */
  function ReadVarint(bs: Bytes): (r: Option<(nat, Bytes)>)
    ensures r.Some? ==> |r.value.1| < |bs|
  {
    if bs == [] then
      None
    else if bs[0] < 0x80 then
      Some((bs[0] as nat, bs[1..]))
    else
      match ReadVarint(bs[1..])
      case None => None
      case Some((high, rest)) => Some((bs[0] as nat - 0x80 + 0x80 * high, rest))
  }

  /** A varint reads back as its number, whatever follows it. */
  lemma {:induction false} VarintRoundTrip(n: nat, rest: Bytes)
    ensures ReadVarint(Varint(n) + rest) == Some((n, rest))
  {
    var bs := Varint(n) + rest;
    if n < 0x80 {
      assert bs[1..] == rest;
    } else {
      VarintRoundTrip(n / 0x80, rest);
      assert bs[0] == (n % 0x80 + 0x80) as byte;
      assert bs[1..] == Varint(n / 0x80) + rest;
    }
  }

  /** Counts the bytes of a varint by shifting. */
  method EncodedVarintLen(value: nat) returns (len: nat)
    ensures len == |Varint(value)|
  {
    len := 1;
    var v := value;
    while v >= 0x80
      invariant len + |Varint(v)| == |Varint(value)| + 1
    {
      v := v / 0x80;
      len := len + 1;
    }
  }

  /** The tag of field 6 with the length-delimited wire type 2. */
  const FILTERS_TAG: byte := 0x32

  /** The repeated `filters` field on the wire. */
  function EncodedNames(names: seq<Text>): (r: Bytes) {
    if names == [] then
      []
    else
      [FILTERS_TAG] + Varint(|names[0]|) + names[0] + EncodedNames(names[1..])
  }

  /** Reads back as many names as the bytes hold. */
  function ReadNames(bs: Bytes): (r: Option<seq<Text>>)
    decreases |bs|
  {
    if bs == [] then
      Some([])
    else if bs[0] != FILTERS_TAG then
      None
    else
      match ReadVarint(bs[1..])
      case None => None
      case Some((n, rest)) =>
        if n > |rest| then
          None
        else
          match ReadNames(rest[n..])
          case None => None
          case Some(names) => Some([rest[..n]] + names)
  }

  /** Every list of names can be recovered from its encoding. */
  lemma {:induction false} NamesRoundTrip(names: seq<Text>)
    ensures ReadNames(EncodedNames(names)) == Some(names)
  {
    if names == [] {
    } else {
      var tail := EncodedNames(names[1..]);
      var bs := EncodedNames(names);
      assert bs[1..] == Varint(|names[0]|) + (names[0] + tail);
      VarintRoundTrip(|names[0]|, names[0] + tail);
      assert (names[0] + tail)[..|names[0]|] == names[0];
      assert (names[0] + tail)[|names[0]|..] == tail;
      NamesRoundTrip(names[1..]);
      assert names == [names[0]] + names[1..];
    }
  }

  /** The bytes that the matched names add to a message. */
  method EncodedFilterNamesLen(names: seq<Text>) returns (total: nat)
    ensures total == |EncodedNames(names)|
  {
    total := 0;
    for i := 0 to |names|
      invariant total + |EncodedNames(names[i..])| == |EncodedNames(names)|
    {
      var len := EncodedVarintLen(|names[i]|);
      assert names[i..][1..] == names[i + 1..];
      total := total + 1 + len + |names[i]|;
    }
    assert names[|names|..] == [];
  }

  /** The rest of a message's encoding is kept abstract: the bytes of the fields numbered below
      `filters`, and those of the fields numbered above it. */
  datatype Codec = Codec(before: SubscribeUpdate -> Bytes, after: SubscribeUpdate -> Bytes)

  function Encoded(codec: Codec, u: SubscribeUpdate): (r: Bytes) {
    var bare := u.(filters := []);
    codec.before(bare) + EncodedNames(u.filters) + codec.after(bare)
  }

  function EncodedLen(codec: Codec, u: SubscribeUpdate): (r: nat) {
    |Encoded(codec, u)|
  }

  /** A length cached for a message without names, plus the names' length, is the length with the names. */
  lemma LengthAdditive(codec: Codec, u: SubscribeUpdate, names: seq<Text>)
    requires u.filters == []
    ensures EncodedLen(codec, u.(filters := names)) == EncodedLen(codec, u) + |EncodedNames(names)|
  {
    assert u.(filters := names).(filters := []) == u;
  }
}
