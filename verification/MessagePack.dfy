/**
 The MessagePack subset that apps/api/src/services/signalr.ts writes, against a decoder for the
 nil, bool, int, str, array and map families of the MessagePack specification, section "Formats".
 A string stands for its UTF-8 bytes.
 */
module MessagePack {
  import opened Options

  type Byte = x: int | 0 <= x < 256

  datatype Value =
    | Nil
    | Bool(b: bool)
    | Int(n: int)
    | Str(utf8: seq<Byte>)
    | Arr(items: seq<Value>)
    | Map(entries: seq<Entry>)

  datatype Entry = Entry(key: seq<Byte>, item: Value)

  const UINT32 := 0x1_0000_0000
  const UINT16 := 0x1_0000

  // ---------------------------------------------------------------------------------------
  // The encoder
  // ---------------------------------------------------------------------------------------

  /** Storing a number in a Uint8Array keeps its low eight bits. */
  function Low(x: int): Byte {
    x % 256
  }

  /** A big-endian pair of size bytes. */
  function Size(high: int, low: int): int {
    high * 256 + low
  }

  function EncodeString(utf8: seq<Byte>): seq<Byte> {
    if |utf8| < 32 then [0xa0 + |utf8|] + utf8
    else if |utf8| <= 0xff then [0xd9, |utf8|] + utf8
    else [0xda, Low(|utf8| / 256), Low(|utf8|)] + utf8
  }

  function EncodeInteger(n: int): seq<Byte> {
    if 0 <= n <= 0x7f then [n]
    else if 0 <= n <= 0xff then [0xcc, n]
    else [0xce] + UnsignedBytes(ToUint32(n))
  }

  /** The unsigned right shift of JavaScript first takes its operand modulo 2^32. */
  function ToUint32(n: int): nat {
    if 0 <= n < UINT32 then n else n % UINT32
  }

  function UnsignedBytes(unsigned: nat): seq<Byte> {
    [Low(unsigned / 0x100_0000), Low(unsigned / 0x1_0000), Low(unsigned / 0x100), Low(unsigned)]
  }

  function ArrayHeader(n: nat): seq<Byte> {
    if n < 16 then [0x90 + n] else [0xdc, Low(n / 256), Low(n)]
  }

  function MapHeader(n: nat): seq<Byte> {
    if n < 16 then [0x80 + n] else [0xde, Low(n / 256), Low(n)]
  }

  function Encode(v: Value): seq<Byte>
    decreases v, 1
  {
    match v
    case Nil => [0xc0]
    case Bool(b) => [if b then 0xc3 else 0xc2]
    case Int(n) => EncodeInteger(n)
    case Str(utf8) => EncodeString(utf8)
    case Arr(items) =>
      ArrayHeader(|items|) + EncodeItems(items)
    case Map(entries) =>
      MapHeader(|entries|) + EncodeEntries(entries)
  }

  function EncodeItems(items: seq<Value>): seq<Byte>
    decreases items, 0
  {
    if items == [] then [] else Encode(items[0]) + EncodeItems(items[1..])
  }

  function EncodeEntries(entries: seq<Entry>): seq<Byte>
    decreases entries, 0
  {
    if entries == [] then []
    else EncodeString(entries[0].key) + (Encode(entries[0].item) + EncodeEntries(entries[1..]))
  }

  // ---------------------------------------------------------------------------------------
  // The decoder of the specification
  // ---------------------------------------------------------------------------------------

  /** What the leading bytes of a value announce. */
  datatype Header = Scalar(value: Value) | Text(size: nat) | Items(count: nat) | Pairs(count: nat)

  function ReadHeader(b: seq<Byte>): (r: Option<(Header, seq<Byte>)>)
    ensures r.Some? ==> |r.value.1| < |b|
  {
    if b == [] then None
    else if b[0] <= 0x7f then Some((Scalar(Int(b[0])), b[1..]))
    else if b[0] <= 0x8f then Some((Pairs(b[0] - 0x80), b[1..]))
    else if b[0] <= 0x9f then Some((Items(b[0] - 0x90), b[1..]))
    else if b[0] <= 0xbf then Some((Text(b[0] - 0xa0), b[1..]))
    else if b[0] == 0xc0 then Some((Scalar(Nil), b[1..]))
    else if b[0] == 0xc2 then Some((Scalar(Bool(false)), b[1..]))
    else if b[0] == 0xc3 then Some((Scalar(Bool(true)), b[1..]))
    else if |b| >= 2 && b[0] == 0xcc then Some((Scalar(Int(b[1])), b[2..]))
    else if |b| >= 2 && b[0] == 0xd9 then Some((Text(b[1]), b[2..]))
    else if |b| >= 3 && b[0] == 0xda then Some((Text(Size(b[1], b[2])), b[3..]))
    else if |b| >= 3 && b[0] == 0xdc then Some((Items(Size(b[1], b[2])), b[3..]))
    else if |b| >= 3 && b[0] == 0xde then Some((Pairs(Size(b[1], b[2])), b[3..]))
    else if |b| >= 5 && b[0] == 0xce then
      Some((Scalar(Int(Size(Size(Size(b[1], b[2]), b[3]), b[4]))), b[5..]))
    else None
  }

  function DecodeString(b: seq<Byte>): (r: Option<(seq<Byte>, seq<Byte>)>)
    ensures r.Some? ==> |r.value.1| < |b|
  {
    match ReadHeader(b)
    case Some((Text(n), rest)) => if |rest| < n then None else Some((rest[..n], rest[n..]))
    case _ => None
  }

  function Decode(b: seq<Byte>): (r: Option<(Value, seq<Byte>)>)
    ensures r.Some? ==> |r.value.1| < |b|
    decreases |b|, 0
  {
    match ReadHeader(b)
    case None => None
    case Some((Scalar(v), rest)) => Some((v, rest))
    case Some((Text(n), rest)) => if |rest| < n then None else Some((Str(rest[..n]), rest[n..]))
    case Some((Items(n), rest)) =>
      (match DecodeItems(n, rest)
       case None => None
       case Some((items, after)) => Some((Arr(items), after)))
    case Some((Pairs(n), rest)) =>
      (match DecodeEntries(n, rest)
       case None => None
       case Some((entries, after)) => Some((Map(entries), after)))
  }

  function DecodeItems(n: nat, b: seq<Byte>): (r: Option<(seq<Value>, seq<Byte>)>)
    ensures r.Some? ==> |r.value.1| <= |b|
    decreases |b|, 1
  {
    if n == 0 then Some(([], b))
    else
      match Decode(b)
      case None => None
      case Some((head, rest)) =>
        match DecodeItems(n - 1, rest)
        case None => None
        case Some((tail, after)) => Some(([head] + tail, after))
  }

  function DecodeEntries(n: nat, b: seq<Byte>): (r: Option<(seq<Entry>, seq<Byte>)>)
    ensures r.Some? ==> |r.value.1| <= |b|
    decreases |b|, 1
  {
    if n == 0 then Some(([], b))
    else
      match DecodeString(b)
      case None => None
      case Some((key, afterKey)) =>
        match Decode(afterKey)
        case None => None
        case Some((item, rest)) =>
          match DecodeEntries(n - 1, rest)
          case None => None
          case Some((tail, after)) => Some(([Entry(key, item)] + tail, after))
  }

  // ---------------------------------------------------------------------------------------
  // Round trip
  // ---------------------------------------------------------------------------------------

  /** The values the format can carry: every size below 2^16, every integer in [0, 2^32). */
  ghost predicate Encodable(v: Value)
    decreases v, 1
  {
    match v
    case Nil => true
    case Bool(_) => true
    case Int(n) => 0 <= n < UINT32
    case Str(utf8) => |utf8| < UINT16
    case Arr(items) => |items| < UINT16 && EncodableItems(items)
    case Map(entries) => |entries| < UINT16 && EncodableEntries(entries)
  }

  ghost predicate EncodableItems(items: seq<Value>)
    decreases items, 0
  {
    items == [] || (Encodable(items[0]) && EncodableItems(items[1..]))
  }

  ghost predicate EncodableEntries(entries: seq<Entry>)
    decreases entries, 0
  {
    entries == [] || (|entries[0].key| < UINT16 && Encodable(entries[0].item) && EncodableEntries(entries[1..]))
  }

  lemma SizeBytes(n: nat)
    requires n < UINT16
    ensures Size(Low(n / 256), Low(n)) == n
  {
  }

  lemma LowByte(n: nat)
    ensures n == Size(n / 256, Low(n))
  {
  }

  /** Shifting by 16 or 24 bits is shifting by 8 bits two or three times. */
  lemma Shifts(n: nat)
    ensures n / 0x1_0000 == n / 0x100 / 0x100
    ensures n / 0x100_0000 == n / 0x100 / 0x100 / 0x100
  {
  }

  lemma IntegerBytes(n: nat)
    requires n < UINT32
    ensures var u := UnsignedBytes(n); Size(Size(Size(u[0], u[1]), u[2]), u[3]) == n
  {
    var a := n / 0x100;
    var b := a / 0x100;
    var c := b / 0x100;
    assert c < 256;
    assert Low(c) == c;
    LowByte(n);
    LowByte(a);
    LowByte(b);
    Shifts(n);
    hide Low, Size;
    assert UnsignedBytes(n) == [Low(c), Low(b), Low(a), Low(n)];
  }

  lemma ShortHeaders(h: Byte, rest: seq<Byte>)
    ensures h <= 0x7f ==> ReadHeader([h] + rest) == Some((Scalar(Int(h)), rest))
    ensures 0x80 <= h <= 0x8f ==> ReadHeader([h] + rest) == Some((Pairs(h - 0x80), rest))
    ensures 0x90 <= h <= 0x9f ==> ReadHeader([h] + rest) == Some((Items(h - 0x90), rest))
    ensures 0xa0 <= h <= 0xbf ==> ReadHeader([h] + rest) == Some((Text(h - 0xa0), rest))
  {
  }

  lemma OneByteHeaders(x: Byte, rest: seq<Byte>)
    ensures ReadHeader([0xcc, x] + rest) == Some((Scalar(Int(x)), rest))
    ensures ReadHeader([0xd9, x] + rest) == Some((Text(x), rest))
  {
  }

  lemma TwoByteHeaders(h: Byte, x: Byte, y: Byte, rest: seq<Byte>)
    ensures h == 0xda ==> ReadHeader([h, x, y] + rest) == Some((Text(Size(x, y)), rest))
    ensures h == 0xdc ==> ReadHeader([h, x, y] + rest) == Some((Items(Size(x, y)), rest))
    ensures h == 0xde ==> ReadHeader([h, x, y] + rest) == Some((Pairs(Size(x, y)), rest))
  {
  }

  lemma FourByteHeader(u: seq<Byte>, rest: seq<Byte>)
    requires |u| == 4
    ensures ReadHeader([0xce] + u + rest) == Some((Scalar(Int(Size(Size(Size(u[0], u[1]), u[2]), u[3]))), rest))
  {
  }

  lemma StringHeader(utf8: seq<Byte>, suffix: seq<Byte>)
    requires |utf8| < UINT16
    ensures ReadHeader(EncodeString(utf8) + suffix) == Some((Text(|utf8|), utf8 + suffix))
  {
    hide Low, Size, ReadHeader;
    var rest, n := utf8 + suffix, |utf8|;
    if n < 32 {
      ShortHeaders(0xa0 + n, rest);
      assert EncodeString(utf8) + suffix == [0xa0 + n] + rest;
    } else if n <= 0xff {
      OneByteHeaders(n, rest);
      assert EncodeString(utf8) + suffix == [0xd9, n] + rest;
    } else {
      SizeBytes(n);
      TwoByteHeaders(0xda, Low(n / 256), Low(n), rest);
      assert EncodeString(utf8) + suffix == [0xda, Low(n / 256), Low(n)] + rest;
    }
  }

  lemma StringRoundTrip(utf8: seq<Byte>, suffix: seq<Byte>)
    requires |utf8| < UINT16
    ensures DecodeString(EncodeString(utf8) + suffix) == Some((utf8, suffix))
    ensures Decode(EncodeString(utf8) + suffix) == Some((Str(utf8), suffix))
  {
    hide ReadHeader, EncodeString;
    StringHeader(utf8, suffix);
    assert (utf8 + suffix)[..|utf8|] == utf8 && (utf8 + suffix)[|utf8|..] == suffix;
  }

  lemma IntegerRoundTrip(n: nat, suffix: seq<Byte>)
    requires n < UINT32
    ensures Decode(EncodeInteger(n) + suffix) == Some((Int(n), suffix))
  {
    if n <= 0xff {
      NarrowIntegerRoundTrip(n, suffix);
    } else {
      IntegerBytes(n);
      FourByteHeader(UnsignedBytes(n), suffix);
    }
  }

  lemma NarrowIntegerRoundTrip(n: nat, suffix: seq<Byte>)
    requires n <= 0xff
    ensures ReadHeader(EncodeInteger(n) + suffix) == Some((Scalar(Int(n)), suffix))
  {
  }

  lemma HeaderRoundTrip(n: nat, body: seq<Byte>)
    requires n < UINT16
    ensures ReadHeader(ArrayHeader(n) + body) == Some((Items(n), body))
    ensures ReadHeader(MapHeader(n) + body) == Some((Pairs(n), body))
  {
  }

  /** An array decodes once its items do; `body` is the encoding of the items. */
  lemma ArrayDecodes(items: seq<Value>, body: seq<Byte>, suffix: seq<Byte>)
    requires |items| < UINT16 && DecodeItems(|items|, body + suffix) == Some((items, suffix))
    ensures Decode(ArrayHeader(|items|) + body + suffix) == Some((Arr(items), suffix))
  {
    hide ReadHeader, ArrayHeader, MapHeader;
    HeaderRoundTrip(|items|, body + suffix);
    assert ArrayHeader(|items|) + body + suffix == ArrayHeader(|items|) + (body + suffix);
  }

  lemma MapDecodes(entries: seq<Entry>, body: seq<Byte>, suffix: seq<Byte>)
    requires |entries| < UINT16 && DecodeEntries(|entries|, body + suffix) == Some((entries, suffix))
    ensures Decode(MapHeader(|entries|) + body + suffix) == Some((Map(entries), suffix))
  {
    hide ReadHeader, ArrayHeader, MapHeader;
    HeaderRoundTrip(|entries|, body + suffix);
    assert MapHeader(|entries|) + body + suffix == MapHeader(|entries|) + (body + suffix);
  }

  lemma ScalarDecodes(suffix: seq<Byte>)
    ensures Decode([0xc0] + suffix) == Some((Nil, suffix))
    ensures Decode([0xc2] + suffix) == Some((Bool(false), suffix))
    ensures Decode([0xc3] + suffix) == Some((Bool(true), suffix))
  {
  }

  /** One array item decodes, then the others do; `head` and `tail` are their encodings. */
  lemma ItemsDecode(items: seq<Value>, head: seq<Byte>, tail: seq<Byte>, suffix: seq<Byte>)
    requires items != []
    requires Decode(head + (tail + suffix)) == Some((items[0], tail + suffix))
    requires DecodeItems(|items| - 1, tail + suffix) == Some((items[1..], suffix))
    ensures DecodeItems(|items|, head + tail + suffix) == Some((items, suffix))
  {
    hide ReadHeader;
    assert [items[0]] + items[1..] == items;
    assert head + tail + suffix == head + (tail + suffix);
  }

  lemma EntriesDecode(entries: seq<Entry>, key: seq<Byte>, item: seq<Byte>, tail: seq<Byte>, suffix: seq<Byte>)
    requires entries != []
    requires DecodeString(key + (item + (tail + suffix))) == Some((entries[0].key, item + (tail + suffix)))
    requires Decode(item + (tail + suffix)) == Some((entries[0].item, tail + suffix))
    requires DecodeEntries(|entries| - 1, tail + suffix) == Some((entries[1..], suffix))
    ensures DecodeEntries(|entries|, key + (item + tail) + suffix) == Some((entries, suffix))
  {
    hide ReadHeader;
    assert key + (item + tail) + suffix == key + (item + (tail + suffix));
    assert [Entry(entries[0].key, entries[0].item)] + entries[1..] == entries;
  }

  lemma {:induction false} RoundTrip(v: Value, suffix: seq<Byte>)
    requires Encodable(v)
    ensures Decode(Encode(v) + suffix) == Some((v, suffix))
    decreases v, 1
  {
    match v
    case Nil => ScalarDecodes(suffix);
    case Bool(_) => ScalarDecodes(suffix);
    case Int(n) => IntegerRoundTrip(n, suffix);
    case Str(utf8) => StringRoundTrip(utf8, suffix);
    case Arr(items) =>
      ItemsRoundTrip(items, suffix);
      ArrayDecodes(items, EncodeItems(items), suffix);
    case Map(entries) =>
      EntriesRoundTrip(entries, suffix);
      MapDecodes(entries, EncodeEntries(entries), suffix);
  }

  lemma {:induction false} ItemsRoundTrip(items: seq<Value>, suffix: seq<Byte>)
    requires EncodableItems(items)
    ensures DecodeItems(|items|, EncodeItems(items) + suffix) == Some((items, suffix))
    decreases items, 0
  {
    if items == [] {
      assert EncodeItems(items) + suffix == suffix;
    } else {
      var head, tail := Encode(items[0]), EncodeItems(items[1..]);
      RoundTrip(items[0], tail + suffix);
      ItemsRoundTrip(items[1..], suffix);
      ItemsDecode(items, head, tail, suffix);
    }
  }

  lemma {:induction false} EntriesRoundTrip(entries: seq<Entry>, suffix: seq<Byte>)
    requires EncodableEntries(entries)
    ensures DecodeEntries(|entries|, EncodeEntries(entries) + suffix) == Some((entries, suffix))
    decreases entries, 0
  {
    if entries == [] {
      assert EncodeEntries(entries) + suffix == suffix;
    } else {
      var key, item, tail := EncodeString(entries[0].key), Encode(entries[0].item), EncodeEntries(entries[1..]);
      StringRoundTrip(entries[0].key, item + (tail + suffix));
      RoundTrip(entries[0].item, tail + suffix);
      EntriesRoundTrip(entries[1..], suffix);
      EntriesDecode(entries, key, item, tail, suffix);
    }
  }

  /** Headers have at most two size bytes and four integer bytes, so a decoder only ever returns encodable values. */
  lemma {:induction false} DecodedIsEncodable(b: seq<Byte>)
    requires Decode(b).Some?
    ensures Encodable(Decode(b).value.0)
    decreases |b|, 0
  {
    HeaderSizes(b);
    match ReadHeader(b).value
    case (Scalar(_), _) =>
    case (Text(_), _) =>
    case (Items(n), rest) => DecodedItemsEncodable(n, rest);
    case (Pairs(n), rest) => DecodedEntriesEncodable(n, rest);
  }

  lemma HeaderSizes(b: seq<Byte>)
    requires ReadHeader(b).Some?
    ensures match ReadHeader(b).value.0
            case Scalar(v) => Encodable(v)
            case Text(n) => n < UINT16
            case Items(n) => n < UINT16
            case Pairs(n) => n < UINT16
  {
  }

  lemma DecodedStringFits(b: seq<Byte>)
    requires DecodeString(b).Some?
    ensures |DecodeString(b).value.0| < UINT16
  {
    HeaderSizes(b);
  }

  lemma {:induction false} DecodedItemsEncodable(n: nat, b: seq<Byte>)
    requires DecodeItems(n, b).Some?
    ensures EncodableItems(DecodeItems(n, b).value.0) && |DecodeItems(n, b).value.0| == n
    decreases |b|, 1
  {
    if n > 0 {
      DecodedIsEncodable(b);
      DecodedItemsEncodable(n - 1, Decode(b).value.1);
      assert DecodeItems(n, b).value.0[1..] == DecodeItems(n - 1, Decode(b).value.1).value.0;
    }
  }

  lemma {:induction false} DecodedEntriesEncodable(n: nat, b: seq<Byte>)
    requires DecodeEntries(n, b).Some?
    ensures EncodableEntries(DecodeEntries(n, b).value.0) && |DecodeEntries(n, b).value.0| == n
    decreases |b|, 1
  {
    if n > 0 {
      hide ReadHeader, DecodeString, Decode;
      var afterKey := DecodeString(b).value.1;
      DecodedStringFits(b);
      DecodedIsEncodable(afterKey);
      var rest := Decode(afterKey).value.1;
      DecodedEntriesEncodable(n - 1, rest);
      assert DecodeEntries(n, b).value.0[1..] == DecodeEntries(n - 1, rest).value.0;
    }
  }

  /** A decoder gets exactly the value and exactly the bytes after it, if and only if the value is encodable. */
  lemma RoundTripExactly(v: Value, suffix: seq<Byte>)
    ensures Decode(Encode(v) + suffix) == Some((v, suffix)) <==> Encodable(v)
  {
    if Encodable(v) {
      RoundTrip(v, suffix);
    } else if Decode(Encode(v) + suffix) == Some((v, suffix)) {
      DecodedIsEncodable(Encode(v) + suffix);
    }
  }

  /** The encoding is injective and self-delimiting: no encoding runs into what follows it. */
  lemma SelfDelimiting(v: Value, w: Value, s: seq<Byte>, t: seq<Byte>)
    requires Encodable(v) && Encodable(w) && Encode(v) + s == Encode(w) + t
    ensures v == w && s == t
  {
    RoundTrip(v, s);
    RoundTrip(w, t);
  }

  /** A 65536-byte string writes the header of the empty string: two values, one encoding. */
  lemma OversizedStringCollides(utf8: seq<Byte>, suffix: seq<Byte>)
    requires |utf8| == UINT16
    ensures Decode(Encode(Str(utf8)) + suffix) == Some((Str([]), utf8 + suffix))
  {
    var b := Encode(Str(utf8)) + suffix;
    assert Low(UINT16 / 256) == 0 && Low(UINT16) == 0;
    assert b[..3] == [0xda, 0, 0] && b[3..] == utf8 + suffix;
  }

  /**
   Every value takes the shortest of the formats there are for it: a string's head 1, 2 or 3 bytes, an
   integer 1, 2 or 5, the head of an array or map 1 or 3. Which bytes these are, the round trip says.
   */
  lemma EncodingsAreShortest(v: Value)
    ensures v.Str? ==> |Encode(v)| == |v.utf8| + if |v.utf8| <= 31 then 1 else if |v.utf8| <= 255 then 2 else 3
    ensures v.Int? ==> |Encode(v)| == if 0 <= v.n <= 127 then 1 else if 0 <= v.n <= 255 then 2 else 5
    ensures v.Arr? ==> |Encode(v)| == |EncodeItems(v.items)| + if |v.items| <= 15 then 1 else 3
    ensures v.Map? ==> |Encode(v)| == |EncodeEntries(v.entries)| + if |v.entries| <= 15 then 1 else 3
    ensures v.Nil? || v.Bool? ==> |Encode(v)| == 1
  {
  }
}
