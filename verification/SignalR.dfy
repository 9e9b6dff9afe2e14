/**
 The binary framing of apps/api/src/services/signalr.ts: VarInt length prefixes (ASP.NET Core
 SignalR Hub Protocol, section "MessagePack (MsgPack) encoding") around invocation messages.
 */
module SignalR {
  import opened Options
  import opened MessagePack

  // ---------------------------------------------------------------------------------------
  // Byte buffers
  // ---------------------------------------------------------------------------------------

  function Flatten(chunks: seq<seq<Byte>>): seq<Byte> {
    if chunks == [] then [] else chunks[0] + Flatten(chunks[1..])
  }

  lemma {:induction false} FlattenAppend(a: seq<seq<Byte>>, b: seq<seq<Byte>>)
    ensures Flatten(a + b) == Flatten(a) + Flatten(b)
  {
    if a == [] {
      assert a + b == b;
    } else {
      assert (a + b)[1..] == a[1..] + b;
      FlattenAppend(a[1..], b);
    }
  }

  lemma {:induction false} FlattenPrefix(chunks: seq<seq<Byte>>, k: nat)
    requires k < |chunks|
    ensures Flatten(chunks[..k + 1]) == Flatten(chunks[..k]) + chunks[k]
    ensures |Flatten(chunks[..k])| + |chunks[k]| <= |Flatten(chunks)|
  {
    assert chunks[..k + 1] == chunks[..k] + [chunks[k]];
    assert Flatten([chunks[k]]) == chunks[k] + Flatten([]);
    FlattenAppend(chunks[..k], [chunks[k]]);
    assert chunks == chunks[..k + 1] + chunks[k + 1..];
    FlattenAppend(chunks[..k + 1], chunks[k + 1..]);
  }

  method ConcatBytes(chunks: seq<seq<Byte>>) returns (output: array<Byte>)
    ensures fresh(output) && output[..] == Flatten(chunks)
  {
    var total: nat := 0;
    for i := 0 to |chunks|
      invariant total == |Flatten(chunks[..i])|
    {
      FlattenPrefix(chunks, i);
      total := total + |chunks[i]|;
    }
    assert chunks[..|chunks|] == chunks;
    output := new Byte[total](_ => 0);
    var offset: nat := 0;
    for i := 0 to |chunks|
      invariant offset == |Flatten(chunks[..i])| <= output.Length == |Flatten(chunks)|
      invariant output[..offset] == Flatten(chunks[..i])
    {
      FlattenPrefix(chunks, i);
      var chunk := chunks[i];
      forall j | 0 <= j < |chunk| {
        output[offset + j] := chunk[j];
      }
      assert output[..offset] == Flatten(chunks[..i]);
      assert output[offset..offset + |chunk|] == chunk;
      assert output[..offset + |chunk|] == output[..offset] + output[offset..offset + |chunk|];
      offset := offset + |chunk|;
    }
    assert output[..] == output[..offset];
  }

  // ---------------------------------------------------------------------------------------
  // VarInt prefixes
  // ---------------------------------------------------------------------------------------

  function VarInt(n: nat): seq<Byte> {
    if n < 128 then [n] else [n % 128 + 128] + VarInt(n / 128)
  }

  function ReadVarInt(b: seq<Byte>): (r: Option<(nat, seq<Byte>)>)
    ensures r.Some? ==> |r.value.1| < |b|
  {
    if b == [] then None
    else if b[0] < 128 then Some((b[0], b[1..]))
    else
      match ReadVarInt(b[1..])
      case None => None
      case Some((high, rest)) => Some((high * 128 + (b[0] - 128), rest))
  }

  function Pow128(k: nat): nat {
    if k == 0 then 1 else 128 * Pow128(k - 1)
  }

  lemma {:induction false} VarIntRoundTrip(n: nat, suffix: seq<Byte>)
    ensures ReadVarInt(VarInt(n) + suffix) == Some((n, suffix))
  {
    var b := VarInt(n) + suffix;
    if n < 128 {
      assert b[1..] == suffix;
    } else {
      VarIntRoundTrip(n / 128, suffix);
      assert b[1..] == VarInt(n / 128) + suffix;
    }
  }

  /** The prefix is minimal: it has k bytes exactly when the length has k base-128 digits. */
  lemma {:induction false} VarIntIsMinimal(n: nat, k: nat)
    requires n > 0 && k > 0
    ensures |VarInt(n)| == k <==> Pow128(k - 1) <= n < Pow128(k)
    decreases n
  {
    if n < 128 {
      assert Pow128(1) == 128;
      if k > 1 {
        Pow128AtLeast(k - 1, 1);
      }
    } else if k == 1 {
      assert Pow128(1) == 128;
    } else {
      VarIntIsMinimal(n / 128, k - 1);
    }
  }

  lemma {:induction false} Pow128AtLeast(k: nat, j: nat)
    requires j <= k
    ensures Pow128(j) <= Pow128(k)
    decreases k
  {
    if j < k {
      Pow128AtLeast(k - 1, j);
    }
  }

  lemma VarIntFitsFiveBytes(n: nat)
    requires n < UINT32
    ensures |VarInt(n)| <= 5
  {
    if |VarInt(n)| > 5 {
      assert Pow128(5) == 128 * (128 * (128 * (128 * 128)));
      VarIntIsMinimal(n, |VarInt(n)|);
      Pow128AtLeast(|VarInt(n)| - 1, 5);
    }
  }

  /** The frame of a payload. The shift in the prefix loop first takes the length modulo 2^32. */
  function Frame(payload: seq<Byte>): seq<Byte> {
    VarInt(ToUint32(|payload|)) + payload
  }

  lemma ShortFrame(payload: seq<Byte>)
    requires |payload| < UINT32
    ensures Frame(payload) == VarInt(|payload|) + payload
  {
  }

  /** One turn of the prefix loop writes the low seven bits and leaves the rest. */
  lemma PrefixStep(length: nat)
    ensures ToUint32(length) % 128 == length % 128
    ensures var next := ToUint32(length) / 128;
            && ToUint32(next) == next
            && VarInt(ToUint32(length)) == if next == 0 then [length % 128] else [length % 128 + 128] + VarInt(next)
  {
  }

  method FrameBinary(payload: seq<Byte>) returns (output: array<Byte>)
    ensures fresh(output) && output[..] == Frame(payload)
  {
    var prefix: seq<Byte> := [];
    var length: nat := |payload|;
    var more := true;
    while more
      invariant prefix + (if more then VarInt(ToUint32(length)) else []) == VarInt(ToUint32(|payload|))
      decreases more, ToUint32(length)
    {
      PrefixStep(length);
      var byte: Byte := length % 128;
      length := ToUint32(length) / 128;
      more := length != 0;
      if more {
        byte := byte + 128;
      }
      prefix := prefix + [byte];
    }
    assert prefix == VarInt(ToUint32(|payload|));
    output := ConcatBytes([prefix, payload]);
    assert Flatten([prefix, payload]) == prefix + Flatten([payload]) && Flatten([payload]) == payload + Flatten([]);
    assert prefix + (payload + []) == prefix + payload;
  }

  /** A receiver splitting a stream into frames by their prefixes; None if the stream stops inside one. */
  function SplitFrames(stream: seq<Byte>): Option<seq<seq<Byte>>>
    decreases |stream|
  {
    if stream == [] then Some([])
    else
      match ReadVarInt(stream)
      case None => None
      case Some((n, rest)) =>
        if |rest| < n then None
        else
          match SplitFrames(rest[n..])
          case None => None
          case Some(frames) => Some([rest[..n]] + frames)
  }

  function Stream(payloads: seq<seq<Byte>>): seq<Byte> {
    if payloads == [] then [] else Frame(payloads[0]) + Stream(payloads[1..])
  }

  lemma SplitFirst(prefix: seq<Byte>, p: seq<Byte>, tail: seq<Byte>, frames: seq<seq<Byte>>)
    requires ReadVarInt(prefix + (p + tail)) == Some((|p|, p + tail)) && SplitFrames(tail) == Some(frames)
    ensures SplitFrames(prefix + p + tail) == Some([p] + frames)
  {
    hide ReadVarInt;
    assert prefix + p + tail == prefix + (p + tail);
    assert (p + tail)[..|p|] == p && (p + tail)[|p|..] == tail;
  }

  /** Splitting the concatenated frames gives back the payloads, one frame each. */
  lemma {:induction false} FramesRoundTrip(payloads: seq<seq<Byte>>)
    requires forall p :: p in payloads ==> |p| < UINT32
    ensures SplitFrames(Stream(payloads)) == Some(payloads)
  {
    if payloads != [] {
      hide Frame, VarInt, ReadVarInt, SplitFrames;
      var p, tail := payloads[0], Stream(payloads[1..]);
      ShortFrame(p);
      FramesRoundTrip(payloads[1..]);
      VarIntRoundTrip(|p|, p + tail);
      SplitFirst(VarInt(|p|), p, tail, payloads[1..]);
      assert [p] + payloads[1..] == payloads;
    }
  }

  /** One frame splits back into its payload exactly when the payload's length survives the 32-bit shift. */
  lemma FrameRoundTripsExactly(payload: seq<Byte>)
    ensures SplitFrames(Frame(payload)) == Some([payload]) <==> |payload| < UINT32
  {
    if |payload| < UINT32 {
      FramesRoundTrip([payload]);
      assert Stream([payload]) == Frame(payload) + Stream([]) == Frame(payload);
    } else {
      VarIntRoundTrip(ToUint32(|payload|), payload);
    }
  }

  // ---------------------------------------------------------------------------------------
  // Invocations
  // ---------------------------------------------------------------------------------------

  /** A push notification: a type, a payload and the device that caused it, if any. */
  datatype Notification = Notification(updateType: nat, payload: seq<Entry>, contextId: Option<seq<Byte>>)

  /** Section "Invocation Message Encoding": [1, headers, invocation id, target, arguments, streams]. */
  function Invocation(n: Notification): Value {
    Arr([Int(1), Map([]), Nil, Str(Ascii("ReceiveMessage")),
         Arr([Map([Entry(Ascii("ContextId"), if n.contextId.None? then Nil else Str(n.contextId.value)),
                   Entry(Ascii("Type"), Int(n.updateType)),
                   Entry(Ascii("Payload"), Map(n.payload))])]),
         Arr([])])
  }

  /** UTF-8 of an ASCII string. */
  function Ascii(s: string): (b: seq<Byte>)
    ensures |b| == |s|
  {
    seq(|s|, i requires 0 <= i < |s| => s[i] as int % 256)
  }

  method EncodeSignalRInvocation(updateType: nat, payload: seq<Entry>, contextId: Option<seq<Byte>>)
    returns (frame: array<Byte>)
    ensures fresh(frame)
    ensures frame[..] == Frame(Encode(Invocation(Notification(updateType, payload, contextId))))
  {
    var notification := Map([
      Entry(Ascii("ContextId"), match contextId case None => Nil case Some(id) => Str(id)),
      Entry(Ascii("Type"), Int(updateType)),
      Entry(Ascii("Payload"), Map(payload))]);
    var message := Arr([Int(1), Map([]), Nil, Str(Ascii("ReceiveMessage")), Arr([notification]), Arr([])]);
    frame := FrameBinary(Encode(message));
  }

  function Payloads(ns: seq<Notification>): seq<seq<Byte>> {
    if ns == [] then [] else [Encode(Invocation(ns[0]))] + Payloads(ns[1..])
  }

  /** A notification the wire format can carry. */
  ghost predicate Sendable(n: Notification) {
    && n.updateType < UINT32
    && |n.payload| < UINT16 && EncodableEntries(n.payload)
    && (n.contextId.Some? ==> |n.contextId.value| < UINT16)
    && |Encode(Invocation(n))| < UINT32
  }

  function Decoded(frames: seq<seq<Byte>>): seq<Option<(Value, seq<Byte>)>> {
    if frames == [] then [] else [Decode(frames[0])] + Decoded(frames[1..])
  }

  function Invocations(ns: seq<Notification>): seq<Option<(Value, seq<Byte>)>> {
    if ns == [] then [] else [Some((Invocation(ns[0]), []))] + Invocations(ns[1..])
  }

  lemma SendableIsEncodable(n: Notification)
    requires Sendable(n)
    ensures Encodable(Invocation(n))
  {
    var entries := [Entry(Ascii("ContextId"), if n.contextId.None? then Nil else Str(n.contextId.value)),
                    Entry(Ascii("Type"), Int(n.updateType)),
                    Entry(Ascii("Payload"), Map(n.payload))];
    assert entries[1..][1..] == entries[2..] && entries[2..][1..] == [];
    assert Encodable(Map(n.payload));
    assert EncodableEntries(entries[2..]);
    assert EncodableEntries(entries[1..]);
    assert EncodableEntries(entries);
    var inner := Arr([Map(entries)]);
    assert [Map(entries)][1..] == [];
    assert Encodable(inner);
    var items := Invocation(n).items;
    assert items[4] == inner;
    assert items[5..][1..] == [] && EncodableItems(items[5..]);
    assert items[4..][1..] == items[5..] && EncodableItems(items[4..]);
    assert items[3..][1..] == items[4..] && EncodableItems(items[3..]);
    assert items[2..][1..] == items[3..] && EncodableItems(items[2..]);
    assert items[1..][1..] == items[2..] && EncodableItems(items[1..]);
  }

  /** A hub stream of any number of notifications reads back as exactly those invocations, in order. */
  lemma {:induction false} HubStreamRoundTrip(ns: seq<Notification>)
    requires forall n :: n in ns ==> Sendable(n)
    ensures SplitFrames(Stream(Payloads(ns))).Some?
    ensures Decoded(SplitFrames(Stream(Payloads(ns))).value) == Invocations(ns)
  {
    PayloadSizes(ns);
    FramesRoundTrip(Payloads(ns));
    DecodedPayloads(ns);
  }

  lemma {:induction false} PayloadSizes(ns: seq<Notification>)
    requires forall n :: n in ns ==> Sendable(n)
    ensures forall p :: p in Payloads(ns) ==> |p| < UINT32
  {
    if ns != [] {
      PayloadSizes(ns[1..]);
      forall p | p in Payloads(ns) ensures |p| < UINT32 {
        assert p == Encode(Invocation(ns[0])) || p in Payloads(ns)[1..];
        assert Payloads(ns)[1..] == Payloads(ns[1..]);
        assert ns[0] in ns;
      }
    }
  }

  lemma {:induction false} DecodedPayloads(ns: seq<Notification>)
    requires forall n :: n in ns ==> Sendable(n)
    ensures Decoded(Payloads(ns)) == Invocations(ns)
  {
    if ns != [] {
      SendableIsEncodable(ns[0]);
      RoundTrip(Invocation(ns[0]), []);
      assert Encode(Invocation(ns[0])) + [] == Encode(Invocation(ns[0]));
      DecodedPayloads(ns[1..]);
      assert Payloads(ns)[1..] == Payloads(ns[1..]);
    }
  }

  lemma InvocationIsInjective(a: Notification, b: Notification)
    requires Invocation(a) == Invocation(b)
    ensures a == b
  {
  }

  /** A frame determines its notification and where the frame ends, whatever bytes follow it. */
  lemma FrameDeterminesNotification(a: Notification, b: Notification, s: seq<Byte>, t: seq<Byte>)
    requires Sendable(a) && Sendable(b)
    requires Frame(Encode(Invocation(a))) + s == Frame(Encode(Invocation(b))) + t
    ensures a == b && s == t
  {
    hide Frame, VarInt, ReadVarInt, Encode, Invocation;
    var p, q := Encode(Invocation(a)), Encode(Invocation(b));
    ShortFrame(p);
    ShortFrame(q);
    VarIntRoundTrip(|p|, p + s);
    VarIntRoundTrip(|q|, q + t);
    assert VarInt(|p|) + p + s == VarInt(|p|) + (p + s);
    assert VarInt(|q|) + q + t == VarInt(|q|) + (q + t);
    SendableIsEncodable(a);
    SendableIsEncodable(b);
    SelfDelimiting(Invocation(a), Invocation(b), s, t);
    InvocationIsInjective(a, b);
  }

  const RECEIVE_MESSAGE: seq<Byte> := [82, 101, 99, 101, 105, 118, 101, 77, 101, 115, 115, 97, 103, 101]
  const CONTEXT_ID: seq<Byte> := [67, 111, 110, 116, 101, 120, 116, 73, 100]
  const TYPE: seq<Byte> := [84, 121, 112, 101]
  const PAYLOAD: seq<Byte> := [80, 97, 121, 108, 111, 97, 100]

  /** An invocation of the client's ReceiveMessage that tells context, type and payload in this order. */
  predicate Tells(message: Value, n: Notification) {
    && message.Arr? && |message.items| == 6
    && message.items[0] == Int(1) && message.items[1] == Map([]) && message.items[2] == Nil
    && message.items[3] == Str(RECEIVE_MESSAGE) && message.items[5] == Arr([])
    && message.items[4].Arr? && |message.items[4].items| == 1 && message.items[4].items[0].Map?
    && var told := message.items[4].items[0].entries;
       && |told| == 3
       && told[0] == Entry(CONTEXT_ID, match n.contextId case None => Nil case Some(id) => Str(id))
       && told[1] == Entry(TYPE, Int(n.updateType))
       && told[2] == Entry(PAYLOAD, Map(n.payload))
  }

  lemma InvocationTells(n: Notification)
    ensures Tells(Invocation(n), n)
  {
    assert Ascii("ReceiveMessage") == RECEIVE_MESSAGE && Ascii("ContextId") == CONTEXT_ID;
    assert Ascii("Type") == TYPE && Ascii("Payload") == PAYLOAD;
  }

  /**
   What a receiver finds in the frame of a notification: an invocation without headers, id and streams
   of the client's ReceiveMessage, with one argument that tells the context, the type and the payload.
   */
  lemma ReceiverFinds(n: Notification)
    requires Sendable(n)
    ensures var payload := Encode(Invocation(n));
            && SplitFrames(Frame(payload)) == Some([payload])
            && Decode(payload).Some? && Decode(payload).value.1 == [] && Tells(Decode(payload).value.0, n)
  {
    hide Tells, Encode, Decode, Invocation, SplitFrames, Frame, Encodable;
    SendableIsEncodable(n);
    RoundTrip(Invocation(n), []);
    assert Encode(Invocation(n)) + [] == Encode(Invocation(n));
    FrameRoundTripsExactly(Encode(Invocation(n)));
    InvocationTells(n);
  }
}
