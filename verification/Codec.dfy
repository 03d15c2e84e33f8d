/** The binary frames of Phoenix Channels V2: length-prefixed fields after a kind byte.
    Strings are their UTF-8 bytes. */
module CodecSpec {
  import opened Wire

  newtype byte = b: int | 0 <= b < 256

  type Text = seq<byte>

  const PUSH: byte := 0
  const REPLY: byte := 1
  const BROADCAST: byte := 2

  /** The bytes of "phx_reply". */
  const PHX_REPLY: Text := [0x70, 0x68, 0x78, 0x5F, 0x72, 0x65, 0x70, 0x6C, 0x79]

  datatype Body = Bytes(bytes: seq<byte>) | ReplyBody(status: Text, response: seq<byte>)

  datatype BinaryFrame = BinaryFrame(joinRef: Option<Text>, reference: Option<Text>, topic: Text, event: Text, body: Body)

  datatype Field = JoinRefField | RefField | TopicField | EventField | StatusField

  datatype CodecError = Truncated | UnknownKind(kind: byte) | InvalidUtf8(field: Field) | FieldTooLong(field: Field, length: nat)

  // ----- UTF-8 (section 4 of RFC 3629) -----

  predicate Tail(b: byte) {
    0x80 <= b <= 0xBF
  }

  predicate SecondOfThree(first: byte, second: byte) {
    if first == 0xE0 then 0xA0 <= second <= 0xBF
    else if first == 0xED then 0x80 <= second <= 0x9F
    else Tail(second)
  }

  predicate SecondOfFour(first: byte, second: byte) {
    if first == 0xF0 then 0x90 <= second <= 0xBF
    else if first == 0xF4 then 0x80 <= second <= 0x8F
    else Tail(second)
  }

  /** The length of the character a string starts with, or 0 if it starts with none. */
  function CharLength(s: seq<byte>): (n: nat)
    ensures n <= |s|
  {
    if s == [] then 0
    else if s[0] <= 0x7F then 1
    else if 0xC2 <= s[0] <= 0xDF && |s| >= 2 && Tail(s[1]) then 2
    else if 0xE0 <= s[0] <= 0xEF && |s| >= 3 && SecondOfThree(s[0], s[1]) && Tail(s[2]) then 3
    else if 0xF0 <= s[0] <= 0xF4 && |s| >= 4 && SecondOfFour(s[0], s[1]) && Tail(s[2]) && Tail(s[3]) then 4
    else 0
  }

  predicate IsUtf8(s: seq<byte>)
    decreases |s|
  {
    s == [] || (CharLength(s) > 0 && IsUtf8(s[CharLength(s)..]))
  }

  // ----- Fields -----

  function Sizes(fields: seq<Text>): seq<byte>
    requires forall i :: 0 <= i < |fields| ==> |fields[i]| <= 255
  {
    seq(|fields|, i requires 0 <= i < |fields| => |fields[i]| as byte)
  }

  function Concat(fields: seq<Text>): seq<byte>
    decreases |fields|
  {
    if fields == [] then [] else fields[0] + Concat(fields[1..])
  }

  function Sum(sizes: seq<byte>): nat
    decreases |sizes|
  {
    if sizes == [] then 0 else sizes[0] as nat + Sum(sizes[1..])
  }

  /** A kind byte, the sizes of the fields, the fields, and the payload. */
  function Layout(kind: byte, fields: seq<Text>, payload: seq<byte>): seq<byte>
    requires forall i :: 0 <= i < |fields| ==> |fields[i]| <= 255
  {
    [kind] + Sizes(fields) + Concat(fields) + payload
  }

  function TakeFields(rest: seq<byte>, sizes: seq<byte>): (seq<Text>, seq<byte>)
    requires Sum(sizes) <= |rest|
    decreases |sizes|
  {
    if sizes == [] then ([], rest)
    else
      var n := sizes[0] as nat;
      var (fields, payload) := TakeFields(rest[n..], sizes[1..]);
      ([rest[..n]] + fields, payload)
  }

  /** Splits a frame whose header is `header` bytes long. */
  function Split(input: seq<byte>, header: nat): Result<(seq<Text>, seq<byte>), CodecError>
    requires 1 <= header
  {
    if |input| < header || |input| < header + Sum(input[1..header]) then Err(Truncated)
    else Ok(TakeFields(input[header..], input[1..header]))
  }

  // ----- Decoding -----

  function Utf8(s: Text, field: Field): Result<Text, CodecError> {
    if IsUtf8(s) then Ok(s) else Err(InvalidUtf8(field))
  }

  function OptionalUtf8(s: Text, field: Field): Result<Option<Text>, CodecError> {
    if s == [] then Ok(None) else if IsUtf8(s) then Ok(Some(s)) else Err(InvalidUtf8(field))
  }

  lemma {:induction false} TakeFieldsCounts(rest: seq<byte>, sizes: seq<byte>)
    requires Sum(sizes) <= |rest|
    ensures |TakeFields(rest, sizes).0| == |sizes|
    decreases |sizes|
  {
    if sizes != [] {
      TakeFieldsCounts(rest[sizes[0] as nat..], sizes[1..]);
    }
  }

  function DecodePush(fields: seq<Text>, payload: seq<byte>): Result<BinaryFrame, CodecError>
    requires |fields| == 3
  {
    match OptionalUtf8(fields[0], JoinRefField)
    case Err(e) => Err(e)
    case Ok(joinRef) =>
      match Utf8(fields[1], TopicField)
      case Err(e) => Err(e)
      case Ok(topic) =>
        match Utf8(fields[2], EventField)
        case Err(e) => Err(e)
        case Ok(event) => Ok(BinaryFrame(joinRef, None, topic, event, Bytes(payload)))
  }

  function DecodeReply(fields: seq<Text>, payload: seq<byte>): Result<BinaryFrame, CodecError>
    requires |fields| == 4
  {
    match OptionalUtf8(fields[0], JoinRefField)
    case Err(e) => Err(e)
    case Ok(joinRef) =>
      match OptionalUtf8(fields[1], RefField)
      case Err(e) => Err(e)
      case Ok(reference) =>
        match Utf8(fields[2], TopicField)
        case Err(e) => Err(e)
        case Ok(topic) =>
          match Utf8(fields[3], StatusField)
          case Err(e) => Err(e)
          case Ok(status) => Ok(BinaryFrame(joinRef, reference, topic, PHX_REPLY, ReplyBody(status, payload)))
  }

  function DecodeBroadcast(fields: seq<Text>, payload: seq<byte>): Result<BinaryFrame, CodecError>
    requires |fields| == 2
  {
    match Utf8(fields[0], TopicField)
    case Err(e) => Err(e)
    case Ok(topic) =>
      match Utf8(fields[1], EventField)
      case Err(e) => Err(e)
      case Ok(event) => Ok(BinaryFrame(None, None, topic, event, Bytes(payload)))
  }

  /** The length of the header: the kind byte and one size for each field. */
  function HeaderLength(kind: byte): nat {
    if kind == PUSH then 4 else if kind == REPLY then 5 else 3
  }

  function DecodeFields(kind: byte, fields: seq<Text>, payload: seq<byte>): Result<BinaryFrame, CodecError>
    requires kind <= BROADCAST && |fields| == HeaderLength(kind) - 1
  {
    if kind == PUSH then DecodePush(fields, payload)
    else if kind == REPLY then DecodeReply(fields, payload)
    else DecodeBroadcast(fields, payload)
  }

  function Decode(input: seq<byte>): Result<BinaryFrame, CodecError> {
    if input == [] then Err(Truncated)
    else if input[0] > BROADCAST then Err(UnknownKind(input[0]))
    else
      match Split(input, HeaderLength(input[0]))
      case Err(e) => Err(e)
      case Ok((fields, payload)) =>
        TakeFieldsCounts(input[HeaderLength(input[0])..], input[1..HeaderLength(input[0])]);
        DecodeFields(input[0], fields, payload)
  }

  // ----- Encoding -----

  function OrEmpty(text: Option<Text>): Text {
    match text
    case Some(t) => t
    case None => []
  }

  function FieldSize(s: Text, field: Field): Result<byte, CodecError> {
    if |s| <= 255 then Ok(|s| as byte) else Err(FieldTooLong(field, |s|))
  }

  function PushFields(f: BinaryFrame): seq<Text> {
    [OrEmpty(f.joinRef), OrEmpty(f.reference), f.topic, f.event]
  }

  /** The bytes of a client push; the first field over 255 bytes is refused. */
  function Encode(f: BinaryFrame, payload: seq<byte>): Result<seq<byte>, CodecError> {
    if |OrEmpty(f.joinRef)| > 255 then Err(FieldTooLong(JoinRefField, |OrEmpty(f.joinRef)|))
    else if |OrEmpty(f.reference)| > 255 then Err(FieldTooLong(RefField, |OrEmpty(f.reference)|))
    else if |f.topic| > 255 then Err(FieldTooLong(TopicField, |f.topic|))
    else if |f.event| > 255 then Err(FieldTooLong(EventField, |f.event|))
    else Ok(Layout(PUSH, PushFields(f), payload))
  }

  // ----- What the server sends -----

  /** A server message in one of the three V2 layouts; an absent reference is empty. */
  datatype Message =
    | PushMessage(joinRef: Text, topic: Text, event: Text, payload: seq<byte>)
    | ReplyMessage(joinRef: Text, reference: Text, topic: Text, status: Text, payload: seq<byte>)
    | BroadcastMessage(topic: Text, event: Text, payload: seq<byte>)

  function KindOf(m: Message): byte {
    match m
    case PushMessage(_, _, _, _) => PUSH
    case ReplyMessage(_, _, _, _, _) => REPLY
    case BroadcastMessage(_, _, _) => BROADCAST
  }

  function FieldsOf(m: Message): (fields: seq<Text>)
    ensures |fields| == HeaderLength(KindOf(m)) - 1
  {
    match m
    case PushMessage(joinRef, topic, event, _) => [joinRef, topic, event]
    case ReplyMessage(joinRef, reference, topic, status, _) => [joinRef, reference, topic, status]
    case BroadcastMessage(topic, event, _) => [topic, event]
  }

  predicate Sendable(m: Message) {
    forall i :: 0 <= i < |FieldsOf(m)| ==> |FieldsOf(m)[i]| <= 255
  }

  predicate Readable(m: Message) {
    forall i :: 0 <= i < |FieldsOf(m)| ==> IsUtf8(FieldsOf(m)[i])
  }

  function Serialize(m: Message): seq<byte>
    requires Sendable(m)
  {
    Layout(KindOf(m), FieldsOf(m), m.payload)
  }

  function Present(t: Text): Option<Text> {
    if t == [] then None else Some(t)
  }

  /** The frame a message stands for. */
  function FrameOf(m: Message): BinaryFrame {
    match m
    case PushMessage(joinRef, topic, event, payload) => BinaryFrame(Present(joinRef), None, topic, event, Bytes(payload))
    case ReplyMessage(joinRef, reference, topic, status, payload) =>
      BinaryFrame(Present(joinRef), Present(reference), topic, PHX_REPLY, ReplyBody(status, payload))
    case BroadcastMessage(topic, event, payload) => BinaryFrame(None, None, topic, event, Bytes(payload))
  }
}

/** Decoding inverts the three server layouts and accepts nothing else; encoding is
    injective and fails exactly on oversized fields. */
module CodecLaws {
  import opened Wire
  import opened CodecSpec

  ghost predicate Short(fields: seq<Text>) {
    forall i :: 0 <= i < |fields| ==> |fields[i]| <= 255
  }

  lemma {:induction false} TakeInvertsConcat(fields: seq<Text>, payload: seq<byte>)
    requires Short(fields)
    ensures Sum(Sizes(fields)) == |Concat(fields)|
    ensures TakeFields(Concat(fields) + payload, Sizes(fields)) == (fields, payload)
    decreases |fields|
  {
    if fields == [] {
      assert [] + payload == payload;
    } else {
      var head, tail := fields[0], fields[1..];
      assert forall i :: 0 <= i < |tail| ==> tail[i] == fields[i + 1];
      TakeInvertsConcat(tail, payload);
      assert Sizes(fields)[1..] == Sizes(tail);
      var rest := Concat(fields) + payload;
      assert rest == head + (Concat(tail) + payload);
      assert rest[..|head|] == head && rest[|head|..] == Concat(tail) + payload;
      assert [head] + tail == fields;
    }
  }

  lemma Regroup(a: seq<byte>, b: seq<byte>, c: seq<byte>)
    ensures (a + b) + c == a + (b + c)
  {}

  lemma {:induction false} SizesOfTaken(rest: seq<byte>, sizes: seq<byte>)
    requires Sum(sizes) <= |rest|
    ensures Short(TakeFields(rest, sizes).0) && Sizes(TakeFields(rest, sizes).0) == sizes
    decreases |sizes|
  {
    if sizes != [] {
      var n := sizes[0] as nat;
      SizesOfTaken(rest[n..], sizes[1..]);
      var fields, tail := TakeFields(rest, sizes).0, TakeFields(rest[n..], sizes[1..]).0;
      assert fields == [rest[..n]] + tail;
      forall i | 0 <= i < |fields| ensures |fields[i]| == sizes[i] as nat {
        if i > 0 {
          assert |tail[i - 1]| as byte == sizes[1..][i - 1];
        }
      }
    }
  }

  lemma {:induction false} ConcatInvertsTake(rest: seq<byte>, sizes: seq<byte>)
    requires Sum(sizes) <= |rest|
    ensures var (fields, payload) := TakeFields(rest, sizes); Concat(fields) + payload == rest
    decreases |sizes|
  {
    var (fields, payload) := TakeFields(rest, sizes);
    if sizes == [] {
      assert [] + rest == rest;
    } else {
      var n := sizes[0] as nat;
      ConcatInvertsTake(rest[n..], sizes[1..]);
      var tail := TakeFields(rest[n..], sizes[1..]).0;
      assert fields[1..] == tail && fields[0] == rest[..n];
      Regroup(rest[..n], Concat(tail), payload);
    }
  }

  /** Splitting inverts laying out, for any number of fields. */
  lemma SplitInvertsLayout(kind: byte, fields: seq<Text>, payload: seq<byte>)
    requires Short(fields)
    ensures Split(Layout(kind, fields, payload), |fields| + 1) == Ok((fields, payload))
  {
    var input, header := Layout(kind, fields, payload), |fields| + 1;
    TakeInvertsConcat(fields, payload);
    assert input == ([kind] + Sizes(fields)) + (Concat(fields) + payload);
    assert input[1..header] == Sizes(fields);
    assert input[header..] == Concat(fields) + payload;
  }

  /** A split frame is laid out from its parts. */
  lemma LayoutInvertsSplit(input: seq<byte>, header: nat)
    requires 1 <= header && Split(input, header).Ok?
    ensures var (fields, payload) := Split(input, header).value;
            Short(fields) && |fields| == header - 1 && Layout(input[0], fields, payload) == input
  {
    var (fields, payload) := Split(input, header).value;
    ConcatInvertsTake(input[header..], input[1..header]);
    SizesOfTaken(input[header..], input[1..header]);
    TakeFieldsCounts(input[header..], input[1..header]);
    assert [input[0]] + input[1..header] == input[..header];
    Regroup(input[..header], Concat(fields), payload);
  }

  /** Every well-formed server message is decoded to the frame it stands for. */
  lemma DecodeInvertsSerialize(m: Message)
    requires Sendable(m) && Readable(m)
    ensures Decode(Serialize(m)) == Ok(FrameOf(m))
  {
    var input, fields := Serialize(m), FieldsOf(m);
    SplitInvertsLayout(KindOf(m), fields, m.payload);
    assert input[0] == KindOf(m);
    match m
    case PushMessage(joinRef, topic, event, _) =>
      assert IsUtf8(fields[0]) && IsUtf8(fields[1]) && IsUtf8(fields[2]);
    case ReplyMessage(joinRef, reference, topic, status, _) =>
      assert IsUtf8(fields[0]) && IsUtf8(fields[1]) && IsUtf8(fields[2]) && IsUtf8(fields[3]);
    case BroadcastMessage(topic, event, _) =>
      assert IsUtf8(fields[0]) && IsUtf8(fields[1]);
  }

  /** The message an input spells when its layout is complete. */
  function MessageIn(kind: byte, fields: seq<Text>, payload: seq<byte>): (m: Message)
    requires kind <= BROADCAST && |fields| == HeaderLength(kind) - 1
    ensures KindOf(m) == kind && FieldsOf(m) == fields && m.payload == payload
  {
    if kind == PUSH then PushMessage(fields[0], fields[1], fields[2], payload)
    else if kind == REPLY then ReplyMessage(fields[0], fields[1], fields[2], fields[3], payload)
    else BroadcastMessage(fields[0], fields[1], payload)
  }

  /** Whatever is accepted re-serialises to the same bytes. */
  lemma AcceptedReserializes(input: seq<byte>) returns (m: Message)
    requires Decode(input).Ok?
    ensures Sendable(m) && Readable(m) && Serialize(m) == input && Decode(input) == Ok(FrameOf(m))
  {
    var (fields, payload) := Split(input, HeaderLength(input[0])).value;
    LayoutInvertsSplit(input, HeaderLength(input[0]));
    m := MessageIn(input[0], fields, payload);
    FieldsAreReadable(input[0], fields, payload);
  }

  lemma FieldsAreReadable(kind: byte, fields: seq<Text>, payload: seq<byte>)
    requires kind <= BROADCAST && |fields| == HeaderLength(kind) - 1 && DecodeFields(kind, fields, payload).Ok?
    ensures DecodeFields(kind, fields, payload) == Ok(FrameOf(MessageIn(kind, fields, payload)))
    ensures forall i :: 0 <= i < |fields| ==> IsUtf8(fields[i])
  {
    if kind == PUSH {
      assert IsUtf8(fields[0]) && IsUtf8(fields[1]) && IsUtf8(fields[2]);
    } else if kind == REPLY {
      assert IsUtf8(fields[0]) && IsUtf8(fields[1]) && IsUtf8(fields[2]) && IsUtf8(fields[3]);
    } else {
      assert IsUtf8(fields[0]) && IsUtf8(fields[1]);
    }
  }

  /** An input is accepted exactly when it is the serialisation of a readable message. */
  lemma AcceptedIff(input: seq<byte>)
    ensures Decode(input).Ok? <==> exists m :: Sendable(m) && Readable(m) && Serialize(m) == input
  {
    if Decode(input).Ok? {
      var m := AcceptedReserializes(input);
    }
    forall m | Sendable(m) && Readable(m) && Serialize(m) == input ensures Decode(input).Ok? {
      DecodeInvertsSerialize(m);
    }
  }

  // ----- Client pushes -----

  /** Encoding fails exactly when a field is over 255 bytes. */
  lemma EncodeFailsIff(f: BinaryFrame, payload: seq<byte>)
    ensures Encode(f, payload).Err? <==> exists i :: 0 <= i < 4 && |PushFields(f)[i]| > 255
  {
    if Encode(f, payload).Err? {
      var i := if |OrEmpty(f.joinRef)| > 255 then 0 else if |OrEmpty(f.reference)| > 255 then 1 else if |f.topic| > 255 then 2 else 3;
      assert |PushFields(f)[i]| > 255;
    }
  }

  /** Two pushes with the same bytes are the same, up to an absent and an empty reference. */
  lemma EncodeInjective(f: BinaryFrame, g: BinaryFrame, p: seq<byte>, q: seq<byte>)
    requires Encode(f, p).Ok? && Encode(f, p) == Encode(g, q)
    ensures p == q && f.topic == g.topic && f.event == g.event
    ensures OrEmpty(f.joinRef) == OrEmpty(g.joinRef) && OrEmpty(f.reference) == OrEmpty(g.reference)
  {
    SplitInvertsLayout(PUSH, PushFields(f), p);
    SplitInvertsLayout(PUSH, PushFields(g), q);
    assert PushFields(f) == PushFields(g);
    assert PushFields(f)[0] == PushFields(g)[0] && PushFields(f)[1] == PushFields(g)[1];
    assert PushFields(f)[2] == PushFields(g)[2] && PushFields(f)[3] == PushFields(g)[3];
  }

  /** A push sent back as a reply decodes to its own references, topic and payload, with
      its event as the status. */
  lemma EchoedPushDecodes(f: BinaryFrame, payload: seq<byte>)
    requires Encode(f, payload).Ok?
    requires IsUtf8(OrEmpty(f.joinRef)) && IsUtf8(OrEmpty(f.reference)) && IsUtf8(f.topic) && IsUtf8(f.event)
    ensures Decode(Encode(f, payload).value[0 := REPLY]) ==
            Ok(BinaryFrame(Present(OrEmpty(f.joinRef)), Present(OrEmpty(f.reference)), f.topic, PHX_REPLY, ReplyBody(f.event, payload)))
  {
    var m := ReplyMessage(OrEmpty(f.joinRef), OrEmpty(f.reference), f.topic, f.event, payload);
    assert FieldsOf(m) == PushFields(f);
    assert Encode(f, payload).value[0 := REPLY] == Serialize(m);
    DecodeInvertsSerialize(m);
  }

  /** The length of the event and the fields before it, as one string. */
  function Shifted(f: BinaryFrame): seq<byte>
    requires |f.event| <= 255
  {
    [|f.event| as byte] + OrEmpty(f.joinRef) + OrEmpty(f.reference) + f.topic
  }

  lemma ConcatThree(a: Text, b: Text, c: Text)
    ensures Concat([a, b, c]) == a + b + c
  {
    assert [a, b, c][1..] == [b, c] && [b, c][1..] == [c] && [c][1..] == [];
    assert Concat([c]) == c;
    assert Concat([b, c]) == b + c;
    Regroup(a, b, c);
  }

  lemma ConcatFour(a: Text, b: Text, c: Text, d: Text)
    ensures Concat([a, b, c, d]) == a + b + c + d
  {
    assert [a, b, c, d][1..] == [b, c, d];
    ConcatThree(b, c, d);
    assert a + (b + c + d) == a + b + c + d;
  }

  /** `Shifted(f)` cut at the sizes of the first three fields, and its last byte. */
  function Pieces(f: BinaryFrame): (pieces: seq<Text>)
    requires |f.event| <= 255
    ensures |pieces| == 3
  {
    var s, i, j := Shifted(f), |OrEmpty(f.joinRef)|, |OrEmpty(f.joinRef)| + |OrEmpty(f.reference)|;
    [s[..i], s[i..j], s[j..|s| - 1]]
  }

  lemma PiecesJoin(f: BinaryFrame)
    requires |f.event| <= 255
    ensures Concat(Pieces(f)) + Shifted(f)[|Shifted(f)| - 1..] == Shifted(f)
  {
    var s, i, j := Shifted(f), |OrEmpty(f.joinRef)|, |OrEmpty(f.joinRef)| + |OrEmpty(f.reference)|;
    ConcatThree(s[..i], s[i..j], s[j..|s| - 1]);
    assert s[..i] + s[i..j] == s[..j];
    assert s[..j] + s[j..|s| - 1] == s[..|s| - 1];
  }

  lemma PushBytes(f: BinaryFrame, payload: seq<byte>)
    requires Encode(f, payload).Ok?
    ensures Encode(f, payload).value == ([PUSH] + Sizes(Pieces(f))) + (Shifted(f) + (f.event + payload))
  {
    var fields := PushFields(f);
    ConcatFour(fields[0], fields[1], fields[2], fields[3]);
    assert Sizes(fields) == Sizes(Pieces(f)) + [|f.event| as byte];
    assert [|f.event| as byte] + (fields[0] + fields[1] + fields[2] + fields[3]) == Shifted(f) + f.event;
    Regroup([PUSH] + Sizes(Pieces(f)), [|f.event| as byte], Concat(fields));
    assert [PUSH] + (Sizes(Pieces(f)) + [|f.event| as byte]) == ([PUSH] + Sizes(Pieces(f))) + [|f.event| as byte];
    Regroup([PUSH] + Sizes(Pieces(f)), Shifted(f) + f.event, payload);
    Regroup(Shifted(f), f.event, payload);
  }

  lemma MisreadLayout(f: BinaryFrame, payload: seq<byte>)
    requires Encode(f, payload).Ok?
    ensures Short(Pieces(f))
    ensures Encode(f, payload).value == Layout(PUSH, Pieces(f), Shifted(f)[|Shifted(f)| - 1..] + (f.event + payload))
  {
    var head, last := [PUSH] + Sizes(Pieces(f)), Shifted(f)[|Shifted(f)| - 1..];
    PushBytes(f, payload);
    PiecesJoin(f);
    Regroup(Concat(Pieces(f)), last, f.event + payload);
    Regroup(head, Concat(Pieces(f)), last + (f.event + payload));
  }

  /** Unchanged it does not. The server's layout has one size fewer, so every field is cut
      one byte too early: the length of the event goes to the first, and the last byte
      before the event stays in front of the payload. */
  lemma PushIsMisread(f: BinaryFrame, payload: seq<byte>)
    requires Encode(f, payload).Ok?
    ensures Decode(Encode(f, payload).value) ==
            DecodePush(Pieces(f), Shifted(f)[|Shifted(f)| - 1..] + (f.event + payload))
  {
    MisreadLayout(f, payload);
    SplitInvertsLayout(PUSH, Pieces(f), Shifted(f)[|Shifted(f)| - 1..] + (f.event + payload));
  }

  /** If it is accepted at all, its body has swallowed the event: it is never the push
      that was sent. */
  lemma ClientPushIsNotAServerPush(f: BinaryFrame, payload: seq<byte>)
    requires Encode(f, payload).Ok? && Decode(Encode(f, payload).value).Ok?
    ensures var read := Decode(Encode(f, payload).value).value;
            && read.body.Bytes? && |read.body.bytes| == 1 + |f.event| + |payload|
            && read != f.(body := Bytes(payload))
  {
    PushIsMisread(f, payload);
  }

  /** The shortest named push is accepted, as a push of the empty topic. */
  lemma MisreadPushIsAccepted()
    ensures var f := BinaryFrame(None, None, [0x74], [0x65], Bytes([]));
            Encode(f, []).Ok? && Decode(Encode(f, []).value) == Ok(BinaryFrame(None, None, [], [0x01], Bytes([0x74, 0x65])))
  {
    var f := BinaryFrame(None, None, [0x74], [0x65], Bytes([]));
    PushIsMisread(f, []);
    var s := Shifted(f);
    assert s == [0x01, 0x74];
    assert s[0..1] == [0x01] && s[1..] + (f.event + []) == [0x74, 0x65];
    assert IsUtf8([0x01]) by { assert [0x01 as byte][1..] == []; }
  }
}

/** The codec byte by byte: what each layout looks like on the wire and which strings it
    may hold. */
module CodecBytes {
  import opened Wire
  import opened CodecSpec
  import opened CodecLaws

  function Size(s: Text): byte
    requires |s| <= 255
  {
    |s| as byte
  }

  // ----- The three layouts -----

  /** Kind 0: sizes of the join reference, topic and event, those three, and the payload.
      The first of them that is no UTF-8 is named. */
  lemma PushIsRead(j: Text, t: Text, e: Text, p: seq<byte>)
    requires |j| <= 255 && |t| <= 255 && |e| <= 255
    ensures Decode([0, Size(j), Size(t), Size(e)] + j + t + e + p) ==
            if !IsUtf8(j) then Err(InvalidUtf8(JoinRefField))
            else if !IsUtf8(t) then Err(InvalidUtf8(TopicField))
            else if !IsUtf8(e) then Err(InvalidUtf8(EventField))
            else Ok(BinaryFrame(if j == [] then None else Some(j), None, t, e, Bytes(p)))
  {
    var input := [0, Size(j), Size(t), Size(e)] + j + t + e + p;
    ConcatThree(j, t, e);
    Regroup([0, Size(j), Size(t), Size(e)], j + t, e);
    Regroup([0, Size(j), Size(t), Size(e)], j, t);
    assert [0 as byte] + Sizes([j, t, e]) == [0, Size(j), Size(t), Size(e)];
    assert input == Layout(0, [j, t, e], p);
    SplitInvertsLayout(0, [j, t, e], p);
  }

  /** Kind 1: sizes of the join reference, reference, topic and status, those four, and the
      response. The event is "phx_reply". */
  lemma ReplyIsRead(j: Text, r: Text, t: Text, s: Text, p: seq<byte>)
    requires |j| <= 255 && |r| <= 255 && |t| <= 255 && |s| <= 255
    ensures Decode([1, Size(j), Size(r), Size(t), Size(s)] + j + r + t + s + p) ==
            if !IsUtf8(j) then Err(InvalidUtf8(JoinRefField))
            else if !IsUtf8(r) then Err(InvalidUtf8(RefField))
            else if !IsUtf8(t) then Err(InvalidUtf8(TopicField))
            else if !IsUtf8(s) then Err(InvalidUtf8(StatusField))
            else Ok(BinaryFrame(if j == [] then None else Some(j), if r == [] then None else Some(r), t,
                                [0x70, 0x68, 0x78, 0x5F, 0x72, 0x65, 0x70, 0x6C, 0x79], ReplyBody(s, p)))
  {
    var header := [1, Size(j), Size(r), Size(t), Size(s)];
    ConcatFour(j, r, t, s);
    Regroup(header, j + r + t, s);
    Regroup(header, j + r, t);
    Regroup(header, j, r);
    assert [1 as byte] + Sizes([j, r, t, s]) == header;
    assert header + j + r + t + s + p == Layout(1, [j, r, t, s], p);
    SplitInvertsLayout(1, [j, r, t, s], p);
  }

  /** Kind 2: sizes of the topic and event, those two, and the payload. */
  lemma BroadcastIsRead(t: Text, e: Text, p: seq<byte>)
    requires |t| <= 255 && |e| <= 255
    ensures Decode([2, Size(t), Size(e)] + t + e + p) ==
            if !IsUtf8(t) then Err(InvalidUtf8(TopicField))
            else if !IsUtf8(e) then Err(InvalidUtf8(EventField))
            else Ok(BinaryFrame(None, None, t, e, Bytes(p)))
  {
    var header := [2, Size(t), Size(e)];
    assert [t, e][1..] == [e] && [e][1..] == [] && Concat([e]) == e;
    assert Concat([t, e]) == t + e;
    Regroup(header, t, e);
    assert [2 as byte] + Sizes([t, e]) == header;
    assert header + t + e + p == Layout(2, [t, e], p);
    SplitInvertsLayout(2, [t, e], p);
  }

  /** The bytes a layout needs at least, by its kind byte and sizes. */
  function Needed(input: seq<byte>): nat
    requires input != [] && input[0] <= 2
  {
    if input[0] == 0 then (if |input| < 4 then 4 else 4 + input[1] as nat + input[2] as nat + input[3] as nat)
    else if input[0] == 1 then
      (if |input| < 5 then 5 else 5 + input[1] as nat + input[2] as nat + input[3] as nat + input[4] as nat)
    else (if |input| < 3 then 3 else 3 + input[1] as nat + input[2] as nat)
  }

  /** What is too short or of no known kind is refused as such, and nothing else is. */
  lemma RefusedLayouts(input: seq<byte>)
    ensures Decode(input) == Err(Truncated) <==> input == [] || (input[0] <= 2 && |input| < Needed(input))
    ensures forall k: byte :: Decode(input) == Err(UnknownKind(k)) <==> input != [] && input[0] > 2 && k == input[0]
  {
    if input != [] && input[0] <= 2 {
      var header := if input[0] == 0 then 4 else if input[0] == 1 then 5 else 3;
      if |input| >= header {
        SumOfSizes(input, header);
      }
    }
  }

  lemma SumOfSizes(input: seq<byte>, header: nat)
    requires 3 <= header <= 5 && header <= |input|
    ensures Sum(input[1..header]) == input[1] as nat + input[2] as nat + (if header > 3 then input[3] as nat else 0) +
            (if header > 4 then input[4] as nat else 0)
  {
    assert Sum([]) == 0;
    if header == 3 {
      SumCons(input, 2, header);
    } else if header == 4 {
      SumCons(input, 3, header);
      SumCons(input, 2, header);
    } else {
      SumCons(input, 4, header);
      SumCons(input, 3, header);
      SumCons(input, 2, header);
    }
    SumCons(input, 1, header);
    assert input[header..header] == [];
  }

  lemma SumCons(input: seq<byte>, i: nat, j: nat)
    requires i < j <= |input|
    ensures Sum(input[i..j]) == input[i] as nat + Sum(input[i + 1..j])
  {
    assert input[i..j][1..] == input[i + 1..j];
  }

  /** A client push: kind 0, four sizes, the four fields and the payload; the first field
      over 255 bytes is named with its length. */
  lemma PushIsWritten(f: BinaryFrame, p: seq<byte>)
    ensures var j, r := if f.joinRef.Some? then f.joinRef.value else [], if f.reference.Some? then f.reference.value else [];
            Encode(f, p) ==
            if |j| > 255 then Err(FieldTooLong(JoinRefField, |j|))
            else if |r| > 255 then Err(FieldTooLong(RefField, |r|))
            else if |f.topic| > 255 then Err(FieldTooLong(TopicField, |f.topic|))
            else if |f.event| > 255 then Err(FieldTooLong(EventField, |f.event|))
            else Ok([0, Size(j), Size(r), Size(f.topic), Size(f.event)] + j + r + f.topic + f.event + p)
  {
    var j, r := OrEmpty(f.joinRef), OrEmpty(f.reference);
    if |j| <= 255 && |r| <= 255 && |f.topic| <= 255 && |f.event| <= 255 {
      var header := [0, Size(j), Size(r), Size(f.topic), Size(f.event)];
      ConcatFour(j, r, f.topic, f.event);
      Regroup(header, j + r + f.topic, f.event);
      Regroup(header, j + r, f.topic);
      Regroup(header, j, r);
      assert [0 as byte] + Sizes(PushFields(f)) == header;
    }
  }

  // ----- UTF-8 -----

  /** A Unicode scalar value: a code point that is no surrogate. */
  predicate Scalar(c: nat) {
    c < 0x11_0000 && !(0xD800 <= c <= 0xDFFF)
  }

  /** Its UTF-8 form (section 3 of RFC 3629). */
  function Utf8Of(c: nat): seq<byte>
    requires Scalar(c)
  {
    if c < 0x80 then [c as byte]
    else if c < 0x800 then [(0xC0 + c / 0x40) as byte, (0x80 + c % 0x40) as byte]
    else if c < 0x1_0000 then [(0xE0 + c / 0x1000) as byte, (0x80 + c / 0x40 % 0x40) as byte, (0x80 + c % 0x40) as byte]
    else [(0xF0 + c / 0x4_0000) as byte, (0x80 + c / 0x1000 % 0x40) as byte, (0x80 + c / 0x40 % 0x40) as byte, (0x80 + c % 0x40) as byte]
  }

  function Encoded(text: seq<nat>): seq<byte>
    requires forall i :: 0 <= i < |text| ==> Scalar(text[i])
    decreases |text|
  {
    if text == [] then [] else Utf8Of(text[0]) + Encoded(text[1..])
  }

  lemma ThreeByteForm(c: nat)
    requires 0x800 <= c < 0x1_0000 && Scalar(c)
    ensures var a, b := c / 0x1000, c / 0x40 % 0x40;
            a < 0x10 && (a == 0 ==> b >= 0x20) && (a == 0xD ==> b < 0x20)
  {}

  lemma FourByteForm(c: nat)
    requires 0x1_0000 <= c < 0x11_0000
    ensures var a, b := c / 0x4_0000, c / 0x1000 % 0x40;
            a <= 4 && (a == 0 ==> b >= 0x10) && (a == 4 ==> b < 0x10)
  {}

  /** Every scalar value's form is read as one character of its own length. */
  lemma FormIsOneCharacter(c: nat, rest: seq<byte>)
    requires Scalar(c)
    ensures CharLength(Utf8Of(c) + rest) == |Utf8Of(c)| > 0
  {
    var s := Utf8Of(c) + rest;
    if c >= 0x1_0000 {
      FourByteForm(c);
      assert s[..4] == Utf8Of(c);
    } else if c >= 0x800 {
      ThreeByteForm(c);
      assert s[..3] == Utf8Of(c);
    }
  }

  lemma TwoBytes(a: nat, b: nat)
    requires 2 <= a < 0x20 && b < 0x40
    ensures var c := a * 0x40 + b;
            Scalar(c) && Utf8Of(c) == [(0xC0 + a) as byte, (0x80 + b) as byte]
  {
    assert (a * 0x40 + b) / 0x40 == a && (a * 0x40 + b) % 0x40 == b;
  }

  lemma Digits(a: nat, b: nat, base: nat)
    requires base in {0x40, 0x1000, 0x4_0000} && b < base
    ensures (a * base + b) / base == a && (a * base + b) % base == b
  {
    if base == 0x40 {
      assert (a * 0x40 + b) / 0x40 == a;
    } else if base == 0x1000 {
      assert (a * 0x1000 + b) / 0x1000 == a;
    } else {
      assert (a * 0x4_0000 + b) / 0x4_0000 == a;
    }
  }

  lemma ThreeBytes(a: nat, b: nat, d: nat)
    requires a < 0x10 && b < 0x40 && d < 0x40 && (a == 0 ==> b >= 0x20) && (a == 0xD ==> b < 0x20)
    ensures var c := a * 0x1000 + b * 0x40 + d;
            Scalar(c) && Utf8Of(c) == [(0xE0 + a) as byte, (0x80 + b) as byte, (0x80 + d) as byte]
  {
    var c := a * 0x1000 + b * 0x40 + d;
    Digits(a * 0x40 + b, d, 0x40);
    Digits(a, b, 0x40);
    Digits(a, b * 0x40 + d, 0x1000);
    assert c == (a * 0x40 + b) * 0x40 + d && c == a * 0x1000 + (b * 0x40 + d);
  }

  lemma FourBytes(a: nat, b: nat, d: nat, e: nat)
    requires a <= 4 && b < 0x40 && d < 0x40 && e < 0x40 && (a == 0 ==> b >= 0x10) && (a == 4 ==> b < 0x10)
    ensures var c := a * 0x4_0000 + b * 0x1000 + d * 0x40 + e;
            Scalar(c) && Utf8Of(c) == [(0xF0 + a) as byte, (0x80 + b) as byte, (0x80 + d) as byte, (0x80 + e) as byte]
  {
    var c := a * 0x4_0000 + b * 0x1000 + d * 0x40 + e;
    Digits(a * 0x1000 + b * 0x40 + d, e, 0x40);
    Digits(a * 0x40 + b, d, 0x40);
    Digits(a, b, 0x40);
    Digits(a * 0x40 + b, d * 0x40 + e, 0x1000);
    Digits(a, b * 0x1000 + d * 0x40 + e, 0x4_0000);
    assert c == (a * 0x1000 + b * 0x40 + d) * 0x40 + e;
    assert c == (a * 0x40 + b) * 0x1000 + (d * 0x40 + e);
    assert a * 0x1000 + b * 0x40 + d == (a * 0x40 + b) * 0x40 + d;
  }

  /** Every character that is read is the form of a scalar value. */
  lemma CharacterHasScalar(s: seq<byte>) returns (c: nat)
    requires CharLength(s) > 0
    ensures Scalar(c) && Utf8Of(c) == s[..CharLength(s)]
  {
    var n := CharLength(s);
    if n == 1 {
      c := s[0] as nat;
    } else if n == 2 {
      var a, b := s[0] as nat - 0xC0, s[1] as nat - 0x80;
      c := a * 0x40 + b;
      TwoBytes(a, b);
    } else if n == 3 {
      var a, b, d := s[0] as nat - 0xE0, s[1] as nat - 0x80, s[2] as nat - 0x80;
      c := a * 0x1000 + b * 0x40 + d;
      ThreeBytes(a, b, d);
    } else {
      var a, b, d, e := s[0] as nat - 0xF0, s[1] as nat - 0x80, s[2] as nat - 0x80, s[3] as nat - 0x80;
      c := a * 0x4_0000 + b * 0x1000 + d * 0x40 + e;
      FourBytes(a, b, d, e);
    }
  }

  lemma {:induction false} EncodedIsUtf8(text: seq<nat>)
    requires forall i :: 0 <= i < |text| ==> Scalar(text[i])
    ensures IsUtf8(Encoded(text))
    decreases |text|
  {
    if text != [] {
      EncodedIsUtf8(text[1..]);
      FormIsOneCharacter(text[0], Encoded(text[1..]));
      assert Encoded(text)[|Utf8Of(text[0])|..] == Encoded(text[1..]);
    }
  }

  lemma {:induction false} Utf8IsEncoded(s: seq<byte>) returns (text: seq<nat>)
    requires IsUtf8(s)
    ensures (forall i :: 0 <= i < |text| ==> Scalar(text[i])) && Encoded(text) == s
    decreases |s|
  {
    if s == [] {
      text := [];
    } else {
      var c := CharacterHasScalar(s);
      var rest := Utf8IsEncoded(s[CharLength(s)..]);
      text := [c] + rest;
      assert text[1..] == rest;
      assert s == s[..CharLength(s)] + s[CharLength(s)..];
    }
  }

  ghost predicate Spells(text: seq<nat>, s: seq<byte>) {
    (forall i :: 0 <= i < |text| ==> Scalar(text[i])) && Encoded(text) == s
  }

  /** A string of bytes is accepted as text exactly when it is the UTF-8 form of some. */
  lemma IsUtf8Iff(s: seq<byte>)
    ensures IsUtf8(s) <==> exists text :: Spells(text, s)
  {
    if IsUtf8(s) {
      var text := Utf8IsEncoded(s);
      assert Spells(text, s);
    }
    forall text | Spells(text, s) ensures IsUtf8(s) {
      EncodedIsUtf8(text);
    }
  }
}

/** The codec as the source writes it: a byte vector that grows, and an offset that moves
    over the input. */
module CodecMethods {
  import opened Wire
  import opened S = CodecSpec
  import opened CodecLaws

  method EncodePush(f: BinaryFrame, payload: seq<byte>) returns (result: Result<seq<byte>, CodecError>)
    ensures result == Encode(f, payload)
  {
    var joinRef, reference := OrEmpty(f.joinRef), OrEmpty(f.reference);
    var joinSize := FieldSize(joinRef, JoinRefField);
    if joinSize.Err? { return Err(joinSize.error); }
    var refSize := FieldSize(reference, RefField);
    if refSize.Err? { return Err(refSize.error); }
    var topicSize := FieldSize(f.topic, TopicField);
    if topicSize.Err? { return Err(topicSize.error); }
    var eventSize := FieldSize(f.event, EventField);
    if eventSize.Err? { return Err(eventSize.error); }
    var encoded := [PUSH];
    encoded := encoded + [joinSize.value, refSize.value, topicSize.value, eventSize.value];
    assert encoded == [PUSH] + Sizes(PushFields(f));
    var fields := PushFields(f);
    var i := 0;
    assert fields[0..] == fields;
    while i < 4
      invariant 0 <= i <= 4
      invariant encoded + Concat(fields[i..]) == [PUSH] + Sizes(fields) + Concat(fields)
    {
      assert fields[i..][1..] == fields[i + 1..];
      assert encoded + (fields[i] + Concat(fields[i + 1..])) == (encoded + fields[i]) + Concat(fields[i + 1..]);
      encoded := encoded + fields[i];
      i := i + 1;
    }
    assert fields[4..] == [];
    assert encoded + [] == encoded;
    result := Ok(encoded + payload);
  }

  /** The length checks and the cutting of the fields, one offset after the other. */
  method BinaryFields(input: seq<byte>, header: nat) returns (result: Result<(seq<Text>, seq<byte>), CodecError>)
    requires 1 <= header
    ensures result == Split(input, header)
  {
    if |input| < header {
      return Err(Truncated);
    }
    var sizes := input[1..header];
    var metadata := Total(sizes);
    if |input| < header + metadata {
      return Err(Truncated);
    }
    var offset, i := header, 0;
    var fields: seq<Text> := [];
    assert sizes[0..] == sizes;
    assert [] + TakeFields(input[header..], sizes).0 == TakeFields(input[header..], sizes).0;
    while i < |sizes|
      invariant 0 <= i <= |sizes| && header <= offset <= |input|
      invariant Sum(sizes[i..]) <= |input| - offset
      invariant TakeFields(input[header..], sizes) ==
                (fields + TakeFields(input[offset..], sizes[i..]).0, TakeFields(input[offset..], sizes[i..]).1)
    {
      var end := offset + sizes[i] as nat;
      assert sizes[i..][1..] == sizes[i + 1..];
      assert input[offset..][..sizes[i] as nat] == input[offset..end];
      assert input[offset..][sizes[i] as nat..] == input[end..];
      ghost var later := TakeFields(input[end..], sizes[i + 1..]).0;
      assert fields + ([input[offset..end]] + later) == (fields + [input[offset..end]]) + later;
      fields := fields + [input[offset..end]];
      offset := end;
      i := i + 1;
    }
    assert fields + [] == fields;
    result := Ok((fields, input[offset..]));
  }

  method Total(sizes: seq<byte>) returns (sum: nat)
    ensures sum == Sum(sizes)
  {
    sum := 0;
    var i := 0;
    assert sizes[0..] == sizes;
    while i < |sizes|
      invariant 0 <= i <= |sizes| && sum + Sum(sizes[i..]) == Sum(sizes)
    {
      assert sizes[i..][1..] == sizes[i + 1..];
      sum := sum + sizes[i] as nat;
      i := i + 1;
    }
  }

  method DecodeBinary(input: seq<byte>) returns (result: Result<BinaryFrame, CodecError>)
    ensures result == Decode(input)
  {
    if input == [] {
      return Err(Truncated);
    }
    var kind := input[0];
    if kind > BROADCAST {
      return Err(UnknownKind(kind));
    }
    var split := BinaryFields(input, HeaderLength(kind));
    if split.Err? {
      return Err(split.error);
    }
    var (fields, payload) := split.value;
    LayoutInvertsSplit(input, HeaderLength(kind));
    result := DecodeFields(kind, fields, payload);
  }
}
