/** The JSON codec's encoder: compact separators, no ASCII escaping, string escapes of section 7 of
    RFC 8259, and the envelope's key order.  Its lengths are proved to obey the laws the splitter
    relies on.  Decoding is a parameter. */
module Json {
  import opened Frames
  import opened Utf8
  import opened Codecs
  import opened Fragmenter
  import opened SplitLaws

  // ------------------------------------------------------------ text

  function Ascii(s: string): (bytes: seq<Byte>)
    ensures |bytes| == |s|
  {
    seq(|s|, i requires 0 <= i < |s| => (s[i] as int % 128) as Byte)
  }

  function Hex(digit: int): Byte
    requires 0 <= digit < 16
  {
    (if digit < 10 then 0x30 + digit else 0x57 + digit) as Byte
  }

  /** How one byte of a string is written between the quotes. */
  function EscapeByte(b: Byte): (out: seq<Byte>)
    ensures 1 <= |out| <= 6
  {
    if b == 0x22 || b == 0x5C then [0x5C, b]
    else if b == 0x08 then Ascii("\\b")
    else if b == 0x0C then Ascii("\\f")
    else if b == 0x0A then Ascii("\\n")
    else if b == 0x0D then Ascii("\\r")
    else if b == 0x09 then Ascii("\\t")
    else if b < 0x20 then Ascii("\\u00") + [Hex(b as int / 16), Hex(b as int % 16)]
    else [b]
  }

  function Escape(text: Text): (out: seq<Byte>)
    ensures |text| <= |out|
  {
    if text == [] then [] else EscapeByte(text[0]) + Escape(text[1..])
  }

  function Quoted(text: Text): seq<Byte> {
    [0x22] + Escape(text) + [0x22]
  }

  function Digits(n: nat): seq<Byte> {
    if n < 10 then [(0x30 + n) as Byte] else Digits(n / 10) + [(0x30 + n % 10) as Byte]
  }

  function Number(n: int): seq<Byte> {
    if n < 0 then [0x2D] + Digits(-n) else Digits(n)
  }

  lemma {:induction false} EscapeConcat(a: Text, b: Text)
    ensures Escape(a + b) == Escape(a) + Escape(b)
    decreases |a|
  {
    hide EscapeByte;
    if a == [] {
      assert a + b == b;
    } else {
      EscapeConcat(a[1..], b);
      assert (a + b)[1..] == a[1..] + b;
      assert Escape(a + b) == EscapeByte(a[0]) + (Escape(a[1..]) + Escape(b));
    }
  }

  // ------------------------------------------------------------ values

  /** `None` for a value JSON cannot carry: bytes, and what is no value of the source at all, a string that is not
      UTF-8 or a dict with a key twice. */
  function Render(v: Value): Option<seq<Byte>>
    decreases v, 1
  {
    match v
    case Null => Some(Ascii("null"))
    case Bool(b) => Some(Ascii(if b then "true" else "false"))
    case Int(n) => Some(Number(n))
    case Str(text) => if ValidUtf8(text) then Some(Quoted(text)) else None
    case Raw(_) => None
    case List(items) =>
      (match RenderItems(items)
       case None => None
       case Some(body) => Some([0x5B] + body + [0x5D]))
    case Dict(entries) => RenderFields(entries)
  }

  predicate HasKey(entries: Fields, key: Text) {
    exists i :: 0 <= i < |entries| && entries[i].key == key
  }

  predicate DistinctKeys(entries: Fields) {
    forall i, j :: 0 <= i < j < |entries| ==> entries[i].key != entries[j].key
  }

  function RenderItems(items: seq<Value>): Option<seq<Byte>>
    decreases items, 0
  {
    if items == [] then Some([])
    else
      match (Render(items[0]), RenderItems(items[1..]))
      case (Some(head), Some(tail)) => Some(head + (if |items| == 1 then [] else [0x2C]) + tail)
      case _ => None
  }

  function RenderFields(entries: Fields): Option<seq<Byte>>
    decreases entries, 1
  {
    match RenderEntries(entries)
    case None => None
    case Some(body) => if !DistinctKeys(entries) then None else Some([0x7B] + body + [0x7D])
  }

  function RenderEntries(entries: Fields): Option<seq<Byte>>
    decreases entries, 0
  {
    if entries == [] then Some([])
    else
      match (Render(entries[0].value), RenderEntries(entries[1..]))
      case (Some(head), Some(tail)) =>
        if !ValidUtf8(entries[0].key) then None
        else Some(Quoted(entries[0].key) + [0x3A] + head + (if |entries| == 1 then [] else [0x2C]) + tail)
      case _ => None
  }

  // ------------------------------------------------------------ the envelope

  function TypeName(kind: FrameType): Text {
    match kind
    case OpenFrame => Ascii("open")
    case DataFrame => Ascii("data")
    case ResetFrame => Ascii("reset")
    case PingFrame => Ascii("ping")
    case PongFrame => Ascii("pong")
    case GoawayFrame => Ascii("goaway")
    case OtherFrame(name) => name
  }

  function Member(key: string, value: seq<Byte>): seq<Byte> {
    Ascii(",\"" + key + "\":") + value
  }

  function NumberMember(key: string, n: Option<int>): seq<Byte> {
    if n.None? then [] else Member(key, Number(n.value))
  }

  function FlagMember(key: string, flag: bool): seq<Byte> {
    if flag then Member(key, Ascii("true")) else []
  }

  function TextMember(key: string, text: Option<Text>): seq<Byte> {
    if text.None? then [] else Member(key, Quoted(text.value))
  }

  function FieldsMember(key: string, fields: Option<Fields>): Option<seq<Byte>> {
    match fields
    case None => Some([])
    case Some(entries) =>
      match RenderFields(entries)
      case None => None
      case Some(body) => Some(Member(key, body))
  }

  function PayloadMember(payload: Option<Value>): Option<seq<Byte>> {
    match payload
    case None => Some([])
    case Some(v) =>
      match Render(v)
      case None => None
      case Some(body) => Some(Member("payload", body))
  }

  /** A fragment is text under this codec; bytes are refused. */
  function FragmentMember(fragment: Option<Chunk>): Option<seq<Byte>> {
    match fragment
    case None => Some([])
    case Some(chunk) => if chunk.text then Some(Member("fragment", Quoted(chunk.bytes))) else None
  }

  function NatToInt(n: Option<nat>): Option<int> {
    if n.None? then None else Some(n.value)
  }

  /** A frame has one encoding: the members come in a fixed order, and none is written at its default. */
  function Encode(f: Frame): Option<seq<Byte>> {
    match (FragmentMember(f.fragment), FieldsMember("headers", f.headers),
           PayloadMember(f.payload), FieldsMember("trailers", f.trailers))
    case (Some(fragment), Some(headers), Some(payload), Some(trailers)) =>
      Some(Ascii("{\"type\":") + Quoted(TypeName(f.kind)) + NumberMember("stream", NatToInt(f.stream))
           + NumberMember("code", f.code) + FlagMember("end", f.end) + fragment + headers
           + NumberMember("last_stream", NatToInt(f.lastStream)) + FlagMember("more", f.more)
           + TextMember("nonce", f.nonce) + payload + TextMember("reason", f.reason) + trailers + Ascii("}"))
    case _ => None
  }

  function EncodePayload(v: Value): Option<Chunk> {
    match Render(v)
    case None => None
    case Some(bytes) => Some(Chunk(true, bytes))
  }

  function JsonCodec(decode: Chunk -> Option<Value>): Codec {
    Codec(f => Encode(f), v => EncodePayload(v), decode)
  }

  // ------------------------------------------------------------ its lengths

  /** The bytes of a fragment's envelope that do not depend on the slice. */
  function Envelope(source: Frame, first: bool, last: bool): Option<nat> {
    match (FieldsMember("headers", if first then source.headers else None),
           FieldsMember("trailers", if last then source.trailers else None))
    case (Some(headers), Some(trailers)) =>
      Some(8 + |Quoted(TypeName(source.kind))| + |NumberMember("stream", NatToInt(source.stream))|
           + |NumberMember("code", source.code)| + |FlagMember("end", last && source.end)|
           + |Member("fragment", [])| + 2 + |headers| + |NumberMember("last_stream", NatToInt(source.lastStream))|
           + |FlagMember("more", !last)| + |TextMember("nonce", source.nonce)| + |TextMember("reason", source.reason)|
           + |trailers| + 1)
    case _ => None
  }

  /** A fragment is its envelope and its escaped slice. */
  lemma PieceLength(source: Frame, whole: Chunk, a: nat, b: nat, first: bool, last: bool)
    requires a <= b <= |whole.bytes|
    ensures var encoded := Encode(Piece(source, whole, a, b, first, last));
            if whole.text && Envelope(source, first, last).Some?
            then encoded.Some? && |encoded.value| == Envelope(source, first, last).value + |Escape(whole.bytes[a..b])|
            else encoded == None
  {
    hide Escape, Ascii, Quoted, NumberMember, TextMember, FlagMember, RenderFields;
    var f := Piece(source, whole, a, b, first, last);
    QuotedLength(whole.bytes[a..b]);
    MemberLength("fragment", Quoted(whole.bytes[a..b]));
    MemberLength("fragment", []);
    assert f.fragment == Some(Chunk(whole.text, whole.bytes[a..b]));
  }

  lemma QuotedLength(text: Text)
    ensures |Quoted(text)| == |Escape(text)| + 2
  {
  }

  lemma MemberLength(key: string, value: seq<Byte>)
    ensures |Member(key, value)| == |key| + 4 + |value|
  {
  }

  lemma EscapeOfSlice(bytes: Text, a: nat, b: nat, a': nat, b': nat)
    requires a' <= a <= b <= b' <= |bytes|
    ensures b - a <= |Escape(bytes[a..b])| <= |Escape(bytes[a'..b'])|
  {
    hide Escape, EscapeByte;
    EscapeConcat(bytes[a'..a], bytes[a..b]);
    EscapeConcat(bytes[a'..a] + bytes[a..b], bytes[b..b']);
    assert bytes[a'..b'] == bytes[a'..a] + bytes[a..b] + bytes[b..b'];
  }

  lemma EnvelopeGrows(source: Frame, first: bool, first': bool, last: bool)
    requires (first ==> first') && Envelope(source, first', last).Some?
    ensures Envelope(source, first, last).Some?
    ensures Envelope(source, first, last).value <= Envelope(source, first', last).value
  {
  }

  /** The JSON codec meets every law of lengths the splitter relies on. */
  lemma JsonIsMeasured(decode: Chunk -> Option<Value>)
    ensures Measured(JsonCodec(decode))
  {
    hide Escape, Encode, Render, Envelope, Piece;
    var codec := JsonCodec(decode);
    forall source, whole, a: nat, b: nat, a': nat, b': nat, first, first', last
      ensures Grows(codec, source, whole, a, b, a', b', first, first', last)
    {
      JsonGrows(decode, source, whole, a, b, a', b', first, first', last);
    }
    forall source, whole, a: nat, b: nat, first, last
      ensures Covers(codec, source, whole, a, b, first, last)
    {
      if a <= b <= |whole.bytes| {
        PieceLength(source, whole, a, b, first, last);
        EscapeOfSlice(whole.bytes, a, b, a, b);
      }
    }
    forall source: Frame, whole | Size(codec, source).Some? && source.payload.Some?
                                  && codec.encodePayload(source.payload.value) == Some(whole)
      ensures FragmentsEncode(codec, source, whole)
    {
      JsonFragmentsEncode(decode, source, whole);
    }
  }

  lemma JsonGrows(decode: Chunk -> Option<Value>, source: Frame, whole: Chunk, a: nat, b: nat, a': nat, b': nat,
                  first: bool, first': bool, last: bool)
    ensures Grows(JsonCodec(decode), source, whole, a, b, a', b', first, first', last)
  {
    hide Escape, Encode, Envelope, Piece;
    if a' <= a <= b <= b' <= |whole.bytes| && (first ==> first') {
      PieceLength(source, whole, a, b, first, last);
      PieceLength(source, whole, a', b', first', last);
      EscapeOfSlice(whole.bytes, a, b, a', b');
      if Envelope(source, first', last).Some? {
        EnvelopeGrows(source, first, first', last);
      }
    }
  }

  lemma JsonFragmentsEncode(decode: Chunk -> Option<Value>, source: Frame, whole: Chunk)
    requires Encode(source).Some? && whole.text
    ensures FragmentsEncode(JsonCodec(decode), source, whole)
  {
    hide Escape, Piece;
    forall a: nat, b: nat, first, last | a <= b <= |whole.bytes|
      ensures Size(JsonCodec(decode), Piece(source, whole, a, b, first, last)).Some?
    {
      PieceLength(source, whole, a, b, first, last);
    }
  }
}
