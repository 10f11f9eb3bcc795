/** The envelope of a frame: its mapping of field names, the checks that reading one makes, and the JSON message that
    carries it. */
module Envelopes {
  import opened Frames
  import opened Utf8
  import opened Json
  import opened JsonReader

  // ------------------------------------------------------------ the mapping

  /** A field of the envelope; `None` is a field at its default, which is not written. */
  datatype Slot = Slot(key: Text, value: Option<Value>)

  function IntOf(n: Option<int>): Option<Value> { if n.None? then None else Some(Int(n.value)) }

  function TextOf(text: Option<Text>): Option<Value> { if text.None? then None else Some(Str(text.value)) }

  function FlagOf(flag: bool): Option<Value> { if flag then Some(Bool(true)) else None }

  function FieldsOf(fields: Option<Fields>): Option<Value> { if fields.None? then None else Some(Dict(fields.value)) }

  function ChunkOf(chunk: Option<Chunk>): Option<Value> {
    match chunk
    case None => None
    case Some(c) => Some(if c.text then Str(c.bytes) else Raw(c.bytes))
  }

  /** The type, the stream, and the rest in alphabetical order. */
  function SlotsOf(f: Frame): seq<Slot> {
    [Slot(Ascii("type"), Some(Str(TypeName(f.kind)))), Slot(Ascii("stream"), IntOf(NatToInt(f.stream))),
     Slot(Ascii("code"), IntOf(f.code)), Slot(Ascii("end"), FlagOf(f.end)),
     Slot(Ascii("fragment"), ChunkOf(f.fragment)), Slot(Ascii("headers"), FieldsOf(f.headers)),
     Slot(Ascii("last_stream"), IntOf(NatToInt(f.lastStream))), Slot(Ascii("more"), FlagOf(f.more)),
     Slot(Ascii("nonce"), TextOf(f.nonce)), Slot(Ascii("payload"), f.payload),
     Slot(Ascii("reason"), TextOf(f.reason)), Slot(Ascii("trailers"), FieldsOf(f.trailers))]
  }

  function Present(slots: seq<Slot>): Fields {
    if slots == [] then []
    else (if slots[0].value.Some? then [Field(slots[0].key, slots[0].value.value)] else []) + Present(slots[1..])
  }

  function ToMapping(f: Frame): Fields {
    Present(SlotsOf(f))
  }

  function Lookup(entries: Fields, key: Text): Option<Value> {
    if entries == [] then None
    else if entries[0].key == key then Some(entries[0].value)
    else Lookup(entries[1..], key)
  }

  // The checks of the fields; the outer `None` is an error.  Null stands for a field whose default is null.

  function ReadInt(v: Option<Value>): Option<Option<int>> {
    match v
    case None => Some(None)
    case Some(Null) => Some(None)
    case Some(Int(n)) => Some(Some(n))
    case _ => None
  }

  function ReadNat(v: Option<Value>): Option<Option<nat>> {
    match ReadInt(v)
    case None => None
    case Some(None) => Some(None)
    case Some(Some(n)) => if n < 0 then None else Some(Some(n))
  }

  function ReadFlag(v: Option<Value>): Option<bool> {
    match v
    case None => Some(false)
    case Some(Bool(b)) => Some(b)
    case _ => None
  }

  function ReadText(v: Option<Value>): Option<Option<Text>> {
    match v
    case None => Some(None)
    case Some(Null) => Some(None)
    case Some(Str(text)) => Some(Some(text))
    case _ => None
  }

  function ReadFields(v: Option<Value>): Option<Option<Fields>> {
    match v
    case None => Some(None)
    case Some(Null) => Some(None)
    case Some(Dict(entries)) => Some(Some(entries))
    case _ => None
  }

  function ReadChunk(v: Option<Value>): Option<Option<Chunk>> {
    match v
    case None => Some(None)
    case Some(Null) => Some(None)
    case Some(Str(text)) => Some(Some(Chunk(true, text)))
    case Some(Raw(bytes)) => Some(Some(Chunk(false, bytes)))
    case _ => None
  }

  function KindOf(name: Text): FrameType {
    if name == Ascii("open") then OpenFrame
    else if name == Ascii("data") then DataFrame
    else if name == Ascii("reset") then ResetFrame
    else if name == Ascii("ping") then PingFrame
    else if name == Ascii("pong") then PongFrame
    else if name == Ascii("goaway") then GoawayFrame
    else OtherFrame(name)
  }

  /** `None` is the protocol error of an envelope that is no frame. */
  function FromMapping(entries: Fields): Option<Frame> {
    match Lookup(entries, Ascii("type"))
    case Some(Str(name)) =>
      var fragment, payload := Lookup(entries, Ascii("fragment")), Lookup(entries, Ascii("payload"));
      var stream, code := ReadNat(Lookup(entries, Ascii("stream"))), ReadInt(Lookup(entries, Ascii("code")));
      var end, more := ReadFlag(Lookup(entries, Ascii("end"))), ReadFlag(Lookup(entries, Ascii("more")));
      var chunk, lastStream := ReadChunk(fragment), ReadNat(Lookup(entries, Ascii("last_stream")));
      var headers := ReadFields(Lookup(entries, Ascii("headers")));
      var trailers := ReadFields(Lookup(entries, Ascii("trailers")));
      var nonce, reason := ReadText(Lookup(entries, Ascii("nonce"))), ReadText(Lookup(entries, Ascii("reason")));
      if (payload.Some? && fragment.Some?) || stream.None? || code.None? || end.None? || chunk.None? || headers.None?
         || lastStream.None? || more.None? || nonce.None? || reason.None? || trailers.None?
      then None
      else
        Some(Frame(KindOf(name), stream.value, payload, chunk.value, more.value, headers.value, end.value,
                   trailers.value, code.value, reason.value, nonce.value, lastStream.value))
    case _ => None
  }

  /** One message. */
  function Decode(message: seq<Byte>): Option<Frame> {
    match ReadValue(message)
    case Some((Dict(entries), rest)) => if rest == [] then FromMapping(entries) else None
    case _ => None
  }

  // ------------------------------------------------------------ the round trip of the mapping

  predicate Apart(slots: seq<Slot>) {
    forall i, j :: 0 <= i < j < |slots| ==> slots[i].key != slots[j].key
  }

  lemma {:induction false} LookupPresent(slots: seq<Slot>, i: nat)
    requires Apart(slots) && i < |slots|
    ensures Lookup(Present(slots), slots[i].key) == slots[i].value
  {
    if i == 0 {
      NotPresent(slots[1..], slots[0].key);
    } else {
      assert slots[1..][i - 1] == slots[i];
      LookupPresent(slots[1..], i - 1);
    }
    if slots[0].value.Some? {
      assert Present(slots)[1..] == Present(slots[1..]);
    } else {
      assert Present(slots) == Present(slots[1..]);
    }
  }

  lemma {:induction false} NotPresent(slots: seq<Slot>, key: Text)
    requires forall i :: 0 <= i < |slots| ==> slots[i].key != key
    ensures Lookup(Present(slots), key) == None
  {
    if slots != [] {
      NotPresent(slots[1..], key);
      if slots[0].value.Some? {
        assert Present(slots)[1..] == Present(slots[1..]);
      } else {
        assert Present(slots) == Present(slots[1..]);
      }
    }
  }

  /** The names differ in length or in their first letter. */
  lemma NamesAreApart(f: Frame)
    ensures Apart(SlotsOf(f)) && |SlotsOf(f)| == 12
  {
    var slots := SlotsOf(f);
    forall i, j | 0 <= i < j < |slots|
      ensures |slots[i].key| != |slots[j].key| || slots[i].key[0] != slots[j].key[0]
    {
    }
  }

  /** The six names are those of the six types, and of no other. */
  predicate Named(kind: FrameType) {
    kind.OtherFrame? ==> KindOf(kind.name) == kind
  }

  lemma NameIsRead(kind: FrameType)
    requires Named(kind)
    ensures KindOf(TypeName(kind)) == kind
  {
    assert Ascii("open")[0] != Ascii("data")[0] && Ascii("open")[0] != Ascii("ping")[0];
    assert Ascii("data")[0] != Ascii("ping")[0] && Ascii("data")[0] != Ascii("pong")[0];
    assert Ascii("open")[0] != Ascii("pong")[0] && Ascii("ping")[1] != Ascii("pong")[1];
  }

  lemma KeysAre(f: Frame)
    ensures var slots := SlotsOf(f);
            && slots[0].key == Ascii("type") && slots[1].key == Ascii("stream") && slots[2].key == Ascii("code")
            && slots[3].key == Ascii("end") && slots[4].key == Ascii("fragment") && slots[5].key == Ascii("headers")
            && slots[6].key == Ascii("last_stream") && slots[7].key == Ascii("more") && slots[8].key == Ascii("nonce")
            && slots[9].key == Ascii("payload") && slots[10].key == Ascii("reason")
            && slots[11].key == Ascii("trailers")
  {
    hide Ascii;
  }

  lemma EachIsRead(n: Option<int>, id: Option<nat>, flag: bool, text: Option<Text>, fields: Option<Fields>,
                   chunk: Option<Chunk>)
    ensures ReadInt(IntOf(n)) == Some(n) && ReadNat(IntOf(NatToInt(id))) == Some(id)
    ensures ReadFlag(FlagOf(flag)) == Some(flag) && ReadText(TextOf(text)) == Some(text)
    ensures ReadFields(FieldsOf(fields)) == Some(fields)
    ensures ReadChunk(ChunkOf(chunk)) == Some(chunk) && (ChunkOf(chunk).Some? <==> chunk.Some?)
  {
  }

  lemma ValuesAre(f: Frame)
    ensures var slots := SlotsOf(f);
            && slots[0].value == Some(Str(TypeName(f.kind))) && slots[9].value == f.payload
            && ReadNat(slots[1].value) == Some(f.stream) && ReadInt(slots[2].value) == Some(f.code)
            && ReadFlag(slots[3].value) == Some(f.end) && ReadChunk(slots[4].value) == Some(f.fragment)
            && (slots[4].value.Some? <==> f.fragment.Some?)
            && ReadFields(slots[5].value) == Some(f.headers) && ReadNat(slots[6].value) == Some(f.lastStream)
            && ReadFlag(slots[7].value) == Some(f.more) && ReadText(slots[8].value) == Some(f.nonce)
            && ReadText(slots[10].value) == Some(f.reason) && ReadFields(slots[11].value) == Some(f.trailers)
  {
    hide Ascii, TypeName, ReadInt, ReadNat, ReadFlag, ReadText, ReadFields, ReadChunk, IntOf, NatToInt, FlagOf, TextOf,
      FieldsOf, ChunkOf;
    EachIsRead(f.code, f.stream, f.end, f.nonce, f.headers, f.fragment);
    EachIsRead(f.code, f.lastStream, f.more, f.reason, f.trailers, f.fragment);
  }

  /** A frame's mapping is read back as the frame, if and only if it does not carry a payload and a fragment both. */
  lemma MappingRoundTrip(f: Frame)
    requires Named(f.kind)
    ensures FromMapping(ToMapping(f)) == if f.payload.Some? && f.fragment.Some? then None else Some(f)
  {
    hide Lookup, Present, Ascii, TypeName, KindOf, Apart, ReadInt, ReadNat, ReadFlag, ReadChunk, ReadFields, ReadText,
      SlotsOf;
    var slots := SlotsOf(f);
    NamesAreApart(f);
    KeysAre(f);
    ValuesAre(f);
    NameIsRead(f.kind);
    forall i | 0 <= i < 12
      ensures Lookup(Present(slots), slots[i].key) == slots[i].value
    {
      LookupPresent(slots, i);
    }
    assert Lookup(Present(slots), slots[0].key) == slots[0].value;
    assert Lookup(Present(slots), slots[1].key) == slots[1].value;
    assert Lookup(Present(slots), slots[2].key) == slots[2].value;
  }

  /** A field of a name that is not known changes nothing, wherever it stands. */
  lemma UnknownIsDropped(before: Fields, extra: Field, after: Fields)
    requires forall f: Frame, i :: 0 <= i < |SlotsOf(f)| ==> SlotsOf(f)[i].key != extra.key
    ensures FromMapping(before + [extra] + after) == FromMapping(before + after)
  {
    hide Lookup, Ascii, ReadNat, ReadInt, ReadFlag, ReadChunk, ReadFields, ReadText, KindOf;
    var slots := SlotsOf(Bare(PingFrame, None));
    forall i | 0 <= i < |slots|
      ensures Lookup(before + [extra] + after, slots[i].key) == Lookup(before + after, slots[i].key)
    {
      LookupSkips(before, extra, after, slots[i].key);
    }
    KeysAre(Bare(PingFrame, None));
  }

  lemma {:induction false} LookupSkips(before: Fields, extra: Field, after: Fields, key: Text)
    requires key != extra.key
    ensures Lookup(before + [extra] + after, key) == Lookup(before + after, key)
    decreases |before|
  {
    if before == [] {
      assert [] + [extra] + after == [extra] + after && ([extra] + after)[1..] == after && [] + after == after;
    } else {
      assert (before + [extra] + after)[1..] == before[1..] + [extra] + after;
      assert (before + after)[1..] == before[1..] + after;
      LookupSkips(before[1..], extra, after, key);
    }
  }

  // ------------------------------------------------------------ the message

  predicate Plain(key: string) {
    key != "" && forall i :: 0 <= i < |key| ==> 0x20 <= key[i] as int < 0x80 && key[i] != '\"' && key[i] != '\\'
  }

  lemma {:induction false} PlainIsWritten(bytes: seq<Byte>)
    requires forall i :: 0 <= i < |bytes| ==> 0x20 <= bytes[i] && bytes[i] != 0x22 && bytes[i] != 0x5C
    ensures Escape(bytes) == bytes
  {
    if bytes != [] {
      PlainIsWritten(bytes[1..]);
      assert EscapeByte(bytes[0]) == [bytes[0]];
    }
  }

  lemma AsciiConcat(a: string, b: string)
    ensures Ascii(a + b) == Ascii(a) + Ascii(b)
  {
  }

  lemma MemberIsWritten(key: string, value: seq<Byte>)
    requires Plain(key)
    ensures Member(key, value) == Entry(Ascii(key), value)
    ensures ValidUtf8(Ascii(key))
  {
    hide Escape, ValidUtf8;
    PlainIsWritten(Ascii(key));
    PlainIsValid(Ascii(key));
    AsciiConcat(",\"", key);
    AsciiConcat(",\"" + key, "\":");
    assert Ascii(",\"") == [0x2C, 0x22] && Ascii("\":") == [0x22, 0x3A];
    assert Ascii(",\"" + key + "\":") == [0x2C] + ([0x22] + Ascii(key) + [0x22]) + [0x3A];
  }

  /** A member that follows others. */
  function Entry(key: Text, value: seq<Byte>): seq<Byte> {
    [0x2C] + Quoted(key) + [0x3A] + value
  }

  predicate Writes(slot: Slot) {
    ValidUtf8(slot.key) && (slot.value.Some? ==> Render(slot.value.value).Some?)
  }

  function SlotMember(slot: Slot): seq<Byte>
    requires Writes(slot)
  {
    if slot.value.None? then [] else Entry(slot.key, Render(slot.value.value).value)
  }

  function SlotMembers(slots: seq<Slot>): seq<Byte>
    requires forall i :: 0 <= i < |slots| ==> Writes(slots[i])
  {
    if slots == [] then [] else SlotMember(slots[0]) + SlotMembers(slots[1..])
  }

  /** What is written of entries that follow others. */
  function Following(entries: Fields): seq<Byte>
    requires RenderEntries(entries).Some?
  {
    if entries == [] then [] else [0x2C] + RenderEntries(entries).value
  }

  lemma {:induction false} PresentIsWritten(slots: seq<Slot>)
    requires forall i :: 0 <= i < |slots| ==> Writes(slots[i])
    ensures RenderEntries(Present(slots)).Some? && SlotMembers(slots) == Following(Present(slots))
  {
    hide Writes, SlotMember, RenderEntries, Following;
    if slots == [] {
      NoneFollow();
    } else {
      PresentIsWritten(slots[1..]);
      SlotIsWritten(slots[0]);
      if slots[0].value.Some? {
        var field := Field(slots[0].key, slots[0].value.value);
        OneFollows(field, Present(slots[1..]));
        assert Present(slots) == [field] + Present(slots[1..]);
      } else {
        assert Present(slots) == Present(slots[1..]);
      }
    }
  }

  lemma NoneFollow()
    ensures RenderEntries([]) == Some([]) && Following([]) == []
  {
  }

  lemma SlotIsWritten(slot: Slot)
    requires Writes(slot)
    ensures slot.value.None? ==> SlotMember(slot) == []
    ensures slot.value.Some? ==>
              && Render(slot.value.value).Some? && ValidUtf8(slot.key)
              && SlotMember(slot) == Entry(slot.key, Render(slot.value.value).value)
  {
    hide Render, Quoted, ValidUtf8;
  }

  lemma OneFollows(field: Field, entries: Fields)
    requires ValidUtf8(field.key) && Render(field.value).Some? && RenderEntries(entries).Some?
    ensures RenderEntries([field] + entries).Some?
    ensures Following([field] + entries) == Entry(field.key, Render(field.value).value) + Following(entries)
  {
    hide Render, Quoted, ValidUtf8;
    var all := [field] + entries;
    assert all[1..] == entries && all[0] == field && (|all| == 1 <==> entries == []);
    NoneFollow();
    var head := Quoted(field.key) + [0x3A] + Render(field.value).value;
    assert Entry(field.key, Render(field.value).value) == [0x2C] + head;
    if entries == [] {
      assert RenderEntries(all) == Some(head + [] + []);
      assert head + [] + [] == head && [0x2C] + head + [] == [0x2C] + head;
    } else {
      var tail := RenderEntries(entries).value;
      assert RenderEntries(all) == Some(head + [0x2C] + tail);
      assert [0x2C] + (head + [0x2C] + tail) == ([0x2C] + head) + ([0x2C] + tail);
    }
  }

  /** Every text in the frame is UTF-8, as a string of the source is. */
  predicate Textual(f: Frame) {
    && ValidUtf8(TypeName(f.kind)) && (f.nonce.Some? ==> ValidUtf8(f.nonce.value))
    && (f.reason.Some? ==> ValidUtf8(f.reason.value))
    && (f.fragment.Some? && f.fragment.value.text ==> ValidUtf8(f.fragment.value.bytes))
  }

  /** The members of the encoding, after the type. */
  function MembersOf(f: Frame): seq<seq<Byte>>
    requires Encode(f).Some?
  {
    [NumberMember("stream", NatToInt(f.stream)), NumberMember("code", f.code), FlagMember("end", f.end),
     FragmentMember(f.fragment).value, FieldsMember("headers", f.headers).value,
     NumberMember("last_stream", NatToInt(f.lastStream)), FlagMember("more", f.more), TextMember("nonce", f.nonce),
     PayloadMember(f.payload).value, TextMember("reason", f.reason), FieldsMember("trailers", f.trailers).value]
  }

  lemma SlotWrites(key: string, value: Option<Value>)
    requires Plain(key) && (value.Some? ==> Render(value.value).Some?)
    ensures Writes(Slot(Ascii(key), value))
    ensures SlotMember(Slot(Ascii(key), value)) == if value.None? then [] else Member(key, Render(value.value).value)
  {
    hide Render, Quoted, ValidUtf8, Ascii;
    MemberIsWritten(key, if value.None? then [] else Render(value.value).value);
  }

  lemma NumberWrites(key: string, n: Option<int>)
    requires Plain(key)
    ensures var slot := Slot(Ascii(key), IntOf(n));
            Writes(slot) && SlotMember(slot) == NumberMember(key, n)
  {
    hide Number, Member, Ascii, ValidUtf8, Writes, SlotMember, Plain;
    SlotWrites(key, IntOf(n));
  }

  lemma FlagWrites(key: string, flag: bool)
    requires Plain(key)
    ensures var slot := Slot(Ascii(key), FlagOf(flag));
            Writes(slot) && SlotMember(slot) == FlagMember(key, flag)
  {
    hide Member, Ascii, ValidUtf8, Writes, SlotMember, Plain;
    SlotWrites(key, FlagOf(flag));
  }

  lemma TextWrites(key: string, text: Option<Text>)
    requires Plain(key) && (text.Some? ==> ValidUtf8(text.value))
    ensures var slot := Slot(Ascii(key), TextOf(text));
            Writes(slot) && SlotMember(slot) == TextMember(key, text)
  {
    hide Member, Ascii, ValidUtf8, Writes, SlotMember, Plain, Quoted;
    SlotWrites(key, TextOf(text));
  }

  lemma FieldsWrite(key: string, fields: Option<Fields>)
    requires Plain(key) && FieldsMember(key, fields).Some?
    ensures var slot := Slot(Ascii(key), FieldsOf(fields));
            Writes(slot) && SlotMember(slot) == FieldsMember(key, fields).value
  {
    hide Member, Ascii, ValidUtf8, Writes, SlotMember, Plain, RenderFields;
    SlotWrites(key, FieldsOf(fields));
  }

  lemma ChunkWrites(chunk: Option<Chunk>)
    requires FragmentMember(chunk).Some? && (chunk.Some? && chunk.value.text ==> ValidUtf8(chunk.value.bytes))
    ensures var slot := Slot(Ascii("fragment"), ChunkOf(chunk));
            Writes(slot) && SlotMember(slot) == FragmentMember(chunk).value
  {
    hide Member, Ascii, ValidUtf8, Writes, SlotMember, Quoted;
    SlotWrites("fragment", ChunkOf(chunk));
  }

  lemma PayloadWrites(payload: Option<Value>)
    requires PayloadMember(payload).Some?
    ensures var slot := Slot(Ascii("payload"), payload);
            Writes(slot) && SlotMember(slot) == PayloadMember(payload).value
  {
    hide Member, Ascii, ValidUtf8, Writes, SlotMember, Render;
    SlotWrites("payload", payload);
  }

  lemma NamesArePlain()
    ensures Plain("stream") && Plain("code") && Plain("end") && Plain("headers") && Plain("last_stream")
      && Plain("more") && Plain("nonce") && Plain("reason") && Plain("trailers") && Plain("type")
  {
  }

  lemma SlotsWrite(f: Frame)
    requires Encode(f).Some? && Textual(f)
    ensures var slots := SlotsOf(f);
            && (forall i :: 0 <= i < 12 ==> Writes(slots[i]))
            && (forall i :: 0 <= i < 11 ==> SlotMember(slots[i + 1]) == MembersOf(f)[i])
            && SlotMember(slots[0]) == Member("type", Quoted(TypeName(f.kind)))
            && slots[0].value.Some? && |MembersOf(f)| == 11
  {
    hide Ascii, Quoted, ValidUtf8, TypeName, NumberMember, FlagMember, TextMember, FieldsMember, FragmentMember,
      PayloadMember, Plain, Writes, SlotMember, IntOf, FlagOf, TextOf, FieldsOf, ChunkOf, Member;
    NamesArePlain();
    SlotWrites("type", Some(Str(TypeName(f.kind))));
    NumberWrites("stream", NatToInt(f.stream));
    NumberWrites("code", f.code);
    FlagWrites("end", f.end);
    ChunkWrites(f.fragment);
    FieldsWrite("headers", f.headers);
    NumberWrites("last_stream", NatToInt(f.lastStream));
    FlagWrites("more", f.more);
    TextWrites("nonce", f.nonce);
    PayloadWrites(f.payload);
    TextWrites("reason", f.reason);
    FieldsWrite("trailers", f.trailers);
  }

  function Joined(parts: seq<seq<Byte>>): seq<Byte> {
    if parts == [] then [] else parts[0] + Joined(parts[1..])
  }

  lemma {:induction false} MembersJoin(slots: seq<Slot>, parts: seq<seq<Byte>>)
    requires (forall i :: 0 <= i < |slots| ==> Writes(slots[i])) && |parts| == |slots|
    requires forall i :: 0 <= i < |slots| ==> SlotMember(slots[i]) == parts[i]
    ensures SlotMembers(slots) == Joined(parts)
  {
    hide Writes, SlotMember;
    if slots != [] {
      MembersJoin(slots[1..], parts[1..]);
    }
  }

  lemma JoinedThree(a: seq<Byte>, b: seq<Byte>, c: seq<Byte>, rest: seq<seq<Byte>>)
    ensures Joined([a, b, c] + rest) == a + b + c + Joined(rest)
  {
    var all := [a, b, c] + rest;
    assert all[1..] == [b, c] + rest && all[1..][1..] == [c] + rest && all[1..][1..][1..] == rest;
    assert Joined(all[1..]) == b + (c + Joined(rest));
  }

  lemma EncodeJoins(f: Frame)
    requires Encode(f).Some?
    ensures Encode(f).value == Ascii("{\"type\":") + Quoted(TypeName(f.kind)) + Joined(MembersOf(f)) + Ascii("}")
  {
    hide Ascii, Quoted, TypeName, NumberMember, FlagMember, TextMember, FieldsMember, FragmentMember, PayloadMember,
      Joined;
    var m := MembersOf(f);
    var last: seq<seq<Byte>> := [m[9], m[10], []];
    JoinedThree(m[9], m[10], [], []);
    JoinedThree(m[6], m[7], m[8], last);
    JoinedThree(m[3], m[4], m[5], m[6..] + [[]]);
    JoinedThree(m[0], m[1], m[2], m[3..] + [[]]);
    assert last + [] == last && m[6..] + [[]] == [m[6], m[7], m[8]] + last;
    assert m[3..] + [[]] == [m[3], m[4], m[5]] + (m[6..] + [[]]);
    assert m + [[]] == [m[0], m[1], m[2]] + (m[3..] + [[]]);
    JoinedEmpty(m);
    NothingJoined();
  }

  lemma NothingJoined()
    ensures Joined([]) == []
  {
  }

  lemma {:induction false} JoinedEmpty(parts: seq<seq<Byte>>)
    ensures Joined(parts + [[]]) == Joined(parts)
  {
    if parts == [] {
      var one: seq<seq<Byte>> := [[]];
      assert parts + one == one && one[1..] == [];
    } else {
      assert (parts + [[]])[1..] == parts[1..] + [[]];
      JoinedEmpty(parts[1..]);
    }
  }

  lemma {:induction false} PresentIsDistinct(slots: seq<Slot>)
    requires Apart(slots)
    ensures DistinctKeys(Present(slots))
    ensures forall i :: 0 <= i < |Present(slots)| ==>
              exists j :: 0 <= j < |slots| && slots[j].key == Present(slots)[i].key
  {
    if slots != [] {
      var rest := Present(slots[1..]);
      PresentIsDistinct(slots[1..]);
      forall i | 0 <= i < |rest|
        ensures exists j :: 1 <= j < |slots| && slots[j].key == rest[i].key
      {
        var j :| 0 <= j < |slots[1..]| && slots[1..][j].key == rest[i].key;
        assert slots[j + 1].key == rest[i].key;
      }
    }
  }

  lemma TypeLeads(slots: seq<Slot>)
    requires slots != [] && slots[0].value.Some? && forall i :: 0 <= i < |slots| ==> Writes(slots[i])
    ensures SlotMembers(slots) == SlotMember(slots[0]) + SlotMembers(slots[1..]) && Present(slots) != []
  {
    hide Writes, SlotMember;
  }

  lemma TypeIsWritten(name: seq<Byte>)
    ensures Member("type", name) == [0x2C] + (Ascii("\"type\":") + name)
    ensures Ascii("{\"type\":") == [0x7B] + Ascii("\"type\":") && Ascii("}") == [0x7D]
  {
    AsciiConcat(",", "\"type\":");
    AsciiConcat("{", "\"type\":");
    assert "," + "\"type\":" == ",\"" + "type" + "\":" && "{" + "\"type\":" == "{\"type\":";
    assert Ascii(",") == [0x2C] && Ascii("{") == [0x7B] && Ascii("}") == [0x7D];
  }

  lemma RenderedDict(entries: Fields)
    requires RenderEntries(entries).Some? && DistinctKeys(entries)
    ensures Render(Dict(entries)) == Some([0x7B] + RenderEntries(entries).value + [0x7D])
  {
  }

  /** The message is the JSON of the mapping. */
  lemma EncodeIsRendered(f: Frame)
    requires Encode(f).Some? && Textual(f)
    ensures Render(Dict(ToMapping(f))) == Encode(f)
  {
    hide Quoted, ValidUtf8, TypeName, SlotsOf, Encode, MembersOf, Writes, SlotMember, SlotMembers, Joined, Apart,
      DistinctKeys, Render, Textual, RenderEntries, Ascii, Member;
    var slots, parts := SlotsOf(f), MembersOf(f);
    NamesAreApart(f);
    PresentIsDistinct(slots);
    SlotsWrite(f);
    PresentIsWritten(slots);
    MembersJoin(slots[1..], parts);
    TypeLeads(slots);
    EncodeJoins(f);
    var body := RenderEntries(Present(slots)).value;
    var name := Quoted(TypeName(f.kind));
    TypeIsWritten(name);
    RenderedDict(Present(slots));
    var lead, rest := Ascii("\"type\":"), Joined(parts);
    assert [0x2C] + body == [0x2C] + (lead + name + rest);
    assert body == ([0x2C] + body)[1..] == lead + name + rest;
    assert [0x7B] + (lead + name + rest) + [0x7D] == ([0x7B] + lead) + name + rest + [0x7D];
  }

  /** What a peer encodes another decodes as the same frame, if and only if the frame does not carry a payload and a
      fragment both; such a message is refused. */
  lemma MessageRoundTrip(f: Frame)
    requires Encode(f).Some? && Textual(f) && Named(f.kind)
    ensures Decode(Encode(f).value) == if f.payload.Some? && f.fragment.Some? then None else Some(f)
  {
    hide Encode, Render, ToMapping, FromMapping, ReadValue, Textual, Named;
    EncodeIsRendered(f);
    var entries := ToMapping(f);
    DictReads(entries, []);
    assert Encode(f).value + [] == Encode(f).value;
    MappingRoundTrip(f);
  }
}
