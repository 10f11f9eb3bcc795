/** A reader for the compact JSON that the codec writes (RFC 8259), and the codec it makes whole: a payload is read
    back, and what was written is UTF-8. */
module JsonReader {
  import opened Frames
  import opened Utf8
  import opened Codecs
  import opened Json
  import opened SplitLaws

  type Read<T> = Option<(T, seq<Byte>)>

  // ------------------------------------------------------------ strings

  function FromHex(digit: Byte): Option<int> {
    if 0x30 <= digit <= 0x39 then Some(digit as int - 0x30)
    else if 0x61 <= digit <= 0x66 then Some(digit as int - 0x57)
    else None
  }

  /** One written character and what follows it; section 7 of RFC 8259, of which the writer uses the two-character
      escapes and the six-character ones of the control characters. */
  function UnescapeFirst(out: seq<Byte>): (r: Read<Byte>)
    requires out != []
    ensures r.Some? ==> |r.value.1| < |out|
  {
    if out[0] < 0x20 then None
    else if out[0] != 0x5C then Some((out[0], out[1..]))
    else if |out| < 2 then None
    else if out[1] == 0x22 || out[1] == 0x5C then Some((out[1], out[2..]))
    else if out[1] == 0x62 then Some((0x08, out[2..]))
    else if out[1] == 0x66 then Some((0x0C, out[2..]))
    else if out[1] == 0x6E then Some((0x0A, out[2..]))
    else if out[1] == 0x72 then Some((0x0D, out[2..]))
    else if out[1] == 0x74 then Some((0x09, out[2..]))
    else if |out| < 6 || out[1] != 0x75 || out[2] != 0x30 || out[3] != 0x30 then None
    else
      match (FromHex(out[4]), FromHex(out[5]))
      case (Some(high), Some(low)) => if high < 8 then Some(((16 * high + low) as Byte, out[6..])) else None
      case _ => None
  }

  /** A string's characters, up to its closing quote. */
  function Characters(s: seq<Byte>): (r: Read<Text>)
    ensures r.Some? ==> |r.value.1| < |s|
    decreases |s|
  {
    if s == [] then None
    else if s[0] == 0x22 then Some(([], s[1..]))
    else
      match UnescapeFirst(s)
      case None => None
      case Some((b, rest)) =>
        match Characters(rest)
        case None => None
        case Some((text, end)) => Some(([b] + text, end))
  }

  lemma EscapedByteReads(b: Byte, rest: seq<Byte>)
    ensures UnescapeFirst(EscapeByte(b) + rest) == Some((b, rest))
    ensures EscapeByte(b)[0] != 0x22
  {
    var out := EscapeByte(b) + rest;
    assert out[|EscapeByte(b)|..] == rest;
    if b == 0x22 || b == 0x5C {
      assert EscapeByte(b) == [0x5C, b];
    } else if b == 0x08 || b == 0x0C || b == 0x0A || b == 0x0D || b == 0x09 {
      assert |EscapeByte(b)| == 2 && EscapeByte(b)[0] == 0x5C;
    } else if b < 0x20 {
      HexReads(b as int / 16);
      HexReads(b as int % 16);
      var written := EscapeByte(b);
      assert written == [0x5C, 0x75, 0x30, 0x30, Hex(b as int / 16), Hex(b as int % 16)];
      assert out[..6] == written;
      assert out[0] == 0x5C && out[1] == 0x75 && out[4] == Hex(b as int / 16) && out[5] == Hex(b as int % 16);
      assert 16 * (b as int / 16) + b as int % 16 == b as int;
    }
  }

  lemma HexReads(digit: int)
    requires 0 <= digit < 16
    ensures FromHex(Hex(digit)) == Some(digit)
  {
  }

  /** A string's escapes are read back as the string. */
  lemma {:induction false} EscapeRoundTrip(text: Text, rest: seq<Byte>)
    ensures Characters(Escape(text) + [0x22] + rest) == Some((text, rest))
  {
    hide EscapeByte, UnescapeFirst;
    if text == [] {
      assert [0x22] + rest == Escape(text) + [0x22] + rest;
      assert ([0x22] + rest)[1..] == rest;
    } else {
      var tail := Escape(text[1..]) + [0x22] + rest;
      EscapeRoundTrip(text[1..], rest);
      EscapedByteReads(text[0], tail);
      assert Escape(text) + [0x22] + rest == EscapeByte(text[0]) + tail;
      assert [text[0]] + text[1..] == text;
    }
  }

  // ------------------------------------------------------------ numbers

  predicate IsDigit(b: Byte) {
    0x30 <= b <= 0x39
  }

  function ReadDigits(s: seq<Byte>, sofar: nat): (r: (nat, seq<Byte>))
    ensures |r.1| <= |s|
    decreases |s|
  {
    if s == [] || !IsDigit(s[0]) then (sofar, s)
    else ReadDigits(s[1..], 10 * sofar + (s[0] as int - 0x30))
  }

  /** A natural number without leading zeros. */
  function Natural(s: seq<Byte>): (r: Read<nat>)
    ensures r.Some? ==> |r.value.1| < |s|
  {
    if s == [] || !IsDigit(s[0]) then None
    else if s[0] == 0x30 then Some((0, s[1..]))
    else Some(ReadDigits(s[1..], s[0] as int - 0x30))
  }

  lemma {:induction false} DigitsRead(n: nat, tail: seq<Byte>)
    ensures ReadDigits(Digits(n) + tail, 0) == ReadDigits(tail, n)
    ensures Digits(n) != [] && IsDigit(Digits(n)[0]) && (Digits(n)[0] == 0x30 <==> n == 0)
  {
    if n < 10 {
      assert ([(0x30 + n) as Byte] + tail)[1..] == tail;
    } else {
      var last: seq<Byte> := [(0x30 + n % 10) as Byte];
      DigitsRead(n / 10, last + tail);
      assert Digits(n) + tail == Digits(n / 10) + (last + tail);
      assert (last + tail)[1..] == tail;
    }
  }

  lemma NaturalReads(n: nat, rest: seq<Byte>)
    requires rest == [] || !IsDigit(rest[0])
    ensures Natural(Digits(n) + rest) == Some((n, rest))
  {
    DigitsRead(n, rest);
    var s := Digits(n) + rest;
    if n == 0 {
      assert s[1..] == rest;
    } else {
      assert ReadDigits(s, 0) == ReadDigits(s[1..], s[0] as int - 0x30);
    }
  }

  // ------------------------------------------------------------ values

  /** What a dict holds after one more member: a key that comes again keeps its place and takes the new value. */
  function Update(entries: Fields, key: Text, v: Value): Fields {
    if HasKey(entries, key) then
      seq(|entries|, i requires 0 <= i < |entries| => if entries[i].key == key then Field(key, v) else entries[i])
    else entries + [Field(key, v)]
  }

  function Literal(s: seq<Byte>, word: string, v: Value): (r: Read<Value>)
    ensures word != "" && r.Some? ==> |r.value.1| < |s|
  {
    if Ascii(word) <= s then Some((v, s[|word|..])) else None
  }

  function ReadValue(s: seq<Byte>): (r: Read<Value>)
    ensures r.Some? ==> |r.value.1| < |s|
    decreases |s|, 1
  {
    if s == [] then None
    else if s[0] == 0x22 then
      match Characters(s[1..])
      case None => None
      case Some((text, rest)) => Some((Str(text), rest))
    else if s[0] == 0x5B then
      if 1 < |s| && s[1] == 0x5D then Some((List([]), s[2..]))
      else
        match Elements(s[1..])
        case None => None
        case Some((items, rest)) => Some((List(items), rest))
    else if s[0] == 0x7B then
      if 1 < |s| && s[1] == 0x7D then Some((Dict([]), s[2..]))
      else
        match Members(s[1..], [])
        case None => None
        case Some((entries, rest)) => Some((Dict(entries), rest))
    else if s[0] == 0x2D then
      match Natural(s[1..])
      case None => None
      case Some((n, rest)) => Some((Int(0 - n), rest))
    else if IsDigit(s[0]) then
      match Natural(s)
      case None => None
      case Some((n, rest)) => Some((Int(n), rest))
    else if s[0] == 0x6E then Literal(s, "null", Null)
    else if s[0] == 0x74 then Literal(s, "true", Bool(true))
    else Literal(s, "false", Bool(false))
  }

  /** A list's elements and its closing bracket. */
  function Elements(s: seq<Byte>): (r: Read<seq<Value>>)
    ensures r.Some? ==> |r.value.1| < |s|
    decreases |s|, 2
  {
    match ReadValue(s)
    case None => None
    case Some((v, rest)) =>
      if rest == [] then None
      else if rest[0] == 0x5D then Some(([v], rest[1..]))
      else if rest[0] != 0x2C then None
      else
        match Elements(rest[1..])
        case None => None
        case Some((more, end)) => Some(([v] + more, end))
  }

  /** A dict's members and its closing brace, after `sofar`. */
  function Members(s: seq<Byte>, sofar: Fields): (r: Read<Fields>)
    ensures r.Some? ==> |r.value.1| < |s|
    decreases |s|, 2
  {
    if s == [] || s[0] != 0x22 then None
    else
      match Characters(s[1..])
      case None => None
      case Some((key, colon)) =>
        if colon == [] || colon[0] != 0x3A then None
        else
          match ReadValue(colon[1..])
          case None => None
          case Some((v, rest)) =>
            if rest == [] then None
            else if rest[0] == 0x7D then Some((Update(sofar, key, v), rest[1..]))
            else if rest[0] != 0x2C then None
            else Members(rest[1..], Update(sofar, key, v))
  }

  // ------------------------------------------------------------ what was written is read back

  /** Nothing that would go on with a number. */
  predicate Ends(rest: seq<Byte>) {
    rest == [] || !IsDigit(rest[0])
  }

  lemma LiteralReads(word: string, v: Value, rest: seq<Byte>)
    ensures Literal(Ascii(word) + rest, word, v) == Some((v, rest))
  {
  }

  lemma StringReads(text: Text, rest: seq<Byte>)
    ensures Quoted(text) + rest != [] && (Quoted(text) + rest)[0] == 0x22
    ensures Characters((Quoted(text) + rest)[1..]) == Some((text, rest))
  {
    EscapeRoundTrip(text, rest);
    assert (Quoted(text) + rest)[1..] == Escape(text) + [0x22] + rest;
  }

  lemma AsciiHead(word: string, rest: seq<Byte>)
    requires word != ""
    ensures (Ascii(word) + rest)[0] == (word[0] as int % 128) as Byte
  {
  }

  lemma IntReads(n: int, rest: seq<Byte>)
    requires Ends(rest)
    ensures ReadValue(Number(n) + rest) == Some((Int(n), rest))
  {
    hide Digits, Natural;
    if n < 0 {
      NaturalReads(-n, rest);
      assert (Number(n) + rest)[1..] == Digits(-n) + rest;
    } else {
      NaturalReads(n, rest);
      DigitsRead(n, rest);
      assert (Digits(n) + rest)[0] == Digits(n)[0];
    }
  }

  /** A value JSON can carry is read back from what was written of it, whatever follows. */
  lemma {:induction false} ValueReads(v: Value, rest: seq<Byte>)
    requires Render(v).Some? && Ends(rest)
    ensures ReadValue(Render(v).value + rest) == Some((v, rest))
    decreases v, 1
  {
    hide Characters, Elements, Members, Natural, Literal, Escape, Number, Ascii, RenderItems, RenderFields;
    match v
    case Null => LiteralReads("null", v, rest); AsciiHead("null", rest);
    case Bool(b) => LiteralReads(if b then "true" else "false", v, rest);
        AsciiHead(if b then "true" else "false", rest);
    case Int(n) => IntReads(n, rest);
    case Str(text) => StringReads(text, rest);
    case List(items) => ListReads(items, rest);
    case Dict(entries) => DictReads(entries, rest);
  }

  lemma {:induction false} ListReads(items: seq<Value>, rest: seq<Byte>)
    requires Render(List(items)).Some?
    ensures ReadValue(Render(List(items)).value + rest) == Some((List(items), rest))
    decreases items, 2
  {
    hide Elements;
    var body := RenderItems(items).value;
    var s := [0x5B] + body + [0x5D] + rest;
    if items == [] {
      assert s == [0x5B, 0x5D] + rest && s[2..] == rest;
    } else {
      ItemsRead(items, rest);
      assert s[1..] == body + [0x5D] + rest;
      ItemsHead(items);
    }
  }

  /** What is written of a value is not empty, and is not a closing bracket or brace. */
  lemma ValueHead(v: Value)
    requires Render(v).Some?
    ensures Render(v).value != [] && Render(v).value[0] != 0x5D && Render(v).value[0] != 0x7D
  {
    hide Escape, Digits, RenderItems, RenderEntries;
    match v
    case Int(n) =>
      DigitsRead(if n < 0 then -n else n, []);
      assert Number(n)[0] == 0x2D || Number(n)[0] == Digits(n)[0];
    case _ =>
  }

  lemma ItemsHead(items: seq<Value>)
    requires items != [] && RenderItems(items).Some?
    ensures RenderItems(items).value != [] && RenderItems(items).value[0] != 0x5D
  {
    hide Render;
    ValueHead(items[0]);
  }

  lemma {:induction false} ItemsRead(items: seq<Value>, rest: seq<Byte>)
    requires items != [] && RenderItems(items).Some?
    ensures Elements(RenderItems(items).value + [0x5D] + rest) == Some((items, rest))
    decreases items, 1
  {
    hide Render, ReadValue;
    var head := Render(items[0]).value;
    var s := RenderItems(items).value + [0x5D] + rest;
    if |items| == 1 {
      assert items[1..] == [] && items == [items[0]];
      ValueReads(items[0], [0x5D] + rest);
      assert s == head + ([0x5D] + rest);
      assert ([0x5D] + rest)[1..] == rest;
    } else {
      var tail := RenderItems(items[1..]).value + [0x5D] + rest;
      ValueReads(items[0], [0x2C] + tail);
      ItemsRead(items[1..], rest);
      assert s == head + ([0x2C] + tail);
      assert ([0x2C] + tail)[1..] == tail;
      assert [items[0]] + items[1..] == items;
    }
  }

  lemma {:induction false} DictReads(entries: Fields, rest: seq<Byte>)
    requires Render(Dict(entries)).Some?
    ensures ReadValue(Render(Dict(entries)).value + rest) == Some((Dict(entries), rest))
    decreases entries, 2
  {
    hide Members, Render, ReadValue;
    DictIs(entries);
    var body := RenderEntries(entries).value;
    var s := [0x7B] + body + [0x7D] + rest;
    if entries == [] {
      assert s == [0x7B, 0x7D] + rest && s[2..] == rest;
    } else {
      EntriesRead(entries, [], rest);
      assert s[1..] == body + [0x7D] + rest;
      EntriesHead(entries);
      assert s[1] == body[0];
      assert [] + entries == entries;
    }
    BraceReads(s);
  }

  lemma DictIs(entries: Fields)
    requires Render(Dict(entries)).Some?
    ensures RenderEntries(entries).Some? && DistinctKeys(entries)
    ensures Render(Dict(entries)).value == [0x7B] + RenderEntries(entries).value + [0x7D]
    ensures entries == [] ==> RenderEntries(entries).value == []
  {
  }

  lemma BraceReads(s: seq<Byte>)
    requires 1 < |s| && s[0] == 0x7B
    ensures ReadValue(s) == if s[1] == 0x7D then Some((Dict([]), s[2..]))
                            else match Members(s[1..], []) case None => None case Some((entries, rest)) =>
                                Some((Dict(entries), rest))
  {
    hide Members;
  }

  lemma EntriesHead(entries: Fields)
    requires entries != [] && RenderEntries(entries).Some?
    ensures RenderEntries(entries).value != [] && RenderEntries(entries).value[0] == 0x22
  {
    hide Render, Escape;
  }

  lemma {:induction false} EntriesRead(entries: Fields, sofar: Fields, rest: seq<Byte>)
    requires entries != [] && RenderEntries(entries).Some? && DistinctKeys(sofar + entries)
    ensures Members(RenderEntries(entries).value + [0x7D] + rest, sofar) == Some((sofar + entries, rest))
    decreases entries, 1
  {
    hide Render, ReadValue, Characters, Escape;
    var key, v := entries[0].key, entries[0].value;
    var head := Render(v).value;
    var s := RenderEntries(entries).value + [0x7D] + rest;
    FreshKey(entries, sofar);
    assert sofar + [entries[0]] + entries[1..] == sofar + entries;
    if |entries| == 1 {
      assert entries[1..] == [] && entries == [entries[0]];
      var end := [0x7D] + rest;
      assert s == Quoted(key) + ([0x3A] + (head + end));
      StringReads(key, [0x3A] + (head + end));
      assert ([0x3A] + (head + end))[1..] == head + end && end[1..] == rest;
      ValueReads(v, end);
    } else {
      var tail := RenderEntries(entries[1..]).value + [0x7D] + rest;
      var end := [0x2C] + tail;
      assert s == Quoted(key) + ([0x3A] + (head + end));
      StringReads(key, [0x3A] + (head + end));
      assert ([0x3A] + (head + end))[1..] == head + end && end[1..] == tail;
      ValueReads(v, end);
      EntriesRead(entries[1..], sofar + [entries[0]], rest);
    }
  }

  lemma FreshKey(entries: Fields, sofar: Fields)
    requires entries != [] && DistinctKeys(sofar + entries)
    ensures Update(sofar, entries[0].key, entries[0].value) == sofar + [entries[0]]
  {
    var all := sofar + entries;
    assert all[|sofar|] == entries[0];
    assert forall i :: 0 <= i < |sofar| ==> all[i] == sofar[i];
  }

  // ------------------------------------------------------------ what is written is UTF-8

  lemma {:induction false} PlainIsValid(bytes: seq<Byte>)
    requires forall i :: 0 <= i < |bytes| ==> bytes[i] < 0x80
    ensures ValidUtf8(bytes)
  {
    if bytes != [] {
      PlainIsValid(bytes[1..]);
      assert bytes[..1] == [bytes[0]];
    }
  }

  lemma {:induction false} DigitsArePlain(n: nat)
    ensures forall i :: 0 <= i < |Digits(n)| ==> Digits(n)[i] < 0x80
  {
    if 10 <= n {
      DigitsArePlain(n / 10);
    }
  }

  lemma EscapeByteIsPlain(b: Byte)
    requires b < 0x80
    ensures forall i :: 0 <= i < |EscapeByte(b)| ==> EscapeByte(b)[i] < 0x80
  {
  }

  /** The bytes of a longer unit are written as they are. */
  lemma {:induction false} HighIsWritten(unit: seq<Byte>)
    requires forall i :: 0 <= i < |unit| ==> 0x80 <= unit[i]
    ensures Escape(unit) == unit
  {
    if unit != [] {
      HighIsWritten(unit[1..]);
      assert EscapeByte(unit[0]) == [unit[0]];
    }
  }

  lemma {:induction false} EscapeIsValid(text: Text)
    requires ValidUtf8(text)
    ensures ValidUtf8(Escape(text))
    decreases |text|
  {
    hide EscapeByte;
    if text != [] {
      var w := Width(text[0]);
      var unit := text[..w];
      EscapeIsValid(text[w..]);
      EscapeConcat(unit, text[w..]);
      assert unit + text[w..] == text;
      if w == 1 {
        EscapeByteIsPlain(unit[0]);
        PlainIsValid(EscapeByte(unit[0]));
        assert Escape(unit[1..]) == [] && Escape(unit) == EscapeByte(unit[0]);
      } else {
        HighIsWritten(unit);
        assert unit[..w] == unit && unit[w..] == [];
      }
      ValidAppend(Escape(unit), Escape(text[w..]));
    }
  }

  lemma QuotedIsValid(text: Text)
    requires ValidUtf8(text)
    ensures ValidUtf8(Quoted(text))
  {
    EscapeIsValid(text);
    PlainIsValid([0x22]);
    ValidAppend([0x22], Escape(text));
    ValidAppend([0x22] + Escape(text), [0x22]);
  }

  lemma {:induction false} RenderIsValid(v: Value)
    requires Render(v).Some?
    ensures ValidUtf8(Render(v).value)
    decreases v, 1
  {
    hide ValidUtf8, Escape, Digits;
    match v
    case Null => PlainIsValid(Ascii("null"));
    case Bool(b) => PlainIsValid(Ascii(if b then "true" else "false"));
    case Int(n) => DigitsArePlain(if n < 0 then -n else n); PlainIsValid(Number(n));
    case Str(text) => QuotedIsValid(text);
    case List(items) => ItemsAreValid(items); Between([0x5B], RenderItems(items).value, [0x5D]);
    case Dict(entries) => EntriesAreValid(entries); Between([0x7B], RenderEntries(entries).value, [0x7D]);
  }

  lemma Between(left: seq<Byte>, body: seq<Byte>, right: seq<Byte>)
    requires ValidUtf8(body) && (forall i :: 0 <= i < |left| ==> left[i] < 0x80)
      && (forall i :: 0 <= i < |right| ==> right[i] < 0x80)
    ensures ValidUtf8(left + body + right)
  {
    PlainIsValid(left);
    PlainIsValid(right);
    ValidAppend(left, body);
    ValidAppend(left + body, right);
  }

  lemma {:induction false} ItemsAreValid(items: seq<Value>)
    requires RenderItems(items).Some?
    ensures ValidUtf8(RenderItems(items).value)
    decreases items, 0
  {
    hide ValidUtf8, Render;
    if items == [] {
      PlainIsValid([]);
    } else {
      RenderIsValid(items[0]);
      ItemsAreValid(items[1..]);
      var comma: seq<Byte> := if |items| == 1 then [] else [0x2C];
      PlainIsValid(comma);
      ValidAppend(Render(items[0]).value, comma);
      ValidAppend(Render(items[0]).value + comma, RenderItems(items[1..]).value);
    }
  }

  lemma {:induction false} EntriesAreValid(entries: Fields)
    requires RenderEntries(entries).Some?
    ensures ValidUtf8(RenderEntries(entries).value)
    decreases entries, 0
  {
    hide ValidUtf8, Render, Escape;
    if entries == [] {
      PlainIsValid([]);
    } else {
      var comma: seq<Byte> := if |entries| == 1 then [] else [0x2C];
      var key, head := Quoted(entries[0].key), Render(entries[0].value).value;
      QuotedIsValid(entries[0].key);
      RenderIsValid(entries[0].value);
      EntriesAreValid(entries[1..]);
      PlainIsValid([0x3A]);
      PlainIsValid(comma);
      ValidAppend(key, [0x3A]);
      ValidAppend(key + [0x3A], head);
      ValidAppend(key + [0x3A] + head, comma);
      ValidAppend(key + [0x3A] + head + comma, RenderEntries(entries[1..]).value);
    }
  }

  // ------------------------------------------------------------ the codec

  /** The whole of a text payload, one value. */
  function DecodePayload(chunk: Chunk): Option<Value> {
    if !chunk.text then None
    else
      match ReadValue(chunk.bytes)
      case None => None
      case Some((v, rest)) => if rest == [] then Some(v) else None
  }

  function JSON(): Codec {
    JsonCodec(c => DecodePayload(c))
  }

  /** The JSON codec keeps both laws: a payload survives encoding and is written in UTF-8; and its lengths are those
      the splitter relies on. */
  lemma JsonIsLawful()
    ensures Lawful(JSON()) && Measured(JSON())
  {
    hide Render, ReadValue, ValidUtf8;
    JsonIsMeasured(c => DecodePayload(c));
    forall v | EncodePayload(v).Some?
      ensures var whole := EncodePayload(v).value; DecodePayload(whole) == Some(v) && ValidUtf8(whole.bytes)
    {
      ValueReads(v, []);
      RenderIsValid(v);
      assert Render(v).value + [] == Render(v).value;
    }
  }
}
