/** The excluded run of two peers, with the JSON codec: at every cap from 128 bytes on, and at every limit that ids
    last for. */
module JsonRefusals {
  import opened Frames
  import opened Utf8
  import opened Codecs
  import opened Fragmenter
  import opened SplitLaws
  import opened Json
  import opened JsonReader
  import opened PeerModel
  import D = DuplexModel
  import M = DuplexMoves
  import R = Refusals

  lemma {:induction false} DigitsAreFew(n: nat, k: nat)
    requires n < Tens(k) && 0 < k
    ensures |Digits(n)| <= k
    decreases k
  {
    if 10 <= n {
      DigitsAreFew(n / 10, k - 1);
    }
  }

  function Tens(k: nat): nat {
    if k == 0 then 1 else 10 * Tens(k - 1)
  }

  lemma IdsHaveTenDigits(x: nat)
    requires x <= MAX_STREAM_ID
    ensures |Digits(x)| <= 10
  {
    assert Tens(10) == 10_000_000_000 by {
      assert Tens(2) == 100 && Tens(4) == 10_000 && Tens(6) == 1_000_000 && Tens(8) == 100_000_000;
    }
    DigitsAreFew(x, 10);
  }

  lemma {:induction false} EscapeAtMostSixfold(text: Text)
    ensures |Escape(text)| <= 6 * |text|
  {
    if text != [] {
      EscapeAtMostSixfold(text[1..]);
    }
  }

  /** The members every `open` has. */
  lemma OpenMembers(x: nat)
    requires x <= MAX_STREAM_ID
    ensures |Quoted(TypeName(OpenFrame))| <= 26
    ensures |NumberMember("stream", Some(x))| <= 20
  {
    IdsHaveTenDigits(x);
    EscapeAtMostSixfold(TypeName(OpenFrame));
  }

  /** An `open` with a null payload is short. */
  lemma NullOpenFits(x: nat, cap: nat)
    requires x <= MAX_STREAM_ID && 128 <= cap
    ensures Fits(JSON(), M.OpenOf(x, Null, None, false), cap)
  {
    hide Escape, Digits, Quoted, NumberMember;
    OpenMembers(x);
    MemberLength("payload", Ascii("null"));
    var none: Option<int> := None;
    assert NumberMember("code", none) == [] && NumberMember("last_stream", none) == [] by { NoMembers(); }
  }

  lemma NoMembers()
    ensures NumberMember("code", None) == [] && NumberMember("last_stream", None) == []
  {
  }

  // ------------------------------------------------------------ a payload that is cut

  function Letters(n: nat): Text {
    seq(n, i requires 0 <= i < n => 0x61)
  }

  lemma {:induction false} PlainEscapes(text: Text)
    requires forall i :: 0 <= i < |text| ==> text[i] < 0x80
    ensures forall i :: 0 <= i < |Escape(text)| ==> Escape(text)[i] < 0x80
  {
    hide EscapeByte;
    if text != [] {
      PlainEscapes(text[1..]);
      EscapeByteIsPlain(text[0]);
    }
  }

  function LongOpen(x: nat, n: nat): Frame {
    M.OpenOf(x, Str(Letters(n)), None, false)
  }

  function LongPayload(n: nat): Chunk {
    Chunk(true, Quoted(Letters(n)))
  }

  lemma LongIsPlain(n: nat)
    ensures forall i :: 0 <= i < |LongPayload(n).bytes| ==> LongPayload(n).bytes[i] < 0x80
    ensures n + 2 <= |LongPayload(n).bytes| && ValidUtf8(Letters(n))
  {
    hide Escape;
    PlainEscapes(Letters(n));
    PlainIsValid(Letters(n));
  }

  lemma LongEncodes(x: nat, n: nat)
    ensures EncodePayload(Str(Letters(n))) == Some(LongPayload(n))
    ensures Encode(LongOpen(x, n)).Some? && n < |Encode(LongOpen(x, n)).value|
  {
    hide Escape, Digits, Quoted, NumberMember, ValidUtf8, Letters;
    LongIsPlain(n);
    MemberLength("payload", LongPayload(n).bytes);
  }

  /** A fragment of at most one byte is short. */
  lemma ByteFits(x: nat, n: nat, a: nat, b: nat, first: bool, last: bool, cap: nat)
    requires x <= MAX_STREAM_ID && 128 <= cap && a <= b <= a + 1 && b <= |LongPayload(n).bytes|
    ensures Fits(JSON(), Piece(LongOpen(x, n), LongPayload(n), a, b, first, last), cap)
  {
    hide Escape, Digits, Quoted, NumberMember, LongPayload, Encode, Piece;
    var source := LongOpen(x, n);
    OpenMembers(x);
    NoMembers();
    PieceLength(source, LongPayload(n), a, b, first, last);
    EscapeAtMostSixfold(LongPayload(n).bytes[a..b]);
    MemberLength("fragment", []);
    LongIsText(n);
  }

  lemma LongIsText(n: nat)
    ensures LongPayload(n).text
  {
  }

  /** Cut behind every byte. */
  lemma {:induction false} CutEverywhere(x: nat, n: nat, position: nat, cap: nat) returns (cuts: seq<nat>)
    requires x <= MAX_STREAM_ID && 128 <= cap && position <= |LongPayload(n).bytes|
    ensures Cutting(LongOpen(x, n), LongPayload(n), position, cuts, cap, JSON())
    decreases |LongPayload(n).bytes| - position
  {
    hide Fits, LongPayload, LongOpen, Piece;
    var whole := LongPayload(n);
    LongIsPlain(n);
    if position == |whole.bytes| {
      cuts := [];
      ByteFits(x, n, position, position, position == 0, true, cap);
      assert Closing(LongOpen(x, n), whole, position, position == 0)
          == Piece(LongOpen(x, n), whole, position, position, position == 0, true);
    } else {
      var more := CutEverywhere(x, n, position + 1, cap);
      cuts := [position + 1] + more;
      ByteFits(x, n, position, position + 1, position == 0, false, cap);
      assert cuts[1..] == more;
    }
  }

  /** A payload of as many letters as the cap is cut in two or more. */
  lemma LongIsSplit(x: nat, cap: nat)
    requires x <= MAX_STREAM_ID && 128 <= cap
    ensures 2 <= |SplitFrame(LongOpen(x, cap), cap, JSON()).frames|
  {
    hide Fits, LongPayload, LongOpen, Cutting, Encode, Measured;
    var f, whole := LongOpen(x, cap), LongPayload(cap);
    LongEncodes(x, cap);
    LongIsPlain(cap);
    JsonIsLawful();
    var cuts := CutEverywhere(x, cap, 0, cap);
    LongIs(x, cap);
    SplitsIffSomeCuttingFits(f, whole, cap, JSON());
    TwoAtLeast(f, whole, cap, JSON());
  }

  lemma LongIs(x: nat, n: nat)
    ensures LongOpen(x, n).payload == Some(Str(Letters(n)))
  {
  }

  lemma TwoAtLeast(f: Frame, whole: Chunk, cap: nat, codec: Codec)
    requires f.payload.Some? && codec.encodePayload(f.payload.value) == Some(whole) && cap < |whole.bytes|
    requires Size(codec, f).Some? && cap < Size(codec, f).value && SplitFrame(f, cap, codec).error.None?
    ensures 2 <= |SplitFrame(f, cap, codec).frames|
  {
    hide MiddleCount, Piece, Closing;
    var g: Generator := Slicing(f, whole, 0, 0);
    assert SplitFrame(f, cap, codec) == Drain(g, cap, codec);
    var resumed := ResumeSlicing(f, whole, 0, 0, cap, codec);
    assert Drain(g, cap, codec).frames == [resumed.frame] + Drain(resumed.rest, cap, codec).frames;
    SlicingYields(resumed.rest, cap, codec);
  }

  lemma SlicingYields(g: Generator, cap: nat, codec: Codec)
    requires g.Slicing? && Drain(g, cap, codec).error.None?
    ensures Drain(g, cap, codec).frames != []
  {
    hide MiddleCount, Piece, Closing;
  }

  // ------------------------------------------------------------ the run

  /** With JSON, whatever the cap from 128 bytes on and whatever the acceptor's limits: the dialer fills the acceptor,
      opens one stream more with a string as long as the cap, and the acceptor's connection fails. */
  lemma JsonOpeningFails(ca: Config, cb: Config) returns (events: seq<D.Event>)
    requires ca.codec == cb.codec == JSON() && 128 <= ca.cap == cb.cap && 2 * cb.maxStreams + 1 <= MAX_STREAM_ID
    ensures D.Run(D.Start(ca, cb), events).b.peer.failed
  {
    hide D.Run, SplitFrame, Fits, JSON, Lawful, Measured;
    JsonIsLawful();
    forall x: nat | x <= MAX_STREAM_ID
      ensures Fits(ca.codec, M.OpenOf(x, Null, None, false), ca.cap)
    {
      NullOpenFits(x, ca.cap);
    }
    LongIsSplit(2 * cb.maxStreams + 1, ca.cap);
    events := R.RefusedOpeningFails(ca, cb, Str(Letters(ca.cap)));
  }
}
