/** The receive side of fragmentation: the partial payload of one stream. */
module Assembly {
  import opened Frames
  import opened Utf8
  import opened Codecs
  import opened Fragmenter
  import opened SplitLaws

  datatype Partial = Partial(parts: seq<Chunk>, bytes: nat)

  const NOTHING := Partial([], 0)

  /** What one `feed` reports: more to come, the decoded payload, or a ProtocolError. */
  datatype Fed = Pending | Decoded(payload: Value) | Malformed

  function Join(parts: seq<Chunk>): (bytes: seq<Byte>) {
    if parts == [] then [] else Join(parts[..|parts| - 1]) + parts[|parts| - 1].bytes
  }

  /** The byte count is the sum of the parts. */
  predicate Counted(partial: Partial) {
    partial.bytes == |Join(partial.parts)|
  }

  function Feed(partial: Partial, frame: Frame, codec: Codec): (Partial, Fed) {
    match frame.fragment
    case None => (partial, Malformed)
    case Some(chunk) =>
      if partial.parts != [] && chunk.text != partial.parts[0].text then (NOTHING, Malformed)
      else
        var parts := partial.parts + [chunk];
        if frame.more then (Partial(parts, partial.bytes + |chunk.bytes|), Pending)
        else
          match codec.decodePayload(Chunk(parts[0].text, Join(parts)))
          case None => (NOTHING, Malformed)
          case Some(payload) => (NOTHING, Decoded(payload))
  }

  lemma JoinSnoc(parts: seq<Chunk>, chunk: Chunk)
    ensures Join(parts + [chunk]) == Join(parts) + chunk.bytes
  {
    assert (parts + [chunk])[..|parts|] == parts;
  }

  lemma FeedCounts(partial: Partial, frame: Frame, codec: Codec)
    requires Counted(partial)
    ensures Counted(Feed(partial, frame, codec).0)
  {
    if frame.fragment.Some? {
      JoinSnoc(partial.parts, frame.fragment.value);
    }
  }

  // ------------------------------------------------------------ what the splitter's frames look like

  function Carried(frames: seq<Frame>): (bytes: seq<Byte>) {
    if frames == [] then []
    else (if frames[0].fragment.Some? then frames[0].fragment.value.bytes else []) + Carried(frames[1..])
  }

  /** `frame` is the fragment of `source` at place `i` of `n`, within the cap. */
  predicate FragmentOf(frame: Frame, source: Frame, text: bool, first: bool, last: bool, cap: nat, codec: Codec) {
    && frame.fragment.Some?
    && frame.fragment.value.text == text
    && (text ==> ValidUtf8(frame.fragment.value.bytes))
    && (!last ==> frame.fragment.value.bytes != [])
    && frame == FragmentFrame(source, frame.fragment.value, first, last)
    && Fits(codec, frame, cap)
  }

  /** Fragments of `source` carrying `bytes`: headers on the first only, `end` and trailers on the last
      only, `more` on all but the last. */
  predicate FragmentsOf(frames: seq<Frame>, source: Frame, text: bool, bytes: seq<Byte>, first: bool, cap: nat,
                        codec: Codec) {
    && frames != []
    && Carried(frames) == bytes
    && forall i :: 0 <= i < |frames| ==>
         FragmentOf(frames[i], source, text, first && i == 0, i == |frames| - 1, cap, codec)
  }

  lemma {:induction false} DrainShape(source: Frame, whole: Chunk, position: nat, emitted: nat, cap: nat, codec: Codec)
    requires Resumable(Slicing(source, whole, position, emitted)) && (whole.text ==> ValidUtf8(whole.bytes))
    requires Drain(Slicing(source, whole, position, emitted), cap, codec).error.None?
    ensures position <= |whole.bytes|
    ensures FragmentsOf(Drain(Slicing(source, whole, position, emitted), cap, codec).frames,
                        source, whole.text, whole.bytes[position..], emitted == 0, cap, codec)
    decreases |whole.bytes| - position
  {
    hide IsBoundary, MiddleCount, ValidUtf8, FragmentOf, FragmentsOf, FragmentFrame, Fits, Carried;
    var frames := Drain(Slicing(source, whole, position, emitted), cap, codec).frames;
    var total := |whole.bytes|;
    BoundaryIsWithin(whole, position);
    match ResumeSlicing(source, whole, position, emitted, cap, codec)
    case Yield(frame, rest) =>
      if rest == Finished {
        EndsAreBoundaries(whole);
        assert Fits(codec, frame, cap) by { ClosingYieldFits(source, whole, position, emitted, cap, codec); }
        PieceIsFragment(source, whole, position, total, emitted == 0, true, cap, codec);
        assert frames == [frame];
        OneFragment(frame, source, whole.text, whole.bytes[position..], emitted == 0, cap, codec);
      } else {
        var count := MiddleCount(source, whole, position, emitted == 0, cap, codec).bytes;
        MiddleCountFits(source, whole, position, emitted == 0, cap, codec);
        MiddleCountCuts(source, whole, position, emitted == 0, cap, codec);
        PieceIsFragment(source, whole, position, position + count, emitted == 0, false, cap, codec);
        var tail := Drain(Slicing(source, whole, position + count, emitted + 1), cap, codec).frames;
        DrainShape(source, whole, position + count, emitted + 1, cap, codec);
        assert frames == [frame] + tail && frames[1..] == tail;
        assert whole.bytes[position..position + count] + whole.bytes[position + count..] == whole.bytes[position..];
        ConsFragments(frame, tail, source, whole.text, whole.bytes[position..position + count],
                      whole.bytes[position + count..], emitted == 0, cap, codec);
      }
  }

  lemma MiddleCountCuts(source: Frame, whole: Chunk, position: nat, first: bool, cap: nat, codec: Codec)
    requires position < |whole.bytes| && Cuttable(whole, position)
    requires MiddleCount(source, whole, position, first, cap, codec).Count?
    ensures var count := MiddleCount(source, whole, position, first, cap, codec).bytes;
            0 < count && position + count <= |whole.bytes| && Cuttable(whole, position + count)
  {
  }

  lemma PieceIsFragment(source: Frame, whole: Chunk, a: nat, b: nat, first: bool, last: bool, cap: nat, codec: Codec)
    requires a <= b <= |whole.bytes| && Cuttable(whole, a) && Cuttable(whole, b) && (!last ==> a < b)
    requires whole.text ==> ValidUtf8(whole.bytes)
    requires Fits(codec, Piece(source, whole, a, b, first, last), cap)
    ensures FragmentOf(Piece(source, whole, a, b, first, last), source, whole.text, first, last, cap, codec)
    ensures Piece(source, whole, a, b, first, last).fragment == Some(Slice(whole, a, b))
  {
    if whole.text {
      SliceIsValid(whole.bytes, a, b);
    }
  }

  lemma ClosingYieldFits(source: Frame, whole: Chunk, position: nat, emitted: nat, cap: nat, codec: Codec)
    requires Resumable(Slicing(source, whole, position, emitted)) && position <= |whole.bytes|
    requires ResumeSlicing(source, whole, position, emitted, cap, codec).Yield?
    requires ResumeSlicing(source, whole, position, emitted, cap, codec).rest == Finished
    ensures Fits(codec, Closing(source, whole, position, emitted == 0), cap)
  {
    hide MiddleCount;
  }

  lemma OneFragment(frame: Frame, source: Frame, text: bool, bytes: seq<Byte>, first: bool, cap: nat, codec: Codec)
    requires FragmentOf(frame, source, text, first, true, cap, codec) && frame.fragment.Some?
      && frame.fragment.value.bytes == bytes
    ensures FragmentsOf([frame], source, text, bytes, first, cap, codec)
  {
    assert Carried([frame]) == bytes + Carried([]);
  }

  lemma ConsFragments(frame: Frame, tail: seq<Frame>, source: Frame, text: bool, head: seq<Byte>, bytes: seq<Byte>,
                      first: bool, cap: nat, codec: Codec)
    requires FragmentOf(frame, source, text, first, false, cap, codec) && frame.fragment.Some?
      && frame.fragment.value.bytes == head
    requires FragmentsOf(tail, source, text, bytes, false, cap, codec)
    ensures FragmentsOf([frame] + tail, source, text, head + bytes, first, cap, codec)
  {
    hide FragmentOf;
    var frames := [frame] + tail;
    assert frames[1..] == tail;
    forall i | 0 <= i < |frames|
      ensures FragmentOf(frames[i], source, text, first && i == 0, i == |frames| - 1, cap, codec)
    {
      if 0 < i {
        assert frames[i] == tail[i - 1];
      }
    }
    assert frame.fragment.Some? by { FragmentIsCarried(frame, source, text, first, false, cap, codec); }
  }

  lemma FragmentIsCarried(frame: Frame, source: Frame, text: bool, first: bool, last: bool, cap: nat, codec: Codec)
    requires FragmentOf(frame, source, text, first, last, cap, codec)
    ensures frame.fragment.Some? && frame.fragment.value.text == text && frame.more == !last
  {
  }

  // ------------------------------------------------------------ the round trip

  function FeedAll(partial: Partial, frames: seq<Frame>, codec: Codec): (Partial, seq<Fed>)
    decreases |frames|
  {
    if frames == [] then (partial, [])
    else
      var (next, fed) := Feed(partial, frames[0], codec);
      var (end, rest) := FeedAll(next, frames[1..], codec);
      (end, [fed] + rest)
  }

  /** Nothing until the last fragment, then `payload`, and the buffer is empty again. */
  predicate YieldsAtTheEnd(outcome: (Partial, seq<Fed>), n: nat, payload: Value) {
    && outcome.0 == NOTHING
    && |outcome.1| == n
    && (forall i :: 0 <= i < n - 1 ==> outcome.1[i] == Pending)
    && (0 < n ==> outcome.1[n - 1] == Decoded(payload))
  }

  lemma {:induction false} FeedReassembles(partial: Partial, frames: seq<Frame>, source: Frame, text: bool,
                                           bytes: seq<Byte>, first: bool, payload: Value, cap: nat, codec: Codec)
    requires FragmentsOf(frames, source, text, bytes, first, cap, codec)
    requires partial.parts != [] ==> partial.parts[0].text == text
    requires codec.decodePayload(Chunk(text, Join(partial.parts) + bytes)) == Some(payload)
    ensures YieldsAtTheEnd(FeedAll(partial, frames, codec), |frames|, payload)
    decreases |frames|
  {
    hide FragmentOf, Join;
    var chunk := frames[0].fragment;
    FragmentIsCarried(frames[0], source, text, first, |frames| == 1, cap, codec);
    JoinSnoc(partial.parts, chunk.value);
    if |frames| == 1 {
      assert Carried(frames) == chunk.value.bytes + Carried([]) == chunk.value.bytes;
    } else {
      var rest := frames[1..];
      var next := Feed(partial, frames[0], codec).0;
      TailFragments(frames, source, text, bytes, first, cap, codec);
      assert Join(next.parts) + Carried(rest) == Join(partial.parts) + bytes;
      FeedReassembles(next, rest, source, text, Carried(rest), false, payload, cap, codec);
    }
  }

  lemma TailFragments(frames: seq<Frame>, source: Frame, text: bool, bytes: seq<Byte>, first: bool, cap: nat,
                      codec: Codec)
    requires FragmentsOf(frames, source, text, bytes, first, cap, codec) && 1 < |frames|
    ensures FragmentsOf(frames[1..], source, text, Carried(frames[1..]), false, cap, codec)
  {
    hide FragmentOf;
    var rest := frames[1..];
    forall i | 0 <= i < |rest|
      ensures FragmentOf(rest[i], source, text, false, i == |rest| - 1, cap, codec)
    {
      assert rest[i] == frames[i + 1];
    }
  }

  /** A frame that is split without an error is itself, within the cap, or fragments that each fit and
      that the assembler turns back into the payload. */
  lemma SplitRoundTrip(frame: Frame, cap: nat, codec: Codec)
    requires Lawful(codec)
    requires SplitFrame(frame, cap, codec).error.None?
    ensures var frames := SplitFrame(frame, cap, codec).frames;
            || (frames == [frame] && Fits(codec, frame, cap))
            || (&& frame.payload.Some?
                && codec.encodePayload(frame.payload.value).Some?
                && (var whole := codec.encodePayload(frame.payload.value).value;
                    FragmentsOf(frames, frame, whole.text, whole.bytes, true, cap, codec))
                && YieldsAtTheEnd(FeedAll(NOTHING, frames, codec), |frames|, frame.payload.value))
  {
    hide FragmentOf;
    var frames := SplitFrame(frame, cap, codec).frames;
    if Fits(codec, frame, cap) {
      assert ResumeStart(frame, cap, codec) == Yield(frame, Finished);
      assert Drain(Finished, cap, codec) == Split([], None);
    } else {
      var payload := frame.payload.value;
      var whole := codec.encodePayload(payload).value;
      var g: Generator := Slicing(frame, whole, 0, 0);
      assert SplitFrame(frame, cap, codec) == Drain(g, cap, codec);
      DrainShape(frame, whole, 0, 0, cap, codec);
      assert whole.bytes[0..] == whole.bytes;
      assert Join([]) + whole.bytes == whole.bytes;
      FeedReassembles(NOTHING, frames, frame, whole.text, whole.bytes, true, payload, cap, codec);
    }
  }

  // ------------------------------------------------------------ the assembler object

  class Assembler {
    var parts: seq<Chunk>
    var bytes: nat

    function Model(): Partial
      reads this
    {
      Partial(parts, bytes)
    }

    constructor ()
      ensures Model() == NOTHING
    {
      parts, bytes := [], 0;
    }

    method Reset()
      modifies this
      ensures Model() == NOTHING
    {
      parts := [];
      bytes := 0;
    }

    method FeedFrame(frame: Frame, codec: Codec) returns (fed: Fed)
      modifies this
      ensures (Model(), fed) == Feed(old(Model()), frame, codec)
      ensures old(Counted(Model())) ==> Counted(Model())
    {
      if Counted(Model()) {
        FeedCounts(Model(), frame, codec);
      }
      if frame.fragment.None? {
        return Malformed;
      }
      var chunk := frame.fragment.value;
      if parts != [] && chunk.text != parts[0].text {
        Reset();
        return Malformed;
      }
      parts := parts + [chunk];
      bytes := bytes + |chunk.bytes|;
      if frame.more {
        return Pending;
      }
      var joined := Chunk(parts[0].text, Join(parts));
      Reset();
      match codec.decodePayload(joined) {
        case None => fed := Malformed;
        case Some(payload) => fed := Decoded(payload);
      }
    }
  }
}
