/** The splitter as the TypeScript port runs it, proved to cut where the Python port cuts, and the
    splitter without the guard on the closing encode, proved to cut there too. */
module FragmentPorts {
  import opened Frames
  import opened Utf8
  import opened Codecs
  import opened Fragmenter
  import opened SplitLaws
  import FragmentLoops

  /** `boundaryWithin`: a width, where the Python port computes an offset, and a loop that stops at
      `start`, where the Python port's stops at 0. */
  method BoundaryWithin(units: Chunk, start: nat, limit: nat) returns (width: nat)
    requires start <= |units.bytes| && Cuttable(units, start)
    ensures width == Probe(units, start, limit)
  {
    var top := Min(start + limit, |units.bytes|);
    var cut := top;
    if units.text {
      while start < cut < |units.bytes| && IsContinuation(units.bytes[cut])
        invariant start <= cut <= top
        invariant Floor(units.bytes, units.text, cut) == Floor(units.bytes, units.text, top)
        decreases cut
      {
        cut := cut - 1;
      }
    }
    width := cut - start;
  }

  /** `firstUnitWidth`. */
  method FirstUnitWidth(units: Chunk, start: nat) returns (width: nat)
    requires start < |units.bytes|
    ensures start + width == Next(units.bytes, units.text, start)
  {
    var cut := start + 1;
    if units.text {
      while cut < |units.bytes| && IsContinuation(units.bytes[cut])
        invariant start < cut <= |units.bytes|
        invariant Ceiling(units.bytes, units.text, cut) == Next(units.bytes, units.text, start)
      {
        cut := cut + 1;
      }
    }
    width := cut - start;
  }

  /** `unitsWithinBudget`. */
  method UnitsWithinBudget(units: Chunk, start: nat, budget: nat) returns (width: nat)
    requires start < |units.bytes| && Cuttable(units, start)
    ensures width == WithinBudget(units, start, budget)
  {
    width := BoundaryWithin(units, start, budget);
    if width == 0 {
      width := FirstUnitWidth(units, start);
    }
  }

  /** `largestFittingCount`. */
  method LargestFittingCount(source: Frame, units: Chunk, position: nat, ceiling: nat, first: bool, cap: nat,
                             codec: Codec)
    returns (best: Option<nat>)
    requires position <= |units.bytes| && Cuttable(units, position)
    ensures best == Search(source, units, position, 1, ceiling, 0, first, cap, codec)
  {
    hide IsBoundary, Piece, Probe, Search;
    var low: nat, high: nat, found: nat := 1, ceiling, 0;
    while low <= high
      invariant 0 < low && low <= high + 1 && high <= ceiling
      invariant position + found <= |units.bytes| && Cuttable(units, position + found)
      invariant Search(source, units, position, low, high, found, first, cap, codec)
             == Search(source, units, position, 1, ceiling, 0, first, cap, codec)
      decreases high + 1 - low
    {
      var middle := (low + high) / 2;
      var count := BoundaryWithin(units, position, middle);
      var probe := Piece(source, units, position, position + count, first, false);
      FragmentLoops.SearchStep(source, units, position, low, high, found, first, cap, codec);
      var message := codec.encode(probe);
      if message.None? {
        return None;
      }
      if |message.value| <= cap {
        found := count;
        low := middle + 1;
      } else {
        high := middle - 1;
      }
    }
    FragmentLoops.SearchStops(source, units, position, low, high, found, first, cap, codec);
    best := Some(found);
  }

  /** `splitFrame`: both ports yield the frames of the one `SplitFrame`. */
  method IterFragments(frame: Frame, cap: nat, codec: Codec) returns (frames: seq<Frame>, error: Option<SplitError>)
    ensures Split(frames, error) == SplitFrame(frame, cap, codec)
  {
    hide IsBoundary, MiddleCount, Piece, Drain, SplitFrame;
    FragmentLoops.StartStep(frame, cap, codec);
    frames, error := [], None;
    if cap < 2 {
      return [], Some(CapTooSmall);
    }
    var message := codec.encode(frame);
    if message.None? {
      return [], Some(CodecRefused);
    }
    if |message.value| <= cap {
      return [frame], None;
    }
    if frame.payload.None? {
      return [], Some(NothingToFragment);
    }
    var encoded := codec.encodePayload(frame.payload.value);
    if encoded.None? {
      return [], Some(CodecRefused);
    }
    var units := encoded.value;
    var total := |units.bytes|;
    var position, emitted := 0, 0;
    EndsAreBoundaries(units);
    while true
      invariant Resumable(Slicing(frame, units, position, emitted))
      invariant FragmentLoops.Onward(frames, Drain(Slicing(frame, units, position, emitted), cap, codec))
             == SplitFrame(frame, cap, codec)
      decreases total - position
    {
      var first := emitted == 0;
      BoundaryIsWithin(units, position);
      FragmentLoops.SlicingStep(frame, units, position, emitted, cap, codec);
      if total - position <= cap {
        var tail := Closing(frame, units, position, first);
        var encodedTail := codec.encode(tail);
        if encodedTail.None? {
          return frames, Some(CodecRefused);
        }
        if |encodedTail.value| <= cap {
          return frames + [tail], None;
        }
      }
      if total <= position {
        return frames, Some(ClosingTooWide);
      }
      var count, failure := Middle(frame, units, position, first, cap, codec);
      if failure.Some? {
        return frames, failure;
      }
      frames := frames + [Piece(frame, units, position, position + count, first, false)];
      emitted := emitted + 1;
      position := position + count;
    }
  }

  /** The middle fragment of one pass. */
  method Middle(frame: Frame, units: Chunk, position: nat, first: bool, cap: nat, codec: Codec)
    returns (count: nat, failure: Option<SplitError>)
    requires position < |units.bytes| && Cuttable(units, position)
    ensures match MiddleCount(frame, units, position, first, cap, codec)
            case Unencodable => failure == Some(CodecRefused)
            case NoUnit => failure == Some(UnitTooWide)
            case Count(n) => failure == None && count == n
  {
    hide IsBoundary, WithinBudget, Search, Piece, Budget;
    count := UnitsWithinBudget(units, position, Budget(cap));
    failure := None;
    var candidate := codec.encode(Piece(frame, units, position, position + count, first, false));
    if candidate.None? {
      return 0, Some(CodecRefused);
    }
    if cap < |candidate.value| {
      var best := LargestFittingCount(frame, units, position, count, first, cap, codec);
      if best.None? {
        return 0, Some(CodecRefused);
      }
      count := best.value;
      if count == 0 {
        return 0, Some(UnitTooWide);
      }
    }
  }

  // ------------------------------------------------------------ the guard on the closing encode

  /** The generator that encodes the closing fragment on every pass. */
  function DrainUnguarded(source: Frame, whole: Chunk, position: nat, emitted: nat, cap: nat, codec: Codec): Split
    requires Resumable(Slicing(source, whole, position, emitted))
    decreases |whole.bytes| - position
  {
    var first := emitted == 0;
    var closing := Closing(source, whole, position, first);
    if Size(codec, closing).None? then Split([], Some(CodecRefused))
    else if Size(codec, closing).value <= cap then Split([closing], None)
    else if |whole.bytes| <= position then Split([], Some(ClosingTooWide))
    else
      match MiddleCount(source, whole, position, first, cap, codec)
      case Unencodable => Split([], Some(CodecRefused))
      case NoUnit => Split([], Some(UnitTooWide))
      case Count(count) =>
        var tail := DrainUnguarded(source, whole, position + count, emitted + 1, cap, codec);
        Split([Piece(source, whole, position, position + count, first, false)] + tail.frames, tail.error)
  }

  /** The guard saves encodes and changes no fragment, because an encoded fragment is never shorter than
      the slice it carries. */
  lemma {:induction false} GuardChangesNothing(source: Frame, whole: Chunk, position: nat, emitted: nat, cap: nat,
                                               codec: Codec)
    requires SizesCover(codec) && FragmentsEncode(codec, source, whole)
    requires Resumable(Slicing(source, whole, position, emitted))
    ensures Drain(Slicing(source, whole, position, emitted), cap, codec)
         == DrainUnguarded(source, whole, position, emitted, cap, codec)
    decreases |whole.bytes| - position
  {
    hide IsBoundary, MiddleCount, FragmentFrame;
    var first := emitted == 0;
    BoundaryIsWithin(whole, position);
    assert Covers(codec, source, whole, position, |whole.bytes|, first, true);
    assert Drain(Finished, cap, codec) == Split([], None);
    if position < |whole.bytes| && MiddleCount(source, whole, position, first, cap, codec).Count? {
      var count := MiddleCount(source, whole, position, first, cap, codec).bytes;
      GuardChangesNothing(source, whole, position + count, emitted + 1, cap, codec);
    }
  }
}
