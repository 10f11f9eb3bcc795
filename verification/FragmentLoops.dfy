/** The splitter as the Python port runs it: loops over `cut`, over `low`, `high`, `best`, and over
    `position`. */
module FragmentLoops {
  import opened Frames
  import opened Utf8
  import opened Codecs
  import opened Fragmenter
  import opened SplitLaws

  /** `_floor_boundary`. */
  method FloorBoundary(data: seq<Byte>, cut: nat, text: bool) returns (r: nat)
    requires cut <= |data|
    ensures r == Floor(data, text, cut)
    ensures r <= cut && IsBoundary(data, text, r)
    ensures forall b :: r < b <= cut ==> !IsBoundary(data, text, b)
    ensures text && ValidUtf8(data) ==> cut - 3 <= r
  {
    r := cut;
    if text {
      while 0 < r < |data| && IsContinuation(data[r])
        invariant r <= cut
        invariant Floor(data, text, r) == Floor(data, text, cut)
        invariant forall b :: r < b <= cut ==> !IsBoundary(data, text, b)
        decreases r
      {
        r := r - 1;
      }
      if ValidUtf8(data) {
        BoundaryWithinThree(data, cut);
      }
    }
  }

  /** `_next_boundary`. */
  method NextBoundary(data: seq<Byte>, start: nat, text: bool) returns (r: nat)
    requires start < |data|
    ensures r == Next(data, text, start)
    ensures start < r && IsBoundary(data, text, r)
    ensures forall b :: start < b < r ==> !IsBoundary(data, text, b)
  {
    r := start + 1;
    if text {
      while r < |data| && IsContinuation(data[r])
        invariant start < r <= |data|
        invariant Ceiling(data, text, r) == Next(data, text, start)
        invariant forall b :: start < b < r ==> !IsBoundary(data, text, b)
      {
        r := r + 1;
      }
    }
  }

  // ------------------------------------------------------------ the cost of the search

  /** How many times `n` can be halved before it is 0: the floor of its binary logarithm, plus 1. */
  function Halvings(n: nat): (h: nat) {
    if n == 0 then 0 else 1 + Halvings(n / 2)
  }

  function Pow2(n: nat): (p: nat)
    ensures 0 < p
  {
    if n == 0 then 1 else 2 * Pow2(n - 1)
  }

  lemma {:induction false} HalvingsIsLog2(n: nat)
    requires 0 < n
    ensures Pow2(Halvings(n) - 1) <= n < Pow2(Halvings(n))
  {
    if 1 < n {
      HalvingsIsLog2(n / 2);
    }
  }

  predicate PowerOfTwo(n: nat) {
    n == 1 || (0 < n && n % 2 == 0 && PowerOfTwo(n / 2))
  }

  /** One less halves once less exactly below a power of two. */
  lemma {:induction false} HalvingsBelow(n: nat)
    requires 0 < n
    ensures Halvings(n - 1) == Halvings(n) - (if PowerOfTwo(n) then 1 else 0)
  {
    if 1 < n && n % 2 == 0 {
      HalvingsBelow(n / 2);
      assert (n - 1) / 2 == n / 2 - 1;
    } else if 1 < n {
      assert (n - 1) / 2 == n / 2;
    }
  }

  /** The length of the frame a search from `low` to `high` probes, if it encodes. */
  function ProbeSize(source: Frame, whole: Chunk, position: nat, low: nat, high: nat, first: bool,
                     codec: Codec): Option<nat>
    requires Cuttable(whole, position)
  {
    SliceSize(source, whole, position, Probe(whole, position, (low + high) / 2), first, codec)
  }

  /** How many frames the search encodes. */
  function Probes(source: Frame, whole: Chunk, position: nat, low: nat, high: nat, first: bool, cap: nat,
                  codec: Codec): (n: nat)
    requires Cuttable(whole, position) && 0 < low
    decreases high + 1 - low
  {
    if high < low then 0
    else
      var middle := (low + high) / 2;
      var size := ProbeSize(source, whole, position, low, high, first, codec);
      if size.None? then 1
      else if size.value <= cap then 1 + Probes(source, whole, position, middle + 1, high, first, cap, codec)
      else 1 + Probes(source, whole, position, low, middle - 1, first, cap, codec)
  }

  /** A probe of the search is too long while a number of sizes is open that is a power of two, and more than one:
      the lower part left to search is then a probe cheaper than the upper. */
  predicate Saves(source: Frame, whole: Chunk, position: nat, low: nat, high: nat, first: bool, cap: nat, codec: Codec)
    requires Cuttable(whole, position) && 0 < low
    decreases high + 1 - low
  {
    if high < low then false
    else
      var middle := (low + high) / 2;
      var size := ProbeSize(source, whole, position, low, high, first, codec);
      if size.None? then false
      else if size.value <= cap then Saves(source, whole, position, middle + 1, high, first, cap, codec)
      else
        || (low < high && PowerOfTwo(high + 1 - low))
        || Saves(source, whole, position, low, middle - 1, first, cap, codec)
  }

  /** No encode of the search raises. */
  predicate AllEncode(source: Frame, whole: Chunk, position: nat, low: nat, high: nat, first: bool, cap: nat,
                      codec: Codec)
    requires Cuttable(whole, position) && 0 < low
    decreases high + 1 - low
  {
    if high < low then true
    else
      var middle := (low + high) / 2;
      var size := ProbeSize(source, whole, position, low, high, first, codec);
      if size.None? then false
      else if size.value <= cap then AllEncode(source, whole, position, middle + 1, high, first, cap, codec)
      else AllEncode(source, whole, position, low, middle - 1, first, cap, codec)
  }

  /** From one less than a power of two both parts are, so no probe is saved. */
  lemma {:induction false} EvenHalvesSaveNone(source: Frame, whole: Chunk, position: nat, low: nat, high: nat,
                                              first: bool, cap: nat, codec: Codec)
    requires Cuttable(whole, position) && 0 < low <= high + 1 && PowerOfTwo(high + 2 - low)
    ensures !Saves(source, whole, position, low, high, first, cap, codec)
    decreases high + 1 - low
  {
    hide ProbeSize;
    if low <= high {
      var middle := (low + high) / 2;
      var size := ProbeSize(source, whole, position, low, high, first, codec);
      assert (high + 2 - low) / 2 == high - middle + 1 == middle - low + 1;
      if size.Some? && size.value <= cap {
        EvenHalvesSaveNone(source, whole, position, middle + 1, high, first, cap, codec);
      } else if size.Some? {
        EvenHalvesSaveNone(source, whole, position, low, middle - 1, first, cap, codec);
      }
    }
  }

  /** The exact cost: floor(log2(n)) + 1 encodes for `n` sizes, or one less if a probe is saved. */
  lemma {:induction false} ProbesExactly(source: Frame, whole: Chunk, position: nat, low: nat, high: nat, first: bool,
                                         cap: nat, codec: Codec)
    requires Cuttable(whole, position) && 0 < low <= high + 1
    ensures Probes(source, whole, position, low, high, first, cap, codec) <= Halvings(high + 1 - low)
    ensures AllEncode(source, whole, position, low, high, first, cap, codec) ==>
      Probes(source, whole, position, low, high, first, cap, codec)
      == Halvings(high + 1 - low) - (if Saves(source, whole, position, low, high, first, cap, codec) then 1 else 0)
    decreases high + 1 - low
  {
    hide ProbeSize, Halvings, PowerOfTwo;
    if low <= high {
      var n := high + 1 - low;
      var middle := (low + high) / 2;
      var size := ProbeSize(source, whole, position, low, high, first, codec);
      BothHalves(n);
      assert middle - low == (n - 1) / 2 && high - middle == n / 2;
      if size.Some? && size.value <= cap {
        ProbesExactly(source, whole, position, middle + 1, high, first, cap, codec);
      } else if size.Some? {
        ProbesExactly(source, whole, position, low, middle - 1, first, cap, codec);
        if low < high
            && PowerOfTwo(n) { EvenHalvesSaveNone(source, whole, position, low, middle - 1, first, cap, codec); }
      }
    } else {
      assert Halvings(0) == 0 by { NoHalving(); }
    }
  }

  lemma NoHalving()
    ensures Halvings(0) == 0
  {
  }

  /** The upper half of `n` sizes costs one halving less than `n`; the lower half is cheaper exactly from a power of
      two, and then it is one size short of one. */
  lemma BothHalves(n: nat)
    requires 0 < n
    ensures Halvings(n) == 1 + Halvings(n / 2) && 0 <= (n - 1) / 2
    ensures Halvings((n - 1) / 2) == Halvings(n / 2) - (if 1 < n && PowerOfTwo(n) then 1 else 0)
    ensures 1 < n && PowerOfTwo(n) ==> PowerOfTwo((n - 1) / 2 + 1)
  {
    if n % 2 == 0 {
      HalvingsBelow(n / 2);
      assert (n - 1) / 2 == n / 2 - 1;
    } else {
      assert (n - 1) / 2 == n / 2;
    }
  }

  // ------------------------------------------------------------ when a probe is saved

  predicate LimitFits(source: Frame, whole: Chunk, position: nat, limit: nat, first: bool, cap: nat, codec: Codec)
    requires Cuttable(whole, position)
  {
    var size := SliceSize(source, whole, position, Probe(whole, position, limit), first, codec);
    size.Some? && size.value <= cap
  }

  /** The largest of the sizes 1 to `ceiling` whose slice fits, 0 when none does. */
  function LargestSize(source: Frame, whole: Chunk, position: nat, ceiling: nat, first: bool, cap: nat,
                       codec: Codec): (t: nat)
    requires Cuttable(whole, position)
    ensures t <= ceiling
  {
    if ceiling == 0 || LimitFits(source, whole, position, ceiling, first, cap, codec) then ceiling
    else LargestSize(source, whole, position, ceiling - 1, first, cap, codec)
  }

  lemma SmallerLimitFits(source: Frame, whole: Chunk, position: nat, m: nat, n: nat, first: bool, cap: nat,
                         codec: Codec)
    requires SizesGrow(codec) && Cuttable(whole, position) && m <= n
      && LimitFits(source, whole, position, n, first, cap, codec)
    ensures LimitFits(source, whole, position, m, first, cap, codec)
  {
    hide IsBoundary, Piece, Probe;
    var small, large := Probe(whole, position, m), Probe(whole, position, n);
    ProbeIsLargest(whole, position, n, small);
    SmallerFits(codec, source, whole, position, position + small, position, position + large, first, first, false, cap);
  }

  /** Lengths grow with the slice, so exactly the sizes up to the largest fit. */
  lemma {:induction false} SizesSplit(source: Frame, whole: Chunk, position: nat, ceiling: nat, first: bool, cap: nat,
                                      codec: Codec)
    requires SizesGrow(codec) && Cuttable(whole, position)
    ensures var t := LargestSize(source, whole, position, ceiling, first, cap, codec);
            forall m: nat :: 0 < m <= ceiling ==> (LimitFits(source, whole, position, m, first, cap, codec) <==> m <= t)
  {
    hide LimitFits;
    if ceiling != 0 {
      if LimitFits(source, whole, position, ceiling, first, cap, codec) {
        forall m: nat | 0 < m <= ceiling ensures LimitFits(source, whole, position, m, first, cap, codec) {
          SmallerLimitFits(source, whole, position, m, ceiling, first, cap, codec);
        }
      } else {
        SizesSplit(source, whole, position, ceiling - 1, first, cap, codec);
      }
    }
  }

  /** Of `n` sizes the first `fit` fit: bisecting them meets one that does not while a power of two of them, and more
      than one, is open. */
  predicate EndsShort(n: nat, fit: nat) {
    n != 0 &&
    var middle := (n + 1) / 2;
    if middle <= fit then EndsShort(n / 2, fit - middle) else (1 < n && PowerOfTwo(n)) || EndsShort((n - 1) / 2, fit)
  }

  /** The number of sizes and the largest that fits determine what the search saves. */
  lemma {:induction false} SavesIffShort(source: Frame, whole: Chunk, position: nat, low: nat, high: nat, fit: nat,
                                         first: bool, cap: nat, codec: Codec)
    requires Cuttable(whole, position) && 0 < low <= high + 1 && low <= fit + 1 <= high + 1
    requires forall m: nat ::
      low <= m <= high ==> (LimitFits(source, whole, position, m, first, cap, codec) <==> m <= fit)
    requires AllEncode(source, whole, position, low, high, first, cap, codec)
    ensures Saves(source, whole, position, low, high, first, cap, codec) <==> EndsShort(high + 1 - low, fit + 1 - low)
    decreases high + 1 - low
  {
    hide PowerOfTwo, Probe, SliceSize;
    if low <= high {
      var n := high + 1 - low;
      var middle := (low + high) / 2;
      assert middle + 1 - low == (n + 1) / 2 && high - middle == n / 2 && middle - low == (n - 1) / 2;
      if LimitFits(source, whole, position, middle, first, cap, codec) {
        SavesIffShort(source, whole, position, middle + 1, high, fit, first, cap, codec);
      } else {
        SavesIffShort(source, whole, position, low, middle - 1, fit, first, cap, codec);
      }
    }
  }

  /** The documented bound, floor(log2(ceiling)) encodes, is met if and only if bisecting the sizes up to the ceiling
      ends
      short at the largest that fits. */
  lemma DocumentedBoundIff(source: Frame, whole: Chunk, position: nat, ceiling: nat, first: bool, cap: nat,
                           codec: Codec)
    requires Cuttable(whole, position) && 0 < ceiling
      && AllEncode(source, whole, position, 1, ceiling, first, cap, codec)
    requires SizesGrow(codec)
    ensures Probes(source, whole, position, 1, ceiling, first, cap, codec) <= Halvings(ceiling) - 1
            <==> EndsShort(ceiling, LargestSize(source, whole, position, ceiling, first, cap, codec))
  {
    hide Probes, Saves, AllEncode, LargestSize, EndsShort, LimitFits;
    ProbesExactly(source, whole, position, 1, ceiling, first, cap, codec);
    SizesSplit(source, whole, position, ceiling, first, cap, codec);
    SavesIffShort(source, whole, position, 1, ceiling,
                  LargestSize(source, whole, position, ceiling, first, cap, codec), first, cap, codec);
  }

  /** For a power of two it is met unless one of the two largest sizes fits: the first probe that is too long saves
      one. */
  lemma {:induction false} PowersEndShort(n: nat, fit: nat)
    requires PowerOfTwo(n) && fit <= n
    ensures EndsShort(n, fit) <==> fit + 1 < n
  {
    if 1 < n {
      assert (n + 1) / 2 == n / 2;
      if n / 2 <= fit { PowersEndShort(n / 2, fit - n / 2); }
    }
  }

  /** It is never met for a ceiling one below a power of two: for a ceiling of 1, whose logarithm is 0, there is one
      encode. */
  lemma DocumentedBoundFails(source: Frame, whole: Chunk, position: nat, ceiling: nat, first: bool, cap: nat,
                             codec: Codec)
    requires Cuttable(whole, position) && 0 < ceiling
      && AllEncode(source, whole, position, 1, ceiling, first, cap, codec)
    requires PowerOfTwo(ceiling + 1)
    ensures Probes(source, whole, position, 1, ceiling, first, cap, codec) == Halvings(ceiling)
    ensures ceiling == 1 ==> Probes(source, whole, position, 1, ceiling, first, cap, codec) == 1 && Pow2(0) == ceiling
  {
    hide Probes, Saves, AllEncode;
    ProbesExactly(source, whole, position, 1, ceiling, first, cap, codec);
    EvenHalvesSaveNone(source, whole, position, 1, ceiling, first, cap, codec);
  }

  /** One probe of the search. */
  lemma SearchStep(source: Frame, whole: Chunk, position: nat, low: nat, high: nat, best: nat,
                   first: bool, cap: nat, codec: Codec)
    requires Cuttable(whole, position) && position + best <= |whole.bytes| && Cuttable(whole, position + best)
    requires 0 < low <= high
    ensures var middle := (low + high) / 2;
            var count := Probe(whole, position, middle);
            var now := Search(source, whole, position, low, high, best, first, cap, codec);
            match codec.encode(Piece(source, whole, position, position + count, first, false))
            case None => now == None
            case Some(message) =>
              now == if |message| <= cap then Search(source, whole, position, middle + 1, high, count, first, cap,
                                                     codec)
                     else Search(source, whole, position, low, middle - 1, best, first, cap, codec)
  {
  }

  lemma ProbesStep(source: Frame, whole: Chunk, position: nat, low: nat, high: nat, first: bool, cap: nat, codec: Codec)
    requires Cuttable(whole, position) && 0 < low <= high
    ensures var middle := (low + high) / 2;
            var count := Probe(whole, position, middle);
            var now := Probes(source, whole, position, low, high, first, cap, codec);
            match codec.encode(Piece(source, whole, position, position + count, first, false))
            case None => now == 1
            case Some(message) =>
              now == 1 + if |message| <= cap then Probes(source, whole, position, middle + 1, high, first, cap, codec)
                         else Probes(source, whole, position, low, middle - 1, first, cap, codec)
  {
  }

  lemma NoProbes(source: Frame, whole: Chunk, position: nat, low: nat, high: nat, first: bool, cap: nat, codec: Codec)
    requires Cuttable(whole, position) && 0 < low && high < low
    ensures Probes(source, whole, position, low, high, first, cap, codec) == 0
  {
  }

  lemma SearchStops(source: Frame, whole: Chunk, position: nat, low: nat, high: nat, best: nat,
                    first: bool, cap: nat, codec: Codec)
    requires Cuttable(whole, position) && position + best <= |whole.bytes| && Cuttable(whole, position + best)
    requires 0 < low && high < low
    ensures Search(source, whole, position, low, high, best, first, cap, codec) == Some(best)
  {
  }

  lemma ProbeIsFloor(whole: Chunk, position: nat, limit: nat)
    requires position <= |whole.bytes| && Cuttable(whole, position)
    ensures Probe(whole, position, limit)
      == Floor(whole.bytes, whole.text, Min(position + limit, |whole.bytes|)) - position
  {
  }

  /** `_largest_fitting_count`, counting the frames it encodes. */
  method LargestFittingCount(source: Frame, whole: Chunk, position: nat, ceiling: nat, first: bool, cap: nat,
                             codec: Codec)
    returns (best: Option<nat>, encodes: nat)
    requires position <= |whole.bytes| && Cuttable(whole, position)
    ensures best == Search(source, whole, position, 1, ceiling, 0, first, cap, codec)
    ensures encodes == Probes(source, whole, position, 1, ceiling, first, cap, codec)
    ensures best.Some? && SizesGrow(codec) ==>
      forall c: nat :: best.value < c <= ceiling ==> !MiddleFits(source, whole, position, c, first, cap, codec)
    ensures best.Some? && best.value != 0 ==> MiddleFits(source, whole, position, best.value, first, cap, codec)
  {
    hide IsBoundary, Piece, Probe, Floor, Search, Probes;
    var low: nat, high: nat, found: nat := 1, ceiling, 0;
    encodes := 0;
    while low <= high
      invariant 0 < low && low <= high + 1 && high <= ceiling
      invariant position + found <= |whole.bytes| && Cuttable(whole, position + found)
      invariant Search(source, whole, position, low, high, found, first, cap, codec)
             == Search(source, whole, position, 1, ceiling, 0, first, cap, codec)
      invariant encodes + Probes(source, whole, position, low, high, first, cap, codec)
             == Probes(source, whole, position, 1, ceiling, first, cap, codec)
      decreases high + 1 - low
    {
      var middle := (low + high) / 2;
      var cut := FloorBoundary(whole.bytes, Min(position + middle, |whole.bytes|), whole.text);
      ProbeIsFloor(whole, position, middle);
      var count: nat := cut - position;
      var probe := Piece(source, whole, position, position + count, first, false);
      encodes := encodes + 1;
      ProbesStep(source, whole, position, low, high, first, cap, codec);
      SearchStep(source, whole, position, low, high, found, first, cap, codec);
      match codec.encode(probe) {
        case None =>
          best := None;
          return;
        case Some(message) =>
          if |message| <= cap {
            found := count;
            low := middle + 1;
          } else {
            high := middle - 1;
          }
      }
    }
    best := Some(found);
    NoProbes(source, whole, position, low, high, first, cap, codec);
    SearchStops(source, whole, position, low, high, found, first, cap, codec);
    SearchFits(source, whole, position, 1, ceiling, 0, first, cap, codec);
    if SizesGrow(codec) {
      SearchIsLargest(source, whole, position, 1, ceiling, 0, ceiling, first, cap, codec);
    }
  }

  /** What is already yielded, then the rest. */
  function Onward(frames: seq<Frame>, rest: Split): Split {
    Split(frames + rest.frames, rest.error)
  }
  /** What follows a closing fragment that does not fit. */
  function AfterMiddle(source: Frame, whole: Chunk, position: nat, emitted: nat, cap: nat, codec: Codec): Split
    requires Resumable(Slicing(source, whole, position, emitted)) && position < |whole.bytes|
  {
    hide IsBoundary, MiddleCount, Piece, Drain;
    match MiddleCount(source, whole, position, emitted == 0, cap, codec)
    case Unencodable => Split([], Some(CodecRefused))
    case NoUnit => Split([], Some(UnitTooWide))
    case Count(count) =>
      Onward([Piece(source, whole, position, position + count, emitted == 0, false)],
             Drain(Slicing(source, whole, position + count, emitted + 1), cap, codec))
  }

  /** One pass of the generator's loop, as its list of frames sees it. */
  lemma SlicingStep(source: Frame, whole: Chunk, position: nat, emitted: nat, cap: nat, codec: Codec)
    requires Resumable(Slicing(source, whole, position, emitted)) && position <= |whole.bytes|
    ensures var first := emitted == 0;
            var closing := Closing(source, whole, position, first);
            var guard := |whole.bytes| - position <= cap;
            var now := Drain(Slicing(source, whole, position, emitted), cap, codec);
            if guard && codec.encode(closing).None? then now == Split([], Some(CodecRefused))
            else if guard && |codec.encode(closing).value| <= cap then now == Split([closing], None)
            else if |whole.bytes| <= position then now == Split([], Some(ClosingTooWide))
            else now == AfterMiddle(source, whole, position, emitted, cap, codec)
  {
    hide IsBoundary, MiddleCount, FragmentFrame;
    assert Drain(Finished, cap, codec) == Split([], None);
  }

  /** The generator's checks before its loop. */
  lemma StartStep(frame: Frame, cap: nat, codec: Codec)
    ensures var now := SplitFrame(frame, cap, codec);
            if cap < 2 then now == Split([], Some(CapTooSmall))
            else if codec.encode(frame).None? then now == Split([], Some(CodecRefused))
            else if |codec.encode(frame).value| <= cap then now == Split([frame], None)
            else if frame.payload.None? then now == Split([], Some(NothingToFragment))
            else
              match codec.encodePayload(frame.payload.value)
              case None => now == Split([], Some(CodecRefused))
              case Some(whole) => now == Drain(Slicing(frame, whole, 0, 0), cap, codec)
  {
    hide ResumeSlicing;
    assert Drain(Finished, cap, codec) == Split([], None);
  }

  /** `split_frame`: the generator run to its end. */
  method IterFragments(frame: Frame, cap: nat, codec: Codec) returns (frames: seq<Frame>, error: Option<SplitError>)
    ensures Split(frames, error) == SplitFrame(frame, cap, codec)
  {
    hide IsBoundary, MiddleCount, Piece, Drain, SplitFrame;
    StartStep(frame, cap, codec);
    frames, error := [], None;
    if cap < 2 {
      return [], Some(CapTooSmall);
    }
    var message := codec.encode(frame);
    if message.None? {
      return [], Some(CodecRefused);
    }
    if |message.value| <= cap {
      return [frame], None;
    }
    if frame.payload.None? {
      return [], Some(NothingToFragment);
    }
    var encoded := codec.encodePayload(frame.payload.value);
    if encoded.None? {
      return [], Some(CodecRefused);
    }
    var whole := encoded.value;
    var position, emitted, total := 0, 0, |whole.bytes|;
    EndsAreBoundaries(whole);
    while true
      invariant Resumable(Slicing(frame, whole, position, emitted))
      invariant Onward(frames, Drain(Slicing(frame, whole, position, emitted), cap, codec))
        == SplitFrame(frame, cap, codec)
      decreases total - position
    {
      var first := emitted == 0;
      BoundaryIsWithin(whole, position);
      SlicingStep(frame, whole, position, emitted, cap, codec);
      if total - position <= cap {
        var tail := Closing(frame, whole, position, first);
        var encodedTail := codec.encode(tail);
        if encodedTail.None? {
          return frames, Some(CodecRefused);
        }
        if |encodedTail.value| <= cap {
          return frames + [tail], None;
        }
      }
      if total <= position {
        return frames, Some(ClosingTooWide);
      }
      var count, failure := Middle(frame, whole, position, first, cap, codec);
      if failure.Some? {
        return frames, failure;
      }
      frames := frames + [Piece(frame, whole, position, position + count, first, false)];
      emitted := emitted + 1;
      position := position + count;
    }
  }

  /** One pass of the loop past the closing attempt: budget, floor, measure, re-split. */
  method Middle(frame: Frame, whole: Chunk, position: nat, first: bool, cap: nat, codec: Codec)
    returns (count: nat, failure: Option<SplitError>)
    requires position < |whole.bytes| && Cuttable(whole, position)
    ensures match MiddleCount(frame, whole, position, first, cap, codec)
            case Unencodable => failure == Some(CodecRefused)
            case NoUnit => failure == Some(UnitTooWide)
            case Count(n) => failure == None && count == n
  {
    hide IsBoundary, Floor, Probe, Ceiling, Search, Piece, Budget;
    var end := FloorBoundary(whole.bytes, Min(position + Budget(cap), |whole.bytes|), whole.text);
    ProbeIsFloor(whole, position, Budget(cap));
    if end == position {
      end := NextBoundary(whole.bytes, position, whole.text);
    }
    count := end - position;
    assert count == WithinBudget(whole, position, Budget(cap));
    failure := None;
    var candidate := codec.encode(Piece(frame, whole, position, position + count, first, false));
    if candidate.None? {
      return 0, Some(CodecRefused);
    }
    if cap < |candidate.value| {
      var best, _ := LargestFittingCount(frame, whole, position, count, first, cap, codec);
      if best.None? {
        return 0, Some(CodecRefused);
      }
      count := best.value;
      if count == 0 {
        return 0, Some(UnitTooWide);
      }
    }
  }
}
