/** What the splitter guarantees: it rejects a frame only when no cutting fits, and what it cuts can be
    put together again. */
module SplitLaws {
  import opened Frames
  import opened Utf8
  import opened Codecs
  import opened Fragmenter

  // ------------------------------------------------------------ laws of the codec's lengths

  /** A slice within a slice, without headers or with the same, encodes to no more bytes. */
  ghost predicate Grows(codec: Codec, source: Frame, whole: Chunk, a: nat, b: nat, a': nat, b': nat,
                        first: bool, first': bool, last: bool)
  {
    && a' <= a <= b <= b' <= |whole.bytes|
    && (first ==> first')
    && Size(codec, Piece(source, whole, a', b', first', last)).Some?
    ==>
    && Size(codec, Piece(source, whole, a, b, first, last)).Some?
    && Size(codec, Piece(source, whole, a, b, first, last)).value
       <= Size(codec, Piece(source, whole, a', b', first', last)).value
  }

  ghost predicate SizesGrow(codec: Codec) {
    forall source, whole, a: nat, b: nat, a': nat, b': nat, first, first', last ::
      Grows(codec, source, whole, a, b, a', b', first, first', last)
  }

  /** The law the guard on the closing encode rests on. */
  ghost predicate Covers(codec: Codec, source: Frame, whole: Chunk, a: nat, b: nat, first: bool, last: bool) {
    a <= b <= |whole.bytes| && Size(codec, Piece(source, whole, a, b, first, last)).Some? ==>
      b - a <= Size(codec, Piece(source, whole, a, b, first, last)).value
  }

  ghost predicate SizesCover(codec: Codec) {
    forall source, whole, a: nat, b: nat, first, last :: Covers(codec, source, whole, a, b, first, last)
  }

  /** Every fragment of a frame that encodes, encodes. */
  ghost predicate FragmentsEncode(codec: Codec, source: Frame, whole: Chunk) {
    forall a: nat, b: nat, first, last {:trigger Piece(source, whole, a, b, first, last)} ::
      a <= b <= |whole.bytes| ==> Size(codec, Piece(source, whole, a, b, first, last)).Some?
  }

  ghost predicate Measured(codec: Codec) {
    && SizesGrow(codec)
    && SizesCover(codec)
    && forall source, whole ::
         Size(codec, source).Some? && source.payload.Some? && codec.encodePayload(source.payload.value) == Some(whole)
         ==> FragmentsEncode(codec, source, whole)
  }

  predicate Fits(codec: Codec, frame: Frame, cap: nat) {
    Size(codec, frame).Some? && Size(codec, frame).value <= cap
  }

  lemma SmallerFits(codec: Codec, source: Frame, whole: Chunk, a: nat, b: nat, a': nat, b': nat,
                    first: bool, first': bool, last: bool, cap: nat)
    requires SizesGrow(codec) && a' <= a <= b <= b' <= |whole.bytes| && (first ==> first')
    requires Fits(codec, Piece(source, whole, a', b', first', last), cap)
    ensures Fits(codec, Piece(source, whole, a, b, first, last), cap)
  {
    assert Grows(codec, source, whole, a, b, a', b', first, first', last);
  }

  // ------------------------------------------------------------ the re-split search

  predicate Aligned(whole: Chunk, position: nat, count: nat) {
    Cuttable(whole, position + count)
  }

  predicate MiddleFits(source: Frame, whole: Chunk, position: nat, count: nat, first: bool, cap: nat, codec: Codec) {
    && position + count <= |whole.bytes|
    && Aligned(whole, position, count)
    && Fits(codec, Piece(source, whole, position, position + count, first, false), cap)
  }

  /** What the bisection keeps: everything aligned below `low` is at most `best`, nothing aligned above
      `high` fits, and `best` fits or is empty. */
  ghost predicate Bisecting(source: Frame, whole: Chunk, position: nat, low: nat, high: nat, best: nat,
                            ceiling: nat, first: bool, cap: nat, codec: Codec)
  {
    && (best == 0 || MiddleFits(source, whole, position, best, first, cap, codec))
    && (forall c: nat :: c < low && Aligned(whole, position, c) ==> c <= best)
    && (forall c: nat :: high < c <= ceiling ==> !MiddleFits(source, whole, position, c, first, cap, codec))
  }

  lemma ProbeIsLargest(whole: Chunk, position: nat, limit: nat, c: nat)
    requires Cuttable(whole, position) && c <= limit && Aligned(whole, position, c)
    ensures c <= Probe(whole, position, limit)
  {
    FloorIsLargest(whole.bytes, whole.text, Min(position + limit, |whole.bytes|), position + c);
  }

  /** The search returns the largest aligned slice up to its ceiling that fits, 0 when none does. */
  lemma {:induction false} SearchIsLargest(source: Frame, whole: Chunk, position: nat, low: nat, high: nat, best: nat,
                                           ceiling: nat, first: bool, cap: nat, codec: Codec)
    requires SizesGrow(codec)
    requires Cuttable(whole, position) && position + best <= |whole.bytes| && Cuttable(whole, position + best)
    requires 0 < low && high <= ceiling
    requires Bisecting(source, whole, position, low, high, best, ceiling, first, cap, codec)
    requires Search(source, whole, position, low, high, best, first, cap, codec).Some?
    ensures var found := Search(source, whole, position, low, high, best, first, cap, codec).value;
            && (found == 0 || MiddleFits(source, whole, position, found, first, cap, codec))
            && (forall c: nat :: found < c <= ceiling ==> !MiddleFits(source, whole, position, c, first, cap, codec))
    decreases high + 1 - low
  {
    hide IsBoundary, Piece, Probe;
    if low <= high {
      var middle := (low + high) / 2;
      var count := Probe(whole, position, middle);
      var probe := Piece(source, whole, position, position + count, first, false);
      forall c: nat | c <= middle && Aligned(whole, position, c)
        ensures c <= count
      {
        ProbeIsLargest(whole, position, middle, c);
      }
      if Size(codec, probe).value <= cap {
        SearchIsLargest(source, whole, position, middle + 1, high, count, ceiling, first, cap, codec);
      } else {
        forall c: nat | middle - 1 < c <= ceiling
          ensures !MiddleFits(source, whole, position, c, first, cap, codec)
        {
          if MiddleFits(source, whole, position, c, first, cap, codec) {
            SmallerFits(codec, source, whole, position, position + count, position, position + c, first, first, false,
                        cap);
          }
        }
        SearchIsLargest(source, whole, position, low, middle - 1, best, ceiling, first, cap, codec);
      }
    }
  }

  /** The search over a ceiling of at least one unit returns 0 exactly when that unit does not fit. */
  lemma SearchFindsNothingIff(source: Frame, whole: Chunk, position: nat, ceiling: nat, first: bool, cap: nat,
                              codec: Codec)
    requires SizesGrow(codec)
    requires position < |whole.bytes| && Cuttable(whole, position)
    requires Next(whole.bytes, whole.text, position) - position <= ceiling
    requires Search(source, whole, position, 1, ceiling, 0, first, cap, codec).Some?
    ensures var unit := Next(whole.bytes, whole.text, position) - position;
            Search(source, whole, position, 1, ceiling, 0, first, cap, codec) == Some(0)
            <==> !MiddleFits(source, whole, position, unit, first, cap, codec)
  {
    hide IsBoundary, Piece, Search, Ceiling;
    var found := Search(source, whole, position, 1, ceiling, 0, first, cap, codec).value;
    var unit := Next(whole.bytes, whole.text, position) - position;
    SearchIsLargest(source, whole, position, 1, ceiling, 0, ceiling, first, cap, codec);
    if found != 0 {
      NextIsFirst(whole.bytes, whole.text, position, position + found);
      SmallerFits(codec, source, whole, position, position + unit, position, position + found, first, first, false,
                  cap);
    }
  }

  // ------------------------------------------------------------ rejection is exact

  lemma BoundaryIsWithin(whole: Chunk, position: int)
    requires Cuttable(whole, position)
    ensures 0 <= position <= |whole.bytes|
  {
  }

  lemma EndsAreBoundaries(whole: Chunk)
    ensures Cuttable(whole, 0) && Cuttable(whole, |whole.bytes|)
  {
  }

  /** `cuts` lists where the fragments from `position` on end, but for the last, which ends with the
      data.  Every fragment but the last is non-empty, ends on a boundary and fits; so does the last,
      which may be empty. */
  ghost predicate Cutting(source: Frame, whole: Chunk, position: nat, cuts: seq<nat>, cap: nat, codec: Codec)
    requires position <= |whole.bytes|
    decreases |cuts|
  {
    if cuts == [] then Fits(codec, Closing(source, whole, position, position == 0), cap)
    else
      && position < cuts[0] <= |whole.bytes|
      && Cuttable(whole, cuts[0])
      && Fits(codec, Piece(source, whole, position, cuts[0], position == 0, false), cap)
      && Cutting(source, whole, cuts[0], cuts[1..], cap, codec)
  }

  /** Where some cutting fits, the next unit or everything that is left fits from any boundary on. */
  lemma {:induction false} CuttingLeavesRoom(source: Frame, whole: Chunk, q: nat, cuts: seq<nat>, p: nat, cap: nat,
                                             codec: Codec)
    requires SizesGrow(codec) && q <= p <= |whole.bytes| && Cuttable(whole, p)
    requires Cutting(source, whole, q, cuts, cap, codec)
    ensures
      || Fits(codec, Closing(source, whole, p, p == 0), cap)
      || (p < |whole.bytes|
          && Fits(codec, Piece(source, whole, p, Next(whole.bytes, whole.text, p), p == 0, false), cap))
    decreases |cuts|
  {
    if cuts == [] {
      SmallerFits(codec, source, whole, p, |whole.bytes|, q, |whole.bytes|, p == 0, q == 0, true, cap);
    } else if cuts[0] <= p {
      CuttingLeavesRoom(source, whole, cuts[0], cuts[1..], p, cap, codec);
    } else {
      var next := Next(whole.bytes, whole.text, p);
      NextIsFirst(whole.bytes, whole.text, p, cuts[0]);
      SmallerFits(codec, source, whole, p, next, q, cuts[0], p == 0, q == 0, false, cap);
    }
  }

  /** The budgeted slice holds at least one unit. */
  lemma BudgetHoldsAUnit(whole: Chunk, position: nat, budget: nat)
    requires position < |whole.bytes| && Cuttable(whole, position)
    ensures Next(whole.bytes, whole.text, position) <= position + WithinBudget(whole, position, budget)
  {
    NextIsFirst(whole.bytes, whole.text, position, position + WithinBudget(whole, position, budget));
  }

  /** Where one unit fits, a middle fragment is found. */
  lemma MiddleFound(source: Frame, whole: Chunk, position: nat, cap: nat, codec: Codec)
    requires SizesGrow(codec) && FragmentsEncode(codec, source, whole)
    requires position < |whole.bytes| && Cuttable(whole, position)
    requires Fits(codec, Piece(source, whole, position, Next(whole.bytes, whole.text, position), position == 0, false),
                  cap)
    ensures MiddleCount(source, whole, position, position == 0, cap, codec).Count?
  {
    hide Floor;
    var first := position == 0;
    var count := WithinBudget(whole, position, Budget(cap));
    BudgetHoldsAUnit(whole, position, Budget(cap));
    assert Size(codec, Piece(source, whole, position, position + count, first, false)).Some?;
    SearchEncodes(source, whole, position, 1, count, 0, first, cap, codec);
    SearchFindsNothingIff(source, whole, position, count, first, cap, codec);
  }

  lemma {:induction false} SearchEncodes(source: Frame, whole: Chunk, position: nat, low: nat, high: nat, best: nat,
                                         first: bool, cap: nat, codec: Codec)
    requires FragmentsEncode(codec, source, whole)
    requires Cuttable(whole, position) && position + best <= |whole.bytes| && Cuttable(whole, position + best)
    requires 0 < low
    ensures Search(source, whole, position, low, high, best, first, cap, codec).Some?
    decreases high + 1 - low
  {
    hide Cuttable, Probe, Size, FragmentFrame, Slice;
    if low <= high {
      var middle := (low + high) / 2;
      var count := Probe(whole, position, middle);
      var probe := Piece(source, whole, position, position + count, first, false);
      assert Size(codec, probe).Some?;
      if Size(codec, probe).value <= cap {
        SearchEncodes(source, whole, position, middle + 1, high, count, first, cap, codec);
      } else {
        SearchEncodes(source, whole, position, low, middle - 1, best, first, cap, codec);
      }
    }
  }

  /** From a generator that is past the first checks, no error when some cutting fits. */
  lemma {:induction false} CuttingIsFound(source: Frame, whole: Chunk, cuts: seq<nat>, position: nat, emitted: nat,
                                          cap: nat, codec: Codec)
    requires SizesGrow(codec) && SizesCover(codec) && FragmentsEncode(codec, source, whole)
    requires Cutting(source, whole, 0, cuts, cap, codec)
    requires Resumable(Slicing(source, whole, position, emitted))
    ensures Drain(Slicing(source, whole, position, emitted), cap, codec).error.None?
    decreases |whole.bytes| - position
  {
    hide IsBoundary, Cutting, MiddleCount;
    var first := emitted == 0;
    assert position <= |whole.bytes| by { BoundaryIsWithin(whole, position); }
    CuttingLeavesRoom(source, whole, 0, cuts, position, cap, codec);
    assert Covers(codec, source, whole, position, |whole.bytes|, first, true);
    if !Fits(codec, Closing(source, whole, position, first), cap) {
      MiddleFound(source, whole, position, cap, codec);
      var count := MiddleCount(source, whole, position, first, cap, codec).bytes;
      CuttingIsFound(source, whole, cuts, position + count, emitted + 1, cap, codec);
    }
  }

  /** What a generator yields without an error is a cutting. */
  lemma {:induction false} DrainIsCutting(source: Frame, whole: Chunk, position: nat, emitted: nat, cap: nat,
                                          codec: Codec)
    returns (cuts: seq<nat>)
    requires Resumable(Slicing(source, whole, position, emitted))
    requires Drain(Slicing(source, whole, position, emitted), cap, codec).error.None?
    ensures Cutting(source, whole, position, cuts, cap, codec)
    decreases |whole.bytes| - position
  {
    hide IsBoundary, MiddleCount, FragmentFrame;
    BoundaryIsWithin(whole, position);
    var first := emitted == 0;
    match ResumeSlicing(source, whole, position, emitted, cap, codec)
    case Yield(frame, rest) =>
      if rest == Finished {
        cuts := [];
        assert Cutting(source, whole, position, [], cap, codec);
      } else {
        var count := MiddleCount(source, whole, position, first, cap, codec).bytes;
        MiddleCountFits(source, whole, position, first, cap, codec);
        var tail := DrainIsCutting(source, whole, position + count, emitted + 1, cap, codec);
        cuts := [position + count] + tail;
      }
  }

  lemma MiddleCountFits(source: Frame, whole: Chunk, position: nat, first: bool, cap: nat, codec: Codec)
    requires position < |whole.bytes| && Cuttable(whole, position)
    requires MiddleCount(source, whole, position, first, cap, codec).Count?
    ensures var count := MiddleCount(source, whole, position, first, cap, codec).bytes;
            Fits(codec, Piece(source, whole, position, position + count, first, false), cap)
  {
    var count := WithinBudget(whole, position, Budget(cap));
    var size := Size(codec, Piece(source, whole, position, position + count, first, false)).value;
    if cap < size {
      SearchFits(source, whole, position, 1, count, 0, first, cap, codec);
    }
  }

  lemma {:induction false} SearchFits(source: Frame, whole: Chunk, position: nat, low: nat, high: nat, best: nat,
                                      first: bool, cap: nat, codec: Codec)
    requires Cuttable(whole, position) && position + best <= |whole.bytes| && Cuttable(whole, position + best)
    requires 0 < low && (best == 0 || MiddleFits(source, whole, position, best, first, cap, codec))
    requires Search(source, whole, position, low, high, best, first, cap, codec).Some?
    ensures var found := Search(source, whole, position, low, high, best, first, cap, codec).value;
            found == 0 || MiddleFits(source, whole, position, found, first, cap, codec)
    decreases high + 1 - low
  {
    hide IsBoundary, Piece, Probe;
    if low <= high {
      var middle := (low + high) / 2;
      var count := Probe(whole, position, middle);
      if Size(codec, Piece(source, whole, position, position + count, first, false)).value <= cap {
        SearchFits(source, whole, position, middle + 1, high, count, first, cap, codec);
      } else {
        SearchFits(source, whole, position, low, middle - 1, best, first, cap, codec);
      }
    }
  }

  /** A frame over the cap that carries a payload is split exactly when some cutting fits the cap. */
  lemma SplitsIffSomeCuttingFits(frame: Frame, whole: Chunk, cap: nat, codec: Codec)
    requires Measured(codec) && 2 <= cap
    requires Size(codec, frame).Some? && cap < Size(codec, frame).value
    requires frame.payload.Some? && codec.encodePayload(frame.payload.value) == Some(whole)
    ensures SplitFrame(frame, cap, codec).error.None?
            <==> exists cuts :: Cutting(frame, whole, 0, cuts, cap, codec)
  {
    assert FragmentsEncode(codec, frame, whole);
    var g: Generator := Slicing(frame, whole, 0, 0);
    assert SplitFrame(frame, cap, codec) == Drain(g, cap, codec);
    if SplitFrame(frame, cap, codec).error.None? {
      var cuts := DrainIsCutting(frame, whole, 0, 0, cap, codec);
    }
    if cuts :| Cutting(frame, whole, 0, cuts, cap, codec) {
      CuttingIsFound(frame, whole, cuts, 0, 0, cap, codec);
    }
  }

  // ------------------------------------------------------------ no smaller pieces than need be

  /** A frame goes out whole exactly when it fits. */
  lemma WholeIffItFits(frame: Frame, cap: nat, codec: Codec)
    requires 2 <= cap
    ensures SplitFrame(frame, cap, codec) == Split([frame], None) <==> Fits(codec, frame, cap)
  {
    hide ResumeSlicing;
    if Fits(codec, frame, cap) {
      assert Drain(Finished, cap, codec) == Split([], None);
    } else if frame.payload.Some? && codec.encodePayload(frame.payload.value).Some? && Size(codec, frame).Some? {
      var whole := codec.encodePayload(frame.payload.value).value;
      var g: Generator := Slicing(frame, whole, 0, 0);
      assert SplitFrame(frame, cap, codec) == Drain(g, cap, codec);
      FragmentsAreFragments(frame, whole, 0, 0, cap, codec);
      var resumed := Resume(g, cap, codec);
      if resumed.Yield? {
        var tail := Drain(resumed.rest, cap, codec);
        assert Drain(g, cap, codec) == Split([resumed.frame] + tail.frames, tail.error);
        assert Drain(g, cap, codec).frames[0] == resumed.frame;
      }
    }
  }

  lemma FragmentsAreFragments(source: Frame, whole: Chunk, position: nat, emitted: nat, cap: nat, codec: Codec)
    requires Resumable(Slicing(source, whole, position, emitted))
    ensures ResumeSlicing(source, whole, position, emitted, cap, codec).Yield? ==>
              ResumeSlicing(source, whole, position, emitted, cap, codec).frame.payload.None?
  {
    hide MiddleCount, Cuttable;
  }

  /** The closing fragment is sent as soon as it fits, and no middle one in its place. */
  lemma ClosesAsSoonAsItFits(source: Frame, whole: Chunk, position: nat, emitted: nat, cap: nat, codec: Codec)
    requires SizesCover(codec) && Resumable(Slicing(source, whole, position, emitted)) && position <= |whole.bytes|
    requires ResumeSlicing(source, whole, position, emitted, cap, codec).Yield?
    ensures ResumeSlicing(source, whole, position, emitted, cap, codec).rest.Finished?
      <==> Fits(codec, Closing(source, whole, position, emitted == 0), cap)
  {
    hide MiddleCount, Cuttable, Piece;
    assert Covers(codec, source, whole, position, |whole.bytes|, emitted == 0, true);
  }

  /** What a middle fragment may try: one unit, or what leaves half of the cap, and no more than 512 bytes of it, for
      the envelope. */
  predicate LeavesTheReserve(count: nat, cap: nat) {
    count <= 1 || count + (if cap < 1024 then cap / 2 else 512) <= cap
  }

  /** A middle fragment is the largest aligned slice that leaves the reserve and fits: or the one unit that does not. */
  lemma MiddleIsLargest(source: Frame, whole: Chunk, position: nat, first: bool, cap: nat, codec: Codec)
    requires SizesGrow(codec) && position < |whole.bytes| && Cuttable(whole, position)
    requires MiddleCount(source, whole, position, first, cap, codec).Count?
    ensures var n := MiddleCount(source, whole, position, first, cap, codec).bytes;
            && MiddleFits(source, whole, position, n, first, cap, codec)
            && (LeavesTheReserve(n, cap) || position + n == Next(whole.bytes, whole.text, position))
            && (forall c: nat :: n < c && LeavesTheReserve(c, cap) ==>
                  !MiddleFits(source, whole, position, c, first, cap, codec))
  {
    hide IsBoundary, Piece, Search, Ceiling, Probe;
    var count := WithinBudget(whole, position, Budget(cap));
    BudgetLeaves(cap);
    WithinIsLargest(whole, position, Budget(cap));
    MiddleCountFits(source, whole, position, first, cap, codec);
    var n := MiddleCount(source, whole, position, first, cap, codec).bytes;
    NextIsFirst(whole.bytes, whole.text, position, position + n);
    if n != count {
      SearchIsLargest(source, whole, position, 1, count, 0, count, first, cap, codec);
      SearchStaysWithin(source, whole, position, 1, count, 0, first, cap, codec);
      if LeavesTheReserve(count, cap) {
        ReserveIsDownward(n, count, cap);
      }
    }
  }

  lemma {:induction false} SearchStaysWithin(source: Frame, whole: Chunk, position: nat, low: nat, high: nat, best: nat,
                                             first: bool, cap: nat, codec: Codec)
    requires Cuttable(whole, position) && position + best <= |whole.bytes| && Cuttable(whole, position + best)
    requires 0 < low && Search(source, whole, position, low, high, best, first, cap, codec).Some?
    ensures var found := Search(source, whole, position, low, high, best, first, cap, codec).value;
            found <= best || found <= high
    decreases high + 1 - low
  {
    hide IsBoundary, Piece, Probe;
    if low <= high {
      var middle := (low + high) / 2;
      var count := Probe(whole, position, middle);
      if Size(codec, Piece(source, whole, position, position + count, first, false)).value <= cap {
        SearchStaysWithin(source, whole, position, middle + 1, high, count, first, cap, codec);
      } else {
        SearchStaysWithin(source, whole, position, low, middle - 1, best, first, cap, codec);
      }
    }
  }

  lemma BudgetLeaves(cap: nat)
    ensures forall c: nat :: c <= Budget(cap) <==> LeavesTheReserve(c, cap)
  {
  }

  lemma ReserveIsDownward(n: nat, m: nat, cap: nat)
    requires n <= m && LeavesTheReserve(m, cap)
    ensures LeavesTheReserve(n, cap)
  {
  }

  /** The slice that is tried first is the largest aligned one within the budget, or one unit when none is. */
  lemma WithinIsLargest(whole: Chunk, position: nat, budget: nat)
    requires position < |whole.bytes| && Cuttable(whole, position)
    ensures var count := WithinBudget(whole, position, budget);
            && (count <= budget || position + count == Next(whole.bytes, whole.text, position))
            && forall c: nat ::
                  c <= budget && position + c <= |whole.bytes| && Aligned(whole, position, c) ==> c <= count
  {
    hide IsBoundary, Ceiling;
    forall c: nat | c <= budget && position + c <= |whole.bytes| && Aligned(whole, position, c)
      ensures c <= Probe(whole, position, budget)
    {
      ProbeIsLargest(whole, position, budget, c);
    }
  }
}
