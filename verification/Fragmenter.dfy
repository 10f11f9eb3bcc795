/** The splitter: a lazy generator that cuts a frame too large for the cap into fragment frames.

    The generator is a value that holds what the suspended source generator holds; `Resume` is one
    call of `next`.  Every offset is a byte offset into the encoded payload.
  */
module Fragmenter {
  import opened Frames
  import opened Utf8
  import opened Codecs

  function Min(a: int, b: int): int { if a <= b then a else b }

  function Max(a: int, b: int): int { if a <= b then b else a }

  function Reservation(cap: nat): nat { Min(512, cap / 2) }

  function Budget(cap: nat): nat { Max(1, cap - Reservation(cap)) }

  // ------------------------------------------------------------ boundaries

  /** The largest boundary at or below `cut`. */
  function Floor(data: seq<Byte>, text: bool, cut: nat): (r: nat)
    requires cut <= |data|
    ensures r <= cut && IsBoundary(data, text, r)
  {
    if text && 0 < cut < |data| && IsContinuation(data[cut]) then Floor(data, text, cut - 1) else cut
  }

  /** The smallest boundary at or above `cut`. */
  function Ceiling(data: seq<Byte>, text: bool, cut: nat): (r: nat)
    requires 0 < cut <= |data|
    ensures cut <= r && IsBoundary(data, text, r)
    decreases |data| - cut
  {
    if text && cut < |data| && IsContinuation(data[cut]) then Ceiling(data, text, cut + 1) else cut
  }

  /** Where the smallest fragment that begins at `start` may end. */
  function Next(data: seq<Byte>, text: bool, start: nat): (r: nat)
    requires start < |data|
    ensures start < r && IsBoundary(data, text, r)
  {
    Ceiling(data, text, start + 1)
  }

  /** No boundary lies between the floor of `cut` and `cut`. */
  lemma {:induction false} FloorIsLargest(data: seq<Byte>, text: bool, cut: nat, b: nat)
    requires cut <= |data| && b <= cut && IsBoundary(data, text, b)
    ensures b <= Floor(data, text, cut)
  {
    if text && 0 < cut < |data| && IsContinuation(data[cut]) {
      FloorIsLargest(data, text, cut - 1, b);
    }
  }

  /** No boundary lies between `start` and the next one. */
  lemma NextIsFirst(data: seq<Byte>, text: bool, start: nat, b: nat)
    requires start < b <= |data| && IsBoundary(data, text, b)
    ensures Next(data, text, start) <= b
  {
    CeilingIsSmallest(data, text, start + 1, b);
  }

  lemma {:induction false} CeilingIsSmallest(data: seq<Byte>, text: bool, cut: nat, b: nat)
    requires 0 < cut <= b <= |data| && IsBoundary(data, text, b)
    ensures Ceiling(data, text, cut) <= b
    decreases |data| - cut
  {
    if text && cut < |data| && IsContinuation(data[cut]) {
      CeilingIsSmallest(data, text, cut + 1, b);
    }
  }

  function Slice(whole: Chunk, start: nat, stop: nat): (piece: Chunk)
    requires start <= stop <= |whole.bytes|
  {
    Chunk(whole.text, whole.bytes[start..stop])
  }

  predicate Cuttable(whole: Chunk, position: int) {
    IsBoundary(whole.bytes, whole.text, position)
  }

  // ------------------------------------------------------------ fragment frames

  /** One fragment of `source`: headers ride the first, `end` and trailers the last, `more` every other. */
  function FragmentFrame(source: Frame, chunk: Chunk, first: bool, last: bool): Frame {
    Frame(source.kind, source.stream, None, Some(chunk), !last,
          if first then source.headers else None,
          last && source.end,
          if last then source.trailers else None,
          source.code, source.reason, source.nonce, source.lastStream)
  }

  /** The fragment of `source` that carries the bytes from `start` to `stop`. */
  function Piece(source: Frame, whole: Chunk, start: nat, stop: nat, first: bool, last: bool): Frame
    requires start <= stop <= |whole.bytes|
  {
    FragmentFrame(source, Slice(whole, start, stop), first, last)
  }

  /** The fragment that closes the sequence when everything from `position` on rides it. */
  function Closing(source: Frame, whole: Chunk, position: nat, first: bool): Frame
    requires position <= |whole.bytes|
  {
    Piece(source, whole, position, |whole.bytes|, first, true)
  }

  // ------------------------------------------------------------ the re-split search

  datatype Count = Count(bytes: nat) | NoUnit | Unencodable

  /** The width a probe of `limit` bytes at `position` really cuts. */
  function Probe(whole: Chunk, position: nat, limit: nat): (count: nat)
    requires Cuttable(whole, position)
    ensures count <= limit && position + count <= |whole.bytes| && Cuttable(whole, position + count)
  {
    FloorIsLargest(whole.bytes, whole.text, Min(position + limit, |whole.bytes|), position);
    Floor(whole.bytes, whole.text, Min(position + limit, |whole.bytes|)) - position
  }

  /** `count` bytes from `position` end at a boundary. */
  predicate Reaches(whole: Chunk, position: nat, count: nat) {
    position + count <= |whole.bytes| && Cuttable(whole, position + count)
  }

  predicate Cuts(whole: Chunk, position: nat, count: nat) {
    0 < count && Reaches(whole, position, count)
  }

  /** How long the middle fragment of `count` bytes at `position` encodes. */
  function SliceSize(source: Frame, whole: Chunk, position: nat, count: nat, first: bool, codec: Codec): Option<nat>
    requires position + count <= |whole.bytes|
  {
    Size(codec, Piece(source, whole, position, position + count, first, false))
  }

  /** The bisection over byte limits.  `None` when an encode raised. */
  function Search(source: Frame, whole: Chunk, position: nat, low: nat, high: nat, best: nat,
                  first: bool, cap: nat, codec: Codec): (r: Option<nat>)
    requires Cuttable(whole, position) && position + best <= |whole.bytes| && Cuttable(whole, position + best)
    requires 0 < low
    ensures r.Some? ==> Reaches(whole, position, r.value)
    decreases high + 1 - low
  {
    hide Cuttable, Probe, SliceSize;
    if high < low then Some(best)
    else
      var middle := (low + high) / 2;
      var count := Probe(whole, position, middle);
      var size := SliceSize(source, whole, position, count, first, codec);
      if size.None? then None
      else if size.value <= cap then Search(source, whole, position, middle + 1, high, count, first, cap, codec)
      else Search(source, whole, position, low, middle - 1, best, first, cap, codec)
  }

  /** The slice a middle fragment tries first: what the budget holds, and never less than one unit. */
  function WithinBudget(whole: Chunk, position: nat, budget: nat): (count: nat)
    requires position < |whole.bytes| && Cuttable(whole, position)
    ensures 0 < count && position + count <= |whole.bytes| && Cuttable(whole, position + count)
  {
    var floored := Probe(whole, position, budget);
    if floored == 0 then Next(whole.bytes, whole.text, position) - position else floored
  }

  /** How many bytes the middle fragment at `position` takes. */
  function MiddleCount(source: Frame, whole: Chunk, position: nat, first: bool, cap: nat, codec: Codec): (r: Count)
    requires position < |whole.bytes| && Cuttable(whole, position)
    ensures r.Count? ==> Cuts(whole, position, r.bytes)
  {
    hide Resplit, SliceSize, IsBoundary, WithinBudget, Budget;
    var count := WithinBudget(whole, position, Budget(cap));
    var size := SliceSize(source, whole, position, count, first, codec);
    if size.None? then Unencodable
    else if size.value <= cap then Count(count)
    else Resplit(source, whole, position, count, first, cap, codec)
  }

  /** The middle fragment of `ceiling` bytes measured too long: the largest one below it that fits. */
  function Resplit(source: Frame, whole: Chunk, position: nat, ceiling: nat, first: bool, cap: nat,
                   codec: Codec): (r: Count)
    requires position <= |whole.bytes| && Cuttable(whole, position)
    ensures r.Count? ==> Cuts(whole, position, r.bytes)
  {
    hide Search;
    match Search(source, whole, position, 1, ceiling, 0, first, cap, codec)
    case None => Unencodable
    case Some(found) => if found == 0 then NoUnit else Count(found)
  }

  // ------------------------------------------------------------ the generator

  datatype SplitError = CapTooSmall | CodecRefused | NothingToFragment | UnitTooWide | ClosingTooWide

  datatype GeneratorState =
    | Start(source: Frame)
    | Slicing(source: Frame, whole: Chunk, position: nat, emitted: nat)
    | Finished

  predicate Resumable(g: GeneratorState) {
    g.Slicing? ==> Cuttable(g.whole, g.position) && (g.emitted == 0 <==> g.position == 0)
  }

  type Generator = g: GeneratorState | Resumable(g) witness Finished

  datatype Resumed = Yield(frame: Frame, rest: Generator) | Stop | Raise(error: SplitError)

  /** One call of `next`. */
  function Resume(g: Generator, cap: nat, codec: Codec): Resumed {
    match g
    case Finished => Stop
    case Start(source) => ResumeStart(source, cap, codec)
    case Slicing(source, whole, position, emitted) => ResumeSlicing(source, whole, position, emitted, cap, codec)
  }

  function ResumeStart(source: Frame, cap: nat, codec: Codec): Resumed {
    if cap < 2 then Raise(CapTooSmall)
    else
      match Size(codec, source)
      case None => Raise(CodecRefused)
      case Some(size) =>
        if size <= cap then Yield(source, Finished)
        else if source.payload.None? then Raise(NothingToFragment)
        else
          match codec.encodePayload(source.payload.value)
          case None => Raise(CodecRefused)
          case Some(whole) => ResumeSlicing(source, whole, 0, 0, cap, codec)
  }

  function ResumeSlicing(source: Frame, whole: Chunk, position: nat, emitted: nat, cap: nat, codec: Codec): Resumed
    requires Resumable(Slicing(source, whole, position, emitted))
  {
    hide MiddleCount, FragmentFrame, Slice;
    var total := |whole.bytes|;
    var first := emitted == 0;
    // No closing fragment is shorter than the remainder it carries.
    if total - position <= cap && Size(codec, Closing(source, whole, position, first)).None? then Raise(CodecRefused)
    else if total - position <= cap && Size(codec, Closing(source, whole, position, first)).value <= cap then
      Yield(Closing(source, whole, position, first), Finished)
    else if total <= position then Raise(ClosingTooWide)
    else
      match MiddleCount(source, whole, position, first, cap, codec)
      case Unencodable => Raise(CodecRefused)
      case NoUnit => Raise(UnitTooWide)
      case Count(count) => Handed(source, whole, position, emitted, count)
  }

  /** A middle fragment of `count` bytes leaves the generator past those bytes. */
  function Handed(source: Frame, whole: Chunk, position: nat, emitted: nat, count: nat): Resumed
    requires 0 < count && position + count <= |whole.bytes| && Cuttable(whole, position + count)
  {
    Yield(Piece(source, whole, position, position + count, emitted == 0, false),
          Slicing(source, whole, position + count, emitted + 1))
  }

  // ------------------------------------------------------------ draining

  /** The frames a generator yields until it stops, or until it raises. */
  datatype Split = Split(frames: seq<Frame>, error: Option<SplitError>)

  function Remaining(g: Generator): nat {
    match g
    case Start(_) => 0
    case Slicing(_, whole, position, _) => |whole.bytes| - position + 1
    case Finished => 0
  }

  function Rank(g: Generator): nat {
    if g.Start? then 2 else if g.Slicing? then 1 else 0
  }

  function Drain(g: Generator, cap: nat, codec: Codec): Split
    decreases Rank(g), Remaining(g)
  {
    match Resume(g, cap, codec)
    case Stop => Split([], None)
    case Raise(error) => Split([], Some(error))
    case Yield(frame, rest) =>
      var tail := Drain(rest, cap, codec);
      Split([frame] + tail.frames, tail.error)
  }

  /** `split_frame`. */
  function SplitFrame(frame: Frame, cap: nat, codec: Codec): Split {
    Drain(Start(frame), cap, codec)
  }
}
