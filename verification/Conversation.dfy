/** One direction of one stream: what a receiver makes of the frames still on their way to it, and how that
    is tied to what the sender has said.  `HearAll` looks ahead: what the receiver will have heard once
    every frame on the wire and in the sender's lane has arrived. */
module Conversation {
  import opened Frames
  import opened Codecs
  import opened Fragmenter
  import opened Assembly
  import opened WriterModel

  // ------------------------------------------------------------ listening

  /** One side of a stream as the other has heard it, or as it has spoken. */
  datatype View = View(partial: Partial, opening: bool, ended: bool, values: seq<Value>, begun: bool,
                       headers: Option<Fields>, trailers: Option<Fields>)

  const FRESH := View(NOTHING, false, false, [], false, None, None)

  /** The leading headers ride the first frame. */
  function HeadersAfter(v: View, f: Frame): Option<Fields> {
    if !v.begun && f.headers.Some? then f.headers else v.headers
  }

  /** The trailers ride the frame that ends. */
  function TrailersAfter(v: View, f: Frame): Option<Fields> {
    if f.kind == DataFrame && f.end && f.trailers.Some? then f.trailers else v.trailers
  }

  /** `done`: the listener has ended its own side, so it is deaf once it has heard the other's end.  `Broken` is a
      frame no correct sender sends: it would be answered with a protocol error. */
  datatype Ear = Unseen | Hearing(view: View, done: bool) | Silenced(values: seq<Value>) | Broken

  /** It makes nothing more of whatever comes. */
  predicate Stopped(e: Ear) {
    e.Silenced? || (e.Hearing? && e.done && e.view.ended && !e.view.opening)
  }

  function By(e: Ear, done: bool): Ear {
    if e.Hearing? then e.(done := done) else e
  }

  function HearChunk(v: View, f: Frame, codec: Codec): (e: Ear)
    ensures (e.Hearing? && !e.done) || e.Broken?
  {
    if f.more && f.end then Broken
    else
      match Feed(v.partial, f, codec)
      case (partial, Pending) => Hearing(v.(partial := partial), false)
      case (partial, Decoded(x)) =>
        Hearing(v.(partial := partial, opening := false, ended := f.end, values := v.values + [x],
                   trailers := TrailersAfter(v, f)), false)
      case (_, Malformed) => Broken
  }

  function HearOpen(e: Ear, f: Frame, codec: Codec): Ear {
    match e
    case Unseen =>
      if f.fragment.Some? then HearChunk(View(NOTHING, true, false, [], true, f.headers, None), f, codec)
      else Hearing(View(NOTHING, false, f.end, [if f.payload.Some? then f.payload.value else Null], true, f.headers,
                        None), false)
    case Hearing(v, done) => if v.opening && f.fragment.Some? then By(HearChunk(v, f, codec), done) else Broken
    case _ => Broken
  }

  function HearData(v: View, f: Frame, codec: Codec): (e: Ear)
    ensures (e.Hearing? && !e.done) || e.Broken?
  {
    if v.opening || v.ended || (v.begun && f.headers.Some?) || (v.partial != NOTHING && f.fragment.None?) then Broken
    else if f.fragment.Some? then HearChunk(v.(begun := true, headers := HeadersAfter(v, f)), f, codec)
    else
      Hearing(v.(begun := true, ended := f.end,
                 values := v.values + (if f.payload.Some? then [f.payload.value] else []),
                     headers := HeadersAfter(v, f), trailers := TrailersAfter(v, f)), false)
  }

  function Hear(e: Ear, f: Frame, codec: Codec): Ear {
    if f.kind == OpenFrame then HearOpen(e, f, codec)
    else
      match e
      case Unseen => Broken
      case Hearing(v, done) =>
        if Stopped(e) then e
        else if f.kind == DataFrame then By(HearData(v, f, codec), done)
        else if f.kind == ResetFrame then Silenced(v.values)
        else Broken
      case Silenced(_) => e
      case Broken => Broken
  }

  function HearAll(e: Ear, q: seq<Frame>, codec: Codec): Ear
    decreases |q|
  {
    if q == [] then e else HearAll(Hear(e, q[0], codec), q[1..], codec)
  }

  function HeardBy(e: Ear): seq<Value> {
    match e
    case Hearing(v, _) => v.values
    case Silenced(values) => values
    case _ => []
  }

  /** None of the frames is a reset. */
  predicate ResetFree(q: seq<Frame>) {
    forall i :: 0 <= i < |q| ==> q[i].kind != ResetFrame
  }

  lemma {:induction false} HearAllAppend(e: Ear, a: seq<Frame>, b: seq<Frame>, codec: Codec)
    ensures HearAll(e, a + b, codec) == HearAll(HearAll(e, a, codec), b, codec)
    decreases |a|
  {
    hide Hear;
    if a == [] {
      assert a + b == b;
    } else {
      HearAllAppend(Hear(e, a[0], codec), a[1..], b, codec);
      assert (a + b)[1..] == a[1..] + b;
    }
  }

  lemma HearOne(e: Ear, f: Frame, codec: Codec)
    ensures HearAll(e, [f], codec) == Hear(e, f, codec)
  {
    hide Hear;
    assert HearAll(Hear(e, f, codec), [], codec) == Hear(e, f, codec);
  }

  lemma {:induction false} BrokenStays(q: seq<Frame>, codec: Codec)
    ensures HearAll(Broken, q, codec) == Broken
    decreases |q|
  {
    if q != [] {
      BrokenStays(q[1..], codec);
    }
  }

  /** A prefix of what can be heard can be heard, and no more values are heard in it. */
  lemma PrefixIsHeard(e: Ear, a: seq<Frame>, b: seq<Frame>, codec: Codec)
    requires HearAll(e, a + b, codec) != Broken
    ensures HearAll(e, a, codec) != Broken
    ensures HeardBy(HearAll(e, a, codec)) <= HeardBy(HearAll(e, a + b, codec))
  {
    HearAllAppend(e, a, b, codec);
    if HearAll(e, a, codec) == Broken {
      BrokenStays(b, codec);
    }
    HeardGrows(HearAll(e, a, codec), b, codec);
  }

  lemma {:induction false} HeardGrows(e: Ear, q: seq<Frame>, codec: Codec)
    requires HearAll(e, q, codec) != Broken
    ensures HeardBy(e) <= HeardBy(HearAll(e, q, codec))
    ensures Stopped(e) ==> HearAll(e, q, codec) == e
    ensures !e.Unseen? ==> !HearAll(e, q, codec).Unseen?
    ensures e.Unseen? && q != [] ==> !HearAll(e, q, codec).Unseen?
    decreases |q|
  {
    hide Feed;
    if q != [] {
      if Hear(e, q[0], codec) == Broken {
        BrokenStays(q[1..], codec);
      }
      HeardGrows(Hear(e, q[0], codec), q[1..], codec);
    }
  }

  /** Past the opening no further `open` can be heard, and none matters to a listener that has stopped. */
  lemma {:induction false} NoOpenLater(e: Ear, q: seq<Frame>, codec: Codec)
    requires HearAll(e, q, codec) != Broken
    requires (e.Hearing? && !e.view.opening) || e.Silenced?
    ensures forall d :: HearAll(Silenced(d), q, codec) == Silenced(d)
    decreases |q|
  {
    hide Feed;
    if q != [] {
      var next := Hear(e, q[0], codec);
      if next == Broken {
        BrokenStays(q[1..], codec);
      }
      NoOpenLater(next, q[1..], codec);
      forall d
        ensures HearAll(Silenced(d), q, codec) == Silenced(d)
      {
        assert Hear(Silenced(d), q[0], codec) == Silenced(d);
      }
    }
  }

  lemma {:induction false} HeardOfSilenced(e: Ear, q: seq<Frame>, codec: Codec)
    requires e.Silenced?
    ensures HearAll(e, q, codec) == e || HearAll(e, q, codec) == Broken
    decreases |q|
  {
    if q != [] {
      if q[0].kind == OpenFrame {
        BrokenStays(q[1..], codec);
      } else {
        HeardOfSilenced(e, q[1..], codec);
      }
    }
  }

  /** A listener that ends its own side still hears all it would have, up to the other's end. */
  lemma {:induction false} DoneHearsTheSame(v: View, q: seq<Frame>, codec: Codec)
    requires HearAll(Hearing(v, false), q, codec) != Broken && (v.ended ==> !v.opening)
    ensures var e, e' := HearAll(Hearing(v, false), q, codec), HearAll(Hearing(v, true), q, codec);
            && e' != Broken && HeardBy(e') == HeardBy(e)
            && (e.Hearing? ==> e' == Hearing(e.view, true))
            && (Stopped(e) ==> Stopped(e'))
    decreases |q|
  {
    hide Feed;
    if q != [] {
      var next := Hear(Hearing(v, false), q[0], codec);
      if next == Broken {
        BrokenStays(q[1..], codec);
      } else if next.Hearing? {
        HeardProperly(v, q[0], codec);
        DoneHearsTheSame(next.view, q[1..], codec);
      } else {
        StoppedHears(next, Hearing(v, true), q, codec);
      }
    }
  }

  lemma HeardProperly(v: View, f: Frame, codec: Codec)
    requires Hear(Hearing(v, false), f, codec).Hearing? && (v.ended ==> !v.opening)
    ensures var w := Hear(Hearing(v, false), f, codec).view;
            !v.ended && (w.ended ==> !w.opening) && Hear(Hearing(v, true), f, codec) == Hearing(w, true)
  {
    hide Feed;
  }

  /** What a reset silences, a listener that is done may have been deaf to already. */
  lemma StoppedHears(next: Ear, e: Ear, q: seq<Frame>, codec: Codec)
    requires q != [] && e.Hearing? && e.done && (e.view.ended ==> !e.view.opening)
    requires next == Hear(e.(done := false), q[0], codec) == Silenced(e.view.values)
    requires HearAll(next, q[1..], codec) != Broken
    ensures HearAll(next, q[1..], codec) == next
    ensures Stopped(HearAll(e, q, codec)) && HeardBy(HearAll(e, q, codec)) == e.view.values
  {
    hide Feed;
    HeardGrows(next, q[1..], codec);
    StoppedStays(next, e, q[1..], codec);
  }

  /** All that have stopped are deaf to the same frames. */
  lemma {:induction false} StoppedStays(e: Ear, e': Ear, q: seq<Frame>, codec: Codec)
    requires Stopped(e) && HearAll(e, q, codec) != Broken
    ensures Stopped(e') ==> HearAll(e', q, codec) == e'
    decreases |q|
  {
    if q != [] {
      if q[0].kind == OpenFrame {
        BrokenStays(q[1..], codec);
      }
      StoppedStays(e, e', q[1..], codec);
    }
  }

  /** Once a side has begun, its leading headers are final. */
  lemma {:induction false} HeadersStay(v: View, done: bool, q: seq<Frame>, codec: Codec)
    requires v.begun && HearAll(Hearing(v, done), q, codec).Hearing?
    ensures HearAll(Hearing(v, done), q, codec).view.headers == v.headers
    decreases |q|
  {
    hide Feed;
    if q != [] {
      var next := Hear(Hearing(v, done), q[0], codec);
      if next.Hearing? {
        HeadersStay(next.view, done, q[1..], codec);
      } else if next.Silenced? {
        HeardOfSilenced(next, q[1..], codec);
      } else {
        BrokenStays(q[1..], codec);
      }
    }
  }

  /** Whatever can be heard before a reset, the reset silences it. */
  lemma ThenReset(e: Ear, q: seq<Frame>, f: Frame, codec: Codec)
    requires HearAll(e, q, codec) != Broken && !HearAll(e, q, codec).Unseen? && f.kind == ResetFrame
    ensures Stopped(HearAll(e, q + [f], codec))
    ensures HeardBy(HearAll(e, q + [f], codec)) == HeardBy(HearAll(e, q, codec))
  {
    HearAllAppend(e, q, [f], codec);
    HearOne(HearAll(e, q, codec), f, codec);
  }

  // ------------------------------------------------------------ slicing is inaudible

  /** What a suspended splitter still has to say, said in one frame. */
  function Rest(g: Generator): seq<Frame> {
    match g
    case Start(source) => [source]
    case Slicing(source, whole, position, emitted) => [Closing(source, whole, position, emitted == 0)]
    case Finished => []
  }

  /** The frames of a lane, the payload being sliced taken as one last fragment. */
  function Coming(lane: Lane): seq<Frame> {
    (if lane.prepared.Some? then [lane.prepared.value] else [])
    + (if lane.fragments.Some? then Rest(lane.fragments.value) else [])
    + lane.waiting
  }

  /** Two fragments are heard as the one they make up. */
  lemma TwoPieces(e: Ear, source: Frame, whole: Chunk, p: nat, m: nat, first: bool, codec: Codec)
    requires p <= m <= |whole.bytes|
    requires Hear(e, Closing(source, whole, p, first), codec) != Broken
    ensures HearAll(e, [Piece(source, whole, p, m, first, false), Closing(source, whole, m, false)], codec)
            == Hear(e, Closing(source, whole, p, first), codec)
  {
    var head, tail := Piece(source, whole, p, m, first, false), Closing(source, whole, m, false);
    var both := Closing(source, whole, p, first);
    var between := Hear(e, head, codec);
    assert [head, tail][1..] == [tail];
    HearOne(between, tail, codec);
    if source.kind == OpenFrame {
      TwoChunks(if e.Hearing? then e.view else View(NOTHING, true, false, [], true, head.headers, None), source, whole,
                p, m, first, codec);
    } else if source.kind == DataFrame && e.Hearing? && !Stopped(e) {
      TwoChunks(e.view.(begun := true, headers := HeadersAfter(e.view, head)), source, whole, p, m, first, codec);
    }
  }

  lemma TwoChunks(v: View, source: Frame, whole: Chunk, p: nat, m: nat, first: bool, codec: Codec)
    requires p <= m <= |whole.bytes|
    requires HearChunk(v, Closing(source, whole, p, first), codec) != Broken
    ensures var between := HearChunk(v, Piece(source, whole, p, m, first, false), codec);
            && between == Hearing(v.(partial := Partial(v.partial.parts + [Slice(whole, p, m)],
                                                        v.partial.bytes + (m - p))), false)
            && HearChunk(between.view, Closing(source, whole, m, false), codec)
                  == HearChunk(v, Closing(source, whole, p, first), codec)
  {
    hide HearChunk, Join, Slice;
    var parts := v.partial.parts;
    var a, b, both := Slice(whole, p, m), Slice(whole, m, |whole.bytes|), Slice(whole, p, |whole.bytes|);
    LastChunk(v, Closing(source, whole, p, first), both, codec);
    MoreChunk(v, Piece(source, whole, p, m, first, false), a, codec);
    var next := v.(partial := Partial(parts + [a], v.partial.bytes + |a.bytes|));
    LastChunk(next, Closing(source, whole, m, false), b, codec);
    JoinSnoc(parts, a);
    SlicesMeet(whole, p, m);
    assert (Join(parts) + a.bytes) + b.bytes == Join(parts) + both.bytes;
  }

  lemma SlicesMeet(whole: Chunk, p: nat, m: nat)
    requires p <= m <= |whole.bytes|
    ensures Slice(whole, p, m).bytes + Slice(whole, m, |whole.bytes|).bytes == Slice(whole, p, |whole.bytes|).bytes
    ensures |Slice(whole, p, m).bytes| == m - p
    ensures Slice(whole, p, m).text == Slice(whole, m, |whole.bytes|).text == Slice(whole, p, |whole.bytes|).text
  {
  }

  predicate Mixed(v: View, chunk: Chunk) {
    v.partial.parts != [] && chunk.text != v.partial.parts[0].text
  }

  lemma MoreChunk(v: View, f: Frame, chunk: Chunk, codec: Codec)
    requires f.fragment == Some(chunk) && f.more && !f.end
    ensures HearChunk(v, f, codec) == if Mixed(v, chunk) then Broken
                                      else Hearing(v.(partial := Partial(v.partial.parts + [chunk],
                                          v.partial.bytes + |chunk.bytes|)), false)
  {
    hide Join;
  }

  lemma LastChunk(v: View, f: Frame, chunk: Chunk, codec: Codec)
    requires f.fragment == Some(chunk) && !f.more
    ensures HearChunk(v, f, codec) ==
            if Mixed(v, chunk) then Broken
            else
              var text := if v.partial.parts == [] then chunk.text else v.partial.parts[0].text;
              match codec.decodePayload(Chunk(text, Join(v.partial.parts) + chunk.bytes))
              case None => Broken
              case Some(x) =>
                Hearing(v.(partial := NOTHING, opening := false, ended := f.end, values := v.values + [x],
                           trailers := TrailersAfter(v, f)), false)
  {
    JoinSnoc(v.partial.parts, chunk);
  }

  /** A whole frame is heard as its one fragment would be. */
  lemma WholeIsOnePiece(e: Ear, source: Frame, whole: Chunk, codec: Codec)
    requires Lawful(codec) && source.fragment.None? && source.payload.Some?
    requires codec.encodePayload(source.payload.value) == Some(whole)
    requires Hear(e, source, codec) != Broken
    ensures Hear(e, Closing(source, whole, 0, true), codec) == Hear(e, source, codec)
  {
    hide Feed, FragmentFrame, Slice, Lawful;
    ClosingFeeds(source, whole, codec);
  }

  /** A fragment that carries the whole payload completes it at once. */
  lemma ClosingFeeds(source: Frame, whole: Chunk, codec: Codec)
    requires Lawful(codec) && source.payload.Some? && codec.encodePayload(source.payload.value) == Some(whole)
    ensures Feed(NOTHING, Closing(source, whole, 0, true), codec) == (NOTHING, Decoded(source.payload.value))
    ensures var f := Closing(source, whole, 0, true);
            f.fragment.Some? && f == source.(payload := None, fragment := f.fragment, more := false)
  {
    assert Slice(whole, 0, |whole.bytes|) == whole;
    assert Join([whole]) == whole.bytes by {
      JoinSnoc([], whole);
      assert [] + [whole] == [whole];
    }
  }

  /** One call of the splitter changes nothing about what will be heard. */
  lemma ResumeIsInaudible(g: Generator, e: Ear, cap: nat, codec: Codec)
    requires Lawful(codec) && Resume(g, cap, codec).Yield? && (g.Start? ==> g.source.fragment.None?)
    requires HearAll(e, Rest(g), codec) != Broken
    ensures var resumed := Resume(g, cap, codec);
            HearAll(e, [resumed.frame] + Rest(resumed.rest), codec) == HearAll(e, Rest(g), codec)
  {
    hide Hear, ResumeSlicing, ResumeStart;
    match g
    case Start(source) =>
      HearOne(e, source, codec);
      StartIsInaudible(source, e, cap, codec);
    case Slicing(source, whole, position, emitted) =>
      HearOne(e, Closing(source, whole, position, emitted == 0), codec);
      SlicingIsInaudible(source, whole, position, emitted, e, cap, codec);
  }

  lemma SlicingIsInaudible(source: Frame, whole: Chunk, position: nat, emitted: nat, e: Ear, cap: nat, codec: Codec)
    requires Resumable(Slicing(source, whole, position, emitted)) && position <= |whole.bytes|
    requires ResumeSlicing(source, whole, position, emitted, cap, codec).Yield?
    requires Hear(e, Closing(source, whole, position, emitted == 0), codec) != Broken
    ensures var resumed := ResumeSlicing(source, whole, position, emitted, cap, codec);
            HearAll(e, [resumed.frame] + Rest(resumed.rest), codec)
                == Hear(e, Closing(source, whole, position, emitted == 0), codec)
  {
    hide Hear, MiddleCount, Cuttable, Piece;
    var resumed := ResumeSlicing(source, whole, position, emitted, cap, codec);
    if resumed.rest == Finished {
      assert [resumed.frame] + Rest(resumed.rest) == [resumed.frame];
      HearOne(e, resumed.frame, codec);
    } else {
      var count := MiddleCount(source, whole, position, emitted == 0, cap, codec).bytes;
      TwoPieces(e, source, whole, position, position + count, emitted == 0, codec);
      assert [resumed.frame] + Rest(resumed.rest)
          == [Piece(source, whole, position, position + count, emitted == 0, false),
              Closing(source, whole, position + count, false)];
    }
  }

  lemma StartIsInaudible(source: Frame, e: Ear, cap: nat, codec: Codec)
    requires Lawful(codec) && ResumeStart(source, cap, codec).Yield? && source.fragment.None?
    requires Hear(e, source, codec) != Broken
    ensures var resumed := ResumeStart(source, cap, codec);
            HearAll(e, [resumed.frame] + Rest(resumed.rest), codec) == Hear(e, source, codec)
  {
    hide Hear, ResumeSlicing;
    var resumed := ResumeStart(source, cap, codec);
    if resumed == Yield(source, Finished) {
      assert [source] + [] == [source];
      HearOne(e, source, codec);
    } else {
      var whole := codec.encodePayload(source.payload.value).value;
      WholeIsOnePiece(e, source, whole, codec);
      SlicingIsInaudible(source, whole, 0, 0, e, cap, codec);
    }
  }

  /** A fragment is of the kind of the frame it is cut from. */
  lemma ResumeKeepsKind(g: Generator, cap: nat, codec: Codec)
    requires Resume(g, cap, codec).Yield?
    ensures var resumed := Resume(g, cap, codec);
            && |Rest(g)| == 1
            && resumed.frame.kind == Rest(g)[0].kind
            && forall f :: f in Rest(resumed.rest) ==> f.kind == Rest(g)[0].kind
  {
    hide MiddleCount, Cuttable;
  }

  /** A lane's frames may be sliced: what waits is whole. */
  predicate Sliceable(lane: Lane) {
    && (forall i :: 0 <= i < |lane.waiting| ==> lane.waiting[i].fragment.None?)
    && (lane.fragments.Some? && lane.fragments.value.Start? ==> lane.fragments.value.source.fragment.None?)
  }

  /** Slicing a lane's next fragment changes nothing about what will be heard. */
  lemma PrepareIsInaudible(lane: Lane, e: Ear, cap: nat, codec: Codec)
    requires Lawful(codec) && Sliceable(lane) && Prepare(lane, cap, codec).Ready?
    ensures var lane' := Prepare(lane, cap, codec).lane;
            && (HearAll(e, Coming(lane), codec) != Broken
                ==> HearAll(e, Coming(lane'), codec) == HearAll(e, Coming(lane), codec))
            && (ResetFree(Coming(lane)) ==> ResetFree(Coming(lane')))
            && (Coming(lane) == [] ==> Coming(lane') == [])
  {
    hide Resume, Hear, Rest, Lawful;
    if lane.prepared.None? && lane.fragments.Some? && !Resume(lane.fragments.value, cap, codec).Raise? {
      var g := lane.fragments.value;
      if Resume(g, cap, codec).Yield? {
        YieldIsInaudible(g, lane.waiting, e, cap, codec);
        assert Coming(lane) == Rest(g) + lane.waiting;
        assert Coming(Prepare(lane, cap, codec).lane)
            == [Resume(g, cap, codec).frame] + Rest(Resume(g, cap, codec).rest) + lane.waiting;
      } else {
        StopsFinished(g, cap, codec);
        var emptied := lane.(fragments := None);
        assert Coming(emptied) == Coming(lane);
        NextIsInaudible(emptied, e, cap, codec);
      }
    } else if lane.prepared.None? {
      NextIsInaudible(lane, e, cap, codec);
    }
  }

  lemma StopsFinished(g: Generator, cap: nat, codec: Codec)
    requires Resume(g, cap, codec).Stop?
    ensures Rest(g) == []
  {
    hide MiddleCount, Cuttable;
  }

  lemma NextIsInaudible(lane: Lane, e: Ear, cap: nat, codec: Codec)
    requires Lawful(codec) && Sliceable(lane) && lane.prepared.None? && lane.fragments.None?
    requires PrepareNext(lane, cap, codec).Ready?
    ensures var lane' := PrepareNext(lane, cap, codec).lane;
            && (HearAll(e, Coming(lane), codec) != Broken
                ==> HearAll(e, Coming(lane'), codec) == HearAll(e, Coming(lane), codec))
            && (ResetFree(Coming(lane)) ==> ResetFree(Coming(lane')))
            && (Coming(lane) == [] ==> Coming(lane') == [])
  {
    hide Resume, Hear, Rest, Lawful;
    if lane.waiting != [] {
      var g: Generator := Start(lane.waiting[0]);
      StartRest(lane.waiting[0]);
      assert Coming(lane) == Rest(g) + lane.waiting[1..];
      if Resume(g, cap, codec).Yield? {
        YieldIsInaudible(g, lane.waiting[1..], e, cap, codec);
        assert Coming(PrepareNext(lane, cap, codec).lane)
            == [Resume(g, cap, codec).frame] + Rest(Resume(g, cap, codec).rest) + lane.waiting[1..];
      } else {
        StopsFinished(g, cap, codec);
      }
    }
  }

  lemma StartRest(f: Frame)
    ensures Rest(Start(f)) == [f]
  {
  }

  lemma YieldIsInaudible(g: Generator, tail: seq<Frame>, e: Ear, cap: nat, codec: Codec)
    requires Lawful(codec) && Resume(g, cap, codec).Yield? && (g.Start? ==> g.source.fragment.None?)
    ensures var resumed := Resume(g, cap, codec);
            var now := [resumed.frame] + Rest(resumed.rest) + tail;
            && (HearAll(e, Rest(g) + tail, codec) != Broken
                ==> HearAll(e, now, codec) == HearAll(e, Rest(g) + tail, codec))
            && (ResetFree(Rest(g) + tail) ==> ResetFree(now))
            && Rest(g) + tail != []
  {
    hide Resume, Hear, Rest, Lawful;
    var resumed := Resume(g, cap, codec);
    var head := [resumed.frame] + Rest(resumed.rest);
    ResumeKeepsKind(g, cap, codec);
    HearAllAppend(e, Rest(g), tail, codec);
    HearAllAppend(e, head, tail, codec);
    if HearAll(e, Rest(g), codec) == Broken {
      BrokenStays(tail, codec);
    } else {
      ResumeIsInaudible(g, e, cap, codec);
    }
    if ResetFree(Rest(g) + tail) {
      assert (Rest(g) + tail)[0] == Rest(g)[0];
      assert forall i :: 0 <= i < |tail| ==> tail[i] == (Rest(g) + tail)[|Rest(g)| + i];
      assert forall i :: 0 <= i < |head| ==> head[i] == resumed.frame || head[i] in Rest(resumed.rest);
    }
  }
}
