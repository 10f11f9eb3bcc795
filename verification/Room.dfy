/** Whether a receiver has room for what is on its way to it: the payloads in fragments, each within its cap, and
    nothing after the sender's end.  Slicing a lane further changes nothing about it. */
module Room {
  import opened Frames
  import opened Codecs
  import opened Fragmenter
  import opened WriterModel
  import opened Conversation

  // ------------------------------------------------------------ what a receiver has room for

  /** The payload, should it be cut, is within the receiver's cap. */
  predicate Fits(v: Value, room: nat, codec: Codec) {
    codec.encodePayload(v).Some? ==> |codec.encodePayload(v).value.bytes| <= room
  }

  /** What a receiver holds of a payload in fragments, and whether its sender has ended. */
  datatype Tally = Tally(held: nat, closed: bool)

  /** After frame `f`; `None` when it is more than there is room for, cuts into another payload, or, `strict`, comes
      after the end. */
  function After(t: Tally, f: Frame, strict: bool, room: nat, codec: Codec): Option<Tally> {
    var closed := strict && f.end;
    if t.closed then None
    else if f.fragment.Some? then
      var held := t.held + |f.fragment.value.bytes|;
      if room < held || (f.more && f.end) then None else Some(Tally(if f.more then held else 0, closed))
    else if t.held == 0 && (f.payload.Some? ==> Fits(f.payload.value, room, codec)) then Some(Tally(0, closed))
    else None
  }

  function Through(t: Tally, q: seq<Frame>, strict: bool, room: nat, codec: Codec): Option<Tally>
    decreases |q|
  {
    if q == [] then Some(t)
    else
      match After(t, q[0], strict, room, codec)
      case None => None
      case Some(next) => Through(next, q[1..], strict, room, codec)
  }

  lemma {:induction false} ThroughAppend(t: Tally, a: seq<Frame>, b: seq<Frame>, strict: bool, room: nat, codec: Codec)
    ensures Through(t, a + b, strict, room, codec)
         == match Through(t, a, strict, room, codec)
            case None => None
            case Some(next) => Through(next, b, strict, room, codec)
    decreases |a|
  {
    hide After;
    if a == [] {
      assert a + b == b;
    } else {
      assert (a + b)[1..] == a[1..] + b;
      if After(t, a[0], strict, room, codec).Some? {
        ThroughAppend(After(t, a[0], strict, room, codec).value, a[1..], b, strict, room, codec);
      }
    }
  }

  lemma ThroughOne(t: Tally, f: Frame, strict: bool, room: nat, codec: Codec)
    ensures Through(t, [f], strict, room, codec) == After(t, f, strict, room, codec)
  {
    hide After;
    assert [f][1..] == [];
  }

  /** Slicing needs no more room. */
  lemma ResumeFits(g: Generator, t: Tally, strict: bool, room: nat, cap: nat, codec: Codec)
    requires Resume(g, cap, codec).Yield? && (g.Start? ==> g.source.fragment.None?)
    requires Through(t, Rest(g), strict, room, codec).Some?
    ensures var resumed := Resume(g, cap, codec);
            Through(t, [resumed.frame] + Rest(resumed.rest), strict, room, codec)
                == Through(t, Rest(g), strict, room, codec)
  {
    hide After, ResumeSlicing, ResumeStart, Through;
    match g
    case Start(source) =>
      ThroughOne(t, source, strict, room, codec);
      StartFits(source, t, strict, room, cap, codec);
    case Slicing(source, whole, position, emitted) =>
      ThroughOne(t, Closing(source, whole, position, emitted == 0), strict, room, codec);
      SlicingFits(source, whole, position, emitted, t, strict, room, cap, codec);
  }

  lemma SlicingFits(source: Frame, whole: Chunk, position: nat, emitted: nat, t: Tally, strict: bool, room: nat,
                    cap: nat, codec: Codec)
    requires Resumable(Slicing(source, whole, position, emitted)) && position <= |whole.bytes|
    requires ResumeSlicing(source, whole, position, emitted, cap, codec).Yield?
    requires After(t, Closing(source, whole, position, emitted == 0), strict, room, codec).Some?
    ensures var resumed := ResumeSlicing(source, whole, position, emitted, cap, codec);
            Through(t, [resumed.frame] + Rest(resumed.rest), strict, room, codec)
                == After(t, Closing(source, whole, position, emitted == 0), strict, room, codec)
  {
    hide After, MiddleCount, Cuttable, Piece, Through;
    var resumed := ResumeSlicing(source, whole, position, emitted, cap, codec);
    if resumed.rest == Finished {
      assert [resumed.frame] + Rest(resumed.rest) == [resumed.frame];
      ThroughOne(t, resumed.frame, strict, room, codec);
    } else {
      var middle := position + MiddleCount(source, whole, position, emitted == 0, cap, codec).bytes;
      TwoFit(source, whole, position, middle, emitted == 0, t, strict, room, codec);
      assert [resumed.frame] + Rest(resumed.rest)
          == [Piece(source, whole, position, middle, emitted == 0, false), Closing(source, whole, middle, false)];
    }
  }

  lemma TwoFit(source: Frame, whole: Chunk, p: nat, m: nat, first: bool, t: Tally, strict: bool, room: nat,
               codec: Codec)
    requires p <= m <= |whole.bytes| && After(t, Closing(source, whole, p, first), strict, room, codec).Some?
    ensures Through(t, [Piece(source, whole, p, m, first, false), Closing(source, whole, m, false)], strict, room,
                    codec)
            == After(t, Closing(source, whole, p, first), strict, room, codec)
  {
    hide Through;
    var head, tail := Piece(source, whole, p, m, first, false), Closing(source, whole, m, false);
    assert [head] + [tail] == [head, tail];
    ThroughAppend(t, [head], [tail], strict, room, codec);
    ThroughOne(t, head, strict, room, codec);
    ThroughOne(After(t, head, strict, room, codec).value, tail, strict, room, codec);
  }

  lemma StartFits(source: Frame, t: Tally, strict: bool, room: nat, cap: nat, codec: Codec)
    requires ResumeStart(source, cap, codec).Yield? && source.fragment.None?
    requires After(t, source, strict, room, codec).Some?
    ensures var resumed := ResumeStart(source, cap, codec);
            Through(t, [resumed.frame] + Rest(resumed.rest), strict, room, codec)
                == After(t, source, strict, room, codec)
  {
    hide ResumeSlicing, Through;
    var resumed := ResumeStart(source, cap, codec);
    if resumed == Yield(source, Finished) {
      assert [source] + [] == [source];
      ThroughOne(t, source, strict, room, codec);
    } else {
      var whole := codec.encodePayload(source.payload.value).value;
      WholeFits(source, whole, t, strict, room, codec);
      SlicingFits(source, whole, 0, 0, t, strict, room, cap, codec);
    }
  }

  lemma WholeFits(source: Frame, whole: Chunk, t: Tally, strict: bool, room: nat, codec: Codec)
    requires source.fragment.None? && source.payload.Some? && codec.encodePayload(source.payload.value) == Some(whole)
    requires After(t, source, strict, room, codec).Some?
    ensures After(t, Closing(source, whole, 0, true), strict, room, codec) == After(t, source, strict, room, codec)
  {
  }

  lemma YieldFits(g: Generator, tail: seq<Frame>, t: Tally, strict: bool, room: nat, cap: nat, codec: Codec)
    requires Resume(g, cap, codec).Yield? && (g.Start? ==> g.source.fragment.None?)
    requires Through(t, Rest(g) + tail, strict, room, codec).Some?
    ensures var resumed := Resume(g, cap, codec);
            Through(t, [resumed.frame] + Rest(resumed.rest) + tail, strict, room, codec)
                == Through(t, Rest(g) + tail, strict, room, codec)
  {
    hide Resume, Through, Rest;
    var resumed := Resume(g, cap, codec);
    ThroughAppend(t, Rest(g), tail, strict, room, codec);
    ThroughAppend(t, [resumed.frame] + Rest(resumed.rest), tail, strict, room, codec);
    ResumeFits(g, t, strict, room, cap, codec);
  }

  lemma NextFits(lane: Lane, t: Tally, strict: bool, room: nat, cap: nat, codec: Codec)
    requires Sliceable(lane) && lane.prepared.None? && lane.fragments.None? && PrepareNext(lane, cap, codec).Ready?
    requires Through(t, Coming(lane), strict, room, codec).Some?
    ensures Through(t, Coming(PrepareNext(lane, cap, codec).lane), strict, room, codec)
         == Through(t, Coming(lane), strict, room, codec)
  {
    hide Resume, Through, Rest;
    if lane.waiting != [] {
      var g: Generator := Start(lane.waiting[0]);
      StartRest(lane.waiting[0]);
      assert Coming(lane) == Rest(g) + lane.waiting[1..];
      if Resume(g, cap, codec).Yield? {
        YieldFits(g, lane.waiting[1..], t, strict, room, cap, codec);
        assert Coming(PrepareNext(lane, cap, codec).lane)
            == [Resume(g, cap, codec).frame] + Rest(Resume(g, cap, codec).rest) + lane.waiting[1..];
      } else {
        StopsFinished(g, cap, codec);
      }
    }
  }

  lemma PrepareFits(lane: Lane, t: Tally, strict: bool, room: nat, cap: nat, codec: Codec)
    requires Sliceable(lane) && Prepare(lane, cap, codec).Ready?
    requires Through(t, Coming(lane), strict, room, codec).Some?
    ensures Through(t, Coming(Prepare(lane, cap, codec).lane), strict, room, codec)
         == Through(t, Coming(lane), strict, room, codec)
  {
    hide Resume, Through, Rest;
    if lane.prepared.None? && lane.fragments.Some? && !Resume(lane.fragments.value, cap, codec).Raise? {
      var g := lane.fragments.value;
      if Resume(g, cap, codec).Yield? {
        assert Coming(lane) == Rest(g) + lane.waiting;
        YieldFits(g, lane.waiting, t, strict, room, cap, codec);
        assert Coming(Prepare(lane, cap, codec).lane)
            == [Resume(g, cap, codec).frame] + Rest(Resume(g, cap, codec).rest) + lane.waiting;
      } else {
        StopsFinished(g, cap, codec);
        var emptied := lane.(fragments := None);
        assert Coming(emptied) == Coming(lane);
        NextFits(emptied, t, strict, room, cap, codec);
      }
    } else if lane.prepared.None? {
      NextFits(lane, t, strict, room, cap, codec);
    }
  }

  lemma SlicedFits(front: seq<Frame>, lane: Lane, t: Tally, strict: bool, room: nat, cap: nat, codec: Codec)
    requires Sliceable(lane) && Prepare(lane, cap, codec).Ready?
    requires Through(t, front + Coming(lane), strict, room, codec).Some?
    ensures Through(t, front + Coming(Prepare(lane, cap, codec).lane), strict, room, codec)
         == Through(t, front + Coming(lane), strict, room, codec)
  {
    hide Through, Prepare, Coming;
    ThroughAppend(t, front, Coming(lane), strict, room, codec);
    ThroughAppend(t, front, Coming(Prepare(lane, cap, codec).lane), strict, room, codec);
    PrepareFits(lane, Through(t, front, strict, room, codec).value, strict, room, cap, codec);
  }
}
