/** The write loop's moves keep the two ends joined: slicing and sending change where a frame is, not what
    will be heard; a lane that cannot be encoded closes its stream. */
module DuplexWriting {
  import opened Frames
  import opened Codecs
  import opened Fragmenter
  import opened WriterModel
  import opened PeerModel
  import opened PeerInvariant
  import opened Outbound
  import opened Ends
  import opened Conversation
  import opened Halves
  import opened Strands
  import opened Reception
  import opened DuplexModel
  import opened DuplexMoves

  /** The writer and the log apart, `a` is as it was. */
  ghost predicate WriterOnly(d: Duplex, d': Duplex, w: Writer) {
    && d' == d.(a := d'.a)
    && d'.a.peer == d.a.peer.(writer := w) && d'.a.said == d.a.said
    && d.ra <= |d.a.log| && d.a.log <= d'.a.log
  }

  lemma WriterHalf(d: Duplex, d': Duplex, w: Writer, x: nat)
    requires WriterOnly(d, d', w)
    ensures HalfA(d', x) == HalfA(d, x) && HalfA(Flip(d'), x) == HalfA(Flip(d), x)
      && WayA(Flip(d'), x) == WayA(Flip(d), x)
    ensures Reached(d'.a.log, d.ra) == Reached(d.a.log, d.ra) && SameFrame(d, d')
    ensures At(d'.a.peer, x).stream == At(d.a.peer, x).stream
  {
    hide Own, Seen, LaneAt, Coming, On;
    assert d'.a.log[..d.ra] == d.a.log[..d.ra];
    var c := At(d.a.peer, x);
    HalfOfLane(c, LaneAt(w, x), SaidOn(d.a, x), !Own(SideOf(d.a.peer, d.ca), x) && Seen(Reached(d.b.log, d.rb), x));
  }

  /** A stream of which the same frames are still to come. */
  lemma SameWay(d: Duplex, d': Duplex, w: Writer, x: nat)
    requires WriterOnly(d, d', w)
    requires On(Unread(d'.a.log, d.ra), x) == On(Unread(d.a.log, d.ra), x)
    requires Coming(LaneAt(w, x)) == Coming(LaneAt(d.a.peer.writer, x))
    ensures Same(d, d', x)
  {
    hide HalfA, LaneAt, Coming, On;
    WriterHalf(d, d', w, x);
  }

  lemma WriterTuned(d: Duplex, d': Duplex, w: Writer)
    requires Joined(d) && WriterOnly(d, d', w)
    ensures Tuned(d'.a, Reached(d.b.log, d.rb))
  {
    hide Joined, Proper, Seen, OpenedIn;
    JoinedTuned(d);
  }

  /** The frames to come are sliced further. */
  ghost predicate Inaudible(q: seq<Frame>, q': seq<Frame>, codec: Codec) {
    && (forall e :: HearAll(e, q, codec) != Broken ==> HearAll(e, q', codec) == HearAll(e, q, codec))
    && (ResetFree(q) ==> ResetFree(q'))
    && (q == [] ==> q' == [])
  }

  lemma InaudibleTied(d: Duplex, d': Duplex, w: Writer, x: nat)
    requires Joined(d) && WriterOnly(d, d', w) && 0 < x
    requires Inaudible(WayA(d, x), WayA(d', x), d.ca.codec)
    ensures Tied(d', x) && Tied(Flip(d'), x)
  {
    hide Joined, HalfA, WayA, Own, Linked;
    JoinedTies(d, x);
    WriterHalf(d, d', w, x);
    SlicedLinked(HalfA(d, x), WayA(d, x), WayA(d', x), HalfA(Flip(d), x), Own(SideOf(d.a.peer, d.ca), x), Late(d.b, x),
                 d.a.peer.isOpen, d.b.peer.isOpen, d.ca.codec);
  }

  /** Slicing a lane whose frames follow those of the wire. */
  lemma PreparedInaudible(front: seq<Frame>, lane: Lane, cap: nat, codec: Codec)
    requires Lawful(codec) && Sliceable(lane) && Prepare(lane, cap, codec).Ready?
    ensures Inaudible(front + Coming(lane), front + Coming(Prepare(lane, cap, codec).lane), codec)
  {
    hide Lawful, Prepare, Coming, Sliceable, Hear;
    var coming, coming' := Coming(lane), Coming(Prepare(lane, cap, codec).lane);
    forall e | HearAll(e, front + coming, codec) != Broken
      ensures HearAll(e, front + coming', codec) == HearAll(e, front + coming, codec)
    {
      HearAllAppend(e, front, coming, codec);
      HearAllAppend(e, front, coming', codec);
      PrepareIsInaudible(lane, HearAll(e, front, codec), cap, codec);
    }
    PrepareIsInaudible(lane, Unseen, cap, codec);
    if ResetFree(front + coming) {
      assert forall i :: 0 <= i < |front| ==> front[i] == (front + coming)[i];
      assert forall i :: 0 <= i < |coming| ==> coming[i] == (front + coming)[|front| + i];
    }
    assert front + coming == [] ==> front == [] && coming == [];
  }

  lemma TidySliceable(d: Duplex, x: nat)
    requires Joined(d)
    ensures Sliceable(LaneAt(d.a.peer.writer, x))
  {
    hide Joined, Seen, Orderly, Sorted, Listed, OnLane, OnWire;
    JoinedSteady(d);
  }

  predicate Alike(f: Frame, g: Frame) {
    f.kind == g.kind && f.code == g.code && f.lastStream == g.lastStream
  }

  /** A frame of the same kind, code and `last_stream` is among them. */
  ghost predicate Echoes(f: Frame, q: seq<Frame>) {
    exists i :: 0 <= i < |q| && Alike(q[i], f)
  }

  lemma InEchoes(f: Frame, q: seq<Frame>, more: seq<Frame>)
    ensures f in q ==> Echoes(f, q)
    ensures Echoes(f, q) ==> Echoes(f, q + more) && Echoes(f, more + q)
  {
    if i :| 0 <= i < |q| && Alike(q[i], f) {
      assert (q + more)[i] == q[i] && (more + q)[|more| + i] == q[i];
    }
  }

  lemma YieldEchoes(g: Generator, tail: seq<Frame>, f: Frame, cap: nat, codec: Codec)
    requires Resume(g, cap, codec).Yield?
    requires f in [Resume(g, cap, codec).frame] + Rest(Resume(g, cap, codec).rest) + tail
    ensures Echoes(f, Rest(g) + tail)
  {
    hide Resume, Rest;
    ResumeGoodbyes(g, cap, codec);
    InEchoes(f, Rest(g), tail);
    InEchoes(f, tail, Rest(g));
    if f !in tail {
      assert f in [Resume(g, cap, codec).frame] + Rest(Resume(g, cap, codec).rest);
      assert Alike(Rest(g)[0], f);
    }
  }

  /** A lane's goodbyes are those of the frames it is cut from. */
  lemma PreparedGoodbyes(lane: Lane, f: Frame, cap: nat, codec: Codec)
    requires Prepare(lane, cap, codec).Ready? && f in Coming(Prepare(lane, cap, codec).lane)
    ensures Echoes(f, Coming(lane))
  {
    hide Resume, Rest, Echoes;
    if lane.prepared.Some? {
      InEchoes(f, Coming(lane), []);
    } else if lane.fragments.Some? && Resume(lane.fragments.value, cap, codec).Yield? {
      var g := lane.fragments.value;
      assert Coming(lane) == Rest(g) + lane.waiting;
      YieldEchoes(g, lane.waiting, f, cap, codec);
    } else {
      if lane.fragments.Some? {
        StopsFinished(lane.fragments.value, cap, codec);
      }
      assert Coming(lane) == lane.waiting;
      if lane.waiting != [] {
        StartRest(lane.waiting[0]);
        var g: Generator := Start(lane.waiting[0]);
        assert lane.waiting == Rest(g) + lane.waiting[1..];
        if Resume(g, cap, codec).Yield? {
          YieldEchoes(g, lane.waiting[1..], f, cap, codec);
        } else {
          StopsFinished(g, cap, codec);
        }
      }
    }
  }

  lemma ResumeGoodbyes(g: Generator, cap: nat, codec: Codec)
    ensures Resume(g, cap, codec).Yield? ==>
              var resumed := Resume(g, cap, codec);
              forall f :: f in [resumed.frame] + Rest(resumed.rest) ==> |Rest(g)| == 1 && Alike(Rest(g)[0], f)
  {
    hide MiddleCount, Cuttable;
  }

  // ------------------------------------------------------------ a frame is sent

  lemma UnreadGrows(log: seq<Frame>, f: Frame, r: nat, x: nat)
    requires r <= |log|
    ensures On(Unread(log + [f], r), x) == On(Unread(log, r), x) + (if LaneOf(f) == x then [f] else [])
  {
    assert (log + [f])[r..] == log[r..] + [f];
    OnAppend(log[r..], [f], x);
    OnOne(f, x);
  }

  lemma PreparedComing(lane: Lane, f: Frame)
    requires lane.prepared == Some(f)
    ensures Coming(lane) == [f] + Coming(lane.(prepared := None))
  {
    hide Rest;
  }

  /** The frame the writer handed over goes on the wire. */
  lemma SentJoined(d: Duplex, d': Duplex, w: Writer, f: Frame)
    requires Joined(d) && WriterOnly(d, d', w) && d'.a.log == d.a.log + [f] && Steady(d'.a, d.ca)
    requires Turned(d.a.peer.writer, w, Sent(LaneOf(f), f), d.ca.cap, d.ca.codec)
    ensures Joined(d')
  {
    hide Joined, Steady, Prepare, Coming, LaneAt, On, Tied, HalfA, Inaudible, Own, Tuned, Goodbyes, Sliceable;
    var y := LaneOf(f);
    JoinedTuned(d);
    CodecLawful(d);
    forall x: nat | x != y
      ensures Same(d, d', x)
    {
      UnreadGrows(d.a.log, f, d.ra, x);
      SameWay(d, d', w, x);
    }
    var lane := LaneAt(d.a.peer.writer, y);
    var ready := Prepare(lane, d.ca.cap, d.ca.codec).lane;
    UnreadGrows(d.a.log, f, d.ra, y);
    PreparedComing(ready, f);
    TidySliceable(d, y);
    PreparedInaudible(On(Unread(d.a.log, d.ra), y), lane, d.ca.cap, d.ca.codec);
    assert WayA(d', y) == On(Unread(d.a.log, d.ra), y) + Coming(ready);
    if y == 0 {
      SlicedGoodbyes(d, d', lane, On(Unread(d.a.log, d.ra), 0));
    } else {
      InaudibleTied(d, d', w, y);
    }
    WriterTuned(d, d', w);
    WriterHalf(d, d', w, y);
    AssembleJoined(d, d', y);
  }

  lemma CodecLawful(d: Duplex)
    requires Joined(d)
    ensures Lawful(d.ca.codec) && d.ca.codec == d.cb.codec && d.ca.cap == d.cb.cap
  {
    hide Leg, Lawful;
  }

  lemma SlicedGoodbyes(d: Duplex, d': Duplex, lane: Lane, front: seq<Frame>)
    requires Joined(d) && d'.a.peer.goaway == d.a.peer.goaway
    requires Prepare(lane, d.ca.cap, d.ca.codec).Ready?
    requires WayA(d, 0) == front + Coming(lane)
    requires WayA(d', 0) == front + Coming(Prepare(lane, d.ca.cap, d.ca.codec).lane)
    ensures Goodbyes(d')
  {
    hide Joined, Prepare, Coming, Tuned, WayA;
    JoinedTuned(d);
    forall f | f in WayA(d', 0) && f.kind == GoawayFrame
      ensures f.lastStream.Some? && d.a.peer.goaway.sentLast.Some?
        && d.a.peer.goaway.sentLast.value <= f.lastStream.value
    {
      if f in front {
        assert f in WayA(d, 0);
      } else {
        PreparedGoodbyes(lane, f, d.ca.cap, d.ca.codec);
        var i :| 0 <= i < |Coming(lane)| && Alike(Coming(lane)[i], f);
        assert Coming(lane)[i] in WayA(d, 0);
      }
    }
  }

  /** A turn that sends nothing and fails nothing. */
  lemma IdleTurnJoined(d: Duplex, d': Duplex, w: Writer)
    requires Joined(d) && WriterOnly(d, d', w) && d'.a.log == d.a.log && Steady(d'.a, d.ca)
    requires forall x: nat :: Coming(LaneAt(w, x)) == Coming(LaneAt(d.a.peer.writer, x))
    ensures Joined(d')
  {
    hide Joined, Steady, Coming, LaneAt, On, Tied, HalfA, Own, Tuned, Goodbyes, WayA;
    JoinedTuned(d);
    forall x: nat
      ensures Same(d, d', x)
    {
      SameWay(d, d', w, x);
    }
    WriterTuned(d, d', w);
    WriterHalf(d, d', w, 0);
    WaySame(d, d', 0);
    GoodbyesSame(d, d');
    AssembleJoined(d, d', 0);
  }

  lemma GoodbyesSame(d: Duplex, d': Duplex)
    requires Goodbyes(d) && WayA(d', 0) == WayA(d, 0) && d'.a.peer.goaway == d.a.peer.goaway
    ensures Goodbyes(d')
  {
    hide WayA;
  }

  /** The lane of the frame just sent is sliced ahead. */
  lemma SlicedJoined(d: Duplex, d': Duplex, w: Writer, y: nat)
    requires Joined(d) && WriterOnly(d, d', w) && d'.a.log == d.a.log && Steady(d'.a, d.ca)
    requires forall x: nat :: x != y ==> LaneAt(w, x) == LaneAt(d.a.peer.writer, x)
    requires Prepare(LaneAt(d.a.peer.writer, y), d.ca.cap, d.ca.codec) == Ready(LaneAt(w, y))
    ensures Joined(d')
  {
    hide Joined, Steady, Prepare, Coming, LaneAt, On, Tied, HalfA, Inaudible, Own, Tuned, Goodbyes, Sliceable;
    JoinedTuned(d);
    CodecLawful(d);
    forall x: nat | x != y
      ensures Same(d, d', x)
    {
      SameWay(d, d', w, x);
    }
    var lane := LaneAt(d.a.peer.writer, y);
    TidySliceable(d, y);
    PreparedInaudible(On(Unread(d.a.log, d.ra), y), lane, d.ca.cap, d.ca.codec);
    if y == 0 {
      SlicedGoodbyes(d, d', lane, On(Unread(d.a.log, d.ra), 0));
    } else {
      InaudibleTied(d, d', w, y);
    }
    WriterTuned(d, d', w);
    WriterHalf(d, d', w, y);
    AssembleJoined(d, d', y);
  }

  // ------------------------------------------------------------ a lane fails

  /** `b` has not heard of a stream whose `open` is unsent. */
  lemma UnsentIsUnheard(d: Duplex, y: nat)
    requires Joined(d) && Unsent(d.a.peer.writer, y)
    ensures 0 < y && On(Unread(d.a.log, d.ra), y) == [] && HalfA(Flip(d), y).Unborn?
  {
    hide Joined, HoldsUnsentOpen, OpensBelow, Orderly, Sorted, Listed, Bounded, OpenedIn, Proper, Seen, HalfOf,
      LaneTidy;
    var p := d.a.peer;
    JoinedSteady(d);
    TidyLane(p.writer, d.a.log, SideOf(p, d.ca), p.highLocal, y);
    UnsentIsOwn(p.writer, y, SideOf(p, d.ca));
    OwnSplitsJoined(d, y);
    SeenSplit(d.a.log, d.ra, y);
    FlipJoined(d);
    JoinedTuned(Flip(d));
    JoinedSteady(Flip(d));
    assert y in d.b.peer.objects ==> Kept(d.b.peer, y, d.b.peer.objects[y], d.cb);
    NoneUnborn(At(d.b.peer, y), SaidOn(d.b, y));
  }

  lemma NoneUnborn(c: Cell, said: Words)
    ensures c.stream.None? ==> HalfOf(c, said, false).Unborn?
  {
  }

  lemma FlipJoined(d: Duplex)
    requires Joined(d)
    ensures Joined(Flip(d)) && Flip(Flip(d)) == d
  {
    hide Leg, Lawful;
  }

  /** An unsent `open` that cannot be encoded: the stream fails here and was never heard of there. */
  lemma UnsentFailedTied(d: Duplex, d': Duplex, y: nat)
    requires Joined(d) && d' == d.(a := d'.a) && SameFrame(d, d') && d'.a.log == d.a.log
    requires y in d.a.peer.live && y in d.a.peer.objects && SaidOn(d'.a, y) == SaidOn(d.a, y)
    requires Unsent(d.a.peer.writer, y)
    requires At(d'.a.peer, y) == Fallen(At(d.a.peer, y).(lane := EMPTY_LANE), INTERNAL_ERROR)
    ensures 0 < y && Tied(d', y) && Tied(Flip(d'), y)
    ensures Proper(At(d'.a.peer, y).stream.value) && Fitting(At(d'.a.peer, y).stream.value, SaidOn(d'.a, y))
  {
    hide Joined, Linked, HeardOf, SaidOf, ValuesOf, Own, LaneAt, On, Unsent, Proper, Fitting, Fallen, Seen;
    UnsentIsUnheard(d, y);
    LiveHalf(d, y);
    ClosedHalf(d, d', y, EMPTY_LANE, INTERNAL_ERROR);
    CodecsAgree(d, d');
    var dropped := Coming(LaneAt(d.a.peer.writer, y));
    assert WayA(d, y) == [] + dropped && WayA(d', y) == [];
    QuietLinked(HalfA(d, y), WayA(d, y), [], dropped, HalfA(Flip(d), y), HalfA(d', y), Own(SideOf(d.a.peer, d.ca), y),
                Late(d.b, y), d.b.peer.isOpen, d.ca.codec);
    ListenerClosed(HalfA(Flip(d), y), WayA(Flip(d), y), HalfA(d, y), HalfA(d', y), Own(SideOf(d.b.peer, d.cb), y),
                   Late(d.a, y), d.b.peer.isOpen, d.a.peer.isOpen, d.ca.codec);
  }

  /** What failing lane `y` does to its stream, when that is live. */
  lemma FailLaneAt(p: Peer, w: Writer, y: nat, unsentOpen: bool)
    requires y in p.live && y in p.objects && LaneAt(w, y) == EMPTY_LANE
    ensures var now := p.(writer := w);
            var f := ResetWith(y, INTERNAL_ERROR, None);
            Became(now, FailLane(now, y, unsentOpen), y,
                   Fallen(At(p, y).(lane := if unsentOpen then EMPTY_LANE else Tail(EMPTY_LANE, f)), INTERNAL_ERROR))
  {
    hide Became, FailStream, QueueReset, LaneAt, Fallen;
    var now := p.(writer := w);
    if unsentOpen {
      FailStreamAt(now, y, INTERNAL_ERROR);
    } else {
      var q := QueueReset(now, y, INTERNAL_ERROR);
      QueueResetAt(now, y, INTERNAL_ERROR);
      BecameCell(now, q, y, At(now, y).(lane := Tail(EMPTY_LANE, ResetWith(y, INTERNAL_ERROR, None))));
      QueueResetHas(now, y, INTERNAL_ERROR);
      FailStreamAt(q, y, INTERNAL_ERROR);
      BecameTrans(now, q, FailStream(q, y, INTERNAL_ERROR), y, At(q, y), Fallen(At(q, y), INTERNAL_ERROR));
    }
  }

  lemma QueueResetHas(p: Peer, y: nat, code: int)
    ensures QueueReset(p, y, code).objects == p.objects
  {
    hide Enqueue;
  }

  lemma FailedLiveJoined(d: Duplex, d': Duplex, w: Writer, y: nat, unsentOpen: bool)
    requires Joined(d) && y in d.a.peer.live && y in d.a.peer.objects && LaneAt(w, y) == EMPTY_LANE
    requires d' == d.(a := d'.a) && d'.a.log == d.a.log && d'.a.said == d.a.said && Steady(d'.a, d.ca)
    requires d'.a.peer == FailLane(d.a.peer.(writer := w), y, unsentOpen)
    requires forall x: nat :: x != y ==> Coming(LaneAt(w, x)) == Coming(LaneAt(d.a.peer.writer, x))
    requires unsentOpen == Unsent(d.a.peer.writer, y)
    ensures Joined(d')
  {
    hide Joined, Steady, Tied, Coming, LaneAt, On, Unsent, Fallen, Tail, Proper, Fitting, Seen, Own, Tuned, FailLane;
    var p := d.a.peer;
    var now := d.(a := d.a.(peer := p.(writer := w)));
    var lane := if unsentOpen then EMPTY_LANE else Tail(EMPTY_LANE, ResetWith(y, INTERNAL_ERROR, None));
    FailLaneAt(p, w, y, unsentOpen);
    BecameTouched(now.a.peer, d'.a.peer, y, Fallen(At(p, y).(lane := lane), INTERNAL_ERROR));
    FallenHas(At(p, y).(lane := lane), INTERNAL_ERROR);
    JoinedTuned(d);
    assert WriterOnly(d, now, w);
    assert SameFrame(d, d') by { TouchedFrame(now, d', y); WriterHalf(d, now, w, y); }
    if unsentOpen {
      UnsentFailedTied(d, d', y);
    } else {
      var rest := Coming(At(p, y).lane);
      assert Coming(EMPTY_LANE) == [] by { EmptyHasNothing(d.ca.cap, d.ca.codec); }
      assert rest == [] + rest;
      ResetTied(d, d', y, EMPTY_LANE, rest, ResetWith(y, INTERNAL_ERROR, None), INTERNAL_ERROR);
    }
    forall x: nat | x != y
      ensures Same(d, d', x) && At(d'.a.peer, x).stream == At(d.a.peer, x).stream
    {
      FailedElsewhere(d, now, d', w, y, x);
    }
    FailedTuned(d, d', y);
    AssembleJoined(d, d', y);
  }

  lemma FailedTuned(d: Duplex, d': Duplex, y: nat)
    requires Joined(d) && d'.a.said == d.a.said && d'.a.peer.highRemote == d.a.peer.highRemote
    requires y in d.a.peer.objects && At(d'.a.peer, y).stream.Some? && Proper(At(d'.a.peer, y).stream.value)
    requires At(d'.a.peer, y).stream.value.local == d.a.peer.objects[y].local
    requires Fitting(At(d'.a.peer, y).stream.value, SaidOn(d'.a, y))
    requires forall x: nat :: x != y ==> At(d'.a.peer, x).stream == At(d.a.peer, x).stream
    ensures Tuned(d'.a, Reached(d.b.log, d.rb))
  {
    hide Joined, Tuned, Proper, Fitting;
    JoinedTuned(d);
    TouchedTuned(d.a, d'.a, y, Reached(d.b.log, d.rb));
  }

  lemma FailedElsewhere(d: Duplex, now: Duplex, d': Duplex, w: Writer, y: nat, x: nat)
    requires WriterOnly(d, now, w) && now.a.log == d.a.log && now.a.said == d.a.said && now == d.(a := now.a)
    requires d' == d.(a := d'.a) && d'.a.log == d.a.log && d'.a.said == d.a.said
    requires Touched(now.a.peer, d'.a.peer, y) && x != y
    requires Coming(LaneAt(w, x)) == Coming(LaneAt(d.a.peer.writer, x))
    ensures Same(d, d', x) && At(d'.a.peer, x).stream == At(d.a.peer, x).stream
  {
    hide LaneAt, Coming, On, Own, Seen, HalfOf;
    assert At(d'.a.peer, x) == At(now.a.peer, x);
    SameWay(d, now, w, x);
    OtherStream(now, d', y, x);
  }

  /** A dead end drops a lane it can no longer send. */
  lemma DeadLaneJoined(d: Duplex, d': Duplex, w: Writer, y: nat)
    requires Joined(d) && WriterOnly(d, d', w) && d'.a.log == d.a.log && !d.a.peer.isOpen && Steady(d'.a, d.ca)
    requires LaneAt(w, y) == EMPTY_LANE
    requires forall x: nat :: x != y ==> Coming(LaneAt(w, x)) == Coming(LaneAt(d.a.peer.writer, x))
    ensures Joined(d')
  {
    hide Joined, Steady, Tied, Coming, LaneAt, On, Own, Tuned, HalfA, Goodbyes;
    JoinedTuned(d);
    forall x: nat | x != y
      ensures Same(d, d', x)
    {
      SameWay(d, d', w, x);
    }
    WriterHalf(d, d', w, y);
    WriterTuned(d, d', w);
    assert Coming(EMPTY_LANE) == [] by { EmptyHasNothing(d.ca.cap, d.ca.codec); }
    assert WayA(d', y) == On(Unread(d.a.log, d.ra), y);
    if y == 0 {
      FewerGoodbyes(d, d', On(Unread(d.a.log, d.ra), 0), Coming(LaneAt(d.a.peer.writer, 0)));
    } else {
      DeadLaneTied(d, d', y);
    }
    AssembleJoined(d, d', y);
  }

  lemma FewerGoodbyes(d: Duplex, d': Duplex, kept: seq<Frame>, dropped: seq<Frame>)
    requires Goodbyes(d) && WayA(d, 0) == kept + dropped && WayA(d', 0) == kept && d'.a.peer.goaway == d.a.peer.goaway
    ensures Goodbyes(d')
  {
    hide WayA;
    assert forall f :: f in kept ==> f in kept + dropped;
  }

  lemma DeadLaneTied(d: Duplex, d': Duplex, y: nat)
    requires Joined(d) && 0 < y && !d.a.peer.isOpen && SameFrame(d, d')
    requires HalfA(d', y) == HalfA(d, y) && HalfA(Flip(d'), y) == HalfA(Flip(d), y)
      && WayA(Flip(d'), y) == WayA(Flip(d), y)
    requires WayA(d', y) == On(Unread(d.a.log, d.ra), y)
    ensures Tied(d', y) && Tied(Flip(d'), y)
  {
    hide Joined, Linked, HalfA, On, Coming, Own;
    JoinedTies(d, y);
    CutOffLinked(HalfA(d, y), WayA(d, y), WayA(d', y), Coming(LaneAt(d.a.peer.writer, y)), HalfA(Flip(d), y),
                 HalfA(d', y), Own(SideOf(d.a.peer, d.ca), y), Late(d.b, y), d.a.peer.isOpen, d.b.peer.isOpen,
                     d.ca.codec);
  }

  lemma FailedJoined(d: Duplex, d': Duplex, w: Writer, y: nat, unsentOpen: bool)
    requires Joined(d) && LaneAt(w, y) == EMPTY_LANE
    requires d' == d.(a := d'.a) && d'.a.log == d.a.log && d'.a.said == d.a.said && Steady(d'.a, d.ca)
    requires d'.a.peer == FailLane(d.a.peer.(writer := w), y, unsentOpen)
    requires d'.a == d.a.(peer := d'.a.peer, inFlight := d'.a.inFlight)
    requires forall x: nat :: x != y ==> Coming(LaneAt(w, x)) == Coming(LaneAt(d.a.peer.writer, x))
    requires unsentOpen == Unsent(d.a.peer.writer, y)
    ensures Joined(d')
  {
    hide Joined, Steady, Tied, Coming, LaneAt, Unsent, Die, FailStream, QueueReset;
    if y in d.a.peer.live && y in d.a.peer.objects {
      FailedLiveJoined(d, d', w, y, unsentOpen);
    } else if d.a.peer.isOpen {
      InFlightJoined(d, d', w);
    } else {
      DeadStays(d.a.peer.(writer := w));
      JoinedTuned(d);
      DeadLaneJoined(d, d', w, y);
    }
  }

  /** The in-flight mark means nothing to the other end. */
  lemma InFlightJoined(d: Duplex, d': Duplex, w: Writer)
    requires Joined(d) && d.a.peer.isOpen && Steady(d'.a, d.ca)
    requires d' == d.(a := d.a.(peer := Die(d.a.peer.(writer := w)), inFlight := d'.a.inFlight))
    ensures Joined(d')
  {
    hide Joined, Steady, Die;
    var d1 := d.(a := d.a.(inFlight := None));
    NoneInFlight(d);
    var d2 := d1.(a := d1.a.(peer := Die(d1.a.peer.(writer := w))));
    SteadyUnflown(d'.a, d.ca);
    DieJoinedWith(d1, d2, w);
    InFlightFree(d2, d');
  }

  lemma NoneInFlight(d: Duplex)
    requires Joined(d)
    ensures Joined(d.(a := d.a.(inFlight := None)))
  {
    hide Steady, Tied, Tuned, Lawful;
    var d' := d.(a := d.a.(inFlight := None));
    SteadyUnflown(d.a, d.ca);
    forall x: nat | 0 < x
      ensures Tied(d', x) && Tied(Flip(d'), x)
    {
      InFlightTied(d, d', x);
    }
    InFlightTuned(d.a, d'.a, Reached(d.b.log, d.rb));
    JoinedParts(d, d');
  }

  lemma InFlightTuned(e: End, e': End, heard: seq<Frame>)
    requires e' == e.(inFlight := e'.inFlight) && Tuned(e, heard)
    ensures Tuned(e', heard)
  {
    hide Proper, OpenedIn, Seen;
  }

  lemma InFlightTied(d: Duplex, d': Duplex, x: nat)
    requires d' == d.(a := d.a.(inFlight := d'.a.inFlight)) && Tied(d, x) && Tied(Flip(d), x)
    ensures Tied(d', x) && Tied(Flip(d'), x)
  {
    hide Linked, HalfOf, Own, Seen, At, On, Coming;
  }

  lemma SteadyUnflown(e: End, cfg: Config)
    requires Steady(e, cfg)
    ensures Steady(e.(inFlight := None), cfg)
  {
    hide Sound, Bounded, Afloat;
  }

  lemma InFlightFree(d: Duplex, d': Duplex)
    requires Joined(d) && d' == d.(a := d.a.(inFlight := d'.a.inFlight)) && Steady(d'.a, d.ca)
    ensures Joined(d')
  {
    hide Steady, Tied, Tuned, Lawful;
    forall x: nat | 0 < x
      ensures Tied(d', x) && Tied(Flip(d'), x)
    {
      InFlightTied(d, d', x);
    }
    InFlightTuned(d.a, d'.a, Reached(d.b.log, d.rb));
    JoinedParts(d, d');
  }

  // ------------------------------------------------------------ the two moves of the write loop

  lemma TurnOutcome(d: Duplex)
    requires Joined(d)
    ensures var (w, turn) := NextFrame(d.a.peer.writer, d.ca.cap, d.ca.codec);
            && Outcome(d.a.peer.writer, d.a.log, w, turn, SideOf(d.a.peer, d.ca))
            && (turn.Sent? ==> LaneOf(turn.frame) == turn.id)
            && (turn.Failed? ==> turn.unsentOpen == Unsent(d.a.peer.writer, turn.id))
  {
    hide Joined, Tidy, NextFrame, Sound, Seen, Unsent;
    JoinedSteady(d);
    NextFrameTidy(d.a.peer.writer, d.a.log, SideOf(d.a.peer, d.ca), d.a.peer.highLocal);
  }

  lemma TakeJoined(d: Duplex)
    requires Joined(d)
    ensures Joined(MoveA(d, Do(Take)))
  {
    hide Joined, Steady, NextFrame, FailLane, Outcome, LaneAt, Coming, Prepare, Unsent;
    var d' := MoveA(d, Do(Take));
    JoinedSteady(d);
    JoinedTuned(d);
    StepSteady(d.a, Take, d.ca);
    if d.a.inFlight.None? {
      var (w, turn) := NextFrame(d.a.peer.writer, d.ca.cap, d.ca.codec);
      NextFrameTurned(d.a.peer.writer, d.ca.cap, d.ca.codec);
      TurnOutcome(d);
      match turn
      case Nothing => IdleTurnJoined(d, d', w);
      case Sent(y, f) => SentJoined(d, d', w, f);
      case Failed(y, unsentOpen) => FailedJoined(d, d', w, y, unsentOpen);
    }
  }

  lemma AdvanceOutcome(d: Duplex, y: nat)
    requires Joined(d) && d.a.inFlight == Some(y)
    ensures var (w, turn) := Advance(d.a.peer.writer, y, d.ca.cap, d.ca.codec);
            && !turn.Sent?
            && (turn.Failed? ==> turn.id == y && !turn.unsentOpen && !Unsent(d.a.peer.writer, y))
  {
    hide Joined, Tidy, Advance, Sound, Seen, Unsent;
    JoinedSteady(d);
    AdvanceTidy(d.a.peer.writer, d.a.log, SideOf(d.a.peer, d.ca), d.a.peer.highLocal, y);
    TidyLane(d.a.peer.writer, d.a.log, SideOf(d.a.peer, d.ca), d.a.peer.highLocal, y);
  }

  lemma TakenJoined(d: Duplex, lane: nat)
    requires Joined(d)
    ensures Joined(MoveA(d, Do(Taken(lane))))
  {
    hide Joined, Steady, Advance, FailLane, LaneAt, Coming, Prepare, Unsent;
    var d' := MoveA(d, Do(Taken(lane)));
    JoinedSteady(d);
    JoinedTuned(d);
    StepSteady(d.a, Taken(lane), d.ca);
    if d.a.inFlight.Some? {
      var y := d.a.inFlight.value;
      var (w, turn) := Advance(d.a.peer.writer, y, d.ca.cap, d.ca.codec);
      AdvanceTurned(d.a.peer.writer, y, d.ca.cap, d.ca.codec);
      AdvanceOutcome(d, y);
      if turn.Failed? {
        FailedJoined(d, d', w, y, turn.unsentOpen);
      } else {
        SlicedJoined(d, d', w, y);
      }
    }
  }
}
