/** Runs that nothing disturbs: no application resets a stream, no handler raises, no lane fails to encode, no end says
    farewell or dies, and no limit is reached.  In them no receiver closes a stream over what it is sent, and all that
    is said is heard. */
module Undisturbed {
  import opened Frames
  import opened Codecs
  import opened WriterModel
  import opened PeerModel
  import opened PeerInvariant
  import opened Outbound
  import opened Ends
  import opened Conversation
  import opened Halves
  import opened Strands
  import opened Reception
  import opened DuplexModel
  import opened DuplexMoves
  import opened DuplexWriting
  import opened DuplexReading
  import opened DuplexLaws
  import opened Room
  import A = Assembly
  import S = StreamModel

  // ------------------------------------------------------------ one direction of one stream

  function HeldBy(k: Half): nat { if k.Alive? then k.heard.partial.bytes else 0 }

  function TallyOf(k: Half, strict: bool): Tally { Tally(HeldBy(k), strict && k.Alive? && k.heard.ended) }

  /** Neither half was reset; there is room for all that is on its way from `h` to `k`, to the end of it; and nothing
      follows the end of an opener. */
  predicate Sane(h: Half, q: seq<Frame>, k: Half, own: bool, room: nat, codec: Codec) {
    && !h.Dead? && !k.Dead?
    && (k.Alive? && k.heard.ended ==> HeldBy(k) == 0)
    && Through(TallyOf(k, own), q, own, room, codec) == Some(Tally(0, own && h.Alive? && h.said.ended))
  }

  ghost predicate SaneAt(d: Duplex, x: nat) {
    && Sane(HalfA(d, x), WayA(d, x), HalfA(Flip(d), x), Own(SideOf(d.a.peer, d.ca), x), d.cb.maxPayload, d.ca.codec)
    && !At(d.a.peer, x).cut
  }

  /** A frame is said. */
  lemma SaysSanely(h: Half, q: seq<Frame>, f: Frame, h': Half, k: Half, own: bool, room: nat, codec: Codec)
    requires Sane(h, q, k, own, room, codec) && h.Alive? && h'.Alive?
    requires f.fragment.None? && (f.payload.Some? ==> Fits(f.payload.value, room, codec))
    requires own ==> !h.said.ended && h'.said.ended == f.end
    ensures Sane(h', q + [f], k, own, room, codec)
  {
    hide Through, After;
    ThroughAppend(TallyOf(k, own), q, [f], own, room, codec);
    ThroughOne(Tally(0, false), f, own, room, codec);
    assert After(Tally(0, false), f, own, room, codec)
        == Some(Tally(0, own && f.end)) by { SaidAfter(f, own, room, codec); }
  }

  lemma SaidAfter(f: Frame, strict: bool, room: nat, codec: Codec)
    requires f.fragment.None? && (f.payload.Some? ==> Fits(f.payload.value, room, codec))
    ensures After(Tally(0, false), f, strict, room, codec) == Some(Tally(0, strict && f.end))
  {
  }

  /** What a listener holds after a frame it hears. */
  lemma HeardTally(e: Ear, f: Frame, view: View, t: Tally, strict: bool, room: nat, codec: Codec)
    requires !Stopped(e) && Hear(e, f, codec).Hearing? && Hear(e, f, codec).view == view
    requires e.Unseen? || (e.Hearing? && t == Tally(e.view.partial.bytes, strict && e.view.ended)
        && (e.view.opening ==> !e.view.ended) && (e.view.partial.parts == [] ==> e.view.partial.bytes == 0))
    requires e.Unseen? ==> t == Tally(0, false)
    requires After(t, f, strict, room, codec).Some?
    ensures After(t, f, strict, room, codec).value == Tally(view.partial.bytes, strict && view.ended)
    ensures view.ended ==> view.partial.bytes == 0
  {
    hide A.Join;
  }

  lemma HalfTally(k: Half, f: Frame, view: View, strict: bool, room: nat, codec: Codec)
    requires !k.Dead? && !Stopped(EarOf(k)) && Hear(EarOf(k), f, codec).Hearing?
      && Hear(EarOf(k), f, codec).view == view
    requires EarOf(k).Unseen? || (EarOf(k).Hearing? && (EarOf(k).view.opening ==> !EarOf(k).view.ended)
        && (EarOf(k).view.partial.parts == [] ==> EarOf(k).view.partial.bytes == 0))
    requires After(TallyOf(k, strict), f, strict, room, codec).Some?
    ensures After(TallyOf(k, strict), f, strict, room, codec).value == Tally(view.partial.bytes, strict && view.ended)
    ensures view.ended ==> view.partial.bytes == 0
  {
    hide Hear, After;
    HeardTally(EarOf(k), f, view, TallyOf(k, strict), strict, room, codec);
  }

  // ------------------------------------------------------------ what every such run keeps

  predicate Upright(d: Duplex) {
    && d.a.peer.isOpen && !d.a.peer.failed && d.a.peer.goaway.sentLast.None?
    && d.b.peer.isOpen && !d.b.peer.failed && d.b.peer.goaway.sentLast.None?
  }

  ghost predicate Healthy(d: Duplex) {
    && Joined(d) && Upright(d)
    && forall x: nat :: 0 < x ==> SaneAt(d, x) && SaneAt(Flip(d), x)
  }

  lemma HealthyAt(d: Duplex, x: nat)
    requires Healthy(d) && 0 < x
    ensures SaneAt(d, x) && SaneAt(Flip(d), x) && Joined(d) && Upright(d)
    ensures !At(d.a.peer, x).cut && !At(d.b.peer, x).cut
  {
    hide Joined, Upright, HalfA, WayA, Sane, At;
  }

  lemma FlipHealthy(d: Duplex)
    requires Healthy(d)
    ensures Healthy(Flip(d))
  {
    hide Joined, SaneAt;
    FlipJoined(d);
    assert Flip(Flip(d)) == d;
  }

  /** The streams of the remote's that are live. */
  function Theirs(p: Peer): set<nat> {
    set x | x in p.live && !IsOurs(p, x)
  }

  /** What may happen in a run that nothing disturbs.  A payload is within the other end's cap; an `open` is read by an
      end with a handler, that has room for one stream more; a lane's next frame encodes. */
  ghost predicate GentleMove(d: Duplex, m: Move) {
    match m
    case Deliver =>
      CanRead(d) && Head(d).kind == OpenFrame ==>
        d.a.peer.handler && (LaneOf(Head(d)) in d.a.peer.objects || |Theirs(d.a.peer)| < d.ca.maxStreams)
    case Do(action) =>
      match action
      case Open(payload, _, _) => Fits(payload, d.cb.maxPayload, d.ca.codec)
      case Send(_, data, _, _, _) => data.Some? ==> Fits(data.value, d.cb.maxPayload, d.ca.codec)
      case Take => d.a.inFlight.None? ==> !NextFrame(d.a.peer.writer, d.ca.cap, d.ca.codec).1.Failed?
      case Taken(_) =>
        d.a.inFlight.Some? ==> !Advance(d.a.peer.writer, d.a.inFlight.value, d.ca.cap, d.ca.codec).1.Failed?
      case Register => true
      case Ping(_) => true
      case Read(_, _) => true
      case _ => false
  }

  ghost predicate Gentle(d: Duplex, e: Event) {
    match e
    case AtA(m) => GentleMove(d, m)
    case AtB(m) => GentleMove(Flip(d), m)
  }

  ghost predicate Untroubled(d: Duplex, events: seq<Event>)
    decreases |events|
  {
    events == [] || (Gentle(d, events[0]) && Untroubled(Happen(d, events[0]), events[1..]))
  }

  // ------------------------------------------------------------ one move

  lemma SameSane(d: Duplex, d': Duplex, x: nat)
    requires Same(d, d', x) && SameFrame(d, d') && SaneAt(d, x) && SaneAt(Flip(d), x)
    requires At(d'.a.peer, x).cut == At(d.a.peer, x).cut && d'.b == d.b
    ensures SaneAt(d', x) && SaneAt(Flip(d'), x)
  {
    hide HalfA, WayA, Sane, At, Own;
  }

  /** All that a move must show: what it does to one stream, and that it leaves the others. */
  lemma OneSane(d: Duplex, d': Duplex, id: nat)
    requires Healthy(d) && d'.b == d.b && SameFrame(d, d') && Joined(d') && Upright(d')
    requires forall x: nat :: x != id && 0 < x ==> Same(d, d', x) && At(d'.a.peer, x).cut == At(d.a.peer, x).cut
    requires 0 < id ==> SaneAt(d', id) && SaneAt(Flip(d'), id)
    ensures Healthy(d')
  {
    hide Joined, Upright, SaneAt, Same, At;
    forall x: nat | 0 < x
      ensures SaneAt(d', x) && SaneAt(Flip(d'), x)
    {
      if x != id {
        SameSane(d, d', x);
      }
    }
  }

  lemma RegisterHealthy(d: Duplex)
    requires Healthy(d)
    ensures Healthy(MoveA(d, Do(Register)))
  {
    hide Joined, SaneAt, Same, At;
    var d' := MoveA(d, Do(Register));
    RegisterJoined(d);
    forall x: nat ensures Same(d, d', x) && At(d'.a.peer, x).cut == At(d.a.peer, x).cut {
      RegisterSame(d, d', x);
      assert At(d'.a.peer, x) == At(d.a.peer, x) by { UnchangedCells(d.a.peer, d'.a.peer); }
    }
    OneSane(d, d', 0);
  }

  lemma SendHealthy(d: Duplex, id: nat, payload: Option<Value>, headers: Option<Fields>, end: bool,
                    trailers: Option<Fields>)
    requires Healthy(d) && (payload.Some? ==> Fits(payload.value, d.cb.maxPayload, d.ca.codec))
    ensures Healthy(MoveA(d, Do(Send(id, payload, headers, end, trailers))))
  {
    hide Joined, Step, SaneAt, Same, At, Became, Spoken, Tail, Fits, S.MaySend;
    var d' := MoveA(d, Do(Send(id, payload, headers, end, trailers)));
    SendJoined(d, id, payload, headers, end, trailers);
    SendCases(d, id, payload, headers, end, trailers);
    if d'.a != d.a {
      var c := At(d.a.peer, id);
      var f := DataOf(id, payload, headers, end, trailers);
      var c' := Cell(Some(Spoken(d.a.peer.objects[id], headers, end)), Tail(c.lane, f), c.cut);
      BecameCell(d.a.peer, d'.a.peer, id, c');
      BecameFrame(d, d', id, c');
      LiveHalf(d, id);
      SendSane(d, d', id, payload, headers, end, trailers);
      BecameTouched(d.a.peer, d'.a.peer, id, c');
      forall x: nat | x != id
        ensures Same(d, d', x) && At(d'.a.peer, x).cut == At(d.a.peer, x).cut
      {
        OtherStream(d, d', id, x);
        assert At(d'.a.peer, x) == At(d.a.peer, x) by { BecameElsewhere(d.a.peer, d'.a.peer, id, c', x); }
      }
      BecameUpright(d, d', id, c');
      OneSane(d, d', id);
    }
  }

  lemma BecameElsewhere(p: Peer, p': Peer, id: nat, c: Cell, x: nat)
    requires Became(p, p', id, c) && x != id
    ensures At(p', x) == At(p, x)
  {
    hide At;
  }

  lemma BecameUpright(d: Duplex, d': Duplex, id: nat, c: Cell)
    requires Upright(d) && d' == d.(a := d'.a) && Became(d.a.peer, d'.a.peer, id, c)
    ensures Upright(d')
  {
    hide At;
  }

  lemma SendSane(d: Duplex, d': Duplex, id: nat, payload: Option<Value>, headers: Option<Fields>, end: bool,
                 trailers: Option<Fields>)
    requires Healthy(d) && Sends(d, d', id, payload, headers, end, trailers)
    requires payload.Some? ==> Fits(payload.value, d.cb.maxPayload, d.ca.codec)
    ensures SaneAt(d', id) && SaneAt(Flip(d'), id)
  {
    hide Joined, HalfA, WayA, Own, Fits, Spoken, Uttered, Proper, Tail, LaneAt;
    LiveHalf(d, id);
    HealthyAt(d, id);
    SendHalf(d, d', id, payload, headers, end, trailers);
    var f := DataOf(id, payload, headers, end, trailers);
    var own := Own(SideOf(d.a.peer, d.ca), id);
    if own { OpenerSpeaksOnce(d, id, headers); }
    SaysSanely(HalfA(d, id), WayA(d, id), f, HalfA(d', id), HalfA(Flip(d), id), own, d.cb.maxPayload, d.ca.codec);
    HearsNoMore(HalfA(Flip(d), id), WayA(Flip(d), id), HalfA(d, id), HalfA(d', id), Own(SideOf(d.b.peer, d.cb), id),
                d.ca.maxPayload, d.cb.codec);
  }

  /** An opener that may send has not ended. */
  lemma OpenerSpeaksOnce(d: Duplex, id: nat, headers: Option<Fields>)
    requires Joined(d) && id in d.a.peer.live && id in d.a.peer.objects && S.MaySend(d.a.peer.objects[id], headers)
    requires Own(SideOf(d.a.peer, d.ca), id)
    ensures !HalfA(d, id).said.ended
  {
    hide Joined, HeardOf, ValuesOf, Proper, Tied, Own;
    LiveHalf(d, id);
  }

  /** The listener's own words change nothing of what it hears. */
  lemma HearsNoMore(h: Half, q: seq<Frame>, k: Half, k': Half, own: bool, room: nat, codec: Codec)
    requires Sane(h, q, k, own, room, codec) && k.Alive? && k'.Alive? && k'.heard == k.heard
    ensures Sane(h, q, k', own, room, codec)
  {
    hide Through;
  }

  lemma OpenHealthy(d: Duplex, payload: Value, headers: Option<Fields>, end: bool)
    requires Healthy(d) && Fits(payload, d.cb.maxPayload, d.ca.codec)
    ensures Healthy(MoveA(d, Do(Open(payload, headers, end))))
  {
    hide Joined, SaneAt, Same, At, Touched, Tail, Fits, OpenStream, LaneAt;
    var d' := MoveA(d, Do(Open(payload, headers, end)));
    OpenJoined(d, payload, headers, end);
    if MayOpen(d.a.peer) {
      var id := d.a.peer.nextId;
      OpenCases(d.a.peer, payload, headers, end);
      TouchedFrame(d, d', id);
      NextIsUnborn(d);
      OpenSane(d, d', payload, headers, end);
      forall x: nat | x != id
        ensures Same(d, d', x) && At(d'.a.peer, x).cut == At(d.a.peer, x).cut
      {
        OtherStream(d, d', id, x);
        assert At(d'.a.peer, x) == At(d.a.peer, x) by { TouchedElsewhere(d.a.peer, d'.a.peer, id, x); }
      }
      OpenUpright(d.a.peer, payload, headers, end);
      OneSane(d, d', id);
    }
  }

  lemma TouchedElsewhere(p: Peer, p': Peer, id: nat, x: nat)
    requires Touched(p, p', id) && x != id
    ensures At(p', x) == At(p, x)
  {
    hide At;
  }

  lemma OpenUpright(p: Peer, payload: Value, headers: Option<Fields>, end: bool)
    ensures var p' := OpenStream(p, payload, headers, end);
            p'.isOpen == p.isOpen && p'.failed == p.failed && p'.goaway == p.goaway
  {
    hide Enqueue;
  }

  lemma OpenSane(d: Duplex, d': Duplex, payload: Value, headers: Option<Fields>, end: bool)
    requires Healthy(d) && d' == d.(a := d'.a) && SameFrame(d, d') && d'.a.log == d.a.log
    requires Fits(payload, d.cb.maxPayload, d.ca.codec)
    requires var id := d.a.peer.nextId;
             && SaidOn(d'.a, id) == Opened(payload, end)
             && At(d'.a.peer, id)
                == Cell(Some(S.NewStream(id, true, if end then S.HalfClosedLocal else S.Open, headers, Some(payload))),
                        Tail(LaneAt(d.a.peer.writer, id), OpenOf(id, payload, headers, end)), id in d.a.peer.cut)
    ensures var id := d.a.peer.nextId; SaneAt(d', id) && SaneAt(Flip(d'), id)
  {
    hide Joined, Linked, HalfOf, Own, On, Seen, Fits, Through;
    var id := d.a.peer.nextId;
    var f := OpenOf(id, payload, headers, end);
    NextIsUnborn(d);
    HealthyAt(d, id);
    OwnSplitsJoined(d, id);
    CodecLawful(d);
    NewHalf(id, payload, headers, end, At(d'.a.peer, id), !Own(SideOf(d.a.peer, d.ca), id)
            && Seen(Reached(d.b.log, d.rb), id));
    ComingTail(EMPTY_LANE, f);
    assert Coming(EMPTY_LANE) == [];
    assert WayA(d, id) == [] && WayA(d', id) == [f];
    UnbornAtBoth(HalfA(d, id), [], HalfA(Flip(d), id), Late(d.b, id), d.a.peer.isOpen, d.b.peer.isOpen, d.ca.codec);
    UnbornSilent(HalfA(Flip(d), id), WayA(Flip(d), id), HalfA(d, id), false, Late(d.a, id), d.b.peer.isOpen,
                 d.a.peer.isOpen, d.ca.codec);
    ThroughOne(Tally(0, false), f, true, d.cb.maxPayload, d.ca.codec);
    SaidAfter(f, true, d.cb.maxPayload, d.ca.codec);
    OpenedSane(HalfA(d', id), f, HalfA(Flip(d), id), d.cb.maxPayload, d.ca.codec);
    SilentSane(HalfA(Flip(d), id), HalfA(d', id), Own(SideOf(d.b.peer, d.cb), id), d.ca.maxPayload, d.cb.codec);
  }

  lemma OpenedSane(h: Half, f: Frame, k: Half, room: nat, codec: Codec)
    requires h.Alive? && h.said.ended == f.end && k.Unborn?
    requires Through(Tally(0, false), [f], true, room, codec) == Some(Tally(0, f.end))
    ensures Sane(h, [f], k, true, room, codec)
  {
    hide Through;
  }

  lemma SilentSane(h: Half, k: Half, own: bool, room: nat, codec: Codec)
    requires h.Unborn? && k.Alive? && k.heard == FRESH
    ensures Sane(h, [], k, own, room, codec)
  {
  }

  lemma PingHealthy(d: Duplex, nonce: Text)
    requires Healthy(d)
    ensures Healthy(MoveA(d, Do(Ping(nonce))))
  {
    hide Joined, SaneAt, Same, At, Queue;
    var d' := MoveA(d, Do(Ping(nonce)));
    SendPingJoined(d, nonce);
    PingSame(d, d', nonce);
    QueueKeepsUpright(d.a.peer, PingOf(nonce));
    forall x: nat | 0 < x
      ensures Same(d, d', x) && At(d'.a.peer, x).cut == At(d.a.peer, x).cut
    {
      assert At(d'.a.peer, x).cut == At(d.a.peer, x).cut by { QueueKeepsCut(d.a.peer, PingOf(nonce), x); }
    }
    OneSane(d, d', 0);
  }

  lemma QueueKeepsCut(p: Peer, f: Frame, x: nat)
    ensures At(Queue(p, f), x).cut == At(p, x).cut
  {
    hide Enqueue, LaneAt;
  }

  lemma QueueKeepsUpright(p: Peer, f: Frame)
    ensures var p' := Queue(p, f); p'.isOpen == p.isOpen && p'.failed == p.failed && p'.goaway == p.goaway
  {
    hide Enqueue;
  }

  // ------------------------------------------------------------ the write loop

  lemma WriterSane(d: Duplex, d': Duplex, w: Writer, x: nat)
    requires WriterOnly(d, d', w) && SaneAt(d, x) && SaneAt(Flip(d), x)
    requires var own := Own(SideOf(d.a.peer, d.ca), x);
             var t := TallyOf(HalfA(Flip(d), x), own);
             Through(t, WayA(d', x), own, d.cb.maxPayload, d.ca.codec)
                 == Through(t, WayA(d, x), own, d.cb.maxPayload, d.ca.codec)
    ensures SaneAt(d', x) && SaneAt(Flip(d'), x)
  {
    hide HalfA, WayA, Through, LaneAt, Own;
    WriterHalf(d, d', w, x);
  }

  lemma WriterHealthy(d: Duplex, d': Duplex, w: Writer, y: nat, front: seq<Frame>, lane: Lane)
    requires Healthy(d) && WriterOnly(d, d', w) && Joined(d') && 0 < y && Sliceable(lane)
    requires Prepare(lane, d.ca.cap, d.ca.codec).Ready?
    requires WayA(d, y) == front + Coming(lane)
    requires WayA(d', y) == front + Coming(Prepare(lane, d.ca.cap, d.ca.codec).lane)
    ensures SaneAt(d', y) && SaneAt(Flip(d'), y)
  {
    hide HalfA, WayA, Through, LaneAt, Own, Joined, Prepare, Coming, Sliceable;
    HealthyAt(d, y);
    var own := Own(SideOf(d.a.peer, d.ca), y);
    SlicedFits(front, lane, TallyOf(HalfA(Flip(d), y), own), own, d.cb.maxPayload, d.ca.cap, d.ca.codec);
    WriterSane(d, d', w, y);
  }

  lemma WriterCut(d: Duplex, d': Duplex, w: Writer, x: nat)
    requires WriterOnly(d, d', w) && Upright(d)
    ensures At(d'.a.peer, x).cut == At(d.a.peer, x).cut && Upright(d')
  {
    hide LaneAt;
  }

  lemma SentHealthy(d: Duplex, d': Duplex, w: Writer, f: Frame)
    requires Healthy(d) && WriterOnly(d, d', w) && d'.a.log == d.a.log + [f] && Joined(d')
    requires Turned(d.a.peer.writer, w, Sent(LaneOf(f), f), d.ca.cap, d.ca.codec)
    ensures Healthy(d')
  {
    hide Joined, Prepare, Coming, LaneAt, On, SaneAt, Same, At, Sliceable;
    var y := LaneOf(f);
    JoinedTuned(d);
    forall x: nat | x != y
      ensures Same(d, d', x) && At(d'.a.peer, x).cut == At(d.a.peer, x).cut
    {
      UnreadGrows(d.a.log, f, d.ra, x);
      SameWay(d, d', w, x);
      WriterCut(d, d', w, x);
    }
    var lane := LaneAt(d.a.peer.writer, y);
    var ready := Prepare(lane, d.ca.cap, d.ca.codec).lane;
    UnreadGrows(d.a.log, f, d.ra, y);
    PreparedComing(ready, f);
    TidySliceable(d, y);
    assert WayA(d', y) == On(Unread(d.a.log, d.ra), y) + Coming(ready);
    if 0 < y { WriterHealthy(d, d', w, y, On(Unread(d.a.log, d.ra), y), lane); }
    WriterCut(d, d', w, y);
    WriterHalf(d, d', w, y);
    OneSane(d, d', y);
  }

  lemma SlicedHealthy(d: Duplex, d': Duplex, w: Writer, y: nat)
    requires Healthy(d) && WriterOnly(d, d', w) && d'.a.log == d.a.log && Joined(d')
    requires forall x: nat :: x != y ==> Coming(LaneAt(w, x)) == Coming(LaneAt(d.a.peer.writer, x))
    requires Prepare(LaneAt(d.a.peer.writer, y), d.ca.cap, d.ca.codec) == Ready(LaneAt(w, y))
             || Coming(LaneAt(w, y)) == Coming(LaneAt(d.a.peer.writer, y))
    ensures Healthy(d')
  {
    hide Joined, Prepare, Coming, LaneAt, On, SaneAt, Same, At, Sliceable;
    JoinedTuned(d);
    forall x: nat | x != y
      ensures Same(d, d', x) && At(d'.a.peer, x).cut == At(d.a.peer, x).cut
    {
      SameWay(d, d', w, x);
      WriterCut(d, d', w, x);
    }
    TidySliceable(d, y);
    WriterCut(d, d', w, y);
    WriterHalf(d, d', w, y);
    if 0 < y {
      if Coming(LaneAt(w, y)) == Coming(LaneAt(d.a.peer.writer, y)) {
        SameWay(d, d', w, y);
        HealthyAt(d, y);
        SameSane(d, d', y);
      } else {
        WriterHealthy(d, d', w, y, On(Unread(d.a.log, d.ra), y), LaneAt(d.a.peer.writer, y));
      }
    }
    OneSane(d, d', y);
  }

  lemma TakeHealthy(d: Duplex)
    requires Healthy(d) && GentleMove(d, Do(Take))
    ensures Healthy(MoveA(d, Do(Take)))
  {
    hide Joined, SaneAt, NextFrame, Outcome, LaneAt, Coming, Prepare, Unsent, Upright;
    var d' := MoveA(d, Do(Take));
    JoinedTuned(d);
    TakeJoined(d);
    if d.a.inFlight.None? {
      var (w, turn) := NextFrame(d.a.peer.writer, d.ca.cap, d.ca.codec);
      NextFrameTurned(d.a.peer.writer, d.ca.cap, d.ca.codec);
      TurnOutcome(d);
      match turn
      case Nothing => SlicedHealthy(d, d', w, 0);
      case Sent(y, f) => SentHealthy(d, d', w, f);
    }
  }

  lemma TakenHealthy(d: Duplex, lane: nat)
    requires Healthy(d) && GentleMove(d, Do(Taken(lane)))
    ensures Healthy(MoveA(d, Do(Taken(lane))))
  {
    hide Joined, SaneAt, Advance, LaneAt, Coming, Prepare, Unsent, Upright;
    var d' := MoveA(d, Do(Taken(lane)));
    JoinedTuned(d);
    TakenJoined(d, lane);
    if d.a.inFlight.Some? {
      var y := d.a.inFlight.value;
      var (w, turn) := Advance(d.a.peer.writer, y, d.ca.cap, d.ca.codec);
      AdvanceTurned(d.a.peer.writer, y, d.ca.cap, d.ca.codec);
      AdvanceOutcome(d, y);
      SlicedHealthy(d, d', w, y);
    }
  }

  // ------------------------------------------------------------ a frame arrives

  /** A frame on the connection's lane concerns no stream. */
  lemma ConnectionHealthy(d: Duplex)
    requires Healthy(d) && CanRead(d) && LaneOf(Head(d)) == 0
    ensures Healthy(MoveA(d, Deliver))
  {
    hide Joined, Steady, SaneAt, Same, OnOpen, OnStreamFrame, OnGoaway, Queue, At;
    var d' := MoveA(d, Deliver);
    DispatchedAt(d);
    DeliverJoined(d);
    HeadIsOrderly(d);
    HeadKinds(Head(d), 0, SideOf(d.b.peer, d.cb));
    NoGoodbyeComes(d);
    if Head(d).kind == PingFrame {
      var pong := Bare(PongFrame, None).(nonce := Head(d).nonce);
      PongAt(d, d', pong);
      QueueKeepsUpright(d.a.peer, pong);
    } else if Head(d).kind == ResetFrame {
      ZeroReadJoined(d);
      UnchangedCells(d.a.peer, d'.a.peer);
    } else {
      UnchangedCells(d.a.peer, d'.a.peer);
    }
    forall x: nat | 0 < x
      ensures Same(d, d', x) && At(d'.a.peer, x).cut == At(d.a.peer, x).cut
    {
      OtherRead(d, d', x);
    }
    ReadFrame(d, d');
    OneSane(d, d', 0);
  }

  lemma ReadFrame(d: Duplex, d': Duplex)
    requires Reads(d, d') && d'.a.peer.isOpen == d.a.peer.isOpen && d'.a.peer.dialer == d.a.peer.dialer
    requires d'.a.peer.goaway.sentLast == d.a.peer.goaway.sentLast
    ensures SameFrame(d, d') && d'.b == d.b
  {
  }

  /** An end that has not said farewell has none on its way. */
  lemma NoGoodbyeComes(d: Duplex)
    requires Healthy(d) && CanRead(d) && LaneOf(Head(d)) == 0
    ensures Head(d).kind != GoawayFrame
  {
    hide Joined, SaneAt, WayA, Tuned, Steady, Tied;
    FlipJoined(d);
    JoinedTuned(Flip(d));
    DispatchedAt(d);
    OwnRead(d, MoveA(d, Deliver), 0);
    assert Head(d) in WayA(Flip(d), 0);
  }

  /** What is on its way to an end of a stream that nothing has disturbed: no reset, and room for it. */
  lemma HeadIsSane(d: Duplex, x: nat)
    requires Healthy(d) && CanRead(d) && 0 < x == LaneOf(Head(d))
    ensures Head(d).kind != ResetFrame
    ensures var own := Own(SideOf(d.b.peer, d.cb), x);
            After(TallyOf(HalfA(d, x), own), Head(d), own, d.ca.maxPayload, d.ca.codec).Some?
  {
    hide Joined, WayA, HalfA, Own, Dispatch;
    HealthyAt(d, x);
    DispatchedAt(d);
    OwnRead(d, MoveA(d, Deliver), x);
    TiedHead(d, MoveA(d, Deliver), x);
    CodecLawful(d);
    assert WayA(Flip(d), x)[0] == Head(d);
  }

  lemma Uncrowded(d: Duplex)
    requires Joined(d)
    ensures RemoteLive(d.a.peer) == Theirs(d.a.peer)
  {
    hide Joined, Bounded, Afloat, A.Counted, S.Consistent;
    JoinedSteady(d);
    forall x | x in d.a.peer.live
      ensures x in d.a.peer.objects && (d.a.peer.objects[x].local <==> IsOurs(d.a.peer, x))
    {
      assert Kept(d.a.peer, x, d.a.peer.objects[x], d.ca);
    }
  }

  /** Nothing turns the frame away. */
  lemma NoneAway(d: Duplex, x: nat)
    requires Healthy(d) && GentleMove(d, Deliver) && CanRead(d) && 0 < x == LaneOf(Head(d))
    requires Head(d).kind == OpenFrame || Head(d).kind == DataFrame
    ensures Away(d.a.peer, x, Head(d), d.ca).None?
  {
    hide Joined, WayA, Own, RemoteLive, Theirs, SaneAt;
    HeadIsSane(d, x);
    SaneIsAlive(d, x);
    HeldIs(d, x);
    Uncrowded(d);
    SentIsNone(d);
  }

  lemma SaneIsAlive(d: Duplex, x: nat)
    requires Healthy(d) && 0 < x
    ensures !HalfA(d, x).Dead? && !HalfA(Flip(d), x).Dead?
  {
    hide Joined, WayA, Own, HalfA;
    HealthyAt(d, x);
  }

  lemma SentIsNone(d: Duplex)
    requires Healthy(d)
    ensures !d.a.peer.goaway.sent
  {
    hide Joined, Bounded, Afloat, SaneAt;
    JoinedSteady(d);
  }

  lemma HeldIs(d: Duplex, x: nat)
    requires Joined(d) && !HalfA(d, x).Dead?
    ensures Held(d.a.peer, x) == HeldBy(HalfA(d, x))
    ensures x in d.a.peer.objects <==> HalfA(d, x).Alive?
  {
    hide Joined, ValuesOf, Own, Seen, LaneAt, SaidOn;
  }

  /** A frame of a stream that listens. */
  lemma HeardHealthy(d: Duplex, x: nat)
    requires Healthy(d) && GentleMove(d, Deliver) && CanRead(d) && 0 < x == LaneOf(Head(d))
    requires !Stopped(EarOf(HalfA(d, x)))
    ensures Healthy(MoveA(d, Deliver))
  {
    hide Joined, Hear, EarOf, HalfIn, WayA, Own, SaneAt, Same, LaneAt, Steady, Reached, TookIn, TurnedAwayWith, Away,
      Upright, After;
    var d' := MoveA(d, Deliver);
    HeadIsSane(d, x);
    HeadIsOrderly(d);
    HeadKinds(Head(d), x, SideOf(d.b.peer, d.cb));
    var view := StreamFrameAnswers(d, x);
    NoneAway(d, x);
    DeliverJoined(d);
    HeardSane(d, d', x, view);
    HeardUpright(d, d', x, view);
    var q := d.a.peer.(highRemote := d'.a.peer.highRemote);
    forall y: nat | y != x
      ensures Same(d, d', y) && At(d'.a.peer, y).cut == At(d.a.peer, y).cut
    {
      assert At(q, y) == At(d.a.peer, y);
      assert At(d'.a.peer, y) == At(q, y);
      OtherRead(d, d', y);
    }
    OneSane(d, d', x);
  }

  lemma HeardUpright(d: Duplex, d': Duplex, x: nat, view: View)
    requires Healthy(d) && Answered(d, d', x, view) && d' == MoveA(d, Deliver) && !d'.a.peer.failed
    ensures Upright(d') && SameFrame(d, d') && d'.b == d.b
  {
    hide Joined, Hear, EarOf, HalfIn, Own, LaneAt, TookIn, TurnedAway, SaneAt;
  }

  lemma HeardSane(d: Duplex, d': Duplex, x: nat, view: View)
    requires Healthy(d) && Hears(d, d', x, view) && TookIn(At(d.a.peer, x), At(d'.a.peer, x), view)
    ensures SaneAt(d', x) && SaneAt(Flip(d'), x)
  {
    hide Joined, Hear, EarOf, HalfIn, WayA, Own, HeardOf, SaidOf, Reached, Through, After, LaneAt;
    HealthyAt(d, x);
    TookInHalf(d, d', x, view);
    OwnRead(d, d', x);
    HeadIsSane(d, x);
    CodecLawful(d);
    ListensWell(d, x);
    var own := Own(SideOf(d.b.peer, d.cb), x);
    HalfTally(HalfA(d, x), Head(d), view, own, d.ca.maxPayload, d.ca.codec);
    HearsSanely(HalfA(Flip(d), x), Head(d), WayA(Flip(d'), x), HalfA(d, x), HalfA(d', x), own, d.ca.maxPayload,
                d.ca.codec);
    SpeaksSame(HalfA(d, x), WayA(d, x), HalfA(d', x), HalfA(Flip(d), x), Own(SideOf(d.a.peer, d.ca), x),
               d.cb.maxPayload, d.ca.codec);
  }

  /** A listener that has not stopped is one that may hear more. */
  lemma ListensWell(d: Duplex, x: nat)
    requires Joined(d) && 0 < x && !HalfA(d, x).Dead? && !Stopped(EarOf(HalfA(d, x)))
    ensures var e := EarOf(HalfA(d, x));
            || e.Unseen?
            || (&& e.Hearing? && (e.view.opening ==> !e.view.ended)
                && (e.view.partial.parts == [] ==> e.view.partial.bytes == 0))
  {
    hide Joined, ValuesOf, Own, Seen, LaneAt, SaidOn, Steady;
    JoinedSteady(d);
    AtProper(d, x);
    if x in d.a.peer.objects { LiveCounted(d.a.peer, x, d.ca); }
  }

  lemma HearsSanely(h: Half, f: Frame, q: seq<Frame>, k: Half, k': Half, own: bool, room: nat, codec: Codec)
    requires Sane(h, [f] + q, k, own, room, codec) && k'.Alive?
    requires After(TallyOf(k, own), f, own, room, codec) == Some(TallyOf(k', own))
    requires k'.heard.ended ==> HeldBy(k') == 0
    ensures Sane(h, q, k', own, room, codec)
  {
    hide After;
    assert ([f] + q)[1..] == q;
  }

  lemma SpeaksSame(h: Half, q: seq<Frame>, h': Half, k: Half, own: bool, room: nat, codec: Codec)
    requires Sane(h, q, k, own, room, codec) && h'.Alive?
    requires (h.Unborn? && h'.said == FRESH) || (h.Alive? && h'.said == h.said)
    ensures Sane(h', q, k, own, room, codec)
  {
    hide Through;
  }

  /** A stream that has stopped listening is the opener's, closed at both ends of its own: the frame is dropped. */
  lemma StoppedIsClosed(d: Duplex, x: nat)
    requires Healthy(d) && CanRead(d) && 0 < x == LaneOf(Head(d)) && Stopped(EarOf(HalfA(d, x)))
    ensures !Own(SideOf(d.b.peer, d.cb), x) && x !in d.a.peer.live && Head(d).kind == DataFrame
  {
    hide Joined, WayA, Own, HeardOf, SaidOf, ValuesOf, Proper, SaneAt, LaneAt;
    HeadIsSane(d, x);
    HeadIsOrderly(d);
    HeadKinds(Head(d), x, SideOf(d.b.peer, d.cb));
    SaneIsAlive(d, x);
    OwnSplitsJoined(d, x);
    if x in d.a.peer.live { LiveStopped(d, x); }
  }

  lemma LiveStopped(d: Duplex, x: nat)
    requires Joined(d) && x in d.a.peer.live && Stopped(EarOf(HalfA(d, x)))
    ensures !Own(SideOf(d.a.peer, d.ca), x)
  {
    hide Joined, ValuesOf, Proper, Own, Tied;
    LiveHalf(d, x);
  }

  lemma StoppedHealthy(d: Duplex, x: nat)
    requires Healthy(d) && CanRead(d) && 0 < x == LaneOf(Head(d)) && Stopped(EarOf(HalfA(d, x)))
    ensures Healthy(MoveA(d, Deliver))
  {
    hide Joined, WayA, HalfA, EarOf, Own, SaneAt, Same, Steady, At, Receive;
    var d' := MoveA(d, Deliver);
    StoppedIsClosed(d, x);
    IgnoredJoined(d, x);
    UnchangedCells(d.a.peer, d'.a.peer);
    DispatchedAt(d);
    ReadFrame(d, d');
    DroppedSane(d, d', x);
    forall y: nat | y != x
      ensures Same(d, d', y) && At(d'.a.peer, y).cut == At(d.a.peer, y).cut
    {
      OtherRead(d, d', y);
    }
    OneSane(d, d', x);
  }

  lemma DroppedSane(d: Duplex, d': Duplex, x: nat)
    requires Healthy(d) && Reads(d, d') && SameFrame(d, d') && 0 < x == LaneOf(Head(d))
    requires CanRead(d) && Stopped(EarOf(HalfA(d, x))) && !Own(SideOf(d.b.peer, d.cb), x)
    requires At(d'.a.peer, x) == At(d.a.peer, x) && d'.a.peer.writer == d.a.peer.writer
    ensures SaneAt(d', x) && SaneAt(Flip(d'), x)
  {
    hide Joined, WayA, HalfA, Own, At, Through, After;
    HealthyAt(d, x);
    OwnRead(d, d', x);
    SilentStays(d, d', x);
    HeadIsSane(d, x);
    CodecLawful(d);
    assert WayA(d', x) == WayA(d, x) by { WriterWay(d, d'); WaysStay(d, d', x); }
    DropsSanely(HalfA(Flip(d), x), Head(d), WayA(Flip(d'), x), HalfA(d, x), d.ca.maxPayload, d.ca.codec);
  }

  lemma WaysStay(d: Duplex, d': Duplex, x: nat)
    requires Reads(d, d') && d'.a.peer.writer == d.a.peer.writer
    ensures WayA(d', x) == WayA(d, x)
  {
  }

  /** Dropping a frame leaves room for the rest. */
  lemma DropsSanely(h: Half, f: Frame, q: seq<Frame>, k: Half, room: nat, codec: Codec)
    requires Sane(h, [f] + q, k, false, room, codec) && Stopped(EarOf(k))
    ensures Sane(h, q, k, false, room, codec)
  {
    assert ([f] + q)[1..] == q;
    LessHeld(After(TallyOf(k, false), f, false, room, codec).value.held, 0, q, room, codec);
  }

  lemma {:induction false} LessHeld(more: nat, less: nat, q: seq<Frame>, room: nat, codec: Codec)
    requires less <= more && Through(Tally(more, false), q, false, room, codec) == Some(Tally(0, false))
    ensures Through(Tally(less, false), q, false, room, codec) == Some(Tally(0, false))
    decreases |q|
  {
    if q != [] {
      var f := q[0];
      if f.fragment.Some? && f.more {
        LessHeld(more + |f.fragment.value.bytes|, less + |f.fragment.value.bytes|, q[1..], room, codec);
      }
    }
  }

  lemma DeliverHealthy(d: Duplex)
    requires Healthy(d) && GentleMove(d, Deliver)
    ensures Healthy(MoveA(d, Deliver))
  {
    hide Healthy, GentleMove, EarOf, HalfA, MoveA;
    if CanRead(d) {
      var x := LaneOf(Head(d));
      if x == 0 {
        ConnectionHealthy(d);
      } else if Stopped(EarOf(HalfA(d, x))) {
        StoppedHealthy(d, x);
      } else {
        HeardHealthy(d, x);
      }
    } else {
      NotRead(d);
    }
  }

  // ------------------------------------------------------------ every run

  lemma MoveHealthy(d: Duplex, m: Move)
    requires Healthy(d) && GentleMove(d, m)
    ensures Healthy(MoveA(d, m))
  {
    hide Healthy, Step;
    match m
    case Deliver => DeliverHealthy(d);
    case Do(action) =>
      match action
      case Register => RegisterHealthy(d);
      case Open(payload, headers, end) => OpenHealthy(d, payload, headers, end);
      case Send(id, data, leading, last, trailers) => SendHealthy(d, id, data, leading, last, trailers);
      case Ping(nonce) => PingHealthy(d, nonce);
      case Take => TakeHealthy(d);
      case Taken(lane) => TakenHealthy(d, lane);
      case Read(_, _) =>
      case _ =>
  }

  lemma HappenHealthy(d: Duplex, e: Event)
    requires Healthy(d) && Gentle(d, e)
    ensures Healthy(Happen(d, e))
  {
    hide Healthy, MoveA, GentleMove;
    match e
    case AtA(m) => MoveHealthy(d, m);
    case AtB(m) =>
      FlipHealthy(d);
      MoveHealthy(Flip(d), m);
      FlipHealthy(MoveA(Flip(d), m));
  }

  lemma {:induction false} RunHealthy(d: Duplex, events: seq<Event>)
    requires Healthy(d) && Untroubled(d, events)
    ensures Healthy(Run(d, events))
    decreases |events|
  {
    hide Healthy, Happen, Gentle;
    if events != [] {
      HappenHealthy(d, events[0]);
      RunHealthy(Happen(d, events[0]), events[1..]);
    }
  }

  lemma StartHealthy(ca: Config, cb: Config)
    requires ca.codec == cb.codec && ca.cap == cb.cap && Lawful(ca.codec)
    ensures Healthy(Start(ca, cb))
  {
    hide Joined, Lawful;
    StartJoined(ca, cb);
  }

  /** In a run in which no application resets a stream, no handler raises, no lane fails, no end says farewell or dies,
      no limit is reached and every payload is within the other end's cap: no connection fails, and no stream is ever
      closed by a reset. */
  lemma NothingIsReset(ca: Config, cb: Config, events: seq<Event>)
    requires ca.codec == cb.codec && ca.cap == cb.cap && Lawful(ca.codec) && Untroubled(Start(ca, cb), events)
    ensures var d := Run(Start(ca, cb), events);
            && Upright(d)
            && (forall x :: x in d.a.peer.objects ==> NeverReset(d.a, x))
            && (forall x :: x in d.b.peer.objects ==> NeverReset(d.b, x))
  {
    hide Joined, Lawful, Run, Untroubled, SaneAt, Upright;
    StartHealthy(ca, cb);
    RunHealthy(Start(ca, cb), events);
    var d := Run(Start(ca, cb), events);
    FlipHealthy(d);
    forall x | x in d.a.peer.objects ensures NeverReset(d.a, x) { NotReset(d, x); }
    forall x | x in d.b.peer.objects ensures NeverReset(d.b, x) { NotReset(Flip(d), x); }
  }

  lemma NotReset(d: Duplex, x: nat)
    requires Healthy(d) && x in d.a.peer.objects
    ensures NeverReset(d.a, x)
  {
    hide Joined, WayA, Own, ValuesOf, HeardOf, SaidOf;
    StreamZero(d);
    HealthyAt(d, x);
  }

  /** In such a run everything said is heard: once all of a stream has arrived one way, the other end has it, and was
      given every payload up to the end, the end, the headers and the trailers. */
  lemma EverythingIsConveyed(ca: Config, cb: Config, events: seq<Event>, x: nat)
    requires ca.codec == cb.codec && ca.cap == cb.cap && Lawful(ca.codec) && Untroubled(Start(ca, cb), events)
    ensures var d := Run(Start(ca, cb), events);
            && (x in d.a.peer.objects && Arrived(d, x) ==>
                x in d.b.peer.objects && ConveyedToItsEnd(d.a, d.b, x))
            && (x in d.b.peer.objects && Arrived(Flip(d), x) ==>
                x in d.a.peer.objects && ConveyedToItsEnd(d.b, d.a, x))
  {
    hide Joined, Lawful, Run, Untroubled, SaneAt, WayA, ConveyedToItsEnd;
    StartHealthy(ca, cb);
    RunHealthy(Start(ca, cb), events);
    var d := Run(Start(ca, cb), events);
    FlipHealthy(d);
    if x in d.a.peer.objects && Arrived(d, x) { ConveyedOneWay(d, x); }
    if x in d.b.peer.objects && Arrived(Flip(d), x) { ConveyedOneWay(Flip(d), x); }
  }

  lemma ConveyedOneWay(d: Duplex, x: nat)
    requires Healthy(d) && x in d.a.peer.objects && Arrived(d, x)
    ensures x in d.b.peer.objects && ConveyedToItsEnd(d.a, d.b, x)
  {
    hide Joined, WayA, Own, HalfA, ConveyedToItsEnd, Linked;
    StreamZero(d);
    HealthyAt(d, x);
    FlipJoined(d);
    HeldIs(d, x);
    HeldIs(Flip(d), x);
    JoinedTies(d, x);
    ArrivedMeets(HalfA(d, x), HalfA(Flip(d), x), Own(SideOf(d.a.peer, d.ca), x), Late(d.b, x), d.ca.codec);
    NotReset(d, x);
    NotReset(Flip(d), x) by { FlipHealthy(d); }
    CompleteOneWay(d, x);
  }

  lemma ArrivedMeets(h: Half, k: Half, own: bool, late: bool, codec: Codec)
    requires Linked(h, [], k, own, late, true, true, codec) && h.Alive? && !k.Dead?
    ensures k.Alive?
  {
  }
}
