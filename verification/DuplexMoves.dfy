/** Every move an end makes on its own keeps the two ends joined. */
module DuplexMoves {
  import opened Frames
  import opened Codecs
  import opened WriterModel
  import opened PeerModel
  import opened PeerInvariant
  import opened Outbound
  import opened Ends
  import opened Conversation
  import opened Halves
  import opened Strands
  import opened Reception
  import opened DuplexModel
  import A = Assembly
  import S = StreamModel

  // ------------------------------------------------------------ the handler raises

  lemma HeldIsComing(lane: Lane)
    ensures HoldsUnsentOpen(lane) ==> Coming(lane) != []
    ensures Coming(lane) + [] == Coming(lane)
  {
    hide Rest;
  }

  lemma HandlerCases(d: Duplex, id: nat, error: Option<Value>)
    requires Joined(d)
    ensures var a' := Step(d.a, HandlerRaises(id, error), d.ca);
            a' == d.a ||
            (&& id in d.a.peer.live && id in d.a.peer.objects
             && a' == d.a.(peer := a'.peer)
             && var c := At(d.a.peer, id);
                Became(d.a.peer, a'.peer, id,
                       Fallen(c.(lane := Tail(c.lane, ResetWith(id, APPLICATION_ERROR, error))), APPLICATION_ERROR)))
  {
    hide Joined, Became, Enqueue, FailStream, Fallen, LaneAt;
    var p := d.a.peer;
    if id in p.objects && p.objects[id].state != S.Closed {
      JoinedSteady(d);
      SoundKeeps(p, id, d.ca);
      var f := ResetWith(id, APPLICATION_ERROR, error);
      QueueAt(p, f);
      BecameCell(p, Queue(p, f), id, At(p, id).(lane := Tail(At(p, id).lane, f)));
      FailStreamAt(Queue(p, f), id, APPLICATION_ERROR);
      BecameTrans(p, Queue(p, f), FailStream(Queue(p, f), id, APPLICATION_ERROR), id, At(Queue(p, f), id),
                  Fallen(At(Queue(p, f), id), APPLICATION_ERROR));
    }
  }

  lemma HandlerErrorJoined(d: Duplex, id: nat, error: Option<Value>)
    requires Joined(d)
    ensures Joined(MoveA(d, Do(HandlerRaises(id, error))))
  {
    hide Joined, Step, Steady, Became, At, HoldsUnsentOpen, Coming, Fallen, Tail;
    var d' := MoveA(d, Do(HandlerRaises(id, error)));
    JoinedSteady(d);
    StepSteady(d.a, HandlerRaises(id, error), d.ca);
    HandlerCases(d, id, error);
    if d'.a != d.a {
      var lane := At(d.a.peer, id).lane;
      HeldIsComing(lane);
      ResetJoined(d, d', id, lane, [], ResetWith(id, APPLICATION_ERROR, error), APPLICATION_ERROR);
    }
  }

  // ------------------------------------------------------------ a payload

  /** The stream after its application sent a frame. */
  function Spoken(s: S.Stream, headers: Option<Fields>, end: bool): S.Stream {
    var noted := S.NoteSent(s, headers);
    if end then S.LocalEnd(noted) else noted
  }

  lemma SpokenView(s: S.Stream, f: Frame, said: Words)
    requires f.kind == DataFrame
    requires S.MaySend(s, f.headers) && Proper(s) && s.state != S.Closed && s.state != S.Idle && Fitting(s, said)
    ensures var t := Spoken(s, f.headers, f.end);
            var words := Uttered(said, f.payload, f.end, f.trailers, s.opening);
            && !t.cause.ByReset? && Proper(t) && HeardOf(t) == HeardOf(s) && Fitting(t, words)
            && (f.headers.Some? ==> !SaidOf(s, said).begun)
            && (if said.ended then HeardOf(s).ended && SaidOf(t, words) == SaidOf(s, said)
                else SaidOf(t, words) == Saying(SaidOf(s, said), f))
  {
    hide S.Accepted;
    S.AcceptedSnoc(s.queue, S.End);
  }

  lemma SpokenLocal(s: S.Stream, headers: Option<Fields>, end: bool)
    ensures Spoken(s, headers, end).local == s.local
  {
  }

  function DataOf(id: nat, payload: Option<Value>, headers: Option<Fields>, end: bool,
                  trailers: Option<Fields>): Frame {
    Bare(DataFrame, Some(id)).(payload := payload, headers := headers, end := end, trailers := trailers)
  }

  lemma SendCases(d: Duplex, id: nat, payload: Option<Value>, headers: Option<Fields>, end: bool,
                  trailers: Option<Fields>)
    requires Joined(d)
    ensures var a' := Step(d.a, Send(id, payload, headers, end, trailers), d.ca);
            a' == d.a ||
            (&& id in d.a.peer.live && id in d.a.peer.objects
             && S.MaySend(d.a.peer.objects[id], headers)
             && a' == d.a.(peer := a'.peer,
                           said := d.a.said[id := Uttered(SaidOn(d.a, id), payload, end, trailers,
                                                          d.a.peer.objects[id].opening)])
             && var c := At(d.a.peer, id);
                Became(d.a.peer, a'.peer, id,
                       Cell(Some(Spoken(d.a.peer.objects[id], headers, end)),
                            Tail(c.lane, DataOf(id, payload, headers, end, trailers)), c.cut)))
  {
    hide Joined, Became, Enqueue, LaneAt, Put, S.NoteSent, S.LocalEnd;
    var p := d.a.peer;
    if id in p.objects && S.MaySend(p.objects[id], headers) {
      JoinedSteady(d);
      SoundKeeps(p, id, d.ca);
      assert Kept(p, id, p.objects[id], d.ca);
      var f := DataOf(id, payload, headers, end, trailers);
      var s := Spoken(p.objects[id], headers, end);
      QueueAt(p, f);
      BecameCell(p, Queue(p, f), id, At(p, id).(lane := Tail(At(p, id).lane, f)));
      PutAt(Queue(p, f), id, s);
      BecameTrans(p, Queue(p, f), Put(Queue(p, f), id, s), id, At(Queue(p, f), id),
                  At(Queue(p, f), id).(stream := Some(s)));
    }
  }

  /** A send on stream `id`, as it changes the stream, its lane and what was said on it. */
  ghost predicate Sends(d: Duplex, d': Duplex, id: nat, payload: Option<Value>, headers: Option<Fields>, end: bool,
                        trailers: Option<Fields>) {
    && Joined(d) && d' == d.(a := d'.a) && SameFrame(d, d') && d'.a.log == d.a.log
    && id in d.a.peer.live && id in d.a.peer.objects
    && var s := d.a.peer.objects[id];
       var c := At(d.a.peer, id);
       && S.MaySend(s, headers)
       && At(d'.a.peer, id)
             == Cell(Some(Spoken(s, headers, end)), Tail(c.lane, DataOf(id, payload, headers, end, trailers)), c.cut)
       && SaidOn(d'.a, id) == Uttered(SaidOn(d.a, id), payload, end, trailers, s.opening)
  }

  lemma SendTied(d: Duplex, d': Duplex, id: nat, payload: Option<Value>, headers: Option<Fields>, end: bool,
                 trailers: Option<Fields>)
    requires Sends(d, d', id, payload, headers, end, trailers)
    ensures 0 < id && Tied(d', id) && Tied(Flip(d'), id)
    ensures var t := At(d'.a.peer, id).stream.value;
            Proper(t) && Fitting(t, SaidOn(d'.a, id)) && t.local == d.a.peer.objects[id].local
  {
    hide Joined, Linked, Own, LaneAt, Proper, Fitting, Spoken, HalfA, WayA, Uttered, Tail, HeardOf;
    SpokenLocal(d.a.peer.objects[id], headers, end);
    LiveHalf(d, id);
    SendHalf(d, d', id, payload, headers, end, trailers);
    var f := DataOf(id, payload, headers, end, trailers);
    var own, late := Own(SideOf(d.a.peer, d.ca), id), Late(d.b, id);
    OpeningNotEnded(d.a.peer.objects[id]);
    CodecsAgree(d, d');
    if HalfA(d, id).said.ended {
      if d.b.peer.isOpen {
        HeardEndIsSaid(HalfA(d, id), WayA(Flip(d), id), HalfA(Flip(d), id), Own(SideOf(d.b.peer, d.cb), id),
                       Late(d.a, id), d.ca.codec);
      }
      EchoLinked(HalfA(d, id), WayA(d, id), f, HalfA(Flip(d), id), own, late, d.b.peer.isOpen, d.ca.codec);
    } else {
      SayLinked(HalfA(d, id), WayA(d, id), f, HalfA(Flip(d), id), own, late, d.b.peer.isOpen, d.ca.codec);
      SpeakerHeard(HalfA(d, id).(said := HalfA(d', id).said), WayA(d', id), HalfA(Flip(d), id), HalfA(d', id), own,
                   late, true, d.b.peer.isOpen, d.ca.codec);
      ListenerSpoke(HalfA(Flip(d), id), WayA(Flip(d), id), HalfA(d, id), HalfA(d', id),
                    Own(SideOf(d.b.peer, d.cb), id), Late(d.a, id), d.b.peer.isOpen, d.a.peer.isOpen, d.ca.codec);
    }
  }

  /** What a send changes about the stream's half and its way.  What is said after the end is not part of the half. */
  lemma SendHalf(d: Duplex, d': Duplex, id: nat, payload: Option<Value>, headers: Option<Fields>, end: bool,
                 trailers: Option<Fields>)
    requires Sends(d, d', id, payload, headers, end, trailers)
    ensures var f := DataOf(id, payload, headers, end, trailers);
            var h, h' := HalfA(d, id), HalfA(d', id);
            && h.Alive? && h'.Alive? && h'.heard == h.heard && (headers.Some? ==> !h.said.begun)
            && (if h.said.ended then h.heard.ended && h' == h else h'.said == Saying(h.said, f))
            && WayA(d', id) == WayA(d, id) + [f]
            && HalfA(Flip(d'), id) == HalfA(Flip(d), id) && WayA(Flip(d'), id) == WayA(Flip(d), id)
    ensures Proper(At(d'.a.peer, id).stream.value) && Fitting(At(d'.a.peer, id).stream.value, SaidOn(d'.a, id))
  {
    hide Joined, Linked, Coming, HeardOf, ValuesOf, Own, LaneAt, On, Proper, Fitting, Spoken, Uttered, S.MaySend,
      Saying;
    LiveHalf(d, id);
    var s := d.a.peer.objects[id];
    var f := DataOf(id, payload, headers, end, trailers);
    SpokenView(s, f, SaidOn(d.a, id));
    ComingTail(At(d.a.peer, id).lane, f);
  }

  lemma OpeningNotEnded(s: S.Stream)
    requires Proper(s) && s.cause.NotEnded?
    ensures HeardOf(s).ended ==> !HeardOf(s).opening
  {
  }

  lemma SendJoined(d: Duplex, id: nat, payload: Option<Value>, headers: Option<Fields>, end: bool,
                   trailers: Option<Fields>)
    requires Joined(d)
    ensures Joined(MoveA(d, Do(Send(id, payload, headers, end, trailers))))
  {
    hide Joined, Step, Steady, Became, Tail, Spoken, Proper, Tied, LaneAt, S.MaySend;
    var a := Send(id, payload, headers, end, trailers);
    var d' := MoveA(d, Do(a));
    JoinedSteady(d);
    StepSteady(d.a, a, d.ca);
    SendCases(d, id, payload, headers, end, trailers);
    if d'.a != d.a {
      var c := Cell(Some(Spoken(d.a.peer.objects[id], headers, end)),
                    Tail(At(d.a.peer, id).lane, DataOf(id, payload, headers, end, trailers)), At(d.a.peer, id).cut);
      BecameCell(d.a.peer, d'.a.peer, id, c);
      BecameFrame(d, d', id, c);
      SendTied(d, d', id, payload, headers, end, trailers);
      BecameTouched(d.a.peer, d'.a.peer, id, c);
      OneStreamJoined(d, d', id);
    }
  }

  // ------------------------------------------------------------ a new stream

  function OpenOf(id: nat, payload: Value, headers: Option<Fields>, end: bool): Frame {
    Bare(OpenFrame, Some(id)).(payload := Some(payload), headers := headers, end := end)
  }

  lemma OpenCases(p: Peer, payload: Value, headers: Option<Fields>, end: bool)
    requires MayOpen(p)
    ensures var id := p.nextId;
            var s := S.NewStream(id, true, if end then S.HalfClosedLocal else S.Open, headers, Some(payload));
            var p' := OpenStream(p, payload, headers, end);
            && Touched(p, p', id)
            && At(p', id) == Cell(Some(s), Tail(LaneAt(p.writer, id), OpenOf(id, payload, headers, end)), id in p.cut)
  {
    hide Enqueue, LaneAt;
    var id := p.nextId;
    var f := OpenOf(id, payload, headers, end);
    forall x: nat ensures LaneAt(Enqueue(p.writer, f), x) == if x == id then Tail(LaneAt(p.writer, x), f)
        else LaneAt(p.writer, x)
    {
      EnqueueAt(p.writer, f, x);
    }
  }

  /** A stream this end has not opened: no half, and nothing on its way. */
  lemma NextIsUnborn(d: Duplex)
    requires Joined(d)
    ensures var id := d.a.peer.nextId;
            && 0 < id && Own(SideOf(d.a.peer, d.ca), id)
            && HalfA(d, id).Unborn? && LaneAt(d.a.peer.writer, id) == EMPTY_LANE && On(Unread(d.a.log, d.ra), id) == []
            && Tied(d, id) && Tied(Flip(d), id)
  {
    hide Bounded, Orderly, Seen, Goodbyes, Tuned, Lawful, Sorted, Listed, LaneTidy;
    var id := d.a.peer.nextId;
    assert id in d.a.peer.objects ==> Kept(d.a.peer, id, d.a.peer.objects[id], d.ca);
    SeenSplit(d.a.log, d.ra, id);
  }

  lemma NewHalf(id: nat, payload: Value, headers: Option<Fields>, end: bool, cell: Cell, met: bool)
    requires cell.stream
      == Some(S.NewStream(id, true, if end then S.HalfClosedLocal else S.Open, headers, Some(payload)))
    ensures HalfOf(cell, Opened(payload, end), met)
      == Alive(FRESH, View(A.NOTHING, false, end, [payload], true, headers, None))
    ensures Proper(cell.stream.value) && Fitting(cell.stream.value, Opened(payload, end))
  {
  }

  lemma OpenTied(d: Duplex, d': Duplex, payload: Value, headers: Option<Fields>, end: bool)
    requires Joined(d) && d' == d.(a := d'.a) && SameFrame(d, d') && d'.a.log == d.a.log && d.a.peer.isOpen
    requires var id := d.a.peer.nextId;
             && SaidOn(d'.a, id) == Opened(payload, end)
             && At(d'.a.peer, id).stream
                   == Some(S.NewStream(id, true, if end then S.HalfClosedLocal else S.Open, headers, Some(payload)))
             && LaneAt(d'.a.peer.writer, id) == Tail(LaneAt(d.a.peer.writer, id), OpenOf(id, payload, headers, end))
    ensures var id := d.a.peer.nextId; 0 < id && Tied(d', id) && Tied(Flip(d'), id)
  {
    hide Joined, Linked, HalfOf, Own, On, LaneAt, Seen;
    var id := d.a.peer.nextId;
    var f := OpenOf(id, payload, headers, end);
    NextIsUnborn(d);
    OwnSplitsJoined(d, id);
    CodecsAgree(d, d');
    NewHalf(id, payload, headers, end, At(d'.a.peer, id), !Own(SideOf(d.a.peer, d.ca), id)
            && Seen(Reached(d.b.log, d.rb), id));
    ComingTail(EMPTY_LANE, f);
    assert Coming(EMPTY_LANE) == [];
    assert WayA(d, id) == [] && WayA(d', id) == [f];
    UnbornAtBoth(HalfA(d, id), [], HalfA(Flip(d), id), Late(d.b, id), d.a.peer.isOpen, d.b.peer.isOpen, d.ca.codec);
    UnbornSilent(HalfA(Flip(d), id), WayA(Flip(d), id), HalfA(d, id), false, Late(d.a, id), d.b.peer.isOpen,
                 d.a.peer.isOpen, d.ca.codec);
    BornLinked(f, end, payload, HalfA(Flip(d), id), Late(d.b, id), d.b.peer.isOpen, d.ca.codec);
    OpenedLinked(HalfA(d', id), Late(d.a, id), d.b.peer.isOpen, d.a.peer.isOpen, d.ca.codec);
  }

  lemma OwnSplitsJoined(d: Duplex, x: nat)
    requires Joined(d) && 0 < x
    ensures Own(SideOf(d.a.peer, d.ca), x) <==> !Own(SideOf(d.b.peer, d.cb), x)
  {
    hide Leg;
    OwnSplits(d, x);
  }

  lemma UnbornAtBoth(h: Half, q: seq<Frame>, k: Half, late: bool, up: bool, open: bool, codec: Codec)
    requires Linked(h, q, k, true, late, up, open, codec) && h.Unborn?
    ensures k.Unborn? && q == []
  {
  }

  lemma UnbornSilent(h: Half, q: seq<Frame>, k: Half, own: bool, late: bool, up: bool, open: bool, codec: Codec)
    requires Linked(h, q, k, own, late, up, open, codec) && h.Unborn?
    ensures q == []
  {
  }

  lemma OpenJoined(d: Duplex, payload: Value, headers: Option<Fields>, end: bool)
    requires Joined(d)
    ensures Joined(MoveA(d, Do(Open(payload, headers, end))))
  {
    hide Joined, Steady, Touched, Tail, Proper, Tied, LaneAt, OpenStream;
    var a := Open(payload, headers, end);
    var d' := MoveA(d, Do(a));
    JoinedSteady(d);
    StepSteady(d.a, a, d.ca);
    if MayOpen(d.a.peer) {
      var id := d.a.peer.nextId;
      OpenCases(d.a.peer, payload, headers, end);
      TouchedFrame(d, d', id);
      OpenTied(d, d', payload, headers, end);
      NewHalf(id, payload, headers, end, At(d'.a.peer, id), false);
      OneStreamJoined(d, d', id);
    }
  }

  lemma TouchedFrame(d: Duplex, d': Duplex, id: nat)
    requires d' == d.(a := d'.a) && Touched(d.a.peer, d'.a.peer, id)
    ensures SameFrame(d, d')
  {
    hide At;
  }

  // ------------------------------------------------------------ goaway

  lemma RegisterJoined(d: Duplex)
    requires Joined(d)
    ensures Joined(MoveA(d, Do(Register)))
  {
    hide Joined, Steady, At, HalfOf, Own, Same, Proper, Seen, OpenedIn;
    var d' := MoveA(d, Do(Register));
    JoinedSteady(d);
    StepSteady(d.a, Register, d.ca);
    forall x: nat ensures Same(d, d', x) { RegisterSame(d, d', x); }
    JoinedTuned(d);
    assert Goodbyes(d') by { RegisterSame(d, d', 0); assert WayA(d', 0) == WayA(d, 0) by { WaySame(d, d', 0); } }
    AssembleJoined(d, d', 0);
  }

  lemma WaySame(d: Duplex, d': Duplex, x: nat)
    requires Same(d, d', x)
    ensures WayA(d', x) == WayA(d, x)
  {
  }

  lemma RegisterSame(d: Duplex, d': Duplex, x: nat)
    requires d' == d.(a := d.a.(peer := d.a.peer.(handler := true)))
    ensures Same(d, d', x)
  {
  }

  /** A goaway is queued: what the other end opens above the mark will be refused. */
  lemma GoawayJoined(d: Duplex, d': Duplex, code: int, failed: bool)
    requires Joined(d) && d' == d.(a := d.a.(peer := QueueGoaway(d.a.peer, code).(failed := failed)))
    requires Steady(d'.a, d.ca)
    ensures Joined(d')
  {
    hide Joined, Steady, At, HalfOf, Own, Proper, Seen, OpenedIn, Linked, Enqueue, Coming, On, Same;
    JoinedTuned(d);
    forall x: nat | 0 < x
      ensures Tied(d', x) && Tied(Flip(d'), x)
    {
      JoinedTies(d, x);
      GoawaySame(d, d', x, code);
      LaterTied(d, d', x);
    }
    GoawayGoodbye(d, d', code);
    JoinedParts(d, d');
  }

  lemma JoinedTies(d: Duplex, x: nat)
    requires Joined(d) && 0 < x
    ensures Tied(d, x) && Tied(Flip(d), x)
  {
    hide Steady, Tied, Tuned, Goodbyes;
  }

  lemma JoinedParts(d: Duplex, d': Duplex)
    requires Joined(d) && d' == d.(a := d'.a) && d'.a.log == d.a.log && d'.a.peer.dialer == d.a.peer.dialer
    requires forall x: nat :: 0 < x ==> Tied(d', x) && Tied(Flip(d'), x)
    requires Steady(d'.a, d.ca) && Tuned(d'.a, Reached(d.b.log, d.rb)) && Goodbyes(d')
    ensures Joined(d')
  {
    hide Steady, Tied, Tuned, On, Coming, Lawful;
  }

  lemma GoawaySame(d: Duplex, d': Duplex, x: nat, code: int)
    requires d'.a.peer == QueueGoaway(d.a.peer, code).(failed := d'.a.peer.failed)
      && d' == d.(a := d.a.(peer := d'.a.peer)) && 0 < x
    ensures Same(d, d', x)
  {
    hide Enqueue, Own, Seen, LaneAt;
    EnqueueAt(d.a.peer.writer, GoawayFrameOf(d.a.peer, code), x);
    SameHalf(d.a, d'.a, Reached(d.b.log, d.rb), d.ca, x);
  }

  /** A mark set now may make a stream late. */
  lemma LaterTied(d: Duplex, d': Duplex, x: nat)
    requires Tied(d, x) && Tied(Flip(d), x) && Same(d, d', x)
    requires d'.ca == d.ca && d'.cb == d.cb && d'.a.peer.dialer == d.a.peer.dialer
      && d'.a.peer.isOpen == d.a.peer.isOpen
    requires d'.b == d.b && (Late(d.a, x) ==> Late(d'.a, x))
    ensures Tied(d', x) && Tied(Flip(d'), x)
  {
    hide Linked, HalfA, WayA, Own;
    LateLinked(HalfA(Flip(d), x), WayA(Flip(d), x), HalfA(d, x), Own(SideOf(d.b.peer, d.cb), x), Late(d.a, x),
               d.b.peer.isOpen, d.a.peer.isOpen, d.cb.codec);
  }

  lemma GoawayGoodbye(d: Duplex, d': Duplex, code: int)
    requires Joined(d) && d' == d.(a := d.a.(peer := QueueGoaway(d.a.peer, code).(failed := d'.a.peer.failed)))
    ensures Goodbyes(d') && Tuned(d'.a, Reached(d.b.log, d.rb))
  {
    hide Joined, Enqueue, Coming, On, Proper, Seen, OpenedIn, LaneAt;
    JoinedTuned(d);
    JoinedSteady(d);
    var f := GoawayFrameOf(d.a.peer, code);
    EnqueueAt(d.a.peer.writer, f, 0);
    ComingTail(LaneAt(d.a.peer.writer, 0), f);
    assert WayA(d', 0) == WayA(d, 0) + [f];
  }

  lemma GoodbyeJoined(d: Duplex, code: int)
    requires Joined(d)
    ensures Joined(MoveA(d, Do(Goodbye(code))))
  {
    hide Joined, Steady, QueueGoaway;
    var d' := MoveA(d, Do(Goodbye(code)));
    JoinedSteady(d);
    StepSteady(d.a, Goodbye(code), d.ca);
    if d.a.peer.isOpen && !d.a.peer.goaway.sent {
      GoawayKeepsFailed(d.a.peer, code);
      GoawayJoined(d, d', code, d.a.peer.failed);
    }
  }

  /** A ping is queued. */
  lemma SendPingJoined(d: Duplex, nonce: Text)
    requires Joined(d)
    ensures Joined(MoveA(d, Do(Ping(nonce))))
  {
    hide Joined, Steady, At, Same, Tuned, Tied, Queue, WayA, Goodbyes;
    var d' := MoveA(d, Do(Ping(nonce)));
    JoinedSteady(d);
    StepSteady(d.a, Ping(nonce), d.ca);
    if d.a.peer.isOpen {
      PingSame(d, d', nonce);
      JoinedTuned(d);
      NoGoodbyeQueued(d, d', PingOf(nonce));
      AssembleJoined(d, d', 0);
    }
  }

  lemma PingSame(d: Duplex, d': Duplex, nonce: Text)
    requires d' == d.(a := d.a.(peer := Queue(d.a.peer, PingOf(nonce))))
    ensures forall x: nat :: x != 0 ==> Same(d, d', x)
    ensures WayA(d', 0) == WayA(d, 0) + [PingOf(nonce)] && SameFrame(d, d')
    ensures Tuned(d.a, Reached(d.b.log, d.rb)) ==> Tuned(d'.a, Reached(d'.b.log, d'.rb))
    ensures forall x: nat :: At(d'.a.peer, x).stream == At(d.a.peer, x).stream
  {
    hide HalfIn, Own, Enqueue, LaneAt, Coming, On, Unread, Proper, OpenedIn, Seen;
    var f := PingOf(nonce);
    QueueAt(d.a.peer, f);
    ComingTail(LaneAt(d.a.peer.writer, 0), f);
    var c := At(d.a.peer, 0);
    BecameCell(d.a.peer, d'.a.peer, 0, c.(lane := Tail(c.lane, f)));
    forall x: nat | x != 0
      ensures Same(d, d', x)
    {
      assert At(d'.a.peer, x) == At(d.a.peer, x);
      SameHalf(d.a, d'.a, Reached(d.b.log, d.rb), d.ca, x);
    }
  }

  lemma NoGoodbyeQueued(d: Duplex, d': Duplex, f: Frame)
    requires Goodbyes(d) && WayA(d', 0) == WayA(d, 0) + [f] && f.kind != GoawayFrame
    requires d'.a.peer.goaway.sentLast == d.a.peer.goaway.sentLast
    ensures Goodbyes(d')
  {
    hide WayA;
  }

  lemma GoawayKeepsFailed(p: Peer, code: int)
    ensures QueueGoaway(p, code).(failed := p.failed) == QueueGoaway(p, code)
  {
    hide Enqueue;
  }

  // ------------------------------------------------------------ the connection dies

  lemma DeadStream(d: Duplex, x: nat, code: int)
    requires Joined(d) && x in d.a.peer.objects
    ensures var s := d.a.peer.objects[x];
            var t := S.Fail(s, code);
            && ValuesOf(t) == ValuesOf(s) && (s.state != S.Closed ==> t.cause.ByReset?)
                  && (s.state == S.Closed ==> t == s)
            && Proper(t) && t.local == s.local && Fitting(s, SaidOn(d.a, x)) && Fitting(t, SaidOn(d.a, x))
  {
    hide Joined, Fitting;
    JoinedTuned(d);
    var s := d.a.peer.objects[x];
    S.AcceptedSnoc(s.queue, S.Failure(code));
    if s.state != S.Closed { FailedFits(s, SaidOn(d.a, x), code); }
  }

  lemma DeadHalf(d: Duplex, d': Duplex, w: Writer, x: nat)
    requires Joined(d) && d.a.peer.isOpen && 0 < x
    requires d' == d.(a := d.a.(peer := Die(d.a.peer.(writer := w))))
    ensures var h, h' := HalfA(d, x), HalfA(d', x);
            && Heard(h') == Heard(h) && Said(h') == Said(h)
            && (h'.Unborn? <==> h.Unborn?)
            && (h'.Alive? ==> h' == h)
    ensures WayA(d', x) == On(Unread(d.a.log, d.ra), x)
    ensures x in d'.a.peer.objects
      ==> Proper(d'.a.peer.objects[x]) && d'.a.peer.objects[x].local == d.a.peer.objects[x].local
    ensures x in d'.a.peer.objects ==> Fitting(d'.a.peer.objects[x], SaidOn(d'.a, x))
  {
    hide Joined, Seen, Own, On, Die, Proper, Fitting, LaneAt, Coming, HalfOf, Heard, Said;
    DeadCell(d.a.peer, w, x);
    assert SaidOn(d'.a, x) == SaidOn(d.a, x);
    var c, c' := At(d.a.peer, x), At(d'.a.peer, x);
    var met := !Own(SideOf(d.a.peer, d.ca), x) && Seen(Reached(d.b.log, d.rb), x);
    assert HalfA(d, x) == HalfOf(c, SaidOn(d.a, x), met) && HalfA(d', x) == HalfOf(c', SaidOn(d.a, x), met);
    if x in d.a.peer.objects {
      JoinedSteady(d);
      SoundKeeps(d.a.peer, x, d.ca);
      DeadStream(d, x, CONNECTION_CLOSED);
      DeadCellHalf(c, c', SaidOn(d.a, x), met, CONNECTION_CLOSED);
    } else {
      HalfOfLane(c, c'.lane, SaidOn(d.a, x), met);
      assert c' == c.(lane := c'.lane);
    }
  }

  lemma DeadCellHalf(c: Cell, c': Cell, said: Words, met: bool, code: int)
    requires c.stream.Some? && c'.stream.Some? && c'.cut == c.cut
    requires c'.stream.value == (if c.stream.value.state != S.Closed then S.Fail(c.stream.value, code)
                                 else c.stream.value)
    requires c.stream.value.state == S.Closed <==> !c.stream.value.cause.NotEnded?
    ensures var h, h' := HalfOf(c, said, met), HalfOf(c', said, met);
            && Heard(h') == Heard(h) && Said(h') == Said(h) && !h.Unborn? && !h'.Unborn?
            && (h'.Alive? ==> h' == h)
  {
    hide S.Accepted;
    S.AcceptedSnoc(c.stream.value.queue, S.Failure(code));
  }

  /** What socket death leaves of one stream. */
  lemma DeadCell(p: Peer, w: Writer, x: nat)
    requires p.isOpen
    ensures var p' := Die(p.(writer := w));
            && p'.dialer == p.dialer
            && Coming(LaneAt(p'.writer, x)) == []
            && At(p', x).cut == At(p, x).cut
            && At(p', x).stream == (if x in p.objects then
                                      Some(if x in p.live then S.Fail(p.objects[x], CONNECTION_CLOSED)
                                           else p.objects[x])
                                    else None)
  {
    hide S.Fail;
    assert LaneAt(DiscardAll(w), x) == EMPTY_LANE && Coming(EMPTY_LANE) == [];
  }

  /** When `a` dies, both ties of every stream hold of what is left. */
  lemma DeadTied(d: Duplex, d': Duplex, w: Writer, x: nat)
    requires Joined(d) && d.a.peer.isOpen && 0 < x
    requires d' == d.(a := d.a.(peer := Die(d.a.peer.(writer := w))))
    ensures Tied(d', x) && Tied(Flip(d'), x)
  {
    hide Joined, Linked, HalfIn, Own, On, Coming, Die;
    JoinedTies(d, x);
    CodecsAgree(d, d');
    DeadHalf(d, d', w, x);
    DieFlags(d.a.peer.(writer := w));
    CutOffLinked(HalfA(d, x), WayA(d, x), On(Unread(d.a.log, d.ra), x), Coming(LaneAt(d.a.peer.writer, x)),
                 HalfA(Flip(d), x), HalfA(d', x), Own(SideOf(d.a.peer, d.ca), x), Late(d.b, x), d.a.peer.isOpen,
                     d.b.peer.isOpen, d.ca.codec);
    ListenerDied(HalfA(Flip(d), x), WayA(Flip(d), x), HalfA(d, x), HalfA(d', x), Own(SideOf(d.b.peer, d.cb), x),
                 Late(d.a, x), d.b.peer.isOpen, d.a.peer.isOpen, d.ca.codec);
  }

  lemma DieFlags(p: Peer)
    requires p.isOpen
    ensures var p' := Die(p);
            && !p'.isOpen && p'.dialer == p.dialer && p'.goaway == p.goaway && p'.highRemote == p.highRemote
            && p'.objects.Keys == p.objects.Keys
  {
    hide DiscardAll;
  }

  /** Whatever is left in its writer is dropped. */
  lemma DieJoinedWith(d: Duplex, d': Duplex, w: Writer)
    requires Joined(d) && d.a.peer.isOpen && d' == d.(a := d.a.(peer := Die(d.a.peer.(writer := w))))
    requires Steady(d'.a, d.ca)
    ensures Joined(d')
  {
    hide Joined, Steady, Die, Tied, Proper, Fitting, Seen, OpenedIn, On, Coming, HalfA;
    DieFlags(d.a.peer.(writer := w));
    JoinedTuned(d);
    forall x: nat | 0 < x
      ensures Tied(d', x) && Tied(Flip(d'), x)
    {
      DeadTied(d, d', w, x);
    }
    assert Goodbyes(d') by { DeadGoodbyes(d, d', w); }
    forall x | x in d'.a.peer.objects
      ensures Proper(d'.a.peer.objects[x]) && d'.a.peer.objects[x].local == d.a.peer.objects[x].local
      ensures Fitting(d'.a.peer.objects[x], SaidOn(d'.a, x))
    {
      JoinedSteady(d);
      assert Kept(d.a.peer, x, d.a.peer.objects[x], d.ca);
      DeadHalf(d, d', w, x);
    }
    JoinedParts(d, d');
  }

  lemma DeadGoodbyes(d: Duplex, d': Duplex, w: Writer)
    requires Joined(d) && d.a.peer.isOpen && d' == d.(a := d.a.(peer := Die(d.a.peer.(writer := w))))
    ensures Goodbyes(d')
  {
    hide Joined, On, FailAll;
    JoinedTuned(d);
    assert WayA(d', 0) == On(Unread(d.a.log, d.ra), 0);
    assert forall f :: f in WayA(d', 0) ==> f in WayA(d, 0);
  }

  lemma DieJoined(d: Duplex)
    requires Joined(d)
    ensures Joined(MoveA(d, Do(SocketDies)))
  {
    hide Joined, Steady, Die;
    var d' := MoveA(d, Do(SocketDies));
    JoinedSteady(d);
    StepSteady(d.a, SocketDies, d.ca);
    if d.a.peer.isOpen {
      DieJoinedWith(d, d', d.a.peer.writer);
    } else {
      assert Die(d.a.peer) == d.a.peer by { DeadStays(d.a.peer); }
    }
  }

  lemma DeadStays(p: Peer)
    requires !p.isOpen
    ensures Die(p) == p
  {
  }
}
