/** REFUSED means "not processed": an opener that is told REFUSED may retry, because the handler was never
    given the stream, and never will be. */
module DuplexRetry {
  import opened Frames
  import opened Codecs
  import opened WriterModel
  import opened PeerModel
  import opened PeerInvariant
  import opened Outbound
  import opened Ends
  import opened Conversation
  import opened Halves
  import opened Strands
  import opened Reception
  import opened DuplexModel
  import opened DuplexMoves
  import opened DuplexWriting
  import opened DuplexReading
  import opened DuplexLaws
  import S = StreamModel

  predicate Refusal(f: Frame) {
    f.kind == ResetFrame && f.code == Some(REFUSED)
  }

  ghost predicate RefusalIn(q: seq<Frame>) {
    exists i :: 0 <= i < |q| && Refusal(q[i])
  }

  predicate RefusedAt(p: Peer, x: nat) {
    x in p.objects && p.objects[x].cause == S.ByReset(REFUSED)
  }

  /** No handler was given stream `x`, and none will be: a goaway excludes it, or it was closed before, or
      it was refused before it had an object. */
  predicate NeverStarts(p: Peer, x: nat) {
    || (p.goaway.sentLast.Some? && p.goaway.sentLast.value < x)
    || (x in p.objects && p.objects[x].cause.ByReset? && !p.objects[x].started)
    || (x !in p.objects && x <= p.highRemote)
  }

  /** A stream `a` opened that was refused, or whose refusal is on its way, will not be started at `b`. */
  ghost predicate Retryable(d: Duplex) {
    forall x: nat :: 0 < x && IsOurs(d.a.peer, x) && (RefusedAt(d.a.peer, x) || RefusalIn(WayA(Flip(d), x))) ==>
      NeverStarts(d.b.peer, x)
  }

  // ------------------------------------------------------------ what one move of `a` does

  /** Marks only move on. */
  predicate Onward(p: Peer, p': Peer) {
    && p'.dialer == p.dialer && p.highRemote <= p'.highRemote
    && (p.goaway.sentLast.Some? ==> p'.goaway.sentLast == p.goaway.sentLast)
  }

  ghost predicate Effect(d: Duplex, d': Duplex, x: nat) {
    && (IsOurs(d.a.peer, x) && RefusedAt(d'.a.peer, x) ==>
          RefusedAt(d.a.peer, x) || RefusalIn(WayA(Flip(d), x)) || Late(d.b, x))
    && (!IsOurs(d.a.peer, x) && RefusalIn(WayA(d', x)) ==> RefusalIn(WayA(d, x)) || NeverStarts(d'.a.peer, x))
    && (!IsOurs(d.a.peer, x) && NeverStarts(d.a.peer, x) ==> NeverStarts(d'.a.peer, x))
    && (RefusalIn(WayA(Flip(d'), x)) ==> RefusalIn(WayA(Flip(d), x)))
  }

  lemma EffectKeeps(d: Duplex, d': Duplex)
    requires Retryable(d) && Retryable(Flip(d)) && d.a.peer.dialer != d.b.peer.dialer
    requires d'.a.peer.dialer == d.a.peer.dialer && d'.b == d.b
    requires forall x: nat :: 0 < x ==> Effect(d, d', x)
    ensures Retryable(d') && Retryable(Flip(d'))
  {
    hide WayA, RefusalIn, NeverStarts, RefusedAt;
    forall x: nat | 0 < x
      ensures IsOurs(d'.a.peer, x) && (RefusedAt(d'.a.peer, x) || RefusalIn(WayA(Flip(d'), x)))
        ==> NeverStarts(d'.b.peer, x)
      ensures !IsOurs(d'.a.peer, x) && (RefusedAt(d'.b.peer, x) || RefusalIn(WayA(d', x))) ==> NeverStarts(d'.a.peer, x)
    {
      LateNeverStarts(d.b, x);
      assert Effect(d, d', x);
      assert IsOurs(d.b.peer, x) <==> !IsOurs(d.a.peer, x);
      assert Flip(Flip(d)) == d;
    }
    assert Flip(Flip(d')) == d';
  }

  lemma LateNeverStarts(e: End, x: nat)
    ensures Late(e, x) ==> NeverStarts(e.peer, x)
  {
  }

  /** A stream the move does not concern. */
  lemma OtherEffect(d: Duplex, d': Duplex, x: nat)
    requires Same(d, d', x) && At(d'.a.peer, x).stream == At(d.a.peer, x).stream && Onward(d.a.peer, d'.a.peer)
    ensures Effect(d, d', x)
  {
    hide WayA, RefusalIn, HalfA, LaneAt;
    assert At(d'.a.peer, x).stream.Some? <==> x in d'.a.peer.objects;
    assert At(d.a.peer, x).stream.Some? <==> x in d.a.peer.objects;
  }

  /** No refusal is added. */
  ghost predicate NoRefusalAdded(q: seq<Frame>, q': seq<Frame>) {
    RefusalIn(q') ==> RefusalIn(q)
  }

  /** A live stream that the move does not close with REFUSED. */
  lemma LiveEffect(d: Duplex, d': Duplex, x: nat)
    requires Joined(d) && x in d.a.peer.live && Onward(d.a.peer, d'.a.peer)
    requires At(d'.a.peer, x).stream.Some? && At(d'.a.peer, x).stream.value.cause != S.ByReset(REFUSED)
    requires NoRefusalAdded(WayA(d, x), WayA(d', x)) && NoRefusalAdded(WayA(Flip(d), x), WayA(Flip(d'), x))
    ensures Effect(d, d', x)
  {
    hide WayA, RefusalIn, LaneAt, Joined, HalfA, HeardOf, SaidOf;
    LiveHalf(d, x);
  }

  lemma FewerRefusals(q: seq<Frame>, kept: seq<Frame>, dropped: seq<Frame>, f: Frame)
    requires q == kept + dropped && !Refusal(f)
    ensures NoRefusalAdded(q, kept + [f]) && NoRefusalAdded(q, kept) && NoRefusalAdded(q, q)
  {
    if i :| 0 <= i < |kept + [f]| && Refusal((kept + [f])[i]) {
      assert i < |kept|;
      assert q[i] == kept[i];
    }
    if i :| 0 <= i < |kept| && Refusal(kept[i]) {
      assert q[i] == kept[i];
    }
  }

  lemma TailRefusals(f: Frame, q: seq<Frame>)
    ensures NoRefusalAdded([f] + q, q)
    ensures Refusal(f) ==> RefusalIn([f] + q)
  {
    if i :| 0 <= i < |q| && Refusal(q[i]) {
      assert ([f] + q)[i + 1] == q[i];
    }
    assert ([f] + q)[0] == f;
  }

  // ------------------------------------------------------------ the application's moves

  /** A lane that keeps the front of what it had, with a frame at its back. */
  lemma TailWay(d: Duplex, d': Duplex, x: nat, lane: Lane, f: Frame)
    requires d' == d.(a := d'.a) && d'.a.log == d.a.log && !Refusal(f)
    requires LaneAt(d'.a.peer.writer, x) == Tail(lane, f)
    requires Coming(lane) <= Coming(LaneAt(d.a.peer.writer, x))
    ensures NoRefusalAdded(WayA(d, x), WayA(d', x)) && NoRefusalAdded(WayA(Flip(d), x), WayA(Flip(d'), x))
  {
    hide On, Coming, LaneAt, RefusalIn;
    ComingTail(lane, f);
    var front := On(Unread(d.a.log, d.ra), x);
    var coming := Coming(LaneAt(d.a.peer.writer, x));
    var dropped := coming[|Coming(lane)|..];
    assert coming == Coming(lane) + dropped;
    assert WayA(d, x) == (front + Coming(lane)) + dropped;
    assert WayA(d', x) == (front + Coming(lane)) + [f];
    FewerRefusals(WayA(d, x), front + Coming(lane), dropped, f);
  }

  lemma TouchedEffect(d: Duplex, d': Duplex, id: nat)
    requires d' == d.(a := d'.a) && d'.a.log == d.a.log
    requires Touched(d.a.peer, d'.a.peer, id) && forall x: nat :: x != id ==> SaidOn(d'.a, x) == SaidOn(d.a, x)
    requires 0 < id ==> Effect(d, d', id)
    ensures forall x: nat :: 0 < x ==> Effect(d, d', x)
  {
    hide Effect, At, Same;
    forall x: nat | 0 < x
      ensures Effect(d, d', x)
    {
      if x != id {
        OtherStream(d, d', id, x);
        assert At(d'.a.peer, x) == At(d.a.peer, x);
        TouchedOnward(d.a.peer, d'.a.peer, id);
        OtherEffect(d, d', x);
      }
    }
  }

  lemma TouchedOnward(p: Peer, p': Peer, id: nat)
    requires Touched(p, p', id)
    ensures Onward(p, p')
  {
    hide At;
  }

  /** A live stream gets a frame at the back of its lane, and perhaps is closed, not with REFUSED. */
  lemma CellEffect(d: Duplex, d': Duplex, id: nat, c: Cell, lane: Lane, f: Frame)
    requires Joined(d) && d' == d.(a := d'.a) && d'.a.log == d.a.log && id in d.a.peer.live
    requires Became(d.a.peer, d'.a.peer, id, c) && c.lane == Tail(lane, f)
      && Coming(lane) <= Coming(LaneAt(d.a.peer.writer, id))
    requires c.stream.Some? && c.stream.value.cause != S.ByReset(REFUSED) && !Refusal(f)
    requires forall x: nat :: x != id ==> SaidOn(d'.a, x) == SaidOn(d.a, x)
    ensures forall x: nat :: 0 < x ==> Effect(d, d', x)
  {
    hide Effect, Joined, Coming, LaneAt, Tail, WayA, NoRefusalAdded;
    BecameTouched(d.a.peer, d'.a.peer, id, c);
    TouchedOnward(d.a.peer, d'.a.peer, id);
    TailWay(d, d', id, lane, f);
    LiveEffect(d, d', id);
    TouchedEffect(d, d', id);
  }

  lemma FallenCause(c: Cell, code: int)
    requires c.stream.Some? && c.stream.value.state != S.Closed
    ensures Fallen(c, code).stream.Some? && Fallen(c, code).stream.value.cause == S.ByReset(code)
      && Fallen(c, code).lane == c.lane
  {
  }

  lemma ResetEffect(d: Duplex, id: nat, code: int)
    requires Joined(d) && code != REFUSED
    ensures forall x: nat :: 0 < x ==> Effect(d, MoveA(d, Do(Reset(id, code))), x)
  {
    hide Joined, Step, Effect, Became, DiscardExceptUnsentOpen, Coming, Fallen, Tail, LaneAt, HeardOf, SaidOf, HalfA,
      Tied;
    var d' := MoveA(d, Do(Reset(id, code)));
    AppResetCases(d, id, code);
    if d'.a == d.a {
      StillEffect(d);
    } else {
      var c := At(d.a.peer, id);
      var kept := DiscardExceptUnsentOpen(c.lane);
      ComingKept(c.lane);
      LiveHalf(d, id);
      FallenCause(c.(lane := Tail(kept, ResetWith(id, code, None))), code);
      CellEffect(d, d', id, Cleared(c, id, code), kept, ResetWith(id, code, None));
    }
  }

  lemma StillEffect(d: Duplex)
    ensures forall x: nat :: 0 < x ==> Effect(d, d, x)
  {
    hide Effect, At;
    forall x: nat | 0 < x ensures Effect(d, d, x) { OtherEffect(d, d, x); }
  }

  lemma HandlerEffect(d: Duplex, id: nat, error: Option<Value>)
    requires Joined(d)
    ensures forall x: nat :: 0 < x ==> Effect(d, MoveA(d, Do(HandlerRaises(id, error))), x)
  {
    hide Joined, Step, Effect, Became, Coming, Fallen, Tail, LaneAt, HeardOf, SaidOf, HalfA, Tied;
    var d' := MoveA(d, Do(HandlerRaises(id, error)));
    HandlerCases(d, id, error);
    if d'.a == d.a {
      StillEffect(d);
    } else {
      var c := At(d.a.peer, id);
      var f := ResetWith(id, APPLICATION_ERROR, error);
      LiveHalf(d, id);
      FallenCause(c.(lane := Tail(c.lane, f)), APPLICATION_ERROR);
      CellEffect(d, d', id, Fallen(c.(lane := Tail(c.lane, f)), APPLICATION_ERROR), c.lane, f);
    }
  }

  lemma SendEffect(d: Duplex, id: nat, payload: Option<Value>, headers: Option<Fields>, end: bool,
                   trailers: Option<Fields>)
    requires Joined(d)
    ensures forall x: nat :: 0 < x ==> Effect(d, MoveA(d, Do(Send(id, payload, headers, end, trailers))), x)
  {
    hide Joined, Step, Effect, Became, Coming, Tail, LaneAt, Spoken, Proper, S.MaySend;
    var d' := MoveA(d, Do(Send(id, payload, headers, end, trailers)));
    SendCases(d, id, payload, headers, end, trailers);
    if d'.a == d.a {
      StillEffect(d);
    } else {
      var c := At(d.a.peer, id);
      var s := d.a.peer.objects[id];
      var f := DataOf(id, payload, headers, end, trailers);
      LiveHalf(d, id);
      SpokenView(s, f, SaidOn(d.a, id));
      CellEffect(d, d', id, Cell(Some(Spoken(s, headers, end)), Tail(c.lane, f), c.cut), c.lane, f);
    }
  }

  lemma OpenEffect(d: Duplex, payload: Value, headers: Option<Fields>, end: bool)
    requires Joined(d)
    ensures forall x: nat :: 0 < x ==> Effect(d, MoveA(d, Do(Open(payload, headers, end))), x)
  {
    hide Joined, Effect, Touched, Tail, LaneAt, OpenStream, Coming, NoRefusalAdded, WayA;
    var d' := MoveA(d, Do(Open(payload, headers, end)));
    if !MayOpen(d.a.peer) {
      StillEffect(d);
    } else {
      var id := d.a.peer.nextId;
      OpenCases(d.a.peer, payload, headers, end);
      NextIsUnborn(d);
      TailWay(d, d', id, LaneAt(d.a.peer.writer, id), OpenOf(id, payload, headers, end));
      OwnIsOurs(d.a.peer, d.ca, id);
      NewEffect(d, d', id);
      TouchedEffect(d, d', id);
    }
  }

  lemma NewEffect(d: Duplex, d': Duplex, id: nat)
    requires IsOurs(d.a.peer, id) && NoRefusalAdded(WayA(Flip(d), id), WayA(Flip(d'), id))
    requires At(d'.a.peer, id).stream.Some? && At(d'.a.peer, id).stream.value.cause.NotEnded?
    ensures Effect(d, d', id)
  {
    hide WayA, RefusalIn, LaneAt;
  }

  lemma GoodbyeEffect(d: Duplex, d1: Duplex, d': Duplex, code: int, failed: bool)
    requires d1 == d.(rb := d1.rb)
    requires d' == d1.(a := d1.a.(peer := QueueGoaway(d1.a.peer, code).(failed := failed)))
    requires forall x: nat :: 0 < x ==> Effect(d, d1, x)
    ensures forall x: nat :: 0 < x ==> Effect(d, d', x)
  {
    hide Effect, Enqueue, WayA, HalfA;
    forall x: nat | 0 < x
      ensures Effect(d, d', x)
    {
      GoawaySame(d1, d', x, code);
      GoodbyeOne(d, d1, d', x);
    }
  }

  lemma GoodbyeOne(d: Duplex, d1: Duplex, d': Duplex, x: nat)
    requires Effect(d, d1, x) && d1 == d.(rb := d1.rb) && Same(d1, d', x)
    requires d'.a.peer.objects == d.a.peer.objects && d'.a.peer.dialer == d.a.peer.dialer
      && d'.a.peer.highRemote == d.a.peer.highRemote
    requires d.a.peer.goaway.sentLast.Some? ==> d'.a.peer.goaway.sentLast == d.a.peer.goaway.sentLast
    ensures Effect(d, d', x)
  {
    hide WayA, HalfA, RefusalIn;
  }

  // ------------------------------------------------------------ the write loop's moves

  lemma WayEffect(d: Duplex, d': Duplex, w: Writer, x: nat)
    requires WriterOnly(d, d', w) && NoRefusalAdded(WayA(d, x), WayA(d', x))
    ensures Effect(d, d', x)
  {
    hide WayA, HalfA, RefusalIn, At;
    WriterHalf(d, d', w, x);
    NeverStartsSame(d.a.peer, d'.a.peer, x);
  }

  lemma NeverStartsSame(p: Peer, p': Peer, x: nat)
    requires p'.objects == p.objects && p'.goaway == p.goaway && p'.highRemote == p.highRemote
    ensures NeverStarts(p', x) == NeverStarts(p, x) && RefusedAt(p', x) == RefusedAt(p, x)
  {
  }

  lemma PreparedRefusals(front: seq<Frame>, lane: Lane, cap: nat, codec: Codec)
    requires Prepare(lane, cap, codec).Ready?
    ensures NoRefusalAdded(front + Coming(lane), front + Coming(Prepare(lane, cap, codec).lane))
  {
    hide Prepare, Coming;
    var q, q' := front + Coming(lane), front + Coming(Prepare(lane, cap, codec).lane);
    if i :| 0 <= i < |q'| && Refusal(q'[i]) {
      if i < |front| {
        assert q[i] == front[i];
      } else {
        PreparedGoodbyes(lane, q'[i], cap, codec);
        var j :| 0 <= j < |Coming(lane)| && Alike(Coming(lane)[j], q'[i]);
        assert q[|front| + j] == Coming(lane)[j];
      }
    }
  }

  lemma SentEffect(d: Duplex, d': Duplex, w: Writer, f: Frame)
    requires Joined(d) && WriterOnly(d, d', w) && d'.a.log == d.a.log + [f]
    requires Turned(d.a.peer.writer, w, Sent(LaneOf(f), f), d.ca.cap, d.ca.codec)
    ensures forall x: nat :: 0 < x ==> Effect(d, d', x)
  {
    hide Joined, Prepare, Coming, LaneAt, On, Effect, NoRefusalAdded;
    var y := LaneOf(f);
    forall x: nat | 0 < x
      ensures Effect(d, d', x)
    {
      UnreadGrows(d.a.log, f, d.ra, x);
      if x == y {
        var lane := LaneAt(d.a.peer.writer, y);
        var ready := Prepare(lane, d.ca.cap, d.ca.codec).lane;
        PreparedComing(ready, f);
        PreparedRefusals(On(Unread(d.a.log, d.ra), y), lane, d.ca.cap, d.ca.codec);
        assert WayA(d', y) == On(Unread(d.a.log, d.ra), y) + Coming(ready);
      } else {
        FewerRefusals(WayA(d, x), WayA(d, x), [], Bare(PingFrame, None));
        assert WayA(d', x) == WayA(d, x);
        assert WayA(d, x) == WayA(d, x) + [];
      }
      WayEffect(d, d', w, x);
    }
  }

  lemma SlicedEffect(d: Duplex, d': Duplex, w: Writer, y: nat)
    requires Joined(d) && WriterOnly(d, d', w) && d'.a.log == d.a.log
    requires forall x: nat :: x != y ==> Coming(LaneAt(w, x)) == Coming(LaneAt(d.a.peer.writer, x))
    requires Prepare(LaneAt(d.a.peer.writer, y), d.ca.cap, d.ca.codec) == Ready(LaneAt(w, y))
             || Coming(LaneAt(w, y)) == Coming(LaneAt(d.a.peer.writer, y))
    ensures forall x: nat :: 0 < x ==> Effect(d, d', x)
  {
    hide Joined, Prepare, Coming, LaneAt, On, Effect, NoRefusalAdded;
    forall x: nat | 0 < x
      ensures Effect(d, d', x)
    {
      if x == y && Prepare(LaneAt(d.a.peer.writer, y), d.ca.cap, d.ca.codec) == Ready(LaneAt(w, y)) {
        PreparedRefusals(On(Unread(d.a.log, d.ra), y), LaneAt(d.a.peer.writer, y), d.ca.cap, d.ca.codec);
      } else {
        FewerRefusals(WayA(d, x), WayA(d, x), [], Bare(PingFrame, None));
        assert WayA(d', x) == WayA(d, x);
        assert WayA(d, x) == WayA(d, x) + [];
      }
      WayEffect(d, d', w, x);
    }
  }

  lemma FailedEffect(d: Duplex, d': Duplex, w: Writer, y: nat, unsentOpen: bool)
    requires Joined(d) && LaneAt(w, y) == EMPTY_LANE
    requires d' == d.(a := d'.a) && d'.a.log == d.a.log && d'.a.said == d.a.said
    requires d'.a.peer == FailLane(d.a.peer.(writer := w), y, unsentOpen)
    requires forall x: nat :: x != y ==> Coming(LaneAt(w, x)) == Coming(LaneAt(d.a.peer.writer, x))
    ensures forall x: nat :: 0 < x ==> Effect(d, d', x)
  {
    hide Joined, Effect, Coming, LaneAt, Die, FailStream, QueueReset;
    if y in d.a.peer.live && y in d.a.peer.objects {
      FailedLiveEffect(d, d', w, y, unsentOpen);
    } else if d.a.peer.isOpen {
      DeadEffect(d, d', w);
    } else {
      DeadStays(d.a.peer.(writer := w));
      forall x: nat | 0 < x
        ensures Effect(d, d', x)
      {
        DroppedLaneEffect(d, d', w, y, x);
      }
    }
  }

  lemma DroppedLaneEffect(d: Duplex, d': Duplex, w: Writer, y: nat, x: nat)
    requires Joined(d) && LaneAt(w, y) == EMPTY_LANE && 0 < x
    requires d' == d.(a := d'.a) && d'.a.log == d.a.log && d'.a.said == d.a.said && d'.a.peer == d.a.peer.(writer := w)
    requires x != y ==> Coming(LaneAt(w, x)) == Coming(LaneAt(d.a.peer.writer, x))
    ensures Effect(d, d', x)
  {
    hide Joined, Effect, LaneAt, On, NoRefusalAdded;
    JoinedTuned(d);
    var front := On(Unread(d.a.log, d.ra), x);
    var coming := Coming(LaneAt(d.a.peer.writer, x));
    FewerRefusals(WayA(d, x), front, coming, Bare(PingFrame, None));
    if x == y {
      assert Coming(EMPTY_LANE) == [];
      assert WayA(d', x) == front;
    } else {
      assert WayA(d', x) == WayA(d, x);
    }
    WayEffect(d, d', w, x);
  }

  lemma FailedLiveEffect(d: Duplex, d': Duplex, w: Writer, y: nat, unsentOpen: bool)
    requires Joined(d) && y in d.a.peer.live && y in d.a.peer.objects && LaneAt(w, y) == EMPTY_LANE
    requires d' == d.(a := d'.a) && d'.a.log == d.a.log && d'.a.said == d.a.said
    requires d'.a.peer == FailLane(d.a.peer.(writer := w), y, unsentOpen)
    requires forall x: nat :: x != y ==> Coming(LaneAt(w, x)) == Coming(LaneAt(d.a.peer.writer, x))
    ensures forall x: nat :: 0 < x ==> Effect(d, d', x)
  {
    hide Joined, Effect, Coming, LaneAt, On, Fallen, Tail, FailLane, NoRefusalAdded, WayA, HalfA, HeardOf, SaidOf, Same;
    var p := d.a.peer;
    var now := d.(a := d.a.(peer := p.(writer := w)));
    var f := ResetWith(y, INTERNAL_ERROR, None);
    var lane := if unsentOpen then EMPTY_LANE else Tail(EMPTY_LANE, f);
    FailLaneAt(p, w, y, unsentOpen);
    LiveHalf(d, y);
    FallenCause(At(p, y).(lane := lane), INTERNAL_ERROR);
    BecameTouched(now.a.peer, d'.a.peer, y, Fallen(At(p, y).(lane := lane), INTERNAL_ERROR));
    TouchedOnward(now.a.peer, d'.a.peer, y);
    JoinedTuned(d);
    assert WriterOnly(d, now, w);
    forall x: nat | 0 < x
      ensures Effect(d, d', x)
    {
      if x == y {
        FailedWay(d, d', y, lane, f);
        LiveEffect(d, d', y);
      } else {
        FailedElsewhere(d, now, d', w, y, x);
        OtherEffect(d, d', x);
      }
    }
  }

  lemma FailedWay(d: Duplex, d': Duplex, y: nat, lane: Lane, f: Frame)
    requires d' == d.(a := d'.a) && d'.a.log == d.a.log && !Refusal(f)
    requires LaneAt(d'.a.peer.writer, y) == lane && (lane == EMPTY_LANE || lane == Tail(EMPTY_LANE, f))
    ensures NoRefusalAdded(WayA(d, y), WayA(d', y)) && NoRefusalAdded(WayA(Flip(d), y), WayA(Flip(d'), y))
  {
    hide On, LaneAt, RefusalIn;
    var front := On(Unread(d.a.log, d.ra), y);
    FewerRefusals(WayA(d, y), front, Coming(LaneAt(d.a.peer.writer, y)), f);
    ComingTail(EMPTY_LANE, f);
    assert Coming(EMPTY_LANE) == [];
    assert WayA(d', y) == front || WayA(d', y) == front + [f];
  }

  lemma DeadEffect(d: Duplex, d': Duplex, w: Writer)
    requires Joined(d) && d.a.peer.isOpen
    requires d' == d.(a := d.a.(peer := Die(d.a.peer.(writer := w)), inFlight := d'.a.inFlight))
    ensures forall x: nat :: 0 < x ==> Effect(d, d', x)
  {
    hide Joined, Effect;
    forall x: nat | 0 < x
      ensures Effect(d, d', x)
    {
      DeadOne(d, d', w, x);
    }
  }

  lemma DeadOne(d: Duplex, d': Duplex, w: Writer, x: nat)
    requires Joined(d) && d.a.peer.isOpen && 0 < x
    requires d' == d.(a := d.a.(peer := Die(d.a.peer.(writer := w)), inFlight := d'.a.inFlight))
    ensures Effect(d, d', x)
  {
    hide Joined, On, RefusalIn, S.Accepted;
    var front := On(Unread(d.a.log, d.ra), x);
    FewerRefusals(WayA(d, x), front, Coming(LaneAt(d.a.peer.writer, x)), Bare(PingFrame, None));
    assert LaneAt(DiscardAll(w), x) == EMPTY_LANE && Coming(EMPTY_LANE) == [];
    assert WayA(d', x) == front;
    if x in d.a.peer.objects {
      JoinedSteady(d);
      DeadObject(d.a.peer, x, d.ca);
    }
  }

  lemma DeadObject(p: Peer, x: nat, cfg: Config)
    requires Sound(p, cfg) && x in p.objects
    ensures var t := FailAll(p.objects, p.live, CONNECTION_CLOSED)[x];
            && (x !in p.live ==> t == p.objects[x])
            && (x in p.live ==> t.cause == S.ByReset(CONNECTION_CLOSED) && !p.objects[x].cause.ByReset?)
  {
    SoundKeeps(p, x, cfg);
  }

  lemma TakeEffect(d: Duplex)
    requires Joined(d)
    ensures forall x: nat :: 0 < x ==> Effect(d, MoveA(d, Do(Take)), x)
  {
    hide Joined, Effect, NextFrame, FailLane, Outcome, LaneAt, Coming, Prepare, Unsent;
    var d' := MoveA(d, Do(Take));
    JoinedTuned(d);
    if d.a.inFlight.None? {
      var (w, turn) := NextFrame(d.a.peer.writer, d.ca.cap, d.ca.codec);
      NextFrameTurned(d.a.peer.writer, d.ca.cap, d.ca.codec);
      TurnOutcome(d);
      match turn
      case Nothing => SlicedEffect(d, d', w, 0);
      case Sent(y, f) => SentEffect(d, d', w, f);
      case Failed(y, unsentOpen) => FailedEffect(d, d', w, y, unsentOpen);
    } else {
      StillEffect(d);
    }
  }

  lemma TakenEffect(d: Duplex, lane: nat)
    requires Joined(d)
    ensures forall x: nat :: 0 < x ==> Effect(d, MoveA(d, Do(Taken(lane))), x)
  {
    hide Joined, Effect, Advance, FailLane, LaneAt, Coming, Prepare, Unsent;
    var d' := MoveA(d, Do(Taken(lane)));
    JoinedTuned(d);
    if d.a.inFlight.Some? {
      var y := d.a.inFlight.value;
      var (w, turn) := Advance(d.a.peer.writer, y, d.ca.cap, d.ca.codec);
      AdvanceTurned(d.a.peer.writer, y, d.ca.cap, d.ca.codec);
      AdvanceOutcome(d, y);
      if turn.Failed? {
        FailedEffect(d, d', w, y, turn.unsentOpen);
      } else {
        SlicedEffect(d, d', w, y);
      }
    } else {
      StillEffect(d);
    }
  }

  lemma DieEffect(d: Duplex)
    requires Joined(d)
    ensures forall x: nat :: 0 < x ==> Effect(d, MoveA(d, Do(SocketDies)), x)
  {
    hide Joined, Effect, Die;
    if d.a.peer.isOpen {
      DeadEffect(d, MoveA(d, Do(SocketDies)), d.a.peer.writer);
    } else {
      DeadStays(d.a.peer);
      StillEffect(d);
    }
  }

  // ------------------------------------------------------------ a frame arrives

  lemma ReadWay(d: Duplex, d': Duplex, x: nat)
    requires Reads(d, d')
    ensures NoRefusalAdded(WayA(Flip(d), x), WayA(Flip(d'), x))
    ensures x == LaneOf(Head(d)) && Refusal(Head(d)) ==> RefusalIn(WayA(Flip(d), x))
  {
    hide On, Coming, LaneAt, Unread, RefusalIn;
    ReadGrows(d.b.log, d.rb, x);
    if x == LaneOf(Head(d)) {
      OwnRead(d, d', x);
      TailRefusals(Head(d), WayA(Flip(d'), x));
    } else {
      assert WayA(Flip(d), x) == WayA(Flip(d'), x);
    }
  }

  /** A frame that concerns one stream, or none. */
  lemma ReadEffect(d: Duplex, d': Duplex, id: nat)
    requires Reads(d, d') && id == LaneOf(Head(d)) && Onward(d.a.peer, d'.a.peer)
    requires forall x: nat :: x != id ==> At(d'.a.peer, x) == At(d.a.peer, x)
    requires 0 < id ==> Effect(d, d', id)
    ensures forall x: nat :: 0 < x ==> Effect(d, d', x)
  {
    hide Effect, At, Same;
    forall x: nat | 0 < x
      ensures Effect(d, d', x)
    {
      if x != id {
        OtherRead(d, d', x);
        OtherEffect(d, d', x);
      }
    }
  }

  lemma AnsweredEffect(d: Duplex, x: nat, view: View)
    requires Joined(d) && Answered(d, MoveA(d, Deliver), x, view) && Steady(MoveA(d, Deliver).a, d.ca)
    ensures forall y: nat :: 0 < y ==> Effect(d, MoveA(d, Deliver), y)
  {
    hide Joined, Effect, TookIn, TurnedAway, Hear, EarOf, HalfA, LaneAt, MoveA, WayA, NoRefusalAdded, Own;
    var d' := MoveA(d, Deliver);
    var q := d.a.peer.(highRemote := d'.a.peer.highRemote);
    assert forall y: nat :: At(q, y) == At(d.a.peer, y);
    assert Onward(d.a.peer, d'.a.peer) by { AnsweredOnward(d, d', x, view); }
    if TookIn(At(d.a.peer, x), At(d'.a.peer, x), view) {
      TookInEffect(d, d', x, view);
    } else {
      TurnedAwayEffect(d, d', x, view);
    }
    ReadEffect(d, d', x);
  }

  lemma AnsweredOnward(d: Duplex, d': Duplex, x: nat, view: View)
    requires Answered(d, d', x, view)
    ensures Onward(d.a.peer, d'.a.peer)
  {
    hide TookIn, TurnedAway, Hear, EarOf, HalfA, LaneAt, Joined, At;
  }

  lemma TookInEffect(d: Duplex, d': Duplex, x: nat, view: View)
    requires Answered(d, d', x, view) && TookIn(At(d.a.peer, x), At(d'.a.peer, x), view) && Onward(d.a.peer, d'.a.peer)
    ensures Effect(d, d', x)
  {
    hide Joined, Hear, EarOf, HalfA, LaneAt, HeardOf, SaidOf, Proper, Coming, On, RefusalIn;
    var c, c' := At(d.a.peer, x), At(d'.a.peer, x);
    OwnRead(d, d', x);
    ReadWay(d, d', x);
    assert WayA(d', x) == WayA(d, x);
    if c.stream.None? {
      OwnIsOurs(d.a.peer, d.ca, x);
    }
  }

  lemma TurnedAwayEffect(d: Duplex, d': Duplex, x: nat, view: View)
    requires Answered(d, d', x, view) && TurnedAway(At(d.a.peer, x), At(d'.a.peer, x), view, x)
      && Onward(d.a.peer, d'.a.peer)
    requires Sound(d'.a.peer, d.ca)
    ensures Effect(d, d', x)
  {
    hide Joined, Hear, EarOf, HalfA, LaneAt, HeardOf, SaidOf, ValuesOf, Proper, Coming, On, RefusalIn, Tail,
      DiscardExceptUnsentOpen, TurnedAwayWith, Own, WayA, NeverStarts, RefusedAt;
    var c, c' := At(d.a.peer, x), At(d'.a.peer, x);
    var code :| TurnedAwayWith(c, c', view, x, code);
    TurnedAwayRefusals(d, d', x, view, code);
    ReadWay(d, d', x);
    TurnedAwayStarts(d, d', x, view, code);
  }

  lemma TurnedAwayStarts(d: Duplex, d': Duplex, x: nat, view: View, code: int)
    requires Answered(d, d', x, view) && TurnedAwayWith(At(d.a.peer, x), At(d'.a.peer, x), view, x, code)
      && Onward(d.a.peer, d'.a.peer)
    requires Sound(d'.a.peer, d.ca)
    ensures IsOurs(d.a.peer, x) ==> !RefusedAt(d'.a.peer, x)
    ensures !IsOurs(d.a.peer, x) && code == REFUSED ==> NeverStarts(d'.a.peer, x)
    ensures !IsOurs(d.a.peer, x) && NeverStarts(d.a.peer, x) ==> NeverStarts(d'.a.peer, x)
  {
    hide Hear, EarOf, HalfA, LaneAt, HeardOf, SaidOf, ValuesOf, Tail, DiscardExceptUnsentOpen, TurnedAway, TookIn,
      WayA, Own, Joined, Sound;
    JoinedSteady(d);
    OwnIsOurs(d.a.peer, d.ca, x);
    LocalStays(d, d', x, view, code);
  }

  lemma LocalStays(d: Duplex, d': Duplex, x: nat, view: View, code: int)
    requires Sound(d'.a.peer, d.ca) && d'.a.peer.dialer == d.a.peer.dialer
    requires TurnedAwayWith(At(d.a.peer, x), At(d'.a.peer, x), view, x, code)
    ensures At(d'.a.peer, x).stream.Some? && IsOurs(d.a.peer, x) ==> code != REFUSED
  {
    hide LaneAt, ValuesOf, Tail, DiscardExceptUnsentOpen, Listed;
    assert x in d'.a.peer.objects ==> Kept(d'.a.peer, x, d'.a.peer.objects[x], d.ca);
  }

  lemma TurnedAwayRefusals(d: Duplex, d': Duplex, x: nat, view: View, code: int)
    requires Reads(d, d') && x == LaneOf(Head(d)) && TurnedAwayWith(At(d.a.peer, x), At(d'.a.peer, x), view, x, code)
    ensures code != REFUSED ==> NoRefusalAdded(WayA(d, x), WayA(d', x))
  {
    hide LaneAt, Coming, On, ValuesOf, DiscardExceptUnsentOpen, Unread, Tail, RefusalIn;
    var c, c' := At(d.a.peer, x), At(d'.a.peer, x);
    var front := On(Unread(d.a.log, d.ra), x);
    var f := ResetWith(x, code, None);
    var lane := if c'.lane == Tail(c.lane, f) then c.lane else DiscardExceptUnsentOpen(c.lane);
    ComingKept(c.lane);
    ComingTail(lane, f);
    OwnRead(d, d', x);
    var dropped := Coming(c.lane)[|Coming(lane)|..];
    assert Coming(c.lane) == Coming(lane) + dropped;
    assert WayA(d, x) == (front + Coming(lane)) + dropped;
    assert WayA(d', x) == (front + Coming(lane)) + [f];
    if code != REFUSED {
      FewerRefusals(WayA(d, x), front + Coming(lane), dropped, f);
    }
  }

  // ------------------------------------------------------------ the other frames

  lemma ResetReadEffect(d: Duplex, x: nat)
    requires Joined(d) && CanRead(d) && x == LaneOf(Head(d)) && x in d.a.peer.live && Head(d).kind == ResetFrame
    ensures forall y: nat :: 0 < y ==> Effect(d, MoveA(d, Deliver), y)
  {
    hide Joined, Steady, Became, OnStreamFrame, Fallen, HeardOf, SaidOf, DiscardExceptUnsentOpen, LaneAt, Effect,
      HalfA, Tied;
    var d' := MoveA(d, Deliver);
    var f := Head(d);
    var code := if f.code.Some? then f.code.value else 0;
    DispatchedAt(d);
    LiveHalf(d, x);
    HeadIsOrderly(d);
    ResetReadAt(d.a.peer, x, f, d.ca);
    var c := At(d.a.peer, x).(lane := DiscardExceptUnsentOpen(At(d.a.peer, x).lane));
    BecameTouched(d.a.peer, d'.a.peer, x, Fallen(c, code));
    TouchedOnward(d.a.peer, d'.a.peer, x);
    FallenCause(c, code);
    HeardResetEffect(d, d', x, code);
    ReadEffect(d, d', x);
  }

  lemma HeardResetEffect(d: Duplex, d': Duplex, x: nat, code: int)
    requires Joined(d) && Reads(d, d') && x == LaneOf(Head(d)) && x in d.a.peer.live && Head(d).kind == ResetFrame
    requires Onward(d.a.peer, d'.a.peer) && code == (if Head(d).code.Some? then Head(d).code.value else 0)
    requires At(d'.a.peer, x).stream.Some? && At(d'.a.peer, x).stream.value.cause == S.ByReset(code)
    requires At(d'.a.peer, x).lane == DiscardExceptUnsentOpen(At(d.a.peer, x).lane)
    ensures Effect(d, d', x)
  {
    hide Joined, HeardOf, SaidOf, DiscardExceptUnsentOpen, LaneAt, HalfA, Tied, On, Coming, RefusalIn;
    LiveHalf(d, x);
    ReadWay(d, d', x);
    OwnRead(d, d', x);
    ComingKept(At(d.a.peer, x).lane);
    var front := On(Unread(d.a.log, d.ra), x);
    var lane := DiscardExceptUnsentOpen(At(d.a.peer, x).lane);
    var all := Coming(At(d.a.peer, x).lane);
    var dropped := all[|Coming(lane)|..];
    assert all == Coming(lane) + dropped;
    assert WayA(d, x) == (front + Coming(lane)) + dropped;
    FewerRefusals(WayA(d, x), front + Coming(lane), dropped, Bare(PingFrame, None));
  }

  lemma UnchangedEffect(d: Duplex, d': Duplex, x: nat)
    requires Joined(d) && Reads(d, d') && x == LaneOf(Head(d))
    requires d'.a.peer == d.a.peer.(ignoredLate := d'.a.peer.ignoredLate)
    ensures forall y: nat :: 0 < y ==> Effect(d, d', y)
  {
    hide Joined, Effect, LaneAt, On, Coming, RefusalIn;
    assert forall y: nat :: At(d'.a.peer, y) == At(d.a.peer, y);
    if 0 < x {
      ReadWay(d, d', x);
      OwnRead(d, d', x);
      assert WayA(d', x) == WayA(d, x);
      NeverStartsSame(d.a.peer, d'.a.peer, x);
      UnchangedOne(d, d', x);
    }
    ReadEffect(d, d', x);
  }

  lemma UnchangedOne(d: Duplex, d': Duplex, x: nat)
    requires WayA(d', x) == WayA(d, x) && NoRefusalAdded(WayA(Flip(d), x), WayA(Flip(d'), x))
    requires NeverStarts(d'.a.peer, x) == NeverStarts(d.a.peer, x) && RefusedAt(d'.a.peer, x) == RefusedAt(d.a.peer, x)
    ensures Effect(d, d', x)
  {
    hide WayA, RefusalIn, NeverStarts, RefusedAt;
  }

  lemma EffectTrans(d: Duplex, d1: Duplex, d': Duplex, x: nat)
    requires Effect(d, d1, x) && Effect(d1, d', x) && d1.b == d.b && d1.a.peer == d.a.peer && WayA(d1, x) == WayA(d, x)
    ensures Effect(d, d', x)
  {
    hide WayA, RefusalIn, NeverStarts, RefusedAt;
  }

  lemma TooLateEffect(d: Duplex, x: nat)
    requires Joined(d) && CanRead(d) && 0 < x == LaneOf(Head(d)) && Stopped(EarOf(HalfA(d, x)))
      && Head(d).kind == DataFrame
    requires x in d.a.peer.live
    ensures forall y: nat :: 0 < y ==> Effect(d, MoveA(d, Deliver), y)
  {
    hide Joined, Steady, EarOf, HalfA, Effect, MoveA, DiscardExceptUnsentOpen, Coming, HeardOf, SaidOf, Became, Fallen,
      WayA, Fitting;
    var d' := MoveA(d, Deliver);
    var d1 := d.(rb := d.rb + 1);
    var c := TooLateCell(d, x);
    UnchangedEffect(d, d1, x);
    LiveHalf(d, x);
    FallenCause(c.(lane := Tail(DiscardExceptUnsentOpen(c.lane), ResetWith(x, PROTOCOL_ERROR, None))), PROTOCOL_ERROR);
    ComingKept(c.lane);
    CellEffect(d1, d', x, Cleared(c, x, PROTOCOL_ERROR), DiscardExceptUnsentOpen(c.lane),
               ResetWith(x, PROTOCOL_ERROR, None));
    forall y: nat | 0 < y ensures Effect(d, d', y) {
      assert WayA(d1, y) == WayA(d, y) by { WayOfA(d, d1, y); }
      EffectTrans(d, d1, d', y);
    }
  }

  lemma WayOfA(d: Duplex, d': Duplex, x: nat)
    requires d'.a == d.a && d'.ra == d.ra
    ensures WayA(d', x) == WayA(d, x)
  {
  }

  lemma IgnoredEffect(d: Duplex, x: nat)
    requires Joined(d) && CanRead(d) && 0 < x == LaneOf(Head(d)) && Stopped(EarOf(HalfA(d, x)))
    ensures forall y: nat :: 0 < y ==> Effect(d, MoveA(d, Deliver), y)
  {
    hide Joined, Steady, EarOf, HalfA, QueueGoaway, Dispatch, Effect;
    var d' := MoveA(d, Deliver);
    DispatchedAt(d);
    if Head(d).kind == OpenFrame {
      FatalJoined(d, x);
      var d1 := d.(rb := d.rb + 1);
      UnchangedEffect(d, d1, x);
      FatalIsGoaway(d, x);
      GoodbyeEffect(d, d1, d', PROTOCOL_ERROR, true);
    } else if x in d.a.peer.live {
      if Head(d).kind == ResetFrame { ResetReadEffect(d, x); }
      else {
        HeadIsOrderly(d);
        HeadKinds(Head(d), x, SideOf(d.b.peer, d.cb));
        TooLateEffect(d, x);
      }
    } else {
      IgnoredJoined(d, x);
      UnchangedEffect(d, d', x);
    }
  }

  lemma FatalIsGoaway(d: Duplex, x: nat)
    requires Joined(d) && CanRead(d) && 0 < x == LaneOf(Head(d)) && Head(d).kind == OpenFrame && x in d.a.peer.cut
    ensures MoveA(d, Deliver).a.peer == QueueGoaway(d.a.peer, PROTOCOL_ERROR).(failed := true)
  {
    hide Joined, Steady, QueueGoaway, Dispatch;
    DispatchedAt(d);
    JoinedSteady(d);
    CutIsBelow(d.a.peer, x, d.ca);
    SecondOpenFails(d.a.peer, x, Head(d), d.ca) by { HeadIsOrderly(d); }
  }

  lemma ConnectionFrameEffect(d: Duplex)
    requires Joined(d) && CanRead(d) && LaneOf(Head(d)) == 0
    ensures forall y: nat :: 0 < y ==> Effect(d, MoveA(d, Deliver), y)
  {
    hide Joined, Steady, Effect, OnOpen, OnStreamFrame, OnGoaway, Queue, At;
    var d' := MoveA(d, Deliver);
    DispatchedAt(d);
    HeadIsOrderly(d);
    HeadKinds(Head(d), 0, SideOf(d.b.peer, d.cb));
    if Head(d).kind == PingFrame {
      var pong := Bare(PongFrame, None).(nonce := Head(d).nonce);
      PongAt(d, d', pong);
      PongOnward(d.a.peer, pong);
      ReadEffect(d, d', 0);
    } else if Head(d).kind == GoawayFrame {
      forall x: nat | 0 < x
        ensures Effect(d, d', x)
      {
        GoawayReadEffect(d, d', x);
      }
    } else if Head(d).kind == ResetFrame {
      ZeroReadJoined(d);
      UnchangedEffect(d, d', 0);
    } else {
      UnchangedEffect(d, d', 0);
    }
  }

  lemma PongOnward(p: Peer, pong: Frame)
    ensures Onward(p, Queue(p, pong))
  {
    hide Enqueue;
  }

  lemma GoawayReadEffect(d: Duplex, d': Duplex, x: nat)
    requires Joined(d) && CanRead(d) && Reads(d, d') && LaneOf(Head(d)) == 0 && Head(d).kind == GoawayFrame && 0 < x
    requires d'.a.peer == OnGoaway(d.a.peer, Head(d))
    ensures Effect(d, d', x)
  {
    hide Joined, Same, OnGoaway, LaneAt, S.Fail, On, Coming, RefusalIn, HeardOf, SaidOf, HalfA, Tied, Unread;
    var p, f := d.a.peer, Head(d);
    AbandonedAt(p, f, x);
    ReadWay(d, d', x);
    if x in p.live && x in p.objects && p.objects[x].local && f.lastStream.Some? && f.lastStream.value < x {
      LiveHalf(d, x);
      OwnSplitsJoined(d, x);
      OwnIsOurs(d.b.peer, d.cb, x);
      OwnIsOurs(d.a.peer, d.ca, x);
      GoodbyeIsLate(d, x);
    } else {
      OtherRead(d, d', x);
      OtherEffect(d, d', x);
    }
  }

  lemma DeliverEffect(d: Duplex)
    requires Joined(d)
    ensures forall y: nat :: 0 < y ==> Effect(d, MoveA(d, Deliver), y)
  {
    hide Joined, MoveA, HalfA, EarOf, Effect, Answered, Steady;
    if CanRead(d) {
      var x := LaneOf(Head(d));
      if x == 0 {
        ConnectionFrameEffect(d);
      } else if Stopped(EarOf(HalfA(d, x))) {
        IgnoredEffect(d, x);
      } else {
        HalfKinds(d, x);
        if Head(d).kind == ResetFrame && !HalfA(d, x).Unborn? {
          ResetReadEffect(d, x);
        } else {
          var view := StreamFrameAnswers(d, x);
          AnsweredEffect(d, x, view);
        }
      }
    } else {
      NotRead(d);
      StillEffect(d);
    }
  }

  // ------------------------------------------------------------ every run

  /** No application resets a stream with REFUSED itself. */
  predicate Tame(e: Event) {
    match e
    case AtA(m) => TameMove(m)
    case AtB(m) => TameMove(m)
  }

  predicate TameMove(m: Move) {
    !(m.Do? && m.action.Reset? && m.action.code == REFUSED)
  }

  lemma MoveEffect(d: Duplex, m: Move)
    requires Joined(d) && TameMove(m)
    ensures forall y: nat :: 0 < y ==> Effect(d, MoveA(d, m), y)
  {
    hide Joined, Step, Effect;
    match m
    case Deliver => DeliverEffect(d);
    case Do(action) =>
      match action
      case Register => RegisterEffect(d);
      case Open(payload, headers, end) => OpenEffect(d, payload, headers, end);
      case Send(id, data, leading, last, trailers) => SendEffect(d, id, data, leading, last, trailers);
      case Reset(id, code) => ResetEffect(d, id, code);
      case HandlerRaises(id, error) => HandlerEffect(d, id, error);
      case Goodbye(code) => GoodbyeMoveEffect(d, code);
      case Ping(nonce) => PingEffect(d, nonce);
      case Take => TakeEffect(d);
      case Taken(lane) => TakenEffect(d, lane);
      case Read(frame, size) => StillEffect(d);
      case SocketDies => DieEffect(d);
  }

  lemma RegisterEffect(d: Duplex)
    ensures forall y: nat :: 0 < y ==> Effect(d, MoveA(d, Do(Register)), y)
  {
    hide Effect, Same;
    var d' := MoveA(d, Do(Register));
    forall x: nat | 0 < x
      ensures Effect(d, d', x)
    {
      RegisterSame(d, d', x);
      OtherEffect(d, d', x);
    }
  }

  lemma PingEffect(d: Duplex, nonce: Text)
    ensures forall y: nat :: 0 < y ==> Effect(d, MoveA(d, Do(Ping(nonce))), y)
  {
    hide Effect, Queue, Same, At, WayA;
    var d' := MoveA(d, Do(Ping(nonce)));
    StillEffect(d);
    if d.a.peer.isOpen {
      PingSame(d, d', nonce);
      PongOnward(d.a.peer, PingOf(nonce));
      forall x: nat | 0 < x
        ensures Effect(d, d', x)
      {
        OtherEffect(d, d', x);
      }
    }
  }

  lemma GoodbyeMoveEffect(d: Duplex, code: int)
    ensures forall y: nat :: 0 < y ==> Effect(d, MoveA(d, Do(Goodbye(code))), y)
  {
    hide Effect, QueueGoaway;
    StillEffect(d);
    if d.a.peer.isOpen && !d.a.peer.goaway.sent {
      GoawayKeepsFailed(d.a.peer, code);
      GoodbyeEffect(d, d, MoveA(d, Do(Goodbye(code))), code, d.a.peer.failed);
    }
  }

  lemma MoveKeepsOther(d: Duplex, m: Move)
    requires Joined(d)
    ensures MoveA(d, m).b == d.b && MoveA(d, m).a.peer.dialer == d.a.peer.dialer
    ensures d.a.peer.dialer != d.b.peer.dialer
  {
    hide Step, Receive, Leg, Lawful;
    MoveJoined(d, m);
  }

  lemma HappenRetryable(d: Duplex, e: Event)
    requires Joined(d) && Retryable(d) && Retryable(Flip(d)) && Tame(e)
    ensures Retryable(Happen(d, e)) && Retryable(Flip(Happen(d, e)))
  {
    hide Joined, MoveA, Effect, Retryable;
    FlipJoined(d);
    match e
    case AtA(m) =>
      MoveEffect(d, m);
      MoveKeepsOther(d, m);
      EffectKeeps(d, MoveA(d, m));
    case AtB(m) =>
      MoveEffect(Flip(d), m);
      MoveKeepsOther(Flip(d), m);
      EffectKeeps(Flip(d), MoveA(Flip(d), m));
      assert Flip(Flip(MoveA(Flip(d), m))) == MoveA(Flip(d), m);
  }

  lemma {:induction false} RunRetryable(d: Duplex, events: seq<Event>)
    requires Joined(d) && Retryable(d) && Retryable(Flip(d)) && forall e :: e in events ==> Tame(e)
    ensures Joined(Run(d, events)) && Retryable(Run(d, events)) && Retryable(Flip(Run(d, events)))
    decreases |events|
  {
    hide Joined, Happen, Retryable, Tame;
    if events != [] {
      HappenJoined(d, events[0]);
      HappenRetryable(d, events[0]);
      RunRetryable(Happen(d, events[0]), events[1..]);
    }
  }

  /** In every run in which no application resets a stream with REFUSED itself: when a stream ends REFUSED at
      its opener, by a reset or by a goaway, the remote has not started a handler for it, and as this holds
      of every continuation too, it never will. */
  lemma RefusedWasNotProcessed(ca: Config, cb: Config, events: seq<Event>, x: nat)
    requires ca.codec == cb.codec && ca.cap == cb.cap && Lawful(ca.codec)
    requires forall e :: e in events ==> Tame(e)
    ensures var d := Run(Start(ca, cb), events);
            && (RefusedAt(d.a.peer, x) && d.a.peer.objects[x].local && x in d.b.peer.objects
                ==> !d.b.peer.objects[x].started)
            && (RefusedAt(d.b.peer, x) && d.b.peer.objects[x].local && x in d.a.peer.objects
                ==> !d.a.peer.objects[x].started)
  {
    hide Joined, Run, Retryable, Lawful, Tame;
    var d := Run(Start(ca, cb), events);
    StartJoined(ca, cb);
    StartRetryable(ca, cb);
    RunRetryable(Start(ca, cb), events);
    FlipJoined(d);
    RefusedIsUnstarted(d, x);
    RefusedIsUnstarted(Flip(d), x);
  }

  lemma StartRetryable(ca: Config, cb: Config)
    ensures Retryable(Start(ca, cb)) && Retryable(Flip(Start(ca, cb)))
  {
  }

  lemma RefusedIsUnstarted(d: Duplex, x: nat)
    requires Joined(d) && Joined(Flip(d)) && Retryable(d)
    ensures RefusedAt(d.a.peer, x) && d.a.peer.objects[x].local && x in d.b.peer.objects
      ==> !d.b.peer.objects[x].started
  {
    hide Joined, WayA, Bounded, Afloat, Listed;
    JoinedSteady(d);
    JoinedSteady(Flip(d));
    assert x in d.a.peer.objects ==> Kept(d.a.peer, x, d.a.peer.objects[x], d.ca);
    assert x in d.b.peer.objects ==> Kept(d.b.peer, x, d.b.peer.objects[x], d.cb);
  }
}
