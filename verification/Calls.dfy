/** What an application's calls, the write loop and the socket's death do, in any state that a run against any remote
    can reach: exactly which of them take effect, and all that those do. */
module Calls {
  import opened Frames
  import opened Codecs
  import opened WriterModel
  import opened PeerModel
  import opened PeerInvariant
  import opened Ends
  import opened Strands
  import opened Locality
  import opened Lives
  import opened PeerTable
  import opened Inbound
  import C = ConnectionLane
  import F = Farewells
  import S = StreamModel

  // ------------------------------------------------------------ sending

  function DataFrameOf(id: nat, data: Option<Value>, headers: Option<Fields>, end: bool,
                       trailers: Option<Fields>): Frame {
    Bare(DataFrame, Some(id)).(payload := data, headers := headers, end := end, trailers := trailers)
  }

  /** What ending one's own side makes of the state. */
  function AfterOwnEnd(state: S.State): S.State {
    if state == S.HalfClosedRemote then S.Closed else S.HalfClosedLocal
  }

  /** A send takes effect exactly on a stream that is live and whose own side has not ended, with headers only on its
      first frame; then its frame is the last of the stream's lane, and the end ends the own side. */
  lemma SendTakesEffectIff(p: Peer, id: nat, data: Option<Value>, headers: Option<Fields>, end: bool,
                           trailers: Option<Fields>, cfg: Config)
    requires Sound(p, cfg)
    ensures var p' := SendData(p, id, data, headers, end, trailers);
            && (p' != p <==>
                && id in p.live && id in p.objects
                && (p.objects[id].state == S.Open || p.objects[id].state == S.HalfClosedRemote)
                && (headers.Some? ==> !p.objects[id].sentAFrame))
            && (p' != p ==>
                && id in p'.objects && p'.objects[id].sentAFrame
                && p'.objects[id].state == (if end then AfterOwnEnd(p.objects[id].state) else p.objects[id].state)
                && LaneAt(p'.writer, id) == Tail(LaneAt(p.writer, id), DataFrameOf(id, data, headers, end, trailers))
                && SameRest(p, p') && forall x: nat :: x != id ==> At(p', x) == At(p, x))
  {
    hide Sound, LaneAt, Queue;
    if id in p.objects {
      KnownStream(p, id, cfg);
      if S.MaySend(p.objects[id], headers) { SendIs(p, id, data, headers, end, trailers); }
    }
  }

  lemma KnownStream(p: Peer, id: nat, cfg: Config)
    requires Sound(p, cfg) && id in p.objects
    ensures id in p.live <==> p.objects[id].state != S.Closed
    ensures p.objects[id].state == S.Closed <==> !p.objects[id].cause.NotEnded?
    ensures p.objects[id].state != S.Idle && (id in p.live ==> p.isOpen)
    ensures p.objects[id].local <==> IsOurs(p, id)
  {
    hide S.Consistent, Listed;
    assert Kept(p, id, p.objects[id], cfg);
  }

  lemma SendIs(p: Peer, id: nat, data: Option<Value>, headers: Option<Fields>, end: bool, trailers: Option<Fields>)
    requires id in p.objects && S.MaySend(p.objects[id], headers)
    ensures var p' := SendData(p, id, data, headers, end, trailers);
            var noted := S.NoteSent(p.objects[id], headers);
            && id in p'.objects && p'.objects[id] == (if end then S.LocalEnd(noted) else noted)
            && LaneAt(p'.writer, id) == Tail(LaneAt(p.writer, id), DataFrameOf(id, data, headers, end, trailers))
            && p'.writer != p.writer
            && SameRest(p, p') && forall x: nat :: x != id ==> At(p', x) == At(p, x)
  {
    hide LaneAt, S.NoteSent, S.LocalEnd, Enqueue;
    var f := DataFrameOf(id, data, headers, end, trailers);
    var noted := S.NoteSent(p.objects[id], headers);
    QueueAt(p, f);
    EnqueueAt(p.writer, f, id);
    PutAt(Queue(p, f), id, if end then S.LocalEnd(noted) else noted);
    assert |LaneAt(Enqueue(p.writer, f), id).waiting| == |LaneAt(p.writer, id).waiting| + 1;
  }

  // ------------------------------------------------------------ resetting

  /** An application's reset takes effect exactly on a live stream and with a code that may be sent; then the stream is
      closed at once with that code, and of its frames only an `open` that had not begun to go out still does, and then
      the reset. */
  lemma ResetTakesEffectIff(p: Peer, id: nat, code: int, cfg: Config)
    requires Sound(p, cfg)
    ensures var p' := AppReset(p, id, code);
            && (p' != p <==> id in p.live && (0 <= code <= 4 || 6 <= code <= 8))
            && (p' != p ==>
                ClosedWith(p, p', id, code) && SameRest(p, p') && forall x: nat :: x != id ==> At(p', x) == At(p, x))
  {
    hide Sound, LaneAt, EnqueueReset, DiscardExceptUnsentOpen;
    if id in p.objects {
      KnownStream(p, id, cfg);
      if p.objects[id].state != S.Closed {
        ResetCloses(p, id, code);
        ResetOnly(p, id, code);
        assert p.isOpen && AppReset(p, id, code) == if Sendable(code) then ResetStream(p, id, code) else p;
      }
    } else {
      assert id !in p.live by { LiveIsKnown(p, id, cfg); }
    }
  }

  lemma LiveIsKnown(p: Peer, id: nat, cfg: Config)
    requires Sound(p, cfg) && id !in p.objects
    ensures id !in p.live
  {
  }

  /** A handler that raises resets its stream, if it is still live, behind all that it had sent. */
  lemma RaisingTakesEffectIff(p: Peer, id: nat, error: Option<Value>, cfg: Config)
    requires Sound(p, cfg)
    ensures var p' := HandlerError(p, id, error);
            && (p' != p <==> id in p.live)
            && (p' != p ==>
                && id in p'.objects && id !in p'.live && p'.objects[id].cause == S.ByReset(APPLICATION_ERROR)
                && LaneAt(p'.writer, id) == Tail(LaneAt(p.writer, id), ResetWith(id, APPLICATION_ERROR, error))
                && SameRest(p, p') && forall x: nat :: x != id ==> At(p', x) == At(p, x))
  {
    hide Sound, LaneAt, Enqueue;
    if id in p.objects {
      KnownStream(p, id, cfg);
      var f := ResetWith(id, APPLICATION_ERROR, error);
      var q := Queue(p, f);
      QueueAt(p, f);
      EnqueueAt(p.writer, f, id);
      FailStreamAt(q, id, APPLICATION_ERROR);
    } else {
      assert id !in p.live by { LiveIsKnown(p, id, cfg); }
    }
  }

  // ------------------------------------------------------------ opening

  /** An action after which this peer opens no stream: it says farewell, or reads one. */
  predicate Departs(p: Peer, a: Action, p': Peer, cfg: Config) {
    || (a.Goodbye? && p.isOpen)
    || (a.Read? && p.isOpen && !p.failed && (p'.failed || (a.size <= cfg.cap && a.frame.kind == GoawayFrame)))
  }

  predicate Departed(p: Peer, actions: seq<Action>, cfg: Config)
    decreases |actions|
  {
    actions != [] &&
    (Departs(p, actions[0], Act(p, actions[0], cfg), cfg) || Departed(Act(p, actions[0], cfg), actions[1..], cfg))
  }

  /** How many streams an application opened. */
  function OpensMade(p: Peer, actions: seq<Action>, cfg: Config): nat
    decreases |actions|
  {
    if actions == [] then 0
    else
      (if actions[0].Open? && Act(p, actions[0], cfg) != p then 1 else 0)
      + OpensMade(Act(p, actions[0], cfg), actions[1..], cfg)
  }

  lemma OpenChanges(p: Peer, payload: Value, headers: Option<Fields>, end: bool)
    ensures OpenStream(p, payload, headers, end) != p <==> MayOpen(p)
  {
    hide Enqueue;
  }

  lemma {:induction false} RunDeparts(p: Peer, actions: seq<Action>, cfg: Config)
    requires Able(p, cfg)
    ensures var q := ActAll(p, actions, cfg);
            && (q.goaway.sent || q.goaway.received <==> p.goaway.sent || p.goaway.received || Departed(p, actions, cfg))
            && q.nextId == p.nextId + 2 * OpensMade(p, actions, cfg)
    decreases |actions|
  {
    hide Able, Act;
    if actions != [] {
      var next := Act(p, actions[0], cfg);
      StepDeparts(p, actions[0], cfg);
      RunDeparts(next, actions[1..], cfg);
    }
  }

  /** The connection fails in one way only. */
  lemma FailsOneWay(p: Peer, f: Frame, size: nat, cfg: Config)
    requires Sound(p, cfg) && p.isOpen && !p.failed
    ensures Receive(p, f, size, cfg).failed ==> Receive(p, f, size, cfg) == FailConnection(p)
  {
    hide Sound, OnStreamFrame, FailConnection, ResetStream, QueueReset, OnOpen, OnGoaway, Queue;
    if f.kind == OpenFrame { C.OpenCases(p, f, size, cfg); }
    C.StreamFrameCases(p, f, cfg);
    if f.stream.Some? && f.stream.value in p.objects { ResetOnly(p, f.stream.value, PAYLOAD_TOO_LARGE); }
    if f.stream.Some? { QueueResetOnly(p, f.stream.value, PAYLOAD_TOO_LARGE); }
    C.QueuedHeeds(p, Bare(PongFrame, None).(nonce := f.nonce));
    HeardGoaway(p, f);
  }

  lemma HeardGoaway(p: Peer, f: Frame)
    ensures var p' := OnGoaway(p, f);
            p'.failed == p.failed && p'.goaway.sent == p.goaway.sent && p'.goaway.received
  {
    hide FailAll, Unprocessed;
  }

  lemma FailureDeparts(p: Peer)
    ensures FailConnection(p).goaway.sent && FailConnection(p).goaway.received == p.goaway.received
    ensures FailConnection(p).failed
  {
    hide Enqueue;
  }

  lemma ReadDeparts(p: Peer, f: Frame, size: nat, cfg: Config)
    requires Sound(p, cfg) && p.isOpen && !p.failed
    ensures var p' := Receive(p, f, size, cfg);
            && (p'.goaway.sent <==> p.goaway.sent || p'.failed)
            && (p'.goaway.received <==> p.goaway.received || (size <= cfg.cap && f.kind == GoawayFrame))
  {
    hide Sound, OnStreamFrame, FailConnection, ResetStream, QueueReset, OnOpen, OnGoaway, Queue, Receive, At;
    FailsOneWay(p, f, size, cfg);
    FailureDeparts(p);
    if f.kind == OpenFrame || f.kind == DataFrame || f.kind == ResetFrame {
      if f.stream.None? { NoStreamFails(p, f, size, cfg); }
      if !Receive(p, f, size, cfg).failed { OneStreamAtATime(p, f, size, f.stream.value + 1, cfg); }
    } else {
      OtherDeparts(p, f, size, cfg);
    }
  }

  lemma NoStreamFails(p: Peer, f: Frame, size: nat, cfg: Config)
    requires p.isOpen && !p.failed && f.stream.None?
      && (f.kind == OpenFrame || f.kind == DataFrame || f.kind == ResetFrame)
    ensures Receive(p, f, size, cfg).failed
  {
    hide FailConnection;
    FailureDeparts(p);
  }

  lemma OtherDeparts(p: Peer, f: Frame, size: nat, cfg: Config)
    requires p.isOpen && !p.failed && f.kind != OpenFrame && f.kind != DataFrame && f.kind != ResetFrame
    ensures var p' := Receive(p, f, size, cfg);
            && (p'.goaway.sent <==> p.goaway.sent || p'.failed)
            && (p'.goaway.received <==> p.goaway.received || (size <= cfg.cap && f.kind == GoawayFrame))
  {
    hide OnStreamFrame, FailConnection, ResetStream, QueueReset, OnOpen, OnGoaway, Queue;
    FailureDeparts(p);
    HeardGoaway(p, f);
    C.QueuedHeeds(p, Bare(PongFrame, None).(nonce := f.nonce));
    if f.stream.Some? {
      if f.stream.value in p.objects { ResetOnly(p, f.stream.value, PAYLOAD_TOO_LARGE); }
      QueueResetOnly(p, f.stream.value, PAYLOAD_TOO_LARGE);
    }
  }

  /** The application's other calls say no farewell. */
  lemma OwnDeparts(p: Peer, a: Action, cfg: Config)
    requires Able(p, cfg) && !a.Read? && !a.Take? && !a.Taken? && !a.SocketDies? && !a.Open?
    ensures var p' := Act(p, a, cfg);
            && (p'.goaway.sent <==> p.goaway.sent || (a.Goodbye? && p.isOpen))
            && p'.goaway.received == p.goaway.received
  {
    hide Sound, Bounded, SendData, AppReset, HandlerError, Enqueue;
    C.ObjectsAreNotZero(p, cfg);
    match a
    case Send(id, data, leading, last, trailers) =>
      if id in p.objects { C.SendGains(p, id, data, leading, last, trailers); } else { UnknownStays(p, a, cfg); }
    case Reset(id, code) => if id in p.objects { C.AppResetGains(p, id, code); } else { UnknownStays(p, a, cfg); }
    case HandlerRaises(id, error) =>
      if id in p.objects { C.HandlerGains(p, id, error); } else { UnknownStays(p, a, cfg); }
    case _ =>
  }

  lemma UnknownStays(p: Peer, a: Action, cfg: Config)
    requires match a
             case Send(id, _, _, _, _) => id !in p.objects
             case Reset(id, _) => id !in p.objects
             case HandlerRaises(id, _) => id !in p.objects
             case _ => false
    ensures Act(p, a, cfg) == p
  {
  }

  /** The writer and the socket say no farewell. */
  lemma TurnDeparts(p: Peer, a: Action, cfg: Config)
    requires a.Take? || a.Taken? || a.SocketDies?
    ensures Act(p, a, cfg).goaway == p.goaway
  {
    hide NextFrame, Advance, FailStream, FailAll, QueueReset, DiscardAll;
    var w := if a.Take? then NextFrame(p.writer, cfg.cap, cfg.codec)
             else if a.Taken? then Advance(p.writer, a.lane, cfg.cap, cfg.codec) else (p.writer, Nothing);
    if w.1.Failed? { FailLaneKeepsGoaway(p.(writer := w.0), w.1.id, w.1.unsentOpen); }
  }

  lemma FailLaneKeepsGoaway(p: Peer, id: nat, unsent: bool)
    ensures FailLane(p, id, unsent).goaway == p.goaway
  {
    hide Enqueue, S.Fail, FailAll, DiscardAll;
  }

  lemma OpenDeparts(p: Peer, payload: Value, headers: Option<Fields>, end: bool)
    ensures var p' := OpenStream(p, payload, headers, end);
            p'.goaway == p.goaway && p'.nextId == p.nextId + (if MayOpen(p) then 2 else 0)
  {
    hide Enqueue;
  }

  lemma StepDeparts(p: Peer, a: Action, cfg: Config)
    requires Able(p, cfg)
    ensures var p' := Act(p, a, cfg);
            && Able(p', cfg)
            && (p'.goaway.sent || p'.goaway.received <==> p.goaway.sent || p.goaway.received || Departs(p, a, p', cfg))
            && p'.nextId == p.nextId + (if a.Open? && p' != p then 2 else 0)
  {
    hide Sound, Bounded, Act, OpenStream, Receive, MayOpen;
    var opens := ActMarks(p, a, cfg);
    ActIs(p, a, cfg);
    if a.Open? {
      OpenChanges(p, a.payload, a.headers, a.end);
      OpenDeparts(p, a.payload, a.headers, a.end);
    } else if a.Read? {
      if p.isOpen && !p.failed {
        ReadDeparts(p, a.frame, a.size, cfg);
        ReadMoves(p, a.frame, a.size, cfg);
      } else {
        ClosedReadsNothing(p, a.frame, a.size, cfg);
      }
    } else {
      OwnStill(p, a, cfg);
      if a.Take? || a.Taken? || a.SocketDies? { TurnDeparts(p, a, cfg); } else { OwnDeparts(p, a, cfg); }
    }
  }

  /** In every run, `open` takes effect exactly while the connection is open, neither end has said farewell and ids are
      left; the streams it opens have the ids of this peer's parity one after the other, from the first. */
  lemma OpenTakesEffectIff(dialer: bool, actions: seq<Action>, payload: Value, headers: Option<Fields>, end: bool,
                           cfg: Config)
    ensures var p := ActAll(NewPeer(dialer), actions, cfg);
            var p' := OpenStream(p, payload, headers, end);
            var id := (if dialer then 1 else 2) + 2 * OpensMade(NewPeer(dialer), actions, cfg);
            && (p' != p <==> p.isOpen && !Departed(NewPeer(dialer), actions, cfg) && id <= 0x7FFF_FFFF)
            && (p' != p ==>
                && id !in p.objects && p'.live == p.live + {id}
                && p'.objects == p.objects[id := S.NewStream(id, true, if end then S.HalfClosedLocal else S.Open,
                                                             headers, Some(payload))]
                && LaneAt(p'.writer, id) == Tail(LaneAt(p.writer, id),
                     Bare(OpenFrame, Some(id)).(payload := Some(payload), headers := headers, end := end)))
  {
    hide ActAll, Able, Departed, OpensMade, Enqueue, LaneAt;
    var start := NewPeer(dialer);
    NewAble(dialer, cfg);
    RunAble(start, actions, cfg);
    RunDeparts(start, actions, cfg);
    var p := ActAll(start, actions, cfg);
    OpenChanges(p, payload, headers, end);
    if MayOpen(p) {
      NextIsNew(p, cfg);
      EnqueueAt(p.writer, Bare(OpenFrame, Some(p.nextId)).(payload := Some(payload), headers := headers, end := end),
                p.nextId);
    }
  }

  lemma NextIsNew(p: Peer, cfg: Config)
    requires Able(p, cfg)
    ensures p.nextId !in p.objects
  {
    hide S.Consistent, Listed, Bounded;
    if p.nextId in p.objects {
      KnownIsBelow(p, p.nextId, cfg);
    }
  }

  lemma KnownIsBelow(p: Peer, id: nat, cfg: Config)
    requires Sound(p, cfg) && id in p.objects && IsOurs(p, id)
    ensures id < p.nextId
  {
    hide S.Consistent, Listed;
    assert Kept(p, id, p.objects[id], cfg);
  }

  // ------------------------------------------------------------ after the connection died

  /** Nothing is queued on a dead connection. */
  predicate Silent(p: Peer) {
    !p.isOpen && p.live == {} && p.writer.queues == map[] && p.writer.order == []
  }

  /** A dead connection closes every live stream with CONNECTION_CLOSED, and drops all that was queued. */
  lemma DeathClosesAll(p: Peer, cfg: Config)
    requires Sound(p, cfg) && p.isOpen
    ensures var p' := Act(p, SocketDies, cfg);
            && Silent(p') && p'.objects.Keys == p.objects.Keys
            && forall x :: x in p.objects ==>
                 if x in p.live
                 then && p'.objects[x].state == S.Closed && p'.objects[x].cause == S.ByReset(CONNECTION_CLOSED)
                      && p'.objects[x].queue == p.objects[x].queue + [S.Failure(CONNECTION_CLOSED)]
                 else p'.objects[x] == p.objects[x]
  {
    hide Sound;
    forall x | x in p.live ensures x in p.objects && p.objects[x].state != S.Closed { LiveStream(p, x, cfg); }
  }

  lemma StepSilent(e: End, a: Action, cfg: Config)
    requires Sound(e.peer, cfg) && Silent(e.peer)
    ensures var e' := Step(e, a, cfg);
            Silent(e'.peer) && e'.log == e.log && e'.peer.objects == e.peer.objects
  {
    hide Sound, Listed, OpenStream, FailAll;
    var p := e.peer;
    match a
    case Send(id, data, leading, last, trailers) => if id in p.objects { KnownStream(p, id, cfg); }
    case Reset(id, code) => if id in p.objects { KnownStream(p, id, cfg); }
    case HandlerRaises(id, error) => if id in p.objects { KnownStream(p, id, cfg); }
    case Take => assert Rotate(p.writer, 0, cfg.cap, cfg.codec) == (p.writer, Nothing);
    case _ =>
  }

  lemma {:induction false} NothingAfterDeath(e: End, actions: seq<Action>, cfg: Config)
    requires Sound(e.peer, cfg) && Bounded(e.peer, cfg) && Silent(e.peer)
    ensures var end := StepAll(e, actions, cfg);
            Silent(end.peer) && end.log == e.log && end.peer.objects == e.peer.objects
    decreases |actions|
  {
    hide Sound, Bounded, Silent, Step;
    if actions != [] {
      StepSilent(e, actions[0], cfg);
      StepSound(e, actions[0], cfg);
      NothingAfterDeath(Step(e, actions[0], cfg), actions[1..], cfg);
    }
  }

  // ------------------------------------------------------------ the write loop

  /** The lane `id` could not be encoded, and `w` is the writer without it.  Its stream is closed with INTERNAL_ERROR,
      which the remote is told unless it never heard of the stream; a lane without a live stream ends the connection. */
  ghost predicate LaneLost(p: Peer, w: Writer, id: nat, unsentOpen: bool, p': Peer) {
    if id in p.live then
      && id in p.objects && id in p'.objects && id !in p'.live
      && p'.objects[id].state == S.Closed && p'.objects[id].cause == S.ByReset(INTERNAL_ERROR)
      && p'.objects[id].queue == p.objects[id].queue + [S.Failure(INTERNAL_ERROR)]
      && LaneAt(p'.writer, id)
         == (if unsentOpen then EMPTY_LANE else Tail(EMPTY_LANE, ResetWith(id, INTERNAL_ERROR, None)))
      && SameRest(p, p') && forall x: nat :: x != id ==> At(p', x) == At(p.(writer := w), x)
    else
      Silent(p')
  }

  lemma FailureIsLost(p: Peer, w: Writer, id: nat, unsentOpen: bool, cfg: Config)
    requires Sound(p, cfg) && p.isOpen && LaneAt(w, id) == EMPTY_LANE
    ensures LaneLost(p, w, id, unsentOpen, FailLane(p.(writer := w), id, unsentOpen))
  {
    hide Sound, LaneAt, FailAll, FailStream, QueueReset;
    var now := p.(writer := w);
    if id in p.live {
      LiveStream(p, id, cfg);
      ResetQueuedAt(now, id, INTERNAL_ERROR);
      LostStream(if unsentOpen then now else QueueReset(now, id, INTERNAL_ERROR), id);
    }
  }

  lemma ResetQueuedAt(p: Peer, id: nat, code: int)
    ensures Became(p, QueueReset(p, id, code), id, At(p, id).(lane := Tail(At(p, id).lane, ResetWith(id, code, None))))
    ensures QueueReset(p, id, code).objects == p.objects && QueueReset(p, id, code).live == p.live
  {
    hide Became, At, Enqueue;
    QueueAt(p, ResetWith(id, code, None));
  }

  lemma LostStream(p: Peer, id: nat)
    requires id in p.objects && p.objects[id].state != S.Closed
    ensures var p' := FailStream(p, id, INTERNAL_ERROR);
            && id in p'.objects && id !in p'.live && p'.writer == p.writer && SameRest(p, p')
            && p'.objects[id].state == S.Closed && p'.objects[id].cause == S.ByReset(INTERNAL_ERROR)
            && p'.objects[id].queue == p.objects[id].queue + [S.Failure(INTERNAL_ERROR)]
            && forall x: nat :: x != id ==> At(p', x) == At(p, x)
  {
    hide At;
    FailStreamAt(p, id, INTERNAL_ERROR);
  }

  /** A turn of the write loop puts the writer's frame on the wire and changes nothing of the streams, or closes the
      stream of the lane that could not be encoded, and no other. */
  lemma TurnTakesEffect(p: Peer, cfg: Config)
    requires Sound(p, cfg) && p.isOpen
    ensures var (w, turn) := NextFrame(p.writer, cfg.cap, cfg.codec);
            var (p', sent) := Transmit(p, cfg);
            && sent == (if turn.Sent? then Some(turn.frame) else None)
            && if turn.Failed? then LaneLost(p, w, turn.id, turn.unsentOpen, p') else p' == p.(writer := w)
  {
    hide Sound, NextFrame, FailLane, LaneLost;
    NextFrameTurned(p.writer, cfg.cap, cfg.codec);
    var (w, turn) := NextFrame(p.writer, cfg.cap, cfg.codec);
    if turn.Failed? { FailureIsLost(p, w, turn.id, turn.unsentOpen, cfg); }
  }

  /** So does slicing ahead once a frame has reached the socket, which sends nothing. */
  lemma SlicingTakesEffect(p: Peer, id: nat, cfg: Config)
    requires Sound(p, cfg) && p.isOpen
    ensures var (w, turn) := Advance(p.writer, id, cfg.cap, cfg.codec);
            if turn.Failed? then LaneLost(p, w, id, turn.unsentOpen, Transmitted(p, id, cfg))
            else Transmitted(p, id, cfg) == p.(writer := w)
  {
    hide Sound, Advance, FailLane, LaneLost;
    AdvanceTurned(p.writer, id, cfg.cap, cfg.codec);
    var (w, turn) := Advance(p.writer, id, cfg.cap, cfg.codec);
    if turn.Failed? { FailureIsLost(p, w, turn.id, turn.unsentOpen, cfg); }
  }
}
