/** One end of a connection with what it has put on the wire: its peer, the wire's frames so far, and the
    payloads its application gave each stream. */
module Ends {
  import opened Frames
  import opened WriterModel
  import opened PeerModel
  import opened PeerInvariant
  import opened Outbound
  import S = StreamModel
  import A = Assembly

  /** What an application has said on a stream: its payloads and trailers up to where it ended, and what it said
      after that.  `early`: it ended in its own `open`, or before the other's opening payload was complete. */
  datatype Words = Words(values: seq<Value>, trailers: Option<Fields>, ended: bool, early: bool,
                         after: seq<Value>, lateTrailers: Option<Fields>)

  const SILENCE := Words([], None, false, false, [], None)

  /** The words of an `open`. */
  function Opened(payload: Value, end: bool): Words {
    Words([payload], None, end, end, [], None)
  }

  /** `inFlight` is the lane of the frame the write loop is sending; its next fragment is not yet sliced. */
  datatype End = End(peer: Peer, log: seq<Frame>, inFlight: Option<nat>, said: map<nat, Words>)

  function NewEnd(dialer: bool): End {
    End(NewPeer(dialer), [], None, map[])
  }

  function SaidOn(e: End, x: nat): Words {
    if x in e.said then e.said[x] else SILENCE
  }

  function Uttered(said: Words, data: Option<Value>, last: bool, trailers: Option<Fields>, opening: bool): Words {
    var values := if data.Some? then [data.value] else [];
    if said.ended then
      said.(after := said.after + values, lateTrailers := if last && trailers.Some? then trailers
            else said.lateTrailers)
    else
      said.(values := said.values + values, trailers := if last && trailers.Some? then trailers else said.trailers,
            ended := last, early := last && opening)
  }

  /** One step of an end.  The application acts on any stream there is, one that is still opening too. */
  function Step(e: End, a: Action, cfg: Config): End {
    match a
    case Open(payload, headers, end) =>
      if !MayOpen(e.peer) then e
      else e.(peer := OpenStream(e.peer, payload, headers, end), said := e.said[e.peer.nextId := Opened(payload, end)])
    case Send(id, data, leading, last, trailers) =>
      if id !in e.peer.objects || !S.MaySend(e.peer.objects[id], leading) then e
      else
        e.(peer := SendData(e.peer, id, data, leading, last, trailers),
           said := e.said[id := Uttered(SaidOn(e, id), data, last, trailers, e.peer.objects[id].opening)])
    case Take =>
      if e.inFlight.Some? then e
      else
        var (p, sent) := Transmit(e.peer, cfg);
        if sent.None? then e.(peer := p)
        else e.(peer := p, log := e.log + [sent.value], inFlight := Some(LaneOf(sent.value)))
    case Taken(_) =>
      if e.inFlight.None? then e
      else e.(peer := Transmitted(e.peer, e.inFlight.value, cfg), inFlight := None)
    case _ => e.(peer := Act(e.peer, a, cfg))
  }

  function StepAll(e: End, actions: seq<Action>, cfg: Config): End
    decreases |actions|
  {
    if actions == [] then e else StepAll(Step(e, actions[0], cfg), actions[1..], cfg)
  }

  /** The frames on lane `x`. */
  function On(frames: seq<Frame>, x: nat): seq<Frame> {
    if frames == [] then [] else (if LaneOf(frames[0]) == x then [frames[0]] else []) + On(frames[1..], x)
  }

  lemma {:induction false} OnAppend(a: seq<Frame>, b: seq<Frame>, x: nat)
    ensures On(a + b, x) == On(a, x) + On(b, x)
    decreases |a|
  {
    if a == [] {
      assert a + b == b;
    } else {
      OnAppend(a[1..], b, x);
      assert (a + b)[1..] == a[1..] + b;
    }
  }

  lemma OnOne(f: Frame, x: nat)
    ensures On([f], x) == if LaneOf(f) == x then [f] else []
  {
    assert [f][1..] == [];
  }

  // ------------------------------------------------------------ what an end keeps

  function SideOf(p: Peer, cfg: Config): Side {
    Side(p.dialer, cfg.cap, cfg.codec)
  }

  /** Every live stream of one's own has been opened on the wire, or its `open` is waiting to be. */
  ghost predicate Backed(p: Peer, log: seq<Frame>, cfg: Config) {
    forall x: nat :: x in p.live ==> 0 < x && May(p, log, cfg, x)
  }

  ghost predicate May(p: Peer, log: seq<Frame>, cfg: Config, x: nat) {
    MayQueue(p.writer, log, SideOf(p, cfg), x)
  }

  ghost predicate Afloat(p: Peer, log: seq<Frame>, cfg: Config) {
    && Tidy(p.writer, log, SideOf(p, cfg), p.highLocal)
    && Backed(p, log, cfg)
    && p.highLocal < p.nextId && 0 < p.nextId && p.nextId % 2 == OwnParity(p.dialer)
  }

  /** A step that allocates no id keeps the end afloat, and forgets no stream that was opened. */
  ghost predicate Keeps(p: Peer, p': Peer, log: seq<Frame>, cfg: Config) {
    && Afloat(p', log, cfg)
    && p'.dialer == p.dialer && p'.highLocal == p.highLocal
    && forall x: nat :: May(p, log, cfg, x) ==> May(p', log, cfg, x)
  }

  lemma KeepsTrans(p: Peer, q: Peer, r: Peer, log: seq<Frame>, cfg: Config)
    requires Keeps(p, q, log, cfg) && Keeps(q, r, log, cfg)
    ensures Keeps(p, r, log, cfg)
  {
    hide Afloat, May;
  }

  /** The writer is as it was, and every stream that became live may be written to. */
  lemma CalmKeeps(p: Peer, p': Peer, log: seq<Frame>, cfg: Config)
    requires Afloat(p, log, cfg)
    requires p'.writer == p.writer && p'.dialer == p.dialer && p'.highLocal == p.highLocal && p'.nextId == p.nextId
    requires forall x :: x in p'.live ==> x in p.live || (0 < x && May(p, log, cfg, x))
    ensures Keeps(p, p', log, cfg)
  {
    hide Tidy, MayQueue;
  }

  lemma WriterKeeps(p: Peer, w: Writer, log: seq<Frame>, cfg: Config)
    requires Afloat(p, log, cfg)
    requires Tidy(w, log, SideOf(p, cfg), p.highLocal)
    requires forall x: nat :: Unsent(w, x) == Unsent(p.writer, x)
    ensures Keeps(p, p.(writer := w), log, cfg)
  {
    hide Tidy, Seen, Unsent;
  }

  lemma QueueKeeps(p: Peer, frame: Frame, log: seq<Frame>, cfg: Config)
    requires Afloat(p, log, cfg) && frame.fragment.None? && frame.kind != OpenFrame
    requires OnLane(LaneOf(frame), frame, SideOf(p, cfg))
    requires LaneOf(frame) == 0 || May(p, log, cfg, LaneOf(frame))
    ensures Keeps(p, Queue(p, frame), log, cfg)
  {
    hide Tidy, Enqueue, Seen, Unsent, OnLane;
    var side := SideOf(p, cfg);
    var x := LaneOf(frame);
    TopIsHighest(p.writer, log, side, p.highLocal, x);
    EnqueueTidy(p.writer, log, side, p.highLocal, frame);
    WriterKeeps(p, Enqueue(p.writer, frame), log, cfg);
  }

  lemma TopIsHighest(w: Writer, log: seq<Frame>, side: Side, top: nat, x: nat)
    requires Tidy(w, log, side, top)
    ensures Own(side, x) && (Seen(log, x) || Unsent(w, x)) ==> x <= top
  {
    hide Orderly, Seen, Sorted, Listed, LaneTidy;
  }

  lemma ResetOnLane(p: Peer, id: nat, code: int, payload: Option<Value>, cfg: Config)
    ensures var frame := ResetWith(id, code, payload);
            && OnLane(id, frame, SideOf(p, cfg)) && LaneOf(frame) == id
            && frame.fragment.None? && frame.kind != OpenFrame
  {
  }

  lemma QueueResetKeeps(p: Peer, id: nat, code: int, log: seq<Frame>, cfg: Config)
    requires Afloat(p, log, cfg) && May(p, log, cfg, id)
    ensures Keeps(p, QueueReset(p, id, code), log, cfg)
  {
    hide Afloat, MayQueue, Enqueue, OnLane;
    ResetOnLane(p, id, code, None, cfg);
    QueueKeeps(p, ResetWith(id, code, None), log, cfg);
  }

  lemma DiscardKeeps(p: Peer, id: nat, log: seq<Frame>, cfg: Config)
    requires Afloat(p, log, cfg)
    ensures Keeps(p, p.(writer := Discard(p.writer, id)), log, cfg)
  {
    hide Tidy, Discard;
    DiscardTidy(p.writer, log, SideOf(p, cfg), p.highLocal, id);
    WriterKeeps(p, Discard(p.writer, id), log, cfg);
  }

  lemma EnqueueResetKeepsAfloat(p: Peer, id: nat, code: int, log: seq<Frame>, cfg: Config)
    requires Afloat(p, log, cfg) && May(p, log, cfg, id)
    ensures Keeps(p, EnqueueReset(p, id, code), log, cfg)
  {
    hide Afloat, May, Discard, QueueReset;
    var q := p.(writer := Discard(p.writer, id));
    DiscardKeeps(p, id, log, cfg);
    QueueResetKeeps(q, id, code, log, cfg);
    KeepsTrans(p, q, QueueReset(q, id, code), log, cfg);
  }

  lemma PutKeeps(p: Peer, id: nat, s: S.Stream, log: seq<Frame>, cfg: Config)
    requires Afloat(p, log, cfg)
    ensures Keeps(p, Put(p, id, s), log, cfg)
  {
    hide Afloat, May;
    CalmKeeps(p, Put(p, id, s), log, cfg);
  }

  lemma FailStreamKeeps(p: Peer, id: nat, code: int, log: seq<Frame>, cfg: Config)
    requires Afloat(p, log, cfg) && id in p.objects
    ensures Keeps(p, FailStream(p, id, code), log, cfg)
  {
    hide Afloat, May;
    CalmKeeps(p, FailStream(p, id, code), log, cfg);
  }

  lemma ResetStreamKeeps(p: Peer, id: nat, code: int, log: seq<Frame>, cfg: Config)
    requires Afloat(p, log, cfg) && id in p.objects && May(p, log, cfg, id)
    ensures Keeps(p, ResetStream(p, id, code), log, cfg)
  {
    hide Afloat, May, EnqueueReset, FailStream;
    var q := EnqueueReset(p, id, code);
    EnqueueResetKeepsAfloat(p, id, code, log, cfg);
    EnqueueResetKeeps(p, id, code);
    FailStreamKeeps(q, id, code, log, cfg);
    KeepsTrans(p, q, FailStream(q, id, code), log, cfg);
  }

  lemma QueueGoawayKeeps(p: Peer, code: int, log: seq<Frame>, cfg: Config)
    requires Afloat(p, log, cfg)
    ensures Keeps(p, QueueGoaway(p, code), log, cfg)
    ensures Keeps(p, FailConnection(p), log, cfg)
  {
    hide Afloat, May, Enqueue, OnLane;
    QueueGoawayCodeKeeps(p, code, log, cfg);
    QueueGoawayCodeKeeps(p, PROTOCOL_ERROR, log, cfg);
    var q := QueueGoaway(p, PROTOCOL_ERROR);
    CalmKeeps(q, FailConnection(p), log, cfg);
    KeepsTrans(p, q, FailConnection(p), log, cfg);
  }

  lemma QueueGoawayCodeKeeps(p: Peer, code: int, log: seq<Frame>, cfg: Config)
    requires Afloat(p, log, cfg)
    ensures Keeps(p, QueueGoaway(p, code), log, cfg)
  {
    hide Afloat, May, Enqueue;
    var marked := p.(goaway := p.goaway.(sent := true,
                                sentLast := if p.goaway.sentLast.Some? then p.goaway.sentLast else Some(p.highRemote)));
    CalmKeeps(p, marked, log, cfg);
    QueueKeeps(marked, GoawayFrameOf(p, code), log, cfg);
    KeepsTrans(p, marked, Queue(marked, GoawayFrameOf(p, code)), log, cfg);
  }

  lemma DieKeeps(p: Peer, log: seq<Frame>, cfg: Config)
    requires Afloat(p, log, cfg)
    ensures Afloat(Die(p), log, cfg)
  {
    hide Tidy, DiscardAll;
    DiscardAllTidy(p.writer, log, SideOf(p, cfg), p.highLocal);
  }

  // ------------------------------------------------------------ the application

  lemma OpenKeeps(p: Peer, payload: Value, headers: Option<Fields>, end: bool, log: seq<Frame>, cfg: Config)
    requires Afloat(p, log, cfg)
    ensures Afloat(OpenStream(p, payload, headers, end), log, cfg)
  {
    hide Tidy, Enqueue, Seen, Unsent, OnLane;
    if MayOpen(p) {
      var id := p.nextId;
      var frame := Bare(OpenFrame, Some(id)).(payload := Some(payload), headers := headers, end := end);
      OpenOnLane(p, frame, id, cfg);
      EnqueueOpenTidy(p.writer, log, SideOf(p, cfg), p.highLocal, frame);
      var p' := OpenStream(p, payload, headers, end);
      forall x: nat | x in p'.live
        ensures May(p', log, cfg, x)
      {
        assert x != id ==> May(p, log, cfg, x);
      }
    }
  }

  lemma OpenOnLane(p: Peer, frame: Frame, id: nat, cfg: Config)
    requires 0 < id && id % 2 == OwnParity(p.dialer)
    requires frame.kind == OpenFrame && frame.stream == Some(id) && frame.payload.Some?
    ensures LaneOf(frame) == id && OnLane(id, frame, SideOf(p, cfg)) && Own(SideOf(p, cfg), id)
  {
  }

  lemma SendKeeps(p: Peer, id: nat, payload: Option<Value>, headers: Option<Fields>, end: bool,
                  trailers: Option<Fields>, log: seq<Frame>, cfg: Config)
    requires Afloat(p, log, cfg)
      && (id in p.objects && S.MaySend(p.objects[id], headers) ==> 0 < id && May(p, log, cfg, id))
    ensures Keeps(p, SendData(p, id, payload, headers, end, trailers), log, cfg)
  {
    hide Afloat, May, Enqueue, S.MaySend;
    if id in p.objects && S.MaySend(p.objects[id], headers) {
      var frame := Bare(DataFrame, Some(id)).(payload := payload, headers := headers, end := end, trailers := trailers);
      QueueKeeps(p, frame, log, cfg);
      var noted := S.NoteSent(p.objects[id], headers);
      var s := if end then S.LocalEnd(noted) else noted;
      PutKeeps(Queue(p, frame), id, s, log, cfg);
      KeepsTrans(p, Queue(p, frame), Put(Queue(p, frame), id, s), log, cfg);
    } else {
      CalmKeeps(p, p, log, cfg);
    }
  }

  lemma AppResetKeeps(p: Peer, id: nat, code: int, log: seq<Frame>, cfg: Config)
    requires Afloat(p, log, cfg) && (id in p.objects && p.objects[id].state != S.Closed ==> May(p, log, cfg, id))
    ensures Keeps(p, AppReset(p, id, code), log, cfg)
  {
    hide Afloat, May, EnqueueReset, FailStream;
    if id in p.objects && Sendable(code) && p.objects[id].state != S.Closed {
      var q := EnqueueReset(p, id, code);
      EnqueueResetKeepsAfloat(p, id, code, log, cfg);
      EnqueueResetKeeps(p, id, code);
      FailStreamKeeps(p, id, code, log, cfg);
      FailStreamKeeps(q, id, code, log, cfg);
      KeepsTrans(p, q, FailStream(q, id, code), log, cfg);
    } else {
      CalmKeeps(p, p, log, cfg);
    }
  }

  lemma HandlerErrorKeeps(p: Peer, id: nat, error: Option<Value>, log: seq<Frame>, cfg: Config)
    requires Afloat(p, log, cfg) && (id in p.objects && p.objects[id].state != S.Closed ==> May(p, log, cfg, id))
    ensures Keeps(p, HandlerError(p, id, error), log, cfg)
  {
    hide Afloat, May, Enqueue, FailStream, OnLane;
    if id in p.objects && p.objects[id].state != S.Closed {
      var frame := ResetWith(id, APPLICATION_ERROR, error);
      ResetOnLane(p, id, APPLICATION_ERROR, error, cfg);
      QueueKeeps(p, frame, log, cfg);
      FailStreamKeeps(Queue(p, frame), id, APPLICATION_ERROR, log, cfg);
      KeepsTrans(p, Queue(p, frame), FailStream(Queue(p, frame), id, APPLICATION_ERROR), log, cfg);
    } else {
      CalmKeeps(p, p, log, cfg);
    }
  }

  // ------------------------------------------------------------ the write loop

  function Logged(log: seq<Frame>, sent: Option<Frame>): seq<Frame> {
    if sent.Some? then log + [sent.value] else log
  }

  /** After a turn of the writer that left it tidy. */
  lemma AfterTurnKeeps(p: Peer, w: Writer, turn: Turn, log: seq<Frame>, cfg: Config)
    requires Afloat(p, log, cfg)
    requires Tidy(w, Logged(log, AfterTurn(p, w, turn).1), SideOf(p, cfg), p.highLocal)
    requires Outcome(p.writer, log, w, turn, SideOf(p, cfg))
    requires turn.Nothing? ==> forall y: nat :: Unsent(w, y) == Unsent(p.writer, y)
    requires !p.isOpen ==> p.live == {}
    ensures var (p', sent) := AfterTurn(p, w, turn);
            && Afloat(p', Logged(log, sent), cfg)
            && p'.dialer == p.dialer
            && (sent.Some?
                ==> turn.Sent? && sent.value == turn.frame && LaneOf(sent.value) == turn.id
                    && Seen(Logged(log, sent), LaneOf(sent.value)))
  {
    hide Tidy, Seen, Unsent, FailStream, QueueReset, Die;
    var now := p.(writer := w);
    var side := SideOf(p, cfg);
    match turn
    case Nothing =>
      WriterKeeps(p, w, log, cfg);
    case Sent(x, frame) =>
      var all := log + [frame];
      forall y: nat
        ensures Seen(all, y) <==> Seen(log, y) || LaneOf(frame) == y
      {
        SeenAppend(log, frame, y);
      }
      forall y: nat | y in now.live
        ensures May(now, all, cfg, y)
      {
        assert May(p, log, cfg, y);
      }
    case Failed(x, unsentOpen) =>
      var rest := now.(live := now.live - {x});
      forall y: nat | y in rest.live
        ensures May(rest, log, cfg, y)
      {
        assert May(p, log, cfg, y);
      }
      assert Afloat(rest, log, cfg);
      assert x in p.live ==> May(p, log, cfg, x);
      FailLaneKeeps(now, rest, x, unsentOpen, log, cfg);
  }

  lemma FailLaneKeeps(now: Peer, rest: Peer, x: nat, unsentOpen: bool, log: seq<Frame>, cfg: Config)
    requires rest == now.(live := now.live - {x}) && Afloat(rest, log, cfg)
    requires !unsentOpen && x in now.live ==> May(rest, log, cfg, x)
    requires !now.isOpen ==> now.live == {}
    ensures Afloat(FailLane(now, x, unsentOpen), log, cfg) && FailLane(now, x, unsentOpen).dialer == now.dialer
  {
    hide Afloat, May, Enqueue;
    if x !in now.live || x !in now.objects {
      DieLess(now, rest, log, cfg);
    } else if unsentOpen {
      CalmKeeps(rest, FailStream(now, x, INTERNAL_ERROR), log, cfg);
    } else {
      QueueResetKeeps(rest, x, INTERNAL_ERROR, log, cfg);
      CalmKeeps(QueueReset(rest, x, INTERNAL_ERROR), FailStream(QueueReset(now, x, INTERNAL_ERROR), x, INTERNAL_ERROR),
                log, cfg);
    }
  }

  /** A peer that dies needs no live stream to have been opened. */
  lemma DieLess(now: Peer, rest: Peer, log: seq<Frame>, cfg: Config)
    requires rest.writer == now.writer && rest.dialer == now.dialer && rest.highLocal == now.highLocal
      && rest.nextId == now.nextId
    requires Afloat(rest, log, cfg)
    requires now.isOpen || rest == now
    ensures Afloat(Die(now), log, cfg)
  {
    hide Tidy, DiscardAll;
    DiscardAllTidy(rest.writer, log, SideOf(rest, cfg), rest.highLocal);
  }

  lemma TransmitKeeps(p: Peer, log: seq<Frame>, cfg: Config)
    requires Afloat(p, log, cfg) && (!p.isOpen ==> p.live == {})
    ensures var (p', sent) := Transmit(p, cfg);
            && Afloat(p', Logged(log, sent), cfg) && p'.dialer == p.dialer
            && (sent.Some? ==> Seen(Logged(log, sent), LaneOf(sent.value)))
  {
    hide Tidy, NextFrame, AfterTurn, Outcome, Seen, Unsent;
    NextFrameTidy(p.writer, log, SideOf(p, cfg), p.highLocal);
    var (w, turn) := NextFrame(p.writer, cfg.cap, cfg.codec);
    TurnLog(p, w, turn, log);
    AfterTurnKeeps(p, w, turn, log, cfg);
  }

  lemma TurnLog(p: Peer, w: Writer, turn: Turn, log: seq<Frame>)
    ensures Logged(log, AfterTurn(p, w, turn).1) == if turn.Sent? then log + [turn.frame] else log
  {
    hide FailLane;
  }

  lemma TransmittedKeeps(p: Peer, x: nat, log: seq<Frame>, cfg: Config)
    requires Afloat(p, log, cfg) && Seen(log, x) && (!p.isOpen ==> p.live == {})
    ensures Afloat(Transmitted(p, x, cfg), log, cfg) && Transmitted(p, x, cfg).dialer == p.dialer
  {
    hide Tidy, Advance, AfterTurn, Outcome, Seen, Unsent;
    AdvanceTidy(p.writer, log, SideOf(p, cfg), p.highLocal, x);
    var (w, turn) := Advance(p.writer, x, cfg.cap, cfg.codec);
    TurnLog(p, w, turn, log);
    AfterTurnKeeps(p, w, turn, log, cfg);
  }

  // ------------------------------------------------------------ inbound

  lemma AbsorbKeeps(p: Peer, id: nat, frame: Frame, log: seq<Frame>, cfg: Config)
    requires Afloat(p, log, cfg) && id in p.objects && frame.fragment.Some? && May(p, log, cfg, id)
    ensures Keeps(p, Absorb(p, id, frame, cfg).0, log, cfg)
  {
    hide Afloat, May, ResetStream, Put, A.Feed, WithinPayloadCap;
    var s := p.objects[id];
    var dropped, fed := s.(partial := A.NOTHING), s.(partial := A.Feed(s.partial, frame, cfg.codec).0);
    PutHas(p, id, dropped);
    PutHas(p, id, fed);
    PutKeeps(p, id, dropped, log, cfg);
    PutKeeps(p, id, fed, log, cfg);
    ResetStreamKeeps(Put(p, id, dropped), id, PAYLOAD_TOO_LARGE, log, cfg);
    ResetStreamKeeps(Put(p, id, fed), id, PROTOCOL_ERROR, log, cfg);
    KeepsTrans(p, Put(p, id, dropped), ResetStream(Put(p, id, dropped), id, PAYLOAD_TOO_LARGE), log, cfg);
    KeepsTrans(p, Put(p, id, fed), ResetStream(Put(p, id, fed), id, PROTOCOL_ERROR), log, cfg);
  }

  lemma PutHas(p: Peer, id: nat, s: S.Stream)
    ensures id in Put(p, id, s).objects
  {
  }

  lemma StartHandlerKeeps(p: Peer, id: nat, log: seq<Frame>, cfg: Config)
    requires Afloat(p, log, cfg) && id in p.objects && May(p, log, cfg, id)
    ensures Keeps(p, StartHandler(p, id), log, cfg)
  {
    hide Afloat, May, FailStream, QueueReset, Put;
    if p.goaway.sent || !p.handler {
      QueueResetKeeps(p, id, REFUSED, log, cfg);
      EnqueueResetKeeps(p, id, REFUSED);
      var q := QueueReset(p, id, REFUSED);
      FailStreamKeeps(q, id, REFUSED, log, cfg);
      KeepsTrans(p, q, FailStream(q, id, REFUSED), log, cfg);
    } else {
      PutKeeps(p, id, p.objects[id].(started := true), log, cfg);
    }
  }

  lemma FeedOpeningKeeps(p: Peer, id: nat, frame: Frame, later: bool, log: seq<Frame>, cfg: Config)
    requires Afloat(p, log, cfg) && id in p.objects && frame.fragment.Some? && May(p, log, cfg, id)
    ensures Keeps(p, FeedOpening(p, id, frame, later, cfg), log, cfg)
  {
    hide Afloat, May, Absorb, StartHandler, Put, Completed;
    AbsorbKeeps(p, id, frame, log, cfg);
    var (absorbed, payload) := Absorb(p, id, frame, cfg);
    if payload.Some? && id in absorbed.objects {
      var s := Completed(absorbed.objects[id], payload, later && frame.end);
      var q := Put(absorbed, id, s);
      PutHas(absorbed, id, s);
      PutKeeps(absorbed, id, s, log, cfg);
      KeepsTrans(p, absorbed, q, log, cfg);
      StartHandlerKeeps(q, id, log, cfg);
      KeepsTrans(p, q, StartHandler(q, id), log, cfg);
    }
  }

  /** An id of the remote's may be written to. */
  lemma RemoteMay(p: Peer, id: nat, log: seq<Frame>, cfg: Config)
    requires !IsOurs(p, id)
    ensures May(p, log, cfg, id)
  {
    hide Seen, Unsent;
  }

  lemma OnOpenKeeps(p: Peer, frame: Frame, log: seq<Frame>, cfg: Config)
    requires Afloat(p, log, cfg)
    ensures Keeps(p, OnOpen(p, frame, cfg), log, cfg)
  {
    hide Afloat, May, FeedOpening, StartHandler, FailConnection, QueueReset, RemoteLive;
    QueueGoawayKeeps(p, PROTOCOL_ERROR, log, cfg);
    if frame.stream.Some? {
      var id := frame.stream.value;
      if ContinuesOpening(p, frame) {
        assert May(p, log, cfg, id) by { LiveMay(p, id, log, cfg); }
        FeedOpeningKeeps(p, id, frame, true, log, cfg);
      } else if Admissible(p, id) {
        RemoteMay(p, id, log, cfg);
        AdmittedKeeps(p, frame, id, log, cfg);
      }
    }
  }

  lemma LiveMay(p: Peer, id: nat, log: seq<Frame>, cfg: Config)
    requires Afloat(p, log, cfg) && id in p.live
    ensures 0 < id && May(p, log, cfg, id)
  {
    hide Tidy, MayQueue;
  }

  lemma AdmittedKeeps(p: Peer, frame: Frame, id: nat, log: seq<Frame>, cfg: Config)
    requires Afloat(p, log, cfg) && frame.stream == Some(id) && May(p, log, cfg, id)
    requires Admissible(p, id) && !ContinuesOpening(p, frame)
    ensures Keeps(p, OnOpen(p, frame, cfg), log, cfg)
  {
    hide Afloat, May, FeedOpening, StartHandler, QueueReset, RemoteLive;
    var admitted := p.(highRemote := id);
    if cfg.maxStreams <= |RemoteLive(p)| {
      RefusedKeeps(p, id, REFUSED, if frame.fragment.Some? && frame.more then p.cut + {id} else p.cut, log, cfg);
    } else {
      var s := S.NewStream(id, false, if frame.end then S.HalfClosedRemote else S.Open, frame.headers, None);
      if frame.fragment.Some? {
        var q := Create(admitted, s.(opening := true));
        CalmKeeps(p, q, log, cfg);
        FeedOpeningKeeps(q, id, frame, false, log, cfg);
        KeepsTrans(p, q, FeedOpening(q, id, frame, false, cfg), log, cfg);
      } else {
        var q := Create(admitted, s.(payload := Some(if frame.payload.Some? then frame.payload.value else Null)));
        CalmKeeps(p, q, log, cfg);
        StartHandlerKeeps(q, id, log, cfg);
        KeepsTrans(p, q, StartHandler(q, id), log, cfg);
      }
    }
  }

  lemma RefusedKeeps(p: Peer, id: nat, code: int, cut: set<nat>, log: seq<Frame>, cfg: Config)
    requires Afloat(p, log, cfg) && May(p, log, cfg, id)
    ensures Keeps(p, QueueReset(p.(highRemote := id), id, code).(cut := cut), log, cfg)
  {
    hide Afloat, May, Enqueue;
    var admitted := p.(highRemote := id).(cut := cut);
    CalmKeeps(p, admitted, log, cfg);
    QueueResetKeeps(admitted, id, code, log, cfg);
    KeepsTrans(p, admitted, QueueReset(admitted, id, code), log, cfg);
  }

  lemma DeliverKeeps(p: Peer, id: nat, payload: Option<Value>, frame: Frame, log: seq<Frame>, cfg: Config)
    requires Afloat(p, log, cfg) && id in p.objects
    ensures Keeps(p, Deliver(p, id, payload, frame), log, cfg)
  {
    hide Afloat, May, Put;
    var s := p.objects[id];
    var accepted := if payload.Some? then S.AcceptPayload(s, payload.value) else s;
    PutKeeps(p, id, if frame.end then S.RemoteEnd(accepted, frame.trailers) else accepted, log, cfg);
  }

  lemma OnDataKeeps(p: Peer, id: nat, frame: Frame, log: seq<Frame>, cfg: Config)
    requires Afloat(p, log, cfg) && id in p.objects && May(p, log, cfg, id)
    ensures Keeps(p, OnData(p, id, frame, cfg), log, cfg)
  {
    hide Afloat, May, ResetStream, Absorb, Deliver, Put;
    var noted := S.NoteRemoteFrame(p.objects[id], frame.headers).0;
    var q := Put(p, id, noted);
    PutHas(p, id, noted);
    PutKeeps(p, id, noted, log, cfg);
    ResetStreamKeeps(p, id, PROTOCOL_ERROR, log, cfg);
    ResetStreamKeeps(q, id, PROTOCOL_ERROR, log, cfg);
    KeepsTrans(p, q, ResetStream(q, id, PROTOCOL_ERROR), log, cfg);
    DeliverKeeps(q, id, frame.payload, frame, log, cfg);
    KeepsTrans(p, q, Deliver(q, id, frame.payload, frame), log, cfg);
    if frame.fragment.Some? {
      AbsorbKeeps(q, id, frame, log, cfg);
      var (absorbed, payload) := Absorb(q, id, frame, cfg);
      KeepsTrans(p, q, absorbed, log, cfg);
      if payload.Some? && id in absorbed.objects {
        DeliverKeeps(absorbed, id, payload, frame, log, cfg);
        KeepsTrans(p, absorbed, Deliver(absorbed, id, payload, frame), log, cfg);
      }
    }
  }

  lemma OnStreamFrameKeeps(p: Peer, frame: Frame, log: seq<Frame>, cfg: Config)
    requires Afloat(p, log, cfg)
    ensures Keeps(p, OnStreamFrame(p, frame, cfg), log, cfg)
  {
    hide Afloat, May, OnData, FailConnection, FailStream, Discard;
    QueueGoawayKeeps(p, PROTOCOL_ERROR, log, cfg);
    if frame.stream.Some? {
      var id := frame.stream.value;
      if id !in p.live || id !in p.objects {
        CalmKeeps(p, p.(ignoredLate := p.ignoredLate + 1), log, cfg);
      } else {
        var code := if frame.code.Some? then frame.code.value else 0;
        var q := p.(writer := Discard(p.writer, id));
        DiscardKeeps(p, id, log, cfg);
        FailStreamKeeps(q, id, code, log, cfg);
        KeepsTrans(p, q, FailStream(q, id, code), log, cfg);
        LiveMay(p, id, log, cfg);
        OnDataKeeps(p, id, frame, log, cfg);
      }
    }
  }

  lemma OnGoawayKeeps(p: Peer, frame: Frame, log: seq<Frame>, cfg: Config)
    requires Afloat(p, log, cfg)
    ensures Keeps(p, OnGoaway(p, frame), log, cfg)
  {
    hide Afloat, May, FailAll, Unprocessed;
    CalmKeeps(p, OnGoaway(p, frame), log, cfg);
  }

  /** A message over the cap that is not of a stream's three kinds, and names a stream that is not live:
      the source answers it with a reset of that id, whether or not the id was ever opened. */
  predicate Stray(p: Peer, frame: Frame, size: nat, cfg: Config) {
    && cfg.cap < size
    && frame.stream.Some? && !(frame.stream.value in p.live && frame.stream.value in p.objects)
    && !(frame.kind == OpenFrame || frame.kind == DataFrame || frame.kind == ResetFrame)
  }

  lemma OverCapKeeps(p: Peer, frame: Frame, size: nat, log: seq<Frame>, cfg: Config)
    requires Afloat(p, log, cfg) && cfg.cap < size
    requires Stray(p, frame, size, cfg) ==> May(p, log, cfg, frame.stream.value)
    ensures Keeps(p, OverCap(p, frame, cfg), log, cfg)
  {
    hide Afloat, May, OnStreamFrame, FailConnection, ResetStream, QueueReset;
    QueueGoawayKeeps(p, PROTOCOL_ERROR, log, cfg);
    OnStreamFrameKeeps(p, frame, log, cfg);
    if frame.stream.Some? {
      var id := frame.stream.value;
      if frame.kind == OpenFrame && !ContinuesOpening(p, frame) {
        if Admissible(p, id) {
          RemoteMay(p, id, log, cfg);
          RefusedKeeps(p, id, PAYLOAD_TOO_LARGE, if frame.fragment.Some? && frame.more then p.cut + {id} else p.cut,
                       log, cfg);
        }
      } else if id in p.live && id in p.objects {
        LiveMay(p, id, log, cfg);
        ResetStreamKeeps(p, id, PAYLOAD_TOO_LARGE, log, cfg);
      } else if Stray(p, frame, size, cfg) {
        QueueResetKeeps(p, id, PAYLOAD_TOO_LARGE, log, cfg);
      }
    }
  }

  lemma ReceiveKeeps(p: Peer, frame: Frame, size: nat, log: seq<Frame>, cfg: Config)
    requires Afloat(p, log, cfg)
    requires p.isOpen && !p.failed && Stray(p, frame, size, cfg) ==> May(p, log, cfg, frame.stream.value)
    ensures Keeps(p, Receive(p, frame, size, cfg), log, cfg)
  {
    hide Afloat, May, OnOpen, OnStreamFrame, OnGoaway, OverCap, Queue, Stray;
    CalmKeeps(p, p, log, cfg);
    if p.isOpen && !p.failed {
      if cfg.cap < size {
        OverCapKeeps(p, frame, size, log, cfg);
      } else {
        OnOpenKeeps(p, frame, log, cfg);
        OnStreamFrameKeeps(p, frame, log, cfg);
        OnGoawayKeeps(p, frame, log, cfg);
        QueueKeeps(p, Bare(PongFrame, None).(nonce := frame.nonce), log, cfg);
      }
    }
  }

  // ------------------------------------------------------------ every run

  ghost predicate Steady(e: End, cfg: Config) {
    && Sound(e.peer, cfg) && Bounded(e.peer, cfg)
    && Afloat(e.peer, e.log, cfg)
    && (e.inFlight.Some? ==> Seen(e.log, e.inFlight.value))
  }

  /** Anything but the reading of a stray message about a stream of this end's own that it has neither opened
      on the wire nor is about to. */
  ghost predicate Polite(e: End, a: Action, cfg: Config) {
    a.Read? && e.peer.isOpen && !e.peer.failed && Stray(e.peer, a.frame, a.size, cfg) ==>
      May(e.peer, e.log, cfg, a.frame.stream.value)
  }

  ghost predicate AllPolite(e: End, actions: seq<Action>, cfg: Config)
    decreases |actions|
  {
    actions == [] || (Polite(e, actions[0], cfg) && AllPolite(Step(e, actions[0], cfg), actions[1..], cfg))
  }

  lemma UnclosedMay(p: Peer, id: nat, log: seq<Frame>, cfg: Config)
    requires Sound(p, cfg) && Afloat(p, log, cfg) && id in p.objects
    ensures p.objects[id].state != S.Closed || p.objects[id].cause.NotEnded? ==> 0 < id && May(p, log, cfg, id)
    ensures !p.isOpen ==> p.live == {}
  {
    hide Tidy, MayQueue, A.Counted;
    SoundKeeps(p, id, cfg);
  }

  lemma DeadHasNone(p: Peer, cfg: Config)
    requires Sound(p, cfg)
    ensures !p.isOpen ==> p.live == {}
  {
  }

  lemma StepSound(e: End, a: Action, cfg: Config)
    requires Sound(e.peer, cfg) && Bounded(e.peer, cfg)
    ensures Sound(Step(e, a, cfg).peer, cfg) && Bounded(Step(e, a, cfg).peer, cfg)
  {
    hide Sound, Bounded, OpenStream, SendData, AppReset, HandlerError, QueueGoaway, Transmit, Transmitted, Receive, Die;
    ActSound(e.peer, a, cfg);
    if a.Taken? && e.inFlight.Some? {
      ActSound(e.peer, Taken(e.inFlight.value), cfg);
    }
  }

  lemma StepSteady(e: End, a: Action, cfg: Config)
    requires Steady(e, cfg) && Polite(e, a, cfg)
    ensures Steady(Step(e, a, cfg), cfg) && Step(e, a, cfg).peer.dialer == e.peer.dialer
  {
    hide Sound, Bounded, Afloat, May, Seen, Act, OpenStream, SendData, AppReset, HandlerError, QueueGoaway, Transmit,
      Transmitted, Receive, Die, S.MaySend;
    StepSound(e, a, cfg);
    DeadHasNone(e.peer, cfg);
    StepAfloat(e, a, cfg);
  }

  lemma StepAfloat(e: End, a: Action, cfg: Config)
    requires Steady(e, cfg) && Polite(e, a, cfg) && (!e.peer.isOpen ==> e.peer.live == {})
    ensures var e' := Step(e, a, cfg);
            && Afloat(e'.peer, e'.log, cfg) && e'.peer.dialer == e.peer.dialer
            && (e'.inFlight.Some? ==> Seen(e'.log, e'.inFlight.value))
  {
    hide Sound, Bounded, Afloat, May, Seen, OpenStream, SendData, AppReset, HandlerError, QueueGoaway, Transmit,
      Transmitted, Receive, Die;
    var p := e.peer;
    match a
    case Register => CalmKeeps(p, p.(handler := true), e.log, cfg);
    case Open(payload, headers, end) => OpenKeeps(p, payload, headers, end, e.log, cfg);
        OpenDialer(p, payload, headers, end);
    case Send(id, data, leading, last, trailers) =>
      if id in p.objects { UnclosedMay(p, id, e.log, cfg); }
      SendKeeps(p, id, data, leading, last, trailers, e.log, cfg);
    case Reset(id, code) =>
      if id in p.objects { UnclosedMay(p, id, e.log, cfg); }
      AppResetKeeps(p, id, code, e.log, cfg);
    case HandlerRaises(id, error) =>
      if id in p.objects { UnclosedMay(p, id, e.log, cfg); }
      HandlerErrorKeeps(p, id, error, e.log, cfg);
    case Goodbye(code) =>
      CalmKeeps(p, p, e.log, cfg);
      QueueGoawayKeeps(p, code, e.log, cfg);
    case Ping(nonce) => PingKeeps(p, nonce, e.log, cfg);
    case Take =>
      TransmitKeeps(p, e.log, cfg);
      var (next, sent) := Transmit(p, cfg);
      assert Afloat(next, Logged(e.log, sent), cfg);
    case Taken(_) => if e.inFlight.Some? { TransmittedKeeps(p, e.inFlight.value, e.log, cfg); }
    case Read(frame, size) => ReceiveKeeps(p, frame, size, e.log, cfg);
    case SocketDies => DieKeeps(p, e.log, cfg); DieDialer(p);
  }

  lemma PingKeeps(p: Peer, nonce: Text, log: seq<Frame>, cfg: Config)
    requires Afloat(p, log, cfg)
    ensures Keeps(p, SendPing(p, nonce), log, cfg)
  {
    hide Afloat, May, Queue;
    CalmKeeps(p, p, log, cfg);
    QueueKeeps(p, PingOf(nonce), log, cfg);
  }

  lemma OpenDialer(p: Peer, payload: Value, headers: Option<Fields>, end: bool)
    ensures OpenStream(p, payload, headers, end).dialer == p.dialer
  {
    hide Enqueue;
  }

  lemma DieDialer(p: Peer)
    ensures Die(p).dialer == p.dialer
  {
    hide DiscardAll, FailAll;
  }

  lemma {:induction false} StepAllSteady(e: End, actions: seq<Action>, cfg: Config)
    requires Steady(e, cfg) && AllPolite(e, actions, cfg)
    ensures Steady(StepAll(e, actions, cfg), cfg) && StepAll(e, actions, cfg).peer.dialer == e.peer.dialer
    decreases |actions|
  {
    hide Steady, Step, Polite;
    if actions != [] {
      StepSteady(e, actions[0], cfg);
      StepAllSteady(Step(e, actions[0], cfg), actions[1..], cfg);
    }
  }

  lemma NewEndSteady(dialer: bool, cfg: Config)
    ensures Steady(NewEnd(dialer), cfg)
  {
    NewPeerSound(dialer, cfg);
  }

  /** The first frame on a stream of one's own, at place `i` of the wire, is its `open`, above all before. */
  lemma {:induction false} OrderlyAt(log: seq<Frame>, side: Side, i: nat)
    requires Orderly(log, side) && i < |log|
    ensures OnWire(LaneOf(log[i]), log[i], side)
    ensures Own(side, LaneOf(log[i])) && !Seen(log[..i], LaneOf(log[i])) ==>
              log[i].kind == OpenFrame && OpensBelow(log[..i], LaneOf(log[i]))
    decreases |log|
  {
    hide OnWire, Seen, OpensBelow, Own;
    if i < |log| - 1 {
      OrderlyAt(log[..|log| - 1], side, i);
      assert log[..|log| - 1][..i] == log[..i];
    }
  }

  /** Every message is within the cap, nothing on a stream of this side's own precedes its `open`, and such
      streams are first opened in increasing id order. */
  ghost predicate InOrder(log: seq<Frame>, side: Side) {
    forall i :: 0 <= i < |log| ==>
      && OnWire(LaneOf(log[i]), log[i], side)
      && (Own(side, LaneOf(log[i])) && !Seen(log[..i], LaneOf(log[i])) ==>
            log[i].kind == OpenFrame && OpensBelow(log[..i], LaneOf(log[i])))
  }

  /** In every run of an end, whatever its application and its remote do, every message on the wire is
      within the cap, nothing on a stream it opens precedes that stream's `open`, and streams are first
      opened in strictly increasing id order. */
  lemma OpensInOrder(dialer: bool, actions: seq<Action>, cfg: Config)
    requires AllPolite(NewEnd(dialer), actions, cfg)
    ensures InOrder(StepAll(NewEnd(dialer), actions, cfg).log, Side(dialer, cfg.cap, cfg.codec))
  {
    hide StepAll, InOrder, AllPolite, Steady;
    NewEndSteady(dialer, cfg);
    PoliteInOrder(NewEnd(dialer), actions, cfg);
  }

  lemma PoliteInOrder(e: End, actions: seq<Action>, cfg: Config)
    requires Steady(e, cfg) && AllPolite(e, actions, cfg)
    ensures InOrder(StepAll(e, actions, cfg).log, SideOf(e.peer, cfg))
  {
    hide StepAll, Seen, OnWire, Own, OpensBelow, Steady;
    var side := SideOf(e.peer, cfg);
    var log := StepAll(e, actions, cfg).log;
    StepAllSteady(e, actions, cfg);
    SteadyIsOrderly(StepAll(e, actions, cfg), cfg);
    forall i | 0 <= i < |log|
      ensures OnWire(LaneOf(log[i]), log[i], side)
      ensures Own(side, LaneOf(log[i])) && !Seen(log[..i], LaneOf(log[i])) ==>
                log[i].kind == OpenFrame && OpensBelow(log[..i], LaneOf(log[i]))
    {
      OrderlyAt(log, side, i);
    }
  }

  lemma SteadyIsOrderly(e: End, cfg: Config)
    requires Steady(e, cfg)
    ensures Orderly(e.log, SideOf(e.peer, cfg))
  {
    hide Orderly, Sound, Seen, Sorted, Listed, LaneTidy, OpensBelow;
  }
}
