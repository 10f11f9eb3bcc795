/** What an end says on the connection's own lane over a whole run: exactly the pings, pongs and goaways that its
    actions call for, each once and in that order, and in each goaway the highest id the remote had opened. */
module ConnectionLane {
  import opened Frames
  import opened Codecs
  import opened Fragmenter
  import opened WriterModel
  import opened WriterFrames
  import opened PeerModel
  import opened PeerInvariant
  import opened PeerFrames
  import opened Ends
  import opened Farewells
  import opened Lives
  import opened PeerTable
  import opened Conversation
  import opened Strands
  import opened Locality
  import A = Assembly
  import S = StreamModel
  import W = WriterLaws

  // ------------------------------------------------------------ what the actions call for

  /** The largest id among the remote's `open`s read so far, when `seen` was the largest before `a`. */
  function Largest(seen: nat, p: Peer, a: Action): nat {
    if a.Read? && p.isOpen && !p.failed && a.frame.kind == OpenFrame && a.frame.stream.Some?
       && a.frame.stream.value % 2 != OwnParity(p.dialer) && seen < a.frame.stream.value
    then a.frame.stream.value else seen
  }

  function Farewell(code: int, last: nat): Frame {
    Bare(GoawayFrame, None).(code := Some(code), lastStream := Some(last))
  }

  /** What the message `f` is answered with on the connection's lane. */
  function Answered(f: Frame, size: nat, fails: bool, seen: nat, cap: nat): seq<Frame> {
    if fails then [Farewell(PROTOCOL_ERROR, seen)]
    else if size <= cap && f.kind == PingFrame then [Bare(PongFrame, None).(nonce := f.nonce)]
    else if cap < size && f.stream == Some(0) && f.kind != OpenFrame && f.kind != DataFrame && f.kind != ResetFrame
    then [ResetWith(0, PAYLOAD_TOO_LARGE, None)]
    else []
  }

  /** What `a` puts on the connection's lane.  Each message that fails the connection is told farewell; `close` says it
      once. */
  function Spoken(p: Peer, a: Action, p': Peer, seen: nat, cap: nat): seq<Frame> {
    match a
    case Goodbye(code) => if p.isOpen && !p.goaway.sent then [Farewell(code, seen)] else []
    case Ping(nonce) => if p.isOpen then [Bare(PingFrame, None).(nonce := Some(nonce))] else []
    case Read(f, size) => if p.isOpen && !p.failed then Answered(f, size, p'.failed, seen, cap) else []
    case _ => []
  }

  /** Everything that a run says on the connection's lane. */
  function Talk(e: End, seen: nat, actions: seq<Action>, cfg: Config): seq<Frame>
    decreases |actions|
  {
    if actions == [] then []
    else
      var next := Step(e, actions[0], cfg);
      Spoken(e.peer, actions[0], next.peer, Largest(seen, e.peer, actions[0]), cfg.cap)
      + Talk(next, Largest(seen, e.peer, actions[0]), actions[1..], cfg)
  }

  // ------------------------------------------------------------ the lane

  /** Nothing on the lane is ever sliced. */
  predicate Unsliced(lane: Lane) {
    && (lane.fragments.Some? ==> lane.fragments.value.Finished?)
    && forall i :: 0 <= i < |lane.waiting| ==> lane.waiting[i].payload.None?
  }

  lemma ResumeWhole(f: Frame, cap: nat, codec: Codec)
    requires f.payload.None?
    ensures Resume(Start(f), cap, codec).Raise? || Resume(Start(f), cap, codec) == Yield(f, Finished)
    ensures Resume(Finished, cap, codec) == Stop
  {
  }

  lemma PrepareUnsliced(lane: Lane, cap: nat, codec: Codec)
    requires Unsliced(lane) && Prepare(lane, cap, codec).Ready?
    ensures var next := Prepare(lane, cap, codec).lane;
            Unsliced(next) && Coming(next) == Coming(lane)
  {
    hide Resume;
    ResumeWhole(Bare(PongFrame, None), cap, codec);
    if lane.waiting != [] { ResumeWhole(lane.waiting[0], cap, codec); }
  }

  /** What a turn does to what is still to come on the lane. */
  ghost predicate Moved(lane: Lane, next: Lane, turn: Turn) {
    && Unsliced(next)
    && (match turn
        case Sent(x, f) => if x == 0 then Coming(lane) == [f] + Coming(next) else Coming(next) == Coming(lane)
        case Failed(x, _) => Coming(next) == if x == 0 then [] else Coming(lane)
        case Nothing => Coming(next) == Coming(lane))
  }

  lemma MovedTrans(a: Lane, b: Lane, c: Lane, turn: Turn)
    requires Coming(b) == Coming(a) && Moved(b, c, turn)
    ensures Moved(a, c, turn)
  {
    hide Coming;
  }

  lemma AskMoved(w: Writer, id: nat, cap: nat, codec: Codec)
    requires id in w.queues && Unsliced(LaneAt(w, 0))
    ensures var (asked, turn) := AskLane(w, id, cap, codec);
            Moved(LaneAt(w, 0), LaneAt(asked, 0), turn)
  {
    hide Prepare, Without, Coming;
    if id == 0 {
      var lane := w.queues[0];
      if Prepare(lane, cap, codec).Ready? {
        PrepareUnsliced(lane, cap, codec);
        TakenComing(Prepare(lane, cap, codec).lane);
      }
      EmptyHasNothing(cap, codec);
    }
  }

  lemma TakenComing(lane: Lane)
    ensures lane.prepared.Some? ==> Coming(lane) == [lane.prepared.value] + Coming(lane.(prepared := None))
    ensures Unsliced(lane.(prepared := None)) == Unsliced(lane)
  {
    hide Rest;
  }

  lemma {:induction false} RotateMoved(w: Writer, turns: nat, cap: nat, codec: Codec)
    requires Unsliced(LaneAt(w, 0))
    ensures var (next, turn) := Rotate(w, turns, cap, codec);
            Moved(LaneAt(w, 0), LaneAt(next, 0), turn)
    decreases turns
  {
    hide AskLane, Rotated, LaneAt, Coming, Unsliced;
    if turns != 0 && w.order != [] {
      var id, moved := w.order[0], Rotated(w);
      RotatedTurned(w, 0);
      RotatedKeepsLanes(w);
      if id !in w.queues {
        RotateMoved(moved, turns - 1, cap, codec);
      } else {
        AskMoved(moved, id, cap, codec);
        var (asked, turn) := AskLane(moved, id, cap, codec);
        if turn.Nothing? {
          RotateMoved(asked, turns - 1, cap, codec);
          MovedTrans(LaneAt(w, 0), LaneAt(asked, 0), LaneAt(Rotate(asked, turns - 1, cap, codec).0, 0),
                     Rotate(asked, turns - 1, cap, codec).1);
        }
      }
    }
  }

  lemma NextMoved(w: Writer, cap: nat, codec: Codec)
    requires Unsliced(LaneAt(w, 0))
    ensures var (next, turn) := NextFrame(w, cap, codec);
            Moved(LaneAt(w, 0), LaneAt(next, 0), turn)
  {
    hide Rotate, Coming, Unsliced, AnyWork;
    RotateMoved(w, |w.order|, cap, codec);
  }

  lemma AdvanceMoved(w: Writer, id: nat, cap: nat, codec: Codec)
    requires Unsliced(LaneAt(w, 0))
    ensures var (next, turn) := Advance(w, id, cap, codec);
            Moved(LaneAt(w, 0), LaneAt(next, 0), turn) && !turn.Sent? && (turn.Failed? ==> turn.id == id)
  {
    hide Prepare, Without, HasWork, Coming;
    EmptyIsUnsliced();
    if id in w.queues && id == 0 && Prepare(w.queues[0], cap, codec).Ready? {
      PrepareUnsliced(w.queues[0], cap, codec);
    }
  }

  // ------------------------------------------------------------ one action

  /** The lane gains `more` at its back. */
  predicate Gains(p: Peer, p': Peer, more: seq<Frame>) {
    var lane := LaneAt(p.writer, 0);
    LaneAt(p'.writer, 0) == lane.(waiting := lane.waiting + more)
  }

  lemma OnlyGainsNothing(p: Peer, p': Peer, id: nat)
    requires Only(p, p', id) && id != 0
    ensures Gains(p, p', []) && SameRest(p, p')
  {
    var lane := LaneAt(p.writer, 0);
    assert At(p', 0) == At(p, 0);
    assert lane.waiting + [] == lane.waiting;
  }

  lemma QueueGains(p: Peer, f: Frame)
    requires LaneOf(f) == 0
    ensures Gains(p, Queue(p, f), [f])
  {
  }

  lemma FailureGains(p: Peer, code: int)
    ensures Gains(p, QueueGoaway(p, code), [Farewell(code, p.highRemote)])
    ensures var q := QueueGoaway(p, code);
            q.highRemote == p.highRemote && q.isOpen == p.isOpen && q.dialer == p.dialer && q.failed == p.failed
    ensures Gains(p, FailConnection(p), [Farewell(PROTOCOL_ERROR, p.highRemote)])
    ensures FailConnection(p).failed
  {
  }

  /** A message that fails the connection, whatever its kind. */
  lemma FailureHeeds(p: Peer, f: Frame, size: nat, cap: nat)
    requires p.isOpen && !p.failed && Largest(p.highRemote, p, Read(f, size)) == p.highRemote
    ensures Heeds(p, Read(f, size), FailConnection(p), cap)
  {
    hide QueueGoaway, Gains;
    FailureGains(p, PROTOCOL_ERROR);
  }

  /** A stream is never 0, so what is done to one leaves the lane alone. */
  lemma ObjectsAreNotZero(p: Peer, cfg: Config)
    requires Sound(p, cfg)
    ensures forall x :: x in p.objects || x in p.live ==> x != 0
  {
    forall x | x in p.objects
      ensures x != 0
    {
      assert Kept(p, x, p.objects[x], cfg);
    }
  }

  ghost predicate Heeds(p: Peer, a: Action, p': Peer, cap: nat) {
    var seen := Largest(p.highRemote, p, a);
    && p'.highRemote == seen && p'.dialer == p.dialer && p'.isOpen == p.isOpen
    && Gains(p, p', Spoken(p, a, p', seen, cap))
  }

  lemma ReadOpenHeeds(p: Peer, f: Frame, size: nat, cfg: Config)
    requires Sound(p, cfg) && p.isOpen && !p.failed && f.kind == OpenFrame
    ensures Heeds(p, Read(f, size), Receive(p, f, size, cfg), cfg.cap)
  {
    hide Receive, FailConnection, Gains, Only;
    var p' := Receive(p, f, size, cfg);
    OpenCases(p, f, size, cfg);
    if p'.failed {
      FailureHeeds(p, f, size, cfg.cap);
    } else {
      var id := f.stream.value;
      OpenGoesOn(p, f, size, cfg);
      if ContinuesOpening(p, f) {
        ContinuingMark(p, id, cfg);
        assert p.(highRemote := p.highRemote) == p;
      }
      OnlyGainsNothing(p.(highRemote := MarkAfter(p, f)), p', id);
      MarkedGains(p, MarkAfter(p, f), p');
    }
  }

  lemma MarkedGains(p: Peer, mark: nat, p': Peer)
    requires Gains(p.(highRemote := mark), p', [])
    ensures Gains(p, p', [])
  {
  }

  /** A continued opening is at or below the mark. */
  lemma ContinuingMark(p: Peer, id: nat, cfg: Config)
    requires Sound(p, cfg) && id in p.live && id in p.objects && p.objects[id].opening
    ensures 0 < id <= p.highRemote
  {
    assert Kept(p, id, p.objects[id], cfg);
  }

  /** An `open` fails the connection exactly when it neither continues an opening nor is admitted. */
  lemma OpenCases(p: Peer, f: Frame, size: nat, cfg: Config)
    requires p.isOpen && !p.failed && f.kind == OpenFrame
    ensures var p' := Receive(p, f, size, cfg);
            && (f.stream.None? || (!ContinuesOpening(p, f) && !Admissible(p, f.stream.value))
                ==> p' == FailConnection(p))
            && (p'.failed <==> f.stream.None? || (!ContinuesOpening(p, f) && !Admissible(p, f.stream.value)))
            && (p'.failed ==> p' == FailConnection(p))
  {
    hide FeedOpening, StartHandler, Enqueue, RemoteLive, ResetStream, Admissible;
    if f.stream.Some? && ContinuesOpening(p, f) {
      FeedOpeningOnly(p, f.stream.value, f, true, cfg);
      ResetOnly(p, f.stream.value, PAYLOAD_TOO_LARGE);
    } else if f.stream.Some? && Admissible(p, f.stream.value) {
      AdmittedOnly(p, f, cfg);
    }
  }

  lemma OpenGoesOn(p: Peer, f: Frame, size: nat, cfg: Config)
    requires p.isOpen && !p.failed && f.kind == OpenFrame && f.stream.Some? && !Receive(p, f, size, cfg).failed
    ensures Only(p.(highRemote := MarkAfter(p, f)), Receive(p, f, size, cfg), f.stream.value)
  {
    hide OnOpen, OverCap, Only, ContinuesOpening, Admissible;
    if cfg.cap < size { OverCapOnly(p, f, cfg); } else { OnOpenOnly(p, f, cfg); }
  }

  lemma StreamFrameCases(p: Peer, f: Frame, cfg: Config)
    requires !p.failed
    ensures var p' := OnStreamFrame(p, f, cfg);
            && (p'.failed ==> p' == FailConnection(p))
            && (!p'.failed ==> f.stream.Some?)
            && (!p'.failed && f.stream.value !in p.objects ==>
                p'.writer == p.writer && SameRest(p, p'))
  {
    hide OnData, FailStream, Discard, Enqueue;
    if f.stream.Some? && f.stream.value in p.live && f.stream.value in p.objects {
      var id := f.stream.value;
      OnDataOnly(p, id, f, cfg);
      var q := p.(writer := Discard(p.writer, id));
      FailOnly(q, id, if f.code.Some? then f.code.value else 0);
    }
  }

  lemma ReadStreamFrameHeeds(p: Peer, f: Frame, size: nat, cfg: Config)
    requires Sound(p, cfg) && p.isOpen && !p.failed && (f.kind == DataFrame || f.kind == ResetFrame)
    ensures Heeds(p, Read(f, size), Receive(p, f, size, cfg), cfg.cap)
  {
    hide OnStreamFrame, Gains, Only, ResetStream, QueueReset, FailConnection;
    var p' := Receive(p, f, size, cfg);
    ObjectsAreNotZero(p, cfg);
    StreamFrameCases(p, f, cfg);
    if f.stream.None? {
      FailureHeeds(p, f, size, cfg.cap);
    } else if f.stream.value in p.live && f.stream.value in p.objects && cfg.cap < size {
      ResetOnly(p, f.stream.value, PAYLOAD_TOO_LARGE);
      OnlyGainsNothing(p, p', f.stream.value);
    } else {
      assert p' == OnStreamFrame(p, f, cfg);
      if p'.failed {
        FailureHeeds(p, f, size, cfg.cap);
      } else if f.stream.value in p.objects {
        OnStreamFrameOnly(p, f, cfg);
        OnlyGainsNothing(p, p', f.stream.value);
      } else {
        SameLaneGains(p, p');
      }
    }
  }

  lemma SameLaneGains(p: Peer, p': Peer)
    requires p'.writer == p.writer
    ensures Gains(p, p', [])
  {
    assert LaneAt(p.writer, 0).waiting + [] == LaneAt(p.writer, 0).waiting;
  }

  lemma ReadOtherHeeds(p: Peer, f: Frame, size: nat, cfg: Config)
    requires Sound(p, cfg) && p.isOpen && !p.failed
    requires f.kind != OpenFrame && f.kind != DataFrame && f.kind != ResetFrame
    ensures Heeds(p, Read(f, size), Receive(p, f, size, cfg), cfg.cap)
  {
    hide Queue, Gains, Only, ResetStream, QueueReset, FailConnection, FailAll, Unprocessed, OnOpen, OnStreamFrame;
    var p' := Receive(p, f, size, cfg);
    if cfg.cap < size {
      OtherOverCapHeeds(p, f, size, cfg);
    } else {
      SameLaneGains(p, p);
      SameLaneGains(p, OnGoaway(p, f));
      QueuedHeeds(p, Bare(PongFrame, None).(nonce := f.nonce));
    }
  }

  lemma QueuedHeeds(p: Peer, f: Frame)
    requires LaneOf(f) == 0
    ensures Gains(p, Queue(p, f), [f]) && SameRest(p, Queue(p, f))
  {
  }

  lemma OtherOverCapHeeds(p: Peer, f: Frame, size: nat, cfg: Config)
    requires Sound(p, cfg) && p.isOpen && !p.failed && cfg.cap < size
    requires f.kind != OpenFrame && f.kind != DataFrame && f.kind != ResetFrame
    ensures Heeds(p, Read(f, size), Receive(p, f, size, cfg), cfg.cap)
  {
    hide Gains, Only, ResetStream, Queue, FailConnection, OnStreamFrame;
    ObjectsAreNotZero(p, cfg);
    if f.stream.None? {
      FailureHeeds(p, f, size, cfg.cap);
    } else {
      var id := f.stream.value;
      if id in p.live && id in p.objects {
        ResetOnly(p, id, PAYLOAD_TOO_LARGE);
        OnlyGainsNothing(p, ResetStream(p, id, PAYLOAD_TOO_LARGE), id);
      } else if id == 0 {
        QueuedHeeds(p, ResetWith(0, PAYLOAD_TOO_LARGE, None));
      } else {
        QueueResetOnly(p, id, PAYLOAD_TOO_LARGE);
        OnlyGainsNothing(p, QueueReset(p, id, PAYLOAD_TOO_LARGE), id);
      }
    }
  }

  lemma ReadHeeds(p: Peer, f: Frame, size: nat, cfg: Config)
    requires Sound(p, cfg)
    ensures Heeds(p, Read(f, size), Receive(p, f, size, cfg), cfg.cap)
  {
    hide Gains, OnOpen, OnStreamFrame, OnGoaway, OverCap, Queue;
    if !p.isOpen || p.failed { SameLaneGains(p, p); }
    else if f.kind == OpenFrame { ReadOpenHeeds(p, f, size, cfg); }
    else if f.kind == DataFrame || f.kind == ResetFrame { ReadStreamFrameHeeds(p, f, size, cfg); }
    else { ReadOtherHeeds(p, f, size, cfg); }
  }

  /** The application's own actions. */
  lemma OwnHeeds(p: Peer, a: Action, cfg: Config)
    requires Sound(p, cfg) && 0 < p.nextId && !a.Read? && !a.Take? && !a.Taken? && !a.SocketDies?
    ensures Heeds(p, a, Act(p, a, cfg), cfg.cap)
  {
    hide Gains, Enqueue, Discard, S.Fail, S.MaySend, S.NoteSent, S.LocalEnd, QueueGoaway, EnqueueReset, FailStream,
      Put, Create;
    ObjectsAreNotZero(p, cfg);
    SameLaneGains(p, p);
    var p' := Act(p, a, cfg);
    match a
    case Register => SameLaneGains(p, p');
    case Open(payload, headers, end) => if MayOpen(p) { OpenGains(p, payload, headers, end); }
    case Send(id, data, leading, last, trailers) =>
      if id in p.objects && S.MaySend(p.objects[id], leading) { SendGains(p, id, data, leading, last, trailers); }
    case Reset(id, code) => if id in p.objects { AppResetGains(p, id, code); }
    case HandlerRaises(id, error) => if id in p.objects { HandlerGains(p, id, error); }
    case Goodbye(code) => FailureGains(p, code);
    case Ping(nonce) => QueueGains(p, PingOf(nonce));
  }

  lemma OpenGains(p: Peer, payload: Value, headers: Option<Fields>, end: bool)
    requires MayOpen(p) && 0 < p.nextId
    ensures var p' := OpenStream(p, payload, headers, end);
            Gains(p, p', []) && p'.highRemote == p.highRemote && p'.dialer == p.dialer && p'.isOpen == p.isOpen
  {
    assert LaneAt(p.writer, 0).waiting + [] == LaneAt(p.writer, 0).waiting;
  }

  lemma SendGains(p: Peer, id: nat, data: Option<Value>, headers: Option<Fields>, end: bool, trailers: Option<Fields>)
    requires id in p.objects && id != 0
    ensures var p' := SendData(p, id, data, headers, end, trailers);
            Gains(p, p', []) && SameRest(p, p')
  {
    hide S.NoteSent, S.LocalEnd, Put, Queue, Only, Gains;
    SameLaneGains(p, p);
    if S.MaySend(p.objects[id], headers) {
      var f := Bare(DataFrame, Some(id)).(payload := data, headers := headers, end := end, trailers := trailers);
      var noted := S.NoteSent(p.objects[id], headers);
      var t := if end then S.LocalEnd(noted) else noted;
      QueueOnly(p, f);
      PutOnly(Queue(p, f), id, t);
      OnlyTrans(p, Queue(p, f), Put(Queue(p, f), id, t), id);
      OnlyGainsNothing(p, Put(Queue(p, f), id, t), id);
    }
  }

  lemma AppResetGains(p: Peer, id: nat, code: int)
    requires id in p.objects && id != 0
    ensures Gains(p, AppReset(p, id, code), []) && SameRest(p, AppReset(p, id, code))
  {
    hide EnqueueReset, FailStream, Gains, Only;
    SameLaneGains(p, p);
    ResetOnly(p, id, code);
    FailOnly(p, id, code);
    OnlyGainsNothing(p, ResetStream(p, id, code), id);
    OnlyGainsNothing(p, FailStream(p, id, code), id);
  }

  lemma HandlerGains(p: Peer, id: nat, error: Option<Value>)
    requires id in p.objects && id != 0
    ensures Gains(p, HandlerError(p, id, error), []) && SameRest(p, HandlerError(p, id, error))
  {
    hide Enqueue, S.Fail;
    SameLaneGains(p, p);
    var q := Queue(p, ResetWith(id, APPLICATION_ERROR, error));
    QueueOnly(p, ResetWith(id, APPLICATION_ERROR, error));
    FailOnly(q, id, APPLICATION_ERROR);
    OnlyTrans(p, q, FailStream(q, id, APPLICATION_ERROR), id);
    OnlyGainsNothing(p, FailStream(q, id, APPLICATION_ERROR), id);
  }

  // ------------------------------------------------------------ every run

  /** Where a frame belongs; a goaway belongs on the connection's lane. */
  function Addressed(): Law {
    (x: nat, f: Frame) => LaneOf(f) == x && (f.kind == GoawayFrame ==> x == 0)
  }

  lemma AddressedMeans(x: nat, f: Frame)
    ensures Addressed()(x, f) <==> LaneOf(f) == x && (f.kind == GoawayFrame ==> x == 0)
  {
  }

  lemma AddressedInherited(cap: nat, codec: Codec)
    ensures Inherited(Addressed(), cap, codec)
  {
    forall x, source | Addressed()(x, source)
      ensures PiecesObey(Addressed(), x, source)
    {
      AddressedMeans(x, source);
      forall chunk, first, last
        ensures Addressed()(x, FragmentFrame(source, chunk, first, last))
      {
        AddressedMeans(x, FragmentFrame(source, chunk, first, last));
      }
    }
  }

  ghost predicate Homed(w: Writer) { Obeys(Addressed(), w) }

  lemma ActHomed(p: Peer, a: Action, cfg: Config)
    requires Homed(p.writer)
    ensures Homed(Act(p, a, cfg).writer)
  {
    hide Act, Obeys, Inherited;
    AddressedInherited(cfg.cap, cfg.codec);
    if a.Open? {
      AddressedMeans(p.nextId, Bare(OpenFrame, Some(p.nextId)).(payload := Some(a.payload), headers := a.headers,
                                                                end := a.end));
    }
    ActHomedFrames(p);
    ActObeys(Addressed(), p, a, cfg);
  }

  lemma ActHomedFrames(p: Peer)
    requires Homed(p.writer)
    ensures Abides(Addressed(), p) && AllowsGoaway(Addressed(), p)
  {
    hide Obeys;
    forall f: Frame
      ensures Addressed()(LaneOf(f), f) <==> f.kind != GoawayFrame || LaneOf(f) == 0
    {
      AddressedMeans(LaneOf(f), f);
    }
    forall code
      ensures Addressed()(0, GoawayFrameOf(p, code))
    {
      AddressedMeans(0, GoawayFrameOf(p, code));
    }
  }

  /** The lane and the wire hold exactly what was said; on a dead connection the wire holds the front of it. */
  ghost predicate Told(e: End, talk: seq<Frame>) {
    var lane := LaneAt(e.peer.writer, 0);
    && Unsliced(lane) && Homed(e.peer.writer)
    && (forall i :: 0 <= i < |e.log| && e.log[i].kind == GoawayFrame ==> LaneOf(e.log[i]) == 0)
    && (if e.peer.isOpen then On(e.log, 0) + Coming(lane) == talk else On(e.log, 0) <= talk && Coming(lane) == [])
  }

  lemma GainsKeeps(p: Peer, p': Peer, more: seq<Frame>)
    requires Gains(p, p', more) && forall i :: 0 <= i < |more| ==> more[i].payload.None?
    requires Unsliced(LaneAt(p.writer, 0))
    ensures Unsliced(LaneAt(p'.writer, 0)) && Coming(LaneAt(p'.writer, 0)) == Coming(LaneAt(p.writer, 0)) + more
  {
    hide Rest;
  }

  lemma SpokenPlain(p: Peer, a: Action, p': Peer, seen: nat, cap: nat)
    ensures forall i :: 0 <= i < |Spoken(p, a, p', seen, cap)| ==> Spoken(p, a, p', seen, cap)[i].payload.None?
    ensures !p.isOpen ==> Spoken(p, a, p', seen, cap) == []
  {
  }

  lemma ActTold(e: End, a: Action, talk: seq<Frame>, cfg: Config)
    requires Sound(e.peer, cfg) && 0 < e.peer.nextId && Told(e, talk)
    requires !a.Take? && !a.Taken? && !a.SocketDies?
    ensures var e' := e.(peer := Act(e.peer, a, cfg));
            var seen := Largest(e.peer.highRemote, e.peer, a);
            e'.peer.highRemote == seen && Told(e', talk + Spoken(e.peer, a, e'.peer, seen, cfg.cap))
  {
    hide Act, Gains, Spoken, Unsliced, Coming, Homed, Largest;
    var p := e.peer;
    var p' := Act(p, a, cfg);
    ActHomed(p, a, cfg);
    if a.Read? { ReadHeeds(p, a.frame, a.size, cfg); ReadActs(p, a, cfg); } else { OwnHeeds(p, a, cfg); }
    var more := Spoken(p, a, p', Largest(p.highRemote, p, a), cfg.cap);
    SpokenPlain(p, a, p', Largest(p.highRemote, p, a), cfg.cap);
    GainsKeeps(p, p', more);
    if p.isOpen {
      assert On(e.log, 0) + (Coming(LaneAt(p.writer, 0)) + more) == (On(e.log, 0) + Coming(LaneAt(p.writer, 0))) + more;
    } else {
      assert talk + [] == talk;
    }
  }

  lemma ReadActs(p: Peer, a: Action, cfg: Config)
    requires a.Read?
    ensures Act(p, a, cfg) == Receive(p, a.frame, a.size, cfg)
  {
    hide Receive;
  }

  lemma DieTold(e: End, talk: seq<Frame>)
    requires Told(e, talk)
    ensures Told(e.(peer := Die(e.peer)), talk) && Die(e.peer).highRemote == e.peer.highRemote
  {
    hide FailAll;
    DieObeys(Addressed(), e.peer);
    EmptyIsUnsliced();
  }

  lemma EmptyIsUnsliced()
    ensures Unsliced(EMPTY_LANE) && Coming(EMPTY_LANE) == []
  {
  }

  /** The writer took a turn that failed a lane, or none. */
  lemma FailLaneTold(e: End, id: nat, unsent: bool, talk: seq<Frame>)
    requires Told(e, talk) && forall x :: x in e.peer.objects || x in e.peer.live ==> x != 0
    ensures Told(e.(peer := FailLane(e.peer, id, unsent)), talk)
    ensures FailLane(e.peer, id, unsent).highRemote == e.peer.highRemote
  {
    hide Unsliced, Coming, Homed, Die, FailStream, QueueReset, Only;
    DieTold(e, talk);
    var p := e.peer;
    if id in p.live && id in p.objects {
      var q := QueueReset(p, id, INTERNAL_ERROR);
      var p' := FailLane(p, id, unsent);
      FailOnly(p, id, INTERNAL_ERROR);
      QueueResetOnly(p, id, INTERNAL_ERROR);
      FailOnly(q, id, INTERNAL_ERROR);
      OnlyTrans(p, q, FailStream(q, id, INTERNAL_ERROR), id);
      OnlyGainsNothing(p, p', id);
      FailLaneHomed(p, id, unsent);
      GainsKeeps(p, p', []);
    }
  }

  lemma FailLaneHomed(p: Peer, id: nat, unsent: bool)
    requires Homed(p.writer)
    ensures Homed(FailLane(p, id, unsent).writer)
  {
    hide Obeys;
    ActHomedFrames(p);
    AfterTurnObeys(Addressed(), p, p.writer, Failed(id, unsent));
  }

  lemma TurnHomed(w: Writer, cap: nat, codec: Codec)
    requires Homed(w)
    ensures var (next, turn) := NextFrame(w, cap, codec);
            && Homed(next)
            && (turn.Sent? ==> LaneOf(turn.frame) == turn.id && (turn.frame.kind == GoawayFrame ==> turn.id == 0))
  {
    hide Obeys, NextFrame, Inherited;
    AddressedInherited(cap, codec);
    NextFrameObeys(Addressed(), w, cap, codec);
  }

  lemma AdvanceHomed(w: Writer, id: nat, cap: nat, codec: Codec)
    requires Homed(w)
    ensures Homed(Advance(w, id, cap, codec).0)
  {
    hide Obeys, Advance, Inherited;
    AddressedInherited(cap, codec);
    AdvanceObeys(Addressed(), w, id, cap, codec);
  }

  lemma TakeTold(e: End, talk: seq<Frame>, cfg: Config)
    requires Sound(e.peer, cfg) && Told(e, talk)
    ensures Told(Step(e, Take, cfg), talk) && Step(e, Take, cfg).peer.highRemote == e.peer.highRemote
  {
    hide Told, NextFrame, FailLane, Sound;
    if e.inFlight.None? {
      var (w, turn) := NextFrame(e.peer.writer, cfg.cap, cfg.codec);
      ToldTurn(e, talk, cfg);
      match turn
      case Nothing =>
      case Sent(x, f) =>
      case Failed(x, unsent) => FailedTold(e, w, x, unsent, talk, cfg);
    }
  }

  lemma ToldTurn(e: End, talk: seq<Frame>, cfg: Config)
    requires Told(e, talk) && e.inFlight.None?
    ensures var (w, turn) := NextFrame(e.peer.writer, cfg.cap, cfg.codec);
            && (turn.Nothing? ==> Told(e.(peer := e.peer.(writer := w)), talk))
            && (turn.Sent? ==> Told(End(e.peer.(writer := w), e.log + [turn.frame], Some(LaneOf(turn.frame)), e.said),
                                    talk))
            && (turn.Failed? ==> Dropped(e, w, turn.id))
  {
    hide Unsliced, Coming, Homed, NextFrame, On, LaneAt;
    NextMoved(e.peer.writer, cfg.cap, cfg.codec);
    TurnHomed(e.peer.writer, cfg.cap, cfg.codec);
    var (w, turn) := NextFrame(e.peer.writer, cfg.cap, cfg.codec);
    if turn.Sent? {
      LoggedTold(e, turn.id, turn.frame, w, talk);
    }
  }

  /** The writer lost lane `x`. */
  ghost predicate Dropped(e: End, w: Writer, x: nat) {
    && Unsliced(LaneAt(w, 0)) && Homed(w)
    && Coming(LaneAt(w, 0)) == if x == 0 then [] else Coming(LaneAt(e.peer.writer, 0))
  }

  lemma LoggedTold(e: End, x: nat, f: Frame, w: Writer, talk: seq<Frame>)
    requires Told(e, talk) && LaneOf(f) == x && (f.kind == GoawayFrame ==> x == 0)
    requires Unsliced(LaneAt(w, 0)) && Homed(w)
    requires if x == 0 then Coming(LaneAt(e.peer.writer, 0)) == [f] + Coming(LaneAt(w, 0))
             else Coming(LaneAt(w, 0)) == Coming(LaneAt(e.peer.writer, 0))
    ensures Told(End(e.peer.(writer := w), e.log + [f], Some(LaneOf(f)), e.said), talk)
  {
    hide Unsliced, Coming, Homed, On, LaneAt;
    OnAppend(e.log, [f], 0);
    OnOne(f, 0);
    if x == 0 {
      assert On(e.log, 0) + ([f] + Coming(LaneAt(w, 0))) == (On(e.log, 0) + [f]) + Coming(LaneAt(w, 0));
    } else {
      assert On(e.log, 0) + [] == On(e.log, 0);
    }
  }

  /** A lane that failed says nothing more; without the connection's own lane there is no connection. */
  lemma FailedTold(e: End, w: Writer, x: nat, unsent: bool, talk: seq<Frame>, cfg: Config)
    requires Sound(e.peer, cfg) && Told(e, talk) && Dropped(e, w, x)
    ensures var p := FailLane(e.peer.(writer := w), x, unsent);
            Told(e.(peer := p), talk) && p.highRemote == e.peer.highRemote
  {
    hide Unsliced, Coming, Homed, On, LaneAt, FailStream, QueueReset, FailAll;
    ObjectsAreNotZero(e.peer, cfg);
    var now := e.(peer := e.peer.(writer := w));
    if x == 0 {
      DiedTold(e, w, talk);
    } else {
      FailLaneTold(now, x, unsent, talk);
    }
  }

  lemma DiedTold(e: End, w: Writer, talk: seq<Frame>)
    requires Told(e, talk) && Dropped(e, w, 0)
    ensures var p := Die(e.peer.(writer := w));
            Told(e.(peer := p), talk) && p.highRemote == e.peer.highRemote
  {
    hide FailAll, On;
    DieObeys(Addressed(), e.peer.(writer := w));
    EmptyIsUnsliced();
  }

  lemma TakenTold(e: End, talk: seq<Frame>, cfg: Config)
    requires Sound(e.peer, cfg) && Told(e, talk)
    ensures var e' := Step(e, Taken(0), cfg);
            Told(e', talk) && e'.peer.highRemote == e.peer.highRemote
  {
    hide Told, Advance, FailLane, Sound;
    if e.inFlight.Some? {
      var id := e.inFlight.value;
      var (w, turn) := Advance(e.peer.writer, id, cfg.cap, cfg.codec);
      ToldAdvance(e, id, talk, cfg);
      if turn.Failed? { FailedTold(e, w, turn.id, turn.unsentOpen, talk, cfg); }
      FlightTold(e.(peer := Transmitted(e.peer, id, cfg)), talk);
    }
  }

  lemma ToldAdvance(e: End, id: nat, talk: seq<Frame>, cfg: Config)
    requires Told(e, talk)
    ensures var (w, turn) := Advance(e.peer.writer, id, cfg.cap, cfg.codec);
            && !turn.Sent?
            && (turn.Nothing? ==> Told(e.(peer := e.peer.(writer := w)), talk))
            && (turn.Failed? ==> Dropped(e, w, turn.id))
  {
    hide Unsliced, Coming, Homed, Advance, On, LaneAt;
    AdvanceMoved(e.peer.writer, id, cfg.cap, cfg.codec);
    AdvanceHomed(e.peer.writer, id, cfg.cap, cfg.codec);
  }

  lemma FlightTold(e: End, talk: seq<Frame>)
    requires Told(e, talk)
    ensures Told(e.(inFlight := None), talk)
  {
    hide Unsliced, Coming, Homed, On, LaneAt;
  }

  /** One step, whatever it is, adds to what was told what it says, and moves the mark as the remote's `open`s do. */
  lemma StepTold(e: End, a: Action, talk: seq<Frame>, cfg: Config)
    requires Sound(e.peer, cfg) && 0 < e.peer.nextId && Told(e, talk)
    ensures var e' := Step(e, a, cfg);
            var seen := Largest(e.peer.highRemote, e.peer, a);
            e'.peer.highRemote == seen && Told(e', talk + Spoken(e.peer, a, e'.peer, seen, cfg.cap))
  {
    hide Told, Act, Sound;
    assert talk + [] == talk;
    match a
    case Take => TakeTold(e, talk, cfg);
    case Taken(lane) => TakenTold(e, talk, cfg); assert Step(e, Taken(lane), cfg) == Step(e, Taken(0), cfg);
    case SocketDies => DieTold(e, talk); DiesActs(e.peer, cfg);
    case _ =>
      ActTold(e, a, talk, cfg);
      StepIsAct(e, a, cfg);
      SaidTold(e.(peer := Act(e.peer, a, cfg)), Step(e, a, cfg),
               talk + Spoken(e.peer, a, Act(e.peer, a, cfg), Largest(e.peer.highRemote, e.peer, a), cfg.cap));
  }

  lemma DiesActs(p: Peer, cfg: Config)
    ensures Act(p, SocketDies, cfg) == Die(p)
  {
    hide Die;
  }

  lemma SaidTold(e: End, e': End, talk: seq<Frame>)
    requires Told(e, talk) && e'.peer == e.peer && e'.log == e.log
    ensures Told(e', talk)
  {
    hide Unsliced, Coming, Homed, On, LaneAt;
  }

  lemma StepIsAct(e: End, a: Action, cfg: Config)
    requires !a.Take? && !a.Taken?
    ensures Step(e, a, cfg).peer == Act(e.peer, a, cfg) && Step(e, a, cfg).log == e.log
  {
    hide S.MaySend, MayOpen, Receive, Die, AppReset, HandlerError, SendGoaway, SendPing;
    hide Enqueue;
  }

  /** The largest of the remote's `open`s that the run read. */
  function LargestOpened(e: End, seen: nat, actions: seq<Action>, cfg: Config): nat
    decreases |actions|
  {
    if actions == [] then seen
    else LargestOpened(Step(e, actions[0], cfg), Largest(seen, e.peer, actions[0]), actions[1..], cfg)
  }

  lemma {:induction false} RunTold(e: End, actions: seq<Action>, talk: seq<Frame>, cfg: Config)
    requires Sound(e.peer, cfg) && Bounded(e.peer, cfg) && 0 < e.peer.nextId && Told(e, talk)
    ensures var end := StepAll(e, actions, cfg);
            && Told(end, talk + Talk(e, e.peer.highRemote, actions, cfg))
            && end.peer.highRemote == LargestOpened(e, e.peer.highRemote, actions, cfg)
    decreases |actions|
  {
    hide Sound, Bounded, Told, Step, Spoken, Largest;
    if actions == [] {
      assert talk + [] == talk;
    } else {
      var a, next := actions[0], Step(e, actions[0], cfg);
      var seen := Largest(e.peer.highRemote, e.peer, a);
      var more := Spoken(e.peer, a, next.peer, seen, cfg.cap);
      StepSound(e, a, cfg);
      StepCounts(e, a, cfg);
      StepTold(e, a, talk, cfg);
      RunTold(next, actions[1..], talk + more, cfg);
      assert (talk + more) + Talk(next, seen, actions[1..], cfg) == talk + (more + Talk(next, seen, actions[1..], cfg));
    }
  }

  lemma StepCounts(e: End, a: Action, cfg: Config)
    requires 0 < e.peer.nextId && Sound(e.peer, cfg) && Bounded(e.peer, cfg)
    ensures 0 < Step(e, a, cfg).peer.nextId
  {
    hide Sound, Bounded, Step, Act, MarksMove;
    StepActs(e, a, cfg);
    var opens := ActMarks(e.peer, a, cfg);
    if a.Taken? && e.inFlight.Some? { opens := ActMarks(e.peer, Taken(e.inFlight.value), cfg); }
  }

  lemma NewTold(dialer: bool, cfg: Config)
    ensures var e := NewEnd(dialer);
            Sound(e.peer, cfg) && Bounded(e.peer, cfg) && 0 < e.peer.nextId && e.peer.highRemote == 0 && Told(e, [])
  {
    NewPeerSound(dialer, cfg);
    EmptyIsUnsliced();
  }

  /** In every run of an end against any remote: what its wire carried on the connection's lane, and what still waits
      there, are the pings, pongs and goaways that its actions call for, in order; on a connection that died, the wire
      carried the front of them. */
  lemma ConnectionTalk(dialer: bool, actions: seq<Action>, cfg: Config)
    ensures var e := StepAll(NewEnd(dialer), actions, cfg);
            var talk := Talk(NewEnd(dialer), 0, actions, cfg);
            && On(e.log, 0) <= talk
            && (e.peer.isOpen ==> On(e.log, 0) + Coming(LaneAt(e.peer.writer, 0)) == talk)
  {
    hide Talk, StepAll, Coming, On, LaneAt;
    NewTold(dialer, cfg);
    RunTold(NewEnd(dialer), actions, [], cfg);
    assert [] + Talk(NewEnd(dialer), 0, actions, cfg) == Talk(NewEnd(dialer), 0, actions, cfg);
  }

  /** The remote's mark is, at every moment of every run, the largest of its `open`s that were read. */
  lemma MarkIsTheLargest(dialer: bool, actions: seq<Action>, cfg: Config)
    ensures StepAll(NewEnd(dialer), actions, cfg).peer.highRemote == LargestOpened(NewEnd(dialer), 0, actions, cfg)
  {
    hide Told;
    NewTold(dialer, cfg);
    RunTold(NewEnd(dialer), actions, [], cfg);
  }

  /** Whatever a run said on the connection's lane, some action of it called for. */
  lemma {:induction false} TalkHas(e: End, seen: nat, actions: seq<Action>, f: Frame, cfg: Config) returns (k: nat)
    requires f in Talk(e, seen, actions, cfg)
    ensures k < |actions|
    ensures var before := StepAll(e, actions[..k], cfg);
            f in Spoken(before.peer, actions[k], Step(before, actions[k], cfg).peer,
                        LargestOpened(e, seen, actions[..k + 1], cfg), cfg.cap)
    decreases |actions|
  {
    hide Step, Spoken, Largest;
    var next, more := Step(e, actions[0], cfg), Largest(seen, e.peer, actions[0]);
    if f in Spoken(e.peer, actions[0], next.peer, more, cfg.cap) {
      k := 0;
      assert actions[..1] == [actions[0]] && actions[..0] == [] && [actions[0]][1..] == [];
      assert LargestOpened(next, more, [], cfg) == more;
    } else {
      var j := TalkHas(next, more, actions[1..], f, cfg);
      k := j + 1;
      assert actions[1..][..j] == actions[..k][1..] && actions[1..][..j + 1] == actions[..k + 1][1..];
    }
  }

  lemma {:induction false} OnHas(log: seq<Frame>, i: nat)
    requires i < |log| && LaneOf(log[i]) == 0
    ensures log[i] in On(log, 0)
    decreases |log|
  {
    if i != 0 {
      OnHas(log[1..], i - 1);
    }
  }

  /** In every run, each goaway on the wire was called for by a `close` or by a message that failed the connection, and
      names the largest id among the remote's `open`s read up to then: 0 when there was none. */
  lemma GoawaysNameTheLargest(dialer: bool, actions: seq<Action>, i: nat, cfg: Config) returns (k: nat)
    requires i < |StepAll(NewEnd(dialer), actions, cfg).log|
    requires StepAll(NewEnd(dialer), actions, cfg).log[i].kind == GoawayFrame
    ensures k < |actions| && (actions[k].Goodbye? || actions[k].Read?)
    ensures StepAll(NewEnd(dialer), actions, cfg).log[i].lastStream
         == Some(LargestOpened(NewEnd(dialer), 0, actions[..k + 1], cfg))
  {
    hide Talk, StepAll, Coming, LaneAt, On, Homed, Unsliced, LargestOpened;
    var e := StepAll(NewEnd(dialer), actions, cfg);
    NewTold(dialer, cfg);
    RunTold(NewEnd(dialer), actions, [], cfg);
    assert [] + Talk(NewEnd(dialer), 0, actions, cfg) == Talk(NewEnd(dialer), 0, actions, cfg);
    OnHas(e.log, i);
    k := TalkHas(NewEnd(dialer), 0, actions, e.log[i], cfg);
  }
}
