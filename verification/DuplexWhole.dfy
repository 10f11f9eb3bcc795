/** The condition an application can check beforehand: when every `open` fits one frame, no run of two
    peers fails a connection. */
module DuplexWhole {
  import opened Frames
  import opened Codecs
  import opened Assembly
  import opened WriterModel
  import opened WriterFrames
  import opened PeerModel
  import opened PeerInvariant
  import opened Ends
  import opened DuplexModel
  import opened DuplexMoves
  import opened DuplexLaws
  import L = SplitLaws
  import S = StreamModel

  // ------------------------------------------------------------ the writer cuts no `open`

  predicate Whole(f: Frame) {
    f.kind == OpenFrame ==> f.fragment.None?
  }

  /** A frame that, if it is an `open`, goes on the wire as it is. */
  predicate Uncut(f: Frame, cfg: Config) {
    f.kind == OpenFrame ==> f.fragment.None? && L.Fits(cfg.codec, f, cfg.cap)
  }

  function UncutLaw(cfg: Config): Law {
    (x: nat, f: Frame) => Uncut(f, cfg)
  }

  lemma UncutInherited(cfg: Config)
    ensures Inherited(UncutLaw(cfg), cfg.cap, cfg.codec)
  {
    hide L.Fits;
  }

  // ------------------------------------------------------------ a peer that meets whole opens only

  ghost predicate NoCut(p: Peer) {
    p.cut == {} && forall id :: id in p.objects ==> !p.objects[id].opening
  }

  ghost predicate WholePeer(p: Peer, cfg: Config) {
    Obeys(UncutLaw(cfg), p.writer) && NoCut(p)
  }

  lemma QueueWhole(p: Peer, f: Frame, cfg: Config)
    requires WholePeer(p, cfg) && Uncut(f, cfg)
    ensures WholePeer(Queue(p, f), cfg)
  {
    hide Obeys, Uncut;
    EnqueueObeys(UncutLaw(cfg), p.writer, f);
  }

  lemma PutWhole(p: Peer, id: nat, s: S.Stream, cfg: Config)
    requires WholePeer(p, cfg) && !s.opening
    ensures WholePeer(Put(p, id, s), cfg)
  {
    hide Obeys;
  }

  lemma FailStreamWhole(p: Peer, id: nat, code: int, cfg: Config)
    requires WholePeer(p, cfg) && id in p.objects
    ensures WholePeer(FailStream(p, id, code), cfg)
  {
    hide Obeys;
  }

  lemma ResetStreamWhole(p: Peer, id: nat, code: int, cfg: Config)
    requires WholePeer(p, cfg) && id in p.objects
    ensures WholePeer(ResetStream(p, id, code), cfg)
  {
    hide Obeys, NoCut, FailStream;
    DiscardObeys(UncutLaw(cfg), p.writer, id);
    assert WholePeer(p.(writer := Discard(p.writer, id)), cfg) by { CutAlone(p, p.(writer := Discard(p.writer, id))); }
    QueueWhole(p.(writer := Discard(p.writer, id)), ResetWith(id, code, None), cfg);
    FailStreamWhole(EnqueueReset(p, id, code), id, code, cfg);
  }

  lemma CutAlone(p: Peer, q: Peer)
    requires NoCut(p) && q.cut == p.cut && q.objects == p.objects
    ensures NoCut(q)
  {
  }

  lemma QueueGoawayWhole(p: Peer, code: int, cfg: Config)
    requires WholePeer(p, cfg)
    ensures WholePeer(QueueGoaway(p, code), cfg)
  {
    hide Obeys;
    EnqueueObeys(UncutLaw(cfg), p.writer, GoawayFrameOf(p, code));
  }

  lemma DieWhole(p: Peer, cfg: Config)
    requires WholePeer(p, cfg)
    ensures WholePeer(Die(p), cfg)
  {
  }

  lemma OpenWhole(p: Peer, payload: Value, headers: Option<Fields>, end: bool, cfg: Config)
    requires WholePeer(p, cfg) && SmallOpen(payload, headers, end, cfg)
    ensures WholePeer(OpenStream(p, payload, headers, end), cfg)
  {
    hide Obeys, L.Fits;
    if MayOpen(p) { EnqueueObeys(UncutLaw(cfg), p.writer, OpenOf(p.nextId, payload, headers, end)); }
  }

  lemma SendWhole(p: Peer, id: nat, payload: Option<Value>, headers: Option<Fields>, end: bool,
                  trailers: Option<Fields>, cfg: Config)
    requires WholePeer(p, cfg)
    ensures WholePeer(SendData(p, id, payload, headers, end, trailers), cfg)
  {
    hide WholePeer, Put, Queue, S.MaySend;
    if id in p.objects {
      var f := Bare(DataFrame, Some(id)).(payload := payload, headers := headers, end := end, trailers := trailers);
      var noted := S.NoteSent(p.objects[id], headers);
      QueueWhole(p, f, cfg);
      NotOpening(p, id, cfg);
      PutWhole(Queue(p, f), id, if end then S.LocalEnd(noted) else noted, cfg);
    }
  }

  lemma AppResetWhole(p: Peer, id: nat, code: int, cfg: Config)
    requires WholePeer(p, cfg)
    ensures WholePeer(AppReset(p, id, code), cfg)
  {
    hide WholePeer, Sendable;
    if id in p.objects {
      ResetStreamWhole(p, id, code, cfg);
      FailStreamWhole(p, id, code, cfg);
    }
  }

  lemma HandlerErrorWhole(p: Peer, id: nat, payload: Option<Value>, cfg: Config)
    requires WholePeer(p, cfg)
    ensures WholePeer(HandlerError(p, id, payload), cfg)
  {
    hide WholePeer, FailStream;
    if id in p.objects {
      var queued := Queue(p, ResetWith(id, APPLICATION_ERROR, payload));
      QueueWhole(p, ResetWith(id, APPLICATION_ERROR, payload), cfg);
      FailStreamWhole(queued, id, APPLICATION_ERROR, cfg);
    }
  }

  lemma WriterReplaced(p: Peer, w: Writer, cfg: Config)
    requires WholePeer(p, cfg) && Obeys(UncutLaw(cfg), w)
    ensures WholePeer(p.(writer := w), cfg)
  {
    hide Obeys;
  }

  lemma AfterTurnWhole(p: Peer, w: Writer, turn: Turn, cfg: Config)
    requires WholePeer(p, cfg) && Obeys(UncutLaw(cfg), w)
    ensures WholePeer(AfterTurn(p, w, turn).0, cfg)
  {
    hide WholePeer, FailStream, Die, QueueReset;
    var now := p.(writer := w);
    WriterReplaced(p, w, cfg);
    if turn.Failed? {
      DieWhole(now, cfg);
      if turn.id in now.objects {
        RefusedWhole(now, turn.id, INTERNAL_ERROR, cfg);
        FailStreamWhole(now, turn.id, INTERNAL_ERROR, cfg);
        FailStreamWhole(QueueReset(now, turn.id, INTERNAL_ERROR), turn.id, INTERNAL_ERROR, cfg);
      }
    }
  }

  lemma TransmitWhole(p: Peer, cfg: Config)
    requires WholePeer(p, cfg)
    ensures var (q, sent) := Transmit(p, cfg);
            WholePeer(q, cfg) && (sent.Some? ==> Whole(sent.value))
  {
    hide NextFrame, FailLane;
    UncutInherited(cfg);
    NextFrameObeys(UncutLaw(cfg), p.writer, cfg.cap, cfg.codec);
    var (w, turn) := NextFrame(p.writer, cfg.cap, cfg.codec);
    AfterTurnWhole(p, w, turn, cfg);
  }

  lemma TransmittedWhole(p: Peer, id: nat, cfg: Config)
    requires WholePeer(p, cfg)
    ensures WholePeer(Transmitted(p, id, cfg), cfg)
  {
    hide Advance, Obeys, NoCut, AfterTurn;
    UncutInherited(cfg);
    AdvanceObeys(UncutLaw(cfg), p.writer, id, cfg.cap, cfg.codec);
    var (w, turn) := Advance(p.writer, id, cfg.cap, cfg.codec);
    AfterTurnWhole(p, w, turn, cfg);
  }

  // ------------------------------------------------------------ what it reads

  lemma StartHandlerWhole(p: Peer, id: nat, cfg: Config)
    requires WholePeer(p, cfg) && id in p.objects
    ensures WholePeer(StartHandler(p, id), cfg)
  {
    hide WholePeer, FailStream, Put;
    if p.goaway.sent || !p.handler {
      var q := QueueReset(p, id, REFUSED);
      QueueWhole(p, ResetWith(id, REFUSED, None), cfg);
      FailStreamWhole(q, id, REFUSED, cfg);
    } else {
      NotOpening(p, id, cfg);
      PutWhole(p, id, p.objects[id].(started := true), cfg);
    }
  }

  lemma NotOpening(p: Peer, id: nat, cfg: Config)
    requires WholePeer(p, cfg) && id in p.objects
    ensures !p.objects[id].opening
  {
  }

  lemma CreateWhole(p: Peer, s: S.Stream, id: nat, cfg: Config)
    requires WholePeer(p, cfg) && !s.opening
    ensures WholePeer(Create(p.(highRemote := id), s), cfg)
  {
    hide Obeys;
  }

  lemma RefusedWhole(p: Peer, id: nat, code: int, cfg: Config)
    requires WholePeer(p, cfg)
    ensures WholePeer(QueueReset(p, id, code), cfg)
    ensures WholePeer(QueueReset(p.(highRemote := id), id, code), cfg)
    ensures QueueReset(p, id, code).objects == p.objects
    ensures QueueReset(p.(highRemote := id), id, code).cut == p.cut
  {
    hide Obeys;
    EnqueueObeys(UncutLaw(cfg), p.writer, ResetWith(id, code, None));
  }

  lemma FailConnectionWhole(p: Peer, cfg: Config)
    requires WholePeer(p, cfg)
    ensures WholePeer(FailConnection(p), cfg)
  {
    hide Obeys, QueueGoaway;
    QueueGoawayWhole(p, PROTOCOL_ERROR, cfg);
  }

  lemma OnOpenWhole(p: Peer, f: Frame, cfg: Config)
    requires WholePeer(p, cfg) && f.kind == OpenFrame && Whole(f)
    ensures WholePeer(OnOpen(p, f, cfg), cfg)
  {
    hide WholePeer, FailConnection, StartHandler, RemoteLive, Create, QueueReset, FeedOpening;
    FailConnectionWhole(p, cfg);
    if f.stream.Some? {
      var id := f.stream.value;
      RefusedWhole(p, id, REFUSED, cfg);
      UncutPeer(QueueReset(p.(highRemote := id), id, REFUSED), cfg);
      var s := S.NewStream(id, false, if f.end then S.HalfClosedRemote else S.Open, f.headers, None)
                .(payload := Some(if f.payload.Some? then f.payload.value else Null));
      CreateWhole(p, s, id, cfg);
      CreatedHas(p.(highRemote := id), s);
      StartHandlerWhole(Create(p.(highRemote := id), s), id, cfg);
    }
  }

  lemma UncutPeer(p: Peer, cfg: Config)
    requires WholePeer(p, cfg)
    ensures p.(cut := p.cut) == p
  {
  }

  lemma CreatedHas(p: Peer, s: S.Stream)
    ensures s.id in Create(p, s).objects
  {
  }

  lemma AbsorbWhole(p: Peer, id: nat, f: Frame, cfg: Config)
    requires WholePeer(p, cfg) && id in p.objects && f.fragment.Some?
    ensures WholePeer(Absorb(p, id, f, cfg).0, cfg)
  {
    hide WholePeer, ResetStream, Feed;
    NotOpening(p, id, cfg);
    var s := p.objects[id];
    var partial := Feed(s.partial, f, cfg.codec).0;
    PutWhole(p, id, s.(partial := NOTHING), cfg);
    PutWhole(p, id, s.(partial := partial), cfg);
    ResetStreamWhole(Put(p, id, s.(partial := NOTHING)), id, PAYLOAD_TOO_LARGE, cfg);
    ResetStreamWhole(Put(p, id, s.(partial := partial)), id, PROTOCOL_ERROR, cfg);
  }

  lemma DeliverWhole(p: Peer, id: nat, payload: Option<Value>, f: Frame, cfg: Config)
    requires WholePeer(p, cfg) && id in p.objects
    ensures WholePeer(PeerModel.Deliver(p, id, payload, f), cfg)
  {
    hide WholePeer, Put;
    NotOpening(p, id, cfg);
    var s := p.objects[id];
    var accepted := if payload.Some? then S.AcceptPayload(s, payload.value) else s;
    PutWhole(p, id, if f.end then S.RemoteEnd(accepted, f.trailers) else accepted, cfg);
  }

  lemma OnDataWhole(p: Peer, id: nat, f: Frame, cfg: Config)
    requires WholePeer(p, cfg) && id in p.objects
    ensures WholePeer(OnData(p, id, f, cfg), cfg)
  {
    hide WholePeer, ResetStream, Absorb, PeerModel.Deliver;
    NotOpening(p, id, cfg);
    var (noted, allowed) := S.NoteRemoteFrame(p.objects[id], f.headers);
    var q := Put(p, id, noted);
    PutWhole(p, id, noted, cfg);
    ResetStreamWhole(p, id, PROTOCOL_ERROR, cfg);
    ResetStreamWhole(q, id, PROTOCOL_ERROR, cfg);
    DeliverWhole(q, id, f.payload, f, cfg);
    if f.fragment.Some? {
      AbsorbWhole(q, id, f, cfg);
      var (absorbed, payload) := Absorb(q, id, f, cfg);
      if id in absorbed.objects { DeliverWhole(absorbed, id, payload, f, cfg); }
    }
  }

  lemma OnStreamFrameWhole(p: Peer, f: Frame, cfg: Config)
    requires WholePeer(p, cfg)
    ensures WholePeer(OnStreamFrame(p, f, cfg), cfg)
  {
    hide WholePeer, FailConnection, FailStream, OnData, Discard;
    FailConnectionWhole(p, cfg);
    IgnoredWhole(p, cfg);
    if f.stream.Some? && f.stream.value in p.objects {
      var id := f.stream.value;
      OnDataWhole(p, id, f, cfg);
      DiscardedWhole(p, id, cfg);
      FailStreamWhole(p.(writer := Discard(p.writer, id)), id, if f.code.Some? then f.code.value else 0, cfg);
    }
  }

  lemma IgnoredWhole(p: Peer, cfg: Config)
    requires WholePeer(p, cfg)
    ensures WholePeer(p.(ignoredLate := p.ignoredLate + 1), cfg)
  {
    hide Obeys;
  }

  lemma DiscardedWhole(p: Peer, id: nat, cfg: Config)
    requires WholePeer(p, cfg)
    ensures WholePeer(p.(writer := Discard(p.writer, id)), cfg)
  {
    hide Obeys;
    DiscardObeys(UncutLaw(cfg), p.writer, id);
  }

  lemma OnGoawayWhole(p: Peer, f: Frame, cfg: Config)
    requires WholePeer(p, cfg)
    ensures WholePeer(OnGoaway(p, f), cfg)
  {
    hide Obeys;
  }

  lemma OverCapWhole(p: Peer, f: Frame, cfg: Config)
    requires WholePeer(p, cfg) && Whole(f)
    ensures WholePeer(OverCap(p, f, cfg), cfg)
  {
    hide WholePeer, FailConnection, ResetStream, OnStreamFrame, QueueReset, ContinuesOpening;
    FailConnectionWhole(p, cfg);
    OnStreamFrameWhole(p, f, cfg);
    if f.stream.Some? {
      var id := f.stream.value;
      RefusedWhole(p, id, PAYLOAD_TOO_LARGE, cfg);
      UncutPeer(QueueReset(p.(highRemote := id), id, PAYLOAD_TOO_LARGE), cfg);
      if id in p.objects { ResetStreamWhole(p, id, PAYLOAD_TOO_LARGE, cfg); }
    }
  }

  lemma ReceiveWhole(p: Peer, f: Frame, size: nat, cfg: Config)
    requires WholePeer(p, cfg) && Whole(f)
    ensures WholePeer(Receive(p, f, size, cfg), cfg)
  {
    hide WholePeer, OnOpen, OnStreamFrame, OnGoaway, OverCap, Queue;
    OverCapWhole(p, f, cfg);
    if f.kind == OpenFrame { OnOpenWhole(p, f, cfg); }
    OnStreamFrameWhole(p, f, cfg);
    OnGoawayWhole(p, f, cfg);
    QueueWhole(p, Bare(PongFrame, None).(nonce := f.nonce), cfg);
  }

  // ------------------------------------------------------------ every run

  /** An `open` that fits one frame, whatever id it is given. */
  ghost predicate SmallOpen(payload: Value, headers: Option<Fields>, end: bool, cfg: Config) {
    forall id: nat :: id <= MAX_STREAM_ID ==> L.Fits(cfg.codec, OpenOf(id, payload, headers, end), cfg.cap)
  }

  ghost predicate SmallAction(a: Action, cfg: Config) {
    a.Open? ==> SmallOpen(a.payload, a.headers, a.end, cfg)
  }

  ghost predicate SmallEvent(e: Event, ca: Config, cb: Config) {
    match e
    case AtA(m) => m.Do? ==> SmallAction(m.action, ca)
    case AtB(m) => m.Do? ==> SmallAction(m.action, cb)
  }

  ghost predicate WholeEnd(e: End, cfg: Config) {
    WholePeer(e.peer, cfg) && forall i :: 0 <= i < |e.log| ==> Whole(e.log[i])
  }

  lemma StepWhole(e: End, a: Action, cfg: Config)
    requires WholeEnd(e, cfg) && SmallAction(a, cfg) && !a.Read?
    ensures WholeEnd(Step(e, a, cfg), cfg)
  {
    hide WholePeer, OpenStream, SendData, AppReset, HandlerError, SendGoaway, Transmit, Transmitted, Die, SmallOpen,
      Whole;
    match a
    case Register => RegisterWhole(e.peer, cfg);
    case Open(payload, headers, end) => OpenWhole(e.peer, payload, headers, end, cfg);
    case Send(id, data, leading, last, trailers) => SendWhole(e.peer, id, data, leading, last, trailers, cfg);
    case Reset(id, code) => AppResetWhole(e.peer, id, code, cfg);
    case HandlerRaises(id, error) => HandlerErrorWhole(e.peer, id, error, cfg);
    case Goodbye(code) => GoodbyeWhole(e.peer, code, cfg);
    case Ping(nonce) => QueueWhole(e.peer, PingOf(nonce), cfg);
    case Take => TakeWhole(e, cfg);
    case Taken(lane) => if e.inFlight.Some? { TransmittedWhole(e.peer, e.inFlight.value, cfg); }
    case SocketDies => DieWhole(e.peer, cfg);
  }

  lemma TakeWhole(e: End, cfg: Config)
    requires WholeEnd(e, cfg)
    ensures WholeEnd(Step(e, Take, cfg), cfg)
  {
    hide WholePeer, Transmit, Whole;
    TransmitWhole(e.peer, cfg);
    var (q, sent) := Transmit(e.peer, cfg);
    var e' := Step(e, Take, cfg);
    forall i | 0 <= i < |e'.log|
      ensures Whole(e'.log[i])
    {
      if i < |e.log| { assert e'.log[i] == e.log[i]; }
    }
  }

  lemma RegisterWhole(p: Peer, cfg: Config)
    requires WholePeer(p, cfg)
    ensures WholePeer(p.(handler := true), cfg)
  {
    hide Obeys;
  }

  lemma GoodbyeWhole(p: Peer, code: int, cfg: Config)
    requires WholePeer(p, cfg)
    ensures WholePeer(SendGoaway(p, code), cfg)
  {
    hide WholePeer, QueueGoaway;
    QueueGoawayWhole(p, code, cfg);
  }

  ghost predicate WholeDuplex(d: Duplex) {
    WholeEnd(d.a, d.ca) && WholeEnd(d.b, d.cb)
  }

  lemma MoveWhole(d: Duplex, m: Move)
    requires WholeDuplex(d) && (m.Do? ==> SmallAction(m.action, d.ca))
    ensures WholeDuplex(MoveA(d, m))
  {
    hide WholePeer, Step, SmallAction, Whole, Receive;
    match m
    case Deliver =>
      if CanRead(d) {
        var f := d.b.log[d.rb];
        ReceiveWhole(d.a.peer, f, SizeOf(d.cb.codec, f), d.ca);
      }
    case Do(action) => if !action.Read? { StepWhole(d.a, action, d.ca); }
  }

  lemma {:induction false} RunWhole(d: Duplex, events: seq<Event>)
    requires WholeDuplex(d) && forall e :: e in events ==> SmallEvent(e, d.ca, d.cb)
    ensures WholeDuplex(Run(d, events))
    decreases |events|
  {
    hide WholeEnd, SmallAction, MoveA;
    if events != [] {
      var e := events[0];
      assert e in events;
      match e {
        case AtA(m) => MoveWhole(d, m); SameConfigs(d, m);
        case AtB(m) => MoveWhole(Flip(d), m); SameConfigs(Flip(d), m);
      }
      RunWhole(Happen(d, e), events[1..]);
    }
  }

  lemma SameConfigs(d: Duplex, m: Move)
    ensures MoveA(d, m).ca == d.ca && MoveA(d, m).cb == d.cb
  {
    hide Step, Receive;
  }

  /** Two peers that share a codec and a cap, and whose applications open streams only with payloads that
      fit one frame, never drive each other into a connection-level error: in any run, with any refusals,
      resets, cancels and goaways. */
  lemma WholeOpensNeverFail(ca: Config, cb: Config, events: seq<Event>)
    requires ca.codec == cb.codec && ca.cap == cb.cap && Lawful(ca.codec)
    requires forall e :: e in events ==> SmallEvent(e, ca, cb)
    ensures !Run(DuplexModel.Start(ca, cb), events).a.peer.failed
      && !Run(DuplexModel.Start(ca, cb), events).b.peer.failed
  {
    hide Run, SmallEvent, Lawful;
    var d := DuplexModel.Start(ca, cb);
    forall k: nat
      ensures !DeliversCutOpening(d, events, k)
    {
      if k < |events| {
        RunWhole(d, events[..k]);
      }
    }
    PeersDoNotFailEachOther(ca, cb, events);
  }
}
