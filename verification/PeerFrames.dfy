/** What a peer puts on its writer: a law about frames that its own opens and goaways obey, and that data,
    resets, pings and pongs obey anyway, is obeyed by every frame it sends. */
module PeerFrames {
  import opened Frames
  import opened WriterModel
  import opened WriterFrames
  import opened PeerModel
  import opened PeerInvariant
  import S = StreamModel
  import A = Assembly

  /** The law says nothing against a frame that opens no stream and ends no connection. */
  ghost predicate Mild(law: Law) {
    forall f: Frame ::
        f.kind == DataFrame || f.kind == ResetFrame || f.kind == PingFrame || f.kind == PongFrame ==> law(LaneOf(f), f)
  }

  ghost predicate AllowsGoaway(law: Law, p: Peer) {
    forall code :: law(0, GoawayFrameOf(p, code))
  }

  ghost predicate Abides(law: Law, p: Peer) {
    Mild(law) && Obeys(law, p.writer)
  }

  lemma ResetStreamObeys(law: Law, p: Peer, id: nat, code: int)
    requires Abides(law, p) && id in p.objects
    ensures Obeys(law, ResetStream(p, id, code).writer)
  {
    hide Obeys, Enqueue, Discard, S.Fail;
    DiscardObeys(law, p.writer, id);
    EnqueueObeys(law, Discard(p.writer, id), ResetWith(id, code, None));
  }

  lemma QueueGoawayObeys(law: Law, p: Peer, code: int)
    requires Abides(law, p) && AllowsGoaway(law, p)
    ensures Obeys(law, QueueGoaway(p, code).writer)
  {
    hide Obeys, Enqueue;
    EnqueueObeys(law, p.writer, GoawayFrameOf(p, code));
  }

  lemma DieObeys(law: Law, p: Peer)
    requires Obeys(law, p.writer)
    ensures Obeys(law, Die(p).writer)
  {
  }

  lemma AfterTurnObeys(law: Law, p: Peer, w: Writer, turn: Turn)
    requires Mild(law) && Obeys(law, w)
    ensures Obeys(law, AfterTurn(p, w, turn).0.writer)
  {
    hide Obeys, Enqueue, FailAll, S.Fail;
    var now := p.(writer := w);
    if turn.Failed? {
      DieObeys(law, now);
      EnqueueObeys(law, w, ResetWith(turn.id, INTERNAL_ERROR, None));
    }
  }

  lemma TransmitObeys(law: Law, p: Peer, cfg: Config)
    requires Abides(law, p) && Inherited(law, cfg.cap, cfg.codec)
    ensures var (q, sent) := Transmit(p, cfg);
            Obeys(law, q.writer) && (sent.Some? ==> exists x :: law(x, sent.value))
  {
    hide Obeys, NextFrame, FailLane, Inherited, Mild;
    NextFrameObeys(law, p.writer, cfg.cap, cfg.codec);
    var (w, turn) := NextFrame(p.writer, cfg.cap, cfg.codec);
    AfterTurnObeys(law, p, w, turn);
  }

  lemma TransmittedObeys(law: Law, p: Peer, id: nat, cfg: Config)
    requires Abides(law, p) && Inherited(law, cfg.cap, cfg.codec)
    ensures Obeys(law, Transmitted(p, id, cfg).writer)
  {
    hide Obeys, Advance, AfterTurn, Inherited, Mild;
    AdvanceObeys(law, p.writer, id, cfg.cap, cfg.codec);
    var (w, turn) := Advance(p.writer, id, cfg.cap, cfg.codec);
    AfterTurnObeys(law, p, w, turn);
  }

  // ------------------------------------------------------------ what it reads


  lemma UnmovedAbides(law: Law, p: Peer, q: Peer)
    requires Abides(law, p) && q.writer == p.writer
    ensures Abides(law, q)
  {
    hide Obeys;
  }

  lemma AbsorbObeys(law: Law, p: Peer, id: nat, f: Frame, cfg: Config)
    requires Abides(law, p) && id in p.objects && f.fragment.Some?
    ensures var (q, payload) := Absorb(p, id, f, cfg);
            Obeys(law, q.writer) && (payload.Some? ==> q.writer == p.writer)
  {
    hide Abides, Obeys, ResetStream, A.Feed;
    var s := p.objects[id];
    var partial := A.Feed(s.partial, f, cfg.codec).0;
    var dropped, fed := Put(p, id, s.(partial := A.NOTHING)), Put(p, id, s.(partial := partial));
    UnmovedAbides(law, p, dropped);
    UnmovedAbides(law, p, fed);
    AbidesObeys(law, p);
    AbidesObeys(law, fed);
    ResetStreamObeys(law, dropped, id, PAYLOAD_TOO_LARGE);
    ResetStreamObeys(law, fed, id, PROTOCOL_ERROR);
  }

  lemma AbidesObeys(law: Law, p: Peer)
    requires Abides(law, p)
    ensures Obeys(law, p.writer) && Mild(law)
  {
  }

  lemma StartHandlerObeys(law: Law, p: Peer, id: nat)
    requires Mild(law) && Obeys(law, p.writer) && id in p.objects
    ensures Obeys(law, StartHandler(p, id).writer)
  {
    hide Obeys, Enqueue, S.Fail;
    EnqueueObeys(law, p.writer, ResetWith(id, REFUSED, None));
  }

  lemma FeedOpeningObeys(law: Law, p: Peer, id: nat, f: Frame, later: bool, cfg: Config)
    requires Abides(law, p) && id in p.objects && f.fragment.Some?
    ensures Obeys(law, FeedOpening(p, id, f, later, cfg).writer)
  {
    hide Obeys, Abides, Absorb, StartHandler, Mild;
    AbsorbObeys(law, p, id, f, cfg);
    AbidesObeys(law, p);
    var (absorbed, payload) := Absorb(p, id, f, cfg);
    if payload.Some? && id in absorbed.objects {
      StartHandlerObeys(law, Put(absorbed, id, Completed(absorbed.objects[id], payload, later && f.end)), id);
    }
  }

  /** An `open` is admitted before anything is queued for it: the mark moves, and no goaway follows in that step. */
  lemma OnOpenObeys(law: Law, p: Peer, f: Frame, cfg: Config)
    requires Abides(law, p) && (OnOpen(p, f, cfg).goaway.sent ==> AllowsGoaway(law, p))
    ensures Obeys(law, OnOpen(p, f, cfg).writer)
  {
    hide Obeys, FeedOpening, StartHandler, Enqueue, RemoteLive, Mild, Admissible, ContinuesOpening, AllowsGoaway;
    if f.stream.Some? && ContinuesOpening(p, f) {
      ContinuesHas(p, f);
      FeedOpeningObeys(law, p, f.stream.value, f, true, cfg);
    } else if f.stream.Some? && Admissible(p, f.stream.value) {
      AdmittedObeys(law, p, f, cfg);
    } else {
      QueueGoawayObeys(law, p, PROTOCOL_ERROR);
    }
  }

  lemma AdmittedObeys(law: Law, p: Peer, f: Frame, cfg: Config)
    requires Abides(law, p) && f.stream.Some? && Admissible(p, f.stream.value) && !ContinuesOpening(p, f)
    ensures Obeys(law, OnOpen(p, f, cfg).writer)
  {
    hide Obeys, FeedOpening, StartHandler, Enqueue, RemoteLive, Mild, Admissible, ContinuesOpening;
    var id := f.stream.value;
    var admitted := p.(highRemote := id);
    AbidesAllows(law, p, ResetWith(id, REFUSED, None));
    EnqueueObeys(law, p.writer, ResetWith(id, REFUSED, None));
    var s := S.NewStream(id, false, if f.end then S.HalfClosedRemote else S.Open, f.headers, None);
    StartHandlerObeys(law, Create(admitted, s.(payload := Some(if f.payload.Some? then f.payload.value else Null))),
                      id);
    if f.fragment.Some? { NewOpeningObeys(law, p, id, s.(opening := true), f, cfg); }
  }

  lemma AbidesAllows(law: Law, p: Peer, f: Frame)
    requires Abides(law, p) && f.kind == ResetFrame
    ensures law(LaneOf(f), f)
  {
    hide Obeys;
  }

  lemma ContinuesHas(p: Peer, f: Frame)
    requires ContinuesOpening(p, f)
    ensures f.stream.Some? && f.stream.value in p.objects && f.fragment.Some?
  {
  }

  lemma NewOpeningObeys(law: Law, p: Peer, id: nat, s: S.Stream, f: Frame, cfg: Config)
    requires Mild(law) && Obeys(law, p.writer) && s.id == id && f.fragment.Some?
    ensures Obeys(law, FeedOpening(Create(p.(highRemote := id), s), id, f, false, cfg).writer)
  {
    hide Obeys, Mild, A.Feed, StartHandler, Enqueue, Discard, S.Fail;
    var q := Create(p.(highRemote := id), s);
    var (absorbed, payload) := Absorb(q, id, f, cfg);
    ResetQueuedObeys(law, p.writer, id, PAYLOAD_TOO_LARGE);
    ResetQueuedObeys(law, p.writer, id, PROTOCOL_ERROR);
    if payload.Some? && id in absorbed.objects {
      StartHandlerObeys(law, Put(absorbed, id, Completed(absorbed.objects[id], payload, false)), id);
    }
  }

  lemma ResetQueuedObeys(law: Law, w: Writer, id: nat, code: int)
    requires Mild(law) && Obeys(law, w)
    ensures Obeys(law, Enqueue(Discard(w, id), ResetWith(id, code, None)))
  {
    hide Obeys;
    DiscardObeys(law, w, id);
    EnqueueObeys(law, Discard(w, id), ResetWith(id, code, None));
  }

  lemma OnDataObeys(law: Law, p: Peer, id: nat, f: Frame, cfg: Config)
    requires Abides(law, p) && id in p.objects
    ensures Obeys(law, OnData(p, id, f, cfg).writer)
  {
    hide Obeys, Abides, ResetStream, Absorb, S.RemoteEnd, S.AcceptPayload;
    var q := Put(p, id, S.NoteRemoteFrame(p.objects[id], f.headers).0);
    UnmovedAbides(law, p, q);
    AbidesObeys(law, p);
    ResetStreamObeys(law, p, id, PROTOCOL_ERROR);
    ResetStreamObeys(law, q, id, PROTOCOL_ERROR);
    if f.fragment.Some? { AbsorbObeys(law, q, id, f, cfg); }
  }

  lemma OnStreamFrameObeys(law: Law, p: Peer, f: Frame, cfg: Config)
    requires Abides(law, p) && (OnStreamFrame(p, f, cfg).goaway.sent ==> AllowsGoaway(law, p))
    ensures Obeys(law, OnStreamFrame(p, f, cfg).writer)
  {
    hide Obeys, OnData, Enqueue, Discard, S.Fail;
    if AllowsGoaway(law, p) { QueueGoawayObeys(law, p, PROTOCOL_ERROR); }
    if f.stream.Some? && f.stream.value in p.objects {
      DiscardObeys(law, p.writer, f.stream.value);
      OnDataObeys(law, p, f.stream.value, f, cfg);
    }
  }

  lemma OverCapObeys(law: Law, p: Peer, f: Frame, cfg: Config)
    requires Abides(law, p) && (OverCap(p, f, cfg).goaway.sent ==> AllowsGoaway(law, p))
    ensures Obeys(law, OverCap(p, f, cfg).writer)
  {
    hide Obeys, OnStreamFrame, ResetStream, Enqueue, ContinuesOpening, Admissible, AllowsGoaway;
    if AllowsGoaway(law, p) { QueueGoawayObeys(law, p, PROTOCOL_ERROR); }
    if f.stream.Some? {
      var id := f.stream.value;
      if (id !in p.live || id !in p.objects)
          && (f.kind == DataFrame || f.kind == ResetFrame) { OnStreamFrameObeys(law, p, f, cfg); }
      EnqueueObeys(law, p.writer, ResetWith(id, PAYLOAD_TOO_LARGE, None));
      if id in p.objects { ResetStreamObeys(law, p, id, PAYLOAD_TOO_LARGE); }
    }
  }

  lemma ReceiveObeys(law: Law, p: Peer, f: Frame, size: nat, cfg: Config)
    requires Abides(law, p) && (Receive(p, f, size, cfg).goaway.sent ==> AllowsGoaway(law, p))
    ensures Obeys(law, Receive(p, f, size, cfg).writer)
  {
    hide Obeys, OnOpen, OnStreamFrame, OverCap, Enqueue, FailAll;
    if p.isOpen && !p.failed {
      if cfg.cap < size { OverCapObeys(law, p, f, cfg); }
      else if f.kind == OpenFrame { OnOpenObeys(law, p, f, cfg); }
      else if f.kind == DataFrame || f.kind == ResetFrame { OnStreamFrameObeys(law, p, f, cfg); }
    }
    EnqueueObeys(law, p.writer, Bare(PongFrame, None).(nonce := f.nonce));
  }

  /** What every action queues obeys, when an `open` it makes does. */
  lemma ActObeys(law: Law, p: Peer, a: Action, cfg: Config)
    requires Abides(law, p) && Inherited(law, cfg.cap, cfg.codec)
    requires Act(p, a, cfg).goaway.sent ==> AllowsGoaway(law, p)
    requires a.Open? && MayOpen(p) ==>
      law(p.nextId, Bare(OpenFrame, Some(p.nextId)).(payload := Some(a.payload), headers := a.headers, end := a.end))
    ensures Obeys(law, Act(p, a, cfg).writer)
  {
    hide Obeys, Inherited, Transmit, Transmitted, Receive, Die, Enqueue, Discard, S.Fail, S.MaySend;
    match a
    case Register =>
    case Open(payload, headers, end) =>
      if MayOpen(p) {
        EnqueueObeys(law, p.writer,
                     Bare(OpenFrame, Some(p.nextId)).(payload := Some(payload), headers := headers, end := end));
      }
    case Send(id, data, leading, last, trailers) =>
      EnqueueObeys(law, p.writer,
                   Bare(DataFrame, Some(id)).(payload := data, headers := leading, end := last, trailers := trailers));
    case Reset(id, code) =>
      ResetQueuedObeys(law, p.writer, id, code);
    case HandlerRaises(id, error) => EnqueueObeys(law, p.writer, ResetWith(id, APPLICATION_ERROR, error));
    case Goodbye(code) => if AllowsGoaway(law, p) { QueueGoawayObeys(law, p, code); }
    case Ping(nonce) => EnqueueObeys(law, p.writer, PingOf(nonce));
    case Take => TransmitObeys(law, p, cfg);
    case Taken(lane) => TransmittedObeys(law, p, lane, cfg);
    case Read(frame, size) => ReceiveObeys(law, p, frame, size, cfg);
    case SocketDies => DieObeys(law, p);
  }
}
