/** One end of a connection, as functions of its state.  A step is the code between two suspension
    points; a function that the source lets fail the connection sets `failed`, after which the read loop
    reads no more.  The object in PeerObject.dfy is proved against these functions. */
module PeerModel {
  import opened Frames
  import opened Codecs
  import opened Assembly
  import opened WriterModel
  import S = StreamModel

  const MAX_STREAM_ID: nat := 0x7FFF_FFFF

  datatype Config = Config(codec: Codec, cap: nat, maxPayload: nat, maxStreams: nat)

  /** `sentLast` is the `last_stream` of the first goaway this peer enqueued. */
  datatype Goaway = Goaway(sent: bool, received: bool, remoteLast: Option<nat>, sentLast: Option<nat>)

  /** The remote's farewell, if one came, leaves this peer's stream `id` running. */
  predicate SurvivesDrain(g: Goaway, id: nat) {
    g.remoteLast.None? || id <= g.remoteLast.value
  }

  /** `objects` are the stream objects ever created on this socket, `live` the keys of the live map.
      `cut` remembers, for the specification only, the streams this peer refused or closed while their
      opening payload was incomplete. */
  datatype Peer = Peer(
    dialer: bool,
    nextId: nat,
    highLocal: nat,
    highRemote: nat,
    objects: map<nat, S.Stream>,
    live: set<nat>,
    cut: set<nat>,
    goaway: Goaway,
    writer: Writer,
    handler: bool,
    isOpen: bool,
    failed: bool,
    ignoredLate: nat)

  function NewPeer(dialer: bool): Peer {
    Peer(dialer, if dialer then 1 else 2, 0, 0, map[], {}, {}, Goaway(false, false, None, None), NEW_WRITER,
         false, true, false, 0)
  }

  function OwnParity(dialer: bool): nat { if dialer then 1 else 0 }

  predicate IsOurs(p: Peer, id: nat) { id % 2 == OwnParity(p.dialer) }

  // ------------------------------------------------------------ small steps

  function Queue(p: Peer, frame: Frame): Peer {
    p.(writer := Enqueue(p.writer, frame))
  }

  function ResetWith(id: nat, code: int, payload: Option<Value>): Frame {
    Bare(ResetFrame, Some(id)).(code := Some(code), payload := payload)
  }

  function QueueReset(p: Peer, id: nat, code: int): Peer {
    Queue(p, ResetWith(id, code, None))
  }

  /** Nothing else of the stream goes out any more, save an `open` that has not begun to. */
  function EnqueueReset(p: Peer, id: nat, code: int): Peer {
    QueueReset(p.(writer := Discard(p.writer, id)), id, code)
  }

  /** Write a stream back; a closed one leaves the live map. */
  function Put(p: Peer, id: nat, s: S.Stream): Peer {
    p.(objects := p.objects[id := s], live := if s.state == S.Closed then p.live - {id} else p.live)
  }

  function FailStream(p: Peer, id: nat, code: int): Peer
    requires id in p.objects
  {
    Put(p, id, S.Fail(p.objects[id], code)).(cut := if p.objects[id].opening then p.cut + {id} else p.cut)
  }

  function ResetStream(p: Peer, id: nat, code: int): Peer
    requires id in p.objects
  {
    FailStream(EnqueueReset(p, id, code), id, code)
  }

  function GoawayFrameOf(p: Peer, code: int): Frame {
    Bare(GoawayFrame, None).(code := Some(code), lastStream := Some(p.highRemote))
  }

  /** `goaway`, recorded as sent before it is queued. */
  function QueueGoaway(p: Peer, code: int): Peer {
    Queue(p.(goaway := p.goaway.(sent := true,
                                 sentLast := if p.goaway.sentLast.Some? then p.goaway.sentLast
                                     else Some(p.highRemote))),
          GoawayFrameOf(p, code))
  }

  /** The farewell names no new id: `highRemote` stays, and the read loop stops. */
  function FailConnection(p: Peer): Peer {
    QueueGoaway(p, PROTOCOL_ERROR).(failed := true)
  }

  function FailAll(objects: map<nat, S.Stream>, doomed: set<nat>, code: int): map<nat, S.Stream> {
    map id | id in objects :: if id in doomed then S.Fail(objects[id], code) else objects[id]
  }

  /** Socket death. */
  function Die(p: Peer): Peer {
    if !p.isOpen then p
    else
      p.(isOpen := false, writer := DiscardAll(p.writer),
         objects := FailAll(p.objects, p.live, CONNECTION_CLOSED), live := {})
  }

  // ------------------------------------------------------------ the application

  predicate MayOpen(p: Peer) {
    p.isOpen && !p.goaway.received && !p.goaway.sent && p.nextId <= MAX_STREAM_ID
  }

  /** One step, so no other frame can come between an id and its `open`. */
  function OpenStream(p: Peer, payload: Value, headers: Option<Fields>, end: bool): Peer {
    if !MayOpen(p) then p
    else
      var id := p.nextId;
      var s := S.NewStream(id, true, if end then S.HalfClosedLocal else S.Open, headers, Some(payload));
      Queue(Create(p.(nextId := id + 2, highLocal := id), s),
            Bare(OpenFrame, Some(id)).(payload := Some(payload), headers := headers, end := end))
  }

  /** The four calls that send; a refused one leaves the peer as it was. */
  function SendData(p: Peer, id: nat, payload: Option<Value>, headers: Option<Fields>, end: bool,
                    trailers: Option<Fields>): Peer {
    if id !in p.objects || !S.MaySend(p.objects[id], headers) then p
    else
      var noted := S.NoteSent(p.objects[id], headers);
      var queued := Queue(p,
                          Bare(DataFrame, Some(id)).(payload := payload, headers := headers, end := end,
                                                     trailers := trailers));
      Put(queued, id, if end then S.LocalEnd(noted) else noted)
  }

  /** `Stream.reset` and `Stream.cancel`. */
  function AppReset(p: Peer, id: nat, code: int): Peer {
    if id !in p.objects || !Sendable(code) || p.objects[id].state == S.Closed then p
    else FailStream(if p.isOpen then EnqueueReset(p, id, code) else p, id, code)
  }

  /** The handler raised: one reset behind whatever it sent before. */
  function HandlerError(p: Peer, id: nat, payload: Option<Value>): Peer {
    if id !in p.objects || p.objects[id].state == S.Closed then p
    else FailStream(Queue(p, ResetWith(id, APPLICATION_ERROR, payload)), id, APPLICATION_ERROR)
  }

  /** `close()`, up to its drain. */
  function SendGoaway(p: Peer, code: int): Peer {
    if !p.isOpen || p.goaway.sent then p else QueueGoaway(p, code)
  }

  /** `ping()` on an open peer. */
  function SendPing(p: Peer, nonce: Text): Peer {
    if !p.isOpen then p else Queue(p, PingOf(nonce))
  }

  function PingOf(nonce: Text): Frame {
    Bare(PingFrame, None).(nonce := Some(nonce))
  }

  // ------------------------------------------------------------ the write loop

  /** The stream of a lane that failed is closed; a lane without a live stream takes the connection down. */
  function FailLane(p: Peer, id: nat, unsentOpen: bool): Peer {
    if id !in p.live || id !in p.objects then Die(p)
    else FailStream(if unsentOpen then p else QueueReset(p, id, INTERNAL_ERROR), id, INTERNAL_ERROR)
  }

  /** What the write loop does with a turn: the peer after it, and the frame put on the wire. */
  function AfterTurn(p: Peer, w: Writer, turn: Turn): (Peer, Option<Frame>) {
    var now := p.(writer := w);
    match turn
    case Nothing => (now, None)
    case Sent(_, frame) => (now, Some(frame))
    case Failed(id, unsentOpen) => (FailLane(now, id, unsentOpen), None)
  }

  /** A turn of the writer, up to the socket. */
  function Transmit(p: Peer, cfg: Config): (Peer, Option<Frame>) {
    var (w, turn) := NextFrame(p.writer, cfg.cap, cfg.codec);
    AfterTurn(p, w, turn)
  }

  /** Between two frames of a lane the socket has taken the first. */
  function Transmitted(p: Peer, id: nat, cfg: Config): Peer {
    var (w, turn) := Advance(p.writer, id, cfg.cap, cfg.codec);
    AfterTurn(p, w, turn).0
  }

  // ------------------------------------------------------------ inbound

  /** The remote's parity, and above every id it opened. */
  predicate Admissible(p: Peer, id: nat) {
    !IsOurs(p, id) && p.highRemote < id
  }

  predicate ContinuesOpening(p: Peer, frame: Frame) {
    && frame.stream.Some?
    && frame.stream.value in p.live && frame.stream.value in p.objects
    && p.objects[frame.stream.value].opening
    && frame.fragment.Some?
  }

  function RemoteLive(p: Peer): set<nat> {
    set id | id in p.live && id in p.objects && !p.objects[id].local
  }

  function WithinPayloadCap(s: S.Stream, chunk: Chunk, cfg: Config): bool {
    s.partial.bytes + |chunk.bytes| <= cfg.maxPayload
  }

  /** One fragment measured and fed: the peer after it, and the payload it completed. */
  function Absorb(p: Peer, id: nat, frame: Frame, cfg: Config): (Peer, Option<Value>)
    requires id in p.objects && frame.fragment.Some?
  {
    var s := p.objects[id];
    if !WithinPayloadCap(s, frame.fragment.value, cfg) then
      (ResetStream(Put(p, id, s.(partial := NOTHING)), id, PAYLOAD_TOO_LARGE), None)
    else
      var (partial, fed) := Feed(s.partial, frame, cfg.codec);
      var fedPeer := Put(p, id, s.(partial := partial));
      match fed
      case Pending => (fedPeer, None)
      case Decoded(v) => (fedPeer, Some(v))
      case Malformed => (ResetStream(fedPeer, id, PROTOCOL_ERROR), None)
  }

  /** Dispatch to the handler, or refuse. */
  function StartHandler(p: Peer, id: nat): Peer
    requires id in p.objects
  {
    if p.goaway.sent || !p.handler then FailStream(QueueReset(p, id, REFUSED), id, REFUSED)
    else Put(p, id, p.objects[id].(started := true))
  }

  /** The opening payload is whole; a later fragment may also carry the remote's end. */
  function Completed(s: S.Stream, payload: Option<Value>, ended: bool): S.Stream {
    s.(opening := false, payload := payload, state := if ended then S.HalfClosedRemote else s.state)
  }

  /** The stream is handed to the handler only when its opening payload is whole. */
  function FeedOpening(p: Peer, id: nat, frame: Frame, later: bool, cfg: Config): Peer
    requires id in p.objects && frame.fragment.Some?
  {
    var (absorbed, payload) := Absorb(p, id, frame, cfg);
    if payload.None? || id !in absorbed.objects then absorbed
    else
      StartHandler(Put(absorbed, id, Completed(absorbed.objects[id], payload, later && frame.end)), id)
  }

  /** A new stream enters the live map. */
  function Create(p: Peer, s: S.Stream): Peer {
    p.(objects := p.objects[s.id := s], live := p.live + {s.id})
  }

  function OnOpen(p: Peer, frame: Frame, cfg: Config): Peer {
    if frame.stream.None? then FailConnection(p)
    else if ContinuesOpening(p, frame) then FeedOpening(p, frame.stream.value, frame, true, cfg)
    else if !Admissible(p, frame.stream.value) then FailConnection(p)
    else
      var id := frame.stream.value;
      var admitted := p.(highRemote := id);
      if cfg.maxStreams <= |RemoteLive(p)| then
        QueueReset(admitted, id, REFUSED).(cut := if frame.fragment.Some? && frame.more then p.cut + {id} else p.cut)
      else
        var s := S.NewStream(id, false, if frame.end then S.HalfClosedRemote else S.Open, frame.headers, None);
        if frame.fragment.Some? then FeedOpening(Create(admitted, s.(opening := true)), id, frame, false, cfg)
        else StartHandler(Create(admitted,
                                 s.(payload := Some(if frame.payload.Some? then frame.payload.value else Null))), id)
  }

  function OnStreamFrame(p: Peer, frame: Frame, cfg: Config): Peer {
    if frame.stream.None? then FailConnection(p)
    else
      var id := frame.stream.value;
      if id !in p.live || id !in p.objects then
        if (if IsOurs(p, id) then p.highLocal else p.highRemote) < id then FailConnection(p)
        else p.(ignoredLate := p.ignoredLate + 1)
      else if frame.kind == ResetFrame then
        FailStream(p.(writer := Discard(p.writer, id)), id, if frame.code.Some? then frame.code.value else 0)
      else OnData(p, id, frame, cfg)
  }

  function OnData(p: Peer, id: nat, frame: Frame, cfg: Config): Peer
    requires id in p.objects
  {
    var s := p.objects[id];
    if s.state == S.HalfClosedRemote || s.state == S.Closed then ResetStream(p, id, PROTOCOL_ERROR)
    else
      var (noted, allowed) := S.NoteRemoteFrame(s, frame.headers);
      var q := Put(p, id, noted);
      if !allowed then ResetStream(q, id, PROTOCOL_ERROR)
      else if noted.partial.parts != [] && frame.fragment.None? then ResetStream(q, id, PROTOCOL_ERROR)
      else if frame.fragment.Some? then
        var (absorbed, payload) := Absorb(q, id, frame, cfg);
        if payload.None? || id !in absorbed.objects then absorbed
        else Deliver(absorbed, id, payload, frame)
      else Deliver(q, id, frame.payload, frame)
  }

  /** Hand a payload to the consumer, then note the remote's end. */
  function Deliver(p: Peer, id: nat, payload: Option<Value>, frame: Frame): Peer
    requires id in p.objects
  {
    var s := p.objects[id];
    var accepted := if payload.Some? then S.AcceptPayload(s, payload.value) else s;
    Put(p, id, if frame.end then S.RemoteEnd(accepted, frame.trailers) else accepted)
  }

  /** The local streams the remote will not process. */
  function Unprocessed(p: Peer): set<nat> {
    set id | id in p.live && id in p.objects && p.objects[id].local && !SurvivesDrain(p.goaway, id)
  }

  function OnGoaway(p: Peer, frame: Frame): Peer {
    var heard := p.(goaway := p.goaway.(received := true, remoteLast := frame.lastStream));
    var doomed := Unprocessed(heard);
    heard.(objects := FailAll(heard.objects, doomed, REFUSED), live := heard.live - doomed)
  }

  function Dispatch(p: Peer, frame: Frame, cfg: Config): Peer {
    match frame.kind
    case OpenFrame => OnOpen(p, frame, cfg)
    case DataFrame => OnStreamFrame(p, frame, cfg)
    case ResetFrame => OnStreamFrame(p, frame, cfg)
    case PingFrame => Queue(p, Bare(PongFrame, None).(nonce := frame.nonce))
    case PongFrame => p
    case GoawayFrame => OnGoaway(p, frame)
    case OtherFrame(_) => p
  }

  /** A message over the cap is never dispatched. */
  function OverCap(p: Peer, frame: Frame, cfg: Config): Peer {
    if frame.stream.None? then FailConnection(p)
    else
      var id := frame.stream.value;
      if frame.kind == OpenFrame && !ContinuesOpening(p, frame) then
        if !Admissible(p, id) then FailConnection(p)
        else
          QueueReset(p.(highRemote := id), id, PAYLOAD_TOO_LARGE)
            .(cut := if frame.fragment.Some? && frame.more then p.cut + {id} else p.cut)
      else if (id !in p.live || id !in p.objects) && (frame.kind == DataFrame || frame.kind == ResetFrame) then
        OnStreamFrame(p, frame, cfg)
      else if id in p.live && id in p.objects then
        ResetStream(p, id, PAYLOAD_TOO_LARGE)
      else QueueReset(p, id, PAYLOAD_TOO_LARGE)
  }

  /** Exactly one of the size check and the dispatch answers a message, and neither after the end. */
  function Receive(p: Peer, frame: Frame, size: nat, cfg: Config): Peer {
    if !p.isOpen || p.failed then p
    else if cfg.cap < size then OverCap(p, frame, cfg)
    else Dispatch(p, frame, cfg)
  }
}
