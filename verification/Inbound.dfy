/** What a peer makes of any message that arrives, from any remote, in any state a run can reach: which message closes
    a stream and with what code, and what the others deliver. */
module Inbound {
  import opened Frames
  import opened Codecs
  import opened WriterModel
  import opened PeerModel
  import opened PeerInvariant
  import opened Strands
  import opened Locality
  import A = Assembly
  import S = StreamModel

  // ------------------------------------------------------------ data

  /** The payload a frame completes: its own, or the one whose last fragment it is; `None` when that does not
      decode. */
  function Whole(partial: A.Partial, f: Frame, codec: Codec): Option<Value> {
    if f.fragment.None? then f.payload
    else if partial.parts != [] && f.fragment.value.text != partial.parts[0].text then None
    else
      var parts := partial.parts + [f.fragment.value];
      codec.decodePayload(Chunk(parts[0].text, A.Join(parts)))
  }

  predicate Mixed(partial: A.Partial, f: Frame) {
    f.fragment.Some? && partial.parts != [] && f.fragment.value.text != partial.parts[0].text
  }

  /** The fragments so far cannot become a payload. */
  predicate Undecodable(partial: A.Partial, f: Frame, codec: Codec) {
    f.fragment.Some? && (Mixed(partial, f) || (!f.more && Whole(partial, f, codec).None?))
  }

  predicate OverPayload(partial: A.Partial, f: Frame, cfg: Config) {
    f.fragment.Some? && cfg.maxPayload < partial.bytes + |f.fragment.value.bytes|
  }

  /** The code that `data` closes its stream with, if it does: after the remote's end, with headers after the remote's
      first frame, whole in the middle of a payload in fragments, over the payload cap, or undecodable. */
  function Fault(s: S.Stream, f: Frame, cfg: Config): Option<int> {
    if s.state == S.HalfClosedRemote || (s.receivedAFrame && f.headers.Some?)
       || (s.partial.parts != [] && f.fragment.None?) then Some(PROTOCOL_ERROR)
    else if OverPayload(s.partial, f, cfg) then Some(PAYLOAD_TOO_LARGE)
    else if Undecodable(s.partial, f, cfg.codec) then Some(PROTOCOL_ERROR)
    else None
  }

  /** The stream was closed with `code`: the application is told, nothing it had queued goes out but an `open` that had
      not begun to, and then the reset. */
  predicate ClosedWith(p: Peer, p': Peer, id: nat, code: int) {
    && id in p.objects && id in p'.objects && id !in p'.live
    && p'.objects[id].state == S.Closed && p'.objects[id].cause == S.ByReset(code)
    && p'.objects[id].queue == p.objects[id].queue + [S.Failure(code)]
    && LaneAt(p'.writer, id) == Tail(DiscardExceptUnsentOpen(LaneAt(p.writer, id)), ResetWith(id, code, None))
  }

  /** What a frame that completes no payload, or one, appends for the consumer. */
  function Arriving(s: S.Stream, f: Frame, codec: Codec): seq<S.Item> {
    if f.fragment.Some? && f.more then []
    else
      (if Whole(s.partial, f, codec).Some? then [S.Payload(Whole(s.partial, f, codec).value)] else [])
      + (if f.end then [S.End] else [])
  }

  /** The remote's end closes a stream whose own side has ended. */
  function Ended(state: S.State): S.State {
    if state == S.HalfClosedLocal then S.Closed else S.HalfClosedRemote
  }

  /** The frame leaves a payload that is still in fragments. */
  predicate Fragmentary(f: Frame) {
    f.fragment.Some? && f.more
  }

  /** The frame was delivered, and nothing is sent for it. */
  predicate DeliveredOn(p: Peer, p': Peer, id: nat, f: Frame, codec: Codec) {
    && id in p.objects && id in p'.objects && LaneAt(p'.writer, id) == LaneAt(p.writer, id)
    && var s, t := p.objects[id], p'.objects[id];
       var ends := f.end && !Fragmentary(f);
    && t.queue == s.queue + Arriving(s, f, codec)
    && t.state == (if ends then Ended(s.state) else s.state)
    && t.cause == (if ends && s.state == S.HalfClosedLocal then S.Normally else S.NotEnded)
    && t.trailers == (if ends && f.trailers.Some? then f.trailers else s.trailers)
    && t.replyHeaders == (if s.local && !s.receivedAFrame && f.headers.Some? then f.headers else s.replyHeaders)
    && t.partial.parts == (if Fragmentary(f) then s.partial.parts + [f.fragment.value] else [])
    && t == s.(queue := t.queue, answer := t.answer, state := t.state, cause := t.cause, trailers := t.trailers,
               replyHeaders := t.replyHeaders, partial := t.partial, receivedAFrame := true)
    && (id in p'.live <==> id in p.live && t.state != S.Closed)
  }

  lemma ResetCloses(p: Peer, id: nat, code: int)
    requires id in p.objects && p.objects[id].state != S.Closed
    ensures ClosedWith(p, ResetStream(p, id, code), id, code)
  {
    hide LaneAt, DiscardExceptUnsentOpen, EnqueueReset;
    QueueResetAt(p, id, code);
    var q := EnqueueReset(p, id, code);
    assert At(q, id).lane == Tail(DiscardExceptUnsentOpen(LaneAt(p.writer, id)), ResetWith(id, code, None));
    assert At(q, id).stream == At(p, id).stream;
  }

  /** A stream whose inner fields changed first. */
  lemma ClosesAfter(p: Peer, q: Peer, p': Peer, id: nat, code: int)
    requires ClosedWith(q, p', id, code) && id in p.objects && q.objects[id].queue == p.objects[id].queue
    requires q.writer == p.writer
    ensures ClosedWith(p, p', id, code)
  {
  }

  lemma FeedIs(partial: A.Partial, f: Frame, codec: Codec)
    requires f.fragment.Some?
    ensures var fed := A.Feed(partial, f, codec).1;
            && (fed.Malformed? <==> Undecodable(partial, f, codec))
            && (fed.Pending? ==> f.more)
            && (fed.Decoded? ==> !f.more && Whole(partial, f, codec) == Some(fed.payload))
            && (!fed.Malformed? ==>
                A.Feed(partial, f, codec).0.parts == if f.more then partial.parts + [f.fragment.value] else [])
  {
  }

  lemma AbsorbCases(p: Peer, id: nat, f: Frame, cfg: Config)
    requires id in p.objects && f.fragment.Some? && p.objects[id].state != S.Closed
    ensures var s := p.objects[id];
            var (q, payload) := Absorb(p, id, f, cfg);
            && (OverPayload(s.partial, f, cfg) ==> payload.None? && ClosedWith(p, q, id, PAYLOAD_TOO_LARGE))
            && (!OverPayload(s.partial, f, cfg) && Undecodable(s.partial, f, cfg.codec) ==>
                payload.None? && ClosedWith(p, q, id, PROTOCOL_ERROR))
            && (!OverPayload(s.partial, f, cfg) && !Undecodable(s.partial, f, cfg.codec) ==>
                && id in q.objects && q.objects[id] == s.(partial := q.objects[id].partial) && q.writer == p.writer
                && q.objects[id].partial.parts == (if f.more then s.partial.parts + [f.fragment.value] else [])
                && (id in q.live <==> id in p.live)
                && payload == if f.more then None else Whole(s.partial, f, cfg.codec))
  {
    hide ResetStream, ClosedWith, A.Feed, Undecodable, Whole, LaneAt;
    var s := p.objects[id];
    FeedIs(s.partial, f, cfg.codec);
    var dropped := Put(p, id, s.(partial := A.NOTHING));
    var fed := Put(p, id, s.(partial := A.Feed(s.partial, f, cfg.codec).0));
    ResetCloses(dropped, id, PAYLOAD_TOO_LARGE);
    ResetCloses(fed, id, PROTOCOL_ERROR);
    ClosesAfter(p, dropped, ResetStream(dropped, id, PAYLOAD_TOO_LARGE), id, PAYLOAD_TOO_LARGE);
    ClosesAfter(p, fed, ResetStream(fed, id, PROTOCOL_ERROR), id, PROTOCOL_ERROR);
  }

  /** The remote's first frame may carry the headers of the answer. */
  function NotedAs(s: S.Stream, f: Frame): S.Stream {
    s.(receivedAFrame := true,
       replyHeaders := if s.local && !s.receivedAFrame && f.headers.Some? then f.headers else s.replyHeaders)
  }

  /** `q` is `p` once the frame was noted on the stream, and its fragment was fed. */
  predicate NotedOn(p: Peer, q: Peer, id: nat, f: Frame) {
    && id in p.objects && id in q.objects && q.writer == p.writer && (id in q.live <==> id in p.live)
    && (p.objects[id].state == S.Open || p.objects[id].state == S.HalfClosedLocal) && p.objects[id].cause.NotEnded?
    && q.objects[id] == NotedAs(p.objects[id], f).(partial := q.objects[id].partial)
  }

  lemma DeliverDelivers(p: Peer, q: Peer, id: nat, payload: Option<Value>, f: Frame, codec: Codec)
    requires NotedOn(p, q, id, f) && q.objects[id].partial.parts == []
    requires !Fragmentary(f) && payload == Whole(p.objects[id].partial, f, codec)
    ensures DeliveredOn(p, PeerModel.Deliver(q, id, payload, f), id, f, codec)
  {
    hide LaneAt, Whole, S.AcceptPayload, S.RemoteEnd;
    StreamTakes(q.objects[id], payload, f);
  }

  lemma StreamTakes(s: S.Stream, payload: Option<Value>, f: Frame)
    requires (s.state == S.Open || s.state == S.HalfClosedLocal) && s.cause.NotEnded?
    ensures var accepted := if payload.Some? then S.AcceptPayload(s, payload.value) else s;
            var t := if f.end then S.RemoteEnd(accepted, f.trailers) else accepted;
            var items := (if payload.Some? then [S.Payload(payload.value)] else []) + (if f.end then [S.End] else []);
            t == if f.end then EndedAs(s, items, f.trailers, t.answer)
                 else s.(queue := s.queue + items, answer := t.answer)
  {
    hide S.RemoteEnd, S.AcceptPayload;
    if payload.Some? {
      AcceptTakes(s, payload.value);
      EndTakes(S.AcceptPayload(s, payload.value), f.trailers);
      assert (s.queue + [S.Payload(payload.value)]) + [S.End] == s.queue + ([S.Payload(payload.value)] + [S.End]);
      assert [S.Payload(payload.value)] + [] == [S.Payload(payload.value)];
    } else {
      EndTakes(s, f.trailers);
      var nothing: seq<S.Item> := [];
      assert nothing + [S.End] == [S.End] && nothing + nothing == nothing && s.queue + nothing == s.queue;
    }
  }

  /** The stream after `items`, the last of them the remote's end. */
  function EndedAs(s: S.Stream, items: seq<S.Item>, trailers: Option<Fields>, answer: S.Answer): S.Stream {
    s.(queue := s.queue + items, answer := answer, state := Ended(s.state),
       cause := if s.state == S.HalfClosedLocal then S.Normally else S.NotEnded,
       trailers := if trailers.Some? then trailers else s.trailers)
  }

  lemma AcceptTakes(s: S.Stream, v: Value)
    ensures var t := S.AcceptPayload(s, v);
            t == s.(queue := s.queue + [S.Payload(v)], answer := t.answer)
  {
  }

  lemma EndTakes(s: S.Stream, trailers: Option<Fields>)
    requires (s.state == S.Open || s.state == S.HalfClosedLocal) && s.cause.NotEnded?
    ensures var t := S.RemoteEnd(s, trailers);
            t == EndedAs(s, [S.End], trailers, t.answer)
  {
  }

  /** Inbound `data` on a live stream, whatever it is: it closes the stream with the code of its fault, delivering
      nothing, or it delivers exactly the payload that it completes and the end that it carries. */
  lemma DataDelivers(p: Peer, id: nat, f: Frame, size: nat, cfg: Config)
    requires Sound(p, cfg) && p.isOpen && !p.failed && id in p.live && size <= cfg.cap
    requires f.kind == DataFrame && f.stream == Some(id)
    ensures id in p.objects
    ensures var p' := Receive(p, f, size, cfg);
            match Fault(p.objects[id], f, cfg)
            case Some(code) => ClosedWith(p, p', id, code)
            case None => DeliveredOn(p, p', id, f, cfg.codec)
  {
    hide Sound, OnOpen, ResetStream, Absorb, PeerModel.Deliver, ClosedWith, DeliveredOn, Put, Undecodable, OverPayload,
      S.NoteRemoteFrame, NotedAs, Whole;
    LiveStream(p, id, cfg);
    var s := p.objects[id];
    ResetCloses(p, id, PROTOCOL_ERROR);
    assert Receive(p, f, size, cfg) == OnData(p, id, f, cfg);
    if s.state != S.HalfClosedRemote {
      var q := Put(p, id, S.NoteRemoteFrame(s, f.headers).0);
      Noted(p, id, f);
      ResetCloses(q, id, PROTOCOL_ERROR);
      ClosesAfter(p, q, ResetStream(q, id, PROTOCOL_ERROR), id, PROTOCOL_ERROR);
      if f.fragment.Some? {
        FragmentDelivers(p, q, id, f, cfg);
      } else {
        WholeIs(s, f, cfg);
        if s.partial.parts == [] { DeliverDelivers(p, q, id, f.payload, f, cfg.codec); }
      }
    }
  }

  lemma WholeIs(s: S.Stream, f: Frame, cfg: Config)
    requires f.fragment.None?
    ensures Whole(s.partial, f, cfg.codec) == f.payload
    ensures !OverPayload(s.partial, f, cfg) && !Undecodable(s.partial, f, cfg.codec)
  {
  }

  lemma LiveStream(p: Peer, id: nat, cfg: Config)
    requires Sound(p, cfg) && id in p.live
    ensures id in p.objects && p.objects[id].state != S.Closed && p.objects[id].state != S.Idle
    ensures p.objects[id].cause.NotEnded?
  {
    hide S.Consistent, A.Counted, Listed;
    assert Kept(p, id, p.objects[id], cfg);
  }

  lemma Noted(p: Peer, id: nat, f: Frame)
    requires id in p.objects && (p.objects[id].state == S.Open || p.objects[id].state == S.HalfClosedLocal)
    requires p.objects[id].cause.NotEnded?
    ensures var (noted, allowed) := S.NoteRemoteFrame(p.objects[id], f.headers);
            var q := Put(p, id, noted);
            && (allowed <==> !(p.objects[id].receivedAFrame && f.headers.Some?))
            && NotedOn(p, q, id, f) && q.objects[id] == noted && noted.partial == p.objects[id].partial
            && q.objects[id].queue == p.objects[id].queue && q.objects[id].state == p.objects[id].state
  {
  }

  lemma FragmentDelivers(p: Peer, q: Peer, id: nat, f: Frame, cfg: Config)
    requires f.fragment.Some? && NotedOn(p, q, id, f) && q.objects[id].partial == p.objects[id].partial
    ensures var s := p.objects[id];
            var (absorbed, payload) := Absorb(q, id, f, cfg);
            var p' := if payload.None? || id !in absorbed.objects then absorbed
                      else PeerModel.Deliver(absorbed, id, payload, f);
            && (OverPayload(s.partial, f, cfg) ==> ClosedWith(p, p', id, PAYLOAD_TOO_LARGE))
            && (!OverPayload(s.partial, f, cfg) && Undecodable(s.partial, f, cfg.codec) ==>
                ClosedWith(p, p', id, PROTOCOL_ERROR))
            && (!OverPayload(s.partial, f, cfg) && !Undecodable(s.partial, f, cfg.codec) ==>
                DeliveredOn(p, p', id, f, cfg.codec))
  {
    hide Absorb, PeerModel.Deliver, ClosedWith, Undecodable, OverPayload, Whole, LaneAt;
    var s := p.objects[id];
    AbsorbCases(q, id, f, cfg);
    var (absorbed, payload) := Absorb(q, id, f, cfg);
    if OverPayload(s.partial, f, cfg) {
      ClosesAfter(p, q, absorbed, id, PAYLOAD_TOO_LARGE);
    } else if Undecodable(s.partial, f, cfg.codec) {
      ClosesAfter(p, q, absorbed, id, PROTOCOL_ERROR);
    } else if f.more {
      assert p.objects[id].queue + [] == p.objects[id].queue;
    } else {
      DecodableIsWhole(s.partial, f, cfg.codec);
      DeliverDelivers(p, absorbed, id, payload, f, cfg.codec);
    }
  }

  lemma DecodableIsWhole(partial: A.Partial, f: Frame, codec: Codec)
    requires f.fragment.Some? && !f.more && !Undecodable(partial, f, codec)
    ensures Whole(partial, f, codec).Some?
  {
  }

  // ------------------------------------------------------------ a reset

  /** An inbound reset closes its stream at once with the code it carries, 0 when it carries none; of what was queued
      only an `open` that had not begun to go out still does, and nothing is answered. */
  lemma ResetIsHeard(p: Peer, id: nat, f: Frame, size: nat, cfg: Config)
    requires Sound(p, cfg) && p.isOpen && !p.failed && id in p.live && size <= cfg.cap
    requires f.kind == ResetFrame && f.stream == Some(id)
    ensures id in p.objects
    ensures var p' := Receive(p, f, size, cfg);
            var code := if f.code.Some? then f.code.value else 0;
            && id in p'.objects && id !in p'.live
            && p'.objects[id].state == S.Closed && p'.objects[id].cause == S.ByReset(code)
            && p'.objects[id].queue == p.objects[id].queue + [S.Failure(code)]
            && LaneAt(p'.writer, id) == DiscardExceptUnsentOpen(LaneAt(p.writer, id))
  {
    hide Sound, OnData, OnOpen, Discard, LaneAt, DiscardExceptUnsentOpen;
    LiveStream(p, id, cfg);
    DiscardAt(p.writer, id, id);
  }

  // ------------------------------------------------------------ open

  /** The code a frame of an opening payload is turned away with, if it is. */
  function OpeningFault(p: Peer, partial: A.Partial, f: Frame, cfg: Config): Option<int> {
    if OverPayload(partial, f, cfg) then Some(PAYLOAD_TOO_LARGE)
    else if Undecodable(partial, f, cfg.codec) then Some(PROTOCOL_ERROR)
    else if !Fragmentary(f) && (p.goaway.sent || !p.handler) then Some(REFUSED)
    else None
  }

  /** The code an `open` that begins a stream is turned away with, if it is. */
  function OpenFault(p: Peer, f: Frame, cfg: Config): Option<int> {
    if cfg.maxStreams <= |RemoteLive(p)| then Some(REFUSED) else OpeningFault(p, A.NOTHING, f, cfg)
  }

  /** The stream is gone, and it was never handed to the handler; the remote is told with the lane's last frame. */
  predicate TurnedAwayWith(p: Peer, p': Peer, id: nat, code: int) {
    && id !in p'.live
    && (id in p'.objects ==> !p'.objects[id].started && p'.objects[id].cause == S.ByReset(code))
    && LaneAt(p'.writer, id)
       == Tail(if code == REFUSED then LaneAt(p.writer, id) else DiscardExceptUnsentOpen(LaneAt(p.writer, id)),
               ResetWith(id, code, None))
  }

  /** The opening payload, null when the `open` carries none. */
  function OpeningPayload(partial: A.Partial, f: Frame, codec: Codec): Option<Value> {
    if Fragmentary(f) then None
    else if f.fragment.Some? then Whole(partial, f, codec)
    else Some(if f.payload.Some? then f.payload.value else Null)
  }

  /** An `open` that begins a stream, whatever it is: the stream is handed to the handler once its payload is whole,
      with the payload, the headers and the end that it carries; or it is turned away with the code of its fault,
      unstarted. */
  lemma OpenBegins(p: Peer, id: nat, f: Frame, size: nat, cfg: Config)
    requires Sound(p, cfg) && p.isOpen && !p.failed && size <= cfg.cap
    requires f.kind == OpenFrame && f.stream == Some(id) && Admissible(p, id) && !ContinuesOpening(p, f)
    ensures var p' := Receive(p, f, size, cfg);
            && p'.highRemote == id
            && match OpenFault(p, f, cfg)
               case Some(code) => TurnedAwayWith(p, p', id, code)
               case None =>
                 && id in p'.live && id in p'.objects && LaneAt(p'.writer, id) == LaneAt(p.writer, id)
                 && var t := p'.objects[id];
                    && !t.local && t.headers == f.headers && t.queue == [] && t.cause.NotEnded?
                    && (t.started <==> !Fragmentary(f)) && (t.opening <==> Fragmentary(f))
                    && t.state == (if f.end then S.HalfClosedRemote else S.Open)
                    && t.payload == OpeningPayload(A.NOTHING, f, cfg.codec)
                    && t.partial.parts == if Fragmentary(f) then [f.fragment.value] else []
  {
    hide Sound, LaneAt, RemoteLive, QueueReset, FeedOpening, StartHandler, Undecodable, OverPayload,
      DiscardExceptUnsentOpen;
    var s := S.NewStream(id, false, if f.end then S.HalfClosedRemote else S.Open, f.headers, None);
    var admitted := p.(highRemote := id);
    AdmittedMark(p, f, cfg);
    NotYet(p, id, cfg);
    if cfg.maxStreams <= |RemoteLive(p)| {
      QueueResetOnly(admitted, id, REFUSED);
      QueuedIs(admitted, id, REFUSED);
    } else if f.fragment.Some? {
      var begun := s.(opening := true);
      CreatedIs(admitted, begun);
      OpeningFed(Create(admitted, begun), id, f, false, cfg);
      assert begun.partial.parts + [f.fragment.value] == [f.fragment.value];
    } else {
      WholeIs(s, f, cfg);
      var whole := s.(payload := Some(if f.payload.Some? then f.payload.value else Null));
      CreatedIs(admitted, whole);
      StartIs(Create(admitted, whole), id);
    }
  }

  /** A later fragment of an opening payload, whatever it is: the last one hands the stream to the handler, with the
      payload; the end counts only on the last, and then however the application had already left the stream. */
  lemma OpenContinues(p: Peer, id: nat, f: Frame, size: nat, cfg: Config)
    requires Sound(p, cfg) && p.isOpen && !p.failed && size <= cfg.cap
    requires f.kind == OpenFrame && f.stream == Some(id) && ContinuesOpening(p, f)
    ensures var p', s := Receive(p, f, size, cfg), p.objects[id];
            && p'.highRemote == p.highRemote
            && match OpeningFault(p, s.partial, f, cfg)
               case Some(code) => TurnedAwayWith(p, p', id, code)
               case None =>
                 && id in p'.live && id in p'.objects && LaneAt(p'.writer, id) == LaneAt(p.writer, id)
                 && var t := p'.objects[id];
                    && !t.local && t.headers == s.headers && t.queue == s.queue && t.cause.NotEnded?
                    && (t.started <==> !f.more) && (t.opening <==> f.more)
                    && t.state == (if f.end && !f.more then S.HalfClosedRemote else s.state)
                    && t.payload == (if f.more then s.payload else OpeningPayload(s.partial, f, cfg.codec))
                    && t.partial.parts == if f.more then s.partial.parts + [f.fragment.value] else []
  {
    hide Sound, LaneAt, FeedOpening, Undecodable, OverPayload, DiscardExceptUnsentOpen, Whole;
    OpeningStream(p, id, cfg);
    LiveStream(p, id, cfg);
    OpeningFed(p, id, f, true, cfg);
    FeedOpeningOnly(p, id, f, true, cfg);
    FedOpeningMark(p, id, f, cfg);
  }

  lemma OpeningStream(p: Peer, id: nat, cfg: Config)
    requires Sound(p, cfg) && id in p.objects && p.objects[id].opening
    ensures !p.objects[id].started && !p.objects[id].local
  {
    hide S.Consistent, A.Counted, Listed;
    assert Kept(p, id, p.objects[id], cfg);
  }

  lemma FedOpeningMark(p: Peer, id: nat, f: Frame, cfg: Config)
    requires id in p.objects && f.fragment.Some?
    ensures FeedOpening(p, id, f, true, cfg).highRemote == p.highRemote
  {
    hide At, FeedOpening;
    FeedOpeningOnly(p, id, f, true, cfg);
  }

  lemma AdmittedMark(p: Peer, f: Frame, cfg: Config)
    requires f.kind == OpenFrame && f.stream.Some? && Admissible(p, f.stream.value) && !ContinuesOpening(p, f)
    ensures OnOpen(p, f, cfg).highRemote == f.stream.value
  {
    hide At, OnOpen;
    AdmittedOnly(p, f, cfg);
  }

  lemma NotYet(p: Peer, id: nat, cfg: Config)
    requires Sound(p, cfg) && Admissible(p, id)
    ensures id !in p.objects && id !in p.live
  {
    hide S.Consistent, A.Counted, Listed;
    if id in p.objects {
      KnownMark(p, id, cfg);
    }
  }

  lemma KnownMark(p: Peer, id: nat, cfg: Config)
    requires Sound(p, cfg) && id in p.objects
    ensures !Admissible(p, id)
  {
    hide S.Consistent, A.Counted, Listed;
    assert Kept(p, id, p.objects[id], cfg);
  }

  lemma QueuedIs(p: Peer, id: nat, code: int)
    ensures QueueReset(p, id, code).objects == p.objects && QueueReset(p, id, code).live == p.live
  {
    hide Enqueue;
  }

  lemma CreatedIs(p: Peer, s: S.Stream)
    ensures var q := Create(p, s);
            && s.id in q.objects && q.objects[s.id] == s && s.id in q.live && q.writer == p.writer
            && q.goaway == p.goaway && q.handler == p.handler
  {
  }

  lemma StartIs(p: Peer, id: nat)
    requires id in p.objects && id in p.live && p.objects[id].state != S.Closed && !p.objects[id].started
    ensures var p' := StartHandler(p, id);
            && id in p'.objects
            && if p.goaway.sent || !p.handler then
                 && id !in p'.live && !p'.objects[id].started && p'.objects[id].cause == S.ByReset(REFUSED)
                 && LaneAt(p'.writer, id) == Tail(LaneAt(p.writer, id), ResetWith(id, REFUSED, None))
               else
                 id in p'.live && p'.objects[id] == p.objects[id].(started := true) && p'.writer == p.writer
  {
    hide LaneAt, Enqueue;
    EnqueueAt(p.writer, ResetWith(id, REFUSED, None), id);
  }

  lemma OpeningFed(p: Peer, id: nat, f: Frame, later: bool, cfg: Config)
    requires f.fragment.Some? && id in p.objects && id in p.live
    requires p.objects[id].opening && !p.objects[id].started && p.objects[id].cause.NotEnded?
      && p.objects[id].state != S.Closed
    ensures var p', s := FeedOpening(p, id, f, later, cfg), p.objects[id];
            match OpeningFault(p, s.partial, f, cfg)
            case Some(code) => TurnedAwayWith(p, p', id, code)
            case None =>
              && id in p'.live && id in p'.objects && LaneAt(p'.writer, id) == LaneAt(p.writer, id)
              && p'.objects[id]
                 == s.(partial := p'.objects[id].partial, started := !f.more, opening := f.more,
                       payload := (if f.more then s.payload else Whole(s.partial, f, cfg.codec)),
                       state := if later && f.end && !f.more then S.HalfClosedRemote else s.state)
              && p'.objects[id].partial.parts == if f.more then s.partial.parts + [f.fragment.value] else []
  {
    hide LaneAt, Absorb, StartHandler, Undecodable, OverPayload, Whole, DiscardExceptUnsentOpen, A.Feed;
    var s := p.objects[id];
    AbsorbCases(p, id, f, cfg);
    AbsorbUnstarted(p, id, f, cfg);
    var (absorbed, payload) := Absorb(p, id, f, cfg);
    if payload.Some? {
      var done := Completed(absorbed.objects[id], payload, later && f.end);
      StartIs(Put(absorbed, id, done), id);
    } else if !f.more && !OverPayload(s.partial, f, cfg) && !Undecodable(s.partial, f, cfg.codec) {
      DecodableIsWhole(s.partial, f, cfg.codec);
    }
  }

  lemma AbsorbUnstarted(p: Peer, id: nat, f: Frame, cfg: Config)
    requires id in p.objects && id in p.live && f.fragment.Some? && !p.objects[id].started
    requires p.objects[id].state != S.Closed
    ensures var (q, payload) := Absorb(p, id, f, cfg);
            && (id in q.objects ==> !q.objects[id].started)
            && (payload.Some? || (id in q.objects && q.objects[id].state != S.Closed) ==> id in q.live)
            && q.goaway == p.goaway && q.handler == p.handler
  {
    hide A.Feed, ResetStream;
    var s := p.objects[id];
    ResetUnstarted(Put(p, id, s.(partial := A.NOTHING)), id, PAYLOAD_TOO_LARGE);
    ResetUnstarted(Put(p, id, s.(partial := A.Feed(s.partial, f, cfg.codec).0)), id, PROTOCOL_ERROR);
  }

  lemma ResetUnstarted(p: Peer, id: nat, code: int)
    requires id in p.objects && !p.objects[id].started && p.objects[id].state != S.Closed
    ensures var q := ResetStream(p, id, code);
            && id in q.objects && !q.objects[id].started && q.objects[id].state == S.Closed
            && q.goaway == p.goaway && q.handler == p.handler
  {
    hide Enqueue, Discard;
  }

  // ------------------------------------------------------------ the rest

  /** A ping is answered with its own nonce on the connection's lane; a pong and a frame of a type that is not known
      change nothing. */
  lemma OthersAnswer(p: Peer, f: Frame, size: nat, cfg: Config)
    requires p.isOpen && !p.failed && size <= cfg.cap
    requires f.kind == PingFrame || f.kind == PongFrame || f.kind.OtherFrame?
    ensures var p' := Receive(p, f, size, cfg);
            && p' == p.(writer := p'.writer)
            && (f.kind != PingFrame ==> p' == p)
            && (f.kind == PingFrame ==>
                && LaneAt(p'.writer, 0) == Tail(LaneAt(p.writer, 0), Bare(PongFrame, None).(nonce := f.nonce))
                && forall x: nat :: x != 0 ==> LaneAt(p'.writer, x) == LaneAt(p.writer, x))
  {
    hide Enqueue, LaneAt;
    var pong := Bare(PongFrame, None).(nonce := f.nonce);
    forall x: nat
      ensures LaneAt(Enqueue(p.writer, pong), x)
           == if x == 0 then Tail(LaneAt(p.writer, 0), pong) else LaneAt(p.writer, x)
    {
      EnqueueAt(p.writer, pong, x);
    }
  }

  // ------------------------------------------------------------ over the cap

  /** The message is a stream frame for a stream that is live here, and not an `open` that would begin another. */
  predicate AddressesLive(p: Peer, f: Frame) {
    && f.stream.Some? && f.stream.value in p.live && f.stream.value in p.objects
    && (f.kind == OpenFrame ==> ContinuesOpening(p, f))
  }

  /** No stream was given anything, and none was begun. */
  ghost predicate NothingDelivered(p: Peer, p': Peer) {
    && p'.objects.Keys == p.objects.Keys
    && forall x :: x in p.objects ==>
         && S.Accepted(p'.objects[x].queue) == S.Accepted(p.objects[x].queue)
         && p'.objects[x].payload == p.objects[x].payload && p'.objects[x].started == p.objects[x].started
  }

  lemma ResetDeliversNothing(p: Peer, id: nat, code: int)
    requires id in p.objects
    ensures NothingDelivered(p, ResetStream(p, id, code))
  {
    hide Enqueue, Discard;
    S.AcceptedSnoc(p.objects[id].queue, S.Failure(code));
    assert S.Accepted(p.objects[id].queue) + [] == S.Accepted(p.objects[id].queue);
  }

  /** A message over the cap delivers nothing, whatever it is.  It fails the connection exactly when the same message
      within the cap would have, and moves the remote's mark as that would; otherwise the stream it names is closed with
      PAYLOAD_TOO_LARGE, or one that it would have begun is turned away with that code. */
  lemma OverCapAnswers(p: Peer, f: Frame, size: nat, cfg: Config)
    requires Sound(p, cfg) && p.isOpen && !p.failed && cfg.cap < size
    requires f.kind == OpenFrame || f.kind == DataFrame || f.kind == ResetFrame
    ensures var p', within := Receive(p, f, size, cfg), Receive(p, f, cfg.cap, cfg);
            && NothingDelivered(p, p')
            && (p'.failed <==> within.failed) && p'.highRemote == within.highRemote
            && (AddressesLive(p, f) ==> ClosedWith(p, p', f.stream.value, PAYLOAD_TOO_LARGE))
            && (!p'.failed && !AddressesLive(p, f) ==>
                LaneAt(p'.writer, f.stream.value)
                == if f.kind == OpenFrame
                   then Tail(LaneAt(p.writer, f.stream.value), ResetWith(f.stream.value, PAYLOAD_TOO_LARGE, None))
                   else LaneAt(p.writer, f.stream.value))
  {
    hide Sound, OnData, FeedOpening, StartHandler, ResetStream, RemoteLive, LaneAt, ClosedWith, QueueReset;
    if f.stream.None? {
      FailureDeliversNothing(p);
    } else {
      var id := f.stream.value;
      if f.kind == OpenFrame {
        OpenOverCap(p, id, f, size, cfg);
      } else if id in p.live && id in p.objects {
        LiveStream(p, id, cfg);
        ResetCloses(p, id, PAYLOAD_TOO_LARGE);
        ResetDeliversNothing(p, id, PAYLOAD_TOO_LARGE);
        LiveFrameGoesOn(p, id, f, cfg);
      } else {
        FailureDeliversNothing(p);
      }
    }
  }

  lemma FailureDeliversNothing(p: Peer)
    ensures NothingDelivered(p, FailConnection(p)) && NothingDelivered(p, p)
    ensures NothingDelivered(p, p.(ignoredLate := p.ignoredLate + 1))
    ensures FailConnection(p).failed && FailConnection(p).highRemote == p.highRemote
  {
    hide Enqueue;
  }

  /** A frame for a live stream never fails the connection, nor moves a mark. */
  lemma LiveFrameGoesOn(p: Peer, id: nat, f: Frame, cfg: Config)
    requires id in p.live && id in p.objects && !p.failed && f.stream == Some(id)
    ensures !OnStreamFrame(p, f, cfg).failed && OnStreamFrame(p, f, cfg).highRemote == p.highRemote
    ensures !ResetStream(p, id, PAYLOAD_TOO_LARGE).failed
    ensures ResetStream(p, id, PAYLOAD_TOO_LARGE).highRemote == p.highRemote
  {
    hide OnData, FailStream, Discard, At, ResetStream;
    OnDataOnly(p, id, f, cfg);
    DiscardOnly(p, id);
    FailOnly(p.(writer := Discard(p.writer, id)), id, if f.code.Some? then f.code.value else 0);
    ResetOnly(p, id, PAYLOAD_TOO_LARGE);
  }

  lemma OpenOverCap(p: Peer, id: nat, f: Frame, size: nat, cfg: Config)
    requires Sound(p, cfg) && p.isOpen && !p.failed && cfg.cap < size && f.kind == OpenFrame && f.stream == Some(id)
    ensures var p', within := Receive(p, f, size, cfg), Receive(p, f, cfg.cap, cfg);
            && NothingDelivered(p, p')
            && (p'.failed <==> within.failed) && p'.highRemote == within.highRemote
            && (ContinuesOpening(p, f) ==> ClosedWith(p, p', id, PAYLOAD_TOO_LARGE))
            && (!p'.failed && !ContinuesOpening(p, f) ==>
                LaneAt(p'.writer, id) == Tail(LaneAt(p.writer, id), ResetWith(id, PAYLOAD_TOO_LARGE, None)))
  {
    hide Sound, FeedOpening, ResetStream, OnOpen, LaneAt, ClosedWith, QueueReset, At;
    FailureDeliversNothing(p);
    var p', within := Receive(p, f, size, cfg), Receive(p, f, cfg.cap, cfg);
    if ContinuesOpening(p, f) {
      LiveStream(p, id, cfg);
      ResetCloses(p, id, PAYLOAD_TOO_LARGE);
      ResetDeliversNothing(p, id, PAYLOAD_TOO_LARGE);
      LiveFrameGoesOn(p, id, f, cfg);
      FeedOpeningOnly(p, id, f, true, cfg);
      assert within == FeedOpening(p, id, f, true, cfg) by { ContinuedIs(p, f, cfg); }
    } else if Admissible(p, id) {
      AdmittedOnly(p, f, cfg);
      QueueResetOnly(p.(highRemote := id), id, PAYLOAD_TOO_LARGE);
      QueuedIs(p.(highRemote := id), id, PAYLOAD_TOO_LARGE);
      RefusedDeliversNothing(p, id, f.fragment.Some? && f.more);
    } else {
      assert within == FailConnection(p) by { InadmissibleIs(p, f, cfg); }
    }
  }

  lemma ContinuedIs(p: Peer, f: Frame, cfg: Config)
    requires ContinuesOpening(p, f)
    ensures OnOpen(p, f, cfg) == FeedOpening(p, f.stream.value, f, true, cfg)
  {
    hide FeedOpening;
  }

  lemma InadmissibleIs(p: Peer, f: Frame, cfg: Config)
    requires f.stream.Some? && !ContinuesOpening(p, f) && !Admissible(p, f.stream.value)
    ensures OnOpen(p, f, cfg) == FailConnection(p)
  {
    hide FailConnection;
  }

  lemma RefusedDeliversNothing(p: Peer, id: nat, cutShort: bool)
    ensures var q := QueueReset(p.(highRemote := id), id, PAYLOAD_TOO_LARGE)
                .(cut := if cutShort then p.cut + {id} else p.cut);
            NothingDelivered(p, q) && q.highRemote == id && q.failed == p.failed
  {
    hide Enqueue;
  }
}
