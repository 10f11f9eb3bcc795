/** What becomes of a peer's streams over a run, whatever its remote sends: an id names one stream, a stream
    goes on as itself, its consumer is given what frames brought, and its end is queued or not by the kind of
    frame that brought it. */
module Lives {
  import opened Frames
  import opened WriterModel
  import opened PeerModel
  import opened PeerInvariant
  import opened PeerTable
  import A = Assembly
  import S = StreamModel

  // ------------------------------------------------------------ one stream, one step

  predicate EndIn(s: S.Stream) {
    S.End in s.queue
  }

  /** `t` is the stream `s`, later; a closed stream stays as it is. */
  predicate Continues(s: S.Stream, t: S.Stream) {
    && t.id == s.id && t.local == s.local && t.headers == s.headers
    && s.queue <= t.queue && t.read == s.read && t.claim == s.claim && (s.started ==> t.started)
    && (s.state == S.Closed ==> t == s)
  }

  /** A normal close queues the end. */
  predicate Rounded(s: S.Stream) {
    s.cause.Normally? ==> EndIn(s)
  }

  /** Its answer, once asked for, is what its first item decides, or the reset. */
  ghost predicate Answering(s: S.Stream) {
    S.Settled(s) && (s.state == S.Closed <==> !s.cause.NotEnded?)
  }

  /** An answer that is settled stays, and none is asked for. */
  ghost predicate KeepsAnswer(s: S.Stream, t: S.Stream) {
    && (Answering(s) ==> Answering(t) && (!s.answer.NotAsked? && !s.answer.Waiting? ==> t.answer == s.answer))
    && (t.answer.NotAsked? <==> s.answer.NotAsked?)
  }

  lemma SameAnswers(s: S.Stream, t: S.Stream)
    requires t.answer == s.answer && t.queue == s.queue && t.cause == s.cause
      && (t.state == S.Closed <==> s.state == S.Closed)
    ensures KeepsAnswer(s, t)
  {
  }

  lemma PushAnswers(s: S.Stream, t: S.Stream, item: S.Item)
    requires t.queue == s.queue + [item] && t.answer == (if s.answer.Waiting? then S.Decides(item) else s.answer)
    requires s.state != S.Closed && (t.state == S.Closed <==> !t.cause.NotEnded?)
    ensures KeepsAnswer(s, t)
  {
    hide S.Settled;
    if Answering(s) { S.PushSettles(s, t, item); }
  }

  /** A step that brought `values`, by a frame of kind `kind` if the remote's side ended in it. */
  ghost predicate Hears(s: S.Stream, t: S.Stream, values: seq<Value>, kind: Option<FrameType>) {
    && Continues(s, t) && KeepsAnswer(s, t)
    && S.Accepted(t.queue) == S.Accepted(s.queue) + values
    && (Rounded(s) ==> Rounded(t))
    && (s.state == S.HalfClosedRemote ==> t.state == S.HalfClosedRemote || t.state == S.Closed)
    && (s.state == S.HalfClosedLocal ==>
          t.state == S.HalfClosedLocal || t.state == S.Closed
              || (t.state == S.HalfClosedRemote && kind == Some(OpenFrame)))
    && (t.state == S.HalfClosedRemote && s.state == S.HalfClosedRemote ==> (EndIn(t) <==> EndIn(s)))
    && (t.state == S.HalfClosedRemote && s.state != S.HalfClosedRemote ==>
          kind.Some? && (EndIn(t) <==> kind == Some(DataFrame)))
  }

  /** A step that brought nothing and ended nothing. */
  ghost predicate Quiet(s: S.Stream, t: S.Stream) {
    Hears(s, t, [], None)
  }

  lemma QuietThen(s: S.Stream, t: S.Stream, u: S.Stream, values: seq<Value>, kind: Option<FrameType>)
    requires Quiet(s, t) && Hears(t, u, values, kind)
    ensures Hears(s, u, values, kind)
  {
    hide Answering;
    assert S.Accepted(s.queue) + [] == S.Accepted(s.queue);
  }

  lemma ThenQuiet(s: S.Stream, t: S.Stream, u: S.Stream, values: seq<Value>, kind: Option<FrameType>)
    requires Hears(s, t, values, kind) && Quiet(t, u)
    ensures Hears(s, u, values, kind)
  {
    assert S.Accepted(t.queue) + [] == S.Accepted(t.queue);
  }

  lemma QuietSelf(s: S.Stream)
    ensures Quiet(s, s)
  {
    assert S.Accepted(s.queue) + [] == S.Accepted(s.queue);
  }

  lemma FailIsQuiet(s: S.Stream, code: int)
    ensures Quiet(s, S.Fail(s, code))
  {
    if s.state == S.Closed { SameAnswers(s, s); } else { PushAnswers(s, S.Fail(s, code), S.Failure(code)); }
    S.AcceptedSnoc(s.queue, S.Failure(code));
    assert S.Accepted(s.queue) + [] == S.Accepted(s.queue);
  }

  /** Fields that no consumer sees. */
  lemma InnerIsQuiet(s: S.Stream, t: S.Stream)
    requires s.state != S.Closed
      && t == s.(partial := t.partial, sentAFrame := t.sentAFrame, receivedAFrame := t.receivedAFrame,
                 replyHeaders := t.replyHeaders, started := t.started)
    requires s.started ==> t.started
    ensures Quiet(s, t)
  {
    assert S.Accepted(s.queue) + [] == S.Accepted(s.queue);
  }

  lemma LocalEndIsQuiet(s: S.Stream)
    requires s.state == S.Open || s.state == S.HalfClosedRemote
    ensures Quiet(s, S.LocalEnd(s))
  {
    S.AcceptedSnoc(s.queue, S.End);
    assert S.Accepted(s.queue) + [] == S.Accepted(s.queue);
    if s.state == S.Open { SameAnswers(s, S.LocalEnd(s)); } else { PushAnswers(s, S.LocalEnd(s), S.End); }
  }

  lemma SpokenIsQuiet(s: S.Stream, headers: Option<Fields>, end: bool)
    requires S.MaySend(s, headers) && s.state != S.Closed && s.state != S.Idle
    ensures Quiet(s, if end then S.LocalEnd(S.NoteSent(s, headers)) else S.NoteSent(s, headers))
  {
    hide Hears;
    var noted := S.NoteSent(s, headers);
    InnerIsQuiet(s, noted);
    if end {
      LocalEndIsQuiet(noted);
      QuietThen(s, noted, S.LocalEnd(noted), [], None);
    }
  }

  // ------------------------------------------------------------ one peer, one step

  /** Every stream goes on quietly, and none is new. */
  ghost predicate AllQuiet(p: Peer, p': Peer) {
    && p'.objects.Keys == p.objects.Keys
    && forall x :: x in p.objects ==> Quiet(p.objects[x], p'.objects[x])
  }

  /** But for `id`, which hears what it hears. */
  ghost predicate OneHears(p: Peer, p': Peer, id: nat, values: seq<Value>, kind: Option<FrameType>) {
    && p'.objects.Keys == p.objects.Keys
    && forall x :: x in p.objects ==>
         Hears(p.objects[x], p'.objects[x], if x == id then values else [], if x == id then kind else None)
  }

  lemma SameObjects(p: Peer, p': Peer)
    requires p'.objects == p.objects
    ensures AllQuiet(p, p')
  {
    hide Hears;
    forall x | x in p.objects ensures Quiet(p.objects[x], p'.objects[x]) { QuietSelf(p.objects[x]); }
  }

  lemma AllQuietThen(p: Peer, q: Peer, r: Peer)
    requires AllQuiet(p, q) && AllQuiet(q, r)
    ensures AllQuiet(p, r)
  {
    hide Hears;
    forall x | x in p.objects ensures Quiet(p.objects[x],
                                            r.objects[x]) { QuietThen(p.objects[x], q.objects[x], r.objects[x], [],
                                                                      None); }
  }

  lemma QuietThenOne(p: Peer, q: Peer, r: Peer, id: nat, values: seq<Value>, kind: Option<FrameType>)
    requires AllQuiet(p, q) && OneHears(q, r, id, values, kind)
    ensures OneHears(p, r, id, values, kind)
  {
    hide Hears;
    forall x | x in p.objects
      ensures Hears(p.objects[x], r.objects[x], if x == id then values else [], if x == id then kind else None)
    {
      QuietThen(p.objects[x], q.objects[x], r.objects[x], if x == id then values else [], if x == id then kind
                else None);
    }
  }

  lemma OneThenQuiet(p: Peer, q: Peer, r: Peer, id: nat, values: seq<Value>, kind: Option<FrameType>)
    requires OneHears(p, q, id, values, kind) && AllQuiet(q, r)
    ensures OneHears(p, r, id, values, kind)
  {
    hide Hears;
    forall x | x in p.objects
      ensures Hears(p.objects[x], r.objects[x], if x == id then values else [], if x == id then kind else None)
    {
      ThenQuiet(p.objects[x], q.objects[x], r.objects[x], if x == id then values else [], if x == id then kind
                else None);
    }
  }

  lemma QuietIsOne(p: Peer, p': Peer, id: nat, kind: Option<FrameType>)
    requires AllQuiet(p, p')
    ensures OneHears(p, p', id, [], kind)
  {
    forall x | x in p.objects
      ensures Hears(p.objects[x], p'.objects[x], [], if x == id then kind else None)
    {
      assert Quiet(p.objects[x], p'.objects[x]);
    }
  }

  lemma PutHears(p: Peer, id: nat, s: S.Stream, values: seq<Value>, kind: Option<FrameType>)
    requires id in p.objects && Hears(p.objects[id], s, values, kind)
    ensures OneHears(p, Put(p, id, s), id, values, kind)
  {
    hide Hears;
    forall x | x in p.objects && x != id ensures Quiet(p.objects[x], p.objects[x]) { QuietSelf(p.objects[x]); }
  }

  lemma PutQuiet(p: Peer, id: nat, s: S.Stream)
    requires id in p.objects && Quiet(p.objects[id], s)
    ensures AllQuiet(p, Put(p, id, s))
  {
    hide Hears;
    forall x | x in p.objects && x != id ensures Quiet(p.objects[x], p.objects[x]) { QuietSelf(p.objects[x]); }
  }

  lemma FailStreamQuiet(p: Peer, id: nat, code: int)
    requires id in p.objects
    ensures AllQuiet(p, FailStream(p, id, code))
  {
    hide Hears, S.Fail, Put;
    FailIsQuiet(p.objects[id], code);
    PutQuiet(p, id, S.Fail(p.objects[id], code));
  }

  lemma ResetStreamQuiet(p: Peer, id: nat, code: int)
    requires id in p.objects
    ensures AllQuiet(p, ResetStream(p, id, code))
  {
    hide Hears, FailStream, Enqueue, Discard, AllQuiet;
    var q := EnqueueReset(p, id, code);
    SameObjects(p, q);
    FailStreamQuiet(q, id, code);
    AllQuietThen(p, q, ResetStream(p, id, code));
  }

  lemma FailAllQuiet(p: Peer, p': Peer, doomed: set<nat>, code: int)
    requires p'.objects == FailAll(p.objects, doomed, code)
    ensures AllQuiet(p, p')
  {
    hide Hears, S.Fail;
    forall x | x in p.objects
      ensures Quiet(p.objects[x], p'.objects[x])
    {
      FailIsQuiet(p.objects[x], code);
      QuietSelf(p.objects[x]);
    }
  }

  lemma DieQuiet(p: Peer)
    ensures AllQuiet(p, Die(p))
  {
    hide AllQuiet, FailAll, DiscardAll;
    SameObjects(p, p);
    if p.isOpen { FailAllQuiet(p, Die(p), p.live, CONNECTION_CLOSED); }
  }

  lemma FailLaneQuiet(p: Peer, id: nat, unsentOpen: bool)
    ensures AllQuiet(p, FailLane(p, id, unsentOpen))
  {
    hide AllQuiet, Die, FailStream, Enqueue;
    DieQuiet(p);
    if id in p.objects {
      var q := QueueReset(p, id, INTERNAL_ERROR);
      FailStreamQuiet(p, id, INTERNAL_ERROR);
      SameObjects(p, q);
      FailStreamQuiet(q, id, INTERNAL_ERROR);
      AllQuietThen(p, q, FailStream(q, id, INTERNAL_ERROR));
    }
  }

  lemma AfterTurnQuiet(p: Peer, w: Writer, turn: Turn)
    ensures AllQuiet(p, AfterTurn(p, w, turn).0)
  {
    hide AllQuiet, FailLane;
    var now := p.(writer := w);
    SameObjects(p, now);
    if turn.Failed? {
      FailLaneQuiet(now, turn.id, turn.unsentOpen);
      AllQuietThen(p, now, FailLane(now, turn.id, turn.unsentOpen));
    }
  }

  /** What the application and the write loop do is quiet. */
  lemma OwnQuiet(p: Peer, a: Action, cfg: Config)
    requires Sound(p, cfg) && !a.Read? && !a.Open?
    ensures AllQuiet(p, Act(p, a, cfg))
  {
    hide AllQuiet, Sound, SendData, AppReset, HandlerError, NextFrame, Advance, Die, Enqueue, AfterTurn;
    SameObjects(p, Act(p, Ping([]), cfg));
    match a
    case Register => SameObjects(p, Act(p, a, cfg));
    case Send(id, data, leading, last, trailers) => SendQuiet(p, id, data, leading, last, trailers, cfg);
    case Reset(id, code) => AppResetQuiet(p, id, code);
    case HandlerRaises(id, error) => HandlerErrorQuiet(p, id, error);
    case Goodbye(_) => SameObjects(p, Act(p, a, cfg));
    case Ping(_) => SameObjects(p, Act(p, a, cfg));
    case Take =>
      var (w, turn) := NextFrame(p.writer, cfg.cap, cfg.codec);
      AfterTurnQuiet(p, w, turn);
    case Taken(lane) =>
      var (w, turn) := Advance(p.writer, lane, cfg.cap, cfg.codec);
      AfterTurnQuiet(p, w, turn);
    case SocketDies => DieQuiet(p);
  }

  lemma SendQuiet(p: Peer, id: nat, payload: Option<Value>, headers: Option<Fields>, end: bool,
                  trailers: Option<Fields>, cfg: Config)
    requires Sound(p, cfg)
    ensures AllQuiet(p, SendData(p, id, payload, headers, end, trailers))
  {
    hide AllQuiet, Sound, Hears, Put, Enqueue, S.LocalEnd, S.NoteSent;
    SameObjects(p, p);
    if id in p.objects && S.MaySend(p.objects[id], headers) {
      NotEndedIsOpen(p, id, cfg);
      var noted := S.NoteSent(p.objects[id], headers);
      var q := Queue(p,
                     Bare(DataFrame, Some(id)).(payload := payload, headers := headers, end := end,
                                                trailers := trailers));
      SpokenIsQuiet(p.objects[id], headers, end);
      SameObjects(p, q);
      PutQuiet(q, id, if end then S.LocalEnd(noted) else noted);
      AllQuietThen(p, q, Put(q, id, if end then S.LocalEnd(noted) else noted));
    }
  }

  lemma NotEndedIsOpen(p: Peer, id: nat, cfg: Config)
    requires Sound(p, cfg) && id in p.objects
    ensures var s := p.objects[id];
            && (s.cause.NotEnded? <==> s.state != S.Closed) && s.state != S.Idle
            && (id in p.live <==> s.state != S.Closed)
            && (s.state == S.Open || s.state == S.HalfClosedLocal ==> !EndIn(s))
  {
    assert Kept(p, id, p.objects[id], cfg);
  }

  lemma AppResetQuiet(p: Peer, id: nat, code: int)
    ensures AllQuiet(p, AppReset(p, id, code))
  {
    hide AllQuiet, ResetStream, FailStream, Sendable;
    SameObjects(p, p);
    if id in p.objects {
      ResetStreamQuiet(p, id, code);
      FailStreamQuiet(p, id, code);
      assert ResetStream(p, id, code)
          == FailStream(EnqueueReset(p, id, code), id, code) by { ResetStreamIs(p, id, code); }
    }
  }

  lemma ResetStreamIs(p: Peer, id: nat, code: int)
    requires id in p.objects
    ensures ResetStream(p, id, code) == FailStream(EnqueueReset(p, id, code), id, code)
  {
  }

  lemma HandlerErrorQuiet(p: Peer, id: nat, payload: Option<Value>)
    ensures AllQuiet(p, HandlerError(p, id, payload))
  {
    hide AllQuiet, FailStream, Enqueue;
    SameObjects(p, p);
    if id in p.objects {
      var q := Queue(p, ResetWith(id, APPLICATION_ERROR, payload));
      SameObjects(p, q);
      FailStreamQuiet(q, id, APPLICATION_ERROR);
      AllQuietThen(p, q, FailStream(q, id, APPLICATION_ERROR));
    }
  }

  // ------------------------------------------------------------ what a frame brings

  /** The payload that inbound `data` completes on a stream. */
  function DataBrings(s: S.Stream, frame: Frame, cfg: Config): seq<Value> {
    if s.state == S.HalfClosedRemote || s.state == S.Closed || (s.receivedAFrame && frame.headers.Some?)
       || (s.partial.parts != [] && frame.fragment.None?) then []
    else if frame.fragment.None? then (if frame.payload.Some? then [frame.payload.value] else [])
    else if !WithinPayloadCap(s, frame.fragment.value, cfg) then []
    else
      match A.Feed(s.partial, frame, cfg.codec).1
      case Decoded(v) => [v]
      case _ => []
  }

  /** The payload an action brings to stream `id`: only `data` does, on a live stream. */
  function Brings(p: Peer, a: Action, id: nat, cfg: Config): seq<Value> {
    if a.Read? && p.isOpen && !p.failed && a.size <= cfg.cap && a.frame.kind == DataFrame && a.frame.stream == Some(id)
       && id in p.live && id in p.objects
    then DataBrings(p.objects[id], a.frame, cfg)
    else []
  }

  lemma DeliverHears(p: Peer, id: nat, payload: Option<Value>, frame: Frame)
    requires id in p.objects && !EndIn(p.objects[id])
    requires p.objects[id].state == S.Open || p.objects[id].state == S.HalfClosedLocal
    ensures OneHears(p, PeerModel.Deliver(p, id, payload, frame), id, if payload.Some? then [payload.value] else [],
                     Some(DataFrame))
  {
    hide Hears, OneHears, Put;
    var s := p.objects[id];
    var accepted := if payload.Some? then S.AcceptPayload(s, payload.value) else s;
    var done := if frame.end then S.RemoteEnd(accepted, frame.trailers) else accepted;
    HandedHears(s, payload, frame);
    PutHears(p, id, done, if payload.Some? then [payload.value] else [], Some(DataFrame));
  }

  lemma HearsThen(s: S.Stream, t: S.Stream, u: S.Stream, first: seq<Value>, second: seq<Value>, kind: Option<FrameType>)
    requires Hears(s, t, first, kind) && Hears(t, u, second, kind)
    ensures Hears(s, u, first + second, kind)
  {
    assert (S.Accepted(s.queue) + first) + second == S.Accepted(s.queue) + (first + second);
  }

  lemma AcceptHears(s: S.Stream, v: Value, kind: Option<FrameType>)
    requires s.state == S.Open || s.state == S.HalfClosedLocal
    ensures Hears(s, S.AcceptPayload(s, v), [v], kind)
  {
    S.AcceptedSnoc(s.queue, S.Payload(v));
    if Answering(s) { PushAnswers(s, S.AcceptPayload(s, v), S.Payload(v)); }
  }

  lemma RemoteEndHears(s: S.Stream, trailers: Option<Fields>)
    requires !EndIn(s) && (s.state == S.Open || s.state == S.HalfClosedLocal)
    ensures Hears(s, S.RemoteEnd(s, trailers), [], Some(DataFrame))
  {
    hide KeepsAnswer;
    S.AcceptedSnoc(s.queue, S.End);
    assert S.Accepted(s.queue) + [] == S.Accepted(s.queue);
    assert (s.queue + [S.End])[|s.queue|] == S.End;
    EndAnswers(s, trailers);
  }

  lemma EndAnswers(s: S.Stream, trailers: Option<Fields>)
    requires s.state == S.Open || s.state == S.HalfClosedLocal
    ensures KeepsAnswer(s, S.RemoteEnd(s, trailers))
  {
    if Answering(s) { PushAnswers(s, S.RemoteEnd(s, trailers), S.End); }
  }

  lemma HandedHears(s: S.Stream, payload: Option<Value>, frame: Frame)
    requires !EndIn(s) && (s.state == S.Open || s.state == S.HalfClosedLocal)
    ensures var accepted := if payload.Some? then S.AcceptPayload(s, payload.value) else s;
            Hears(s, if frame.end then S.RemoteEnd(accepted, frame.trailers) else accepted,
                  if payload.Some? then [payload.value] else [], Some(DataFrame))
  {
    hide Hears, S.RemoteEnd;
    var accepted := if payload.Some? then S.AcceptPayload(s, payload.value) else s;
    var values := if payload.Some? then [payload.value] else [];
    QuietSelf(s);
    if payload.Some? { AcceptHears(s, payload.value, Some(DataFrame)); } else { QuietHears(s, s, Some(DataFrame)); }
    if frame.end {
      RemoteEndHears(accepted, frame.trailers);
      HearsThen(s, accepted, S.RemoteEnd(accepted, frame.trailers), values, [], Some(DataFrame));
      assert values + [] == values;
    }
  }

  lemma QuietHears(s: S.Stream, t: S.Stream, kind: Option<FrameType>)
    requires Quiet(s, t)
    ensures Hears(s, t, [], kind)
  {
  }

  lemma OneHearsAny(p: Peer, p': Peer, id: nat, ended: bool)
    requires OneHears(p, p', id, [], EndOf(ended))
    ensures OneHears(p, p', id, [], Some(OpenFrame))
  {
    hide Hears;
    forall x | x in p.objects
      ensures Hears(p.objects[x], p'.objects[x], [], if x == id then Some(OpenFrame) else None)
    {
      if x == id && !ended { QuietHears(p.objects[x], p'.objects[x], Some(OpenFrame)); }
    }
  }

  /** A fragment that is absorbed changes nothing a consumer sees. */
  lemma AbsorbQuiet(p: Peer, id: nat, frame: Frame, cfg: Config)
    requires id in p.objects && frame.fragment.Some? && p.objects[id].state != S.Closed
    ensures AllQuiet(p, Absorb(p, id, frame, cfg).0)
    ensures var (q, payload) := Absorb(p, id, frame, cfg);
            && id in q.objects
            && (payload.Some? ==> q.objects[id] == p.objects[id].(partial := q.objects[id].partial))
            && payload == (if WithinPayloadCap(p.objects[id], frame.fragment.value, cfg)
                           then (match A.Feed(p.objects[id].partial, frame, cfg.codec).1 case Decoded(v) =>
                                 Some(v) case _ => None)
                           else None)
  {
    hide AllQuiet, ResetStream, A.Feed, Put;
    var s := p.objects[id];
    var partial := A.Feed(s.partial, frame, cfg.codec).0;
    PartialQuiet(p, id, A.NOTHING);
    PartialQuiet(p, id, partial);
    PutGives(p, id, s.(partial := A.NOTHING));
    PutGives(p, id, s.(partial := partial));
    var dropped, fed := Put(p, id, s.(partial := A.NOTHING)), Put(p, id, s.(partial := partial));
    ResetStreamQuiet(dropped, id, PAYLOAD_TOO_LARGE);
    ResetStreamQuiet(fed, id, PROTOCOL_ERROR);
    AllQuietThen(p, dropped, ResetStream(dropped, id, PAYLOAD_TOO_LARGE));
    AllQuietThen(p, fed, ResetStream(fed, id, PROTOCOL_ERROR));
    AllQuietHas(p, Absorb(p, id, frame, cfg).0, id);
  }

  lemma AllQuietHas(p: Peer, p': Peer, id: nat)
    requires AllQuiet(p, p') && id in p.objects
    ensures id in p'.objects
  {
  }

  lemma PutGives(p: Peer, id: nat, s: S.Stream)
    ensures id in Put(p, id, s).objects && Put(p, id, s).objects[id] == s
  {
  }

  lemma PartialQuiet(p: Peer, id: nat, partial: A.Partial)
    requires id in p.objects && p.objects[id].state != S.Closed
    ensures AllQuiet(p, Put(p, id, p.objects[id].(partial := partial)))
  {
    hide Hears, Put, AllQuiet;
    InnerIsQuiet(p.objects[id], p.objects[id].(partial := partial));
    PutQuiet(p, id, p.objects[id].(partial := partial));
  }

  lemma OnDataHears(p: Peer, id: nat, frame: Frame, cfg: Config)
    requires Sound(p, cfg) && id in p.live && id in p.objects
    ensures OneHears(p, OnData(p, id, frame, cfg), id, DataBrings(p.objects[id], frame, cfg), Some(DataFrame))
  {
    hide Hears, OneHears, AllQuiet, ResetStream, Absorb, PeerModel.Deliver, Put, A.Feed, Sound;
    NotEndedIsOpen(p, id, cfg);
    var s := p.objects[id];
    var (noted, allowed) := S.NoteRemoteFrame(s, frame.headers);
    var q := Put(p, id, noted);
    InnerIsQuiet(s, noted);
    PutQuiet(p, id, noted);
    PutGives(p, id, noted);
    ResetStreamQuiet(p, id, PROTOCOL_ERROR);
    ResetStreamQuiet(q, id, PROTOCOL_ERROR);
    AllQuietThen(p, q, ResetStream(q, id, PROTOCOL_ERROR));
    QuietIsOne(p, ResetStream(p, id, PROTOCOL_ERROR), id, Some(DataFrame));
    QuietIsOne(p, ResetStream(q, id, PROTOCOL_ERROR), id, Some(DataFrame));
    if s.state != S.Closed && s.state != S.HalfClosedRemote {
      DeliverHears(q, id, frame.payload, frame);
      QuietThenOne(p, q, PeerModel.Deliver(q, id, frame.payload, frame), id,
                   if frame.payload.Some? then [frame.payload.value] else [], Some(DataFrame));
      if frame.fragment.Some? {
        AbsorbQuiet(q, id, frame, cfg);
        var (absorbed, payload) := Absorb(q, id, frame, cfg);
        AllQuietThen(p, q, absorbed);
        QuietIsOne(p, absorbed, id, Some(DataFrame));
        if payload.Some? {
          DeliverHears(absorbed, id, payload, frame);
          QuietThenOne(p, absorbed, PeerModel.Deliver(absorbed, id, payload, frame), id, [payload.value],
                       Some(DataFrame));
        }
      }
    }
  }

  lemma OnStreamFrameHears(p: Peer, frame: Frame, cfg: Config)
    requires Sound(p, cfg) && (frame.kind == DataFrame || frame.kind == ResetFrame)
    ensures var p' := OnStreamFrame(p, frame, cfg);
            if frame.stream.Some? && frame.stream.value in p.live && frame.stream.value in p.objects
                && frame.kind == DataFrame
            then OneHears(p, p', frame.stream.value, DataBrings(p.objects[frame.stream.value], frame, cfg),
                          Some(DataFrame))
            else AllQuiet(p, p')
  {
    hide OneHears, AllQuiet, FailStream, OnData, Discard, Sound, Enqueue, DataBrings;
    SameObjects(p, FailConnection(p));
    SameObjects(p, p.(ignoredLate := p.ignoredLate + 1));
    if frame.stream.Some? && frame.stream.value in p.live && frame.stream.value in p.objects {
      var id := frame.stream.value;
      if frame.kind == DataFrame {
        OnDataHears(p, id, frame, cfg);
      } else {
        var q := p.(writer := Discard(p.writer, id));
        SameObjects(p, q);
        FailStreamQuiet(q, id, if frame.code.Some? then frame.code.value else 0);
        AllQuietThen(p, q, FailStream(q, id, if frame.code.Some? then frame.code.value else 0));
      }
    }
  }

  // ------------------------------------------------------------ what an `open` brings

  /** A stream's first step: nothing is on its queue that a consumer is given, and no end. */
  ghost predicate Newborn(t: S.Stream) {
    && S.Accepted(t.queue) == [] && Rounded(t) && Answering(t) && (t.state == S.HalfClosedRemote ==> !EndIn(t))
    && t.claim == S.Unclaimed && t.read == 0
  }

  /** The kind of frame an opening fragment ends the remote's side by, if it does. */
  function EndOf(ended: bool): Option<FrameType> {
    if ended then Some(OpenFrame) else None
  }

  lemma CompletedHears(s: S.Stream, payload: Option<Value>, ended: bool)
    requires s.state != S.Closed && (s.state != S.HalfClosedRemote ==> !EndIn(s))
    ensures Hears(s, Completed(s, payload, ended), [], EndOf(ended))
  {
    assert S.Accepted(s.queue) + [] == S.Accepted(s.queue);
  }

  lemma StartHandlerQuiet(p: Peer, id: nat)
    requires id in p.objects && p.objects[id].state != S.Closed
    ensures AllQuiet(p, StartHandler(p, id))
  {
    hide AllQuiet, Hears, FailStream, Enqueue, Put;
    var q := QueueReset(p, id, REFUSED);
    SameObjects(p, q);
    FailStreamQuiet(q, id, REFUSED);
    AllQuietThen(p, q, FailStream(q, id, REFUSED));
    InnerIsQuiet(p.objects[id], p.objects[id].(started := true));
    PutQuiet(p, id, p.objects[id].(started := true));
  }

  lemma FeedOpeningHears(p: Peer, id: nat, frame: Frame, later: bool, cfg: Config)
    requires id in p.objects && frame.fragment.Some? && p.objects[id].state != S.Closed
    requires p.objects[id].state != S.HalfClosedRemote ==> !EndIn(p.objects[id])
    ensures OneHears(p, FeedOpening(p, id, frame, later, cfg), id, [], EndOf(later && frame.end))
  {
    hide AllQuiet, OneHears, Hears, Absorb, StartHandler, Put, Completed, WithinPayloadCap, A.Feed;
    AbsorbQuiet(p, id, frame, cfg);
    var (absorbed, payload) := Absorb(p, id, frame, cfg);
    QuietIsOne(p, absorbed, id, EndOf(later && frame.end));
    if payload.Some? {
      StartedHears(p, absorbed, id, payload, later && frame.end);
    }
  }

  /** The opening payload is whole, and the stream starts or is refused. */
  lemma StartedHears(p: Peer, absorbed: Peer, id: nat, payload: Option<Value>, ended: bool)
    requires AllQuiet(p, absorbed) && id in absorbed.objects && absorbed.objects[id].state != S.Closed
    requires absorbed.objects[id].state != S.HalfClosedRemote ==> !EndIn(absorbed.objects[id])
    ensures var q := Put(absorbed, id, Completed(absorbed.objects[id], payload, ended));
            id in q.objects && OneHears(p, StartHandler(q, id), id, [], EndOf(ended))
  {
    hide AllQuiet, OneHears, Hears, StartHandler, Put, Completed, EndIn;
    var s := absorbed.objects[id];
    var done := Completed(s, payload, ended);
    var q := Put(absorbed, id, done);
    CompletedHears(s, payload, ended);
    CompletedOpen(s, payload, ended);
    PutHears(absorbed, id, done, [], EndOf(ended));
    PutGives(absorbed, id, done);
    QuietThenOne(p, absorbed, q, id, [], EndOf(ended));
    StartHandlerQuiet(q, id);
    OneThenQuiet(p, q, StartHandler(q, id), id, [], EndOf(ended));
  }

  lemma CompletedOpen(s: S.Stream, payload: Option<Value>, ended: bool)
    requires s.state != S.Closed
    ensures Completed(s, payload, ended).state != S.Closed
  {
  }

  /** Every stream that was goes on quietly, and `id` is new. */
  ghost predicate OneBorn(p: Peer, p': Peer, id: nat) {
    && id !in p.objects && p'.objects.Keys == p.objects.Keys + {id}
    && (forall x :: x in p.objects ==> Quiet(p.objects[x], p'.objects[x]))
    && Newborn(p'.objects[id])
  }

  lemma CreateBorn(p: Peer, q: Peer, s: S.Stream, r: Peer)
    requires s.id !in p.objects && q.objects == Create(p, s).objects && s.queue == [] && s.cause.NotEnded?
    requires s.answer.NotAsked? && s.state != S.Closed && s.claim == S.Unclaimed && s.read == 0
    requires OneHears(q, r, s.id, [], None)
    ensures OneBorn(p, r, s.id)
  {
    forall x | x in p.objects
      ensures Quiet(p.objects[x], r.objects[x])
    {
      assert q.objects[x] == p.objects[x];
      assert x != s.id;
    }
    assert Hears(s, r.objects[s.id], [], None);
  }

  lemma OnOpenLives(p: Peer, frame: Frame, cfg: Config)
    requires Sound(p, cfg) && frame.kind == OpenFrame
    ensures var p' := OnOpen(p, frame, cfg);
            || (ContinuesOpening(p, frame) && OneHears(p, p', frame.stream.value, [], EndOf(frame.end)))
            || AllQuiet(p, p')
            || (&& frame.stream.Some? && !ContinuesOpening(p, frame)
                && !IsOurs(p, frame.stream.value) && p.highRemote < frame.stream.value
                      && OneBorn(p, p', frame.stream.value))
  {
    hide Sound, AllQuiet, OneHears, OneBorn, FeedOpening, StartHandler, Enqueue, RemoteLive, Create;
    var p' := OnOpen(p, frame, cfg);
    SameObjects(p, FailConnection(p));
    if frame.stream.Some? {
      var id := frame.stream.value;
      var admitted := p.(highRemote := id);
      if ContinuesOpening(p, frame) {
        NotEndedIsOpen(p, id, cfg);
        FeedOpeningHears(p, id, frame, true, cfg);
      } else if Admissible(p, id) {
        AdmittedIsNew(p, id, cfg);
        if cfg.maxStreams <= |RemoteLive(p)| {
          SameObjects(p, p');
        } else {
          var s := S.NewStream(id, false, if frame.end then S.HalfClosedRemote else S.Open, frame.headers, None);
          if frame.fragment.Some? {
            var q := Create(admitted, s.(opening := true));
            CreateGives(admitted, s.(opening := true));
            FeedOpeningHears(q, id, frame, false, cfg);
            CreateBorn(p, q, s.(opening := true), p') by { CreateKeeps(p, id, s.(opening := true)); }
          } else {
            var whole := s.(payload := Some(if frame.payload.Some? then frame.payload.value else Null));
            var q := Create(admitted, whole);
            CreateGives(admitted, whole);
            StartHandlerQuiet(q, id);
            QuietIsOne(q, StartHandler(q, id), id, None);
            CreateBorn(p, q, whole, p') by { CreateKeeps(p, id, whole); }
          }
        }
      }
    }
  }

  lemma AdmittedIsNew(p: Peer, id: nat, cfg: Config)
    requires Sound(p, cfg) && Admissible(p, id)
    ensures id !in p.objects
  {
    assert id in p.objects ==> Kept(p, id, p.objects[id], cfg);
  }

  lemma CreateGives(p: Peer, s: S.Stream)
    ensures s.id in Create(p, s).objects && Create(p, s).objects[s.id] == s
  {
  }

  lemma CreateKeeps(p: Peer, id: nat, s: S.Stream)
    ensures Create(p.(highRemote := id), s).objects == Create(p, s).objects
  {
  }

  // ------------------------------------------------------------ every step

  function KindOf(a: Action): Option<FrameType> {
    if a.Read? then Some(a.frame.kind) else None
  }

  /** What any action does to every stream: those that were go on and hear what the action brings; a new one has
      an id above its mark, and is born of an `open`, this peer's or the remote's. */
  ghost predicate Lived(p: Peer, a: Action, p': Peer, cfg: Config) {
    && (forall x ::
        x in p.objects ==> x in p'.objects && Hears(p.objects[x], p'.objects[x], Brings(p, a, x, cfg), KindOf(a)))
    && (forall x :: x in p'.objects && x !in p.objects ==>
          && Newborn(p'.objects[x]) && MarkFor(p, x) < x
          && (p'.objects[x].state == S.HalfClosedRemote ==> KindOf(a) == Some(OpenFrame)))
  }

  lemma QuietLived(p: Peer, a: Action, p': Peer, cfg: Config)
    requires AllQuiet(p, p') && forall x :: x in p.objects ==> Brings(p, a, x, cfg) == []
    ensures Lived(p, a, p', cfg)
  {
    hide Brings;
    forall x | x in p.objects
      ensures Hears(p.objects[x], p'.objects[x], Brings(p, a, x, cfg), KindOf(a))
    {
      assert Quiet(p.objects[x], p'.objects[x]);
    }
  }

  lemma OneLived(p: Peer, a: Action, p': Peer, id: nat, values: seq<Value>, cfg: Config)
    requires OneHears(p, p', id, values, KindOf(a))
    requires forall x :: x in p.objects ==> Brings(p, a, x, cfg) == if x == id then values else []
    ensures Lived(p, a, p', cfg)
  {
    hide Brings, Hears;
    forall x | x in p.objects && x != id
      ensures Hears(p.objects[x], p'.objects[x], [], KindOf(a))
    {
      QuietHears(p.objects[x], p'.objects[x], KindOf(a));
    }
  }

  lemma BornLived(p: Peer, a: Action, p': Peer, id: nat, cfg: Config)
    requires OneBorn(p, p', id) && MarkFor(p, id) < id && forall x :: x in p.objects ==> Brings(p, a, x, cfg) == []
    requires p'.objects[id].state == S.HalfClosedRemote ==> KindOf(a) == Some(OpenFrame)
    ensures Lived(p, a, p', cfg)
  {
    hide Brings, Hears, Newborn;
    forall x | x in p.objects
      ensures Hears(p.objects[x], p'.objects[x], [], KindOf(a))
    {
      QuietHears(p.objects[x], p'.objects[x], KindOf(a));
    }
  }

  lemma OpenLives(p: Peer, payload: Value, headers: Option<Fields>, end: bool, cfg: Config)
    requires Sound(p, cfg) && p.highLocal < p.nextId && p.nextId % 2 == OwnParity(p.dialer)
    ensures Lived(p, Open(payload, headers, end), OpenStream(p, payload, headers, end), cfg)
  {
    hide Enqueue, Hears, Sound, AllQuiet;
    var a := Open(payload, headers, end);
    var p' := OpenStream(p, payload, headers, end);
    if MayOpen(p) {
      NextIsNew(p, cfg);
      forall x | x in p.objects ensures Quiet(p.objects[x], p'.objects[x]) { QuietSelf(p.objects[x]); }
      BornLived(p, a, p', p.nextId, cfg);
    } else {
      SameObjects(p, p');
      QuietLived(p, a, p', cfg);
    }
  }

  lemma NextIsNew(p: Peer, cfg: Config)
    requires Sound(p, cfg) && p.highLocal < p.nextId && p.nextId % 2 == OwnParity(p.dialer)
    ensures p.nextId !in p.objects
  {
    assert p.nextId in p.objects ==> Kept(p, p.nextId, p.objects[p.nextId], cfg);
  }

  lemma OverCapLives(p: Peer, frame: Frame, size: nat, cfg: Config)
    requires Sound(p, cfg) && p.isOpen && !p.failed && cfg.cap < size
    ensures Lived(p, Read(frame, size), OverCap(p, frame, cfg), cfg)
  {
    hide Sound, AllQuiet, Lived, ResetStream, OnStreamFrame, Enqueue, OneHears;
    var p' := OverCap(p, frame, cfg);
    SameObjects(p, FailConnection(p));
    if frame.stream.Some? {
      var id := frame.stream.value;
      if id in p.live && id in p.objects { ResetStreamQuiet(p, id, PAYLOAD_TOO_LARGE); }
      if frame.kind == DataFrame || frame.kind == ResetFrame { OnStreamFrameHears(p, frame, cfg); }
      SameObjects(p, QueueReset(p, id, PAYLOAD_TOO_LARGE));
      if p'.objects == p.objects { SameObjects(p, p'); }
    }
    QuietLived(p, Read(frame, size), p', cfg);
  }

  lemma ReadLives(p: Peer, frame: Frame, size: nat, cfg: Config)
    requires Sound(p, cfg)
    ensures Lived(p, Read(frame, size), Receive(p, frame, size, cfg), cfg)
  {
    hide Sound, AllQuiet, Lived, OneHears, OneBorn, OnOpen, OnStreamFrame, OverCap, Enqueue, DataBrings;
    var a := Read(frame, size);
    var p' := Receive(p, frame, size, cfg);
    if !p.isOpen || p.failed {
      SameObjects(p, p');
      QuietLived(p, a, p', cfg);
    } else if cfg.cap < size {
      OverCapLives(p, frame, size, cfg);
    } else {
      match frame.kind
      case OpenFrame =>
        OnOpenLives(p, frame, cfg);
        if AllQuiet(p, p') {
          QuietLived(p, a, p', cfg);
        } else if ContinuesOpening(p, frame) {
          OneHearsAny(p, p', frame.stream.value, frame.end);
          OneLived(p, a, p', frame.stream.value, [], cfg);
        } else {
          BornLived(p, a, p', frame.stream.value, cfg);
        }
      case DataFrame =>
        OnStreamFrameHears(p, frame, cfg);
        if frame.stream.Some? && frame.stream.value in p.live && frame.stream.value in p.objects {
          OneLived(p, a, p', frame.stream.value, DataBrings(p.objects[frame.stream.value], frame, cfg), cfg);
        } else {
          QuietLived(p, a, p', cfg);
        }
      case ResetFrame => OnStreamFrameHears(p, frame, cfg); QuietLived(p, a, p', cfg);
      case GoawayFrame => GoawayQuiet(p, frame); QuietLived(p, a, p', cfg);
      case _ => SameObjects(p, p'); QuietLived(p, a, p', cfg);
    }
  }

  lemma GoawayQuiet(p: Peer, frame: Frame)
    ensures AllQuiet(p, OnGoaway(p, frame))
  {
    hide AllQuiet, FailAll, Unprocessed;
    var heard := p.(goaway := p.goaway.(received := true, remoteLast := frame.lastStream));
    FailAllQuiet(p, OnGoaway(p, frame), Unprocessed(heard), REFUSED);
  }

  lemma ActLives(p: Peer, a: Action, cfg: Config)
    requires Sound(p, cfg) && 0 < p.nextId
    ensures Lived(p, a, Act(p, a, cfg), cfg)
  {
    hide Sound, AllQuiet, Lived, Receive, OpenStream, Act;
    if a.Open? {
      SoundIsTopped(p, cfg);
      OpenLives(p, a.payload, a.headers, a.end, cfg);
      assert Act(p, a, cfg) == OpenStream(p, a.payload, a.headers, a.end) by { ActIs(p, a, cfg); }
    } else if a.Read? {
      ReadLives(p, a.frame, a.size, cfg);
      assert Act(p, a, cfg) == Receive(p, a.frame, a.size, cfg) by { ActIs(p, a, cfg); }
    } else {
      OwnQuiet(p, a, cfg);
      QuietLived(p, a, Act(p, a, cfg), cfg);
    }
  }

  lemma ActIs(p: Peer, a: Action, cfg: Config)
    ensures a.Open? ==> Act(p, a, cfg) == OpenStream(p, a.payload, a.headers, a.end)
    ensures a.Read? ==> Act(p, a, cfg) == Receive(p, a.frame, a.size, cfg)
  {
    hide OpenStream, Receive;
  }

  // ------------------------------------------------------------ every run

  /** What every step keeps. */
  ghost predicate Able(p: Peer, cfg: Config) {
    Sound(p, cfg) && Bounded(p, cfg) && 0 < p.nextId
  }

  lemma NewAble(dialer: bool, cfg: Config)
    ensures Able(NewPeer(dialer), cfg)
  {
    hide Sound, Bounded;
    NewPeerSound(dialer, cfg);
  }

  lemma ActMarks(p: Peer, a: Action, cfg: Config) returns (opens: Option<nat>)
    requires Able(p, cfg)
    ensures Able(Act(p, a, cfg), cfg) && MarksMove(p, opens, Act(p, a, cfg))
    ensures opens.Some? && IsOurs(p, opens.value) ==> a.Open? && MayOpen(p) && opens.value == p.nextId
  {
    hide Sound, Bounded, Act, Receive, OpenStream, MarksMove, Topped, ContinuesOpening;
    ActSound(p, a, cfg);
    SoundIsTopped(p, cfg);
    ActIs(p, a, cfg);
    opens := None;
    if a.Open? {
      OpenMoves(p, a.payload, a.headers, a.end);
      opens := if MayOpen(p) then Some(p.nextId) else None;
    } else if !a.Read? {
      OwnStill(p, a, cfg);
      StillMoves(p, Act(p, a, cfg));
    } else if p.isOpen && !p.failed {
      ReadMoves(p, a.frame, a.size, cfg);
      opens := if a.frame.kind == OpenFrame && a.frame.stream.Some? && !ContinuesOpening(p, a.frame)
                  && Admissible(p, a.frame.stream.value) then a.frame.stream else None;
    } else {
      assert Act(p, a, cfg) == p by { ClosedReadsNothing(p, a.frame, a.size, cfg); }
      StillMoves(p, p);
    }
  }

  lemma ClosedReadsNothing(p: Peer, frame: Frame, size: nat, cfg: Config)
    requires !p.isOpen || p.failed
    ensures Receive(p, frame, size, cfg) == p
  {
  }

  /** The payloads brought to stream `id` over a run, in order. */
  function Brought(p: Peer, actions: seq<Action>, id: nat, cfg: Config): seq<Value>
    decreases |actions|
  {
    if actions == [] then []
    else Brings(p, actions[0], id, cfg) + Brought(Act(p, actions[0], cfg), actions[1..], id, cfg)
  }

  function AcceptedOn(p: Peer, id: nat): seq<Value> {
    if id in p.objects then S.Accepted(p.objects[id].queue) else []
  }

  lemma {:induction false} RunAccepts(p: Peer, actions: seq<Action>, id: nat, cfg: Config)
    requires Able(p, cfg)
    ensures AcceptedOn(ActAll(p, actions, cfg), id) == AcceptedOn(p, id) + Brought(p, actions, id, cfg)
    decreases |actions|
  {
    hide Able, Act, Brings, S.Accepted;
    if actions != [] {
      var p' := Act(p, actions[0], cfg);
      var opens := ActMarks(p, actions[0], cfg);
      StepAccepts(p, actions[0], id, cfg);
      RunAccepts(p', actions[1..], id, cfg);
    }
  }

  lemma StepAccepts(p: Peer, a: Action, id: nat, cfg: Config)
    requires Able(p, cfg)
    ensures AcceptedOn(Act(p, a, cfg), id) == AcceptedOn(p, id) + Brings(p, a, id, cfg)
  {
    hide Sound, Act, Brings;
    ActLives(p, a, cfg);
    if id !in p.objects { NothingBrought(p, a, id, cfg); }
  }

  lemma NothingBrought(p: Peer, a: Action, id: nat, cfg: Config)
    requires id !in p.objects
    ensures Brings(p, a, id, cfg) == []
  {
    hide DataBrings;
  }

  /** In every run of a peer, whatever its remote sends, a consumer that iterates any of its streams is given
      exactly what inbound `data` brought to that stream, in order. */
  lemma ConsumersGetWhatArrived(dialer: bool, actions: seq<Action>, id: nat, cfg: Config)
    requires id in ActAll(NewPeer(dialer), actions, cfg).objects
    ensures S.Iterated(ActAll(NewPeer(dialer), actions, cfg).objects[id].queue)
      == Brought(NewPeer(dialer), actions, id, cfg)
  {
    hide Brought, Able;
    NewAble(dialer, cfg);
    RunAccepts(NewPeer(dialer), actions, id, cfg);
    ConsumersGetWhatWasAccepted(dialer, actions, cfg, id);
    assert AcceptedOn(NewPeer(dialer), id) == [];
  }

  // ------------------------------------------------------------ the end of the remote's side

  predicate RemoteEnded(p: Peer, id: nat) {
    id in p.objects && (p.objects[id].state == S.HalfClosedRemote || p.objects[id].state == S.Closed)
  }

  /** The kind of the frame in whose reading the remote's side of stream `id` came to be ended; `known` is that of
      the run before. */
  function EndingKind(p: Peer, known: Option<FrameType>, actions: seq<Action>, id: nat, cfg: Config): Option<FrameType>
    decreases |actions|
  {
    if actions == [] then known
    else
      var p' := Act(p, actions[0], cfg);
      EndingKind(p', if !RemoteEnded(p, id) && RemoteEnded(p', id) then KindOf(actions[0]) else known, actions[1..],
                 id, cfg)
  }

  /** A half-closed stream has its end queued exactly if `data` brought it, a closed one that was not reset always. */
  ghost predicate EndAgrees(p: Peer, known: Option<FrameType>, id: nat) {
    id in p.objects ==>
      && Rounded(p.objects[id])
      && (p.objects[id].state == S.HalfClosedRemote ==> (EndIn(p.objects[id]) <==> known == Some(DataFrame)))
  }

  lemma StepEndAgrees(p: Peer, known: Option<FrameType>, a: Action, id: nat, cfg: Config)
    requires Able(p, cfg) && EndAgrees(p, known, id)
    ensures var p' := Act(p, a, cfg);
            EndAgrees(p', if !RemoteEnded(p, id) && RemoteEnded(p', id) then KindOf(a) else known, id)
  {
    hide Sound, Act, Brings, Newborn;
    ActLives(p, a, cfg);
    var p' := Act(p, a, cfg);
    if id in p'.objects && id !in p.objects {
      assert Newborn(p'.objects[id])
          ==> Rounded(p'.objects[id]) && (p'.objects[id].state == S.HalfClosedRemote ==> !EndIn(p'.objects[id])) by {
        NewbornMeans(p'.objects[id]);
      }
    }
  }

  lemma NewbornMeans(t: S.Stream)
    ensures Newborn(t) ==> Rounded(t) && (t.state == S.HalfClosedRemote ==> !EndIn(t))
  {
  }

  lemma {:induction false} RunEndAgrees(p: Peer, known: Option<FrameType>, actions: seq<Action>, id: nat, cfg: Config)
    requires Able(p, cfg) && EndAgrees(p, known, id)
    ensures EndAgrees(ActAll(p, actions, cfg), EndingKind(p, known, actions, id, cfg), id)
    decreases |actions|
  {
    hide Able, Act, EndAgrees, RemoteEnded;
    if actions != [] {
      var p' := Act(p, actions[0], cfg);
      var opens := ActMarks(p, actions[0], cfg);
      StepEndAgrees(p, known, actions[0], id, cfg);
      RunEndAgrees(p', if !RemoteEnded(p, id) && RemoteEnded(p', id) then KindOf(actions[0]) else known, actions[1..],
                   id, cfg);
    }
  }

  /** The end of a remote's side is on the queue, for an iterator to stop at and an await to fail on, if and only if
      it came on `data` or the stream has closed: the end that an `open` carries is never queued. */
  lemma EndIsQueuedIff(dialer: bool, actions: seq<Action>, id: nat, cfg: Config)
    requires var p := ActAll(NewPeer(dialer), actions, cfg); RemoteEnded(p, id) && !p.objects[id].cause.ByReset?
    ensures var s := ActAll(NewPeer(dialer), actions, cfg).objects[id];
            EndIn(s) <==> EndingKind(NewPeer(dialer), None, actions, id, cfg) == Some(DataFrame) || s.state == S.Closed
  {
    hide Act, Able;
    NewAble(dialer, cfg);
    RunEndAgrees(NewPeer(dialer), None, actions, id, cfg);
    RunAble(NewPeer(dialer), actions, cfg);
    NotEndedIsOpen(ActAll(NewPeer(dialer), actions, cfg), id,
                   cfg) by { AbleIsSound(ActAll(NewPeer(dialer), actions, cfg), cfg); }
  }

  lemma AbleIsSound(p: Peer, cfg: Config)
    requires Able(p, cfg)
    ensures Sound(p, cfg)
  {
  }

  lemma {:induction false} RunAble(p: Peer, actions: seq<Action>, cfg: Config)
    requires Able(p, cfg)
    ensures Able(ActAll(p, actions, cfg), cfg)
    decreases |actions|
  {
    hide Able, Act, MarksMove;
    if actions != [] {
      var opens := ActMarks(p, actions[0], cfg);
      RunAble(Act(p, actions[0], cfg), actions[1..], cfg);
    }
  }

  /** The input at which it shows: a whole `open` with `end`, handed to the handler.  Nothing is queued, an await
      waits, and no further frame of the remote's on the stream is delivered. */
  lemma OpenWithEndQueuesNone(p: Peer, id: nat, v: Value, cfg: Config)
    requires p.isOpen && !p.failed && p.handler && !p.goaway.sent && Admissible(p, id)
      && |RemoteLive(p)| < cfg.maxStreams
    ensures var frame := Bare(OpenFrame, Some(id)).(payload := Some(v), end := true);
            var p' := Receive(p, frame, cfg.cap, cfg);
            && id in p'.live && id in p'.objects && p'.objects[id].started
            && p'.objects[id].state == S.HalfClosedRemote && p'.objects[id].queue == []
            && S.Await(p'.objects[id]).Some? && S.Await(p'.objects[id]).value.answer == S.Waiting
            && (forall w :: S.Happen(p'.objects[id], S.Arrived(w)) == p'.objects[id])
            && (forall trailers :: S.Happen(p'.objects[id], S.RemoteEnded(trailers)) == p'.objects[id])
  {
    hide RemoteLive;
    assert !ContinuesOpening(p, Bare(OpenFrame, Some(id)).(payload := Some(v), end := true));
  }

  // ------------------------------------------------------------ an id names one stream

  /** `id` comes to name a stream: it becomes live, gets an object, or is recorded as the highest opened. */
  predicate Begins(p: Peer, p': Peer, id: nat) {
    || (id !in p.live && id in p'.live)
    || (id !in p.objects && id in p'.objects)
    || (MarkFor(p, id) != id && MarkFor(p', id) == id)
  }

  function TimesBegun(p: Peer, actions: seq<Action>, id: nat, cfg: Config): nat
    decreases |actions|
  {
    if actions == [] then 0
    else
      var p' := Act(p, actions[0], cfg);
      (if Begins(p, p', id) then 1 else 0) + TimesBegun(p', actions[1..], id, cfg)
  }

  /** An id begins only above its mark, and the mark is at least it from then on. */
  lemma BeginsAbove(p: Peer, a: Action, id: nat, cfg: Config)
    requires Able(p, cfg)
    ensures var p' := Act(p, a, cfg);
            && MarkFor(p, id) <= MarkFor(p', id)
            && (Begins(p, p', id) ==> MarkFor(p, id) < id <= MarkFor(p', id))
  {
    hide Act, Hears, Newborn, Brings, Bounded;
    var opens := ActMarks(p, a, cfg);
    ActLives(p, a, cfg) by { AbleIsSound(p, cfg); }
    var p' := Act(p, a, cfg);
    if id in p'.objects { NamedIsBelow(p', id, cfg); }
  }

  lemma NamedIsBelow(p: Peer, id: nat, cfg: Config)
    requires Able(p, cfg) && id in p.objects
    ensures id <= MarkFor(p, id)
  {
    hide Bounded;
    assert Kept(p, id, p.objects[id], cfg);
  }

  lemma {:induction false} RunBeginsOnce(p: Peer, actions: seq<Action>, id: nat, cfg: Config)
    requires Able(p, cfg)
    ensures TimesBegun(p, actions, id, cfg) <= if MarkFor(p, id) < id then 1 else 0
    decreases |actions|
  {
    hide Able, Act, Begins, MarkFor, MarksMove;
    if actions != [] {
      var opens := ActMarks(p, actions[0], cfg);
      BeginsAbove(p, actions[0], id, cfg);
      RunBeginsOnce(Act(p, actions[0], cfg), actions[1..], id, cfg);
    }
  }

  /** On one socket no id ever names two streams: in any run against any remote it comes to name one at most once,
      and a stream once named goes on as itself, its queue growing, until it is closed and stays as it was. */
  lemma NoIdIsReused(dialer: bool, actions: seq<Action>, later: seq<Action>, id: nat, cfg: Config)
    ensures TimesBegun(NewPeer(dialer), actions + later, id, cfg) <= 1
    ensures var p := ActAll(NewPeer(dialer), actions, cfg);
            var p' := ActAll(p, later, cfg);
            id in p.objects ==> id in p'.objects && Continues(p.objects[id], p'.objects[id])
  {
    hide Able, ActAll, TimesBegun, Continues;
    NewAble(dialer, cfg);
    RunBeginsOnce(NewPeer(dialer), actions + later, id, cfg);
    RunAble(NewPeer(dialer), actions, cfg);
    RunContinues(ActAll(NewPeer(dialer), actions, cfg), later, id, cfg);
  }

  lemma {:induction false} RunContinues(p: Peer, actions: seq<Action>, id: nat, cfg: Config)
    requires Able(p, cfg)
    ensures var p' := ActAll(p, actions, cfg);
            id in p.objects ==> id in p'.objects && Continues(p.objects[id], p'.objects[id])
    decreases |actions|
  {
    hide Able, Act, Brings, Newborn, S.Accepted, Rounded, MarksMove;
    if actions != [] {
      var opens := ActMarks(p, actions[0], cfg);
      ActLives(p, actions[0], cfg) by { AbleIsSound(p, cfg); AbleIsNumbered(p, cfg); }
      RunContinues(Act(p, actions[0], cfg), actions[1..], id, cfg);
    }
  }

  lemma AbleIsNumbered(p: Peer, cfg: Config)
    requires Able(p, cfg)
    ensures 0 < p.nextId
  {
  }
}
