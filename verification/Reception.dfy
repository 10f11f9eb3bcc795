/** What a peer makes of a frame that a correct sender sends: exactly what `Hear` says, or it closes the
    stream over its own limits. */
module Reception {
  import opened Frames
  import opened Codecs
  import opened WriterModel
  import opened PeerModel
  import opened Ends
  import opened Conversation
  import opened Strands
  import A = Assembly
  import S = StreamModel

  /** What the two-peer runs add to the invariant of one peer: an opening stream has nothing but its
      fragments, and one that is past its opening was handed over. */
  predicate Proper(s: S.Stream) {
    !s.cause.ByReset? ==>
      && (s.opening
          ==> (s.state == S.Open || s.state == S.HalfClosedLocal) && s.payload.None? && s.queue == [] && !s.started
              && !s.local)
      && (!s.local && !s.opening ==> s.started)
      && (s.local || s.receivedAFrame) && (!s.local || s.sentAFrame)
  }

  /** What a frame that is taken in does to the state.  The last opening fragment overwrites a local end. */
  predicate Advances(s: S.Stream, t: S.Stream) {
    && t.local == s.local && (t.opening ==> s.opening)
    && (|| t.state == s.state
        || (s.state == S.Open && t.state == S.HalfClosedRemote)
        || (s.state == S.HalfClosedLocal && t.state == S.Closed)
        || (s.state == S.HalfClosedLocal && t.state == S.HalfClosedRemote && s.opening && !t.opening))
  }

  predicate Follows(c: Cell, t: S.Stream) {
    if c.stream.Some? then Advances(c.stream.value, t)
        else !t.local && (t.state == S.Open || t.state == S.HalfClosedRemote)
  }

  /** The stream took the frame in: its half has heard what `Hear` says, and its lane is as it was. */
  ghost predicate TookIn(c: Cell, c': Cell, view: View) {
    && c'.stream.Some? && !c'.stream.value.cause.ByReset? && Proper(c'.stream.value)
    && HeardOf(c'.stream.value) == view
    && c'.lane == c.lane && c'.cut == c.cut
    && SaidOf(c'.stream.value, SILENCE) == (if c.stream.Some? then SaidOf(c.stream.value, SILENCE) else FRESH)
    && Follows(c, c'.stream.value)
  }

  /** The stream was closed over the frame, and a reset with `code` queued.  REFUSED is for a stream of the
      remote's that no handler was given. */
  predicate TurnedAwayWith(c: Cell, c': Cell, view: View, id: nat, code: int) {
    && (c'.stream.Some? ==>
        && c'.stream.value.cause == S.ByReset(code) && ValuesOf(c'.stream.value) <= view.values
        && (code == REFUSED ==> !c'.stream.value.local && !c'.stream.value.started))
    && (c.stream.Some? ==> c'.stream.Some? && c'.stream.value.local == c.stream.value.local)
    && (view.opening ==> c'.cut) && (c.cut ==> c'.cut)
    && (|| c'.lane == Tail(c.lane, ResetWith(id, code, None))
        || c'.lane == Tail(DiscardExceptUnsentOpen(c.lane), ResetWith(id, code, None)))
  }

  ghost predicate TurnedAway(c: Cell, c': Cell, view: View, id: nat) {
    exists code :: TurnedAwayWith(c, c', view, id, code)
  }

  /** Only stream `id` changed, and it took the frame in or was closed over it. */
  ghost predicate Answers(p: Peer, p': Peer, id: nat, view: View) {
    && Became(p, p', id, At(p', id))
    && (TookIn(At(p, id), At(p', id), view) || TurnedAway(At(p, id), At(p', id), view, id))
  }

  /** The stream took the frame in, or was closed over it with code `away`. */
  ghost predicate Treats(c: Cell, c': Cell, view: View, id: nat, away: Option<int>) {
    if away.Some? then TurnedAwayWith(c, c', view, id, away.value) else TookIn(c, c', view)
  }

  ghost predicate AnswersWith(p: Peer, p': Peer, id: nat, view: View, away: Option<int>) {
    Became(p, p', id, At(p', id)) && Treats(At(p, id), At(p', id), view, id, away)
  }

  /** A frame is taken in or turned away, never both. */
  lemma TreatsOneWay(p: Peer, p': Peer, id: nat, view: View, away: Option<int>)
    requires AnswersWith(p, p', id, view, away)
    ensures Answers(p, p', id, view)
    ensures TurnedAway(At(p, id), At(p', id), view, id) <==> away.Some?
  {
    hide At, Became, HeardOf, SaidOf, ValuesOf, Proper;
  }

  /** The code with which a peer that holds `held` bytes of the payload turns a fragment away: over its payload cap. */
  function TooLarge(f: Frame, held: nat, cfg: Config): Option<int> {
    if f.fragment.Some? && cfg.maxPayload < held + |f.fragment.value.bytes| then Some(PAYLOAD_TOO_LARGE) else None
  }

  /** The code with which a peer turns an `open` away: it holds as many of the remote's streams as it may, the payload
      is over its cap, or the payload is whole and no handler is started, for want of one or after a goaway. */
  function TurnsAway(p: Peer, f: Frame, begins: bool, held: nat, cfg: Config): Option<int> {
    if begins && cfg.maxStreams <= |RemoteLive(p)| then Some(REFUSED)
    else if TooLarge(f, held, cfg).Some? then TooLarge(f, held, cfg)
    else if !(f.fragment.Some? && f.more) && (p.goaway.sent || !p.handler) then Some(REFUSED)
    else None
  }

  // ------------------------------------------------------------ a fragment

  /** What one fragment does to a stream that is not closed. */
  lemma AbsorbAt(p: Peer, id: nat, f: Frame, cfg: Config)
    requires id in p.objects && f.fragment.Some? && p.objects[id].state != S.Closed && p.objects[id].cause.NotEnded?
    ensures var s := p.objects[id];
            var (q, payload) := Absorb(p, id, f, cfg);
            var (partial, fed) := A.Feed(s.partial, f, cfg.codec);
            if !WithinPayloadCap(s, f.fragment.value, cfg) then
              payload.None?
                  && Became(p, q, id,
                            Cleared(At(p, id).(stream := Some(s.(partial := A.NOTHING))), id, PAYLOAD_TOO_LARGE))
            else if fed.Malformed? then true
            else
              && Became(p, q, id, At(p, id).(stream := Some(s.(partial := partial))))
              && id in q.objects
              && payload == (if fed.Decoded? then Some(fed.payload) else None)
  {
    hide A.Feed, Became, ResetStream, Put, Cleared, LaneAt;
    var s := p.objects[id];
    var dropped := s.(partial := A.NOTHING);
    PutAt(p, id, dropped);
    PutHasStream(p, id, dropped);
    ResetStreamAt(Put(p, id, dropped), id, PAYLOAD_TOO_LARGE);
    BecameCell(p, Put(p, id, dropped), id, At(p, id).(stream := Some(dropped)));
    BecameTrans(p, Put(p, id, dropped), ResetStream(Put(p, id, dropped), id, PAYLOAD_TOO_LARGE), id,
                At(p, id).(stream := Some(dropped)), Cleared(At(Put(p, id, dropped), id), id, PAYLOAD_TOO_LARGE));
    var fed := s.(partial := A.Feed(s.partial, f, cfg.codec).0);
    PutAt(p, id, fed);
    PutHasStream(p, id, fed);
  }

  lemma PutHasStream(p: Peer, id: nat, s: S.Stream)
    ensures id in Put(p, id, s).objects
  {
  }

  /** A reset of a stream that is not closed turns the frame away. */
  lemma ResetTurnsAway(c: Cell, id: nat, code: int, view: View)
    requires c.stream.Some? && c.stream.value.state != S.Closed && c.stream.value.cause.NotEnded?
    requires ValuesOf(c.stream.value) <= view.values && (view.opening ==> c.stream.value.opening) && code != REFUSED
    ensures TurnedAwayWith(c, Cleared(c, id, code), view, id, code)
  {
    hide DiscardExceptUnsentOpen;
    S.AcceptedSnoc(c.stream.value.queue, S.Failure(code));
  }

  /** The same, over a stream whose partial payload was dropped first. */
  lemma TurnedAwaySame(c: Cell, d: Cell, c': Cell, view: View, id: nat, code: int)
    requires TurnedAwayWith(d, c', view, id, code) && d.lane == c.lane && (d.stream.Some? <==> c.stream.Some?)
      && (c.cut ==> d.cut)
    requires c.stream.Some? ==> d.stream.value.local == c.stream.value.local
    ensures TurnedAwayWith(c, c', view, id, code)
  {
    hide DiscardExceptUnsentOpen, ValuesOf;
  }

  // ------------------------------------------------------------ data

  /** The stream after a payload and the remote's end. */
  function Handed(s: S.Stream, payload: Option<Value>, f: Frame): S.Stream {
    var accepted := if payload.Some? then S.AcceptPayload(s, payload.value) else s;
    if f.end then S.RemoteEnd(accepted, f.trailers) else accepted
  }

  lemma AcceptedView(s: S.Stream, payload: Option<Value>)
    ensures var accepted := if payload.Some? then S.AcceptPayload(s, payload.value) else s;
            && ValuesOf(accepted) == ValuesOf(s) + (if payload.Some? then [payload.value] else [])
            && accepted == s.(answer := accepted.answer, queue := accepted.queue)
  {
    if payload.Some? {
      S.AcceptedSnoc(s.queue, S.Payload(payload.value));
    }
  }

  lemma EndedView(s: S.Stream, trailers: Option<Fields>)
    requires s.state == S.Open || s.state == S.HalfClosedLocal
    ensures var done := S.RemoteEnd(s, trailers);
            && ValuesOf(done) == ValuesOf(s)
            && done == s.(state := done.state, cause := done.cause, queue := done.queue, answer := done.answer,
                          trailers := done.trailers)
            && done.trailers == (if trailers.Some? then trailers else s.trailers)
            && done.state == (if s.state == S.Open then S.HalfClosedRemote else S.Closed)
            && done.cause == (if s.state == S.Open then s.cause else S.Normally)
  {
    hide S.Accepted;
    S.AcceptedSnoc(s.queue, S.End);
  }

  lemma HandedView(s: S.Stream, payload: Option<Value>, f: Frame)
    requires f.kind == DataFrame
    requires (s.state == S.Open || s.state == S.HalfClosedLocal) && s.cause.NotEnded? && !s.opening && Proper(s)
    ensures var done := Handed(s, payload, f);
            && Proper(done) && !done.cause.ByReset?
            && HeardOf(done)
                  == HeardOf(s).(ended := f.end,
                                 values := ValuesOf(s) + (if payload.Some? then [payload.value] else []),
                                     trailers := TrailersAfter(HeardOf(s), f))
            && SaidOf(done, SILENCE) == SaidOf(s, SILENCE) && Advances(s, done)
  {
    hide ValuesOf, S.AcceptPayload, S.RemoteEnd;
    AcceptedView(s, payload);
    var accepted := if payload.Some? then S.AcceptPayload(s, payload.value) else s;
    EndedView(accepted, f.trailers);
  }

  lemma DeliverAt(p: Peer, id: nat, payload: Option<Value>, f: Frame)
    requires f.kind == DataFrame
    requires id in p.objects && (p.objects[id].state == S.Open || p.objects[id].state == S.HalfClosedLocal)
    requires p.objects[id].cause.NotEnded? && !p.objects[id].opening && Proper(p.objects[id])
    ensures var s := p.objects[id];
            var c' := At(Deliver(p, id, payload, f), id);
            && Became(p, Deliver(p, id, payload, f), id, c')
            && TookIn(At(p, id), c',
                      HeardOf(s).(ended := f.end,
                                  values := ValuesOf(s) + (if payload.Some? then [payload.value] else []),
                                      trailers := TrailersAfter(HeardOf(s), f)))
  {
    hide Became, LaneAt, HeardOf, SaidOf, ValuesOf, Proper, S.AcceptPayload, S.RemoteEnd;
    var s := p.objects[id];
    HandedView(s, payload, f);
    PutAt(p, id, Handed(s, payload, f));
    BecameCell(p, Deliver(p, id, payload, f), id, At(p, id).(stream := Some(Handed(s, payload, f))));
  }

  /** One fragment of a stream that is not closed: over the payload cap, pending, or the last one. */
  lemma ChunkAt(p: Peer, id: nat, f: Frame, cfg: Config)
    requires id in p.objects && f.fragment.Some? && p.objects[id].state != S.Closed && p.objects[id].cause.NotEnded?
    requires Proper(p.objects[id]) && HearChunk(HeardOf(p.objects[id]), f, cfg.codec) != Broken
    ensures var s := p.objects[id];
            var view := HearChunk(HeardOf(s), f, cfg.codec).view;
            var (q, payload) := Absorb(p, id, f, cfg);
            && Became(p, q, id, At(q, id))
            && (payload.None? ==> Treats(At(p, id), At(q, id), view, id, TooLarge(f, s.partial.bytes, cfg)))
            && (payload.Some? ==>
                && TooLarge(f, s.partial.bytes, cfg).None? && id in q.objects
                      && q.objects[id] == s.(partial := A.NOTHING)
                && At(q, id) == At(p, id).(stream := Some(s.(partial := A.NOTHING)))
                && view == HeardOf(s).(partial := A.NOTHING, opening := false, ended := f.end,
                                       values := ValuesOf(s) + [payload.value],
                                           trailers := TrailersAfter(HeardOf(s), f)))
  {
    hide Became, LaneAt, ValuesOf, ResetStream, Absorb;
    var s := p.objects[id];
    var view := HearChunk(HeardOf(s), f, cfg.codec).view;
    AbsorbAt(p, id, f, cfg);
    var (q, payload) := Absorb(p, id, f, cfg);
    if !WithinPayloadCap(s, f.fragment.value, cfg) {
      var dropped := At(p, id).(stream := Some(s.(partial := A.NOTHING)));
      BecameCell(p, q, id, Cleared(dropped, id, PAYLOAD_TOO_LARGE));
      SameValues(s, A.NOTHING);
      ResetTurnsAway(dropped, id, PAYLOAD_TOO_LARGE, view);
      TurnedAwaySame(At(p, id), dropped, At(q, id), view, id, PAYLOAD_TOO_LARGE);
    } else {
      var (partial, fed) := A.Feed(s.partial, f, cfg.codec);
      BecameCell(p, q, id, At(p, id).(stream := Some(s.(partial := partial))));
      SameValues(s, partial);
    }
  }

  lemma SameValues(s: S.Stream, partial: A.Partial)
    ensures ValuesOf(s.(partial := partial)) == ValuesOf(s)
    ensures HeardOf(s.(partial := partial)) == HeardOf(s).(partial := partial)
    ensures SaidOf(s.(partial := partial), SILENCE) == SaidOf(s, SILENCE)
    ensures Proper(s.(partial := partial)) == Proper(s)
  {
  }

  predicate SameState(s: S.Stream, t: S.Stream) {
    t.state == s.state && t.local == s.local && t.opening == s.opening
  }

  lemma TookInTrans(c: Cell, d: Cell, c': Cell, view: View)
    requires TookIn(d, c', view) && c.stream.Some? && d.stream.Some?
    requires d.lane == c.lane && d.cut == c.cut && SaidOf(d.stream.value, SILENCE) == SaidOf(c.stream.value, SILENCE)
    requires SameState(c.stream.value, d.stream.value)
    ensures TookIn(c, c', view)
  {
    hide HeardOf, ValuesOf, SaidOf, Proper;
  }

  /** `data` on a stream of which more may be heard. */
  lemma DataAt(p: Peer, id: nat, f: Frame, cfg: Config)
    requires f.kind == DataFrame
    requires id in p.objects && p.objects[id].state != S.Closed && p.objects[id].cause.NotEnded?
      && p.objects[id].state != S.Idle
    requires Proper(p.objects[id]) && A.Counted(p.objects[id].partial)
    requires HearData(HeardOf(p.objects[id]), f, cfg.codec) != Broken
    ensures var view := HearData(HeardOf(p.objects[id]), f, cfg.codec).view;
            AnswersWith(p, OnData(p, id, f, cfg), id, view, TooLarge(f, p.objects[id].partial.bytes, cfg))
  {
    hide Became, LaneAt, ValuesOf, ResetStream, Absorb, Deliver, Put, HearChunk, TookIn, TurnedAwayWith;
    var s := p.objects[id];
    var noted := S.NoteRemoteFrame(s, f.headers).0;
    var q := Put(p, id, noted);
    NotedSame(s, f);
    CountedNothing(s.partial);
    PutAt(p, id, noted);
    PutHasStream(p, id, noted);
    PutGets(p, id, noted);
    BecameCell(p, q, id, At(p, id).(stream := Some(noted)));
    var view := HearData(HeardOf(s), f, cfg.codec).view;
    if f.fragment.Some? {
      ChunkAt(q, id, f, cfg);
      var (absorbed, payload) := Absorb(q, id, f, cfg);
      BecameTrans(p, q, absorbed, id, At(q, id), At(absorbed, id));
      if payload.Some? {
        DeliverAt(absorbed, id, payload, f);
        var p' := Deliver(absorbed, id, payload, f);
        SameValues(noted, A.NOTHING);
        BecameTrans(p, absorbed, p', id, At(absorbed, id), At(p', id));
        TookInTrans(At(p, id), At(absorbed, id), At(p', id), view);
      } else if TooLarge(f, s.partial.bytes, cfg).None? {
        TookInTrans(At(p, id), At(q, id), At(absorbed, id), view);
      } else {
        TurnedAwaySame(At(p, id), At(q, id), At(absorbed, id), view, id, PAYLOAD_TOO_LARGE);
      }
    } else {
      DeliverAt(q, id, f.payload, f);
      var p' := Deliver(q, id, f.payload, f);
      BecameTrans(p, q, p', id, At(q, id), At(p', id));
      TookInTrans(At(p, id), At(q, id), At(p', id), view);
    }
  }

  lemma PutGets(p: Peer, id: nat, s: S.Stream)
    ensures id in Put(p, id, s).objects && Put(p, id, s).objects[id] == s
  {
  }

  lemma NotedSame(s: S.Stream, f: Frame)
    requires (s.receivedAFrame ==> f.headers.None?) && (s.local || s.receivedAFrame)
    ensures var (noted, allowed) := S.NoteRemoteFrame(s, f.headers);
            && allowed
            && HeardOf(noted) == HeardOf(s).(begun := true, headers := HeadersAfter(HeardOf(s), f))
                  && ValuesOf(noted) == ValuesOf(s)
            && SaidOf(noted, SILENCE) == SaidOf(s, SILENCE)
            && Proper(noted) == Proper(s)
            && noted == s.(receivedAFrame := true, replyHeaders := noted.replyHeaders)
  {
  }

  lemma CountedNothing(partial: A.Partial)
    requires A.Counted(partial)
    ensures partial.parts == [] ==> partial == A.NOTHING
  {
  }

  // ------------------------------------------------------------ open

  /** The opening payload is whole: the handler gets it, or the stream is refused. */
  lemma StartAt(p: Peer, id: nat, c: Cell, view: View)
    requires id in p.objects && p.objects[id].state != S.Closed && p.objects[id].cause.NotEnded?
      && !p.objects[id].opening
    requires Stands(c, At(p, id)) && HeardOf(p.objects[id]) == view && !p.objects[id].local && !p.objects[id].started
    requires p.objects[id].receivedAFrame
    ensures var p' := StartHandler(p, id);
            && Became(p, p', id, At(p', id))
            && Treats(c, At(p', id), view, id, if p.goaway.sent || !p.handler then Some(REFUSED) else None)
  {
    hide Became, LaneAt, FailStream, QueueReset, Put, HeardOf, SaidOf, ValuesOf, Proper, TookIn, TurnedAwayWith, S.Fail;
    var s := p.objects[id];
    if p.goaway.sent || !p.handler {
      var q := QueueReset(p, id, REFUSED);
      QueueResetAt(p, id, REFUSED);
      var d := At(p, id).(lane := Tail(At(p, id).lane, ResetWith(id, REFUSED, None)));
      BecameCell(p, q, id, d);
      FailStreamAt(q, id, REFUSED);
      BecameCell(q, FailStream(q, id, REFUSED), id, Fallen(d, REFUSED));
      BecameTrans(p, q, FailStream(q, id, REFUSED), id, At(q, id), Fallen(At(q, id), REFUSED));
      RefusedCell(c, At(p, id), id, view);
    } else {
      PutAt(p, id, s.(started := true));
      BecameCell(p, StartHandler(p, id), id, At(p, id).(stream := Some(s.(started := true))));
      StartedCell(c, At(p, id), view);
    }
  }

  lemma RefusedCell(c: Cell, d: Cell, id: nat, view: View)
    requires d.stream.Some? && d.stream.value.state != S.Closed && d.stream.value.cause.NotEnded?
      && !d.stream.value.opening
    requires d.lane == c.lane && d.cut == c.cut && HeardOf(d.stream.value) == view && !d.stream.value.local
      && !d.stream.value.started
    requires Follows(c, d.stream.value)
    ensures TurnedAwayWith(c, Fallen(d.(lane := Tail(d.lane, ResetWith(id, REFUSED, None))), REFUSED), view, id,
                           REFUSED)
  {
    S.AcceptedSnoc(d.stream.value.queue, S.Failure(REFUSED));
  }

  lemma StartedCell(c: Cell, d: Cell, view: View)
    requires d.stream.Some? && d.stream.value.state != S.Closed && d.stream.value.cause.NotEnded?
      && !d.stream.value.opening
    requires Stands(c, d) && HeardOf(d.stream.value) == view && !d.stream.value.local && d.stream.value.receivedAFrame
    ensures TookIn(c, d.(stream := Some(d.stream.value.(started := true))), view)
  {
  }

  /** A stream whose opening payload is incomplete, as fragment `f` finds it. */
  predicate Opening(s: S.Stream, f: Frame, later: bool) {
    && s.opening && s.payload.None? && s.queue == [] && !s.local && !s.started && f.fragment.Some? && s.cause.NotEnded?
    && s.receivedAFrame
    && (if later then s.state == S.Open || s.state == S.HalfClosedLocal
        else s.state == (if f.end then S.HalfClosedRemote else S.Open))
  }

  /** `d` is cell `c` once its stream is there. */
  predicate Stands(c: Cell, d: Cell) {
    && d.stream.Some? && d.lane == c.lane && d.cut == c.cut && Follows(c, d.stream.value)
    && SaidOf(d.stream.value, SILENCE) == (if c.stream.Some? then SaidOf(c.stream.value, SILENCE) else FRESH)
  }

  /** The same of either kind of opening fragment. */
  lemma FeedOpeningAt(p: Peer, id: nat, f: Frame, later: bool, c: Cell, cfg: Config)
    requires id in p.objects && Opening(p.objects[id], f, later) && Stands(c, At(p, id)) && f.kind == OpenFrame
    requires HearChunk(HeardOf(p.objects[id]).(ended := false), f, cfg.codec) != Broken
    ensures var view := HearChunk(HeardOf(p.objects[id]).(ended := false), f, cfg.codec).view;
            var p' := FeedOpening(p, id, f, later, cfg);
            && Became(p, p', id, At(p', id))
            && Treats(c, At(p', id), view, id, TurnsAway(p, f, false, p.objects[id].partial.bytes, cfg))
  {
    hide Became, At, Absorb, FeedOpening, TookIn, TurnedAwayWith, HeardOf, SaidOf, Opening, Stands;
    var s := p.objects[id];
    var view := HearChunk(HeardOf(s).(ended := false), f, cfg.codec).view;
    WithinIsNotTooLarge(s, f, cfg);
    if WithinPayloadCap(s, f.fragment.value, cfg) {
      FeedWithinAt(p, id, f, later, c, view, cfg);
    } else {
      FeedOverAt(p, id, f, later, c, view, cfg);
    }
  }

  lemma FeedOverAt(p: Peer, id: nat, f: Frame, later: bool, c: Cell, view: View, cfg: Config)
    requires id in p.objects && Opening(p.objects[id], f, later) && Stands(c, At(p, id)) && f.kind == OpenFrame
    requires HearChunk(HeardOf(p.objects[id]).(ended := false), f, cfg.codec) == Hearing(view, false)
    requires !WithinPayloadCap(p.objects[id], f.fragment.value, cfg)
    ensures var p' := FeedOpening(p, id, f, later, cfg);
            Became(p, p', id, At(p', id)) && TurnedAwayWith(c, At(p', id), view, id, PAYLOAD_TOO_LARGE)
  {
    hide Became, LaneAt, Absorb, TurnedAwayWith, HeardOf, SaidOf, ValuesOf, Proper, HearChunk, Cleared, A.Feed;
    var s := p.objects[id];
    AbsorbAt(p, id, f, cfg);
    var q := Absorb(p, id, f, cfg).0;
    OpeningChunk(s, f, later, cfg);
    var dropped := At(p, id).(stream := Some(s.(partial := A.NOTHING)));
    BecameCell(p, q, id, Cleared(dropped, id, PAYLOAD_TOO_LARGE));
    SameValues(s, A.NOTHING);
    ResetTurnsAway(dropped, id, PAYLOAD_TOO_LARGE, view);
    TurnedAwayNew(c, dropped, At(q, id), view, id, PAYLOAD_TOO_LARGE);
  }

  lemma FeedWithinAt(p: Peer, id: nat, f: Frame, later: bool, c: Cell, view: View, cfg: Config)
    requires id in p.objects && Opening(p.objects[id], f, later) && Stands(c, At(p, id)) && f.kind == OpenFrame
    requires HearChunk(HeardOf(p.objects[id]).(ended := false), f, cfg.codec) == Hearing(view, false)
    requires WithinPayloadCap(p.objects[id], f.fragment.value, cfg)
    ensures var p' := FeedOpening(p, id, f, later, cfg);
            && Became(p, p', id, At(p', id))
            && Treats(c, At(p', id), view, id, TurnsAway(p, f, false, p.objects[id].partial.bytes, cfg))
  {
    hide Became, LaneAt, Absorb, StartHandler, Put, TookIn, TurnedAwayWith, HeardOf, SaidOf, ValuesOf, Proper,
      HearChunk, Completed, A.Feed, WithinPayloadCap, TooLarge;
    WithinIsNotTooLarge(p.objects[id], f, cfg);
    var s := p.objects[id];
    AbsorbAt(p, id, f, cfg);
    var (q, payload) := Absorb(p, id, f, cfg);
    OpeningChunk(s, f, later, cfg);
    var (partial, fed) := A.Feed(s.partial, f, cfg.codec);
    var kept := s.(partial := partial);
    BecameCell(p, q, id, At(p, id).(stream := Some(kept)));
    SameValues(s, partial);
    FedWhole(s.partial, f, cfg.codec);
    SameDoor(p, q, id);
    if fed.Pending? {
      PendingTookIn(c, At(q, id), s, partial, view);
    } else {
      CompleteAt(q, id, kept, fed.payload, later && f.end, c, view);
      var p' := FeedOpening(p, id, f, later, cfg);
      BecameTrans(p, q, p', id, At(q, id), At(p', id));
    }
  }

  lemma CompleteAt(q: Peer, id: nat, s: S.Stream, v: Value, ended: bool, c: Cell, view: View)
    requires id in q.objects && q.objects[id] == s
    requires s.opening && s.payload.None? && s.queue == [] && !s.local && !s.started && s.cause.NotEnded?
      && s.receivedAFrame
    requires s.state == S.Open || s.state == S.HalfClosedLocal || s.state == S.HalfClosedRemote
    requires Stands(c, At(q, id))
    requires view == HeardOf(s).(opening := false, ended := ended || s.state == S.HalfClosedRemote,
                                 values := ValuesOf(s) + [v])
    ensures var p' := StartHandler(Put(q, id, Completed(s, Some(v), ended)), id);
            && Became(q, p', id, At(p', id))
            && Treats(c, At(p', id), view, id, if q.goaway.sent || !q.handler then Some(REFUSED) else None)
  {
    hide Became, LaneAt, StartHandler, Put, Treats, S.Fail, HeardOf, SaidOf, ValuesOf, Proper, Completed;
    var whole := Completed(s, Some(v), ended);
    var r := Put(q, id, whole);
    CompletedView(s, v, ended);
    CompletedFollows(c, s, v, ended);
    PutAt(q, id, whole);
    PutGets(q, id, whole);
    BecameCell(q, r, id, At(q, id).(stream := Some(whole)));
    SameDoor(q, r, id);
    StartAt(r, id, c, view);
    BecameTrans(q, r, StartHandler(r, id), id, At(r, id), At(StartHandler(r, id), id));
  }

  lemma WithinIsNotTooLarge(s: S.Stream, f: Frame, cfg: Config)
    requires f.fragment.Some?
    ensures WithinPayloadCap(s, f.fragment.value, cfg) <==> TooLarge(f, s.partial.bytes, cfg).None?
  {
  }

  /** A payload is whole with the fragment that has no successor. */
  lemma FedWhole(partial: A.Partial, f: Frame, codec: Codec)
    requires f.fragment.Some?
    ensures A.Feed(partial, f, codec).1.Pending? ==> f.more
    ensures A.Feed(partial, f, codec).1.Decoded? ==> !f.more
  {
  }

  /** Whether a handler will be started does not depend on one stream. */
  lemma SameDoor(p: Peer, q: Peer, id: nat)
    requires Became(p, q, id, At(q, id))
    ensures q.goaway.sent == p.goaway.sent && q.handler == p.handler
  {
    hide At;
  }

  lemma CompletedFollows(c: Cell, s: S.Stream, v: Value, ended: bool)
    requires s.opening && Follows(c, s) && s.state != S.Closed && s.state != S.Idle
    ensures Follows(c, Completed(s, Some(v), ended))
  {
  }

  /** What `Hear` makes of a fragment of an opening payload. */
  lemma OpeningChunk(s: S.Stream, f: Frame, later: bool, cfg: Config)
    requires Opening(s, f, later) && f.kind == OpenFrame
    requires HearChunk(HeardOf(s).(ended := false), f, cfg.codec) != Broken
    ensures var view := HearChunk(HeardOf(s).(ended := false), f, cfg.codec).view;
            var (partial, fed) := A.Feed(s.partial, f, cfg.codec);
            && !fed.Malformed?
            && ValuesOf(s) <= view.values
            && (fed.Pending? ==> view == HeardOf(s).(partial := partial) && s.state != S.HalfClosedRemote)
            && (fed.Decoded?
                ==> view == HeardOf(s).(partial := partial, opening := false, ended := f.end,
                                        values := ValuesOf(s) + [fed.payload]))
  {
    hide A.Join;
  }

  lemma TurnedAwayNew(c: Cell, d: Cell, c': Cell, view: View, id: nat, code: int)
    requires TurnedAwayWith(d, c', view, id, code) && d.lane == c.lane && d.stream.Some? && (c.cut ==> d.cut)
    requires c.stream.Some? ==> d.stream.value.local == c.stream.value.local
    ensures TurnedAwayWith(c, c', view, id, code)
  {
    hide DiscardExceptUnsentOpen, ValuesOf;
  }

  lemma PendingTookIn(c: Cell, c': Cell, s: S.Stream, partial: A.Partial, view: View)
    requires c'.stream == Some(s.(partial := partial))
    requires s.opening && s.payload.None? && s.queue == [] && !s.local && !s.started && s.cause.NotEnded?
    requires s.state == S.Open || s.state == S.HalfClosedLocal
    requires s.receivedAFrame
    requires Stands(c, c'.(stream := Some(s)))
    requires view == HeardOf(s).(partial := partial)
    ensures TookIn(c, c', view)
  {
  }

  lemma CompletedView(s: S.Stream, v: Value, ended: bool)
    requires s.opening && s.payload.None? && s.queue == [] && !s.local && s.cause.NotEnded?
    requires s.state == S.Open || s.state == S.HalfClosedLocal || s.state == S.HalfClosedRemote
    ensures var whole := Completed(s, Some(v), ended);
            && HeardOf(whole) == HeardOf(s).(opening := false, ended := ended || s.state == S.HalfClosedRemote,
                                             values := ValuesOf(s) + [v])
            && SaidOf(whole, SILENCE) == SaidOf(s, SILENCE)
            && whole.state != S.Closed && whole.cause.NotEnded? && !whole.opening
            && whole.started == s.started && whole.local == s.local && whole.receivedAFrame == s.receivedAFrame
  {
  }

  /** The first frame of a stream. */
  lemma NewOpenAt(p: Peer, f: Frame, cfg: Config)
    requires f.kind == OpenFrame && f.stream.Some? && Admissible(p, f.stream.value)
    requires f.stream.value !in p.objects && f.stream.value !in p.live
    requires HearOpen(Unseen, f, cfg.codec) != Broken
    ensures HearOpen(Unseen, f, cfg.codec).Hearing?
    ensures AnswersWith(p.(highRemote := f.stream.value), OnOpen(p, f, cfg), f.stream.value,
                        HearOpen(Unseen, f, cfg.codec).view, TurnsAway(p, f, true, 0, cfg))
  {
    hide AnswersWith, RemoteLive, HearChunk, Opening, OnOpen, FeedOpening, StartHandler, TurnsAway;
    if cfg.maxStreams <= |RemoteLive(p)| {
      NewRefusedAt(p, f, cfg);
    } else if f.fragment.Some? {
      NewFragmentAt(p, f, cfg);
    } else {
      NewWholeAt(p, f, cfg);
    }
  }

  lemma NewRefusedAt(p: Peer, f: Frame, cfg: Config)
    requires f.kind == OpenFrame && f.stream.Some? && Admissible(p, f.stream.value)
    requires f.stream.value !in p.objects && f.stream.value !in p.live
    requires HearOpen(Unseen, f, cfg.codec).Hearing? && cfg.maxStreams <= |RemoteLive(p)|
    ensures AnswersWith(p.(highRemote := f.stream.value), OnOpen(p, f, cfg), f.stream.value,
                        HearOpen(Unseen, f, cfg.codec).view, TurnsAway(p, f, true, 0, cfg))
  {
    hide Became, LaneAt, FeedOpening, StartHandler, QueueReset, TookIn, TurnedAwayWith, HeardOf, SaidOf, RemoteLive,
      HearChunk, Opening;
    RefusedAt(p, f, HearOpen(Unseen, f, cfg.codec).view, cfg);
  }

  lemma NewFragmentAt(p: Peer, f: Frame, cfg: Config)
    requires f.kind == OpenFrame && f.stream.Some? && Admissible(p, f.stream.value)
    requires f.stream.value !in p.objects && f.stream.value !in p.live
    requires HearOpen(Unseen, f, cfg.codec).Hearing? && |RemoteLive(p)| < cfg.maxStreams && f.fragment.Some?
    ensures AnswersWith(p.(highRemote := f.stream.value), OnOpen(p, f, cfg), f.stream.value,
                        HearOpen(Unseen, f, cfg.codec).view, TurnsAway(p, f, true, 0, cfg))
  {
    hide Became, LaneAt, FeedOpening, StartHandler, QueueReset, TookIn, TurnedAwayWith, HeardOf, SaidOf, RemoteLive,
      HearChunk, Opening;
    var id := f.stream.value;
    var admitted := p.(highRemote := id);
    var c := At(p, id);
    var p' := OnOpen(p, f, cfg);
    var s := S.NewStream(id, false, if f.end then S.HalfClosedRemote else S.Open, f.headers, None);
    var opening := s.(opening := true);
    var q := Create(admitted, opening);
    NewOpeningView(opening, f);
    CreateAt(admitted, opening);
    BecameCell(admitted, q, id, c.(stream := Some(opening)));
    FeedOpeningAt(q, id, f, false, c, cfg);
    BecameTrans(admitted, q, p', id, At(q, id), At(p', id));
  }

  lemma NewWholeAt(p: Peer, f: Frame, cfg: Config)
    requires f.kind == OpenFrame && f.stream.Some? && Admissible(p, f.stream.value)
    requires f.stream.value !in p.objects && f.stream.value !in p.live
    requires HearOpen(Unseen, f, cfg.codec).Hearing? && |RemoteLive(p)| < cfg.maxStreams && f.fragment.None?
    ensures AnswersWith(p.(highRemote := f.stream.value), OnOpen(p, f, cfg), f.stream.value,
                        HearOpen(Unseen, f, cfg.codec).view, TurnsAway(p, f, true, 0, cfg))
  {
    hide Became, LaneAt, FeedOpening, StartHandler, QueueReset, TookIn, TurnedAwayWith, HeardOf, SaidOf, RemoteLive,
      HearChunk, Opening;
    var id := f.stream.value;
    var admitted := p.(highRemote := id);
    var c := At(p, id);
    var p' := OnOpen(p, f, cfg);
    var s := S.NewStream(id, false, if f.end then S.HalfClosedRemote else S.Open, f.headers, None);
    var whole := s.(payload := Some(if f.payload.Some? then f.payload.value else Null));
    var q := Create(admitted, whole);
    NewWholeView(whole);
    CreateAt(admitted, whole);
    BecameCell(admitted, q, id, c.(stream := Some(whole)));
    StartAt(q, id, c, HearOpen(Unseen, f, cfg.codec).view);
    BecameTrans(admitted, q, p', id, At(q, id), At(p', id));
  }

  lemma CreateAt(p: Peer, s: S.Stream)
    ensures Became(p, Create(p, s), s.id, At(p, s.id).(stream := Some(s)))
    ensures s.id in Create(p, s).objects && Create(p, s).objects[s.id] == s
  {
    hide LaneAt;
  }

  lemma NewOpeningView(s: S.Stream, f: Frame)
    requires s == S.NewStream(s.id, false, if f.end then S.HalfClosedRemote else S.Open, f.headers,
                              None).(opening := true)
    requires f.fragment.Some?
    ensures Opening(s, f, false)
    ensures HeardOf(s).(ended := false) == View(A.NOTHING, true, false, [], true, f.headers, None)
    ensures SaidOf(s, SILENCE) == FRESH
  {
  }

  lemma NewWholeView(s: S.Stream)
    requires s.trailers.None? && s.replyHeaders.None?
    requires s.payload.Some? && s.queue == [] && !s.local && s.partial == A.NOTHING && !s.opening && s.receivedAFrame
      && !s.sentAFrame
    requires s.state == S.Open || s.state == S.HalfClosedRemote
    ensures HeardOf(s) == View(A.NOTHING, false, s.state == S.HalfClosedRemote, [s.payload.value], true, s.headers,
                               None)
    ensures SaidOf(s, SILENCE) == FRESH
  {
  }

  lemma RefusedAt(p: Peer, f: Frame, view: View, cfg: Config)
    requires f.kind == OpenFrame && f.stream.Some? && Admissible(p, f.stream.value)
    requires f.stream.value !in p.objects && f.stream.value !in p.live
    requires cfg.maxStreams <= |RemoteLive(p)|
    requires HearOpen(Unseen, f, cfg.codec) == Hearing(view, false)
    ensures AnswersWith(p.(highRemote := f.stream.value), OnOpen(p, f, cfg), f.stream.value, view, Some(REFUSED))
  {
    hide LaneAt, Enqueue, HeardOf, SaidOf, RemoteLive, DiscardExceptUnsentOpen;
    var id := f.stream.value;
    var p' := OnOpen(p, f, cfg);
    var reset := ResetWith(id, REFUSED, None);
    forall x: nat ensures LaneAt(Enqueue(p.writer, reset), x) == if x == id then Tail(LaneAt(p.writer, x), reset)
        else LaneAt(p.writer, x)
    {
      EnqueueAt(p.writer, reset, x);
    }
    OpeningHasMore(f, view, cfg.codec);
    assert TurnedAwayWith(At(p.(highRemote := id), id), At(p', id), view, id, REFUSED);
  }

  lemma OpeningHasMore(f: Frame, view: View, codec: Codec)
    requires HearOpen(Unseen, f, codec) == Hearing(view, false)
    ensures view.opening ==> f.fragment.Some? && f.more
  {
    hide A.Join;
  }

  /** The reader's view after an `open` that continues one, taken in or refused. */
  lemma LaterOpenAt(p: Peer, id: nat, f: Frame, done: bool, cfg: Config)
    requires f.kind == OpenFrame && f.stream == Some(id) && id in p.live && id in p.objects
    requires Proper(p.objects[id]) && p.objects[id].cause.NotEnded? && !p.objects[id].local
    requires HearOpen(Hearing(HeardOf(p.objects[id]), done), f, cfg.codec) != Broken
    ensures HearOpen(Hearing(HeardOf(p.objects[id]), done), f, cfg.codec).Hearing?
    ensures AnswersWith(p, OnOpen(p, f, cfg), id, HearOpen(Hearing(HeardOf(p.objects[id]), done), f, cfg.codec).view,
                        TurnsAway(p, f, false, p.objects[id].partial.bytes, cfg))
  {
    hide Became, LaneAt, FeedOpening, StartHandler, QueueReset, Treats, ValuesOf, SaidOf, RemoteLive,
      HearChunk;
    var s := p.objects[id];
    assert ContinuesOpening(p, f) && HeardOf(s).(ended := false) == HeardOf(s);
    FeedOpeningAt(p, id, f, true, At(p, id), cfg);
  }

  // ------------------------------------------------------------ exactly when a frame is turned away

  /** Inbound `data` that can be heard closes its stream if and only if it carries a fragment that takes the payload
      over the receiver's cap. */
  lemma DataTurnedAwayIff(p: Peer, id: nat, f: Frame, cfg: Config)
    requires f.kind == DataFrame
    requires id in p.objects && p.objects[id].state != S.Closed && p.objects[id].cause.NotEnded?
      && p.objects[id].state != S.Idle
    requires Proper(p.objects[id]) && A.Counted(p.objects[id].partial)
    requires HearData(HeardOf(p.objects[id]), f, cfg.codec) != Broken
    ensures var view := HearData(HeardOf(p.objects[id]), f, cfg.codec).view;
            TurnedAway(At(p, id), At(OnData(p, id, f, cfg), id), view, id)
            <==> f.fragment.Some? && cfg.maxPayload < p.objects[id].partial.bytes + |f.fragment.value.bytes|
  {
    hide AnswersWith, At, OnData, HearData, HeardOf, Proper;
    DataAt(p, id, f, cfg);
    TreatsOneWay(p, OnData(p, id, f, cfg), id, HearData(HeardOf(p.objects[id]), f, cfg.codec).view,
                 TooLarge(f, p.objects[id].partial.bytes, cfg));
  }

  /** The first frame of a stream is turned away if and only if the receiver holds as many of the remote's streams as it
      may, its payload is over the cap, or it is whole and there is no handler or a goaway was sent. */
  lemma OpenTurnedAwayIff(p: Peer, f: Frame, cfg: Config)
    requires f.kind == OpenFrame && f.stream.Some? && Admissible(p, f.stream.value)
    requires f.stream.value !in p.objects && f.stream.value !in p.live
    requires HearOpen(Unseen, f, cfg.codec) != Broken
    ensures var q := p.(highRemote := f.stream.value);
            TurnedAway(At(q, f.stream.value), At(OnOpen(p, f, cfg), f.stream.value),
                       HearOpen(Unseen, f, cfg.codec).view, f.stream.value)
            <==> || cfg.maxStreams <= |RemoteLive(p)|
                 || (f.fragment.Some? && cfg.maxPayload < |f.fragment.value.bytes|)
                 || (!(f.fragment.Some? && f.more) && (p.goaway.sent || !p.handler))
  {
    hide AnswersWith, At, OnOpen, HearOpen, RemoteLive;
    NewOpenAt(p, f, cfg);
    TreatsOneWay(p.(highRemote := f.stream.value), OnOpen(p, f, cfg), f.stream.value,
                 HearOpen(Unseen, f, cfg.codec).view, TurnsAway(p, f, true, 0, cfg));
  }
}
