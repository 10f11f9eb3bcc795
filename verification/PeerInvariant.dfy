/** What one peer keeps under any sequence of inbound messages, well formed or not, and of calls by its
    application and its write loop. */
module PeerInvariant {
  import opened Frames
  import opened Assembly
  import opened WriterModel
  import opened PeerModel
  import S = StreamModel

  // ------------------------------------------------------------ the invariant

  /** What holds of every stream object. */
  ghost predicate Kept(p: Peer, id: nat, s: S.Stream, cfg: Config) {
    && s.id == id && 0 < id
    && (s.local <==> IsOurs(p, id))
    && id <= (if s.local then p.highLocal else p.highRemote)
    && (s.state == S.Closed <==> !s.cause.NotEnded?)
    && s.state != S.Idle
    && S.Consistent(s)
    && Counted(s.partial) && s.partial.bytes <= cfg.maxPayload
    && (s.opening ==> !s.local && !s.started)
    && (s.started ==> !s.local && (p.goaway.sentLast.Some? ==> id <= p.goaway.sentLast.value))
  }

  /** A stream is live exactly while it is not closed, and what was cut is not live. */
  ghost predicate Mapped(p: Peer) {
    && (forall id :: id in p.live ==> id in p.objects)
    && (forall id :: id in p.objects ==> (id in p.live <==> p.objects[id].state != S.Closed))
    && (forall id :: id in p.cut ==> id !in p.live && id <= p.highRemote && !IsOurs(p, id))
    && (!p.isOpen ==> p.live == {})
  }

  predicate Numbered(p: Peer) {
    && p.nextId % 2 == OwnParity(p.dialer)
    && p.highLocal < p.nextId
    && (p.goaway.sent <==> p.goaway.sentLast.Some?)
    && (p.goaway.sentLast.Some? ==> p.goaway.sentLast.value <= p.highRemote)
  }

  ghost predicate Sound(p: Peer, cfg: Config) {
    && (forall id :: id in p.objects ==> Kept(p, id, p.objects[id], cfg))
    && Mapped(p)
    && Numbered(p)
    && Listed(p.writer)
  }

  ghost predicate Bounded(p: Peer, cfg: Config) {
    |RemoteLive(p)| <= cfg.maxStreams
  }

  /** No more streams of the remote's are live than were. */
  ghost predicate NoNewcomer(p: Peer, p': Peer) {
    RemoteLive(p') <= RemoteLive(p)
  }

  lemma NoNewcomerBounded(p: Peer, p': Peer, cfg: Config)
    requires Bounded(p, cfg) && NoNewcomer(p, p')
    ensures Bounded(p', cfg)
  {
    SubsetSize(RemoteLive(p'), RemoteLive(p));
  }

  lemma SubsetSize(a: set<nat>, b: set<nat>)
    requires a <= b
    ensures |a| <= |b|
  {
    assert b == a + (b - a);
  }

  // ------------------------------------------------------------ steps that write a stream back

  lemma PutSound(p: Peer, id: nat, s: S.Stream, cfg: Config)
    requires Sound(p, cfg) && id in p.objects && Kept(p, id, s, cfg)
    requires s.state == S.Closed || id in p.live
    ensures Sound(Put(p, id, s), cfg) && NoNewcomer(p, Put(p, id, s))
  {
    hide Counted, Listed, S.Consistent;
    var p' := Put(p, id, s);
    forall x | x in p'.objects
      ensures Kept(p', x, p'.objects[x], cfg)
    {
      assert x != id ==> Kept(p, x, p.objects[x], cfg);
    }
    assert Kept(p, id, p.objects[id], cfg);
  }

  lemma WriterSound(p: Peer, w: Writer, cfg: Config)
    requires Sound(p, cfg) && Listed(w)
    ensures Sound(p.(writer := w), cfg) && NoNewcomer(p, p.(writer := w))
  {
    hide Counted, Listed, S.Consistent;
    var p' := p.(writer := w);
    forall x | x in p'.objects
      ensures Kept(p', x, p'.objects[x], cfg)
    {
      assert Kept(p, x, p.objects[x], cfg);
    }
  }

  lemma QueueSound(p: Peer, frame: Frame, cfg: Config)
    requires Sound(p, cfg)
    ensures Sound(Queue(p, frame), cfg) && NoNewcomer(p, Queue(p, frame))
  {
    EnqueueListed(p.writer, frame);
    WriterSound(p, Enqueue(p.writer, frame), cfg);
  }

  lemma DiscardSound(p: Peer, id: nat, cfg: Config)
    requires Sound(p, cfg)
    ensures Sound(p.(writer := Discard(p.writer, id)), cfg)
  {
    DiscardListed(p.writer, id);
    WriterSound(p, Discard(p.writer, id), cfg);
  }

  lemma FailKept(p: Peer, id: nat, s: S.Stream, code: int, cfg: Config)
    requires Kept(p, id, s, cfg)
    ensures Kept(p, id, S.Fail(s, code), cfg) && S.Fail(s, code).state == S.Closed
  {
    hide S.Consistent;
    S.FailedKeepsConsistent(s, code);
  }

  lemma FailStreamSound(p: Peer, id: nat, code: int, cfg: Config)
    requires Sound(p, cfg) && id in p.objects
    ensures Sound(FailStream(p, id, code), cfg) && NoNewcomer(p, FailStream(p, id, code))
    ensures id !in FailStream(p, id, code).live
  {
    hide Listed, Counted, S.Consistent;
    FailKept(p, id, p.objects[id], code, cfg);
    PutSound(p, id, S.Fail(p.objects[id], code), cfg);
    var put := Put(p, id, S.Fail(p.objects[id], code));
    var p' := FailStream(p, id, code);
    assert Kept(p, id, p.objects[id], cfg);
    CutSound(put, p'.cut, cfg);
  }

  lemma CutSound(p: Peer, cut: set<nat>, cfg: Config)
    requires Sound(p, cfg)
    requires forall id :: id in cut ==> id !in p.live && id <= p.highRemote && !IsOurs(p, id)
    ensures Sound(p.(cut := cut), cfg) && NoNewcomer(p, p.(cut := cut))
  {
    hide Counted, Listed, S.Consistent;
    var p' := p.(cut := cut);
    forall x | x in p'.objects
      ensures Kept(p', x, p'.objects[x], cfg)
    {
      assert Kept(p, x, p.objects[x], cfg);
    }
  }

  lemma QueueResetSound(p: Peer, id: nat, code: int, cfg: Config)
    requires Sound(p, cfg)
    ensures Sound(QueueReset(p, id, code), cfg) && NoNewcomer(p, QueueReset(p, id, code))
    ensures Sound(EnqueueReset(p, id, code), cfg) && NoNewcomer(p, EnqueueReset(p, id, code))
  {
    hide Sound, Enqueue, Discard;
    QueueSound(p, ResetWith(id, code, None), cfg);
    DiscardSound(p, id, cfg);
    QueueSound(p.(writer := Discard(p.writer, id)), ResetWith(id, code, None), cfg);
  }

  lemma ResetStreamSound(p: Peer, id: nat, code: int, cfg: Config)
    requires Sound(p, cfg) && id in p.objects
    ensures Sound(ResetStream(p, id, code), cfg) && NoNewcomer(p, ResetStream(p, id, code))
    ensures id !in ResetStream(p, id, code).live
  {
    hide Sound, Discard, Enqueue, FailStream;
    QueueResetSound(p, id, code, cfg);
    FailStreamSound(EnqueueReset(p, id, code), id, code, cfg);
  }

  lemma QueueGoawaySound(p: Peer, code: int, cfg: Config)
    requires Sound(p, cfg)
    ensures Sound(QueueGoaway(p, code), cfg) && NoNewcomer(p, QueueGoaway(p, code))
    ensures Sound(FailConnection(p), cfg) && NoNewcomer(p, FailConnection(p))
  {
    hide Counted;
    var g := p.goaway.(sent := true,
                       sentLast := if p.goaway.sentLast.Some? then p.goaway.sentLast else Some(p.highRemote));
    var marked := p.(goaway := g);
    forall x | x in p.objects
      ensures Kept(marked, x, p.objects[x], cfg)
    {
      assert Kept(p, x, p.objects[x], cfg);
    }
    EnqueueListed(marked.writer, GoawayFrameOf(p, code));
    EnqueueListed(marked.writer, GoawayFrameOf(p, PROTOCOL_ERROR));
    QueueSound(marked, GoawayFrameOf(p, code), cfg);
    QueueSound(marked, GoawayFrameOf(p, PROTOCOL_ERROR), cfg);
    FailedSound(QueueGoaway(p, PROTOCOL_ERROR), cfg);
  }

  lemma FailedSound(p: Peer, cfg: Config)
    requires Sound(p, cfg)
    ensures Sound(p.(failed := true), cfg)
  {
    hide Counted, Listed, S.Consistent;
    var p' := p.(failed := true);
    forall x | x in p'.objects
      ensures Kept(p', x, p'.objects[x], cfg)
    {
      assert Kept(p, x, p.objects[x], cfg);
    }
  }

  lemma FailAllSound(p: Peer, doomed: set<nat>, code: int, cfg: Config)
    requires Sound(p, cfg) && (forall id :: id in doomed ==> id in p.objects)
    ensures var p' := p.(objects := FailAll(p.objects, doomed, code), live := p.live - doomed);
            Sound(p', cfg) && NoNewcomer(p, p')
  {
    hide Counted, Listed, S.Consistent;
    var p' := p.(objects := FailAll(p.objects, doomed, code), live := p.live - doomed);
    forall x | x in p'.objects
      ensures Kept(p', x, p'.objects[x], cfg)
      ensures x in doomed ==> p'.objects[x].state == S.Closed
      ensures p'.objects[x].local == p.objects[x].local
    {
      assert Kept(p, x, p.objects[x], cfg);
      FailKept(p, x, p.objects[x], code, cfg);
    }
  }

  lemma DieSound(p: Peer, cfg: Config)
    requires Sound(p, cfg)
    ensures Sound(Die(p), cfg) && NoNewcomer(p, Die(p))
  {
    hide Counted;
    if p.isOpen {
      var failed := p.(objects := FailAll(p.objects, p.live, CONNECTION_CLOSED), live := p.live - p.live);
      FailAllSound(p, p.live, CONNECTION_CLOSED, cfg);
      WriterSound(failed, DiscardAll(p.writer), cfg);
      var emptied := failed.(writer := DiscardAll(p.writer));
      assert p.live - p.live == {};
      assert Die(p) == emptied.(isOpen := false);
      forall x | x in emptied.objects
        ensures Kept(Die(p), x, emptied.objects[x], cfg)
      {
        assert Kept(emptied, x, emptied.objects[x], cfg);
      }
    }
  }

  // ------------------------------------------------------------ the application

  /** The peer with one more local stream. */
  function WithLocal(p: Peer, s: S.Stream): Peer {
    p.(nextId := p.nextId + 2, highLocal := p.nextId, objects := p.objects[p.nextId := s], live := p.live + {p.nextId})
  }

  lemma WithLocalSound(p: Peer, s: S.Stream, cfg: Config)
    requires Sound(p, cfg) && p.isOpen && s.id == p.nextId && s.local && 0 < p.nextId
    requires s.state != S.Closed && s.state != S.Idle && s.cause.NotEnded? && s.partial == NOTHING && !s.opening
      && !s.started
    requires S.Consistent(s)
    ensures Sound(WithLocal(p, s), cfg) && NoNewcomer(p, WithLocal(p, s))
  {
    hide Listed, S.Consistent;
    var p' := WithLocal(p, s);
    forall x | x in p'.objects
      ensures Kept(p', x, p'.objects[x], cfg)
    {
      if x != s.id {
        assert Kept(p, x, p.objects[x], cfg);
      }
    }
    assert s.id in p.objects ==> Kept(p, s.id, p.objects[s.id], cfg);
    assert s.id !in p.objects;
  }

  lemma OpenSound(p: Peer, payload: Value, headers: Option<Fields>, end: bool, cfg: Config)
    requires Sound(p, cfg)
    ensures Sound(OpenStream(p, payload, headers, end), cfg) && NoNewcomer(p, OpenStream(p, payload, headers, end))
  {
    assert 0 < p.nextId;
    hide Sound, Enqueue;
    if MayOpen(p) {
      var id := p.nextId;
      var s := S.NewStream(id, true, if end then S.HalfClosedLocal else S.Open, headers, Some(payload));
      NewIsConsistent(s);
      WithLocalSound(p, s, cfg);
      QueueSound(WithLocal(p, s), Bare(OpenFrame, Some(id)).(payload := Some(payload), headers := headers, end := end),
                 cfg);
    }
  }

  lemma SendSound(p: Peer, id: nat, payload: Option<Value>, headers: Option<Fields>, end: bool,
                  trailers: Option<Fields>, cfg: Config)
    requires Sound(p, cfg)
    ensures var p' := SendData(p, id, payload, headers, end, trailers);
            Sound(p', cfg) && NoNewcomer(p, p')
  {
    hide Sound, Enqueue, Kept;
    if id in p.objects && S.MaySend(p.objects[id], headers) {
      var frame := Bare(DataFrame, Some(id)).(payload := payload, headers := headers, end := end, trailers := trailers);
      SoundKeeps(p, id, cfg);
      SentKept(p, id, p.objects[id], headers, end, cfg);
      QueueSound(p, frame, cfg);
      var noted := S.NoteSent(p.objects[id], headers);
      KeptAfterQueue(p, frame, id, if end then S.LocalEnd(noted) else noted, cfg);
      PutSound(Queue(p, frame), id, if end then S.LocalEnd(noted) else noted, cfg);
    }
  }

  lemma SoundKeeps(p: Peer, id: nat, cfg: Config)
    requires Sound(p, cfg) && id in p.objects
    ensures Kept(p, id, p.objects[id], cfg)
    ensures id in p.live <==> p.objects[id].state != S.Closed
    ensures id in p.live <==> p.objects[id].cause.NotEnded?
  {
  }

  lemma KeptAfterQueue(p: Peer, frame: Frame, id: nat, s: S.Stream, cfg: Config)
    ensures Kept(Queue(p, frame), id, s, cfg) == Kept(p, id, s, cfg)
  {
    hide Enqueue, Counted;
  }

  lemma SentKept(p: Peer, id: nat, s: S.Stream, headers: Option<Fields>, end: bool, cfg: Config)
    requires Kept(p, id, s, cfg) && S.MaySend(s, headers)
    ensures var noted := S.NoteSent(s, headers);
            Kept(p, id, if end then S.LocalEnd(noted) else noted, cfg)
  {
    hide S.Consistent;
    SentIsConsistent(s, headers, end);
  }

  lemma SentIsConsistent(s: S.Stream, headers: Option<Fields>, end: bool)
    requires S.Consistent(s) && S.MaySend(s, headers) && s.state != S.Idle
    ensures var noted := S.NoteSent(s, headers);
            S.Consistent(if end then S.LocalEnd(noted) else noted)
  {
    hide S.EndsLast;
    var noted := S.NoteSent(s, headers);
    if end {
      S.LocalEndedKeepsConsistent(noted);
    }
  }

  lemma AppResetSound(p: Peer, id: nat, code: int, cfg: Config)
    requires Sound(p, cfg)
    ensures Sound(AppReset(p, id, code), cfg) && NoNewcomer(p, AppReset(p, id, code))
  {
    hide Sound, FailStream, EnqueueReset;
    if id in p.objects {
      QueueResetSound(p, id, code, cfg);
      EnqueueResetKeeps(p, id, code);
      FailStreamSound(if p.isOpen then EnqueueReset(p, id, code) else p, id, code, cfg);
    }
  }

  lemma EnqueueResetKeeps(p: Peer, id: nat, code: int)
    ensures EnqueueReset(p, id, code) == p.(writer := EnqueueReset(p, id, code).writer)
    ensures QueueReset(p, id, code) == p.(writer := QueueReset(p, id, code).writer)
  {
    hide Enqueue, Discard;
  }

  lemma HandlerErrorSound(p: Peer, id: nat, payload: Option<Value>, cfg: Config)
    requires Sound(p, cfg)
    ensures Sound(HandlerError(p, id, payload), cfg) && NoNewcomer(p, HandlerError(p, id, payload))
  {
    hide Sound, FailStream, Enqueue;
    if id in p.objects {
      QueueSound(p, ResetWith(id, APPLICATION_ERROR, payload), cfg);
      FailStreamSound(Queue(p, ResetWith(id, APPLICATION_ERROR, payload)), id, APPLICATION_ERROR, cfg);
    }
  }

  // ------------------------------------------------------------ the write loop

  lemma AfterTurnSound(p: Peer, w: Writer, turn: Turn, cfg: Config)
    requires Sound(p, cfg) && Listed(w)
    ensures Sound(AfterTurn(p, w, turn).0, cfg) && NoNewcomer(p, AfterTurn(p, w, turn).0)
  {
    hide Sound, FailStream, Listed, QueueReset, Die;
    var now := p.(writer := w);
    WriterSound(p, w, cfg);
    if turn.Failed? {
      DieSound(now, cfg);
      QueueResetSound(now, turn.id, INTERNAL_ERROR, cfg);
      EnqueueResetKeeps(now, turn.id, INTERNAL_ERROR);
      if turn.id in now.objects {
        FailStreamSound(if turn.unsentOpen then now else QueueReset(now, turn.id, INTERNAL_ERROR), turn.id,
                        INTERNAL_ERROR, cfg);
      }
    }
  }

  lemma TransmitSound(p: Peer, cfg: Config)
    requires Sound(p, cfg)
    ensures Sound(Transmit(p, cfg).0, cfg) && NoNewcomer(p, Transmit(p, cfg).0)
  {
    hide Rotate, AfterTurn, AnyWork;
    RotateListed(p.writer, |p.writer.order|, cfg.cap, cfg.codec);
    var (w, turn) := NextFrame(p.writer, cfg.cap, cfg.codec);
    AfterTurnSound(p, w, turn, cfg);
  }

  lemma TransmittedSound(p: Peer, id: nat, cfg: Config)
    requires Sound(p, cfg)
    ensures Sound(Transmitted(p, id, cfg), cfg) && NoNewcomer(p, Transmitted(p, id, cfg))
  {
    hide Advance, AfterTurn;
    AdvanceListed(p.writer, id, cfg.cap, cfg.codec);
    var (w, turn) := Advance(p.writer, id, cfg.cap, cfg.codec);
    AfterTurnSound(p, w, turn, cfg);
  }

  // ------------------------------------------------------------ inbound

  lemma FedKept(p: Peer, id: nat, s: S.Stream, frame: Frame, cfg: Config)
    requires Kept(p, id, s, cfg) && frame.fragment.Some? && WithinPayloadCap(s, frame.fragment.value, cfg)
    ensures Kept(p, id, s.(partial := Feed(s.partial, frame, cfg.codec).0), cfg)
  {
    hide Join;
    FeedCounts(s.partial, frame, cfg.codec);
    assert Counted(NOTHING) by { NothingCounts(); }
  }

  lemma NothingCounts()
    ensures Counted(NOTHING)
  {
  }

  lemma AbsorbSound(p: Peer, id: nat, frame: Frame, cfg: Config)
    requires Sound(p, cfg) && id in p.live && frame.fragment.Some?
    ensures var (q, payload) := Absorb(p, id, frame, cfg);
            && Sound(q, cfg) && NoNewcomer(p, q)
            && (payload.Some? ==>
                && id in q.live && id in q.objects
                && q == p.(objects := q.objects)
                && q.objects[id] == p.objects[id].(partial := q.objects[id].partial))
  {
    hide Sound, Kept, ResetStream, Feed, Counted;
    SoundHas(p, id, cfg);
    SoundKeeps(p, id, cfg);
    var s := p.objects[id];
    if !WithinPayloadCap(s, frame.fragment.value, cfg) {
      DroppedKept(p, id, s, cfg);
      PutSound(p, id, s.(partial := NOTHING), cfg);
      ResetStreamSound(Put(p, id, s.(partial := NOTHING)), id, PAYLOAD_TOO_LARGE, cfg);
    } else {
      FedKept(p, id, s, frame, cfg);
      var fed := s.(partial := Feed(s.partial, frame, cfg.codec).0);
      PutSound(p, id, fed, cfg);
      ResetStreamSound(Put(p, id, fed), id, PROTOCOL_ERROR, cfg);
    }
  }

  lemma SoundHas(p: Peer, id: nat, cfg: Config)
    requires Sound(p, cfg) && id in p.live
    ensures id in p.objects
  {
  }

  lemma DroppedKept(p: Peer, id: nat, s: S.Stream, cfg: Config)
    requires Kept(p, id, s, cfg)
    ensures Kept(p, id, s.(partial := NOTHING), cfg)
  {
    NothingCounts();
  }

  lemma StartHandlerSound(p: Peer, id: nat, cfg: Config)
    requires Sound(p, cfg) && id in p.live && id in p.objects && !p.objects[id].local && !p.objects[id].opening
    ensures Sound(StartHandler(p, id), cfg) && NoNewcomer(p, StartHandler(p, id))
  {
    hide FailStream, QueueReset, Listed, Counted;
    SoundKeeps(p, id, cfg);
    if p.goaway.sent || !p.handler {
      QueueResetSound(p, id, REFUSED, cfg);
      EnqueueResetKeeps(p, id, REFUSED);
      FailStreamSound(QueueReset(p, id, REFUSED), id, REFUSED, cfg);
    } else {
      PutSound(p, id, p.objects[id].(started := true), cfg);
    }
  }

  lemma FeedOpeningSound(p: Peer, id: nat, frame: Frame, later: bool, cfg: Config)
    requires Sound(p, cfg) && id in p.live && id in p.objects && !p.objects[id].local && frame.fragment.Some?
    ensures Sound(FeedOpening(p, id, frame, later, cfg), cfg) && NoNewcomer(p, FeedOpening(p, id, frame, later, cfg))
  {
    hide Sound, Kept, Absorb, StartHandler, RemoteLive, Put, S.CloseNormally, Completed;
    AbsorbSound(p, id, frame, cfg);
    var (absorbed, payload) := Absorb(p, id, frame, cfg);
    if payload.Some? {
      SoundKeeps(absorbed, id, cfg);
      var complete := Completed(absorbed.objects[id], payload, later && frame.end);
      CompletedKept(absorbed, id, absorbed.objects[id], payload, later && frame.end, cfg);
      PutSound(absorbed, id, complete, cfg);
      PutShape(absorbed, id, complete);
      StartHandlerSound(Put(absorbed, id, complete), id, cfg);
    }
  }

  lemma PutShape(p: Peer, id: nat, s: S.Stream)
    ensures id in Put(p, id, s).objects && Put(p, id, s).objects[id] == s
    ensures s.state != S.Closed ==> Put(p, id, s).live == p.live
  {
  }

  lemma CompletedKept(p: Peer, id: nat, s: S.Stream, payload: Option<Value>, ended: bool, cfg: Config)
    requires Kept(p, id, s, cfg) && s.state != S.Closed
    ensures var complete := Completed(s, payload, ended);
            && Kept(p, id, complete, cfg) && complete.state != S.Closed
            && complete.local == s.local && !complete.opening
  {
    hide Counted;
  }

  /** The peer with one more of the remote's streams. */
  function WithRemote(p: Peer, s: S.Stream): Peer {
    p.(highRemote := s.id, objects := p.objects[s.id := s], live := p.live + {s.id})
  }

  lemma WithRemoteSound(p: Peer, s: S.Stream, cfg: Config)
    requires Sound(p, cfg) && p.isOpen && Admissible(p, s.id) && !s.local
    requires s.state != S.Closed && s.state != S.Idle && s.cause.NotEnded? && s.partial == NOTHING && !s.started
    requires S.Consistent(s)
    ensures s.id !in p.objects
    ensures Sound(WithRemote(p, s), cfg) && RemoteLive(WithRemote(p, s)) <= RemoteLive(p) + {s.id}
  {
    hide Listed, S.Consistent;
    var p' := WithRemote(p, s);
    forall x | x in p'.objects
      ensures Kept(p', x, p'.objects[x], cfg)
    {
      if x != s.id {
        assert Kept(p, x, p.objects[x], cfg);
      }
    }
    assert s.id in p.objects ==> Kept(p, s.id, p.objects[s.id], cfg);
    assert s.id !in p.objects;
  }

  lemma AdmittedSound(p: Peer, id: nat, cfg: Config)
    requires Sound(p, cfg) && Admissible(p, id)
    ensures var q := p.(highRemote := id);
            && Sound(q, cfg) && NoNewcomer(p, q)
            && id !in p.live
            && forall cut ::
                  cut == p.cut || cut == p.cut + {id} ==> Sound(q.(cut := cut), cfg) && NoNewcomer(p, q.(cut := cut))
  {
    hide Counted, Listed, S.Consistent;
    var q := p.(highRemote := id);
    forall x | x in q.objects
      ensures Kept(q, x, q.objects[x], cfg)
    {
      assert Kept(p, x, p.objects[x], cfg);
    }
    assert id in p.objects ==> Kept(p, id, p.objects[id], cfg);
    assert id !in p.live;
    forall cut | cut == p.cut || cut == p.cut + {id}
      ensures Sound(q.(cut := cut), cfg) && NoNewcomer(p, q.(cut := cut))
    {
      CutSound(q, cut, cfg);
    }
  }

  lemma OnOpenSound(p: Peer, frame: Frame, cfg: Config)
    requires Sound(p, cfg) && Bounded(p, cfg) && p.isOpen
    ensures Sound(OnOpen(p, frame, cfg), cfg) && Bounded(OnOpen(p, frame, cfg), cfg)
  {
    hide Sound, Kept, FeedOpening, StartHandler, FailConnection, QueueReset, Put, RemoteLive;
    QueueGoawaySound(p, PROTOCOL_ERROR, cfg);
    if frame.stream.None? {
      NoNewcomerBounded(p, FailConnection(p), cfg);
    } else {
      var id := frame.stream.value;
      if ContinuesOpening(p, frame) {
        OpeningIsRemote(p, id, cfg);
        FeedOpeningSound(p, id, frame, true, cfg);
        NoNewcomerBounded(p, FeedOpening(p, id, frame, true, cfg), cfg);
      } else if !Admissible(p, id) {
        NoNewcomerBounded(p, FailConnection(p), cfg);
      } else if cfg.maxStreams <= |RemoteLive(p)| {
        RefusedSound(p, id, REFUSED, if frame.fragment.Some? && frame.more then p.cut + {id} else p.cut, cfg);
      } else {
        CreatedSound(p, id, frame, cfg);
      }
    }
  }

  lemma OpeningIsRemote(p: Peer, id: nat, cfg: Config)
    requires Sound(p, cfg) && id in p.objects && p.objects[id].opening
    ensures !p.objects[id].local
  {
    assert Kept(p, id, p.objects[id], cfg);
  }

  /** An admitted id that gets a reset and no stream. */
  lemma RefusedSound(p: Peer, id: nat, code: int, cut: set<nat>, cfg: Config)
    requires Sound(p, cfg) && Bounded(p, cfg) && Admissible(p, id) && (cut == p.cut || cut == p.cut + {id})
    ensures var q := QueueReset(p.(highRemote := id), id, code).(cut := cut);
            Sound(q, cfg) && Bounded(q, cfg)
  {
    hide Sound, Enqueue, NoNewcomer;
    AdmittedSound(p, id, cfg);
    var q := p.(highRemote := id).(cut := cut);
    QueueResetSound(q, id, code, cfg);
    assert QueueReset(p.(highRemote := id), id, code).(cut := cut) == QueueReset(q, id, code);
    NoNewcomerBounded(p, q, cfg);
    NoNewcomerBounded(q, QueueReset(q, id, code), cfg);
  }

  lemma CreatedSound(p: Peer, id: nat, frame: Frame, cfg: Config)
    requires Sound(p, cfg) && p.isOpen && Admissible(p, id) && |RemoteLive(p)| < cfg.maxStreams
    requires frame.stream == Some(id) && !ContinuesOpening(p, frame)
    ensures Sound(OnOpen(p, frame, cfg), cfg) && Bounded(OnOpen(p, frame, cfg), cfg)
  {
    hide Sound, FeedOpening, StartHandler, RemoteLive, NoNewcomer;
    var s := S.NewStream(id, false, if frame.end then S.HalfClosedRemote else S.Open, frame.headers, None);
    var opening := s.(opening := true);
    var whole := s.(payload := Some(if frame.payload.Some? then frame.payload.value else Null));
    NewIsConsistent(opening);
    NewIsConsistent(whole);
    WithRemoteSound(p, opening, cfg);
    WithRemoteSound(p, whole, cfg);
    SubsetSize(RemoteLive(WithRemote(p, opening)), RemoteLive(p) + {id});
    SubsetSize(RemoteLive(WithRemote(p, whole)), RemoteLive(p) + {id});
    if frame.fragment.Some? {
      assert OnOpen(p, frame, cfg) == FeedOpening(WithRemote(p, opening), id, frame, false, cfg);
      FeedOpeningSound(WithRemote(p, opening), id, frame, false, cfg);
      NoNewcomerBounded(WithRemote(p, opening), OnOpen(p, frame, cfg), cfg);
    } else {
      assert OnOpen(p, frame, cfg) == StartHandler(WithRemote(p, whole), id);
      StartHandlerSound(WithRemote(p, whole), id, cfg);
      NoNewcomerBounded(WithRemote(p, whole), OnOpen(p, frame, cfg), cfg);
    }
  }

  lemma NewIsConsistent(s: S.Stream)
    requires s.queue == [] && s.read == 0 && s.answer.NotAsked? && s.cause.NotEnded? && s.state != S.Closed
    ensures S.Consistent(s)
  {
  }

  /** What the consumer's view needs of a delivery. */
  lemma DeliveredIsConsistent(s: S.Stream, payload: Option<Value>, frame: Frame)
    requires S.Consistent(s) && (s.state == S.Open || s.state == S.HalfClosedLocal)
    ensures var accepted := if payload.Some? then S.AcceptPayload(s, payload.value) else s;
            S.Consistent(if frame.end then S.RemoteEnd(accepted, frame.trailers) else accepted)
  {
    hide S.Consistent;
    if payload.Some? {
      S.ArrivedKeepsConsistent(s, payload.value);
    }
    var accepted := if payload.Some? then S.AcceptPayload(s, payload.value) else s;
    if frame.end {
      S.RemoteEndedKeepsConsistent(accepted, frame.trailers);
    }
  }

  lemma DeliverSound(p: Peer, id: nat, payload: Option<Value>, frame: Frame, cfg: Config)
    requires Sound(p, cfg) && id in p.live && id in p.objects
    requires p.objects[id].state == S.Open || p.objects[id].state == S.HalfClosedLocal
    ensures Sound(Deliver(p, id, payload, frame), cfg) && NoNewcomer(p, Deliver(p, id, payload, frame))
  {
    hide Sound;
    SoundKeeps(p, id, cfg);
    var s := p.objects[id];
    var accepted := if payload.Some? then S.AcceptPayload(s, payload.value) else s;
    var done := if frame.end then S.RemoteEnd(accepted, frame.trailers) else accepted;
    DeliveredKept(p, id, payload, frame, cfg);
    PutSound(p, id, done, cfg);
  }

  lemma DeliveredKept(p: Peer, id: nat, payload: Option<Value>, frame: Frame, cfg: Config)
    requires id in p.objects && Kept(p, id, p.objects[id], cfg)
    requires p.objects[id].state == S.Open || p.objects[id].state == S.HalfClosedLocal
    ensures var accepted := if payload.Some? then S.AcceptPayload(p.objects[id], payload.value) else p.objects[id];
            Kept(p, id, if frame.end then S.RemoteEnd(accepted, frame.trailers) else accepted, cfg)
  {
    hide Counted, S.Consistent;
    DeliveredIsConsistent(p.objects[id], payload, frame);
  }

  lemma OnDataSound(p: Peer, id: nat, frame: Frame, cfg: Config)
    requires Sound(p, cfg) && id in p.live && id in p.objects
    ensures Sound(OnData(p, id, frame, cfg), cfg) && NoNewcomer(p, OnData(p, id, frame, cfg))
  {
    hide Sound, Kept, ResetStream, Absorb, Deliver, Counted;
    SoundKeeps(p, id, cfg);
    var s := p.objects[id];
    var (noted, allowed) := S.NoteRemoteFrame(s, frame.headers);
    NotedKept(p, id, s, frame.headers, cfg);
    PutSound(p, id, noted, cfg);
    var q := Put(p, id, noted);
    ResetStreamSound(p, id, PROTOCOL_ERROR, cfg);
    ResetStreamSound(q, id, PROTOCOL_ERROR, cfg);
    NotIdle(p, id, cfg);
    if s.state != S.Closed && s.state != S.HalfClosedRemote {
      DeliverSound(q, id, frame.payload, frame, cfg);
      if frame.fragment.Some? {
        AbsorbSound(q, id, frame, cfg);
        var (absorbed, payload) := Absorb(q, id, frame, cfg);
        if payload.Some? {
          DeliverSound(absorbed, id, payload, frame, cfg);
        }
      }
    }
  }

  lemma NotIdle(p: Peer, id: nat, cfg: Config)
    requires Sound(p, cfg) && id in p.objects
    ensures p.objects[id].state != S.Idle
  {
    hide Counted, Listed, S.Consistent;
    assert Kept(p, id, p.objects[id], cfg);
  }

  lemma NotedKept(p: Peer, id: nat, s: S.Stream, headers: Option<Fields>, cfg: Config)
    requires Kept(p, id, s, cfg)
    ensures Kept(p, id, S.NoteRemoteFrame(s, headers).0, cfg)
    ensures S.NoteRemoteFrame(s, headers).0.state == s.state
  {
    hide Counted;
  }

  lemma OnStreamFrameSound(p: Peer, frame: Frame, cfg: Config)
    requires Sound(p, cfg)
    ensures Sound(OnStreamFrame(p, frame, cfg), cfg) && NoNewcomer(p, OnStreamFrame(p, frame, cfg))
  {
    hide Sound, Kept, OnData, FailConnection, FailStream, Discard;
    QueueGoawaySound(p, PROTOCOL_ERROR, cfg);
    if frame.stream.Some? {
      var id := frame.stream.value;
      if id in p.live && id in p.objects {
        DiscardSound(p, id, cfg);
        FailStreamSound(p.(writer := Discard(p.writer, id)), id, if frame.code.Some? then frame.code.value else 0, cfg);
        OnDataSound(p, id, frame, cfg);
      } else {
        IgnoredSound(p, cfg);
      }
    }
  }

  lemma IgnoredSound(p: Peer, cfg: Config)
    requires Sound(p, cfg)
    ensures Sound(p.(ignoredLate := p.ignoredLate + 1), cfg)
  {
    hide Counted, Listed, S.Consistent;
    var q := p.(ignoredLate := p.ignoredLate + 1);
    forall x | x in q.objects
      ensures Kept(q, x, q.objects[x], cfg)
    {
      assert Kept(p, x, p.objects[x], cfg);
    }
  }

  lemma OnGoawaySound(p: Peer, frame: Frame, cfg: Config)
    requires Sound(p, cfg)
    ensures Sound(OnGoaway(p, frame), cfg) && NoNewcomer(p, OnGoaway(p, frame))
  {
    hide Counted, Listed, S.Consistent;
    var heard := p.(goaway := p.goaway.(received := true, remoteLast := frame.lastStream));
    forall x | x in heard.objects
      ensures Kept(heard, x, heard.objects[x], cfg)
    {
      assert Kept(p, x, p.objects[x], cfg);
    }
    FailAllSound(heard, Unprocessed(heard), REFUSED, cfg);
  }

  lemma OverCapSound(p: Peer, frame: Frame, cfg: Config)
    requires Sound(p, cfg) && Bounded(p, cfg)
    ensures Sound(OverCap(p, frame, cfg), cfg) && Bounded(OverCap(p, frame, cfg), cfg)
  {
    hide Sound, Kept, OnStreamFrame, FailConnection, ResetStream, QueueReset, Bounded, NoNewcomer;
    QueueGoawaySound(p, PROTOCOL_ERROR, cfg);
    NoNewcomerBounded(p, FailConnection(p), cfg);
    OnStreamFrameSound(p, frame, cfg);
    NoNewcomerBounded(p, OnStreamFrame(p, frame, cfg), cfg);
    if frame.stream.Some? {
      var id := frame.stream.value;
      QueueResetSound(p, id, PAYLOAD_TOO_LARGE, cfg);
      NoNewcomerBounded(p, QueueReset(p, id, PAYLOAD_TOO_LARGE), cfg);
      if Admissible(p, id) {
        RefusedSound(p, id, PAYLOAD_TOO_LARGE, if frame.fragment.Some? && frame.more then p.cut + {id} else p.cut, cfg);
      }
      if id in p.objects {
        ResetStreamSound(p, id, PAYLOAD_TOO_LARGE, cfg);
        NoNewcomerBounded(p, ResetStream(p, id, PAYLOAD_TOO_LARGE), cfg);
      }
    }
  }

  lemma ReceiveSound(p: Peer, frame: Frame, size: nat, cfg: Config)
    requires Sound(p, cfg) && Bounded(p, cfg)
    ensures Sound(Receive(p, frame, size, cfg), cfg) && Bounded(Receive(p, frame, size, cfg), cfg)
  {
    hide Sound, OnOpen, OnStreamFrame, OnGoaway, OverCap, Bounded, NoNewcomer, Queue;
    if p.isOpen && !p.failed {
      OverCapSound(p, frame, cfg);
      OnOpenSound(p, frame, cfg);
      OnStreamFrameSound(p, frame, cfg);
      NoNewcomerBounded(p, OnStreamFrame(p, frame, cfg), cfg);
      OnGoawaySound(p, frame, cfg);
      NoNewcomerBounded(p, OnGoaway(p, frame), cfg);
      QueueSound(p, Bare(PongFrame, None).(nonce := frame.nonce), cfg);
      NoNewcomerBounded(p, Queue(p, Bare(PongFrame, None).(nonce := frame.nonce)), cfg);
    }
  }

  // ------------------------------------------------------------ every run

  /** Everything that can happen to a peer.  `Read` carries whatever the remote chose to send. */
  datatype Action =
    | Register
    | Open(payload: Value, headers: Option<Fields>, end: bool)
    | Send(id: nat, data: Option<Value>, leading: Option<Fields>, last: bool, trailers: Option<Fields>)
    | Reset(stream: nat, code: int)
    | HandlerRaises(task: nat, error: Option<Value>)
    | Goodbye(goodbye: int)
    | Ping(token: Text)
    | Take
    | Taken(lane: nat)
    | Read(frame: Frame, size: nat)
    | SocketDies

  function Act(p: Peer, a: Action, cfg: Config): Peer {
    match a
    case Register => p.(handler := true)
    case Open(payload, headers, end) => OpenStream(p, payload, headers, end)
    case Send(id, data, leading, last, trailers) => SendData(p, id, data, leading, last, trailers)
    case Reset(id, code) => AppReset(p, id, code)
    case HandlerRaises(id, error) => HandlerError(p, id, error)
    case Goodbye(code) => SendGoaway(p, code)
    case Ping(nonce) => SendPing(p, nonce)
    case Take => Transmit(p, cfg).0
    case Taken(lane) => Transmitted(p, lane, cfg)
    case Read(frame, size) => Receive(p, frame, size, cfg)
    case SocketDies => Die(p)
  }

  function ActAll(p: Peer, actions: seq<Action>, cfg: Config): Peer
    decreases |actions|
  {
    if actions == [] then p else ActAll(Act(p, actions[0], cfg), actions[1..], cfg)
  }

  lemma RegisterSound(p: Peer, cfg: Config)
    requires Sound(p, cfg)
    ensures Sound(p.(handler := true), cfg) && NoNewcomer(p, p.(handler := true))
  {
    hide Counted, Listed, S.Consistent;
    var q := p.(handler := true);
    forall x | x in q.objects
      ensures Kept(q, x, q.objects[x], cfg)
    {
      assert Kept(p, x, p.objects[x], cfg);
    }
  }

  lemma PingSound(p: Peer, nonce: Text, cfg: Config)
    requires Sound(p, cfg)
    ensures Sound(SendPing(p, nonce), cfg) && NoNewcomer(p, SendPing(p, nonce))
  {
    hide Sound, Queue;
    QueueSound(p, PingOf(nonce), cfg);
  }

  lemma ActSound(p: Peer, a: Action, cfg: Config)
    requires Sound(p, cfg) && Bounded(p, cfg)
    ensures Sound(Act(p, a, cfg), cfg) && Bounded(Act(p, a, cfg), cfg)
  {
    hide Sound, Bounded, NoNewcomer, OpenStream, SendData, AppReset, HandlerError, QueueGoaway, Transmit, Transmitted,
      Receive, Die;
    match a
    case Register => RegisterSound(p, cfg); NoNewcomerBounded(p, Act(p, a, cfg), cfg);
    case Open(payload, headers, end) =>
      OpenSound(p, payload, headers, end, cfg); NoNewcomerBounded(p, Act(p, a, cfg), cfg);
    case Send(id, data, leading, last, trailers) =>
      SendSound(p, id, data, leading, last, trailers, cfg); NoNewcomerBounded(p, Act(p, a, cfg), cfg);
    case Reset(id, code) => AppResetSound(p, id, code, cfg); NoNewcomerBounded(p, Act(p, a, cfg), cfg);
    case HandlerRaises(id, error) => HandlerErrorSound(p, id, error, cfg); NoNewcomerBounded(p, Act(p, a, cfg), cfg);
    case Goodbye(code) =>
      QueueGoawaySound(p, code, cfg);
      if p.isOpen && !p.goaway.sent { NoNewcomerBounded(p, Act(p, a, cfg), cfg); }
    case Ping(nonce) => PingSound(p, nonce, cfg); NoNewcomerBounded(p, Act(p, a, cfg), cfg);
    case Take => TransmitSound(p, cfg); NoNewcomerBounded(p, Act(p, a, cfg), cfg);
    case Taken(lane) => TransmittedSound(p, lane, cfg); NoNewcomerBounded(p, Act(p, a, cfg), cfg);
    case Read(frame, size) => ReceiveSound(p, frame, size, cfg);
    case SocketDies => DieSound(p, cfg); NoNewcomerBounded(p, Act(p, a, cfg), cfg);
  }

  lemma {:induction false} ActAllSound(p: Peer, actions: seq<Action>, cfg: Config)
    requires Sound(p, cfg) && Bounded(p, cfg)
    ensures Sound(ActAll(p, actions, cfg), cfg) && Bounded(ActAll(p, actions, cfg), cfg)
    decreases |actions|
  {
    hide Sound, Bounded, Act;
    if actions != [] {
      ActSound(p, actions[0], cfg);
      ActAllSound(Act(p, actions[0], cfg), actions[1..], cfg);
    }
  }

  lemma NewPeerSound(dialer: bool, cfg: Config)
    ensures Sound(NewPeer(dialer), cfg) && Bounded(NewPeer(dialer), cfg)
  {
    assert RemoteLive(NewPeer(dialer)) == {};
  }

  /** After any sequence of inbound frames and local calls: every stream's reassembly buffer is within
      the payload cap and counted exactly, the remote's live streams are within the concurrency limit,
      no closed stream is live, and a handler was started only for ids at or below every goaway. */
  lemma ReceiverBounds(dialer: bool, actions: seq<Action>, cfg: Config)
    ensures var p := ActAll(NewPeer(dialer), actions, cfg);
            && |RemoteLive(p)| <= cfg.maxStreams
            && (forall id :: id in p.live ==> id in p.objects && p.objects[id].state != S.Closed)
            && (forall id :: id in p.objects ==>
                  && p.objects[id].partial.bytes == |Join(p.objects[id].partial.parts)| <= cfg.maxPayload
                  && (p.objects[id].started && p.goaway.sentLast.Some? ==> id <= p.goaway.sentLast.value))
  {
    var p := ActAll(NewPeer(dialer), actions, cfg);
    NewPeerSound(dialer, cfg);
    ActAllSound(NewPeer(dialer), actions, cfg);
    forall id | id in p.objects
      ensures Kept(p, id, p.objects[id], cfg)
    {
    }
  }

  lemma ConsistentIterates(s: S.Stream)
    requires S.Consistent(s)
    ensures S.Iterated(s.queue) == S.Accepted(s.queue)
  {
    S.EndsLastIterates(s.queue);
  }

  /** In every run of a peer, whatever its remote sends, a consumer that iterates any of its streams is given
      exactly what was accepted on it, in order. */
  lemma ConsumersGetWhatWasAccepted(dialer: bool, actions: seq<Action>, cfg: Config, id: nat)
    requires id in ActAll(NewPeer(dialer), actions, cfg).objects
    ensures var queue := ActAll(NewPeer(dialer), actions, cfg).objects[id].queue;
            S.Iterated(queue) == S.Accepted(queue)
  {
    hide S.Consistent, Counted;
    var p := ActAll(NewPeer(dialer), actions, cfg);
    NewPeerSound(dialer, cfg);
    ActAllSound(NewPeer(dialer), actions, cfg);
    assert Kept(p, id, p.objects[id], cfg);
    ConsistentIterates(p.objects[id]);
  }
}
