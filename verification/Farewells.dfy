/** What an end's goaways promise: no handler is started for a stream above any `last_stream` it sent. */
module Farewells {
  import opened Frames
  import opened Codecs
  import opened WriterModel
  import opened WriterFrames
  import opened PeerModel
  import opened PeerInvariant
  import opened PeerFrames
  import opened Ends
  import opened Lives
  import opened PeerTable
  import A = Assembly
  import S = StreamModel

  /** Every goaway names at least what the first one did; before a first one there is none. */
  function NamesAtLeast(first: Option<nat>): Law {
    (x: nat, f: Frame) => f.kind == GoawayFrame
        ==> f.lastStream.Some? && first.Some? && first.value <= f.lastStream.value
  }

  lemma NamesAtLeastInherited(first: Option<nat>, cap: nat, codec: Codec)
    ensures Inherited(NamesAtLeast(first), cap, codec) && Mild(NamesAtLeast(first))
  {
  }

  /** A first goaway constrains nothing that was there: there was none. */
  lemma FirstObeys(first: nat, w: Writer)
    requires Obeys(NamesAtLeast(None), w)
    ensures Obeys(NamesAtLeast(Some(first)), w)
  {
    forall x | x in w.queues
      ensures LaneObeys(NamesAtLeast(Some(first)), x, w.queues[x])
    {
      assert LaneObeys(NamesAtLeast(None), x, w.queues[x]);
    }
  }

  ghost predicate Promised(e: End) {
    && Obeys(NamesAtLeast(e.peer.goaway.sentLast), e.peer.writer)
    && forall i :: 0 <= i < |e.log| ==> NamesAtLeast(e.peer.goaway.sentLast)(0, e.log[i])
  }

  // ------------------------------------------------------------ when the first goaway is sent

  /** The first `last_stream` is the mark of the moment, and stays; what the remote said stays said. */
  predicate Waves(p: Peer, p': Peer) {
    && (p.goaway.sentLast.Some? ==> p'.goaway.sentLast == p.goaway.sentLast)
    && (p.goaway.sentLast.None? ==> p'.goaway.sentLast.None? || p'.goaway.sentLast == Some(p.highRemote))
    && ((p.goaway.sent <==> p.goaway.sentLast.Some?) ==> (p'.goaway.sent <==> p'.goaway.sentLast.Some?))
    && (p.goaway.received ==> p'.goaway.received)
  }

  lemma StreamStepsKeepGoaway(p: Peer, id: nat, code: int)
    requires id in p.objects
    ensures FailStream(p, id, code).goaway == p.goaway && ResetStream(p, id, code).goaway == p.goaway
    ensures StartHandler(p, id).goaway == p.goaway
  {
    hide Enqueue, Discard, S.Fail;
  }

  lemma AbsorbKeepsGoaway(p: Peer, id: nat, f: Frame, cfg: Config)
    requires id in p.objects && f.fragment.Some?
    ensures Absorb(p, id, f, cfg).0.goaway == p.goaway
  {
    hide ResetStream, A.Feed;
    var s := p.objects[id];
    StreamStepsKeepGoaway(Put(p, id, s.(partial := A.NOTHING)), id, PAYLOAD_TOO_LARGE);
    StreamStepsKeepGoaway(Put(p, id, s.(partial := A.Feed(s.partial, f, cfg.codec).0)), id, PROTOCOL_ERROR);
  }

  lemma FeedOpeningKeepsGoaway(p: Peer, id: nat, f: Frame, later: bool, cfg: Config)
    requires id in p.objects && f.fragment.Some?
    ensures FeedOpening(p, id, f, later, cfg).goaway == p.goaway
  {
    hide Absorb, StartHandler;
    AbsorbKeepsGoaway(p, id, f, cfg);
    var (absorbed, payload) := Absorb(p, id, f, cfg);
    if payload.Some? && id in absorbed.objects {
      StreamStepsKeepGoaway(Put(absorbed, id, Completed(absorbed.objects[id], payload, later && f.end)), id, 0);
    }
  }

  lemma OnDataKeepsGoaway(p: Peer, id: nat, f: Frame, cfg: Config)
    requires id in p.objects
    ensures OnData(p, id, f, cfg).goaway == p.goaway
  {
    hide Absorb, ResetStream, S.RemoteEnd, S.AcceptPayload;
    var q := Put(p, id, S.NoteRemoteFrame(p.objects[id], f.headers).0);
    StreamStepsKeepGoaway(p, id, PROTOCOL_ERROR);
    StreamStepsKeepGoaway(q, id, PROTOCOL_ERROR);
    if f.fragment.Some? { AbsorbKeepsGoaway(q, id, f, cfg); }
  }

  lemma OnOpenWaves(p: Peer, f: Frame, cfg: Config)
    ensures Waves(p, OnOpen(p, f, cfg))
  {
    hide FeedOpening, StartHandler, Enqueue, RemoteLive, Admissible, ContinuesOpening;
    if f.stream.Some? && ContinuesOpening(p, f) {
      ContinuesHas(p, f);
      FeedOpeningKeepsGoaway(p, f.stream.value, f, true, cfg);
    } else if f.stream.Some? && Admissible(p, f.stream.value) {
      AdmittedWaves(p, f, cfg);
    }
  }

  lemma AdmittedWaves(p: Peer, f: Frame, cfg: Config)
    requires f.stream.Some? && Admissible(p, f.stream.value) && !ContinuesOpening(p, f)
    ensures OnOpen(p, f, cfg).goaway == p.goaway
  {
    hide FeedOpening, StartHandler, QueueReset, RemoteLive, Admissible, ContinuesOpening, Create;
    var id := f.stream.value;
    var admitted := p.(highRemote := id);
    var s := S.NewStream(id, false, if f.end then S.HalfClosedRemote else S.Open, f.headers, None);
    if cfg.maxStreams <= |RemoteLive(p)| {
      ResetKeepsGoaway(admitted, id, REFUSED);
    } else if f.fragment.Some? {
      CreateKeepsGoaway(admitted, s.(opening := true));
      FeedOpeningKeepsGoaway(Create(admitted, s.(opening := true)), id, f, false, cfg);
    } else {
      var whole := s.(payload := Some(if f.payload.Some? then f.payload.value else Null));
      CreateKeepsGoaway(admitted, whole);
      StreamStepsKeepGoaway(Create(admitted, whole), id, 0);
    }
  }

  lemma CreateKeepsGoaway(p: Peer, s: S.Stream)
    ensures Create(p, s).goaway == p.goaway && s.id in Create(p, s).objects
  {
  }

  lemma ResetKeepsGoaway(p: Peer, id: nat, code: int)
    ensures QueueReset(p, id, code).goaway == p.goaway
  {
    hide Enqueue;
  }

  lemma OnStreamFrameWaves(p: Peer, f: Frame, cfg: Config)
    ensures Waves(p, OnStreamFrame(p, f, cfg))
  {
    hide OnData, FailStream, FailConnection, Discard, Waves;
    FailureWaves(p);
    SameWaves(p, p.(ignoredLate := p.ignoredLate + 1));
    if f.stream.Some? && f.stream.value in p.objects {
      var id := f.stream.value;
      var q := p.(writer := Discard(p.writer, id));
      var code := if f.code.Some? then f.code.value else 0;
      OnDataKeepsGoaway(p, id, f, cfg);
      SameWaves(p, OnData(p, id, f, cfg));
      StreamStepsKeepGoaway(q, id, code);
      SameWaves(p, FailStream(q, id, code));
    }
  }

  lemma ReceiveWaves(p: Peer, f: Frame, size: nat, cfg: Config)
    ensures Waves(p, Receive(p, f, size, cfg))
  {
    hide OnOpen, OnStreamFrame, OverCap, Enqueue, FailAll;
    if p.isOpen && !p.failed && cfg.cap < size { OverCapWaves(p, f, cfg); }
    OnOpenWaves(p, f, cfg);
    OnStreamFrameWaves(p, f, cfg);
  }

  lemma OverCapWaves(p: Peer, f: Frame, cfg: Config)
    ensures Waves(p, OverCap(p, f, cfg))
  {
    hide OnStreamFrame, ResetStream, QueueReset, FailConnection, ContinuesOpening, Admissible, Waves;
    OnStreamFrameWaves(p, f, cfg);
    FailureWaves(p);
    if f.stream.Some? {
      var id := f.stream.value;
      QueuedWaves(p, id, f.fragment.Some? && f.more);
      if id in p.objects {
        StreamStepsKeepGoaway(p, id, PAYLOAD_TOO_LARGE);
        SameWaves(p, ResetStream(p, id, PAYLOAD_TOO_LARGE));
      }
    }
  }

  lemma SameWaves(p: Peer, p': Peer)
    requires p'.goaway == p.goaway
    ensures Waves(p, p')
  {
  }

  lemma FailureWaves(p: Peer)
    ensures Waves(p, FailConnection(p))
  {
    hide Enqueue;
  }

  lemma QueuedWaves(p: Peer, id: nat, cutShort: bool)
    ensures Waves(p, QueueReset(p, id, PAYLOAD_TOO_LARGE))
    ensures Waves(p, QueueReset(p.(highRemote := id), id, PAYLOAD_TOO_LARGE).(cut := if cutShort then p.cut + {id}
      else p.cut))
  {
    hide Enqueue;
  }

  lemma ActWaves(p: Peer, a: Action, cfg: Config)
    requires p.goaway.sent <==> p.goaway.sentLast.Some?
    ensures Waves(p, Act(p, a, cfg))
  {
    hide Receive, Enqueue, Discard, NextFrame, Advance, FailStream, FailAll, DiscardAll, S.MaySend, S.LocalEnd;
    match a
    case Read(f, size) => ReceiveWaves(p, f, size, cfg);
    case Reset(id, code) =>
        if id in p.objects { StreamStepsKeepGoaway(if p.isOpen then EnqueueReset(p, id, code) else p, id, code); }
    case HandlerRaises(id, error) =>
      if id in p.objects { StreamStepsKeepGoaway(Queue(p, ResetWith(id, APPLICATION_ERROR, error)), id,
                                                 APPLICATION_ERROR); }
    case Take => var (w, turn) := NextFrame(p.writer, cfg.cap, cfg.codec); TurnKeepsGoaway(p, w, turn);
    case Taken(lane) => var (w, turn) := Advance(p.writer, lane, cfg.cap, cfg.codec); TurnKeepsGoaway(p, w, turn);
    case _ =>
  }

  lemma TurnKeepsGoaway(p: Peer, w: Writer, turn: Turn)
    ensures AfterTurn(p, w, turn).0.goaway == p.goaway
  {
    hide FailStream, Enqueue, FailAll;
    var now := p.(writer := w);
    if turn.Failed? && turn.id in now.objects {
      StreamStepsKeepGoaway(now, turn.id, INTERNAL_ERROR);
      StreamStepsKeepGoaway(QueueReset(now, turn.id, INTERNAL_ERROR), turn.id, INTERNAL_ERROR);
    }
  }

  // ------------------------------------------------------------ every run

  lemma ActPromised(p: Peer, a: Action, cfg: Config)
    requires Sound(p, cfg) && Obeys(NamesAtLeast(p.goaway.sentLast), p.writer)
    ensures Obeys(NamesAtLeast(Act(p, a, cfg).goaway.sentLast), Act(p, a, cfg).writer)
    ensures Waves(p, Act(p, a, cfg))
  {
    hide Obeys, Act, Inherited, Mild;
    var last := Act(p, a, cfg).goaway.sentLast;
    var law := NamesAtLeast(last);
    SentIsRecorded(p, cfg);
    ActWaves(p, a, cfg);
    NamesAtLeastInherited(last, cfg.cap, cfg.codec);
    if p.goaway.sentLast.None? && last.Some? { FirstObeys(last.value, p.writer); }
    assert Abides(law, p);
    ActObeys(law, p, a, cfg);
  }

  lemma SentIsRecorded(p: Peer, cfg: Config)
    requires Sound(p, cfg)
    ensures p.goaway.sent <==> p.goaway.sentLast.Some?
    ensures p.goaway.sentLast.Some? ==> p.goaway.sentLast.value <= p.highRemote
  {
  }

  /** An end's step is its peer's, or nothing. */
  lemma StepActs(e: End, a: Action, cfg: Config)
    ensures Step(e, a, cfg).peer == e.peer || Step(e, a, cfg).peer == Act(e.peer, a, cfg)
            || (a.Taken? && e.inFlight.Some? && Step(e, a, cfg).peer == Act(e.peer, Taken(e.inFlight.value), cfg))
    ensures !a.Take? ==> Step(e, a, cfg).log == e.log
  {
    hide Transmit, Transmitted, OpenStream, SendData, AppReset, HandlerError, Receive, Die, Enqueue, SendGoaway,
      S.MaySend, MayOpen;
  }

  lemma LogPromised(e: End, e': End)
    requires Promised(e) && Waves(e.peer, e'.peer) && e'.log == e.log
    requires Obeys(NamesAtLeast(e'.peer.goaway.sentLast), e'.peer.writer)
    ensures Promised(e')
  {
    hide Obeys;
    forall i | 0 <= i < |e'.log|
      ensures NamesAtLeast(e'.peer.goaway.sentLast)(0, e'.log[i])
    {
      assert NamesAtLeast(e.peer.goaway.sentLast)(0, e.log[i]);
    }
  }

  lemma StepPromised(e: End, a: Action, cfg: Config)
    requires Sound(e.peer, cfg) && Promised(e)
    ensures Promised(Step(e, a, cfg))
  {
    hide Promised, Act, Step, Sound;
    var e' := Step(e, a, cfg);
    StepActs(e, a, cfg);
    PromisedObeys(e);
    if a.Take? {
      TakePromised(e, cfg);
    } else if e'.peer == Act(e.peer, a, cfg) {
      ActPromised(e.peer, a, cfg);
      LogPromised(e, e');
    } else if e'.peer == e.peer {
      StillWaves(e.peer);
      LogPromised(e, e');
    } else {
      ActPromised(e.peer, Taken(e.inFlight.value), cfg);
      LogPromised(e, e');
    }
  }

  lemma PromisedObeys(e: End)
    requires Promised(e)
    ensures Obeys(NamesAtLeast(e.peer.goaway.sentLast), e.peer.writer)
  {
  }

  lemma StillWaves(p: Peer)
    ensures Waves(p, p)
  {
  }

  lemma TakePromised(e: End, cfg: Config)
    requires Promised(e)
    ensures Promised(Step(e, Take, cfg))
  {
    hide Obeys, Transmit, Mild, Inherited;
    if e.inFlight.None? {
      var last := e.peer.goaway.sentLast;
      NamesAtLeastInherited(last, cfg.cap, cfg.codec);
      TransmitObeys(NamesAtLeast(last), e.peer, cfg);
      TransmitKeepsGoaway(e.peer, cfg);
      var (p, sent) := Transmit(e.peer, cfg);
      if sent.Some? {
        var x :| NamesAtLeast(last)(x, sent.value);
        assert NamesAtLeast(last)(0, sent.value);
      }
    }
  }

  lemma TransmitKeepsGoaway(p: Peer, cfg: Config)
    ensures Transmit(p, cfg).0.goaway == p.goaway
  {
    hide NextFrame, AfterTurn;
    var (w, turn) := NextFrame(p.writer, cfg.cap, cfg.codec);
    TurnKeepsGoaway(p, w, turn);
  }

  lemma {:induction false} RunPromised(e: End, actions: seq<Action>, cfg: Config)
    requires Sound(e.peer, cfg) && Bounded(e.peer, cfg) && Promised(e)
    ensures var end := StepAll(e, actions, cfg);
            Sound(end.peer, cfg) && Promised(end)
    decreases |actions|
  {
    hide Sound, Bounded, Promised, Step;
    if actions != [] {
      StepSound(e, actions[0], cfg);
      StepPromised(e, actions[0], cfg);
      RunPromised(Step(e, actions[0], cfg), actions[1..], cfg);
    }
  }

  /** In every run of an end against any remote, every goaway on its wire names a `last_stream` that no stream whose
      handler was started, before or after, is above. */
  lemma GoawaysCoverWhatWasStarted(dialer: bool, actions: seq<Action>, cfg: Config)
    ensures var e := StepAll(NewEnd(dialer), actions, cfg);
            forall i, id ::
                0 <= i < |e.log| && e.log[i].kind == GoawayFrame && id in e.peer.objects
                    && e.peer.objects[id].started ==>
              e.log[i].lastStream.Some? && id <= e.log[i].lastStream.value
  {
    hide Bounded;
    var e := StepAll(NewEnd(dialer), actions, cfg);
    NewPeerSound(dialer, cfg);
    RunPromised(NewEnd(dialer), actions, cfg);
    forall i, id | 0 <= i < |e.log| && e.log[i].kind == GoawayFrame && id in e.peer.objects
        && e.peer.objects[id].started
      ensures e.log[i].lastStream.Some? && id <= e.log[i].lastStream.value
    {
      assert NamesAtLeast(e.peer.goaway.sentLast)(0, e.log[i]);
      assert Kept(e.peer, id, e.peer.objects[id], cfg);
    }
  }

  // ------------------------------------------------------------ what a goaway ends

  /** A goaway that is read closes with REFUSED exactly the streams of this peer's own above its `last_stream`, and
      nothing goes out for them; every other stream goes on as it was. */
  lemma GoawayEnds(p: Peer, f: Frame, size: nat, cfg: Config)
    requires Sound(p, cfg) && p.isOpen && !p.failed && f.kind == GoawayFrame && size <= cfg.cap
    ensures var p' := Receive(p, f, size, cfg);
            && p'.writer == p.writer && p'.objects.Keys == p.objects.Keys
            && (forall x ::
                x in p'.live <==> x in p.live && !(IsOurs(p, x) && f.lastStream.Some? && f.lastStream.value < x))
            && (forall x :: x in p.objects ==>
                if x in p.live && x !in p'.live
                then p'.objects[x].state == S.Closed && p'.objects[x].cause == S.ByReset(REFUSED)
                else p'.objects[x] == p.objects[x])
  {
    hide S.Consistent, A.Counted, Listed;
    var heard := p.(goaway := p.goaway.(received := true, remoteLast := f.lastStream));
    forall x | x in p.live
      ensures x in p.objects && (p.objects[x].local <==> IsOurs(p, x)) && p.objects[x].state != S.Closed
    {
      assert Kept(p, x, p.objects[x], cfg);
    }
  }

  /** The remote said farewell, and no stream of this peer's own above `last` is live. */
  predicate Parting(p: Peer, last: nat) {
    p.goaway.received && forall x :: x in p.live && IsOurs(p, x) ==> x <= last
  }

  lemma ActParting(p: Peer, a: Action, last: nat, cfg: Config)
    requires Able(p, cfg) && Parting(p, last)
    ensures Able(Act(p, a, cfg), cfg) && Parting(Act(p, a, cfg), last)
    ensures forall x :: x in Act(p, a, cfg).live && IsOurs(p, x) ==> x in p.live
    ensures Act(p, a, cfg).dialer == p.dialer
  {
    hide Act, Sound, Bounded;
    var opens := ActMarks(p, a, cfg);
    SentIsRecorded(p, cfg);
    ActWaves(p, a, cfg);
  }

  lemma {:induction false} RunParting(p: Peer, actions: seq<Action>, last: nat, cfg: Config)
    requires Able(p, cfg) && Parting(p, last)
    ensures Parting(ActAll(p, actions, cfg), last) && ActAll(p, actions, cfg).dialer == p.dialer
    ensures forall x :: x in ActAll(p, actions, cfg).live && IsOurs(p, x) ==> x in p.live
    decreases |actions|
  {
    hide Act, Able, Parting;
    if actions != [] {
      ActParting(p, actions[0], last, cfg);
      RunParting(Act(p, actions[0], cfg), actions[1..], last, cfg);
    }
  }

  /** In every run, from the moment a goaway is read no stream of this peer's own is opened any more, and none above
      the goaway's `last_stream` is live. */
  lemma NoneOutlivesTheGoaway(dialer: bool, actions: seq<Action>, f: Frame, size: nat, last: nat, later: seq<Action>,
                              cfg: Config)
    requires var p := ActAll(NewPeer(dialer), actions, cfg);
             p.isOpen && !p.failed
    requires f.kind == GoawayFrame && size <= cfg.cap && f.lastStream == Some(last)
    ensures var p := ActAll(NewPeer(dialer), actions, cfg);
            var q := ActAll(Act(p, Read(f, size), cfg), later, cfg);
            forall x :: x in q.live && IsOurs(q, x) ==> x in p.live && x <= last
  {
    hide ActAll, Able, Receive;
    NewAble(dialer, cfg);
    RunAble(NewPeer(dialer), actions, cfg);
    var p := ActAll(NewPeer(dialer), actions, cfg);
    ReadGoaway(p, f, size, last, cfg);
    RunParting(Act(p, Read(f, size), cfg), later, last, cfg);
  }

  lemma ReadGoaway(p: Peer, f: Frame, size: nat, last: nat, cfg: Config)
    requires Able(p, cfg) && p.isOpen && !p.failed
    requires f.kind == GoawayFrame && size <= cfg.cap && f.lastStream == Some(last)
    ensures var q := Act(p, Read(f, size), cfg);
            && Able(q, cfg) && Parting(q, last) && q.dialer == p.dialer
            && forall x :: x in q.live ==> x in p.live
  {
    hide Sound, Bounded;
    var opens := ActMarks(p, Read(f, size), cfg);
    GoawayEnds(p, f, size, cfg);
  }
}
