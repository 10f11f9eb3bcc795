/** What a message about one stream leaves alone: every other stream, its lane, the connection's lane and the
    connection itself, whatever the remote sends. */
module Locality {
  import opened Frames
  import opened WriterModel
  import opened PeerModel
  import opened PeerInvariant
  import opened Strands
  import A = Assembly
  import S = StreamModel

  /** Of all streams and lanes only `id` may have changed, and nothing of the connection. */
  ghost predicate Only(p: Peer, p': Peer, id: nat) {
    Became(p, p', id, At(p', id))
  }

  lemma OnlyTrans(p: Peer, q: Peer, r: Peer, id: nat)
    requires Only(p, q, id) && Only(q, r, id)
    ensures Only(p, r, id)
  {
    hide At;
  }

  lemma OnlySame(p: Peer, p': Peer, id: nat)
    requires p'.objects == p.objects && p'.writer == p.writer && p'.cut == p.cut && SameRest(p, p')
    ensures Only(p, p', id)
  {
    hide LaneAt;
  }

  lemma BecameOnly(p: Peer, p': Peer, id: nat, c: Cell)
    requires Became(p, p', id, c)
    ensures Only(p, p', id)
  {
    hide At;
  }

  lemma PutOnly(p: Peer, id: nat, s: S.Stream)
    ensures Only(p, Put(p, id, s), id)
  {
    hide At, LaneAt;
    PutAt(p, id, s);
    BecameOnly(p, Put(p, id, s), id, At(p, id).(stream := Some(s)));
  }

  lemma QueueOnly(p: Peer, f: Frame)
    ensures Only(p, Queue(p, f), LaneOf(f))
  {
    hide Enqueue, Became, At;
    var c := At(p, LaneOf(f));
    QueueAt(p, f);
    BecameOnly(p, Queue(p, f), LaneOf(f), c.(lane := Tail(c.lane, f)));
  }

  lemma FailOnly(p: Peer, id: nat, code: int)
    requires id in p.objects
    ensures Only(p, FailStream(p, id, code), id)
  {
    hide Became, FailStream, At;
    AtHas(p, id);
    FailStreamAt(p, id, code);
    BecameOnly(p, FailStream(p, id, code), id, Fallen(At(p, id), code));
  }

  lemma AtHas(p: Peer, id: nat)
    requires id in p.objects
    ensures At(p, id).stream == Some(p.objects[id])
  {
  }

  lemma ResetOnly(p: Peer, id: nat, code: int)
    requires id in p.objects
    ensures Only(p, ResetStream(p, id, code), id)
  {
    hide Became, ResetStream, At;
    AtHas(p, id);
    ResetStreamAt(p, id, code);
    BecameOnly(p, ResetStream(p, id, code), id, Cleared(At(p, id), id, code));
  }

  lemma DiscardOnly(p: Peer, id: nat)
    ensures Only(p, p.(writer := Discard(p.writer, id)), id)
  {
    hide Became, Discard, At;
    var c := At(p, id);
    DiscardedAt(p, id);
    BecameOnly(p, p.(writer := Discard(p.writer, id)), id, c.(lane := DiscardExceptUnsentOpen(c.lane)));
  }

  lemma PutHas(p: Peer, id: nat, s: S.Stream)
    ensures id in Put(p, id, s).objects
  {
  }

  lemma AbsorbOnly(p: Peer, id: nat, f: Frame, cfg: Config)
    requires id in p.objects && f.fragment.Some?
    ensures Only(p, Absorb(p, id, f, cfg).0, id)
  {
    hide Only, A.Feed, ResetStream, Put;
    var s := p.objects[id];
    var dropped := s.(partial := A.NOTHING);
    var fed := s.(partial := A.Feed(s.partial, f, cfg.codec).0);
    PutOnly(p, id, dropped);
    PutOnly(p, id, fed);
    PutHas(p, id, dropped);
    PutHas(p, id, fed);
    ResetOnly(Put(p, id, dropped), id, PAYLOAD_TOO_LARGE);
    ResetOnly(Put(p, id, fed), id, PROTOCOL_ERROR);
    OnlyTrans(p, Put(p, id, dropped), ResetStream(Put(p, id, dropped), id, PAYLOAD_TOO_LARGE), id);
    OnlyTrans(p, Put(p, id, fed), ResetStream(Put(p, id, fed), id, PROTOCOL_ERROR), id);
  }

  lemma StartOnly(p: Peer, id: nat)
    requires id in p.objects
    ensures Only(p, StartHandler(p, id), id)
  {
    hide Only, FailStream, QueueReset, Put;
    var q := QueueReset(p, id, REFUSED);
    QueueResetOnly(p, id, REFUSED);
    FailOnly(q, id, REFUSED);
    OnlyTrans(p, q, FailStream(q, id, REFUSED), id);
    PutOnly(p, id, p.objects[id].(started := true));
  }

  lemma QueueResetOnly(p: Peer, id: nat, code: int)
    ensures Only(p, QueueReset(p, id, code), id) && QueueReset(p, id, code).objects == p.objects
    ensures LaneAt(QueueReset(p, id, code).writer, id) == Tail(LaneAt(p.writer, id), ResetWith(id, code, None))
  {
    hide Only, Enqueue, LaneAt;
    QueueOnly(p, ResetWith(id, code, None));
    EnqueueAt(p.writer, ResetWith(id, code, None), id);
  }

  lemma FeedOpeningOnly(p: Peer, id: nat, f: Frame, later: bool, cfg: Config)
    requires id in p.objects && f.fragment.Some?
    ensures Only(p, FeedOpening(p, id, f, later, cfg), id)
  {
    hide Only, Absorb, StartHandler, Put;
    AbsorbOnly(p, id, f, cfg);
    var (absorbed, payload) := Absorb(p, id, f, cfg);
    if payload.Some? && id in absorbed.objects {
      var done := Completed(absorbed.objects[id], payload, later && f.end);
      var q := Put(absorbed, id, done);
      PutOnly(absorbed, id, done);
      PutHas(absorbed, id, done);
      StartOnly(q, id);
      OnlyTrans(p, absorbed, q, id);
      OnlyTrans(p, q, StartHandler(q, id), id);
    }
  }

  lemma CreateOnly(p: Peer, s: S.Stream)
    ensures Only(p, Create(p, s), s.id) && s.id in Create(p, s).objects
  {
    hide LaneAt;
  }

  lemma CutOnly(p: Peer, id: nat, code: int, cutShort: bool)
    ensures Only(p, QueueReset(p, id, code).(cut := if cutShort then p.cut + {id} else p.cut), id)
  {
    hide Only, Enqueue;
    var q := QueueReset(p, id, code);
    QueueResetOnly(p, id, code);
    MarkedOnly(q, id, cutShort);
    OnlyTrans(p, q, q.(cut := if cutShort then q.cut + {id} else q.cut), id);
  }

  lemma MarkedOnly(p: Peer, id: nat, cutShort: bool)
    ensures Only(p, p.(cut := if cutShort then p.cut + {id} else p.cut), id)
  {
    hide LaneAt;
  }

  /** An `open` that begins a stream. */
  lemma AdmittedOnly(p: Peer, f: Frame, cfg: Config)
    requires f.stream.Some? && Admissible(p, f.stream.value) && !ContinuesOpening(p, f)
    ensures Only(p.(highRemote := f.stream.value), OnOpen(p, f, cfg), f.stream.value)
  {
    hide Only, FeedOpening, StartHandler, QueueReset, RemoteLive, Create;
    var id := f.stream.value;
    var q := p.(highRemote := id);
    var s := S.NewStream(id, false, if f.end then S.HalfClosedRemote else S.Open, f.headers, None);
    var opening := s.(opening := true);
    var whole := s.(payload := Some(if f.payload.Some? then f.payload.value else Null));
    CutOnly(q, id, REFUSED, f.fragment.Some? && f.more);
    CreateOnly(q, opening);
    CreateOnly(q, whole);
    if f.fragment.Some? {
      FeedOpeningOnly(Create(q, opening), id, f, false, cfg);
      OnlyTrans(q, Create(q, opening), FeedOpening(Create(q, opening), id, f, false, cfg), id);
    }
    StartOnly(Create(q, whole), id);
    OnlyTrans(q, Create(q, whole), StartHandler(Create(q, whole), id), id);
  }

  lemma OnDataOnly(p: Peer, id: nat, f: Frame, cfg: Config)
    requires id in p.objects
    ensures Only(p, OnData(p, id, f, cfg), id)
  {
    hide Only, ResetStream, Absorb, Put, S.RemoteEnd, S.AcceptPayload;
    var noted := S.NoteRemoteFrame(p.objects[id], f.headers).0;
    var q := Put(p, id, noted);
    PutOnly(p, id, noted);
    PutHas(p, id, noted);
    ResetOnly(p, id, PROTOCOL_ERROR);
    ResetOnly(q, id, PROTOCOL_ERROR);
    OnlyTrans(p, q, ResetStream(q, id, PROTOCOL_ERROR), id);
    DeliverOnly(q, id, f.payload, f);
    OnlyTrans(p, q, Deliver(q, id, f.payload, f), id);
    if f.fragment.Some? {
      AbsorbOnly(q, id, f, cfg);
      var (absorbed, payload) := Absorb(q, id, f, cfg);
      OnlyTrans(p, q, absorbed, id);
      if payload.Some? && id in absorbed.objects {
        DeliverOnly(absorbed, id, payload, f);
        OnlyTrans(p, absorbed, Deliver(absorbed, id, payload, f), id);
      }
    }
  }

  lemma DeliverOnly(p: Peer, id: nat, payload: Option<Value>, f: Frame)
    requires id in p.objects
    ensures Only(p, Deliver(p, id, payload, f), id)
  {
    hide Only, Put;
    var s := p.objects[id];
    var accepted := if payload.Some? then S.AcceptPayload(s, payload.value) else s;
    PutOnly(p, id, if f.end then S.RemoteEnd(accepted, f.trailers) else accepted);
  }

  lemma OnStreamFrameOnly(p: Peer, f: Frame, cfg: Config)
    requires f.stream.Some? && !OnStreamFrame(p, f, cfg).failed
    ensures Only(p, OnStreamFrame(p, f, cfg), f.stream.value)
  {
    hide Only, OnData, FailStream, Discard;
    var id := f.stream.value;
    OnlySame(p, p.(ignoredLate := p.ignoredLate + 1), id);
    if id in p.live && id in p.objects {
      var q := p.(writer := Discard(p.writer, id));
      var code := if f.code.Some? then f.code.value else 0;
      DiscardOnly(p, id);
      FailOnly(q, id, code);
      OnlyTrans(p, q, FailStream(q, id, code), id);
      OnDataOnly(p, id, f, cfg);
    }
  }

  /** The remote's mark after a message that does not fail the connection: the id of an `open` that begins a stream. */
  function MarkAfter(p: Peer, f: Frame): nat {
    if f.kind == OpenFrame && f.stream.Some? && !ContinuesOpening(p, f) && Admissible(p, f.stream.value)
    then f.stream.value else p.highRemote
  }

  lemma OverCapOnly(p: Peer, f: Frame, cfg: Config)
    requires f.stream.Some? && !OverCap(p, f, cfg).failed && !p.failed
    ensures Only(p.(highRemote := MarkAfter(p, f)), OverCap(p, f, cfg), f.stream.value)
  {
    hide Only, OnStreamFrame, ResetStream, QueueReset, ContinuesOpening, Admissible;
    var id := f.stream.value;
    assert p.(highRemote := p.highRemote) == p;
    CutOnly(p.(highRemote := id), id, PAYLOAD_TOO_LARGE, f.fragment.Some? && f.more);
    QueueResetOnly(p, id, PAYLOAD_TOO_LARGE);
    if f.kind == DataFrame || f.kind == ResetFrame {
      if id !in p.live || id !in p.objects { OnStreamFrameOnly(p, f, cfg); }
    }
    if id in p.objects { ResetOnly(p, id, PAYLOAD_TOO_LARGE); }
  }

  lemma OnOpenOnly(p: Peer, f: Frame, cfg: Config)
    requires f.kind == OpenFrame && f.stream.Some? && !OnOpen(p, f, cfg).failed && !p.failed
    ensures Only(p.(highRemote := MarkAfter(p, f)), OnOpen(p, f, cfg), f.stream.value)
  {
    hide Only, FeedOpening, StartHandler, QueueReset, RemoteLive, Admissible;
    assert p.(highRemote := p.highRemote) == p;
    if ContinuesOpening(p, f) {
      FeedOpeningOnly(p, f.stream.value, f, true, cfg);
    } else if Admissible(p, f.stream.value) {
      AdmittedOnly(p, f, cfg);
    }
  }

  /** Whatever a remote sends on one stream, in whatever order and of whatever size: while the connection goes on,
      every other stream is as it was, its lane and its place too, and nothing of the connection changes but the mark
      that a new `open` moves. */
  lemma OneStreamAtATime(p: Peer, f: Frame, size: nat, x: nat, cfg: Config)
    requires f.stream.Some? && x != f.stream.value
    requires f.kind == OpenFrame || f.kind == DataFrame || f.kind == ResetFrame
    requires !p.failed && !Receive(p, f, size, cfg).failed
    ensures var p' := Receive(p, f, size, cfg);
            At(p', x) == At(p, x) && SameRest(p.(highRemote := p'.highRemote), p')
  {
    hide OnOpen, OnStreamFrame, OverCap, At;
    if p.isOpen {
      if cfg.cap < size {
        OverCapOnly(p, f, cfg);
        MarkElsewhere(p, MarkAfter(p, f), x);
      } else if f.kind == OpenFrame {
        OnOpenOnly(p, f, cfg);
        MarkElsewhere(p, MarkAfter(p, f), x);
      } else {
        OnStreamFrameOnly(p, f, cfg);
      }
    }
  }

  lemma MarkElsewhere(p: Peer, mark: nat, x: nat)
    ensures At(p.(highRemote := mark), x) == At(p, x)
  {
  }
}
