/** The compact state of a peer, two high-water marks and the live map, against the full table it stands
    for: one state per stream id, in which opening an id closes every lower id of the same opener that is
    still idle (compare section 5.1.1 of RFC 9113). */
module PeerTable {
  import opened Frames
  import opened WriterModel
  import opened PeerModel
  import opened PeerInvariant
  import S = StreamModel
  import A = Assembly

  // ------------------------------------------------------------ the table

  datatype Status = Idle | Live | Closed

  datatype Mark = Opened(id: nat) | Ended(ids: set<nat>)

  /** The state of stream `x` after everything that ever happened to any stream on this socket. */
  function StatusOf(history: seq<Mark>, x: nat): Status {
    if history == [] then Idle else After(StatusOf(history[..|history| - 1], x), history[|history| - 1], x)
  }

  function After(was: Status, mark: Mark, x: nat): Status {
    match mark
    case Opened(id) =>
      if x == id then Live
      else if x % 2 == id % 2 && x < id && was == Idle then Closed
      else was
    case Ended(ids) => if x in ids then Closed else was
  }

  lemma StatusSnoc(history: seq<Mark>, mark: Mark, x: nat)
    ensures StatusOf(history + [mark], x) == After(StatusOf(history, x), mark, x)
  {
    assert (history + [mark])[..|history|] == history;
  }

  // ------------------------------------------------------------ verdicts

  datatype Verdict = Fatal | Ignore | Deliver

  /** What the table says of an inbound frame.  `opening` is the one live stream state that matters: the
      stream's opening payload is incomplete. */
  function TableVerdict(dialer: bool, history: seq<Mark>, opening: bool, frame: Frame): Verdict {
    if frame.stream.None? then Fatal
    else
      var x := frame.stream.value;
      var status := StatusOf(history, x);
      if frame.kind == OpenFrame then
        if status == Live && opening && frame.fragment.Some? then Deliver
        else if status == Idle && x != 0 && x % 2 != OwnParity(dialer) then Deliver
        else Fatal
      else
        match status
        case Idle => Fatal
        case Closed => Ignore
        case Live => Deliver
  }

  /** What the peer decides from its two marks and its live map. */
  function CompactVerdict(p: Peer, frame: Frame): Verdict {
    if frame.stream.None? then Fatal
    else if frame.kind == OpenFrame then
      if ContinuesOpening(p, frame) || Admissible(p, frame.stream.value) then Deliver else Fatal
    else
      var x := frame.stream.value;
      if x in p.live && x in p.objects then Deliver
      else if (if IsOurs(p, x) then p.highLocal else p.highRemote) < x then Fatal
      else Ignore
  }

  predicate StreamKind(frame: Frame) {
    frame.kind == OpenFrame || frame.kind == DataFrame || frame.kind == ResetFrame
  }

  // ------------------------------------------------------------ the table of a run

  /** The id an action opens, by this peer's own allocation or because the table admits the remote's. */
  function OpensId(p: Peer, history: seq<Mark>, a: Action): Option<nat> {
    match a
    case Open(_, _, _) => if MayOpen(p) then Some(p.nextId) else None
    case Read(frame, _) =>
      if p.isOpen && !p.failed && frame.kind == OpenFrame && frame.stream.Some? && !ContinuesOpening(p, frame)
         && TableVerdict(p.dialer, history, false, frame) == Deliver
      then frame.stream
      else None
    case _ => None
  }

  /** The history grows by what the action opened, and then by what it ended. */
  function Grown(p: Peer, history: seq<Mark>, a: Action, p': Peer): seq<Mark> {
    match OpensId(p, history, a)
    case Some(id) => history + [Opened(id)] + [Ended(p.live + {id} - p'.live)]
    case None => history + [Ended(p.live - p'.live)]
  }

  function HistoryOf(p: Peer, history: seq<Mark>, actions: seq<Action>, cfg: Config): seq<Mark>
    decreases |actions|
  {
    if actions == [] then history
    else
      var p' := Act(p, actions[0], cfg);
      HistoryOf(p', Grown(p, history, actions[0], p'), actions[1..], cfg)
  }

  // ------------------------------------------------------------ refinement

  function MarkFor(p: Peer, x: nat): nat {
    if IsOurs(p, x) then p.highLocal else p.highRemote
  }

  /** The two marks and the live map say of every id what the table says. */
  ghost predicate Refines(p: Peer, history: seq<Mark>) {
    && (forall x: nat :: 0 < x ==>
          StatusOf(history, x) == if x in p.live then Live else if MarkFor(p, x) < x then Idle else Closed)
    && StatusOf(history, 0) == if 0 < MarkFor(p, 0) then Closed else Idle
  }

  /** An id above its mark is not live, and the marks are of their own parity. */
  ghost predicate Topped(p: Peer) {
    && (forall x :: x in p.live ==> 0 < x <= MarkFor(p, x))
    && p.highLocal < p.nextId && 0 < p.nextId && p.nextId % 2 == OwnParity(p.dialer)
  }

  lemma SoundIsTopped(p: Peer, cfg: Config)
    requires Sound(p, cfg) && 0 < p.nextId
    ensures Topped(p)
  {
    hide Listed;
    forall x | x in p.live
      ensures 0 < x <= MarkFor(p, x)
    {
      assert Kept(p, x, p.objects[x], cfg);
    }
  }

  predicate OpeningAt(p: Peer, frame: Frame) {
    frame.stream.Some? && frame.stream.value in p.objects && p.objects[frame.stream.value].opening
  }

  ghost predicate Agree(p: Peer, history: seq<Mark>, frame: Frame) {
    CompactVerdict(p, frame) == TableVerdict(p.dialer, history, OpeningAt(p, frame), frame)
  }

  /** Stream 0 is no one's to open.  The marks count it as even: below its mark once the side with even ids has
      opened a stream, and from the start not above it. */
  predicate BeyondZero(p: Peer, frame: Frame) {
    frame.stream != Some(0) || frame.kind == OpenFrame || 0 < MarkFor(p, 0)
  }

  /** The verdicts agree on every frame but one: `data` or `reset` on stream 0 while no even id has been opened,
      which the marks let the peer ignore and the table does not know. */
  lemma VerdictsAgreeIff(p: Peer, history: seq<Mark>, frame: Frame, cfg: Config)
    requires Sound(p, cfg) && Refines(p, history) && StreamKind(frame)
    ensures Agree(p, history, frame) <==> BeyondZero(p, frame)
  {
    hide Listed, StatusOf;
    if frame.stream.Some? {
      var x := frame.stream.value;
      assert x in p.live ==> x in p.objects && Kept(p, x, p.objects[x], cfg);
    }
  }

  /** The excluded frame, as the first one read. */
  lemma ZeroIsIgnored(dialer: bool)
    ensures CompactVerdict(NewPeer(dialer), Bare(DataFrame, Some(0))) == Ignore
    ensures TableVerdict(dialer, [], false, Bare(DataFrame, Some(0))) == Fatal
  {
    assert StatusOf([], 0) == Idle;
  }

  /** How the marks and the live map move: with an opened id, its mark becomes it and it may become live;
      otherwise no mark moves and no stream becomes live. */
  ghost predicate MarksMove(p: Peer, opens: Option<nat>, p': Peer) {
    && p'.dialer == p.dialer
    && match opens
       case None => p'.highLocal == p.highLocal && p'.highRemote == p.highRemote && p'.live <= p.live
       case Some(id) =>
         && p'.live <= p.live + {id}
         && (if IsOurs(p, id) then p.highLocal < id == p'.highLocal && p'.highRemote == p.highRemote
             else p.highRemote < id == p'.highRemote && p'.highLocal == p.highLocal)
  }

  lemma RefinesAfter(p: Peer, history: seq<Mark>, a: Action, p': Peer)
    requires Refines(p, history) && Topped(p) && MarksMove(p, OpensId(p, history, a), p')
    ensures Refines(p', Grown(p, history, a, p'))
  {
    hide StatusOf, OpensId, MayOpen;
    ZeroAfter(p, history, a, p');
    forall x: nat | 0 < x
      ensures StatusOf(Grown(p, history, a, p'), x)
           == if x in p'.live then Live else if MarkFor(p', x) < x then Idle else Closed
    {
      match OpensId(p, history, a)
      case Some(id) =>
        StatusSnoc(history, Opened(id), x);
        StatusSnoc(history + [Opened(id)], Ended(p.live + {id} - p'.live), x);
      case None =>
        StatusSnoc(history, Ended(p.live - p'.live), x);
    }
  }

  lemma ZeroAfter(p: Peer, history: seq<Mark>, a: Action, p': Peer)
    requires Refines(p, history) && Topped(p) && MarksMove(p, OpensId(p, history, a), p')
    ensures StatusOf(Grown(p, history, a, p'), 0) == if 0 < MarkFor(p', 0) then Closed else Idle
  {
    hide StatusOf, OpensId, MayOpen;
    match OpensId(p, history, a)
    case Some(id) =>
      StatusSnoc(history, Opened(id), 0);
      StatusSnoc(history + [Opened(id)], Ended(p.live + {id} - p'.live), 0);
    case None =>
      StatusSnoc(history, Ended(p.live - p'.live), 0);
  }

  // ------------------------------------------------------------ how each action moves the marks

  /** No mark moves, and no stream becomes live. */
  predicate Still(p: Peer, p': Peer) {
    p'.dialer == p.dialer && p'.highLocal == p.highLocal && p'.highRemote == p.highRemote && p'.live <= p.live
        && p'.nextId == p.nextId
  }

  /** Nor does the connection fail. */
  predicate Calm(p: Peer, p': Peer) {
    Still(p, p') && p'.failed == p.failed
  }

  lemma SmallStepsCalm(p: Peer, id: nat, s: S.Stream, frame: Frame, code: int)
    ensures Calm(p, Put(p, id, s)) && id in Put(p, id, s).objects
    ensures Calm(p, Queue(p, frame)) && Calm(p, QueueReset(p, id, code)) && Calm(p, EnqueueReset(p, id, code))
    ensures EnqueueReset(p, id, code).objects == p.objects && QueueReset(p, id, code).objects == p.objects
    ensures id in p.objects ==> Calm(p, FailStream(p, id, code))
  {
    hide Enqueue, Discard, S.Fail;
  }

  lemma ResetCalm(p: Peer, id: nat, code: int)
    requires id in p.objects
    ensures Calm(p, ResetStream(p, id, code))
  {
    hide EnqueueReset, FailStream;
    SmallStepsCalm(p, id, p.objects[id], Bare(PingFrame, None), code);
    SmallStepsCalm(EnqueueReset(p, id, code), id, p.objects[id], Bare(PingFrame, None), code);
  }

  lemma AbsorbCalm(p: Peer, id: nat, frame: Frame, cfg: Config)
    requires id in p.objects && frame.fragment.Some?
    ensures Calm(p, Absorb(p, id, frame, cfg).0)
  {
    hide Put, ResetStream, A.Feed, WithinPayloadCap;
    var s := p.objects[id];
    var dropped, fed := s.(partial := A.NOTHING), s.(partial := A.Feed(s.partial, frame, cfg.codec).0);
    SmallStepsCalm(p, id, dropped, frame, 0);
    SmallStepsCalm(p, id, fed, frame, 0);
    ResetCalm(Put(p, id, dropped), id, PAYLOAD_TOO_LARGE);
    ResetCalm(Put(p, id, fed), id, PROTOCOL_ERROR);
  }

  lemma StartCalm(p: Peer, id: nat)
    requires id in p.objects
    ensures Calm(p, StartHandler(p, id))
  {
    hide Put, FailStream, QueueReset;
    SmallStepsCalm(p, id, p.objects[id].(started := true), Bare(PingFrame, None), REFUSED);
    SmallStepsCalm(QueueReset(p, id, REFUSED), id, p.objects[id], Bare(PingFrame, None), REFUSED);
  }

  lemma FeedCalm(p: Peer, id: nat, frame: Frame, later: bool, cfg: Config)
    requires id in p.objects && frame.fragment.Some?
    ensures Calm(p, FeedOpening(p, id, frame, later, cfg))
  {
    hide Absorb, StartHandler, Put, Completed;
    AbsorbCalm(p, id, frame, cfg);
    var (absorbed, payload) := Absorb(p, id, frame, cfg);
    if payload.Some? && id in absorbed.objects {
      var s := Completed(absorbed.objects[id], payload, later && frame.end);
      SmallStepsCalm(absorbed, id, s, frame, 0);
      StartCalm(Put(absorbed, id, s), id);
    }
  }

  lemma DeliverCalm(p: Peer, id: nat, payload: Option<Value>, frame: Frame)
    requires id in p.objects
    ensures Calm(p, PeerModel.Deliver(p, id, payload, frame))
  {
    hide Put;
    var s := p.objects[id];
    var accepted := if payload.Some? then S.AcceptPayload(s, payload.value) else s;
    SmallStepsCalm(p, id, if frame.end then S.RemoteEnd(accepted, frame.trailers) else accepted, frame, 0);
  }

  lemma OnDataCalm(p: Peer, id: nat, frame: Frame, cfg: Config)
    requires id in p.objects
    ensures Calm(p, OnData(p, id, frame, cfg))
  {
    hide Put, ResetStream, Absorb, PeerModel.Deliver, S.NoteRemoteFrame;
    var noted := S.NoteRemoteFrame(p.objects[id], frame.headers).0;
    var q := Put(p, id, noted);
    SmallStepsCalm(p, id, noted, frame, 0);
    ResetCalm(p, id, PROTOCOL_ERROR);
    ResetCalm(q, id, PROTOCOL_ERROR);
    DeliverCalm(q, id, frame.payload, frame);
    if frame.fragment.Some? {
      AbsorbCalm(q, id, frame, cfg);
      var (absorbed, payload) := Absorb(q, id, frame, cfg);
      if id in absorbed.objects {
        DeliverCalm(absorbed, id, payload, frame);
      }
    }
  }

  lemma StreamFrameCalm(p: Peer, frame: Frame, cfg: Config)
    ensures Still(p, OnStreamFrame(p, frame, cfg)) && Still(p, FailConnection(p)) && FailConnection(p).failed
    ensures frame.kind != OpenFrame && CompactVerdict(p, frame) != Fatal ==> Calm(p, OnStreamFrame(p, frame, cfg))
    ensures frame.kind != OpenFrame && CompactVerdict(p, frame) == Fatal
      ==> OnStreamFrame(p, frame, cfg) == FailConnection(p)
    ensures frame.kind != OpenFrame && CompactVerdict(p, frame) == Ignore ==>
              OnStreamFrame(p, frame, cfg) == p.(ignoredLate := p.ignoredLate + 1)
  {
    hide Enqueue, Discard, FailStream, OnData, Still;
    FailStill(p);
    IgnoredCalm(p);
    if frame.stream.Some? && frame.stream.value in p.live && frame.stream.value in p.objects {
      var id := frame.stream.value;
      OnDataCalm(p, id, frame, cfg);
      var code := if frame.code.Some? then frame.code.value else 0;
      ResetReadCalm(p, id, code);
    }
  }

  lemma ResetReadCalm(p: Peer, id: nat, code: int)
    requires id in p.objects
    ensures Calm(p, FailStream(p.(writer := Discard(p.writer, id)), id, code))
  {
    hide Discard, FailStream;
    var q := p.(writer := Discard(p.writer, id));
    SmallStepsCalm(q, id, p.objects[id], Bare(PingFrame, None), code);
  }

  lemma FailStill(p: Peer)
    ensures Still(p, FailConnection(p)) && FailConnection(p).failed
  {
    hide Enqueue;
  }

  lemma IgnoredCalm(p: Peer)
    ensures Calm(p, p.(ignoredLate := p.ignoredLate + 1))
  {
  }

  lemma GoawayStill(p: Peer, frame: Frame)
    ensures Still(p, OnGoaway(p, frame))
  {
    hide FailAll;
  }

  /** The verdict is what the peer acts on. */
  lemma VerdictDecides(p: Peer, frame: Frame, cfg: Config)
    requires StreamKind(frame) && !p.failed
    ensures CompactVerdict(p, frame) == Fatal <==> Dispatch(p, frame, cfg).failed
    ensures CompactVerdict(p, frame) == Fatal ==> Dispatch(p, frame, cfg) == FailConnection(p)
    ensures CompactVerdict(p, frame) == Ignore ==> Dispatch(p, frame, cfg) == p.(ignoredLate := p.ignoredLate + 1)
  {
    hide FailConnection, OnStreamFrame, OnOpen;
    StreamFrameCalm(p, frame, cfg);
    if frame.kind == OpenFrame {
      OnOpenMoves(p, frame, cfg);
    }
  }

  lemma OwnStill(p: Peer, a: Action, cfg: Config)
    requires !a.Read? && !a.Open?
    ensures Still(p, Act(p, a, cfg))
  {
    hide Enqueue, NextFrame, Advance, FailAll, DiscardAll, SendData, AppReset, HandlerError, FailLane;
    match a
    case Send(id, data, leading, last, trailers) => SendStill(p, id, data, leading, last, trailers);
    case Reset(id, code) => AppResetStill(p, id, code);
    case HandlerRaises(id, error) => HandlerStill(p, id, error);
    case Take =>
      var (w, turn) := NextFrame(p.writer, cfg.cap, cfg.codec);
      FailLaneStill(p.(writer := w), if turn.Failed? then turn.id else 0, turn.Failed? && turn.unsentOpen);
    case Taken(lane) =>
      var (w, turn) := Advance(p.writer, lane, cfg.cap, cfg.codec);
      FailLaneStill(p.(writer := w), if turn.Failed? then turn.id else 0, turn.Failed? && turn.unsentOpen);
    case _ =>
  }

  lemma SendStill(p: Peer, id: nat, payload: Option<Value>, headers: Option<Fields>, end: bool,
                  trailers: Option<Fields>)
    ensures Still(p, SendData(p, id, payload, headers, end, trailers))
  {
    hide Enqueue, Put, S.NoteSent, S.LocalEnd, S.MaySend;
    if id in p.objects {
      var noted := S.NoteSent(p.objects[id], headers);
      var f := Bare(DataFrame, Some(id)).(payload := payload, headers := headers, end := end, trailers := trailers);
      SmallStepsCalm(p, id, p.objects[id], f, 0);
      SmallStepsCalm(Queue(p, f), id, if end then S.LocalEnd(noted) else noted, f, 0);
    }
  }

  lemma AppResetStill(p: Peer, id: nat, code: int)
    ensures Still(p, AppReset(p, id, code))
  {
    hide EnqueueReset, FailStream;
    if id in p.objects {
      SmallStepsCalm(p, id, p.objects[id], Bare(PingFrame, None), code);
      SmallStepsCalm(EnqueueReset(p, id, code), id, p.objects[id], Bare(PingFrame, None), code);
    }
  }

  lemma HandlerStill(p: Peer, id: nat, error: Option<Value>)
    ensures Still(p, HandlerError(p, id, error))
  {
    hide Enqueue, FailStream;
    if id in p.objects {
      var f := ResetWith(id, APPLICATION_ERROR, error);
      SmallStepsCalm(p, id, p.objects[id], f, APPLICATION_ERROR);
      SmallStepsCalm(Queue(p, f), id, p.objects[id], f, APPLICATION_ERROR);
    }
  }

  lemma FailLaneStill(p: Peer, id: nat, unsentOpen: bool)
    ensures Still(p, FailLane(p, id, unsentOpen))
  {
    hide QueueReset, FailStream, DiscardAll, FailAll;
    if id in p.objects {
      SmallStepsCalm(p, id, p.objects[id], Bare(PingFrame, None), INTERNAL_ERROR);
      SmallStepsCalm(QueueReset(p, id, INTERNAL_ERROR), id, p.objects[id], Bare(PingFrame, None), INTERNAL_ERROR);
    }
  }

  lemma OnOpenMoves(p: Peer, frame: Frame, cfg: Config)
    requires frame.kind == OpenFrame
    ensures var p' := OnOpen(p, frame, cfg);
            var opens := frame.stream.Some? && !ContinuesOpening(p, frame) && Admissible(p, frame.stream.value);
            && MarksMove(p, if opens then frame.stream else None, p') && p'.nextId == p.nextId
            && (if CompactVerdict(p, frame) == Fatal then p' == FailConnection(p) else p'.failed == p.failed)
  {
    hide FeedOpening, StartHandler, FailConnection, RemoteLive, Still, QueueReset, MarksMove, OnStreamFrame, Create;
    StreamFrameCalm(p, frame, cfg);
    if frame.stream.Some? {
      var id := frame.stream.value;
      if ContinuesOpening(p, frame) {
        FeedCalm(p, id, frame, true, cfg);
        StillMoves(p, FeedOpening(p, id, frame, true, cfg));
      } else if !Admissible(p, id) {
        StillMoves(p, FailConnection(p));
      } else if |RemoteLive(p)| < cfg.maxStreams {
        CreateMoves(p, id, frame, cfg);
      } else {
        RefusedMoves(p, id, REFUSED, if frame.fragment.Some? && frame.more then p.cut + {id} else p.cut);
      }
    } else {
      StillMoves(p, FailConnection(p));
    }
  }

  lemma CreateMoves(p: Peer, id: nat, frame: Frame, cfg: Config)
    requires frame.kind == OpenFrame && frame.stream == Some(id)
    requires !ContinuesOpening(p, frame) && Admissible(p, id) && |RemoteLive(p)| < cfg.maxStreams
    ensures var p' := OnOpen(p, frame, cfg);
            MarksMove(p, Some(id), p') && p'.nextId == p.nextId && p'.failed == p.failed
  {
    hide FeedOpening, StartHandler, RemoteLive, Still, MarksMove;
    var admitted := p.(highRemote := id);
    var s := S.NewStream(id, false, if frame.end then S.HalfClosedRemote else S.Open, frame.headers, None);
    if frame.fragment.Some? {
      var q := Create(admitted, s.(opening := true));
      FeedCalm(q, id, frame, false, cfg);
      CreatedMoves(p, id, q, FeedOpening(q, id, frame, false, cfg));
    } else {
      var q := Create(admitted, s.(payload := Some(if frame.payload.Some? then frame.payload.value else Null)));
      StartCalm(q, id);
      CreatedMoves(p, id, q, StartHandler(q, id));
    }
  }

  lemma RefusedMoves(p: Peer, id: nat, code: int, cut: set<nat>)
    requires Admissible(p, id)
    ensures var p' := QueueReset(p.(highRemote := id), id, code).(cut := cut);
            MarksMove(p, Some(id), p') && p'.nextId == p.nextId && p'.failed == p.failed
  {
    hide Enqueue;
  }

  lemma StillMoves(p: Peer, p': Peer)
    requires Still(p, p')
    ensures MarksMove(p, None, p') && p'.nextId == p.nextId
  {
  }

  lemma CreatedMoves(p: Peer, id: nat, q: Peer, p': Peer)
    requires Still(q, p') && Admissible(p, id)
    requires q.dialer == p.dialer && q.highLocal == p.highLocal && q.highRemote == id && q.live == p.live + {id}
      && q.nextId == p.nextId
    ensures MarksMove(p, Some(id), p') && p'.nextId == p.nextId
  {
  }

  lemma OverCapMoves(p: Peer, frame: Frame, cfg: Config)
    ensures var p' := OverCap(p, frame, cfg);
            var opens := frame.kind == OpenFrame && frame.stream.Some? && !ContinuesOpening(p, frame)
                && Admissible(p, frame.stream.value);
            MarksMove(p, if opens then frame.stream else None, p') && p'.nextId == p.nextId
  {
    hide ResetStream, QueueReset, OnStreamFrame, FailConnection, MarksMove;
    StreamFrameCalm(p, frame, cfg);
    StillMoves(p, FailConnection(p));
    StillMoves(p, OnStreamFrame(p, frame, cfg));
    if frame.stream.Some? {
      var id := frame.stream.value;
      if id in p.objects {
        ResetCalm(p, id, PAYLOAD_TOO_LARGE);
        StillMoves(p, ResetStream(p, id, PAYLOAD_TOO_LARGE));
      }
      if Admissible(p, id) {
        RefusedMoves(p, id, PAYLOAD_TOO_LARGE, if frame.fragment.Some? && frame.more then p.cut + {id} else p.cut);
      }
      QueueResetMoves(p, id);
    }
  }

  lemma QueueResetMoves(p: Peer, id: nat)
    ensures var p' := QueueReset(p, id, PAYLOAD_TOO_LARGE);
            MarksMove(p, None, p') && p'.nextId == p.nextId
  {
    hide Enqueue;
  }

  /** An inbound `open` is admitted by the marks exactly when the table admits it. */
  lemma AdmissionAgrees(p: Peer, history: seq<Mark>, frame: Frame)
    requires Refines(p, history) && Topped(p) && frame.kind == OpenFrame && frame.stream.Some?
    ensures Admissible(p, frame.stream.value) <==> TableVerdict(p.dialer, history, false, frame) == Deliver
  {
    hide StatusOf;
  }

  lemma ActMoves(p: Peer, history: seq<Mark>, a: Action, cfg: Config)
    requires Refines(p, history) && Topped(p)
    ensures MarksMove(p, OpensId(p, history, a), Act(p, a, cfg)) && 0 < Act(p, a, cfg).nextId
  {
    hide StatusOf, Refines, Transmit, Transmitted, OnOpen, OnStreamFrame, OverCap, OnGoaway, TableVerdict, Admissible,
      ContinuesOpening;
    if a.Open? {
      OpenMoves(p, a.payload, a.headers, a.end);
    } else if a.Read? {
      if a.frame.kind == OpenFrame && a.frame.stream.Some? {
        AdmissionAgrees(p, history, a.frame);
      }
      if p.isOpen && !p.failed {
        ReadMoves(p, a.frame, a.size, cfg);
      }
    } else {
      OwnStill(p, a, cfg);
    }
  }

  lemma OpenMoves(p: Peer, payload: Value, headers: Option<Fields>, end: bool)
    requires Topped(p)
    ensures MarksMove(p, if MayOpen(p) then Some(p.nextId) else None, OpenStream(p, payload, headers, end))
    ensures 0 < OpenStream(p, payload, headers, end).nextId
  {
    hide Enqueue;
  }

  lemma ReadMoves(p: Peer, frame: Frame, size: nat, cfg: Config)
    requires p.isOpen && !p.failed
    ensures var p' := Receive(p, frame, size, cfg);
            var opens := frame.kind == OpenFrame && frame.stream.Some? && !ContinuesOpening(p, frame)
                && Admissible(p, frame.stream.value);
            MarksMove(p, if opens then frame.stream else None, p') && p'.nextId == p.nextId
  {
    hide OnOpen, OnStreamFrame, OverCap, OnGoaway, Admissible, ContinuesOpening, Enqueue, MarksMove;
    OverCapMoves(p, frame, cfg);
    StreamFrameCalm(p, frame, cfg);
    GoawayStill(p, frame);
    if size <= cfg.cap {
      if frame.kind == OpenFrame {
        OnOpenMoves(p, frame, cfg);
      } else {
        StillMoves(p, Dispatch(p, frame, cfg));
      }
    }
  }

  // ------------------------------------------------------------ every run

  lemma {:induction false} RunRefines(p: Peer, history: seq<Mark>, actions: seq<Action>, cfg: Config)
    requires Sound(p, cfg) && Bounded(p, cfg) && 0 < p.nextId && Refines(p, history)
    ensures var end := ActAll(p, actions, cfg);
            && Sound(end, cfg) && 0 < end.nextId
            && Refines(end, HistoryOf(p, history, actions, cfg))
    decreases |actions|
  {
    hide Sound, Bounded, Act, Refines, Grown, Topped, MarksMove;
    if actions != [] {
      var p' := Act(p, actions[0], cfg);
      SoundIsTopped(p, cfg);
      ActSound(p, actions[0], cfg);
      ActMoves(p, history, actions[0], cfg);
      RefinesAfter(p, history, actions[0], p');
      RunRefines(p', Grown(p, history, actions[0], p'), actions[1..], cfg);
    }
  }

  /** In every run, well formed or not, the two marks and the live map give on an inbound frame the verdict of
      the full table exactly unless it is `data` or `reset` on stream 0 and no even id has been opened. */
  lemma MarksRefineTheTable(dialer: bool, actions: seq<Action>, frame: Frame, cfg: Config)
    requires StreamKind(frame)
    ensures var p := ActAll(NewPeer(dialer), actions, cfg);
            Agree(p, HistoryOf(NewPeer(dialer), [], actions, cfg), frame) <==> BeyondZero(p, frame)
  {
    hide ActAll, HistoryOf, Sound, Bounded, Agree, BeyondZero;
    NewPeerSound(dialer, cfg);
    NewRefines(dialer);
    RunRefines(NewPeer(dialer), [], actions, cfg);
    VerdictsAgreeIff(ActAll(NewPeer(dialer), actions, cfg), HistoryOf(NewPeer(dialer), [], actions, cfg), frame, cfg);
  }

  lemma NewRefines(dialer: bool)
    ensures Refines(NewPeer(dialer), [])
  {
  }
}
