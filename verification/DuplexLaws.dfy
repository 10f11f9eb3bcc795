/** What two correct peers promise each other in every run: whatever their applications do, whatever the
    interleaving of their write loops and of what arrives, until a connection dies and after. */
module DuplexLaws {
  import opened Frames
  import opened Codecs
  import opened WriterModel
  import opened PeerModel
  import opened PeerInvariant
  import opened Outbound
  import opened Ends
  import opened Conversation
  import opened Halves
  import opened Strands
  import opened Reception
  import opened DuplexModel
  import opened DuplexMoves
  import opened DuplexWriting
  import opened DuplexReading
  import S = StreamModel

  // ------------------------------------------------------------ every run

  lemma MoveJoined(d: Duplex, m: Move)
    requires Joined(d)
    ensures Joined(MoveA(d, m))
  {
    hide Joined, Step;
    match m
    case Deliver => DeliverJoined(d);
    case Do(action) =>
      match action
      case Register => RegisterJoined(d);
      case Open(payload, headers, end) => OpenJoined(d, payload, headers, end);
      case Send(id, data, leading, last, trailers) => SendJoined(d, id, data, leading, last, trailers);
      case Reset(id, code) => AppResetJoined(d, id, code);
      case HandlerRaises(id, error) => HandlerErrorJoined(d, id, error);
      case Goodbye(code) => GoodbyeJoined(d, code);
      case Ping(nonce) => SendPingJoined(d, nonce);
      case Take => TakeJoined(d);
      case Taken(lane) => TakenJoined(d, lane);
      case Read(frame, size) =>
      case SocketDies => DieJoined(d);
  }

  lemma HappenJoined(d: Duplex, e: Event)
    requires Joined(d)
    ensures Joined(Happen(d, e))
  {
    hide Joined, MoveA;
    FlipJoined(d);
    match e
    case AtA(m) => MoveJoined(d, m);
    case AtB(m) => MoveJoined(Flip(d), m); FlipJoined(MoveA(Flip(d), m));
  }

  lemma {:induction false} RunJoined(d: Duplex, events: seq<Event>)
    requires Joined(d)
    ensures Joined(Run(d, events))
    decreases |events|
  {
    hide Joined, Happen;
    if events != [] {
      HappenJoined(d, events[0]);
      RunJoined(Happen(d, events[0]), events[1..]);
    }
  }

  /** The state after a run of two peers that share a lawful codec and a cap. */
  ghost predicate Reachable(d: Duplex) {
    exists ca: Config, cb: Config, events: seq<Event> ::
      ca.codec == cb.codec && ca.cap == cb.cap && Lawful(ca.codec) && d == Run(Start(ca, cb), events)
  }

  lemma ReachableJoined(d: Duplex)
    requires Reachable(d)
    ensures Joined(d) && Joined(Flip(d))
  {
    hide Joined, Run, Lawful;
    var ca: Config, cb: Config, events: seq<Event> :|
      ca.codec == cb.codec && ca.cap == cb.cap && Lawful(ca.codec) && d == Run(Start(ca, cb), events);
    StartJoined(ca, cb);
    RunJoined(Start(ca, cb), events);
    FlipJoined(d);
  }

  // ------------------------------------------------------------ delivery

  /** What `e`'s application was given on stream `x`: the opening payload of a stream of the remote's, then
      every payload accepted. */
  function DeliveredTo(e: End, x: nat): seq<Value> {
    if x in e.peer.objects then ValuesOf(e.peer.objects[x]) else []
  }

  predicate NeverReset(e: End, x: nat) {
    x in e.peer.objects && !e.peer.objects[x].cause.ByReset?
  }

  lemma HalfDelivers(e: End, heard: seq<Frame>, cfg: Config, x: nat)
    ensures Heard(HalfIn(e, heard, cfg, x)) == DeliveredTo(e, x)
    ensures Said(HalfIn(e, heard, cfg, x)) == (if x in e.peer.objects then SaidOn(e, x).values else [])
    ensures NeverReset(e, x) ==> HalfIn(e, heard, cfg, x).Alive?
  {
    hide ValuesOf, Own, Seen, LaneAt;
  }

  lemma SaidNeedsStream(d: Duplex, x: nat)
    requires Joined(d)
    ensures x !in d.a.peer.objects ==> SaidOn(d.a, x) == SILENCE
  {
    hide Joined, Proper, OpenedIn, Seen;
    JoinedTuned(d);
  }

  lemma StreamZero(d: Duplex)
    requires Joined(d)
    ensures 0 !in d.a.peer.objects
  {
    hide Joined, Bounded, Afloat, Listed;
    JoinedSteady(d);
    assert 0 in d.a.peer.objects ==> Kept(d.a.peer, 0, d.a.peer.objects[0], d.ca);
  }

  /** End to end, at every moment of every run: what one application was given on a stream is, whole and in
      order, a prefix of what the other said on it. */
  lemma DeliveredIsPrefix(d: Duplex, x: nat)
    requires Reachable(d)
    ensures DeliveredTo(d.b, x) <= SaidOn(d.a, x).values
    ensures DeliveredTo(d.a, x) <= SaidOn(d.b, x).values
  {
    hide Reachable, Joined, DeliveredTo, SaidOn;
    ReachableJoined(d);
    DeliveredOneWay(d, x);
    DeliveredOneWay(Flip(d), x);
  }

  lemma DeliveredOneWay(d: Duplex, x: nat)
    requires Joined(d) && Joined(Flip(d))
    ensures DeliveredTo(d.b, x) <= SaidOn(d.a, x).values
  {
    hide Joined, ValuesOf, Audible, Exact, HalfIn;
    if x == 0 {
      StreamZero(Flip(d));
    } else {
      JoinedTies(d, x);
      SaidNeedsStream(d, x);
      HalfDelivers(d.a, Reached(d.b.log, d.rb), d.ca, x);
      HalfDelivers(d.b, Reached(d.a.log, d.ra), d.cb, x);
    }
  }

  /** Nothing of stream `x` is queued, prepared, being sliced, or on the wire from `a` to `b`. */
  predicate Arrived(d: Duplex, x: nat) {
    WayA(d, x) == []
  }

  /** A writer without work and a channel that was read to its end leave nothing on the way. */
  lemma DrainedArrived(d: Duplex, x: nat)
    requires d.ra == |d.a.log| && !AnyWork(d.a.peer.writer)
    ensures Arrived(d, x)
  {
    assert Unread(d.a.log, d.ra) == [];
    if x in d.a.peer.writer.queues {
      EmptyHasNothing(d.ca.cap, d.ca.codec);
    }
  }

  /** `to` has got what `from` gave on stream `x` up to where it ended: every payload, the end, the leading headers
      and the trailers. */
  predicate ConveyedToItsEnd(from: End, to: End, x: nat)
    requires x in from.peer.objects && x in to.peer.objects
  {
    var s, t := from.peer.objects[x], to.peer.objects[x];
    && DeliveredTo(to, x) == SaidOn(from, x).values
    && (HeardOf(t).ended <==> SaidOn(from, x).ended)
    && HeadersGot(t) == HeadersGiven(s)
    && t.trailers == SaidOn(from, x).trailers
  }

  /** Once everything has arrived, on connections that live, a stream that neither end reset has been conveyed up to
      where each side ended it: each way, once everything that way has arrived. */
  lemma DeliveredToItsEnd(d: Duplex, x: nat)
    requires Reachable(d) && d.a.peer.isOpen && d.b.peer.isOpen
    requires NeverReset(d.a, x) && NeverReset(d.b, x)
    ensures Arrived(d, x) ==> ConveyedToItsEnd(d.a, d.b, x)
    ensures Arrived(Flip(d), x) ==> ConveyedToItsEnd(d.b, d.a, x)
  {
    hide Reachable, Joined, ConveyedToItsEnd, WayA;
    ReachableJoined(d);
    if Arrived(d, x) { CompleteOneWay(d, x); }
    if Arrived(Flip(d), x) { CompleteOneWay(Flip(d), x); }
  }

  lemma CompleteOneWay(d: Duplex, x: nat)
    requires Joined(d) && Joined(Flip(d)) && d.a.peer.isOpen && d.b.peer.isOpen
    requires NeverReset(d.a, x) && NeverReset(d.b, x) && Arrived(d, x)
    ensures ConveyedToItsEnd(d.a, d.b, x)
  {
    hide Joined, ValuesOf, SaidOn, HeadersGot, HeadersGiven;
    StreamZero(d);
    JoinedTies(d, x);
    HalfDelivers(d.a, Reached(d.b.log, d.rb), d.ca, x);
    HalfDelivers(d.b, Reached(d.a.log, d.ra), d.cb, x);
    ArrivedIsHeard(HalfA(d, x), HalfA(Flip(d), x), Own(SideOf(d.a.peer, d.ca), x), Late(d.b, x), d.ca.codec);
  }

  lemma ArrivedIsHeard(h: Half, k: Half, own: bool, late: bool, codec: Codec)
    requires Linked(h, [], k, own, late, true, true, codec) && h.Alive? && k.Alive?
    ensures k.heard == h.said
  {
  }

  /** Both ends see the same leading headers, from the first frame that carries them on: in every reachable
      state with live connections, of a stream that neither end reset. */
  lemma HeadersAgree(d: Duplex, x: nat)
    requires Reachable(d) && d.a.peer.isOpen && d.b.peer.isOpen
    requires NeverReset(d.a, x) && NeverReset(d.b, x)
    ensures d.b.peer.objects[x].receivedAFrame ==> HeadersGot(d.b.peer.objects[x]) == HeadersGiven(d.a.peer.objects[x])
    ensures d.a.peer.objects[x].receivedAFrame ==> HeadersGot(d.a.peer.objects[x]) == HeadersGiven(d.b.peer.objects[x])
  {
    hide Reachable, Joined, HeadersGot, HeadersGiven;
    ReachableJoined(d);
    HeadersOneWay(d, x);
    HeadersOneWay(Flip(d), x);
  }

  lemma HeadersOneWay(d: Duplex, x: nat)
    requires Joined(d) && Joined(Flip(d)) && d.a.peer.isOpen && d.b.peer.isOpen
    requires NeverReset(d.a, x) && NeverReset(d.b, x)
    ensures d.b.peer.objects[x].receivedAFrame ==> HeadersGot(d.b.peer.objects[x]) == HeadersGiven(d.a.peer.objects[x])
  {
    hide Joined, ValuesOf, SaidOn, HeadersGot, HeadersGiven, Linked, WayA;
    StreamZero(d);
    JoinedTies(d, x);
    HalfDelivers(d.a, Reached(d.b.log, d.rb), d.ca, x);
    HalfDelivers(d.b, Reached(d.a.log, d.ra), d.cb, x);
    BegunHeaders(HalfA(d, x), WayA(d, x), HalfA(Flip(d), x), Own(SideOf(d.a.peer, d.ca), x), Late(d.b, x), d.ca.codec);
  }

  lemma BegunHeaders(h: Half, q: seq<Frame>, k: Half, own: bool, late: bool, codec: Codec)
    requires Linked(h, q, k, own, late, true, true, codec) && h.Alive? && k.Alive?
    ensures k.heard.begun ==> k.heard.headers == h.said.headers
  {
    if k.heard.begun {
      HeadersStay(k.heard, Done(k), q, codec);
    }
  }

  // ------------------------------------------------------------ no connection errors

  /** In every run, the next frame that reaches an end fails its connection exactly when it is an `open` of
      a stream that end refused or closed while the opening payload was incomplete. */
  lemma OnlyACutOpeningFails(d: Duplex)
    requires Reachable(d)
    ensures CanRead(d) ==> (Happen(d, AtA(Deliver)).a.peer.failed <==> CutHead(d))
    ensures CanRead(Flip(d)) ==> (Happen(d, AtB(Deliver)).b.peer.failed <==> CutHead(Flip(d)))
  {
    hide Reachable, Joined, MoveA;
    ReachableJoined(d);
    DeliverJoined(d);
    DeliverJoined(Flip(d));
  }

  /** The run of `events` delivers, at its `k`th event, an `open` of a stream whose opening was cut. */
  ghost predicate DeliversCutOpening(d: Duplex, events: seq<Event>, k: nat) {
    && k < |events|
    && (|| (events[k] == AtA(Deliver) && CutHead(Run(d, events[..k])))
        || (events[k] == AtB(Deliver) && CutHead(Flip(Run(d, events[..k])))))
  }

  predicate CutHead(d: Duplex) {
    CanRead(d) && Head(d).kind == OpenFrame && LaneOf(Head(d)) in d.a.peer.cut
  }

  /** Two correct peers never drive each other into a connection-level error, resets that cross, cancels of
      unsent opens and goaways included, unless an `open` follows the refusal of its own stream. */
  lemma {:induction false} FailureNeedsACutOpening(d: Duplex, events: seq<Event>)
    requires Joined(d) && !d.a.peer.failed && !d.b.peer.failed
    ensures Run(d, events).a.peer.failed || Run(d, events).b.peer.failed ==>
              exists k: nat :: DeliversCutOpening(d, events, k)
    decreases |events|
  {
    hide Joined, Happen, CutHead;
    if events != [] {
      var next := Happen(d, events[0]);
      HappenJoined(d, events[0]);
      HappenFails(d, events[0]);
      if next.a.peer.failed || next.b.peer.failed {
        assert events[..0] == [];
        assert DeliversCutOpening(d, events, 0);
      } else {
        FailureNeedsACutOpening(next, events[1..]);
        if k: nat :| DeliversCutOpening(next, events[1..], k) {
          assert events[1..][..k] == events[..k + 1][1..];
          assert Run(next, events[1..][..k]) == Run(d, events[..k + 1]);
          assert DeliversCutOpening(d, events, k + 1);
        }
      }
    }
  }

  lemma HappenFails(d: Duplex, e: Event)
    requires Joined(d) && !d.a.peer.failed && !d.b.peer.failed
    ensures Happen(d, e).a.peer.failed || Happen(d, e).b.peer.failed ==>
              (e == AtA(Deliver) && CutHead(d)) || (e == AtB(Deliver) && CutHead(Flip(d)))
  {
    hide Joined, Step;
    FlipJoined(d);
    match e
    case AtA(m) => MoveFails(d, m);
    case AtB(m) => MoveFails(Flip(d), m);
  }

  lemma MoveFails(d: Duplex, m: Move)
    requires Joined(d) && !d.a.peer.failed
    ensures MoveA(d, m).a.peer.failed ==> m == Deliver && CutHead(d)
    ensures MoveA(d, m).b == d.b
  {
    hide Joined, Step, Receive;
    match m
    case Deliver => DeliverJoined(d);
    case Do(action) => if !action.Read? { StepNeverFails(d.a, action, d.ca); }
  }

  /** Nothing an end does by itself fails its connection. */
  lemma StepNeverFails(e: End, a: Action, cfg: Config)
    requires !a.Read?
    ensures Step(e, a, cfg).peer.failed == e.peer.failed
  {
    hide Enqueue, Discard, NextFrame, Advance, S.Fail, S.NoteSent, S.LocalEnd, S.MaySend, FailAll, DiscardAll,
      RemoteLive, Act;
    if !(a.Open? || a.Send? || a.Take? || a.Taken?) {
      ActNeverFails(e.peer, a, cfg);
    }
  }

  lemma ActNeverFails(p: Peer, a: Action, cfg: Config)
    requires !a.Read?
    ensures Act(p, a, cfg).failed == p.failed
  {
    hide Enqueue, Discard, NextFrame, Advance, S.Fail, S.NoteSent, S.LocalEnd, S.MaySend, FailAll, DiscardAll,
      RemoteLive;
  }

  /** From the start of any run. */
  lemma PeersDoNotFailEachOther(ca: Config, cb: Config, events: seq<Event>)
    requires ca.codec == cb.codec && ca.cap == cb.cap && Lawful(ca.codec)
    requires forall k: nat :: !DeliversCutOpening(Start(ca, cb), events, k)
    ensures !Run(Start(ca, cb), events).a.peer.failed && !Run(Start(ca, cb), events).b.peer.failed
  {
    hide Joined, Run, DeliversCutOpening, Lawful;
    StartJoined(ca, cb);
    FailureNeedsACutOpening(Start(ca, cb), events);
  }

  // ------------------------------------------------------------ the mirror

  function Mirrored(state: S.State): S.State {
    match state
    case HalfClosedLocal => S.HalfClosedRemote
    case HalfClosedRemote => S.HalfClosedLocal
    case _ => state
  }

  /** Live at one end exactly when at the other, with the mirrored state. */
  predicate Mirrors(d: Duplex, x: nat) {
    && (x in d.a.peer.live <==> x in d.b.peer.live)
    && (x in d.a.peer.live ==>
          && x in d.a.peer.objects && x in d.b.peer.objects
          && d.b.peer.objects[x].state == Mirrored(d.a.peer.objects[x].state))
  }

  /** A live stream that may send again after its application has ended it. */
  predicate Reopened(e: End, x: nat) {
    x in e.peer.live && x in e.peer.objects && e.peer.objects[x].state == S.HalfClosedRemote && SaidOn(e, x).ended
  }

  /** Whenever everything has arrived both ways and both connections live, the ends of a stream mirror each other if
      and only if neither may send again after its end. */
  lemma QuietEndsMirror(d: Duplex, x: nat)
    requires Reachable(d) && d.a.peer.isOpen && d.b.peer.isOpen
    requires Arrived(d, x) && Arrived(Flip(d), x)
    ensures Mirrors(d, x) <==> !Reopened(d.a, x) && !Reopened(d.b, x)
  {
    hide Reachable, Joined, Mirrored, WayA, SaidOn;
    ReachableJoined(d);
    if x in d.a.peer.live {
      if Reopened(d.a, x) { ReopenedIsAlone(d, x); } else { LiveIsMirrored(d, x); }
    }
    if x in d.b.peer.live {
      if Reopened(d.b, x) { ReopenedIsAlone(Flip(d), x); } else { LiveIsMirrored(Flip(d), x); }
    }
  }

  lemma LiveIsMirrored(d: Duplex, x: nat)
    requires Joined(d) && Joined(Flip(d)) && d.a.peer.isOpen && d.b.peer.isOpen
    requires Arrived(d, x) && Arrived(Flip(d), x)
    requires x in d.a.peer.live && !Reopened(d.a, x)
    ensures x in d.a.peer.objects && x in d.b.peer.live && x in d.b.peer.objects
    ensures d.b.peer.objects[x].state == Mirrored(d.a.peer.objects[x].state) && !Reopened(d.b, x)
  {
    hide Joined, WayA, ValuesOf, LaneAt, Reached, Seen, Linked;
    LiveHalf(d, x);
    JoinedTies(d, x);
    CodecLawful(d);
    LiveIsNotLate(d, x);
    QuietHalves(HalfA(d, x), HalfA(Flip(d), x), Own(SideOf(d.a.peer, d.ca), x), Own(SideOf(d.b.peer, d.cb), x),
                Late(d.b, x), Late(d.a, x), d.ca.codec);
    HalfKinds(Flip(d), x);
    LiveHalf(Flip(d), x);
  }

  /** The other end of a stream that may send again is closed, and drops what it sends. */
  lemma ReopenedIsAlone(d: Duplex, x: nat)
    requires Joined(d) && Joined(Flip(d)) && d.a.peer.isOpen && d.b.peer.isOpen
    requires Arrived(d, x) && Arrived(Flip(d), x) && Reopened(d.a, x)
    ensures x !in d.b.peer.live
  {
    hide Joined, WayA, ValuesOf, LaneAt, Reached, Seen, Linked;
    LiveHalf(d, x);
    JoinedTies(d, x);
    CodecLawful(d);
    OwnSplitsJoined(d, x);
    if x in d.b.peer.live {
      LiveHalf(Flip(d), x);
      BothEnded(HalfA(d, x), HalfA(Flip(d), x), Own(SideOf(d.a.peer, d.ca), x), Own(SideOf(d.b.peer, d.cb), x),
                Late(d.b, x), Late(d.a, x), d.ca.codec);
    }
  }

  lemma BothEnded(h: Half, k: Half, own: bool, own': bool, late: bool, late': bool, codec: Codec)
    requires h.Alive? && h.heard.ended && h.said.ended && k.Alive?
    requires Linked(h, [], k, own, late, true, true, codec) && Linked(k, [], h, own', late', true, true, codec)
    ensures k.heard.ended && k.said.ended
  {
  }

  /** A live stream that is past its opening was given to the handler, so no goaway excludes it. */
  lemma LiveIsNotLate(d: Duplex, x: nat)
    requires Joined(d) && x in d.a.peer.live
    ensures Late(d.a, x) ==> x in d.a.peer.objects && d.a.peer.objects[x].opening
  {
    hide Joined, Bounded, Afloat, Listed, HeardOf, SaidOf;
    LiveHalf(d, x);
    JoinedSteady(d);
    assert Kept(d.a.peer, x, d.a.peer.objects[x], d.ca);
  }

  /** Two halves with nothing between them, one of them live. */
  lemma QuietHalves(h: Half, k: Half, own: bool, own': bool, late: bool, late': bool, codec: Codec)
    requires h.Alive? && !(h.heard.ended && h.said.ended)
    requires Linked(h, [], k, own, late, true, true, codec)
    requires (late' ==> h.heard.opening) && Linked(k, [], h, own', late', true, true, codec)
    ensures k.Alive? && k.heard.ended == h.said.ended && h.heard.ended == k.said.ended
    ensures !Stopped(EarOf(k))
  {
  }
}
