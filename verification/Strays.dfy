/** The one message that can put a frame ahead of an `open` on the wire, and what becomes of it. */
module Strays {
  import opened Frames
  import opened Codecs
  import opened Fragmenter
  import opened WriterModel
  import opened WriterLaws
  import opened WriterFrames
  import opened PeerModel
  import opened PeerInvariant
  import opened Outbound
  import opened Ends
  import L = SplitLaws

  // ------------------------------------------------------------ a reset ahead of its `open`

  function StrayReset(x: nat): Frame {
    ResetWith(x, PAYLOAD_TOO_LARGE, None)
  }

  /** `rounds` turns of the write loop, each ending the one before. */
  function Rounds(rounds: nat): seq<Action> {
    if rounds == 0 then [] else [Taken(0), Action.Take] + Rounds(rounds - 1)
  }

  function OnItsLane(): Law {
    (x: nat, f: Frame) => LaneOf(f) == x
  }

  lemma OnItsLaneInherited(cap: nat, codec: Codec)
    ensures Inherited(OnItsLane(), cap, codec)
  {
  }

  /** The reset is alone on its lane, and nothing of its stream was sent. */
  ghost predicate Loaded(e: End, x: nat) {
    && e.peer.isOpen && !e.peer.writer.stopped && Listed(e.peer.writer)
    && x !in e.peer.live
    && x in e.peer.writer.queues && e.peer.writer.queues[x] == Lane([StrayReset(x)], None, None)
    && Obeys(OnItsLane(), e.peer.writer)
    && e.inFlight != Some(x) && !Seen(e.log, x)
  }

  /** The reset is the first frame of its stream on the wire. */
  ghost predicate Overtook(log: seq<Frame>, x: nat) {
    exists i :: 0 <= i < |log| && log[i] == StrayReset(x) && !Seen(log[..i], x)
  }

  /** The reset was sent first, or a frame that does not encode ended the connection before. */
  ghost predicate Done(e: End, x: nat) {
    Overtook(e.log, x) || !e.peer.isOpen
  }

  /** A stray message on an unopened stream of one's own queues a reset, ahead of any `open`. */
  lemma StrayLoads(e: End, frame: Frame, size: nat, cfg: Config)
    requires Steady(e, cfg) && !Polite(e, Read(frame, size), cfg)
    ensures frame.stream.Some? && Own(SideOf(e.peer, cfg), frame.stream.value)
    ensures Loaded(Step(e, Read(frame, size), cfg), frame.stream.value)
  {
    hide Orderly, OpensBelow, Sorted, Sound, Bounded, FailConnection, OnStreamFrame, ResetStream, RemoteLive, LaneTidy;
    var x := frame.stream.value;
    var w := e.peer.writer;
    assert x in w.queues ==> w.queues[x] == EMPTY_LANE;
    assert Step(e, Read(frame, size), cfg).peer == QueueReset(e.peer, x, PAYLOAD_TOO_LARGE);
    EnqueueListed(w, StrayReset(x));
    assert [] + [StrayReset(x)] == [StrayReset(x)];
    TidyObeys(w, e.log, SideOf(e.peer, cfg), e.peer.highLocal);
    EnqueueObeys(OnItsLane(), w, StrayReset(x));
  }

  lemma TidyObeys(w: Writer, log: seq<Frame>, side: Side, top: nat)
    requires Tidy(w, log, side, top)
    ensures Obeys(OnItsLane(), w)
  {
    hide Orderly, OpensBelow, Sorted, Seen, Listed, L.Fits;
    forall x | x in w.queues
      ensures LaneObeys(OnItsLane(), x, w.queues[x])
    {
      assert LaneTidy(x, w.queues[x], side);
    }
  }

  // ------------------------------------------------------------ turns that serve other lanes

  /** The frame a turn hands over is the one its lane had prepared. */
  lemma {:induction false} RotateGives(w: Writer, turns: nat, id: nat, cap: nat, codec: Codec)
    requires Listed(w) && id in w.queues && HasFrame(w.queues[id], cap, codec)
    ensures var turn := Rotate(w, turns, cap, codec).1;
            turn.Sent? && turn.id == id ==>
              Prepare(w.queues[id], cap, codec).Ready? && Prepare(w.queues[id], cap, codec).lane.prepared
                  == Some(turn.frame)
    decreases turns
  {
    hide Prepare, AskLane, Rotated, HasFrame;
    if turns != 0 {
      var moved := Rotated(w);
      var first := w.order[0];
      RotatedKeepsLanes(w);
      RotatedListed(w);
      AskOutcome(moved, first, cap, codec);
      AskListed(moved, first, cap, codec);
      AskGives(moved, first, cap, codec);
      var (asked, turn) := AskLane(moved, first, cap, codec);
      if turn.Nothing? {
        RotateGives(asked, turns - 1, id, cap, codec);
      }
    }
  }

  lemma AskGives(w: Writer, id: nat, cap: nat, codec: Codec)
    requires id in w.queues
    ensures var turn := AskLane(w, id, cap, codec).1;
            turn.Sent? ==> turn.id == id && Prepare(w.queues[id], cap, codec).Ready?
                           && Prepare(w.queues[id], cap, codec).lane.prepared == Some(turn.frame)
  {
    hide Prepare;
  }

  /** A lane that holds one frame hands over that frame, or its first fragment. */
  lemma LoneFrame(f: Frame, cap: nat, codec: Codec)
    ensures HasFrame(Lane([f], None, None), cap, codec)
    ensures f.payload.None? && Prepare(Lane([f], None, None), cap, codec).Ready? ==>
              Prepare(Lane([f], None, None), cap, codec).lane.prepared == Some(f)
  {
    hide ResumeSlicing;
  }

  /** What the failure of another lane does to the peer. */
  lemma OtherLaneFails(p: Peer, y: nat, unsentOpen: bool, x: nat)
    requires y != x && Listed(p.writer) && x in p.writer.queues
    ensures var q := FailLane(p, y, unsentOpen);
            || !q.isOpen
            || (&& q.isOpen && q.writer.stopped == p.writer.stopped && Listed(q.writer) && q.live <= p.live
                && x in q.writer.queues && q.writer.queues[x] == p.writer.queues[x]
                && Before(q.writer.order, x) == Before(p.writer.order, x))
    ensures Obeys(OnItsLane(), p.writer) ==> Obeys(OnItsLane(), FailLane(p, y, unsentOpen).writer)
  {
    if Obeys(OnItsLane(), p.writer) { FailLaneObeys(p, y, unsentOpen); }
    hide Before, FailAll, DiscardAll;
    EnqueueListed(p.writer, ResetWith(y, INTERNAL_ERROR, None));
    BeforeAppend(p.writer.order, [y], x);
  }

  lemma FailLaneObeys(p: Peer, y: nat, unsentOpen: bool)
    requires Obeys(OnItsLane(), p.writer)
    ensures Obeys(OnItsLane(), FailLane(p, y, unsentOpen).writer)
  {
    hide LaneObeys, Enqueue, FailAll;
    EnqueueObeys(OnItsLane(), p.writer, ResetWith(y, INTERNAL_ERROR, None));
  }

  /** Slicing ahead on another lane leaves the lane, and who is ahead of it. */
  lemma AdvancePasses(w: Writer, y: nat, x: nat, cap: nat, codec: Codec)
    requires Listed(w) && Obeys(OnItsLane(), w) && x != y && x in w.queues
    ensures var (w', turn) := Advance(w, y, cap, codec);
            && Listed(w') && Obeys(OnItsLane(), w') && w'.stopped == w.stopped
            && x in w'.queues && w'.queues[x] == w.queues[x] && |Before(w'.order, x)| <= |Before(w.order, x)|
            && !turn.Sent? && (turn.Failed? ==> turn.id == y)
  {
    hide Before, Prepare, HasWork, LaneObeys, Listed;
    OnItsLaneInherited(cap, codec);
    AdvanceObeys(OnItsLane(), w, y, cap, codec);
    AdvanceListed(w, y, cap, codec);
    BeforeWithout(w.order, y, x);
    WithoutShrinks(Before(w.order, x), y);
  }

  lemma TakenKeepsLoaded(e: End, x: nat, cfg: Config)
    requires Loaded(e, x)
    ensures var e' := Step(e, Taken(0), cfg);
            || !e'.peer.isOpen
            || (Loaded(e', x) && e'.inFlight.None?
                && |Before(e'.peer.writer.order, x)| <= |Before(e.peer.writer.order, x)|)
  {
    hide Before, Advance, FailLane, Seen, Obeys, Listed;
    if e.inFlight.Some? {
      var y := e.inFlight.value;
      AdvancePasses(e.peer.writer, y, x, cfg.cap, cfg.codec);
      var (w, turn) := Advance(e.peer.writer, y, cfg.cap, cfg.codec);
      if turn.Failed? {
        OtherLaneFails(e.peer.(writer := w), y, turn.unsentOpen, x);
      }
    }
  }

  /** A turn sends the reset, or serves a lane that was ahead of it. */
  lemma TakeServes(e: End, x: nat, cfg: Config)
    requires Loaded(e, x) && e.inFlight.None?
    ensures var e' := Step(e, Action.Take, cfg);
            || Done(e', x)
            || (Loaded(e', x) && |Before(e'.peer.writer.order, x)| < |Before(e.peer.writer.order, x)|)
  {
    hide Before, Prepare, FailLane, HasFrame, Rotate, AnyWork, Seen, Listed, Obeys;
    var w := e.peer.writer;
    OnItsLaneInherited(cfg.cap, cfg.codec);
    NextFrameObeys(OnItsLane(), w, cfg.cap, cfg.codec);
    LoneFrame(StrayReset(x), cfg.cap, cfg.codec);
    ListedHas(w, x);
    BeforeIsWithin(w.order, x);
    RotatePasses(w, |w.order|, x, cfg.cap, cfg.codec);
    RotateGives(w, |w.order|, x, cfg.cap, cfg.codec);
    RotateListed(w, |w.order|, cfg.cap, cfg.codec);
    RotateKeepsFlags(w, |w.order|, cfg.cap, cfg.codec);
    var (next, turn) := NextFrame(w, cfg.cap, cfg.codec);
    if turn.Failed? {
      if turn.id == x {
        LoneLaneDies(e.peer.(writer := next), x, turn.unsentOpen);
      } else {
        OtherLaneFails(e.peer.(writer := next), turn.id, turn.unsentOpen, x);
      }
    } else {
      Logs(e, turn.frame, x);
    }
  }

  lemma ListedHas(w: Writer, x: nat)
    requires Listed(w) && x in w.queues
    ensures x in w.order
  {
  }

  lemma LoneLaneDies(p: Peer, x: nat, unsentOpen: bool)
    requires x !in p.live
    ensures !FailLane(p, x, unsentOpen).isOpen
  {
  }

  lemma Logs(e: End, f: Frame, x: nat)
    requires !Seen(e.log, x)
    ensures f == StrayReset(x) ==> Overtook(e.log + [f], x)
    ensures LaneOf(f) != x ==> !Seen(e.log + [f], x)
  {
    assert (e.log + [f])[..|e.log|] == e.log && (e.log + [f])[|e.log|] == f;
  }

  // ------------------------------------------------------------ what becomes of the reset

  lemma RoundsAdd(e: End, n: nat, cfg: Config)
    requires 0 < n
    ensures StepAll(e, Rounds(n), cfg) == StepAll(Step(Step(e, Taken(0), cfg), Action.Take, cfg), Rounds(n - 1), cfg)
  {
    hide Step;
    var all := Rounds(n);
    assert all[0] == Taken(0) && all[1..][0] == Action.Take && all[1..][1..] == Rounds(n - 1);
  }

  /** Within as many rounds as lanes are ahead of it, and one, the reset is on the wire before anything else of
      its stream, or the connection has died of a frame that does not encode. */
  lemma {:induction false} ResetOvertakes(e: End, x: nat, cfg: Config) returns (rounds: nat)
    requires Loaded(e, x)
    ensures Done(StepAll(e, Rounds(rounds), cfg), x)
    decreases |Before(e.peer.writer.order, x)|
  {
    hide Step, Loaded, Before, Overtook, StepAll;
    TakenKeepsLoaded(e, x, cfg);
    var e1 := Step(e, Taken(0), cfg);
    if e1.peer.isOpen {
      TakeServes(e1, x, cfg);
      var e2 := Step(e1, Action.Take, cfg);
      if Done(e2, x) {
        rounds := 1;
        NoRounds(e2, cfg);
      } else {
        var more := ResetOvertakes(e2, x, cfg);
        rounds := more + 1;
      }
    } else {
      rounds := 1;
      DeadStays(e1, cfg);
      NoRounds(Step(e1, Action.Take, cfg), cfg);
    }
    RoundsAdd(e, rounds, cfg);
  }

  lemma NoRounds(e: End, cfg: Config)
    ensures StepAll(e, Rounds(0), cfg) == e
  {
  }

  lemma DeadStays(e: End, cfg: Config)
    requires !e.peer.isOpen
    ensures !Step(e, Action.Take, cfg).peer.isOpen
  {
    hide NextFrame, Enqueue, FailAll, DiscardAll;
  }

  lemma OvertookIsOutOfOrder(log: seq<Frame>, x: nat, side: Side)
    requires Overtook(log, x) && Own(side, x)
    ensures !InOrder(log, side)
  {
    hide OnWire, Seen, OpensBelow;
    var i :| 0 <= i < |log| && log[i] == StrayReset(x) && !Seen(log[..i], x);
    assert LaneOf(log[i]) == x && log[i].kind != OpenFrame;
  }

  // ------------------------------------------------------------ exactly that message

  /** Whatever happens next, short of another such message, the wire stays in order. */
  ghost predicate StaysInOrder(e: End, cfg: Config) {
    forall more :: AllPolite(e, more, cfg) ==> InOrder(StepAll(e, more, cfg).log, SideOf(e.peer, cfg))
  }

  lemma {:induction false} RoundsArePolite(e: End, rounds: nat, cfg: Config)
    ensures AllPolite(e, Rounds(rounds), cfg)
    decreases rounds
  {
    hide Step;
    if rounds != 0 {
      var all := Rounds(rounds);
      assert all[0] == Taken(0) && all[1..][0] == Action.Take && all[1..][1..] == Rounds(rounds - 1);
      RoundsArePolite(Step(Step(e, Taken(0), cfg), Action.Take, cfg), rounds - 1, cfg);
    }
  }

  /** A message that reaches an end in a run puts nothing ahead of an `open`, now or later, if it is not a
      stray one about an unopened stream of the end's own.  One that is does, unless a frame that does not
      encode ends the connection first. */
  lemma OnlyAStrayOvertakes(e: End, frame: Frame, size: nat, cfg: Config)
    requires Steady(e, cfg)
    ensures var e' := Step(e, Read(frame, size), cfg);
            && (Polite(e, Read(frame, size), cfg) ==> StaysInOrder(e', cfg))
            && (!Polite(e, Read(frame, size), cfg) ==>
                  !StaysInOrder(e', cfg) || exists rounds :: !StepAll(e', Rounds(rounds), cfg).peer.isOpen)
  {
    hide Steady, Step, Polite, InOrder, AllPolite, StepAll, Loaded;
    var e' := Step(e, Read(frame, size), cfg);
    if Polite(e, Read(frame, size), cfg) {
      StepSteady(e, Read(frame, size), cfg);
      forall more | AllPolite(e', more, cfg)
        ensures InOrder(StepAll(e', more, cfg).log, SideOf(e'.peer, cfg))
      {
        PoliteInOrder(e', more, cfg);
      }
    } else {
      StrayLoads(e, frame, size, cfg);
      var x := frame.stream.value;
      var rounds := ResetOvertakes(e', x, cfg);
      RoundsArePolite(e', rounds, cfg);
      SameSide(e, frame, size, cfg);
      if StepAll(e', Rounds(rounds), cfg).peer.isOpen {
        OvertookIsOutOfOrder(StepAll(e', Rounds(rounds), cfg).log, x, SideOf(e'.peer, cfg));
      }
    }
  }

  lemma SameSide(e: End, frame: Frame, size: nat, cfg: Config)
    requires Steady(e, cfg) && !Polite(e, Read(frame, size), cfg)
    ensures SideOf(Step(e, Read(frame, size), cfg).peer, cfg) == SideOf(e.peer, cfg)
  {
    hide Steady, Enqueue, FailConnection, OnStreamFrame, ResetStream, Seen, Unsent;
  }

  /** The excluded run: an over-long `ping` that names a stream makes a dialer that has opened nothing send
      a reset on it as its first frame. */
  lemma StrayResetGoesFirst(cfg: Config, nonce: Text)
    requires 2 <= cfg.cap && L.Fits(cfg.codec, ResetWith(1, PAYLOAD_TOO_LARGE, None), cfg.cap)
    ensures var ping := Bare(PingFrame, Some(1)).(nonce := Some(nonce));
            var e := StepAll(NewEnd(true), [Read(ping, cfg.cap + 1), Action.Take], cfg);
            e.log == [ResetWith(1, PAYLOAD_TOO_LARGE, None)]
  {
    var ping := Bare(PingFrame, Some(1)).(nonce := Some(nonce));
    var reset := ResetWith(1, PAYLOAD_TOO_LARGE, None);
    var first := Step(NewEnd(true), Read(ping, cfg.cap + 1), cfg);
    StrayIsQueued(ping, cfg);
    StrayIsSent(first.peer, reset, cfg);
    assert [Read(ping, cfg.cap + 1), Action.Take][1..] == [Action.Take] && [Action.Take][1..] == [];
    assert StepAll(Step(first, Action.Take, cfg), [], cfg) == Step(first, Action.Take, cfg);
    assert StepAll(first, [Action.Take], cfg) == Step(first, Action.Take, cfg);
  }

  lemma StrayIsQueued(ping: Frame, cfg: Config)
    requires ping.kind == PingFrame && ping.stream == Some(1)
    ensures var p := Receive(NewPeer(true), ping, cfg.cap + 1, cfg);
            p.writer == Enqueue(NEW_WRITER, ResetWith(1, PAYLOAD_TOO_LARGE, None))
  {
  }

  lemma StrayIsSent(p: Peer, reset: Frame, cfg: Config)
    requires p.writer == Enqueue(NEW_WRITER, reset) && reset.stream == Some(1)
    requires 2 <= cfg.cap && L.Fits(cfg.codec, reset, cfg.cap)
    ensures Transmit(p, cfg).1 == Some(reset)
  {
    hide ResumeSlicing;
    var w := p.writer;
    var start: Generator := Start(reset);
    assert Resume(start, cfg.cap, cfg.codec) == Yield(reset, Finished);
    assert w.queues[1] == Lane([reset], None, None);
    assert Prepare(w.queues[1], cfg.cap, cfg.codec) == Ready(Lane([], Some(reset), Some(Finished)));
    assert w.order == [1];
    assert AskLane(Rotated(w), 1, cfg.cap, cfg.codec).1 == Sent(1, reset);
    assert Rotate(w, 1, cfg.cap, cfg.codec).1 == Sent(1, reset);
  }
}
