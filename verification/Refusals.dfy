/** The run that the theorems about two peers must exclude, from any acceptor's limit and with the JSON codec: a
    fragmented `open` that is refused at its first fragment fails the connection at its second. */
module Refusals {
  import opened Frames
  import opened Codecs
  import opened WriterModel
  import opened PeerModel
  import opened PeerInvariant
  import opened Outbound
  import opened Ends
  import opened Conversation
  import opened DuplexModel
  import opened DuplexMoves
  import opened DuplexReading
  import opened DuplexLaws
  import W = DuplexWriting
  import F = Fragmenter
  import L = SplitLaws
  import S = StreamModel

  lemma {:induction false} RunAppend(d: Duplex, first: seq<Event>, second: seq<Event>)
    ensures Run(d, first + second) == Run(Run(d, first), second)
    decreases |first|
  {
    hide Happen;
    if first == [] {
      assert first + second == second;
    } else {
      RunAppend(Happen(d, first[0]), first[1..], second);
      assert (first + second)[1..] == first[1..] + second;
    }
  }

  // ------------------------------------------------------------ a quiet pair

  /** The dialer may open stream `x` next and has nothing to send, and all it sent was read. */
  ghost predicate Quiet(d: Duplex, x: nat) {
    && Joined(d)
    && d.a.peer.dialer && d.a.peer.isOpen && !d.a.peer.goaway.sent && !d.a.peer.goaway.received
    && d.a.peer.nextId == x <= MAX_STREAM_ID && d.a.peer.writer == NEW_WRITER && d.a.inFlight.None?
    && d.ra == |d.a.log|
    && d.b.peer.isOpen && !d.b.peer.failed && Admissible(d.b.peer, x)
    && x !in d.b.peer.objects && x !in d.b.peer.live
  }

  function OpenEvents(v: Value): seq<Event> {
    [AtA(Do(Open(v, None, false))), AtA(Do(Take)), AtB(Deliver)]
  }

  function AfterEvents(x: nat): seq<Event> {
    [AtA(Do(Taken(x))), AtA(Do(Take))]
  }

  lemma RunOne(d: Duplex, e: Event)
    ensures Run(d, [e]) == Happen(d, e)
  {
    hide Happen;
    assert [e][1..] == [];
    assert Run(Happen(d, e), []) == Happen(d, e);
  }

  lemma RunTwo(d: Duplex, e1: Event, e2: Event)
    ensures Run(d, [e1, e2]) == Happen(Happen(d, e1), e2)
  {
    hide Happen;
    RunAppend(d, [e1], [e2]);
    RunOne(d, e1);
    RunOne(Happen(d, e1), e2);
    assert [e1] + [e2] == [e1, e2];
  }

  lemma RunThree(d: Duplex, e1: Event, e2: Event, e3: Event)
    ensures Run(d, [e1, e2, e3]) == Happen(Happen(Happen(d, e1), e2), e3)
  {
    hide Happen;
    RunAppend(d, [e1, e2], [e3]);
    RunTwo(d, e1, e2);
    RunOne(Happen(Happen(d, e1), e2), e3);
    assert [e1, e2] + [e3] == [e1, e2, e3];
  }

  /** A writer with one lane sends that lane's next frame. */
  lemma OneLaneSends(w: Writer, x: nat, f: Frame, cap: nat, codec: Codec)
    requires w.order == [x] && x in w.queues && !w.stopped
    requires Prepare(w.queues[x], cap, codec).Ready? && Prepare(w.queues[x], cap, codec).lane.prepared == Some(f)
    ensures var (next, turn) := NextFrame(w, cap, codec);
            && turn == Sent(x, f)
            && next == w.(queues := w.queues[x := Prepare(w.queues[x], cap, codec).lane.(prepared := None)])
  {
    hide Prepare;
    assert Rotated(w).order == [x];
    assert AskLane(Rotated(w), x, cap, codec).1 == Sent(x, f);
    assert Rotate(w, 1, cap, codec) == AskLane(Rotated(w), x, cap, codec);
  }

  /** The writer, when it has sent the first frame of the only lane. */
  function Sending(x: nat, rest: F.Generator): Writer {
    Writer(map[x := Lane([], None, Some(rest))], [x], false, true, false)
  }

  /** `a` has sent the first frame of its `open`. */
  ghost predicate FirstSent(d: Duplex, d2: Duplex, x: nat, first: Frame, rest: F.Generator) {
    && d2 == d.(a := d2.a)
    && d2.a.log == d.a.log + [first] && d2.a.inFlight == Some(x) && d2.a.peer.writer == Sending(x, rest)
    && d2.a.peer.isOpen && d2.a.peer.goaway == d.a.peer.goaway && d2.a.peer.nextId == x + 2 && d2.a.peer.dialer
  }

  lemma FirstIsSent(d: Duplex, x: nat, v: Value, end: bool, first: Frame, rest: F.Generator)
    requires Quiet(d, x) && F.Resume(F.Start(OpenOf(x, v, None, end)), d.ca.cap, d.ca.codec) == F.Yield(first, rest)
    requires LaneOf(first) == x
    ensures FirstSent(d, Happen(Happen(d, AtA(Do(Open(v, None, end)))), AtA(Do(Take))), x, first, rest)
  {
    hide F.Resume, Joined, Admissible, NextFrame;
    var d1 := Happen(d, AtA(Do(Open(v, None, end))));
    var f := OpenOf(x, v, None, end);
    OpenIsQueued(d, x, v, end);
    var w := d1.a.peer.writer;
    assert Prepare(w.queues[x], d.ca.cap, d.ca.codec) == Ready(Lane([], Some(first), Some(rest)));
    OneLaneSends(w, x, first, d.ca.cap, d.ca.codec);
    assert w.queues[x := Lane([], None, Some(rest))] == map[x := Lane([], None, Some(rest))];
  }

  lemma OpenIsQueued(d: Duplex, x: nat, v: Value, end: bool)
    requires Quiet(d, x)
    ensures var d1 := Happen(d, AtA(Do(Open(v, None, end))));
            && d1 == d.(a := d1.a) && d1.a.log == d.a.log && d1.a.inFlight.None? && d1.a.peer.isOpen
            && d1.a.peer.goaway == d.a.peer.goaway && d1.a.peer.nextId == x + 2 && d1.a.peer.dialer
            && d1.a.peer.writer == Writer(map[x := Lane([OpenOf(x, v, None, end)], None, None)], [x], false, true,
                                          false)
  {
    hide Joined, Admissible;
    assert [] + [OpenOf(x, v, None, end)] == [OpenOf(x, v, None, end)];
  }

  /** An `open`'s frames are its stream's, and opens. */
  lemma OpenFragments(x: nat, v: Value, end: bool, first: Frame, rest: F.Generator, cap: nat, codec: Codec)
    requires 0 < x && x % 2 == 1 && F.Resume(F.Start(OpenOf(x, v, None, end)), cap, codec) == F.Yield(first, rest)
    ensures first.kind == OpenFrame && first.stream == Some(x) && LaneOf(first) == x
    ensures SourceOn(x, rest, Side(true, cap, codec)) && (forall g :: g in Rest(rest) ==> g.kind == OpenFrame)
  {
    hide F.Resume;
    var f := OpenOf(x, v, None, end);
    ResumeKeepsKind(F.Start(f), cap, codec);
    var side := Side(true, cap, codec);
    assert OnLane(x, f, side);
    YieldOnLane(F.Start(f), x, side);
  }

  // ------------------------------------------------------------ a stream that is taken in

  /** `b` is at its limit of `n` streams, or below it. */
  ghost predicate Serving(d: Duplex, n: nat) {
    && d.b.peer.handler && !d.b.peer.goaway.sent && |RemoteLive(d.b.peer)| == n
  }

  /** A whole `open` that `b` has room for is taken in, and nothing is left to send. */
  lemma TakesOneIn(d: Duplex, x: nat, n: nat)
    requires Quiet(d, x) && Serving(d, n) && n < d.cb.maxStreams && x + 2 <= MAX_STREAM_ID
    requires 2 <= d.ca.cap && L.Fits(d.ca.codec, OpenOf(x, Null, None, false), d.ca.cap)
    ensures var d' := Run(Run(d, OpenEvents(Null)), AfterEvents(x));
            Quiet(d', x + 2) && Serving(d', n + 1) && d'.ca == d.ca && d'.cb == d.cb
  {
    hide Quiet, Joined, Serving, Step, Receive, F.Resume, L.Fits;
    var f := OpenOf(x, Null, None, false);
    WholeIsYielded(f, d.ca.cap, d.ca.codec);
    RunThree(d, AtA(Do(Open(Null, None, false))), AtA(Do(Take)), AtB(Deliver));
    var d1 := Happen(d, AtA(Do(Open(Null, None, false))));
    var d2 := Happen(d1, AtA(Do(Take)));
    var d3 := Happen(d2, AtB(Deliver));
    FirstIsSent(d, x, Null, false, f, F.Finished);
    QuietJoined(d, x);
    HappenJoined(d, AtA(Do(Open(Null, None, false))));
    HappenJoined(d1, AtA(Do(Take)));
    HappenJoined(d2, AtB(Deliver));
    FitsIsSize(d.ca.codec, f, d.ca.cap);
    WholeIsTakenIn(d, d2, x, n);
    RunTwo(d3, AtA(Do(Taken(x))), AtA(Do(Take)));
    var d4 := Happen(d3, AtA(Do(Taken(x))));
    HappenJoined(d3, AtA(Do(Taken(x))));
    HappenJoined(d4, AtA(Do(Take)));
    NothingIsLeft(d3, x);
    QuietAgain(d, d3, Happen(d4, AtA(Do(Take))), x, n);
  }

  lemma QuietJoined(d: Duplex, x: nat)
    requires Quiet(d, x)
    ensures Joined(d) && d.ca.codec == d.cb.codec && d.ca.cap == d.cb.cap && 0 < x && x % 2 == 1 && !d.b.peer.dialer
  {
    hide Steady, Tied, Tuned, Goodbyes;
    JoinedSteady(d);
    SteadyNumbers(d.a, d.ca);
  }

  lemma SteadyNumbers(e: End, cfg: Config)
    requires Steady(e, cfg)
    ensures e.peer.nextId % 2 == OwnParity(e.peer.dialer)
  {
    hide Bounded, Afloat;
  }

  lemma WholeIsYielded(f: Frame, cap: nat, codec: Codec)
    requires 2 <= cap && L.Fits(codec, f, cap)
    ensures F.Resume(F.Start(f), cap, codec) == F.Yield(f, F.Finished)
  {
    hide F.ResumeSlicing;
  }

  lemma FitsIsSize(codec: Codec, f: Frame, cap: nat)
    requires L.Fits(codec, f, cap)
    ensures SizeOf(codec, f) <= cap
  {
  }

  /** What a whole `open` does to a peer that has room for it and a handler. */
  lemma WholeIsCreated(p: Peer, x: nat, size: nat, cfg: Config)
    requires p.isOpen && !p.failed && p.handler && !p.goaway.sent && Admissible(p, x) && x !in p.objects && x !in p.live
    requires |RemoteLive(p)| < cfg.maxStreams && size <= cfg.cap
    ensures var p' := Receive(p, OpenOf(x, Null, None, false), size, cfg);
            && p'.isOpen && !p'.failed && p'.handler && !p'.goaway.sent && p'.highRemote == x && p'.dialer == p.dialer
            && p'.objects.Keys == p.objects.Keys + {x} && p'.live == p.live + {x}
            && RemoteLive(p') == RemoteLive(p) + {x}
  {
    hide Admissible, RemoteLive, StartHandler, Create;
    var f := OpenOf(x, Null, None, false);
    assert !ContinuesOpening(p, f);
    var s := S.NewStream(x, false, S.Open, None, None).(payload := Some(Null));
    assert Receive(p, f, size, cfg)
        == StartHandler(Create(p.(highRemote := x), s), x) by { CreateHas(p.(highRemote := x), s); }
    StartedIsLive(p, x, s);
  }

  lemma CreateHas(p: Peer, s: S.Stream)
    ensures s.id in Create(p, s).objects
  {
  }

  lemma StartedIsLive(p: Peer, x: nat, s: S.Stream)
    requires p.handler && !p.goaway.sent && s.id == x && s.state == S.Open && !s.local && x !in p.objects
      && x !in p.live
    requires x in Create(p.(highRemote := x), s).objects
    ensures var p' := StartHandler(Create(p.(highRemote := x), s), x);
            && p' == p.(highRemote := x, objects := p.objects[x := s.(started := true)], live := p.live + {x})
            && RemoteLive(p') == RemoteLive(p) + {x}
  {
    assert p.objects[x := s][x := s.(started := true)] == p.objects[x := s.(started := true)];
  }

  /** What the delivery does at `b`. */
  lemma WholeIsTakenIn(d: Duplex, d2: Duplex, x: nat, n: nat)
    requires Quiet(d, x) && Serving(d, n) && n < d.cb.maxStreams
    requires FirstSent(d, d2, x, OpenOf(x, Null, None, false), F.Finished)
    requires SizeOf(d.ca.codec, OpenOf(x, Null, None, false)) <= d.cb.cap
    ensures var d3 := Happen(d2, AtB(Deliver));
            && d3.a == d2.a && d3.ra == d2.ra + 1 && d3.ca == d.ca && d3.cb == d.cb
            && Serving(d3, n + 1)
            && d3.b.peer.isOpen && !d3.b.peer.failed && d3.b.peer.highRemote == x && d3.b.peer.dialer == d.b.peer.dialer
            && d3.b.peer.objects.Keys == d.b.peer.objects.Keys + {x} && d3.b.peer.live == d.b.peer.live + {x}
  {
    hide Joined, Receive, RemoteLive, Admissible;
    var f := OpenOf(x, Null, None, false);
    assert d2.a.log[d2.ra] == f;
    WholeIsCreated(d.b.peer, x, SizeOf(d.ca.codec, f), d.cb);
    assert x !in RemoteLive(d.b.peer) by { RemoteIsLive(d.b.peer, x); }
  }

  lemma RemoteIsLive(p: Peer, x: nat)
    requires x !in p.live
    ensures x !in RemoteLive(p)
  {
  }

  /** Slicing ahead finds nothing, and the next turn retires the lane. */
  lemma NothingIsLeft(d: Duplex, x: nat)
    requires 0 < x && d.a.peer.writer == Sending(x, F.Finished) && d.a.inFlight == Some(x) && d.a.peer.isOpen
    ensures var d' := Happen(Happen(d, AtA(Do(Taken(x)))), AtA(Do(Take)));
            d' == d.(a := d.a.(peer := d.a.peer.(writer := NEW_WRITER), inFlight := None))
  {
    var w := d.a.peer.writer;
    var g: F.Generator := F.Finished;
    assert Prepare(Lane([], None, Some(g)), d.ca.cap, d.ca.codec) == Ready(EMPTY_LANE);
    var w1 := w.(queues := map[x := EMPTY_LANE]);
    assert w.queues[x := EMPTY_LANE] == map[x := EMPTY_LANE];
    assert Advance(w, x, d.ca.cap, d.ca.codec) == (w1, Nothing);
    EmptyLaneRetires(w1, x, d.ca.cap, d.ca.codec);
  }

  lemma EmptyLaneRetires(w: Writer, x: nat, cap: nat, codec: Codec)
    requires 0 < x && w == Writer(map[x := EMPTY_LANE], [x], false, true, false)
    ensures NextFrame(w, cap, codec) == (NEW_WRITER, Nothing)
  {
    var moved := Rotated(w);
    assert moved == w;
    assert Prepare(EMPTY_LANE, cap, codec) == Ready(EMPTY_LANE);
    var gone := Retire(w.(queues := w.queues[x := EMPTY_LANE]), x);
    assert w.queues[x := EMPTY_LANE] - {x} == map[];
    assert Without([x], x) == [];
    assert AskLane(moved, x, cap, codec) == (gone, Nothing);
    assert Rotate(w, 1, cap, codec) == Rotate(gone, 0, cap, codec);
  }

  lemma QuietAgain(d: Duplex, d3: Duplex, d5: Duplex, x: nat, n: nat)
    requires Quiet(d, x) && Joined(d5) && x + 2 <= MAX_STREAM_ID && Serving(d3, n + 1)
    requires d5 == d3.(a := d3.a.(peer := d3.a.peer.(writer := NEW_WRITER), inFlight := None))
    requires d3.a.peer.isOpen && d3.a.peer.goaway == d.a.peer.goaway && d3.a.peer.nextId == x + 2 && d3.a.peer.dialer
    requires d3.a.log == d.a.log + [OpenOf(x, Null, None, false)] && d3.ra == d.ra + 1
    requires d3.b.peer.isOpen && !d3.b.peer.failed && d3.b.peer.highRemote == x && d3.b.peer.dialer == d.b.peer.dialer
    requires d3.b.peer.objects.Keys == d.b.peer.objects.Keys + {x} && d3.b.peer.live == d.b.peer.live + {x}
    ensures Quiet(d5, x + 2) && Serving(d5, n + 1)
  {
    hide Joined;
    W.FlipJoined(d);
    BeyondIsNew(Flip(d), x);
  }

  /** No stream of the other end's is named above the mark. */
  lemma BeyondIsNew(d: Duplex, x: nat)
    requires Joined(d) && Admissible(d.a.peer, x)
    ensures x + 2 !in d.a.peer.objects && x + 2 !in d.a.peer.live
  {
    hide Joined, Bounded, Afloat, Listed;
    JoinedSteady(d);
    assert x + 2 in d.a.peer.objects ==> Kept(d.a.peer, x + 2, d.a.peer.objects[x + 2], d.ca);
  }

  // ------------------------------------------------------------ up to the limit

  /** Events after which an acceptor with a handler holds `n` of the dialer's streams, and the pair is quiet. */
  lemma {:induction false} FillsUp(ca: Config, cb: Config, n: nat) returns (events: seq<Event>)
    requires ca.codec == cb.codec && ca.cap == cb.cap && Lawful(ca.codec) && 2 <= ca.cap
    requires n <= cb.maxStreams && 2 * n + 1 <= MAX_STREAM_ID
    requires forall x: nat :: x <= MAX_STREAM_ID ==> L.Fits(ca.codec, OpenOf(x, Null, None, false), ca.cap)
    ensures var d := Run(Start(ca, cb), events);
            Quiet(d, 2 * n + 1) && Serving(d, n) && d.ca == ca && d.cb == cb
  {
    hide Quiet, Serving, Run, Lawful, L.Fits;
    if n == 0 {
      events := [AtB(Do(Register))];
      RunOne(Start(ca, cb), AtB(Do(Register)));
      RegisteredIsQuiet(ca, cb);
    } else {
      var before := FillsUp(ca, cb, n - 1);
      var d := Run(Start(ca, cb), before);
      var x := 2 * n - 1;
      assert L.Fits(ca.codec, OpenOf(x, Null, None, false), ca.cap);
      TakesOneIn(d, x, n - 1);
      events := before + OpenEvents(Null) + AfterEvents(x);
      RunAppend(Start(ca, cb), before + OpenEvents(Null), AfterEvents(x));
      RunAppend(Start(ca, cb), before, OpenEvents(Null));
    }
  }

  lemma RegisteredIsQuiet(ca: Config, cb: Config)
    requires ca.codec == cb.codec && ca.cap == cb.cap && Lawful(ca.codec)
    ensures var d := Happen(Start(ca, cb), AtB(Do(Register)));
            Quiet(d, 1) && Serving(d, 0) && d.ca == ca && d.cb == cb
  {
    hide Joined, Lawful;
    StartJoined(ca, cb);
    HappenJoined(Start(ca, cb), AtB(Do(Register)));
    assert RemoteLive(NewPeer(false).(handler := true)) == {};
  }

  // ------------------------------------------------------------ the refusal

  /** At its limit, `b` refuses a fragmented `open` at its first fragment. */
  lemma FirstIsRefused(d: Duplex, x: nat, first: Frame)
    requires Joined(Flip(d)) && CanRead(Flip(d)) && Head(Flip(d)) == first
    requires d.cb.maxStreams <= |RemoteLive(d.b.peer)| && Admissible(d.b.peer, x) && x !in d.b.peer.live
    requires first.kind == OpenFrame && first.stream == Some(x) && first.fragment.Some? && first.more
    ensures var d3 := Happen(d, AtB(Deliver));
            && d3.a == d.a && d3.ca == d.ca && d3.cb == d.cb && d3.ra == d.ra + 1
            && x in d3.b.peer.cut && d3.b.peer.isOpen && !d3.b.peer.failed
  {
    hide Joined, QueueReset, FeedOpening, StartHandler, RemoteLive, Admissible, Steady;
    DispatchedAt(Flip(d));
    RefusedKeepsOpen(d.b.peer.(highRemote := x), x, REFUSED);
    assert !ContinuesOpening(d.b.peer, first);
  }

  lemma RefusedKeepsOpen(p: Peer, id: nat, code: int)
    ensures var q := QueueReset(p, id, code);
            q.isOpen == p.isOpen && q.failed == p.failed && q.cut == p.cut
  {
    hide Enqueue;
  }

  /** The lane's next fragment follows. */
  lemma SecondFollows(d: Duplex, x: nat, rest: F.Generator, second: Frame, last: F.Generator)
    requires 0 < x && d.a.inFlight == Some(x) && d.a.peer.isOpen && d.a.peer.writer == Sending(x, rest)
    requires F.Resume(rest, d.ca.cap, d.ca.codec) == F.Yield(second, last)
    ensures var d5 := Happen(Happen(d, AtA(Do(Taken(x)))), AtA(Do(Take)));
            d5 == d.(a := d5.a) && d5.a.log == d.a.log + [second]
  {
    hide F.Resume, NextFrame;
    var d4 := Happen(d, AtA(Do(Taken(x))));
    var w := d.a.peer.writer;
    assert Prepare(w.queues[x], d.ca.cap, d.ca.codec) == Ready(Lane([], Some(second), Some(last)));
    var w4 := d4.a.peer.writer;
    assert w4.order == [x] && w4.queues[x] == Lane([], Some(second), Some(last)) && !w4.stopped;
    OneLaneSends(w4, x, second, d.ca.cap, d.ca.codec);
  }

  function RefusalEvents(x: nat, v: Value): seq<Event> {
    OpenEvents(v) + AfterEvents(x) + [AtB(Deliver)]
  }

  /** From a quiet pair whose acceptor is at its limit: an `open` cut in two fails the connection. */
  lemma CutOpenFails(d: Duplex, x: nat, v: Value)
    requires Quiet(d, x) && d.cb.maxStreams <= |RemoteLive(d.b.peer)|
    requires 2 <= |F.SplitFrame(OpenOf(x, v, None, false), d.ca.cap, d.ca.codec).frames|
    ensures Run(d, RefusalEvents(x, v)).b.peer.failed
  {
    hide Quiet, Joined, Step, Receive, F.Resume, RemoteLive, Admissible, F.SplitFrame, CutHead;
    var f := OpenOf(x, v, None, false);
    var first, rest, second, last := TwoFragments(f, d.ca.cap, d.ca.codec);
    QuietJoined(d, x);
    QuietOffers(d, x);
    OpenFragments(x, v, false, first, rest, d.ca.cap, d.ca.codec);
    FirstIsSent(d, x, v, false, first, rest);
    var d1 := Happen(d, AtA(Do(Open(v, None, false))));
    var d2 := Happen(d1, AtA(Do(Take)));
    var d3 := Happen(d2, AtB(Deliver));
    var d4 := Happen(d3, AtA(Do(Taken(x))));
    var d5 := Happen(d4, AtA(Do(Take)));
    HappenJoined(d, AtA(Do(Open(v, None, false))));
    HappenJoined(d1, AtA(Do(Take)));
    HappenJoined(d2, AtB(Deliver));
    HappenJoined(d3, AtA(Do(Taken(x))));
    HappenJoined(d4, AtA(Do(Take)));
    W.FlipJoined(d2);
    FirstIsRefused(d2, x, first);
    SecondFollows(d3, x, rest, second, last);
    YieldOnLane(rest, x, Side(true, d.ca.cap, d.ca.codec));
    ResumeKeepsKind(rest, d.ca.cap, d.ca.codec);
    W.FlipJoined(d5);
    DeliverJoined(Flip(d5));
    RunThree(d, AtA(Do(Open(v, None, false))), AtA(Do(Take)), AtB(Deliver));
    RunTwo(d3, AtA(Do(Taken(x))), AtA(Do(Take)));
    RunOne(d5, AtB(Deliver));
    RunAppend(d, OpenEvents(v) + AfterEvents(x), [AtB(Deliver)]);
    RunAppend(d, OpenEvents(v), AfterEvents(x));
  }

  lemma QuietOffers(d: Duplex, x: nat)
    requires Quiet(d, x)
    ensures d.ra == |d.a.log| && d.b.peer.isOpen && !d.b.peer.failed && Admissible(d.b.peer, x) && x !in d.b.peer.live
  {
    hide Joined, Admissible;
  }

  /** A frame split in two or more yields a first fragment that says more follow, and a second. */
  lemma TwoFragments(f: Frame, cap: nat, codec: Codec) returns (first: Frame, rest: F.Generator, second: Frame,
                                                                last: F.Generator)
    requires 2 <= |F.SplitFrame(f, cap, codec).frames|
    ensures F.Resume(F.Start(f), cap, codec) == F.Yield(first, rest)
      && F.Resume(rest, cap, codec) == F.Yield(second, last)
    ensures first.fragment.Some? && first.more
  {
    hide F.MiddleCount, F.Cuttable, F.Slice;
    var g: F.Generator := F.Start(f);
    var resumed := F.Resume(g, cap, codec);
    first, rest := resumed.frame, resumed.rest;
    assert F.Drain(F.Finished, cap, codec) == F.Split([], None);
    assert F.SplitFrame(f, cap, codec).frames == [first] + F.Drain(rest, cap, codec).frames;
    var again := F.Resume(rest, cap, codec);
    assert F.Drain(rest, cap, codec).frames != [];
    second, last := again.frame, again.rest;
  }

  /** An acceptor at any limit: the dialer fills it, and then opens a stream whose `open` is cut in two. */
  lemma RefusedOpeningFails(ca: Config, cb: Config, v: Value) returns (events: seq<Event>)
    requires ca.codec == cb.codec && ca.cap == cb.cap && Lawful(ca.codec) && 2 <= ca.cap
      && 2 * cb.maxStreams + 1 <= MAX_STREAM_ID
    requires forall x: nat :: x <= MAX_STREAM_ID ==> L.Fits(ca.codec, OpenOf(x, Null, None, false), ca.cap)
    requires 2 <= |F.SplitFrame(OpenOf(2 * cb.maxStreams + 1, v, None, false), ca.cap, ca.codec).frames|
    ensures Run(Start(ca, cb), events).b.peer.failed
  {
    hide Run, Quiet, Lawful, F.SplitFrame, L.Fits;
    var x := 2 * cb.maxStreams + 1;
    var before := FillsUp(ca, cb, cb.maxStreams);
    CutOpenFails(Run(Start(ca, cb), before), x, v);
    events := before + RefusalEvents(x, v);
    RunAppend(Start(ca, cb), before, RefusalEvents(x, v));
  }
}
