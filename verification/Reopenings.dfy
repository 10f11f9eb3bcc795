/** The run in which the two ends of a stream come to differ: the opener ends the stream in an `open` that is cut in
    two, the other application ends it between the two fragments, and the second fragment lets it send again. */
module Reopenings {
  import opened Frames
  import opened Codecs
  import opened WriterModel
  import opened PeerModel
  import opened PeerInvariant
  import opened Ends
  import opened Conversation
  import opened DuplexModel
  import opened DuplexMoves
  import opened DuplexLaws
  import opened Refusals
  import A = Assembly
  import F = Fragmenter
  import L = SplitLaws
  import S = StreamModel
  import E = Endings

  // ------------------------------------------------------------ the opener

  function Source(v: Value): Frame {
    OpenOf(1, v, None, true)
  }

  /** The opener once it has sent a fragment: `log` so far, `rest` to come. */
  function Opener(v: Value, log: seq<Frame>, rest: F.Generator): End {
    End(OpenStream(NewPeer(true), v, None, true).(writer := Sending(1, rest)), log, Some(1), map[1 := Opened(v, true)])
  }

  lemma OpenerSends(v: Value, first: Frame, rest: F.Generator, cfg: Config)
    requires F.Resume(F.Start(Source(v)), cfg.cap, cfg.codec) == F.Yield(first, rest) && LaneOf(first) == 1
    ensures Step(Step(NewEnd(true), Open(v, None, true), cfg), Take, cfg) == Opener(v, [first], rest)
  {
    hide F.Resume, NextFrame;
    var begun := OpenStream(NewPeer(true), v, None, true);
    assert [] + [Source(v)] == [Source(v)];
    assert begun.writer == Writer(map[1 := Lane([Source(v)], None, None)], [1], false, true, false);
    var w := begun.writer;
    assert Prepare(w.queues[1], cfg.cap, cfg.codec) == Ready(Lane([], Some(first), Some(rest)));
    OneLaneSends(w, 1, first, cfg.cap, cfg.codec);
    assert w.queues[1 := Lane([], None, Some(rest))] == map[1 := Lane([], None, Some(rest))];
    var e := Step(NewEnd(true), Open(v, None, true), cfg);
    assert e == End(begun, [], None, map[1 := Opened(v, true)]);
    assert [] + [first] == [first];
  }

  lemma OpenerFollows(v: Value, first: Frame, rest: F.Generator, second: Frame, last: F.Generator, cfg: Config)
    requires F.Resume(rest, cfg.cap, cfg.codec) == F.Yield(second, last) && LaneOf(second) == 1
    ensures Step(Step(Opener(v, [first], rest), Taken(1), cfg), Take, cfg) == Opener(v, [first, second], last)
  {
    hide F.Resume, NextFrame, OpenStream;
    var e := Opener(v, [first], rest);
    var w := e.peer.writer;
    var ready := Lane([], Some(second), Some(last));
    assert Prepare(w.queues[1], cfg.cap, cfg.codec) == Ready(ready);
    var e1 := Step(e, Taken(1), cfg);
    var w1 := w.(queues := w.queues[1 := ready], wake := true);
    assert Advance(w, 1, cfg.cap, cfg.codec) == (w1, Nothing);
    assert e1 == e.(peer := e.peer.(writer := w1), inFlight := None);
    OneLaneSends(w1, 1, second, cfg.cap, cfg.codec);
    assert w1.queues[1 := Lane([], None, Some(last))] == map[1 := Lane([], None, Some(last))];
    assert [first] + [second] == [first, second];
  }

  // ------------------------------------------------------------ the other application

  function Waiting(): Peer {
    NewPeer(false).(handler := true)
  }

  /** The stream between the two fragments. */
  function HalfOpen(first: Frame, codec: Codec): S.Stream {
    S.NewStream(1, false, S.Open, first.headers, None).(opening := true, partial := A.Feed(A.NOTHING, first, codec).0)
  }

  lemma FirstIsTakenIn(first: Frame, size: nat, cfg: Config)
    requires first.kind == OpenFrame && first.stream == Some(1) && first.fragment.Some? && !first.end && size <= cfg.cap
    requires 0 < cfg.maxStreams && |first.fragment.value.bytes| <= cfg.maxPayload
    requires A.Feed(A.NOTHING, first, cfg.codec).1 == A.Pending
    ensures Receive(Waiting(), first, size, cfg)
         == Waiting().(highRemote := 1, objects := map[1 := HalfOpen(first, cfg.codec)], live := {1})
  {
    hide A.Feed;
    var p := Waiting();
    assert RemoteLive(p) == {};
    var s := S.NewStream(1, false, S.Open, first.headers, None).(opening := true);
    var q := Create(p.(highRemote := 1), s);
    assert q.objects == map[1 := s] && q.live == {1};
    assert map[1 := s][1 := HalfOpen(first, cfg.codec)] == map[1 := HalfOpen(first, cfg.codec)];
    assert Receive(p, first, size, cfg) == FeedOpening(q, 1, first, false, cfg);
  }

  function Reply(w: Value): Frame {
    DataOf(1, Some(w), None, true, None)
  }

  /** The stream ended while it was opening. */
  function EndedHalfOpen(first: Frame, codec: Codec): S.Stream {
    HalfOpen(first, codec).(state := S.HalfClosedLocal, sentAFrame := true)
  }

  function Answered(first: Frame, w: Value, codec: Codec): Peer {
    Waiting().(highRemote := 1, objects := map[1 := EndedHalfOpen(first, codec)], live := {1},
               writer := Writer(map[1 := Lane([Reply(w)], None, None)], [1], false, true, false))
  }

  lemma EndIsSaid(first: Frame, w: Value, cfg: Config)
    ensures var e := NewEnd(false).(peer := Waiting().(highRemote := 1,
                                                       objects := map[1 := HalfOpen(first, cfg.codec)], live := {1}));
            Step(e, Send(1, Some(w), None, true, None), cfg)
            == e.(peer := Answered(first, w, cfg.codec), said := map[1 := Words([w], None, true, true, [], None)])
  {
    hide A.Feed;
    var s, t := HalfOpen(first, cfg.codec), EndedHalfOpen(first, cfg.codec);
    assert map[1 := s][1 := t] == map[1 := t];
    assert [] + [Reply(w)] == [Reply(w)];
    assert [] + [w] == [w];
  }

  /** The stream after the second fragment: it may send again. */
  function SentAgain(first: Frame, v: Value, codec: Codec): S.Stream {
    EndedHalfOpen(first, codec).(partial := A.NOTHING, opening := false, payload := Some(v),
                                 state := S.HalfClosedRemote, started := true)
  }

  lemma SecondIsTakenIn(first: Frame, second: Frame, v: Value, w: Value, size: nat, cfg: Config)
    requires second.kind == OpenFrame && second.stream == Some(1) && second.fragment.Some? && second.end
      && size <= cfg.cap
    requires A.Feed(A.Feed(A.NOTHING, first, cfg.codec).0, second, cfg.codec) == (A.NOTHING, A.Decoded(v))
    requires A.Feed(A.NOTHING, first, cfg.codec).0.bytes + |second.fragment.value.bytes| <= cfg.maxPayload
    ensures Receive(Answered(first, w, cfg.codec), second, size, cfg)
         == Answered(first, w, cfg.codec).(objects := map[1 := SentAgain(first, v, cfg.codec)])
  {
    hide A.Feed;
    var p := Answered(first, w, cfg.codec);
    var s := EndedHalfOpen(first, cfg.codec);
    assert ContinuesOpening(p, second);
    var fed := s.(partial := A.NOTHING);
    assert map[1 := s][1 := fed] == map[1 := fed];
    assert Absorb(p, 1, second, cfg) == (p.(objects := map[1 := fed]), Some(v));
    var done := Completed(fed, Some(v), true);
    assert map[1 := fed][1 := done] == map[1 := done]
        && map[1 := done][1 := done.(started := true)] == map[1 := done.(started := true)];
    assert FeedOpening(p, 1, second, true, cfg) == StartHandler(p.(objects := map[1 := done]), 1);
  }

  lemma ReplyIsSent(first: Frame, v: Value, w: Value, said: map<nat, Words>, cfg: Config)
    requires 2 <= cfg.cap && L.Fits(cfg.codec, Reply(w), cfg.cap)
    ensures var p := Answered(first, w, cfg.codec).(objects := map[1 := SentAgain(first, v, cfg.codec)]);
            Step(NewEnd(false).(peer := p, said := said), Take, cfg)
            == End(p.(writer := Sending(1, F.Finished)), [Reply(w)], Some(1), said)
  {
    hide A.Feed, NextFrame, F.Resume;
    var p := Answered(first, w, cfg.codec).(objects := map[1 := SentAgain(first, v, cfg.codec)]);
    WholeIsYielded(Reply(w), cfg.cap, cfg.codec);
    assert Prepare(p.writer.queues[1], cfg.cap, cfg.codec) == Ready(Lane([], Some(Reply(w)), Some(F.Finished)));
    OneLaneSends(p.writer, 1, Reply(w), cfg.cap, cfg.codec);
    assert p.writer.queues[1 := Lane([], None, Some(F.Finished))] == map[1 := Lane([], None, Some(F.Finished))];
    assert [] + [Reply(w)] == [Reply(w)];
  }

  /** The opener hears the end, and its stream closes. */
  lemma ReplyCloses(v: Value, w: Value, log: seq<Frame>, rest: F.Generator, size: nat, cfg: Config)
    requires size <= cfg.cap
    ensures var p := Opener(v, log, rest).peer;
            var p' := Receive(p, Reply(w), size, cfg);
            && 1 in p'.objects && p'.objects[1].cause == S.Normally && p'.objects[1].state == S.Closed && p'.live == {}
            && p'.isOpen && p'.writer == p.writer
  {
    var p := Opener(v, log, rest).peer;
    assert p.objects[1] == S.NewStream(1, true, S.HalfClosedLocal, None, Some(v));
  }

  // ------------------------------------------------------------ the run

  function Events(v: Value, w: Value): seq<Event> {
    [AtB(Do(Register))] + [AtA(Do(Open(v, None, true))), AtA(Do(Take)), AtB(Deliver)]
        + [AtB(Do(Send(1, Some(w), None, true, None)))]
    + [AtA(Do(Taken(1))), AtA(Do(Take)), AtB(Deliver)] + [AtB(Do(Take)), AtA(Deliver)]
  }

  lemma EventsRun(d: Duplex, v: Value, w: Value)
    ensures var d1 := Happen(d, AtB(Do(Register)));
            var d2 := Happen(Happen(d1, AtA(Do(Open(v, None, true)))), AtA(Do(Take)));
            var d3 := Happen(Happen(d2, AtB(Deliver)), AtB(Do(Send(1, Some(w), None, true, None))));
            var d4 := Happen(Happen(d3, AtA(Do(Taken(1)))), AtA(Do(Take)));
            var d5 := Happen(Happen(d4, AtB(Deliver)), AtB(Do(Take)));
            Run(d, Events(v, w)) == Happen(d5, AtA(Deliver))
  {
    hide Happen, Run;
    var e1, e2, e3 := [AtB(Do(Register))], [AtA(Do(Open(v, None, true))), AtA(Do(Take)), AtB(Deliver)],
        [AtB(Do(Send(1, Some(w), None, true, None)))];
    var e4, e5 := [AtA(Do(Taken(1))), AtA(Do(Take)), AtB(Deliver)], [AtB(Do(Take)), AtA(Deliver)];
    RunAppend(d, e1 + e2 + e3 + e4, e5);
    RunAppend(d, e1 + e2 + e3, e4);
    RunAppend(d, e1 + e2, e3);
    RunAppend(d, e1, e2);
    RunOne(d, AtB(Do(Register)));
    var d1 := Run(d, e1);
    RunThree(d1, AtA(Do(Open(v, None, true))), AtA(Do(Take)), AtB(Deliver));
    RunOne(Run(d1, e2), AtB(Do(Send(1, Some(w), None, true, None))));
    var d3 := Run(Run(d1, e2), e3);
    RunThree(d3, AtA(Do(Taken(1))), AtA(Do(Take)), AtB(Deliver));
    RunTwo(Run(d3, e4), AtB(Do(Take)), AtA(Deliver));
  }

  /** The two fragments of an `open` that is cut in two. */
  ghost predicate CutInTwo(v: Value, first: Frame, rest: F.Generator, second: Frame, cap: nat, codec: Codec) {
    && F.Resume(F.Start(Source(v)), cap, codec) == F.Yield(first, rest)
          && F.Resume(rest, cap, codec) == F.Yield(second, F.Finished)
    && first.kind == second.kind == OpenFrame && first.stream == second.stream == Some(1)
    && first.fragment.Some? && second.fragment.Some? && !first.end && second.end
    && SizeOf(codec, first) <= cap && SizeOf(codec, second) <= cap
    && A.Feed(A.NOTHING, first, codec).1 == A.Pending
    && A.Feed(A.NOTHING, first, codec).0.bytes == |first.fragment.value.bytes|
    && A.Feed(A.Feed(A.NOTHING, first, codec).0, second, codec) == (A.NOTHING, A.Decoded(v))
  }

  lemma RunsToReopening(ca: Config, cb: Config, v: Value, w: Value, first: Frame, rest: F.Generator, second: Frame)
    requires ca.codec == cb.codec && ca.cap == cb.cap && 2 <= ca.cap && 0 < cb.maxStreams
    requires CutInTwo(v, first, rest, second, ca.cap, ca.codec) && L.Fits(ca.codec, Reply(w), ca.cap)
    requires |first.fragment.value.bytes| + |second.fragment.value.bytes| <= cb.maxPayload
    ensures var d := Run(Start(ca, cb), Events(v, w));
            && 1 in d.a.peer.objects && d.a.peer.objects[1].cause == S.Normally && d.a.peer.live == {}
                  && d.a.peer.isOpen
            && d.a.peer.writer == Sending(1, F.Finished) && d.a.log == [first, second] && d.ra == 2
                  && d.a.said == map[1 := Opened(v, true)]
            && d.b.peer == Answered(first, w, ca.codec).(objects := map[1 := SentAgain(first, v, ca.codec)],
                                                         writer := Sending(1, F.Finished))
            && d.b.log == [Reply(w)] && d.rb == 1 && d.b.said == map[1 := Words([w], None, true, true, [], None)]
  {
    hide Happen, Run, Answered, Opener, Receive, SentAgain, Sending, CutInTwo;
    EventsRun(Start(ca, cb), v, w);
    var said := map[1 := Words([w], None, true, true, [], None)];
    var d1 := Happen(Start(ca, cb), AtB(Do(Register)));
    UpToTheEnd(ca, cb, v, w, first, rest, second);
    var d3 := Duplex(Opener(v, [first], rest), End(Answered(first, w, ca.codec), [], None, said), 1, 0, ca, cb);
    FromTheEnd(d3, v, w, first, rest, second);
    OpenerIs(v, [first, second], F.Finished);
    var d5 := Duplex(Opener(v, [first, second], F.Finished),
                     End(Answered(first, w, ca.codec).(objects := map[1 := SentAgain(first, v, ca.codec)],
                                                       writer := Sending(1, F.Finished)), [Reply(w)], Some(1), said),
                                                           2, 0, ca, cb);
    DeliversA(d5);
    FitsIsSize(ca.codec, Reply(w), ca.cap);
    ReplyCloses(v, w, [first, second], F.Finished, SizeOf(ca.codec, Reply(w)), ca);
  }

  lemma DeliversA(d: Duplex)
    requires d.a.peer.isOpen && !d.a.peer.failed && d.rb < |d.b.log|
    ensures var f := d.b.log[d.rb];
            Happen(d, AtA(Deliver)) == d.(a := d.a.(peer := Receive(d.a.peer, f, SizeOf(d.cb.codec, f), d.ca)),
                                          rb := d.rb + 1)
  {
    hide Receive;
  }

  lemma DeliversB(d: Duplex)
    requires d.b.peer.isOpen && !d.b.peer.failed && d.ra < |d.a.log|
    ensures var f := d.a.log[d.ra];
            Happen(d, AtB(Deliver)) == d.(b := d.b.(peer := Receive(d.b.peer, f, SizeOf(d.ca.codec, f), d.cb)),
                                          ra := d.ra + 1)
  {
    hide Receive;
  }

  lemma ActsA(d: Duplex, a: Action)
    requires !a.Read?
    ensures Happen(d, AtA(Do(a))) == d.(a := Step(d.a, a, d.ca))
  {
    hide Step;
  }

  lemma ActsB(d: Duplex, a: Action)
    requires !a.Read?
    ensures Happen(d, AtB(Do(a))) == d.(b := Step(d.b, a, d.cb))
  {
    hide Step;
  }

  lemma AnsweredIsOpen(first: Frame, w: Value, codec: Codec)
    ensures Answered(first, w, codec).isOpen && !Answered(first, w, codec).failed && Waiting().isOpen
      && !Waiting().failed
    ensures Answered(first, w, codec).live == {1}
  {
    hide A.Feed;
  }

  lemma UpToTheEnd(ca: Config, cb: Config, v: Value, w: Value, first: Frame, rest: F.Generator, second: Frame)
    requires ca.codec == cb.codec && ca.cap == cb.cap && 0 < cb.maxStreams
    requires CutInTwo(v, first, rest, second, ca.cap, ca.codec) && |first.fragment.value.bytes| <= cb.maxPayload
    ensures var d1 := Happen(Start(ca, cb), AtB(Do(Register)));
            var d2 := Happen(Happen(d1, AtA(Do(Open(v, None, true)))), AtA(Do(Take)));
            var said := map[1 := Words([w], None, true, true, [], None)];
            Happen(Happen(d2, AtB(Deliver)), AtB(Do(Send(1, Some(w), None, true, None))))
            == Duplex(Opener(v, [first], rest), End(Answered(first, w, ca.codec), [], None, said), 1, 0, ca, cb)
  {
    hide Happen, Answered, Opener, Receive, Step, A.Feed, F.Resume;
    var d0 := Start(ca, cb);
    ActsB(d0, Register);
    RegisterIs(NewEnd(false), cb);
    var d1 := Happen(d0, AtB(Do(Register)));
    ActsA(d1, Open(v, None, true));
    ActsA(Happen(d1, AtA(Do(Open(v, None, true)))), Take);
    OpenerSends(v, first, rest, ca);
    OpenerIs(v, [first], rest);
    var d2 := Happen(Happen(d1, AtA(Do(Open(v, None, true)))), AtA(Do(Take)));
    AnsweredIsOpen(first, w, ca.codec);
    DeliversB(d2);
    FirstIsTakenIn(first, SizeOf(ca.codec, first), cb);
    ActsB(Happen(d2, AtB(Deliver)), Send(1, Some(w), None, true, None));
    EndIsSaid(first, w, cb);
  }

  lemma FromTheEnd(d: Duplex, v: Value, w: Value, first: Frame, rest: F.Generator, second: Frame)
    requires d.ca.codec == d.cb.codec && d.ca.cap == d.cb.cap && 2 <= d.ca.cap
    requires CutInTwo(v, first, rest, second, d.ca.cap, d.ca.codec) && L.Fits(d.ca.codec, Reply(w), d.ca.cap)
    requires |first.fragment.value.bytes| + |second.fragment.value.bytes| <= d.cb.maxPayload
    requires d.a == Opener(v, [first], rest) && d.ra == 1
    requires d.b == End(Answered(first, w, d.ca.codec), [], None, d.b.said)
    ensures var d4 := Happen(Happen(d, AtA(Do(Taken(1)))), AtA(Do(Take)));
            Happen(Happen(d4, AtB(Deliver)), AtB(Do(Take)))
            == d.(a := Opener(v, [first, second], F.Finished), ra := 2,
                  b := End(Answered(first, w, d.ca.codec).(objects := map[1 := SentAgain(first, v, d.ca.codec)],
                                                           writer := Sending(1, F.Finished)), [Reply(w)], Some(1),
                                                               d.b.said))
  {
    hide Happen, Answered, Opener, Receive, Step, A.Feed, F.Resume, SentAgain, Sending, L.Fits;
    ActsA(d, Taken(1));
    ActsA(Happen(d, AtA(Do(Taken(1)))), Take);
    OpenerFollows(v, first, rest, second, F.Finished, d.ca);
    OpenerIs(v, [first, second], F.Finished);
    var d4 := Happen(Happen(d, AtA(Do(Taken(1)))), AtA(Do(Take)));
    AnsweredIsOpen(first, w, d.ca.codec);
    DeliversB(d4);
    SecondIsTakenIn(first, second, v, w, SizeOf(d.ca.codec, second), d.cb);
    ActsB(Happen(d4, AtB(Deliver)), Take);
    ReplyIsSent(first, v, w, d.b.said, d.cb);
  }

  lemma RegisterIs(e: End, cfg: Config)
    ensures Step(e, Register, cfg) == e.(peer := e.peer.(handler := true))
  {
  }

  lemma OpenerIs(v: Value, log: seq<Frame>, rest: F.Generator)
    ensures Opener(v, log, rest).log == log && Opener(v, log, rest).peer.isOpen && !Opener(v, log, rest).peer.failed
    ensures Opener(v, log, rest).said == map[1 := Opened(v, true)]
      && Opener(v, log, rest).peer.writer == Sending(1, rest)
  {
  }

  lemma DrainedIsFinished(g: F.Generator, cap: nat, codec: Codec)
    requires F.Drain(g, cap, codec) == F.Split([], None)
    ensures g == F.Finished
  {
    hide F.MiddleCount, F.Piece, F.Closing;
  }

  /** An `open` that splits into two frames is cut in two. */
  lemma TwoFrames(v: Value, whole: Chunk, cap: nat, codec: Codec) returns (first: Frame, rest: F.Generator,
      second: Frame)
    requires Lawful(codec) && codec.encodePayload(v) == Some(whole)
    requires var split := F.SplitFrame(Source(v), cap, codec); split.error.None? && |split.frames| == 2
    ensures CutInTwo(v, first, rest, second, cap, codec)
    ensures |first.fragment.value.bytes| + |second.fragment.value.bytes| == |whole.bytes|
  {
    hide F.Resume, F.SplitFrame, Lawful;
    var last: F.Generator;
    first, rest, second, last := TwoFragments(Source(v), cap, codec);
    TwoDrained(Source(v), first, rest, second, last, cap, codec);
    A.SplitRoundTrip(Source(v), cap, codec);
    PairFeeds(first, second, v, codec);
    PairCarries(first, second);
    assert [first, second][0] == first && [first, second][1] == second;
  }

  lemma TwoDrained(source: Frame, first: Frame, rest: F.Generator, second: Frame, last: F.Generator, cap: nat,
                   codec: Codec)
    requires F.Resume(F.Start(source), cap, codec) == F.Yield(first, rest)
      && F.Resume(rest, cap, codec) == F.Yield(second, last)
    requires var split := F.SplitFrame(source, cap, codec); split.error.None? && |split.frames| == 2
    ensures F.SplitFrame(source, cap, codec).frames == [first, second] && last == F.Finished
  {
    hide F.Resume;
    var g: F.Generator := F.Start(source);
    assert F.Drain(g, cap, codec).frames == [first] + F.Drain(rest, cap, codec).frames;
    assert F.Drain(rest, cap, codec).frames == [second] + F.Drain(last, cap, codec).frames;
    DrainedIsFinished(last, cap, codec);
  }

  lemma PairFeeds(first: Frame, second: Frame, v: Value, codec: Codec)
    requires A.YieldsAtTheEnd(A.FeedAll(A.NOTHING, [first, second], codec), 2, v)
    ensures A.Feed(A.NOTHING, first, codec).1 == A.Pending
    ensures A.Feed(A.Feed(A.NOTHING, first, codec).0, second, codec) == (A.NOTHING, A.Decoded(v))
    ensures first.fragment.Some? ==> A.Feed(A.NOTHING, first, codec).0.bytes == |first.fragment.value.bytes|
  {
    hide A.Feed;
    assert [first, second][1..] == [second] && [second][1..] == [];
    var (next, fed) := A.Feed(A.NOTHING, first, codec);
    var (end, after) := A.Feed(next, second, codec);
    assert A.FeedAll(end, [], codec) == (end, []);
    assert A.FeedAll(next, [second], codec) == (end, [after] + []);
    assert A.FeedAll(A.NOTHING, [first, second], codec) == (end, [fed] + ([after] + []));
    assert A.FeedAll(A.NOTHING, [first, second], codec).1[0] == A.Pending;
    PendingCounts(first, codec);
  }

  lemma PendingCounts(first: Frame, codec: Codec)
    ensures first.fragment.Some? && A.Feed(A.NOTHING, first, codec).1 == A.Pending ==>
              A.Feed(A.NOTHING, first, codec).0.bytes == |first.fragment.value.bytes|
  {
  }

  lemma PairCarries(first: Frame, second: Frame)
    requires first.fragment.Some? && second.fragment.Some?
    ensures |A.Carried([first, second])| == |first.fragment.value.bytes| + |second.fragment.value.bytes|
  {
    assert [first, second][1..] == [second] && [second][1..] == [];
    assert A.Carried([second]) == second.fragment.value.bytes + A.Carried([]);
    assert A.Carried([first, second]) == first.fragment.value.bytes + A.Carried([second]);
  }

  // ------------------------------------------------------------ the ends differ

  /** Everything has arrived on live connections and neither end reset the stream; its opener has closed it, and the
      other end may go on sending. */
  ghost predicate Differ(d: Duplex, x: nat) {
    && d.a.peer.isOpen && d.b.peer.isOpen && Arrived(d, x) && Arrived(Flip(d), x) && NeverReset(d.a, x)
          && NeverReset(d.b, x)
    && x !in d.a.peer.live && x in d.b.peer.live && x in d.b.peer.objects
    && d.b.peer.objects[x].started && S.MaySend(d.b.peer.objects[x], None) && E.BothEarly(d, x)
  }

  lemma DifferHere(d: Duplex, v: Value, w: Value, first: Frame, second: Frame, codec: Codec)
    requires 1 in d.a.peer.objects && d.a.peer.objects[1].cause == S.Normally && d.a.peer.live == {} && d.a.peer.isOpen
    requires d.a.peer.writer == Sending(1, F.Finished) && d.a.log == [first, second] && d.ra == 2
      && d.a.said == map[1 := Opened(v, true)]
    requires d.b.peer == Answered(first, w, codec).(objects := map[1 := SentAgain(first, v, codec)],
                                                    writer := Sending(1, F.Finished))
    requires d.b.log == [Reply(w)] && d.rb == 1 && d.b.said == map[1 := Words([w], None, true, true, [], None)]
    ensures Differ(d, 1)
  {
    hide A.Feed;
    assert Unread(d.a.log, d.ra) == [] && Unread(d.b.log, d.rb) == [];
    var g: F.Generator := F.Finished;
    assert Coming(Lane([], None, Some(g))) == [];
  }

  /** With any lawful codec under which the opener's `open` is cut in two, there is such a run, on the first stream. */
  lemma EarlyEndIsUndone(ca: Config, cb: Config, v: Value, whole: Chunk, w: Value) returns (events: seq<Event>)
    requires ca.codec == cb.codec && ca.cap == cb.cap && Lawful(ca.codec) && 2 <= ca.cap && 0 < cb.maxStreams
    requires ca.codec.encodePayload(v) == Some(whole) && |whole.bytes| <= cb.maxPayload
      && L.Fits(ca.codec, Reply(w), ca.cap)
    requires var split := F.SplitFrame(Source(v), ca.cap, ca.codec); split.error.None? && |split.frames| == 2
    ensures Differ(Run(Start(ca, cb), events), 1)
  {
    hide Run, F.SplitFrame, L.Fits, Lawful, CutInTwo;
    var first, rest, second := TwoFrames(v, whole, ca.cap, ca.codec);
    events := Events(v, w);
    RunsToReopening(ca, cb, v, w, first, rest, second);
    DifferHere(Run(Start(ca, cb), events), v, w, first, second, ca.codec);
  }
}
