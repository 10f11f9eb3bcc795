/** What ending a stream early costs.  An application may end a stream while its opening payload is incomplete; when
    that `open` carries the opener's end, its last fragment lets the application send again, and the opener hears none
    of it.  That is the one way a stream's two ends come to differ. */
module Endings {
  import opened Frames
  import opened Codecs
  import opened WriterModel
  import opened WriterFrames
  import opened PeerModel
  import opened PeerInvariant
  import opened PeerFrames
  import opened Outbound
  import opened Ends
  import opened Halves
  import opened Strands
  import opened Reception
  import opened DuplexModel
  import opened DuplexReading
  import opened DuplexLaws
  import F = Farewells
  import V = Lives
  import S = StreamModel
  import W = DuplexWriting

  // ------------------------------------------------------------ an `open` that carries the end says so

  /** The streams whose application ended them in their `open`, or before the other's was complete. */
  function Early(e: End): set<nat> {
    set x | x in e.said && e.said[x].early
  }

  function EndsEarly(early: set<nat>): Law {
    (x: nat, f: Frame) => f.kind == OpenFrame && f.end ==> LaneOf(f) in early
  }

  lemma EndsEarlyInherited(early: set<nat>, cap: nat, codec: Codec)
    ensures Inherited(EndsEarly(early), cap, codec) && Mild(EndsEarly(early)) && forall p ::
      AllowsGoaway(EndsEarly(early), p)
  {
  }

  lemma MoreEarly(early: set<nat>, early': set<nat>, w: Writer)
    requires Obeys(EndsEarly(early), w) && early <= early'
    ensures Obeys(EndsEarly(early'), w)
  {
    forall x | x in w.queues
      ensures LaneObeys(EndsEarly(early'), x, w.queues[x])
    {
      assert LaneObeys(EndsEarly(early), x, w.queues[x]);
    }
  }

  /** Every `open` of this end's that carries the end is of a stream its application ended in it. */
  ghost predicate Honest(e: End) {
    && Obeys(EndsEarly(Early(e)), e.peer.writer)
    && (forall i :: 0 <= i < |e.log| ==> EndsEarly(Early(e))(0, e.log[i]))
    && (forall x :: x in e.said && e.said[x].early ==> e.said[x].ended)
  }

  lemma EarlyGrows(e: End, a: Action, cfg: Config)
    requires Honest(e) && e.peer.nextId !in e.said
    ensures Early(e) <= Early(Step(e, a, cfg))
    ensures forall x :: x in Step(e, a, cfg).said && Step(e, a, cfg).said[x].early ==> Step(e, a, cfg).said[x].ended
    ensures a.Open? && MayOpen(e.peer) && a.end ==> e.peer.nextId in Early(Step(e, a, cfg))
  {
    hide Obeys, OpenStream, SendData, AppReset, HandlerError, QueueGoaway, Transmit, Transmitted, Receive, Die,
      S.MaySend, MayOpen, Act;
  }

  lemma StepHonest(e: End, a: Action, cfg: Config)
    requires Honest(e) && e.peer.nextId !in e.said
    ensures Honest(Step(e, a, cfg))
  {
    hide Obeys, Act, Step, Mild, Inherited, AllowsGoaway;
    var e' := Step(e, a, cfg);
    var early := Early(e');
    F.StepActs(e, a, cfg);
    EarlyGrows(e, a, cfg);
    EndsEarlyInherited(early, cfg.cap, cfg.codec);
    MoreEarly(Early(e), early, e.peer.writer);
    if a.Take? {
      TakeHonest(e, cfg);
    } else if e'.peer == Act(e.peer, a, cfg) {
      ActObeys(EndsEarly(early), e.peer, a, cfg);
    } else if e'.peer != e.peer {
      ActObeys(EndsEarly(early), e.peer, Taken(e.inFlight.value), cfg);
    }
  }

  lemma TakeHonest(e: End, cfg: Config)
    requires Honest(e)
    ensures Honest(Step(e, Take, cfg))
  {
    hide Obeys, Transmit, Mild, Inherited;
    if e.inFlight.None? {
      var law := EndsEarly(Early(e));
      EndsEarlyInherited(Early(e), cfg.cap, cfg.codec);
      TransmitObeys(law, e.peer, cfg);
      var (p, sent) := Transmit(e.peer, cfg);
      assert Early(Step(e, Take, cfg)) == Early(e);
      if sent.Some? {
        var x :| law(x, sent.value);
        assert law(0, sent.value);
      }
    }
  }

  // ------------------------------------------------------------ who may send again

  predicate SpokeAgain(w: Words) {
    w.after != [] || w.lateTrailers.Some?
  }

  /** It may send again after its end, or has. */
  predicate Again(e: End, x: nat) {
    Reopened(e, x) || SpokeAgain(SaidOn(e, x))
  }

  /** Whoever may send again has an opener that ended in its `open`. */
  ghost predicate Told(d: Duplex) {
    && Honest(d.a) && Honest(d.b)
    && (forall x: nat :: Again(d.a, x) ==> SaidOn(d.b, x).early)
    && (forall x: nat :: Again(d.b, x) ==> SaidOn(d.a, x).early)
  }

  lemma NextIsUnsaid(d: Duplex)
    requires Joined(d)
    ensures d.a.peer.nextId !in d.a.said && d.a.peer.nextId !in d.a.peer.objects
  {
    hide Joined, Proper, Fitting, Bounded, Afloat, Listed, S.Consistent;
    JoinedTuned(d);
    JoinedSteady(d);
    var id := d.a.peer.nextId;
    assert id in d.a.peer.objects ==> Kept(d.a.peer, id, d.a.peer.objects[id], d.ca);
  }

  lemma AgainLives(e: End, x: nat, cfg: Config)
    requires Sound(e.peer, cfg) && x in e.peer.objects && e.peer.objects[x].state == S.HalfClosedRemote
      && SaidOn(e, x).ended
    ensures Again(e, x)
  {
    hide S.Consistent, Listed;
  }

  /** No step of an end's own lets a stream send again. */
  lemma StepAgain(d: Duplex, a: Action, x: nat)
    requires Joined(d) && !a.Read? && Again(Step(d.a, a, d.ca), x)
    ensures Again(d.a, x)
  {
    hide Joined, Act, Step, Again, Proper, Fitting, Sound;
    var e, e' := d.a, Step(d.a, a, d.ca);
    JoinedSteady(d);
    JoinedTuned(d);
    NextIsUnsaid(d);
    StepLives(e, a, x, d.ca);
    StepSays(e, a, x, d.ca);
    if x in e.peer.objects { assert Fitting(e.peer.objects[x], SaidOn(e, x)); }
    AgainFrom(e, e', a, x, d.ca);
  }

  /** A stream half-closed by its remote was, and is no newer. */
  lemma StepLives(e: End, a: Action, x: nat, cfg: Config)
    requires Sound(e.peer, cfg) && Afloat(e.peer, e.log, cfg) && !a.Read?
    ensures var p' := Step(e, a, cfg).peer;
            x in p'.objects && p'.objects[x].state == S.HalfClosedRemote ==>
              x in e.peer.objects && e.peer.objects[x].state == S.HalfClosedRemote
  {
    hide Act, Step, Sound, V.Brings, V.Newborn, V.Continues, Tidy, Backed;
    F.StepActs(e, a, cfg);
    V.ActLives(e.peer, a, cfg);
    if a.Taken? && e.inFlight.Some? { V.ActLives(e.peer, Taken(e.inFlight.value), cfg); }
  }

  /** What a step adds to what was said. */
  lemma StepSays(e: End, a: Action, x: nat, cfg: Config)
    requires e.peer.nextId !in e.said
    ensures var e' := Step(e, a, cfg);
            || SaidOn(e', x) == SaidOn(e, x)
            || (a.Open? && MayOpen(e.peer) && x == e.peer.nextId && SaidOn(e', x) == Opened(a.payload, a.end))
            || (&& a.Send? && a.id == x && x in e.peer.objects && S.MaySend(e.peer.objects[x], a.leading)
                && SaidOn(e', x) == Uttered(SaidOn(e, x), a.data, a.last, a.trailers, e.peer.objects[x].opening)
                && e'.peer == SendData(e.peer, x, a.data, a.leading, a.last, a.trailers))
  {
    hide OpenStream, SendData, AppReset, HandlerError, QueueGoaway, Transmit, Transmitted, Receive, Die, S.MaySend,
      MayOpen, Act;
  }

  lemma AgainFrom(e: End, e': End, a: Action, x: nat, cfg: Config)
    requires Sound(e.peer, cfg) && e' == Step(e, a, cfg) && Again(e', x) && !a.Read?
    requires e.peer.nextId !in e.peer.objects
    requires x in e.peer.objects ==> Fitting(e.peer.objects[x], SaidOn(e, x))
    requires x in e'.peer.objects && e'.peer.objects[x].state == S.HalfClosedRemote ==>
               x in e.peer.objects && e.peer.objects[x].state == S.HalfClosedRemote
    requires || SaidOn(e', x) == SaidOn(e, x)
             || (a.Open? && MayOpen(e.peer) && x == e.peer.nextId && SaidOn(e', x) == Opened(a.payload, a.end))
             || (&& a.Send? && a.id == x && x in e.peer.objects && S.MaySend(e.peer.objects[x], a.leading)
                 && SaidOn(e', x) == Uttered(SaidOn(e, x), a.data, a.last, a.trailers, e.peer.objects[x].opening)
                 && e'.peer == SendData(e.peer, x, a.data, a.leading, a.last, a.trailers))
    ensures Again(e, x)
  {
    hide Step, S.Consistent, Listed, MayOpen, Enqueue;
    if x in e.peer.objects { assert Kept(e.peer, x, e.peer.objects[x], cfg); }
  }

  /** The one frame that lets a stream send again: the last fragment of an `open` that carries the end. */
  lemma ReadAgain(p: Peer, frame: Frame, size: nat, x: nat, cfg: Config)
    requires Sound(p, cfg) && x in p.objects && p.objects[x].state == S.HalfClosedLocal
    requires var p' := Receive(p, frame, size, cfg); x in p'.objects && p'.objects[x].state == S.HalfClosedRemote
    ensures frame.kind == OpenFrame && frame.end && frame.stream == Some(x)
  {
    hide Sound, OnOpen, OnStreamFrame, OverCap, FailAll, V.Brings, V.Newborn, V.Continues, Enqueue;
    V.ReadLives(p, frame, size, cfg);
    assert V.Hears(p.objects[x], Receive(p, frame, size, cfg).objects[x], V.Brings(p, Read(frame, size), x, cfg),
                   Some(frame.kind));
    if p.isOpen && !p.failed && cfg.cap < size {
      OverCapTurnsNone(p, frame, size, x, cfg);
    } else if frame.kind == OpenFrame {
      V.OnOpenLives(p, frame, cfg);
    }
  }

  lemma OverCapTurnsNone(p: Peer, frame: Frame, size: nat, x: nat, cfg: Config)
    requires Sound(p, cfg) && x in p.objects && p.objects[x].state == S.HalfClosedLocal && p.isOpen && !p.failed
      && cfg.cap < size
    requires frame.kind == OpenFrame && x in OverCap(p, frame, cfg).objects
    ensures OverCap(p, frame, cfg).objects[x].state != S.HalfClosedRemote
  {
    hide Sound, Enqueue, Discard;
  }

  lemma WasLocal(e: End, x: nat, t: S.Stream, values: seq<Value>, kind: Option<FrameType>, cfg: Config)
    requires Sound(e.peer, cfg) && x in e.peer.objects && Fitting(e.peer.objects[x], SaidOn(e, x)) && !Again(e, x)
    requires V.Hears(e.peer.objects[x], t, values, kind) && t.state == S.HalfClosedRemote && SaidOn(e, x).ended
    ensures e.peer.objects[x].state == S.HalfClosedLocal
  {
    hide Again, S.Consistent, Listed;
    assert Kept(e.peer, x, e.peer.objects[x], cfg);
    if e.peer.objects[x].state == S.HalfClosedRemote { AgainLives(e, x, cfg); }
  }

  /** A frame that arrives lets a stream send again only if its opener ended it in its `open`. */
  lemma DeliverAgain(d: Duplex, x: nat)
    requires Joined(d) && Told(d) && CanRead(d) && Again(MoveA(d, Deliver).a, x) && !Again(d.a, x)
    ensures SaidOn(d.b, x).early
  {
    hide Joined, Proper, Fitting, Sound, Receive, V.Brings, V.Continues, Obeys;
    var f := Head(d);
    var size := SizeOf(d.cb.codec, f);
    var p, p' := d.a.peer, MoveA(d, Deliver).a.peer;
    JoinedSteady(d);
    JoinedTuned(d);
    assert SaidOn(MoveA(d, Deliver).a, x) == SaidOn(d.a, x);
    SaidNeedsStream(d, x);
    if x in p.objects {
      assert Fitting(p.objects[x], SaidOn(d.a, x));
      V.ReadLives(p, f, size, d.ca);
      assert V.Hears(p.objects[x], p'.objects[x], V.Brings(p, Read(f, size), x, d.ca), Some(f.kind));
      WasLocal(d.a, x, p'.objects[x], V.Brings(p, Read(f, size), x, d.ca), Some(f.kind), d.ca);
      ReadAgain(p, f, size, x, d.ca);
      assert EndsEarly(Early(d.b))(0, d.b.log[d.rb]);
    }
  }

  // ------------------------------------------------------------ every run

  lemma ReadHonest(e: End, frame: Frame, size: nat, cfg: Config)
    requires Honest(e)
    ensures Honest(e.(peer := Receive(e.peer, frame, size, cfg)))
  {
    hide Obeys, Receive, Mild, Inherited, AllowsGoaway, Act;
    EndsEarlyInherited(Early(e), cfg.cap, cfg.codec);
    ActObeys(EndsEarly(Early(e)), e.peer, Read(frame, size), cfg);
    V.ActIs(e.peer, Read(frame, size), cfg);
    assert Early(e.(peer := Receive(e.peer, frame, size, cfg))) == Early(e);
  }

  lemma EarlyStays(d: Duplex, m: Move, x: nat)
    requires Joined(d) && Honest(d.a)
    ensures SaidOn(d.a, x).early ==> SaidOn(MoveA(d, m).a, x).early
  {
    hide Joined, Honest, Step, Receive;
    NextIsUnsaid(d);
    if m.Do? && !m.action.Read? { EarlyGrows(d.a, m.action, d.ca); EarlyHas(d.a, x); EarlyHas(MoveA(d, m).a, x); }
  }

  lemma EarlyHas(e: End, x: nat)
    ensures SaidOn(e, x).early <==> x in Early(e)
  {
  }

  lemma MoveTold(d: Duplex, m: Move)
    requires Joined(d) && Told(d)
    ensures Told(MoveA(d, m))
  {
    hide Joined, Honest, Step, Receive, Again;
    var d' := MoveA(d, m);
    NextIsUnsaid(d);
    if m.Do? && !m.action.Read? { StepHonest(d.a, m.action, d.ca); }
    if m.Deliver? && CanRead(d) { ReadHonest(d.a, Head(d), SizeOf(d.cb.codec, Head(d)), d.ca); }
    forall x: nat
      ensures Again(d'.a, x) ==> SaidOn(d.b, x).early
      ensures Again(d.b, x) ==> SaidOn(d'.a, x).early
    {
      EarlyStays(d, m, x);
      if Again(d'.a, x) && !Again(d.a, x) {
        if m.Do? && !m.action.Read? { StepAgain(d, m.action, x); }
        if m.Deliver? && CanRead(d) { DeliverAgain(d, x); }
      }
    }
  }

  lemma HappenTold(d: Duplex, e: Event)
    requires Joined(d) && Told(d)
    ensures Told(Happen(d, e))
  {
    hide Joined, Honest, Again, MoveA;
    W.FlipJoined(d);
    match e
    case AtA(m) => MoveTold(d, m);
    case AtB(m) => MoveTold(Flip(d), m);
  }

  lemma {:induction false} RunTold(d: Duplex, events: seq<Event>)
    requires Joined(d) && Told(d)
    ensures Told(Run(d, events))
    decreases |events|
  {
    hide Joined, Told, Happen;
    if events != [] {
      HappenTold(d, events[0]);
      HappenJoined(d, events[0]);
      RunTold(Happen(d, events[0]), events[1..]);
    }
  }

  lemma ReachableTold(d: Duplex)
    requires Reachable(d)
    ensures Told(d)
  {
    hide Joined, Run, Lawful;
    var ca: Config, cb: Config, events: seq<Event> :|
      ca.codec == cb.codec && ca.cap == cb.cap && Lawful(ca.codec) && d == Run(Start(ca, cb), events);
    StartJoined(ca, cb);
    assert Told(Start(ca, cb));
    RunTold(Start(ca, cb), events);
  }

  // ------------------------------------------------------------ the mirror

  /** Both applications ended the stream before its opening payload was complete: the opener in its `open`, the other
      before the last fragment of it. */
  predicate BothEarly(d: Duplex, x: nat) {
    SaidOn(d.a, x).early && SaidOn(d.b, x).early
  }

  lemma FitsAt(d: Duplex, x: nat)
    requires Joined(d)
    ensures x in d.a.peer.objects ==> Fitting(d.a.peer.objects[x], SaidOn(d.a, x))
    ensures x !in d.a.peer.objects ==> SaidOn(d.a, x) == SILENCE
  {
    hide Joined, Proper, Fitting;
    JoinedTuned(d);
    SaidNeedsStream(d, x);
  }

  lemma AgainIsEarly(d: Duplex, x: nat)
    requires Joined(d) && Told(d) && Again(d.a, x)
    ensures BothEarly(d, x)
  {
    hide Joined, Honest, Bounded, Afloat, Listed, S.Consistent;
    FitsAt(d, x);
    JoinedSteady(d);
    assert x in d.a.peer.objects ==> Kept(d.a.peer, x, d.a.peer.objects[x], d.ca);
  }

  /** Whenever everything has arrived both ways on connections that live, a stream is live at one end exactly when it
      is at the other, with the mirrored state, unless both applications ended it while it was opening and one end of
      it still lives.  Then the ends differ. */
  lemma QuietEndsMirrorIff(d: Duplex, x: nat)
    requires Reachable(d) && d.a.peer.isOpen && d.b.peer.isOpen
    requires Arrived(d, x) && Arrived(Flip(d), x)
    ensures Mirrors(d, x) <==> !(BothEarly(d, x) && (x in d.a.peer.live || x in d.b.peer.live))
  {
    hide Reachable, Joined, Told, WayA, Mirrors, Reopened;
    ReachableJoined(d);
    ReachableTold(d);
    QuietEndsMirror(d, x);
    if Reopened(d.a, x) { AgainIsEarly(d, x); ReopenedLives(d.a, x); }
    if Reopened(d.b, x) { ToldFlips(d); AgainIsEarly(Flip(d), x); ReopenedLives(d.b, x); }
    if BothEarly(d, x) {
      if x in d.a.peer.live { EarlyDiffers(d, x); }
      if x in d.b.peer.live { EarlyDiffers(Flip(d), x); }
    }
  }

  lemma ReopenedLives(e: End, x: nat)
    requires Reopened(e, x)
    ensures x in e.peer.live
  {
  }

  lemma ToldFlips(d: Duplex)
    requires Told(d)
    ensures Told(Flip(d))
  {
    hide Honest, Again;
  }

  lemma EarlyDiffers(d: Duplex, x: nat)
    requires Joined(d) && Joined(Flip(d)) && d.a.peer.isOpen && d.b.peer.isOpen
    requires Arrived(d, x) && Arrived(Flip(d), x) && BothEarly(d, x) && x in d.a.peer.live
    ensures Reopened(d.a, x) || Reopened(d.b, x)
  {
    hide Joined, WayA, Proper, HeardOf, SaidOf, Linked, HalfA;
    if !Reopened(d.a, x) {
      LiveIsMirrored(d, x);
      LiveHalf(d, x);
      LiveHalf(Flip(d), x);
    }
  }

  // ------------------------------------------------------------ delivery

  function AllSaid(w: Words): seq<Value> { w.values + w.after }

  function LastTrailers(w: Words): Option<Fields> { if w.lateTrailers.Some? then w.lateTrailers else w.trailers }

  /** `to` has got all that `from` ever gave on stream `x`: every payload, the end, the leading headers and the last
      trailers. */
  predicate Conveyed(from: End, to: End, x: nat)
    requires x in from.peer.objects && x in to.peer.objects
  {
    var s, t := from.peer.objects[x], to.peer.objects[x];
    && DeliveredTo(to, x) == AllSaid(SaidOn(from, x))
    && (HeardOf(t).ended <==> SaidOn(from, x).ended)
    && HeadersGot(t) == HeadersGiven(s)
    && t.trailers == LastTrailers(SaidOn(from, x))
  }

  /** A payload was sent after the end, or trailers that the end did not carry. */
  predicate SentInVain(w: Words) {
    w.after != [] || (w.lateTrailers.Some? && w.lateTrailers != w.trailers)
  }

  /** Once everything has arrived, on connections that live, a stream that neither end reset was conveyed completely
      if and only if nothing was sent on it after it was ended; and that can happen only when both applications ended
      it while it was opening. */
  lemma DeliveredIsCompleteIff(d: Duplex, x: nat)
    requires Reachable(d) && d.a.peer.isOpen && d.b.peer.isOpen
    requires NeverReset(d.a, x) && NeverReset(d.b, x)
    ensures Arrived(d, x) ==> (Conveyed(d.a, d.b, x) <==> !SentInVain(SaidOn(d.a, x)))
    ensures Arrived(Flip(d), x) ==> (Conveyed(d.b, d.a, x) <==> !SentInVain(SaidOn(d.b, x)))
    ensures SentInVain(SaidOn(d.a, x)) || SentInVain(SaidOn(d.b, x)) ==> BothEarly(d, x)
  {
    hide Reachable, Joined, Told, WayA;
    DeliveredToItsEnd(d, x);
    InVainIsEarly(d, x);
    if Arrived(d, x) { ConveyedIff(d.a, d.b, x); }
    if Arrived(Flip(d), x) { ConveyedIff(d.b, d.a, x); }
  }

  lemma ConveyedIff(from: End, to: End, x: nat)
    requires x in from.peer.objects && x in to.peer.objects && ConveyedToItsEnd(from, to, x)
    ensures Conveyed(from, to, x) <==> !SentInVain(SaidOn(from, x))
  {
    hide ValuesOf, HeadersGot, HeadersGiven;
    var w := SaidOn(from, x);
    assert w.after == [] ==> AllSaid(w) == w.values;
    assert w.after != [] ==> |AllSaid(w)| != |w.values|;
  }

  lemma InVainIsEarly(d: Duplex, x: nat)
    requires Reachable(d)
    ensures SentInVain(SaidOn(d.a, x)) || SentInVain(SaidOn(d.b, x)) ==> BothEarly(d, x)
  {
    hide Reachable, Joined, Told;
    ReachableJoined(d);
    ReachableTold(d);
    if SentInVain(SaidOn(d.a, x)) { AgainIsEarly(d, x); }
    if SentInVain(SaidOn(d.b, x)) { ToldFlips(d); AgainIsEarly(Flip(d), x); }
  }

  // ------------------------------------------------------------ after the end

  lemma EndedStays(e: End, a: Action, x: nat, cfg: Config)
    requires e.peer.nextId !in e.said && SaidOn(e, x).ended
    ensures SaidOn(Step(e, a, cfg), x).ended && SaidOn(Step(e, a, cfg), x).values == SaidOn(e, x).values
  {
    hide Step, MayOpen, SendData, S.MaySend;
    StepSays(e, a, x, cfg);
  }

  lemma HappenKeepsEnd(d: Duplex, e: Event, x: nat)
    requires Joined(d) && SaidOn(d.b, x).ended
    ensures SaidOn(Happen(d, e).b, x).ended && SaidOn(Happen(d, e).b, x).values == SaidOn(d.b, x).values
  {
    hide Joined, Step, Receive;
    W.FlipJoined(d);
    NextIsUnsaid(Flip(d));
    match e
    case AtA(m) => MoveKeepsOther(d, m);
    case AtB(m) => if m.Do? && !m.action.Read? { EndedStays(d.b, m.action, x, d.cb); }
  }

  lemma MoveKeepsOther(d: Duplex, m: Move)
    ensures MoveA(d, m).b == d.b
  {
    hide Step, Receive;
  }

  lemma {:induction false} RunKeepsEnd(d: Duplex, events: seq<Event>, x: nat)
    requires Joined(d) && SaidOn(d.b, x).ended
    ensures Joined(Run(d, events))
    ensures SaidOn(Run(d, events).b, x).ended && SaidOn(Run(d, events).b, x).values == SaidOn(d.b, x).values
    decreases |events|
  {
    hide Joined, Happen;
    if events != [] {
      HappenKeepsEnd(d, events[0], x);
      HappenJoined(d, events[0]);
      RunKeepsEnd(Happen(d, events[0]), events[1..], x);
    }
  }

  /** Whatever an application says after it has ended a stream, and whatever happens then, the other end is never given
      any of it. */
  lemma NothingIsHeardAfterTheEnd(d: Duplex, events: seq<Event>, x: nat)
    requires Reachable(d) && SaidOn(d.b, x).ended
    ensures DeliveredTo(Run(d, events).a, x) <= SaidOn(d.b, x).values
  {
    hide Reachable, Joined, Run, SaidOn, DeliveredTo;
    ReachableJoined(d);
    RunKeepsEnd(d, events, x);
    W.FlipJoined(Run(d, events));
    DeliveredOneWay(Flip(Run(d, events)), x);
  }
}
