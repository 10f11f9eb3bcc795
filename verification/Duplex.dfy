/** Two peers joined by two lossless first-in-first-out channels, each channel the log of one end and a
    cursor of what the other has read of it. */
module DuplexModel {
  import opened Frames
  import opened Codecs
  import opened WriterModel
  import opened PeerModel
  import opened PeerInvariant
  import opened Outbound
  import opened Ends
  import opened Conversation
  import opened Halves
  import opened Strands
  import opened Reception
  import S = StreamModel

  /** `ra` frames of `a`'s log have been read by `b`, and `rb` of `b`'s by `a`. */
  datatype Duplex = Duplex(a: End, b: End, ra: nat, rb: nat, ca: Config, cb: Config)

  function Start(ca: Config, cb: Config): Duplex {
    Duplex(NewEnd(true), NewEnd(false), 0, 0, ca, cb)
  }

  function Flip(d: Duplex): Duplex {
    Duplex(d.b, d.a, d.rb, d.ra, d.cb, d.ca)
  }

  /** One end's own step, or the next frame of the other's reaching it. */
  datatype Move = Do(action: Action) | Deliver

  datatype Event = AtA(a: Move) | AtB(b: Move)

  function SizeOf(codec: Codec, f: Frame): nat {
    if Size(codec, f).Some? then Size(codec, f).value else 0
  }

  predicate CanRead(d: Duplex) {
    d.a.peer.isOpen && !d.a.peer.failed && d.rb < |d.b.log|
  }

  /** `a` moves.  A frame reaches it only from `b`. */
  function MoveA(d: Duplex, m: Move): Duplex {
    match m
    case Do(action) => if action.Read? then d else d.(a := Step(d.a, action, d.ca))
    case Deliver =>
      if !CanRead(d) then d
      else
        var f := d.b.log[d.rb];
        d.(a := d.a.(peer := Receive(d.a.peer, f, SizeOf(d.cb.codec, f), d.ca)), rb := d.rb + 1)
  }

  function Happen(d: Duplex, e: Event): Duplex {
    match e
    case AtA(m) => MoveA(d, m)
    case AtB(m) => Flip(MoveA(Flip(d), m))
  }

  function Run(d: Duplex, events: seq<Event>): Duplex
    decreases |events|
  {
    if events == [] then d else Run(Happen(d, events[0]), events[1..])
  }

  // ------------------------------------------------------------ what is on its way

  function Reached(log: seq<Frame>, r: nat): seq<Frame> { if r <= |log| then log[..r] else log }

  function Unread(log: seq<Frame>, r: nat): seq<Frame> { if r <= |log| then log[r..] else [] }

  /** From `a` to `b` on stream `x`: on the wire, then in the lane. */
  function WayA(d: Duplex, x: nat): seq<Frame> {
    On(Unread(d.a.log, d.ra), x) + Coming(LaneAt(d.a.peer.writer, x))
  }

  lemma {:induction false} OnNothing(log: seq<Frame>, x: nat)
    ensures On(log, x) == [] <==> !Seen(log, x)
    decreases |log|
  {
    if log != [] {
      OnNothing(log[1..], x);
      assert log == [log[0]] + log[1..];
      if i :| 0 <= i < |log| && LaneOf(log[i]) == x && 0 < i {
        assert log[1..][i - 1] == log[i];
      }
      if i :| 0 <= i < |log[1..]| && LaneOf(log[1..][i]) == x {
        assert log[i + 1] == log[1..][i];
      }
    }
  }

  /** What was sent was read or is on the wire. */
  lemma SeenSplit(log: seq<Frame>, r: nat, x: nat)
    ensures Seen(log, x) ==> Seen(Reached(log, r), x) || On(Unread(log, r), x) != []
    ensures Seen(Reached(log, r), x) || On(Unread(log, r), x) != [] ==> Seen(log, x)
  {
    hide Seen;
    assert log == Reached(log, r) + Unread(log, r);
    OnAppend(Reached(log, r), Unread(log, r), x);
    OnNothing(log, x);
    OnNothing(Reached(log, r), x);
  }

  // ------------------------------------------------------------ the tie between the ends

  ghost function HalfIn(e: End, heard: seq<Frame>, cfg: Config, x: nat): Half {
    HalfOf(At(e.peer, x), SaidOn(e, x), !Own(SideOf(e.peer, cfg), x) && Seen(heard, x))
  }

  ghost function HalfA(d: Duplex, x: nat): Half {
    HalfIn(d.a, Reached(d.b.log, d.rb), d.ca, x)
  }

  /** A stream of the remote's past the `last_stream` of a goaway this end sent. */
  predicate Late(e: End, x: nat) {
    !IsOurs(e.peer, x) && e.peer.goaway.sentLast.Some? && e.peer.goaway.sentLast.value < x
  }

  ghost predicate Tied(d: Duplex, x: nat) {
    Linked(HalfA(d, x), WayA(d, x), HalfA(Flip(d), x), Own(SideOf(d.a.peer, d.ca), x), Late(d.b, x),
           d.a.peer.isOpen, d.b.peer.isOpen, d.ca.codec)
  }

  ghost predicate OpenedIn(log: seq<Frame>, x: nat) {
    exists i :: 0 <= i < |log| && log[i].kind == OpenFrame && LaneOf(log[i]) == x
  }

  /** The state of a stream fits what its application said on it.  A stream that may still send after its
      application has ended it is one that ended while it was opening. */
  predicate Fitting(s: S.Stream, w: Words) {
    && (w.early ==> w.ended)
    && (w.after != [] || w.lateTrailers.Some? ==> Reopens(s, w))
    && (!s.cause.ByReset? ==>
        && (s.state == S.HalfClosedLocal || s.state == S.Closed ==> w.ended)
        && (s.state == S.Open ==> !w.ended)
        && (s.state == S.HalfClosedRemote && w.ended ==> Reopens(s, w))
        && (s.opening && w.ended ==> w.early)
        && (w.ended ==> s.sentAFrame))
  }

  /** A stream of the remote's that ended while it was opening, and opens no more. */
  predicate Reopens(s: S.Stream, w: Words) {
    !s.local && w.early && (!s.cause.ByReset? ==> !s.opening)
  }

  /** An end's high mark is the highest `open` it has read, and its streams are proper. */
  ghost predicate Tuned(e: End, heard: seq<Frame>) {
    && (forall x :: x in e.peer.objects ==> Proper(e.peer.objects[x]))
    && (forall i :: 0 <= i < |heard| && heard[i].kind == OpenFrame ==> LaneOf(heard[i]) <= e.peer.highRemote)
    && (e.peer.highRemote == 0 || OpenedIn(heard, e.peer.highRemote))
    && (forall x :: x in e.said ==> x in e.peer.objects)
    && (forall x :: x in e.peer.objects ==> Fitting(e.peer.objects[x], SaidOn(e, x)))
    && (forall x :: x in e.peer.objects && !e.peer.objects[x].local ==> Seen(heard, x))
  }

  /** No goaway on its way names less than the first one did. */
  ghost predicate Goodbyes(d: Duplex) {
    forall f :: f in WayA(d, 0) && f.kind == GoawayFrame ==>
      f.lastStream.Some? && d.a.peer.goaway.sentLast.Some? && d.a.peer.goaway.sentLast.value <= f.lastStream.value
  }

  ghost predicate Leg(d: Duplex) {
    && Steady(d.a, d.ca)
    && d.ra <= |d.a.log|
    && Tuned(d.a, Reached(d.b.log, d.rb))
    && Goodbyes(d)
    && forall x: nat :: 0 < x ==> Tied(d, x)
  }

  ghost predicate Matched(d: Duplex) {
    && d.ca.codec == d.cb.codec && d.ca.cap == d.cb.cap
    && d.a.peer.dialer != d.b.peer.dialer
  }

  /** The invariant of every run. */
  ghost predicate Joined(d: Duplex) {
    Matched(d) && Lawful(d.ca.codec) && Leg(d) && Leg(Flip(d))
  }

  lemma OwnSplits(d: Duplex, x: nat)
    requires Matched(d) && 0 < x
    ensures Own(SideOf(d.a.peer, d.ca), x) <==> !Own(SideOf(d.b.peer, d.cb), x)
  {
  }

  lemma StartJoined(ca: Config, cb: Config)
    requires ca.codec == cb.codec && ca.cap == cb.cap && Lawful(ca.codec)
    ensures Joined(Start(ca, cb))
  {
    hide Steady, Lawful;
    var d := Start(ca, cb);
    NewEndSteady(true, ca);
    NewEndSteady(false, cb);
    forall x: nat
      ensures Tied(d, x) && Tied(Flip(d), x) && WayA(d, 0) == [] && WayA(Flip(d), 0) == []
    {
    }
  }

  // ------------------------------------------------------------ one stream of a move

  /** Nothing about stream `x` has changed. */
  ghost predicate Same(d: Duplex, d': Duplex, x: nat) {
    && HalfA(d', x) == HalfA(d, x) && WayA(d', x) == WayA(d, x)
    && HalfA(Flip(d'), x) == HalfA(Flip(d), x) && WayA(Flip(d'), x) == WayA(Flip(d), x)
  }

  /** The ends are the same but for what concerns single streams. */
  ghost predicate SameFrame(d: Duplex, d': Duplex) {
    && d'.ca == d.ca && d'.cb == d.cb
    && d'.a.peer.dialer == d.a.peer.dialer && d'.b.peer.dialer == d.b.peer.dialer
    && d'.a.peer.isOpen == d.a.peer.isOpen && d'.b.peer.isOpen == d.b.peer.isOpen
    && d'.a.peer.goaway.sentLast == d.a.peer.goaway.sentLast && d'.b.peer.goaway.sentLast == d.b.peer.goaway.sentLast
  }

  lemma SameTied(d: Duplex, d': Duplex, x: nat)
    requires Same(d, d', x) && SameFrame(d, d') && Tied(d, x) && Tied(Flip(d), x)
    ensures Tied(d', x) && Tied(Flip(d'), x)
  {
    hide Linked, HalfA, WayA, Own;
  }

  /** The same cell and the same words: the same half. */
  lemma SameHalf(e: End, e': End, heard: seq<Frame>, cfg: Config, x: nat)
    requires At(e'.peer, x) == At(e.peer, x) && SaidOn(e', x) == SaidOn(e, x) && e'.peer.dialer == e.peer.dialer
    ensures HalfIn(e', heard, cfg, x) == HalfIn(e, heard, cfg, x)
    ensures LaneAt(e'.peer.writer, x) == LaneAt(e.peer.writer, x)
  {
    hide HalfOf, Own, Seen;
  }

  lemma ComingTail(lane: Lane, f: Frame)
    ensures Coming(Tail(lane, f)) == Coming(lane) + [f]
  {
    hide Rest;
  }

  lemma ComingKept(lane: Lane)
    ensures Coming(DiscardExceptUnsentOpen(lane)) <= Coming(lane)
    ensures HoldsUnsentOpen(lane) ==> Coming(DiscardExceptUnsentOpen(lane)) != []
  {
    hide Rest;
  }

  /** A live stream whose other end has not heard of it is on the wire, or its `open` waits. */
  lemma LiveIsOnItsWay(d: Duplex, id: nat)
    requires Joined(d) && id in d.a.peer.live && d.b.peer.isOpen && HalfA(Flip(d), id).Unborn?
    ensures 0 < id
    ensures On(Unread(d.a.log, d.ra), id) != [] || Unsent(d.a.peer.writer, id)
  {
    hide Sound, Bounded, Tidy, Seen, Own, Goodbyes, Tuned, Unsent, Lawful;
    LiveMay(d.a.peer, id, d.a.log, d.ca);
    OwnSplits(d, id);
    assert Tied(d, id) && Tied(Flip(d), id);
    SoundHas(d.a.peer, id, d.ca);
    SoundKeeps(d.a.peer, id, d.ca);
    SeenSplit(d.a.log, d.ra, id);
  }

  // ------------------------------------------------------------ a move of one stream

  /** `a` changed stream `id` alone, and both ties of that stream hold. */
  lemma AssembleJoined(d: Duplex, d': Duplex, id: nat)
    requires Joined(d) && d' == d.(a := d'.a) && SameFrame(d, d')
    requires d.ra <= |d'.a.log| && Reached(d'.a.log, d.ra) == Reached(d.a.log, d.ra)
    requires forall x: nat :: x != id ==> Same(d, d', x)
    requires if id == 0 then Goodbyes(d') else Tied(d', id) && Tied(Flip(d'), id)
    requires Steady(d'.a, d.ca) && Tuned(d'.a, Reached(d.b.log, d.rb))
    ensures Joined(d')
  {
    hide Steady, Tied, HalfA, Tuned, Lawful, Matched, LaneAt, Own, On;
    forall x: nat | 0 < x
      ensures Tied(d', x) && Tied(Flip(d'), x)
    {
      if x != id {
        assert Tied(d, x) && Tied(Flip(d), x);
        SameTied(d, d', x);
      }
    }
    if id != 0 {
      assert Same(d, d', 0);
    }
    MatchedStays(d, d');
  }

  /** Only stream `id` of `a` was touched, its lane and its object. */
  lemma OneStreamJoined(d: Duplex, d': Duplex, id: nat)
    requires Joined(d) && 0 < id && d' == d.(a := d'.a)
    requires Touched(d.a.peer, d'.a.peer, id) && d'.a.log == d.a.log
    requires forall x: nat :: x != id ==> SaidOn(d'.a, x) == SaidOn(d.a, x)
    requires forall x :: x in d'.a.said ==> x in d.a.said || x == id
    requires At(d'.a.peer, id).stream.Some? && Proper(At(d'.a.peer, id).stream.value)
    requires Fitting(At(d'.a.peer, id).stream.value, SaidOn(d'.a, id))
    requires At(d.a.peer, id).stream.None? ==> At(d'.a.peer, id).stream.value.local
    requires At(d.a.peer, id).stream.Some?
      ==> At(d'.a.peer, id).stream.value.local == At(d.a.peer, id).stream.value.local
    requires Steady(d'.a, d.ca) && Tied(d', id) && Tied(Flip(d'), id)
    ensures Joined(d')
  {
    hide Steady, Tied, Joined, Same, Tuned, At;
    forall x: nat | x != id
      ensures Same(d, d', x)
    {
      OtherStream(d, d', id, x);
    }
    OtherStream(d, d', id, if id == 0 then 1 else 0);
    JoinedTuned(d);
    assert forall x: nat ::
        x != id ==> At(d'.a.peer, x).stream == At(d.a.peer, x).stream && SaidOn(d'.a, x) == SaidOn(d.a, x);
    TouchedTuned(d.a, d'.a, id, Reached(d.b.log, d.rb));
    AssembleJoined(d, d', id);
  }

  lemma JoinedTuned(d: Duplex)
    requires Joined(d)
    ensures Tuned(d.a, Reached(d.b.log, d.rb)) && d.ra <= |d.a.log| && Goodbyes(d)
  {
    hide Steady, Tied, Tuned, Goodbyes;
  }

  lemma TouchedTuned(e: End, e': End, id: nat, heard: seq<Frame>)
    requires Tuned(e, heard) && e'.peer.highRemote == e.peer.highRemote
    requires forall x: nat :: x != id ==> At(e'.peer, x).stream == At(e.peer, x).stream && SaidOn(e', x) == SaidOn(e, x)
    requires forall x :: x in e'.said ==> x in e.said || x == id
    requires At(e'.peer, id).stream.Some? && Proper(At(e'.peer, id).stream.value)
      && Fitting(At(e'.peer, id).stream.value, SaidOn(e', id))
    requires At(e.peer, id).stream.None? ==> At(e'.peer, id).stream.value.local
    requires At(e.peer, id).stream.Some? ==> At(e'.peer, id).stream.value.local == At(e.peer, id).stream.value.local
    ensures Tuned(e', heard)
  {
    hide Proper, Fitting, OpenedIn, Seen, LaneAt, SaidOn;
    forall x | x in e'.peer.objects
      ensures Proper(e'.peer.objects[x]) && Fitting(e'.peer.objects[x], SaidOn(e', x))
        && (!e'.peer.objects[x].local ==> Seen(heard, x))
    {
      assert x != id ==> At(e'.peer, x).stream == At(e.peer, x).stream;
    }
    forall x | x in e'.said
      ensures x in e'.peer.objects
    {
      assert x != id ==> At(e'.peer, x).stream == At(e.peer, x).stream;
    }
  }

  lemma MatchedStays(d: Duplex, d': Duplex)
    requires Matched(d) && SameFrame(d, d')
    ensures Matched(d')
  {
  }

  lemma OtherStream(d: Duplex, d': Duplex, id: nat, x: nat)
    requires d' == d.(a := d'.a) && x != id && d'.a.log == d.a.log
    requires Touched(d.a.peer, d'.a.peer, id) && SaidOn(d'.a, x) == SaidOn(d.a, x)
    ensures Same(d, d', x) && SameFrame(d, d')
  {
    hide HalfIn, LaneAt, Own;
    assert At(d'.a.peer, x) == At(d.a.peer, x);
    SameHalf(d.a, d'.a, Reached(d.b.log, d.rb), d.ca, x);
  }

  /** A live stream stands on an open end, and each side may still speak or has ended properly. */
  lemma LiveStands(e: End, heard: seq<Frame>, cfg: Config, id: nat)
    requires Steady(e, cfg) && Tuned(e, heard) && id in e.peer.live
    ensures 0 < id && id in e.peer.objects && e.peer.isOpen
    ensures var s := e.peer.objects[id];
            && s.state != S.Closed && s.state != S.Idle && s.cause.NotEnded? && Proper(s) && Fitting(s, SaidOn(e, id))
            && (s.local <==> Own(SideOf(e.peer, cfg), id))
  {
    hide Bounded, Afloat, Listed, Numbered, Seen, Proper, Fitting, S.Consistent;
    SoundHas(e.peer, id, cfg);
    SoundKeeps(e.peer, id, cfg);
  }

  /** A live stream's half is alive, on an end that is open. */
  lemma LiveHalf(d: Duplex, id: nat)
    requires Joined(d) && id in d.a.peer.live
    ensures 0 < id && id in d.a.peer.objects && d.a.peer.isOpen
    ensures var s := d.a.peer.objects[id];
            && s.state != S.Closed && s.state != S.Idle && s.cause.NotEnded? && Proper(s)
            && (s.local <==> Own(SideOf(d.a.peer, d.ca), id))
            && HalfA(d, id) == Alive(HeardOf(s), SaidOf(s, SaidOn(d.a, id)))
            && Said(HalfA(d, id)) == SaidOn(d.a, id).values
            && Tied(d, id) && Tied(Flip(d), id) && Fitting(s, SaidOn(d.a, id))
  {
    hide Steady, Tuned, Goodbyes, Lawful, ValuesOf, Proper, Own, Seen, Linked, Fitting;
    LiveStands(d.a, Reached(d.b.log, d.rb), d.ca, id);
  }

  /** The half of a live stream that fails. */
  lemma ClosedHalf(d: Duplex, d': Duplex, id: nat, lane: Lane, code: int)
    requires Joined(d) && d' == d.(a := d'.a) && d'.a.peer.dialer == d.a.peer.dialer
    requires id in d.a.peer.live && SaidOn(d'.a, id) == SaidOn(d.a, id)
    requires id in d.a.peer.objects && At(d'.a.peer, id) == Fallen(At(d.a.peer, id).(lane := lane), code)
    ensures var h, h' := HalfA(d, id), HalfA(d', id);
            && h'.Dead? && h'.had == Heard(h) && Said(h') == Said(h) && (h.heard.opening ==> h'.cut)
            && Proper(At(d'.a.peer, id).stream.value) && Fitting(At(d'.a.peer, id).stream.value, SaidOn(d'.a, id))
            && LaneAt(d'.a.peer.writer, id) == lane
  {
    hide Joined, ValuesOf, Own, LaneAt, Seen;
    LiveHalf(d, id);
    var c := At(d.a.peer, id);
    var met := !Own(SideOf(d.a.peer, d.ca), id) && Seen(Reached(d.b.log, d.rb), id);
    FallenHalf(c.(lane := lane), code, SaidOn(d.a, id), met);
    HalfOfLane(c, lane, SaidOn(d.a, id), met);
    FailedFits(c.stream.value, SaidOn(d.a, id), code);
  }

  lemma FailedFits(s: S.Stream, w: Words, code: int)
    requires Fitting(s, w) && s.state != S.Closed
    ensures Fitting(S.Fail(s, code), w)
  {
  }

  /** `a` closes a live stream, drops the back of its lane, and queues a reset. */
  lemma ResetTied(d: Duplex, d': Duplex, id: nat, lane: Lane, rest: seq<Frame>, f: Frame, code: int)
    requires Joined(d) && d' == d.(a := d'.a) && SameFrame(d, d') && d'.a.log == d.a.log
    requires id in d.a.peer.live && SaidOn(d'.a, id) == SaidOn(d.a, id)
    requires id in d.a.peer.objects && At(d'.a.peer, id) == Fallen(At(d.a.peer, id).(lane := Tail(lane, f)), code)
    requires Coming(At(d.a.peer, id).lane) == Coming(lane) + rest && f.kind == ResetFrame
    requires Unsent(d.a.peer.writer, id) ==> Coming(lane) != []
    ensures Tied(d', id) && Tied(Flip(d'), id)
    ensures 0 < id && Proper(At(d'.a.peer, id).stream.value)
      && Fitting(At(d'.a.peer, id).stream.value, SaidOn(d'.a, id))
  {
    hide Steady, Tuned, Goodbyes, Linked, Coming, HeardOf, SaidOf, ValuesOf, Own, LaneAt, On, Unsent, Proper, Fallen;
    LiveHalf(d, id);
    ClosedHalf(d, d', id, Tail(lane, f), code);
    ComingTail(lane, f);
    var unheard := On(Unread(d.a.log, d.ra), id);
    assert WayA(d, id) == (unheard + Coming(lane)) + rest;
    assert WayA(d', id) == (unheard + Coming(lane)) + [f];
    if d.b.peer.isOpen && HalfA(Flip(d), id).Unborn? {
      LiveIsOnItsWay(d, id);
    }
    ResetLinked(HalfA(d, id), WayA(d, id), unheard + Coming(lane), rest, f, HalfA(Flip(d), id), HalfA(d', id),
                Own(SideOf(d.a.peer, d.ca), id), Late(d.b, id), d.b.peer.isOpen, d.ca.codec);
    ListenerClosed(HalfA(Flip(d), id), WayA(Flip(d), id), HalfA(d, id), HalfA(d', id), Own(SideOf(d.b.peer, d.cb), id),
                   Late(d.a, id), d.b.peer.isOpen, d.a.peer.isOpen, d.ca.codec);
    assert Tied(Flip(d'), id) by { CodecsAgree(d, d'); }
  }

  lemma CodecsAgree(d: Duplex, d': Duplex)
    requires Joined(d) && d'.ca == d.ca && d'.cb == d.cb
    ensures d'.ca.codec == d'.cb.codec == d.ca.codec
  {
    hide Leg;
  }

  lemma HalfOfLane(c: Cell, lane: Lane, said: Words, met: bool)
    ensures HalfOf(c.(lane := lane), said, met) == HalfOf(c, said, met)
  {
  }

  // ------------------------------------------------------------ the application acts

  lemma JoinedSteady(d: Duplex)
    requires Joined(d)
    ensures Steady(d.a, d.ca) && Sound(d.a.peer, d.ca) && Afloat(d.a.peer, d.a.log, d.ca)
  {
    hide Tied, Tuned, Goodbyes, Sound, Bounded, Afloat;
  }

  lemma UnsentIsHeld(d: Duplex, id: nat)
    ensures Unsent(d.a.peer.writer, id) ==> HoldsUnsentOpen(At(d.a.peer, id).lane)
  {
  }

  /** A step that closes a live stream with a reset. */
  lemma ResetJoined(d: Duplex, d': Duplex, id: nat, lane: Lane, rest: seq<Frame>, f: Frame, code: int)
    requires Joined(d) && d' == d.(a := d'.a) && d'.a.log == d.a.log && d'.a.said == d.a.said
    requires id in d.a.peer.live && id in d.a.peer.objects && Steady(d'.a, d.ca)
    requires Became(d.a.peer, d'.a.peer, id, Fallen(At(d.a.peer, id).(lane := Tail(lane, f)), code))
    requires Coming(At(d.a.peer, id).lane) == Coming(lane) + rest && f.kind == ResetFrame
    requires HoldsUnsentOpen(At(d.a.peer, id).lane) ==> Coming(lane) != []
    ensures Joined(d')
  {
    hide Joined, Coming, HoldsUnsentOpen, Tail, Fallen, Steady, Tied, Proper;
    var c := Fallen(At(d.a.peer, id).(lane := Tail(lane, f)), code);
    BecameCell(d.a.peer, d'.a.peer, id, c);
    BecameFrame(d, d', id, c);
    UnsentIsHeld(d, id);
    ResetTied(d, d', id, lane, rest, f, code);
    FallenHas(At(d.a.peer, id).(lane := Tail(lane, f)), code);
    BecameTouched(d.a.peer, d'.a.peer, id, c);
    OneStreamJoined(d, d', id);
  }

  lemma FallenHas(c: Cell, code: int)
    requires c.stream.Some?
    ensures Fallen(c, code).stream.Some? && Fallen(c, code).stream.value.local == c.stream.value.local
  {
  }

  lemma BecameFrame(d: Duplex, d': Duplex, id: nat, c: Cell)
    requires d' == d.(a := d'.a) && Became(d.a.peer, d'.a.peer, id, c)
    ensures SameFrame(d, d')
  {
    hide At;
  }

  lemma AppResetJoined(d: Duplex, id: nat, code: int)
    requires Joined(d)
    ensures Joined(MoveA(d, Do(Reset(id, code))))
  {
    hide Joined, Step, Steady, Became, DiscardExceptUnsentOpen, At, HoldsUnsentOpen, Coming, Fallen, Tail;
    var d' := MoveA(d, Do(Reset(id, code)));
    JoinedSteady(d);
    StepSteady(d.a, Reset(id, code), d.ca);
    AppResetCases(d, id, code);
    if d'.a != d.a {
      var lane := At(d.a.peer, id).lane;
      var kept := DiscardExceptUnsentOpen(lane);
      ComingKept(lane);
      assert Coming(lane) == Coming(kept) + Coming(lane)[|Coming(kept)|..];
      ResetJoined(d, d', id, kept, Coming(lane)[|Coming(kept)|..], ResetWith(id, code, None), code);
    }
  }

  /** A reset by the application does nothing, or closes a live stream. */
  lemma AppResetCases(d: Duplex, id: nat, code: int)
    requires Joined(d)
    ensures var a' := Step(d.a, Reset(id, code), d.ca);
            a' == d.a ||
            (&& id in d.a.peer.live && id in d.a.peer.objects
             && a' == d.a.(peer := a'.peer)
             && Became(d.a.peer, a'.peer, id, Cleared(At(d.a.peer, id), id, code)))
  {
    hide Became, EnqueueReset, FailStream, Tied, Tuned, Goodbyes, Afloat, Bounded, Cleared;
    var p := d.a.peer;
    if id in p.objects {
      SoundKeeps(p, id, d.ca);
      LiveIsOpen(p, d.ca);
      ResetStreamAt(p, id, code);
    }
  }

  lemma LiveIsOpen(p: Peer, cfg: Config)
    requires Sound(p, cfg)
    ensures p.live != {} ==> p.isOpen
  {
  }
}
