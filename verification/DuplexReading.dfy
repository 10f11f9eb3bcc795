/** A frame reaching an end keeps the two ends joined. */
module DuplexReading {
  import opened Frames
  import opened Codecs
  import opened WriterModel
  import opened PeerModel
  import opened PeerInvariant
  import opened Outbound
  import opened Ends
  import opened Conversation
  import opened Halves
  import opened Strands
  import opened Reception
  import opened DuplexModel
  import opened DuplexMoves
  import A = Assembly
  import L = SplitLaws
  import S = StreamModel
  import W = DuplexWriting

  // ------------------------------------------------------------ the frame that arrives

  function Head(d: Duplex): Frame
    requires d.rb < |d.b.log|
  {
    d.b.log[d.rb]
  }

  /** The frame is one `b` put on the wire, within the cap, and if it is the first of a stream of `b`'s it
      is an `open` above every one before. */
  lemma HeadIsOrderly(d: Duplex)
    requires Joined(d) && d.rb < |d.b.log|
    ensures var f := Head(d);
            var side := SideOf(d.b.peer, d.cb);
            && OnWire(LaneOf(f), f, side)
            && SizeOf(d.cb.codec, f) <= d.ca.cap
            && (Own(side, LaneOf(f)) && !Seen(Reached(d.b.log, d.rb), LaneOf(f)) ==>
                  f.kind == OpenFrame && OpensBelow(Reached(d.b.log, d.rb), LaneOf(f)))
  {
    hide Joined, Steady, Orderly, OnLane, Own, Seen, OpensBelow, Sound, Afloat;
    W.FlipJoined(d);
    JoinedSteady(Flip(d));
    SteadyIsOrderly(d.b, d.cb);
    OrderlyAt(d.b.log, SideOf(d.b.peer, d.cb), d.rb);
    W.CodecLawful(d);
  }

  lemma ReadGrows(log: seq<Frame>, r: nat, x: nat)
    requires r < |log|
    ensures Reached(log, r + 1) == Reached(log, r) + [log[r]]
    ensures On(Unread(log, r), x) == (if LaneOf(log[r]) == x then [log[r]] else []) + On(Unread(log, r + 1), x)
    ensures Seen(Reached(log, r + 1), x) <==> Seen(Reached(log, r), x) || LaneOf(log[r]) == x
  {
    assert log[..r + 1] == log[..r] + [log[r]];
    assert log[r..] == [log[r]] + log[r + 1..];
    SeenAppend(log[..r], log[r], x);
  }

  /** `a` has read one more frame. */
  ghost predicate Reads(d: Duplex, d': Duplex) {
    && d.rb < |d.b.log|
    && d' == d.(a := d.a.(peer := d'.a.peer), rb := d.rb + 1)
  }

  /** A stream the frame is not of. */
  lemma OtherRead(d: Duplex, d': Duplex, x: nat)
    requires Reads(d, d') && x != LaneOf(Head(d)) && d'.a.peer.dialer == d.a.peer.dialer
    requires At(d'.a.peer, x) == At(d.a.peer, x)
    ensures Same(d, d', x)
  {
    hide Own, Seen, HalfOf, On, Coming, LaneAt, Reached, Unread;
    ReadGrows(d.b.log, d.rb, x);
  }

  lemma OwnRead(d: Duplex, d': Duplex, x: nat)
    requires Reads(d, d') && x == LaneOf(Head(d))
    ensures WayA(Flip(d), x) == [Head(d)] + WayA(Flip(d'), x)
    ensures HalfA(Flip(d'), x) == HalfA(Flip(d), x)
    ensures WayA(d', x) == On(Unread(d.a.log, d.ra), x) + Coming(LaneAt(d'.a.peer.writer, x))
  {
    hide Own, Seen, HalfOf, On, Coming, LaneAt, Reached, Unread;
    ReadGrows(d.b.log, d.rb, x);
  }

  lemma AssembleRead(d: Duplex, d': Duplex)
    requires Joined(d) && Reads(d, d') && SameFrame(d, d')
    requires forall x: nat :: x != LaneOf(Head(d)) ==> Same(d, d', x)
    requires var x := LaneOf(Head(d)); if x == 0 then Goodbyes(d') else Tied(d', x) && Tied(Flip(d'), x)
    requires Steady(d'.a, d.ca) && Tuned(d'.a, Reached(d.b.log, d.rb + 1))
    ensures Joined(d')
  {
    hide Joined, Steady, Tied, HalfA, Tuned, Lawful, LaneAt, Own, On, Reached, Goodbyes;
    var x := LaneOf(Head(d));
    forall y: nat | 0 < y
      ensures Tied(d', y) && Tied(Flip(d'), y)
    {
      JoinedTies(d, y);
      if y != x {
        SameTied(d, d', y);
      }
    }
    W.FlipJoined(d);
    JoinedTuned(Flip(d));
    JoinedTuned(d);
    if x == 0 {
      OwnRead(d, d', 0);
      FewerFlipped(Flip(d), Flip(d'), Head(d));
    } else {
      WaySame(d, d', 0);
      SameGoodbyes(d, d');
      WaySame(Flip(d), Flip(d'), 0) by { FlipSame(d, d', 0); }
      SameGoodbyes(Flip(d), Flip(d'));
    }
    JoinedRead(d, d');
  }

  lemma FlipSame(d: Duplex, d': Duplex, x: nat)
    requires Same(d, d', x)
    ensures Same(Flip(d), Flip(d'), x)
  {
    hide HalfA, WayA;
  }

  lemma SameGoodbyes(d: Duplex, d': Duplex)
    requires Goodbyes(d) && WayA(d', 0) == WayA(d, 0) && d'.a.peer.goaway.sentLast == d.a.peer.goaway.sentLast
    ensures Goodbyes(d')
  {
    hide WayA;
  }

  lemma FewerFlipped(d: Duplex, d': Duplex, f: Frame)
    requires Goodbyes(d) && WayA(d, 0) == [f] + WayA(d', 0) && d'.a.peer.goaway.sentLast == d.a.peer.goaway.sentLast
    ensures Goodbyes(d')
  {
    hide WayA;
    assert forall g :: g in WayA(d', 0) ==> g in WayA(d, 0);
  }

  lemma JoinedRead(d: Duplex, d': Duplex)
    requires Joined(d) && Reads(d, d') && SameFrame(d, d')
    requires forall x: nat :: 0 < x ==> Tied(d', x) && Tied(Flip(d'), x)
    requires Steady(d'.a, d.ca) && Tuned(d'.a, Reached(d.b.log, d.rb + 1)) && Goodbyes(d') && Goodbyes(Flip(d'))
    ensures Joined(d')
  {
    hide Steady, Tied, Tuned, WayA, Lawful;
  }

  // ------------------------------------------------------------ a stream frame

  /** The frame is of stream `x`, reaches an open end, and can be heard. */
  ghost predicate Hears(d: Duplex, d': Duplex, x: nat, view: View) {
    && Joined(d) && Reads(d, d') && SameFrame(d, d')
    && 0 < x == LaneOf(Head(d)) && d.a.peer.isOpen
    && !Stopped(EarOf(HalfA(d, x))) && Hear(EarOf(HalfA(d, x)), Head(d), d.ca.codec) == Hearing(view, Done(HalfA(d, x)))
    && (At(d.a.peer, x).stream.None? ==> HalfA(d, x).Unborn? && SaidOn(d.a, x) == SILENCE)
    && (At(d.a.peer, x).stream.Some? ==> !At(d.a.peer, x).stream.value.cause.ByReset?)
  }

  lemma SaidOfSame(s: S.Stream, t: S.Stream, said: Words)
    requires SaidOf(s, SILENCE) == SaidOf(t, SILENCE)
    ensures SaidOf(s, said) == SaidOf(t, said)
  {
  }

  lemma TookInHalf(d: Duplex, d': Duplex, x: nat, view: View)
    requires Hears(d, d', x, view) && TookIn(At(d.a.peer, x), At(d'.a.peer, x), view)
    ensures var k, k' := HalfA(d, x), HalfA(d', x);
            && k'.Alive? && k'.heard == view && (view.ended ==> !view.opening)
            && (k.Unborn? ==> k'.said == FRESH)
            && (k.Unborn? || (k.Alive? && k'.said == k.said))
            && WayA(d', x) == WayA(d, x)
  {
    hide Joined, HeardOf, SaidOf, Own, Seen, LaneAt, Coming, On, Hear;
    var c, c' := At(d.a.peer, x), At(d'.a.peer, x);
    assert SaidOn(d'.a, x) == SaidOn(d.a, x);
    if c.stream.Some? {
      SaidOfSame(c'.stream.value, c.stream.value, SaidOn(d.a, x));
    }
    TookInView(c, c', view);
    OwnRead(d, d', x);
  }

  lemma TookInView(c: Cell, c': Cell, view: View)
    requires TookIn(c, c', view)
    ensures view.ended ==> !view.opening
  {
    hide ValuesOf, SaidOf;
  }

  lemma TookInTied(d: Duplex, d': Duplex, x: nat, view: View)
    requires Hears(d, d', x, view) && TookIn(At(d.a.peer, x), At(d'.a.peer, x), view)
    ensures Tied(d', x) && Tied(Flip(d'), x)
  {
    hide Joined, Linked, HalfIn, WayA, Own, Hear, EarOf, Reached, TookIn;
    var f := Head(d);
    var k, k' := HalfA(d, x), HalfA(d', x);
    var h := HalfA(Flip(d), x);
    TookInHalf(d, d', x, view);
    JoinedTies(d, x);
    OwnRead(d, d', x);
    W.CodecLawful(d);
    OwnSplitsJoined(d, x);
    var own, late := Own(SideOf(d.b.peer, d.cb), x), Late(d.a, x);
    HeadIsHeard(h, f, WayA(Flip(d'), x), k, own, late, d.b.peer.isOpen, d.ca.codec);
    TakenInLinked(h, f, WayA(Flip(d'), x), k, k', own, late, d.b.peer.isOpen, d.ca.codec);
    if k.Unborn? {
      UnbornIsTheirs(k, WayA(d, x), h, Own(SideOf(d.a.peer, d.ca), x), Late(d.b, x), d.a.peer.isOpen, d.b.peer.isOpen,
                     d.ca.codec);
      AnswerableLinked(WayA(d, x), h, k', Late(d.b, x), d.a.peer.isOpen, d.b.peer.isOpen, d.ca.codec);
    } else {
      SpeakerHeard(k, WayA(d, x), h, k', Own(SideOf(d.a.peer, d.ca), x), Late(d.b, x), d.a.peer.isOpen,
                   d.b.peer.isOpen, d.ca.codec);
    }
  }

  lemma UnbornIsTheirs(h: Half, q: seq<Frame>, k: Half, own: bool, late: bool, up: bool, open: bool, codec: Codec)
    requires Linked(h, q, k, own, late, up, open, codec) && h.Unborn? && !k.Unborn?
    ensures !own && q == []
  {
  }

  lemma TurnedAwayHalf(d: Duplex, d': Duplex, x: nat, view: View)
    requires Hears(d, d', x, view) && TurnedAway(At(d.a.peer, x), At(d'.a.peer, x), view, x)
    requires !Own(SideOf(d.a.peer, d.ca), x) || At(d'.a.peer, x).stream.Some?
    ensures var k, k' := HalfA(d, x), HalfA(d', x);
            && k'.Dead? && k'.had <= view.values && Said(k') == Said(k) && (view.opening ==> k'.cut)
  {
    hide Joined, HeardOf, ValuesOf, Own, LaneAt, Coming, On, Hear, DiscardExceptUnsentOpen, Seen, Unread;
    ReadGrows(d.b.log, d.rb, x);
    assert SaidOn(d'.a, x) == SaidOn(d.a, x);
  }

  /** What is left on its way of a stream that was turned away: a part of what was, and a reset. */
  lemma TurnedAwayWay(d: Duplex, d': Duplex, x: nat, view: View) returns (kept: seq<Frame>, dropped: seq<Frame>,
      f: Frame)
    requires Hears(d, d', x, view) && TurnedAway(At(d.a.peer, x), At(d'.a.peer, x), view, x)
    ensures WayA(d, x) == kept + dropped && WayA(d', x) == kept + [f] && f.kind == ResetFrame
  {
    hide Joined, HalfIn, Own, LaneAt, Coming, On, Hear, DiscardExceptUnsentOpen, Seen, Unread, Reached, Tail;
    var c, c' := At(d.a.peer, x), At(d'.a.peer, x);
    var front := On(Unread(d.a.log, d.ra), x);
    var code :| TurnedAwayWith(c, c', view, x, code);
    f := ResetWith(x, code, None);
    ComingTail(c.lane, f);
    ComingTail(DiscardExceptUnsentOpen(c.lane), f);
    ComingKept(c.lane);
    OwnRead(d, d', x);
    if c'.lane == Tail(c.lane, f) {
      kept, dropped := WayA(d, x), [];
      assert front + (Coming(c.lane) + [f]) == (front + Coming(c.lane)) + [f];
    } else {
      var rest := DiscardExceptUnsentOpen(c.lane);
      kept, dropped := front + Coming(rest), Coming(c.lane)[|Coming(rest)|..];
      assert Coming(c.lane) == Coming(rest) + dropped;
      assert front + (Coming(rest) + [f]) == (front + Coming(rest)) + [f];
      assert front + (Coming(rest) + dropped) == (front + Coming(rest)) + dropped;
    }
  }

  lemma TurnedAwayTied(d: Duplex, d': Duplex, x: nat, view: View)
    requires Hears(d, d', x, view) && TurnedAway(At(d.a.peer, x), At(d'.a.peer, x), view, x)
    requires !Own(SideOf(d.a.peer, d.ca), x) || At(d'.a.peer, x).stream.Some?
    ensures Tied(d', x) && Tied(Flip(d'), x)
  {
    hide Joined, Linked, HalfIn, WayA, Own, Hear, EarOf, Reached, TurnedAway;
    var f := Head(d);
    var k, k' := HalfA(d, x), HalfA(d', x);
    var h := HalfA(Flip(d), x);
    TurnedAwayHalf(d, d', x, view);
    var kept, dropped, reset := TurnedAwayWay(d, d', x, view);
    JoinedTies(d, x);
    OwnRead(d, d', x);
    W.CodecLawful(d);
    var own, late := Own(SideOf(d.b.peer, d.cb), x), Late(d.a, x);
    HeadIsHeard(h, f, WayA(Flip(d'), x), k, own, late, d.b.peer.isOpen, d.ca.codec);
    RefusedLinked(h, f, WayA(Flip(d'), x), k, k', own, late, d.b.peer.isOpen, d.ca.codec);
    ResetLinked(k, WayA(d, x), kept, dropped, reset, h, k', Own(SideOf(d.a.peer, d.ca), x), Late(d.b, x),
                d.b.peer.isOpen, d.ca.codec);
  }

  // ------------------------------------------------------------ the first frame of a stream

  lemma TunedRead(e: End, e': End, heard: seq<Frame>, f: Frame)
    requires Tuned(e, heard) && e'.said == e.said
    requires var x := LaneOf(f);
             && (forall y: nat :: y != x ==> At(e'.peer, y).stream == At(e.peer, y).stream)
             && (At(e'.peer, x).stream.Some?
                 ==> Proper(At(e'.peer, x).stream.value) && Fitting(At(e'.peer, x).stream.value, SaidOn(e, x)))
             && (At(e.peer, x).stream.Some? ==> At(e'.peer, x).stream.Some?)
             && (e'.peer.highRemote == e.peer.highRemote
                 || (f.kind == OpenFrame && e.peer.highRemote < e'.peer.highRemote == x))
             && (f.kind == OpenFrame ==> x <= e'.peer.highRemote)
    ensures Tuned(e', heard + [f])
  {
    hide Proper, Fitting, LaneAt;
    var x := LaneOf(f);
    var all := heard + [f];
    assert all[|heard|] == f;
    forall y | y in e'.peer.objects
      ensures Proper(e'.peer.objects[y]) && Fitting(e'.peer.objects[y], SaidOn(e', y))
        && (!e'.peer.objects[y].local ==> Seen(all, y))
    {
      assert y != x ==> At(e'.peer, y).stream == At(e.peer, y).stream;
      SeenAppend(heard, f, y);
    }
    forall y | y in e'.said
      ensures y in e'.peer.objects
    {
      assert y != x ==> At(e'.peer, y).stream == At(e.peer, y).stream;
    }
    assert OpenedIn(heard, e'.peer.highRemote) ==> OpenedIn(all, e'.peer.highRemote) by {
      if i :| 0 <= i < |heard| && heard[i].kind == OpenFrame && LaneOf(heard[i]) == e'.peer.highRemote {
        assert all[i] == heard[i];
      }
    }
  }

  /** Only stream `x` answered the frame. */
  ghost predicate Answered(d: Duplex, d': Duplex, x: nat, view: View) {
    && Hears(d, d', x, view)
    && (if At(d.a.peer, x).stream.Some? then d'.a.peer.highRemote == d.a.peer.highRemote
        else Head(d).kind == OpenFrame && d.a.peer.highRemote < d'.a.peer.highRemote == x)
    && (Head(d).kind == OpenFrame ==> x <= d'.a.peer.highRemote)
    && Answers(d.a.peer.(highRemote := d'.a.peer.highRemote), d'.a.peer, x, view)
    && (At(d.a.peer, x).stream.Some? || !Own(SideOf(d.a.peer, d.ca), x))
    && (At(d.a.peer, x).stream.Some? ==> x in d.a.peer.live)
  }

  lemma AnsweredJoined(d: Duplex, d': Duplex, x: nat, view: View)
    requires Answered(d, d', x, view) && Steady(d'.a, d.ca)
    ensures Joined(d')
    ensures d'.a.peer.failed == d.a.peer.failed
  {
    hide Joined, Hear, EarOf, HalfIn, Own, Steady, Tied, Tuned, TookIn, TurnedAway, LaneAt, Proper, Reached;
    var q := d.a.peer.(highRemote := d'.a.peer.highRemote);
    forall y: nat
      ensures At(q, y) == At(d.a.peer, y)
    {
    }
    forall y: nat | y != x
      ensures Same(d, d', y) && At(d'.a.peer, y).stream == At(d.a.peer, y).stream
    {
      assert At(d'.a.peer, y) == At(q, y);
      OtherRead(d, d', y);
    }
    AnsweredStream(At(d.a.peer, x), At(d'.a.peer, x), view, x);
    AnsweredFits(d, d', x, view);
    if TookIn(At(d.a.peer, x), At(d'.a.peer, x), view) {
      TookInTied(d, d', x, view);
    } else {
      TurnedAwayTied(d, d', x, view);
    }
    JoinedTuned(d);
    ReadGrows(d.b.log, d.rb, x);
    TunedRead(d.a, d'.a, Reached(d.b.log, d.rb), Head(d));
    AssembleRead(d, d');
  }

  lemma AnsweredStream(c: Cell, c': Cell, view: View, id: nat)
    requires TookIn(c, c', view) || TurnedAway(c, c', view, id)
    ensures c'.stream.Some? ==> Proper(c'.stream.value)
    ensures c.stream.Some? ==> c'.stream.Some?
  {
    hide HeardOf, SaidOf, ValuesOf, DiscardExceptUnsentOpen;
  }

  /** The answer fits what was said. */
  lemma AnsweredFits(d: Duplex, d': Duplex, x: nat, view: View)
    requires Answered(d, d', x, view)
    ensures At(d'.a.peer, x).stream.Some? ==> Fitting(At(d'.a.peer, x).stream.value, SaidOn(d.a, x))
  {
    hide Joined, Hear, EarOf, HalfIn, Own, LaneAt, Reached, Fitting, TookIn, TurnedAway, SaidOn;
    JoinedTuned(d);
    CellFits(At(d.a.peer, x), At(d'.a.peer, x), view, x, SaidOn(d.a, x));
  }

  lemma CellFits(c: Cell, c': Cell, view: View, id: nat, w: Words)
    requires TookIn(c, c', view) || TurnedAway(c, c', view, id)
    requires if c.stream.Some? then Fitting(c.stream.value, w) && Proper(c.stream.value)
      && !c.stream.value.cause.ByReset? else w == SILENCE
    ensures c'.stream.Some? ==> Fitting(c'.stream.value, w)
  {
    hide HeardOf, ValuesOf, DiscardExceptUnsentOpen;
  }

  lemma DispatchedAt(d: Duplex)
    requires Joined(d) && CanRead(d)
    ensures var d' := MoveA(d, Deliver);
            && Reads(d, d')
            && d'.a.peer == Dispatch(d.a.peer, Head(d), d.ca)
            && Steady(d'.a, d.ca)
  {
    hide Joined, Steady, Dispatch, OverCap;
    HeadIsOrderly(d);
    JoinedSteady(d);
    var f := Head(d);
    StepSteady(d.a, Action.Read(f, SizeOf(d.cb.codec, f)), d.ca);
  }

  /** A stream `a` has not met: the frame is its `open`, above the high mark. */
  lemma NewIsAdmissible(d: Duplex, x: nat)
    requires Joined(d) && CanRead(d) && x == LaneOf(Head(d)) && 0 < x && HalfA(d, x).Unborn?
    ensures x !in d.a.peer.objects && x !in d.a.peer.live && SaidOn(d.a, x) == SILENCE
    ensures !Own(SideOf(d.a.peer, d.ca), x)
    ensures Head(d).kind == OpenFrame && Head(d).stream == Some(x) && Admissible(d.a.peer, x)
  {
    hide Joined, Steady, Proper, HalfOf, L.Fits, Listed, Bounded, Afloat, A.Counted;
    HeadIsOrderly(d);
    JoinedTies(d, x);
    OwnRead(d, MoveA(d, Deliver), x) by { DispatchedAt(d); }
    OwnSplitsJoined(d, x);
    JoinedTuned(d);
    JoinedSteady(d);
    UnbornCell(At(d.a.peer, x), SaidOn(d.a, x), !Own(SideOf(d.a.peer, d.ca), x) && Seen(Reached(d.b.log, d.rb), x));
    NotTheirs(d, x);
  }

  lemma UnbornCell(c: Cell, said: Words, met: bool)
    requires HalfOf(c, said, met).Unborn?
    ensures c.stream.None? && !met
  {
  }

  /** A stream `b` speaks on, and `a` has no half of, is one `b` opens. */
  lemma NotTheirs(d: Duplex, x: nat)
    requires Joined(d) && CanRead(d) && x == LaneOf(Head(d)) && 0 < x && HalfA(d, x).Unborn?
    ensures !Own(SideOf(d.a.peer, d.ca), x)
  {
    hide Joined, HalfA, Own, WayA, Dispatch;
    JoinedTies(d, x);
    DispatchedAt(d);
    OwnRead(d, MoveA(d, Deliver), x);
    SpokenIsTheirs(HalfA(Flip(d), x), WayA(Flip(d), x), HalfA(d, x), Own(SideOf(d.b.peer, d.cb), x), Late(d.a, x),
                   d.b.peer.isOpen, d.a.peer.isOpen, d.cb.codec);
    UntouchedIsUnborn(HalfA(d, x), WayA(d, x), HalfA(Flip(d), x), Own(SideOf(d.a.peer, d.ca), x), Late(d.b, x),
                      d.a.peer.isOpen, d.b.peer.isOpen, d.ca.codec);
  }

  lemma SpokenIsTheirs(h: Half, q: seq<Frame>, k: Half, own: bool, late: bool, up: bool, open: bool, codec: Codec)
    requires Linked(h, q, k, own, late, up, open, codec) && q != []
    ensures !h.Unborn?
  {
  }

  lemma UntouchedIsUnborn(h: Half, q: seq<Frame>, k: Half, own: bool, late: bool, up: bool, open: bool, codec: Codec)
    requires Linked(h, q, k, own, late, up, open, codec) && h.Unborn? && !k.Unborn?
    ensures !own
  {
  }

  /** The bytes of a payload in fragments that are held for stream `x`. */
  function Held(p: Peer, x: nat): nat {
    if x in p.objects then p.objects[x].partial.bytes else 0
  }

  /** The code with which `p` turns away a frame of stream `x` that it can hear. */
  function Away(p: Peer, x: nat, f: Frame, cfg: Config): Option<int> {
    if f.kind == OpenFrame then TurnsAway(p, f, x !in p.objects, Held(p, x), cfg) else TooLarge(f, Held(p, x), cfg)
  }

  /** The frame that arrives on stream `x` is taken in, or turned away for the reasons there are. */
  ghost predicate TreatsHead(d: Duplex, x: nat, view: View) {
    CanRead(d) && Treats(At(d.a.peer, x), At(MoveA(d, Deliver).a.peer, x), view, x, Away(d.a.peer, x, Head(d), d.ca))
  }

  lemma NewOpenAnswers(d: Duplex, x: nat) returns (view: View)
    requires Joined(d) && CanRead(d) && x == LaneOf(Head(d)) && 0 < x && HalfA(d, x).Unborn?
    ensures Answered(d, MoveA(d, Deliver), x, view) && Steady(MoveA(d, Deliver).a, d.ca) && TreatsHead(d, x, view)
  {
    hide Joined, Steady, Hear, HearOpen, OnOpen, OnStreamFrame, HalfIn, Own, Answers, Tied, Linked, WayA, Became,
      LaneAt, TookIn, TurnedAwayWith, TurnsAway, TooLarge;
    var d' := MoveA(d, Deliver);
    var f := Head(d);
    DispatchedAt(d);
    NewIsAdmissible(d, x);
    JoinedTies(d, x);
    OwnRead(d, d', x);
    W.CodecLawful(d);
    TiedHead(d, d', x);
    HearIsHearOpen(Unseen, f, d.ca.codec);
    NewOpenAt(d.a.peer, f, d.ca);
    view := HearOpen(Unseen, f, d.ca.codec).view;
    TreatsOneWay(d.a.peer.(highRemote := x), d'.a.peer, x, view, TurnsAway(d.a.peer, f, true, 0, d.ca));
    AnswersFrame(d, d', x, view);
    assert At(d.a.peer.(highRemote := x), x) == At(d.a.peer, x);
  }

  lemma HearIsHearOpen(e: Ear, f: Frame, codec: Codec)
    requires f.kind == OpenFrame
    ensures Hear(e, f, codec) == HearOpen(e, f, codec)
    ensures HearOpen(e, f, codec).Hearing? ==> HearOpen(e, f, codec).done == (e.Hearing? && e.done)
  {
    hide HearChunk;
  }

  /** What the tie says of the frame that arrives. */
  lemma TiedHead(d: Duplex, d': Duplex, x: nat)
    requires Joined(d) && Reads(d, d') && x == LaneOf(Head(d)) && 0 < x && d.a.peer.isOpen
    ensures (HalfA(d, x).Dead? && HalfA(d, x).cut) || Hear(EarOf(HalfA(d, x)), Head(d), d.ca.codec) != Broken
    ensures !HalfA(Flip(d), x).Unborn?
    ensures d.b.peer.isOpen && Head(d).kind == ResetFrame ==> HalfA(Flip(d), x).Dead?
  {
    hide Joined, Linked, Hear, EarOf, HalfIn, WayA, Own;
    JoinedTies(d, x);
    OwnRead(d, d', x);
    W.CodecLawful(d);
    HeadIsHeard(HalfA(Flip(d), x), Head(d), WayA(Flip(d'), x), HalfA(d, x), Own(SideOf(d.b.peer, d.cb), x),
                Late(d.a, x), d.b.peer.isOpen, d.ca.codec);
  }

  lemma AnswersFrame(d: Duplex, d': Duplex, x: nat, view: View)
    requires Reads(d, d') && Answers(d.a.peer.(highRemote := x), d'.a.peer, x, view)
    ensures SameFrame(d, d') && d'.a.peer.highRemote == x && d'.a.peer.failed == d.a.peer.failed
    ensures Answers(d.a.peer.(highRemote := d'.a.peer.highRemote), d'.a.peer, x, view)
  {
    hide At, TookIn, TurnedAway;
  }

  // ------------------------------------------------------------ a later frame of a live stream

  lemma LiveAnswers(d: Duplex, x: nat, view: View)
    requires Joined(d) && CanRead(d) && x == LaneOf(Head(d)) && x in d.a.peer.live
    requires !Stopped(EarOf(HalfA(d, x)))
      && Hear(EarOf(HalfA(d, x)), Head(d), d.ca.codec) == Hearing(view, Done(HalfA(d, x)))
    requires Answers(d.a.peer, MoveA(d, Deliver).a.peer, x, view)
    ensures Answered(d, MoveA(d, Deliver), x, view) && Steady(MoveA(d, Deliver).a, d.ca)
  {
    hide Joined, Steady, Hear, Dispatch, Answers, Receive, HeardOf, SaidOf;
    var d' := MoveA(d, Deliver);
    DispatchedAt(d);
    LiveHalf(d, x);
    AnswersHere(d, d', x, view);
    LiveIsKnown(d, x);
  }

  lemma AnswersHere(d: Duplex, d': Duplex, x: nat, view: View)
    requires Reads(d, d') && Answers(d.a.peer, d'.a.peer, x, view)
    ensures SameFrame(d, d') && d'.a.peer.highRemote == d.a.peer.highRemote && d'.a.peer.failed == d.a.peer.failed
    ensures Answers(d.a.peer.(highRemote := d'.a.peer.highRemote), d'.a.peer, x, view)
  {
    hide TookIn, TurnedAway, LaneAt;
    assert d.a.peer.(highRemote := d'.a.peer.highRemote) == d.a.peer;
  }

  lemma LiveIsKnown(d: Duplex, x: nat)
    requires Joined(d) && CanRead(d) && x == LaneOf(Head(d)) && x in d.a.peer.live
    ensures Head(d).kind == OpenFrame ==> x <= d.a.peer.highRemote
  {
    hide Joined, Proper, L.Fits, Listed, Bounded, Afloat, A.Counted, HeardOf, SaidOf;
    LiveHalf(d, x);
    JoinedSteady(d);
    HeadIsOrderly(d);
    OwnSplitsJoined(d, x);
    assert Kept(d.a.peer, x, d.a.peer.objects[x], d.ca);
  }

  lemma HearsData(v: View, done: bool, f: Frame, codec: Codec)
    requires f.kind == DataFrame && !Stopped(Hearing(v, done))
    ensures Hear(Hearing(v, done), f, codec) == By(HearData(v, f, codec), done)
  {
    hide HearData;
  }

  lemma DataAnswers(d: Duplex, x: nat) returns (view: View)
    requires Joined(d) && CanRead(d) && x == LaneOf(Head(d)) && x in d.a.peer.live && Head(d).kind == DataFrame
    requires !Stopped(EarOf(HalfA(d, x)))
    ensures Answered(d, MoveA(d, Deliver), x, view) && Steady(MoveA(d, Deliver).a, d.ca) && TreatsHead(d, x, view)
  {
    hide Joined, Steady, Hear, HearData, OnData, OnOpen, HeardOf, SaidOf, Answers, Proper, Fitting, A.Counted,
      Answered, Stopped, TurnsAway, TooLarge, Became, At, Treats;
    var d' := MoveA(d, Deliver);
    var f := Head(d);
    DispatchedAt(d);
    LiveHalf(d, x);
    TiedHead(d, d', x);
    HearsData(HeardOf(d.a.peer.objects[x]), Done(HalfA(d, x)), f, d.ca.codec);
    HeadIsOrderly(d);
    JoinedSteady(d);
    LiveCounted(d.a.peer, x, d.ca);
    DataAt(d.a.peer, x, f, d.ca);
    view := HearData(HeardOf(d.a.peer.objects[x]), f, d.ca.codec).view;
    TreatsOneWay(d.a.peer, d'.a.peer, x, view, TooLarge(f, Held(d.a.peer, x), d.ca));
    LiveAnswers(d, x, view);
  }

  lemma LiveCounted(p: Peer, x: nat, cfg: Config)
    requires Sound(p, cfg) && x in p.objects
    ensures A.Counted(p.objects[x].partial)
    ensures p.objects[x].opening ==> !p.objects[x].local
  {
    hide A.Counted;
    assert Kept(p, x, p.objects[x], cfg);
  }

  lemma LaterOpenAnswers(d: Duplex, x: nat) returns (view: View)
    requires Joined(d) && CanRead(d) && x == LaneOf(Head(d)) && x in d.a.peer.live && Head(d).kind == OpenFrame
    requires !Stopped(EarOf(HalfA(d, x)))
    ensures Answered(d, MoveA(d, Deliver), x, view) && Steady(MoveA(d, Deliver).a, d.ca) && TreatsHead(d, x, view)
  {
    hide Joined, Steady, Hear, HearOpen, OnData, OnOpen, HeardOf, SaidOf, Answers, Proper, Fitting, A.Counted,
      Answered, Stopped, TurnsAway, TooLarge, Became, At, Treats;
    var d' := MoveA(d, Deliver);
    var f := Head(d);
    DispatchedAt(d);
    LiveHalf(d, x);
    TiedHead(d, d', x);
    var done := Done(HalfA(d, x));
    HearIsHearOpen(Hearing(HeardOf(d.a.peer.objects[x]), done), f, d.ca.codec);
    HeadIsOrderly(d);
    JoinedSteady(d);
    LiveCounted(d.a.peer, x, d.ca);
    OpeningHeard(HeardOf(d.a.peer.objects[x]), done, f, d.ca.codec);
    HeardOpening(d.a.peer.objects[x]);
    LaterOpenAt(d.a.peer, x, f, done, d.ca);
    view := HearOpen(Hearing(HeardOf(d.a.peer.objects[x]), done), f, d.ca.codec).view;
    TreatsOneWay(d.a.peer, d'.a.peer, x, view, TurnsAway(d.a.peer, f, false, Held(d.a.peer, x), d.ca));
    LiveAnswers(d, x, view);
  }

  lemma OpeningHeard(v: View, done: bool, f: Frame, codec: Codec)
    requires HearOpen(Hearing(v, done), f, codec) != Broken
    ensures v.opening
  {
    hide HearChunk;
  }

  lemma HeardOpening(s: S.Stream)
    ensures HeardOf(s).opening == s.opening
  {
  }

  // ------------------------------------------------------------ a reset

  lemma ResetReadAt(p: Peer, x: nat, f: Frame, cfg: Config)
    requires x in p.live && x in p.objects && f.kind == ResetFrame && f.stream == Some(x)
    ensures var code := if f.code.Some? then f.code.value else 0;
            var c := At(p, x);
            Became(p, OnStreamFrame(p, f, cfg), x, Fallen(c.(lane := DiscardExceptUnsentOpen(c.lane)), code))
  {
    hide Became, Discard, FailStream, DiscardExceptUnsentOpen, Fallen, LaneAt, OnData;
    var code := if f.code.Some? then f.code.value else 0;
    var q := p.(writer := Discard(p.writer, x));
    DiscardedAt(p, x);
    BecameCell(p, q, x, At(p, x).(lane := DiscardExceptUnsentOpen(At(p, x).lane)));
    FailStreamAt(q, x, code);
    BecameTrans(p, q, FailStream(q, x, code), x, At(q, x), Fallen(At(q, x), code));
  }

  /** The half of a live stream whose reset was read. */
  lemma ResetHalf(d: Duplex, d': Duplex, x: nat, lane: Lane, code: int)
    requires Joined(d) && Reads(d, d') && x == LaneOf(Head(d)) && d'.a.peer.dialer == d.a.peer.dialer
    requires x in d.a.peer.live && x in d.a.peer.objects
      && At(d'.a.peer, x) == Fallen(At(d.a.peer, x).(lane := lane), code)
    ensures var h, h' := HalfA(d, x), HalfA(d', x);
            && h.Alive? && h'.Dead? && h'.had == Heard(h) && Said(h') == Said(h)
            && Proper(At(d'.a.peer, x).stream.value) && Fitting(At(d'.a.peer, x).stream.value, SaidOn(d.a, x))
            && LaneAt(d'.a.peer.writer, x) == lane
  {
    hide Joined, ValuesOf, Own, LaneAt, Seen, Reached, Fitting;
    FailedFits(d.a.peer.objects[x], SaidOn(d.a, x), code) by { LiveHalf(d, x); }
    LiveHalf(d, x);
    assert SaidOn(d'.a, x) == SaidOn(d.a, x);
    var c := At(d.a.peer, x);
    var met := !Own(SideOf(d.a.peer, d.ca), x) && Seen(Reached(d'.b.log, d'.rb), x);
    FallenHalf(c.(lane := lane), code, SaidOn(d.a, x), met);
    HalfOfLane(c, lane, SaidOn(d.a, x), met);
  }

  lemma ResetReadTied(d: Duplex, d': Duplex, x: nat, code: int)
    requires Joined(d) && Reads(d, d') && SameFrame(d, d') && x == LaneOf(Head(d)) && Head(d).kind == ResetFrame
    requires x in d.a.peer.live && x in d.a.peer.objects
    requires var c := At(d.a.peer, x); At(d'.a.peer, x) == Fallen(c.(lane := DiscardExceptUnsentOpen(c.lane)), code)
    ensures Tied(d', x) && Tied(Flip(d'), x)
  {
    hide Joined, Linked, HalfIn, Own, Hear, EarOf, Reached, Unread, On, Coming, LaneAt, DiscardExceptUnsentOpen,
      Fallen, HeardOf, SaidOf, Proper;
    var f := Head(d);
    var k, k' := HalfA(d, x), HalfA(d', x);
    var h := HalfA(Flip(d), x);
    var lane := DiscardExceptUnsentOpen(At(d.a.peer, x).lane);
    LiveHalf(d, x);
    ResetHalf(d, d', x, lane, code);
    TiedHead(d, d', x);
    JoinedTies(d, x);
    OwnRead(d, d', x);
    W.CodecLawful(d);
    SilencedLinked(h, f, WayA(Flip(d'), x), k, k', Own(SideOf(d.b.peer, d.cb), x), Late(d.a, x), d.b.peer.isOpen,
                   d.ca.codec);
    ComingKept(At(d.a.peer, x).lane);
    var front := On(Unread(d.a.log, d.ra), x);
    var all := Coming(At(d.a.peer, x).lane);
    var dropped := all[|Coming(lane)|..];
    assert all == Coming(lane) + dropped;
    assert WayA(d, x) == (front + Coming(lane)) + dropped;
    if d.b.peer.isOpen {
      DeadIsSilent(h);
    }
    QuietLinked(k, WayA(d, x), front + Coming(lane), dropped, h, k', Own(SideOf(d.a.peer, d.ca), x), Late(d.b, x),
                d.b.peer.isOpen, d.ca.codec);
  }

  lemma DeadIsSilent(h: Half)
    ensures h.Dead? ==> Stopped(EarOf(h))
  {
  }

  lemma ResetReadJoined(d: Duplex, x: nat)
    requires Joined(d) && CanRead(d) && x == LaneOf(Head(d)) && x in d.a.peer.live && Head(d).kind == ResetFrame
    ensures Joined(MoveA(d, Deliver))
    ensures MoveA(d, Deliver).a.peer.failed == d.a.peer.failed
  {
    hide Joined, Steady, Became, OnStreamFrame, Fallen, Tied, HeardOf, SaidOf, DiscardExceptUnsentOpen, LaneAt, Same,
      Tuned, Proper, Reached;
    var d' := MoveA(d, Deliver);
    var f := Head(d);
    var code := if f.code.Some? then f.code.value else 0;
    DispatchedAt(d);
    LiveHalf(d, x);
    HeadIsOrderly(d);
    ResetReadAt(d.a.peer, x, f, d.ca);
    var c := At(d.a.peer, x).(lane := DiscardExceptUnsentOpen(At(d.a.peer, x).lane));
    BecameTouched(d.a.peer, d'.a.peer, x, Fallen(c, code));
    BecameReads(d, d', x, Fallen(c, code));
    ResetReadTied(d, d', x, code);
    ResetHalf(d, d', x, c.lane, code);
    FallenHas(c, code);
    forall y: nat | y != x
      ensures Same(d, d', y) && At(d'.a.peer, y).stream == At(d.a.peer, y).stream
    {
      TouchedRead(d, d', x, y);
    }
    JoinedTuned(d);
    ReadGrows(d.b.log, d.rb, x);
    TunedRead(d.a, d'.a, Reached(d.b.log, d.rb), f);
    AssembleRead(d, d');
  }

  lemma BecameReads(d: Duplex, d': Duplex, x: nat, c: Cell)
    requires Reads(d, d') && Became(d.a.peer, d'.a.peer, x, c)
    ensures SameFrame(d, d') && d'.a.peer.highRemote == d.a.peer.highRemote && d'.a.peer.failed == d.a.peer.failed
  {
    hide At;
  }

  lemma TouchedRead(d: Duplex, d': Duplex, x: nat, y: nat)
    requires Reads(d, d') && x == LaneOf(Head(d)) && y != x && Touched(d.a.peer, d'.a.peer, x)
    ensures Same(d, d', y) && At(d'.a.peer, y).stream == At(d.a.peer, y).stream
  {
    hide LaneAt, Same;
    assert At(d'.a.peer, y) == At(d.a.peer, y);
    OtherRead(d, d', y);
  }

  // ------------------------------------------------------------ a frame for a closed stream

  /** A half that does not listen is known to the peer: its id is at or below the mark.  If it is live, its remote has
      ended, and so had its application while it was opening. */
  lemma SilentIsKnown(d: Duplex, x: nat)
    requires Joined(d) && 0 < x && Stopped(EarOf(HalfA(d, x)))
    ensures x in d.a.peer.live ==> x in d.a.peer.objects && d.a.peer.objects[x].state == S.HalfClosedRemote
    ensures x <= (if IsOurs(d.a.peer, x) then d.a.peer.highLocal else d.a.peer.highRemote)
  {
    hide Joined, Bounded, Afloat, A.Counted, Listed, HeardOf, SaidOf, ValuesOf, Proper, Orderly, Reached, Own, Seen,
      HalfOf;
    JoinedSteady(d);
    if x in d.a.peer.live {
      LiveHalf(d, x);
      HeardEnds(d.a.peer.objects[x]);
    }
    if x in d.a.peer.objects {
      assert Kept(d.a.peer, x, d.a.peer.objects[x], d.ca);
    } else {
      SilentIsMet(At(d.a.peer, x), SaidOn(d.a, x), !Own(SideOf(d.a.peer, d.ca), x) && Seen(Reached(d.b.log, d.rb), x));
      MetIsBelow(d, x);
      OwnIsOurs(d.a.peer, d.ca, x);
    }
  }

  lemma HeardEnds(s: S.Stream)
    ensures HeardOf(s).ended <==> s.state == S.HalfClosedRemote || s.state == S.Closed
  {
  }

  lemma AtHas(p: Peer, x: nat)
    requires x in p.objects
    ensures At(p, x).stream == Some(p.objects[x])
  {
  }

  lemma OwnIsOurs(p: Peer, cfg: Config, x: nat)
    requires 0 < x
    ensures Own(SideOf(p, cfg), x) <==> IsOurs(p, x)
  {
  }

  lemma SilentIsMet(c: Cell, said: Words, met: bool)
    requires Stopped(EarOf(HalfOf(c, said, met))) && c.stream.None?
    ensures met
  {
  }

  lemma MetIsBelow(d: Duplex, x: nat)
    requires Joined(d) && !Own(SideOf(d.a.peer, d.ca), x) && 0 < x && Seen(Reached(d.b.log, d.rb), x)
    ensures x <= d.a.peer.highRemote
  {
    hide Joined, Sound, Bounded, Afloat, Orderly, Own, Seen, Proper;
    JoinedTuned(d);
    W.FlipJoined(d);
    JoinedSteady(Flip(d));
    SteadyIsOrderly(d.b, d.cb);
    OwnSplitsJoined(d, x);
    OrderlyReached(d.b.log, SideOf(d.b.peer, d.cb), d.rb);
    SeenIsOpened(Reached(d.b.log, d.rb), x, SideOf(d.b.peer, d.cb));
  }

  lemma {:induction false} OrderlyReached(log: seq<Frame>, side: Side, r: nat)
    requires Orderly(log, side)
    ensures Orderly(Reached(log, r), side)
    decreases |log|
  {
    hide OnWire, Seen, OpensBelow, Own;
    if r < |log| {
      OrderlyReached(log[..|log| - 1], side, r);
      assert log[..|log| - 1][..r] == log[..r];
    } else {
      assert log[..|log|] == log;
    }
  }

  /** A late frame is dropped: nothing changes but what is on its way. */
  lemma DroppedTied(d: Duplex, d': Duplex, x: nat)
    requires Joined(d) && Reads(d, d') && SameFrame(d, d') && 0 < x == LaneOf(Head(d)) && d.a.peer.isOpen
    requires Stopped(EarOf(HalfA(d, x))) && At(d'.a.peer, x) == At(d.a.peer, x)
    ensures Tied(d', x) && Tied(Flip(d'), x)
  {
    hide Joined, Linked, Hear, EarOf, Reached, Unread, On, Coming, LaneAt, Own, Seen;
    JoinedTies(d, x);
    OwnRead(d, d', x);
    W.CodecLawful(d);
    SilentStays(d, d', x);
    DroppedLinked(HalfA(Flip(d), x), Head(d), WayA(Flip(d'), x), HalfA(d, x), Own(SideOf(d.b.peer, d.cb), x),
                  Late(d.a, x), d.b.peer.isOpen, d.ca.codec);
  }

  lemma SilentStays(d: Duplex, d': Duplex, x: nat)
    requires Reads(d, d') && SameFrame(d, d') && x == LaneOf(Head(d))
    requires Stopped(EarOf(HalfA(d, x))) && At(d'.a.peer, x) == At(d.a.peer, x)
    ensures HalfA(d', x) == HalfA(d, x)
  {
    hide LaneAt, HeardOf, SaidOf, ValuesOf, Own, Seen, Reached;
    ReadGrows(d.b.log, d.rb, x);
    assert SaidOn(d'.a, x) == SaidOn(d.a, x);
  }

  /** `a` reads a frame and changes no stream. */
  lemma UnchangedJoined(d: Duplex, d': Duplex, x: nat)
    requires Joined(d) && Reads(d, d') && x == LaneOf(Head(d)) && d.a.peer.isOpen && Steady(d'.a, d.ca)
    requires d'.a.peer == d.a.peer.(ignoredLate := d'.a.peer.ignoredLate)
    requires 0 < x ==> Stopped(EarOf(HalfA(d, x)))
    requires Head(d).kind == OpenFrame ==> x <= d.a.peer.highRemote
    ensures Joined(d')
  {
    hide Joined, Steady, Tied, Same, Tuned, HalfIn, EarOf, Reached, Goodbyes, At, Proper, WayA;
    UnchangedCells(d.a.peer, d'.a.peer);
    forall y: nat | y != x
      ensures Same(d, d', y)
    {
      OtherRead(d, d', y);
    }
    JoinedTuned(d);
    if x == 0 {
      WriterWay(d, d');
      SameGoodbyes(d, d');
    } else {
      DroppedTied(d, d', x);
    }
    ReadGrows(d.b.log, d.rb, x);
    AtProper(d, x);
    TunedRead(d.a, d'.a, Reached(d.b.log, d.rb), Head(d));
    AssembleRead(d, d');
  }

  lemma UnchangedCells(p: Peer, p': Peer)
    requires p'.objects == p.objects && p'.writer == p.writer && p'.cut == p.cut
    ensures forall y: nat :: At(p', y) == At(p, y)
  {
    hide LaneAt;
  }

  lemma AtProper(d: Duplex, x: nat)
    requires Joined(d)
    ensures At(d.a.peer, x).stream.Some?
      ==> Proper(At(d.a.peer, x).stream.value) && Fitting(At(d.a.peer, x).stream.value, SaidOn(d.a, x))
  {
    hide Joined, Proper, Fitting;
    JoinedTuned(d);
  }

  /** `data` on a stream whose remote has ended: it is closed with a reset.  First the frame is dropped, then the
      stream is reset. */
  lemma TooLateCell(d: Duplex, x: nat) returns (c: Cell)
    requires Joined(d) && CanRead(d) && 0 < x == LaneOf(Head(d)) && Stopped(EarOf(HalfA(d, x)))
      && Head(d).kind == DataFrame
    requires x in d.a.peer.live
    ensures x in d.a.peer.objects && c == At(d.a.peer, x) && c.stream == Some(d.a.peer.objects[x])
    ensures Reads(d, MoveA(d, Deliver)) && Steady(MoveA(d, Deliver).a, d.ca) && Joined(d.(rb := d.rb + 1))
    ensures Became(d.a.peer, MoveA(d, Deliver).a.peer, x, Cleared(c, x, PROTOCOL_ERROR))
  {
    hide Joined, Steady, EarOf, HalfA, FailConnection, OnOpen, ResetStream, Became, Cleared, At;
    DispatchedAt(d);
    SilentIsKnown(d, x);
    HeadIsOrderly(d);
    JoinedSteady(d);
    UnchangedJoined(d, d.(rb := d.rb + 1), x);
    AtHas(d.a.peer, x);
    ResetStreamAt(d.a.peer, x, PROTOCOL_ERROR);
    c := At(d.a.peer, x);
  }

  lemma TooLateJoined(d: Duplex, x: nat)
    requires Joined(d) && CanRead(d) && 0 < x == LaneOf(Head(d)) && Stopped(EarOf(HalfA(d, x)))
      && Head(d).kind == DataFrame
    requires x in d.a.peer.live
    ensures Joined(MoveA(d, Deliver))
    ensures MoveA(d, Deliver).a.peer.failed == d.a.peer.failed
  {
    hide Joined, Steady, EarOf, HalfA, MoveA, Became, Cleared, DiscardExceptUnsentOpen, At, HoldsUnsentOpen, Coming,
      Tail;
    var d' := MoveA(d, Deliver);
    var c := TooLateCell(d, x);
    var kept := DiscardExceptUnsentOpen(c.lane);
    ComingKept(c.lane);
    assert Coming(c.lane) == Coming(kept) + Coming(c.lane)[|Coming(kept)|..];
    ClearedIsFallen(c, x, PROTOCOL_ERROR);
    ResetJoined(d.(rb := d.rb + 1), d', x, kept, Coming(c.lane)[|Coming(kept)|..], ResetWith(x, PROTOCOL_ERROR, None),
                PROTOCOL_ERROR);
    BecameReads(d, d', x, Cleared(c, x, PROTOCOL_ERROR));
  }

  lemma ClearedIsFallen(c: Cell, id: nat, code: int)
    requires c.stream.Some?
    ensures Cleared(c, id, code)
      == Fallen(c.(lane := Tail(DiscardExceptUnsentOpen(c.lane), ResetWith(id, code, None))), code)
  {
  }

  lemma IgnoredJoined(d: Duplex, x: nat)
    requires Joined(d) && CanRead(d) && 0 < x == LaneOf(Head(d)) && Stopped(EarOf(HalfA(d, x)))
      && Head(d).kind != OpenFrame
    requires x !in d.a.peer.live
    ensures Joined(MoveA(d, Deliver))
    ensures MoveA(d, Deliver).a.peer == d.a.peer.(ignoredLate := d.a.peer.ignoredLate + 1)
  {
    hide Joined, Steady, EarOf, HalfA, FailConnection, OnData, OnOpen;
    DispatchedAt(d);
    SilentIsKnown(d, x);
    HeadIsOrderly(d);
    UnchangedJoined(d, MoveA(d, Deliver), x);
  }

  /** An `open` of a stream whose opening was cut: the one frame that fails the connection. */
  lemma FatalJoined(d: Duplex, x: nat)
    requires Joined(d) && CanRead(d) && 0 < x == LaneOf(Head(d)) && Stopped(EarOf(HalfA(d, x)))
      && Head(d).kind == OpenFrame
    ensures Joined(MoveA(d, Deliver))
    ensures MoveA(d, Deliver).a.peer.failed && x in d.a.peer.cut
  {
    hide Joined, Steady, EarOf, HalfA, QueueGoaway, Dispatch;
    var d' := MoveA(d, Deliver);
    var d1 := d.(rb := d.rb + 1);
    DispatchedAt(d);
    SilentIsKnown(d, x);
    TiedHead(d, d', x);
    SilentBreaks(HalfA(d, x), Head(d), d.ca.codec);
    CutIsCut(d, x);
    JoinedSteady(d);
    CutIsBelow(d.a.peer, x, d.ca);
    SecondOpenFails(d.a.peer, x, Head(d), d.ca) by { HeadIsOrderly(d); }
    UnchangedJoined(d, d1, x);
    GoawayJoined(d1, d', PROTOCOL_ERROR, true);
  }

  lemma SilentBreaks(h: Half, f: Frame, codec: Codec)
    requires Stopped(EarOf(h)) && f.kind == OpenFrame
    ensures Hear(EarOf(h), f, codec) == Broken
  {
  }

  lemma CutIsCut(d: Duplex, x: nat)
    requires HalfA(d, x).Dead? && HalfA(d, x).cut
    ensures x in d.a.peer.cut
  {
    hide ValuesOf, HeardOf, SaidOf, Own, Seen, LaneAt;
  }

  lemma CutIsBelow(p: Peer, x: nat, cfg: Config)
    requires Sound(p, cfg) && x in p.cut
    ensures x !in p.live && x <= p.highRemote
  {
  }

  lemma SecondOpenFails(p: Peer, x: nat, f: Frame, cfg: Config)
    requires f.kind == OpenFrame && f.stream == Some(x) && x !in p.live && x <= p.highRemote
    ensures Dispatch(p, f, cfg) == FailConnection(p)
  {
    hide FailConnection, FeedOpening, StartHandler;
  }

  // ------------------------------------------------------------ connection frames

  lemma PongAt(d: Duplex, d': Duplex, pong: Frame)
    requires Reads(d, d') && LaneOf(Head(d)) == 0 && d'.a.peer == Queue(d.a.peer, pong)
    requires pong.stream.None? && pong.kind == PongFrame
    ensures WayA(d', 0) == WayA(d, 0) + [pong]
    ensures forall y: nat :: y != 0 ==> At(d'.a.peer, y) == At(d.a.peer, y)
    ensures At(d'.a.peer, 0).stream == At(d.a.peer, 0).stream
    ensures SameFrame(d, d') && d'.a.peer.highRemote == d.a.peer.highRemote && d'.a.peer.failed == d.a.peer.failed
  {
    hide Enqueue, LaneAt, On, Coming, Unread;
    QueueAt(d.a.peer, pong);
    ComingTail(LaneAt(d.a.peer.writer, 0), pong);
    var c := At(d.a.peer, 0);
    BecameCell(d.a.peer, d'.a.peer, 0, c.(lane := Tail(c.lane, pong)));
  }

  lemma PingJoined(d: Duplex)
    requires Joined(d) && CanRead(d) && LaneOf(Head(d)) == 0 && Head(d).kind == PingFrame
    ensures Joined(MoveA(d, Deliver))
    ensures MoveA(d, Deliver).a.peer.failed == d.a.peer.failed
  {
    hide Joined, Steady, Same, Tuned, Tied, Queue, OnOpen, OnStreamFrame, OnGoaway, WayA, At, Proper, Reached;
    var d' := MoveA(d, Deliver);
    var pong := Bare(PongFrame, None).(nonce := Head(d).nonce);
    DispatchedAt(d);
    PongAt(d, d', pong);
    JoinedTuned(d);
    forall y: nat | y != 0
      ensures Same(d, d', y)
    {
      OtherRead(d, d', y);
    }
    NoGoodbyeQueued(d, d', pong);
    ReadGrows(d.b.log, d.rb, 0);
    AtProper(d, 0);
    TunedRead(d.a, d'.a, Reached(d.b.log, d.rb), Head(d));
    AssembleRead(d, d');
  }

  /** What `a` makes of a goaway of `b`'s: it closes what `b` will refuse, and sends nothing. */
  lemma AbandonedAt(p: Peer, f: Frame, x: nat)
    ensures var p' := OnGoaway(p, f);
            var doomed := x in p.live && x in p.objects && p.objects[x].local && f.lastStream.Some?
                && f.lastStream.value < x;
            && At(p', x) == (if doomed then At(p, x).(stream := Some(S.Fail(p.objects[x], REFUSED))) else At(p, x))
            && p'.dialer == p.dialer && p'.isOpen == p.isOpen && p'.goaway.sentLast == p.goaway.sentLast
                  && p'.highRemote == p.highRemote
            && p'.writer == p.writer && p'.failed == p.failed
  {
    hide LaneAt, S.Fail;
  }

  /** A stream abandoned here will be refused there. */
  lemma AbandonedTied(d: Duplex, d': Duplex, x: nat)
    requires Joined(d) && Reads(d, d') && SameFrame(d, d') && 0 < x && LaneOf(Head(d)) == 0
    requires x in d.a.peer.live && x in d.a.peer.objects && d.a.peer.objects[x].local
    requires At(d'.a.peer, x) == At(d.a.peer, x).(stream := Some(S.Fail(d.a.peer.objects[x], REFUSED)))
    requires Late(d.b, x)
    ensures Tied(d', x) && Tied(Flip(d'), x)
    ensures Proper(At(d'.a.peer, x).stream.value) && Fitting(At(d'.a.peer, x).stream.value, SaidOn(d.a, x))
  {
    hide Joined, Linked, HalfA, WayA, Own, Hear, EarOf, LaneAt, S.Fail, Proper, HeardOf, SaidOf;
    JoinedTies(d, x);
    LiveHalf(d, x);
    W.CodecLawful(d);
    AbandonedHalf(d, d', x);
    FailedFits(d.a.peer.objects[x], SaidOn(d.a, x), REFUSED);
    AbandonedWays(d, d', x);
    assert WayA(d, x) == WayA(d, x) + [];
    QuietLinked(HalfA(d, x), WayA(d, x), WayA(d, x), [], HalfA(Flip(d), x), HalfA(d', x),
                Own(SideOf(d.a.peer, d.ca), x), Late(d.b, x), d.b.peer.isOpen, d.ca.codec);
    ListenerClosed(HalfA(Flip(d), x), WayA(Flip(d), x), HalfA(d, x), HalfA(d', x), Own(SideOf(d.b.peer, d.cb), x),
                   Late(d.a, x), d.b.peer.isOpen, d.a.peer.isOpen, d.ca.codec);
  }

  lemma AbandonedWays(d: Duplex, d': Duplex, x: nat)
    requires Reads(d, d') && 0 < x && LaneOf(Head(d)) == 0 && LaneAt(d'.a.peer.writer, x) == LaneAt(d.a.peer.writer, x)
    ensures WayA(d', x) == WayA(d, x) && WayA(Flip(d'), x) == WayA(Flip(d), x)
      && HalfA(Flip(d'), x) == HalfA(Flip(d), x)
  {
    hide HalfOf, Own, Seen, On, Coming, LaneAt, Reached, Unread;
    ReadGrows(d.b.log, d.rb, x);
  }

  lemma AbandonedHalf(d: Duplex, d': Duplex, x: nat)
    requires Joined(d) && Reads(d, d') && d'.a.peer.dialer == d.a.peer.dialer && 0 < x
    requires x in d.a.peer.live && x in d.a.peer.objects && d.a.peer.objects[x].local
    requires At(d'.a.peer, x) == At(d.a.peer, x).(stream := Some(S.Fail(d.a.peer.objects[x], REFUSED)))
    ensures var h, h' := HalfA(d, x), HalfA(d', x);
            && h'.Dead? && h'.had == Heard(h) && Said(h') == Said(h) && (h.Alive? ==> !h.heard.opening)
            && Proper(At(d'.a.peer, x).stream.value)
            && LaneAt(d'.a.peer.writer, x) == LaneAt(d.a.peer.writer, x)
  {
    hide Joined, Own, LaneAt, Seen, Reached, Steady;
    LiveHalf(d, x);
    JoinedSteady(d);
    LiveCounted(d.a.peer, x, d.ca);
    assert SaidOn(d'.a, x) == SaidOn(d.a, x);
    S.AcceptedSnoc(d.a.peer.objects[x].queue, S.Failure(REFUSED));
  }

  lemma GoawayReadJoined(d: Duplex)
    requires Joined(d) && CanRead(d) && LaneOf(Head(d)) == 0 && Head(d).kind == GoawayFrame
    ensures Joined(MoveA(d, Deliver))
    ensures MoveA(d, Deliver).a.peer.failed == d.a.peer.failed
  {
    hide Joined, Steady, Same, Tied, Queue, OnOpen, OnStreamFrame, OnGoaway, WayA, At, Proper, Reached, HalfA, Tuned,
      Goodbyes, S.Fail;
    var d' := MoveA(d, Deliver);
    var f := Head(d);
    DispatchedAt(d);
    AbandonedAt(d.a.peer, f, 0);
    JoinedTuned(d);
    forall x: nat | 0 < x
      ensures Tied(d', x) && Tied(Flip(d'), x)
      ensures At(d'.a.peer, x).stream.Some? <==> At(d.a.peer, x).stream.Some?
      ensures At(d'.a.peer, x).stream.Some? ==>
                Proper(At(d'.a.peer, x).stream.value) && Fitting(At(d'.a.peer, x).stream.value, SaidOn(d.a, x))
                && At(d'.a.peer, x).stream.value.local == At(d.a.peer, x).stream.value.local
    {
      GoawayReadTied(d, d', x);
    }
    ReadGrows(d.b.log, d.rb, 0);
    OwnRead(d, d', 0);
    WriterWay(d, d');
    SameGoodbyes(d, d');
    FlipGoodbyes(d, d');
    NoStreamZero(d, d');
    TunedAbandon(d.a, d'.a, Reached(d.b.log, d.rb), f);
    JoinedRead(d, d');
  }

  lemma FlipGoodbyes(d: Duplex, d': Duplex)
    requires Joined(d) && Reads(d, d') && LaneOf(Head(d)) == 0
    ensures Goodbyes(Flip(d'))
  {
    hide Joined, Goodbyes, WayA;
    W.FlipJoined(d);
    JoinedTuned(Flip(d));
    OwnRead(d, d', 0);
    FewerFlipped(Flip(d), Flip(d'), Head(d));
  }

  lemma WriterWay(d: Duplex, d': Duplex)
    requires Reads(d, d') && d'.a.peer.writer == d.a.peer.writer
    ensures WayA(d', 0) == WayA(d, 0)
  {
  }

  lemma NoStreamZero(d: Duplex, d': Duplex)
    requires Joined(d) && Reads(d, d') && d'.a.peer == OnGoaway(d.a.peer, Head(d))
    ensures 0 !in d.a.peer.objects && 0 !in d'.a.peer.objects
  {
    hide Joined, Bounded, Afloat, A.Counted, Listed;
    JoinedSteady(d);
    assert 0 in d.a.peer.objects ==> Kept(d.a.peer, 0, d.a.peer.objects[0], d.ca);
    AbandonedAt(d.a.peer, Head(d), 0);
  }

  lemma GoawayReadTied(d: Duplex, d': Duplex, x: nat)
    requires Joined(d) && CanRead(d) && Reads(d, d') && LaneOf(Head(d)) == 0 && Head(d).kind == GoawayFrame && 0 < x
    requires d'.a.peer == OnGoaway(d.a.peer, Head(d))
    ensures Tied(d', x) && Tied(Flip(d'), x)
    ensures At(d'.a.peer, x).stream.Some? <==> At(d.a.peer, x).stream.Some?
    ensures At(d'.a.peer, x).stream.Some? ==>
              Proper(At(d'.a.peer, x).stream.value) && Fitting(At(d'.a.peer, x).stream.value, SaidOn(d.a, x))
                && At(d'.a.peer, x).stream.value.local == At(d.a.peer, x).stream.value.local
  {
    hide Joined, Steady, Same, Tied, OnGoaway, WayA, Proper, Reached, HalfA, Tuned, LaneAt, S.Fail, Own, HeardOf,
      SaidOf;
    var p, f := d.a.peer, Head(d);
    AbandonedAt(p, f, x);
    assert SameFrame(d, d');
    if x in p.live && x in p.objects && p.objects[x].local && f.lastStream.Some? && f.lastStream.value < x {
      LiveHalf(d, x);
      OwnSplitsJoined(d, x);
      OwnIsOurs(d.b.peer, d.cb, x);
      GoodbyeIsLate(d, x);
      AbandonedTied(d, d', x);
      FailLocal(p.objects[x], REFUSED);
    } else {
      JoinedTies(d, x);
      OtherRead(d, d', x);
      SameTied(d, d', x);
      AtProper(d, x);
    }
  }

  lemma FailLocal(s: S.Stream, code: int)
    ensures S.Fail(s, code).local == s.local
  {
  }

  /** What a goaway on the wire excludes, `b` will refuse. */
  lemma GoodbyeIsLate(d: Duplex, x: nat)
    requires Joined(d) && CanRead(d) && LaneOf(Head(d)) == 0 && Head(d).kind == GoawayFrame
    requires Head(d).lastStream.Some? && Head(d).lastStream.value < x && !IsOurs(d.b.peer, x)
    ensures Late(d.b, x)
  {
    hide Joined, WayA, Dispatch;
    W.FlipJoined(d);
    JoinedTuned(Flip(d));
    DispatchedAt(d);
    OwnRead(d, MoveA(d, Deliver), 0);
    assert Head(d) in WayA(Flip(d), 0);
  }

  lemma TunedAbandon(e: End, e': End, heard: seq<Frame>, f: Frame)
    requires Tuned(e, heard) && e'.said == e.said && e'.peer.highRemote == e.peer.highRemote && f.kind != OpenFrame
    requires 0 !in e.peer.objects && 0 !in e'.peer.objects
    requires forall x: nat :: 0 < x ==>
      && (At(e'.peer, x).stream.Some? <==> At(e.peer, x).stream.Some?)
      && (At(e'.peer, x).stream.Some? ==>
            Proper(At(e'.peer, x).stream.value) && Fitting(At(e'.peer, x).stream.value, SaidOn(e, x))
                && At(e'.peer, x).stream.value.local == At(e.peer, x).stream.value.local)
    ensures Tuned(e', heard + [f])
  {
    hide Proper, LaneAt;
    var all := heard + [f];
    forall y | y in e'.peer.objects
      ensures Proper(e'.peer.objects[y]) && Fitting(e'.peer.objects[y], SaidOn(e', y))
        && (!e'.peer.objects[y].local ==> Seen(all, y))
    {
      assert At(e'.peer, y).stream.Some? && At(e.peer, y).stream.Some?;
      SeenAppend(heard, f, y);
    }
    forall y | y in e'.said
      ensures y in e'.peer.objects
    {
      assert At(e.peer, y).stream.Some?;
      assert At(e'.peer, y).stream.Some?;
    }
    if OpenedIn(heard, e'.peer.highRemote) {
      var i :| 0 <= i < |heard| && heard[i].kind == OpenFrame && LaneOf(heard[i]) == e'.peer.highRemote;
      assert all[i] == heard[i];
    }
  }

  // ------------------------------------------------------------ every frame

  /** A frame of a stream that listens, other than a reset, is taken in or turned away: the latter exactly over a limit,
      for want of a handler, or after a goaway. */
  lemma StreamFrameAnswers(d: Duplex, x: nat) returns (view: View)
    requires Joined(d) && CanRead(d) && 0 < x == LaneOf(Head(d)) && !Stopped(EarOf(HalfA(d, x)))
    requires HalfA(d, x).Unborn? || Head(d).kind != ResetFrame
    ensures Answered(d, MoveA(d, Deliver), x, view) && Steady(MoveA(d, Deliver).a, d.ca) && TreatsHead(d, x, view)
  {
    hide Joined, MoveA, HalfA, EarOf, OnLane, L.Fits, Answered, Steady, TreatsHead;
    HeadIsOrderly(d);
    HeadKinds(Head(d), x, SideOf(d.b.peer, d.cb));
    HalfKinds(d, x);
    if HalfA(d, x).Unborn? {
      view := NewOpenAnswers(d, x);
    } else if Head(d).kind == OpenFrame {
      view := LaterOpenAnswers(d, x);
    } else {
      view := DataAnswers(d, x);
    }
  }

  /** Of all frames that can reach an end, only an `open` of a stream whose opening that end cut fails the
      connection. */
  lemma DeliverJoined(d: Duplex)
    requires Joined(d)
    ensures Joined(MoveA(d, Deliver))
    ensures MoveA(d, Deliver).a.peer.failed <==>
              d.a.peer.failed || (CanRead(d) && Head(d).kind == OpenFrame && LaneOf(Head(d)) in d.a.peer.cut)
  {
    hide Joined, MoveA, HalfA, EarOf, OnLane, L.Fits, Answered, Steady;
    if CanRead(d) {
      HeadIsOrderly(d);
      var x := LaneOf(Head(d));
      HeadKinds(Head(d), x, SideOf(d.b.peer, d.cb));
      if 0 < x && x in d.a.peer.cut && Head(d).kind == OpenFrame { CutIsSilent(d, x); }
      if x == 0 {
        match Head(d).kind
        case PingFrame => PingJoined(d);
        case GoawayFrame => GoawayReadJoined(d);
        case PongFrame => PongReadJoined(d);
        case _ => ZeroReadJoined(d);
      } else if Stopped(EarOf(HalfA(d, x))) {
        if Head(d).kind == OpenFrame { FatalJoined(d, x); }
        else if x !in d.a.peer.live { IgnoredJoined(d, x); }
        else if Head(d).kind == ResetFrame { ResetReadJoined(d, x); }
        else { TooLateJoined(d, x); }
      } else {
        HalfKinds(d, x);
        if Head(d).kind == ResetFrame && !HalfA(d, x).Unborn? {
          ResetReadJoined(d, x);
        } else {
          var view := StreamFrameAnswers(d, x);
          AnsweredJoined(d, MoveA(d, Deliver), x, view);
        }
      }
    } else {
      assert MoveA(d, Deliver) == d by { NotRead(d); }
    }
  }

  lemma NotRead(d: Duplex)
    requires !CanRead(d)
    ensures MoveA(d, Deliver) == d
  {
  }

  /** A stream whose opening was cut is dead here. */
  lemma CutIsSilent(d: Duplex, x: nat)
    requires Joined(d) && CanRead(d) && x == LaneOf(Head(d)) && 0 < x && x in d.a.peer.cut && Head(d).kind == OpenFrame
    ensures Stopped(EarOf(HalfA(d, x)))
  {
    hide Joined, HalfA, EarOf, L.Fits;
    JoinedSteady(d);
    CutIsBelow(d.a.peer, x, d.ca);
    if !Stopped(EarOf(HalfA(d, x))) {
      HalfKinds(d, x);
      NewIsAdmissible(d, x);
    }
  }

  lemma HeadKinds(f: Frame, x: nat, side: Side)
    requires OnLane(x, f, side)
    ensures if x == 0 then f.kind == PingFrame || f.kind == PongFrame || f.kind == GoawayFrame
      || (f.kind == ResetFrame && f.stream == Some(0))
            else (f.kind == OpenFrame || f.kind == DataFrame || f.kind == ResetFrame) && f.stream == Some(x)
  {
  }

  lemma PongReadJoined(d: Duplex)
    requires Joined(d) && CanRead(d) && LaneOf(Head(d)) == 0 && Head(d).kind == PongFrame
    ensures Joined(MoveA(d, Deliver))
    ensures MoveA(d, Deliver).a.peer.failed == d.a.peer.failed
  {
    hide Joined, Steady, EarOf, HalfA, OnOpen, OnStreamFrame, OnGoaway;
    DispatchedAt(d);
    UnchangedJoined(d, MoveA(d, Deliver), 0);
  }

  /** A reset of stream 0, which no peer opens, is ignored. */
  lemma ZeroReadJoined(d: Duplex)
    requires Joined(d) && CanRead(d) && Head(d).kind == ResetFrame && Head(d).stream == Some(0)
    ensures Joined(MoveA(d, Deliver))
    ensures MoveA(d, Deliver).a.peer == d.a.peer.(ignoredLate := d.a.peer.ignoredLate + 1)
  {
    hide Joined, Steady, EarOf, HalfA, FailConnection, OnData, OnOpen;
    DispatchedAt(d);
    StreamZeroIsNotLive(d);
    UnchangedJoined(d, MoveA(d, Deliver), 0);
  }

  lemma StreamZeroIsNotLive(d: Duplex)
    requires Joined(d)
    ensures 0 !in d.a.peer.live
  {
    hide Joined, Bounded, Afloat, Listed, A.Counted;
    JoinedSteady(d);
    assert 0 in d.a.peer.objects ==> Kept(d.a.peer, 0, d.a.peer.objects[0], d.ca);
  }

  /** A half that listens is unborn or of a live stream. */
  lemma HalfKinds(d: Duplex, x: nat)
    requires Joined(d) && 0 < x && !Stopped(EarOf(HalfA(d, x)))
    ensures HalfA(d, x).Unborn? || x in d.a.peer.live
  {
    hide Joined, Bounded, Afloat, A.Counted, Listed, ValuesOf, Own, Seen, LaneAt;
    JoinedSteady(d);
    AtProper(d, x);
    assert x in d.a.peer.objects ==> Kept(d.a.peer, x, d.a.peer.objects[x], d.ca);
  }
}
