/** What one peer puts on the wire: its opens in strictly increasing id order, and nothing on a stream it
    opens before that stream's `open`. */
module Outbound {
  import opened Frames
  import opened Codecs
  import opened Fragmenter
  import opened WriterModel
  import W = WriterLaws
  import L = SplitLaws

  // ------------------------------------------------------------ the wire

  /** A frame on lane `x` has been put on the wire. */
  ghost predicate Seen(log: seq<Frame>, x: nat) {
    exists i :: 0 <= i < |log| && LaneOf(log[i]) == x
  }

  ghost predicate OpensBelow(log: seq<Frame>, x: nat) {
    forall i :: 0 <= i < |log| && log[i].kind == OpenFrame ==> LaneOf(log[i]) < x
  }

  /** Which end this is, and what its writer cuts frames to. */
  datatype Side = Side(dialer: bool, cap: nat, codec: Codec)

  predicate Own(side: Side, x: nat) {
    0 < x && x % 2 == (if side.dialer then 1 else 0)
  }

  /** What a peer puts on lane `x`: stream frames on a stream, connection frames on the connection lane,
      an `open` with a payload and only on a stream of its own. */
  predicate OnLane(x: nat, f: Frame, side: Side) {
    && LaneOf(f) == x
    && match f.kind
       case OpenFrame => f.stream.Some? && Own(side, x) && (f.payload.Some? || f.fragment.Some?)
       case DataFrame => f.stream.Some? && 0 < x
       case ResetFrame => f.stream.Some?
       case GoawayFrame => f.stream.None? && f.lastStream.Some?
       case PingFrame => f.stream.None?
       case PongFrame => f.stream.None?
       case OtherFrame(_) => false
  }

  predicate OnWire(x: nat, f: Frame, side: Side) {
    OnLane(x, f, side) && L.Fits(side.codec, f, side.cap)
  }

  /** Every message is within the cap; the first frame on each stream this peer opens is its `open`, and it
      is above every earlier one. */
  ghost predicate Orderly(log: seq<Frame>, side: Side) {
    log == [] ||
    (var n := |log| - 1;
     var x := LaneOf(log[n]);
     && Orderly(log[..n], side)
     && OnWire(x, log[n], side)
     && (Own(side, x) && !Seen(log[..n], x) ==> log[n].kind == OpenFrame && OpensBelow(log[..n], x)))
  }

  lemma OrderlyAppend(log: seq<Frame>, f: Frame, side: Side)
    requires Orderly(log, side) && OnWire(LaneOf(f), f, side)
    requires Own(side, LaneOf(f)) && !Seen(log, LaneOf(f)) ==> f.kind == OpenFrame && OpensBelow(log, LaneOf(f))
    ensures Orderly(log + [f], side)
  {
    assert (log + [f])[..|log|] == log;
  }

  lemma SeenAppend(log: seq<Frame>, f: Frame, x: nat)
    ensures Seen(log + [f], x) <==> Seen(log, x) || LaneOf(f) == x
  {
    var all := log + [f];
    if i :| 0 <= i < |log| && LaneOf(log[i]) == x {
      assert LaneOf(all[i]) == x;
    }
    if LaneOf(f) == x {
      assert LaneOf(all[|log|]) == x;
    }
    if i :| 0 <= i < |all| && LaneOf(all[i]) == x {
      assert i < |log| ==> LaneOf(log[i]) == x;
    }
  }

  /** A stream of one's own that was seen was opened on the wire. */
  lemma {:induction false} SeenIsOpened(log: seq<Frame>, x: nat, side: Side)
    requires Orderly(log, side) && Own(side, x) && Seen(log, x)
    ensures exists i :: 0 <= i < |log| && log[i].kind == OpenFrame && LaneOf(log[i]) == x
    decreases |log|
  {
    var n := |log| - 1;
    var prefix := log[..n];
    assert log == prefix + [log[n]];
    SeenAppend(prefix, log[n], x);
    if Seen(prefix, x) {
      SeenIsOpened(prefix, x, side);
      var i :| 0 <= i < n && prefix[i].kind == OpenFrame && LaneOf(prefix[i]) == x;
      assert log[i] == prefix[i];
    } else {
      assert log[n].kind == OpenFrame;
    }
  }

  lemma OpensBelowAppend(log: seq<Frame>, f: Frame, x: nat)
    requires OpensBelow(log, x) && (f.kind == OpenFrame ==> LaneOf(f) < x)
    ensures OpensBelow(log + [f], x)
  {
  }

  // ------------------------------------------------------------ the lanes

  predicate SourceOn(x: nat, g: Generator, side: Side) {
    match g
    case Start(source) => OnLane(x, source, side) && source.fragment.None?
    case Slicing(source, _, _, _) => OnLane(x, source, side)
    case Finished => true
  }

  /** Every frame of a lane is on the lane's stream, and an `open` waits only at the front of a lane of
      which nothing has been sliced. */
  predicate LaneTidy(x: nat, lane: Lane, side: Side) {
    && (lane.prepared.Some? ==> OnWire(x, lane.prepared.value, side))
    && (lane.fragments.Some? ==> SourceOn(x, lane.fragments.value, side))
    && (forall i :: 0 <= i < |lane.waiting| ==> OnLane(x, lane.waiting[i], side) && lane.waiting[i].fragment.None?)
    && (forall i :: 0 <= i < |lane.waiting| && lane.waiting[i].kind == OpenFrame ==>
          i == 0 && lane.prepared.None? && lane.fragments.None?)
  }

  /** The frame a generator yields is its source's, on its source's stream. */
  lemma YieldOnLane(g: Generator, x: nat, side: Side)
    requires SourceOn(x, g, side) && Resume(g, side.cap, side.codec).Yield?
    ensures OnWire(x, Resume(g, side.cap, side.codec).frame, side)
      && SourceOn(x, Resume(g, side.cap, side.codec).rest, side)
    ensures g.Start? ==> Resume(g, side.cap, side.codec).frame.kind == g.source.kind
  {
    hide Cuttable, MiddleCount, OnLane, ResumeStart, ResumeSlicing;
    match g
    case Start(source) => StartYields(source, x, side);
    case Slicing(source, whole, position, emitted) => SlicingYields(source, whole, position, emitted, x, side);
    case Finished =>
  }

  lemma StartYields(source: Frame, x: nat, side: Side)
    requires OnLane(x, source, side) && ResumeStart(source, side.cap, side.codec).Yield?
    ensures var resumed := ResumeStart(source, side.cap, side.codec);
            OnWire(x, resumed.frame, side) && SourceOn(x, resumed.rest, side) && resumed.frame.kind == source.kind
  {
    hide MiddleCount, OnLane, ResumeSlicing;
    if !L.Fits(side.codec, source, side.cap) {
      var whole := side.codec.encodePayload(source.payload.value).value;
      SlicingYields(source, whole, 0, 0, x, side);
    }
  }

  lemma SlicingYields(source: Frame, whole: Chunk, position: nat, emitted: nat, x: nat, side: Side)
    requires Resumable(Slicing(source, whole, position, emitted)) && OnLane(x, source, side)
    requires ResumeSlicing(source, whole, position, emitted, side.cap, side.codec).Yield?
    ensures var resumed := ResumeSlicing(source, whole, position, emitted, side.cap, side.codec);
            OnWire(x, resumed.frame, side) && SourceOn(x, resumed.rest, side) && resumed.frame.kind == source.kind
  {
    hide Cuttable, MiddleCount, OnLane;
    var resumed := ResumeSlicing(source, whole, position, emitted, side.cap, side.codec);
    L.BoundaryIsWithin(whole, position);
    if resumed.rest != Finished {
      L.MiddleCountFits(source, whole, position, emitted == 0, side.cap, side.codec);
    }
    PieceOnLane(source, resumed.frame, x, side);
  }

  /** A fragment is of its source's kind and stream. */
  lemma PieceOnLane(source: Frame, piece: Frame, x: nat, side: Side)
    requires OnLane(x, source, side) && piece.fragment.Some?
    requires piece.kind == source.kind && piece.stream == source.stream && piece.lastStream == source.lastStream
    ensures OnLane(x, piece, side)
  {
  }

  /** Slicing keeps a lane tidy, and turns an unsent `open` into a prepared frame of it. */
  lemma PrepareTidy(x: nat, lane: Lane, side: Side)
    requires LaneTidy(x, lane, side)
    ensures var prepared := Prepare(lane, side.cap, side.codec);
            && (prepared.Raised? ==> HasWork(lane) && (prepared.unsentOpen <==> HoldsUnsentOpen(lane)))
            && (prepared.Ready? ==>
                && LaneTidy(x, prepared.lane, side)
                && (HasWork(prepared.lane) ==> HasWork(lane))
                && !HoldsUnsentOpen(prepared.lane)
                && (HoldsUnsentOpen(lane) && prepared.lane.prepared.Some?
                    ==> prepared.lane.prepared.value.kind == OpenFrame))
  {
    hide Resume, OnLane, SourceOn;
    if lane.prepared.None? {
      if lane.fragments.Some? && Resume(lane.fragments.value, side.cap, side.codec).Yield? {
        YieldOnLane(lane.fragments.value, x, side);
      } else if lane.waiting != [] {
        StartOn(x, lane.waiting[0], side);
        if Resume(Start(lane.waiting[0]), side.cap, side.codec).Yield? {
          YieldOnLane(Start(lane.waiting[0]), x, side);
        }
      }
    }
  }

  lemma StartOn(x: nat, f: Frame, side: Side)
    requires f.fragment.None?
    ensures SourceOn(x, Start(f), side) == OnLane(x, f, side)
  {
  }

  // ------------------------------------------------------------ the writer

  /** Lane `x` holds the `open` of its stream, unsent. */
  predicate Unsent(w: Writer, x: nat) {
    Holding(w.queues, x)
  }

  ghost predicate Tidy(w: Writer, log: seq<Frame>, side: Side, top: nat) {
    && Listed(w) && !w.stopped
    && Orderly(log, side)
    && (forall x :: x in w.queues ==> LaneTidy(x, w.queues[x], side))
    && (forall x :: Own(side, x) && top < x ==> x !in w.queues && !Seen(log, x))
    && (forall x :: x in w.queues && Own(side, x) && HasWork(w.queues[x]) ==> Unsent(w, x) || Seen(log, x))
    && (forall x :: Unsent(w, x) ==> !Seen(log, x) && OpensBelow(log, x))
    && Sorted(w.order, w.queues)
  }

  /** Unsent opens stand in the rotation in increasing order. */
  ghost predicate Sorted(order: seq<nat>, queues: map<nat, Lane>) {
    order == [] ||
    (&& Sorted(order[1..], queues)
     && (Holding(queues, order[0]) ==> forall y: nat :: y in order[1..] && Holding(queues, y) ==> order[0] < y))
  }

  predicate Holding(queues: map<nat, Lane>, x: nat) {
    x in queues && HoldsUnsentOpen(queues[x])
  }

  /** A frame may be put on lane `x`: it is not of a stream this peer has yet to open on the wire, or
      that stream's `open` is ahead of it. */
  ghost predicate MayQueue(w: Writer, log: seq<Frame>, side: Side, x: nat) {
    !Own(side, x) || Seen(log, x) || Unsent(w, x)
  }

  lemma EnqueueTidy(w: Writer, log: seq<Frame>, side: Side, top: nat, f: Frame)
    requires Tidy(w, log, side, top) && f.kind != OpenFrame && OnLane(LaneOf(f), f, side) && f.fragment.None?
    requires MayQueue(w, log, side, LaneOf(f))
    requires Own(side, LaneOf(f)) ==> LaneOf(f) <= top
    ensures Tidy(Enqueue(w, f), log, side, top)
    ensures forall x: nat :: Unsent(Enqueue(w, f), x) == Unsent(w, x)
  {
    hide Orderly, OpensBelow, Seen, Listed, Sorted, LaneTidy, HasWork, HoldsUnsentOpen;
    var x := LaneOf(f);
    var w' := Enqueue(w, f);
    var lane := if x in w.queues then w.queues[x] else EMPTY_LANE;
    EnqueueListed(w, f);
    EmptyIsTidy(x, side);
    TailTidy(x, lane, f, side);
    assert forall y: nat :: Unsent(w', y) == Unsent(w, y);
    SortedFewer(w.order, w.queues, w'.queues);
    if x !in w.queues {
      SortedAppend(w.order, w'.queues, x);
    }
  }

  /** A frame that is not an `open` at the back of a lane. */
  lemma TailTidy(x: nat, lane: Lane, f: Frame, side: Side)
    requires LaneTidy(x, lane, side) && OnLane(x, f, side) && f.fragment.None? && f.kind != OpenFrame
    ensures LaneTidy(x, lane.(waiting := lane.waiting + [f]), side)
    ensures HoldsUnsentOpen(lane.(waiting := lane.waiting + [f])) == HoldsUnsentOpen(lane)
  {
  }

  lemma {:induction false} SortedFewer(order: seq<nat>, queues: map<nat, Lane>, queues': map<nat, Lane>)
    requires Sorted(order, queues) && forall y: nat :: Holding(queues', y) ==> Holding(queues, y)
    ensures Sorted(order, queues')
  {
    if order != [] {
      SortedFewer(order[1..], queues, queues');
    }
  }

  /** A lane at the end, unsent only if above every unsent one. */
  lemma {:induction false} SortedAppend(order: seq<nat>, queues: map<nat, Lane>, x: nat)
    requires Sorted(order, queues)
    requires Holding(queues, x) ==> forall y: nat :: y in order && Holding(queues, y) ==> y < x
    ensures Sorted(order + [x], queues)
  {
    if order == [] {
      assert [x][1..] == [];
    } else {
      SortedAppend(order[1..], queues, x);
      assert (order + [x])[1..] == order[1..] + [x];
    }
  }

  lemma {:induction false} SortedWithout(order: seq<nat>, queues: map<nat, Lane>, x: nat)
    requires Sorted(order, queues)
    ensures Sorted(Without(order, x), queues)
  {
    if order != [] && order[0] != x {
      SortedWithout(order[1..], queues, x);
      WithoutWithin(order[1..], x);
      assert Without(order, x)[1..] == Without(order[1..], x);
    }
  }

  lemma {:induction false} WithoutWithin(order: seq<nat>, x: nat)
    ensures forall y :: y in Without(order, x) ==> y in order
  {
    if order != [] && order[0] != x {
      WithoutWithin(order[1..], x);
    }
  }

  /** The `open` of a new stream goes to a new lane at the end of the rotation. */
  lemma EnqueueOpenTidy(w: Writer, log: seq<Frame>, side: Side, top: nat, f: Frame)
    requires Tidy(w, log, side, top) && f.kind == OpenFrame && OnLane(LaneOf(f), f, side) && f.fragment.None?
      && top < LaneOf(f)
    ensures Tidy(Enqueue(w, f), log, side, LaneOf(f))
    ensures forall x: nat :: Unsent(Enqueue(w, f), x) == (Unsent(w, x) || x == LaneOf(f))
  {
    hide Orderly, OpensBelow, Seen, Listed, Sorted;
    var x := LaneOf(f);
    var w' := Enqueue(w, f);
    EnqueueListed(w, f);
    assert x !in w.queues;
    assert w'.queues[x] == Lane([f], None, None);
    assert forall y: nat :: Unsent(w', y) == (Unsent(w, y) || y == x);
    forall y: nat | Unsent(w, y)
      ensures y < x
    {
      UnsentIsOwn(w, y, side);
    }
    assert OpensBelow(log, x) by {
      OpensAreBelowTop(log, side, top, w);
      TopIsBelow(log, top, x);
    }
    ListedLanes(w, x);
    SortedLess(w.order, w.queues, w'.queues, x);
    SortedAppend(w.order, w'.queues, x);
  }

  lemma ListedLanes(w: Writer, x: nat)
    requires Listed(w)
    ensures x in w.order <==> x in w.queues
  {
  }

  lemma TopIsBelow(log: seq<Frame>, top: nat, x: nat)
    requires top < x && forall i :: 0 <= i < |log| && log[i].kind == OpenFrame ==> LaneOf(log[i]) <= top
    ensures OpensBelow(log, x)
  {
  }

  lemma {:induction false} SortedLess(order: seq<nat>, queues: map<nat, Lane>, queues': map<nat, Lane>, x: nat)
    requires Sorted(order, queues) && x !in order
    requires forall y: nat :: y != x && Holding(queues', y) ==> Holding(queues, y)
    ensures Sorted(order, queues')
  {
    if order != [] {
      SortedLess(order[1..], queues, queues', x);
    }
  }

  lemma UnsentIsOwn(w: Writer, x: nat, side: Side)
    requires Unsent(w, x) && LaneTidy(x, w.queues[x], side)
    ensures Own(side, x)
  {
    assert OnLane(x, w.queues[x].waiting[0], side);
  }

  lemma OpensAreBelowTop(log: seq<Frame>, side: Side, top: nat, w: Writer)
    requires Tidy(w, log, side, top)
    ensures forall i :: 0 <= i < |log| && log[i].kind == OpenFrame ==> LaneOf(log[i]) <= top
  {
    forall i | 0 <= i < |log| && log[i].kind == OpenFrame
      ensures LaneOf(log[i]) <= top
    {
      OpensAreOwn(log, side, i);
      assert Seen(log, LaneOf(log[i]));
    }
  }

  lemma {:induction false} OpensAreOwn(log: seq<Frame>, side: Side, i: nat)
    requires Orderly(log, side) && i < |log| && log[i].kind == OpenFrame
    ensures Own(side, LaneOf(log[i]))
    decreases |log|
  {
    if i < |log| - 1 {
      OpensAreOwn(log[..|log| - 1], side, i);
    }
  }

  /** One lane has changed or gone, and holds an unsent `open` only if it did. */
  lemma ReplaceTidy(w: Writer, log: seq<Frame>, side: Side, top: nat, x: nat, w': Writer)
    requires Tidy(w, log, side, top) && x in w.queues && w'.stopped == w.stopped
    requires Listed(w') && Sorted(w'.order, w'.queues)
    requires forall y: nat ::
      y != x ==> (y in w'.queues <==> y in w.queues) && (y in w.queues ==> w'.queues[y] == w.queues[y])
    requires x in w'.queues ==>
               && LaneTidy(x, w'.queues[x], side)
               && (Unsent(w', x) ==> Unsent(w, x))
               && (Own(side, x) && HasWork(w'.queues[x]) ==> Unsent(w', x) || Seen(log, x))
    ensures Tidy(w', log, side, top)
    ensures forall y: nat :: y != x ==> Unsent(w', y) == Unsent(w, y)
  {
    hide Orderly, OpensBelow, Seen, Listed, Sorted, LaneTidy, HasWork, HoldsUnsentOpen;
  }

  lemma DiscardedLane(x: nat, lane: Lane, side: Side)
    requires LaneTidy(x, lane, side)
    ensures LaneTidy(x, DiscardExceptUnsentOpen(lane), side)
    ensures HoldsUnsentOpen(DiscardExceptUnsentOpen(lane)) == HoldsUnsentOpen(lane)
      == HasWork(DiscardExceptUnsentOpen(lane))
  {
  }

  lemma DiscardTidy(w: Writer, log: seq<Frame>, side: Side, top: nat, x: nat)
    requires Tidy(w, log, side, top)
    ensures Tidy(Discard(w, x), log, side, top)
    ensures forall y: nat :: Unsent(Discard(w, x), y) == Unsent(w, y)
  {
    hide Tidy, Listed, Sorted, LaneTidy, HasWork, HoldsUnsentOpen, DiscardExceptUnsentOpen, Seen;
    if x in w.queues {
      var w' := Discard(w, x);
      var lane := DiscardExceptUnsentOpen(w.queues[x]);
      TidyLane(w, log, side, top, x);
      DiscardedLane(x, w.queues[x], side);
      DiscardListed(w, x);
      var kept := w.queues[x := lane];
      assert forall y: nat :: Holding(kept, y) ==> Holding(w.queues, y);
      SortedFewer(w.order, w.queues, kept);
      SortedFewer(w.order, w.queues, w'.queues);
      SortedWithout(w.order, w'.queues, x);
      ReplaceTidy(w, log, side, top, x, w');
    }
  }

  /** What the invariant says of one lane. */
  lemma TidyLane(w: Writer, log: seq<Frame>, side: Side, top: nat, x: nat)
    requires Tidy(w, log, side, top)
    ensures Listed(w) && Sorted(w.order, w.queues) && Orderly(log, side)
    ensures x in w.queues ==> LaneTidy(x, w.queues[x], side)
    ensures x in w.queues && Own(side, x) && HasWork(w.queues[x]) ==> Unsent(w, x) || Seen(log, x)
    ensures Unsent(w, x) ==> !Seen(log, x) && OpensBelow(log, x)
  {
    hide Listed, Sorted, LaneTidy, HasWork, HoldsUnsentOpen, Seen, Orderly, OpensBelow;
  }

  // ------------------------------------------------------------ a turn

  lemma {:induction false} SortedRotated(order: seq<nat>, queues: map<nat, Lane>)
    requires order != [] && Sorted(order, queues)
    ensures Sorted(order[1..], queues)
    ensures !Holding(queues, order[0]) ==> Sorted(order[1..] + [order[0]], queues)
    ensures Holding(queues, order[0]) ==> forall y: nat :: y in order[1..] && Holding(queues, y) ==> order[0] < y
  {
    if !Holding(queues, order[0]) {
      SortedAppend(order[1..], queues, order[0]);
    }
  }

  /** The front lane after it was asked: it holds no unsent `open`. */
  lemma AskedLane(w: Writer, log: seq<Frame>, side: Side, top: nat)
    requires Tidy(w, log, side, top) && w.order != [] && w.order[0] in w.queues
    ensures var x := w.order[0];
            var (asked, turn) := AskLane(Rotated(w), x, side.cap, side.codec);
            && (turn.Nothing? ==> !Unsent(w, x))
            && (turn.Failed? ==> turn.id == x && HasWork(w.queues[x]) && turn.unsentOpen == Unsent(w, x)
                                 && (x in asked.queues ==> !HasWork(asked.queues[x])))
            && (turn.Sent? ==> turn.id == x && HasWork(w.queues[x]) && OnWire(x, turn.frame, side)
                               && (Unsent(w, x) ==> turn.frame.kind == OpenFrame))
            && (x in asked.queues ==> !Unsent(asked, x) && LaneTidy(x, asked.queues[x], side)
                                      && (HasWork(asked.queues[x]) ==> HasWork(w.queues[x])))
  {
    hide Tidy, Listed, Sorted, OnLane, SourceOn, Prepare;
    var x := w.order[0];
    TidyLane(w, log, side, top, x);
    PrepareTidy(x, w.queues[x], side);
    W.PrepareOutcome(w.queues[x], side.cap, side.codec);
    if Prepare(w.queues[x], side.cap, side.codec).Ready? {
      TakenTidy(x, Prepare(w.queues[x], side.cap, side.codec).lane, side);
    }
  }

  lemma TakenTidy(x: nat, lane: Lane, side: Side)
    requires LaneTidy(x, lane, side) && !HoldsUnsentOpen(lane)
    ensures lane.prepared.Some? ==> OnWire(x, lane.prepared.value, side)
    ensures LaneTidy(x, lane.(prepared := None), side) && !HoldsUnsentOpen(lane.(prepared := None))
    ensures HasWork(lane.(prepared := None)) ==> HasWork(lane)
    ensures LaneTidy(x, EMPTY_LANE, side) && !HasWork(EMPTY_LANE) && !HoldsUnsentOpen(EMPTY_LANE)
  {
  }

  lemma RotatedFlags(w: Writer)
    requires w.order != []
    ensures Rotated(w).stopped == w.stopped
  {
  }

  lemma AskKeepsStopped(w: Writer, x: nat, cap: nat, codec: Codec)
    requires x in w.queues
    ensures AskLane(w, x, cap, codec).0.stopped == w.stopped
  {
    hide Prepare, HasWork;
  }

  /** One lane asked: an unsent `open` goes on the wire above every earlier one and below every later one. */
  lemma AskTidy(w: Writer, log: seq<Frame>, side: Side, top: nat)
    requires Tidy(w, log, side, top) && w.order != [] && w.order[0] in w.queues
    ensures var x := w.order[0];
            var (asked, turn) := AskLane(Rotated(w), x, side.cap, side.codec);
            && Tidy(asked, if turn.Sent? then log + [turn.frame] else log, side, top)
            && Outcome(w, log, asked, turn, side)
            && (turn.Nothing? ==> forall y: nat :: Unsent(asked, y) == Unsent(w, y))
  {
    hide Tidy, Listed, Sorted, LaneTidy, HasWork, HoldsUnsentOpen, AskLane, Rotated, Seen, Orderly, OpensBelow;
    var x := w.order[0];
    var moved := Rotated(w);
    RotatedKeepsLanes(w);
    assert moved.stopped == w.stopped by { RotatedFlags(w); }
    var (asked, turn) := AskLane(moved, x, side.cap, side.codec);
    AskedLane(w, log, side, top);
    TidyLane(w, log, side, top, x);
    RotatedListed(w);
    AskListed(moved, x, side.cap, side.codec);
    W.AskOutcome(moved, x, side.cap, side.codec);
    AskedSorted(w, log, side, top, asked);
    AskKeepsStopped(moved, x, side.cap, side.codec);
    if turn.Sent? {
      assert asked.queues == w.queues[x := asked.queues[x]] by { SentKeepsLane(moved, x, side.cap, side.codec); }
      SentTidy(w, log, side, top, asked, turn.frame);
    } else {
      ReplaceTidy(w, log, side, top, x, asked);
    }
  }

  lemma SentKeepsLane(w: Writer, x: nat, cap: nat, codec: Codec)
    requires x in w.queues && AskLane(w, x, cap, codec).1.Sent?
    ensures x in AskLane(w, x, cap, codec).0.queues
    ensures AskLane(w, x, cap, codec).0.queues == w.queues[x := AskLane(w, x, cap, codec).0.queues[x]]
  {
    hide Prepare, HasWork;
  }

  /** What a turn did to the unsent opens. */
  ghost predicate Outcome(w: Writer, log: seq<Frame>, next: Writer, turn: Turn, side: Side) {
    match turn
    case Nothing => true
    case Sent(x, frame) =>
      && OnWire(x, frame, side)
      && (Own(side, x) ==> Unsent(w, x) || Seen(log, x))
      && forall y: nat :: Unsent(next, y) == (Unsent(w, y) && y != x)
    case Failed(x, unsentOpen) =>
      && (x in next.queues ==> !HasWork(next.queues[x]))
      && unsentOpen == Unsent(w, x)
      && (Own(side, x) ==> Unsent(w, x) || Seen(log, x))
      && forall y: nat :: Unsent(next, y) == (Unsent(w, y) && y != x)
  }

  lemma AskedSorted(w: Writer, log: seq<Frame>, side: Side, top: nat, asked: Writer)
    requires Tidy(w, log, side, top) && w.order != []
    requires asked.order == Rotated(w).order || asked.order == Without(Rotated(w).order, w.order[0])
    requires forall y: nat :: y != w.order[0] ==> Unsent(asked, y) == Unsent(w, y)
    requires !Unsent(asked, w.order[0])
    ensures Sorted(asked.order, asked.queues)
  {
    hide Listed, LaneTidy, HasWork, HoldsUnsentOpen, Seen, Orderly, OpensBelow, Holding;
    var x := w.order[0];
    assert forall y: nat :: Unsent(asked, y) == Holding(asked.queues, y);
    assert forall y: nat :: Unsent(w, y) == Holding(w.queues, y);
    SortedFewer(w.order, w.queues, asked.queues);
    SortedRotated(w.order, asked.queues);
    SortedWithout(Rotated(w).order, asked.queues, x);
  }

  lemma SentTidy(w: Writer, log: seq<Frame>, side: Side, top: nat, asked: Writer, frame: Frame)
    requires Tidy(w, log, side, top) && w.order != [] && w.order[0] in w.queues && asked.stopped == w.stopped
    requires var x := w.order[0];
             && (forall y: nat :: y != x ==>
                   && (y in asked.queues <==> y in w.queues)
                   && (y in w.queues ==> asked.queues[y] == w.queues[y]))
             && x in asked.queues && LaneTidy(x, asked.queues[x], side) && !Unsent(asked, x)
             && HasWork(w.queues[x])
             && OnWire(x, frame, side)
             && (Unsent(w, x) ==> frame.kind == OpenFrame)
    requires Listed(asked) && Sorted(asked.order, asked.queues)
    ensures Tidy(asked, log + [frame], side, top)
  {
    hide Orderly, OpensBelow, Seen, Listed, Sorted, LaneTidy, HasWork, HoldsUnsentOpen;
    var x := w.order[0];
    var all := log + [frame];
    OrderlyAppend(log, frame, side);
    forall y: nat
      ensures Seen(all, y) <==> Seen(log, y) || x == y
    {
      SeenAppend(log, frame, y);
    }
    forall y: nat | Unsent(asked, y)
      ensures !Seen(all, y) && OpensBelow(all, y)
    {
      assert y != x && Unsent(w, y);
      if frame.kind == OpenFrame {
        SentIsBelow(w, log, side, top, y);
      }
      OpensBelowAppend(log, frame, y);
    }
    assert forall y: nat :: y in asked.queues ==> LaneTidy(y, asked.queues[y], side);
    assert forall y: nat :: Own(side, y) && top < y ==> y !in asked.queues && !Seen(all, y);
    assert forall y: nat ::
        y in asked.queues && Own(side, y) && HasWork(asked.queues[y]) ==> Unsent(asked, y) || Seen(all, y) by {
      forall y: nat | y in asked.queues && Own(side, y) && HasWork(asked.queues[y]) && y != x
        ensures Unsent(asked, y) || Seen(all, y)
      {
        assert Unsent(asked, y) == Unsent(w, y);
      }
    }
  }

  /** An `open` on the front lane, first fragment or later, is below every other unsent one. */
  lemma SentIsBelow(w: Writer, log: seq<Frame>, side: Side, top: nat, y: nat)
    requires Tidy(w, log, side, top) && w.order != [] && w.order[0] in w.queues && HasWork(w.queues[w.order[0]])
    requires Own(side, w.order[0]) && Unsent(w, y) && y != w.order[0]
    ensures w.order[0] < y
  {
    hide Orderly, Seen, LaneTidy, HasWork, HoldsUnsentOpen;
    var x := w.order[0];
    if Unsent(w, x) {
      assert y in w.order;
      assert y in w.order[1..];
    } else {
      SeenIsOpened(log, x, side);
    }
  }

  lemma {:induction false} RotateTidy(w: Writer, turns: nat, log: seq<Frame>, side: Side, top: nat)
    requires Tidy(w, log, side, top)
    ensures var (next, turn) := Rotate(w, turns, side.cap, side.codec);
            && Tidy(next, if turn.Sent? then log + [turn.frame] else log, side, top)
            && Outcome(w, log, next, turn, side)
            && (turn.Nothing? ==> forall y: nat :: Unsent(next, y) == Unsent(w, y))
    decreases turns
  {
    hide Tidy, AskLane, Rotated, Listed, HoldsUnsentOpen, HasWork, Seen;
    if turns != 0 && w.order != [] {
      var x := w.order[0];
      TidyLane(w, log, side, top, x);
      ListedLanes(w, x);
      RotatedKeepsLanes(w);
      AskTidy(w, log, side, top);
      var (asked, turn) := AskLane(Rotated(w), x, side.cap, side.codec);
      if turn.Nothing? {
        RotateTidy(asked, turns - 1, log, side, top);
      }
    }
  }

  /** Flags aside, the writer is the same. */
  lemma FlagsTidy(w: Writer, w': Writer, log: seq<Frame>, side: Side, top: nat)
    requires Tidy(w, log, side, top) && w'.queues == w.queues && w'.order == w.order && w'.stopped == w.stopped
    ensures Tidy(w', log, side, top)
    ensures forall y: nat :: Unsent(w', y) == Unsent(w, y)
  {
    hide Orderly, OpensBelow, Seen, Sorted, LaneTidy, HasWork, HoldsUnsentOpen;
  }

  lemma NextFrameTidy(w: Writer, log: seq<Frame>, side: Side, top: nat)
    requires Tidy(w, log, side, top)
    ensures var (next, turn) := NextFrame(w, side.cap, side.codec);
            && Tidy(next, if turn.Sent? then log + [turn.frame] else log, side, top)
            && Outcome(w, log, next, turn, side)
            && (turn.Nothing? ==> forall y: nat :: Unsent(next, y) == Unsent(w, y))
  {
    hide Tidy, Rotate, AnyWork, HoldsUnsentOpen, HasWork, Seen, OnLane;
    if !w.stopped {
      RotateTidy(w, |w.order|, log, side, top);
      var (rotated, turn) := Rotate(w, |w.order|, side.cap, side.codec);
      if turn.Nothing? {
        FlagsTidy(rotated, NextFrame(w, side.cap, side.codec).0, log, side, top);
      }
    }
  }

  /** Slicing ahead happens only on a lane of which a frame was just sent. */
  lemma AdvanceTidy(w: Writer, log: seq<Frame>, side: Side, top: nat, x: nat)
    requires Tidy(w, log, side, top) && Seen(log, x)
    ensures var (next, turn) := Advance(w, x, side.cap, side.codec);
            && Tidy(next, log, side, top)
            && !turn.Sent?
            && Outcome(w, log, next, turn, side)
            && (turn.Failed? ==> turn.id == x && !turn.unsentOpen)
            && forall y: nat :: Unsent(next, y) == Unsent(w, y)
  {
    hide Tidy, Listed, Sorted, LaneTidy, HasWork, HoldsUnsentOpen, Prepare, Seen;
    if x in w.queues {
      var (next, turn) := Advance(w, x, side.cap, side.codec);
      TidyLane(w, log, side, top, x);
      PrepareTidy(x, w.queues[x], side);
      AdvanceListed(w, x, side.cap, side.codec);
      EmptyIsTidy(x, side);
      SortedFewer(w.order, w.queues, next.queues) by {
        assert forall y: nat :: Holding(next.queues, y) ==> Holding(w.queues, y);
      }
      SortedWithout(w.order, next.queues, x);
      ReplaceTidy(w, log, side, top, x, next);
    }
  }

  lemma EmptyIsTidy(x: nat, side: Side)
    ensures LaneTidy(x, EMPTY_LANE, side) && !HasWork(EMPTY_LANE) && !HoldsUnsentOpen(EMPTY_LANE)
  {
  }

  lemma DiscardAllTidy(w: Writer, log: seq<Frame>, side: Side, top: nat)
    requires Tidy(w, log, side, top)
    ensures Tidy(DiscardAll(w), log, side, top)
  {
    hide Orderly, OpensBelow, Seen, LaneTidy;
  }
}
