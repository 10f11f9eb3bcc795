/** What the rotation promises over whole runs: a lane with a frame is bypassed at most once by each
    other lane, each lane is a FIFO, and `idle` means nothing is left to send. */
module WriterLaws {
  import opened Frames
  import opened Codecs
  import opened Fragmenter
  import opened WriterModel

  // ------------------------------------------------------------ asking one lane

  /** The lane has a frame to hand over, or one that will fail to encode. */
  predicate HasFrame(lane: Lane, cap: nat, codec: Codec) {
    lane.prepared.Some? || lane.waiting != []
        || (lane.fragments.Some? && !Resume(lane.fragments.value, cap, codec).Stop?)
  }

  lemma StartNeverStops(frame: Frame, cap: nat, codec: Codec)
    ensures !Resume(Start(frame), cap, codec).Stop?
  {
    hide MiddleCount, Cuttable, Piece;
  }

  /** A lane without a frame is emptied by being asked; one with a frame hands it over or fails. */
  lemma PrepareOutcome(lane: Lane, cap: nat, codec: Codec)
    ensures !HasFrame(lane, cap, codec) ==> Prepare(lane, cap, codec) == Ready(EMPTY_LANE)
    ensures HasFrame(lane, cap, codec) ==>
      Prepare(lane, cap, codec).Raised? || Prepare(lane, cap, codec).lane.prepared.Some?
  {
    hide Resume;
    if lane.waiting != [] {
      StartNeverStops(lane.waiting[0], cap, codec);
    }
  }

  lemma AskOutcome(w: Writer, id: nat, cap: nat, codec: Codec)
    requires id in w.queues
    ensures var (asked, turn) := AskLane(w, id, cap, codec);
            && (turn.Nothing? <==> !HasFrame(w.queues[id], cap, codec))
            && (!turn.Nothing? ==> turn.id == id)
            && (forall x :: x != id ==> (x in asked.queues <==> x in w.queues))
            && (forall x :: x != id && x in w.queues ==> asked.queues[x] == w.queues[x])
            && (asked.order == w.order || asked.order == Without(w.order, id))
            && (turn.Nothing? && id in asked.queues ==> asked.queues[id] == EMPTY_LANE)
  {
    hide Prepare, HasFrame;
    PrepareOutcome(w.queues[id], cap, codec);
  }

  // ------------------------------------------------------------ who is ahead of a lane

  /** The lanes asked before `id`, in order. */
  function Before(order: seq<nat>, id: nat): (ahead: seq<nat>) {
    if order == [] || order[0] == id then [] else [order[0]] + Before(order[1..], id)
  }

  lemma {:induction false} BeforeAppend(order: seq<nat>, tail: seq<nat>, id: nat)
    requires id in order
    ensures Before(order + tail, id) == Before(order, id)
  {
    if order[0] != id {
      BeforeAppend(order[1..], tail, id);
      assert (order + tail)[1..] == order[1..] + tail;
    }
  }

  lemma {:induction false} BeforeWithout(order: seq<nat>, x: nat, id: nat)
    requires x != id
    ensures Before(Without(order, x), id) == Without(Before(order, id), x)
  {
    if order != [] && order[0] != id {
      var tail := order[1..];
      assert Before(order, id)[1..] == Before(tail, id);
      if order[0] != x {
        BeforeWithout(tail, x, id);
        assert Without(order, x)[1..] == Without(tail, x);
      }
    }
  }

  lemma {:induction false} WithoutAbsent(order: seq<nat>, x: nat)
    requires x !in order
    ensures Without(order, x) == order
  {
    if order != [] {
      WithoutAbsent(order[1..], x);
    }
  }

  lemma {:induction false} WithoutShrinks(order: seq<nat>, x: nat)
    ensures |Without(order, x)| <= |order|
    ensures forall y :: y in Without(order, x) ==> y in order
  {
    if order != [] && order[0] != x {
      WithoutShrinks(order[1..], x);
    }
  }

  lemma {:induction false} BeforeIsWithin(order: seq<nat>, id: nat)
    ensures |Before(order, id)| <= |order|
    ensures id in order ==> |Before(order, id)| < |order|
    ensures forall x :: x in Before(order, id) ==> x in order && x != id
  {
    if order != [] && order[0] != id {
      BeforeIsWithin(order[1..], id);
    }
  }

  /** `now` is what is left of `then` once `gone` has been asked: fewer lanes, all of them from `then`,
      and `gone` is not among them. */
  ghost predicate Passed(then_: seq<nat>, now: seq<nat>, gone: nat) {
    && |now| < |then_|
    && gone in then_ && gone !in now
    && forall x :: x in now ==> x in then_
  }

  /** A rotation that does not serve `id`, which has a frame, serves a lane ahead of it, and that lane
      is ahead of it no more. */
  lemma {:induction false} RotatePasses(w: Writer, turns: nat, id: nat, cap: nat, codec: Codec)
    requires Listed(w) && id in w.queues && HasFrame(w.queues[id], cap, codec)
    requires |Before(w.order, id)| < turns
    ensures var (rotated, turn) := Rotate(w, turns, cap, codec);
            && !turn.Nothing?
            && (turn.id == id ||
                (&& Passed(Before(w.order, id), Before(rotated.order, id), turn.id)
                 && id in rotated.queues && rotated.queues[id] == w.queues[id]))
    decreases turns
  {
    hide Prepare, HasFrame, AskLane, Rotated, HasWork;
    var first := w.order[0];
    var moved := Rotated(w);
    RotatedKeepsLanes(w);
    RotatedListed(w);
    AskOutcome(moved, first, cap, codec);
    if first != id {
      RotatedBefore(w, id);
      var (asked, turn) := AskLane(moved, first, cap, codec);
      AskListed(moved, first, cap, codec);
      BeforeWithout(moved.order, first, id);
      WithoutAbsent(Before(moved.order, id), first);
      assert Before(asked.order, id) == Before(moved.order, id);
      if turn.Nothing? {
        RotatePasses(asked, turns - 1, id, cap, codec);
      }
    }
  }

  lemma RotatedBefore(w: Writer, id: nat)
    requires Listed(w) && id in w.queues && w.order[0] != id
    ensures Before(w.order, id) == [w.order[0]] + Before(Rotated(w).order, id)
    ensures w.order[0] !in Before(Rotated(w).order, id)
  {
    var tail := w.order[1..];
    assert id in tail;
    BeforeAppend(tail, [w.order[0]], id);
    BeforeIsWithin(tail, id);
  }

  // ------------------------------------------------------------ runs

  /** Everything that can happen to a writer that is neither stopped nor emptied by socket death. */
  datatype Op = Put(frame: Frame) | Ask | Sliced(id: nat) | Drop(id: nat)

  function Do(w: Writer, op: Op, cap: nat, codec: Codec): (Writer, Turn) {
    match op
    case Put(frame) => (Enqueue(w, frame), Nothing)
    case Ask => NextFrame(w, cap, codec)
    case Sliced(id) => Advance(w, id, cap, codec)
    case Drop(id) => (Discard(w, id), Nothing)
  }

  lemma DoListed(w: Writer, op: Op, cap: nat, codec: Codec)
    requires Listed(w)
    ensures Listed(Do(w, op, cap, codec).0)
  {
    hide Prepare, Rotate, Enqueue, Discard, AnyWork;
    match op
    case Put(frame) => EnqueueListed(w, frame);
    case Ask => RotateListed(w, |w.order|, cap, codec);
    case Sliced(id) => AdvanceListed(w, id, cap, codec);
    case Drop(id) => DiscardListed(w, id);
  }

  /** The run after `ops`, and what each of them reported. */
  function Run(w: Writer, ops: seq<Op>, cap: nat, codec: Codec): (Writer, seq<Turn>)
    decreases |ops|
  {
    if ops == [] then (w, [])
    else
      var (next, turn) := Do(w, ops[0], cap, codec);
      var (end, turns) := Run(next, ops[1..], cap, codec);
      (end, [turn] + turns)
  }

  /** The lanes an `Ask` served in a run, a failed encode included. */
  function Served(ops: seq<Op>, turns: seq<Turn>): (served: seq<nat>)
    requires |ops| == |turns|
  {
    if ops == [] then []
    else (if ops[0].Ask? && !turns[0].Nothing? then [turns[0].id] else []) + Served(ops[1..], turns[1..])
  }

  lemma {:induction false} RunLength(w: Writer, ops: seq<Op>, cap: nat, codec: Codec)
    ensures |Run(w, ops, cap, codec).1| == |ops|
    decreases |ops|
  {
    if ops != [] {
      RunLength(Do(w, ops[0], cap, codec).0, ops[1..], cap, codec);
    }
  }

  /** Neither a turn nor a discard concerns lane `id`. */
  predicate Spares(id: nat, op: Op, turn: Turn) {
    op != Drop(id) && (turn.Nothing? || turn.id != id)
  }

  /** `id` still has a frame, and ahead of it are only lanes that were. */
  ghost predicate Holds(w: Writer, next: Writer, id: nat, cap: nat, codec: Codec) {
    && !next.stopped && id in next.queues && HasFrame(next.queues[id], cap, codec)
    && |Before(next.order, id)| <= |Before(w.order, id)|
    && forall x :: x in Before(next.order, id) ==> x in Before(w.order, id)
  }

  lemma PutHolds(w: Writer, frame: Frame, id: nat, cap: nat, codec: Codec)
    requires Listed(w) && !w.stopped && id in w.queues && HasFrame(w.queues[id], cap, codec)
    ensures Holds(w, Enqueue(w, frame), id, cap, codec)
  {
    hide Resume, Before;
    BeforeAppend(w.order, [LaneOf(frame)], id);
  }

  lemma SlicedHolds(w: Writer, x: nat, id: nat, cap: nat, codec: Codec)
    requires Listed(w) && !w.stopped && id in w.queues && HasFrame(w.queues[id], cap, codec)
    requires Spares(id, Sliced(x), Advance(w, x, cap, codec).1)
    ensures Holds(w, Advance(w, x, cap, codec).0, id, cap, codec)
  {
    hide Prepare, Resume, Before, HasWork;
    if x in w.queues {
      PrepareOutcome(w.queues[x], cap, codec);
      if x != id {
        BeforeWithout(w.order, x, id);
        WithoutShrinks(Before(w.order, id), x);
      }
    }
  }

  lemma DropHolds(w: Writer, x: nat, id: nat, cap: nat, codec: Codec)
    requires Listed(w) && !w.stopped && id in w.queues && HasFrame(w.queues[id], cap, codec) && x != id
    ensures Holds(w, Discard(w, x), id, cap, codec)
  {
    hide HoldsUnsentOpen, HasFrame, Before, HasWork;
    BeforeWithout(w.order, x, id);
    WithoutShrinks(Before(w.order, id), x);
  }

  lemma AskHolds(w: Writer, id: nat, cap: nat, codec: Codec)
    requires Listed(w) && !w.stopped && id in w.queues && HasFrame(w.queues[id], cap, codec)
    requires Spares(id, Ask, NextFrame(w, cap, codec).1)
    ensures var (next, turn) := NextFrame(w, cap, codec);
            && Holds(w, next, id, cap, codec)
            && !turn.Nothing? && Passed(Before(w.order, id), Before(next.order, id), turn.id)
  {
    hide Rotate, HasFrame, Before, AnyWork;
    BeforeIsWithin(w.order, id);
    RotatePasses(w, |w.order|, id, cap, codec);
    RotateKeepsFlags(w, |w.order|, cap, codec);
  }

  /** One operation that spares a lane with a frame leaves it a frame, and leaves ahead of it only lanes
      that were, without the lane it served. */
  lemma DoPasses(w: Writer, op: Op, id: nat, cap: nat, codec: Codec)
    requires Listed(w) && !w.stopped && id in w.queues && HasFrame(w.queues[id], cap, codec)
    requires Spares(id, op, Do(w, op, cap, codec).1)
    ensures var (next, turn) := Do(w, op, cap, codec);
            && Listed(next)
            && Holds(w, next, id, cap, codec)
            && (op.Ask? ==> !turn.Nothing? && Passed(Before(w.order, id), Before(next.order, id), turn.id))
  {
    hide HasFrame, NextFrame, Enqueue, Discard, Advance, Holds, Passed;
    DoListed(w, op, cap, codec);
    match op
    case Put(frame) => PutHolds(w, frame, id, cap, codec);
    case Ask => AskHolds(w, id, cap, codec);
    case Sliced(x) => SlicedHolds(w, x, id, cap, codec);
    case Drop(x) => DropHolds(w, x, id, cap, codec);
  }

  lemma {:induction false} RotateKeepsFlags(w: Writer, turns: nat, cap: nat, codec: Codec)
    ensures Rotate(w, turns, cap, codec).0.stopped == w.stopped
    ensures Rotate(w, turns, cap, codec).0.idle == w.idle && Rotate(w, turns, cap, codec).0.wake == w.wake
    decreases turns
  {
    hide Prepare, HasWork;
    if turns != 0 && w.order != [] {
      var moved := Rotated(w);
      if w.order[0] !in w.queues {
        RotateKeepsFlags(moved, turns - 1, cap, codec);
      } else {
        RotateKeepsFlags(AskLane(moved, w.order[0], cap, codec).0, turns - 1, cap, codec);
      }
    }
  }

  /** Bounded bypass.  While a lane with a frame is not served, whatever is enqueued, sliced, discarded
      or fails to encode on the others, each lane served in the meantime is one that was ahead of it,
      none is served twice, and every turn serves one: at most `|Before|` turns pass. */
  lemma {:induction false} BoundedBypass(w: Writer, ops: seq<Op>, id: nat, cap: nat, codec: Codec)
    requires Listed(w) && !w.stopped && id in w.queues && HasFrame(w.queues[id], cap, codec)
    requires |Run(w, ops, cap, codec).1| == |ops|
    requires forall i :: 0 <= i < |ops| ==> Spares(id, ops[i], Run(w, ops, cap, codec).1[i])
    ensures var served := Served(ops, Run(w, ops, cap, codec).1);
            && Distinct(served)
            && (forall x :: x in served ==> x in Before(w.order, id))
            && |served| == Asks(ops) <= |Before(w.order, id)|
    decreases |ops|
  {
    hide Do, HasFrame, Spares, Before;
    if ops != [] {
      var (next, turn) := Do(w, ops[0], cap, codec);
      var turns := Run(next, ops[1..], cap, codec).1;
      var all := Run(w, ops, cap, codec).1;
      assert all == [turn] + turns;
      RunLength(next, ops[1..], cap, codec);
      assert Spares(id, ops[0], all[0]);
      DoPasses(w, ops[0], id, cap, codec);
      forall i | 0 <= i < |ops| - 1
        ensures Spares(id, ops[1..][i], turns[i])
      {
        assert Spares(id, ops[i + 1], all[i + 1]);
      }
      BoundedBypass(next, ops[1..], id, cap, codec);
      assert all[1..] == turns;
    }
  }

  function Asks(ops: seq<Op>): nat {
    if ops == [] then 0 else (if ops[0].Ask? then 1 else 0) + Asks(ops[1..])
  }

  // ------------------------------------------------------------ one turn

  /** A turn serves the first lane of the rotation that has a frame, and serves none only when no lane
      has one; then no lane has work left. */
  lemma {:induction false} TurnServesFirst(w: Writer, turns: nat, cap: nat, codec: Codec)
    requires Listed(w) && turns <= |w.order|
    requires forall i :: turns <= i < |w.order| ==> !HasWork(w.queues[w.order[i]])
    ensures var (rotated, turn) := Rotate(w, turns, cap, codec);
            && (turn.Nothing? <==> forall x :: x in w.queues ==> !HasFrame(w.queues[x], cap, codec))
            && (turn.Nothing? ==> !AnyWork(rotated))
            && (!turn.Nothing? ==>
                && turn.id in w.queues && HasFrame(w.queues[turn.id], cap, codec)
                && forall x :: x in Before(w.order, turn.id) ==> x in w.queues && !HasFrame(w.queues[x], cap, codec))
    decreases turns
  {
    hide Prepare, HasFrame, AskLane, Rotated, HasWork, Before, Distinct;
    if turns == 0 || w.order == [] {
      forall x | x in w.queues
        ensures !HasWork(w.queues[x]) && !HasFrame(w.queues[x], cap, codec)
      {
        NoWorkNoFrame(w.queues[x], cap, codec);
      }
    } else {
      var first := w.order[0];
      var moved := Rotated(w);
      RotatedKeepsLanes(w);
      RotatedListed(w);
      AskOutcome(moved, first, cap, codec);
      AskListed(moved, first, cap, codec);
      var (asked, turn) := AskLane(moved, first, cap, codec);
      if turn.Nothing? {
        EmptyHasNoWork();
        NoWorkNoFrame(EMPTY_LANE, cap, codec);
        AskedTail(w, turns, cap, codec);
        TurnServesFirst(asked, turns - 1, cap, codec);
        var later := Rotate(asked, turns - 1, cap, codec).1;
        assert forall x :: x in w.queues && x != first ==> x in asked.queues ==> asked.queues[x] == w.queues[x];
        if !later.Nothing? {
          AheadAfterAsk(w, first, later.id, cap, codec);
        }
      } else {
        NothingBeforeFirst(w.order);
      }
    }
  }

  lemma NothingBeforeFirst(order: seq<nat>)
    requires order != []
    ensures Before(order, order[0]) == []
  {
  }

  /** Ahead of a lane, before the front lane was asked, was the front lane and what is ahead of it now. */
  lemma AheadAfterAsk(w: Writer, first: nat, id: nat, cap: nat, codec: Codec)
    requires Listed(w) && w.order != [] && first == w.order[0] && id in w.queues && id != first
    ensures Before(w.order, id) == [first] + Before(AskLane(Rotated(w), first, cap, codec).0.order, id)
  {
    hide HasFrame, AskLane, HasWork;
    var moved := Rotated(w);
    RotatedBefore(w, id);
    AskOutcome(moved, first, cap, codec);
    BeforeWithout(moved.order, first, id);
    WithoutAbsent(Before(moved.order, id), first);
  }

  lemma NoWorkNoFrame(lane: Lane, cap: nat, codec: Codec)
    ensures !HasWork(lane) ==> !HasFrame(lane, cap, codec)
  {
  }

  /** What lies beyond the turns that are left has no work, once the lane just asked had no frame. */
  lemma AskedTail(w: Writer, turns: nat, cap: nat, codec: Codec)
    requires Listed(w) && 0 < turns <= |w.order|
    requires forall i :: turns <= i < |w.order| ==> !HasWork(w.queues[w.order[i]])
    requires AskLane(Rotated(w), w.order[0], cap, codec).1.Nothing?
    ensures var asked := AskLane(Rotated(w), w.order[0], cap, codec).0;
            && Listed(asked)
            && turns - 1 <= |asked.order|
            && forall i :: turns - 1 <= i < |asked.order| ==> !HasWork(asked.queues[asked.order[i]])
  {
    hide Prepare, HasFrame, HasWork;
    var first := w.order[0];
    var tail := w.order[1..];
    var moved := Rotated(w);
    RotatedListed(w);
    AskOutcome(moved, first, cap, codec);
    AskListed(moved, first, cap, codec);
    var asked := AskLane(moved, first, cap, codec).0;
    WithoutLast(tail, first);
    assert asked.order == tail + [first] || asked.order == tail;
    assert !HasWork(EMPTY_LANE) by { EmptyHasNoWork(); }
    forall i | turns - 1 <= i < |asked.order|
      ensures !HasWork(asked.queues[asked.order[i]])
    {
      if i < |tail| {
        assert asked.order[i] == w.order[i + 1];
        assert w.order[i + 1] != first;
      }
    }
  }

  lemma EmptyHasNoWork()
    ensures !HasWork(EMPTY_LANE)
  {
  }

  lemma {:induction false} WithoutLast(order: seq<nat>, x: nat)
    requires x !in order
    ensures Without(order + [x], x) == order
  {
    if order != [] {
      WithoutLast(order[1..], x);
      assert (order + [x])[1..] == order[1..] + [x];
    }
  }

  /** The lanes a rotation of at most `turns` asks, in order. */
  function Asked(w: Writer, turns: nat, cap: nat, codec: Codec): (lanes: seq<nat>)
    decreases turns
  {
    if turns == 0 || w.order == [] then []
    else
      var id := w.order[0];
      var moved := Rotated(w);
      if id !in w.queues then Asked(moved, turns - 1, cap, codec)
      else
        var (asked, turn) := AskLane(moved, id, cap, codec);
        [id] + if turn.Nothing? then Asked(asked, turns - 1, cap, codec) else []
  }

  /** Every lane is asked once before any is asked twice: a full turn asks a front part of the rotation. */
  lemma {:induction false} AskedAtMostOnce(w: Writer, turns: nat, cap: nat, codec: Codec)
    requires Listed(w) && turns <= |w.order|
    ensures Asked(w, turns, cap, codec) <= w.order && |Asked(w, turns, cap, codec)| <= turns
    ensures Distinct(Asked(w, turns, cap, codec))
    decreases turns
  {
    hide AskLane, Rotated, Distinct;
    if turns != 0 {
      var first, moved := w.order[0], Rotated(w);
      RotatedKeepsLanes(w);
      RotatedListed(w);
      AskListed(moved, first, cap, codec);
      AskOutcome(moved, first, cap, codec);
      var (asked, turn) := AskLane(moved, first, cap, codec);
      if turn.Nothing? {
        AskedOrder(w, asked);
        AskedAtMostOnce(asked, turns - 1, cap, codec);
      }
    }
    PrefixDistinct(Asked(w, turns, cap, codec), w.order);
  }

  lemma AskedOrder(w: Writer, asked: Writer)
    requires Listed(w) && w.order != []
    requires asked.order == Rotated(w).order || asked.order == Without(Rotated(w).order, w.order[0])
    ensures w.order[1..] <= asked.order && |w.order| - 1 <= |asked.order|
  {
    WithoutLast(w.order[1..], w.order[0]);
  }

  lemma PrefixDistinct(front: seq<nat>, order: seq<nat>)
    requires front <= order && Distinct(order)
    ensures Distinct(front)
  {
  }

  /** A turn that finds no frame leaves no lane behind but the connection's, and that one empty: nothing is kept for a
      stream that has nothing to send. */
  lemma NothingIsKept(w: Writer, cap: nat, codec: Codec)
    requires Listed(w) && !w.stopped && NextFrame(w, cap, codec).1.Nothing?
    ensures forall x :: x in NextFrame(w, cap, codec).0.queues ==>
              x == CONNECTION_LANE && NextFrame(w, cap, codec).0.queues[x] == EMPTY_LANE
  {
    hide Rotate, HasWork, Listed;
    RotateEmpties(w, |w.order|, {}, cap, codec);
    var rotated := Rotate(w, |w.order|, cap, codec).0;
    assert Listed(rotated) by { RotateListed(w, |w.order|, cap, codec); }
    OrderOfQueues(w);
  }

  lemma OrderOfQueues(w: Writer)
    requires Listed(w)
    ensures forall x :: x in w.queues ==> x in w.order
  {
  }

  /** The connection's lane is empty, or `id` is not among the lanes. */
  predicate Emptied(w: Writer, id: nat) {
    id in w.queues ==> id == CONNECTION_LANE && w.queues[id] == EMPTY_LANE
  }

  /** Every lane asked in vain is emptied, and those emptied before stay so. */
  lemma {:induction false} RotateEmpties(w: Writer, turns: nat, done: set<nat>, cap: nat, codec: Codec)
    requires Listed(w) && turns <= |w.order| && Rotate(w, turns, cap, codec).1.Nothing?
    requires forall x :: x in done ==> Emptied(w, x)
    ensures var rotated := Rotate(w, turns, cap, codec).0;
            && (forall x :: x in done ==> Emptied(rotated, x))
            && (forall i :: 0 <= i < turns ==> Emptied(rotated, w.order[i]))
            && (forall x :: x in rotated.queues ==> x in w.queues)
    decreases turns
  {
    hide Prepare, HasFrame, AskLane, Rotated, HasWork, Distinct, Before;
    if turns != 0 {
      var first, moved := w.order[0], Rotated(w);
      RotatedKeepsLanes(w);
      RotatedListed(w);
      AskListed(moved, first, cap, codec);
      AskOutcome(moved, first, cap, codec);
      AskEmpties(moved, first, cap, codec);
      var asked := AskLane(moved, first, cap, codec).0;
      AskedOrder(w, asked);
      RotateEmpties(asked, turns - 1, done + {first}, cap, codec);
      forall i | 0 <= i < turns
        ensures Emptied(Rotate(w, turns, cap, codec).0, w.order[i])
      {
        if i != 0 { assert asked.order[i - 1] == w.order[1..][i - 1] == w.order[i]; }
      }
    }
  }

  lemma AskEmpties(w: Writer, id: nat, cap: nat, codec: Codec)
    requires Listed(w) && id in w.queues && AskLane(w, id, cap, codec).1.Nothing?
    ensures Emptied(AskLane(w, id, cap, codec).0, id)
    ensures forall x :: x in AskLane(w, id, cap, codec).0.queues ==> x in w.queues
  {
    hide Prepare, HasFrame, Without;
    PrepareOutcome(w.queues[id], cap, codec);
    AskOutcome(w, id, cap, codec);
    EmptyHasNoWork();
  }

  // ------------------------------------------------------------ each lane is a FIFO

  function SplitAll(frames: seq<Frame>, cap: nat, codec: Codec): seq<Frame> {
    if frames == [] then [] else SplitFrame(frames[0], cap, codec).frames + SplitAll(frames[1..], cap, codec)
  }

  /** The frames a lane hands over if nothing is put on it or dropped from it. */
  function Upcoming(lane: Lane, cap: nat, codec: Codec): seq<Frame> {
    (if lane.prepared.Some? then [lane.prepared.value] else [])
    + (if lane.fragments.Some? then Drain(lane.fragments.value, cap, codec).frames else [])
    + SplitAll(lane.waiting, cap, codec)
  }

  function UpcomingOn(w: Writer, id: nat, cap: nat, codec: Codec): seq<Frame> {
    if id in w.queues then Upcoming(w.queues[id], cap, codec) else []
  }

  lemma {:induction false} SplitAllAppend(frames: seq<Frame>, frame: Frame, cap: nat, codec: Codec)
    ensures SplitAll(frames + [frame], cap, codec) == SplitAll(frames, cap, codec)
      + SplitFrame(frame, cap, codec).frames
    decreases |frames|
  {
    hide SplitFrame;
    if frames == [] {
      assert SplitAll([frame][1..], cap, codec) == [];
    } else {
      SplitAllAppend(frames[1..], frame, cap, codec);
      assert (frames + [frame])[1..] == frames[1..] + [frame];
    }
  }

  /** Slicing moves frames from the waiting room to the prepared place and loses none. */
  lemma PrepareKeepsUpcoming(lane: Lane, cap: nat, codec: Codec)
    requires Prepare(lane, cap, codec).Ready?
    ensures Upcoming(Prepare(lane, cap, codec).lane, cap, codec) == Upcoming(lane, cap, codec)
  {
    hide Resume, PrepareNext, SplitAll;
    if lane.prepared.None? && PrepareNext(lane.(fragments := None), cap, codec).Ready? {
      NextKeepsUpcoming(lane.(fragments := None), cap, codec);
    }
  }

  lemma NextKeepsUpcoming(lane: Lane, cap: nat, codec: Codec)
    requires lane.prepared.None? && lane.fragments.None? && PrepareNext(lane, cap, codec).Ready?
    ensures Upcoming(PrepareNext(lane, cap, codec).lane, cap, codec) == Upcoming(lane, cap, codec)
  {
    hide Resume;
    if lane.waiting != [] {
      StartNeverStops(lane.waiting[0], cap, codec);
    }
  }

  lemma EmptyUpcoming(lane: Lane, cap: nat, codec: Codec)
    ensures !HasWork(lane) ==> Upcoming(lane, cap, codec) == []
  {
  }

  /** What one turn does to the frames to come on a lane. */
  ghost predicate Moves(before: seq<Frame>, after: seq<Frame>, turn: Turn, id: nat) {
    match turn
    case Nothing => after == before
    case Sent(x, frame) => if x == id then before == [frame] + after else after == before
    case Failed(x, _) => x == id || after == before
  }

  lemma AskMoves(w: Writer, x: nat, id: nat, cap: nat, codec: Codec)
    requires x in w.queues
    ensures var (asked, turn) := AskLane(w, x, cap, codec);
            Moves(UpcomingOn(w, id, cap, codec), UpcomingOn(asked, id, cap, codec), turn, id)
  {
    hide Prepare, HasWork, Upcoming, Retire, WriterModel.Fail;
    match Prepare(w.queues[x], cap, codec) {
      case Ready(lane) =>
        PrepareKeepsUpcoming(w.queues[x], cap, codec);
        HandOverUpcoming(lane, cap, codec);
        RetireElsewhere(w.(queues := w.queues[x := lane]), x, id);
      case Raised(_) => FailElsewhere(w, x, id);
    }
  }

  /** A lane without work has nothing to come; one with a frame in hand has that frame first. */
  lemma HandOverUpcoming(lane: Lane, cap: nat, codec: Codec)
    ensures !HasWork(lane) ==> Upcoming(lane, cap, codec) == []
    ensures lane.prepared.Some?
      ==> Upcoming(lane, cap, codec) == [lane.prepared.value] + Upcoming(lane.(prepared := None), cap, codec)
  {
    hide Drain, SplitAll;
    EmptyUpcoming(lane, cap, codec);
  }

  lemma RetireElsewhere(w: Writer, x: nat, id: nat)
    ensures var q := Retire(w, x).queues;
            (id in q ==> id in w.queues && q[id] == w.queues[id]) && (id !in q && id in w.queues ==> id == x)
  {
  }

  lemma FailElsewhere(w: Writer, x: nat, id: nat)
    ensures var q := WriterModel.Fail(w, x).queues;
            id != x ==> (id in q <==> id in w.queues) && (id in q ==> q[id] == w.queues[id])
  {
  }

  lemma {:induction false} RotateMoves(w: Writer, turns: nat, id: nat, cap: nat, codec: Codec)
    ensures var (rotated, turn) := Rotate(w, turns, cap, codec);
            Moves(UpcomingOn(w, id, cap, codec), UpcomingOn(rotated, id, cap, codec), turn, id)
    decreases turns
  {
    hide AskLane, Upcoming;
    if turns != 0 && w.order != [] {
      var moved := Rotated(w);
      if w.order[0] !in w.queues {
        RotateMoves(moved, turns - 1, id, cap, codec);
      } else {
        AskMoves(moved, w.order[0], id, cap, codec);
        RotateMoves(AskLane(moved, w.order[0], cap, codec).0, turns - 1, id, cap, codec);
      }
    }
  }

  /** The frames put on a lane, split. */
  function PutOn(ops: seq<Op>, id: nat, cap: nat, codec: Codec): seq<Frame> {
    if ops == [] then []
    else (if ops[0].Put? && LaneOf(ops[0].frame) == id then SplitFrame(ops[0].frame, cap, codec).frames else [])
         + PutOn(ops[1..], id, cap, codec)
  }

  /** The frames a lane handed over. */
  function SentOn(turns: seq<Turn>, id: nat): seq<Frame> {
    if turns == [] then []
    else (if turns[0].Sent? && turns[0].id == id then [turns[0].frame] else []) + SentOn(turns[1..], id)
  }

  lemma DoMoves(w: Writer, op: Op, id: nat, cap: nat, codec: Codec)
    requires op != Drop(id) && !(Do(w, op, cap, codec).1.Failed? && Do(w, op, cap, codec).1.id == id)
    ensures var (next, turn) := Do(w, op, cap, codec);
            SentOn([turn], id) + UpcomingOn(next, id, cap, codec) == UpcomingOn(w, id, cap, codec)
                + PutOn([op], id, cap, codec)
  {
    hide Prepare, Rotate, HasWork, AnyWork, HoldsUnsentOpen, SplitFrame, Drain, SplitAll;
    var turn := Do(w, op, cap, codec).1;
    assert SentOn([turn][1..], id) == [] && PutOn([op][1..], id, cap, codec) == [];
    match op
    case Put(frame) => PutMoves(w, frame, id, cap, codec);
    case Ask => RotateMoves(w, |w.order|, id, cap, codec);
    case Sliced(x) =>
      if x in w.queues && Prepare(w.queues[x], cap, codec).Ready? {
        PrepareKeepsUpcoming(w.queues[x], cap, codec);
      }
    case Drop(x) =>
  }

  lemma PutMoves(w: Writer, frame: Frame, id: nat, cap: nat, codec: Codec)
    ensures UpcomingOn(Enqueue(w, frame), id, cap, codec)
            == UpcomingOn(w, id, cap, codec) + (if LaneOf(frame) == id then SplitFrame(frame, cap, codec).frames
                                                else [])
  {
    hide HasWork, SplitFrame, Drain, SplitAll;
    if LaneOf(frame) == id {
      var lane := if id in w.queues then w.queues[id] else EMPTY_LANE;
      SplitAllAppend(lane.waiting, frame, cap, codec);
      EmptyHasNoWork();
      EmptyUpcoming(EMPTY_LANE, cap, codec);
    }
  }

  /** Per-stream order, whatever the other lanes do: the frames a lane has handed over, and then those it
      will, are those put on it, each split, in the order they were put. */
  lemma {:induction false} LaneIsFifo(w: Writer, ops: seq<Op>, id: nat, cap: nat, codec: Codec)
    requires Drop(id) !in ops
    requires forall turn :: turn in Run(w, ops, cap, codec).1 ==> !(turn.Failed? && turn.id == id)
    ensures var (end, turns) := Run(w, ops, cap, codec);
            SentOn(turns, id) + UpcomingOn(end, id, cap, codec)
            == UpcomingOn(w, id, cap, codec) + PutOn(ops, id, cap, codec)
    decreases |ops|
  {
    hide Do, UpcomingOn, SplitFrame;
    if ops != [] {
      var (next, turn) := Do(w, ops[0], cap, codec);
      var (end, turns) := Run(next, ops[1..], cap, codec);
      var all := Run(w, ops, cap, codec).1;
      assert all == [turn] + turns && all[0] == turn;
      DoMoves(w, ops[0], id, cap, codec);
      LaneIsFifo(next, ops[1..], id, cap, codec);
      PutOnHead(ops, id, cap, codec);
      SentOnHead(turn, turns, id);
      Regroup(SentOn([turn], id), SentOn(turns, id), UpcomingOn(end, id, cap, codec), UpcomingOn(w, id, cap, codec),
              UpcomingOn(next, id, cap, codec), PutOn([ops[0]], id, cap, codec), PutOn(ops[1..], id, cap, codec));
    }
  }

  lemma PutOnHead(ops: seq<Op>, id: nat, cap: nat, codec: Codec)
    requires ops != []
    ensures PutOn([ops[0]], id, cap, codec) + PutOn(ops[1..], id, cap, codec) == PutOn(ops, id, cap, codec)
  {
    hide SplitFrame;
    assert [ops[0]][1..] == [];
  }

  lemma SentOnHead(turn: Turn, turns: seq<Turn>, id: nat)
    ensures SentOn([turn], id) + SentOn(turns, id) == SentOn([turn] + turns, id)
  {
    assert [turn][1..] == [] && ([turn] + turns)[1..] == turns;
  }

  lemma Regroup<T>(first: seq<T>, rest: seq<T>, last: seq<T>, was: seq<T>, now: seq<T>, put: seq<T>, later: seq<T>)
    requires first + now == was + put && rest + last == now + later
    ensures (first + rest) + last == was + (put + later)
  {
    calc {
      (first + rest) + last;
      first + (rest + last);
      (first + now) + later;
      was + (put + later);
    }
  }

  // ------------------------------------------------------------ a discard

  /** After a discard nothing of the lane is handed over any more but an `open` no part of which was: all of its
      fragments, and no others.  A lane with nothing left is forgotten, and every other lane is as it was. */
  lemma DiscardLeaves(w: Writer, id: nat, cap: nat, codec: Codec)
    requires 0 < id
    ensures var w' := Discard(w, id);
            && (if id in w.queues && w.queues[id].prepared.None? && w.queues[id].fragments.None?
                   && w.queues[id].waiting != [] && w.queues[id].waiting[0].kind == OpenFrame
                then
                  id in w'.queues
                      && UpcomingOn(w', id, cap, codec) == SplitFrame(w.queues[id].waiting[0], cap, codec).frames
                else id !in w'.queues)
            && forall x ::
                  x != id ==> (x in w'.queues <==> x in w.queues) && (x in w.queues ==> w'.queues[x] == w.queues[x])
  {
    hide SplitFrame, Without;
    if id in w.queues && HoldsUnsentOpen(w.queues[id]) {
      var open := w.queues[id].waiting[0];
      assert [open][1..] == [];
      assert SplitAll([open], cap, codec) == SplitFrame(open, cap, codec).frames + [];
    }
  }

  // ------------------------------------------------------------ idle

  /** The write loop: the lane of the frame it has taken and not yet seen reach the socket, and whether the
      writer was emptied since it took that frame. */
  datatype Loop = Loop(writer: Writer, inFlight: Option<nat>, emptied: bool)

  datatype Event = Queue(frame: Frame) | Take | Reached | Cancel(id: nat) | StopIt | Empty

  function LoopStep(l: Loop, e: Event, cap: nat, codec: Codec): Loop {
    match e
    case Queue(frame) => l.(writer := Enqueue(l.writer, frame))
    case Take =>
      if l.inFlight.Some? then l
      else
        var (next, turn) := NextFrame(l.writer, cap, codec);
        l.(writer := next, inFlight := if turn.Sent? then Some(turn.id) else None)
    case Reached =>
      if l.inFlight.None? then l
      else Loop(Advance(l.writer, l.inFlight.value, cap, codec).0, None, false)
    case Cancel(id) => l.(writer := Discard(l.writer, id))
    case StopIt => l.(writer := StopWriter(l.writer))
    case Empty => l.(writer := DiscardAll(l.writer), emptied := l.inFlight.Some?)
  }

  function LoopRun(l: Loop, events: seq<Event>, cap: nat, codec: Codec): Loop
    decreases |events|
  {
    if events == [] then l else LoopRun(LoopStep(l, events[0], cap, codec), events[1..], cap, codec)
  }

  /** While the writer is not stopped, `idle` is set only when nothing is queued, prepared or being sliced, and no
      frame is in flight but one that was taken before the writer was emptied. */
  ghost predicate IdleMeansSent(l: Loop) {
    && (l.writer.idle && !l.writer.stopped ==> !AnyWork(l.writer) && (l.inFlight.Some? ==> l.emptied))
    && (l.emptied ==> l.inFlight.Some?)
  }

  /** The loop sleeps only when there is nothing to send: whatever makes work wakes it. */
  ghost predicate SleepsWithoutWork(l: Loop) {
    !l.writer.wake ==> !AnyWork(l.writer)
  }

  lemma StepKeepsIdle(l: Loop, e: Event, cap: nat, codec: Codec)
    requires Listed(l.writer) && IdleMeansSent(l)
    ensures Listed(LoopStep(l, e, cap, codec).writer) && IdleMeansSent(LoopStep(l, e, cap, codec))
  {
    hide Prepare, Rotate, Before;
    match e
    case Queue(frame) => EnqueueListed(l.writer, frame);
    case Take =>
      if l.inFlight.None? {
        RotateListed(l.writer, |l.writer.order|, cap, codec);
        RotateKeepsFlags(l.writer, |l.writer.order|, cap, codec);
        if !AnyWork(l.writer) {
          TurnServesFirst(l.writer, |l.writer.order|, cap, codec);
          IdleHasNoFrame(l.writer, cap, codec);
        }
      }
    case Reached =>
      if l.inFlight.Some? {
        AdvanceListed(l.writer, l.inFlight.value, cap, codec);
        if !AnyWork(l.writer) { AdvanceMakesNoWork(l.writer, l.inFlight.value, cap, codec); }
        AdvanceKeepsFlags(l.writer, l.inFlight.value, cap, codec);
      }
    case Cancel(id) => DiscardListed(l.writer, id);
    case StopIt =>
    case Empty =>
  }

  lemma AdvanceKeepsFlags(w: Writer, id: nat, cap: nat, codec: Codec)
    ensures Advance(w, id, cap, codec).0.idle == w.idle && Advance(w, id, cap, codec).0.stopped == w.stopped
  {
    hide Prepare, HasWork;
  }

  lemma AdvanceMakesNoWork(w: Writer, id: nat, cap: nat, codec: Codec)
    requires !AnyWork(w)
    ensures var next := Advance(w, id, cap, codec).0;
            !AnyWork(next) && next.idle == w.idle && next.stopped == w.stopped
  {
    hide Prepare, HasWork;
    if id in w.queues {
      NoWorkNoFrame(w.queues[id], cap, codec);
      PrepareOutcome(w.queues[id], cap, codec);
      EmptyHasNoWork();
    }
  }

  lemma IdleHasNoFrame(w: Writer, cap: nat, codec: Codec)
    requires !AnyWork(w)
    ensures forall x :: x in w.queues ==> !HasFrame(w.queues[x], cap, codec)
  {
    forall x | x in w.queues
      ensures !HasFrame(w.queues[x], cap, codec)
    {
      NoWorkNoFrame(w.queues[x], cap, codec);
    }
  }

  lemma StepSleeps(l: Loop, e: Event, cap: nat, codec: Codec)
    requires Listed(l.writer) && SleepsWithoutWork(l)
    ensures SleepsWithoutWork(LoopStep(l, e, cap, codec))
  {
    hide Prepare, Rotate, Before, HasWork;
    EmptyHasNoWork();
    match e
    case Take =>
      if l.inFlight.None? {
        TurnServesFirst(l.writer, |l.writer.order|, cap, codec);
        RotateKeepsFlags(l.writer, |l.writer.order|, cap, codec);
        if !AnyWork(l.writer) { IdleHasNoFrame(l.writer, cap, codec); }
      }
    case Reached =>
      if l.inFlight.Some? { AdvanceSleeps(l.writer, l.inFlight.value, cap, codec); }
    case Cancel(id) => DiscardSleeps(l.writer, id);
    case _ =>
  }

  lemma AdvanceSleeps(w: Writer, id: nat, cap: nat, codec: Codec)
    requires !w.wake ==> !AnyWork(w)
    ensures !Advance(w, id, cap, codec).0.wake ==> !AnyWork(Advance(w, id, cap, codec).0)
  {
    hide Prepare, HasWork;
    EmptyHasNoWork();
  }

  lemma DiscardSleeps(w: Writer, id: nat)
    requires !w.wake ==> !AnyWork(w)
    ensures Discard(w, id).wake == w.wake && (!w.wake ==> !AnyWork(Discard(w, id)))
  {
    EmptyHasNoWork();
  }

  /** In every run of the write loop, idle means sent, and a loop that sleeps has nothing to send. */
  lemma {:induction false} IdleInEveryRun(l: Loop, events: seq<Event>, cap: nat, codec: Codec)
    requires Listed(l.writer) && IdleMeansSent(l) && SleepsWithoutWork(l)
    ensures var end := LoopRun(l, events, cap, codec);
            Listed(end.writer) && IdleMeansSent(end) && SleepsWithoutWork(end)
    decreases |events|
  {
    hide LoopStep, Listed, IdleMeansSent, SleepsWithoutWork;
    if events != [] {
      StepKeepsIdle(l, events[0], cap, codec);
      StepSleeps(l, events[0], cap, codec);
      IdleInEveryRun(LoopStep(l, events[0], cap, codec), events[1..], cap, codec);
    }
  }

  // ------------------------------------------------------------ sent means idle

  /** A turn leaves a running writer idle exactly when it was, or no lane has a frame. */
  lemma IdleIsSetIff(w: Writer, cap: nat, codec: Codec)
    requires Listed(w) && !w.stopped
    ensures NextFrame(w, cap, codec).0.idle <==> w.idle || forall x :: x in w.queues ==>
              !HasFrame(w.queues[x], cap, codec)
    ensures !NextFrame(w, cap, codec).1.Nothing? ==> exists x :: x in w.queues && HasFrame(w.queues[x], cap, codec)
  {
    hide Rotate, HasFrame, AnyWork, Listed, HasWork;
    TurnServesFirst(w, |w.order|, cap, codec);
    RotateKeepsFlags(w, |w.order|, cap, codec);
  }

  predicate NothingQueued(events: seq<Event>) {
    forall i :: 0 <= i < |events| ==> !events[i].Queue?
  }

  /** Stopping or emptying the writer wakes its loop, and then it is idle and stays so while nothing is queued; a
      stopped one never sends again, whatever is. */
  lemma EndedIsIdle(l: Loop, e: Event, events: seq<Event>, cap: nat, codec: Codec)
    requires e.StopIt? || e.Empty?
    ensures LoopStep(l, e, cap, codec).writer.wake
    ensures var end := LoopRun(LoopStep(l, e, cap, codec), events, cap, codec);
            && (NothingQueued(events) ==> end.writer.idle)
            && (e.StopIt? ==> NextFrame(end.writer, cap, codec).1 == Nothing)
  {
    hide LoopRun;
    var ended := LoopStep(l, e, cap, codec);
    if NothingQueued(events) { StaysIdle(ended, events, cap, codec); }
    if e.StopIt? { StaysStopped(ended, events, cap, codec); }
  }

  lemma {:induction false} StaysIdle(l: Loop, events: seq<Event>, cap: nat, codec: Codec)
    requires l.writer.idle && NothingQueued(events)
    ensures LoopRun(l, events, cap, codec).writer.idle
    decreases |events|
  {
    hide LoopStep;
    if events != [] {
      StepKeepsFlags(l, events[0], cap, codec);
      StaysIdle(LoopStep(l, events[0], cap, codec), events[1..], cap, codec);
    }
  }

  lemma {:induction false} StaysStopped(l: Loop, events: seq<Event>, cap: nat, codec: Codec)
    requires l.writer.stopped
    ensures LoopRun(l, events, cap, codec).writer.stopped
    decreases |events|
  {
    hide LoopStep;
    if events != [] {
      StepKeepsFlags(l, events[0], cap, codec);
      StaysStopped(LoopStep(l, events[0], cap, codec), events[1..], cap, codec);
    }
  }

  lemma StepKeepsFlags(l: Loop, e: Event, cap: nat, codec: Codec)
    ensures var w := LoopStep(l, e, cap, codec).writer;
            && (l.writer.stopped ==> w.stopped)
            && (l.writer.idle && !e.Queue? ==> w.idle)
  {
    hide Rotate, Prepare, AnyWork;
    RotateKeepsFlags(l.writer, |l.writer.order|, cap, codec);
  }

  /** How many turns a lane can still take: one for each frame it will hand over, and one for each it may fail on. */
  function Burden(lane: Lane, cap: nat, codec: Codec): nat {
    |Upcoming(lane, cap, codec)| + |lane.waiting| + (if lane.fragments.Some? then 1 else 0)
  }

  function BurdenOn(w: Writer, id: nat, cap: nat, codec: Codec): nat {
    if id in w.queues then Burden(w.queues[id], cap, codec) else 0
  }

  function Load(w: Writer, lanes: seq<nat>, cap: nat, codec: Codec): nat {
    if lanes == [] then 0 else BurdenOn(w, lanes[0], cap, codec) + Load(w, lanes[1..], cap, codec)
  }

  lemma {:induction false} LoadAppend(w: Writer, a: seq<nat>, b: seq<nat>, cap: nat, codec: Codec)
    ensures Load(w, a + b, cap, codec) == Load(w, a, cap, codec) + Load(w, b, cap, codec)
    decreases |a|
  {
    hide BurdenOn;
    if a == [] {
      assert a + b == b;
    } else {
      assert (a + b)[1..] == a[1..] + b;
      LoadAppend(w, a[1..], b, cap, codec);
    }
  }

  lemma {:induction false} LoadWithout(w: Writer, lanes: seq<nat>, id: nat, cap: nat, codec: Codec)
    requires BurdenOn(w, id, cap, codec) == 0
    ensures Load(w, Without(lanes, id), cap, codec) == Load(w, lanes, cap, codec)
    decreases |lanes|
  {
    hide BurdenOn;
    if lanes != [] && lanes[0] != id {
      LoadWithout(w, lanes[1..], id, cap, codec);
      assert Without(lanes, id)[1..] == Without(lanes[1..], id);
    }
  }

  /** Only lane `id` changed. */
  lemma {:induction false} LoadChanges(w: Writer, next: Writer, lanes: seq<nat>, id: nat, cap: nat, codec: Codec)
    requires Distinct(lanes)
    requires forall x :: x != id ==> BurdenOn(next, x, cap, codec) == BurdenOn(w, x, cap, codec)
    ensures id in lanes ==>
              Load(next, lanes, cap, codec) + BurdenOn(w, id, cap, codec)
              == Load(w, lanes, cap, codec) + BurdenOn(next, id, cap, codec)
    ensures id !in lanes ==> Load(next, lanes, cap, codec) == Load(w, lanes, cap, codec)
    decreases |lanes|
  {
    hide BurdenOn;
    if lanes != [] {
      LoadChanges(w, next, lanes[1..], id, cap, codec);
    }
  }

  /** Slicing adds no turn, and an encode that fails takes some away. */
  lemma PrepareLightens(lane: Lane, cap: nat, codec: Codec)
    ensures Prepare(lane, cap, codec).Ready? ==>
              Burden(Prepare(lane, cap, codec).lane, cap, codec) <= Burden(lane, cap, codec)
    ensures Prepare(lane, cap, codec).Raised? ==> 0 < Burden(lane, cap, codec)
    ensures Burden(EMPTY_LANE, cap, codec) == 0
  {
    hide Resume, Drain, SplitAll, Upcoming;
    if Prepare(lane, cap, codec).Ready? { PrepareKeepsUpcoming(lane, cap, codec); }
    EmptyUpcoming(EMPTY_LANE, cap, codec);
  }

  /** What a turn of one lane does to its burden. */
  lemma AskLightens(w: Writer, id: nat, cap: nat, codec: Codec)
    requires id in w.queues
    ensures var (asked, turn) := AskLane(w, id, cap, codec);
            && BurdenOn(asked, id, cap, codec) <= BurdenOn(w, id, cap, codec)
            && (!turn.Nothing? ==> BurdenOn(asked, id, cap, codec) < BurdenOn(w, id, cap, codec))
            && (id !in asked.queues || asked.order == w.order)
  {
    hide Prepare, Upcoming, HasWork, Without;
    var lane := w.queues[id];
    PrepareLightens(lane, cap, codec);
    match Prepare(lane, cap, codec)
    case Raised(_) =>
    case Ready(next) => HandOverUpcoming(next, cap, codec);
  }

  /** Asking one lane leaves the rotation no more than it had, and less when the lane handed over or failed. */
  lemma AskLoad(w: Writer, id: nat, cap: nat, codec: Codec)
    requires Listed(w) && id in w.queues
    ensures var (asked, turn) := AskLane(w, id, cap, codec);
            && Load(asked, asked.order, cap, codec) <= Load(w, w.order, cap, codec)
            && (!turn.Nothing? ==> Load(asked, asked.order, cap, codec) < Load(w, w.order, cap, codec))
  {
    hide AskLane, Load, Burden, Distinct;
    var (asked, turn) := AskLane(w, id, cap, codec);
    AskOutcome(w, id, cap, codec);
    AskLightens(w, id, cap, codec);
    LoadChanges(w, asked, w.order, id, cap, codec);
    if asked.order != w.order {
      LoadWithout(asked, w.order, id, cap, codec);
    }
  }

  lemma {:induction false} RotateLoad(w: Writer, turns: nat, cap: nat, codec: Codec)
    requires Listed(w)
    ensures var (next, turn) := Rotate(w, turns, cap, codec);
            && Load(next, next.order, cap, codec) <= Load(w, w.order, cap, codec)
            && (!turn.Nothing? ==> Load(next, next.order, cap, codec) < Load(w, w.order, cap, codec))
    decreases turns
  {
    hide AskLane, Burden, Listed, Load;
    if turns != 0 && w.order != [] {
      var moved := Rotated(w);
      RotatedListed(w);
      RotatedLoad(w, cap, codec);
      AskListed(moved, w.order[0], cap, codec);
      AskLoad(moved, w.order[0], cap, codec);
      RotateLoad(AskLane(moved, w.order[0], cap, codec).0, turns - 1, cap, codec);
    }
  }

  lemma RotatedLoad(w: Writer, cap: nat, codec: Codec)
    requires w.order != []
    ensures Load(Rotated(w), Rotated(w).order, cap, codec) == Load(w, w.order, cap, codec)
  {
    hide Burden;
    SameLoad(w, Rotated(w), Rotated(w).order, cap, codec);
    LoadAppend(w, w.order[1..], [w.order[0]], cap, codec);
    LoadAppend(w, [w.order[0]], w.order[1..], cap, codec);
    assert [w.order[0]] + w.order[1..] == w.order;
  }

  lemma {:induction false} SameLoad(w: Writer, next: Writer, lanes: seq<nat>, cap: nat, codec: Codec)
    requires next.queues == w.queues
    ensures Load(next, lanes, cap, codec) == Load(w, lanes, cap, codec)
    decreases |lanes|
  {
    hide Burden;
    if lanes != [] {
      SameLoad(w, next, lanes[1..], cap, codec);
    }
  }

  lemma AdvanceLoad(w: Writer, id: nat, cap: nat, codec: Codec)
    requires Listed(w)
    ensures var next := Advance(w, id, cap, codec).0;
            Load(next, next.order, cap, codec) <= Load(w, w.order, cap, codec)
  {
    hide Prepare, Load, Burden, Distinct, HasWork;
    var next := Advance(w, id, cap, codec).0;
    if id in w.queues {
      PrepareLightens(w.queues[id], cap, codec);
      LoadChanges(w, next, w.order, id, cap, codec);
      if next.order != w.order { LoadWithout(next, w.order, id, cap, codec); }
    }
  }

  /** `n` turns of the write loop, each frame reaching the socket. */
  function Turns(n: nat): seq<Event> {
    if n == 0 then [] else [Take, Reached] + Turns(n - 1)
  }

  /** One turn of a loop with nothing in flight: idle, or less to do. */
  lemma TurnSettles(l: Loop, cap: nat, codec: Codec)
    requires Listed(l.writer) && !l.writer.stopped && l.inFlight.None?
    ensures var next := LoopStep(LoopStep(l, Take, cap, codec), Reached, cap, codec);
            && Listed(next.writer) && !next.writer.stopped && next.inFlight.None?
            && (l.writer.idle ==> next.writer.idle)
            && (next.writer.idle
                || Load(next.writer, next.writer.order, cap, codec) < Load(l.writer, l.writer.order, cap, codec))
  {
    hide Listed, Rotate, Advance, AnyWork, Load, HasFrame;
    var w := l.writer;
    RotateListed(w, |w.order|, cap, codec);
    RotateKeepsFlags(w, |w.order|, cap, codec);
    RotateLoad(w, |w.order|, cap, codec);
    IdleIsSetIff(w, cap, codec);
    var (taken, turn) := NextFrame(w, cap, codec);
    NextListed(w, cap, codec);
    AdvanceKeepsFlags(taken, if turn.Sent? then turn.id else 0, cap, codec);
    AdvanceListed(taken, if turn.Sent? then turn.id else 0, cap, codec);
    AdvanceLoad(taken, if turn.Sent? then turn.id else 0, cap, codec);
    if turn.Nothing? { TurnServesAll(w, cap, codec); }
  }

  lemma NextListed(w: Writer, cap: nat, codec: Codec)
    requires Listed(w)
    ensures Listed(NextFrame(w, cap, codec).0)
  {
    hide Rotate, AnyWork;
    RotateListed(w, |w.order|, cap, codec);
  }

  lemma TurnServesAll(w: Writer, cap: nat, codec: Codec)
    requires Listed(w) && !w.stopped && NextFrame(w, cap, codec).1.Nothing?
    ensures NextFrame(w, cap, codec).0.idle
  {
    hide Rotate, HasFrame, AnyWork, HasWork;
    TurnServesFirst(w, |w.order|, cap, codec);
  }

  /** From any state of a running loop with nothing in flight, whatever is queued and whatever of it encodes, the
      writer is idle after enough turns in which nothing is enqueued: one more than the frames it holds allow. */
  lemma {:induction false} IdleIsReached(l: Loop, n: nat, cap: nat, codec: Codec)
    requires Listed(l.writer) && !l.writer.stopped && l.inFlight.None?
    requires l.writer.idle || Load(l.writer, l.writer.order, cap, codec) < n
    ensures LoopRun(l, Turns(n), cap, codec).writer.idle
    decreases n
  {
    hide Listed, LoopStep, Load;
    if n != 0 {
      var taken := LoopStep(l, Take, cap, codec);
      var next := LoopStep(taken, Reached, cap, codec);
      TurnSettles(l, cap, codec);
      assert Turns(n)[0] == Take && Turns(n)[1..] == [Reached] + Turns(n - 1);
      assert ([Reached] + Turns(n - 1))[1..] == Turns(n - 1);
      assert LoopRun(l, Turns(n), cap, codec) == LoopRun(taken, [Reached] + Turns(n - 1), cap, codec)
          == LoopRun(next, Turns(n - 1), cap, codec);
      IdleIsReached(next, n - 1, cap, codec);
    }
  }
}
