/** The send path as values: one lane per stream, at most one prepared fragment per lane, and a
    rotation over the lanes.  The objects in WriterObjects.dfy are proved against these functions. */
module WriterModel {
  import opened Frames
  import opened Codecs
  import opened Fragmenter

  /** Where every frame without a stream waits. */
  const CONNECTION_LANE: nat := 0

  // ------------------------------------------------------------ one lane

  datatype Lane = Lane(waiting: seq<Frame>, prepared: Option<Frame>, fragments: Option<Generator>)

  const EMPTY_LANE := Lane([], None, None)

  predicate HasWork(lane: Lane) {
    lane.prepared.Some? || lane.waiting != [] || lane.fragments.Some?
  }

  datatype Prepared = Ready(lane: Lane) | Raised(unsentOpen: bool)

  /** `Ready` holds at most one frame more in hand than before, and what the lane will send is the same. */
  function Prepare(lane: Lane, cap: nat, codec: Codec): Prepared {
    if lane.prepared.Some? then Ready(lane)
    else if lane.fragments.None? then PrepareNext(lane, cap, codec)
    else
      match Resume(lane.fragments.value, cap, codec)
      case Raise(_) => Raised(false)
      case Yield(frame, rest) => Ready(lane.(prepared := Some(frame), fragments := Some(rest)))
      case Stop => PrepareNext(lane.(fragments := None), cap, codec)
  }

  /** Start slicing the first waiting frame. */
  function PrepareNext(lane: Lane, cap: nat, codec: Codec): Prepared {
    if lane.waiting == [] then Ready(lane)
    else
      var g: Generator := Start(lane.waiting[0]);
      match Resume(g, cap, codec)
      case Raise(_) => Raised(lane.waiting[0].kind == OpenFrame)
      case Yield(frame, rest) => Ready(Lane(lane.waiting[1..], Some(frame), Some(rest)))
      case Stop => Ready(Lane(lane.waiting[1..], None, Some(g)))
  }

  /** The remote has seen nothing of this lane's stream, and its `open` is the next to go. */
  predicate HoldsUnsentOpen(lane: Lane) {
    lane.prepared.None? && lane.fragments.None? && lane.waiting != [] && lane.waiting[0].kind == OpenFrame
  }

  function DiscardExceptUnsentOpen(lane: Lane): Lane {
    if HoldsUnsentOpen(lane) then Lane([lane.waiting[0]], None, None) else EMPTY_LANE
  }

  // ------------------------------------------------------------ the writer

  datatype Writer = Writer(queues: map<nat, Lane>, order: seq<nat>, idle: bool, wake: bool, stopped: bool)

  const NEW_WRITER := Writer(map[], [], true, false, false)

  function LaneOf(frame: Frame): nat {
    if frame.stream.Some? then frame.stream.value else CONNECTION_LANE
  }

  function Enqueue(w: Writer, frame: Frame): Writer {
    var id := LaneOf(frame);
    var lane := if id in w.queues then w.queues[id] else EMPTY_LANE;
    var order := if id in w.queues then w.order else w.order + [id];
    w.(queues := w.queues[id := lane.(waiting := lane.waiting + [frame])], order := order, idle := false, wake := true)
  }

  /** The first occurrence of `id` is removed. */
  function Without(order: seq<nat>, id: nat): (rest: seq<nat>) {
    if order == [] then []
    else if order[0] == id then order[1..]
    else [order[0]] + Without(order[1..], id)
  }

  /** Out of the map and of the rotation; nothing happens to the connection's lane. */
  function Retire(w: Writer, id: nat): Writer {
    if id == CONNECTION_LANE then w else w.(queues := w.queues - {id}, order := Without(w.order, id))
  }

  /** None of the lane's frames will go out, prepared or not. */
  function Fail(w: Writer, id: nat): Writer {
    Retire(w.(queues := w.queues[id := EMPTY_LANE]), id)
  }

  datatype Turn = Nothing | Sent(id: nat, frame: Frame) | Failed(id: nat, unsentOpen: bool)

  /** Ask one lane; `Nothing` when it has no frame to hand over. */
  function AskLane(w: Writer, id: nat, cap: nat, codec: Codec): (Writer, Turn)
    requires id in w.queues
  {
    match Prepare(w.queues[id], cap, codec)
    case Raised(unsentOpen) => (Fail(w, id), Failed(id, unsentOpen))
    case Ready(lane) =>
      if lane.prepared.Some? then (w.(queues := w.queues[id := lane.(prepared := None)]), Sent(id, lane.prepared.value))
      else if HasWork(lane) then (w.(queues := w.queues[id := lane]), Nothing)
      else (Retire(w.(queues := w.queues[id := lane]), id), Nothing)
  }

  /** One place on in the rotation; no lane enters or leaves it. */
  function Rotated(w: Writer): Writer
    requires w.order != []
  {
    w.(order := w.order[1..] + [w.order[0]])
  }

  /** At most `turns` lanes are asked, until one hands over a frame or fails. */
  function Rotate(w: Writer, turns: nat, cap: nat, codec: Codec): (Writer, Turn)
    decreases turns
  {
    if turns == 0 || w.order == [] then (w, Nothing)
    else
      var id := w.order[0];
      var moved := Rotated(w);
      if id !in w.queues then Rotate(moved, turns - 1, cap, codec)
      else
        var (asked, turn) := AskLane(moved, id, cap, codec);
        if turn.Nothing? then Rotate(asked, turns - 1, cap, codec) else (asked, turn)
  }

  predicate AnyWork(w: Writer) {
    exists id :: id in w.queues && HasWork(w.queues[id])
  }

  /** One pass of the loop of `next_frame`. */
  function NextFrame(w: Writer, cap: nat, codec: Codec): (Writer, Turn) {
    if w.stopped then (w, Nothing)
    else
      var (rotated, turn) := Rotate(w, |w.order|, cap, codec);
      if !turn.Nothing? then (rotated, turn)
      else (rotated.(wake := false, idle := rotated.idle || !AnyWork(rotated)), Nothing)
  }

  /** A lane has its next frame in hand before its turn comes; `Failed` when it has none that fits or encodes. */
  function Advance(w: Writer, id: nat, cap: nat, codec: Codec): (Writer, Turn) {
    if id !in w.queues then (w, Nothing)
    else
      match Prepare(w.queues[id], cap, codec)
      case Raised(unsentOpen) => (Fail(w, id), Failed(id, unsentOpen))
      case Ready(lane) => (w.(queues := w.queues[id := lane], wake := w.wake || HasWork(lane)), Nothing)
  }

  /** The other lanes are untouched; this one keeps at most its `open`. */
  function Discard(w: Writer, id: nat): Writer {
    if id !in w.queues then w
    else
      var lane := DiscardExceptUnsentOpen(w.queues[id]);
      var kept := w.(queues := w.queues[id := lane]);
      if HasWork(lane) then kept else Retire(kept, id)
  }

  function StopWriter(w: Writer): Writer {
    w.(stopped := true, idle := true, wake := true)
  }

  function DiscardAll(w: Writer): Writer {
    w.(queues := map[], order := [], idle := true, wake := true)
  }

  // ------------------------------------------------------------ the rotation lists the lanes

  ghost predicate Distinct(order: seq<nat>) {
    forall i, j :: 0 <= i < j < |order| ==> order[i] != order[j]
  }

  /** The rotation is a duplicate-free listing of the lanes. */
  ghost predicate Listed(w: Writer) {
    && Distinct(w.order)
    && (forall id :: id in w.queues <==> id in w.order)
  }

  lemma {:induction false} WithoutDistinct(order: seq<nat>, id: nat)
    requires Distinct(order)
    ensures Distinct(Without(order, id))
    ensures forall x :: x in Without(order, id) <==> x in order && x != id
  {
    if order != [] {
      var tail := order[1..];
      WithoutDistinct(tail, id);
      assert forall x :: x in order <==> x == order[0] || x in tail;
      assert forall k :: 0 <= k < |tail| ==> tail[k] == order[k + 1] && tail[k] != order[0];
      if order[0] != id {
        var rest := Without(tail, id);
        var all := [order[0]] + rest;
        assert order[0] !in rest;
        assert forall k :: 0 < k < |all| ==> all[k] == rest[k - 1] && all[k] in rest;
      }
    }
  }

  lemma RotatedListed(w: Writer)
    requires Listed(w) && w.order != []
    ensures Listed(Rotated(w))
  {
    var order := Rotated(w).order;
    assert forall x :: x in w.order <==> x == w.order[0] || x in w.order[1..];
    assert forall x :: x in order <==> x in w.order;
  }

  lemma RetireListed(w: Writer, id: nat)
    requires Listed(w)
    ensures Listed(Retire(w, id))
  {
    WithoutDistinct(w.order, id);
  }

  lemma AskListed(w: Writer, id: nat, cap: nat, codec: Codec)
    requires Listed(w) && id in w.queues
    ensures Listed(AskLane(w, id, cap, codec).0)
  {
    hide Prepare, HasWork;
    RetireListed(w.(queues := w.queues[id := EMPTY_LANE]), id);
    match Prepare(w.queues[id], cap, codec)
    case Raised(_) =>
    case Ready(lane) => RetireListed(w.(queues := w.queues[id := lane]), id);
  }

  lemma {:induction false} RotateListed(w: Writer, turns: nat, cap: nat, codec: Codec)
    requires Listed(w)
    ensures Listed(Rotate(w, turns, cap, codec).0)
    decreases turns
  {
    hide Prepare, HasWork, Rotated, AskLane;
    if turns != 0 && w.order != [] {
      var moved := Rotated(w);
      RotatedListed(w);
      RotatedKeepsLanes(w);
      AskListed(moved, w.order[0], cap, codec);
      RotateListed(AskLane(moved, w.order[0], cap, codec).0, turns - 1, cap, codec);
    }
  }

  lemma RotatedKeepsLanes(w: Writer)
    requires w.order != []
    ensures Rotated(w).queues == w.queues
  {
  }

  lemma EnqueueListed(w: Writer, frame: Frame)
    requires Listed(w)
    ensures Listed(Enqueue(w, frame))
  {
  }

  lemma DiscardListed(w: Writer, id: nat)
    requires Listed(w)
    ensures Listed(Discard(w, id))
  {
    if id in w.queues {
      RetireListed(w.(queues := w.queues[id := DiscardExceptUnsentOpen(w.queues[id])]), id);
    }
  }

  lemma AdvanceListed(w: Writer, id: nat, cap: nat, codec: Codec)
    requires Listed(w)
    ensures Listed(Advance(w, id, cap, codec).0)
  {
    hide Prepare;
    if id in w.queues {
      RetireListed(w.(queues := w.queues[id := EMPTY_LANE]), id);
    }
  }
}
