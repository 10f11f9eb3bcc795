/** The send path as the objects it is made of: a queue per lane, and the writer that rotates over them.
    Every method is proved to do what the functions of WriterModel say. */
module WriterObjects {
  import opened Frames
  import opened Codecs
  import opened Fragmenter
  import opened WriterModel
  import W = WriterLaws

  /** A lane as an object: `Model()` is what it still has to send. */
  class StreamQueue {
    const streamId: nat
    var waiting: seq<Frame>
    var prepared: Option<Frame>
    var fragments: Option<Generator>
    var failedUnsentOpen: bool

    function Model(): Lane
      reads this
    {
      Lane(waiting, prepared, fragments)
    }

    constructor (id: nat)
      ensures streamId == id && Model() == EMPTY_LANE
    {
      streamId := id;
      waiting := [];
      prepared := None;
      fragments := None;
      failedUnsentOpen := false;
    }

    predicate Busy()
      reads this
    {
      prepared.Some? || waiting != [] || fragments.Some?
    }

    method Put(frame: Frame)
      modifies this
      ensures Model() == old(Model()).(waiting := old(waiting) + [frame])
    {
      waiting := waiting + [frame];
    }

    /** At most one frame is in hand afterwards; `raised` leaves the lane to be discarded. */
    method Prepare(cap: nat, codec: Codec) returns (raised: bool)
      modifies this
      ensures match WriterModel.Prepare(old(Model()), cap, codec)
              case Ready(lane) => !raised && Model() == lane
              case Raised(unsentOpen) => raised && failedUnsentOpen == unsentOpen
    {
      failedUnsentOpen := false;
      if prepared.Some? {
        return false;
      }
      if fragments.Some? {
        match Resume(fragments.value, cap, codec) {
          case Raise(_) =>
            return true;
          case Yield(frame, rest) =>
            prepared, fragments := Some(frame), Some(rest);
            return false;
          case Stop =>
            fragments := None;
        }
      }
      if waiting == [] {
        return false;
      }
      var frame := waiting[0];
      waiting := waiting[1..];
      var generator: Generator := Start(frame);
      fragments := Some(generator);
      match Resume(generator, cap, codec) {
        case Raise(_) =>
          failedUnsentOpen := frame.kind == OpenFrame;
          return true;
        case Yield(first, rest) =>
          prepared, fragments := Some(first), Some(rest);
        case Stop =>
      }
      return false;
    }

    /** The lane keeps everything but the frame in hand. */
    method Take() returns (frame: Option<Frame>)
      modifies this
      ensures frame == old(prepared) && Model() == old(Model()).(prepared := None)
    {
      frame := prepared;
      prepared := None;
    }

    method Discard()
      modifies this
      ensures Model() == EMPTY_LANE
    {
      waiting := [];
      prepared := None;
      fragments := None;
    }

    /** What is left is empty or one `open`, which the remote needs before it hears of the stream's end. */
    method DiscardExceptUnsentOpen()
      modifies this
      ensures Model() == WriterModel.DiscardExceptUnsentOpen(old(Model()))
    {
      var unsentOpen: Option<Frame> := None;
      if prepared.None? && fragments.None? && waiting != [] && waiting[0].kind == OpenFrame {
        unsentOpen := Some(waiting[0]);
        waiting := waiting[1..];
      }
      Discard();
      if unsentOpen.Some? {
        waiting := waiting + [unsentOpen.value];
      }
    }
  }

  /** The lanes' objects and their rotation; one turn is `NextFrame`. */
  class Writer {
    const cap: nat
    const codec: Codec
    var queues: map<nat, StreamQueue>
    var order: seq<nat>
    var wake: bool
    var idle: bool
    var stopped: bool

    /** Each lane has a queue of its own. */
    ghost predicate Valid()
      reads this`queues
    {
      forall x, y :: x in queues && y in queues && x != y ==> queues[x] != queues[y]
    }

    function Lanes(): map<nat, Lane>
      reads this`queues, queues.Values
    {
      map x | x in queues :: queues[x].Model()
    }

    function Model(): WriterModel.Writer
      reads this, queues.Values
    {
      WriterModel.Writer(Lanes(), order, idle, wake, stopped)
    }

    constructor (cap: nat, codec: Codec)
      ensures Valid() && Model() == NEW_WRITER && this.cap == cap && this.codec == codec
    {
      this.cap, this.codec := cap, codec;
      queues, order := map[], [];
      wake, idle, stopped := false, true, false;
    }

    /** Afterwards the lane can be written to; the others keep their objects and their places. */
    method EnsureLane(lane: nat)
      requires Valid()
      modifies this`queues, this`order
      ensures Valid() && lane in queues && fresh(queues.Values - old(queues.Values))
      ensures Lanes() == if lane in old(queues) then old(Lanes()) else old(Lanes())[lane := EMPTY_LANE]
      ensures order == if lane in old(queues) then old(order) else old(order) + [lane]
    {
      if lane !in queues {
        var queue := new StreamQueue(lane);
        queues := queues[lane := queue];
        order := order + [lane];
        assert Lanes() == old(Lanes())[lane := EMPTY_LANE];
        assert queues.Values <= old(queues.Values) + {queue};
      }
    }

    /** One step, behind everything its lane holds: frames enqueued as their ids are allocated keep that order. */
    method Enqueue(frame: Frame)
      requires Valid()
      modifies this, queues.Values
      ensures Valid() && fresh(queues.Values - old(queues.Values))
      ensures Model() == WriterModel.Enqueue(old(Model()), frame)
    {
      hide WriterModel.Enqueue;
      var lane := if frame.stream.Some? then frame.stream.value else CONNECTION_LANE;
      EnsureLane(lane);
      ghost var was := Lanes();
      PutOn(lane, frame);
      NoteWork();
      EnqueueIs(old(Model()), frame, was, order);
    }

    method NoteWork()
      modifies this`idle, this`wake
      ensures Model() == WriterModel.Writer(old(Lanes()), order, false, true, stopped)
    {
      idle := false;
      wake := true;
    }

    method PutOn(lane: nat, frame: Frame)
      requires Valid() && lane in queues
      modifies queues[lane]
      ensures Lanes() == old(Lanes())[lane := old(Lanes())[lane].(waiting := old(Lanes())[lane].waiting + [frame])]
    {
      queues[lane].Put(frame);
    }

    static lemma EnqueueIs(w: WriterModel.Writer, frame: Frame, was: map<nat, Lane>, order: seq<nat>)
      requires var lane := LaneOf(frame);
               && was == (if lane in w.queues then w.queues else w.queues[lane := EMPTY_LANE])
               && order == (if lane in w.queues then w.order else w.order + [lane])
      ensures var lane := LaneOf(frame);
              WriterModel.Enqueue(w, frame)
              == WriterModel.Writer(was[lane := was[lane].(waiting := was[lane].waiting + [frame])], order, false,
                                    true, w.stopped)
    {
      var lane := LaneOf(frame);
      assert WriterModel.Enqueue(w, frame).queues == was[lane := was[lane].(waiting := was[lane].waiting + [frame])];
    }

    /** The lane leaves the map and its first place in the rotation, unless it is the connection's. */
    method Retire(lane: nat)
      requires Valid()
      modifies this
      ensures Valid() && queues.Values <= old(queues.Values)
      ensures Model() == WriterModel.Retire(old(Model()), lane)
    {
      if lane == CONNECTION_LANE {
        return;
      }
      queues := queues - {lane};
      ghost var now := Lanes();
      assert now == old(Lanes()) - {lane};
      var i := FindLane(lane);
      if i < |order| {
        order := order[..i] + order[i + 1..];
      }
      assert Model() == WriterModel.Writer(now, order, idle, wake, stopped);
    }

    /** Where the rotation lists a lane; the length of the rotation when it does not. */
    method FindLane(lane: nat) returns (i: nat)
      ensures i <= |order| && lane !in order[..i] && (i < |order| ==> order[i] == lane)
      ensures Without(order, lane) == if i < |order| then order[..i] + order[i + 1..] else order
    {
      i := 0;
      while i < |order| && order[i] != lane
        invariant 0 <= i <= |order| && lane !in order[..i]
      {
        i := i + 1;
      }
      WithoutAt(order, i, lane);
    }

    static lemma {:induction false} WithoutAt(order: seq<nat>, i: nat, lane: nat)
      requires i <= |order| && lane !in order[..i] && (i < |order| ==> order[i] == lane)
      ensures Without(order, lane) == if i < |order| then order[..i] + order[i + 1..] else order
    {
      if i > 0 {
        assert order[0] in order[..i];
        assert order[..i] == [order[0]] + order[1..][..i - 1];
        WithoutAt(order[1..], i - 1, lane);
      }
    }

    /** Slice a lane's next fragment; an exception empties the lane and retires it. */
    method PrepareLane(lane: nat) returns (failed: Option<bool>)
      requires Valid() && lane in queues
      modifies this, queues.Values
      ensures Valid() && queues.Values <= old(queues.Values)
      ensures match WriterModel.Prepare(old(Model()).queues[lane], cap, codec)
              case Ready(ready) =>
                && failed == None
                && queues == old(queues)
                && Model() == old(Model()).(queues := old(Model()).queues[lane := ready])
              case Raised(unsentOpen) =>
                failed == Some(unsentOpen) && Model() == Fail(old(Model()), lane)
    {
      hide WriterModel.Prepare;
      var queue := queues[lane];
      assert forall x :: x in queues && x != lane ==> queues[x] != queue;
      var raised := queue.Prepare(cap, codec);
      if raised {
        failed := Some(queue.failedUnsentOpen);
        queue.Discard();
        assert Lanes() == old(Lanes())[lane := EMPTY_LANE];
        Retire(lane);
      } else {
        failed := None;
        assert Lanes() == old(Lanes())[lane := queue.Model()];
      }
    }

    /** Ask one lane, which has just moved to the back. */
    method Ask(lane: nat) returns (turn: Turn)
      requires Valid() && lane in queues
      modifies this, queues.Values
      ensures Valid() && queues.Values <= old(queues.Values)
      ensures (Model(), turn) == AskLane(old(Model()), lane, cap, codec)
      ensures |old(order)| - 1 <= |order|
    {
      hide WriterModel.Prepare;
      var queue := queues[lane];
      var failed := PrepareLane(lane);
      if failed.Some? {
        RetireShortens(old(Model()).(queues := old(Lanes())[lane := EMPTY_LANE]), lane);
        return Failed(lane, failed.value);
      }
      HandedOverIs(old(Model()), lane, queue.Model(), cap, codec);
      turn := HandOver(lane);
    }

    /** A lane that has just been sliced hands over its frame, or is retired when it has no work left. */
    method HandOver(lane: nat) returns (turn: Turn)
      requires Valid() && lane in queues
      modifies this, queues[lane]
      ensures Valid() && queues.Values <= old(queues.Values)
      ensures (Model(), turn) == HandedOver(old(Model()), lane)
      ensures |old(order)| - 1 <= |order|
    {
      ghost var ready := Model();
      var queue := queues[lane];
      var frame := TakeFrom(lane);
      if frame.Some? {
        return Sent(lane, frame.value);
      }
      assert Lanes() == ready.queues && Model() == ready;
      if !queue.Busy() {
        RetireShortens(Model(), lane);
        Retire(lane);
      }
      turn := Nothing;
    }

    static function HandedOver(w: WriterModel.Writer, id: nat): (WriterModel.Writer, Turn)
      requires id in w.queues
    {
      var lane := w.queues[id];
      if lane.prepared.Some? then (w.(queues := w.queues[id := lane.(prepared := None)]), Sent(id, lane.prepared.value))
      else if HasWork(lane) then (w, Nothing)
      else (WriterModel.Retire(w, id), Nothing)
    }

    static lemma HandedOverIs(w: WriterModel.Writer, id: nat, lane: Lane, cap: nat, codec: Codec)
      requires id in w.queues && WriterModel.Prepare(w.queues[id], cap, codec) == Ready(lane)
      ensures HandedOver(w.(queues := w.queues[id := lane]), id) == AskLane(w, id, cap, codec)
    {
      hide WriterModel.Prepare, WriterModel.Retire;
      assert w.queues[id := lane][id := lane.(prepared := None)] == w.queues[id := lane.(prepared := None)];
    }

    method TakeFrom(lane: nat) returns (frame: Option<Frame>)
      requires Valid() && lane in queues
      modifies queues[lane]
      ensures frame == old(Lanes())[lane].prepared
      ensures Lanes() == old(Lanes())[lane := old(Lanes())[lane].(prepared := None)]
    {
      frame := queues[lane].Take();
    }

    static lemma RetireShortens(w: WriterModel.Writer, lane: nat)
      ensures |w.order| - 1 <= |WriterModel.Retire(w, lane).order|
    {
      WithoutShortens(w.order, lane);
    }

    static lemma {:induction false} WithoutShortens(order: seq<nat>, lane: nat)
      ensures |order| - 1 <= |Without(order, lane)|
    {
      if order != [] && order[0] != lane {
        WithoutShortens(order[1..], lane);
      }
    }

    static ghost function FullTurn(w: WriterModel.Writer, cap: nat, codec: Codec): (WriterModel.Writer, Turn,
        seq<nat>) {
      var (after, turn) := Rotate(w, |w.order|, cap, codec);
      (after, turn, W.Asked(w, |w.order|, cap, codec))
    }

    /** A turn, and the lanes it asked: none twice, while the rotation lists the lanes. */
    method RotateTurn() returns (turn: Turn, ghost asked: seq<nat>)
      requires Valid()
      modifies this, queues.Values
      ensures Valid() && queues.Values <= old(queues.Values)
      ensures (Model(), turn, asked) == FullTurn(old(Model()), cap, codec)
      ensures Listed(old(Model())) ==> Distinct(asked)
    {
      hide Model, FirstAsked, Listed, Distinct, Rotate, W.Asked;
      Fields();
      var turns: nat := |order|;
      ghost var start, all := Model(), |order|;
      asked := [];
      if Listed(start) { W.AskedAtMostOnce(start, all, cap, codec); }
      while turns > 0
        invariant turns <= |order| && Valid() && queues.Values <= old(queues.Values)
        invariant Rotate(Model(), turns, cap, codec) == Rotate(start, all, cap, codec)
        invariant asked + W.Asked(Model(), turns, cap, codec) == W.Asked(start, all, cap, codec)
      {
        Fields();
        OneAsked(Model(), turns, cap, codec);
        asked := asked + if order[0] in queues then [order[0]] else [];
        turns := turns - 1;
        turn := AskFirst();
        if !turn.Nothing? {
          assert asked == W.Asked(start, all, cap, codec);
          return;
        }
      }
      turn := Nothing;
      NoneAsked(Model(), cap, codec);
      assert asked == W.Asked(start, all, cap, codec);
    }

    /** The first lane goes to the back, and is asked if it has a queue. */
    static ghost function FirstAsked(w: WriterModel.Writer, cap: nat, codec: Codec): (WriterModel.Writer, Turn)
      requires w.order != []
    {
      if w.order[0] in w.queues then AskLane(Rotated(w), w.order[0], cap, codec) else (Rotated(w), Nothing)
    }

    method AskFirst() returns (turn: Turn)
      requires Valid() && order != []
      modifies this, queues.Values
      ensures Valid() && queues.Values <= old(queues.Values) && |old(order)| - 1 <= |order|
      ensures (Model(), turn) == FirstAsked(old(Model()), cap, codec)
    {
      hide AskLane;
      var lane := order[0];
      ToTheBack();
      if lane !in queues {
        return Nothing;
      }
      turn := Ask(lane);
    }

    lemma Fields()
      ensures Model().order == order && Model().queues.Keys == queues.Keys
    {
    }

    static lemma NoneAsked(w: WriterModel.Writer, cap: nat, codec: Codec)
      ensures Rotate(w, 0, cap, codec) == (w, Nothing) && W.Asked(w, 0, cap, codec) == []
    {
    }

    static lemma OneAsked(w: WriterModel.Writer, turns: nat, cap: nat, codec: Codec)
      requires 0 < turns && w.order != []
      ensures var (after, turn) := FirstAsked(w, cap, codec);
              && Rotate(w, turns, cap, codec)
                    == (if turn.Nothing? then Rotate(after, turns - 1, cap, codec) else (after, turn))
              && W.Asked(w, turns, cap, codec)
                 == (if w.order[0] in w.queues then [w.order[0]] else [])
                    + (if turn.Nothing? then W.Asked(after, turns - 1, cap, codec) else [])
    {
      hide AskLane;
    }

    method ToTheBack()
      requires Valid() && order != []
      modifies this`order
      ensures Model() == Rotated(old(Model())) && |order| == |old(order)|
    {
      order := order[1..] + [order[0]];
    }

    /** One pass of the loop of `next_frame`: `Nothing` is where the source waits to be woken. */
    method NextFrame() returns (turn: Turn)
      requires Valid()
      modifies this, queues.Values
      ensures Valid() && queues.Values <= old(queues.Values)
      ensures (Model(), turn) == WriterModel.NextFrame(old(Model()), cap, codec)
    {
      hide Rotate, HasWork;
      if stopped {
        return Nothing;
      }
      ghost var asked: seq<nat>;
      turn, asked := RotateTurn();
      if !turn.Nothing? {
        return turn;
      }
      Settle();
    }

    /** A full turn found no frame: `wake` is cleared, and `idle` set when nothing is left. */
    method Settle()
      requires Valid()
      modifies this`wake, this`idle
      ensures Valid()
      ensures Model() == old(Model()).(wake := false, idle := old(idle) || !AnyWork(old(Model())))
    {
      wake := false;
      var busy := AnyBusy();
      if !busy {
        idle := true;
      }
      assert Lanes() == old(Lanes());
    }

    method AnyBusy() returns (busy: bool)
      requires Valid()
      ensures busy == AnyWork(Model())
    {
      busy := false;
      var left := queues.Keys;
      while left != {}
        invariant left <= queues.Keys
        invariant busy <==> exists x :: x in queues && x !in left && HasWork(queues[x].Model())
        decreases |left|
      {
        var x :| x in left;
        left := left - {x};
        if queues[x].Busy() {
          busy := true;
        }
      }
      assert forall x :: x in Model().queues ==> Model().queues[x] == queues[x].Model();
    }

    /** A lane has its next frame in hand before its turn comes; what it will send is unchanged. */
    method Advance(lane: nat) returns (turn: Turn)
      requires Valid()
      modifies this, queues.Values
      ensures Valid() && queues.Values <= old(queues.Values)
      ensures (Model(), turn) == WriterModel.Advance(old(Model()), lane, cap, codec)
    {
      hide WriterModel.Prepare;
      if lane !in queues {
        return Nothing;
      }
      var queue := queues[lane];
      var failed := PrepareLane(lane);
      if failed.Some? {
        return Failed(lane, failed.value);
      }
      ghost var ready := Model();
      if queue.Busy() {
        wake := true;
      }
      assert Lanes() == ready.queues;
      turn := Nothing;
    }

    /** The other lanes are untouched; this one keeps at most its `open`. */
    method Discard(lane: nat)
      requires Valid()
      modifies this, queues.Values
      ensures Valid() && queues.Values <= old(queues.Values)
      ensures Model() == WriterModel.Discard(old(Model()), lane)
    {
      hide Without;
      if lane !in queues {
        return;
      }
      var queue := queues[lane];
      DiscardOn(lane);
      if !queue.Busy() {
        Retire(lane);
      }
    }

    method DiscardOn(lane: nat)
      requires Valid() && lane in queues
      modifies queues[lane]
      ensures Lanes() == old(Lanes())[lane := WriterModel.DiscardExceptUnsentOpen(old(Lanes())[lane])]
    {
      queues[lane].DiscardExceptUnsentOpen();
    }

    method Stop()
      modifies this`stopped, this`idle, this`wake
      ensures Model() == StopWriter(old(Model()))
    {
      stopped := true;
      idle := true;
      wake := true;
    }

    /** Every queue object is dropped, and whoever waits for the writer is woken. */
    method DiscardAll()
      requires Valid()
      modifies this
      ensures Valid() && queues == map[]
      ensures Model() == WriterModel.DiscardAll(old(Model()))
    {
      queues := map[];
      order := [];
      idle := true;
      wake := true;
    }
  }
}
