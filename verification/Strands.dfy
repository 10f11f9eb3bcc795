/** One stream's part of a peer: its object, its lane, and whether its opening was cut; and what the steps
    of a peer do to each. */
module Strands {
  import opened Frames
  import opened Codecs
  import opened WriterModel
  import opened PeerModel
  import opened Ends
  import opened Conversation
  import opened Halves
  import A = Assembly
  import S = StreamModel
  import W = WriterLaws

  // ------------------------------------------------------------ lanes

  function LaneAt(w: Writer, x: nat): Lane {
    if x in w.queues then w.queues[x] else EMPTY_LANE
  }

  lemma EnqueueAt(w: Writer, f: Frame, x: nat)
    ensures LaneAt(Enqueue(w, f), x)
         == if x == LaneOf(f) then LaneAt(w, x).(waiting := LaneAt(w, x).waiting + [f]) else LaneAt(w, x)
  {
  }

  lemma DiscardAt(w: Writer, id: nat, x: nat)
    ensures LaneAt(Discard(w, id), x) == if x == id then DiscardExceptUnsentOpen(LaneAt(w, x)) else LaneAt(w, x)
  {
    hide Without;
  }

  /** What a turn of the writer did: the lane it served, sliced and its frame taken; on every other lane the
      same frames to come. */
  ghost predicate Turned(w: Writer, next: Writer, turn: Turn, cap: nat, codec: Codec) {
    && (forall x: nat :: turn.Nothing? || x != turn.id ==> Coming(LaneAt(next, x)) == Coming(LaneAt(w, x)))
    && (turn.Sent? ==>
        && Prepare(LaneAt(w, turn.id), cap, codec).Ready?
        && Prepare(LaneAt(w, turn.id), cap, codec).lane.prepared == Some(turn.frame)
        && LaneAt(next, turn.id) == Prepare(LaneAt(w, turn.id), cap, codec).lane.(prepared := None))
    && (turn.Failed? ==> LaneAt(next, turn.id) == EMPTY_LANE)
  }

  lemma NoFrameNothingComing(lane: Lane, cap: nat, codec: Codec)
    requires !W.HasFrame(lane, cap, codec)
    ensures Coming(lane) == []
  {
    if lane.fragments.Some? {
      StopsFinished(lane.fragments.value, cap, codec);
    }
  }

  lemma EmptyHasNothing(cap: nat, codec: Codec)
    ensures !W.HasFrame(EMPTY_LANE, cap, codec) && Coming(EMPTY_LANE) == []
    ensures forall lane :: !HasWork(lane) ==> lane == EMPTY_LANE
  {
  }

  lemma AskTurned(w: Writer, id: nat, cap: nat, codec: Codec)
    requires id in w.queues
    ensures var (asked, turn) := AskLane(w, id, cap, codec);
            && Turned(w, asked, turn, cap, codec)
            && (!turn.Nothing? ==> turn.id == id)
            && (turn.Nothing? ==> LaneAt(asked, id) == EMPTY_LANE)
            && forall x: nat :: x != id ==> LaneAt(asked, x) == LaneAt(w, x)
  {
    hide Prepare, Coming, W.HasFrame, Without, HasWork;
    W.AskOutcome(w, id, cap, codec);
    EmptyHasNothing(cap, codec);
    if !W.HasFrame(w.queues[id], cap, codec) {
      NoFrameNothingComing(w.queues[id], cap, codec);
      W.PrepareOutcome(w.queues[id], cap, codec);
    }
  }

  lemma RotatedTurned(w: Writer, x: nat)
    requires w.order != []
    ensures LaneAt(Rotated(w), x) == LaneAt(w, x)
  {
  }

  lemma {:induction false} RotateTurned(w: Writer, turns: nat, cap: nat, codec: Codec)
    ensures var (next, turn) := Rotate(w, turns, cap, codec);
            Turned(w, next, turn, cap, codec)
    decreases turns
  {
    hide Prepare, Coming, AskLane, Rotated, W.HasFrame, LaneAt;
    if turns != 0 && w.order != [] {
      var id := w.order[0];
      var moved := Rotated(w);
      forall x: nat ensures LaneAt(moved, x) == LaneAt(w, x) { RotatedTurned(w, x); }
      RotatedKeepsLanes(w);
      if id !in moved.queues {
        RotateTurned(moved, turns - 1, cap, codec);
        var (next, turn) := Rotate(moved, turns - 1, cap, codec);
        assert Turned(w, next, turn, cap, codec);
      } else {
        AskTurned(moved, id, cap, codec);
        var (asked, turn) := AskLane(moved, id, cap, codec);
        if turn.Nothing? {
          RotateTurned(asked, turns - 1, cap, codec);
          EmptyIsNotSent(cap, codec);
          var (next, later) := Rotate(asked, turns - 1, cap, codec);
          assert Coming(LaneAt(asked, id)) == Coming(LaneAt(w, id));
          assert Turned(w, next, later, cap, codec);
        } else {
          assert Turned(w, asked, turn, cap, codec);
        }
      }
    }
  }

  lemma EmptyIsNotSent(cap: nat, codec: Codec)
    ensures Prepare(EMPTY_LANE, cap, codec) == Ready(EMPTY_LANE)
  {
  }

  lemma NextFrameTurned(w: Writer, cap: nat, codec: Codec)
    ensures var (next, turn) := NextFrame(w, cap, codec);
            Turned(w, next, turn, cap, codec)
  {
    hide Prepare, Coming, Rotate, AnyWork;
    RotateTurned(w, |w.order|, cap, codec);
  }

  /** Slicing ahead changes the one lane, or fails it. */
  lemma AdvanceTurned(w: Writer, id: nat, cap: nat, codec: Codec)
    ensures var (next, turn) := Advance(w, id, cap, codec);
            && !turn.Sent?
            && (turn.Failed? ==> turn.id == id && LaneAt(next, id) == EMPTY_LANE)
            && (turn.Nothing? ==> Prepare(LaneAt(w, id), cap, codec) == Ready(LaneAt(next, id)))
            && forall x: nat :: x != id ==> LaneAt(next, x) == LaneAt(w, x)
  {
    hide Prepare, Without, HasWork;
    EmptyIsNotSent(cap, codec);
  }

  // ------------------------------------------------------------ cells

  datatype Cell = Cell(stream: Option<S.Stream>, lane: Lane, cut: bool)

  function At(p: Peer, x: nat): Cell {
    Cell(if x in p.objects then Some(p.objects[x]) else None, LaneAt(p.writer, x), x in p.cut)
  }

  /** Everything of a peer but its streams and its writer. */
  predicate SameRest(p: Peer, p': Peer) {
    && p'.dialer == p.dialer && p'.nextId == p.nextId && p'.highLocal == p.highLocal && p'.highRemote == p.highRemote
    && p'.goaway == p.goaway && p'.handler == p.handler && p'.isOpen == p.isOpen && p'.failed == p.failed
  }

  /** Only stream `id` changed, and its cell is `c` now. */
  ghost predicate Became(p: Peer, p': Peer, id: nat, c: Cell) {
    && At(p', id) == c
    && (forall x: nat :: x != id ==> At(p', x) == At(p, x))
    && SameRest(p, p')
  }

  /** Streams other than `id` are as they were, and so is what ties this end's streams to the other's. */
  ghost predicate Touched(p: Peer, p': Peer, id: nat) {
    && (forall x: nat :: x != id ==> At(p', x) == At(p, x))
    && p'.dialer == p.dialer && p'.isOpen == p.isOpen && p'.highRemote == p.highRemote
          && p'.goaway.sentLast == p.goaway.sentLast
  }

  lemma BecameTouched(p: Peer, p': Peer, id: nat, c: Cell)
    requires Became(p, p', id, c)
    ensures Touched(p, p', id) && At(p', id) == c
  {
    hide At;
  }

  function Tail(lane: Lane, f: Frame): Lane {
    lane.(waiting := lane.waiting + [f])
  }

  lemma QueueAt(p: Peer, f: Frame)
    ensures var c := At(p, LaneOf(f));
            Became(p, Queue(p, f), LaneOf(f), c.(lane := Tail(c.lane, f)))
  {
    hide Enqueue, LaneAt;
    forall x: nat ensures LaneAt(Enqueue(p.writer, f), x) == if x == LaneOf(f) then Tail(LaneAt(p.writer, x), f)
        else LaneAt(p.writer, x)
    {
      EnqueueAt(p.writer, f, x);
    }
  }

  lemma DiscardedAt(p: Peer, id: nat)
    ensures var c := At(p, id);
            Became(p, p.(writer := Discard(p.writer, id)), id, c.(lane := DiscardExceptUnsentOpen(c.lane)))
  {
    hide Discard, LaneAt, DiscardExceptUnsentOpen;
    forall x: nat ensures LaneAt(Discard(p.writer, id), x) == if x == id
        then DiscardExceptUnsentOpen(LaneAt(p.writer, x)) else LaneAt(p.writer, x)
    {
      DiscardAt(p.writer, id, x);
    }
  }

  lemma PutAt(p: Peer, id: nat, s: S.Stream)
    ensures Became(p, Put(p, id, s), id, At(p, id).(stream := Some(s)))
  {
    hide LaneAt;
  }

  function Fallen(c: Cell, code: int): Cell
    requires c.stream.Some?
  {
    c.(stream := Some(S.Fail(c.stream.value, code)), cut := c.cut || c.stream.value.opening)
  }

  lemma FailStreamAt(p: Peer, id: nat, code: int)
    requires id in p.objects
    ensures Became(p, FailStream(p, id, code), id, Fallen(At(p, id), code))
  {
    hide LaneAt;
  }

  lemma BecameTrans(p: Peer, q: Peer, r: Peer, id: nat, c: Cell, d: Cell)
    requires Became(p, q, id, c) && Became(q, r, id, d)
    ensures Became(p, r, id, d)
  {
    hide At;
  }

  /** A stream's own queued frames give way to a reset. */
  function Cleared(c: Cell, id: nat, code: int): Cell
    requires c.stream.Some?
  {
    Fallen(c.(lane := Tail(DiscardExceptUnsentOpen(c.lane), ResetWith(id, code, None))), code)
  }

  lemma QueueResetAt(p: Peer, id: nat, code: int)
    ensures var c := At(p, id);
            && Became(p, QueueReset(p, id, code), id, c.(lane := Tail(c.lane, ResetWith(id, code, None))))
            && Became(p, EnqueueReset(p, id, code), id,
                      c.(lane := Tail(DiscardExceptUnsentOpen(c.lane), ResetWith(id, code, None))))
  {
    hide Became, At, Enqueue, Discard, DiscardExceptUnsentOpen;
    var q := p.(writer := Discard(p.writer, id));
    QueueAt(p, ResetWith(id, code, None));
    DiscardedAt(p, id);
    QueueAt(q, ResetWith(id, code, None));
    BecameCell(p, q, id, At(p, id).(lane := DiscardExceptUnsentOpen(At(p, id).lane)));
    BecameTrans(p, q, EnqueueReset(p, id, code), id, At(q, id),
                At(q, id).(lane := Tail(At(q, id).lane, ResetWith(id, code, None))));
  }

  lemma BecameCell(p: Peer, q: Peer, id: nat, c: Cell)
    requires Became(p, q, id, c)
    ensures At(q, id) == c
  {
    hide At;
  }

  lemma ResetStreamAt(p: Peer, id: nat, code: int)
    requires id in p.objects
    ensures Became(p, ResetStream(p, id, code), id, Cleared(At(p, id), id, code))
  {
    hide Became, EnqueueReset, FailStream, DiscardExceptUnsentOpen, LaneAt;
    QueueResetAt(p, id, code);
    var q := EnqueueReset(p, id, code);
    BecameCell(p, q, id, At(p, id).(lane := Tail(DiscardExceptUnsentOpen(At(p, id).lane), ResetWith(id, code, None))));
    FailStreamAt(q, id, code);
    BecameTrans(p, q, ResetStream(p, id, code), id, At(q, id), Fallen(At(q, id), code));
  }

  // ------------------------------------------------------------ halves

  function ValuesOf(s: S.Stream): seq<Value> {
    (if !s.local && s.payload.Some? then [s.payload.value] else []) + S.Accepted(s.queue)
  }

  /** The leading headers of the other side, and of this one. */
  function HeadersGot(s: S.Stream): Option<Fields> {
    if s.local then s.replyHeaders else s.headers
  }

  function HeadersGiven(s: S.Stream): Option<Fields> {
    if s.local then s.headers else s.replyHeaders
  }

  function HeardOf(s: S.Stream): View {
    View(s.partial, s.opening, s.state == S.HalfClosedRemote || s.state == S.Closed, ValuesOf(s), s.receivedAFrame,
         HeadersGot(s), s.trailers)
  }

  function SaidOf(s: S.Stream, said: Words): View {
    View(A.NOTHING, false, said.ended, said.values, s.sentAFrame, HeadersGiven(s), said.trailers)
  }

  /** `met`: a frame of the stream was read. */
  function HalfOf(c: Cell, said: Words, met: bool): Half {
    match c.stream
    case Some(s) => if s.cause.ByReset? then Dead(ValuesOf(s), said.values, c.cut)
        else Alive(HeardOf(s), SaidOf(s, said))
    case None => if met then Dead([], [], c.cut) else Unborn
  }

  /** A stream that fails is dead, and keeps what it had. */
  lemma FallenHalf(c: Cell, code: int, said: Words, met: bool)
    requires c.stream.Some? && c.stream.value.state != S.Closed && c.stream.value.cause.NotEnded?
    ensures var h, h' := HalfOf(c, said, met), HalfOf(Fallen(c, code), said, met);
            && h.Alive? && h.heard.opening == c.stream.value.opening
            && h' == Dead(Heard(h), said.values, c.cut || c.stream.value.opening)
  {
    S.AcceptedSnoc(c.stream.value.queue, S.Failure(code));
  }
}
