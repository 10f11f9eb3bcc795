/** A law about frames that every frame queued obeys is obeyed by every frame handed over, when splitting
    keeps it. */
module WriterFrames {
  import opened Frames
  import opened Codecs
  import opened Fragmenter
  import opened WriterModel
  import L = SplitLaws

  /** What may be on a lane. */
  type Law = (nat, Frame) -> bool

  ghost predicate PiecesObey(law: Law, x: nat, source: Frame) {
    forall chunk, first, last {:trigger FragmentFrame(source, chunk, first, last)} ::
        law(x, FragmentFrame(source, chunk, first, last))
  }

  /** A frame that must be split leaves fragments that obey. */
  ghost predicate Inherited(law: Law, cap: nat, codec: Codec) {
    forall x, source :: law(x, source) && !L.Fits(codec, source, cap) ==> PiecesObey(law, x, source)
  }

  ghost predicate SourceObeys(law: Law, x: nat, g: Generator) {
    match g
    case Start(source) => law(x, source)
    case Slicing(source, _, _, _) => PiecesObey(law, x, source)
    case Finished => true
  }

  ghost predicate LaneObeys(law: Law, x: nat, lane: Lane) {
    && (lane.prepared.Some? ==> law(x, lane.prepared.value))
    && (lane.fragments.Some? ==> SourceObeys(law, x, lane.fragments.value))
    && (forall i :: 0 <= i < |lane.waiting| ==> law(x, lane.waiting[i]))
  }

  ghost predicate Obeys(law: Law, w: Writer) {
    forall x :: x in w.queues ==> LaneObeys(law, x, w.queues[x])
  }

  lemma ResumeObeys(law: Law, x: nat, g: Generator, cap: nat, codec: Codec)
    requires Inherited(law, cap, codec) && SourceObeys(law, x, g) && Resume(g, cap, codec).Yield?
    ensures law(x, Resume(g, cap, codec).frame) && SourceObeys(law, x, Resume(g, cap, codec).rest)
  {
    hide MiddleCount, Cuttable, Slice, FragmentFrame;
  }

  lemma NextObeys(law: Law, x: nat, lane: Lane, cap: nat, codec: Codec)
    requires Inherited(law, cap, codec) && LaneObeys(law, x, lane) && PrepareNext(lane, cap, codec).Ready?
    ensures LaneObeys(law, x, PrepareNext(lane, cap, codec).lane)
  {
    hide Resume, Inherited, PiecesObey;
    if lane.waiting != [] {
      var g: Generator := Start(lane.waiting[0]);
      if Resume(g, cap, codec).Yield? { ResumeObeys(law, x, g, cap, codec); }
    }
  }

  /** Slicing a lane's next fragment. */
  lemma PrepareObeys(law: Law, x: nat, lane: Lane, cap: nat, codec: Codec)
    requires Inherited(law, cap, codec) && LaneObeys(law, x, lane) && Prepare(lane, cap, codec).Ready?
    ensures LaneObeys(law, x, Prepare(lane, cap, codec).lane)
  {
    hide Resume, PrepareNext, Inherited, PiecesObey;
    if lane.prepared.None? {
      if lane.fragments.Some? && Resume(lane.fragments.value, cap, codec).Yield? {
        ResumeObeys(law, x, lane.fragments.value, cap, codec);
      } else {
        NextObeys(law, x, lane.(fragments := None), cap, codec);
      }
    }
  }

  lemma EnqueueObeys(law: Law, w: Writer, f: Frame)
    requires Obeys(law, w) && law(LaneOf(f), f)
    ensures Obeys(law, Enqueue(w, f))
  {
    hide SourceObeys;
  }

  lemma DiscardObeys(law: Law, w: Writer, id: nat)
    requires Obeys(law, w)
    ensures Obeys(law, Discard(w, id))
  {
    hide SourceObeys;
  }

  lemma AskObeys(law: Law, w: Writer, id: nat, cap: nat, codec: Codec)
    requires Inherited(law, cap, codec) && Obeys(law, w) && id in w.queues
    ensures var (asked, turn) := AskLane(w, id, cap, codec);
            Obeys(law, asked) && (turn.Sent? ==> law(turn.id, turn.frame))
  {
    hide Prepare, SourceObeys, Inherited;
    if Prepare(w.queues[id], cap, codec).Ready? { PrepareObeys(law, id, w.queues[id], cap, codec); }
  }

  lemma {:induction false} RotateObeys(law: Law, w: Writer, turns: nat, cap: nat, codec: Codec)
    requires Inherited(law, cap, codec) && Obeys(law, w)
    ensures var (rotated, turn) := Rotate(w, turns, cap, codec);
            Obeys(law, rotated) && (turn.Sent? ==> law(turn.id, turn.frame))
    decreases turns
  {
    hide AskLane, LaneObeys, Inherited;
    if turns != 0 && w.order != [] {
      var moved := Rotated(w);
      if w.order[0] !in w.queues {
        RotateObeys(law, moved, turns - 1, cap, codec);
      } else {
        AskObeys(law, moved, w.order[0], cap, codec);
        RotateObeys(law, AskLane(moved, w.order[0], cap, codec).0, turns - 1, cap, codec);
      }
    }
  }

  /** Every frame a turn hands over obeys. */
  lemma NextFrameObeys(law: Law, w: Writer, cap: nat, codec: Codec)
    requires Inherited(law, cap, codec) && Obeys(law, w)
    ensures var (next, turn) := NextFrame(w, cap, codec);
            Obeys(law, next) && (turn.Sent? ==> law(turn.id, turn.frame))
  {
    hide Rotate, LaneObeys, Inherited, AnyWork;
    RotateObeys(law, w, |w.order|, cap, codec);
  }

  lemma AdvanceObeys(law: Law, w: Writer, id: nat, cap: nat, codec: Codec)
    requires Inherited(law, cap, codec) && Obeys(law, w)
    ensures Obeys(law, Advance(w, id, cap, codec).0)
  {
    hide Prepare, SourceObeys, Inherited;
    if id in w.queues && Prepare(w.queues[id], cap, codec).Ready? { PrepareObeys(law, id, w.queues[id], cap, codec); }
  }
}
