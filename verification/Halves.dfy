/** The two halves of one stream, and what ties them together while frames are on their way. */
module Halves {
  import opened Frames
  import opened Codecs
  import opened Conversation
  import A = Assembly

  // ------------------------------------------------------------ one end's half of a stream

  /** `heard` is what this end has from the other, `said` what its application has said.  `Dead` is a half
      that was reset, refused or abandoned; `cut` one whose opening was incomplete.  A half that has heard
      the end and said it stays `Alive`. */
  datatype Half = Unborn | Alive(heard: View, said: View) | Dead(had: seq<Value>, gave: seq<Value>, cut: bool)

  /** It has ended its own side. */
  predicate Done(h: Half) {
    h.Alive? && h.said.ended
  }

  /** What the next frame finds. */
  function EarOf(h: Half): Ear {
    match h
    case Unborn => Unseen
    case Dead(had, _, _) => Silenced(had)
    case Alive(heard, said) => Hearing(heard, said.ended)
  }

  function Heard(h: Half): seq<Value> {
    match h
    case Unborn => []
    case Dead(had, _, _) => had
    case Alive(heard, _) => heard.values
  }

  function Said(h: Half): seq<Value> {
    match h
    case Unborn => []
    case Dead(_, gave, _) => gave
    case Alive(_, said) => said.values
  }

  /** One says whole payloads, and opens with one. */
  predicate Whole(said: View) {
    said.partial == A.NOTHING && !said.opening
  }

  // ------------------------------------------------------------ the link

  /** Everything still on its way to `k` can be heard, and makes no value that `h` did not say. */
  ghost predicate Audible(h: Half, q: seq<Frame>, k: Half, codec: Codec) {
    || (k.Dead? && k.cut)
    || (HearAll(EarOf(k), q, codec) != Broken && HeardBy(HearAll(EarOf(k), q, codec)) <= Said(h))
  }

  /** Once `q` has arrived, `k` will have heard exactly what `h` said; or, when `h` is dead, nothing that
      leaves `k` waiting.  `late`: `k`'s end will refuse it. */
  ghost predicate Exact(h: Half, q: seq<Frame>, k: Half, late: bool, codec: Codec) {
    match h
    case Unborn => true
    case Alive(heard, said) =>
      && ResetFree(q) && Whole(said)
      && (k.Dead? || HearAll(EarOf(k), q, codec) == Hearing(said, Done(k)))
    case Dead(_, _, _) =>
      || Stopped(EarOf(k))
      || Stopped(HearAll(EarOf(k), q, codec))
      || (k.Unborn? && q == [])
      || (late && HearAll(EarOf(k), q, codec).Hearing? && !HearAll(EarOf(k), q, codec).view.opening)
  }

  /** Nothing was said.  `own`: the stream is one `h`'s end opens. */
  predicate Untouched(q: seq<Frame>, k: Half, own: bool) {
    q == [] && (own ==> k.Unborn?) && (k.Alive? ==> k.heard == FRESH)
  }

  /** `h` speaks, `k` listens, `q` is on its way.  `up` and `open`: the speaker's and the listener's
      connection has not died. */
  ghost predicate Linked(h: Half, q: seq<Frame>, k: Half, own: bool, late: bool, up: bool, open: bool, codec: Codec) {
    && Heard(k) <= Said(h)
    && (h.Unborn? ==> Untouched(q, k, own))
    && (open ==> Audible(h, q, k, codec) && (up ==> Exact(h, q, k, late, codec)))
  }

  // ------------------------------------------------------------ the speaker acts

  /** The stream is opened: its `open` is on its way. */
  lemma BornLinked(f: Frame, end: bool, v: Value, k: Half, late: bool, open: bool, codec: Codec)
    requires Linked(Unborn, [], k, true, late, true, open, codec)
    requires f.kind == OpenFrame && f.fragment.None? && f.payload == Some(v) && f.end == end
    ensures Linked(Alive(FRESH, View(A.NOTHING, false, end, [v], true, f.headers, None)), [f], k, true, late, true,
                   open, codec)
  {
    if open {
      HearOne(EarOf(k), f, codec);
    }
  }

  /** What was said, and now `f`. */
  function Saying(said: View, f: Frame): View {
    View(A.NOTHING, false, f.end, said.values + (if f.payload.Some? then [f.payload.value] else []), true,
         HeadersAfter(said, f), TrailersAfter(said, f))
  }

  /** A payload, headers or the end. */
  lemma SayLinked(h: Half, q: seq<Frame>, f: Frame, k: Half, own: bool, late: bool, open: bool, codec: Codec)
    requires Linked(h, q, k, own, late, true, open, codec) && h.Alive? && !h.said.ended
    requires f.kind == DataFrame && f.fragment.None? && (f.headers.Some? ==> !h.said.begun)
    ensures var said := Saying(h.said, f);
            Linked(h.(said := said), q + [f], k, own, late, true, open, codec)
  {
    if open && !(k.Dead? && k.cut) {
      HearAllAppend(EarOf(k), q, [f], codec);
      HearOne(HearAll(EarOf(k), q, codec), f, codec);
      HeardGrows(EarOf(k), q, codec);
    }
  }

  /** What is said after the end: a listener that has ended too is deaf to it. */
  lemma EchoLinked(h: Half, q: seq<Frame>, f: Frame, k: Half, own: bool, late: bool, open: bool, codec: Codec)
    requires Linked(h, q, k, own, late, true, open, codec) && h.Alive? && h.said.ended
    requires f.kind == DataFrame && (open ==> k.Dead? || Done(k))
    ensures Linked(h, q + [f], k, own, late, true, open, codec)
  {
    if open && !(k.Dead? && k.cut) {
      HearAllAppend(EarOf(k), q, [f], codec);
      HearOne(HearAll(EarOf(k), q, codec), f, codec);
      HeardGrows(EarOf(k), q, codec);
    }
  }

  /** An end that was heard was said: a half that has heard the other's end and ended itself knows the other done. */
  lemma HeardEndIsSaid(h: Half, q: seq<Frame>, k: Half, own: bool, late: bool, codec: Codec)
    requires Linked(k, q, h, own, late, true, true, codec)
    requires h.Alive? && h.heard.ended && !h.heard.opening && h.said.ended
    ensures k.Dead? || Done(k)
  {
    HeardGrows(EarOf(h), q, codec);
  }

  /** Reset: some of what was on its way is dropped from the back, and a reset follows. */
  lemma ResetLinked(h: Half, q: seq<Frame>, kept: seq<Frame>, dropped: seq<Frame>, f: Frame, k: Half, h': Half,
                    own: bool, late: bool, open: bool, codec: Codec)
    requires Linked(h, q, k, own, late, true, open, codec) && q == kept + dropped
    requires h'.Dead? && Said(h') == Said(h) && f.kind == ResetFrame
    requires open && k.Unborn? ==> kept != []
    ensures Linked(h', kept + [f], k, own, late, true, open, codec)
  {
    if open && !(k.Dead? && k.cut) {
      PrefixIsHeard(EarOf(k), kept, dropped, codec);
      HeardGrows(EarOf(k), kept, codec);
      ThenReset(EarOf(k), kept, f, codec);
    }
  }

  /** Closed without a word: its reset was heard, or nothing of it will ever be sent, or the listener will
      refuse it. */
  lemma QuietLinked(h: Half, q: seq<Frame>, kept: seq<Frame>, dropped: seq<Frame>, k: Half, h': Half, own: bool,
                    late: bool, open: bool, codec: Codec)
    requires Linked(h, q, k, own, late, true, open, codec) && q == kept + dropped
    requires h'.Dead? && Said(h') == Said(h)
    requires open ==> Stopped(EarOf(k)) || (k.Unborn? && kept == []) || (h.Alive? && late && dropped == [])
    ensures Linked(h', kept, k, own, late, true, open, codec)
  {
    if open && !(k.Dead? && k.cut) {
      PrefixIsHeard(EarOf(k), kept, dropped, codec);
      assert dropped == [] ==> kept == q;
    }
  }

  /** The speaker's connection died: what was in its lanes is lost. */
  lemma CutOffLinked(h: Half, q: seq<Frame>, kept: seq<Frame>, dropped: seq<Frame>, k: Half, h': Half, own: bool,
                     late: bool, up: bool, open: bool, codec: Codec)
    requires Linked(h, q, k, own, late, up, open, codec) && q == kept + dropped
    requires Said(h') == Said(h) && (h'.Unborn? ==> h.Unborn?)
    ensures Linked(h', kept, k, own, late, false, open, codec)
  {
    if open && !(k.Dead? && k.cut) {
      PrefixIsHeard(EarOf(k), kept, dropped, codec);
    }
  }

  /** The speaker's lane was sliced. */
  lemma SlicedLinked(h: Half, q: seq<Frame>, q': seq<Frame>, k: Half, own: bool, late: bool, up: bool, open: bool,
                     codec: Codec)
    requires Linked(h, q, k, own, late, up, open, codec)
    requires HearAll(EarOf(k), q, codec) != Broken ==> HearAll(EarOf(k), q', codec) == HearAll(EarOf(k), q, codec)
    requires ResetFree(q) ==> ResetFree(q')
    requires q == [] ==> q' == []
    ensures Linked(h, q', k, own, late, up, open, codec)
  {
  }

  // ------------------------------------------------------------ the listener acts

  /** The listener speaks, or closes its side. */
  lemma ListenerSpoke(h: Half, q: seq<Frame>, k: Half, k': Half, own: bool, late: bool, up: bool, open: bool,
                      codec: Codec)
    requires Linked(h, q, k, own, late, up, open, codec)
    requires k.Alive? && k'.Alive? && k'.heard == k.heard && (k.heard.ended ==> !k.heard.opening)
    requires Done(k) ==> Done(k')
    ensures Linked(h, q, k', own, late, up, open, codec)
  {
    if open && !Done(k) && Done(k') {
      DoneHearsTheSame(k.heard, q, codec);
    }
  }

  /** The listener closes the stream: a reset, a failure, a refusal. */
  lemma ListenerClosed(h: Half, q: seq<Frame>, k: Half, k': Half, own: bool, late: bool, up: bool, open: bool,
                       codec: Codec)
    requires Linked(h, q, k, own, late, up, open, codec)
    requires k.Alive? && k'.Dead? && k'.had == Heard(k) && (k.heard.opening ==> k'.cut)
    ensures Linked(h, q, k', own, late, up, open, codec)
  {
    if open && !k'.cut {
      NoOpenLater(EarOf(k), q, codec);
    }
  }

  /** The listener's connection died. */
  lemma ListenerDied(h: Half, q: seq<Frame>, k: Half, k': Half, own: bool, late: bool, up: bool, open: bool,
                     codec: Codec)
    requires Linked(h, q, k, own, late, up, open, codec) && Heard(k') == Heard(k)
    requires (k.Unborn? ==> k'.Unborn?) && (k'.Alive? ==> k.Alive? && k'.heard == k.heard)
    ensures Linked(h, q, k', own, late, up, false, codec)
  {
  }

  /** The head of what is on its way can be heard, or was cut. */
  lemma HeadIsHeard(h: Half, f: Frame, q: seq<Frame>, k: Half, own: bool, late: bool, up: bool, codec: Codec)
    requires Linked(h, [f] + q, k, own, late, up, true, codec)
    ensures (k.Dead? && k.cut) || Hear(EarOf(k), f, codec) != Broken
    ensures !h.Unborn?
    ensures up && f.kind == ResetFrame ==> h.Dead?
  {
    hide Hear;
    ConsHeard(EarOf(k), f, q, codec);
  }

  lemma ConsHeard(e: Ear, f: Frame, q: seq<Frame>, codec: Codec)
    ensures HearAll(e, [f] + q, codec) == HearAll(Hear(e, f, codec), q, codec)
    ensures Hear(e, f, codec) == Broken ==> HearAll(e, [f] + q, codec) == Broken
  {
    hide Hear;
    assert ([f] + q)[1..] == q;
    BrokenStays(q, codec);
  }

  /** A frame arrives and is taken in. */
  lemma TakenInLinked(h: Half, f: Frame, q: seq<Frame>, k: Half, k': Half, own: bool, late: bool, up: bool,
                      codec: Codec)
    requires Linked(h, [f] + q, k, own, late, up, true, codec)
    requires !Stopped(EarOf(k)) && k'.Alive? && Hear(EarOf(k), f, codec) == Hearing(k'.heard, Done(k'))
    requires Done(k') == Done(k)
    ensures Linked(h, q, k', own, late, up, true, codec)
  {
    hide Hear;
    ConsHeard(EarOf(k), f, q, codec);
    var e := EarOf(k');
    HeardGrows(e, q, codec);
    assert ResetFree([f] + q) ==> ResetFree(q) by {
      assert forall i :: 0 <= i < |q| ==> q[i] == ([f] + q)[i + 1];
    }
  }

  /** A frame arrives and the listener closes the stream over it. */
  lemma RefusedLinked(h: Half, f: Frame, q: seq<Frame>, k: Half, k': Half, own: bool, late: bool, up: bool,
                      codec: Codec)
    requires Linked(h, [f] + q, k, own, late, up, true, codec)
    requires !Stopped(EarOf(k)) && k'.Dead? && Hear(EarOf(k), f, codec).Hearing?
    requires k'.had <= Hear(EarOf(k), f, codec).view.values
    requires Hear(EarOf(k), f, codec).view.opening ==> k'.cut
    ensures Linked(h, q, k', own, late, up, true, codec)
  {
    hide Hear;
    ConsHeard(EarOf(k), f, q, codec);
    var e := Hear(EarOf(k), f, codec);
    HeardGrows(e, q, codec);
    assert ResetFree([f] + q) ==> ResetFree(q) by {
      assert forall i :: 0 <= i < |q| ==> q[i] == ([f] + q)[i + 1];
    }
    if !k'.cut {
      NoOpenLater(e, q, codec);
    }
  }

  /** A reset arrives, and closes the stream. */
  lemma SilencedLinked(h: Half, f: Frame, q: seq<Frame>, k: Half, k': Half, own: bool, late: bool, up: bool,
                       codec: Codec)
    requires Linked(h, [f] + q, k, own, late, up, true, codec)
    requires k.Alive? && f.kind == ResetFrame && k'.Dead? && k'.had == Heard(k)
    ensures Linked(h, q, k', own, late, up, true, codec)
    ensures up ==> h.Dead?
  {
    ConsHeard(EarOf(k), f, q, codec);
    StoppedStays(Hear(EarOf(k), f, codec), EarOf(k'), q, codec);
    HeardGrows(EarOf(k'), q, codec);
    assert up ==> !ResetFree([f] + q) by {
      assert ([f] + q)[0] == f;
    }
  }

  /** A frame for a stream that is closed here is dropped. */
  lemma DroppedLinked(h: Half, f: Frame, q: seq<Frame>, k: Half, own: bool, late: bool, up: bool, codec: Codec)
    requires Linked(h, [f] + q, k, own, late, up, true, codec) && Stopped(EarOf(k))
    ensures Linked(h, q, k, own, late, up, true, codec)
  {
    ConsHeard(EarOf(k), f, q, codec);
    assert ResetFree([f] + q) ==> ResetFree(q) by {
      assert forall i :: 0 <= i < |q| ==> q[i] == ([f] + q)[i + 1];
    }
    if k.Alive? || !k.cut {
      assert Hear(EarOf(k), f, codec) == EarOf(k) || Hear(EarOf(k), f, codec) == Broken;
    }
  }

  /** The other end may now answer a stream it just heard of. */
  lemma AnswerableLinked(q: seq<Frame>, k: Half, h': Half, late: bool, up: bool, open: bool, codec: Codec)
    requires Linked(Unborn, q, k, false, late, up, open, codec) && (up && open ==> !k.Unborn?)
    requires h'.Alive? && h'.said == FRESH
    ensures Linked(h', q, k, false, late, up, open, codec)
  {
  }

  /** A stream this end opens: the other has nothing to say on it yet. */
  lemma OpenedLinked(k': Half, late: bool, up: bool, open: bool, codec: Codec)
    requires k'.Alive? && k'.heard == FRESH
    ensures Linked(Unborn, [], k', false, late, up, open, codec)
  {
  }

  /** The speaker's half hears more; what it has said stays. */
  lemma SpeakerHeard(h: Half, q: seq<Frame>, k: Half, h': Half, own: bool, late: bool, up: bool, open: bool,
                     codec: Codec)
    requires Linked(h, q, k, own, late, up, open, codec) && h.Alive? && h'.Alive? && h'.said == h.said
    ensures Linked(h', q, k, own, late, up, open, codec)
  {
  }

  /** The listener's end will refuse what it is yet to hear. */
  lemma LateLinked(h: Half, q: seq<Frame>, k: Half, own: bool, late: bool, up: bool, open: bool, codec: Codec)
    requires Linked(h, q, k, own, late, up, open, codec)
    ensures Linked(h, q, k, own, true, up, open, codec)
  {
  }
}
