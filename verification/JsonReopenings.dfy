/** The same run with the JSON codec, at every cap from 256 bytes on. */
module JsonReopenings {
  import opened Frames
  import opened Utf8
  import opened Codecs
  import opened Fragmenter
  import opened SplitLaws
  import opened Json
  import opened JsonReader
  import opened JsonRefusals
  import opened PeerModel
  import D = DuplexModel
  import R = Reopenings

  // ------------------------------------------------------------ lengths

  lemma {:induction false} LettersEscape(n: nat)
    ensures Escape(Letters(n)) == Letters(n)
    decreases n
  {
    if n != 0 {
      LettersEscape(n - 1);
      assert Letters(n)[0] == 0x61 && Letters(n)[1..] == Letters(n - 1);
      assert Letters(n) == [0x61] + Letters(n - 1);
      assert EscapeByte(0x61) == [0x61];
    }
  }

  /** Only the two quotes are escaped. */
  lemma LongLengths(n: nat)
    ensures |LongPayload(n).bytes| == n + 2 && |Escape(LongPayload(n).bytes)| == n + 4
  {
    hide Escape, EscapeByte;
    LettersEscape(n);
    EscapeConcat([0x22] + Letters(n), [0x22]);
    EscapeConcat([0x22], Letters(n));
    assert Quoted(Letters(n)) == [0x22] + Letters(n) + [0x22];
    QuoteEscapes();
  }

  lemma QuoteEscapes()
    ensures |Escape([0x22])| == 2
  {
    assert [0x22][1..] == [];
    assert Escape([0x22]) == EscapeByte(0x22) + Escape([]);
  }

  lemma SliceEscapes(bytes: Text, a: nat, b: nat)
    requires a <= b <= |bytes|
    ensures |Escape(bytes[a..b])| + (|bytes| - (b - a)) <= |Escape(bytes)|
  {
    hide Escape, EscapeByte;
    EscapeConcat(bytes[..a], bytes[a..b]);
    EscapeConcat(bytes[..a] + bytes[a..b], bytes[b..]);
    assert bytes == bytes[..a] + bytes[a..b] + bytes[b..];
    EscapeOfSlice(bytes, 0, a, 0, |bytes|);
    EscapeOfSlice(bytes, b, |bytes|, 0, |bytes|);
    assert bytes[0..a] == bytes[..a] && bytes[b..|bytes|] == bytes[b..];
  }

  function Long(n: nat): Frame {
    R.Source(Str(Letters(n)))
  }

  /** A fragment is at most 94 bytes longer than its slice. */
  lemma SliceFits(n: nat, a: nat, b: nat, first: bool, last: bool, cap: nat)
    requires a <= b <= |LongPayload(n).bytes| && b - a + 94 <= cap
    ensures Fits(JSON(), Piece(Long(n), LongPayload(n), a, b, first, last), cap)
  {
    hide Escape, Digits, Quoted, NumberMember, LongPayload, Encode, Piece;
    OpenMembers(1);
    NoMembers();
    PieceLength(Long(n), LongPayload(n), a, b, first, last);
    LongLengths(n);
    SliceEscapes(LongPayload(n).bytes, a, b);
    MemberLength("fragment", []);
    LongIsText(n);
  }

  lemma LongIsLong(n: nat)
    ensures EncodePayload(Str(Letters(n))) == Some(LongPayload(n))
    ensures Encode(Long(n)).Some? && n < |Encode(Long(n)).value|
  {
    hide Escape, Digits, Quoted, NumberMember, ValidUtf8, Letters;
    LongIsPlain(n);
    MemberLength("payload", LongPayload(n).bytes);
  }

  lemma ReplyFits(cap: nat)
    requires 128 <= cap
    ensures Fits(JSON(), R.Reply(Null), cap)
  {
    hide Escape, Digits, Quoted, NumberMember;
    OpenMembers(1);
    EscapeAtMostSixfold(TypeName(DataFrame));
    QuotedLength(TypeName(DataFrame));
    MemberLength("payload", Ascii("null"));
    NoMembers();
  }

  // ------------------------------------------------------------ two fragments

  /** Plain text may be cut anywhere. */
  lemma PlainProbe(whole: Chunk, position: nat, limit: nat)
    requires Cuttable(whole, position) && position + limit < |whole.bytes|
    requires forall i :: 0 <= i < |whole.bytes| ==> whole.bytes[i] < 0x80
    ensures Probe(whole, position, limit) == limit
  {
    assert !IsContinuation(whole.bytes[position + limit]) by { assert whole.bytes[position + limit] < 0x80; }
  }

  /** The budget of a cap, in bytes of the first fragment. */
  lemma BudgetLeaves(cap: nat)
    requires 256 <= cap
    ensures 0 < Budget(cap) && Budget(cap) + 94 <= cap && cap - Budget(cap) <= cap / 2
  {
  }

  lemma FirstIsBudget(cap: nat)
    requires 256 <= cap
    ensures Cuttable(LongPayload(cap), 0) && Budget(cap) <= |LongPayload(cap).bytes|
    ensures MiddleCount(Long(cap), LongPayload(cap), 0, true, cap, JSON()) == Count(Budget(cap))
  {
    hide LongPayload, Fits, Piece, Resplit, Probe, Budget;
    var whole := LongPayload(cap);
    LongLengths(cap);
    LongIsPlain(cap);
    BudgetLeaves(cap);
    PlainProbe(whole, 0, Budget(cap));
    SliceFits(cap, 0, Budget(cap), true, false, cap);
    SizeOfSlice(cap, Budget(cap));
  }

  lemma SizeOfSlice(cap: nat, count: nat)
    requires count <= |LongPayload(cap).bytes|
      && Fits(JSON(), Piece(Long(cap), LongPayload(cap), 0, count, true, false), cap)
    ensures var size := SliceSize(Long(cap), LongPayload(cap), 0, count, true, JSON()); size.Some? && size.value <= cap
  {
    hide LongPayload, Piece, JSON;
  }

  lemma LongIsCutInTwo(cap: nat)
    requires 256 <= cap
    ensures var split := SplitFrame(Long(cap), cap, JSON()); split.error.None? && |split.frames| == 2
  {
    hide LongPayload, Long, Fits, Piece, MiddleCount, Budget;
    var f, whole := Long(cap), LongPayload(cap);
    LongLengths(cap);
    LongIsPlain(cap);
    BudgetLeaves(cap);
    FirstIsBudget(cap);
    StartSlices(cap);
    var count := Budget(cap);
    var rest: Generator := Slicing(f, whole, count, 1);
    SliceFits(cap, count, |whole.bytes|, false, true, cap);
    ClosesAt(cap, count);
    assert Drain(Finished, cap, JSON()) == Split([], None);
    assert Drain(rest, cap, JSON()).frames == [Closing(f, whole, count, false)] + [];
    assert SplitFrame(f, cap, JSON()).frames
        == [Piece(f, whole, 0, count, true, false)] + Drain(rest, cap, JSON()).frames;
  }

  lemma StartSlices(cap: nat)
    requires 256 <= cap && |LongPayload(cap).bytes| == cap + 2 && Cuttable(LongPayload(cap), 0)
      && 0 < Budget(cap) <= cap
    requires MiddleCount(Long(cap), LongPayload(cap), 0, true, cap, JSON()) == Count(Budget(cap))
    ensures Cuttable(LongPayload(cap), Budget(cap))
    ensures Resume(Start(Long(cap)), cap, JSON())
         == Yield(Piece(Long(cap), LongPayload(cap), 0, Budget(cap), true, false),
                  Slicing(Long(cap), LongPayload(cap), Budget(cap), 1))
  {
    hide LongPayload, Piece, MiddleCount, Budget, Encode;
    LongIsLong(cap);
    LongCarries(cap);
  }

  lemma LongCarries(cap: nat)
    ensures Long(cap).payload == Some(Str(Letters(cap)))
  {
  }

  lemma ClosesAt(cap: nat, count: nat)
    requires count <= |LongPayload(cap).bytes| <= count + cap && 0 < count && Cuttable(LongPayload(cap), count)
    requires Fits(JSON(), Piece(Long(cap), LongPayload(cap), count, |LongPayload(cap).bytes|, false, true), cap)
    ensures Resume(Slicing(Long(cap), LongPayload(cap), count, 1), cap, JSON())
         == Yield(Closing(Long(cap), LongPayload(cap), count, false), Finished)
  {
    hide LongPayload, Long, Piece, MiddleCount, JSON;
  }

  // ------------------------------------------------------------ the run

  /** With JSON, whatever the cap from 256 bytes on: a run that leaves the first stream closed at its opener and able to
      send again at the other end, with nothing on its way and neither end reset. */
  lemma JsonEarlyEndIsUndone(ca: Config, cb: Config) returns (events: seq<D.Event>)
    requires ca.codec == cb.codec == JSON() && 256 <= ca.cap == cb.cap && 0 < cb.maxStreams
      && ca.cap + 2 <= cb.maxPayload
    ensures R.Differ(D.Run(D.Start(ca, cb), events), 1)
  {
    hide D.Run, SplitFrame, Fits, JSON, Lawful, Measured, R.Differ, LongPayload;
    JsonIsLawful();
    LongIsLong(ca.cap);
    LongLengths(ca.cap);
    LongIsCutInTwo(ca.cap);
    ReplyFits(ca.cap);
    JsonEncodes(ca.cap);
    events := R.EarlyEndIsUndone(ca, cb, Str(Letters(ca.cap)), LongPayload(ca.cap), Null);
  }

  lemma JsonEncodes(n: nat)
    requires EncodePayload(Str(Letters(n))) == Some(LongPayload(n))
    ensures JSON().encodePayload(Str(Letters(n))) == Some(LongPayload(n))
  {
  }
}
