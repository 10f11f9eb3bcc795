/** UTF-8 (section 3 of RFC 3629) and the offsets at which an encoded payload may be cut. */
module Utf8 {
  import opened Frames

  /** No codepoint begins at such a byte. */
  predicate IsContinuation(b: Byte) {
    0x80 <= b < 0xC0
  }

  /** The range test above is the source's mask test. */
  lemma ContinuationIsTheMaskTest(b: bv8)
    ensures b & 0xC0 == 0x80 <==> IsContinuation(b as Byte)
  {
    assert b & 0xC0 == 0x80 <==> 0x80 <= b < 0xC0;
  }

  // ------------------------------------------------------------ well-formedness, RFC 3629 section 4

  /** UTF8-tail. */
  predicate Tail(b: Byte) { IsContinuation(b) }

  /** The width the first byte of a sequence announces, 0 for a byte that starts none. */
  function Width(b: Byte): (w: nat)
    ensures w <= 4
  {
    if b < 0x80 then 1
    else if 0xC2 <= b <= 0xDF then 2
    else if 0xE0 <= b <= 0xEF then 3
    else if 0xF0 <= b <= 0xF4 then 4
    else 0
  }

  /** One encoded codepoint: UTF8-1, UTF8-2, UTF8-3 or UTF8-4. */
  predicate IsUnit(u: seq<Byte>) {
    && 0 < |u| == Width(u[0])
    && (forall k :: 1 <= k < |u| ==> Tail(u[k]))
    && (u[0] == 0xE0 ==> 0xA0 <= u[1])
    && (u[0] == 0xED ==> u[1] <= 0x9F)
    && (u[0] == 0xF0 ==> 0x90 <= u[1])
    && (u[0] == 0xF4 ==> u[1] <= 0x8F)
  }

  predicate ValidUtf8(data: seq<Byte>) {
    data == [] ||
    (var w := Width(data[0]);
     0 < w <= |data| && IsUnit(data[..w]) && ValidUtf8(data[w..]))
  }

  lemma {:induction false} ValidAppend(a: seq<Byte>, b: seq<Byte>)
    requires ValidUtf8(a) && ValidUtf8(b)
    ensures ValidUtf8(a + b)
  {
    if a == [] {
      assert a + b == b;
    } else {
      var w := Width(a[0]);
      ValidAppend(a[w..], b);
      assert (a + b)[..w] == a[..w];
      assert (a + b)[w..] == a[w..] + b;
    }
  }

  // ------------------------------------------------------------ boundaries

  /** An offset a fragment may start or end on: any offset of binary data, a codepoint boundary of text. */
  predicate IsBoundary(data: seq<Byte>, text: bool, cut: int) {
    0 <= cut <= |data| && (text && 0 < cut < |data| ==> !IsContinuation(data[cut]))
  }

  lemma SliceOfDrop(data: seq<Byte>, w: nat, i: nat, j: nat)
    requires w <= i <= j <= |data|
    ensures data[w..][i - w..j - w] == data[i..j]
  {
    forall k | 0 <= k < j - i
      ensures data[w..][i - w..j - w][k] == data[i..j][k]
    {
      assert data[w..][i - w + k] == data[i + k];
    }
  }

  /** Every slice between two boundaries of valid UTF-8 is valid UTF-8, so it decodes on its own. */
  lemma {:induction false} SliceIsValid(data: seq<Byte>, i: nat, j: nat)
    requires ValidUtf8(data) && i <= j
    requires IsBoundary(data, true, i) && IsBoundary(data, true, j)
    ensures ValidUtf8(data[i..j])
    decreases |data|
  {
    if i == j {
      assert data[i..j] == [];
    } else {
      var w := Width(data[0]);
      var rest := data[w..];
      BoundaryPastUnit(data, i);
      BoundaryPastUnit(data, j);
      if i == 0 {
        SliceIsValid(rest, 0, j - w);
        var slice := data[i..j];
        assert slice[..w] == data[..w];
        SliceOfDrop(data, w, w, j);
      } else {
        SliceIsValid(rest, i - w, j - w);
        SliceOfDrop(data, w, i, j);
      }
    }
  }

  /** No boundary lies inside the first unit. */
  lemma BoundaryPastUnit(data: seq<Byte>, i: nat)
    requires ValidUtf8(data) && data != [] && IsBoundary(data, true, i)
    ensures i == 0 || Width(data[0]) <= i
    ensures i != 0 ==> IsBoundary(data[Width(data[0])..], true, i - Width(data[0]))
  {
    var w := Width(data[0]);
    var unit := data[..w];
    assert forall k :: 1 <= k < w ==> Tail(unit[k]) && unit[k] == data[k];
  }

  /** In valid UTF-8 a boundary lies within three bytes below every offset. */
  lemma {:induction false} BoundaryWithinThree(data: seq<Byte>, cut: nat)
    requires ValidUtf8(data) && cut <= |data|
    ensures exists b :: cut - 3 <= b <= cut && IsBoundary(data, true, b)
    decreases |data|
  {
    if data == [] {
      assert IsBoundary(data, true, cut);
    } else {
      var w := Width(data[0]);
      if cut < w {
        assert IsBoundary(data, true, 0);
      } else {
        BoundaryWithinThree(data[w..], cut - w);
        var b :| cut - w - 3 <= b <= cut - w && IsBoundary(data[w..], true, b);
        if b == 0 {
          UnitThenBoundary(data);
        }
        assert IsBoundary(data, true, b + w);
      }
    }
  }

  lemma UnitThenBoundary(data: seq<Byte>)
    requires ValidUtf8(data) && data != []
    ensures IsBoundary(data, true, Width(data[0]))
  {
    var w := Width(data[0]);
    var rest := data[w..];
    if rest != [] {
      assert IsUnit(rest[..Width(rest[0])]);
      assert rest[0] == data[w];
    }
  }
}
