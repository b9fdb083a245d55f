/**
 * Splitting ffmpeg's image2pipe output, a concatenation of JPEG images, into
 * the byte ranges of the individual images. An image starts at the SOI marker
 * FF D8 and ends after the first EOI marker FF D9 that follows it (marker
 * codes from ITU-T T.81, Table B.1).
 */
module Demux {
  import opened Results

  type byte = x: int | 0 <= x < 256

  const SOI: byte := 0xD8
  const EOI: byte := 0xD9

  /** The two-byte marker FF `code` starts at position i of s. */
  predicate MarkerAt(s: seq<byte>, i: int, code: byte) {
    0 <= i && i + 1 < |s| && s[i] == 0xFF && s[i + 1] == code
  }

  /** No marker FF `code` starts in [a, b). */
  predicate NoMarkerIn(data: seq<byte>, a: int, b: int, code: byte) {
    forall j :: a <= j < b ==> !MarkerAt(data, j, code)
  }

  /** The first position at or after `from` where the marker FF `code` starts, or -1. */
  function Find(s: seq<byte>, from: int, code: byte): (r: int)
    requires 0 <= from <= |s|
    ensures r == -1 || from <= r < |s| - 1
    decreases |s| - from
  {
    if from + 1 >= |s| then -1
    else if s[from] == 0xFF && s[from + 1] == code then from
    else Find(s, from + 1, code)
  }

  /** Find returns the first marker at or after `from`, and -1 exactly when there is none. */
  lemma {:induction false} FindSpec(s: seq<byte>, from: int, code: byte)
    requires 0 <= from <= |s|
    ensures var r := Find(s, from, code);
      (r == -1 || MarkerAt(s, r, code)) &&
      (r == -1 ==> NoMarkerIn(s, from, |s|, code)) &&
      (r != -1 ==> NoMarkerIn(s, from, r, code))
    decreases |s| - from
  {
    if from + 1 < |s| && !(s[from] == 0xFF && s[from + 1] == code) {
      FindSpec(s, from + 1, code);
    }
  }

  /** bytes.Index(s, []byte{0xFF, code}): the first position of the marker in s, or -1. */
  function Index(s: seq<byte>, code: byte): (r: int)
    ensures r == -1 || 0 <= r < |s| - 1
    ensures r >= 0 ==> MarkerAt(s, r, code) && NoMarkerIn(s, 0, r, code)
    ensures r == -1 ==> NoMarkerIn(s, 0, |s|, code)
  {
    FindSpec(s, 0, code);
    Find(s, 0, code)
  }

  /** Searching a suffix is searching the whole buffer from the suffix's start (steps in lockstep). */
  lemma {:induction false} FindShift(data: seq<byte>, pos: int, i: int, code: byte)
    requires 0 <= pos <= |data| && 0 <= i <= |data| - pos
    ensures var r := Find(data[pos..], i, code);
      if r == -1 then Find(data, pos + i, code) == -1 else Find(data, pos + i, code) == r + pos
    decreases |data| - pos - i
  {
    var t := data[pos..];
    if i + 1 < |t| && !(t[i] == 0xFF && t[i + 1] == code) {
      FindShift(data, pos, i + 1, code);
    }
  }

  /** The loop's `bytes.Index(data[pos:], marker) + pos`, or -1 when there is none. */
  lemma IndexShift(data: seq<byte>, pos: int, code: byte)
    requires 0 <= pos <= |data|
    ensures var r := Index(data[pos..], code);
      if r == -1 then Find(data, pos, code) == -1 else Find(data, pos, code) == r + pos
  {
    FindShift(data, pos, 0, code);
  }

  /** Find is determined by the first occurrence. */
  lemma FindIs(s: seq<byte>, from: int, code: byte, r: int)
    requires 0 <= from <= r && MarkerAt(s, r, code)
    requires NoMarkerIn(s, from, r, code)
    ensures Find(s, from, code) == r
  {
    FindSpec(s, from, code);
  }

  /** Half-open byte range [start, end) of one image. */
  datatype Span = Span(start: int, end: int)

  /** A range that holds exactly one image: SOI at the start, EOI closing it, and no EOI in between. */
  predicate Framed(data: seq<byte>, sp: Span) {
    0 <= sp.start && sp.start + 4 <= sp.end <= |data| &&
    MarkerAt(data, sp.start, SOI) && MarkerAt(data, sp.end - 2, EOI) &&
    forall j :: sp.start <= j < sp.end - 2 ==> !MarkerAt(data, j, EOI)
  }

  /**
   * One pass of the loop body from cursor `pos`: the first SOI at or after
   * `pos`, then the first EOI at or after that SOI; None when either is missing.
   */
  function NextSpan(data: seq<byte>, pos: int): (r: Option<Span>)
    requires 0 <= pos <= |data|
    ensures r.Some? ==> pos <= r.value.start <= r.value.end <= |data|
  {
    var s := Find(data, pos, SOI);
    if s == -1 then None
    else
      var e := Find(data, s, EOI);
      if e == -1 then None
      else Some(Span(s, e + 2))
  }

  /** A span found by one pass holds exactly one image, and no SOI lies between the cursor and its start. */
  lemma NextSpanFramed(data: seq<byte>, pos: int)
    requires 0 <= pos <= |data|
    ensures var r := NextSpan(data, pos);
      r.Some? ==> Framed(data, r.value) && NoMarkerIn(data, pos, r.value.start, SOI)
  {
    var s := Find(data, pos, SOI);
    FindSpec(data, pos, SOI);
    if s != -1 {
      FindSpec(data, s, EOI);
      var e := Find(data, s, EOI);
      if e != -1 {
        assert e >= s + 2 by {
          assert !MarkerAt(data, s, EOI);
          assert !MarkerAt(data, s + 1, EOI);
        }
      }
    }
  }

  /** Span k starts at or after the end of span k - 1, with no SOI skipped in between. */
  predicate Linked(data: seq<byte>, r: seq<Span>, k: int)
    requires 0 < k < |r|
  {
    r[k - 1].end <= r[k].start && NoMarkerIn(data, r[k - 1].end, r[k].start, SOI)
  }

  /**
   * The shape of a scan from `pos`: every span holds one framed image, the
   * first is the first SOI at or after `pos`, and each later one is the first
   * SOI at or after the end of the previous one.
   */
  predicate Chained(data: seq<byte>, pos: int, r: seq<Span>) {
    (|r| > 0 ==> pos <= r[0].start && NoMarkerIn(data, pos, r[0].start, SOI)) &&
    (forall k :: 0 <= k < |r| ==> Framed(data, r[k])) &&
    (forall k :: 0 < k < |r| ==> Linked(data, r, k))
  }

  lemma ChainCons(data: seq<byte>, pos: int, sp: Span, rest: seq<Span>)
    requires Framed(data, sp) && pos <= sp.start && NoMarkerIn(data, pos, sp.start, SOI)
    requires Chained(data, sp.end, rest)
    ensures Chained(data, pos, [sp] + rest)
  {
    var r := [sp] + rest;
    forall k | 0 < k < |r|
      ensures Linked(data, r, k)
    {
      if k > 1 {
        assert Linked(data, rest, k - 1);
      }
    }
  }

  /**
   * The ranges the extraction loop slices out when it starts at `pos` and
   * wants at most `budget` more images.
   */
  function Scan(data: seq<byte>, pos: int, budget: nat): (r: seq<Span>)
    requires 0 <= pos <= |data|
    ensures |r| <= budget
    decreases budget
  {
    if budget == 0 then []
    else
      match NextSpan(data, pos)
      case None => []
      case Some(sp) => [sp] + Scan(data, sp.end, budget - 1)
  }

  /** Every scan is chained: framed images, in stream order, with no SOI skipped. */
  lemma {:induction false} ScanChained(data: seq<byte>, pos: int, budget: nat)
    requires 0 <= pos <= |data|
    ensures Chained(data, pos, Scan(data, pos, budget))
    decreases budget
  {
    if budget > 0 {
      match NextSpan(data, pos)
      case None =>
      case Some(sp) =>
        NextSpanFramed(data, pos);
        ScanChained(data, sp.end, budget - 1);
        ChainCons(data, pos, sp, Scan(data, sp.end, budget - 1));
    }
  }

  /** The cursor after the given spans have been consumed from `pos`. */
  function Cursor(pos: int, spans: seq<Span>): int {
    if |spans| == 0 then pos else spans[|spans| - 1].end
  }

  /** The scan stops early only when no complete image is left after the cursor. */
  predicate NoCompleteImage(data: seq<byte>, c: int)
    requires 0 <= c <= |data|
  {
    NextSpan(data, c).None?
  }

  /** No complete image is left after `c` exactly when no SOI at or after `c` is followed by any EOI. */
  lemma NoCompleteImageIff(data: seq<byte>, c: int)
    requires 0 <= c <= |data|
    ensures NoCompleteImage(data, c) <==>
      forall i, k :: c <= i <= k && MarkerAt(data, i, SOI) ==> !MarkerAt(data, k, EOI)
  {
    FindSpec(data, c, SOI);
    var s := Find(data, c, SOI);
    if s != -1 {
      FindSpec(data, s, EOI);
      var e := Find(data, s, EOI);
      if e != -1 {
        assert MarkerAt(data, s, SOI) && MarkerAt(data, e, EOI);
      }
    }
  }

  lemma ScanStops(data: seq<byte>, pos: int, budget: nat)
    requires 0 <= pos <= |data|
    ensures 0 <= Cursor(pos, Scan(data, pos, budget)) <= |data|
    ensures |Scan(data, pos, budget)| < budget ==> NoCompleteImage(data, Cursor(pos, Scan(data, pos, budget)))
    decreases budget
  {
    if budget > 0 {
      var n := NextSpan(data, pos);
      if n.Some? {
        var sp := n.value;
        ScanStops(data, sp.end, budget - 1);
        var rest := Scan(data, sp.end, budget - 1);
        assert Scan(data, pos, budget) == [sp] + rest;
        assert Cursor(pos, [sp] + rest) == Cursor(sp.end, rest);
      } else {
        assert Scan(data, pos, budget) == [];
      }
    }
  }

  /** In a chained list of spans an earlier range ends before a later one begins, so no two overlap. */
  lemma {:induction false} ChainedDisjoint(data: seq<byte>, pos: int, r: seq<Span>, i: int, j: int)
    requires Chained(data, pos, r)
    requires 0 <= i < j < |r|
    ensures r[i].end <= r[j].start
    decreases j - i
  {
    assert Linked(data, r, i + 1);
    if i + 1 < j {
      ChainedDisjoint(data, pos, r, i + 1, j);
      assert Framed(data, r[i + 1]);
    }
  }

  /** The ranges of one scan never overlap, and come in stream order. */
  lemma ScanDisjoint(data: seq<byte>, pos: int, budget: nat, i: int, j: int)
    requires 0 <= pos <= |data|
    requires 0 <= i < j < |Scan(data, pos, budget)|
    ensures Scan(data, pos, budget)[i].end <= Scan(data, pos, budget)[j].start
  {
    ScanChained(data, pos, budget);
    ChainedDisjoint(data, pos, Scan(data, pos, budget), i, j);
  }

  /** The bytes of one span. */
  function Slice(data: seq<byte>, sp: Span): (b: seq<byte>)
    requires 0 <= sp.start <= sp.end <= |data|
    ensures |b| == sp.end - sp.start
  {
    data[sp.start..sp.end]
  }

  /** The bytes of every span in order. */
  predicate InBounds(data: seq<byte>, spans: seq<Span>) {
    forall k :: 0 <= k < |spans| ==> 0 <= spans[k].start <= spans[k].end <= |data|
  }

  lemma ScanInBounds(data: seq<byte>, pos: int, budget: nat)
    requires 0 <= pos <= |data|
    ensures InBounds(data, Scan(data, pos, budget))
  {
    ScanChained(data, pos, budget);
    var r := Scan(data, pos, budget);
    forall k | 0 <= k < |r|
      ensures 0 <= r[k].start <= r[k].end <= |data|
    {
      assert Framed(data, r[k]);
    }
  }

  function Slices(data: seq<byte>, spans: seq<Span>): (r: seq<seq<byte>>)
    requires InBounds(data, spans)
    ensures |r| == |spans|
  {
    if |spans| == 0 then []
    else [Slice(data, spans[0])] + Slices(data, spans[1..])
  }

  /** Slice k of the list is the bytes of span k. */
  lemma {:induction false} SlicesAt(data: seq<byte>, spans: seq<Span>, k: int)
    requires InBounds(data, spans) && 0 <= k < |spans|
    ensures Slices(data, spans)[k] == data[spans[k].start..spans[k].end]
    decreases k
  {
    if k > 0 {
      SlicesAt(data, spans[1..], k - 1);
    }
  }

  /** One image as ffmpeg writes it: SOI first, EOI last, and no EOI marker before the final one. */
  predicate WellFormedImage(img: seq<byte>) {
    |img| >= 4 && MarkerAt(img, 0, SOI) && MarkerAt(img, |img| - 2, EOI) &&
    forall j :: 0 <= j < |img| - 2 ==> !MarkerAt(img, j, EOI)
  }

  function Concat(imgs: seq<seq<byte>>): seq<byte> {
    if |imgs| == 0 then [] else imgs[0] + Concat(imgs[1..])
  }

  /** A buffer without an EOI marker from `pos` on yields no image there. */
  lemma NextSpanOfTail(data: seq<byte>, pos: int)
    requires 0 <= pos <= |data|
    requires NoMarkerIn(data, pos, |data|, EOI)
    ensures NextSpan(data, pos).None?
  {
    var s := Find(data, pos, SOI);
    if s != -1 {
      FindSpec(data, s, EOI);
    }
  }

  /** A well-formed image at the cursor is the next span, whatever follows it. */
  lemma NextSpanAt(data: seq<byte>, pos: int, img: seq<byte>)
    requires 0 <= pos && pos + |img| <= |data|
    requires data[pos..pos + |img|] == img
    requires WellFormedImage(img)
    ensures NextSpan(data, pos) == Some(Span(pos, pos + |img|))
  {
    assert forall j :: 0 <= j && j + 1 < |img| ==> (MarkerAt(data, pos + j, EOI) <==> MarkerAt(img, j, EOI));
    assert MarkerAt(data, pos, SOI) by { assert MarkerAt(img, 0, SOI); }
    FindIs(data, pos, SOI, pos);
    assert MarkerAt(data, pos + |img| - 2, EOI) by { assert MarkerAt(img, |img| - 2, EOI); }
    assert NoMarkerIn(data, pos, pos + |img| - 2, EOI) by {
      forall j | pos <= j < pos + |img| - 2
        ensures !MarkerAt(data, j, EOI)
      {
        assert !MarkerAt(img, j - pos, EOI);
      }
    }
    FindIs(data, pos, EOI, pos + |img| - 2);
  }

  lemma ScanNone(data: seq<byte>, pos: int, budget: nat)
    requires 0 <= pos <= |data|
    requires NextSpan(data, pos).None?
    ensures Scan(data, pos, budget) == []
  {
  }

  lemma ScanSome(data: seq<byte>, pos: int, budget: nat, sp: Span)
    requires 0 <= pos <= |data| && budget > 0
    requires NextSpan(data, pos) == Some(sp)
    ensures sp.end <= |data|
    ensures Scan(data, pos, budget) == [sp] + Scan(data, sp.end, budget - 1)
  {
  }

  /** A well-formed image at the cursor is the first span the scan returns. */
  lemma ScanAtImage(data: seq<byte>, pos: int, img: seq<byte>, budget: nat)
    requires 0 <= pos && pos + |img| <= |data| && budget > 0
    requires data[pos..pos + |img|] == img
    requires WellFormedImage(img)
    ensures Scan(data, pos, budget) == [Span(pos, pos + |img|)] + Scan(data, pos + |img|, budget - 1)
  {
    NextSpanAt(data, pos, img);
    ScanSome(data, pos, budget, Span(pos, pos + |img|));
  }

  /**
   * The buffer from `pos` on holds the given well-formed images one after
   * the other, and after them no EOI marker.
   */
  predicate Laid(data: seq<byte>, pos: int, imgs: seq<seq<byte>>)
    decreases |imgs|
  {
    0 <= pos <= |data| &&
    if |imgs| == 0 then NoMarkerIn(data, pos, |data|, EOI)
    else
      WellFormedImage(imgs[0]) && pos + |imgs[0]| <= |data| &&
      data[pos..pos + |imgs[0]|] == imgs[0] && Laid(data, pos + |imgs[0]|, imgs[1..])
  }

  /** The ranges that consecutive images starting at `pos` occupy. */
  function Offsets(pos: int, imgs: seq<seq<byte>>): (r: seq<Span>)
    ensures |r| == |imgs|
    decreases |imgs|
  {
    if |imgs| == 0 then []
    else [Span(pos, pos + |imgs[0]|)] + Offsets(pos + |imgs[0]|, imgs[1..])
  }

  lemma ScanOfTail(data: seq<byte>, pos: int, budget: nat)
    requires Laid(data, pos, [])
    ensures Scan(data, pos, budget) == Offsets(pos, [])
  {
    NextSpanOfTail(data, pos);
    ScanNone(data, pos, budget);
  }

  lemma LaidRest(data: seq<byte>, pos: int, imgs: seq<seq<byte>>)
    requires Laid(data, pos, imgs) && |imgs| > 0
    ensures 0 <= pos && pos + |imgs[0]| <= |data|
    ensures data[pos..pos + |imgs[0]|] == imgs[0] && WellFormedImage(imgs[0])
    ensures Laid(data, pos + |imgs[0]|, imgs[1..])
  {
  }

  lemma OffsetsCons(pos: int, imgs: seq<seq<byte>>)
    requires |imgs| > 0
    ensures Offsets(pos, imgs) == [Span(pos, pos + |imgs[0]|)] + Offsets(pos + |imgs[0]|, imgs[1..])
  {
  }

  /** The inductive step: if the scan after the first image finds the rest, the scan from `pos` finds them all. */
  lemma ScanFindsStep(data: seq<byte>, pos: int, imgs: seq<seq<byte>>, budget: nat)
    requires Laid(data, pos, imgs) && 0 < |imgs| <= budget
    requires pos + |imgs[0]| <= |data|
    requires Scan(data, pos + |imgs[0]|, budget - 1) == Offsets(pos + |imgs[0]|, imgs[1..])
    ensures Scan(data, pos, budget) == Offsets(pos, imgs)
  {
    LaidRest(data, pos, imgs);
    ScanAtImage(data, pos, imgs[0], budget);
    OffsetsCons(pos, imgs);
  }

  /** With the images laid out from `pos`, the scan finds exactly their ranges. */
  lemma {:induction false} ScanFindsImages(data: seq<byte>, pos: int, imgs: seq<seq<byte>>, budget: nat)
    requires Laid(data, pos, imgs) && |imgs| <= budget
    ensures Scan(data, pos, budget) == Offsets(pos, imgs)
    decreases |imgs|
  {
    if |imgs| == 0 {
      ScanOfTail(data, pos, budget);
    } else {
      LaidRest(data, pos, imgs);
      ScanFindsImages(data, pos + |imgs[0]|, imgs[1..], budget - 1);
      ScanFindsStep(data, pos, imgs, budget);
    }
  }

  /** Slicing laid-out images at their offsets gives the images back. */
  lemma {:induction false} SlicesOfOffsets(data: seq<byte>, pos: int, imgs: seq<seq<byte>>)
    requires Laid(data, pos, imgs)
    ensures InBounds(data, Offsets(pos, imgs))
    ensures Slices(data, Offsets(pos, imgs)) == imgs
    decreases |imgs|
  {
    if |imgs| > 0 {
      var e := pos + |imgs[0]|;
      SlicesOfOffsets(data, e, imgs[1..]);
      var r := Offsets(pos, imgs);
      var rr := Offsets(e, imgs[1..]);
      assert r == [Span(pos, e)] + rr;
      assert r[1..] == rr;
      assert Slices(data, r) == [imgs[0]] + imgs[1..];
      assert imgs == [imgs[0]] + imgs[1..];
    }
  }

  /** A buffer that is a concatenation of well-formed images and an EOI-free tail has them laid out. */
  lemma {:induction false} ConcatIsLaid(data: seq<byte>, pos: int, imgs: seq<seq<byte>>, tail: seq<byte>)
    requires 0 <= pos <= |data|
    requires data[pos..] == Concat(imgs) + tail
    requires forall k :: 0 <= k < |imgs| ==> WellFormedImage(imgs[k])
    requires forall j :: 0 <= j < |tail| ==> !MarkerAt(tail, j, EOI)
    ensures Laid(data, pos, imgs)
    decreases |imgs|
  {
    if |imgs| == 0 {
      assert forall j :: pos <= j < |data| ==> (MarkerAt(data, j, EOI) <==> MarkerAt(tail, j - pos, EOI));
    } else {
      var e := pos + |imgs[0]|;
      var more := imgs[1..];
      assert data[pos..] == imgs[0] + (Concat(more) + tail);
      assert data[pos..e] == data[pos..][..|imgs[0]|];
      assert data[e..] == data[pos..][|imgs[0]|..];
      forall k | 0 <= k < |more|
        ensures WellFormedImage(more[k])
      {
        assert more[k] == imgs[k + 1];
      }
      ConcatIsLaid(data, e, more, tail);
    }
  }

  /**
   * Round trip: when the bytes from `pos` on are well-formed images followed by
   * a tail without any EOI marker (nothing, or a truncated image), and the
   * budget covers the images, the scan returns exactly those images, and they
   * together with the tail make up the buffer.
   */
  lemma ScanImages(data: seq<byte>, pos: int, imgs: seq<seq<byte>>, tail: seq<byte>, budget: nat)
    requires 0 <= pos <= |data|
    requires data[pos..] == Concat(imgs) + tail
    requires forall k :: 0 <= k < |imgs| ==> WellFormedImage(imgs[k])
    requires forall j :: 0 <= j < |tail| ==> !MarkerAt(tail, j, EOI)
    requires |imgs| <= budget
    ensures InBounds(data, Scan(data, pos, budget))
    ensures Slices(data, Scan(data, pos, budget)) == imgs
    ensures Concat(Slices(data, Scan(data, pos, budget))) + tail == data[pos..]
  {
    ConcatIsLaid(data, pos, imgs, tail);
    ScanFindsImages(data, pos, imgs, budget);
    ScanInBounds(data, pos, budget);
    SlicesOfOffsets(data, pos, imgs);
  }
}
