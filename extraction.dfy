/**
 * Frame extraction (processor.go, extractFrames): one ffmpeg run writes every
 * frame as a JPEG to stdout; the buffer is cut into images with the scan of
 * module Demux, image k is decoded into slot k, and the outcome is checked in
 * a fixed order: frame count, ffmpeg failure, decode failure, short stream.
 */
module Extraction {
  import opened Results
  import opened Demux

  /** What the single ffmpeg process left behind. */
  datatype FfmpegRun =
    | Completed(stdout: seq<byte>, stderr: string)
    | Failed(reason: string, stderr: string)

  datatype ExtractError =
    | NoFrames                                           // columns * rows <= 0
    | FfmpegFailed(reason: string, stderr: string)       // the process did not succeed
    | DecodeFailed(index: int)                           // image `index` did not decode
    | ShortStream(found: int, expected: int, stderr: string)  // fewer images than slots

  /** The decoder applied to each image. */
  function DecodeAll<Img>(imgs: seq<seq<byte>>, decode: seq<byte> -> Option<Img>): seq<Option<Img>> {
    seq(|imgs|, k requires 0 <= k < |imgs| => decode(imgs[k]))
  }

  /** The indices of the empty slots, in the order a sequential decoder reports them. */
  function Failures<T>(slots: seq<Option<T>>): seq<int>
    decreases |slots|
  {
    if |slots| == 0 then []
    else Failures(slots[..|slots| - 1]) + (if slots[|slots| - 1].None? then [|slots| - 1] else [])
  }

  /** Every reported index is an empty slot. */
  lemma {:induction false} FailuresAreEmpty<T>(slots: seq<Option<T>>)
    ensures forall i :: 0 <= i < |Failures(slots)| ==>
      0 <= Failures(slots)[i] < |slots| && slots[Failures(slots)[i]].None?
    decreases |slots|
  {
    if |slots| > 0 {
      var init := slots[..|slots| - 1];
      FailuresAreEmpty(init);
      assert forall k :: 0 <= k < |init| ==> init[k] == slots[k];
    }
  }

  /** Every empty slot is reported. */
  lemma {:induction false} EmptyAreFailures<T>(slots: seq<Option<T>>)
    ensures forall k :: 0 <= k < |slots| && slots[k].None? ==> k in Failures(slots)
    decreases |slots|
  {
    if |slots| > 0 {
      var init := slots[..|slots| - 1];
      EmptyAreFailures(init);
      assert forall k :: 0 <= k < |init| ==> init[k] == slots[k];
    }
  }

  /** Reported indices increase and stay below the number of slots. */
  lemma {:induction false} FailuresIncrease<T>(slots: seq<Option<T>>)
    ensures forall i :: 0 <= i < |Failures(slots)| ==> Failures(slots)[i] < |slots|
    ensures forall i, j :: 0 <= i < j < |Failures(slots)| ==> Failures(slots)[i] < Failures(slots)[j]
    decreases |slots|
  {
    if |slots| > 0 {
      FailuresIncrease(slots[..|slots| - 1]);
    }
  }

  /** Failures lists exactly the empty slots, each once, in increasing order. */
  lemma FailuresSpec<T>(slots: seq<Option<T>>)
    ensures forall i :: 0 <= i < |Failures(slots)| ==>
      0 <= Failures(slots)[i] < |slots| && slots[Failures(slots)[i]].None?
    ensures forall k :: 0 <= k < |slots| && slots[k].None? ==> k in Failures(slots)
    ensures forall i, j :: 0 <= i < j < |Failures(slots)| ==> Failures(slots)[i] < Failures(slots)[j]
  {
    FailuresAreEmpty(slots);
    EmptyAreFailures(slots);
    FailuresIncrease(slots);
  }

  /** The first reported failure is the lowest empty slot; no failure means every slot is filled. */
  lemma FirstFailure<T>(slots: seq<Option<T>>)
    ensures |Failures(slots)| > 0 ==>
      var k := Failures(slots)[0];
      0 <= k < |slots| && slots[k].None? && forall j :: 0 <= j < k ==> slots[j].Some?
    ensures |Failures(slots)| == 0 <==> forall k :: 0 <= k < |slots| ==> slots[k].Some?
  {
    FailuresSpec(slots);
  }

  /** Appending a slot reports it after the earlier ones. */
  lemma FailuresSnoc<T>(slots: seq<Option<T>>, x: Option<T>)
    ensures Failures(slots + [x]) == Failures(slots) + (if x.None? then [|slots|] else [])
  {
    assert (slots + [x])[..|slots|] == slots;
  }

  /** The images the loop cuts out of `data` when it wants `numFrames` of them. */
  function Images(data: seq<byte>, numFrames: nat): seq<seq<byte>> {
    ScanInBounds(data, 0, numFrames);
    Slices(data, Scan(data, 0, numFrames))
  }

  /** The slots the loop fills from `data`, one per image found. */
  function ScanSlots<Img>(data: seq<byte>, numFrames: nat, decode: seq<byte> -> Option<Img>): seq<Option<Img>> {
    DecodeAll(Images(data, numFrames), decode)
  }

  /**
   * The outcome of extractFrames (processor.go:91-95, 153-155, 157-214) as a
   * function of the frame count, the ffmpeg run and the decoder.
   */
  function ExtractSpec<Img>(numFrames: int, run: FfmpegRun, decode: seq<byte> -> Option<Img>): Result<seq<Option<Img>>, ExtractError> {
    if numFrames <= 0 then Err(NoFrames)
    else if run.Failed? then Err(FfmpegFailed(run.reason, run.stderr))
    else
      var slots := ScanSlots(run.stdout, numFrames, decode);
      var fails := Failures(slots);
      if |fails| > 0 then Err(DecodeFailed(fails[0]))
      else if |slots| != numFrames then Err(ShortStream(|slots|, numFrames, run.stderr))
      else Ok(slots)
  }

  /** The extraction loop, with decoding done in order and frames kept in an array of slots. */
  method ExtractFrames<Img>(columns: int, rows: int, run: FfmpegRun, decode: seq<byte> -> Option<Img>)
    returns (r: Result<seq<Option<Img>>, ExtractError>)
    ensures r == ExtractSpec(columns * rows, run, decode)
  {
    var numFrames := columns * rows;
    if numFrames <= 0 {
      return Err(NoFrames);
    }
    if run.Failed? {
      return Err(FfmpegFailed(run.reason, run.stderr));
    }
    var data := run.stdout;
    var frames, errs, frameIndex, searchPos, spans, slots := GatherFrames(data, numFrames, decode);
    ExtractOutcome(numFrames, run, decode, spans, slots, errs, searchPos);
    if |errs| > 0 {
      return Err(DecodeFailed(errs[0]));
    }
    if frameIndex != numFrames {
      return Err(ShortStream(frameIndex, numFrames, run.stderr));
    }
    SlotsHoldAll(frames[..], slots);
    r := Ok(frames[..]);
  }

  /**
   * The demux loop (processor.go:165-202): up to `numFrames` images are cut
   * from the stream and decoded into their slots; `errs` collects the slots
   * whose decoding failed, in order, and the loop stops early when no
   * complete image is left.
   */
  method GatherFrames<Img>(data: seq<byte>, numFrames: int, decode: seq<byte> -> Option<Img>)
    returns (frames: array<Option<Img>>, errs: seq<int>, frameIndex: int, searchPos: int,
             ghost spans: seq<Span>, ghost slots: seq<Option<Img>>)
    requires numFrames > 0
    ensures fresh(frames) && frames.Length == numFrames && SlotsHold(frames[..], slots)
    ensures 0 <= frameIndex <= numFrames && |slots| == frameIndex
    ensures Gathered(data, decode, spans, slots, errs, searchPos)
    ensures frameIndex == numFrames || NextSpan(data, searchPos).None?
  {
    frames := new Option<Img>[numFrames](_ => None);
    errs := [];
    searchPos := 0;
    frameIndex := 0;
    spans := [];
    slots := [];
    while frameIndex < numFrames
      invariant 0 <= frameIndex <= numFrames && |slots| == frameIndex
      invariant Gathered(data, decode, spans, slots, errs, searchPos)
      invariant frames.Length == numFrames && SlotsHold(frames[..], slots)
      decreases numFrames - frameIndex
    {
      var found, errs', pos';
      ghost var spans', slots';
      found, errs', pos', spans', slots' := GatherStep(data, decode, frames, frameIndex, errs, searchPos, spans, slots);
      if !found {
        break;
      }
      errs, searchPos, spans, slots := errs', pos', spans', slots';
      frameIndex := frameIndex + 1;
    }
  }

  /**
   * One pass of the demux loop (processor.go:171-200): the next image is cut
   * from the stream at the cursor and decoded into the next slot, or the loop
   * learns that no complete image is left.
   */
  method GatherStep<Img>(data: seq<byte>, decode: seq<byte> -> Option<Img>, frames: array<Option<Img>>,
                         frameIndex: int, errs: seq<int>, searchPos: int, ghost spans: seq<Span>, ghost slots: seq<Option<Img>>)
    returns (found: bool, errs': seq<int>, searchPos': int, ghost spans': seq<Span>, ghost slots': seq<Option<Img>>)
    requires Gathered(data, decode, spans, slots, errs, searchPos)
    requires frameIndex == |slots| < frames.Length && SlotsHold(frames[..], slots)
    modifies frames
    ensures !found ==> NextSpan(data, searchPos).None? && frames[..] == old(frames[..])
    ensures found ==> |slots'| == |slots| + 1 && Gathered(data, decode, spans', slots', errs', searchPos')
    ensures found ==> SlotsHold(frames[..], slots')
  {
    var soi, eoi;
    found, soi, eoi := FindImage(data, searchPos);
    errs', searchPos', spans', slots' := errs, searchPos, spans, slots;
    if !found {
      return;
    }
    var imgData := data[soi..eoi + 2];
    searchPos' := eoi + 2;
    ghost var before := frames[..];
    var failed := DecodeFrame(frames, frameIndex, imgData, decode);
    ghost var img := decode(imgData);
    SlotsHoldSnoc(before, frames[..], slots, img, failed);
    if failed {
      errs' := errs + [frameIndex];
    }
    spans' := spans + [Span(soi, eoi + 2)];
    slots' := slots + [img];
    Collect(data, decode, spans, slots, errs, searchPos, Span(soi, eoi + 2), img, spans', slots', errs', searchPos');
  }

  /**
   * One search step of the loop (processor.go:171-182): the next SOI from the
   * cursor, then the next EOI from that SOI; it reports the image's range as
   * `[soi, eoi + 2)`, which is the next span of the scan, or that there is none.
   */
  method FindImage(data: seq<byte>, searchPos: int) returns (found: bool, soi: int, eoi: int)
    requires 0 <= searchPos <= |data|
    ensures found <==> NextSpan(data, searchPos).Some?
    ensures found ==> NextSpan(data, searchPos) == Some(Span(soi, eoi + 2))
    ensures found ==> searchPos <= soi && soi + 4 <= eoi + 2 <= |data|
  {
    soi := Index(data[searchPos..], SOI);
    IndexShift(data, searchPos, SOI);
    eoi := -1;
    if soi == -1 {
      return false, soi, eoi;
    }
    soi := soi + searchPos;
    eoi := Index(data[soi..], EOI);
    IndexShift(data, soi, EOI);
    if eoi == -1 {
      return false, soi, eoi;
    }
    eoi := eoi + soi;
    NextSpanFramed(data, searchPos);
    found := true;
  }

  /**
   * The decoding goroutine (processor.go:188-196): slot `index` receives the
   * decoded image, or stays as it was when decoding fails.
   */
  method DecodeFrame<Img>(frames: array<Option<Img>>, index: int, bytes: seq<byte>, decode: seq<byte> -> Option<Img>)
    returns (failed: bool)
    requires 0 <= index < frames.Length
    modifies frames
    ensures failed <==> decode(bytes).None?
    ensures frames[..] == if failed then old(frames[..]) else old(frames[..])[index := decode(bytes)]
  {
    var img := decode(bytes);
    if img.None? {
      return true;
    }
    frames[index] := img;
    failed := false;
  }

  /** The array holds the decoded slots first and empty slots after them. */
  ghost predicate SlotsHold<Img>(frames: seq<Option<Img>>, slots: seq<Option<Img>>) {
    |slots| <= |frames| &&
    (forall k :: 0 <= k < |slots| ==> frames[k] == slots[k]) &&
    (forall k :: |slots| <= k < |frames| ==> frames[k].None?)
  }

  /** Writing the next slot only on success keeps the array in step with the slots. */
  lemma SlotsHoldSnoc<Img>(before: seq<Option<Img>>, after: seq<Option<Img>>, slots: seq<Option<Img>>,
                           img: Option<Img>, failed: bool)
    requires SlotsHold(before, slots) && |slots| < |before|
    requires failed <==> img.None?
    requires after == if failed then before else before[|slots| := img]
    ensures SlotsHold(after, slots + [img])
  {
  }

  /** Once every slot is decoded the array is the slots. */
  lemma SlotsHoldAll<Img>(frames: seq<Option<Img>>, slots: seq<Option<Img>>)
    requires SlotsHold(frames, slots) && |slots| == |frames|
    ensures frames == slots
  {
  }

  /** Slot k holds the decode of span k, for every span found so far. */
  ghost predicate Filled<Img>(data: seq<byte>, spans: seq<Span>, slots: seq<Option<Img>>, decode: seq<byte> -> Option<Img>) {
    |slots| == |spans| && InBounds(data, spans) &&
    forall k :: 0 <= k < |spans| ==> slots[k] == decode(data[spans[k].start..spans[k].end])
  }

  lemma FilledSnoc<Img>(data: seq<byte>, spans: seq<Span>, slots: seq<Option<Img>>, decode: seq<byte> -> Option<Img>,
                        sp: Span, img: Option<Img>)
    requires Filled(data, spans, slots, decode)
    requires 0 <= sp.start <= sp.end <= |data| && img == decode(data[sp.start..sp.end])
    ensures Filled(data, spans + [sp], slots + [img], decode)
  {
  }

  /**
   * The spans are what successive passes of the loop find, starting at `pos`
   * and each starting where the previous one ended.
   */
  ghost predicate Walk(data: seq<byte>, pos: int, spans: seq<Span>)
    decreases |spans|
  {
    0 <= pos <= |data| &&
    (|spans| == 0 || (NextSpan(data, pos) == Some(spans[0]) && Walk(data, spans[0].end, spans[1..])))
  }

  /** One more pass from the cursor extends the walk. */
  lemma {:induction false} WalkSnoc(data: seq<byte>, pos: int, spans: seq<Span>, sp: Span)
    requires Walk(data, pos, spans) && 0 <= Cursor(pos, spans) <= |data|
    requires NextSpan(data, Cursor(pos, spans)) == Some(sp)
    ensures Walk(data, pos, spans + [sp])
    decreases |spans|
  {
    if |spans| > 0 {
      assert Cursor(spans[0].end, spans[1..]) == Cursor(pos, spans);
      WalkSnoc(data, spans[0].end, spans[1..], sp);
      assert (spans + [sp])[1..] == spans[1..] + [sp];
    }
  }

  /** A walk is the scan, once the budget is used up or the next pass finds nothing. */
  lemma {:induction false} WalkIsScan(data: seq<byte>, pos: int, spans: seq<Span>, budget: nat)
    requires Walk(data, pos, spans) && |spans| <= budget && 0 <= Cursor(pos, spans) <= |data|
    requires |spans| == budget || NextSpan(data, Cursor(pos, spans)).None?
    ensures Scan(data, pos, budget) == spans
    decreases |spans|
  {
    if |spans| == 0 {
      if budget > 0 {
        ScanNone(data, pos, budget);
      }
    } else {
      assert Cursor(spans[0].end, spans[1..]) == Cursor(pos, spans);
      WalkIsScan(data, spans[0].end, spans[1..], budget - 1);
      ScanSome(data, pos, budget, spans[0]);
      assert [spans[0]] + spans[1..] == spans;
    }
  }

  /**
   * What the loop has collected: spans found pass by pass from the start of
   * the buffer with the cursor after them, slot k holding the decode of span
   * k, and the failures reported in slot order.
   */
  ghost predicate Gathered<Img>(data: seq<byte>, decode: seq<byte> -> Option<Img>,
                                spans: seq<Span>, slots: seq<Option<Img>>, errs: seq<int>, pos: int) {
    Walk(data, 0, spans) && pos == Cursor(0, spans) && 0 <= pos <= |data| &&
    Filled(data, spans, slots, decode) && errs == Failures(slots)
  }

  /** One pass of the loop body keeps what the loop has collected consistent. */
  lemma Collect<Img>(data: seq<byte>, decode: seq<byte> -> Option<Img>,
                     spans: seq<Span>, slots: seq<Option<Img>>, errs: seq<int>, pos: int,
                     sp: Span, img: Option<Img>,
                     spans': seq<Span>, slots': seq<Option<Img>>, errs': seq<int>, pos': int)
    requires Gathered(data, decode, spans, slots, errs, pos)
    requires NextSpan(data, pos) == Some(sp) && img == decode(data[sp.start..sp.end])
    requires spans' == spans + [sp] && slots' == slots + [img] && pos' == sp.end
    requires errs' == if img.None? then errs + [|slots|] else errs
    ensures Gathered(data, decode, spans', slots', errs', pos')
  {
    WalkSnoc(data, 0, spans, sp);
    FilledSnoc(data, spans, slots, decode, sp, img);
    FailuresSnoc(slots, img);
  }

  /** What the checks after the loop return, given what the loop collected. */
  lemma ExtractOutcome<Img>(numFrames: int, run: FfmpegRun, decode: seq<byte> -> Option<Img>,
                            spans: seq<Span>, slots: seq<Option<Img>>, errs: seq<int>, pos: int)
    requires numFrames > 0 && run.Completed? && |spans| <= numFrames
    requires Gathered(run.stdout, decode, spans, slots, errs, pos)
    requires |spans| == numFrames || NextSpan(run.stdout, pos).None?
    ensures ExtractSpec(numFrames, run, decode) ==
      if |errs| > 0 then Err(DecodeFailed(errs[0]))
      else if |spans| != numFrames then Err(ShortStream(|spans|, numFrames, run.stderr))
      else Ok(slots)
  {
    WalkIsScan(run.stdout, 0, spans, numFrames);
    ExtractSlots(run.stdout, numFrames, decode, spans, slots);
  }

  /** The slots the loop filled are the decodes of the scanned slices. */
  lemma ExtractSlots<Img>(data: seq<byte>, numFrames: nat, decode: seq<byte> -> Option<Img>,
                          spans: seq<Span>, slots: seq<Option<Img>>)
    requires spans == Scan(data, 0, numFrames) && Filled(data, spans, slots, decode)
    ensures slots == ScanSlots(data, numFrames, decode)
  {
    forall k | 0 <= k < |spans|
      ensures slots[k] == ScanSlots(data, numFrames, decode)[k]
    {
      SlicesAt(data, spans, k);
    }
  }

  // Properties of the extraction outcome.

  /** A successful extraction fills every slot, slot k with the decode of the k-th framed image, in stream order. */
  lemma ExtractOk<Img>(numFrames: int, run: FfmpegRun, decode: seq<byte> -> Option<Img>, k: int)
    requires ExtractSpec(numFrames, run, decode).Ok? && 0 <= k < numFrames
    ensures run.Completed? && |Scan(run.stdout, 0, numFrames)| == numFrames
    ensures |ExtractSpec(numFrames, run, decode).value| == numFrames
    ensures Framed(run.stdout, Scan(run.stdout, 0, numFrames)[k])
    ensures ExtractSpec(numFrames, run, decode).value[k].Some?
    ensures ExtractSpec(numFrames, run, decode).value[k] ==
      decode(run.stdout[Scan(run.stdout, 0, numFrames)[k].start..Scan(run.stdout, 0, numFrames)[k].end])
    ensures k > 0 ==> Scan(run.stdout, 0, numFrames)[k - 1].end <= Scan(run.stdout, 0, numFrames)[k].start
  {
    var data := run.stdout;
    var spans := Scan(data, 0, numFrames);
    ScanChained(data, 0, numFrames);
    ScanInBounds(data, 0, numFrames);
    SlicesAt(data, spans, k);
    FirstFailure(ScanSlots(data, numFrames, decode));
    if k > 0 {
      ScanDisjoint(data, 0, numFrames, k - 1, k);
    }
  }

  /**
   * A decode failure is reported for image k exactly when image k is the first
   * that does not decode, whether or not the stream holds enough images.
   */
  lemma DecodeFailedIff<Img>(numFrames: int, run: FfmpegRun, decode: seq<byte> -> Option<Img>, k: int)
    requires numFrames > 0 && run.Completed?
    ensures ExtractSpec(numFrames, run, decode) == Err(DecodeFailed(k)) <==>
      0 <= k < |Scan(run.stdout, 0, numFrames)| &&
      decode(Images(run.stdout, numFrames)[k]).None? &&
      forall j :: 0 <= j < k ==> decode(Images(run.stdout, numFrames)[j]).Some?
  {
    var imgs := Images(run.stdout, numFrames);
    var slots := ScanSlots(run.stdout, numFrames, decode);
    FirstFailure(slots);
    var f := Failures(slots);
    assert ExtractSpec(numFrames, run, decode) == Err(DecodeFailed(k)) <==> |f| > 0 && f[0] == k;
    if 0 <= k < |imgs| && decode(imgs[k]).None? && forall j :: 0 <= j < k ==> decode(imgs[j]).Some? {
      assert slots[k].None?;
    }
    if |f| > 0 && f[0] == k {
      forall j | 0 <= j < k
        ensures decode(imgs[j]).Some?
      {
        assert slots[j].Some?;
      }
    }
  }

  /**
   * A short stream is reported only when every image found decoded, fewer were
   * found than requested, and no complete image is left after the last one.
   */
  lemma ShortStreamMeans<Img>(numFrames: int, run: FfmpegRun, decode: seq<byte> -> Option<Img>,
                              found: int, expected: int, stderr: string)
    requires ExtractSpec(numFrames, run, decode) == Err(ShortStream(found, expected, stderr))
    ensures run.Completed? && stderr == run.stderr && expected == numFrames
    ensures found == |Scan(run.stdout, 0, numFrames)| < numFrames
    ensures 0 <= Cursor(0, Scan(run.stdout, 0, numFrames)) <= |run.stdout| &&
      NoCompleteImage(run.stdout, Cursor(0, Scan(run.stdout, 0, numFrames)))
    ensures forall k :: 0 <= k < found ==> decode(Images(run.stdout, numFrames)[k]).Some?
  {
    var slots := ScanSlots(run.stdout, numFrames, decode);
    FirstFailure(slots);
    ScanStops(run.stdout, 0, numFrames);
    forall k | 0 <= k < found
      ensures decode(Images(run.stdout, numFrames)[k]).Some?
    {
      assert slots[k].Some?;
    }
  }

  /**
   * Round trip: when ffmpeg writes well-formed images, possibly followed by a
   * truncated tail without an EOI marker, and there are no more images than
   * slots, extraction decodes exactly those images, in order.
   */
  lemma ExtractImages<Img>(numFrames: int, imgs: seq<seq<byte>>, tail: seq<byte>, stderr: string,
                           decode: seq<byte> -> Option<Img>)
    requires 0 < numFrames && |imgs| <= numFrames
    requires forall k :: 0 <= k < |imgs| ==> WellFormedImage(imgs[k])
    requires forall j :: 0 <= j < |tail| ==> !MarkerAt(tail, j, EOI)
    ensures var decoded := DecodeAll(imgs, decode);
      ExtractSpec(numFrames, Completed(Concat(imgs) + tail, stderr), decode) ==
        if |Failures(decoded)| > 0 then Err(DecodeFailed(Failures(decoded)[0]))
        else if |imgs| < numFrames then Err(ShortStream(|imgs|, numFrames, stderr))
        else Ok(decoded)
  {
    var data := Concat(imgs) + tail;
    assert data[0..] == data;
    ScanImages(data, 0, imgs, tail, numFrames);
  }
}
