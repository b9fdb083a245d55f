/**
 * GetVideoInfo after ffprobe has run: the format record and the stream
 * list, already unmarshalled, become the simplified video record.  A
 * video stream is taken while no video codec has been recorded yet, so the
 * first video stream with a codec name wins, and the last video stream
 * stands in when none has one; the first audio stream with a codec name
 * gives the audio codec.
 */
module Ffprobe {
  import opened Results
  import opened GoStrconv

  datatype Stream = Stream(CodecType: string, CodecName: string, Width: int, Height: int, AvgFrameRate: string)

  datatype Format = Format(Duration: string, Size: string, Filename: string, BitRate: string)

  datatype ProbeOutput = ProbeOutput(Streams: seq<Stream>, Format: Format)

  /** What running ffprobe and unmarshalling its JSON produced. */
  datatype ProbeRun =
    | Parsed(output: ProbeOutput)
    | RunFailed(reason: string, stderr: string)
    | BadJson(reason: string)

  datatype VideoInfo = VideoInfo(
    Path: string,
    Duration: real,
    Width: int,
    Height: int,
    FileSize: int,
    VideoCodec: string,
    AudioCodec: string,
    BitRate: string,
    AvgFrameRate: string)

  datatype ProbeError =
    | ProbeFailed(reason: string, stderr: string)
    | JsonFailed(reason: string)
    | NoDimensions

  predicate IsVideo(s: Stream) {
    s.CodecType == "video"
  }

  predicate IsAudio(s: Stream) {
    s.CodecType == "audio"
  }

  /** A video stream that names its codec. */
  predicate NamedVideo(s: Stream) {
    IsVideo(s) && s.CodecName != ""
  }

  /** An audio stream that names its codec. */
  predicate NamedAudio(s: Stream) {
    IsAudio(s) && s.CodecName != ""
  }

  /** The first video stream with a codec name. */
  function FirstNamedVideo(ss: seq<Stream>): Option<Stream>
    decreases |ss|
  {
    if ss == [] then None
    else
      var p := FirstNamedVideo(ss[..|ss| - 1]);
      if p.Some? then p
      else if NamedVideo(ss[|ss| - 1]) then Some(ss[|ss| - 1])
      else None
  }

  /** The last video stream. */
  function LastVideo(ss: seq<Stream>): Option<Stream>
    decreases |ss|
  {
    if ss == [] then None
    else if IsVideo(ss[|ss| - 1]) then Some(ss[|ss| - 1])
    else LastVideo(ss[..|ss| - 1])
  }

  /** The stream the video fields are taken from. */
  function SelectedVideo(ss: seq<Stream>): Option<Stream> {
    if FirstNamedVideo(ss).Some? then FirstNamedVideo(ss) else LastVideo(ss)
  }

  /** The first non-empty audio codec name, or "" when there is none. */
  function FirstAudioCodec(ss: seq<Stream>): string
    decreases |ss|
  {
    if ss == [] then ""
    else
      var a := FirstAudioCodec(ss[..|ss| - 1]);
      if a != "" then a
      else if IsAudio(ss[|ss| - 1]) then ss[|ss| - 1].CodecName
      else ""
  }

  /** The record GetVideoInfo builds before its dimension check (ffprobe.go:71-97). */
  function InfoOf(out: ProbeOutput, parseFloat: string -> Option<real>): VideoInfo {
    var v := SelectedVideo(out.Streams);
    VideoInfo(
      Path := out.Format.Filename,
      Duration := if parseFloat(out.Format.Duration).Some? then parseFloat(out.Format.Duration).value else 0.0,
      Width := if v.Some? then v.value.Width else 0,
      Height := if v.Some? then v.value.Height else 0,
      FileSize := if ParseInt(out.Format.Size, 10, 64).Some? then ParseInt(out.Format.Size, 10, 64).value else 0,
      VideoCodec := if v.Some? then v.value.CodecName else "",
      AudioCodec := FirstAudioCodec(out.Streams),
      BitRate := out.Format.BitRate,
      AvgFrameRate := if v.Some? then v.value.AvgFrameRate else "")
  }

  /** The outcome GetVideoInfo promises for a run of ffprobe. */
  function ProbeSpec(run: ProbeRun, parseFloat: string -> Option<real>): Result<VideoInfo, ProbeError> {
    match run
    case RunFailed(reason, stderr) => Err(ProbeFailed(reason, stderr))
    case BadJson(reason) => Err(JsonFailed(reason))
    case Parsed(out) =>
      var info := InfoOf(out, parseFloat);
      if info.Width == 0 || info.Height == 0 then Err(NoDimensions) else Ok(info)
  }

  /**
   * GetVideoInfo (ffprobe.go:61-103).  The float parser for the duration is a
   * parameter; the file size goes through ParseInt in base 10 with 64 bits.
   */
  method GetVideoInfo(run: ProbeRun, parseFloat: string -> Option<real>) returns (r: Result<VideoInfo, ProbeError>)
    ensures r == ProbeSpec(run, parseFloat)
  {
    if run.RunFailed? {
      return Err(ProbeFailed(run.reason, run.stderr));
    }
    if run.BadJson? {
      return Err(JsonFailed(run.reason));
    }
    var out := run.output;
    var info := VideoInfo(out.Format.Filename, 0.0, 0, 0, 0, "", "", out.Format.BitRate, "");
    var duration := parseFloat(out.Format.Duration);
    if duration.Some? {
      info := info.(Duration := duration.value);
    }
    var size := ParseInt(out.Format.Size, 10, 64);
    if size.Some? {
      info := info.(FileSize := size.value);
    }
    var ss := out.Streams;
    var i := 0;
    while i < |ss|
      invariant 0 <= i <= |ss|
      invariant Taken(info, ss[..i])
      invariant info.(Width := 0, Height := 0, VideoCodec := "", AvgFrameRate := "", AudioCodec := "")
             == InfoOf(out, parseFloat).(Width := 0, Height := 0, VideoCodec := "", AvgFrameRate := "", AudioCodec := "")
    {
      var stream := ss[i];
      ghost var before := info;
      if stream.CodecType == "video" {
        if info.VideoCodec == "" {
          info := info.(Width := stream.Width, Height := stream.Height,
                        VideoCodec := stream.CodecName, AvgFrameRate := stream.AvgFrameRate);
        }
      } else if stream.CodecType == "audio" {
        if info.AudioCodec == "" {
          info := info.(AudioCodec := stream.CodecName);
        }
      }
      TakenStep(before, info, ss[..i], stream);
      assert ss[..i + 1] == ss[..i] + [stream];
      i := i + 1;
    }
    assert ss[..i] == ss;
    if info.Width == 0 || info.Height == 0 {
      return Err(NoDimensions);
    }
    return Ok(info);
  }

  /** The stream fields of `info` are those the streams `ss` select. */
  ghost predicate Taken(info: VideoInfo, ss: seq<Stream>) {
    var v := SelectedVideo(ss);
    info.Width == (if v.Some? then v.value.Width else 0) &&
    info.Height == (if v.Some? then v.value.Height else 0) &&
    info.VideoCodec == (if v.Some? then v.value.CodecName else "") &&
    info.AvgFrameRate == (if v.Some? then v.value.AvgFrameRate else "") &&
    info.AudioCodec == FirstAudioCodec(ss)
  }

  /** No video codec is recorded exactly while no video stream has named one. */
  lemma NoVideoCodecYet(ss: seq<Stream>)
    ensures var v := SelectedVideo(ss);
      (if v.Some? then v.value.CodecName else "") == "" <==> FirstNamedVideo(ss).None?
  {
    if FirstNamedVideo(ss).Some? {
      FirstNamedVideoIsNamed(ss);
    }
  }

  lemma {:induction false} FirstNamedVideoIsNamed(ss: seq<Stream>)
    requires FirstNamedVideo(ss).Some?
    ensures NamedVideo(FirstNamedVideo(ss).value)
    decreases |ss|
  {
    if FirstNamedVideo(ss[..|ss| - 1]).Some? {
      FirstNamedVideoIsNamed(ss[..|ss| - 1]);
    }
  }

  /** One pass of the loop keeps the stream fields in step with the streams seen. */
  lemma TakenStep(before: VideoInfo, after: VideoInfo, ss: seq<Stream>, s: Stream)
    requires Taken(before, ss)
    requires after == (
      if s.CodecType == "video" then
        (if before.VideoCodec == "" then
           before.(Width := s.Width, Height := s.Height, VideoCodec := s.CodecName, AvgFrameRate := s.AvgFrameRate)
         else before)
      else if s.CodecType == "audio" then
        (if before.AudioCodec == "" then before.(AudioCodec := s.CodecName) else before)
      else before)
    ensures Taken(after, ss + [s])
  {
    NoVideoCodecYet(ss);
    var ss' := ss + [s];
    assert ss'[..|ss'| - 1] == ss;
  }

  /** The first video stream with a codec name is the one FirstNamedVideo finds. */
  lemma {:induction false} FirstNamedVideoAt(ss: seq<Stream>, k: int)
    requires 0 <= k < |ss| && NamedVideo(ss[k])
    requires forall j :: 0 <= j < k ==> !NamedVideo(ss[j])
    ensures FirstNamedVideo(ss) == Some(ss[k])
    decreases |ss|
  {
    var init := ss[..|ss| - 1];
    if k < |ss| - 1 {
      FirstNamedVideoAt(init, k);
    } else {
      NoNamedVideo(init);
    }
  }

  /** With no video stream naming its codec, there is no first named one. */
  lemma {:induction false} NoNamedVideo(ss: seq<Stream>)
    requires forall j :: 0 <= j < |ss| ==> !NamedVideo(ss[j])
    ensures FirstNamedVideo(ss) == None
    decreases |ss|
  {
    if ss != [] {
      NoNamedVideo(ss[..|ss| - 1]);
    }
  }

  /** The last video stream is the one LastVideo finds. */
  lemma {:induction false} LastVideoAt(ss: seq<Stream>, k: int)
    requires 0 <= k < |ss| && IsVideo(ss[k])
    requires forall j :: k < j < |ss| ==> !IsVideo(ss[j])
    ensures LastVideo(ss) == Some(ss[k])
    decreases |ss|
  {
    if k < |ss| - 1 {
      LastVideoAt(ss[..|ss| - 1], k);
    }
  }

  /** Without a video stream there is nothing to select. */
  lemma {:induction false} NoVideo(ss: seq<Stream>)
    requires forall j :: 0 <= j < |ss| ==> !IsVideo(ss[j])
    ensures SelectedVideo(ss) == None
    decreases |ss|
  {
    if ss != [] {
      NoVideo(ss[..|ss| - 1]);
    }
  }

  /** The video fields come from the first video stream that names its codec, when there is one. */
  lemma SelectedNamedVideo(ss: seq<Stream>, k: int)
    requires 0 <= k < |ss| && NamedVideo(ss[k])
    requires forall j :: 0 <= j < k ==> !NamedVideo(ss[j])
    ensures SelectedVideo(ss) == Some(ss[k])
  {
    FirstNamedVideoAt(ss, k);
  }

  /** When no video stream names its codec, the last video stream is the one taken. */
  lemma SelectedLastVideo(ss: seq<Stream>, k: int)
    requires forall j :: 0 <= j < |ss| ==> !NamedVideo(ss[j])
    requires 0 <= k < |ss| && IsVideo(ss[k])
    requires forall j :: k < j < |ss| ==> !IsVideo(ss[j])
    ensures SelectedVideo(ss) == Some(ss[k])
  {
    NoNamedVideo(ss);
    LastVideoAt(ss, k);
  }

  /** The first audio stream with a codec name gives the audio codec. */
  lemma {:induction false} FirstAudioCodecAt(ss: seq<Stream>, k: int)
    requires 0 <= k < |ss| && NamedAudio(ss[k])
    requires forall j :: 0 <= j < k ==> !NamedAudio(ss[j])
    ensures FirstAudioCodec(ss) == ss[k].CodecName
    decreases |ss|
  {
    var init := ss[..|ss| - 1];
    if k < |ss| - 1 {
      FirstAudioCodecAt(init, k);
    } else {
      NoNamedAudio(init);
    }
  }

  /** With no audio stream naming its codec, the audio codec stays empty. */
  lemma {:induction false} NoNamedAudio(ss: seq<Stream>)
    requires forall j :: 0 <= j < |ss| ==> !NamedAudio(ss[j])
    ensures FirstAudioCodec(ss) == ""
    decreases |ss|
  {
    if ss != [] {
      NoNamedAudio(ss[..|ss| - 1]);
    }
  }

  /** A stream that is not video, anywhere in the list, does not change the first named video stream. */
  lemma {:induction false} NonVideoKeepsFirstNamed(a: seq<Stream>, x: Stream, b: seq<Stream>)
    requires !IsVideo(x)
    ensures FirstNamedVideo(a + [x] + b) == FirstNamedVideo(a + b)
    decreases |b|
  {
    var s, t := a + [x] + b, a + b;
    if b == [] {
      assert s[..|s| - 1] == a && t == a;
    } else {
      var b' := b[..|b| - 1];
      NonVideoKeepsFirstNamed(a, x, b');
      assert s[..|s| - 1] == a + [x] + b';
      assert t[..|t| - 1] == a + b';
      assert s[|s| - 1] == t[|t| - 1];
    }
  }

  /** A stream that is not video, anywhere in the list, does not change the last video stream. */
  lemma {:induction false} NonVideoKeepsLast(a: seq<Stream>, x: Stream, b: seq<Stream>)
    requires !IsVideo(x)
    ensures LastVideo(a + [x] + b) == LastVideo(a + b)
    decreases |b|
  {
    var s, t := a + [x] + b, a + b;
    if b == [] {
      assert s[..|s| - 1] == a && t == a;
    } else {
      var b' := b[..|b| - 1];
      NonVideoKeepsLast(a, x, b');
      assert s[..|s| - 1] == a + [x] + b';
      assert t[..|t| - 1] == a + b';
      assert s[|s| - 1] == t[|t| - 1];
    }
  }

  /** A stream that is not audio, anywhere in the list, does not change the audio codec. */
  lemma {:induction false} NonAudioKeepsAudioCodec(a: seq<Stream>, x: Stream, b: seq<Stream>)
    requires !IsAudio(x)
    ensures FirstAudioCodec(a + [x] + b) == FirstAudioCodec(a + b)
    decreases |b|
  {
    var s, t := a + [x] + b, a + b;
    if b == [] {
      assert s[..|s| - 1] == a && t == a;
    } else {
      var b' := b[..|b| - 1];
      NonAudioKeepsAudioCodec(a, x, b');
      assert s[..|s| - 1] == a + [x] + b';
      assert t[..|t| - 1] == a + b';
      assert s[|s| - 1] == t[|t| - 1];
    }
  }

  /** A stream that is neither video nor audio, anywhere in the list, changes nothing. */
  lemma OtherStreamIgnored(a: seq<Stream>, x: Stream, b: seq<Stream>)
    requires !IsVideo(x) && !IsAudio(x)
    ensures SelectedVideo(a + [x] + b) == SelectedVideo(a + b)
    ensures FirstAudioCodec(a + [x] + b) == FirstAudioCodec(a + b)
  {
    NonVideoKeepsFirstNamed(a, x, b);
    NonVideoKeepsLast(a, x, b);
    NonAudioKeepsAudioCodec(a, x, b);
  }

  /** What a successful probe returns: the format fields verbatim and a picture of non-zero size. */
  lemma ProbeOk(run: ProbeRun, parseFloat: string -> Option<real>)
    requires ProbeSpec(run, parseFloat).Ok?
    ensures run.Parsed?
    ensures var info := ProbeSpec(run, parseFloat).value;
      info.Path == run.output.Format.Filename && info.BitRate == run.output.Format.BitRate &&
      info.Width != 0 && info.Height != 0 && SelectedVideo(run.output.Streams).Some?
  {
  }

  /** A duration or size that does not parse leaves its field at zero and is no error. */
  lemma UnparsedFieldsAreZero(out: ProbeOutput, parseFloat: string -> Option<real>)
    ensures parseFloat(out.Format.Duration).None? ==> InfoOf(out, parseFloat).Duration == 0.0
    ensures ParseInt(out.Format.Size, 10, 64).None? ==> InfoOf(out, parseFloat).FileSize == 0
    ensures ProbeSpec(Parsed(out), parseFloat).Err? ==> ProbeSpec(Parsed(out), parseFloat) == Err(NoDimensions)
  {
  }

  /** Zero width or height after selection is an error, and no record comes back. */
  lemma ZeroDimensionRejected(out: ProbeOutput, parseFloat: string -> Option<real>)
    ensures ProbeSpec(Parsed(out), parseFloat) == Err(NoDimensions) <==>
      SelectedVideo(out.Streams).None? ||
      SelectedVideo(out.Streams).value.Width == 0 || SelectedVideo(out.Streams).value.Height == 0
  {
  }
}
