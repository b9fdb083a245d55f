/**
 * The montage processor (processor.go): Run derives the thumbnail size,
 * extracts the frames and composes the sheet.  Composition computes the
 * canvas, resolves the colours, fits the title, places every frame on the
 * grid and maps ffmpeg's quality scale to the JPEG encoder's.  Pixels are
 * not modelled: the result is a description of the sheet to be drawn.
 */
module Processor {
  import opened Results
  import opened GoStrings
  import GoFilepath
  import Colors
  import opened Layout
  import opened Settings
  import Ffprobe
  import Extraction
  import Demux
  import GoInt

  /** The size noted while a face was loaded, in points; all sizes the processor asks for are whole. */
  type FontSize = int

  /** The starting title size, the size the shrink loop stops at, and its step (processor.go:322-331). */
  const TitleStart: FontSize := 40
  const TitleFloor: FontSize := 10
  const TitleStep: FontSize := 2

  /** Sizes of the two metadata lines and of the per-frame time stamps (processor.go:340, 247). */
  const MetaSize: FontSize := 20
  const StampSize: FontSize := 18

  // ---------------------------------------------------------------------------
  // Output quality (processor.go:285-291)
  // ---------------------------------------------------------------------------

  /**
   * ffmpeg's 1-31 scale (lower is better) turned around onto the encoder's
   * 1-100 scale, three points per step, and clamped into [1, 100].
   */
  method OutputQuality(q: int) returns (jpegQuality: int)
    ensures 1 <= jpegQuality <= 100
    ensures jpegQuality == 100 <==> q <= 1
    ensures jpegQuality == 1 <==> q >= 34
    ensures 1 < jpegQuality < 100 ==> jpegQuality == 100 - (q - 1) * 3
    ensures q == 2 ==> jpegQuality == 97
    ensures q == 31 ==> jpegQuality == 10
  {
    jpegQuality := 100 - (q - 1) * 3;
    if jpegQuality < 1 {
      jpegQuality := 1;
    }
    if jpegQuality > 100 {
      jpegQuality := 100;
    }
  }

  // ---------------------------------------------------------------------------
  // The title shrink loop (processor.go:320-332)
  // ---------------------------------------------------------------------------

  /** The fit test: the measured width is less than 90% of the canvas width. */
  predicate Fits(totalWidth: int, w: real) {
    w < totalWidth as real * 0.9
  }

  /**
   * The shrink loop read as a recursion on the size: try `size`; a face that
   * does not load is an error naming that size, a title that fits stops the
   * search there, and once the size is no longer above 10 the search stops
   * at that size.  `canLoad` says whether loading the font at a size
   * succeeds and `measure` is the title's width with the face of that size.
   */
  function Shrink(totalWidth: int, canLoad: FontSize -> bool, measure: FontSize -> real, size: FontSize): (r: Result<FontSize, FontSize>)
    ensures r.Err? ==> TitleFloor < r.error <= size && (size - r.error) % 2 == 0 && !canLoad(r.error)
    ensures r.Ok? && r.value > TitleFloor ==> r.value <= size && canLoad(r.value) && Fits(totalWidth, measure(r.value))
    decreases size
  {
    if size <= TitleFloor then Ok(size)
    else if !canLoad(size) then Err(size)
    else if Fits(totalWidth, measure(size)) then Ok(size)
    else Shrink(totalWidth, canLoad, measure, size - TitleStep)
  }

  /** When every even size the search can reach loads, the search succeeds. */
  lemma {:induction false} ShrinkSucceeds(totalWidth: int, canLoad: FontSize -> bool, measure: FontSize -> real, size: FontSize)
    requires size % 2 == 0
    requires forall s :: TitleFloor < s <= size && s % 2 == 0 ==> canLoad(s)
    ensures Shrink(totalWidth, canLoad, measure, size).Ok?
    decreases size
  {
    if size > TitleFloor && !Fits(totalWidth, measure(size)) {
      ShrinkSucceeds(totalWidth, canLoad, measure, size - TitleStep);
    }
  }

  /**
   * Shrinks the title from 40 points in steps of 2 while it does not fit,
   * stopping once the size is no longer above 10; `loaded` lists the sizes
   * loaded, in order, and its last element is the face the title is drawn
   * with.  On a load failure the failing size is returned as the error.
   */
  method FitTitle(totalWidth: int, canLoad: FontSize -> bool, measure: FontSize -> real)
    returns (r: Result<FontSize, FontSize>, loaded: seq<FontSize>)
    ensures r == Shrink(totalWidth, canLoad, measure, TitleStart)
    ensures |loaded| <= 15
    ensures forall k :: 0 <= k < |loaded| ==> loaded[k] == TitleStart - TitleStep * k && canLoad(loaded[k])
    ensures TitleFloor !in loaded
    ensures r.Ok? ==> |loaded| > 0 && TitleFloor <= r.value <= TitleStart && r.value % 2 == 0
    ensures r.Ok? && r.value > TitleFloor ==> loaded[|loaded| - 1] == r.value && Fits(totalWidth, measure(r.value))
    ensures r.Ok? && r.value == TitleFloor ==> |loaded| == 15 && loaded[14] == 12
    ensures r.Err? ==> TitleFloor < r.error <= TitleStart && r.error % 2 == 0 && !canLoad(r.error)
    ensures r.Err? ==> |loaded| == (TitleStart - r.error) / 2
    ensures forall k :: 0 <= k < |loaded| && !(r.Ok? && r.value == loaded[k]) ==>
      !Fits(totalWidth, measure(loaded[k]))
  {
    var fontSize := TitleStart;
    loaded := [];
    while fontSize > TitleFloor
      invariant TitleFloor <= fontSize <= TitleStart && fontSize % 2 == 0
      invariant |loaded| == (TitleStart - fontSize) / 2
      invariant forall k :: 0 <= k < |loaded| ==> loaded[k] == TitleStart - TitleStep * k && canLoad(loaded[k])
      invariant forall k :: 0 <= k < |loaded| ==> !Fits(totalWidth, measure(loaded[k]))
      invariant Shrink(totalWidth, canLoad, measure, TitleStart) == Shrink(totalWidth, canLoad, measure, fontSize)
      decreases fontSize
    {
      if !canLoad(fontSize) {
        return Err(fontSize), loaded;
      }
      loaded := loaded + [fontSize];
      var w := measure(fontSize);
      if Fits(totalWidth, w) {
        break;
      }
      fontSize := fontSize - TitleStep;
    }
    r := Ok(fontSize);
  }

  // ---------------------------------------------------------------------------
  // The codec part of the second metadata line (processor.go:401-405)
  // ---------------------------------------------------------------------------

  /** The video codec in capitals, and " / " and the audio codec in capitals when there is one. */
  function CodecLabel(video: string, audio: string): (r: string)
    ensures |r| == |video| + (if audio == "" then 0 else 3 + |audio|)
    ensures r[..|video|] == ToUpper(video)
    ensures audio == "" ==> r == ToUpper(video)
    ensures audio != "" ==> r[|video|..] == " / " + ToUpper(audio)
  {
    ToUpper(video) + (if audio != "" then " / " + ToUpper(audio) else "")
  }

  /** The index of the first '/' of `s`, or -1. */
  function SlashIndex(s: string): (i: int)
    ensures -1 <= i < |s|
    ensures i >= 0 ==> s[i] == '/'
    ensures forall j :: 0 <= j < |s| && (i == -1 || j < i) ==> s[j] != '/'
    decreases |s|
  {
    if s == [] then -1
    else if s[0] == '/' then 0
    else var k := SlashIndex(s[1..]); if k == -1 then -1 else k + 1
  }

  predicate NoSlash(s: string) {
    forall j :: 0 <= j < |s| ==> s[j] != '/'
  }

  /** Reads a label back into its video and audio parts, split at the first " / ". */
  function SplitCodecLabel(shown: string): (parts: (string, string)) {
    var i := SlashIndex(shown);
    if 1 <= i && i + 2 <= |shown| then (shown[..i - 1], shown[i + 2..]) else (shown, "")
  }

  lemma UpperKeepsNoSlash(s: string)
    requires NoSlash(s)
    ensures NoSlash(ToUpper(s))
  {
    forall j | 0 <= j < |s|
      ensures ToUpper(s)[j] != '/'
    {
      assert ToUpper(s)[j] == UpperAscii(s[j]);
    }
  }

  /**
   * Codec names never contain '/', so the label splits back into the two
   * upper-cased names, and an empty audio part means there was no audio codec.
   */
  lemma CodecLabelSplits(video: string, audio: string)
    requires NoSlash(video) && NoSlash(audio)
    ensures SplitCodecLabel(CodecLabel(video, audio)) == (ToUpper(video), ToUpper(audio))
  {
    var v, a := ToUpper(video), ToUpper(audio);
    UpperKeepsNoSlash(video);
    UpperKeepsNoSlash(audio);
    var shown := CodecLabel(video, audio);
    if audio == "" {
      assert a == "";
      assert shown == v;
      assert SlashIndex(shown) == -1;
    } else {
      assert shown == v + " / " + a;
      assert shown[|v| + 1] == '/';
      var i := SlashIndex(shown);
      assert i == |v| + 1;
      assert shown[..i - 1] == v;
      assert shown[i + 2..] == a;
    }
  }

  // ---------------------------------------------------------------------------
  // Header text (processor.go:301-357)
  // ---------------------------------------------------------------------------

  /** What the header shows and how: the title, the face it is drawn with, the two colours and the codec part. */
  datatype Header = Header(
    title: string,
    titleSize: FontSize,
    shadow: Colors.Rgba,
    font: Colors.Rgba,
    codecs: string)

  datatype TextError =
    | FontLoadFailed(size: FontSize)
    | BadShadowColor(shadowError: Colors.ColorError)
    | BadFontColor(fontError: Colors.ColorError)

  /** Whether drawText gets through: the faces at 40 points, during the fit and at the metadata size load, and both colours parse. */
  predicate TextDrawable(cfg: Config, totalWidth: int, canLoad: FontSize -> bool, measure: FontSize -> real) {
    canLoad(TitleStart) &&
    Colors.ParseHexColor(cfg.ShadowColor).Ok? && Colors.ParseHexColor(cfg.FontColor).Ok? &&
    Shrink(totalWidth, canLoad, measure, TitleStart).Ok? &&
    canLoad(MetaSize)
  }

  /** The first step drawText fails at, in the order it takes them. */
  function FirstTextFailure(cfg: Config, totalWidth: int, canLoad: FontSize -> bool, measure: FontSize -> real): TextError
    requires !TextDrawable(cfg, totalWidth, canLoad, measure)
  {
    if !canLoad(TitleStart) then FontLoadFailed(TitleStart)
    else if Colors.ParseHexColor(cfg.ShadowColor).Err? then BadShadowColor(Colors.ParseHexColor(cfg.ShadowColor).error)
    else if Colors.ParseHexColor(cfg.FontColor).Err? then BadFontColor(Colors.ParseHexColor(cfg.FontColor).error)
    else if Shrink(totalWidth, canLoad, measure, TitleStart).Err? then FontLoadFailed(Shrink(totalWidth, canLoad, measure, TitleStart).error)
    else FontLoadFailed(MetaSize)
  }

  /**
   * A header as drawText makes it: the parsed colours, the base name of the
   * video's path, the codec label, and as title face the largest even size
   * from 40 down that loads and fits, or 12 when none above 10 fits.
   */
  predicate HeaderFor(h: Header, cfg: Config, info: Ffprobe.VideoInfo, totalWidth: int,
                      canLoad: FontSize -> bool, measure: FontSize -> real) {
    Colors.ParseHexColor(cfg.ShadowColor) == Ok(h.shadow) &&
    Colors.ParseHexColor(cfg.FontColor) == Ok(h.font) &&
    h.title == GoFilepath.Base(info.Path) &&
    h.codecs == CodecLabel(info.VideoCodec, info.AudioCodec) &&
    12 <= h.titleSize <= TitleStart && h.titleSize % 2 == 0 && canLoad(h.titleSize) &&
    (h.titleSize > 12 ==> Fits(totalWidth, measure(h.titleSize))) &&
    (forall s :: h.titleSize < s <= TitleStart && s % 2 == 0 ==> canLoad(s) && !Fits(totalWidth, measure(s)))
  }

  /** Every even size above the face the fit settled on was loaded and did not fit. */
  lemma LargerSizesMiss(totalWidth: int, canLoad: FontSize -> bool, measure: FontSize -> real,
                        fit: FontSize, loaded: seq<FontSize>)
    requires 0 < |loaded| <= 15
    requires forall k :: 0 <= k < |loaded| ==> loaded[k] == TitleStart - TitleStep * k && canLoad(loaded[k])
    requires forall k :: 0 <= k < |loaded| && fit != loaded[k] ==> !Fits(totalWidth, measure(loaded[k]))
    requires fit == loaded[|loaded| - 1] || fit !in loaded
    ensures forall s :: loaded[|loaded| - 1] < s <= TitleStart && s % 2 == 0 ==> canLoad(s) && !Fits(totalWidth, measure(s))
  {
    forall s | loaded[|loaded| - 1] < s <= TitleStart && s % 2 == 0
      ensures canLoad(s) && !Fits(totalWidth, measure(s))
    {
      var k := (TitleStart - s) / 2;
      assert loaded[k] == s;
    }
  }

  /**
   * drawText: load the font at 40, resolve the shadow and then the font
   * colour, fit the title (the base name of the video's path), then load
   * the metadata size.  The first failure is the result.
   */
  method DrawText(cfg: Config, info: Ffprobe.VideoInfo, totalWidth: int,
                  canLoad: FontSize -> bool, measure: FontSize -> real)
    returns (r: Result<Header, TextError>)
    ensures r.Ok? <==> TextDrawable(cfg, totalWidth, canLoad, measure)
    ensures r.Err? ==> r.error == FirstTextFailure(cfg, totalWidth, canLoad, measure)
    ensures r.Err? && r.error.FontLoadFailed? ==> !canLoad(r.error.size)
    ensures r.Ok? ==> HeaderFor(r.value, cfg, info, totalWidth, canLoad, measure)
  {
    if !canLoad(TitleStart) {
      return Err(FontLoadFailed(TitleStart));
    }
    var shadow := Colors.ParseHexColor(cfg.ShadowColor);
    if shadow.Err? {
      return Err(BadShadowColor(shadow.error));
    }
    var font := Colors.ParseHexColor(cfg.FontColor);
    if font.Err? {
      return Err(BadFontColor(font.error));
    }
    var filename := GoFilepath.Base(info.Path);
    var fit, loaded := FitTitle(totalWidth, canLoad, measure);
    if fit.Err? {
      return Err(FontLoadFailed(fit.error));
    }
    if !canLoad(MetaSize) {
      return Err(FontLoadFailed(MetaSize));
    }
    var codecs := CodecLabel(info.VideoCodec, info.AudioCodec);
    var titleSize := loaded[|loaded| - 1];
    LargerSizesMiss(totalWidth, canLoad, measure, fit.value, loaded);
    r := Ok(Header(filename, titleSize, shadow.value, font.value, codecs));
  }

  // ---------------------------------------------------------------------------
  // Frame placement (processor.go:254-266)
  // ---------------------------------------------------------------------------

  /**
   * The drawing loop: frame i goes to the cell of row i / columns and column
   * i % columns; an empty slot is skipped and gets no cell.
   */
  method PlaceFrames<Img>(g: Grid, frames: seq<Option<Img>>) returns (cells: seq<Option<Point>>)
    requires g.columns != 0
    ensures |cells| == |frames|
    ensures forall i :: 0 <= i < |frames| ==> (cells[i].Some? <==> frames[i].Some?)
    ensures forall i :: 0 <= i < |frames| && frames[i].Some? ==> cells[i].value == CellOrigin(g, i)
  {
    cells := [];
    for i := 0 to |frames|
      invariant |cells| == i
      invariant forall j :: 0 <= j < i ==> (cells[j].Some? <==> frames[j].Some?)
      invariant forall j :: 0 <= j < i && frames[j].Some? ==> cells[j].value == CellOrigin(g, j)
    {
      if frames[i].None? {
        cells := cells + [None];
        continue;
      }
      var row := GoInt.Quo(i, g.columns);
      var col := GoInt.Rem(i, g.columns);
      var x := g.margin + col * (g.thumbWidth + g.padding);
      var y := g.header + g.margin + row * (g.thumbHeight + g.padding);
      cells := cells + [Some(Point(x, y))];
    }
  }

  /** Placed frames of a sheet with room for all of them lie inside the canvas and never overlap. */
  lemma PlacedCellsFit<Img>(g: Grid, frames: seq<Option<Img>>, cells: seq<Option<Point>>, i: int, j: int)
    requires Sane(g) && |frames| <= g.columns * g.rows
    requires |cells| == |frames|
    requires forall k :: 0 <= k < |frames| ==> (cells[k].Some? <==> frames[k].Some?)
    requires forall k :: 0 <= k < |frames| && frames[k].Some? ==> cells[k].value == CellOrigin(g, k)
    requires 0 <= i < |cells| && 0 <= j < |cells| && i != j && cells[i].Some? && cells[j].Some?
    ensures var p := cells[i].value;
      g.margin <= p.x && p.x + g.thumbWidth <= CanvasWidth(g) - g.margin &&
      g.header + g.margin <= p.y && p.y + g.thumbHeight <= CanvasHeight(g) - g.margin
    ensures var p, q := cells[i].value, cells[j].value;
      p.x + g.thumbWidth <= q.x || q.x + g.thumbWidth <= p.x ||
      p.y + g.thumbHeight <= q.y || q.y + g.thumbHeight <= p.y
  {
    CellInsideCanvas(g, i);
    CellsDisjoint(g, i, j);
  }

  // ---------------------------------------------------------------------------
  // Composition (processor.go:217-298)
  // ---------------------------------------------------------------------------

  /** The sheet to be encoded: canvas size, background, header, per-slot cells, quality and destination. */
  datatype Montage = Montage(
    width: int,
    height: int,
    background: Colors.Rgba,
    header: Option<Header>,
    cells: seq<Option<Point>>,
    quality: int,
    toStdout: bool)

  datatype ComposeError =
    | BadBackground(colorError: Colors.ColorError)
    | TextFailed(textError: TextError)
    | StampFontFailed
    | SaveFailed(destination: string)

  /** The grid a configuration and a thumbnail size describe. */
  function GridOf(cfg: Config, thumbWidth: int, thumbHeight: int): Grid {
    Grid(cfg.Columns, cfg.Rows, thumbWidth, thumbHeight, cfg.Padding, cfg.Margin, cfg.HeaderHeight)
  }

  /**
   * Whether composeMontage gets through: the background parses; with a font
   * file, the header text and the stamp face do; and the encoded sheet is
   * written to the destination the output path names (`save`, with "-"
   * standing for standard output).
   */
  predicate ComposeOk(cfg: Config, thumbWidth: int, thumbHeight: int, canLoad: FontSize -> bool, measure: FontSize -> real,
                      save: string -> bool) {
    Colors.ParseHexColor(cfg.BackgroundColor).Ok? &&
    (cfg.FontFile != "" ==>
      TextDrawable(cfg, CanvasWidth(GridOf(cfg, thumbWidth, thumbHeight)), canLoad, measure) && canLoad(StampSize)) &&
    save(cfg.OutputPath)
  }

  /** The first step composeMontage fails at: the background, then the header text, then the stamp face, then the write. */
  function ComposeFailure(cfg: Config, thumbWidth: int, thumbHeight: int, canLoad: FontSize -> bool, measure: FontSize -> real,
                          save: string -> bool): ComposeError
    requires !ComposeOk(cfg, thumbWidth, thumbHeight, canLoad, measure, save)
  {
    var totalWidth := CanvasWidth(GridOf(cfg, thumbWidth, thumbHeight));
    if Colors.ParseHexColor(cfg.BackgroundColor).Err? then BadBackground(Colors.ParseHexColor(cfg.BackgroundColor).error)
    else if cfg.FontFile != "" && !TextDrawable(cfg, totalWidth, canLoad, measure) then
      TextFailed(FirstTextFailure(cfg, totalWidth, canLoad, measure))
    else if cfg.FontFile != "" && !canLoad(StampSize) then StampFontFailed
    else SaveFailed(cfg.OutputPath)
  }

  /**
   * A sheet as composeMontage describes it: the canvas of the grid, the
   * parsed background, a header exactly when a font file is given, a cell
   * at its grid origin for every frame present, the quality on the
   * encoder's scale and standard output as destination for "-".
   */
  predicate SheetOf<Img>(m: Montage, cfg: Config, info: Ffprobe.VideoInfo, frames: seq<Option<Img>>,
                         thumbWidth: int, thumbHeight: int, canLoad: FontSize -> bool, measure: FontSize -> real) {
    var g := GridOf(cfg, thumbWidth, thumbHeight);
    cfg.Columns != 0 &&
    m.width == CanvasWidth(g) && m.height == CanvasHeight(g) &&
    Colors.ParseHexColor(cfg.BackgroundColor) == Ok(m.background) &&
    (m.header.Some? <==> cfg.FontFile != "") &&
    (m.header.Some? ==> HeaderFor(m.header.value, cfg, info, CanvasWidth(g), canLoad, measure)) &&
    |m.cells| == |frames| &&
    (forall i :: 0 <= i < |frames| ==> (m.cells[i].Some? <==> frames[i].Some?)) &&
    (forall i :: 0 <= i < |frames| && frames[i].Some? ==> m.cells[i].value == CellOrigin(g, i)) &&
    1 <= m.quality <= 100 &&
    (m.quality == 100 <==> cfg.JpegQuality <= 1) &&
    (m.quality == 1 <==> cfg.JpegQuality >= 34) &&
    (1 < m.quality < 100 ==> m.quality == 100 - (cfg.JpegQuality - 1) * 3) &&
    (m.toStdout <==> cfg.OutputPath == "-")
  }

  /**
   * composeMontage: the canvas size, the background colour, the header text
   * and the time-stamp face when a font file is given, the frames on the
   * grid, the quality, and the destination of the encoded image.  Whether
   * jpeg.Encode to standard output or SaveJPG to the file succeeds is the
   * input `save`; the pixels written are not modelled.
   */
  method ComposeMontage<Img>(cfg: Config, info: Ffprobe.VideoInfo, frames: seq<Option<Img>>,
                             thumbWidth: int, thumbHeight: int,
                             canLoad: FontSize -> bool, measure: FontSize -> real, save: string -> bool)
    returns (r: Result<Montage, ComposeError>)
    requires cfg.Columns != 0
    ensures r.Ok? <==> ComposeOk(cfg, thumbWidth, thumbHeight, canLoad, measure, save)
    ensures r.Err? ==> r.error == ComposeFailure(cfg, thumbWidth, thumbHeight, canLoad, measure, save)
    ensures r.Ok? ==> SheetOf(r.value, cfg, info, frames, thumbWidth, thumbHeight, canLoad, measure)
  {
    var g := GridOf(cfg, thumbWidth, thumbHeight);
    var totalWidth := CanvasWidth(g);
    var totalHeight := CanvasHeight(g);
    var bgColor := Colors.ParseHexColor(cfg.BackgroundColor);
    if bgColor.Err? {
      return Err(BadBackground(bgColor.error));
    }
    var header: Option<Header> := None;
    if cfg.FontFile != "" {
      var text := DrawText(cfg, info, totalWidth, canLoad, measure);
      if text.Err? {
        return Err(TextFailed(text.error));
      }
      header := Some(text.value);
    }
    if cfg.FontFile != "" {
      if !canLoad(StampSize) {
        return Err(StampFontFailed);
      }
    }
    var cells := PlaceFrames(g, frames);
    var jpegQuality := OutputQuality(cfg.JpegQuality);
    if !save(cfg.OutputPath) {
      return Err(SaveFailed(cfg.OutputPath));
    }
    r := Ok(Montage(totalWidth, totalHeight, bgColor.value, header, cells, jpegQuality, cfg.OutputPath == "-"));
  }

  // ---------------------------------------------------------------------------
  // The pipeline (processor.go:60-86)
  // ---------------------------------------------------------------------------

  datatype RunError =
    | ZeroVideoHeight
    | ExtractFailed(extractError: Extraction.ExtractError)
    | ComposeFailed(composeError: ComposeError)

  /** The thumbnail height Run composes with: the configured one, or the derived one when that is not positive. */
  function ThumbHeightFor(cfg: Config, info: Ffprobe.VideoInfo, autoHeight: (int, int, int) -> int): int {
    if cfg.ThumbHeight <= 0 then autoHeight(cfg.ThumbWidth, info.Width, info.Height) else cfg.ThumbHeight
  }

  /** Whether Run gets through: a height to derive from, the frames, and the composition. */
  predicate RunOk<Img>(cfg: Config, info: Ffprobe.VideoInfo, autoHeight: (int, int, int) -> int,
                       run: Extraction.FfmpegRun, decode: seq<Demux.byte> -> Option<Img>,
                       canLoad: FontSize -> bool, measure: FontSize -> real, save: string -> bool) {
    !(cfg.ThumbHeight <= 0 && info.Height == 0) &&
    Extraction.ExtractSpec(cfg.Columns * cfg.Rows, run, decode).Ok? &&
    ComposeOk(cfg, cfg.ThumbWidth, ThumbHeightFor(cfg, info, autoHeight), canLoad, measure, save)
  }

  /** The first step Run fails at. */
  function RunFailure<Img>(cfg: Config, info: Ffprobe.VideoInfo, autoHeight: (int, int, int) -> int,
                           run: Extraction.FfmpegRun, decode: seq<Demux.byte> -> Option<Img>,
                           canLoad: FontSize -> bool, measure: FontSize -> real, save: string -> bool): RunError
    requires !RunOk(cfg, info, autoHeight, run, decode, canLoad, measure, save)
  {
    if cfg.ThumbHeight <= 0 && info.Height == 0 then ZeroVideoHeight
    else if Extraction.ExtractSpec(cfg.Columns * cfg.Rows, run, decode).Err? then
      ExtractFailed(Extraction.ExtractSpec(cfg.Columns * cfg.Rows, run, decode).error)
    else ComposeFailed(ComposeFailure(cfg, cfg.ThumbWidth, ThumbHeightFor(cfg, info, autoHeight), canLoad, measure, save))
  }

  /**
   * Run: a thumbnail height that is not positive is derived from the width
   * and the video's aspect ratio (`autoHeight`, a float computation passed
   * in), which needs a non-zero video height; then the frames are extracted
   * from the ffmpeg run and composed.
   */
  method Run<Img>(cfg: Config, info: Ffprobe.VideoInfo, autoHeight: (int, int, int) -> int,
                  run: Extraction.FfmpegRun, decode: seq<Demux.byte> -> Option<Img>,
                  canLoad: FontSize -> bool, measure: FontSize -> real, save: string -> bool)
    returns (r: Result<Montage, RunError>)
    ensures r.Ok? <==> RunOk(cfg, info, autoHeight, run, decode, canLoad, measure, save)
    ensures r.Err? ==> r.error == RunFailure(cfg, info, autoHeight, run, decode, canLoad, measure, save)
    ensures r.Ok? ==> SheetOf(r.value, cfg, info, Extraction.ExtractSpec(cfg.Columns * cfg.Rows, run, decode).value,
                              cfg.ThumbWidth, ThumbHeightFor(cfg, info, autoHeight), canLoad, measure)
    ensures r.Ok? ==> |r.value.cells| == cfg.Columns * cfg.Rows
    ensures r.Ok? ==> forall i :: 0 <= i < |r.value.cells| ==> r.value.cells[i].Some?
  {
    var thumbWidth := cfg.ThumbWidth;
    var thumbHeight := cfg.ThumbHeight;
    if thumbHeight <= 0 {
      if info.Height == 0 {
        return Err(ZeroVideoHeight);
      }
      thumbHeight := autoHeight(thumbWidth, info.Width, info.Height);
    }
    var frames := Extraction.ExtractFrames(cfg.Columns, cfg.Rows, run, decode);
    if frames.Err? {
      return Err(ExtractFailed(frames.error));
    }
    forall k | 0 <= k < |frames.value|
      ensures frames.value[k].Some?
    {
      Extraction.ExtractOk(cfg.Columns * cfg.Rows, run, decode, k);
    }
    Extraction.ExtractOk(cfg.Columns * cfg.Rows, run, decode, 0);
    var montage := ComposeMontage(cfg, info, frames.value, thumbWidth, thumbHeight, canLoad, measure, save);
    if montage.Err? {
      return Err(ComposeFailed(montage.error));
    }
    r := Ok(montage.value);
  }
}
