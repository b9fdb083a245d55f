/**
 * The root command (cmd/root.go): the flag defaults, the checks RunE makes
 * on the log flags before it records the input path, and runMontage, which
 * picks the log stream, defaults the output path, probes the video, runs
 * the processor and reports success.  The shared configuration record is
 * the field `cfg` of the command, updated in place as the Go code updates
 * the record behind its global pointer.
 */
module Cli {
  import opened Results
  import opened GoStrings
  import opened GoFilepath
  import opened Settings
  import Ffprobe
  import Extraction
  import Demux
  import Processor

  /** The two streams the application log can go to. */
  datatype LogStream = Stdout | Stderr

  datatype LogLine = LogLine(stream: LogStream, text: string)

  datatype CliError =
    | QuietAndVerbose
    | VideoInfoFailed(probeError: Ffprobe.ProbeError)
    | MontageFailed(runError: Processor.RunError)

  /** The configuration the flags set when none is given on the command line (root.go:95-126). */
  function FlagDefaults(): (c: Config)
    ensures c.OutputPath == "" && c.InputPath == ""
    ensures c.Columns == 4 && c.Rows == 5
    ensures c.ThumbWidth == 640 && c.ThumbHeight == -1
    ensures c.Padding == 5 && c.Margin == 20 && c.HeaderHeight == 150
    ensures c.FontFile == "" && c.FontColor == "white" && c.ShadowColor == "black" && c.BackgroundColor == "#222222"
    ensures c.JpegQuality == 2 && c.BorderThickness == 1 && c.BorderColor == "#111111"
    ensures c.FfmpegPath == "ffmpeg" && c.FfprobePath == "ffprobe"
    ensures !c.Quiet && !c.Verbose && c.ShowAppLog && c.ShowFfmpegLog
  {
    NewConfig().(
      OutputPath := "",
      Columns := 4, Rows := 5, ThumbWidth := 640, ThumbHeight := -1,
      Padding := 5, Margin := 20, HeaderHeight := 150,
      FontFile := "", FontColor := "white", ShadowColor := "black", BackgroundColor := "#222222",
      JpegQuality := 2, BorderThickness := 1, BorderColor := "#111111",
      FfmpegPath := "ffmpeg", FfprobePath := "ffprobe",
      Quiet := false, Verbose := false, ShowAppLog := true, ShowFfmpegLog := true)
  }

  /** Worked example: the default sheet, 4 × 5 thumbnails at ffmpeg quality 2, has 20 frames encoded at 97. */
  lemma DefaultsDescribeSheet()
    ensures FlagDefaults().Columns * FlagDefaults().Rows == 20
    ensures 100 - (FlagDefaults().JpegQuality - 1) * 3 == 97
  {
  }

  /** Where the application log goes: stderr when the image itself goes to stdout, stdout otherwise. */
  function LogStreamFor(outputPath: string): (s: LogStream)
    ensures s == Stderr <==> outputPath == "-"
  {
    if outputPath == "-" then Stderr else Stdout
  }

  /** What the default output name puts after the input's stem (root.go:55). */
  const MontageSuffix := "_montage.jpg"

  /** The name of the default output file: the input's base name without its extension, then MontageSuffix. */
  function DefaultOutputName(input: string): string {
    TrimSuffix(Base(input), Ext(input)) + MontageSuffix
  }

  /** The output path used when none is given: the default name in the input's directory. */
  function DefaultOutputPath(input: string): string {
    Join(Dir(input), DefaultOutputName(input))
  }

  /** Two strings without '/' joined give a string without '/'. */
  lemma SlashFreeAppend(a: string, b: string)
    requires forall i :: 0 <= i < |a| ==> a[i] != '/'
    requires forall i :: 0 <= i < |b| ==> b[i] != '/'
    ensures forall i :: 0 <= i < |a + b| ==> (a + b)[i] != '/'
  {
    forall i | 0 <= i < |a + b|
      ensures (a + b)[i] != '/'
    {
      if i < |a| { assert (a + b)[i] == a[i]; } else { assert (a + b)[i] == b[i - |a|]; }
    }
  }

  /** A stem without '/' followed by MontageSuffix is a plain file name. */
  lemma SuffixedNameIsNormal(stem: string)
    requires forall i :: 0 <= i < |stem| ==> stem[i] != '/'
    ensures NormalElement(stem + MontageSuffix)
  {
    var name := stem + MontageSuffix;
    assert name[|name| - 1] == 'g';
    assert '/' !in MontageSuffix;
    forall i | 0 <= i < |MontageSuffix|
      ensures MontageSuffix[i] != '/'
    {
      assert MontageSuffix[i] in MontageSuffix;
    }
    SlashFreeAppend(stem, MontageSuffix);
  }

  /**
   * The default output path names a file whose base name is the default
   * name, whenever that name is a plain file name (no '/' in the input's stem).
   */
  lemma DefaultOutputBase(input: string)
    requires forall i :: 0 <= i < |TrimSuffix(Base(input), Ext(input))| ==> TrimSuffix(Base(input), Ext(input))[i] != '/'
    ensures Base(DefaultOutputPath(input)) == DefaultOutputName(input)
  {
    SuffixedNameIsNormal(TrimSuffix(Base(input), Ext(input)));
    CleanNotEmpty(input[..LastSlash(input) + 1]);
    BaseOfJoin(Dir(input), DefaultOutputName(input));
  }

  /** The lines of the application log (root.go:60, 68, 77, 79). */
  const Analyzing := "Analyzing video file: "
  const AnalysisComplete := "Video analysis complete. Starting montage generation..."
  const SuccessAt := "✅ Montage generated successfully at: "
  const SuccessToStdout := "✅ Montage generated successfully to stdout."

  /** The line runMontage prints last when the application log is on (root.go:75-81). */
  function SuccessMessage(outputPath: string): (m: string)
    ensures outputPath != "-" ==> m == SuccessAt + outputPath
    ensures outputPath == "-" ==> m == SuccessToStdout
  {
    if outputPath != "-" then SuccessAt + outputPath
    else SuccessToStdout
  }

  /** The message names a file exactly when the image was not streamed, and then it ends with that path. */
  lemma SuccessMessageNamesPath(outputPath: string)
    ensures outputPath != "-" <==> HasSuffix(SuccessMessage(outputPath), outputPath) && |SuccessMessage(outputPath)| == 37 + |outputPath|
  {
    var m := SuccessMessage(outputPath);
    if outputPath == "-" {
      assert |m| == 43;
    } else {
      assert m[|m| - |outputPath|..] == outputPath;
    }
  }

  /**
   * The inputs the world supplies to one run: the probe result, the ffmpeg
   * run, the pixel-level stand-ins, and whether writing the encoded sheet to
   * the destination an output path names succeeds.
   */
  datatype World<Img> = World(
    probe: Ffprobe.ProbeRun,
    parseFloat: string -> Option<real>,
    autoHeight: (int, int, int) -> int,
    ffmpeg: Extraction.FfmpegRun,
    decode: seq<Demux.byte> -> Option<Img>,
    canLoad: Processor.FontSize -> bool,
    measure: Processor.FontSize -> real,
    save: string -> bool)

  class RootCommand {
    var cfg: Config

    /** init: the shared record starts out holding the flag defaults. */
    constructor ()
      ensures cfg == FlagDefaults()
    {
      cfg := FlagDefaults();
    }

    /**
     * RunE (root.go:23-37).  Cobra has already checked that there is exactly
     * one argument.  Quiet together with verbose is refused before anything
     * changes; quiet turns both logs off; the argument becomes the input path.
     */
    method RunE<Img>(args: seq<string>, world: World<Img>)
      returns (r: Result<Processor.Montage, CliError>, logs: seq<LogLine>)
      requires |args| == 1
      modifies this
      ensures old(cfg.Quiet && cfg.Verbose) ==> r == Err(QuietAndVerbose) && logs == [] && cfg == old(cfg)
      ensures !old(cfg.Quiet && cfg.Verbose) ==>
        cfg == old(cfg).(
          ShowAppLog := old(cfg.ShowAppLog) && !old(cfg.Quiet),
          ShowFfmpegLog := old(cfg.ShowFfmpegLog) && !old(cfg.Quiet),
          InputPath := args[0],
          OutputPath := if old(cfg.OutputPath) == "" then DefaultOutputPath(args[0]) else old(cfg.OutputPath))
      ensures old(cfg.Quiet) ==> logs == []
      ensures !old(cfg.Quiet && cfg.Verbose) ==> r.Ok? || !r.error.QuietAndVerbose?
      ensures !old(cfg.Quiet && cfg.Verbose) ==>
        logs == if cfg.ShowAppLog then AppLog(LogStreamFor(old(cfg.OutputPath)), cfg.InputPath, cfg.OutputPath, StageOf(r)) else []
      ensures !old(cfg.Quiet && cfg.Verbose) && Ffprobe.ProbeSpec(world.probe, world.parseFloat).Err? ==>
        r == Err(VideoInfoFailed(Ffprobe.ProbeSpec(world.probe, world.parseFloat).error))
      ensures !old(cfg.Quiet && cfg.Verbose) && Ffprobe.ProbeSpec(world.probe, world.parseFloat).Ok? ==>
        MontageOutcome(r, cfg, Ffprobe.ProbeSpec(world.probe, world.parseFloat).value, world)
    {
      if cfg.Quiet && cfg.Verbose {
        return Err(QuietAndVerbose), [];
      }
      if cfg.Quiet {
        cfg := cfg.(ShowAppLog := false);
        cfg := cfg.(ShowFfmpegLog := false);
      }
      cfg := cfg.(InputPath := args[0]);
      r, logs := RunMontage(world);
    }

    /** An empty output path becomes the default one next to the input (root.go:52-57). */
    method DefaultOutput()
      modifies this
      ensures cfg == old(cfg).(OutputPath := if old(cfg.OutputPath) == "" then DefaultOutputPath(old(cfg.InputPath)) else old(cfg.OutputPath))
    {
      if cfg.OutputPath == "" {
        var inputDir := Dir(cfg.InputPath);
        var baseName := TrimSuffix(Base(cfg.InputPath), Ext(cfg.InputPath));
        var newFileName := baseName + MontageSuffix;
        cfg := cfg.(OutputPath := Join(inputDir, newFileName));
      }
    }

    /**
     * runMontage (root.go:45-83): choose the log stream from the output path
     * as given, default an empty output path, then probe, build the montage
     * and report; each log line is written only when the application log is on.
     */
    method RunMontage<Img>(world: World<Img>) returns (r: Result<Processor.Montage, CliError>, logs: seq<LogLine>)
      modifies this
      ensures cfg == old(cfg).(OutputPath := if old(cfg.OutputPath) == "" then DefaultOutputPath(old(cfg.InputPath)) else old(cfg.OutputPath))
      ensures r.Ok? || !r.error.QuietAndVerbose?
      ensures logs == if cfg.ShowAppLog then AppLog(LogStreamFor(old(cfg.OutputPath)), cfg.InputPath, cfg.OutputPath, StageOf(r)) else []
      ensures Ffprobe.ProbeSpec(world.probe, world.parseFloat).Err? ==>
        r == Err(VideoInfoFailed(Ffprobe.ProbeSpec(world.probe, world.parseFloat).error))
      ensures Ffprobe.ProbeSpec(world.probe, world.parseFloat).Ok? ==>
        MontageOutcome(r, cfg, Ffprobe.ProbeSpec(world.probe, world.parseFloat).value, world)
    {
      var logWriter := Stdout;
      if cfg.OutputPath == "-" {
        logWriter := Stderr;
      }
      DefaultOutput();
      r, logs := Generate(cfg, logWriter, world);
    }
  }

  /**
   * The rest of runMontage (root.go:59-82), once the log stream is chosen and
   * the output path is final: probe the video, run the processor, and log
   * each stage reached when the application log is on.
   */
  method Generate<Img>(c: Config, logWriter: LogStream, world: World<Img>)
    returns (r: Result<Processor.Montage, CliError>, logs: seq<LogLine>)
    ensures r.Ok? || !r.error.QuietAndVerbose?
    ensures logs == if c.ShowAppLog then AppLog(logWriter, c.InputPath, c.OutputPath, StageOf(r)) else []
    ensures Ffprobe.ProbeSpec(world.probe, world.parseFloat).Err? ==>
      r == Err(VideoInfoFailed(Ffprobe.ProbeSpec(world.probe, world.parseFloat).error))
    ensures Ffprobe.ProbeSpec(world.probe, world.parseFloat).Ok? ==>
      MontageOutcome(r, c, Ffprobe.ProbeSpec(world.probe, world.parseFloat).value, world)
  {
    logs := [];
    if c.ShowAppLog {
      logs := logs + [LogLine(logWriter, Analyzing + c.InputPath)];
    }
    var videoInfo := Ffprobe.GetVideoInfo(world.probe, world.parseFloat);
    if videoInfo.Err? {
      return Err(VideoInfoFailed(videoInfo.error)), logs;
    }
    if c.ShowAppLog {
      logs := logs + [LogLine(logWriter, AnalysisComplete)];
    }
    assert logs == if c.ShowAppLog then [LogLine(logWriter, Analyzing + c.InputPath), LogLine(logWriter, AnalysisComplete)] else [];
    r, logs := ReportMontage(c, logWriter, videoInfo.value, world, logs);
    if c.ShowAppLog {
      AppLogPastProbe(logWriter, c.InputPath, c.OutputPath, r);
    }
  }

  /**
   * The last stage of runMontage (root.go:75-82): build the montage and, when
   * the application log is on and that succeeded, say where it went.
   */
  method ReportMontage<Img>(c: Config, logWriter: LogStream, info: Ffprobe.VideoInfo, world: World<Img>,
                            logsBefore: seq<LogLine>)
    returns (r: Result<Processor.Montage, CliError>, logs: seq<LogLine>)
    ensures r.Ok? || r.error.MontageFailed?
    ensures MontageOutcome(r, c, info, world)
    ensures logs == logsBefore + (if r.Ok? && c.ShowAppLog then [LogLine(logWriter, SuccessMessage(c.OutputPath))] else [])
  {
    logs := logsBefore;
    var montage := Processor.Run(c, info, world.autoHeight, world.ffmpeg, world.decode,
                                 world.canLoad, world.measure, world.save);
    if montage.Err? {
      return Err(MontageFailed(montage.error)), logs;
    }
    if c.ShowAppLog {
      if c.OutputPath != "-" {
        logs := logs + [LogLine(logWriter, SuccessAt + c.OutputPath)];
      } else {
        logs := logs + [LogLine(logWriter, SuccessToStdout)];
      }
    }
    r := Ok(montage.value);
  }

  /**
   * What runMontage reports once the video is probed: success exactly when
   * the processor gets through, then a sheet with every slot of the grid
   * filled as the processor describes it, and otherwise the processor's
   * first failure wrapped as a montage failure.
   */
  predicate MontageOutcome<Img>(r: Result<Processor.Montage, CliError>, c: Config, info: Ffprobe.VideoInfo, world: World<Img>) {
    (r.Ok? <==> Processor.RunOk(c, info, world.autoHeight, world.ffmpeg, world.decode, world.canLoad, world.measure, world.save)) &&
    (r.Ok? ==>
      Processor.SheetOf(r.value, c, info, Extraction.ExtractSpec(c.Columns * c.Rows, world.ffmpeg, world.decode).value,
                        c.ThumbWidth, Processor.ThumbHeightFor(c, info, world.autoHeight), world.canLoad, world.measure) &&
      |r.value.cells| == c.Columns * c.Rows &&
      (forall i :: 0 <= i < |r.value.cells| ==> r.value.cells[i].Some?)) &&
    (r.Err? ==>
      r == Err(MontageFailed(Processor.RunFailure(c, info, world.autoHeight, world.ffmpeg, world.decode, world.canLoad, world.measure, world.save))))
  }

  /** How far runMontage got before it returned. */
  datatype Stage = StoppedAtProbe | StoppedAtMontage | Finished

  function StageOf(r: Result<Processor.Montage, CliError>): Stage {
    if r.Ok? then Finished
    else if r.error.VideoInfoFailed? then StoppedAtProbe
    else StoppedAtMontage
  }

  /**
   * The application log of runMontage when it is on: one line per stage
   * reached.  Each line is the text of one fmt.Fprintln, kept without its
   * trailing newline, since the lines are kept apart as a sequence.
   */
  function AppLog(w: LogStream, input: string, output: string, stage: Stage): seq<LogLine> {
    [LogLine(w, Analyzing + input)] +
    (if stage != StoppedAtProbe then [LogLine(w, AnalysisComplete)] else []) +
    (if stage == Finished then [LogLine(w, SuccessMessage(output))] else [])
  }

  /** Once the probe succeeded, the log holds the two analysis lines and then the success line when there is one. */
  lemma AppLogPastProbe(w: LogStream, input: string, output: string, r: Result<Processor.Montage, CliError>)
    requires r.Ok? || r.error.MontageFailed?
    ensures AppLog(w, input, output, StageOf(r)) ==
      [LogLine(w, Analyzing + input), LogLine(w, AnalysisComplete)] +
      (if r.Ok? then [LogLine(w, SuccessMessage(output))] else [])
  {
  }

  /**
   * Every line goes to the one stream chosen up front; the log opens with the
   * input path, and its last line says how far the run got: the success
   * message only when it got to the end.
   */
  lemma AppLogShape(w: LogStream, input: string, output: string, stage: Stage)
    ensures var log := AppLog(w, input, output, stage);
      (forall k :: 0 <= k < |log| ==> log[k].stream == w) &&
      |log| == (match stage case StoppedAtProbe => 1 case StoppedAtMontage => 2 case Finished => 3) &&
      log[0].text == Analyzing + input &&
      log[|log| - 1].text == (match stage
        case StoppedAtProbe => Analyzing + input
        case StoppedAtMontage => AnalysisComplete
        case Finished => SuccessMessage(output))
  {
  }
}
