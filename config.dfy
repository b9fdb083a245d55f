/**
 * The configuration record shared by the command line and the processor.
 * The border fields are carried but nothing in the model reads them.
 */
module Settings {

  datatype Config = Config(
    InputPath: string,
    OutputPath: string,
    Columns: int,
    Rows: int,
    ThumbWidth: int,
    ThumbHeight: int,
    Padding: int,
    Margin: int,
    HeaderHeight: int,
    FontFile: string,
    FontColor: string,
    ShadowColor: string,
    BackgroundColor: string,
    JpegQuality: int,
    BorderThickness: int,
    BorderColor: string,
    FfmpegPath: string,
    FfprobePath: string,
    Quiet: bool,
    Verbose: bool,
    ShowAppLog: bool,
    ShowFfmpegLog: bool)

  /** NewConfig: every field at Go's zero value. */
  function NewConfig(): (c: Config)
    ensures c.InputPath == c.OutputPath == c.FontFile == c.FontColor == c.ShadowColor == ""
    ensures c.BackgroundColor == c.BorderColor == c.FfmpegPath == c.FfprobePath == ""
    ensures c.Columns == c.Rows == c.ThumbWidth == c.ThumbHeight == 0
    ensures c.Padding == c.Margin == c.HeaderHeight == c.JpegQuality == c.BorderThickness == 0
    ensures !c.Quiet && !c.Verbose && !c.ShowAppLog && !c.ShowFfmpegLog
  {
    Config("", "", 0, 0, 0, 0, 0, 0, 0, "", "", "", "", 0, 0, "", "", "", false, false, false, false)
  }
}
