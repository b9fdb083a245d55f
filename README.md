# MontageGo in Dafny

MontageGo turns a video file into a thumbnail sheet. It asks ffprobe for the video's metadata, has one ffmpeg run write the sampled frames as concatenated JPEG images, cuts that stream into images, decodes them into per-frame slots, and lays them out on a grid under a header. The header holds the file name, a metadata line and the codecs. The sheet is then encoded as a JPEG.

This project models the integer and string logic of that pipeline and proves what it promises:

- **Stream selection and validation** of the probe (`Ffprobe`).
- **The JPEG demuxer and slot assignment** of frame extraction (`Demux`, `Extraction`):
  - images are framed by the SOI marker FF D8 and the EOI marker FF D9 (marker codes from ITU-T T.81, Table B.1);
  - the checks after the loop run in a fixed order.
- **Grid geometry and row-major placement** (`Layout`, and `Processor.PlaceFrames`).
- **The mapping of ffmpeg's 1-31 quality scale** onto the encoder's 1-100 scale.
- **The colour resolver** (`Colors`):
  - a case-insensitive name table, one optional '#', and a length check;
  - `strconv.ParseInt` in base 16, including its acceptance of a sign.
- **The HH:MM:SS rendering** of `formatDuration` (`Clock`).
- **The shrink-to-fit loop for the title font**, over an abstract measure (`Processor.FitTitle`, `Processor.DrawText`).
- **The codec label** of the second metadata line.
- **The command line rules** (`Cli`):
  - flag defaults and the quiet/verbose conflict;
  - the choice of log stream and the default output path;
  - the application log and the success message.

The Go library functions the core relies on are modelled for Unix paths and ASCII case mapping:

- Go's truncating `/` and `%` (`GoInt`);
- `strings` (`GoStrings`);
- `strconv.ParseInt` and `FormatInt` (`GoStrconv`);
- `path/filepath` `Clean`, `Base`, `Dir`, `Ext` and `Join` (`GoFilepath`).

Process I/O, JSON, floating point, the raster library and the decoder are inputs:

- the probe's parsed output;
- ffmpeg's stdout, stderr and exit status;
- the float parser and the auto-height computation;
- `image.Decode`;
- font loading and `MeasureString`.

The order in which things happen is modelled:

- `RootCommand` is a class whose field `cfg` is the shared configuration record. `RunE` and `runMontage` update it in place.
- `GetVideoInfo` is a loop over the streams.
- Frame extraction is a loop that writes decoded images into an array of slots.
- The font loop shrinks the size until the title fits.

Quality 31 maps to 10 (100 - 30*3); the clamp to 1 starts at q = 34.

## Model

| member | source | states |
|---|---|---|
| Settings.NewConfig | pkg/config/config.go:29-31 | a fresh configuration has every field at Go's zero value: empty strings, zero numbers, all flags off |
| Ffprobe.GetVideoInfo | internal/ffprobe/ffprobe.go:61-103 | the stream loop and the checks return exactly ProbeSpec: a failed run of the tool or unreadable JSON is an error; otherwise the record with the format fields, the selected video and audio fields, and the parsed duration and size, or the dimension error |
| Ffprobe.TakenStep | internal/ffprobe/ffprobe.go:83-97 | one pass of the switch keeps the record's stream fields equal to what the streams seen so far select |
| Ffprobe.NoVideoCodecYet | internal/ffprobe/ffprobe.go:86 | the loop's "no video codec yet" test holds exactly while no video stream with a codec name has been seen |
| Ffprobe.FirstNamedVideoIsNamed | internal/ffprobe/ffprobe.go:85-91 | the stream the video fields come from, when one names its codec, is a video stream with a non-empty codec name |
| Ffprobe.FirstNamedVideoAt | internal/ffprobe/ffprobe.go:85-91 | if stream k is the first video stream naming its codec, it is the one found |
| Ffprobe.NoNamedVideo | internal/ffprobe/ffprobe.go:85-91 | with no video stream naming its codec, no named video stream is found |
| Ffprobe.LastVideoAt | internal/ffprobe/ffprobe.go:85-91 | the last video stream is the one whose fields remain when none names its codec |
| Ffprobe.NoVideo | internal/ffprobe/ffprobe.go:83-91 | without a video stream, no stream supplies the video fields |
| Ffprobe.SelectedNamedVideo | internal/ffprobe/ffprobe.go:83-91 | width, height, codec and frame rate all come from the first video stream with a codec name |
| Ffprobe.SelectedLastVideo | internal/ffprobe/ffprobe.go:83-91 | when no video stream names its codec, all four video fields come from the last video stream |
| Ffprobe.FirstAudioCodecAt | internal/ffprobe/ffprobe.go:92-95 | the audio codec is the codec name of the first audio stream that has one |
| Ffprobe.NoNamedAudio | internal/ffprobe/ffprobe.go:92-95 | with no audio stream naming its codec, the audio codec stays empty |
| Ffprobe.NonVideoKeepsFirstNamed | internal/ffprobe/ffprobe.go:84-91 | inserting a non-video stream anywhere does not change the first named video stream |
| Ffprobe.NonVideoKeepsLast | internal/ffprobe/ffprobe.go:84-91 | inserting a non-video stream anywhere does not change the last video stream |
| Ffprobe.NonAudioKeepsAudioCodec | internal/ffprobe/ffprobe.go:92-95 | inserting a non-audio stream anywhere does not change the audio codec |
| Ffprobe.OtherStreamIgnored | internal/ffprobe/ffprobe.go:84-96 | a stream that is neither video nor audio changes neither the video fields nor the audio codec, wherever it sits |
| Ffprobe.ProbeOk | internal/ffprobe/ffprobe.go:71-103 | success means the output was parsed, Path and BitRate are the format's filename and bit rate verbatim, and width and height are non-zero and come from a video stream |
| Ffprobe.UnparsedFieldsAreZero | internal/ffprobe/ffprobe.go:76-81 | a duration or size that does not parse leaves that field 0; the only error on parsed output is the dimension error |
| Ffprobe.ZeroDimensionRejected | internal/ffprobe/ffprobe.go:99-101 | the dimension error is returned exactly when no video stream was selected or its width or height is 0 |
| Demux.Index | internal/processor/processor.go:171 | bytes.Index of a marker: the first position of FF code, with no occurrence before it, or -1 exactly when there is none |
| Demux.FindSpec | internal/processor/processor.go:171-182 | the search from a position returns the first marker at or after it, and -1 exactly when there is none |
| Demux.IndexShift | internal/processor/processor.go:171-182 | searching the slice from the cursor and adding the cursor is searching the whole buffer from the cursor |
| Demux.NextSpanFramed | internal/processor/processor.go:169-185 | one pass of the loop cuts out a range that starts with FF D8, ends with FF D9 and has no EOI in between, and skips no SOI |
| Demux.Scan | internal/processor/processor.go:169-199 | the loop yields at most numFrames ranges |
| Demux.ScanChained | internal/processor/processor.go:166-185 | every range of the scan is one framed image; each starts at or after the end of the previous one, with no SOI skipped |
| Demux.NoCompleteImageIff | internal/processor/processor.go:172-181 | the loop stops early exactly when no SOI at or after the cursor has a following EOI |
| Demux.ScanStops | internal/processor/processor.go:169-181 | the cursor stays in the buffer, and a scan shorter than numFrames means no complete image is left after the cursor |
| Demux.ScanDisjoint | internal/processor/processor.go:166-185 | the ranges come in stream order and are pairwise disjoint |
| Demux.ScanInBounds | internal/processor/processor.go:184 | every range cut out lies inside the buffer |
| Demux.SlicesAt | internal/processor/processor.go:184 | slice k is the bytes of range k |
| Demux.NextSpanAt | internal/processor/processor.go:169-185 | a well-formed image at the cursor is exactly what the next pass cuts out, whatever follows it |
| Demux.ScanFindsImages | internal/processor/processor.go:169-185 | with well-formed images laid out from the cursor and no more of them than the budget, the scan finds exactly their ranges |
| Demux.SlicesOfOffsets | internal/processor/processor.go:184 | cutting laid-out images at their ranges gives the images back |
| Demux.ScanImages | internal/processor/processor.go:169-185 | a buffer of k <= numFrames well-formed images and an EOI-free tail scans to exactly those images, and they and the tail make up the buffer |
| Extraction.ExtractFrames | internal/processor/processor.go:91-214 | the extraction returns exactly ExtractSpec. The checks run in this order: a non-positive frame count, a failed ffmpeg run, the first decode failure, and a short stream with its counts and stderr |
| Extraction.GatherFrames | internal/processor/processor.go:165-202 | the demux loop returns numFrames fresh slots holding the decodes and the failures in slot order; it stops with all frames found or no complete image left |
| Extraction.GatherStep | internal/processor/processor.go:169-198 | one pass either finds no next image and writes nothing, or cuts the next image, decodes it into the next slot and keeps the collected state consistent |
| Extraction.FindImage | internal/processor/processor.go:171-185 | the SOI search and the EOI search from it find an image exactly when the scan has a next range, which is [soi, eoi + 2) |
| Extraction.DecodeFrame | internal/processor/processor.go:188-196 | slot index receives the decoded image and no other slot changes; on failure nothing is written |
| Extraction.SlotsHoldSnoc | internal/processor/processor.go:188-196 | writing the next slot only when decoding succeeds keeps the array equal to the decoded slots followed by empty slots |
| Extraction.SlotsHoldAll | internal/processor/processor.go:162 | once every slot has been handled, the array is exactly the decoded slots |
| Extraction.Collect | internal/processor/processor.go:169-199 | one pass of the loop body keeps the ranges, the slots, the failures and the cursor consistent |
| Extraction.WalkIsScan | internal/processor/processor.go:169-199 | the ranges the loop found pass by pass are the scan, once the budget is used up or nothing more is found |
| Extraction.FailuresSpec | internal/processor/processor.go:201-207 | the failures list exactly the slots whose decode failed, each once, in increasing order |
| Extraction.FirstFailure | internal/processor/processor.go:204-207 | the error returned is the lowest failing slot; no failure means every slot is filled |
| Extraction.FailuresSnoc | internal/processor/processor.go:190-193 | a new failing slot is reported after the earlier ones |
| Extraction.ExtractOutcome | internal/processor/processor.go:201-214 | after the loop, a decode failure comes first, then a short count, else the slots |
| Extraction.ExtractSlots | internal/processor/processor.go:188-199 | the slots the loop filled are the decodes of the scanned slices, slot k from slice k |
| Extraction.ExtractOk | internal/processor/processor.go:157-214 | success means numFrames ranges were found; every slot is filled, slot k with the decode of the k-th framed image, in stream order |
| Extraction.DecodeFailedIff | internal/processor/processor.go:201-207 | decode failure k is reported exactly when image k fails to decode and all earlier images decode |
| Extraction.ShortStreamMeans | internal/processor/processor.go:209-212 | a short-stream error reports the recovered count, which is below numFrames. Every image found decoded, and no complete image was left |
| Extraction.ExtractImages | internal/processor/processor.go:157-214 | a stream of k <= numFrames well-formed images and an EOI-free tail gives the first decode failure, a short stream with count k, or exactly the decoded images |
| Layout.RowMajor | internal/processor/processor.go:260-264 | frame i sits in row i / columns and column i % columns, at (margin + col*(tw+pad), header + margin + row*(th+pad)) |
| Layout.CellInsideCanvas | internal/processor/processor.go:220-264 | each of the columns × rows thumbnails lies inside the canvas, clear of the margins and the header |
| Layout.CellsDisjoint | internal/processor/processor.go:260-264 | two different thumbnails never overlap |
| Layout.ReferenceCanvas | internal/processor/processor.go:220-224 | the canvas is columns*tw + (columns-1)*pad + 2*margin wide and rows*th + (rows-1)*pad + 2*margin + header high |
| Processor.OutputQuality | internal/processor/processor.go:285-291 | the result is in [1, 100], equals 100 - (q-1)*3 strictly inside, is 100 exactly for q <= 1 and 1 exactly for q >= 34, and maps 2 to 97 and 31 to 10 |
| Processor.Shrink | internal/processor/processor.go:320-332 | the search read as a recursion on the size: an error names a size above 10, at most the start, reached in steps of 2, that does not load; a success above 10 is a size that loads and fits |
| Processor.ShrinkSucceeds | internal/processor/processor.go:320-332 | when every even size the search can reach loads, it succeeds |
| Processor.LargerSizesMiss | internal/processor/processor.go:320-332 | every even size above the face the loop settled on was loaded and did not fit |
| Processor.FitTitle | internal/processor/processor.go:319-332 | the result is exactly Shrink from 40. The loop loads at most 15 sizes, 40, 38, ..., and never 10. The result is even and in [10, 40]. If it is above 10, it is the last size loaded and fits. If it is 10, the last face loaded is 12. Every size loaded before the result does not fit. A load failure returns the failing size |
| Processor.CodecLabel | internal/processor/processor.go:401-405 | without an audio codec the label is the upper-cased video codec; with one it is that, then " / ", then the upper-cased audio codec |
| Processor.CodecLabelSplits | internal/processor/processor.go:401-405 | the label splits back into the two upper-cased codec names, and an empty audio part means no audio codec |
| Processor.DrawText | internal/processor/processor.go:301-357 | success exactly when the face at 40 loads, both colours parse, the fit loop loads every face it tries and the metadata face loads. Otherwise the error is the first failing step, in the order 40-point face, shadow colour, font colour, fit loop, metadata size (FirstTextFailure); a font error names a size that does not load. Success gives HeaderFor: both parsed colours, the base name of the video path as title, the codec label, and as title size the largest even size from 40 down that fits, or 12 when none above 10 does |
| Processor.PlaceFrames | internal/processor/processor.go:254-266 | exactly the non-empty slots get a cell, and slot i's cell is the row-major origin of i |
| Processor.PlacedCellsFit | internal/processor/processor.go:254-266 | placed frames of a grid with room for them lie inside the canvas and do not overlap |
| Processor.ComposeMontage | internal/processor/processor.go:217-298 | success exactly when the background parses and, with a font file, the header text can be drawn and the stamp face loads, and writing the encoded sheet to the output path's destination succeeds (ComposeOk). Otherwise the error is the first failing step, in the order background, header text with drawText's own first failure, stamp face, write to standard output or the file (ComposeFailure). Success gives SheetOf: the canvas size of the grid, the parsed background, a header exactly when a font file is given and then as drawText makes it, a cell at its row-major origin for exactly the filled slots, the clamped quality, and stdout exactly for "-" |
| Processor.Run | internal/processor/processor.go:60-86 | success exactly when the height can be derived (configured, or the video height is non-zero), ExtractSpec succeeds and the composition succeeds (RunOk), the final write included. Otherwise the error is the first failing step, in the order zero video height, ExtractSpec's error, the composition's first failure (RunFailure). Success is the sheet composed from ExtractSpec's frames with the derived height, all columns*rows slots filled |
| Colors.ParseHexColor | internal/processor/processor.go:423-443 | a resolved colour is always opaque |
| Colors.ParseHexToken | internal/processor/processor.go:430-442 | after the lookup, a refusal names the token that was checked, and an accepted colour is opaque |
| Colors.AcceptedTokens | internal/processor/processor.go:423-436 | a token is accepted exactly when, after the lookup and one '#' removed, it is six hex digits, or a sign and five |
| Colors.HexDigitPairs | internal/processor/processor.go:433-442 | six hex digits give red, green and blue from the three digit pairs, with alpha 255 |
| Colors.ChannelsOfPairs | internal/processor/processor.go:437-442 | the uint8 conversions of c >> 16, c >> 8 and c recover the three bytes of a 24-bit value |
| Colors.FormatHexRoundTrip | internal/processor/processor.go:423-443 | the "#rrggbb" spelling of any opaque colour resolves back to that colour |
| Colors.HashIsOptional | internal/processor/processor.go:429 | "#RRGGBB" and "RRGGBB" give the same result for any token that is not a colour name |
| Colors.NamedHexPart | internal/processor/processor.go:424-429 | a name is looked up in lower case, and its table entry without the '#' is what gets parsed |
| Colors.NoNameIsHex | internal/processor/processor.go:22-45 | no colour name is itself a hex token, so the table never shadows one |
| Colors.NamesAreLowerCase | internal/processor/processor.go:22-45 | every key of the table is lower case, so the lower-cased lookup can reach it |
| Colors.NamesHaveNoHash | internal/processor/processor.go:22-45 | no key of the table starts with '#' |
| Colors.UniformChannels | internal/processor/processor.go:433-442 | a hex part made of one repeated digit gives that grey level on every channel |
| Colors.WhiteExample | internal/processor/processor.go:423-443 | "white" resolves to (255, 255, 255, 255) |
| Colors.CaseInsensitive | internal/processor/processor.go:424-429 | every token resolves as its lower-case spelling does, so names and hex digits match in any letter case |
| Colors.BlackExample | internal/processor/processor.go:423-443 | "black" resolves to (0, 0, 0, 255) |
| Colors.PlainHexExample | internal/processor/processor.go:423-443 | "111111" resolves to (17, 17, 17, 255) |
| Colors.HashedHexExample | internal/processor/processor.go:423-443 | "#111111" resolves to (17, 17, 17, 255) |
| Colors.NonHexExample | internal/processor/processor.go:433-436 | "zzzzzz" passes the length check and is refused by the parse |
| Colors.HashedNameExample | internal/processor/processor.go:424-432 | "#white" is no name; what remains, "white", fails the length check |
| Colors.SignedTokenExample | internal/processor/processor.go:430-442 | "-00001" passes both checks and reads as -1, so every channel is 255 |
| Colors.HashedNamesRejected | internal/processor/processor.go:424-432 | no colour name is recognised behind a '#' |
| Clock.SplitSeconds | internal/processor/processor.go:414-418 | h*3600 + m*60 + s is the duration; for d >= 0, h = d/3600, m = (d%3600)/60 and s = d%60 with m and s below 60; for d < 0 every field is truncated toward zero |
| Clock.Pad2Digits | internal/processor/processor.go:419 | "%02d" of a non-negative value is at least two decimal digits denoting it, exactly two below 100 |
| Clock.FormatDurationRoundTrip | internal/processor/processor.go:411-420 | for d >= 0 the text is hours, then two-digit minutes and seconds, and reading it back gives d |
| GoInt.Quo | internal/processor/processor.go:260 | Go's quotient agrees with Euclidean division for a non-negative dividend and a positive divisor |
| GoInt.Rem | internal/processor/processor.go:261 | the remainder completes the quotient: a == Quo(a, b) * b + Rem(a, b) |
| GoInt.QuoRemSigns | internal/processor/processor.go:260-261 | the remainder is smaller than the divisor in magnitude and takes the dividend's sign |
| GoStrconv.ParseInt | internal/processor/processor.go:433 | a parsed value fits a signed bitSize-bit integer |
| GoStrconv.CutoffIsPower | internal/processor/processor.go:433 | the written-out bounds are 2^(bitSize-1) |
| GoStrconv.FormatIntRoundTrip | internal/processor/processor.go:433 | ParseInt reads back FormatInt for every value in range, in every base from 2 to 36 |
| GoStrconv.LeadingZero | internal/processor/processor.go:433 | leading zeros do not change the value ParseInt reads |
| GoStrings.TrimPrefix | internal/processor/processor.go:429 | one leading copy of the prefix is removed if present, otherwise the string is unchanged |
| GoStrings.TrimSuffix | cmd/root.go:54 | one trailing copy of the suffix is removed if present, otherwise the string is unchanged |
| GoStrings.AsciiByteLen | internal/processor/processor.go:430 | for ASCII text Go's byte length is the character count |
| GoStrings.ByteLenAtLeastLength | internal/processor/processor.go:430 | the byte length is at least the character count, and equal only for ASCII text |
| GoStrings.ToUpperHasNoLowercase | internal/processor/processor.go:402-404 | upper-casing keeps the length and leaves no lower-case ASCII letter |
| GoFilepath.Ext | cmd/root.go:54 | the extension is a suffix of the path, starts with '.' when not empty, and contains no '/' |
| GoFilepath.CleanNotEmpty | cmd/root.go:53 | Clean never returns the empty path |
| GoFilepath.CleanKeepsLastElement | cmd/root.go:56 | cleaning dir + "/" + name keeps the name last, after a directory part ending in '/' |
| GoFilepath.BaseOfJoin | cmd/root.go:53-56 | joining a non-empty directory and a plain name gives a path whose Base is that name |
| GoFilepath.BaseOfNamedPath | internal/processor/processor.go:320 | the Base of a path ending in a plain name, after a '/' or nothing, is that name |
| Cli.FlagDefaults | cmd/root.go:95-126 | columns 4, rows 5, width 640, height -1, padding 5, margin 20, header 150, quality 2, colours white, black and #222222, border 1 and #111111, ffmpeg and ffprobe, app and ffmpeg logs on |
| Cli.DefaultsDescribeSheet | cmd/root.go:100-114 | the default sheet has 20 frames and encodes at quality 97 |
| Cli.LogStreamFor | cmd/root.go:47-50 | the application log goes to stderr exactly when the output path is "-" |
| Cli.SuffixedNameIsNormal | cmd/root.go:55 | a stem without '/' followed by "_montage.jpg" is a plain file name |
| Cli.DefaultOutputBase | cmd/root.go:52-57 | the default output path names a file whose base name is the input's stem followed by "_montage.jpg" |
| Cli.SuccessMessage | cmd/root.go:75-81 | the success line names the output path, unless the output is "-" |
| Cli.SuccessMessageNamesPath | cmd/root.go:75-81 | the message ends with the path and is 37 characters longer exactly when the output is not "-" |
| Cli.AppLogShape | cmd/root.go:59-81 | every log line goes to the one chosen stream. The log opens with the input path and has one line per stage reached. Its last line is the success message only when the run finished |
| Cli.RootCommand.constructor | cmd/root.go:92-95 | the shared record starts out holding the flag defaults |
| Cli.RootCommand.RunE | cmd/root.go:23-37 | quiet with verbose is an error, with no log and no change. Otherwise quiet turns both logs off and the argument becomes the input path, the output path is defaulted when empty, and runMontage's promises hold: the log stream, the lines per stage when on, the wrapped probe error, and MontageOutcome on a probed video. Quiet produces no log |
| Cli.RootCommand.DefaultOutput | cmd/root.go:52-57 | an empty output path becomes Join(Dir(input), TrimSuffix(Base(input), Ext(input)) + "_montage.jpg"); a non-empty one and every other field stay |
| Cli.RootCommand.RunMontage | cmd/root.go:45-83 | the log stream is chosen from the output path before defaulting, and only the output path changes. A probe failure is wrapped; on a probed video the result is MontageOutcome. The log has one line per stage reached, when on |
| Cli.Generate | cmd/root.go:59-82 | the probe's error is wrapped and stops the run. Otherwise the result is MontageOutcome on the probed video. The log lines follow the stages reached |
| Cli.ReportMontage | cmd/root.go:70-82 | MontageOutcome: success exactly when Processor.RunOk holds, the final write of the sheet included. On success the result is the sheet Processor.Run describes, with every one of columns*rows slots filled; otherwise it is Processor.RunFailure wrapped as a montage failure. The success line is added only on success with the application log on, so a failed write logs none |

## Left out

- Running ffprobe and ffmpeg, their stdout and stderr buffers, and JSON unmarshalling are not modelled. The parsed probe record, and the run's exit status, stdout and stderr, are inputs.
- Building the ffmpeg command (the select filter, `-ss`, `-vf`, `-q:v`) is not modelled. It is float formatting and string assembly for a foreign filter language.
- The decoding goroutines, the WaitGroup and the error channel are modelled sequentially, with `image.Decode` as an abstract partial function:
  - "the first error received" becomes the lowest failing slot;
  - each slot is written by its own decode only, as in the source.
- The floating-point stages, because the model's numbers are integers:
  - the sample timestamps;
  - frame-rate parsing;
  - the bit-rate and file-size text;
  - the float-to-Duration rounding of `formatDuration`;
  - the metadata line 1 (resolution, FPS, bit rate);
  - the time-stamp labels drawn on each frame;
  - the title fit test, which compares the measured width with 0.9 × the canvas width as an exact real, where Go computes `float64(totalWidth)*0.9` in binary floating point. A width that sits exactly on the rounded boundary can be judged differently.
  The auto thumbnail height is a function parameter, and `ParseFloat` of the duration is too.
- The gg raster library is not modelled: drawing, shadows, DrawImage, real font loading and MeasureString, and the bytes JPEG encoding produces. Font loading and measuring are abstract parameters, and the result is a description of the sheet.
- Whether `jpeg.Encode` to stdout or `gg.SaveJPG` to the file succeeds (processor.go:293-297) is the input `save`, keyed by the output path, with "-" naming stdout. It does not depend on the pixels, so a write that fails for one image and not another is not distinguished.
- Cobra's flag parsing, `Execute`, `os.Exit`, `SetVersion` and `main.go` are not modelled.
- Cli.RootCommand.RunE: requires exactly one argument, because Cobra's ExactArgs(1) rejects any other count before RunE runs.
- Go's `int` overflow is not modelled. Integers are unbounded, so `Columns * Rows` and the canvas arithmetic of very large grids do not wrap as they would in 64 bits.
- BorderThickness and BorderColor are carried in the record but are never read, as in the source.
- GoStrconv.ParseInt: folds Go's syntax and range errors into one `None`, because no caller in the core distinguishes them.
- GoStrings.ToUpper, GoStrings.ToLower: map ASCII letters only, not the full Unicode case tables.
- `path/filepath` is modelled for Unix paths only, with '/' as the sole separator and no volume names.
- GoFilepath.CleanKeepsLastElement: is stated for paths of the form dir + "/" + name, the only form the default output path takes.
- Cli.DefaultOutputBase: requires that the input's stem holds no '/'. The one input it excludes is a path made only of slashes, whose Base is "/".
- Error texts from `fmt.Errorf` are not modelled. Errors are datatype constructors that carry the data the text would show: an index, counts and stderr, or the refused colour token.
